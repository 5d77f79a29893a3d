// A sentence's text and audio format go out ahead of its audio, once.
module BargeInAnnouncements {
  import opened Common
  import opened BargeIn
  import opened BargeInMessages
  import opened BargeInAudio

  datatype Kind = Text | Format

  /** The message that announces voice v in the given way. */
  function Announcement(v: nat, job: Job, kind: Kind): Out {
    match kind
    case Text => LlmChunk(job.turn, v, job.text)
    case Format => AudioFormat(job.turn, v)
  }

  predicate Announces(out: Out, v: nat, kind: Kind) {
    match kind
    case Text => out.LlmChunk? && out.voice == v
    case Format => out.AudioFormat? && out.voice == v
  }

  /** Nobody but the worker announces or sends audio. */
  predicate Unrelated(out: Out) { !out.LlmChunk? && !out.AudioFormat? && !out.AudioFrame? }

  lemma OthersPutUnrelated(env: Env, s: Session, step: Step)
    requires Enabled(env, s, step) && !step.ByWorker?
    ensures var sent' := Apply(env, s, step).sent;
            PutsAtMostOne(s.sent, sent') && (sent' != s.sent ==> Unrelated(sent'[|s.sent|]))
  {
    match step
    case ByReader(r) => ReaderPuts(env, s, r);
    case ByForwarder(i, f) => ForwarderPuts(s, i, f);
    case ByChat(c, e) => ChatPuts(s, c, e);
    case ByWriter(_) =>
    case ByMicrophone(lost) => MicrophonePuts(env, s, lost);
  }

  // ---- At most once -------------------------------------------------------------------

  function Weight(v: nat, kind: Kind): Out -> nat {
    (out: Out) => if Announces(out, v, kind) then 1 else 0
  }

  /** The worker has not come to the announcement yet. */
  predicate NotYet(w: Worker, voices: nat, v: nat, kind: Kind) {
    || v >= voices
    || (HasVoice(w) && w.voice == v &&
          (|| w.Holding? || w.Discarding? || w.Telling?
           || ((w.Listening? || w.Testing?) && !w.announced)
           || (w.Formatting? && kind.Format?)))
  }

  ghost predicate Once(s: Session, v: nat, kind: Kind) {
    Tally(s.sent, Weight(v, kind)) <= if NotYet(s.worker, |s.voices|, v, kind) then 0 else 1
  }

  lemma WorkerKeepsOnce(s: Session, w: WorkerStep, v: nat, kind: Kind)
    requires Once(s, v, kind) && WorkerEnabled(s, w)
    ensures Once(WorkerApply(s, w), v, kind)
  {
    WorkerPuts(s, w);
    TallyPut(s.sent, WorkerApply(s, w).sent, Weight(v, kind));
  }

  lemma OthersKeepOnce(env: Env, s: Session, step: Step, v: nat, kind: Kind)
    requires Once(s, v, kind) && Enabled(env, s, step) && !step.ByWorker?
    ensures Once(Apply(env, s, step), v, kind)
  {
    OthersPutUnrelated(env, s, step);
    TallyPut(s.sent, Apply(env, s, step).sent, Weight(v, kind));
    OthersKeepPlace(env, s, step);
  }

  lemma OthersKeepPlace(env: Env, s: Session, step: Step)
    requires Enabled(env, s, step) && !step.ByWorker?
    ensures var s' := Apply(env, s, step);
            && s'.worker == s.worker && |s'.voices| == |s.voices|
            && forall v | 0 <= v < |s.voices| :: s'.voices[v].job == s.voices[v].job
  {
    if step.ByReader? { ReaderKeepsVoices(env, s, step.r); }
  }

  lemma {:induction false} OnceOverRun(env: Env, s: Session, steps: seq<Step>, v: nat, kind: Kind)
    requires Once(s, v, kind) && Legal(env, s, steps)
    ensures Once(Run(env, s, steps), v, kind)
    decreases |steps|
  {
    if steps != [] {
      if steps[0].ByWorker? {
        WorkerKeepsOnce(s, steps[0].w, v, kind);
      } else {
        OthersKeepOnce(env, s, steps[0], v, kind);
      }
      OnceOverRun(env, Apply(env, s, steps[0]), steps[1..], v, kind);
    }
  }

  // ---- In front of the audio --------------------------------------------------------------

  ghost predicate AnnouncedWithin(sent: seq<Out>, n: nat, announcement: Out) {
    exists i :: 0 <= i < n && i < |sent| && sent[i] == announcement
  }

  /** What has to stand behind the announcement. */
  predicate ComesAfter(out: Out, v: nat, kind: Kind) {
    (out.AudioFrame? && out.voice == v) || (kind.Text? && out.AudioFormat? && out.voice == v)
  }

  /** The worker is past the announcement. */
  predicate Past(w: Worker, v: nat, kind: Kind) {
    HasVoice(w) && w.voice == v &&
    (|| w.Sending? || ((w.Listening? || w.Testing?) && w.announced)
     || (w.Formatting? && kind.Text?))
  }

  ghost predicate InFront(sent: seq<Out>, v: nat, kind: Kind, announcement: Out) {
    forall k | 0 <= k < |sent| && ComesAfter(sent[k], v, kind) :: AnnouncedWithin(sent, k, announcement)
  }

  ghost predicate Ahead(s: Session, v: nat, kind: Kind)
    requires v < |s.voices|
  {
    var announcement := Announcement(v, s.voices[v].job, kind);
    && InFront(s.sent, v, kind, announcement)
    && (Past(s.worker, v, kind) ==> AnnouncedWithin(s.sent, |s.sent|, announcement))
  }

  /** The announcement was dropped, on a full buffer or at the end. */
  predicate Drops(s: Session, step: Step, v: nat, kind: Kind) {
    && step.ByWorker? && HasVoice(s.worker) && s.worker.voice == v
    && (if kind.Text? then step.w.TellText? && step.w.lost else step.w.TellFormat? && step.w.lost)
  }

  lemma InFrontGrows(sent: seq<Out>, sent': seq<Out>, v: nat, kind: Kind, announcement: Out)
    requires PutsAtMostOne(sent, sent') && InFront(sent, v, kind, announcement)
    requires sent' != sent && ComesAfter(sent'[|sent|], v, kind) ==> AnnouncedWithin(sent, |sent|, announcement)
    ensures InFront(sent', v, kind, announcement)
    ensures AnnouncedWithin(sent, |sent|, announcement) ==> AnnouncedWithin(sent', |sent'|, announcement)
  {
    if AnnouncedWithin(sent, |sent|, announcement) {
      var i :| 0 <= i < |sent| && sent[i] == announcement;
      assert sent'[i] == announcement;
    }
    forall k | 0 <= k < |sent'| && ComesAfter(sent'[k], v, kind) ensures AnnouncedWithin(sent', k, announcement) {
      var i :| 0 <= i < k && i < |sent| && sent[i] == announcement;
      assert sent'[i] == announcement;
    }
  }

  lemma WorkerTells(s: Session, w: WorkerStep, v: nat, kind: Kind)
    requires v < |s.voices| && WorkerEnabled(s, w) && !Drops(s, ByWorker(w), v, kind)
    requires Past(WorkerApply(s, w).worker, v, kind) && !Past(s.worker, v, kind)
    ensures var sent' := WorkerApply(s, w).sent;
            AnnouncedWithin(sent', |sent'|, Announcement(v, s.voices[v].job, kind))
  {
    var sent' := WorkerApply(s, w).sent;
    assert sent'[|s.sent|] == Announcement(v, s.voices[v].job, kind);
  }

  /** Whatever comes after the announcement, the worker sends past it. */
  lemma WorkerPutsPast(s: Session, w: WorkerStep, v: nat, kind: Kind)
    requires v < |s.voices| && WorkerEnabled(s, w)
    ensures var sent' := WorkerApply(s, w).sent;
            && PutsAtMostOne(s.sent, sent')
            && (sent' != s.sent && ComesAfter(sent'[|s.sent|], v, kind) ==> Past(s.worker, v, kind))
  {
    WorkerPuts(s, w);
  }

  lemma WorkerKeepsAhead(s: Session, w: WorkerStep, v: nat, kind: Kind)
    requires v < |s.voices| && Ahead(s, v, kind) && WorkerEnabled(s, w) && !Drops(s, ByWorker(w), v, kind)
    ensures v < |WorkerApply(s, w).voices| && Ahead(WorkerApply(s, w), v, kind)
  {
    var s' := WorkerApply(s, w);
    WorkerKeepsScripts(s, w);
    WorkerPutsPast(s, w, v, kind);
    InFrontGrows(s.sent, s'.sent, v, kind, Announcement(v, s.voices[v].job, kind));
    if Past(s'.worker, v, kind) && !Past(s.worker, v, kind) { WorkerTells(s, w, v, kind); }
  }

  lemma OthersKeepAhead(env: Env, s: Session, step: Step, v: nat, kind: Kind)
    requires v < |s.voices| && Ahead(s, v, kind) && Enabled(env, s, step) && !step.ByWorker?
    ensures v < |Apply(env, s, step).voices| && Ahead(Apply(env, s, step), v, kind)
  {
    OthersPutUnrelated(env, s, step);
    OthersKeepPlace(env, s, step);
    InFrontGrows(s.sent, Apply(env, s, step).sent, v, kind, Announcement(v, s.voices[v].job, kind));
  }

  ghost predicate NeverDrops(env: Env, s: Session, steps: seq<Step>, v: nat, kind: Kind)
    requires Legal(env, s, steps)
    decreases |steps|
  {
    steps == [] || (!Drops(s, steps[0], v, kind) && NeverDrops(env, Apply(env, s, steps[0]), steps[1..], v, kind))
  }

  lemma {:induction false} AheadOverRun(env: Env, s: Session, steps: seq<Step>, v: nat, kind: Kind)
    requires v < |s.voices| && Ahead(s, v, kind) && Legal(env, s, steps) && NeverDrops(env, s, steps, v, kind)
    ensures v < |Run(env, s, steps).voices| && Ahead(Run(env, s, steps), v, kind)
    decreases |steps|
  {
    if steps != [] {
      if steps[0].ByWorker? {
        WorkerKeepsAhead(s, steps[0].w, v, kind);
      } else {
        OthersKeepAhead(env, s, steps[0], v, kind);
      }
      AheadOverRun(env, Apply(env, s, steps[0]), steps[1..], v, kind);
    }
  }

  // ---- From the very beginning ------------------------------------------------------------------

  /** Nothing of a voice is out before it is opened. */
  ghost predicate NothingYet(s: Session, v: nat) {
    v >= |s.voices| && forall k | 0 <= k < |s.sent| :: !ComesAfter(s.sent[k], v, Text)
  }

  lemma StepKeepsNothingYet(env: Env, s: Session, step: Step, v: nat, kind: Kind)
    requires NothingYet(s, v) && Enabled(env, s, step)
    ensures var s' := Apply(env, s, step); NothingYet(s', v) || (v < |s'.voices| && Ahead(s', v, kind))
  {
    var s' := Apply(env, s, step);
    if step.ByWorker? {
      WorkerPuts(s, step.w);
      WorkerOpensAtMostOne(s, step.w);
      assert forall k | 0 <= k < |s'.sent| :: !ComesAfter(s'.sent[k], v, Text);
      assert forall k | 0 <= k < |s'.sent| :: !ComesAfter(s'.sent[k], v, kind);
    } else {
      OthersPutUnrelated(env, s, step);
      OthersKeepPlace(env, s, step);
    }
  }

  lemma WorkerOpensAtMostOne(s: Session, w: WorkerStep)
    requires WorkerEnabled(s, w)
    ensures var s' := WorkerApply(s, w);
            |s'.voices| == |s.voices| || (|s'.voices| == |s.voices| + 1 && s'.worker == Holding(|s.voices|))
  {
  }

  lemma {:induction false} AheadFromStart(env: Env, s: Session, steps: seq<Step>, v: nat, kind: Kind)
    requires NothingYet(s, v) && Legal(env, s, steps) && NeverDrops(env, s, steps, v, kind)
    ensures var s' := Run(env, s, steps); v < |s'.voices| ==> Ahead(s', v, kind)
    decreases |steps|
  {
    if steps != [] {
      var s' := Apply(env, s, steps[0]);
      StepKeepsNothingYet(env, s, steps[0], v, kind);
      if v < |s'.voices| {
        AheadOverRun(env, s', steps[1..], v, kind);
      } else {
        AheadFromStart(env, s', steps[1..], v, kind);
      }
    }
  }

  /** Under every schedule each sentence's text and format are put out at most
      once; and unless that very message was dropped, every audio frame of the
      sentence stands behind it, and the format behind the text. */
  lemma AudioIsAnnounced(env: Env, steps: seq<Step>, v: nat, kind: Kind)
    requires Legal(env, FRESH, steps) && v < |Run(env, FRESH, steps).voices|
    ensures var s := Run(env, FRESH, steps);
            && Tally(s.sent, Weight(v, kind)) <= 1
            && (NeverDrops(env, FRESH, steps, v, kind) ==>
                  InFront(s.sent, v, kind, Announcement(v, s.voices[v].job, kind)))
  {
    OnceOverRun(env, FRESH, steps, v, kind);
    if NeverDrops(env, FRESH, steps, v, kind) { AheadFromStart(env, FRESH, steps, v, kind); }
  }
}
