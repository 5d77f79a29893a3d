// What a step may put on the send channel: at most one message, and which.
module BargeInMessages {
  import opened Common
  import opened BargeIn

  predicate PutsAtMostOne(sent: seq<Out>, sent': seq<Out>) {
    sent' == sent || (|sent'| == |sent| + 1 && sent' == sent + [sent'[|sent|]])
  }

  lemma TallyPut(sent: seq<Out>, sent': seq<Out>, w: Out -> nat)
    requires PutsAtMostOne(sent, sent')
    ensures Tally(sent', w) == Tally(sent, w) + if sent' == sent then 0 else w(sent'[|sent|])
  {
    if sent' != sent { TallySnoc(sent, sent'[|sent|], w); }
  }

  lemma ReaderPuts(env: Env, s: Session, r: ReaderStep)
    requires ReaderEnabled(s, r)
    ensures var sent' := ReaderApply(env, s, r).sent;
            && PutsAtMostOne(s.sent, sent')
            && (sent' != s.sent ==> sent'[|s.sent|].Interrupted? || sent'[|s.sent|].ErrorFrame?)
  {
  }

  /** All the reader ever does to a voice is close it. */
  lemma ReaderKeepsVoices(env: Env, s: Session, r: ReaderStep)
    requires ReaderEnabled(s, r)
    ensures ReaderApply(env, s, r).worker == s.worker
    ensures var voices' := ReaderApply(env, s, r).voices;
            && |voices'| == |s.voices|
            && forall v | 0 <= v < |s.voices| :: voices'[v] == s.voices[v].(closed := voices'[v].closed)
  {
  }

  lemma ForwarderPuts(s: Session, i: nat, f: ForwarderStep)
    requires ForwarderEnabled(s, i, f)
    ensures var sent' := ForwarderApply(s, i, f).sent;
            && PutsAtMostOne(s.sent, sent')
            && (sent' != s.sent ==>
                  sent'[|s.sent|].ErrorFrame? ||
                  (&& sent'[|s.sent|].TranscriptFrame? && sent'[|s.sent|].turn == s.forwarders[i].turn
                   && sent'[|s.sent|].forwarder == i && s.forwarders[i].at.Acting?
                   && !ForwarderApply(s, i, f).forwarders[i].at.Acting?))
  {
  }

  lemma ChatPuts(s: Session, c: nat, e: ChatStep)
    requires ChatEnabled(s, c, e)
    ensures var sent' := ChatApply(s, c, e).sent;
            && PutsAtMostOne(s.sent, sent')
            && (sent' != s.sent ==> sent'[|s.sent|].ErrorFrame?)
  {
  }

  lemma WorkerPuts(s: Session, w: WorkerStep)
    requires WorkerEnabled(s, w)
    ensures var sent' := WorkerApply(s, w).sent;
            && PutsAtMostOne(s.sent, sent')
            && (sent' != s.sent ==>
                  || (w.TellText? && sent'[|s.sent|] ==
                        LlmChunk(JobInHand(s).turn, s.worker.voice, JobInHand(s).text))
                  || (w.TellFormat? && sent'[|s.sent|] == AudioFormat(JobInHand(s).turn, s.worker.voice))
                  || (w.SendAudio? && sent'[|s.sent|] == FrameInHand(s))
                  || sent'[|s.sent|].ErrorFrame?)
  {
  }

  lemma MicrophonePuts(env: Env, s: Session, lost: bool)
    requires Enabled(env, s, ByMicrophone(lost))
    ensures var sent' := Apply(env, s, ByMicrophone(lost)).sent;
            PutsAtMostOne(s.sent, sent') && (sent' != s.sent ==> sent'[|s.sent|].ErrorFrame?)
  {
  }

  lemma SendAudioPuts(s: Session)
    requires WorkerEnabled(s, SendAudio)
    ensures WorkerApply(s, SendAudio).sent != s.sent
  {
    assert |WorkerApply(s, SendAudio).sent| == |s.sent| + 1;
  }

  // ---- The send buffer -----------------------------------------------------------------

  /** What is sent and not written yet fits the buffer. */
  predicate Buffered(s: Session) { s.written <= |s.sent| <= s.written + SEND_BUFFER }

  /** A step that gives up a message. */
  predicate LosesMessage(step: Step) {
    match step
    case ByReader(r) => (r.Announce? || r.SttFails? || r.Refuse?) && r.lost
    case ByWorker(w) => (w.VoiceFails? || w.TellText? || w.TellFormat? || w.ReportError?) && w.lost
    case ByForwarder(_, f) => (f.Act? || f.ChatFails?) && f.lost
    case ByChat(_, e) => e.Handle? && e.lost
    case ByWriter(_) => false
    case ByMicrophone(lost) => lost
  }

  lemma ReaderKeepsBuffered(env: Env, s: Session, r: ReaderStep)
    requires Buffered(s) && ReaderEnabled(s, r)
    ensures Buffered(ReaderApply(env, s, r))
  {
  }

  lemma WorkerKeepsBuffered(s: Session, w: WorkerStep)
    requires Buffered(s) && WorkerEnabled(s, w)
    ensures Buffered(WorkerApply(s, w))
  {
  }

  lemma ForwarderKeepsBuffered(s: Session, i: nat, f: ForwarderStep)
    requires Buffered(s) && ForwarderEnabled(s, i, f)
    ensures Buffered(ForwarderApply(s, i, f))
  {
  }

  lemma ChatKeepsBuffered(s: Session, c: nat, e: ChatStep)
    requires Buffered(s) && ChatEnabled(s, c, e)
    ensures Buffered(ChatApply(s, c, e))
  {
  }

  /** A step never overfills the buffer, and gives a message up only when the
      buffer is full or the session over. */
  lemma StepKeepsBuffered(env: Env, s: Session, step: Step)
    requires Buffered(s) && Enabled(env, s, step)
    ensures Buffered(Apply(env, s, step))
    ensures LosesMessage(step) ==> |s.sent| == s.written + SEND_BUFFER || s.over
  {
    match step
    case ByReader(r) => ReaderKeepsBuffered(env, s, r);
    case ByWorker(w) => WorkerKeepsBuffered(s, w);
    case ByForwarder(i, f) => ForwarderKeepsBuffered(s, i, f);
    case ByChat(c, e) => ChatKeepsBuffered(s, c, e);
    case ByWriter(_) =>
    case ByMicrophone(_) =>
  }

  lemma {:induction false} BufferedOverRun(env: Env, s: Session, steps: seq<Step>)
    requires Buffered(s) && Legal(env, s, steps)
    ensures Buffered(Run(env, s, steps))
    decreases |steps|
  {
    if steps != [] {
      StepKeepsBuffered(env, s, steps[0]);
      BufferedOverRun(env, Apply(env, s, steps[0]), steps[1..]);
    }
  }
}
