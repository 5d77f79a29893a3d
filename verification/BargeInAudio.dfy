// The order in which synthesised audio leaves the session.
module BargeInAudio {
  import opened Synthesis
  import opened BargeIn
  import opened BargeInMessages
  import opened BargeInTurns

  // ---- Sentences are spoken in queue order ----------------------------------------

  /** How many jobs the worker has taken or the reader has drained so far. */
  function Departed(s: Session): int { |s.enqueued| - |s.sh.ttsQueue| }

  /** The queue is what is left of all jobs ever queued. */
  ghost predicate QueueIsTail(s: Session) { IsTail(s.sh.ttsQueue, s.enqueued) }

  ghost predicate IsTail(queue: seq<Job>, enqueued: seq<Job>) {
    |queue| <= |enqueued| && queue == enqueued[|enqueued| - |queue|..]
  }

  lemma TailPops(queue: seq<Job>, enqueued: seq<Job>)
    requires IsTail(queue, enqueued) && queue != []
    ensures IsTail(queue[1..], enqueued) && queue[0] == enqueued[|enqueued| - |queue|]
  {
  }

  lemma TailPushes(queue: seq<Job>, enqueued: seq<Job>, job: Job)
    requires IsTail(queue, enqueued)
    ensures IsTail(queue + [job], enqueued + [job])
  {
  }

  predicate IsJob(index: nat, job: Job, enqueued: seq<Job>) {
    index < |enqueued| && enqueued[index] == job
  }

  ghost predicate VoicesAreJobs(voices: seq<Voice>, enqueued: seq<Job>) {
    forall v | 0 <= v < |voices| :: IsJob(voices[v].index, voices[v].job, enqueued)
  }

  /** Every voice speaks an earlier job than the one with this index. */
  ghost predicate VoicesBefore(voices: seq<Voice>, index: int) {
    forall v | 0 <= v < |voices| :: voices[v].index < index
  }

  ghost predicate InQueueOrder(voices: seq<Voice>) {
    forall v, w | 0 <= v < w < |voices| :: voices[v].index < voices[w].index
  }

  ghost predicate InTurnOrder(voices: seq<Voice>) {
    forall v, w | 0 <= v < w < |voices| :: voices[v].job.turn <= voices[w].job.turn
  }

  /** A job the worker has taken but not opened a voice for. */
  ghost predicate WorkerJob(w: Worker, voices: seq<Voice>, enqueued: seq<Job>, departed: int) {
    w.Taken? || w.Calling? ==>
      && w.index < departed
      && IsJob(w.index, w.job, enqueued)
      && VoicesBefore(voices, w.index)
  }

  ghost predicate JobOrder(s: Session) {
    && QueueIsTail(s)
    && VoicesAreJobs(s.voices, s.enqueued)
    && InQueueOrder(s.voices)
    && VoicesBefore(s.voices, Departed(s))
    && WorkerJob(s.worker, s.voices, s.enqueued, Departed(s))
  }

  ghost predicate TurnOrder(s: Session) {
    && InTurnOrder(s.voices)
    && (s.worker.Calling? ==> VoiceTags(s.voices, s.worker.job.turn + 1))
  }

  lemma ReaderKeepsQueue(env: Env, s: Session, r: ReaderStep)
    requires QueueIsTail(s) && ReaderEnabled(s, r)
    ensures var s' := ReaderApply(env, s, r);
            QueueIsTail(s') && s'.enqueued == s.enqueued && Departed(s) <= Departed(s')
  {
    if r.Drain? { TailPops(s.sh.ttsQueue, s.enqueued); }
  }

  lemma ReaderKeepsJobOrder(env: Env, s: Session, r: ReaderStep)
    requires JobOrder(s) && ReaderEnabled(s, r)
    ensures JobOrder(ReaderApply(env, s, r))
  {
    ReaderKeepsQueue(env, s, r);
    ReaderKeepsVoices(env, s, r);
    VoicesKeepJobOrder(s, ReaderApply(env, s, r));
  }

  /** What matters of voices is the jobs they speak. */
  lemma VoicesKeepJobOrder(s: Session, s': Session)
    requires JobOrder(s) && QueueIsTail(s') && s.enqueued <= s'.enqueued && Departed(s) <= Departed(s')
    requires s'.worker == s.worker && |s'.voices| == |s.voices|
    requires forall v | 0 <= v < |s.voices| ::
               s'.voices[v].index == s.voices[v].index && s'.voices[v].job == s.voices[v].job
    ensures JobOrder(s')
  {
    assert forall v | 0 <= v < |s.voices| :: IsJob(s.voices[v].index, s.voices[v].job, s.enqueued);
    assert VoicesAreJobs(s'.voices, s'.enqueued);
  }

  lemma WorkerKeepsQueue(s: Session, w: WorkerStep)
    requires QueueIsTail(s) && WorkerEnabled(s, w)
    ensures var s' := WorkerApply(s, w);
            && QueueIsTail(s') && s'.enqueued == s.enqueued
            && Departed(s') == Departed(s) + if w.Take? then 1 else 0
  {
    if w.Take? { TailPops(s.sh.ttsQueue, s.enqueued); }
  }

  lemma WorkerKeepsVoiceOrder(s: Session, w: WorkerStep)
    requires VoicesAreJobs(s.voices, s.enqueued) && InQueueOrder(s.voices) && WorkerEnabled(s, w)
    requires WorkerJob(s.worker, s.voices, s.enqueued, Departed(s))
    ensures VoicesAreJobs(WorkerApply(s, w).voices, s.enqueued) && InQueueOrder(WorkerApply(s, w).voices)
  {
    var voices' := WorkerApply(s, w).voices;
    assert |s.voices| <= |voices'| && forall v | 0 <= v < |s.voices| ::
        voices'[v].index == s.voices[v].index && voices'[v].job == s.voices[v].job;
    assert |voices'| > |s.voices| ==>
        w.VoiceOpens? && voices' == s.voices +
          [Voice(s.worker.job, s.worker.index, w.synthesised, w.script, 0, false, false)];
  }

  lemma WorkerVoicesDeparted(s: Session, w: WorkerStep)
    requires VoicesBefore(s.voices, Departed(s)) && WorkerEnabled(s, w)
    requires WorkerJob(s.worker, s.voices, s.enqueued, Departed(s))
    ensures VoicesBefore(WorkerApply(s, w).voices, Departed(s))
  {
  }

  lemma WorkerKeepsJob(s: Session, w: WorkerStep)
    requires QueueIsTail(s) && VoicesBefore(s.voices, Departed(s)) && WorkerEnabled(s, w)
    requires WorkerJob(s.worker, s.voices, s.enqueued, Departed(s))
    ensures WorkerJob(WorkerApply(s, w).worker, WorkerApply(s, w).voices, s.enqueued, Departed(WorkerApply(s, w)))
  {
    WorkerKeepsQueue(s, w);
    if w.Take? {
      assert WorkerApply(s, w).voices == s.voices;
      TailPops(s.sh.ttsQueue, s.enqueued);
    }
  }

  lemma WorkerKeepsJobOrder(s: Session, w: WorkerStep)
    requires JobOrder(s) && WorkerEnabled(s, w)
    ensures JobOrder(WorkerApply(s, w))
  {
    WorkerKeepsQueue(s, w);
    WorkerKeepsVoiceOrder(s, w);
    WorkerVoicesDeparted(s, w);
    WorkerKeepsJob(s, w);
  }

  lemma ForwarderKeepsJobOrder(env: Env, s: Session, i: nat, f: ForwarderStep)
    requires JobOrder(s) && ForwarderEnabled(s, i, f)
    ensures JobOrder(ForwarderApply(s, i, f))
  {
  }

  lemma ChatQueues(s: Session, c: nat, e: ChatStep)
    requires QueueIsTail(s) && ChatEnabled(s, c, e)
    ensures var s' := ChatApply(s, c, e);
            QueueIsTail(s') && Departed(s') == Departed(s) && s.enqueued <= s'.enqueued
  {
    if e.Handle? && s.chats[c].script[s.chats[c].pos - 1].Chunk? {
      TailPushes(s.sh.ttsQueue, s.enqueued, Job(s.chats[c].turn, s.chats[c].script[s.chats[c].pos - 1].text));
    }
  }

  lemma ChatKeepsJobOrder(s: Session, c: nat, e: ChatStep)
    requires JobOrder(s) && ChatEnabled(s, c, e)
    ensures JobOrder(ChatApply(s, c, e))
  {
    ChatQueues(s, c, e);
    VoicesKeepJobOrder(s, ChatApply(s, c, e));
  }

  lemma WorkerKeepsTurnOrder(env: Env, s: Session, w: WorkerStep)
    requires TurnOrder(s) && TurnInv(env, s) && WorkerEnabled(s, w)
    ensures TurnOrder(WorkerApply(s, w))
  {
  }

  lemma ReaderKeepsTurnOrder(env: Env, s: Session, r: ReaderStep)
    requires TurnOrder(s) && ReaderEnabled(s, r)
    ensures TurnOrder(ReaderApply(env, s, r))
  {
  }

  lemma StepKeepsTurnOrder(env: Env, s: Session, step: Step)
    requires TurnOrder(s) && TurnInv(env, s) && Enabled(env, s, step)
    ensures TurnOrder(Apply(env, s, step))
  {
    match step
    case ByReader(r) => ReaderKeepsTurnOrder(env, s, r);
    case ByWorker(w) => WorkerKeepsTurnOrder(env, s, w);
    case ByForwarder(_, _) =>
    case ByChat(_, _) =>
    case ByWriter(_) =>
    case ByMicrophone(_) =>
  }

  // ---- Frames are sent in event order -------------------------------------------------

  /** The audio frames among the messages put out. */
  function Frames(sent: seq<Out>): (frames: seq<Out>)
    ensures forall k | 0 <= k < |frames| :: frames[k].AudioFrame?
  {
    if sent == [] then []
    else
      var last := sent[|sent| - 1];
      Frames(sent[..|sent| - 1]) + if last.AudioFrame? then [last] else []
  }

  lemma FramesSnoc(sent: seq<Out>, out: Out)
    ensures Frames(sent + [out]) == Frames(sent) + if out.AudioFrame? then [out] else []
  {
    assert (sent + [out])[..|sent|] == sent;
  }

  /** A frame carries the event of its voice that its index names, under that
      voice's turn. */
  ghost predicate Genuine(frame: Out, voices: seq<Voice>)
    requires frame.AudioFrame?
  {
    && frame.voice < |voices|
    && frame.turn == voices[frame.voice].job.turn
    && frame.index < |voices[frame.voice].script|
    && voices[frame.voice].script[frame.index] == Audio(frame.data)
  }

  ghost predicate AllGenuine(frames: seq<Out>, voices: seq<Voice>)
    requires forall k | 0 <= k < |frames| :: frames[k].AudioFrame?
  {
    forall k | 0 <= k < |frames| :: Genuine(frames[k], voices)
  }

  /** `(v, index)` may come next: the same voice's next event, or a later
      voice's first. */
  predicate Continues(frames: seq<Out>, v: nat, index: int)
    requires forall k | 0 <= k < |frames| :: frames[k].AudioFrame?
  {
    if index == 0 then frames == [] || frames[|frames| - 1].voice < v
    else frames != [] && frames[|frames| - 1].voice == v && frames[|frames| - 1].index == index - 1
  }

  ghost predicate Chained(frames: seq<Out>)
    requires forall k | 0 <= k < |frames| :: frames[k].AudioFrame?
  {
    forall k | 0 <= k < |frames| :: Continues(frames[..k], frames[k].voice, frames[k].index)
  }

  /** Where the worker stands in its voice. */
  ghost predicate InStep(w: Worker, voices: seq<Voice>, frames: seq<Out>)
    requires forall k | 0 <= k < |frames| :: frames[k].AudioFrame?
  {
    (w.Holding? || w.Listening? || HasEvent(w)) ==>
      && w.voice < |voices|
      && (w.Holding? ==> voices[w.voice].pos == 0)
      && Continues(frames, w.voice, voices[w.voice].pos - if HasEvent(w) then 1 else 0)
  }

  ghost predicate FrameOrder(s: Session) {
    var frames := Frames(s.sent);
    AllGenuine(frames, s.voices) && Chained(frames) && InStep(s.worker, s.voices, frames)
  }

  ghost predicate SameScripts(voices: seq<Voice>, voices': seq<Voice>) {
    && |voices| <= |voices'|
    && forall v | 0 <= v < |voices| :: voices'[v].script == voices[v].script && voices'[v].job == voices[v].job
  }

  lemma GenuineStays(frames: seq<Out>, voices: seq<Voice>, voices': seq<Voice>)
    requires forall k | 0 <= k < |frames| :: frames[k].AudioFrame?
    requires AllGenuine(frames, voices) && SameScripts(voices, voices')
    ensures AllGenuine(frames, voices')
  {
    forall k | 0 <= k < |frames| ensures Genuine(frames[k], voices') {
      assert Genuine(frames[k], voices);
    }
  }

  lemma ChainGrows(frames: seq<Out>, frame: Out)
    requires forall k | 0 <= k < |frames| :: frames[k].AudioFrame?
    requires frame.AudioFrame? && Chained(frames) && Continues(frames, frame.voice, frame.index)
    ensures Chained(frames + [frame])
  {
    var all := frames + [frame];
    forall k | 0 <= k < |all| ensures Continues(all[..k], all[k].voice, all[k].index) {
      assert all[..k] == frames[..k];
      assert k == |frames| ==> frames[..k] == frames;
    }
  }

  lemma FramesPut(sent: seq<Out>, sent': seq<Out>)
    requires PutsAtMostOne(sent, sent')
    ensures Frames(sent') == Frames(sent) +
                             if sent' != sent && sent'[|sent|].AudioFrame? then [sent'[|sent|]] else []
  {
    if sent' != sent {
      FramesSnoc(sent, sent'[|sent|]);
    } else {
      assert Frames(sent) + [] == Frames(sent);
    }
  }

  lemma WorkerKeepsScripts(s: Session, w: WorkerStep)
    requires WorkerEnabled(s, w)
    ensures SameScripts(s.voices, WorkerApply(s, w).voices)
  {
  }

  /** Only SendAudio puts a frame out. */
  lemma WorkerFrames(s: Session, w: WorkerStep)
    requires WorkerEnabled(s, w)
    ensures Frames(WorkerApply(s, w).sent)
         == Frames(s.sent) +
            if w.SendAudio? then
              [FrameInHand(s)]
            else []
  {
    WorkerPuts(s, w);
    FramesPut(s.sent, WorkerApply(s, w).sent);
    if w.SendAudio? { SendAudioPuts(s); }
  }

  lemma WorkerStaysInStep(s: Session, w: WorkerStep)
    requires WorkerEnabled(s, w) && InStep(s.worker, s.voices, Frames(s.sent)) && AllGenuine(Frames(s.sent), s.voices)
    ensures InStep(WorkerApply(s, w).worker, WorkerApply(s, w).voices, Frames(WorkerApply(s, w).sent))
  {
    var frames := Frames(s.sent);
    assert frames != [] ==> Genuine(frames[|frames| - 1], s.voices);
    WorkerFrames(s, w);
    WorkerMovesInStep(s, w, frames);
  }

  /** The worker's move, with the frame it sends if it sends one. */
  lemma WorkerMovesInStep(s: Session, w: WorkerStep, frames: seq<Out>)
    requires WorkerEnabled(s, w)
    requires forall k | 0 <= k < |frames| :: frames[k].AudioFrame?
    requires frames != [] ==> frames[|frames| - 1].voice < |s.voices|
    requires InStep(s.worker, s.voices, frames)
    ensures InStep(WorkerApply(s, w).worker, WorkerApply(s, w).voices,
                   frames + if w.SendAudio? then [FrameInHand(s)] else [])
  {
    assert frames + [] == frames;
    if w.SendAudio? { SendingStaysInStep(s, frames); }
  }

  lemma SendingStaysInStep(s: Session, frames: seq<Out>)
    requires WorkerEnabled(s, SendAudio)
    requires forall k | 0 <= k < |frames| :: frames[k].AudioFrame?
    ensures InStep(WorkerApply(s, SendAudio).worker, WorkerApply(s, SendAudio).voices, frames + [FrameInHand(s)])
  {
  }

  lemma FrameOrderStays(s: Session, s': Session)
    requires FrameOrder(s) && Frames(s'.sent) == Frames(s.sent) && s'.voices == s.voices && s'.worker == s.worker
    ensures FrameOrder(s')
  {
  }

  lemma WorkerKeepsChain(s: Session, w: WorkerStep)
    requires FrameOrder(s) && WorkerEnabled(s, w)
    ensures Chained(Frames(WorkerApply(s, w).sent))
  {
    WorkerFrames(s, w);
    if w.SendAudio? {
      ChainGrows(Frames(s.sent),
                 FrameInHand(s));
    }
  }

  lemma FrameInHandIsGenuine(s: Session)
    requires WorkerEnabled(s, SendAudio)
    ensures Genuine(FrameInHand(s),
                    s.voices)
  {
  }

  lemma WorkerKeepsGenuine(s: Session, w: WorkerStep)
    requires AllGenuine(Frames(s.sent), s.voices) && WorkerEnabled(s, w)
    ensures AllGenuine(Frames(WorkerApply(s, w).sent), WorkerApply(s, w).voices)
  {
    var frames := Frames(s.sent);
    WorkerFrames(s, w);
    WorkerKeepsScripts(s, w);
    if w.SendAudio? {
      FrameInHandIsGenuine(s);
      GenuineStays(frames + [FrameInHand(s)],
                   s.voices, WorkerApply(s, w).voices);
    } else {
      GenuineStays(frames, s.voices, WorkerApply(s, w).voices);
    }
  }

  lemma WorkerKeepsFrameOrder(s: Session, w: WorkerStep)
    requires FrameOrder(s) && WorkerEnabled(s, w)
    ensures FrameOrder(WorkerApply(s, w))
  {
    WorkerStaysInStep(s, w);
    WorkerKeepsChain(s, w);
    WorkerKeepsGenuine(s, w);
  }

  lemma ReaderKeepsFrameOrder(env: Env, s: Session, r: ReaderStep)
    requires FrameOrder(s) && ReaderEnabled(s, r)
    ensures FrameOrder(ReaderApply(env, s, r))
  {
    ReaderSendsNoFrame(env, s, r);
    ReaderKeepsVoices(env, s, r);
    GenuineStays(Frames(s.sent), s.voices, ReaderApply(env, s, r).voices);
  }

  lemma ReaderSendsNoFrame(env: Env, s: Session, r: ReaderStep)
    requires ReaderEnabled(s, r)
    ensures Frames(ReaderApply(env, s, r).sent) == Frames(s.sent)
  {
    ReaderPuts(env, s, r);
    FramesPut(s.sent, ReaderApply(env, s, r).sent);
  }

  lemma ForwarderSendsNoFrame(s: Session, i: nat, f: ForwarderStep)
    requires ForwarderEnabled(s, i, f)
    ensures Frames(ForwarderApply(s, i, f).sent) == Frames(s.sent)
  {
    ForwarderPuts(s, i, f);
    FramesPut(s.sent, ForwarderApply(s, i, f).sent);
  }

  lemma ChatSendsNoFrame(s: Session, c: nat, e: ChatStep)
    requires ChatEnabled(s, c, e)
    ensures Frames(ChatApply(s, c, e).sent) == Frames(s.sent)
  {
    ChatPuts(s, c, e);
    FramesPut(s.sent, ChatApply(s, c, e).sent);
  }

  lemma MicrophoneSendsNoFrame(env: Env, s: Session, lost: bool)
    requires Enabled(env, s, ByMicrophone(lost))
    ensures Frames(Apply(env, s, ByMicrophone(lost)).sent) == Frames(s.sent)
  {
    MicrophonePuts(env, s, lost);
    FramesPut(s.sent, Apply(env, s, ByMicrophone(lost)).sent);
  }

  // ---- Voices speak what was synthesised ------------------------------------------------------

  ghost predicate AllSpoken(voices: seq<Voice>) {
    forall v | 0 <= v < |voices| :: Spoken(voices[v].script, voices[v].synthesised)
  }

  lemma SameScriptsStaySpoken(voices: seq<Voice>, voices': seq<Voice>)
    requires AllSpoken(voices) && |voices'| == |voices|
    requires forall v | 0 <= v < |voices| ::
               voices'[v].script == voices[v].script && voices'[v].synthesised == voices[v].synthesised
    ensures AllSpoken(voices')
  {
  }

  lemma WorkerKeepsSpoken(env: Env, s: Session, w: WorkerStep)
    requires AllSpoken(s.voices) && WorkerEnabled(s, w) && FromService(env, ByWorker(w))
    ensures AllSpoken(WorkerApply(s, w).voices)
  {
    if w.VoiceOpens? {
      assert Spoken(w.script, w.synthesised);
    } else {
      SameScriptsStaySpoken(s.voices, WorkerApply(s, w).voices);
    }
  }

  lemma StepKeepsSpoken(env: Env, s: Session, step: Step)
    requires AllSpoken(s.voices) && Enabled(env, s, step)
    ensures AllSpoken(Apply(env, s, step).voices)
  {
    if step.ByWorker? {
      WorkerKeepsSpoken(env, s, step.w);
    } else if step.ByReader? {
      ReaderKeepsVoices(env, s, step.r);
      SameScriptsStaySpoken(s.voices, ReaderApply(env, s, step.r).voices);
    }
  }

  // ---- Whole runs ---------------------------------------------------------------------------

  ghost predicate AudioInv(env: Env, s: Session) {
    Inv(env, s) && JobOrder(s) && TurnOrder(s) && FrameOrder(s) && AllSpoken(s.voices)
  }

  lemma FreshIsSound(env: Env)
    ensures AudioInv(env, FRESH)
  {
  }

  lemma StepKeepsJobOrder(env: Env, s: Session, step: Step)
    requires JobOrder(s) && Enabled(env, s, step)
    ensures JobOrder(Apply(env, s, step))
  {
    match step
    case ByReader(r) => ReaderKeepsJobOrder(env, s, r);
    case ByWorker(w) => WorkerKeepsJobOrder(s, w);
    case ByForwarder(i, f) => ForwarderKeepsJobOrder(env, s, i, f);
    case ByChat(c, e) => ChatKeepsJobOrder(s, c, e);
    case ByWriter(_) =>
    case ByMicrophone(_) =>
  }

  lemma StepKeepsFrameOrder(env: Env, s: Session, step: Step)
    requires FrameOrder(s) && Enabled(env, s, step)
    ensures FrameOrder(Apply(env, s, step))
  {
    match step
    case ByReader(r) => ReaderKeepsFrameOrder(env, s, r);
    case ByWorker(w) => WorkerKeepsFrameOrder(s, w);
    case ByForwarder(i, f) =>
      ForwarderSendsNoFrame(s, i, f);
      FrameOrderStays(s, ForwarderApply(s, i, f));
    case ByChat(c, e) =>
      ChatSendsNoFrame(s, c, e);
      FrameOrderStays(s, ChatApply(s, c, e));
    case ByWriter(_) =>
    case ByMicrophone(lost) =>
      MicrophoneSendsNoFrame(env, s, lost);
      FrameOrderStays(s, Apply(env, s, step));
  }

  lemma StepKeepsAudio(env: Env, s: Session, step: Step)
    requires AudioInv(env, s) && Enabled(env, s, step)
    ensures AudioInv(env, Apply(env, s, step))
  {
    StepKeepsInv(env, s, step);
    StepKeepsJobOrder(env, s, step);
    StepKeepsFrameOrder(env, s, step);
    StepKeepsSpoken(env, s, step);
    StepKeepsTurnOrder(env, s, step);
  }

  lemma {:induction false} ReachableAudio(env: Env, s: Session, steps: seq<Step>)
    requires AudioInv(env, s) && Legal(env, s, steps)
    ensures AudioInv(env, Run(env, s, steps))
    decreases |steps|
  {
    if steps != [] {
      StepKeepsAudio(env, s, steps[0]);
      ReachableAudio(env, Apply(env, s, steps[0]), steps[1..]);
    }
  }

  /** What chaining means for two frames any distance apart, and for the frame
      that starts a group. */
  lemma {:induction false} ChainMeaning(frames: seq<Out>, i: nat, j: nat)
    requires forall k | 0 <= k < |frames| :: frames[k].AudioFrame?
    requires Chained(frames) && i < j < |frames|
    ensures frames[i].voice <= frames[j].voice
    ensures frames[i].voice == frames[j].voice ==> frames[j].index == frames[i].index + (j - i)
    decreases j
  {
    assert Continues(frames[..j], frames[j].voice, frames[j].index);
    assert frames[..j][j - 1] == frames[j - 1];
    if i < j - 1 { ChainMeaning(frames, i, j - 1); }
  }

  /** Frame k's group reaches back to the first event of its voice. */
  predicate Grouped(frames: seq<Out>, k: nat)
    requires forall j | 0 <= j < |frames| :: frames[j].AudioFrame?
    requires k < |frames|
  {
    && frames[k].index <= k
    && frames[k - frames[k].index].voice == frames[k].voice
    && frames[k - frames[k].index].index == 0
  }

  lemma {:induction false} GroupStart(frames: seq<Out>, k: nat)
    requires forall k | 0 <= k < |frames| :: frames[k].AudioFrame?
    requires Chained(frames) && k < |frames|
    ensures Grouped(frames, k)
  {
    assert Continues(frames[..k], frames[k].voice, frames[k].index);
    if frames[k].index > 0 {
      assert frames[..k][k - 1] == frames[k - 1];
      GroupStart(frames, k - 1);
    }
  }

  /** Two frames in order: sentences come in queue order, one after the other,
      their turns never decrease, and within a sentence no event is skipped or
      repeated. */
  ghost predicate InOrder(s: Session, a: Out, b: Out, distance: nat)
    requires a.AudioFrame? && b.AudioFrame?
  {
    && a.voice < |s.voices| && b.voice < |s.voices|
    && a.turn <= b.turn
    && (if a.voice == b.voice then b.index == a.index + distance
        else a.voice < b.voice && s.voices[a.voice].index < s.voices[b.voice].index)
  }

  /** Frame k carries chunk number `index` of what was synthesised for its
      sentence, that sentence was queued, and the frame's group goes back to the
      sentence's first chunk. */
  ghost predicate Placed(s: Session, f: seq<Out>, k: nat)
    requires (forall j | 0 <= j < |f| :: f[j].AudioFrame?) && k < |f|
  {
    && Genuine(f[k], s.voices)
    && IsChunk(s.voices[f[k].voice].script, s.voices[f[k].voice].synthesised, f[k].index)
    && IsJob(s.voices[f[k].voice].index, s.voices[f[k].voice].job, s.enqueued)
    && Grouped(f, k)
  }

  lemma FrameIsPlaced(s: Session, k: nat)
    requires JobOrder(s) && FrameOrder(s) && AllSpoken(s.voices) && k < |Frames(s.sent)|
    ensures Placed(s, Frames(s.sent), k)
  {
    var frame := Frames(s.sent)[k];
    assert Genuine(frame, s.voices);
    AudioIsPrefix(s.voices[frame.voice].script, s.voices[frame.voice].synthesised, frame.index);
    GroupStart(Frames(s.sent), k);
  }

  lemma FramesInOrder(s: Session, i: nat, j: nat)
    requires InQueueOrder(s.voices) && InTurnOrder(s.voices) && FrameOrder(s) && i < j < |Frames(s.sent)|
    ensures var f := Frames(s.sent);
            && Genuine(f[i], s.voices) && Genuine(f[j], s.voices)
            && InOrder(s, f[i], f[j], j - i)
  {
    ChainMeaning(Frames(s.sent), i, j);
  }

  /** Audio ordering over a whole run, under every schedule.  The frames of a
      sentence are a first part of the chunks synthesised for it, in an unbroken
      group; groups never interleave, follow the order in which the sentences
      were queued, and never go back to an earlier turn. */
  lemma AudioOrder(env: Env, steps: seq<Step>)
    requires Legal(env, FRESH, steps)
    ensures var s := Run(env, FRESH, steps);
            var f := Frames(s.sent);
            && (forall k | 0 <= k < |f| :: Placed(s, f, k))
            && (forall i, j | 0 <= i < j < |f| :: InOrder(s, f[i], f[j], j - i))
  {
    ReachableAudio(env, FRESH, steps);
    AudioOrderIn(env, Run(env, FRESH, steps));
  }

  lemma AudioOrderIn(env: Env, s: Session)
    requires AudioInv(env, s)
    ensures var f := Frames(s.sent);
            && (forall k | 0 <= k < |f| :: Placed(s, f, k))
            && (forall i, j | 0 <= i < j < |f| :: InOrder(s, f[i], f[j], j - i))
  {
    var f := Frames(s.sent);
    forall k | 0 <= k < |f| ensures Placed(s, f, k) {
      FrameIsPlaced(s, k);
    }
    forall i, j | 0 <= i < j < |f| ensures InOrder(s, f[i], f[j], j - i) {
      FramesInOrder(s, i, j);
    }
  }
}
