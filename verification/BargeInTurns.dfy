// Turn tags: which work belongs to which turn, and what an interrupt achieves.
module BargeInTurns {
  import opened Common
  import opened BargeIn

  // ---- References stay in range ---------------------------------------------------

  predicate Within(id: Option<nat>, bound: nat) { id.Some? ==> id.value < bound }

  ghost predicate ForwarderIds(forwarders: seq<Forwarder>, chats: nat) {
    forall i | 0 <= i < |forwarders| ::
      forwarders[i].at.Publishing? || forwarders[i].at.Spawning? ==> forwarders[i].at.chat < chats
  }

  ghost predicate ChatsSound(chats: seq<Chat>) {
    forall c | 0 <= c < |chats| ::
      chats[c].pos <= |chats[c].script| && (chats[c].at.Weighing? || chats[c].at.Handling? ==> chats[c].pos > 0)
  }

  ghost predicate IdsInRange(s: Session) {
    && Within(s.sh.activeLlm, |s.chats|)
    && Within(s.sh.activeTts, |s.voices|)
    && (s.reader.Swapped? ==> Within(s.reader.llm, |s.chats|) && Within(s.reader.tts, |s.voices|))
    && (s.reader.ClosingTts? ==> Within(s.reader.tts, |s.voices|))
    && ForwarderIds(s.forwarders, |s.chats|)
    && ChatsSound(s.chats)
    && |s.sh.ttsQueue| <= TTS_QUEUE
  }

  ghost predicate WorkerSound(s: Session) {
    && WorkerReady(s)
    && (s.worker.Telling? || s.worker.Formatting? || s.worker.Sending? ==> EventInHand(s).Audio?)
    && (s.worker.Failing? ==> EventInHand(s).VoiceError?)
    && (s.worker.Clearing? ==> s.voices[s.worker.voice].ended)
  }

  lemma ReaderKeepsIds(env: Env, s: Session, r: ReaderStep)
    requires IdsInRange(s) && ReaderEnabled(s, r)
    ensures IdsInRange(ReaderApply(env, s, r))
  {
  }

  lemma WorkerKeepsIds(env: Env, s: Session, w: WorkerStep)
    requires IdsInRange(s) && WorkerEnabled(s, w)
    ensures IdsInRange(WorkerApply(s, w))
  {
  }

  lemma ForwarderKeepsIds(env: Env, s: Session, i: nat, f: ForwarderStep)
    requires IdsInRange(s) && ForwarderEnabled(s, i, f)
    ensures IdsInRange(ForwarderApply(s, i, f))
  {
  }

  lemma ChatKeepsIds(env: Env, s: Session, c: nat, e: ChatStep)
    requires IdsInRange(s) && ChatEnabled(s, c, e)
    ensures IdsInRange(ChatApply(s, c, e))
  {
  }

  lemma StepKeepsIds(env: Env, s: Session, step: Step)
    requires IdsInRange(s) && Enabled(env, s, step)
    ensures IdsInRange(Apply(env, s, step))
  {
    match step
    case ByReader(r) => ReaderKeepsIds(env, s, r);
    case ByWorker(w) => WorkerKeepsIds(env, s, w);
    case ByForwarder(i, f) => ForwarderKeepsIds(env, s, i, f);
    case ByChat(c, e) => ChatKeepsIds(env, s, c, e);
    case ByWriter(_) =>
    case ByMicrophone(_) =>
  }

  lemma ReaderKeepsWorker(env: Env, s: Session, r: ReaderStep)
    requires WorkerSound(s) && ReaderEnabled(s, r)
    ensures WorkerSound(ReaderApply(env, s, r))
  {
  }

  lemma ListenerKeepsWorker(s: Session, w: WorkerStep)
    requires WorkerSound(s) && WorkerEnabled(s, w) && (s.worker.Listening? || s.worker.Testing?)
    ensures WorkerSound(WorkerApply(s, w))
  {
  }

  lemma SpeakerKeepsWorker(s: Session, w: WorkerStep)
    requires WorkerSound(s) && WorkerEnabled(s, w) && !s.worker.Listening? && !s.worker.Testing?
    ensures WorkerSound(WorkerApply(s, w))
  {
  }

  lemma WorkerKeepsWorker(env: Env, s: Session, w: WorkerStep)
    requires WorkerSound(s) && WorkerEnabled(s, w)
    ensures WorkerSound(WorkerApply(s, w))
  {
    if s.worker.Listening? || s.worker.Testing? { ListenerKeepsWorker(s, w); } else { SpeakerKeepsWorker(s, w); }
  }

  lemma ForwarderKeepsWorker(env: Env, s: Session, i: nat, f: ForwarderStep)
    requires WorkerSound(s) && ForwarderEnabled(s, i, f)
    ensures WorkerSound(ForwarderApply(s, i, f))
  {
  }

  lemma ChatKeepsWorker(env: Env, s: Session, c: nat, e: ChatStep)
    requires WorkerSound(s) && ChatEnabled(s, c, e)
    ensures WorkerSound(ChatApply(s, c, e))
  {
  }

  lemma StepKeepsWorker(env: Env, s: Session, step: Step)
    requires WorkerSound(s) && Enabled(env, s, step)
    ensures WorkerSound(Apply(env, s, step))
  {
    match step
    case ByReader(r) => ReaderKeepsWorker(env, s, r);
    case ByWorker(w) => WorkerKeepsWorker(env, s, w);
    case ByForwarder(i, f) => ForwarderKeepsWorker(env, s, i, f);
    case ByChat(c, e) => ChatKeepsWorker(env, s, c, e);
    case ByWriter(_) =>
    case ByMicrophone(_) =>
  }

  // ---- Turn tags ----------------------------------------------------------------------

  function ReaderTurn(r: Reader): Option<Turn> {
    match r
    case Bumped(t) => Some(t)
    case Swapped(t, _, _) => Some(t)
    case ClosingTts(t, _, _) => Some(t)
    case Draining(t, _) => Some(t)
    case Announcing(t) => Some(t)
    case Connecting(t) => Some(t)
    case _ => None
  }

  ghost predicate ForwarderTags(forwarders: seq<Forwarder>, n: Turn) {
    forall i | 0 <= i < |forwarders| && !forwarders[i].at.Unstarted? :: forwarders[i].turn < n
  }

  ghost predicate ChatTags(chats: seq<Chat>, n: Turn) {
    forall c | 0 <= c < |chats| :: chats[c].turn < n
  }

  ghost predicate JobTags(jobs: seq<Job>, n: Turn) {
    forall k | 0 <= k < |jobs| :: jobs[k].turn < n
  }

  ghost predicate VoiceTags(voices: seq<Voice>, n: Turn) {
    forall v | 0 <= v < |voices| :: voices[v].job.turn < n
  }

  /** Every piece of work in the session is tagged with a turn below `n`. */
  ghost predicate TagsBelow(s: Session, n: Turn) {
    && ForwarderTags(s.forwarders, n)
    && ChatTags(s.chats, n)
    && JobTags(s.sh.ttsQueue, n)
    && (s.worker.Taken? || s.worker.Calling? ==> s.worker.job.turn < n)
    && VoiceTags(s.voices, n)
  }

  /** The steps that tag work with the current turn. */
  predicate Tags(step: Step) {
    (step.ByReader? && step.r.SttOpens?) || (step.ByForwarder? && step.f.Capture?)
  }

  lemma ReaderKeepsTagsBelow(env: Env, s: Session, r: ReaderStep, n: Turn)
    requires TagsBelow(s, n) && (r.SttOpens? ==> s.sh.turn < n) && ReaderEnabled(s, r)
    ensures TagsBelow(ReaderApply(env, s, r), n)
  {
  }

  lemma WorkerKeepsTagsBelow(env: Env, s: Session, w: WorkerStep, n: Turn)
    requires TagsBelow(s, n) && WorkerEnabled(s, w)
    ensures TagsBelow(WorkerApply(s, w), n)
  {
  }

  lemma ForwarderKeepsTagsBelow(env: Env, s: Session, i: nat, f: ForwarderStep, n: Turn)
    requires TagsBelow(s, n) && (f.Capture? ==> s.sh.turn < n) && ForwarderEnabled(s, i, f)
    ensures TagsBelow(ForwarderApply(s, i, f), n)
  {
  }

  lemma ChatKeepsTagsBelow(env: Env, s: Session, c: nat, e: ChatStep, n: Turn)
    requires TagsBelow(s, n) && ChatEnabled(s, c, e)
    ensures TagsBelow(ChatApply(s, c, e), n)
  {
  }

  lemma TagsStayBelow(env: Env, s: Session, step: Step, n: Turn)
    requires TagsBelow(s, n) && (Tags(step) ==> s.sh.turn < n) && Enabled(env, s, step)
    ensures TagsBelow(Apply(env, s, step), n)
  {
    match step
    case ByReader(r) => ReaderKeepsTagsBelow(env, s, r, n);
    case ByWorker(w) => WorkerKeepsTagsBelow(env, s, w, n);
    case ByForwarder(i, f) => ForwarderKeepsTagsBelow(env, s, i, f, n);
    case ByChat(c, e) => ChatKeepsTagsBelow(env, s, c, e, n);
    case ByWriter(_) =>
    case ByMicrophone(_) =>
  }

  ghost predicate Captured(env: Env, s: Session) {
    forall i | 0 <= i < |s.forwarders| ::
      var f := s.forwarders[i];
      && f.openedIn <= s.sh.turn
      && (!f.at.Unstarted? ==> f.openedIn <= f.turn)
      && (env.promptCapture ==> !f.at.Unstarted? && f.turn == f.openedIn)
  }

  ghost predicate TurnInv(env: Env, s: Session) {
    && (ReaderTurn(s.reader).Some? ==> ReaderTurn(s.reader) == Some(s.sh.turn))
    && TagsBelow(s, s.sh.turn + 1)
    && Captured(env, s)
  }

  lemma ReaderKeepsCaptured(env: Env, s: Session, r: ReaderStep)
    requires TurnInv(env, s) && ReaderEnabled(s, r)
    ensures Captured(env, ReaderApply(env, s, r))
  {
  }

  lemma WorkerKeepsCaptured(env: Env, s: Session, w: WorkerStep)
    requires TurnInv(env, s) && WorkerEnabled(s, w)
    ensures Captured(env, WorkerApply(s, w))
  {
  }

  lemma ForwarderKeepsCaptured(env: Env, s: Session, i: nat, f: ForwarderStep)
    requires TurnInv(env, s) && ForwarderEnabled(s, i, f)
    ensures Captured(env, ForwarderApply(s, i, f))
  {
  }

  lemma ChatKeepsCaptured(env: Env, s: Session, c: nat, e: ChatStep)
    requires TurnInv(env, s) && ChatEnabled(s, c, e)
    ensures Captured(env, ChatApply(s, c, e))
  {
  }

  lemma StepKeepsCaptured(env: Env, s: Session, step: Step)
    requires TurnInv(env, s) && Enabled(env, s, step)
    ensures Captured(env, Apply(env, s, step))
  {
    match step
    case ByReader(r) => ReaderKeepsCaptured(env, s, r);
    case ByWorker(w) => WorkerKeepsCaptured(env, s, w);
    case ByForwarder(i, f) => ForwarderKeepsCaptured(env, s, i, f);
    case ByChat(c, e) => ChatKeepsCaptured(env, s, c, e);
    case ByWriter(_) =>
    case ByMicrophone(_) =>
  }

  /** While the reader interrupts for turn n, all work belongs to turns below n. */
  ghost predicate Quiet(s: Session) {
    ReaderTurn(s.reader).Some? ==> TagsBelow(s, s.sh.turn)
  }

  /** A forwarder does not read its turn while the reader is interrupting. */
  predicate CalmStep(s: Session, step: Step) {
    step.ByForwarder? && step.f.Capture? ==> ReaderTurn(s.reader).None?
  }

  /** Who moves the counter and the reader's own turn. */
  lemma ReaderMovesCounter(env: Env, s: Session, r: ReaderStep)
    requires TurnInv(env, s) && ReaderEnabled(s, r)
    ensures var s' := ReaderApply(env, s, r);
            && s'.sh.turn == (if r.AddOne? then s.sh.turn + 1 else s.sh.turn)
            && (ReaderTurn(s'.reader).Some? ==> ReaderTurn(s'.reader) == Some(s'.sh.turn))
            && (ReaderTurn(s'.reader).Some? ==> r.AddOne? || ReaderTurn(s.reader).Some?)
            && (r.SttOpens? ==> ReaderTurn(s'.reader).None?)
  {
  }

  lemma CounterMoves(env: Env, s: Session, step: Step)
    requires TurnInv(env, s) && Enabled(env, s, step)
    ensures var s' := Apply(env, s, step);
            && s'.sh.turn == (if step == ByReader(AddOne) then s.sh.turn + 1 else s.sh.turn)
            && (ReaderTurn(s'.reader).Some? ==> ReaderTurn(s'.reader) == Some(s'.sh.turn))
            && (ReaderTurn(s'.reader).Some? ==> step == ByReader(AddOne) || ReaderTurn(s.reader).Some?)
            && (Tags(step) && CalmStep(s, step) ==> ReaderTurn(s'.reader).None?)
  {
    if step.ByReader? { ReaderMovesCounter(env, s, step.r); }
  }

  lemma TagsWiden(s: Session, n: Turn, m: Turn)
    requires TagsBelow(s, n) && n <= m
    ensures TagsBelow(s, m)
  {
  }

  lemma StepKeepsTurns(env: Env, s: Session, step: Step)
    requires TurnInv(env, s) && Enabled(env, s, step)
    ensures TurnInv(env, Apply(env, s, step))
  {
    CounterMoves(env, s, step);
    StepKeepsCaptured(env, s, step);
    TagsStayBelow(env, s, step, s.sh.turn + 1);
    TagsWiden(Apply(env, s, step), s.sh.turn + 1, s.sh.turn + 2);
  }

  /** Exactly the captures during an interrupt end the quiet. */
  lemma QuietExactly(env: Env, s: Session, step: Step)
    requires TurnInv(env, s) && Quiet(s) && Enabled(env, s, step)
    ensures Quiet(Apply(env, s, step)) <==> CalmStep(s, step)
  {
    CounterMoves(env, s, step);
    TagsStayBelow(env, s, step, s.sh.turn + 1);
    if ReaderTurn(s.reader).Some? && !Tags(step) {
      TagsStayBelow(env, s, step, s.sh.turn);
    }
    if !CalmStep(s, step) {
      var s' := Apply(env, s, step);
      assert s'.forwarders[step.i].turn == s'.sh.turn && !s'.forwarders[step.i].at.Unstarted?;
    }
  }

  // ---- Which TTS stream is active ---------------------------------------------------------

  predicate WorkerOn(s: Session, v: nat) {
    HasVoice(s.worker) && s.worker.voice == v
  }

  predicate Unpublished(s: Session, v: nat) {
    (s.worker.Holding? || s.worker.Discarding?) && s.worker.voice == v
  }

  ghost predicate ActiveVoice(s: Session) {
    s.sh.activeTts.Some? ==>
      var v := s.sh.activeTts.value;
      && v < |s.voices|
      && (s.voices[v].job.turn == s.sh.turn || s.reader.Bumped?)
      && !Unpublished(s, v)
      && (!WorkerOn(s, v) ==> EndedByError(s.voices[v]) || s.voices[v].job.turn < s.sh.turn || s.worker.Stopped?)
  }

  /** The worker left this stream at an error event. */
  predicate EndedByError(v: Voice) {
    v.ended && 0 < v.pos <= |v.script| && v.script[v.pos - 1].VoiceError?
  }

  lemma ReaderKeepsActiveVoice(env: Env, s: Session, r: ReaderStep)
    requires ActiveVoice(s) && TurnInv(env, s) && WorkerSound(s) && ReaderEnabled(s, r)
    ensures ActiveVoice(ReaderApply(env, s, r))
  {
  }

  lemma FreeWorkerKeepsActiveVoice(env: Env, s: Session, w: WorkerStep)
    requires ActiveVoice(s) && TurnInv(env, s) && WorkerSound(s) && WorkerEnabled(s, w) && !HasVoice(s.worker)
    ensures ActiveVoice(WorkerApply(s, w))
  {
  }

  lemma ListenerKeepsActiveVoice(env: Env, s: Session, w: WorkerStep)
    requires ActiveVoice(s) && TurnInv(env, s) && WorkerSound(s) && WorkerEnabled(s, w) && s.worker.Listening?
    ensures ActiveVoice(WorkerApply(s, w))
  {
  }

  lemma TesterKeepsActiveVoice(env: Env, s: Session, w: WorkerStep)
    requires ActiveVoice(s) && TurnInv(env, s) && WorkerSound(s) && WorkerEnabled(s, w) && s.worker.Testing?
    ensures ActiveVoice(WorkerApply(s, w))
  {
  }

  lemma FailingKeepsActiveVoice(env: Env, s: Session, w: WorkerStep)
    requires ActiveVoice(s) && TurnInv(env, s) && WorkerSound(s) && WorkerEnabled(s, w) && s.worker.Failing?
    ensures ActiveVoice(WorkerApply(s, w))
  {
  }

  lemma SpeakerKeepsActiveVoice(env: Env, s: Session, w: WorkerStep)
    requires ActiveVoice(s) && WorkerEnabled(s, w)
    requires HasEvent(s.worker) && !s.worker.Testing? && !s.worker.Failing?
    ensures ActiveVoice(WorkerApply(s, w))
  {
  }

  lemma PublisherKeepsActiveVoice(env: Env, s: Session, w: WorkerStep)
    requires ActiveVoice(s) && TurnInv(env, s) && WorkerSound(s) && WorkerEnabled(s, w)
    requires s.worker.Holding? || s.worker.Discarding? || s.worker.Clearing?
    ensures ActiveVoice(WorkerApply(s, w))
  {
  }

  lemma WorkerKeepsActiveVoice(env: Env, s: Session, w: WorkerStep)
    requires ActiveVoice(s) && TurnInv(env, s) && WorkerSound(s) && WorkerEnabled(s, w)
    ensures ActiveVoice(WorkerApply(s, w))
  {
    if !HasVoice(s.worker) {
      FreeWorkerKeepsActiveVoice(env, s, w);
    } else if s.worker.Listening? {
      ListenerKeepsActiveVoice(env, s, w);
    } else if s.worker.Testing? {
      TesterKeepsActiveVoice(env, s, w);
    } else if s.worker.Failing? {
      FailingKeepsActiveVoice(env, s, w);
    } else if HasEvent(s.worker) {
      SpeakerKeepsActiveVoice(env, s, w);
    } else {
      PublisherKeepsActiveVoice(env, s, w);
    }
  }

  lemma ForwarderKeepsActiveVoice(env: Env, s: Session, i: nat, f: ForwarderStep)
    requires ActiveVoice(s) && TurnInv(env, s) && WorkerSound(s) && ForwarderEnabled(s, i, f)
    ensures ActiveVoice(ForwarderApply(s, i, f))
  {
  }

  lemma ChatKeepsActiveVoice(env: Env, s: Session, c: nat, e: ChatStep)
    requires ActiveVoice(s) && TurnInv(env, s) && WorkerSound(s) && ChatEnabled(s, c, e)
    ensures ActiveVoice(ChatApply(s, c, e))
  {
  }

  lemma StepKeepsActiveVoice(env: Env, s: Session, step: Step)
    requires ActiveVoice(s) && TurnInv(env, s) && WorkerSound(s) && Enabled(env, s, step)
    ensures ActiveVoice(Apply(env, s, step))
  {
    match step
    case ByReader(r) => ReaderKeepsActiveVoice(env, s, r);
    case ByWorker(w) => WorkerKeepsActiveVoice(env, s, w);
    case ByForwarder(i, f) => ForwarderKeepsActiveVoice(env, s, i, f);
    case ByChat(c, e) => ChatKeepsActiveVoice(env, s, c, e);
    case ByWriter(_) =>
    case ByMicrophone(_) =>
  }

  // ---- Reachable states ----------------------------------------------------------------------

  ghost predicate Inv(env: Env, s: Session) {
    IdsInRange(s) && WorkerSound(s) && TurnInv(env, s) && ActiveVoice(s)
  }

  lemma StepKeepsInv(env: Env, s: Session, step: Step)
    requires Inv(env, s) && Enabled(env, s, step)
    ensures Inv(env, Apply(env, s, step))
  {
    StepKeepsIds(env, s, step);
    StepKeepsWorker(env, s, step);
    StepKeepsTurns(env, s, step);
    StepKeepsActiveVoice(env, s, step);
  }

  lemma {:induction false} ReachableInv(env: Env, s: Session, steps: seq<Step>)
    requires Inv(env, s) && Legal(env, s, steps)
    ensures Inv(env, Run(env, s, steps))
    decreases |steps|
  {
    if steps != [] {
      StepKeepsInv(env, s, steps[0]);
      ReachableInv(env, Apply(env, s, steps[0]), steps[1..]);
    }
  }

  // ---- Calm runs ----------------------------------------------------------------------------------

  /** A run in which no forwarder reads its turn while the reader is
      interrupting.  A late read while the reader is at rest is allowed. */
  ghost predicate Calm(env: Env, s: Session, steps: seq<Step>)
    requires Legal(env, s, steps)
    decreases |steps|
  {
    steps == [] || (CalmStep(s, steps[0]) && Calm(env, Apply(env, s, steps[0]), steps[1..]))
  }

  /** Prompt capture makes every run calm. */
  lemma {:induction false} PromptIsCalm(env: Env, s: Session, steps: seq<Step>)
    requires env.promptCapture && Inv(env, s) && Legal(env, s, steps)
    ensures Calm(env, s, steps)
    decreases |steps|
  {
    if steps != [] {
      StepKeepsInv(env, s, steps[0]);
      PromptIsCalm(env, Apply(env, s, steps[0]), steps[1..]);
    }
  }

  lemma {:induction false} CalmRunsStayQuiet(env: Env, s: Session, steps: seq<Step>)
    requires Inv(env, s) && Quiet(s) && Legal(env, s, steps) && Calm(env, s, steps)
    ensures Inv(env, Run(env, s, steps)) && Quiet(Run(env, s, steps))
    decreases |steps|
  {
    if steps != [] {
      StepKeepsInv(env, s, steps[0]);
      QuietExactly(env, s, steps[0]);
      CalmRunsStayQuiet(env, Apply(env, s, steps[0]), steps[1..]);
    }
  }

  // ---- A stale active TTS stream -----------------------------------------------------------------

  /** Under every schedule, an active TTS stream of an earlier turn means the
      reader is between its counter increment and its locked swap. */
  lemma StaleActiveVoiceOnlyBeforeSwap(env: Env, steps: seq<Step>)
    requires Legal(env, FRESH, steps)
    ensures var s := Run(env, FRESH, steps);
            s.sh.activeTts.Some? ==>
              && s.sh.activeTts.value < |s.voices|
              && (s.voices[s.sh.activeTts.value].job.turn < s.sh.turn ==> s.reader == Bumped(s.sh.turn))
  {
    ReachableInv(env, FRESH, steps);
  }

  /** An active TTS stream of the current turn is the one the worker is playing,
      unless it ended in an error event, after which it stays active.  A stream
      played to its end never is. */
  lemma ActiveVoiceIsInPlay(env: Env, steps: seq<Step>)
    requires Legal(env, FRESH, steps)
    ensures var s := Run(env, FRESH, steps);
            s.sh.activeTts.Some? && !s.worker.Stopped? ==>
              var v := s.sh.activeTts.value;
              && v < |s.voices|
              && (s.voices[v].job.turn == s.sh.turn ==>
                    (WorkerOn(s, v) && !Unpublished(s, v)) || EndedByError(s.voices[v]))
  {
    ReachableInv(env, FRESH, steps);
  }
}
