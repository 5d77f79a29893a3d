// The loop with which an interrupt empties the sentence queue.
module BargeInDrain {
  import opened Common
  import opened BargeIn
  import opened BargeInTurns

  // ---- It terminates -------------------------------------------------------------------

  /** A chat that has passed its turn check with a sentence in hand. */
  function HasSentence(c: Chat): nat {
    if c.at.Handling? && 0 < c.pos <= |c.script| && c.script[c.pos - 1].Chunk? then 1 else 0
  }

  /** What is left for a drain to remove, at most. */
  function DrainWork(s: Session): nat {
    |s.sh.ttsQueue| + Tally(s.chats, HasSentence)
  }

  /** A chat of the current turn passes its check with a sentence. */
  predicate TakesUpSentence(s: Session, step: Step) {
    && step.ByChat? && step.e.Weigh? && step.c < |s.chats|
    && s.chats[step.c].turn == s.sh.turn
    && 0 < s.chats[step.c].pos <= |s.chats[step.c].script|
    && s.chats[step.c].script[s.chats[step.c].pos - 1].Chunk?
  }

  lemma ReaderDrains(env: Env, s: Session, r: ReaderStep)
    requires ReaderEnabled(s, r)
    ensures DrainWork(ReaderApply(env, s, r)) == DrainWork(s) - if r.Drain? then 1 else 0
  {
    if r.CloseLlm? && s.reader.llm.Some? {
      TallyUpdate(s.chats, s.reader.llm.value, s.chats[s.reader.llm.value].(closed := true), HasSentence);
    }
  }

  lemma ForwarderAddsNoSentence(s: Session, i: nat, f: ForwarderStep)
    requires ForwarderEnabled(s, i, f)
    ensures Tally(ForwarderApply(s, i, f).chats, HasSentence) <= Tally(s.chats, HasSentence)
  {
    var at := s.forwarders[i].at;
    if f.ChatOpens? {
      TallySnoc(s.chats, NewChat(i, s.forwarders[i], f.origin, f.script), HasSentence);
    } else if f.Spawn? {
      TallyUpdate(s.chats, at.chat, s.chats[at.chat].(at := Pending), HasSentence);
    }
  }

  lemma ChatWorkExactly(s: Session, c: nat, e: ChatStep)
    requires ChatEnabled(s, c, e)
    ensures DrainWork(ChatApply(s, c, e)) <= DrainWork(s) + 1
    ensures DrainWork(ChatApply(s, c, e)) <= DrainWork(s) <==> !TakesUpSentence(s, ByChat(c, e))
  {
    TallyUpdate(s.chats, c, ChatAfter(s.chats[c], s.sh.turn, e), HasSentence);
  }

  lemma WorkerAddsNoWork(s: Session, w: WorkerStep)
    requires WorkerEnabled(s, w)
    ensures DrainWork(WorkerApply(s, w)) <= DrainWork(s)
  {
  }

  /** Exactly a chat of the current turn can add to that, one at a time, and each
      drained job takes one away. */
  lemma DrainWorkExactly(env: Env, s: Session, step: Step)
    requires Enabled(env, s, step)
    ensures DrainWork(Apply(env, s, step)) <= DrainWork(s) + 1
    ensures DrainWork(Apply(env, s, step)) <= DrainWork(s) <==> !TakesUpSentence(s, step)
    ensures step == ByReader(Drain) ==> DrainWork(Apply(env, s, step)) == DrainWork(s) - 1
  {
    match step
    case ByReader(r) => ReaderDrains(env, s, r);
    case ByForwarder(i, f) => ForwarderAddsNoSentence(s, i, f);
    case ByChat(c, e) => ChatWorkExactly(s, c, e);
    case ByWorker(w) => WorkerAddsNoWork(s, w);
    case ByWriter(_) =>
    case ByMicrophone(_) =>
  }

  function CountDrains(steps: seq<Step>): nat {
    if steps == [] then 0 else (if steps[0] == ByReader(Drain) then 1 else 0) + CountDrains(steps[1..])
  }

  /** Every drained job is on record, with the turn that drained it. */
  lemma {:induction false} DrainsAreRecorded(env: Env, s: Session, steps: seq<Step>)
    requires Legal(env, s, steps)
    ensures |Run(env, s, steps).discarded| == |s.discarded| + CountDrains(steps)
    decreases |steps|
  {
    if steps != [] {
      StepRecordsDrain(env, s, steps[0]);
      DrainsAreRecorded(env, Apply(env, s, steps[0]), steps[1..]);
    }
  }

  lemma ReaderRecordsDrain(env: Env, s: Session, r: ReaderStep)
    requires ReaderEnabled(s, r)
    ensures ReaderApply(env, s, r).discarded
         == s.discarded + if r.Drain? then [(s.reader.turn, s.sh.ttsQueue[0])] else []
  {
  }

  lemma ForwarderRecordsNoDrain(s: Session, i: nat, f: ForwarderStep)
    requires ForwarderEnabled(s, i, f)
    ensures ForwarderApply(s, i, f).discarded == s.discarded
  {
  }

  lemma ChatRecordsNoDrain(s: Session, c: nat, e: ChatStep)
    requires ChatEnabled(s, c, e)
    ensures ChatApply(s, c, e).discarded == s.discarded
  {
  }

  lemma WorkerRecordsNoDrain(s: Session, w: WorkerStep)
    requires WorkerEnabled(s, w)
    ensures WorkerApply(s, w).discarded == s.discarded
  {
  }

  lemma StepRecordsDrain(env: Env, s: Session, step: Step)
    requires Enabled(env, s, step)
    ensures Apply(env, s, step).discarded
         == s.discarded + if step == ByReader(Drain) then [(s.reader.turn, s.sh.ttsQueue[0])] else []
  {
    match step
    case ByReader(r) => ReaderRecordsDrain(env, s, r);
    case ByForwarder(i, f) => ForwarderRecordsNoDrain(s, i, f);
    case ByChat(c, e) => ChatRecordsNoDrain(s, c, e);
    case ByWorker(w) => WorkerRecordsNoDrain(s, w);
    case ByWriter(_) =>
    case ByMicrophone(_) =>
  }

  ghost function CountTakenUp(env: Env, s: Session, steps: seq<Step>): nat
    requires Legal(env, s, steps)
    decreases |steps|
  {
    if steps == [] then 0
    else (if TakesUpSentence(s, steps[0]) then 1 else 0) + CountTakenUp(env, Apply(env, s, steps[0]), steps[1..])
  }

  /** Over any stretch of any run the reader drains at most what was queued or in
      hand when the stretch began and what the current turn has taken up since. */
  lemma {:induction false} DrainsAreBounded(env: Env, s: Session, steps: seq<Step>)
    requires Legal(env, s, steps)
    ensures CountDrains(steps) + DrainWork(Run(env, s, steps)) <= DrainWork(s) + CountTakenUp(env, s, steps)
    decreases |steps|
  {
    if steps != [] {
      DrainWorkExactly(env, s, steps[0]);
      DrainsAreBounded(env, Apply(env, s, steps[0]), steps[1..]);
    }
  }

  ghost predicate Interrupting(env: Env, s: Session, steps: seq<Step>)
    requires Legal(env, s, steps)
    decreases |steps|
  {
    ReaderTurn(s.reader).Some? && (steps == [] || Interrupting(env, Apply(env, s, steps[0]), steps[1..]))
  }

  lemma {:induction false} CalmTakesUpNothing(env: Env, s: Session, steps: seq<Step>)
    requires Inv(env, s) && Quiet(s) && Legal(env, s, steps) && Calm(env, s, steps) && Interrupting(env, s, steps)
    ensures CountTakenUp(env, s, steps) == 0
    decreases |steps|
  {
    if steps != [] {
      StepKeepsInv(env, s, steps[0]);
      QuietExactly(env, s, steps[0]);
      CalmTakesUpNothing(env, Apply(env, s, steps[0]), steps[1..]);
    }
  }

  /** In a calm run the current turn takes up nothing while its own interrupt
      lasts, so the drain loop ends whatever the other goroutines do. */
  lemma DrainTerminates(env: Env, s: Session, steps: seq<Step>)
    requires Inv(env, s) && Quiet(s) && Legal(env, s, steps) && Calm(env, s, steps) && Interrupting(env, s, steps)
    ensures CountDrains(steps) + DrainWork(Run(env, s, steps)) <= DrainWork(s)
  {
    CalmTakesUpNothing(env, s, steps);
    DrainsAreBounded(env, s, steps);
  }

  // ---- It spares the new turn ---------------------------------------------------------------

  predicate BeforeDrained(r: Reader) { r.Bumped? || r.Swapped? || r.ClosingTts? || r.Draining? }

  /** Until the drain is done every queued job is older than the counter. */
  ghost predicate QueueStale(s: Session) {
    BeforeDrained(s.reader) ==> JobTags(s.sh.ttsQueue, s.sh.turn)
  }

  /** A chat of the current turn queues a sentence before the drain is done. */
  predicate QueuesIntoDrain(s: Session, step: Step) {
    && BeforeDrained(s.reader)
    && step.ByChat? && step.e.Handle? && ChatEnabled(s, step.c, step.e)
    && s.chats[step.c].turn == s.sh.turn
    && s.chats[step.c].script[s.chats[step.c].pos - 1].Chunk?
    && |s.sh.ttsQueue| < TTS_QUEUE
  }

  lemma ReaderKeepsQueueStale(env: Env, s: Session, r: ReaderStep)
    requires TurnInv(env, s) && QueueStale(s) && ReaderEnabled(s, r)
    ensures QueueStale(ReaderApply(env, s, r))
  {
  }

  lemma ChatQueueExactly(env: Env, s: Session, c: nat, e: ChatStep)
    requires TurnInv(env, s) && QueueStale(s) && ChatEnabled(s, c, e)
    ensures QueueStale(ChatApply(s, c, e)) <==> !QueuesIntoDrain(s, ByChat(c, e))
  {
    if QueuesIntoDrain(s, ByChat(c, e)) {
      var queue := ChatApply(s, c, e).sh.ttsQueue;
      assert queue[|queue| - 1].turn == s.sh.turn;
    }
  }

  lemma WorkerKeepsQueueStale(s: Session, w: WorkerStep)
    requires QueueStale(s) && WorkerEnabled(s, w)
    ensures QueueStale(WorkerApply(s, w))
  {
  }

  lemma ForwarderKeepsQueueStale(s: Session, i: nat, f: ForwarderStep)
    requires QueueStale(s) && ForwarderEnabled(s, i, f)
    ensures QueueStale(ForwarderApply(s, i, f))
  {
  }

  lemma QueueStaleExactly(env: Env, s: Session, step: Step)
    requires TurnInv(env, s) && QueueStale(s) && Enabled(env, s, step)
    ensures QueueStale(Apply(env, s, step)) <==> !QueuesIntoDrain(s, step)
  {
    match step
    case ByReader(r) => ReaderKeepsQueueStale(env, s, r);
    case ByWorker(w) => WorkerKeepsQueueStale(s, w);
    case ByForwarder(i, f) => ForwarderKeepsQueueStale(s, i, f);
    case ByChat(c, e) => ChatQueueExactly(env, s, c, e);
    case ByWriter(_) =>
    case ByMicrophone(_) =>
  }

  ghost predicate OnlyStaleDiscarded(s: Session) {
    forall k | 0 <= k < |s.discarded| :: s.discarded[k].1.turn < s.discarded[k].0
  }

  lemma StepSparesNewTurn(env: Env, s: Session, step: Step)
    requires TurnInv(env, s) && QueueStale(s) && OnlyStaleDiscarded(s) && Enabled(env, s, step)
    ensures OnlyStaleDiscarded(Apply(env, s, step))
  {
    StepRecordsDrain(env, s, step);
  }

  ghost predicate NeverQueuesIntoDrain(env: Env, s: Session, steps: seq<Step>)
    requires Legal(env, s, steps)
    decreases |steps|
  {
    steps == [] || (!QueuesIntoDrain(s, steps[0]) && NeverQueuesIntoDrain(env, Apply(env, s, steps[0]), steps[1..]))
  }

  /** Under every schedule: unless a chat of the new turn queues a sentence
      before the drain is done, every job a drain throws away belongs to an
      earlier turn. */
  lemma {:induction false} DrainSparesNewTurn(env: Env, s: Session, steps: seq<Step>)
    requires Inv(env, s) && QueueStale(s) && OnlyStaleDiscarded(s)
    requires Legal(env, s, steps) && NeverQueuesIntoDrain(env, s, steps)
    ensures OnlyStaleDiscarded(Run(env, s, steps))
    decreases |steps|
  {
    if steps != [] {
      StepKeepsInv(env, s, steps[0]);
      StepSparesNewTurn(env, s, steps[0]);
      QueueStaleExactly(env, s, steps[0]);
      DrainSparesNewTurn(env, Apply(env, s, steps[0]), steps[1..]);
    }
  }

  lemma {:induction false} CalmNeverQueuesIntoDrain(env: Env, s: Session, steps: seq<Step>)
    requires Inv(env, s) && Quiet(s) && Legal(env, s, steps) && Calm(env, s, steps)
    ensures NeverQueuesIntoDrain(env, s, steps)
    decreases |steps|
  {
    if steps != [] {
      StepKeepsInv(env, s, steps[0]);
      QuietExactly(env, s, steps[0]);
      CalmNeverQueuesIntoDrain(env, Apply(env, s, steps[0]), steps[1..]);
    }
  }

  // ---- And if it is queued, it is in danger ---------------------------------------------------

  /** What the reader does next, left to itself. */
  function Next(s: Session): ReaderStep
    requires !s.reader.Left?
  {
    match s.reader
    case Reading => Leave
    case Bumped(_) => Swap
    case Swapped(_, _, _) => CloseLlm
    case ClosingTts(_, _, _) => CloseTts
    case Draining(_, _) => if s.sh.ttsQueue == [] then DrainDone else Drain
    case Announcing(_) => Announce(|s.sent| >= s.written + SEND_BUFFER)
    case Connecting(_) => SttOpens
  }

  /** How far the reader is from leaving. */
  function ReaderRank(s: Session): nat {
    match s.reader
    case Left => 0
    case Reading => 1
    case Connecting(_) => 2
    case Announcing(_) => 3
    case Draining(_, _) => 4 + |s.sh.ttsQueue|
    case ClosingTts(_, _, _) => 5 + |s.sh.ttsQueue|
    case Swapped(_, _, _) => 6 + |s.sh.ttsQueue|
    case Bumped(_) => 7 + |s.sh.ttsQueue|
  }

  /** Inside beginNewTurn the reader waits for nobody. */
  lemma ReaderMoves(env: Env, s: Session)
    requires IdsInRange(s) && !s.reader.Left?
    ensures ReaderEnabled(s, Next(s)) && Enabled(env, s, ByReader(Next(s)))
    ensures ReaderRank(ReaderApply(env, s, Next(s))) < ReaderRank(s)
  {
  }

  ghost predicate OwnJobQueued(s: Session) {
    exists k :: 0 <= k < |s.sh.ttsQueue| && s.sh.ttsQueue[k].turn >= s.sh.turn
  }

  predicate ReaderOnly(steps: seq<Step>) { forall k | 0 <= k < |steps| :: steps[k].ByReader? }

  lemma DrainedOrNext(env: Env, s: Session)
    requires TurnInv(env, s) && BeforeDrained(s.reader) && OwnJobQueued(s) && ReaderEnabled(s, Next(s))
    ensures var s' := ReaderApply(env, s, Next(s));
            !OnlyStaleDiscarded(s') || (BeforeDrained(s'.reader) && OwnJobQueued(s'))
  {
    var s' := ReaderApply(env, s, Next(s));
    var k :| 0 <= k < |s.sh.ttsQueue| && s.sh.ttsQueue[k].turn >= s.sh.turn;
    if s.reader.Draining? {
      assert k == 0 ==> s'.discarded[|s.discarded|] == (s.reader.turn, s.sh.ttsQueue[0]);
      assert k > 0 ==> s'.sh.ttsQueue[k - 1] == s.sh.ttsQueue[k];
    } else {
      assert s'.sh.ttsQueue[k].turn >= s'.sh.turn;
    }
  }

  lemma {:induction false} ReaderDiscards(env: Env, s: Session) returns (steps: seq<Step>)
    requires Inv(env, s) && BeforeDrained(s.reader) && OwnJobQueued(s)
    ensures ReaderOnly(steps) && Legal(env, s, steps) && !OnlyStaleDiscarded(Run(env, s, steps))
    decreases ReaderRank(s)
  {
    ReaderMoves(env, s);
    var step := ByReader(Next(s));
    var s' := Apply(env, s, step);
    StepKeepsInv(env, s, step);
    DrainedOrNext(env, s);
    if !OnlyStaleDiscarded(s') {
      steps := [step];
      assert [step][1..] == [];
    } else {
      var rest := ReaderDiscards(env, s');
      steps := [step] + rest;
      assert steps[1..] == rest;
    }
  }

  lemma {:induction false} ReaderOnlyIsSafe(env: Env, s: Session, steps: seq<Step>)
    requires ReaderOnly(steps) && Legal(env, s, steps)
    ensures NeverQueuesIntoDrain(env, s, steps)
    decreases |steps|
  {
    if steps != [] { ReaderOnlyIsSafe(env, Apply(env, s, steps[0]), steps[1..]); }
  }

  /** Exactly such a step puts a sentence of the new turn at the mercy of its own
      interrupt: the reader alone then throws it away. */
  lemma DangerExactly(env: Env, s: Session, step: Step)
    requires Inv(env, s) && QueueStale(s) && OnlyStaleDiscarded(s) && Enabled(env, s, step)
    ensures QueuesIntoDrain(s, step) <==>
            exists rest :: ReaderOnly(rest) && Legal(env, Apply(env, s, step), rest) &&
                           !OnlyStaleDiscarded(Run(env, Apply(env, s, step), rest))
  {
    var s' := Apply(env, s, step);
    StepKeepsInv(env, s, step);
    StepSparesNewTurn(env, s, step);
    QueueStaleExactly(env, s, step);
    if QueuesIntoDrain(s, step) {
      var queue := s'.sh.ttsQueue;
      assert queue[|queue| - 1].turn >= s'.sh.turn;
      var rest := ReaderDiscards(env, s');
    } else {
      forall rest | ReaderOnly(rest) && Legal(env, s', rest) ensures OnlyStaleDiscarded(Run(env, s', rest)) {
        ReaderOnlyIsSafe(env, s', rest);
        DrainSparesNewTurn(env, s', rest);
      }
    }
  }
}
