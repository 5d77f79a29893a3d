// What the turn protocol does not prevent: when an LLM stream goes stale, when a
// captured turn is the forwarder's own, and runs in which things go wrong.
module BargeInGaps {
  import opened Common
  import opened ChatReply
  import opened Synthesis
  import opened BargeIn
  import opened BargeInRuns
  import opened BargeInTurns
  import opened BargeInVoices
  import opened BargeInChats

  // ---- The active LLM stream ---------------------------------------------------------

  /** The active LLM stream belongs to the current turn, up to the window
      between the reader's increment and its swap. */
  predicate LlmIsCurrent(s: Session) {
    s.sh.activeLlm.Some? && s.sh.activeLlm.value < |s.chats| ==>
      s.chats[s.sh.activeLlm.value].turn == s.sh.turn || s.reader.Bumped?
  }

  predicate Carries(f: Forwarder, chats: seq<Chat>) {
    f.at.Publishing? || f.at.Spawning? ==> f.at.chat < |chats| && chats[f.at.chat].turn == f.turn
  }

  /** A forwarder's chat carries the forwarder's turn. */
  ghost predicate ChatsOfForwarders(forwarders: seq<Forwarder>, chats: seq<Chat>) {
    forall i | 0 <= i < |forwarders| :: Carries(forwarders[i], chats)
  }

  /** A forwarder that has passed startLLMChat's only turn check and is about
      to publish its stream although the turn has moved on. */
  predicate PublishesStale(s: Session, step: Step) {
    && step.ByForwarder? && step.f.Publish?
    && step.i < |s.forwarders| && s.forwarders[step.i].turn != s.sh.turn
    && !s.reader.Bumped?
  }

  lemma ReaderKeepsLlmCurrent(env: Env, s: Session, r: ReaderStep)
    requires LlmIsCurrent(s) && TurnInv(env, s) && ReaderEnabled(s, r)
    ensures LlmIsCurrent(ReaderApply(env, s, r))
  {
  }

  lemma ForwarderMovesLlm(env: Env, s: Session, i: nat, f: ForwarderStep)
    requires LlmIsCurrent(s) && Within(s.sh.activeLlm, |s.chats|)
    requires ChatsOfForwarders(s.forwarders, s.chats) && ForwarderEnabled(s, i, f)
    ensures LlmIsCurrent(ForwarderApply(s, i, f)) <==> !PublishesStale(s, ByForwarder(i, f))
  {
    assert Carries(s.forwarders[i], s.chats);
  }

  lemma ChatKeepsLlmCurrent(s: Session, c: nat, e: ChatStep)
    requires LlmIsCurrent(s) && ChatEnabled(s, c, e)
    ensures LlmIsCurrent(ChatApply(s, c, e))
  {
  }

  /** Exactly one kind of step makes an abandoned turn's LLM stream active. */
  lemma StaleLlmExactly(env: Env, s: Session, step: Step)
    requires Inv(env, s) && ChatsOfForwarders(s.forwarders, s.chats) && Enabled(env, s, step)
    requires LlmIsCurrent(s)
    ensures LlmIsCurrent(Apply(env, s, step)) <==> !PublishesStale(s, step)
  {
    match step
    case ByReader(r) => ReaderKeepsLlmCurrent(env, s, r);
    case ByForwarder(i, f) => ForwarderMovesLlm(env, s, i, f);
    case ByChat(c, e) => ChatKeepsLlmCurrent(s, c, e);
    case ByWorker(_) =>
    case ByWriter(_) =>
    case ByMicrophone(_) =>
  }

  lemma ForwarderKeepsCarrying(env: Env, s: Session, i: nat, f: ForwarderStep)
    requires ChatsOfForwarders(s.forwarders, s.chats) && ForwarderEnabled(s, i, f)
    ensures ChatsOfForwarders(ForwarderApply(s, i, f).forwarders, ForwarderApply(s, i, f).chats)
  {
    var s' := ForwarderApply(s, i, f);
    forall k | 0 <= k < |s'.forwarders| ensures Carries(s'.forwarders[k], s'.chats) {
      assert Carries(s.forwarders[k], s.chats);
    }
  }

  lemma StepKeepsCarrying(env: Env, s: Session, step: Step)
    requires ChatsOfForwarders(s.forwarders, s.chats) && Enabled(env, s, step)
    ensures ChatsOfForwarders(Apply(env, s, step).forwarders, Apply(env, s, step).chats)
  {
    if step.ByForwarder? {
      ForwarderKeepsCarrying(env, s, step.i, step.f);
    } else {
      var s' := Apply(env, s, step);
      forall k | 0 <= k < |s'.forwarders| ensures Carries(s'.forwarders[k], s'.chats) {
        assert k < |s.forwarders| ==> Carries(s.forwarders[k], s.chats);
      }
    }
  }

  ghost predicate NeverPublishesStale(env: Env, s: Session, steps: seq<Step>)
    requires Legal(env, s, steps)
    decreases |steps|
  {
    steps == [] ||
    (!PublishesStale(s, steps[0]) && NeverPublishesStale(env, Apply(env, s, steps[0]), steps[1..]))
  }

  /** So a run in which that step never happens -- in particular one in which
      every chat is published before the turn moves on -- keeps the active LLM
      stream current throughout. */
  lemma {:induction false} LlmStaysCurrent(env: Env, s: Session, steps: seq<Step>)
    requires Inv(env, s) && ChatsOfForwarders(s.forwarders, s.chats) && LlmIsCurrent(s)
    requires Legal(env, s, steps) && NeverPublishesStale(env, s, steps)
    ensures LlmIsCurrent(Run(env, s, steps))
    decreases |steps|
  {
    if steps != [] {
      StepKeepsInv(env, s, steps[0]);
      StepKeepsCarrying(env, s, steps[0]);
      StaleLlmExactly(env, s, steps[0]);
      LlmStaysCurrent(env, Apply(env, s, steps[0]), steps[1..]);
    }
  }

  // ---- An LLM stream escapes -------------------------------------------------------------------

  /** A chat of turn 1 is published in turn 2. */
  lemma StaleChatPublished(env: Env) returns (s: Session)
    requires env.promptCapture
    ensures Reachable(env, s) && s.sh.turn == 2 && s.reader == Reading && s.sh.activeLlm == Some(0)
    ensures |s.chats| == 1 && s.chats[0].turn == 1 && !s.chats[0].closed && !s.chats[0].ended
    ensures |s.forwarders| == 2 && s.forwarders[0].at == Spawning(0) && s.forwarders[1] == Forwarder(2, 2, Awaiting)
    ensures |s.sent| == 1 && s.written == 0 && s.sh.ttsQueue == [] && s.chats[0].opener == 0
  {
    FreshReachable(env);
    Starts(env, FRESH);
    var first := AfterStart(env, FRESH);
    OneWordDelivered(env);
    AsksUpToOpening(env, first, 0, ONE_WORD);
    var opening := AfterOpening(first, 0, ONE_WORD);
    Starts(env, opening);
    var s1 := AfterStart(env, opening);
    PublishesChat(env, s1, 0);
    s := Goto(s1.(sh := PublishLlm(s1.sh, 0)), 0, Spawning(0));
  }

  /** And when turn 2 publishes its own chat over it, it is lost: open, and no
      later interrupt will ever close it. */
  lemma ChatLostByOverwriting(env: Env)
    requires env.promptCapture
    ensures exists s :: Reachable(env, s) && ChatLost(s, 0) && !s.chats[0].ended && s.sh.activeLlm == Some(1)
  {
    var s := StaleChatPublished(env);
    OneWordDelivered(env);
    AsksUpToOpening(env, s, 1, ONE_WORD);
    var asked := AfterOpening(s, 1, ONE_WORD);
    PublishesChat(env, asked, 1);
    var lost := Goto(asked.(sh := PublishLlm(asked.sh, 1)), 1, Spawning(1));
    assert Reachable(env, lost) && ChatLost(lost, 0);
  }

  /** The reader swaps out and closes what is active. */
  lemma ReachesDrain(env: Env, s: Session) returns (s': Session)
    requires Reachable(env, s) && s.reader == Bumped(s.sh.turn)
    requires Within(s.sh.activeLlm, |s.chats|) && Within(s.sh.activeTts, |s.voices|)
    ensures Reachable(env, s')
    ensures s' == s.(sh := SwapOut(s.sh), chats := s'.chats, voices := s'.voices,
                     reader := Draining(s.sh.turn, s.sh.activeLlm.Some? || s.sh.activeTts.Some?))
    ensures s'.chats == if s.sh.activeLlm.None? then s.chats
                        else s.chats[s.sh.activeLlm.value := s.chats[s.sh.activeLlm.value].(closed := true)]
    ensures s'.voices == if s.sh.activeTts.None? then s.voices
                         else s.voices[s.sh.activeTts.value := s.voices[s.sh.activeTts.value].(closed := true)]
  {
    Swaps(env, s);
    var swapped := s.(sh := SwapOut(s.sh), reader := Swapped(s.sh.turn, s.sh.activeLlm, s.sh.activeTts));
    Then(env, swapped, ByReader(CloseLlm));
    var closing := Apply(env, swapped, ByReader(CloseLlm));
    Then(env, closing, ByReader(CloseTts));
    s' := Apply(env, closing, ByReader(CloseTts));
  }

  lemma AnnouncesAndOpens(env: Env, s: Session)
    requires Reachable(env, s) && s.reader == Draining(s.sh.turn, true) && s.sh.ttsQueue == []
    requires |s.sent| < s.written + SEND_BUFFER
    ensures Reachable(env, s.(reader := Reading, sent := s.sent + [Interrupted(s.sh.turn)],
                              forwarders := s.forwarders + [Spawned(env, s.sh.turn)]))
  {
    Then(env, s, ByReader(DrainDone));
    Then(env, s.(reader := Announcing(s.sh.turn)), ByReader(Announce(false)));
    Then(env, s.(reader := Connecting(s.sh.turn), sent := s.sent + [Interrupted(s.sh.turn)]), ByReader(SttOpens));
  }

  /** Turn 1's chat has passed its check with DONE in hand when turn 2 begins. */
  lemma DoneInHand(env: Env) returns (s: Session)
    requires env.promptCapture
    ensures Reachable(env, s) && s.sh.turn == 2 && s.reader == Reading && s.sh.activeLlm == None
    ensures |s.chats| == 1 && s.chats[0].at == Handling && s.chats[0].pos == 1 && s.chats[0].script == [ChatEvent.Done]
    ensures |s.forwarders| == 2 && s.forwarders[1] == Forwarder(2, 2, Awaiting)
    ensures |s.sent| == 2 && s.written == 0 && s.sh.ttsQueue == []
  {
    FreshReachable(env);
    Starts(env, FRESH);
    var first := AfterStart(env, FRESH);
    NoWordDelivered(env);
    AsksUpToWeighing(env, first, 0, NO_WORD);
    var weighed := AfterWeighing(first, 0, NO_WORD);
    Bumps(env, weighed);
    var drained := ReachesDrain(env, weighed.(sh := AddTurn(weighed.sh), reader := Bumped(2)));
    AnnouncesAndOpens(env, drained);
    s := drained.(reader := Reading, sent := drained.sent + [Interrupted(2)],
                  forwarders := drained.forwarders + [Spawned(env, 2)]);
  }

  /** The other way to lose a chat needs no stale publication: turn 2 has
      published its own when that DONE is recorded, and it clears the field. */
  lemma ChatLostByDone(env: Env)
    requires env.promptCapture
    ensures exists s :: Reachable(env, s) && |s.chats| == 2 && ChatLost(s, 1) && !s.chats[1].ended
                        && s.chats[1].turn == s.sh.turn == 2 && s.sh.activeLlm == None
  {
    var s := DoneInHand(env);
    OneWordDelivered(env);
    AsksUpToOpening(env, s, 1, ONE_WORD);
    var asked := AfterOpening(s, 1, ONE_WORD);
    PublishesChat(env, asked, 1);
    var published := Goto(asked.(sh := PublishLlm(asked.sh, 1)), 1, Spawning(1));
    Then(env, published, ByChat(0, Handle(false)));
    var lost := Apply(env, published, ByChat(0, Handle(false)));
    assert Reachable(env, lost) && ChatLost(lost, 1);
  }

  // ---- What a late capture can do -----------------------------------------------------------------

  /** Without prompt capture a transcript forwarder can take the turn after its
      own: the first utterance's transcripts then count as the second's. */
  lemma LateCapture(env: Env)
    requires !env.promptCapture
    ensures exists s ::
              && Reachable(env, s)
              && |s.forwarders| == 2 && s.forwarders[0].openedIn == 1 && s.forwarders[0].turn == 2
              && s.sent == [TranscriptFrame(2, 0, true, "hi")]
  {
    CapturedLate(env);
    var s := LateForwarder(env);
    HearsHi(env, s, 0);
    var heard := Goto(s.(sent := [TranscriptFrame(2, 0, true, "hi")]), 0, Prompting("hi"));
    assert Reachable(env, heard) && heard.sent == [TranscriptFrame(2, 0, true, "hi")];
  }

  /** Two utterances were started before the first forwarder read its turn. */
  function LateForwarder(env: Env): Session {
    FRESH.(sh := FRESH.sh.(turn := 2), forwarders := [Forwarder(1, 2, Awaiting), Forwarder(2, 0, Unstarted)])
  }

  lemma CapturedLate(env: Env)
    requires !env.promptCapture
    ensures Reachable(env, LateForwarder(env))
  {
    FreshReachable(env);
    Starts(env, FRESH);
    Starts(env, AfterStart(env, FRESH));
    Then(env, AfterStart(env, AfterStart(env, FRESH)), ByForwarder(0, Capture));
  }

  /** The worker has received a voice's first event. */
  lemma ListensAndBumps(env: Env, s: Session)
    requires Reachable(env, s) && s.reader == Reading && s.worker == Listening(0, false)
    requires |s.voices| == 1 && s.voices[0].script == [Audio(0)] && s.voices[0].pos == 0
    ensures Reachable(env, s.(voices := [s.voices[0].(pos := 1)], worker := Testing(0, false),
                              sh := AddTurn(s.sh), reader := Bumped(s.sh.turn + 1)))
  {
    Then(env, s, ByWorker(Listen));
    Bumps(env, s.(voices := [s.voices[0].(pos := 1)], worker := Testing(0, false)));
  }

  /** A voice of turn 2 is being spoken when turn 3 begins. */
  lemma SpokenInto(env: Env) returns (s: Session)
    requires !env.promptCapture
    ensures Reachable(env, s) && s.reader == Bumped(3) && s.sh.turn == 3 && s.worker == Testing(0, false)
    ensures |s.voices| == 1 && s.voices[0] == Voice(Job(2, "x"), 0, [0], [Audio(0)], 1, false, false)
    ensures |s.forwarders| == 2 && s.forwarders[1] == Forwarder(2, 0, Unstarted)
    ensures s.sh.ttsQueue == [] && |s.sent| == 1 && s.written == 0 && s.discarded == []
    ensures Within(s.sh.activeTts, |s.voices|)
  {
    CapturedLate(env);
    var late := LateForwarder(env);
    Asks(env, late, 0);
    var asked := AfterAsking(late, 0);
    Speaks(env, asked);
    var spoken := AfterPublishing(asked);
    ListensAndBumps(env, spoken);
    s := spoken.(voices := [spoken.voices[0].(pos := 1)], worker := Testing(0, false),
                 sh := AddTurn(spoken.sh), reader := Bumped(3));
  }

  /** The second forwarder captures turn 3 before the swap and gets a sentence
      queued. */
  lemma AskedInTheWindow(env: Env) returns (s: Session)
    requires !env.promptCapture
    ensures Reachable(env, s) && s.reader == Bumped(3) && s.sh.turn == 3 && s.worker == Testing(0, false)
    ensures |s.voices| == 1 && s.voices[0] == Voice(Job(2, "x"), 0, [0], [Audio(0)], 1, false, false)
    ensures s.sh.ttsQueue == [Job(3, "x")] && s.enqueued != []
    ensures Within(s.sh.activeLlm, |s.chats|) && Within(s.sh.activeTts, |s.voices|) && s.discarded == []
  {
    var before := SpokenInto(env);
    Then(env, before, ByForwarder(1, Capture));
    var captured := before.(forwarders := before.forwarders[1 := Forwarder(2, 3, Awaiting)]);
    Asks(env, captured, 1);
    s := AfterAsking(captured, 1);
  }

  /** Then the worker abandons its voice and publishes another over it. */
  lemma PublishedOver(env: Env) returns (s: Session)
    requires !env.promptCapture
    ensures Reachable(env, s) && s.reader == Bumped(3) && s.sh.turn == 3 && s.worker == Listening(1, false)
    ensures |s.voices| == 2 && s.voices[0] == Voice(Job(2, "x"), 0, [0], [Audio(0)], 1, false, false)
    ensures s.sh.activeTts == Some(1) && Within(s.sh.activeLlm, |s.chats|)
  {
    var asked := AskedInTheWindow(env);
    Then(env, asked, ByWorker(TestChunk));
    Speaks(env, asked.(worker := Idle));
    s := AfterPublishing(asked.(worker := Idle));
  }

  /** Publishing over an open voice does happen: there is a run after which an
      interrupt has closed everything it swapped out, and a TTS
      stream of an earlier turn is neither closed nor ended, and nobody holds it. */
  lemma VoiceEscapesAfterLateCapture(env: Env)
    requires !env.promptCapture
    ensures exists s ::
              && Reachable(env, s)
              && InterruptHasClosed(s.reader) && |s.voices| > 0 && s.voices[0].job.turn < s.sh.turn
              && !Settled(s.voices[0]) && !WorkerOn(s, 0) && s.sh.activeTts == None
  {
    var s := PublishedOver(env);
    var s' := ReachesDrain(env, s);
    assert s'.voices[0] == s.voices[0];
  }

  /** So does queueing into a drain: a run in which an interrupt throws away a
      sentence of its own turn. */
  lemma DrainsOwnTurnAfterLateCapture(env: Env)
    requires !env.promptCapture
    ensures exists s ::
              && Reachable(env, s)
              && |s.discarded| == 1 && s.discarded[0].0 == s.discarded[0].1.turn == s.sh.turn
  {
    var s := AskedInTheWindow(env);
    var s' := ReachesDrain(env, s);
    Then(env, s', ByReader(Drain));
    assert Apply(env, s', ByReader(Drain)).discarded == [(3, Job(3, "x"))];
  }

  function CountAdds(steps: seq<Step>): nat {
    if steps == [] then 0 else (if steps[0] == ByReader(AddOne) then 1 else 0) + CountAdds(steps[1..])
  }

  lemma {:induction false} CounterCounts(env: Env, s: Session, steps: seq<Step>)
    requires Inv(env, s) && Legal(env, s, steps)
    ensures Inv(env, Run(env, s, steps))
    ensures Run(env, s, steps).sh.turn == s.sh.turn + CountAdds(steps)
    decreases |steps|
  {
    if steps != [] {
      StepKeepsInv(env, s, steps[0]);
      CounterMoves(env, s, steps[0]);
      CounterCounts(env, Apply(env, s, steps[0]), steps[1..]);
    }
  }

  /** In general the captured turn is never before the one the stream was opened
      in, and it is that very turn exactly when no further "start" was read
      between the spawn and the capture. */
  lemma CaptureIsExactWhenPrompt(env: Env, s: Session, steps: seq<Step>, i: nat)
    requires Inv(env, s) && Enabled(env, s, ByReader(SttOpens)) && !env.promptCapture
    requires var spawned := Apply(env, s, ByReader(SttOpens));
             && i == |s.forwarders| && Legal(env, spawned, steps)
             && Enabled(env, Run(env, spawned, steps), ByForwarder(i, Capture))
    ensures var spawned := Apply(env, s, ByReader(SttOpens));
            var after := Apply(env, Run(env, spawned, steps), ByForwarder(i, Capture));
            && after.forwarders[i].turn >= s.sh.turn
            && (after.forwarders[i].turn == s.sh.turn <==> CountAdds(steps) == 0)
            && spawned.forwarders[i].openedIn == s.sh.turn
  {
    StepKeepsInv(env, s, ByReader(SttOpens));
    CounterCounts(env, Apply(env, s, ByReader(SttOpens)), steps);
  }
}
