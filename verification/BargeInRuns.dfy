// Stretches of runs of a session, to build particular reachable states from.
module BargeInRuns {
  import opened Common
  import opened SentenceChunker
  import opened RecvPump
  import opened ChatReply
  import opened Synthesis
  import opened BargeIn

  ghost predicate Reachable(env: Env, s: Session) {
    exists steps :: Legal(env, FRESH, steps) && Run(env, FRESH, steps) == s
  }

  lemma FreshReachable(env: Env)
    ensures Reachable(env, FRESH)
  {
    assert Legal(env, FRESH, []) && Run(env, FRESH, []) == FRESH;
  }

  lemma Then(env: Env, s: Session, step: Step)
    requires Reachable(env, s) && Enabled(env, s, step)
    ensures Reachable(env, Apply(env, s, step))
  {
    var steps :| Legal(env, FRESH, steps) && Run(env, FRESH, steps) == s;
    Extend(env, FRESH, steps, step);
  }

  lemma {:induction false} Extend(env: Env, s: Session, steps: seq<Step>, step: Step)
    requires Legal(env, s, steps) && Enabled(env, Run(env, s, steps), step)
    ensures Legal(env, s, steps + [step])
    ensures Run(env, s, steps + [step]) == Apply(env, Run(env, s, steps), step)
    decreases |steps|
  {
    if steps == [] {
      assert steps + [step] == [step] && [step][1..] == [];
    } else {
      assert (steps + [step])[0] == steps[0] && (steps + [step])[1..] == steps[1..] + [step];
      Extend(env, Apply(env, s, steps[0]), steps[1..], step);
    }
  }

  function Goto(s: Session, i: nat, at: ForwarderAt): Session
    requires i < |s.forwarders|
  {
    s.(forwarders := s.forwarders[i := s.forwarders[i].(at := at)])
  }

  /** "start", up to the swap. */
  lemma Swaps(env: Env, s: Session)
    requires Reachable(env, s) && s.reader == Bumped(s.sh.turn)
    ensures Reachable(env, s.(sh := SwapOut(s.sh), reader := Swapped(s.sh.turn, s.sh.activeLlm, s.sh.activeTts)))
  {
    Then(env, s, ByReader(Swap));
  }

  lemma Bumps(env: Env, s: Session)
    requires Reachable(env, s) && s.reader == Reading
    ensures Reachable(env, s.(sh := AddTurn(s.sh), reader := Bumped(s.sh.turn + 1)))
  {
    Then(env, s, ByReader(AddOne));
  }

  lemma ClosesNothing(env: Env, s: Session)
    requires Reachable(env, s) && s.reader == Swapped(s.sh.turn, None, None)
    ensures Reachable(env, s.(reader := Draining(s.sh.turn, false)))
  {
    Then(env, s, ByReader(CloseLlm));
    Then(env, s.(reader := ClosingTts(s.sh.turn, None, false)), ByReader(CloseTts));
  }

  function Spawned(env: Env, turn: Turn): Forwarder {
    if env.promptCapture then Forwarder(turn, turn, Awaiting) else Forwarder(turn, 0, Unstarted)
  }

  lemma Opens(env: Env, s: Session)
    requires Reachable(env, s) && s.reader == Draining(s.sh.turn, false) && s.sh.ttsQueue == []
    ensures Reachable(env, s.(reader := Reading, forwarders := s.forwarders + [Spawned(env, s.sh.turn)]))
  {
    Then(env, s, ByReader(DrainDone));
    Then(env, s.(reader := Connecting(s.sh.turn)), ByReader(SttOpens));
  }

  lemma ClosesAndOpens(env: Env, s: Session)
    requires Reachable(env, s) && s.reader == Swapped(s.sh.turn, None, None) && s.sh.ttsQueue == []
    ensures Reachable(env, s.(reader := Reading, forwarders := s.forwarders + [Spawned(env, s.sh.turn)]))
  {
    ClosesNothing(env, s);
    Opens(env, s.(reader := Draining(s.sh.turn, false)));
  }

  /** The reader handles one "start" with nothing to interrupt. */
  function AfterStart(env: Env, s: Session): Session {
    s.(sh := AddTurn(s.sh), forwarders := s.forwarders + [Spawned(env, s.sh.turn + 1)])
  }

  lemma StartSwaps(env: Env, s: Session)
    requires Reachable(env, s) && s.reader == Reading && s.sh.activeLlm.None? && s.sh.activeTts.None?
    ensures Reachable(env, s.(sh := AddTurn(s.sh), reader := Swapped(s.sh.turn + 1, None, None)))
  {
    Bumps(env, s);
    var bumped := s.(sh := AddTurn(s.sh), reader := Bumped(s.sh.turn + 1));
    Swaps(env, bumped);
    assert SwapOut(bumped.sh) == bumped.sh;
  }

  lemma Starts(env: Env, s: Session)
    requires Reachable(env, s) && s.reader == Reading
    requires s.sh.activeLlm.None? && s.sh.activeTts.None? && s.sh.ttsQueue == []
    ensures Reachable(env, AfterStart(env, s))
  {
    StartSwaps(env, s);
    ClosesAndOpens(env, s.(sh := AddTurn(s.sh), reader := Swapped(s.sh.turn + 1, None, None)));
  }

  /** Forwarder i hears a final "hi" in its own turn and goes on to the chat. */
  lemma HearsHi(env: Env, s: Session, i: nat)
    requires Reachable(env, s) && |s.sent| < s.written + SEND_BUFFER
    requires i < |s.forwarders| && s.forwarders[i].at == Awaiting && s.forwarders[i].turn == s.sh.turn
    ensures Reachable(env, Goto(s.(sent := s.sent + [TranscriptFrame(s.sh.turn, i, true, "hi")]), i, Prompting("hi")))
  {
    Then(env, s, ByForwarder(i, Hear(FinalText("hi"))));
    Then(env, Goto(s, i, Checking(FinalText("hi"))), ByForwarder(i, TestTurn));
    var acting := Goto(s, i, Acting(FinalText("hi")));
    assert Goto(Goto(s, i, Checking(FinalText("hi"))), i, Acting(FinalText("hi"))) == acting;
    Then(env, acting, ByForwarder(i, Act(false)));
  }

  lemma Prompts(env: Env, s: Session, i: nat)
    requires Reachable(env, s) && i < |s.forwarders| && s.forwarders[i].turn == s.sh.turn
    requires s.forwarders[i].at == Prompting("hi")
    ensures Reachable(env, Goto(s, i, Starting("hi", s.sh.history)))
  {
    Then(env, s, ByForwarder(i, TestPrompt));
    Then(env, Goto(s, i, Snapshotting("hi")), ByForwarder(i, Snapshot));
    assert Goto(Goto(s, i, Snapshotting("hi")), i, Starting("hi", s.sh.history))
        == Goto(s, i, Starting("hi", s.sh.history));
  }

  /** A generation and what is delivered of it. */
  datatype Answer = Answer(origin: Generation, script: seq<ChatEvent>)

  const ONE_WORD := Answer(Generation(["x"], Finished), [Chunk("x")])
  const NO_WORD := Answer(Generation([], Finished), [ChatEvent.Done])

  ghost predicate CanAnswer(env: Env, answer: Answer) {
    Deliverable(answer.script, answer.origin, env.settings)
  }

  lemma NoWordDelivered(env: Env)
    ensures CanAnswer(env, NO_WORD)
  {
    var settings := env.settings;
    var polls := [Got(WIRE_DONE, true)];
    var never: nat -> bool := (_: nat) => false;
    assert polls[1..] == [] && Raws(polls) == [WIRE_DONE];
    assert ChunksOf(NO_WORD.origin, settings) == [];
    assert Raws(polls) <= Served(ChunksOf(NO_WORD.origin, settings), 0, never, ClosingEvent(Finished));
    assert [ChatEvent.Done] == Pumped(polls, MapChatEvent, Lost(""), TIMED_OUT);
  }

  lemma OneWordDelivered(env: Env)
    ensures CanAnswer(env, ONE_WORD)
  {
    var settings := env.settings;
    OneChunk(settings.cfg, settings.isDigit);
    var polls := [Got(WireChunk("x"), true)];
    var never: nat -> bool := (_: nat) => false;
    assert polls[1..] == [] && Raws(polls) == [WireChunk("x")];
    ServesFirst("x", never);
    assert ChunksOf(ONE_WORD.origin, settings) == ["x"] && ClosingEvent(ONE_WORD.origin.ending) == WIRE_DONE;
    assert [Chunk("x")] == Pumped(polls, MapChatEvent, Lost(""), TIMED_OUT);
  }

  lemma ServesFirst(word: string, cancelled: nat -> bool)
    requires !cancelled(0)
    ensures [WireChunk(word)] <= Served([word], 0, cancelled, WIRE_DONE)
  {
    assert Served([word], 0, cancelled, WIRE_DONE) == [WireChunk(word)] + Served([word], 1, cancelled, WIRE_DONE);
  }

  lemma OneChunk(cfg: Config, isDigit: char -> bool)
    ensures Chunks(["x"], cfg, isDigit) == ["x"]
  {
    EarliestFlush(["x"], cfg, isDigit);
    assert Flatten(["x"]) == "x" && Strip("x") == "x";
    var k := FirstFlush(["x"], cfg, isDigit);
    if k.Some? {
      assert ["x"][..k.value] == ["x"] && ["x"][k.value..] == [];
      assert Greedy([], cfg, isDigit) == [];
    }
  }

  function OpenedChat(i: nat, f: Forwarder, history: seq<ChatMessage>, answer: Answer): Chat {
    Chat(i, f.turn, "hi", history, answer.origin, answer.script, 0, false, false, Unspawned, "")
  }

  lemma OpensChat(env: Env, s: Session, i: nat, answer: Answer)
    requires CanAnswer(env, answer) && Reachable(env, s)
    requires i < |s.forwarders| && s.forwarders[i].at == Starting("hi", s.sh.history)
    ensures Reachable(env, Goto(s, i, Publishing(|s.chats|)).(
                             chats := s.chats + [OpenedChat(i, s.forwarders[i], s.sh.history, answer)]))
  {
    Then(env, s, ByForwarder(i, ChatOpens(answer.origin, answer.script)));
  }

  lemma PublishesChat(env: Env, s: Session, i: nat)
    requires Reachable(env, s) && i < |s.forwarders| && s.forwarders[i].at.Publishing?
    ensures var c := s.forwarders[i].at.chat;
            Reachable(env, Goto(s.(sh := PublishLlm(s.sh, c)), i, Spawning(c)))
  {
    Then(env, s, ByForwarder(i, Publish));
  }

  lemma SpawnsChat(env: Env, s: Session, i: nat)
    requires Reachable(env, s) && i < |s.forwarders| && s.forwarders[i].at.Spawning?
    requires s.forwarders[i].at.chat < |s.chats|
    ensures var c := s.forwarders[i].at.chat;
            Reachable(env, Goto(s, i, Awaiting).(chats := s.chats[c := s.chats[c].(at := Pending)]))
  {
    Then(env, s, ByForwarder(i, Spawn));
  }

  /** A chat receives its first event and passes its check. */
  lemma WeighsFirst(env: Env, s: Session, c: nat)
    requires Reachable(env, s) && c < |s.chats| && s.chats[c].at == Pending && s.chats[c].pos == 0
    requires s.chats[c].script != [] && s.chats[c].turn == s.sh.turn
    ensures Reachable(env, s.(chats := s.chats[c := s.chats[c].(pos := 1, at := Handling)]))
  {
    Then(env, s, ByChat(c, Receive));
    Then(env, s.(chats := s.chats[c := s.chats[c].(pos := 1, at := Weighing)]), ByChat(c, Weigh));
  }

  lemma QueuesWord(env: Env, s: Session, c: nat)
    requires Reachable(env, s) && c < |s.chats| && s.chats[c].at == Handling && s.chats[c].pos == 1
    requires s.chats[c].script == [Chunk("x")] && s.chats[c].text == "" && s.sh.ttsQueue == []
    requires |s.sent| < s.written + SEND_BUFFER
    ensures var job := Job(s.chats[c].turn, "x");
            Reachable(env, s.(chats := s.chats[c := s.chats[c].(at := Pending, text := "x")],
                              sh := s.sh.(ttsQueue := [job]), enqueued := s.enqueued + [job]))
  {
    assert s.sh.ttsQueue + [Job(s.chats[c].turn, "x")] == [Job(s.chats[c].turn, "x")] && "" + "x" == "x";
    Then(env, s, ByChat(c, Handle(false)));
  }

  /** Forwarder i, awaiting in the current turn, hears "hi", opens a chat and
      gets one sentence queued. */
  function AfterAsking(s: Session, i: nat): Session
    requires i < |s.forwarders|
  {
    var job := Job(s.sh.turn, "x");
    s.(sent := s.sent + [TranscriptFrame(s.sh.turn, i, true, "hi")],
       chats := s.chats +
         [OpenedChat(i, s.forwarders[i], s.sh.history, ONE_WORD).(pos := 1, at := Pending, text := "x")],
       sh := s.sh.(activeLlm := Some(|s.chats|), ttsQueue := [job]), enqueued := s.enqueued + [job])
  }

  /** The same, up to the publication of the chat. */
  function AfterOpening(s: Session, i: nat, answer: Answer): Session
    requires i < |s.forwarders|
  {
    Goto(s, i, Publishing(|s.chats|)).(
      sent := s.sent + [TranscriptFrame(s.sh.turn, i, true, "hi")],
      chats := s.chats + [OpenedChat(i, s.forwarders[i], s.sh.history, answer)])
  }

  predicate CanAsk(s: Session, i: nat) {
    && i < |s.forwarders| && s.forwarders[i].at == Awaiting && s.forwarders[i].turn == s.sh.turn
    && |s.sent| + 1 < s.written + SEND_BUFFER && s.sh.ttsQueue == []
  }

  lemma GotoTwice(s: Session, i: nat, a: ForwarderAt, b: ForwarderAt)
    requires i < |s.forwarders|
    ensures Goto(Goto(s, i, a), i, b) == Goto(s, i, b)
  {
  }

  lemma AsksUpToOpening(env: Env, s: Session, i: nat, answer: Answer)
    requires CanAnswer(env, answer) && Reachable(env, s) && CanAsk(s, i)
    ensures Reachable(env, AfterOpening(s, i, answer))
  {
    HearsHi(env, s, i);
    var heard := s.(sent := s.sent + [TranscriptFrame(s.sh.turn, i, true, "hi")]);
    Prompts(env, Goto(heard, i, Prompting("hi")), i);
    GotoTwice(heard, i, Prompting("hi"), Starting("hi", s.sh.history));
    var starting := Goto(heard, i, Starting("hi", s.sh.history));
    OpensChat(env, starting, i, answer);
    GotoTwice(heard, i, Starting("hi", s.sh.history), Publishing(|s.chats|));
  }

  lemma SpawnsAfterPublishing(env: Env, s: Session, i: nat)
    requires Reachable(env, s) && i < |s.forwarders| && s.forwarders[i].at.Publishing?
    requires s.forwarders[i].at.chat < |s.chats|
    ensures var c := s.forwarders[i].at.chat;
            Reachable(env, Goto(s, i, Awaiting).(sh := PublishLlm(s.sh, c),
                                                 chats := s.chats[c := s.chats[c].(at := Pending)]))
  {
    var c := s.forwarders[i].at.chat;
    PublishesChat(env, s, i);
    var published := s.(sh := PublishLlm(s.sh, c));
    SpawnsChat(env, Goto(published, i, Spawning(c)), i);
    GotoTwice(published, i, Spawning(c), Awaiting);
  }

  /** Forwarder i asks, and its chat is about to receive. */
  function AfterSpawning(s: Session, i: nat, answer: Answer): Session
    requires i < |s.forwarders|
  {
    s.(sent := s.sent + [TranscriptFrame(s.sh.turn, i, true, "hi")], sh := PublishLlm(s.sh, |s.chats|),
       chats := s.chats + [OpenedChat(i, s.forwarders[i], s.sh.history, answer).(at := Pending)])
  }

  lemma AsksUpToSpawning(env: Env, s: Session, i: nat, answer: Answer)
    requires CanAnswer(env, answer) && Reachable(env, s) && CanAsk(s, i)
    ensures Reachable(env, AfterSpawning(s, i, answer))
  {
    AsksUpToOpening(env, s, i, answer);
    var opening := AfterOpening(s, i, answer);
    SpawnsAfterPublishing(env, opening, i);
    assert Goto(opening, i, Awaiting).forwarders == s.forwarders;
    assert opening.chats[|s.chats| := opening.chats[|s.chats|].(at := Pending)] == AfterSpawning(s, i, answer).chats;
  }

  /** And it has received its first event and passed its check. */
  function AfterWeighing(s: Session, i: nat, answer: Answer): Session
    requires i < |s.forwarders|
  {
    AfterSpawning(s, i, answer).(
      chats := s.chats + [OpenedChat(i, s.forwarders[i], s.sh.history, answer).(pos := 1, at := Handling)])
  }

  lemma AsksUpToWeighing(env: Env, s: Session, i: nat, answer: Answer)
    requires CanAnswer(env, answer) && answer.script != [] && Reachable(env, s) && CanAsk(s, i)
    ensures Reachable(env, AfterWeighing(s, i, answer))
  {
    AsksUpToSpawning(env, s, i, answer);
    var spawned := AfterSpawning(s, i, answer);
    WeighsFirst(env, spawned, |s.chats|);
    assert spawned.chats[|s.chats| := spawned.chats[|s.chats|].(pos := 1, at := Handling)]
        == AfterWeighing(s, i, answer).chats;
  }

  lemma Asks(env: Env, s: Session, i: nat)
    requires Reachable(env, s) && CanAsk(s, i)
    ensures Reachable(env, AfterAsking(s, i))
  {
    OneWordDelivered(env);
    AsksUpToWeighing(env, s, i, ONE_WORD);
    QueuesWord(env, AfterWeighing(s, i, ONE_WORD), |s.chats|);
    WordQueued(s, i);
  }

  lemma WordQueued(s: Session, i: nat)
    requires i < |s.forwarders| && s.forwarders[i].turn == s.sh.turn && s.sh.ttsQueue == []
    ensures var w := AfterWeighing(s, i, ONE_WORD);
            var job := Job(w.chats[|s.chats|].turn, "x");
            AfterAsking(s, i)
            == w.(chats := w.chats[|s.chats| := w.chats[|s.chats|].(at := Pending, text := "x")],
                  sh := w.sh.(ttsQueue := [job]), enqueued := w.enqueued + [job])
  {
  }

  /** The worker opens a voice for the only job and publishes it. */
  function AfterPublishing(s: Session): Session
    requires |s.sh.ttsQueue| == 1 && s.enqueued != []
  {
    s.(sh := s.sh.(ttsQueue := [], activeTts := Some(|s.voices|)),
       voices := s.voices + [Voice(s.sh.ttsQueue[0], |s.enqueued| - 1, [0], [Audio(0)], 0, false, false)],
       worker := Listening(|s.voices|, false))
  }

  lemma TakesJob(env: Env, s: Session)
    requires Reachable(env, s) && s.worker == Idle && |s.sh.ttsQueue| == 1 && s.enqueued != []
    requires s.sh.ttsQueue[0].turn == s.sh.turn
    ensures Reachable(env, s.(sh := s.sh.(ttsQueue := []), worker := Calling(s.sh.ttsQueue[0], |s.enqueued| - 1)))
  {
    Then(env, s, ByWorker(Take));
    var taken := s.(sh := s.sh.(ttsQueue := []), worker := Taken(s.sh.ttsQueue[0], |s.enqueued| - 1));
    assert Apply(env, s, ByWorker(Take)) == taken;
    Then(env, taken, ByWorker(TestJob));
  }

  lemma ZeroSpoken()
    ensures Spoken([Audio(0)], [0])
  {
    var polls := [Got(0, true)];
    assert polls[1..] == [] && Raws(polls) == [0];
    assert [Audio(0)] == Pumped(polls, AudioEvent, SYNTHESIS_ERROR, SYNTHESIS_TIMEOUT);
  }

  lemma OpensVoice(env: Env, s: Session)
    requires Reachable(env, s) && s.worker.Calling? && s.worker.job.turn == s.sh.turn
    ensures var voice := Voice(s.worker.job, s.worker.index, [0], [Audio(0)], 0, false, false);
            Reachable(env, s.(sh := s.sh.(activeTts := Some(|s.voices|)), voices := s.voices + [voice],
                              worker := Listening(|s.voices|, false)))
  {
    ZeroSpoken();
    Then(env, s, ByWorker(VoiceOpens([0], [Audio(0)])));
    Then(env, s.(voices := s.voices + [Voice(s.worker.job, s.worker.index, [0], [Audio(0)], 0, false, false)],
                 worker := Holding(|s.voices|)), ByWorker(Recheck));
  }

  lemma Speaks(env: Env, s: Session)
    requires Reachable(env, s) && s.worker == Idle && |s.sh.ttsQueue| == 1 && s.enqueued != []
    requires s.sh.ttsQueue[0].turn == s.sh.turn
    ensures Reachable(env, AfterPublishing(s))
  {
    TakesJob(env, s);
    OpensVoice(env, s.(sh := s.sh.(ttsQueue := []), worker := Calling(s.sh.ttsQueue[0], |s.enqueued| - 1)));
  }
}
