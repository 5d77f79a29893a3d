// The session object of internal/ws/session.go with its shared fields, as the
// goroutines change them.  A method here is one atomic operation or locked
// section, or a whole procedure run without interference; the specification is
// the state function that BargeIn's steps use.
module GatewaySession {
  import opened Common
  import opened ChatReply
  import opened BargeIn

  /** A stream as its owner sees it (Close in internal/llm/client.go and
      internal/tts/client.go). */
  class ClientStream {
    const id: nat
    var closedByCaller: bool
    var cancelled: bool

    constructor (id: nat)
      ensures this.id == id && !closedByCaller && !cancelled
    {
      this.id := id;
      closedByCaller, cancelled := false, false;
    }

    method Close()
      modifies this
      ensures closedByCaller && cancelled
    {
      closedByCaller := true;
      cancelled := true;
    }
  }

  function IdOf(stream: ClientStream?): Option<nat> {
    if stream == null then None else Some(stream.id)
  }

  /** What an undisturbed interrupt leaves of the shared fields. */
  function AfterInterrupt(sh: Shared): Shared {
    sh.(activeLlm := None, activeTts := None, ttsQueue := [])
  }

  /** What an undisturbed chat forwarder does to the shared fields with the
      events it receives, `text` being the reply so far. */
  function Forwarded(sh: Shared, events: seq<ChatEvent>, prompt: string, text: string): Shared
    decreases |events|
  {
    if events == [] then sh
    else
      match events[0]
      case Chunk(piece) => Forwarded(EnqueueJob(sh, Job(sh.turn, piece)), events[1..], prompt, text + piece)
      case Done => Forwarded(Conclude(sh, prompt, text), events[1..], prompt, text)
      case Error(_, _) => Forwarded(sh, events[1..], prompt, text)
  }

  function ErrorsIn(events: seq<ChatEvent>): seq<Out> {
    if events == [] then []
    else (if events[0].Error? then [ErrorFrame(events[0].code)] else []) + ErrorsIn(events[1..])
  }

  /** sendJSON on the buffered channel `sending`, once for each message. */
  function Offered(sending: seq<Out>, messages: seq<Out>): (r: seq<Out>)
    ensures sending <= r
    decreases |messages|
  {
    if messages == [] then sending
    else Offered(if |sending| < SEND_BUFFER then sending + [messages[0]] else sending, messages[1..])
  }

  class SessionObject {
    var currentTurn: Turn
    var activeLlmStream: ClientStream?
    var activeTtsStream: ClientStream?
    var history: seq<ChatMessage>
    var ttsQueue: seq<Job>
    var sending: seq<Out>

    function View(): Shared
      reads this
    {
      Shared(currentTurn, IdOf(activeLlmStream), IdOf(activeTtsStream), history, ttsQueue)
    }

    constructor ()
      ensures View() == FRESH.sh && sending == []
    {
      currentTurn, history, ttsQueue, sending := 0, [], [], [];
      activeLlmStream, activeTtsStream := null, null;
    }

    // ---- Atomic operations and locked sections ---------------------------------

    method NextTurn() returns (turn: Turn)
      modifies this`currentTurn
      ensures turn == old(currentTurn) + 1 && View() == AddTurn(old(View()))
    {
      currentTurn := currentTurn + 1;
      turn := currentTurn;
    }

    method SwapActive() returns (llm: ClientStream?, tts: ClientStream?)
      modifies this`activeLlmStream, this`activeTtsStream
      ensures llm == old(activeLlmStream) && tts == old(activeTtsStream)
      ensures activeLlmStream == null && activeTtsStream == null && View() == SwapOut(old(View()))
    {
      llm, tts := activeLlmStream, activeTtsStream;
      activeLlmStream, activeTtsStream := null, null;
    }

    method PublishChat(stream: ClientStream)
      modifies this`activeLlmStream
      ensures View() == PublishLlm(old(View()), stream.id)
    {
      activeLlmStream := stream;
    }

    /** synthesizeAndSend's re-check: publish, or close the stream again. */
    method PublishVoice(stream: ClientStream, turn: Turn) returns (published: bool)
      modifies this`activeTtsStream, stream
      ensures published <==> currentTurn == turn
      ensures View() == PublishTts(old(View()), stream.id, turn)
      ensures if published then activeTtsStream == stream && stream.cancelled == old(stream.cancelled)
              else stream.closedByCaller && stream.cancelled
    {
      if currentTurn != turn {
        stream.Close();
        return false;
      }
      activeTtsStream := stream;
      return true;
    }

    /** The stream's end: clear the field unless another took its place. */
    method ClearVoice(stream: ClientStream)
      requires activeTtsStream != null && activeTtsStream.id == stream.id ==> activeTtsStream == stream
      modifies this`activeTtsStream
      ensures View() == ClearTts(old(View()), stream.id)
    {
      if activeTtsStream == stream {
        activeTtsStream := null;
      }
    }

    method RecordReply(prompt: string, text: string)
      modifies this`activeLlmStream, this`history
      ensures View() == Conclude(old(View()), prompt, text)
    {
      activeLlmStream := null;
      history := history + [UserMessage(prompt), AssistantMessage(text)];
    }

    method QueueSentence(job: Job)
      modifies this`ttsQueue
      ensures View() == EnqueueJob(old(View()), job)
    {
      if |ttsQueue| < TTS_QUEUE {
        ttsQueue := ttsQueue + [job];
      }
    }

    method SendJson(out: Out)
      modifies this`sending
      ensures sending == Offered(old(sending), [out])
    {
      if |sending| < SEND_BUFFER {
        sending := sending + [out];
      }
    }

    // ---- Whole procedures --------------------------------------------------------

    method DrainQueue() returns (any: bool)
      modifies this`ttsQueue
      ensures ttsQueue == [] && (any <==> old(ttsQueue) != [])
    {
      any := false;
      while ttsQueue != []
        invariant any || ttsQueue == old(ttsQueue)
        invariant any ==> old(ttsQueue) != []
        decreases |ttsQueue|
      {
        ttsQueue := ttsQueue[1..];
        any := true;
      }
    }

    method CloseIfOpen(stream: ClientStream?)
      modifies stream
      ensures stream != null ==> stream.closedByCaller && stream.cancelled
    {
      if stream != null {
        stream.Close();
      }
    }

    /** interruptCurrentTurn: afterwards nothing is active or queued, whatever
        was active is closed, and the client hears of it if there was anything
        and the buffer has room. */
    method InterruptCurrentTurn(turn: Turn)
      modifies this, activeLlmStream, activeTtsStream
      ensures View() == AfterInterrupt(old(View()))
      ensures old(activeLlmStream) != null ==> old(activeLlmStream).closedByCaller && old(activeLlmStream).cancelled
      ensures old(activeTtsStream) != null ==> old(activeTtsStream).closedByCaller && old(activeTtsStream).cancelled
      ensures sending == Offered(old(sending),
                if old(View()) == AfterInterrupt(old(View())) then [] else [Interrupted(turn)])
    {
      var llm, tts := SwapActive();
      CloseIfOpen(llm);
      CloseIfOpen(tts);
      var drained := DrainQueue();
      if llm != null || tts != null || drained {
        SendJson(Interrupted(turn));
      }
    }

    /** The part of beginNewTurn that concerns these fields. */
    method BeginNewTurn()
      modifies this, activeLlmStream, activeTtsStream
      ensures View() == AfterInterrupt(AddTurn(old(View())))
      ensures sending == Offered(old(sending),
                if old(View()) == AfterInterrupt(old(View())) then [] else [Interrupted(old(currentTurn) + 1)])
      ensures old(activeLlmStream) != null ==> old(activeLlmStream).closedByCaller && old(activeLlmStream).cancelled
      ensures old(activeTtsStream) != null ==> old(activeTtsStream).closedByCaller && old(activeTtsStream).cancelled
    {
      var turn := NextTurn();
      InterruptCurrentTurn(turn);
    }

    method ForwardOne(event: ChatEvent, prompt: string, text: string) returns (reply: string)
      modifies this`activeLlmStream, this`history, this`ttsQueue, this`sending
      ensures currentTurn == old(currentTurn)
      ensures Forwarded(View(), [], prompt, reply) == Forwarded(old(View()), [event], prompt, text)
      ensures reply == text + if event.Chunk? then event.text else ""
      ensures sending == Offered(old(sending), ErrorsIn([event]))
    {
      reply := text;
      match event {
        case Chunk(piece) =>
          reply := text + piece;
          QueueSentence(Job(currentTurn, piece));
        case Done =>
          RecordReply(prompt, text);
        case Error(code, _) =>
          SendJson(ErrorFrame(code));
      }
    }

    /** forwardLLMEvents over the events its channel delivers. */
    method ForwardLlmEvents(events: seq<ChatEvent>, prompt: string, turn: Turn)
      modifies this`activeLlmStream, this`history, this`ttsQueue, this`sending
      ensures View() == if currentTurn == turn then Forwarded(old(View()), events, prompt, "") else old(View())
      ensures sending == if currentTurn == turn then Offered(old(sending), ErrorsIn(events)) else old(sending)
    {
      var text := "";
      for i := 0 to |events|
        invariant currentTurn == old(currentTurn)
        invariant i > 0 ==> currentTurn == turn
        invariant i == 0 ==> View() == old(View()) && sending == old(sending)
        invariant Forwarded(View(), events[i..], prompt, text) == Forwarded(old(View()), events, prompt, "")
        invariant Offered(sending, ErrorsIn(events[i..])) == Offered(old(sending), ErrorsIn(events))
      {
        if currentTurn != turn {
          return;
        }
        ghost var before, sent := View(), sending;
        ghost var said := text;
        text := ForwardOne(events[i], prompt, text);
        ForwardedStep(before, View(), events[i..], prompt, said, text);
        OfferedStep(sent, events[i..]);
        assert events[i..][1..] == events[i + 1..];
      }
    }
  }

  lemma ForwardedStep(sh: Shared, sh': Shared, events: seq<ChatEvent>, prompt: string, text: string, text': string)
    requires events != [] && sh' == Forwarded(sh, [events[0]], prompt, text)
    requires text' == text + if events[0].Chunk? then events[0].text else ""
    ensures Forwarded(sh, events, prompt, text) == Forwarded(sh', events[1..], prompt, text')
  {
    var one := [events[0]];
    assert one[0] == events[0] && one[1..] == [];
    match events[0]
    case Chunk(piece) =>
      assert sh' == EnqueueJob(sh, Job(sh.turn, piece)) && text' == text + piece;
    case Done =>
      assert text' == text;
    case Error(_, _) =>
      assert text' == text;
  }

  lemma OfferedStep(sending: seq<Out>, events: seq<ChatEvent>)
    requires events != []
    ensures Offered(sending, ErrorsIn(events))
         == Offered(Offered(sending, ErrorsIn([events[0]])), ErrorsIn(events[1..]))
  {
    var rest := ErrorsIn(events[1..]);
    assert ErrorsIn([events[0]][1..]) == [];
    if events[0].Error? {
      var frame := ErrorFrame(events[0].code);
      assert ErrorsIn([events[0]]) == [frame] && ErrorsIn(events) == [frame] + rest;
      assert ([frame] + rest)[1..] == rest && [frame][1..] == [];
    } else {
      assert ErrorsIn([events[0]]) == [] && ErrorsIn(events) == rest;
    }
  }

  // ---- What an undisturbed reply amounts to --------------------------------------------

  function Pieces(pieces: seq<string>): (events: seq<ChatEvent>)
    ensures |events| == |pieces| && forall i | 0 <= i < |pieces| :: events[i] == Chunk(pieces[i])
  {
    seq(|pieces|, i requires 0 <= i < |pieces| => Chunk(pieces[i]))
  }

  function JobsFor(turn: Turn, pieces: seq<string>): (jobs: seq<Job>)
    ensures |jobs| == |pieces| && forall i | 0 <= i < |pieces| :: jobs[i] == Job(turn, pieces[i])
  {
    seq(|pieces|, i requires 0 <= i < |pieces| => Job(turn, pieces[i]))
  }

  /** How many more sentences the queue takes. */
  function Room(sh: Shared, pieces: seq<string>): (n: nat)
    ensures n <= |pieces|
  {
    if |sh.ttsQueue| >= TTS_QUEUE then 0 else Min(TTS_QUEUE - |sh.ttsQueue|, |pieces|)
  }

  /** A whole reply, chunks and then DONE: the history gains one pair holding
      the text of every chunk, while the queue takes the leading sentences only,
      as many as fit. */
  lemma {:induction false} WholeReply(sh: Shared, pieces: seq<string>, prompt: string, text: string)
    ensures Forwarded(sh, Pieces(pieces) + [ChatEvent.Done], prompt, text)
         == sh.(activeLlm := None,
                history := sh.history + [ChatMessage("user", prompt),
                                         ChatMessage("assistant", text + Flatten(pieces))],
                ttsQueue := sh.ttsQueue + JobsFor(sh.turn, pieces[..Room(sh, pieces)]))
    decreases |pieces|
  {
    var events := Pieces(pieces) + [ChatEvent.Done];
    if pieces == [] {
      assert events == [ChatEvent.Done] && [ChatEvent.Done][1..] == [];
      assert text + Flatten(pieces) == text && sh.ttsQueue + JobsFor(sh.turn, pieces[..0]) == sh.ttsQueue;
    } else {
      var sh' := EnqueueJob(sh, Job(sh.turn, pieces[0]));
      assert events[0] == Chunk(pieces[0]) && events[1..] == Pieces(pieces[1..]) + [ChatEvent.Done];
      WholeReply(sh', pieces[1..], prompt, text + pieces[0]);
      assert text + pieces[0] + Flatten(pieces[1..]) == text + Flatten(pieces);
      LeadingPieces(sh, pieces);
    }
  }

  /** Queueing the first piece and then as many of the rest as fit. */
  lemma LeadingPieces(sh: Shared, pieces: seq<string>)
    requires pieces != []
    ensures var sh' := EnqueueJob(sh, Job(sh.turn, pieces[0]));
            sh'.ttsQueue + JobsFor(sh.turn, pieces[1..][..Room(sh', pieces[1..])])
            == sh.ttsQueue + JobsFor(sh.turn, pieces[..Room(sh, pieces)])
  {
  }

  /** A reply without DONE -- failed or cut short -- leaves the history alone. */
  lemma {:induction false} UnfinishedReply(sh: Shared, events: seq<ChatEvent>, prompt: string, text: string)
    requires ChatEvent.Done !in events
    ensures var sh' := Forwarded(sh, events, prompt, text);
            && sh'.history == sh.history && sh'.turn == sh.turn
            && sh'.activeLlm == sh.activeLlm && sh'.activeTts == sh.activeTts && sh.ttsQueue <= sh'.ttsQueue
    decreases |events|
  {
    if events != [] {
      match events[0]
      case Chunk(piece) => UnfinishedReply(EnqueueJob(sh, Job(sh.turn, piece)), events[1..], prompt, text + piece);
      case Error(_, _) => UnfinishedReply(sh, events[1..], prompt, text);
    }
  }

  // ---- The procedures as runs of the transition system --------------------------------------

  function Repeat(step: Step, n: nat): (steps: seq<Step>)
    ensures |steps| == n && forall k | 0 <= k < n :: steps[k] == step
  {
    seq(n, _ => step)
  }

  lemma {:induction false} RunsOn(env: Env, s: Session, a: seq<Step>, b: seq<Step>)
    requires Legal(env, s, a) && Legal(env, Run(env, s, a), b)
    ensures Legal(env, s, a + b) && Run(env, s, a + b) == Run(env, Run(env, s, a), b)
    decreases |a|
  {
    if a == [] {
      assert a + b == b;
    } else {
      assert (a + b)[0] == a[0] && (a + b)[1..] == a[1..] + b;
      RunsOn(env, Apply(env, s, a[0]), a[1..], b);
    }
  }

  /** The drain loop as reader steps. */
  lemma {:induction false} DrainRuns(env: Env, s: Session)
    requires s.reader.Draining?
    ensures var steps := Repeat(ByReader(Drain), |s.sh.ttsQueue|);
            && Legal(env, s, steps)
            && Run(env, s, steps).sh == s.sh.(ttsQueue := [])
            && Run(env, s, steps).reader == Draining(s.reader.turn, s.reader.interrupted || s.sh.ttsQueue != [])
            && Run(env, s, steps).voices == s.voices && Run(env, s, steps).chats == s.chats
    decreases |s.sh.ttsQueue|
  {
    if s.sh.ttsQueue != [] {
      var steps := Repeat(ByReader(Drain), |s.sh.ttsQueue|);
      assert steps[0] == ByReader(Drain) && steps[1..] == Repeat(ByReader(Drain), |s.sh.ttsQueue| - 1);
      DrainRuns(env, Apply(env, s, ByReader(Drain)));
    }
  }

  const BUMP_AND_SWAP := [ByReader(AddOne), ByReader(Swap)]
  const CLOSE_BOTH := [ByReader(CloseLlm), ByReader(CloseTts)]
  const OPENING := BUMP_AND_SWAP + CLOSE_BOTH

  predicate ActiveInRange(s: Session) {
    && (s.sh.activeLlm.Some? ==> s.sh.activeLlm.value < |s.chats|)
    && (s.sh.activeTts.Some? ==> s.sh.activeTts.value < |s.voices|)
  }

  predicate ActiveClosed(s: Session, s': Session)
    requires ActiveInRange(s)
  {
    && |s'.chats| == |s.chats| && |s'.voices| == |s.voices|
    && (s.sh.activeLlm.Some? ==> s'.chats[s.sh.activeLlm.value].closed)
    && (s.sh.activeTts.Some? ==> s'.voices[s.sh.activeTts.value].closed)
  }

  lemma BumpAndSwapRuns(env: Env, s: Session)
    requires s.reader.Reading?
    ensures Legal(env, s, BUMP_AND_SWAP)
    ensures Run(env, s, BUMP_AND_SWAP)
         == s.(sh := SwapOut(AddTurn(s.sh)), reader := Swapped(s.sh.turn + 1, s.sh.activeLlm, s.sh.activeTts))
  {
    RunsOn(env, s, [ByReader(AddOne)], [ByReader(Swap)]);
  }

  lemma CloseBothRuns(env: Env, s: Session)
    requires s.reader.Swapped?
    requires s.reader.llm.Some? ==> s.reader.llm.value < |s.chats|
    requires s.reader.tts.Some? ==> s.reader.tts.value < |s.voices|
    ensures Legal(env, s, CLOSE_BOTH)
    ensures var s' := Run(env, s, CLOSE_BOTH);
            && s'.sh == s.sh && |s'.chats| == |s.chats| && |s'.voices| == |s.voices|
            && s'.reader == Draining(s.reader.turn, s.reader.llm.Some? || s.reader.tts.Some?)
            && (s.reader.llm.Some? ==> s'.chats[s.reader.llm.value].closed)
            && (s.reader.tts.Some? ==> s'.voices[s.reader.tts.value].closed)
  {
    RunsOn(env, s, [ByReader(CloseLlm)], [ByReader(CloseTts)]);
  }

  lemma OpeningRuns(env: Env, s: Session)
    requires s.reader.Reading? && ActiveInRange(s)
    ensures Legal(env, s, OPENING)
    ensures var s' := Run(env, s, OPENING);
            && s'.sh == SwapOut(AddTurn(s.sh))
            && s'.reader == Draining(s.sh.turn + 1, s.sh.activeLlm.Some? || s.sh.activeTts.Some?)
            && ActiveClosed(s, s')
  {
    BumpAndSwapRuns(env, s);
    CloseBothRuns(env, Run(env, s, BUMP_AND_SWAP));
    RunsOn(env, s, BUMP_AND_SWAP, CLOSE_BOTH);
  }

  /** An interrupt nobody disturbs, as a run: it has InterruptCurrentTurn's
      effect on the shared fields, and the client is told under the same
      condition. */
  lemma InterruptRuns(env: Env, s: Session) returns (steps: seq<Step>)
    requires s.reader.Reading? && ActiveInRange(s)
    ensures Legal(env, s, steps) && forall k | 0 <= k < |steps| :: steps[k].ByReader?
    ensures Run(env, s, steps).sh == AfterInterrupt(AddTurn(s.sh))
    ensures Run(env, s, steps).reader
         == if s.sh == AfterInterrupt(s.sh) then Connecting(s.sh.turn + 1) else Announcing(s.sh.turn + 1)
    ensures ActiveClosed(s, Run(env, s, steps))
  {
    OpeningRuns(env, s);
    var s4 := Run(env, s, OPENING);
    var drains := Repeat(ByReader(Drain), |s4.sh.ttsQueue|);
    DrainRuns(env, s4);
    RunsOn(env, s, OPENING, drains);
    var s5 := Run(env, s, OPENING + drains);
    RunsOn(env, s, OPENING + drains, [ByReader(DrainDone)]);
    steps := OPENING + drains + [ByReader(DrainDone)];
  }

  /** A chat forwarder of the current turn between two events. */
  predicate InTurn(s: Session, c: nat) {
    c < |s.chats| && s.chats[c].at.Pending? && s.chats[c].turn == s.sh.turn && s.chats[c].pos <= |s.chats[c].script|
  }

  function AfterEvent(chat: Chat): Chat
    requires chat.pos < |chat.script|
  {
    var event := chat.script[chat.pos];
    chat.(pos := chat.pos + 1, ended := chat.ended || event.Done?,
          text := if event.Chunk? then chat.text + event.text else chat.text)
  }

  lemma ReceiveAndWeigh(env: Env, s: Session, c: nat)
    requires InTurn(s, c) && s.chats[c].pos < |s.chats[c].script|
    ensures var steps := [ByChat(c, Receive), ByChat(c, Weigh)];
            && Legal(env, s, steps)
            && Run(env, s, steps)
               == s.(chats := s.chats[c := s.chats[c].(pos := s.chats[c].pos + 1, at := Handling)])
  {
    RunsOn(env, s, [ByChat(c, Receive)], [ByChat(c, Weigh)]);
    assert [ByChat(c, Receive)] + [ByChat(c, Weigh)] == [ByChat(c, Receive), ByChat(c, Weigh)];
  }

  lemma HandleEffect(s: Session, c: nat, lost: bool)
    requires ChatEnabled(s, c, Handle(lost)) && s.chats[c].turn == s.sh.turn
    ensures ChatApply(s, c, Handle(lost)).sh
         == Forwarded(s.sh, [s.chats[c].script[s.chats[c].pos - 1]], s.chats[c].prompt, s.chats[c].text)
  {
    var one := [s.chats[c].script[s.chats[c].pos - 1]];
    assert one[1..] == [];
  }

  lemma EventRuns(env: Env, s: Session, c: nat) returns (steps: seq<Step>)
    requires InTurn(s, c) && s.chats[c].pos < |s.chats[c].script|
    ensures Legal(env, s, steps)
    ensures var s' := Run(env, s, steps);
            var chat := s.chats[c];
            && s'.sh == Forwarded(s.sh, [chat.script[chat.pos]], chat.prompt, chat.text) && s'.sh.turn == s.sh.turn
            && c < |s'.chats| && s'.chats[c] == AfterEvent(chat)
  {
    ReceiveAndWeigh(env, s, c);
    var first := [ByChat(c, Receive), ByChat(c, Weigh)];
    var s2 := Run(env, s, first);
    var lost := |s2.sent| >= s2.written + SEND_BUFFER;
    HandleEffect(s2, c, lost);
    RunsOn(env, s, first, [ByChat(c, Handle(lost))]);
    steps := first + [ByChat(c, Handle(lost))];
  }

  /** A chat forwarder nobody disturbs, as a run: it has ForwardLlmEvents's
      effect on the shared fields. */
  lemma {:induction false} ChatRuns(env: Env, s: Session, c: nat) returns (steps: seq<Step>)
    requires InTurn(s, c)
    ensures Legal(env, s, steps)
    ensures var chat := s.chats[c];
            && Run(env, s, steps).sh == Forwarded(s.sh, chat.script[chat.pos..], chat.prompt, chat.text)
            && c < |Run(env, s, steps).chats| && Run(env, s, steps).chats[c].at.Over?
    decreases |s.chats[c].script| - s.chats[c].pos
  {
    var chat := s.chats[c];
    if chat.pos == |chat.script| {
      steps := [ByChat(c, ReceiveEnd)];
    } else {
      var one := EventRuns(env, s, c);
      var s' := Run(env, s, one);
      var rest := ChatRuns(env, s', c);
      RunsOn(env, s, one, rest);
      steps := one + rest;
      ForwardedStep(s.sh, s'.sh, chat.script[chat.pos..], chat.prompt, chat.text, s'.chats[c].text);
      assert chat.script[chat.pos..][1..] == chat.script[chat.pos + 1..];
    }
  }
}
