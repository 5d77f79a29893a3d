// One chat reply from end to end: the tokens of the model, the chunks and
// events of llm/grpc_servicer.py, and the events internal/llm/client.go hands
// to the gateway session.
module ChatReply {
  import opened Common
  import opened SentenceChunker
  import opened RecvPump

  datatype ChatMessage = ChatMessage(role: string, content: string)

  // llm.proto: 0 CHUNK, 1 DONE, 2 ERROR.
  datatype WireEvent = WireEvent(kind: int, text: string, code: string, message: string)

  function WireChunk(text: string): WireEvent { WireEvent(0, text, "", "") }
  const WIRE_DONE := WireEvent(1, "", "", "")
  function WireError(code: string, message: string): WireEvent { WireEvent(2, "", code, message) }

  datatype ChatEvent = Chunk(text: string) | Done | Error(code: string, message: string)

  /** mapChatEvent: anything that is not DONE or ERROR counts as a chunk. */
  function MapChatEvent(e: WireEvent): ChatEvent {
    if e.kind == 1 then Done
    else if e.kind == 2 then Error(e.code, e.message)
    else Chunk(e.text)
  }

  // ---- The servicer --------------------------------------------------------------

  datatype Readiness = Ready | ModelMissing | Unreachable

  datatype Ending = Finished | ServiceFailure(code: string, message: string) | Unexpected(message: string)

  /** A generation: the tokens the model got to emit and how it ended. */
  datatype Generation = Generation(tokens: seq<string>, ending: Ending)

  datatype Settings = Settings(cfg: Config, isDigit: char -> bool, personality: ChatMessage)

  datatype Reply =
    | Refused(readiness: Readiness)                    // a gRPC status, no events
    | Streamed(events: seq<WireEvent>, history: seq<ChatMessage>)

  /** The chunks that come out: the end flush happens only on a normal end. */
  function ChunksOf(g: Generation, s: Settings): seq<string> {
    if g.ending.Finished? then Chunks(g.tokens, s.cfg, s.isDigit)
    else Emitted(g.tokens, s.cfg, s.isDigit)
  }

  function ClosingEvent(e: Ending): WireEvent {
    match e
    case Finished => WIRE_DONE
    case ServiceFailure(code, message) => WireError(code, message)
    case Unexpected(message) => WireError("internal_error", message)
  }

  function Served(chunks: seq<string>, i: nat, cancelled: nat -> bool, closing: WireEvent): seq<WireEvent>
    requires i <= |chunks|
    decreases |chunks| - i
  {
    if i == |chunks| then [closing]
    else if cancelled(i) then []
    else [WireChunk(chunks[i])] + Served(chunks, i + 1, cancelled, closing)
  }

  /** StreamChat.  `cancelled(i)` is what the context says just before chunk i
      would be sent. */
  method StreamChat(readiness: Readiness, conversation: seq<ChatMessage>, g: Generation,
                    cancelled: nat -> bool, s: Settings)
    returns (reply: Reply)
    ensures !readiness.Ready? ==> reply == Refused(readiness)
    ensures readiness.Ready? ==>
              reply == Streamed(Served(ChunksOf(g, s), 0, cancelled, ClosingEvent(g.ending)),
                                [s.personality] + conversation)
  {
    if !readiness.Ready? {
      return Refused(readiness);
    }
    var history := [s.personality] + conversation;
    var chunks := ChunksOf(g, s);
    var events := [];
    for i := 0 to |chunks|
      invariant Served(chunks, 0, cancelled, ClosingEvent(g.ending))
             == events + Served(chunks, i, cancelled, ClosingEvent(g.ending))
    {
      if cancelled(i) {
        return Streamed(events, history);
      }
      events := events + [WireChunk(chunks[i])];
    }
    events := events + [ClosingEvent(g.ending)];
    return Streamed(events, history);
  }

  function WireChunks(chunks: seq<string>): (events: seq<WireEvent>)
    ensures |events| == |chunks|
    ensures forall i | 0 <= i < |chunks| :: events[i] == WireChunk(chunks[i])
  {
    seq(|chunks|, i requires 0 <= i < |chunks| => WireChunk(chunks[i]))
  }

  /** The event grammar: chunk events for the chunks before the first
      cancellation `k`, then exactly one closing event if there was none and
      nothing more if there was. */
  lemma {:induction false} ReplyGrammar(chunks: seq<string>, i: nat, cancelled: nat -> bool, closing: WireEvent)
    returns (k: nat)
    requires i <= |chunks|
    ensures i <= k <= |chunks| && (k < |chunks| ==> cancelled(k)) && forall j | i <= j < k :: !cancelled(j)
    ensures Served(chunks, i, cancelled, closing)
         == WireChunks(chunks[i..k]) + (if k == |chunks| then [closing] else [])
    decreases |chunks| - i
  {
    if i == |chunks| || cancelled(i) {
      k := i;
    } else {
      k := ReplyGrammar(chunks, i + 1, cancelled, closing);
      assert WireChunks(chunks[i..k]) == [WireChunk(chunks[i])] + WireChunks(chunks[i + 1..k]);
    }
  }

  // ---- What reaches the session ------------------------------------------------------

  function Lost(message: string): ChatEvent { Error("llm_stream_error", message) }
  const TIMED_OUT := Error("llm_timeout", "llm service did not respond in time")

  /** Event scripts a session can receive for a generation: what the pump makes
      of what the servicer serves, for some cancellations and some schedule. */
  ghost predicate Deliverable(script: seq<ChatEvent>, g: Generation, s: Settings) {
    exists cancelled: nat -> bool, polls: seq<Poll<WireEvent>>, message: string ::
      && Raws(polls) <= Served(ChunksOf(g, s), 0, cancelled, ClosingEvent(g.ending))
      && script == Pumped(polls, MapChatEvent, Lost(message), TIMED_OUT)
  }

  /** The concatenated text of chunk events, as forwardLLMEvents builds it. */
  function TextOf(events: seq<ChatEvent>): string {
    if events == [] then ""
    else
      var last := events[|events| - 1];
      TextOf(events[..|events| - 1]) + (if last.Chunk? then last.text else "")
  }

  lemma DonePosition(script: seq<ChatEvent>, server: seq<WireEvent>, chunks: seq<string>, k: nat,
                     closing: WireEvent, n: nat, parting: seq<ChatEvent>, d: nat)
    requires k <= |chunks| && n <= |server| && d < |script| && script[d].Done?
    requires server == WireChunks(chunks[0..k]) + (if k == |chunks| then [closing] else [])
    requires |parting| <= 1 && (parting != [] ==> parting[0].Error?)
    requires script == Converted(server[..n], MapChatEvent) + parting
    ensures d == |chunks| && closing.kind == 1
    ensures forall i | 0 <= i < |script| :: (script[i].Done? <==> i == d) && (i < d ==> script[i] == Chunk(chunks[i]))
  {
    assert d < n && server[d].kind == 1;
    assert d == k == |chunks| && chunks[0..k] == chunks;
    forall i | 0 <= i < d ensures script[i] == Chunk(chunks[i]) {
      assert server[i] == WireChunk(chunks[i]);
    }
  }

  /** A DONE that reaches the session stands right behind the whole reply:
      everything before it is a chunk, it is the only DONE, and the chunk texts
      are the sentence chunks of all the model's tokens, which apart from
      whitespace they spell exactly. */
  lemma DoneMeansWhole(script: seq<ChatEvent>, g: Generation, s: Settings, d: nat)
    requires Deliverable(script, g, s) && d < |script| && script[d].Done?
    ensures g.ending.Finished?
    ensures forall i | 0 <= i < |script| :: (script[i].Done? <==> i == d) && (i < d ==> script[i].Chunk?)
    ensures TextOf(script[..d]) == Flatten(Chunks(g.tokens, s.cfg, s.isDigit))
    ensures Visible(TextOf(script[..d])) == Visible(Flatten(g.tokens))
  {
    var cancelled: nat -> bool, polls: seq<Poll<WireEvent>>, message: string :|
      && Raws(polls) <= Served(ChunksOf(g, s), 0, cancelled, ClosingEvent(g.ending))
      && script == Pumped(polls, MapChatEvent, Lost(message), TIMED_OUT);
    var chunks := ChunksOf(g, s);
    var server := Served(chunks, 0, cancelled, ClosingEvent(g.ending));
    PumpIsFaithful(polls, server, MapChatEvent, Lost(message), TIMED_OUT);
    var n: nat, parting :| n <= |server| && (parting == [] || parting == [Lost(message)] || parting == [TIMED_OUT])
      && script == Converted(server[..n], MapChatEvent) + parting;
    var k := ReplyGrammar(chunks, 0, cancelled, ClosingEvent(g.ending));
    DonePosition(script, server, chunks, k, ClosingEvent(g.ending), n, parting, d);
    TextOfChunks(script[..d], chunks);
    ContentPreserved(g.tokens, s.cfg, s.isDigit);
  }

  lemma {:induction false} TextOfChunks(events: seq<ChatEvent>, chunks: seq<string>)
    requires |events| == |chunks| && forall i | 0 <= i < |chunks| :: events[i] == Chunk(chunks[i])
    ensures TextOf(events) == Flatten(chunks)
  {
    if chunks != [] {
      var k := |chunks| - 1;
      TextOfChunks(events[..k], chunks[..k]);
      FlattenSnoc(chunks[..k], chunks[k]);
      assert chunks == chunks[..k] + [chunks[k]];
    }
  }

  /** A reply that failed or was cut never delivers DONE. */
  lemma NoDoneWithoutFinish(script: seq<ChatEvent>, g: Generation, s: Settings)
    requires Deliverable(script, g, s) && !g.ending.Finished?
    ensures Done !in script
  {
    if Done in script {
      var d :| 0 <= d < |script| && script[d] == Done;
      DoneMeansWhole(script, g, s, d);
      assert false;
    }
  }

  // ---- Replies that are not cut ---------------------------------------------------------

  lemma {:induction false} RawsOfTaken(polls: seq<Poll<WireEvent>>)
    requires forall i | 0 <= i < |polls| :: !Ends(polls[i])
    ensures |Raws(polls)| == |polls| && forall i | 0 <= i < |polls| :: polls[i].Got? && Raws(polls)[i] == polls[i].raw
  {
    if polls != [] {
      assert !Ends(polls[0]);
      RawsOfTaken(polls[1..]);
      assert Raws(polls) == [polls[0].raw] + Raws(polls[1..]);
    }
  }

  /** When nobody cancels and every event is received, the session gets all the
      chunks in order and then how the generation ended: DONE, the failure with
      its own code, or an internal error. */
  lemma UncutReply(g: Generation, s: Settings, cancelled: nat -> bool, polls: seq<Poll<WireEvent>>, lost: ChatEvent)
    requires forall i: nat :: !cancelled(i)
    requires Raws(polls) == Served(ChunksOf(g, s), 0, cancelled, ClosingEvent(g.ending))
    requires forall i | 0 <= i < |polls| :: !Ends(polls[i])
    ensures var chunks, script := ChunksOf(g, s), Pumped(polls, MapChatEvent, lost, TIMED_OUT);
            && |script| == |chunks| + 1
            && (forall i | 0 <= i < |chunks| :: script[i] == Chunk(chunks[i]))
            && script[|chunks|] == (match g.ending
                                    case Finished => Done
                                    case ServiceFailure(code, message) => Error(code, message)
                                    case Unexpected(message) => Error("internal_error", message))
  {
    var chunks, script := ChunksOf(g, s), Pumped(polls, MapChatEvent, lost, TIMED_OUT);
    var k := ReplyGrammar(chunks, 0, cancelled, ClosingEvent(g.ending));
    assert chunks[0..k] == chunks;
    RawsOfTaken(polls);
    var n := PumpExactly(polls, MapChatEvent, lost, TIMED_OUT);
    assert n == |polls| && script == script[..n] + script[n..];
    forall i | 0 <= i < |chunks| ensures script[i] == Chunk(chunks[i]) {
      assert Raws(polls)[i] == WireChunk(chunks[i]);
    }
  }

  /** A generation that fails has sent what a whole one would have sent by then:
      all but at most the remainder that is only flushed at the end. */
  lemma FailureKeepsChunks(tokens: seq<string>, ending: Ending, s: Settings)
    ensures var sent, whole := ChunksOf(Generation(tokens, ending), s), Chunks(tokens, s.cfg, s.isDigit);
            && sent <= whole && |whole| <= |sent| + 1
            && (ending.Finished? ==> sent == whole)
            && (!ending.Finished? ==> forall more: seq<string> :: sent <= Chunks(tokens + more, s.cfg, s.isDigit))
  {
    assert tokens + [] == tokens;
    YieldedIsStable(tokens, [], s.cfg, s.isDigit);
    forall more: seq<string> ensures Emitted(tokens, s.cfg, s.isDigit) <= Chunks(tokens + more, s.cfg, s.isDigit) {
      YieldedIsStable(tokens, more, s.cfg, s.isDigit);
    }
  }
}
