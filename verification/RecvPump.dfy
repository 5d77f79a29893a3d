// The receive pump shared by the three stream clients (internal/llm/client.go,
// internal/stt/client.go, internal/tts/client.go): one goroutine that moves
// what the server sends onto an Events channel until something ends it.
module RecvPump {
  /** What one turn of the pump's select comes to.  `taken` is whether the
      consumer made room before the stream's context ended; `closed` the flag
      the caller sets in Close or CloseSend, read when the error arrives;
      `room` whether the best-effort error still fits the buffer. */
  datatype Poll<Raw> =
    | Got(raw: Raw, taken: bool)
    | ServerClosed
    | Failed(closed: bool, room: bool)
    | IdleTimeout(room: bool)
    | ContextDone

  predicate Ends<Raw>(p: Poll<Raw>) {
    !p.Got? || !p.taken
  }

  /** The synthetic event, if any, with which a pump ends. */
  function Parting<Raw, Event>(p: Poll<Raw>, lost: Event, timeout: Event): seq<Event> {
    match p
    case Failed(closed, room) => if !closed && room then [lost] else []
    case IdleTimeout(room) => if room then [timeout] else []
    case _ => []
  }

  function Pumped<Raw, Event>(polls: seq<Poll<Raw>>, convert: Raw -> Event, lost: Event, timeout: Event): seq<Event> {
    if polls == [] then []
    else if Ends(polls[0]) then Parting(polls[0], lost, timeout)
    else [convert(polls[0].raw)] + Pumped(polls[1..], convert, lost, timeout)
  }

  /** recvPump: `closed` tells whether the Events channel was closed, that is,
      whether the pump returned. */
  method Pump<Raw, Event>(polls: seq<Poll<Raw>>, convert: Raw -> Event, lost: Event, timeout: Event)
    returns (events: seq<Event>, closed: bool)
    ensures events == Pumped(polls, convert, lost, timeout)
    ensures closed <==> exists p :: p in polls && Ends(p)
  {
    events := [];
    for i := 0 to |polls|
      invariant Pumped(polls, convert, lost, timeout)
             == events + Pumped(polls[i..], convert, lost, timeout)
      invariant forall p | p in polls[..i] :: !Ends(p)
    {
      assert polls[i..][0] == polls[i] && polls[i..][1..] == polls[i + 1..];
      match polls[i] {
        case Got(raw, taken) =>
          if !taken {
            return events, true;
          }
          events := events + [convert(raw)];
        case ServerClosed =>
          return events, true;
        case Failed(flag, room) =>
          if !flag && room {
            events := events + [lost];
          }
          return events, true;
        case IdleTimeout(room) =>
          if room {
            events := events + [timeout];
          }
          return events, true;
        case ContextDone =>
          return events, true;
      }
    }
    return events, false;
  }

  function Raws<Raw>(polls: seq<Poll<Raw>>): seq<Raw> {
    if polls == [] then []
    else (if polls[0].Got? then [polls[0].raw] else []) + Raws(polls[1..])
  }

  function Converted<Raw, Event>(raws: seq<Raw>, convert: Raw -> Event): (events: seq<Event>)
    ensures |events| == |raws|
    ensures forall i | 0 <= i < |raws| :: events[i] == convert(raws[i])
  {
    seq(|raws|, i requires 0 <= i < |raws| => convert(raws[i]))
  }

  /** `events` is some first part of what the server sent, in order and
      converted, followed by at most one synthetic error. */
  ghost predicate FaithfulPrefix<Raw(!new), Event(!new)>(events: seq<Event>, server: seq<Raw>, convert: Raw -> Event,
                                             lost: Event, timeout: Event) {
    exists n: nat, parting ::
      && n <= |server|
      && (parting == [] || parting == [lost] || parting == [timeout])
      && events == Converted(server[..n], convert) + parting
  }

  lemma ConvertedFirst<Raw, Event>(server: seq<Raw>, n: nat, convert: Raw -> Event)
    requires server != [] && n < |server|
    ensures Converted(server[..n + 1], convert) == [convert(server[0])] + Converted(server[1..][..n], convert)
  {
  }

  lemma FirstReceived<Raw>(polls: seq<Poll<Raw>>, server: seq<Raw>)
    requires polls != [] && !Ends(polls[0]) && Raws(polls) <= server
    ensures server != [] && server[0] == polls[0].raw && Raws(polls[1..]) <= server[1..]
  {
    assert Raws(polls) == [polls[0].raw] + Raws(polls[1..]);
    assert Raws(polls[1..]) == Raws(polls)[1..];
  }

  /** Whatever the schedule, nothing is dropped in the middle, reordered or
      invented, and at most one synthetic error is added, at the very end. */
  lemma {:induction false} PumpIsFaithful<Raw(!new), Event(!new)>(
      polls: seq<Poll<Raw>>, server: seq<Raw>, convert: Raw -> Event, lost: Event, timeout: Event)
    requires Raws(polls) <= server
    ensures FaithfulPrefix(Pumped(polls, convert, lost, timeout), server, convert, lost, timeout)
  {
    var events := Pumped(polls, convert, lost, timeout);
    if polls == [] {
      assert events == Converted(server[..0], convert) + [];
    } else if Ends(polls[0]) {
      var parting := Parting(polls[0], lost, timeout);
      assert events == Converted(server[..0], convert) + parting;
    } else {
      var rest := server[1..];
      FirstReceived(polls, server);
      PumpIsFaithful(polls[1..], rest, convert, lost, timeout);
      var n: nat, parting :| n <= |rest| && (parting == [] || parting == [lost] || parting == [timeout])
        && Pumped(polls[1..], convert, lost, timeout) == Converted(rest[..n], convert) + parting;
      ConvertedFirst(server, n, convert);
      assert events == Converted(server[..n + 1], convert) + parting;
    }
  }

  /** What a pump delivers, poll by poll: every event taken up to the first poll
      that ends it, and behind them the error for a connection lost on a stream
      the caller had not closed, or the one for a timeout, when there is room. */
  lemma {:induction false} PumpExactly<Raw, Event>(
      polls: seq<Poll<Raw>>, convert: Raw -> Event, lost: Event, timeout: Event) returns (n: nat)
    ensures n <= |polls| && (forall i | 0 <= i < n :: polls[i].Got? && polls[i].taken)
    ensures n < |polls| ==> !(polls[n].Got? && polls[n].taken)
    ensures var events := Pumped(polls, convert, lost, timeout);
            && n <= |events| && (forall i | 0 <= i < n :: events[i] == convert(polls[i].raw))
            && (events[n..] ==
                if n == |polls| then []
                else if polls[n] == Failed(false, true) then [lost]
                else if polls[n] == IdleTimeout(true) then [timeout]
                else [])
  {
    n := 0;
    if polls != [] && polls[0].Got? && polls[0].taken {
      n := PumpExactly(polls[1..], convert, lost, timeout);
      n := n + 1;
      assert Pumped(polls, convert, lost, timeout)[n..] == Pumped(polls[1..], convert, lost, timeout)[n - 1..];
    }
  }

  /** No receive error comes from an open stream, and none from a timeout. */
  ghost predicate ClosedByCaller<Raw(!new)>(polls: seq<Poll<Raw>>) {
    forall p | p in polls :: (p.Failed? ==> p.closed) && !p.IdleTimeout?
  }

  /** A stream the caller has closed reports no lost connection: once the flag
      is set when the error arrives, the pump ends without a synthetic event. */
  lemma {:induction false} ClosedByCallerIsSilent<Raw(!new), Event(!new)>(
      polls: seq<Poll<Raw>>, server: seq<Raw>, convert: Raw -> Event, lost: Event, timeout: Event)
    requires Raws(polls) <= server && ClosedByCaller(polls)
    ensures exists n: nat :: n <= |server| && Pumped(polls, convert, lost, timeout) == Converted(server[..n], convert)
  {
    var events := Pumped(polls, convert, lost, timeout);
    if polls == [] || Ends(polls[0]) {
      assert polls != [] ==> polls[0] in polls;
      assert events == Converted(server[..0], convert);
    } else {
      var rest := server[1..];
      FirstReceived(polls, server);
      assert forall p | p in polls[1..] :: p in polls;
      ClosedByCallerIsSilent(polls[1..], rest, convert, lost, timeout);
      var n: nat :| n <= |rest| && Pumped(polls[1..], convert, lost, timeout) == Converted(rest[..n], convert);
      ConvertedFirst(server, n, convert);
      assert events == Converted(server[..n + 1], convert);
    }
  }
}
