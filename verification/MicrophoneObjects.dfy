// The objects behind the microphone path: a transcription stream as
// internal/stt/client.go keeps it, and the session's fields around it
// (internal/ws/session.go).  Each method is a procedure run without
// interference, tied to the steps of MicrophonePath it stands for.
module MicrophoneObjects {
  import opened Common
  import opened MicrophonePath

  // ---- What the service sends back -------------------------------------------------

  // stt.proto: 0 PARTIAL, 1 FINAL, 2 ERROR.
  datatype WireTranscript = WireTranscript(kind: int, segments: seq<string>, code: string, message: string)

  datatype TranscriptEvent = Partial(text: string) | Final(text: string) | Failure(code: string, message: string)

  /** joinSegments. */
  method JoinSegments(segments: seq<string>) returns (text: string)
    ensures text == Flatten(segments)
  {
    text := "";
    for i := 0 to |segments|
      invariant text + Flatten(segments[i..]) == Flatten(segments)
    {
      assert segments[i..][0] == segments[i] && segments[i..][1..] == segments[i + 1..];
      text := text + segments[i];
    }
  }

  /** mapTranscriptEvent: the whole text in one event, whatever the segments. */
  method MapTranscript(e: WireTranscript) returns (event: TranscriptEvent)
    ensures event.Failure? <==> e.kind == 2
    ensures event.Final? <==> e.kind == 1
    ensures event.Failure? ==> event.code == e.code && event.message == e.message
    ensures !event.Failure? ==> event.text == Flatten(e.segments)
  {
    if e.kind == 2 {
      return Failure(e.code, e.message);
    }
    var text := JoinSegments(e.segments);
    if e.kind == 1 {
      return Final(text);
    }
    return Partial(text);
  }

  // ---- One transcription stream ------------------------------------------------------

  class SttStream {
    const id: StreamId
    var closed: bool
    var halfClosed: bool
    var cancelled: bool
    var received: seq<Frame>

    constructor (id: StreamId)
      ensures this.id == id && !closed && !halfClosed && !cancelled && received == []
    {
      this.id := id;
      closed, halfClosed, cancelled, received := false, false, false, [];
    }

    /** `transport` is whether the network call underneath succeeds. */
    method SendAudio(frame: Frame, transport: bool) returns (sent: bool)
      modifies this`received
      ensures sent <==> !closed && transport
      ensures received == old(received) + if sent then [frame] else []
    {
      if closed {
        return false;
      }
      if transport {
        received := received + [frame];
      }
      return transport;
    }

    /** What audioSendWorker does with a frame: send it, and half-close behind
        a marker that got through. */
    method Transmit(frame: Frame, transport: bool)
      modifies this`received, this`closed, this`halfClosed
      ensures var sent := !old(closed) && transport;
              && received == old(received) + (if sent then [frame] else [])
              && (closed <==> old(closed) || (sent && frame.marker))
              && (sent && frame.marker ==> halfClosed)
    {
      var sent := SendAudio(frame, transport);
      if sent && frame.marker {
        CloseSend();
      }
    }

    method CloseSend()
      modifies this`closed, this`halfClosed
      ensures closed && halfClosed
    {
      closed := true;
      halfClosed := true;
    }

    method Close()
      modifies this`closed, this`cancelled
      ensures closed && cancelled
    {
      closed := true;
      cancelled := true;
    }
  }

  // ---- The session's side ----------------------------------------------------------------

  /** The frames one stream took. */
  function TakenBy(accepted: seq<Accepted>, id: StreamId): seq<Frame> {
    if accepted == [] then []
    else
      var last := accepted[|accepted| - 1];
      TakenBy(accepted[..|accepted| - 1], id) + if last.stream == id then [last.frame] else []
  }

  lemma TakenBySnoc(accepted: seq<Accepted>, a: Accepted, id: StreamId)
    ensures TakenBy(accepted + [a], id) == TakenBy(accepted, id) + if a.stream == id then [a.frame] else []
  {
    assert (accepted + [a])[..|accepted|] == accepted;
  }

  lemma {:induction false} NothingTaken(accepted: seq<Accepted>, id: StreamId)
    requires forall a | a in accepted :: a.stream < id
    ensures TakenBy(accepted, id) == []
  {
    if accepted != [] {
      assert accepted[|accepted| - 1] in accepted;
      NothingTaken(accepted[..|accepted| - 1], id);
    }
  }

  /** The end of a worker turn that is past the closed test. */
  function Sent(p: Path, transport: bool): Path
    requires p.worker.Sending?
  {
    if !transport then Apply(p, SendRefused)
    else if p.worker.frame.marker then Apply(Apply(p, SendAccepted), CloseSend)
    else Apply(p, SendAccepted)
  }

  function Tested(p: Path, transport: bool): Path
    requires p.worker.Checking?
  {
    var tested := Apply(p, TestClosed);
    if tested.worker.Waiting? then tested else Sent(tested, transport)
  }

  /** One turn of audioSendWorker's loop without interference. */
  function Handled(p: Path, transport: bool): Path
    requires p.worker.Waiting? && p.queue != []
  {
    var loaded := Apply(Apply(p, Take), LoadStream);
    if loaded.worker.Waiting? then loaded else Tested(loaded, transport)
  }

  class Microphone {
    var sttStream: SttStream?
    var audioQueue: seq<Frame>
    var streams: nat      // how many streams so far; it names the next one
    ghost var path: Path

    /** The fields agree with a reachable state of the path, between two turns
        of the send worker. */
    ghost predicate Valid()
      reads this, sttStream
    {
      && Inv(path) && path.worker.Waiting? && !path.reader.Opening? && !path.reader.Left?
      && path.queue == audioQueue && path.opens == streams
      && (sttStream == null <==> path.current.None?)
      && (sttStream != null ==>
            && path.current == Some(sttStream.id)
            && (sttStream.closed <==> sttStream.id in path.closed)
            && sttStream.received == TakenBy(path.accepted, sttStream.id))
    }

    /** The reader is not waiting in endUtterance. */
    ghost predicate AtRest()
      reads this
    {
      path.reader.Reading?
    }

    constructor ()
      ensures Valid() && AtRest() && path == START && sttStream == null && audioQueue == []
    {
      sttStream, audioQueue, streams, path := null, [], 0, START;
    }

    /** handleAudioChunk: never blocks; a full queue drops the chunk. */
    method HandleAudioChunk(data: int) returns (refused: bool)
      requires Valid() && AtRest()
      modifies this`audioQueue, this`path
      ensures Valid() && path == Apply(old(path), AudioArrives(data))
      ensures refused <==> sttStream == null
      ensures audioQueue == old(audioQueue) +
                            (if sttStream == null || |old(audioQueue)| >= QUEUE_CAPACITY then []
                             else [Frame(data, false, sttStream.id)])
    {
      StepKeepsInv(path, AudioArrives(data));
      path := Apply(path, AudioArrives(data));
      if sttStream == null {
        return true;
      }
      if |audioQueue| < QUEUE_CAPACITY {
        audioQueue := audioQueue + [Frame(data, false, sttStream.id)];
      }
      return false;
    }

    /** endUtterance.  With a full queue the reader waits until the send worker
        has taken a frame; `turns` is how many turns the worker gets before the
        reader goes on, and `transport` how its sends fare. */
    method EndUtterance(turns: nat, transport: nat -> bool) returns (taken: nat)
      requires Valid() && AtRest()
      modifies this`audioQueue, this`path, sttStream
      ensures Valid() && AtRest() && sttStream == old(sttStream)
      ensures path.requested == old(path).requested + if sttStream == null then 0 else 1
      ensures sttStream == null ==> taken == 0 && audioQueue == old(audioQueue)
      ensures sttStream != null ==>
                && taken <= |old(audioQueue)|
                && taken == Min(Max(turns, if |old(audioQueue)| < QUEUE_CAPACITY then 0 else 1), |old(audioQueue)|)
                && audioQueue == old(audioQueue)[taken..] + [Frame(0, true, sttStream.id)]
    {
      taken := 0;
      if sttStream == null {
        return;
      }
      MarkerRequested(path, sttStream.id);
      path := Apply(path, EndRequested);
      taken := TakeTurns(turns, transport);
      QueueMarker();
    }

    /** The send worker's turns while the reader is in endUtterance. */
    method TakeTurns(turns: nat, transport: nat -> bool) returns (taken: nat)
      requires Valid()
      modifies this`audioQueue, this`path, sttStream
      ensures Valid() && sttStream == old(sttStream)
      ensures path.reader == old(path).reader && path.requested == old(path).requested
      ensures taken <= |old(audioQueue)|
      ensures taken == Min(Max(turns, if |old(audioQueue)| < QUEUE_CAPACITY then 0 else 1), |old(audioQueue)|)
      ensures audioQueue == old(audioQueue)[taken..]
    {
      taken := 0;
      while audioQueue != [] && (taken < turns || |audioQueue| >= QUEUE_CAPACITY)
        invariant Valid() && sttStream == old(sttStream)
        invariant path.reader == old(path).reader && path.requested == old(path).requested
        invariant taken <= |old(audioQueue)| && audioQueue == old(audioQueue)[taken..]
        invariant taken <= Max(turns, if |old(audioQueue)| < QUEUE_CAPACITY then 0 else 1)
        decreases |audioQueue|
      {
        SendNext(transport(taken));
        taken := taken + 1;
      }
    }

    /** The end of the wait: the reader's marker goes into the queue. */
    method QueueMarker()
      requires Valid() && path.reader.QueueingMarker? && |audioQueue| < QUEUE_CAPACITY
      requires sttStream != null && path.reader.frame == Frame(0, true, sttStream.id)
      modifies this`audioQueue, this`path
      ensures Valid() && AtRest() && path.requested == old(path).requested
      ensures audioQueue == old(audioQueue) + [Frame(0, true, sttStream.id)]
    {
      StepKeepsInv(path, MarkerQueued);
      path := Apply(path, MarkerQueued);
      audioQueue := audioQueue + [Frame(0, true, sttStream.id)];
    }

    /** startStream: the old stream is closed first; a failed call leaves none. */
    method StartStream(opens: bool)
      requires Valid() && AtRest()
      modifies this, sttStream
      ensures Valid() && AtRest() && audioQueue == old(audioQueue)
      ensures old(sttStream) != null ==> old(sttStream).closed && old(sttStream).cancelled
      ensures if opens then sttStream != null && fresh(sttStream) && !sttStream.closed && sttStream.received == []
              else sttStream == null
      ensures path.accepted == old(path).accepted
    {
      if sttStream != null {
        sttStream.Close();
      }
      StepKeepsInv(path, StartRequested);
      path := Apply(path, StartRequested);
      if opens {
        StepKeepsInv(path, OpenSucceeds);
        NothingTaken(path.accepted, path.opens);
        sttStream := new SttStream(streams);
        streams := streams + 1;
        path := Apply(path, OpenSucceeds);
      } else {
        StepKeepsInv(path, OpenFails);
        sttStream := null;
        path := Apply(path, OpenFails);
      }
    }

    /** audioSendWorker's turn for the frame at the head of the queue: it goes
        to whatever stream is current now, unless there is none or it is closed,
        and a marker sent half-closes that stream. */
    method SendNext(transport: bool)
      requires Valid() && audioQueue != []
      modifies this`audioQueue, this`path, sttStream
      ensures Valid() && path == Handled(old(path), transport)
      ensures audioQueue == old(audioQueue)[1..] && sttStream == old(sttStream)
      ensures path.requested == old(path).requested && path.reader == old(path).reader
      ensures sttStream != null ==>
                var frame := old(audioQueue)[0];
                var sent := !old(sttStream.closed) && transport;
                && sttStream.received == old(sttStream.received) + (if sent then [frame] else [])
                && (sttStream.closed <==> old(sttStream.closed) || (sent && frame.marker))
                && (sent && frame.marker ==> sttStream.halfClosed)
    {
      ghost var next := Handled(path, transport);
      HandledKeepsInv(path, transport);
      HandledEffect(path, transport);
      if sttStream != null {
        HandledOnStream(path, transport, sttStream.id);
        sttStream.Transmit(audioQueue[0], transport);
      }
      audioQueue := audioQueue[1..];
      path := next;
    }
  }

  /** The reader has a marker to queue. */
  lemma MarkerRequested(p: Path, id: StreamId)
    requires Inv(p) && p.reader.Reading? && p.current == Some(id)
    ensures var q := Apply(p, EndRequested);
            && Inv(q)
            && q == p.(reader := QueueingMarker(Frame(0, true, id)), offered := q.offered, requested := p.requested + 1)
  {
    StepKeepsInv(p, EndRequested);
  }

  lemma SentKeepsInv(p: Path, transport: bool)
    requires Inv(p) && p.worker.Sending?
    ensures Inv(Sent(p, transport)) && Sent(p, transport).worker.Waiting?
  {
    if transport {
      StepKeepsInv(p, SendAccepted);
      if p.worker.frame.marker { StepKeepsInv(Apply(p, SendAccepted), CloseSend); }
    } else {
      StepKeepsInv(p, SendRefused);
    }
  }

  lemma TestedKeepsInv(p: Path, transport: bool)
    requires Inv(p) && p.worker.Checking?
    ensures Inv(Tested(p, transport)) && Tested(p, transport).worker.Waiting?
  {
    StepKeepsInv(p, TestClosed);
    var tested := Apply(p, TestClosed);
    if tested.worker.Sending? { SentKeepsInv(tested, transport); }
  }

  lemma HandledKeepsInv(p: Path, transport: bool)
    requires Inv(p) && p.worker.Waiting? && p.queue != []
    ensures Inv(Handled(p, transport)) && Handled(p, transport).worker.Waiting?
  {
    StepKeepsInv(p, Take);
    var taken := Apply(p, Take);
    StepKeepsInv(taken, LoadStream);
    var loaded := Apply(taken, LoadStream);
    if loaded.worker.Checking? { TestedKeepsInv(loaded, transport); }
  }

  /** Whether a worker turn gets its frame onto the current stream. */
  predicate GetsThrough(p: Path, transport: bool) {
    p.current.Some? && p.current.value !in p.closed && transport
  }

  lemma HandledEffect(p: Path, transport: bool)
    requires p.worker.Waiting? && p.queue != []
    ensures var q := Handled(p, transport);
            && q.queue == p.queue[1..] && q.current == p.current && q.opens == p.opens && q.reader == p.reader
            && q.requested == p.requested
            && q.closed == (if GetsThrough(p, transport) && p.queue[0].marker then p.closed + {p.current.value}
                            else p.closed)
            && q.accepted == p.accepted + (if GetsThrough(p, transport) then [Accepted(p.current.value, p.queue[0])]
                                           else [])
  {
  }

  lemma HandledOnStream(p: Path, transport: bool, id: StreamId)
    requires p.worker.Waiting? && p.queue != [] && p.current == Some(id)
    ensures var q := Handled(p, transport);
            var sent := id !in p.closed && transport;
            && TakenBy(q.accepted, id) == TakenBy(p.accepted, id) + (if sent then [p.queue[0]] else [])
            && (id in q.closed <==> id in p.closed || (sent && p.queue[0].marker))
  {
    HandledEffect(p, transport);
    TakenBySnoc(p.accepted, Accepted(id, p.queue[0]), id);
  }

  /** In a valid state the current stream has taken at most one marker, and
      nothing after it. */
  lemma {:induction false} MarkerEndsTaken(accepted: seq<Accepted>, id: StreamId, i: nat)
    requires MarkerIsLast(accepted) && i + 1 < |TakenBy(accepted, id)|
    ensures !TakenBy(accepted, id)[i].marker
  {
    var k := |accepted| - 1;
    var front := accepted[..k];
    if i + 1 < |TakenBy(front, id)| {
      MarkerEndsTaken(front, id, i);
    } else {
      var j := TakenAt(front, id, i);
      assert accepted[j] == front[j];
    }
  }

  lemma {:induction false} TakenAt(accepted: seq<Accepted>, id: StreamId, i: nat) returns (j: nat)
    requires i < |TakenBy(accepted, id)|
    ensures j < |accepted| && accepted[j].stream == id && accepted[j].frame == TakenBy(accepted, id)[i]
  {
    var k := |accepted| - 1;
    if i < |TakenBy(accepted[..k], id)| {
      j := TakenAt(accepted[..k], id, i);
    } else {
      j := k;
    }
  }
}
