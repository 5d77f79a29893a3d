// How microphone audio travels through one session (internal/ws/session.go,
// internal/stt/client.go): the reader goroutine queues frames, the send worker
// moves them onto whatever transcription stream is current.  The two are
// interleaved one atomic load, store, queue operation or network call at a time.
module MicrophonePath {
  import opened Common

  type StreamId = nat

  // `issuedFor` records which stream was current when the frame was queued.
  // A frame carries no such tag in the program.
  datatype Frame = Frame(data: int, marker: bool, issuedFor: StreamId)

  const QUEUE_CAPACITY := 64

  datatype Reader =
    | Reading
    | QueueingMarker(frame: Frame)    // endUtterance, blocked on the queue
    | Opening                         // startStream, old stream closed
    | Left                            // readPump has returned

  datatype Worker =
    | Waiting
    | Holding(frame: Frame)
    | Checking(frame: Frame, stream: StreamId)    // about to test `closed`
    | Sending(frame: Frame, stream: StreamId)     // past the test
    | HalfClosing(stream: StreamId)               // about to CloseSend
    | Stopped

  datatype Accepted = Accepted(stream: StreamId, frame: Frame)

  // `offered`, `accepted`, `requested`, `taken` and `abandoned` are histories:
  // frames the client sent while a stream was current, frames a stream took,
  // and end-of-utterance markers asked for, dequeued, and given up at shutdown.
  datatype Path = Path(
    current: Option<StreamId>, opens: nat, closed: set<StreamId>,
    queue: seq<Frame>, reader: Reader, worker: Worker, shutdown: bool,
    offered: seq<Frame>, accepted: seq<Accepted>,
    requested: nat, taken: nat, abandoned: nat)

  const START := Path(None, 0, {}, [], Reading, Waiting, false, [], [], 0, 0, 0)

  datatype Step =
    | AudioArrives(data: int) | EndRequested | MarkerQueued | MarkerAbandoned
    | StartRequested | OpenFails | OpenSucceeds | Disconnect
    | Take | LoadStream | TestClosed | SendAccepted | SendRefused | CloseSend | WorkerStops

  predicate Enabled(p: Path, step: Step) {
    match step
    case AudioArrives(_) => p.reader.Reading?
    case EndRequested => p.reader.Reading?
    case MarkerQueued => p.reader.QueueingMarker? && |p.queue| < QUEUE_CAPACITY
    case MarkerAbandoned => p.reader.QueueingMarker? && p.shutdown
    case StartRequested => p.reader.Reading?
    case OpenFails => p.reader.Opening?
    case OpenSucceeds => p.reader.Opening?
    case Disconnect => p.reader.Reading?
    case Take => p.worker.Waiting? && p.queue != []
    case LoadStream => p.worker.Holding?
    case TestClosed => p.worker.Checking?
    case SendAccepted => p.worker.Sending?
    case SendRefused => p.worker.Sending?
    case CloseSend => p.worker.HalfClosing?
    case WorkerStops => p.worker.Waiting? && p.shutdown
  }

  function Apply(p: Path, step: Step): Path
    requires Enabled(p, step)
  {
    match step
    case AudioArrives(data) =>
      if p.current.None? then p
      else
        var f := Frame(data, false, p.current.value);
        p.(offered := p.offered + [f], queue := if |p.queue| < QUEUE_CAPACITY then p.queue + [f] else p.queue)
    case EndRequested =>
      if p.current.None? then p
      else
        var f := Frame(0, true, p.current.value);
        p.(offered := p.offered + [f], reader := QueueingMarker(f), requested := p.requested + 1)
    case MarkerQueued =>
      p.(queue := p.queue + [p.reader.frame], reader := Reading)
    case MarkerAbandoned =>
      p.(reader := Reading, abandoned := p.abandoned + 1)
    case StartRequested =>
      p.(reader := Opening, closed := if p.current.Some? then p.closed + {p.current.value} else p.closed)
    case OpenFails =>
      p.(reader := Reading, current := None)
    case OpenSucceeds =>
      p.(reader := Reading, current := Some(p.opens), opens := p.opens + 1)
    case Disconnect =>
      p.(reader := Left, shutdown := true)
    case Take =>
      p.(queue := p.queue[1..], worker := Holding(p.queue[0]),
         taken := p.taken + if p.queue[0].marker then 1 else 0)
    case LoadStream =>
      p.(worker := if p.current.None? then Waiting else Checking(p.worker.frame, p.current.value))
    case TestClosed =>
      p.(worker := if p.worker.stream in p.closed then Waiting else Sending(p.worker.frame, p.worker.stream))
    case SendAccepted =>
      p.(accepted := p.accepted + [Accepted(p.worker.stream, p.worker.frame)],
         worker := if p.worker.frame.marker then HalfClosing(p.worker.stream) else Waiting)
    case SendRefused =>
      p.(worker := Waiting)
    case CloseSend =>
      p.(worker := Waiting, closed := p.closed + {p.worker.stream})
    case WorkerStops =>
      p.(worker := Stopped)
  }

  predicate Legal(p: Path, steps: seq<Step>)
    decreases |steps|
  {
    steps == [] || (Enabled(p, steps[0]) && Legal(Apply(p, steps[0]), steps[1..]))
  }

  function Run(p: Path, steps: seq<Step>): Path
    requires Legal(p, steps)
    decreases |steps|
  {
    if steps == [] then p else Run(Apply(p, steps[0]), steps[1..])
  }

  // ---- Order of frames -----------------------------------------------------------

  function FramesOf(accepted: seq<Accepted>): seq<Frame> {
    if accepted == [] then []
    else FramesOf(accepted[..|accepted| - 1]) + [accepted[|accepted| - 1].frame]
  }

  function InHand(w: Worker): seq<Frame> {
    if w.Holding? || w.Checking? || w.Sending? then [w.frame] else []
  }

  function AboutToQueue(r: Reader): seq<Frame> {
    if r.QueueingMarker? then [r.frame] else []
  }

  /** Everything still on its way, behind everything already accepted. */
  function Pipeline(p: Path): seq<Frame> {
    FramesOf(p.accepted) + (InHand(p.worker) + (p.queue + AboutToQueue(p.reader)))
  }

  ghost predicate Ordered(p: Path) {
    IsSubsequence(Pipeline(p), p.offered)
  }

  lemma {:induction false} SubsequenceWithout(a: seq<Frame>, x: Frame, b: seq<Frame>, ys: seq<Frame>)
    requires IsSubsequence(a + ([x] + b), ys)
    ensures IsSubsequence(a + b, ys)
    decreases |ys|
  {
    var all := a + ([x] + b);
    if a == [] {
      assert all == [x] + b && all[1..] == b && a + b == b;
      SubsequenceDropHead(all, ys);
    } else if all[0] == ys[0] {
      assert all[1..] == a[1..] + ([x] + b) && (a + b)[0] == all[0] && (a + b)[1..] == a[1..] + b;
      SubsequenceWithout(a[1..], x, b, ys[1..]);
    } else {
      SubsequenceWithout(a, x, b, ys[1..]);
      SubsequenceSkip(a + b, ys[0], ys[1..]);
      assert [ys[0]] + ys[1..] == ys;
    }
  }

  lemma WorkerDropsFrame(p: Path, q: Path)
    requires Ordered(p) && InHand(p.worker) != [] && InHand(q.worker) == []
    requires q.accepted == p.accepted && q.queue == p.queue && q.reader == p.reader && q.offered == p.offered
    ensures Ordered(q)
  {
    var later := p.queue + AboutToQueue(p.reader);
    assert Pipeline(q) == FramesOf(p.accepted) + later;
    assert Pipeline(p) == FramesOf(p.accepted) + ([p.worker.frame] + later);
    SubsequenceWithout(FramesOf(p.accepted), p.worker.frame, later, p.offered);
  }

  lemma FrameOffered(p: Path, f: Frame)
    requires Ordered(p) && AboutToQueue(p.reader) == []
    ensures IsSubsequence(FramesOf(p.accepted) + (InHand(p.worker) + (p.queue + [f])), p.offered + [f])
    ensures IsSubsequence(Pipeline(p), p.offered + [f])
  {
    assert Pipeline(p) + [f] == FramesOf(p.accepted) + (InHand(p.worker) + (p.queue + [f]));
    SubsequenceAppendBoth(Pipeline(p), p.offered, f);
    SubsequenceAppendRight(Pipeline(p), p.offered, [f]);
  }

  lemma ReaderKeepsOrder(p: Path, step: Step)
    requires Ordered(p) && Enabled(p, step)
    requires step.AudioArrives? || step.EndRequested? || step.MarkerQueued? || step.MarkerAbandoned?
    ensures Ordered(Apply(p, step))
  {
    var q := Apply(p, step);
    match step
    case AudioArrives(data) =>
      if p.current.Some? {
        FrameOffered(p, Frame(data, false, p.current.value));
        assert q.queue + AboutToQueue(q.reader) == q.queue;
      }
    case EndRequested =>
      if p.current.Some? { FrameOffered(p, Frame(0, true, p.current.value)); }
    case MarkerQueued =>
      assert q.queue + AboutToQueue(q.reader) == p.queue + AboutToQueue(p.reader);
    case MarkerAbandoned =>
      MarkerDropped(FramesOf(p.accepted), InHand(p.worker), p.queue, p.reader.frame, p.offered);
  }

  lemma MarkerDropped(a: seq<Frame>, b: seq<Frame>, c: seq<Frame>, x: Frame, ys: seq<Frame>)
    requires IsSubsequence(a + (b + (c + [x])), ys)
    ensures IsSubsequence(a + (b + (c + [])), ys)
  {
    var front := a + (b + c);
    assert a + (b + (c + [x])) == front + ([x] + []);
    assert a + (b + (c + [])) == front + [];
    SubsequenceWithout(front, x, [], ys);
  }

  lemma WorkerKeepsOrder(p: Path, step: Step)
    requires Ordered(p) && Enabled(p, step)
    requires step.Take? || step.LoadStream? || step.TestClosed? || step.SendRefused? || step.SendAccepted?
    ensures Ordered(Apply(p, step))
  {
    var q := Apply(p, step);
    match step
    case Take =>
      TakeMovesHead(p.queue, AboutToQueue(p.reader));
    case LoadStream =>
      if p.current.None? { WorkerDropsFrame(p, q); }
    case TestClosed =>
      if p.worker.stream in p.closed { WorkerDropsFrame(p, q); }
    case SendRefused =>
      WorkerDropsFrame(p, q);
    case SendAccepted =>
      SendMovesHand(p.accepted, Accepted(p.worker.stream, p.worker.frame), p.queue + AboutToQueue(p.reader));
  }

  lemma TakeMovesHead(queue: seq<Frame>, later: seq<Frame>)
    requires queue != []
    ensures [queue[0]] + (queue[1..] + later) == [] + (queue + later)
  {
  }

  lemma SendMovesHand(accepted: seq<Accepted>, a: Accepted, later: seq<Frame>)
    ensures FramesOf(accepted + [a]) + ([] + later) == FramesOf(accepted) + ([a.frame] + later)
  {
    assert (accepted + [a])[..|accepted + [a]| - 1] == accepted;
  }

  lemma StepKeepsOrder(p: Path, step: Step)
    requires Ordered(p) && Enabled(p, step)
    ensures Ordered(Apply(p, step))
  {
    if step.AudioArrives? || step.EndRequested? || step.MarkerQueued? || step.MarkerAbandoned? {
      ReaderKeepsOrder(p, step);
    } else if step.Take? || step.LoadStream? || step.TestClosed? || step.SendRefused? || step.SendAccepted? {
      WorkerKeepsOrder(p, step);
    } else {
      assert Pipeline(Apply(p, step)) == Pipeline(p);
    }
  }

  // ---- Where frames are lost -------------------------------------------------------

  /** The five ways a frame is lost: the queue is full, no stream is current, its
      stream is closed, the send fails, or the session ends under endUtterance. */
  predicate Loses(p: Path, step: Step) {
    match step
    case AudioArrives(_) => p.current.Some? && |p.queue| >= QUEUE_CAPACITY
    case LoadStream => p.current.None?
    case TestClosed => p.worker.Checking? && p.worker.stream in p.closed
    case SendRefused => true
    case MarkerAbandoned => true
    case _ => false
  }

  function InFlight(p: Path): nat {
    |p.accepted| + |InHand(p.worker)| + |p.queue| + |AboutToQueue(p.reader)|
  }

  function CountLosses(p: Path, steps: seq<Step>): nat
    requires Legal(p, steps)
    decreases |steps|
  {
    if steps == [] then 0
    else (if Loses(p, steps[0]) then 1 else 0) + CountLosses(Apply(p, steps[0]), steps[1..])
  }

  /** Every frame offered is accepted, under way, or lost in one of those ways. */
  lemma {:induction false} FramesAccounted(p: Path, steps: seq<Step>)
    requires Legal(p, steps)
    ensures var q := Run(p, steps);
            |q.offered| - InFlight(q) == |p.offered| - InFlight(p) + CountLosses(p, steps)
    decreases |steps|
  {
    if steps != [] { FramesAccounted(Apply(p, steps[0]), steps[1..]); }
  }

  // ---- End-of-utterance discipline -------------------------------------------------

  /** On one stream nothing follows an accepted marker. */
  ghost predicate MarkerIsLast(accepted: seq<Accepted>) {
    forall i, j | 0 <= i < j < |accepted| && accepted[i].stream == accepted[j].stream ::
      !accepted[i].frame.marker
  }

  ghost predicate HasMarker(accepted: seq<Accepted>, s: StreamId) {
    exists a :: a in accepted && a.stream == s && a.frame.marker
  }

  ghost predicate Disciplined(p: Path) {
    && MarkerIsLast(p.accepted)
    && (forall a | a in p.accepted && a.frame.marker :: a.stream in p.closed || p.worker == HalfClosing(a.stream))
    && (p.worker.Sending? ==> !HasMarker(p.accepted, p.worker.stream))
  }

  lemma StepKeepsDiscipline(p: Path, step: Step)
    requires Disciplined(p) && Enabled(p, step)
    ensures Disciplined(Apply(p, step))
  {
  }

  function MarkerCount(frames: seq<Frame>): nat {
    if frames == [] then 0 else (if frames[0].marker then 1 else 0) + MarkerCount(frames[1..])
  }

  lemma {:induction false} MarkerCountSnoc(frames: seq<Frame>, f: Frame)
    ensures MarkerCount(frames + [f]) == MarkerCount(frames) + if f.marker then 1 else 0
  {
    if frames == [] {
      assert frames + [f] == [f] && [f][1..] == [];
    } else {
      assert (frames + [f])[0] == frames[0] && (frames + [f])[1..] == frames[1..] + [f];
      MarkerCountSnoc(frames[1..], f);
    }
  }

  /** Every marker asked for is waiting, queued or taken: a full queue never
      swallows one, and endUtterance's other way out is never taken, since the
      session ends only once the reader has left. */
  ghost predicate MarkersCounted(p: Path) {
    && (p.reader.QueueingMarker? ==> p.reader.frame.marker)
    && p.requested == |AboutToQueue(p.reader)| + MarkerCount(p.queue) + p.taken
    && p.abandoned == 0 && (p.shutdown <==> p.reader.Left?)
    && (p.worker.Stopped? ==> p.shutdown)
    && |p.queue| <= QUEUE_CAPACITY
  }

  lemma StepKeepsMarkers(p: Path, step: Step)
    requires MarkersCounted(p) && Enabled(p, step)
    ensures MarkersCounted(Apply(p, step))
  {
    match step
    case AudioArrives(data) =>
      if p.current.Some? { MarkerCountSnoc(p.queue, Frame(data, false, p.current.value)); }
    case MarkerQueued =>
      MarkerCountSnoc(p.queue, p.reader.frame);
    case _ =>
  }

  // ---- Which stream a frame ends up on ------------------------------------------------

  /** Streams are numbered in opening order, and a frame is only ever sent to
      the stream it was queued for or to a later one. */
  ghost predicate Forward(p: Path) {
    && (p.current.Some? ==> p.current.value < p.opens)
    && (forall f | f in p.queue || f in AboutToQueue(p.reader) || f in InHand(p.worker) :: f.issuedFor < p.opens)
    && (forall f | f in p.queue || f in AboutToQueue(p.reader) || f in InHand(p.worker) ::
          p.current.Some? ==> f.issuedFor <= p.current.value)
    && (p.worker.Checking? || p.worker.Sending? ==>
          p.worker.frame.issuedFor <= p.worker.stream < p.opens)
    && (forall a | a in p.accepted :: a.frame.issuedFor <= a.stream)
  }

  lemma StepKeepsForward(p: Path, step: Step)
    requires Forward(p) && Enabled(p, step)
    ensures Forward(Apply(p, step))
  {
    if step.Take? {
      assert p.queue == [p.queue[0]] + p.queue[1..];
    }
  }

  /** Only streams that were opened are ever used. */
  ghost predicate Numbered(p: Path) {
    && (p.current.Some? ==> p.current.value < p.opens)
    && (p.worker.Checking? || p.worker.Sending? || p.worker.HalfClosing? ==> p.worker.stream < p.opens)
    && (forall id | id in p.closed :: id < p.opens)
    && (forall a | a in p.accepted :: a.stream < p.opens)
  }

  lemma StepKeepsNumbered(p: Path, step: Step)
    requires Numbered(p) && Enabled(p, step)
    ensures Numbered(Apply(p, step))
  {
  }

  ghost predicate Inv(p: Path) {
    Ordered(p) && Disciplined(p) && MarkersCounted(p) && Forward(p) && Numbered(p)
  }

  lemma StepKeepsInv(p: Path, step: Step)
    requires Inv(p) && Enabled(p, step)
    ensures Inv(Apply(p, step))
  {
    StepKeepsOrder(p, step);
    StepKeepsDiscipline(p, step);
    StepKeepsMarkers(p, step);
    StepKeepsForward(p, step);
    StepKeepsNumbered(p, step);
  }

  lemma StartIsSound()
    ensures Inv(START)
  {
    assert Pipeline(START) == [];
  }

  lemma {:induction false} ReachableInv(p: Path, steps: seq<Step>)
    requires Inv(p) && Legal(p, steps)
    ensures Inv(Run(p, steps))
    decreases |steps|
  {
    if steps != [] {
      StepKeepsInv(p, steps[0]);
      ReachableInv(Apply(p, steps[0]), steps[1..]);
    }
  }

  /** Send discipline over every schedule: what the streams accept, in time
      order, is a subsequence of what the client sent; a stream accepts at most
      one end-of-utterance marker and nothing after it; a full queue may drop
      audio but never the marker; and a frame never goes back to an earlier
      stream than the one it was spoken for. */
  lemma SendDiscipline(steps: seq<Step>)
    requires Legal(START, steps)
    ensures var p := Run(START, steps);
            && IsSubsequence(FramesOf(p.accepted), p.offered)
            && MarkerIsLast(p.accepted)
            && MarkersCounted(p)
            && (forall a | a in p.accepted :: a.frame.issuedFor <= a.stream)
  {
    assert Pipeline(START) == [];
    ReachableInv(START, steps);
    var p := Run(START, steps);
    PrefixIsSubsequence(FramesOf(p.accepted), InHand(p.worker) + (p.queue + AboutToQueue(p.reader)), p.offered);
  }

  lemma {:induction false} PrefixIsSubsequence(a: seq<Frame>, b: seq<Frame>, ys: seq<Frame>)
    requires IsSubsequence(a + b, ys)
    ensures IsSubsequence(a, ys)
    decreases |b|
  {
    if b == [] {
      assert a + b == a;
    } else {
      assert a + b == a + ([b[0]] + b[1..]);
      SubsequenceWithout(a, b[0], b[1..], ys);
      PrefixIsSubsequence(a, b[1..], ys);
    }
  }

  // ---- Whether a frame reaches its own stream ---------------------------------------

  /** Every frame under way will go to the stream it was issued for, if to any,
      and every accepted one has. */
  ghost predicate OnCourse(p: Path) {
    && (p.current.Some? ==> p.current.value + 1 == p.opens)
    && (forall f | f in p.queue || f in AboutToQueue(p.reader) :: f.issuedFor + 1 == p.opens)
    && (p.worker.Holding? ==> p.worker.frame.issuedFor + 1 == p.opens)
    && (p.worker.Checking? || p.worker.Sending? ==> p.worker.frame.issuedFor == p.worker.stream)
    && AllOnOwnStream(p.accepted)
  }

  ghost predicate AllOnOwnStream(accepted: seq<Accepted>) {
    forall a | a in accepted :: a.frame.issuedFor == a.stream
  }

  /** A new stream opens while frames wait for it to be looked up. */
  predicate OpensTooSoon(p: Path, step: Step) {
    step.OpenSucceeds? && (p.queue != [] || p.worker.Holding?)
  }

  /** Exactly such a step puts frames off course. */
  lemma OnCourseExactly(p: Path, step: Step)
    requires OnCourse(p) && Enabled(p, step)
    ensures OnCourse(Apply(p, step)) <==> !OpensTooSoon(p, step)
  {
    var q := Apply(p, step);
    if step.Take? {
      assert p.queue == [p.queue[0]] + p.queue[1..];
    } else if OpensTooSoon(p, step) {
      assert p.queue != [] ==> q.queue[0] in q.queue;
    }
  }

  predicate NeverOpensTooSoon(p: Path, steps: seq<Step>)
    requires Legal(p, steps)
    decreases |steps|
  {
    steps == [] || (!OpensTooSoon(p, steps[0]) && NeverOpensTooSoon(Apply(p, steps[0]), steps[1..]))
  }

  /** So in every run without it all frames, markers included, are accepted by
      the stream they were issued for. */
  lemma {:induction false} StaysOnCourse(p: Path, steps: seq<Step>)
    requires OnCourse(p) && Legal(p, steps) && NeverOpensTooSoon(p, steps)
    ensures OnCourse(Run(p, steps))
    decreases |steps|
  {
    if steps != [] {
      OnCourseExactly(p, steps[0]);
      StaysOnCourse(Apply(p, steps[0]), steps[1..]);
    }
  }

  // ---- And if not, the send worker can deliver it to the wrong one --------------------

  predicate WorkersOwn(steps: seq<Step>) {
    forall k | 0 <= k < |steps| ::
      var s := steps[k];
      s.Take? || s.LoadStream? || s.TestClosed? || s.SendAccepted? || s.SendRefused? || s.CloseSend?
  }

  /** A frame of an earlier stream is the next the worker will look up. */
  predicate Astray(p: Path) {
    && p.current.Some? && p.current.value !in p.closed
    && match p.worker
       case Holding(f) => f.issuedFor != p.current.value
       case Checking(f, s) => s != p.current.value && NextAstray(p)
       case Sending(f, s) => s != p.current.value && NextAstray(p)
       case HalfClosing(s) => s != p.current.value && NextAstray(p)
       case Waiting => NextAstray(p)
       case Stopped => false
  }

  predicate NextAstray(p: Path) {
    p.current.Some? && p.queue != [] && p.queue[0].issuedFor != p.current.value
  }

  function WorkerTurnsLeft(w: Worker): nat {
    match w
    case Checking(_, _) => 3
    case Sending(_, _) => 2
    case HalfClosing(_) => 2
    case Waiting => 1
    case _ => 0
  }

  /** The worker gets on with its job; a send under way is refused. */
  function WorkerNext(w: Worker): Step {
    match w
    case Checking(_, _) => TestClosed
    case Sending(_, _) => SendRefused
    case HalfClosing(_) => CloseSend
    case Holding(_) => LoadStream
    case Waiting => Take
    case Stopped => WorkerStops
  }

  lemma {:induction false} Misdelivers(p: Path) returns (steps: seq<Step>)
    requires Astray(p)
    ensures WorkersOwn(steps) && Legal(p, steps) && !AllOnOwnStream(Run(p, steps).accepted)
    decreases WorkerTurnsLeft(p.worker)
  {
    if p.worker.Holding? {
      steps := SendsAway(p);
    } else {
      var step := WorkerNext(p.worker);
      var rest := Misdelivers(Apply(p, step));
      steps := [step] + rest;
      assert steps[1..] == rest;
    }
  }

  lemma SendsAway(p: Path) returns (steps: seq<Step>)
    requires Astray(p) && p.worker.Holding?
    ensures WorkersOwn(steps) && Legal(p, steps) && !AllOnOwnStream(Run(p, steps).accepted)
  {
    var last := [SendAccepted];
    var two := [TestClosed, SendAccepted];
    steps := [LoadStream, TestClosed, SendAccepted];
    assert last[1..] == [] && two[1..] == last && steps[1..] == two;
    var p1 := Apply(p, LoadStream);
    var p2 := Apply(p1, TestClosed);
    var p3 := Apply(p2, SendAccepted);
    assert p3.accepted[|p.accepted|] in p3.accepted;
    assert Run(p1, two) == p3;
  }

  lemma OpeningSendsAstray(p: Path)
    requires Inv(p) && OnCourse(p) && Enabled(p, OpenSucceeds) && OpensTooSoon(p, OpenSucceeds)
    ensures Astray(Apply(p, OpenSucceeds))
  {
    assert p.queue != [] ==> p.queue[0] in p.queue;
  }

  lemma {:induction false} WorkerStaysOnCourse(p: Path, steps: seq<Step>)
    requires OnCourse(p) && WorkersOwn(steps) && Legal(p, steps)
    ensures OnCourse(Run(p, steps))
    decreases |steps|
  {
    if steps != [] {
      OnCourseExactly(p, steps[0]);
      WorkerStaysOnCourse(Apply(p, steps[0]), steps[1..]);
    }
  }

  /** Opening too soon is exactly what makes a wrong delivery possible: after a
      step, the send worker by itself can get a frame accepted by a stream it was
      not issued for if and only if the step was of that kind. */
  lemma MisdeliveryExactly(p: Path, step: Step)
    requires Inv(p) && OnCourse(p) && Enabled(p, step)
    ensures OpensTooSoon(p, step) <==>
            exists rest :: WorkersOwn(rest) && Legal(Apply(p, step), rest) &&
                           !AllOnOwnStream(Run(Apply(p, step), rest).accepted)
  {
    var q := Apply(p, step);
    OnCourseExactly(p, step);
    if OpensTooSoon(p, step) {
      OpeningSendsAstray(p);
      var rest := Misdelivers(q);
    } else {
      forall rest | WorkersOwn(rest) && Legal(q, rest) ensures AllOnOwnStream(Run(q, rest).accepted) {
        WorkerStaysOnCourse(q, rest);
      }
    }
  }

  // ---- Which marker closes a stream -----------------------------------------------------

  /** A half-closing worker has just sent a marker to that very stream. */
  predicate HalfClosesBehindMarker(p: Path) {
    p.worker.HalfClosing? ==>
      && p.accepted != []
      && p.accepted[|p.accepted| - 1].stream == p.worker.stream
      && p.accepted[|p.accepted| - 1].frame.marker
  }

  lemma {:induction false} AlwaysBehindMarker(p: Path, steps: seq<Step>)
    requires HalfClosesBehindMarker(p) && Legal(p, steps)
    ensures HalfClosesBehindMarker(Run(p, steps))
    decreases |steps|
  {
    if steps != [] { AlwaysBehindMarker(Apply(p, steps[0]), steps[1..]); }
  }

  /** Unless a stream was opened too soon, a stream is half-closed by the marker
      of its own utterance and by no other. */
  lemma HalfClosedByOwnMarker(steps: seq<Step>)
    requires Legal(START, steps) && NeverOpensTooSoon(START, steps)
    ensures var p := Run(START, steps);
            p.worker.HalfClosing? ==>
              var stream := p.worker.stream;
              p.accepted != [] && p.accepted[|p.accepted| - 1] == Accepted(stream, Frame(0, true, stream))
  {
    StaysOnCourse(START, steps);
    AlwaysBehindMarker(START, steps);
    MarkersCarryNothing(START, steps);
    var p := Run(START, steps);
    if p.worker.HalfClosing? {
      assert p.accepted[|p.accepted| - 1] in p.accepted;
    }
  }

  ghost predicate MarkersEmpty(p: Path) {
    && (forall f | f in p.queue || f in AboutToQueue(p.reader) || f in InHand(p.worker) :: f.marker ==> f.data == 0)
    && (forall a | a in p.accepted :: a.frame.marker ==> a.frame.data == 0)
  }

  lemma StepKeepsMarkersEmpty(p: Path, step: Step)
    requires MarkersEmpty(p) && Enabled(p, step)
    ensures MarkersEmpty(Apply(p, step))
  {
    if step.Take? {
      assert p.queue == [p.queue[0]] + p.queue[1..];
    }
  }

  lemma {:induction false} MarkersCarryNothing(p: Path, steps: seq<Step>)
    requires MarkersEmpty(p) && Legal(p, steps)
    ensures MarkersEmpty(Run(p, steps))
    decreases |steps|
  {
    if steps != [] {
      StepKeepsMarkersEmpty(p, steps[0]);
      MarkersCarryNothing(Apply(p, steps[0]), steps[1..]);
    }
  }

  // ---- Runs that open too soon ------------------------------------------------------------

  ghost predicate Reachable(p: Path) {
    exists steps :: Legal(START, steps) && Run(START, steps) == p
  }

  lemma Then(p: Path, step: Step)
    requires Reachable(p) && Enabled(p, step)
    ensures Reachable(Apply(p, step))
  {
    var steps :| Legal(START, steps) && Run(START, steps) == p;
    Extend(START, steps, step);
  }

  lemma {:induction false} Extend(p: Path, steps: seq<Step>, step: Step)
    requires Legal(p, steps) && Enabled(Run(p, steps), step)
    ensures Legal(p, steps + [step]) && Run(p, steps + [step]) == Apply(Run(p, steps), step)
    decreases |steps|
  {
    if steps == [] {
      assert steps + [step] == [step] && [step][1..] == [];
    } else {
      assert (steps + [step])[0] == steps[0] && (steps + [step])[1..] == steps[1..] + [step];
      Extend(Apply(p, steps[0]), steps[1..], step);
    }
  }

  /** The first utterance's stream is open. */
  const LISTENING := START.(current := Some(0), opens := 1)

  lemma Listening()
    ensures Reachable(LISTENING)
  {
    assert Legal(START, []) && Run(START, []) == START;
    Then(START, StartRequested);
    Then(START.(reader := Opening), OpenSucceeds);
  }

  /** The next "start" arrives with frame `f` still queued, and the send worker
      then gets that frame accepted by the new stream. */
  function Misdelivered(p: Path, f: Frame): Path {
    p.(current := Some(1), opens := 2, closed := {0}, queue := [], accepted := [Accepted(1, f)],
       taken := p.taken + (if f.marker then 1 else 0),
       worker := if f.marker then HalfClosing(1) else Waiting)
  }

  lemma ReplacesStream(p: Path)
    requires Reachable(p) && p.reader == Reading && p.current == Some(0) && p.opens == 1 && p.closed == {}
    ensures Reachable(p.(current := Some(1), opens := 2, closed := {0}))
  {
    Then(p, StartRequested);
    Then(p.(reader := Opening, closed := {0}), OpenSucceeds);
  }

  lemma GoesToNextStream(p: Path, f: Frame)
    requires Reachable(p) && p.queue == [f] && p.reader == Reading && p.worker == Waiting
    requires p.current == Some(0) && p.opens == 1 && p.closed == {} && p.accepted == []
    ensures Reachable(Misdelivered(p, f))
  {
    ReplacesStream(p);
    var p1 := p.(current := Some(1), opens := 2, closed := {0});
    Then(p1, Take);
    var p2 := p1.(queue := [], worker := Holding(f), taken := p.taken + if f.marker then 1 else 0);
    Then(p2, LoadStream);
    Then(p2.(worker := Checking(f, 1)), TestClosed);
    Then(p2.(worker := Sending(f, 1)), SendAccepted);
  }

  /** Audio that is still queued when the next "start" arrives is transcribed as
      part of the new utterance. */
  lemma QueuedFrameReachesNextStream(data: int)
    ensures exists p :: Reachable(p) && p.accepted == [Accepted(1, Frame(data, false, 0))]
  {
    Listening();
    var f := Frame(data, false, 0);
    Then(LISTENING, AudioArrives(data));
    var p := LISTENING.(offered := [f], queue := [f]);
    GoesToNextStream(p, f);
    assert Reachable(Misdelivered(p, f));
  }

  /** And an end-of-utterance marker still queued ends the new utterance: its
      stream is half-closed, and refuses all the audio that follows. */
  lemma MarkerEndsNextUtterance()
    ensures exists p ::
              && Reachable(p)
              && p.accepted == [Accepted(1, Frame(0, true, 0))]
              && p.current == Some(1) && 1 in p.closed
  {
    Listening();
    var f := Frame(0, true, 0);
    Then(LISTENING, EndRequested);
    Then(LISTENING.(offered := [f], reader := QueueingMarker(f), requested := 1), MarkerQueued);
    var p := LISTENING.(offered := [f], queue := [f], requested := 1);
    GoesToNextStream(p, f);
    Then(Misdelivered(p, f), CloseSend);
    assert Reachable(Apply(Misdelivered(p, f), CloseSend));
  }

  /** What a closed current stream means for a frame the worker looks up. */
  lemma ClosedStreamRefuses(p: Path)
    requires p.worker.Holding? && p.current.Some? && p.current.value in p.closed
    ensures Legal(p, [LoadStream, TestClosed])
    ensures Run(p, [LoadStream, TestClosed]) == p.(worker := Waiting)
  {
    assert [LoadStream, TestClosed][1..] == [TestClosed] && [TestClosed][1..] == [];
  }
}
