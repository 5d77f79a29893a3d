// Both halves of one session together: what BargeIn says of turns and
// MicrophonePath of microphone frames, with the one reader goroutine in both.
// While the reader waits in endUtterance or opens a transcription stream, it
// does nothing else; where a step shows in both halves, it is one step here.
module WholeSession {
  import B = BargeIn
  import M = MicrophonePath
  import T = BargeInTurns
  import D = BargeInDrain
  import A = BargeInAudio
  import P = BargeInProgress

  datatype Whole = Whole(s: B.Session, p: M.Path)

  const NEW := Whole(B.FRESH, M.START)

  datatype Step = Turns(b: B.Step) | Frames(m: M.Step) | Joint(b: B.Step, m: M.Step)

  /** The steps of one half that are also steps of the other. */
  predicate IsJoint(b: B.Step, m: M.Step) {
    || (b == B.ByReader(B.SttOpens) && m.OpenSucceeds?)
    || (b.ByReader? && b.r.SttFails? && m.OpenFails?)
    || (b == B.ByReader(B.Leave) && m.Disconnect?)
    || (b.ByReader? && b.r.Refuse? && b.r.code == "no_active_stream" && m.AudioArrives?)
    || (b.ByMicrophone? && m.SendRefused?)
  }

  /** What BargeIn does alone: everything but the ends of "start" and of the
      session, a report of the send worker, and a refusal of audio. */
  predicate TurnsAlone(b: B.Step) {
    && !b.ByMicrophone?
    && (b.ByReader? ==>
          && !b.r.SttOpens? && !b.r.SttFails? && !b.r.Leave?
          && !(b.r.Refuse? && b.r.code == "no_active_stream"))
  }

  predicate FramesAlone(m: M.Step) {
    !m.OpenSucceeds? && !m.OpenFails? && !m.Disconnect?
  }

  /** The reader is where this half of it must be. */
  predicate ReaderThere(w: Whole, m: M.Step) {
    match m
    case AudioArrives(_) => w.s.reader.Reading?
    case EndRequested => w.s.reader.Reading?
    case StartRequested => w.s.reader.Connecting?
    case _ => true
  }

  ghost predicate Enabled(env: B.Env, w: Whole, step: Step) {
    match step
    case Turns(b) => B.Enabled(env, w.s, b) && TurnsAlone(b) && (b.ByReader? ==> w.p.reader.Reading?)
    case Frames(m) =>
      M.Enabled(w.p, m) && FramesAlone(m) && ReaderThere(w, m) && (m.AudioArrives? ==> w.p.current.Some?)
    case Joint(b, m) =>
      && B.Enabled(env, w.s, b) && M.Enabled(w.p, m) && IsJoint(b, m) && ReaderThere(w, m)
      && (m.AudioArrives? ==> w.p.current.None?)
  }

  function Apply(env: B.Env, w: Whole, step: Step): Whole
    requires Enabled(env, w, step)
  {
    match step
    case Turns(b) => w.(s := B.Apply(env, w.s, b))
    case Frames(m) => w.(p := M.Apply(w.p, m))
    case Joint(b, m) => Whole(B.Apply(env, w.s, b), M.Apply(w.p, m))
  }

  ghost predicate Legal(env: B.Env, w: Whole, steps: seq<Step>)
    decreases |steps|
  {
    steps == [] || (Enabled(env, w, steps[0]) && Legal(env, Apply(env, w, steps[0]), steps[1..]))
  }

  ghost function Run(env: B.Env, w: Whole, steps: seq<Step>): Whole
    requires Legal(env, w, steps)
    decreases |steps|
  {
    if steps == [] then w else Run(env, Apply(env, w, steps[0]), steps[1..])
  }

  // ---- Each half is a run of its own system ---------------------------------------

  function TurnSteps(steps: seq<Step>): seq<B.Step> {
    if steps == [] then []
    else (if steps[0].Frames? then [] else [steps[0].b]) + TurnSteps(steps[1..])
  }

  function FrameSteps(steps: seq<Step>): seq<M.Step> {
    if steps == [] then []
    else (if steps[0].Turns? then [] else [steps[0].m]) + FrameSteps(steps[1..])
  }

  lemma {:induction false} TurnsHalf(env: B.Env, w: Whole, steps: seq<Step>)
    requires Legal(env, w, steps)
    ensures B.Legal(env, w.s, TurnSteps(steps)) && B.Run(env, w.s, TurnSteps(steps)) == Run(env, w, steps).s
    decreases |steps|
  {
    if steps != [] {
      var rest := TurnSteps(steps[1..]);
      TurnsHalf(env, Apply(env, w, steps[0]), steps[1..]);
      if steps[0].Frames? {
        assert TurnSteps(steps) == rest;
      } else {
        assert TurnSteps(steps) == [steps[0].b] + rest && ([steps[0].b] + rest)[1..] == rest;
      }
    }
  }

  lemma {:induction false} FramesHalf(env: B.Env, w: Whole, steps: seq<Step>)
    requires Legal(env, w, steps)
    ensures M.Legal(w.p, FrameSteps(steps)) && M.Run(w.p, FrameSteps(steps)) == Run(env, w, steps).p
    decreases |steps|
  {
    if steps != [] {
      var rest := FrameSteps(steps[1..]);
      FramesHalf(env, Apply(env, w, steps[0]), steps[1..]);
      if steps[0].Turns? {
        assert FrameSteps(steps) == rest;
      } else {
        assert FrameSteps(steps) == [steps[0].m] + rest && ([steps[0].m] + rest)[1..] == rest;
      }
    }
  }

  /** So whatever is proved about either half under every schedule holds of it
      here. */
  lemma Halves(env: B.Env, w: Whole, steps: seq<Step>)
    requires Legal(env, w, steps)
    ensures B.Legal(env, w.s, TurnSteps(steps)) && B.Run(env, w.s, TurnSteps(steps)) == Run(env, w, steps).s
    ensures M.Legal(w.p, FrameSteps(steps)) && M.Run(w.p, FrameSteps(steps)) == Run(env, w, steps).p
  {
    TurnsHalf(env, w, steps);
    FramesHalf(env, w, steps);
  }

  // ---- The reader is one goroutine ---------------------------------------------------

  ghost predicate OneReader(w: Whole) {
    && (w.p.reader.QueueingMarker? ==> w.s.reader.Reading?)
    && (w.p.reader.Opening? ==> w.s.reader.Connecting?)
    && (w.p.reader.Left? <==> w.s.reader.Left?)
    && (w.s.reader.Left? <==> w.s.over)
  }

  ghost predicate Inv(env: B.Env, w: Whole) {
    A.AudioInv(env, w.s) && M.Inv(w.p) && OneReader(w)
  }

  lemma StepKeepsOneReader(env: B.Env, w: Whole, step: Step)
    requires OneReader(w) && Enabled(env, w, step)
    ensures OneReader(Apply(env, w, step))
  {
    match step
    case Turns(b) => if b.ByReader? { assert B.Apply(env, w.s, b) == B.ReaderApply(env, w.s, b.r); }
    case Frames(m) =>
    case Joint(b, m) =>
  }

  lemma StepKeepsInv(env: B.Env, w: Whole, step: Step)
    requires Inv(env, w) && Enabled(env, w, step)
    ensures Inv(env, Apply(env, w, step))
  {
    StepKeepsOneReader(env, w, step);
    if !step.Frames? { A.StepKeepsAudio(env, w.s, step.b); }
    if !step.Turns? { M.StepKeepsInv(w.p, step.m); }
  }

  lemma {:induction false} ReachableInv(env: B.Env, w: Whole, steps: seq<Step>)
    requires Inv(env, w) && Legal(env, w, steps)
    ensures Inv(env, Run(env, w, steps))
    decreases |steps|
  {
    if steps != [] {
      StepKeepsInv(env, w, steps[0]);
      ReachableInv(env, Apply(env, w, steps[0]), steps[1..]);
    }
  }

  lemma NewIsSound(env: B.Env)
    ensures Inv(env, NEW)
  {
    A.FreshIsSound(env);
    M.StartIsSound();
  }

  // ---- What the reader waits for ----------------------------------------------------------

  predicate IsReaders(step: Step) {
    match step
    case Turns(b) => b.ByReader?
    case Joint(b, _) => b.ByReader?
    case Frames(m) => m.AudioArrives? || m.EndRequested? || m.MarkerQueued? || m.MarkerAbandoned? || m.StartRequested?
  }

  predicate IsSendWorkers(step: Step) {
    match step
    case Turns(_) => false
    case Joint(b, _) => b.ByMicrophone?
    case Frames(m) =>
      || m.Take? || m.LoadStream? || m.TestClosed? || m.SendAccepted? || m.SendRefused?
      || m.CloseSend? || m.WorkerStops?
  }

  /** endUtterance finds the audio queue full. */
  predicate Waiting(w: Whole) {
    w.p.reader.QueueingMarker? && |w.p.queue| >= M.QUEUE_CAPACITY
  }

  /** The reader's way out of where it is. */
  function Onward(w: Whole): Step
    requires !w.s.reader.Left?
  {
    var full := |w.s.sent| >= w.s.written + B.SEND_BUFFER;
    if w.p.reader.QueueingMarker? then Frames(M.MarkerQueued)
    else if w.s.reader.Connecting? then
      if w.p.reader.Opening? then Joint(B.ByReader(B.SttOpens), M.OpenSucceeds) else Frames(M.StartRequested)
    else if w.s.reader.Reading? then Joint(B.ByReader(B.Leave), M.Disconnect)
    else Turns(B.ByReader(D.Next(w.s)))
  }

  lemma OnwardEnabled(env: B.Env, w: Whole)
    requires Inv(env, w) && !w.s.reader.Left? && !Waiting(w)
    ensures Enabled(env, w, Onward(w)) && IsReaders(Onward(w))
  {
    D.ReaderMoves(env, w.s);
  }

  /** What the send worker does next; a send under way returns with an error. */
  function SendWorkerNext(w: Whole): Step {
    Frames(M.WorkerNext(w.p.worker))
  }

  lemma SendWorkerEnabled(env: B.Env, w: Whole)
    requires Inv(env, w) && Waiting(w)
    ensures Enabled(env, w, SendWorkerNext(w)) && IsSendWorkers(SendWorkerNext(w))
  {
  }

  /** How far the send worker is from its next look at the queue. */
  function SendWorkerRank(p: M.Path): nat {
    match p.worker
    case Holding(_) => 5
    case Checking(_, _) => 4
    case Sending(_, _) => 3
    case HalfClosing(_) => 2
    case Waiting => 1
    case Stopped => 0
  }

  /** How far reader and send worker are from the end of the session. */
  function EndRank(w: Whole): nat {
    20 * D.ReaderRank(w.s)
    + (if w.p.reader.QueueingMarker? then 7 else if w.p.reader.Opening? then 0 else 1)
    + (if Waiting(w) then SendWorkerRank(w.p) else 0)
  }

  lemma RunsFirst(env: B.Env, w: Whole, step: Step, rest: seq<Step>)
    requires Enabled(env, w, step) && Legal(env, Apply(env, w, step), rest)
    ensures Legal(env, w, [step] + rest)
    ensures Run(env, w, [step] + rest) == Run(env, Apply(env, w, step), rest)
  {
    assert ([step] + rest)[1..] == rest;
  }

  lemma SendWorkerTurn(env: B.Env, w: Whole) returns (step: Step, w': Whole)
    requires Inv(env, w) && Waiting(w)
    ensures IsSendWorkers(step) && Enabled(env, w, step) && w' == Apply(env, w, step) && Inv(env, w')
    ensures w'.s == w.s && w'.p.reader == w.p.reader
    ensures 1 <= SendWorkerRank(w.p) <= 5 && (Waiting(w') ==> SendWorkerRank(w'.p) < SendWorkerRank(w.p))
  {
    SendWorkerEnabled(env, w);
    step := SendWorkerNext(w);
    StepKeepsInv(env, w, step);
    w' := Apply(env, w, step);
  }

  lemma {:induction false} FreesReader(env: B.Env, w: Whole) returns (steps: seq<Step>)
    requires Inv(env, w) && Waiting(w)
    ensures |steps| <= SendWorkerRank(w.p) <= 5 && AllSendWorkers(steps) && Legal(env, w, steps)
    ensures var w' := Run(env, w, steps); w'.s == w.s && w'.p.reader == w.p.reader && !Waiting(w')
    decreases SendWorkerRank(w.p)
  {
    var step, w' := SendWorkerTurn(env, w);
    var rest := [];
    if Waiting(w') { rest := FreesReader(env, w'); }
    RunsFirst(env, w, step, rest);
    steps := [step] + rest;
  }

  predicate AllSendWorkers(steps: seq<Step>) {
    forall k | 0 <= k < |steps| :: IsSendWorkers(steps[k])
  }

  /** At most five steps of the send worker, its turn in progress and the next
      look at the queue, let a waiting reader go on. */
  ghost predicate FreedBySendWorker(env: B.Env, w: Whole) {
    exists rest :: |rest| <= 5 && AllSendWorkers(rest) && Legal(env, w, rest)
                   && Enabled(env, Run(env, w, rest), Frames(M.MarkerQueued))
  }

  /** The reader has left, can move, or waits in endUtterance for room in the
      audio queue, and then the send worker frees it. */
  ghost predicate ReaderGoesOn(env: B.Env, w: Whole) {
    || w.s.reader.Left?
    || (exists step :: IsReaders(step) && Enabled(env, w, step))
    || (Waiting(w) && FreedBySendWorker(env, w))
  }

  lemma ReaderWaitsOnly(env: B.Env, steps: seq<Step>)
    requires Legal(env, NEW, steps)
    ensures ReaderGoesOn(env, Run(env, NEW, steps))
  {
    NewIsSound(env);
    ReachableInv(env, NEW, steps);
    ReaderCanGoOn(env, Run(env, NEW, steps));
  }

  lemma ReaderCanGoOn(env: B.Env, w: Whole)
    requires Inv(env, w)
    ensures ReaderGoesOn(env, w)
  {
    if Waiting(w) {
      var rest := FreesReader(env, w);
      assert Enabled(env, Run(env, w, rest), Frames(M.MarkerQueued));
    } else if !w.s.reader.Left? {
      OnwardEnabled(env, w);
    }
  }

  // ---- The session can be brought to its end ---------------------------------------------------

  predicate ReaderAndSender(steps: seq<Step>) {
    forall k | 0 <= k < |steps| :: IsReaders(steps[k]) || IsSendWorkers(steps[k])
  }

  /** The next step towards the end. */
  function Ending(w: Whole): Step
    requires !w.s.reader.Left?
  {
    if Waiting(w) then SendWorkerNext(w) else Onward(w)
  }

  lemma EndingEnabled(env: B.Env, w: Whole)
    requires Inv(env, w) && !w.s.over
    ensures Enabled(env, w, Ending(w)) && (IsReaders(Ending(w)) || IsSendWorkers(Ending(w)))
    ensures Inv(env, Apply(env, w, Ending(w)))
  {
    if Waiting(w) { SendWorkerEnabled(env, w); } else { OnwardEnabled(env, w); }
    StepKeepsInv(env, w, Ending(w));
  }

  lemma StepTowardsEnd(env: B.Env, w: Whole)
    requires Inv(env, w) && !w.s.over && Enabled(env, w, Ending(w))
    ensures Apply(env, w, Ending(w)).s.worker == w.s.worker
    ensures EndRank(Apply(env, w, Ending(w))) < EndRank(w)
  {
    if !Waiting(w) { D.ReaderMoves(env, w.s); }
  }

  lemma TowardsEnd(env: B.Env, w: Whole) returns (step: Step, w': Whole)
    requires Inv(env, w) && !w.s.over
    ensures Enabled(env, w, step) && (IsReaders(step) || IsSendWorkers(step))
    ensures w' == Apply(env, w, step) && Inv(env, w')
    ensures w'.s.worker == w.s.worker && EndRank(w') < EndRank(w)
  {
    EndingEnabled(env, w);
    StepTowardsEnd(env, w);
    step, w' := Ending(w), Apply(env, w, Ending(w));
  }

  /** Reader and send worker together bring the session to its end, whatever the
      others do not do. */
  lemma {:induction false} Ends(env: B.Env, w: Whole) returns (steps: seq<Step>)
    requires Inv(env, w) && !w.s.over
    ensures ReaderAndSender(steps) && Legal(env, w, steps)
    ensures Run(env, w, steps).s.over && Run(env, w, steps).s.worker == w.s.worker
    decreases EndRank(w)
  {
    var step, w' := TowardsEnd(env, w);
    var rest := [];
    if !w'.s.over { rest := Ends(env, w'); }
    RunsFirst(env, w, step, rest);
    steps := [step] + rest;
  }

  /** In every reachable state the text-to-speech worker has stopped, can move,
      waits for a job, or waits for room in the send buffer.  Room comes from the
      writer; if a failed write has made the writer leave, reader and send worker
      can end the session, and then the worker gives up. */
  ghost predicate WorkerGoesOn(env: B.Env, w: Whole) {
    || w.s.worker.Stopped?
    || P.CanMove(env, w.s)
    || (w.s.worker.Idle? && w.s.sh.ttsQueue == [] && !w.s.over)
    || (&& w.s.worker.Sending? && P.SendBufferFull(w.s) && !w.s.over
        && (w.s.writing ==> B.Enabled(env, w.s, B.ByWriter(B.WriteOne)))
        && ReleasedByEnd(env, w))
  }

  ghost predicate ReleasedByEnd(env: B.Env, w: Whole) {
    exists rest :: ReaderAndSender(rest) && Legal(env, w, rest)
                   && B.Enabled(env, Run(env, w, rest).s, B.ByWorker(B.GiveUp))
  }

  lemma EndReleases(env: B.Env, w: Whole)
    requires Inv(env, w) && w.s.worker.Sending? && !w.s.over
    ensures ReleasedByEnd(env, w)
  {
    var rest := Ends(env, w);
    ReachableInv(env, w, rest);
    GivesUp(env, Run(env, w, rest).s);
  }

  lemma GivesUp(env: B.Env, s: B.Session)
    requires T.WorkerSound(s) && s.worker.Sending? && s.over
    ensures B.Enabled(env, s, B.ByWorker(B.GiveUp))
  {
  }

  lemma WorkerCanGoOn(env: B.Env, w: Whole)
    requires T.WorkerSound(w.s) && A.QueueIsTail(w.s)
    requires w.s.worker.Sending? && !w.s.over ==> ReleasedByEnd(env, w)
    ensures WorkerGoesOn(env, w)
  {
    P.WorkerCanMove(env, w.s);
  }

  lemma InvReleases(env: B.Env, w: Whole)
    requires Inv(env, w)
    ensures T.WorkerSound(w.s) && A.QueueIsTail(w.s)
    ensures w.s.worker.Sending? && !w.s.over ==> ReleasedByEnd(env, w)
  {
    if w.s.worker.Sending? && !w.s.over { EndReleases(env, w); }
  }

  lemma WorkerWaitsOnly(env: B.Env, steps: seq<Step>)
    requires Legal(env, NEW, steps)
    ensures WorkerGoesOn(env, Run(env, NEW, steps))
  {
    NewIsSound(env);
    ReachableInv(env, NEW, steps);
    InvReleases(env, Run(env, NEW, steps));
    WorkerCanGoOn(env, Run(env, NEW, steps));
  }
}
