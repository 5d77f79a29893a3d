// What the text-to-speech worker may have to wait for.
module BargeInProgress {
  import opened RecvPump
  import opened Synthesis
  import opened BargeIn
  import opened BargeInTurns
  import opened BargeInAudio

  predicate SendBufferFull(s: Session) { |s.sent| >= s.written + SEND_BUFFER }

  ghost predicate CanMove(env: Env, s: Session) {
    exists w :: Enabled(env, s, ByWorker(w))
  }

  lemma NothingSpoken()
    ensures Spoken([], [])
  {
    var none: seq<Poll<int>> := [];
    assert [] == Pumped(none, AudioEvent, SYNTHESIS_ERROR, SYNTHESIS_TIMEOUT);
  }

  /** What the worker does next if it can; a network call is answered at once. */
  function WorkerNext(s: Session): WorkerStep {
    var lost := SendBufferFull(s);
    match s.worker
    case Idle => if s.sh.ttsQueue != [] then Take else WorkerStep.Stop
    case Taken(_, _) => TestJob
    case Calling(_, _) => VoiceOpens([], [])
    case Holding(_) => Recheck
    case Discarding(_) => CloseOwn
    case Listening(_, _) => ListenEnd
    case Testing(_, _) => TestChunk
    case Telling(_) => TellText(lost)
    case Formatting(_) => TellFormat(lost)
    case Sending(_) => if s.over then GiveUp else SendAudio
    case Failing(_) => ReportError(lost)
    case Clearing(_) => Clear
    case Stopped => WorkerStep.Stop
  }

  lemma WorkerNextEnabled(s: Session)
    requires WorkerSound(s) && QueueIsTail(s)
    ensures s.worker.Stopped?
         || WorkerEnabled(s, WorkerNext(s))
         || (s.worker.Idle? && s.sh.ttsQueue == [] && !s.over)
         || (s.worker.Sending? && SendBufferFull(s) && !s.over)
  {
  }

  lemma WorkerCanMove(env: Env, s: Session)
    requires WorkerSound(s) && QueueIsTail(s)
    ensures s.worker.Stopped?
         || CanMove(env, s)
         || (s.worker.Idle? && s.sh.ttsQueue == [] && !s.over)
         || (s.worker.Sending? && SendBufferFull(s) && !s.over)
  {
    WorkerNextEnabled(s);
    NothingSpoken();
    assert WorkerEnabled(s, WorkerNext(s)) ==> Enabled(env, s, ByWorker(WorkerNext(s)));
  }
}
