// Which TTS streams an interrupt can reach, and exactly when one escapes it.
module BargeInVoices {
  import opened Common
  import opened BargeIn
  import opened BargeInTurns

  predicate Settled(voice: Voice) { voice.closed || voice.ended }

  predicate InReadersHand(s: Session, v: nat) {
    (s.reader.Swapped? || s.reader.ClosingTts?) && s.reader.tts == Some(v)
  }

  /** Somebody who will close the stream, or see it end, can still reach it. */
  predicate Tracked(s: Session, v: nat)
    requires v < |s.voices|
  {
    Settled(s.voices[v]) || Unpublished(s, v) || s.sh.activeTts == Some(v) || InReadersHand(s, v)
  }

  ghost predicate VoicesTracked(s: Session) {
    forall v | 0 <= v < |s.voices| :: Tracked(s, v)
  }

  /** The worker is about to publish over another stream that is still open and
      that the reader has not taken. */
  predicate PublishesOver(s: Session, step: Step) {
    && step == ByWorker(Recheck) && s.worker.Holding? && WorkerReady(s)
    && s.sh.turn == JobInHand(s).turn
    && s.sh.activeTts.Some? && s.sh.activeTts != Some(s.worker.voice) && s.sh.activeTts.value < |s.voices|
    && !Settled(s.voices[s.sh.activeTts.value]) && !InReadersHand(s, s.sh.activeTts.value)
  }

  // ---- One step ---------------------------------------------------------------------

  lemma ReaderKeepsTracked(env: Env, s: Session, r: ReaderStep)
    requires IdsInRange(s) && VoicesTracked(s) && ReaderEnabled(s, r)
    ensures VoicesTracked(ReaderApply(env, s, r))
  {
    var s' := ReaderApply(env, s, r);
    forall v | 0 <= v < |s'.voices| ensures Tracked(s', v) {
      assert Tracked(s, v);
    }
  }

  lemma WorkerTracksExactly(s: Session, w: WorkerStep)
    requires WorkerSound(s) && ActiveVoice(s) && VoicesTracked(s) && WorkerEnabled(s, w)
    ensures VoicesTracked(WorkerApply(s, w)) <==> !PublishesOver(s, ByWorker(w))
  {
    var s' := WorkerApply(s, w);
    if PublishesOver(s, ByWorker(w)) {
      assert !Tracked(s', s.sh.activeTts.value);
    } else {
      forall v | 0 <= v < |s'.voices| ensures Tracked(s', v) {
        assert v < |s.voices| ==> Tracked(s, v);
      }
    }
  }

  /** Exactly one kind of step loses track of a stream. */
  lemma TrackedExactly(env: Env, s: Session, step: Step)
    requires Inv(env, s) && VoicesTracked(s) && Enabled(env, s, step)
    ensures VoicesTracked(Apply(env, s, step)) <==> !PublishesOver(s, step)
  {
    match step
    case ByReader(r) => ReaderKeepsTracked(env, s, r);
    case ByWorker(w) => WorkerTracksExactly(s, w);
    case _ =>
      forall v | 0 <= v < |s.voices| ensures Tracked(Apply(env, s, step), v) {
        assert Tracked(s, v);
      }
  }

  // ---- Whole runs ---------------------------------------------------------------------

  ghost predicate NeverPublishesOver(env: Env, s: Session, steps: seq<Step>)
    requires Legal(env, s, steps)
    decreases |steps|
  {
    steps == [] || (!PublishesOver(s, steps[0]) && NeverPublishesOver(env, Apply(env, s, steps[0]), steps[1..]))
  }

  lemma {:induction false} StaysTracked(env: Env, s: Session, steps: seq<Step>)
    requires Inv(env, s) && VoicesTracked(s) && Legal(env, s, steps) && NeverPublishesOver(env, s, steps)
    ensures Inv(env, Run(env, s, steps)) && VoicesTracked(Run(env, s, steps))
    decreases |steps|
  {
    if steps != [] {
      StepKeepsInv(env, s, steps[0]);
      TrackedExactly(env, s, steps[0]);
      StaysTracked(env, Apply(env, s, steps[0]), steps[1..]);
    }
  }

  /** An open stream of an earlier turn that nobody can reach. */
  predicate VoiceLost(s: Session, v: nat) {
    && v < |s.voices| && s.voices[v].job.turn < s.sh.turn
    && !Settled(s.voices[v]) && !WorkerOn(s, v) && s.sh.activeTts != Some(v) && !InReadersHand(s, v)
  }

  lemma PublishedOverIsLost(env: Env, s: Session, step: Step)
    requires Inv(env, s) && Enabled(env, s, step) && PublishesOver(s, step)
    ensures VoiceLost(Apply(env, s, step), s.sh.activeTts.value)
  {
  }

  lemma ReaderKeepsLost(env: Env, s: Session, r: ReaderStep, v: nat)
    requires VoiceLost(s, v) && ReaderEnabled(s, r)
    ensures VoiceLost(ReaderApply(env, s, r), v)
  {
  }

  lemma WorkerKeepsLost(s: Session, w: WorkerStep, v: nat)
    requires VoiceLost(s, v) && WorkerEnabled(s, w)
    ensures VoiceLost(WorkerApply(s, w), v)
  {
  }

  lemma LostStaysLost(env: Env, s: Session, step: Step, v: nat)
    requires VoiceLost(s, v) && Enabled(env, s, step)
    ensures VoiceLost(Apply(env, s, step), v)
  {
    match step
    case ByReader(r) => ReaderKeepsLost(env, s, r, v);
    case ByWorker(w) => WorkerKeepsLost(s, w, v);
    case _ =>
  }

  lemma {:induction false} LostForGood(env: Env, s: Session, steps: seq<Step>, v: nat)
    requires VoiceLost(s, v) && Legal(env, s, steps)
    ensures VoiceLost(Run(env, s, steps), v)
    decreases |steps|
  {
    if steps != [] {
      LostStaysLost(env, s, steps[0], v);
      LostForGood(env, Apply(env, s, steps[0]), steps[1..], v);
    }
  }

  lemma {:induction false} PublishingOverLoses(env: Env, s: Session, steps: seq<Step>) returns (v: nat)
    requires Inv(env, s) && Legal(env, s, steps) && !NeverPublishesOver(env, s, steps)
    ensures VoiceLost(Run(env, s, steps), v)
    decreases |steps|
  {
    var s' := Apply(env, s, steps[0]);
    if PublishesOver(s, steps[0]) {
      v := s.sh.activeTts.value;
      PublishedOverIsLost(env, s, steps[0]);
      LostForGood(env, s', steps[1..], v);
    } else {
      StepKeepsInv(env, s, steps[0]);
      v := PublishingOverLoses(env, s', steps[1..]);
    }
  }

  // ---- No TTS stream escapes a barge-in, exactly ------------------------------------------

  predicate InterruptHasClosed(r: Reader) {
    !r.Bumped? && !r.Swapped? && !r.ClosingTts?
  }

  /** Every TTS stream of an earlier turn is closed or ended, or the worker
      still holds it unpublished. */
  ghost predicate NoneEscaped(s: Session) {
    forall v | 0 <= v < |s.voices| && s.voices[v].job.turn < s.sh.turn ::
      Settled(s.voices[v]) || Unpublished(s, v)
  }

  /** Once an interrupt has closed what it swapped out, no stream of an earlier
      turn has escaped if and only if the worker never published over another
      open stream -- under every schedule. */
  lemma EscapesExactly(env: Env, steps: seq<Step>)
    requires Legal(env, FRESH, steps) && InterruptHasClosed(Run(env, FRESH, steps).reader)
    ensures NoneEscaped(Run(env, FRESH, steps)) <==> NeverPublishesOver(env, FRESH, steps)
  {
    var s := Run(env, FRESH, steps);
    ReachableInv(env, FRESH, steps);
    if NeverPublishesOver(env, FRESH, steps) {
      StaysTracked(env, FRESH, steps);
      forall v | 0 <= v < |s.voices| && s.voices[v].job.turn < s.sh.turn
        ensures Settled(s.voices[v]) || Unpublished(s, v)
      {
        assert Tracked(s, v);
      }
    } else {
      var v := PublishingOverLoses(env, FRESH, steps);
      assert !Settled(s.voices[v]) && !Unpublished(s, v);
    }
  }

  /** The worker's own next steps for a stream it holds unpublished. */
  function OwnSteps(w: Worker): seq<Step> {
    if w.Holding? then [ByWorker(Recheck), ByWorker(CloseOwn)] else [ByWorker(CloseOwn)]
  }

  lemma DiscardingCloses(env: Env, s: Session, v: nat)
    requires s.worker == Discarding(v) && v < |s.voices|
    ensures Legal(env, s, [ByWorker(CloseOwn)])
    ensures Run(env, s, [ByWorker(CloseOwn)])
         == s.(voices := s.voices[v := s.voices[v].(closed := true)], worker := Idle)
  {
    assert [ByWorker(CloseOwn)][1..] == [];
  }

  /** An unpublished stream of an earlier turn never becomes active: the worker's
      own next two steps, or one, leave it closed and nothing else changed. */
  lemma UnpublishedCloses(env: Env, s: Session, v: nat)
    requires WorkerReady(s) && Unpublished(s, v) && s.voices[v].job.turn != s.sh.turn
    ensures Legal(env, s, OwnSteps(s.worker))
    ensures Run(env, s, OwnSteps(s.worker))
         == s.(voices := s.voices[v := s.voices[v].(closed := true)], worker := Idle)
  {
    if s.worker.Holding? {
      var steps := OwnSteps(s.worker);
      assert steps[0] == ByWorker(Recheck) && steps[1..] == [ByWorker(CloseOwn)];
      DiscardingCloses(env, Apply(env, s, ByWorker(Recheck)), v);
    } else {
      DiscardingCloses(env, s, v);
    }
  }

  // ---- Calm runs ---------------------------------------------------------------------------

  lemma {:induction false} CalmNeverPublishesOver(env: Env, s: Session, steps: seq<Step>)
    requires Inv(env, s) && Quiet(s) && Legal(env, s, steps) && Calm(env, s, steps)
    ensures NeverPublishesOver(env, s, steps)
    decreases |steps|
  {
    if steps != [] {
      StepKeepsInv(env, s, steps[0]);
      QuietExactly(env, s, steps[0]);
      CalmNeverPublishesOver(env, Apply(env, s, steps[0]), steps[1..]);
    }
  }

  /** So in particular nothing escapes in a calm run. */
  lemma NoVoiceEscapes(env: Env, steps: seq<Step>)
    requires Legal(env, FRESH, steps) && Calm(env, FRESH, steps)
    requires InterruptHasClosed(Run(env, FRESH, steps).reader)
    ensures NoneEscaped(Run(env, FRESH, steps))
  {
    CalmNeverPublishesOver(env, FRESH, steps);
    EscapesExactly(env, steps);
  }
}
