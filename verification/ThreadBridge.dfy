// tts/utils/async_io.py: a blocking generator driven in a background thread,
// its items handed to an async consumer through a queue of eight.  Producer
// and consumer are interleaved one queue or flag operation at a time.
module ThreadBridge {
  import opened Common

  // A generator's payload and exception are opaque.
  type Item = int
  type Failure = int

  const CAPACITY := 8

  datatype Payload = Value(item: Item) | Raised(failure: Failure) | Sentinel

  // How the generator stands.  `Aborted` is an exit that `except Exception`
  // does not catch (SystemExit, KeyboardInterrupt).
  datatype Generator = Active | Exhausted | Failed(failure: Failure) | Aborted

  datatype Producer =
    | Pulling                        // about to ask the generator for an item
    | Holding(item: Item)            // got one, about to test `stopped`
    | Testing(payload: Payload)      // in enqueue, about to test `stopped`
    | Putting(payload: Payload)      // blocked in items.put
    | Exited

  datatype Outcome = Completed | RaisedTo(failure: Failure) | Abandoned

  datatype Consumer =
    | Polling
    | AtYield
    | Leaving(outcome: Outcome)      // in the finally clause, about to stop
    | Done(outcome: Outcome)

  // `produced` and `yielded` are histories; `puts` and `pulls` count.
  datatype Bridge = Bridge(
    queue: seq<Payload>, stopped: bool, generator: Generator,
    producer: Producer, consumer: Consumer,
    produced: seq<Item>, yielded: seq<Item>, puts: nat, pulls: nat)

  const START := Bridge([], false, Active, Pulling, Polling, [], [], 0, 0)

  datatype Step =
    | GiveItem(item: Item) | GenReturns | GenRaises(failure: Failure) | GenAborts
    | TestBeforeQueue | TestInQueue | Put | PutTimesOut
    | Get | EmptySleep | Resume | Abandon | SetStopped

  function After(p: Payload): Producer {
    match p
    case Value(_) => Pulling
    case Raised(_) => Testing(Sentinel)
    case Sentinel => Exited
  }

  predicate Enabled(b: Bridge, step: Step) {
    match step
    case GiveItem(_) => b.producer.Pulling?
    case GenReturns => b.producer.Pulling?
    case GenRaises(_) => b.producer.Pulling?
    case GenAborts => b.producer.Pulling?
    case TestBeforeQueue => b.producer.Holding?
    case TestInQueue => b.producer.Testing?
    case Put => b.producer.Putting? && |b.queue| < CAPACITY
    case PutTimesOut => b.producer.Putting? && |b.queue| >= CAPACITY
    case Get => b.consumer.Polling? && b.queue != []
    case EmptySleep => b.consumer.Polling? && b.queue == []
    case Resume => b.consumer.AtYield?
    case Abandon => b.consumer.AtYield? || (b.consumer.Polling? && b.queue == [])
    case SetStopped => b.consumer.Leaving?
  }

  function Apply(b: Bridge, step: Step): Bridge
    requires Enabled(b, step)
  {
    match step
    case GiveItem(item) =>
      b.(producer := Holding(item), produced := b.produced + [item], pulls := b.pulls + 1)
    case GenReturns =>
      b.(producer := Testing(Sentinel), generator := Exhausted, pulls := b.pulls + 1)
    case GenRaises(failure) =>
      b.(producer := Testing(Raised(failure)), generator := Failed(failure), pulls := b.pulls + 1)
    case GenAborts =>
      b.(producer := Testing(Sentinel), generator := Aborted, pulls := b.pulls + 1)
    case TestBeforeQueue =>
      b.(producer := Testing(if b.stopped then Sentinel else Value(b.producer.item)))
    case TestInQueue =>
      b.(producer := if b.stopped then After(b.producer.payload) else Putting(b.producer.payload))
    case Put =>
      b.(producer := After(b.producer.payload), queue := b.queue + [b.producer.payload], puts := b.puts + 1)
    case PutTimesOut =>
      b.(producer := Testing(b.producer.payload))
    case Get =>
      var rest := b.queue[1..];
      (match b.queue[0]
       case Value(item) => b.(queue := rest, yielded := b.yielded + [item], consumer := AtYield)
       case Raised(failure) => b.(queue := rest, consumer := Leaving(RaisedTo(failure)))
       case Sentinel => b.(queue := rest, consumer := Leaving(Completed)))
    case EmptySleep => b
    case Resume => b.(consumer := Polling)
    case Abandon => b.(consumer := Leaving(Abandoned))
    case SetStopped => b.(stopped := true, consumer := Done(b.consumer.outcome))
  }

  predicate Legal(b: Bridge, steps: seq<Step>)
    decreases |steps|
  {
    steps == [] || (Enabled(b, steps[0]) && Legal(Apply(b, steps[0]), steps[1..]))
  }

  function Run(b: Bridge, steps: seq<Step>): Bridge
    requires Legal(b, steps)
    decreases |steps|
  {
    if steps == [] then b else Run(Apply(b, steps[0]), steps[1..])
  }

  // ---- Nothing is lost, reordered or invented --------------------------------

  function Values(items: seq<Item>): (r: seq<Payload>)
    ensures |r| == |items|
  {
    if items == [] then [] else [Value(items[0])] + Values(items[1..])
  }

  lemma {:induction false} ValuesSnoc(items: seq<Item>, item: Item)
    ensures Values(items + [item]) == Values(items) + [Value(item)]
  {
    if items == [] {
      assert items + [item] == [item] && [item][1..] == [];
    } else {
      assert (items + [item])[1..] == items[1..] + [item];
      ValuesSnoc(items[1..], item);
    }
  }

  /** What the producer still has in hand for the queue. */
  function InHand(p: Producer): seq<Payload> {
    match p
    case Pulling => []
    case Holding(item) => [Value(item)]
    case Testing(payload) => [payload] + (if payload.Raised? then [Sentinel] else [])
    case Putting(payload) => [payload] + (if payload.Raised? then [Sentinel] else [])
    case Exited => []
  }

  /** How the payload sequence must close, given how the generator ended. */
  function Closing(g: Generator): seq<Payload> {
    match g
    case Active => []
    case Exhausted => [Sentinel]
    case Failed(failure) => [Raised(failure), Sentinel]
    case Aborted => [Sentinel]
  }

  predicate Live(c: Consumer) { c.Polling? || c.AtYield? }

  ghost predicate OutcomeFits(o: Outcome, b: Bridge) {
    match o
    case Completed => b.yielded == b.produced && (b.generator.Exhausted? || b.generator.Aborted?)
    case RaisedTo(failure) => b.yielded == b.produced && b.generator == Failed(failure)
    case Abandoned => true
  }

  predicate BeforeTheEnd(p: Producer) {
    p.Pulling? || p.Holding? || ((p.Testing? || p.Putting?) && p.payload.Value?)
  }

  /** While the consumer listens: what was yielded, then what is queued, then
      what the producer holds, is exactly what the generator has done. */
  ghost predicate Accounted(b: Bridge) {
    |b.yielded| <= |b.produced| &&
    b.queue + InHand(b.producer) == Values(b.produced[|b.yielded|..]) + Closing(b.generator)
  }

  ghost predicate Inv(b: Bridge) {
    && |b.queue| <= CAPACITY
    && b.yielded <= b.produced
    && b.stopped == b.consumer.Done?
    && (BeforeTheEnd(b.producer) ==> b.generator.Active?)
    && (!b.stopped && b.generator.Active? ==> BeforeTheEnd(b.producer))
    && (Live(b.consumer) ==> Accounted(b))
    && (b.consumer.Leaving? || b.consumer.Done? ==> OutcomeFits(b.consumer.outcome, b))
  }

  lemma ProducerKeepsAccount(b: Bridge, step: Step)
    requires Inv(b) && Enabled(b, step) && Live(b.consumer) && IsProducers(step)
    ensures Accounted(Apply(b, step))
  {
    var waiting := Values(b.produced[|b.yielded|..]);
    if AsksGenerator(step) {
      assert b.queue + [] == b.queue && waiting + [] == waiting;
      assert b.queue == waiting;
      if step.GiveItem? {
        assert (b.produced + [step.item])[|b.yielded|..] == b.produced[|b.yielded|..] + [step.item];
        ValuesSnoc(b.produced[|b.yielded|..], step.item);
        assert Values((b.produced + [step.item])[|b.yielded|..]) + [] == waiting + [Value(step.item)];
      }
    } else if step.Put? {
      PutMovesHand(b.queue, b.producer.payload);
    }
  }

  lemma PutMovesHand(queue: seq<Payload>, p: Payload)
    ensures queue + InHand(Putting(p)) == (queue + [p]) + InHand(After(p))
  {
  }

  predicate IsProducers(step: Step) {
    AsksGenerator(step) || step.TestBeforeQueue? || step.TestInQueue? || step.Put? || step.PutTimesOut?
  }

  lemma GetKeepsInv(b: Bridge)
    requires Inv(b) && Enabled(b, Get)
    ensures Inv(Apply(b, Get))
  {
    if b.yielded == b.produced {
      HeadOfClosing(b);
    } else {
      HeadOfWaiting(b);
    }
  }

  /** When everything made has been yielded, the queue's head closes the run. */
  lemma HeadOfClosing(b: Bridge)
    requires Accounted(b) && b.queue != [] && b.yielded == b.produced
    ensures Closing(b.generator) != [] && b.queue[0] == Closing(b.generator)[0]
  {
    assert Values(b.produced[|b.yielded|..]) == [];
    var all := b.queue + InHand(b.producer);
    assert all[0] == b.queue[0];
    assert [] + Closing(b.generator) == Closing(b.generator);
  }

  /** Otherwise it is the next item, and the account still balances without it. */
  lemma HeadOfWaiting(b: Bridge)
    requires Accounted(b) && b.queue != [] && |b.yielded| < |b.produced|
    ensures b.queue[0] == Value(b.produced[|b.yielded|])
    ensures b.queue[1..] + InHand(b.producer)
         == Values(b.produced[|b.yielded| + 1..]) + Closing(b.generator)
  {
    var head, later, hand := b.queue[0], b.queue[1..], InHand(b.producer);
    var next, rest := b.produced[|b.yielded|], b.produced[|b.yielded| + 1..];
    assert b.produced[|b.yielded|..] == [next] + rest && ([next] + rest)[1..] == rest;
    assert b.queue + hand == [head] + (later + hand);
    assert ([Value(next)] + Values(rest)) + Closing(b.generator)
        == [Value(next)] + (Values(rest) + Closing(b.generator));
    HeadAndTail(head, later + hand, Value(next), Values(rest) + Closing(b.generator));
  }

  lemma HeadAndTail(x: Payload, xs: seq<Payload>, y: Payload, ys: seq<Payload>)
    requires [x] + xs == [y] + ys
    ensures x == y && xs == ys
  {
    assert ([x] + xs)[0] == x && ([y] + ys)[0] == y;
    assert ([x] + xs)[1..] == xs && ([y] + ys)[1..] == ys;
  }

  lemma StepKeepsInv(b: Bridge, step: Step)
    requires Inv(b) && Enabled(b, step)
    ensures Inv(Apply(b, step))
  {
    if step.Get? {
      GetKeepsInv(b);
    } else if IsProducers(step) {
      if Live(b.consumer) { ProducerKeepsAccount(b, step); }
    }
  }

  lemma {:induction false} ReachableInv(b: Bridge, steps: seq<Step>)
    requires Inv(b) && Legal(b, steps)
    ensures Inv(Run(b, steps))
    decreases |steps|
  {
    if steps != [] {
      StepKeepsInv(b, steps[0]);
      ReachableInv(Apply(b, steps[0]), steps[1..]);
    }
  }

  /** Over every schedule: the queue never exceeds eight, the consumer sees a
      prefix of what the generator made, everything in between is accounted
      for, a normal end means all of it was seen, and an exception surfaces
      only after every earlier item.  A generator killed by something
      `except Exception` lets through also ends "normally". */
  lemma BridgeDelivers(steps: seq<Step>)
    requires Legal(START, steps)
    ensures var b := Run(START, steps);
            && |b.queue| <= CAPACITY
            && b.yielded <= b.produced
            && (Live(b.consumer) ==> Accounted(b))
            && (b.consumer == Done(Completed) ==>
                  b.yielded == b.produced && (b.generator.Exhausted? || b.generator.Aborted?))
            && (forall f :: b.consumer == Done(RaisedTo(f)) ==>
                  b.yielded == b.produced && b.generator == Failed(f))
  {
    ReachableInv(START, steps);
  }

  // ---- Nothing gets stuck, and stopping is prompt ------------------------------

  function ProducerRank(p: Producer): nat {
    match p
    case Exited => 0
    case Pulling => 10
    case Holding(_) => 14
    case Testing(payload) => InFlightRank(payload)
    case Putting(payload) => InFlightRank(payload)
  }

  function InFlightRank(p: Payload): nat {
    match p
    case Sentinel => 3
    case Raised(_) => 6
    case Value(_) => 13
  }

  function ConsumerRank(c: Consumer): nat {
    match c
    case Done(_) => 0
    case Leaving(_) => 1
    case Polling => 2
    case AtYield => 3
  }

  /** How much is left to do short of the generator making more items. */
  function Rank(b: Bridge): nat {
    ProducerRank(b.producer) + 2 * |b.queue| + ConsumerRank(b.consumer)
  }

  predicate Waits(b: Bridge, step: Step) {
    step.EmptySleep? || step.PutTimesOut? || (step.TestInQueue? && !b.stopped)
  }

  predicate AsksGenerator(step: Step) {
    step.GiveItem? || step.GenReturns? || step.GenRaises? || step.GenAborts?
  }

  /** The steps that are neither waiting nor asking the generator. */
  function WorkDone(b: Bridge, steps: seq<Step>): nat
    requires Legal(b, steps)
    decreases |steps|
  {
    if steps == [] then 0
    else (if Waits(b, steps[0]) || AsksGenerator(steps[0]) then 0 else 1) + WorkDone(Apply(b, steps[0]), steps[1..])
  }

  lemma StepLowersRank(b: Bridge, step: Step)
    requires Enabled(b, step) && Inv(b)
    ensures AsksGenerator(step) ==>
              Apply(b, step).pulls == b.pulls + 1 && Rank(Apply(b, step)) <= Rank(b) + 4
    ensures !AsksGenerator(step) ==> Apply(b, step).pulls == b.pulls
    ensures Waits(b, step) ==> Rank(Apply(b, step)) == Rank(b)
    ensures !AsksGenerator(step) && !Waits(b, step) ==> Rank(Apply(b, step)) < Rank(b)
  {
  }

  /** A run does a bounded amount of work per pull, so it cannot go on forever
      once the generator has ended. */
  lemma {:induction false} WorkIsBounded(b: Bridge, steps: seq<Step>)
    requires Inv(b) && Legal(b, steps)
    ensures WorkDone(b, steps) + Rank(Run(b, steps)) <= Rank(b) + 4 * (Run(b, steps).pulls - b.pulls)
    ensures b.pulls <= Run(b, steps).pulls
    decreases |steps|
  {
    if steps != [] {
      StepKeepsInv(b, steps[0]);
      StepLowersRank(b, steps[0]);
      WorkIsBounded(Apply(b, steps[0]), steps[1..]);
    }
  }

  predicate Finished(b: Bridge) { b.producer.Exited? && b.consumer.Done? }

  /** No reachable unfinished state is stuck: within two steps something other
      than waiting can happen. */
  lemma NeverStuck(b: Bridge)
    requires Inv(b) && !Finished(b)
    ensures exists steps :: Legal(b, steps) && |steps| <= 2 &&
              (Rank(Run(b, steps)) < Rank(b) || Run(b, steps).pulls > b.pulls)
  {
    if b.consumer.Leaving? {
      OneStep(b, SetStopped);
    } else if b.consumer.AtYield? {
      OneStep(b, Resume);
    } else if b.consumer.Polling? && b.queue != [] {
      OneStep(b, Get);
    } else {
      ProducerNeverStuck(b);
    }
  }

  /** A producer that is through has left its last word in the queue. */
  lemma ExitLeavesLastWord(b: Bridge)
    requires Inv(b)
    ensures b.producer.Exited? && Live(b.consumer) ==> b.queue != []
  {
    if b.producer.Exited? && Live(b.consumer) {
      assert InHand(b.producer) == [] && b.queue + InHand(b.producer) == b.queue;
      assert Closing(b.generator) != [];
    }
  }

  lemma ProducerNeverStuck(b: Bridge)
    requires Inv(b) && !Finished(b) && (b.consumer.Done? || (b.consumer.Polling? && b.queue == []))
    ensures exists steps :: Legal(b, steps) && |steps| <= 2 &&
              (Rank(Run(b, steps)) < Rank(b) || Run(b, steps).pulls > b.pulls)
  {
    ExitLeavesLastWord(b);
    match b.producer
    case Pulling => OneStep(b, GenReturns);
    case Holding(_) => OneStep(b, TestBeforeQueue);
    case Testing(_) => TestingNeverStuck(b);
    case Putting(_) => PuttingNeverStuck(b);
    case Exited =>
  }

  lemma TestingNeverStuck(b: Bridge)
    requires Inv(b) && b.producer.Testing? && (b.consumer.Done? || (b.consumer.Polling? && b.queue == []))
    ensures exists steps :: Legal(b, steps) && |steps| <= 2 && Rank(Run(b, steps)) < Rank(b)
  {
    if b.stopped { OneStep(b, TestInQueue); } else { TwoSteps(b, TestInQueue, Put); }
  }

  lemma PuttingNeverStuck(b: Bridge)
    requires Inv(b) && b.producer.Putting? && (b.consumer.Done? || (b.consumer.Polling? && b.queue == []))
    ensures exists steps :: Legal(b, steps) && |steps| <= 2 && Rank(Run(b, steps)) < Rank(b)
  {
    if |b.queue| < CAPACITY { OneStep(b, Put); } else { TwoSteps(b, PutTimesOut, TestInQueue); }
  }

  lemma OneStep(b: Bridge, step: Step)
    requires Enabled(b, step) && Inv(b)
    ensures Inv(Apply(b, step))
    ensures !AsksGenerator(step) && !Waits(b, step) ==> Rank(Apply(b, step)) < Rank(b)
    ensures AsksGenerator(step) ==> Apply(b, step).pulls > b.pulls
    ensures Legal(b, [step]) && Run(b, [step]) == Apply(b, step)
  {
    StepKeepsInv(b, step);
    StepLowersRank(b, step);
    assert [step][1..] == [];
  }

  lemma TwoSteps(b: Bridge, first: Step, second: Step)
    requires Inv(b) && Enabled(b, first) && Waits(b, first) && Enabled(Apply(b, first), second)
    requires !AsksGenerator(second) && !Waits(Apply(b, first), second)
    ensures Rank(Apply(Apply(b, first), second)) < Rank(b)
    ensures Legal(b, [first, second]) && Run(b, [first, second]) == Apply(Apply(b, first), second)
  {
    OneStep(b, first);
    OneStep(Apply(b, first), second);
    assert [first, second][1..] == [second] && [second][1..] == [];
  }

  function StepsLeft(p: Producer): nat {
    match p
    case Exited => 0
    case Testing(payload) => (match payload case Sentinel => 1 case Raised(_) => 2 case Value(_) => 4)
    case Putting(payload) => (match payload case Sentinel => 2 case Raised(_) => 3 case Value(_) => 5)
    case Pulling => 3
    case Holding(_) => 2
  }

  function PutsLeft(p: Producer): nat { if p.Putting? then 1 else 0 }

  function PullsLeft(p: Producer): nat {
    if p.Pulling? || ((p.Testing? || p.Putting?) && p.payload.Value?) then 1 else 0
  }

  /** Once `stopped` is set the whole bridge takes at most five more steps,
      among them at most one put and one pull. */
  lemma {:induction false} StopsPromptly(b: Bridge, steps: seq<Step>)
    requires Inv(b) && Legal(b, steps) && b.stopped
    ensures |steps| <= StepsLeft(b.producer) <= 5
    ensures Run(b, steps).puts <= b.puts + PutsLeft(b.producer) <= b.puts + 1
    ensures Run(b, steps).pulls <= b.pulls + PullsLeft(b.producer) <= b.pulls + 1
    decreases |steps|
  {
    if steps != [] {
      StepKeepsInv(b, steps[0]);
      StopsPromptly(Apply(b, steps[0]), steps[1..]);
    }
  }

  // ---- The shared objects, updated in place --------------------------------------

  /** The queue and event that the two closures of iter_in_thread share, with
      the position of each side.  Every method is one operation on them. */
  class SharedBridge {
    var queue: seq<Payload>
    var stopped: bool
    var producer: Producer
    var consumer: Consumer
    ghost var generator: Generator
    ghost var produced: seq<Item>
    ghost var yielded: seq<Item>
    ghost var puts: nat
    ghost var pulls: nat

    ghost function View(): Bridge
      reads this
    {
      Bridge(queue, stopped, generator, producer, consumer, produced, yielded, puts, pulls)
    }

    constructor ()
      ensures View() == START && Inv(View())
    {
      queue, stopped, producer, consumer := [], false, Pulling, Polling;
      generator, produced, yielded, puts, pulls := Active, [], [], 0, 0;
    }

    /** One turn of the producer's for statement: next(generator) delivered. */
    method TakeFromGenerator(item: Item)
      requires Inv(View()) && producer.Pulling?
      modifies this
      ensures Inv(View()) && View() == Apply(old(View()), GiveItem(item))
    {
      StepKeepsInv(View(), GiveItem(item));
      producer := Holding(item);
      produced, pulls := produced + [item], pulls + 1;
    }

    /** The generator is over: `failure` is an Exception caught by the producer. */
    method GeneratorOver(failure: Option<Failure>)
      requires Inv(View()) && producer.Pulling?
      modifies this
      ensures Inv(View())
      ensures View() == Apply(old(View()), if failure.Some? then GenRaises(failure.value) else GenReturns)
    {
      StepKeepsInv(View(), if failure.Some? then GenRaises(failure.value) else GenReturns);
      if failure.Some? {
        producer, generator := Testing(Raised(failure.value)), Failed(failure.value);
      } else {
        producer, generator := Testing(Sentinel), Exhausted;
      }
      pulls := pulls + 1;
    }

    /** `if stopped.is_set(): break` between the generator and enqueue. */
    method LeaveIfStopped()
      requires Inv(View()) && producer.Holding?
      modifies this
      ensures Inv(View()) && View() == Apply(old(View()), TestBeforeQueue)
    {
      StepKeepsInv(View(), TestBeforeQueue);
      if stopped {
        producer := Testing(Sentinel);
      } else {
        producer := Testing(Value(producer.item));
      }
    }

    /** The condition of enqueue's while loop. */
    method TestStopped()
      requires Inv(View()) && producer.Testing?
      modifies this
      ensures Inv(View()) && View() == Apply(old(View()), TestInQueue)
    {
      StepKeepsInv(View(), TestInQueue);
      if stopped {
        producer := After(producer.payload);
      } else {
        producer := Putting(producer.payload);
      }
    }

    /** items.put with its timeout: room found, or Full raised. */
    method PutOrTimeOut() returns (accepted: bool)
      requires Inv(View()) && producer.Putting?
      modifies this
      ensures Inv(View()) && accepted == (|old(queue)| < CAPACITY)
      ensures View() == Apply(old(View()), if accepted then Put else PutTimesOut)
    {
      accepted := |queue| < CAPACITY;
      StepKeepsInv(View(), if accepted then Put else PutTimesOut);
      if accepted {
        queue := queue + [producer.payload];
        producer, puts := After(producer.payload), puts + 1;
      } else {
        producer := Testing(producer.payload);
      }
    }

    /** items.get_nowait and what the consumer does with the result. */
    method GetNowait() returns (item: Option<Item>)
      requires Inv(View()) && consumer.Polling?
      modifies this
      ensures Inv(View()) && View() == Apply(old(View()), if old(queue) == [] then EmptySleep else Get)
      ensures item.Some? ==> yielded == old(yielded) + [item.value]
      ensures item.None? ==> yielded == old(yielded)
    {
      StepKeepsInv(View(), if queue == [] then EmptySleep else Get);
      if queue == [] {
        return None;
      }
      var head := queue[0];
      queue := queue[1..];
      match head {
        case Value(v) =>
          consumer, yielded := AtYield, yielded + [v];
          return Some(v);
        case Raised(failure) =>
          consumer := Leaving(RaisedTo(failure));
        case Sentinel =>
          consumer := Leaving(Completed);
      }
      return None;
    }

    /** The consumer's finally clause. */
    method SetStoppedFlag()
      requires Inv(View()) && consumer.Leaving?
      modifies this
      ensures Inv(View()) && View() == Apply(old(View()), SetStopped)
    {
      StepKeepsInv(View(), SetStopped);
      stopped := true;
      consumer := Done(consumer.outcome);
    }
  }
}
