// Any number of threads and coroutines sharing one manager, interleaved at
// lock granularity: each step is one locked section (or one unlocked load
// ending), so everything proved for all step sequences holds for all schedules.
module EngineThreads {
  import opened Common
  import opened EngineCache

  type Thread = nat

  // `pins` tells acquire_engine from get_engine.  `Handed` is the unlocked gap
  // between _get_or_load returning and the count going up.
  datatype Activity =
    | Idle
    | Loading(name: Name, pins: bool)
    | Handed(name: Name, engine: Engine)
    | Using(name: Name, engine: Engine)

  datatype System = System(cache: Cache, threads: map<Thread, Activity>, nextSerial: nat)

  datatype Step =
    | LookupHit(t: Thread, name: Name, pins: bool)
    | LookupMiss(t: Thread, name: Name, pins: bool)
    | LoadFails(t: Thread)
    | InsertLoaded(t: Thread)
    | TakeReference(t: Thread)
    | DropReference(t: Thread)
    | UnloadName(name: Name)

  function Doing(s: System, t: Thread): Activity {
    if t in s.threads then s.threads[t] else Idle
  }

  predicate Enabled(s: System, step: Step) {
    match step
    case LookupHit(t, n, _) => Doing(s, t).Idle? && IsPlainName(n) && n in s.cache.engines
    case LookupMiss(t, n, _) => Doing(s, t).Idle? && IsPlainName(n) && n !in s.cache.engines
    case LoadFails(t) => Doing(s, t).Loading?
    case InsertLoaded(t) => Doing(s, t).Loading?
    case TakeReference(t) => Doing(s, t).Handed?
    case DropReference(t) => Doing(s, t).Using? && Doing(s, t).name in s.cache.refs
    case UnloadName(_) => true
  }

  function Receive(pins: bool, n: Name, e: Engine): Activity {
    if pins then Handed(n, e) else Idle
  }

  function Apply(cap: int, s: System, step: Step): System
    requires Enabled(s, step)
  {
    match step
    case LookupHit(t, n, pins) =>
      s.(cache := Touch(s.cache, n), threads := s.threads[t := Receive(pins, n, s.cache.engines[n])])
    case LookupMiss(t, n, pins) =>
      s.(threads := s.threads[t := Loading(n, pins)])
    case LoadFails(t) =>
      s.(threads := s.threads[t := Idle])
    case InsertLoaded(t) =>
      var n := Doing(s, t).name;
      var after := Insert(s.cache, cap, n, Engine(n, s.nextSerial));
      var landed := if n in s.cache.engines then s.cache.engines[n] else Engine(n, s.nextSerial);
      System(after, s.threads[t := Receive(Doing(s, t).pins, n, landed)], s.nextSerial + 1)
    case TakeReference(t) =>
      var a := Doing(s, t);
      s.(cache := Pin(s.cache, a.name), threads := s.threads[t := Using(a.name, a.engine)])
    case DropReference(t) =>
      s.(cache := Release(s.cache, cap, Doing(s, t).name), threads := s.threads[t := Idle])
    case UnloadName(n) =>
      s.(cache := Unload(s.cache, n))
  }

  predicate Legal(cap: int, s: System, steps: seq<Step>)
    decreases |steps|
  {
    steps == [] || (Enabled(s, steps[0]) && Legal(cap, Apply(cap, s, steps[0]), steps[1..]))
  }

  function Run(cap: int, s: System, steps: seq<Step>): System
    requires Legal(cap, s, steps)
    decreases |steps|
  {
    if steps == [] then s else Run(cap, Apply(cap, s, steps[0]), steps[1..])
  }

  const START := System(EMPTY_CACHE, map[], 0)

  // ---- What every step keeps ------------------------------------------------

  function Users(threads: map<Thread, Activity>, n: Name): set<Thread> {
    set t | t in threads && threads[t].Using? && threads[t].name == n
  }

  /** The stored counts are the numbers of threads inside their with-block, and
      a name nobody holds has no entry. */
  ghost predicate Conserved(s: System) {
    forall n ::
      && (n in s.cache.refs <==> Users(s.threads, n) != {})
      && (n in s.cache.refs ==> s.cache.refs[n] == |Users(s.threads, n)|)
  }

  /** Whenever the lock is free an over-full cache has at most one loaded
      engine that nobody references. */
  ghost predicate Trimmed(cap: int, c: Cache) {
    |c.keys| > cap ==> forall a, b | a in c.keys && b in c.keys && a !in c.refs && b !in c.refs :: a == b
  }

  predicate Older(e: Engine, s: System) {
    e.serial < s.nextSerial
  }

  ghost predicate Inv(cap: int, s: System) {
    && Consistent(s.cache)
    && Conserved(s)
    && Trimmed(cap, s.cache)
    && (forall n | n in s.cache.engines :: Older(s.cache.engines[n], s))
    && (forall t | t in s.threads && (s.threads[t].Handed? || s.threads[t].Using?) ::
          Older(s.threads[t].engine, s))
  }

  lemma UsersAfter(threads: map<Thread, Activity>, t: Thread, a: Activity, n: Name)
    ensures Users(threads[t := a], n)
         == if a.Using? && a.name == n then Users(threads, n) + {t} else Users(threads, n) - {t}
  {
  }

  lemma ConservedTake(s: System, t: Thread, e: Engine, n: Name)
    requires Conserved(s) && !Doing(s, t).Using?
    ensures Conserved(s.(cache := Pin(s.cache, n), threads := s.threads[t := Using(n, e)]))
  {
    forall m ensures Users(s.threads[t := Using(n, e)], m)
                  == if m == n then Users(s.threads, m) + {t} else Users(s.threads, m) {
      UsersAfter(s.threads, t, Using(n, e), m);
    }
  }

  lemma ConservedDrop(cap: int, s: System, t: Thread, n: Name)
    requires Conserved(s) && Doing(s, t).Using? && Doing(s, t).name == n && n in s.cache.refs
    ensures Conserved(s.(cache := Release(s.cache, cap, n), threads := s.threads[t := Idle]))
  {
    assert t in Users(s.threads, n);
    forall m ensures Users(s.threads[t := Idle], m)
                  == if m == n then Users(s.threads, m) - {t} else Users(s.threads, m) {
      UsersAfter(s.threads, t, Idle, m);
    }
    assert |Users(s.threads, n) - {t}| == |Users(s.threads, n)| - 1;
  }

  lemma ConservedOther(s: System, t: Thread, a: Activity)
    requires Conserved(s) && !Doing(s, t).Using? && !a.Using?
    ensures Conserved(s.(threads := s.threads[t := a]))
  {
    forall m ensures Users(s.threads[t := a], m) == Users(s.threads, m) {
      UsersAfter(s.threads, t, a, m);
    }
  }

  lemma PinnedAreReferenced(c: Cache)
    requires Consistent(c)
    ensures Pinned(c.refs) == c.refs.Keys
  {
  }

  lemma TrimmedAfterSweep(cap: int, c: Cache, protect: Option<Name>)
    requires Consistent(c)
    ensures Trimmed(cap, Sweep(c, cap, protect))
  {
    SweepFitsOrAllKept(c, cap, protect);
    PinnedAreReferenced(c);
  }

  lemma TrimmedAfterUnload(cap: int, c: Cache, n: Name)
    requires Consistent(c) && Trimmed(cap, c)
    ensures Trimmed(cap, Unload(c, n))
  {
    WithoutNoDup(c.keys, n);
    WithoutMembers(c.keys, n);
  }

  lemma TrimmedAfterTouch(cap: int, c: Cache, n: Name)
    requires Consistent(c) && Trimmed(cap, c) && n in c.engines
    ensures Trimmed(cap, Touch(c, n))
  {
    WithoutNoDup(c.keys, n);
    WithoutMembers(c.keys, n);
    assert n in c.keys;
  }

  lemma LoweredConsistent(c: Cache, n: Name)
    requires Consistent(c) && n in c.refs
    ensures Consistent(c.(refs := Lowered(c.refs, n)))
  {
  }

  lemma StepKeepsInv(cap: int, s: System, step: Step)
    requires Inv(cap, s) && Enabled(s, step)
    ensures Inv(cap, Apply(cap, s, step))
  {
    match step
    case LookupHit(t, n, pins) =>
      HitKeepsInv(cap, s, t, n, pins);
    case LookupMiss(t, n, pins) =>
      ConservedOther(s, t, Loading(n, pins));
    case LoadFails(t) =>
      ConservedOther(s, t, Idle);
    case InsertLoaded(t) =>
      InsertKeepsInv(cap, s, t);
    case TakeReference(t) =>
      var a := Doing(s, t);
      ConservedTake(s, t, a.engine, a.name);
    case DropReference(t) =>
      DropKeepsInv(cap, s, t);
    case UnloadName(n) =>
      UnloadConsistent(s.cache, n);
      TrimmedAfterUnload(cap, s.cache, n);
  }

  lemma HitKeepsInv(cap: int, s: System, t: Thread, n: Name, pins: bool)
    requires Inv(cap, s) && Enabled(s, LookupHit(t, n, pins))
    ensures Inv(cap, Apply(cap, s, LookupHit(t, n, pins)))
  {
    TouchConsistent(s.cache, n);
    TrimmedAfterTouch(cap, s.cache, n);
    ConservedOther(s, t, Receive(pins, n, s.cache.engines[n]));
  }

  lemma DropKeepsInv(cap: int, s: System, t: Thread)
    requires Inv(cap, s) && Enabled(s, DropReference(t))
    ensures Inv(cap, Apply(cap, s, DropReference(t)))
  {
    var n := Doing(s, t).name;
    ReleaseConsistent(s.cache, cap, n);
    ConservedDrop(cap, s, t, n);
    LoweredConsistent(s.cache, n);
    TrimmedAfterSweep(cap, s.cache.(refs := Lowered(s.cache.refs, n)), None);
  }

  lemma InsertKeepsInv(cap: int, s: System, t: Thread)
    requires Inv(cap, s) && Doing(s, t).Loading?
    ensures Inv(cap, Apply(cap, s, InsertLoaded(t)))
  {
    var n := Doing(s, t).name;
    var loaded := Engine(n, s.nextSerial);
    var landed := if n in s.cache.engines then s.cache.engines[n] else loaded;
    InsertConsistent(s.cache, cap, n, loaded);
    LandedConsistent(s.cache, n, loaded);
    TrimmedAfterSweep(cap, Landed(s.cache, n, loaded), Some(n));
    ConservedOther(s, t, Receive(Doing(s, t).pins, n, landed));
  }

  /** Every reachable state, under every schedule. */
  lemma {:induction false} ReachableInv(cap: int, s: System, steps: seq<Step>)
    requires Inv(cap, s) && Legal(cap, s, steps)
    ensures Inv(cap, Run(cap, s, steps))
    decreases |steps|
  {
    if steps != [] {
      StepKeepsInv(cap, s, steps[0]);
      ReachableInv(cap, Apply(cap, s, steps[0]), steps[1..]);
    }
  }

  // ---- The promises ----------------------------------------------------------

  /** Reference conservation over all schedules; releasing never misses its key. */
  lemma ReferencesConserved(cap: int, steps: seq<Step>, t: Thread)
    requires Legal(cap, START, steps)
    ensures var s := Run(cap, START, steps);
            && Conserved(s)
            && (Doing(s, t).Using? ==> Doing(s, t).name in s.cache.refs && Enabled(s, DropReference(t)))
  {
    ReachableInv(cap, START, steps);
    var s := Run(cap, START, steps);
    if Doing(s, t).Using? {
      assert t in Users(s.threads, Doing(s, t).name);
    }
  }

  /** Capacity over all schedules: at most one engine more than the capacity
      setting, or than the names in use, whichever is larger. */
  lemma CapacityBound(cap: int, steps: seq<Step>)
    requires Legal(cap, START, steps)
    ensures var c := Run(cap, START, steps).cache;
            |c.keys| <= Max(cap, |c.refs| + 1) && Trimmed(cap, c)
  {
    ReachableInv(cap, START, steps);
    TrimmedSize(cap, Run(cap, START, steps).cache);
  }

  lemma TrimmedSize(cap: int, c: Cache)
    requires Trimmed(cap, c) && NoDup(c.keys)
    ensures |c.keys| <= Max(cap, |c.refs| + 1)
  {
    NoDupCardinality(c.keys);
    if |c.keys| > cap {
      if one :| one in c.keys && one !in c.refs {
        SubsetSize(Elems(c.keys), c.refs.Keys + {one});
        assert |c.refs.Keys + {one}| == |c.refs.Keys| + 1;
      } else {
        SubsetSize(Elems(c.keys), c.refs.Keys);
      }
    }
  }

  lemma {:induction false} SubsetSize(a: set<Name>, b: set<Name>)
    requires a <= b
    ensures |a| <= |b|
    decreases |a|
  {
    if a != {} {
      var x :| x in a;
      SubsetSize(a - {x}, b - {x});
    }
  }

  /** A step that is not the end of somebody's with-block on the last reference
      keeps a referenced engine in place. */
  lemma ReferencedSurvivesStep(cap: int, s: System, step: Step, n: Name)
    requires Inv(cap, s) && Enabled(s, step)
    requires n in s.cache.engines && n in s.cache.refs && n in Apply(cap, s, step).cache.refs
    ensures n in Apply(cap, s, step).cache.engines
    ensures Apply(cap, s, step).cache.engines[n] == s.cache.engines[n]
  {
    StepKeepsInv(cap, s, step);
    match step
    case InsertLoaded(t) =>
      var m := Doing(s, t).name;
      var loaded := Engine(m, s.nextSerial);
      LandedConsistent(s.cache, m, loaded);
      SweepSparesReferenced(Landed(s.cache, m, loaded), cap, Some(m), n);
    case DropReference(t) =>
      var m := Doing(s, t).name;
      LoweredConsistent(s.cache, m);
      SweepSparesReferenced(s.cache.(refs := Lowered(s.cache.refs, m)), cap, None, n);
    case _ =>
  }

  ghost predicate StaysReferenced(cap: int, s: System, steps: seq<Step>, n: Name)
    requires Legal(cap, s, steps)
    decreases |steps|
  {
    n in s.cache.refs && (steps == [] || StaysReferenced(cap, Apply(cap, s, steps[0]), steps[1..], n))
  }

  /** Pin stability over runs: until a name's count returns to zero, whoever the
      holders are and however their with-blocks overlap, it keeps its instance. */
  lemma {:induction false} ReferencedStays(cap: int, s: System, steps: seq<Step>, n: Name)
    requires Inv(cap, s) && Legal(cap, s, steps) && n in s.cache.engines && StaysReferenced(cap, s, steps, n)
    ensures var c := Run(cap, s, steps).cache;
            n in c.engines && c.engines[n] == s.cache.engines[n]
    decreases |steps|
  {
    if steps != [] {
      StepKeepsInv(cap, s, steps[0]);
      ReferencedSurvivesStep(cap, s, steps[0], n);
      ReferencedStays(cap, Apply(cap, s, steps[0]), steps[1..], n);
    }
  }

  lemma SweepSparesReferenced(c: Cache, cap: int, protect: Option<Name>, n: Name)
    requires Consistent(c) && n in c.engines && n in c.refs
    ensures n in Sweep(c, cap, protect).engines && Sweep(c, cap, protect).engines[n] == c.engines[n]
  {
    assert n in c.keys;
    DropOldestMembers(c.keys, Protected(c.refs, protect), |c.keys| - cap);
  }

  /** What a thread asked for it keeps asking for: the name of its request. */
  lemma KeepsItsName(cap: int, s: System, step: Step, t: Thread)
    requires Enabled(s, step) && !Doing(Apply(cap, s, step), t).Idle?
    ensures var now := Doing(Apply(cap, s, step), t);
            if !Doing(s, t).Idle? then
              now.name == Doing(s, t).name && (Doing(s, t).Handed? ==> now.engine == Doing(s, t).engine)
              && (Doing(s, t).Using? ==> now == Doing(s, t))
            else
              (step.LookupHit? || step.LookupMiss?) && step.t == t && step.name == now.name
  {
  }

  /** And what it is handed is the instance the cache holds for that name, also
      when another thread's load landed first. */
  lemma HandsCached(cap: int, s: System, step: Step, t: Thread)
    requires Inv(cap, s) && Enabled(s, step) && !Doing(s, t).Handed? && Doing(Apply(cap, s, step), t).Handed?
    ensures var s' := Apply(cap, s, step);
            var n := Doing(s', t).name;
            && n in s'.cache.engines && s'.cache.engines[n] == Doing(s', t).engine && Doing(s', t).engine.name == n
            && (n in s.cache.engines ==> Doing(s', t).engine == s.cache.engines[n])
  {
    StepKeepsInv(cap, s, step);
    if step.InsertLoaded? {
      var n := Doing(s, step.t).name;
      InsertConsistent(s.cache, cap, n, Engine(n, s.nextSerial));
    }
  }

  /** An instance that has left the cache never comes back. */
  lemma GoneStaysGone(cap: int, s: System, step: Step, e: Engine)
    requires Inv(cap, s) && Enabled(s, step) && Older(e, s)
    requires e.name in s.cache.engines ==> s.cache.engines[e.name] != e
    ensures var c := Apply(cap, s, step).cache;
            e.name in c.engines ==> c.engines[e.name] != e
  {
  }

  /** The steps that take a loaded name out of the cache: unloading it while
      nobody references it, or a sweep that finds it among the oldest of the
      entries it may evict. */
  predicate Evicts(cap: int, s: System, step: Step, n: Name) {
    match step
    case UnloadName(m) => m == n && n !in s.cache.refs
    case InsertLoaded(t) =>
      Doing(s, t).Loading? &&
      var m := Doing(s, t).name;
      n in Evicted(Landed(s.cache, m, Engine(m, s.nextSerial)), cap, Some(m))
    case DropReference(t) =>
      Doing(s, t).Using? && Doing(s, t).name in s.cache.refs &&
      n in Evicted(s.cache.(refs := Lowered(s.cache.refs, Doing(s, t).name)), cap, None)
    case _ => false
  }

  lemma InsertEvictsExactly(cap: int, s: System, t: Thread, n: Name)
    requires Inv(cap, s) && Doing(s, t).Loading? && n in s.cache.engines
    ensures var c := Apply(cap, s, InsertLoaded(t)).cache;
            if Evicts(cap, s, InsertLoaded(t), n) then n !in c.engines
            else n in c.engines && c.engines[n] == s.cache.engines[n]
  {
    var m := Doing(s, t).name;
    var landed := Landed(s.cache, m, Engine(m, s.nextSerial));
    LandedConsistent(s.cache, m, Engine(m, s.nextSerial));
    WithoutMembers(s.cache.keys, m);
    assert n in s.cache.keys && n in landed.keys;
    SweptExactly(landed, cap, Some(m), n);
  }

  lemma DropEvictsExactly(cap: int, s: System, t: Thread, n: Name)
    requires Inv(cap, s) && Enabled(s, DropReference(t)) && n in s.cache.engines
    ensures var c := Apply(cap, s, DropReference(t)).cache;
            if Evicts(cap, s, DropReference(t), n) then n !in c.engines
            else n in c.engines && c.engines[n] == s.cache.engines[n]
  {
    assert n in s.cache.keys;
    SweptExactly(s.cache.(refs := Lowered(s.cache.refs, Doing(s, t).name)), cap, None, n);
  }

  /** Exactly those: any other step leaves a loaded name with its instance. */
  lemma EvictsExactly(cap: int, s: System, step: Step, n: Name)
    requires Inv(cap, s) && Enabled(s, step) && n in s.cache.engines
    ensures var c := Apply(cap, s, step).cache;
            if Evicts(cap, s, step, n) then n !in c.engines
            else n in c.engines && c.engines[n] == s.cache.engines[n]
  {
    match step
    case InsertLoaded(t) => InsertEvictsExactly(cap, s, t, n);
    case DropReference(t) => DropEvictsExactly(cap, s, t, n);
    case _ =>
  }

  ghost predicate NeverEvicts(cap: int, s: System, steps: seq<Step>, n: Name)
    requires Legal(cap, s, steps)
    decreases |steps|
  {
    steps == [] || (!Evicts(cap, s, steps[0], n) && NeverEvicts(cap, Apply(cap, s, steps[0]), steps[1..], n))
  }

  /** When the gap between lookup and pin does harm: an engine that was cached
      when it was handed out is still the cached one after any run if and only
      if no step of it evicted the name. */
  lemma {:induction false} GapExactly(cap: int, s: System, steps: seq<Step>, e: Engine)
    requires Inv(cap, s) && Legal(cap, s, steps) && Older(e, s)
    requires e.name in s.cache.engines && s.cache.engines[e.name] == e
    ensures var c := Run(cap, s, steps).cache;
            (e.name in c.engines && c.engines[e.name] == e) <==> NeverEvicts(cap, s, steps, e.name)
    decreases |steps|
  {
    if steps != [] {
      var s' := Apply(cap, s, steps[0]);
      StepKeepsInv(cap, s, steps[0]);
      EvictsExactly(cap, s, steps[0], e.name);
      assert s.nextSerial <= s'.nextSerial;
      if Evicts(cap, s, steps[0], e.name) {
        GoneForGood(cap, s', steps[1..], e);
      } else {
        GapExactly(cap, s', steps[1..], e);
      }
    }
  }

  lemma {:induction false} GoneForGood(cap: int, s: System, steps: seq<Step>, e: Engine)
    requires Inv(cap, s) && Legal(cap, s, steps) && Older(e, s)
    requires e.name in s.cache.engines ==> s.cache.engines[e.name] != e
    ensures var c := Run(cap, s, steps).cache; e.name in c.engines ==> c.engines[e.name] != e
    decreases |steps|
  {
    if steps != [] {
      StepKeepsInv(cap, s, steps[0]);
      GoneStaysGone(cap, s, steps[0], e);
      GoneForGood(cap, Apply(cap, s, steps[0]), steps[1..], e);
    }
  }

  /** Pin stability.  While a thread stays inside its with-block -- whatever the
      other threads load, sweep, release or unload -- the cache keeps whatever
      instance it had for that name; and the thread's own instance is the
      cached one at the end of that stretch exactly if it was at its start. */
  lemma {:induction false} HeldEngineStays(cap: int, s: System, steps: seq<Step>, t: Thread, n: Name, e: Engine)
    requires Inv(cap, s) && Legal(cap, s, steps) && DropReference(t) !in steps
    requires Doing(s, t) == Using(n, e) && e.name == n
    ensures Doing(Run(cap, s, steps), t) == Using(n, e)
    ensures var c := Run(cap, s, steps).cache;
            && n in c.refs
            && (n in s.cache.engines ==> n in c.engines && c.engines[n] == s.cache.engines[n])
            && ((n in c.engines && c.engines[n] == e) <==> (n in s.cache.engines && s.cache.engines[n] == e))
    decreases |steps|
  {
    assert t in Users(s.threads, n);
    if steps != [] {
      var s' := Apply(cap, s, steps[0]);
      StepKeepsInv(cap, s, steps[0]);
      assert steps[0] in steps;
      assert Doing(s', t) == Using(n, e);
      assert t in Users(s'.threads, n);
      if n in s.cache.engines { ReferencedSurvivesStep(cap, s, steps[0], n); }
      if !(n in s.cache.engines && s.cache.engines[n] == e) { GoneStaysGone(cap, s, steps[0], e); }
      HeldEngineStays(cap, s', steps[1..], t, n, e);
    }
  }

  /** What the gap between lookup and reference count allows: two threads
      inside acquire_engine for one name, holding different instances. */
  lemma GapYieldsTwoInstances(a: Name, b: Name)
    requires IsPlainName(a) && IsPlainName(b) && a != b
    ensures exists steps :: Legal(1, START, steps) &&
              var s := Run(1, START, steps);
              Doing(s, 0) == Using(a, Engine(a, 0)) && Doing(s, 2) == Using(a, Engine(a, 2))
  {
    var p := EvictedInTheGap(a, b);
    p := Then(1, p, TakeReference(0));
    p := Then(1, p, LookupMiss(2, a, true));
    var q := Then(1, p, InsertLoaded(2));
    InsertReplaces(Cache([b], map[b := Engine(b, 1)], map[a := 1]), a, Engine(a, 2));
    q := Then(1, q, TakeReference(2));
  }

  lemma LoadedFirst(a: Name) returns (p: seq<Step>)
    requires IsPlainName(a)
    ensures Legal(1, START, p)
    ensures Run(1, START, p) == System(Cache([a], map[a := Engine(a, 0)], map[]), map[0 := Handed(a, Engine(a, 0))], 1)
  {
    p := Then(1, [], LookupMiss(0, a, true));
    p := Then(1, p, InsertLoaded(0));
    InsertIntoEmpty(a, Engine(a, 0));
  }

  /** Thread 0 has been handed `a`, but a second load pushes it out before
      thread 0 has raised the count. */
  lemma EvictedInTheGap(a: Name, b: Name) returns (p: seq<Step>)
    requires IsPlainName(a) && IsPlainName(b) && a != b
    ensures Legal(1, START, p)
    ensures Run(1, START, p) == System(Cache([b], map[b := Engine(b, 1)], map[]),
                                       map[0 := Handed(a, Engine(a, 0)), 1 := Idle], 2)
  {
    p := LoadedFirst(a);
    p := Then(1, p, LookupMiss(1, b, false));
    p := Then(1, p, InsertLoaded(1));
    InsertReplaces(Cache([a], map[a := Engine(a, 0)], map[]), b, Engine(b, 1));
  }

  lemma InsertIntoEmpty(n: Name, e: Engine)
    ensures Insert(EMPTY_CACHE, 1, n, e) == Cache([n], map[n := e], map[])
  {
    assert Without([], n) + [n] == [n];
  }

  lemma InsertReplaces(c: Cache, n: Name, e: Engine)
    requires |c.keys| == 1 && c.keys[0] != n && c.keys[0] !in c.refs && c.engines.Keys == {c.keys[0]}
    ensures Insert(c, 1, n, e) == Cache([n], map[n := e], c.refs)
  {
    WithoutAbsent(c.keys, n);
    var two := c.keys + [n];
    assert two[1..] == [n];
    assert DropOldest(two, Protected(c.refs, Some(n)), 1) == [n];
    assert Restrict(c.engines[n := e], [n]) == map[n := e];
  }

  lemma Then(cap: int, steps: seq<Step>, step: Step) returns (longer: seq<Step>)
    requires Legal(cap, START, steps) && Enabled(Run(cap, START, steps), step)
    ensures Legal(cap, START, longer)
    ensures Run(cap, START, longer) == Apply(cap, Run(cap, START, steps), step)
  {
    longer := steps + [step];
    Extend(cap, START, steps, step);
  }

  lemma {:induction false} Extend(cap: int, s: System, steps: seq<Step>, step: Step)
    requires Legal(cap, s, steps) && Enabled(Run(cap, s, steps), step)
    ensures Legal(cap, s, steps + [step])
    ensures Run(cap, s, steps + [step]) == Apply(cap, Run(cap, s, steps), step)
    decreases |steps|
  {
    if steps == [] {
      assert steps + [step] == [step] && [step][1..] == [];
    } else {
      assert (steps + [step])[0] == steps[0] && (steps + [step])[1..] == steps[1..] + [step];
      Extend(cap, Apply(cap, s, steps[0]), steps[1..], step);
    }
  }
}
