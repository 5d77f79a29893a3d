// The reference-counted LRU cache of tts/engine_manager.py and
// stt/engine_manager.py: the value the manager's lock protects, and what each
// locked section does to it.  The two files run the same algorithm; only the
// text-to-speech one also has `unload`.
module EngineCache {
  import opened Common

  // A voice or model name.
  datatype Name = Name(text: string)

  /** Path(text).name on a POSIX path: the last component that is neither empty
      nor the current directory. */
  function PathName(text: string): string
    decreases |text|
  {
    var i := LastSlash(text);
    var tail := text[i + 1..];
    if tail != "" && tail != "." then tail
    else if i < 0 then ""
    else PathName(text[..i])
  }

  function LastSlash(text: string): (i: int)
    ensures -1 <= i < |text|
    ensures i >= 0 ==> text[i] == '/'
    ensures forall k | i < k < |text| :: text[k] != '/'
  {
    if text == "" then -1
    else if text[|text| - 1] == '/' then |text| - 1
    else LastSlash(text[..|text| - 1])
  }

  /** The manager accepts a name that is its own file name. */
  predicate IsPlainName(name: Name) {
    name.text != "." && '/' !in name.text
  }

  lemma PlainNamesExactly(name: Name)
    ensures IsPlainName(name) <==> PathName(name.text) == name.text
  {
    var i := LastSlash(name.text);
    PathNameShortens(name.text);
    assert i < 0 ==> name.text[i + 1..] == name.text;
  }

  /** A path with a slash is longer than its last component. */
  lemma {:induction false} PathNameShortens(text: string)
    ensures |PathName(text)| <= |text|
    ensures LastSlash(text) >= 0 ==> |PathName(text)| < |text|
    decreases |text|
  {
    var i := LastSlash(text);
    if 0 <= i {
      var front := text[..i];
      PathNameShortens(front);
      assert |front| < |text| && |text[i + 1..]| < |text|;
    }
  }

  // `serial` tells two instances loaded for the same name apart.
  datatype Engine = Engine(name: Name, serial: nat)

  // `keys` is the OrderedDict's order, oldest first; `engines` its contents.
  datatype Cache = Cache(keys: seq<Name>, engines: map<Name, Engine>, refs: map<Name, nat>)

  const EMPTY_CACHE := Cache([], map[], map[])

  ghost predicate Consistent(c: Cache) {
    && NoDup(c.keys)
    && c.engines.Keys == Elems(c.keys)
    && (forall n | n in c.refs :: c.refs[n] > 0)
    && (forall n | n in c.engines :: c.engines[n].name == n)
  }

  function Pinned(refs: map<Name, nat>): set<Name> {
    set n | n in refs && refs[n] > 0
  }

  function Without(keys: seq<Name>, n: Name): seq<Name> {
    if keys == [] then []
    else if keys[0] == n then Without(keys[1..], n)
    else [keys[0]] + Without(keys[1..], n)
  }

  lemma {:induction false} WithoutMembers(keys: seq<Name>, n: Name)
    ensures forall k :: k in Without(keys, n) <==> k in keys && k != n
  {
    if keys != [] { WithoutMembers(keys[1..], n); }
  }

  lemma {:induction false} WithoutNoDup(keys: seq<Name>, n: Name)
    requires NoDup(keys)
    ensures NoDup(Without(keys, n)) && n !in Without(keys, n)
    ensures |Without(keys, n)| == if n in keys then |keys| - 1 else |keys|
    ensures Elems(Without(keys, n)) == Elems(keys) - {n}
  {
    WithoutMembers(keys, n);
    if keys != [] {
      WithoutMembers(keys[1..], n);
      WithoutNoDup(keys[1..], n);
      if keys[0] == n { WithoutAbsent(keys[1..], n); }
    }
  }

  lemma {:induction false} WithoutAbsent(keys: seq<Name>, n: Name)
    requires n !in keys
    ensures Without(keys, n) == keys
  {
    if keys != [] {
      WithoutAbsent(keys[1..], n);
      assert keys == [keys[0]] + keys[1..];
    }
  }

  lemma {:induction false} WithoutAppend(a: seq<Name>, b: seq<Name>, n: Name)
    ensures Without(a + b, n) == Without(a, n) + Without(b, n)
  {
    if a == [] {
      assert a + b == b;
    } else {
      WithoutAppend(a[1..], b, n);
      assert (a + b)[0] == a[0] && (a + b)[1..] == a[1..] + b;
      if a[0] != n {
        Regroup(a[0], Without(a[1..], n), Without(b, n));
      }
    }
  }

  lemma Regroup(x: Name, a: seq<Name>, b: seq<Name>)
    ensures [x] + (a + b) == ([x] + a) + b
  {
  }

  // ---- The eviction sweep ------------------------------------------------

  /** What a sweep that must remove `n` entries leaves of `keys`: the oldest
      entries outside `kept` go first, and entries in `kept` never go. */
  function DropOldest(keys: seq<Name>, kept: set<Name>, n: int): seq<Name> {
    if keys == [] || n <= 0 then keys
    else if keys[0] in kept then [keys[0]] + DropOldest(keys[1..], kept, n)
    else DropOldest(keys[1..], kept, n - 1)
  }

  function Restrict(engines: map<Name, Engine>, keys: seq<Name>): map<Name, Engine> {
    map n | n in engines && n in keys :: engines[n]
  }

  function Protected(refs: map<Name, nat>, protect: Option<Name>): set<Name> {
    Pinned(refs) + (if protect.Some? then {protect.value} else {})
  }

  function Sweep(c: Cache, cap: int, protect: Option<Name>): Cache {
    var keys := DropOldest(c.keys, Protected(c.refs, protect), |c.keys| - cap);
    c.(keys := keys, engines := Restrict(c.engines, keys))
  }

  /** The entries of `keys` inside (or outside) a set, in order. */
  function Among(keys: seq<Name>, names: set<Name>, inside: bool): seq<Name> {
    if keys == [] then []
    else if (keys[0] in names) == inside then [keys[0]] + Among(keys[1..], names, inside)
    else Among(keys[1..], names, inside)
  }

  lemma {:induction false} AmongMembers(keys: seq<Name>, names: set<Name>, inside: bool)
    ensures forall k :: k in Among(keys, names, inside) <==> k in keys && (k in names) == inside
  {
    if keys != [] { AmongMembers(keys[1..], names, inside); }
  }

  lemma {:induction false} AmongInOrder(keys: seq<Name>, names: set<Name>, inside: bool)
    ensures IsSubsequence(Among(keys, names, inside), keys)
  {
    if keys != [] {
      AmongInOrder(keys[1..], names, inside);
      SubsequenceSkip(Among(keys[1..], names, inside), keys[0], keys[1..]);
      assert keys == [keys[0]] + keys[1..];
    }
  }

  /** How many entries a sweep that must remove `n` does remove. */
  function Removable(keys: seq<Name>, kept: set<Name>, n: int): (gone: nat)
    ensures gone <= |Among(keys, kept, false)|
  {
    Min(Max(n, 0), |Among(keys, kept, false)|)
  }

  lemma {:induction false} SweepDropsOldest(keys: seq<Name>, kept: set<Name>, n: int)
    ensures Among(DropOldest(keys, kept, n), kept, false) == Among(keys, kept, false)[Removable(keys, kept, n)..]
  {
    if keys != [] && n > 0 {
      if keys[0] in kept {
        SweepDropsOldest(keys[1..], kept, n);
        assert ([keys[0]] + DropOldest(keys[1..], kept, n))[1..] == DropOldest(keys[1..], kept, n);
      } else {
        SweepDropsOldest(keys[1..], kept, n - 1);
      }
    }
  }

  lemma {:induction false} SweepSparesKept(keys: seq<Name>, kept: set<Name>, n: int)
    ensures Among(DropOldest(keys, kept, n), kept, true) == Among(keys, kept, true)
    ensures |DropOldest(keys, kept, n)| == |keys| - Removable(keys, kept, n)
  {
    if keys != [] && n > 0 {
      if keys[0] in kept {
        SweepSparesKept(keys[1..], kept, n);
        assert ([keys[0]] + DropOldest(keys[1..], kept, n))[1..] == DropOldest(keys[1..], kept, n);
      } else {
        SweepSparesKept(keys[1..], kept, n - 1);
      }
    }
  }

  lemma {:induction false} SweepKeepsOrder(keys: seq<Name>, kept: set<Name>, n: int)
    ensures IsSubsequence(DropOldest(keys, kept, n), keys)
  {
    if keys == [] || n <= 0 {
      SubsequenceReflexive(keys);
    } else if keys[0] in kept {
      SweepKeepsOrder(keys[1..], kept, n);
    } else {
      SweepKeepsOrder(keys[1..], kept, n - 1);
      SubsequenceSkip(DropOldest(keys[1..], kept, n - 1), keys[0], keys[1..]);
      assert keys == [keys[0]] + keys[1..];
    }
  }

  /** Sweep exactness: precisely the oldest min(excess, evictable) unprotected
      entries disappear, every protected one stays, and survivors keep their
      relative order. */
  lemma SweepExact(keys: seq<Name>, kept: set<Name>, n: int)
    ensures var evictable := Among(keys, kept, false);
            var gone := Min(Max(n, 0), |evictable|);
            && Among(DropOldest(keys, kept, n), kept, false) == evictable[gone..]
            && Among(DropOldest(keys, kept, n), kept, true) == Among(keys, kept, true)
            && IsSubsequence(DropOldest(keys, kept, n), keys)
            && |DropOldest(keys, kept, n)| == |keys| - gone
    ensures forall k :: k in Among(keys, kept, false) <==> k in keys && k !in kept
  {
    SweepDropsOldest(keys, kept, n);
    SweepSparesKept(keys, kept, n);
    SweepKeepsOrder(keys, kept, n);
    AmongMembers(keys, kept, false);
  }

  lemma {:induction false} AmongNoDup(keys: seq<Name>, names: set<Name>, inside: bool)
    requires NoDup(keys)
    ensures NoDup(Among(keys, names, inside))
  {
    if keys != [] {
      AmongNoDup(keys[1..], names, inside);
      AmongMembers(keys[1..], names, inside);
    }
  }

  /** The entries a sweep evicts: the oldest of the evictable ones. */
  function Evicted(c: Cache, cap: int, protect: Option<Name>): seq<Name> {
    var kept := Protected(c.refs, protect);
    Among(c.keys, kept, false)[..Removable(c.keys, kept, |c.keys| - cap)]
  }

  lemma SweptExactly(c: Cache, cap: int, protect: Option<Name>, n: Name)
    requires NoDup(c.keys)
    ensures n in Sweep(c, cap, protect).keys <==> n in c.keys && n !in Evicted(c, cap, protect)
  {
    var kept, excess := Protected(c.refs, protect), |c.keys| - cap;
    var left, evictable := DropOldest(c.keys, kept, excess), Among(c.keys, kept, false);
    var gone := Removable(c.keys, kept, excess);
    SweepDropsOldest(c.keys, kept, excess);
    SweepSparesKept(c.keys, kept, excess);
    AmongMembers(c.keys, kept, n in kept);
    AmongMembers(left, kept, n in kept);
    AmongMembers(c.keys, kept, false);
    AmongNoDup(c.keys, kept, false);
    assert evictable == evictable[..gone] + evictable[gone..];
    NoDupParts(evictable[..gone], evictable[gone..]);
  }

  lemma {:induction false} SubsequenceReflexive(keys: seq<Name>)
    ensures IsSubsequence(keys, keys)
  {
    if keys != [] { SubsequenceReflexive(keys[1..]); }
  }

  lemma {:induction false} DropOldestMembers(keys: seq<Name>, kept: set<Name>, n: int)
    ensures forall k | k in DropOldest(keys, kept, n) :: k in keys
    ensures forall k | k in keys && k in kept :: k in DropOldest(keys, kept, n)
  {
    if keys == [] || n <= 0 {
    } else if keys[0] in kept {
      DropOldestMembers(keys[1..], kept, n);
    } else {
      DropOldestMembers(keys[1..], kept, n - 1);
    }
  }

  lemma {:induction false} DropOldestNoDup(keys: seq<Name>, kept: set<Name>, n: int)
    requires NoDup(keys)
    ensures NoDup(DropOldest(keys, kept, n))
  {
    if keys == [] || n <= 0 {
    } else if keys[0] in kept {
      DropOldestMembers(keys[1..], kept, n);
      DropOldestNoDup(keys[1..], kept, n);
    } else {
      DropOldestNoDup(keys[1..], kept, n - 1);
    }
  }

  /** A kept entry at the newest end stays there. */
  lemma {:induction false} DropOldestKeepsLast(keys: seq<Name>, n: Name, kept: set<Name>, excess: int)
    requires n in kept
    ensures var left := DropOldest(keys + [n], kept, excess); left != [] && left[|left| - 1] == n
  {
    if keys == [] {
      assert keys + [n] == [n] && [n][1..] == [];
    } else {
      assert (keys + [n])[0] == keys[0] && (keys + [n])[1..] == keys[1..] + [n];
      DropOldestKeepsLast(keys[1..], n, kept, if keys[0] in kept then excess else excess - 1);
    }
  }

  /** The same sweep told the way the loop runs: `survivors` were passed over,
      `rest` is still to be looked at. */
  function SweepFrom(survivors: seq<Name>, rest: seq<Name>, kept: set<Name>, excess: int): seq<Name>
    decreases rest
  {
    if rest == [] || excess <= 0 then survivors + rest
    else if rest[0] in kept then SweepFrom(survivors + [rest[0]], rest[1..], kept, excess)
    else SweepFrom(survivors, rest[1..], kept, excess - 1)
  }

  lemma {:induction false} SweepFromMeaning(survivors: seq<Name>, rest: seq<Name>, kept: set<Name>, excess: int)
    ensures SweepFrom(survivors, rest, kept, excess) == survivors + DropOldest(rest, kept, excess)
    decreases rest
  {
    if rest == [] || excess <= 0 {
    } else if rest[0] in kept {
      SweepFromMeaning(survivors + [rest[0]], rest[1..], kept, excess);
    } else {
      SweepFromMeaning(survivors, rest[1..], kept, excess - 1);
    }
  }

  /** One turn of the sweeping loop, on the containers: entry `n` leaves both containers. */
  lemma RemoveMiddle(engines: map<Name, Engine>, a: seq<Name>, n: Name, b: seq<Name>)
    requires NoDup(a + ([n] + b))
    ensures Without(a + ([n] + b), n) == a + b && NoDup(a + b)
    ensures Restrict(engines, a + ([n] + b)) - {n} == Restrict(engines, a + b)
  {
    NoDupMiddle(a, n, b);
    WithoutAppend(a, [n] + b, n);
    WithoutAbsent(a, n);
    WithoutAbsent(b, n);
  }

  lemma SweepConsistent(c: Cache, cap: int, protect: Option<Name>)
    requires Consistent(c)
    ensures Consistent(Sweep(c, cap, protect))
  {
    DropOldestNoDup(c.keys, Protected(c.refs, protect), |c.keys| - cap);
    DropOldestMembers(c.keys, Protected(c.refs, protect), |c.keys| - cap);
  }

  /** After a sweep either the cache fits, or nothing evictable is left. */
  lemma SweepFitsOrAllKept(c: Cache, cap: int, protect: Option<Name>)
    ensures var s := Sweep(c, cap, protect);
            |s.keys| <= cap || forall k | k in s.keys :: k in Protected(c.refs, protect)
  {
    var kept := Protected(c.refs, protect);
    SweepExact(c.keys, kept, |c.keys| - cap);
    var s := Sweep(c, cap, protect);
    var evictable := Among(c.keys, kept, false);
    if |s.keys| > cap {
      assert Among(s.keys, kept, false) == [];
      AmongMembers(s.keys, kept, false);
      assert forall k | k in s.keys :: k in kept || k in Among(s.keys, kept, false);
    }
  }

  // ---- The locked sections -------------------------------------------------

  /** Lookup hit: move the entry to the newest end. */
  function Touch(c: Cache, n: Name): Cache
    requires n in c.engines
  {
    c.(keys := Without(c.keys, n) + [n])
  }

  /** The map and order just before an insertion's sweep. */
  function Landed(c: Cache, n: Name, loaded: Engine): Cache {
    var engines := if n in c.engines then c.engines else c.engines[n := loaded];
    Cache(Without(c.keys, n) + [n], engines, c.refs)
  }

  /** Second locked section of _get_or_load: the first instance to land stays,
      the entry becomes the newest, and one sweep runs that spares it. */
  function Insert(c: Cache, cap: int, n: Name, loaded: Engine): Cache {
    Sweep(Landed(c, n, loaded), cap, Some(n))
  }

  function Pin(c: Cache, n: Name): Cache {
    c.(refs := c.refs[n := (if n in c.refs then c.refs[n] else 0) + 1])
  }

  /** One reference less; a count that reaches zero loses its entry. */
  function Lowered(refs: map<Name, nat>, n: Name): map<Name, nat>
    requires n in refs
  {
    if refs[n] <= 1 then refs - {n} else refs[n := refs[n] - 1]
  }

  function Release(c: Cache, cap: int, n: Name): Cache
    requires n in c.refs
  {
    Sweep(c.(refs := Lowered(c.refs, n)), cap, None)
  }

  function Unload(c: Cache, n: Name): Cache {
    if n in c.refs && c.refs[n] > 0 then c
    else c.(keys := Without(c.keys, n), engines := c.engines - {n})
  }

  lemma TouchConsistent(c: Cache, n: Name)
    requires Consistent(c) && n in c.engines
    ensures Consistent(Touch(c, n))
    ensures Elems(Touch(c, n).keys) == Elems(c.keys)
  {
    WithoutNoDup(c.keys, n);
    NoDupSnoc(Without(c.keys, n), n);
  }

  /** The entry just inserted is never swept by its own insertion, so the final
      lookup succeeds, and it yields the instance that landed first. */
  lemma InsertConsistent(c: Cache, cap: int, n: Name, loaded: Engine)
    requires Consistent(c) && loaded.name == n
    ensures Consistent(Insert(c, cap, n, loaded))
    ensures n in Insert(c, cap, n, loaded).engines
    ensures Insert(c, cap, n, loaded).engines[n] == if n in c.engines then c.engines[n] else loaded
    ensures var keys := Insert(c, cap, n, loaded).keys; keys != [] && keys[|keys| - 1] == n
  {
    DropOldestKeepsLast(Without(c.keys, n), n, Protected(c.refs, Some(n)), |Landed(c, n, loaded).keys| - cap);
    LandedConsistent(c, n, loaded);
    SweepConsistent(Landed(c, n, loaded), cap, Some(n));
    DropOldestMembers(Landed(c, n, loaded).keys, Protected(c.refs, Some(n)), |Landed(c, n, loaded).keys| - cap);
  }

  lemma LandedConsistent(c: Cache, n: Name, loaded: Engine)
    requires Consistent(c) && loaded.name == n
    ensures Consistent(Landed(c, n, loaded))
  {
    WithoutNoDup(c.keys, n);
    NoDupSnoc(Without(c.keys, n), n);
  }

  lemma ReleaseConsistent(c: Cache, cap: int, n: Name)
    requires Consistent(c) && n in c.refs
    ensures Consistent(Release(c, cap, n))
  {
    SweepConsistent(c.(refs := Lowered(c.refs, n)), cap, None);
  }

  lemma UnloadConsistent(c: Cache, n: Name)
    requires Consistent(c)
    ensures Consistent(Unload(c, n))
  {
    WithoutNoDup(c.keys, n);
    assert forall k :: k in Elems(Without(c.keys, n)) <==> k in Elems(c.keys) && k != n;
  }
}
