// With nobody holding a reference the cache is a textbook LRU cache.
module LeastRecentlyUsed {
  import opened Common
  import opened EngineCache

  /** One request by a caller that holds nothing: hit, or load and insert. */
  function Request(c: Cache, cap: int, n: Name, serial: nat): Cache {
    if n in c.engines then Touch(c, n) else Insert(c, cap, n, Engine(n, serial))
  }

  function Serve(requests: seq<Name>, cap: int): Cache {
    if requests == [] then EMPTY_CACHE
    else
      var earlier := |requests| - 1;
      Request(Serve(requests[..earlier], cap), cap, requests[earlier], earlier)
  }

  /** Reference definition: each requested name once, at its last use. */
  function ByLastUse(requests: seq<Name>): seq<Name> {
    if requests == [] then []
    else if requests[0] in requests[1..] then ByLastUse(requests[1..])
    else [requests[0]] + ByLastUse(requests[1..])
  }

  /** Where a name was last requested. */
  function LastUse(requests: seq<Name>, n: Name): (i: nat)
    requires n in requests
    ensures i < |requests| && requests[i] == n
  {
    if n in requests[1..] then 1 + LastUse(requests[1..], n) else 0
  }

  lemma {:induction false} LastUseIsLast(requests: seq<Name>, n: Name, k: nat)
    requires n in requests && LastUse(requests, n) < k < |requests|
    ensures requests[k] != n
  {
    if n in requests[1..] {
      LastUseIsLast(requests[1..], n, k - 1);
    } else {
      assert requests[k] == requests[1..][k - 1];
    }
  }

  lemma {:induction false} ByLastUseMembers(requests: seq<Name>)
    ensures NoDup(ByLastUse(requests)) && Elems(ByLastUse(requests)) == Elems(requests)
  {
    if requests != [] {
      var rest := requests[1..];
      ByLastUseMembers(rest);
      assert Elems(requests) == {requests[0]} + Elems(rest);
      if requests[0] !in rest {
        assert requests[0] !in Elems(ByLastUse(rest));
        assert Elems(ByLastUse(requests)) == {requests[0]} + Elems(ByLastUse(rest));
      }
    }
  }

  /** ByLastUse really lists the distinct requested names by last use. */
  lemma ByLastUseMeaning(requests: seq<Name>, i: nat, j: nat)
    requires i < j < |ByLastUse(requests)|
    ensures NoDup(ByLastUse(requests)) && Elems(ByLastUse(requests)) == Elems(requests)
    ensures ByLastUse(requests)[i] in requests && ByLastUse(requests)[j] in requests
    ensures LastUse(requests, ByLastUse(requests)[i]) < LastUse(requests, ByLastUse(requests)[j])
  {
    ByLastUseMembers(requests);
    LaterIsUsedLater(requests, i, j);
  }

  lemma UsedAt(requests: seq<Name>, i: nat)
    requires i < |ByLastUse(requests)|
    ensures ByLastUse(requests)[i] in requests
  {
    ByLastUseMembers(requests);
    assert ByLastUse(requests)[i] in Elems(ByLastUse(requests));
  }

  ghost predicate UsedLater(requests: seq<Name>, a: Name, b: Name) {
    a in requests && b in requests && LastUse(requests, a) < LastUse(requests, b)
  }

  lemma UsedLaterInRest(x: Name, rest: seq<Name>, a: Name, b: Name)
    requires UsedLater(rest, a, b)
    ensures UsedLater([x] + rest, a, b)
  {
    assert ([x] + rest)[1..] == rest;
  }

  lemma UsedLaterThanFirst(x: Name, rest: seq<Name>, b: Name)
    requires x !in rest && b in rest
    ensures UsedLater([x] + rest, x, b)
  {
    assert ([x] + rest)[1..] == rest;
  }

  lemma {:induction false} LaterIsUsedLater(requests: seq<Name>, i: nat, j: nat)
    requires i < j < |ByLastUse(requests)|
    ensures UsedLater(requests, ByLastUse(requests)[i], ByLastUse(requests)[j])
  {
    var x, rest := requests[0], requests[1..];
    assert requests == [x] + rest;
    if x in rest {
      LaterIsUsedLater(rest, i, j);
      UsedLaterInRest(x, rest, ByLastUse(rest)[i], ByLastUse(rest)[j]);
    } else if i > 0 {
      LaterIsUsedLater(rest, i - 1, j - 1);
      UsedLaterInRest(x, rest, ByLastUse(rest)[i - 1], ByLastUse(rest)[j - 1]);
    } else {
      UsedAt(rest, j - 1);
      UsedLaterThanFirst(x, rest, ByLastUse(rest)[j - 1]);
    }
  }

  lemma {:induction false} ByLastUseSnoc(requests: seq<Name>, n: Name)
    ensures ByLastUse(requests + [n]) == Without(ByLastUse(requests), n) + [n]
  {
    if requests == [] {
      assert requests + [n] == [n];
    } else {
      var rest := requests[1..];
      assert (requests + [n])[1..] == rest + [n];
      assert (requests + [n])[0] == requests[0];
      ByLastUseSnoc(rest, n);
      ByLastUseMembers(rest);
      assert requests[0] in rest + [n] <==> requests[0] in rest || requests[0] == n;
      if requests[0] !in rest {
        WithoutAppend([requests[0]], ByLastUse(rest), n);
        if requests[0] == n {
          assert n !in Elems(ByLastUse(rest));
          WithoutAbsent(ByLastUse(rest), n);
          assert Without([n], n) == [];
        }
      }
    }
  }

  /** The sweep after an insertion, with no references: only the oldest go. */
  lemma {:induction false} DropOldestUnpinned(keys: seq<Name>, n: Name, excess: int)
    requires n !in keys
    ensures DropOldest(keys + [n], {n}, excess) == LastN(keys + [n], Max(|keys| + 1 - Max(excess, 0), 1))
  {
    if keys == [] || excess <= 0 {
      if keys == [] && excess > 0 {
        assert keys + [n] == [n] && [n][1..] == [];
      }
    } else {
      DropOldestUnpinned(keys[1..], n, excess - 1);
      assert (keys + [n])[1..] == keys[1..] + [n];
      assert (keys + [n])[0] == keys[0];
    }
  }

  lemma SuffixSplit(all: seq<Name>, room: nat) returns (older: seq<Name>)
    ensures all == older + LastN(all, room)
    ensures |all| <= room ==> older == []
  {
    older := if |all| <= room then [] else all[..|all| - room];
  }

  /** Only the last `room` positions matter. */
  lemma LastNOfSuffix(a: seq<Name>, b: seq<Name>, n: Name, room: nat)
    requires room >= 1 && (a == [] || |b| + 1 >= room)
    ensures LastN((a + b) + [n], room) == LastN(b + [n], room)
  {
    assert (a + b) + [n] == a + (b + [n]);
  }

  /** What one request does to "the most recent `room` names". */
  lemma LastNAfterUse(all: seq<Name>, n: Name, room: nat)
    requires NoDup(all) && room >= 1
    ensures var recent := LastN(all, room);
            n in recent ==> LastN(Without(all, n) + [n], room) == Without(recent, n) + [n]
    ensures var recent := LastN(all, room);
            n !in recent ==> LastN(Without(all, n) + [n], room) == LastN(recent + [n], room)
  {
    var recent := LastN(all, room);
    var older := SuffixSplit(all, room);
    WithoutAppend(older, recent, n);
    NoDupParts(older, recent);
    if n in recent {
      WithoutAbsent(older, n);
      WithoutNoDup(recent, n);
      LastNOfSuffix(older, Without(recent, n), n, room);
    } else {
      WithoutAbsent(recent, n);
      WithoutNoDup(older, n);
      LastNOfSuffix(Without(older, n), recent, n, room);
    }
  }

  lemma MissInserts(c: Cache, cap: int, n: Name, loaded: Engine)
    requires c.refs == map[] && n !in c.keys
    ensures Insert(c, cap, n, loaded).keys == DropOldest(c.keys + [n], {n}, |c.keys| + 1 - cap)
  {
    WithoutAbsent(c.keys, n);
    assert Landed(c, n, loaded).keys == c.keys + [n];
    assert Protected(c.refs, Some(n)) == {n};
  }

  /** A load, with nothing referenced: insert and drop the oldest. */
  lemma MissRefines(c: Cache, cap: int, n: Name, loaded: Engine)
    requires c.refs == map[] && n !in c.keys
    ensures Insert(c, cap, n, loaded).keys == LastN(c.keys + [n], Max(cap, 1))
  {
    MissInserts(c, cap, n, loaded);
    DropOldestUnpinned(c.keys, n, |c.keys| + 1 - cap);
    LastNTwice(c.keys + [n], |c.keys| + 1 - cap, cap);
  }

  lemma RequestRefines(c: Cache, cap: int, n: Name, serial: nat, all: seq<Name>)
    requires Consistent(c) && c.refs == map[] && NoDup(all) && c.keys == LastN(all, Max(cap, 1))
    ensures Consistent(Request(c, cap, n, serial)) && Request(c, cap, n, serial).refs == map[]
    ensures Request(c, cap, n, serial).keys == LastN(Without(all, n) + [n], Max(cap, 1))
  {
    LastNAfterUse(all, n, Max(cap, 1));
    assert n in c.engines <==> n in c.keys;
    if n in c.engines {
      TouchConsistent(c, n);
    } else {
      InsertConsistent(c, cap, n, Engine(n, serial));
      MissRefines(c, cap, n, Engine(n, serial));
    }
  }

  lemma LastNTwice(keys: seq<Name>, excess: int, cap: int)
    requires |keys| >= 1 && excess == |keys| - cap
    ensures LastN(keys, Max(|keys| - Max(excess, 0), 1)) == LastN(keys, Max(cap, 1))
  {
  }

  /** LRU refinement: after any requests, at any capacity setting, the loaded
      names in order are exactly the max(cap, 1) most recently used ones. */
  lemma {:induction false} LruRefinement(requests: seq<Name>, cap: int)
    ensures Consistent(Serve(requests, cap)) && Serve(requests, cap).refs == map[]
    ensures Serve(requests, cap).keys == LastN(ByLastUse(requests), Max(cap, 1))
  {
    if requests != [] {
      var earlier, n := requests[..|requests| - 1], requests[|requests| - 1];
      assert requests == earlier + [n];
      LruRefinement(earlier, cap);
      ByLastUseSnoc(earlier, n);
      ByLastUseMembers(earlier);
      RequestRefines(Serve(earlier, cap), cap, n, |earlier|, ByLastUse(earlier));
    }
  }

  function LoadCount(requests: seq<Name>, cap: int): nat {
    if requests == [] then 0
    else
      var earlier := requests[..|requests| - 1];
      LoadCount(earlier, cap) + if requests[|requests| - 1] in Serve(earlier, cap).engines then 0 else 1
  }

  lemma {:induction false} LastNMembers(all: seq<Name>, room: nat)
    ensures Elems(LastN(all, room)) <= Elems(all)
    ensures |all| <= room ==> LastN(all, room) == all
  {
  }

  lemma OneMoreName(earlier: seq<Name>, n: Name)
    ensures Elems(earlier + [n]) == Elems(earlier) + {n}
    ensures |Elems(earlier + [n])| == |Elems(earlier)| + if n in Elems(earlier) then 0 else 1
  {
    assert Elems(earlier + [n]) == Elems(earlier) + {n};
  }

  lemma LoadStep(earlier: seq<Name>, n: Name, cap: int)
    ensures LoadCount(earlier + [n], cap)
         == LoadCount(earlier, cap) + if n in Serve(earlier, cap).engines.Keys then 0 else 1
  {
    var requests := earlier + [n];
    assert requests[..|requests| - 1] == earlier;
  }

  /** Every name is loaded at least once and every request loads at most once;
      with room for all the names none is loaded twice. */
  lemma {:induction false} LoadBounds(requests: seq<Name>, cap: int)
    ensures |Elems(requests)| <= LoadCount(requests, cap) <= |requests|
    ensures |Elems(requests)| <= Max(cap, 1) ==> LoadCount(requests, cap) == |Elems(requests)|
  {
    if requests == [] {
      assert Elems(requests) == {};
    } else {
      var earlier, n := requests[..|requests| - 1], requests[|requests| - 1];
      assert requests == earlier + [n];
      LoadBounds(earlier, cap);
      LoadedWereRequested(earlier, cap);
      OneMoreName(earlier, n);
      LoadStep(earlier, n, cap);
    }
  }

  lemma LoadedWereRequested(requests: seq<Name>, cap: int)
    ensures Serve(requests, cap).engines.Keys <= Elems(requests)
    ensures |Elems(requests)| <= Max(cap, 1) ==> Serve(requests, cap).engines.Keys == Elems(requests)
  {
    LruRefinement(requests, cap);
    ByLastUseMembers(requests);
    NoDupCardinality(ByLastUse(requests));
    LastNMembers(ByLastUse(requests), Max(cap, 1));
  }

  lemma LargerHoldsSmaller(requests: seq<Name>, cap: int, larger: int)
    requires cap <= larger
    ensures Serve(requests, cap).keys == LastN(Serve(requests, larger).keys, Max(cap, 1))
    ensures Serve(requests, cap).engines.Keys <= Serve(requests, larger).engines.Keys
  {
    LruRefinement(requests, cap);
    LruRefinement(requests, larger);
    var small, large := Serve(requests, cap), Serve(requests, larger);
    LastNOfLastN(ByLastUse(requests), Max(cap, 1), Max(larger, 1));
    assert forall n | n in small.keys :: n in large.keys;
  }

  lemma LastNOfLastN(xs: seq<Name>, n: nat, m: nat)
    requires n <= m
    ensures LastN(xs, n) == LastN(LastN(xs, m), n)
  {
  }

  /** Inclusion: a larger capacity holds everything a smaller one holds, as
      its newest part, and so never loads more often. */
  lemma {:induction false} LargerCacheIncludesSmaller(requests: seq<Name>, cap: int, larger: int)
    requires cap <= larger
    ensures Serve(requests, cap).keys == LastN(Serve(requests, larger).keys, Max(cap, 1))
    ensures Serve(requests, cap).engines.Keys <= Serve(requests, larger).engines.Keys
    ensures LoadCount(requests, larger) <= LoadCount(requests, cap)
  {
    LargerHoldsSmaller(requests, cap, larger);
    if requests != [] {
      LargerHoldsSmaller(requests[..|requests| - 1], cap, larger);
      LargerCacheIncludesSmaller(requests[..|requests| - 1], cap, larger);
    }
  }
}
