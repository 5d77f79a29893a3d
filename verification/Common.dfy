// Small vocabulary shared by every module: options, results and the
// sequence notions the properties are phrased with.
module Common {

  datatype Option<+T> = None | Some(value: T)

  datatype Result<+T, +E> = Ok(value: T) | Err(error: E)

  function Max(a: int, b: int): int { if a < b then b else a }

  function Min(a: int, b: int): int { if a < b then a else b }

  lemma NonNegativeProduct(a: int, b: int)
    requires a >= 0 && b >= 0
    ensures a * b >= 0
  {
  }

  lemma ProductAtLeast(k: int, m: int)
    requires m > 0
    ensures k >= 1 ==> k * m >= m
    ensures k <= -1 ==> k * m <= -m
  {
    if k >= 1 { NonNegativeProduct(k - 1, m); }
    if k <= -1 { NonNegativeProduct(-k - 1, m); }
  }

  lemma NextMultiple(k: int, m: int)
    ensures (k + 1) * m == k * m + m
  {
  }

  predicate NoDup<T(==)>(xs: seq<T>) {
    xs == [] || (xs[0] !in xs[1..] && NoDup(xs[1..]))
  }

  lemma {:induction false} NoDupSnoc<T>(xs: seq<T>, x: T)
    requires NoDup(xs) && x !in xs
    ensures NoDup(xs + [x]) && Elems(xs + [x]) == Elems(xs) + {x}
  {
    assert forall y :: y in xs + [x] <==> y in xs || y == x;
    if xs != [] {
      NoDupSnoc(xs[1..], x);
      assert (xs + [x])[1..] == xs[1..] + [x];
    }
  }

  lemma {:induction false} NoDupMiddle<T>(a: seq<T>, x: T, b: seq<T>)
    requires NoDup(a + ([x] + b))
    ensures x !in a && x !in b && NoDup(a + b)
  {
    if a == [] {
      assert a + ([x] + b) == [x] + b && ([x] + b)[1..] == b && a + b == b;
    } else {
      assert (a + ([x] + b))[1..] == a[1..] + ([x] + b);
      assert x in a[1..] + ([x] + b);
      NoDupMiddle(a[1..], x, b);
      assert (a + b)[1..] == a[1..] + b;
      assert forall y | y in a[1..] + b :: y in a[1..] + ([x] + b);
    }
  }

  lemma {:induction false} NoDupParts<T>(a: seq<T>, b: seq<T>)
    requires NoDup(a + b)
    ensures NoDup(a) && NoDup(b) && forall x | x in b :: x !in a
  {
    if a == [] {
      assert a + b == b;
    } else {
      assert (a + b)[1..] == a[1..] + b;
      NoDupParts(a[1..], b);
      assert forall x | x in b || x in a[1..] :: x in a[1..] + b;
    }
  }

  /** No position repeats an earlier one. */
  lemma {:induction false} NoDupAt<T>(xs: seq<T>, i: nat, j: nat)
    requires NoDup(xs) && i < j < |xs|
    ensures xs[i] != xs[j]
  {
    if i == 0 {
      assert xs[j] == xs[1..][j - 1];
    } else {
      NoDupAt(xs[1..], i - 1, j - 1);
    }
  }

  function Elems<T>(xs: seq<T>): set<T> {
    set x | x in xs
  }

  /** A duplicate-free sequence has as many members as positions. */
  lemma {:induction false} NoDupCardinality<T>(xs: seq<T>)
    requires NoDup(xs)
    ensures |Elems(xs)| == |xs|
  {
    if xs == [] {
      assert Elems(xs) == {};
    } else {
      NoDupCardinality(xs[1..]);
      assert Elems(xs) == {xs[0]} + Elems(xs[1..]);
    }
  }

  /** The last `n` elements (all of them when there are fewer). */
  function LastN<T>(xs: seq<T>, n: nat): (r: seq<T>)
    ensures |r| == Min(|xs|, n)
  {
    if |xs| <= n then xs else xs[|xs| - n..]
  }

  /** `xs` can be had from `ys` by deleting elements. */
  predicate IsSubsequence<T(==)>(xs: seq<T>, ys: seq<T>) {
    if xs == [] then true
    else if ys == [] then false
    else if xs[0] == ys[0] then IsSubsequence(xs[1..], ys[1..])
    else IsSubsequence(xs, ys[1..])
  }

  lemma {:induction false} SubsequenceDropHead<T>(xs: seq<T>, ys: seq<T>)
    requires xs != [] && IsSubsequence(xs, ys)
    ensures IsSubsequence(xs[1..], ys)
    decreases ys, 0
  {
    if xs[0] == ys[0] {
      if |xs| > 1 {
        SubsequenceSkip(xs[1..], ys[0], ys[1..]);
        assert [ys[0]] + ys[1..] == ys;
      }
    } else {
      SubsequenceDropHead(xs, ys[1..]);
      SubsequenceSkip(xs[1..], ys[0], ys[1..]);
      assert [ys[0]] + ys[1..] == ys;
    }
  }

  lemma {:induction false} SubsequenceSkip<T>(xs: seq<T>, y: T, ys: seq<T>)
    requires IsSubsequence(xs, ys)
    ensures IsSubsequence(xs, [y] + ys)
    decreases ys, 1
  {
    assert ([y] + ys)[1..] == ys;
    if xs != [] && xs[0] == y {
      SubsequenceDropHead(xs, ys);
    }
  }

  lemma {:induction false} SubsequenceAppendRight<T>(xs: seq<T>, ys: seq<T>, zs: seq<T>)
    requires IsSubsequence(xs, ys)
    ensures IsSubsequence(xs, ys + zs)
    decreases |ys|
  {
    if xs == [] {
    } else {
      assert (ys + zs)[1..] == ys[1..] + zs;
      if xs[0] == ys[0] {
        SubsequenceAppendRight(xs[1..], ys[1..], zs);
      } else {
        SubsequenceAppendRight(xs, ys[1..], zs);
      }
    }
  }

  lemma {:induction false} SubsequenceAppendBoth<T>(xs: seq<T>, ys: seq<T>, z: T)
    requires IsSubsequence(xs, ys)
    ensures IsSubsequence(xs + [z], ys + [z])
    decreases |ys|
  {
    if ys == [] {
      assert xs == [];
      assert xs + [z] == [z] && ys + [z] == [z];
    } else {
      assert (ys + [z])[1..] == ys[1..] + [z];
      if xs == [] {
        SubsequenceAppendBoth([], ys[1..], z);
        assert [] + [z] == [z];
        SubsequenceSkip([z], ys[0], ys[1..] + [z]);
        assert ys + [z] == [ys[0]] + (ys[1..] + [z]);
        assert xs + [z] == [z];
      } else {
        assert (xs + [z])[1..] == xs[1..] + [z];
        if xs[0] == ys[0] {
          SubsequenceAppendBoth(xs[1..], ys[1..], z);
        } else {
          SubsequenceAppendBoth(xs, ys[1..], z);
        }
      }
    }
  }

  lemma {:induction false} SubsequenceDropLast<T>(xs: seq<T>, ys: seq<T>)
    requires xs != [] && IsSubsequence(xs, ys)
    ensures IsSubsequence(xs[..|xs| - 1], ys)
    decreases |ys|
  {
    if |xs| > 1 {
      assert xs[..|xs| - 1][1..] == xs[1..][..|xs| - 2];
      if xs[0] == ys[0] { SubsequenceDropLast(xs[1..], ys[1..]); } else { SubsequenceDropLast(xs, ys[1..]); }
    }
  }

  /** Where the elements of a subsequence stand: at increasing positions. */
  lemma {:induction false} SubsequencePositions<T>(xs: seq<T>, ys: seq<T>) returns (at: seq<nat>)
    requires IsSubsequence(xs, ys)
    ensures |at| == |xs| && forall k | 0 <= k < |xs| :: at[k] < |ys| && ys[at[k]] == xs[k]
    ensures forall j, k | 0 <= j < k < |xs| :: at[j] < at[k]
    decreases |ys|
  {
    if xs == [] {
      at := [];
    } else {
      var rest := SubsequencePositions(if xs[0] == ys[0] then xs[1..] else xs, ys[1..]);
      var later := seq(|rest|, k requires 0 <= k < |rest| => rest[k] + 1);
      at := if xs[0] == ys[0] then [0] + later else later;
    }
  }

  /** A subsequence has nothing more often than the whole. */
  lemma {:induction false} SubsequenceCounts<T>(xs: seq<T>, ys: seq<T>)
    requires IsSubsequence(xs, ys)
    ensures multiset(xs) <= multiset(ys)
    decreases |ys|
  {
    if xs != [] {
      assert ys == [ys[0]] + ys[1..] && xs == [xs[0]] + xs[1..];
      SubsequenceCounts(if xs[0] == ys[0] then xs[1..] else xs, ys[1..]);
    }
  }

  /** Concatenation of a sequence of sequences, in order. */
  function Flatten<T>(xss: seq<seq<T>>): seq<T> {
    if xss == [] then [] else xss[0] + Flatten(xss[1..])
  }

  lemma {:induction false} FlattenAppend<T>(xss: seq<seq<T>>, yss: seq<seq<T>>)
    ensures Flatten(xss + yss) == Flatten(xss) + Flatten(yss)
  {
    if xss == [] {
      assert xss + yss == yss;
    } else {
      FlattenAppend(xss[1..], yss);
      assert (xss + yss)[1..] == xss[1..] + yss;
      assert (xss + yss)[0] == xss[0];
    }
  }

  /** The sum of a weight over a sequence. */
  function Tally<T>(xs: seq<T>, w: T -> nat): nat {
    if xs == [] then 0 else w(xs[0]) + Tally(xs[1..], w)
  }

  lemma {:induction false} TallySnoc<T>(xs: seq<T>, x: T, w: T -> nat)
    ensures Tally(xs + [x], w) == Tally(xs, w) + w(x)
  {
    if xs == [] {
      assert xs + [x] == [x];
    } else {
      assert (xs + [x])[0] == xs[0] && (xs + [x])[1..] == xs[1..] + [x];
      TallySnoc(xs[1..], x, w);
    }
  }

  lemma {:induction false} TallyUpdate<T>(xs: seq<T>, i: nat, x: T, w: T -> nat)
    requires i < |xs|
    ensures Tally(xs[i := x], w) == Tally(xs, w) - w(xs[i]) + w(x)
  {
    if i == 0 {
      assert xs[i := x][1..] == xs[1..];
    } else {
      TallyUpdate(xs[1..], i - 1, x, w);
      assert xs[i := x][1..] == xs[1..][i - 1 := x];
    }
  }
}
