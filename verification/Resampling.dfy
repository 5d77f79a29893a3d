// Linear-interpolation resampling of stt/utils/audio.py over exact rationals.
// Output sample j sits at input position j*n/m (n inputs, m outputs), so with
// j*n == i*m + r the interpolated value is the fraction
// (s[i]*(m-r) + s[i+1]*r) / m, truncated toward zero at the end.
module Resampling {
  import opened Common
  import opened PcmSamples

  /** Division that truncates toward zero, as a float-to-int16 cast does. */
  function Truncate(a: int, b: int): int
    requires b > 0
  {
    if a >= 0 then a / b else -((-a) / b)
  }

  /** Python's round: to the nearest integer, halves to the even one. */
  function RoundHalfEven(a: int, b: int): int
    requires b > 0
  {
    var q, r := a / b, a % b;
    if 2 * r < b then q
    else if 2 * r > b then q + 1
    else if q % 2 == 0 then q else q + 1
  }

  function OutputLength(n: nat, fromRate: nat, toRate: nat): (m: nat)
    requires fromRate > 0
    ensures m == 0 <==> n == 0
  {
    if fromRate == toRate || n == 0 then n
    else Max(1, RoundHalfEven(n * toRate, fromRate))
  }

  /** Where output sample j of m falls among n inputs: between inputs
      `index` and `index + 1`, `part` m-ths of the way. */
  datatype Position = Position(index: nat, part: nat)

  function PositionOf(j: nat, n: nat, m: nat): (p: Position)
    requires j < m && n > 0
    ensures p.index < n && p.part < m
    ensures j * n == p.index * m + p.part
  {
    PositionInside(j, n, m);
    Position((j * n) / m, (j * n) % m)
  }

  lemma PositionInside(j: nat, n: nat, m: nat)
    requires j < m && n > 0
    ensures 0 <= (j * n) / m < n
    ensures j * n == ((j * n) / m) * m + (j * n) % m
  {
    var q, r := (j * n) / m, (j * n) % m;
    assert j * n == q * m + r;
    NonNegativeProduct(j, n);
    QuotientOrder(0, 0, q, r, m);
    if q >= n {
      assert q * m - n * m == (q - n) * m;
      NonNegativeProduct(q - n, m);
      assert n * m - j * n == n * (m - j);
      ProductAtLeast(m - j, n);
    }
  }

  function Blend(a: int, b: int, part: nat, m: nat): int
    requires m > 0
  {
    Truncate(a * (m - part) + b * part, m)
  }

  /** np.interp at one position: clamped to the last sample past the end. */
  function Interpolated(s: seq<int>, p: Position, m: nat): int
    requires p.index < |s| && p.part < m
  {
    if p.index == |s| - 1 then s[p.index] else Blend(s[p.index], s[p.index + 1], p.part, m)
  }

  function Resample(s: seq<int>, fromRate: nat, toRate: nat): (out: seq<int>)
    requires fromRate > 0
    ensures |out| == OutputLength(|s|, fromRate, toRate)
  {
    if fromRate == toRate || |s| == 0 then s
    else
      var m := OutputLength(|s|, fromRate, toRate);
      seq(m, j requires 0 <= j < m => Interpolated(s, PositionOf(j, |s|, m), m))
  }

  // ---- Arithmetic --------------------------------------------------------------

  lemma TruncateExact(k: int, m: int)
    requires m > 0
    ensures Truncate(k * m, m) == k
  {
    if k >= 0 {
      MultipleHasNoRemainder(k, m);
    } else {
      MultipleHasNoRemainder(-k, m);
      assert -(k * m) == (-k) * m;
      assert k * m < 0;
    }
  }

  lemma TruncateMonotone(a: int, b: int, m: int)
    requires m > 0 && a <= b
    ensures Truncate(a, m) <= Truncate(b, m)
  {
    if a >= 0 {
      DivideMonotone(a, b, m);
    } else if b < 0 {
      DivideMonotone(-b, -a, m);
    } else {
      DivideMonotone(0, -a, m);
      DivideMonotone(0, b, m);
    }
  }

  lemma DivideMonotone(a: nat, b: nat, m: int)
    requires m > 0 && a <= b
    ensures 0 <= a / m <= b / m
  {
    QuotientOrder(a / m, a % m, b / m, b % m, m);
    QuotientOrder(0, 0, a / m, a % m, m);
  }

  lemma QuotientOrder(p: int, r: nat, q: int, t: nat, m: int)
    requires m > 0 && r < m && t < m && p * m + r <= q * m + t
    ensures p <= q && (p == q ==> r <= t)
  {
    if p > q {
      assert p * m - q * m == (p - q) * m;
      ProductAtLeast(p - q, m);
    }
  }

  lemma BlendBetween(a: int, b: int, part: nat, m: nat, lo: int, hi: int)
    requires part <= m && m > 0 && lo <= a <= hi && lo <= b <= hi
    ensures lo <= Blend(a, b, part, m) <= hi
  {
    var x := a * (m - part) + b * part;
    assert x - lo * m == (a - lo) * (m - part) + (b - lo) * part;
    assert hi * m - x == (hi - a) * (m - part) + (hi - b) * part;
    NonNegativeProduct(a - lo, m - part);
    NonNegativeProduct(b - lo, part);
    NonNegativeProduct(hi - a, m - part);
    NonNegativeProduct(hi - b, part);
    TruncateMonotone(lo * m, x, m);
    TruncateMonotone(x, hi * m, m);
    TruncateExact(lo, m);
    TruncateExact(hi, m);
  }

  /** RoundHalfEven is the nearest integer, and a tie goes to the even one. */
  lemma RoundIsNearest(a: int, b: int, k: int)
    requires b > 0
    ensures var q := RoundHalfEven(a, b);
            && -b <= 2 * (b * q - a) <= b
            && (2 * (b * q - a) == b || 2 * (b * q - a) == -b ==> q % 2 == 0)
            && (-b < 2 * (b * k - a) < b ==> k == q)
  {
    var q, r := a / b, a % b;
    assert a == b * q + r;
    var d := RoundHalfEven(a, b);
    assert d == q || d == q + 1;
    assert b * (q + 1) == b * q + b;
    if -b < 2 * (b * k - a) < b {
      assert b * k - a == (k - q) * b - r;
      ProductAtLeast(k - q, b);
      ProductAtLeast(k - q - 1, b);
    }
  }

  // ---- What resampling does to a signal ------------------------------------------

  predicate Nondecreasing(s: seq<int>) {
    forall i, j | 0 <= i <= j < |s| :: s[i] <= s[j]
  }

  /** Every output lies between the two inputs around its position, so no
      resampled signal leaves the range of the original. */
  lemma ResampledBetweenNeighbours(s: seq<int>, fromRate: nat, toRate: nat, j: nat)
    requires fromRate > 0 && fromRate != toRate && j < OutputLength(|s|, fromRate, toRate)
    ensures var m := OutputLength(|s|, fromRate, toRate);
            var i := PositionOf(j, |s|, m).index;
            var k := Min(i + 1, |s| - 1);
            Min(s[i], s[k]) <= Resample(s, fromRate, toRate)[j] <= Max(s[i], s[k])
  {
    var m := OutputLength(|s|, fromRate, toRate);
    var p := PositionOf(j, |s|, m);
    if p.index < |s| - 1 {
      var a, b := s[p.index], s[p.index + 1];
      BlendBetween(a, b, p.part, m, Min(a, b), Max(a, b));
    }
  }

  lemma NeighboursWithin(s: seq<int>, fromRate: nat, toRate: nat, j: nat, lo: int, hi: int)
    requires fromRate > 0 && fromRate != toRate && j < OutputLength(|s|, fromRate, toRate)
    requires forall x | x in s :: lo <= x <= hi
    ensures lo <= Resample(s, fromRate, toRate)[j] <= hi
  {
    var m := OutputLength(|s|, fromRate, toRate);
    InterpolatedWithin(s, PositionOf(j, |s|, m), m, lo, hi);
  }

  lemma InterpolatedWithin(s: seq<int>, p: Position, m: nat, lo: int, hi: int)
    requires p.index < |s| && p.part < m
    requires forall x | x in s :: lo <= x <= hi
    ensures lo <= Interpolated(s, p, m) <= hi
  {
    assert s[p.index] in s;
    if p.index < |s| - 1 {
      assert s[p.index + 1] in s;
      BlendBetween(s[p.index], s[p.index + 1], p.part, m, lo, hi);
    }
  }

  lemma ResampledWithin(s: seq<int>, fromRate: nat, toRate: nat, lo: int, hi: int)
    requires fromRate > 0 && forall x | x in s :: lo <= x <= hi
    ensures forall y | y in Resample(s, fromRate, toRate) :: lo <= y <= hi
  {
    if fromRate != toRate && |s| != 0 {
      var out := Resample(s, fromRate, toRate);
      forall y | y in out ensures lo <= y <= hi {
        var j :| 0 <= j < |out| && out[j] == y;
        NeighboursWithin(s, fromRate, toRate, j, lo, hi);
      }
    }
  }

  /** int16 stays int16, and a constant signal stays that constant. */
  lemma ResampleSafe(s: seq<int>, fromRate: nat, toRate: nat, c: int)
    requires fromRate > 0
    ensures AllInt16(s) ==> AllInt16(Resample(s, fromRate, toRate))
    ensures (forall x | x in s :: x == c) ==> forall y | y in Resample(s, fromRate, toRate) :: y == c
  {
    if AllInt16(s) { ResampledWithin(s, fromRate, toRate, -32768, 32767); }
    if forall x | x in s :: x == c { ResampledWithin(s, fromRate, toRate, c, c); }
  }

  lemma PositionsOrdered(j: nat, k: nat, n: nat, m: nat)
    requires j <= k < m && n > 0
    ensures var p, q := PositionOf(j, n, m), PositionOf(k, n, m);
            p.index < q.index || (p.index == q.index && p.part <= q.part)
  {
    var p, q := PositionOf(j, n, m), PositionOf(k, n, m);
    assert k * n - j * n == (k - j) * n;
    NonNegativeProduct(k - j, n);
    QuotientOrder(p.index, p.part, q.index, q.part, m);
  }

  /** A rising signal stays rising, through the clamped tail and truncation. */
  lemma ResamplePreservesOrder(s: seq<int>, fromRate: nat, toRate: nat)
    requires fromRate > 0 && Nondecreasing(s)
    ensures Nondecreasing(Resample(s, fromRate, toRate))
  {
    if fromRate != toRate && |s| != 0 {
      var out := Resample(s, fromRate, toRate);
      forall j, k | 0 <= j <= k < |out| ensures out[j] <= out[k] {
        OrderedOutputs(s, j, k, |out|);
      }
    }
  }

  lemma OrderedOutputs(s: seq<int>, j: nat, k: nat, m: nat)
    requires Nondecreasing(s) && |s| > 0 && j <= k < m
    ensures Interpolated(s, PositionOf(j, |s|, m), m) <= Interpolated(s, PositionOf(k, |s|, m), m)
  {
    PositionsOrdered(j, k, |s|, m);
    InterpolatedOrdered(s, PositionOf(j, |s|, m), PositionOf(k, |s|, m), m);
  }

  lemma BlendOrdered(a: int, b: int, part: nat, further: nat, m: nat)
    requires a <= b && part <= further <= m && m > 0
    ensures Blend(a, b, part, m) <= Blend(a, b, further, m)
  {
    assert (a * (m - further) + b * further) - (a * (m - part) + b * part) == (b - a) * (further - part);
    NonNegativeProduct(b - a, further - part);
    TruncateMonotone(a * (m - part) + b * part, a * (m - further) + b * further, m);
  }

  /** On a rising signal an interpolated value lies between its neighbours. */
  lemma InterpolatedAbove(s: seq<int>, p: Position, m: nat)
    requires Nondecreasing(s) && p.index < |s| && p.part < m
    ensures s[p.index] <= Interpolated(s, p, m)
    ensures p.index + 1 < |s| ==> Interpolated(s, p, m) <= s[p.index + 1]
  {
    if p.index + 1 < |s| {
      BlendBetween(s[p.index], s[p.index + 1], p.part, m, s[p.index], s[p.index + 1]);
    }
  }

  lemma InterpolatedOrdered(s: seq<int>, p: Position, q: Position, m: nat)
    requires Nondecreasing(s) && p.index < |s| && p.part < m && q.index < |s| && q.part < m
    requires p.index < q.index || (p.index == q.index && p.part <= q.part)
    ensures Interpolated(s, p, m) <= Interpolated(s, q, m)
  {
    if p.index < q.index {
      InterpolatedAbove(s, p, m);
      InterpolatedAbove(s, q, m);
    } else if p.index + 1 < |s| {
      BlendOrdered(s[p.index], s[p.index + 1], p.part, q.part, m);
    }
  }

  /** `q` is a / m without its fraction, whatever the sign of `a`. */
  predicate IsTruncation(q: int, a: int, m: int) {
    if a >= 0 then 0 <= a - q * m < m else 0 <= q * m - a < m
  }

  lemma TruncateMeaning(a: int, m: int)
    requires m > 0
    ensures IsTruncation(Truncate(a, m), a, m)
  {
    var d := if a >= 0 then a / m else (-a) / m;
    assert (if a >= 0 then a else -a) == d * m + (if a >= 0 then a else -a) % m;
    assert (-d) * m == -(d * m);
  }

  /** Linear interpolation, stated by its equation: where output j sits at input
      position i + part/m, it is s[i] + (s[i + 1] - s[i]) * part/m without the
      fraction, and past the last input it is the last input. */
  lemma ResampleIsLinear(s: seq<int>, fromRate: nat, toRate: nat, j: nat, i: nat, part: nat)
    requires fromRate > 0 && fromRate != toRate && j < OutputLength(|s|, fromRate, toRate)
    requires j * |s| == i * OutputLength(|s|, fromRate, toRate) + part && part < OutputLength(|s|, fromRate, toRate)
    ensures i < |s|
    ensures var m, out := OutputLength(|s|, fromRate, toRate), Resample(s, fromRate, toRate)[j];
            if i == |s| - 1 then out == s[i] else IsTruncation(out, s[i] * (m - part) + s[i + 1] * part, m)
  {
    var m := OutputLength(|s|, fromRate, toRate);
    PositionIs(j, |s|, m, i, part);
    InterpolatedIsLinear(s, Position(i, part), m);
  }

  lemma PositionIs(j: nat, n: nat, m: nat, i: nat, part: nat)
    requires j < m && n > 0 && j * n == i * m + part && part < m
    ensures PositionOf(j, n, m) == Position(i, part)
  {
    var p := PositionOf(j, n, m);
    QuotientOrder(p.index, p.part, i, part, m);
    QuotientOrder(i, part, p.index, p.part, m);
  }

  lemma InterpolatedIsLinear(s: seq<int>, p: Position, m: nat)
    requires p.index < |s| && p.part < m
    ensures if p.index == |s| - 1 then Interpolated(s, p, m) == s[p.index]
            else IsTruncation(Interpolated(s, p, m), s[p.index] * (m - p.part) + s[p.index + 1] * p.part, m)
  {
    if p.index < |s| - 1 {
      TruncateMeaning(s[p.index] * (m - p.part) + s[p.index + 1] * p.part, m);
    }
  }

  /** An output that lands exactly on an input reproduces it. */
  lemma ExactAtInput(s: seq<int>, j: nat, i: nat, m: nat)
    requires |s| > 0 && j < m && i < |s| && j * |s| == i * m
    ensures Interpolated(s, PositionOf(j, |s|, m), m) == s[i]
  {
    var p := PositionOf(j, |s|, m);
    SameQuotient(p.index, p.part, i, m);
    if i < |s| - 1 {
      TruncateExact(s[i], m);
      assert s[i] * (m - 0) + s[i + 1] * 0 == s[i] * m;
    }
  }

  lemma SameQuotient(q: nat, r: nat, i: nat, m: nat)
    requires r < m && q * m + r == i * m
    ensures q == i && r == 0
  {
    QuotientOrder(q, r, i, 0, m);
    QuotientOrder(i, 0, q, r, m);
  }

  lemma WholeRatioLength(n: nat, rate: nat, factor: nat)
    requires rate > 0 && factor > 1 && n > 0
    ensures OutputLength(n, rate, factor * rate) == factor * n
    ensures OutputLength(factor * n, factor * rate, rate) == n
  {
    RatesDiffer(rate, factor);
    assert n * (factor * rate) == (factor * n) * rate;
    MultipleHasNoRemainder(factor * n, rate);
    NonNegativeProduct(factor - 1, n - 1);
    assert factor * n >= 1;
    assert (factor * n) * rate == n * (factor * rate);
    MultipleHasNoRemainder(n, factor * rate);
  }

  /** Raising the rate by a whole factor and lowering it again gives back the
      signal itself. */
  lemma UpThenDown(s: seq<int>, rate: nat, factor: nat)
    requires rate > 0 && factor > 1
    ensures Resample(Resample(s, rate, factor * rate), factor * rate, rate) == s
  {
    if |s| > 0 {
      WholeRatioLength(|s|, rate, factor);
      var up := Resample(s, rate, factor * rate);
      var down := Resample(up, factor * rate, rate);
      forall j | 0 <= j < |s| ensures down[j] == s[j] {
        UpThenDownAt(s, rate, factor, j);
      }
    }
  }

  lemma UpThenDownAt(s: seq<int>, rate: nat, factor: nat, j: nat)
    requires rate > 0 && factor > 1 && j < |s|
    ensures var down := Resample(Resample(s, rate, factor * rate), factor * rate, rate);
            |down| == |s| && down[j] == s[j]
  {
    RatesDiffer(rate, factor);
    UpAndDown(s, rate, factor * rate, factor, j);
  }

  lemma UpAndDown(s: seq<int>, rate: nat, high: nat, factor: nat, j: nat)
    requires rate > 0 && factor > 1 && high == factor * rate && high > 0 && j < |s|
    ensures var down := Resample(Resample(s, rate, high), high, rate);
            |down| == |s| && down[j] == s[j]
  {
    UpAt(s, rate, factor, j);
    DownAt(Resample(s, rate, high), rate, factor, |s|, j);
  }

  lemma PlaceOf(j: nat, factor: nat, n: nat)
    requires j < n && factor > 1
    ensures 0 <= j * factor < factor * n
  {
    assert factor * n - j * factor == (n - j) * factor;
    ProductAtLeast(n - j, factor);
    NonNegativeProduct(j, factor);
  }

  /** After raising, input j is output j * factor. */
  lemma UpAt(s: seq<int>, rate: nat, factor: nat, j: nat)
    requires rate > 0 && factor > 1 && j < |s|
    ensures var up := Resample(s, rate, factor * rate);
            |up| == factor * |s| && 0 <= j * factor < |up| && up[j * factor] == s[j]
  {
    WholeRatioLength(|s|, rate, factor);
    RatesDiffer(rate, factor);
    PlaceOf(j, factor, |s|);
    MovedFactor(j, factor, |s|);
    ExactAtInput(s, j * factor, j, factor * |s|);
  }

  /** Lowering keeps every factor-th input. */
  lemma DownAt(up: seq<int>, rate: nat, factor: nat, n: nat, j: nat)
    requires rate > 0 && factor > 1 && j < n && |up| == factor * n
    ensures var down := Resample(up, factor * rate, rate);
            |down| == n && 0 <= j * factor < |up| && down[j] == up[j * factor]
  {
    WholeRatioLength(n, rate, factor);
    RatesDiffer(rate, factor);
    PlaceOf(j, factor, n);
    MovedFactor(j, factor, n);
    ExactAtInput(up, j, j * factor, n);
  }

  lemma MovedFactor(j: int, factor: int, n: int)
    ensures j * (factor * n) == (j * factor) * n
  {
  }

  lemma RatesDiffer(rate: nat, factor: nat)
    requires rate > 0 && factor > 1
    ensures factor * rate > rate
  {
    assert factor * rate == rate + (factor - 1) * rate;
    ProductAtLeast(factor - 1, rate);
  }

  // ---- Chunk-by-chunk drift --------------------------------------------------------

  function Sum(ns: seq<nat>): nat {
    if ns == [] then 0 else ns[0] + Sum(ns[1..])
  }

  lemma {:induction false} SumParts(n: nat, a: seq<nat>, b: seq<nat>)
    ensures Sum([]) == 0 && Sum([n]) == n && Sum(a + b) == Sum(a) + Sum(b)
  {
    assert [n][1..] == [];
    if a == [] {
      assert a + b == b;
    } else {
      SumParts(n, a[1..], b);
      assert (a + b)[1..] == a[1..] + b;
    }
  }

  function OutputLengths(ns: seq<nat>, fromRate: nat, toRate: nat): (ms: seq<nat>)
    requires fromRate > 0
    ensures |ms| == |ns|
  {
    if ns == [] then [] else [OutputLength(ns[0], fromRate, toRate)] + OutputLengths(ns[1..], fromRate, toRate)
  }

  predicate Within(x: int, bound: int) { -bound <= x <= bound }

  lemma OneChunkDrift(n: nat, fromRate: nat, toRate: nat)
    requires fromRate > 0
    ensures var m := OutputLength(n, fromRate, toRate);
            && Within(fromRate * m - toRate * n, fromRate)
            && (n == 0 || 2 * n * toRate >= fromRate ==> Within(2 * (fromRate * m - toRate * n), fromRate))
  {
    if fromRate == toRate || n == 0 {
    } else {
      var d := RoundHalfEven(n * toRate, fromRate);
      RoundIsNearest(n * toRate, fromRate, d);
      assert toRate * n == n * toRate;
      if d == 0 {
        assert fromRate * 1 == fromRate;
      }
    }
  }

  /** Resampling a recording chunk by chunk: the total length is off by at most
      half a sample per chunk if no nonempty chunk ideally shrinks below half a
      sample, and by at most one per chunk whatever the chunks are. */
  lemma {:induction false} DriftBound(ns: seq<nat>, fromRate: nat, toRate: nat)
    requires fromRate > 0
    ensures var drift: int := fromRate * Sum(OutputLengths(ns, fromRate, toRate)) - toRate * Sum(ns);
            && Within(drift, fromRate * |ns|)
            && ((forall n | n in ns :: n == 0 || 2 * n * toRate >= fromRate) ==> Within(2 * drift, fromRate * |ns|))
  {
    if ns != [] {
      var n, ms := ns[0], OutputLengths(ns[1..], fromRate, toRate);
      var m := OutputLength(n, fromRate, toRate);
      OneChunkDrift(n, fromRate, toRate);
      DriftBound(ns[1..], fromRate, toRate);
      assert OutputLengths(ns, fromRate, toRate)[1..] == ms;
      Distribute(fromRate, m, Sum(ms));
      Distribute(toRate, n, Sum(ns[1..]));
      Distribute(fromRate, 1, |ns| - 1);
      assert ns[0] in ns && forall k | k in ns[1..] :: k in ns;
    }
  }

  lemma Distribute(a: int, b: int, c: int)
    ensures a * (b + c) == a * b + a * c
  {
  }
}
