// The sample-width half of stt/utils/audio.py: PCM bytes to int16 samples and
// back, on real byte strings (little-endian, as numpy reads them on the
// platforms the services run on).
module PcmSamples {
  import opened Common

  type Byte = b: int | 0 <= b < 256
  type Bytes = seq<Byte>

  datatype AudioError = UnsupportedWidth(width: int) | CannotRemix | BadShape | ZeroRate

  predicate IsInt16(x: int) { -32768 <= x < 32768 }

  predicate AllInt16(samples: seq<int>) {
    forall x | x in samples :: IsInt16(x)
  }

  /** Two's complement: an unsigned value of the given modulus as a signed one. */
  function Signed(u: int, modulus: int): int {
    if 2 * u < modulus then u else u - modulus
  }

  function Unsigned(x: int, modulus: int): int {
    if x < 0 then x + modulus else x
  }

  // ---- Little-endian words -----------------------------------------------------

  function WordOf(bytes: Bytes): nat {
    if bytes == [] then 0 else bytes[0] + 256 * WordOf(bytes[1..])
  }

  function Power256(n: nat): (p: int)
    ensures p >= 1
  {
    if n == 0 then 1 else 256 * Power256(n - 1)
  }

  function BytesOf(word: int, width: nat): (bytes: Bytes)
    ensures |bytes| == width
    decreases width
  {
    if width == 0 then [] else [word % 256] + BytesOf(word / 256, width - 1)
  }

  lemma {:induction false} WordRoundTrip(bytes: Bytes)
    ensures 0 <= WordOf(bytes) < Power256(|bytes|)
    ensures BytesOf(WordOf(bytes), |bytes|) == bytes
  {
    if bytes != [] {
      WordRoundTrip(bytes[1..]);
      var w := WordOf(bytes);
      assert w % 256 == bytes[0] && w / 256 == WordOf(bytes[1..]);
    }
  }

  lemma {:induction false} BytesRoundTrip(word: int, width: nat)
    requires 0 <= word < Power256(width)
    ensures WordOf(BytesOf(word, width)) == word
  {
    if width != 0 {
      assert word / 256 < Power256(width - 1);
      BytesRoundTrip(word / 256, width - 1);
      assert BytesOf(word, width)[1..] == BytesOf(word / 256, width - 1);
    }
  }

  /** numpy's frombuffer for a signed word of `width` bytes. */
  function ReadWords(data: Bytes, width: nat): (words: seq<int>)
    requires width > 0 && |data| % width == 0
    decreases |data|
    ensures |words| * width == |data|
  {
    if data == [] then []
    else
      assert |data| >= width && |data[width..]| % width == 0 by { WholeWords(|data|, width); }
      [Signed(WordOf(data[..width]), Power256(width))] + ReadWords(data[width..], width)
  }

  lemma WholeWords(n: nat, width: nat)
    requires width > 0 && n % width == 0 && n > 0
    ensures n >= width && (n - width) % width == 0
  {
    var q := n / width;
    assert n == q * width;
    ProductAtLeast(q, width);
    assert n - width == (q - 1) * width + 0;
    MultipleHasNoRemainder(q - 1, width);
  }

  lemma MultipleHasNoRemainder(q: nat, width: nat)
    requires width > 0
    ensures (q * width) % width == 0 && (q * width) / width == q
  {
    var d, m := (q * width) / width, (q * width) % width;
    assert q * width == d * width + m;
    assert (q - d) * width == m;
    ProductAtLeast(q - d, width);
  }

  /** numpy's tobytes for signed words. */
  function WriteWords(words: seq<int>, width: nat): (data: Bytes)
    ensures |data| == |words| * width
  {
    if words == [] then []
    else BytesOf(Unsigned(words[0], Power256(width)), width) + WriteWords(words[1..], width)
  }

  lemma {:induction false} ReadThenWrite(data: Bytes, width: nat)
    requires width > 0 && |data| % width == 0
    ensures WriteWords(ReadWords(data, width), width) == data
    decreases |data|
  {
    if data != [] {
      WholeWords(|data|, width);
      ReadThenWrite(data[width..], width);
      WordRoundTrip(data[..width]);
      assert data == data[..width] + data[width..];
    }
  }

  /** Word k stands in the k-th group of `width` bytes. */
  lemma {:induction false} ReadWordsAt(data: Bytes, width: nat, k: nat)
    requires width > 0 && |data| % width == 0 && (k + 1) * width <= |data|
    ensures k < |ReadWords(data, width)| && 0 <= k * width <= (k + 1) * width
    ensures ReadWords(data, width)[k] == Signed(WordOf(data[k * width..(k + 1) * width]), Power256(width))
    decreases |data|
  {
    WholeWords(|data|, width);
    if k == 0 {
      assert data[0 * width..(0 + 1) * width] == data[..width];
    } else {
      var rest := data[width..];
      NextMultiple(k - 1, width);
      NextMultiple(k, width);
      ReadWordsAt(rest, width, k - 1);
      assert rest[(k - 1) * width..k * width] == data[k * width..(k + 1) * width];
    }
  }

  predicate Fits(words: seq<int>, width: nat) {
    forall w | w in words :: -Power256(width) <= 2 * w < Power256(width)
  }

  lemma {:induction false} WriteThenRead(words: seq<int>, width: nat)
    requires width > 0 && Fits(words, width)
    ensures |WriteWords(words, width)| % width == 0
    ensures ReadWords(WriteWords(words, width), width) == words
  {
    WrittenWhole(words, width);
    if words != [] {
      var rest := words[1..];
      assert words[0] in words && forall w | w in rest :: w in words;
      WriteThenRead(rest, width);
      OneWord(words[0], width);
      ReadFirst(BytesOf(Unsigned(words[0], Power256(width)), width), WriteWords(rest, width), width);
      assert words == [words[0]] + rest;
    }
  }

  lemma WrittenWhole(words: seq<int>, width: nat)
    requires width > 0
    ensures |WriteWords(words, width)| % width == 0
  {
    MultipleHasNoRemainder(|words|, width);
  }

  lemma OneWord(w: int, width: nat)
    requires -Power256(width) <= 2 * w < Power256(width)
    ensures Signed(WordOf(BytesOf(Unsigned(w, Power256(width)), width)), Power256(width)) == w
  {
    BytesRoundTrip(Unsigned(w, Power256(width)), width);
  }

  /** The first word is read off the first `width` bytes. */
  lemma ReadFirst(head: Bytes, tail: Bytes, width: nat)
    requires |head| == width > 0 && |tail| % width == 0 && |head + tail| % width == 0
    ensures ReadWords(head + tail, width) == [Signed(WordOf(head), Power256(width))] + ReadWords(tail, width)
  {
    assert (head + tail)[..width] == head && (head + tail)[width..] == tail;
  }

  // ---- To and from 16 bits -----------------------------------------------------

  function MapInts(f: int -> int, xs: seq<int>): (ys: seq<int>)
    ensures |ys| == |xs|
    ensures forall i | 0 <= i < |xs| :: ys[i] == f(xs[i])
  {
    seq(|xs|, i requires 0 <= i < |xs| => f(xs[i]))
  }

  function FromUnsigned8(u: int): int { (u - 128) * 256 }

  function ToUnsigned8(x: int): Byte { Clip(x / 256 + 128, 0, 255) }

  function Clip(x: int, lo: int, hi: int): int { Min(Max(x, lo), hi) }

  function ShiftDown16(x: int): int { x / 65536 }

  function ShiftUp16(x: int): int { x * 65536 }

  function Widen8(data: Bytes): (samples: seq<int>)
    ensures |samples| == |data|
    ensures forall i | 0 <= i < |data| :: samples[i] == FromUnsigned8(data[i])
  {
    seq(|data|, i requires 0 <= i < |data| => FromUnsigned8(data[i]))
  }

  function Narrow8(samples: seq<int>): (data: Bytes)
    ensures |data| == |samples|
    ensures forall i | 0 <= i < |samples| :: data[i] == ToUnsigned8(samples[i])
  {
    seq(|samples|, i requires 0 <= i < |samples| => ToUnsigned8(samples[i]))
  }

  /** _to_int16.  A buffer that is not a whole number of samples is refused. */
  function ToInt16(data: Bytes, width: int): Result<seq<int>, AudioError> {
    if width == 2 then
      if |data| % 2 == 0 then Ok(ReadWords(data, 2)) else Err(BadShape)
    else if width == 1 then Ok(Widen8(data))
    else if width == 4 then
      if |data| % 4 == 0 then Ok(MapInts(ShiftDown16, ReadWords(data, 4))) else Err(BadShape)
    else Err(UnsupportedWidth(width))
  }

  /** _from_int16. */
  function FromInt16(samples: seq<int>, width: int): Result<Bytes, AudioError>
    requires AllInt16(samples)
  {
    if width == 2 then Ok(WriteWords(samples, 2))
    else if width == 1 then Ok(Narrow8(samples))
    else if width == 4 then Ok(WriteWords(MapInts(ShiftUp16, samples), 4))
    else Err(UnsupportedWidth(width))
  }

  lemma {:induction false} ReadWordsFits(data: Bytes, width: nat)
    requires width > 0 && |data| % width == 0
    ensures Fits(ReadWords(data, width), width)
    decreases |data|
  {
    if data != [] {
      WholeWords(|data|, width);
      ReadWordsFits(data[width..], width);
      WordRoundTrip(data[..width]);
    }
  }

  lemma ShiftDownInt16(words: seq<int>)
    requires Fits(words, 4)
    ensures AllInt16(MapInts(ShiftDown16, words))
  {
    assert Power256(4) == 0x1_0000_0000;
    forall x | x in MapInts(ShiftDown16, words) ensures IsInt16(x) {
      var i :| 0 <= i < |words| && MapInts(ShiftDown16, words)[i] == x;
      assert words[i] in words;
    }
  }

  /** Every accepted width yields int16 samples. */
  lemma ToInt16Range(data: Bytes, width: int)
    requires ToInt16(data, width).Ok?
    ensures AllInt16(ToInt16(data, width).value)
    ensures |ToInt16(data, width).value| * width == |data|
  {
    assert Power256(2) == 65536;
    if width == 2 {
      ReadWordsFits(data, 2);
    } else if width == 4 {
      ReadWordsFits(data, 4);
      ShiftDownInt16(ReadWords(data, 4));
    }
  }

  /** The int16 value of a low and a high byte. */
  function TwoBytes(low: int, high: int): int {
    var word := low + 256 * high;
    if word < 32768 then word else word - 65536
  }

  /** What the bytes of sample i say: little-endian and signed, except that 8-bit
      samples are unsigned around 128; of a 32-bit sample the upper half counts. */
  lemma SampleBytes(data: Bytes, width: int, i: nat)
    requires ToInt16(data, width).Ok? && (i + 1) * width <= |data|
    ensures i < |ToInt16(data, width).value|
    ensures width == 1 ==> ToInt16(data, 1).value[i] == ((data[i] as int) - 128) * 256
    ensures width == 2 ==> ToInt16(data, 2).value[i] == TwoBytes(data[2 * i], data[2 * i + 1])
    ensures width == 4 ==> ToInt16(data, 4).value[i] == TwoBytes(data[4 * i + 2], data[4 * i + 3])
  {
    if width == 2 {
      ReadWordsAt(data, 2, i);
      ShortWord(data[i * 2..(i + 1) * 2]);
    } else if width == 4 {
      ReadWordsAt(data, 4, i);
      LongWord(data[i * 4..(i + 1) * 4]);
    }
  }

  lemma ShortWord(word: Bytes)
    requires |word| == 2
    ensures Signed(WordOf(word), Power256(2)) == TwoBytes(word[0], word[1])
  {
    assert WordOf(word[1..]) == word[1];
    assert Power256(2) == 65536;
  }

  lemma LongWord(word: Bytes)
    requires |word| == 4
    ensures ShiftDown16(Signed(WordOf(word), Power256(4))) == TwoBytes(word[2], word[3])
  {
    var low: int, high: int := word[0] + 256 * (word[1] as int), word[2] + 256 * (word[3] as int);
    assert WordOf(word[3..]) == word[3] && WordOf(word[2..]) == high;
    assert word[1..][1..] == word[2..] && word[2..][1..] == word[3..];
    assert WordOf(word) == low + 65536 * high;
    assert Power256(4) == 0x1_0000_0000;
    UpperHalf(low, high);
    UpperHalf(low, high - 65536);
    assert high < 32768 <==> 2 * (low + 65536 * high) < 0x1_0000_0000;
    assert Signed(WordOf(word), Power256(4)) == low + 65536 * TwoBytes(word[2], word[3]);
  }

  lemma UpperHalf(low: int, high: int)
    requires 0 <= low < 65536
    ensures (low + 65536 * high) / 65536 == high
  {
  }

  /** Exactly when _to_int16 succeeds. */
  lemma ToInt16Accepts(data: Bytes, width: int)
    ensures ToInt16(data, width).Ok? <==> (width == 1 || width == 2 || width == 4) && |data| % width == 0
  {
  }

  /** 8 bits to 16 and back is the identity, on every byte string. */
  lemma EightBitRoundTrip(data: Bytes)
    ensures ToInt16(data, 1).Ok? && AllInt16(ToInt16(data, 1).value)
    ensures FromInt16(ToInt16(data, 1).value, 1) == Ok(data)
  {
    ToInt16Range(data, 1);
    var back := FromInt16(ToInt16(data, 1).value, 1).value;
    forall i | 0 <= i < |data| ensures back[i] == data[i] {
      var u: int := data[i];
      assert ((u - 128) * 256) / 256 == u - 128;
    }
    assert back == data;
  }

  /** 16 bits to bytes and back is the identity, both ways round. */
  lemma SixteenBitRoundTrip(data: Bytes, samples: seq<int>)
    requires |data| % 2 == 0 && AllInt16(samples)
    ensures ToInt16(data, 2).Ok? && AllInt16(ToInt16(data, 2).value)
    ensures FromInt16(ToInt16(data, 2).value, 2) == Ok(data)
    ensures FromInt16(samples, 2).Ok? && ToInt16(FromInt16(samples, 2).value, 2) == Ok(samples)
  {
    ToInt16Range(data, 2);
    ReadThenWrite(data, 2);
    assert Power256(2) == 65536;
    WriteThenRead(samples, 2);
  }

  /** 16 bits to 32 and back is the identity on every int16 signal. */
  lemma ThirtyTwoBitRoundTrip(samples: seq<int>)
    requires AllInt16(samples)
    ensures FromInt16(samples, 4).Ok? && ToInt16(FromInt16(samples, 4).value, 4) == Ok(samples)
  {
    var words := MapInts(ShiftUp16, samples);
    assert Power256(4) == 0x1_0000_0000;
    forall w | w in words ensures -Power256(4) <= 2 * w < Power256(4) {
      var i :| 0 <= i < |words| && words[i] == w;
      assert IsInt16(samples[i]);
    }
    WriteThenRead(words, 4);
    var back := MapInts(ShiftDown16, words);
    forall i | 0 <= i < |samples| ensures back[i] == samples[i] {
      assert (samples[i] * 65536) / 65536 == samples[i];
    }
    assert back == samples;
  }

  /** 32 bits to 16 drops the low half of every sample, downward. */
  lemma ThirtyTwoBitNarrowing(data: Bytes)
    requires |data| % 4 == 0
    ensures ToInt16(data, 4).Ok? && |ToInt16(data, 4).value| == |ReadWords(data, 4)|
    ensures forall i | 0 <= i < |ReadWords(data, 4)| ::
              ToInt16(data, 4).value[i] * 65536 <= ReadWords(data, 4)[i] < ToInt16(data, 4).value[i] * 65536 + 65536
  {
  }

  /** 16 bits to 8 and back loses less than one 8-bit step, always downward,
      and the clip in between never changes a value. */
  lemma NarrowingLoss(samples: seq<int>)
    requires AllInt16(samples)
    ensures FromInt16(samples, 1).Ok?
    ensures var back := ToInt16(FromInt16(samples, 1).value, 1).value;
            && |back| == |samples|
            && (forall i | 0 <= i < |samples| :: back[i] <= samples[i] < back[i] + 256)
    ensures forall i | 0 <= i < |samples| :: ToUnsigned8(samples[i]) == samples[i] / 256 + 128
  {
    forall i | 0 <= i < |samples| ensures 0 <= samples[i] / 256 + 128 <= 255 {
      assert IsInt16(samples[i]);
    }
  }
}
