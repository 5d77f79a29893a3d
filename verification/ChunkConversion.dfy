// convert_chunks of stt/utils/audio.py: bringing a chunk of audio to the
// format the speech engine requires.
module ChunkConversion {
  import opened Common
  import opened PcmSamples
  import opened Resampling

  datatype Format = Format(sampleRate: nat, channels: int, sampleWidth: int)

  datatype AudioChunk = AudioChunk(data: Bytes, format: Format)

  function SumOf(xs: seq<int>): int {
    if xs == [] then 0 else xs[0] + SumOf(xs[1..])
  }

  /** One averaged frame: the mean of its channels, truncated toward zero. */
  function Mean(frame: seq<int>): int
    requires frame != []
  {
    Truncate(SumOf(frame), |frame|)
  }

  /** reshape(-1, channels).mean(axis=1).astype(int16) */
  function Downmix(samples: seq<int>, channels: nat): seq<int>
    requires channels > 0 && |samples| % channels == 0
    decreases |samples|
  {
    if samples == [] then []
    else
      assert |samples| >= channels && |samples[channels..]| % channels == 0 by { WholeWords(|samples|, channels); }
      [Mean(samples[..channels])] + Downmix(samples[channels..], channels)
  }

  lemma {:induction false} DownmixLength(samples: seq<int>, channels: nat)
    requires channels > 0 && |samples| % channels == 0
    ensures |Downmix(samples, channels)| * channels == |samples|
    decreases |samples|
  {
    if samples != [] {
      WholeWords(|samples|, channels);
      var rest := Downmix(samples[channels..], channels);
      DownmixLength(samples[channels..], channels);
      NextMultiple(|rest|, channels);
      assert |Downmix(samples, channels)| == |rest| + 1;
    }
  }

  function Remix(samples: seq<int>, channels: int, target: int): Result<seq<int>, AudioError> {
    if channels == target then Ok(samples)
    else if target != 1 then Err(CannotRemix)
    else if channels <= 0 || |samples| % channels != 0 then Err(BadShape)
    else Ok(Downmix(samples, channels))
  }

  function ChangeRate(samples: seq<int>, fromRate: nat, toRate: nat): Result<seq<int>, AudioError> {
    if fromRate == toRate || samples == [] then Ok(samples)
    else if fromRate == 0 then Err(ZeroRate)
    else Ok(Resample(samples, fromRate, toRate))
  }

  function ConvertChunk(chunk: AudioChunk, target: Format): Result<AudioChunk, AudioError> {
    if chunk.format == target then Ok(chunk)
    else
      match ToInt16(chunk.data, chunk.format.sampleWidth)
      case Err(e) => Err(e)
      case Ok(samples) =>
        match Remix(samples, chunk.format.channels, target.channels)
        case Err(e) => Err(e)
        case Ok(mixed) =>
          match ChangeRate(mixed, chunk.format.sampleRate, target.sampleRate)
          case Err(e) => Err(e)
          case Ok(resampled) =>
            assert AllInt16(resampled) by { StagesKeepInt16(chunk, target); }
            match FromInt16(resampled, target.sampleWidth)
            case Err(e) => Err(e)
            case Ok(data) => Ok(AudioChunk(data, target))
  }

  /** A missing target means the engine takes anything. */
  function ConvertChunks(chunks: seq<AudioChunk>, target: Option<Format>): Result<seq<AudioChunk>, AudioError> {
    if chunks == [] then Ok([])
    else
      match (if target.None? then Ok(chunks[0]) else ConvertChunk(chunks[0], target.value))
      case Err(e) => Err(e)
      case Ok(first) =>
        match ConvertChunks(chunks[1..], target)
        case Err(e) => Err(e)
        case Ok(rest) => Ok([first] + rest)
  }

  // ---- Downmixing -----------------------------------------------------------------

  lemma {:induction false} SumBetween(xs: seq<int>, lo: int, hi: int)
    requires forall x | x in xs :: lo <= x <= hi
    ensures lo * |xs| <= SumOf(xs) <= hi * |xs|
  {
    if xs != [] {
      assert xs[0] in xs && forall x | x in xs[1..] :: x in xs;
      SumBetween(xs[1..], lo, hi);
      Distribute(lo, 1, |xs| - 1);
      Distribute(hi, 1, |xs| - 1);
    }
  }

  /** SumOf really is a sum. */
  lemma {:induction false} SumOfParts(x: int, a: seq<int>, b: seq<int>)
    ensures SumOf([]) == 0 && SumOf([x]) == x && SumOf(a + b) == SumOf(a) + SumOf(b)
  {
    assert [x][1..] == [];
    if a == [] {
      assert a + b == b;
    } else {
      SumOfParts(x, a[1..], b);
      assert (a + b)[1..] == a[1..] + b;
    }
  }

  lemma SumAround(front: seq<int>, x: int, back: seq<int>)
    ensures SumOf(front + ([x] + back)) == x + SumOf(front + back)
  {
    SumOfParts(x, front, [x] + back);
    SumOfParts(x, [x], back);
    SumOfParts(x, front, back);
  }

  lemma SameRest(a: seq<int>, b: seq<int>, i: nat)
    requires multiset(a) == multiset(b) && a != [] && i < |b| && b[i] == a[0]
    ensures multiset(a[1..]) == multiset(b[..i] + b[i + 1..])
  {
    assert a == [a[0]] + a[1..];
    assert b == b[..i] + [b[i]] + b[i + 1..];
    assert multiset(a[1..]) == multiset(a) - multiset{a[0]};
    assert multiset(b[..i] + b[i + 1..]) == multiset(b) - multiset{b[i]};
  }

  /** Every channel counts alike: the order of the channels does not matter. */
  lemma {:induction false} SumOfAnyOrder(a: seq<int>, b: seq<int>)
    requires multiset(a) == multiset(b)
    ensures SumOf(a) == SumOf(b)
  {
    assert |multiset(a)| == |a| && |multiset(b)| == |b|;
    if a != [] {
      assert a[0] in multiset(b);
      var i :| 0 <= i < |b| && b[i] == a[0];
      SameRest(a, b, i);
      SumAround(b[..i], b[i], b[i + 1..]);
      assert b == b[..i] + ([b[i]] + b[i + 1..]);
      SumOfAnyOrder(a[1..], b[..i] + b[i + 1..]);
    }
  }

  /** What the mean of a frame is: its size times the mean is the sum of all its
      channels up to truncation, in whatever order they stand; for two channels,
      half their sum. */
  lemma MeanMeaning(a: seq<int>, b: seq<int>, left: int, right: int)
    requires a != [] && multiset(a) == multiset(b)
    ensures b != [] && Mean(a) == Mean(b)
    ensures IsTruncation(Mean([left, right]), left + right, 2)
  {
    assert |a| == |multiset(a)| && |b| == |multiset(b)|;
    SumOfAnyOrder(a, b);
    assert [left, right] == [left] + [right];
    SumOfParts(left, [left], [right]);
    SumOfParts(right, [], []);
    TruncateMeaning(left + right, 2);
  }

  /** A downmixed sample stays between the quietest and loudest channel. */
  lemma MeanBetween(frame: seq<int>, lo: int, hi: int)
    requires frame != [] && forall x | x in frame :: lo <= x <= hi
    ensures lo <= Mean(frame) <= hi
  {
    SumBetween(frame, lo, hi);
    TruncateMonotone(lo * |frame|, SumOf(frame), |frame|);
    TruncateMonotone(SumOf(frame), hi * |frame|, |frame|);
    TruncateExact(lo, |frame|);
    TruncateExact(hi, |frame|);
  }

  /** The mean is truncated toward zero. */
  lemma MeanIsTruncated(frame: seq<int>)
    requires frame != []
    ensures IsTruncation(Mean(frame), SumOf(frame), |frame|)
  {
    TruncateMeaning(SumOf(frame), |frame|);
  }

  /** Output frame k is made of exactly the k-th group of channel samples. */
  lemma {:induction false} DownmixFrame(samples: seq<int>, channels: nat, k: nat)
    requires channels > 0 && |samples| % channels == 0 && (k + 1) * channels <= |samples|
    ensures k < |Downmix(samples, channels)| && 0 <= k * channels <= (k + 1) * channels
    ensures Downmix(samples, channels)[k] == Mean(samples[k * channels..(k + 1) * channels])
    decreases |samples|
  {
    WholeWords(|samples|, channels);
    if k == 0 {
      assert samples[0 * channels..(0 + 1) * channels] == samples[..channels];
    } else {
      var rest := samples[channels..];
      NextMultiple(k - 1, channels);
      NextMultiple(k, channels);
      DownmixFrame(rest, channels, k - 1);
      SliceOfRest(samples, channels, (k - 1) * channels, k * channels);
      assert Downmix(samples, channels)[k] == Downmix(rest, channels)[k - 1];
    }
  }

  lemma SliceOfRest(samples: seq<int>, skip: nat, from: nat, to: nat)
    requires from <= to && skip + to <= |samples|
    ensures samples[skip..][from..to] == samples[skip + from..skip + to]
  {
  }

  lemma {:induction false} DownmixWithin(samples: seq<int>, channels: nat, lo: int, hi: int)
    requires channels > 0 && |samples| % channels == 0 && forall x | x in samples :: lo <= x <= hi
    ensures forall y | y in Downmix(samples, channels) :: lo <= y <= hi
    decreases |samples|
  {
    if samples != [] {
      WholeWords(|samples|, channels);
      assert forall x | x in samples[..channels] || x in samples[channels..] :: x in samples;
      MeanBetween(samples[..channels], lo, hi);
      DownmixWithin(samples[channels..], channels, lo, hi);
    }
  }

  // ---- The whole conversion ----------------------------------------------------------

  lemma StagesKeepInt16(chunk: AudioChunk, target: Format)
    ensures var samples := ToInt16(chunk.data, chunk.format.sampleWidth);
            samples.Ok? ==>
              (&& AllInt16(samples.value)
               && (var mixed := Remix(samples.value, chunk.format.channels, target.channels);
                   mixed.Ok? ==>
                     (&& AllInt16(mixed.value)
                      && (var resampled := ChangeRate(mixed.value, chunk.format.sampleRate, target.sampleRate);
                          resampled.Ok? ==> AllInt16(resampled.value)))))
  {
    var samples := ToInt16(chunk.data, chunk.format.sampleWidth);
    if samples.Ok? {
      ToInt16Range(chunk.data, chunk.format.sampleWidth);
      var mixed := Remix(samples.value, chunk.format.channels, target.channels);
      if mixed.Ok? {
        if chunk.format.channels != target.channels {
          DownmixWithin(samples.value, chunk.format.channels, -32768, 32767);
        }
        if chunk.format.sampleRate > 0 {
          ResampleSafe(mixed.value, chunk.format.sampleRate, target.sampleRate, 0);
        }
      }
    }
  }

  predicate KnownWidth(width: int) { width == 1 || width == 2 || width == 4 }

  /** Whether a chunk can be converted, in terms of its size and format alone. */
  predicate Convertible(size: nat, from: Format, target: Format) {
    from == target ||
    (&& KnownWidth(from.sampleWidth) && KnownWidth(target.sampleWidth)
     && size % from.sampleWidth == 0
     && (from.channels == target.channels ||
           (target.channels == 1 && from.channels > 0 && (size / from.sampleWidth) % from.channels == 0))
     && (from.sampleRate == target.sampleRate || size == 0 || from.sampleRate > 0))
  }

  /** What remixing does to the number of samples, and when it succeeds. */
  lemma RemixMeaning(samples: seq<int>, channels: int, target: int)
    ensures var r := Remix(samples, channels, target);
            && (r.Ok? <==> channels == target || (target == 1 && channels > 0 && |samples| % channels == 0))
            && (r.Ok? ==>
                  && |r.value| == (if channels == target then |samples| else |samples| / channels)
                  && (r.value == [] <==> samples == []))
  {
    var r := Remix(samples, channels, target);
    if r.Ok? && channels != target {
      DownmixLength(samples, channels);
      MultipleHasNoRemainder(|r.value|, channels);
      if r.value != [] { ProductAtLeast(|r.value|, channels); }
    }
  }

  /** What decoding does, and when it succeeds. */
  lemma DecodeMeaning(data: Bytes, width: int)
    ensures ToInt16(data, width).Ok? <==> KnownWidth(width) && |data| % width == 0
    ensures ToInt16(data, width).Ok? ==>
              && |ToInt16(data, width).value| == |data| / width
              && (ToInt16(data, width).value == [] <==> data == [])
  {
    ToInt16Accepts(data, width);
    if ToInt16(data, width).Ok? {
      ToInt16Range(data, width);
      MultipleHasNoRemainder(|ToInt16(data, width).value|, width);
    }
  }

  /** Exactly when conversion succeeds; then the result is in the target format
      and has the resampled number of frames. */
  lemma ConvertChunkMeaning(chunk: AudioChunk, target: Format)
    ensures ConvertChunk(chunk, target).Ok? <==> Convertible(|chunk.data|, chunk.format, target)
    ensures ConvertChunk(chunk, target).Ok? ==> ConvertChunk(chunk, target).value.format == target
    ensures chunk.format == target ==> ConvertChunk(chunk, target) == Ok(chunk)
    ensures ConvertChunk(chunk, target).Ok? && chunk.format != target && chunk.format.sampleRate > 0 ==>
              var n := |chunk.data| / chunk.format.sampleWidth;
              var frames := if chunk.format.channels == target.channels then n else n / chunk.format.channels;
              |ConvertChunk(chunk, target).value.data|
              == OutputLength(frames, chunk.format.sampleRate, target.sampleRate) * target.sampleWidth
  {
    if chunk.format != target {
      DecodeMeaning(chunk.data, chunk.format.sampleWidth);
      var samples := ToInt16(chunk.data, chunk.format.sampleWidth);
      if samples.Ok? {
        StagesKeepInt16(chunk, target);
        RemixMeaning(samples.value, chunk.format.channels, target.channels);
      }
    }
  }

  /** The samples of a chunk, downmixed if the channels differ and then resampled
      if the rates differ. */
  function Prepared(samples: seq<int>, from: Format, target: Format): Result<seq<int>, AudioError> {
    match Remix(samples, from.channels, target.channels)
    case Err(e) => Err(e)
    case Ok(mixed) => ChangeRate(mixed, from.sampleRate, target.sampleRate)
  }

  /** `coarse` is `fine` up to what 8 bits cannot hold. */
  predicate LosesAStep(coarse: seq<int>, fine: seq<int>) {
    |coarse| == |fine| && forall i | 0 <= i < |fine| :: coarse[i] <= fine[i] < coarse[i] + 256
  }

  lemma DecodesToPrepared(chunk: AudioChunk, target: Format)
    requires KnownWidth(chunk.format.sampleWidth) && |chunk.data| % chunk.format.sampleWidth == 0
    requires Convertible(|chunk.data|, chunk.format, target)
    ensures ToInt16(chunk.data, chunk.format.sampleWidth).Ok? && ConvertChunk(chunk, target).Ok?
    ensures var out := Prepared(ToInt16(chunk.data, chunk.format.sampleWidth).value, chunk.format, target);
            var decoded := ToInt16(ConvertChunk(chunk, target).value.data, target.sampleWidth);
            && out.Ok? && decoded.Ok?
            && (if target.sampleWidth == 1 then LosesAStep(decoded.value, out.value) else decoded == out)
  {
    ConvertChunkMeaning(chunk, target);
    ToInt16Accepts(chunk.data, chunk.format.sampleWidth);
    if chunk.format != target {
      StagesKeepInt16(chunk, target);
      var out := Prepared(ToInt16(chunk.data, chunk.format.sampleWidth).value, chunk.format, target).value;
      NarrowingLoss(out);
      SixteenBitRoundTrip([], out);
      ThirtyTwoBitRoundTrip(out);
    }
  }

  lemma PreparedWithin(samples: seq<int>, from: Format, target: Format, lo: int, hi: int)
    requires Prepared(samples, from, target).Ok? && forall x | x in samples :: lo <= x <= hi
    ensures forall y | y in Prepared(samples, from, target).value :: lo <= y <= hi
  {
    if from.channels != target.channels {
      DownmixWithin(samples, from.channels, lo, hi);
    }
    if from.sampleRate > 0 {
      ResampledWithin(Remix(samples, from.channels, target.channels).value, from.sampleRate, target.sampleRate, lo, hi);
    }
  }

  /** A conversion never leaves the range of what it is given, except downward by
      less than one 8-bit step when the target is 8 bits wide. */
  lemma ConvertedWithin(chunk: AudioChunk, target: Format, lo: int, hi: int)
    requires KnownWidth(chunk.format.sampleWidth) && |chunk.data| % chunk.format.sampleWidth == 0
    requires Convertible(|chunk.data|, chunk.format, target)
    ensures var samples := ToInt16(chunk.data, chunk.format.sampleWidth);
            var converted := ConvertChunk(chunk, target);
            && samples.Ok? && converted.Ok?
            && var decoded := ToInt16(converted.value.data, target.sampleWidth);
            && decoded.Ok?
            && ((forall x | x in samples.value :: lo <= x <= hi) ==>
                  forall y | y in decoded.value ::
                    (if target.sampleWidth == 1 then lo - 256 < y else lo <= y) && y <= hi)
  {
    DecodesToPrepared(chunk, target);
    var samples := ToInt16(chunk.data, chunk.format.sampleWidth).value;
    var out := Prepared(samples, chunk.format, target).value;
    var decoded := ToInt16(ConvertChunk(chunk, target).value.data, target.sampleWidth).value;
    if forall x | x in samples :: lo <= x <= hi {
      PreparedWithin(samples, chunk.format, target, lo, hi);
      forall y | y in decoded ensures (if target.sampleWidth == 1 then lo - 256 < y else lo <= y) && y <= hi {
        var i :| 0 <= i < |decoded| && decoded[i] == y;
        assert out[i] in out;
      }
    }
  }

  // ---- Whole recordings ----------------------------------------------------------------

  /** A stream of chunks, each in whatever format, converts exactly if every
      chunk does, and then chunk by chunk. */
  lemma {:induction false} ConvertChunksExactly(chunks: seq<AudioChunk>, target: Format)
    ensures var r := ConvertChunks(chunks, Some(target));
            && (r.Ok? <==> forall c | c in chunks :: Convertible(|c.data|, c.format, target))
            && (r.Ok? ==> |r.value| == |chunks| && forall i | 0 <= i < |chunks| ::
                            ConvertChunk(chunks[i], target) == Ok(r.value[i]) && r.value[i].format == target)
  {
    if chunks != [] {
      ConvertChunkMeaning(chunks[0], target);
      ConvertChunksExactly(chunks[1..], target);
      assert forall c :: c in chunks <==> c == chunks[0] || c in chunks[1..];
      var r := ConvertChunks(chunks, Some(target));
      if r.Ok? {
        var rest := ConvertChunks(chunks[1..], Some(target)).value;
        assert r.value == [ConvertChunk(chunks[0], target).value] + rest;
        assert forall i | 1 <= i < |chunks| :: chunks[i] == chunks[1..][i - 1];
      }
    }
  }

  /** `y` is the mean of the k-th group of channel samples. */
  predicate IsFrameMean(y: int, samples: seq<int>, channels: int, k: nat) {
    0 <= k * channels <= (k + 1) * channels <= |samples| &&
    var frame := samples[k * channels..(k + 1) * channels];
    frame != [] && y == Mean(frame)
  }

  /** One output per frame, its mean; nothing changes if the channels agree. */
  ghost predicate Mixed(mixed: seq<int>, samples: seq<int>, channels: int, target: int) {
    if channels == target then mixed == samples
    else
      && |mixed| * channels == |samples|
      && forall k | 0 <= k < |mixed| :: IsFrameMean(mixed[k], samples, channels, k)
  }

  lemma RemixMixes(samples: seq<int>, channels: int, target: int)
    requires Remix(samples, channels, target).Ok?
    ensures Mixed(Remix(samples, channels, target).value, samples, channels, target)
  {
    var mixed := Remix(samples, channels, target).value;
    if channels != target {
      DownmixLength(samples, channels);
      forall k | 0 <= k < |mixed| ensures IsFrameMean(mixed[k], samples, channels, k) {
        NextMultiple(k, channels);
        NonNegativeProduct(|mixed| - (k + 1), channels);
        assert (|mixed| - (k + 1)) * channels == |mixed| * channels - (k + 1) * channels;
        DownmixFrame(samples, channels, k);
      }
    }
  }

  /** What a converted chunk decodes to.  `mixed` is the chunk's own samples, or
      when the channel counts differ the mean of each frame; resampled, if the
      rates differ, they are what the result decodes to -- exactly, or less than
      one 8-bit step below them when the target is 8 bits wide. */
  lemma ConvertedSamples(chunk: AudioChunk, target: Format) returns (mixed: seq<int>)
    requires KnownWidth(chunk.format.sampleWidth) && |chunk.data| % chunk.format.sampleWidth == 0
    requires Convertible(|chunk.data|, chunk.format, target)
    ensures ToInt16(chunk.data, chunk.format.sampleWidth).Ok? && ConvertChunk(chunk, target).Ok?
    ensures |mixed| == SampleCount(|chunk.data|, chunk.format, target)
    ensures Mixed(mixed, ToInt16(chunk.data, chunk.format.sampleWidth).value, chunk.format.channels, target.channels)
    ensures var from, to := chunk.format.sampleRate, target.sampleRate;
            var out := if from > 0 then Resample(mixed, from, to) else mixed;
            var decoded := ToInt16(ConvertChunk(chunk, target).value.data, target.sampleWidth);
            && decoded.Ok?
            && (if target.sampleWidth == 1 then LosesAStep(decoded.value, out) else decoded.value == out)
  {
    DecodesToPrepared(chunk, target);
    DecodeMeaning(chunk.data, chunk.format.sampleWidth);
    var samples, channels := ToInt16(chunk.data, chunk.format.sampleWidth).value, chunk.format.channels;
    RemixMeaning(samples, channels, target.channels);
    mixed := Remix(samples, channels, target.channels).value;
    RemixMixes(samples, channels, target.channels);
  }

  /** How many samples, after downmixing, `size` bytes of one format hold. */
  function SampleCount(size: nat, from: Format, target: Format): nat
    requires KnownWidth(from.sampleWidth)
  {
    var n := size / from.sampleWidth;
    if from.channels == target.channels || from.channels <= 0 then n else n / from.channels
  }

  function SampleCounts(chunks: seq<AudioChunk>, from: Format, target: Format): (counts: seq<nat>)
    requires KnownWidth(from.sampleWidth)
    ensures |counts| == |chunks|
    ensures forall i | 0 <= i < |chunks| :: counts[i] == SampleCount(|chunks[i].data|, from, target)
  {
    seq(|chunks|, i requires 0 <= i < |chunks| => SampleCount(|chunks[i].data|, from, target))
  }

  lemma ConvertedCount(chunk: AudioChunk, target: Format)
    requires chunk.format.sampleRate > 0 && KnownWidth(chunk.format.sampleWidth)
    requires Convertible(|chunk.data|, chunk.format, target)
    ensures var from := chunk.format;
            && KnownWidth(target.sampleWidth) && ConvertChunk(chunk, target).Ok?
            && SampleCount(|ConvertChunk(chunk, target).value.data|, target, target)
               == OutputLength(SampleCount(|chunk.data|, from, target), from.sampleRate, target.sampleRate)
  {
    ConvertChunkMeaning(chunk, target);
    if chunk.format != target {
      MultipleHasNoRemainder(OutputLength(SampleCount(|chunk.data|, chunk.format, target),
                                          chunk.format.sampleRate, target.sampleRate), target.sampleWidth);
    }
  }

  lemma {:induction false} OutputLengthsAt(ns: seq<nat>, fromRate: nat, toRate: nat, i: nat)
    requires fromRate > 0 && i < |ns|
    ensures OutputLengths(ns, fromRate, toRate)[i] == OutputLength(ns[i], fromRate, toRate)
  {
    if i > 0 { OutputLengthsAt(ns[1..], fromRate, toRate, i - 1); }
  }

  /** A recording in one format, converted chunk by chunk to another: if every
      chunk can be converted nothing fails, every output is in the target format,
      and the number of samples drifts from the ideal by at most one per chunk,
      and by at most half of one if no nonempty chunk ideally shrinks below that. */
  lemma RecordingConversion(chunks: seq<AudioChunk>, from: Format, target: Format)
    requires from.sampleRate > 0 && KnownWidth(from.sampleWidth) && KnownWidth(target.sampleWidth)
    requires forall c | c in chunks :: c.format == from && Convertible(|c.data|, from, target)
    ensures var r := ConvertChunks(chunks, Some(target));
            && r.Ok? && |r.value| == |chunks|
            && (forall c | c in r.value :: c.format == target)
            && var ns := SampleCounts(chunks, from, target);
               var total := Sum(SampleCounts(r.value, target, target));
               var drift: int := from.sampleRate * total - target.sampleRate * Sum(ns);
               && Within(drift, from.sampleRate * |chunks|)
               && ((forall n | n in ns :: n == 0 || 2 * n * target.sampleRate >= from.sampleRate) ==>
                     Within(2 * drift, from.sampleRate * |chunks|))
  {
    ConvertChunksExactly(chunks, target);
    var r := ConvertChunks(chunks, Some(target)).value;
    var ns := SampleCounts(chunks, from, target);
    forall i | 0 <= i < |chunks|
      ensures SampleCounts(r, target, target)[i] == OutputLengths(ns, from.sampleRate, target.sampleRate)[i]
    {
      assert chunks[i] in chunks;
      ConvertedCount(chunks[i], target);
      OutputLengthsAt(ns, from.sampleRate, target.sampleRate, i);
    }
    assert SampleCounts(r, target, target) == OutputLengths(ns, from.sampleRate, target.sampleRate);
    DriftBound(ns, from.sampleRate, target.sampleRate);
  }

  /** Without a required format the audio passes through untouched. */
  lemma {:induction false} NoTargetNoChange(chunks: seq<AudioChunk>)
    ensures ConvertChunks(chunks, None) == Ok(chunks)
  {
    if chunks != [] {
      NoTargetNoChange(chunks[1..]);
      assert chunks == [chunks[0]] + chunks[1..];
    }
  }
}
