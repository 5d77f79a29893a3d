// stt/grpc_servicer.py: cutting an incoming audio stream into windows and
// emitting one transcript event per window.
module SpeechWindows {
  import opened Common
  import opened PcmSamples
  import opened ChunkConversion

  // One request message; `cancelled` is what the context says when it arrives.
  datatype Message = Message(chunk: AudioChunk, endOfUtterance: bool, cancelled: bool)

  datatype Transcribed =
    | Transcript(text: string)
    | FormatRefused(reason: string)
    | Crashed(reason: string)

  datatype Acquired = Engine | MissingModel(reason: string) | NoEngine(reason: string)

  /** The engine and the audio format it requires. */
  datatype Service = Service(transcribe: seq<AudioChunk> -> Transcribed, required: Option<Format>)

  datatype Event = Partial(text: string) | Final(text: string) | ErrorEvent(code: string)

  const WINDOW_SECONDS := 5

  function ByteCount(chunks: seq<AudioChunk>): nat {
    if chunks == [] then 0 else |chunks[0].data| + ByteCount(chunks[1..])
  }

  /** Bytes per second by the first chunk's format, which the whole buffer is
      measured with. */
  function BytesPerSecond(chunk: AudioChunk): int {
    chunk.format.sampleRate * chunk.format.channels * chunk.format.sampleWidth
  }

  /** calculate_duration(buffer) >= WINDOW_SECONDS, as an exact comparison. */
  predicate LongEnough(buffer: seq<AudioChunk>)
    requires buffer != []
  {
    var rate := BytesPerSecond(buffer[0]);
    rate > 0 && ByteCount(buffer) >= WINDOW_SECONDS * rate
  }

  datatype Window = Window(chunks: seq<AudioChunk>, final: bool)

  // `consumed` counts the messages whose chunk entered the buffer.
  datatype Progress = Progress(buffer: seq<AudioChunk>, events: seq<Event>, windows: seq<Window>,
                               consumed: nat, stopped: bool)

  const FRESH := Progress([], [], [], 0, false)

  function AudioErrorCode(e: AudioError): string {
    if e.UnsupportedWidth? || e.CannotRemix? then "invalid_audio_format" else "internal_error"
  }

  function Stop(p: Progress, code: string): Progress {
    p.(events := p.events + [ErrorEvent(code)], stopped := true)
  }

  /** The body of the window branch: convert, transcribe, emit, clear. */
  function EmitWindow(p: Progress, final: bool, s: Service): Progress {
    match ConvertChunks(p.buffer, s.required)
    case Err(e) => Stop(p, AudioErrorCode(e))
    case Ok(prepared) =>
      match s.transcribe(prepared)
      case FormatRefused(_) => Stop(p, "invalid_audio_format")
      case Crashed(_) => Stop(p, "internal_error")
      case Transcript(text) =>
        p.(buffer := [], events := p.events + [if final then Final(text) else Partial(text)],
           windows := p.windows + [Window(p.buffer, final)], stopped := final)
  }

  function Handle(p: Progress, m: Message, s: Service): Progress {
    if m.cancelled then p.(stopped := true)
    else
      var q := p.(buffer := p.buffer + [m.chunk], consumed := p.consumed + 1);
      if BytesPerSecond(q.buffer[0]) == 0 then Stop(q, "internal_error")
      else if LongEnough(q.buffer) || m.endOfUtterance then EmitWindow(q, m.endOfUtterance, s)
      else q
  }

  function HandleFrom(p: Progress, messages: seq<Message>, s: Service): Progress
    decreases messages
  {
    if messages == [] || p.stopped then p else HandleFrom(Handle(p, messages[0], s), messages[1..], s)
  }

  /** StreamTranscribe: the events sent for a stream of messages. */
  method StreamTranscribe(acquired: Acquired, messages: seq<Message>, s: Service)
    returns (events: seq<Event>)
    ensures acquired.MissingModel? ==> events == [ErrorEvent("model_not_found")]
    ensures acquired.NoEngine? ==> events == [ErrorEvent("internal_error")]
    ensures acquired.Engine? ==> events == HandleFrom(FRESH, messages, s).events
  {
    if acquired.MissingModel? {
      return [ErrorEvent("model_not_found")];
    }
    if acquired.NoEngine? {
      return [ErrorEvent("internal_error")];
    }
    var buffer: seq<AudioChunk> := [];
    events := [];
    ghost var windows: seq<Window> := [];
    for i := 0 to |messages|
      invariant HandleFrom(FRESH, messages, s)
             == HandleFrom(Progress(buffer, events, windows, i, false), messages[i..], s)
    {
      var msg := messages[i];
      assert messages[i..][0] == msg && messages[i..][1..] == messages[i + 1..];
      if msg.cancelled {
        return events;
      }
      buffer := buffer + [msg.chunk];
      if BytesPerSecond(buffer[0]) == 0 {
        return events + [ErrorEvent("internal_error")];
      }
      if (LongEnough(buffer) || msg.endOfUtterance) && buffer != [] {
        var prepared := ConvertChunks(buffer, s.required);
        if prepared.Err? {
          return events + [ErrorEvent(AudioErrorCode(prepared.error))];
        }
        match s.transcribe(prepared.value) {
          case FormatRefused(_) =>
            return events + [ErrorEvent("invalid_audio_format")];
          case Crashed(_) =>
            return events + [ErrorEvent("internal_error")];
          case Transcript(text) =>
            events := events + [if msg.endOfUtterance then Final(text) else Partial(text)];
            windows := windows + [Window(buffer, msg.endOfUtterance)];
            buffer := [];
        }
      }
      if msg.endOfUtterance {
        return events;
      }
    }
  }

  // ---- Five seconds ----------------------------------------------------------------

  lemma {:induction false} ByteCountParts(c: AudioChunk, a: seq<AudioChunk>, b: seq<AudioChunk>)
    ensures ByteCount([]) == 0 && ByteCount([c]) == |c.data| && ByteCount(a + b) == ByteCount(a) + ByteCount(b)
  {
    assert [c][1..] == [];
    if a == [] {
      assert a + b == b;
    } else {
      ByteCountParts(c, a[1..], b);
      assert (a + b)[1..] == a[1..] + b;
    }
  }

  lemma ScaledComparison(a: int, b: int, k: int)
    requires k > 0
    ensures a * k >= b * k <==> a >= b
  {
    if a >= b { NonNegativeProduct(a - b, k); } else { ProductAtLeast(b - a, k); }
  }

  /** A buffer of whole frames is long enough exactly when it holds five seconds'
      worth of frames at the sample rate, and its duration is undefined exactly
      when a number of the format is zero. */
  lemma FiveSeconds(buffer: seq<AudioChunk>, frames: nat)
    requires buffer != []
    ensures var f := buffer[0].format;
            && (BytesPerSecond(buffer[0]) == 0 <==> f.sampleRate == 0 || f.channels == 0 || f.sampleWidth == 0)
            && (f.sampleRate > 0 && f.channels > 0 && f.sampleWidth > 0
                && ByteCount(buffer) == frames * (f.channels * f.sampleWidth) ==>
                  (LongEnough(buffer) <==> frames >= 5 * f.sampleRate))
  {
    var f := buffer[0].format;
    NonZeroProduct(f.sampleRate * f.channels, f.sampleWidth);
    NonZeroProduct(f.sampleRate, f.channels);
    if f.sampleRate > 0 && f.channels > 0 && f.sampleWidth > 0 {
      var k := f.channels * f.sampleWidth;
      ProductAtLeast(f.channels, f.sampleWidth);
      ProductAtLeast(f.sampleRate, k);
      ScaledComparison(frames, 5 * f.sampleRate, k);
      assert BytesPerSecond(buffer[0]) == f.sampleRate * k;
      assert 5 * f.sampleRate * k == 5 * (f.sampleRate * k);
    }
  }

  lemma NonZeroProduct(a: int, b: int)
    ensures a * b == 0 <==> a == 0 || b == 0
  {
  }

  // ---- Refusals ----------------------------------------------------------------------

  /** When a message is answered with an error, and with which: the format is at
      fault when the window cannot be converted for its width or channels or the
      engine refuses it; anything else that goes wrong is internal. */
  lemma RefusedExactly(p: Progress, m: Message, s: Service)
    requires !m.cancelled
    ensures var q := Handle(p, m, s);
            var buffer := p.buffer + [m.chunk];
            var measurable := BytesPerSecond(buffer[0]) != 0;
            var due := measurable && (LongEnough(buffer) || m.endOfUtterance);
            var prepared := ConvertChunks(buffer, s.required);
            && (q.events == p.events + [ErrorEvent("invalid_audio_format")] <==>
                due && ((prepared.Err? && (prepared.error.UnsupportedWidth? || prepared.error == CannotRemix))
                        || (prepared.Ok? && s.transcribe(prepared.value).FormatRefused?)))
            && (q.events == p.events + [ErrorEvent("internal_error")] <==>
                || !measurable
                || (due && prepared.Err? && !prepared.error.UnsupportedWidth? && prepared.error != CannotRemix)
                || (due && prepared.Ok? && s.transcribe(prepared.value).Crashed?))
  {
    var last := |p.events|;
    var q := Handle(p, m, s);
    assert |q.events| == last + 1 ==> q.events == p.events + [q.events[last]];
    assert (p.events + [ErrorEvent("invalid_audio_format")])[last] == ErrorEvent("invalid_audio_format");
    assert (p.events + [ErrorEvent("internal_error")])[last] == ErrorEvent("internal_error");
    assert "invalid_audio_format"[1] == 'n' && "internal_error"[2] == 't';
  }

  // ---- Partition and window lengths ------------------------------------------------

  function ChunksOf(messages: seq<Message>): (chunks: seq<AudioChunk>)
    ensures |chunks| == |messages|
    ensures forall i | 0 <= i < |messages| :: chunks[i] == messages[i].chunk
  {
    seq(|messages|, i requires 0 <= i < |messages| => messages[i].chunk)
  }

  function WindowChunks(windows: seq<Window>): seq<seq<AudioChunk>> {
    if windows == [] then [] else [windows[0].chunks] + WindowChunks(windows[1..])
  }

  lemma {:induction false} WindowChunksSnoc(windows: seq<Window>, w: Window)
    ensures Flatten(WindowChunks(windows + [w])) == Flatten(WindowChunks(windows)) + w.chunks
  {
    if windows == [] {
      assert windows + [w] == [w] && [w][1..] == [];
      FlattenAppend([w.chunks], []);
    } else {
      assert (windows + [w])[0] == windows[0] && (windows + [w])[1..] == windows[1..] + [w];
      WindowChunksSnoc(windows[1..], w);
      assert WindowChunks(windows + [w])[1..] == WindowChunks(windows[1..] + [w]);
      assert WindowChunks(windows)[1..] == WindowChunks(windows[1..]);
    }
  }

  /** No nonempty proper first part of the window is five seconds long. */
  ghost predicate ShortUntilLast(chunks: seq<AudioChunk>) {
    forall k | 1 <= k < |chunks| :: !LongEnough(chunks[..k])
  }

  ghost predicate WellSized(w: Window) {
    w.chunks != [] && ShortUntilLast(w.chunks) && (!w.final ==> LongEnough(w.chunks))
  }

  /** PARTIAL events, then at most one FINAL or error, with which it stops. */
  ghost predicate WellFormed(p: Progress) {
    && (forall i | 0 <= i < |p.events| - 1 :: p.events[i].Partial?)
    && (p.events != [] && !p.events[|p.events| - 1].Partial? ==> p.stopped)
    && (var failed := p.events != [] && p.events[|p.events| - 1].ErrorEvent?;
        |p.windows| == |p.events| - (if failed then 1 else 0))
    && (forall i | 0 <= i < |p.windows| :: p.windows[i].final == p.events[i].Final? && WellSized(p.windows[i]))
  }

  predicate Plain(m: Message) { !m.cancelled && !m.endOfUtterance }

  ghost predicate Partitioned(p: Progress, seen: seq<Message>) {
    && p.consumed <= |seen|
    && Flatten(WindowChunks(p.windows)) + p.buffer == ChunksOf(seen[..p.consumed])
  }

  /** How the stream stands once `seen` is the messages looked at. */
  ghost predicate Standing(p: Progress, seen: seq<Message>) {
    && (forall i | 0 <= i < |seen| - 1 :: Plain(seen[i]))
    && (!p.stopped ==>
          && p.consumed == |seen|
          && (seen != [] ==> Plain(seen[|seen| - 1]))
          && NotYetLong(p.buffer))
    && (p.stopped ==>
          seen != [] &&
          (var last := seen[|seen| - 1];
           || (last.cancelled && (p.events == [] || p.events[|p.events| - 1].Partial?))
           || (!last.cancelled && p.events != [] && p.events[|p.events| - 1].ErrorEvent? && p.consumed == |seen|)
           || (!last.cancelled && last.endOfUtterance && p.events != [] && p.events[|p.events| - 1].Final?
                 && p.consumed == |seen| && p.buffer == [])))
  }

  ghost predicate Inv(p: Progress, seen: seq<Message>) {
    WellFormed(p) && Partitioned(p, seen) && Standing(p, seen)
  }

  lemma BufferExtends(p: Progress, seen: seq<Message>, m: Message)
    requires Partitioned(p, seen) && p.consumed == |seen|
    ensures Flatten(WindowChunks(p.windows)) + (p.buffer + [m.chunk]) == ChunksOf(seen + [m])
  {
    assert seen[..p.consumed] == seen;
    assert ChunksOf(seen + [m]) == ChunksOf(seen) + [m.chunk];
  }

  lemma BufferStaysShort(p: Progress, seen: seq<Message>, m: Message)
    requires Standing(p, seen) && !p.stopped
    ensures ShortUntilLast(p.buffer + [m.chunk])
  {
    forall k | 1 <= k < |p.buffer + [m.chunk]| ensures !LongEnough((p.buffer + [m.chunk])[..k]) {
      assert (p.buffer + [m.chunk])[..k] == p.buffer[..k];
    }
  }

  lemma StopKeepsForm(p: Progress, code: string)
    requires WellFormed(p) && !p.stopped
    ensures WellFormed(Stop(p, code))
  {
  }

  /** One more window: events and windows stay in step. */
  lemma EmitKeepsForm(p: Progress, buffer: seq<AudioChunk>, text: string, final: bool)
    requires WellFormed(p) && !p.stopped
    requires buffer != [] && ShortUntilLast(buffer) && (final || LongEnough(buffer))
    ensures WellFormed(Progress([], p.events + [if final then Final(text) else Partial(text)],
                                p.windows + [Window(buffer, final)], p.consumed, final))
  {
    var events := p.events + [if final then Final(text) else Partial(text)];
    var windows := p.windows + [Window(buffer, final)];
    assert |windows| == |events|;
    assert forall i | 0 <= i < |p.events| :: p.events[i].Partial? && events[i] == p.events[i];
    forall i | 0 <= i < |windows| ensures windows[i].final == events[i].Final? && WellSized(windows[i]) {
      if i < |p.windows| { assert windows[i] == p.windows[i]; }
    }
  }

  lemma HandleKeepsForm(p: Progress, seen: seq<Message>, m: Message, s: Service)
    requires WellFormed(p) && Standing(p, seen) && !p.stopped
    ensures WellFormed(Handle(p, m, s))
  {
    BufferStaysShort(p, seen, m);
    var q := p.(buffer := p.buffer + [m.chunk], consumed := p.consumed + 1);
    if m.cancelled {
      assert Handle(p, m, s) == p.(stopped := true);
    } else if BytesPerSecond(q.buffer[0]) == 0 {
      StopKeepsForm(q, "internal_error");
      assert Handle(p, m, s) == Stop(q, "internal_error");
    } else if LongEnough(q.buffer) || m.endOfUtterance {
      EmitWindowKeepsForm(q, m.endOfUtterance, s);
    }
  }

  lemma EmitWindowKeepsForm(q: Progress, final: bool, s: Service)
    requires WellFormed(q) && !q.stopped
    requires q.buffer != [] && ShortUntilLast(q.buffer) && (final || LongEnough(q.buffer))
    ensures WellFormed(EmitWindow(q, final, s))
  {
    match ConvertChunks(q.buffer, s.required)
    case Err(e) => StopKeepsForm(q, AudioErrorCode(e));
    case Ok(prepared) =>
      match s.transcribe(prepared)
      case FormatRefused(_) => StopKeepsForm(q, "invalid_audio_format");
      case Crashed(_) => StopKeepsForm(q, "internal_error");
      case Transcript(text) => EmitKeepsForm(q, q.buffer, text, final);
  }

  /** A message's chunk stays in the buffer or goes out with it in a window. */
  lemma HandleMovesChunk(p: Progress, m: Message, s: Service)
    requires !m.cancelled
    ensures var q := Handle(p, m, s);
            var buffer := p.buffer + [m.chunk];
            && q.consumed == p.consumed + 1
            && ((q.windows == p.windows && q.buffer == buffer)
                || (q.windows == p.windows + [Window(buffer, m.endOfUtterance)] && q.buffer == []))
  {
  }

  lemma HandleKeepsPartition(p: Progress, seen: seq<Message>, m: Message, s: Service)
    requires Partitioned(p, seen) && p.consumed == |seen|
    ensures Partitioned(Handle(p, m, s), seen + [m])
  {
    var all := seen + [m];
    assert all[..p.consumed] == seen[..p.consumed] && all[..p.consumed + 1] == all;
    if !m.cancelled {
      BufferExtends(p, seen, m);
      HandleMovesChunk(p, m, s);
      WindowChunksSnoc(p.windows, Window(p.buffer + [m.chunk], m.endOfUtterance));
    }
  }

  lemma HandleKeepsStanding(p: Progress, seen: seq<Message>, m: Message, s: Service)
    requires Standing(p, seen) && !p.stopped && WellFormed(p)
    ensures Standing(Handle(p, m, s), seen + [m])
  {
    BufferStaysShort(p, seen, m);
    var buffer := p.buffer + [m.chunk];
    assert buffer[..|buffer|] == buffer;
  }

  lemma HandleKeepsInv(p: Progress, seen: seq<Message>, m: Message, s: Service)
    requires Inv(p, seen) && !p.stopped
    ensures Inv(Handle(p, m, s), seen + [m])
  {
    HandleKeepsForm(p, seen, m, s);
    HandleKeepsPartition(p, seen, m, s);
    HandleKeepsStanding(p, seen, m, s);
  }

  lemma SeenSoFar(seen: seq<Message>, messages: seq<Message>, k: nat)
    requires k < |messages|
    ensures (seen + [messages[0]]) + messages[1..][..k] == seen + messages[..k + 1]
  {
  }

  lemma {:induction false} HandleFromKeepsInv(p: Progress, seen: seq<Message>, messages: seq<Message>, s: Service)
    returns (n: nat)
    requires Inv(p, seen) && !p.stopped
    ensures n <= |messages| && Inv(HandleFrom(p, messages, s), seen + messages[..n])
    ensures !HandleFrom(p, messages, s).stopped ==> n == |messages|
    decreases |messages|
  {
    if messages == [] {
      n := 0;
      assert seen + messages[..0] == seen;
    } else {
      var q := Handle(p, messages[0], s);
      HandleKeepsInv(p, seen, messages[0], s);
      assert HandleFrom(p, messages, s) == HandleFrom(q, messages[1..], s);
      if q.stopped {
        n := 1;
        assert messages[..1] == [messages[0]];
        assert HandleFrom(q, messages[1..], s) == q;
      } else {
        var k := HandleFromKeepsInv(q, seen + [messages[0]], messages[1..], s);
        n := k + 1;
        SeenSoFar(seen, messages, k);
      }
    }
  }

  /** No window could have been cut from the buffer yet. */
  ghost predicate NotYetLong(buffer: seq<AudioChunk>) {
    forall k | 1 <= k <= |buffer| :: !LongEnough(buffer[..k])
  }

  /** On every stream: the windows followed by what is left in the buffer are
      exactly the chunks of the messages consumed, in order; events are PARTIALs
      ended by at most one FINAL or error; a window is at least five seconds long
      unless it is the FINAL one, and under five seconds without its last chunk;
      and a stream still open has consumed everything and holds less than a
      window. */
  lemma WindowsPartitionTheAudio(messages: seq<Message>, s: Service)
    ensures var p := HandleFrom(FRESH, messages, s);
            && WellFormed(p) && p.consumed <= |messages|
            && Flatten(WindowChunks(p.windows)) + p.buffer == ChunksOf(messages[..p.consumed])
            && (!p.stopped ==> p.consumed == |messages| && NotYetLong(p.buffer))
  {
    var n := Reached(messages, s);
    var p := HandleFrom(FRESH, messages, s);
    assert messages[..n][..p.consumed] == messages[..p.consumed];
  }

  lemma Reached(messages: seq<Message>, s: Service) returns (n: nat)
    ensures n <= |messages| && Inv(HandleFrom(FRESH, messages, s), messages[..n])
    ensures !HandleFrom(FRESH, messages, s).stopped ==> n == |messages|
  {
    assert Inv(FRESH, []);
    n := HandleFromKeepsInv(FRESH, [], messages, s);
    assert [] + messages[..n] == messages[..n];
  }

  /** Absent cancellation and errors the stream is consumed up to and including
      the first end-of-utterance message, which is answered by the one FINAL and
      leaves nothing behind; without one, everything is consumed and only
      PARTIALs are sent. */
  lemma FinalAtFirstEndOfUtterance(messages: seq<Message>, s: Service, e: nat)
    requires e <= |messages| && (forall i | 0 <= i < e :: Plain(messages[i]))
    requires e < |messages| ==> messages[e].endOfUtterance && !messages[e].cancelled
    requires forall ev | ev in HandleFrom(FRESH, messages, s).events :: !ev.ErrorEvent?
    ensures var p := HandleFrom(FRESH, messages, s);
            if e < |messages| then
              && p.consumed == e + 1 && p.buffer == []
              && p.events != [] && p.events[|p.events| - 1].Final?
              && Flatten(WindowChunks(p.windows)) == ChunksOf(messages[..e + 1])
            else
              && p.consumed == |messages| && !p.stopped
              && (forall ev | ev in p.events :: ev.Partial?)
  {
    var n := Reached(messages, s);
    var p := HandleFrom(FRESH, messages, s);
    assert p.events != [] ==> p.events[|p.events| - 1] in p.events;
    forall i | 0 <= i && i + 1 < n ensures Plain(messages[i]) {
      assert messages[..n][i] == messages[i];
    }
    assert e < |messages| ==> !Plain(messages[e]);
    if p.stopped {
      assert messages[..n][n - 1] == messages[n - 1];
      assert !Plain(messages[n - 1]);
      assert messages[..n][..p.consumed] == messages[..p.consumed];
      assert Flatten(WindowChunks(p.windows)) + [] == Flatten(WindowChunks(p.windows));
    } else {
      assert messages[..n] == messages;
      assert n > 0 ==> Plain(messages[n - 1]);
      OnlyPartials(p);
    }
  }

  // ---- What the events say ------------------------------------------------------------

  /** Event i is the transcript of window i, converted to what the engine requires. */
  predicate Transcribes(e: Event, w: Window, s: Service) {
    var prepared := ConvertChunks(w.chunks, s.required);
    prepared.Ok? && !e.ErrorEvent? && s.transcribe(prepared.value) == Transcript(e.text)
  }

  ghost predicate AllTranscribed(p: Progress, s: Service) {
    && |p.windows| <= |p.events|
    && (!p.stopped ==> |p.windows| == |p.events|)
    && (forall i | 0 <= i < |p.windows| :: Transcribes(p.events[i], p.windows[i], s))
  }

  lemma HandleKeepsTranscribed(p: Progress, m: Message, s: Service)
    requires AllTranscribed(p, s) && !p.stopped
    ensures AllTranscribed(Handle(p, m, s), s)
  {
    var q := Handle(p, m, s);
    forall i | 0 <= i < |q.windows| ensures Transcribes(q.events[i], q.windows[i], s) {
      assert i < |p.windows| ==> Transcribes(p.events[i], p.windows[i], s);
    }
  }

  lemma {:induction false} HandleFromKeepsTranscribed(p: Progress, messages: seq<Message>, s: Service)
    requires AllTranscribed(p, s)
    ensures AllTranscribed(HandleFrom(p, messages, s), s)
    decreases |messages|
  {
    if messages != [] && !p.stopped {
      HandleKeepsTranscribed(p, messages[0], s);
      HandleFromKeepsTranscribed(Handle(p, messages[0], s), messages[1..], s);
    }
  }

  /** Every PARTIAL and FINAL is the engine's transcript of its own window. */
  lemma EventsTranscribeWindows(messages: seq<Message>, s: Service)
    ensures AllTranscribed(HandleFrom(FRESH, messages, s), s)
  {
    HandleFromKeepsTranscribed(FRESH, messages, s);
  }

  lemma OnlyPartials(p: Progress)
    requires WellFormed(p) && !p.stopped
    ensures forall ev | ev in p.events :: ev.Partial?
  {
  }
}
