// llm/utils/chunker.py: cutting a raw token stream into sentence-sized chunks.
module SentenceChunker {
  import opened Common

  datatype Config = Config(boundary: set<char>, minChars: int, maxChars: int)

  const DEFAULT := Config({'.', '?', '!'}, 10, 200)

  // ---- Text helpers ------------------------------------------------------------

  /** The characters Python's str.strip removes. */
  predicate IsSpace(c: char) {
    || '\t' <= c <= '\r'
    || '\U{1C}' <= c <= ' '
    || c == '\U{85}' || c == '\U{A0}' || c == '\U{1680}'
    || '\U{2000}' <= c <= '\U{200A}'
    || c == '\U{2028}' || c == '\U{2029}' || c == '\U{202F}' || c == '\U{205F}' || c == '\U{3000}'
  }

  function StripLeft(s: string): string {
    if s != "" && IsSpace(s[0]) then StripLeft(s[1..]) else s
  }

  function StripRight(s: string): string {
    if s != "" && IsSpace(s[|s| - 1]) then StripRight(s[..|s| - 1]) else s
  }

  function Strip(s: string): string {
    StripRight(StripLeft(s))
  }

  /** Everything but the whitespace. */
  function Visible(s: string): string {
    if s == "" then ""
    else if IsSpace(s[0]) then Visible(s[1..])
    else [s[0]] + Visible(s[1..])
  }

  /** str.lower as far as it matters for comparing with ASCII words. */
  function Lower(s: string): string {
    if s == "" then ""
    else [if 'A' <= s[0] <= 'Z' then s[0] - 'A' + 'a' else s[0]] + Lower(s[1..])
  }

  /** The part after the last space character. */
  function LastWord(s: string): string {
    if s == "" || s[|s| - 1] == ' ' then ""
    else LastWord(s[..|s| - 1]) + [s[|s| - 1]]
  }

  /** Index of the last `c`, or -1. */
  function LastIndexOf(s: string, c: char): (i: int)
    ensures -1 <= i < |s|
    ensures i >= 0 ==> s[i] == c
    ensures forall k | i < k < |s| :: s[k] != c
  {
    if s == "" then -1
    else if s[|s| - 1] == c then |s| - 1
    else LastIndexOf(s[..|s| - 1], c)
  }

  // ---- The flush decision ---------------------------------------------------------

  const ABBREVIATIONS: set<string> :=
    {"mr.", "mrs.", "ms.", "dr.", "prof.", "sr.", "jr.", "vs.", "etc."}

  predicate EndsWithAbbreviation(text: string) {
    Strip(text) != "" && Lower(LastWord(Strip(text))) in ABBREVIATIONS
  }

  predicate IsMidNumber(text: string, boundaryChar: char, isDigit: char -> bool) {
    boundaryChar == '.' &&
    var i := LastIndexOf(text, '.');
    0 < i < |text| - 1 && isDigit(text[i - 1]) && isDigit(text[i + 1])
  }

  predicate HitsBoundary(stripped: string, cfg: Config, isDigit: char -> bool)
    requires stripped != ""
  {
    var last := stripped[|stripped| - 1];
    last in cfg.boundary && !IsMidNumber(stripped, last, isDigit) && !EndsWithAbbreviation(stripped)
  }

  /** Whether the text gathered so far is handed on after the current token. */
  predicate Flushes(buffer: string, cfg: Config, isDigit: char -> bool) {
    var stripped := Strip(buffer);
    stripped != "" &&
    ((HitsBoundary(stripped, cfg, isDigit) && |stripped| >= cfg.minChars) || |stripped| >= cfg.maxChars)
  }

  // ---- The loop ---------------------------------------------------------------------

  function Remainder(buffer: string): seq<string> {
    if Strip(buffer) == "" then [] else [Strip(buffer)]
  }

  datatype Progress = Progress(buffer: string, emitted: seq<string>)

  function Feed(p: Progress, token: string, cfg: Config, isDigit: char -> bool): Progress {
    var buffer := p.buffer + token;
    if Flushes(buffer, cfg, isDigit) then Progress("", p.emitted + [Strip(buffer)])
    else Progress(buffer, p.emitted)
  }

  function FeedFrom(p: Progress, tokens: seq<string>, cfg: Config, isDigit: char -> bool): Progress
    decreases tokens
  {
    if tokens == [] then p else FeedFrom(Feed(p, tokens[0], cfg, isDigit), tokens[1..], cfg, isDigit)
  }

  /** What has been yielded when the stream has delivered exactly `tokens`. */
  function Emitted(tokens: seq<string>, cfg: Config, isDigit: char -> bool): seq<string> {
    FeedFrom(Progress("", []), tokens, cfg, isDigit).emitted
  }

  function Chunks(tokens: seq<string>, cfg: Config, isDigit: char -> bool): seq<string> {
    var p := FeedFrom(Progress("", []), tokens, cfg, isDigit);
    p.emitted + Remainder(p.buffer)
  }

  /** chunk_stream as a loop; `isDigit` stands for str.isdigit. */
  method ChunkStream(tokens: seq<string>, cfg: Config, isDigit: char -> bool)
    returns (chunks: seq<string>)
    ensures chunks == Chunks(tokens, cfg, isDigit)
  {
    var buffer := "";
    chunks := [];
    for i := 0 to |tokens|
      invariant FeedFrom(Progress("", []), tokens, cfg, isDigit)
             == FeedFrom(Progress(buffer, chunks), tokens[i..], cfg, isDigit)
    {
      assert tokens[i..][1..] == tokens[i + 1..];
      buffer := buffer + tokens[i];
      var stripped := Strip(buffer);
      if stripped == "" {
        continue;
      }
      var last := stripped[|stripped| - 1];
      var hitBoundary := last in cfg.boundary;
      if hitBoundary && IsMidNumber(stripped, last, isDigit) {
        hitBoundary := false;
      }
      if hitBoundary && EndsWithAbbreviation(stripped) {
        hitBoundary := false;
      }
      var longEnough := |stripped| >= cfg.minChars;
      var forceFlush := |stripped| >= cfg.maxChars;
      if (hitBoundary && longEnough) || forceFlush {
        chunks := chunks + [stripped];
        buffer := "";
      }
    }
    var remainder := Strip(buffer);
    if remainder != "" {
      chunks := chunks + [remainder];
    }
  }

  // ---- Earliest flush -----------------------------------------------------------------

  /** The fewest tokens whose text flushes, if any prefix does. */
  function FirstFlush(tokens: seq<string>, cfg: Config, isDigit: char -> bool): (k: Option<nat>)
    ensures k.Some? ==> 1 <= k.value <= |tokens| && Flushes(Flatten(tokens[..k.value]), cfg, isDigit)
    ensures k.Some? ==> forall j | 1 <= j < k.value :: !Flushes(Flatten(tokens[..j]), cfg, isDigit)
    ensures k.None? ==> forall j | 1 <= j <= |tokens| :: !Flushes(Flatten(tokens[..j]), cfg, isDigit)
  {
    FirstFlushFrom(tokens, 1, cfg, isDigit)
  }

  function FirstFlushFrom(tokens: seq<string>, from: nat, cfg: Config, isDigit: char -> bool): (k: Option<nat>)
    requires from >= 1
    decreases |tokens| - from
    ensures k.Some? ==> from <= k.value <= |tokens| && Flushes(Flatten(tokens[..k.value]), cfg, isDigit)
    ensures k.Some? ==> forall j | from <= j < k.value :: !Flushes(Flatten(tokens[..j]), cfg, isDigit)
    ensures k.None? ==> forall j | from <= j <= |tokens| :: !Flushes(Flatten(tokens[..j]), cfg, isDigit)
  {
    if from > |tokens| then None
    else if Flushes(Flatten(tokens[..from]), cfg, isDigit) then Some(from)
    else FirstFlushFrom(tokens, from + 1, cfg, isDigit)
  }

  /** Reference segmentation: cut at the first token where the flush test
      holds, start afresh, and keep whatever visible text is left at the end. */
  function Greedy(tokens: seq<string>, cfg: Config, isDigit: char -> bool): seq<string>
    decreases |tokens|
  {
    var k := FirstFlush(tokens, cfg, isDigit);
    if k.None? then Remainder(Flatten(tokens))
    else [Strip(Flatten(tokens[..k.value]))] + Greedy(tokens[k.value..], cfg, isDigit)
  }

  lemma FlattenSnoc(tokens: seq<string>, token: string)
    ensures Flatten(tokens + [token]) == Flatten(tokens) + token
  {
    FlattenAppend(tokens, [token]);
    assert Flatten([token]) == token + Flatten([]);
  }

  /** Feeding tokens none of whose prefixes flushes only grows the buffer. */
  lemma {:induction false} FeedQuietly(p: Progress, done: seq<string>, tokens: seq<string>, rest: seq<string>,
                                       cfg: Config, isDigit: char -> bool)
    requires p.buffer == Flatten(done)
    requires forall j | |done| < j <= |done + tokens| :: !Flushes(Flatten((done + tokens)[..j]), cfg, isDigit)
    ensures FeedFrom(p, tokens + rest, cfg, isDigit)
         == FeedFrom(Progress(Flatten(done + tokens), p.emitted), rest, cfg, isDigit)
    decreases |tokens|
  {
    if tokens == [] {
      assert tokens + rest == rest && done + tokens == done;
    } else {
      var longer := done + [tokens[0]];
      assert longer + tokens[1..] == done + tokens;
      assert (done + tokens)[..|longer|] == longer;
      FlattenSnoc(done, tokens[0]);
      assert (tokens + rest)[0] == tokens[0] && (tokens + rest)[1..] == tokens[1..] + rest;
      FeedQuietly(Progress(Flatten(longer), p.emitted), longer, tokens[1..], rest, cfg, isDigit);
    }
  }

  /** Feeding up to the first flush emits exactly that prefix. */
  lemma FeedToFlush(emitted: seq<string>, tokens: seq<string>, k: nat, cfg: Config, isDigit: char -> bool)
    requires FirstFlush(tokens, cfg, isDigit) == Some(k)
    ensures FeedFrom(Progress("", emitted), tokens, cfg, isDigit)
         == FeedFrom(Progress("", emitted + [Strip(Flatten(tokens[..k]))]), tokens[k..], cfg, isDigit)
  {
    var quiet, flushing, rest := tokens[..k - 1], tokens[k - 1], tokens[k..];
    assert tokens == quiet + tokens[k - 1..];
    assert tokens[k - 1..] == [flushing] + rest && tokens[k - 1..][1..] == rest;
    assert [] + quiet == quiet;
    forall j | 0 < j <= |quiet| ensures !Flushes(Flatten(quiet[..j]), cfg, isDigit) {
      assert quiet[..j] == tokens[..j];
    }
    FeedQuietly(Progress("", emitted), [], quiet, tokens[k - 1..], cfg, isDigit);
    FlattenSnoc(quiet, flushing);
    assert quiet + [flushing] == tokens[..k];
  }

  lemma Reassociate(a: seq<string>, x: string, b: seq<string>)
    ensures (a + [x]) + b == a + ([x] + b)
  {
  }

  /** The loop computes exactly the earliest-flush segmentation. */
  lemma {:induction false} ChunksAreGreedy(
      emitted: seq<string>, tokens: seq<string>, cfg: Config, isDigit: char -> bool)
    ensures var p := FeedFrom(Progress("", emitted), tokens, cfg, isDigit);
            p.emitted + Remainder(p.buffer) == emitted + Greedy(tokens, cfg, isDigit)
    decreases |tokens|
  {
    var k := FirstFlush(tokens, cfg, isDigit);
    if k.None? {
      assert tokens + [] == tokens && [] + tokens == tokens;
      FeedQuietly(Progress("", emitted), [], tokens, [], cfg, isDigit);
    } else {
      var chunk := Strip(Flatten(tokens[..k.value]));
      var later := Greedy(tokens[k.value..], cfg, isDigit);
      FeedToFlush(emitted, tokens, k.value, cfg, isDigit);
      ChunksAreGreedy(emitted + [chunk], tokens[k.value..], cfg, isDigit);
      Reassociate(emitted, chunk, later);
    }
  }

  lemma EarliestFlush(tokens: seq<string>, cfg: Config, isDigit: char -> bool)
    ensures Chunks(tokens, cfg, isDigit) == Greedy(tokens, cfg, isDigit)
  {
    ChunksAreGreedy([], tokens, cfg, isDigit);
  }

  // ---- Streaming: what is out stays out -------------------------------------------------

  lemma {:induction false} EmittedGrows(p: Progress, tokens: seq<string>, cfg: Config, isDigit: char -> bool)
    ensures p.emitted <= FeedFrom(p, tokens, cfg, isDigit).emitted
    decreases tokens
  {
    if tokens != [] { EmittedGrows(Feed(p, tokens[0], cfg, isDigit), tokens[1..], cfg, isDigit); }
  }

  lemma {:induction false} FeedFromAppend(
      p: Progress, a: seq<string>, b: seq<string>, cfg: Config, isDigit: char -> bool)
    ensures FeedFrom(p, a + b, cfg, isDigit) == FeedFrom(FeedFrom(p, a, cfg, isDigit), b, cfg, isDigit)
    decreases a
  {
    if a == [] {
      assert a + b == b;
    } else {
      assert (a + b)[0] == a[0] && (a + b)[1..] == a[1..] + b;
      FeedFromAppend(Feed(p, a[0], cfg, isDigit), a[1..], b, cfg, isDigit);
    }
  }

  /** Chunks yielded for a prefix of the tokens, before the end flush, are a
      prefix of those for any continuation, cut short or run to its end. */
  lemma YieldedIsStable(tokens: seq<string>, more: seq<string>, cfg: Config, isDigit: char -> bool)
    ensures Emitted(tokens, cfg, isDigit) <= Emitted(tokens + more, cfg, isDigit)
         <= Chunks(tokens + more, cfg, isDigit)
  {
    FeedFromAppend(Progress("", []), tokens, more, cfg, isDigit);
    EmittedGrows(FeedFrom(Progress("", []), tokens, cfg, isDigit), more, cfg, isDigit);
  }

  // ---- Stripping and content --------------------------------------------------------------

  lemma {:induction false} VisibleAppend(a: string, b: string)
    ensures Visible(a + b) == Visible(a) + Visible(b)
  {
    if a == "" {
      assert a + b == b;
    } else {
      assert (a + b)[0] == a[0] && (a + b)[1..] == a[1..] + b;
      VisibleAppend(a[1..], b);
    }
  }

  lemma {:induction false} VisibleStripLeft(s: string)
    ensures Visible(StripLeft(s)) == Visible(s)
  {
    if s != "" && IsSpace(s[0]) { VisibleStripLeft(s[1..]); }
  }

  lemma {:induction false} VisibleStripRight(s: string)
    ensures Visible(StripRight(s)) == Visible(s)
  {
    if s != "" && IsSpace(s[|s| - 1]) {
      var front, last := s[..|s| - 1], s[|s| - 1..];
      VisibleStripRight(front);
      assert s == front + last && last[1..] == "";
      VisibleAppend(front, last);
    }
  }

  /** What is left of a single character; VisibleAppend does the rest. */
  lemma VisibleOne(c: char)
    ensures Visible([c]) == if IsSpace(c) then "" else [c]
  {
    assert [c][1..] == "";
  }

  /** Stripping loses only whitespace. */
  lemma VisibleStrip(s: string)
    ensures Visible(Strip(s)) == Visible(s)
  {
    VisibleStripLeft(s);
    VisibleStripRight(StripLeft(s));
  }

  predicate IsStripped(s: string) {
    s != "" ==> !IsSpace(s[0]) && !IsSpace(s[|s| - 1])
  }

  lemma {:induction false} StripRightShape(s: string)
    requires s != "" ==> !IsSpace(s[0])
    ensures IsStripped(StripRight(s))
  {
    if s != "" && IsSpace(s[|s| - 1]) { StripRightShape(s[..|s| - 1]); }
  }

  lemma {:induction false} StripLeftShape(s: string)
    ensures StripLeft(s) != "" ==> !IsSpace(StripLeft(s)[0])
  {
    if s != "" && IsSpace(s[0]) { StripLeftShape(s[1..]); }
  }

  lemma StrippedIsStable(s: string)
    requires IsStripped(s)
    ensures Strip(s) == s
  {
  }

  lemma StripShape(s: string)
    ensures IsStripped(Strip(s)) && Strip(Strip(s)) == Strip(s)
  {
    StripLeftShape(s);
    StripRightShape(StripLeft(s));
    StrippedIsStable(Strip(s));
  }

  /** No word is lost, added or reordered: apart from whitespace, the chunks
      spell exactly what the tokens spell. */
  lemma ContentPreserved(tokens: seq<string>, cfg: Config, isDigit: char -> bool)
    ensures Visible(Flatten(Chunks(tokens, cfg, isDigit))) == Visible(Flatten(tokens))
  {
    EarliestFlush(tokens, cfg, isDigit);
    GreedyContent(tokens, cfg, isDigit);
  }

  lemma {:induction false} GreedyContent(tokens: seq<string>, cfg: Config, isDigit: char -> bool)
    ensures Visible(Flatten(Greedy(tokens, cfg, isDigit))) == Visible(Flatten(tokens))
    decreases |tokens|
  {
    var k := FirstFlush(tokens, cfg, isDigit);
    if k.None? {
      RemainderContent(Flatten(tokens));
    } else {
      GreedyContent(tokens[k.value..], cfg, isDigit);
      CutContent(tokens[..k.value], tokens[k.value..], Greedy(tokens[k.value..], cfg, isDigit));
      assert tokens == tokens[..k.value] + tokens[k.value..];
    }
  }

  lemma RemainderContent(text: string)
    ensures Visible(Flatten(Remainder(text))) == Visible(text)
  {
    VisibleStrip(text);
    FlattenSnoc([], Strip(text));
    assert [] + [Strip(text)] == [Strip(text)] && "" + Strip(text) == Strip(text);
  }

  lemma CutContent(head: seq<string>, rest: seq<string>, chunks: seq<string>)
    requires Visible(Flatten(chunks)) == Visible(Flatten(rest))
    ensures Visible(Flatten([Strip(Flatten(head))] + chunks)) == Visible(Flatten(head + rest))
  {
    var all := [Strip(Flatten(head))] + chunks;
    VisibleStrip(Flatten(head));
    FlattenAppend(head, rest);
    VisibleAppend(Flatten(head), Flatten(rest));
    VisibleAppend(Strip(Flatten(head)), Flatten(chunks));
    assert all[0] == Strip(Flatten(head)) && all[1..] == chunks;
  }

  // ---- Every chunk verbatim ----------------------------------------------------------------

  predicate Blank(s: string) { forall k | 0 <= k < |s| :: IsSpace(s[k]) }

  /** Exactly the characters Python counts as whitespace. */
  lemma SpaceExactly(c: char)
    ensures IsSpace(c) <==>
      c in "\t\n\U{0B}\U{0C}\r \U{1C}\U{1D}\U{1E}\U{1F}\U{85}\U{A0}\U{1680}\U{2000}\U{2001}\U{2002}\U{2003}" +
           "\U{2004}\U{2005}\U{2006}\U{2007}\U{2008}\U{2009}\U{200A}\U{2028}\U{2029}\U{202F}\U{205F}\U{3000}"
  {
  }

  lemma {:induction false} StripLeftCut(s: string) returns (i: nat)
    ensures i <= |s| && StripLeft(s) == s[i..] && Blank(s[..i])
  {
    i := 0;
    if s != "" && IsSpace(s[0]) {
      i := StripLeftCut(s[1..]);
      assert s[..i + 1] == [s[0]] + s[1..][..i];
      i := i + 1;
    }
  }

  lemma {:induction false} StripRightCut(s: string) returns (j: nat)
    ensures j <= |s| && StripRight(s) == s[..j] && Blank(s[j..])
  {
    j := |s|;
    if s != "" && IsSpace(s[|s| - 1]) {
      var front := s[..|s| - 1];
      j := StripRightCut(front);
      assert s[j..] == front[j..] + [s[|s| - 1]];
    }
  }

  /** Stripping cuts whitespace off both ends and leaves what is between as it
      is. */
  lemma StripCut(s: string) returns (before: string, after: string)
    ensures s == before + Strip(s) + after && Blank(before) && Blank(after)
  {
    var i := StripLeftCut(s);
    var j := StripRightCut(s[i..]);
    before, after := s[..i], s[i..][j..];
  }

  /** The gaps and the chunks in turn. */
  function Weave(gaps: seq<string>, chunks: seq<string>): string
    requires |gaps| == |chunks| + 1
  {
    if chunks == [] then gaps[0] else gaps[0] + chunks[0] + Weave(gaps[1..], chunks[1..])
  }

  ghost predicate Verbatim(text: string, chunks: seq<string>, gaps: seq<string>) {
    |gaps| == |chunks| + 1 && text == Weave(gaps, chunks) && forall k | 0 <= k < |gaps| :: Blank(gaps[k])
  }

  lemma RemainderVerbatim(text: string) returns (gaps: seq<string>)
    ensures Verbatim(text, Remainder(text), gaps)
  {
    var before, after := StripCut(text);
    if Strip(text) == "" {
      gaps := [before + after];
      assert text == before + after;
    } else {
      gaps := [before, after];
      assert gaps[1..] == [after] && Remainder(text)[1..] == [];
    }
  }

  lemma WidenFirstGap(blank: string, text: string, chunks: seq<string>, gaps: seq<string>)
    requires Blank(blank) && Verbatim(text, chunks, gaps)
    ensures Verbatim(blank + text, chunks, [blank + gaps[0]] + gaps[1..])
  {
    var wider := [blank + gaps[0]] + gaps[1..];
    assert wider[1..] == gaps[1..];
    if chunks == [] {
    } else {
      var rest := Weave(gaps[1..], chunks[1..]);
      assert blank + (gaps[0] + chunks[0] + rest) == (blank + gaps[0]) + chunks[0] + rest;
    }
    assert Blank(gaps[0]) && forall k | 1 <= k < |wider| :: wider[k] == gaps[k];
  }

  lemma PrependChunk(before: string, chunk: string, text: string, chunks: seq<string>, gaps: seq<string>)
    requires Blank(before) && Verbatim(text, chunks, gaps)
    ensures Verbatim(before + chunk + text, [chunk] + chunks, [before] + gaps)
  {
    assert ([before] + gaps)[1..] == gaps && ([chunk] + chunks)[1..] == chunks;
  }

  lemma PrependStripped(head: string, text: string, chunks: seq<string>, others: seq<string>)
    returns (gaps: seq<string>)
    requires Verbatim(text, chunks, others)
    ensures Verbatim(head + text, [Strip(head)] + chunks, gaps)
  {
    var before, after := StripCut(head);
    WidenFirstGap(after, text, chunks, others);
    gaps := [after + others[0]] + others[1..];
    PrependChunk(before, Strip(head), after + text, chunks, gaps);
    gaps := [before] + gaps;
    assert head + text == before + Strip(head) + (after + text);
  }

  lemma {:induction false} GreedyVerbatim(tokens: seq<string>, cfg: Config, isDigit: char -> bool)
    returns (gaps: seq<string>)
    ensures Verbatim(Flatten(tokens), Greedy(tokens, cfg, isDigit), gaps)
    decreases |tokens|
  {
    var k := FirstFlush(tokens, cfg, isDigit);
    if k.None? {
      gaps := RemainderVerbatim(Flatten(tokens));
    } else {
      var head, rest := tokens[..k.value], tokens[k.value..];
      var later := Greedy(rest, cfg, isDigit);
      var others := GreedyVerbatim(rest, cfg, isDigit);
      gaps := PrependStripped(Flatten(head), Flatten(rest), later, others);
      FlattenAppend(head, rest);
      assert tokens == head + rest;
    }
  }

  /** The stream is its chunks, each as it stands, with nothing but whitespace
      before, between and behind them. */
  lemma ChunksVerbatim(tokens: seq<string>, cfg: Config, isDigit: char -> bool) returns (gaps: seq<string>)
    ensures Verbatim(Flatten(tokens), Chunks(tokens, cfg, isDigit), gaps)
  {
    EarliestFlush(tokens, cfg, isDigit);
    gaps := GreedyVerbatim(tokens, cfg, isDigit);
  }

  /** What makes a chunk other than the last one acceptable. */
  predicate WellCut(chunk: string, cfg: Config) {
    chunk != "" &&
    ((chunk[|chunk| - 1] in cfg.boundary && !EndsWithAbbreviation(chunk) && |chunk| >= cfg.minChars)
     || |chunk| >= cfg.maxChars)
  }

  ghost predicate WellShaped(chunks: seq<string>, cfg: Config) {
    && (forall i | 0 <= i < |chunks| :: chunks[i] != "" && Strip(chunks[i]) == chunks[i])
    && (forall i | 0 <= i < |chunks| - 1 :: WellCut(chunks[i], cfg))
  }

  lemma ShapeGrows(chunk: string, rest: seq<string>, cfg: Config)
    requires WellShaped(rest, cfg) && WellCut(chunk, cfg) && Strip(chunk) == chunk
    ensures WellShaped([chunk] + rest, cfg)
  {
  }

  lemma FlushShape(buffer: string, cfg: Config, isDigit: char -> bool)
    requires Flushes(buffer, cfg, isDigit)
    ensures WellCut(Strip(buffer), cfg) && Strip(Strip(buffer)) == Strip(buffer)
  {
    StripShape(buffer);
  }

  lemma {:induction false} GreedyShape(tokens: seq<string>, cfg: Config, isDigit: char -> bool)
    ensures WellShaped(Greedy(tokens, cfg, isDigit), cfg)
    decreases |tokens|
  {
    var k := FirstFlush(tokens, cfg, isDigit);
    if k.None? {
      StripShape(Flatten(tokens));
    } else {
      GreedyShape(tokens[k.value..], cfg, isDigit);
      FlushShape(Flatten(tokens[..k.value]), cfg, isDigit);
      ShapeGrows(Strip(Flatten(tokens[..k.value])), Greedy(tokens[k.value..], cfg, isDigit), cfg);
    }
  }

  /** Every chunk is nonempty and stripped, and every chunk but the last ends a
      sentence (not an abbreviation) at the minimum length, or hits the maximum. */
  lemma ChunkShape(tokens: seq<string>, cfg: Config, isDigit: char -> bool)
    ensures WellShaped(Chunks(tokens, cfg, isDigit), cfg)
  {
    EarliestFlush(tokens, cfg, isDigit);
    GreedyShape(tokens, cfg, isDigit);
  }

  // ---- The decimal guard -----------------------------------------------------------------

  /** _is_mid_number can never be true where it is asked: the text it is given
      ends in the very dot it would have to look past. */
  lemma DecimalGuardNeverFires(stripped: string, cfg: Config, isDigit: char -> bool)
    requires stripped != ""
    ensures !IsMidNumber(stripped, stripped[|stripped| - 1], isDigit)
    ensures HitsBoundary(stripped, cfg, isDigit)
       <==> stripped[|stripped| - 1] in cfg.boundary && !EndsWithAbbreviation(stripped)
  {
    var i := LastIndexOf(stripped, '.');
    if stripped[|stripped| - 1] == '.' {
      assert i == |stripped| - 1;
    }
  }

  /** What the guard looks for: a digit on either side of the last dot, none of
      which there is when the dot is the last character. */
  lemma MidNumberExactly(front: string, rear: string, isDigit: char -> bool)
    requires '.' !in rear
    ensures IsMidNumber(front + "." + rear, '.', isDigit) <==>
              front != "" && rear != "" && isDigit(front[|front| - 1]) && isDigit(rear[0])
    ensures forall c | c != '.' :: !IsMidNumber(front + "." + rear, c, isDigit)
  {
    var text := front + "." + rear;
    var i := LastIndexOf(text, '.');
    assert text[|front|] == '.';
    assert forall k | |front| < k < |text| :: text[k] == rear[k - |front| - 1];
    assert i == |front|;
  }

  /** When a text is handed on, without the guard that never fires. */
  lemma FlushesExactly(buffer: string, cfg: Config, isDigit: char -> bool)
    ensures var text := Strip(buffer);
            Flushes(buffer, cfg, isDigit) <==>
              && text != ""
              && (|| (text[|text| - 1] in cfg.boundary && !EndsWithAbbreviation(text) && |text| >= cfg.minChars)
                  || |text| >= cfg.maxChars)
  {
    if Strip(buffer) != "" { DecimalGuardNeverFires(Strip(buffer), cfg, isDigit); }
  }

  // ---- Abbreviations -----------------------------------------------------------------------

  /** The same word, but for the case of its letters. */
  predicate Spells(word: string, abbreviation: string) {
    |word| == |abbreviation| &&
    forall k | 0 <= k < |word| ::
      abbreviation[k] == if 'A' <= word[k] <= 'Z' then word[k] - 'A' + 'a' else word[k]
  }

  lemma LowerSpells(word: string, abbreviation: string)
    ensures Lower(word) == abbreviation <==> Spells(word, abbreviation)
  {
    LowerLength(word);
    forall k | 0 <= k < |word|
      ensures Lower(word)[k] == if 'A' <= word[k] <= 'Z' then word[k] - 'A' + 'a' else word[k]
    {
      LowerAt(word, k);
    }
  }

  predicate SpellsAbbreviation(word: string) {
    || Spells(word, "mr.") || Spells(word, "mrs.") || Spells(word, "ms.") || Spells(word, "dr.")
    || Spells(word, "prof.") || Spells(word, "sr.") || Spells(word, "jr.") || Spells(word, "vs.")
    || Spells(word, "etc.")
  }

  lemma SpellingMeaning(word: string)
    ensures Lower(word) in ABBREVIATIONS <==> SpellsAbbreviation(word)
  {
    LowerSpells(word, "mr.");
    LowerSpells(word, "mrs.");
    LowerSpells(word, "ms.");
    LowerSpells(word, "dr.");
    LowerSpells(word, "prof.");
    LowerSpells(word, "sr.");
    LowerSpells(word, "jr.");
    LowerSpells(word, "vs.");
    LowerSpells(word, "etc.");
  }

  /** A stripped text ends with an abbreviation exactly when what follows its last
      space spells one of the nine. */
  lemma AbbreviationExactly(front: string, word: string)
    requires IsStripped(front + word) && word != "" && ' ' !in word
    requires front == "" || front[|front| - 1] == ' '
    ensures EndsWithAbbreviation(front + word) <==> SpellsAbbreviation(word)
  {
    StrippedIsStable(front + word);
    SpellingMeaning(word);
    if front == "" {
      LastWordWhole(word);
      assert front + word == word;
    } else {
      LastWordSplit(front, word);
    }
  }

  lemma {:induction false} LastWordWhole(word: string)
    requires ' ' !in word
    ensures LastWord(word) == word
    decreases |word|
  {
    if word != "" {
      LastWordWhole(word[..|word| - 1]);
      assert word == word[..|word| - 1] + [word[|word| - 1]];
    }
  }

  predicate IsAsciiDigit(c: char) { '0' <= c <= '9' }

  /** The text so far, stripped, breaks off behind a decimal point (or what could
      be one). */
  predicate EndsInNumber(buffer: string) {
    var text := Strip(buffer);
    |text| >= 2 && IsAsciiDigit(text[|text| - 2]) && text[|text| - 1] == '.'
  }

  /** Exactly when a number is cut behind its decimal point: when the text up to
      there has the minimum length and dots are boundaries, or has the maximum
      length.  What the next token brings plays no part. */
  lemma NumberCutExactly(p: Progress, token: string, cfg: Config, isDigit: char -> bool)
    requires EndsInNumber(p.buffer + token)
    ensures var text := Strip(p.buffer + token);
            var cut := ('.' in cfg.boundary && |text| >= cfg.minChars) || |text| >= cfg.maxChars;
            && (Flushes(p.buffer + token, cfg, isDigit) <==> cut)
            && Feed(p, token, cfg, isDigit)
               == if cut then Progress("", p.emitted + [text]) else Progress(p.buffer + token, p.emitted)
  {
    var text := Strip(p.buffer + token);
    DecimalGuardNeverFires(text, cfg, isDigit);
    StripShape(p.buffer + token);
    NumberIsNoAbbreviation(text);
  }

  lemma NumberIsNoAbbreviation(text: string)
    requires Strip(text) == text && |text| >= 2 && IsAsciiDigit(text[|text| - 2]) && text[|text| - 1] == '.'
    ensures !EndsWithAbbreviation(text)
  {
    var n := |text|;
    var word := LastWord(text);
    assert LastWord(text[..n - 1]) == LastWord(text[..n - 1][..n - 2]) + [text[n - 2]];
    assert |word| >= 2 && word[|word| - 2] == text[n - 2];
    LowerLength(word);
    LowerAt(word, |word| - 2);
    assert forall a | a in ABBREVIATIONS :: !IsAsciiDigit(a[|a| - 2]);
  }

  lemma {:induction false} LowerAt(s: string, i: nat)
    requires i < |s|
    ensures |Lower(s)| == |s| && Lower(s)[i] == if 'A' <= s[i] <= 'Z' then s[i] - 'A' + 'a' else s[i]
  {
    LowerLength(s);
    LowerLength(s[1..]);
    if i > 0 { LowerAt(s[1..], i - 1); }
  }

  /** At the default settings a lone "3." is too short to be cut off. */
  lemma ShortNumberStays(isDigit: char -> bool)
    ensures Chunks(["3.", "14"], DEFAULT, isDigit) == ["3.14"]
  {
    assert "" + "3." == "3." && "3." + "14" == "3.14";
    StrippedIsStable("3.");
    StrippedIsStable("3.14");
    var start := Progress("", []);
    NumberCutExactly(start, "3.", DEFAULT, isDigit);
    assert ["3.", "14"][1..] == ["14"] && ["14"][1..] == [];
    assert Feed(Progress("3.", []), "14", DEFAULT, isDigit) == Progress("3.14", []);
    assert FeedFrom(Progress("3.", []), ["14"], DEFAULT, isDigit) == Progress("3.14", []);
    assert FeedFrom(start, ["3.", "14"], DEFAULT, isDigit) == Progress("3.14", []);
  }

  /** In a sentence it is not: here "3.14" arrives as "3." and "14", and is cut
      in two. */
  lemma DecimalIsSplit(isDigit: char -> bool)
    ensures Emitted(["The reading was 3.", "14 volts exactly."], DEFAULT, isDigit)
         == ["The reading was 3.", "14 volts exactly."]
  {
    var a := "The reading was 3.";
    var b := "14 volts exactly.";
    assert a == "The reading was " + "3.";
    assert b == "14 volts " + "exactly.";
    assert ' ' !in "3." && ' ' !in "exactly.";
    FlushesOnDot(a, "The reading was ", "3.", isDigit);
    FlushesOnDot(b, "14 volts ", "exactly.", isDigit);
    TwoFlushes(a, b, isDigit);
    assert Emitted([a, b], DEFAULT, isDigit) == [a, b];
  }

  lemma TwoFlushes(a: string, b: string, isDigit: char -> bool)
    requires Strip(a) == a && Flushes(a, DEFAULT, isDigit) && Strip(b) == b && Flushes(b, DEFAULT, isDigit)
    ensures Emitted([a, b], DEFAULT, isDigit) == [a, b]
  {
    assert "" + a == a && "" + b == b;
    assert [a, b][1..] == [b] && [b][1..] == [];
    assert Feed(Progress("", []), a, DEFAULT, isDigit) == Progress("", [a]);
    assert Feed(Progress("", [a]), b, DEFAULT, isDigit) == Progress("", [a, b]);
    assert FeedFrom(Progress("", [a]), [b], DEFAULT, isDigit) == Progress("", [a, b]);
    assert FeedFrom(Progress("", []), [a, b], DEFAULT, isDigit) == Progress("", [a, b]);
  }

  lemma FlushesOnDot(text: string, front: string, word: string, isDigit: char -> bool)
    requires text == front + word && front != "" && front[|front| - 1] == ' ' && word != ""
    requires !IsSpace(text[0]) && text[|text| - 1] == '.' && ' ' !in word
    requires (|word| < 3 || |word| > 5) && |text| >= 10
    ensures Strip(text) == text && Flushes(text, DEFAULT, isDigit)
  {
    StrippedIsStable(text);
    DecimalGuardNeverFires(text, DEFAULT, isDigit);
    LastWordSplit(front, word);
    LowerLength(word);
  }

  lemma {:induction false} LowerLength(s: string)
    ensures |Lower(s)| == |s|
  {
    if s != "" { LowerLength(s[1..]); }
  }

  lemma {:induction false} LastWordSplit(front: string, word: string)
    requires front != "" && front[|front| - 1] == ' ' && ' ' !in word
    ensures LastWord(front + word) == word
    decreases |word|
  {
    if word == "" {
      assert front + word == front;
    } else {
      var shorter := word[..|word| - 1];
      assert (front + word)[..|front + word| - 1] == front + shorter;
      LastWordSplit(front, shorter);
      assert (front + word)[|front + word| - 1] == word[|word| - 1];
      assert word == shorter + [word[|word| - 1]];
    }
  }
}
