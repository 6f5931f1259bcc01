/** What the chunks of a text mean, for every text and every setting of the sizes. */
module ChunkerProperties {
  import opened SourceText
  import opened Paragraphs
  import opened Chunker
  import Sanitizer
  import Splitter

  // ---------------------------------------------------------------------
  // One chunk and its span
  // ---------------------------------------------------------------------

  /**
   * The text of the chunk is its span, except that the white space w may stand for a longer
   * stretch of white space s[e..b].
   */
  ghost predicate Spliced(s: Text, c: Chunk, e: nat, b: nat, w: Text) {
    && c.charStart <= e <= b <= c.charEnd <= |s|
    && c.text == s[c.charStart..e] + w + s[b..c.charEnd]
    && AllSpace(w) && AllSpace(s[e..b])
    && |w| <= b - e
    && (|w| == b - e ==> w == s[e..b])
  }

  ghost predicate ChunkOk(s: Text, sizes: Sizes, c: Chunk) {
    && |c.text| <= sizes.target
    && !AllSpace(c.text)
    && exists e: nat, b: nat, w: Text :: Spliced(s, c, e, b, w)
  }

  ghost predicate Exact(s: Text, c: Chunk)
    requires InText(s, c)
  {
    c.text == s[c.charStart..c.charEnd]
  }

  /** Text and span agree up to white space, and altogether as soon as their lengths agree. */
  lemma ChunkOkMeaning(s: Text, sizes: Sizes, c: Chunk)
    requires ChunkOk(s, sizes, c)
    ensures InText(s, c) && c.charStart < c.charEnd
    ensures Ink(c.text) == Ink(s[c.charStart..c.charEnd])
    ensures Exact(s, c) <==> |c.text| == c.charEnd - c.charStart
  {
    var e: nat, b: nat, w: Text :| Spliced(s, c, e, b, w);
    var left, right := s[c.charStart..e], s[b..c.charEnd];
    calc {
      Ink(c.text);
      { InkConcat(left + w, right); }
      Ink(left + w) + Ink(right);
      { InkConcat(left, w); InkOfSpace(w); }
      Ink(left) + [] + Ink(right);
      { InkConcat(left, s[e..b]); InkOfSpace(s[e..b]); }
      Ink(left + s[e..b]) + Ink(right);
      { InkConcat(left + s[e..b], right); }
      Ink(left + s[e..b] + right);
      { assert left + s[e..b] + right == s[c.charStart..c.charEnd]; }
      Ink(s[c.charStart..c.charEnd]);
    }
    if |c.text| == c.charEnd - c.charStart {
      assert w == s[e..b];
    }
  }

  lemma FreshOk(s: Text, sizes: Sizes, u: SourceUnit)
    requires UnitOk(s, u, sizes.target)
    ensures ChunkOk(s, sizes, Fresh(u)) && Exact(s, Fresh(u))
  {
    var c := Fresh(u);
    assert s[u.charStart..u.charStart] == [];
    assert c.text == s[c.charStart..c.charStart] + [] + s[c.charStart..c.charEnd];
    assert Spliced(s, c, c.charStart, c.charStart, []);
  }

  /** The separator of a unit that touches position e is all that lies between them. */
  lemma SeparatorFills(s: Text, e: nat, u: SourceUnit)
    requires u.charStart <= |s| && Follows(s, e, u)
    ensures |u.separatorBefore| <= u.charStart - e
    ensures |u.separatorBefore| == u.charStart - e ==> u.separatorBefore == s[e..u.charStart]
  {
    var a: nat :| SeparatorAt(s, e, u.charStart, u.separatorBefore, a);
  }

  lemma InkAtTheEnd(a: Text, b: Text)
    requires !AllSpace(b)
    ensures !AllSpace(a + b)
  {
    var i :| 0 <= i < |b| && !IsSpace(b[i]);
    assert (a + b)[|a| + i] == b[i];
  }

  lemma TailJoins(s: Text, front: Text, b: nat, e: nat, start: nat, end: nat)
    requires b <= e <= start <= end <= |s|
    ensures front + s[b..e] + s[e..start] + s[start..end] == front + s[b..end]
  {
    assert s[b..e] + s[e..start] == s[b..start];
    assert s[b..start] + s[start..end] == s[b..end];
    assert front + s[b..e] + s[e..start] == front + (s[b..e] + s[e..start]);
    assert front + s[b..start] + s[start..end] == front + (s[b..start] + s[start..end]);
  }

  lemma ExtendedOk(s: Text, sizes: Sizes, c: Chunk, u: SourceUnit)
    requires ChunkOk(s, sizes, c) && InText(s, c)
    requires UnitOk(s, u, sizes.target) && Follows(s, c.charEnd, u)
    requires Appends(sizes, c, u)
    ensures ChunkOk(s, sizes, Extended(c, u))
    ensures Exact(s, Extended(c, u)) <==> Exact(s, c)
  {
    SeparatorFills(s, c.charEnd, u);
    var d := Extended(c, u);
    var e: nat, b: nat, w: Text :| Spliced(s, c, e, b, w);
    TailJoins(s, s[c.charStart..e] + w, b, c.charEnd, u.charStart, u.End());
    assert Spliced(s, d, e, b, w);
    InkAtTheEnd(c.text + u.separatorBefore, u.text);
    ChunkOkMeaning(s, sizes, c);
    ChunkOkMeaning(s, sizes, d);
  }

  lemma OverlapOk(s: Text, sizes: Sizes, c: Chunk, u: SourceUnit)
    requires InText(s, c)
    requires UnitOk(s, u, sizes.target) && Follows(s, c.charEnd, u)
    requires Overlaps(s, sizes, c, u)
    ensures ChunkOk(s, sizes, NextChunk(s, sizes, c, u)) && InText(s, NextChunk(s, sizes, c, u))
    ensures Exact(s, NextChunk(s, sizes, c, u)) <==> c.charEnd + |u.separatorBefore| == u.charStart
  {
    SeparatorFills(s, c.charEnd, u);
    var d := NextChunk(s, sizes, c, u);
    assert Spliced(s, d, c.charEnd, u.charStart, u.separatorBefore);
    InkAtTheEnd(s[OverlapStart(sizes, c)..c.charEnd] + u.separatorBefore, u.text);
    ChunkOkMeaning(s, sizes, d);
  }

  // ---------------------------------------------------------------------
  // The list of chunks
  // ---------------------------------------------------------------------

  /** Ends increase, starts do not decrease, and the overlap is bounded. */
  predicate Ordered(sizes: Sizes, a: Chunk, b: Chunk) {
    && a.charEnd < b.charEnd
    && a.charStart <= b.charStart
    && a.charEnd - b.charStart <= sizes.overlap
  }

  /** All units before unit `k` end at or before this position. */
  predicate Passed(units: seq<SourceUnit>, k: nat, end: nat) {
    k <= |units| && forall j | 0 <= j < k :: units[j].End() <= end
  }

  /**
   * The boundary between two chunks was forced: with the first unit u that lies beyond a, the text of a would be
   * too long, or white space was dropped between the two. The next chunk holds u and reaches back into a as far as
   * the overlap allows, or not at all if that would be too long.
   */
  ghost predicate ForcedBy(sizes: Sizes, units: seq<SourceUnit>, a: Chunk, b: Chunk, k: nat) {
    && k < |units| && Passed(units, k, a.charEnd)
    && var u := units[k];
       var back := if sizes.overlap < a.charEnd - a.charStart then a.charEnd - sizes.overlap else a.charStart;
       && a.charEnd <= u.charStart && u.charStart + |u.text| <= b.charEnd
       && (sizes.target < |a.text| + |u.separatorBefore| + |u.text|
           || a.charEnd + |u.separatorBefore| != u.charStart)
       && b.charStart == if 0 < sizes.overlap && a.charEnd - back + |u.separatorBefore| + |u.text| <= sizes.target
                         then back else u.charStart
  }

  ghost predicate Forced(sizes: Sizes, units: seq<SourceUnit>, a: Chunk, b: Chunk) {
    exists k: nat :: ForcedBy(sizes, units, a, b, k)
  }

  ghost predicate ChunksOk(s: Text, sizes: Sizes, units: seq<SourceUnit>, chunks: seq<Chunk>) {
    && (forall j | 0 <= j < |chunks| :: ChunkOk(s, sizes, chunks[j]) && InText(s, chunks[j]))
    && (forall j | 0 < j < |chunks| :: Ordered(sizes, chunks[j - 1], chunks[j]))
    && (forall j | 0 < j < |chunks| :: Forced(sizes, units, chunks[j - 1], chunks[j]))
  }

  ghost predicate Covered(chunks: seq<Chunk>, p: nat) {
    exists j | 0 <= j < |chunks| :: chunks[j].charStart <= p < chunks[j].charEnd
  }

  /** Every position with ink before `end` lies in the span of some chunk. */
  ghost predicate InkCovered(s: Text, chunks: seq<Chunk>, end: nat)
    requires end <= |s|
  {
    forall p: nat | p < end && !IsSpace(s[p]) :: Covered(chunks, p)
  }

  lemma CoveredMore(s: Text, before: seq<Chunk>, after: seq<Chunk>, e: nat, u: SourceUnit, last: Chunk)
    requires e <= |s| && InkCovered(s, before, e)
    requires u.End() <= |s| && Follows(s, e, u)
    requires last in after && last.charStart <= u.charStart && u.End() <= last.charEnd
    requires forall c | c in before :: exists d | d in after :: d.charStart <= c.charStart && c.charEnd <= d.charEnd
    ensures InkCovered(s, after, u.End())
  {
    forall p: nat | p < u.End() && !IsSpace(s[p])
      ensures Covered(after, p)
    {
      if p < e {
        var j :| 0 <= j < |before| && before[j].charStart <= p < before[j].charEnd;
        assert before[j] in before;
        var d :| d in after && d.charStart <= before[j].charStart && before[j].charEnd <= d.charEnd;
        var k :| 0 <= k < |after| && after[k] == d;
        assert Covered(after, p);
      } else {
        if p < u.charStart {
          SpaceAt(s, e, u.charStart, p);
        }
        var k :| 0 <= k < |after| && after[k] == last;
        assert Covered(after, p);
      }
    }
  }

  /** The state of the merge after some units. */
  ghost predicate MergerOk(s: Text, sizes: Sizes, units: seq<SourceUnit>, m: Merger) {
    && InText(s, m.current)
    && (m.current.text == [] ==> m == START)
    && ChunksOk(s, sizes, units, m.All())
    && InkCovered(s, m.All(), m.current.charEnd)
  }

  /** Whether the chunks gained by one unit are exact. */
  predicate JoinsGap(s: Text, sizes: Sizes, m: Merger, u: SourceUnit)
    requires InText(s, m.current)
  {
    && m.current.text != []
    && !Appends(sizes, m.current, u)
    && Overlaps(s, sizes, m.current, u)
    && m.current.charEnd + |u.separatorBefore| != u.charStart
  }

  ghost predicate AllExact(s: Text, chunks: seq<Chunk>)
  {
    forall j | 0 <= j < |chunks| :: InText(s, chunks[j]) && Exact(s, chunks[j])
  }

  lemma StepFresh(s: Text, sizes: Sizes, units: seq<SourceUnit>, m: Merger, u: SourceUnit)
    requires MergerOk(s, sizes, units, m) && m.current.text == []
    requires UnitOk(s, u, sizes.target) && Follows(s, m.current.charEnd, u)
    ensures MergerOk(s, sizes, units, MergeUnit(s, sizes, m, u))
    ensures AllExact(s, MergeUnit(s, sizes, m, u).All())
  {
    FreshOk(s, sizes, u);
    var next := MergeUnit(s, sizes, m, u);
    assert next.All() == [Fresh(u)];
    CoveredMore(s, [], next.All(), 0, u, Fresh(u));
  }

  lemma ForcedLonger(sizes: Sizes, units: seq<SourceUnit>, a: Chunk, c: Chunk, d: Chunk)
    requires Forced(sizes, units, a, c) && d.charStart == c.charStart && c.charEnd <= d.charEnd
    ensures Forced(sizes, units, a, d)
  {
    var k: nat :| ForcedBy(sizes, units, a, c, k);
    assert ForcedBy(sizes, units, a, d, k);
  }

  lemma LongerLast(s: Text, sizes: Sizes, units: seq<SourceUnit>, chunks: seq<Chunk>, c: Chunk, d: Chunk)
    requires ChunksOk(s, sizes, units, chunks + [c])
    requires ChunkOk(s, sizes, d) && InText(s, d)
    requires d.charStart == c.charStart && c.charEnd <= d.charEnd
    ensures ChunksOk(s, sizes, units, chunks + [d])
  {
    hide ChunkOk, Forced;
    var n := |chunks|;
    var before, after := chunks + [c], chunks + [d];
    assert before[n] == c && after[n] == d;
    assert forall j | 0 <= j < n :: before[j] == after[j];
    forall j | 0 < j < |after|
      ensures Ordered(sizes, after[j - 1], after[j]) && Forced(sizes, units, after[j - 1], after[j])
    {
      assert Ordered(sizes, before[j - 1], before[j]) && Forced(sizes, units, before[j - 1], before[j]);
      if j == n {
        ForcedLonger(sizes, units, before[j - 1], c, d);
      }
    }
  }

  lemma StepAppend(s: Text, sizes: Sizes, units: seq<SourceUnit>, m: Merger, u: SourceUnit)
    requires MergerOk(s, sizes, units, m) && m.current.text != [] && Appends(sizes, m.current, u)
    requires UnitOk(s, u, sizes.target) && Follows(s, m.current.charEnd, u)
    ensures MergerOk(s, sizes, units, MergeUnit(s, sizes, m, u))
    ensures AllExact(s, MergeUnit(s, sizes, m, u).All()) <==> AllExact(s, m.All())
  {
    hide ChunkOk, UnitOk, Exact, AllExact, Overlaps, Ordered, Forced;
    var before, after := m.All(), MergeUnit(s, sizes, m, u).All();
    var d := Extended(m.current, u);
    UnitInside(s, u, sizes.target);
    assert before[|m.chunks|] == m.current;
    ExtendedOk(s, sizes, m.current, u);
    ChunkOkMeaning(s, sizes, d);
    LongerLast(s, sizes, units, m.chunks, m.current, d);
    assert after == m.chunks + [d];
    assert after[|m.chunks|] == d;
    assert forall j | 0 <= j < |m.chunks| :: before[j] == after[j];
    CoveredMore(s, before, after, m.current.charEnd, u, d);
    ExactAppend(s, m.chunks, m.current);
    ExactAppend(s, m.chunks, d);
  }

  lemma UnitInside(s: Text, u: SourceUnit, limit: nat)
    requires UnitOk(s, u, limit)
    ensures u.text != [] && u.End() <= |s|
  {
  }

  lemma ExactAppend(s: Text, chunks: seq<Chunk>, c: Chunk)
    requires InText(s, c)
    ensures AllExact(s, chunks + [c]) <==> AllExact(s, chunks) && Exact(s, c)
  {
    var more := chunks + [c];
    assert forall j | 0 <= j < |chunks| :: more[j] == chunks[j];
    assert more[|chunks|] == c;
  }

  lemma OneMore(s: Text, sizes: Sizes, units: seq<SourceUnit>, chunks: seq<Chunk>, c: Chunk, d: Chunk)
    requires ChunksOk(s, sizes, units, chunks + [c])
    requires ChunkOk(s, sizes, d) && InText(s, d)
    requires InText(s, c) && Ordered(sizes, c, d) && Forced(sizes, units, c, d)
    ensures ChunksOk(s, sizes, units, chunks + [c] + [d])
  {
    hide ChunkOk, Ordered, Forced;
    var n := |chunks|;
    var before, after := chunks + [c], chunks + [c] + [d];
    assert after[n] == c && after[n + 1] == d;
    assert forall j | 0 <= j <= n :: before[j] == after[j];
    forall j | 0 < j < |after|
      ensures Ordered(sizes, after[j - 1], after[j]) && Forced(sizes, units, after[j - 1], after[j])
    {
      if j <= n {
        assert Ordered(sizes, before[j - 1], before[j]) && Forced(sizes, units, before[j - 1], before[j]);
      }
    }
  }

  lemma BoundaryIsForced(s: Text, sizes: Sizes, units: seq<SourceUnit>, c: Chunk, k: nat)
    requires k < |units| && Passed(units, k, c.charEnd) && InText(s, c) && c.charEnd <= units[k].charStart
    requires !Appends(sizes, c, units[k])
    ensures Forced(sizes, units, c, NextChunk(s, sizes, c, units[k]))
  {
    assert ForcedBy(sizes, units, c, NextChunk(s, sizes, c, units[k]), k);
  }

  lemma StepFlush(s: Text, sizes: Sizes, units: seq<SourceUnit>, m: Merger, k: nat, u: SourceUnit)
    requires MergerOk(s, sizes, units, m) && m.current.text != [] && !Appends(sizes, m.current, u)
    requires k < |units| && u == units[k] && Passed(units, k, m.current.charEnd)
    requires UnitOk(s, u, sizes.target) && Follows(s, m.current.charEnd, u)
    ensures MergerOk(s, sizes, units, MergeUnit(s, sizes, m, u))
    ensures AllExact(s, MergeUnit(s, sizes, m, u).All())
       <==> AllExact(s, m.All()) && !JoinsGap(s, sizes, m, u)
  {
    hide ChunkOk, UnitOk, Exact, Appends, AllSpace, SeparatorWithin;
    var before, after := m.All(), MergeUnit(s, sizes, m, u).All();
    var d := NextChunk(s, sizes, m.current, u);
    UnitInside(s, u, sizes.target);
    assert after == before + [d];
    if Overlaps(s, sizes, m.current, u) {
      OverlapOk(s, sizes, m.current, u);
    } else {
      FreshOk(s, sizes, u);
    }
    assert Ordered(sizes, m.current, d);
    BoundaryIsForced(s, sizes, units, m.current, k);
    hide Ordered, Forced, AllExact;
    OneMore(s, sizes, units, m.chunks, m.current, d);
    assert after[|m.chunks| + 1] == d;
    assert forall j | 0 <= j < |before| :: before[j] == after[j];
    CoveredMore(s, before, after, m.current.charEnd, u, d);
    ExactAppend(s, before, d);
  }

  // ---------------------------------------------------------------------
  // Whole texts
  // ---------------------------------------------------------------------

  /** No chunk is opened with an overlap that jumps over dropped white space. */
  ghost predicate NoGapJoined(s: Text, sizes: Sizes, m: Merger, units: seq<SourceUnit>)
    requires Ready(s, sizes, m, units)
    decreases |units|
  {
    units == [] ||
    (ReadyNext(s, sizes, m, units);
     && !JoinsGap(s, sizes, m, units[0])
     && NoGapJoined(s, sizes, MergeUnit(s, sizes, m, units[0]), units[1..]))
  }

  lemma {:induction false} MergeProperties(s: Text, sizes: Sizes, all: seq<SourceUnit>, k: nat, m: Merger,
          units: seq<SourceUnit>)
    requires Ready(s, sizes, m, units) && MergerOk(s, sizes, all, m)
    requires Passed(all, k, m.current.charEnd) && units == all[k..]
    ensures ChunksOk(s, sizes, all, Merge(s, sizes, m, units))
    ensures InkCovered(s, Merge(s, sizes, m, units), |s|)
    ensures AllExact(s, Merge(s, sizes, m, units))
       <==> AllExact(s, m.All()) && NoGapJoined(s, sizes, m, units)
    decreases |units|
  {
    hide Appends, Overlaps, ChunksOk, AllExact, ChunkOk;
    if units == [] {
      forall p: nat | m.current.charEnd <= p < |s|
        ensures IsSpace(s[p])
      {
        SpaceAt(s, m.current.charEnd, |s|, p);
      }
    } else {
      var u := units[0];
      ReadyNext(s, sizes, m, units);
      if m.current.text == [] {
        StepFresh(s, sizes, all, m, u);
        NoChunksExact(s);
      } else if Appends(sizes, m.current, u) {
        StepAppend(s, sizes, all, m, u);
      } else {
        StepFlush(s, sizes, all, m, k, u);
      }
      assert units[0] == all[k] && units[1..] == all[k + 1..];
      MergeProperties(s, sizes, all, k + 1, MergeUnit(s, sizes, m, u), units[1..]);
    }
  }

  lemma NoChunksExact(s: Text)
    ensures AllExact(s, START.All())
  {
  }

  /**
   * The main theorem: sizes, order, overlap and forced boundaries, coverage of every position
   * with ink, and exactly when all chunk texts are their spans. It holds for every chain of units;
   * the units of a text are one (`UnitsChain`).
   */
  lemma Chunking(s: Text, sizes: Sizes, units: seq<SourceUnit>)
    requires Chain(s, 0, units, sizes.target)
    ensures ChunksOk(s, sizes, units, Merge(s, sizes, START, units))
    ensures InkCovered(s, Merge(s, sizes, START, units), |s|)
    ensures AllExact(s, Merge(s, sizes, START, units)) <==> NoGapJoined(s, sizes, START, units)
  {
    NoChunksExact(s);
    assert units[0..] == units;
    MergeProperties(s, sizes, units, 0, START, units);
  }

  // ---------------------------------------------------------------------
  // When the splitter drops nothing
  // ---------------------------------------------------------------------

  lemma {:induction false} TouchingIsGapFree(s: Text, sizes: Sizes, m: Merger, units: seq<SourceUnit>)
    requires Ready(s, sizes, m, units)
    requires m.current.text != [] ==> Splitter.Touching(m.current.charEnd, units)
    requires m.current.text == [] && units != [] ==> Splitter.Touching(units[0].End(), units[1..])
    ensures NoGapJoined(s, sizes, m, units)
    decreases |units|
  {
    hide Chain;
    if units != [] {
      ReadyNext(s, sizes, m, units);
      UnitInside(s, units[0], sizes.target);
      TouchingIsGapFree(s, sizes, MergeUnit(s, sizes, m, units[0]), units[1..]);
    }
  }

  lemma {:induction false} ParagraphsTouch(t: Text, paragraphs: seq<SourceUnit>, k: nat)
    requires ParagraphsOf(t, paragraphs) && 0 < k <= |paragraphs|
    ensures Splitter.Touching(paragraphs[k - 1].End(), paragraphs[k..])
    decreases |paragraphs| - k
  {
    if k < |paragraphs| {
      ParagraphsTouch(t, paragraphs, k + 1);
      assert Adjoin(t, paragraphs[k - 1], paragraphs[k]);
      assert paragraphs[k..][1..] == paragraphs[k + 1..];
    }
  }

  /** If no piece of a long paragraph is dropped, every chunk's text is exactly its span. */
  lemma ExactWhenNothingDropped(s: Text, sizes: Sizes, paragraphs: seq<SourceUnit>, units: seq<SourceUnit>)
    requires UnitsOf(s, sizes, paragraphs, units)
    requires Chain(s, 0, units, sizes.target)
    requires forall k | 0 <= k < |paragraphs| :: !Splitter.Drops(paragraphs[k], sizes.target)
    ensures AllExact(s, Merge(s, sizes, START, units))
  {
    Chunking(s, sizes, units);
    if paragraphs != [] {
      var first := paragraphs[0];
      assert Paragraph(s, first);
      var e := first.charStart - |first.separatorBefore|;
      ParagraphsTouch(s, paragraphs, 1);
      forall k | 0 <= k < |paragraphs|
        ensures paragraphs[k].text != []
      {
        assert Paragraph(s, paragraphs[k]);
      }
      Splitter.SplitAllTouch(e, paragraphs, sizes.target);
      TouchingIsGapFree(s, sizes, START, units);
    }
  }

  /** Without overlap every chunk's text is exactly its span, whatever was dropped. */
  lemma {:induction false} NoOverlapIsGapFree(s: Text, sizes: Sizes, m: Merger, units: seq<SourceUnit>)
    requires Ready(s, sizes, m, units) && sizes.overlap == 0
    ensures NoGapJoined(s, sizes, m, units)
    decreases |units|
  {
    hide Chain;
    if units != [] {
      ReadyNext(s, sizes, m, units);
      NoOverlapIsGapFree(s, sizes, MergeUnit(s, sizes, m, units[0]), units[1..]);
    }
  }

  // ---------------------------------------------------------------------
  // Texts whose chunks are not their spans, and texts with dropped pieces
  // ---------------------------------------------------------------------

  const BLANK: CodeUnit := 0x20

  function Blanks(n: nat): (t: Text)
    ensures |t| == n && AllSpace(t) && forall k | 0 <= k < n :: t[k] == BLANK
  {
    seq(n, _ => BLANK)
  }

  function Letters(n: nat): (t: Text)
    ensures |t| == n && forall k | 0 <= k < n :: t[k] == 98
  {
    seq(n, _ => 98)
  }

  /** A text on one line is one paragraph. */
  lemma OneParagraph(s: Text)
    requires !AllSpace(s) && NEWLINE !in s
    ensures ParagraphsOf(s, [SourceUnit(s, 0, [])])
  {
    var u := SourceUnit(s, 0, []);
    assert s[0..|s|] == s && s[..0] == [] && s[|s|..] == [] && s[0..0] == [];
    forall p | 0 <= p < |s| ensures !BreaksAt(s, p) {
      assert s[p] != NEWLINE;
    }
    assert Paragraph(s, u) && Opens(s, u);
  }

  /** A text without commas holds no data URL. */
  lemma PlainText(s: Text)
    requires COMMA !in s
    ensures Sanitizer.Sanitized(s) == s
  {
    forall p | 0 <= p < |s| ensures !Sanitizer.UrlAt(s, p) {
      assert forall comma: nat | comma < |s| :: s[comma] != COMMA;
    }
    Sanitizer.KeepRun(s, 0, |s|);
    assert s[0..|s|] == s;
  }

  lemma CutAtSentence(t: Text, start: nat, target: nat, end: nat)
    requires start < end <= start + target <= |t|
    requires Splitter.EndsSentence(t[end - 1])
    requires forall k | end <= k < start + target :: !Splitter.EndsSentence(t[k])
    ensures Splitter.CutAfter(t, start, target) == end
  {
  }

  lemma CutAtTarget(t: Text, start: nat, target: nat)
    requires 0 < target && start + target <= |t|
    requires forall k | start <= k < start + target :: !Splitter.EndsSentence(t[k])
    ensures Splitter.CutAfter(t, start, target) == start + target
  {
  }

  /** Two cuts, the stretch between them without ink: the first piece is kept and the second dropped. */
  lemma SecondPieceDropped(par: SourceUnit, target: nat, a: nat, b: nat)
    requires 0 < target < |par.text| && a + target <= |par.text|
    requires Splitter.CutAfter(par.text, 0, target) == a && !Splitter.Blank(par, 0, a)
    requires Splitter.CutAfter(par.text, a, target) == b && Splitter.Blank(par, a, b)
    ensures Splitter.Drops(par, target)
    ensures Splitter.SplitAll([par], target)
         == [Splitter.Cut(par, 0, a, par.separatorBefore)] + Splitter.Parts(par, b, target, [])
  {
    hide Splitter.CutAfter, Splitter.Blank, Splitter.Cut;
    var rest := Splitter.Parts(par, b, target, []);
    assert Splitter.Parts(par, a, target, []) == rest;
    assert Splitter.DropsFrom(par, a, target);
    assert Splitter.SplitAll([par][1..], target) == [];
    assert Splitter.Split(par, target) == [Splitter.Cut(par, 0, a, par.separatorBefore)] + rest;
  }

  lemma LastPiece(par: SourceUnit, start: nat, target: nat)
    requires start <= |par.text| < start + target && !Splitter.Blank(par, start, |par.text|)
    ensures Splitter.Parts(par, start, target, []) == [Splitter.Cut(par, start, |par.text|, [])]
  {
  }

  lemma LastFullPiece(par: SourceUnit, start: nat, target: nat)
    requires 0 < target && start + target == |par.text| && !Splitter.Blank(par, start, |par.text|)
    requires Splitter.CutAfter(par.text, start, target) == |par.text|
    ensures Splitter.Parts(par, start, target, []) == [Splitter.Cut(par, start, |par.text|, [])]
  {
    assert par.text[|par.text|..|par.text|] == [];
    assert Splitter.Parts(par, |par.text|, target, []) == [];
    var last := Splitter.Cut(par, start, |par.text|, []);
    assert [last] + [] == [last];
  }

  /** "a.", more blanks than fit into a chunk, and "b". */
  function Spread(target: nat): Text {
    [97, 46] + Blanks(target + 1) + [98]
  }

  /** The window after "a." holds blanks only, and so does all but the end of the rest. */
  lemma SpreadCuts(target: nat)
    requires 4 <= target
    ensures var s := Spread(target);
            && |s| == target + 4 && s[0..2] == [97, 46] && s[target + 2..target + 4] == [BLANK, 98]
            && AllSpace(s[2..target + 2]) && NEWLINE !in s && COMMA !in s && !AllSpace(s)
            && Splitter.CutAfter(s, 0, target) == 2 && Splitter.CutAfter(s, 2, target) == target + 2
  {
    var s := Spread(target);
    assert s[0] == 97 && s[1] == 46 && s[target + 2] == BLANK && s[target + 3] == 98;
    assert forall k | 2 <= k < target + 3 :: s[k] == Blanks(target + 1)[k - 2];
    CutAtSentence(s, 0, target, 2);
    CutAtTarget(s, 2, target);
  }

  lemma PiecesHaveInk()
    ensures !AllSpace([97, 46]) && !AllSpace([BLANK, 98])
  {
    var first: Text, last: Text := [97, 46], [BLANK, 98];
    assert first[0] == 97 && last[1] == 98;
  }

  /** "a." and the last blank with "b" are kept, the blanks between them are dropped. */
  lemma SpreadUnits(sizes: Sizes)
    requires 4 <= sizes.target
    ensures UnitsOf(Spread(sizes.target), sizes, [SourceUnit(Spread(sizes.target), 0, [])],
                    [SourceUnit([97, 46], 0, []), SourceUnit([BLANK, 98], sizes.target + 2, [])])
  {
    var s, target := Spread(sizes.target), sizes.target;
    var par := SourceUnit(s, 0, []);
    SpreadCuts(target);
    OneParagraph(s);
    PiecesHaveInk();
    var first, last := SourceUnit([97, 46], 0, []), SourceUnit([BLANK, 98], target + 2, []);
    assert Splitter.Cut(par, 0, 2, []) == first && Splitter.Cut(par, target + 2, target + 4, []) == last;
    assert !Splitter.Blank(par, 0, 2) && Splitter.Blank(par, 2, target + 2);
    assert !Splitter.Blank(par, target + 2, target + 4);
    hide Spread, AllSpace, ParagraphsOf, Splitter.CutAfter, Splitter.Parts, Splitter.SplitAll, Splitter.Drops;
    hide Splitter.Blank, Splitter.Cut;
    SecondPieceDropped(par, target, 2, target + 2);
    LastPiece(par, target + 2, target);
    assert [first] + [last] == [first, last];
  }

  /** The second chunk is opened with the end of "a.", although the blanks between are gone. */
  lemma SpreadJoins(sizes: Sizes) returns (paragraphs: seq<SourceUnit>, units: seq<SourceUnit>, chunks: seq<Chunk>)
    requires 4 <= sizes.target && 0 < sizes.overlap
    ensures var s := Spread(sizes.target);
            && !AllSpace(s) && Sanitizer.Sanitized(s) == s && ChunksOf(s, sizes, paragraphs, units, chunks)
            && !AllExact(s, chunks)
  {
    var s := Spread(sizes.target);
    paragraphs := [SourceUnit(s, 0, [])];
    SpreadCuts(sizes.target);
    PlainText(s);
    SpreadUnits(sizes);
    units := [SourceUnit([97, 46], 0, []), SourceUnit([BLANK, 98], sizes.target + 2, [])];
    UnitsChain(s, sizes, paragraphs, units);
    chunks := Merge(s, sizes, START, units);
    Chunking(s, sizes, units);
    var first := MergeUnit(s, sizes, START, units[0]);
    SpreadMerges(sizes, s, units);
  }

  lemma SpreadMerges(sizes: Sizes, s: Text, units: seq<SourceUnit>)
    requires 4 <= sizes.target && 0 < sizes.overlap && Ready(s, sizes, START, units)
    requires |units| == 2 && units[0] == SourceUnit([97, 46], 0, [])
    requires units[1] == SourceUnit([BLANK, 98], sizes.target + 2, [])
    ensures !NoGapJoined(s, sizes, START, units)
  {
    hide Chain;
    ReadyNext(s, sizes, START, units);
    var first := MergeUnit(s, sizes, START, units[0]);
    assert first.current == Chunk([97, 46], 0, 2);
    assert JoinsGap(s, sizes, first, units[1]);
    assert units[1..][0] == units[1];
    assert !NoGapJoined(s, sizes, first, units[1..]);
  }

  /**
   * Whether a text can have a chunk that is not its span depends on the overlap alone: with one
   * there is such a text, without one there is none.
   */
  lemma GapPossible(sizes: Sizes)
    requires 4 <= sizes.target
    ensures 0 < sizes.overlap
       <==> exists text, paragraphs, units, chunks ::
              && !AllSpace(text) && ChunksOf(Sanitizer.Sanitized(text), sizes, paragraphs, units, chunks)
              && !AllExact(Sanitizer.Sanitized(text), chunks)
  {
    if 0 < sizes.overlap {
      var paragraphs, units, chunks := SpreadJoins(sizes);
      assert !AllSpace(Spread(sizes.target));
    } else {
      forall text, paragraphs, units, chunks | ChunksOf(Sanitizer.Sanitized(text), sizes, paragraphs, units, chunks)
        ensures AllExact(Sanitizer.Sanitized(text), chunks)
      {
        var s := Sanitizer.Sanitized(text);
        NoOverlapIsGapFree(s, sizes, START, units);
        Chunking(s, sizes, units);
      }
    }
  }

  /** As many letters, blanks and letters again as fit into a chunk. */
  function Apart(target: nat): Text {
    Letters(target) + Blanks(target) + Letters(target)
  }

  /** Three windows without a sentence end. */
  lemma ApartCuts(target: nat)
    requires 0 < target
    ensures var s, n := Apart(target), target;
            && s[0..n] == Letters(n) && s[n..2 * n] == Blanks(n) && s[2 * n..3 * n] == Letters(n)
            && NEWLINE !in s && COMMA !in s && !AllSpace(s) && !AllSpace(Letters(n))
            && Splitter.CutAfter(s, 0, n) == n && Splitter.CutAfter(s, n, n) == 2 * n
            && Splitter.CutAfter(s, 2 * n, n) == 3 * n
  {
    var s, n := Apart(target), target;
    assert s[0] == 98 && Letters(n)[0] == 98;
    assert forall k | 0 <= k < |s| :: s[k] == 98 || s[k] == BLANK;
    CutAtTarget(s, 0, n);
    CutAtTarget(s, n, n);
    CutAtTarget(s, 2 * n, n);
  }

  lemma ApartUnits(sizes: Sizes)
    requires 0 < sizes.target
    ensures var s, n := Apart(sizes.target), sizes.target;
            && Splitter.Drops(SourceUnit(s, 0, []), n)
            && UnitsOf(s, sizes, [SourceUnit(s, 0, [])],
                       [SourceUnit(Letters(n), 0, []), SourceUnit(Letters(n), 2 * n, [])])
  {
    var s, n := Apart(sizes.target), sizes.target;
    var par := SourceUnit(s, 0, []);
    ApartCuts(n);
    OneParagraph(s);
    hide Splitter.CutAfter, ParagraphsOf, AllSpace, Letters, Splitter.Parts, Splitter.SplitAll, Splitter.Drops;
    BlanksAreBlank(n);
    SecondPieceDropped(par, n, n, 2 * n);
    LastFullPiece(par, 2 * n, n);
  }

  lemma BlanksAreBlank(n: nat)
    ensures AllSpace(Blanks(n))
  {
  }

  /** A piece can be dropped and every chunk's text is still its span, whatever the overlap. */
  lemma DroppedYetExact(sizes: Sizes) returns (paragraphs: seq<SourceUnit>, units: seq<SourceUnit>, chunks: seq<Chunk>)
    requires 0 < sizes.target
    ensures var s := Apart(sizes.target);
            && !AllSpace(s) && Sanitizer.Sanitized(s) == s && ChunksOf(s, sizes, paragraphs, units, chunks)
            && (exists k | 0 <= k < |paragraphs| :: Splitter.Drops(paragraphs[k], sizes.target))
            && AllExact(s, chunks)
  {
    hide *;
    var s, n := Apart(sizes.target), sizes.target;
    var par, first, last := SourceUnit(s, 0, []), SourceUnit(Letters(n), 0, []), SourceUnit(Letters(n), 2 * n, []);
    paragraphs, units := [par], [first, last];
    ApartCuts(n);
    PlainText(s);
    ApartUnits(sizes);
    UnitsChain(s, sizes, paragraphs, units);
    StartIsReady(s, sizes, units);
    chunks := Merge(s, sizes, START, units);
    ChunksAre(s, sizes, paragraphs, units);
    Chunking(s, sizes, units);
    assert Splitter.Drops(paragraphs[0], n);
    ApartMerges(sizes, s, units);
  }

  lemma StartIsReady(s: Text, sizes: Sizes, units: seq<SourceUnit>)
    requires Chain(s, 0, units, sizes.target)
    ensures Ready(s, sizes, START, units)
  {
  }

  lemma ChunksAre(s: Text, sizes: Sizes, paragraphs: seq<SourceUnit>, units: seq<SourceUnit>)
    requires UnitsOf(s, sizes, paragraphs, units) && Chain(s, 0, units, sizes.target)
    ensures Ready(s, sizes, START, units)
    ensures ChunksOf(s, sizes, paragraphs, units, Merge(s, sizes, START, units))
  {
  }

  /** The second run of letters leaves no room for an overlap. */
  lemma ApartMerges(sizes: Sizes, s: Text, units: seq<SourceUnit>)
    requires 0 < sizes.target && Ready(s, sizes, START, units)
    requires |units| == 2 && |units[0].text| == |units[1].text| == sizes.target && units[1].separatorBefore == []
    ensures NoGapJoined(s, sizes, START, units)
  {
    hide Chain;
    ReadyNext(s, sizes, START, units);
    var first := MergeUnit(s, sizes, START, units[0]);
    ReadyNext(s, sizes, first, units[1..]);
    assert units[1..][0] == units[1] && units[1..][1..] == [];
    assert NoGapJoined(s, sizes, MergeUnit(s, sizes, first, units[1]), []);
    assert 0 < sizes.overlap ==> |OverlapText(s, sizes, first.current, units[1])| > sizes.target;
    assert NoGapJoined(s, sizes, first, units[1..]);
  }
}
