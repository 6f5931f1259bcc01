/**
 * Merging source units into chunks with overlap.
 *
 * `ChunkText` is the program. What its result means is stated about `Merge`, the same fold over
 * the units as a function: the bounds, the order, the overlap, the coverage, and how a chunk's
 * text relates to the stretch of source it reports.
 */
module Chunker {
  import opened SourceText
  import opened Paragraphs
  import Sanitizer
  import Splitter

  /** The configured sizes, in code units. The overlap may exceed the target. */
  datatype Sizes = Sizes(target: nat, overlap: nat)

  /** A chunk and the stretch of source text it reports. */
  datatype Chunk = Chunk(text: Text, charStart: nat, charEnd: nat)

  /** The chunks flushed so far and the chunk being built, which is empty only at the start. */
  datatype Merger = Merger(chunks: seq<Chunk>, current: Chunk) {
    function All(): seq<Chunk> {
      if current.text == [] then chunks else chunks + [current]
    }
  }

  const START := Merger([], Chunk([], 0, 0))

  // ---------------------------------------------------------------------
  // One unit at a time
  // ---------------------------------------------------------------------

  predicate InText(s: Text, c: Chunk) {
    c.charStart <= c.charEnd <= |s|
  }

  /** The unit starts where the current chunk and the separator end, and still fits. */
  predicate Appends(sizes: Sizes, c: Chunk, u: SourceUnit) {
    && |c.text| + |u.separatorBefore| + |u.text| <= sizes.target
    && c.charEnd + |u.separatorBefore| == u.charStart
  }

  function OverlapStart(sizes: Sizes, c: Chunk): nat {
    if c.charEnd < c.charStart + sizes.overlap then c.charStart else c.charEnd - sizes.overlap
  }

  function OverlapText(s: Text, sizes: Sizes, c: Chunk, u: SourceUnit): Text
    requires InText(s, c)
  {
    s[OverlapStart(sizes, c)..c.charEnd] + u.separatorBefore + u.text
  }

  predicate Overlaps(s: Text, sizes: Sizes, c: Chunk, u: SourceUnit)
    requires InText(s, c)
  {
    0 < sizes.overlap && |OverlapText(s, sizes, c, u)| <= sizes.target
  }

  function Fresh(u: SourceUnit): Chunk {
    Chunk(u.text, u.charStart, u.End())
  }

  /** The chunk that follows c and begins with the unit u. */
  function NextChunk(s: Text, sizes: Sizes, c: Chunk, u: SourceUnit): Chunk
    requires InText(s, c)
  {
    if Overlaps(s, sizes, c, u) then Chunk(OverlapText(s, sizes, c, u), OverlapStart(sizes, c), u.End())
    else Fresh(u)
  }

  function Extended(c: Chunk, u: SourceUnit): Chunk {
    Chunk(c.text + u.separatorBefore + u.text, c.charStart, u.End())
  }

  function MergeUnit(s: Text, sizes: Sizes, m: Merger, u: SourceUnit): Merger
    requires InText(s, m.current)
  {
    if m.current.text == [] then Merger(m.chunks, Fresh(u))
    else if Appends(sizes, m.current, u) then Merger(m.chunks, Extended(m.current, u))
    else Merger(m.chunks + [m.current], NextChunk(s, sizes, m.current, u))
  }

  /** The units can be read off the text from the end of the current chunk on. */
  ghost predicate Ready(s: Text, sizes: Sizes, m: Merger, units: seq<SourceUnit>) {
    && InText(s, m.current)
    && Chain(s, m.current.charEnd, units, sizes.target)
  }

  lemma ReadyNext(s: Text, sizes: Sizes, m: Merger, units: seq<SourceUnit>)
    requires Ready(s, sizes, m, units) && units != []
    ensures UnitOk(s, units[0], sizes.target) && Follows(s, m.current.charEnd, units[0])
    ensures Ready(s, sizes, MergeUnit(s, sizes, m, units[0]), units[1..])
  {
  }

  ghost function Merge(s: Text, sizes: Sizes, m: Merger, units: seq<SourceUnit>): seq<Chunk>
    requires Ready(s, sizes, m, units)
    decreases |units|
  {
    if units == [] then m.All()
    else
      ReadyNext(s, sizes, m, units);
      Merge(s, sizes, MergeUnit(s, sizes, m, units[0]), units[1..])
  }

  // ---------------------------------------------------------------------
  // The program
  // ---------------------------------------------------------------------

  /** The merge loop, with the current chunk in local variables. */
  method MergeUnits(s: Text, sizes: Sizes, units: seq<SourceUnit>) returns (chunks: seq<Chunk>)
    requires Chain(s, 0, units, sizes.target)
    ensures chunks == Merge(s, sizes, START, units)
  {
    hide Chain, Merge, AllSpace;
    chunks := [];
    var currentChunk: Text := [];
    var currentChunkStart: nat := 0;
    var currentChunkEnd: nat := 0;
    var k := 0;
    assert units[0..] == units;
    while k < |units|
      invariant 0 <= k <= |units|
      invariant var m := Merger(chunks, Chunk(currentChunk, currentChunkStart, currentChunkEnd));
                Ready(s, sizes, m, units[k..]) && Merge(s, sizes, m, units[k..]) == Merge(s, sizes, START, units)
      invariant currentChunk == [] || !AllSpace(currentChunk)
    {
      ghost var m := Merger(chunks, Chunk(currentChunk, currentChunkStart, currentChunkEnd));
      var paragraph := units[k];
      MergeStep(s, sizes, m, units, k);
      var prefix := if currentChunk != [] then paragraph.separatorBefore else [];
      var candidate := if currentChunk != [] then currentChunk + prefix + paragraph.text else paragraph.text;
      if |candidate| <= sizes.target
         && (currentChunk == [] || currentChunkEnd + |prefix| == paragraph.charStart) {
        if |currentChunk| == 0 {
          currentChunkStart := paragraph.charStart;
        }
        currentChunk := candidate;
        currentChunkEnd := paragraph.charStart + |paragraph.text|;
      } else {
        if |currentChunk| > 0 {
          chunks := chunks + [Chunk(currentChunk, currentChunkStart, currentChunkEnd)];
        }
        if sizes.overlap > 0 && |currentChunk| > 0 {
          var overlapStart := if currentChunkEnd - sizes.overlap > currentChunkStart
            then currentChunkEnd - sizes.overlap else currentChunkStart;
          var overlapCandidate := s[overlapStart..currentChunkEnd] + prefix + paragraph.text;
          if |overlapCandidate| <= sizes.target {
            currentChunkStart := overlapStart;
            currentChunk := overlapCandidate;
          } else {
            currentChunkStart := paragraph.charStart;
            currentChunk := paragraph.text;
          }
        } else {
          currentChunk := paragraph.text;
          currentChunkStart := paragraph.charStart;
        }
        currentChunkEnd := paragraph.charStart + |paragraph.text|;
      }
      assert MergeUnit(s, sizes, m, paragraph) ==
        Merger(chunks, Chunk(currentChunk, currentChunkStart, currentChunkEnd));
      k := k + 1;
    }
    assert units[k..] == [];
    MergeEnd(s, sizes, Merger(chunks, Chunk(currentChunk, currentChunkStart, currentChunkEnd)));
    if !AllSpace(currentChunk) {
      chunks := chunks + [Chunk(currentChunk, currentChunkStart, currentChunkEnd)];
    }
  }

  lemma MergeEnd(s: Text, sizes: Sizes, m: Merger)
    requires Ready(s, sizes, m, [])
    ensures Merge(s, sizes, m, []) == m.All()
    ensures AllSpace([])
  {
  }

  lemma MergeStep(s: Text, sizes: Sizes, m: Merger, units: seq<SourceUnit>, k: nat)
    requires k < |units| && Ready(s, sizes, m, units[k..])
    requires m.current.text != [] ==> !AllSpace(m.current.text)
    ensures UnitOk(s, units[k], sizes.target)
    ensures var next := MergeUnit(s, sizes, m, units[k]);
            && Ready(s, sizes, next, units[k + 1..])
            && Merge(s, sizes, next, units[k + 1..]) == Merge(s, sizes, m, units[k..])
            && !AllSpace(next.current.text)
  {
    ReadyNext(s, sizes, m, units[k..]);
    assert units[k..][0] == units[k] && units[k..][1..] == units[k + 1..];
    var u := units[k];
    var next := MergeUnit(s, sizes, m, u);
    var i :| 0 <= i < |u.text| && !IsSpace(u.text[i]);
    assert next.current.text[|next.current.text| - |u.text| + i] == u.text[i];
  }

  /** The units a text is cut into: paragraphs of the sanitized text, split where too long. */
  ghost predicate UnitsOf(s: Text, sizes: Sizes, paragraphs: seq<SourceUnit>, units: seq<SourceUnit>) {
    && 0 < sizes.target
    && ParagraphsOf(s, paragraphs)
    && units == Splitter.SplitAll(paragraphs, sizes.target)
  }

  lemma UnitsChain(s: Text, sizes: Sizes, paragraphs: seq<SourceUnit>, units: seq<SourceUnit>)
    requires UnitsOf(s, sizes, paragraphs, units)
    ensures Chain(s, 0, units, sizes.target)
  {
    ParagraphsChain(s, paragraphs, 0);
    assert paragraphs[0..] == paragraphs;
    Splitter.SplitAllChain(s, 0, paragraphs, sizes.target);
  }

  /** The chunks of a sanitized text. */
  ghost predicate ChunksOf(s: Text, sizes: Sizes, paragraphs: seq<SourceUnit>, units: seq<SourceUnit>,
          chunks: seq<Chunk>)
  {
    && UnitsOf(s, sizes, paragraphs, units)
    && Chain(s, 0, units, sizes.target)
    && chunks == Merge(s, sizes, START, units)
  }

  method SplitParagraphs(paragraphs: seq<SourceUnit>, target: nat) returns (units: seq<SourceUnit>)
    requires 0 < target
    ensures units == Splitter.SplitAll(paragraphs, target)
  {
    units := [];
    var k := 0;
    assert paragraphs[0..] == paragraphs;
    while k < |paragraphs|
      invariant 0 <= k <= |paragraphs|
      invariant units + Splitter.SplitAll(paragraphs[k..], target) == Splitter.SplitAll(paragraphs, target)
    {
      var parts := Splitter.SplitOversizedParagraph(paragraphs[k], target);
      assert paragraphs[k..][1..] == paragraphs[k + 1..];
      ghost var rest := Splitter.SplitAll(paragraphs[k + 1..], target);
      assert units + (parts + rest) == (units + parts) + rest;
      units := units + parts;
      k := k + 1;
    }
    assert units + [] == units;
  }

  /**
   * Split text into chunks. The paragraphs are those of the sanitized text; there are none when
   * the text has no ink.
   */
  method ChunkText(text: Text, sizes: Sizes)
    returns (chunks: seq<Chunk>, ghost paragraphs: seq<SourceUnit>, ghost units: seq<SourceUnit>)
    requires 0 < sizes.target
    ensures AllSpace(text) ==> chunks == []
    ensures !AllSpace(text) ==>
              ChunksOf(Sanitizer.Sanitized(text), sizes, paragraphs, units, chunks)
  {
    paragraphs, units := [], [];
    if AllSpace(text) {
      return [], [], [];
    }
    var semanticText, _ := Sanitizer.Sanitize(text);
    var blocks := SourceUnits(semanticText);
    var normalized := SplitParagraphs(blocks, sizes.target);
    paragraphs, units := blocks, normalized;
    UnitsChain(semanticText, sizes, blocks, normalized);
    if |blocks| == 0 {
      return [], paragraphs, units;
    }
    chunks := MergeUnits(semanticText, sizes, normalized);
  }
}
