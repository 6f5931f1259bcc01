/**
 * Splitting long paragraphs at sentence ends. A cut comes right after the last sentence end in
 * the window of `target` code units, or at the end of the window when there is none.
 */
module Splitter {
  import opened SourceText
  import opened Paragraphs

  predicate EndsSentence(c: CodeUnit) {
    c == 33 || c == 46 || c == 63
  }

  /** The end of the last sentence that ends in t[from..upTo], or -1. */
  function LastSentenceEnd(t: Text, from: nat, upTo: nat): (end: int)
    requires from <= upTo <= |t|
    ensures end == -1 || (from < end <= upTo && EndsSentence(t[end - 1]))
    ensures forall k | from <= k < upTo && end <= k :: !EndsSentence(t[k])
    decreases upTo - from
  {
    if from == upTo then -1
    else if EndsSentence(t[upTo - 1]) then upTo
    else LastSentenceEnd(t, from, upTo - 1)
  }

  /** The cut comes after the last `!`, `.` or `?` of the window, or at its end if it holds none. */
  function CutAfter(t: Text, start: nat, target: nat): (end: nat)
    requires 0 < target && start + target <= |t|
    ensures start < end <= start + target
    ensures forall k | end <= k < start + target :: t[k] != 33 && t[k] != 46 && t[k] != 63
    ensures t[end - 1] == 33 || t[end - 1] == 46 || t[end - 1] == 63
            || (end == start + target && forall k | start <= k < end :: t[k] != 33 && t[k] != 46 && t[k] != 63)
  {
    var sentence := LastSentenceEnd(t, start, start + target);
    if sentence == -1 then start + target else sentence
  }

  predicate Blank(par: SourceUnit, start: nat, end: nat)
    requires start <= end <= |par.text|
  {
    AllSpace(par.text[start..end])
  }

  function Cut(par: SourceUnit, start: nat, end: nat, separator: Text): SourceUnit
    requires start <= end <= |par.text|
  {
    SourceUnit(par.text[start..end], par.charStart + start, separator)
  }

  /**
   * The pieces from `start` on. A piece without ink is dropped, and the separator goes to the
   * first piece that is kept.
   */
  function Parts(par: SourceUnit, start: nat, target: nat, separator: Text): (parts: seq<SourceUnit>)
    requires 0 < target && start <= |par.text|
    decreases |par.text| - start
  {
    if |par.text| - start < target then
      if Blank(par, start, |par.text|) then [] else [Cut(par, start, |par.text|, separator)]
    else
      var end := CutAfter(par.text, start, target);
      if Blank(par, start, end) then Parts(par, end, target, separator)
      else [Cut(par, start, end, separator)] + Parts(par, end, target, [])
  }

  function Split(par: SourceUnit, target: nat): (parts: seq<SourceUnit>)
    requires 0 < target
  {
    if |par.text| <= target then [par] else Parts(par, 0, target, par.separatorBefore)
  }

  function SplitAll(paragraphs: seq<SourceUnit>, target: nat): (units: seq<SourceUnit>)
    requires 0 < target
  {
    if paragraphs == [] then [] else Split(paragraphs[0], target) + SplitAll(paragraphs[1..], target)
  }

  /** Keep one more piece, unless it has no ink. */
  function Push(parts: seq<SourceUnit>, par: SourceUnit, start: nat, end: nat): seq<SourceUnit>
    requires start <= end <= |par.text|
  {
    if Blank(par, start, end) then parts
    else parts + [Cut(par, start, end, if parts == [] then par.separatorBefore else [])]
  }

  /** The one-pass scanner: it remembers where the last sentence ended. */
  method SplitOversizedParagraph(par: SourceUnit, target: nat) returns (parts: seq<SourceUnit>)
    requires 0 < target
    ensures parts == Split(par, target)
  {
    hide Parts, Push;
    if |par.text| <= target {
      return [par];
    }
    parts := [];
    var start: nat := 0;
    var lastSentenceEnd := -1;
    var cursor := 0;
    while cursor < |par.text|
      invariant start <= cursor <= |par.text|
      invariant cursor - start < target
      invariant lastSentenceEnd == LastSentenceEnd(par.text, start, cursor)
      invariant parts + Remaining(par, start, target, parts) == Parts(par, 0, target, par.separatorBefore)
    {
      if EndsSentence(par.text[cursor]) {
        lastSentenceEnd := cursor + 1;
      }
      if cursor + 1 - start >= target {
        var end := if lastSentenceEnd > start then lastSentenceEnd else cursor + 1;
        NothingLater(par.text, start, end, cursor + 1);
        NextPiece(par, start, end, target, parts);
        parts := Push(parts, par, start, end);
        start := end;
        lastSentenceEnd := -1;
      }
      cursor := cursor + 1;
    }
    LastPiece(par, start, target, parts);
    parts := Push(parts, par, start, |par.text|);
  }

  function Remaining(par: SourceUnit, start: nat, target: nat, parts: seq<SourceUnit>): seq<SourceUnit>
    requires 0 < target && start <= |par.text|
  {
    Parts(par, start, target, if parts == [] then par.separatorBefore else [])
  }

  lemma NextPiece(par: SourceUnit, start: nat, end: nat, target: nat, parts: seq<SourceUnit>)
    requires 0 < target && start + target <= |par.text|
    requires end == CutAfter(par.text, start, target)
    ensures var more := Push(parts, par, start, end);
            parts + Remaining(par, start, target, parts) == more + Remaining(par, end, target, more)
  {
    hide Blank, Cut, CutAfter;
    if !Blank(par, start, end) {
      var u := Cut(par, start, end, if parts == [] then par.separatorBefore else []);
      var rest := Parts(par, end, target, []);
      assert parts + ([u] + rest) == (parts + [u]) + rest;
    }
  }

  lemma LastPiece(par: SourceUnit, start: nat, target: nat, parts: seq<SourceUnit>)
    requires start <= |par.text| && |par.text| - start < target
    ensures Push(parts, par, start, |par.text|) == parts + Remaining(par, start, target, parts)
  {
    hide Blank, Cut;
  }

  lemma NothingLater(t: Text, start: nat, end: nat, upTo: nat)
    requires start < end <= upTo <= |t|
    requires end == upTo || end == LastSentenceEnd(t, start, upTo)
    ensures LastSentenceEnd(t, end, upTo) == -1
  {
  }

  // ---------------------------------------------------------------------
  // Splitting keeps the chain and loses no ink
  // ---------------------------------------------------------------------

  /** From e on the text is dealt with up to position `start` of the paragraph. */
  ghost predicate ReadyAt(s: Text, par: SourceUnit, start: nat, separator: Text, e: nat) {
    && start <= |par.text|
    && par.End() <= |s| && par.text == s[par.charStart..par.End()]
    && e <= par.charStart + start && AllSpace(s[e..par.charStart + start])
    && AllSpace(separator) && SeparatorWithin(s, e, par.charStart + start, separator)
  }

  lemma SubSlice(s: Text, a: nat, b: nat, i: nat, j: nat)
    requires a <= b <= |s| && i <= j <= b - a
    ensures s[a..b][i..j] == s[a + i..a + j]
  {
    assert forall k | 0 <= k < j - i :: s[a..b][i..j][k] == s[a..b][i + k] == s[a + i..a + j][k];
  }

  lemma DropPiece(s: Text, par: SourceUnit, start: nat, end: nat, separator: Text, e: nat)
    requires ReadyAt(s, par, start, separator, e)
    requires start <= end <= |par.text| && Blank(par, start, end)
    ensures AllSpace(s[e..par.charStart + end])
    ensures ReadyAt(s, par, end, separator, e)
  {
    SubSlice(s, par.charStart, par.End(), start, end);
    SpaceJoin(s, e, par.charStart + start, par.charStart + end);
    WiderSeparator(s, e, par.charStart + start, par.charStart + end, separator);
  }

  lemma DropLast(s: Text, par: SourceUnit, start: nat, target: nat, separator: Text, e: nat, rest: seq<SourceUnit>)
    requires ReadyAt(s, par, start, separator, e)
    requires Blank(par, start, |par.text|)
    requires Chain(s, par.End(), rest, target)
    ensures Chain(s, e, rest, target)
  {
    DropPiece(s, par, start, |par.text|, separator, e);
    ChainBack(s, e, par.End(), rest, target);
  }

  lemma KeepPiece(s: Text, par: SourceUnit, start: nat, end: nat, target: nat, separator: Text, e: nat,
          units: seq<SourceUnit>)
    requires ReadyAt(s, par, start, separator, e)
    requires start <= end <= |par.text| && end - start <= target && !Blank(par, start, end)
    requires Chain(s, par.charStart + end, units, target)
    ensures Chain(s, e, [Cut(par, start, end, separator)] + units, target)
  {
    SubSlice(s, par.charStart, par.End(), start, end);
    ChainCons(s, e, Cut(par, start, end, separator), units, target);
  }

  lemma ReadyAfter(s: Text, par: SourceUnit, start: nat, end: nat, separator: Text, e: nat)
    requires ReadyAt(s, par, start, separator, e)
    requires start <= end <= |par.text|
    ensures ReadyAt(s, par, end, [], par.charStart + end)
  {
    assert SeparatorAt(s, par.charStart + end, par.charStart + end, [], par.charStart + end);
  }

  lemma {:induction false} PartsChain(s: Text, par: SourceUnit, start: nat, target: nat, separator: Text, e: nat,
          rest: seq<SourceUnit>)
    requires 0 < target && start <= |par.text| && ReadyAt(s, par, start, separator, e)
    requires Chain(s, par.End(), rest, target)
    ensures Chain(s, e, Parts(par, start, target, separator) + rest, target)
    decreases |par.text| - start
  {
    hide Chain, ReadyAt, Blank, Cut, CutAfter;
    if |par.text| - start < target {
      if Blank(par, start, |par.text|) {
        DropLast(s, par, start, target, separator, e, rest);
        assert [] + rest == rest;
      } else {
        KeepPiece(s, par, start, |par.text|, target, separator, e, rest);
      }
    } else {
      var end := CutAfter(par.text, start, target);
      if Blank(par, start, end) {
        DropPiece(s, par, start, end, separator, e);
        PartsChain(s, par, end, target, separator, e, rest);
      } else {
        ReadyAfter(s, par, start, end, separator, e);
        PartsChain(s, par, end, target, [], par.charStart + end, rest);
        var more := Parts(par, end, target, []);
        KeepPiece(s, par, start, end, target, separator, e, more + rest);
        assert [Cut(par, start, end, separator)] + (more + rest) == [Cut(par, start, end, separator)] + more + rest;
      }
    }
  }

  lemma WiderSeparator(s: Text, e: nat, from: nat, upTo: nat, separator: Text)
    requires from <= upTo <= |s| && SeparatorWithin(s, e, from, separator)
    ensures SeparatorWithin(s, e, upTo, separator)
  {
    var a: nat :| SeparatorAt(s, e, from, separator, a);
    assert SeparatorAt(s, e, upTo, separator, a);
  }

  /** Splitting every paragraph leaves a chain of units of at most `target` code units. */
  lemma {:induction false} SplitAllChain(s: Text, e: nat, paragraphs: seq<SourceUnit>, target: nat)
    requires 0 < target
    requires Chain(s, e, paragraphs, |s|)
    ensures Chain(s, e, SplitAll(paragraphs, target), target)
    decreases |paragraphs|
  {
    if paragraphs != [] {
      var par := paragraphs[0];
      var rest := SplitAll(paragraphs[1..], target);
      SplitAllChain(s, par.End(), paragraphs[1..], target);
      if |par.text| <= target {
        ChainCons(s, e, par, rest, target);
      } else {
        PartsChain(s, par, 0, target, par.separatorBefore, e, rest);
      }
    }
  }

  // ---------------------------------------------------------------------
  // When nothing is dropped, every unit touches its separator
  // ---------------------------------------------------------------------

  /** Some piece of the paragraph has no ink and is dropped. */
  predicate DropsFrom(par: SourceUnit, start: nat, target: nat)
    requires 0 < target && start <= |par.text|
    decreases |par.text| - start
  {
    if |par.text| - start < target then
      start < |par.text| && Blank(par, start, |par.text|)
    else
      var end := CutAfter(par.text, start, target);
      Blank(par, start, end) || DropsFrom(par, end, target)
  }

  predicate Drops(par: SourceUnit, target: nat)
    requires 0 < target
  {
    |par.text| > target && DropsFrom(par, 0, target)
  }

  /** Each unit starts exactly where the one before it and its separator end. */
  predicate Touching(e: nat, units: seq<SourceUnit>)
    decreases |units|
  {
    units == [] ||
    (e + |units[0].separatorBefore| == units[0].charStart && Touching(units[0].End(), units[1..]))
  }

  lemma {:induction false} PartsTouch(par: SourceUnit, start: nat, target: nat, separator: Text, e: nat,
          rest: seq<SourceUnit>)
    requires 0 < target && start <= |par.text|
    requires !DropsFrom(par, start, target)
    requires start < |par.text| || (separator == [] && e == par.End())
    requires e + |separator| == par.charStart + start
    requires Touching(par.End(), rest)
    ensures Touching(e, Parts(par, start, target, separator) + rest)
    decreases |par.text| - start
  {
    if |par.text| - start < target {
      if Blank(par, start, |par.text|) {
        assert [] + rest == rest;
      } else {
        TouchCons(e, Cut(par, start, |par.text|, separator), rest);
      }
    } else {
      var end := CutAfter(par.text, start, target);
      var more := Parts(par, end, target, []);
      PartsTouch(par, end, target, [], par.charStart + end, rest);
      TouchCons(e, Cut(par, start, end, separator), more + rest);
      assert [Cut(par, start, end, separator)] + (more + rest) == [Cut(par, start, end, separator)] + more + rest;
    }
  }

  lemma TouchCons(e: nat, u: SourceUnit, units: seq<SourceUnit>)
    requires e + |u.separatorBefore| == u.charStart && Touching(u.End(), units)
    ensures Touching(e, [u] + units)
  {
    assert ([u] + units)[1..] == units;
  }

  /** When the splitter drops nothing, the units touch wherever the paragraphs did. */
  lemma {:induction false} SplitAllTouch(e: nat, paragraphs: seq<SourceUnit>, target: nat)
    requires 0 < target
    requires Touching(e, paragraphs)
    requires forall k | 0 <= k < |paragraphs| :: paragraphs[k].text != []
    requires forall k | 0 <= k < |paragraphs| :: !Drops(paragraphs[k], target)
    ensures Touching(e, SplitAll(paragraphs, target))
    decreases |paragraphs|
  {
    if paragraphs != [] {
      var par := paragraphs[0];
      var rest := SplitAll(paragraphs[1..], target);
      SplitAllTouch(par.End(), paragraphs[1..], target);
      if |par.text| <= target {
        assert (Split(par, target) + rest)[1..] == rest;
      } else {
        PartsTouch(par, 0, target, par.separatorBefore, e, rest);
      }
    }
  }
}
