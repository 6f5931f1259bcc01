/**
 * Cutting a text into source units: paragraphs at blank lines, then long paragraphs at
 * sentence ends. Every unit remembers where it came from and which separator preceded it.
 */
module Paragraphs {
  import opened SourceText

  datatype SourceUnit = SourceUnit(text: Text, charStart: nat, separatorBefore: Text) {
    function End(): nat {
      charStart + |text|
    }
  }

  // ---------------------------------------------------------------------
  // What a list of units says about the text it was cut from
  // ---------------------------------------------------------------------

  /** The unit is a stretch of the text with some ink in it, at most `limit` long. */
  ghost predicate UnitOk(s: Text, u: SourceUnit, limit: nat) {
    && u.End() <= |s|
    && u.text == s[u.charStart..u.End()]
    && !AllSpace(u.text)
    && |u.text| <= limit
    && AllSpace(u.separatorBefore)
  }

  /** Only white space lies between e and the unit, and its separator is part of it. */
  ghost predicate Follows(s: Text, e: nat, u: SourceUnit)
    requires u.charStart <= |s|
  {
    && e <= u.charStart
    && AllSpace(s[e..u.charStart])
    && SeparatorWithin(s, e, u.charStart, u.separatorBefore)
  }

  ghost predicate SeparatorWithin(s: Text, from: nat, end: nat, separator: Text) {
    exists a: nat :: SeparatorAt(s, from, end, separator, a)
  }

  ghost predicate SeparatorAt(s: Text, from: nat, end: nat, separator: Text, a: nat) {
    from <= a && a + |separator| <= end <= |s| && s[a..a + |separator|] == separator
  }

  /** The units follow each other from position e on, and no ink is left outside of them. */
  ghost predicate Chain(s: Text, e: nat, units: seq<SourceUnit>, limit: nat)
    decreases |units|
  {
    && e <= |s|
    && if units == [] then
         AllSpace(s[e..|s|])
       else
         && UnitOk(s, units[0], limit)
         && Follows(s, e, units[0])
         && Chain(s, units[0].End(), units[1..], limit)
  }

  /** A chain may start earlier when only white space is added in front of it. */
  lemma ChainBack(s: Text, e: nat, f: nat, units: seq<SourceUnit>, limit: nat)
    requires e <= f <= |s| && AllSpace(s[e..f])
    requires Chain(s, f, units, limit)
    ensures Chain(s, e, units, limit)
  {
    if units == [] {
      SpaceJoin(s, e, f, |s|);
    } else {
      var u := units[0];
      assert s[e..u.charStart] == s[e..f] + s[f..u.charStart];
      var a: nat :| SeparatorAt(s, f, u.charStart, u.separatorBefore, a);
      assert SeparatorAt(s, e, u.charStart, u.separatorBefore, a);
    }
  }

  lemma ChainCons(s: Text, e: nat, u: SourceUnit, units: seq<SourceUnit>, limit: nat)
    requires e <= |s| && UnitOk(s, u, limit) && Follows(s, e, u)
    requires Chain(s, u.End(), units, limit)
    ensures Chain(s, e, [u] + units, limit)
  {
    assert ([u] + units)[1..] == units;
  }

  // ---------------------------------------------------------------------
  // Paragraphs: the matches of \n\s*\n separate them
  // ---------------------------------------------------------------------

  /** `\n\s*\n` can match the text from `from` up to `to`. */
  predicate IsBreak(t: Text, from: nat, to: nat) {
    && from + 1 < to <= |t|
    && t[from] == NEWLINE && t[to - 1] == NEWLINE
    && AllSpace(t[from..to])
  }

  /** The match found at `from`: the longest one. */
  ghost predicate IsGreedyBreak(t: Text, from: nat, to: nat) {
    IsBreak(t, from, to) && forall longer: nat | to < longer :: !IsBreak(t, from, longer)
  }

  ghost predicate BreaksAt(t: Text, from: nat) {
    exists to: nat :: IsBreak(t, from, to)
  }

  /** The longest match at one position, or 0. */
  method MatchAt(t: Text, from: nat) returns (to: nat)
    requires from < |t|
    ensures to == 0 ==> !BreaksAt(t, from)
    ensures to != 0 ==> IsGreedyBreak(t, from, to)
  {
    to := 0;
    if t[from] != NEWLINE {
      return;
    }
    var j := from + 1;
    while j < |t| && IsSpace(t[j])
      invariant from < j <= |t|
      invariant AllSpace(t[from..j])
      invariant to == 0 || (to <= j && IsBreak(t, from, to))
      invariant forall x: nat | to < x <= j :: !IsBreak(t, from, x)
    {
      assert t[from..j + 1] == t[from..j] + [t[j]];
      j := j + 1;
      if t[j - 1] == NEWLINE {
        to := j;
      }
    }
    forall x: nat | j < x
      ensures !IsBreak(t, from, x)
    {
      if x <= |t| {
        assert t[from..x][j - from] == t[j];
      }
    }
  }

  /** The next match at or after `cursor`, leftmost and then longest. */
  method NextBreak(t: Text, cursor: nat) returns (found: bool, from: nat, to: nat)
    requires cursor <= |t|
    ensures cursor <= from <= |t|
    ensures forall p | cursor <= p < from :: !BreaksAt(t, p)
    ensures found ==> IsGreedyBreak(t, from, to)
    ensures !found ==> from == |t|
  {
    found, from, to := false, cursor, 0;
    while from < |t|
      invariant cursor <= from <= |t|
      invariant forall p | cursor <= p < from :: !BreaksAt(t, p)
    {
      to := MatchAt(t, from);
      if to != 0 {
        found := true;
        return;
      }
      from := from + 1;
    }
  }

  /** A paragraph has ink and contains no blank line. */
  ghost predicate Paragraph(t: Text, u: SourceUnit) {
    && u.End() <= |t|
    && u.text == t[u.charStart..u.End()]
    && !AllSpace(u.text)
    && forall p | u.charStart <= p < u.End() :: !BreaksAt(t, p)
  }

  /** A blank line, and nothing else, separates two neighbours. */
  ghost predicate Adjoin(t: Text, a: SourceUnit, b: SourceUnit) {
    && IsGreedyBreak(t, a.End(), b.charStart)
    && b.separatorBefore == t[a.End()..b.charStart]
  }

  ghost predicate Opens(t: Text, u: SourceUnit) {
    && u.charStart <= |t|
    && AllSpace(t[..u.charStart])
    && |u.separatorBefore| <= u.charStart
    && u.separatorBefore == t[u.charStart - |u.separatorBefore|..u.charStart]
  }

  ghost predicate ParagraphsOf(t: Text, units: seq<SourceUnit>) {
    && (forall k | 0 <= k < |units| :: Paragraph(t, units[k]))
    && (forall k | 0 < k < |units| :: Adjoin(t, units[k - 1], units[k]))
    && if units == [] then AllSpace(t)
       else Opens(t, units[0]) && AllSpace(t[units[|units| - 1].End()..])
  }

  lemma JoinBreaks(t: Text, from: nat, to: nat, next: nat, end: nat)
    requires IsBreak(t, from, to) && to <= next && IsBreak(t, next, end)
    requires AllSpace(t[to..next])
    ensures IsBreak(t, from, end)
  {
    SpaceJoin(t, from, to, next);
    SpaceJoin(t, from, next, end);
  }

  /** The paragraphs before `last`, where the text up to `cursor` is dealt with. */
  ghost predicate Collected(t: Text, units: seq<SourceUnit>, last: nat, cursor: nat) {
    && last <= cursor <= |t|
    && (cursor == 0 || IsGreedyBreak(t, last, cursor))
    && (forall k | 0 <= k < |units| :: Paragraph(t, units[k]))
    && (forall k | 0 < k < |units| :: Adjoin(t, units[k - 1], units[k]))
    && if units == [] then AllSpace(t[0..cursor])
       else cursor != 0 && Opens(t, units[0]) && units[|units| - 1].End() == last
  }

  /** What one more stretch of text between two matches adds. */
  function Add(t: Text, units: seq<SourceUnit>, last: nat, cursor: nat, from: nat): seq<SourceUnit>
    requires last <= cursor <= from <= |t|
  {
    if AllSpace(t[cursor..from]) then units
    else units + [SourceUnit(t[cursor..from], cursor, t[last..cursor])]
  }

  lemma NewParagraph(t: Text, last: nat, cursor: nat, from: nat, u: SourceUnit)
    requires last <= cursor <= from <= |t|
    requires forall p | cursor <= p < from :: !BreaksAt(t, p)
    requires !AllSpace(t[cursor..from])
    requires u == SourceUnit(t[cursor..from], cursor, t[last..cursor])
    ensures Paragraph(t, u) && u.End() == from
    ensures AllSpace(t[0..cursor]) ==> Opens(t, u)
  {
    assert t[0..cursor] == t[..cursor];
  }

  lemma AddParagraph(t: Text, units: seq<SourceUnit>, last: nat, cursor: nat, from: nat)
    requires Collected(t, units, last, cursor) && cursor <= from <= |t|
    requires forall p | cursor <= p < from :: !BreaksAt(t, p)
    requires !AllSpace(t[cursor..from])
    ensures var more := Add(t, units, last, cursor, from);
            && |more| == |units| + 1
            && more[|units|].End() == from
            && (forall k | 0 <= k < |more| :: Paragraph(t, more[k]))
            && (forall k | 0 < k < |more| :: Adjoin(t, more[k - 1], more[k]))
            && Opens(t, more[0])
  {
    hide AllSpace, BreaksAt, IsGreedyBreak;
    var u := SourceUnit(t[cursor..from], cursor, t[last..cursor]);
    NewParagraph(t, last, cursor, from, u);
    hide Paragraph, Opens;
    var more := Add(t, units, last, cursor, from);
    assert more == units + [u];
    forall k | 0 < k < |more|
      ensures Adjoin(t, more[k - 1], more[k])
    {
      if k < |units| {
        assert Adjoin(t, units[k - 1], units[k]);
      } else {
        assert units[k - 1].End() == last;
      }
    }
  }

  lemma AddStretch(t: Text, units: seq<SourceUnit>, last: nat, cursor: nat, from: nat, to: nat)
    requires Collected(t, units, last, cursor) && cursor <= from
    requires forall p | cursor <= p < from :: !BreaksAt(t, p)
    requires IsGreedyBreak(t, from, to)
    ensures Collected(t, Add(t, units, last, cursor, from), from, to)
  {
    if !AllSpace(t[cursor..from]) {
      AddParagraph(t, units, last, cursor, from);
    } else if units == [] {
      SpaceJoin(t, 0, cursor, from);
      SpaceJoin(t, 0, from, to);
    } else {
      JoinBreaks(t, last, cursor, from, to);
    }
  }

  lemma NoneCollected(t: Text)
    ensures Collected(t, [], 0, 0)
  {
  }

  /** What is collected once no blank line is left. */
  lemma AllCollected(t: Text, units: seq<SourceUnit>, last: nat, cursor: nat)
    requires Collected(t, units, last, cursor)
    requires forall p | cursor <= p < |t| :: !BreaksAt(t, p)
    ensures ParagraphsOf(t, Add(t, units, last, cursor, |t|))
  {
    hide BreaksAt, Paragraph, Adjoin;
    if !AllSpace(t[cursor..|t|]) {
      AddParagraph(t, units, last, cursor, |t|);
    } else {
      SpaceJoin(t, if units == [] then 0 else last, cursor, |t|);
      assert t[0..|t|] == t;
    }
  }

  method SourceUnits(t: Text) returns (units: seq<SourceUnit>)
    ensures ParagraphsOf(t, units)
  {
    hide Collected, BreaksAt, AllSpace, ParagraphsOf;
    units := [];
    var cursor := 0;
    var separatorBefore: Text := [];
    ghost var last := 0;
    NoneCollected(t);
    var found, from, to := NextBreak(t, 0);
    while found
      invariant last <= cursor <= from <= |t|
      invariant forall p | cursor <= p < from :: !BreaksAt(t, p)
      invariant if found then IsGreedyBreak(t, from, to) else from == |t|
      invariant Collected(t, units, last, cursor)
      invariant separatorBefore == t[last..cursor]
      decreases |t| - cursor, found
    {
      AddStretch(t, units, last, cursor, from, to);
      var textBefore := t[cursor..from];
      if !AllSpace(textBefore) {
        units := units + [SourceUnit(textBefore, cursor, separatorBefore)];
      }
      last, separatorBefore, cursor := from, t[from..to], to;
      found, from, to := NextBreak(t, cursor);
    }
    AllCollected(t, units, last, cursor);
    var remainder := t[cursor..];
    assert t[cursor..|t|] == t[cursor..];
    if !AllSpace(remainder) {
      units := units + [SourceUnit(remainder, cursor, separatorBefore)];
    }
  }

  lemma OpensFollows(t: Text, u: SourceUnit)
    requires Opens(t, u)
    ensures AllSpace(u.separatorBefore) && Follows(t, 0, u)
  {
    assert t[0..u.charStart] == t[..u.charStart];
    var a := u.charStart - |u.separatorBefore|;
    forall j | 0 <= j < |u.separatorBefore|
      ensures IsSpace(u.separatorBefore[j])
    {
      SpaceAt(t, 0, u.charStart, a + j);
    }
    assert SeparatorAt(t, 0, u.charStart, u.separatorBefore, a);
  }

  lemma AdjoinFollows(t: Text, a: SourceUnit, b: SourceUnit)
    requires Adjoin(t, a, b)
    ensures AllSpace(b.separatorBefore) && Follows(t, a.End(), b)
  {
    assert SeparatorAt(t, a.End(), b.charStart, b.separatorBefore, a.End());
  }

  /** Paragraphs leave no ink out. */
  lemma {:induction false} ParagraphsChain(t: Text, units: seq<SourceUnit>, k: nat)
    requires ParagraphsOf(t, units) && k <= |units|
    ensures Chain(t, if k == 0 then 0 else units[k - 1].End(), units[k..], |t|)
    decreases |units| - k
  {
    if k == |units| {
      var e := if k == 0 then 0 else units[k - 1].End();
      assert k > 0 ==> Paragraph(t, units[k - 1]);
      assert t[e..|t|] == t[e..];
      assert t[0..] == t;
    } else {
      ParagraphsChain(t, units, k + 1);
      var u := units[k];
      assert Paragraph(t, u);
      var e := 0;
      if k == 0 {
        OpensFollows(t, u);
      } else {
        e := units[k - 1].End();
        AdjoinFollows(t, units[k - 1], u);
      }
      ChainCons(t, e, u, units[k + 1..], |t|);
      assert units[k..] == [u] + units[k + 1..];
    }
  }
}
