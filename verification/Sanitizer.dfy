/**
 * The scanner that takes inline data URLs out of a text before chunking.
 *
 * `Sanitized` says what is computed, one code unit at a time. `Sanitize` is the
 * scanner of the program: it jumps from one `data:` to the next, looks at a
 * bounded header only, and never looks back.
 */
module Sanitizer {
  import opened SourceText

  const HEADER_LIMIT := 512

  /** "[inline binary asset omitted]" */
  const MARKER: Text := [
    91, 105, 110, 108, 105, 110, 101, 32, 98, 105, 110, 97, 114, 121, 32,
    97, 115, 115, 101, 116, 32, 111, 109, 105, 116, 116, 101, 100, 93]

  /** The five code units of `data:` stand at position s. */
  predicate DataAt(t: Text, s: nat) {
    && s + 5 <= |t|
    && t[s] == 100 && t[s + 1] == 97 && t[s + 2] == 116 && t[s + 3] == 97 && t[s + 4] == 58
  }

  predicate IsBlank(c: CodeUnit) {
    c == 9 || c == 10 || c == 13 || c == 32
  }

  /** A blank, a quote, a closing parenthesis or a closing angle bracket. */
  predicate EndsPayload(c: CodeUnit) {
    IsBlank(c) || c == 34 || c == 39 || c == 41 || c == 62
  }

  /** The header that starts at s runs, without blanks, up to its first comma, and is short. */
  predicate HeaderEndsAt(t: Text, s: nat, comma: nat) {
    && s + 5 <= comma < |t|
    && comma - s <= HEADER_LIMIT
    && t[comma] == COMMA
    && (forall k | s + 5 <= k < comma :: t[k] != COMMA && !IsBlank(t[k]))
  }

  ghost predicate UrlAt(t: Text, s: nat) {
    DataAt(t, s) && exists comma: nat :: HeaderEndsAt(t, s, comma)
  }

  /**
   * A data URL begins with `data:`, and its first comma comes at most 512 code units after its beginning, with no
   * tab, line feed, carriage return or blank before it.
   */
  lemma UrlMeans(t: Text, s: nat)
    ensures UrlAt(t, s)
       <==> && s + 5 <= |t| && t[s..s + 5] == [100, 97, 116, 97, 58]
            && exists comma: nat :: s + 5 <= comma <= s + 512 && comma < |t| && t[comma] == 44
                 && forall k | s + 5 <= k < comma ::
                      t[k] != 44 && t[k] != 9 && t[k] != 10 && t[k] != 13 && t[k] != 32
  {
    if UrlAt(t, s) {
      var comma: nat :| HeaderEndsAt(t, s, comma);
      assert t[comma] == 44;
    }
    if s + 5 <= |t| && t[s..s + 5] == [100, 97, 116, 97, 58] {
      var word := t[s..s + 5];
      assert word[0] == t[s] && word[1] == t[s + 1] && word[2] == t[s + 2] && word[3] == t[s + 3];
      assert word[4] == t[s + 4];
      if comma: nat :| s + 5 <= comma <= s + 512 && comma < |t| && t[comma] == 44
                         && forall k | s + 5 <= k < comma ::
                              t[k] != 44 && t[k] != 9 && t[k] != 10 && t[k] != 13 && t[k] != 32 {
        assert HeaderEndsAt(t, s, comma);
      }
    }
  }

  lemma MarkerReads()
    ensures var words := "[inline binary asset omitted]";
            |MARKER| == |words| && forall i | 0 <= i < |words| :: MARKER[i] == words[i] as int
  {
  }

  /** The first position from i on that ends a payload, or the end of the text. */
  function PayloadEnd(t: Text, i: nat): (end: nat)
    requires i <= |t|
    ensures i <= end <= |t|
    ensures forall k | i <= k < end :: !EndsPayload(t[k])
    ensures end < |t| ==> EndsPayload(t[end])
    ensures end < |t| ==> t[end] in {9, 10, 13, 32, 34, 39, 41, 62}
    ensures forall k | i <= k < end :: t[k] !in {9, 10, 13, 32, 34, 39, 41, 62}
    decreases |t| - i
  {
    if i == |t| || EndsPayload(t[i]) then i else PayloadEnd(t, i + 1)
  }

  ghost function UrlEnd(t: Text, s: nat): (end: nat)
    requires UrlAt(t, s)
    ensures s + 5 < end <= |t|
  {
    var comma: nat :| HeaderEndsAt(t, s, comma);
    PayloadEnd(t, comma + 1)
  }

  /** The text from position i on, with every data URL replaced by the marker. */
  ghost function Sanitized(t: Text, i: nat := 0): (clean: Text)
    requires i <= |t|
    decreases |t| - i
  {
    if i == |t| then []
    else if UrlAt(t, i) then MARKER + Sanitized(t, UrlEnd(t, i))
    else [t[i]] + Sanitized(t, i + 1)
  }

  lemma {:induction false} KeepRun(t: Text, i: nat, j: nat)
    requires i <= j <= |t|
    requires forall p | i <= p < j :: !UrlAt(t, p)
    ensures Sanitized(t, i) == t[i..j] + Sanitized(t, j)
    decreases j - i
  {
    if i == j {
      assert t[i..j] == [];
    } else {
      KeepRun(t, i + 1, j);
      var rest := Sanitized(t, j);
      calc {
        Sanitized(t, i);
        [t[i]] + Sanitized(t, i + 1);
        [t[i]] + (t[i + 1..j] + rest);
        ([t[i]] + t[i + 1..j]) + rest;
        { assert t[i..j] == [t[i]] + t[i + 1..j]; }
        t[i..j] + rest;
      }
    }
  }

  // ---------------------------------------------------------------------
  // The scanner
  // ---------------------------------------------------------------------

  /** `indexOf("data:", from)`: the leftmost occurrence, or -1. */
  method IndexOfData(t: Text, from: nat) returns (found: int, ghost examined: nat)
    requires from <= |t|
    ensures found == -1 ==> forall p | from <= p :: !DataAt(t, p)
    ensures found != -1 ==> from <= found && DataAt(t, found)
    ensures found != -1 ==> forall p | from <= p < found :: !DataAt(t, p)
    ensures examined <= 5 * ((if found == -1 then |t| else found + 1) - from)
  {
    found := from;
    examined := 0;
    while found < |t|
      invariant from <= found <= |t|
      invariant forall p | from <= p < found :: !DataAt(t, p)
      invariant examined <= 5 * (found - from)
    {
      examined := examined + 5;
      if DataAt(t, found) {
        return;
      }
      found := found + 1;
    }
    found := -1;
  }

  /** The bounded search for a usable header; -1 when there is none. */
  method FindHeaderEnd(t: Text, start: nat) returns (comma: int, ghost examined: nat)
    requires DataAt(t, start)
    ensures comma == -1 ==> !UrlAt(t, start)
    ensures comma != -1 ==> 0 <= comma && HeaderEndsAt(t, start, comma) && UrlAt(t, start)
    ensures examined <= 2 * 513
  {
    comma := -1;
    examined := 0;
    var headerLimit := if |t| < start + 5 + 513 then |t| else start + 5 + 513;
    var index := start + 5;
    while index < headerLimit
      invariant start + 5 <= index <= headerLimit
      invariant forall k | start + 5 <= k < index :: t[k] != COMMA
      invariant examined == index - (start + 5)
    {
      examined := examined + 1;
      if t[index] == COMMA {
        comma := index;
        break;
      }
      index := index + 1;
    }
    if comma == -1 || comma - start > HEADER_LIMIT {
      comma := -1;
      return;
    }
    index := start + 5;
    while index < comma
      invariant start + 5 <= index <= comma
      invariant forall k | start + 5 <= k < index :: !IsBlank(t[k])
      invariant examined <= 513 + (index - (start + 5))
    {
      examined := examined + 1;
      if IsBlank(t[index]) {
        BlankHeader(t, start, comma, index);
        comma := -1;
        return;
      }
      index := index + 1;
    }
    assert HeaderEndsAt(t, start, comma);
  }

  lemma BlankHeader(t: Text, start: nat, comma: nat, blank: nat)
    requires start + 5 <= blank < comma < |t|
    requires IsBlank(t[blank])
    requires forall k | start + 5 <= k < comma :: t[k] != COMMA
    ensures !UrlAt(t, start)
  {
  }

  method FindPayloadEnd(t: Text, comma: nat) returns (end: nat)
    requires comma < |t|
    ensures end == PayloadEnd(t, comma + 1)
  {
    end := comma + 1;
    while end < |t|
      invariant comma + 1 <= end <= |t|
      invariant PayloadEnd(t, end) == PayloadEnd(t, comma + 1)
    {
      if EndsPayload(t[end]) {
        break;
      }
      end := end + 1;
    }
  }

  lemma HeaderIsUnique(t: Text, start: nat, comma: nat)
    requires DataAt(t, start) && HeaderEndsAt(t, start, comma)
    ensures UrlAt(t, start) && UrlEnd(t, start) == PayloadEnd(t, comma + 1)
  {
  }

  /** The two ways in which the scanner moves on, seen from the text already produced. */
  lemma Emit(output: Text, t: Text, cursor: nat, start: nat, next: nat)
    requires cursor <= start <= |t|
    requires forall p | cursor <= p < start :: !UrlAt(t, p)
    requires next == start || (start < |t| && UrlAt(t, start) && next == UrlEnd(t, start))
    ensures next == start ==>
              output + t[cursor..start] + Sanitized(t, next) == output + Sanitized(t, cursor)
    ensures next != start ==>
              output + t[cursor..start] + MARKER + Sanitized(t, next) == output + Sanitized(t, cursor)
  {
    KeepRun(t, cursor, start);
    if next == start {
      Associative(output, t[cursor..start], Sanitized(t, start));
    } else {
      var rest := Sanitized(t, next);
      Associative(output + t[cursor..start], MARKER, rest);
      Associative(output, t[cursor..start], MARKER + rest);
    }
  }

  lemma Associative(a: Text, b: Text, c: Text)
    ensures (a + b) + c == a + (b + c)
  {
  }

  /** No data URL starts inside the five code units of `data:`. */
  lemma NoUrlInside(t: Text, cursor: nat, start: nat)
    requires DataAt(t, start) && !UrlAt(t, start)
    requires forall p | cursor <= p < start :: !DataAt(t, p)
    ensures forall p | cursor <= p < start + 5 :: !UrlAt(t, p)
  {
  }

  /** The scanner of the program. It examines a bounded number of code units per position. */
  method Sanitize(text: Text) returns (output: Text, ghost examined: nat)
    ensures output == Sanitized(text)
    ensures examined <= 212 * |text|
  {
    var cursor := 0;
    output := [];
    examined := 0;
    while cursor < |text|
      invariant cursor <= |text|
      invariant output + Sanitized(text, cursor) == Sanitized(text)
      invariant examined <= 212 * cursor
    {
      var start, searched := IndexOfData(text, cursor);
      examined := examined + searched;
      if start == -1 {
        Emit(output, text, cursor, |text|, |text|);
        output := output + text[cursor..|text|];
        cursor := |text|;
        break;
      }
      var comma, checked := FindHeaderEnd(text, start);
      examined := examined + checked;
      if comma == -1 {
        NoUrlInside(text, cursor, start);
        Emit(output, text, cursor, start + 5, start + 5);
        output := output + text[cursor..start + 5];
        cursor := start + 5;
        continue;
      }
      var end := FindPayloadEnd(text, comma);
      examined := examined + (end - comma);
      HeaderIsUnique(text, start, comma);
      Emit(output, text, cursor, start, end);
      output := output + text[cursor..start] + MARKER;
      cursor := end;
    }
    assert output + [] == output;
  }

  // ---------------------------------------------------------------------
  // Kept text and removed spans
  // ---------------------------------------------------------------------

  datatype Span = Span(start: nat, end: nat)

  /** Disjoint data URLs in order, with no data URL starting in the text between them. */
  ghost predicate IsRemoval(t: Text, i: nat, spans: seq<Span>)
    requires i <= |t|
    decreases |spans|
  {
    if spans == [] then
      forall p | i <= p < |t| :: !UrlAt(t, p)
    else
      var Span(start, end) := spans[0];
      && i <= start
      && DataAt(t, start)
      && (exists comma: nat ::
            && HeaderEndsAt(t, start, comma)
            && comma < end <= |t|
            && (forall k | comma < k < end :: !EndsPayload(t[k]))
            && (end < |t| ==> EndsPayload(t[end])))
      && (forall p | i <= p < start :: !UrlAt(t, p))
      && IsRemoval(t, end, spans[1..])
  }

  /** The kept text in order, with one marker for each removed span. */
  ghost function Assemble(t: Text, i: nat, spans: seq<Span>): Text
    requires i <= |t| && IsRemoval(t, i, spans)
    decreases |spans|
  {
    if spans == [] then t[i..]
    else t[i..spans[0].start] + MARKER + Assemble(t, spans[0].end, spans[1..])
  }

  /** Any cut into kept text and data URLs assembles to the same result... */
  lemma {:induction false} AssembleIsSanitized(t: Text, i: nat, spans: seq<Span>)
    requires i <= |t| && IsRemoval(t, i, spans)
    ensures Assemble(t, i, spans) == Sanitized(t, i)
    decreases |spans|
  {
    if spans == [] {
      KeepRun(t, i, |t|);
    } else {
      var Span(start, end) := spans[0];
      assert UrlAt(t, start) && UrlEnd(t, start) == end;
      AssembleIsSanitized(t, end, spans[1..]);
      Emit([], t, i, start, end);
      assert [] + t[i..start] == t[i..start];
      assert [] + Sanitized(t, i) == Sanitized(t, i);
    }
  }

  /** ...and there is one. */
  lemma {:induction false} RemovalExists(t: Text, i: nat) returns (spans: seq<Span>)
    requires i <= |t|
    ensures IsRemoval(t, i, spans)
    decreases |t| - i
  {
    if i == |t| {
      spans := [];
    } else if UrlAt(t, i) {
      var rest := RemovalExists(t, UrlEnd(t, i));
      spans := [Span(i, UrlEnd(t, i))] + rest;
      assert spans[1..] == rest;
    } else {
      spans := RemovalExists(t, i + 1);
    }
  }

  /** The cut is unique. */
  lemma {:induction false} RemovalUnique(t: Text, i: nat, a: seq<Span>, b: seq<Span>)
    requires i <= |t| && IsRemoval(t, i, a) && IsRemoval(t, i, b)
    ensures a == b
    decreases |a|
  {
    assert a != [] ==> UrlAt(t, a[0].start);
    assert b != [] ==> UrlAt(t, b[0].start);
    if a != [] && b != [] {
      assert UrlEnd(t, a[0].start) == a[0].end;
      assert UrlEnd(t, b[0].start) == b[0].end;
      assert a[0] == b[0];
      RemovalUnique(t, a[0].end, a[1..], b[1..]);
      assert a == [a[0]] + a[1..] && b == [b[0]] + b[1..];
    }
  }

  // ---------------------------------------------------------------------
  // The result holds no data URL, so scanning twice changes nothing
  // ---------------------------------------------------------------------

  ghost function KeptEnd(t: Text, i: nat): (j: nat)
    requires i <= |t|
    ensures i <= j <= |t|
    ensures forall p | i <= p < j :: !UrlAt(t, p)
    ensures j < |t| ==> UrlAt(t, j)
    decreases |t| - i
  {
    if i == |t| || UrlAt(t, i) then i else KeptEnd(t, i + 1)
  }

  /** Whether a data URL starts at a position depends only on the text after it. */
  lemma UrlAtShift(a: Text, b: Text, p: nat)
    requires UrlAt(a + b, |a| + p)
    ensures UrlAt(b, p)
  {
    var comma: nat :| HeaderEndsAt(a + b, |a| + p, comma);
    assert forall k | 0 <= k < |b| :: b[k] == (a + b)[|a| + k];
    assert forall k | p + 5 <= k < comma - |a| :: b[k] == (a + b)[|a| + k];
    assert HeaderEndsAt(b, p, comma - |a|);
  }

  /**
   * A kept `data:` does not turn into a data URL when later text is shortened: the first
   * comma can only come closer by crossing a marker, and a marker contains blanks.
   */
  lemma KeptHeadStaysInvalid(kept: Text, after: Text, rest: Text)
    requires kept != [] && !UrlAt(kept + after, 0)
    requires rest == [] ==> after == []
    requires rest == [] || (|rest| >= 8 && rest[..8] == MARKER[..8])
    ensures !UrlAt(kept + rest, 0)
  {
    var before, out := kept + after, kept + rest;
    if rest != [] {
      assert forall k | 0 <= k < 8 :: rest[k] == rest[..8][k];
      assert forall k | 0 <= k < 8 :: out[|kept| + k] == rest[k];
      assert out[|kept| + 0] == MARKER[0] == 91;
      assert out[|kept| + 7] == MARKER[7] == 32;
      assert forall k | 0 <= k < 8 :: rest[k] != COMMA;
    }
    forall comma: nat
      ensures !(DataAt(out, 0) && HeaderEndsAt(out, 0, comma))
    {
      if DataAt(out, 0) && HeaderEndsAt(out, 0, comma) {
        if comma < |kept| {
          assert DataAt(before, 0);
          assert forall k | 5 <= k < comma :: before[k] == out[k];
          assert HeaderEndsAt(before, 0, comma);
        } else if comma < |kept| + 8 {
          assert false;
        }
      }
    }
  }

  lemma HeadStaysInvalid(t: Text, i: nat)
    requires i < |t| && !UrlAt(t, i)
    ensures !UrlAt(Sanitized(t, i), 0)
  {
    var j := KeptEnd(t, i);
    KeepRun(t, i, j);
    if UrlAt(t[i..j] + t[j..], 0) {
      assert t == t[..i] + (t[i..j] + t[j..]);
      UrlAtExtend(t[..i], t[i..j] + t[j..], 0);
    }
    KeptHeadStaysInvalid(t[i..j], t[j..], Sanitized(t, j));
  }

  lemma UrlAtExtend(a: Text, b: Text, p: nat)
    requires UrlAt(b, p)
    ensures UrlAt(a + b, |a| + p)
  {
    var comma: nat :| HeaderEndsAt(b, p, comma);
    assert forall k | |a| <= k < |a| + |b| :: (a + b)[k] == b[k - |a|];
    assert HeaderEndsAt(a + b, |a| + p, |a| + comma);
  }

  lemma MarkerHoldsNoUrl(rest: Text, p: nat)
    requires p < |MARKER|
    ensures !UrlAt(MARKER + rest, p)
  {
    var t := MARKER + rest;
    assert forall k | 0 <= k < |MARKER| :: t[k] == MARKER[k];
    assert t[p] == 100 ==> p == 27 && t[28] == 93;
  }

  lemma EmptyHoldsNoUrl(p: nat)
    ensures !UrlAt([], p)
  {
  }

  lemma {:induction false} SanitizedHasNoUrl(t: Text, i: nat, p: nat)
    requires i <= |t|
    ensures !UrlAt(Sanitized(t, i), p)
    decreases |t| - i
  {
    if i == |t| {
      EmptyHoldsNoUrl(p);
    } else {
      hide UrlAt;
      if UrlAt(t, i) {
        var rest := Sanitized(t, UrlEnd(t, i));
        if p < |MARKER| {
          MarkerHoldsNoUrl(rest, p);
        } else {
          SanitizedHasNoUrl(t, UrlEnd(t, i), p - |MARKER|);
          if UrlAt(MARKER + rest, p) {
            UrlAtShift(MARKER, rest, p - |MARKER|);
          }
        }
      } else if p == 0 {
        HeadStaysInvalid(t, i);
      } else {
        var rest := Sanitized(t, i + 1);
        SanitizedHasNoUrl(t, i + 1, p - 1);
        if UrlAt([t[i]] + rest, p) {
          UrlAtShift([t[i]], rest, p - 1);
        }
      }
    }
  }

  /** Scanning a scanned text changes nothing, for every text. */
  lemma SanitizeTwice(t: Text)
    ensures Sanitized(Sanitized(t)) == Sanitized(t)
  {
    var once := Sanitized(t);
    forall p | 0 <= p < |once|
      ensures !UrlAt(once, p)
    {
      SanitizedHasNoUrl(t, 0, p);
    }
    KeepRun(once, 0, |once|);
  }
}
