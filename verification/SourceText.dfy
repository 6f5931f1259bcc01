/** Text as the embedding code sees it: a sequence of UTF-16 code units. */
module SourceText {

  type CodeUnit = c: int | 0 <= c < 0x1_0000

  type Text = seq<CodeUnit>

  const NEWLINE: CodeUnit := 10
  const COMMA: CodeUnit := 44

  /** The white space that both `trim` and the class `\s` recognise. */
  predicate IsSpace(c: CodeUnit) {
    || 9 <= c <= 13
    || c == 0x20
    || c == 0xA0
    || c == 0x1680
    || 0x2000 <= c <= 0x200A
    || c == 0x2028
    || c == 0x2029
    || c == 0x202F
    || c == 0x205F
    || c == 0x3000
    || c == 0xFEFF
  }

  predicate AllSpace(t: Text) {
    forall k | 0 <= k < |t| :: IsSpace(t[k])
  }

  lemma SpaceAt(t: Text, from: nat, to: nat, p: nat)
    requires from <= p < to <= |t| && AllSpace(t[from..to])
    ensures IsSpace(t[p])
  {
    assert t[from..to][p - from] == t[p];
  }

  lemma SpaceJoin(t: Text, a: nat, b: nat, c: nat)
    requires a <= b <= c <= |t| && AllSpace(t[a..b]) && AllSpace(t[b..c])
    ensures AllSpace(t[a..c])
  {
    assert t[a..c] == t[a..b] + t[b..c];
  }

  /** What is left of a text once all white space is removed. */
  function Ink(t: Text): (ink: Text)
  {
    if t == [] then [] else (if IsSpace(t[0]) then [] else [t[0]]) + Ink(t[1..])
  }

  lemma {:induction false} InkConcat(a: Text, b: Text)
    ensures Ink(a + b) == Ink(a) + Ink(b)
  {
    if a == [] {
      assert a + b == b;
    } else {
      assert (a + b)[1..] == a[1..] + b;
      InkConcat(a[1..], b);
    }
  }

  lemma {:induction false} InkOfSpace(t: Text)
    requires AllSpace(t)
    ensures Ink(t) == []
  {
    if t != [] {
      InkOfSpace(t[1..]);
    }
  }
}
