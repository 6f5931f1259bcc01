/**
 * Rewriting attachment URLs in a duplicated document. The code collects the replacements in a table
 * and applies one after the other; as URLs cannot overlap, this is one simultaneous substitution
 * unless an identifier is handed on from one replacement to a later one.
 */
module AttachmentUrls {
  import opened Wrappers

  const PREFIX := "/api/attachments/"
  const SUFFIX := "/raw"

  /** Identifiers are generated; they hold no slash, and no `$` that a replacement would interpret. */
  predicate SlashFree(id: string) {
    forall i | 0 <= i < |id| :: id[i] != '/'
  }

  function Url(id: string): string {
    PREFIX + id + SUFFIX
  }

  datatype Plan = Plan(source: string, target: string)

  predicate PlansOk(plans: seq<Plan>) {
    forall i | 0 <= i < |plans| :: SlashFree(plans[i].source) && SlashFree(plans[i].target)
  }

  /** `text.replaceAll(pattern, replacement)`. */
  function ReplaceAll(text: string, pattern: string, replacement: string): string
    requires pattern != ""
    decreases |text|
  {
    if text == "" then ""
    else if pattern <= text then replacement + ReplaceAll(text[|pattern|..], pattern, replacement)
    else [text[0]] + ReplaceAll(text[1..], pattern, replacement)
  }

  /** An entry of the table is replaced where it stands; a new one is appended. */
  function Set(table: seq<Plan>, p: Plan): seq<Plan> {
    if table == [] then [p]
    else if table[0].source == p.source then [p] + table[1..]
    else [table[0]] + Set(table[1..], p)
  }

  /** The table of replacements: one entry for each source, with the target of its last plan. */
  function Table(plans: seq<Plan>): seq<Plan> {
    if plans == [] then [] else Set(Table(plans[..|plans| - 1]), plans[|plans| - 1])
  }

  /** Replacements one after the other. */
  function ReplaceEach(text: string, table: seq<Plan>): string {
    if table == [] then text
    else ReplaceAll(ReplaceEach(text, table[..|table| - 1]),
                    Url(table[|table| - 1].source), Url(table[|table| - 1].target))
  }

  /** What the code makes of a string. */
  function RewriteString(text: string, plans: seq<Plan>): string {
    ReplaceEach(text, Table(plans))
  }

  /** The loop over the table. */
  method Rewrite(text: string, plans: seq<Plan>) returns (rewritten: string)
    ensures rewritten == RewriteString(text, plans)
  {
    var replacements := Table(plans);
    rewritten := text;
    for i := 0 to |replacements|
      invariant rewritten == ReplaceEach(text, replacements[..i])
    {
      assert replacements[..i + 1][..i] == replacements[..i];
      rewritten := ReplaceAll(rewritten, Url(replacements[i].source), Url(replacements[i].target));
    }
    assert replacements[..|replacements|] == replacements;
  }

  // ---------------------------------------------------------------------
  // URLs do not overlap
  // ---------------------------------------------------------------------

  function UpToSlash(text: string): (id: string)
    ensures SlashFree(id) && id <= text
  {
    if text == "" || text[0] == '/' then "" else [text[0]] + UpToSlash(text[1..])
  }

  /** The identifier of the URL that the text begins with, if it begins with one. */
  function UrlAt(text: string): (id: Option<string>)
    ensures id.Some? ==> SlashFree(id.value) && Url(id.value) <= text
  {
    if PREFIX <= text then
      var id := UpToSlash(text[|PREFIX|..]);
      if Url(id) <= text then Some(id) else None
    else None
  }

  lemma {:induction false} UpToSlashIs(id: string, rest: string)
    requires SlashFree(id) && rest != "" && rest[0] == '/'
    ensures UpToSlash(id + rest) == id
  {
    if id == "" {
      assert id + rest == rest;
    } else {
      assert (id + rest)[1..] == id[1..] + rest;
      UpToSlashIs(id[1..], rest);
    }
  }

  lemma UrlAtIs(id: string, rest: string)
    requires SlashFree(id)
    ensures UrlAt(Url(id) + rest) == Some(id)
  {
    var text := Url(id) + rest;
    assert text[|PREFIX|..] == id + (SUFFIX + rest);
    UpToSlashIs(id, SUFFIX + rest);
  }

  lemma UrlAtOnly(text: string, id: string)
    requires SlashFree(id) && Url(id) <= text
    ensures UrlAt(text) == Some(id)
  {
    assert text == Url(id) + text[|Url(id)|..];
    UrlAtIs(id, text[|Url(id)|..]);
  }

  /** Inside a URL no other URL can begin: the two differ at some place that both cover. */
  lemma NoOverlap(x: string, y: string, p: nat) returns (q: nat)
    requires SlashFree(x) && SlashFree(y) && 0 < p < |Url(x)|
    ensures p + q < |Url(x)| && q < |Url(y)| && Url(x)[p + q] != Url(y)[q]
  {
    var u := Url(x);
    var n := |PREFIX|;
    assert u[..n] == PREFIX;
    assert forall i | 0 <= i < |x| :: u[n + i] == x[i];
    assert u[n + |x|..] == SUFFIX;
    assert Url(y)[..n] == PREFIX;
    assert Url(y)[0] == '/' && Url(y)[1] == 'a' && Url(y)[2] == 'p' && Url(y)[3] == 'i' && Url(y)[4] == '/';
    if u[p] != '/' {
      return 0;
    }
    if p == 4 {
      assert u[p + 2] == PREFIX[6] == 't';
      return 2;
    }
    if p == n - 1 {
      if |x| == 3 {
        assert u[n + 3 + 1] == SUFFIX[1] == 'r';
        assert Url(y)[5] == PREFIX[5] == 'a';
        return 5;
      } else if |x| < 3 {
        assert u[n + |x|] == SUFFIX[0] == '/';
        return 1 + |x|;
      } else {
        return 4;
      }
    }
    SlashPlaces(x, p);
    assert u[p + 1] == SUFFIX[1] == 'r';
    return 1;
  }

  lemma SlashPlaces(x: string, p: nat)
    requires SlashFree(x) && 0 < p < |Url(x)| && Url(x)[p] == '/' && p != 4 && p != |PREFIX| - 1
    ensures p == |PREFIX| + |x|
  {
    var u, n := Url(x), |PREFIX|;
    assert forall i | 0 < i < n && i != 4 && i != n - 1 :: PREFIX[i] != '/';
    assert forall i | 0 <= i < n :: u[i] == PREFIX[i];
    assert forall i | 0 <= i < |x| :: u[n + i] == x[i];
    assert u[n + |x|..] == SUFFIX;
    assert n + |x| <= p ==> u[p] == SUFFIX[p - n - |x|];
    assert forall i | n <= i < n + |x| :: u[i] == x[i - n];
  }

  /** No URL begins inside a URL, whatever follows. */
  lemma NoUrlInside(x: string, y: string, p: nat, rest: string)
    requires SlashFree(x) && SlashFree(y) && 0 < p < |Url(x)|
    ensures !(Url(y) <= Url(x)[p..] + rest)
  {
    var q := NoOverlap(x, y, p);
    assert (Url(x)[p..] + rest)[q] == Url(x)[p + q];
  }

  /** What follows inside a URL is not the beginning of a URL. */
  lemma NoUrlFollows(x: string, y: string, p: nat, rest: string)
    requires SlashFree(x) && SlashFree(y) && 0 < p < |Url(x)|
    ensures !(Url(x)[p..] <= Url(y) + rest)
  {
    var q := NoOverlap(x, y, p);
    assert (Url(y) + rest)[q] == Url(y)[q] && Url(x)[p..][q] == Url(x)[p + q];
  }

  // ---------------------------------------------------------------------
  // Texts as sequences of characters and URLs
  // ---------------------------------------------------------------------

  datatype Token = Char(c: char) | Ref(id: string)

  function Render(tokens: seq<Token>): string {
    if tokens == [] then ""
    else (match tokens[0] case Char(c) => [c] case Ref(id) => Url(id)) + Render(tokens[1..])
  }

  function Scan(text: string): seq<Token>
    decreases |text|
  {
    if text == "" then []
    else if UrlAt(text).Some? then [Ref(UrlAt(text).value)] + Scan(text[|Url(UrlAt(text).value)|..])
    else [Char(text[0])] + Scan(text[1..])
  }

  /** No URL begins at a character. */
  predicate Canonical(tokens: seq<Token>) {
    tokens != [] ==>
      && (tokens[0].Ref? ==> SlashFree(tokens[0].id))
      && (tokens[0].Char? ==> UrlAt(Render(tokens)).None?)
      && Canonical(tokens[1..])
  }

  lemma {:induction false} ScanRenders(text: string)
    ensures Render(Scan(text)) == text && Canonical(Scan(text))
    decreases |text|
  {
    if text != "" {
      var tokens := Scan(text);
      if UrlAt(text).Some? {
        var url := Url(UrlAt(text).value);
        ScanRenders(text[|url|..]);
        assert tokens[1..] == Scan(text[|url|..]);
        assert text == url + text[|url|..];
      } else {
        ScanRenders(text[1..]);
        assert tokens[1..] == Scan(text[1..]);
        assert text == [text[0]] + text[1..];
      }
    }
  }

  lemma {:induction false} RenderScans(tokens: seq<Token>)
    requires Canonical(tokens)
    ensures Scan(Render(tokens)) == tokens
  {
    hide UrlAt;
    if tokens != [] {
      var rest := Render(tokens[1..]);
      RenderScans(tokens[1..]);
      match tokens[0]
      case Ref(id) =>
        UrlAtIs(id, rest);
        assert (Url(id) + rest)[|Url(id)|..] == rest;
        assert tokens == [Ref(id)] + tokens[1..];
      case Char(c) =>
        assert ([c] + rest)[1..] == rest;
        assert tokens == [Char(c)] + tokens[1..];
    }
  }

  function MapToken(t: Token, f: string -> string): Token {
    match t case Char(c) => t case Ref(id) => Ref(f(id))
  }

  function MapTokens(tokens: seq<Token>, f: string -> string): seq<Token> {
    if tokens == [] then [] else [MapToken(tokens[0], f)] + MapTokens(tokens[1..], f)
  }

  ghost predicate KeepsSlashFree(f: string -> string) {
    forall id :: SlashFree(id) ==> SlashFree(f(id))
  }

  /** Two texts that begin with the same characters up to their first URLs begin with the same URL, if any. */
  lemma {:induction false} SameBeginning(tokens: seq<Token>, f: string -> string, url: string, p: nat, id: string)
    requires Canonical(tokens) && KeepsSlashFree(f) && SlashFree(id) && url == Url(id) && 0 < p <= |url|
    requires url[p..] <= Render(MapTokens(tokens, f))
    ensures url[p..] <= Render(tokens)
    decreases |url| - p
  {
    if p < |url| {
      var mapped := MapTokens(tokens, f);
      assert tokens != [];
      assert mapped[0] == MapToken(tokens[0], f) && mapped[1..] == MapTokens(tokens[1..], f);
      match tokens[0]
      case Ref(x) =>
        assert SlashFree(f(x));
        NoUrlFollows(id, f(x), p, Render(mapped[1..]));
      case Char(c) =>
        assert Render(mapped) == [c] + Render(mapped[1..]);
        assert url[p..][0] == c && url[p..][1..] == url[p + 1..];
        assert Render(mapped)[1..] == Render(mapped[1..]);
        SameBeginning(tokens[1..], f, url, p + 1, id);
        assert url[p..] == [c] + url[p + 1..];
    }
  }

  /** A URL that begins with the character `c` before the renamed tokens also begins with `c` before the tokens. */
  lemma UrlFromChar(tokens: seq<Token>, f: string -> string, c: char, id: string)
    requires Canonical(tokens) && KeepsSlashFree(f) && SlashFree(id)
    requires Url(id) <= [c] + Render(MapTokens(tokens, f))
    ensures UrlAt([c] + Render(tokens)) == Some(id)
  {
    NonEmpty(id);
    hide *;
    var url, rest := Url(id), Render(MapTokens(tokens, f));
    assert url[0] == ([c] + rest)[0] && url[1..] <= rest;
    SameBeginning(tokens, f, url, 1, id);
    assert url == [c] + url[1..];
    UrlAtOnly([c] + Render(tokens), id);
  }

  /** If the renamed text began with a URL at a character, so would the text. */
  lemma CharStays(tokens: seq<Token>, f: string -> string)
    requires Canonical(tokens) && KeepsSlashFree(f) && tokens != [] && tokens[0].Char?
    ensures UrlAt(Render(MapTokens(tokens, f))).None?
  {
    var text, rest, c := Render(MapTokens(tokens, f)), tokens[1..], tokens[0].c;
    assert MapTokens(tokens, f)[1..] == MapTokens(rest, f);
    assert text == [c] + Render(MapTokens(rest, f)) && Render(tokens) == [c] + Render(rest);
    assert UrlAt(Render(tokens)).None? && Canonical(rest);
    hide *;
    var found := UrlAt(text);
    if found.Some? {
      UrlFromChar(rest, f, c, found.value);
    }
  }

  lemma NonEmpty(id: string)
    ensures |Url(id)| > 4
  {
  }

  /** Renaming URLs creates none. */
  lemma {:induction false} MapKeepsCanonical(tokens: seq<Token>, f: string -> string)
    requires Canonical(tokens) && KeepsSlashFree(f)
    ensures Canonical(MapTokens(tokens, f))
  {
    if tokens != [] {
      hide UrlAt, Render, SlashFree;
      assert MapTokens(tokens, f)[1..] == MapTokens(tokens[1..], f);
      MapKeepsCanonical(tokens[1..], f);
      if tokens[0].Char? {
        CharStays(tokens, f);
      }
    }
  }

  // ---------------------------------------------------------------------
  // Replacing is renaming
  // ---------------------------------------------------------------------

  function Renamed(source: string, target: string): string -> string {
    (id: string) => if id == source then target else id
  }

  lemma ReplaceStep(text: string, pattern: string, replacement: string)
    requires pattern != "" && text != "" && !(pattern <= text)
    ensures ReplaceAll(text, pattern, replacement) == [text[0]] + ReplaceAll(text[1..], pattern, replacement)
  {
  }

  lemma ReplaceFirst(pattern: string, rest: string, replacement: string)
    requires pattern != ""
    ensures ReplaceAll(pattern + rest, pattern, replacement) == replacement + ReplaceAll(rest, pattern, replacement)
  {
    assert (pattern + rest)[|pattern|..] == rest;
  }

  /** Nothing is replaced inside a URL. */
  lemma {:induction false} ReplaceSkips(x: string, p: nat, rest: string, a: string, replacement: string)
    requires SlashFree(x) && SlashFree(a) && 0 < p <= |Url(x)|
    ensures ReplaceAll(Url(x)[p..] + rest, Url(a), replacement) == Url(x)[p..] + ReplaceAll(rest, Url(a), replacement)
    decreases |Url(x)| - p
  {
    hide ReplaceAll, SlashFree;
    var u := Url(x);
    if p == |u| {
      assert u[p..] + rest == rest;
      assert u[p..] + ReplaceAll(rest, Url(a), replacement) == ReplaceAll(rest, Url(a), replacement);
    } else {
      hide Url;
      var text := u[p..] + rest;
      NoUrlInside(x, a, p, rest);
      NonEmpty(a);
      ReplaceStep(text, Url(a), replacement);
      assert text[1..] == u[p + 1..] + rest;
      ReplaceSkips(x, p + 1, rest, a, replacement);
      assert u[p..] == [u[p]] + u[p + 1..];
      var replaced := ReplaceAll(rest, Url(a), replacement);
      assert [u[p]] + (u[p + 1..] + replaced) == u[p..] + replaced;
    }
  }

  /** A URL of another identifier is passed over. */
  lemma ReplacePasses(x: string, rest: string, a: string, replacement: string)
    requires SlashFree(x) && SlashFree(a) && x != a
    ensures ReplaceAll(Url(x) + rest, Url(a), replacement) == Url(x) + ReplaceAll(rest, Url(a), replacement)
  {
    hide ReplaceAll, SlashFree, UrlAt;
    var u, text := Url(x), Url(x) + rest;
    UrlAtIs(x, rest);
    if Url(a) <= text {
      UrlAtOnly(text, a);
    }
    hide Url;
    NonEmpty(a);
    NonEmpty(x);
    ReplaceStep(text, Url(a), replacement);
    assert text[1..] == u[1..] + rest;
    ReplaceSkips(x, 1, rest, a, replacement);
    assert u == [u[0]] + u[1..];
    assert [u[0]] + (u[1..] + ReplaceAll(rest, Url(a), replacement)) == u + ReplaceAll(rest, Url(a), replacement);
  }

  lemma {:induction false} ReplaceIsRename(tokens: seq<Token>, a: string, b: string)
    requires Canonical(tokens) && SlashFree(a)
    ensures ReplaceAll(Render(tokens), Url(a), Url(b)) == Render(MapTokens(tokens, Renamed(a, b)))
  {
    hide ReplaceAll, SlashFree, UrlAt, Url;
    NonEmpty(a);
    if tokens == [] {
      ReplaceNothing(Url(a), Url(b));
    } else {
      var rest := Render(tokens[1..]);
      var f := Renamed(a, b);
      ReplaceIsRename(tokens[1..], a, b);
      assert MapTokens(tokens, f)[1..] == MapTokens(tokens[1..], f);
      match tokens[0]
      case Ref(x) =>
        if x == a {
          ReplaceFirst(Url(a), rest, Url(b));
        } else {
          ReplacePasses(x, rest, a, Url(b));
        }
      case Char(c) =>
        var text := [c] + rest;
        if Url(a) <= text {
          UrlAtOnly(text, a);
        }
        ReplaceStep(text, Url(a), Url(b));
        assert text[1..] == rest;
    }
  }

  lemma ReplaceNothing(pattern: string, replacement: string)
    requires pattern != ""
    ensures ReplaceAll("", pattern, replacement) == ""
  {
  }

  // ---------------------------------------------------------------------
  // One after the other is all at once
  // ---------------------------------------------------------------------

  /** What the plans make of an identifier: the target of the last plan for it. */
  function Lookup(plans: seq<Plan>, id: string): string {
    if plans == [] then id
    else if plans[|plans| - 1].source == id then plans[|plans| - 1].target
    else Lookup(plans[..|plans| - 1], id)
  }

  /** Every URL of the text is looked up once, in one pass from left to right. */
  function Substitute(text: string, plans: seq<Plan>): string
    decreases |text|
  {
    if text == "" then ""
    else if UrlAt(text).Some? then
      Url(Lookup(plans, UrlAt(text).value)) + Substitute(text[|Url(UrlAt(text).value)|..], plans)
    else [text[0]] + Substitute(text[1..], plans)
  }

  function Naming(plans: seq<Plan>): string -> string {
    (id: string) => Lookup(plans, id)
  }

  lemma {:induction false} SubstituteIsMap(text: string, plans: seq<Plan>)
    ensures Substitute(text, plans) == Render(MapTokens(Scan(text), Naming(plans)))
    decreases |text|
  {
    if text != "" {
      var tokens := Scan(text);
      var rest := if UrlAt(text).Some? then text[|Url(UrlAt(text).value)|..] else text[1..];
      SubstituteIsMap(rest, plans);
      assert tokens[1..] == Scan(rest);
      assert MapTokens(tokens, Naming(plans))[1..] == MapTokens(tokens[1..], Naming(plans));
    }
  }

  lemma {:induction false} MapTwice(tokens: seq<Token>, f: string -> string, g: string -> string, h: string -> string)
    requires forall id :: h(id) == g(f(id))
    ensures MapTokens(MapTokens(tokens, f), g) == MapTokens(tokens, h)
  {
    if tokens != [] {
      MapTwice(tokens[1..], f, g, h);
      assert MapTokens(tokens, f)[1..] == MapTokens(tokens[1..], f);
    }
  }

  lemma {:induction false} MapNothing(tokens: seq<Token>, f: string -> string)
    requires forall id :: f(id) == id
    ensures MapTokens(tokens, f) == tokens
  {
    if tokens != [] {
      MapNothing(tokens[1..], f);
      assert tokens == [tokens[0]] + tokens[1..];
    }
  }

  /** What the replacements make of an identifier, one after the other. */
  function Follow(plans: seq<Plan>, id: string): string {
    if plans == [] then id
    else
      var before := Follow(plans[..|plans| - 1], id);
      if before == plans[|plans| - 1].source then plans[|plans| - 1].target else before
  }

  function Following(plans: seq<Plan>): string -> string {
    (id: string) => Follow(plans, id)
  }

  lemma {:induction false} FollowSlashFree(plans: seq<Plan>)
    requires PlansOk(plans)
    ensures KeepsSlashFree(Following(plans))
  {
    if plans != [] {
      FollowSlashFree(plans[..|plans| - 1]);
      forall id | SlashFree(id) ensures SlashFree(Following(plans)(id)) {
        assert SlashFree(Following(plans[..|plans| - 1])(id));
      }
    }
  }

  // ---------------------------------------------------------------------
  // The table
  // ---------------------------------------------------------------------

  predicate DistinctSources(plans: seq<Plan>) {
    forall i, j | 0 <= i < j < |plans| :: plans[i].source != plans[j].source
  }

  lemma {:induction false} SetAt(table: seq<Plan>, p: Plan, i: nat)
    requires DistinctSources(table) && i < |table| && table[i].source == p.source
    ensures Set(table, p) == table[i := p]
  {
    if i > 0 {
      SetAt(table[1..], p, i - 1);
    }
  }

  lemma {:induction false} SetNew(table: seq<Plan>, p: Plan)
    requires forall i | 0 <= i < |table| :: table[i].source != p.source
    ensures Set(table, p) == table + [p]
  {
    if table != [] {
      SetNew(table[1..], p);
    }
  }

  /** What one `set` does to the table. */
  lemma SetKeeps(table: seq<Plan>, p: Plan)
    requires DistinctSources(table)
    ensures DistinctSources(Set(table, p))
    ensures PlansOk(table) && PlansOk([p]) ==> PlansOk(Set(table, p))
    ensures forall id :: Lookup(Set(table, p), id) == if id == p.source then p.target else Lookup(table, id)
  {
    var after := Set(table, p);
    if i: nat :| i < |table| && table[i].source == p.source {
      SetAt(table, p, i);
      assert PlansOk([p]) ==> SlashFree([p][0].source) && SlashFree([p][0].target);
      LookupFound(after, i);
      forall id | id != p.source ensures Lookup(after, id) == Lookup(table, id) {
        if j: nat :| j < |table| && table[j].source == id {
          LookupFound(table, j);
          LookupFound(after, j);
        } else {
          LookupMissing(table, id);
          LookupMissing(after, id);
        }
      }
    } else {
      SetNew(table, p);
      assert PlansOk([p]) ==> SlashFree([p][0].source) && SlashFree([p][0].target);
      assert after[..|table|] == table;
    }
  }

  /** The table has one entry for each source, and it says what the plans say. */
  lemma {:induction false} TableMeans(plans: seq<Plan>)
    ensures DistinctSources(Table(plans))
    ensures forall id :: Lookup(Table(plans), id) == Lookup(plans, id)
  {
    if plans != [] {
      TableMeans(plans[..|plans| - 1]);
      SetKeeps(Table(plans[..|plans| - 1]), plans[|plans| - 1]);
    }
  }

  lemma {:induction false} TableOk(plans: seq<Plan>)
    requires PlansOk(plans)
    ensures PlansOk(Table(plans))
  {
    if plans != [] {
      var most, last := plans[..|plans| - 1], plans[|plans| - 1];
      TableOk(most);
      TableMeans(most);
      SetKeeps(Table(most), last);
    }
  }

  /** Plans with distinct sources are the table already. */
  lemma {:induction false} TableIsPlans(plans: seq<Plan>)
    requires DistinctSources(plans)
    ensures Table(plans) == plans
  {
    if plans != [] {
      var most, last := plans[..|plans| - 1], plans[|plans| - 1];
      TableIsPlans(most);
      SetNew(most, last);
      assert plans == most + [last];
    }
  }

  lemma {:induction false} LookupFound(plans: seq<Plan>, i: nat)
    requires i < |plans| && forall j | i < j < |plans| :: plans[j].source != plans[i].source
    ensures Lookup(plans, plans[i].source) == plans[i].target
  {
    if i < |plans| - 1 {
      LookupFound(plans[..|plans| - 1], i);
    }
  }

  lemma {:induction false} LookupMissing(plans: seq<Plan>, id: string)
    requires forall i | 0 <= i < |plans| :: plans[i].source != id
    ensures Lookup(plans, id) == id
  {
    if plans != [] {
      LookupMissing(plans[..|plans| - 1], id);
    }
  }

  /** Replacements one after the other rename the URLs of the text. */
  lemma {:induction false} EachFollows(text: string, plans: seq<Plan>)
    requires PlansOk(plans)
    ensures ReplaceEach(text, plans) == Render(MapTokens(Scan(text), Following(plans)))
    ensures Scan(ReplaceEach(text, plans)) == MapTokens(Scan(text), Following(plans))
    decreases |plans|
  {
    var tokens := Scan(text);
    ScanRenders(text);
    FollowSlashFree(plans);
    MapKeepsCanonical(tokens, Following(plans));
    hide Canonical, MapTokens, Render, Scan, ReplaceAll, Url;
    RenderScans(MapTokens(tokens, Following(plans)));
    if plans == [] {
      MapNothing(tokens, Following(plans));
    } else {
      var most, last := plans[..|plans| - 1], plans[|plans| - 1];
      EachFollows(text, most);
      FollowSlashFree(most);
      MapKeepsCanonical(tokens, Following(most));
      ReplaceIsRename(MapTokens(tokens, Following(most)), last.source, last.target);
      MapTwice(tokens, Following(most), Renamed(last.source, last.target), Following(plans));
    }
  }

  /** The rewriting renames the URLs of the text, and changes nothing else. */
  lemma RewriteFollows(text: string, plans: seq<Plan>)
    requires PlansOk(plans)
    ensures PlansOk(Table(plans))
    ensures RewriteString(text, plans) == Render(MapTokens(Scan(text), Following(Table(plans))))
    ensures Scan(RewriteString(text, plans)) == MapTokens(Scan(text), Following(Table(plans)))
  {
    TableOk(plans);
    EachFollows(text, Table(plans));
  }

  lemma {:induction false} MapEqual(tokens: seq<Token>, f: string -> string, g: string -> string)
    requires Canonical(tokens) && forall id | SlashFree(id) :: f(id) == g(id)
    ensures MapTokens(tokens, f) == MapTokens(tokens, g)
  {
    if tokens != [] {
      MapEqual(tokens[1..], f, g);
    }
  }

  lemma UrlInjective(x: string, y: string)
    requires SlashFree(x) && Url(x) == Url(y)
    ensures x == y
  {
    assert Url(x)[|PREFIX|..|Url(x)| - 4] == x && Url(y)[|PREFIX|..|Url(y)| - 4] == y;
  }

  lemma MapOneUrl(id: string, f: string -> string)
    requires SlashFree(id)
    ensures Scan(Url(id)) == [Ref(id)] && Render(MapTokens(Scan(Url(id)), f)) == Url(f(id))
  {
    UrlAtIs(id, "");
    assert Url(id) + "" == Url(id) && Url(id)[|Url(id)|..] == "";
    assert MapTokens([Ref(id)], f) == [Ref(f(id))];
    assert Url(f(id)) + "" == Url(f(id));
  }

  /** The rewriting is one simultaneous substitution, whatever the text. */
  ghost predicate Simultaneous(plans: seq<Plan>) {
    forall text :: RewriteString(text, plans) == Substitute(text, plans)
  }

  /** The target of an entry is the source of a later one, which changes it. */
  predicate HandsOver(table: seq<Plan>, i: nat, j: nat) {
    i < j < |table| && table[i].target == table[j].source && table[j].target != table[j].source
  }

  predicate HandsOn(table: seq<Plan>) {
    exists i, j | 0 <= i < j < |table| :: HandsOver(table, i, j)
  }

  /** What is not the source of a later entry that changes it, stays. */
  lemma {:induction false} FollowRest(table: seq<Plan>, m: nat, id: string)
    requires m <= |table|
    requires forall k | m <= k < |table| && table[k].source == Follow(table[..m], id) ::
               table[k].target == table[k].source
    ensures Follow(table, id) == Follow(table[..m], id)
    decreases |table|
  {
    if m == |table| {
      assert table[..m] == table;
    } else {
      var most := table[..|table| - 1];
      assert most[..m] == table[..m];
      FollowRest(most, m, id);
    }
  }

  /** Entry `i` renames its source, and nothing before it touches that. */
  lemma FollowEntry(table: seq<Plan>, i: nat)
    requires DistinctSources(table) && i < |table|
    ensures Follow(table[..i + 1], table[i].source) == table[i].target
  {
    var before, source := table[..i], table[i].source;
    assert table[..i + 1][..i] == before && before[..0] == [];
    FollowRest(before, 0, source);
  }

  /** Up to entry `j`, to which entry `i` hands its target on. */
  lemma FollowHandOver(table: seq<Plan>, i: nat, j: nat)
    requires DistinctSources(table) && HandsOver(table, i, j)
    ensures Follow(table[..j + 1], table[i].source) == table[j].target
  {
    var upTo, source := table[..j], table[i].source;
    FollowEntry(upTo, i);
    FollowRest(upTo, i + 1, source);
    assert table[..j + 1][..j] == upTo;
  }

  lemma HandOverShows(table: seq<Plan>, i: nat, j: nat)
    requires DistinctSources(table) && HandsOver(table, i, j)
    requires forall k | j < k < |table| :: !HandsOver(table, j, k)
    ensures Follow(table, table[i].source) != Lookup(table, table[i].source)
  {
    assert table[i].target == table[j].source && table[j].target != table[j].source;
    forall k | j + 1 <= k < |table| && table[k].source == table[j].target ensures table[k].target == table[k].source {
      assert !HandsOver(table, j, k);
    }
    assert forall k | i < k < |table| :: table[k].source != table[i].source;
    hide *;
    LookupFound(table, i);
    FollowHandOver(table, i, j);
    FollowRest(table, j + 1, table[i].source);
  }

  /** The last entry that anything is handed on to. */
  lemma LastHandOver(table: seq<Plan>, i: nat, j: nat) returns (x: nat, y: nat)
    requires HandsOver(table, i, j)
    ensures HandsOver(table, x, y) && forall k | y < k < |table| :: !HandsOver(table, y, k)
    decreases |table| - j
  {
    if k :| j < k < |table| && HandsOver(table, j, k) {
      x, y := LastHandOver(table, j, k);
    } else {
      x, y := i, j;
    }
  }

  lemma NothingHandedOn(table: seq<Plan>, id: string)
    requires DistinctSources(table) && !HandsOn(table)
    ensures Follow(table, id) == Lookup(table, id)
  {
    if i: nat :| i < |table| && table[i].source == id {
      LookupFound(table, i);
      FollowEntry(table, i);
      forall k | i + 1 <= k < |table| && table[k].source == table[i].target ensures table[k].target == table[k].source {
        assert !HandsOver(table, i, k);
      }
      FollowRest(table, i + 1, id);
    } else {
      LookupMissing(table, id);
      assert table[..0] == [];
      FollowRest(table, 0, id);
    }
  }

  lemma NotHandedOnSuffices(plans: seq<Plan>)
    requires PlansOk(plans) && !HandsOn(Table(plans))
    ensures Simultaneous(plans)
  {
    TableMeans(plans);
    forall text ensures RewriteString(text, plans) == Substitute(text, plans) {
      ScanRenders(text);
      RewriteFollows(text, plans);
      SubstituteIsMap(text, plans);
      forall id ensures Following(Table(plans))(id) == Naming(plans)(id) {
        NothingHandedOn(Table(plans), id);
      }
      MapEqual(Scan(text), Following(Table(plans)), Naming(plans));
    }
  }

  lemma HandedOnDiffers(plans: seq<Plan>, i: nat, j: nat)
    requires PlansOk(plans) && HandsOver(Table(plans), i, j)
    ensures !Simultaneous(plans)
  {
    TableMeans(plans);
    TableOk(plans);
    var x, y := LastHandOver(Table(plans), i, j);
    HandOverShows(Table(plans), x, y);
    var id := Table(plans)[x].source;
    if RewriteString(Url(id), plans) == Substitute(Url(id), plans) {
      OneUrlAgrees(plans, id);
    }
  }

  /**
   * Replacing one source after the other is one simultaneous substitution on every text exactly when
   * no target in the table is the source of a later entry that changes it.
   */
  lemma SequentialIsSimultaneous(plans: seq<Plan>)
    requires PlansOk(plans)
    ensures Simultaneous(plans) <==> !HandsOn(Table(plans))
  {
    hide Simultaneous;
    if HandsOn(Table(plans)) {
      var i, j :| 0 <= i < j < |Table(plans)| && HandsOver(Table(plans), i, j);
      HandedOnDiffers(plans, i, j);
    } else {
      NotHandedOnSuffices(plans);
    }
  }

  /** A link to attachment `a` becomes one to `c`, though the plan for `a` says `b`. */
  lemma HandedOnExample()
    ensures var plans := [Plan("a", "b"), Plan("b", "c")];
            && Table(plans) == plans && HandsOn(Table(plans))
            && RewriteString(Url("a"), plans) == Url("c") && Substitute(Url("a"), plans) == Url("b")
  {
    var plans := [Plan("a", "b"), Plan("b", "c")];
    TableIsPlans(plans);
    assert HandsOver(plans, 0, 1);
    RewriteFollows(Url("a"), plans);
    SubstituteIsMap(Url("a"), plans);
    MapOneUrl("a", Following(plans));
    MapOneUrl("a", Naming(plans));
    assert plans[..1] == [Plan("a", "b")] && plans[..1][..0] == [];
    assert Follow(plans, "a") == "c" && Lookup(plans, "a") == "b";
  }

  /** Of two plans for one source the last counts. */
  lemma RepeatedSourceExample()
    ensures var plans := [Plan("a", "b"), Plan("a", "c")];
            Table(plans) == [Plan("a", "c")] && Simultaneous(plans)
  {
    var plans := [Plan("a", "b"), Plan("a", "c")];
    assert plans[..1] == [Plan("a", "b")] && plans[..1][..0] == [];
    assert Table(plans) == [Plan("a", "c")];
    NotHandedOnSuffices(plans);
  }

  /** Agreement on a URL alone is agreement on its identifier. */
  lemma OneUrlAgrees(plans: seq<Plan>, id: string)
    requires PlansOk(plans) && SlashFree(id) && RewriteString(Url(id), plans) == Substitute(Url(id), plans)
    ensures Follow(Table(plans), id) == Lookup(plans, id)
  {
    var table := Table(plans);
    RewriteFollows(Url(id), plans);
    SubstituteIsMap(Url(id), plans);
    MapOneUrl(id, Following(table));
    MapOneUrl(id, Naming(plans));
    FollowSlashFree(table);
    hide RewriteString, Substitute, Follow, Lookup, Render, Scan, MapTokens, Url, Table;
    assert Following(table)(id) == Follow(table, id) && Naming(plans)(id) == Lookup(plans, id);
    assert SlashFree(Following(table)(id));
    UrlInjective(Follow(table, id), Lookup(plans, id));
  }

  /** Sources are distinct, targets are distinct, and no target is a source: fresh identifiers. */
  predicate Fresh(plans: seq<Plan>) {
    && (forall i, j | 0 <= i < j < |plans| :: plans[i].source != plans[j].source && plans[i].target != plans[j].target)
    && (forall i, j | 0 <= i < |plans| && 0 <= j < |plans| :: plans[i].source != plans[j].target)
  }

  lemma FollowIsLookup(plans: seq<Plan>, id: string)
    requires Fresh(plans)
    ensures Table(plans) == plans && Follow(plans, id) == Lookup(plans, id)
  {
    TableIsPlans(plans);
    NothingHandedOn(plans, id);
  }

  // ---------------------------------------------------------------------
  // Undoing
  // ---------------------------------------------------------------------

  function Inverse(plans: seq<Plan>): seq<Plan> {
    seq(|plans|, (i: nat) requires i < |plans| => Plan(plans[i].target, plans[i].source))
  }

  lemma InverseIsFresh(plans: seq<Plan>)
    requires PlansOk(plans) && Fresh(plans)
    ensures PlansOk(Inverse(plans)) && Fresh(Inverse(plans))
  {
    hide SlashFree;
    var back := Inverse(plans);
    forall i, j | 0 <= i < |back| && 0 <= j < |back| ensures back[i].source != back[j].target {
      assert plans[j].source != plans[i].target;
    }
  }

  predicate IsTarget(plans: seq<Plan>, id: string) {
    exists i | 0 <= i < |plans| :: plans[i].target == id
  }

  lemma BackAndForth(plans: seq<Plan>, id: string)
    requires Fresh(plans)
    ensures Lookup(Inverse(plans), Lookup(plans, id)) == id <==> !IsTarget(plans, id)
  {
    var back := Inverse(plans);
    if i: nat :| i < |plans| && plans[i].source == id {
      LookupFound(plans, i);
      LookupFound(back, i);
    } else {
      LookupMissing(plans, id);
      if i: nat :| i < |plans| && plans[i].target == id {
        LookupFound(back, i);
      } else {
        LookupMissing(back, id);
      }
    }
  }

  lemma {:induction false} MapIdentityOn(tokens: seq<Token>, f: string -> string)
    ensures MapTokens(tokens, f) == tokens <==> forall i | 0 <= i < |tokens|
            && tokens[i].Ref? :: f(tokens[i].id) == tokens[i].id
  {
    if tokens != [] {
      MapIdentityOn(tokens[1..], f);
      var mapped := MapTokens(tokens, f);
      assert tokens == [tokens[0]] + tokens[1..];
      assert mapped == tokens <==> mapped[0] == tokens[0] && mapped[1..] == tokens[1..];
      assert mapped[1..] == MapTokens(tokens[1..], f);
      assert forall i | 0 < i < |tokens| :: tokens[i] == tokens[1..][i - 1];
    }
  }

  /** The URL of a target occurs in the text. */
  predicate MentionsTarget(text: string, plans: seq<Plan>) {
    exists i | 0 <= i < |Scan(text)| :: Scan(text)[i].Ref? && IsTarget(plans, Scan(text)[i].id)
  }

  function BackAgain(plans: seq<Plan>): string -> string {
    (id: string) => Follow(Inverse(plans), Follow(plans, id))
  }

  lemma BackAgainIs(plans: seq<Plan>, id: string)
    requires PlansOk(plans) && Fresh(plans)
    ensures BackAgain(plans)(id) == id <==> !IsTarget(plans, id)
  {
    InverseIsFresh(plans);
    hide Follow, Lookup, SlashFree, Fresh, IsTarget;
    FollowIsLookup(plans, id);
    FollowIsLookup(Inverse(plans), Follow(plans, id));
    BackAndForth(plans, id);
  }

  lemma RoundTripTokens(text: string, plans: seq<Plan>)
    requires PlansOk(plans) && Fresh(plans)
    ensures Scan(RewriteString(RewriteString(text, plans), Inverse(plans))) == MapTokens(Scan(text), BackAgain(plans))
  {
    InverseIsFresh(plans);
    TableIsPlans(plans);
    TableIsPlans(Inverse(plans));
    hide Scan, MapTokens, RewriteString, Follow, SlashFree, Fresh, Inverse;
    RewriteFollows(text, plans);
    RewriteFollows(RewriteString(text, plans), Inverse(plans));
    MapTwice(Scan(text), Following(plans), Following(Inverse(plans)), BackAgain(plans));
  }

  /** The inverse plan undoes the rewriting exactly when no target occurs in the text already. */
  lemma InverseUndoes(text: string, plans: seq<Plan>)
    requires PlansOk(plans) && Fresh(plans)
    ensures RewriteString(RewriteString(text, plans), Inverse(plans)) == text <==> !MentionsTarget(text, plans)
  {
    var tokens := Scan(text);
    var twice := RewriteString(RewriteString(text, plans), Inverse(plans));
    hide Scan, Render, MapTokens, RewriteString, Canonical, SlashFree, PlansOk, Fresh, Inverse, IsTarget, BackAgain;
    ScanRenders(text);
    ScanRenders(twice);
    RoundTripTokens(text, plans);
    MapIdentityOn(tokens, BackAgain(plans));
    forall id ensures BackAgain(plans)(id) == id <==> !IsTarget(plans, id) {
      BackAgainIs(plans, id);
    }
  }

  // ---------------------------------------------------------------------
  // Trees
  // ---------------------------------------------------------------------

  datatype Json = Text(text: string) | Items(items: seq<Json>) | Fields(fields: seq<(string, Json)>) | Other(value: int)

  /** The visit of the code: strings are rewritten wherever they stand, keys are kept. */
  function RewriteTree(value: Json, plans: seq<Plan>): Json {
    match value
    case Text(text) => Text(RewriteString(text, plans))
    case Items(items) => Items(seq(|items|, (i: nat) requires i < |items| => RewriteTree(items[i], plans)))
    case Fields(fields) =>
      Fields(seq(|fields|, (i: nat) requires i < |fields| => (fields[i].0, RewriteTree(fields[i].1, plans))))
    case Other(_) => value
  }

  /** The tree without the contents of its strings. */
  function Shape(value: Json): Json {
    match value
    case Text(_) => Text("")
    case Items(items) => Items(seq(|items|, (i: nat) requires i < |items| => Shape(items[i])))
    case Fields(fields) => Fields(seq(|fields|, (i: nat) requires i < |fields| => (fields[i].0, Shape(fields[i].1))))
    case Other(_) => value
  }

  predicate TreeMentionsTarget(value: Json, plans: seq<Plan>) {
    match value
    case Text(text) => MentionsTarget(text, plans)
    case Items(items) => exists i | 0 <= i < |items| :: TreeMentionsTarget(items[i], plans)
    case Fields(fields) => exists i | 0 <= i < |fields| :: TreeMentionsTarget(fields[i].1, plans)
    case Other(_) => false
  }

  /** Rewriting keeps the shape of the tree, and the inverse plan undoes it exactly when no target occurs in it. */
  lemma {:induction false} TreeUndone(value: Json, plans: seq<Plan>)
    requires PlansOk(plans) && Fresh(plans)
    ensures Shape(RewriteTree(value, plans)) == Shape(value)
    ensures RewriteTree(RewriteTree(value, plans), Inverse(plans)) == value <==> !TreeMentionsTarget(value, plans)
  {
    match value
    case Text(text) => InverseUndoes(text, plans);
    case Items(items) =>
      forall i | 0 <= i < |items|
        ensures Shape(RewriteTree(items[i], plans)) == Shape(items[i])
        ensures RewriteTree(RewriteTree(items[i], plans), Inverse(plans)) == items[i]
                <==> !TreeMentionsTarget(items[i], plans)
      {
        TreeUndone(items[i], plans);
      }
      var twice := RewriteTree(RewriteTree(value, plans), Inverse(plans));
      assert twice.items == items <==> forall i | 0 <= i < |items| :: twice.items[i] == items[i];
      assert Shape(RewriteTree(value, plans)).items == Shape(value).items;
    case Fields(fields) =>
      forall i | 0 <= i < |fields|
        ensures Shape(RewriteTree(fields[i].1, plans)) == Shape(fields[i].1)
        ensures RewriteTree(RewriteTree(fields[i].1, plans), Inverse(plans)) == fields[i].1
           <==> !TreeMentionsTarget(fields[i].1, plans)
      {
        TreeUndone(fields[i].1, plans);
      }
      var twice := RewriteTree(RewriteTree(value, plans), Inverse(plans));
      assert twice.fields == fields <==> forall i | 0 <= i < |fields| :: twice.fields[i] == fields[i];
      assert Shape(RewriteTree(value, plans)).fields == Shape(value).fields;
    case Other(_) =>
  }

  /** The tree with every string substituted at once. */
  function SubstituteTree(value: Json, plans: seq<Plan>): Json {
    match value
    case Text(text) => Text(Substitute(text, plans))
    case Items(items) => Items(seq(|items|, (i: nat) requires i < |items| => SubstituteTree(items[i], plans)))
    case Fields(fields) =>
      Fields(seq(|fields|, (i: nat) requires i < |fields| => (fields[i].0, SubstituteTree(fields[i].1, plans))))
    case Other(_) => value
  }

  /** Every string of the tree is substituted at once, wherever no identifier is handed on. */
  lemma {:induction false} TreeIsSimultaneous(value: Json, plans: seq<Plan>)
    requires PlansOk(plans) && !HandsOn(Table(plans))
    ensures RewriteTree(value, plans) == SubstituteTree(value, plans)
  {
    match value
    case Text(text) => SequentialIsSimultaneous(plans);
    case Items(items) =>
      forall i | 0 <= i < |items| ensures RewriteTree(items[i], plans) == SubstituteTree(items[i], plans) {
        TreeIsSimultaneous(items[i], plans);
      }
      assert RewriteTree(value, plans).items == SubstituteTree(value, plans).items;
    case Fields(fields) =>
      forall i | 0 <= i < |fields| ensures RewriteTree(fields[i].1, plans) == SubstituteTree(fields[i].1, plans) {
        TreeIsSimultaneous(fields[i].1, plans);
      }
      assert RewriteTree(value, plans).fields == SubstituteTree(value, plans).fields;
    case Other(_) =>
  }
}
