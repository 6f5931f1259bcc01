/**
 * Folders, their parent chains, and the category that a folder inherits. Parent links may form
 * cycles and may point to folders that do not exist.
 */
module FolderTopology {
  import opened Wrappers

  type Id = nat
  type Category = nat
  type Owner = nat

  datatype Folder = Folder(parent: Option<Id>, category: Option<Category>, owner: Owner)

  type Forest = map<Id, Folder>

  // ---------------------------------------------------------------------
  // Chains
  // ---------------------------------------------------------------------

  function Parent(forest: Forest, f: Id): Option<Id> {
    if f in forest then forest[f].parent else None
  }

  function CategoryAt(forest: Forest, f: Id): Option<Category> {
    if f in forest then forest[f].category else None
  }

  /** The `n`-th link of the parent chain of `f`, which may be an identifier without a folder. */
  function Nth(forest: Forest, f: Id, n: nat): Option<Id> {
    if n == 0 then Some(f)
    else
      var before := Nth(forest, f, n - 1);
      if before.None? then None else Parent(forest, before.value)
  }

  /** The chain of `f` leads to `root`. */
  ghost predicate Reaches(forest: Forest, f: Id, root: Id) {
    exists n: nat :: Nth(forest, f, n) == Some(root)
  }

  /** Link `n` of the chain has the category, and no earlier link has one. */
  predicate NearestAt(forest: Forest, f: Id, n: nat, c: Category) {
    && Nth(forest, f, n).Some? && CategoryAt(forest, Nth(forest, f, n).value) == Some(c)
    && forall m: nat | m < n :: Nth(forest, f, m).Some? && CategoryAt(forest, Nth(forest, f, m).value).None?
  }

  /** `f` has this category or inherits it from its nearest ancestor that has one. */
  ghost predicate Inherits(forest: Forest, f: Id, c: Category) {
    exists n: nat :: NearestAt(forest, f, n, c)
  }

  /** The value of a lookup: a category exactly when it is inherited. */
  ghost predicate IsInherited(forest: Forest, f: Option<Id>, result: Option<Category>) {
    match result
    case Some(c) => f.Some? && Inherits(forest, f.value, c)
    case None => f.None? || forall c :: !Inherits(forest, f.value, c)
  }

  lemma {:induction false} NthFromParent(forest: Forest, f: Id, n: nat)
    ensures Nth(forest, f, n + 1)
         == if Parent(forest, f).None? then None else Nth(forest, Parent(forest, f).value, n)
  {
    if n == 0 {
      assert Nth(forest, f, 0) == Some(f);
    } else {
      NthFromParent(forest, f, n - 1);
    }
  }

  lemma {:induction false} ChainEnds(forest: Forest, f: Id, m: nat, n: nat)
    requires m <= n && Nth(forest, f, m).None?
    ensures Nth(forest, f, n).None?
  {
    if m < n {
      ChainEnds(forest, f, m, n - 1);
    }
  }

  lemma NearestIsUnique(forest: Forest, f: Id, m: nat, c: Category, n: nat, d: Category)
    requires NearestAt(forest, f, m, c) && NearestAt(forest, f, n, d)
    ensures m == n && c == d
  {
  }

  lemma InheritedIsUnique(forest: Forest, f: Option<Id>, a: Option<Category>, b: Option<Category>)
    requires IsInherited(forest, f, a) && IsInherited(forest, f, b)
    ensures a == b
  {
    if a.Some? && b.Some? {
      var m: nat :| NearestAt(forest, f.value, m, a.value);
      var n: nat :| NearestAt(forest, f.value, n, b.value);
      NearestIsUnique(forest, f.value, m, a.value, n, b.value);
    }
  }

  // ---------------------------------------------------------------------
  // Walks with a set of visited folders
  // ---------------------------------------------------------------------

  /** The walk has passed the first `n` links of the chain and stands at the next one. */
  ghost predicate Walked(forest: Forest, start: Id, n: nat, visited: set<Id>, current: Option<Id>) {
    && current == Nth(forest, start, n)
    && (forall m: nat | m < n :: Nth(forest, start, m).Some? && Nth(forest, start, m).value in visited)
    && (forall v | v in visited :: v in forest && exists m: nat :: m < n && Nth(forest, start, m) == Some(v))
  }

  lemma WalkStep(forest: Forest, start: Id, n: nat, visited: set<Id>, current: Id)
    requires Walked(forest, start, n, visited, Some(current)) && current in forest
    ensures Walked(forest, start, n + 1, visited + {current}, forest[current].parent)
  {
    assert Nth(forest, start, n + 1) == forest[current].parent;
    forall v | v in visited + {current}
      ensures v in forest && exists m: nat :: m < n + 1 && Nth(forest, start, m) == Some(v)
    {
      if v in visited {
        var m: nat :| m < n && Nth(forest, start, m) == Some(v);
        assert m < n + 1 && Nth(forest, start, m) == Some(v);
      } else {
        assert n < n + 1 && Nth(forest, start, n) == Some(v);
      }
    }
  }

  /** Once the walk comes back to a visited folder, the chain never leaves the visited ones. */
  lemma {:induction false} WalkCircles(forest: Forest, start: Id, n: nat, visited: set<Id>, current: Id, k: nat)
    requires Walked(forest, start, n, visited, Some(current)) && current in visited
    ensures Nth(forest, start, k).Some? && Nth(forest, start, k).value in visited
  {
    if k > 0 {
      WalkCircles(forest, start, n, visited, current, k - 1);
      var v := Nth(forest, start, k - 1).value;
      var m: nat :| m < n && Nth(forest, start, m) == Some(v);
      assert Nth(forest, start, m + 1) == Parent(forest, v) == Nth(forest, start, k);
      if m + 1 == n {
        assert Nth(forest, start, k) == Some(current);
      }
    }
  }

  lemma VisitedCount(visited: set<Id>, forest: Forest, current: Id)
    requires visited <= forest.Keys && current in forest && current !in visited
    ensures |forest.Keys| - |visited + {current}| < |forest.Keys| - |visited|
    ensures |visited + {current}| <= |forest.Keys|
  {
    Contained(visited + {current}, forest.Keys);
  }

  lemma Contained<T>(a: set<T>, b: set<T>)
    requires a <= b
    ensures |a| <= |b|
  {
    assert b == a + (b - a);
  }

  /** Is `target` the folder `root` or below it? */
  method IsFolderDescendant(forest: Forest, target: Id, root: Id) returns (result: bool)
    ensures result <==> Reaches(forest, target, root)
  {
    assert Nth(forest, target, 0) == Some(target);
    if target == root {
      return true;
    }
    var current := Some(target);
    var visited: set<Id> := {};
    ghost var n: nat := 0;
    while current.Some? && current.value != root && current.value !in visited
      invariant Walked(forest, target, n, visited, current) && visited <= forest.Keys && |visited| <= |forest.Keys|
      invariant root !in visited
      decreases |forest.Keys| - |visited|
    {
      var id := current.value;
      if id !in forest {
        NotFound(forest, target, n, visited, id, root);
        return false;
      }
      WalkStep(forest, target, n, visited, id);
      VisitedCount(visited, forest, id);
      visited := visited + {id};
      current := forest[id].parent;
      n := n + 1;
    }
    result := current == Some(root);
    if !result {
      WalkMisses(forest, target, n, visited, current, root);
    }
  }

  lemma NotFound(forest: Forest, start: Id, n: nat, visited: set<Id>, id: Id, root: Id)
    requires Walked(forest, start, n, visited, Some(id)) && id !in forest && id != root && root !in visited
    ensures !Reaches(forest, start, root)
  {
    forall k: nat ensures Nth(forest, start, k) != Some(root) {
      if k > n {
        assert Nth(forest, start, n + 1).None?;
        ChainEnds(forest, start, n + 1, k);
      }
    }
  }

  lemma WalkMisses(forest: Forest, start: Id, n: nat, visited: set<Id>, current: Option<Id>, root: Id)
    requires Walked(forest, start, n, visited, current) && root !in visited && current != Some(root)
    requires current.None? || current.value in visited
    ensures !Reaches(forest, start, root)
  {
    forall k: nat ensures Nth(forest, start, k) != Some(root) {
      if current.Some? {
        WalkCircles(forest, start, n, visited, current.value, k);
      } else if k >= n {
        ChainEnds(forest, start, n, k);
      }
    }
  }

  /** The category that a folder inherits, by a walk up the chain. */
  method EffectiveFolderCategory(forest: Forest, start: Option<Id>) returns (result: Option<Category>)
    ensures IsInherited(forest, start, result)
  {
    var current := start;
    var visited: set<Id> := {};
    ghost var n: nat := 0;
    while current.Some? && current.value !in visited
      invariant start.None? ==> current.None?
      invariant start.Some? ==> Walked(forest, start.value, n, visited, current)
      invariant visited <= forest.Keys && |visited| <= |forest.Keys|
      invariant forall v | v in visited :: CategoryAt(forest, v).None?
      decreases |forest.Keys| - |visited|
    {
      var id := current.value;
      if id !in forest {
        NothingAbove(forest, start.value, n, visited, current);
        return None;
      }
      if forest[id].category.Some? {
        assert NearestAt(forest, start.value, n, forest[id].category.value);
        return forest[id].category;
      }
      WalkStep(forest, start.value, n, visited, id);
      VisitedCount(visited, forest, id);
      visited := visited + {id};
      current := forest[id].parent;
      n := n + 1;
    }
    if start.Some? {
      NothingAbove(forest, start.value, n, visited, current);
    }
    result := None;
  }

  /** A walk that ends without a category has shown that there is none. */
  lemma NothingAbove(forest: Forest, start: Id, n: nat, visited: set<Id>, current: Option<Id>)
    requires Walked(forest, start, n, visited, current) && forall v | v in visited :: CategoryAt(forest, v).None?
    requires current.None? || current.value in visited || current.value !in forest
    ensures IsInherited(forest, Some(start), None)
  {
    forall c, k: nat ensures !NearestAt(forest, start, k, c) {
      if current.Some? && current.value in visited {
        WalkCircles(forest, start, n, visited, current.value, k);
      } else if k > n {
        ChainEnds(forest, start, if current.None? then n else n + 1, k);
      }
    }
  }

  // ---------------------------------------------------------------------
  // The recursive query up the chain
  // ---------------------------------------------------------------------

  /** Round `n` of the query that starts at `f` gives a row for the folder `g`, at depth `n`. */
  predicate UpRow(forest: Forest, f: Id, g: Id, n: nat)
    decreases n
  {
    && g in forest
    && if n == 0 then g == f
       else exists h | h in forest :: UpRow(forest, f, h, n - 1) && forest[h].parent == Some(g)
  }

  /** The first row with a category, in the order of the depth. */
  ghost predicate UpResult(forest: Forest, f: Id, c: Category) {
    exists g, n: nat ::
      && UpRow(forest, f, g, n) && forest[g].category == Some(c)
      && forall h, m: nat | m < n && UpRow(forest, f, h, m) :: forest[h].category.None?
  }

  lemma {:induction false} UpRowIsNth(forest: Forest, f: Id, g: Id, n: nat)
    ensures UpRow(forest, f, g, n) <==> g in forest && Nth(forest, f, n) == Some(g)
    decreases n
  {
    if n > 0 {
      forall h | h in forest
        ensures UpRow(forest, f, h, n - 1) <==> Nth(forest, f, n - 1) == Some(h)
      {
        UpRowIsNth(forest, f, h, n - 1);
      }
      var before := Nth(forest, f, n - 1);
      if before.Some? && before.value in forest && g in forest && Nth(forest, f, n) == Some(g) {
        assert UpRow(forest, f, before.value, n - 1) && forest[before.value].parent == Some(g);
      }
    }
  }

  /** A chain that goes on has passed folders only. */
  lemma {:induction false} LinksAreFolders(forest: Forest, f: Id, m: nat, n: nat)
    requires m < n && Nth(forest, f, n).Some?
    ensures Nth(forest, f, m).Some? && Nth(forest, f, m).value in forest
    decreases n
  {
    if m < n - 1 {
      LinksAreFolders(forest, f, m, n - 1);
    }
  }

  /** The recursive query gives the inherited category. */
  lemma UpResultIsInherited(forest: Forest, f: Id, c: Category)
    ensures UpResult(forest, f, c) <==> Inherits(forest, f, c)
  {
    forall g, n: nat ensures UpRow(forest, f, g, n) <==> g in forest && Nth(forest, f, n) == Some(g) {
      UpRowIsNth(forest, f, g, n);
    }
    hide UpRow;
    if UpResult(forest, f, c) {
      var g, n: nat :|
        && UpRow(forest, f, g, n) && forest[g].category == Some(c)
        && forall h, m: nat | m < n && UpRow(forest, f, h, m) :: forest[h].category.None?;
      forall m: nat | m < n
        ensures Nth(forest, f, m).Some? && CategoryAt(forest, Nth(forest, f, m).value).None?
      {
        LinksAreFolders(forest, f, m, n);
        assert UpRow(forest, f, Nth(forest, f, m).value, m);
      }
      assert NearestAt(forest, f, n, c);
    }
    if Inherits(forest, f, c) {
      var n: nat :| NearestAt(forest, f, n, c);
      var g := Nth(forest, f, n).value;
      assert UpRow(forest, f, g, n);
      forall h, m: nat | m < n && UpRow(forest, f, h, m) ensures forest[h].category.None? {
        assert Nth(forest, f, m) == Some(h);
      }
    }
  }

  // ---------------------------------------------------------------------
  // The recursive query from the roots down
  // ---------------------------------------------------------------------

  /** Round `n` of the query that starts at the roots gives `f` a row with category `c`. */
  predicate DownRow(forest: Forest, f: Id, c: Option<Category>, n: nat)
    decreases n
  {
    && f in forest
    && if n == 0 then forest[f].parent.None? && c == forest[f].category
       else
         && forest[f].parent.Some?
         && (if forest[f].category.Some? then
               && c == forest[f].category
               && exists d | d in CategoriesOf(forest) :: DownRow(forest, forest[f].parent.value, d, n - 1)
             else DownRow(forest, forest[f].parent.value, c, n - 1))
  }

  /** All values that a row of the query can carry. */
  function CategoriesOf(forest: Forest): set<Option<Category>> {
    {None} + set f | f in forest :: forest[f].category
  }

  /** The chain of `f` ends at a root of the forest after `n` links. */
  predicate Anchored(forest: Forest, f: Id, n: nat) {
    && (forall m: nat | m <= n :: Nth(forest, f, m).Some? && Nth(forest, f, m).value in forest)
    && Nth(forest, f, n + 1).None?
  }

  lemma {:induction false} DownRowCategory(forest: Forest, f: Id, c: Option<Category>, n: nat)
    requires DownRow(forest, f, c, n)
    ensures c in CategoriesOf(forest)
    decreases n
  {
    if n > 0 && forest[f].category.None? {
      DownRowCategory(forest, forest[f].parent.value, c, n - 1);
    }
  }

  lemma InheritFromParent(forest: Forest, f: Id, c: Option<Category>)
    requires f in forest && forest[f].parent.Some? && forest[f].category.None?
    ensures IsInherited(forest, Some(f), c) <==> IsInherited(forest, forest[f].parent, c)
  {
    var p := forest[f].parent.value;
    assert Nth(forest, f, 0) == Some(f);
    forall d ensures Inherits(forest, f, d) <==> Inherits(forest, p, d) {
      if Inherits(forest, f, d) {
        var n: nat :| NearestAt(forest, f, n, d);
        forall m: nat | m < n ensures Nth(forest, f, m + 1) == Nth(forest, p, m) {
          NthFromParent(forest, f, m);
        }
        assert NearestAt(forest, p, n - 1, d) by {
          forall m: nat | m < n - 1 ensures Nth(forest, p, m) == Nth(forest, f, m + 1) {
          }
        }
      }
      if Inherits(forest, p, d) {
        var n: nat :| NearestAt(forest, p, n, d);
        forall m: nat ensures Nth(forest, f, m + 1) == Nth(forest, p, m) {
          NthFromParent(forest, f, m);
        }
        assert NearestAt(forest, f, n + 1, d) by {
          forall m: nat | 0 < m < n + 1 ensures Nth(forest, f, m) == Nth(forest, p, m - 1) {
          }
        }
      }
    }
  }

  lemma AnchoredParent(forest: Forest, f: Id, n: nat)
    requires n > 0 && f in forest && forest[f].parent.Some?
    ensures Anchored(forest, f, n) <==> Anchored(forest, forest[f].parent.value, n - 1)
  {
    var p := forest[f].parent.value;
    assert Nth(forest, f, 0) == Some(f);
    forall m: nat ensures Nth(forest, f, m + 1) == Nth(forest, p, m) {
      NthFromParent(forest, f, m);
    }
    if Anchored(forest, p, n - 1) {
      forall m: nat | m <= n ensures Nth(forest, f, m).Some? && Nth(forest, f, m).value in forest {
        if m > 0 {
          assert Nth(forest, f, m) == Nth(forest, p, m - 1);
        }
      }
    }
    if Anchored(forest, f, n) {
      forall m: nat | m <= n - 1 ensures Nth(forest, p, m).Some? && Nth(forest, p, m).value in forest {
        assert Nth(forest, f, m + 1) == Nth(forest, p, m);
      }
    }
  }

  /**
   * The propagation from the roots gives a folder a row exactly when its chain ends at a root, in
   * the round of its depth, and the row carries the category that the folder inherits.
   */
  lemma {:induction false} DownIsUp(forest: Forest, f: Id, c: Option<Category>, n: nat)
    ensures DownRow(forest, f, c, n) <==> Anchored(forest, f, n) && IsInherited(forest, Some(f), c)
    decreases n
  {
    assert Nth(forest, f, 0) == Some(f);
    if f in forest {
      assert Nth(forest, f, 1) == forest[f].parent;
      if forest[f].category.Some? {
        OwnCategory(forest, f, c);
      }
      if n == 0 {
        if forest[f].parent.None? && forest[f].category.None? {
          RootWithout(forest, f, c);
        }
      } else if forest[f].parent.Some? {
        var p := forest[f].parent.value;
        AnchoredParent(forest, f, n);
        DownIsUp(forest, p, c, n - 1);
        if forest[f].category.None? {
          InheritFromParent(forest, f, c);
        } else {
          SomeRow(forest, p, n - 1);
        }
      } else {
        ChainEnds(forest, f, 1, n);
      }
    }
  }

  lemma OwnCategory(forest: Forest, f: Id, c: Option<Category>)
    requires f in forest && forest[f].category.Some?
    ensures IsInherited(forest, Some(f), c) <==> c == forest[f].category
  {
    assert Nth(forest, f, 0) == Some(f);
    var own := forest[f].category.value;
    assert NearestAt(forest, f, 0, own);
    assert Inherits(forest, f, own);
    forall d | Inherits(forest, f, d) ensures d == own {
      var n: nat :| NearestAt(forest, f, n, d);
      NearestIsUnique(forest, f, n, d, 0, own);
    }
  }

  lemma RootWithout(forest: Forest, f: Id, c: Option<Category>)
    requires f in forest && forest[f].parent.None? && forest[f].category.None?
    ensures IsInherited(forest, Some(f), c) <==> c.None?
  {
    forall d, n: nat ensures !NearestAt(forest, f, n, d) {
      if n > 0 {
        ChainEnds(forest, f, 1, n);
      }
    }
  }

  /** Some category value makes a row of an anchored folder, and it is one of the possible values. */
  lemma {:induction false} SomeRow(forest: Forest, f: Id, n: nat)
    ensures Anchored(forest, f, n) <==> exists d | d in CategoriesOf(forest) :: DownRow(forest, f, d, n)
    decreases n, 1
  {
    if Anchored(forest, f, n) {
      var d := AnchoredRow(forest, f, n);
      DownRowCategory(forest, f, d, n);
    }
    if exists d | d in CategoriesOf(forest) :: DownRow(forest, f, d, n) {
      var d :| d in CategoriesOf(forest) && DownRow(forest, f, d, n);
      RowIsAnchored(forest, f, d, n);
    }
  }

  lemma {:induction false} AnchoredRow(forest: Forest, f: Id, n: nat) returns (d: Option<Category>)
    requires Anchored(forest, f, n)
    ensures DownRow(forest, f, d, n)
    decreases n
  {
    assert Nth(forest, f, 0) == Some(f) && Nth(forest, f, 1) == forest[f].parent;
    d := forest[f].category;
    if n > 0 {
      assert Nth(forest, f, 1).Some?;
      AnchoredParent(forest, f, n);
      var e := AnchoredRow(forest, forest[f].parent.value, n - 1);
      DownRowCategory(forest, forest[f].parent.value, e, n - 1);
      if d.None? {
        d := e;
      }
    }
  }

  lemma {:induction false} RowIsAnchored(forest: Forest, f: Id, d: Option<Category>, n: nat)
    requires DownRow(forest, f, d, n)
    ensures Anchored(forest, f, n)
    decreases n
  {
    assert Nth(forest, f, 0) == Some(f) && Nth(forest, f, 1) == forest[f].parent;
    if n > 0 {
      var p := forest[f].parent.value;
      if forest[f].category.None? {
        RowIsAnchored(forest, p, d, n - 1);
      } else {
        var e :| e in CategoriesOf(forest) && DownRow(forest, p, e, n - 1);
        RowIsAnchored(forest, p, e, n - 1);
      }
      AnchoredParent(forest, f, n);
    }
  }

  // ---------------------------------------------------------------------
  // The recursive query below one folder, and the snapshots of documents
  // ---------------------------------------------------------------------

  /** Round `n` of the query that starts at `target` reaches `f`. */
  predicate BelowRow(forest: Forest, f: Id, target: Id, n: nat)
    decreases n
  {
    && f in forest
    && if n == 0 then f == target
       else forest[f].parent.Some? && BelowRow(forest, forest[f].parent.value, target, n - 1)
  }

  lemma {:induction false} BelowIsNth(forest: Forest, f: Id, target: Id, n: nat)
    ensures BelowRow(forest, f, target, n) <==> target in forest && f in forest && Nth(forest, f, n) == Some(target)
    decreases n
  {
    if n == 0 {
      assert Nth(forest, f, 0) == Some(f);
    } else if f in forest {
      NthFromParent(forest, f, n - 1);
      if forest[f].parent.Some? {
        BelowIsNth(forest, forest[f].parent.value, target, n - 1);
        if target in forest {
          InForestBefore(forest, forest[f].parent.value, n - 1, target);
        }
      }
    }
  }

  lemma {:induction false} InForestBefore(forest: Forest, f: Id, n: nat, target: Id)
    requires target in forest
    ensures Nth(forest, f, n) == Some(target) ==> f in forest
    decreases n
  {
    if n == 0 {
      assert Nth(forest, f, 0) == Some(f);
    } else {
      NthFromParent(forest, f, n - 1);
    }
  }

  datatype Document = Document(folder: Option<Id>, category: Option<Category>, owner: Owner)

  /** The document's own category, or else the one its folder inherits. */
  ghost predicate EffectiveCategory(forest: Forest, doc: Document, result: Option<Category>) {
    if doc.category.Some? then result == doc.category else IsInherited(forest, doc.folder, result)
  }

  /** The folders that the queries of a category change and of a folder change return. */
  ghost predicate InCategory(forest: Forest, c: Category, f: Id) {
    exists n: nat :: DownRow(forest, f, Some(c), n)
  }

  ghost predicate Below(forest: Forest, target: Id, f: Id) {
    exists n: nat :: BelowRow(forest, f, target, n)
  }

  /** The documents that a snapshot for category `c` selects. */
  ghost predicate SelectedByCategory(forest: Forest, c: Category, doc: Document) {
    || doc.category == Some(c)
    || (doc.category.None? && doc.folder.Some? && InCategory(forest, c, doc.folder.value))
  }

  ghost predicate SelectedByFolder(forest: Forest, target: Id, doc: Document) {
    doc.folder.Some? && Below(forest, target, doc.folder.value)
  }

  ghost predicate EndsAtRoot(forest: Forest, f: Id) {
    exists n: nat :: Anchored(forest, f, n)
  }

  /**
   * A category change selects exactly the documents whose effective category it is, except for those
   * that inherit it over a chain that does not end at a root.
   */
  lemma CategorySnapshot(forest: Forest, c: Category, doc: Document)
    ensures SelectedByCategory(forest, c, doc) <==>
              && EffectiveCategory(forest, doc, Some(c))
              && (doc.category.Some? || EndsAtRoot(forest, doc.folder.value))
  {
    if doc.category.None? && doc.folder.Some? {
      var f := doc.folder.value;
      forall n: nat
        ensures DownRow(forest, f, Some(c), n) <==> Anchored(forest, f, n) && IsInherited(forest, Some(f), Some(c))
      {
        DownIsUp(forest, f, Some(c), n);
      }
    }
  }

  /** In a forest without cycles in which every parent exists, the exception is empty. */
  ghost predicate WellFounded(forest: Forest) {
    forall f | f in forest :: EndsAtRoot(forest, f)
  }

  ghost predicate Acyclic(forest: Forest) {
    forall f, n: nat | f in forest && n > 0 :: Nth(forest, f, n) != Some(f)
  }

  predicate ParentsExist(forest: Forest) {
    forall f | f in forest && forest[f].parent.Some? :: forest[f].parent.value in forest
  }

  lemma {:induction false} NthAdd(forest: Forest, f: Id, m: nat, k: nat)
    requires Nth(forest, f, m).Some?
    ensures Nth(forest, f, m + k) == Nth(forest, Nth(forest, f, m).value, k)
  {
    if k == 0 {
      assert Nth(forest, Nth(forest, f, m).value, 0) == Nth(forest, f, m);
    } else {
      NthAdd(forest, f, m, k - 1);
    }
  }

  /** A chain without repetitions has to end, for it runs out of folders. */
  lemma {:induction false} ChainClimbs(forest: Forest, f: Id, n: nat, visited: set<Id>)
    requires Acyclic(forest) && ParentsExist(forest) && f in forest
    requires n > 0 ==> Nth(forest, f, n - 1).Some?
    requires forall m: nat | m < n :: Nth(forest, f, m).Some? && Nth(forest, f, m).value in visited
    requires visited <= forest.Keys && |visited| == n
    ensures EndsAtRoot(forest, f)
    decreases |forest.Keys| - n
  {
    Contained(visited, forest.Keys);
    assert Nth(forest, f, 0) == Some(f);
    var current := Nth(forest, f, n);
    if current.None? {
      assert Anchored(forest, f, n - 1);
    } else {
      var id := current.value;
      forall m: nat | m < n ensures Nth(forest, f, m) != Some(id) {
        NthAdd(forest, f, m, n - m);
      }
      NotYetVisited(forest, f, n, visited, id);
      VisitedCount(visited, forest, id);
      ChainClimbs(forest, f, n + 1, visited + {id});
    }
  }

  /** The visited folders are the links so far when there are as many of both. */
  lemma {:induction false} NotYetVisited(forest: Forest, f: Id, n: nat, visited: set<Id>, id: Id)
    requires forall m: nat | m < n :: Nth(forest, f, m).Some? && Nth(forest, f, m).value in visited
    requires |visited| == n && forall m: nat | m < n :: Nth(forest, f, m) != Some(id)
    requires Acyclic(forest) && forall m: nat | m < n :: Nth(forest, f, m).value in forest
    ensures id !in visited
    decreases n
  {
    if n > 0 {
      var last := Nth(forest, f, n - 1).value;
      forall m: nat | m < n - 1 ensures Nth(forest, f, m).value in visited - {last} {
        NthAdd(forest, f, m, n - 1 - m);
      }
      NotYetVisited(forest, f, n - 1, visited - {last}, id);
    }
  }

  /** Forests without cycles in which every parent exists are well founded. */
  lemma ForestIsWellFounded(forest: Forest)
    requires Acyclic(forest) && ParentsExist(forest)
    ensures WellFounded(forest)
  {
    forall f | f in forest ensures EndsAtRoot(forest, f) {
      ChainClimbs(forest, f, 0, {});
    }
  }

  lemma CategorySnapshotIsExact(forest: Forest, c: Category, doc: Document)
    requires Acyclic(forest) && ParentsExist(forest) && (doc.folder.Some? ==> doc.folder.value in forest)
    ensures SelectedByCategory(forest, c, doc) <==> EffectiveCategory(forest, doc, Some(c))
  {
    ForestIsWellFounded(forest);
    CategorySnapshot(forest, c, doc);
  }

  /** A folder change selects exactly the documents whose folder is the target or below it. */
  lemma FolderSnapshot(forest: Forest, target: Id, doc: Document)
    ensures SelectedByFolder(forest, target, doc) <==>
              target in forest && doc.folder.Some? && Reaches(forest, doc.folder.value, target)
  {
    if doc.folder.Some? {
      var f := doc.folder.value;
      forall n: nat
        ensures BelowRow(forest, f, target, n) <==> target in forest && f in forest && Nth(forest, f, n) == Some(target)
      {
        BelowIsNth(forest, f, target, n);
      }
      if target in forest && Reaches(forest, f, target) {
        var n: nat :| Nth(forest, f, n) == Some(target);
        InForestBefore(forest, f, n, target);
        assert BelowRow(forest, f, target, n);
      }
    }
  }
}
