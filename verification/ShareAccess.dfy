/**
 * Access through a share link: the check of one document walks up from its folder, the scope of the
 * link is computed downward from the link's target. Both terminate on parent links with cycles.
 */
module ShareAccess {
  import opened Wrappers
  import opened FolderTopology

  type DocumentId = nat

  datatype Link = Link(
    createdBy: Owner, document: Option<DocumentId>, folder: Option<Id>, category: Option<Category>,
    expiresAt: Option<nat>)

  datatype Access = Granted | Expired | Missing | NoAccess

  type Documents = map<DocumentId, Document>

  predicate IsExpired(link: Link, now: nat) {
    link.expiresAt.Some? && link.expiresAt.value < now
  }

  /** A link targets one document, one folder or one category. */
  predicate OneTarget(link: Link) {
    || (link.document.Some? && link.folder.None? && link.category.None?)
    || (link.document.None? && link.folder.Some? && link.category.None?)
    || (link.document.None? && link.folder.None? && link.category.Some?)
  }

  /** The constraints of the table: exactly one target, and a target document exists. */
  predicate Storable(link: Link, docs: Documents) {
    OneTarget(link) && (link.document.Some? ==> link.document.value in docs)
  }

  // ---------------------------------------------------------------------
  // The check of one document
  // ---------------------------------------------------------------------

  /** What the link grants, whatever the check finds first. */
  ghost predicate Grants(link: Link, forest: Forest, docs: Documents, d: DocumentId) {
    || link.document == Some(d)
    || (link.folder.Some? && d in docs && docs[d].folder.Some?
        && Reaches(forest, docs[d].folder.value, link.folder.value))
    || (link.category.Some? && d in docs && EffectiveCategory(forest, docs[d], link.category))
  }

  /** The walk for the category, with the document's own category first. */
  method EffectiveCategoryOf(forest: Forest, doc: Document) returns (effective: Option<Category>)
    ensures EffectiveCategory(forest, doc, effective)
  {
    effective := doc.category;
    var current := doc.folder;
    var visited: set<Id> := {};
    ghost var n: nat := 0;
    while effective.None? && current.Some? && current.value !in visited
      invariant doc.category.Some? ==> effective == doc.category
      invariant doc.category.None? && effective.Some? ==> IsInherited(forest, doc.folder, effective)
      invariant effective.None? ==> (doc.folder.None? ==> current.None?)
      invariant effective.None? && doc.folder.Some? ==> Walked(forest, doc.folder.value, n, visited, current)
      invariant effective.None? ==> forall v | v in visited :: CategoryAt(forest, v).None?
      invariant visited <= forest.Keys && |visited| <= |forest.Keys|
      decreases effective.None?, |forest.Keys| - |visited|
    {
      var id := current.value;
      if id !in forest {
        NothingAbove(forest, doc.folder.value, n, visited, current);
        return;
      }
      if forest[id].category.Some? {
        assert NearestAt(forest, doc.folder.value, n, forest[id].category.value);
      } else {
        WalkStep(forest, doc.folder.value, n, visited, id);
      }
      VisitedCount(visited, forest, id);
      visited := visited + {id};
      effective := forest[id].category;
      current := forest[id].parent;
      n := n + 1;
    }
    if effective.None? && doc.folder.Some? {
      NothingAbove(forest, doc.folder.value, n, visited, current);
    }
  }

  method ShareTokenAccess(link: Option<Link>, now: nat, forest: Forest, docs: Documents,
          d: DocumentId) returns (access: Access)
    ensures access == Missing <==> link.None?
    ensures access == Expired <==>
              link.Some? && link.value.expiresAt.Some? && link.value.expiresAt.value < now
    ensures access == Granted <==> link.Some? && access != Expired && Grants(link.value, forest, docs, d)
  {
    if link.None? {
      return Missing;
    }
    var l := link.value;
    if IsExpired(l, now) {
      return Expired;
    }
    if l.document == Some(d) {
      return Granted;
    }
    if l.folder.Some? && d in docs && docs[d].folder.Some? {
      var below := IsFolderDescendant(forest, docs[d].folder.value, l.folder.value);
      if below {
        return Granted;
      }
    }
    if l.category.Some? && d in docs {
      var effective := EffectiveCategoryOf(forest, docs[d]);
      OneEffective(forest, docs[d], effective, l.category);
      if effective == l.category {
        return Granted;
      }
    }
    access := NoAccess;
  }

  lemma OneEffective(forest: Forest, doc: Document, a: Option<Category>, b: Option<Category>)
    requires EffectiveCategory(forest, doc, a)
    ensures EffectiveCategory(forest, doc, b) <==> a == b
  {
    if doc.category.None? && EffectiveCategory(forest, doc, b) {
      InheritedIsUnique(forest, doc.folder, a, b);
    }
  }

  // ---------------------------------------------------------------------
  // The scope of a link
  // ---------------------------------------------------------------------

  function OwnedFolders(forest: Forest, owner: Owner): Forest {
    map f | f in forest && forest[f].owner == owner :: forest[f]
  }

  function OwnedDocuments(docs: Documents, owner: Owner): Documents {
    map d | d in docs && docs[d].owner == owner :: docs[d]
  }

  /** The children of each folder. */
  method ChildrenByParent(forest: Forest) returns (children: map<Id, seq<Id>>)
    ensures forall p: Id, f: Id :: IsChild(children, p, f) <==> f in forest && forest[f].parent == Some(p)
  {
    children := map[];
    var rest := forest.Keys;
    while rest != {}
      invariant rest <= forest.Keys
      invariant forall p: Id, f: Id ::
          IsChild(children, p, f) <==> f in forest && f !in rest && forest[f].parent == Some(p)
      decreases rest
    {
      var f :| f in rest;
      rest := rest - {f};
      if forest[f].parent.Some? {
        var p := forest[f].parent.value;
        children := children[p := (if p in children then children[p] else []) + [f]];
      }
    }
  }

  predicate IsChild(children: map<Id, seq<Id>>, p: Id, f: Id) {
    p in children && f in children[p]
  }

  /** The search has seen the scope and still has to look at the pending folders. */
  ghost predicate Searching(forest: Forest, root: Id, scope: set<Id>, pending: seq<Id>) {
    && scope <= forest.Keys + {root}
    && (root in scope || root in pending)
    && (forall f | f in scope :: Reaches(forest, f, root))
    && (forall f | f in pending :: f in forest.Keys + {root} && Reaches(forest, f, root))
    && (forall f | f in forest && forest[f].parent.Some? && forest[f].parent.value in scope ::
        f in scope || f in pending)
  }

  lemma SearchStarts(forest: Forest, root: Id)
    ensures Searching(forest, root, {}, [root])
  {
    assert Nth(forest, root, 0) == Some(root);
  }

  lemma SearchStep(forest: Forest, root: Id, scope: set<Id>, pending: seq<Id>, children: seq<Id>)
    requires pending != [] && Searching(forest, root, scope, pending)
    requires forall f :: f in children <==> f in forest && forest[f].parent == Some(pending[|pending| - 1])
    ensures var current, rest := pending[|pending| - 1], pending[..|pending| - 1];
            if current in scope then Searching(forest, root, scope, rest)
            else Searching(forest, root, scope + {current}, rest + children)
  {
    var current, rest := pending[|pending| - 1], pending[..|pending| - 1];
    assert pending == rest + [current];
    forall f | f in children ensures Reaches(forest, f, root) {
      ReachesFromChild(forest, f, current, root);
    }
    hide Reaches;
    if current !in scope {
      forall f | f in rest + children ensures f in forest.Keys + {root} && Reaches(forest, f, root) {
        assert f in rest || f in children;
      }
    }
  }

  lemma SearchEnds(forest: Forest, root: Id, scope: set<Id>)
    requires Searching(forest, root, scope, [])
    ensures forall f :: f in scope <==> Reaches(forest, f, root)
  {
    forall f ensures f in scope <==> Reaches(forest, f, root) {
      if Reaches(forest, f, root) {
        var n: nat :| Nth(forest, f, n) == Some(root);
        ClosedScope(forest, scope, root, f, n);
      }
    }
  }

  /** Every folder at or below `root`, by a search with a stack. */
  method FolderScope(forest: Forest, root: Id) returns (scope: set<Id>)
    ensures forall f :: f in scope <==> Reaches(forest, f, root)
  {
    hide Searching;
    var children := ChildrenByParent(forest);
    scope := {};
    var pending := [root];
    SearchStarts(forest, root);
    while pending != []
      invariant Searching(forest, root, scope, pending)
      decreases |forest.Keys + {root} - scope|, |pending|
    {
      var current := pending[|pending| - 1];
      var found := if current in children then children[current] else [];
      assert forall f: Id :: f in found <==> IsChild(children, current, f);
      SearchStep(forest, root, scope, pending, found);
      SearchBound(forest, root, scope, pending);
      pending := pending[..|pending| - 1];
      if current !in scope {
        scope := scope + {current};
        pending := pending + found;
      }
    }
    SearchEnds(forest, root, scope);
  }

  lemma SearchBound(forest: Forest, root: Id, scope: set<Id>, pending: seq<Id>)
    requires pending != [] && Searching(forest, root, scope, pending)
    ensures var current := pending[|pending| - 1];
            current !in scope ==> |forest.Keys + {root} - (scope + {current})| < |forest.Keys + {root} - scope|
  {
    var current := pending[|pending| - 1];
    assert current in pending;
    if current !in scope {
      var left := forest.Keys + {root} - scope;
      assert forest.Keys + {root} - (scope + {current}) == left - {current};
    }
  }

  lemma ReachesFromChild(forest: Forest, f: Id, p: Id, root: Id)
    requires f in forest && forest[f].parent == Some(p) && Reaches(forest, p, root)
    ensures Reaches(forest, f, root)
  {
    var n: nat :| Nth(forest, p, n) == Some(root);
    NthFromParent(forest, f, n);
    assert Nth(forest, f, n + 1) == Some(root);
  }

  lemma {:induction false} ClosedScope(forest: Forest, scope: set<Id>, root: Id, f: Id, n: nat)
    requires root in scope && forall g, p | g in forest && forest[g].parent == Some(p) && p in scope :: g in scope
    requires Nth(forest, f, n) == Some(root)
    ensures f in scope
    decreases n
  {
    if n == 0 {
      assert Nth(forest, f, 0) == Some(f);
    } else {
      NthFromParent(forest, f, n - 1);
      ClosedScope(forest, scope, root, Parent(forest, f).value, n - 1);
    }
  }

  /** What the scope contains: a category comes before a document, and a document before a folder. */
  ghost predicate InScope(link: Link, forest: Forest, docs: Documents, d: DocumentId) {
    var owned := OwnedFolders(forest, link.createdBy);
    && d in docs && docs[d].owner == link.createdBy
    && if link.category.Some? then EffectiveCategory(owned, docs[d], link.category)
       else if link.document.Some? then link.document == Some(d)
       else link.folder.Some? && docs[d].folder.Some? && Reaches(owned, docs[d].folder.value, link.folder.value)
  }

  method ResolveScope(link: Option<Link>, now: nat, forest: Forest,
          docs: Documents) returns (scope: Option<set<DocumentId>>)
    ensures scope.None? <==>
              link.None? || (link.value.expiresAt.Some? && link.value.expiresAt.value < now)
    ensures scope.Some? ==> forall d :: d in scope.value <==> InScope(link.value, forest, docs, d)
  {
    if link.None? || IsExpired(link.value, now) {
      return None;
    }
    var l := link.value;
    var folders := OwnedFolders(forest, l.createdBy);
    var mine := OwnedDocuments(docs, l.createdBy);
    if l.category.Some? {
      var selected := InEffectiveCategory(folders, mine, l.category.value);
      return Some(selected);
    }
    if l.document.Some? {
      return Some(set d | d in mine && l.document == Some(d));
    }
    if l.folder.Some? {
      var ids := FolderScope(folders, l.folder.value);
      return Some(set d | d in mine && mine[d].folder.Some? && mine[d].folder.value in ids);
    }
    scope := Some({});
  }

  /** The documents whose effective category is the one of the link. */
  method InEffectiveCategory(forest: Forest, docs: Documents, c: Category) returns (selected: set<DocumentId>)
    ensures forall d :: d in selected <==> d in docs && EffectiveCategory(forest, docs[d], Some(c))
  {
    selected := {};
    var rest := docs.Keys;
    while rest != {}
      invariant rest <= docs.Keys
      invariant forall d :: d in selected <==> d in docs && d !in rest && EffectiveCategory(forest, docs[d], Some(c))
      decreases rest
    {
      var d :| d in rest;
      rest := rest - {d};
      var effective := docs[d].category;
      if effective.None? {
        effective := EffectiveFolderCategory(forest, docs[d].folder);
      }
      OneEffective(forest, docs[d], effective, Some(c));
      if effective == Some(c) {
        selected := selected + {d};
      }
    }
  }

  // ---------------------------------------------------------------------
  // The two computations agree
  // ---------------------------------------------------------------------

  predicate AllOwnedBy(forest: Forest, docs: Documents, owner: Owner) {
    && (forall f | f in forest :: forest[f].owner == owner)
    && (forall d | d in docs :: docs[d].owner == owner)
  }

  /**
   * For a link as the table holds it, with content that its creator owns, the check of a document
   * grants access exactly when the document is in the scope.
   */
  lemma GrantedIsInScope(link: Link, forest: Forest, docs: Documents, d: DocumentId)
    requires Storable(link, docs) && AllOwnedBy(forest, docs, link.createdBy)
    ensures Grants(link, forest, docs, d) <==> InScope(link, forest, docs, d)
  {
    assert OwnedFolders(forest, link.createdBy) == forest;
  }
}
