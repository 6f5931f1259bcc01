/**
 * Staging of the metadata re-embed outbox: each outbox row asks for a pipeline run of its document,
 * and a later run supersedes the earlier live ones.
 */
module MetadataStaging {
  import opened Wrappers

  type Id = nat
  type DocumentId = nat
  type Owner = nat
  type Time = nat
  type Revision = string

  datatype Document = Document(owner: Owner, workspace: Option<nat>, revision: Revision)

  datatype OutboxRow = OutboxRow(
    operation: Id, document: DocumentId, owner: Owner, workspace: Option<nat>, revision: Revision, createdAt: Time)

  datatype Status = Pending | Processing | Retrying | Ready | Failed | Cancelled

  datatype Run = Run(requestedAt: Time, revision: Revision, status: Status, prepare: Status)

  /** The generation of a run that was staged from the outbox is the identifier of the outbox row. */
  datatype RunKey = RunKey(document: DocumentId, generation: Id)

  type Documents = map<DocumentId, Document>
  type Outbox = map<Id, OutboxRow>
  type Runs = map<RunKey, Run>

  // ---------------------------------------------------------------------
  // The statements of the staging transaction
  // ---------------------------------------------------------------------

  /** The document still has the owner, workspace and revision of the snapshot. */
  predicate Matches(docs: Documents, row: OutboxRow) {
    && row.document in docs
    && docs[row.document] == Document(row.owner, row.workspace, row.revision)
  }

  function NewRun(row: OutboxRow): Run {
    Run(row.createdAt, row.revision, Pending, Pending)
  }

  /** The runs that the rows ask for. */
  function Asked(docs: Documents, outbox: Outbox, ids: set<Id>): Runs {
    map id | id in ids && id in outbox && Matches(docs, outbox[id]) ::
      RunKey(outbox[id].document, id) := NewRun(outbox[id])
  }

  /** Runs that exist already are kept. */
  function Insert(runs: Runs, docs: Documents, outbox: Outbox, ids: set<Id>): Runs {
    Asked(docs, outbox, ids) + runs
  }

  predicate Live(r: Run) {
    r.status == Pending || r.status == Processing || r.status == Retrying
  }

  predicate LiveAt(runs: Runs, k: RunKey) {
    k in runs && Live(runs[k])
  }

  /** The order in which runs of one document supersede one another. */
  predicate Later(runs: Runs, j: RunKey, k: RunKey)
    requires j in runs && k in runs
  {
    && j.document == k.document
    && (runs[j].requestedAt > runs[k].requestedAt
        || (runs[j].requestedAt == runs[k].requestedAt && j.generation > k.generation))
  }

  /** The documents of rows that have a run. */
  predicate Touched(runs: Runs, outbox: Outbox, ids: set<Id>, d: DocumentId) {
    exists id | id in ids && id in outbox :: outbox[id].document == d && RunKey(d, id) in runs
  }

  /** The live runs of a document. */
  function LiveRuns(runs: Runs, d: DocumentId): set<RunKey> {
    set k | k in runs && k.document == d && Live(runs[k])
  }

  /** The first of these runs in descending order of request and generation. */
  predicate Greatest(runs: Runs, some: set<RunKey>, k: RunKey) {
    && k in some && k in runs
    && forall j | j in some :: j in runs && (j == k || Later(runs, k, j))
  }

  /** The live run of the document that comes first in descending order of request and generation. */
  function Latest(runs: Runs, d: DocumentId): (k: Option<RunKey>)
    ensures k.Some? <==> LiveRuns(runs, d) != {}
    ensures k.Some? ==> Greatest(runs, LiveRuns(runs, d), k.value)
  {
    var live := LiveRuns(runs, d);
    if live == {} then None
    else
      GreatestExists(runs, d, live);
      var k :| k in live && Greatest(runs, live, k);
      Some(k)
  }

  lemma {:induction false} GreatestExists(runs: Runs, d: DocumentId, some: set<RunKey>)
    requires some != {} && forall k | k in some :: k in runs && k.document == d
    ensures exists m | m in some :: Greatest(runs, some, m)
  {
    var m :| m in some;
    if some == {m} {
      assert Greatest(runs, some, m);
    } else {
      GreatestExists(runs, d, some - {m});
      var n :| n in some - {m} && Greatest(runs, some - {m}, n);
      assert Greatest(runs, some, if Later(runs, n, m) then n else m);
    }
  }

  predicate BeforeLatest(runs: Runs, k: RunKey)
    requires k in runs
  {
    var latest := Latest(runs, k.document);
    latest.Some? && Later(runs, latest.value, k)
  }

  /** Live runs of these documents that come before the latest are cancelled. */
  function Supersede(runs: Runs, outbox: Outbox, ids: set<Id>): Runs {
    map k | k in runs ::
      if Touched(runs, outbox, ids, k.document) && Live(runs[k]) && BeforeLatest(runs, k)
      then runs[k].(status := Cancelled) else runs[k]
  }

  function Stage(runs: Runs, docs: Documents, outbox: Outbox, ids: set<Id>): Runs {
    Supersede(Insert(runs, docs, outbox, ids), outbox, ids)
  }

  /** The documents that are marked stale, because a run is inserted for them. */
  function MarkedStale(runs: Runs, docs: Documents, outbox: Outbox, ids: set<Id>): set<DocumentId> {
    set id | id in ids && id in outbox && Matches(docs, outbox[id]) && RunKey(outbox[id].document, id) !in runs ::
      outbox[id].document
  }

  // ---------------------------------------------------------------------
  // The newest run survives
  // ---------------------------------------------------------------------

  /** A later run of the document is live. */
  predicate Superseded(runs: Runs, k: RunKey)
    requires k in runs
  {
    Live(runs[k]) && exists j | j in runs :: Live(runs[j]) && Later(runs, j, k)
  }

  /** Each run is cancelled that any later live run supersedes. */
  function CancelSuperseded(runs: Runs, outbox: Outbox, ids: set<Id>): Runs {
    map k | k in runs ::
      if Touched(runs, outbox, ids, k.document) && Superseded(runs, k) then runs[k].(status := Cancelled) else runs[k]
  }

  lemma LatestSupersedes(runs: Runs, k: RunKey)
    requires LiveAt(runs, k)
    ensures Superseded(runs, k) <==> BeforeLatest(runs, k)
  {
    assert k in LiveRuns(runs, k.document);
    var latest := Latest(runs, k.document).value;
    assert latest in LiveRuns(runs, k.document);
    if Superseded(runs, k) {
      var j :| j in runs && Live(runs[j]) && Later(runs, j, k);
      assert j in LiveRuns(runs, k.document);
    }
  }

  /** Comparing with the latest run alone cancels the same runs. */
  lemma SupersedeIs(runs: Runs, outbox: Outbox, ids: set<Id>)
    ensures Supersede(runs, outbox, ids) == CancelSuperseded(runs, outbox, ids)
  {
    forall k | LiveAt(runs, k) ensures Superseded(runs, k) <==> BeforeLatest(runs, k) {
      LatestSupersedes(runs, k);
    }
    hide Touched, BeforeLatest;
  }

  /** A live run that no later live run supersedes. */
  lemma NewestExists(runs: Runs, k: RunKey) returns (m: RunKey)
    requires LiveAt(runs, k)
    ensures LiveAt(runs, m) && !Superseded(runs, m) && m.document == k.document && (m == k || Later(runs, m, k))
  {
    assert k in LiveRuns(runs, k.document);
    m := Latest(runs, k.document).value;
    assert m in LiveRuns(runs, k.document);
    LatestSupersedes(runs, m);
  }

  /** The run is waiting, at work, or to be tried again. */
  predicate Unfinished(runs: Runs, d: DocumentId, k: RunKey) {
    && k in runs && k.document == d
    && (runs[k].status == Pending || runs[k].status == Processing || runs[k].status == Retrying)
  }

  /**
   * Run `k` is the only unfinished one that is left to the document. Each other one was requested earlier, or at the
   * same time with a smaller generation, and is cancelled.
   */
  ghost predicate OnlyNewestLeft(before: Runs, after: Runs, d: DocumentId, k: RunKey) {
    && Unfinished(before, d, k) && k in after && after[k] == before[k]
    && forall j | Unfinished(before, d, j) && j != k ::
         && (before[j].requestedAt < before[k].requestedAt
             || (before[j].requestedAt == before[k].requestedAt && j.generation < k.generation))
         && j in after && after[j] == before[j].(status := Cancelled)
  }

  lemma TouchedBy(runs: Runs, outbox: Outbox, ids: set<Id>, d: DocumentId, id: Id)
    requires id in ids && id in outbox && outbox[id].document == d && RunKey(d, id) in runs
    ensures Touched(runs, outbox, ids, d)
  {
  }

  /**
   * Staging leaves exactly one live run to a document that was given a run, if it had any: the one that
   * is greatest by time of request and then by generation, unchanged.
   */
  lemma OneLiveRun(runs: Runs, docs: Documents, outbox: Outbox, ids: set<Id>, d: DocumentId, id: Id)
    requires id in ids && id in outbox && outbox[id].document == d
    requires RunKey(d, id) in Stage(runs, docs, outbox, ids)
    ensures var before, after := Insert(runs, docs, outbox, ids), Stage(runs, docs, outbox, ids);
            && after.Keys == before.Keys
            && ((exists j :: Unfinished(before, d, j)) ==> exists k :: OnlyNewestLeft(before, after, d, k))
            && (forall j | j in before && !Unfinished(before, d, j) && j.document == d :: after[j] == before[j])
  {
    var before, after := Insert(runs, docs, outbox, ids), Stage(runs, docs, outbox, ids);
    SupersedeKeys(before, outbox, ids);
    hide Insert, Touched;
    TouchedBy(before, outbox, ids, d, id);
    if j :| Unfinished(before, d, j) {
      assert j in LiveRuns(before, d);
      var k := Latest(before, d).value;
      assert forall j | Unfinished(before, d, j) :: j in LiveRuns(before, d);
      assert OnlyNewestLeft(before, after, d, k);
    }
  }

  /**
   * A run is there after staging exactly when it was there before, or a staged row asks for it and its document still
   * has the owner, workspace and revision of the row. A new run is as the row says, and pending unless it was
   * superseded at once.
   */
  lemma StagedRuns(runs: Runs, docs: Documents, outbox: Outbox, ids: set<Id>, k: RunKey)
    ensures var after, id := Stage(runs, docs, outbox, ids), k.generation;
            && (k in after
                <==> k in runs
                     || (&& id in ids && id in outbox && outbox[id].document == k.document && k.document in docs
                         && docs[k.document].owner == outbox[id].owner
                         && docs[k.document].workspace == outbox[id].workspace
                         && docs[k.document].revision == outbox[id].revision))
            && (k in after && k !in runs ==>
                  && after[k].requestedAt == outbox[id].createdAt && after[k].revision == outbox[id].revision
                  && after[k].prepare == Pending && (after[k].status == Pending || after[k].status == Cancelled))
  {
    SupersedeKeys(Insert(runs, docs, outbox, ids), outbox, ids);
    AskedAt(docs, outbox, ids, k);
    hide Touched, BeforeLatest;
  }

  /**
   * Nothing else changes: not the runs of documents none of whose staged rows has a run, nor runs that were not
   * live.
   */
  lemma OtherRunsKept(runs: Runs, docs: Documents, outbox: Outbox, ids: set<Id>, k: RunKey)
    requires k in runs
    requires || !Unfinished(runs, k.document, k)
             || forall id | id in ids && id in outbox && outbox[id].document == k.document ::
                  RunKey(k.document, id) !in Stage(runs, docs, outbox, ids)
    ensures k in Stage(runs, docs, outbox, ids) && Stage(runs, docs, outbox, ids)[k] == runs[k]
  {
    SupersedeKeys(Insert(runs, docs, outbox, ids), outbox, ids);
    SupersedeIs(Insert(runs, docs, outbox, ids), outbox, ids);
  }

  // ---------------------------------------------------------------------
  // Pages and orders do not matter
  // ---------------------------------------------------------------------

  /** Runs that the second page adds: they are live, and its rows are not in the first page. */
  predicate SecondPage(first: Runs, news: Runs, outbox: Outbox, a: set<Id>, b: set<Id>) {
    forall k | k in news ::
      && k !in first && Live(news[k])
      && k.generation in b && k.generation !in a && k.generation in outbox
          && outbox[k.generation].document == k.document
  }

  /** A run stays superseded when more runs arrive. */
  lemma SupersededStays(first: Runs, news: Runs, k: RunKey)
    requires k in first && news.Keys !! first.Keys && Superseded(first, k)
    ensures Superseded(first + news, k)
  {
    var j :| j in first && Live(first[j]) && Later(first, j, k);
    assert Live((first + news)[j]) && Later(first + news, j, k);
  }

  /** Superseding in two rounds cancels what one round over all runs cancels. */
  lemma SupersedeTwice(first: Runs, news: Runs, outbox: Outbox, a: set<Id>, b: set<Id>, k: RunKey)
    requires SecondPage(first, news, outbox, a, b) && k in first + news
    ensures var second := CancelSuperseded(first, outbox, a) + news;
            CancelSuperseded(second, outbox, b)[k] == CancelSuperseded(first + news, outbox, a + b)[k]
  {
    var all := first + news;
    var staged := CancelSuperseded(first, outbox, a);
    var second := staged + news;
    var d := k.document;
    assert second.Keys == all.Keys;
    assert Touched(all, outbox, a + b, d) <==> Touched(first, outbox, a, d) || Touched(second, outbox, b, d) by {
      TouchedSplits(first, news, outbox, a, b, d);
    }
    if k in first && Touched(first, outbox, a, d) && Superseded(first, k) {
      SupersededStays(first, news, k);
    } else {
      assert second[k] == all[k];
      if Superseded(second, k) {
        var j :| j in second && Live(second[j]) && Later(second, j, k);
        assert Live(all[j]) && Later(all, j, k);
      }
      if Superseded(all, k) && Touched(all, outbox, a + b, d) {
        LaterSurvives(first, news, outbox, a, b, k);
      }
    }
  }

  lemma TouchedSplits(first: Runs, news: Runs, outbox: Outbox, a: set<Id>, b: set<Id>, d: DocumentId)
    requires SecondPage(first, news, outbox, a, b)
    ensures Touched(first + news, outbox, a + b, d)
       <==> Touched(first, outbox, a, d) || Touched(first + news, outbox, b, d)
  {
  }

  /** If a run is superseded at all, a later one survives the first round, or the round has not touched it. */
  lemma LaterSurvives(first: Runs, news: Runs, outbox: Outbox, a: set<Id>, b: set<Id>, k: RunKey)
    requires SecondPage(first, news, outbox, a, b) && k in first + news
    requires Superseded(first + news, k)
    requires !(k in first && Touched(first, outbox, a, k.document) && Superseded(first, k))
    requires Touched(first + news, outbox, a + b, k.document)
    ensures var second := CancelSuperseded(first, outbox, a) + news;
            k in second && Superseded(second, k) && Touched(second, outbox, b, k.document)
  {
    var all := first + news;
    var second := CancelSuperseded(first, outbox, a) + news;
    var j :| j in all && Live(all[j]) && Later(all, j, k);
    TouchedSplits(first, news, outbox, a, b, k.document);
    assert second.Keys == all.Keys && second[k] == all[k];
    if j in news {
      assert Live(second[j]) && Later(second, j, k);
      assert Touched(second, outbox, b, k.document);
    } else {
      var m := NewestExists(first, j);
      assert second[m] == first[m] && Live(second[m]) && Later(second, m, k);
      if k in first {
        assert Superseded(first, k);
      } else {
        assert Touched(second, outbox, b, k.document);
      }
    }
  }

  /** The runs that a second page adds to the table. */
  function News(runs: Runs, docs: Documents, outbox: Outbox, a: set<Id>, b: set<Id>): Runs {
    var first := Insert(runs, docs, outbox, a);
    var all := Insert(runs, docs, outbox, a + b);
    map k | k in all && k !in first :: all[k]
  }

  lemma NewsAreSecondPage(runs: Runs, docs: Documents, outbox: Outbox, a: set<Id>, b: set<Id>)
    ensures SecondPage(Insert(runs, docs, outbox, a), News(runs, docs, outbox, a, b), outbox, a, b)
  {
  }

  /** The row `k.generation` asks for the run `k`. */
  predicate Asks(docs: Documents, outbox: Outbox, ids: set<Id>, k: RunKey) {
    && k.generation in ids && k.generation in outbox
    && outbox[k.generation].document == k.document && Matches(docs, outbox[k.generation])
  }

  lemma AskedAt(docs: Documents, outbox: Outbox, ids: set<Id>, k: RunKey)
    ensures k in Asked(docs, outbox, ids) <==> Asks(docs, outbox, ids, k)
    ensures Asks(docs, outbox, ids, k) ==> Asked(docs, outbox, ids)[k] == NewRun(outbox[k.generation])
  {
    if Asks(docs, outbox, ids, k) {
      assert k == RunKey(outbox[k.generation].document, k.generation);
    }
  }

  lemma MapsCompose(x: Runs, y: Runs, z: Runs, runs: Runs, staged: Runs)
    requires z.Keys == x.Keys + y.Keys
    requires (forall k | k in x :: z[k] == x[k]) && (forall k | k in y :: z[k] == y[k])
    requires staged.Keys == x.Keys + runs.Keys
    ensures var news := map k | k in z + runs && k !in x + runs :: (z + runs)[k];
            y + staged == staged + news && z + runs == (x + runs) + news
  {
    var news := map k | k in z + runs && k !in x + runs :: (z + runs)[k];
    assert forall k :: k in news <==> k in y && k !in staged;
    assert forall k | k in news :: news[k] == y[k];
  }

  lemma InsertTwice(runs: Runs, docs: Documents, outbox: Outbox, a: set<Id>, b: set<Id>, staged: Runs)
    requires staged.Keys == Insert(runs, docs, outbox, a).Keys
    ensures Insert(staged, docs, outbox, b) == staged + News(runs, docs, outbox, a, b)
    ensures Insert(runs, docs, outbox, a + b) == Insert(runs, docs, outbox, a) + News(runs, docs, outbox, a, b)
  {
    hide Asked, Matches;
    var x, y, z := Asked(docs, outbox, a), Asked(docs, outbox, b), Asked(docs, outbox, a + b);
    forall k
      ensures k in z <==> k in x || k in y
      ensures (k in x ==> x[k] == z[k]) && (k in y ==> y[k] == z[k])
    {
      AskedAt(docs, outbox, a, k);
      AskedAt(docs, outbox, b, k);
      AskedAt(docs, outbox, a + b, k);
    }
    MapsCompose(x, y, z, runs, staged);
  }

  lemma SupersedeKeys(runs: Runs, outbox: Outbox, ids: set<Id>)
    ensures Supersede(runs, outbox, ids).Keys == runs.Keys
  {
    SupersedeIs(runs, outbox, ids);
  }

  /**
   * Staging one page after the other gives the run table that staging their union gives, so the
   * order of the rows and the division into pages do not matter.
   */
  lemma StageUnion(runs: Runs, docs: Documents, outbox: Outbox, a: set<Id>, b: set<Id>)
    ensures Stage(Stage(runs, docs, outbox, a), docs, outbox, b) == Stage(runs, docs, outbox, a + b)
  {
    hide Supersede, CancelSuperseded, Insert, SecondPage, News;
    var first, news := Insert(runs, docs, outbox, a), News(runs, docs, outbox, a, b);
    var staged := Supersede(first, outbox, a);
    SupersedeKeys(first, outbox, a);
    InsertTwice(runs, docs, outbox, a, b, staged);
    NewsAreSecondPage(runs, docs, outbox, a, b);
    var twice, once := Supersede(staged + news, outbox, b), Supersede(first + news, outbox, a + b);
    SupersedeKeys(staged + news, outbox, b);
    SupersedeKeys(first + news, outbox, a + b);
    SupersedeIs(first, outbox, a);
    SupersedeIs(staged + news, outbox, b);
    SupersedeIs(first + news, outbox, a + b);
    forall k | k in once ensures twice[k] == once[k] {
      SupersedeTwice(first, news, outbox, a, b, k);
    }
  }

  /** Staging again after a crash changes nothing. */
  lemma StageAgain(runs: Runs, docs: Documents, outbox: Outbox, ids: set<Id>)
    ensures Stage(Stage(runs, docs, outbox, ids), docs, outbox, ids) == Stage(runs, docs, outbox, ids)
  {
    StageUnion(runs, docs, outbox, ids, ids);
    assert ids + ids == ids;
  }

  lemma StagedKeys(runs: Runs, docs: Documents, outbox: Outbox, a: set<Id>, id: Id)
    requires id in outbox && Matches(docs, outbox[id])
    ensures var k := RunKey(outbox[id].document, id);
            k in Stage(runs, docs, outbox, a) <==> k in runs || id in a
  {
    SupersedeKeys(Insert(runs, docs, outbox, a), outbox, a);
    AskedAt(docs, outbox, a, RunKey(outbox[id].document, id));
  }

  /** The same documents are marked stale, in one stage or in two. */
  lemma StaleUnion(runs: Runs, docs: Documents, outbox: Outbox, a: set<Id>, b: set<Id>)
    ensures MarkedStale(runs, docs, outbox, a) + MarkedStale(Stage(runs, docs, outbox, a), docs, outbox, b)
         == MarkedStale(runs, docs, outbox, a + b)
  {
    hide Stage;
    forall id | id in outbox && Matches(docs, outbox[id])
      ensures RunKey(outbox[id].document, id) in Stage(runs, docs, outbox, a)
         <==> RunKey(outbox[id].document, id) in runs || id in a
    {
      StagedKeys(runs, docs, outbox, a, id);
    }
    hide Matches;
  }
}
