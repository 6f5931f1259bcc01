/** The paged drain of the metadata outbox: rows are deleted while the pages advance. */
module MetadataDrain {
  import opened Wrappers
  import opened MetadataStaging

  /** Where a page begins: behind the last row of the page before. */
  datatype Cursor = Cursor(createdAt: Time, id: Id)

  /** Which calls fail, and which jobs the queue takes when it answers. */
  datatype Environment = Environment(
    stagingFails: nat -> bool,
    accepts: (nat, Id) -> bool,
    acknowledgeFails: nat -> bool)

  predicate Selected(outbox: Outbox, operation: Option<Id>, id: Id) {
    id in outbox && (operation.None? || outbox[id].operation == operation.value)
  }

  /** One operation is read in the order of the identifiers, the whole outbox by age first. */
  predicate Behind(outbox: Outbox, operation: Option<Id>, cursor: Cursor, id: Id)
    requires id in outbox
  {
    if operation.Some? then cursor.id < id
    else cursor.createdAt < outbox[id].createdAt || (cursor.createdAt == outbox[id].createdAt && cursor.id < id)
  }

  function CursorAt(outbox: Outbox, id: Id): Cursor
    requires id in outbox
  {
    Cursor(outbox[id].createdAt, id)
  }

  predicate Candidate(outbox: Outbox, operation: Option<Id>, cursor: Option<Cursor>, id: Id) {
    Selected(outbox, operation, id) && (cursor.Some? ==> Behind(outbox, operation, cursor.value, id))
  }

  predicate InOrder(outbox: Outbox, operation: Option<Id>, ids: seq<Id>) {
    && (forall i | 0 <= i < |ids| :: ids[i] in outbox)
    && (forall i, j | 0 <= i < j < |ids| :: Behind(outbox, operation, CursorAt(outbox, ids[i]), ids[j]))
  }

  /** The page holds the first candidates, in order. */
  ghost predicate PageOf(outbox: Outbox, operation: Option<Id>, cursor: Option<Cursor>, limit: nat, page: seq<Id>) {
    && |page| <= limit && InOrder(outbox, operation, page)
    && (forall i | 0 <= i < |page| :: Candidate(outbox, operation, cursor, page[i]))
    && (forall id, i | 0 <= i < |page| && Candidate(outbox, operation, cursor, id) && id !in page ::
          Behind(outbox, operation, CursorAt(outbox, page[i]), id))
    && (|page| < limit ==> forall id | Candidate(outbox, operation, cursor, id) :: id in page)
  }

  function ToSet(ids: seq<Id>): set<Id> {
    set id | id in ids
  }

  predicate StillPending(runs: Runs, row: OutboxRow, id: Id) {
    var k := RunKey(row.document, id);
    k in runs && runs[k].status == Pending && runs[k].prepare == Pending
  }

  function Without(outbox: Outbox, ids: set<Id>): Outbox {
    map id | id in outbox && id !in ids :: outbox[id]
  }

  lemma SubsetCount<T>(a: set<T>, b: set<T>)
    requires a < b
    ensures |a| < |b|
  {
    assert b == a + (b - a);
    assert b - a != {};
  }

  lemma StageAgrees(runs: Runs, docs: Documents, o: Outbox, p: Outbox, ids: set<Id>)
    requires forall id | id in ids :: id in o && id in p && o[id] == p[id]
    ensures Stage(runs, docs, o, ids) == Stage(runs, docs, p, ids)
  {
    hide BeforeLatest, Matches;
    assert Asked(docs, o, ids) == Asked(docs, p, ids);
    SupersedeAgrees(Insert(runs, docs, o, ids), o, p, ids);
  }

  lemma SupersedeAgrees(runs: Runs, o: Outbox, p: Outbox, ids: set<Id>)
    requires forall id | id in ids :: id in o && id in p && o[id] == p[id]
    ensures Supersede(runs, o, ids) == Supersede(runs, p, ids)
  {
    hide BeforeLatest;
    forall d ensures Touched(runs, o, ids, d) <==> Touched(runs, p, ids, d) {
    }
  }

  /** Staging other rows does not make a run pending. */
  lemma NotPendingStays(runs: Runs, docs: Documents, outbox: Outbox, ids: set<Id>, row: OutboxRow, id: Id)
    requires id !in ids && !StillPending(runs, row, id)
    ensures !StillPending(Stage(runs, docs, outbox, ids), row, id)
  {
    AskedAt(docs, outbox, ids, RunKey(row.document, id));
  }

  lemma StageNothing(runs: Runs, docs: Documents, outbox: Outbox)
    ensures Stage(runs, docs, outbox, {}) == runs
  {
  }

  /** Staging a page of what is left of the table, after earlier pages. */
  lemma StageMore(runs: Runs, docs: Documents, table: Outbox, left: Outbox, staged: set<Id>, now: set<Id>)
    requires forall id | id in now :: id in table && id in left && table[id] == left[id]
    ensures Stage(Stage(runs, docs, table, staged), docs, left, now) == Stage(runs, docs, table, staged + now)
  {
    hide Stage;
    StageAgrees(Stage(runs, docs, table, staged), docs, table, left, now);
    StageUnion(runs, docs, table, staged, now);
  }

  // ---------------------------------------------------------------------
  // Progress of the pages
  // ---------------------------------------------------------------------

  /** What has been visited is a beginning of the selected rows; the cursor stands at its end. */
  ghost predicate Progress(table: Outbox, operation: Option<Id>, visited: seq<Id>, cursor: Option<Cursor>, done: bool) {
    && InOrder(table, operation, visited)
    && (forall id | id in visited :: Selected(table, operation, id))
    && (visited == [] ==> cursor.None?)
    && (visited != [] ==> cursor == Some(CursorAt(table, visited[|visited| - 1])))
    && (forall id | Selected(table, operation, id) && id !in visited :: Candidate(table, operation, cursor, id))
    && (done ==> forall id | Selected(table, operation, id) :: id in visited)
  }

  function Ahead(table: Outbox, operation: Option<Id>, visited: seq<Id>): set<Id> {
    set id | id in table && Selected(table, operation, id) && id !in visited
  }

  lemma FewerThan(ids: set<Id>, page: seq<Id>)
    requires (forall id | id in ids :: id in page) && |ToSet(page)| == |page|
    ensures |ids| <= |page|
  {
    var all := ToSet(page);
    assert ids <= all;
    if ids == all {
    } else {
      SubsetCount(ids, all);
    }
  }

  lemma NotBehindItself(table: Outbox, operation: Option<Id>, ids: seq<Id>, i: nat, j: nat)
    requires InOrder(table, operation, ids) && i < j < |ids|
    ensures ids[i] != ids[j]
  {
    assert Behind(table, operation, CursorAt(table, ids[i]), ids[j]);
  }

  lemma {:induction false} DistinctCount(table: Outbox, operation: Option<Id>, ids: seq<Id>)
    requires InOrder(table, operation, ids)
    ensures |ToSet(ids)| == |ids|
  {
    if ids != [] {
      var most, last := ids[..|ids| - 1], ids[|ids| - 1];
      DistinctCount(table, operation, most);
      hide Behind;
      forall i | 0 <= i < |most| ensures most[i] != last {
        NotBehindItself(table, operation, ids, i, |ids| - 1);
      }
      assert ToSet(ids) == ToSet(most) + {last};
    }
  }

  lemma ProgressStarts(table: Outbox, operation: Option<Id>)
    ensures Progress(table, operation, [], None, false)
  {
  }

  lemma ProgressMeans(table: Outbox, operation: Option<Id>, visited: seq<Id>, cursor: Option<Cursor>, done: bool)
    requires Progress(table, operation, visited, cursor, done)
    ensures InOrder(table, operation, visited)
    ensures forall id | id in visited :: Selected(table, operation, id) && id in table
    ensures done ==> forall id | Selected(table, operation, id) :: id in visited
    ensures (forall id | Selected(table, operation, id) :: id in visited) ==>
            Progress(table, operation, visited, cursor, true)
  {
  }

  /** Behind the cursor there is nothing that has been visited. */
  lemma CandidatesAreNew(table: Outbox, operation: Option<Id>, visited: seq<Id>, cursor: Option<Cursor>, id: Id)
    requires Progress(table, operation, visited, cursor, false) && Candidate(table, operation, cursor, id)
    ensures id !in visited
  {
    forall i | 0 <= i < |visited| ensures visited[i] != id {
      if i < |visited| - 1 {
        assert Behind(table, operation, CursorAt(table, visited[i]), visited[|visited| - 1]);
      }
    }
  }

  /** What is left behind the cursor is what has not been visited. */
  lemma LeftBehind(table: Outbox, left: Outbox, gone: set<Id>, operation: Option<Id>, cursor: Option<Cursor>,
          visited: seq<Id>, id: Id)
    requires Progress(table, operation, visited, cursor, false)
    requires left == Without(table, gone) && forall g | g in gone :: g in visited
    ensures Candidate(left, operation, cursor, id) <==> Selected(table, operation, id) && id !in visited
    ensures id in left ==> id in table && left[id] == table[id]
  {
    if Candidate(left, operation, cursor, id) {
      assert Candidate(table, operation, cursor, id);
      CandidatesAreNew(table, operation, visited, cursor, id);
    }
    if Selected(table, operation, id) && id !in visited {
      assert Candidate(table, operation, cursor, id);
    }
  }

  /** The rows of a page have not been visited, and stand in the table as they did. */
  lemma PageIsNew(table: Outbox, left: Outbox, gone: set<Id>, operation: Option<Id>, cursor: Option<Cursor>,
          visited: seq<Id>, page: seq<Id>)
    requires Progress(table, operation, visited, cursor, false)
    requires left == Without(table, gone) && forall id | id in gone :: id in visited
    requires forall i | 0 <= i < |page| :: Candidate(left, operation, cursor, page[i])
    ensures forall id | id in page ::
              Selected(table, operation, id) && id !in visited && id in left && id in table && left[id] == table[id]
    ensures forall i | 0 <= i < |page| :: Candidate(table, operation, cursor, page[i])
  {
    hide Progress;
    forall i | 0 <= i < |page|
      ensures Selected(table, operation, page[i]) && page[i] !in visited && Candidate(table, operation, cursor, page[i])
    {
      LeftBehind(table, left, gone, operation, cursor, visited, page[i]);
    }
  }

  /** What is selected and not visited before or in the page comes behind it. */
  lemma RestIsBehind(table: Outbox, left: Outbox, gone: set<Id>, operation: Option<Id>, cursor: Option<Cursor>,
          limit: nat, visited: seq<Id>, page: seq<Id>, id: Id)
    requires Progress(table, operation, visited, cursor, false)
    requires left == Without(table, gone) && forall g | g in gone :: g in visited
    requires PageOf(left, operation, cursor, limit, page)
    requires Selected(table, operation, id) && id !in visited && id !in page
    ensures |page| == limit
    ensures page != [] ==>
              && page[|page| - 1] in table
              && Candidate(table, operation, Some(CursorAt(table, page[|page| - 1])), id)
  {
    LeftBehind(table, left, gone, operation, cursor, visited, id);
    hide Progress;
    assert Candidate(left, operation, cursor, id);
    if page != [] {
      var last := page[|page| - 1];
      assert Behind(left, operation, CursorAt(left, last), id);
    }
  }

  /** The rows of a page have not been visited, and stand in the table as they did at first. */
  predicate NewPage(table: Outbox, left: Outbox, visited: seq<Id>, page: seq<Id>) {
    && |ToSet(page)| == |page|
    && forall id | id in page :: id !in visited && id in left && id in table && left[id] == table[id]
  }

  lemma InOutbox(table: Outbox, left: Outbox, visited: seq<Id>, page: seq<Id>)
    requires NewPage(table, left, visited, page)
    ensures forall id | id in page :: id in left
    ensures page != [] ==>
              && page[|page| - 1] in left && page[|page| - 1] in table
              && CursorAt(left, page[|page| - 1]) == CursorAt(table, page[|page| - 1])
  {
  }

  /** A page of what is left brings the progress forward. */
  lemma PageAdvances(table: Outbox, left: Outbox, gone: set<Id>, operation: Option<Id>, cursor: Option<Cursor>,
          limit: nat, visited: seq<Id>, page: seq<Id>)
    requires Progress(table, operation, visited, cursor, false) && limit > 0
    requires left == Without(table, gone) && forall id | id in gone :: id in visited
    requires PageOf(left, operation, cursor, limit, page)
    ensures NewPage(table, left, visited, page)
    ensures page == [] ==> forall id | Selected(table, operation, id) :: id in visited
    ensures page != [] ==>
              && page[|page| - 1] in table
              && Progress(table, operation, visited + page, Some(CursorAt(table, page[|page| - 1])), |page| < limit)
              && |Ahead(table, operation, visited + page)| < |Ahead(table, operation, visited)|
  {
    DistinctCount(left, operation, page);
    PageIsNew(table, left, gone, operation, cursor, visited, page);
    if page == [] {
      PageIsLast(table, left, gone, operation, cursor, limit, visited, page);
    } else {
      PageProgress(table, left, gone, operation, cursor, limit, visited, page);
      hide Behind, Selected, Candidate, PageOf, InOrder, Progress;
      assert page[|page| - 1] in page;
      PageShrinks(table, operation, visited, page);
    }
  }

  /** A page with room left is the last one. */
  lemma PageIsLast(table: Outbox, left: Outbox, gone: set<Id>, operation: Option<Id>, cursor: Option<Cursor>,
          limit: nat, visited: seq<Id>, page: seq<Id>)
    requires Progress(table, operation, visited, cursor, false) && |page| < limit
    requires left == Without(table, gone) && forall id | id in gone :: id in visited
    requires PageOf(left, operation, cursor, limit, page)
    ensures forall id | Selected(table, operation, id) :: id in visited || id in page
  {
    forall id | Selected(table, operation, id) ensures id in visited || id in page {
      if id !in visited && id !in page {
        RestIsBehind(table, left, gone, operation, cursor, limit, visited, page, id);
      }
    }
  }

  lemma PageProgress(table: Outbox, left: Outbox, gone: set<Id>, operation: Option<Id>, cursor: Option<Cursor>,
          limit: nat, visited: seq<Id>, page: seq<Id>)
    requires Progress(table, operation, visited, cursor, false) && limit > 0 && page != []
    requires left == Without(table, gone) && forall id | id in gone :: id in visited
    requires PageOf(left, operation, cursor, limit, page)
    ensures page[|page| - 1] in table
    ensures Progress(table, operation, visited + page, Some(CursorAt(table, page[|page| - 1])), |page| < limit)
  {
    hide *;
    var last := page[|page| - 1];
    assert last in page;
    PageInOrder(left, operation, cursor, limit, page);
    PageIsNew(table, left, gone, operation, cursor, visited, page);
    PageInTable(table, left, operation, page);
    OrderJoins(table, operation, visited, page, cursor);
    if |page| < limit {
      PageIsLast(table, left, gone, operation, cursor, limit, visited, page);
    }
    RestComesAfter(table, left, gone, operation, cursor, limit, visited, page);
    ProgressMeans(table, operation, visited, cursor, false);
    ProgressIs(table, operation, visited, page, |page| < limit);
  }

  lemma PageInOrder(left: Outbox, operation: Option<Id>, cursor: Option<Cursor>, limit: nat, page: seq<Id>)
    requires PageOf(left, operation, cursor, limit, page)
    ensures InOrder(left, operation, page) && forall i | 0 <= i < |page| :: Candidate(left, operation, cursor, page[i])
  {
    hide InOrder, Candidate;
  }

  lemma ProgressIs(table: Outbox, operation: Option<Id>, visited: seq<Id>, page: seq<Id>, done: bool)
    requires page != [] && page[|page| - 1] in table && InOrder(table, operation, visited + page)
    requires forall id | id in visited || id in page :: Selected(table, operation, id)
    requires forall id | Selected(table, operation, id) && id !in visited && id !in page ::
               Candidate(table, operation, Some(CursorAt(table, page[|page| - 1])), id)
    requires done ==> forall id | Selected(table, operation, id) :: id in visited || id in page
    ensures Progress(table, operation, visited + page, Some(CursorAt(table, page[|page| - 1])), done)
  {
    hide InOrder, Selected, Candidate, CursorAt;
  }

  lemma RestComesAfter(table: Outbox, left: Outbox, gone: set<Id>, operation: Option<Id>, cursor: Option<Cursor>,
          limit: nat, visited: seq<Id>, page: seq<Id>)
    requires Progress(table, operation, visited, cursor, false) && page != []
    requires left == Without(table, gone) && forall id | id in gone :: id in visited
    requires PageOf(left, operation, cursor, limit, page) && page[|page| - 1] in table
    ensures forall id | Selected(table, operation, id) && id !in visited && id !in page ::
              Candidate(table, operation, Some(CursorAt(table, page[|page| - 1])), id)
  {
    hide Behind, Selected, Candidate, PageOf, InOrder, Progress;
    forall id | Selected(table, operation, id) && id !in visited && id !in page
      ensures Candidate(table, operation, Some(CursorAt(table, page[|page| - 1])), id)
    {
      RestIsBehind(table, left, gone, operation, cursor, limit, visited, page, id);
    }
  }

  lemma PageShrinks(table: Outbox, operation: Option<Id>, visited: seq<Id>, page: seq<Id>)
    requires page != [] && forall id | id in page :: Selected(table, operation, id) && id in table && id !in visited
    ensures |Ahead(table, operation, visited + page)| < |Ahead(table, operation, visited)|
  {
    hide Selected;
    var last := page[|page| - 1];
    assert last in page;
    assert last in Ahead(table, operation, visited) && last !in Ahead(table, operation, visited + page);
    SubsetCount(Ahead(table, operation, visited + page), Ahead(table, operation, visited));
  }

  lemma PageInTable(table: Outbox, left: Outbox, operation: Option<Id>, page: seq<Id>)
    requires InOrder(left, operation, page) && forall id | id in page :: id in table && left[id] == table[id]
    ensures InOrder(table, operation, page)
  {
    forall i, j | 0 <= i < j < |page| ensures Behind(table, operation, CursorAt(table, page[i]), page[j]) {
      assert Behind(left, operation, CursorAt(left, page[i]), page[j]);
    }
  }

  lemma OrderJoins(table: Outbox, operation: Option<Id>, visited: seq<Id>, page: seq<Id>, cursor: Option<Cursor>)
    requires Progress(table, operation, visited, cursor, false)
    requires InOrder(table, operation, page)
    requires forall i | 0 <= i < |page| :: Candidate(table, operation, cursor, page[i])
    ensures InOrder(table, operation, visited + page)
  {
    var all := visited + page;
    forall i, j | 0 <= i < j < |all| ensures Behind(table, operation, CursorAt(table, all[i]), all[j]) {
      if i < |visited| <= j {
        assert Behind(table, operation, CursorAt(table, visited[|visited| - 1]), page[j - |visited|]);
        if i < |visited| - 1 {
          assert Behind(table, operation, CursorAt(table, visited[i]), visited[|visited| - 1]);
        }
      }
    }
  }

  // ---------------------------------------------------------------------
  // Accounts
  // ---------------------------------------------------------------------

  /** A row is deleted only when the queue has its job, or when its run is not pending any more. */
  ghost predicate Justified(runs: Runs, table: Outbox, queued: set<Id>, gone: set<Id>) {
    forall id | id in gone && id in table :: id in queued || !StillPending(runs, table[id], id)
  }

  /**
   * These are rows of the operation, or any if there is none; they are read in the order of their identifiers, and by
   * age first if there is no operation.
   */
  ghost predicate ReadInTurn(table: Outbox, operation: Option<Id>, visited: seq<Id>) {
    && (forall i | 0 <= i < |visited| ::
          visited[i] in table && (operation.Some? ==> table[visited[i]].operation == operation.value))
    && forall i, j | 0 <= i < j < |visited| ::
         if operation.Some? then visited[i] < visited[j]
         else || table[visited[i]].createdAt < table[visited[j]].createdAt
              || (table[visited[i]].createdAt == table[visited[j]].createdAt && visited[i] < visited[j])
  }

  lemma InTurn(table: Outbox, operation: Option<Id>, visited: seq<Id>)
    requires InOrder(table, operation, visited) && forall id | id in visited :: Selected(table, operation, id)
    ensures ReadInTurn(table, operation, visited)
    ensures (forall id | Selected(table, operation, id) :: id in visited) ==>
              forall id | id in table && (operation.Some? ==> table[id].operation == operation.value) :: id in visited
  {
    forall i | 0 <= i < |visited|
      ensures visited[i] in table && (operation.Some? ==> table[visited[i]].operation == operation.value)
    {
      assert visited[i] in visited;
    }
    forall i, j | 0 <= i < j < |visited|
      ensures if operation.Some? then visited[i] < visited[j]
              else || table[visited[i]].createdAt < table[visited[j]].createdAt
                   || (table[visited[i]].createdAt == table[visited[j]].createdAt && visited[i] < visited[j])
    {
      assert Behind(table, operation, CursorAt(table, visited[i]), visited[j]);
    }
  }

  ghost predicate StagingWorks(env: Environment, from: nat, to: nat) {
    forall n: nat | from <= n < to :: !env.stagingFails(n)
  }

  ghost predicate QueueTakesAll(env: Environment, from: nat, to: nat) {
    forall n: nat, id | from <= n < to :: env.accepts(n, id)
  }

  ghost predicate AcknowledgingWorks(env: Environment, from: nat, to: nat) {
    forall n: nat | from <= n < to :: !env.acknowledgeFails(n)
  }

  lemma WorksMore(env: Environment, from: nat, n: nat)
    requires from <= n
    ensures StagingWorks(env, from, n + 1) <==> StagingWorks(env, from, n) && !env.stagingFails(n)
    ensures AcknowledgingWorks(env, from, n + 1) <==> AcknowledgingWorks(env, from, n) && !env.acknowledgeFails(n)
  {
  }

  /** A row that has been visited is left only if its page was not staged or the queue has not taken its job. */
  ghost predicate LeftForAReason(env: Environment, from: nat, to: nat, staged: set<Id>, visited: seq<Id>,
          gone: set<Id>)
  {
    forall id | id in visited && id !in gone && id in staged :: exists n: nat :: from <= n < to && !env.accepts(n, id)
  }

  lemma LeftMore(env: Environment, from: nat, n: nat, staged: set<Id>, visited: seq<Id>, gone: set<Id>,
          page: seq<Id>, now: set<Id>, acks: set<Id>)
    requires LeftForAReason(env, from, n, staged, visited, gone) && from <= n
    requires staged <= ToSet(visited) && now <= ToSet(page)
    requires forall id | id in page :: id !in visited
    requires forall id | id in now && id !in acks :: !env.accepts(n, id)
    ensures LeftForAReason(env, from, n + 1, staged + now, visited + page, gone + acks)
  {
    forall id | id in visited + page && id !in gone + acks && id in staged + now
      ensures exists m: nat :: from <= m < n + 1 && !env.accepts(m, id)
    {
      if id in visited {
        var m: nat :| from <= m < n && !env.accepts(m, id);
      } else {
        assert id in now && !env.accepts(n, id);
      }
    }
  }

  /** The jobs of different pages are different. */
  lemma TakenMore(taken: set<Id>, visited: seq<Id>, now: set<Id>, page: seq<Id>)
    requires taken <= ToSet(visited) && now <= ToSet(page) && forall id | id in page :: id !in visited
    ensures taken + now <= ToSet(visited + page) && |taken + now| == |taken| + |now|
  {
    assert taken !! now;
  }

  lemma NothingLeft(env: Environment, table: Outbox, operation: Option<Id>, from: nat, to: nat, visited: seq<Id>,
          staged: set<Id>, gone: set<Id>)
    requires LeftForAReason(env, from, to, staged, visited, gone) && staged == ToSet(visited) && gone <= staged
    requires QueueTakesAll(env, from, to)
    requires InOrder(table, operation, visited)
    ensures |gone| == |visited| && forall id | id in visited :: id in gone
  {
    hide InOrder;
    DistinctCount(table, operation, visited);
    assert gone == ToSet(visited);
  }

  lemma JustifiedStep(before: Runs, docs: Documents, table: Outbox, left: Outbox, now: set<Id>, wasQueued: set<Id>,
          queued: set<Id>, gone: set<Id>, acks: set<Id>, runs: Runs, visited: seq<Id>, page: seq<Id>)
    requires Justified(before, table, wasQueued, gone) && wasQueued <= queued && gone <= ToSet(visited)
    requires runs == Stage(before, docs, left, now) && now <= ToSet(page)
    requires forall id | id in page :: id !in visited && id in left && id in table && left[id] == table[id]
    requires forall id | id in acks :: id in page && (id in queued || !StillPending(runs, left[id], id))
    ensures Justified(runs, table, queued, gone + acks) && Justified(runs, table, queued, gone)
  {
    hide Stage;
    forall id | id in gone && id in table ensures id in queued || !StillPending(runs, table[id], id) {
      if !StillPending(before, table[id], id) {
        NotPendingStays(before, docs, left, now, table[id], id);
      }
    }
  }

  lemma PageStaged(page: seq<Id>, now: set<Id>)
    requires now == {} || now == ToSet(page)
    ensures now <= ToSet(page) && forall id | id in now :: id in page
  {
  }

  lemma Subset(a: set<Id>, b: set<Id>)
    requires a <= b
    ensures |a| <= |b|
  {
    if a != b {
      SubsetCount(a, b);
    }
  }

  lemma StagedStep(staged: set<Id>, now: set<Id>, visited: seq<Id>, page: seq<Id>)
    requires staged <= ToSet(visited) && now <= ToSet(page)
    ensures staged + now <= ToSet(visited + page)
    ensures staged == ToSet(visited) && now == ToSet(page) ==> staged + now == ToSet(visited + page)
  {
  }

  /**
   * A job is handed over exactly when its row was staged, its run is pending, and the queue takes it. A row is
   * acknowledged exactly when its job was handed over or its run is not pending.
   */
  ghost predicate Dispatched(env: Environment, n: nat, runs: Runs, outbox: Outbox, staged: set<Id>,
          accepted: set<Id>, acknowledged: set<Id>)
    requires staged <= outbox.Keys
  {
    && accepted <= staged && acknowledged <= staged
    && forall id | id in staged ::
         var k := RunKey(outbox[id].document, id);
         var pending := k in runs && runs[k].status == Pending && runs[k].prepare == Pending;
         && (id in accepted <==> pending && env.accepts(n, id))
         && (id in acknowledged <==> id in accepted || !pending)
  }

  lemma DispatchedMeans(env: Environment, n: nat, runs: Runs, outbox: Outbox, page: seq<Id>, staged: set<Id>,
          accepted: set<Id>, acknowledged: set<Id>, queued: set<Id>, wasQueued: set<Id>)
    requires staged <= outbox.Keys && Dispatched(env, n, runs, outbox, staged, accepted, acknowledged)
    requires staged == {} || staged == ToSet(page)
    requires queued == wasQueued + accepted
    ensures accepted <= acknowledged <= staged && (forall id | id in acknowledged :: id in page)
    ensures forall id | id in acknowledged :: id in page && (id in queued || !StillPending(runs, outbox[id], id))
    ensures forall id | id in staged && id !in acknowledged :: !env.accepts(n, id)
    ensures wasQueued <= queued && accepted <= ToSet(page)
  {
  }

  /**
   * What a drain has done so far: the rows it has visited, in order, those whose page was staged, those that were
   * deleted, those whose jobs were taken, and how many of the visited ones were completed.
   */
  datatype Account = Account(
    visited: seq<Id>, staged: set<Id>, gone: set<Id>, taken: set<Id>, completed: nat)

  /** How a drain found things, and how many pages there had been. */
  datatype Beginning = Beginning(table: Outbox, runs: Runs, queued: set<Id>, pages: nat)

  /** The run table is what one stage of all staged rows gives. */
  ghost predicate StagedRight(env: Environment, docs: Documents, b: Beginning, a: Account, runs: Runs, pages: nat) {
    && runs == Stage(b.runs, docs, b.table, a.staged) && a.staged <= ToSet(a.visited) && b.pages <= pages
    && (StagingWorks(env, b.pages, pages) ==> a.staged == ToSet(a.visited))
  }

  /** The queue has exactly the jobs that were taken. */
  predicate TakenRight(b: Beginning, a: Account, queued: set<Id>) {
    queued == b.queued + a.taken && a.taken <= ToSet(a.visited) && |a.taken| <= a.completed <= |a.visited|
  }

  /** A row is deleted only if it was staged and its job was taken or its run is not pending any more. */
  ghost predicate DeletedRight(b: Beginning, a: Account, outbox: Outbox, runs: Runs, queued: set<Id>) {
    && outbox == Without(b.table, a.gone) && a.gone <= a.staged && a.gone <= b.table.Keys
    && Justified(runs, b.table, queued, a.gone)
  }

  /** What is completed has been deleted, and what is left is left for a reason, unless a deletion failed. */
  ghost predicate CompletedRight(env: Environment, b: Beginning, a: Account, pages: nat, interrupted: bool) {
    if interrupted then !AcknowledgingWorks(env, b.pages, pages)
    else |a.gone| == a.completed && LeftForAReason(env, b.pages, pages, a.staged, a.visited, a.gone)
  }

  /** The account is right. */
  ghost predicate Right(env: Environment, docs: Documents, b: Beginning, a: Account, outbox: Outbox, runs: Runs,
          queued: set<Id>, pages: nat, interrupted: bool)
  {
    && StagedRight(env, docs, b, a, runs, pages) && TakenRight(b, a, queued)
    && DeletedRight(b, a, outbox, runs, queued) && CompletedRight(env, b, a, pages, interrupted)
  }

  lemma RightAtFirst(env: Environment, docs: Documents, b: Beginning)
    ensures Right(env, docs, b, Account([], {}, {}, {}, 0), b.table, b.runs, b.queued, b.pages, false)
  {
    StageNothing(b.runs, docs, b.table);
    hide Stage;
  }

  lemma RightMeans(env: Environment, docs: Documents, b: Beginning, a: Account, outbox: Outbox, runs: Runs,
          queued: set<Id>, pages: nat, interrupted: bool)
    requires Right(env, docs, b, a, outbox, runs, queued, pages, interrupted)
    ensures runs == Stage(b.runs, docs, b.table, a.staged) && a.staged <= ToSet(a.visited)
    ensures outbox == Without(b.table, a.gone) && a.gone <= a.staged && forall id | id in a.gone :: id in a.visited
    ensures queued == b.queued + a.taken && a.taken <= ToSet(a.visited) && |a.taken| <= a.completed <= |a.visited|
    ensures Justified(runs, b.table, queued, a.gone) && b.pages <= pages
    ensures StagingWorks(env, b.pages, pages) ==> a.staged == ToSet(a.visited)
    ensures if interrupted then !AcknowledgingWorks(env, b.pages, pages)
            else |a.gone| == a.completed && LeftForAReason(env, b.pages, pages, a.staged, a.visited, a.gone)
  {
    hide Stage, Justified, LeftForAReason, StagingWorks, AcknowledgingWorks;
  }

  lemma FreshAcks(gone: set<Id>, acks: set<Id>, visited: seq<Id>, page: seq<Id>)
    requires gone <= ToSet(visited) && acks <= ToSet(page) && forall id | id in page :: id !in visited
    ensures |gone + acks| == |gone| + |acks|
  {
    assert gone !! acks;
  }

  lemma WithoutMore(table: Outbox, gone: set<Id>, acks: set<Id>)
    ensures Without(Without(table, gone), acks) == Without(table, gone + acks)
  {
  }

  lemma PageCount(page: seq<Id>, acks: set<Id>, accepted: set<Id>)
    requires |ToSet(page)| == |page| && acks <= ToSet(page) && accepted <= acks
    ensures |accepted| <= |acks| <= |page|
  {
    FewerThan(acks, page);
    Subset(accepted, acks);
  }

  lemma StagedMore(env: Environment, docs: Documents, b: Beginning, a: Account, next: Account, left: Outbox,
          runs: Runs, pages: nat, page: seq<Id>, staged: set<Id>, after: Runs)
    requires StagedRight(env, docs, b, a, runs, pages)
    requires next.staged == a.staged + staged && next.visited == a.visited + page
    requires forall id | id in page :: id in left && id in b.table && left[id] == b.table[id]
    requires staged == (if env.stagingFails(pages) then {} else ToSet(page))
    requires after == Stage(runs, docs, left, staged)
    ensures StagedRight(env, docs, b, next, after, pages + 1)
  {
    hide Stage, ToSet, StagingWorks;
    PageStaged(page, staged);
    StageMore(b.runs, docs, b.table, left, a.staged, staged);
    StagedStep(a.staged, staged, a.visited, page);
    WorksMore(env, b.pages, pages);
  }

  lemma TakesMore(b: Beginning, a: Account, next: Account, queued: set<Id>, page: seq<Id>, accepted: set<Id>,
          acks: set<Id>)
    requires TakenRight(b, a, queued) && |ToSet(page)| == |page| && accepted <= acks <= ToSet(page)
    requires forall id | id in page :: id !in a.visited
    requires next.visited == a.visited + page && next.taken == a.taken + accepted
    requires next.completed == a.completed + |acks|
    ensures TakenRight(b, next, queued + accepted) && |next.taken| == |a.taken| + |accepted|
    ensures |accepted| <= |acks| <= |page|
  {
    hide ToSet;
    PageCount(page, acks, accepted);
    TakenMore(a.taken, a.visited, accepted, page);
  }

  lemma DeletedMore(docs: Documents, b: Beginning, a: Account, next: Account, left: Outbox, runs: Runs,
          queued: set<Id>, page: seq<Id>, staged: set<Id>, accepted: set<Id>, acks: set<Id>, after: Runs)
    requires DeletedRight(b, a, left, runs, queued) && a.staged <= ToSet(a.visited)
    requires next.staged == a.staged + staged && acks <= staged <= ToSet(page)
    requires forall id | id in page :: id !in a.visited && id in left && id in b.table && left[id] == b.table[id]
    requires after == Stage(runs, docs, left, staged)
    requires forall id | id in acks :: id in page && (id in queued + accepted || !StillPending(after, left[id], id))
    ensures next.gone == a.gone ==> DeletedRight(b, next, left, after, queued + accepted)
    ensures next.gone == a.gone + acks ==> DeletedRight(b, next, Without(left, acks), after, queued + accepted)
  {
    hide Stage, StillPending, Justified, Without, ToSet;
    JustifiedStep(runs, docs, b.table, left, staged, queued, queued + accepted, a.gone, acks, after, a.visited, page);
    WithoutMore(b.table, a.gone, acks);
  }

  lemma CompletedMore(env: Environment, b: Beginning, a: Account, next: Account, pages: nat, page: seq<Id>,
          staged: set<Id>, acks: set<Id>)
    requires CompletedRight(env, b, a, pages, false) && b.pages <= pages
    requires a.gone <= a.staged <= ToSet(a.visited) && acks <= staged <= ToSet(page)
    requires next.visited == a.visited + page && next.staged == a.staged + staged
    requires next.completed == a.completed + |acks|
    requires forall id | id in page :: id !in a.visited
    requires forall id | id in staged && id !in acks :: !env.accepts(pages, id)
    ensures env.acknowledgeFails(pages) ==> CompletedRight(env, b, next, pages + 1, true)
    ensures next.gone == a.gone + acks ==> CompletedRight(env, b, next, pages + 1, false)
  {
    hide ToSet, LeftForAReason, AcknowledgingWorks;
    LeftMore(env, b.pages, pages, a.staged, a.visited, a.gone, page, staged, acks);
    FreshAcks(a.gone, acks, a.visited, page);
    WorksMore(env, b.pages, pages);
  }

  /** One more page has been dispatched, and its acknowledged rows were deleted unless that failed. */
  lemma RightMore(env: Environment, docs: Documents, b: Beginning, a: Account, next: Account, outbox: Outbox,
          runs: Runs, queued: set<Id>, pages: nat, page: seq<Id>, staged: set<Id>, accepted: set<Id>, acks: set<Id>,
          after: Runs, interrupted: bool)
    requires Right(env, docs, b, a, outbox, runs, queued, pages, false) && NewPage(b.table, outbox, a.visited, page)
    requires staged == (if env.stagingFails(pages) then {} else ToSet(page)) && staged <= outbox.Keys
    requires after == Stage(runs, docs, outbox, staged)
    requires Dispatched(env, pages, after, outbox, staged, accepted, acks)
    requires interrupted ==> env.acknowledgeFails(pages)
    requires next == Account(a.visited + page, a.staged + staged, if interrupted then a.gone else a.gone + acks,
                             a.taken + accepted, a.completed + |acks|)
    ensures Right(env, docs, b, next, if interrupted then outbox else Without(outbox, acks), after, queued + accepted,
                  pages + 1, interrupted)
    ensures |accepted| <= |acks| <= |page| && |next.taken| == |a.taken| + |accepted|
  {
    hide Stage, Dispatched, Justified, LeftForAReason, StagingWorks, AcknowledgingWorks, Without, ToSet, StillPending;
    RightMeans(env, docs, b, a, outbox, runs, queued, pages, false);
    DispatchedMeans(env, pages, after, outbox, page, staged, accepted, acks, queued + accepted, queued);
    PageStaged(page, staged);
    hide StagedRight, TakenRight, DeletedRight, CompletedRight;
    StagedMore(env, docs, b, a, next, outbox, runs, pages, page, staged, after);
    TakesMore(b, a, next, queued, page, accepted, acks);
    DeletedMore(docs, b, a, next, outbox, runs, queued, page, staged, accepted, acks, after);
    CompletedMore(env, b, a, next, pages, page, staged, acks);
  }

  class MetadataOutbox {
    const docs: Documents
    const env: Environment
    var outbox: Outbox
    var runs: Runs
    var queued: set<Id>
    var pages: nat

    constructor (docs: Documents, env: Environment, outbox: Outbox, runs: Runs)
      ensures this.docs == docs && this.env == env && this.outbox == outbox && this.runs == runs && queued == {}
    {
      this.docs, this.env, this.outbox, this.runs, queued, pages := docs, env, outbox, runs, {}, 0;
    }

    /** The first candidate behind the cursor that is not in the page yet. */
    method First(operation: Option<Id>, cursor: Option<Cursor>, page: seq<Id>) returns (first: Option<Id>)
      ensures first.None? ==> forall id | Candidate(outbox, operation, cursor, id) :: id in page
      ensures first.Some? ==>
                && Candidate(outbox, operation, cursor, first.value) && first.value !in page
                && forall id | Candidate(outbox, operation, cursor, id) && id !in page && id != first.value ::
                     Behind(outbox, operation, CursorAt(outbox, first.value), id)
    {
      first := None;
      var rest := outbox.Keys;
      while rest != {}
        invariant rest <= outbox.Keys
        invariant first.None? ==>
                    forall id | id in outbox && id !in rest && Candidate(outbox, operation, cursor, id) :: id in page
        invariant first.Some? ==>
                    && Candidate(outbox, operation, cursor, first.value) && first.value !in page && first.value !in rest
                    && forall id | id in outbox && id !in rest && Candidate(outbox, operation, cursor, id)
                                   && id !in page && id != first.value ::
                         Behind(outbox, operation, CursorAt(outbox, first.value), id)
        decreases rest
      {
        var id :| id in rest;
        rest := rest - {id};
        if Candidate(outbox, operation, cursor, id) && id !in page
           && (first.None? || Behind(outbox, operation, CursorAt(outbox, id), first.value)) {
          first := Some(id);
        }
      }
    }

    method LoadPage(operation: Option<Id>, cursor: Option<Cursor>, limit: nat) returns (page: seq<Id>)
      ensures PageOf(outbox, operation, cursor, limit, page)
    {
      page := [];
      var more := true;
      while more && |page| < limit
        invariant |page| <= limit && InOrder(outbox, operation, page)
        invariant forall i | 0 <= i < |page| :: Candidate(outbox, operation, cursor, page[i])
        invariant forall id, i | 0 <= i < |page| && Candidate(outbox, operation, cursor, id) && id !in page ::
            Behind(outbox, operation, CursorAt(outbox, page[i]), id)
        invariant !more ==> forall id | Candidate(outbox, operation, cursor, id) :: id in page
        decreases more, limit - |page|
      {
        var first := First(operation, cursor, page);
        if first.None? {
          more := false;
        } else {
          page := page + [first.value];
        }
      }
    }

    /** Stage a page and hand its jobs to the queue; which of its rows are done with? */
    method Dispatch(page: seq<Id>) returns (acknowledged: set<Id>, accepted: set<Id>, ghost staged: set<Id>)
      requires forall id | id in page :: id in outbox
      modifies this`runs, this`queued, this`pages
      ensures pages == old(pages) + 1
      ensures staged == (if env.stagingFails(old(pages)) then {} else ToSet(page)) && staged <= outbox.Keys
      ensures runs == Stage(old(runs), docs, outbox, staged)
      ensures queued == old(queued) + accepted
      ensures Dispatched(env, old(pages), runs, outbox, staged, accepted, acknowledged)
    {
      hide Stage;
      var n := pages;
      pages := pages + 1;
      acknowledged, accepted, staged := {}, {}, {};
      if env.stagingFails(n) {
        StageNothing(runs, docs, outbox);
        return;
      }
      staged := ToSet(page);
      runs := Stage(runs, docs, outbox, ToSet(page));
      var jobs := set id | id in page && StillPending(runs, outbox[id], id);
      accepted := set id | id in jobs && env.accepts(n, id);
      queued := queued + accepted;
      acknowledged := (set id | id in page && id !in jobs) + accepted;
    }

    /** Dispatch a page and delete what is done with; deleting may fail. */
    method ProcessPage(page: seq<Id>, ghost b: Beginning, ghost a: Account)
      returns (accepted: nat, acknowledged: nat, interrupted: bool, ghost next: Account)
      requires Right(env, docs, b, a, outbox, runs, queued, pages, false) && NewPage(b.table, outbox, a.visited, page)
      modifies this
      ensures Right(env, docs, b, next, outbox, runs, queued, pages, interrupted)
      ensures next.visited == a.visited + page && next.completed == a.completed + acknowledged
      ensures |next.taken| == |a.taken| + accepted && accepted <= acknowledged <= |page|
    {
      hide *;
      ghost var left, before, wasQueued, n := outbox, runs, queued, pages;
      InOutbox(b.table, outbox, a.visited, page);
      var acks, jobs, staged := Dispatch(page);
      accepted, acknowledged := |jobs|, |acks|;
      interrupted := acks != {} && env.acknowledgeFails(pages - 1);
      next := Account(a.visited + page, a.staged + staged, if interrupted then a.gone else a.gone + acks,
        a.taken + jobs, a.completed + |acks|);
      RightMore(env, docs, b, a, next, left, before, wasQueued, n, page, staged, jobs, acks, runs, interrupted);
      if !interrupted {
        outbox := Without(outbox, acks);
      }
    }

    /**
     * Drain the rows of an operation, or the whole outbox. Each selected row is visited once, in order. When staging,
     * the queue and the acknowledgements all work, every selected row is deleted.
     */
    method Drain(operation: Option<Id>, pageSize: int)
      returns (enqueued: nat, completed: nat, failed: nat, interrupted: bool, ghost a: Account)
      modifies this
      ensures Right(env, docs, old(Beginning(outbox, runs, queued, pages)), a, outbox, runs, queued, pages, interrupted)
      ensures ReadInTurn(old(outbox), operation, a.visited)
      ensures !interrupted ==>
                forall id | id in old(outbox) && (operation.Some? ==> old(outbox)[id].operation == operation.value) ::
                  id in a.visited
      ensures enqueued == |a.taken| && completed == a.completed && completed + failed == |a.visited|
      ensures StagingWorks(env, old(pages), pages) && QueueTakesAll(env, old(pages), pages)
              && AcknowledgingWorks(env, old(pages), pages) ==>
                !interrupted && failed == 0 && forall id | id in a.visited :: id in a.gone
    {
      hide *;
      var limit: nat := if pageSize < 1 then 1 else pageSize;
      ghost var b := Beginning(outbox, runs, queued, pages);
      ghost var table := outbox;
      enqueued, completed, failed, interrupted, a := 0, 0, 0, false, Account([], {}, {}, {}, 0);
      var cursor: Option<Cursor> := None;
      RightAtFirst(env, docs, b);
      ProgressStarts(table, operation);
      var done := false;
      while !done
        invariant !interrupted && Progress(table, operation, a.visited, cursor, done)
        invariant Right(env, docs, b, a, outbox, runs, queued, pages, false)
        invariant enqueued == |a.taken| && completed == a.completed && completed + failed == |a.visited|
        decreases !done, |Ahead(table, operation, a.visited)|
      {
        var page := LoadPage(operation, cursor, limit);
        RightMeans(env, docs, b, a, outbox, runs, queued, pages, false);
        PageAdvances(table, outbox, a.gone, operation, cursor, limit, a.visited, page);
        ProgressMeans(table, operation, a.visited, cursor, false);
        if page == [] {
          done := true;
        } else {
          InOutbox(table, outbox, a.visited, page);
          var next := CursorAt(outbox, page[|page| - 1]);
          var accepted, acknowledged, broken, after := ProcessPage(page, b, a);
          ProgressMeans(table, operation, after.visited, Some(next), |page| < limit);
          a := after;
          enqueued := enqueued + accepted;
          completed := completed + acknowledged;
          failed := failed + (|page| - acknowledged);
          if broken {
            interrupted := true;
            RightMeans(env, docs, b, a, outbox, runs, queued, pages, true);
            InTurn(table, operation, a.visited);
            return;
          }
          done := |page| < limit;
          cursor := Some(next);
        }
      }
      ProgressMeans(table, operation, a.visited, cursor, done);
      InTurn(table, operation, a.visited);
      RightMeans(env, docs, b, a, outbox, runs, queued, pages, false);
      if StagingWorks(env, old(pages), pages) && QueueTakesAll(env, old(pages), pages) {
        NothingLeft(env, table, operation, old(pages), pages, a.visited, a.staged, a.gone);
      }
    }
  }
}
