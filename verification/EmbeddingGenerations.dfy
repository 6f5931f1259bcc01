/**
 * Generations of embeddings of one document. Workers build candidate generations beside the active
 * one; a transaction makes a complete candidate active and removes all other rows.
 */
module EmbeddingGenerations {
  import opened Wrappers
  import opened EmbeddingRows

  type Generation = nat
  type Worker = nat

  datatype Status = Pending | Processing | Ready | Failed | Stale

  /** What a worker holds; `seen` is the generation that was active when it read the document. */
  datatype Task = Task(
    seen: Option<Generation>,
    generation: Option<Generation>,
    chunks: seq<Chunk>,
    existing: Option<seq<Row>>,
    inserted: bool)

  /** `sources` is history: the chunks that each generation was begun for. */
  datatype Document = Document(
    active: Option<Generation>,
    pending: Option<Generation>,
    profile: Option<string>,
    status: Status,
    rows: map<Generation, seq<Row>>,
    cancelled: set<Generation>,
    tasks: map<Worker, Task>,
    sources: map<Generation, seq<Chunk>>)

  const NEW := Document(None, None, None, Pending, map[], {}, map[], map[])

  // ---------------------------------------------------------------------
  // The transactions
  // ---------------------------------------------------------------------

  datatype ExpectedProfile = Unspecified | ById(id: string) | Full(model: string, dimensions: nat, id: string)

  datatype FailureCode = PipelineCancelled | NotPending | Incomplete | InvalidProfile

  datatype Activation = Activated(document: Document) | AlreadyActive | Rejected(code: FailureCode)

  function RowsOf(d: Document, g: Generation): seq<Row> {
    if g in d.rows then d.rows[g] else []
  }

  predicate ProfileAgrees(rows: seq<Row>, model: string, profile: string) {
    forall i | 0 <= i < |rows| ::
      rows[i].isValid && rows[i].profile == profile && rows[i].model == model && rows[i].dimensions == DIMENSIONS
  }

  function Activate(d: Document, g: Generation, expectedChunks: nat, expected: ExpectedProfile): Activation {
    if g in d.cancelled then Rejected(PipelineCancelled)
    else if d.active == Some(g) && d.pending.None? then AlreadyActive
    else if d.pending != Some(g) then Rejected(NotPending)
    else
      var rows := RowsOf(d, g);
      if |rows| != expectedChunks || |rows| == 0 then Rejected(Incomplete)
      else
        var profile := if expected.Unspecified? then rows[0].profile else expected.id;
        var model := if expected.Full? then expected.model else rows[0].model;
        var dimensions := if expected.Full? then expected.dimensions else DIMENSIONS;
        if profile == "" || dimensions != DIMENSIONS || !ProfileAgrees(rows, model, profile)
        then Rejected(InvalidProfile)
        else Activated(d.(active := Some(g), pending := None, profile := Some(profile), status := Ready,
                          rows := map[g := rows]))
  }

  /** These rows can be searched for under one profile and one model. */
  ghost predicate Uniform(rows: seq<Row>, model: string, profile: string) {
    forall i | 0 <= i < |rows| ::
      rows[i].isValid && rows[i].dimensions == 1024 && rows[i].model == model && rows[i].profile == profile
  }

  /**
   * How an activation ends: a cancelled generation is rejected, one that is active already is left alone, and of the
   * others only the pending one can be made active, with exactly the expected number of rows, all of them valid and
   * of one model and profile, which are the expected ones if any are named.
   */
  lemma ActivateMeans(d: Document, g: Generation, expectedChunks: nat, expected: ExpectedProfile)
    ensures var outcome, rows := Activate(d, g, expectedChunks, expected), RowsOf(d, g);
            && (outcome == Rejected(PipelineCancelled) <==> g in d.cancelled)
            && (outcome == AlreadyActive <==> g !in d.cancelled && d.active == Some(g) && d.pending.None?)
            && (outcome == Rejected(NotPending)
                <==> g !in d.cancelled && d.pending != Some(g) && !(d.active == Some(g) && d.pending.None?))
            && (outcome == Rejected(Incomplete)
                <==> g !in d.cancelled && d.pending == Some(g) && (|rows| != expectedChunks || rows == []))
            && (outcome.Activated?
                <==> && g !in d.cancelled && d.pending == Some(g) && |rows| == expectedChunks && rows != []
                     && rows[0].profile != "" && Uniform(rows, rows[0].model, rows[0].profile)
                     && (!expected.Unspecified? ==> rows[0].profile == expected.id)
                     && (expected.Full? ==> rows[0].model == expected.model && expected.dimensions == 1024))
            && (outcome.Activated? ==>
                  && outcome.document.active == Some(g) && outcome.document.pending.None?
                  && outcome.document.status == Ready && outcome.document.rows == map[g := rows]
                  && outcome.document.profile == Some(rows[0].profile))
  {
  }

  function FailGeneration(d: Document, g: Generation): Document {
    if d.active == Some(g) then d
    else
      var cleaned := d.(rows := d.rows - {g});
      if d.pending == Some(g) then
        cleaned.(pending := None, status := if d.active.Some? then Ready else Failed)
      else cleaned
  }

  // ---------------------------------------------------------------------
  // Events
  // ---------------------------------------------------------------------

  datatype Event =
    | Read(w: Worker)
    | Begin(w: Worker, generation: Generation, chunks: seq<Chunk>)
    | FailEarly(w: Worker)
    | Fetch(w: Worker)
    | Insert(w: Worker)
    | TryActivate(w: Worker)
    | GiveUp(w: Worker)
    | Crash(w: Worker)
    | Cancel(generation: Generation)
    | PrepareEmpty(generation: Generation)
    | CompleteEmpty(generation: Generation)
    | MarkStale

  predicate OneProfile(chunks: seq<Chunk>) {
    forall i | 0 <= i < |chunks| ::
      chunks[i].profile == chunks[0].profile && chunks[i].model == chunks[0].model
      && chunks[i].dimensions == chunks[0].dimensions
  }

  /** Any two chunks have the same profile, model and number of dimensions. */
  lemma OneProfileMeans(chunks: seq<Chunk>)
    ensures OneProfile(chunks)
       <==> forall i, j | 0 <= i < |chunks| && 0 <= j < |chunks| ::
              && chunks[i].profile == chunks[j].profile && chunks[i].model == chunks[j].model
              && chunks[i].dimensions == chunks[j].dimensions
  {
  }

  function ProfileOf(chunks: seq<Chunk>): ExpectedProfile
    requires chunks != []
  {
    Full(chunks[0].model, chunks[0].dimensions, chunks[0].profile)
  }

  /** The worker has begun its generation, and nothing else happens with its rows before it is done. */
  predicate At(d: Document, w: Worker) {
    w in d.tasks && d.tasks[w].generation.Some?
  }

  function SetTask(d: Document, w: Worker, t: Task): Document {
    d.(tasks := d.tasks[w := t])
  }

  function DoRead(d: Document, w: Worker): Document {
    if w in d.tasks then d else SetTask(d, w, Task(d.active, None, [], None, false))
  }

  /** The chunks come from the provider; a generation begins only for chunks of one profile. */
  function DoBegin(embed: Provider, d: Document, w: Worker, g: Generation, chunks: seq<Chunk>): Document {
    if w !in d.tasks || d.tasks[w].generation.Some? || g in d.sources
       || chunks == [] || !OneProfile(chunks) || !ChunksOk(embed, chunks) then d
    else SetTask(d.(pending := Some(g), status := Processing, sources := d.sources[g := chunks]),
                 w, d.tasks[w].(generation := Some(g), chunks := chunks))
  }

  function DoFetch(d: Document, w: Worker): Document {
    if !At(d, w) || d.tasks[w].existing.Some? then d
    else
      var seen := d.tasks[w].seen;
      SetTask(d, w, d.tasks[w].(existing := Some(if seen.Some? then RowsOf(d, seen.value) else [])))
  }

  function DoInsert(d: Document, w: Worker): Document {
    if !At(d, w) || d.tasks[w].existing.None? || d.tasks[w].inserted then d
    else
      var t := d.tasks[w];
      SetTask(d.(rows := d.rows[t.generation.value := IncrementalRows(t.chunks, t.existing.value)]),
              w, t.(inserted := true))
  }

  /** A rejected activation leaves the worker to its failure handler. */
  function DoTryActivate(d: Document, w: Worker): Document {
    if !At(d, w) || !d.tasks[w].inserted || d.tasks[w].chunks == [] then d
    else
      var t := d.tasks[w];
      match Activate(d, t.generation.value, |t.chunks|, ProfileOf(t.chunks))
      case Activated(after) => after
      case _ => d
  }

  function DoGiveUp(d: Document, w: Worker): Document {
    if !At(d, w) then d
    else FailGeneration(d, d.tasks[w].generation.value).(tasks := d.tasks - {w})
  }

  /** The worker does not know of a generation: only the status of the document is set. */
  function DoFailEarly(d: Document, w: Worker): Document {
    if w !in d.tasks then d
    else d.(status := Failed, tasks := d.tasks - {w})
  }

  /** The queue pipeline finds nothing to embed in the document. */
  function DoPrepareEmpty(d: Document, g: Generation): Document {
    if g in d.sources then d
    else d.(pending := Some(g), status := Processing, sources := d.sources[g := []])
  }

  /** A generation without chunks is made active; the rows of all others are removed. */
  function DoCompleteEmpty(d: Document, g: Generation): Document {
    if g in d.cancelled || g !in d.sources || d.sources[g] != [] || d.pending != Some(g) then d
    else
      d.(active := Some(g), pending := None, profile := None, status := Ready,
         rows := map h | h in d.rows && h == g :: d.rows[h])
  }

  function Next(embed: Provider, d: Document, e: Event): Document {
    match e
    case Read(w) => DoRead(d, w)
    case Begin(w, g, chunks) => DoBegin(embed, d, w, g, chunks)
    case FailEarly(w) => DoFailEarly(d, w)
    case Fetch(w) => DoFetch(d, w)
    case Insert(w) => DoInsert(d, w)
    case TryActivate(w) => DoTryActivate(d, w)
    case GiveUp(w) => DoGiveUp(d, w)
    case Crash(w) => d.(tasks := d.tasks - {w})
    case Cancel(g) => d.(cancelled := d.cancelled + {g})
    case PrepareEmpty(g) => DoPrepareEmpty(d, g)
    case CompleteEmpty(g) => DoCompleteEmpty(d, g)
    case MarkStale => d.(status := Stale)
  }

  function Run(embed: Provider, d: Document, events: seq<Event>): Document
    decreases |events|
  {
    if events == [] then d
    else Next(embed, Run(embed, d, events[..|events| - 1]), events[|events| - 1])
  }

  // ---------------------------------------------------------------------
  // The invariant
  // ---------------------------------------------------------------------

  /** Search sees a row under these conditions only. */
  predicate Searchable(d: Document, g: Generation, r: Row) {
    && d.active.Some? && d.active.value == g
    && d.pending != Some(g)
    && r.isValid && r.dimensions == DIMENSIONS
    && d.profile.Some? && r.profile == d.profile.value
  }

  predicate SourceOk(embed: Provider, chunks: seq<Chunk>) {
    chunks != [] && OneProfile(chunks) && ChunksOk(embed, chunks)
  }

  predicate SourcesOk(embed: Provider, d: Document) {
    && (forall g | g in d.sources :: d.sources[g] == [] || SourceOk(embed, d.sources[g]))
    && (forall g | g in d.rows :: g in d.sources && d.sources[g] != [] && d.rows[g] == FullRows(d.sources[g]))
  }

  predicate TaskOk(embed: Provider, d: Document, t: Task) {
    && (t.existing.Some? ==> RowsOk(embed, t.existing.value))
    && (t.generation.None? ==> !t.inserted)
    && (t.generation.Some? ==>
          var g := t.generation.value;
          && g in d.sources && d.sources[g] == t.chunks && t.chunks != []
          && (t.inserted ==> t.existing.Some?)
          && (!t.inserted ==> g !in d.rows)
          && (t.inserted && d.pending == Some(g) ==> g in d.rows))
  }

  predicate TasksOk(embed: Provider, d: Document) {
    && (forall w | w in d.tasks :: TaskOk(embed, d, d.tasks[w]))
    && (forall v, w | v in d.tasks && w in d.tasks && v != w && d.tasks[v].generation.Some? ::
          d.tasks[v].generation != d.tasks[w].generation)
  }

  predicate HeadsOk(d: Document) {
    && (d.pending.Some? ==> d.pending.value in d.sources && d.pending != d.active)
    && (d.active.Some? ==>
          && d.active.value in d.sources
          && (d.sources[d.active.value] == [] ==> d.profile.None?)
          && (d.sources[d.active.value] != [] ==>
                && d.active.value in d.rows
                && d.profile.Some?
                && forall i | 0 <= i < |d.rows[d.active.value]| ::
                     Searchable(d, d.active.value, d.rows[d.active.value][i])))
  }

  predicate Inv(embed: Provider, d: Document) {
    SourcesOk(embed, d) && TasksOk(embed, d) && HeadsOk(d)
  }

  lemma InsertKeeps(embed: Provider, d: Document, w: Worker)
    requires Inv(embed, d)
    ensures Inv(embed, DoInsert(d, w))
  {
    hide IncrementalRows, FullRows, SourceOk, RowsOk;
    if At(d, w) && d.tasks[w].existing.Some? && !d.tasks[w].inserted {
      var t := d.tasks[w];
      assert TaskOk(embed, d, t) && SourceOk(embed, d.sources[t.generation.value]);
      InsertedRows(embed, t.chunks, t.existing.value);
    }
  }

  lemma InsertedRows(embed: Provider, chunks: seq<Chunk>, existing: seq<Row>)
    requires SourceOk(embed, chunks) && RowsOk(embed, existing)
    ensures IncrementalRows(chunks, existing) == FullRows(chunks)
  {
    IncrementalIsFull(embed, chunks, existing);
  }

  lemma FetchKeeps(embed: Provider, d: Document, w: Worker)
    requires Inv(embed, d)
    ensures Inv(embed, DoFetch(d, w))
  {
    hide FullRows, SourceOk, RowsOk;
    if At(d, w) && d.tasks[w].existing.None? {
      var seen := d.tasks[w].seen;
      NoRows(embed);
      if seen.Some? && seen.value in d.rows {
        StoredRows(embed, d, seen.value);
      }
    }
  }

  lemma NoRows(embed: Provider)
    ensures RowsOk(embed, [])
  {
  }

  lemma StoredRows(embed: Provider, d: Document, g: Generation)
    requires SourcesOk(embed, d) && g in d.rows
    ensures RowsOk(embed, d.rows[g])
  {
    FullRowsOk(embed, d.sources[g]);
  }

  lemma BeginKeeps(embed: Provider, d: Document, w: Worker, g: Generation, chunks: seq<Chunk>)
    requires Inv(embed, d)
    ensures Inv(embed, DoBegin(embed, d, w, g, chunks))
  {
    hide FullRows, RowsOk, OneProfile, ChunksOk;
  }

  lemma GiveUpKeepsTasks(embed: Provider, d: Document, w: Worker)
    requires Inv(embed, d)
    ensures TasksOk(embed, DoGiveUp(d, w))
  {
    hide FullRows, RowsOk, SourceOk;
  }

  lemma GiveUpKeeps(embed: Provider, d: Document, w: Worker)
    requires Inv(embed, d)
    ensures Inv(embed, DoGiveUp(d, w))
  {
    GiveUpKeepsTasks(embed, d, w);
    hide FullRows, RowsOk, SourceOk, TasksOk;
  }

  lemma ActivateKeeps(embed: Provider, d: Document, w: Worker)
    requires Inv(embed, d)
    ensures Inv(embed, DoTryActivate(d, w))
  {
    hide FullRows, RowsOk, SourceOk;
  }

  lemma OtherKeeps(embed: Provider, d: Document, e: Event)
    requires Inv(embed, d) && (e.Read? || e.FailEarly? || e.Crash? || e.Cancel? || e.MarkStale?)
    ensures Inv(embed, Next(embed, d, e))
  {
    hide FullRows, RowsOk, SourceOk;
  }

  lemma EmptyKeeps(embed: Provider, d: Document, e: Event)
    requires Inv(embed, d) && (e.PrepareEmpty? || e.CompleteEmpty?)
    ensures Inv(embed, Next(embed, d, e))
  {
    hide FullRows, RowsOk, SourceOk;
  }

  lemma NextKeeps(embed: Provider, d: Document, e: Event)
    requires Inv(embed, d)
    ensures Inv(embed, Next(embed, d, e))
  {
    hide Inv, DoInsert, DoFetch, DoBegin, DoGiveUp, DoTryActivate;
    match e
    case Begin(w, g, chunks) => BeginKeeps(embed, d, w, g, chunks);
    case Fetch(w) => FetchKeeps(embed, d, w);
    case Insert(w) => InsertKeeps(embed, d, w);
    case TryActivate(w) => ActivateKeeps(embed, d, w);
    case GiveUp(w) => GiveUpKeeps(embed, d, w);
    case PrepareEmpty(_) => EmptyKeeps(embed, d, e);
    case CompleteEmpty(_) => EmptyKeeps(embed, d, e);
    case _ => OtherKeeps(embed, d, e);
  }

  lemma {:induction false} RunKeeps(embed: Provider, d: Document, events: seq<Event>)
    requires Inv(embed, d)
    ensures Inv(embed, Run(embed, d, events))
  {
    hide Inv, Next;
    if events != [] {
      RunKeeps(embed, d, events[..|events| - 1]);
      NextKeeps(embed, Run(embed, d, events[..|events| - 1]), events[|events| - 1]);
    }
  }

  // ---------------------------------------------------------------------
  // What every run guarantees
  // ---------------------------------------------------------------------

  lemma Reachable(embed: Provider, events: seq<Event>)
    ensures Inv(embed, Run(embed, NEW, events))
  {
    RunKeeps(embed, NEW, events);
  }

  /** Event `i` makes the generation active for a document without chunks. */
  ghost predicate ActivatedEmpty(embed: Provider, events: seq<Event>, g: Generation, i: nat) {
    && i < |events| && events[i] == CompleteEmpty(g)
    && Run(embed, NEW, events[..i]).active != Some(g) && Run(embed, NEW, events[..i + 1]).active == Some(g)
  }

  /**
   * All rows of an active generation are searchable, and they are those of a full embedding. There are
   * none exactly when the pipeline made the generation active for a document without chunks.
   */
  lemma ActiveIsSearchable(embed: Provider, events: seq<Event>)
    requires Run(embed, NEW, events).active.Some?
    ensures var d := Run(embed, NEW, events);
            var g := d.active.value;
            && g in d.sources && RowsOf(d, g) == FullRows(d.sources[g])
            && (forall i | 0 <= i < |RowsOf(d, g)| :: Searchable(d, g, RowsOf(d, g)[i]))
            && (RowsOf(d, g) == [] <==> exists i: nat :: ActivatedEmpty(embed, events, g, i))
  {
    hide FullRows, ActivatedEmpty;
    Reachable(embed, events);
    var d := Run(embed, NEW, events);
    var g := d.active.value;
    FullLength(d.sources[g]);
    if d.sources[g] == [] {
      EmptyActivation(embed, events, g);
    } else if i: nat :| ActivatedEmpty(embed, events, g, i) {
      ActivatedForNothing(embed, events, g, i);
    }
  }

  /** A worker that has read the document compares with the rows of the generation that was active then. */
  lemma FetchMeans(embed: Provider, d: Document, w: Worker)
    requires At(d, w) && d.tasks[w].existing.None?
    ensures var e, seen := Next(embed, d, Fetch(w)), d.tasks[w].seen;
            && w in e.tasks && e.tasks[w].existing.Some?
            && (seen.Some? && seen.value in d.rows ==> e.tasks[w].existing.value == d.rows[seen.value])
            && (seen.None? || seen.value !in d.rows ==> e.tasks[w].existing.value == [])
  {
  }

  /** A pending generation without chunks becomes active unless it was cancelled, and no rows are left. */
  lemma CompleteEmptyMeans(embed: Provider, events: seq<Event>, g: Generation)
    requires var d := Run(embed, NEW, events); g in d.sources && d.sources[g] == [] && d.pending == Some(g)
    ensures var d := Run(embed, NEW, events);
            var e := Next(embed, d, CompleteEmpty(g));
            if g in d.cancelled then e == d
            else e.active == Some(g) && e.pending.None? && e.profile.None? && e.status == Ready && e.rows == map[]
  {
    Reachable(embed, events);
  }

  lemma SourceStays(embed: Provider, d: Document, e: Event, g: Generation)
    requires g in d.sources
    ensures g in Next(embed, d, e).sources && Next(embed, d, e).sources[g] == d.sources[g]
  {
    hide IncrementalRows;
  }

  lemma {:induction false} SourceKept(embed: Provider, events: seq<Event>, i: nat, g: Generation)
    requires i <= |events| && g in Run(embed, NEW, events[..i]).sources
    ensures var d := Run(embed, NEW, events);
            g in d.sources && d.sources[g] == Run(embed, NEW, events[..i]).sources[g]
    decreases |events|
  {
    hide Next;
    if i == |events| {
      assert events[..i] == events;
    } else {
      var most := events[..|events| - 1];
      assert most[..i] == events[..i];
      SourceKept(embed, most, i, g);
      SourceStays(embed, Run(embed, NEW, most), events[|events| - 1], g);
    }
  }

  lemma ActivatedForNothing(embed: Provider, events: seq<Event>, g: Generation, i: nat)
    requires ActivatedEmpty(embed, events, g, i)
    ensures g in Run(embed, NEW, events).sources && Run(embed, NEW, events).sources[g] == []
  {
    assert events[..i + 1][..i] == events[..i];
    SourceKept(embed, events, i, g);
  }

  /** What makes another generation active. */
  lemma ActivatedBy(embed: Provider, d: Document, e: Event, g: Generation)
    requires Inv(embed, d) && Next(embed, d, e).active == Some(g) && d.active != Some(g)
    requires g in d.sources && d.sources[g] == []
    ensures e == CompleteEmpty(g)
  {
    hide IncrementalRows, FullRows, SourceOk, RowsOk;
  }

  lemma ActiveWasKnown(embed: Provider, d: Document, e: Event, g: Generation)
    requires Inv(embed, d) && Next(embed, d, e).active == Some(g)
    ensures g in d.sources
  {
    hide IncrementalRows, FullRows, SourceOk, RowsOk;
  }

  lemma {:induction false} EmptyActivation(embed: Provider, events: seq<Event>, g: Generation)
    requires var d := Run(embed, NEW, events); d.active == Some(g) && g in d.sources && d.sources[g] == []
    ensures exists i: nat :: ActivatedEmpty(embed, events, g, i)
    decreases |events|
  {
    hide Inv, Next;
    var n := |events| - 1;
    var most := events[..n];
    var before := Run(embed, NEW, most);
    Reachable(embed, most);
    ActiveWasKnown(embed, before, events[n], g);
    SourceStays(embed, before, events[n], g);
    if before.active == Some(g) {
      EmptyActivation(embed, most, g);
      var i: nat :| ActivatedEmpty(embed, most, g, i);
      assert most[..i] == events[..i] && most[..i + 1] == events[..i + 1];
      assert ActivatedEmpty(embed, events, g, i);
    } else {
      ActivatedBy(embed, before, events[n], g);
      assert events[..n + 1] == events;
      assert ActivatedEmpty(embed, events, g, n);
    }
  }

  lemma FullLength(chunks: seq<Chunk>)
    ensures |FullRows(chunks)| == |chunks|
  {
  }

  /** A worker that has inserted its rows can activate them exactly while they are pending and not cancelled. */
  lemma ActivationExactly(embed: Provider, events: seq<Event>, w: Worker)
    requires var d := Run(embed, NEW, events); At(d, w) && d.tasks[w].inserted
    ensures var d := Run(embed, NEW, events);
            var t := d.tasks[w];
            var g := t.generation.value;
            && t.chunks != []
            && (Activate(d, g, |t.chunks|, ProfileOf(t.chunks)).Activated?
                <==> d.pending == Some(g) && g !in d.cancelled)
  {
    hide FullRows;
    Reachable(embed, events);
    var d := Run(embed, NEW, events);
    var t := d.tasks[w];
    assert TaskOk(embed, d, t) && SourceOk(embed, t.chunks);
    if d.pending == Some(t.generation.value) {
      FullRowsAgree(embed, t.chunks);
    }
  }

  lemma FullRowsAgree(embed: Provider, chunks: seq<Chunk>)
    requires SourceOk(embed, chunks)
    ensures |FullRows(chunks)| == |chunks|
    ensures ProfileAgrees(FullRows(chunks), chunks[0].model, chunks[0].profile)
    ensures chunks[0].profile != "" && chunks[0].dimensions == DIMENSIONS
  {
    forall i | 0 <= i < |chunks| ensures FullRows(chunks)[i].isValid {
      AcceptedIsValid(chunks[i].embedding);
    }
    assert |chunks[0].profile| > 0;
  }

  /** The generation has lost its place: it is neither pending nor active. */
  predicate Superseded(d: Document, g: Generation) {
    g in d.sources && d.pending != Some(g) && d.active != Some(g)
  }

  lemma SupersededStep(embed: Provider, d: Document, e: Event, g: Generation)
    requires Inv(embed, d) && Superseded(d, g)
    ensures Superseded(Next(embed, d, e), g)
  {
    hide FullRows, SourceOk, RowsOk;
  }

  /** A superseded generation never becomes active. */
  lemma {:induction false} SupersededForGood(embed: Provider, events: seq<Event>, more: seq<Event>, g: Generation)
    requires Superseded(Run(embed, NEW, events), g)
    ensures Superseded(Run(embed, NEW, events + more), g)
  {
    hide Inv, Next, Superseded;
    if more == [] {
      assert events + more == events;
    } else {
      var most := more[..|more| - 1];
      SupersededForGood(embed, events, most, g);
      Reachable(embed, events + most);
      SupersededStep(embed, Run(embed, NEW, events + most), more[|more| - 1], g);
      assert (events + more)[..|events + more| - 1] == events + most;
    }
  }

  /** What search and other workers see of the document, but for the status shown to users. */
  predicate SameState(d: Document, e: Document) {
    && d.active == e.active && d.pending == e.pending && d.profile == e.profile
    && (d.active.Some? ==> RowsOf(d, d.active.value) == RowsOf(e, e.active.value))
  }

  predicate IsBy(e: Event, w: Worker) {
    match e
    case Cancel(_) => false
    case PrepareEmpty(_) => false
    case CompleteEmpty(_) => false
    case MarkStale => false
    case _ => e.w == w
  }

  /**
   * Nothing that the worker of a superseded generation still does changes the active or the pending
   * generation, the profile or the active rows. The status changes only when the worker, whose begin
   * took effect but lost its answer, takes itself for one without a generation.
   */
  lemma SupersededWorkerIsHarmless(embed: Provider, events: seq<Event>, w: Worker, e: Event)
    requires var d := Run(embed, NEW, events); At(d, w) && Superseded(d, d.tasks[w].generation.value)
    requires IsBy(e, w)
    ensures var d := Run(embed, NEW, events);
            var after := Next(embed, d, e);
            && SameState(d, after)
            && (after.status != d.status <==> e == FailEarly(w) && d.status != Failed)
  {
    Reachable(embed, events);
    hide Run;
    Harmless(embed, Run(embed, NEW, events), w, e);
  }

  lemma Harmless(embed: Provider, d: Document, w: Worker, e: Event)
    requires Inv(embed, d) && At(d, w) && Superseded(d, d.tasks[w].generation.value)
    requires IsBy(e, w)
    ensures SameState(d, Next(embed, d, e))
    ensures Next(embed, d, e).status != d.status <==> e == FailEarly(w) && d.status != Failed
  {
    hide FullRows, IncrementalRows, SourceOk, RowsOk;
  }

  // ---------------------------------------------------------------------
  // The table of transitions
  // ---------------------------------------------------------------------

  function Transitions(from: Status): set<Status> {
    match from
    case Pending => {Processing}
    case Processing => {Ready, Failed}
    case Ready => {Stale, Processing}
    case Failed => {Processing}
    case Stale => {Processing}
  }

  predicate CanTransition(from: Status, to: Status) {
    to in Transitions(from)
  }

  /** The event writes the status of the document. */
  predicate Writes(embed: Provider, d: Document, e: Event) {
    match e
    case Begin(_, g, _) => g !in d.sources && g in Next(embed, d, e).sources
    case PrepareEmpty(g) => g !in d.sources
    case TryActivate(_) => Next(embed, d, e).active != d.active
    case CompleteEmpty(_) => Next(embed, d, e).active != d.active
    case GiveUp(w) => At(d, w) && d.pending == d.tasks[w].generation && d.active != d.pending
    case FailEarly(w) => w in d.tasks
    case MarkStale => true
    case _ => false
  }

  /** The status from which the table permits the write. */
  predicate Permitted(e: Event, from: Status) {
    match e
    case Begin(_, _, _) => from != Processing
    case PrepareEmpty(_) => from != Processing
    case MarkStale => from == Ready
    case _ => from == Processing
  }

  /** Each writer respects the table exactly from these statuses; nothing else changes the status. */
  lemma PermittedExactly(embed: Provider, events: seq<Event>, e: Event)
    ensures var d := Run(embed, NEW, events);
            var after := Next(embed, d, e);
            if Writes(embed, d, e) then CanTransition(d.status, after.status) <==> Permitted(e, d.status)
            else after.status == d.status
  {
    Reachable(embed, events);
    hide Run, FullRows, IncrementalRows, SourceOk, RowsOk, Transitions;
    var d := Run(embed, NEW, events);
    StatusWritten(embed, d, e);
    TransitionsAre();
  }

  lemma TransitionsAre()
    ensures forall s :: CanTransition(s, Processing) <==> s != Processing
    ensures forall s :: CanTransition(s, Ready) <==> s == Processing
    ensures forall s :: CanTransition(s, Failed) <==> s == Processing
    ensures forall s :: CanTransition(s, Stale) <==> s == Ready
  {
  }

  lemma StatusWritten(embed: Provider, d: Document, e: Event)
    requires Inv(embed, d)
    ensures var after := Next(embed, d, e);
            if !Writes(embed, d, e) then after.status == d.status
            else match e
              case Begin(_, _, _) => after.status == Processing
              case PrepareEmpty(_) => after.status == Processing
              case MarkStale => after.status == Stale
              case FailEarly(_) => after.status == Failed
              case GiveUp(_) => after.status == if d.active.Some? then Ready else Failed
              case _ => after.status == Ready
  {
    hide FullRows, IncrementalRows, SourceOk, RowsOk;
  }

  ghost predicate Reached(embed: Provider, d: Document) {
    exists events: seq<Event> :: Run(embed, NEW, events) == d
  }

  lemma ReachedNext(embed: Provider, d: Document, e: Event)
    requires Reached(embed, d)
    ensures Reached(embed, Next(embed, d, e))
  {
    hide Next;
    var events :| Run(embed, NEW, events) == d;
    assert (events + [e])[..|events|] == events;
    assert Run(embed, NEW, events + [e]) == Next(embed, d, e);
  }

  lemma ReachedStart(embed: Provider)
    ensures Reached(embed, NEW)
  {
    assert Run(embed, NEW, []) == NEW;
  }

  /** In some run the event writes a status that the table forbids. */
  ghost predicate Breaks(embed: Provider, e: Event) {
    exists d :: Reached(embed, d) && Writes(embed, d, e) && !Permitted(e, d.status)
  }

  lemma BrokenAt(embed: Provider, d: Document, e: Event)
    requires Reached(embed, d) && Writes(embed, d, e) && !Permitted(e, d.status)
    ensures Breaks(embed, e)
  {
  }

  /** No writer checks the table: every one of them breaks it in some run. */
  lemma TableIsNotEnforced(embed: Provider, w: Worker, g: Generation, chunks: seq<Chunk>)
    requires SourceOk(embed, chunks)
    ensures Breaks(embed, Begin(w, g, chunks)) && Breaks(embed, TryActivate(w)) && Breaks(embed, GiveUp(w))
    ensures Breaks(embed, FailEarly(w)) && Breaks(embed, PrepareEmpty(g)) && Breaks(embed, CompleteEmpty(g))
    ensures Breaks(embed, MarkStale)
  {
    BrokenBySingle(embed, w, g);
    BrokenByBegin(embed, w, g, chunks);
    BrokenByBuild(embed, w, g, chunks);
  }

  lemma BrokenBySingle(embed: Provider, w: Worker, g: Generation)
    ensures Breaks(embed, FailEarly(w)) && Breaks(embed, MarkStale)
    ensures Breaks(embed, PrepareEmpty(g)) && Breaks(embed, CompleteEmpty(g))
  {
    hide Reached, Breaks;
    ReachedStart(embed);
    BrokenAt(embed, NEW, MarkStale);
    ReachedNext(embed, NEW, Read(w));
    BrokenAt(embed, Next(embed, NEW, Read(w)), FailEarly(w));
    ReachedNext(embed, NEW, PrepareEmpty(g + 1));
    BrokenAt(embed, Next(embed, NEW, PrepareEmpty(g + 1)), PrepareEmpty(g));
    ReachedNext(embed, NEW, PrepareEmpty(g));
    var prepared := Next(embed, NEW, PrepareEmpty(g));
    ReachedNext(embed, prepared, MarkStale);
    BrokenAt(embed, Next(embed, prepared, MarkStale), CompleteEmpty(g));
  }

  lemma BrokenByBegin(embed: Provider, w: Worker, g: Generation, chunks: seq<Chunk>)
    requires SourceOk(embed, chunks)
    ensures Breaks(embed, Begin(w, g, chunks))
  {
    hide Reached, Breaks, OneProfile, ChunksOk;
    ReachedStart(embed);
    ReachedNext(embed, NEW, PrepareEmpty(g + 1));
    var busy := Next(embed, NEW, PrepareEmpty(g + 1));
    ReachedNext(embed, busy, Read(w));
    BrokenAt(embed, Next(embed, busy, Read(w)), Begin(w, g, chunks));
  }

  /** The document becomes stale while its generation is built. */
  lemma BrokenByBuild(embed: Provider, w: Worker, g: Generation, chunks: seq<Chunk>)
    requires SourceOk(embed, chunks)
    ensures Breaks(embed, GiveUp(w)) && Breaks(embed, TryActivate(w))
  {
    hide Reached, Breaks, OneProfile, ChunksOk, ProfileAgrees, FullRows, IncrementalRows;
    ReachedStart(embed);
    ReachedNext(embed, NEW, Read(w));
    var read := Next(embed, NEW, Read(w));
    ReachedNext(embed, read, Begin(w, g, chunks));
    var begun := Next(embed, read, Begin(w, g, chunks));
    ReachedNext(embed, begun, MarkStale);
    BrokenAt(embed, Next(embed, begun, MarkStale), GiveUp(w));
    ReachedNext(embed, begun, Fetch(w));
    var fetched := Next(embed, begun, Fetch(w));
    ReachedNext(embed, fetched, Insert(w));
    var inserted := Next(embed, fetched, Insert(w));
    ReachedNext(embed, inserted, MarkStale);
    var stale := Next(embed, inserted, MarkStale);
    NoRows(embed);
    InsertedRows(embed, chunks, []);
    FullRowsAgree(embed, chunks);
    assert RowsOf(stale, g) == FullRows(chunks);
    BrokenAt(embed, stale, TryActivate(w));
  }

  /** A document whose active generation is ready is marked as failed by a worker that has lost its place. */
  lemma FailedThoughReady(embed: Provider, w: Worker, g: Generation, chunks: seq<Chunk>)
    requires SourceOk(embed, chunks)
    ensures exists d ::
              && Reached(embed, d) && At(d, w) && Superseded(d, d.tasks[w].generation.value)
              && d.active.Some? && d.status == Ready && Next(embed, d, FailEarly(w)).status == Failed
  {
    hide Reached, OneProfile, ChunksOk;
    ReachedStart(embed);
    ReachedNext(embed, NEW, Read(w));
    var read := Next(embed, NEW, Read(w));
    ReachedNext(embed, read, Begin(w, g, chunks));
    var begun := Next(embed, read, Begin(w, g, chunks));
    ReachedNext(embed, begun, PrepareEmpty(g + 1));
    var prepared := Next(embed, begun, PrepareEmpty(g + 1));
    ReachedNext(embed, prepared, CompleteEmpty(g + 1));
    var ready := Next(embed, prepared, CompleteEmpty(g + 1));
    assert At(ready, w) && Superseded(ready, ready.tasks[w].generation.value) && ready.status == Ready;
  }
}
