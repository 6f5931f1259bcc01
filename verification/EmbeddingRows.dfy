/**
 * Which vectors of the active generation a new generation takes over, and which rows it writes.
 *
 * The chunk hash is taken to be free of collisions, the provider to be deterministic for a model
 * and a text, and vector components to be real numbers or not finite.
 */
module EmbeddingRows {
  import opened Wrappers

  const DIMENSIONS := 1024

  datatype Component = Finite(value: real) | NonFinite

  type Vector = seq<Component>

  datatype Hash = Digest(text: string)

  type Provider = (string, string) -> Vector

  /** What the provider returned for one chunk of the document. */
  datatype Chunk = Chunk(
    text: string, embedding: Vector, charStart: nat, charEnd: nat,
    model: string, profile: string, dimensions: nat)

  /** A row of the table of embeddings, without its document and generation. */
  datatype Row = Row(
    index: nat, text: string, hash: Option<Hash>, embedding: Option<Vector>, charStart: nat, charEnd: nat,
    model: string, profile: string, dimensions: nat, isValid: bool)

  function ProfileId(model: string): string {
    model + ":1024:v1"
  }

  predicate AllFinite(v: Vector) {
    forall i | 0 <= i < |v| :: v[i].Finite?
  }

  predicate AllZero(v: Vector) {
    forall i | 0 <= i < |v| :: v[i] == Finite(0.0)
  }

  /** The validity that is stored with a row. */
  predicate ValidVector(v: Vector) {
    |v| == DIMENSIONS && AllFinite(v) && !AllZero(v)
  }

  function Product(x: real, y: real): real {
    x * y
  }

  lemma ProductOfPositives(x: real, y: real)
    requires x > 0.0 && y > 0.0
    ensures Product(x, y) > 0.0
  {
  }

  lemma ProductOfNegatives(x: real, y: real)
    requires x < 0.0 && y < 0.0
    ensures Product(x, y) > 0.0
  {
    ProductOfPositives(-x, -y);
  }

  lemma SquareMeans(x: real)
    ensures Product(x, x) >= 0.0 && (Product(x, x) > 0.0 <==> x != 0.0)
  {
    if x > 0.0 {
      ProductOfPositives(x, x);
    } else if x < 0.0 {
      ProductOfNegatives(x, x);
    } else {
      ProductWithZero(x, x);
    }
  }

  lemma ProductWithZero(x: real, y: real)
    requires x == 0.0
    ensures Product(x, y) == 0.0
  {
  }

  function SumOfSquares(v: Vector): real
    requires AllFinite(v)
  {
    if v == [] then 0.0 else Product(v[0].value, v[0].value) + SumOfSquares(v[1..])
  }

  /** The norm has to exceed 1e-9, so its square has to exceed 1e-18. */
  const EPSILON_SQUARED := 0.000000000000000001

  /** The check that every vector from a provider has passed. */
  predicate Accepted(v: Vector) {
    |v| == DIMENSIONS && AllFinite(v) && SumOfSquares(v) > EPSILON_SQUARED
  }

  lemma {:induction false} ZeroSum(v: Vector)
    requires AllZero(v)
    ensures AllFinite(v) && SumOfSquares(v) == 0.0
  {
    if v != [] {
      ZeroSum(v[1..]);
    }
  }

  /** A finite vector of 1024 components whose norm exceeds 1e-9 is accepted, and only such a vector. */
  lemma AcceptedIsValid(v: Vector)
    ensures Accepted(v) <==> |v| == 1024 && AllFinite(v) && SumOfSquares(v) > 0.000000000000000001
    ensures ValidVector(v) <==> |v| == 1024 && AllFinite(v) && exists i :: 0 <= i < |v| && v[i] != Finite(0.0)
    ensures Accepted(v) ==> ValidVector(v)
  {
    if AllZero(v) {
      ZeroSum(v);
    }
  }

  /** The sum is positive exactly when some component is not zero, and at least the square of each component. */
  lemma {:induction false} SumMeans(v: Vector)
    requires AllFinite(v)
    ensures SumOfSquares(v) >= 0.0 && (SumOfSquares(v) > 0.0 <==> !AllZero(v))
    ensures forall i | 0 <= i < |v| :: Product(v[i].value, v[i].value) <= SumOfSquares(v)
  {
    if v == [] {
      assert AllZero(v) && SumOfSquares(v) == 0.0;
    } else {
      var rest := v[1..];
      SumMeans(rest);
      ZeroHead(v);
      SquareMeans(v[0].value);
      hide Product;
      forall i | 0 <= i < |v| ensures Product(v[i].value, v[i].value) <= SumOfSquares(v) {
        assert i > 0 ==> rest[i - 1] == v[i];
      }
    }
  }

  lemma ZeroHead(v: Vector)
    requires v != [] && AllFinite(v)
    ensures AllZero(v) <==> v[0].value == 0.0 && AllZero(v[1..])
  {
    if v[0].value == 0.0 && AllZero(v[1..]) {
      forall i | 0 <= i < |v| ensures v[i] == Finite(0.0) {
        assert i > 0 ==> v[1..][i - 1] == v[i];
      }
    }
  }

  // ---------------------------------------------------------------------
  // Reuse
  // ---------------------------------------------------------------------

  predicate NeedsRefresh(stored: Option<Row>, hash: Hash, model: string, profile: Option<string>) {
    || stored.None?
    || stored.value.hash != Some(hash)
    || stored.value.model != model
    || (profile.Some? && stored.value.profile != profile.value)
    || stored.value.dimensions != DIMENSIONS
    || !stored.value.isValid
    || stored.value.embedding.None?
    || |stored.value.embedding.value| == 0
    || !AllFinite(stored.value.embedding.value)
    || AllZero(stored.value.embedding.value)
  }

  /** The row that is stored for a chunk index; the unique index allows one. */
  function StoredAt(existing: seq<Row>, index: nat): Option<Row> {
    if existing == [] then None
    else if existing[|existing| - 1].index == index then Some(existing[|existing| - 1])
    else StoredAt(existing[..|existing| - 1], index)
  }

  predicate Changed(chunks: seq<Chunk>, existing: seq<Row>, i: nat) {
    && i < |chunks|
    && NeedsRefresh(StoredAt(existing, i), Digest(chunks[i].text), chunks[i].model, Some(chunks[i].profile))
  }

  /** A chunk is embedded afresh when it or a neighbour has changed. */
  predicate Affected(chunks: seq<Chunk>, existing: seq<Row>, i: nat) {
    && i < |chunks|
    && (Changed(chunks, existing, i) || Changed(chunks, existing, i + 1) || (0 < i && Changed(chunks, existing, i - 1)))
  }

  function BuildRow(chunk: Chunk, index: nat, stored: Option<Row>, refresh: bool): Row {
    var keep := !refresh && stored.Some?;
    var vector := if keep && stored.value.embedding.Some? then stored.value.embedding.value else chunk.embedding;
    Row(index, chunk.text, Some(Digest(chunk.text)), Some(vector), chunk.charStart, chunk.charEnd,
        if keep && stored.value.model != "" then stored.value.model else chunk.model,
        if keep && stored.value.profile != "" then stored.value.profile else chunk.profile,
        if keep && stored.value.dimensions != 0 then stored.value.dimensions else chunk.dimensions,
        ValidVector(vector))
  }

  /** What is not embedded afresh has a usable vector of the same text, model and profile. */
  lemma ReusedIsUsable(chunks: seq<Chunk>, existing: seq<Row>, i: nat)
    requires i < |chunks| && !Affected(chunks, existing, i)
    ensures exists r: Row :: r in existing && r.index == i && r.hash == Some(Digest(chunks[i].text))
              && r.model == chunks[i].model && r.profile == chunks[i].profile && r.dimensions == 1024 && r.isValid
              && r.embedding.Some? && r.embedding.value != []
              && (forall j | 0 <= j < |r.embedding.value| :: r.embedding.value[j].Finite?)
              && exists j :: 0 <= j < |r.embedding.value| && r.embedding.value[j] != Finite(0.0)
  {
    StoredAtIsARow(existing, i);
    var stored := StoredAt(existing, i).value;
    assert stored in existing;
  }

  /** The rows of a generation that reuses what it can. */
  function IncrementalRows(chunks: seq<Chunk>, existing: seq<Row>): seq<Row> {
    seq(|chunks|, (i: nat) requires i < |chunks| =>
          BuildRow(chunks[i], i, StoredAt(existing, i), Affected(chunks, existing, i)))
  }

  /** The rows of a generation that embeds every chunk afresh. */
  function FullRows(chunks: seq<Chunk>): seq<Row> {
    seq(|chunks|, (i: nat) requires i < |chunks| =>
          Row(i, chunks[i].text, Some(Digest(chunks[i].text)), Some(chunks[i].embedding),
              chunks[i].charStart, chunks[i].charEnd, chunks[i].model, chunks[i].profile, chunks[i].dimensions,
              ValidVector(chunks[i].embedding)))
  }

  method ChangedIndices(chunks: seq<Chunk>, existing: seq<Row>) returns (changed: set<nat>)
    ensures forall i: nat :: i in changed <==> Changed(chunks, existing, i)
  {
    hide NeedsRefresh, StoredAt;
    changed := {};
    for i := 0 to |chunks|
      invariant forall j: nat :: j in changed <==> j < i && Changed(chunks, existing, j)
    {
      if NeedsRefresh(StoredAt(existing, i), Digest(chunks[i].text), chunks[i].model, Some(chunks[i].profile)) {
        changed := changed + {i};
      }
    }
  }

  ghost predicate AllNear(affected: set<nat>, changed: set<nat>, count: nat) {
    forall i: nat :: i in affected <==> i < count && Near(changed, i)
  }

  lemma AllNearStart(count: nat)
    ensures AllNear({}, {}, count)
  {
    NearNone();
  }

  lemma AllNearMore(affected: set<nat>, changed: set<nat>, count: nat, index: nat, more: set<nat>)
    requires AllNear(affected, changed, count) && index < count
    requires more == affected + {index} + (if 0 < index then {index - 1} else {})
                     + (if index + 1 < count then {index + 1} else {})
    ensures AllNear(more, changed + {index}, count)
  {
    NearAdd(changed, index);
    hide Near;
  }

  /** The indices and their neighbours among the first `count`. */
  method WithNeighbours(changed: set<nat>, count: nat) returns (affected: set<nat>)
    requires forall i | i in changed :: i < count
    ensures forall i: nat :: i in affected <==> i < count && Near(changed, i)
  {
    hide Near, AllNear;
    affected := {};
    var rest := changed;
    AllNearStart(count);
    assert changed - rest == {};
    while rest != {}
      invariant rest <= changed && AllNear(affected, changed - rest, count)
      decreases rest
    {
      var index: nat :| index in rest;
      ghost var before := affected;
      affected := affected + {index};
      if 0 < index {
        affected := affected + {index - 1};
      }
      if index + 1 < count {
        affected := affected + {index + 1};
      }
      AllNearMore(before, changed - rest, count, index, affected);
      assert changed - (rest - {index}) == (changed - rest) + {index};
      rest := rest - {index};
    }
    assert changed - rest == changed;
    AllNearIs(affected, changed, count);
  }

  lemma AllNearIs(affected: set<nat>, changed: set<nat>, count: nat)
    requires AllNear(affected, changed, count)
    ensures forall i: nat :: i in affected <==> i < count && Near(changed, i)
  {
  }

  /** The rows that the worker writes for the chunks of a document. */
  method ComputeRows(chunks: seq<Chunk>, existing: seq<Row>) returns (rows: seq<Row>)
    ensures rows == IncrementalRows(chunks, existing)
  {
    hide NeedsRefresh, StoredAt, BuildRow;
    var changed := ChangedIndices(chunks, existing);
    var affected := WithNeighbours(changed, |chunks|);
    rows := [];
    for i := 0 to |chunks|
      invariant |rows| == i
      invariant forall j | 0 <= j < i ::
          rows[j] == BuildRow(chunks[j], j, StoredAt(existing, j), Affected(chunks, existing, j))
    {
      rows := rows + [BuildRow(chunks[i], i, StoredAt(existing, i), i in affected)];
    }
  }

  predicate Near(s: set<nat>, i: nat) {
    i in s || i + 1 in s || (0 < i && i - 1 in s)
  }

  lemma NearNone()
    ensures forall i: nat :: !Near({}, i)
  {
  }

  lemma NearAdd(s: set<nat>, index: nat)
    ensures forall i: nat :: Near(s + {index}, i) <==> Near(s, i) || i == index || i + 1 == index || i == index + 1
  {
  }

  // ---------------------------------------------------------------------
  // Reusing vectors does not change the rows
  // ---------------------------------------------------------------------

  /** The provider's promise for one chunk. */
  predicate ChunkOk(embed: Provider, c: Chunk) {
    && c.embedding == embed(c.model, c.text)
    && Accepted(c.embedding)
    && c.profile == ProfileId(c.model)
    && c.dimensions == DIMENSIONS
  }

  predicate ChunksOk(embed: Provider, chunks: seq<Chunk>) {
    forall i | 0 <= i < |chunks| :: ChunkOk(embed, chunks[i])
  }

  /** A stored vector that counts as valid is the one the provider returns for the stored text. */
  predicate RowOk(embed: Provider, r: Row) {
    r.isValid && r.hash.Some? && r.embedding.Some? ==> r.embedding.value == embed(r.model, r.hash.value.text)
  }

  predicate RowsOk(embed: Provider, rows: seq<Row>) {
    forall i | 0 <= i < |rows| :: RowOk(embed, rows[i])
  }

  lemma {:induction false} StoredAtIsARow(existing: seq<Row>, index: nat)
    ensures StoredAt(existing, index).Some? ==>
              StoredAt(existing, index).value in existing && StoredAt(existing, index).value.index == index
  {
    if existing != [] && existing[|existing| - 1].index != index {
      StoredAtIsARow(existing[..|existing| - 1], index);
    }
  }

  lemma RowUnchanged(embed: Provider, chunks: seq<Chunk>, existing: seq<Row>, i: nat)
    requires i < |chunks| && ChunksOk(embed, chunks) && RowsOk(embed, existing)
    ensures IncrementalRows(chunks, existing)[i] == FullRows(chunks)[i]
  {
    StoredAtIsARow(existing, i);
    if !Affected(chunks, existing, i) {
      var stored := StoredAt(existing, i).value;
      assert RowOk(embed, stored);
      assert stored.embedding.value == chunks[i].embedding;
    }
  }

  /** Incremental and full embedding write the same rows. */
  lemma IncrementalIsFull(embed: Provider, chunks: seq<Chunk>, existing: seq<Row>)
    requires ChunksOk(embed, chunks) && RowsOk(embed, existing)
    ensures IncrementalRows(chunks, existing) == FullRows(chunks)
  {
    forall i | 0 <= i < |chunks| ensures IncrementalRows(chunks, existing)[i] == FullRows(chunks)[i] {
      RowUnchanged(embed, chunks, existing, i);
    }
  }

  /** The rows of a full embedding can be reused by the next generation. */
  lemma FullRowsOk(embed: Provider, chunks: seq<Chunk>)
    requires ChunksOk(embed, chunks)
    ensures RowsOk(embed, FullRows(chunks))
  {
  }

  lemma {:induction false} StoredAtFull(rows: seq<Row>, i: nat)
    requires forall j | 0 <= j < |rows| :: rows[j].index == j
    ensures StoredAt(rows, i) == if i < |rows| then Some(rows[i]) else None
  {
    if rows != [] && |rows| - 1 != i {
      StoredAtFull(rows[..|rows| - 1], i);
    }
  }

  /**
   * After a full embedding, a chunk of the edited document needs a fresh vector exactly when it is new at its place or
   * has another text or model there.
   */
  lemma RefreshedExactly(embed: Provider, chunks: seq<Chunk>, edited: seq<Chunk>, i: nat)
    requires ChunksOk(embed, chunks) && ChunksOk(embed, edited) && i < |edited|
    ensures Changed(edited, FullRows(chunks), i)
       <==> i >= |chunks| || edited[i].text != chunks[i].text || edited[i].model != chunks[i].model
  {
    StoredAtFull(FullRows(chunks), i);
    if i < |chunks| {
      AcceptedIsValid(chunks[i].embedding);
      assert ChunkOk(embed, chunks[i]) && ChunkOk(embed, edited[i]);
    }
  }
}
