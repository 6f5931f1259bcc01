/** The sweep of abandoned admissions: claim a page, settle what is pending with the quota, stage intents. */
module AttachmentSweep {
  import opened Wrappers
  import opened AttachmentProtocol
  import opened AttachmentInvariant
  import opened AttachmentSteps
  import opened AttachmentSafety
  import opened AttachmentDrain
  import opened AttachmentLog
  import opened AttachmentLeases

  const PAGE_SIZE := 100

  // ---------------------------------------------------------------------
  // Copies of the sweeper and what it has done
  // ---------------------------------------------------------------------

  function SweepOf(world: World, w: Worker, k: Key): Option<Sweep> {
    if w in world.At(k).sweeps then Some(world.At(k).sweeps[w]) else None
  }

  ghost predicate SameSweeps(before: World, after: World, w: Worker) {
    forall k: Key :: SweepOf(after, w, k) == SweepOf(before, w, k)
  }

  /** Only the copy of row `k` may have changed. */
  ghost predicate OtherSweepsKept(before: World, after: World, w: Worker, k: Key) {
    forall j: Key | j != k :: SweepOf(after, w, j) == SweepOf(before, w, j)
  }

  ghost predicate HoldsSweeps(world: World, w: Worker, rows: seq<Key>) {
    forall k: Key :: SweepOf(world, w, k).Some? <==> k in rows
  }

  /** How many admissions the sweeper has staged and how many it has given back. */
  datatype SweepTally = SweepTally(staged: nat, failed: nat) {
    function Add(e: SweepEvent): SweepTally {
      match e
      case SweepStage => this.(staged := staged + 1)
      case SweepFail => this.(failed := failed + 1)
      case _ => this
    }

    function More(n: nat, m: nat): SweepTally {
      SweepTally(staged + n, failed + m)
    }
  }

  function TallySweeps(actions: seq<Action>, w: Worker): SweepTally {
    if actions == [] then SweepTally(0, 0)
    else
      var last := actions[|actions| - 1];
      var before := TallySweeps(actions[..|actions| - 1], w);
      if last.Do? && last.event.OfSweep? && last.event.w == w then before.Add(last.event.s) else before
  }

  lemma TallySnoc(actions: seq<Action>, k: Key, w: Worker, e: SweepEvent)
    ensures TallySweeps(actions + [Do(k, OfSweep(w, e))], w) == TallySweeps(actions, w).Add(e)
  {
    assert (actions + [Do(k, OfSweep(w, e))])[..|actions|] == actions;
  }

  lemma {:induction false} TallyForeign(actions: seq<Action>, more: seq<Action>, w: Worker)
    requires Foreign(more, w)
    ensures TallySweeps(actions + more, w) == TallySweeps(actions, w)
  {
    if more == [] {
      assert actions + more == actions;
    } else {
      TallyForeign(actions, more[..|more| - 1], w);
      assert (actions + more)[..|actions + more| - 1] == actions + more[..|more| - 1];
    }
  }

  // ---------------------------------------------------------------------
  // Others do not touch the copies
  // ---------------------------------------------------------------------

  lemma PresignSweeps(a: Admission, now: Time, e: PresignEvent)
    ensures NextPresign(a, now, e).sweeps == a.sweeps
  {
  }

  lemma OutsideSweeps(a: Admission, now: Time, e: OutsideEvent)
    ensures NextOutside(a, now, e).sweeps == a.sweeps
  {
  }

  lemma ConfirmSweeps(a: Admission, now: Time, v: Worker, e: ConfirmEvent)
    ensures NextConfirm(a, now, v, e).sweeps == a.sweeps
  {
  }

  lemma StageSweeps(a: Admission, now: Time, e: StageEvent)
    ensures NextStage(a, now, e).sweeps == a.sweeps
  {
  }

  lemma DrainSweeps(a: Admission, now: Time, v: Worker, e: DrainEvent)
    ensures NextDrain(a, now, v, e).sweeps == a.sweeps
  {
  }

  /** What worker `w` holds is the same before and after. */
  predicate SweepKept(a: Admission, b: Admission, w: Worker) {
    (w in b.sweeps <==> w in a.sweeps) && (w in a.sweeps ==> b.sweeps[w] == a.sweeps[w])
  }

  lemma OtherClaims(a: Admission, now: Time, v: Worker, w: Worker)
    requires v != w
    ensures SweepKept(a, DoSweepClaim(a, now, v), w)
  {
    hide Abandoned;
  }

  lemma OtherCalls(a: Admission, v: Worker, reply: Reply, w: Worker)
    requires v != w
    ensures SweepKept(a, DoSweepReserve(a, v, reply), w) && SweepKept(a, DoSweepFinalize(a, v, reply), w)
  {
    hide ReserveReplyOk;
  }

  lemma OtherRecords(a: Admission, v: Worker, w: Worker)
    requires v != w
    ensures SweepKept(a, DoSweepRecordReserve(a, v), w) && SweepKept(a, DoSweepRecordCommit(a, v), w)
  {
    hide OwnedBy;
  }

  lemma OtherEnds(a: Admission, now: Time, v: Worker, w: Worker)
    requires v != w
    ensures SweepKept(a, DoSweepStage(a, v), w) && SweepKept(a, DoSweepFail(a, now, v), w)
    ensures SweepKept(a, DoSweepCrash(a, v), w)
  {
    hide OwnedBy, QuotaReleaseFor;
  }

  lemma OtherSweeps(a: Admission, now: Time, v: Worker, e: SweepEvent, w: Worker)
    requires v != w
    ensures SweepKept(a, NextSweep(a, now, v, e), w)
  {
    hide DoSweepClaim, DoSweepReserve, DoSweepRecordReserve, DoSweepFinalize, DoSweepRecordCommit, DoSweepStage;
    hide DoSweepFail, DoSweepCrash, SweepKept;
    match e
    case SweepClaim => OtherClaims(a, now, v, w);
    case SweepReserve(reply) => OtherCalls(a, v, reply, w);
    case SweepRecordReserve => OtherRecords(a, v, w);
    case SweepFinalize(reply) => OtherCalls(a, v, reply, w);
    case SweepRecordCommit => OtherRecords(a, v, w);
    case SweepStage => OtherEnds(a, now, v, w);
    case SweepFail => OtherEnds(a, now, v, w);
    case SweepCrash => OtherEnds(a, now, v, w);
  }

  lemma ForeignStepKeepsSweep(a: Admission, now: Time, e: Event, w: Worker)
    requires !Uses(Do(0, e), w)
    ensures SweepKept(a, Next(a, now, e), w)
  {
    hide NextPresign, NextOutside, NextConfirm, NextSweep, NextStage, NextDrain;
    match e
    case OfPresign(p) => PresignSweeps(a, now, p);
    case OfOutside(o) => OutsideSweeps(a, now, o);
    case OfConfirm(v, c) => ConfirmSweeps(a, now, v, c);
    case OfSweep(v, s) => OtherSweeps(a, now, v, s, w);
    case OfStage(t) => StageSweeps(a, now, t);
    case OfDrain(v, d) => DrainSweeps(a, now, v, d);
  }

  lemma {:induction false} ForeignKeepsSweeps(world: World, actions: seq<Action>, w: Worker, k: Key)
    requires Foreign(actions, w)
    ensures SweepOf(Run(world, actions), w, k) == SweepOf(world, w, k)
  {
    hide Next;
    if actions != [] {
      var most, last := actions[..|actions| - 1], actions[|actions| - 1];
      ForeignKeepsSweeps(world, most, w, k);
      if last.Do? && last.key == k {
        ForeignStepKeepsSweep(Run(world, most).At(k), Run(world, most).now, last.event, w);
      }
    }
  }

  /** Keys that the adapter has rejected stay rejected. */
  ghost predicate DeniedKept(before: World, after: World) {
    forall k: Key :: before.At(k).ledger.denied ==> after.At(k).ledger.denied
  }

  lemma DeniedUnderRun(before: World, more: seq<Action>)
    ensures DeniedKept(before, Run(before, more))
  {
    hide Run;
    forall k: Key | before.At(k).ledger.denied ensures Run(before, more).At(k).ledger.denied {
      DeniedForGood(before, more, k);
    }
  }

  lemma DeniedUnderAct(before: World, k: Key, e: Event)
    ensures DeniedKept(before, Act(before, Do(k, e)))
  {
    hide Next;
    if before.At(k).ledger.denied {
      DeniedStays(before.At(k), before.now, e);
    }
  }

  /** Another call is under way; others act. */
  method Pause(c: StorageCleanup, w: Worker)
    requires c.Valid() && Alone(c.env, w)
    modifies c
    ensures c.Valid() && OnlyBy(c.env, w, old(c.trace), c.trace) && c.calls == old(c.calls) + 1
    ensures c.writes == old(c.writes) && c.world == Run(old(c.world), c.env.others(old(c.calls)))
    ensures Foreign(old(c.trace), w) ==> Foreign(c.trace, w)
    ensures SameSweeps(old(c.world), c.world, w) && TallySweeps(c.trace, w) == TallySweeps(old(c.trace), w)
    ensures DeniedKept(old(c.world), c.world)
  {
    hide Run;
    ghost var before, done := c.world, c.trace;
    var others := c.env.others(c.calls);
    c.Wait();
    DeniedUnderRun(before, others);
    assert Foreign(others, w);
    OwnOthers(c.env, w, done, others);
    forall k: Key ensures SweepOf(c.world, w, k) == SweepOf(before, w, k) {
      ForeignKeepsSweeps(before, others, w, k);
    }
    TallyForeign(done, others, w);
  }

  /** An event of the sweeper. */
  method Advance(c: StorageCleanup, k: Key, w: Worker, e: SweepEvent)
    requires c.Valid()
    modifies c
    ensures c.Valid() && OnlyBy(c.env, w, old(c.trace), c.trace) && c.calls == old(c.calls)
    ensures c.writes == old(c.writes)
    ensures c.world == Act(old(c.world), Do(k, OfSweep(w, e)))
    ensures TallySweeps(c.trace, w) == TallySweeps(old(c.trace), w).Add(e) && DeniedKept(old(c.world), c.world)
  {
    DeniedUnderAct(c.world, k, OfSweep(w, e));
    TallySnoc(c.trace, k, w, e);
    OwnOne(c.env, w, c.trace, Do(k, OfSweep(w, e)));
    c.Perform(k, OfSweep(w, e));
  }

  // ---------------------------------------------------------------------
  // Claims
  // ---------------------------------------------------------------------

  /** Locked rows are skipped. */
  predicate Expired(world: World, k: Key, locked: set<Key>) {
    Abandoned(world.At(k), world.now) && k !in locked
  }

  /** The page is taken in the order in which the admissions expire. */
  predicate Sooner(world: World, j: Key, k: Key) {
    world.At(j).pending.Some? && world.At(k).pending.Some? ==>
      world.At(j).pending.value.expiresAt < world.At(k).pending.value.expiresAt
      || (world.At(j).pending.value.expiresAt == world.At(k).pending.value.expiresAt && j < k)
  }

  /** The first abandoned admissions, in order. */
  ghost predicate ExpiredPage(world: World, rows: seq<Key>, limit: nat, locked: set<Key>) {
    && Distinct(rows) && |rows| <= limit
    && (forall k | k in rows :: Expired(world, k, locked))
    && (forall i, j | 0 <= i < j < |rows| :: Sooner(world, rows[i], rows[j]))
    && (forall k: Key, i | 0 <= i < |rows| && Expired(world, k, locked) && k !in rows :: Sooner(world, rows[i], k))
    && (|rows| < limit ==> forall k: Key | Expired(world, k, locked) :: k in rows)
  }

  method Soonest(c: StorageCleanup, locked: set<Key>) returns (best: Option<Key>)
    requires c.Valid()
    ensures best.None? ==> forall k: Key :: !Expired(c.world, k, locked)
    ensures best.Some? ==>
              && Expired(c.world, best.value, locked)
              && forall k: Key | Expired(c.world, k, locked) && k != best.value :: Sooner(c.world, best.value, k)
  {
    best := None;
    var world := c.world;
    var rest := world.admissions.Keys;
    while rest != {}
      invariant rest <= world.admissions.Keys
      invariant best.None? ==> forall k: Key | k in world.admissions && k !in rest :: !Expired(world, k, locked)
      invariant best.Some? ==>
                  && Expired(world, best.value, locked)
                  && forall k: Key |
                       k in world.admissions && k !in rest && Expired(world, k, locked) && k != best.value ::
                       Sooner(world, best.value, k)
      decreases rest
    {
      var k :| k in rest;
      rest := rest - {k};
      if Expired(world, k, locked) && (best.None? || Sooner(world, k, best.value)) {
        best := Some(k);
      }
    }
  }

  /** The copy that a claim takes of a row. */
  function RowCopy(world: World, k: Key): Sweep
    requires world.At(k).pending.Some?
  {
    var p := world.At(k).pending.value;
    Sweep(p.quota, p.reservationId, p.urlIssued, p.expiresAt, world.now, false)
  }

  /** No operation of the row is pending with the quota adapter. */
  predicate RowSettled(world: World, k: Key) {
    world.At(k).pending.Some? ==>
      world.At(k).pending.value.quota != ReservePending && world.At(k).pending.value.quota != FinalizePending
  }

  lemma SweepTakes(world: World, k: Key, w: Worker, locked: set<Key>)
    requires Expired(world, k, locked) && w !in world.At(k).tokens
    ensures var after := Act(world, Do(k, OfSweep(w, SweepClaim)));
            && after.now == world.now && (forall j: Key | j != k :: after.At(j) == world.At(j))
            && !Expired(after, k, locked) && SweepOf(after, w, k) == Some(RowCopy(world, k))
  {
  }

  /** What the claims so far have done. */
  ghost predicate Claiming(before: World, world: World, w: Worker, rows: seq<Key>, limit: nat, locked: set<Key>) {
    && world.now == before.now && Distinct(rows) && |rows| <= limit
    && (forall k: Key | k !in rows :: world.At(k) == before.At(k))
    && (forall k | k in rows :: Expired(before, k, locked) && !Expired(world, k, locked))
    && (forall i, j | 0 <= i < j < |rows| :: Sooner(before, rows[i], rows[j]))
    && (forall k: Key, i | 0 <= i < |rows| && Expired(before, k, locked) && k !in rows :: Sooner(before, rows[i], k))
    && (forall k: Key :: SweepOf(world, w, k).Some? <==> k in rows)
    && (forall k | k in rows :: before.At(k).pending.Some? && SweepOf(world, w, k) == Some(RowCopy(before, k)))
  }

  lemma ClaimingStarts(trace: seq<Action>, w: Worker, limit: nat, locked: set<Key>)
    requires Unseen(Run(START, trace), w)
    ensures Claiming(Run(START, trace), Run(START, trace), w, [], limit, locked)
  {
    hide Inv, Run;
    forall k: Key ensures SweepOf(Run(START, trace), w, k).None? {
      Reachable(trace, k);
      if SweepOf(Run(START, trace), w, k).Some? {
        SweepAt(Run(START, trace).At(k), Run(START, trace).now, w);
      }
    }
  }

  lemma ClaimingMore(before: World, world: World, after: World, w: Worker, rows: seq<Key>, limit: nat, k: Key,
          locked: set<Key>)
    requires Claiming(before, world, w, rows, limit, locked) && |rows| < limit && Expired(world, k, locked)
    requires forall j: Key | Expired(world, j, locked) && j != k :: Sooner(world, k, j)
    requires after.now == world.now && (forall j: Key | j != k :: after.At(j) == world.At(j))
    requires !Expired(after, k, locked) && SweepOf(after, w, k) == Some(RowCopy(world, k))
    ensures Claiming(before, after, w, rows + [k], limit, locked)
  {
    var page := rows + [k];
    forall j: Key | j != k
      ensures SweepOf(after, w, j) == SweepOf(world, w, j) && (Expired(after, j, locked) <==> Expired(world, j, locked))
    {
      assert after.At(j) == world.At(j);
    }
    forall j: Key | j !in rows ensures Expired(before, j, locked) <==> Expired(world, j, locked) {
      assert world.At(j) == before.At(j);
    }
    forall j: Key, i | 0 <= i < |page| && Expired(before, j, locked) && j !in page ensures Sooner(before, page[i], j) {
      if i == |rows| {
        assert j !in rows && Expired(world, j, locked) && Sooner(world, k, j);
      }
    }
    hide Expired, Sooner, SweepOf;
  }

  lemma ClaimingEnds(before: World, world: World, w: Worker, rows: seq<Key>, limit: nat, locked: set<Key>)
    requires Claiming(before, world, w, rows, limit, locked)
    ensures HoldsSweeps(world, w, rows)
    ensures forall k | k in rows :: before.At(k).pending.Some? && SweepOf(world, w, k) == Some(RowCopy(before, k))
    ensures |rows| == limit || (forall k: Key :: !Expired(world, k, locked)) ==>
              ExpiredPage(before, rows, limit, locked)
  {
    if |rows| < limit && forall k: Key :: !Expired(world, k, locked) {
      forall k: Key | Expired(before, k, locked) ensures k in rows {
        assert !Expired(world, k, locked);
      }
    }
  }

  /** Claim a page of abandoned admissions; those that are locked are skipped. */
  method ClaimExpired(c: StorageCleanup, w: Worker, limit: nat, locked: set<Key>) returns (rows: seq<Key>)
    requires c.Valid() && Unseen(c.world, w)
    modifies c
    ensures c.Valid() && OnlyBy(c.env, w, old(c.trace), c.trace)
    ensures ExpiredPage(old(c.world), rows, limit, locked) && HoldsSweeps(c.world, w, rows)
    ensures c.calls == old(c.calls) && c.writes == old(c.writes)
    ensures forall k | k in rows ::
              old(c.world).At(k).pending.Some? && SweepOf(c.world, w, k) == Some(RowCopy(old(c.world), k))
    ensures TallySweeps(c.trace, w) == TallySweeps(old(c.trace), w)
  {
    hide Act, TallySweeps, Claiming, ExpiredPage, HoldsSweeps, Sooner, SweepOf, Expired;
    rows := [];
    ghost var before := c.world;
    ClaimingStarts(c.trace, w, limit, locked);
    var more := true;
    while more && |rows| < limit
      invariant c.Valid() && OnlyBy(c.env, w, old(c.trace), c.trace)
      invariant Claiming(before, c.world, w, rows, limit, locked) && |rows| <= limit
      invariant c.calls == old(c.calls) && c.writes == old(c.writes)
      invariant !more ==> forall k: Key :: !Expired(c.world, k, locked)
      invariant TallySweeps(c.trace, w) == TallySweeps(old(c.trace), w)
      decreases more, limit - |rows|
    {
      var next := Soonest(c, locked);
      if next.None? {
        more := false;
      } else {
        var k := next.value;
        ghost var was := c.world;
        NotTakenYet(before, was, w, rows, limit, k, locked);
        SweepTakes(was, k, w, locked);
        Advance(c, k, w, SweepClaim);
        ClaimingMore(before, was, c.world, w, rows, limit, k, locked);
        rows := rows + [k];
      }
    }
    ClaimingEnds(before, c.world, w, rows, limit, locked);
  }

  lemma NotTakenYet(before: World, world: World, w: Worker, rows: seq<Key>, limit: nat, k: Key, locked: set<Key>)
    requires Claiming(before, world, w, rows, limit, locked) && Unseen(before, w) && Expired(world, k, locked)
    ensures k !in rows && w !in world.At(k).tokens
  {
    assert k !in rows;
    assert world.At(k) == before.At(k);
  }

  // ---------------------------------------------------------------------
  // One admission
  // ---------------------------------------------------------------------

  predicate PendingWithQuota(s: Sweep) {
    s.quota == ReservePending || s.quota == FinalizePending
  }

  /**
   * The adapter is there and answers with success: it can when the reservation is known or, for a reservation
   * that is still to be made, unless the adapter has rejected the key before it was ever reserved.
   */
  predicate AdapterSucceeds(copy: Sweep, admission: bool, ledger: Ledger, reply: Reply) {
    && admission && reply.Success?
    && (copy.quota == ReservePending ==> ledger.reservation != Never || !ledger.denied)
    && (copy.quota == FinalizePending ==> copy.reservationId)
  }

  /** The copy after its operation with the adapter has come to its end. */
  function Advanced(copy: Sweep): Sweep {
    match copy.quota
    case ReservePending => copy.(quota := Reserved, reservationId := true)
    case FinalizePending => copy.(quota := Committed)
    case _ => copy
  }

  lemma QuotaCalled(world: World, k: Key, w: Worker, e: SweepEvent)
    requires SweepOf(world, w, k).Some? && !SweepOf(world, w, k).value.replied
    requires match e
             case SweepReserve(reply) =>
               SweepOf(world, w, k).value.quota == ReservePending && ReserveReplyOk(world.At(k).ledger, reply)
             case SweepFinalize(reply) =>
               SweepOf(world, w, k).value.quota == FinalizePending && SweepOf(world, w, k).value.reservationId
             case _ => false
    ensures var after := Act(world, Do(k, OfSweep(w, e)));
            && OtherSweepsKept(world, after, w, k)
            && SweepOf(after, w, k) == Some(SweepOf(world, w, k).value.(replied := e.reply.Success?))
  {
  }

  lemma QuotaRecorded(world: World, k: Key, w: Worker)
    requires SweepOf(world, w, k).Some? && SweepOf(world, w, k).value.replied
    requires PendingWithQuota(SweepOf(world, w, k).value)
    ensures var e := if SweepOf(world, w, k).value.quota == ReservePending
            then SweepRecordReserve else SweepRecordCommit;
            var after := Act(world, Do(k, OfSweep(w, e)));
            && OtherSweepsKept(world, after, w, k)
            && SweepOf(after, w, k) == Some(Advanced(SweepOf(world, w, k).value.(replied := false)))
  {
  }

  /** Bring an operation that is pending with the quota adapter to its end, and record it. */
  method AdvanceQuota(c: StorageCleanup, k: Key, w: Worker, admission: bool) returns (ok: bool)
    requires c.Valid() && Alone(c.env, w) && SweepOf(c.world, w, k).Some? && !SweepOf(c.world, w, k).value.replied
    modifies c
    ensures c.Valid() && OnlyBy(c.env, w, old(c.trace), c.trace) && old(c.writes) <= c.writes
    ensures OtherSweepsKept(old(c.world), c.world, w, k) && SweepOf(c.world, w, k).Some? && old(c.calls) <= c.calls
    ensures var copy := SweepOf(old(c.world), w, k).value;
            var ledger := Run(old(c.world), c.env.others(old(c.calls))).At(k).ledger;
            var answered := AdapterSucceeds(copy, admission, ledger, c.env.reply(old(c.calls)));
            && (ok <==> !PendingWithQuota(copy) || (answered && !c.env.down(old(c.writes))))
            && (ok ==> SweepOf(c.world, w, k) == Some(Advanced(copy)))
            && c.writes == old(c.writes) + if PendingWithQuota(copy) && answered then 1 else 0
    ensures c.calls == old(c.calls) ==> c.world == old(c.world)
    ensures c.calls > old(c.calls) ==> DeniedKept(Run(old(c.world), c.env.others(old(c.calls))), c.world)
    ensures TallySweeps(c.trace, w) == TallySweeps(old(c.trace), w)
  {
    hide Act, TallySweeps, SweepOf, Run;
    CopyIs(c.world, w, k);
    var copy := c.world.At(k).sweeps[w];
    if !PendingWithQuota(copy) {
      return true;
    }
    if !admission || (copy.quota == FinalizePending && !copy.reservationId) {
      return false;
    }
    var reply := c.env.reply(c.calls);
    Pause(c, w);
    if copy.quota == ReservePending && !ReserveReplyOk(c.world.At(k).ledger, reply) {
      reply := Retryable(false);
    }
    var call := if copy.quota == ReservePending then SweepReserve(reply) else SweepFinalize(reply);
    QuotaCalled(c.world, k, w, call);
    Advance(c, k, w, call);
    if !reply.Success? {
      return false;
    }
    var committed := c.Commits();
    Pause(c, w);
    if !committed {
      return false;
    }
    QuotaRecorded(c.world, k, w);
    Advance(c, k, w, if copy.quota == ReservePending then SweepRecordReserve else SweepRecordCommit);
    ok := true;
  }

  lemma CopyIs(world: World, w: Worker, k: Key)
    requires SweepOf(world, w, k).Some?
    ensures w in world.At(k).sweeps && world.At(k).sweeps[w] == SweepOf(world, w, k).value
  {
  }

  lemma Staged(world: World, k: Key, w: Worker)
    requires SweepOf(world, w, k).Some? && !PendingWithQuota(SweepOf(world, w, k).value)
    requires QuotaReleaseFor(SweepOf(world, w, k).value.quota, SweepOf(world, w, k).value.reservationId).Some?
    ensures var after := Act(world, Do(k, OfSweep(w, SweepStage)));
            && OtherSweepsKept(world, after, w, k) && SweepOf(after, w, k).None?
            && (after.At(k).intent.Some? && after.At(k).pending.None?)
  {
  }

  lemma GivenBack(world: World, k: Key, w: Worker)
    requires SweepOf(world, w, k).Some?
    ensures var after := Act(world, Do(k, OfSweep(w, SweepFail)));
            OtherSweepsKept(world, after, w, k) && SweepOf(after, w, k).None?
  {
  }

  /** A copy whose operation has come to its end says how the quota is released. */
  lemma ReleaseExists(trace: seq<Action>, k: Key, w: Worker)
    requires var s := SweepOf(Run(START, trace), w, k); s.Some? && !PendingWithQuota(s.value)
    ensures var s := SweepOf(Run(START, trace), w, k).value; QuotaReleaseFor(s.quota, s.reservationId).Some?
  {
    hide Inv, Run;
    Reachable(trace, k);
    SweepAt(Run(START, trace).At(k), Run(START, trace).now, w);
  }

  /** A staged admission is handed over to the outbox for good. */
  lemma StagedIsHandedOver(trace: seq<Action>, k: Key)
    requires var a := Run(START, trace).At(k); a.intent.Some? && a.pending.None?
    ensures HandedOver(Run(START, trace).At(k))
  {
    IntentIsCreated(trace, k);
  }

  datatype SweepResult = StagedRow | ReturnedRow | Unrecorded

  lemma AdvancedIsDone(copy: Sweep)
    ensures !PendingWithQuota(Advanced(copy))
  {
  }

  /** The transaction that stages the intent of an admission and deletes its row. */
  method StageRow(c: StorageCleanup, k: Key, w: Worker) returns (ok: bool)
    requires c.Valid() && Alone(c.env, w)
    requires SweepOf(c.world, w, k).Some? && !PendingWithQuota(SweepOf(c.world, w, k).value)
    modifies c
    ensures c.Valid() && OnlyBy(c.env, w, old(c.trace), c.trace)
    ensures c.calls == old(c.calls) + 1 && c.writes == old(c.writes) + 1 && (ok <==> !c.env.down(old(c.writes)))
    ensures OtherSweepsKept(old(c.world), c.world, w, k)
    ensures DeniedKept(old(c.world), c.world)
    ensures DeniedKept(Run(old(c.world), c.env.others(old(c.calls))), c.world)
    ensures if ok then SweepOf(c.world, w, k).None? && c.world.At(k).intent.Some? && HandedOver(c.world.At(k))
            else SweepOf(c.world, w, k) == SweepOf(old(c.world), w, k)
    ensures var before := TallySweeps(old(c.trace), w);
            TallySweeps(c.trace, w) == if ok then before.Add(SweepStage) else before
  {
    hide Act, TallySweeps, SweepOf, Run, HandedOver, OnlyBy;
    ghost var start := c.trace;
    ok := c.Commits();
    Pause(c, w);
    if ok {
      ghost var paused := c.trace;
      c.ValidMeans();
      ReleaseExists(c.trace, k, w);
      Staged(c.world, k, w);
      Advance(c, k, w, SweepStage);
      OnlyByJoins(c.env, w, start, paused, c.trace);
      c.ValidMeans();
      StagedIsHandedOver(c.trace, k);
    }
  }

  /** The transaction that gives an admission back for a retry. */
  method RecordFailure(c: StorageCleanup, k: Key, w: Worker) returns (ok: bool)
    requires c.Valid() && Alone(c.env, w) && SweepOf(c.world, w, k).Some?
    modifies c
    ensures c.Valid() && OnlyBy(c.env, w, old(c.trace), c.trace)
    ensures c.calls == old(c.calls) + 1 && c.writes == old(c.writes) + 1 && (ok <==> !c.env.down(old(c.writes)))
    ensures OtherSweepsKept(old(c.world), c.world, w, k)
    ensures DeniedKept(old(c.world), c.world)
    ensures DeniedKept(Run(old(c.world), c.env.others(old(c.calls))), c.world)
    ensures SweepOf(c.world, w, k) == if ok then None else SweepOf(old(c.world), w, k)
    ensures var before := TallySweeps(old(c.trace), w);
            TallySweeps(c.trace, w) == if ok then before.Add(SweepFail) else before
  {
    hide Act, TallySweeps, SweepOf, Run, OnlyBy;
    ghost var start := c.trace;
    ok := c.Commits();
    Pause(c, w);
    if ok {
      ghost var paused := c.trace;
      GivenBack(c.world, k, w);
      Advance(c, k, w, SweepFail);
      OnlyByJoins(c.env, w, start, paused, c.trace);
    }
  }

  /** What has been done at some time, and how many calls and transactions there have been. */
  datatype Situation = Situation(world: World, trace: seq<Action>, calls: nat, writes: nat)

  ghost function Now(c: StorageCleanup): Situation
    reads c
  {
    Situation(c.world, c.trace, c.calls, c.writes)
  }

  /**
   * One admission has been dealt with. It is staged exactly when its transactions succeed and nothing is pending
   * with the adapter, or the adapter succeeds. Otherwise it is given back, unless that transaction fails too.
   */
  ghost predicate RowSwept(env: Environment, before: Situation, after: Situation, k: Key, w: Worker,
          admission: bool, result: SweepResult)
  {
    var copy := SweepOf(before.world, w, k);
    var paused := Run(before.world, env.others(before.calls));
    && OnlyBy(env, w, before.trace, after.trace) && before.calls < after.calls && before.writes < after.writes
    && OtherSweepsKept(before.world, after.world, w, k) && DeniedKept(paused, after.world)
    && (SweepOf(after.world, w, k).None? <==> result != Unrecorded)
    && (result == Unrecorded <==> result != StagedRow && env.down(after.writes - 1))
    && (result == StagedRow ==> after.world.At(k).intent.Some? && HandedOver(after.world.At(k)))
    && TallySweeps(after.trace, w) == Counted(TallySweeps(before.trace, w), result)
    && copy.Some?
    && var answered := AdapterSucceeds(copy.value, admission, paused.At(k).ledger, env.reply(before.calls));
       var n := if PendingWithQuota(copy.value) then 2 else 1;
       && (result == StagedRow
           <==> (!PendingWithQuota(copy.value) || answered) && NeverDown(env, before.writes, before.writes + n))
       && after.writes >= before.writes + if answered then n else 1
  }

  function Counted(tally: SweepTally, result: SweepResult): SweepTally {
    match result
    case StagedRow => tally.(staged := tally.staged + 1)
    case ReturnedRow => tally.(failed := tally.failed + 1)
    case Unrecorded => tally
  }

  /** Stage one admission, or record the failure; when that fails too, the sweep ends. */
  method SweepRow(c: StorageCleanup, k: Key, w: Worker, admission: bool) returns (result: SweepResult)
    requires c.Valid() && Alone(c.env, w) && SweepOf(c.world, w, k).Some? && !SweepOf(c.world, w, k).value.replied
    modifies c
    ensures c.Valid() && RowSwept(c.env, old(Now(c)), Now(c), k, w, admission, result)
  {
    hide Act, TallySweeps, SweepOf, Run, HandedOver, Advanced, AdapterSucceeds, OnlyBy;
    ghost var start, trace0 := SweepOf(c.world, w, k).value, c.trace;
    AdvancedIsDone(start);
    var ok := AdvanceQuota(c, k, w, admission);
    ghost var advanced, write := c.trace, c.writes;
    NeverDownMore(c.env, old(c.writes), write);
    if ok {
      ok := StageRow(c, k, w);
      OnlyByJoins(c.env, w, trace0, advanced, c.trace);
      if ok {
        return StagedRow;
      }
    }
    ghost var sofar := c.trace;
    ok := RecordFailure(c, k, w);
    OnlyByJoins(c.env, w, trace0, sofar, c.trace);
    result := if ok then ReturnedRow else Unrecorded;
  }

  /** The worker holds the copies of these rows that it took when it claimed them. */
  ghost predicate CopiesHeld(claimed: World, world: World, w: Worker, rest: seq<Key>) {
    forall k | k in rest :: claimed.At(k).pending.Some? && SweepOf(world, w, k) == Some(RowCopy(claimed, k))
  }

  lemma CopyHeld(claimed: World, world: World, w: Worker, rest: seq<Key>, k: Key)
    requires CopiesHeld(claimed, world, w, rest) && k in rest
    ensures SweepOf(world, w, k).Some? && !SweepOf(world, w, k).value.replied
    ensures !PendingWithQuota(SweepOf(world, w, k).value) <==> RowSettled(claimed, k)
  {
  }

  lemma OneLess(claimed: World, before: World, after: World, w: Worker, rest: seq<Key>)
    requires rest != [] && Distinct(rest) && HoldsSweeps(before, w, rest) && CopiesHeld(claimed, before, w, rest)
    requires OtherSweepsKept(before, after, w, rest[0]) && SweepOf(after, w, rest[0]).None?
    ensures HoldsSweeps(after, w, rest[1..]) && CopiesHeld(claimed, after, w, rest[1..])
  {
    hide SweepOf, RowCopy;
    forall k: Key ensures k in rest[1..] <==> k in rest && k != rest[0] {
      if k in rest && k != rest[0] {
        var i :| 0 <= i < |rest| && rest[i] == k;
        assert rest[1..][i - 1] == k;
      }
    }
  }

  /** All rows of the page can be staged: no operation is pending with an adapter that is not there. */
  ghost predicate Stageable(claimed: World, rows: seq<Key>, admission: bool) {
    admission || forall k | k in rows :: RowSettled(claimed, k)
  }

  /** All calls since then have succeeded, and the adapter has rejected none of these keys. */
  ghost predicate Smooth(env: Environment, begun: Situation, now: Situation, rows: seq<Key>) {
    && RepliesOk(env.reply, begun.calls, now.calls) && NeverDown(env, begun.writes, now.writes)
    && forall k | k in rows :: !now.world.At(k).ledger.denied
  }

  lemma SmoothBefore(env: Environment, begun: Situation, before: Situation, after: Situation, rows: seq<Key>)
    requires DeniedKept(before.world, after.world) && before.calls <= after.calls && before.writes <= after.writes
    requires Smooth(env, begun, after, rows)
    ensures Smooth(env, begun, before, rows)
  {
  }

  lemma FinalizeHasReservation(trace: seq<Action>, k: Key, w: Worker)
    ensures var s := SweepOf(Run(START, trace), w, k);
            s.Some? && s.value.quota == FinalizePending ==> s.value.reservationId
  {
    hide Inv, Run;
    Reachable(trace, k);
    if SweepOf(Run(START, trace), w, k).Some? {
      SweepAt(Run(START, trace).At(k), Run(START, trace).now, w);
    }
  }

  /** A row is staged when all its calls succeed. */
  lemma SmoothRow(env: Environment, begun: Situation, before: Situation, after: Situation, w: Worker,
          rows: seq<Key>, k: Key, admission: bool, result: SweepResult)
    requires before.world == Run(START, before.trace) && RowSwept(env, before, after, k, w, admission, result)
    requires begun.calls <= before.calls && begun.writes <= before.writes
    requires Smooth(env, begun, after, rows) && k in rows
    requires admission || !PendingWithQuota(SweepOf(before.world, w, k).value)
    ensures result == StagedRow
  {
    hide Run, OnlyBy, TallySweeps, HandedOver, SweepOf, OtherSweepsKept;
    FinalizeHasReservation(before.trace, k, w);
  }

  /** What has been staged of the first `i` rows. */
  ghost predicate Staging(env: Environment, begun: Situation, now: Situation, w: Worker, rows: seq<Key>, i: nat,
          admission: bool, over: set<Key>)
  {
    && |over| <= i <= |rows| && (forall k | k in over :: k in rows[..i] && HandedOver(now.world.At(k)))
    && TallySweeps(now.trace, w) == TallySweeps(begun.trace, w).More(|over|, i - |over|)
    && (Stageable(begun.world, rows, admission) && Smooth(env, begun, now, rows) ==>
          |over| == i && forall k | k in rows[..i] :: k in over)
  }

  /** The first `i` rows of the page have been dealt with; `over` are those that have been staged. */
  ghost predicate Sweeping(env: Environment, begun: Situation, now: Situation, w: Worker, rows: seq<Key>, i: nat,
          admission: bool, over: set<Key>)
  {
    && i <= |rows| && now.world == Run(START, now.trace) && OnlyBy(env, w, begun.trace, now.trace)
    && begun.calls <= now.calls && begun.writes <= now.writes
    && Distinct(rows) && HoldsSweeps(now.world, w, rows[i..]) && CopiesHeld(begun.world, now.world, w, rows[i..])
    && Staging(env, begun, now, w, rows, i, admission, over)
  }

  lemma SweepingFirst(env: Environment, begun: Situation, now: Situation, w: Worker, rows: seq<Key>, i: nat,
          admission: bool, over: set<Key>)
    requires Sweeping(env, begun, now, w, rows, i, admission, over) && i < |rows|
    ensures SweepOf(now.world, w, rows[i]).Some? && !SweepOf(now.world, w, rows[i]).value.replied
    ensures !PendingWithQuota(SweepOf(now.world, w, rows[i]).value) <==> RowSettled(begun.world, rows[i])
  {
    assert rows[i..][0] == rows[i];
    hide Run, OnlyBy, TallySweeps, HandedOver, SweepOf, Smooth, HoldsSweeps, Stageable, PendingWithQuota;
    CopyHeld(begun.world, now.world, w, rows[i..], rows[i]);
  }

  lemma SweepingStarts(env: Environment, begun: Situation, now: Situation, w: Worker, rows: seq<Key>, limit: nat,
          locked: set<Key>, admission: bool)
    requires ExpiredPage(begun.world, rows, limit, locked) && HoldsSweeps(now.world, w, rows)
    requires forall k | k in rows ::
               begun.world.At(k).pending.Some? && SweepOf(now.world, w, k) == Some(RowCopy(begun.world, k))
    requires now.world == Run(START, now.trace) && OnlyBy(env, w, begun.trace, now.trace)
    requires begun.calls == now.calls && begun.writes == now.writes
    requires TallySweeps(now.trace, w) == TallySweeps(begun.trace, w)
    ensures Sweeping(env, begun, now, w, rows, 0, admission, {})
  {
    hide Run, OnlyBy, TallySweeps, HandedOver, SweepOf, Smooth;
    PageIsDistinct(begun.world, rows, limit, locked);
  }

  /** In a smooth sweep the rows before have been staged, and the next one is. */
  lemma SmoothSoFar(env: Environment, begun: Situation, before: Situation, after: Situation, w: Worker,
          rows: seq<Key>, i: nat, admission: bool, over: set<Key>, result: SweepResult)
    requires Sweeping(env, begun, before, w, rows, i, admission, over) && i < |rows|
    requires after.world == Run(START, after.trace)
    requires RowSwept(env, before, after, rows[i], w, admission, result)
    requires Stageable(begun.world, rows, admission) && Smooth(env, begun, after, rows)
    ensures result == StagedRow && |over| == i && forall k | k in rows[..i] :: k in over
  {
    SweepingFirst(env, begun, before, w, rows, i, admission, over);
    LaterState(env, w, begun.trace, before.trace, after.trace, over);
    hide Run, OnlyBy, TallySweeps, HandedOver, SweepOf, PendingWithQuota, AdapterSucceeds, DeniedKept, RowSettled;
    hide HoldsSweeps, CopiesHeld, OtherSweepsKept, NeverDown, Smooth;
    assert rows[i] in rows;
    SmoothBefore(env, begun, before, after, rows);
    SmoothRow(env, begun, before, after, w, rows, rows[i], admission, result);
  }

  /** One more row has been staged or given back. */
  lemma StagingMore(env: Environment, begun: Situation, before: Situation, after: Situation, w: Worker,
          rows: seq<Key>, i: nat, admission: bool, over: set<Key>, result: SweepResult)
    requires Staging(env, begun, before, w, rows, i, admission, over) && i < |rows| && Distinct(rows)
    requires forall k | k in over :: HandedOver(after.world.At(k))
    requires result == StagedRow ==> HandedOver(after.world.At(rows[i]))
    requires Stageable(begun.world, rows, admission) && Smooth(env, begun, after, rows) ==>
               result == StagedRow && |over| == i && forall k | k in rows[..i] :: k in over
    requires TallySweeps(after.trace, w) == Counted(TallySweeps(before.trace, w), result) && result != Unrecorded
    ensures Staging(env, begun, after, w, rows, i + 1, admission,
                    if result == StagedRow then over + {rows[i]} else over)
    ensures result == StagedRow ==> |over + {rows[i]}| == |over| + 1
  {
    hide TallySweeps, HandedOver, Smooth, Stageable;
    NewRow(rows, i, over);
    hide Distinct;
  }

  lemma SweepingMore(env: Environment, begun: Situation, before: Situation, after: Situation, w: Worker,
          rows: seq<Key>, i: nat, admission: bool, over: set<Key>, result: SweepResult)
    requires Sweeping(env, begun, before, w, rows, i, admission, over) && i < |rows|
    requires after.world == Run(START, after.trace)
    requires RowSwept(env, before, after, rows[i], w, admission, result) && result != Unrecorded
    ensures Sweeping(env, begun, after, w, rows, i + 1, admission,
                     if result == StagedRow then over + {rows[i]} else over)
    ensures result == StagedRow ==> |over + {rows[i]}| == |over| + 1
  {
    hide Run, OnlyBy, TallySweeps, HandedOver, SweepOf, PendingWithQuota, AdapterSucceeds, DeniedKept, RowSettled;
    hide Smooth, Stageable, HoldsSweeps, CopiesHeld, OtherSweepsKept, NeverDown, Counted, Staging;
    OversAre(env, begun, before, w, rows, i, admission, over);
    LaterState(env, w, begun.trace, before.trace, after.trace, over);
    if Stageable(begun.world, rows, admission) && Smooth(env, begun, after, rows) {
      SmoothSoFar(env, begun, before, after, w, rows, i, admission, over, result);
    }
    StagingMore(env, begun, before, after, w, rows, i, admission, over, result);
    assert rows[i..][0] == rows[i] && rows[i..][1..] == rows[i + 1..];
    NewRow(rows, i, {});
    OneLess(begun.world, before.world, after.world, w, rows[i..]);
  }

  lemma OversAre(env: Environment, begun: Situation, now: Situation, w: Worker, rows: seq<Key>, i: nat,
          admission: bool, over: set<Key>)
    requires Staging(env, begun, now, w, rows, i, admission, over)
    ensures forall k | k in over :: HandedOver(now.world.At(k))
  {
  }

  lemma SweepingStops(env: Environment, begun: Situation, before: Situation, after: Situation, w: Worker,
          rows: seq<Key>, i: nat, admission: bool, over: set<Key>)
    requires Sweeping(env, begun, before, w, rows, i, admission, over) && i < |rows|
    requires after.world == Run(START, after.trace)
    requires RowSwept(env, before, after, rows[i], w, admission, Unrecorded)
    ensures OnlyBy(env, w, begun.trace, after.trace) && !NeverDown(env, begun.writes, after.writes)
    ensures |over| <= |rows| && forall k | k in over :: k in rows && HandedOver(after.world.At(k))
    ensures TallySweeps(after.trace, w).staged == TallySweeps(begun.trace, w).staged + |over|
    ensures TallySweeps(after.trace, w).failed >= TallySweeps(begun.trace, w).failed
    ensures Stageable(begun.world, rows, admission) ==> !Smooth(env, begun, after, rows)
  {
    hide Run, OnlyBy, TallySweeps, HandedOver, SweepOf, PendingWithQuota, AdapterSucceeds, DeniedKept, RowSettled;
    hide Smooth, Stageable, HoldsSweeps, CopiesHeld, OtherSweepsKept, Distinct;
    LaterState(env, w, begun.trace, before.trace, after.trace, over);
    if Stageable(begun.world, rows, admission) && Smooth(env, begun, after, rows) {
      SmoothSoFar(env, begun, before, after, w, rows, i, admission, over, Unrecorded);
    }
  }

  lemma SweepingDone(env: Environment, begun: Situation, now: Situation, w: Worker, rows: seq<Key>, admission: bool,
          over: set<Key>)
    requires Sweeping(env, begun, now, w, rows, |rows|, admission, over)
    ensures HoldsSweeps(now.world, w, []) && OnlyBy(env, w, begun.trace, now.trace) && |over| <= |rows|
    ensures TallySweeps(now.trace, w) == TallySweeps(begun.trace, w).More(|over|, |rows| - |over|)
    ensures forall k | k in over :: k in rows && HandedOver(now.world.At(k))
    ensures Stageable(begun.world, rows, admission) && Smooth(env, begun, now, rows) ==>
              |over| == |rows| && forall k | k in rows :: k in over
  {
    assert rows[|rows|..] == [] && rows[..|rows|] == rows;
    hide Run, OnlyBy, TallySweeps, HandedOver, SweepOf, Smooth, HoldsSweeps, CopiesHeld, Stageable;
  }

  /**
   * Sweep a page. Every admission of the page ends staged or given back, and the result counts the
   * staged ones, unless a failure cannot be recorded: then the sweep ends there. What is staged is handed over
   * to the outbox; when all calls succeed and the adapter is there or not needed, that is the whole page.
   */
  method StageExpired(c: StorageCleanup, w: Worker, locked: set<Key>, admission: bool)
    returns (rows: seq<Key>, staged: nat, interrupted: bool, ghost over: set<Key>)
    requires c.Valid() && Alone(c.env, w) && Unseen(c.world, w)
    modifies c
    ensures c.Valid() && OnlyBy(c.env, w, old(c.trace), c.trace) && staged <= |rows| <= 100
    ensures ExpiredPage(old(c.world), rows, 100, locked)
    ensures var before, after := TallySweeps(old(c.trace), w), TallySweeps(c.trace, w);
            && after.staged == before.staged + staged
            && (!interrupted ==> |rows| == staged + (after.failed - before.failed))
            && before.failed <= after.failed
    ensures !interrupted ==> HoldsSweeps(c.world, w, [])
    ensures interrupted ==> !NeverDown(c.env, old(c.writes), c.writes)
    ensures |over| == staged && forall k | k in over :: k in rows && HandedOver(c.world.At(k))
    ensures Stageable(old(c.world), rows, admission) && Smooth(c.env, old(Now(c)), Now(c), rows) ==>
              !interrupted && staged == |rows| && forall k | k in rows :: k in over
  {
    hide Act, Run, TallySweeps, ExpiredPage, HoldsSweeps, SweepOf, OnlyBy, HandedOver, Smooth, Stageable, Sweeping;
    hide RowSwept, RowCopy, NeverDown, Unseen, Alone, Distinct, PendingWithQuota, RowSettled;
    ghost var begun := Now(c);
    NowIs(c);
    rows := ClaimExpired(c, w, PAGE_SIZE, locked);
    PageIsDistinct(old(c.world), rows, PAGE_SIZE, locked);
    NowIs(c);
    SweepingStarts(c.env, begun, Now(c), w, rows, PAGE_SIZE, locked, admission);
    staged, interrupted, over := 0, false, {};
    for i := 0 to |rows|
      invariant c.Valid() && staged == |over| && Sweeping(c.env, begun, Now(c), w, rows, i, admission, over)
    {
      ghost var before := Now(c);
      SweepingFirst(c.env, begun, before, w, rows, i, admission, over);
      NowIs(c);
      var result := SweepRow(c, rows[i], w, admission);
      NowIs(c);
      if result == Unrecorded {
        SweepingStops(c.env, begun, before, Now(c), w, rows, i, admission, over);
        interrupted := true;
        return;
      }
      SweepingMore(c.env, begun, before, Now(c), w, rows, i, admission, over, result);
      if result == StagedRow {
        staged := staged + 1;
        over := over + {rows[i]};
      }
    }
    NowIs(c);
    SweepingDone(c.env, begun, Now(c), w, rows, admission, over);
  }

  lemma NowIs(c: StorageCleanup)
    requires c.Valid()
    ensures Now(c) == Situation(c.world, c.trace, c.calls, c.writes) && c.world == Run(START, c.trace)
  {
  }

  /** What has been handed over stays so, and the trace has grown by this worker and others. */
  lemma LaterState(env: Environment, w: Worker, start: seq<Action>, before: seq<Action>, after: seq<Action>,
          over: set<Key>)
    requires OnlyBy(env, w, start, before) && OnlyBy(env, w, before, after)
    requires forall k | k in over :: HandedOver(Run(START, before).At(k))
    ensures OnlyBy(env, w, start, after)
    ensures forall k | k in over :: HandedOver(Run(START, after).At(k))
    ensures DeniedKept(Run(START, before), Run(START, after))
  {
    hide Run, HandedOver, DeniedKept;
    var more := after[|before|..];
    assert before + more == after;
    RunConcat(START, before, more);
    DeniedUnderRun(Run(START, before), more);
    forall k | k in over ensures HandedOver(Run(START, after).At(k)) {
      HandedOverForGood(Run(START, before), more, k);
    }
  }

  /** The next row has not been staged before. */
  lemma NewRow(rows: seq<Key>, i: nat, over: set<Key>)
    requires i < |rows| && Distinct(rows) && forall k | k in over :: k in rows[..i]
    ensures rows[..i + 1] == rows[..i] + [rows[i]] && Distinct(rows[i..])
    ensures rows[i] !in over && |over + {rows[i]}| == |over| + 1
  {
  }

  lemma PageIsDistinct(world: World, rows: seq<Key>, limit: nat, locked: set<Key>)
    requires ExpiredPage(world, rows, limit, locked)
    ensures Distinct(rows) && |rows| <= limit && rows[0..] == rows
  {
  }

  /** What the sweeper holds and has done does not change while others work. */
  lemma SweepUntouched(env: Environment, v: Worker, before: seq<Action>, after: seq<Action>, w: Worker)
    requires OnlyBy(env, v, before, after) && v != w && Alone(env, w)
    ensures TallySweeps(after, w) == TallySweeps(before, w)
    ensures SameSweeps(Run(START, before), Run(START, after), w)
  {
    hide Run, OnlyBy;
    ForeignSince(env, v, before, after, w);
    OnlyByGrows(env, v, before, after);
    var more := after[|before|..];
    assert before + more == after;
    TallyForeign(before, more, w);
    RunConcat(START, before, more);
    forall k: Key ensures SweepOf(Run(START, after), w, k) == SweepOf(Run(START, before), w, k) {
      ForeignKeepsSweeps(Run(START, before), more, w, k);
    }
  }

  lemma HoldsStill(before: World, after: World, w: Worker, rows: seq<Key>)
    requires HoldsSweeps(before, w, rows) && SameSweeps(before, after, w)
    ensures HoldsSweeps(after, w, rows)
  {
    hide SweepOf;
  }

  lemma NothingSwept(actions: seq<Action>, w: Worker)
    requires Foreign(actions, w)
    ensures TallySweeps(actions, w) == SweepTally(0, 0)
  {
    TallyForeign([], actions, w);
    assert [] + actions == actions;
  }

  /** The exact drain of one row. */
  function Exact(admission: bool, k: Key): Selection {
    Selection(admission, (j: Key) => j == k, (j: Key) => 0)
  }

  lemma ExactMeans(admission: bool, k: Key)
    ensures Exact(admission, k).quotaAvailable == admission
    ensures forall j: Key :: Exact(admission, k).admits(j) <==> j == k
  {
  }

  /**
   * One after the other, each under a token of its own, the first rows of the page have been drained: the row was
   * claimed if it was due and nobody had locked it, and its claim has come to an end.
   */
  ghost predicate ExactlyDrained(env: Environment, since: seq<Action>, trace: seq<Action>, first: Worker,
          rows: seq<Key>, n: nat, admission: bool)
    requires n <= |rows|
  {
    forall i: nat | i < n ::
      && TookFirst(env, since, trace, first, first + i, 1, Exact(admission, rows[i]))
      && Accounted(Own(trace, first + i), 0)
  }

  lemma ExactMore(env: Environment, since: seq<Action>, before: seq<Action>, after: seq<Action>, first: Worker,
          rows: seq<Key>, n: nat, admission: bool)
    requires n < |rows| && before <= after
    requires forall u: Worker | first <= u < first + n :: Own(after, u) == Own(before, u)
    requires ExactlyDrained(env, since, before, first, rows, n, admission)
    requires TookFirst(env, since, after, first, first + n, 1, Exact(admission, rows[n]))
    requires Accounted(Own(after, first + n), 0)
    ensures ExactlyDrained(env, since, after, first, rows, n + 1, admission)
  {
    hide TookFirst, Own, Accounted, Exact;
    forall i: nat | i < n + 1
      ensures TookFirst(env, since, after, first, first + i, 1, Exact(admission, rows[i]))
      ensures Accounted(Own(after, first + i), 0)
    {
      if i < n {
        assert TookFirst(env, since, before, first, first + i, 1, Exact(admission, rows[i]));
        OneStays(env, since, before, after, first, first + i, 1, Exact(admission, rows[i]));
      }
    }
  }

  /** A page whose transactions succeed has been taken, and none of its claims is left. */
  lemma PageIsExact(env: Environment, since: seq<Action>, before: seq<Action>, world: World, trace: seq<Action>,
          first: Worker, w: Worker, page: seq<Key>, pick: Selection, call: nat, log: seq<Action>, totals: Totals,
          held: nat, rejected: bool, deleted: bool, from: nat, to: nat)
    requires world == Run(START, before) && since <= before && before + env.others(call) <= trace
    requires LogsComplete(before + env.others(call), trace, first, w) && Own(trace, w) == log
    requires var begun, free := Run(world, env.others(call)), pick.Without(env.locked(call));
             PageOf(begun, page, 1, free) && (|page| < 1 ==> forall k: Key | Due(begun, k, free) :: k in page)
    requires Begun(env.reply, page, w, pick.quotaAvailable, call + 1) <= log && totals.claimed == |page|
    requires PageReported(env, log, totals, held, rejected, deleted, from, to) && (held > 0 ==> rejected)
    requires NeverDown(env, from, to)
    ensures TookFirst(env, since, trace, first, w, 1, pick) && Accounted(Own(trace, w), 0)
  {
    hide Run, PageOf, Due, LogsComplete, Own, Begun, Count, Accounted, TookFirst;
    WasDue(env, before, world, page, 1, pick, call);
    OneTaken(env, since, before + env.others(call), trace, first, w, page, 1, pick, call, log, totals, held, rejected,
             deleted, from, to);
  }

  lemma NothingDrained(env: Environment, since: seq<Action>, first: Worker, rows: seq<Key>, admission: bool)
    ensures ExactlyDrained(env, since, since, first, rows, 0, admission)
  {
  }

  /** The drain of one page leaves the logs of the tokens before alone. */
  lemma EarlierLogs(env: Environment, before: seq<Action>, after: seq<Action>, first: Worker, v: Worker)
    requires OnlyBy(env, v, before, after) && forall u: Worker | first <= u :: Alone(env, u)
    ensures before <= after && forall u: Worker | first <= u < v :: Own(after, u) == Own(before, u)
  {
    hide Own;
  }

  lemma NeverDownPart(env: Environment, from: nat, to: nat, a: nat, b: nat)
    requires from <= a && b <= to && NeverDown(env, from, to)
    ensures NeverDown(env, a, b)
  {
  }

  /**
   * Sweep a page, then drain the intents of its admissions one by one, each under a token of its own.
   * The result is the number of admissions that have been staged. Unless the sweep is interrupted,
   * because a transaction that claims or records a failure fails, every admission that it has taken
   * is staged or given back. When all calls of the sweep succeed and the adapter is there or not needed, all of the
   * page is staged. `claimed` is when the page was taken, `swept` when the sweep had ended and the drains began.
   */
  method CleanupExpired(c: StorageCleanup, w: Worker, first: Worker, admission: bool)
    returns (staged: nat, interrupted: bool, ghost rows: seq<Key>, ghost over: set<Key>, ghost claimed: Situation,
      ghost swept: Situation)
    requires c.Valid() && Alone(c.env, w) && Foreign(c.trace, w) && w < first
    requires forall v: Worker | first <= v :: Alone(c.env, v) && Foreign(c.trace, v)
    modifies c
    ensures c.Valid() && staged <= 100
    ensures TallySweeps(c.trace, w).staged == staged
    ensures !interrupted ==>
              HoldsSweeps(c.world, w, []) && staged + TallySweeps(c.trace, w).failed == |rows| <= 100
    ensures interrupted ==> !NeverDown(c.env, old(c.writes), c.writes)
    ensures claimed.world == Run(old(c.world), c.env.others(old(c.calls)))
    ensures claimed.calls == old(c.calls) + 1 && claimed.writes == old(c.writes) + 1
    ensures if c.env.down(old(c.writes)) then interrupted && rows == []
            else ExpiredPage(claimed.world, rows, 100, c.env.locked(old(c.calls)))
    ensures swept.world == Run(START, swept.trace) && swept.trace <= c.trace
    ensures |over| == staged && forall k | k in over :: k in rows && HandedOver(swept.world.At(k))
    ensures !c.env.down(old(c.writes)) && Stageable(claimed.world, rows, admission)
            && Smooth(c.env, claimed, swept, rows) ==>
              !interrupted && staged == |rows| && forall k | k in rows :: k in over
    ensures !interrupted && NeverDown(c.env, swept.writes, c.writes) ==>
              ExactlyDrained(c.env, swept.trace, c.trace, first, rows, |rows|, admission)
  {
    hide Run, OnlyBy, TallySweeps, HoldsSweeps, ExpiredPage, HandedOver, Smooth, Stageable, NeverDown, ExactlyDrained;
    hide Own, Accounted, TookFirst, PageOf, Begun, LogsComplete, PageReported, Due, FirstFailure, Unseen, Report;
    ghost var start := c.trace;
    NothingSwept(start, w);
    ghost var from := c.writes;
    var locked := c.env.locked(c.calls);
    var committed := c.Commits();
    Pause(c, w);
    NowIs(c);
    claimed, swept, rows, over := Now(c), Now(c), [], {};
    if !committed {
      UnrecordedIsDown(c.env, from, c.writes);
      return 0, true, [], {}, claimed, swept;
    }
    ForeignSinceAll(c.env, w, start, c.trace, first);
    ForeignUnseen(c.trace, w);
    ghost var paused := c.trace;
    var page, count, stopped, handed := StageExpired(c, w, locked, admission);
    NowIs(c);
    rows, over, swept := page, handed, Now(c);
    staged, interrupted := count, stopped;
    if interrupted {
      NotNeverDown(c.env, from, from + 1, c.writes);
      return;
    }
    ForeignSinceAll(c.env, w, paused, c.trace, first);
    ghost var tally := TallySweeps(c.trace, w);
    NothingDrained(c.env, swept.trace, first, rows, admission);
    for i := 0 to |page|
      invariant c.Valid() && HoldsSweeps(c.world, w, []) && TallySweeps(c.trace, w) == tally
      invariant swept.trace <= c.trace && swept.writes <= c.writes
      invariant forall v: Worker | first + i <= v :: Alone(c.env, v) && Foreign(c.trace, v)
      invariant NeverDown(c.env, swept.writes, c.writes) ==>
                  ExactlyDrained(c.env, swept.trace, c.trace, first, rows, i, admission)
    {
      var v, k := first + i, page[i];
      ForeignUnseen(c.trace, v);
      ghost var before, was, call, write := c.trace, c.world, c.calls, c.writes;
      c.ValidMeans();
      var totals, rejected, left, taken, log := c.DrainPage(v, 1, Exact(admission, k));
      SweepUntouched(c.env, v, before, c.trace, w);
      HoldsStill(Run(START, before), c.world, w, []);
      ForeignSinceAll(c.env, v, before, c.trace, v + 1);
      EarlierLogs(c.env, before, c.trace, first, v);
      if NeverDown(c.env, swept.writes, c.writes) {
        NeverDownPart(c.env, swept.writes, c.writes, swept.writes, write);
        NeverDownPart(c.env, swept.writes, c.writes, write, write + 1);
        NeverDownPart(c.env, swept.writes, c.writes, write + 1, c.writes);
        OneWrite(c.env, write);
        OwnForeign(before, v);
        LogsAreComplete(c.env, call, before, c.trace, first, i);
        PageIsExact(c.env, swept.trace, before, was, c.trace, first, v, taken, Exact(admission, k), call, log, totals,
                    |left|, rejected, RepliesOk(c.env.reply, call + 1, call + 1 + |taken|), write + 1, c.writes);
        ExactMore(c.env, swept.trace, before, c.trace, first, rows, i, admission);
      }
    }
  }

  lemma UnrecordedIsDown(env: Environment, from: nat, to: nat)
    requires from < to && env.down(from)
    ensures !NeverDown(env, from, to)
  {
  }

  lemma NotNeverDown(env: Environment, from: nat, middle: nat, to: nat)
    requires from <= middle && !NeverDown(env, middle, to)
    ensures !NeverDown(env, from, to)
  {
  }

  lemma ForeignSinceAll(env: Environment, w: Worker, before: seq<Action>, after: seq<Action>, first: Worker)
    requires OnlyBy(env, w, before, after) && w < first
    requires forall v: Worker | first <= v :: Alone(env, v) && Foreign(before, v)
    ensures forall v: Worker | first <= v :: Foreign(after, v)
  {
    forall v: Worker | first <= v ensures Foreign(after, v) {
      ForeignSince(env, w, before, after, v);
    }
  }
}
