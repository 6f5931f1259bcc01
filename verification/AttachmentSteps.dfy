/** Every event keeps the invariant. */
module AttachmentSteps {
  import opened Wrappers
  import opened AttachmentProtocol
  import opened AttachmentInvariant

  // ---------------------------------------------------------------------
  // The workers that an event does not touch
  // ---------------------------------------------------------------------

  predicate IntentKept(i: Option<Intent>, j: Option<Intent>) {
    || j.None? || j.value.leaseOwner.None?
    || (i.Some? && i.value.id == j.value.id && i.value.leaseOwner == j.value.leaseOwner
        && i.value.leaseExpires == j.value.leaseExpires)
  }

  predicate BasisKept(v: View, u: View, now: Time) {
    && SameBasis(v, u)
    && (v.swept ==> u.swept)
    && (v.gone ==>
          && u.gone && v.intents <= u.intents && v.removedAt == u.removedAt
          && (v.Emptied(now) ==> u.Emptied(now)) && (v.Closed() ==> u.Closed()))
  }

  /** What the copies rely on stays as it was, or moves on in a way they allow. */
  lemma WorkersStay(a: Admission, b: Admission, now: Time)
    requires WorkersOk(a, now) && BasisKept(V(a), V(b), now) && IntentKept(a.intent, b.intent) && a.tokens <= b.tokens
    ensures Confirms(V(b), b.tokens, a.confirms)
    ensures Sweeps(V(b), b.tokens, a.sweeps)
    ensures Drains(V(b), now, b.tokens, a.drains)
    ensures Leases(b.intent, a.drains)
  {
    ConfirmsCarry(V(a), V(b), a.tokens, b.tokens, a.confirms);
    SweepsCarry(V(a), V(b), a.tokens, b.tokens, a.sweeps);
    DrainsCarry(V(a), V(b), now, a.tokens, b.tokens, a.drains);
    LeasesCarry(a.intent, b.intent, a.drains);
  }

  lemma BasisSame(v: View, now: Time)
    ensures BasisKept(v, v, now)
  {
  }

  /** The copies see no change at all. */
  lemma WorkersSame(a: Admission, b: Admission, now: Time)
    requires WorkersOk(a, now) && V(a) == V(b) && IntentKept(a.intent, b.intent) && a.tokens <= b.tokens
    ensures Confirms(V(b), b.tokens, a.confirms)
    ensures Sweeps(V(b), b.tokens, a.sweeps)
    ensures Drains(V(b), now, b.tokens, a.drains)
    ensures Leases(b.intent, a.drains)
  {
    BasisSame(V(a), now);
    WorkersStay(a, b, now);
  }

  lemma BasisReserve(v: View, now: Time)
    requires !v.quotaless
    ensures BasisKept(v, v.(ledger := Reserve(v.ledger)), now)
  {
  }

  lemma BasisFinalize(v: View, now: Time)
    requires v.finalizing
    ensures BasisKept(v, v.(ledger := Finalize(v.ledger)), now)
  {
  }

  lemma BasisReleaseReservation(v: View, now: Time)
    ensures BasisKept(v, v.(ledger := ReleaseReservation(v.ledger)), now)
  {
  }

  lemma BasisReleaseCommitted(v: View, now: Time)
    ensures BasisKept(v, v.(ledger := ReleaseCommitted(v.ledger)), now)
  {
  }

  lemma BasisSign(v: View, now: Time, expires: Time)
    requires !v.stored
    ensures BasisKept(v, v.(urlExpires := expires), now)
  {
  }

  lemma BasisPut(v: View, now: Time)
    requires v.disclosed && now < v.urlExpires
    ensures BasisKept(v, v.(stored := true), now)
  {
  }

  lemma BasisDelete(v: View, now: Time)
    ensures BasisKept(v, v.(stored := false), now)
  {
  }

  lemma BasisDeny(v: View, now: Time)
    requires v.ledger.reservation == Never
    ensures BasisKept(v, v.(ledger := v.ledger.(denied := true)), now)
  {
  }

  lemma BasisSwept(v: View, now: Time)
    ensures BasisKept(v, v.(swept := true), now)
  {
  }

  lemma BasisStaged(v: View, now: Time, intents: nat)
    requires v.intents <= intents
    ensures BasisKept(v, v.(gone := true, intents := intents), now)
  {
  }

  /** Nobody holds a copy before the URL is out, the admission is swept or the row is gone. */
  lemma NoCopies(a: Admission, now: Time, v: View, intent: Option<Intent>)
    requires WorkersOk(a, now) && !a.disclosed && !a.swept && !V(a).gone && intent.None?
    ensures Confirms(v, a.tokens, a.confirms)
    ensures Sweeps(v, a.tokens, a.sweeps)
    ensures Drains(v, now, a.tokens, a.drains)
    ensures Leases(intent, a.drains)
  {
    ConfirmsCarry(V(a), v, a.tokens, a.tokens, a.confirms);
    SweepsCarry(V(a), v, a.tokens, a.tokens, a.sweeps);
    DrainsCarry(V(a), v, now, a.tokens, a.tokens, a.drains);
  }

  /** Only confirmations hold copies while the row is live and not swept. */
  lemma OnlyConfirms(a: Admission, b: Admission, now: Time)
    requires WorkersOk(a, now) && !a.swept && !V(a).gone && a.tokens == b.tokens
    requires SameBasis(V(a).(removed := b.removed), V(b)) || SameBasis(V(a).(finalizing := true), V(b))
    requires b.intent.Some? ==> b.intent.value.leaseOwner.None?
    ensures Confirms(V(b), b.tokens, a.confirms)
    ensures Sweeps(V(b), b.tokens, a.sweeps)
    ensures Drains(V(b), now, b.tokens, a.drains)
    ensures Leases(b.intent, a.drains)
  {
    ConfirmsCarry(V(a), V(b), a.tokens, b.tokens, a.confirms);
    SweepsCarry(V(a), V(b), a.tokens, b.tokens, a.sweeps);
    DrainsCarry(V(a), V(b), now, a.tokens, b.tokens, a.drains);
    LeasesCarry(a.intent, b.intent, a.drains);
  }

  lemma ConfirmAt(a: Admission, now: Time, w: Worker)
    requires Inv(a, now) && w in a.confirms
    ensures LedgerOk(a) && w in a.tokens && ConfirmOk(V(a), a.confirms[w])
  {
  }

  lemma SweepAt(a: Admission, now: Time, w: Worker)
    requires Inv(a, now) && w in a.sweeps
    ensures LedgerOk(a) && w in a.tokens && SweepOk(V(a), a.sweeps[w])
  {
  }

  lemma DrainAt(a: Admission, now: Time, w: Worker)
    requires Inv(a, now) && w in a.drains
    ensures LedgerOk(a) && w in a.tokens && DrainOk(V(a), now, a.drains[w]) && LeaseOf(a.intent, w, a.drains[w])
  {
  }

  /** A new drain worker takes the lease. */
  lemma DrainNew(a: Admission, b: Admission, now: Time, w: Worker, d: Drain)
    requires WorkersOk(a, now) && w !in a.tokens && w in b.tokens && a.tokens <= b.tokens && V(a) == V(b)
    requires DrainOk(V(b), now, d) && LeaseOf(b.intent, w, d) && b.intent.Some? && b.intent.value.leaseOwner == Some(w)
    ensures Confirms(V(b), b.tokens, a.confirms)
    ensures Sweeps(V(b), b.tokens, a.sweeps)
    ensures Drains(V(b), now, b.tokens, a.drains[w := d])
    ensures Leases(b.intent, a.drains[w := d])
  {
  }

  // ---------------------------------------------------------------------
  // Moves that events are made of
  // ---------------------------------------------------------------------

  /** The rows do not depend on what workers hold. */
  lemma RowsFrame(a: Admission, b: Admission, now: Time)
    requires RowsOk(a, now) && a.tokens <= b.tokens
    requires b == a.(tokens := b.tokens, confirms := b.confirms, sweeps := b.sweeps, drains := b.drains)
    ensures RowsOk(b, now)
  {
  }

  function WithToken(a: Admission, w: Worker): Admission {
    a.(tokens := a.tokens + {w})
  }

  lemma TokenMove(a: Admission, now: Time, w: Worker)
    requires Inv(a, now)
    ensures Inv(WithToken(a, w), now)
  {
    hide Confirms, Sweeps, Drains, Leases;
    RowsFrame(a, WithToken(a, w), now);
    WorkersSame(a, WithToken(a, w), now);
  }

  lemma ConfirmMove(a: Admission, now: Time, w: Worker, c: Confirm)
    requires Inv(a, now) && w in a.tokens && ConfirmOk(V(a), c)
    ensures Inv(a.(confirms := a.confirms[w := c]), now)
  {
    hide Confirms, Sweeps, Drains, Leases;
    ConfirmSet(V(a), a.tokens, a.confirms, w, c);
    RowsFrame(a, a.(confirms := a.confirms[w := c]), now);
  }

  lemma SweepMove(a: Admission, now: Time, w: Worker, s: Sweep)
    requires Inv(a, now) && w in a.tokens && SweepOk(V(a), s)
    ensures Inv(a.(sweeps := a.sweeps[w := s]), now)
  {
    hide Confirms, Sweeps, Drains, Leases;
    SweepSet(V(a), a.tokens, a.sweeps, w, s);
    RowsFrame(a, a.(sweeps := a.sweeps[w := s]), now);
  }

  lemma DrainMove(a: Admission, now: Time, w: Worker, phase: DrainPhase)
    requires Inv(a, now) && w in a.drains && DrainOk(V(a), now, a.drains[w].(phase := phase))
    ensures Inv(SetDrain(a, w, phase), now)
  {
    hide Sweeps, Confirms, DrainOk;
    RowsFrame(a, SetDrain(a, w, phase), now);
  }

  lemma ConfirmCrashKeeps(a: Admission, now: Time, w: Worker)
    requires Inv(a, now)
    ensures Inv(DoConfirmCrash(a, w), now)
  {
    hide Confirms, Sweeps, Drains, Leases;
    ConfirmDrop(V(a), a.tokens, a.confirms, w);
    RowsFrame(a, DoConfirmCrash(a, w), now);
  }

  lemma SweepCrashKeeps(a: Admission, now: Time, w: Worker)
    requires Inv(a, now)
    ensures Inv(DoSweepCrash(a, w), now)
  {
    hide Confirms, Sweeps, Drains, Leases;
    SweepDrop(V(a), a.tokens, a.sweeps, w);
    RowsFrame(a, DoSweepCrash(a, w), now);
  }

  lemma DrainCrashKeeps(a: Admission, now: Time, w: Worker)
    requires Inv(a, now)
    ensures Inv(DoDrainCrash(a, w), now)
  {
    hide Confirms, Sweeps, Drains, Leases;
    DrainDrop(V(a), now, a.tokens, a.intent, a.drains, w);
    RowsFrame(a, DoDrainCrash(a, w), now);
  }

  function WithLease(a: Admission, owner: Option<Owner>, expires: Option<Time>): Admission
    requires a.pending.Some?
  {
    a.(pending := Some(a.pending.value.(leaseOwner := owner, leaseExpires := expires)))
  }

  lemma LeaseRows(a: Admission, now: Time, owner: Option<Owner>, expires: Option<Time>)
    requires RowsOk(a, now) && a.pending.Some?
    requires owner.Some? ==> owner.value.Sweeper? || (owner.value.Confirmer? && !a.swept)
    ensures RowsOk(WithLease(a, owner, expires), now)
  {
    assert V(WithLease(a, owner, expires)) == V(a);
    hide CopyOk, V;
  }

  /** The lease of the pending row passes to a confirmation or a sweeper, or is given back. */
  lemma LeaseMove(a: Admission, now: Time, owner: Option<Owner>, expires: Option<Time>)
    requires Inv(a, now) && a.pending.Some?
    requires owner.Some? ==> owner.value.Sweeper? || (owner.value.Confirmer? && !a.swept)
    ensures Inv(WithLease(a, owner, expires), now)
  {
    hide RowsOk;
    LeaseRows(a, now, owner, expires);
    WorkersSame(a, WithLease(a, owner, expires), now);
  }

  function WithQuota(a: Admission, quota: QuotaState, reservationId: bool): Admission
    requires a.pending.Some?
  {
    a.(pending := Some(a.pending.value.(quota := quota, reservationId := reservationId)))
  }

  lemma QuotaRows(a: Admission, now: Time, quota: QuotaState, reservationId: bool)
    requires RowsOk(a, now) && a.pending.Some? && CopyOk(V(a), KindOf(quota), reservationId)
    requires a.disclosed ==> quota == FinalizePending || quota == Committed || quota == Reserved
    requires a.disclosed ==> reservationId
    requires !OwnedBy(a, Presigner)
    ensures RowsOk(WithQuota(a, quota, reservationId), now)
  {
    assert V(WithQuota(a, quota, reservationId)) == V(a);
    hide CopyOk, V;
  }

  /** The quota state of the pending row moves on. */
  lemma QuotaMove(a: Admission, now: Time, quota: QuotaState, reservationId: bool)
    requires Inv(a, now) && a.pending.Some? && CopyOk(V(a), KindOf(quota), reservationId)
    requires a.disclosed ==> quota == FinalizePending || quota == Committed || quota == Reserved
    requires a.disclosed ==> reservationId
    requires !OwnedBy(a, Presigner)
    ensures Inv(WithQuota(a, quota, reservationId), now) && V(WithQuota(a, quota, reservationId)) == V(a)
  {
    hide RowsOk;
    QuotaRows(a, now, quota, reservationId);
    WorkersSame(a, WithQuota(a, quota, reservationId), now);
  }

  lemma CommitMove(a: Admission, now: Time)
    requires Inv(a, now) && a.pending.Some? && a.finalizing && a.ledger.committed != Never
    requires !OwnedBy(a, Presigner)
    ensures Inv(WithQuota(a, Committed, a.pending.value.reservationId), now)
    ensures V(WithQuota(a, Committed, a.pending.value.reservationId)) == V(a)
  {
    QuotaMove(a, now, Committed, a.pending.value.reservationId);
  }

  /** Calls to the quota adapter. */
  lemma ReserveMove(a: Admission, now: Time, reply: Reply)
    requires Inv(a, now) && a.created && !a.quotaless
    ensures Inv(CallReserve(a, reply), now)
  {
    hide Confirms, Sweeps, Drains, Leases, BasisKept;
    BasisSame(V(a), now);
    BasisReserve(V(a), now);
    WorkersStay(a, CallReserve(a, reply), now);
  }

  lemma FinalizeMove(a: Admission, now: Time, reply: Reply)
    requires Inv(a, now) && a.finalizing
    ensures Inv(CallFinalize(a, reply), now)
  {
    hide Confirms, Sweeps, Drains, Leases, BasisKept;
    BasisSame(V(a), now);
    BasisFinalize(V(a), now);
    WorkersStay(a, CallFinalize(a, reply), now);
  }

  lemma ReleaseReservationMove(a: Admission, now: Time)
    requires Inv(a, now)
    ensures Inv(a.(ledger := ReleaseReservation(a.ledger)), now)
  {
    hide Confirms, Sweeps, Drains, Leases, BasisKept;
    BasisReleaseReservation(V(a), now);
    WorkersStay(a, a.(ledger := ReleaseReservation(a.ledger)), now);
  }

  lemma ReleaseCommittedMove(a: Admission, now: Time)
    requires Inv(a, now) && V(a).gone
    ensures Inv(a.(ledger := ReleaseCommitted(a.ledger)), now)
  {
    hide Confirms, Sweeps, Drains, Leases, BasisKept;
    BasisReleaseCommitted(V(a), now);
    WorkersStay(a, a.(ledger := ReleaseCommitted(a.ledger)), now);
  }

  lemma StageRows(a: Admission, now: Time, kind: ReleaseKind, reservationId: bool, since: Time, retain: Option<Time>)
    requires RowsOk(a, now) && a.intent.None? && a.created && !a.attached && !a.removed
    requires CopyOk(V(a), kind, reservationId) && retain == V(a).Retain()
    ensures RowsOk(Stage(a, kind, reservationId, since, retain), now)
  {
    assert V(Stage(a, kind, reservationId, since, retain)) == V(a).(gone := true, intents := a.intents + 1);
  }

  /** What a confirmation knows of the admission it works on. */
  predicate PhaseOk(a: Admission, phase: ConfirmPhase) {
    && (phase == Marked || phase == FinalizeReplied || phase == Committing ==> a.finalizing)
    && (phase == FinalizeReplied || phase == Committing ==> a.ledger.committed != Never)
  }

  lemma ConfirmFacts(a: Admission, now: Time, w: Worker)
    requires Inv(a, now) && w in a.confirms
    ensures PhaseOk(a, a.confirms[w].phase)
  {
    ConfirmAt(a, now, w);
  }

  lemma PhaseMove(a: Admission, now: Time, w: Worker, phase: ConfirmPhase)
    requires Inv(a, now) && w in a.confirms && PhaseOk(a, phase)
    ensures Inv(SetPhase(a, w, phase), now)
  {
    hide RowsOk, WorkersOk;
    ConfirmAt(a, now, w);
    ConfirmMove(a, now, w, a.confirms[w].(phase := phase));
  }

  function WithCopy(a: Admission, w: Worker, quota: QuotaState, reservationId: bool, replied: bool): Admission
    requires w in a.sweeps
  {
    a.(sweeps := a.sweeps[w := a.sweeps[w].(quota := quota, reservationId := reservationId, replied := replied)])
  }

  /** What a sweeper knows of the admission it works on. */
  lemma SweepFacts(a: Admission, now: Time, w: Worker)
    requires Inv(a, now) && w in a.sweeps
    ensures a.created && !a.attached && !a.removed
    ensures var s := a.sweeps[w];
            && CopyOk(V(a), KindOf(s.quota), s.reservationId)
            && (s.quota == ReservePending ==> !a.quotaless)
            && (s.quota == FinalizePending ==> a.finalizing)
            && (s.quota == ReservePending && s.replied ==> CopyOk(V(a), OfReservation, true))
            && (s.quota == FinalizePending && s.replied ==> CopyOk(V(a), OfCommitted, s.reservationId)
                                                            && a.ledger.committed != Never)
            && (if s.urlIssued then Some(s.expiresAt) else None) == V(a).Retain()
  {
    hide WorkersOk;
    SweepAt(a, now, w);
  }

  lemma CopyMove(a: Admission, now: Time, w: Worker, quota: QuotaState, reservationId: bool, replied: bool)
    requires Inv(a, now) && w in a.sweeps && CopyOk(V(a), KindOf(quota), reservationId)
    requires replied && quota == ReservePending ==> a.ledger.reservation != Never
    requires replied && quota == FinalizePending ==> a.ledger.committed != Never
    ensures Inv(WithCopy(a, w, quota, reservationId, replied), now)
  {
    hide RowsOk, WorkersOk;
    SweepAt(a, now, w);
    SweepMove(a, now, w, a.sweeps[w].(quota := quota, reservationId := reservationId, replied := replied));
  }

  /** The object is deleted and the pass is the last one. */
  predicate Draining(a: Admission, w: Worker) {
    w in a.drains && a.drains[w].phase != Fetched && a.drains[w].phase != Failed && a.drains[w].FinalPass()
  }

  lemma DrainAdvance(a: Admission, now: Time, w: Worker, phase: DrainPhase)
    requires Inv(a, now) && Draining(a, w)
    requires phase == ReserveDone ==> a.ledger.reservation != Never
    requires phase == FinalizeDone ==> a.ledger.committed != Never
    requires phase == Settled ==> V(a).Closed()
    ensures Inv(SetDrain(a, w, phase), now)
  {
    hide RowsOk, WorkersOk;
    DrainAt(a, now, w);
    DrainMove(a, now, w, phase);
  }

  lemma DrainFacts(a: Admission, now: Time, w: Worker)
    requires Inv(a, now) && w in a.drains
    ensures a.created
    ensures a.drains[w].kind == OfReservePending ==> !a.quotaless
    ensures a.drains[w].kind == OfFinalizePending ==> a.finalizing
  {
    hide RowsOk, WorkersOk;
    DrainAt(a, now, w);
  }

  /** Releasing the reservation settles an admission that was never finalized. */
  lemma ReservationSettled(a: Admission, now: Time, w: Worker)
    requires Inv(a, now)
    requires || Releasing(a, w, OfReservePending, ReserveDone)
             || (Releasing(a, w, OfReservation, ObjectDeleted) && a.drains[w].reservationId)
    ensures V(a).(ledger := ReleaseReservation(a.ledger)).Closed()
  {
    hide RowsOk, WorkersOk;
    DrainAt(a, now, w);
  }

  /** Releasing the committed usage settles an admission that was finalized. */
  lemma UsageSettled(a: Admission, now: Time, w: Worker)
    requires Inv(a, now)
    requires Releasing(a, w, OfFinalizePending, FinalizeDone) || Releasing(a, w, OfCommitted, ObjectDeleted)
    ensures V(a).gone && V(a).(ledger := ReleaseCommitted(a.ledger)).Closed()
  {
    hide RowsOk, WorkersOk;
    DrainAt(a, now, w);
  }

  /** Staging, from whatever copy of the row. */
  lemma StageMove(a: Admission, now: Time, kind: ReleaseKind, reservationId: bool, since: Time, retain: Option<Time>)
    requires Inv(a, now) && a.created && !a.attached && !a.removed
    requires CopyOk(V(a), kind, reservationId) && retain == V(a).Retain()
    ensures Inv(Stage(a, kind, reservationId, since, retain), now)
  {
    var b := Stage(a, kind, reservationId, since, retain);
    if a.intent.Some? {
      assert b == a;
    } else {
      hide Confirms, Sweeps, Drains, Leases, BasisKept;
      BasisStaged(V(a), now, b.intents);
      WorkersStay(a, b, now);
      StageRows(a, now, kind, reservationId, since, retain);
    }
  }

  lemma StageRowMove(a: Admission, now: Time)
    requires Inv(a, now) && a.pending.Some?
    ensures Inv(StageRow(a, now), now)
  {
    hide WorkersOk;
    var p := a.pending.value;
    var kind := QuotaReleaseFor(p.quota, p.reservationId);
    if kind.Some? {
      StageMove(a, now, kind.value, p.reservationId, now, if p.urlIssued then Some(p.expiresAt) else None);
    }
  }

  function WithIntentFree(a: Admission, notBefore: Time, deferrals: nat): Admission
    requires a.intent.Some?
  {
    a.(intent := Some(a.intent.value.(notBefore := notBefore, leaseOwner := None, leaseExpires := None,
                                      deferrals := deferrals)))
  }

  /** The lease of the outbox row is given back. */
  lemma IntentMove(a: Admission, now: Time, notBefore: Time, deferrals: nat)
    requires Inv(a, now) && a.intent.Some? && DeferredOk(WithIntentFree(a, notBefore, deferrals).intent.value)
    ensures Inv(WithIntentFree(a, notBefore, deferrals), now)
  {
    hide Confirms, Sweeps, Drains, Leases, BasisKept, CopyOk;
    WorkersSame(a, WithIntentFree(a, notBefore, deferrals), now);
  }

  // ---------------------------------------------------------------------
  // Events
  // ---------------------------------------------------------------------

  lemma CreateKeeps(a: Admission, now: Time, startedAt: Time, lifetime: nat, quota: bool, workspace: bool)
    requires Inv(a, now)
    ensures Inv(DoCreate(a, now, startedAt, lifetime, quota, workspace), now)
  {
    hide Confirms, Sweeps, Drains, Leases, BasisKept;
    var b := DoCreate(a, now, startedAt, lifetime, quota, workspace);
    if a.created {
      BasisSame(V(a), now);
      WorkersStay(a, b, now);
    } else {
      NoCopies(a, now, V(b), b.intent);
    }
  }

  lemma ReplyMove(a: Admission, now: Time, presign: Presign)
    requires Inv(a, now) && a.presign == Inserted && !a.quotaless
    requires presign == ReserveReplied ==> a.ledger.reservation != Never
    requires presign == ReserveReplied || presign == ReserveFailed(false) || (presign == ReserveFailed(true)
             && a.ledger.denied)
    ensures Inv(a.(presign := presign), now)
  {
    hide Confirms, Sweeps, Drains, Leases;
    WorkersSame(a, a.(presign := presign), now);
  }

  lemma PresignReserveKeeps(a: Admission, now: Time, reply: Reply)
    requires Inv(a, now)
    ensures Inv(DoPresignReserve(a, reply), now)
  {
    hide RowsOk, WorkersOk;
    if a.presign == Inserted && !a.quotaless && ReserveReplyOk(a.ledger, reply) {
      Requesting(a, now);
      ReserveMove(a, now, reply);
      ReplyMove(CallReserve(a, reply), now, match reply
                                            case Success => ReserveReplied
                                            case Retryable(_) => ReserveFailed(false)
                                            case Terminal(_) => ReserveFailed(true));
    }
  }

  lemma Requesting(a: Admission, now: Time)
    requires Inv(a, now) && !a.presign.NotStarted?
    ensures a.created && (a.ledger.denied ==> a.ledger.reservation == Never)
  {
    hide WorkersOk;
  }

  /** The reservation is recorded in the row. */
  function Recording(a: Admission): Admission
    requires a.pending.Some?
  {
    a.(pending := Some(a.pending.value.(quota := Reserved, reservationId := true)), presign := Recorded)
  }

  lemma RecordRows(a: Admission, now: Time)
    requires RowsOk(a, now) && a.presign == ReserveReplied && OwnedBy(a, Presigner)
    ensures RowsOk(Recording(a), now)
  {
    assert V(Recording(a)) == V(a);
    hide V;
  }

  lemma RecordMove(a: Admission, now: Time)
    requires Inv(a, now) && a.presign == ReserveReplied && OwnedBy(a, Presigner)
    ensures Inv(Recording(a), now)
  {
    hide RowsOk;
    RecordRows(a, now);
    WorkersSame(a, Recording(a), now);
  }

  lemma PresignRecordKeeps(a: Admission, now: Time)
    requires Inv(a, now)
    ensures Inv(DoPresignRecord(a), now)
  {
    hide Confirms, Sweeps, Drains, Leases;
    if a.presign == ReserveReplied {
      if OwnedBy(a, Presigner) {
        RecordMove(a, now);
      } else {
        WorkersSame(a, a.(presign := LeaseLost), now);
      }
    }
  }

  lemma PresignReserveFailedKeeps(a: Admission, now: Time)
    requires Inv(a, now)
    ensures Inv(DoPresignReserveFailed(a, now), now)
  {
    hide Confirms, Sweeps, Drains, Leases, BasisKept;
    var b := DoPresignReserveFailed(a, now);
    BasisSame(V(a), now);
    WorkersStay(a, b, now);
  }

  lemma PresignSignKeeps(a: Admission, now: Time)
    requires Inv(a, now)
    ensures Inv(DoPresignSign(a, now), now)
  {
    hide Confirms, Sweeps, Drains, Leases, BasisKept;
    var b := DoPresignSign(a, now);
    BasisSame(V(a), now);
    if !a.stored {
      BasisSign(V(a), now, now + a.terms.lifetime);
    }
    WorkersStay(a, b, now);
  }

  lemma PresignIssueKeeps(a: Admission, now: Time)
    requires Inv(a, now)
    ensures Inv(DoPresignIssue(a), now)
  {
    hide Confirms, Sweeps, Drains, Leases, BasisKept;
    var b := DoPresignIssue(a);
    if a.presign == Signed && OwnedBy(a, Presigner) {
      NoCopies(a, now, V(b), b.intent);
    } else {
      BasisSame(V(a), now);
      WorkersStay(a, b, now);
    }
  }

  lemma PresignFailKeeps(a: Admission, now: Time)
    requires Inv(a, now)
    ensures Inv(DoPresignFail(a, now), now)
  {
    hide Confirms, Sweeps, Drains, Leases, BasisKept;
    var b := DoPresignFail(a, now);
    BasisSame(V(a), now);
    WorkersStay(a, b, now);
  }

  lemma PresignCrashKeeps(a: Admission, now: Time)
    requires Inv(a, now)
    ensures Inv(DoPresignCrash(a), now)
  {
    hide Confirms, Sweeps, Drains, Leases, BasisKept;
    var b := DoPresignCrash(a);
    BasisSame(V(a), now);
    WorkersStay(a, b, now);
  }

  lemma PutKeeps(a: Admission, now: Time)
    requires Inv(a, now)
    ensures Inv(DoPut(a, now), now)
  {
    hide Confirms, Sweeps, Drains, Leases, BasisKept;
    var b := DoPut(a, now);
    BasisSame(V(a), now);
    if a.disclosed && now < a.urlExpires {
      BasisPut(V(a), now);
    }
    WorkersStay(a, b, now);
  }

  lemma DenyKeeps(a: Admission, now: Time)
    requires Inv(a, now)
    ensures Inv(DoDeny(a), now)
  {
    hide Confirms, Sweeps, Drains, Leases, BasisKept;
    var b := DoDeny(a);
    BasisSame(V(a), now);
    if a.ledger.reservation == Never {
      BasisDeny(V(a), now);
    }
    WorkersStay(a, b, now);
  }

  lemma LateReserveKeeps(a: Admission, now: Time)
    requires Inv(a, now)
    ensures Inv(DoLateReserve(a), now)
  {
    hide Confirms, Sweeps, Drains, Leases, BasisKept;
    var b := DoLateReserve(a);
    BasisSame(V(a), now);
    if !a.quotaless {
      BasisReserve(V(a), now);
    }
    WorkersStay(a, b, now);
  }

  lemma LateFinalizeKeeps(a: Admission, now: Time)
    requires Inv(a, now)
    ensures Inv(DoLateFinalize(a), now)
  {
    hide Confirms, Sweeps, Drains, Leases, BasisKept;
    var b := DoLateFinalize(a);
    BasisSame(V(a), now);
    if a.finalizing {
      BasisFinalize(V(a), now);
    }
    WorkersStay(a, b, now);
  }

  lemma LateDeleteKeeps(a: Admission, now: Time)
    requires Inv(a, now)
    ensures Inv(DoLateDelete(a), now)
  {
    hide Confirms, Sweeps, Drains, Leases, BasisKept;
    var b := DoLateDelete(a);
    BasisSame(V(a), now);
    BasisDelete(V(a), now);
    WorkersStay(a, b, now);
  }

  lemma ConfirmClaimKeeps(a: Admission, now: Time, w: Worker)
    requires Inv(a, now)
    ensures Inv(DoConfirmClaim(a, now, w), now)
  {
    hide WorkersOk;
    var b := DoConfirmClaim(a, now, w);
    if b != a {
      var c := WithLease(WithToken(a, w), Some(Confirmer(w)), Some(now + CONFIRM_LEASE));
      TokenMove(a, now, w);
      LeaseMove(WithToken(a, w), now, Some(Confirmer(w)), Some(now + CONFIRM_LEASE));
      assert V(c) == V(a);
      ConfirmMove(c, now, w, b.confirms[w]);
    }
  }

  /** A confirmation announces that it will finalize the reservation. */
  function Marking(a: Admission): Admission
    requires a.pending.Some?
  {
    a.(pending := Some(a.pending.value.(quota := FinalizePending)), history := a.history.(finalizing := true))
  }

  lemma MarkMove(a: Admission, now: Time, w: Worker)
    requires Inv(a, now) && w in a.confirms && OwnedBy(a, Confirmer(w)) && a.confirms[w].reservationId
    ensures Inv(Marking(a), now)
  {
    hide Confirms, Sweeps, Drains, Leases;
    ConfirmAt(a, now, w);
    OnlyConfirms(a, Marking(a), now);
  }

  lemma ConfirmMarkKeeps(a: Admission, now: Time, w: Worker)
    requires Inv(a, now)
    ensures Inv(DoConfirmMark(a, w), now)
  {
    hide Inv;
    if w in a.confirms && a.confirms[w].phase == Claimed && a.confirms[w].reservationId {
      if OwnedBy(a, Confirmer(w)) {
        MarkMove(a, now, w);
        PhaseMove(Marking(a), now, w, Marked);
      } else {
        PhaseMove(a, now, w, Retrying);
      }
    }
  }

  lemma ConfirmFinalizeKeeps(a: Admission, now: Time, w: Worker, reply: Reply)
    requires Inv(a, now)
    ensures Inv(DoConfirmFinalize(a, w, reply), now)
  {
    hide Inv;
    if w in a.confirms && a.confirms[w].phase == Marked {
      ConfirmFacts(a, now, w);
      FinalizeMove(a, now, reply);
      PhaseMove(CallFinalize(a, reply), now, w, match reply
                                                case Success => FinalizeReplied
                                                case Retryable(_) => Retrying
                                                case Terminal(_) => Rejected);
    }
  }

  lemma ConfirmRecordKeeps(a: Admission, now: Time, w: Worker)
    requires Inv(a, now)
    ensures Inv(DoConfirmRecord(a, w), now)
  {
    hide Inv;
    if w in a.confirms && a.confirms[w].phase == FinalizeReplied {
      ConfirmFacts(a, now, w);
      if OwnedBy(a, Confirmer(w)) {
        CommitMove(a, now);
        PhaseMove(WithQuota(a, Committed, a.pending.value.reservationId), now, w, Committing);
      } else {
        PhaseMove(a, now, w, Retrying);
      }
    }
  }

  /** The final transaction of a confirmation. */
  function Attaching(a: Admission): Admission {
    a.(attached := true, pending := None)
  }

  lemma AttachMove(a: Admission, now: Time, w: Worker)
    requires Inv(a, now) && ReadyToInsert(a, w) && OwnedBy(a, Confirmer(w))
    ensures Inv(Attaching(a), now)
  {
    hide Confirms, Sweeps, Drains, Leases, BasisKept;
    ConfirmAt(a, now, w);
    WorkersSame(a, Attaching(a), now);
  }

  lemma ConfirmInsertKeeps(a: Admission, now: Time, w: Worker)
    requires Inv(a, now)
    ensures Inv(DoConfirmInsert(a, now, w), now)
  {
    hide Inv;
    if ReadyToInsert(a, w) {
      if OwnedBy(a, Confirmer(w)) && !LeaseFree(a.pending.value.leaseExpires, now) {
        AttachMove(a, now, w);
        ConfirmCrashKeeps(Attaching(a), now, w);
      } else {
        PhaseMove(a, now, w, Rejected);
      }
    }
  }

  lemma ConfirmAbandonKeeps(a: Admission, now: Time, w: Worker)
    requires Inv(a, now)
    ensures Inv(DoConfirmAbandon(a, now, w), now)
  {
    hide RowsOk, WorkersOk;
    if w in a.confirms {
      ConfirmCrashKeeps(a, now, w);
      if OwnedBy(a, Confirmer(w)) {
        StageRowMove(DoConfirmCrash(a, w), now);
      }
    }
  }

  lemma ConfirmReleaseKeeps(a: Admission, now: Time, w: Worker)
    requires Inv(a, now)
    ensures Inv(DoConfirmRelease(a, now, w), now)
  {
    hide RowsOk, WorkersOk;
    if w in a.confirms {
      ConfirmCrashKeeps(a, now, w);
      if OwnedBy(a, Confirmer(w)) {
        LeaseMove(DoConfirmCrash(a, w), now, None, Some(now));
      }
    }
  }

  lemma SweptMove(a: Admission, now: Time)
    requires Inv(a, now) && a.pending.Some? && (a.disclosed ==> a.expiresAt <= now)
    requires a.pending.value.leaseOwner.Some? && a.pending.value.leaseOwner.value.Sweeper?
    ensures Inv(a.(history := a.history.(swept := true)), now)
  {
    hide Confirms, Sweeps, Drains, Leases, BasisKept;
    BasisSwept(V(a), now);
    WorkersStay(a, a.(history := a.history.(swept := true)), now);
  }

  lemma SweepClaimKeeps(a: Admission, now: Time, w: Worker)
    requires Inv(a, now)
    ensures Inv(DoSweepClaim(a, now, w), now)
  {
    hide WorkersOk;
    var b := DoSweepClaim(a, now, w);
    if b != a {
      var c := WithLease(WithToken(a, w), Some(Sweeper(w)), Some(now + SWEEP_LEASE));
      TokenMove(a, now, w);
      LeaseMove(WithToken(a, w), now, Some(Sweeper(w)), Some(now + SWEEP_LEASE));
      SweptMove(c, now);
      SweepMove(c.(history := c.history.(swept := true)), now, w, b.sweeps[w]);
    }
  }

  lemma SweepReserveKeeps(a: Admission, now: Time, w: Worker, reply: Reply)
    requires Inv(a, now)
    ensures Inv(DoSweepReserve(a, w, reply), now)
  {
    hide Inv, CopyOk, V;
    if w in a.sweeps && a.sweeps[w].quota == ReservePending && !a.sweeps[w].replied && ReserveReplyOk(a.ledger, reply) {
      SweepFacts(a, now, w);
      ReserveMove(a, now, reply);
      if reply.Success? {
        SweepFacts(CallReserve(a, reply), now, w);
        CopyMove(CallReserve(a, reply), now, w, ReservePending, a.sweeps[w].reservationId, true);
      }
    }
  }

  lemma SweepRecordReserveKeeps(a: Admission, now: Time, w: Worker)
    requires Inv(a, now)
    ensures Inv(DoSweepRecordReserve(a, w), now)
  {
    hide Inv, CopyOk, V;
    if w in a.sweeps && a.sweeps[w].quota == ReservePending && a.sweeps[w].replied {
      SweepFacts(a, now, w);
      if OwnedBy(a, Sweeper(w)) {
        QuotaMove(a, now, Reserved, true);
        CopyMove(WithQuota(a, Reserved, true), now, w, Reserved, true, false);
      } else {
        CopyMove(a, now, w, Reserved, true, false);
      }
    }
  }

  lemma SweepFinalizeKeeps(a: Admission, now: Time, w: Worker, reply: Reply)
    requires Inv(a, now)
    ensures Inv(DoSweepFinalize(a, w, reply), now)
  {
    hide Inv, CopyOk, V;
    if w in a.sweeps && a.sweeps[w].quota == FinalizePending && !a.sweeps[w].replied && a.sweeps[w].reservationId {
      SweepFacts(a, now, w);
      FinalizeMove(a, now, reply);
      if reply.Success? {
        SweepFacts(CallFinalize(a, reply), now, w);
        CopyMove(CallFinalize(a, reply), now, w, FinalizePending, a.sweeps[w].reservationId, true);
      }
    }
  }

  lemma CopyCommitMove(a: Admission, now: Time, w: Worker)
    requires Inv(a, now) && w in a.sweeps && a.sweeps[w].quota == FinalizePending && a.sweeps[w].replied
    ensures Inv(a.(sweeps := a.sweeps[w := a.sweeps[w].(quota := Committed, replied := false)]), now)
  {
    hide RowsOk, WorkersOk;
    SweepAt(a, now, w);
    SweepMove(a, now, w, a.sweeps[w].(quota := Committed, replied := false));
  }

  lemma SweepRecordCommitKeeps(a: Admission, now: Time, w: Worker)
    requires Inv(a, now)
    ensures Inv(DoSweepRecordCommit(a, w), now)
  {
    hide Inv, CopyOk, V;
    if w in a.sweeps && a.sweeps[w].quota == FinalizePending && a.sweeps[w].replied {
      SweepFacts(a, now, w);
      CopyCommitMove(a, now, w);
      if OwnedBy(a, Sweeper(w)) {
        CommitMove(a.(sweeps := a.sweeps[w := a.sweeps[w].(quota := Committed, replied := false)]), now);
      }
    }
  }

  lemma SweepStageKeeps(a: Admission, now: Time, w: Worker)
    requires Inv(a, now)
    ensures Inv(DoSweepStage(a, w), now)
  {
    hide Inv, CopyOk;
    if w in a.sweeps && a.sweeps[w].quota != ReservePending && a.sweeps[w].quota != FinalizePending {
      var s := a.sweeps[w];
      var kind := QuotaReleaseFor(s.quota, s.reservationId);
      if kind.Some? {
        SweepFacts(a, now, w);
        SweepCrashKeeps(a, now, w);
        var retain := if s.urlIssued then Some(s.expiresAt) else None;
        StageMove(DoSweepCrash(a, w), now, kind.value, s.reservationId, s.since, retain);
        assert DoSweepStage(a, w) == Stage(DoSweepCrash(a, w), kind.value, s.reservationId, s.since, retain);
      }
    }
  }

  lemma SweepFailKeeps(a: Admission, now: Time, w: Worker)
    requires Inv(a, now)
    ensures Inv(DoSweepFail(a, now, w), now)
  {
    hide RowsOk, WorkersOk;
    if w in a.sweeps {
      SweepCrashKeeps(a, now, w);
      if OwnedBy(a, Sweeper(w)) {
        LeaseMove(DoSweepCrash(a, w), now, None, Some(now + SWEEP_LEASE));
      }
    }
  }

  lemma PurgeStageKeeps(a: Admission, now: Time)
    requires Inv(a, now)
    ensures Inv(DoPurgeStage(a, now), now)
  {
    hide RowsOk, WorkersOk;
    if a.pending.Some? {
      StageRowMove(a, now);
    }
  }

  lemma TokenAbandonKeeps(a: Admission, now: Time)
    requires Inv(a, now)
    ensures Inv(DoTokenAbandon(a, now), now)
  {
    hide RowsOk, WorkersOk;
    if a.pending.Some? {
      StageRowMove(a, now);
    }
  }

  lemma RemoveAttachmentKeeps(a: Admission, now: Time)
    requires Inv(a, now)
    ensures Inv(DoRemoveAttachment(a, now), now)
  {
    hide Confirms, Sweeps, Drains, Leases, BasisKept;
    var b := DoRemoveAttachment(a, now);
    if a.attached && a.intent.None? {
      OnlyConfirms(a, b, now);
    } else {
      BasisSame(V(a), now);
      WorkersStay(a, b, now);
    }
  }

  lemma DrainClaimKeeps(a: Admission, now: Time, w: Worker, quotaAvailable: bool)
    requires Inv(a, now)
    ensures Inv(DoDrainClaim(a, now, w, quotaAvailable), now)
  {
    hide Confirms, Sweeps, Drains, Leases, BasisKept;
    var b := DoDrainClaim(a, now, w, quotaAvailable);
    if b != a {
      DrainNew(a, b, now, w, b.drains[w]);
    }
  }

  function Deleting(a: Admission, reply: Reply): Admission {
    a.(store := a.store.(stored := a.stored && !reply.Applied()), sent := a.sent.(delete := true))
  }

  lemma DeleteMove(a: Admission, now: Time, reply: Reply)
    requires Inv(a, now) && V(a).gone
    ensures Inv(Deleting(a, reply), now)
  {
    hide Confirms, Sweeps, Drains, Leases, BasisKept;
    BasisSame(V(a), now);
    BasisDelete(V(a), now);
    WorkersStay(a, Deleting(a, reply), now);
  }

  lemma DeletedMove(a: Admission, now: Time, w: Worker, reply: Reply)
    requires Inv(a, now) && Inv(Deleting(a, reply), now) && w in a.drains && a.drains[w].phase == Fetched
    ensures Inv(SetDrain(Deleting(a, reply), w, if reply.Success? then ObjectDeleted else Failed), now)
  {
    hide RowsOk, WorkersOk;
    DrainAt(Deleting(a, reply), now, w);
    DrainMove(Deleting(a, reply), now, w, if reply.Success? then ObjectDeleted else Failed);
  }

  lemma DrainDeleteKeeps(a: Admission, now: Time, w: Worker, reply: Reply)
    requires Inv(a, now)
    ensures Inv(DoDrainDelete(a, w, reply), now)
  {
    hide Inv;
    if w in a.drains && a.drains[w].phase == Fetched {
      DrainAt(a, now, w);
      DeleteMove(a, now, reply);
      DeletedMove(a, now, w, reply);
    }
  }

  /** A worker that may defer has found the intent before its first deferral. */
  lemma FirstDeferral(a: Admission, now: Time, w: Worker)
    requires Inv(a, now) && ClaimedBy(a, w) && !a.drains[w].FinalPass()
    ensures a.intent.value.deferrals == 0 && a.intent.value.retainUntil == a.drains[w].retainUntil
  {
    hide Confirms, Sweeps;
    DrainAt(a, now, w);
  }

  lemma DrainDeferKeeps(a: Admission, now: Time, w: Worker)
    requires Inv(a, now)
    ensures Inv(DoDrainDefer(a, w), now)
  {
    hide Inv;
    if w in a.drains && a.drains[w].phase == ObjectDeleted && !a.drains[w].FinalPass() {
      DrainAt(a, now, w);
      DrainCrashKeeps(a, now, w);
      if ClaimedBy(a, w) {
        FirstDeferral(a, now, w);
        IntentMove(DoDrainCrash(a, w), now, a.drains[w].retainUntil.value, a.intent.value.deferrals + 1);
      }
    }
  }

  lemma DrainReserveKeeps(a: Admission, now: Time, w: Worker, reply: Reply)
    requires Inv(a, now)
    ensures Inv(DoDrainReserve(a, w, reply), now)
  {
    hide Inv, V;
    if Releasing(a, w, OfReservePending, ObjectDeleted) && ReserveReplyOk(a.ledger, reply) {
      DrainFacts(a, now, w);
      ReserveMove(a, now, reply);
      DrainAdvance(CallReserve(a, reply), now, w, AfterCall(reply, ReserveDone));
    }
  }

  lemma DrainReleaseReservationKeeps(a: Admission, now: Time, w: Worker, reply: Reply)
    requires Inv(a, now)
    ensures Inv(DoDrainReleaseReservation(a, w, reply), now)
  {
    hide Inv;
    if Releasing(a, w, OfReservePending, ReserveDone)
       || (Releasing(a, w, OfReservation, ObjectDeleted) && a.drains[w].reservationId) {
      if reply.Applied() {
        ReleaseReservationMove(a, now);
        ReservationSettled(a, now, w);
        DrainAdvance(a.(ledger := ReleaseReservation(a.ledger)), now, w, AfterCall(reply, Settled));
      } else {
        DrainAdvance(a, now, w, AfterCall(reply, Settled));
      }
    }
  }

  lemma DrainFinalizeKeeps(a: Admission, now: Time, w: Worker, reply: Reply)
    requires Inv(a, now)
    ensures Inv(DoDrainFinalize(a, w, reply), now)
  {
    hide Inv, V;
    if Releasing(a, w, OfFinalizePending, ObjectDeleted) && a.drains[w].reservationId {
      DrainFacts(a, now, w);
      FinalizeMove(a, now, reply);
      DrainAdvance(CallFinalize(a, reply), now, w, AfterCall(reply, FinalizeDone));
    }
  }

  lemma DrainReleaseCommittedKeeps(a: Admission, now: Time, w: Worker, reply: Reply)
    requires Inv(a, now)
    ensures Inv(DoDrainReleaseCommitted(a, w, reply), now)
  {
    hide Inv;
    if Releasing(a, w, OfFinalizePending, FinalizeDone) || Releasing(a, w, OfCommitted, ObjectDeleted) {
      if reply.Applied() {
        UsageSettled(a, now, w);
        ReleaseCommittedMove(a, now);
        DrainAdvance(a.(ledger := ReleaseCommitted(a.ledger)), now, w, AfterCall(reply, Settled));
      } else {
        DrainAdvance(a, now, w, AfterCall(reply, Settled));
      }
    }
  }

  lemma RetireMove(a: Admission, now: Time, settled: bool)
    requires Inv(a, now) && V(a).gone && V(a).Emptied(now) && (settled ==> V(a).Closed())
    ensures Inv(a.(intent := None, history := a.history.(retired := true, settled := a.settled || settled)), now)
  {
    hide Confirms, Sweeps, Drains, Leases, BasisKept, CopyOk;
    WorkersSame(a, a.(intent := None, history := a.history.(retired := true, settled := a.settled || settled)), now);
  }

  /** Retirement comes after the final delete, and with the quota settled unless it was rejected. */
  lemma LastPass(a: Admission, now: Time, w: Worker)
    requires Inv(a, now) && MayAcknowledge(a, w)
    ensures V(a).gone && V(a).Emptied(now) && (a.drains[w].phase != QuotaRejected ==> V(a).Closed())
  {
    hide Confirms, Sweeps;
    DrainAt(a, now, w);
  }

  lemma DrainAcknowledgeKeeps(a: Admission, now: Time, w: Worker)
    requires Inv(a, now)
    ensures Inv(DoDrainAcknowledge(a, w), now)
  {
    hide Inv;
    if MayAcknowledge(a, w) {
      DrainCrashKeeps(a, now, w);
      if ClaimedBy(a, w) {
        LastPass(a, now, w);
        RetireMove(DoDrainCrash(a, w), now, a.drains[w].phase != QuotaRejected);
      }
    }
  }

  /** A failed pass is retried after the time to retain, if the intent had been deferred. */
  lemma RetryLater(a: Admission, now: Time, w: Worker)
    requires Inv(a, now) && ClaimedBy(a, w)
    ensures DeferredOk(WithIntentFree(a, a.drains[w].claimedAt + DRAIN_LEASE, a.intent.value.deferrals).intent.value)
  {
    hide Confirms, Sweeps;
    DrainAt(a, now, w);
  }

  lemma DrainFailKeeps(a: Admission, now: Time, w: Worker)
    requires Inv(a, now)
    ensures Inv(DoDrainFail(a, w), now)
  {
    hide Inv;
    if w in a.drains {
      DrainCrashKeeps(a, now, w);
      if ClaimedBy(a, w) {
        RetryLater(a, now, w);
        IntentMove(DoDrainCrash(a, w), now, a.drains[w].claimedAt + DRAIN_LEASE, a.intent.value.deferrals);
      }
    }
  }
}
