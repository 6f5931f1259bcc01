/**
 * The life of an attachment upload: admission, presigned URL, confirmation, and the cleanup
 * outbox that removes the object and gives the storage quota back.
 *
 * An `Admission` collects everything that concerns one storage key: the pending row, the outbox
 * row, the attachment row, the stored object, the quota ledger of the operation key, and what
 * each running worker holds in memory. `Next` performs one event: one database transaction, one
 * call to the object store or the quota adapter, or a crash. An event that is not enabled leaves
 * the admission as it is.
 */
module AttachmentProtocol {
  import opened Wrappers

  type Time = nat
  type Worker = nat

  const PRESIGN_LEASE := 60
  const SWEEP_LEASE := 60
  const DRAIN_LEASE := 60
  const CONFIRM_LEASE := 300

  // ---------------------------------------------------------------------
  // Quota ledger of one operation key
  // ---------------------------------------------------------------------

  datatype Usage = Never | Held | Released

  /** `denied` records that the adapter has rejected this key; a rejection is stable. */
  datatype Ledger = Ledger(reservation: Usage, committed: Usage, denied: bool)

  function Reserve(l: Ledger): Ledger {
    if l.reservation == Never && !l.denied then l.(reservation := Held) else l
  }

  function Finalize(l: Ledger): Ledger {
    if l.committed == Never then
      Ledger(if l.reservation == Held then Released else l.reservation, Held, l.denied)
    else l
  }

  function ReleaseReservation(l: Ledger): Ledger {
    if l.reservation == Held then l.(reservation := Released) else l
  }

  function ReleaseCommitted(l: Ledger): Ledger {
    if l.committed == Held then l.(committed := Released) else l
  }

  /** How a call ended for the caller. A failed call may or may not have had its effect. */
  datatype Reply = Success | Retryable(applied: bool) | Terminal(applied: bool) {
    predicate Applied() {
      Success? || applied
    }
  }

  predicate HoldsNothing(l: Ledger) {
    l.reservation != Held && l.committed != Held
  }

  // ---------------------------------------------------------------------
  // Rows and workers
  // ---------------------------------------------------------------------

  datatype QuotaState = NotRequired | ReservePending | Reserved | FinalizePending | Committed

  datatype Owner = Presigner | Confirmer(worker: Worker) | Sweeper(worker: Worker)

  datatype Pending = Pending(
    quota: QuotaState,
    reservationId: bool,
    urlIssued: bool,
    expiresAt: Time,
    leaseOwner: Option<Owner>,
    leaseExpires: Option<Time>)

  datatype ReleaseKind = NoRelease | OfReservePending | OfReservation | OfFinalizePending | OfCommitted

  datatype Source = PendingUpload | Attachment

  datatype Intent = Intent(
    id: nat,
    source: Source,
    kind: ReleaseKind,
    reservationId: bool,
    notBefore: Time,
    retainUntil: Option<Time>,
    leaseOwner: Option<Worker>,
    leaseExpires: Option<Time>,
    deferrals: nat)

  datatype Presign =
    | NotStarted
    | Inserted
    | ReserveReplied
    | ReserveFailed(terminal: bool)
    | Recorded
    | Signed
    | LeaseLost
    | Done

  datatype ConfirmPhase = Claimed | Marked | FinalizeReplied | Committing | Rejected | Retrying
  datatype Confirm = Confirm(phase: ConfirmPhase, reservationId: bool)

  /** A sweeper's copy of the pending row; `replied` says that a quota call has succeeded. */
  datatype Sweep = Sweep(
    quota: QuotaState, reservationId: bool, urlIssued: bool, expiresAt: Time, since: Time, replied: bool)

  datatype DrainPhase =
    | Fetched
    | ObjectDeleted
    | ReserveDone
    | FinalizeDone
    | Settled
    | QuotaRejected
    | Failed

  /** A drain worker's copy of the outbox row, taken at `claimedAt`. */
  datatype Drain = Drain(
    intent: nat, kind: ReleaseKind, reservationId: bool, retainUntil: Option<Time>,
    claimedAt: Time, phase: DrainPhase)
  {
    /** The URL had expired when the row was claimed, so this pass is the last one. */
    predicate FinalPass() {
      retainUntil.None? || retainUntil.value <= claimedAt
    }
  }

  /** What the presign request fixes; `lifetime` is the configured lifetime of URLs in seconds. */
  datatype Terms = Terms(created: bool, quotaless: bool, workspace: bool, lifetime: nat, expiresAt: Time)

  /** The stored object and the URL that admits it; only a disclosed URL can be used. */
  datatype Store = Store(urlExpires: Time, disclosed: bool, stored: bool)

  /** Requests that have been sent and may be delivered late. */
  datatype Sent = Sent(reserve: bool, finalize: bool, delete: bool)

  /** What has happened: not part of the system, but what its properties speak about. */
  datatype History = History(
    intents: nat,
    swept: bool,
    finalizing: bool,
    removed: bool,
    removedAt: Time,
    retired: bool,
    settled: bool)

  datatype Admission = Admission(
    terms: Terms,
    pending: Option<Pending>,
    intent: Option<Intent>,
    attached: bool,
    store: Store,
    ledger: Ledger,
    presign: Presign,
    confirms: map<Worker, Confirm>,
    sweeps: map<Worker, Sweep>,
    drains: map<Worker, Drain>,
    tokens: set<Worker>,
    sent: Sent,
    history: History)
  {
    const created := terms.created
    const quotaless := terms.quotaless
    const workspace := terms.workspace
    const expiresAt := terms.expiresAt
    const urlExpires := store.urlExpires
    const disclosed := store.disclosed
    const stored := store.stored
    const reserveSent := sent.reserve
    const finalizeSent := sent.finalize
    const deleteSent := sent.delete
    const intents := history.intents
    const swept := history.swept
    const finalizing := history.finalizing
    const removed := history.removed
    const removedAt := history.removedAt
    const retired := history.retired
    const settled := history.settled
  }

  const FRESH := Admission(
    Terms(false, false, false, 0, 0), None, None, false, Store(0, false, false), Ledger(Never, Never, false),
    NotStarted, map[], map[], map[], {}, Sent(false, false, false),
    History(0, false, false, false, 0, false, false))

  /** The presign request. */
  datatype PresignEvent =
    | Create(startedAt: Time, lifetime: nat, quota: bool, workspace: bool)
    | PresignReserve(reply: Reply)
    | PresignRecord
    | PresignReserveFailed
    | PresignSign
    | PresignIssue
    | PresignFail
    | PresignCrash

  /** The client, the adapter's own decisions, and requests delivered late. */
  datatype OutsideEvent = Put | Deny | LateReserve | LateFinalize | LateDelete

  /** The confirm request of worker `w`. */
  datatype ConfirmEvent =
    | ConfirmClaim
    | ConfirmMark
    | ConfirmFinalize(reply: Reply)
    | ConfirmRecord
    | ConfirmInsert
    | ConfirmAbandon
    | ConfirmRelease
    | ConfirmCrash

  /** The sweep of expired admissions, run by worker `w`. */
  datatype SweepEvent =
    | SweepClaim
    | SweepReserve(reply: Reply)
    | SweepRecordReserve
    | SweepFinalize(reply: Reply)
    | SweepRecordCommit
    | SweepStage
    | SweepFail
    | SweepCrash

  /** Other ways to stage an intent. */
  datatype StageEvent = PurgeStage | TokenAbandon | RemoveAttachment

  /** What a transaction of the drain was meant to do. */
  datatype Transaction = Deferring | Recording | Acknowledging | GivingBack

  /**
   * The drain of the outbox, run by worker `w`. A claim is given up for a retry by `DrainFail`, when the
   * quota of its row could not be released, or by `DrainGiveBack`, when its page broke. A transaction that
   * fails is an event without effect.
   */
  datatype DrainEvent =
    | DrainClaim(quotaAvailable: bool)
    | DrainDelete(reply: Reply)
    | DrainDefer
    | DrainReserve(reply: Reply)
    | DrainReleaseReservation(reply: Reply)
    | DrainFinalize(reply: Reply)
    | DrainReleaseCommitted(reply: Reply)
    | DrainAcknowledge
    | DrainFail
    | DrainGiveBack
    | DrainDown(transaction: Transaction)
    | DrainCrash

  datatype Event =
    | OfPresign(p: PresignEvent)
    | OfOutside(o: OutsideEvent)
    | OfConfirm(w: Worker, c: ConfirmEvent)
    | OfSweep(w: Worker, s: SweepEvent)
    | OfStage(t: StageEvent)
    | OfDrain(w: Worker, d: DrainEvent)

  // ---------------------------------------------------------------------
  // Pure helpers of the source
  // ---------------------------------------------------------------------

  predicate LeaseFree(expires: Option<Time>, now: Time) {
    expires.None? || expires.value <= now
  }

  /** `None` is the error for a missing reservation identifier. */
  function QuotaReleaseFor(quota: QuotaState, reservationId: bool): Option<ReleaseKind> {
    match quota
    case NotRequired => Some(NoRelease)
    case ReservePending => Some(OfReservePending)
    case Reserved => if reservationId then Some(OfReservation) else None
    case FinalizePending => if reservationId then Some(OfFinalizePending) else None
    case Committed => Some(OfCommitted)
  }

  predicate OwnedBy(a: Admission, owner: Owner) {
    a.pending.Some? && a.pending.value.leaseOwner.Some? && a.pending.value.leaseOwner.value == owner
  }

  predicate ClaimedBy(a: Admission, w: Worker) {
    && w in a.drains
    && a.intent.Some?
    && a.intent.value.id == a.drains[w].intent
    && a.intent.value.leaseOwner.Some?
    && a.intent.value.leaseOwner.value == w
  }

  /** Insert an intent unless one exists, and delete the pending row. */
  function Stage(a: Admission, kind: ReleaseKind, reservationId: bool, notBefore: Time, retainUntil: Option<Time>)
    : Admission
  {
    var staged :=
      if a.intent.Some? then a
      else a.(intent := Some(Intent(a.intents, PendingUpload, kind, reservationId, notBefore, retainUntil,
                                    None, None, 0)),
              history := a.history.(intents := a.intents + 1));
    staged.(pending := None)
  }

  /** Staging straight from the row, as the purge and the abandon procedure do. */
  function StageRow(a: Admission, now: Time): Admission
    requires a.pending.Some?
  {
    var p := a.pending.value;
    match QuotaReleaseFor(p.quota, p.reservationId)
    case None => a
    case Some(kind) =>
      Stage(a, kind, p.reservationId, now, if p.urlIssued then Some(p.expiresAt) else None)
  }

  // ---------------------------------------------------------------------
  // Presign
  // ---------------------------------------------------------------------

  /** The admission expires a lifetime after the request began, which was at `startedAt`. */
  function DoCreate(a: Admission, now: Time, startedAt: Time, lifetime: nat, quota: bool, workspace: bool): Admission {
    if a.created || now < startedAt || (quota && !workspace) then a
    else
      a.(terms := Terms(true, !quota, workspace, lifetime, startedAt + lifetime),
         pending := Some(Pending(if quota then ReservePending else NotRequired, false, false,
                                 startedAt + lifetime, Some(Presigner), Some(now + PRESIGN_LEASE))),
         presign := Inserted)
  }

  /** A reservation succeeds unless the key is denied, and is rejected for good only then. */
  predicate ReserveReplyOk(l: Ledger, reply: Reply) {
    match reply
    case Success => Reserve(l).reservation != Never
    case Retryable(_) => true
    case Terminal(_) => l.denied
  }

  function CallReserve(a: Admission, reply: Reply): Admission {
    a.(ledger := if reply.Applied() then Reserve(a.ledger) else a.ledger, sent := a.sent.(reserve := true))
  }

  function DoPresignReserve(a: Admission, reply: Reply): Admission {
    if !a.presign.Inserted? || a.quotaless || !ReserveReplyOk(a.ledger, reply) then a
    else CallReserve(a, reply).(presign := match reply
                                           case Success => ReserveReplied
                                           case Retryable(_) => ReserveFailed(false)
                                           case Terminal(_) => ReserveFailed(true))
  }

  function DoPresignRecord(a: Admission): Admission {
    if !a.presign.ReserveReplied? then a
    else if OwnedBy(a, Presigner) then
      a.(pending := Some(a.pending.value.(quota := Reserved, reservationId := true)), presign := Recorded)
    else a.(presign := LeaseLost)
  }

  /** This write has no lease check. */
  function DoPresignReserveFailed(a: Admission, now: Time): Admission {
    if !a.presign.ReserveFailed? then a
    else if a.pending.None? then a.(presign := Done)
    else a.(pending := Some(a.pending.value.(
              quota := if a.presign.terminal then NotRequired else ReservePending,
              leaseOwner := None, leaseExpires := Some(now))),
            presign := Done)
  }

  /** The URL is signed for a lifetime from now. */
  function DoPresignSign(a: Admission, now: Time): Admission {
    if a.presign.Recorded? || (a.presign.Inserted? && a.quotaless) then
      a.(store := a.store.(urlExpires := now + a.terms.lifetime), presign := Signed)
    else a
  }

  /** URL and upload token leave the server only after this transaction. */
  function DoPresignIssue(a: Admission): Admission {
    if !a.presign.Signed? then a
    else if OwnedBy(a, Presigner) then
      a.(pending := Some(a.pending.value.(urlIssued := true, leaseOwner := None, leaseExpires := None)),
         store := a.store.(disclosed := true), presign := Done)
    else a.(presign := LeaseLost)
  }

  /** This write has no lease check either. */
  function DoPresignFail(a: Admission, now: Time): Admission {
    if (!a.presign.Inserted? && !a.presign.ReserveReplied? && !a.presign.Recorded? && !a.presign.Signed?
        && !a.presign.LeaseLost?) then a
    else if a.pending.None? then a.(presign := Done)
    else a.(pending := Some(a.pending.value.(leaseOwner := None, leaseExpires := Some(now))), presign := Done)
  }

  // ---------------------------------------------------------------------
  // Confirm
  // ---------------------------------------------------------------------

  function DoConfirmClaim(a: Admission, now: Time, w: Worker): Admission {
    if a.disclosed && w !in a.tokens && a.pending.Some?
       && a.pending.value.expiresAt > now && LeaseFree(a.pending.value.leaseExpires, now) then
      a.(pending := Some(a.pending.value.(leaseOwner := Some(Confirmer(w)), leaseExpires := Some(now + CONFIRM_LEASE))),
         confirms := a.confirms[w := Confirm(Claimed, a.pending.value.reservationId)],
         tokens := a.tokens + {w})
    else a
  }

  function SetPhase(a: Admission, w: Worker, phase: ConfirmPhase): Admission
    requires w in a.confirms
  {
    a.(confirms := a.confirms[w := a.confirms[w].(phase := phase)])
  }

  function DoConfirmMark(a: Admission, w: Worker): Admission {
    if w !in a.confirms || !a.confirms[w].phase.Claimed? || !a.confirms[w].reservationId then a
    else if OwnedBy(a, Confirmer(w)) then
      SetPhase(a.(pending := Some(a.pending.value.(quota := FinalizePending)),
          history := a.history.(finalizing := true)), w, Marked)
    else SetPhase(a, w, Retrying)
  }

  function CallFinalize(a: Admission, reply: Reply): Admission {
    a.(ledger := if reply.Applied() then Finalize(a.ledger) else a.ledger, sent := a.sent.(finalize := true))
  }

  function DoConfirmFinalize(a: Admission, w: Worker, reply: Reply): Admission {
    if w !in a.confirms || !a.confirms[w].phase.Marked? then a
    else SetPhase(CallFinalize(a, reply), w, match reply
                                             case Success => FinalizeReplied
                                             case Retryable(_) => Retrying
                                             case Terminal(_) => Rejected)
  }

  function DoConfirmRecord(a: Admission, w: Worker): Admission {
    if w !in a.confirms || !a.confirms[w].phase.FinalizeReplied? then a
    else if OwnedBy(a, Confirmer(w)) then
      SetPhase(a.(pending := Some(a.pending.value.(quota := Committed))), w, Committing)
    else SetPhase(a, w, Retrying)
  }

  /** The committed usage is recorded, or there is no quota to commit. */
  predicate ReadyToInsert(a: Admission, w: Worker) {
    && w in a.confirms
    && (a.confirms[w].phase.Committing? || (a.confirms[w].phase.Claimed? && !a.confirms[w].reservationId))
  }

  /** The final transaction relocks the admission, inserts the attachment and deletes the admission. */
  function DoConfirmInsert(a: Admission, now: Time, w: Worker): Admission {
    if !ReadyToInsert(a, w) then a
    else if OwnedBy(a, Confirmer(w)) && !LeaseFree(a.pending.value.leaseExpires, now) then
      a.(attached := true, pending := None, confirms := a.confirms - {w})
    else SetPhase(a, w, Rejected)
  }

  function DoConfirmAbandon(a: Admission, now: Time, w: Worker): Admission {
    if w !in a.confirms then a
    else
      var b := a.(confirms := a.confirms - {w});
      if OwnedBy(a, Confirmer(w)) then StageRow(b, now) else b
  }

  function DoConfirmRelease(a: Admission, now: Time, w: Worker): Admission {
    if w !in a.confirms then a
    else
      var b := a.(confirms := a.confirms - {w});
      if OwnedBy(a, Confirmer(w)) then
        b.(pending := Some(a.pending.value.(leaseOwner := None, leaseExpires := Some(now))))
      else b
  }

  // ---------------------------------------------------------------------
  // Sweep of expired or crashed admissions
  // ---------------------------------------------------------------------

  /** Expired, or left behind without a URL, and nobody holds a lease. */
  predicate Abandoned(a: Admission, now: Time) {
    && a.pending.Some?
    && LeaseFree(a.pending.value.leaseExpires, now)
    && (a.pending.value.expiresAt <= now || !a.pending.value.urlIssued)
  }

  function DoSweepClaim(a: Admission, now: Time, w: Worker): Admission {
    if w !in a.tokens && Abandoned(a, now) then
      var p := a.pending.value;
      a.(pending := Some(p.(leaseOwner := Some(Sweeper(w)), leaseExpires := Some(now + SWEEP_LEASE))),
         sweeps := a.sweeps[w := Sweep(p.quota, p.reservationId, p.urlIssued, p.expiresAt, now, false)],
         tokens := a.tokens + {w}, history := a.history.(swept := true))
    else a
  }

  function DoSweepReserve(a: Admission, w: Worker, reply: Reply): Admission {
    if w !in a.sweeps || !a.sweeps[w].quota.ReservePending? || a.sweeps[w].replied
       || !ReserveReplyOk(a.ledger, reply) then a
    else
      var b := CallReserve(a, reply);
      if reply.Success? then b.(sweeps := a.sweeps[w := a.sweeps[w].(replied := true)]) else b
  }

  function DoSweepRecordReserve(a: Admission, w: Worker): Admission {
    if w !in a.sweeps || !a.sweeps[w].quota.ReservePending? || !a.sweeps[w].replied then a
    else
      var b := a.(sweeps := a.sweeps[w := a.sweeps[w].(quota := Reserved, reservationId := true, replied := false)]);
      if OwnedBy(a, Sweeper(w)) then
        b.(pending := Some(a.pending.value.(quota := Reserved, reservationId := true)))
      else b
  }

  function DoSweepFinalize(a: Admission, w: Worker, reply: Reply): Admission {
    if w !in a.sweeps || !a.sweeps[w].quota.FinalizePending? || a.sweeps[w].replied
       || !a.sweeps[w].reservationId then a
    else
      var b := CallFinalize(a, reply);
      if reply.Success? then b.(sweeps := a.sweeps[w := a.sweeps[w].(replied := true)]) else b
  }

  function DoSweepRecordCommit(a: Admission, w: Worker): Admission {
    if w !in a.sweeps || !a.sweeps[w].quota.FinalizePending? || !a.sweeps[w].replied then a
    else
      var b := a.(sweeps := a.sweeps[w := a.sweeps[w].(quota := Committed, replied := false)]);
      if OwnedBy(a, Sweeper(w)) then
        b.(pending := Some(a.pending.value.(quota := Committed)))
      else b
  }

  /** Staging from the sweeper's copy, with no lease check: a stale worker can stage again. */
  function DoSweepStage(a: Admission, w: Worker): Admission {
    if w !in a.sweeps || (a.sweeps[w].quota.ReservePending? || a.sweeps[w].quota.FinalizePending?) then a
    else
      var s := a.sweeps[w];
      match QuotaReleaseFor(s.quota, s.reservationId)
      case None => a
      case Some(kind) =>
        Stage(a.(sweeps := a.sweeps - {w}), kind, s.reservationId, s.since,
              if s.urlIssued then Some(s.expiresAt) else None)
  }

  function DoSweepFail(a: Admission, now: Time, w: Worker): Admission {
    if w !in a.sweeps then a
    else
      var b := a.(sweeps := a.sweeps - {w});
      if OwnedBy(a, Sweeper(w)) then
        b.(pending := Some(a.pending.value.(leaseOwner := None, leaseExpires := Some(now + SWEEP_LEASE))))
      else b
  }

  // ---------------------------------------------------------------------
  // Other staging
  // ---------------------------------------------------------------------

  /** The abandon procedure without a lease owner: it needs the token and a free lease. */
  function DoTokenAbandon(a: Admission, now: Time): Admission {
    if a.disclosed && a.pending.Some?
       && (a.pending.value.leaseOwner.None? || LeaseFree(a.pending.value.leaseExpires, now))
    then StageRow(a, now) else a
  }

  function DoRemoveAttachment(a: Admission, now: Time): Admission {
    if !a.attached || a.intent.Some? then a
    else
      a.(attached := false,
         history := a.history.(removed := true, removedAt := now, intents := a.intents + 1),
         intent := Some(Intent(a.intents, Attachment, if a.workspace then OfCommitted else NoRelease, false,
                               now, None, None, None, 0)))
  }

  // ---------------------------------------------------------------------
  // Drain of the outbox
  // ---------------------------------------------------------------------

  /** No confirmation is at work on the same storage key. */
  predicate NoActiveConfirm(a: Admission, now: Time) {
    (a.pending.Some? && a.pending.value.leaseOwner.Some? && a.pending.value.leaseOwner.value.Confirmer?)
    ==> LeaseFree(a.pending.value.leaseExpires, now)
  }

  /** A drain may take the row: it is due, nobody holds a lease, and its quota can be released. */
  predicate Claimable(a: Admission, now: Time, quotaAvailable: bool) {
    && a.intent.Some?
    && a.intent.value.notBefore <= now
    && LeaseFree(a.intent.value.leaseExpires, now)
    && NoActiveConfirm(a, now)
    && (quotaAvailable || a.intent.value.kind == NoRelease)
  }

  function DoDrainClaim(a: Admission, now: Time, w: Worker, quotaAvailable: bool): Admission {
    if w !in a.tokens && Claimable(a, now, quotaAvailable) then
      var i := a.intent.value;
      a.(intent := Some(i.(leaseOwner := Some(w), leaseExpires := Some(now + DRAIN_LEASE))),
         drains := a.drains[w := Drain(i.id, i.kind, i.reservationId, i.retainUntil, now, Fetched)],
         tokens := a.tokens + {w})
    else a
  }

  function SetDrain(a: Admission, w: Worker, phase: DrainPhase): Admission
    requires w in a.drains
  {
    a.(drains := a.drains[w := a.drains[w].(phase := phase)])
  }

  function DoDrainDelete(a: Admission, w: Worker, reply: Reply): Admission {
    if w !in a.drains || !a.drains[w].phase.Fetched? then a
    else SetDrain(a.(store := a.store.(stored := a.stored && !reply.Applied()), sent := a.sent.(delete := true)), w,
                  if reply.Success? then ObjectDeleted else Failed)
  }

  function DoDrainDefer(a: Admission, w: Worker): Admission {
    if w !in a.drains || !a.drains[w].phase.ObjectDeleted? || a.drains[w].FinalPass() then a
    else
      var b := a.(drains := a.drains - {w});
      if ClaimedBy(a, w) then
        var i := a.intent.value;
        b.(intent := Some(i.(notBefore := a.drains[w].retainUntil.value, leaseOwner := None, leaseExpires := None,
                             deferrals := i.deferrals + 1)))
      else b
  }

  /** The worker has deleted the object and this is the last pass over the row. */
  predicate Releasing(a: Admission, w: Worker, kind: ReleaseKind, phase: DrainPhase) {
    w in a.drains && a.drains[w].phase == phase && a.drains[w].FinalPass() && a.drains[w].kind == kind
  }

  function AfterCall(reply: Reply, done: DrainPhase): DrainPhase {
    match reply
    case Success => done
    case Retryable(_) => Failed
    case Terminal(_) => QuotaRejected
  }

  function DoDrainReserve(a: Admission, w: Worker, reply: Reply): Admission {
    if !Releasing(a, w, OfReservePending, ObjectDeleted) || !ReserveReplyOk(a.ledger, reply) then a
    else SetDrain(CallReserve(a, reply), w, AfterCall(reply, ReserveDone))
  }

  function DoDrainReleaseReservation(a: Admission, w: Worker, reply: Reply): Admission {
    if !Releasing(a, w, OfReservePending, ReserveDone)
       && !(Releasing(a, w, OfReservation, ObjectDeleted) && a.drains[w].reservationId) then a
    else SetDrain(a.(ledger := if reply.Applied() then ReleaseReservation(a.ledger) else a.ledger), w,
                  AfterCall(reply, Settled))
  }

  function DoDrainFinalize(a: Admission, w: Worker, reply: Reply): Admission {
    if !Releasing(a, w, OfFinalizePending, ObjectDeleted) || !a.drains[w].reservationId then a
    else SetDrain(CallFinalize(a, reply), w, AfterCall(reply, FinalizeDone))
  }

  function DoDrainReleaseCommitted(a: Admission, w: Worker, reply: Reply): Admission {
    if !Releasing(a, w, OfFinalizePending, FinalizeDone) && !Releasing(a, w, OfCommitted, ObjectDeleted) then a
    else SetDrain(a.(ledger := if reply.Applied() then ReleaseCommitted(a.ledger) else a.ledger), w,
                  AfterCall(reply, Settled))
  }

  predicate MayAcknowledge(a: Admission, w: Worker) {
    || Releasing(a, w, NoRelease, ObjectDeleted)
    || (w in a.drains && (a.drains[w].phase.Settled? || a.drains[w].phase.QuotaRejected?))
  }

  /** Retire the intent, provided the lease is still held. */
  function DoDrainAcknowledge(a: Admission, w: Worker): Admission {
    if !MayAcknowledge(a, w) then a
    else
      var b := a.(drains := a.drains - {w});
      if ClaimedBy(a, w) then
        b.(intent := None,
             history := a.history.(retired := true, settled := a.settled || !a.drains[w].phase.QuotaRejected?))
      else b
  }

  /** The retry time is counted from the time of the claim. */
  function DoDrainFail(a: Admission, w: Worker): Admission {
    if w !in a.drains then a
    else
      var b := a.(drains := a.drains - {w});
      if ClaimedBy(a, w) then
        b.(intent := Some(a.intent.value.(notBefore := a.drains[w].claimedAt + DRAIN_LEASE,
                                          leaseOwner := None, leaseExpires := None)))
      else b
  }

  // ---------------------------------------------------------------------
  // Client, adapter and crashes
  // ---------------------------------------------------------------------

  /** The object store accepts the URL until it expires. */
  function DoPut(a: Admission, now: Time): Admission {
    if a.disclosed && now < a.urlExpires then a.(store := a.store.(stored := true)) else a
  }

  function DoDeny(a: Admission): Admission {
    if a.created && !a.quotaless && a.ledger.reservation == Never then a.(ledger := a.ledger.(denied := true)) else a
  }

  function DoLateReserve(a: Admission): Admission {
    if a.reserveSent then a.(ledger := Reserve(a.ledger)) else a
  }

  function DoLateFinalize(a: Admission): Admission {
    if a.finalizeSent then a.(ledger := Finalize(a.ledger)) else a
  }

  function DoLateDelete(a: Admission): Admission {
    if a.deleteSent then a.(store := a.store.(stored := false)) else a
  }

  function DoPresignCrash(a: Admission): Admission {
    if a.presign.NotStarted? then a else a.(presign := Done)
  }

  function DoConfirmCrash(a: Admission, w: Worker): Admission {
    a.(confirms := a.confirms - {w})
  }

  function DoSweepCrash(a: Admission, w: Worker): Admission {
    a.(sweeps := a.sweeps - {w})
  }

  function DoDrainCrash(a: Admission, w: Worker): Admission {
    a.(drains := a.drains - {w})
  }

  /** Purge of the owner's account stages every pending upload. */
  function DoPurgeStage(a: Admission, now: Time): Admission {
    if a.pending.Some? then StageRow(a, now) else a
  }

  // ---------------------------------------------------------------------
  // One event, and runs
  // ---------------------------------------------------------------------

  function NextPresign(a: Admission, now: Time, e: PresignEvent): Admission {
    match e
    case Create(startedAt, lifetime, quota, workspace) => DoCreate(a, now, startedAt, lifetime, quota, workspace)
    case PresignReserve(reply) => DoPresignReserve(a, reply)
    case PresignRecord => DoPresignRecord(a)
    case PresignReserveFailed => DoPresignReserveFailed(a, now)
    case PresignSign => DoPresignSign(a, now)
    case PresignIssue => DoPresignIssue(a)
    case PresignFail => DoPresignFail(a, now)
    case PresignCrash => DoPresignCrash(a)
  }

  function NextOutside(a: Admission, now: Time, e: OutsideEvent): Admission {
    match e
    case Put => DoPut(a, now)
    case Deny => DoDeny(a)
    case LateReserve => DoLateReserve(a)
    case LateFinalize => DoLateFinalize(a)
    case LateDelete => DoLateDelete(a)
  }

  function NextConfirm(a: Admission, now: Time, w: Worker, e: ConfirmEvent): Admission {
    match e
    case ConfirmClaim => DoConfirmClaim(a, now, w)
    case ConfirmMark => DoConfirmMark(a, w)
    case ConfirmFinalize(reply) => DoConfirmFinalize(a, w, reply)
    case ConfirmRecord => DoConfirmRecord(a, w)
    case ConfirmInsert => DoConfirmInsert(a, now, w)
    case ConfirmAbandon => DoConfirmAbandon(a, now, w)
    case ConfirmRelease => DoConfirmRelease(a, now, w)
    case ConfirmCrash => DoConfirmCrash(a, w)
  }

  function NextSweep(a: Admission, now: Time, w: Worker, e: SweepEvent): Admission {
    match e
    case SweepClaim => DoSweepClaim(a, now, w)
    case SweepReserve(reply) => DoSweepReserve(a, w, reply)
    case SweepRecordReserve => DoSweepRecordReserve(a, w)
    case SweepFinalize(reply) => DoSweepFinalize(a, w, reply)
    case SweepRecordCommit => DoSweepRecordCommit(a, w)
    case SweepStage => DoSweepStage(a, w)
    case SweepFail => DoSweepFail(a, now, w)
    case SweepCrash => DoSweepCrash(a, w)
  }

  function NextStage(a: Admission, now: Time, e: StageEvent): Admission {
    match e
    case PurgeStage => DoPurgeStage(a, now)
    case TokenAbandon => DoTokenAbandon(a, now)
    case RemoveAttachment => DoRemoveAttachment(a, now)
  }

  function NextDrain(a: Admission, now: Time, w: Worker, e: DrainEvent): Admission {
    match e
    case DrainClaim(quotaAvailable) => DoDrainClaim(a, now, w, quotaAvailable)
    case DrainDelete(reply) => DoDrainDelete(a, w, reply)
    case DrainDefer => DoDrainDefer(a, w)
    case DrainReserve(reply) => DoDrainReserve(a, w, reply)
    case DrainReleaseReservation(reply) => DoDrainReleaseReservation(a, w, reply)
    case DrainFinalize(reply) => DoDrainFinalize(a, w, reply)
    case DrainReleaseCommitted(reply) => DoDrainReleaseCommitted(a, w, reply)
    case DrainAcknowledge => DoDrainAcknowledge(a, w)
    case DrainFail => DoDrainFail(a, w)
    case DrainGiveBack => DoDrainFail(a, w)
    case DrainDown(_) => a
    case DrainCrash => DoDrainCrash(a, w)
  }

  function Next(a: Admission, now: Time, e: Event): Admission {
    match e
    case OfPresign(p) => NextPresign(a, now, p)
    case OfOutside(o) => NextOutside(a, now, o)
    case OfConfirm(w, c) => NextConfirm(a, now, w, c)
    case OfSweep(w, s) => NextSweep(a, now, w, s)
    case OfStage(t) => NextStage(a, now, t)
    case OfDrain(w, d) => NextDrain(a, now, w, d)
  }

  type Key = nat

  /** All admissions under one clock. A key that is absent has not been used. */
  datatype World = World(now: Time, admissions: map<Key, Admission>) {
    function At(k: Key): Admission {
      if k in admissions then admissions[k] else FRESH
    }
  }

  const START := World(0, map[])

  datatype Action = Tick(seconds: nat) | Do(key: Key, event: Event)

  function Act(world: World, action: Action): World {
    match action
    case Tick(seconds) => world.(now := world.now + seconds)
    case Do(key, event) =>
      world.(admissions := world.admissions[key := Next(world.At(key), world.now, event)])
  }

  function Run(world: World, actions: seq<Action>): World
    decreases |actions|
  {
    if actions == [] then world
    else Act(Run(world, actions[..|actions| - 1]), actions[|actions| - 1])
  }
}
