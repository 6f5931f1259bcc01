/**
 * The invariant of the attachment protocol, and how the conditions on the workers' copies carry
 * over from one state to the next.
 */
module AttachmentInvariant {
  import opened Wrappers
  import opened AttachmentProtocol

  // ---------------------------------------------------------------------
  // What the conditions on copies depend on
  // ---------------------------------------------------------------------

  /** The facts about an admission that the copies held by workers rely on. */
  datatype View = View(
    created: bool,
    gone: bool,
    swept: bool,
    quotaless: bool,
    removed: bool,
    removedAt: Time,
    finalizing: bool,
    disclosed: bool,
    expiresAt: Time,
    intents: nat,
    ledger: Ledger,
    stored: bool,
    urlExpires: Time)
  {
    /** The ledger holds nothing, and no call that can still be made or delivered changes that. */
    predicate Closed() {
      && gone
      && HoldsNothing(ledger)
      && (ledger.reservation == Never ==> quotaless || ledger.denied)
      && (ledger.committed == Never ==> !finalizing)
    }

    /** The time from which on the cleanup takes the URL for expired. */
    function Cutoff(): Time {
      if removed then removedAt else expiresAt
    }

    /** The URL that was handed out has expired by then. */
    predicate UrlInTime() {
      urlExpires <= Cutoff()
    }

    /** No object can be put any more, and none is stored, provided the URL expires in time. */
    predicate Emptied(now: Time) {
      && (disclosed ==> Cutoff() <= now)
      && (UrlInTime() ==> !stored)
    }

    /** How long an intent has to stay: until the URL that was handed out has expired. */
    function Retain(): Option<Time> {
      if removed || !disclosed then None else Some(expiresAt)
    }
  }

  function V(a: Admission): View {
    View(a.created, a.created && a.pending.None? && !a.attached, a.swept, a.quotaless,
         a.removed, a.removedAt, a.finalizing,
         a.disclosed, a.expiresAt, a.intents, a.ledger, a.stored, a.urlExpires)
  }

  function KindOf(quota: QuotaState): ReleaseKind {
    match quota
    case NotRequired => NoRelease
    case ReservePending => OfReservePending
    case Reserved => OfReservation
    case FinalizePending => OfFinalizePending
    case Committed => OfCommitted
  }

  /** A copy of the quota state, wherever it is held, describes the ledger well enough to settle it. */
  predicate CopyOk(v: View, kind: ReleaseKind, reservationId: bool) {
    && (reservationId ==> v.ledger.reservation != Never)
    && match kind
       case NoRelease => v.quotaless || v.ledger.denied
       case OfReservePending => !v.quotaless && !v.finalizing
       case OfReservation => !v.quotaless && !v.finalizing && reservationId
       case OfFinalizePending => v.finalizing && reservationId
       case OfCommitted => (v.finalizing && v.ledger.committed != Never) || (v.quotaless && v.removed)
  }

  predicate SweepOk(v: View, s: Sweep) {
    && v.swept
    && s.expiresAt == v.expiresAt && s.urlIssued == v.disclosed
    && CopyOk(v, KindOf(s.quota), s.reservationId)
    && (s.replied && s.quota == ReservePending ==> v.ledger.reservation != Never)
    && (s.replied && s.quota == FinalizePending ==> v.ledger.committed != Never)
  }

  predicate ConfirmOk(v: View, c: Confirm) {
    && v.created && v.disclosed
    && (c.reservationId ==> v.ledger.reservation != Never)
    && (c.reservationId <==> !v.quotaless)
    && (c.phase == Marked || c.phase == FinalizeReplied || c.phase == Committing ==> v.finalizing)
    && (c.phase == FinalizeReplied || c.phase == Committing ==> v.ledger.committed != Never)
  }

  predicate DrainOk(v: View, now: Time, d: Drain) {
    && v.gone
    && d.intent < v.intents && d.claimedAt <= now
    && (v.removed ==> v.removedAt <= now)
    && CopyOk(v, d.kind, d.reservationId)
    && d.retainUntil == v.Retain()
    && (d.phase != Fetched && d.phase != Failed && d.phase != ObjectDeleted ==> d.FinalPass())
    && (d.phase != Fetched && d.phase != Failed && d.FinalPass() ==> v.Emptied(now))
    && (d.phase == ReserveDone ==> v.ledger.reservation != Never)
    && (d.phase == FinalizeDone ==> v.ledger.committed != Never)
    && (d.phase == Settled ==> v.Closed())
  }

  /** The lease of the intent tells when its owner claimed it. */
  predicate LeaseOf(intent: Option<Intent>, w: Worker, d: Drain) {
    intent.Some? && intent.value.id == d.intent && intent.value.leaseOwner == Some(w) ==>
      intent.value.leaseExpires == Some(d.claimedAt + DRAIN_LEASE)
  }

  predicate Confirms(v: View, tokens: set<Worker>, m: map<Worker, Confirm>) {
    forall w | w in m :: w in tokens && ConfirmOk(v, m[w])
  }

  predicate Sweeps(v: View, tokens: set<Worker>, m: map<Worker, Sweep>) {
    forall w | w in m :: w in tokens && SweepOk(v, m[w])
  }

  predicate Drains(v: View, now: Time, tokens: set<Worker>, m: map<Worker, Drain>) {
    forall w | w in m :: w in tokens && DrainOk(v, now, m[w])
  }

  predicate Leases(intent: Option<Intent>, m: map<Worker, Drain>) {
    forall w | w in m :: LeaseOf(intent, w, m[w])
  }

  // ---------------------------------------------------------------------
  // Carrying the conditions over
  // ---------------------------------------------------------------------

  /** The ledger may move on; nothing else that copies rely on changes. */
  predicate Later(l: Ledger, m: Ledger) {
    && (l.reservation != Never ==> m.reservation != Never)
    && (l.committed != Never ==> m.committed != Never)
    && (l.denied ==> m.denied)
  }

  predicate SameBasis(v: View, u: View) {
    && v.created == u.created && v.quotaless == u.quotaless && v.removed == u.removed
    && v.finalizing == u.finalizing && v.disclosed == u.disclosed && v.expiresAt == u.expiresAt
    && Later(v.ledger, u.ledger)
  }

  lemma ConfirmsCarry(v: View, u: View, tokens: set<Worker>, more: set<Worker>, m: map<Worker, Confirm>)
    requires Confirms(v, tokens, m) && tokens <= more
    requires || SameBasis(v, u) || SameBasis(v.(removed := u.removed), u)
             || SameBasis(v.(finalizing := true), u) || !v.disclosed
    ensures Confirms(u, more, m)
  {
  }

  lemma SweepsCarry(v: View, u: View, tokens: set<Worker>, more: set<Worker>, m: map<Worker, Sweep>)
    requires Sweeps(v, tokens, m) && tokens <= more
    requires (SameBasis(v, u) && (v.swept ==> u.swept)) || !v.swept
    ensures Sweeps(u, more, m)
  {
  }

  lemma DrainsCarry(v: View, u: View, now: Time, tokens: set<Worker>, more: set<Worker>, m: map<Worker, Drain>)
    requires Drains(v, now, tokens, m) && tokens <= more
    requires !v.gone ||
             (&& SameBasis(v, u) && u.gone && v.intents <= u.intents && v.removedAt == u.removedAt
              && (v.Emptied(now) ==> u.Emptied(now)) && (v.Closed() ==> u.Closed()))
    ensures Drains(u, now, more, m)
  {
  }

  lemma LeasesCarry(i: Option<Intent>, j: Option<Intent>, m: map<Worker, Drain>)
    requires Leases(i, m)
    requires (i.Some? && j.Some? && i.value.id == j.value.id && i.value.leaseOwner == j.value.leaseOwner
              && i.value.leaseExpires == j.value.leaseExpires)
             || j.None? || j.value.leaseOwner.None? || j.value.leaseOwner.value !in m
    ensures Leases(j, m)
  {
  }

  lemma ConfirmSet(v: View, tokens: set<Worker>, m: map<Worker, Confirm>, w: Worker, c: Confirm)
    requires Confirms(v, tokens, m) && w in tokens && ConfirmOk(v, c)
    ensures Confirms(v, tokens, m[w := c])
  {
  }

  lemma SweepSet(v: View, tokens: set<Worker>, m: map<Worker, Sweep>, w: Worker, s: Sweep)
    requires Sweeps(v, tokens, m) && w in tokens && SweepOk(v, s)
    ensures Sweeps(v, tokens, m[w := s])
  {
  }

  lemma ConfirmDrop(v: View, tokens: set<Worker>, m: map<Worker, Confirm>, w: Worker)
    requires Confirms(v, tokens, m)
    ensures Confirms(v, tokens, m - {w})
  {
  }

  lemma SweepDrop(v: View, tokens: set<Worker>, m: map<Worker, Sweep>, w: Worker)
    requires Sweeps(v, tokens, m)
    ensures Sweeps(v, tokens, m - {w})
  {
  }

  lemma DrainDrop(v: View, now: Time, tokens: set<Worker>, intent: Option<Intent>, m: map<Worker, Drain>, w: Worker)
    requires Drains(v, now, tokens, m) && Leases(intent, m)
    ensures Drains(v, now, tokens, m - {w}) && Leases(intent, m - {w})
  {
  }

  // ---------------------------------------------------------------------
  // The rows, the requests and the history
  // ---------------------------------------------------------------------

  predicate LedgerOk(a: Admission) {
    && (a.ledger.denied ==> a.ledger.reservation == Never)
    && (a.ledger.committed != Never ==> a.ledger.reservation != Held && a.finalizing)
    && (a.finalizing ==> a.ledger.reservation != Never && a.disclosed && !a.quotaless)
    && (a.finalizeSent ==> a.finalizing)
    && (a.ledger.committed == Released ==> V(a).gone)
    && (a.quotaless ==> a.ledger.reservation == Never && !a.reserveSent)
    && (a.created && !a.quotaless ==> a.workspace)
  }

  predicate RowOk(a: Admission) {
    a.pending.Some? ==>
      var p := a.pending.value;
      && a.created && a.intent.None? && !a.attached && !a.removed && !a.retired
      && !a.deleteSent && a.intents == 0
      && p.expiresAt == a.expiresAt && p.urlIssued == a.disclosed
      && CopyOk(V(a), KindOf(p.quota), p.reservationId)
      && (a.disclosed && !a.quotaless ==> p.quota != NotRequired && p.quota != ReservePending && p.reservationId)
  }

  predicate PresignOk(a: Admission) {
    && (a.created <==> a.presign != NotStarted)
    && (a.disclosed ==> a.presign == Done)
    && (a.presign == ReserveReplied || a.presign == Recorded ==> a.ledger.reservation != Never && !a.quotaless)
    && (a.presign.ReserveFailed? ==> !a.quotaless)
    && (a.presign == ReserveFailed(true) ==> a.ledger.denied)
    && ((a.presign == Recorded || a.presign == Signed) && !a.quotaless && OwnedBy(a, Presigner) ==>
          a.pending.value.quota == Reserved && a.pending.value.reservationId)
  }

  /** Once swept, an admission is never again in the hands of a presign or confirm request. */
  predicate SweptOk(a: Admission, now: Time) {
    a.swept ==>
      && a.created && !a.attached && !a.removed
      && (a.disclosed ==> a.expiresAt <= now)
      && (a.pending.Some? && a.pending.value.leaseOwner.Some? ==> a.pending.value.leaseOwner.value.Sweeper?)
  }

  predicate IntentOk(a: Admission) {
    a.intent.Some? ==>
      var i := a.intent.value;
      && V(a).gone
      && CopyOk(V(a), i.kind, i.reservationId)
      && i.retainUntil == V(a).Retain()
      && i.id < a.intents
      && (i.source == Attachment <==> a.removed)
      && (i.leaseOwner.Some? ==> i.leaseOwner.value in a.tokens)
      && DeferredOk(i)
  }

  /** After its one deferral an intent cannot be claimed before its retain time. */
  predicate DeferredOk(i: Intent) {
    i.deferrals > 0 ==>
      && i.deferrals == 1
      && i.retainUntil.Some? && i.retainUntil.value <= i.notBefore
      && (i.leaseOwner.Some? ==>
            i.leaseExpires.Some? && i.retainUntil.value + DRAIN_LEASE <= i.leaseExpires.value)
  }

  /** A live attachment is out of reach of the cleanup. */
  predicate AttachedOk(a: Admission) {
    a.attached ==>
      && a.created && a.disclosed && a.pending.None? && a.intent.None?
      && !a.swept && !a.deleteSent
      && !a.removed && !a.retired && a.intents == 0
      && (!a.quotaless ==> a.ledger.committed == Held)
  }

  predicate HistoryOk(a: Admission, now: Time) {
    && (a.stored ==> a.disclosed)
    && (a.settled ==> V(a).Closed() && a.retired)
    && (a.retired ==> V(a).gone && V(a).Emptied(now))
    && (V(a).gone ==> a.intent.Some? || a.retired)
    && (a.deleteSent ==> V(a).gone)
    && (a.removed ==> V(a).gone && a.removedAt <= now)
    && (!a.created ==> a.pending.None? && a.intent.None? && !a.disclosed && !a.attached && !a.swept
                       && a.ledger == Ledger(Never, Never, false) && !a.reserveSent && !a.finalizing
                       && a.intents == 0)
  }

  predicate RowsOk(a: Admission, now: Time) {
    && LedgerOk(a)
    && RowOk(a)
    && PresignOk(a)
    && SweptOk(a, now)
    && IntentOk(a)
    && AttachedOk(a)
    && HistoryOk(a, now)
  }

  predicate WorkersOk(a: Admission, now: Time) {
    && Confirms(V(a), a.tokens, a.confirms)
    && Sweeps(V(a), a.tokens, a.sweeps)
    && Drains(V(a), now, a.tokens, a.drains)
    && Leases(a.intent, a.drains)
  }

  predicate Inv(a: Admission, now: Time) {
    RowsOk(a, now) && WorkersOk(a, now)
  }

  lemma FreshInv(now: Time)
    ensures Inv(FRESH, now)
  {
  }

  lemma TickKeeps(a: Admission, now: Time, later: Time)
    requires Inv(a, now) && now <= later
    ensures Inv(a, later)
  {
  }
}
