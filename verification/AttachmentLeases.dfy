/**
 * How long a claim keeps others out, and when a row can be claimed again. All times are written out in
 * seconds.
 */
module AttachmentLeases {
  import opened Wrappers
  import opened AttachmentProtocol
  import opened AttachmentInvariant
  import opened AttachmentSafety
  import opened AttachmentDrain

  ghost predicate Idle(actions: seq<Action>, w: Worker) {
    forall j | 0 <= j < |actions| :: !(actions[j].Do? && actions[j].event.OfDrain? && actions[j].event.w == w)
  }

  // ---------------------------------------------------------------------
  // Intents
  // ---------------------------------------------------------------------

  /** The claim is what makes the worker hold a copy of the row. */
  predicate ClaimTakesEffect(world: World, k: Key, w: Worker, quotaAvailable: bool) {
    Act(world, Do(k, OfDrain(w, DrainClaim(quotaAvailable)))).At(k) != world.At(k)
  }

  /**
   * For 60 seconds after a claim the intent is the worker's: nobody else claims it, and nothing that others
   * do changes it.
   */
  lemma ClaimKeepsOthersOut(world: World, k: Key, w: Worker, quotaAvailable: bool, more: seq<Action>)
    requires ClaimTakesEffect(world, k, w, quotaAvailable) && Idle(more, w)
    requires var claimed := Act(world, Do(k, OfDrain(w, DrainClaim(quotaAvailable))));
             Run(claimed, more).now < world.now + 60
    ensures var claimed := Act(world, Do(k, OfDrain(w, DrainClaim(quotaAvailable))));
            var later := Run(claimed, more);
            && later.At(k).intent == claimed.At(k).intent
            && later.At(k).intent.Some? && later.At(k).intent.value.leaseOwner == Some(w)
            && (forall q: bool :: !Claimable(later.At(k), later.now, q))
            && (forall v: Worker, q: bool :: NextDrain(later.At(k), later.now, v, DrainClaim(q)) == later.At(k))
            && (forall e: Event | !(e.OfDrain? && e.w == w) ::
                  Next(later.At(k), later.now, e).intent == later.At(k).intent)
  {
    var claimed := Act(world, Do(k, OfDrain(w, DrainClaim(quotaAvailable))));
    var later := Run(claimed, more);
    assert claimed.At(k).intent.Some? && claimed.At(k).intent.value.leaseOwner == Some(w);
    LeaseHolds(claimed, more, k, w);
    hide Run, Act, Next;
    forall e: Event | !(e.OfDrain? && e.w == w)
      ensures Next(later.At(k), later.now, e).intent == later.At(k).intent
    {
      LeaseRespected(later.At(k), later.now, e, w);
    }
  }

  /** No page that anybody takes within the 60 seconds holds the row. */
  lemma NotOnAnotherPage(world: World, k: Key, w: Worker, quotaAvailable: bool, more: seq<Action>, rows: seq<Key>,
          limit: nat, pick: Selection)
    requires ClaimTakesEffect(world, k, w, quotaAvailable) && Idle(more, w)
    requires var later := Run(Act(world, Do(k, OfDrain(w, DrainClaim(quotaAvailable)))), more);
             later.now < world.now + 60 && PageOf(later, rows, limit, pick)
    ensures k !in rows
  {
    hide Run, Act, Next, Claimable;
    ClaimKeepsOthersOut(world, k, w, quotaAvailable, more);
  }

  /** When nothing else happens, the row can be claimed again as soon as the 60 seconds are over, and not before. */
  lemma ClaimLapses(world: World, k: Key, w: Worker, quotaAvailable: bool, seconds: nat)
    requires ClaimTakesEffect(world, k, w, quotaAvailable)
    ensures var later := Act(Act(world, Do(k, OfDrain(w, DrainClaim(quotaAvailable)))), Tick(seconds));
            Claimable(later.At(k), later.now, quotaAvailable) <==> 60 <= seconds
  {
  }

  /** A claim that is given back can be taken up again from 60 seconds after it was made. */
  lemma RetryAfterAMinute(actions: seq<Action>, k: Key, w: Worker, d: DrainEvent, seconds: nat)
    requires d == DrainFail || d == DrainGiveBack
    requires ClaimedBy(Run(START, actions).At(k), w)
    ensures var world := Run(START, actions);
            var later := Act(Act(world, Do(k, OfDrain(w, d))), Tick(seconds));
            NoActiveConfirm(later.At(k), later.now) ==>
              (Claimable(later.At(k), later.now, true) <==> world.At(k).drains[w].claimedAt + 60 <= later.now)
  {
    hide Run;
  }

  /** A deferred row can be taken up again when the time to retain has passed. */
  lemma DeferredUntilRetained(actions: seq<Action>, k: Key, w: Worker, seconds: nat)
    requires var a := Run(START, actions).At(k);
             ClaimedBy(a, w) && a.drains[w].phase == ObjectDeleted && !a.drains[w].FinalPass()
    ensures var world := Run(START, actions);
            var later := Act(Act(world, Do(k, OfDrain(w, DrainDefer))), Tick(seconds));
            NoActiveConfirm(later.At(k), later.now) ==>
              (Claimable(later.At(k), later.now, true) <==> world.At(k).drains[w].retainUntil.value <= later.now)
  {
    hide Run;
  }

  // ---------------------------------------------------------------------
  // Admissions
  // ---------------------------------------------------------------------

  /** The lease of an admission: who has it, and until when. */
  predicate Leased(a: Admission, owner: Owner, until: Time) {
    a.pending.Some? && a.pending.value.leaseOwner == Some(owner) && a.pending.value.leaseExpires == Some(until)
  }

  /**
   * An event of somebody else. The presign request gives the lease up when it fails, without looking
   * whether it still has it, so its failures are not among these.
   */
  predicate ByOthers(e: Event, owner: Owner) {
    match e
    case OfPresign(p) => owner != Presigner && !p.PresignFail? && !p.PresignReserveFailed?
    case OfConfirm(v, _) => owner != Confirmer(v)
    case OfSweep(v, _) => owner != Sweeper(v)
    case _ => true
  }

  lemma PresignRespects(a: Admission, now: Time, e: PresignEvent, owner: Owner, until: Time)
    requires a.created && Leased(a, owner, until) && now < until && ByOthers(OfPresign(e), owner)
    ensures var b := NextPresign(a, now, e); b.created && Leased(b, owner, until)
  {
  }

  lemma ConfirmRespects(a: Admission, now: Time, v: Worker, e: ConfirmEvent, owner: Owner, until: Time)
    requires a.created && Leased(a, owner, until) && now < until && ByOthers(OfConfirm(v, e), owner)
    ensures var b := NextConfirm(a, now, v, e);
            b.created && Leased(b, owner, until) && b.attached == a.attached && (e.ConfirmClaim? ==> b == a)
  {
  }

  lemma SweepRespects(a: Admission, now: Time, v: Worker, e: SweepEvent, owner: Owner, until: Time)
    requires a.created && Leased(a, owner, until) && now < until && ByOthers(OfSweep(v, e), owner)
    ensures var b := NextSweep(a, now, v, e);
            b.created && (b.pending.None? || Leased(b, owner, until)) && (e.SweepClaim? ==> b == a)
  {
  }

  lemma StageRespects(a: Admission, now: Time, e: StageEvent, owner: Owner, until: Time)
    requires a.created && Leased(a, owner, until) && now < until
    ensures var b := NextStage(a, now, e);
            b.created && (b.pending.None? || Leased(b, owner, until)) && (e.TokenAbandon? ==> b == a)
  {
  }

  lemma DrainRespects(a: Admission, now: Time, v: Worker, e: DrainEvent, owner: Owner, until: Time)
    requires a.created && Leased(a, owner, until)
    ensures var b := NextDrain(a, now, v, e); b.created && Leased(b, owner, until)
  {
  }

  lemma OutsideRespects(a: Admission, now: Time, e: OutsideEvent, owner: Owner, until: Time)
    requires a.created && Leased(a, owner, until)
    ensures var b := NextOutside(a, now, e); b.created && Leased(b, owner, until)
  {
  }

  /** The lease is still held, or the admission is gone for good. */
  predicate StillLeased(a: Admission, owner: Owner, until: Time) {
    a.created && (a.pending.None? || Leased(a, owner, until))
  }

  lemma OthersRespect(a: Admission, now: Time, e: Event, owner: Owner, until: Time)
    requires a.created && Leased(a, owner, until) && now < until && ByOthers(e, owner)
    ensures StillLeased(Next(a, now, e), owner, until)
  {
    hide NextPresign, NextOutside, NextConfirm, NextSweep, NextStage, NextDrain, Leased, ByOthers;
    match e
    case OfPresign(p) => PresignRespects(a, now, p, owner, until);
    case OfConfirm(v, c) => ConfirmRespects(a, now, v, c, owner, until);
    case OfSweep(v, s) => SweepRespects(a, now, v, s, owner, until);
    case OfStage(t) => StageRespects(a, now, t, owner, until);
    case OfDrain(v, d) => DrainRespects(a, now, v, d, owner, until);
    case OfOutside(o) => OutsideRespects(a, now, o, owner, until);
  }

  lemma PresignGone(a: Admission, now: Time, e: PresignEvent)
    requires a.created && a.pending.None?
    ensures var b := NextPresign(a, now, e); b.created && b.pending.None?
  {
  }

  lemma ConfirmGone(a: Admission, now: Time, v: Worker, e: ConfirmEvent)
    requires a.created && a.pending.None?
    ensures var b := NextConfirm(a, now, v, e); b.created && b.pending.None?
  {
  }

  lemma SweepGone(a: Admission, now: Time, v: Worker, e: SweepEvent)
    requires a.created && a.pending.None?
    ensures var b := NextSweep(a, now, v, e); b.created && b.pending.None?
  {
  }

  lemma StageGone(a: Admission, now: Time, e: StageEvent)
    requires a.created && a.pending.None?
    ensures var b := NextStage(a, now, e); b.created && b.pending.None?
  {
  }

  lemma DrainGone(a: Admission, now: Time, v: Worker, e: DrainEvent)
    requires a.created && a.pending.None?
    ensures var b := NextDrain(a, now, v, e); b.created && b.pending.None?
  {
  }

  lemma OutsideGone(a: Admission, now: Time, e: OutsideEvent)
    requires a.created && a.pending.None?
    ensures var b := NextOutside(a, now, e); b.created && b.pending.None?
  {
  }

  /** An admission does not come back. */
  lemma GoneForGood(a: Admission, now: Time, e: Event)
    requires a.created && a.pending.None?
    ensures var b := Next(a, now, e); b.created && b.pending.None?
  {
    hide NextPresign, NextOutside, NextConfirm, NextSweep, NextStage, NextDrain;
    match e
    case OfPresign(p) => PresignGone(a, now, p);
    case OfOutside(o) => OutsideGone(a, now, o);
    case OfConfirm(v, c) => ConfirmGone(a, now, v, c);
    case OfSweep(v, s) => SweepGone(a, now, v, s);
    case OfStage(t) => StageGone(a, now, t);
    case OfDrain(v, d) => DrainGone(a, now, v, d);
  }

  /** The admission is gone, and its object is or was the business of the outbox. */
  predicate HandedOver(a: Admission) {
    a.created && a.pending.None? && (a.intent.Some? || a.retired)
  }

  lemma DrainKeepsRetired(a: Admission, now: Time, w: Worker, d: DrainEvent)
    requires a.intent.Some? || a.retired
    ensures var b := NextDrain(a, now, w, d); b.intent.Some? || b.retired
  {
  }

  lemma HandedOverStays(a: Admission, now: Time, e: Event)
    requires HandedOver(a)
    ensures HandedOver(Next(a, now, e))
  {
    hide NextPresign, NextOutside, NextConfirm, NextSweep, NextStage, NextDrain;
    GoneForGood(a, now, e);
    if e.OfDrain? {
      DrainKeepsRetired(a, now, e.w, e.d);
    } else {
      NonDrainFrame(a, now, e);
    }
  }

  lemma {:induction false} HandedOverForGood(world: World, more: seq<Action>, k: Key)
    requires HandedOver(world.At(k))
    ensures HandedOver(Run(world, more).At(k))
  {
    hide Next, HandedOver;
    if more != [] {
      var before, last := Run(world, more[..|more| - 1]), more[|more| - 1];
      HandedOverForGood(world, more[..|more| - 1], k);
      if last.Do? && last.key == k {
        HandedOverStays(before.At(k), before.now, last.event);
      }
    }
  }

  lemma IntentIsCreated(actions: seq<Action>, k: Key)
    ensures var a := Run(START, actions).At(k); a.intent.Some? ==> a.created
  {
    hide Run, Confirms, Sweeps, Drains, Leases;
    Reachable(actions, k);
  }

  lemma PendingIsCreated(actions: seq<Action>, k: Key)
    ensures var a := Run(START, actions).At(k); a.pending.Some? ==> a.created
  {
    hide Run, Confirms, Sweeps, Drains, Leases;
    Reachable(actions, k);
  }

  /** Who gives an upload up, and may: its confirmation, the purge of the account, or the client with its token. */
  predicate MayAbandon(a: Admission, now: Time, e: Event) {
    match e
    case OfConfirm(w, ConfirmAbandon) => w in a.confirms && OwnedBy(a, Confirmer(w))
    case OfStage(PurgeStage) => true
    case OfStage(TokenAbandon) =>
      a.disclosed && a.pending.Some?
      && (a.pending.value.leaseOwner.None? || LeaseFree(a.pending.value.leaseExpires, now))
    case _ => false
  }

  lemma RowRelease(a: Admission, now: Time)
    requires Inv(a, now) && a.pending.Some?
    ensures QuotaReleaseFor(a.pending.value.quota, a.pending.value.reservationId).Some?
  {
    hide Confirms, Sweeps, Drains, Leases;
  }

  /** An upload that is given up is handed over to the outbox. */
  lemma AbandonHandsOver(actions: seq<Action>, k: Key, e: Event)
    requires Run(START, actions).At(k).pending.Some?
    requires MayAbandon(Run(START, actions).At(k), Run(START, actions).now, e)
    ensures HandedOver(Next(Run(START, actions).At(k), Run(START, actions).now, e))
  {
    hide Run, Inv;
    PendingIsCreated(actions, k);
    Reachable(actions, k);
    RowRelease(Run(START, actions).At(k), Run(START, actions).now);
  }

  ghost predicate AllByOthers(more: seq<Action>, owner: Owner) {
    forall i | 0 <= i < |more| :: more[i].Do? ==> ByOthers(more[i].event, owner)
  }

  lemma {:induction false} AdmissionLeaseHolds(world: World, more: seq<Action>, k: Key, owner: Owner, until: Time)
    requires StillLeased(world.At(k), owner, until) && AllByOthers(more, owner) && Run(world, more).now < until
    ensures StillLeased(Run(world, more).At(k), owner, until)
  {
    hide Next, Leased, ByOthers;
    if more != [] {
      var most, last := more[..|more| - 1], more[|more| - 1];
      AdmissionLeaseHolds(world, most, k, owner, until);
      if last.Do? && last.key == k {
        var a := Run(world, most).At(k);
        if a.pending.None? {
          GoneForGood(a, Run(world, most).now, last.event);
        } else {
          OthersRespect(a, Run(world, most).now, last.event, owner, until);
        }
      }
    }
  }

  /** While somebody has the lease of an admission, nobody else claims or abandons it. */
  ghost predicate OthersShutOut(a: Admission, now: Time) {
    && (forall v: Worker :: NextSweep(a, now, v, SweepClaim) == a)
    && (forall v: Worker :: NextConfirm(a, now, v, ConfirmClaim) == a)
    && NextStage(a, now, TokenAbandon) == a
  }

  lemma LeaseShutsOut(a: Admission, now: Time, owner: Owner, until: Time)
    requires StillLeased(a, owner, until) && now < until
    ensures OthersShutOut(a, now)
  {
  }

  /** For 60 seconds after a sweep has claimed an admission, it is the sweep's. */
  lemma SweepKeepsOthersOut(actions: seq<Action>, k: Key, w: Worker, more: seq<Action>)
    requires var world := Run(START, actions);
             var claimed := Act(world, Do(k, OfSweep(w, SweepClaim)));
             claimed.At(k) != world.At(k) && AllByOthers(more, Sweeper(w)) && Run(claimed, more).now < world.now + 60
    ensures var world := Run(START, actions);
            var later := Run(Act(world, Do(k, OfSweep(w, SweepClaim))), more);
            StillLeased(later.At(k), Sweeper(w), world.now + 60) && OthersShutOut(later.At(k), later.now)
  {
    hide Run;
    PendingIsCreated(actions, k);
    var world := Run(START, actions);
    var claimed := Act(world, Do(k, OfSweep(w, SweepClaim)));
    assert StillLeased(claimed.At(k), Sweeper(w), world.now + 60);
    hide Act, OthersShutOut, StillLeased;
    AdmissionLeaseHolds(claimed, more, k, Sweeper(w), world.now + 60);
    LeaseShutsOut(Run(claimed, more).At(k), Run(claimed, more).now, Sweeper(w), world.now + 60);
  }

  /**
   * For 300 seconds after a confirmation has claimed an admission, it is the confirmation's, and no drain takes its
   * intent.
   */
  lemma ConfirmKeepsOthersOut(actions: seq<Action>, k: Key, w: Worker, more: seq<Action>)
    requires var world := Run(START, actions);
             var claimed := Act(world, Do(k, OfConfirm(w, ConfirmClaim)));
             claimed.At(k) != world.At(k) && AllByOthers(more, Confirmer(w)) && Run(claimed, more).now < world.now + 300
    ensures var world := Run(START, actions);
            var later := Run(Act(world, Do(k, OfConfirm(w, ConfirmClaim))), more);
            && StillLeased(later.At(k), Confirmer(w), world.now + 300) && OthersShutOut(later.At(k), later.now)
            && (later.At(k).pending.Some? ==> forall q: bool :: !Claimable(later.At(k), later.now, q))
  {
    hide Run;
    PendingIsCreated(actions, k);
    var world := Run(START, actions);
    var claimed := Act(world, Do(k, OfConfirm(w, ConfirmClaim)));
    assert StillLeased(claimed.At(k), Confirmer(w), world.now + 300);
    hide Act, OthersShutOut;
    AdmissionLeaseHolds(claimed, more, k, Confirmer(w), world.now + 300);
    LeaseShutsOut(Run(claimed, more).At(k), Run(claimed, more).now, Confirmer(w), world.now + 300);
  }

  /** For 60 seconds after the presign request has inserted an admission, it is the request's. */
  lemma PresignKeepsOthersOut(world: World, k: Key, e: PresignEvent, more: seq<Action>)
    requires e.Create? && var created := Act(world, Do(k, OfPresign(e)));
             created.At(k) != world.At(k) && AllByOthers(more, Presigner) && Run(created, more).now < world.now + 60
    ensures var later := Run(Act(world, Do(k, OfPresign(e))), more);
            StillLeased(later.At(k), Presigner, world.now + 60) && OthersShutOut(later.At(k), later.now)
  {
    hide Run;
    var created := Act(world, Do(k, OfPresign(e)));
    assert StillLeased(created.At(k), Presigner, world.now + 60);
    hide Act, OthersShutOut, StillLeased;
    AdmissionLeaseHolds(created, more, k, Presigner, world.now + 60);
    LeaseShutsOut(Run(created, more).At(k), Run(created, more).now, Presigner, world.now + 60);
  }

  /** When nothing else happens, the sweep can take an admission up after exactly these times. */
  lemma AdmissionLapses(world: World, k: Key, w: Worker, e: Event, seconds: nat)
    requires var a := world.At(k);
             match e
             case OfSweep(v, SweepClaim) => v == w && Act(world, Do(k, e)).At(k) != a
             case OfConfirm(v, ConfirmClaim) => v == w && Act(world, Do(k, e)).At(k) != a
             case OfSweep(v, SweepFail) => v == w && w in a.sweeps && OwnedBy(a, Sweeper(w))
             case OfPresign(Create(_, _, _, _)) => Act(world, Do(k, e)).At(k) != a
             case _ => false
    ensures var later := Act(Act(world, Do(k, e)), Tick(seconds));
            var row := later.At(k).pending;
            && row.Some?
            && (Abandoned(later.At(k), later.now)
                <==> && (if e.OfConfirm? then 300 else 60) <= seconds
                     && (row.value.expiresAt <= later.now || !row.value.urlIssued))
  {
  }

  /** Whoever gives an admission up leaves it free at once, except for the sweep. */
  lemma FreedAtOnce(a: Admission, now: Time, e: Event)
    requires match e
             case OfPresign(PresignReserveFailed) => a.presign.ReserveFailed?
             case OfPresign(PresignFail) =>
               a.presign.Inserted? || a.presign.ReserveReplied? || a.presign.Recorded? || a.presign.Signed?
               || a.presign.LeaseLost?
             case OfPresign(PresignIssue) => a.presign.Signed? && OwnedBy(a, Presigner)
             case OfConfirm(w, ConfirmRelease) => w in a.confirms && OwnedBy(a, Confirmer(w))
             case _ => false
    ensures var row := Next(a, now, e).pending;
            && (row.Some? <==> a.pending.Some?)
            && (row.Some? ==>
                  row.value.leaseOwner.None? && (row.value.leaseExpires.None? || row.value.leaseExpires.value == now))
  {
  }

  /** What a worker records about the quota of an admission. */
  function RecordOf(e: Event): Option<(Owner, QuotaState)> {
    match e
    case OfPresign(PresignRecord) => Some((Presigner, Reserved))
    case OfConfirm(w, ConfirmMark) => Some((Confirmer(w), FinalizePending))
    case OfConfirm(w, ConfirmRecord) => Some((Confirmer(w), Committed))
    case OfSweep(w, SweepRecordReserve) => Some((Sweeper(w), Reserved))
    case OfSweep(w, SweepRecordCommit) => Some((Sweeper(w), Committed))
    case _ => None
  }

  /** The worker has come to the point where it records this. */
  predicate ReadyToRecord(a: Admission, e: Event) {
    match e
    case OfPresign(PresignRecord) => a.presign == ReserveReplied
    case OfConfirm(w, ConfirmMark) => w in a.confirms && a.confirms[w] == Confirm(Claimed, true)
    case OfConfirm(w, ConfirmRecord) => w in a.confirms && a.confirms[w].phase == FinalizeReplied
    case OfSweep(w, SweepRecordReserve) => w in a.sweeps && a.sweeps[w].quota == ReservePending && a.sweeps[w].replied
    case OfSweep(w, SweepRecordCommit) => w in a.sweeps && a.sweeps[w].quota == FinalizePending && a.sweeps[w].replied
    case _ => false
  }

  /** A record takes effect exactly when its worker still has the lease; otherwise the row stays as it is. */
  lemma RecordedByOwner(a: Admission, now: Time, e: Event)
    requires ReadyToRecord(a, e)
    ensures var (owner, quota), row := RecordOf(e).value, Next(a, now, e).pending;
            if a.pending.Some? && a.pending.value.leaseOwner == Some(owner)
            then row == Some(a.pending.value.(quota := quota,
                                              reservationId := a.pending.value.reservationId || quota == Reserved))
            else row == a.pending
  {
  }

  // ---------------------------------------------------------------------
  // Who may claim what
  // ---------------------------------------------------------------------

  /** A confirmation can claim exactly the live admissions whose URL is out and that nobody has leased. */
  lemma ConfirmClaimExactly(a: Admission, now: Time, w: Worker)
    requires w !in a.tokens
    ensures NextConfirm(a, now, w, ConfirmClaim) != a
       <==> && a.disclosed && a.pending.Some? && now < a.pending.value.expiresAt
            && (a.pending.value.leaseExpires.Some? ==> a.pending.value.leaseExpires.value <= now)
  {
  }

  /** Without a quota adapter a drain claims only what has no quota. */
  lemma QuotaNeedsAdapter(a: Admission, now: Time)
    ensures Claimable(a, now, false) <==> Claimable(a, now, true) && a.intent.value.kind == NoRelease
  {
  }

  /** What a purge, an abandoned confirmation or a client stages can be drained at once. */
  lemma StagedIsDue(a: Admission, now: Time, e: Event)
    requires (e.OfStage? && e.t != RemoveAttachment) || (e.OfConfirm? && e.c.ConfirmAbandon?)
    requires a.intent.None? && Next(a, now, e).intent.Some?
    ensures Claimable(Next(a, now, e), now, true)
  {
  }

  /** So can the removal of an attachment. */
  lemma RemovedIsDue(a: Admission, now: Time)
    requires a.attached && a.intent.None? && a.pending.None?
    ensures Claimable(NextStage(a, now, RemoveAttachment), now, true)
  {
  }
}
