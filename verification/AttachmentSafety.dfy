/** What holds in every run of the attachment protocol. */
module AttachmentSafety {
  import opened Wrappers
  import opened AttachmentProtocol
  import opened AttachmentInvariant
  import opened AttachmentSteps

  // ---------------------------------------------------------------------
  // Every run keeps the invariant
  // ---------------------------------------------------------------------

  lemma PresignEventKeeps(a: Admission, now: Time, e: PresignEvent)
    requires Inv(a, now)
    ensures Inv(NextPresign(a, now, e), now)
  {
    hide Inv, DoCreate, DoPresignReserve, DoPresignRecord, DoPresignReserveFailed, DoPresignSign,
      DoPresignIssue, DoPresignFail, DoPresignCrash;
    match e
    case Create(startedAt, lifetime, quota, workspace) => CreateKeeps(a, now, startedAt, lifetime, quota, workspace);
    case PresignReserve(reply) => PresignReserveKeeps(a, now, reply);
    case PresignRecord => PresignRecordKeeps(a, now);
    case PresignReserveFailed => PresignReserveFailedKeeps(a, now);
    case PresignSign => PresignSignKeeps(a, now);
    case PresignIssue => PresignIssueKeeps(a, now);
    case PresignFail => PresignFailKeeps(a, now);
    case PresignCrash => PresignCrashKeeps(a, now);
  }

  lemma OutsideEventKeeps(a: Admission, now: Time, e: OutsideEvent)
    requires Inv(a, now)
    ensures Inv(NextOutside(a, now, e), now)
  {
    hide Inv, DoPut, DoDeny, DoLateReserve, DoLateFinalize, DoLateDelete;
    match e
    case Put => PutKeeps(a, now);
    case Deny => DenyKeeps(a, now);
    case LateReserve => LateReserveKeeps(a, now);
    case LateFinalize => LateFinalizeKeeps(a, now);
    case LateDelete => LateDeleteKeeps(a, now);
  }

  lemma ConfirmEventKeeps(a: Admission, now: Time, w: Worker, e: ConfirmEvent)
    requires Inv(a, now)
    ensures Inv(NextConfirm(a, now, w, e), now)
  {
    hide Inv, DoConfirmClaim, DoConfirmMark, DoConfirmFinalize, DoConfirmRecord, DoConfirmInsert,
      DoConfirmAbandon, DoConfirmRelease, DoConfirmCrash;
    match e
    case ConfirmClaim => ConfirmClaimKeeps(a, now, w);
    case ConfirmMark => ConfirmMarkKeeps(a, now, w);
    case ConfirmFinalize(reply) => ConfirmFinalizeKeeps(a, now, w, reply);
    case ConfirmRecord => ConfirmRecordKeeps(a, now, w);
    case ConfirmInsert => ConfirmInsertKeeps(a, now, w);
    case ConfirmAbandon => ConfirmAbandonKeeps(a, now, w);
    case ConfirmRelease => ConfirmReleaseKeeps(a, now, w);
    case ConfirmCrash => ConfirmCrashKeeps(a, now, w);
  }

  lemma SweepEventKeeps(a: Admission, now: Time, w: Worker, e: SweepEvent)
    requires Inv(a, now)
    ensures Inv(NextSweep(a, now, w, e), now)
  {
    hide Inv, DoSweepClaim, DoSweepReserve, DoSweepRecordReserve, DoSweepFinalize, DoSweepRecordCommit,
      DoSweepStage, DoSweepFail, DoSweepCrash;
    match e
    case SweepClaim => SweepClaimKeeps(a, now, w);
    case SweepReserve(reply) => SweepReserveKeeps(a, now, w, reply);
    case SweepRecordReserve => SweepRecordReserveKeeps(a, now, w);
    case SweepFinalize(reply) => SweepFinalizeKeeps(a, now, w, reply);
    case SweepRecordCommit => SweepRecordCommitKeeps(a, now, w);
    case SweepStage => SweepStageKeeps(a, now, w);
    case SweepFail => SweepFailKeeps(a, now, w);
    case SweepCrash => SweepCrashKeeps(a, now, w);
  }

  lemma StageEventKeeps(a: Admission, now: Time, e: StageEvent)
    requires Inv(a, now)
    ensures Inv(NextStage(a, now, e), now)
  {
    hide Inv, DoPurgeStage, DoTokenAbandon, DoRemoveAttachment;
    match e
    case PurgeStage => PurgeStageKeeps(a, now);
    case TokenAbandon => TokenAbandonKeeps(a, now);
    case RemoveAttachment => RemoveAttachmentKeeps(a, now);
  }

  lemma DrainEventKeeps(a: Admission, now: Time, w: Worker, e: DrainEvent)
    requires Inv(a, now)
    ensures Inv(NextDrain(a, now, w, e), now)
  {
    hide Inv, DoDrainClaim, DoDrainDelete, DoDrainDefer, DoDrainReserve, DoDrainReleaseReservation,
      DoDrainFinalize, DoDrainReleaseCommitted, DoDrainAcknowledge, DoDrainFail, DoDrainCrash;
    match e
    case DrainClaim(quotaAvailable) => DrainClaimKeeps(a, now, w, quotaAvailable);
    case DrainDelete(reply) => DrainDeleteKeeps(a, now, w, reply);
    case DrainDefer => DrainDeferKeeps(a, now, w);
    case DrainReserve(reply) => DrainReserveKeeps(a, now, w, reply);
    case DrainReleaseReservation(reply) => DrainReleaseReservationKeeps(a, now, w, reply);
    case DrainFinalize(reply) => DrainFinalizeKeeps(a, now, w, reply);
    case DrainReleaseCommitted(reply) => DrainReleaseCommittedKeeps(a, now, w, reply);
    case DrainAcknowledge => DrainAcknowledgeKeeps(a, now, w);
    case DrainFail => DrainFailKeeps(a, now, w);
    case DrainGiveBack => DrainFailKeeps(a, now, w);
    case DrainDown(_) =>
    case DrainCrash => DrainCrashKeeps(a, now, w);
  }

  lemma NextKeeps(a: Admission, now: Time, e: Event)
    requires Inv(a, now)
    ensures Inv(Next(a, now, e), now)
  {
    hide Inv, NextPresign, NextOutside, NextConfirm, NextSweep, NextStage, NextDrain;
    match e
    case OfPresign(p) => PresignEventKeeps(a, now, p);
    case OfOutside(o) => OutsideEventKeeps(a, now, o);
    case OfConfirm(w, c) => ConfirmEventKeeps(a, now, w, c);
    case OfSweep(w, s) => SweepEventKeeps(a, now, w, s);
    case OfStage(t) => StageEventKeeps(a, now, t);
    case OfDrain(w, d) => DrainEventKeeps(a, now, w, d);
  }

  predicate AllInv(world: World) {
    forall k | k in world.admissions :: Inv(world.admissions[k], world.now)
  }

  lemma InvAt(world: World, k: Key)
    requires AllInv(world)
    ensures Inv(world.At(k), world.now)
  {
    FreshInv(world.now);
  }

  lemma ActKeeps(world: World, action: Action)
    requires AllInv(world)
    ensures AllInv(Act(world, action))
  {
    hide Inv;
    match action
    case Tick(seconds) =>
      forall k | k in world.admissions ensures Inv(world.admissions[k], world.now + seconds) {
        TickKeeps(world.admissions[k], world.now, world.now + seconds);
      }
    case Do(key, event) =>
      InvAt(world, key);
      NextKeeps(world.At(key), world.now, event);
  }

  lemma {:induction false} RunKeeps(world: World, actions: seq<Action>)
    requires AllInv(world)
    ensures AllInv(Run(world, actions))
  {
    if actions != [] {
      RunKeeps(world, actions[..|actions| - 1]);
      ActKeeps(Run(world, actions[..|actions| - 1]), actions[|actions| - 1]);
    }
  }

  /** In every run from the start, every admission satisfies the invariant. */
  lemma Reachable(actions: seq<Action>, k: Key)
    ensures Inv(Run(START, actions).At(k), Run(START, actions).now)
  {
    RunKeeps(START, actions);
    InvAt(Run(START, actions), k);
  }

  // ---------------------------------------------------------------------
  // What a step cannot undo
  // ---------------------------------------------------------------------

  /** Only the drain touches an intent that exists, and what drain workers hold. */
  predicate OutboxFrame(a: Admission, b: Admission) {
    && b.drains == a.drains && b.settled == a.settled && b.retired == a.retired
    && (a.swept ==> b.swept)
    && (a.intent.Some? ==> b.intent == a.intent)
  }

  lemma PresignBeginsFrame(a: Admission, now: Time, startedAt: Time, lifetime: nat, quota: bool, workspace: bool)
    ensures OutboxFrame(a, DoCreate(a, now, startedAt, lifetime, quota, workspace))
  {
  }

  lemma PresignCallsFrame(a: Admission, now: Time, reply: Reply)
    ensures OutboxFrame(a, DoPresignReserve(a, reply)) && OutboxFrame(a, DoPresignSign(a, now))
  {
    hide ReserveReplyOk;
  }

  lemma PresignWritesFrame(a: Admission)
    ensures OutboxFrame(a, DoPresignRecord(a)) && OutboxFrame(a, DoPresignIssue(a))
  {
  }

  lemma PresignFailsFrame(a: Admission, now: Time)
    ensures OutboxFrame(a, DoPresignReserveFailed(a, now)) && OutboxFrame(a, DoPresignCrash(a))
  {
  }

  lemma PresignEndsFrame(a: Admission, now: Time)
    ensures OutboxFrame(a, DoPresignFail(a, now))
  {
  }

  lemma PresignFrame(a: Admission, now: Time, e: PresignEvent)
    ensures OutboxFrame(a, NextPresign(a, now, e))
  {
    hide DoCreate, DoPresignReserve, DoPresignRecord, DoPresignReserveFailed, DoPresignSign, DoPresignIssue;
    hide DoPresignFail, DoPresignCrash, OutboxFrame;
    match e
    case Create(startedAt, lifetime, quota, workspace) =>
      PresignBeginsFrame(a, now, startedAt, lifetime, quota, workspace);
    case PresignReserve(reply) => PresignCallsFrame(a, now, reply);
    case PresignRecord => PresignWritesFrame(a);
    case PresignReserveFailed => PresignFailsFrame(a, now);
    case PresignSign => PresignCallsFrame(a, now, Success);
    case PresignIssue => PresignWritesFrame(a);
    case PresignFail => PresignEndsFrame(a, now);
    case PresignCrash => PresignFailsFrame(a, now);
  }

  lemma OutsideFrame(a: Admission, now: Time, e: OutsideEvent)
    ensures OutboxFrame(a, NextOutside(a, now, e))
  {
  }

  lemma ConfirmFrame(a: Admission, now: Time, w: Worker, e: ConfirmEvent)
    ensures OutboxFrame(a, NextConfirm(a, now, w, e))
  {
  }

  lemma SweepFrame(a: Admission, now: Time, w: Worker, e: SweepEvent)
    ensures OutboxFrame(a, NextSweep(a, now, w, e))
  {
  }

  lemma StageFrame(a: Admission, now: Time, e: StageEvent)
    ensures OutboxFrame(a, NextStage(a, now, e))
  {
  }

  lemma NonDrainFrame(a: Admission, now: Time, e: Event)
    requires !e.OfDrain?
    ensures OutboxFrame(a, Next(a, now, e))
  {
    hide NextPresign, NextOutside, NextConfirm, NextSweep, NextStage;
    match e
    case OfPresign(p) => PresignFrame(a, now, p);
    case OfOutside(o) => OutsideFrame(a, now, o);
    case OfConfirm(w, c) => ConfirmFrame(a, now, w, c);
    case OfSweep(w, s) => SweepFrame(a, now, w, s);
    case OfStage(t) => StageFrame(a, now, t);
  }

  /** The drain never touches the pending row, the attachment or the history of the sweep. */
  lemma DrainFrame(a: Admission, now: Time, w: Worker, d: DrainEvent)
    ensures var b := NextDrain(a, now, w, d);
            && b.pending == a.pending && b.attached == a.attached && b.swept == a.swept && b.intents == a.intents
            && (a.settled ==> b.settled)
  {
  }

  lemma SettledStays(a: Admission, now: Time, e: Event)
    ensures (a.settled ==> Next(a, now, e).settled) && (a.swept ==> Next(a, now, e).swept)
  {
    hide NextPresign, NextOutside, NextConfirm, NextSweep, NextStage, NextDrain;
    if e.OfDrain? {
      DrainFrame(a, now, e.w, e.d);
    } else {
      NonDrainFrame(a, now, e);
    }
  }

  lemma {:induction false} HistoryStays(world: World, more: seq<Action>, k: Key)
    ensures world.At(k).settled ==> Run(world, more).At(k).settled
    ensures world.At(k).swept ==> Run(world, more).At(k).swept
  {
    hide Next;
    if more != [] {
      var before := Run(world, more[..|more| - 1]);
      HistoryStays(world, more[..|more| - 1], k);
      var last := more[|more| - 1];
      if last.Do? && last.key == k {
        SettledStays(before.At(k), before.now, last.event);
      }
    }
  }

  lemma DeniedUnderDrain(a: Admission, now: Time, w: Worker, d: DrainEvent)
    requires a.ledger.denied
    ensures NextDrain(a, now, w, d).ledger.denied
  {
  }

  lemma DeniedUnderSweep(a: Admission, now: Time, w: Worker, s: SweepEvent)
    requires a.ledger.denied
    ensures NextSweep(a, now, w, s).ledger.denied
  {
  }

  lemma DeniedUnderPresign(a: Admission, now: Time, p: PresignEvent)
    requires a.ledger.denied
    ensures NextPresign(a, now, p).ledger.denied
  {
  }

  lemma DeniedUnderConfirm(a: Admission, now: Time, w: Worker, c: ConfirmEvent)
    requires a.ledger.denied
    ensures NextConfirm(a, now, w, c).ledger.denied
  {
  }

  lemma DeniedUnderOutside(a: Admission, now: Time, o: OutsideEvent)
    requires a.ledger.denied
    ensures NextOutside(a, now, o).ledger.denied
  {
  }

  lemma DeniedUnderStage(a: Admission, now: Time, t: StageEvent)
    requires a.ledger.denied
    ensures NextStage(a, now, t).ledger.denied
  {
  }

  /** A key that the adapter has rejected stays rejected. */
  lemma DeniedStays(a: Admission, now: Time, e: Event)
    requires a.ledger.denied
    ensures Next(a, now, e).ledger.denied
  {
    hide NextPresign, NextOutside, NextConfirm, NextSweep, NextStage, NextDrain;
    match e
    case OfPresign(p) => DeniedUnderPresign(a, now, p);
    case OfOutside(o) => DeniedUnderOutside(a, now, o);
    case OfConfirm(w, c) => DeniedUnderConfirm(a, now, w, c);
    case OfSweep(w, s) => DeniedUnderSweep(a, now, w, s);
    case OfStage(t) => DeniedUnderStage(a, now, t);
    case OfDrain(w, d) => DeniedUnderDrain(a, now, w, d);
  }

  lemma {:induction false} DeniedForGood(world: World, more: seq<Action>, k: Key)
    requires world.At(k).ledger.denied
    ensures Run(world, more).At(k).ledger.denied
  {
    hide Next;
    if more != [] {
      var before, last := Run(world, more[..|more| - 1]), more[|more| - 1];
      DeniedForGood(world, more[..|more| - 1], k);
      if last.Do? && last.key == k {
        DeniedStays(before.At(k), before.now, last.event);
      }
    }
  }

  lemma {:induction false} RunConcat(world: World, actions: seq<Action>, more: seq<Action>)
    ensures Run(world, actions + more) == Run(Run(world, actions), more)
  {
    if more == [] {
      assert actions + more == actions;
    } else {
      var most := more[..|more| - 1];
      RunConcat(world, actions, most);
      assert (actions + more)[..|actions + more| - 1] == actions + most;
    }
  }

  // ---------------------------------------------------------------------
  // Retirement comes after the delete
  // ---------------------------------------------------------------------

  /** Worker `w` has deleted the object of its claim. */
  predicate HasDeleted(a: Admission, w: Worker) {
    w in a.drains && a.drains[w].phase != Fetched && a.drains[w].phase != Failed
  }

  lemma DrainOthers(a: Admission, now: Time, v: Worker, d: DrainEvent, w: Worker)
    requires v != w
    ensures var b := NextDrain(a, now, v, d);
            (w in b.drains <==> w in a.drains) && (w in a.drains ==> b.drains[w] == a.drains[w])
  {
  }

  lemma DrainOwn(a: Admission, now: Time, w: Worker, d: DrainEvent)
    requires HasDeleted(NextDrain(a, now, w, d), w)
    ensures w in a.drains && NextDrain(a, now, w, d).drains[w].claimedAt == a.drains[w].claimedAt
    ensures HasDeleted(a, w) || d == DrainDelete(Success)
  {
  }

  lemma DeletedByStep(a: Admission, now: Time, e: Event, w: Worker)
    requires HasDeleted(Next(a, now, e), w)
    ensures w in a.drains && Next(a, now, e).drains[w].claimedAt == a.drains[w].claimedAt
    ensures HasDeleted(a, w) || e == OfDrain(w, DrainDelete(Success))
  {
    hide NextPresign, NextOutside, NextConfirm, NextSweep, NextStage, NextDrain;
    if !e.OfDrain? {
      NonDrainFrame(a, now, e);
    } else if e.w == w {
      DrainOwn(a, now, w, e.d);
    } else {
      DrainOthers(a, now, e.w, e.d, w);
    }
  }

  /** Action `i` deletes the object for worker `w`, at time `since` or later. */
  predicate DeletesAt(actions: seq<Action>, i: nat, k: Key, w: Worker, since: Time) {
    && i < |actions|
    && actions[i] == Do(k, OfDrain(w, DrainDelete(Success)))
    && since <= Run(START, actions[..i]).now
  }

  lemma {:induction false} DeleteHappened(actions: seq<Action>, k: Key, w: Worker) returns (i: nat)
    requires HasDeleted(Run(START, actions).At(k), w)
    ensures DeletesAt(actions, i, k, w, Run(START, actions).At(k).drains[w].claimedAt)
  {
    hide Next, Inv;
    assert actions != [];
    var most, last := actions[..|actions| - 1], actions[|actions| - 1];
    var before := Run(START, most);
    if last.Do? && last.key == k {
      DeletedByStep(before.At(k), before.now, last.event, w);
      if !HasDeleted(before.At(k), w) {
        Reachable(most, k);
        DrainAt(before.At(k), before.now, w);
        return |most|;
      }
    }
    i := DeleteHappened(most, k, w);
    assert actions[..i] == most[..i];
  }

  lemma DrainRetires(a: Admission, now: Time, w: Worker, d: DrainEvent)
    requires a.intent.Some? && NextDrain(a, now, w, d).intent.None?
    ensures d == DrainAcknowledge && MayAcknowledge(a, w) && ClaimedBy(a, w)
  {
  }

  lemma OnlyAcknowledgeRetires(a: Admission, now: Time, e: Event)
    requires a.intent.Some? && Next(a, now, e).intent.None?
    ensures e.OfDrain? && e.d == DrainAcknowledge && MayAcknowledge(a, e.w) && ClaimedBy(a, e.w)
  {
    hide NextPresign, NextOutside, NextConfirm, NextSweep, NextStage, NextDrain, MayAcknowledge, ClaimedBy;
    if e.OfDrain? {
      DrainRetires(a, now, e.w, e.d);
    } else {
      NonDrainFrame(a, now, e);
    }
  }

  lemma FinalClaim(a: Admission, now: Time, w: Worker)
    requires Inv(a, now) && MayAcknowledge(a, w) && ClaimedBy(a, w)
    ensures HasDeleted(a, w)
    ensures a.intent.value.retainUntil.None? || a.intent.value.retainUntil.value <= a.drains[w].claimedAt
  {
    hide Confirms, Sweeps;
    DrainAt(a, now, w);
  }

  /**
   * An intent is retired only by the worker that holds its lease, and only after a delete of the
   * object that this worker performed when the time to retain had passed.
   */
  lemma RetiredOnlyAfterDelete(actions: seq<Action>, k: Key, e: Event) returns (i: nat)
    requires Run(START, actions).At(k).intent.Some?
    requires Next(Run(START, actions).At(k), Run(START, actions).now, e).intent.None?
    ensures e.OfDrain? && ClaimedBy(Run(START, actions).At(k), e.w)
    ensures var retain := Run(START, actions).At(k).intent.value.retainUntil;
            DeletesAt(actions, i, k, e.w, if retain.Some? then retain.value else 0)
  {
    hide Inv, Run;
    var world := Run(START, actions);
    var a := world.At(k);
    OnlyAcknowledgeRetires(a, world.now, e);
    Reachable(actions, k);
    FinalClaim(a, world.now, e.w);
    hide Next;
    i := DeleteHappened(actions, k, e.w);
  }

  // ---------------------------------------------------------------------
  // No object outlives its intent, if the URL expires in time
  // ---------------------------------------------------------------------

  /** Neither a pending row nor an attachment nor an intent refers to the object. */
  predicate Over(a: Admission) {
    a.created && a.pending.None? && !a.attached && a.intent.None?
  }

  /** The URL cannot be used once the cleanup takes it for expired. */
  predicate UrlInTime(a: Admission) {
    a.urlExpires <= if a.removed then a.removedAt else a.expiresAt
  }

  lemma NoObjectOutlivesItsIntent(actions: seq<Action>, k: Key)
    requires Over(Run(START, actions).At(k)) && UrlInTime(Run(START, actions).At(k))
    ensures !Run(START, actions).At(k).stored
  {
    Reachable(actions, k);
    hide Run, Confirms, Sweeps, Drains, Leases;
  }

  /** Each intent is deferred at most once. */
  lemma DeferredAtMostOnce(actions: seq<Action>, k: Key)
    ensures var a := Run(START, actions).At(k); a.intent.Some? ==> a.intent.value.deferrals <= 1
  {
    Reachable(actions, k);
    hide Run, Confirms, Sweeps, Drains, Leases;
  }

  // ---------------------------------------------------------------------
  // The quota is settled for good
  // ---------------------------------------------------------------------

  /**
   * When an intent is retired without a terminal rejection, the ledger of its operation key holds
   * nothing from then on, whatever happens later, late deliveries and stale workers included.
   */
  lemma QuotaSettledForGood(actions: seq<Action>, k: Key, w: Worker, more: seq<Action>)
    requires var a := Run(START, actions).At(k);
             MayAcknowledge(a, w) && ClaimedBy(a, w) && a.drains[w].phase != QuotaRejected
    ensures var after := Run(START, actions + [Do(k, OfDrain(w, DrainAcknowledge))] + more).At(k);
            after.ledger.reservation != Held && after.ledger.committed != Held
  {
    hide Inv;
    var ack := [Do(k, OfDrain(w, DrainAcknowledge))];
    var world := Run(START, actions);
    RunConcat(START, actions, ack);
    RunConcat(START, actions + ack, more);
    assert ack[..0] == [];
    assert Run(world, ack) == Act(world, ack[0]);
    assert Run(world, ack).At(k).settled;
    HistoryStays(Run(world, ack), more, k);
    Reachable(actions + ack + more, k);
    SettledHolds(Run(START, actions + ack + more).At(k), Run(START, actions + ack + more).now);
  }

  lemma SettledHolds(a: Admission, now: Time)
    requires Inv(a, now) && a.settled
    ensures HoldsNothing(a.ledger)
  {
  }

  // ---------------------------------------------------------------------
  // Leases
  // ---------------------------------------------------------------------

  lemma DrainRespectsLease(a: Admission, now: Time, v: Worker, d: DrainEvent)
    requires a.intent.Some? && a.intent.value.leaseOwner.Some? && a.intent.value.leaseOwner != Some(v)
    requires a.intent.value.leaseExpires.Some? && now < a.intent.value.leaseExpires.value
    ensures NextDrain(a, now, v, d).intent == a.intent
  {
  }

  lemma LeaseRespected(a: Admission, now: Time, e: Event, w: Worker)
    requires a.intent.Some? && a.intent.value.leaseOwner == Some(w)
    requires a.intent.value.leaseExpires.Some? && now < a.intent.value.leaseExpires.value
    requires !(e.OfDrain? && e.w == w)
    ensures Next(a, now, e).intent == a.intent
  {
    hide NextPresign, NextOutside, NextConfirm, NextSweep, NextStage, NextDrain;
    if e.OfDrain? {
      DrainRespectsLease(a, now, e.w, e.d);
    } else {
      NonDrainFrame(a, now, e);
    }
  }

  /** While a lease is unexpired, nobody but its owner changes the intent. */
  lemma {:induction false} LeaseHolds(world: World, more: seq<Action>, k: Key, w: Worker)
    requires var i := world.At(k).intent;
             && i.Some? && i.value.leaseOwner == Some(w) && i.value.leaseExpires.Some?
             && Run(world, more).now < i.value.leaseExpires.value
    requires forall j | 0 <= j < |more| :: !(more[j].Do? && more[j].event.OfDrain? && more[j].event.w == w)
    ensures Run(world, more).At(k).intent == world.At(k).intent
  {
    hide Next;
    if more != [] {
      var most, last := more[..|more| - 1], more[|more| - 1];
      LeaseHolds(world, most, k, w);
      if last.Do? && last.key == k {
        LeaseRespected(Run(world, most).At(k), Run(world, most).now, last.event, w);
      }
    }
  }

  /** A drain worker whose lease was taken over can no longer write to the database. */
  lemma StaleWorkerWritesNothing(actions: seq<Action>, k: Key, w: Worker, d: DrainEvent)
    requires w in Run(START, actions).At(k).drains && !ClaimedBy(Run(START, actions).At(k), w)
    ensures var world := Run(START, actions);
            var a, b := world.At(k), NextDrain(world.At(k), world.now, w, d);
            && b.intent == a.intent && b.pending == a.pending && b.attached == a.attached
            && b.history == a.history
  {
    hide Inv, NextDrain;
    Reachable(actions, k);
    DrainAt(Run(START, actions).At(k), Run(START, actions).now, w);
    StaleWrite(Run(START, actions).At(k), Run(START, actions).now, w, d);
  }

  lemma StaleWrite(a: Admission, now: Time, w: Worker, d: DrainEvent)
    requires w in a.drains && w in a.tokens && !ClaimedBy(a, w)
    ensures var b := NextDrain(a, now, w, d);
            && b.intent == a.intent && b.pending == a.pending && b.attached == a.attached
            && b.history == a.history
  {
  }

  /** Once the sweep has claimed an admission, no confirmation claims or inserts it, ever. */
  lemma SweptNeverConfirmed(actions: seq<Action>, more: seq<Action>, k: Key, w: Worker)
    requires Run(START, actions).At(k).swept
    ensures var world := Run(START, actions + more);
            var a := world.At(k);
            && !a.attached
            && NextConfirm(a, world.now, w, ConfirmClaim) == a
            && !NextConfirm(a, world.now, w, ConfirmInsert).attached
  {
    hide Inv, NextConfirm;
    RunConcat(START, actions, more);
    HistoryStays(Run(START, actions), more, k);
    Reachable(actions + more, k);
    SweptRefuses(Run(START, actions + more).At(k), Run(START, actions + more).now, w);
  }

  lemma SweptRefuses(a: Admission, now: Time, w: Worker)
    requires Inv(a, now) && a.swept
    ensures !a.attached && NextConfirm(a, now, w, ConfirmClaim) == a
    ensures !NextConfirm(a, now, w, ConfirmInsert).attached
  {
    hide Confirms, Sweeps, Drains, Leases;
  }

  // ---------------------------------------------------------------------
  // Live attachments
  // ---------------------------------------------------------------------

  /** No step takes the object or the committed usage of a live attachment away. */
  lemma LiveAttachmentKept(actions: seq<Action>, k: Key, e: Event)
    requires Run(START, actions).At(k).attached
    ensures var world := Run(START, actions);
            var a, b := world.At(k), Next(world.At(k), world.now, e);
            && (a.stored ==> b.stored)
            && (!a.quotaless ==> a.ledger.committed == Held && b.ledger.committed == Held)
            && (!b.attached ==> e == OfStage(RemoveAttachment) && b.intent.Some?)
  {
    hide Inv, Next;
    Reachable(actions, k);
    LiveKept(Run(START, actions).At(k), Run(START, actions).now, e);
  }

  lemma LiveKept(a: Admission, now: Time, e: Event)
    requires Inv(a, now) && a.attached
    ensures var b := Next(a, now, e);
            && (a.stored ==> b.stored)
            && (!a.quotaless ==> a.ledger.committed == Held && b.ledger.committed == Held)
            && (!b.attached ==> e == OfStage(RemoveAttachment) && b.intent.Some?)
  {
    LiveFacts(a, now);
    hide Inv, NextPresign, NextOutside, NextConfirm, NextSweep, NextStage, NextDrain;
    match e
    case OfPresign(p) => LivePresign(a, now, p);
    case OfOutside(o) => LiveOutside(a, now, o);
    case OfConfirm(w, c) => LiveConfirm(a, now, w, c);
    case OfSweep(w, s) => LiveSweep(a, now, w, s);
    case OfStage(t) => LiveStage(a, now, t);
    case OfDrain(w, d) =>
      if w in a.drains {
        DrainAt(a, now, w);
      }
      LiveDrain(a, now, w, d);
  }

  /** Nobody has a claim on a live attachment. */
  predicate Live(a: Admission) {
    && a.attached && a.pending.None? && a.intent.None? && !a.deleteSent
    && (!a.quotaless ==> a.ledger.committed == Held)
  }

  /** The object and the usage are as they were. */
  predicate StillLive(a: Admission, b: Admission) {
    b.attached && (a.stored ==> b.stored) && b.ledger.committed == a.ledger.committed
  }

  lemma LiveFacts(a: Admission, now: Time)
    requires Inv(a, now) && a.attached
    ensures Live(a) && (a.ledger.committed == Never ==> !a.finalizing || a.quotaless)
    ensures (a.finalizeSent ==> a.finalizing) && (a.finalizing ==> !a.quotaless)
    ensures forall w | w in a.confirms && a.confirms[w].phase == Marked :: a.finalizing
    ensures forall w | w in a.sweeps :: false
  {
    hide Drains, Leases;
  }

  lemma LivePresign(a: Admission, now: Time, e: PresignEvent)
    requires Live(a)
    ensures StillLive(a, NextPresign(a, now, e))
  {
  }

  lemma LiveOutside(a: Admission, now: Time, e: OutsideEvent)
    requires Live(a) && (a.finalizeSent ==> !a.quotaless)
    ensures StillLive(a, NextOutside(a, now, e))
  {
  }

  lemma LiveConfirm(a: Admission, now: Time, w: Worker, e: ConfirmEvent)
    requires Live(a) && (w in a.confirms && a.confirms[w].phase == Marked ==> !a.quotaless)
    ensures StillLive(a, NextConfirm(a, now, w, e))
  {
  }

  lemma LiveSweep(a: Admission, now: Time, w: Worker, e: SweepEvent)
    requires Live(a) && w !in a.sweeps
    ensures StillLive(a, NextSweep(a, now, w, e))
  {
  }

  lemma LiveStage(a: Admission, now: Time, e: StageEvent)
    requires Live(a)
    ensures var b := NextStage(a, now, e);
            && (a.stored ==> b.stored) && b.ledger == a.ledger
            && (!b.attached ==> e == RemoveAttachment && b.intent.Some?)
  {
  }

  lemma LiveDrain(a: Admission, now: Time, w: Worker, e: DrainEvent)
    requires Live(a) && w !in a.drains
    ensures StillLive(a, NextDrain(a, now, w, e))
  {
  }
}
