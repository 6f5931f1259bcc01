/**
 * Runs that show that the conditions of the safety theorems cannot be dropped, and that uploads and their cleanup go
 * through when nothing fails.
 */
module AttachmentLimits {
  import opened Wrappers
  import opened AttachmentProtocol
  import opened AttachmentInvariant
  import opened AttachmentSteps
  import opened AttachmentSafety
  import opened AttachmentDrain
  import opened AttachmentLog

  ghost predicate Reaches(now: Time, a: Admission, k: Key) {
    exists actions: seq<Action> :: Run(START, actions).now == now && Run(START, actions).At(k) == a
  }

  lemma RunSnoc(actions: seq<Action>, action: Action)
    ensures Run(START, actions + [action]) == Act(Run(START, actions), action)
  {
    assert (actions + [action])[..|actions|] == actions;
  }

  lemma ReachStart(k: Key)
    ensures Reaches(0, FRESH, k)
  {
    assert Run(START, []).now == 0 && Run(START, []).At(k) == FRESH;
  }

  lemma ReachTick(now: Time, a: Admission, k: Key, seconds: nat)
    requires Reaches(now, a, k)
    ensures Reaches(now + seconds, a, k)
  {
    var actions :| Run(START, actions).now == now && Run(START, actions).At(k) == a;
    RunSnoc(actions, Tick(seconds));
    assert Run(START, actions + [Tick(seconds)]).At(k) == a;
  }

  lemma ReachDo(now: Time, a: Admission, k: Key, e: Event)
    requires Reaches(now, a, k)
    ensures Reaches(now, Next(a, now, e), k)
  {
    hide Next;
    var actions :| Run(START, actions).now == now && Run(START, actions).At(k) == a;
    RunSnoc(actions, Do(k, e));
    assert Run(START, actions + [Do(k, e)]).At(k) == Next(a, now, e);
  }

  // ---------------------------------------------------------------------
  // Orphaned objects
  // ---------------------------------------------------------------------

  /** By how much the URL outlasts the time at which the cleanup takes it for expired. */
  function Slack(a: Admission): int {
    a.urlExpires - V(a).Cutoff()
  }

  /** Some run leaves an object behind that nothing refers to. */
  ghost predicate OrphanPossible(lifetime: nat, removed: bool, slack: int) {
    exists now: Time, a: Admission, k: Key ::
      Reaches(now, a, k) && Over(a) && a.stored && a.terms.lifetime == lifetime && a.removed == removed
          && Slack(a) == slack
  }

  /** An upload without quota whose URL was signed at `signed`, some time after it was admitted. */
  function Issued(lifetime: nat, signed: Time): Admission {
    FRESH.(terms := Terms(true, true, false, lifetime, lifetime),
           pending := Some(Pending(NotRequired, false, true, lifetime, None, None)),
           store := Store(signed + lifetime, true, false),
           presign := Done)
  }

  lemma ReachIssued(lifetime: nat, signed: Time, k: Key)
    ensures Reaches(signed, Issued(lifetime, signed), k)
  {
    hide Reaches;
    ReachStart(k);
    ReachDo(0, FRESH, k, OfPresign(Create(0, lifetime, false, false)));
    var a := DoCreate(FRESH, 0, 0, lifetime, false, false);
    ReachTick(0, a, k, signed);
    ReachDo(signed, a, k, OfPresign(PresignSign));
    ReachDo(signed, DoPresignSign(a, signed), k, OfPresign(PresignIssue));
    assert DoPresignIssue(DoPresignSign(a, signed)) == Issued(lifetime, signed);
  }

  /** An intent without quota is drained, and the object is put again while the URL still works. */
  lemma DrainedThenPut(now: Time, a: Admission, k: Key) returns (b: Admission)
    requires Reaches(now, a, k) && a.created && a.pending.None? && !a.attached && a.disclosed && now < a.urlExpires
    requires 1 !in a.tokens && Claimable(a, now, false)
    requires a.intent.value.retainUntil.Some? ==> a.intent.value.retainUntil.value <= now
    ensures Reaches(now, b, k) && Over(b) && b.stored && b.terms == a.terms && b.removed == a.removed
            && Slack(b) == Slack(a)
  {
    hide Reaches;
    var claimed := DoDrainClaim(a, now, 1, false);
    ReachDo(now, a, k, OfDrain(1, DrainClaim(false)));
    var deleted := DoDrainDelete(claimed, 1, Success);
    ReachDo(now, claimed, k, OfDrain(1, DrainDelete(Success)));
    assert MayAcknowledge(deleted, 1) && ClaimedBy(deleted, 1);
    var retired := DoDrainAcknowledge(deleted, 1);
    ReachDo(now, deleted, k, OfDrain(1, DrainAcknowledge));
    b := DoPut(retired, now);
    ReachDo(now, retired, k, OfOutside(Put));
  }

  lemma LateUrlOrphans(lifetime: nat, slack: nat)
    requires lifetime > 0 && slack > 0
    ensures OrphanPossible(lifetime, false, slack)
  {
    hide Reaches;
    var k: Key := 0;
    var now: Time := if slack < lifetime then lifetime else slack;
    var a := Issued(lifetime, slack);
    ReachIssued(lifetime, slack, k);
    ReachTick(slack, a, k, now - slack);
    var claimed := DoSweepClaim(a, now, 0);
    ReachDo(now, a, k, OfSweep(0, SweepClaim));
    ReachDo(now, claimed, k, OfSweep(0, SweepStage));
    var staged := DoSweepStage(claimed, 0);
    assert staged.intent == Some(Intent(0, PendingUpload, NoRelease, false, now, Some(lifetime), None, None, 0));
    var b := DrainedThenPut(now, staged, k);
  }

  lemma EarlyRemovalOrphans(lifetime: nat, slack: nat)
    requires 0 < slack <= lifetime
    ensures OrphanPossible(lifetime, true, slack)
  {
    hide Reaches;
    var k: Key := 0;
    var now: Time := lifetime - slack;
    var a := Issued(lifetime, 0);
    ReachIssued(lifetime, 0, k);
    ReachDo(0, a, k, OfConfirm(0, ConfirmClaim));
    var claimed := DoConfirmClaim(a, 0, 0);
    ReachDo(0, claimed, k, OfConfirm(0, ConfirmInsert));
    var attached := DoConfirmInsert(claimed, 0, 0);
    assert attached.attached;
    ReachTick(0, attached, k, now);
    ReachDo(now, attached, k, OfStage(RemoveAttachment));
    var removed := DoRemoveAttachment(attached, now);
    assert removed.intent == Some(Intent(0, Attachment, NoRelease, false, now, None, None, None, 0));
    var b := DrainedThenPut(now, removed, k);
  }

  /**
   * An object can outlive its intent exactly when the URL outlasts the time the cleanup goes by:
   * the time the admission expires, or the time the attachment was removed.
   */
  lemma OrphanExactlyWhenUrlLate(lifetime: nat, removed: bool, slack: int)
    requires lifetime > 0 && (removed ==> slack <= lifetime)
    ensures OrphanPossible(lifetime, removed, slack) <==> slack > 0
  {
    if slack > 0 {
      if removed {
        EarlyRemovalOrphans(lifetime, slack);
      } else {
        LateUrlOrphans(lifetime, slack);
      }
    } else if OrphanPossible(lifetime, removed, slack) {
      var now: Time, a: Admission, k: Key :|
        && Reaches(now, a, k) && Over(a) && a.stored && a.terms.lifetime == lifetime && a.removed == removed
        && Slack(a) == slack;
      var actions :| Run(START, actions).now == now && Run(START, actions).At(k) == a;
      NoObjectOutlivesItsIntent(actions, k);
    }
  }

  // ---------------------------------------------------------------------
  // Rejected quota calls
  // ---------------------------------------------------------------------

  /**
   * When the only retirement follows a terminal rejection, the intent is gone although the reservation
   * may still be held.
   */
  lemma RejectionKeepsReservation(k: Key, lifetime: nat)
    ensures exists now: Time, a: Admission ::
              Reaches(now, a, k) && Over(a) && a.retired && !a.settled && a.ledger.reservation == Held
  {
    hide Reaches;
    var now := lifetime;
    var staged := StagedReservation(k, lifetime);
    var deleted := DeletedReservation(now, staged, k);
    var rejected := DoDrainReleaseReservation(deleted, 1, Terminal(false));
    ReachDo(now, deleted, k, OfDrain(1, DrainReleaseReservation(Terminal(false))));
    ReachDo(now, rejected, k, OfDrain(1, DrainAcknowledge));
    assert MayAcknowledge(rejected, 1) && ClaimedBy(rejected, 1);
    var over := DoDrainAcknowledge(rejected, 1);
    assert Over(over) && over.retired && !over.settled && over.ledger.reservation == Held;
  }

  /** The object of a reserved upload has been deleted by worker 1, who is on the last pass. */
  lemma DeletedReservation(now: Time, a: Admission, k: Key) returns (deleted: Admission)
    requires Reaches(now, a, k) && 1 !in a.tokens && Claimable(a, now, true)
    requires a.intent.value.kind == OfReservation && a.intent.value.reservationId
    requires a.intent.value.retainUntil == Some(now)
    ensures Reaches(now, deleted, k)
    ensures Releasing(deleted, 1, OfReservation, ObjectDeleted) && deleted.drains[1].reservationId
    ensures ClaimedBy(deleted, 1)
    ensures deleted.terms == a.terms && deleted.pending == a.pending && deleted.attached == a.attached
    ensures deleted.ledger == a.ledger && deleted.history == a.history && !deleted.stored
  {
    hide Reaches;
    var claimed := DoDrainClaim(a, now, 1, true);
    ReachDo(now, a, k, OfDrain(1, DrainClaim(true)));
    deleted := DoDrainDelete(claimed, 1, Success);
    ReachDo(now, claimed, k, OfDrain(1, DrainDelete(Success)));
  }

  lemma StagedReservation(k: Key, lifetime: nat) returns (staged: Admission)
    ensures Reaches(lifetime, staged, k)
    ensures staged.created && staged.pending.None? && !staged.attached && staged.ledger.reservation == Held
    ensures staged.tokens == {0} && staged.drains == map[] && !staged.settled
    ensures staged.intent
         == Some(Intent(0, PendingUpload, OfReservation, true, lifetime, Some(lifetime), None, None, 0))
  {
    hide Reaches;
    var a := Reserving(k, lifetime);
    var b := DoSweepClaim(a, lifetime, 0);
    ReachDo(lifetime, a, k, OfSweep(0, SweepClaim));
    ReachDo(lifetime, b, k, OfSweep(0, SweepStage));
    staged := DoSweepStage(b, 0);
  }

  /** An admission with a reservation whose URL has just expired. */
  lemma Reserving(k: Key, lifetime: nat) returns (a: Admission)
    ensures Reaches(lifetime, a, k)
    ensures a == FRESH.(terms := Terms(true, false, true, lifetime, lifetime),
                        pending := Some(Pending(Reserved, true, true, lifetime, None, None)),
                        store := Store(lifetime, true, false),
                        ledger := Ledger(Held, Never, false),
                        presign := Done,
                        sent := Sent(true, false, false))
  {
    hide Reaches;
    ReachStart(k);
    ReachDo(0, FRESH, k, OfPresign(Create(0, lifetime, true, true)));
    var b := DoCreate(FRESH, 0, 0, lifetime, true, true);
    ReachDo(0, b, k, OfPresign(PresignReserve(Success)));
    var c := DoPresignReserve(b, Success);
    ReachDo(0, c, k, OfPresign(PresignRecord));
    var d := DoPresignRecord(c);
    ReachDo(0, d, k, OfPresign(PresignSign));
    var e := DoPresignSign(d, 0);
    ReachDo(0, e, k, OfPresign(PresignIssue));
    a := DoPresignIssue(e);
    ReachTick(0, a, k, lifetime);
  }

  // ---------------------------------------------------------------------
  // When nothing fails
  // ---------------------------------------------------------------------

  /** The upload has been confirmed: only the attachment is left, and with a quota its usage is committed. */
  predicate Uploaded(a: Admission, quota: bool) {
    && a.attached && a.stored && a.pending.None? && a.intent.None?
    && a.ledger == if quota then Ledger(Released, Held, false) else Ledger(Never, Never, false)
  }

  /** An admission whose URL has been issued, at once. */
  lemma Presigned(k: Key, lifetime: nat, quota: bool) returns (a: Admission)
    requires lifetime > 0
    ensures Reaches(0, a, k)
    ensures a == FRESH.(terms := Terms(true, !quota, true, lifetime, lifetime),
                        pending := Some(Pending(if quota then Reserved else NotRequired, quota, true, lifetime, None,
                                                None)),
                        store := Store(lifetime, true, false), presign := Done,
                        ledger := if quota then Ledger(Held, Never, false) else Ledger(Never, Never, false),
                        sent := Sent(quota, false, false))
  {
    hide Reaches;
    ReachStart(k);
    ReachDo(0, FRESH, k, OfPresign(Create(0, lifetime, quota, true)));
    var b := DoCreate(FRESH, 0, 0, lifetime, quota, true);
    if quota {
      ReachDo(0, b, k, OfPresign(PresignReserve(Success)));
      var c := DoPresignReserve(b, Success);
      ReachDo(0, c, k, OfPresign(PresignRecord));
      b := DoPresignRecord(c);
    }
    ReachDo(0, b, k, OfPresign(PresignSign));
    var d := DoPresignSign(b, 0);
    ReachDo(0, d, k, OfPresign(PresignIssue));
    a := DoPresignIssue(d);
  }

  /** With and without a quota there is a run in which an upload is confirmed. */
  lemma UploadSucceeds(k: Key, lifetime: nat, quota: bool) returns (a: Admission)
    requires lifetime > 0
    ensures Reaches(0, a, k) && Uploaded(a, quota)
    ensures a.created && a.workspace && a.tokens == {0} && a.drains == map[] && !a.removed
  {
    hide Reaches;
    var b := Presigned(k, lifetime, quota);
    ReachDo(0, b, k, OfOutside(Put));
    var c := DoPut(b, 0);
    ReachDo(0, c, k, OfConfirm(0, ConfirmClaim));
    var d := DoConfirmClaim(c, 0, 0);
    if quota {
      ReachDo(0, d, k, OfConfirm(0, ConfirmMark));
      var e := DoConfirmMark(d, 0);
      ReachDo(0, e, k, OfConfirm(0, ConfirmFinalize(Success)));
      var f := DoConfirmFinalize(e, 0, Success);
      ReachDo(0, f, k, OfConfirm(0, ConfirmRecord));
      d := DoConfirmRecord(f, 0);
    }
    ReachDo(0, d, k, OfConfirm(0, ConfirmInsert));
    a := DoConfirmInsert(d, 0, 0);
  }

  /** Nothing is left: no row, no object, and no quota. */
  predicate AllGone(a: Admission) {
    Over(a) && !a.stored && a.retired && a.settled && HoldsNothing(a.ledger)
  }

  /** The object of a removed attachment has been deleted by worker 1. */
  lemma DeletedUsage(a: Admission, k: Key) returns (deleted: Admission)
    requires Reaches(0, a, k) && a.tokens == {0} && a.pending.None? && a.drains == map[]
    requires 0 < a.intents
    requires a.intent == Some(Intent(a.intents - 1, Attachment, OfCommitted, false, 0, None, None, None, 0))
    ensures Reaches(0, deleted, k) && Releasing(deleted, 1, OfCommitted, ObjectDeleted) && ClaimedBy(deleted, 1)
    ensures deleted.terms == a.terms && deleted.pending == a.pending && deleted.attached == a.attached
    ensures deleted.ledger == a.ledger && deleted.history == a.history && !deleted.stored
  {
    hide Reaches;
    ReachDo(0, a, k, OfDrain(1, DrainClaim(true)));
    var claimed := DoDrainClaim(a, 0, 1, true);
    ReachDo(0, claimed, k, OfDrain(1, DrainDelete(Success)));
    deleted := DoDrainDelete(claimed, 1, Success);
  }

  /** After its removal, the object and the usage of an attachment are gone at the end of some run. */
  lemma RemovalCleansUp(k: Key, lifetime: nat)
    requires lifetime > 0
    ensures exists a: Admission :: Reaches(0, a, k) && a.removed && AllGone(a)
  {
    hide Reaches;
    var b := UploadSucceeds(k, lifetime, true);
    ReachDo(0, b, k, OfStage(RemoveAttachment));
    var c := DoRemoveAttachment(b, 0);
    var e := DeletedUsage(c, k);
    ReachDo(0, e, k, OfDrain(1, DrainReleaseCommitted(Success)));
    var f := DoDrainReleaseCommitted(e, 1, Success);
    ReachDo(0, f, k, OfDrain(1, DrainAcknowledge));
    var g := DoDrainAcknowledge(f, 1);
    assert AllGone(g) && g.removed;
  }

  /** An upload that nobody confirms is swept when it expires, and its object and reservation are gone in the end. */
  lemma SweepCleansUp(k: Key, lifetime: nat)
    requires lifetime > 0
    ensures exists a: Admission :: Reaches(lifetime, a, k) && a.swept && AllGone(a)
  {
    hide Reaches;
    var now: Time := lifetime;
    var b := Presigned(k, lifetime, true);
    ReachDo(0, b, k, OfOutside(Put));
    var c := DoPut(b, 0);
    ReachTick(0, c, k, lifetime);
    ReachDo(now, c, k, OfSweep(0, SweepClaim));
    var d := DoSweepClaim(c, now, 0);
    ReachDo(now, d, k, OfSweep(0, SweepStage));
    var e := DoSweepStage(d, 0);
    var f := DeletedReservation(now, e, k);
    ReachDo(now, f, k, OfDrain(1, DrainReleaseReservation(Success)));
    var g := DoDrainReleaseReservation(f, 1, Success);
    ReachDo(now, g, k, OfDrain(1, DrainAcknowledge));
    var h := DoDrainAcknowledge(g, 1);
    assert AllGone(h) && h.swept;
  }

  // ---------------------------------------------------------------------
  // A page that is counted twice
  // ---------------------------------------------------------------------

  /** The same event for two uploads. */
  function Both(e: Event): seq<Action> {
    [Do(0, e), Do(1, e)]
  }

  /** Two uploads get their URLs and are abandoned at once, so both intents are retained for the URLs' lifetime. */
  function Twins(): seq<Action> {
    Both(OfPresign(Create(0, 900, false, false))) + Both(OfPresign(PresignSign)) + Both(OfPresign(PresignIssue))
    + Both(OfStage(TokenAbandon))
  }

  ghost predicate AreTwins(world: World, a: Admission) {
    world.now == 0 && world.At(0) == a && world.At(1) == a && forall k: Key | k > 1 :: world.At(k) == FRESH
  }

  lemma BothAct(world: World, a: Admission, e: Event)
    requires AreTwins(world, a)
    ensures AreTwins(Run(world, Both(e)), Next(a, 0, e))
  {
    hide Next;
    assert Both(e) == [Do(0, e), Do(1, e)] && |Both(e)| == 2;
    assert [Do(0, e)][..0] == [] && Both(e)[..1] == [Do(0, e)];
    var once := Run(world, [Do(0, e)]);
    assert once == Act(Run(world, []), Do(0, e)) == Act(world, Do(0, e));
    assert Run(world, Both(e)) == Act(once, Do(1, e));
    assert forall k: Key | k > 1 :: Act(once, Do(1, e)).At(k) == world.At(k);
  }

  /** The intent of an upload without quota that was abandoned at time 0. */
  function Retained(): Intent {
    Intent(0, PendingUpload, NoRelease, false, 0, Some(900), None, None, 0)
  }

  lemma TwinsAreRetained() returns (a: Admission)
    ensures AreTwins(Run(START, Twins()), a)
    ensures a.pending.None? && a.intent == Some(Retained())
  {
    hide Run;
    var create, sign, issue, abandon := OfPresign(Create(0, 900, false, false)), OfPresign(PresignSign),
        OfPresign(PresignIssue), OfStage(TokenAbandon);
    BothAct(START, FRESH, create);
    var created := DoCreate(FRESH, 0, 0, 900, false, false);
    var world := Run(START, Both(create));
    BothAct(world, created, sign);
    var signed := DoPresignSign(created, 0);
    BothAct(Run(world, Both(sign)), signed, issue);
    var issued := DoPresignIssue(signed);
    BothAct(Run(Run(world, Both(sign)), Both(issue)), issued, abandon);
    a := DoTokenAbandon(issued, 0);
    RunConcat(START, Both(create), Both(sign));
    RunConcat(START, Both(create) + Both(sign), Both(issue));
    RunConcat(START, Both(create) + Both(sign) + Both(issue), Both(abandon));
  }

  /** The first deferral succeeds, the second fails. */
  function SecondDeferralFails(): Environment {
    Environment((n: nat) => if n == 0 then Twins() else [], (n: nat) => Success, (n: nat) => n == 2, (n: nat) => {})
  }

  lemma HoldsTwo(page: seq<Key>)
    ensures 0 in page && 1 in page ==> |page| >= 2
  {
    if i, j :| 0 <= i < |page| && 0 <= j < |page| && page[i] == 0 && page[j] == 1 {
      assert i != j;
    }
  }

  lemma TwinsPage(begun: World, a: Admission, page: seq<Key>, free: Selection)
    requires AreTwins(begun, a) && a.pending.None? && a.intent == Some(Retained())
    requires free.quotaAvailable && forall k: Key :: free.admits(k)
    requires PageOf(begun, page, 2, free) && (|page| < 2 ==> forall k: Key | Due(begun, k, free) :: k in page)
    ensures |page| == 2 && EarlyRows(begun, page) == [true, true]
  {
    assert Due(begun, 0, free) && Due(begun, 1, free);
    HoldsTwo(page);
    forall i | 0 <= i < 2 ensures EarlyRows(begun, page)[i] {
      assert page[i] in page && Due(begun, page[i], free);
    }
  }

  /** What the drain of the two rows meets. */
  lemma SecondFails()
    ensures var env := SecondDeferralFails();
            && Alone(env, 1) && Unseen(START, 1) && env.others(0) == Twins() && !env.down(0)
            && env.locked(0) == {} && RepliesOk(env.reply, 1, 3) && FirstFailure(env, [true, true], 1, 1)
  {
  }

  /**
   * A drain of two rows that reports three outcomes: one row is deferred, the transaction of the other
   * fails, and the page is counted as failed as a whole.
   */
  method CountedTwice() returns (c: StorageCleanup, totals: Totals)
    ensures c.Valid() && totals == Totals(2, 0, 1, 2) && !totals.Balanced()
  {
    hide *;
    var env := SecondDeferralFails();
    SecondFails();
    c := new StorageCleanup(env);
    ghost var a := TwinsAreRetained();
    var pick := Selection(true, (k: Key) => true, (k: Key) => 0);
    ghost var left, page, log;
    var rejected;
    totals, rejected, left, page, log := c.DrainPage(1, 2, pick);
    AdmitsAll(pick, {});
    TwinsPage(Run(START, Twins()), a, page, pick.Without({}));
    assert FirstFailure(env, EarlyRows(Run(START, Twins()), page), 0 + 1, 1);
    TotalsOfTwins(totals);
  }

  lemma AdmitsAll(pick: Selection, locked: set<Key>)
    requires locked == {} && pick.quotaAvailable && forall k: Key :: pick.admits(k)
    ensures pick.Without(locked).quotaAvailable && forall k: Key :: pick.Without(locked).admits(k)
  {
  }

  lemma TotalsOfTwins(totals: Totals)
    requires totals == Totals(2, 0, 1, 2)
    ensures !totals.Balanced()
  {
  }
}
