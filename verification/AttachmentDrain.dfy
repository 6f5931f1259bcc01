/**
 * The drain of the cleanup outbox, page after page, while other workers and clients go on with
 * their own work between its calls.
 */
module AttachmentDrain {
  import opened Wrappers
  import opened AttachmentProtocol
  import opened AttachmentInvariant
  import opened AttachmentSteps
  import opened AttachmentSafety
  import opened AttachmentLog

  /**
   * What happens around the `n`-th call: what others do meanwhile, how a call outside of the database ends,
   * and which rows other transactions hold locked; and whether the `n`-th transaction fails.
   */
  datatype Environment = Environment(
    others: nat -> seq<Action>,
    reply: nat -> Reply,
    down: nat -> bool,
    locked: nat -> set<Key>)

  // ---------------------------------------------------------------------
  // Whose actions they are
  // ---------------------------------------------------------------------

  ghost predicate Alone(env: Environment, w: Worker) {
    forall n: nat :: Foreign(env.others(n), w)
  }

  /** What came after `before` was done by `w` or by others, but not by workers that run alone. */
  ghost predicate OnlyBy(env: Environment, w: Worker, before: seq<Action>, after: seq<Action>) {
    before <= after && forall v: Worker | v != w && Alone(env, v) :: Own(after, v) == Own(before, v)
  }

  lemma OwnOne(env: Environment, w: Worker, actions: seq<Action>, action: Action)
    requires Uses(action, w)
    ensures Own(actions + [action], w) == Own(actions, w) + [action]
    ensures OnlyBy(env, w, actions, actions + [action])
  {
    assert (actions + [action])[..|actions|] == actions;
  }

  lemma OwnOthers(env: Environment, w: Worker, actions: seq<Action>, others: seq<Action>)
    requires forall v: Worker | Alone(env, v) :: Foreign(others, v)
    ensures forall v: Worker | Alone(env, v) :: Own(actions + others, v) == Own(actions, v)
    ensures OnlyBy(env, w, actions, actions + others)
  {
    forall v: Worker | Alone(env, v) ensures Own(actions + others, v) == Own(actions, v) {
      OwnConcat(actions, others, v);
      OwnForeign(others, v);
    }
  }

  /** A worker that runs alone has done nothing since. */
  lemma ForeignSince(env: Environment, w: Worker, before: seq<Action>, after: seq<Action>, v: Worker)
    requires OnlyBy(env, w, before, after) && v != w && Alone(env, v)
    ensures Foreign(after[|before|..], v)
    ensures Foreign(before, v) ==> Foreign(after, v)
  {
    assert before + after[|before|..] == after;
    OwnConcat(before, after[|before|..], v);
    OwnForeign(after[|before|..], v);
    OwnForeign(before, v);
    OwnForeign(after, v);
  }

  function CopyOf(world: World, w: Worker, k: Key): Option<Drain> {
    if w in world.At(k).drains then Some(world.At(k).drains[w]) else None
  }

  lemma ForeignStepKeepsCopy(a: Admission, now: Time, e: Event, w: Worker)
    requires !Uses(Do(0, e), w)
    ensures var b := Next(a, now, e);
            (w in b.drains <==> w in a.drains) && (w in a.drains ==> b.drains[w] == a.drains[w])
            && (w in b.tokens <==> w in a.tokens)
  {
    hide NextPresign, NextOutside, NextConfirm, NextSweep, NextStage, NextDrain;
    if e.OfDrain? {
      DrainOthers(a, now, e.w, e.d, w);
    } else {
      NonDrainFrame(a, now, e);
    }
    TokensKept(a, now, e, w);
  }

  lemma ConfirmTokens(a: Admission, now: Time, v: Worker, c: ConfirmEvent)
    ensures a.tokens <= NextConfirm(a, now, v, c).tokens <= a.tokens + {v}
  {
  }

  lemma SweepTokens(a: Admission, now: Time, v: Worker, s: SweepEvent)
    ensures a.tokens <= NextSweep(a, now, v, s).tokens <= a.tokens + {v}
  {
  }

  lemma DrainTokens(a: Admission, now: Time, v: Worker, d: DrainEvent)
    ensures a.tokens <= NextDrain(a, now, v, d).tokens <= a.tokens + {v}
  {
  }

  lemma PresignTokens(a: Admission, now: Time, e: PresignEvent)
    ensures NextPresign(a, now, e).tokens == a.tokens
  {
  }

  lemma OutsideTokens(a: Admission, now: Time, e: OutsideEvent)
    ensures NextOutside(a, now, e).tokens == a.tokens
  {
  }

  lemma StageTokens(a: Admission, now: Time, e: StageEvent)
    ensures NextStage(a, now, e).tokens == a.tokens
  {
  }

  lemma TokensKept(a: Admission, now: Time, e: Event, w: Worker)
    requires !Uses(Do(0, e), w)
    ensures w in Next(a, now, e).tokens <==> w in a.tokens
  {
    hide NextPresign, NextOutside, NextConfirm, NextSweep, NextStage, NextDrain;
    match e
    case OfConfirm(v, c) => ConfirmTokens(a, now, v, c);
    case OfSweep(v, s) => SweepTokens(a, now, v, s);
    case OfDrain(v, d) => DrainTokens(a, now, v, d);
    case OfPresign(p) => PresignTokens(a, now, p);
    case OfOutside(o) => OutsideTokens(a, now, o);
    case OfStage(t) => StageTokens(a, now, t);
  }

  lemma {:induction false} ForeignKeepsCopies(world: World, actions: seq<Action>, w: Worker, k: Key)
    requires Foreign(actions, w)
    ensures CopyOf(Run(world, actions), w, k) == CopyOf(world, w, k)
    ensures w in Run(world, actions).At(k).tokens <==> w in world.At(k).tokens
  {
    hide Next;
    if actions != [] {
      var most, last := actions[..|actions| - 1], actions[|actions| - 1];
      ForeignKeepsCopies(world, most, w, k);
      if last.Do? && last.key == k {
        ForeignStepKeepsCopy(Run(world, most).At(k), Run(world, most).now, last.event, w);
      }
    }
  }

  // ---------------------------------------------------------------------
  // Order of the claims
  // ---------------------------------------------------------------------

  /**
   * Which rows a drain takes: without a quota adapter only those without quota, and those its filters
   * admit. `createdAt` is when the rows were created.
   */
  datatype Selection = Selection(quotaAvailable: bool, admits: Key -> bool, createdAt: Key -> nat) {
    /** Locked rows are skipped. */
    function Without(locked: set<Key>): Selection {
      this.(admits := (k: Key) => admits(k) && k !in locked)
    }
  }

  /** The page is taken in the order of `not_before`, then of creation, then of the identifier. */
  predicate Before(world: World, pick: Selection, j: Key, k: Key) {
    world.At(j).intent.Some? && world.At(k).intent.Some? ==>
      var a, b := world.At(j).intent.value.notBefore, world.At(k).intent.value.notBefore;
      || a < b
      || (a == b && pick.createdAt(j) < pick.createdAt(k))
      || (a == b && pick.createdAt(j) == pick.createdAt(k) && j < k)
  }

  predicate Due(world: World, k: Key, pick: Selection) {
    Claimable(world.At(k), world.now, pick.quotaAvailable) && pick.admits(k)
  }

  /** The copy that a claim takes of a row. */
  function FetchedCopy(world: World, k: Key): Drain
    requires world.At(k).intent.Some?
  {
    var i := world.At(k).intent.value;
    Drain(i.id, i.kind, i.reservationId, i.retainUntil, world.now, Fetched)
  }

  predicate Distinct(rows: seq<Key>) {
    forall i, j | 0 <= i < j < |rows| :: rows[i] != rows[j]
  }

  /** Worker `w` has not been seen yet. */
  ghost predicate Unseen(world: World, w: Worker) {
    forall k: Key :: w !in world.At(k).tokens
  }

  /** Worker `w` holds copies of exactly these rows. */
  ghost predicate HoldsRows(world: World, w: Worker, rows: seq<Key>) {
    forall k: Key :: CopyOf(world, w, k).Some? <==> k in rows
  }

  /** The page is in order, and what is left out of it is later or did not fit. */
  ghost predicate PageOf(world: World, rows: seq<Key>, limit: nat, pick: Selection) {
    && Distinct(rows) && |rows| <= limit
    && (forall k | k in rows :: Due(world, k, pick))
    && (forall i, j | 0 <= i < j < |rows| :: Before(world, pick, rows[i], rows[j]))
    && (forall k: Key, i | 0 <= i < |rows| && Due(world, k, pick) && k !in rows :: Before(world, pick, rows[i], k))
  }

  lemma ClaimTakes(world: World, k: Key, w: Worker, pick: Selection)
    requires Due(world, k, pick) && w !in world.At(k).tokens
    ensures var after := Act(world, Do(k, OfDrain(w, DrainClaim(pick.quotaAvailable))));
            && after.now == world.now
            && (forall j: Key | j != k :: after.At(j) == world.At(j))
            && !Due(after, k, pick)
            && CopyOf(after, w, k) == Some(FetchedCopy(world, k))
  {
  }

  /** The rows that worker `w` has claimed of a page: the first that were due, fetched, and not due any more. */
  ghost predicate ClaimedRows(before: World, world: World, w: Worker, rows: seq<Key>, limit: nat, pick: Selection) {
    && PageOf(before, rows, limit, pick) && HoldsRows(world, w, rows) && world.now == before.now
    && (forall k | k in rows ::
          && before.At(k).intent.Some? && CopyOf(world, w, k) == Some(FetchedCopy(before, k))
          && !Due(world, k, pick))
    && forall k: Key | k !in rows :: world.At(k) == before.At(k)
  }

  lemma NothingClaimed(world: World, w: Worker, limit: nat, pick: Selection)
    requires HoldsRows(world, w, [])
    ensures ClaimedRows(world, world, w, [], limit, pick)
  {
    hide HoldsRows;
  }

  /** A row that is still due is not on the page, so the worker has not met it yet. */
  lemma UnclaimedIsUnseen(before: World, world: World, w: Worker, rows: seq<Key>, limit: nat, pick: Selection, k: Key)
    requires ClaimedRows(before, world, w, rows, limit, pick) && Unseen(before, w) && Due(world, k, pick)
    ensures k !in rows && w !in world.At(k).tokens
  {
  }

  /** The worker holds one more row. */
  lemma RowClaimed(before: World, was: World, w: Worker, rows: seq<Key>, limit: nat, pick: Selection, k: Key)
    requires ClaimedRows(before, was, w, rows, limit, pick) && |rows| < limit && k !in rows
    requires Due(was, k, pick) && w !in was.At(k).tokens
    requires forall j: Key | Due(was, j, pick) && j != k :: Before(was, pick, k, j)
    ensures var world := Act(was, Do(k, OfDrain(w, DrainClaim(pick.quotaAvailable))));
            ClaimedRows(before, world, w, rows + [k], limit, pick)
  {
    ClaimTakes(was, k, w, pick);
    PageExtends(before, was, rows, limit, pick, k);
    var world := Act(was, Do(k, OfDrain(w, DrainClaim(pick.quotaAvailable))));
    assert was.At(k) == before.At(k);
    hide Act, Before, PageOf;
    forall j: Key | j != k
      ensures CopyOf(world, w, j) == CopyOf(was, w, j) && (Due(world, j, pick) <==> Due(was, j, pick))
    {
      assert world.At(j) == was.At(j);
    }
  }

  /** The log of a worker that claims one more row. */
  lemma ClaimLogged(env: Environment, start: seq<Action>, trace: seq<Action>, w: Worker, rows: seq<Key>,
          d: DrainEvent, k: Key)
    requires Own(trace, w) == Own(start, w) + EachOf(rows, w, d) && OnlyBy(env, w, start, trace)
    ensures var more := trace + [Do(k, OfDrain(w, d))];
            Own(more, w) == Own(start, w) + EachOf(rows + [k], w, d) && OnlyBy(env, w, start, more)
  {
    assert (rows + [k])[..|rows|] == rows;
    OwnOne(env, w, trace, Do(k, OfDrain(w, d)));
  }

  lemma NothingLogged(env: Environment, trace: seq<Action>, w: Worker, d: DrainEvent)
    ensures Own(trace, w) == Own(trace, w) + EachOf([], w, d) && OnlyBy(env, w, trace, trace)
  {
  }

  lemma AllTaken(before: World, world: World, w: Worker, rows: seq<Key>, limit: nat, pick: Selection)
    requires ClaimedRows(before, world, w, rows, limit, pick)
    requires forall k: Key :: !Due(world, k, pick)
    ensures forall k: Key | Due(before, k, pick) :: k in rows
  {
    hide PageOf, HoldsRows;
    forall k: Key | Due(before, k, pick) ensures k in rows {
      assert !Due(world, k, pick);
    }
  }

  lemma ClaimedPage(before: World, world: World, w: Worker, rows: seq<Key>, limit: nat, pick: Selection)
    requires ClaimedRows(before, world, w, rows, limit, pick)
    ensures PageOf(before, rows, limit, pick) && |rows| <= limit
    ensures HoldsRows(world, w, rows) && world.now == before.now
    ensures forall k | k in rows :: before.At(k).intent.Some? && CopyOf(world, w, k) == Some(FetchedCopy(before, k))
  {
  }

  lemma PageExtends(before: World, world: World, rows: seq<Key>, limit: nat, pick: Selection, k: Key)
    requires PageOf(before, rows, limit, pick) && |rows| < limit && world.now == before.now
    requires forall j: Key | j !in rows :: world.At(j) == before.At(j)
    requires Due(world, k, pick) && k !in rows
    requires forall j: Key | Due(world, j, pick) && j != k :: Before(world, pick, k, j)
    ensures PageOf(before, rows + [k], limit, pick)
  {
    var page := rows + [k];
    assert Due(before, k, pick);
    forall j: Key, i | 0 <= i < |page| && Due(before, j, pick) && j !in page ensures Before(before, pick, page[i], j) {
      if i == |rows| {
        assert j !in rows && Due(world, j, pick) && Before(world, pick, k, j);
      }
    }
  }

  lemma ForeignUnseen(trace: seq<Action>, w: Worker)
    requires Foreign(trace, w)
    ensures Unseen(Run(START, trace), w)
  {
    hide Run;
    forall k: Key ensures w !in Run(START, trace).At(k).tokens {
      ForeignKeepsCopies(START, trace, w, k);
    }
  }

  lemma NothingHeld(trace: seq<Action>, w: Worker)
    requires Unseen(Run(START, trace), w)
    ensures HoldsRows(Run(START, trace), w, [])
  {
    hide Inv, Run;
    forall k: Key ensures CopyOf(Run(START, trace), w, k).None? {
      Reachable(trace, k);
      if CopyOf(Run(START, trace), w, k).Some? {
        DrainAt(Run(START, trace).At(k), Run(START, trace).now, w);
      }
    }
  }

  ghost predicate SameCopies(before: World, after: World, w: Worker) {
    forall k: Key :: CopyOf(after, w, k) == CopyOf(before, w, k)
  }

  /** Only the copy of row `k` may have changed, to `copy`. */
  ghost predicate CopySet(before: World, after: World, w: Worker, k: Key, copy: Option<Drain>) {
    CopyOf(after, w, k) == copy && forall j: Key | j != k :: CopyOf(after, w, j) == CopyOf(before, w, j)
  }

  lemma DeleteSets(world: World, k: Key, w: Worker, reply: Reply)
    requires CopyOf(world, w, k).Some? && CopyOf(world, w, k).value.phase == Fetched
    ensures CopySet(world, Act(world, Do(k, OfDrain(w, DrainDelete(reply)))), w, k,
                    Some(CopyOf(world, w, k).value.(phase := if reply.Success? then ObjectDeleted else Failed)))
  {
  }

  // ---------------------------------------------------------------------
  // The calls to the quota adapter
  // ---------------------------------------------------------------------

  predicate MayCall(c: Drain, call: QuotaCall) {
    && c.FinalPass()
    && match call
       case Reserving => c.phase == ObjectDeleted && c.kind == OfReservePending
       case Finalizing => c.phase == ObjectDeleted && c.kind == OfFinalizePending && c.reservationId
       case ReleasingReservation =>
         || (c.phase == ReserveDone && c.kind == OfReservePending)
         || (c.phase == ObjectDeleted && c.kind == OfReservation && c.reservationId)
       case ReleasingCommitted =>
         || (c.phase == FinalizeDone && c.kind == OfFinalizePending)
         || (c.phase == ObjectDeleted && c.kind == OfCommitted)
  }

  lemma CallSets(world: World, k: Key, w: Worker, call: QuotaCall, reply: Reply)
    requires CopyOf(world, w, k).Some? && MayCall(CopyOf(world, w, k).value, call)
    requires call == Reserving ==> ReserveReplyOk(world.At(k).ledger, reply)
    ensures CopySet(world, Act(world, Do(k, OfDrain(w, EventOf(call, reply)))), w, k,
                    Some(CopyOf(world, w, k).value.(phase := AfterCall(reply, DoneOf(call)))))
  {
  }

  predicate ReadyToRelease(copy: Option<Drain>) {
    copy.Some? && copy.value.phase == ObjectDeleted && copy.value.FinalPass()
  }

  /** The row may be acknowledged: see `MayAcknowledge`. */
  predicate AckReady(copy: Option<Drain>) {
    && copy.Some?
    && (copy.value.phase == Settled || copy.value.phase == QuotaRejected
        || (copy.value.phase == ObjectDeleted && copy.value.FinalPass() && copy.value.kind == NoRelease))
  }

  ghost predicate OthersKept(before: World, after: World, w: Worker, k: Key) {
    CopyOf(after, w, k).Some? && forall j: Key | j != k :: CopyOf(after, w, j) == CopyOf(before, w, j)
  }

  /** Which copies allow an event that gives the claim up. */
  predicate MayFinish(c: Drain, d: DrainEvent) {
    match d
    case DrainDefer => c.phase == ObjectDeleted && !c.FinalPass()
    case DrainAcknowledge => AckReady(Some(c))
    case DrainFail => true
    case DrainGiveBack => true
    case _ => false
  }

  lemma FinishSets(world: World, k: Key, w: Worker, d: DrainEvent)
    requires CopyOf(world, w, k).Some? && MayFinish(CopyOf(world, w, k).value, d)
    ensures CopySet(world, Act(world, Do(k, OfDrain(w, d))), w, k, None)
  {
  }

  ghost predicate NeverDown(env: Environment, lo: nat, hi: nat) {
    forall n: nat | lo <= n < hi :: !env.down(n)
  }

  /** Once more of them have been made, either the last one failed or an earlier one. */
  lemma NeverDownMore(env: Environment, lo: nat, hi: nat)
    requires lo <= hi
    ensures NeverDown(env, lo, hi + 1) <==> NeverDown(env, lo, hi) && !env.down(hi)
  {
  }

  /** The first `i` rows are on a pass before their last, and their transactions succeed. */
  ghost predicate AllDeferred(env: Environment, early: seq<bool>, write: nat, i: nat) {
    i <= |early| && forall j | 0 <= j < i :: early[j] && !env.down(write + j)
  }

  /** Row `i` is the first whose deferral fails; all rows up to it are on a pass before their last. */
  ghost predicate FirstFailure(env: Environment, early: seq<bool>, write: nat, i: nat) {
    AllDeferred(env, early, write, i) && i < |early| && early[i] && env.down(write + i)
  }

  predicate Early(copy: Option<Drain>) {
    copy.Some? && !copy.value.FinalPass()
  }

  /** While only deferrals have happened, transactions and totals count the rows. */
  ghost predicate Tracks(env: Environment, early: seq<bool>, first: nat, i: nat, writes: nat, totals: Totals) {
    && (AllDeferred(env, early, first, i) ==> writes == first + i && totals == Totals(|early|, 0, i, 0))
    && forall j: nat | FirstFailure(env, early, first, j) :: i <= j
  }

  lemma TracksMore(env: Environment, early: seq<bool>, first: nat, i: nat, before: nat, after: nat, totals: Totals,
          result: RowResult)
    requires i < |early| && Tracks(env, early, first, i, before, totals)
    requires early[i] ==> after == before + 1
                          && result == if env.down(before) then BrokenRow(false) else DeferredRow
    ensures !result.BrokenRow? ==> Tracks(env, early, first, i + 1, after, Counting(totals, result))
    ensures result.BrokenRow? ==> forall j: nat | FirstFailure(env, early, first, j) ::
              Counting(totals, result) == Totals(|early|, 0, j, |early|)
  {
    forall j: nat | FirstFailure(env, early, first, j)
      ensures AllDeferred(env, early, first, i) && early[i] && (env.down(before) <==> i == j)
    {
      assert early[i] && !(i < j && env.down(first + i));
    }
    if AllDeferred(env, early, first, i + 1) {
      assert AllDeferred(env, early, first, i) && early[i] && !env.down(first + i);
    }
  }

  lemma TracksAll(env: Environment, early: seq<bool>, first: nat, writes: nat, totals: Totals)
    requires Tracks(env, early, first, |early|, writes, totals)
    ensures forall j: nat :: !FirstFailure(env, early, first, j)
  {
  }

  /** Which rows that a worker holds are on a pass before their last. */
  function EarlyCopies(world: World, w: Worker, rows: seq<Key>): seq<bool> {
    seq(|rows|, (i: nat) requires i < |rows| => Early(CopyOf(world, w, rows[i])))
  }

  /** Which rows of the table have to be retained longer. */
  function EarlyRows(world: World, rows: seq<Key>): seq<bool> {
    seq(|rows|, (i: nat) requires i < |rows| =>
      world.At(rows[i]).intent.Some? && Early(Some(FetchedCopy(world, rows[i]))))
  }

  lemma EarlyPage(begun: World, claimed: World, world: World, w: Worker, rows: seq<Key>)
    requires HoldsRows(claimed, w, rows) && HoldsRows(world, w, rows)
    requires forall k | k in rows :: begun.At(k).intent.Some? && CopyOf(claimed, w, k) == Some(FetchedCopy(begun, k))
    requires forall k | k in rows ::
               CopyOf(world, w, k).value == CopyOf(claimed, w, k).value.(phase := CopyOf(world, w, k).value.phase)
    ensures EarlyCopies(world, w, rows) == EarlyRows(begun, rows)
  {
    hide CopyOf, FetchedCopy;
    forall i | 0 <= i < |rows| ensures EarlyCopies(world, w, rows)[i] == EarlyRows(begun, rows)[i] {
      assert rows[i] in rows;
    }
  }

  function PageCopies(world: World, w: Worker, rows: seq<Key>): seq<Drain>
    requires forall k | k in rows :: CopyOf(world, w, k).Some?
  {
    seq(|rows|, (i: nat) requires i < |rows| => assert rows[i] in rows; CopyOf(world, w, rows[i]).value)
  }

  lemma UnseenStays(world: World, w: Worker, actions: seq<Action>)
    requires Unseen(world, w) && Foreign(actions, w)
    ensures Unseen(Run(world, actions), w)
  {
    hide Run;
    forall k: Key ensures w !in Run(world, actions).At(k).tokens {
      ForeignKeepsCopies(world, actions, w, k);
    }
  }

  lemma DropFirst(kept: seq<Key>, rest: seq<Key>)
    requires rest != [] && Distinct(kept + rest)
    ensures Distinct(kept + rest[1..])
    ensures forall k: Key :: k in kept + rest[1..] <==> k in kept + rest && k != rest[0]
  {
    var all, less := kept + rest, kept + rest[1..];
    assert all[|kept|] == rest[0];
    assert forall i | 0 <= i < |kept| :: less[i] == all[i];
    assert forall i | |kept| <= i < |less| :: less[i] == all[i + 1];
    forall k: Key | k in all && k != rest[0] ensures k in less {
      var i :| 0 <= i < |all| && all[i] == k;
      assert less[if i < |kept| then i else i - 1] == k;
    }
  }

  /** What the worker holds after one row of the page. */
  lemma RowDone(before: World, after: World, w: Worker, settled: seq<Key>, rest: seq<Key>, result: RowResult)
    requires rest != [] && Distinct(settled + rest) && HoldsRows(before, w, settled + rest)
    requires forall j: Key | j != rest[0] :: CopyOf(after, w, j) == CopyOf(before, w, j)
    requires CopyOf(after, w, rest[0]).None? <==> result == DeferredRow || result == FailedRow
    ensures var kept := if result == SettledRow then settled + [rest[0]] else settled;
            var left := if result.BrokenRow? then rest else rest[1..];
            Distinct(kept + left) && HoldsRows(after, w, kept + left)
  {
    assert rest[0] in settled + rest;
    if result == SettledRow {
      assert settled + [rest[0]] + rest[1..] == settled + rest;
    } else if !result.BrokenRow? {
      DropFirst(settled, rest);
    }
  }

  /** A page in the middle: some rows wait for the acknowledgement, the rest is still to be done. */
  ghost predicate Midway(world: World, w: Worker, settled: seq<Key>, rest: seq<Key>) {
    && Distinct(settled + rest) && HoldsRows(world, w, settled + rest)
    && (forall k | k in rest && CopyOf(world, w, k).Some? :: CopyOf(world, w, k).value.phase == ObjectDeleted)
    && (forall k | k in settled :: AckReady(CopyOf(world, w, k)))
  }

  /** The other rows of the page are other rows. */
  lemma OthersOfPage(world: World, w: Worker, settled: seq<Key>, rows: seq<Key>, i: nat)
    requires i < |rows| && Midway(world, w, settled, rows[i..])
    ensures forall j | i < j < |rows| :: rows[j] != rows[i]
  {
    var all := settled + rows[i..];
    forall j | i < j < |rows| ensures rows[j] != rows[i] {
      assert all[|settled|] == rows[i] && all[|settled| + j - i] == rows[j];
    }
  }

  lemma MidwayFirst(world: World, w: Worker, settled: seq<Key>, rest: seq<Key>)
    requires rest != [] && Midway(world, w, settled, rest)
    ensures CopyOf(world, w, rest[0]).Some? && CopyOf(world, w, rest[0]).value.phase == ObjectDeleted
  {
    assert (settled + rest)[|settled|] == rest[0];
  }

  lemma AllSettled(world: World, w: Worker, settled: seq<Key>, rest: seq<Key>)
    requires rest == [] && Midway(world, w, settled, rest)
    ensures Distinct(settled) && HoldsRows(world, w, settled)
    ensures forall k | k in settled :: AckReady(CopyOf(world, w, k))
  {
    assert settled + rest == settled;
  }

  lemma MidwayNext(before: World, after: World, w: Worker, settled: seq<Key>, rest: seq<Key>, result: RowResult)
    requires rest != [] && Midway(before, w, settled, rest)
    requires forall j: Key | j != rest[0] :: CopyOf(after, w, j) == CopyOf(before, w, j)
    requires CopyOf(after, w, rest[0]).None? <==> result == DeferredRow || result == FailedRow
    requires result == SettledRow ==> AckReady(CopyOf(after, w, rest[0]))
    ensures !result.BrokenRow? ==>
              Midway(after, w, if result == SettledRow then settled + [rest[0]] else settled, rest[1..])
    ensures result.BrokenRow? ==> Distinct(settled + rest) && HoldsRows(after, w, settled + rest)
  {
    RowDone(before, after, w, settled, rest, result);
    hide CopyOf, AckReady, HoldsRows;
    assert forall k | k in settled :: k != rest[0] by {
      forall k | k in settled ensures k != rest[0] {
        var i :| 0 <= i < |settled| && settled[i] == k;
        assert (settled + rest)[i] != (settled + rest)[|settled|];
      }
    }
    assert forall k | k in rest[1..] :: k != rest[0] by {
      forall k | k in rest[1..] ensures k != rest[0] {
        var i :| 0 <= i < |rest[1..]| && rest[1..][i] == k;
        assert (settled + rest)[|settled|] != (settled + rest)[|settled| + 1 + i];
      }
    }
  }

  lemma NoCalls(k: Key, w: Worker, calls: seq<QuotaCall>, own: seq<Action>)
    ensures own == own + Called(k, w, calls, [])
  {
  }

  lemma OneMoreCall(k: Key, w: Worker, calls: seq<QuotaCall>, replies: seq<Reply>, reply: Reply, own: seq<Action>)
    requires |replies| < |calls|
    ensures own + Called(k, w, calls, replies + [reply])
         == own + Called(k, w, calls, replies) + [Do(k, OfDrain(w, EventOf(calls[|replies|], reply)))]
  {
    assert (replies + [reply])[..|replies|] == replies;
  }

  /** The objects of the first `i` rows have been dealt with. */
  ghost predicate DeletedUpTo(first: World, world: World, w: Worker, rows: seq<Key>, i: nat, ok: bool) {
    && i <= |rows| && HoldsRows(world, w, rows)
    && (forall k | k in rows :: CopyOf(first, w, k).Some? && CopyOf(world, w, k).Some?
          && CopyOf(world, w, k).value == CopyOf(first, w, k).value.(phase := CopyOf(world, w, k).value.phase))
    && (forall j | i <= j < |rows| :: CopyOf(world, w, rows[j]).value.phase == Fetched)
    && (ok ==> forall j | 0 <= j < i :: CopyOf(world, w, rows[j]).value.phase == ObjectDeleted)
  }

  lemma DeletedStays(first: World, before: World, world: World, w: Worker, rows: seq<Key>, i: nat, ok: bool)
    requires DeletedUpTo(first, before, w, rows, i, ok) && SameCopies(before, world, w)
    ensures DeletedUpTo(first, world, w, rows, i, ok)
  {
    hide CopyOf;
  }

  lemma DeletedMore(first: World, world: World, w: Worker, rows: seq<Key>, i: nat, ok: bool, reply: Reply)
    requires DeletedUpTo(first, world, w, rows, i, ok) && i < |rows| && Distinct(rows)
    ensures DeletedUpTo(first, Act(world, Do(rows[i], OfDrain(w, DrainDelete(reply)))), w, rows, i + 1,
                     ok && reply.Success?)
  {
    assert rows[i] in rows;
    DeleteSets(world, rows[i], w, reply);
    hide CopyOf, Act;
  }

  lemma StartOfPage(env: Environment, w: Worker, start: seq<Action>, trace: seq<Action>, world: World)
    requires world == Run(START, trace) && OnlyBy(env, w, start, trace) && Unseen(world, w)
    ensures start <= trace && HoldsRows(world, w, [])
  {
    hide Run, Unseen;
    NothingHeld(trace, w);
  }

  lemma NoRows(env: Environment, world: World)
    ensures forall i: nat, write: nat :: !FirstFailure(env, EarlyRows(world, []), write, i)
  {
  }

  lemma PageIsDistinct(world: World, rows: seq<Key>, limit: nat, pick: Selection)
    requires PageOf(world, rows, limit, pick)
    ensures Distinct(rows) && |rows| <= limit
  {
  }

  lemma HeldAreFetched(begun: World, world: World, w: Worker, rows: seq<Key>)
    requires forall k | k in rows :: begun.At(k).intent.Some? && CopyOf(world, w, k) == Some(FetchedCopy(begun, k))
    ensures forall k | k in rows :: CopyOf(world, w, k).Some? && CopyOf(world, w, k).value.phase == Fetched
  {
  }

  lemma StartsMidway(world: World, w: Worker, rows: seq<Key>)
    requires Distinct(rows) && HoldsRows(world, w, rows)
    requires forall k | k in rows :: CopyOf(world, w, k).value.phase == ObjectDeleted
    ensures Midway(world, w, [], rows)
  {
    assert [] + rows == rows;
  }

  lemma OnlyByGrows(env: Environment, w: Worker, a: seq<Action>, b: seq<Action>)
    requires OnlyBy(env, w, a, b)
    ensures a <= b
  {
  }

  lemma OnlyBySelf(env: Environment, w: Worker, trace: seq<Action>)
    ensures OnlyBy(env, w, trace, trace)
  {
  }

  lemma OnlyByJoins(env: Environment, w: Worker, a: seq<Action>, b: seq<Action>, c: seq<Action>)
    requires OnlyBy(env, w, a, b) && OnlyBy(env, w, b, c)
    ensures OnlyBy(env, w, a, c)
  {
  }

  /** How a page whose objects were deleted has ended: the report belongs to the log. */
  ghost predicate PageDone(env: Environment, claimed: nat, log: seq<Action>, totals: Totals, held: nat,
          rejected: bool, from: nat, to: nat)
  {
    && totals == ReportOf(claimed, log) && AccountedFor(claimed, log, held)
    && Count(log, AClaim) == Count(log, AFailedDelete) == 0
    && (Count(log, AnInterruption) > 0 <==> !NeverDown(env, from, to))
    && (rejected <==> Broke(log) && from < to && env.down(to - 1))
  }

  /** The same for a whole page; `deleted` says whether all deletes succeeded. */
  ghost predicate PageReported(env: Environment, log: seq<Action>, totals: Totals, held: nat, rejected: bool,
          deleted: bool, from: nat, to: nat)
  {
    && totals == Report(log) && Accounted(log, held)
    && (Count(log, AFailedDelete) == 0 <==> deleted)
    && (deleted ==> (Count(log, AnInterruption) > 0 <==> !NeverDown(env, from, to)))
    && (rejected <==> Broke(log) && from < to && env.down(to - 1))
  }

  lemma SettledReported(env: Environment, begun: seq<Action>, log: seq<Action>, claimed: nat, totals: Totals,
          held: nat, rejected: bool, from: nat, to: nat)
    requires PageDone(env, claimed, log, totals, held, rejected, from, to)
    requires Report(begun + log) == ReportOf(claimed, log) && Accounted(begun + log, held)
    requires forall kind | kind != AClaim :: Count(begun + log, kind) == Count(log, kind)
    ensures PageReported(env, begun + log, totals, held, rejected, true, from, to) && totals.claimed == claimed
  {
    hide Count, NeverDown, Accounted, AccountedFor, Report;
  }

  /** One transaction on a row has failed, and then one that gives the claims back was tried. */
  lemma BrokenDone(env: Environment, claimed: nat, log: seq<Action>, totals: Totals, held: nat, rejected: bool,
          first: nat, at: nat)
    requires totals == ReportOf(claimed, log) && AccountedFor(claimed, log, held)
    requires Count(log, AClaim) == Count(log, AFailedDelete) == 0 && Count(log, AnInterruption) > 0
    requires first <= at && env.down(at) && (rejected <==> env.down(at + 1))
    ensures PageDone(env, claimed, log, totals, held, rejected, first, at + 2)
  {
    hide Count, ReportOf, AccountedFor;
  }

  lemma OneWrite(env: Environment, n: nat)
    ensures NeverDown(env, n, n + 1) <==> !env.down(n)
  {
  }

  lemma WithoutKeeps(pick: Selection, locked: set<Key>)
    ensures pick.Without(locked).quotaAvailable == pick.quotaAvailable
  {
  }

  lemma QuietDone(env: Environment, claimed: nat, log: seq<Action>, totals: Totals, first: nat, to: nat)
    requires totals == ReportOf(claimed, log) && AccountedFor(claimed, log, 0)
    requires Count(log, AClaim) == Count(log, AFailedDelete) == Count(log, AnInterruption) == 0
    requires NeverDown(env, first, to)
    ensures PageDone(env, claimed, log, totals, 0, false, first, to)
  {
    hide Count, ReportOf, AccountedFor;
  }

  /** Before this, all transactions had succeeded. */
  lemma DoneFrom(env: Environment, claimed: nat, log: seq<Action>, totals: Totals, held: nat, rejected: bool,
          first: nat, from: nat, to: nat)
    requires PageDone(env, claimed, log, totals, held, rejected, from, to)
    requires first <= from <= to && NeverDown(env, first, from)
    ensures PageDone(env, claimed, log, totals, held, rejected, first, to)
  {
    hide Count, ReportOf, AccountedFor;
  }

  /** What a worker holds does not change while its copies do not. */
  lemma HeldStill(before: World, after: World, w: Worker, rows: seq<Key>)
    requires HoldsRows(before, w, rows) && SameCopies(before, after, w)
    ensures HoldsRows(after, w, rows)
  {
    hide CopyOf;
  }

  lemma ReadyStill(before: World, after: World, w: Worker, rows: seq<Key>)
    requires HoldsRows(before, w, rows) && SameCopies(before, after, w)
    requires forall k | k in rows :: AckReady(CopyOf(before, w, k))
    ensures HoldsRows(after, w, rows) && forall k | k in rows :: MayFinish(CopyOf(after, w, k).value, DrainAcknowledge)
  {
    hide CopyOf;
  }

  lemma StartOfRows(env: Environment, world: World, w: Worker, rows: seq<Key>, start: seq<Action>, first: nat)
    requires forall k | k in rows :: CopyOf(world, w, k).Some?
    ensures var copies := PageCopies(world, w, rows);
            && AllWell(copies, []) && RowsLog(rows, w, copies, []) == []
            && Outcomes([]) == 0 && !SomeCounted(copies, [])
            && Running(|rows|, [], Totals(|rows|, 0, 0, 0), 0, 0)
            && (forall j | 0 <= j < |rows| :: CopyOf(world, w, rows[j]) == Some(copies[j]))
            && Tracks(env, EarlyCopies(world, w, rows), first, 0, first, Totals(|rows|, 0, 0, 0))
    ensures OnlyBy(env, w, start, start) && Own(start, w) + [] == Own(start, w) && NeverDown(env, first, first)
    ensures rows[0..] == rows
  {
    hide CopyOf;
    forall j | 0 <= j < |rows| ensures CopyOf(world, w, rows[j]) == Some(PageCopies(world, w, rows)[j]) {
      assert rows[j] in rows;
    }
  }

  lemma EarlyAre(early: seq<bool>, copies: seq<Drain>, world: World, w: Worker, rows: seq<Key>)
    requires forall k | k in rows :: CopyOf(world, w, k).Some?
    requires copies == PageCopies(world, w, rows) && early == EarlyCopies(world, w, rows)
    ensures |early| == |copies| == |rows|
    ensures forall i | 0 <= i < |rows| :: early[i] <==> !copies[i].FinalPass()
  {
    hide CopyOf;
    forall i | 0 <= i < |rows| ensures early[i] <==> !copies[i].FinalPass() {
      assert rows[i] in rows;
    }
  }

  lemma NoLog(own: seq<Action>)
    ensures own + [] == own
  {
  }

  lemma BegunIs(replies: nat -> Reply, rows: seq<Key>, w: Worker, quotaAvailable: bool, call: nat, own: seq<Action>)
    ensures own + EachOf(rows, w, DrainClaim(quotaAvailable)) + Deletes(replies, rows, |rows|, w, call)
         == own + Begun(replies, rows, w, quotaAvailable, call)
  {
    hide EachOf, Deletes;
  }

  lemma StillHeld(world: World, w: Worker, rows: seq<Key>)
    requires HoldsRows(world, w, rows)
    ensures forall k | k in rows :: CopyOf(world, w, k).Some?
  {
    hide CopyOf;
  }

  // ---------------------------------------------------------------------
  // Several pages
  // ---------------------------------------------------------------------

  /** At some time of the run the page was the first due rows that nobody had locked. */
  ghost predicate FirstDue(env: Environment, past: seq<Action>, rows: seq<Key>, limit: nat, pick: Selection, n: nat) {
    var world, free := Run(START, past), pick.Without(env.locked(n));
    && PageOf(world, rows, limit, free)
    && (|rows| < limit ==> forall k: Key | Due(world, k, free) :: k in rows)
  }

  /** The workers from `first` up to `w` have done everything they do. */
  ghost predicate LogsComplete(past: seq<Action>, trace: seq<Action>, first: Worker, w: Worker) {
    forall u: Worker | first <= u < w :: Own(past, u) == Own(trace, u)
  }

  /** Since then, and when the workers before it were done, worker `w` has claimed such a page and nothing else. */
  ghost predicate TookFirst(env: Environment, since: seq<Action>, trace: seq<Action>, first: Worker, w: Worker,
          limit: nat, pick: Selection)
  {
    exists past: seq<Action>, rows: seq<Key>, n: nat ::
      && FirstDue(env, past, rows, limit, pick, n) && since <= past <= trace && LogsComplete(past, trace, first, w)
      && EachOf(rows, w, DrainClaim(pick.quotaAvailable)) <= Own(trace, w)
      && Count(Own(trace, w), AClaim) == |rows|
  }

  ghost predicate PagesTaken(env: Environment, since: seq<Action>, trace: seq<Action>, first: Worker, n: nat,
          limit: nat, pick: Selection)
  {
    forall v: Worker | first <= v < first + n :: TookFirst(env, since, trace, first, v, limit, pick)
  }

  ghost predicate PagesFull(trace: seq<Action>, first: Worker, n: nat, limit: nat) {
    forall v: Worker | first <= v < first + n :: Count(Own(trace, v), AClaim) == limit
  }

  /** A drain goes on until a page is not full, or as many as it may have been drained. */
  ghost predicate Drained(env: Environment, since: seq<Action>, trace: seq<Action>, first: Worker, pages: nat,
          limit: nat, most: nat, pick: Selection)
  {
    && 1 <= pages <= most && PagesTaken(env, since, trace, first, pages, limit, pick)
    && PagesFull(trace, first, pages - 1, limit)
    && (pages < most ==> !PagesFull(trace, first, pages, limit))
  }

  /** One page has been taken. */
  lemma OneTaken(env: Environment, since: seq<Action>, past: seq<Action>, trace: seq<Action>, first: Worker,
          w: Worker, rows: seq<Key>, limit: nat, pick: Selection, n: nat, log: seq<Action>, one: Totals, held: nat,
          rejected: bool, deleted: bool, from: nat, to: nat)
    requires FirstDue(env, past, rows, limit, pick, n) && since <= past <= trace && Own(trace, w) == log
    requires LogsComplete(past, trace, first, w) && Begun(env.reply, rows, w, pick.quotaAvailable, n + 1) <= log
    requires PageReported(env, log, one, held, rejected, deleted, from, to) && one.claimed == |rows|
    ensures TookFirst(env, since, trace, first, w, limit, pick) && Count(Own(trace, w), AClaim) == |rows|
  {
    hide FirstDue, Own, EachOf, Deletes, Count, LogsComplete;
    ReportClaims(log);
  }

  lemma PageTaken(env: Environment, since: seq<Action>, past: seq<Action>, trace: seq<Action>, first: Worker,
          page: nat, rows: seq<Key>, limit: nat, pick: Selection, n: nat, log: seq<Action>, one: Totals, held: nat,
          deleted: bool, from: nat, to: nat)
    requires FirstDue(env, past, rows, limit, pick, n) && since <= past <= trace && Own(trace, first + page) == log
    requires LogsComplete(past, trace, first, first + page)
    requires Begun(env.reply, rows, first + page, pick.quotaAvailable, n + 1) <= log
    requires PageReported(env, log, one, held, false, deleted, from, to) && one.claimed == |rows|
    requires PagesTaken(env, since, trace, first, page, limit, pick) && PagesFull(trace, first, page, limit)
    ensures PagesTaken(env, since, trace, first, page + 1, limit, pick)
    ensures PagesFull(trace, first, page + 1, limit) <==> |rows| == limit
  {
    hide FirstDue, Own, EachOf, Deletes, Count, LogsComplete, TookFirst, Begun, PageReported;
    OneTaken(env, since, past, trace, first, first + page, rows, limit, pick, n, log, one, held, false, deleted, from,
             to);
  }

  lemma TakenStays(env: Environment, since: seq<Action>, before: seq<Action>, after: seq<Action>, first: Worker,
          n: nat, limit: nat, pick: Selection)
    requires before <= after && forall v: Worker | first <= v < first + n :: Own(after, v) == Own(before, v)
    ensures PagesTaken(env, since, before, first, n, limit, pick) ==>
              PagesTaken(env, since, after, first, n, limit, pick)
    ensures PagesFull(before, first, n, limit) ==> PagesFull(after, first, n, limit)
  {
    hide FirstDue, Own, EachOf, Count, TookFirst;
    if PagesTaken(env, since, before, first, n, limit, pick) {
      forall v: Worker | first <= v < first + n ensures TookFirst(env, since, after, first, v, limit, pick) {
        OneStays(env, since, before, after, first, v, limit, pick);
      }
    }
  }

  lemma OneStays(env: Environment, since: seq<Action>, before: seq<Action>, after: seq<Action>, first: Worker,
          w: Worker, limit: nat, pick: Selection)
    requires before <= after && forall u: Worker | first <= u <= w :: Own(after, u) == Own(before, u)
    requires first <= w && TookFirst(env, since, before, first, w, limit, pick)
    ensures TookFirst(env, since, after, first, w, limit, pick)
  {
    hide FirstDue, Own, EachOf, Count;
    var past: seq<Action>, rows: seq<Key>, call: nat :|
      && FirstDue(env, past, rows, limit, pick, call) && since <= past <= before
      && LogsComplete(past, before, first, w)
      && EachOf(rows, w, DrainClaim(pick.quotaAvailable)) <= Own(before, w)
      && Count(Own(before, w), AClaim) == |rows|;
    assert past <= after && LogsComplete(past, after, first, w);
  }

  /** What the drain did before the page, and what others did while it was claimed. */
  lemma WasDue(env: Environment, before: seq<Action>, world: World, rows: seq<Key>, limit: nat, pick: Selection, n: nat)
    requires world == Run(START, before)
    requires PageOf(Run(world, env.others(n)), rows, limit, pick.Without(env.locked(n)))
    requires |rows| < limit ==>
               forall k: Key | Due(Run(world, env.others(n)), k, pick.Without(env.locked(n))) :: k in rows
    ensures FirstDue(env, before + env.others(n), rows, limit, pick, n)
  {
    hide Run, PageOf, Due;
    RunConcat(START, before, env.others(n));
  }

  /** The drain ends with its first page that is not full, or when it has had all its pages. */
  lemma DrainEnds(env: Environment, since: seq<Action>, trace: seq<Action>, first: Worker, pages: nat, limit: nat,
          most: nat, pick: Selection)
    requires 1 <= pages <= most && PagesTaken(env, since, trace, first, pages, limit, pick)
    requires if pages == most then PagesFull(trace, first, pages - 1, limit) || PagesFull(trace, first, pages, limit)
             else PagesFull(trace, first, pages - 1, limit) && !PagesFull(trace, first, pages, limit)
    ensures Drained(env, since, trace, first, pages, limit, most, pick)
  {
    hide Own, Count, PagesTaken;
  }

  lemma NoPages(env: Environment, since: seq<Action>, trace: seq<Action>, first: Worker, limit: nat, pick: Selection)
    ensures PagesTaken(env, since, trace, first, 0, limit, pick) && PagesFull(trace, first, 0, limit)
    ensures Reported(trace, first, 0) == Totals(0, 0, 0, 0) && PagesAccounted(trace, first, 0)
    ensures Totals(0, 0, 0, 0).Balanced()
  {
  }

  lemma NothingOwn(trace: seq<Action>, first: Worker)
    requires forall v: Worker | first <= v :: Foreign(trace, v)
    ensures forall v: Worker | first <= v :: Own(trace, v) == []
  {
    forall v: Worker | first <= v ensures Own(trace, v) == [] {
      OwnForeign(trace, v);
    }
  }

  lemma FreshToken(trace: seq<Action>, w: Worker)
    requires Own(trace, w) == []
    ensures Unseen(Run(START, trace), w)
  {
    OwnForeign(trace, w);
    ForeignUnseen(trace, w);
  }

  /** The page of one token leaves the logs of the others alone. */
  lemma OthersStay(env: Environment, since: seq<Action>, before: seq<Action>, after: seq<Action>, first: Worker,
          page: nat, limit: nat, pick: Selection)
    requires OnlyBy(env, first + page, before, after)
    requires forall v: Worker | first <= v :: Alone(env, v)
    requires forall v: Worker | first + page <= v :: Own(before, v) == []
    ensures Reported(after, first, page) == Reported(before, first, page)
    ensures PagesAccounted(before, first, page) ==> PagesAccounted(after, first, page)
    ensures PagesTaken(env, since, before, first, page, limit, pick) ==>
              PagesTaken(env, since, after, first, page, limit, pick)
    ensures forall u: Worker | first <= u < first + page :: Own(after, u) == Own(before, u)
    ensures PagesFull(before, first, page, limit) ==> PagesFull(after, first, page, limit)
    ensures forall v: Worker | first + page + 1 <= v :: Own(after, v) == []
  {
    hide Own, Reported, PagesAccounted, PagesTaken, PagesFull;
    forall v: Worker | first <= v < first + page ensures Own(after, v) == Own(before, v) {
      assert v != first + page && Alone(env, v);
    }
    ReportedStays(before, after, first, page);
    TakenStays(env, since, before, after, first, page, limit, pick);
  }

  /** What others did while a page was claimed does not belong to the workers before. */
  lemma LogsAreComplete(env: Environment, n: nat, before: seq<Action>, trace: seq<Action>, first: Worker, page: nat)
    requires forall v: Worker | first <= v :: Alone(env, v)
    requires forall u: Worker | first <= u < first + page :: Own(trace, u) == Own(before, u)
    ensures LogsComplete(before + env.others(n), trace, first, first + page)
  {
    var others := env.others(n);
    forall u: Worker | first <= u < first + page ensures Own(before + others, u) == Own(trace, u) {
      assert Alone(env, u);
      assert Foreign(others, u);
      OwnConcat(before, others, u);
      OwnForeign(others, u);
    }
  }

  /** The report of one more page is added. */
  lemma PageAdded(env: Environment, trace: seq<Action>, first: Worker, page: nat, log: seq<Action>, one: Totals,
          totals: Totals, held: nat, deleted: bool, start: nat, begun: nat, to: nat)
    requires totals == Reported(trace, first, page) && PagesAccounted(trace, first, page)
    requires Own(trace, first + page) == log && held == 0
    requires PageReported(env, log, one, held, false, deleted, begun + 1, to)
    requires start <= begun < to && (NeverDown(env, start, begun) ==> totals.Balanced())
    ensures totals.Plus(one) == Reported(trace, first, page + 1) && PagesAccounted(trace, first, page + 1)
    ensures NeverDown(env, start, to) ==> totals.Plus(one).Balanced()
  {
    hide Own, Count, Broke;
    ReportSum(log);
    assert first + (page + 1) - 1 == first + page;
    if NeverDown(env, start, to) {
      assert NeverDown(env, start, begun) && NeverDown(env, begun + 1, to);
      BalancedPage(env, log, one, deleted, begun + 1, to);
    }
  }

  /** A page all of whose transactions succeed balances: if a delete failed, nothing had been counted. */
  lemma BalancedPage(env: Environment, log: seq<Action>, one: Totals, deleted: bool, from: nat, to: nat)
    requires PageReported(env, log, one, 0, false, deleted, from, to)
    requires NeverDown(env, from, to)
    ensures one.Balanced()
  {
    ReportSum(log);
    hide Count;
  }

  /** A drain is rejected only when a transaction has failed. */
  lemma RejectedIsDown(env: Environment, log: seq<Action>, one: Totals, held: nat, deleted: bool, start: nat,
          begun: nat, to: nat)
    requires start <= begun < to
    requires env.down(begun) || PageReported(env, log, one, held, true, deleted, begun + 1, to)
    ensures !NeverDown(env, start, to)
  {
    hide Count;
  }

  class StorageCleanup {
    const env: Environment
    var world: World
    var calls: nat
    var writes: nat
    ghost var trace: seq<Action>

    /** Whatever this object has done and seen is a run of the protocol. */
    ghost predicate Valid()
      reads this
    {
      world == Run(START, trace)
    }

    lemma ValidMeans()
      requires Valid()
      ensures world == Run(START, trace)
    {
    }

    constructor (env: Environment)
      ensures Valid() && this.env == env && world == START && trace == [] && calls == writes == 0
    {
      this.env, world, calls, writes, trace := env, START, 0, 0, [];
    }

    /** The time a call takes: others act. */
    method Wait()
      requires Valid()
      modifies this`world, this`calls, this`trace
      ensures Valid() && calls == old(calls) + 1
      ensures trace == old(trace) + env.others(old(calls)) && world == Run(old(world), env.others(old(calls)))
    {
      hide Run;
      RunConcat(START, trace, env.others(calls));
      world := Run(world, env.others(calls));
      trace := trace + env.others(calls);
      calls := calls + 1;
    }

    /** One event of this worker. */
    method Perform(k: Key, e: Event)
      requires Valid()
      modifies this`world, this`trace
      ensures Valid() && trace == old(trace) + [Do(k, e)] && world == Act(old(world), Do(k, e))
    {
      assert (trace + [Do(k, e)])[..|trace|] == trace;
      world := Act(world, Do(k, e));
      trace := trace + [Do(k, e)];
    }

    /** The first row that is due, if any is. */
    method Earliest(pick: Selection) returns (best: Option<Key>)
      requires Valid()
      ensures best.None? ==> forall k: Key :: !Due(world, k, pick)
      ensures best.Some? ==>
                && Due(world, best.value, pick)
                && forall k: Key | Due(world, k, pick) && k != best.value :: Before(world, pick, best.value, k)
    {
      best := None;
      var rest := world.admissions.Keys;
      while rest != {}
        invariant rest <= world.admissions.Keys
        invariant best.None? ==> forall k: Key | k in world.admissions && k !in rest :: !Due(world, k, pick)
        invariant best.Some? ==>
                    && Due(world, best.value, pick)
                    && forall k: Key | k in world.admissions && k !in rest && Due(world, k, pick) && k != best.value ::
                         Before(world, pick, best.value, k)
        decreases rest
      {
        var k :| k in rest;
        rest := rest - {k};
        if Due(world, k, pick) && (best.None? || Before(world, pick, k, best.value)) {
          best := Some(k);
        }
      }
    }

    /** Claim a page: up to `limit` rows that are due, the earliest first. */
    method ClaimPage(w: Worker, limit: nat, pick: Selection) returns (rows: seq<Key>)
      requires Valid() && Unseen(world, w)
      modifies this`world, this`trace
      ensures Valid() && world.now == old(world).now
      ensures Own(trace, w) == Own(old(trace), w) + EachOf(rows, w, DrainClaim(pick.quotaAvailable))
      ensures OnlyBy(env, w, old(trace), trace)
      ensures PageOf(old(world), rows, limit, pick)
      ensures |rows| < limit ==> forall k: Key | Due(old(world), k, pick) :: k in rows
      ensures HoldsRows(world, w, rows)
      ensures forall k | k in rows ::
                old(world).At(k).intent.Some? && CopyOf(world, w, k) == Some(FetchedCopy(old(world), k))
    {
      hide Act, Run, Before, Due, CopyOf, PageOf, HoldsRows, ClaimedRows, Unseen, OnlyBy, Own, EachOf;
      rows := [];
      ghost var before := world;
      NothingHeld(trace, w);
      NothingClaimed(before, w, limit, pick);
      NothingLogged(env, trace, w, DrainClaim(pick.quotaAvailable));
      var more := true;
      while more && |rows| < limit
        invariant Valid() && Own(trace, w) == Own(old(trace), w) + EachOf(rows, w, DrainClaim(pick.quotaAvailable))
        invariant OnlyBy(env, w, old(trace), trace)
        invariant ClaimedRows(before, world, w, rows, limit, pick)
        invariant !more ==> forall k: Key | Due(before, k, pick) :: k in rows
        decreases more, limit - |rows|
      {
        var next := Earliest(pick);
        if next.None? {
          AllTaken(before, world, w, rows, limit, pick);
          more := false;
        } else {
          var k := next.value;
          UnclaimedIsUnseen(before, world, w, rows, limit, pick, k);
          RowClaimed(before, world, w, rows, limit, pick, k);
          ClaimLogged(env, old(trace), trace, w, rows, DrainClaim(pick.quotaAvailable), k);
          Perform(k, OfDrain(w, DrainClaim(pick.quotaAvailable)));
          rows := rows + [k];
        }
      }
      ClaimedPage(before, world, w, rows, limit, pick);
    }

    /** Wait as worker `w`, whose copies nobody else touches. */
    method Pause(w: Worker)
      requires Valid() && Alone(env, w)
      modifies this`world, this`calls, this`trace
      ensures Valid() && calls == old(calls) + 1 && world == Run(old(world), env.others(old(calls)))
      ensures trace == old(trace) + env.others(old(calls))
      ensures OnlyBy(env, w, old(trace), trace) && Own(trace, w) == Own(old(trace), w)
      ensures SameCopies(old(world), world, w)
      ensures Unseen(old(world), w) ==> Unseen(world, w)
    {
      hide Run;
      ghost var before, done := world, trace;
      var others := env.others(calls);
      Wait();
      assert Foreign(others, w);
      OwnOthers(env, w, done, others);
      forall k: Key ensures CopyOf(world, w, k) == CopyOf(before, w, k) {
        ForeignKeepsCopies(before, others, w, k);
      }
      if Unseen(before, w) {
        UnseenStays(before, w, others);
      }
    }

    /** Whether the next transaction of this object succeeds. */
    method Commits() returns (ok: bool)
      requires Valid()
      modifies this`writes
      ensures Valid() && writes == old(writes) + 1 && (ok <==> !env.down(old(writes)))
    {
      ok := !env.down(writes);
      writes := writes + 1;
    }

    /** A drain event of worker `w`. */
    method Advance(k: Key, w: Worker, d: DrainEvent)
      requires Valid()
      modifies this`world, this`trace
      ensures Valid() && world == Act(old(world), Do(k, OfDrain(w, d)))
      ensures OnlyBy(env, w, old(trace), trace) && Own(trace, w) == Own(old(trace), w) + [Do(k, OfDrain(w, d))]
    {
      OwnOne(env, w, trace, Do(k, OfDrain(w, d)));
      Perform(k, OfDrain(w, d));
    }

    /** Delete the objects of a page; all requests are sent even if one of them fails. */
    method DeletePage(w: Worker, rows: seq<Key>) returns (ok: bool)
      requires Valid() && Alone(env, w) && Distinct(rows) && HoldsRows(world, w, rows)
      requires forall k | k in rows :: CopyOf(world, w, k).value.phase == Fetched
      modifies this`world, this`calls, this`trace
      ensures Valid() && HoldsRows(world, w, rows) && calls == old(calls) + |rows|
      ensures OnlyBy(env, w, old(trace), trace)
      ensures Own(trace, w) == Own(old(trace), w) + Deletes(env.reply, rows, |rows|, w, old(calls))
      ensures forall k | k in rows ::
                CopyOf(world, w, k).value == CopyOf(old(world), w, k).value.(phase := CopyOf(world, w, k).value.phase)
      ensures ok <==> RepliesOk(env.reply, old(calls), calls)
      ensures ok ==> forall k | k in rows :: CopyOf(world, w, k).value.phase == ObjectDeleted
    {
      hide Act, OnlyBy, Own, CopyOf, SameCopies, Unseen, Run;
      ghost var start, first := trace, world;
      OnlyBySelf(env, w, start);
      ok := true;
      for i := 0 to |rows|
        invariant Valid() && calls == old(calls) + i && OnlyBy(env, w, start, trace)
        invariant Own(trace, w) == Own(start, w) + Deletes(env.reply, rows, i, w, old(calls))
        invariant DeletedUpTo(first, world, w, rows, i, ok)
        invariant ok <==> RepliesOk(env.reply, old(calls), calls)
      {
        var reply := env.reply(calls);
        ghost var before, sofar := world, trace;
        Pause(w);
        OnlyByJoins(env, w, start, sofar, trace);
        DeletedStays(first, before, world, w, rows, i, ok);
        DeletedMore(first, world, w, rows, i, ok, reply);
        sofar := trace;
        Advance(rows[i], w, DrainDelete(reply));
        OnlyByJoins(env, w, start, sofar, trace);
        ok := ok && reply.Success?;
      }
    }

    /** One call to the quota adapter; a reservation succeeds unless the key is denied. */
    method CallQuota(k: Key, w: Worker, call: QuotaCall) returns (reply: Reply)
      requires Valid() && Alone(env, w) && CopyOf(world, w, k).Some? && MayCall(CopyOf(world, w, k).value, call)
      modifies this`world, this`calls, this`trace
      ensures Valid() && calls == old(calls) + 1 && OnlyBy(env, w, old(trace), trace)
      ensures Own(trace, w) == Own(old(trace), w) + [Do(k, OfDrain(w, EventOf(call, reply)))]
      ensures CopySet(old(world), world, w, k,
                      Some(CopyOf(old(world), w, k).value.(phase := AfterCall(reply, DoneOf(call)))))
    {
      hide Act, MayCall, AfterCall, DoneOf, Own;
      reply := env.reply(calls);
      Pause(w);
      if call == Reserving && !ReserveReplyOk(world.At(k).ledger, reply) {
        reply := Retryable(false);
      }
      CallSets(world, k, w, call, reply);
      Advance(k, w, EventOf(call, reply));
    }

    /** Settle the quota of a row on its last pass: calls in order, until one fails. */
    method ReleaseQuota(k: Key, w: Worker) returns (outcome: Outcome, ghost replies: seq<Reply>)
      requires Valid() && Alone(env, w) && ReadyToRelease(CopyOf(world, w, k))
      modifies this`world, this`calls, this`trace
      ensures Valid() && OthersKept(old(world), world, w, k)
      ensures OnlyBy(env, w, old(trace), trace)
      ensures var copy := CopyOf(old(world), w, k).value;
              && UpToFailure(CallsFor(copy), replies)
              && Own(trace, w) == Own(old(trace), w) + Called(k, w, CallsFor(copy), replies)
              && outcome == OutcomeOf(copy, replies)
      ensures outcome == Retry || AckReady(CopyOf(world, w, k))
    {
      hide Act, Own, OnlyBy, Called;
      var copy := world.At(k).drains[w];
      ghost var calls := CallsFor(copy);
      replies := [];
      NoCalls(k, w, calls, Own(trace, w));
      OnlyBySelf(env, w, trace);
      if copy.kind == NoRelease {
        return QuotaReleased, replies;
      }
      if copy.kind == OfReservePending {
        var reply := CallQuota(k, w, Reserving);
        OneMoreCall(k, w, calls, replies, reply, Own(old(trace), w));
        replies := replies + [reply];
        if !reply.Success? {
          return if reply.Terminal? then TerminalRejection else Retry, replies;
        }
      } else if (copy.kind == OfReservation || copy.kind == OfFinalizePending) && !copy.reservationId {
        return Retry, replies;
      } else if copy.kind == OfFinalizePending {
        var reply := CallQuota(k, w, Finalizing);
        OneMoreCall(k, w, calls, replies, reply, Own(old(trace), w));
        replies := replies + [reply];
        if !reply.Success? {
          return if reply.Terminal? then TerminalRejection else Retry, replies;
        }
      }
      ghost var sofar := trace;
      var last :=
        if copy.kind == OfReservePending || copy.kind == OfReservation then ReleasingReservation
        else ReleasingCommitted;
      var reply := CallQuota(k, w, last);
      OneMoreCall(k, w, calls, replies, reply, Own(old(trace), w));
      OnlyByJoins(env, w, old(trace), sofar, trace);
      replies := replies + [reply];
      match reply
      case Success => outcome := QuotaReleased;
      case Retryable(_) => outcome := Retry;
      case Terminal(_) => outcome := TerminalRejection;
    }

    /** A transaction that gives up or retires the claim of row `k`. */
    method Finish(k: Key, w: Worker, d: DrainEvent)
      requires Valid() && CopyOf(world, w, k).Some? && MayFinish(CopyOf(world, w, k).value, d)
      modifies this`world, this`trace
      ensures Valid() && CopySet(old(world), world, w, k, None)
      ensures OnlyBy(env, w, old(trace), trace) && Own(trace, w) == Own(old(trace), w) + [Do(k, OfDrain(w, d))]
    {
      hide Act;
      FinishSets(world, k, w, d);
      Advance(k, w, d);
    }

    /** A transaction on row `k` that fails. */
    method Fail(k: Key, w: Worker, transaction: Transaction)
      requires Valid()
      modifies this`world, this`trace
      ensures Valid() && SameCopies(old(world), world, w) && OnlyBy(env, w, old(trace), trace)
      ensures Own(trace, w) == Own(old(trace), w) + [Do(k, OfDrain(w, DrainDown(transaction)))]
    {
      hide Own, OnlyBy;
      Advance(k, w, DrainDown(transaction));
    }

    /** A transaction that gives the claim of row `k` up, if it succeeds. */
    method TryFinish(k: Key, w: Worker, d: DrainEvent, transaction: Transaction) returns (ok: bool)
      requires Valid() && Alone(env, w) && CopyOf(world, w, k).Some? && MayFinish(CopyOf(world, w, k).value, d)
      modifies this
      ensures Valid() && OnlyBy(env, w, old(trace), trace)
      ensures writes == old(writes) + 1 && (ok <==> !env.down(old(writes)))
      ensures CopySet(old(world), world, w, k, if ok then None else CopyOf(old(world), w, k))
      ensures Own(trace, w) == Own(old(trace), w) + [Do(k, OfDrain(w, if ok then d else DrainDown(transaction)))]
    {
      hide Act, Own, OnlyBy, CopyOf;
      ghost var start := trace;
      ok := Commits();
      Pause(w);
      ghost var sofar := trace;
      if ok {
        Finish(k, w, d);
      } else {
        Fail(k, w, transaction);
      }
      OnlyByJoins(env, w, start, sofar, trace);
    }

    /** One row of a page whose objects have been deleted. */
    method ProcessRow(k: Key, w: Worker) returns (result: RowResult, ghost run: RowRun)
      requires Valid() && Alone(env, w)
      requires CopyOf(world, w, k).Some? && CopyOf(world, w, k).value.phase == ObjectDeleted
      modifies this
      ensures Valid() && OnlyBy(env, w, old(trace), trace)
      ensures forall j: Key | j != k :: CopyOf(world, w, j) == CopyOf(old(world), w, j)
      ensures var copy := CopyOf(old(world), w, k).value;
              && RunOk(copy, run) && result == ResultOf(copy, run)
              && Own(trace, w) == Own(old(trace), w) + RowLog(k, w, copy, run)
              && (!copy.FinalPass() ==> result == if env.down(old(writes)) then BrokenRow(false) else DeferredRow)
      ensures writes == old(writes) + if result == SettledRow then 0 else 1
      ensures result.BrokenRow? <==> result != SettledRow && env.down(old(writes))
      ensures match result
              case SettledRow => AckReady(CopyOf(world, w, k))
              case BrokenRow(_) => CopyOf(world, w, k).Some?
              case _ => CopyOf(world, w, k).None?
    {
      hide Act, OnlyBy, Own, Called;
      var copy := world.At(k).drains[w];
      if !copy.FinalPass() {
        var ok := TryFinish(k, w, DrainDefer, Deferring);
        return if ok then DeferredRow else BrokenRow(false), RowRun([], ok);
      }
      ghost var start, replies := trace, [];
      var outcome;
      outcome, replies := ReleaseQuota(k, w);
      if outcome != Retry {
        assert Called(k, w, CallsFor(copy), replies) + [] == Called(k, w, CallsFor(copy), replies);
        return SettledRow, RowRun(replies, true);
      }
      ghost var sofar := trace;
      var ok := TryFinish(k, w, DrainFail, Recording);
      OnlyByJoins(env, w, start, sofar, trace);
      return if ok then FailedRow else BrokenRow(true), RowRun(replies, ok);
    }

    /** One transaction finishes the claims of several rows. */
    method FinishAll(w: Worker, rows: seq<Key>, d: DrainEvent)
      requires Valid() && Distinct(rows) && HoldsRows(world, w, rows)
      requires forall k | k in rows :: MayFinish(CopyOf(world, w, k).value, d)
      modifies this`world, this`trace
      ensures Valid() && HoldsRows(world, w, [])
      ensures OnlyBy(env, w, old(trace), trace) && Own(trace, w) == Own(old(trace), w) + EachOf(rows, w, d)
    {
      hide Act, OnlyBy, Own, MayFinish;
      OnlyBySelf(env, w, trace);
      for i := 0 to |rows|
        invariant Valid() && OnlyBy(env, w, old(trace), trace)
        invariant forall k: Key :: CopyOf(world, w, k) == if k in rows[i..] then CopyOf(old(world), w, k) else None
        invariant Own(trace, w) == Own(old(trace), w) + EachOf(rows[..i], w, d)
      {
        ghost var sofar := trace;
        assert rows[i] in rows[i..] && rows[i] !in rows[i + 1..];
        assert forall k: Key | k != rows[i] :: k in rows[i..] <==> k in rows[i + 1..];
        EachMore(rows, w, d, i);
        Finish(rows[i], w, d);
        OnlyByJoins(env, w, old(trace), sofar, trace);
      }
      assert rows[..|rows|] == rows;
    }

    /** A transaction on several rows fails. */
    method FailAll(w: Worker, rows: seq<Key>, transaction: Transaction)
      requires Valid()
      modifies this`world, this`trace
      ensures Valid() && SameCopies(old(world), world, w) && OnlyBy(env, w, old(trace), trace)
      ensures Own(trace, w) == Own(old(trace), w) + EachOf(rows, w, DrainDown(transaction))
    {
      hide Act, OnlyBy, Own, CopyOf;
      OnlyBySelf(env, w, trace);
      for i := 0 to |rows|
        invariant Valid() && OnlyBy(env, w, old(trace), trace) && SameCopies(old(world), world, w)
        invariant Own(trace, w) == Own(old(trace), w) + EachOf(rows[..i], w, DrainDown(transaction))
      {
        ghost var sofar := trace;
        EachMore(rows, w, DrainDown(transaction), i);
        Fail(rows[i], w, transaction);
        OnlyByJoins(env, w, old(trace), sofar, trace);
      }
      assert rows[..|rows|] == rows;
    }

    /**
     * The page breaks: it is counted as failed as a whole, and the claims that are left are given back in one
     * transaction. If that fails too, the drain is rejected and they stay leased.
     */
    method BreakPage(w: Worker, rows: seq<Key>, sofar: Totals, unrecorded: bool)
      returns (totals: Totals, rejected: bool, ghost left: seq<Key>)
      requires Valid() && Alone(env, w) && Distinct(rows) && HoldsRows(world, w, rows)
      modifies this
      ensures Valid() && HoldsRows(world, w, left) && OnlyBy(env, w, old(trace), trace)
      ensures writes == old(writes) + 1 && (rejected <==> env.down(old(writes)))
      ensures left == if rejected then rows else []
      ensures Own(trace, w) == Own(old(trace), w) + EachOf(rows, w, GiveEvent(!rejected))
      ensures totals == Counting(sofar, BrokenRow(unrecorded))
    {
      hide OnlyBy, Own, CopyOf, EachOf;
      ghost var start, before := trace, world;
      var ok := Commits();
      Pause(w);
      HeldStill(before, world, w, rows);
      ghost var paused := trace;
      if ok {
        FinishAll(w, rows, DrainGiveBack);
      } else {
        before := world;
        FailAll(w, rows, GivingBack);
        HeldStill(before, world, w, rows);
      }
      OnlyByJoins(env, w, start, paused, trace);
      totals, rejected, left := Counting(sofar, BrokenRow(unrecorded)), !ok, if ok then [] else rows;
    }

    /** Retire the settled rows in one transaction; if it fails, the page breaks. */
    method AcknowledgeAll(w: Worker, settled: seq<Key>, sofar: Totals, ghost claimed: nat, ghost sofarLog: seq<Action>)
      returns (totals: Totals, rejected: bool, ghost left: seq<Key>, ghost log: seq<Action>)
      requires Valid() && Alone(env, w) && Distinct(settled) && HoldsRows(world, w, settled) && settled != []
      requires forall k | k in settled :: AckReady(CopyOf(world, w, k))
      requires Running(claimed, sofarLog, sofar, |settled|, claimed)
      modifies this
      ensures Valid() && HoldsRows(world, w, left) && OnlyBy(env, w, old(trace), trace)
      ensures Own(trace, w) == Own(old(trace), w) + log
      ensures old(writes) < writes && (left != [] ==> rejected)
      ensures PageDone(env, claimed, sofarLog + log, totals, |left|, rejected, old(writes), writes)
      ensures Count(sofarLog + log, AnUnrecordedFailure) == 0 && Outcomes(sofarLog + log) == Outcomes(sofarLog)
    {
      hide OnlyBy, Own, CopyOf, EachOf, Running, Counting, ReportOf, AccountedFor, Count, PageDone, NeverDown, Outcomes;
      ghost var start, before, first := trace, world, writes;
      OneWrite(env, first);
      var ok := Commits();
      Pause(w);
      ReadyStill(before, world, w, settled);
      ghost var paused := trace;
      if ok {
        FinishAll(w, settled, DrainAcknowledge);
        PageAcknowledged(claimed, sofarLog, sofar, settled, w);
        log, totals, rejected, left := EachOf(settled, w, DrainAcknowledge), sofar.(deleted := |settled|), false, [];
        QuietDone(env, claimed, sofarLog + log, totals, first, writes);
        OnlyByJoins(env, w, start, paused, trace);
      } else {
        before := world;
        FailAll(w, settled, Acknowledging);
        HeldStill(before, world, w, settled);
        OnlyByJoins(env, w, start, paused, trace);
        ghost var broken := trace;
        totals, rejected, left := BreakPage(w, settled, sofar, false);
        OnlyByJoins(env, w, start, broken, trace);
        AcknowledgementBreaks(claimed, sofarLog, sofar, settled, w, !rejected);
        log := EachOf(settled, w, DrainDown(Acknowledging)) + EachOf(settled, w, GiveEvent(!rejected));
        BrokenDone(env, claimed, sofarLog + log, totals, |left|, rejected, first, first);
      }
    }

    /**
     * Defer, release and acknowledge the rows of a page whose objects have been deleted. `runs` says how the
     * rows went, in order; `log` is what the worker has done; `left` are the claims that could not be given
     * back. The failure of a row is counted without being recorded exactly when recording it broke the page,
     * and a broken page counts twice exactly when one of its rows had been counted.
     */
    method SettlePage(w: Worker, rows: seq<Key>)
      returns (totals: Totals, rejected: bool, ghost left: seq<Key>, ghost log: seq<Action>, ghost runs: seq<RowRun>)
      requires Valid() && Alone(env, w) && Midway(world, w, [], rows)
      requires forall k | k in rows :: CopyOf(world, w, k).Some?
      modifies this
      ensures Valid() && HoldsRows(world, w, left) && OnlyBy(env, w, old(trace), trace)
      ensures Own(trace, w) == Own(old(trace), w) + log
      ensures old(writes) <= writes && (left != [] ==> rejected)
      ensures PageDone(env, |rows|, log, totals, |left|, rejected, old(writes), writes)
      ensures var copies := PageCopies(old(world), w, rows);
              && UpToBreak(copies, runs) && RowsLog(rows, w, copies, runs) <= log
              && (Count(log, AnUnrecordedFailure) > 0
                  <==> runs != [] && ResultOf(copies[|runs| - 1], runs[|runs| - 1]) == BrokenRow(true))
              && (CountsTwice(log) <==> Broke(log) && SomeCounted(copies, runs))
      ensures forall i: nat | FirstFailure(env, EarlyCopies(old(world), w, rows), old(writes), i) ::
                totals == Totals(|rows|, 0, i, |rows|)
    {
      hide Act, CopyOf, Midway, HoldsRows, Distinct, Own, OnlyBy, Tracks, FirstFailure, RowsLog, RowLog, EachOf;
      hide Running, Counting, ReportOf, AccountedFor, Count, NeverDown, ResultOf, RunOk, Adds, Outcomes, Broke;
      hide SomeCounted, Counted, PageCopies, EarlyCopies, GiveEvent, UpToBreak, LastBroke, PageDone;
      ghost var start, first := trace, writes;
      ghost var copies, early := PageCopies(world, w, rows), EarlyCopies(world, w, rows);
      StartOfRows(env, world, w, rows, start, first);
      EarlyAre(early, copies, world, w, rows);
      totals, rejected, left, runs, log := Totals(|rows|, 0, 0, 0), false, [], [], [];
      var settled: seq<Key> := [];
      var i := 0;
      while i < |rows|
        invariant 0 <= i <= |rows| && Valid() && first <= writes && NeverDown(env, first, writes)
        invariant OnlyBy(env, w, start, trace) && Own(trace, w) == Own(start, w) + log
        invariant Midway(world, w, settled, rows[i..])
        invariant |runs| == i && AllWell(copies, runs) && log == RowsLog(rows, w, copies, runs)
        invariant Outcomes(log) > 0 <==> SomeCounted(copies, runs)
        invariant Running(|rows|, log, totals, |settled|, i)
        invariant forall j | i <= j < |rows| :: CopyOf(world, w, rows[j]) == Some(copies[j])
        invariant Tracks(env, early, first, i, writes, totals)
      {
        var k := rows[i];
        ghost var before, sofar, begun, was := world, trace, writes, log;
        MidwayFirst(world, w, settled, rows[i..]);
        OthersOfPage(world, w, settled, rows, i);
        var result, run := ProcessRow(k, w);
        OnlyByJoins(env, w, start, sofar, trace);
        MidwayNext(before, world, w, settled, rows[i..], result);
        TracksMore(env, early, first, i, begun, writes, totals, result);
        NeverDownMore(env, first, begun);
        OneMoreRow(rows, w, copies, runs, run);
        SomeCountedMore(copies, runs, run);
        assert rows[i..][1..] == rows[i + 1..];
        runs, log := runs + [run], RowsLog(rows, w, copies, runs + [run]);
        if result.BrokenRow? {
          sofar := trace;
          ghost var rest, counted := settled + rows[i..], totals;
          totals, rejected, left := BreakPage(w, settled + rows[i..], totals, result.unrecorded);
          OnlyByJoins(env, w, start, sofar, trace);
          RowBreaks(|rows|, was, log, counted, |settled|, i, result, rest, w, !rejected);
          log := log + EachOf(rest, w, GiveEvent(!rejected));
          BrokenDone(env, |rows|, log, totals, |left|, rejected, first, begun);
          return;
        }
        RunningMore(|rows|, was, log, totals, |settled|, i, result);
        totals := Counting(totals, result);
        if result == SettledRow {
          settled := settled + [k];
        }
        i := i + 1;
      }
      AllSettled(world, w, settled, rows[i..]);
      TracksAll(env, early, first, writes, totals);
      AllWellUp(copies, runs);
      ghost var middle, rowsLog := writes, log;
      if settled == [] {
        PageQuiet(|rows|, log, totals);
        QuietDone(env, |rows|, log, totals, first, writes);
      } else {
        ghost var sofar, ending := trace, [];
        totals, rejected, left, ending := AcknowledgeAll(w, settled, totals, |rows|, log);
        OnlyByJoins(env, w, start, sofar, trace);
        log := log + ending;
        DoneFrom(env, |rows|, log, totals, |left|, rejected, first, middle, writes);
      }
    }

    /** Settle a page whose objects have been deleted; break it if one of them has not been. */
    method FinishPage(w: Worker, rows: seq<Key>, deleted: bool, ghost begun: seq<Action>)
      returns (totals: Totals, rejected: bool, ghost left: seq<Key>, ghost log: seq<Action>)
      requires Valid() && Alone(env, w) && Distinct(rows) && HoldsRows(world, w, rows)
      requires forall k | k in rows :: CopyOf(world, w, k).Some?
      requires deleted ==> Midway(world, w, [], rows)
      requires Count(begun, AClaim) == |rows| && (deleted <==> Count(begun, AFailedDelete) == 0)
      requires forall kind | kind != AClaim && kind != AFailedDelete :: Count(begun, kind) == 0
      modifies this
      ensures Valid() && HoldsRows(world, w, left) && OnlyBy(env, w, old(trace), trace)
      ensures Own(trace, w) == Own(old(trace), w) + log
      ensures old(writes) <= writes && (left != [] ==> rejected) && totals.claimed == |rows|
      ensures PageReported(env, begun + log, totals, |left|, rejected, deleted, old(writes), writes)
      ensures deleted ==>
                forall i: nat | FirstFailure(env, EarlyCopies(old(world), w, rows), old(writes), i) ::
                  totals == Totals(|rows|, 0, i, |rows|)
    {
      hide CopyOf, Own, OnlyBy, EarlyCopies, FirstFailure, HoldsRows, Distinct, Midway, Count, NeverDown, EachOf;
      hide RowsLog, UpToBreak, PageCopies;
      if deleted {
        ghost var runs;
        totals, rejected, left, log, runs := SettlePage(w, rows);
        PageSettled(begun, log, |rows|, |left|);
        SettledReported(env, begun, log, |rows|, totals, |left|, rejected, old(writes), writes);
      } else {
        totals, rejected, left := BreakPage(w, rows, Totals(|rows|, 0, 0, 0), false);
        log := EachOf(rows, w, GiveEvent(!rejected));
        PageUndeleted(begun, rows, w, !rejected);
      }
    }

    /**
     * Claim a page, delete its objects, and settle its rows. The drain is rejected when the claim fails, or
     * when the claims of a broken page cannot be given back. The report is the one that belongs to the log of
     * the page. The log shows a failed delete exactly when one of the deletes failed, and an interruption
     * exactly when one of the later transactions did.
     */
    method DrainPage(w: Worker, limit: nat, pick: Selection)
      returns (totals: Totals, rejected: bool, ghost left: seq<Key>, ghost page: seq<Key>, ghost log: seq<Action>)
      requires Valid() && Alone(env, w) && Unseen(world, w)
      modifies this
      ensures Valid() && HoldsRows(world, w, left) && OnlyBy(env, w, old(trace), trace)
      ensures Own(trace, w) == Own(old(trace), w) + log
      ensures old(writes) < writes && (left != [] ==> rejected) && totals.claimed == |page| <= limit
      ensures old(trace) + env.others(old(calls)) <= trace
      ensures var begun, free := Run(old(world), env.others(old(calls))), pick.Without(env.locked(old(calls)));
              if env.down(old(writes)) then rejected && page == [] && log == [] && totals == Totals(0, 0, 0, 0)
              else
                && PageOf(begun, page, limit, free)
                && (|page| < limit ==> forall k: Key | Due(begun, k, free) :: k in page)
                && Begun(env.reply, page, w, pick.quotaAvailable, old(calls) + 1) <= log
                && PageReported(env, log, totals, |left|, rejected,
                                RepliesOk(env.reply, old(calls) + 1, old(calls) + 1 + |page|), old(writes) + 1, writes)
      ensures forall i: nat |
                && !env.down(old(writes)) && RepliesOk(env.reply, old(calls) + 1, old(calls) + 1 + |page|)
                && FirstFailure(env, EarlyRows(Run(old(world), env.others(old(calls))), page), old(writes) + 1, i) ::
                totals == Totals(|page|, 0, i, |page|)
    {
      hide *;
      ghost var start := trace;
      var committed := Commits();
      var free := pick.Without(env.locked(calls));
      Pause(w);
      ghost var begun, claiming := world, trace;
      WithoutKeeps(pick, env.locked(calls - 1));
      ValidMeans();
      StartOfPage(env, w, start, trace, world);
      totals, rejected, left, page, log := Totals(0, 0, 0, 0), true, [], [], [];
      if !committed {
        NoLog(Own(trace, w));
        return;
      }
      var rows := ClaimPage(w, limit, free);
      page := rows;
      OnlyByJoins(env, w, start, claiming, trace);
      ghost var claimed, deleting := world, trace;
      HeldAreFetched(begun, claimed, w, rows);
      PageIsDistinct(begun, rows, limit, free);
      ghost var call := calls;
      var deleted := DeletePage(w, rows);
      OnlyByJoins(env, w, start, deleting, trace);
      OnlyByJoins(env, w, claiming, deleting, trace);
      EarlyPage(begun, claimed, world, w, rows);
      if deleted {
        StartsMidway(world, w, rows);
      }
      ghost var settling, opening := trace, Begun(env.reply, rows, w, pick.quotaAvailable, call);
      CountBegun(env.reply, rows, w, pick.quotaAvailable, call);
      BegunIs(env.reply, rows, w, pick.quotaAvailable, call, Own(start, w));
      StillHeld(world, w, rows);
      ghost var ending;
      totals, rejected, left, ending := FinishPage(w, rows, deleted, opening);
      OnlyByJoins(env, w, start, settling, trace);
      OnlyByJoins(env, w, claiming, settling, trace);
      OnlyByGrows(env, w, claiming, trace);
      log := opening + ending;
      assert Own(start, w) + opening + ending == Own(start, w) + log;
    }

    /**
     * Drain up to `maxPages` pages of the first due rows, until one is not full; each page claims under its own
     * token. The totals are lost when the drain is rejected.
     */
    method Drain(first: Worker, pageSize: int, maxPages: int, pick: Selection)
      returns (totals: Totals, rejected: bool, ghost pages: nat)
      requires Valid() && forall v: Worker | first <= v :: Alone(env, v) && Foreign(trace, v)
      modifies this
      ensures Valid() && old(writes) <= writes
      ensures !rejected ==> totals == Reported(trace, first, pages) && PagesAccounted(trace, first, pages)
      ensures !rejected ==>
                Drained(env, old(trace), trace, first, pages,
                        if pageSize < 1 then 1 else if 500 < pageSize then 500 else pageSize,
                        if maxPages < 1 then 1 else maxPages, pick)
      ensures NeverDown(env, old(writes), writes) ==> !rejected && totals.Balanced()
    {
      hide *;
      var limit: nat := if pageSize < 1 then 1 else if 500 < pageSize then 500 else pageSize;
      var most: nat := if maxPages < 1 then 1 else maxPages;
      totals, rejected, pages := Totals(0, 0, 0, 0), false, 0;
      NoPages(env, trace, trace, first, limit, pick);
      NothingOwn(trace, first);
      ghost var start := writes;
      var page: nat := 0;
      while page < most
        invariant Valid() && start <= writes && pages == page <= most
        invariant forall v: Worker | first <= v :: Alone(env, v)
        invariant forall v: Worker | first + page <= v :: Own(trace, v) == []
        invariant totals == Reported(trace, first, page) && PagesAccounted(trace, first, page)
        invariant old(trace) <= trace && PagesTaken(env, old(trace), trace, first, page, limit, pick)
        invariant PagesFull(trace, first, page, limit)
        invariant NeverDown(env, start, writes) ==> totals.Balanced()
        decreases most - page
      {
        ghost var before, was, begun, call := trace, world, writes, calls + 1;
        ValidMeans();
        FreshToken(trace, first + page);
        var one, failed, left, rows, log := DrainPage(first + page, limit, pick);
        ghost var deleted := RepliesOk(env.reply, call, call + |rows|);
        OthersStay(env, old(trace), before, trace, first, page, limit, pick);
        if failed {
          RejectedIsDown(env, log, one, |left|, deleted, start, begun, writes);
          return totals, true, page;
        }
        WasDue(env, before, was, rows, limit, pick, call - 1);
        ghost var others := env.others(call - 1);
        LogsAreComplete(env, call - 1, before, trace, first, page);
        PageTaken(env, old(trace), before + others, trace, first, page, rows, limit, pick, call - 1, log, one, |left|,
                  deleted, begun + 1, writes);
        PageAdded(env, trace, first, page, log, one, totals, |left|, deleted, start, begun, writes);
        totals := totals.Plus(one);
        page := page + 1;
        pages := page;
        if one.claimed < limit {
          DrainEnds(env, old(trace), trace, first, pages, limit, most, pick);
          break;
        }
      }
      if PagesFull(trace, first, pages, limit) {
        DrainEnds(env, old(trace), trace, first, pages, limit, most, pick);
      }
    }
  }
}
