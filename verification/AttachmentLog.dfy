/**
 * What a drain has done, as the log of its events shows, and what it reports. The report is stated as a
 * function of the log alone.
 */
module AttachmentLog {
  import opened Wrappers
  import opened AttachmentProtocol

  // ---------------------------------------------------------------------
  // Whose actions they are
  // ---------------------------------------------------------------------

  predicate Uses(action: Action, w: Worker) {
    action.Do? && match action.event
                  case OfConfirm(v, _) => v == w
                  case OfSweep(v, _) => v == w
                  case OfDrain(v, _) => v == w
                  case _ => false
  }

  predicate Foreign(actions: seq<Action>, w: Worker) {
    forall i | 0 <= i < |actions| :: !Uses(actions[i], w)
  }

  /** The actions of worker `w`: its log. */
  function Own(actions: seq<Action>, w: Worker): seq<Action> {
    if actions == [] then []
    else
      var last := actions[|actions| - 1];
      Own(actions[..|actions| - 1], w) + if Uses(last, w) then [last] else []
  }

  lemma {:induction false} OwnConcat(actions: seq<Action>, more: seq<Action>, w: Worker)
    ensures Own(actions + more, w) == Own(actions, w) + Own(more, w)
  {
    if more == [] {
      assert actions + more == actions;
    } else {
      OwnConcat(actions, more[..|more| - 1], w);
      assert (actions + more)[..|actions + more| - 1] == actions + more[..|more| - 1];
    }
  }

  lemma {:induction false} OwnForeign(actions: seq<Action>, w: Worker)
    ensures Foreign(actions, w) <==> Own(actions, w) == []
  {
    if actions != [] {
      var most := actions[..|actions| - 1];
      OwnForeign(most, w);
      assert Foreign(actions, w) <==> Foreign(most, w) && !Uses(actions[|actions| - 1], w) by {
        assert forall i | 0 <= i < |most| :: actions[i] == most[i];
      }
    }
  }

  // ---------------------------------------------------------------------
  // Counting a log
  // ---------------------------------------------------------------------

  /** What a drain reports; a page that breaks is counted as failed as a whole. */
  datatype Totals = Totals(claimed: nat, deleted: nat, deferred: nat, failed: nat) {
    function Sum(): nat {
      deleted + deferred + failed
    }

    predicate Balanced() {
      claimed == Sum()
    }

    function Plus(t: Totals): Totals {
      Totals(claimed + t.claimed, deleted + t.deleted, deferred + t.deferred, failed + t.failed)
    }
  }

  /** What is counted in a log; an interruption is a transaction on rows that failed. */
  datatype Kind =
    | AClaim
    | AFailedDelete
    | ADeferral
    | AFailure
    | AnAcknowledgement
    | AReturn
    | AnInterruption
    | AnUnrecordedFailure

  predicate Is(d: DrainEvent, kind: Kind) {
    match kind
    case AClaim => d.DrainClaim?
    case AFailedDelete => d.DrainDelete? && !d.reply.Success?
    case ADeferral => d.DrainDefer?
    case AFailure => d.DrainFail?
    case AnAcknowledgement => d.DrainAcknowledge?
    case AReturn => d.DrainGiveBack?
    case AnInterruption => d.DrainDown? && !d.transaction.GivingBack?
    case AnUnrecordedFailure => d.DrainDown? && d.transaction.Recording?
  }

  function One(action: Action, kind: Kind): nat {
    if action.Do? && action.event.OfDrain? && Is(action.event.d, kind) then 1 else 0
  }

  function Count(log: seq<Action>, kind: Kind): nat {
    if log == [] then 0 else Count(log[..|log| - 1], kind) + One(log[|log| - 1], kind)
  }

  lemma CountNothing(kind: Kind)
    ensures Count([], kind) == 0
  {
  }

  lemma CountSnoc(log: seq<Action>, action: Action, kind: Kind)
    ensures Count(log + [action], kind) == Count(log, kind) + One(action, kind)
  {
    assert (log + [action])[..|log|] == log;
  }

  lemma {:induction false} CountConcat(log: seq<Action>, more: seq<Action>, kind: Kind)
    ensures Count(log + more, kind) == Count(log, kind) + Count(more, kind)
  {
    if more == [] {
      assert log + more == log;
    } else {
      CountConcat(log, more[..|more| - 1], kind);
      assert (log + more)[..|log + more| - 1] == log + more[..|more| - 1];
    }
  }

  /** A delete or a transaction after the claim has failed. */
  predicate Broke(log: seq<Action>) {
    Count(log, AFailedDelete) + Count(log, AnInterruption) > 0
  }

  /** Deferrals and failures, among them the failure that could not be recorded. */
  function Outcomes(log: seq<Action>): nat {
    Count(log, ADeferral) + Count(log, AFailure) + Count(log, AnUnrecordedFailure)
  }

  /** The report of a page of so many claims. A page that breaks is counted as failed as a whole. */
  function ReportOf(claimed: nat, log: seq<Action>): Totals {
    Totals(claimed, Count(log, AnAcknowledgement), Count(log, ADeferral),
           Count(log, AFailure) + Count(log, AnUnrecordedFailure) + if Broke(log) then claimed else 0)
  }

  function Report(log: seq<Action>): Totals {
    ReportOf(Count(log, AClaim), log)
  }

  /** Every claim of a page has ended in exactly one way, or is one of those still held. */
  predicate AccountedFor(claimed: nat, log: seq<Action>, held: nat) {
    && claimed == Count(log, ADeferral) + Count(log, AFailure) + Count(log, AnAcknowledgement)
                  + Count(log, AReturn) + held
    && (Broke(log) ==> Count(log, AnAcknowledgement) == 0)
    && (!Broke(log) ==> Count(log, AReturn) == Count(log, AnUnrecordedFailure) == held == 0)
    && (Count(log, AFailedDelete) > 0 ==> Outcomes(log) == Count(log, AnInterruption) == 0)
  }

  predicate Accounted(log: seq<Action>, held: nat) {
    AccountedFor(Count(log, AClaim), log, held)
  }

  /** The page broke after something had been counted. */
  predicate CountsTwice(log: seq<Action>) {
    Broke(log) && Outcomes(log) > 0
  }

  /** What is reported exceeds the claims by what had been counted when the page broke. */
  lemma ReportSum(log: seq<Action>)
    requires Accounted(log, 0)
    ensures Report(log).Sum() == Count(log, AClaim) + if Broke(log) then Outcomes(log) else 0
    ensures Report(log).Balanced() <==> !CountsTwice(log)
    ensures Count(log, AnInterruption) == 0 ==> Report(log).Balanced()
  {
    hide Count;
  }

  // ---------------------------------------------------------------------
  // A drain of several pages
  // ---------------------------------------------------------------------

  /** The reports of `n` pages, each of which ran under a token of its own. */
  function Reported(trace: seq<Action>, first: Worker, n: nat): Totals {
    if n == 0 then Totals(0, 0, 0, 0)
    else Reported(trace, first, n - 1).Plus(Report(Own(trace, first + n - 1)))
  }

  ghost predicate PagesAccounted(trace: seq<Action>, first: Worker, n: nat) {
    forall v: Worker | first <= v < first + n :: Accounted(Own(trace, v), 0)
  }

  /** No page broke after a deferral or a failure had been counted. */
  ghost predicate CountedOnce(trace: seq<Action>, first: Worker, n: nat) {
    forall v: Worker | first <= v < first + n :: !CountsTwice(Own(trace, v))
  }

  lemma CountedOnceMore(trace: seq<Action>, first: Worker, n: nat)
    ensures n == 0 ==> CountedOnce(trace, first, n)
    ensures n > 0 ==>
              (CountedOnce(trace, first, n)
               <==> CountedOnce(trace, first, n - 1) && !CountsTwice(Own(trace, first + n - 1)))
  {
    hide CountsTwice, Own;
  }

  /** The totals of a drain balance exactly when no page broke after something had been counted. */
  lemma {:induction false} BalancedExactly(trace: seq<Action>, first: Worker, n: nat)
    requires PagesAccounted(trace, first, n)
    ensures Reported(trace, first, n).claimed <= Reported(trace, first, n).Sum()
    ensures Reported(trace, first, n).Balanced() <==> CountedOnce(trace, first, n)
  {
    hide Accounted, Report, CountsTwice, Own, Broke, Outcomes, CountedOnce;
    CountedOnceMore(trace, first, n);
    if n > 0 {
      var last := Own(trace, first + n - 1);
      BalancedExactly(trace, first, n - 1);
      ReportSum(last);
      assert Reported(trace, first, n) == Reported(trace, first, n - 1).Plus(Report(last));
      ReportClaims(last);
    }
  }

  lemma ReportClaims(log: seq<Action>)
    ensures Report(log).claimed == Count(log, AClaim)
  {
  }

  lemma {:induction false} ReportedStays(trace: seq<Action>, longer: seq<Action>, first: Worker, n: nat)
    requires forall v: Worker | first <= v < first + n :: Own(longer, v) == Own(trace, v)
    ensures Reported(longer, first, n) == Reported(trace, first, n)
    ensures PagesAccounted(trace, first, n) ==> PagesAccounted(longer, first, n)
  {
    hide Report, Own, Accounted;
    if n > 0 {
      ReportedStays(trace, longer, first, n - 1);
    }
  }

  // ---------------------------------------------------------------------
  // The same event for several rows
  // ---------------------------------------------------------------------

  function EachOf(rows: seq<Key>, w: Worker, d: DrainEvent): seq<Action> {
    if rows == [] then [] else EachOf(rows[..|rows| - 1], w, d) + [Do(rows[|rows| - 1], OfDrain(w, d))]
  }

  lemma EachMore(rows: seq<Key>, w: Worker, d: DrainEvent, i: nat)
    requires i < |rows|
    ensures EachOf(rows[..i + 1], w, d) == EachOf(rows[..i], w, d) + [Do(rows[i], OfDrain(w, d))]
  {
    assert rows[..i + 1][..i] == rows[..i];
  }

  lemma {:induction false} CountEach(rows: seq<Key>, w: Worker, d: DrainEvent, kind: Kind)
    ensures Count(EachOf(rows, w, d), kind) == if Is(d, kind) then |rows| else 0
  {
    if rows != [] {
      var most := rows[..|rows| - 1];
      CountEach(most, w, d, kind);
      CountSnoc(EachOf(most, w, d), Do(rows[|rows| - 1], OfDrain(w, d)), kind);
    }
  }

  /** The deletes of the first `n` rows, with the replies from the `call`-th on. */
  function Deletes(replies: nat -> Reply, rows: seq<Key>, n: nat, w: Worker, call: nat): seq<Action>
    requires n <= |rows|
  {
    if n == 0 then []
    else Deletes(replies, rows, n - 1, w, call) + [Do(rows[n - 1], OfDrain(w, DrainDelete(replies(call + n - 1))))]
  }

  ghost predicate RepliesOk(replies: nat -> Reply, lo: nat, hi: nat) {
    forall n: nat | lo <= n < hi :: replies(n).Success?
  }

  lemma {:induction false} CountDeletes(replies: nat -> Reply, rows: seq<Key>, n: nat, w: Worker, call: nat,
          kind: Kind)
    requires n <= |rows|
    ensures kind != AFailedDelete ==> Count(Deletes(replies, rows, n, w, call), kind) == 0
    ensures Count(Deletes(replies, rows, n, w, call), AFailedDelete) == 0 <==> RepliesOk(replies, call, call + n)
  {
    CountNothing(kind);
    CountNothing(AFailedDelete);
    hide Count;
    if n > 0 {
      var most, last := Deletes(replies, rows, n - 1, w, call), replies(call + n - 1);
      CountDeletes(replies, rows, n - 1, w, call, kind);
      CountSnoc(most, Do(rows[n - 1], OfDrain(w, DrainDelete(last))), kind);
      CountSnoc(most, Do(rows[n - 1], OfDrain(w, DrainDelete(last))), AFailedDelete);
    }
  }

  // ---------------------------------------------------------------------
  // The calls to the quota adapter
  // ---------------------------------------------------------------------

  datatype QuotaCall = Reserving | Finalizing | ReleasingReservation | ReleasingCommitted

  function EventOf(call: QuotaCall, reply: Reply): DrainEvent {
    match call
    case Reserving => DrainReserve(reply)
    case Finalizing => DrainFinalize(reply)
    case ReleasingReservation => DrainReleaseReservation(reply)
    case ReleasingCommitted => DrainReleaseCommitted(reply)
  }

  function DoneOf(call: QuotaCall): DrainPhase {
    match call
    case Reserving => ReserveDone
    case Finalizing => FinalizeDone
    case _ => Settled
  }

  /** The calls that give the quota of a row back, in order; none if the identifier of the reservation is missing. */
  function CallsFor(c: Drain): seq<QuotaCall> {
    match c.kind
    case NoRelease => []
    case OfReservePending => [Reserving, ReleasingReservation]
    case OfReservation => if c.reservationId then [ReleasingReservation] else []
    case OfFinalizePending => if c.reservationId then [Finalizing, ReleasingCommitted] else []
    case OfCommitted => [ReleasingCommitted]
  }

  /** The calls that have been made, with their replies. */
  function Called(k: Key, w: Worker, calls: seq<QuotaCall>, replies: seq<Reply>): seq<Action>
    requires |replies| <= |calls|
  {
    if replies == [] then []
    else
      var n := |replies| - 1;
      Called(k, w, calls, replies[..n]) + [Do(k, OfDrain(w, EventOf(calls[n], replies[n])))]
  }

  lemma {:induction false} CountCalls(k: Key, w: Worker, calls: seq<QuotaCall>, replies: seq<Reply>, kind: Kind)
    requires |replies| <= |calls|
    ensures Count(Called(k, w, calls, replies), kind) == 0
  {
    if replies != [] {
      var n := |replies| - 1;
      CountCalls(k, w, calls, replies[..n], kind);
      CountSnoc(Called(k, w, calls, replies[..n]), Do(k, OfDrain(w, EventOf(calls[n], replies[n]))), kind);
    }
  }

  /** Calls are made until one fails. */
  predicate UpToFailure(calls: seq<QuotaCall>, replies: seq<Reply>) {
    && |replies| <= |calls|
    && (forall i | 0 <= i < |replies| - 1 :: replies[i].Success?)
    && (|replies| < |calls| ==> replies != [] && !replies[|replies| - 1].Success?)
  }

  datatype Outcome = QuotaReleased | Retry | TerminalRejection

  function OutcomeOf(c: Drain, replies: seq<Reply>): Outcome {
    if c.kind == NoRelease then QuotaReleased
    else if replies == [] then Retry
    else match replies[|replies| - 1]
      case Success => QuotaReleased
      case Retryable(_) => Retry
      case Terminal(_) => TerminalRejection
  }

  // ---------------------------------------------------------------------
  // The rows of a page
  // ---------------------------------------------------------------------

  /** How the adapter replied for a row, and whether the transaction on the row, if any, succeeded. */
  datatype RowRun = RowRun(replies: seq<Reply>, committed: bool)

  datatype RowResult = DeferredRow | FailedRow | SettledRow | BrokenRow(unrecorded: bool)

  predicate RunOk(c: Drain, run: RowRun) {
    if c.FinalPass() then UpToFailure(CallsFor(c), run.replies) else run.replies == []
  }

  function ResultOf(c: Drain, run: RowRun): RowResult {
    if !c.FinalPass() then (if run.committed then DeferredRow else BrokenRow(false))
    else if OutcomeOf(c, run.replies) != Retry then SettledRow
    else if run.committed then FailedRow
    else BrokenRow(true)
  }

  /**
   * The log of a row. Before the last pass it is deferred; on the last pass its quota is released, and a
   * retryable failure is recorded.
   */
  function RowLog(k: Key, w: Worker, c: Drain, run: RowRun): seq<Action>
    requires RunOk(c, run)
  {
    if !c.FinalPass() then [Do(k, OfDrain(w, if run.committed then DrainDefer else DrainDown(Deferring)))]
    else
      Called(k, w, CallsFor(c), run.replies)
      + if OutcomeOf(c, run.replies) != Retry then []
        else [Do(k, OfDrain(w, if run.committed then DrainFail else DrainDown(Recording)))]
  }

  /** What the result of a row adds. */
  function Adds(result: RowResult, kind: Kind): nat {
    match kind
    case ADeferral => if result.DeferredRow? then 1 else 0
    case AFailure => if result.FailedRow? then 1 else 0
    case AnInterruption => if result.BrokenRow? then 1 else 0
    case AnUnrecordedFailure => if result.BrokenRow? && result.unrecorded then 1 else 0
    case _ => 0
  }

  lemma CountRow(k: Key, w: Worker, c: Drain, run: RowRun, kind: Kind)
    requires RunOk(c, run)
    ensures Count(RowLog(k, w, c, run), kind) == Adds(ResultOf(c, run), kind)
  {
    CountNothing(kind);
    hide Count, Called, CallsFor, OutcomeOf, UpToFailure;
    if c.FinalPass() {
      CallsMade(c, run);
      var calls := Called(k, w, CallsFor(c), run.replies);
      CountCalls(k, w, CallsFor(c), run.replies, kind);
      CountSnoc(calls, Do(k, OfDrain(w, if run.committed then DrainFail else DrainDown(Recording))), kind);
      assert calls + [] == calls;
    } else {
      var action := Do(k, OfDrain(w, if run.committed then DrainDefer else DrainDown(Deferring)));
      CountSnoc([], action, kind);
      assert [] + [action] == [action];
    }
  }

  lemma CallsMade(c: Drain, run: RowRun)
    requires RunOk(c, run) && c.FinalPass()
    ensures |run.replies| <= |CallsFor(c)|
  {
  }

  predicate RunsOk(copies: seq<Drain>, runs: seq<RowRun>) {
    |runs| <= |copies| && forall i | 0 <= i < |runs| :: RunOk(copies[i], runs[i])
  }

  /** The log of the first rows of a page. */
  function RowsLog(rows: seq<Key>, w: Worker, copies: seq<Drain>, runs: seq<RowRun>): seq<Action>
    requires |rows| == |copies| && RunsOk(copies, runs)
  {
    if runs == [] then []
    else
      var n := |runs| - 1;
      RowsLog(rows, w, copies, runs[..n]) + RowLog(rows[n], w, copies[n], runs[n])
  }

  /** The page is worked off in order until a row breaks it. */
  predicate UpToBreak(copies: seq<Drain>, runs: seq<RowRun>) {
    && RunsOk(copies, runs)
    && (forall i | 0 <= i < |runs| - 1 :: !ResultOf(copies[i], runs[i]).BrokenRow?)
    && (|runs| < |copies| ==> LastBroke(copies, runs))
  }

  predicate LastBroke(copies: seq<Drain>, runs: seq<RowRun>)
    requires RunsOk(copies, runs)
  {
    runs != [] && ResultOf(copies[|runs| - 1], runs[|runs| - 1]).BrokenRow?
  }

  /** The result of a row has been counted before the page as a whole is. */
  predicate Counted(result: RowResult) {
    result == DeferredRow || result == FailedRow || result == BrokenRow(true)
  }

  predicate SomeCounted(copies: seq<Drain>, runs: seq<RowRun>)
    requires RunsOk(copies, runs)
  {
    exists i | 0 <= i < |runs| :: Counted(ResultOf(copies[i], runs[i]))
  }

  lemma SomeCountedMore(copies: seq<Drain>, runs: seq<RowRun>, run: RowRun)
    requires RunsOk(copies, runs) && |runs| < |copies| && RunOk(copies[|runs|], run)
    ensures SomeCounted(copies, runs + [run]) <==>
            SomeCounted(copies, runs) || Counted(ResultOf(copies[|runs|], run))
  {
    hide ResultOf, RunOk, Counted;
    var more := runs + [run];
    if i :| 0 <= i < |runs| && Counted(ResultOf(copies[i], runs[i])) {
      assert more[i] == runs[i];
    }
    assert more[|runs|] == run;
  }

  /** All rows so far have gone well. */
  predicate AllWell(copies: seq<Drain>, runs: seq<RowRun>) {
    RunsOk(copies, runs) && forall i | 0 <= i < |runs| :: !ResultOf(copies[i], runs[i]).BrokenRow?
  }

  lemma AllWellUp(copies: seq<Drain>, runs: seq<RowRun>)
    requires AllWell(copies, runs) && |runs| == |copies|
    ensures UpToBreak(copies, runs) && !LastBroke(copies, runs)
  {
  }

  lemma RowAppended(rows: seq<Key>, w: Worker, copies: seq<Drain>, runs: seq<RowRun>, run: RowRun)
    requires |rows| == |copies| && RunsOk(copies, runs) && |runs| < |rows| && RunOk(copies[|runs|], run)
    ensures var n, more := |runs|, runs + [run];
            && RunsOk(copies, more)
            && RowsLog(rows, w, copies, more) == RowsLog(rows, w, copies, runs) + RowLog(rows[n], w, copies[n], run)
  {
    hide RunOk, RowLog;
    assert (runs + [run])[..|runs|] == runs;
  }

  lemma RowGoes(copies: seq<Drain>, runs: seq<RowRun>, run: RowRun)
    requires AllWell(copies, runs) && |runs| < |copies| && RunOk(copies[|runs|], run)
    ensures if ResultOf(copies[|runs|], run).BrokenRow?
            then UpToBreak(copies, runs + [run]) && LastBroke(copies, runs + [run])
            else AllWell(copies, runs + [run])
  {
    hide RunOk, ResultOf;
  }

  lemma RowCounted(log: seq<Action>, k: Key, w: Worker, c: Drain, run: RowRun)
    requires RunOk(c, run)
    ensures forall kind ::
              Count(log + RowLog(k, w, c, run), kind) == Count(log, kind) + Adds(ResultOf(c, run), kind)
  {
    hide Count, RowLog, RunOk, ResultOf, Adds;
    forall kind
      ensures Count(log + RowLog(k, w, c, run), kind) == Count(log, kind) + Adds(ResultOf(c, run), kind)
    {
      CountRow(k, w, c, run, kind);
      CountConcat(log, RowLog(k, w, c, run), kind);
    }
  }

  /** The page goes on with row `|runs|`. */
  lemma OneMoreRow(rows: seq<Key>, w: Worker, copies: seq<Drain>, runs: seq<RowRun>, run: RowRun)
    requires |rows| == |copies| && AllWell(copies, runs) && |runs| < |rows| && RunOk(copies[|runs|], run)
    ensures var n, more := |runs|, runs + [run];
            && RunsOk(copies, more)
            && RowsLog(rows, w, copies, more) == RowsLog(rows, w, copies, runs) + RowLog(rows[n], w, copies[n], run)
            && (if ResultOf(copies[n], run).BrokenRow? then UpToBreak(copies, more) && LastBroke(copies, more)
                else AllWell(copies, more))
    ensures forall kind :: Count(RowsLog(rows, w, copies, runs + [run]), kind)
                         == Count(RowsLog(rows, w, copies, runs), kind) + Adds(ResultOf(copies[|runs|], run), kind)
  {
    hide Count, RowsLog, RowLog, RunOk, ResultOf, Adds, UpToBreak, LastBroke;
    RowAppended(rows, w, copies, runs, run);
    RowGoes(copies, runs, run);
    RowCounted(RowsLog(rows, w, copies, runs), rows[|runs|], w, copies[|runs|], run);
  }

  // ---------------------------------------------------------------------
  // The whole page
  // ---------------------------------------------------------------------

  /** What the result of a row adds to the totals; a row that breaks the page counts all of it. */
  function Counting(totals: Totals, result: RowResult): Totals {
    match result
    case DeferredRow => totals.(deferred := totals.deferred + 1)
    case FailedRow => totals.(failed := totals.failed + 1)
    case SettledRow => totals
    case BrokenRow(unrecorded) =>
      totals.(failed := totals.failed + (if unrecorded then 1 else 0) + totals.claimed)
  }

  /** How the claims that are left of a broken page are given back. */
  function GiveEvent(ok: bool): DrainEvent {
    if ok then DrainGiveBack else DrainDown(GivingBack)
  }

  /** The first `done` rows of a page have gone well, and `settled` of them wait for the acknowledgement. */
  predicate Running(claimed: nat, log: seq<Action>, totals: Totals, settled: nat, done: nat) {
    && totals == Totals(claimed, 0, Count(log, ADeferral), Count(log, AFailure))
    && Count(log, AClaim) == Count(log, AnAcknowledgement) == Count(log, AReturn) == 0
    && Count(log, AFailedDelete) == Count(log, AnInterruption) == Count(log, AnUnrecordedFailure) == 0
    && Count(log, ADeferral) + Count(log, AFailure) + settled == done
  }

  lemma RunningMore(claimed: nat, log: seq<Action>, more: seq<Action>, totals: Totals, settled: nat, done: nat,
          result: RowResult)
    requires Running(claimed, log, totals, settled, done) && !result.BrokenRow?
    requires forall kind :: Count(more, kind) == Count(log, kind) + Adds(result, kind)
    ensures Running(claimed, more, Counting(totals, result), settled + (if result.SettledRow? then 1 else 0), done + 1)
    ensures Outcomes(more) == Outcomes(log) + if Counted(result) then 1 else 0
  {
    hide Count;
  }

  /** A row breaks the page, and what is left is given back. */
  lemma RowBreaks(claimed: nat, log: seq<Action>, more: seq<Action>, totals: Totals, settled: nat, done: nat,
          result: RowResult, left: seq<Key>, w: Worker, ok: bool)
    requires Running(claimed, log, totals, settled, done) && result.BrokenRow?
    requires forall kind :: Count(more, kind) == Count(log, kind) + Adds(result, kind)
    requires |left| + done == claimed + settled
    ensures var all := more + EachOf(left, w, GiveEvent(ok));
            && ReportOf(claimed, all) == Counting(totals, result)
            && AccountedFor(claimed, all, if ok then 0 else |left|)
            && Count(all, AnInterruption) == 1 && Count(all, AFailedDelete) == Count(all, AClaim) == 0
            && (Count(all, AnUnrecordedFailure) == if result.unrecorded then 1 else 0)
            && Outcomes(all) == Outcomes(more) == Outcomes(log) + if Counted(result) then 1 else 0
  {
    var d := GiveEvent(ok);
    forall kind
      ensures Count(more + EachOf(left, w, d), kind) == Count(more, kind) + if Is(d, kind) then |left| else 0
    {
      CountConcat(more, EachOf(left, w, d), kind);
      CountEach(left, w, d, kind);
    }
    hide Count, EachOf;
  }

  /** No row waits for an acknowledgement. */
  lemma PageQuiet(claimed: nat, log: seq<Action>, totals: Totals)
    requires Running(claimed, log, totals, 0, claimed)
    ensures ReportOf(claimed, log) == totals && AccountedFor(claimed, log, 0)
    ensures Count(log, AnInterruption) == Count(log, AFailedDelete) == Count(log, AClaim) == 0
    ensures Count(log, AnUnrecordedFailure) == 0
  {
    hide Count;
  }

  /** The settled rows are acknowledged. */
  lemma PageAcknowledged(claimed: nat, log: seq<Action>, totals: Totals, settled: seq<Key>, w: Worker)
    requires Running(claimed, log, totals, |settled|, claimed)
    ensures var all := log + EachOf(settled, w, DrainAcknowledge);
            && ReportOf(claimed, all) == totals.(deleted := |settled|) && AccountedFor(claimed, all, 0)
            && Count(all, AnInterruption) == Count(all, AFailedDelete) == Count(all, AClaim) == 0
            && Count(all, AnUnrecordedFailure) == 0 && Outcomes(all) == Outcomes(log)
  {
    var d := DrainAcknowledge;
    forall kind
      ensures Count(log + EachOf(settled, w, d), kind) == Count(log, kind) + if Is(d, kind) then |settled| else 0
    {
      CountConcat(log, EachOf(settled, w, d), kind);
      CountEach(settled, w, d, kind);
    }
    hide Count, EachOf;
  }

  /** The acknowledgement fails, and the settled rows are given back. */
  lemma AcknowledgementBreaks(claimed: nat, log: seq<Action>, totals: Totals, settled: seq<Key>, w: Worker, ok: bool)
    requires Running(claimed, log, totals, |settled|, claimed) && settled != []
    ensures var all := log + (EachOf(settled, w, DrainDown(Acknowledging)) + EachOf(settled, w, GiveEvent(ok)));
            && ReportOf(claimed, all) == Counting(totals, BrokenRow(false))
            && AccountedFor(claimed, all, if ok then 0 else |settled|)
            && Count(all, AnInterruption) > 0 && Count(all, AFailedDelete) == Count(all, AClaim) == 0
            && Count(all, AnUnrecordedFailure) == 0 && Outcomes(all) == Outcomes(log)
  {
    var down, d := EachOf(settled, w, DrainDown(Acknowledging)), GiveEvent(ok);
    forall kind
      ensures Count(log + (down + EachOf(settled, w, d)), kind)
           == Count(log, kind) + (if Is(DrainDown(Acknowledging), kind) then |settled| else 0)
              + if Is(d, kind) then |settled| else 0
    {
      CountConcat(log, down + EachOf(settled, w, d), kind);
      CountConcat(down, EachOf(settled, w, d), kind);
      CountEach(settled, w, DrainDown(Acknowledging), kind);
      CountEach(settled, w, d, kind);
    }
    hide Count, EachOf;
  }

  /** The log of a page that has been claimed and whose objects have been deleted, successfully or not. */
  function Begun(replies: nat -> Reply, rows: seq<Key>, w: Worker, quotaAvailable: bool, call: nat): seq<Action> {
    EachOf(rows, w, DrainClaim(quotaAvailable)) + Deletes(replies, rows, |rows|, w, call)
  }

  lemma CountBegun(replies: nat -> Reply, rows: seq<Key>, w: Worker, quotaAvailable: bool, call: nat)
    ensures var log := Begun(replies, rows, w, quotaAvailable, call);
            && Count(log, AClaim) == |rows|
            && (Count(log, AFailedDelete) == 0 <==> RepliesOk(replies, call, call + |rows|))
            && forall kind | kind != AClaim && kind != AFailedDelete :: Count(log, kind) == 0
  {
    var claims, deletes := EachOf(rows, w, DrainClaim(quotaAvailable)), Deletes(replies, rows, |rows|, w, call);
    forall kind
      ensures Count(claims + deletes, kind) == (if kind == AClaim then |rows| else 0) + Count(deletes, kind)
      ensures kind != AFailedDelete ==> Count(deletes, kind) == 0
      ensures Count(deletes, AFailedDelete) == 0 <==> RepliesOk(replies, call, call + |rows|)
    {
      CountConcat(claims, deletes, kind);
      CountEach(rows, w, DrainClaim(quotaAvailable), kind);
      CountDeletes(replies, rows, |rows|, w, call, kind);
    }
    hide Count, EachOf, Deletes, RepliesOk;
  }

  /** The objects have been deleted, and the page has been settled as `log` says. */
  lemma PageSettled(begun: seq<Action>, log: seq<Action>, claimed: nat, held: nat)
    requires Count(begun, AClaim) == claimed && forall kind | kind != AClaim :: Count(begun, kind) == 0
    requires Count(log, AClaim) == Count(log, AFailedDelete) == 0 && AccountedFor(claimed, log, held)
    ensures Report(begun + log) == ReportOf(claimed, log) && Accounted(begun + log, held)
    ensures forall kind | kind != AClaim :: Count(begun + log, kind) == Count(log, kind)
  {
    forall kind ensures Count(begun + log, kind) == Count(begun, kind) + Count(log, kind) {
      CountConcat(begun, log, kind);
    }
    hide Count;
  }

  /** An object could not be deleted, and all claims are given back. */
  lemma PageUndeleted(begun: seq<Action>, rows: seq<Key>, w: Worker, ok: bool)
    requires Count(begun, AClaim) == |rows| && Count(begun, AFailedDelete) > 0
    requires forall kind | kind != AClaim && kind != AFailedDelete :: Count(begun, kind) == 0
    ensures var all := begun + EachOf(rows, w, GiveEvent(ok));
            && Report(all) == Totals(|rows|, 0, 0, |rows|) && Accounted(all, if ok then 0 else |rows|)
            && Count(all, AFailedDelete) > 0 && Count(all, AnInterruption) == 0
  {
    var d := GiveEvent(ok);
    hide Count, EachOf;
    forall kind
      ensures Count(begun + EachOf(rows, w, d), kind) == Count(begun, kind) + if Is(d, kind) then |rows| else 0
    {
      CountConcat(begun, EachOf(rows, w, d), kind);
      CountEach(rows, w, d, kind);
    }
  }
}
