/**
 * The durable record of an account purge, and the workers that compete to carry the plan out
 * under a lease.
 */
module PurgeSaga {
  import opened Wrappers

  type Step = string
  type Owner = nat
  type Time = nat

  /** A lease lasts 60 seconds and is never renewed. */
  const LEASE := 60

  // ---------------------------------------------------------------------
  // The plan
  // ---------------------------------------------------------------------

  const FIRST: seq<Step> := [
    "cancel_account_jobs", "settle_pending_attachment_uploads", "remove_collaboration_state",
    "remove_subject_created_shares", "remove_document_versions", "remove_chunks_and_embeddings",
    "remove_graph_state", "delete_attachment_objects", "release_attachment_quota", "remove_attachment_rows",
    "clear_redis_state"]

  const LAST: seq<Step> := [
    "remove_subject_documents", "remove_subject_folders", "remove_subject_tags", "remove_subject_categories",
    "remove_api_keys", "remove_auth_sessions", "remove_auth_accounts", "remove_subject_audit",
    "tombstone_subject_user", "write_deletion_audit"]

  function HostSteps(ids: seq<string>): seq<Step> {
    seq(|ids|, (i: nat) requires i < |ids| => "host:" + ids[i])
  }

  /** Host steps are sorted and have unique identifiers. */
  function Plan(hostIds: seq<string>): seq<Step> {
    FIRST + HostSteps(hostIds) + LAST
  }

  predicate Distinct<T(==)>(s: seq<T>) {
    forall i, j | 0 <= i < j < |s| :: s[i] != s[j]
  }

  // ---------------------------------------------------------------------
  // Record and workers
  // ---------------------------------------------------------------------

  datatype Status = Pending | Running | Retryable | Completed | Rejected

  datatype Record = Record(
    status: Status,
    owner: Option<Owner>,
    leaseExpires: Option<Time>,
    completed: seq<Step>,
    counts: map<Step, nat>,
    fenced: bool)

  /** `Acted` has done the work of the next step, which is not recorded yet; `Broken` handles an error. */
  datatype Phase = Acquired | Loaded | Ready | Acted | Broken

  datatype Task = Task(completed: seq<Step>, counts: map<Step, nat>, phase: Phase)

  /** `seen` are the lease owners that have been used; `actions` is what has been carried out so far. */
  datatype State = State(
    now: Time, record: Record, tasks: map<Owner, Task>, seen: set<Owner>, actions: seq<(Owner, Step)>)

  const START := State(0, Record(Pending, None, None, [], map[], false), map[], {}, [])

  datatype Event =
    | Tick(seconds: nat)
    | Acquire(w: Owner)
    | Load(w: Owner)
    | Fence(w: Owner)
    | Work(w: Owner, count: nat)
    | Persist(w: Owner)
    | Complete(w: Owner)
    | Break(w: Owner)
    | GiveUp(w: Owner, rejected: bool)
    | Crash(w: Owner)

  predicate Owns(r: Record, w: Owner) {
    r.owner == Some(w)
  }

  predicate Available(r: Record, now: Time) {
    || r.status == Pending || r.status == Retryable
    || (r.status == Running && r.leaseExpires.Some? && r.leaseExpires.value < now)
  }

  function SetTask(s: State, w: Owner, t: Task): State {
    s.(tasks := s.tasks[w := t])
  }

  predicate In(s: State, w: Owner, phase: Phase) {
    w in s.tasks && s.tasks[w].phase == phase
  }

  function DoAcquire(s: State, w: Owner): State {
    if w in s.seen || !Available(s.record, s.now) then s
    else
      s.(record := s.record.(status := Running, owner := Some(w), leaseExpires := Some(s.now + LEASE)),
         tasks := s.tasks[w := Task([], map[], Acquired)], seen := s.seen + {w})
  }

  /** The record is read again; meanwhile the lease may have passed to another worker. */
  function DoLoad(s: State, w: Owner): State {
    if !In(s, w, Acquired) then s
    else SetTask(s, w, Task(s.record.completed, s.record.counts, Loaded))
  }

  /** The fence is written before the first step; a worker without the lease stops here. */
  function DoFence(s: State, w: Owner): State {
    if !In(s, w, Loaded) then s
    else if Owns(s.record, w) then
      SetTask(s.(record := s.record.(fenced := true)), w, s.tasks[w].(phase := Ready))
    else s.(tasks := s.tasks - {w})
  }

  function NextStep(plan: seq<Step>, t: Task): Option<Step> {
    if |t.completed| < |plan| then Some(plan[|t.completed|]) else None
  }

  /** The action of the next step; it is not fenced. */
  function DoWork(plan: seq<Step>, s: State, w: Owner, count: nat): State {
    if !In(s, w, Ready) || NextStep(plan, s.tasks[w]).None? then s
    else
      var step := NextStep(plan, s.tasks[w]).value;
      SetTask(s.(actions := s.actions + [(w, step)]), w,
              s.tasks[w].(counts := s.tasks[w].counts[step := count], phase := Acted))
  }

  predicate LeaseValid(s: State, w: Owner) {
    && Owns(s.record, w) && s.record.status == Running
    && !(s.record.leaseExpires.Some? && s.record.leaseExpires.value < s.now)
  }

  function Added(completed: seq<Step>, step: Step): seq<Step> {
    if step in completed then completed else completed + [step]
  }

  /** Record the step together with all counts the worker knows of; without the lease the worker stops. */
  function DoPersist(plan: seq<Step>, s: State, w: Owner): State {
    if !In(s, w, Acted) || NextStep(plan, s.tasks[w]).None? then s
    else if LeaseValid(s, w) then
      var step := NextStep(plan, s.tasks[w]).value;
      SetTask(s.(record := s.record.(completed := Added(s.record.completed, step), counts := s.tasks[w].counts)),
              w, s.tasks[w].(completed := s.tasks[w].completed + [step], phase := Ready))
    else s.(tasks := s.tasks - {w})
  }

  function DoComplete(plan: seq<Step>, s: State, w: Owner): State {
    if !In(s, w, Ready) || NextStep(plan, s.tasks[w]).Some? then s
    else if Owns(s.record, w) then
      s.(record := s.record.(status := Completed, counts := s.tasks[w].counts, owner := None, leaseExpires := None),
         tasks := s.tasks - {w})
    else s.(tasks := s.tasks - {w})
  }

  /** Anything but a lost lease gives the operation up, for a retry or for good. */
  function DoGiveUp(s: State, w: Owner, rejected: bool): State {
    if w !in s.tasks then s
    else if Owns(s.record, w) then
      s.(record := s.record.(status := if rejected then Rejected else Retryable, owner := None, leaseExpires := None),
         tasks := s.tasks - {w})
    else s.(tasks := s.tasks - {w})
  }

  function Next(plan: seq<Step>, s: State, e: Event): State {
    match e
    case Tick(seconds) => s.(now := s.now + seconds)
    case Acquire(w) => DoAcquire(s, w)
    case Load(w) => DoLoad(s, w)
    case Fence(w) => DoFence(s, w)
    case Work(w, count) => DoWork(plan, s, w, count)
    case Persist(w) => DoPersist(plan, s, w)
    case Complete(w) => DoComplete(plan, s, w)
    case Break(w) => if w in s.tasks then SetTask(s, w, s.tasks[w].(phase := Broken)) else s
    case GiveUp(w, rejected) => DoGiveUp(s, w, rejected)
    case Crash(w) => s.(tasks := s.tasks - {w})
  }

  function Run(plan: seq<Step>, s: State, events: seq<Event>): State
    decreases |events|
  {
    if events == [] then s
    else Next(plan, Run(plan, s, events[..|events| - 1]), events[|events| - 1])
  }

  // ---------------------------------------------------------------------
  // The invariant
  // ---------------------------------------------------------------------

  /** Exactly these steps have a count. */
  ghost predicate CountsOf(counts: map<Step, nat>, completed: seq<Step>) {
    forall step :: step in counts <==> step in completed
  }

  ghost predicate RecordOk(plan: seq<Step>, r: Record) {
    && r.completed <= plan && CountsOf(r.counts, r.completed)
    && (r.status == Running <==> r.owner.Some?)
    && (r.status == Completed ==> r.completed == plan)
  }

  /** A worker's copy is behind the record, and level with it while the worker owns the lease. */
  ghost predicate TaskOk(plan: seq<Step>, r: Record, w: Owner, t: Task) {
    t.phase != Acquired && t.phase != Broken ==>
      && t.completed <= r.completed
      && CountsOf(t.counts, if t.phase == Acted && |t.completed| < |plan| then t.completed + [plan[|t.completed|]]
                            else t.completed)
      && (Owns(r, w) ==> t.completed == r.completed)
      && (t.phase == Acted ==> |t.completed| < |plan|)
  }

  ghost predicate Inv(plan: seq<Step>, s: State) {
    && RecordOk(plan, s.record)
    && (s.record.owner.Some? ==> s.record.owner.value in s.seen)
    && (forall w | w in s.tasks :: w in s.seen && TaskOk(plan, s.record, w, s.tasks[w]))
  }

  lemma PersistKeeps(plan: seq<Step>, s: State, w: Owner)
    requires Distinct(plan) && Inv(plan, s)
    ensures Inv(plan, DoPersist(plan, s, w))
  {
    if In(s, w, Acted) && LeaseValid(s, w) {
      var t := s.tasks[w];
      assert TaskOk(plan, s.record, w, t);
      var n := |t.completed|;
      assert plan[n] !in t.completed by {
        assert forall i | 0 <= i < n :: t.completed[i] == plan[i];
      }
      assert t.completed + [plan[n]] == plan[..n + 1];
    }
  }

  lemma NextKeeps(plan: seq<Step>, s: State, e: Event)
    requires Distinct(plan) && Inv(plan, s)
    ensures Inv(plan, Next(plan, s, e))
  {
    if e.Persist? {
      PersistKeeps(plan, s, e.w);
    }
  }

  lemma {:induction false} RunKeeps(plan: seq<Step>, events: seq<Event>)
    requires Distinct(plan)
    ensures Inv(plan, Run(plan, START, events))
  {
    hide Next;
    if events != [] {
      RunKeeps(plan, events[..|events| - 1]);
      NextKeeps(plan, Run(plan, START, events[..|events| - 1]), events[|events| - 1]);
    }
  }

  // ---------------------------------------------------------------------
  // What every run guarantees
  // ---------------------------------------------------------------------

  /**
   * The recorded steps are a beginning of the plan, exactly they have a count, and a completed
   * operation has recorded the whole plan.
   */
  lemma RecordedIsPrefix(plan: seq<Step>, events: seq<Event>)
    requires Distinct(plan)
    ensures var r := Run(plan, START, events).record;
            && r.completed <= plan
            && (forall step :: step in r.counts <==> step in r.completed)
            && (r.status == Completed ==> r.completed == plan)
  {
    RunKeeps(plan, events);
  }

  predicate Terminal(r: Record) {
    r.status == Completed || r.status == Rejected
  }

  lemma TerminalStep(plan: seq<Step>, s: State, e: Event)
    requires Inv(plan, s) && Terminal(s.record)
    ensures Next(plan, s, e).record == s.record
  {
    assert s.record.owner.None?;
  }

  /** Completed and rejected operations never change again. */
  lemma {:induction false} TerminalStays(plan: seq<Step>, events: seq<Event>, more: seq<Event>)
    requires Distinct(plan) && Terminal(Run(plan, START, events).record)
    ensures Run(plan, START, events + more).record == Run(plan, START, events).record
  {
    hide Next, Inv;
    if more == [] {
      assert events + more == events;
    } else {
      var most := more[..|more| - 1];
      TerminalStays(plan, events, most);
      RunKeeps(plan, events + most);
      TerminalStep(plan, Run(plan, START, events + most), more[|more| - 1]);
      assert (events + more)[..|events + more| - 1] == events + most;
    }
  }

  /** The worker that acquires the lease later takes up the record where it is: nothing is unrecorded. */
  lemma ProgressStep(plan: seq<Step>, s: State, e: Event)
    requires Distinct(plan) && Inv(plan, s)
    ensures s.record.completed <= Next(plan, s, e).record.completed
  {
    if e.Persist? {
      PersistKeeps(plan, s, e.w);
    }
  }

  lemma {:induction false} ProgressStays(plan: seq<Step>, events: seq<Event>, more: seq<Event>)
    requires Distinct(plan)
    ensures Run(plan, START, events).record.completed <= Run(plan, START, events + more).record.completed
  {
    hide Next, Inv;
    if more == [] {
      assert events + more == events;
    } else {
      var most := more[..|more| - 1];
      ProgressStays(plan, events, most);
      RunKeeps(plan, events + most);
      ProgressStep(plan, Run(plan, START, events + most), more[|more| - 1]);
      assert (events + more)[..|events + more| - 1] == events + most;
    }
  }

  // ---------------------------------------------------------------------
  // Actions and the record
  // ---------------------------------------------------------------------

  /** Step `i` of the plan has been carried out by someone. */
  predicate Done(plan: seq<Step>, s: State, i: nat)
    requires i < |plan|
  {
    exists j | 0 <= j < |s.actions| :: s.actions[j].1 == plan[i]
  }

  /** An action belongs to a recorded step, or to the first one that is not recorded. */
  predicate InTurn(plan: seq<Step>, s: State, j: nat)
    requires j < |s.actions|
  {
    exists i | 0 <= i < |plan| :: plan[i] == s.actions[j].1 && i <= |s.record.completed|
  }

  ghost predicate ActionsOk(plan: seq<Step>, s: State) {
    && (forall i | 0 <= i < |s.record.completed| && i < |plan| :: Done(plan, s, i))
    && (forall j | 0 <= j < |s.actions| :: InTurn(plan, s, j))
    && (forall w | w in s.tasks && s.tasks[w].phase == Acted && |s.tasks[w].completed| < |plan| ::
          Done(plan, s, |s.tasks[w].completed|))
  }

  lemma DoneStays(plan: seq<Step>, s: State, t: State, i: nat)
    requires i < |plan| && s.actions <= t.actions && Done(plan, s, i)
    ensures Done(plan, t, i)
  {
    var j :| 0 <= j < |s.actions| && s.actions[j].1 == plan[i];
    assert t.actions[j].1 == plan[i];
  }

  lemma InTurnStays(plan: seq<Step>, s: State, t: State, j: nat)
    requires j < |s.actions| && s.actions <= t.actions && |s.record.completed| <= |t.record.completed|
             && InTurn(plan, s, j)
    ensures InTurn(plan, t, j)
  {
    var i :| 0 <= i < |plan| && plan[i] == s.actions[j].1 && i <= |s.record.completed|;
    assert t.actions[j] == s.actions[j];
  }

  lemma ActionsGrow(plan: seq<Step>, s: State, e: Event)
    ensures s.actions <= Next(plan, s, e).actions
    ensures Next(plan, s, e).actions != s.actions ==> e.Work? && Next(plan, s, e) == DoWork(plan, s, e.w, e.count)
  {
  }

  /** A worker has just acted, or its copy is as it was. */
  lemma ActedBefore(plan: seq<Step>, s: State, e: Event, w: Owner)
    requires In(Next(plan, s, e), w, Acted)
    ensures (w in s.tasks && s.tasks[w] == Next(plan, s, e).tasks[w])
         || (e.Work? && e.w == w && Next(plan, s, e).actions != s.actions)
  {
  }

  lemma ActionsStep(plan: seq<Step>, s: State, e: Event)
    requires Distinct(plan) && Inv(plan, s) && ActionsOk(plan, s)
    ensures ActionsOk(plan, Next(plan, s, e))
  {
    var t := Next(plan, s, e);
    ProgressStep(plan, s, e);
    ActionsGrow(plan, s, e);
    hide Done, InTurn, Next, Inv;
    if t.actions != s.actions {
      WorkIsInTurn(plan, s, e.w, e.count);
    }
    forall i | 0 <= i < |t.record.completed| && i < |plan| ensures Done(plan, t, i) {
      if |s.record.completed| <= i {
        PersistRecordsDone(plan, s, e, i);
      }
      DoneStays(plan, s, t, i);
    }
    forall j | 0 <= j < |t.actions| ensures InTurn(plan, t, j) {
      if j < |s.actions| {
        InTurnStays(plan, s, t, j);
      }
    }
    forall w | w in t.tasks && t.tasks[w].phase == Acted && |t.tasks[w].completed| < |plan|
      ensures Done(plan, t, |t.tasks[w].completed|)
    {
      ActedBefore(plan, s, e, w);
      if w in s.tasks && s.tasks[w] == t.tasks[w] {
        DoneStays(plan, s, t, |t.tasks[w].completed|);
      }
    }
  }

  lemma WorkIsInTurn(plan: seq<Step>, s: State, w: Owner, count: nat)
    requires Inv(plan, s) && |DoWork(plan, s, w, count).actions| > |s.actions|
    ensures var t := DoWork(plan, s, w, count);
            && In(t, w, Acted) && |t.tasks[w].completed| < |plan| && Done(plan, t, |t.tasks[w].completed|)
            && |t.actions| == |s.actions| + 1 && InTurn(plan, t, |s.actions|)
  {
    var t := DoWork(plan, s, w, count);
    assert TaskOk(plan, s.record, w, s.tasks[w]);
    assert t.actions[|s.actions|].1 == plan[|s.tasks[w].completed|];
  }

  lemma PersistRecordsDone(plan: seq<Step>, s: State, e: Event, i: nat)
    requires Distinct(plan) && Inv(plan, s) && ActionsOk(plan, s)
    requires |s.record.completed| <= i < |Next(plan, s, e).record.completed| && i < |plan|
    ensures Done(plan, s, i)
  {
    hide Done, InTurn;
    assert e.Persist?;
    assert TaskOk(plan, s.record, e.w, s.tasks[e.w]);
  }

  /**
   * Every recorded step has been carried out, and every action so far belongs to a recorded step
   * or to the first one after them.
   */
  lemma {:induction false} RecordFollowsActions(plan: seq<Step>, events: seq<Event>)
    requires Distinct(plan)
    ensures ActionsOk(plan, Run(plan, START, events))
  {
    hide Next, Inv, ActionsOk;
    if events == [] {
      StartActions(plan);
    } else {
      var most := events[..|events| - 1];
      RecordFollowsActions(plan, most);
      RunKeeps(plan, most);
      ActionsStep(plan, Run(plan, START, most), events[|events| - 1]);
    }
  }

  lemma StartActions(plan: seq<Step>)
    ensures ActionsOk(plan, START)
  {
  }

  function ActionsBy(actions: seq<(Owner, Step)>, w: Owner): nat {
    if actions == [] then 0
    else ActionsBy(actions[..|actions| - 1], w) + if actions[|actions| - 1].0 == w then 1 else 0
  }

  /** How many more actions a worker without the lease can carry out. */
  function Left(s: State, w: Owner): nat {
    if In(s, w, Ready) then 1 else 0
  }

  lemma StaleStep(plan: seq<Step>, s: State, e: Event, w: Owner)
    requires !Owns(s.record, w) && w in s.seen
    ensures var t := Next(plan, s, e);
            && !Owns(t.record, w) && w in t.seen
            && ActionsBy(t.actions, w) + Left(t, w) <= ActionsBy(s.actions, w) + Left(s, w)
  {
    if e.Work? && Next(plan, s, e).actions != s.actions {
      assert Next(plan, s, e).actions[..|s.actions|] == s.actions;
    }
  }

  /** A worker that has lost the lease carries out at most one more action, ever. */
  lemma {:induction false} StaleWorkerStops(plan: seq<Step>, events: seq<Event>, more: seq<Event>, w: Owner)
    requires !Owns(Run(plan, START, events).record, w) && w in Run(plan, START, events).seen
    ensures var s, t := Run(plan, START, events), Run(plan, START, events + more);
            && !Owns(t.record, w) && w in t.seen
            && ActionsBy(t.actions, w) + Left(t, w) <= ActionsBy(s.actions, w) + Left(s, w)
            && ActionsBy(t.actions, w) <= ActionsBy(s.actions, w) + 1
  {
    hide Next;
    if more == [] {
      assert events + more == events;
    } else {
      var most := more[..|more| - 1];
      StaleWorkerStops(plan, events, most, w);
      StaleStep(plan, Run(plan, START, events + most), more[|more| - 1], w);
      assert (events + more)[..|events + more| - 1] == events + most;
    }
  }

  lemma NoLeaseNoWrite(plan: seq<Step>, s: State, e: Event, w: Owner)
    requires !Owns(s.record, w) && w in s.seen && !e.Tick? && e.w == w
    ensures Next(plan, s, e).record == s.record
  {
  }

  /** A worker that has lost the lease never changes the record again, whatever it still tries. */
  lemma StaleWorkerWritesNothing(plan: seq<Step>, events: seq<Event>, more: seq<Event>, e: Event, w: Owner)
    requires !Owns(Run(plan, START, events).record, w) && w in Run(plan, START, events).seen
    requires !e.Tick? && e.w == w
    ensures var s := Run(plan, START, events + more);
            Next(plan, s, e).record == s.record
  {
    StaleWorkerStops(plan, events, more, w);
    NoLeaseNoWrite(plan, Run(plan, START, events + more), e, w);
  }

  // ---------------------------------------------------------------------
  // The lease
  // ---------------------------------------------------------------------

  /** The worker holds the lease of the running operation until some time. */
  predicate Leased(s: State, w: Owner, until: Time) {
    s.record.status == Running && s.record.owner == Some(w) && s.record.leaseExpires == Some(until)
  }

  predicate Uses(e: Event, w: Owner) {
    !e.Tick? && e.w == w
  }

  predicate Foreign(events: seq<Event>, w: Owner) {
    forall i | 0 <= i < |events| :: !Uses(events[i], w)
  }

  lemma OthersRespectLease(plan: seq<Step>, s: State, e: Event, w: Owner, until: Time)
    requires Leased(s, w, until) && s.now <= until && !Uses(e, w)
    ensures Next(plan, s, e).record == s.record
    ensures e.Acquire? ==> Next(plan, s, e) == s
  {
  }

  lemma {:induction false} ClockRuns(plan: seq<Step>, s: State, events: seq<Event>)
    ensures s.now <= Run(plan, s, events).now
  {
    if events != [] {
      ClockRuns(plan, s, events[..|events| - 1]);
    }
  }

  lemma {:induction false} LeaseHolds(plan: seq<Step>, s: State, more: seq<Event>, w: Owner, until: Time)
    requires Leased(s, w, until) && Foreign(more, w) && Run(plan, s, more).now <= until
    ensures Run(plan, s, more).record == s.record
  {
    hide Next;
    if more != [] {
      var most := more[..|more| - 1];
      ClockStep(plan, Run(plan, s, most), more[|more| - 1]);
      LeaseHolds(plan, s, most, w, until);
      OthersRespectLease(plan, Run(plan, s, most), more[|more| - 1], w, until);
    }
  }

  lemma ClockStep(plan: seq<Step>, s: State, e: Event)
    ensures s.now <= Next(plan, s, e).now
  {
  }

  /**
   * For 60 seconds after a worker has acquired the operation it is the worker's: nothing that others do changes the
   * record, and nobody else acquires it.
   */
  lemma AcquireKeepsOthersOut(plan: seq<Step>, s: State, w: Owner, more: seq<Event>)
    requires Next(plan, s, Acquire(w)) != s && Foreign(more, w)
    requires Run(plan, Next(plan, s, Acquire(w)), more).now <= s.now + 60
    ensures var acquired := Next(plan, s, Acquire(w));
            var later := Run(plan, acquired, more);
            && later.record == acquired.record && Leased(later, w, s.now + 60)
            && forall v: Owner | v != w :: Next(plan, later, Acquire(v)) == later
  {
    LeaseHolds(plan, Next(plan, s, Acquire(w)), more, w, s.now + 60);
  }

  /** When nothing else happens, another worker can acquire the operation once more than 60 seconds have passed. */
  lemma AcquireLapses(plan: seq<Step>, s: State, w: Owner, v: Owner, seconds: nat)
    requires Next(plan, s, Acquire(w)) != s && v != w && v !in s.seen
    ensures var later := Next(plan, Next(plan, s, Acquire(w)), Tick(seconds));
            Next(plan, later, Acquire(v)) != later <==> 60 < seconds
  {
  }

  /** A step is recorded for its worker exactly while the worker has the lease and it has not run out. */
  lemma RecordedExactly(plan: seq<Step>, events: seq<Event>, w: Owner)
    requires Distinct(plan) && In(Run(plan, START, events), w, Acted)
    ensures var s := Run(plan, START, events);
            var after := Next(plan, s, Persist(w)).record.completed;
            if s.record.owner == Some(w) && (s.record.leaseExpires.Some? ==> s.now <= s.record.leaseExpires.value)
            then |s.record.completed| < |plan| && after == plan[..|s.record.completed| + 1]
            else after == s.record.completed
  {
    RunKeeps(plan, events);
    var s := Run(plan, START, events);
    assert TaskOk(plan, s.record, w, s.tasks[w]);
    if s.record.owner == Some(w) {
      var n := |s.record.completed|;
      assert plan[n] !in s.record.completed by {
        assert forall i | 0 <= i < n :: s.record.completed[i] == plan[i];
      }
      assert s.record.completed + [plan[n]] == plan[..n + 1];
    }
  }

  /**
   * A worker that gives the operation up while it has the lease ends it for good when it was rejected; otherwise the
   * next worker can acquire it at once.
   */
  lemma GivenUp(plan: seq<Step>, s: State, w: Owner, rejected: bool, v: Owner)
    requires w in s.tasks && s.record.owner == Some(w) && v !in s.seen
    ensures var after := Next(plan, s, GiveUp(w, rejected));
            && after.record.status == (if rejected then Rejected else Retryable)
            && after.record.completed == s.record.completed && after.record.counts == s.record.counts
            && (Next(plan, after, Acquire(v)) != after <==> !rejected)
  {
  }

  // ---------------------------------------------------------------------
  // The fence
  // ---------------------------------------------------------------------

  /** Whoever works on steps has written the fence. */
  ghost predicate FenceOk(s: State) {
    && (s.actions != [] ==> s.record.fenced)
    && forall w | w in s.tasks && (s.tasks[w].phase == Ready || s.tasks[w].phase == Acted) :: s.record.fenced
  }

  lemma FenceStep(plan: seq<Step>, s: State, e: Event)
    requires FenceOk(s)
    ensures FenceOk(Next(plan, s, e))
    ensures Next(plan, s, e).record.fenced ==> s.record.fenced || e.Fence?
  {
  }

  /** The fence is written before the first action, and only by a worker that fences. */
  lemma {:induction false} FencedFirst(plan: seq<Step>, events: seq<Event>)
    ensures Run(plan, START, events).actions != [] ==> Run(plan, START, events).record.fenced
    ensures Run(plan, START, events).record.fenced ==> exists i :: 0 <= i < |events| && events[i].Fence?
    ensures FenceOk(Run(plan, START, events))
  {
    hide Next;
    if events != [] {
      var most, last := events[..|events| - 1], events[|events| - 1];
      FencedFirst(plan, most);
      FenceStep(plan, Run(plan, START, most), last);
      if i :| 0 <= i < |most| && most[i].Fence? {
        assert events[i].Fence?;
      }
    }
  }

  // ---------------------------------------------------------------------
  // The plan is free of repetitions
  // ---------------------------------------------------------------------

  lemma HostStepsDistinct(ids: seq<string>)
    requires Distinct(ids)
    ensures Distinct(HostSteps(ids)) && forall i | 0 <= i < |ids| :: HostSteps(ids)[i][0] == 'h'
  {
    forall i, j | 0 <= i < j < |ids| ensures HostSteps(ids)[i] != HostSteps(ids)[j] {
      assert HostSteps(ids)[i][5..] == ids[i] && HostSteps(ids)[j][5..] == ids[j];
    }
  }

  lemma FixedStepsDistinct()
    ensures Distinct(FIRST) && Distinct(LAST)
    ensures forall i, j | 0 <= i < |FIRST| && 0 <= j < |LAST| :: FIRST[i] != LAST[j]
  {
  }

  lemma FixedStepsAreNotHostSteps()
    ensures forall i | 0 <= i < |FIRST| :: FIRST[i][0] != 'h'
    ensures forall i | 0 <= i < |LAST| :: LAST[i][0] != 'h'
  {
  }

  /** The plan names every step once when the host's identifiers are unique. */
  lemma PlanIsDistinct(hostIds: seq<string>)
    requires Distinct(hostIds)
    ensures Distinct(Plan(hostIds))
  {
    HostStepsDistinct(hostIds);
    FixedStepsDistinct();
    FixedStepsAreNotHostSteps();
    var first, hosts, last := FIRST, HostSteps(hostIds), LAST;
    JoinDistinct(first, hosts);
    JoinDistinct(first + hosts, last);
  }

  lemma JoinDistinct<T>(s: seq<T>, t: seq<T>)
    requires Distinct(s) && Distinct(t) && forall i, j | 0 <= i < |s| && 0 <= j < |t| :: s[i] != t[j]
    ensures Distinct(s + t)
  {
  }
}
