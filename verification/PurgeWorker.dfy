/** One worker's attempt at a purge, while other workers compete and the clock runs. */
module PurgeWorker {
  import opened Wrappers
  import opened PurgeSaga

  /** A transaction may fail before it took effect, or after, when only its answer is lost. */
  datatype Fault = NoFault | NotApplied | AnswerLost

  datatype ActionResult = Counted(count: nat) | Throws

  datatype Verdict = FencePassed | FenceRejected | FenceUnavailable

  datatype Environment = Environment(
    others: nat -> seq<Event>, fault: nat -> Fault, action: nat -> ActionResult)

  datatype Outcome = AlreadyCompleted(counts: map<Step, nat>) | CompletedNow(counts: map<Step, nat>) | LeaseLost | Error

  datatype StepResult = StepDone | StepLost | StepFailed

  ghost predicate Alone(env: Environment, w: Owner) {
    forall n: nat :: Foreign(env.others(n), w)
  }

  function TaskOf(s: State, w: Owner): Option<Task> {
    if w in s.tasks then Some(s.tasks[w]) else None
  }

  lemma {:induction false} OthersKeepTask(plan: seq<Step>, s: State, events: seq<Event>, w: Owner)
    requires Foreign(events, w)
    ensures TaskOf(Run(plan, s, events), w) == TaskOf(s, w)
    ensures w in Run(plan, s, events).seen <==> w in s.seen
  {
    hide Next;
    if events != [] {
      OthersKeepTask(plan, s, events[..|events| - 1], w);
      OtherStep(plan, Run(plan, s, events[..|events| - 1]), events[|events| - 1], w);
    }
  }

  lemma OtherStep(plan: seq<Step>, s: State, e: Event, w: Owner)
    requires !Uses(e, w)
    ensures TaskOf(Next(plan, s, e), w) == TaskOf(s, w)
    ensures w in Next(plan, s, e).seen <==> w in s.seen
  {
  }

  lemma {:induction false} RunConcat(plan: seq<Step>, s: State, events: seq<Event>, more: seq<Event>)
    ensures Run(plan, s, events + more) == Run(plan, Run(plan, s, events), more)
  {
    if more == [] {
      assert events + more == events;
    } else {
      RunConcat(plan, s, events, more[..|more| - 1]);
      assert (events + more)[..|events + more| - 1] == events + more[..|more| - 1];
    }
  }

  ghost predicate NoFaults(env: Environment, from: nat, to: nat) {
    forall n: nat | from <= n < to :: env.fault(n) == NoFault
  }

  /** No transaction fails and no action throws. */
  ghost predicate Smooth(env: Environment, from: nat, to: nat) {
    forall n: nat | from <= n < to :: env.fault(n) == NoFault && env.action(n).Counted?
  }

  /** The operation has not been begun, or was given up for a retry, or its lease has run out. */
  predicate IsFree(s: State) {
    || s.record.status == Pending || s.record.status == Retryable
    || (s.record.status == Running && s.record.leaseExpires.Some? && s.record.leaseExpires.value < s.now)
  }

  /** Until it runs out, the lease is kept. */
  ghost predicate Keeps(before: State, after: State, w: Owner) {
    && before.now <= after.now
    && forall until: Time | Leased(before, w, until) && after.now <= until :: Leased(after, w, until)
  }

  lemma KeepsJoins(a: State, b: State, c: State, w: Owner)
    requires Keeps(a, b, w) && Keeps(b, c, w)
    ensures Keeps(a, c, w)
  {
  }

  lemma LeaseKept(plan: seq<Step>, s: State, events: seq<Event>, w: Owner)
    requires Foreign(events, w)
    ensures Keeps(s, Run(plan, s, events), w)
  {
    hide Run;
    ClockRuns(plan, s, events);
    forall until: Time | Leased(s, w, until) && Run(plan, s, events).now <= until
      ensures Leased(Run(plan, s, events), w, until)
    {
      LeaseHolds(plan, s, events, w, until);
    }
  }

  class PurgeService {
    const plan: seq<Step>
    const env: Environment
    var state: State
    var calls: nat
    ghost var trace: seq<Event>

    ghost predicate Valid()
      reads this
    {
      Distinct(plan) && state == Run(plan, START, trace)
    }

    constructor (plan: seq<Step>, env: Environment)
      requires Distinct(plan)
      ensures Valid() && this.plan == plan && this.env == env && state == START
    {
      this.plan, this.env, state, calls, trace := plan, env, START, 0, [];
    }

    /** Others act while a call is under way. */
    method Wait(w: Owner)
      requires Valid() && Alone(env, w)
      modifies this
      ensures Valid() && TaskOf(state, w) == TaskOf(old(state), w) && (w in state.seen <==> w in old(state).seen)
      ensures calls == old(calls) + 1 && state == Run(plan, old(state), env.others(old(calls)))
      ensures Keeps(old(state), state, w)
    {
      hide Run;
      RunConcat(plan, START, trace, env.others(calls));
      OthersKeepTask(plan, state, env.others(calls), w);
      LeaseKept(plan, state, env.others(calls), w);
      state := Run(plan, state, env.others(calls));
      trace := trace + env.others(calls);
      calls := calls + 1;
    }

    method Perform(e: Event)
      requires Valid()
      modifies this`state, this`trace
      ensures Valid() && state == Next(plan, old(state), e)
    {
      assert (trace + [e])[..|trace|] == trace;
      state := Next(plan, state, e);
      trace := trace + [e];
    }

    /** Take the lease if it is free. */
    method AcquireLease(w: Owner) returns (ok: bool)
      requires Valid() && Alone(env, w) && w !in state.seen && w !in state.tasks
      modifies this
      ensures Valid() && calls == old(calls) + 1
      ensures var s := Run(plan, old(state), env.others(old(calls)));
              && (ok <==> IsFree(s) && env.fault(old(calls)) == NoFault)
              && state == (if env.fault(old(calls)) == NotApplied then s else Next(plan, s, Acquire(w)))
              && (ok ==> In(state, w, Acquired) && state.now == s.now && Leased(state, w, s.now + 60))
    {
      hide Run;
      var fault := env.fault(calls);
      Wait(w);
      var free := Available(state.record, state.now);
      if fault != NotApplied {
        Perform(Acquire(w));
      }
      ok := free && fault == NoFault;
    }

    /** Record a step that has been carried out. */
    method PersistStep(w: Owner) returns (result: StepResult)
      requires Valid() && Alone(env, w) && In(state, w, Acted) && NextStep(plan, state.tasks[w]).Some?
      modifies this
      ensures Valid() && calls == old(calls) + 1
      ensures result == StepDone ==>
                In(state, w, Ready) && |state.tasks[w].completed| == |old(state).tasks[w].completed| + 1
      ensures result == StepDone ==> env.fault(old(calls)) == NoFault
      ensures result == StepFailed ==> env.fault(old(calls)) != NoFault
      ensures result == StepLost ==> env.fault(old(calls)) != NotApplied && w !in state.tasks
      ensures result == StepFailed ==> w in state.tasks
      ensures Keeps(old(state), state, w)
      ensures forall until: Time | Leased(old(state), w, until) && state.now <= until :: result != StepLost
    {
      hide Run;
      var fault := env.fault(calls);
      Wait(w);
      if fault == NotApplied {
        return StepFailed;
      }
      var valid := LeaseValid(state, w);
      Perform(Persist(w));
      result := if !valid then StepLost else if fault == NoFault then StepDone else StepFailed;
    }

    /** Carry out and record one step, unless the record has it already. */
    method RunStep(w: Owner, index: nat) returns (result: StepResult)
      requires Valid() && Alone(env, w) && index < |plan| && In(state, w, Ready) && index <= |state.tasks[w].completed|
      modifies this
      ensures Valid() && old(calls) <= calls
      ensures result == StepDone ==> In(state, w, Ready) && index < |state.tasks[w].completed|
      ensures plan[index] in old(state).tasks[w].completed ==> result == StepDone && state == old(state)
      ensures result == StepDone && calls != old(calls) ==>
                env.action(old(calls)).Counted? && env.fault(calls - 1) == NoFault
      ensures result == StepFailed ==> !Smooth(env, old(calls), calls) && w in state.tasks
      ensures Keeps(old(state), state, w)
      ensures forall until: Time | Leased(old(state), w, until) && state.now <= until :: result != StepLost
    {
      hide Run;
      CompletedIsPrefix(plan, trace, w, index);
      if plan[index] in state.tasks[w].completed {
        return StepDone;
      }
      ghost var start := state;
      var action := env.action(calls);
      Wait(w);
      if action.Throws? {
        return StepFailed;
      }
      Perform(Work(w, action.count));
      ghost var worked := state;
      result := PersistStep(w);
      KeepsJoins(start, worked, state, w);
    }

    /** Mark the operation as completed. */
    method Finish(w: Owner) returns (outcome: Outcome)
      requires Valid() && Alone(env, w) && In(state, w, Ready) && |plan| <= |state.tasks[w].completed|
      modifies this
      ensures Valid() && !outcome.AlreadyCompleted? && calls == old(calls) + 1
      ensures outcome.CompletedNow? ==>
                state.record.status == Completed && state.record.counts == outcome.counts && w !in state.tasks
      ensures outcome == Error ==> env.fault(old(calls)) != NoFault
      ensures outcome.CompletedNow? ==> env.fault(old(calls)) == NoFault
      ensures var s := Run(plan, old(state), env.others(old(calls)));
              state == if env.fault(old(calls)) == NotApplied then s else Next(plan, s, Complete(w))
      ensures old(state).now <= state.now
      ensures forall until: Time | Leased(old(state), w, until) && state.now <= until ::
                && outcome != LeaseLost
                && (outcome == Error ==>
                      state.record.status == Completed || (w in state.tasks && Leased(state, w, until)))
    {
      hide Run;
      var fault := env.fault(calls);
      Wait(w);
      if fault == NotApplied {
        return Error;
      }
      var owns := Owns(state.record, w);
      var counts := state.tasks[w].counts;
      Perform(Complete(w));
      outcome := if !owns then LeaseLost else if fault == NoFault then CompletedNow(counts) else Error;
    }

    /** Carry the steps of the plan out in order, and complete the operation. */
    method RunPlan(w: Owner) returns (outcome: Outcome)
      requires Valid() && Alone(env, w) && In(state, w, Ready)
      modifies this
      ensures Valid() && !outcome.AlreadyCompleted? && old(calls) <= calls
      ensures outcome.CompletedNow? ==>
                state.record.status == Completed && state.record.counts == outcome.counts && w !in state.tasks
      ensures outcome == Error ==> !Smooth(env, old(calls), calls)
      ensures old(state).now <= state.now
      ensures forall until: Time | Leased(old(state), w, until) && state.now <= until ::
                && outcome != LeaseLost
                && (outcome == Error ==>
                      state.record.status == Completed || (w in state.tasks && Leased(state, w, until)))
    {
      ghost var start := state;
      var i := 0;
      while i < |plan|
        invariant 0 <= i <= |plan| && Valid() && In(state, w, Ready) && i <= |state.tasks[w].completed|
        invariant old(calls) <= calls && Keeps(start, state, w)
      {
        ghost var before := state;
        var result := RunStep(w, i);
        KeepsJoins(start, before, state, w);
        if result == StepLost {
          return LeaseLost;
        } else if result == StepFailed {
          return Error;
        }
        i := i + 1;
      }
      outcome := Finish(w);
    }

    /**
     * The error handler: a worker that still has the lease gives the operation up, for good if it was rejected and for
     * a retry otherwise.
     */
    method HandleError(w: Owner, rejected: bool)
      requires Valid() && Alone(env, w)
      modifies this
      ensures Valid() && calls == old(calls) + 1 && old(state).now <= state.now
      ensures var s := Run(plan, old(state), env.others(old(calls)));
              && s.now == state.now
              && if env.fault(old(calls)) != NotApplied && w in old(state).tasks && s.record.owner == Some(w)
                 then state.record == s.record.(status := if rejected then Rejected else Retryable, owner := None,
                                                leaseExpires := None)
                 else state.record == s.record
      ensures forall until: Time | Leased(old(state), w, until) && state.now <= until
                                   && env.fault(old(calls)) != NotApplied && w in old(state).tasks ::
                state.record.status == if rejected then Rejected else Retryable
      ensures old(state).record.status == Completed ==> state.record.status == Completed
    {
      hide Run;
      RunKeeps(plan, trace);
      ghost var before, others := state, env.others(calls);
      ghost var done := trace;
      var fault := env.fault(calls);
      Wait(w);
      if before.record.status == Completed {
        TerminalStays(plan, done, others);
        RunConcat(plan, START, done, others);
      }
      Perform(Break(w));
      if fault != NotApplied {
        Perform(GiveUp(w, rejected));
      }
    }

    /** Read the record again, and let the host check the fence. */
    method LoadRecord(w: Owner, ghost until: Time) returns (ok: bool)
      requires Valid() && Alone(env, w) && In(state, w, Acquired) && Leased(state, w, until)
      modifies this
      ensures Valid() && (ok <==> env.fault(old(calls)) == NoFault) && old(state).now <= state.now
      ensures calls == old(calls) + if ok then 2 else 1
      ensures ok ==> In(state, w, Loaded) && (state.now <= until ==> Leased(state, w, until))
    {
      hide Run, Inv;
      var read := env.fault(calls);
      Wait(w);
      if read != NoFault {
        return false;
      }
      Perform(Load(w));
      assert state.now <= until ==> Leased(state, w, until);
      Wait(w);
      ok := true;
    }

    /**
     * The attempt of a worker that has acquired the operation until some time: read the record, write the fence, and
     * carry the plan out.
     */
    method CarryOut(w: Owner, verdict: Verdict, ghost until: Time) returns (outcome: Outcome)
      requires Valid() && Alone(env, w) && In(state, w, Acquired) && Leased(state, w, until)
      modifies this
      ensures Valid() && old(calls) < calls && !outcome.AlreadyCompleted?
      ensures outcome.CompletedNow? ==>
                state.record.status == Completed && state.record.counts == outcome.counts && w !in state.tasks
      ensures outcome != Error ==> verdict == FencePassed && env.fault(old(calls)) == NoFault
      ensures outcome == Error && verdict == FencePassed ==> !Smooth(env, old(calls), calls)
      ensures outcome == LeaseLost ==> until < state.now
      ensures outcome == Error && env.fault(old(calls)) == NoFault && env.fault(calls - 1) != NotApplied
              && state.now <= until ==>
                || (verdict == FencePassed && state.record.status == Completed)
                || state.record.status == if verdict == FenceRejected then Rejected else Retryable
      ensures env.fault(old(calls)) == NoFault <==> old(calls) + 1 < calls
    {
      hide Run, Inv, Next, Keeps;
      var read := LoadRecord(w, until);
      if !read {
        return Error;
      }
      if verdict != FencePassed {
        HandleError(w, verdict == FenceRejected);
        return Error;
      }
      outcome := WriteFence(w, until);
      if outcome == Error {
        HandleError(w, false);
      }
    }

    /** Write the fence and carry the plan out; errors are left to the caller. */
    method WriteFence(w: Owner, ghost until: Time) returns (outcome: Outcome)
      requires Valid() && Alone(env, w) && In(state, w, Loaded)
      requires state.now <= until ==> Leased(state, w, until)
      modifies this
      ensures Valid() && old(calls) < calls && !outcome.AlreadyCompleted? && old(state).now <= state.now
      ensures outcome.CompletedNow? ==>
                state.record.status == Completed && state.record.counts == outcome.counts && w !in state.tasks
      ensures outcome == Error ==> !Smooth(env, old(calls), calls)
      ensures state.now <= until ==> outcome != LeaseLost
      ensures outcome == Error && state.now <= until ==>
                state.record.status == Completed || (w in state.tasks && Leased(state, w, until))
    {
      hide Run, Inv;
      var fault := env.fault(calls);
      Wait(w);
      assert In(state, w, Loaded);
      assert state.now <= until ==> Leased(state, w, until);
      if fault != NotApplied {
        Perform(Fence(w));
      }
      assert state.now <= until ==> Leased(state, w, until);
      outcome := if fault == NotApplied then Error else LeaseLost;
      if In(state, w, Ready) {
        if fault == NoFault {
          outcome := RunPlan(w);
        } else {
          outcome := Error;
        }
      }
    }

    /**
     * When the purge is reported as completed, the operation is, and all of the plan is recorded. An attempt that
     * finds the operation free completes it if no call fails, the fence can be written, and the attempt is over within
     * 60 seconds. Within that time a rejected fence ends the operation for good, and any other failure that can be
     * recorded leaves it to the next worker. `begun` is when the worker tried to acquire the operation.
     */
    method PurgeUserData(w: Owner, verdict: Verdict) returns (outcome: Outcome, ghost begun: State)
      requires Valid() && Alone(env, w) && w !in state.seen && w !in state.tasks
      modifies this
      ensures Valid() && w !in state.tasks && old(calls) < calls
      ensures outcome.AlreadyCompleted? || outcome.CompletedNow? ==>
                && state.record.status == Completed && state.record.completed == plan
                && outcome.counts == state.record.counts
                && (forall step :: step in outcome.counts <==> step in plan)
      ensures var found := Run(plan, old(state), env.others(old(calls)));
              && (outcome.AlreadyCompleted? <==> found.record.status == Completed)
              && begun == Run(plan, found, env.others(old(calls) + 1))
      ensures !outcome.AlreadyCompleted? && !IsFree(begun) ==> outcome == LeaseLost
      ensures !outcome.AlreadyCompleted? && IsFree(begun) && verdict == FencePassed && state.now <= begun.now + 60
              && Smooth(env, old(calls), calls) ==>
                outcome.CompletedNow?
      ensures !outcome.AlreadyCompleted? && IsFree(begun) && verdict != FencePassed && state.now <= begun.now + 60
              && NoFaults(env, old(calls), calls) ==>
                && outcome == Error
                && state.record.status == if verdict == FenceRejected then Rejected else Retryable
      ensures outcome == Error && verdict == FencePassed && state.now <= begun.now + 60 && old(calls) + 3 < calls
              && env.fault(calls - 1) != NotApplied ==>
                state.record.status == Retryable || state.record.status == Completed
    {
      hide Run, Inv;
      Wait(w);
      begun := Run(plan, state, env.others(calls));
      RecordedIsPrefix(plan, trace);
      if state.record.status == Completed {
        return AlreadyCompleted(state.record.counts), begun;
      }
      var acquired := AcquireLease(w);
      if !acquired {
        Perform(Crash(w));
        return LeaseLost, begun;
      }
      outcome := CarryOut(w, verdict, begun.now + 60);
      Perform(Crash(w));
      RecordedIsPrefix(plan, trace);
    }
  }

  /** The steps a worker knows to be completed are the first ones of the plan. */
  lemma CompletedIsPrefix(plan: seq<Step>, trace: seq<Event>, w: Owner, index: nat)
    requires Distinct(plan) && index < |plan|
    requires var s := Run(plan, START, trace); In(s, w, Ready) && index <= |s.tasks[w].completed|
    ensures var t := Run(plan, START, trace).tasks[w];
            t.completed <= plan && (plan[index] in t.completed <==> index < |t.completed|)
  {
    RunKeeps(plan, trace);
    var s := Run(plan, START, trace);
    var t := s.tasks[w];
    assert TaskOk(plan, s.record, w, t);
    if index == |t.completed| {
      assert forall i | 0 <= i < index :: t.completed[i] == plan[i];
    } else {
      assert t.completed[index] == plan[index];
    }
  }
}
