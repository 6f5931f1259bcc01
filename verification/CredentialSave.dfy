/**
 * Saving a connection: the changed credentials are written one after the other, and when a write
 * fails or the connection changes meanwhile, the writes are rolled back.
 */
module CredentialSave {
  import opened Wrappers

  datatype Ref = Key | Workspace | Endpoint | Mode

  /** A write may fail without effect, or take effect although it reports a failure. */
  datatype Fault = Works | FailsWithout | FailsApplied

  /** What happens at the `n`-th call to the store: its outcome, and what others do meanwhile. */
  datatype Environment = Environment(
    fault: nat -> Fault,
    invalidations: nat -> nat,
    unloads: nat -> bool)

  /** None of these calls fails. */
  ghost predicate NoFaults(env: Environment, from: nat, to: nat) {
    forall n: nat | from <= n < to :: env.fault(n) == Works
  }

  /** Nobody invalidates or unloads the profile during these calls. */
  ghost predicate Undisturbed(env: Environment, from: nat, to: nat) {
    forall n: nat | from <= n < to :: env.invalidations(n) == 0 && !env.unloads(n)
  }

  type Store = map<Ref, string>

  /** An absent value removes the credential. Values have been trimmed and are not empty. */
  datatype Change = Change(ref: Ref, value: Option<string>)

  predicate ChangesOk(changes: seq<Change>) {
    && (forall i, j | 0 <= i < j < |changes| :: changes[i].ref != changes[j].ref)
    && (forall i | 0 <= i < |changes| :: changes[i].value != Some(""))
  }

  /** What a stored value means: an empty credential is as good as none. */
  function Meaning(store: Store, r: Ref): Option<string> {
    if r in store && store[r] != "" then Some(store[r]) else None
  }

  /** The meaning of a value that was read: an empty one is as good as none. */
  function Value(v: Option<string>): Option<string> {
    if v == Some("") then None else v
  }

  function Put(store: Store, r: Ref, value: Option<string>): Store {
    if value.Some? && value.value != "" then store[r := value.value] else store - {r}
  }

  predicate AllNew(store: Store, changes: seq<Change>) {
    forall i | 0 <= i < |changes| :: Meaning(store, changes[i].ref) == changes[i].value
  }

  predicate AllOld(before: Store, after: Store, changes: seq<Change>) {
    forall i | 0 <= i < |changes| :: Meaning(after, changes[i].ref) == Meaning(before, changes[i].ref)
  }

  predicate Changed(changes: seq<Change>, r: Ref) {
    exists i | 0 <= i < |changes| :: changes[i].ref == r
  }

  /** Credentials that are not to be changed keep their meaning. */
  predicate RestKept(before: Store, after: Store, changes: seq<Change>) {
    forall r | !Changed(changes, r) :: Meaning(after, r) == Meaning(before, r)
  }

  /** The profile is as it was exactly when nobody has disturbed it; it does not come back by itself. */
  ghost predicate Unchanged(env: Environment, from: nat, to: nat, generation: nat, later: nat, active: bool,
          activeLater: bool)
  {
    && from <= to && generation <= later && (activeLater ==> active)
    && (active ==> (activeLater && later == generation <==> Undisturbed(env, from, to)))
  }

  class Profile {
    const env: Environment
    var store: Store
    var generation: nat
    var active: bool
    var blocked: bool
    var calls: nat

    constructor (env: Environment, store: Store)
      ensures this.env == env && this.store == store && active && !blocked
    {
      this.env, this.store, generation, active, blocked, calls := env, store, 0, true, false, 0;
    }

    /** A call to the store: the profile can be invalidated or unloaded while it is under way. */
    method Await() returns (fault: Fault)
      modifies this`generation, this`active, this`calls
      ensures calls == old(calls) + 1 && fault == env.fault(old(calls))
      ensures generation == old(generation) + env.invalidations(old(calls))
      ensures active == (old(active) && !env.unloads(old(calls)))
    {
      fault := env.fault(calls);
      generation := generation + env.invalidations(calls);
      active := active && !env.unloads(calls);
      calls := calls + 1;
    }

    /** `set` or `unset`, depending on the value. */
    method Write(r: Ref, value: Option<string>) returns (ok: bool)
      modifies this`store, this`generation, this`active, this`calls
      ensures store == if env.fault(old(calls)) == FailsWithout then old(store) else Put(old(store), r, value)
      ensures ok <==> env.fault(old(calls)) == Works
      ensures calls == old(calls) + 1
      ensures generation == old(generation) + env.invalidations(old(calls))
      ensures active == (old(active) && !env.unloads(old(calls)))
    {
      var fault := Await();
      if fault != FailsWithout {
        store := Put(store, r, value);
      }
      ok := fault == Works;
    }

    /** The values before the save; reading can fail too. */
    method ReadPrevious(changes: seq<Change>) returns (previous: map<Ref, Option<string>>, ok: bool)
      modifies this`generation, this`active, this`calls
      ensures ok <==> NoFaults(env, old(calls), old(calls) + |changes|)
      ensures ok ==> calls == old(calls) + |changes|
      ensures calls <= old(calls) + |changes|
      ensures Unchanged(env, old(calls), calls, old(generation), generation, old(active), active)
      ensures ok ==> forall i | 0 <= i < |changes| ::
                changes[i].ref in previous && previous[changes[i].ref] == Stored(changes[i].ref)
    {
      previous := map[];
      for i := 0 to |changes|
        invariant calls == old(calls) + i && NoFaults(env, old(calls), calls)
        invariant Unchanged(env, old(calls), calls, old(generation), generation, old(active), active)
        invariant forall j | 0 <= j < i ::
            changes[j].ref in previous && previous[changes[j].ref] == Stored(changes[j].ref)
      {
        var fault := Await();
        if fault != Works {
          return previous, false;
        }
        previous := previous[changes[i].ref := Stored(changes[i].ref)];
      }
      ok := true;
    }

    function Stored(r: Ref): Option<string>
      reads this`store
    {
      if r in store then Some(store[r]) else None
    }

    /**
     * The writes of the changes in order. They stop when one fails or when the profile is no longer
     * the one that the save began with; `touched` counts the writes that were tried.
     */
    method WriteChanges(changes: seq<Change>, begun: nat) returns (touched: nat, ok: bool)
      requires ChangesOk(changes)
      modifies this`store, this`generation, this`active, this`calls
      ensures touched <= |changes| && (ok ==> touched == |changes|) && calls == old(calls) + touched
      ensures Unchanged(env, old(calls), calls, old(generation), generation, old(active), active)
      ensures touched == 0 && changes != [] <==> changes != [] && !(old(active) && old(generation) == begun)
      ensures ok <==>
                (changes != [] ==>
                   && old(active) && old(generation) == begun
                   && NoFaults(env, old(calls), old(calls) + |changes|)
                   && Undisturbed(env, old(calls), old(calls) + |changes|))
      ensures forall i | 0 <= i < touched - 1 :: Meaning(store, changes[i].ref) == changes[i].value
      ensures ok ==> AllNew(store, changes)
      ensures forall r | !Changed(changes[..touched], r) :: Meaning(store, r) == Meaning(old(store), r)
    {
      touched := 0;
      while touched < |changes|
        invariant 0 <= touched <= |changes| && calls == old(calls) + touched
        invariant NoFaults(env, old(calls), calls)
        invariant Unchanged(env, old(calls), calls, old(generation), generation, old(active), active)
        invariant touched > 0 ==> old(active) && old(generation) == begun && active && generation == begun
        invariant forall i | 0 <= i < touched :: Meaning(store, changes[i].ref) == changes[i].value
        invariant forall r | !Changed(changes[..touched], r) :: Meaning(store, r) == Meaning(old(store), r)
      {
        if !active || generation != begun {
          return touched, false;
        }
        var c := changes[touched];
        ghost var before := store;
        var written := Write(c.ref, c.value);
        assert changes[..touched + 1][touched] == c;
        ChangedMore(changes, touched);
        touched := touched + 1;
        if !written || !active || generation != begun {
          return touched, false;
        }
      }
      ok := true;
    }

    /** Restore what was touched, the last write first. A failure does not stop the others. */
    method Rollback(changes: seq<Change>, touched: nat, previous: map<Ref, Option<string>>) returns (failed: bool)
      requires ChangesOk(changes) && touched <= |changes|
      requires forall i | 0 <= i < |changes| :: changes[i].ref in previous
      modifies this`store, this`generation, this`active, this`calls
      ensures calls == old(calls) + touched && (failed <==> !NoFaults(env, old(calls), calls))
      ensures generation >= old(generation)
      ensures !failed ==> forall i | 0 <= i < touched ::
                Meaning(store, changes[i].ref) == Value(previous[changes[i].ref])
      ensures forall r | !Changed(changes[..touched], r) :: Meaning(store, r) == Meaning(old(store), r)
    {
      failed := false;
      var i := touched;
      while i > 0
        invariant 0 <= i <= touched && calls == old(calls) + touched - i && generation >= old(generation)
        invariant failed <==> !NoFaults(env, old(calls), calls)
        invariant !failed ==> forall j | i <= j < touched ::
            Meaning(store, changes[j].ref) == Value(previous[changes[j].ref])
        invariant forall r | !Changed(changes[..touched], r) :: Meaning(store, r) == Meaning(old(store), r)
      {
        i := i - 1;
        assert changes[..touched][i] == changes[i];
        var ok := Write(changes[i].ref, previous[changes[i].ref]);
        failed := failed || !ok;
      }
    }

    /**
     * The serialized part of a save. Whatever fails, the changed credentials are all new or all old,
     * or the key is gone, unless a write of the rollback and the removal of the key both failed.
     * The profile is blocked exactly when the save does not succeed. It succeeds exactly when nobody has
     * invalidated it, no call fails and nobody disturbs it meanwhile; one that is too late changes nothing.
     */
    method Save(changes: seq<Change>, begun: nat) returns (ok: bool, rollbackFailed: bool, removalFailed: bool)
      requires ChangesOk(changes)
      modifies this
      ensures ok <==> old(active) && old(generation) == begun
                      && NoFaults(env, old(calls), old(calls) + 2 * |changes|)
                      && Undisturbed(env, old(calls), old(calls) + 2 * |changes|)
      ensures !(old(active) && old(generation) == begun) ==> store == old(store) && calls == old(calls)
      ensures rollbackFailed ==> !ok && old(calls) < calls && !NoFaults(env, old(calls), calls - 1)
      ensures removalFailed <==> rollbackFailed && env.fault(calls - 1) != Works
      ensures generation >= old(generation)
      ensures ok ==> AllNew(store, changes) && RestKept(old(store), store, changes) && !blocked
      ensures !ok ==> blocked
      ensures !ok && !rollbackFailed ==> AllOld(old(store), store, changes) && RestKept(old(store), store, changes)
      ensures !ok && rollbackFailed && !removalFailed ==> Meaning(store, Key).None?
      ensures forall r | r != Key && !Changed(changes, r) :: Meaning(store, r) == Meaning(old(store), r)
    {
      blocked := true;
      ok, rollbackFailed, removalFailed := false, false, false;
      if !active || generation != begun {
        return;
      }
      ghost var before := store;
      var previous, read := ReadPrevious(changes);
      if !read {
        return;
      }
      var touched, written := WriteChanges(changes, begun);
      ChangedPart(changes, touched);
      if written {
        blocked := false;
        assert changes[..touched] == changes;
        return true, false, false;
      }
      rollbackFailed := Rollback(changes, touched, previous);
      if rollbackFailed {
        var removed := Write(Key, None);
        removalFailed := !removed;
      } else {
        RolledBack(before, store, changes, touched, previous);
      }
    }

    /**
     * `saveConnection` once the parameters have been turned into changes. It invalidates older saves
     * at once; its own writes wait for their turn.
     */
    method SaveConnection(changes: seq<Change>) returns (ok: bool, rollbackFailed: bool, removalFailed: bool)
      requires ChangesOk(changes)
      modifies this
      ensures blocked <==> !ok
      ensures generation > old(generation)
      ensures ok <==> old(active) && NoFaults(env, old(calls) + 1, old(calls) + 1 + 2 * |changes|)
                      && Undisturbed(env, old(calls), old(calls) + 1 + 2 * |changes|)
      ensures ok ==> AllNew(store, changes) && RestKept(old(store), store, changes)
      ensures !ok && !rollbackFailed ==> AllOld(old(store), store, changes) && RestKept(old(store), store, changes)
      ensures !ok && rollbackFailed && !removalFailed ==> Meaning(store, Key).None?
      ensures forall r | r != Key && !Changed(changes, r) :: Meaning(store, r) == Meaning(old(store), r)
    {
      generation := generation + 1;
      var begun := generation;
      var _ := Await();
      ok, rollbackFailed, removalFailed := Save(changes, begun);
    }

    /**
     * The key of a resolved connection. A key in the configuration of the plugin comes first, then the one in
     * the store, and last the one that the process has inherited; a failing store counts as an empty one.
     */
    method ResolveKey(inline: Option<string>, inherited: Option<string>) returns (key: Option<string>)
      modifies this`generation, this`active, this`calls
      ensures blocked ==> key.None?
      ensures !blocked && Value(inline).Some? ==> key == inline
      ensures !blocked && Value(inline).None? ==>
                key == if env.fault(old(calls)) == Works && Meaning(store, Key).Some? then Meaning(store, Key)
                       else Value(inherited)
    {
      key := Value(inline);
      if key.None? {
        var fault := Await();
        key := if fault == Works then Meaning(store, Key) else None;
        if key.None? {
          key := Value(inherited);
        }
      }
      if blocked {
        key := None;
      }
    }
  }

  /** What is asked of a profile; requests take their turns. */
  datatype Request =
    | SaveRequest(changes: seq<Change>)
    | ResolveRequest(inline: Option<string>, inherited: Option<string>)

  datatype Result = Saved(ok: bool) | Resolved(key: Option<string>)

  /** Whether the profile is blocked after these results: the last save decides. */
  function BlockedAfter(start: bool, results: seq<Result>): bool {
    if results == [] then start
    else
      var last := results[|results| - 1];
      if last.Saved? then !last.ok else BlockedAfter(start, results[..|results| - 1])
  }

  /** After a failed save, and until one succeeds, the profile stays blocked. */
  lemma {:induction false} BlockedUntilSaved(start: bool, results: seq<Result>, i: nat)
    requires i < |results| && results[i] == Saved(false)
    requires forall k | i < k < |results| :: results[k] != Saved(true)
    ensures BlockedAfter(start, results)
  {
    if i < |results| - 1 {
      BlockedUntilSaved(start, results[..|results| - 1], i);
    }
  }

  /**
   * Any sequence of saves and resolutions. A connection that is resolved after a failed save, before
   * another one has succeeded, carries no key.
   */
  method Serve(p: Profile, requests: seq<Request>) returns (results: seq<Result>)
    requires forall i | 0 <= i < |requests| && requests[i].SaveRequest? :: ChangesOk(requests[i].changes)
    modifies p
    ensures |results| == |requests|
    ensures forall i | 0 <= i < |results| :: results[i].Saved? <==> requests[i].SaveRequest?
    ensures p.blocked == BlockedAfter(old(p.blocked), results)
    ensures forall i, j | 0 <= i < j < |results| && results[i] == Saved(false) && results[j].Resolved?
              && (forall k | i < k < j :: results[k] != Saved(true)) :: results[j] == Resolved(None)
  {
    hide BlockedAfter;
    results := [];
    NothingServed(p.blocked);
    for n := 0 to |requests|
      invariant |results| == n && p.blocked == BlockedAfter(old(p.blocked), results)
      invariant forall i | 0 <= i < n :: results[i].Saved? <==> requests[i].SaveRequest?
      invariant forall i, j | 0 <= i < j < n && results[i] == Saved(false) && results[j].Resolved?
                  && (forall k | i < k < j :: results[k] != Saved(true)) :: results[j] == Resolved(None)
    {
      ghost var before := results;
      match requests[n] {
        case SaveRequest(changes) =>
          var ok, _, _ := p.SaveConnection(changes);
          results := results + [Saved(ok)];
        case ResolveRequest(inline, inherited) =>
          var key := p.ResolveKey(inline, inherited);
          results := results + [Resolved(key)];
          forall i | 0 <= i < n && before[i] == Saved(false) && (forall k | i < k < n :: results[k] != Saved(true))
            ensures key.None?
          {
            assert forall k | i < k < n :: before[k] == results[k];
            BlockedUntilSaved(old(p.blocked), before, i);
          }
      }
      OneMoreServed(old(p.blocked), before, results[n]);
      assert results == before + [results[n]];
    }
  }

  lemma NothingServed(start: bool)
    ensures BlockedAfter(start, []) == start
  {
  }

  lemma OneMoreServed(start: bool, results: seq<Result>, result: Result)
    ensures BlockedAfter(start, results + [result])
         == if result.Saved? then !result.ok else BlockedAfter(start, results)
  {
    assert (results + [result])[..|results|] == results;
  }

  lemma ChangedMore(changes: seq<Change>, n: nat)
    requires n < |changes|
    ensures forall r :: Changed(changes[..n + 1], r) <==> Changed(changes[..n], r) || r == changes[n].ref
  {
    assert changes[..n + 1] == changes[..n] + [changes[n]];
    forall r ensures Changed(changes[..n + 1], r) <==> Changed(changes[..n], r) || r == changes[n].ref {
      if Changed(changes[..n], r) {
        var i :| 0 <= i < n && changes[..n][i].ref == r;
        assert changes[..n + 1][i].ref == r;
      }
      if r == changes[n].ref {
        assert changes[..n + 1][n].ref == r;
      }
    }
  }

  lemma ChangedPart(changes: seq<Change>, n: nat)
    requires n <= |changes|
    ensures forall r :: Changed(changes[..n], r) ==> Changed(changes, r)
  {
  }

  lemma RolledBack(before: Store, after: Store, changes: seq<Change>, touched: nat, previous: map<Ref, Option<string>>)
    requires ChangesOk(changes) && touched <= |changes|
    requires forall i | 0 <= i < |changes| :: changes[i].ref in previous
                  && Value(previous[changes[i].ref]) == Meaning(before, changes[i].ref)
    requires forall i | 0 <= i < touched :: Meaning(after, changes[i].ref) == Value(previous[changes[i].ref])
    requires forall r | !Changed(changes[..touched], r) :: Meaning(after, r) == Meaning(before, r)
    ensures AllOld(before, after, changes) && RestKept(before, after, changes)
  {
    ChangedPart(changes, touched);
    forall i | 0 <= i < |changes| ensures Meaning(after, changes[i].ref) == Meaning(before, changes[i].ref) {
      if Changed(changes[..touched], changes[i].ref) {
        var j :| 0 <= j < touched && changes[..touched][j].ref == changes[i].ref;
        assert changes[j].ref == changes[i].ref;
      }
    }
  }
}
