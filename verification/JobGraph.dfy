/** The search through the dependencies of release jobs, with one set of seen jobs for all branches. */
module JobGraph {
  type Job = string

  /** The `needs` of each job; a job may be named without being defined, and cycles are possible. */
  type Jobs = map<Job, seq<Job>>

  predicate Edge(jobs: Jobs, a: Job, b: Job) {
    a in jobs && b in jobs[a]
  }

  predicate IsChain(jobs: Jobs, chain: seq<Job>) {
    chain != [] && forall i | 0 <= i < |chain| - 1 :: Edge(jobs, chain[i], chain[i + 1])
  }

  /** A chain of dependencies, possibly of one job, leads from `start` to `target`. */
  ghost predicate Reachable(jobs: Jobs, start: Job, target: Job) {
    exists chain :: IsChain(jobs, chain) && chain[0] == start && chain[|chain| - 1] == target
  }

  /** All jobs that are defined or needed. */
  function Named(jobs: Jobs): set<Job> {
    jobs.Keys + set a, b | a in jobs && b in jobs[a] :: b
  }

  /** The jobs of the set have been searched: none is the target, and what they need is seen. */
  predicate Searched(jobs: Jobs, jobsSearched: set<Job>, seen: set<Job>, target: Job) {
    && target !in jobsSearched
    && forall a, b | a in jobsSearched && a in jobs && b in jobs[a] :: b in seen
  }

  lemma ReachesSelf(jobs: Jobs, a: Job)
    ensures Reachable(jobs, a, a)
  {
    assert IsChain(jobs, [a]) && [a][0] == a;
  }

  lemma ReachesOver(jobs: Jobs, a: Job, b: Job, target: Job)
    requires Edge(jobs, a, b) && Reachable(jobs, b, target)
    ensures Reachable(jobs, a, target)
  {
    var chain :| IsChain(jobs, chain) && chain[0] == b && chain[|chain| - 1] == target;
    var longer := [a] + chain;
    assert forall i | 0 < i < |longer| - 1 :: longer[i] == chain[i - 1] && longer[i + 1] == chain[i];
    assert IsChain(jobs, longer) && longer[0] == a && longer[|longer| - 1] == target;
  }

  /** A set that is closed under the dependencies and misses the target cannot reach it. */
  lemma {:induction false} ClosedMisses(jobs: Jobs, seen: set<Job>, target: Job, chain: seq<Job>)
    requires Searched(jobs, seen, seen, target) && IsChain(jobs, chain) && chain[0] in seen
    ensures chain[|chain| - 1] in seen && chain[|chain| - 1] != target
    decreases |chain|
  {
    if |chain| > 1 {
      assert Edge(jobs, chain[0], chain[1]);
      var rest := chain[1..];
      forall i | 0 <= i < |rest| - 1 ensures Edge(jobs, rest[i], rest[i + 1]) {
        assert Edge(jobs, chain[i + 1], chain[i + 2]);
      }
      ClosedMisses(jobs, seen, target, rest);
    }
  }

  class JobSearch {
    const jobs: Jobs
    var seen: set<Job>

    constructor (jobs: Jobs)
      ensures this.jobs == jobs && seen == {}
    {
      this.jobs, seen := jobs, {};
    }

    /** One branch of the search, among the jobs `all`. */
    method Visit(start: Job, target: Job, ghost all: set<Job>) returns (found: bool)
      requires Named(jobs) <= all && start in all
      modifies this
      ensures old(seen) <= seen
      ensures found ==> Reachable(jobs, start, target)
      ensures !found ==> start in seen && Searched(jobs, seen - old(seen), seen, target)
      ensures start != target && start in old(seen) ==> !found && seen == old(seen)
      decreases |all - seen|
    {
      if start == target {
        ReachesSelf(jobs, start);
        return true;
      }
      if start in seen {
        return false;
      }
      seen := seen + {start};
      if start !in jobs {
        return false;
      }
      ghost var before := old(seen) + {start};
      for i := 0 to |jobs[start]|
        invariant before <= seen
        invariant forall j | 0 <= j < i :: jobs[start][j] in seen
        invariant Searched(jobs, seen - before, seen, target)
      {
        var dependency := jobs[start][i];
        assert Edge(jobs, start, dependency) && dependency in Named(jobs);
        ghost var earlier := seen;
        Shrinks(all, before, seen, old(seen), start);
        found := Visit(dependency, target, all);
        if found {
          ReachesOver(jobs, start, dependency, target);
          return true;
        }
        assert seen - before == (seen - earlier) + (earlier - before);
      }
      assert seen - old(seen) == (seen - before) + {start};
      found := false;
    }

    /** The search decides reachability for every finite graph. */
    method ReachesJob(start: Job, target: Job) returns (found: bool)
      requires seen == {}
      modifies this
      ensures found <==> Reachable(jobs, start, target)
    {
      found := Visit(start, target, Named(jobs) + {start});
      if !found {
        assert seen - {} == seen;
        forall chain | IsChain(jobs, chain) && chain[0] == start ensures chain[|chain| - 1] != target {
          ClosedMisses(jobs, seen, target, chain);
        }
      }
    }
  }

  lemma Shrinks(all: set<Job>, before: set<Job>, seen: set<Job>, was: set<Job>, start: Job)
    requires before <= seen && before == was + {start} && start in all && start !in was
    ensures |all - seen| < |all - was|
  {
    assert all - seen <= (all - was) - {start};
    Fewer(all - seen, (all - was) - {start});
  }

  lemma Fewer(a: set<Job>, b: set<Job>)
    requires a <= b
    ensures |a| <= |b|
  {
    assert b == a + (b - a);
  }
}
