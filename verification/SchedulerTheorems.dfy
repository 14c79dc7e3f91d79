/** What holds of whole runs of the scheduler: mutual exclusion, order, liveness, termination,
    and independence of the final sets from the schedule. */
module SchedulerTheorems {
  import opened Text
  import opened Claims
  import opened Leases
  import opened Machine
  import opened History
  import opened Invariants

  // ---------- mutual exclusion ----------

  ghost predicate InProgress(s: State, id: string) {
    id in s.running && !s.running[id].Settled?
  }

  /** Any two tasks whose worker or integration is in progress together are safe together:
      they share no written file and no explicit resource, and a task of unknown scope or on a
      shared surface runs beside no writer. */
  lemma MutualExclusion(cfg: Config, steps: seq<Step>, a: string, b: string)
    requires ValidConfig(cfg) && IsRun(cfg, steps)
    requires a != b && InProgress(Exec(cfg, steps), a) && InProgress(Exec(cfg, steps), b)
    ensures a in cfg.byID && b in cfg.byID && SafeTogether(cfg.byID[a], cfg.byID[b], cfg.surface)
  {
    var s := Exec(cfg, steps);
    RunKeeps(cfg, steps);
    assert a in s.table.byOwner && b in s.table.byOwner;
    OwnersCompatible(s.table, a, b);
    CompatibleIffSafe(cfg.byID[a], cfg.byID[b], cfg.surface);
  }

  /** At most one task integrates at a time, it is the head of the queue, and it still holds
      every claim it took out when it started. */
  lemma OneIntegratesWithLeases(cfg: Config, steps: seq<Step>, a: string, b: string)
    requires ValidConfig(cfg) && IsRun(cfg, steps)
    requires var s := Exec(cfg, steps); a in s.running && s.running[a].Integrating? && b in s.running && s.running[b].Integrating?
    ensures a == b
    ensures ClaimsHeld(Exec(cfg, steps).table, a) == TaskClaims(cfg, a) && a in Exec(cfg, steps).table.byOwner
  {
    RunKeeps(cfg, steps);
  }

  /** Trying ready tasks never takes another task out of the pending ones. */
  lemma {:induction false} LaunchAllSpares(cfg: Config, s: State, limit: int, order: seq<string>, x: string)
    requires x in s.pending && x !in order
    ensures x in LaunchAll(cfg, s, limit, order).pending
    decreases |order|
  {
    if order != [] && |s.running| < limit {
      MinusMeaning(s.pending, order[0]);
      LaunchAllSpares(cfg, Consider(cfg, s, order[0]), limit, order[1..], x);
    }
  }

  lemma {:induction false} LaunchAllSplit(cfg: Config, s: State, limit: int, a: seq<string>, b: seq<string>)
    ensures LaunchAll(cfg, s, limit, a + b) == LaunchAll(cfg, LaunchAll(cfg, s, limit, a), limit, b)
    decreases |a|
  {
    if a == [] {
      assert a + b == b;
    } else if |s.running| < limit {
      assert (a + b)[0] == a[0] && (a + b)[1..] == a[1..] + b;
      LaunchAllSplit(cfg, Consider(cfg, s, a[0]), limit, a[1..], b);
    }
  }

  lemma LaunchablePrefix(cfg: Config, s: State, order: seq<string>, k: nat)
    requires Launchable(cfg, s, order) && k < |order|
    ensures Launchable(cfg, s, order[..k]) && order[k] in s.pending && order[k] !in order[..k]
  {
    assert order[k] in order && forall x :: x in order[..k] ==> x in order;
  }

  lemma PendingOwnsNothing(cfg: Config, s: State, id: string)
    requires Inv(cfg, s) && id in s.pending
    ensures id !in s.table.byOwner && Owned(s.table)
  {
  }

  lemma TriedIsFresh(cfg: Config, c: State, limit: int, order: seq<string>, k: nat)
    requires ValidConfig(cfg) && Inv(cfg, c) && NoStall(c.blocked) && Launchable(cfg, c, order)
    requires limit <= Requested(cfg.maxConcurrent) && k < |order|
    ensures var tried := LaunchAll(cfg, c, limit, order[..k]);
      order[k] !in tried.table.byOwner && Owned(tried.table)
  {
    LaunchablePrefix(cfg, c, order, k);
    LaunchAllKeeps(cfg, c, limit, order[..k]);
    LaunchAllSpares(cfg, c, limit, order[..k], order[k]);
    PendingOwnsNothing(cfg, LaunchAll(cfg, c, limit, order[..k]), order[k]);
  }

  lemma PassTriesFresh(cfg: Config, s: State, order: seq<string>, k: nat)
    requires ValidConfig(cfg) && StepInv(cfg, s) && Enabled(cfg, s, PassStep(order)) && k < |order|
    ensures var tried := LaunchAll(cfg, BeforeLaunching(cfg, s), PassLimit(cfg, s), order[..k]);
      order[k] !in tried.table.byOwner && Owned(tried.table)
  {
    BeforeLaunchingKeeps(cfg, s, order);
    LimitOfPass(cfg, s);
    TriedIsFresh(cfg, BeforeLaunching(cfg, s), PassLimit(cfg, s), order, k);
  }

  lemma PassSplits(cfg: Config, s: State, order: seq<string>, k: nat)
    requires k < |order|
    ensures var c, limit := BeforeLaunching(cfg, s), PassLimit(cfg, s);
      AfterLaunching(cfg, s, order) == LaunchAll(cfg, LaunchAll(cfg, c, limit, order[..k]), limit, order[k..])
  {
    LaunchAllSplit(cfg, BeforeLaunching(cfg, s), PassLimit(cfg, s), order[..k], order[k..]);
    assert order[..k] + order[k..] == order;
  }

  /** The scheduler only ever acquires for owners that hold nothing, which is what the lease table
      needs for its invariant: in every pass of every run, when the `k`-th ready task is tried, the
      table is sound and that task owns nothing in it. */
  lemma OwnersAreFresh(cfg: Config, steps: seq<Step>, order: seq<string>, k: nat)
    requires ValidConfig(cfg) && IsRun(cfg, steps) && Enabled(cfg, Exec(cfg, steps), PassStep(order)) && k < |order|
    ensures var c, limit := BeforeLaunching(cfg, Exec(cfg, steps)), PassLimit(cfg, Exec(cfg, steps));
      var tried := LaunchAll(cfg, c, limit, order[..k]);
      && order[k] !in tried.table.byOwner && Owned(tried.table)
      && AfterLaunching(cfg, Exec(cfg, steps), order) == LaunchAll(cfg, tried, limit, order[k..])
  {
    RunKeeps(cfg, steps);
    PassTriesFresh(cfg, Exec(cfg, steps), order, k);
    PassSplits(cfg, Exec(cfg, steps), order, k);
  }

  // ---------- the history of a run ----------

  /** Every run produces a legal history, so all the laws of module History hold of it. */
  lemma RunsAreLegal(cfg: Config, steps: seq<Step>)
    requires ValidConfig(cfg) && IsRun(cfg, steps)
    ensures Legal(cfg, Exec(cfg, steps).log)
  {
    RunKeeps(cfg, steps);
  }

  /** Over whole runs: integrations begin in the order workers finished, one at a time, and only
      after every dependency in the run has been integrated. */
  lemma IntegrationOrder(cfg: Config, steps: seq<Step>, i: nat, d: string)
    requires ValidConfig(cfg) && IsRun(cfg, steps)
    requires var log := Exec(cfg, steps).log;
      i < |log| && log[i].IntegrationStarted? && d in Deps(cfg, log[i].id) && d !in cfg.done0
    ensures var log := Exec(cfg, steps).log;
      && Integrated(log) <= Finishers(log)
      && IntegrationEnded(d, true) in log[..i]
      && forall j :: i < j < |log| && log[j].IntegrationStarted? ==>
           exists k :: i < k < j && log[k].IntegrationEnded? && log[k].id == log[i].id
  {
    var log := Exec(cfg, steps).log;
    RunsAreLegal(cfg, steps);
    FirstFinishedFirstIntegrated(cfg, log);
    IntegrationRespectsDependencies(cfg, log, i, d);
    forall j | i < j < |log| && log[j].IntegrationStarted?
      ensures exists k :: i < k < j && log[k].IntegrationEnded? && log[k].id == log[i].id
    {
      IntegrationsDoNotOverlap(cfg, log, i, j);
    }
  }

  // ---------- the finished scheduler ----------

  /** When the loop is left nothing is held, queued, running or pending, and every task is in
      exactly one of the three result sets. */
  lemma FinishedIsClean(cfg: Config, steps: seq<Step>)
    requires ValidConfig(cfg) && IsRun(cfg, steps) && Exec(cfg, steps).pc == Finished
    ensures var s := Exec(cfg, steps);
      && s.table == EMPTY_TABLE && s.queue == [] && s.pending == [] && s.running == map[]
      && (forall id :: id in cfg.byID <==>
            (id in s.completed && id !in cfg.done0) || id in s.failed || id in s.blocked)
      && s.completed !! s.failed && s.completed !! s.blocked.Keys && s.failed !! s.blocked.Keys
  {
    var s := Exec(cfg, steps);
    RunKeeps(cfg, steps);
    assert s.table.byOwner == map[];
    NoOwnersNoResources(s.table);
    EmptyOrMember(s.queue);
  }

  /** Each task has exactly one terminal event, of the kind its result set says; it has a start
      event, before that, unless it was blocked, and then none. */
  lemma OneTerminalEvent(cfg: Config, steps: seq<Step>, id: string) returns (i: nat)
    requires ValidConfig(cfg) && IsRun(cfg, steps) && Exec(cfg, steps).pc == Finished && id in cfg.byID
    ensures var s := Exec(cfg, steps);
      && i < |s.log| && IsTerminal(s.log[i]) && s.log[i].id == id
      && (forall j :: 0 <= j < |s.log| && IsTerminal(s.log[j]) && s.log[j].id == id ==> j == i)
      && (s.log[i].Completed? <==> id in s.completed)
      && (s.log[i].Failed? <==> id in s.failed)
      && (s.log[i].Blocked? <==> id in s.blocked)
      && (if s.log[i].Blocked? then Started(id) !in s.log else Started(id) in s.log[..i])
  {
    var s := Exec(cfg, steps);
    FinishedIsClean(cfg, steps);
    RunKeeps(cfg, steps);
    var e := if id in s.completed then Completed(id) else if id in s.failed then Failed(id) else Blocked(id, s.blocked[id]);
    i := Position(s.log, e);
    StartBeforeTerminal(cfg, s.log, i);
    forall j | 0 <= j < |s.log| && IsTerminal(s.log[j]) && s.log[j].id == id ensures j == i {
      if i < j {
        OneTerminalEach(cfg, s.log, i, j);
      } else if j < i {
        OneTerminalEach(cfg, s.log, j, i);
      }
    }
  }

  /** Under failFast no start event follows the first failed event. */
  lemma FailFastRuns(cfg: Config, steps: seq<Step>, i: nat, j: nat)
    requires ValidConfig(cfg) && IsRun(cfg, steps) && cfg.failFast
    requires i < j < |Exec(cfg, steps).log| && Exec(cfg, steps).log[i].Failed?
    ensures !Exec(cfg, steps).log[j].Started?
  {
    RunsAreLegal(cfg, steps);
    FailFastStopsStarts(cfg, Exec(cfg, steps).log, i, j);
  }

  // ---------- schedule independence ----------

  /** The outcomes a run met: every completed task succeeds under `ok`, every failed one fails. */
  ghost predicate Agrees(cfg: Config, s: State, ok: string -> bool) {
    && (forall id :: id in s.completed && id in cfg.byID ==> ok(id))
    && (forall id :: id in s.failed ==> !ok(id))
  }

  ghost predicate Fed(cfg: Config, x: set<string>, id: string) {
    forall d :: d in Deps(cfg, id) ==> d in cfg.done0 || d in x
  }

  /** A set of tasks that contains every succeeding task all of whose dependencies it contains. */
  ghost predicate Closed(cfg: Config, ok: string -> bool, x: set<string>) {
    forall id :: id in cfg.byID && ok(id) && Fed(cfg, x, id) ==> id in x
  }

  /** The least fixpoint of "succeeds and all dependencies completed". */
  ghost predicate IsLeastFixpoint(cfg: Config, ok: string -> bool, x: set<string>) {
    && (forall id :: id in x <==> id in cfg.byID && ok(id) && Fed(cfg, x, id))
    && (forall y :: Closed(cfg, ok, y) ==> x <= y)
  }

  lemma {:induction false} CompletedWithinClosed(cfg: Config, log: seq<Event>, ok: string -> bool, x: set<string>, n: nat)
    requires Legal(cfg, log) && Closed(cfg, ok, x) && n <= |log|
    requires forall id :: Completed(id) in log ==> id in cfg.byID && ok(id)
    ensures forall id :: Completed(id) in log[..n] ==> id in x
  {
    if n > 0 {
      CompletedWithinClosed(cfg, log, ok, x, n - 1);
      assert log[..n] == log[..n - 1] + [log[n - 1]];
      if log[n - 1].Completed? {
        var id := log[n - 1].id;
        assert Completed(id) in log;
        forall d | d in Deps(cfg, id) ensures d in cfg.done0 || d in x {
          if d !in cfg.done0 {
            CompletionsFollowDependencies(cfg, log, n - 1, d);
          }
        }
        assert Fed(cfg, x, id);
      }
    }
  }

  /** A blocked task of a finished run has a dependency that did not complete. */
  lemma BlockedHasBadDependency(cfg: Config, steps: seq<Step>, id: string) returns (d: string)
    requires ValidConfig(cfg) && IsRun(cfg, steps) && Exec(cfg, steps).pc == Finished && !cfg.failFast
    requires id in Exec(cfg, steps).blocked
    ensures d in Deps(cfg, id) && d !in Exec(cfg, steps).completed && d in cfg.byID
    ensures d in Exec(cfg, steps).failed || d in Exec(cfg, steps).blocked
  {
    var s := Exec(cfg, steps);
    RunKeeps(cfg, steps);
    FinishedIsClean(cfg, steps);
    assert Blamed(cfg, s.running.Keys, s.completed, s.failed, s.blocked, id, s.blocked[id]);
    match s.blocked[id]
    case Dependency(dep) => d := dep;
    case NoRunnableTask => d :| d in Deps(cfg, id) && d !in s.completed;
  }

  /** In a finished run completion is decided by the graph and the outcomes alone. */
  lemma CompletedIffFed(cfg: Config, steps: seq<Step>, ok: string -> bool, id: string)
    requires ValidConfig(cfg) && IsRun(cfg, steps) && Exec(cfg, steps).pc == Finished && !cfg.failFast
    requires Agrees(cfg, Exec(cfg, steps), ok) && id in cfg.byID
    ensures var s := Exec(cfg, steps); var ran := s.completed - cfg.done0;
      && (id in ran <==> ok(id) && Fed(cfg, ran, id))
      && (id in s.failed <==> !ok(id) && Fed(cfg, ran, id))
      && (id in s.blocked <==> !Fed(cfg, ran, id))
  {
    var s := Exec(cfg, steps);
    var ran := s.completed - cfg.done0;
    RunKeeps(cfg, steps);
    FinishedIsClean(cfg, steps);
    if id in s.blocked {
      var d := BlockedHasBadDependency(cfg, steps, id);
      assert !Fed(cfg, ran, id);
    } else {
      assert DepsDone(cfg, s.completed, id);
      assert Fed(cfg, ran, id);
    }
  }

  /** The three result sets the graph and the outcomes prescribe: the completed tasks of the run
      are the least fixpoint, the failed ones are those that fail with all dependencies completed,
      and everything else, cycles included, is blocked. */
  ghost predicate Canonical(cfg: Config, ok: string -> bool, completed: set<string>, failed: set<string>, blocked: set<string>) {
    var ran := completed - cfg.done0;
    && cfg.done0 <= completed
    && IsLeastFixpoint(cfg, ok, ran)
    && (forall id :: id in failed <==> id in cfg.byID && !ok(id) && Fed(cfg, ran, id))
    && (forall id :: id in blocked <==> id in cfg.byID && !Fed(cfg, ran, id))
  }

  lemma OutcomeIsCanonical(cfg: Config, steps: seq<Step>, ok: string -> bool)
    requires ValidConfig(cfg) && IsRun(cfg, steps) && Exec(cfg, steps).pc == Finished && !cfg.failFast
    requires Agrees(cfg, Exec(cfg, steps), ok)
    ensures var s := Exec(cfg, steps); Canonical(cfg, ok, s.completed, s.failed, s.blocked.Keys)
  {
    var s := Exec(cfg, steps);
    var ran := s.completed - cfg.done0;
    RunKeeps(cfg, steps);
    FinishedIsClean(cfg, steps);
    forall id | id in cfg.byID
      ensures id in ran <==> ok(id) && Fed(cfg, ran, id)
      ensures id in s.failed <==> !ok(id) && Fed(cfg, ran, id)
      ensures id in s.blocked <==> !Fed(cfg, ran, id)
    {
      CompletedIffFed(cfg, steps, ok, id);
    }
    forall y | Closed(cfg, ok, y) ensures ran <= y {
      assert s.log[..|s.log|] == s.log;
      CompletedWithinClosed(cfg, s.log, ok, y, |s.log|);
    }
  }

  ghost predicate SameGraph(a: Config, b: Config) {
    && a.byID.Keys == b.byID.Keys && a.done0 == b.done0
    && forall id :: Deps(a, id) == Deps(b, id)
  }

  lemma LeastFixpointUnique(a: Config, b: Config, ok: string -> bool, x: set<string>, y: set<string>)
    requires SameGraph(a, b) && IsLeastFixpoint(a, ok, x) && IsLeastFixpoint(b, ok, y)
    ensures x == y
  {
    assert forall z, id :: Fed(a, z, id) == Fed(b, z, id);
    assert Closed(a, ok, y) && Closed(b, ok, x);
  }

  lemma CanonicalIsUnique(a: Config, b: Config, ok: string -> bool, completed: set<string>, failed: set<string>,
                          blocked: set<string>, completed': set<string>, failed': set<string>, blocked': set<string>)
    requires SameGraph(a, b)
    requires Canonical(a, ok, completed, failed, blocked) && Canonical(b, ok, completed', failed', blocked')
    ensures completed == completed' && failed == failed' && blocked == blocked'
  {
    LeastFixpointUnique(a, b, ok, completed - a.done0, completed' - b.done0);
    assert completed == (completed - a.done0) + a.done0;
    assert completed' == (completed' - b.done0) + b.done0;
    assert forall z, id :: Fed(a, z, id) == Fed(b, z, id);
  }

  /** Schedule independence: two finished runs over one graph that met the same outcomes end with
      the same three sets, whatever the interleaving, the claims and conflicts, the launch order,
      the concurrency bound, and whether results are integrated. */
  lemma ScheduleIndependence(a: Config, runA: seq<Step>, b: Config, runB: seq<Step>, ok: string -> bool)
    requires ValidConfig(a) && IsRun(a, runA) && Exec(a, runA).pc == Finished && !a.failFast
    requires ValidConfig(b) && IsRun(b, runB) && Exec(b, runB).pc == Finished && !b.failFast
    requires SameGraph(a, b) && Agrees(a, Exec(a, runA), ok) && Agrees(b, Exec(b, runB), ok)
    ensures Exec(a, runA).completed == Exec(b, runB).completed
    ensures Exec(a, runA).failed == Exec(b, runB).failed
    ensures Exec(a, runA).blocked.Keys == Exec(b, runB).blocked.Keys
  {
    OutcomeIsCanonical(a, runA, ok);
    OutcomeIsCanonical(b, runB, ok);
    var s, t := Exec(a, runA), Exec(b, runB);
    CanonicalIsUnique(a, b, ok, s.completed, s.failed, s.blocked.Keys, t.completed, t.failed, t.blocked.Keys);
  }
}
