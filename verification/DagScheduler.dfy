/** The scheduler in its imperative form (parallel-runtime.js, lines 89-271), proved step by step
    against the machine of module Machine. */
module DagScheduler {
  import opened Claims
  import opened Leases
  import opened LeaseTable
  import opened Machine
  import opened History
  import opened Invariants
  import opened SchedulerTheorems
  import opened Liveness

  // ---------- graph validation ----------

  datatype GraphCheck =
    | Graph(byID: map<string, Task>)
    | BadIds
    | MissingDependency(task: string, dep: string)

  ghost predicate GoodIds(tasks: seq<Task>) {
    && (forall i :: 0 <= i < |tasks| ==> tasks[i].id != "")
    && (forall i, j :: 0 <= i < j < |tasks| ==> tasks[i].id != tasks[j].id)
  }

  predicate Known(tasks: seq<Task>, completed: set<string>, dep: string) {
    dep in completed || exists t :: t in tasks && t.id == dep
  }

  ghost predicate GoodDependencies(tasks: seq<Task>, completed: set<string>) {
    forall t, d :: t in tasks && d in t.deps ==> Known(tasks, completed, d)
  }

  function Ids(tasks: seq<Task>): seq<string> {
    seq(|tasks|, i requires 0 <= i < |tasks| => tasks[i].id)
  }

  ghost predicate Indexes(byID: map<string, Task>, tasks: seq<Task>) {
    && (forall t :: t in tasks ==> t.id in byID && byID[t.id] == t)
    && (forall id :: id in byID ==> byID[id] in tasks && byID[id].id == id)
  }

  /** The graph is accepted exactly when ids are non-empty and unique and every dependency is a
      task or already completed. There is no test for cycles. */
  method ValidateGraph(tasks: seq<Task>, completed: set<string>) returns (r: GraphCheck)
    ensures r.BadIds? <==> !GoodIds(tasks)
    ensures r.Graph? <==> GoodIds(tasks) && GoodDependencies(tasks, completed)
    ensures r.Graph? ==> Indexes(r.byID, tasks)
    ensures r.MissingDependency? ==>
      exists t :: t in tasks && t.id == r.task && r.dep in t.deps && !Known(tasks, completed, r.dep)
  {
    var byID: map<string, Task> := map[];
    for i := 0 to |tasks|
      invariant GoodIds(tasks[..i])
      invariant Indexes(byID, tasks[..i])
    {
      var id := tasks[i].id;
      if id == "" || id in byID {
        if id in byID {
          var j :| 0 <= j < i && tasks[..i][j] == byID[id];
          assert tasks[j].id == tasks[i].id;
        }
        return BadIds;
      }
      byID := byID[id := tasks[i]];
      assert tasks[..i + 1] == tasks[..i] + [tasks[i]];
    }
    assert tasks[..|tasks|] == tasks;
    for i := 0 to |tasks|
      invariant forall k, d :: 0 <= k < i && d in tasks[k].deps ==> Known(tasks, completed, d)
    {
      var deps := tasks[i].deps;
      for j := 0 to |deps|
        invariant forall k :: 0 <= k < j ==> Known(tasks, completed, deps[k])
      {
        if deps[j] !in byID && deps[j] !in completed {
          assert !Known(tasks, completed, deps[j]);
          assert tasks[i] in tasks && deps[j] in tasks[i].deps;
          return MissingDependency(tasks[i].id, deps[j]);
        }
        assert deps[j] in byID ==> byID[deps[j]] in tasks;
      }
    }
    return Graph(byID);
  }

  /** A validated graph whose completed ids are no task ids is a valid configuration. */
  lemma ValidatedConfig(tasks: seq<Task>, byID: map<string, Task>, completed: set<string>, maxConcurrent: int,
                        failFast: bool, integrates: bool, surface: string -> bool)
    requires GoodIds(tasks) && GoodDependencies(tasks, completed) && Indexes(byID, tasks)
    requires forall t :: t in tasks ==> t.id !in completed
    ensures ValidConfig(Config(Ids(tasks), byID, completed, maxConcurrent, failFast, integrates, surface))
  {
    var order := Ids(tasks);
    forall id ensures id in order <==> id in byID {
      if id in order {
        var i :| 0 <= i < |order| && order[i] == id;
        assert tasks[i] in tasks;
      }
      if id in byID {
        var i :| 0 <= i < |tasks| && tasks[i] == byID[id];
        assert order[i] == id;
      }
    }
    var cfg := Config(order, byID, completed, maxConcurrent, failFast, integrates, surface);
    forall id, d | id in byID && d in Deps(cfg, id) ensures d in byID || d in completed {
      assert byID[id] in tasks && d in byID[id].deps;
      assert Known(tasks, completed, d);
    }
  }

  // ---------- the adaptive worker count ----------

  method AdaptiveWorkerCount(requestedInput: int, readyCount: nat, recentFailures: nat, conflictRate: real)
    returns (limit: int)
    ensures limit == WorkerLimit(requestedInput, readyCount, recentFailures, conflictRate)
    ensures var full := if readyCount < 1 then 1 else if readyCount < Clamped(requestedInput) then readyCount else Clamped(requestedInput);
      limit == Pressed(full, recentFailures >= 2, conflictRate >= 0.35)
    ensures 1 <= limit <= Clamped(requestedInput) <= 16
  {
    var requested := Max(1, Min(16, if requestedInput == 0 then 4 else requestedInput));
    limit := Min(requested, Max(1, if readyCount == 0 then 1 else readyCount));
    if recentFailures >= 2 {
      limit := Max(1, HalfUp(limit));
    }
    if conflictRate >= 0.35 {
      limit := Max(1, HalfUp(limit));
    }
  }

  // ---------- the order in which ready tasks are tried ----------

  /** Whether one id may stand before another: the locale's comparison, whatever it is. */
  type Collation = (string, string) -> bool

  function InsertBy(le: Collation, x: string, s: seq<string>): seq<string> {
    if s == [] then [x]
    else if le(x, s[0]) then [x] + s
    else [s[0]] + InsertBy(le, x, s[1..])
  }

  function SortBy(le: Collation, s: seq<string>): seq<string> {
    if s == [] then [] else InsertBy(le, s[0], SortBy(le, s[1..]))
  }

  lemma {:induction false} InsertMeaning(le: Collation, x: string, s: seq<string>)
    ensures |InsertBy(le, x, s)| == |s| + 1
    ensures forall y :: y in InsertBy(le, x, s) <==> y == x || y in s
    ensures NoDup(s) && x !in s ==> NoDup(InsertBy(le, x, s))
  {
    if s != [] {
      InsertMeaning(le, x, s[1..]);
      assert s == [s[0]] + s[1..];
      assert s[0] in s && (forall y :: y in s <==> y == s[0] || y in s[1..]);
      assert NoDup(s) ==> NoDup(s[1..]) && s[0] !in s[1..];
    }
  }

  /** Whatever the comparison says, ready tasks are tried in some permutation. */
  lemma {:induction false} SortPermutes(le: Collation, s: seq<string>)
    requires NoDup(s)
    ensures Permutes(SortBy(le, s), s)
  {
    if s != [] {
      assert s == [s[0]] + s[1..] && (forall y :: y in s <==> y == s[0] || y in s[1..]);
      assert s[0] !in s[1..];
      SortPermutes(le, s[1..]);
      InsertMeaning(le, s[0], SortBy(le, s[1..]));
    }
  }

  ghost predicate TotalOrder(le: Collation) {
    && (forall x, y :: le(x, y) || le(y, x))
    && (forall x, y, z :: le(x, y) && le(y, z) ==> le(x, z))
  }

  ghost predicate Ascending(le: Collation, s: seq<string>) {
    forall i, j :: 0 <= i < j < |s| ==> le(s[i], s[j])
  }

  lemma {:induction false} InsertAscends(le: Collation, x: string, s: seq<string>)
    requires TotalOrder(le) && Ascending(le, s)
    ensures Ascending(le, InsertBy(le, x, s))
  {
    if s != [] && !le(x, s[0]) {
      assert Ascending(le, s[1..]);
      InsertAscends(le, x, s[1..]);
      InsertMeaning(le, x, s[1..]);
      assert forall y :: y in s[1..] ==> le(s[0], y);
    }
  }

  /** When the comparison is a total order, they are tried in that order. */
  lemma {:induction false} SortAscends(le: Collation, s: seq<string>)
    requires TotalOrder(le)
    ensures Ascending(le, SortBy(le, s))
  {
    if s != [] {
      SortAscends(le, s[1..]);
      InsertAscends(le, s[0], SortBy(le, s[1..]));
    }
  }

  // ---------- facts about the next pass of a run ----------

  lemma ReadyListed(cfg: Config, steps: seq<Step>)
    requires ValidConfig(cfg) && IsRun(cfg, steps) && Exec(cfg, steps).pc == Top
    ensures NoDup(Ready(cfg, AfterBlocking(cfg, Exec(cfg, steps))))
  {
    var s := Exec(cfg, steps);
    RunKeeps(cfg, steps);
    BlockPassKeeps(cfg, s);
    ReadyMeaning(cfg, AfterBlocking(cfg, s).completed, AfterBlocking(cfg, s).pending);
  }

  lemma PassFacts(cfg: Config, steps: seq<Step>, order: seq<string>)
    requires ValidConfig(cfg) && IsRun(cfg, steps) && Enabled(cfg, Exec(cfg, steps), PassStep(order))
    ensures forall x :: x in order ==> x in cfg.byID
    ensures NoDup(AfterLaunching(cfg, Exec(cfg, steps), order).pending)
  {
    RunKeeps(cfg, steps);
    BeforeLaunchingKeeps(cfg, Exec(cfg, steps), order);
    AfterLaunchingKeeps(cfg, Exec(cfg, steps), order);
  }

  // ---------- the scheduler object ----------

  class Scheduler {
    const cfg: Config
    const collate: Collation
    const leases: ResourceLeaseTable
    var pending: seq<string>
    var running: map<string, Phase>
    var completed: set<string>
    var failed: set<string>
    var blocked: map<string, Reason>
    var queue: seq<string>
    var conflictDeferrals: nat
    var schedulingChecks: nat
    var log: seq<Event>

    ghost function View(pc: Control): (s: State)
      reads this, leases
    {
      State(pc, pending, running, completed, failed, blocked, leases.View(), queue, conflictDeferrals, schedulingChecks, log)
    }

    constructor (cfg: Config, collate: Collation)
      ensures this.cfg == cfg && this.collate == collate && fresh(leases)
      ensures View(Top) == Init(cfg)
    {
      this.cfg, this.collate := cfg, collate;
      leases := new ResourceLeaseTable();
      pending, running, completed := cfg.order, map[], cfg.done0;
      failed, blocked, queue := {}, map[], [];
      conflictDeferrals, schedulingChecks, log := 0, 0, [];
    }

    method FindBadDependency(deps: seq<string>) returns (bad: Found)
      ensures bad == FindBad(View(Top), deps)
    {
      for i := 0 to |deps|
        invariant FindBad(View(Top), deps) == FindBad(View(Top), deps[i..])
      {
        assert deps[i..][0] == deps[i] && deps[i..][1..] == deps[i + 1..];
        if deps[i] in failed || deps[i] in blocked {
          return Dep(deps[i]);
        }
      }
      return Nothing;
    }

    /** One sweep over the pending tasks, blocking those with a failed or blocked dependency. */
    method BlockSweep()
      modifies this, leases
      ensures View(Top) == AfterBlocking(cfg, old(View(Top)))
    {
      var ids := pending;
      assert ids[0..] == ids;
      for i := 0 to |ids|
        invariant BlockPass(cfg, View(Top), ids[i..]) == BlockPass(cfg, old(View(Top)), ids)
      {
        assert ids[i..][0] == ids[i] && ids[i..][1..] == ids[i + 1..];
        var bad := FindBadDependency(Deps(cfg, ids[i]));
        if bad.Dep? {
          pending := Minus(pending, ids[i]);
          blocked := blocked[ids[i] := Dependency(bad.dep)];
          log := log + [Blocked(ids[i], Dependency(bad.dep))];
        }
      }
    }

    method ReadyTasks() returns (ready: seq<string>)
      ensures ready == Ready(cfg, View(Top))
    {
      ready := [];
      for i := 0 to |pending|
        invariant ready == ReadyAmong(cfg, completed, pending[..i])
      {
        if DepsDone(cfg, completed, pending[i]) {
          ready := ready + [pending[i]];
        }
        assert pending[..i + 1][..i] == pending[..i];
      }
      assert pending[..|pending|] == pending;
    }

    method Launch(id: string)
      requires id in cfg.byID && Leases.CanAcquire(leases.View(), id, TaskClaims(cfg, id))
      modifies this, leases
      ensures View(Top) == Machine.Launch(cfg, old(View(Top)), id)
    {
      var claims := ClaimMap(cfg.byID[id], cfg.surface);
      var granted := leases.Acquire(id, claims);
      pending := Minus(pending, id);
      log := log + [Started(id)];
      running := running[id := Working];
    }

    /** One ready task is launched, or counted as deferred when its claims conflict. */
    method TryLaunch(id: string)
      requires id in cfg.byID
      modifies this, leases
      ensures View(Top) == Consider(cfg, old(View(Top)), id)
    {
      var claims := ClaimMap(cfg.byID[id], cfg.surface);
      var free := leases.CanAcquire(id, claims);
      if !free {
        conflictDeferrals := conflictDeferrals + 1;
      } else {
        Launch(id);
      }
    }

    /** The loop over the ready tasks, left early at the limit. */
    method LaunchSweep(order: seq<string>, limit: int)
      requires forall x :: x in order ==> x in cfg.byID
      modifies this, leases
      ensures View(Top) == LaunchAll(cfg, old(View(Top)), limit, order)
    {
      assert order[0..] == order;
      for i := 0 to |order|
        invariant LaunchAll(cfg, View(Top), limit, order[i..]) == LaunchAll(cfg, old(View(Top)), limit, order)
      {
        if |running| >= limit {
          return;
        }
        assert order[i..][0] == order[i] && order[i..][1..] == order[i + 1..];
        TryLaunch(order[i]);
      }
    }

    /** Every task still pending is recorded as blocked for one reason. */
    method BlockRest(reason: Reason, ghost pc: Control)
      requires NoDup(pending)
      modifies this
      ensures View(pc) == BlockAll(old(View(pc)), reason)
    {
      ghost var start := View(pc);
      assert pending[0..] == pending;
      for i := 0 to |pending|
        invariant pending == old(pending) && leases.View() == old(leases.View())
        invariant View(pc) == start.(blocked := blocked, log := log)
        invariant BlockAll(View(pc).(pending := pending[i..]), reason) == BlockAll(start, reason)
      {
        var id := pending[i];
        MinusHead(pending[i..]);
        assert pending[i..][0] == id && pending[i..][1..] == pending[i + 1..];
        blocked := blocked[id := reason];
        log := log + [Blocked(id, reason)];
      }
      pending := [];
    }

    // ---------- what happens while the loop waits ----------

    method WorkerEnds(id: string, ok: bool)
      requires id in running && running[id].Working?
      modifies this, leases
      ensures View(Waiting) == Machine.WorkerEnds(cfg, old(View(Waiting)), id, ok)
    {
      if ok && cfg.integrates {
        running := running[id := Queued];
        queue := queue + [id];
        log := log + [WorkerFinished(id)];
      } else {
        running := running[id := Settled(ok)];
        leases.Release(id);
      }
    }

    method IntegrationBegins()
      requires queue != [] && queue[0] in running && running[queue[0]].Queued?
      modifies this
      ensures View(Waiting) == Machine.IntegrationBegins(old(View(Waiting)), old(queue[0]))
    {
      running := running[queue[0] := Integrating];
      log := log + [IntegrationStarted(queue[0])];
    }

    method IntegrationEnds(ok: bool)
      requires queue != [] && queue[0] in running && running[queue[0]].Integrating?
      modifies this, leases
      ensures View(Waiting) == Machine.IntegrationEnds(old(View(Waiting)), old(queue[0]), ok)
    {
      var id := queue[0];
      running := running[id := Settled(ok)];
      queue := queue[1..];
      log := log + [IntegrationEnded(id, ok)];
      leases.Release(id);
    }

    /** The loop takes one settled promise out of `running`. */
    method Settle(id: string)
      requires id in running && running[id].Settled? && NoDup(pending)
      modifies this
      ensures View(Top) == Machine.Settle(cfg, old(View(Waiting)), id, old(running[id].ok))
    {
      var ok := running[id].ok;
      running := running - {id};
      if ok {
        completed := completed + {id};
        log := log + [Completed(id)];
      } else {
        failed := failed + {id};
        log := log + [Failed(id)];
        if cfg.failFast {
          BlockRest(FailFast(id), Top);
        }
      }
    }

    // ---------- the loop ----------

    method NextLimit(readyCount: nat) returns (limit: int)
      modifies this
      ensures View(Top) == CountChecks(old(View(Top)), readyCount)
      ensures limit == Limit(cfg, View(Top), readyCount)
    {
      schedulingChecks := schedulingChecks + Max(1, readyCount);
      var conflictRate := ConflictRate(conflictDeferrals, schedulingChecks);
      limit := AdaptiveWorkerCount(cfg.maxConcurrent, readyCount + |running|, |failed|, conflictRate);
    }

    /** Counts the check, sets the limit for this pass, and launches what fits. */
    method LaunchReady(order: seq<string>, readyCount: nat)
      requires forall x :: x in order ==> x in cfg.byID
      modifies this, leases
      ensures var c := CountChecks(old(View(Top)), readyCount);
        View(Top) == LaunchAll(cfg, c, Limit(cfg, c, readyCount), order)
    {
      var limit := NextLimit(readyCount);
      LaunchSweep(order, limit);
    }

    /** The synchronous part of one iteration. */
    method Schedule(ghost steps: seq<Step>) returns (stalled: bool, ghost order: seq<string>)
      requires ValidConfig(cfg) && IsRun(cfg, steps) && Exec(cfg, steps) == View(Top)
      requires pending != [] || running != map[]
      modifies this, leases
      ensures order == SortBy(collate, Ready(cfg, AfterBlocking(cfg, old(View(Top)))))
      ensures Enabled(cfg, old(View(Top)), PassStep(order))
      ensures View(if stalled then Finished else Waiting) == Pass(cfg, old(View(Top)), order)
    {
      ReadyListed(cfg, steps);
      BlockSweep();
      var ready := ReadyTasks();
      SortPermutes(collate, ready);
      var tried := SortBy(collate, ready);
      order := tried;
      PassFacts(cfg, steps, order);
      LaunchReady(tried, |ready|);
      assert View(Top) == AfterLaunching(cfg, old(View(Top)), order);
      stalled := running == map[];
      if stalled {
        BlockRest(NoRunnableTask, Top);
      }
    }

    /** While the loop waits, workers and integrations end in any order and with any outcome,
        until some settled promise is taken. */
    method AwaitSettlement(ghost before: seq<Step>) returns (ghost steps: seq<Step>)
      requires ValidConfig(cfg) && IsRun(cfg, before) && Exec(cfg, before) == View(Waiting)
      modifies this, leases
      ensures IsRun(cfg, steps) && Exec(cfg, steps) == View(Top) && |steps| > |before|
    {
      steps := before;
      var settled := false;
      while !settled
        invariant IsRun(cfg, steps) && |steps| >= |before| && (settled ==> |steps| > |before|)
        invariant Exec(cfg, steps) == View(if settled then Top else Waiting)
        decreases !settled, 10 * |cfg.order| + 2 - |steps|
      {
        RunKeeps(cfg, steps);
        Termination(cfg, steps);
        var step := ChooseStep();
        StepRank(cfg, View(Waiting), step);
        RunExtends(cfg, steps, step);
        match step {
          case WorkerStep(id, ok) => WorkerEnds(id, ok);
          case BeginStep(_) => IntegrationBegins();
          case EndStep(_, ok) => IntegrationEnds(ok);
          case SettleStep(id) =>
            Settle(id);
            settled := true;
        }
        steps := steps + [step];
      }
    }

    /** Any step the environment can take next. */
    method ChooseStep() returns (step: Step)
      requires StepInv(cfg, View(Waiting))
      ensures Enabled(cfg, View(Waiting), step) && !step.PassStep? && !step.ExitStep?
      ensures step.BeginStep? || step.EndStep? ==> queue != [] && queue[0] == step.id
    {
      var id :| id in running;
      var ok: bool := *;
      match running[id]
      case Settled(_) => step := SettleStep(id);
      case Working => step := WorkerStep(id, ok);
      case _ =>
        assert id in queue;
        var head := queue[0];
        assert head in queue;
        step := if running[head].Queued? then BeginStep(head) else EndStep(head, ok);
    }

    /** The whole of runEventDrivenDAG: it terminates, its execution is a run of the machine, and it
        ends with nothing held, queued, running or pending and every task in exactly one result set. */
    method Run() returns (ghost steps: seq<Step>)
      requires ValidConfig(cfg) && View(Top) == Init(cfg)
      modifies this, leases
      ensures IsRun(cfg, steps) && Exec(cfg, steps) == View(Finished)
      ensures leases.View() == EMPTY_TABLE && pending == [] && running == map[] && queue == []
      ensures forall id :: id in cfg.byID <==> (id in completed && id !in cfg.done0) || id in failed || id in blocked
      ensures completed !! failed && completed !! blocked.Keys && failed !! blocked.Keys
      ensures forall ok :: !cfg.failFast && Agrees(cfg, View(Finished), ok) ==>
        Canonical(cfg, ok, completed, failed, blocked.Keys)
    {
      steps := [];
      var stalled := false;
      while !stalled && (|pending| > 0 || running != map[])
        invariant IsRun(cfg, steps) && Exec(cfg, steps) == View(if stalled then Finished else Top)
        decreases !stalled, 10 * |cfg.order| + 2 - |steps|
      {
        RunKeeps(cfg, steps);
        Termination(cfg, steps);
        ghost var order: seq<string>;
        ghost var before := View(Top);
        stalled, order := Schedule(steps);
        StepRank(cfg, before, PassStep(order));
        RunExtends(cfg, steps, PassStep(order));
        steps := steps + [PassStep(order)];
        if !stalled {
          Termination(cfg, steps);
          steps := AwaitSettlement(steps);
        }
      }
      if !stalled {
        RunExtends(cfg, steps, ExitStep);
        steps := steps + [ExitStep];
      }
      FinishedIsClean(cfg, steps);
      forall ok | !cfg.failFast && Agrees(cfg, View(Finished), ok)
        ensures Canonical(cfg, ok, completed, failed, blocked.Keys)
      {
        OutcomeIsCanonical(cfg, steps, ok);
      }
    }
  }
}
