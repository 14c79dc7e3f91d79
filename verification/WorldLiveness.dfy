/** Scheduler and callbacks together: every run is bounded, and every choice of outcomes that the
    verifier gate allows is met by some finished run. */
module WorldLiveness {
  import opened Text
  import opened Verdict
  import opened Machine
  import opened History
  import opened Invariants
  import opened SchedulerTheorems
  import opened Liveness
  import opened Transaction

  // ---------- every run is bounded ----------

  /** How many CLI calls the callbacks of these tasks can take. */
  function CallBudget(jobs: Jobs, ids: seq<string>): nat {
    if ids == [] then 0 else CallBudget(jobs, ids[..|ids| - 1]) + jobs.commands(ids[|ids| - 1]) + 5
  }

  function CliSteps(steps: seq<WorldStep>): nat {
    if steps == [] then 0
    else CliSteps(steps[..|steps| - 1]) + if steps[|steps| - 1].Cli? then 1 else 0
  }

  function OpenCalls(jobs: Jobs, tx: Option<Tx>): nat {
    if tx == None then 0 else CallsLeft(jobs, tx.value)
  }

  lemma BudgetAppend(jobs: Jobs, ids: seq<string>, id: string)
    ensures CallBudget(jobs, ids + [id]) == CallBudget(jobs, ids) + jobs.commands(id) + 5
  {
    assert (ids + [id])[..|ids|] == ids;
  }

  /** What a step of the scheduler adds to the integrations begun and the workers finished. */
  ghost predicate LogAfter(cfg: Config, s: State, t: State, st: Step) {
    && Integrated(t.log) == (if st.BeginStep? then Integrated(s.log) + [st.id] else Integrated(s.log))
    && forall id :: WorkerFinished(id) in t.log ==>
         WorkerFinished(id) in s.log || (st.WorkerStep? && st.ok && id == st.id)
  }

  lemma EventAfter(cfg: Config, s: State, t: State, e: Event, st: Step)
    requires t.log == s.log + [e]
    requires st == BeginStep(e.id) || st == WorkerStep(e.id, true) || st == EndStep(e.id, true) || st == EndStep(e.id, false)
    requires e.IntegrationStarted? <==> st.BeginStep?
    requires e.WorkerFinished? <==> st.WorkerStep?
    ensures LogAfter(cfg, s, t, st)
  {
    MergedAppend(s.log, e);
  }

  lemma QuietAfter(cfg: Config, s: State, t: State, st: Step)
    requires Quiet(s, t) && !st.BeginStep?
    ensures LogAfter(cfg, s, t, st)
  {
  }

  lemma AsyncLogs(cfg: Config, s: State, st: Step)
    requires Enabled(cfg, s, st) && !st.PassStep?
    ensures LogAfter(cfg, s, Apply(cfg, s, st), st)
  {
    var t := Apply(cfg, s, st);
    match st
    case SettleStep(id) =>
      SettleQuiet(cfg, s, id);
      QuietAfter(cfg, s, t, st);
    case ExitStep =>
    case WorkerStep(id, ok) =>
      if ok && cfg.integrates {
        EventAfter(cfg, s, t, WorkerFinished(id), st);
      }
    case BeginStep(id) => EventAfter(cfg, s, t, IntegrationStarted(id), st);
    case EndStep(id, ok) => EventAfter(cfg, s, t, IntegrationEnded(id, ok), st);
  }

  lemma StepLogs(cfg: Config, s: State, st: Step)
    requires ValidConfig(cfg) && StepInv(cfg, s) && Enabled(cfg, s, st)
    ensures LogAfter(cfg, s, Apply(cfg, s, st), st)
  {
    if st.PassStep? {
      PassQuiet(cfg, s, st.order);
      QuietAfter(cfg, s, Apply(cfg, s, st), st);
    } else {
      AsyncLogs(cfg, s, st);
    }
  }

  lemma CallShrinks(jobs: Jobs, d: Desk, ok: bool)
    requires !d.tx.stage.Closed?
    ensures CallsLeft(jobs, TxNext(jobs, d, ok).tx) < CallsLeft(jobs, d.tx)
  {
  }

  /** A CLI call leaves the open callback fewer calls; a step of the scheduler leaves it as many, unless
      an integration begins or ends. */
  lemma StepWithinBudget(cfg: Config, jobs: Jobs, w: World, step: WorldStep)
    requires WorldEnabled(cfg, jobs, w, step)
    requires step.Sched? ==> LogAfter(cfg, w.s, Apply(cfg, w.s, step.step), step.step)
    requires step.Sched? && step.step.BeginStep? ==> w.tx == None
    ensures var t := WorldApply(cfg, jobs, w, step);
      OpenCalls(jobs, t.tx) + CallBudget(jobs, Integrated(w.s.log)) + (if step.Cli? then 1 else 0)
      <= OpenCalls(jobs, w.tx) + CallBudget(jobs, Integrated(t.s.log))
  {
    match step
    case Cli(ok) => CallShrinks(jobs, Desk(w.tx.value, w.root, w.durable), ok);
    case Sandbox(_) =>
    case Sched(st) =>
      if st.BeginStep? {
        BudgetAppend(jobs, Integrated(w.s.log), st.id);
      }
  }

  lemma StepReady(cfg: Config, jobs: Jobs, w: World, step: WorldStep)
    requires ValidConfig(cfg) && StepInv(cfg, w.s) && WorldInv(jobs, w) && WorldEnabled(cfg, jobs, w, step)
    ensures step.Sched? ==> LogAfter(cfg, w.s, Apply(cfg, w.s, step.step), step.step)
    ensures step.Sched? && step.step.BeginStep? ==> w.tx == None
  {
    if step.Sched? {
      StepLogs(cfg, w.s, step.step);
      if step.step.BeginStep? {
        BeginMatches(w.s.queue, w.s.running, w.tx);
      }
    }
  }

  lemma {:induction false} CallsWithinBudget(cfg: Config, jobs: Jobs, steps: seq<WorldStep>)
    requires ValidConfig(cfg) && IsWorldRun(cfg, jobs, steps)
    ensures var w := WorldExec(cfg, jobs, steps);
      CliSteps(steps) + OpenCalls(jobs, w.tx) <= CallBudget(jobs, Integrated(w.s.log))
  {
    if steps != [] {
      var before := steps[..|steps| - 1];
      CallsWithinBudget(cfg, jobs, before);
      WorldRunKeeps(cfg, jobs, before);
      StepReady(cfg, jobs, WorldExec(cfg, jobs, before), steps[|steps| - 1]);
      StepWithinBudget(cfg, jobs, WorldExec(cfg, jobs, before), steps[|steps| - 1]);
    }
  }

  lemma {:induction false} BudgetWithout(jobs: Jobs, ids: seq<string>, id: string)
    ensures CallBudget(jobs, Minus(ids, id)) <= CallBudget(jobs, ids)
    ensures id in ids ==> CallBudget(jobs, Minus(ids, id)) + jobs.commands(id) + 5 <= CallBudget(jobs, ids)
  {
    if ids != [] {
      var p, x := ids[..|ids| - 1], ids[|ids| - 1];
      BudgetWithout(jobs, p, id);
      assert ids == p + [x];
      if x != id {
        BudgetAppend(jobs, Minus(p, id), x);
      } else {
        assert Minus(ids, id) == Minus(p, id) + [] == Minus(p, id);
      }
    }
  }

  lemma {:induction false} BudgetOfSome(jobs: Jobs, some: seq<string>, all: seq<string>)
    requires NoDup(some) && forall x :: x in some ==> x in all
    ensures CallBudget(jobs, some) <= CallBudget(jobs, all)
    decreases |some|
  {
    if some != [] {
      var p, x := some[..|some| - 1], some[|some| - 1];
      assert some == p + [x];
      NoDupLast(p, x);
      MinusMeaning(all, x);
      BudgetWithout(jobs, all, x);
      BudgetOfSome(jobs, p, Minus(all, x));
    }
  }

  lemma {:induction false} IntegratedOnce(cfg: Config, log: seq<Event>)
    requires Legal(cfg, log)
    ensures NoDup(Integrated(log))
  {
    if log != [] {
      var p := log[..|log| - 1];
      IntegratedOnce(cfg, p);
      FinishersMember(p);
      NoDupLast(Integrated(p), log[|log| - 1].id);
    }
  }

  lemma IntegratedAreTasks(cfg: Config, s: State)
    requires Inv(cfg, s)
    ensures forall id :: id in Integrated(s.log) ==> id in cfg.byID
  {
    FinishersMember(s.log);
    forall id | id in Integrated(s.log) ensures id in cfg.byID {
      assert TracedAt(cfg, s.log, s.running, s.completed, id);
      assert Started(id) in s.log;
    }
  }

  /** Besides scheduler steps and CLI calls a run only creates sandboxes. */
  lemma {:induction false} StepsSplit(cfg: Config, jobs: Jobs, steps: seq<WorldStep>)
    requires IsWorldRun(cfg, jobs, steps)
    ensures |steps| == |SchedulerSteps(steps)| + CliSteps(steps) + |WorldExec(cfg, jobs, steps).baselines.Keys|
  {
    if steps != [] {
      var before, last := steps[..|steps| - 1], steps[|steps| - 1];
      StepsSplit(cfg, jobs, before);
      if last.Sandbox? {
        assert WorldExec(cfg, jobs, steps).baselines.Keys == WorldExec(cfg, jobs, before).baselines.Keys + {last.id};
      }
    }
  }

  /** Each task has at most one sandbox. */
  lemma {:induction false} BaselinesAreTasks(cfg: Config, jobs: Jobs, steps: seq<WorldStep>)
    requires ValidConfig(cfg) && IsWorldRun(cfg, jobs, steps)
    ensures forall id :: id in WorldExec(cfg, jobs, steps).baselines ==> id in cfg.byID
  {
    if steps != [] {
      var before, last := steps[..|steps| - 1], steps[|steps| - 1];
      BaselinesAreTasks(cfg, jobs, before);
      if last.Sandbox? {
        WorldRunKeeps(cfg, jobs, before);
        RunningIsTask(cfg, WorldExec(cfg, jobs, before).s, last.id);
      }
    }
  }

  lemma RunningIsTask(cfg: Config, s: State, id: string)
    requires Partition(cfg, s.pending, s.running.Keys, s.completed, s.failed, s.blocked.Keys) && id in s.running
    ensures id in cfg.byID
  {
  }

  lemma {:induction false} SizeWithin(ids: set<string>, order: seq<string>)
    requires forall id :: id in ids ==> id in order
    ensures |ids| <= |order|
  {
    if order != [] {
      var p, x := order[..|order| - 1], order[|order| - 1];
      assert order == p + [x];
      SizeWithin(ids - {x}, p);
      assert ids <= (ids - {x}) + {x};
      assert |ids| <= |ids - {x}| + 1;
    } else {
      assert ids == {};
    }
  }

  /** Every run of the whole is finite: at most ten steps of the scheduler for each task and two more,
      one sandbox for each task, and for each task five CLI calls besides its verification commands. */
  lemma WorldTermination(cfg: Config, jobs: Jobs, steps: seq<WorldStep>)
    requires ValidConfig(cfg) && IsWorldRun(cfg, jobs, steps)
    ensures |steps| <= 11 * |cfg.order| + 2 + CallBudget(jobs, cfg.order)
  {
    var w := WorldExec(cfg, jobs, steps);
    StepsSplit(cfg, jobs, steps);
    BaselinesAreTasks(cfg, jobs, steps);
    SizeWithin(w.baselines.Keys, cfg.order);
    WorldRunsAreRuns(cfg, jobs, steps);
    Termination(cfg, SchedulerSteps(steps));
    CallsWithinBudget(cfg, jobs, steps);
    WorldRunKeeps(cfg, jobs, steps);
    IntegratedOnce(cfg, w.s.log);
    IntegratedAreTasks(cfg, w.s);
    BudgetOfSome(jobs, Integrated(w.s.log), cfg.order);
  }

  // ---------- every outcome can be met ----------

  /** So far everything has ended as `ok` says, and no call of the open callback was refused. */
  ghost predicate WorldFollows(cfg: Config, w: World, ok: string -> bool) {
    && Follows(cfg, w.s, ok)
    && (forall id :: WorkerFinished(id) in w.s.log ==> ok(id))
    && (w.tx.Some? ==> !w.tx.value.stage.Catching? && w.tx.value.stage != Closed(false))
  }

  /** The gate lets through every task that is to succeed. */
  ghost predicate GateAllows(cfg: Config, jobs: Jobs, ok: string -> bool) {
    forall id :: id in cfg.byID && ok(id) ==> GatePasses(jobs.parse, jobs.transcript(id))
  }

  lemma InQueueFinished(cfg: Config, s: State, id: string)
    requires Traced(cfg, s.log, s.running, s.completed) && id in s.running && s.running[id].Integrating?
    ensures WorkerFinished(id) in s.log
  {
    assert TracedAt(cfg, s.log, s.running, s.completed, id);
  }

  lemma LiftedIsAs(cfg: Config, jobs: Jobs, w: World, step: Step, ok: string -> bool)
    requires Traced(cfg, w.s.log, w.s.running, w.s.completed) && TxMatches(w.s.running, w.tx)
    requires WorldFollows(cfg, w, ok) && Enabled(cfg, w.s, step)
    ensures var l := Lifted(jobs, w, As(step, ok)); l.Sched? ==> As(l.step, ok) == l.step
  {
    if step.EndStep? {
      InQueueFinished(cfg, w.s, step.id);
      assert w.tx.Some?;
    }
  }

  lemma SchedFollows(cfg: Config, jobs: Jobs, w: World, st: Step, ok: string -> bool)
    requires WorldFollows(cfg, w, ok) && WorldEnabled(cfg, jobs, w, Sched(st)) && As(st, ok) == st
    requires LogAfter(cfg, w.s, Apply(cfg, w.s, st), st)
    ensures WorldFollows(cfg, WorldApply(cfg, jobs, w, Sched(st)), ok)
  {
    StepFollows(cfg, w.s, st, ok);
  }

  lemma CliFollows(cfg: Config, jobs: Jobs, w: World, ok: string -> bool)
    requires WorldFollows(cfg, w, ok) && WorldEnabled(cfg, jobs, w, Cli(true))
    ensures WorldFollows(cfg, WorldApply(cfg, jobs, w, Cli(true)), ok)
  {
  }

  lemma LiftedFollows(cfg: Config, jobs: Jobs, w: World, step: Step, ok: string -> bool)
    requires ValidConfig(cfg) && StepInv(cfg, w.s) && WorldInv(jobs, w) && WorldFollows(cfg, w, ok)
    requires Enabled(cfg, w.s, step) && WorldEnabled(cfg, jobs, w, Lifted(jobs, w, As(step, ok)))
    ensures WorldFollows(cfg, WorldApply(cfg, jobs, w, Lifted(jobs, w, As(step, ok))), ok)
  {
    var l := Lifted(jobs, w, As(step, ok));
    match l
    case Sched(st) =>
      LiftedIsAs(cfg, jobs, w, step, ok);
      StepLogs(cfg, w.s, st);
      SchedFollows(cfg, jobs, w, st, ok);
    case Sandbox(_) =>
    case Cli(_) => CliFollows(cfg, jobs, w, ok);
  }

  lemma AsIsEnabled(cfg: Config, jobs: Jobs, s: State, step: Step, ok: string -> bool)
    requires Partition(cfg, s.pending, s.running.Keys, s.completed, s.failed, s.blocked.Keys)
    requires Enabled(cfg, s, step) && GateAllows(cfg, jobs, ok)
    ensures var st := As(step, ok);
      Enabled(cfg, s, st) && (st.WorkerStep? && st.ok ==> GatePasses(jobs.parse, jobs.transcript(st.id)))
  {
  }

  lemma WorldExtends(cfg: Config, jobs: Jobs, steps: seq<WorldStep>, step: WorldStep)
    requires IsWorldRun(cfg, jobs, steps) && WorldEnabled(cfg, jobs, WorldExec(cfg, jobs, steps), step)
    ensures IsWorldRun(cfg, jobs, steps + [step])
    ensures WorldExec(cfg, jobs, steps + [step]) == WorldApply(cfg, jobs, WorldExec(cfg, jobs, steps), step)
  {
    assert (steps + [step])[..|steps|] == steps;
  }

  lemma {:induction false} WorldFinishesAs(cfg: Config, jobs: Jobs, steps: seq<WorldStep>, ok: string -> bool)
    returns (more: seq<WorldStep>)
    requires ValidConfig(cfg) && IsWorldRun(cfg, jobs, steps) && GateAllows(cfg, jobs, ok)
    requires WorldFollows(cfg, WorldExec(cfg, jobs, steps), ok)
    ensures IsWorldRun(cfg, jobs, more) && WorldExec(cfg, jobs, more).s.pc == Finished
    ensures Agrees(cfg, WorldExec(cfg, jobs, more).s, ok)
    decreases 11 * |cfg.order| + 2 + CallBudget(jobs, cfg.order) - |steps|
  {
    var w := WorldExec(cfg, jobs, steps);
    WorldRunKeeps(cfg, jobs, steps);
    more := steps;
    if w.s.pc != Finished {
      var st := Progress(cfg, w.s);
      AsIsEnabled(cfg, jobs, w.s, st, ok);
      LiftedIsEnabled(cfg, jobs, w, As(st, ok));
      LiftedFollows(cfg, jobs, w, st, ok);
      var step := Lifted(jobs, w, As(st, ok));
      WorldExtends(cfg, jobs, steps, step);
      WorldTermination(cfg, jobs, steps + [step]);
      more := WorldFinishesAs(cfg, jobs, steps + [step], ok);
    }
  }

  /** A finished run of the whole that met exactly these outcomes. */
  ghost predicate WorldReaches(cfg: Config, jobs: Jobs, steps: seq<WorldStep>, ok: string -> bool) {
    && IsWorldRun(cfg, jobs, steps) && WorldExec(cfg, jobs, steps).s.pc == Finished
    && Agrees(cfg, WorldExec(cfg, jobs, steps).s, ok)
  }

  /** Whichever tasks are to succeed, provided the verifier lets those through, some finished run of
      scheduler and callbacks meets exactly these outcomes. */
  lemma EveryWorldOutcomeIsReached(cfg: Config, jobs: Jobs, ok: string -> bool)
    requires ValidConfig(cfg) && GateAllows(cfg, jobs, ok)
    ensures exists steps :: WorldReaches(cfg, jobs, steps, ok)
  {
    var steps := WorldFinishesAs(cfg, jobs, [], ok);
    assert WorldReaches(cfg, jobs, steps, ok);
  }
}
