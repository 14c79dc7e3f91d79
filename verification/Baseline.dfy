/** What a worker's sandbox starts from, and what has happened to the root by the time its patch is
    applied. A sandbox inherits the root as it stands when it is created (index.js, lines 1043-1047). */
module Baseline {
  import opened Text
  import opened Claims
  import opened Machine
  import opened History
  import opened Invariants
  import opened SchedulerTheorems
  import opened Passes
  import opened Transaction
  import opened WorldLiveness

  /** The open callback's patch once completion is recorded. */
  function OwnRecorded(jobs: Jobs, tx: Option<Tx>): seq<string> {
    if tx.Some? && tx.value.durableCompleted && jobs.sandboxed(tx.value.id) then [tx.value.id] else []
  }

  /** The patches in the root that are there for good, in merge order. */
  function LastingOf(jobs: Jobs, log: seq<Event>, tx: Option<Tx>): seq<string> {
    Patches(jobs, Merged(log)) + OwnRecorded(jobs, tx)
  }

  function Lasting(jobs: Jobs, w: World): seq<string> {
    LastingOf(jobs, w.s.log, w.tx)
  }

  lemma LastingMeaning(jobs: Jobs, log: seq<Event>, tx: Option<Tx>, root: seq<string>, durable: set<string>)
    requires Ledger(jobs, log, tx, root, durable)
    ensures var lasting := LastingOf(jobs, log, tx);
      && lasting <= root && (forall x :: x in lasting <==> x in root && x in durable)
      && (Idle(tx) || (tx.Some? && tx.value.stage.Opened?) ==> lasting == root)
  {
    PatchesMember(jobs, Merged(log));
  }

  // ---------- what a sandbox starts from ----------

  /** Whenever a sandbox is created, in any run, every patch in the root belongs to a task durably
      recorded as completed: the root is the lasting patches, in merge order, and nothing else. */
  lemma SandboxStartsFromRecorded(cfg: Config, jobs: Jobs, steps: seq<WorldStep>, id: string)
    requires ValidConfig(cfg) && IsWorldRun(cfg, jobs, steps)
    requires WorldEnabled(cfg, jobs, WorldExec(cfg, jobs, steps), Sandbox(id))
    ensures var w := WorldExec(cfg, jobs, steps); var b := WorldApply(cfg, jobs, w, Sandbox(id)).baselines[id];
      && b == w.root == Lasting(jobs, w)
      && forall x :: x in b <==> x in w.durable && jobs.sandboxed(x)
  {
    var w := WorldExec(cfg, jobs, steps);
    WorldRunLedger(cfg, jobs, steps);
    LastingMeaning(jobs, w.s.log, w.tx, w.root, w.durable);
    PatchesMember(jobs, Merged(w.s.log));
  }

  lemma MergedDependency(cfg: Config, s: State, id: string, d: string)
    requires ValidConfig(cfg) && Traced(cfg, s.log, s.running, s.completed)
    requires DepInv(cfg, s.running.Keys, s.completed, s.failed)
    requires cfg.integrates && id in s.running && d in Deps(cfg, id) && d !in cfg.done0
    ensures d in Merged(s.log)
  {
    assert DepsDone(cfg, s.completed, id);
    assert TracedAt(cfg, s.log, s.running, s.completed, d);
    FinishersMember(s.log);
  }

  /** It contains all it depends on: each sandboxed dependency the task has in the run. */
  lemma SandboxHasDependencies(cfg: Config, jobs: Jobs, steps: seq<WorldStep>, id: string, d: string)
    requires ValidConfig(cfg) && cfg.integrates && IsWorldRun(cfg, jobs, steps)
    requires WorldEnabled(cfg, jobs, WorldExec(cfg, jobs, steps), Sandbox(id))
    requires d in Deps(cfg, id) && d !in cfg.done0 && jobs.sandboxed(d)
    ensures d in WorldApply(cfg, jobs, WorldExec(cfg, jobs, steps), Sandbox(id)).baselines[id]
  {
    var w := WorldExec(cfg, jobs, steps);
    WorldRunKeeps(cfg, jobs, steps);
    MergedDependency(cfg, w.s, id, d);
    PatchesMember(jobs, Merged(w.s.log));
    SandboxStartsFromRecorded(cfg, jobs, steps, id);
  }

  // ---------- what happens to the root afterwards ----------

  /** Two tasks one of which is the other, or that are safe together. */
  ghost predicate Apart(cfg: Config, x: string, id: string) {
    x == id || (x in cfg.byID && id in cfg.byID && SafeTogether(cfg.byID[x], cfg.byID[id], cfg.surface))
  }

  /** `lasting` goes on from the baseline, while `id` is in progress only by patches apart from it. */
  ghost predicate Drifted(cfg: Config, s: State, id: string, baseline: seq<string>, lasting: seq<string>) {
    && baseline <= lasting
    && (InProgress(s, id) ==> forall x :: x in lasting[|baseline|..] ==> Apart(cfg, x, id))
  }

  /** `b` is `a`, or `a` and the patch of the integrating task whose callback is open. */
  ghost predicate GrownBy(s: State, tx: Option<Tx>, a: seq<string>, b: seq<string>) {
    b == a || (!Idle(tx) && InProgress(s, tx.value.id) && b == a + [tx.value.id])
  }

  lemma CliGrows(jobs: Jobs, s: State, d: Desk, ok: bool)
    requires TxMatches(s.running, Some(d.tx)) && !d.tx.stage.Closed?
    requires exists root0, durable0 :: DeskInv(jobs, d, root0, durable0)
    ensures GrownBy(s, Some(d.tx), LastingOf(jobs, s.log, Some(d.tx)), LastingOf(jobs, s.log, Some(TxNext(jobs, d, ok).tx)))
  {
    var before, after := OwnRecorded(jobs, Some(d.tx)), OwnRecorded(jobs, Some(TxNext(jobs, d, ok).tx));
    assert after == before || (before == [] && after == [d.tx.id]);
    assert Patches(jobs, Merged(s.log)) + [] == Patches(jobs, Merged(s.log));
  }

  lemma EndLasts(jobs: Jobs, log: seq<Event>, t: Tx, ok: bool)
    requires FlagsAgree(jobs, t) && t.stage == Closed(ok)
    ensures LastingOf(jobs, log + [IntegrationEnded(t.id, ok)], None) == LastingOf(jobs, log, Some(t))
  {
    MergedAppend(log, IntegrationEnded(t.id, ok));
    PatchesAppend(jobs, Merged(log), t.id);
    assert Patches(jobs, Merged(log)) + [] == Patches(jobs, Merged(log));
  }

  lemma OtherStepMerges(cfg: Config, s: State, st: Step)
    requires ValidConfig(cfg) && StepInv(cfg, s) && Enabled(cfg, s, st) && !st.EndStep?
    ensures Merged(Apply(cfg, s, st).log) == Merged(s.log)
  {
    match st
    case PassStep(order) => PassQuiet(cfg, s, order);
    case SettleStep(id) => SettleQuiet(cfg, s, id);
    case WorkerStep(id, _) => MergedAppend(s.log, WorkerFinished(id));
    case BeginStep(id) => MergedAppend(s.log, IntegrationStarted(id));
    case ExitStep =>
  }

  lemma SchedLasts(cfg: Config, jobs: Jobs, w: World, st: Step)
    requires WorldInv(jobs, w) && WorldEnabled(cfg, jobs, w, Sched(st)) && (st.BeginStep? ==> w.tx == None)
    requires !st.EndStep? ==> Merged(Apply(cfg, w.s, st).log) == Merged(w.s.log)
    ensures Lasting(jobs, WorldApply(cfg, jobs, w, Sched(st))) == Lasting(jobs, w)
  {
    if st.EndStep? {
      EndLasts(jobs, w.s.log, w.tx.value, st.ok);
    }
  }

  /** The lasting patches only grow, by the patch of the open callback when its completion is recorded. */
  lemma LastingGrows(cfg: Config, jobs: Jobs, w: World, step: WorldStep)
    requires ValidConfig(cfg) && StepInv(cfg, w.s) && WorldInv(jobs, w) && WorldEnabled(cfg, jobs, w, step)
    ensures GrownBy(w.s, w.tx, Lasting(jobs, w), Lasting(jobs, WorldApply(cfg, jobs, w, step)))
  {
    match step
    case Sandbox(_) =>
    case Cli(ok) => CliGrows(jobs, w.s, Desk(w.tx.value, w.root, w.durable), ok);
    case Sched(st) =>
      if st.BeginStep? {
        BeginMatches(w.s.queue, w.s.running, w.tx);
      }
      if !st.EndStep? {
        OtherStepMerges(cfg, w.s, st);
      }
      SchedLasts(cfg, jobs, w, st);
  }

  // ---------- a task that has left its progress stays out of it ----------

  lemma {:induction false} LaunchAllKeepsPhase(cfg: Config, s: State, limit: int, order: seq<string>, id: string)
    requires id !in order
    ensures var t := LaunchAll(cfg, s, limit, order);
      && (id in t.running <==> id in s.running) && (id in s.running ==> t.running[id] == s.running[id])
      && (id !in s.pending ==> id !in t.pending)
    decreases |order|
  {
    if order != [] && |s.running| < limit {
      MinusMeaning(s.pending, order[0]);
      LaunchAllKeepsPhase(cfg, Consider(cfg, s, order[0]), limit, order[1..], id);
    }
  }

  lemma PassKeepsPhase(cfg: Config, s: State, order: seq<string>, id: string)
    requires Enabled(cfg, s, PassStep(order)) && id !in s.pending
    ensures var t := Pass(cfg, s, order);
      && (id in t.running <==> id in s.running) && (id in s.running ==> t.running[id] == s.running[id])
      && id !in t.pending
  {
    var b := AfterBlocking(cfg, s);
    BlockPassFrame(cfg, s, s.pending);
    ReadyMeaning(cfg, b.completed, b.pending);
    var c := CountChecks(b, |Ready(cfg, b)|);
    LaunchAllKeepsPhase(cfg, c, Limit(cfg, c, |Ready(cfg, b)|), order, id);
    BlockAllKeepsRunning(AfterLaunching(cfg, s, order), NoRunnableTask);
  }

  lemma SettleKeepsOut(cfg: Config, s: State, x: string, id: string)
    requires Enabled(cfg, s, SettleStep(x)) && id !in s.pending
    ensures var t := Settle(cfg, s, x, s.running[x].ok); id !in t.pending && (InProgress(t, id) ==> InProgress(s, id))
  {
    BlockAllKeepsRunning(s.(pc := Top, running := s.running - {x}, failed := s.failed + {x}, log := s.log + [Failed(x)]),
                         FailFast(x));
  }

  /** Once out of the pending tasks, a task that is not in progress never is again. */
  lemma StaysOut(cfg: Config, s: State, st: Step, id: string)
    requires Enabled(cfg, s, st) && id !in s.pending
    ensures id !in Apply(cfg, s, st).pending && (InProgress(Apply(cfg, s, st), id) ==> InProgress(s, id))
  {
    match st
    case PassStep(order) => PassKeepsPhase(cfg, s, order, id);
    case SettleStep(x) => SettleKeepsOut(cfg, s, x, id);
    case _ =>
  }

  // ---------- the invariant ----------

  lemma DriftStays(cfg: Config, s: State, t: State, id: string, baseline: seq<string>, lasting: seq<string>)
    requires Drifted(cfg, s, id, baseline, lasting) && (InProgress(t, id) ==> InProgress(s, id))
    ensures Drifted(cfg, t, id, baseline, lasting)
  {
  }

  lemma DriftGrows(cfg: Config, s: State, id: string, baseline: seq<string>, lasting: seq<string>, x: string)
    requires Drifted(cfg, s, id, baseline, lasting) && (InProgress(s, id) ==> Apart(cfg, x, id))
    ensures Drifted(cfg, s, id, baseline, lasting + [x])
  {
    assert (lasting + [x])[|baseline|..] == lasting[|baseline|..] + [x];
  }

  /** What each baseline needs of the state, and its task being out of the pending ones. */
  ghost predicate DriftInv(cfg: Config, jobs: Jobs, w: World) {
    forall id :: id in w.baselines ==>
      id !in w.s.pending && Drifted(cfg, w.s, id, w.baselines[id], Lasting(jobs, w))
  }

  lemma OneDrifts(cfg: Config, jobs: Jobs, w: World, step: WorldStep, id: string)
    requires WorldEnabled(cfg, jobs, w, step) && id in w.baselines && id !in w.s.pending
    requires Drifted(cfg, w.s, id, w.baselines[id], Lasting(jobs, w))
    requires GrownBy(w.s, w.tx, Lasting(jobs, w), Lasting(jobs, WorldApply(cfg, jobs, w, step)))
    requires !Idle(w.tx) && InProgress(w.s, w.tx.value.id) && InProgress(w.s, id) ==> Apart(cfg, w.tx.value.id, id)
    ensures var t := WorldApply(cfg, jobs, w, step);
      id !in t.s.pending && Drifted(cfg, t.s, id, w.baselines[id], Lasting(jobs, t))
  {
    var t := WorldApply(cfg, jobs, w, step);
    if Lasting(jobs, t) != Lasting(jobs, w) {
      DriftGrows(cfg, w.s, id, w.baselines[id], Lasting(jobs, w), w.tx.value.id);
    }
    if step.Sched? {
      StaysOut(cfg, w.s, step.step, id);
    }
    DriftStays(cfg, w.s, t.s, id, w.baselines[id], Lasting(jobs, t));
  }

  lemma ApartInRun(cfg: Config, jobs: Jobs, steps: seq<WorldStep>, x: string, id: string)
    requires ValidConfig(cfg) && IsWorldRun(cfg, jobs, steps)
    requires InProgress(WorldExec(cfg, jobs, steps).s, x) && InProgress(WorldExec(cfg, jobs, steps).s, id)
    ensures Apart(cfg, x, id)
  {
    if x != id {
      WorldRunsAreRuns(cfg, jobs, steps);
      MutualExclusion(cfg, SchedulerSteps(steps), x, id);
    }
  }

  lemma NotPending(cfg: Config, s: State, id: string)
    requires Partition(cfg, s.pending, s.running.Keys, s.completed, s.failed, s.blocked.Keys) && id in s.running
    ensures id !in s.pending
  {
  }

  lemma NewBaseline(cfg: Config, jobs: Jobs, steps: seq<WorldStep>, id: string)
    requires ValidConfig(cfg) && IsWorldRun(cfg, jobs, steps)
    requires WorldEnabled(cfg, jobs, WorldExec(cfg, jobs, steps), Sandbox(id))
    ensures var w := WorldExec(cfg, jobs, steps);
      id !in w.s.pending && Drifted(cfg, w.s, id, w.root, Lasting(jobs, w))
  {
    WorldRunKeeps(cfg, jobs, steps);
    NotPending(cfg, WorldExec(cfg, jobs, steps).s, id);
    SandboxStartsFromRecorded(cfg, jobs, steps, id);
  }

  lemma DriftStep(cfg: Config, jobs: Jobs, steps: seq<WorldStep>, step: WorldStep)
    requires ValidConfig(cfg) && IsWorldRun(cfg, jobs, steps) && DriftInv(cfg, jobs, WorldExec(cfg, jobs, steps))
    requires WorldEnabled(cfg, jobs, WorldExec(cfg, jobs, steps), step)
    ensures DriftInv(cfg, jobs, WorldApply(cfg, jobs, WorldExec(cfg, jobs, steps), step))
  {
    var w := WorldExec(cfg, jobs, steps);
    var t := WorldApply(cfg, jobs, w, step);
    WorldRunGrows(cfg, jobs, steps, step);
    forall id | id in t.baselines
      ensures id !in t.s.pending && Drifted(cfg, t.s, id, t.baselines[id], Lasting(jobs, t))
    {
      if id in w.baselines {
        if !Idle(w.tx) && InProgress(w.s, w.tx.value.id) && InProgress(w.s, id) {
          ApartInRun(cfg, jobs, steps, w.tx.value.id, id);
        }
        OneDrifts(cfg, jobs, w, step, id);
      } else {
        NewBaseline(cfg, jobs, steps, id);
      }
    }
  }

  lemma WorldRunGrows(cfg: Config, jobs: Jobs, steps: seq<WorldStep>, step: WorldStep)
    requires ValidConfig(cfg) && IsWorldRun(cfg, jobs, steps) && WorldEnabled(cfg, jobs, WorldExec(cfg, jobs, steps), step)
    ensures var w := WorldExec(cfg, jobs, steps);
      GrownBy(w.s, w.tx, Lasting(jobs, w), Lasting(jobs, WorldApply(cfg, jobs, w, step)))
  {
    WorldRunKeeps(cfg, jobs, steps);
    LastingGrows(cfg, jobs, WorldExec(cfg, jobs, steps), step);
  }

  lemma {:induction false} RunDrifts(cfg: Config, jobs: Jobs, steps: seq<WorldStep>)
    requires ValidConfig(cfg) && IsWorldRun(cfg, jobs, steps)
    ensures DriftInv(cfg, jobs, WorldExec(cfg, jobs, steps))
  {
    if steps != [] {
      RunDrifts(cfg, jobs, steps[..|steps| - 1]);
      DriftStep(cfg, jobs, steps[..|steps| - 1], steps[|steps| - 1]);
    }
  }

  lemma {:induction false} FinishersHaveSandboxes(cfg: Config, jobs: Jobs, steps: seq<WorldStep>)
    requires ValidConfig(cfg) && IsWorldRun(cfg, jobs, steps)
    ensures var w := WorldExec(cfg, jobs, steps);
      forall id :: WorkerFinished(id) in w.s.log && jobs.sandboxed(id) ==> id in w.baselines
  {
    if steps != [] {
      var before, step := steps[..|steps| - 1], steps[|steps| - 1];
      FinishersHaveSandboxes(cfg, jobs, before);
      WorldRunKeeps(cfg, jobs, before);
      StepReady(cfg, jobs, WorldExec(cfg, jobs, before), step);
    }
  }

  lemma OpenHasSandbox(cfg: Config, jobs: Jobs, steps: seq<WorldStep>)
    requires ValidConfig(cfg) && IsWorldRun(cfg, jobs, steps)
    requires var w := WorldExec(cfg, jobs, steps); w.tx.Some? && w.tx.value.stage.Opened? && jobs.sandboxed(w.tx.value.id)
    ensures WorldExec(cfg, jobs, steps).tx.value.id in WorldExec(cfg, jobs, steps).baselines
  {
    var w := WorldExec(cfg, jobs, steps);
    FinishersHaveSandboxes(cfg, jobs, steps);
    WorldRunKeeps(cfg, jobs, steps);
    InQueueFinished(cfg, w.s, w.tx.value.id);
  }

  // ---------- the results ----------

  /** No sandbox is ever left behind: at every moment of every run, what each was created from is still
      the start of the root. */
  lemma BaselineIsPrefix(cfg: Config, jobs: Jobs, steps: seq<WorldStep>, id: string)
    requires ValidConfig(cfg) && IsWorldRun(cfg, jobs, steps) && id in WorldExec(cfg, jobs, steps).baselines
    ensures WorldExec(cfg, jobs, steps).baselines[id] <= WorldExec(cfg, jobs, steps).root
  {
    var w := WorldExec(cfg, jobs, steps);
    RunDrifts(cfg, jobs, steps);
    WorldRunLedger(cfg, jobs, steps);
    LastingMeaning(jobs, w.s.log, w.tx, w.root, w.durable);
  }

  /** A patch never meets changes it could conflict with: when a sandboxed task's callback opens, the
      root is what its sandbox was created from, followed only by patches of tasks safe beside it. */
  lemma PatchMeetsOnlySafePatches(cfg: Config, jobs: Jobs, steps: seq<WorldStep>, x: string)
    requires ValidConfig(cfg) && IsWorldRun(cfg, jobs, steps)
    requires var w := WorldExec(cfg, jobs, steps);
      && w.tx.Some? && w.tx.value.stage.Opened? && jobs.sandboxed(w.tx.value.id)
    ensures var w := WorldExec(cfg, jobs, steps); var id := w.tx.value.id;
      && id in w.baselines && w.baselines[id] <= w.root
      && (x in w.root[|w.baselines[id]|..] ==>
            x in cfg.byID && id in cfg.byID && x != id && SafeTogether(cfg.byID[x], cfg.byID[id], cfg.surface))
  {
    var w := WorldExec(cfg, jobs, steps);
    var id := w.tx.value.id;
    OpenHasSandbox(cfg, jobs, steps);
    RunDrifts(cfg, jobs, steps);
    WorldRunLedger(cfg, jobs, steps);
    LastingMeaning(jobs, w.s.log, w.tx, w.root, w.durable);
    OpenIsInProgress(jobs, w);
    if x in w.root[|w.baselines[id]|..] {
      assert Apart(cfg, x, id);
      assert x in w.root;
    }
  }

  lemma OpenIsInProgress(jobs: Jobs, w: World)
    requires WorldInv(jobs, w) && w.tx.Some? && w.tx.value.stage.Opened?
    ensures InProgress(w.s, w.tx.value.id) && w.tx.value.id !in w.root
  {
    PatchesMember(jobs, Merged(w.s.log));
  }
}
