/** Progress, termination, work conservation, the adaptive limit, and what being blocked means. */
module Liveness {
  import opened Claims
  import opened Leases
  import opened Machine
  import opened History
  import opened Invariants
  import opened SchedulerTheorems

  // ---------- progress ----------

  /** The scheduler is never stuck: until it has finished, some step can be taken. */
  lemma Progress(cfg: Config, s: State) returns (step: Step)
    requires StepInv(cfg, s) && s.pc != Finished
    ensures Enabled(cfg, s, step)
  {
    if s.pc == Top {
      if s.pending == [] && s.running == map[] {
        step := ExitStep;
      } else {
        var b := AfterBlocking(cfg, s);
        BlockPassKeeps(cfg, s);
        ReadyMeaning(cfg, b.completed, b.pending);
        step := PassStep(Ready(cfg, b));
      }
    } else {
      var id :| id in s.running;
      match s.running[id]
      case Settled(_) => step := SettleStep(id);
      case Working => step := WorkerStep(id, true);
      case _ => step := QueueProgress(cfg, s, id);
    }
  }

  /** While anything is queued, the head of the queue can begin or end its integration. */
  lemma QueueProgress(cfg: Config, s: State, id: string) returns (step: Step)
    requires StepInv(cfg, s) && s.pc == Waiting && id in s.running && InQueue(s.running[id])
    ensures Enabled(cfg, s, step)
    ensures s.queue != [] && (step == BeginStep(s.queue[0]) || step == EndStep(s.queue[0], true))
  {
    assert id in s.queue;
    var head := s.queue[0];
    assert head in s.queue;
    step := if s.running[head].Queued? then BeginStep(head) else EndStep(head, true);
  }

  /** An integration never stalls the queue: however it ends, the next queued task can begin at once. */
  lemma QueueMovesOn(cfg: Config, s: State, id: string, ok: bool)
    requires QueueInv(s.queue, s.running) && Enabled(cfg, s, EndStep(id, ok)) && |s.queue| > 1
    ensures Enabled(cfg, Apply(cfg, s, EndStep(id, ok)), BeginStep(s.queue[1]))
  {
    SecondIsQueued(s.queue, s.running);
  }

  lemma SecondIsQueued(queue: seq<string>, running: map<string, Phase>)
    requires QueueInv(queue, running) && |queue| > 1
    ensures queue[1] in running && running[queue[1]].Queued? && queue[1] != queue[0]
  {
    assert queue[1] in queue;
  }

  // ---------- termination ----------

  ghost function Unsettled(running: map<string, Phase>): set<string> {
    set id | id in running && !running[id].Settled?
  }

  ghost function Unbegun(running: map<string, Phase>): set<string> {
    set id | id in running && (running[id].Working? || running[id].Queued?)
  }

  ghost function AtWork(running: map<string, Phase>): set<string> {
    set id | id in running && running[id].Working?
  }

  /** Work left in the running tasks. */
  ghost function Load(running: map<string, Phase>): nat {
    |running.Keys| + |Unsettled(running)| + |Unbegun(running)| + |AtWork(running)|
  }

  ghost function Rank(s: State): nat {
    10 * |s.pending| + 2 * Load(s.running) + match s.pc case Top => 2 case Waiting => 1 case Finished => 0
  }

  /** The three sets after one task takes a new phase. */
  lemma Rephase(running: map<string, Phase>, id: string, phase: Phase)
    ensures running[id := phase].Keys == running.Keys - {id} + {id}
    ensures Unsettled(running[id := phase]) == Unsettled(running) - {id} + if !phase.Settled? then {id} else {}
    ensures Unbegun(running[id := phase]) ==
            Unbegun(running) - {id} + if phase.Working? || phase.Queued? then {id} else {}
    ensures AtWork(running[id := phase]) == AtWork(running) - {id} + if phase.Working? then {id} else {}
  {
  }

  /** How far a phase is from settlement. */
  function Stage(p: Phase): nat {
    match p
    case Settled(_) => 0
    case Integrating => 1
    case Queued => 2
    case Working => 3
  }

  function One(b: bool): nat {
    if b then 1 else 0
  }

  lemma CountUpdate(s: set<string>, id: string, t: set<string>, kept: bool)
    requires t == s - {id} + if kept then {id} else {}
    ensures |t| == |s| - One(id in s) + One(kept)
  {
    var rest := s - {id};
    assert id in s ==> s == rest + {id};
    assert id !in s ==> s == rest;
    assert !kept ==> t == rest;
  }

  lemma LoadByStage(running: map<string, Phase>, id: string)
    ensures One(id in running.Keys) + One(id in Unsettled(running)) + One(id in Unbegun(running)) + One(id in AtWork(running))
            == if id in running then 1 + Stage(running[id]) else 0
  {
  }

  lemma LoadOfPhase(running: map<string, Phase>, id: string, phase: Phase)
    ensures Load(running[id := phase]) ==
      Load(running) + 1 + Stage(phase) - (if id in running then 1 + Stage(running[id]) else 0)
  {
    Rephase(running, id, phase);
    CountUpdate(running.Keys, id, running[id := phase].Keys, true);
    CountUpdate(Unsettled(running), id, Unsettled(running[id := phase]), !phase.Settled?);
    CountUpdate(Unbegun(running), id, Unbegun(running[id := phase]), phase.Working? || phase.Queued?);
    CountUpdate(AtWork(running), id, AtWork(running[id := phase]), phase.Working?);
    LoadByStage(running, id);
  }

  lemma LoadOfSettlement(running: map<string, Phase>, id: string)
    requires id in running && running[id].Settled?
    ensures Load(running - {id}) == Load(running) - 1
  {
    var r := running - {id};
    assert r.Keys == running.Keys - {id};
    assert Unsettled(r) == Unsettled(running);
    assert Unbegun(r) == Unbegun(running);
    assert AtWork(r) == AtWork(running);
  }

  lemma {:induction false} BlockPassShrinks(cfg: Config, s: State, ids: seq<string>)
    ensures |BlockPass(cfg, s, ids).pending| <= |s.pending|
    decreases |ids|
  {
    if ids != [] {
      MinusShorter(s.pending, ids[0]);
      BlockPassShrinks(cfg, BlockIfBad(cfg, s, ids[0]), ids[1..]);
    }
  }

  lemma ConsiderRank(cfg: Config, s: State, id: string)
    requires id in s.pending && id !in s.running && NoDup(s.pending)
    ensures Rank(Consider(cfg, s, id)) <= Rank(s)
  {
    MinusMeaning(s.pending, id);
    LoadOfPhase(s.running, id, Working);
  }

  lemma {:induction false} LaunchAllRank(cfg: Config, s: State, limit: int, order: seq<string>)
    requires NoDup(order) && NoDup(s.pending)
    requires forall x :: x in order ==> x in s.pending && x !in s.running
    ensures Rank(LaunchAll(cfg, s, limit, order)) <= Rank(s)
    decreases |order|
  {
    if order != [] && |s.running| < limit {
      ConsiderRank(cfg, s, order[0]);
      MinusMeaning(s.pending, order[0]);
      LaunchAllRank(cfg, Consider(cfg, s, order[0]), limit, order[1..]);
    }
  }

  lemma AfterLaunchingRank(cfg: Config, s: State, order: seq<string>)
    requires ValidConfig(cfg) && StepInv(cfg, s) && Enabled(cfg, s, PassStep(order))
    ensures Rank(AfterLaunching(cfg, s, order)) <= Rank(s) && AfterLaunching(cfg, s, order).pc == Top
  {
    BlockPassShrinks(cfg, s, s.pending);
    BeforeLaunchingKeeps(cfg, s, order);
    AfterLaunchingKeeps(cfg, s, order);
    LaunchAllRank(cfg, BeforeLaunching(cfg, s), PassLimit(cfg, s), order);
  }

  lemma {:induction false} BlockAllRank(s: State, reason: Reason)
    ensures var t := BlockAll(s, reason); |t.pending| <= |s.pending| && t.running == s.running && t.pc == s.pc
    decreases |s.pending|
  {
    if s.pending != [] {
      MinusShorter(s.pending, s.pending[0]);
      BlockAllRank(BlockOne(s, s.pending[0], reason), reason);
    }
  }

  lemma PassRank(cfg: Config, s: State, order: seq<string>)
    requires ValidConfig(cfg) && StepInv(cfg, s) && Enabled(cfg, s, PassStep(order))
    ensures Rank(Pass(cfg, s, order)) < Rank(s)
  {
    AfterLaunchingRank(cfg, s, order);
    BlockAllRank(AfterLaunching(cfg, s, order), NoRunnableTask);
  }

  lemma SettleRank(cfg: Config, s: State, id: string)
    requires Enabled(cfg, s, SettleStep(id))
    ensures Rank(Settle(cfg, s, id, s.running[id].ok)) < Rank(s)
  {
    LoadOfSettlement(s.running, id);
    BlockAllRank(s.(pc := Top, running := s.running - {id}, failed := s.failed + {id}, log := s.log + [Failed(id)]),
                 FailFast(id));
  }

  lemma AsyncRank(cfg: Config, s: State, step: Step)
    requires Enabled(cfg, s, step) && (step.WorkerStep? || step.BeginStep? || step.EndStep?)
    ensures Rank(Apply(cfg, s, step)) < Rank(s)
  {
    match step
    case WorkerStep(id, ok) => LoadOfPhase(s.running, id, if ok && cfg.integrates then Queued else Settled(ok));
    case BeginStep(id) => LoadOfPhase(s.running, id, Integrating);
    case EndStep(id, ok) => LoadOfPhase(s.running, id, Settled(ok));
  }

  /** Every step of the scheduler makes the rank smaller. */
  lemma StepRank(cfg: Config, s: State, step: Step)
    requires ValidConfig(cfg) && StepInv(cfg, s) && Enabled(cfg, s, step)
    ensures Rank(Apply(cfg, s, step)) < Rank(s)
  {
    match step
    case PassStep(order) => PassRank(cfg, s, order);
    case ExitStep =>
    case SettleStep(id) => SettleRank(cfg, s, id);
    case _ => AsyncRank(cfg, s, step);
  }

  /** Every run is finite: it has at most ten steps a task and two more. */
  lemma {:induction false} Termination(cfg: Config, steps: seq<Step>)
    requires ValidConfig(cfg) && IsRun(cfg, steps)
    ensures |steps| + Rank(Exec(cfg, steps)) <= 10 * |cfg.order| + 2
  {
    if steps == [] {
      var none: map<string, Phase> := map[];
      assert none.Keys == {} && Unsettled(none) == {} && Unbegun(none) == {} && AtWork(none) == {};
    } else {
      var before := steps[..|steps| - 1];
      Termination(cfg, before);
      RunKeeps(cfg, before);
      StepRank(cfg, Exec(cfg, before), steps[|steps| - 1]);
    }
  }

  /** Any run can be continued until the scheduler has finished. */
  lemma {:induction false} CanFinish(cfg: Config, steps: seq<Step>) returns (more: seq<Step>)
    requires ValidConfig(cfg) && IsRun(cfg, steps)
    ensures steps <= more && IsRun(cfg, more) && Exec(cfg, more).pc == Finished
    decreases 10 * |cfg.order| + 2 - |steps|
  {
    RunKeeps(cfg, steps);
    more := steps;
    if Exec(cfg, steps).pc != Finished {
      var step := Progress(cfg, Exec(cfg, steps));
      RunExtends(cfg, steps, step);
      Termination(cfg, steps + [step]);
      more := CanFinish(cfg, steps + [step]);
    }
  }

  // ---------- every outcome can be met ----------

  /** So far every worker and integration has ended as `ok` says. */
  ghost predicate Follows(cfg: Config, s: State, ok: string -> bool) {
    Agrees(cfg, s, ok) && forall id :: id in s.running && s.running[id].Settled? ==> s.running[id].ok == ok(id)
  }

  /** The step, with the outcome `ok` says. */
  function As(step: Step, ok: string -> bool): Step {
    match step
    case WorkerStep(id, _) => WorkerStep(id, ok(id))
    case EndStep(id, _) => EndStep(id, ok(id))
    case _ => step
  }

  lemma {:induction false} LaunchAllFollows(cfg: Config, s: State, limit: int, order: seq<string>, ok: string -> bool)
    requires Follows(cfg, s, ok)
    ensures Follows(cfg, LaunchAll(cfg, s, limit, order), ok)
    decreases |order|
  {
    if order != [] && |s.running| < limit {
      LaunchAllFollows(cfg, Consider(cfg, s, order[0]), limit, order[1..], ok);
    }
  }

  lemma {:induction false} BlockAllFollows(cfg: Config, s: State, reason: Reason, ok: string -> bool)
    requires Follows(cfg, s, ok)
    ensures Follows(cfg, BlockAll(s, reason), ok)
    decreases |s.pending|
  {
    if s.pending != [] {
      MinusShorter(s.pending, s.pending[0]);
      BlockAllFollows(cfg, BlockOne(s, s.pending[0], reason), reason, ok);
    }
  }

  lemma PassFollows(cfg: Config, s: State, order: seq<string>, ok: string -> bool)
    requires Follows(cfg, s, ok)
    ensures Follows(cfg, Pass(cfg, s, order), ok)
  {
    BlockPassFrame(cfg, s, s.pending);
    var b := AfterBlocking(cfg, s);
    var c := CountChecks(b, |Ready(cfg, b)|);
    LaunchAllFollows(cfg, c, Limit(cfg, c, |Ready(cfg, b)|), order, ok);
    BlockAllFollows(cfg, AfterLaunching(cfg, s, order), NoRunnableTask, ok);
  }

  lemma SettleFollows(cfg: Config, s: State, id: string, ok: string -> bool)
    requires Enabled(cfg, s, SettleStep(id)) && Follows(cfg, s, ok)
    ensures Follows(cfg, Settle(cfg, s, id, s.running[id].ok), ok)
  {
    if !s.running[id].ok && cfg.failFast {
      var t := s.(pc := Top, running := s.running - {id}, failed := s.failed + {id}, log := s.log + [Failed(id)]);
      BlockAllFollows(cfg, t, FailFast(id), ok);
    }
  }

  lemma StepFollows(cfg: Config, s: State, step: Step, ok: string -> bool)
    requires Enabled(cfg, s, step) && As(step, ok) == step && Follows(cfg, s, ok)
    ensures Follows(cfg, Apply(cfg, s, step), ok)
  {
    match step
    case PassStep(order) => PassFollows(cfg, s, order, ok);
    case SettleStep(id) => SettleFollows(cfg, s, id, ok);
    case _ =>
  }

  lemma {:induction false} CanFinishAs(cfg: Config, steps: seq<Step>, ok: string -> bool) returns (more: seq<Step>)
    requires ValidConfig(cfg) && IsRun(cfg, steps) && Follows(cfg, Exec(cfg, steps), ok)
    ensures IsRun(cfg, more) && Exec(cfg, more).pc == Finished && Agrees(cfg, Exec(cfg, more), ok)
    decreases 10 * |cfg.order| + 2 - |steps|
  {
    RunKeeps(cfg, steps);
    more := steps;
    if Exec(cfg, steps).pc != Finished {
      var next := Progress(cfg, Exec(cfg, steps));
      var step := As(next, ok);
      assert Enabled(cfg, Exec(cfg, steps), step);
      StepFollows(cfg, Exec(cfg, steps), step, ok);
      RunExtends(cfg, steps, step);
      Termination(cfg, steps + [step]);
      more := CanFinishAs(cfg, steps + [step], ok);
    }
  }

  /** A finished run that met exactly these outcomes, and ended as the canonical sets say. */
  ghost predicate Reaches(cfg: Config, steps: seq<Step>, ok: string -> bool) {
    && IsRun(cfg, steps) && Exec(cfg, steps).pc == Finished && Agrees(cfg, Exec(cfg, steps), ok)
    && var s := Exec(cfg, steps);
       !cfg.failFast ==> Canonical(cfg, ok, s.completed, s.failed, s.blocked.Keys)
  }

  /** Whatever graph is given, cycles included, and whichever tasks are to succeed, some finished run
      meets exactly those outcomes; without failFast it ends with the canonical sets. */
  lemma EveryOutcomeIsReached(cfg: Config, ok: string -> bool)
    requires ValidConfig(cfg)
    ensures exists steps :: Reaches(cfg, steps, ok)
  {
    var steps := CanFinishAs(cfg, [], ok);
    if !cfg.failFast {
      OutcomeIsCanonical(cfg, steps, ok);
    }
    assert Reaches(cfg, steps, ok);
  }

  // ---------- work conservation ----------

  /** A request refused stays refused while other owners acquire. */
  lemma RefusalPersists(t: Table, p: string, taken: seq<Claim>, owner: string, claims: seq<Claim>)
    requires CanAcquire(t, p, taken) && !CanAcquire(t, owner, claims)
    ensures !CanAcquire(Acquire(t, p, taken), owner, claims)
  {
    AcquireMembers(t, p, taken);
    var c :| c in claims && !Admits(HoldersOf(t.resources, c.resource), owner, c.mode);
    assert !Admits(HoldersOf(Acquire(t, p, taken).resources, c.resource), owner, c.mode);
  }

  lemma {:induction false} RefusedThroughLaunches(cfg: Config, s: State, limit: int, order: seq<string>, id: string)
    requires !CanAcquire(s.table, id, TaskClaims(cfg, id))
    ensures !CanAcquire(LaunchAll(cfg, s, limit, order).table, id, TaskClaims(cfg, id))
    decreases |order|
  {
    if order != [] && |s.running| < limit {
      if CanAcquire(s.table, order[0], TaskClaims(cfg, order[0])) {
        RefusalPersists(s.table, order[0], TaskClaims(cfg, order[0]), id, TaskClaims(cfg, id));
      }
      RefusedThroughLaunches(cfg, Consider(cfg, s, order[0]), limit, order[1..], id);
    }
  }

  lemma {:induction false} LaunchedOrRefused(cfg: Config, s: State, limit: int, order: seq<string>, id: string)
    requires id in order
    ensures var t := LaunchAll(cfg, s, limit, order);
      |t.running| >= limit || id in t.running || !CanAcquire(t.table, id, TaskClaims(cfg, id))
    decreases |order|
  {
    if |s.running| < limit {
      var c := Consider(cfg, s, order[0]);
      if id == order[0] {
        if CanAcquire(s.table, id, TaskClaims(cfg, id)) {
          LaunchAllGrows(cfg, c, limit, order[1..]);
        } else {
          RefusedThroughLaunches(cfg, c, limit, order[1..], id);
        }
      } else {
        assert id in order[1..];
        LaunchedOrRefused(cfg, c, limit, order[1..], id);
      }
    }
  }

  /** Work conservation: after a pass either the limit is reached or every task that is still
      ready conflicts with a lease some other unsettled task holds. */
  lemma WorkConserving(cfg: Config, s: State, order: seq<string>, id: string)
    requires ValidConfig(cfg) && StepInv(cfg, s) && Enabled(cfg, s, PassStep(order))
    requires var t := Pass(cfg, s, order);
      t.pc == Waiting && id in t.pending && DepsDone(cfg, t.completed, id) && |t.running| < PassLimit(cfg, s)
    ensures var t := Pass(cfg, s, order);
      !CanAcquire(t.table, id, TaskClaims(cfg, id))
      && exists other :: InProgress(t, other) && other != id && !Compatible(TaskClaims(cfg, id), TaskClaims(cfg, other))
  {
    var t := Pass(cfg, s, order);
    BeforeLaunchingKeeps(cfg, s, order);
    AfterLaunchingKeeps(cfg, s, order);
    PassKeeps(cfg, s, order);
    assert id in order;
    LaunchedOrRefused(cfg, BeforeLaunching(cfg, s), PassLimit(cfg, s), order, id);
    var other := Conflicting(cfg, t.table, t.running, id);
    assert InProgress(t, other);
  }

  /** A refused claim list is refused because of some other task that holds incompatible claims. */
  lemma Conflicting(cfg: Config, table: Table, running: map<string, Phase>, id: string) returns (other: string)
    requires LeaseInv(cfg, table, running) && !CanAcquire(table, id, TaskClaims(cfg, id))
    ensures other in running && !running[other].Settled? && other != id
    ensures !Compatible(TaskClaims(cfg, id), TaskClaims(cfg, other))
  {
    var c :| c in TaskClaims(cfg, id) && !Admits(HoldersOf(table.resources, c.resource), id, c.mode);
    var h :| h in HoldersOf(table.resources, c.resource) && h.owner != id && !(c.mode == Read && h.mode == Read);
    EntryRecorded(table, c.resource, h);
    assert HoldersRecorded(table, h.owner);
    assert h == Holder(h.owner, h.mode);
    assert Claim(c.resource, h.mode) in ClaimsHeld(table, h.owner);
    other := h.owner;
  }

  // ---------- the adaptive limit ----------

  /** Over whole runs the number of running tasks stays within the requested bound, itself at most
      16, even when the limit later falls below it, and the conflict rate stays in [0, 1]. */
  lemma ConcurrencyBound(cfg: Config, steps: seq<Step>)
    requires ValidConfig(cfg) && IsRun(cfg, steps)
    ensures var s := Exec(cfg, steps);
      && |s.running| <= Clamped(cfg.maxConcurrent) <= 16
      && s.deferrals <= s.checks && 0.0 <= ConflictRate(s.deferrals, s.checks) <= 1.0
  {
    RunKeeps(cfg, steps);
    var s := Exec(cfg, steps);
    RateInUnit(s.deferrals, s.checks);
  }

  lemma RateInUnit(deferrals: nat, checks: nat)
    requires deferrals <= checks
    ensures 0.0 <= ConflictRate(deferrals, checks) <= 1.0
  {
    if checks > 0 {
      var r := deferrals as real / checks as real;
      assert r * checks as real == deferrals as real;
      if r > 1.0 {
        assert r * checks as real > checks as real;
      }
    }
  }

  /** The limit never rises with more failures or a higher conflict rate. */
  lemma LimitNeverRises(n: int, ready: nat, f: nat, f': nat, rate: real, rate': real)
    requires f <= f' && rate <= rate'
    ensures WorkerLimit(n, ready, f', rate') <= WorkerLimit(n, ready, f, rate)
  {
  }

  /** Pressure shrinks the limit to a quarter of its unpressed value, rounded up, and no further:
      each of the two kinds of pressure halves it once. */
  lemma LimitShrinksToQuarter(n: int, ready: nat, f: nat, rate: real)
    ensures var base := WorkerLimit(n, ready, 0, 0.0); var limit := WorkerLimit(n, ready, f, rate);
      && (base + 3) / 4 <= limit <= base
      && (limit == base || f >= 2 || rate >= 0.35)
      && (f >= 2 && rate >= 0.35 ==> limit == (base + 3) / 4)
  {
  }

  // ---------- what a blocked task is behind ----------

  ghost predicate IsChain(cfg: Config, p: seq<string>) {
    forall i :: 0 <= i < |p| - 1 ==> p[i + 1] in Deps(cfg, p[i])
  }

  lemma ChainParts(cfg: Config, p: seq<string>, i: nat)
    requires IsChain(cfg, p) && i <= |p|
    ensures IsChain(cfg, p[i..]) && IsChain(cfg, p[..i])
  {
    forall j | 0 <= j < |p[i..]| - 1 ensures p[i..][j + 1] in Deps(cfg, p[i..][j]) {
      assert p[(i + j) + 1] in Deps(cfg, p[i + j]);
    }
  }

  /** From `id` a chain of dependencies leads to a failed task or runs into a cycle. */
  ghost predicate BehindFailureOrCycle(cfg: Config, failed: set<string>, id: string) {
    exists p :: EndsBadly(cfg, failed, id, p)
  }

  ghost predicate EndsBadly(cfg: Config, failed: set<string>, id: string, p: seq<string>) {
    && |p| >= 2 && p[0] == id && IsChain(cfg, p)
    && (p[|p| - 1] in failed || exists i :: 0 <= i < |p| - 1 && p[i] == p[|p| - 1])
  }

  lemma {:induction false} Pigeonhole(p: seq<string>, ids: set<string>)
    requires NoDup(p) && forall x :: x in p ==> x in ids
    ensures |p| <= |ids|
  {
    if p != [] {
      var q, x := p[..|p| - 1], p[|p| - 1];
      assert forall y :: y in q ==> y in p && y != x;
      Pigeonhole(q, ids - {x});
    }
  }

  ghost predicate HasBlame(cfg: Config, failed: set<string>, blocked: set<string>, id: string) {
    exists d :: d in Deps(cfg, id) && (d in failed || d in blocked)
  }

  /** From a blocked task, dependencies can be followed until a failure is met or `n` steps are made. */
  lemma {:induction false} FollowBlame(cfg: Config, failed: set<string>, blocked: set<string>, id: string, n: nat)
    returns (p: seq<string>)
    requires forall x :: x in blocked ==> HasBlame(cfg, failed, blocked, x)
    requires id in blocked
    ensures |p| >= 2 && p[0] == id && IsChain(cfg, p)
    ensures p[|p| - 1] in failed || (|p| == n + 2 && forall x :: x in p ==> x in blocked)
    decreases n
  {
    assert HasBlame(cfg, failed, blocked, id);
    var d :| d in Deps(cfg, id) && (d in failed || d in blocked);
    if n == 0 || d in failed {
      p := [id, d];
    } else {
      var q := FollowBlame(cfg, failed, blocked, d, n - 1);
      p := [id] + q;
      ChainGrows(cfg, id, q);
    }
  }

  lemma ChainGrows(cfg: Config, id: string, q: seq<string>)
    requires q != [] && IsChain(cfg, q) && q[0] in Deps(cfg, id)
    ensures IsChain(cfg, [id] + q) && ([id] + q)[|q|] == q[|q| - 1]
    ensures forall x :: x in [id] + q <==> x == id || x in q
  {
    var p := [id] + q;
    forall i | 0 <= i < |p| - 1 ensures p[i + 1] in Deps(cfg, p[i]) {
      if i > 0 {
        assert p[i] == q[i - 1] && p[i + 1] == q[(i - 1) + 1];
      }
    }
  }

  lemma BlockedIsBehind(cfg: Config, steps: seq<Step>, id: string)
    requires ValidConfig(cfg) && IsRun(cfg, steps) && Exec(cfg, steps).pc == Finished && !cfg.failFast
    requires id in Exec(cfg, steps).blocked
    ensures BehindFailureOrCycle(cfg, Exec(cfg, steps).failed, id)
  {
    var s := Exec(cfg, steps);
    forall x | x in s.blocked ensures HasBlame(cfg, s.failed, s.blocked.Keys, x) {
      var d := BlockedHasBadDependency(cfg, steps, x);
    }
    var p := FollowBlame(cfg, s.failed, s.blocked.Keys, id, |s.blocked.Keys|);
    if p[|p| - 1] in s.failed {
      assert EndsBadly(cfg, s.failed, id, p);
    } else {
      LongChainCycles(cfg, s.failed, id, p, s.blocked.Keys);
    }
  }

  /** A chain longer than the set it stays in runs into a cycle. */
  lemma LongChainCycles(cfg: Config, failed: set<string>, id: string, p: seq<string>, ids: set<string>)
    requires |p| == |ids| + 2 && p[0] == id && IsChain(cfg, p) && forall x :: x in p ==> x in ids
    ensures BehindFailureOrCycle(cfg, failed, id)
  {
    if NoDup(p) {
      Pigeonhole(p, ids);
    }
    var i, j :| 0 <= i < j < |p| && p[i] == p[j];
    var q := p[..j + 1];
    assert q[i] == q[|q| - 1] && IsChain(cfg, q);
    assert EndsBadly(cfg, failed, id, q);
  }

  /** Along a chain of dependencies from a completed task everything in the run completed earlier. */
  lemma {:induction false} ChainCompletes(cfg: Config, log: seq<Event>, p: seq<string>, k: nat)
    returns (m: nat)
    requires ValidConfig(cfg) && Legal(cfg, log) && IsChain(cfg, p) && |p| >= 2
    requires k < |log| && log[k] == Completed(p[0])
    requires p[|p| - 1] in cfg.byID
    ensures m < k && log[m] == Completed(p[|p| - 1])
  {
    LegalAt(cfg, log, k);
    assert p[0 + 1] in Deps(cfg, p[0]);
    assert p[1] !in cfg.done0 by {
      if |p| > 2 {
        assert p[1 + 1] in Deps(cfg, p[1]);
      }
    }
    CompletionsFollowDependencies(cfg, log, k, p[1]);
    var j := Position(log[..k], Completed(p[1]));
    if |p| == 2 {
      m := j;
    } else {
      var q := p[1..];
      ChainParts(cfg, p, 1);
      m := ChainCompletes(cfg, log, q, j);
    }
  }

  lemma CompletedIsNotBehind(cfg: Config, steps: seq<Step>, p: seq<string>)
    requires ValidConfig(cfg) && IsRun(cfg, steps)
    requires |p| >= 2 && IsChain(cfg, p) && p[0] in Exec(cfg, steps).completed && p[0] in cfg.byID
    ensures p[|p| - 1] !in Exec(cfg, steps).failed
    ensures forall i :: 0 <= i < |p| - 1 ==> p[i] != p[|p| - 1]
  {
    var s := Exec(cfg, steps);
    RunKeeps(cfg, steps);
    var last := p[|p| - 1];
    if last in cfg.byID {
      var k := Position(s.log, Completed(p[0]));
      var m := ChainCompletes(cfg, s.log, p, k);
      assert Completed(last) in s.log;
      OncePerTask(cfg, s.log);
      forall i | 0 <= i < |p| - 1 ensures p[i] != last {
        ChainIndex(cfg, s.log, p, k, i);
      }
    } else {
      forall i | 0 <= i < |p| - 1 ensures p[i] != last {
        assert p[i + 1] in Deps(cfg, p[i]);
      }
    }
  }

  lemma ChainIndex(cfg: Config, log: seq<Event>, p: seq<string>, k: nat, i: nat)
    requires ValidConfig(cfg) && Legal(cfg, log) && IsChain(cfg, p) && i < |p| - 1
    requires k < |log| && log[k] == Completed(p[0]) && p[|p| - 1] in cfg.byID
    ensures p[i] != p[|p| - 1]
  {
    assert p[i + 1] in Deps(cfg, p[i]);
    ChainParts(cfg, p, i);
    ChainParts(cfg, p, i + 1);
    var a := k;
    if i > 0 {
      a := ChainCompletes(cfg, log, p[..i + 1], k);
    }
    var rest := p[i..];
    var b := ChainCompletes(cfg, log, rest, a);
    OncePerTask(cfg, log);
  }

  /** Whatever started has only completed dependencies, so no chain from it fails or cycles. */
  lemma StartedIsNotBehind(cfg: Config, steps: seq<Step>, p: seq<string>)
    requires ValidConfig(cfg) && IsRun(cfg, steps)
    requires |p| >= 2 && IsChain(cfg, p) && p[0] in cfg.byID
    requires p[0] in Exec(cfg, steps).completed || p[0] in Exec(cfg, steps).failed
    ensures p[|p| - 1] !in Exec(cfg, steps).failed
    ensures forall i :: 0 <= i < |p| - 1 ==> p[i] != p[|p| - 1]
  {
    var s := Exec(cfg, steps);
    if p[0] in s.completed {
      CompletedIsNotBehind(cfg, steps, p);
    } else {
      FailedIsNotBehind(cfg, steps, p);
    }
  }

  lemma FailedIsNotBehind(cfg: Config, steps: seq<Step>, p: seq<string>)
    requires ValidConfig(cfg) && IsRun(cfg, steps)
    requires |p| >= 2 && IsChain(cfg, p) && p[0] in Exec(cfg, steps).failed
    ensures p[|p| - 1] !in Exec(cfg, steps).failed
    ensures forall i :: 0 <= i < |p| - 1 ==> p[i] != p[|p| - 1]
  {
    var s := Exec(cfg, steps);
    RunKeeps(cfg, steps);
    assert DepsDone(cfg, s.completed, p[0]);
    assert p[0 + 1] in Deps(cfg, p[0]);
    var q := p[1..];
    ChainParts(cfg, p, 1);
    if |q| >= 2 {
      assert q[0 + 1] in Deps(cfg, q[0]);
      CompletedIsNotBehind(cfg, steps, q);
      CompletedChainEnd(cfg, steps, q);
      forall i | 0 <= i < |p| - 1 ensures p[i] != p[|p| - 1] {
        if i > 0 {
          assert q[i - 1] == p[i];
        }
      }
    }
  }

  lemma CompletedChainEnd(cfg: Config, steps: seq<Step>, q: seq<string>)
    requires ValidConfig(cfg) && IsRun(cfg, steps)
    requires |q| >= 2 && IsChain(cfg, q) && q[0] in Exec(cfg, steps).completed && q[0] in cfg.byID
    ensures q[|q| - 1] in Exec(cfg, steps).completed
  {
    var s := Exec(cfg, steps);
    RunKeeps(cfg, steps);
    var last := q[|q| - 1];
    if last in cfg.byID {
      var k := Position(s.log, Completed(q[0]));
      var m := ChainCompletes(cfg, s.log, q, k);
      assert Completed(last) in s.log;
    } else {
      var i := |q| - 2;
      assert q[i + 1] in Deps(cfg, q[i]);
      assert q[i] in cfg.byID;
    }
  }

  /** In a finished run a task is blocked exactly when a chain of its dependencies leads to a
      failed task or into a cycle. */
  lemma BlockedIffBehind(cfg: Config, steps: seq<Step>, id: string)
    requires ValidConfig(cfg) && IsRun(cfg, steps) && Exec(cfg, steps).pc == Finished && !cfg.failFast
    requires id in cfg.byID
    ensures id in Exec(cfg, steps).blocked <==> BehindFailureOrCycle(cfg, Exec(cfg, steps).failed, id)
  {
    var s := Exec(cfg, steps);
    FinishedIsClean(cfg, steps);
    if id in s.blocked {
      BlockedIsBehind(cfg, steps, id);
    } else if BehindFailureOrCycle(cfg, s.failed, id) {
      var p :| EndsBadly(cfg, s.failed, id, p);
      StartedIsNotBehind(cfg, steps, p);
    }
  }
}
