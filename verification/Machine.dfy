/** The scheduler as a step machine over values (parallel-runtime.js, lines 89-271).
    One synchronous scheduling pass runs between settlements; workers and integrations
    finish in any order and with any outcome. */
module Machine {
  import opened Claims
  import opened Leases

  // ---------- lists without duplicates ----------

  predicate NoDup(s: seq<string>) {
    forall i, j :: 0 <= i < j < |s| ==> s[i] != s[j]
  }

  function Minus(s: seq<string>, id: string): seq<string> {
    if s == [] then []
    else Minus(s[..|s| - 1], id) + if s[|s| - 1] == id then [] else [s[|s| - 1]]
  }

  lemma {:induction false} MinusMember(s: seq<string>, id: string)
    ensures forall x :: x in Minus(s, id) <==> x in s && x != id
  {
    if s != [] {
      MinusMember(s[..|s| - 1], id);
      assert s == s[..|s| - 1] + [s[|s| - 1]];
    }
  }

  lemma {:induction false} MinusAbsent(s: seq<string>, id: string)
    requires id !in s
    ensures Minus(s, id) == s
  {
    if s != [] {
      MinusAbsent(s[..|s| - 1], id);
      assert s == s[..|s| - 1] + [s[|s| - 1]] && s[|s| - 1] in s;
    }
  }

  lemma NoDupLast(p: seq<string>, x: string)
    ensures NoDup(p + [x]) <==> NoDup(p) && x !in p
    ensures forall y :: y in p + [x] <==> y in p || y == x
  {
    var s := p + [x];
    if NoDup(s) {
      forall i, j | 0 <= i < j < |p| ensures p[i] != p[j] {
        assert s[i] != s[j];
      }
      forall i | 0 <= i < |p| ensures p[i] != x {
        assert s[i] != s[|p|];
      }
    }
  }

  lemma {:induction false} MinusDistinct(s: seq<string>, id: string)
    requires NoDup(s)
    ensures NoDup(Minus(s, id)) && |Minus(s, id)| == if id in s then |s| - 1 else |s|
  {
    if s != [] {
      var p, x := s[..|s| - 1], s[|s| - 1];
      assert s == p + [x];
      NoDupLast(p, x);
      MinusDistinct(p, id);
      MinusMember(p, id);
    }
  }

  lemma MinusMeaning(s: seq<string>, id: string)
    ensures forall x :: x in Minus(s, id) <==> x in s && x != id
    ensures NoDup(s) ==> NoDup(Minus(s, id))
    ensures NoDup(s) ==> |Minus(s, id)| == if id in s then |s| - 1 else |s|
    ensures id !in s ==> Minus(s, id) == s
  {
    MinusMember(s, id);
    if NoDup(s) {
      MinusDistinct(s, id);
    }
    if id !in s {
      MinusAbsent(s, id);
    }
  }

  lemma MinusHead(s: seq<string>)
    requires s != [] && NoDup(s)
    ensures Minus(s, s[0]) == s[1..]
  {
    MinusFront([s[0]], s[1..], s[0]);
    assert s == [s[0]] + s[1..];
    MinusMeaning(s[1..], s[0]);
  }

  lemma {:induction false} MinusFront(a: seq<string>, b: seq<string>, id: string)
    ensures Minus(a + b, id) == Minus(a, id) + Minus(b, id)
  {
    if b == [] {
      assert a + b == a;
    } else {
      assert (a + b)[..|a + b| - 1] == a + b[..|b| - 1];
      MinusFront(a, b[..|b| - 1], id);
    }
  }

  // ---------- configuration ----------

  /** A validated task graph and the scheduler's options. `integrates` says whether an
      integrate callback was given; `surface` recognises shared-surface paths. */
  datatype Config = Config(
    order: seq<string>,
    byID: map<string, Task>,
    done0: set<string>,
    maxConcurrent: int,
    failFast: bool,
    integrates: bool,
    surface: string -> bool)

  function Deps(cfg: Config, id: string): seq<string> {
    if id in cfg.byID then cfg.byID[id].deps else []
  }

  function TaskClaims(cfg: Config, id: string): seq<Claim> {
    if id in cfg.byID then ClaimsOf(cfg.byID[id], cfg.surface) else []
  }

  ghost predicate ValidConfig(cfg: Config) {
    && NoDup(cfg.order)
    && (forall id :: id in cfg.order <==> id in cfg.byID)
    && (forall id, d :: id in cfg.byID && d in Deps(cfg, id) ==> d in cfg.byID || d in cfg.done0)
    && (forall id :: id in cfg.byID ==> id !in cfg.done0)
  }

  // ---------- the adaptive limit ----------

  function Max(a: int, b: int): int {
    if a >= b then a else b
  }

  function Min(a: int, b: int): int {
    if a <= b then a else b
  }

  function HalfUp(n: int): int {
    (n + 1) / 2
  }

  /** Absent or zero means four; the rest is clamped to 1..16. */
  function Requested(maxConcurrent: int): int {
    Max(1, Min(16, if maxConcurrent == 0 then 4 else maxConcurrent))
  }

  /** The most tasks to run at once, in plain words: as many as were asked for, four when nothing was,
      but at least one and at most sixteen. */
  function Clamped(maxConcurrent: int): nat {
    if maxConcurrent == 0 then 4
    else if maxConcurrent < 1 then 1
    else if maxConcurrent > 16 then 16
    else maxConcurrent
  }

  /** The limit the two kinds of pressure leave of a full one: each halves it, rounding up. */
  function Pressed(full: nat, failures: bool, conflicts: bool): nat {
    if failures && conflicts then (full + 3) / 4
    else if failures || conflicts then (full + 1) / 2
    else full
  }

  function WorkerLimit(maxConcurrent: int, readyCount: nat, recentFailures: nat, conflictRate: real): int {
    var base := Min(Requested(maxConcurrent), Max(1, readyCount));
    var afterFailures := if recentFailures >= 2 then Max(1, HalfUp(base)) else base;
    if conflictRate >= 0.35 then Max(1, HalfUp(afterFailures)) else afterFailures
  }

  // ---------- state ----------

  datatype Phase = Working | Queued | Integrating | Settled(ok: bool)

  datatype Reason = Dependency(dep: string) | NoRunnableTask | FailFast(cause: string)

  /** What happens, in order. The source emits Started, Completed, Failed and Blocked; the
      other entries record when a worker's result is queued and when an integration runs. */
  datatype Event =
    | Started(id: string)
    | WorkerFinished(id: string)
    | IntegrationStarted(id: string)
    | IntegrationEnded(id: string, ok: bool)
    | Completed(id: string)
    | Failed(id: string)
    | Blocked(id: string, reason: Reason)

  datatype Control = Top | Waiting | Finished

  datatype State = State(
    pc: Control,
    pending: seq<string>,
    running: map<string, Phase>,
    completed: set<string>,
    failed: set<string>,
    blocked: map<string, Reason>,
    table: Table,
    queue: seq<string>,
    deferrals: nat,
    checks: nat,
    log: seq<Event>)

  function Init(cfg: Config): State {
    State(Top, cfg.order, map[], cfg.done0, {}, map[], EMPTY_TABLE, [], 0, 0, [])
  }

  // ---------- the scheduling pass ----------

  datatype Found = Nothing | Dep(dep: string)

  function FindBad(s: State, deps: seq<string>): Found {
    if deps == [] then Nothing
    else if deps[0] in s.failed || deps[0] in s.blocked then Dep(deps[0])
    else FindBad(s, deps[1..])
  }

  function BlockOne(s: State, id: string, reason: Reason): State {
    s.(pending := Minus(s.pending, id), blocked := s.blocked[id := reason], log := s.log + [Blocked(id, reason)])
  }

  function BlockIfBad(cfg: Config, s: State, id: string): State {
    match FindBad(s, Deps(cfg, id))
    case Nothing => s
    case Dep(d) => BlockOne(s, id, Dependency(d))
  }

  function BlockPass(cfg: Config, s: State, ids: seq<string>): State
    decreases |ids|
  {
    if ids == [] then s else BlockPass(cfg, BlockIfBad(cfg, s, ids[0]), ids[1..])
  }

  predicate DepsDone(cfg: Config, completed: set<string>, id: string) {
    forall d :: d in Deps(cfg, id) ==> d in completed
  }

  function ReadyAmong(cfg: Config, completed: set<string>, ids: seq<string>): seq<string> {
    if ids == [] then []
    else
      ReadyAmong(cfg, completed, ids[..|ids| - 1])
      + if DepsDone(cfg, completed, ids[|ids| - 1]) then [ids[|ids| - 1]] else []
  }

  function Ready(cfg: Config, s: State): seq<string> {
    ReadyAmong(cfg, s.completed, s.pending)
  }

  function ConflictRate(deferrals: nat, checks: nat): real {
    if checks == 0 then 0.0 else deferrals as real / checks as real
  }

  function CountChecks(s: State, readyCount: nat): State {
    s.(checks := s.checks + Max(1, readyCount))
  }

  function Limit(cfg: Config, s: State, readyCount: nat): int {
    WorkerLimit(cfg.maxConcurrent, readyCount + |s.running|, |s.failed|, ConflictRate(s.deferrals, s.checks))
  }

  function Launch(cfg: Config, s: State, id: string): State {
    s.(pending := Minus(s.pending, id),
       running := s.running[id := Working],
       table := Acquire(s.table, id, TaskClaims(cfg, id)),
       log := s.log + [Started(id)])
  }

  function Consider(cfg: Config, s: State, id: string): State {
    if !CanAcquire(s.table, id, TaskClaims(cfg, id)) then s.(deferrals := s.deferrals + 1)
    else Launch(cfg, s, id)
  }

  function LaunchAll(cfg: Config, s: State, limit: int, order: seq<string>): State
    decreases |order|
  {
    if order == [] || |s.running| >= limit then s
    else LaunchAll(cfg, Consider(cfg, s, order[0]), limit, order[1..])
  }

  function BlockAll(s: State, reason: Reason): State
    decreases |s.pending|
  {
    if s.pending == [] then s
    else
      MinusShorter(s.pending, s.pending[0]);
      BlockAll(BlockOne(s, s.pending[0], reason), reason)
  }

  lemma {:induction false} MinusShorter(s: seq<string>, id: string)
    ensures |Minus(s, id)| <= |s|
    ensures id in s ==> |Minus(s, id)| < |s|
  {
    if s != [] {
      MinusShorter(s[..|s| - 1], id);
      assert s == s[..|s| - 1] + [s[|s| - 1]];
    }
  }

  /** The order in which ready tasks are tried is a permutation of them: the source sorts by a
      locale comparison, and every result below holds for whatever order that gives. */
  predicate Permutes(order: seq<string>, ids: seq<string>) {
    NoDup(order) && |order| == |ids| && (forall x :: x in order ==> x in ids) && (forall x :: x in ids ==> x in order)
  }

  function AfterBlocking(cfg: Config, s: State): State {
    BlockPass(cfg, s, s.pending)
  }

  function AfterLaunching(cfg: Config, s: State, order: seq<string>): State {
    var b := AfterBlocking(cfg, s);
    var n := |Ready(cfg, b)|;
    var c := CountChecks(b, n);
    LaunchAll(cfg, c, Limit(cfg, c, n), order)
  }

  function Pass(cfg: Config, s: State, order: seq<string>): State {
    var l := AfterLaunching(cfg, s, order);
    if l.running == map[] then BlockAll(l, NoRunnableTask).(pc := Finished) else l.(pc := Waiting)
  }

  // ---------- asynchronous steps and settlement ----------

  function ReleaseAs(s: State, id: string, ok: bool): State {
    s.(running := s.running[id := Settled(ok)], table := Release(s.table, id))
  }

  function WorkerEnds(cfg: Config, s: State, id: string, ok: bool): State {
    if !ok then ReleaseAs(s, id, false)
    else if !cfg.integrates then ReleaseAs(s, id, true)
    else s.(running := s.running[id := Queued], queue := s.queue + [id], log := s.log + [WorkerFinished(id)])
  }

  function IntegrationBegins(s: State, id: string): State {
    s.(running := s.running[id := Integrating], log := s.log + [IntegrationStarted(id)])
  }

  function IntegrationEnds(s: State, id: string, ok: bool): State
    requires s.queue != []
  {
    ReleaseAs(s, id, ok).(queue := s.queue[1..], log := s.log + [IntegrationEnded(id, ok)])
  }

  function Settle(cfg: Config, s: State, id: string, ok: bool): State {
    if ok then
      s.(pc := Top, running := s.running - {id}, completed := s.completed + {id}, log := s.log + [Completed(id)])
    else
      var t := s.(pc := Top, running := s.running - {id}, failed := s.failed + {id}, log := s.log + [Failed(id)]);
      if cfg.failFast then BlockAll(t, FailFast(id)) else t
  }

  // ---------- steps and runs ----------

  datatype Step =
    | PassStep(order: seq<string>)
    | ExitStep
    | WorkerStep(id: string, ok: bool)
    | BeginStep(id: string)
    | EndStep(id: string, ok: bool)
    | SettleStep(id: string)

  predicate Enabled(cfg: Config, s: State, step: Step) {
    match step
    case PassStep(order) =>
      s.pc == Top && (s.pending != [] || s.running != map[]) && Permutes(order, Ready(cfg, AfterBlocking(cfg, s)))
    case ExitStep => s.pc == Top && s.pending == [] && s.running == map[]
    case WorkerStep(id, _) => s.pc == Waiting && id in s.running && s.running[id] == Working
    case BeginStep(id) =>
      s.pc == Waiting && id in s.running && s.running[id] == Queued && s.queue != [] && s.queue[0] == id
    case EndStep(id, _) => s.pc == Waiting && id in s.running && s.running[id] == Integrating && s.queue != []
    case SettleStep(id) => s.pc == Waiting && id in s.running && s.running[id].Settled?
  }

  function Apply(cfg: Config, s: State, step: Step): State
    requires Enabled(cfg, s, step)
  {
    match step
    case PassStep(order) => Pass(cfg, s, order)
    case ExitStep => s.(pc := Finished)
    case WorkerStep(id, ok) => WorkerEnds(cfg, s, id, ok)
    case BeginStep(id) => IntegrationBegins(s, id)
    case EndStep(id, ok) => IntegrationEnds(s, id, ok)
    case SettleStep(id) => Settle(cfg, s, id, s.running[id].ok)
  }

  /** The state after a list of steps; a step that is not enabled changes nothing. */
  function Exec(cfg: Config, steps: seq<Step>): State {
    if steps == [] then Init(cfg)
    else
      var s := Exec(cfg, steps[..|steps| - 1]);
      if Enabled(cfg, s, steps[|steps| - 1]) then Apply(cfg, s, steps[|steps| - 1]) else s
  }

  /** A run: every step was enabled when it was taken. */
  predicate IsRun(cfg: Config, steps: seq<Step>) {
    steps == []
    || (IsRun(cfg, steps[..|steps| - 1])
        && Enabled(cfg, Exec(cfg, steps[..|steps| - 1]), steps[|steps| - 1]))
  }

  lemma RunExtends(cfg: Config, steps: seq<Step>, step: Step)
    requires IsRun(cfg, steps) && Enabled(cfg, Exec(cfg, steps), step)
    ensures IsRun(cfg, steps + [step])
    ensures Exec(cfg, steps + [step]) == Apply(cfg, Exec(cfg, steps), step)
  {
    assert (steps + [step])[..|steps|] == steps;
  }
}
