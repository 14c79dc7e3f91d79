/** The transaction around each task (index.js, lines 1353-1508), composed with the scheduler. The
    CLI calls are atomic operations that may each fail: on a stack of patches applied to the root
    tree, and on the set of tasks durably recorded as completed. Rollback is assumed to succeed. */
module Transaction {
  import opened Text
  import opened Verdict
  import opened Machine
  import opened History
  import opened Invariants
  import opened SchedulerTheorems
  import opened Leases
  import opened Liveness
  import opened Passes

  /** What is known of each task beyond the graph: whether its worker ran in a sandbox, how many
      verification commands it declares, and what its verifier's session said. */
  datatype Jobs = Jobs(sandboxed: string -> bool, commands: string -> nat, transcript: string -> seq<Message>, parse: Parser)

  /** Where an integrate callback stands. */
  datatype Stage =
    | Opened
    | Checking(next: nat)
    | Receipting
    | Completing
    | Recorded
    | Catching
    | Closed(ok: bool)

  datatype Tx = Tx(id: string, stage: Stage, applied: bool, durableCompleted: bool)

  /** A callback with the two things it acts on. */
  datatype Desk = Desk(tx: Tx, root: seq<string>, durable: set<string>)

  /** One CLI call of the integrate callback, answered `ok` or with an error. */
  function TxNext(jobs: Jobs, d: Desk, ok: bool): Desk {
    var t := d.tx;
    match t.stage
    case Opened =>
      if !jobs.sandboxed(t.id) then d.(tx := t.(stage := Checking(0)))
      else if ok then d.(tx := t.(stage := Checking(0), applied := true), root := d.root + [t.id])
      else d.(tx := t.(stage := Catching))
    case Checking(k) =>
      if k >= jobs.commands(t.id) then d.(tx := t.(stage := Receipting))
      else if ok then d.(tx := t.(stage := Checking(k + 1)))
      else d.(tx := t.(stage := Catching))
    case Receipting => d.(tx := t.(stage := if ok then Completing else Catching))
    case Completing =>
      if ok then d.(tx := t.(stage := Recorded, durableCompleted := true), durable := d.durable + {t.id})
      else d.(tx := t.(stage := Catching))
    case Recorded => d.(tx := t.(stage := Closed(true)))
    case Catching =>
      d.(tx := t.(stage := Closed(false)),
         root := if !t.durableCompleted && t.applied then Minus(d.root, t.id) else d.root)
    case Closed(_) => d
  }

  function Open(id: string): Tx {
    Tx(id, Opened, false, false)
  }

  function TxRun(jobs: Jobs, d: Desk, answers: seq<bool>): Desk
    decreases |answers|
  {
    if answers == [] then d else TxRun(jobs, TxNext(jobs, d, answers[0]), answers[1..])
  }

  lemma {:induction false} TxRunAppend(jobs: Jobs, d: Desk, answers: seq<bool>, ok: bool)
    ensures TxRun(jobs, d, answers + [ok]) == TxNext(jobs, TxRun(jobs, d, answers), ok)
    decreases |answers|
  {
    if answers == [] {
      assert [] + [ok] == [ok];
    } else {
      assert (answers + [ok])[1..] == answers[1..] + [ok];
      TxRunAppend(jobs, TxNext(jobs, d, answers[0]), answers[1..], ok);
    }
  }

  lemma {:induction false} TxRunSplit(jobs: Jobs, d: Desk, answers: seq<bool>, k: nat)
    requires k <= |answers|
    ensures TxRun(jobs, d, answers) == TxRun(jobs, TxRun(jobs, d, answers[..k]), answers[k..])
    decreases |answers|
  {
    if k > 0 {
      TxRunSplit(jobs, TxNext(jobs, d, answers[0]), answers[1..], k - 1);
      assert answers[..k][1..] == answers[1..][..k - 1] && answers[k..] == answers[1..][k - 1..];
    }
  }

  lemma {:induction false} ClosedStays(jobs: Jobs, d: Desk, answers: seq<bool>)
    requires d.tx.stage.Closed?
    ensures TxRun(jobs, d, answers) == d
    decreases |answers|
  {
    if answers != [] {
      ClosedStays(jobs, d, answers[1..]);
    }
  }

  // ---------- what one callback keeps ----------

  /** The flags agree with the stage: nothing is thrown after durable completion, and a callback
      closes successfully exactly when it recorded completion. */
  ghost predicate FlagsAgree(jobs: Jobs, t: Tx) {
    match t.stage
    case Opened => !t.applied && !t.durableCompleted
    case Recorded => t.applied == jobs.sandboxed(t.id) && t.durableCompleted
    case Catching => (t.applied ==> jobs.sandboxed(t.id)) && !t.durableCompleted
    case Closed(ok) => ok == t.durableCompleted && (ok ==> t.applied == jobs.sandboxed(t.id))
    case _ => t.applied == jobs.sandboxed(t.id) && !t.durableCompleted
  }

  predicate PatchInRoot(t: Tx) {
    t.applied && t.stage != Closed(false)
  }

  function Own(t: Tx): seq<string> {
    if PatchInRoot(t) then [t.id] else []
  }

  /** Relative to the root and the record it found (`root0`, `durable0`), a callback has added at
      most its own patch, on top, and at most its own record. */
  ghost predicate DeskInv(jobs: Jobs, d: Desk, root0: seq<string>, durable0: set<string>) {
    && FlagsAgree(jobs, d.tx)
    && d.root == root0 + Own(d.tx)
    && d.durable == durable0 + if d.tx.durableCompleted then {d.tx.id} else {}
  }

  lemma MinusLast(root0: seq<string>, id: string)
    requires id !in root0
    ensures Minus(root0 + [id], id) == root0
  {
    assert (root0 + [id])[..|root0|] == root0;
    MinusMeaning(root0, id);
  }

  /** Every CLI call keeps this. */
  lemma TxNextKeeps(jobs: Jobs, d: Desk, ok: bool, root0: seq<string>, durable0: set<string>)
    requires DeskInv(jobs, d, root0, durable0) && d.tx.id !in root0
    ensures DeskInv(jobs, TxNext(jobs, d, ok), root0, durable0)
    ensures TxNext(jobs, d, ok).tx.id == d.tx.id
  {
    if d.tx.stage.Catching? {
      MinusLast(root0, d.tx.id);
    }
    assert root0 + [] == root0 && durable0 + {} == durable0;
  }

  lemma RollbackPops(jobs: Jobs, d: Desk, ok: bool, root0: seq<string>, durable0: set<string>)
    requires DeskInv(jobs, d, root0, durable0) && d.tx.id !in root0
    requires d.tx.stage.Catching? && d.tx.applied
    ensures d.root != [] && d.root[|d.root| - 1] == d.tx.id && TxNext(jobs, d, ok).root == d.root[..|d.root| - 1]
  {
    MinusLast(root0, d.tx.id);
    assert (root0 + [d.tx.id])[..|root0|] == root0;
  }

  lemma {:induction false} TxRunKeeps(jobs: Jobs, d: Desk, answers: seq<bool>, root0: seq<string>, durable0: set<string>)
    requires DeskInv(jobs, d, root0, durable0) && d.tx.id !in root0
    ensures DeskInv(jobs, TxRun(jobs, d, answers), root0, durable0)
    ensures TxRun(jobs, d, answers).tx.id == d.tx.id
    decreases |answers|
  {
    if answers != [] {
      TxNextKeeps(jobs, d, answers[0], root0, durable0);
      TxRunKeeps(jobs, TxNext(jobs, d, answers[0]), answers[1..], root0, durable0);
    }
  }

  function CallsLeft(jobs: Jobs, t: Tx): nat {
    match t.stage
    case Opened => jobs.commands(t.id) + 5
    case Checking(k) => (if k < jobs.commands(t.id) then jobs.commands(t.id) - k else 0) + 4
    case Receipting => 3
    case Completing => 2
    case Recorded => 1
    case Catching => 1
    case Closed(_) => 0
  }

  /** Every callback closes, after at most five calls besides its verification commands. */
  lemma {:induction false} CallbackCloses(jobs: Jobs, d: Desk, answers: seq<bool>)
    requires |answers| >= CallsLeft(jobs, d.tx)
    ensures TxRun(jobs, d, answers).tx.stage.Closed?
    decreases |answers|
  {
    if answers != [] {
      CallbackCloses(jobs, TxNext(jobs, d, answers[0]), answers[1..]);
    }
  }

  // ---------- what a callback's answers decide ----------

  /** The patch was applied, if there is one, and `k` verification commands passed. Answer 0 is that of
      the patch, the next `n` are those of the commands, then come the receipt and the completion as
      answers `n + 2` and `n + 3`; the other moves of the machine ask for nothing. */
  predicate Passed(jobs: Jobs, id: string, answers: seq<bool>, k: nat) {
    && k < |answers|
    && (jobs.sandboxed(id) ==> answers[0])
    && forall i :: 1 <= i <= k ==> answers[i]
  }

  /** Everything that must go well did: the patch, every verification command, the receipt and the
      durable completion. */
  predicate AllWentWell(jobs: Jobs, id: string, answers: seq<bool>) {
    var n := jobs.commands(id);
    n + 4 <= |answers| && Passed(jobs, id, answers, n) && answers[n + 2] && answers[n + 3]
  }

  /** Something that was needed was refused. */
  ghost predicate Refused(jobs: Jobs, id: string, answers: seq<bool>) {
    var n := jobs.commands(id);
    || (jobs.sandboxed(id) && answers != [] && !answers[0])
    || (exists i :: 1 <= i <= n && i < |answers| && !answers[i])
    || (n + 2 < |answers| && !answers[n + 2]) || (n + 3 < |answers| && !answers[n + 3])
  }

  /** Where a callback stands says how it was answered. */
  ghost predicate StageMeans(jobs: Jobs, t: Tx, answers: seq<bool>) {
    var n := jobs.commands(t.id);
    match t.stage
    case Opened => answers == []
    case Checking(k) => k <= n && |answers| == k + 1 && Passed(jobs, t.id, answers, k)
    case Receipting => |answers| == n + 2 && Passed(jobs, t.id, answers, n)
    case Completing => |answers| == n + 3 && Passed(jobs, t.id, answers, n) && answers[n + 2]
    case Recorded => |answers| == n + 4 && AllWentWell(jobs, t.id, answers)
    case Catching => Refused(jobs, t.id, answers)
    case Closed(ok) => if ok then AllWentWell(jobs, t.id, answers) else Refused(jobs, t.id, answers)
  }

  lemma RefusedStays(jobs: Jobs, id: string, answers: seq<bool>, ok: bool)
    requires Refused(jobs, id, answers)
    ensures Refused(jobs, id, answers + [ok])
  {
    var n := jobs.commands(id);
    if i :| 1 <= i <= n && i < |answers| && !answers[i] {
      assert !(answers + [ok])[i];
    }
  }

  lemma StepMeans(jobs: Jobs, d: Desk, answers: seq<bool>, ok: bool)
    requires StageMeans(jobs, d.tx, answers)
    ensures StageMeans(jobs, TxNext(jobs, d, ok).tx, answers + [ok])
  {
    if Refused(jobs, d.tx.id, answers) {
      RefusedStays(jobs, d.tx.id, answers, ok);
    }
    assert (answers + [ok])[|answers|] == ok;
  }

  lemma {:induction false} RunMeans(jobs: Jobs, d: Desk, answers: seq<bool>)
    requires d.tx == Open(d.tx.id)
    ensures TxRun(jobs, d, answers).tx.id == d.tx.id && StageMeans(jobs, TxRun(jobs, d, answers).tx, answers)
  {
    if answers != [] {
      var before, ok := answers[..|answers| - 1], answers[|answers| - 1];
      RunMeans(jobs, d, before);
      assert answers == before + [ok];
      TxRunAppend(jobs, d, before, ok);
      StepMeans(jobs, TxRun(jobs, d, before), before, ok);
    }
  }

  /** A callback that has closed was successful exactly when everything went well. */
  lemma ClosesIff(jobs: Jobs, t: Tx, answers: seq<bool>, ok: bool)
    requires StageMeans(jobs, t, answers) && t.stage == Closed(ok)
    ensures ok <==> AllWentWell(jobs, t.id, answers)
  {
  }

  // ---------- the callback as it is written ----------

  class RootTree {
    var root: seq<string>
    var durable: set<string>

    constructor ()
      ensures root == [] && durable == {}
    {
      root, durable := [], {};
    }

    ghost function At(t: Tx): (d: Desk)
      reads this
    {
      Desk(t, root, durable)
    }

    /** The body of `try`: apply, verify, receipt, complete. `answers` is how each step will be
        answered, in order; the body stops at the first refusal and reports how far it came. */
    method Attempt(jobs: Jobs, id: string, answers: seq<bool>)
      returns (applied: bool, durableCompleted: bool, used: nat)
      requires |answers| >= jobs.commands(id) + 4
      modifies this
      ensures used <= jobs.commands(id) + 4
      ensures applied <==> jobs.sandboxed(id) && answers[0]
      ensures durableCompleted <==> AllWentWell(jobs, id, answers)
      ensures TxRun(jobs, old(At(Open(id))), answers[..used])
              == At(Tx(id, if durableCompleted then Recorded else Catching, applied, durableCompleted))
    {
      ghost var d := At(Open(id));
      applied, durableCompleted, used := false, false, 0;
      if jobs.sandboxed(id) {
        if !answers[0] {
          used := Advance(jobs, d, answers, 0);
          return;
        }
        root := root + [id];
        applied := true;
      }
      used := Advance(jobs, d, answers, 0);
      var next := 0;
      while next < jobs.commands(id)
        invariant 0 <= next <= jobs.commands(id) && used == next + 1
        invariant applied == jobs.sandboxed(id) && Passed(jobs, id, answers, next)
        invariant TxRun(jobs, d, answers[..used]) == At(Tx(id, Checking(next), applied, false))
      {
        var ok := answers[used];
        used := Advance(jobs, d, answers, used);
        if !ok {
          return;
        }
        next := next + 1;
      }
      used := Advance(jobs, d, answers, used);
      var receipt := answers[used];
      used := Advance(jobs, d, answers, used);
      if !receipt {
        return;
      }
      var completed := answers[used];
      used := Advance(jobs, d, answers, used);
      if completed {
        durable := durable + {id};
        durableCompleted := true;
      }
    }

    /** The next answer has been used. */
    method Advance(jobs: Jobs, ghost d: Desk, answers: seq<bool>, used: nat) returns (next: nat)
      requires used < |answers|
      ensures next == used + 1
      ensures TxRun(jobs, d, answers[..next]) == TxNext(jobs, TxRun(jobs, d, answers[..used]), answers[used])
    {
      assert answers[..used + 1] == answers[..used] + [answers[used]];
      TxRunAppend(jobs, d, answers[..used], answers[used]);
      next := used + 1;
    }

    /** The integrate callback, as a function of how its steps are answered. It succeeds exactly when
        its patch (if it had a sandbox), every verification command, the receipt and the completion
        were accepted; then its patch is on top of the root and the task is in the record. Otherwise
        root and record are as it found them. */
    method Integrate(jobs: Jobs, id: string, answers: seq<bool>) returns (ok: bool)
      requires id !in root && |answers| >= jobs.commands(id) + 5
      modifies this
      ensures TxRun(jobs, old(At(Open(id))), answers).tx.stage == Closed(ok)
      ensures TxRun(jobs, old(At(Open(id))), answers).root == root
      ensures TxRun(jobs, old(At(Open(id))), answers).durable == durable
      ensures var n := jobs.commands(id);
        ok <==> (jobs.sandboxed(id) ==> answers[0]) && (forall i :: 1 <= i <= n ==> answers[i]) && answers[n + 2] && answers[n + 3]
      ensures ok ==> root == old(root) + (if jobs.sandboxed(id) then [id] else []) && durable == old(durable) + {id}
      ensures !ok ==> root == old(root) && durable == old(durable)
    {
      ghost var d := At(Open(id));
      var applied, durableCompleted, used := Attempt(jobs, id, answers);
      used := Advance(jobs, d, answers, used);
      assert d.root == d.root + [] && d.durable == d.durable + {};
      TxRunKeeps(jobs, d, answers[..used], d.root, d.durable);
      ClosedStays(jobs, TxRun(jobs, d, answers[..used]), answers[used..]);
      TxRunSplit(jobs, d, answers, used);
      RunMeans(jobs, d, answers);
      ClosesIff(jobs, TxRun(jobs, d, answers).tx, answers, durableCompleted);
      if durableCompleted {
        return true;
      }
      if applied {
        root := Minus(root, id);
      }
      return false;
    }
  }

  // ---------- the scheduler and its callbacks together ----------

  /** `baselines` is the root each sandbox was created from. */
  datatype World = World(s: State, tx: Option<Tx>, root: seq<string>, durable: set<string>, baselines: map<string, seq<string>>)

  datatype WorldStep = Sched(step: Step) | Sandbox(id: string) | Cli(ok: bool)

  function WorldInit(cfg: Config): World {
    World(Init(cfg), None, [], {}, map[])
  }

  /** No callback is under way. The callback has no `await` and its CLI calls are synchronous, so once
      begun it runs to its end before anything else does. */
  predicate Idle(tx: Option<Tx>) {
    tx.Some? ==> tx.value.stage.Closed?
  }

  /** A sandbox is created once, by a working task. A worker only reports success past the verifier
      gate, and from its sandbox if it has one; an integration begins by opening its callback, and ends
      with whatever the callback closed with. */
  ghost predicate WorldEnabled(cfg: Config, jobs: Jobs, w: World, step: WorldStep) {
    match step
    case Sched(st) =>
      && Idle(w.tx) && Enabled(cfg, w.s, st)
      && (st.WorkerStep? && st.ok ==>
            GatePasses(jobs.parse, jobs.transcript(st.id)) && (jobs.sandboxed(st.id) ==> st.id in w.baselines))
      && (st.EndStep? ==> w.tx.Some? && w.tx.value.id == st.id && w.tx.value.stage == Closed(st.ok))
    case Sandbox(id) =>
      Idle(w.tx) && id in w.s.running && w.s.running[id].Working? && jobs.sandboxed(id) && id !in w.baselines
    case Cli(_) => !Idle(w.tx)
  }

  ghost function WorldApply(cfg: Config, jobs: Jobs, w: World, step: WorldStep): World
    requires WorldEnabled(cfg, jobs, w, step)
  {
    match step
    case Sched(st) =>
      var s := Apply(cfg, w.s, st);
      if st.BeginStep? then w.(s := s, tx := Some(Open(st.id)))
      else if st.EndStep? then w.(s := s, tx := None)
      else w.(s := s)
    case Sandbox(id) => w.(baselines := w.baselines[id := w.root])
    case Cli(ok) =>
      var d := TxNext(jobs, Desk(w.tx.value, w.root, w.durable), ok);
      w.(tx := Some(d.tx), root := d.root, durable := d.durable)
  }

  ghost function WorldExec(cfg: Config, jobs: Jobs, steps: seq<WorldStep>): World {
    if steps == [] then WorldInit(cfg)
    else
      var w := WorldExec(cfg, jobs, steps[..|steps| - 1]);
      if WorldEnabled(cfg, jobs, w, steps[|steps| - 1]) then WorldApply(cfg, jobs, w, steps[|steps| - 1]) else w
  }

  ghost predicate IsWorldRun(cfg: Config, jobs: Jobs, steps: seq<WorldStep>) {
    steps == []
    || (IsWorldRun(cfg, jobs, steps[..|steps| - 1])
        && WorldEnabled(cfg, jobs, WorldExec(cfg, jobs, steps[..|steps| - 1]), steps[|steps| - 1]))
  }

  function SchedulerSteps(steps: seq<WorldStep>): seq<Step> {
    if steps == [] then []
    else
      var last := steps[|steps| - 1];
      SchedulerSteps(steps[..|steps| - 1]) + if last.Sched? then [last.step] else []
  }

  /** Seen without its callbacks, every run of the whole is a run of the scheduler: all the theorems
      about scheduler runs carry over. */
  lemma {:induction false} WorldRunsAreRuns(cfg: Config, jobs: Jobs, steps: seq<WorldStep>)
    requires IsWorldRun(cfg, jobs, steps)
    ensures IsRun(cfg, SchedulerSteps(steps))
    ensures Exec(cfg, SchedulerSteps(steps)) == WorldExec(cfg, jobs, steps).s
  {
    if steps != [] {
      var before, last := steps[..|steps| - 1], steps[|steps| - 1];
      WorldRunsAreRuns(cfg, jobs, before);
      if last.Sched? {
        RunExtends(cfg, SchedulerSteps(before), last.step);
      } else {
        assert SchedulerSteps(before) + [] == SchedulerSteps(before);
      }
    }
  }

  // ---------- root conservation ----------

  /** The patches of the tasks that ran in a sandbox. */
  function Patches(jobs: Jobs, ids: seq<string>): seq<string> {
    if ids == [] then []
    else
      Patches(jobs, ids[..|ids| - 1])
      + if jobs.sandboxed(ids[|ids| - 1]) then [ids[|ids| - 1]] else []
  }

  lemma {:induction false} PatchesMember(jobs: Jobs, ids: seq<string>)
    ensures forall x :: x in Patches(jobs, ids) <==> x in ids && jobs.sandboxed(x)
    ensures NoDup(ids) ==> NoDup(Patches(jobs, ids))
  {
    if ids != [] {
      var p, x := ids[..|ids| - 1], ids[|ids| - 1];
      PatchesMember(jobs, p);
      assert ids == p + [x];
      assert NoDup(ids) ==> NoDup(p) && x !in p;
    }
  }

  /** A callback is open exactly for the integrating task. */
  ghost predicate TxMatches(running: map<string, Phase>, tx: Option<Tx>) {
    && (tx.Some? ==> tx.value.id in running && running[tx.value.id].Integrating?)
    && (forall id :: id in running && running[id].Integrating? ==> tx.Some? && tx.value.id == id)
  }

  /** The root holds the patches of the merged tasks, in merge order, and at most the open callback's
      patch on top; likewise the durable record. */
  ghost predicate Ledger(jobs: Jobs, log: seq<Event>, tx: Option<Tx>, root: seq<string>, durable: set<string>) {
    match tx
    case None => root == Patches(jobs, Merged(log)) && durable == AsSet(Merged(log))
    case Some(t) =>
      DeskInv(jobs, Desk(t, root, durable), Patches(jobs, Merged(log)), AsSet(Merged(log))) && t.id !in Merged(log)
  }

  ghost predicate Gated(jobs: Jobs, log: seq<Event>) {
    forall id :: WorkerFinished(id) in log ==> GatePasses(jobs.parse, jobs.transcript(id))
  }

  ghost predicate WorldInv(jobs: Jobs, w: World) {
    TxMatches(w.s.running, w.tx) && Ledger(jobs, w.s.log, w.tx, w.root, w.durable) && Gated(jobs, w.s.log)
  }

  /** Steps of the scheduler other than the two ends of an integration record no merge and move no
      task into or out of integration. */
  ghost predicate Quiet(s: State, t: State) {
    && Merged(t.log) == Merged(s.log)
    && (forall id :: id in t.running && t.running[id].Integrating? <==> id in s.running && s.running[id].Integrating?)
    && (forall id :: WorkerFinished(id) in t.log <==> WorkerFinished(id) in s.log)
    && (forall id, ok :: IntegrationEnded(id, ok) in t.log <==> IntegrationEnded(id, ok) in s.log)
    && Integrated(t.log) == Integrated(s.log)
  }

  lemma MergedAppend(log: seq<Event>, e: Event)
    ensures Merged(log + [e]) == if e.IntegrationEnded? && e.ok then Merged(log) + [e.id] else Merged(log)
    ensures Integrated(log + [e]) == if e.IntegrationStarted? then Integrated(log) + [e.id] else Integrated(log)
  {
    assert (log + [e])[..|log|] == log;
  }

  lemma {:induction false} BlockPassQuiet(cfg: Config, s: State, ids: seq<string>)
    ensures Quiet(s, BlockPass(cfg, s, ids))
    decreases |ids|
  {
    if ids != [] {
      var t := BlockIfBad(cfg, s, ids[0]);
      if t != s {
        MergedAppend(s.log, t.log[|t.log| - 1]);
      }
      BlockPassQuiet(cfg, t, ids[1..]);
    }
  }

  lemma {:induction false} BlockAllQuiet(s: State, reason: Reason)
    ensures Quiet(s, BlockAll(s, reason))
    decreases |s.pending|
  {
    if s.pending != [] {
      MinusShorter(s.pending, s.pending[0]);
      MergedAppend(s.log, Blocked(s.pending[0], reason));
      BlockAllQuiet(BlockOne(s, s.pending[0], reason), reason);
    }
  }

  lemma ConsiderQuiet(cfg: Config, s: State, id: string)
    requires id !in s.running
    ensures Quiet(s, Consider(cfg, s, id))
  {
    MergedAppend(s.log, Started(id));
  }

  lemma {:induction false} LaunchAllQuiet(cfg: Config, s: State, limit: int, order: seq<string>)
    requires NoDup(order) && forall x :: x in order ==> x !in s.running
    ensures Quiet(s, LaunchAll(cfg, s, limit, order))
    decreases |order|
  {
    if order != [] && |s.running| < limit {
      ConsiderQuiet(cfg, s, order[0]);
      LaunchAllQuiet(cfg, Consider(cfg, s, order[0]), limit, order[1..]);
    }
  }

  lemma PassQuiet(cfg: Config, s: State, order: seq<string>)
    requires ValidConfig(cfg) && StepInv(cfg, s) && Enabled(cfg, s, PassStep(order))
    ensures Quiet(s, Pass(cfg, s, order))
  {
    BlockPassQuiet(cfg, s, s.pending);
    PassOrder(cfg, s, order);
    LaunchAllQuiet(cfg, BeforeLaunching(cfg, s), PassLimit(cfg, s), order);
    BlockAllQuiet(AfterLaunching(cfg, s, order), NoRunnableTask);
  }

  lemma PassOrder(cfg: Config, s: State, order: seq<string>)
    requires ValidConfig(cfg) && StepInv(cfg, s) && Enabled(cfg, s, PassStep(order))
    ensures NoDup(order) && forall x :: x in order ==> x !in BeforeLaunching(cfg, s).running
    ensures AfterLaunching(cfg, s, order) == LaunchAll(cfg, BeforeLaunching(cfg, s), PassLimit(cfg, s), order)
  {
    BeforeLaunchingKeeps(cfg, s, order);
  }

  lemma SettleQuiet(cfg: Config, s: State, id: string)
    requires Enabled(cfg, s, SettleStep(id))
    ensures Quiet(s, Settle(cfg, s, id, s.running[id].ok))
  {
    MergedAppend(s.log, Completed(id));
    MergedAppend(s.log, Failed(id));
    var t := s.(pc := Top, running := s.running - {id}, failed := s.failed + {id}, log := s.log + [Failed(id)]);
    assert Quiet(s, t);
    BlockAllQuiet(t, FailFast(id));
  }

  lemma QuietKeeps(jobs: Jobs, w: World, t: State)
    requires WorldInv(jobs, w) && Quiet(w.s, t)
    ensures WorldInv(jobs, w.(s := t))
  {
  }

  lemma WorkerMatches(running: map<string, Phase>, tx: Option<Tx>, id: string, phase: Phase)
    requires TxMatches(running, tx) && id in running && running[id].Working? && !phase.Integrating?
    ensures TxMatches(running[id := phase], tx)
  {
  }

  lemma GatedAppend(jobs: Jobs, log: seq<Event>, id: string)
    requires Gated(jobs, log) && GatePasses(jobs.parse, jobs.transcript(id))
    ensures Gated(jobs, log + [WorkerFinished(id)])
  {
    LogGrows(log, WorkerFinished(id));
  }

  lemma WorkerWorld(cfg: Config, jobs: Jobs, w: World, id: string, ok: bool)
    requires WorldInv(jobs, w) && WorldEnabled(cfg, jobs, w, Sched(WorkerStep(id, ok)))
    ensures WorldInv(jobs, WorldApply(cfg, jobs, w, Sched(WorkerStep(id, ok))))
  {
    MergedAppend(w.s.log, WorkerFinished(id));
    if ok && cfg.integrates {
      WorkerMatches(w.s.running, w.tx, id, Queued);
      GatedAppend(jobs, w.s.log, id);
    } else {
      WorkerMatches(w.s.running, w.tx, id, Settled(ok));
    }
  }

  lemma BeginMatches(queue: seq<string>, running: map<string, Phase>, tx: Option<Tx>)
    requires QueueInv(queue, running) && TxMatches(running, tx)
    requires queue != [] && queue[0] in running && running[queue[0]].Queued?
    ensures tx == None && TxMatches(running[queue[0] := Integrating], Some(Open(queue[0])))
  {
  }

  lemma BeginLedger(jobs: Jobs, log: seq<Event>, root: seq<string>, durable: set<string>, id: string)
    requires Ledger(jobs, log, None, root, durable) && id !in Merged(log)
    ensures Ledger(jobs, log + [IntegrationStarted(id)], Some(Open(id)), root, durable)
  {
    MergedAppend(log, IntegrationStarted(id));
    assert root + [] == root && durable + {} == durable;
  }

  lemma BeginWorld(cfg: Config, jobs: Jobs, w: World, id: string)
    requires QueueInv(w.s.queue, w.s.running) && WorldInv(jobs, w)
    requires Enabled(cfg, w.s, BeginStep(id)) && id !in Merged(w.s.log)
    ensures WorldInv(jobs, WorldApply(cfg, jobs, w, Sched(BeginStep(id))))
  {
    BeginMatches(w.s.queue, w.s.running, w.tx);
    BeginLedger(jobs, w.s.log, w.root, w.durable, id);
  }

  lemma NotYetMerged(cfg: Config, s: State, id: string)
    requires Traced(cfg, s.log, s.running, s.completed) && id in s.running && !s.running[id].Settled? && id !in s.completed
    ensures id !in Merged(s.log)
  {
    FinishersMember(s.log);
    assert TracedAt(cfg, s.log, s.running, s.completed, id);
  }

  lemma PatchesAppend(jobs: Jobs, m: seq<string>, id: string)
    ensures Patches(jobs, m + [id]) == if jobs.sandboxed(id) then Patches(jobs, m) + [id] else Patches(jobs, m)
    ensures AsSet(m + [id]) == AsSet(m) + {id}
  {
    assert (m + [id])[..|m|] == m;
  }

  lemma EndLedger(jobs: Jobs, log: seq<Event>, t: Tx, root: seq<string>, durable: set<string>, ok: bool)
    requires Ledger(jobs, log, Some(t), root, durable) && t.stage == Closed(ok)
    ensures Ledger(jobs, log + [IntegrationEnded(t.id, ok)], None, root, durable)
  {
    MergedAppend(log, IntegrationEnded(t.id, ok));
    if ok {
      PatchesAppend(jobs, Merged(log), t.id);
    }
  }

  lemma EndWorld(cfg: Config, jobs: Jobs, w: World, id: string, ok: bool)
    requires WorldInv(jobs, w) && WorldEnabled(cfg, jobs, w, Sched(EndStep(id, ok)))
    requires w.s.queue[0] == id
    ensures WorldInv(jobs, WorldApply(cfg, jobs, w, Sched(EndStep(id, ok))))
  {
    EndLedger(jobs, w.s.log, w.tx.value, w.root, w.durable, ok);
  }

  lemma CliWorld(cfg: Config, jobs: Jobs, w: World, ok: bool)
    requires WorldInv(jobs, w) && WorldEnabled(cfg, jobs, w, Cli(ok))
    ensures WorldInv(jobs, WorldApply(cfg, jobs, w, Cli(ok)))
  {
    PatchesMember(jobs, Merged(w.s.log));
    TxNextKeeps(jobs, Desk(w.tx.value, w.root, w.durable), ok, Patches(jobs, Merged(w.s.log)), AsSet(Merged(w.s.log)));
  }

  lemma WorldStepKeeps(cfg: Config, jobs: Jobs, w: World, step: WorldStep)
    requires ValidConfig(cfg) && StepInv(cfg, w.s) && WorldInv(jobs, w) && WorldEnabled(cfg, jobs, w, step)
    ensures WorldInv(jobs, WorldApply(cfg, jobs, w, step))
  {
    match step
    case Cli(ok) => CliWorld(cfg, jobs, w, ok);
    case Sandbox(_) =>
    case Sched(st) =>
      match st
      case PassStep(order) =>
        PassQuiet(cfg, w.s, order);
        QuietKeeps(jobs, w, Apply(cfg, w.s, st));
      case ExitStep => QuietKeeps(jobs, w, Apply(cfg, w.s, st));
      case SettleStep(id) =>
        SettleQuiet(cfg, w.s, id);
        QuietKeeps(jobs, w, Apply(cfg, w.s, st));
      case WorkerStep(id, ok) => WorkerWorld(cfg, jobs, w, id, ok);
      case BeginStep(id) =>
        NotYetMerged(cfg, w.s, id);
        BeginWorld(cfg, jobs, w, id);
      case EndStep(id, ok) => EndWorld(cfg, jobs, w, id, ok);
  }

  lemma {:induction false} WorldRunKeeps(cfg: Config, jobs: Jobs, steps: seq<WorldStep>)
    requires ValidConfig(cfg) && IsWorldRun(cfg, jobs, steps)
    ensures WorldInv(jobs, WorldExec(cfg, jobs, steps)) && StepInv(cfg, WorldExec(cfg, jobs, steps).s)
  {
    WorldRunsAreRuns(cfg, jobs, steps);
    RunKeeps(cfg, SchedulerSteps(steps));
    if steps != [] {
      var before := steps[..|steps| - 1];
      WorldRunKeeps(cfg, jobs, before);
      WorldStepKeeps(cfg, jobs, WorldExec(cfg, jobs, before), steps[|steps| - 1]);
    }
  }

  /** At every moment of every run, a rollback undoes the most recently applied patch and nothing else. */
  lemma RollbackUndoesLastPatch(cfg: Config, jobs: Jobs, steps: seq<WorldStep>, ok: bool)
    requires ValidConfig(cfg) && IsWorldRun(cfg, jobs, steps)
    requires var w := WorldExec(cfg, jobs, steps); w.tx.Some? && w.tx.value.stage.Catching? && w.tx.value.applied
    ensures var w := WorldExec(cfg, jobs, steps);
      && w.root != [] && w.root[|w.root| - 1] == w.tx.value.id
      && WorldApply(cfg, jobs, w, Cli(ok)).root == w.root[..|w.root| - 1]
  {
    var w := WorldExec(cfg, jobs, steps);
    WorldRunLedger(cfg, jobs, steps);
    PatchesMember(jobs, Merged(w.s.log));
    RollbackPops(jobs, Desk(w.tx.value, w.root, w.durable), ok, Patches(jobs, Merged(w.s.log)), AsSet(Merged(w.s.log)));
  }

  /** Integrate never throws after durable completion, and never succeeds without it. */
  lemma DurableMeansSuccess(cfg: Config, jobs: Jobs, steps: seq<WorldStep>)
    requires ValidConfig(cfg) && IsWorldRun(cfg, jobs, steps)
    requires WorldExec(cfg, jobs, steps).tx.Some?
    ensures var t := WorldExec(cfg, jobs, steps).tx.value;
      && (t.stage.Catching? ==> !t.durableCompleted)
      && (t.stage.Closed? ==> t.stage.ok == t.durableCompleted)
  {
    WorldRunLedger(cfg, jobs, steps);
  }

  lemma WorldRunLedger(cfg: Config, jobs: Jobs, steps: seq<WorldStep>)
    requires ValidConfig(cfg) && IsWorldRun(cfg, jobs, steps)
    ensures WorldInv(jobs, WorldExec(cfg, jobs, steps))
  {
    WorldRunKeeps(cfg, jobs, steps);
  }

  lemma {:induction false} MergedOnce(cfg: Config, log: seq<Event>)
    requires Legal(cfg, log)
    ensures NoDup(Merged(log))
  {
    if log != [] {
      MergedOnce(cfg, log[..|log| - 1]);
      FinishersMember(log[..|log| - 1]);
    }
  }

  lemma MergedIsCompleted(cfg: Config, log: seq<Event>, completed: set<string>)
    requires Traced(cfg, log, map[], completed) && cfg.integrates
    ensures forall id :: id in Merged(log) <==> id in completed && id in cfg.byID
  {
    FinishersMember(log);
    forall id ensures id in Merged(log) <==> id in completed && id in cfg.byID {
      assert TracedAt(cfg, log, map[], completed, id);
    }
  }

  lemma MergedIsGated(cfg: Config, jobs: Jobs, s: State)
    requires Traced(cfg, s.log, s.running, s.completed) && Gated(jobs, s.log)
    ensures forall id :: id in Merged(s.log) ==> GatePasses(jobs.parse, jobs.transcript(id))
  {
    FinishersMember(s.log);
    forall id | id in Merged(s.log) ensures GatePasses(jobs.parse, jobs.transcript(id)) {
      assert TracedAt(cfg, s.log, s.running, s.completed, id);
      assert Ended(s.log, id);
    }
  }

  /** Root conservation. When the run has ended, the root holds exactly the patches of the sandboxed
      tasks that completed, each once, in the order they were merged; the durable record holds
      exactly the tasks reported completed; and each of those passed the verifier gate. */
  lemma RootConservation(cfg: Config, jobs: Jobs, steps: seq<WorldStep>)
    requires ValidConfig(cfg) && cfg.integrates && IsWorldRun(cfg, jobs, steps)
    requires WorldExec(cfg, jobs, steps).s.pc == Finished
    ensures var w := WorldExec(cfg, jobs, steps);
      && w.tx == None
      && w.root == Patches(jobs, Merged(w.s.log)) && NoDup(w.root)
      && (forall id :: id in w.root <==> id in w.s.completed && id in cfg.byID && jobs.sandboxed(id))
      && (forall id :: id in w.durable <==> id in w.s.completed && id in cfg.byID)
      && (forall id :: id in w.durable ==> GatePasses(jobs.parse, jobs.transcript(id)))
  {
    var w := WorldExec(cfg, jobs, steps);
    WorldRunKeeps(cfg, jobs, steps);
    MergedOnce(cfg, w.s.log);
    PatchesMember(jobs, Merged(w.s.log));
    MergedIsCompleted(cfg, w.s.log, w.s.completed);
    MergedIsGated(cfg, jobs, w.s);
  }

  lemma {:induction false} PatchPosition(jobs: Jobs, ids: seq<string>, i: nat) returns (k: nat)
    requires i < |Patches(jobs, ids)|
    ensures k < |ids| && ids[k] == Patches(jobs, ids)[i] && Patches(jobs, ids[..k]) == Patches(jobs, ids)[..i]
  {
    var p := ids[..|ids| - 1];
    if i < |Patches(jobs, p)| {
      k := PatchPosition(jobs, p, i);
      assert p[..k] == ids[..k] && Patches(jobs, ids)[..i] == Patches(jobs, p)[..i];
    } else {
      k := |ids| - 1;
    }
  }

  // ---------- how the merged tasks were answered ----------

  /** The task whose callback was opened last. */
  function LastOpened(steps: seq<WorldStep>): Option<string> {
    if steps == [] then None
    else
      var last := steps[|steps| - 1];
      if last.Sched? && last.step.BeginStep? then Some(last.step.id) else LastOpened(steps[..|steps| - 1])
  }

  /** How the CLI calls of a task's callback were answered, read off the steps alone. */
  function AnswersTo(steps: seq<WorldStep>, id: string): seq<bool> {
    if steps == [] then []
    else
      var before, last := steps[..|steps| - 1], steps[|steps| - 1];
      if last.Sched? && last.step.BeginStep? && last.step.id == id then []
      else AnswersTo(before, id) + if last.Cli? && LastOpened(before) == Some(id) then [last.ok] else []
  }

  /** The open callback stands where its answers have brought it, and each ended integration was
      answered as its end says. */
  ghost predicate Answered(jobs: Jobs, w: World, steps: seq<WorldStep>) {
    && (w.tx.Some? ==> LastOpened(steps) == Some(w.tx.value.id) && StageMeans(jobs, w.tx.value, AnswersTo(steps, w.tx.value.id)))
    && forall id, ok :: IntegrationEnded(id, ok) in w.s.log ==> (ok <==> AllWentWell(jobs, id, AnswersTo(steps, id)))
  }

  /** Steps that neither begin an integration nor answer a call of it. */
  lemma OtherStepAnswers(steps: seq<WorldStep>, step: WorldStep, id: string)
    requires !(step.Sched? && step.step.BeginStep?) && !(step.Cli? && LastOpened(steps) == Some(id))
    ensures LastOpened(steps + [step]) == LastOpened(steps) && AnswersTo(steps + [step], id) == AnswersTo(steps, id)
  {
    assert (steps + [step])[..|steps|] == steps;
  }

  lemma CliAnswers(steps: seq<WorldStep>, ok: bool, id: string)
    requires LastOpened(steps) == Some(id)
    ensures LastOpened(steps + [Cli(ok)]) == Some(id) && AnswersTo(steps + [Cli(ok)], id) == AnswersTo(steps, id) + [ok]
  {
    assert (steps + [Cli(ok)])[..|steps|] == steps;
  }

  lemma BeginAnswers(steps: seq<WorldStep>, id: string, x: string)
    ensures var all := steps + [Sched(BeginStep(id))];
      LastOpened(all) == Some(id) && AnswersTo(all, x) == if x == id then [] else AnswersTo(steps, x)
  {
    assert (steps + [Sched(BeginStep(id))])[..|steps|] == steps;
  }

  lemma PassEnds(cfg: Config, s: State, order: seq<string>)
    requires ValidConfig(cfg) && StepInv(cfg, s) && Enabled(cfg, s, PassStep(order))
    ensures forall id, ok :: IntegrationEnded(id, ok) in Pass(cfg, s, order).log <==> IntegrationEnded(id, ok) in s.log
  {
    PassQuiet(cfg, s, order);
  }

  lemma SettleEnds(cfg: Config, s: State, x: string)
    requires Enabled(cfg, s, SettleStep(x))
    ensures forall id, ok :: IntegrationEnded(id, ok) in Settle(cfg, s, x, s.running[x].ok).log <==> IntegrationEnded(id, ok) in s.log
  {
    SettleQuiet(cfg, s, x);
  }

  /** The integrations ended stay what they were, unless the step ends one. */
  lemma EndsStay(cfg: Config, s: State, st: Step, id: string, ok: bool)
    requires ValidConfig(cfg) && StepInv(cfg, s) && Enabled(cfg, s, st) && !st.EndStep?
    ensures IntegrationEnded(id, ok) in Apply(cfg, s, st).log <==> IntegrationEnded(id, ok) in s.log
  {
    match st
    case PassStep(order) => PassEnds(cfg, s, order);
    case SettleStep(x) => SettleEnds(cfg, s, x);
    case _ => AsyncEnds(cfg, s, st, id, ok);
  }

  lemma AsyncEnds(cfg: Config, s: State, st: Step, id: string, ok: bool)
    requires Enabled(cfg, s, st) && (st.WorkerStep? || st.BeginStep? || st.ExitStep?)
    ensures IntegrationEnded(id, ok) in Apply(cfg, s, st).log <==> IntegrationEnded(id, ok) in s.log
  {
    if !st.ExitStep? {
      LogGrows(s.log, if st.BeginStep? then IntegrationStarted(st.id) else WorkerFinished(st.id));
    }
  }

  lemma NotEnded(cfg: Config, s: State, id: string, ok: bool)
    requires Traced(cfg, s.log, s.running, s.completed) && id in s.running
    requires s.running[id].Queued? || s.running[id].Integrating?
    ensures IntegrationEnded(id, ok) !in s.log
  {
    assert TracedAt(cfg, s.log, s.running, s.completed, id);
  }

  lemma CliAnswered(cfg: Config, jobs: Jobs, w: World, steps: seq<WorldStep>, ok: bool)
    requires Traced(cfg, w.s.log, w.s.running, w.s.completed) && TxMatches(w.s.running, w.tx)
    requires WorldEnabled(cfg, jobs, w, Cli(ok)) && Answered(jobs, w, steps)
    ensures Answered(jobs, WorldApply(cfg, jobs, w, Cli(ok)), steps + [Cli(ok)])
  {
    var t := w.tx.value;
    CliAnswers(steps, ok, t.id);
    StepMeans(jobs, Desk(t, w.root, w.durable), AnswersTo(steps, t.id), ok);
    forall id, end | IntegrationEnded(id, end) in w.s.log
      ensures AnswersTo(steps + [Cli(ok)], id) == AnswersTo(steps, id)
    {
      NotEnded(cfg, w.s, t.id, end);
      OtherStepAnswers(steps, Cli(ok), id);
    }
  }

  lemma BeginAnswered(cfg: Config, jobs: Jobs, w: World, steps: seq<WorldStep>, id: string)
    requires Traced(cfg, w.s.log, w.s.running, w.s.completed) && Answered(jobs, w, steps)
    requires WorldEnabled(cfg, jobs, w, Sched(BeginStep(id)))
    ensures Answered(jobs, WorldApply(cfg, jobs, w, Sched(BeginStep(id))), steps + [Sched(BeginStep(id))])
  {
    var t := WorldApply(cfg, jobs, w, Sched(BeginStep(id)));
    BeginAnswers(steps, id, id);
    LogGrows(w.s.log, IntegrationStarted(id));
    forall x, end | IntegrationEnded(x, end) in t.s.log
      ensures end <==> AllWentWell(jobs, x, AnswersTo(steps + [Sched(BeginStep(id))], x))
    {
      NotEnded(cfg, w.s, id, end);
      BeginAnswers(steps, id, x);
    }
  }

  lemma EndAnswered(cfg: Config, jobs: Jobs, w: World, steps: seq<WorldStep>, id: string, ok: bool)
    requires WorldEnabled(cfg, jobs, w, Sched(EndStep(id, ok))) && Answered(jobs, w, steps)
    ensures Answered(jobs, WorldApply(cfg, jobs, w, Sched(EndStep(id, ok))), steps + [Sched(EndStep(id, ok))])
  {
    ClosesIff(jobs, w.tx.value, AnswersTo(steps, id), ok);
    LogGrows(w.s.log, IntegrationEnded(id, ok));
    forall x ensures AnswersTo(steps + [Sched(EndStep(id, ok))], x) == AnswersTo(steps, x) {
      OtherStepAnswers(steps, Sched(EndStep(id, ok)), x);
    }
  }

  lemma OtherAnswered(cfg: Config, jobs: Jobs, w: World, steps: seq<WorldStep>, step: WorldStep)
    requires WorldEnabled(cfg, jobs, w, step) && Answered(jobs, w, steps) && !step.Cli?
    requires !(step.Sched? && (step.step.BeginStep? || step.step.EndStep?))
    requires step.Sched? ==>
      forall id, ok :: IntegrationEnded(id, ok) in Apply(cfg, w.s, step.step).log <==> IntegrationEnded(id, ok) in w.s.log
    ensures Answered(jobs, WorldApply(cfg, jobs, w, step), steps + [step])
  {
    forall x ensures LastOpened(steps + [step]) == LastOpened(steps) && AnswersTo(steps + [step], x) == AnswersTo(steps, x) {
      OtherStepAnswers(steps, step, x);
    }
  }

  lemma QuietAnswered(cfg: Config, jobs: Jobs, w: World, steps: seq<WorldStep>, step: WorldStep)
    requires ValidConfig(cfg) && StepInv(cfg, w.s) && WorldEnabled(cfg, jobs, w, step) && Answered(jobs, w, steps)
    requires !step.Cli? && !(step.Sched? && (step.step.BeginStep? || step.step.EndStep?))
    ensures Answered(jobs, WorldApply(cfg, jobs, w, step), steps + [step])
  {
    if step.Sched? {
      forall id, ok ensures IntegrationEnded(id, ok) in Apply(cfg, w.s, step.step).log <==> IntegrationEnded(id, ok) in w.s.log {
        EndsStay(cfg, w.s, step.step, id, ok);
      }
    }
    OtherAnswered(cfg, jobs, w, steps, step);
  }

  lemma StepAnswered(cfg: Config, jobs: Jobs, w: World, steps: seq<WorldStep>, step: WorldStep)
    requires ValidConfig(cfg) && StepInv(cfg, w.s) && TxMatches(w.s.running, w.tx)
    requires WorldEnabled(cfg, jobs, w, step) && Answered(jobs, w, steps)
    ensures Answered(jobs, WorldApply(cfg, jobs, w, step), steps + [step])
  {
    match step
    case Cli(ok) => CliAnswered(cfg, jobs, w, steps, ok);
    case Sandbox(_) => QuietAnswered(cfg, jobs, w, steps, step);
    case Sched(st) =>
      match st
      case BeginStep(id) => BeginAnswered(cfg, jobs, w, steps, id);
      case EndStep(id, ok) => EndAnswered(cfg, jobs, w, steps, id, ok);
      case _ => QuietAnswered(cfg, jobs, w, steps, step);
  }

  /** The last step of a run, and the world it found. */
  lemma LastStep(cfg: Config, jobs: Jobs, before: seq<WorldStep>, step: WorldStep) returns (w: World)
    requires ValidConfig(cfg) && IsWorldRun(cfg, jobs, before + [step])
    ensures w == WorldExec(cfg, jobs, before) && IsWorldRun(cfg, jobs, before) && StepInv(cfg, w.s) && TxMatches(w.s.running, w.tx)
    ensures WorldEnabled(cfg, jobs, w, step) && WorldExec(cfg, jobs, before + [step]) == WorldApply(cfg, jobs, w, step)
  {
    assert (before + [step])[..|before|] == before;
    w := WorldExec(cfg, jobs, before);
    WorldRunKeeps(cfg, jobs, before);
  }

  lemma {:induction false} RunAnswered(cfg: Config, jobs: Jobs, steps: seq<WorldStep>)
    requires ValidConfig(cfg) && IsWorldRun(cfg, jobs, steps)
    ensures Answered(jobs, WorldExec(cfg, jobs, steps), steps)
  {
    if steps != [] {
      var before, step := steps[..|steps| - 1], steps[|steps| - 1];
      assert steps == before + [step];
      var w := LastStep(cfg, jobs, before, step);
      RunAnswered(cfg, jobs, before);
      StepAnswered(cfg, jobs, w, before, step);
    }
  }

  /** In every run a task is merged exactly when its callback has ended and its patch, every one of its
      verification commands, its receipt and its completion were accepted. */
  lemma MergedWasAccepted(cfg: Config, jobs: Jobs, steps: seq<WorldStep>, id: string)
    requires ValidConfig(cfg) && IsWorldRun(cfg, jobs, steps)
    ensures var log := WorldExec(cfg, jobs, steps).s.log;
      id in Merged(log) <==> Ended(log, id) && AllWentWell(jobs, id, AnswersTo(steps, id))
  {
    RunAnswered(cfg, jobs, steps);
    EndSaysMerged(jobs, WorldExec(cfg, jobs, steps), steps, id);
  }

  lemma EndSaysMerged(jobs: Jobs, w: World, steps: seq<WorldStep>, id: string)
    requires Answered(jobs, w, steps)
    ensures id in Merged(w.s.log) <==> Ended(w.s.log, id) && AllWentWell(jobs, id, AnswersTo(steps, id))
  {
    FinishersMember(w.s.log);
  }

  /** In the root of a finished run, every patch lies above the patches of the tasks it depends on. */
  lemma RootRespectsDependencies(cfg: Config, jobs: Jobs, steps: seq<WorldStep>, i: nat, d: string)
    requires ValidConfig(cfg) && cfg.integrates && IsWorldRun(cfg, jobs, steps)
    requires WorldExec(cfg, jobs, steps).s.pc == Finished
    requires var root := WorldExec(cfg, jobs, steps).root;
      i < |root| && d in Deps(cfg, root[i]) && d !in cfg.done0 && jobs.sandboxed(d)
    ensures d in WorldExec(cfg, jobs, steps).root[..i]
  {
    var w := WorldExec(cfg, jobs, steps);
    RootConservation(cfg, jobs, steps);
    WorldRunKeeps(cfg, jobs, steps);
    var k := PatchPosition(jobs, Merged(w.s.log), i);
    MergesFollowDependencies(cfg, w.s.log, k, d);
    PatchesMember(jobs, Merged(w.s.log)[..k]);
  }

  /** End to end, the outcome does not depend on the schedule: two finished runs over one graph that
      met the same task outcomes, whatever their claims and limits, leave the same patches in the root
      and the same tasks in the durable record. */
  lemma RootIsScheduleIndependent(cfgA: Config, jobsA: Jobs, runA: seq<WorldStep>,
                                  cfgB: Config, jobsB: Jobs, runB: seq<WorldStep>, ok: string -> bool)
    requires ValidConfig(cfgA) && cfgA.integrates && !cfgA.failFast
    requires ValidConfig(cfgB) && cfgB.integrates && !cfgB.failFast
    requires SameGraph(cfgA, cfgB) && forall id :: jobsA.sandboxed(id) == jobsB.sandboxed(id)
    requires IsWorldRun(cfgA, jobsA, runA) && WorldExec(cfgA, jobsA, runA).s.pc == Finished
    requires IsWorldRun(cfgB, jobsB, runB) && WorldExec(cfgB, jobsB, runB).s.pc == Finished
    requires Agrees(cfgA, WorldExec(cfgA, jobsA, runA).s, ok) && Agrees(cfgB, WorldExec(cfgB, jobsB, runB).s, ok)
    ensures var a, b := WorldExec(cfgA, jobsA, runA), WorldExec(cfgB, jobsB, runB);
      a.durable == b.durable && AsSet(a.root) == AsSet(b.root) && |a.root| == |b.root|
  {
    var a, b := WorldExec(cfgA, jobsA, runA), WorldExec(cfgB, jobsB, runB);
    WorldRunsAreRuns(cfgA, jobsA, runA);
    WorldRunsAreRuns(cfgB, jobsB, runB);
    ScheduleIndependence(cfgA, SchedulerSteps(runA), cfgB, SchedulerSteps(runB), ok);
    RootConservation(cfgA, jobsA, runA);
    RootConservation(cfgB, jobsB, runB);
    SameContents(cfgA, cfgB, a, b, jobsA, jobsB);
  }

  /** Root and record are functions of what completed. */
  lemma SameContents(cfgA: Config, cfgB: Config, a: World, b: World, jobsA: Jobs, jobsB: Jobs)
    requires cfgA.byID.Keys == cfgB.byID.Keys && forall id :: jobsA.sandboxed(id) == jobsB.sandboxed(id)
    requires a.s.completed == b.s.completed && NoDup(a.root) && NoDup(b.root)
    requires forall id :: id in a.root <==> id in a.s.completed && id in cfgA.byID && jobsA.sandboxed(id)
    requires forall id :: id in b.root <==> id in b.s.completed && id in cfgB.byID && jobsB.sandboxed(id)
    requires forall id :: id in a.durable <==> id in a.s.completed && id in cfgA.byID
    requires forall id :: id in b.durable <==> id in b.s.completed && id in cfgB.byID
    ensures a.durable == b.durable && AsSet(a.root) == AsSet(b.root) && |a.root| == |b.root|
  {
    assert forall id :: id in cfgA.byID <==> id in cfgB.byID;
    SizeOfSet(a.root);
    SizeOfSet(b.root);
  }

  /** The next step of the whole, given one of the scheduler alone: an open callback runs on, and a
      worker that is to succeed creates its sandbox first. */
  function Lifted(jobs: Jobs, w: World, step: Step): WorldStep {
    if !Idle(w.tx) then Cli(true)
    else if step.WorkerStep? && step.ok && jobs.sandboxed(step.id) && step.id !in w.baselines then Sandbox(step.id)
    else if step.EndStep? && w.tx.Some? && w.tx.value.stage.Closed? then Sched(EndStep(step.id, w.tx.value.stage.ok))
    else Sched(step)
  }

  lemma LiftedIsEnabled(cfg: Config, jobs: Jobs, w: World, step: Step)
    requires TxMatches(w.s.running, w.tx) && Enabled(cfg, w.s, step)
    requires step.WorkerStep? && step.ok ==> GatePasses(jobs.parse, jobs.transcript(step.id))
    ensures WorldEnabled(cfg, jobs, w, Lifted(jobs, w, step))
  {
    if step.EndStep? {
      assert w.tx.Some? && w.tx.value.id == step.id;
    }
  }

  /** The whole is never stuck either: until the scheduler has finished, some step can be taken. */
  lemma WorldProgress(cfg: Config, jobs: Jobs, steps: seq<WorldStep>) returns (step: WorldStep)
    requires ValidConfig(cfg) && IsWorldRun(cfg, jobs, steps)
    requires WorldExec(cfg, jobs, steps).s.pc != Finished
    ensures WorldEnabled(cfg, jobs, WorldExec(cfg, jobs, steps), step)
  {
    var w := WorldExec(cfg, jobs, steps);
    WorldRunKeeps(cfg, jobs, steps);
    var st := Progress(cfg, w.s);
    if st.WorkerStep? {
      st := WorkerStep(st.id, false);
    }
    LiftedIsEnabled(cfg, jobs, w, st);
    step := Lifted(jobs, w, st);
  }
}
