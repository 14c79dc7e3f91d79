/** What one scheduling pass does to the tasks it finds pending, told without the pass's own functions:
    which it blocks and why, how many it starts, and what it counts. */
module Passes {
  import opened Text
  import opened Claims
  import opened Leases
  import opened Machine
  import opened Invariants
  import opened SchedulerTheorems
  import opened Liveness

  // ---------- lists as sets ----------

  function AsSet(ids: seq<string>): set<string> {
    set x | x in ids
  }

  lemma SetOfLast(m: seq<string>, id: string)
    ensures AsSet(m + [id]) == AsSet(m) + {id}
  {
  }

  lemma {:induction false} SizeOfSet(ids: seq<string>)
    requires NoDup(ids)
    ensures |AsSet(ids)| == |ids|
  {
    if ids != [] {
      var p, x := ids[..|ids| - 1], ids[|ids| - 1];
      assert ids == p + [x];
      NoDupLast(p, x);
      SizeOfSet(p);
      SetOfLast(p, x);
    }
  }

  /** Two duplicate-free lists of the same ids are equally long. */
  lemma SameLength(a: seq<string>, b: seq<string>)
    requires NoDup(a) && NoDup(b) && forall x :: x in a <==> x in b
    ensures |a| == |b|
  {
    SizeOfSet(a);
    SizeOfSet(b);
    assert AsSet(a) == AsSet(b);
  }

  // ---------- how many tasks a pass starts ----------

  /** The rate at which attempts were deferred is at least 35 percent. */
  lemma RateMeans(deferrals: nat, checks: nat)
    requires checks > 0
    ensures ConflictRate(deferrals, checks) >= 0.35 <==> 20 * deferrals >= 7 * checks
  {
    var rate, d, c := ConflictRate(deferrals, checks), deferrals as real, checks as real;
    assert rate * c == d;
    if rate >= 0.35 {
      assert rate * c >= 0.35 * c;
    } else {
      assert rate * c < 0.35 * c;
    }
  }

  lemma LimitMeans(maxConcurrent: int, readyCount: nat, failures: nat, rate: real)
    ensures WorkerLimit(maxConcurrent, readyCount, failures, rate) ==
      Pressed(Min(Clamped(maxConcurrent), Max(1, readyCount)), failures >= 2, rate >= 0.35)
    ensures Requested(maxConcurrent) == Clamped(maxConcurrent)
  {
  }

  /** No task of `order` conflicts with another of them or with one that holds leases. */
  ghost predicate NoConflicts(cfg: Config, running: map<string, Phase>, order: seq<string>) {
    forall x, y :: x in order && x != y && (y in order || (y in running && !running[y].Settled?)) ==>
      Compatible(TaskClaims(cfg, x), TaskClaims(cfg, y))
  }

  lemma FirstIsLaunched(cfg: Config, s: State, order: seq<string>)
    requires LeaseInv(cfg, s.table, s.running) && NoConflicts(cfg, s.running, order) && order != []
    ensures Consider(cfg, s, order[0]) == Launch(cfg, s, order[0])
  {
    var id := order[0];
    if !CanAcquire(s.table, id, TaskClaims(cfg, id)) {
      var other := Conflicting(cfg, s.table, s.running, id);
      assert false;
    }
  }

  lemma RestHasNoConflicts(cfg: Config, running: map<string, Phase>, order: seq<string>)
    requires NoConflicts(cfg, running, order) && order != []
    requires NoDup(order) && forall x :: x in order ==> x !in running
    ensures var r := running[order[0] := Working];
      && NoConflicts(cfg, r, order[1..]) && NoDup(order[1..]) && (forall x :: x in order[1..] ==> x !in r)
      && |r| == |running| + 1
  {
    var id, rest := order[0], order[1..];
    var r := running[id := Working];
    assert id in order && id !in rest && forall x :: x in rest ==> x in order;
    assert r.Keys == running.Keys + {id};
    forall x, y | x in rest && x != y && (y in rest || (y in r && !r[y].Settled?))
      ensures Compatible(TaskClaims(cfg, x), TaskClaims(cfg, y))
    {
      assert y in order || (y in running && !running[y].Settled?);
    }
  }

  lemma LeasesOfLaunched(cfg: Config, s: State, id: string)
    requires LeaseInv(cfg, s.table, s.running) && id !in s.running && Consider(cfg, s, id) == Launch(cfg, s, id)
    ensures LeaseInv(cfg, Launch(cfg, s, id).table, Launch(cfg, s, id).running)
  {
    if CanAcquire(s.table, id, TaskClaims(cfg, id)) {
      LaunchLeases(cfg, s.table, s.running, id);
    }
  }

  /** Tasks that conflict with nothing are all started, up to the limit. */
  lemma {:induction false} AllAreLaunched(cfg: Config, s: State, limit: int, order: seq<string>)
    requires LeaseInv(cfg, s.table, s.running) && NoConflicts(cfg, s.running, order)
    requires NoDup(order) && forall x :: x in order ==> x !in s.running
    ensures |LaunchAll(cfg, s, limit, order).running| == Max(|s.running|, Min(limit, |s.running| + |order|))
    decreases |order|
  {
    if order != [] && |s.running| < limit {
      FirstIsLaunched(cfg, s, order);
      RestHasNoConflicts(cfg, s.running, order);
      LeasesOfLaunched(cfg, s, order[0]);
      AllAreLaunched(cfg, Consider(cfg, s, order[0]), limit, order[1..]);
    }
  }
  /** Pending, with every dependency completed. */
  ghost predicate CanStart(cfg: Config, s: State, id: string) {
    id in s.pending && forall d :: d in Deps(cfg, id) ==> d in s.completed
  }

  /** The blocking sweep spares what can start. */
  lemma {:induction false} SweepSpares(cfg: Config, s: State, ids: seq<string>, x: string)
    requires CanStart(cfg, s, x)
    requires forall d :: d in s.completed ==> d !in s.failed && d !in s.blocked && d !in ids
    ensures x in BlockPass(cfg, s, ids).pending
    decreases |ids|
  {
    if ids != [] {
      FindBadMeaning(s, Deps(cfg, ids[0]));
      MinusMeaning(s.pending, ids[0]);
      assert ids[0] in ids && forall d :: d in ids[1..] ==> d in ids;
      SweepSpares(cfg, BlockIfBad(cfg, s, ids[0]), ids[1..], x);
    }
  }

  /** The tasks a pass tries are exactly those that can start. */
  lemma OrderIsReady(cfg: Config, s: State, order: seq<string>)
    requires StepInv(cfg, s) && Enabled(cfg, s, PassStep(order))
    ensures NoDup(order) && forall x :: x in order <==> CanStart(cfg, s, x)
  {
    BeforeLaunchingKeeps(cfg, s, order);
    forall x | CanStart(cfg, s, x) ensures x in order {
      SweepSpares(cfg, s, s.pending, x);
    }
  }

  /** Those among `ids` conflict neither with each other nor with what is in progress. */
  ghost predicate Harmless(cfg: Config, s: State, ids: seq<string>) {
    forall x, y :: x in ids && x != y && (y in ids || InProgress(s, y)) ==>
      x in cfg.byID && y in cfg.byID && SafeTogether(cfg.byID[x], cfg.byID[y], cfg.surface)
  }

  lemma HarmlessIsNoConflict(cfg: Config, s: State, ids: seq<string>, order: seq<string>)
    requires Harmless(cfg, s, ids) && forall x :: x in order <==> x in ids
    ensures NoConflicts(cfg, s.running, order)
  {
    forall x, y | x in order && x != y && (y in order || (y in s.running && !s.running[y].Settled?))
      ensures Compatible(TaskClaims(cfg, x), TaskClaims(cfg, y))
    {
      assert x in cfg.byID && y in cfg.byID;
      CompatibleIffSafe(cfg.byID[x], cfg.byID[y], cfg.surface);
    }
  }

  /** What is there when a pass starts to launch. */
  lemma BeforeLaunchingFrame(cfg: Config, s: State, order: seq<string>)
    requires Enabled(cfg, s, PassStep(order))
    ensures var c := BeforeLaunching(cfg, s);
      && c.running == s.running && c.table == s.table && c.failed == s.failed && c.deferrals == s.deferrals
      && c.checks == s.checks + Max(1, |order|) && |Ready(cfg, AfterBlocking(cfg, s))| == |order|
  {
    BlockPassFrame(cfg, s, s.pending);
  }

  lemma OrderIsNotRunning(cfg: Config, s: State, order: seq<string>)
    requires StepInv(cfg, s) && Enabled(cfg, s, PassStep(order))
    ensures forall x :: x in order ==> x !in s.running
  {
    OrderIsReady(cfg, s, order);
  }

  lemma PassRunning(cfg: Config, s: State, order: seq<string>)
    ensures Pass(cfg, s, order).running == LaunchAll(cfg, BeforeLaunching(cfg, s), PassLimit(cfg, s), order).running
  {
    BlockAllKeepsRunning(AfterLaunching(cfg, s, order), NoRunnableTask);
  }

  lemma PassStarts(cfg: Config, s: State, order: seq<string>)
    requires Enabled(cfg, s, PassStep(order)) && LeaseInv(cfg, s.table, s.running)
    requires NoConflicts(cfg, s.running, order) && forall x :: x in order ==> x !in s.running
    ensures |Pass(cfg, s, order).running| == Max(|s.running|, Min(PassLimit(cfg, s), |s.running| + |order|))
  {
    BeforeLaunchingFrame(cfg, s, order);
    PassRunning(cfg, s, order);
    AllAreLaunched(cfg, BeforeLaunching(cfg, s), PassLimit(cfg, s), order);
  }

  lemma {:induction false} BlockAllKeepsRunning(s: State, reason: Reason)
    ensures BlockAll(s, reason).running == s.running && forall x :: x in BlockAll(s, reason).pending ==> x in s.pending
    decreases |s.pending|
  {
    if s.pending != [] {
      MinusMeaning(s.pending, s.pending[0]);
      MinusShorter(s.pending, s.pending[0]);
      BlockAllKeepsRunning(BlockOne(s, s.pending[0], reason), reason);
    }
  }

  /** The limit of a pass over `n` tasks that can start, in terms of what was found and counted. */
  function FullLimit(cfg: Config, s: State, n: nat): nat {
    var wanted := n + |s.running|;
    if wanted < 1 then 1 else if wanted < Clamped(cfg.maxConcurrent) then wanted else Clamped(cfg.maxConcurrent)
  }

  lemma PassLimitMeans(cfg: Config, s: State, order: seq<string>)
    requires Enabled(cfg, s, PassStep(order))
    ensures PassLimit(cfg, s) ==
      Pressed(FullLimit(cfg, s, |order|), |s.failed| >= 2, 20 * s.deferrals >= 7 * (s.checks + if order == [] then 1 else |order|))
  {
    BeforeLaunchingFrame(cfg, s, order);
    var c := BeforeLaunching(cfg, s);
    LimitMeans(cfg.maxConcurrent, |order| + |s.running|, |s.failed|, ConflictRate(c.deferrals, c.checks));
    RateMeans(c.deferrals, c.checks);
  }

  lemma PassFills(cfg: Config, s: State, order: seq<string>, ids: seq<string>)
    requires ValidConfig(cfg) && StepInv(cfg, s) && Enabled(cfg, s, PassStep(order))
    requires NoDup(ids) && (forall x :: x in ids <==> CanStart(cfg, s, x)) && Harmless(cfg, s, ids)
    ensures |order| == |ids|
    ensures |Pass(cfg, s, order).running| == Max(|s.running|, Min(PassLimit(cfg, s), |s.running| + |order|))
  {
    OrderIsReady(cfg, s, order);
    SameLength(order, ids);
    HarmlessIsNoConflict(cfg, s, ids, order);
    OrderIsNotRunning(cfg, s, order);
    PassStarts(cfg, s, order);
  }

  /** How many tasks a pass leaves running: as many as there are, up to the limit, which the failures so
      far and a high share of deferred attempts each halve. No running task is ever stopped. */
  ghost predicate FillsTheLimit(cfg: Config, s: State, order: seq<string>, n: nat) {
    var checks := s.checks + if n == 0 then 1 else n;
    var limit := Pressed(FullLimit(cfg, s, n), |s.failed| >= 2, 20 * s.deferrals >= 7 * checks);
    |Pass(cfg, s, order).running| == Max(|s.running|, Min(limit, |s.running| + n))
  }

  lemma PassFillsLimit(cfg: Config, s: State, order: seq<string>, ids: seq<string>)
    requires ValidConfig(cfg) && StepInv(cfg, s) && Enabled(cfg, s, PassStep(order))
    requires NoDup(ids) && (forall x :: x in ids <==> CanStart(cfg, s, x)) && Harmless(cfg, s, ids)
    ensures FillsTheLimit(cfg, s, order, |ids|)
  {
    PassFills(cfg, s, order, ids);
    PassLimitMeans(cfg, s, order);
  }

  /** So it is in any pass of any run in which the tasks that can start conflict with nothing. */
  lemma PassFillsTheLimit(cfg: Config, steps: seq<Step>, order: seq<string>, ids: seq<string>)
    requires ValidConfig(cfg) && IsRun(cfg, steps) && Enabled(cfg, Exec(cfg, steps), PassStep(order))
    requires NoDup(ids) && forall x :: x in ids <==> CanStart(cfg, Exec(cfg, steps), x)
    requires Harmless(cfg, Exec(cfg, steps), ids)
    ensures FillsTheLimit(cfg, Exec(cfg, steps), order, |ids|)
  {
    var s := StateOf(cfg, steps);
    PassFillsLimit(cfg, s, order, ids);
  }

  lemma StateOf(cfg: Config, steps: seq<Step>) returns (s: State)
    requires ValidConfig(cfg) && IsRun(cfg, steps)
    ensures s == Exec(cfg, steps) && StepInv(cfg, s) && |s.running| <= Clamped(cfg.maxConcurrent)
  {
    s := Exec(cfg, steps);
    RunKeeps(cfg, steps);
    ConcurrencyBound(cfg, steps);
  }

  /** Without failures and without a deferral so far, all of them run, up to the most that may. */
  ghost predicate RunsAtFullSpeed(cfg: Config, s: State, order: seq<string>, n: nat) {
    var most := Clamped(cfg.maxConcurrent);
    |Pass(cfg, s, order).running| == if |s.running| + n < most then |s.running| + n else most
  }

  lemma FullSpeed(cfg: Config, s: State, order: seq<string>, n: nat)
    requires FillsTheLimit(cfg, s, order, n) && s.failed == {} && s.deferrals == 0
    requires |s.running| <= Clamped(cfg.maxConcurrent)
    ensures RunsAtFullSpeed(cfg, s, order, n)
  {
  }

  lemma PassRunsAtFullSpeed(cfg: Config, steps: seq<Step>, order: seq<string>, ids: seq<string>)
    requires ValidConfig(cfg) && IsRun(cfg, steps) && Enabled(cfg, Exec(cfg, steps), PassStep(order))
    requires NoDup(ids) && forall x :: x in ids <==> CanStart(cfg, Exec(cfg, steps), x)
    requires Harmless(cfg, Exec(cfg, steps), ids)
    requires Exec(cfg, steps).failed == {} && Exec(cfg, steps).deferrals == 0
    ensures RunsAtFullSpeed(cfg, Exec(cfg, steps), order, |ids|)
  {
    var s := StateOf(cfg, steps);
    PassFillsLimit(cfg, s, order, ids);
    FullSpeed(cfg, s, order, |ids|);
  }
  // ---------- what it counts ----------

  /** The first `k` of the tasks that can start were tried: each was started or counted as deferred, and
      the others are left only because the limit was reached. */
  lemma {:induction false} TriedAreCounted(cfg: Config, s: State, limit: int, order: seq<string>) returns (k: nat)
    requires NoDup(order) && forall x :: x in order ==> x in s.pending && x !in s.running
    ensures var t := LaunchAll(cfg, s, limit, order);
      && k <= |order| && |t.running| + t.deferrals == |s.running| + s.deferrals + k
      && (k < |order| ==> |t.running| >= limit) && forall x :: x in order[k..] ==> x in t.pending
    decreases |order|
  {
    k := 0;
    if order != [] && |s.running| < limit {
      var t := Consider(cfg, s, order[0]);
      ConsiderCounts(cfg, s, order);
      k := TriedAreCounted(cfg, t, limit, order[1..]);
      k := k + 1;
      assert order[1..][k - 1..] == order[k..];
    }
  }

  lemma ConsiderCounts(cfg: Config, s: State, order: seq<string>)
    requires order != [] && NoDup(order) && forall x :: x in order ==> x in s.pending && x !in s.running
    ensures var t := Consider(cfg, s, order[0]);
      && |t.running| + t.deferrals == |s.running| + s.deferrals + 1
      && NoDup(order[1..]) && forall x :: x in order[1..] ==> x in t.pending && x !in t.running
  {
    ConsiderOne(cfg, s, order[0]);
    assert forall x :: x in order[1..] ==> x in order && x != order[0];
  }

  lemma ConsiderOne(cfg: Config, s: State, id: string)
    requires id in s.pending && id !in s.running
    ensures var t := Consider(cfg, s, id);
      && |t.running| + t.deferrals == |s.running| + s.deferrals + 1
      && (forall x :: x in s.pending && x != id ==> x in t.pending) && (forall x :: x in t.running ==> x in s.running || x == id)
  {
    MinusMeaning(s.pending, id);
    assert s.running[id := Working].Keys == s.running.Keys + {id};
  }

  /** What the conflict rate is made of: a pass counts one check for each task that can start, at least
      one, and one deferral for each it tried and did not start. */
  lemma PassCounts(cfg: Config, s: State, order: seq<string>) returns (tried: nat)
    requires StepInv(cfg, s) && Enabled(cfg, s, PassStep(order))
    ensures var t := Pass(cfg, s, order);
      && t.checks == s.checks + (if order == [] then 1 else |order|)
      && tried <= |order| && t.deferrals - s.deferrals == tried - (|t.running| - |s.running|)
      && (tried < |order| ==> |t.running| >= PassLimit(cfg, s))
  {
    var c := BeforeLaunching(cfg, s);
    BeforeLaunchingKeeps(cfg, s, order);
    BeforeLaunchingFrame(cfg, s, order);
    OrderIsNotRunning(cfg, s, order);
    tried := TriedAreCounted(cfg, c, PassLimit(cfg, s), order);
    PassFrame(cfg, s, order);
  }

  lemma PassFrame(cfg: Config, s: State, order: seq<string>)
    ensures var l, t := LaunchAll(cfg, BeforeLaunching(cfg, s), PassLimit(cfg, s), order), Pass(cfg, s, order);
      && t.running == l.running && t.deferrals == l.deferrals && t.checks == BeforeLaunching(cfg, s).checks
      && t.failed == s.failed
  {
    BlockPassFrame(cfg, s, s.pending);
    LaunchAllGrows(cfg, BeforeLaunching(cfg, s), PassLimit(cfg, s), order);
    BlockAllFrame(AfterLaunching(cfg, s, order), NoRunnableTask);
  }

  lemma {:induction false} BlockAllFrame(s: State, reason: Reason)
    ensures var t := BlockAll(s, reason); t == s.(pending := t.pending, blocked := t.blocked, log := t.log)
    decreases |s.pending|
  {
    if s.pending != [] {
      MinusShorter(s.pending, s.pending[0]);
      BlockAllFrame(BlockOne(s, s.pending[0], reason), reason);
    }
  }

  // ---------- which tasks it blocks, and why ----------

  lemma {:induction false} SweepSplits(cfg: Config, s: State, a: seq<string>, b: seq<string>)
    ensures BlockPass(cfg, s, a + b) == BlockPass(cfg, BlockPass(cfg, s, a), b)
    decreases |a|
  {
    if a == [] {
      assert a + b == b;
    } else {
      assert (a + b)[0] == a[0] && (a + b)[1..] == a[1..] + b;
      SweepSplits(cfg, BlockIfBad(cfg, s, a[0]), a[1..], b);
    }
  }

  lemma {:induction false} SweepTouches(cfg: Config, s: State, ids: seq<string>, x: string)
    requires x !in ids
    ensures var t := BlockPass(cfg, s, ids);
      (x in t.blocked <==> x in s.blocked) && (x in s.blocked ==> t.blocked[x] == s.blocked[x])
    decreases |ids|
  {
    if ids != [] {
      SweepTouches(cfg, BlockIfBad(cfg, s, ids[0]), ids[1..], x);
    }
  }

  /** The first dependency that has failed or is blocked is the one found. */
  lemma {:induction false} FirstBad(s: State, deps: seq<string>) returns (k: nat)
    ensures k <= |deps| && forall m :: 0 <= m < k ==> deps[m] !in s.failed && deps[m] !in s.blocked
    ensures if k < |deps| then FindBad(s, deps) == Dep(deps[k]) && (deps[k] in s.failed || deps[k] in s.blocked)
            else FindBad(s, deps) == Nothing
  {
    k := 0;
    if deps != [] && deps[0] !in s.failed && deps[0] !in s.blocked {
      k := FirstBad(s, deps[1..]);
      k := k + 1;
    }
  }

  /** `d` failed or was blocked before the pass, or was listed before the `i`-th pending task and is
      blocked after the sweep. */
  ghost predicate Bad(s: State, after: map<string, Reason>, i: nat, d: string) {
    d in s.failed || d in s.blocked || (d in after && exists j :: 0 <= j < i && j < |s.pending| && s.pending[j] == d)
  }

  /** `id` is blocked because of the first of its dependencies that is bad. */
  ghost predicate BlamesFirstBad(cfg: Config, s: State, after: map<string, Reason>, i: nat, id: string) {
    exists k :: 0 <= k < |Deps(cfg, id)| && BlamesAt(cfg, s, after, i, id, k)
  }

  ghost predicate BlamesAt(cfg: Config, s: State, after: map<string, Reason>, i: nat, id: string, k: nat)
    requires k < |Deps(cfg, id)|
  {
    && id in after && after[id] == Dependency(Deps(cfg, id)[k]) && Bad(s, after, i, Deps(cfg, id)[k])
    && forall m :: 0 <= m < k ==> !Bad(s, after, i, Deps(cfg, id)[m])
  }

  lemma PartsShareNothing(a: seq<string>, b: seq<string>)
    requires NoDup(a + b)
    ensures forall x :: x in a ==> x !in b
  {
    forall i, j | 0 <= i < |a| && 0 <= j < |b| ensures a[i] != b[j] {
      assert (a + b)[i] == a[i] && (a + b)[|a| + j] == b[j];
    }
  }

  lemma BadThen(cfg: Config, s: State, a: seq<string>, rest: seq<string>, d: string)
    requires s.pending == a + rest && NoDup(s.pending) && forall x :: x in s.pending ==> x !in s.blocked
    ensures var u, b := BlockPass(cfg, s, a), AfterBlocking(cfg, s);
      Bad(s, b.blocked, |a|, d) <==> d in u.failed || d in u.blocked
  {
    var u := BlockPass(cfg, s, a);
    SweepSplits(cfg, s, a, rest);
    BlockPassFrame(cfg, s, a);
    if d in a {
      var j :| 0 <= j < |a| && a[j] == d;
      assert s.pending[j] == d;
      PartsShareNothing(a, rest);
      SweepTouches(cfg, u, rest, d);
    } else {
      SweepTouches(cfg, s, a, d);
      assert forall j :: 0 <= j < |a| ==> s.pending[j] in a;
    }
  }

  /** One sweep in the order of the pending tasks: the `i`-th is blocked exactly when one of its
      dependencies has failed, was blocked already, or stands before it and is blocked by the same sweep;
      and then the first such dependency is recorded. */
  lemma SweepBlocks(cfg: Config, s: State, i: nat)
    requires NoDup(s.pending) && (forall x :: x in s.pending ==> x !in s.blocked) && i < |s.pending|
    ensures var id, after := s.pending[i], AfterBlocking(cfg, s).blocked;
      && (id in after <==> exists d :: d in Deps(cfg, id) && Bad(s, after, i, d))
      && (id in after ==> BlamesFirstBad(cfg, s, after, i, id))
  {
    var id, a, rest := s.pending[i], s.pending[..i], s.pending[i + 1..];
    var after := AfterBlocking(cfg, s).blocked;
    var u := BlockPass(cfg, s, a);
    assert s.pending == a + ([id] + rest);
    forall d ensures Bad(s, after, i, d) <==> d in u.failed || d in u.blocked {
      BadThen(cfg, s, a, [id] + rest, d);
    }
    var k := FirstBad(u, Deps(cfg, id));
    SweepTurn(cfg, s, a, id, rest);
    if k < |Deps(cfg, id)| {
      assert Bad(s, after, i, Deps(cfg, id)[k]);
      assert BlamesAt(cfg, s, after, i, id, k);
    }
  }

  lemma SweepTurn(cfg: Config, s: State, a: seq<string>, id: string, rest: seq<string>)
    requires s.pending == a + ([id] + rest) && NoDup(s.pending) && id !in s.blocked
    ensures var found, after := FindBad(BlockPass(cfg, s, a), Deps(cfg, id)), AfterBlocking(cfg, s).blocked;
      && (id in after <==> found.Dep?) && (found.Dep? ==> after[id] == Dependency(found.dep))
  {
    var u := BlockPass(cfg, s, a);
    assert ([id] + rest)[0] == id;
    PartsShareNothing(a, [id] + rest);
    assert s.pending == (a + [id]) + rest && (a + [id])[|a|] == id;
    PartsShareNothing(a + [id], rest);
    SweepSplits(cfg, s, a, [id] + rest);
    SweepTouches(cfg, s, a, id);
    assert ([id] + rest)[1..] == rest;
    SweepTouches(cfg, BlockIfBad(cfg, u, id), rest, id);
  }
  // ---------- the reasons recorded ----------

  /** A pass blocks every pending task with a failed dependency because of a dependency. */
  lemma FailedDependencyIsNamed(cfg: Config, s: State, order: seq<string>, id: string, d: string)
    requires ValidConfig(cfg) && StepInv(cfg, s) && Enabled(cfg, s, PassStep(order))
    requires id in s.pending && d in Deps(cfg, id) && d in s.failed
    ensures var t := Pass(cfg, s, order); id in t.blocked && t.blocked[id].Dependency?
  {
    SweptForFailure(cfg, s, id, d);
    AfterLaunchingKeeps(cfg, s, order);
    BlockAllSpares(AfterLaunching(cfg, s, order), NoRunnableTask, id);
  }

  lemma SweptForFailure(cfg: Config, s: State, id: string, d: string)
    requires NoDup(s.pending) && forall x :: x in s.pending ==> x !in s.blocked
    requires id in s.pending && d in Deps(cfg, id) && d in s.failed
    ensures id in AfterBlocking(cfg, s).blocked && AfterBlocking(cfg, s).blocked[id].Dependency?
  {
    var i :| 0 <= i < |s.pending| && s.pending[i] == id;
    SweepBlocks(cfg, s, i);
    assert Bad(s, AfterBlocking(cfg, s).blocked, i, d);
  }

  lemma {:induction false} BlockAllSpares(s: State, reason: Reason, id: string)
    requires id in s.blocked && id !in s.pending
    ensures id in BlockAll(s, reason).blocked && BlockAll(s, reason).blocked[id] == s.blocked[id]
    decreases |s.pending|
  {
    if s.pending != [] {
      MinusMeaning(s.pending, s.pending[0]);
      MinusShorter(s.pending, s.pending[0]);
      BlockAllSpares(BlockOne(s, s.pending[0], reason), reason, id);
    }
  }

  /** A stalled task waits for nothing that failed. */
  ghost predicate StallsAreClean(cfg: Config, failed: set<string>, blocked: map<string, Reason>) {
    forall id, d :: id in blocked && blocked[id] == NoRunnableTask && d in Deps(cfg, id) ==> d !in failed
  }

  lemma PassStallsClean(cfg: Config, s: State, order: seq<string>)
    requires ValidConfig(cfg) && StepInv(cfg, s) && Enabled(cfg, s, PassStep(order))
    ensures StallsAreClean(cfg, s.failed, Pass(cfg, s, order).blocked)
  {
    var t := Pass(cfg, s, order);
    forall id, d | id in t.blocked && t.blocked[id] == NoRunnableTask && d in Deps(cfg, id) ensures d !in s.failed {
      BlockedWasPending(cfg, s, order, id);
      if d in s.failed {
        FailedDependencyIsNamed(cfg, s, order, id, d);
      }
    }
  }

  lemma BlockedWasPending(cfg: Config, s: State, order: seq<string>, id: string)
    requires ValidConfig(cfg) && StepInv(cfg, s) && Enabled(cfg, s, PassStep(order))
    requires id in Pass(cfg, s, order).blocked && Pass(cfg, s, order).blocked[id] == NoRunnableTask
    ensures id in s.pending
  {
    AfterLaunchingKeeps(cfg, s, order);
    BeforeLaunchingKeeps(cfg, s, order);
    BlockAllAdds(AfterLaunching(cfg, s, order), NoRunnableTask, id);
  }

  lemma {:induction false} BlockAllAdds(s: State, reason: Reason, id: string)
    ensures var t := BlockAll(s, reason); id in t.blocked ==> id in s.pending || (id in s.blocked && t.blocked[id] == s.blocked[id])
    decreases |s.pending|
  {
    if s.pending != [] {
      MinusMeaning(s.pending, s.pending[0]);
      MinusShorter(s.pending, s.pending[0]);
      BlockAllAdds(BlockOne(s, s.pending[0], reason), reason, id);
    }
  }
  lemma {:induction false} RunStallsClean(cfg: Config, steps: seq<Step>)
    requires ValidConfig(cfg) && IsRun(cfg, steps)
    ensures StallsAreClean(cfg, Exec(cfg, steps).failed, Exec(cfg, steps).blocked)
  {
    if steps != [] {
      var s := StateOf(cfg, steps[..|steps| - 1]);
      var t := StateOf(cfg, steps);
      StepStallsClean(cfg, s, steps[|steps| - 1], t);
    }
  }

  lemma StepStallsClean(cfg: Config, s: State, step: Step, t: State)
    requires ValidConfig(cfg) && StepInv(cfg, s) && Enabled(cfg, s, step) && t == Apply(cfg, s, step) && StepInv(cfg, t)
    ensures StallsAreClean(cfg, t.failed, t.blocked)
  {
    if step.PassStep? {
      PassStallsClean(cfg, s, step.order);
      PassFrame(cfg, s, step.order);
    } else if step.ExitStep? {
      assert NoStall(t.blocked);
    } else {
      StepGoesOn(cfg, s, step);
    }
  }

  lemma StepGoesOn(cfg: Config, s: State, step: Step)
    requires Enabled(cfg, s, step) && !step.PassStep? && !step.ExitStep?
    ensures Apply(cfg, s, step).pc != Finished
  {
    if step.SettleStep? {
      var t := s.(pc := Top, running := s.running - {step.id}, failed := s.failed + {step.id}, log := s.log + [Failed(step.id)]);
      BlockAllFrame(t, FailFast(step.id));
    }
  }

  /** The reason recorded for a blocked task is right, in every run: a named dependency is one of its own
      and has failed or is blocked, a named cause of fail-fast has failed, and a task recorded as stalled
      waits for something that has not completed, but for nothing that failed. */
  lemma ReasonsAreRight(cfg: Config, steps: seq<Step>, id: string)
    requires ValidConfig(cfg) && IsRun(cfg, steps) && id in Exec(cfg, steps).blocked
    ensures var s := Exec(cfg, steps);
      match s.blocked[id]
      case Dependency(d) => d in Deps(cfg, id) && (d in s.failed || d in s.blocked)
      case FailFast(c) => cfg.failFast && c in s.failed
      case NoRunnableTask =>
        (exists d :: d in Deps(cfg, id) && d !in s.completed) && forall d :: d in Deps(cfg, id) ==> d !in s.failed
  {
    var s := StateOf(cfg, steps);
    RunStallsClean(cfg, steps);
    BlameOf(cfg, s, id);
  }

  lemma BlameOf(cfg: Config, s: State, id: string)
    requires StepInv(cfg, s) && id in s.blocked
    ensures Blamed(cfg, s.running.Keys, s.completed, s.failed, s.blocked, id, s.blocked[id])
  {
  }

  /** In a pass that stalls, exactly those tasks are recorded as stalled that the sweep did not block. So
      a task behind a failure is, when it was listed before the dependency blocked by the same sweep. */
  lemma StalledIff(cfg: Config, s: State, order: seq<string>, i: nat)
    requires ValidConfig(cfg) && StepInv(cfg, s) && Enabled(cfg, s, PassStep(order)) && i < |s.pending|
    requires Pass(cfg, s, order).running == map[]
    ensures var id := s.pending[i]; var t := Pass(cfg, s, order);
      && id in t.blocked
      && (t.blocked[id] == NoRunnableTask <==>
            forall d :: d in Deps(cfg, id) ==> !Bad(s, AfterBlocking(cfg, s).blocked, i, d))
  {
    var id := s.pending[i];
    SweepBlocks(cfg, s, i);
    BlockedAtStall(cfg, s, order, id);
    StalledUnlessSwept(cfg, s, order, id);
  }

  /** The state the stall finds. */
  lemma StallFinds(cfg: Config, s: State, order: seq<string>) returns (l: State)
    requires ValidConfig(cfg) && StepInv(cfg, s) && Enabled(cfg, s, PassStep(order))
    requires Pass(cfg, s, order).running == map[]
    ensures Pass(cfg, s, order).blocked == BlockAll(l, NoRunnableTask).blocked
    ensures l.blocked == AfterBlocking(cfg, s).blocked && NoStall(l.blocked) && forall x :: x in l.pending ==> x !in l.blocked
  {
    l := AfterLaunching(cfg, s, order);
    PassRunning(cfg, s, order);
    AfterLaunchingKeeps(cfg, s, order);
  }

  lemma BlockedAtStall(cfg: Config, s: State, order: seq<string>, id: string)
    requires ValidConfig(cfg) && StepInv(cfg, s) && Enabled(cfg, s, PassStep(order)) && id in s.pending
    requires Pass(cfg, s, order).running == map[]
    ensures id in Pass(cfg, s, order).blocked
  {
    PassKeeps(cfg, s, order);
    PassFinds(cfg, s, order);
    InOnePlace(cfg, s, id);
    InOnePlace(cfg, Pass(cfg, s, order), id);
  }

  lemma PassFinds(cfg: Config, s: State, order: seq<string>)
    requires ValidConfig(cfg) && StepInv(cfg, s) && Enabled(cfg, s, PassStep(order))
    ensures Pass(cfg, s, order).completed == s.completed && Pass(cfg, s, order).failed == s.failed
    ensures Pass(cfg, s, order).running == map[] ==> Pass(cfg, s, order).pending == []
  {
    AfterLaunchingKeeps(cfg, s, order);
    BeforeLaunchingKeeps(cfg, s, order);
    BlockAllFrame(AfterLaunching(cfg, s, order), NoRunnableTask);
    PassKeeps(cfg, s, order);
    PassRunning(cfg, s, order);
  }

  lemma InOnePlace(cfg: Config, s: State, id: string)
    requires StepInv(cfg, s)
    ensures id in s.pending ==> id in cfg.byID && id !in s.completed && id !in s.failed
    ensures id in cfg.byID ==> id in s.pending || id in s.running || id in s.completed || id in s.failed || id in s.blocked
  {
  }

  lemma StalledUnlessSwept(cfg: Config, s: State, order: seq<string>, id: string)
    requires ValidConfig(cfg) && StepInv(cfg, s) && Enabled(cfg, s, PassStep(order))
    requires Pass(cfg, s, order).running == map[] && id in Pass(cfg, s, order).blocked
    ensures Pass(cfg, s, order).blocked[id] == NoRunnableTask <==> id !in AfterBlocking(cfg, s).blocked
  {
    var l := StallFinds(cfg, s, order);
    if id in l.blocked {
      BlockAllSpares(l, NoRunnableTask, id);
    } else {
      StalledStays(l, NoRunnableTask, id);
    }
  }

  lemma {:induction false} StalledStays(s: State, reason: Reason, id: string)
    requires id !in s.blocked
    ensures var t := BlockAll(s, reason); id in t.blocked ==> t.blocked[id] == reason
    decreases |s.pending|
  {
    if s.pending != [] {
      var x := s.pending[0];
      MinusMeaning(s.pending, x);
      MinusShorter(s.pending, x);
      if x == id {
        BlockAllSpares(BlockOne(s, x, reason), reason, id);
      } else {
        StalledStays(BlockOne(s, x, reason), reason, id);
      }
    }
  }
  // ---------- a task behind a failure that is recorded as stalled ----------

  /** Three tasks, each depending on the next one listed. */
  ghost predicate ListedBackwards(cfg: Config, a: string, b: string, c: string) {
    && ValidConfig(cfg) && cfg.done0 == {} && !cfg.failFast
    && cfg.order == [a, b, c] && Deps(cfg, a) == [b] && Deps(cfg, b) == [c] && Deps(cfg, c) == []
  }

  lemma {:induction false} SweepIdle(cfg: Config, s: State, ids: seq<string>)
    requires s.failed == {} && s.blocked == map[]
    ensures BlockPass(cfg, s, ids) == s
    decreases |ids|
  {
    if ids != [] {
      FindBadMeaning(s, Deps(cfg, ids[0]));
      SweepIdle(cfg, s, ids[1..]);
    }
  }

  /** A pass over a list of all that can start is enabled. */
  lemma PassIsEnabled(cfg: Config, s: State, order: seq<string>)
    requires StepInv(cfg, s) && s.pc == Top && s.pending != []
    requires NoDup(order) && forall x :: x in order <==> CanStart(cfg, s, x)
    ensures Enabled(cfg, s, PassStep(order))
  {
    var b := AfterBlocking(cfg, s);
    var ready := Ready(cfg, b);
    BlockPassKeeps(cfg, s);
    ReadyMeaning(cfg, b.completed, b.pending);
    forall x | CanStart(cfg, s, x) ensures x in ready {
      SweepSpares(cfg, s, s.pending, x);
    }
    SameLength(order, ready);
  }

  lemma LaunchSingle(cfg: Config, s: State, limit: int, id: string)
    requires s.table == EMPTY_TABLE && s.running == map[] && limit >= 1
    ensures LaunchAll(cfg, s, limit, [id]) == Launch(cfg, s, id)
  {
    assert CanAcquire(s.table, id, TaskClaims(cfg, id));
    assert [id][1..] == [];
  }

  /** A pass that finds a single task to start and nothing running. */
  lemma PassStartsOne(cfg: Config, s: State, id: string)
    requires Enabled(cfg, s, PassStep([id])) && s.running == map[] && s.table == EMPTY_TABLE
    requires s.failed == {} && s.blocked == map[]
    ensures var t := Pass(cfg, s, [id]);
      && t.pc == Waiting && t.running == map[id := Working] && t.pending == Minus(s.pending, id)
      && t.completed == s.completed && t.failed == {} && t.blocked == map[]
  {
    SweepIdle(cfg, s, s.pending);
    LimitOfPass(cfg, s);
    LaunchSingle(cfg, BeforeLaunching(cfg, s), PassLimit(cfg, s), id);
    assert Launch(cfg, BeforeLaunching(cfg, s), id).running == map[id := Working];
    assert id in Launch(cfg, BeforeLaunching(cfg, s), id).running;
  }

  lemma MinusThird(a: string, b: string, c: string)
    requires a != c && b != c
    ensures Minus([a, b, c], c) == [a, b]
  {
    assert [a, b, c][..2] == [a, b];
    MinusMeaning([a, b], c);
  }

  lemma ThreeStarts(cfg: Config, a: string, b: string, c: string)
    requires ListedBackwards(cfg, a, b, c)
    ensures var s := Init(cfg);
      StepInv(cfg, s) && Enabled(cfg, s, PassStep([c])) && a != b && a != c && b != c
  {
    var s := Init(cfg);
    InitInv(cfg);
    assert cfg.order[0] == a && cfg.order[1] == b && cfg.order[2] == c;
    forall x ensures x in [c] <==> CanStart(cfg, s, x) {
      assert x in s.pending <==> x == a || x == b || x == c;
      assert b in Deps(cfg, a) && c in Deps(cfg, b);
    }
    PassIsEnabled(cfg, s, [c]);
  }

  lemma ThreeRun(cfg: Config, a: string, b: string, c: string) returns (steps: seq<Step>, s: State)
    requires ListedBackwards(cfg, a, b, c)
    ensures IsRun(cfg, steps) && s == Exec(cfg, steps) && s.pc == Waiting && s.pending == [a, b]
    ensures s.running == map[c := Working] && s.completed == {} && s.failed == {} && s.blocked == map[]
  {
    ThreeStarts(cfg, a, b, c);
    PassStartsOne(cfg, Init(cfg), c);
    MinusThird(a, b, c);
    RunExtends(cfg, [], PassStep([c]));
    steps := [] + [PassStep([c])];
    s := Exec(cfg, steps);
  }

  /** After the only task that can start has failed. */
  lemma ThreeFail(cfg: Config, a: string, b: string, c: string) returns (steps: seq<Step>, s: State)
    requires ListedBackwards(cfg, a, b, c)
    ensures IsRun(cfg, steps) && s == Exec(cfg, steps) && s.pc == Top && s.pending == [a, b] && s.running == map[]
    ensures s.completed == {} && s.failed == {c} && s.blocked == map[]
  {
    steps, s := ThreeRun(cfg, a, b, c);
    RunExtends(cfg, steps, WorkerStep(c, false));
    RunExtends(cfg, steps + [WorkerStep(c, false)], SettleStep(c));
    steps := steps + [WorkerStep(c, false)] + [SettleStep(c)];
    s := Exec(cfg, steps);
  }

  ghost predicate ThreeFailed(cfg: Config, a: string, b: string, c: string, s: State) {
    && ListedBackwards(cfg, a, b, c) && StepInv(cfg, s) && s.pc == Top && s.pending == [a, b] && s.running == map[]
    && s.completed == {} && s.failed == {c} && s.blocked == map[]
  }

  lemma ThreeStall(cfg: Config, a: string, b: string, c: string, s: State)
    requires ThreeFailed(cfg, a, b, c, s)
    ensures Enabled(cfg, s, PassStep([])) && Pass(cfg, s, []).running == map[]
  {
    forall x ensures !CanStart(cfg, s, x) {
      assert x in s.pending ==> x == a || x == b;
      assert b in Deps(cfg, a) && c in Deps(cfg, b);
    }
    PassIsEnabled(cfg, s, []);
    PassRunning(cfg, s, []);
    BlockPassFrame(cfg, s, s.pending);
  }

  lemma ThreeBlocked(cfg: Config, a: string, b: string, c: string, s: State)
    requires ThreeFailed(cfg, a, b, c, s)
    requires Enabled(cfg, s, PassStep([])) && Pass(cfg, s, []).running == map[]
    ensures var t := Pass(cfg, s, []);
      a in t.blocked && t.blocked[a] == NoRunnableTask && b in t.blocked && t.blocked[b].Dependency?
  {
    StalledIff(cfg, s, [], 0);
    assert a != c && b != c by {
      assert cfg.order[0] == a && cfg.order[1] == b && cfg.order[2] == c;
    }
    FailedDependencyIsNamed(cfg, s, [], b, c);
  }

  /** So listed, the first task is behind the failure of the last and yet recorded as stalled. */
  lemma BehindFailureButStalled(cfg: Config, a: string, b: string, c: string) returns (steps: seq<Step>)
    requires ListedBackwards(cfg, a, b, c)
    ensures IsRun(cfg, steps)
    ensures var s := Exec(cfg, steps);
      && c in s.failed && b in s.blocked && s.blocked[b] == Dependency(c) && b in Deps(cfg, a)
      && a in s.blocked && s.blocked[a] == NoRunnableTask
  {
    var s;
    steps, s := ThreeFail(cfg, a, b, c);
    RunKeeps(cfg, steps);
    ThreeStall(cfg, a, b, c, s);
    ThreeBlocked(cfg, a, b, c, s);
    PassFrame(cfg, s, []);
    RunExtends(cfg, steps, PassStep([]));
    steps := steps + [PassStep([])];
    ReasonsAreRight(cfg, steps, b);
  }
}
