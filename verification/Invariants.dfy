/** What every step of the scheduler keeps. */
module Invariants {
  import opened Claims
  import opened Leases
  import opened Machine
  import opened History

  /** Each task is in exactly one place: pending, running (`live`), completed, failed or blocked. */
  ghost predicate Partition(cfg: Config, pending: seq<string>, live: set<string>, completed: set<string>,
                            failed: set<string>, blocked: set<string>)
  {
    && NoDup(pending)
    && cfg.done0 <= completed
    && (forall id :: id in pending ==>
         id in cfg.byID && id !in live && id !in completed && id !in failed && id !in blocked)
    && (forall id :: id in live ==> id in cfg.byID && id !in completed && id !in failed && id !in blocked)
    && (forall id :: id in completed ==> (id in cfg.byID || id in cfg.done0) && id !in failed && id !in blocked)
    && (forall id :: id in failed ==> id in cfg.byID && id !in blocked)
    && (forall id :: id in blocked ==> id in cfg.byID)
    && (forall id :: id in cfg.byID ==>
         id in pending || id in live || id in completed || id in failed || id in blocked)
  }

  predicate InQueue(phase: Phase) {
    phase.Queued? || phase.Integrating?
  }

  /** The integration queue holds exactly the queued and integrating tasks; only its head integrates. */
  ghost predicate QueueInv(queue: seq<string>, running: map<string, Phase>) {
    && NoDup(queue)
    && (forall id :: id in queue <==> id in running && InQueue(running[id]))
    && (forall id :: id in running && running[id].Integrating? ==> queue != [] && queue[0] == id)
  }

  /** A task holds a lease exactly while its promise is unsettled, and then it holds all its claims. */
  ghost predicate LeaseInv(cfg: Config, table: Table, running: map<string, Phase>) {
    && Owned(table)
    && (forall id :: id in table.byOwner <==> id in running && !running[id].Settled?)
    && (forall id :: id in table.byOwner ==> table.byOwner[id] == TaskClaims(cfg, id))
  }

  /** Whatever has started has only completed dependencies. */
  ghost predicate DepInv(cfg: Config, live: set<string>, completed: set<string>, failed: set<string>) {
    forall id :: id in live || id in failed || (id in completed && id in cfg.byID) ==> DepsDone(cfg, completed, id)
  }

  /** Why a task may be recorded as blocked. A stall is final, so there the blame is on a
      dependency that will never complete. */
  ghost predicate Blamed(cfg: Config, live: set<string>, completed: set<string>, failed: set<string>,
                         blocked: map<string, Reason>, id: string, reason: Reason)
  {
    match reason
    case Dependency(d) => d in Deps(cfg, id) && (d in failed || d in blocked)
    case FailFast(c) => cfg.failFast && c in failed
    case NoRunnableTask => live == {} && !DepsDone(cfg, completed, id)
  }

  ghost predicate BlockInv(cfg: Config, live: set<string>, completed: set<string>, failed: set<string>,
                           blocked: map<string, Reason>)
  {
    forall id :: id in blocked ==> Blamed(cfg, live, completed, failed, blocked, id, blocked[id])
  }

  ghost predicate NoStall(blocked: map<string, Reason>) {
    forall id :: id in blocked ==> blocked[id] != NoRunnableTask
  }

  ghost predicate Bounds(cfg: Config, deferrals: nat, checks: nat, busy: nat) {
    deferrals <= checks && busy <= Requested(cfg.maxConcurrent)
  }

  /** Which integration events a task in a given phase has behind it. */
  ghost predicate PhaseLogged(cfg: Config, log: seq<Event>, id: string, phase: Phase) {
    match phase
    case Working => WorkerFinished(id) !in log
    case Queued => cfg.integrates && WorkerFinished(id) in log && IntegrationStarted(id) !in log
    case Integrating => cfg.integrates && IntegrationStarted(id) in log && !Ended(log, id)
    case Settled(_) => IntegrationStarted(id) in log ==> Ended(log, id)
  }

  ghost predicate Succeeded(cfg: Config, running: map<string, Phase>, completed: set<string>, id: string) {
    || (id in completed && id in cfg.byID)
    || (id in running && running[id] == Settled(true))
  }

  /** The part of the queue whose integration has not begun. */
  ghost function Awaiting(queue: seq<string>, running: map<string, Phase>): seq<string> {
    if queue != [] && queue[0] in running && running[queue[0]].Integrating? then queue[1..] else queue
  }

  /** The log records exactly who started, completed, failed and was blocked, and why. */
  ghost predicate Counted(cfg: Config, log: seq<Event>, live: set<string>, completed: set<string>,
                          failed: set<string>, blocked: map<string, Reason>)
  {
    && (forall id :: Started(id) in log <==> id in live || id in failed || (id in completed && id in cfg.byID))
    && (forall id :: Completed(id) in log <==> id in completed && id in cfg.byID)
    && (forall id :: Failed(id) in log <==> id in failed)
    && (forall id, r :: Blocked(id, r) in log <==> id in blocked && blocked[id] == r)
  }

  ghost predicate TracedAt(cfg: Config, log: seq<Event>, running: map<string, Phase>, completed: set<string>, id: string) {
    && (id in running ==> PhaseLogged(cfg, log, id, running[id]))
    && (IntegrationEnded(id, true) in log <==> cfg.integrates && Succeeded(cfg, running, completed, id))
    && (Ended(log, id) ==> IntegrationStarted(id) in log)
    && (IntegrationStarted(id) in log ==> WorkerFinished(id) in log)
    && (WorkerFinished(id) in log ==> Started(id) in log)
    && (IntegrationStarted(id) in log && !Ended(log, id) ==> id in running && running[id].Integrating?)
  }

  /** The log records exactly how far each task's integration has come. */
  ghost predicate Traced(cfg: Config, log: seq<Event>, running: map<string, Phase>, completed: set<string>) {
    forall id :: TracedAt(cfg, log, running, completed, id)
  }

  ghost predicate Fifo(log: seq<Event>, queue: seq<string>, running: map<string, Phase>) {
    Finishers(log) == Integrated(log) + Awaiting(queue, running)
  }

  /** Everything that holds at every moment, also in the middle of a scheduling pass. */
  ghost predicate Inv(cfg: Config, s: State) {
    && Partition(cfg, s.pending, s.running.Keys, s.completed, s.failed, s.blocked.Keys)
    && QueueInv(s.queue, s.running)
    && LeaseInv(cfg, s.table, s.running)
    && DepInv(cfg, s.running.Keys, s.completed, s.failed)
    && BlockInv(cfg, s.running.Keys, s.completed, s.failed, s.blocked)
    && Bounds(cfg, s.deferrals, s.checks, |s.running|)
    && Counted(cfg, s.log, s.running.Keys, s.completed, s.failed, s.blocked)
    && Traced(cfg, s.log, s.running, s.completed)
    && Fifo(s.log, s.queue, s.running)
    && Legal(cfg, s.log)
  }

  /** The invariant between steps: what the control point adds. */
  ghost predicate StepInv(cfg: Config, s: State) {
    && Inv(cfg, s)
    && (s.pc == Waiting ==> s.running != map[])
    && (s.pc == Finished ==> s.running == map[] && s.pending == [])
    && (s.pc != Finished ==> NoStall(s.blocked))
    && (cfg.failFast && s.failed != {} ==> s.pending == [])
  }

  lemma InitInv(cfg: Config)
    requires ValidConfig(cfg)
    ensures StepInv(cfg, Init(cfg))
  {
    EmptyTableOwned();
    var none: map<string, Phase> := map[];
    var free: map<string, Reason> := map[];
    assert none.Keys == {} && free.Keys == {};
    assert Partition(cfg, cfg.order, {}, cfg.done0, {}, {});
    assert LeaseInv(cfg, EMPTY_TABLE, none);
    assert DepInv(cfg, {}, cfg.done0, {});
    assert Counted(cfg, [], {}, cfg.done0, {}, free);
    assert Traced(cfg, [], none, cfg.done0);
  }

  lemma LogGrows(log: seq<Event>, e: Event)
    ensures forall x :: x in log + [e] <==> x in log || x == e
  {
  }

  // ---------- blocking one task ----------

  lemma BlockPartition(cfg: Config, pending: seq<string>, live: set<string>, completed: set<string>,
                       failed: set<string>, blocked: map<string, Reason>, id: string, reason: Reason)
    requires Partition(cfg, pending, live, completed, failed, blocked.Keys) && id in pending
    ensures Partition(cfg, Minus(pending, id), live, completed, failed, blocked[id := reason].Keys)
  {
    MinusMeaning(pending, id);
  }

  lemma BlockBlame(cfg: Config, live: set<string>, completed: set<string>, failed: set<string>,
                   blocked: map<string, Reason>, id: string, reason: Reason)
    requires BlockInv(cfg, live, completed, failed, blocked) && id !in blocked
    requires Blamed(cfg, live, completed, failed, blocked, id, reason)
    ensures BlockInv(cfg, live, completed, failed, blocked[id := reason])
  {
    var b := blocked[id := reason];
    forall x | x in b ensures Blamed(cfg, live, completed, failed, b, x, b[x]) {
      assert x != id ==> Blamed(cfg, live, completed, failed, blocked, x, blocked[x]);
    }
  }

  lemma NotTerminated(cfg: Config, log: seq<Event>, live: set<string>, completed: set<string>, failed: set<string>,
                      blocked: map<string, Reason>, id: string)
    requires Counted(cfg, log, live, completed, failed, blocked)
    requires id !in completed && id !in failed && id !in blocked
    ensures !Terminated(log, id)
  {
  }

  lemma BlockCounted(cfg: Config, log: seq<Event>, live: set<string>, completed: set<string>, failed: set<string>,
                     blocked: map<string, Reason>, id: string, reason: Reason)
    requires Counted(cfg, log, live, completed, failed, blocked) && id !in blocked
    ensures Counted(cfg, log + [Blocked(id, reason)], live, completed, failed, blocked[id := reason])
  {
    LogGrows(log, Blocked(id, reason));
  }

  /** Events that say nothing about integration leave the integration bookkeeping alone. */
  lemma TracedFrame(cfg: Config, log: seq<Event>, e: Event, running: map<string, Phase>, completed: set<string>)
    requires Traced(cfg, log, running, completed)
    requires e.Started? || e.Completed? || e.Failed? || e.Blocked?
    ensures Traced(cfg, log + [e], running, completed)
  {
    LogGrows(log, e);
    forall x ensures TracedAt(cfg, log + [e], running, completed, x) {
      assert TracedAt(cfg, log, running, completed, x);
    }
  }

  lemma FifoFrame(log: seq<Event>, e: Event, queue: seq<string>, running: map<string, Phase>)
    requires Fifo(log, queue, running)
    requires e.Started? || e.Completed? || e.Failed? || e.Blocked? || e.IntegrationEnded?
    ensures Fifo(log + [e], queue, running)
  {
    assert (log + [e])[..|log|] == log;
  }

  lemma BlockOneKeeps(cfg: Config, s: State, id: string, reason: Reason)
    requires Inv(cfg, s) && id in s.pending
    requires Blamed(cfg, s.running.Keys, s.completed, s.failed, s.blocked, id, reason)
    ensures Inv(cfg, BlockOne(s, id, reason))
  {
    var live := s.running.Keys;
    BlockPartition(cfg, s.pending, live, s.completed, s.failed, s.blocked, id, reason);
    BlockBlame(cfg, live, s.completed, s.failed, s.blocked, id, reason);
    BlockCounted(cfg, s.log, live, s.completed, s.failed, s.blocked, id, reason);
    TracedFrame(cfg, s.log, Blocked(id, reason), s.running, s.completed);
    FifoFrame(s.log, Blocked(id, reason), s.queue, s.running);
    NotTerminated(cfg, s.log, live, s.completed, s.failed, s.blocked, id);
    LegalAppend(cfg, s.log, Blocked(id, reason));
  }

  // ---------- the blocking pass ----------

  lemma {:induction false} FindBadMeaning(s: State, deps: seq<string>)
    ensures match FindBad(s, deps)
      case Nothing => forall d :: d in deps ==> d !in s.failed && d !in s.blocked
      case Dep(d) => d in deps && (d in s.failed || d in s.blocked)
  {
    if deps != [] {
      FindBadMeaning(s, deps[1..]);
    }
  }

  /** What a scheduling pass leaves alone until it ends. */
  ghost predicate SameCore(s: State, t: State) {
    t.pc == s.pc && t.completed == s.completed && t.failed == s.failed
  }

  lemma BlockIfBadKeeps(cfg: Config, s: State, id: string)
    requires Inv(cfg, s) && NoStall(s.blocked) && id in s.pending
    ensures var t := BlockIfBad(cfg, s, id);
      Inv(cfg, t) && NoStall(t.blocked) && (t.pending == s.pending || t.pending == Minus(s.pending, id))
  {
    FindBadMeaning(s, Deps(cfg, id));
    match FindBad(s, Deps(cfg, id))
    case Nothing =>
    case Dep(d) => BlockOneKeeps(cfg, s, id, Dependency(d));
  }

  lemma {:induction false} BlockPassFrame(cfg: Config, s: State, ids: seq<string>)
    ensures var t := BlockPass(cfg, s, ids);
      && t == s.(pending := t.pending, blocked := t.blocked, log := t.log)
      && (forall x :: x in t.pending ==> x in s.pending)
    decreases |ids|
  {
    if ids != [] {
      MinusMeaning(s.pending, ids[0]);
      BlockPassFrame(cfg, BlockIfBad(cfg, s, ids[0]), ids[1..]);
    }
  }

  lemma StillPending(pending: seq<string>, left: seq<string>, ids: seq<string>)
    requires ids != [] && NoDup(ids) && (forall x :: x in ids ==> x in pending)
    requires left == pending || left == Minus(pending, ids[0])
    ensures NoDup(ids[1..]) && forall x :: x in ids[1..] ==> x in left
  {
    MinusMeaning(pending, ids[0]);
  }

  lemma {:induction false} BlockPassInv(cfg: Config, s: State, ids: seq<string>)
    requires Inv(cfg, s) && NoStall(s.blocked)
    requires NoDup(ids) && forall x :: x in ids ==> x in s.pending
    ensures Inv(cfg, BlockPass(cfg, s, ids)) && NoStall(BlockPass(cfg, s, ids).blocked)
    decreases |ids|
  {
    if ids != [] {
      var t := BlockIfBad(cfg, s, ids[0]);
      BlockIfBadKeeps(cfg, s, ids[0]);
      StillPending(s.pending, t.pending, ids);
      BlockPassInv(cfg, t, ids[1..]);
    }
  }

  lemma BlockPassKeeps(cfg: Config, s: State)
    requires Inv(cfg, s) && NoStall(s.blocked)
    ensures var t := AfterBlocking(cfg, s);
      && Inv(cfg, t) && NoStall(t.blocked) && SameCore(s, t)
      && t == s.(pending := t.pending, blocked := t.blocked, log := t.log)
      && (forall x :: x in t.pending ==> x in s.pending)
  {
    BlockPassFrame(cfg, s, s.pending);
    BlockPassInv(cfg, s, s.pending);
  }

  // ---------- launching ----------

  lemma {:induction false} ReadyMeaning(cfg: Config, completed: set<string>, ids: seq<string>)
    ensures forall x :: x in ReadyAmong(cfg, completed, ids) <==> x in ids && DepsDone(cfg, completed, x)
    ensures |ReadyAmong(cfg, completed, ids)| <= |ids|
    ensures NoDup(ids) ==> NoDup(ReadyAmong(cfg, completed, ids))
  {
    if ids != [] {
      var p, x := ids[..|ids| - 1], ids[|ids| - 1];
      assert ids == p + [x];
      ReadyMeaning(cfg, completed, p);
      NoDupLast(p, x);
      NoDupLast(ReadyAmong(cfg, completed, p), x);
    }
  }

  lemma LaunchPartition(cfg: Config, pending: seq<string>, live: set<string>, completed: set<string>,
                        failed: set<string>, blocked: set<string>, id: string)
    requires Partition(cfg, pending, live, completed, failed, blocked) && id in pending
    ensures Partition(cfg, Minus(pending, id), live + {id}, completed, failed, blocked)
  {
    MinusMeaning(pending, id);
  }

  lemma LaunchLeases(cfg: Config, table: Table, running: map<string, Phase>, id: string)
    requires LeaseInv(cfg, table, running) && id !in running && CanAcquire(table, id, TaskClaims(cfg, id))
    ensures LeaseInv(cfg, Acquire(table, id, TaskClaims(cfg, id)), running[id := Working])
  {
    assert id !in table.byOwner;
    AcquireFreshKeepsOwned(table, id, TaskClaims(cfg, id));
  }

  lemma LaunchQueue(queue: seq<string>, running: map<string, Phase>, id: string)
    requires QueueInv(queue, running) && id !in running
    ensures QueueInv(queue, running[id := Working])
    ensures Awaiting(queue, running[id := Working]) == Awaiting(queue, running)
  {
  }

  lemma LaunchTraced(cfg: Config, log: seq<Event>, running: map<string, Phase>, completed: set<string>, id: string)
    requires Traced(cfg, log, running, completed) && id !in running && Started(id) !in log
    ensures Traced(cfg, log + [Started(id)], running[id := Working], completed)
  {
    LogGrows(log, Started(id));
    var l, r := log + [Started(id)], running[id := Working];
    forall x ensures TracedAt(cfg, l, r, completed, x) {
      assert TracedAt(cfg, log, running, completed, x);
    }
  }

  lemma LaunchCounted(cfg: Config, log: seq<Event>, live: set<string>, completed: set<string>, failed: set<string>,
                      blocked: map<string, Reason>, id: string)
    requires Counted(cfg, log, live, completed, failed, blocked)
    ensures Counted(cfg, log + [Started(id)], live + {id}, completed, failed, blocked)
  {
    LogGrows(log, Started(id));
  }

  lemma LaunchJustified(cfg: Config, s: State, id: string)
    requires ValidConfig(cfg)
    requires Partition(cfg, s.pending, s.running.Keys, s.completed, s.failed, s.blocked.Keys)
    requires Counted(cfg, s.log, s.running.Keys, s.completed, s.failed, s.blocked)
    requires id in s.pending && DepsDone(cfg, s.completed, id) && (cfg.failFast ==> s.failed == {})
    ensures Justified(cfg, s.log, Started(id))
  {
    NotTerminated(cfg, s.log, s.running.Keys, s.completed, s.failed, s.blocked, id);
  }

  lemma LaunchState(cfg: Config, s: State, id: string)
    requires Partition(cfg, s.pending, s.running.Keys, s.completed, s.failed, s.blocked.Keys)
    requires QueueInv(s.queue, s.running) && LeaseInv(cfg, s.table, s.running)
    requires DepInv(cfg, s.running.Keys, s.completed, s.failed)
    requires BlockInv(cfg, s.running.Keys, s.completed, s.failed, s.blocked) && NoStall(s.blocked)
    requires id in s.pending && DepsDone(cfg, s.completed, id) && CanAcquire(s.table, id, TaskClaims(cfg, id))
    ensures var t := Launch(cfg, s, id);
      && Partition(cfg, t.pending, t.running.Keys, t.completed, t.failed, t.blocked.Keys)
      && QueueInv(t.queue, t.running) && LeaseInv(cfg, t.table, t.running)
      && DepInv(cfg, t.running.Keys, t.completed, t.failed)
      && BlockInv(cfg, t.running.Keys, t.completed, t.failed, t.blocked)
      && |t.running| == |s.running| + 1
  {
    var live := s.running.Keys;
    assert s.running[id := Working].Keys == live + {id};
    LaunchPartition(cfg, s.pending, live, s.completed, s.failed, s.blocked.Keys, id);
    LaunchQueue(s.queue, s.running, id);
    LaunchLeases(cfg, s.table, s.running, id);
    LaunchBlame(cfg, live, s.completed, s.failed, s.blocked, id);
  }

  lemma LaunchLogs(cfg: Config, s: State, id: string)
    requires ValidConfig(cfg)
    requires Partition(cfg, s.pending, s.running.Keys, s.completed, s.failed, s.blocked.Keys)
    requires QueueInv(s.queue, s.running)
    requires Counted(cfg, s.log, s.running.Keys, s.completed, s.failed, s.blocked)
    requires Traced(cfg, s.log, s.running, s.completed) && Fifo(s.log, s.queue, s.running) && Legal(cfg, s.log)
    requires id in s.pending && DepsDone(cfg, s.completed, id) && (cfg.failFast ==> s.failed == {})
    ensures var t := Launch(cfg, s, id);
      && Counted(cfg, t.log, t.running.Keys, t.completed, t.failed, t.blocked)
      && Traced(cfg, t.log, t.running, t.completed) && Fifo(t.log, t.queue, t.running) && Legal(cfg, t.log)
  {
    var live := s.running.Keys;
    assert s.running[id := Working].Keys == live + {id};
    LaunchQueue(s.queue, s.running, id);
    LaunchJustified(cfg, s, id);
    LaunchCounted(cfg, s.log, live, s.completed, s.failed, s.blocked, id);
    LaunchTraced(cfg, s.log, s.running, s.completed, id);
    FifoFrame(s.log, Started(id), s.queue, s.running);
    LegalAppend(cfg, s.log, Started(id));
  }

  lemma LaunchKeeps(cfg: Config, s: State, id: string)
    requires ValidConfig(cfg) && Inv(cfg, s) && NoStall(s.blocked)
    requires id in s.pending && DepsDone(cfg, s.completed, id) && CanAcquire(s.table, id, TaskClaims(cfg, id))
    requires cfg.failFast ==> s.failed == {}
    requires |s.running| < Requested(cfg.maxConcurrent)
    ensures Inv(cfg, Launch(cfg, s, id))
  {
    LaunchState(cfg, s, id);
    LaunchLogs(cfg, s, id);
  }

  lemma LaunchBlame(cfg: Config, live: set<string>, completed: set<string>, failed: set<string>,
                    blocked: map<string, Reason>, id: string)
    requires BlockInv(cfg, live, completed, failed, blocked) && NoStall(blocked)
    ensures BlockInv(cfg, live + {id}, completed, failed, blocked)
  {
    forall x | x in blocked ensures Blamed(cfg, live + {id}, completed, failed, blocked, x, blocked[x]) {
      assert Blamed(cfg, live, completed, failed, blocked, x, blocked[x]);
    }
  }

  /** What launching only adds to. */
  ghost predicate Grown(s: State, t: State) {
    && SameCore(s, t) && t.blocked == s.blocked && t.checks == s.checks
    && s.running.Keys <= t.running.Keys
    && (forall x :: x in t.pending ==> x in s.pending)
  }

  lemma {:induction false} LaunchAllGrows(cfg: Config, s: State, limit: int, order: seq<string>)
    ensures Grown(s, LaunchAll(cfg, s, limit, order))
    decreases |order|
  {
    if order != [] && |s.running| < limit {
      MinusMeaning(s.pending, order[0]);
      LaunchAllGrows(cfg, Consider(cfg, s, order[0]), limit, order[1..]);
    }
  }

  /** A task may be tried in this pass: what the loop over ready tasks needs of its remaining list. */
  ghost predicate Launchable(cfg: Config, s: State, order: seq<string>) {
    && NoDup(order)
    && (forall x :: x in order ==> x in s.pending && DepsDone(cfg, s.completed, x))
    && (order != [] && cfg.failFast ==> s.failed == {})
    && s.deferrals + |order| <= s.checks
  }

  lemma ConsiderKeeps(cfg: Config, s: State, order: seq<string>)
    requires ValidConfig(cfg) && Inv(cfg, s) && NoStall(s.blocked) && Launchable(cfg, s, order) && order != []
    requires |s.running| < Requested(cfg.maxConcurrent)
    ensures Inv(cfg, Consider(cfg, s, order[0])) && NoStall(Consider(cfg, s, order[0]).blocked)
  {
    if CanAcquire(s.table, order[0], TaskClaims(cfg, order[0])) {
      LaunchKeeps(cfg, s, order[0]);
    }
  }

  lemma ConsiderLaunchable(cfg: Config, s: State, order: seq<string>)
    requires Launchable(cfg, s, order) && order != []
    ensures Launchable(cfg, Consider(cfg, s, order[0]), order[1..])
  {
    MinusMeaning(s.pending, order[0]);
  }

  lemma {:induction false} LaunchAllKeeps(cfg: Config, s: State, limit: int, order: seq<string>)
    requires ValidConfig(cfg) && Inv(cfg, s) && NoStall(s.blocked) && Launchable(cfg, s, order)
    requires limit <= Requested(cfg.maxConcurrent)
    ensures Inv(cfg, LaunchAll(cfg, s, limit, order))
    decreases |order|
  {
    if order != [] && |s.running| < limit {
      ConsiderKeeps(cfg, s, order);
      ConsiderLaunchable(cfg, s, order);
      LaunchAllKeeps(cfg, Consider(cfg, s, order[0]), limit, order[1..]);
    }
  }

  // ---------- blocking everything that is left ----------

  /** A blame that names no dependency does not depend on what is blocked. */
  lemma BlameStays(cfg: Config, pending: seq<string>, live: set<string>, completed: set<string>, failed: set<string>,
                   blocked: map<string, Reason>, id: string, reason: Reason)
    requires !reason.Dependency?
    requires forall x :: x in pending ==> Blamed(cfg, live, completed, failed, blocked, x, reason)
    ensures forall x :: x in Minus(pending, id) ==> Blamed(cfg, live, completed, failed, blocked[id := reason], x, reason)
  {
    MinusMeaning(pending, id);
    forall x | x in Minus(pending, id)
      ensures Blamed(cfg, live, completed, failed, blocked[id := reason], x, reason)
    {
      assert Blamed(cfg, live, completed, failed, blocked, x, reason);
    }
  }

  lemma {:induction false} BlockAllKeeps(cfg: Config, s: State, reason: Reason)
    requires Inv(cfg, s) && !reason.Dependency?
    requires forall id :: id in s.pending ==> Blamed(cfg, s.running.Keys, s.completed, s.failed, s.blocked, id, reason)
    ensures var t := BlockAll(s, reason);
      && Inv(cfg, t) && t.pending == []
      && t == s.(pending := [], blocked := t.blocked, log := t.log)
      && (reason != NoRunnableTask && NoStall(s.blocked) ==> NoStall(t.blocked))
    decreases |s.pending|
  {
    if s.pending != [] {
      var id := s.pending[0];
      MinusShorter(s.pending, id);
      BlameStays(cfg, s.pending, s.running.Keys, s.completed, s.failed, s.blocked, id, reason);
      BlockOneKeeps(cfg, s, id, reason);
      BlockAllKeeps(cfg, BlockOne(s, id, reason), reason);
    }
  }

  // ---------- the whole pass ----------

  lemma LimitBounds(maxConcurrent: int, readyCount: nat, failures: nat, rate: real)
    ensures 1 <= WorkerLimit(maxConcurrent, readyCount, failures, rate) <= Requested(maxConcurrent) <= 16
  {
  }

  /** The state in which ready tasks are about to be launched. */
  ghost function BeforeLaunching(cfg: Config, s: State): State {
    var b := AfterBlocking(cfg, s);
    CountChecks(b, |Ready(cfg, b)|)
  }

  ghost function PassLimit(cfg: Config, s: State): int {
    Limit(cfg, BeforeLaunching(cfg, s), |Ready(cfg, AfterBlocking(cfg, s))|)
  }

  lemma LimitOfPass(cfg: Config, s: State)
    ensures 1 <= PassLimit(cfg, s) <= Requested(cfg.maxConcurrent)
  {
    var c := BeforeLaunching(cfg, s);
    LimitBounds(cfg.maxConcurrent, |Ready(cfg, AfterBlocking(cfg, s))| + |c.running|, |c.failed|,
                ConflictRate(c.deferrals, c.checks));
  }

  lemma BeforeLaunchingKeeps(cfg: Config, s: State, order: seq<string>)
    requires StepInv(cfg, s) && Enabled(cfg, s, PassStep(order))
    ensures var c := BeforeLaunching(cfg, s);
      && Inv(cfg, c) && NoStall(c.blocked) && SameCore(s, c) && c.running == s.running
      && Launchable(cfg, c, order) && (forall x :: x in order <==> x in c.pending && DepsDone(cfg, c.completed, x))
      && (forall x :: x in c.pending ==> x in s.pending)
  {
    BlockPassKeeps(cfg, s);
    var b := AfterBlocking(cfg, s);
    ReadyMeaning(cfg, b.completed, b.pending);
  }

  lemma AfterLaunchingKeeps(cfg: Config, s: State, order: seq<string>)
    requires ValidConfig(cfg) && StepInv(cfg, s) && Enabled(cfg, s, PassStep(order))
    ensures AfterLaunching(cfg, s, order) == LaunchAll(cfg, BeforeLaunching(cfg, s), PassLimit(cfg, s), order)
    ensures var t := AfterLaunching(cfg, s, order);
      Inv(cfg, t) && NoStall(t.blocked) && Grown(BeforeLaunching(cfg, s), t)
  {
    BeforeLaunchingKeeps(cfg, s, order);
    LimitOfPass(cfg, s);
    LaunchAllKeeps(cfg, BeforeLaunching(cfg, s), PassLimit(cfg, s), order);
    LaunchAllGrows(cfg, BeforeLaunching(cfg, s), PassLimit(cfg, s), order);
  }

  lemma NobodyHoldsLeases(cfg: Config, table: Table, running: map<string, Phase>)
    requires LeaseInv(cfg, table, running) && running == map[]
    ensures forall o, claims :: CanAcquire(table, o, claims)
  {
    assert table.byOwner == map[];
    NoOwnersNoResources(table);
  }

  lemma FirstLaunchSucceeds(cfg: Config, c: State, limit: int, order: seq<string>)
    requires LeaseInv(cfg, c.table, c.running) && c.running == map[]
    requires order != [] && 1 <= limit
    ensures order[0] in LaunchAll(cfg, c, limit, order).running
  {
    NobodyHoldsLeases(cfg, c.table, c.running);
    LaunchAllGrows(cfg, Launch(cfg, c, order[0]), limit, order[1..]);
    assert Consider(cfg, c, order[0]) == Launch(cfg, c, order[0]);
  }

  /** No false stall: when a pass leaves nothing running, no pending task was ready. */
  lemma StallMeansNothingReady(cfg: Config, s: State, order: seq<string>)
    requires ValidConfig(cfg) && StepInv(cfg, s) && Enabled(cfg, s, PassStep(order))
    requires AfterLaunching(cfg, s, order).running == map[]
    ensures forall id :: id in AfterLaunching(cfg, s, order).pending ==> !DepsDone(cfg, s.completed, id)
  {
    BeforeLaunchingKeeps(cfg, s, order);
    AfterLaunchingKeeps(cfg, s, order);
    LimitOfPass(cfg, s);
    var c := BeforeLaunching(cfg, s);
    assert c.running.Keys == {};
    if order != [] {
      FirstLaunchSucceeds(cfg, c, PassLimit(cfg, s), order);
    }
  }

  lemma PassKeeps(cfg: Config, s: State, order: seq<string>)
    requires ValidConfig(cfg) && StepInv(cfg, s) && Enabled(cfg, s, PassStep(order))
    ensures StepInv(cfg, Pass(cfg, s, order))
  {
    BeforeLaunchingKeeps(cfg, s, order);
    AfterLaunchingKeeps(cfg, s, order);
    var l := AfterLaunching(cfg, s, order);
    if l.running == map[] {
      StallMeansNothingReady(cfg, s, order);
      BlockAllKeeps(cfg, l, NoRunnableTask);
    } else {
      assert forall x :: x in l.pending ==> x in s.pending;
      assert l.pending != [] ==> l.pending[0] in l.pending;
    }
  }

  // ---------- asynchronous steps ----------

  lemma RekeyPhase(running: map<string, Phase>, id: string, phase: Phase)
    requires id in running
    ensures running[id := phase].Keys == running.Keys
    ensures |running[id := phase]| == |running|
  {
    assert running[id := phase].Keys == running.Keys;
    assert |running.Keys| == |running| && |running[id := phase].Keys| == |running[id := phase]|;
  }

  lemma ReleaseLeases(cfg: Config, table: Table, running: map<string, Phase>, id: string, ok: bool)
    requires LeaseInv(cfg, table, running) && id in running && !running[id].Settled?
    ensures LeaseInv(cfg, Release(table, id), running[id := Settled(ok)])
  {
    ReleaseKeepsOwned(table, id);
  }

  lemma RephaseLeases(cfg: Config, table: Table, running: map<string, Phase>, id: string, phase: Phase)
    requires LeaseInv(cfg, table, running) && id in running && !running[id].Settled? && !phase.Settled?
    ensures LeaseInv(cfg, table, running[id := phase])
  {
  }

  /** The queue and its order when a task outside the queue changes phase but stays outside. */
  lemma SettleOutsideQueue(log: seq<Event>, queue: seq<string>, running: map<string, Phase>, id: string, ok: bool)
    requires QueueInv(queue, running) && Fifo(log, queue, running) && id in running && running[id].Working?
    ensures QueueInv(queue, running[id := Settled(ok)]) && Fifo(log, queue, running[id := Settled(ok)])
  {
  }

  lemma SettleTraced(cfg: Config, log: seq<Event>, running: map<string, Phase>, completed: set<string>, id: string, ok: bool)
    requires Traced(cfg, log, running, completed) && id in running && running[id].Working?
    requires cfg.integrates ==> !ok
    requires id !in completed
    ensures Traced(cfg, log, running[id := Settled(ok)], completed)
  {
    var r := running[id := Settled(ok)];
    forall x ensures TracedAt(cfg, log, r, completed, x) {
      assert TracedAt(cfg, log, running, completed, x);
    }
  }

  lemma WorkerSettlesKeeps(cfg: Config, s: State, id: string, ok: bool)
    requires ValidConfig(cfg) && StepInv(cfg, s) && id in s.running && s.running[id].Working? && s.pc == Waiting
    requires cfg.integrates ==> !ok
    ensures StepInv(cfg, ReleaseAs(s, id, ok))
  {
    RekeyPhase(s.running, id, Settled(ok));
    ReleaseLeases(cfg, s.table, s.running, id, ok);
    SettleOutsideQueue(s.log, s.queue, s.running, id, ok);
    SettleTraced(cfg, s.log, s.running, s.completed, id, ok);
  }

  lemma EnqueueQueue(log: seq<Event>, queue: seq<string>, running: map<string, Phase>, id: string)
    requires QueueInv(queue, running) && Fifo(log, queue, running) && id in running && running[id].Working?
    ensures QueueInv(queue + [id], running[id := Queued])
    ensures Fifo(log + [WorkerFinished(id)], queue + [id], running[id := Queued])
  {
    EnqueueMembers(queue, running, id);
    EnqueueAwaits(queue, running, id);
    assert (log + [WorkerFinished(id)])[..|log|] == log;
  }

  lemma EnqueueMembers(queue: seq<string>, running: map<string, Phase>, id: string)
    requires QueueInv(queue, running) && id in running && running[id].Working?
    ensures id !in queue && QueueInv(queue + [id], running[id := Queued])
  {
  }

  lemma EnqueueAwaits(queue: seq<string>, running: map<string, Phase>, id: string)
    requires id in running && running[id].Working? && id !in queue
    ensures Awaiting(queue + [id], running[id := Queued]) == Awaiting(queue, running) + [id]
  {
    if queue != [] {
      assert queue[0] != id && (queue + [id])[1..] == queue[1..] + [id];
    }
  }

  lemma EnqueueTraced(cfg: Config, log: seq<Event>, running: map<string, Phase>, completed: set<string>, id: string)
    requires Traced(cfg, log, running, completed) && id in running && running[id].Working? && cfg.integrates
    requires Started(id) in log
    ensures Traced(cfg, log + [WorkerFinished(id)], running[id := Queued], completed)
  {
    LogGrows(log, WorkerFinished(id));
    var l, r := log + [WorkerFinished(id)], running[id := Queued];
    forall x ensures TracedAt(cfg, l, r, completed, x) {
      assert TracedAt(cfg, log, running, completed, x);
    }
  }

  /** Integration events are no terminal events and no starts. */
  lemma CountedFrame(cfg: Config, log: seq<Event>, e: Event, live: set<string>, completed: set<string>,
                     failed: set<string>, blocked: map<string, Reason>)
    requires Counted(cfg, log, live, completed, failed, blocked)
    requires e.WorkerFinished? || e.IntegrationStarted? || e.IntegrationEnded?
    ensures Counted(cfg, log + [e], live, completed, failed, blocked)
  {
    LogGrows(log, e);
  }

  lemma EnqueueKeeps(cfg: Config, s: State, id: string)
    requires ValidConfig(cfg) && StepInv(cfg, s) && id in s.running && s.running[id].Working? && s.pc == Waiting
    requires cfg.integrates
    ensures StepInv(cfg, WorkerEnds(cfg, s, id, true))
  {
    var live := s.running.Keys;
    RekeyPhase(s.running, id, Queued);
    RephaseLeases(cfg, s.table, s.running, id, Queued);
    EnqueueQueue(s.log, s.queue, s.running, id);
    EnqueueTraced(cfg, s.log, s.running, s.completed, id);
    CountedFrame(cfg, s.log, WorkerFinished(id), live, s.completed, s.failed, s.blocked);
    NotTerminated(cfg, s.log, live, s.completed, s.failed, s.blocked, id);
    assert TracedAt(cfg, s.log, s.running, s.completed, id);
    LegalAppend(cfg, s.log, WorkerFinished(id));
  }

  lemma BeginQueue(log: seq<Event>, queue: seq<string>, running: map<string, Phase>)
    requires QueueInv(queue, running) && Fifo(log, queue, running)
    requires queue != [] && queue[0] in running && running[queue[0]].Queued?
    ensures QueueInv(queue, running[queue[0] := Integrating])
    ensures Fifo(log + [IntegrationStarted(queue[0])], queue, running[queue[0] := Integrating])
    ensures |Integrated(log)| < |Finishers(log)| && Finishers(log)[|Integrated(log)|] == queue[0]
  {
    BeginAwaits(log, queue, running);
  }

  lemma BeginAwaits(log: seq<Event>, queue: seq<string>, running: map<string, Phase>)
    requires Fifo(log, queue, running) && queue != [] && queue[0] in running && running[queue[0]].Queued?
    ensures Fifo(log + [IntegrationStarted(queue[0])], queue, running[queue[0] := Integrating])
    ensures |Integrated(log)| < |Finishers(log)| && Finishers(log)[|Integrated(log)|] == queue[0]
  {
    var id := queue[0];
    assert (log + [IntegrationStarted(id)])[..|log|] == log;
    assert queue == [id] + queue[1..];
    assert Integrated(log) + ([id] + queue[1..]) == (Integrated(log) + [id]) + queue[1..];
  }

  lemma BeginTraced(cfg: Config, log: seq<Event>, running: map<string, Phase>, completed: set<string>, id: string)
    requires Traced(cfg, log, running, completed) && id in running && running[id].Queued?
    ensures Traced(cfg, log + [IntegrationStarted(id)], running[id := Integrating], completed)
  {
    LogGrows(log, IntegrationStarted(id));
    var l, r := log + [IntegrationStarted(id)], running[id := Integrating];
    forall x ensures TracedAt(cfg, l, r, completed, x) {
      assert TracedAt(cfg, log, running, completed, x);
    }
  }

  lemma NobodyIntegrating(cfg: Config, log: seq<Event>, queue: seq<string>, running: map<string, Phase>, completed: set<string>)
    requires QueueInv(queue, running) && Traced(cfg, log, running, completed)
    requires queue != [] && queue[0] in running && running[queue[0]].Queued?
    ensures forall x :: IntegrationStarted(x) in log ==> Ended(log, x)
  {
    forall x | IntegrationStarted(x) in log ensures Ended(log, x) {
      assert TracedAt(cfg, log, running, completed, x);
    }
  }

  lemma BeginKeeps(cfg: Config, s: State, id: string)
    requires ValidConfig(cfg) && StepInv(cfg, s) && Enabled(cfg, s, BeginStep(id))
    ensures StepInv(cfg, IntegrationBegins(s, id))
  {
    var live := s.running.Keys;
    RekeyPhase(s.running, id, Integrating);
    RephaseLeases(cfg, s.table, s.running, id, Integrating);
    BeginQueue(s.log, s.queue, s.running);
    BeginTraced(cfg, s.log, s.running, s.completed, id);
    CountedFrame(cfg, s.log, IntegrationStarted(id), live, s.completed, s.failed, s.blocked);
    NotTerminated(cfg, s.log, live, s.completed, s.failed, s.blocked, id);
    NobodyIntegrating(cfg, s.log, s.queue, s.running, s.completed);
    assert TracedAt(cfg, s.log, s.running, s.completed, id);
    LegalAppend(cfg, s.log, IntegrationStarted(id));
  }

  lemma EndMembers(queue: seq<string>, running: map<string, Phase>, ok: bool)
    requires QueueInv(queue, running) && queue != [] && queue[0] in running && running[queue[0]].Integrating?
    ensures QueueInv(queue[1..], running[queue[0] := Settled(ok)])
    ensures |queue| > 1 ==> queue[1] != queue[0] && queue[1] in running && !running[queue[1]].Integrating?
  {
    assert queue == [queue[0]] + queue[1..];
    assert |queue| > 1 ==> queue[1] in queue;
  }

  lemma EndAwaits(log: seq<Event>, queue: seq<string>, running: map<string, Phase>, ok: bool)
    requires Fifo(log, queue, running) && queue != [] && queue[0] in running && running[queue[0]].Integrating?
    requires |queue| > 1 ==> queue[1] != queue[0] && queue[1] in running && !running[queue[1]].Integrating?
    ensures Fifo(log + [IntegrationEnded(queue[0], ok)], queue[1..], running[queue[0] := Settled(ok)])
  {
    assert (log + [IntegrationEnded(queue[0], ok)])[..|log|] == log;
    assert Awaiting(queue[1..], running[queue[0] := Settled(ok)]) == queue[1..];
  }

  lemma EndQueue(log: seq<Event>, queue: seq<string>, running: map<string, Phase>, ok: bool)
    requires QueueInv(queue, running) && Fifo(log, queue, running)
    requires queue != [] && queue[0] in running && running[queue[0]].Integrating?
    ensures QueueInv(queue[1..], running[queue[0] := Settled(ok)])
    ensures Fifo(log + [IntegrationEnded(queue[0], ok)], queue[1..], running[queue[0] := Settled(ok)])
  {
    EndMembers(queue, running, ok);
    EndAwaits(log, queue, running, ok);
  }

  lemma EndTraced(cfg: Config, log: seq<Event>, running: map<string, Phase>, completed: set<string>, id: string, ok: bool)
    requires Traced(cfg, log, running, completed) && id in running && running[id].Integrating? && id !in completed
    ensures Traced(cfg, log + [IntegrationEnded(id, ok)], running[id := Settled(ok)], completed)
  {
    LogGrows(log, IntegrationEnded(id, ok));
    var l, r := log + [IntegrationEnded(id, ok)], running[id := Settled(ok)];
    forall x ensures TracedAt(cfg, l, r, completed, x) {
      assert TracedAt(cfg, log, running, completed, x);
    }
  }

  /** The queue, the leases and the running tasks after an integration. */
  lemma EndState(cfg: Config, s: State, id: string, ok: bool)
    requires QueueInv(s.queue, s.running) && LeaseInv(cfg, s.table, s.running) && Fifo(s.log, s.queue, s.running)
    requires id in s.running && s.running[id].Integrating? && s.queue != [] && s.queue[0] == id
    ensures var t := IntegrationEnds(s, id, ok);
      && QueueInv(t.queue, t.running) && LeaseInv(cfg, t.table, t.running) && Fifo(t.log, t.queue, t.running)
      && t.running.Keys == s.running.Keys && |t.running| == |s.running|
  {
    RekeyPhase(s.running, id, Settled(ok));
    ReleaseLeases(cfg, s.table, s.running, id, ok);
    EndQueue(s.log, s.queue, s.running, ok);
  }

  /** The log after an integration. */
  lemma EndLogs(cfg: Config, s: State, id: string, ok: bool)
    requires Counted(cfg, s.log, s.running.Keys, s.completed, s.failed, s.blocked)
    requires Traced(cfg, s.log, s.running, s.completed) && Legal(cfg, s.log)
    requires id in s.running && s.running[id].Integrating? && s.queue != []
    requires id !in s.completed && id !in s.failed && id !in s.blocked
    ensures var t := IntegrationEnds(s, id, ok);
      && Counted(cfg, t.log, s.running.Keys, t.completed, t.failed, t.blocked)
      && Traced(cfg, t.log, t.running, t.completed) && Legal(cfg, t.log)
  {
    var live := s.running.Keys;
    EndTraced(cfg, s.log, s.running, s.completed, id, ok);
    CountedFrame(cfg, s.log, IntegrationEnded(id, ok), live, s.completed, s.failed, s.blocked);
    NotTerminated(cfg, s.log, live, s.completed, s.failed, s.blocked, id);
    assert TracedAt(cfg, s.log, s.running, s.completed, id);
    LegalAppend(cfg, s.log, IntegrationEnded(id, ok));
  }

  lemma EndKeeps(cfg: Config, s: State, id: string, ok: bool)
    requires ValidConfig(cfg) && StepInv(cfg, s) && Enabled(cfg, s, EndStep(id, ok))
    ensures StepInv(cfg, IntegrationEnds(s, id, ok))
  {
    assert s.queue[0] == id;
    EndState(cfg, s, id, ok);
    EndLogs(cfg, s, id, ok);
  }

  // ---------- settlement ----------

  lemma SettleQueue(log: seq<Event>, queue: seq<string>, running: map<string, Phase>, id: string)
    requires QueueInv(queue, running) && Fifo(log, queue, running) && id in running && running[id].Settled?
    ensures QueueInv(queue, running - {id}) && Fifo(log, queue, running - {id})
  {
  }

  lemma SettleLeases(cfg: Config, table: Table, running: map<string, Phase>, id: string)
    requires LeaseInv(cfg, table, running) && id in running && running[id].Settled?
    ensures LeaseInv(cfg, table, running - {id})
  {
  }

  lemma SettledTraced(cfg: Config, log: seq<Event>, running: map<string, Phase>, completed: set<string>, id: string)
    requires Traced(cfg, log, running, completed) && id in running && running[id].Settled? && id in cfg.byID
    requires id !in completed
    ensures Traced(cfg, log, running - {id}, if running[id].ok then completed + {id} else completed)
  {
    var r, c := running - {id}, if running[id].ok then completed + {id} else completed;
    forall x ensures TracedAt(cfg, log, r, c, x) {
      assert TracedAt(cfg, log, running, completed, x);
    }
  }

  lemma CompletePartition(cfg: Config, pending: seq<string>, live: set<string>, completed: set<string>,
                          failed: set<string>, blocked: set<string>, id: string)
    requires Partition(cfg, pending, live, completed, failed, blocked) && id in live
    ensures Partition(cfg, pending, live - {id}, completed + {id}, failed, blocked)
  {
  }

  lemma CompleteDeps(cfg: Config, live: set<string>, completed: set<string>, failed: set<string>, id: string)
    requires DepInv(cfg, live, completed, failed) && id in live
    ensures DepInv(cfg, live - {id}, completed + {id}, failed)
  {
    forall x | x in live || x in failed || (x in completed && x in cfg.byID)
      ensures DepsDone(cfg, completed + {id}, x)
    {
      assert DepsDone(cfg, completed, x);
    }
  }

  lemma ShrinkBlame(cfg: Config, live: set<string>, completed: set<string>, failed: set<string>,
                    blocked: map<string, Reason>, completed': set<string>, failed': set<string>, id: string)
    requires BlockInv(cfg, live, completed, failed, blocked) && NoStall(blocked) && failed <= failed'
    ensures BlockInv(cfg, live - {id}, completed', failed', blocked)
  {
    forall x | x in blocked ensures Blamed(cfg, live - {id}, completed', failed', blocked, x, blocked[x]) {
      assert Blamed(cfg, live, completed, failed, blocked, x, blocked[x]);
    }
  }

  lemma CompleteCounted(cfg: Config, log: seq<Event>, live: set<string>, completed: set<string>, failed: set<string>,
                        blocked: map<string, Reason>, id: string)
    requires Counted(cfg, log, live, completed, failed, blocked) && id in live && id in cfg.byID
    ensures Counted(cfg, log + [Completed(id)], live - {id}, completed + {id}, failed, blocked)
  {
    LogGrows(log, Completed(id));
  }

  lemma FailPartition(cfg: Config, pending: seq<string>, live: set<string>, completed: set<string>,
                      failed: set<string>, blocked: set<string>, id: string)
    requires Partition(cfg, pending, live, completed, failed, blocked) && id in live
    ensures Partition(cfg, pending, live - {id}, completed, failed + {id}, blocked)
  {
  }

  lemma FailCounted(cfg: Config, log: seq<Event>, live: set<string>, completed: set<string>, failed: set<string>,
                    blocked: map<string, Reason>, id: string)
    requires Counted(cfg, log, live, completed, failed, blocked) && id in live
    ensures Counted(cfg, log + [Failed(id)], live - {id}, completed, failed + {id}, blocked)
  {
    LogGrows(log, Failed(id));
  }

  /** The integration side of a settlement. */
  lemma FinishQueues(cfg: Config, s: State, id: string, e: Event)
    requires QueueInv(s.queue, s.running) && LeaseInv(cfg, s.table, s.running) && Fifo(s.log, s.queue, s.running)
    requires id in s.running && s.running[id].Settled? && (e == Completed(id) || e == Failed(id))
    ensures QueueInv(s.queue, s.running - {id}) && LeaseInv(cfg, s.table, s.running - {id})
    ensures Fifo(s.log + [e], s.queue, s.running - {id})
    ensures (s.running - {id}).Keys == s.running.Keys - {id} && |s.running - {id}| < |s.running|
  {
    SettleQueue(s.log, s.queue, s.running, id);
    SettleLeases(cfg, s.table, s.running, id);
    FifoFrame(s.log, e, s.queue, s.running - {id});
    assert (s.running - {id}).Keys == s.running.Keys - {id};
    assert |(s.running - {id}).Keys| == |s.running.Keys| - 1;
  }

  lemma FinishTrace(cfg: Config, s: State, id: string, e: Event)
    requires Inv(cfg, s) && id in s.running && s.running[id].Settled?
    requires e == if s.running[id].ok then Completed(id) else Failed(id)
    ensures Traced(cfg, s.log + [e], s.running - {id}, if s.running[id].ok then s.completed + {id} else s.completed)
    ensures Legal(cfg, s.log + [e])
  {
    SettledTraced(cfg, s.log, s.running, s.completed, id);
    TracedFrame(cfg, s.log, e, s.running - {id}, if s.running[id].ok then s.completed + {id} else s.completed);
    NotTerminated(cfg, s.log, s.running.Keys, s.completed, s.failed, s.blocked, id);
    assert TracedAt(cfg, s.log, s.running, s.completed, id);
    LegalAppend(cfg, s.log, e);
  }

  lemma CompleteKeeps(cfg: Config, s: State, id: string)
    requires Enabled(cfg, s, SettleStep(id)) && s.running[id].ok
    requires ValidConfig(cfg) && StepInv(cfg, s)
    ensures StepInv(cfg, Settle(cfg, s, id, true))
  {
    var live := s.running.Keys;
    FinishQueues(cfg, s, id, Completed(id));
    FinishTrace(cfg, s, id, Completed(id));
    CompletePartition(cfg, s.pending, live, s.completed, s.failed, s.blocked.Keys, id);
    CompleteDeps(cfg, live, s.completed, s.failed, id);
    ShrinkBlame(cfg, live, s.completed, s.failed, s.blocked, s.completed + {id}, s.failed, id);
    CompleteCounted(cfg, s.log, live, s.completed, s.failed, s.blocked, id);
  }

  lemma FailDeps(cfg: Config, live: set<string>, completed: set<string>, failed: set<string>, id: string)
    requires DepInv(cfg, live, completed, failed) && id in live
    ensures DepInv(cfg, live - {id}, completed, failed + {id})
  {
  }

  lemma FailPlaces(cfg: Config, s: State, id: string)
    requires Inv(cfg, s) && NoStall(s.blocked) && id in s.running
    ensures var live, f := s.running.Keys - {id}, s.failed + {id};
      && Partition(cfg, s.pending, live, s.completed, f, s.blocked.Keys)
      && DepInv(cfg, live, s.completed, f)
      && BlockInv(cfg, live, s.completed, f, s.blocked)
  {
    var live := s.running.Keys;
    FailPartition(cfg, s.pending, live, s.completed, s.failed, s.blocked.Keys, id);
    FailDeps(cfg, live, s.completed, s.failed, id);
    ShrinkBlame(cfg, live, s.completed, s.failed, s.blocked, s.completed, s.failed + {id}, id);
  }

  lemma FailOneKeeps(cfg: Config, s: State, id: string)
    requires Inv(cfg, s) && NoStall(s.blocked) && id in s.running && s.running[id] == Settled(false)
    ensures var t := s.(pc := Top, running := s.running - {id}, failed := s.failed + {id}, log := s.log + [Failed(id)]);
      Inv(cfg, t)
  {
    FinishQueues(cfg, s, id, Failed(id));
    FinishTrace(cfg, s, id, Failed(id));
    FailCounted(cfg, s.log, s.running.Keys, s.completed, s.failed, s.blocked, id);
    FailPlaces(cfg, s, id);
  }

  lemma FailKeeps(cfg: Config, s: State, id: string)
    requires Enabled(cfg, s, SettleStep(id)) && !s.running[id].ok
    requires ValidConfig(cfg) && StepInv(cfg, s)
    ensures StepInv(cfg, Settle(cfg, s, id, false))
  {
    FailOneKeeps(cfg, s, id);
    if cfg.failFast {
      var t := s.(pc := Top, running := s.running - {id}, failed := s.failed + {id}, log := s.log + [Failed(id)]);
      BlockAllKeeps(cfg, t, FailFast(id));
    }
  }

  // ---------- every step, every run ----------

  /** Every step of the scheduler keeps the invariant. */
  lemma StepKeeps(cfg: Config, s: State, step: Step)
    requires ValidConfig(cfg) && StepInv(cfg, s) && Enabled(cfg, s, step)
    ensures StepInv(cfg, Apply(cfg, s, step))
  {
    match step
    case PassStep(order) => PassKeeps(cfg, s, order);
    case ExitStep =>
    case WorkerStep(id, ok) =>
      if ok && cfg.integrates {
        EnqueueKeeps(cfg, s, id);
      } else {
        WorkerSettlesKeeps(cfg, s, id, ok);
      }
    case BeginStep(id) => BeginKeeps(cfg, s, id);
    case EndStep(id, ok) => EndKeeps(cfg, s, id, ok);
    case SettleStep(id) =>
      if s.running[id].ok {
        CompleteKeeps(cfg, s, id);
      } else {
        FailKeeps(cfg, s, id);
      }
  }

  /** The invariant holds after every run, of any length, with any interleaving and any outcomes. */
  lemma {:induction false} RunKeeps(cfg: Config, steps: seq<Step>)
    requires ValidConfig(cfg) && IsRun(cfg, steps)
    ensures StepInv(cfg, Exec(cfg, steps))
  {
    if steps == [] {
      InitInv(cfg);
    } else {
      RunKeeps(cfg, steps[..|steps| - 1]);
      StepKeeps(cfg, Exec(cfg, steps[..|steps| - 1]), steps[|steps| - 1]);
    }
  }
}
