/** Which event histories are legal, stated about the history alone, and what legality implies.
    This is the reference the scheduler's event log is proved against. */
module History {
  import opened Machine

  /** Results queued for integration, in the order their workers finished. */
  function Finishers(log: seq<Event>): seq<string> {
    if log == [] then []
    else
      var e := log[|log| - 1];
      Finishers(log[..|log| - 1]) + if e.WorkerFinished? then [e.id] else []
  }

  /** Tasks whose integration began, in that order. */
  function Integrated(log: seq<Event>): seq<string> {
    if log == [] then []
    else
      var e := log[|log| - 1];
      Integrated(log[..|log| - 1]) + if e.IntegrationStarted? then [e.id] else []
  }

  /** Tasks whose integration succeeded, in that order. */
  function Merged(log: seq<Event>): seq<string> {
    if log == [] then []
    else
      var e := log[|log| - 1];
      Merged(log[..|log| - 1]) + if e.IntegrationEnded? && e.ok then [e.id] else []
  }

  ghost predicate Ended(log: seq<Event>, id: string) {
    IntegrationEnded(id, true) in log || IntegrationEnded(id, false) in log
  }

  ghost predicate Terminated(log: seq<Event>, id: string) {
    Completed(id) in log || Failed(id) in log || exists r :: Blocked(id, r) in log
  }

  /** Whether event `e` may follow the history `p`. */
  ghost predicate Justified(cfg: Config, p: seq<Event>, e: Event) {
    match e
    case Started(id) =>
      && id in cfg.byID
      && Started(id) !in p
      && !Terminated(p, id)
      && (forall d :: d in Deps(cfg, id) ==> d in cfg.done0 || Completed(d) in p)
      && (cfg.failFast ==> forall x :: Failed(x) !in p)
    case WorkerFinished(id) =>
      cfg.integrates && Started(id) in p && WorkerFinished(id) !in p && !Terminated(p, id)
    case IntegrationStarted(id) =>
      && IntegrationStarted(id) !in p
      && |Integrated(p)| < |Finishers(p)| && Finishers(p)[|Integrated(p)|] == id
      && (forall x :: IntegrationStarted(x) in p ==> Ended(p, x))
      && !Terminated(p, id)
    case IntegrationEnded(id, _) =>
      IntegrationStarted(id) in p && !Ended(p, id) && !Terminated(p, id)
    case Completed(id) =>
      Started(id) in p && !Terminated(p, id) && (cfg.integrates ==> IntegrationEnded(id, true) in p)
    case Failed(id) =>
      Started(id) in p && !Terminated(p, id) && IntegrationEnded(id, true) !in p
    case Blocked(id, _) =>
      id in cfg.byID && Started(id) !in p && !Terminated(p, id)
  }

  ghost predicate Legal(cfg: Config, log: seq<Event>) {
    log == [] || (Legal(cfg, log[..|log| - 1]) && Justified(cfg, log[..|log| - 1], log[|log| - 1]))
  }

  lemma LegalAppend(cfg: Config, log: seq<Event>, e: Event)
    requires Legal(cfg, log) && Justified(cfg, log, e)
    ensures Legal(cfg, log + [e])
    ensures Finishers(log + [e]) == Finishers(log) + if e.WorkerFinished? then [e.id] else []
    ensures Integrated(log + [e]) == Integrated(log) + if e.IntegrationStarted? then [e.id] else []
    ensures Merged(log + [e]) == Merged(log) + if e.IntegrationEnded? && e.ok then [e.id] else []
  {
    assert (log + [e])[..|log|] == log;
  }

  lemma {:induction false} LegalAt(cfg: Config, log: seq<Event>, i: nat)
    requires Legal(cfg, log) && i < |log|
    ensures Legal(cfg, log[..i]) && Justified(cfg, log[..i], log[i])
  {
    if i < |log| - 1 {
      LegalAt(cfg, log[..|log| - 1], i);
      assert log[..|log| - 1][..i] == log[..i];
    }
  }

  /** Where an event of a history sits. */
  lemma Position(log: seq<Event>, e: Event) returns (i: nat)
    requires e in log
    ensures i < |log| && log[i] == e
  {
    i :| 0 <= i < |log| && log[i] == e;
  }

  // ---------- each task's own story ----------

  /** No event is ever repeated. */
  lemma {:induction false} OncePerTask(cfg: Config, log: seq<Event>)
    requires Legal(cfg, log)
    ensures forall i, j :: 0 <= i < j < |log| ==> log[i] != log[j]
  {
    forall i, j | 0 <= i < j < |log| ensures log[i] != log[j] {
      LegalAt(cfg, log, j);
      assert log[i] == log[..j][i];
      assert log[i] in log[..j];
    }
  }

  predicate IsTerminal(e: Event) {
    e.Completed? || e.Failed? || e.Blocked?
  }

  lemma {:induction false} OneTerminalEach(cfg: Config, log: seq<Event>, i: nat, j: nat)
    requires Legal(cfg, log) && i < j < |log|
    requires IsTerminal(log[i])
    ensures log[j].id != log[i].id
  {
    LegalAt(cfg, log, j);
    assert log[i] == log[..j][i] && log[i] in log[..j];
    match log[i]
    case Completed(id) => assert Completed(id) in log[..j];
    case Failed(id) => assert Failed(id) in log[..j];
    case Blocked(id, r) => assert Blocked(id, r) in log[..j];
    assert Terminated(log[..j], log[i].id);
  }

  /** A completed or failed task has a start event before its terminal event; a blocked task has none. */
  lemma StartBeforeTerminal(cfg: Config, log: seq<Event>, i: nat)
    requires Legal(cfg, log) && i < |log|
    ensures log[i].Completed? || log[i].Failed? ==> Started(log[i].id) in log[..i]
    ensures log[i].Blocked? ==> Started(log[i].id) !in log
  {
    LegalAt(cfg, log, i);
    if log[i].Blocked? {
      forall j | 0 <= j < |log| ensures log[j] != Started(log[i].id) {
        if j < i {
          assert log[..i][j] == log[j];
        } else if j > i {
          OneTerminalEach(cfg, log, i, j);
        }
      }
    }
  }

  // ---------- integration order ----------

  lemma {:induction false} FinishersMember(log: seq<Event>)
    ensures forall x :: x in Finishers(log) <==> WorkerFinished(x) in log
    ensures forall x :: x in Integrated(log) <==> IntegrationStarted(x) in log
    ensures forall x :: x in Merged(log) <==> IntegrationEnded(x, true) in log
  {
    if log != [] {
      FinishersMember(log[..|log| - 1]);
      assert log == log[..|log| - 1] + [log[|log| - 1]];
    }
  }

  /** Integrations begin in exactly the order the workers finished. */
  lemma {:induction false} FirstFinishedFirstIntegrated(cfg: Config, log: seq<Event>)
    requires Legal(cfg, log)
    ensures Integrated(log) <= Finishers(log)
  {
    if log != [] {
      FirstFinishedFirstIntegrated(cfg, log[..|log| - 1]);
    }
  }

  /** At most one integration runs at a time: a later one begins only after the earlier one ended. */
  lemma IntegrationsDoNotOverlap(cfg: Config, log: seq<Event>, i: nat, j: nat)
    requires Legal(cfg, log) && i < j < |log|
    requires log[i].IntegrationStarted? && log[j].IntegrationStarted?
    ensures exists k :: i < k < j && log[k].IntegrationEnded? && log[k].id == log[i].id
  {
    LegalAt(cfg, log, j);
    var id := log[i].id;
    assert log[..j][i] == IntegrationStarted(id);
    var ok :| IntegrationEnded(id, ok) in log[..j];
    var k := Position(log[..j], IntegrationEnded(id, ok));
    LegalAt(cfg, log, k);
    var b := Position(log[..k], IntegrationStarted(id));
    OncePerTask(cfg, log);
    assert log[b] == log[i];
  }

  /** A task starts only after every dependency in the run has completed, and (with an integrate
      callback) after that dependency's integration has succeeded. */
  lemma StartsAfterDependencies(cfg: Config, log: seq<Event>, i: nat, d: string)
    requires Legal(cfg, log) && i < |log| && log[i].Started?
    requires d in Deps(cfg, log[i].id) && d !in cfg.done0
    ensures Completed(d) in log[..i]
    ensures cfg.integrates ==> IntegrationEnded(d, true) in log[..i]
  {
    LegalAt(cfg, log, i);
    var j := Position(log[..i], Completed(d));
    LegalAt(cfg, log, j);
    if cfg.integrates {
      var k := Position(log[..j], IntegrationEnded(d, true));
      assert log[..i][k] == log[..j][k];
    }
  }

  /** The integration log is a linear extension of the dependency graph: when a task's integration
      begins, every dependency in the run has already been integrated successfully. */
  lemma IntegrationRespectsDependencies(cfg: Config, log: seq<Event>, i: nat, d: string)
    requires Legal(cfg, log) && i < |log| && log[i].IntegrationStarted?
    requires d in Deps(cfg, log[i].id) && d !in cfg.done0
    ensures IntegrationEnded(d, true) in log[..i]
  {
    LegalAt(cfg, log, i);
    var id := log[i].id;
    FinishersMember(log[..i]);
    var j := Position(log[..i], WorkerFinished(id));
    LegalAt(cfg, log, j);
    var k := Position(log[..j], Started(id));
    assert log[k] == Started(id);
    StartsAfterDependencies(cfg, log, k, d);
    var m := Position(log[..k], IntegrationEnded(d, true));
    assert log[..i][m] == log[..k][m];
  }

  /** Tasks are merged in an order that respects the dependency graph. */
  lemma {:induction false} MergesFollowDependencies(cfg: Config, log: seq<Event>, i: nat, d: string)
    requires Legal(cfg, log) && i < |Merged(log)|
    requires d in Deps(cfg, Merged(log)[i]) && d !in cfg.done0
    ensures d in Merged(log)[..i]
  {
    var p, e := log[..|log| - 1], log[|log| - 1];
    if i < |Merged(p)| {
      MergesFollowDependencies(cfg, p, i, d);
      assert Merged(log)[..i] == Merged(p)[..i];
    } else {
      var j := Position(p, IntegrationStarted(e.id));
      IntegrationRespectsDependencies(cfg, p, j, d);
      assert IntegrationEnded(d, true) in p;
      FinishersMember(p);
      assert Merged(log)[..i] == Merged(p);
    }
  }

  /** A task completes only after each dependency in the run has completed. */
  lemma CompletionsFollowDependencies(cfg: Config, log: seq<Event>, i: nat, d: string)
    requires Legal(cfg, log) && i < |log| && log[i].Completed?
    requires d in Deps(cfg, log[i].id) && d !in cfg.done0
    ensures Completed(d) in log[..i]
  {
    LegalAt(cfg, log, i);
    var k := Position(log[..i], Started(log[i].id));
    assert log[k] == Started(log[i].id);
    StartsAfterDependencies(cfg, log, k, d);
    var m := Position(log[..k], Completed(d));
    assert log[..i][m] == log[..k][m];
  }

  /** Under failFast nothing starts after the first failure. */
  lemma FailFastStopsStarts(cfg: Config, log: seq<Event>, i: nat, j: nat)
    requires Legal(cfg, log) && cfg.failFast && i < j < |log|
    requires log[i].Failed?
    ensures !log[j].Started?
  {
    LegalAt(cfg, log, j);
    assert log[..j][i] == Failed(log[i].id);
  }
}
