/** Resuming after a compaction (index.js, lines 402-437 and 510-531): the hooks around one executor
    session, and when the executor wait may return normally. */
module Resume {
  import opened Text
  import opened Canonical
  import opened Guard
  import opened GuardHistory
  import opened RuntimeGuard

  /** What the hooks of one session see. A compaction's checkpoint is persisted or is not; only a
      persisted one has any effect. */
  datatype HookEvent =
    | ToolCall(call: Call, signal: string, callID: string, at: int)
    | ToolDone(call: Call, signal: string, callID: string, completed: bool, result: Json, at: int)
    | Progress(at: int)
    | CompactionHook(persisted: bool, at: int)

  function GuardEvents(e: HookEvent): seq<GuardEvent> {
    match e
    case ToolCall(call, signal, callID, at) => [Before(call, signal, callID, at)]
    case ToolDone(call, signal, callID, completed, result, at) => [After(call, signal, callID, completed, result, at)]
    case Progress(at) => [Touched(at)]
    case CompactionHook(persisted, at) => if persisted then [Compaction(at)] else []
  }

  /** The guard's view of a session trace. */
  function GuardTrace(trace: seq<HookEvent>): seq<GuardEvent> {
    if trace == [] then [] else GuardTrace(trace[..|trace| - 1]) + GuardEvents(trace[|trace| - 1])
  }

  /** The hook lets the call through; a blocked call is thrown out of the hook. */
  predicate LetThrough(cfg: GuardConfig, created: int, before: seq<HookEvent>, e: HookEvent) {
    e.ToolCall? && IsAdmitted(cfg, created, GuardTrace(before), Before(e.call, e.signal, e.callID, e.at))
  }

  /** The assignment's resume flag after a trace. */
  function ResumeRequired(cfg: GuardConfig, created: int, trace: seq<HookEvent>): bool {
    if trace == [] then false
    else
      var before, e := trace[..|trace| - 1], trace[|trace| - 1];
      if e.CompactionHook? && e.persisted then true
      else if LetThrough(cfg, created, before, e) then false
      else ResumeRequired(cfg, created, before)
  }

  predicate PersistedAt(trace: seq<HookEvent>, i: int) {
    0 <= i < |trace| && trace[i].CompactionHook? && trace[i].persisted
  }

  predicate LetThroughAt(cfg: GuardConfig, created: int, trace: seq<HookEvent>, j: int) {
    0 <= j < |trace| && LetThrough(cfg, created, trace[..j], trace[j])
  }

  /** Every compaction whose checkpoint was persisted was followed by an admitted tool call. */
  ghost predicate AllResumed(cfg: GuardConfig, created: int, trace: seq<HookEvent>) {
    forall i :: PersistedAt(trace, i) ==> ResumedAfter(cfg, created, trace, i)
  }

  ghost predicate ResumedAfter(cfg: GuardConfig, created: int, trace: seq<HookEvent>, i: int) {
    exists j :: i < j && LetThroughAt(cfg, created, trace, j)
  }

  lemma PrefixPositions(cfg: GuardConfig, created: int, trace: seq<HookEvent>)
    requires trace != []
    ensures var before := trace[..|trace| - 1];
      && (forall i :: 0 <= i < |before| ==> PersistedAt(before, i) == PersistedAt(trace, i))
      && (forall j :: 0 <= j < |before| ==> LetThroughAt(cfg, created, before, j) == LetThroughAt(cfg, created, trace, j))
  {
    var before := trace[..|trace| - 1];
    assert forall j :: 0 <= j < |before| ==> before[..j] == trace[..j];
  }

  lemma ResumedInPrefix(cfg: GuardConfig, created: int, trace: seq<HookEvent>, i: int)
    requires trace != [] && !LetThroughAt(cfg, created, trace, |trace| - 1)
    ensures ResumedAfter(cfg, created, trace, i) <==> ResumedAfter(cfg, created, trace[..|trace| - 1], i)
  {
    var before := trace[..|trace| - 1];
    PrefixPositions(cfg, created, trace);
    if ResumedAfter(cfg, created, trace, i) {
      var j :| i < j && LetThroughAt(cfg, created, trace, j);
      assert LetThroughAt(cfg, created, before, j);
    }
    if ResumedAfter(cfg, created, before, i) {
      var j :| i < j && LetThroughAt(cfg, created, before, j);
      assert LetThroughAt(cfg, created, trace, j);
    }
  }

  /** The executor wait can return normally exactly when every persisted compaction was followed by
      at least one admitted tool call; a blocked call never counts. */
  lemma {:induction false} WaitReturnsIffResumed(cfg: GuardConfig, created: int, trace: seq<HookEvent>)
    ensures !ResumeRequired(cfg, created, trace) <==> AllResumed(cfg, created, trace)
  {
    if trace != [] {
      var before, e, n := trace[..|trace| - 1], trace[|trace| - 1], |trace| - 1;
      WaitReturnsIffResumed(cfg, created, before);
      PrefixPositions(cfg, created, trace);
      assert trace[..n] == before;
      if e.CompactionHook? && e.persisted {
        assert PersistedAt(trace, n) && !ResumedAfter(cfg, created, trace, n);
      } else if LetThrough(cfg, created, before, e) {
        assert LetThroughAt(cfg, created, trace, n);
        forall i | PersistedAt(trace, i) ensures ResumedAfter(cfg, created, trace, i) {
        }
      } else {
        forall i ensures ResumedAfter(cfg, created, trace, i) <==> ResumedAfter(cfg, created, before, i) {
          ResumedInPrefix(cfg, created, trace, i);
        }
        assert forall i :: PersistedAt(trace, i) <==> PersistedAt(before, i);
      }
    }
  }

  /** A tool call straight after a persisted compaction is let through and ends the duty to resume. */
  lemma FirstCallResumes(cfg: GuardConfig, created: int, trace: seq<HookEvent>, at: int, e: HookEvent)
    requires ValidGuard(cfg) && e.ToolCall?
    ensures ResumeRequired(cfg, created, trace + [CompactionHook(true, at)])
    ensures !ResumeRequired(cfg, created, trace + [CompactionHook(true, at), e])
  {
    var c := CompactionHook(true, at);
    assert (trace + [c])[..|trace|] == trace;
    assert (trace + [c, e])[..|trace| + 1] == trace + [c];
    FirstAfterCompactionAdmitted(cfg, created, GuardTrace(trace), at, Before(e.call, e.signal, e.callID, e.at));
  }

  /** A compaction whose checkpoint could not be persisted changes nothing. */
  lemma UnpersistedIsInvisible(cfg: GuardConfig, created: int, trace: seq<HookEvent>, at: int)
    ensures ResumeRequired(cfg, created, trace + [CompactionHook(false, at)]) == ResumeRequired(cfg, created, trace)
    ensures GuardTrace(trace + [CompactionHook(false, at)]) == GuardTrace(trace)
  {
    assert (trace + [CompactionHook(false, at)])[..|trace|] == trace;
  }

  // ---------- what the hooks tell the guard ----------

  predicate DoneAt(trace: seq<HookEvent>, j: int, callID: string) {
    0 <= j < |trace| && trace[j].ToolDone? && trace[j].callID == callID
  }

  /** The call let through at `i` has not been reported done. */
  ghost predicate OpenFrom(cfg: GuardConfig, created: int, trace: seq<HookEvent>, i: int, callID: string) {
    LetThroughAt(cfg, created, trace, i) && trace[i].callID == callID && forall j :: i < j ==> !DoneAt(trace, j, callID)
  }

  ghost predicate OpenInTrace(cfg: GuardConfig, created: int, trace: seq<HookEvent>, callID: string) {
    callID != "" && exists i :: OpenFrom(cfg, created, trace, i, callID)
  }

  lemma OpenAppend(cfg: GuardConfig, created: int, before: seq<HookEvent>, e: HookEvent, callID: string)
    ensures OpenInTrace(cfg, created, before + [e], callID) <==>
      callID != "" && ((OpenInTrace(cfg, created, before, callID) && !(e.ToolDone? && e.callID == callID))
                       || (LetThrough(cfg, created, before, e) && e.callID == callID))
  {
    var trace, n := before + [e], |before|;
    assert trace[..|trace| - 1] == before && trace[..n] == before && trace[n] == e;
    PrefixPositions(cfg, created, trace);
    if OpenInTrace(cfg, created, trace, callID) {
      var i :| OpenFrom(cfg, created, trace, i, callID);
      if i < n {
        assert !DoneAt(trace, n, callID);
        forall j | i < j ensures !DoneAt(before, j, callID) {
          assert !DoneAt(trace, j, callID);
        }
        assert OpenFrom(cfg, created, before, i, callID);
      }
    }
    if OpenInTrace(cfg, created, before, callID) && !(e.ToolDone? && e.callID == callID) {
      var i :| OpenFrom(cfg, created, before, i, callID);
      forall j | i < j ensures !DoneAt(trace, j, callID) {
        assert !DoneAt(before, j, callID);
      }
      assert OpenFrom(cfg, created, trace, i, callID);
    }
    if LetThrough(cfg, created, before, e) && e.callID == callID {
      assert OpenFrom(cfg, created, trace, n, callID);
    }
  }

  /** The calls the guard holds as active for a session, and for which the watchdog waits, are those the
      hooks let through and have not reported done. */
  lemma {:induction false} HooksTrackOpenCalls(cfg: GuardConfig, created: int, trace: seq<HookEvent>)
    ensures forall c :: c in Replay(cfg, created, GuardTrace(trace)).activeCalls <==> OpenInTrace(cfg, created, trace, c)
  {
    if trace != [] {
      var before, e := trace[..|trace| - 1], trace[|trace| - 1];
      assert trace == before + [e];
      HooksTrackOpenCalls(cfg, created, before);
      forall c ensures c in Replay(cfg, created, GuardTrace(trace)).activeCalls <==> OpenInTrace(cfg, created, trace, c) {
        OpenAppend(cfg, created, before, e, c);
        HookReplay(cfg, created, before, e);
        if GuardEvents(e) != [] {
          ActiveAfter(cfg, Replay(cfg, created, GuardTrace(before)), GuardEvents(e)[0]);
        }
      }
    }
  }

  lemma HookReplay(cfg: GuardConfig, created: int, before: seq<HookEvent>, e: HookEvent)
    ensures var s := Replay(cfg, created, GuardTrace(before));
      Replay(cfg, created, GuardTrace(before + [e])) == if GuardEvents(e) == [] then s else SessionStep(cfg, s, GuardEvents(e)[0])
  {
    assert (before + [e])[..|before|] == before;
    if GuardEvents(e) == [] {
      assert GuardTrace(before) + [] == GuardTrace(before);
    } else {
      ReplayAppend(cfg, created, GuardTrace(before), GuardEvents(e)[0]);
    }
  }

  /** `done` reported `n` times over. */
  function Again(trace: seq<HookEvent>, done: HookEvent, n: nat): seq<HookEvent> {
    if n == 0 then trace else Again(trace, done, n - 1) + [done]
  }

  /** The last `n` explorations brought the result of `done`. */
  ghost predicate Learnt(cfg: GuardConfig, s: Session, done: HookEvent, n: nat)
    requires done.ToolDone?
  {
    && s.lastSignal == Some(done.signal) && s.lastEvidence == Some(EvidenceOf(cfg, done.signal, done.result))
    && s.noProgress >= n - 1 && (s.noProgress >= cfg.loopLimit ==> s.loopBlocked)
  }

  lemma DoneLearns(cfg: GuardConfig, s: Session, done: HookEvent, n: nat)
    requires done.ToolDone? && done.completed && cfg.explores(done.call.tool)
    requires n > 0 ==> Learnt(cfg, s, done, n)
    ensures Learnt(cfg, SessionStep(cfg, s, GuardEvents(done)[0]), done, n + 1)
  {
  }

  lemma {:induction false} AgainLearns(cfg: GuardConfig, created: int, trace: seq<HookEvent>, done: HookEvent, n: nat)
    requires done.ToolDone? && done.completed && cfg.explores(done.call.tool) && n >= 1
    ensures Learnt(cfg, Replay(cfg, created, GuardTrace(Again(trace, done, n))), done, n)
  {
    if n > 1 {
      AgainLearns(cfg, created, trace, done, n - 1);
    }
    var before := Again(trace, done, n - 1);
    HookReplay(cfg, created, before, done);
    DoneLearns(cfg, Replay(cfg, created, GuardTrace(before)), done, n - 1);
  }

  /** An exploration whose result was reported loopLimit + 1 times in a row bars every further
      exploration in that workspace at the hook. */
  lemma RepeatedResultsBar(cfg: GuardConfig, created: int, trace: seq<HookEvent>, done: HookEvent, e: HookEvent)
    requires done.ToolDone? && done.completed && cfg.explores(done.call.tool)
    requires e.ToolCall? && cfg.explores(e.call.tool) && e.signal == done.signal
    ensures !LetThrough(cfg, created, Again(trace, done, cfg.loopLimit + 1), e)
  {
    AgainLearns(cfg, created, trace, done, cfg.loopLimit + 1);
  }

  // ---------- the hooks as they are written ----------

  /** What is kept for one assigned session: the guard's record and the resume flag. */
  datatype Status = Status(session: Session, resume: bool)

  /** What one hook makes of it. */
  function HookStep(cfg: GuardConfig, s: Status, e: HookEvent): Status {
    match e
    case ToolCall(call, signal, callID, at) =>
      Status(SessionStep(cfg, s.session, Before(call, signal, callID, at)),
             s.resume && Decide(cfg, s.session, call, signal) != Admitted)
    case CompactionHook(persisted, at) =>
      if persisted then Status(SessionStep(cfg, s.session, Compaction(at)), true) else s
    case ToolDone(call, signal, callID, completed, result, at) =>
      s.(session := SessionStep(cfg, s.session, After(call, signal, callID, completed, result, at)))
    case Progress(at) => s.(session := SessionStep(cfg, s.session, Touched(at)))
  }

  function StatusOf(cfg: GuardConfig, created: int, trace: seq<HookEvent>): Status {
    if trace == [] then Status(NewSession(created), false)
    else HookStep(cfg, StatusOf(cfg, created, trace[..|trace| - 1]), trace[|trace| - 1])
  }

  lemma StatusAppend(cfg: GuardConfig, created: int, trace: seq<HookEvent>, e: HookEvent)
    ensures StatusOf(cfg, created, trace + [e]) == HookStep(cfg, StatusOf(cfg, created, trace), e)
  {
    assert (trace + [e])[..|trace|] == trace;
  }

  lemma HookSession(cfg: GuardConfig, s: Status, e: HookEvent)
    ensures HookStep(cfg, s, e).session ==
      if GuardEvents(e) == [] then s.session else SessionStep(cfg, s.session, GuardEvents(e)[0])
  {
  }

  lemma HookResume(cfg: GuardConfig, created: int, before: seq<HookEvent>, s: Status, e: HookEvent)
    requires s == Status(Replay(cfg, created, GuardTrace(before)), ResumeRequired(cfg, created, before))
    ensures HookStep(cfg, s, e).resume == ResumeRequired(cfg, created, before + [e])
  {
    assert (before + [e])[..|before|] == before;
  }

  /** Step by step this is the replay of the guard's view of the trace, and the flag the trace says. */
  lemma {:induction false} StatusIs(cfg: GuardConfig, created: int, trace: seq<HookEvent>)
    ensures StatusOf(cfg, created, trace) == Status(Replay(cfg, created, GuardTrace(trace)), ResumeRequired(cfg, created, trace))
  {
    if trace != [] {
      var before, e := trace[..|trace| - 1], trace[|trace| - 1];
      var s := StatusOf(cfg, created, before);
      StatusIs(cfg, created, before);
      assert trace == before + [e];
      HookReplay(cfg, created, before, e);
      HookSession(cfg, s, e);
      HookResume(cfg, created, before, s, e);
    }
  }

  lemma StatusMeaning(cfg: GuardConfig, created: int, trace: seq<HookEvent>)
    ensures StatusOf(cfg, created, trace).session == Replay(cfg, created, GuardTrace(trace))
    ensures StatusOf(cfg, created, trace).resume == ResumeRequired(cfg, created, trace)
  {
    StatusIs(cfg, created, trace);
  }

  lemma CallDecided(cfg: GuardConfig, created: int, trace: seq<HookEvent>, call: Call, signal: string, callID: string, at: int)
    ensures var s, e := StatusOf(cfg, created, trace), ToolCall(call, signal, callID, at);
      && (LetThrough(cfg, created, trace, e) <==> Decide(cfg, s.session, call, signal) == Admitted)
      && StatusOf(cfg, created, trace + [e]) ==
           Status(SessionStep(cfg, s.session, Before(call, signal, callID, at)), s.resume && !LetThrough(cfg, created, trace, e))
  {
    StatusMeaning(cfg, created, trace);
    StatusAppend(cfg, created, trace, ToolCall(call, signal, callID, at));
  }

  /** One executor session that is assigned to a task, under its own key in the guard it shares with
      all other sessions. */
  class ExecutorSession {
    const guard: RuntimeGuard
    const id: string
    var resumeRequired: bool
    ghost const created: int
    ghost var trace: seq<HookEvent>

    ghost predicate Valid()
      reads this, guard, guard.sessions.Values
    {
      && guard.Valid() && id != "" && id in guard.View()
      && Status(guard.View()[id], resumeRequired) == StatusOf(guard.cfg, created, trace)
    }

    /** A session under an id the host has not used before is assigned, and the guard touched. */
    constructor (guard: RuntimeGuard, id: string, at: int)
      requires guard.Valid() && id != "" && id !in guard.View()
      modifies guard, guard.sessions.Values
      ensures Valid() && this.guard == guard && this.id == id && created == at && trace == [Progress(at)]
      ensures fresh(guard.sessions.Values - old(guard.sessions.Values))
      ensures guard.View() == GuardStep(guard.cfg, old(guard.View()), On(id, Touched(at)))
    {
      this.guard, this.id := guard, id;
      resumeRequired, created, trace := false, at, [Progress(at)];
      new;
      guard.Touch(id, at);
      StatusAppend(guard.cfg, at, [], Progress(at));
      assert [] + [Progress(at)] == [Progress(at)];
    }

    /** The execute.before hook: a blocked call is thrown; the first admitted one resumes. */
    method ExecuteBefore(call: Call, signal: string, callID: string, at: int) returns (thrown: bool)
      requires Valid()
      modifies this, guard, guard.sessions.Values
      ensures Valid() && fresh(guard.sessions.Values - old(guard.sessions.Values))
      ensures trace == old(trace) + [ToolCall(call, signal, callID, at)]
      ensures thrown <==> !LetThrough(guard.cfg, created, old(trace), ToolCall(call, signal, callID, at))
      ensures guard.View() == GuardStep(guard.cfg, old(guard.View()), On(id, Before(call, signal, callID, at)))
    {
      CallDecided(guard.cfg, created, trace, call, signal, callID, at);
      trace := trace + [ToolCall(call, signal, callID, at)];
      var decision := guard.Before(id, call, signal, callID, at);
      if decision != Admitted {
        return true;
      }
      if resumeRequired {
        resumeRequired := false;
      }
      return false;
    }

    method ExecuteAfter(call: Call, signal: string, callID: string, completed: bool, result: Json, at: int)
      requires Valid()
      modifies this, guard, guard.sessions.Values
      ensures Valid() && fresh(guard.sessions.Values - old(guard.sessions.Values))
      ensures trace == old(trace) + [ToolDone(call, signal, callID, completed, result, at)]
      ensures guard.View() ==
        GuardStep(guard.cfg, old(guard.View()), On(id, After(call, signal, callID, completed, result, at)))
    {
      ghost var e := ToolDone(call, signal, callID, completed, result, at);
      StatusAppend(guard.cfg, created, trace, e);
      guard.After(id, call, signal, callID, completed, result, at);
      trace := trace + [e];
    }

    /** The wait saw the session's context change. */
    method Progressed(at: int)
      requires Valid()
      modifies this, guard, guard.sessions.Values
      ensures Valid() && fresh(guard.sessions.Values - old(guard.sessions.Values))
      ensures trace == old(trace) + [Progress(at)]
      ensures guard.View() == GuardStep(guard.cfg, old(guard.View()), On(id, Touched(at)))
    {
      StatusAppend(guard.cfg, created, trace, Progress(at));
      guard.Touch(id, at);
      trace := trace + [Progress(at)];
    }

    /** The compaction hook; `persisted` is whether the checkpoint command succeeded. */
    method Compact(persisted: bool, at: int)
      requires Valid()
      modifies this, guard, guard.sessions.Values
      ensures Valid() && fresh(guard.sessions.Values - old(guard.sessions.Values))
      ensures trace == old(trace) + [CompactionHook(persisted, at)]
      ensures guard.View() == if persisted then GuardStep(guard.cfg, old(guard.View()), On(id, Compaction(at))) else old(guard.View())
    {
      if persisted {
        Checkpointed(at);
      } else {
        StatusAppend(guard.cfg, created, trace, CompactionHook(false, at));
        trace := trace + [CompactionHook(false, at)];
      }
    }

    /** The checkpoint was persisted: the session must resume, and the guard forgets what it learnt. */
    method Checkpointed(at: int)
      requires Valid()
      modifies this, guard, guard.sessions.Values
      ensures Valid() && fresh(guard.sessions.Values - old(guard.sessions.Values))
      ensures trace == old(trace) + [CompactionHook(true, at)]
      ensures guard.View() == GuardStep(guard.cfg, old(guard.View()), On(id, Compaction(at)))
    {
      StatusAppend(guard.cfg, created, trace, CompactionHook(true, at));
      trace := trace + [CompactionHook(true, at)];
      resumeRequired := true;
      guard.Compacted(id, at);
    }

    /** The check at the end of the executor wait: it passes exactly when every compaction whose
        checkpoint was persisted has been followed by an admitted call. */
    method FinishWait() returns (stalledOnResume: bool)
      requires Valid()
      ensures !stalledOnResume <==> AllResumed(guard.cfg, created, trace)
    {
      StatusMeaning(guard.cfg, created, trace);
      WaitReturnsIffResumed(guard.cfg, created, trace);
      return resumeRequired;
    }
  }
}
