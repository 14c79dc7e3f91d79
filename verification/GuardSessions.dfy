/** The guard over all its sessions: what it holds for a key is the history of that key's events since
    it was last cleared, so the results about one history hold of the guard itself, with `clear` as
    one more reset. */
module GuardSessions {
  import opened Text
  import opened Guard
  import opened GuardHistory

  /** The events of a key since it was last cleared. */
  function Life(ops: seq<GuardOp>, key: string): seq<GuardEvent> {
    if ops == [] then []
    else
      var before, op := Life(ops[..|ops| - 1], key), ops[|ops| - 1];
      if op.key != key then before
      else
        match op
        case On(_, e) => before + [e]
        case Peek(_, _) => before
        case Drop(_) => []
  }

  /** When the record of a key was created, if it has one. */
  function Created(ops: seq<GuardOp>, key: string): Option<int> {
    if ops == [] then None
    else
      var before, op := Created(ops[..|ops| - 1], key), ops[|ops| - 1];
      if op.key != key then before
      else
        match op
        case On(_, e) => if before == None then Some(e.at) else before
        case Peek(_, at) => if before == None then Some(at) else before
        case Drop(_) => None
  }

  function CreatedOr(ops: seq<GuardOp>, key: string, at: int): int {
    var c := Created(ops, key);
    if c.Some? then c.value else at
  }

  /** The guard holds for each key exactly the replay of that key's life. */
  lemma {:induction false} SessionIsReplay(cfg: GuardConfig, ops: seq<GuardOp>, key: string)
    ensures key in GuardRun(cfg, ops) <==> Created(ops, key).Some?
    ensures key in GuardRun(cfg, ops) ==>
      GuardRun(cfg, ops)[key] == Replay(cfg, Created(ops, key).value, Life(ops, key))
    ensures key !in GuardRun(cfg, ops) ==> Life(ops, key) == []
  {
    if ops != [] {
      var p, op := ops[..|ops| - 1], ops[|ops| - 1];
      SessionIsReplay(cfg, p, key);
      if op.key == key && op.On? {
        ReplayAppend(cfg, CreatedOr(p, key, op.event.at), Life(p, key), op.event);
      }
    }
  }

  /** The record the next call on a key will find or create. */
  lemma NextSession(cfg: GuardConfig, ops: seq<GuardOp>, key: string, at: int)
    ensures SessionFor(GuardRun(cfg, ops), key, at) == Replay(cfg, CreatedOr(ops, key, at), Life(ops, key))
  {
    SessionIsReplay(cfg, ops, key);
  }

  // ---------- the results about histories, of the guard ----------

  /** After any calls on the guard, the counters it holds for a key are what the key's life says, and
      what is stored belongs to the current workspace. */
  lemma GuardHoldsHistory(cfg: GuardConfig, ops: seq<GuardOp>, key: string)
    requires ValidGuard(cfg) && key in GuardRun(cfg, ops)
    ensures Refines(cfg, GuardRun(cfg, ops)[key], Life(ops, key))
    ensures SessionInv(cfg, GuardRun(cfg, ops)[key])
  {
    SessionIsReplay(cfg, ops, key);
    GuardRefinesHistory(cfg, Created(ops, key).value, Life(ops, key));
    StoredStateIsCurrent(cfg, Created(ops, key).value, Life(ops, key));
  }

  /** What the guard answers to a call on `key` after the calls `ops`. */
  function Answer(cfg: GuardConfig, ops: seq<GuardOp>, key: string, e: GuardEvent): Decision
    requires e.Before?
  {
    Decide(cfg, SessionFor(GuardRun(cfg, ops), key, e.at), e.call, e.signal)
  }

  /** Exploration is refused exactly when the epoch of the key's life is latched, or this is more than
      the duplicateLimit-th attempt of one signature in it; nothing else is ever refused. */
  lemma AnswerFromLife(cfg: GuardConfig, ops: seq<GuardOp>, key: string, e: GuardEvent)
    requires e.Before?
    ensures var epoch := Epoch(cfg, Life(ops, key) + [e]);
      Answer(cfg, ops, key, e) ==
      if !cfg.explores(e.call.tool) then Admitted
      else if Latched(cfg.loopLimit, EvidenceKeys(cfg, epoch)) then LoopDetected
      else if Attempts(cfg, epoch, SignatureOf(e.call, e.signal)) > cfg.duplicateLimit then DuplicateTool
      else Admitted
  {
    NextSession(cfg, ops, key, e.at);
    DecisionFromHistory(cfg, CreatedOr(ops, key, e.at), Life(ops, key), e);
  }

  /** What the loop guard compares when `e` comes: the explorations completed since the last reset. */
  function FindsBefore(cfg: GuardConfig, ops: seq<GuardOp>, key: string, e: GuardEvent): seq<GuardEvent> {
    Finds(cfg, Epoch(cfg, Life(ops, key) + [e]))
  }

  /** Exploration is refused as a loop exactly when, since the last reset, loopLimit + 1 successive
      explorations brought the same result. */
  lemma LoopIffSameResults(cfg: GuardConfig, ops: seq<GuardOp>, key: string, e: GuardEvent)
    requires e.Before? && cfg.explores(e.call.tool) && AllToldApart(cfg, FindsBefore(cfg, ops, key, e))
    ensures Answer(cfg, ops, key, e) == LoopDetected <==> Repeats(cfg, FindsBefore(cfg, ops, key, e), cfg.loopLimit)
  {
    AnswerFromLife(cfg, ops, key, e);
    LatchedIffRepeats(cfg, Epoch(cfg, Life(ops, key) + [e]));
  }

  lemma NextDiffers(cfg: GuardConfig, finds: seq<GuardEvent>, i: nat, n: nat)
    requires n >= 1 && forall f :: f in finds ==> f.After?
    requires forall k :: 0 <= k < |finds| - 1 ==> !SameResult(cfg, finds[k + 1].result, finds[k].result)
    ensures !SameFinds(cfg, finds, i, n)
  {
    assert i + n < |finds| ==> !SameResult(cfg, finds[i + 1].result, finds[i].result);
  }

  /** So exploration whose successive results differ is never refused as a loop. */
  lemma DifferentResultsNeverLoop(cfg: GuardConfig, ops: seq<GuardOp>, key: string, e: GuardEvent)
    requires ValidGuard(cfg) && e.Before? && AllToldApart(cfg, FindsBefore(cfg, ops, key, e))
    requires var finds := FindsBefore(cfg, ops, key, e);
      forall i :: 0 <= i < |finds| - 1 ==> !SameResult(cfg, finds[i + 1].result, finds[i].result)
    ensures Answer(cfg, ops, key, e) != LoopDetected
  {
    var finds := FindsBefore(cfg, ops, key, e);
    if cfg.explores(e.call.tool) {
      LoopIffSameResults(cfg, ops, key, e);
      forall i: nat ensures !SameFinds(cfg, finds, i, cfg.loopLimit) {
        NextDiffers(cfg, finds, i, cfg.loopLimit);
      }
    } else {
      AnswerFromLife(cfg, ops, key, e);
    }
  }

  predicate AdmitsSignature(cfg: GuardConfig, ops: seq<GuardOp>, key: string, e: GuardEvent, sig: Signature) {
    && e.Before? && Answer(cfg, ops, key, e) == Admitted
    && cfg.explores(e.call.tool) && SignatureOf(e.call, e.signal) == sig
  }

  /** How many explorations with one signature the guard admitted for a key since its last reset:
      a workspace change, a completed write or verify tool, a compaction, or a clear. */
  function AdmittedSince(cfg: GuardConfig, ops: seq<GuardOp>, key: string, sig: Signature): nat {
    if ops == [] then 0
    else
      var p, op := ops[..|ops| - 1], ops[|ops| - 1];
      if op.key != key || op.Peek? then AdmittedSince(cfg, p, key, sig)
      else if op.Drop? then 0
      else
        (if IsReset(cfg, Life(p, key), op.event) then 0 else AdmittedSince(cfg, p, key, sig))
        + if AdmitsSignature(cfg, p, key, op.event, sig) then 1 else 0
  }

  lemma {:induction false} AdmittedWithinAttempts(cfg: GuardConfig, ops: seq<GuardOp>, key: string, sig: Signature)
    ensures AdmittedSince(cfg, ops, key, sig) <= Attempts(cfg, Epoch(cfg, Life(ops, key)), sig)
    ensures AdmittedSince(cfg, ops, key, sig) <= cfg.duplicateLimit
  {
    if ops != [] {
      var p, op := ops[..|ops| - 1], ops[|ops| - 1];
      AdmittedWithinAttempts(cfg, p, key, sig);
      if op.key == key && op.On? {
        var e, life := op.event, Life(p, key);
        EpochAppend(cfg, life, e);
        EpochStep(cfg, Kept(cfg, life, e), e);
        if e.Before? {
          AnswerFromLife(cfg, p, key, e);
        }
      }
    }
  }

  /** Between resets the guard admits at most duplicateLimit explorations with one signature. */
  lemma GuardBoundsDuplicates(cfg: GuardConfig, ops: seq<GuardOp>, key: string, sig: Signature)
    ensures AdmittedSince(cfg, ops, key, sig) <= cfg.duplicateLimit
  {
    AdmittedWithinAttempts(cfg, ops, key, sig);
  }

  /** The first call on a key straight after its compaction is admitted, whatever went before. */
  lemma GuardAdmitsAfterCompaction(cfg: GuardConfig, ops: seq<GuardOp>, key: string, at: int, e: GuardEvent)
    requires ValidGuard(cfg) && e.Before?
    ensures Answer(cfg, ops + [On(key, Compaction(at))], key, e) == Admitted
  {
    var all := ops + [On(key, Compaction(at))];
    assert all[..|ops|] == ops;
    NextSession(cfg, all, key, e.at);
    FirstAfterCompactionAdmitted(cfg, CreatedOr(all, key, e.at), Life(ops, key), at, e);
  }

  /** So is the first after a completed write or verify tool, and after a clear. */
  lemma GuardAdmitsAfterReset(cfg: GuardConfig, ops: seq<GuardOp>, key: string, op: GuardOp, e: GuardEvent)
    requires ValidGuard(cfg) && e.Before? && op.key == key
    requires op.Drop? || (op.On? && op.event.After? && op.event.completed
                          && cfg.writes(op.event.call.tool) && !cfg.explores(op.event.call.tool))
    ensures Answer(cfg, ops + [op], key, e) == Admitted
  {
    var all := ops + [op];
    assert all[..|ops|] == ops;
    NextSession(cfg, all, key, e.at);
    if op.On? {
      ReplayAppend(cfg, CreatedOr(all, key, e.at), Life(ops, key), op.event);
    }
  }

  /** And so is any call that sees another workspace than the last one did. */
  lemma GuardAdmitsInNewWorkspace(cfg: GuardConfig, ops: seq<GuardOp>, key: string, e: GuardEvent)
    requires ValidGuard(cfg) && e.Before?
    requires SignalOf(Life(ops, key)) != None && SignalOf(Life(ops, key)) != Some(e.signal)
    ensures Answer(cfg, ops, key, e) == Admitted
  {
    NextSession(cfg, ops, key, e.at);
    GuardRefinesHistory(cfg, CreatedOr(ops, key, e.at), Life(ops, key));
  }

  /** Nothing the guard forgets on: calls in the workspace `signal`, none of them completing a write or
      verify tool, and no compaction. */
  predicate Uneventful(cfg: GuardConfig, signal: string, e: GuardEvent) {
    match e
    case Before(_, sig, _, _) => sig == signal
    case After(call, sig, _, completed, _, _) => sig == signal && (completed ==> cfg.explores(call.tool) || !cfg.writes(call.tool))
    case Touched(_) => true
    case Compaction(_) => false
  }

  lemma {:induction false} EpochGoesOn(cfg: GuardConfig, a: seq<GuardEvent>, b: seq<GuardEvent>, signal: string)
    requires SignalOf(a) == Some(signal) && forall i :: 0 <= i < |b| ==> Uneventful(cfg, signal, b[i])
    ensures Epoch(cfg, a + b) == Epoch(cfg, a) + b && SignalOf(a + b) == Some(signal)
  {
    if b == [] {
      assert a + b == a;
    } else {
      var p, e := b[..|b| - 1], b[|b| - 1];
      EpochGoesOn(cfg, a, p, signal);
      assert a + b == (a + p) + [e] && Epoch(cfg, a) + p + [e] == Epoch(cfg, a) + b;
      assert Uneventful(cfg, signal, b[|b| - 1]);
      EpochAppend(cfg, a + p, e);
    }
  }

  lemma {:induction false} AttemptsConcat(cfg: GuardConfig, a: seq<GuardEvent>, b: seq<GuardEvent>, sig: Signature)
    ensures Attempts(cfg, a + b, sig) == Attempts(cfg, a, sig) + Attempts(cfg, b, sig)
  {
    if b == [] {
      assert a + b == a;
    } else {
      assert (a + b)[..|a + b| - 1] == a + b[..|b| - 1];
      AttemptsConcat(cfg, a, b[..|b| - 1], sig);
    }
  }

  /** An exploration already attempted duplicateLimit times, with nothing the guard forgets on since the
      first of them, is refused. */
  lemma GuardRefusesRepetition(cfg: GuardConfig, ops: seq<GuardOp>, key: string, a: seq<GuardEvent>, b: seq<GuardEvent>, e: GuardEvent)
    requires e.Before? && cfg.explores(e.call.tool) && Life(ops, key) == a + b
    requires SignalOf(a) == Some(e.signal) && forall i :: 0 <= i < |b| ==> Uneventful(cfg, e.signal, b[i])
    requires Attempts(cfg, b, SignatureOf(e.call, e.signal)) >= cfg.duplicateLimit
    ensures Answer(cfg, ops, key, e) != Admitted
  {
    var sig := SignatureOf(e.call, e.signal);
    AnswerFromLife(cfg, ops, key, e);
    EpochGoesOn(cfg, a, b, e.signal);
    EpochAppend(cfg, a + b, e);
    EpochStep(cfg, Epoch(cfg, a + b), e);
    AttemptsConcat(cfg, Epoch(cfg, a), b, sig);
  }

  /** A key's session is blocked with its counter below the limit exactly when its epoch was latched and
      its evidence streak has been broken since. */
  lemma GuardLatchOutlivesCounter(cfg: GuardConfig, ops: seq<GuardOp>, key: string)
    requires key in GuardRun(cfg, ops)
    ensures var s, keys := GuardRun(cfg, ops)[key], EvidenceKeys(cfg, Epoch(cfg, Life(ops, key)));
      s.loopBlocked && s.noProgress < cfg.loopLimit <==> Latched(cfg.loopLimit, keys) && TrailingRun(keys) <= cfg.loopLimit
  {
    SessionIsReplay(cfg, ops, key);
    LatchOutlivesCounter(cfg, Created(ops, key).value, Life(ops, key));
  }

  // ---------- open calls ----------

  predicate OpensAt(cfg: GuardConfig, ops: seq<GuardOp>, key: string, i: int, callID: string) {
    && 0 <= i < |ops| && ops[i].key == key && ops[i].On? && ops[i].event.Before? && ops[i].event.callID == callID
    && Answer(cfg, ops[..i], key, ops[i].event) == Admitted
  }

  /** The call is reported finished, or its session is cleared. */
  predicate Ends(op: GuardOp, key: string, callID: string) {
    op.key == key && (op.Drop? || (op.On? && Closes(op.event, callID)))
  }

  predicate OpenSince(cfg: GuardConfig, ops: seq<GuardOp>, key: string, callID: string, i: int) {
    OpensAt(cfg, ops, key, i, callID) && forall j :: i < j < |ops| ==> !Ends(ops[j], key, callID)
  }

  ghost predicate CallOpen(cfg: GuardConfig, ops: seq<GuardOp>, key: string, callID: string) {
    callID != "" && exists i :: OpenSince(cfg, ops, key, callID, i)
  }

  lemma CallOpenAppend(cfg: GuardConfig, ops: seq<GuardOp>, op: GuardOp, key: string, callID: string)
    ensures CallOpen(cfg, ops + [op], key, callID) <==>
      callID != "" && ((CallOpen(cfg, ops, key, callID) && !Ends(op, key, callID))
                       || OpensAt(cfg, ops + [op], key, |ops|, callID))
  {
    var all := ops + [op];
    assert forall i :: 0 <= i < |ops| ==> all[i] == ops[i] && all[..i] == ops[..i];
    if CallOpen(cfg, all, key, callID) {
      var i :| OpenSince(cfg, all, key, callID, i);
      if i < |ops| {
        assert !Ends(all[|ops|], key, callID);
        forall j | i < j < |ops| ensures !Ends(ops[j], key, callID) {
          assert !Ends(all[j], key, callID);
        }
        assert OpenSince(cfg, ops, key, callID, i);
      }
    }
    if CallOpen(cfg, ops, key, callID) && !Ends(op, key, callID) {
      var i :| OpenSince(cfg, ops, key, callID, i);
      assert OpenSince(cfg, all, key, callID, i);
    }
    if OpensAt(cfg, all, key, |ops|, callID) {
      assert OpenSince(cfg, all, key, callID, |ops|);
    }
  }

  lemma OpensLast(cfg: GuardConfig, ops: seq<GuardOp>, op: GuardOp, key: string, callID: string)
    ensures OpensAt(cfg, ops + [op], key, |ops|, callID) <==>
      op.key == key && op.On? && op.event.Before? && op.event.callID == callID && Answer(cfg, ops, key, op.event) == Admitted
  {
    assert (ops + [op])[..|ops|] == ops;
  }

  /** The active calls the guard holds for a key are exactly the calls it admitted for that key, not
      reported finished and not cleared since. */
  lemma {:induction false} GuardTracksOpenCalls(cfg: GuardConfig, ops: seq<GuardOp>, key: string)
    ensures forall c :: CallOpen(cfg, ops, key, c) <==> key in GuardRun(cfg, ops) && c in GuardRun(cfg, ops)[key].activeCalls
  {
    if ops != [] {
      var p, op := ops[..|ops| - 1], ops[|ops| - 1];
      assert ops == p + [op];
      GuardTracksOpenCalls(cfg, p, key);
      forall c ensures CallOpen(cfg, ops, key, c) <==> key in GuardRun(cfg, ops) && c in GuardRun(cfg, ops)[key].activeCalls {
        CallOpenAppend(cfg, p, op, key, c);
        OpensLast(cfg, p, op, key, c);
        if op.key == key && op.On? {
          ActiveAfter(cfg, SessionFor(GuardRun(cfg, p), key, op.event.at), op.event);
        }
      }
    }
  }

  /** The operation is a call on the key that the guard refuses. */
  predicate RefusedAt(cfg: GuardConfig, ops: seq<GuardOp>, key: string, i: int) {
    && 0 <= i < |ops| && ops[i].key == key && ops[i].On? && ops[i].event.Before?
    && Answer(cfg, ops[..i], key, ops[i].event) != Admitted
  }

  /** The last progress of a key is the time of its last event that was not a refused call. */
  lemma {:induction false} GuardProgressIsLatest(cfg: GuardConfig, ops: seq<GuardOp>, key: string, i: nat)
    requires i < |ops| && ops[i].key == key && ops[i].On? && !RefusedAt(cfg, ops, key, i)
    requires forall j :: i < j < |ops| && ops[j].key == key ==> ops[j].Peek? || RefusedAt(cfg, ops, key, j)
    ensures key in GuardRun(cfg, ops) && GuardRun(cfg, ops)[key].lastProgressAt == ops[i].event.at
  {
    var p, op := ops[..|ops| - 1], ops[|ops| - 1];
    forall j | 0 <= j < |p| ensures RefusedAt(cfg, p, key, j) == RefusedAt(cfg, ops, key, j) {
      assert p[..j] == ops[..j];
    }
    if i < |p| {
      GuardProgressIsLatest(cfg, p, key, i);
    }
    assert ops[..|p|] == p;
  }

  /** While a call of a key is open, the watchdog never reports its session as stalled. */
  lemma GuardNeverStallsOpenCall(cfg: GuardConfig, ops: seq<GuardOp>, key: string, callID: string, at: int, now: int, stallMs: int)
    requires CallOpen(cfg, ops, key, callID)
    ensures !Stalled(SessionFor(GuardRun(cfg, ops), key, at), now, stallMs)
  {
    GuardTracksOpenCalls(cfg, ops, key);
    assert callID in GuardRun(cfg, ops)[key].activeCalls;
  }

  /** With no open call, it does exactly when the session has been idle for the limit, which lies
      between thirty seconds and five minutes. */
  lemma GuardStallIff(cfg: GuardConfig, ops: seq<GuardOp>, key: string, now: int, stallMs: int)
    requires key in GuardRun(cfg, ops) && forall c :: !CallOpen(cfg, ops, key, c)
    ensures var s := GuardRun(cfg, ops)[key];
      var limit := if stallMs == 0 then 60000 else if stallMs < 30000 then 30000 else if stallMs > 300000 then 300000 else stallMs;
      Stalled(s, now, stallMs) <==> now - s.lastProgressAt >= limit
  {
    GuardTracksOpenCalls(cfg, ops, key);
    assert GuardRun(cfg, ops)[key].activeCalls == {};
  }
}
