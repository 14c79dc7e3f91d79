/** The per-session runtime guard (runtime-guard.js, lines 82-97 and 124-265). Hashes are modelled as
    injective: a signature is its canonical argument. Tool classes are two arbitrary predicates. */
module Guard {
  import opened Text
  import opened Canonical

  /** The limits, and what the guard takes from its surroundings: the two classes of tools and
      `JSON.stringify`. */
  datatype GuardConfig = GuardConfig(
    duplicateLimit: nat,
    loopLimit: nat,
    explores: string -> bool,
    writes: string -> bool,
    stringify: Json -> string)

  /** Absent or zero options take their defaults; the limits are at least two and four. */
  function MakeConfig(duplicateLimit: int, loopLimit: int, explores: string -> bool, writes: string -> bool,
                      stringify: Json -> string): (c: GuardConfig)
    ensures ValidGuard(c)
  {
    var d := if duplicateLimit == 0 then 3 else duplicateLimit;
    var l := if loopLimit == 0 then 6 else loopLimit;
    GuardConfig(if d < 2 then 2 else d, if l < 4 then 4 else l, explores, writes, stringify)
  }

  predicate ValidGuard(c: GuardConfig) {
    c.duplicateLimit >= 2 && c.loopLimit >= 4
  }

  datatype Call = Call(tool: string, input: Json, cwd: string)

  datatype Signature = Signature(tool: string, input: Json, cwd: string, signal: string)

  datatype Evidence = Evidence(signal: string, text: string)

  /** The values JavaScript takes for absent. */
  predicate Falsy(v: Json) {
    v == Null || v == Bool(false) || v == Num(0.0) || v == Str("")
  }

  /** An absent input counts as the empty object. */
  function GivenInput(v: Json): Json {
    if Falsy(v) then Obj([]) else v
  }

  function SignatureOf(call: Call, signal: string): Signature {
    Signature(call.tool, Canon(GivenInput(call.input)), call.cwd, signal)
  }

  /** What is hashed of a result: a string as it is, anything else as the JSON of its canonical form. */
  function HashText(cfg: GuardConfig, v: Json): string {
    if Falsy(v) then "" else if v.Str? then v.s else cfg.stringify(Canon(v))
  }

  function EvidenceOf(cfg: GuardConfig, signal: string, result: Json): Evidence {
    Evidence(signal, HashText(cfg, result))
  }

  /** Equivalent tool inputs share one signature, hence one duplicate counter; others do not. */
  lemma SameSignatureIff(a: Call, b: Call, signal: string, signal': string)
    requires WellFormed(a.input) && WellFormed(b.input)
    ensures SignatureOf(a, signal) == SignatureOf(b, signal') <==>
      && a.tool == b.tool && a.cwd == b.cwd && signal == signal'
      && SameUpToKeyOrder(GivenInput(a.input), GivenInput(b.input))
  {
    CanonIff(GivenInput(a.input), GivenInput(b.input));
  }

  /** An input of null, false, zero or the empty string counts as the empty object, and only such a one is
      taken for something it is not. */
  lemma AbsentInputs(tool: string, input: Json, cwd: string, signal: string)
    requires WellFormed(input)
    ensures SignatureOf(Call(tool, input, cwd), signal) == SignatureOf(Call(tool, Obj([]), cwd), signal) <==>
      input == Null || input == Bool(false) || input == Num(0.0) || input == Str("") || input == Obj([])
  {
    CanonIff(GivenInput(input), Obj([]));
  }

  /** Results that differ only in key order are the same evidence, and so is a string with the JSON
      text of a result. */
  lemma SameEvidence(cfg: GuardConfig, signal: string, v: Json, w: Json)
    requires WellFormed(v) && WellFormed(w) && SameUpToKeyOrder(v, w)
    ensures EvidenceOf(cfg, signal, v) == EvidenceOf(cfg, signal, w)
    ensures !Falsy(v) && !v.Str? && cfg.stringify(Canon(v)) != "" ==>
      EvidenceOf(cfg, signal, Str(cfg.stringify(Canon(w)))) == EvidenceOf(cfg, signal, v)
  {
    CanonIff(v, w);
  }

  /** The same finding, told by the results alone: both absent, equal strings, values that differ only in
      key order, or a string and a value it is the JSON text of. */
  ghost predicate SameResult(cfg: GuardConfig, v: Json, w: Json) {
    if Falsy(v) || Falsy(w) then Falsy(v) && Falsy(w)
    else if v.Str? && w.Str? then v.s == w.s
    else if v.Str? then v.s == cfg.stringify(Canon(w))
    else if w.Str? then w.s == cfg.stringify(Canon(v))
    else SameUpToKeyOrder(v, w)
  }

  /** `stringify` writes something for both values, and not the same unless their canonical forms are. */
  predicate TellsApart(cfg: GuardConfig, v: Json, w: Json) {
    && WellFormed(v) && WellFormed(w)
    && (!v.Str? && !w.Str? && cfg.stringify(Canon(v)) == cfg.stringify(Canon(w)) ==> Canon(v) == Canon(w))
    && (!v.Str? ==> cfg.stringify(Canon(v)) != "") && (!w.Str? ==> cfg.stringify(Canon(w)) != "")
  }

  /** Different results are different evidence: strings always, other values as far as their JSON text
      tells them apart. */
  lemma SameEvidenceIff(cfg: GuardConfig, signal: string, signal': string, v: Json, w: Json)
    ensures v.Str? && w.Str? ==> (EvidenceOf(cfg, signal, v) == EvidenceOf(cfg, signal', w) <==> signal == signal' && v.s == w.s)
    ensures TellsApart(cfg, v, w) ==>
      (EvidenceOf(cfg, signal, v) == EvidenceOf(cfg, signal', w) <==> signal == signal' && SameResult(cfg, v, w))
  {
    if TellsApart(cfg, v, w) {
      CanonIff(v, w);
    }
  }

  /** The limits are the options: absent or zero means three and six, and they are never below two and
      four. */
  lemma LimitsAre(duplicateLimit: int, loopLimit: int, explores: string -> bool, writes: string -> bool, stringify: Json -> string)
    ensures var c := MakeConfig(duplicateLimit, loopLimit, explores, writes, stringify);
      && c.duplicateLimit == (if duplicateLimit == 0 then 3 else if duplicateLimit < 2 then 2 else duplicateLimit)
      && c.loopLimit == (if loopLimit == 0 then 6 else if loopLimit < 4 then 4 else loopLimit)
  {
  }

  // ---------- the value of a session ----------

  datatype Session = Session(
    signatures: map<Signature, nat>,
    lastSignal: Option<string>,
    lastEvidence: Option<Evidence>,
    noProgress: nat,
    loopBlocked: bool,
    lastProgressAt: int,
    activeCalls: set<string>,
    compactionAt: Option<int>)

  function NewSession(at: int): Session {
    Session(map[], None, None, 0, false, at, {}, None)
  }

  datatype Decision = Admitted | LoopDetected | DuplicateTool

  /** What one session sees. A call id may be empty, and is then not tracked. */
  datatype GuardEvent =
    | Before(call: Call, signal: string, callID: string, at: int)
    | After(call: Call, signal: string, callID: string, completed: bool, result: Json, at: int)
    | Touched(at: int)
    | Compaction(at: int)

  function Count(signatures: map<Signature, nat>, sig: Signature): nat {
    if sig in signatures then signatures[sig] else 0
  }

  function Forget(s: Session): Session {
    s.(signatures := map[], noProgress := 0, loopBlocked := false, lastEvidence := None)
  }

  function ResetForWorkspace(s: Session, signal: string): Session {
    if s.lastSignal == None || s.lastSignal == Some(signal) then s else Forget(s)
  }

  function Attempted(s: Session, sig: Signature): Session {
    s.(signatures := s.signatures[sig := Count(s.signatures, sig) + 1])
  }

  function Decide(cfg: GuardConfig, s: Session, call: Call, signal: string): Decision {
    var r := ResetForWorkspace(s, signal);
    if !cfg.explores(call.tool) then Admitted
    else if r.loopBlocked then LoopDetected
    else if Count(r.signatures, SignatureOf(call, signal)) + 1 > cfg.duplicateLimit then DuplicateTool
    else Admitted
  }

  function AfterBefore(cfg: GuardConfig, s: Session, call: Call, signal: string, callID: string, at: int): Session {
    var r := ResetForWorkspace(s, signal).(lastSignal := Some(signal));
    var t := if cfg.explores(call.tool) then Attempted(r, SignatureOf(call, signal)) else r;
    if Decide(cfg, s, call, signal) != Admitted then t
    else t.(lastProgressAt := at, activeCalls := t.activeCalls + if callID == "" then {} else {callID})
  }

  function Learn(cfg: GuardConfig, s: Session, key: Evidence): Session {
    var n := if s.lastEvidence == Some(key) then s.noProgress + 1 else 0;
    s.(lastEvidence := Some(key), noProgress := n, loopBlocked := s.loopBlocked || n >= cfg.loopLimit)
  }

  function AfterAfter(cfg: GuardConfig, s: Session, call: Call, signal: string, callID: string, completed: bool,
                      result: Json, at: int): Session
  {
    var r := ResetForWorkspace(s.(activeCalls := s.activeCalls - if callID == "" then {} else {callID}), signal);
    var t :=
      if completed && cfg.explores(call.tool) then Learn(cfg, r, EvidenceOf(cfg, signal, result))
      else if completed && (cfg.writes(call.tool) || s.lastSignal != Some(signal)) then Forget(r)
      else r;
    t.(lastSignal := Some(signal), lastProgressAt := at)
  }

  function SessionStep(cfg: GuardConfig, s: Session, e: GuardEvent): Session {
    match e
    case Before(call, signal, callID, at) => AfterBefore(cfg, s, call, signal, callID, at)
    case After(call, signal, callID, completed, result, at) => AfterAfter(cfg, s, call, signal, callID, completed, result, at)
    case Touched(at) => s.(lastProgressAt := at)
    case Compaction(at) => Forget(s).(compactionAt := Some(at), lastProgressAt := at)
  }

  /** The state of a session after a history of events. */
  function Replay(cfg: GuardConfig, created: int, h: seq<GuardEvent>): Session {
    if h == [] then NewSession(created) else SessionStep(cfg, Replay(cfg, created, h[..|h| - 1]), h[|h| - 1])
  }

  lemma ReplayAppend(cfg: GuardConfig, created: int, h: seq<GuardEvent>, e: GuardEvent)
    ensures Replay(cfg, created, h + [e]) == SessionStep(cfg, Replay(cfg, created, h), e)
  {
    assert (h + [e])[..|h|] == h;
  }

  // ---------- many sessions ----------

  function KeyOf(sessionID: string): string {
    if sessionID == "" then "global" else sessionID
  }

  /** Sessions are told apart by their ids, except that one without an id is the session "global". */
  lemma SessionKeysApart(a: string, b: string)
    ensures KeyOf(a) == KeyOf(b) <==> a == b || (a == "" && b == "global") || (a == "global" && b == "")
  {
  }

  /** A call on the guard: an event of a session, a snapshot (which creates a missing session), or
      its removal. */
  datatype GuardOp = On(key: string, event: GuardEvent) | Peek(key: string, at: int) | Drop(key: string)

  function SessionFor(m: map<string, Session>, key: string, at: int): Session {
    if key in m then m[key] else NewSession(at)
  }

  function GuardStep(cfg: GuardConfig, m: map<string, Session>, op: GuardOp): map<string, Session> {
    match op
    case On(key, e) => m[key := SessionStep(cfg, SessionFor(m, key, e.at), e)]
    case Peek(key, at) => m[key := SessionFor(m, key, at)]
    case Drop(key) => m - {key}
  }

  function GuardRun(cfg: GuardConfig, ops: seq<GuardOp>): map<string, Session> {
    if ops == [] then map[] else GuardStep(cfg, GuardRun(cfg, ops[..|ops| - 1]), ops[|ops| - 1])
  }

  function OnlyKey(ops: seq<GuardOp>, key: string): seq<GuardOp> {
    if ops == [] then []
    else OnlyKey(ops[..|ops| - 1], key) + if ops[|ops| - 1].key == key then [ops[|ops| - 1]] else []
  }

  /** Sessions with different keys never affect each other: what the guard holds for a key is what
      it would hold had only that key's calls been made. */
  lemma {:induction false} SessionsAreIndependent(cfg: GuardConfig, ops: seq<GuardOp>, key: string)
    ensures key in GuardRun(cfg, ops) <==> key in GuardRun(cfg, OnlyKey(ops, key))
    ensures key in GuardRun(cfg, ops) ==> GuardRun(cfg, ops)[key] == GuardRun(cfg, OnlyKey(ops, key))[key]
  {
    if ops != [] {
      var p, op := ops[..|ops| - 1], ops[|ops| - 1];
      SessionsAreIndependent(cfg, p, key);
      if op.key == key {
        assert (OnlyKey(p, key) + [op])[..|OnlyKey(p, key)|] == OnlyKey(p, key);
      } else {
        assert OnlyKey(p, key) + [] == OnlyKey(p, key);
      }
    }
  }

  // ---------- the watchdog ----------

  function StallLimit(stallMs: int): int {
    var wanted := if stallMs == 0 then 60000 else stallMs;
    var capped := if wanted < 300000 then wanted else 300000;
    if capped > 30000 then capped else 30000
  }

  function IdleMs(lastProgressAt: int, now: int): int {
    if now > lastProgressAt then now - lastProgressAt else 0
  }

  /** Stalled: no call is open and the session has been idle for the limit. */
  predicate Stalled(s: Session, now: int, stallMs: int) {
    if |s.activeCalls| > 0 then false else IdleMs(s.lastProgressAt, now) >= StallLimit(stallMs)
  }
}

/** The guard as it is written: one mutable record per session, in a Map. */
module RuntimeGuard {
  import opened Text
  import opened Canonical
  import opened Guard

  class SessionRecord {
    var signatures: map<Signature, nat>
    var lastWorkspaceSignal: Option<string>
    var lastEvidenceKey: Option<Evidence>
    var noProgressCalls: nat
    var loopBlocked: bool
    var lastProgressAt: int
    var activeCalls: set<string>
    var compactionAt: Option<int>

    ghost function View(): (s: Session)
      reads this
    {
      Session(signatures, lastWorkspaceSignal, lastEvidenceKey, noProgressCalls, loopBlocked, lastProgressAt, activeCalls, compactionAt)
    }

    constructor (now: int)
      ensures View() == NewSession(now)
    {
      signatures, lastWorkspaceSignal, lastEvidenceKey := map[], None, None;
      noProgressCalls, loopBlocked, lastProgressAt, activeCalls, compactionAt := 0, false, now, {}, None;
    }

    method ResetForWorkspace(signal: string)
      modifies this
      ensures View() == Guard.ResetForWorkspace(old(View()), signal)
    {
      if lastWorkspaceSignal == None || lastWorkspaceSignal == Some(signal) {
        return;
      }
      signatures := map[];
      noProgressCalls := 0;
      loopBlocked := false;
      lastEvidenceKey := None;
    }

    method Before(cfg: GuardConfig, call: Call, signal: string, callID: string, at: int) returns (decision: Decision)
      modifies this
      ensures decision == Decide(cfg, old(View()), call, signal)
      ensures View() == SessionStep(cfg, old(View()), GuardEvent.Before(call, signal, callID, at))
    {
      ResetForWorkspace(signal);
      lastWorkspaceSignal := Some(signal);
      if cfg.explores(call.tool) {
        var signature := SignatureOf(call, signal);
        var seen := Count(signatures, signature) + 1;
        signatures := signatures[signature := seen];
        if loopBlocked {
          return LoopDetected;
        }
        if seen > cfg.duplicateLimit {
          return DuplicateTool;
        }
      }
      lastProgressAt := at;
      if callID != "" {
        activeCalls := activeCalls + {callID};
      }
      return Admitted;
    }

    method After(cfg: GuardConfig, call: Call, signal: string, callID: string, completed: bool, result: Json, at: int)
      modifies this
      ensures View() == SessionStep(cfg, old(View()), GuardEvent.After(call, signal, callID, completed, result, at))
    {
      if callID != "" {
        activeCalls := activeCalls - {callID};
      }
      ResetForWorkspace(signal);
      if completed && cfg.explores(call.tool) {
        var evidenceKey := EvidenceOf(cfg, signal, result);
        if lastEvidenceKey == Some(evidenceKey) {
          noProgressCalls := noProgressCalls + 1;
        } else {
          lastEvidenceKey := Some(evidenceKey);
          noProgressCalls := 0;
        }
        if noProgressCalls >= cfg.loopLimit {
          loopBlocked := true;
        }
      } else if completed && (cfg.writes(call.tool) || lastWorkspaceSignal != Some(signal)) {
        noProgressCalls := 0;
        loopBlocked := false;
        lastEvidenceKey := None;
        signatures := map[];
      }
      lastWorkspaceSignal := Some(signal);
      lastProgressAt := at;
    }

    method Touch(at: int)
      modifies this
      ensures View() == old(View()).(lastProgressAt := at)
    {
      lastProgressAt := at;
    }

    method Compacted(at: int)
      modifies this
      ensures View() == Forget(old(View())).(compactionAt := Some(at), lastProgressAt := at)
    {
      compactionAt := Some(at);
      lastProgressAt := at;
      signatures := map[];
      noProgressCalls := 0;
      loopBlocked := false;
      lastEvidenceKey := None;
    }
  }

  class RuntimeGuard {
    const cfg: GuardConfig
    var sessions: map<string, SessionRecord>

    /** No two keys share a record. */
    ghost predicate Valid()
      reads this
    {
      forall k, l :: k in sessions && l in sessions && k != l ==> sessions[k] != sessions[l]
    }

    ghost function View(): (m: map<string, Session>)
      reads this, sessions.Values
    {
      map k | k in sessions :: sessions[k].View()
    }

    constructor (duplicateLimit: int, loopLimit: int, explores: string -> bool, writes: string -> bool,
                 stringify: Json -> string)
      ensures cfg == MakeConfig(duplicateLimit, loopLimit, explores, writes, stringify)
      ensures Valid() && View() == map[] && sessions == map[]
    {
      cfg := MakeConfig(duplicateLimit, loopLimit, explores, writes, stringify);
      sessions := map[];
    }

    /** The record of a session, created when missing. */
    method StateFor(key: string, at: int) returns (state: SessionRecord)
      requires Valid()
      modifies this
      ensures Valid() && key in sessions && sessions[key] == state
      ensures state.View() == SessionFor(old(View()), key, at)
      ensures fresh(sessions.Values - old(sessions.Values))
      ensures View() == old(View())[key := SessionFor(old(View()), key, at)]
    {
      if key !in sessions {
        var created := new SessionRecord(at);
        sessions := sessions[key := created];
      }
      state := sessions[key];
    }

    /** When every other session's record is as in `m`, the guard is `m` with one session changed. */
    lemma OneRecordChanged(m: map<string, Session>, key: string)
      requires Valid() && key in sessions && m.Keys == sessions.Keys
      requires forall k :: k in sessions && k != key ==> sessions[k].View() == m[k]
      ensures View() == m[key := sessions[key].View()]
    {
    }

    method Before(sessionID: string, call: Call, signal: string, callID: string, at: int) returns (decision: Decision)
      requires Valid()
      modifies this, sessions.Values
      ensures Valid() && fresh(sessions.Values - old(sessions.Values))
      ensures decision == Decide(cfg, SessionFor(old(View()), KeyOf(sessionID), at), call, signal)
      ensures View() == GuardStep(cfg, old(View()), On(KeyOf(sessionID), GuardEvent.Before(call, signal, callID, at)))
    {
      var state := StateFor(KeyOf(sessionID), at);
      ghost var found := View();
      decision := state.Before(cfg, call, signal, callID, at);
      OneRecordChanged(found, KeyOf(sessionID));
    }

    method After(sessionID: string, call: Call, signal: string, callID: string, completed: bool, result: Json, at: int)
      requires Valid()
      modifies this, sessions.Values
      ensures Valid() && fresh(sessions.Values - old(sessions.Values))
      ensures View() == GuardStep(cfg, old(View()), On(KeyOf(sessionID), GuardEvent.After(call, signal, callID, completed, result, at)))
    {
      var state := StateFor(KeyOf(sessionID), at);
      ghost var found := View();
      state.After(cfg, call, signal, callID, completed, result, at);
      OneRecordChanged(found, KeyOf(sessionID));
    }

    method Touch(sessionID: string, at: int)
      requires Valid()
      modifies this, sessions.Values
      ensures Valid() && fresh(sessions.Values - old(sessions.Values))
      ensures View() == GuardStep(cfg, old(View()), On(KeyOf(sessionID), Touched(at)))
    {
      var state := StateFor(KeyOf(sessionID), at);
      ghost var found := View();
      state.Touch(at);
      OneRecordChanged(found, KeyOf(sessionID));
    }

    method Compacted(sessionID: string, at: int)
      requires Valid()
      modifies this, sessions.Values
      ensures Valid() && fresh(sessions.Values - old(sessions.Values))
      ensures View() == GuardStep(cfg, old(View()), On(KeyOf(sessionID), Compaction(at)))
    {
      var state := StateFor(KeyOf(sessionID), at);
      ghost var found := View();
      state.Compacted(at);
      OneRecordChanged(found, KeyOf(sessionID));
    }

    /** The snapshot the watchdog judges: its last progress and its number of open calls. */
    method Snapshot(sessionID: string, at: int) returns (lastProgressAt: int, activeToolCalls: nat)
      requires Valid()
      modifies this
      ensures Valid() && fresh(sessions.Values - old(sessions.Values))
      ensures View() == GuardStep(cfg, old(View()), Peek(KeyOf(sessionID), at))
      ensures lastProgressAt == SessionFor(old(View()), KeyOf(sessionID), at).lastProgressAt
      ensures activeToolCalls == |SessionFor(old(View()), KeyOf(sessionID), at).activeCalls|
    {
      var state := StateFor(KeyOf(sessionID), at);
      lastProgressAt, activeToolCalls := state.lastProgressAt, |state.activeCalls|;
    }

    method Clear(sessionID: string)
      requires Valid()
      modifies this
      ensures Valid() && sessions.Values <= old(sessions.Values)
      ensures View() == GuardStep(cfg, old(View()), Drop(KeyOf(sessionID)))
    {
      sessions := sessions - {KeyOf(sessionID)};
    }
  }
}
