/** What the guard does, told from the history of events alone, and the proof that the mutable
    counters compute exactly that. */
module GuardHistory {
  import opened Text
  import opened Canonical
  import opened Guard

  // ---------- epochs ----------

  /** The workspace signal of the last call, if any. */
  function SignalOf(h: seq<GuardEvent>): Option<string> {
    if h == [] then None
    else
      var e := h[|h| - 1];
      if e.Before? || e.After? then Some(e.signal) else SignalOf(h[..|h| - 1])
  }

  /** The workspace has changed since the last call. */
  predicate WorkspaceChanged(h: seq<GuardEvent>, e: GuardEvent) {
    (e.Before? || e.After?) && SignalOf(h) != None && SignalOf(h) != Some(e.signal)
  }

  /** Events that make the guard forget: a workspace change, a completed write or verify tool (or
      other non-exploration call under a signal not seen before), and a compaction. */
  predicate IsReset(cfg: GuardConfig, h: seq<GuardEvent>, e: GuardEvent) {
    || WorkspaceChanged(h, e)
    || e.Compaction?
    || (e.After? && e.completed && !cfg.explores(e.call.tool)
        && (cfg.writes(e.call.tool) || SignalOf(h) != Some(e.signal)))
  }

  /** The events since the last reset, that event included. */
  function Epoch(cfg: GuardConfig, h: seq<GuardEvent>): seq<GuardEvent> {
    if h == [] then []
    else
      var p, e := h[..|h| - 1], h[|h| - 1];
      if IsReset(cfg, p, e) then [e] else Epoch(cfg, p) + [e]
  }

  /** How often exploration with one signature was attempted, blocked attempts included. */
  function Attempts(cfg: GuardConfig, es: seq<GuardEvent>, sig: Signature): nat {
    if es == [] then 0
    else
      var e := es[|es| - 1];
      Attempts(cfg, es[..|es| - 1], sig)
      + if e.Before? && cfg.explores(e.call.tool) && SignatureOf(e.call, e.signal) == sig then 1 else 0
  }

  /** The evidence of the completed explorations, in order. */
  function EvidenceKeys(cfg: GuardConfig, es: seq<GuardEvent>): seq<Evidence> {
    if es == [] then []
    else
      var e := es[|es| - 1];
      EvidenceKeys(cfg, es[..|es| - 1])
      + if e.After? && e.completed && cfg.explores(e.call.tool) then [EvidenceOf(cfg, e.signal, e.result)] else []
  }

  /** The length of the longest constant suffix. */
  function TrailingRun(keys: seq<Evidence>): nat {
    if |keys| <= 1 then |keys|
    else if keys[|keys| - 1] == keys[|keys| - 2] then TrailingRun(keys[..|keys| - 1]) + 1
    else 1
  }

  /** The key at `i` and the `n` after it are all the same. */
  ghost predicate SameFrom(keys: seq<Evidence>, i: nat, n: nat) {
    i + n < |keys| && forall j :: i <= j <= i + n ==> keys[j] == keys[i]
  }

  /** Somewhere in the epoch, loopLimit + 1 successive explorations carried the same evidence. */
  ghost predicate Latched(loopLimit: nat, keys: seq<Evidence>) {
    exists i: nat :: SameFrom(keys, i, loopLimit)
  }

  // ---------- runs of equal evidence ----------

  lemma {:induction false} TrailingRunMeaning(keys: seq<Evidence>)
    ensures TrailingRun(keys) <= |keys| && (keys != [] ==> TrailingRun(keys) >= 1)
    ensures forall j :: |keys| - TrailingRun(keys) <= j < |keys| ==> keys[j] == keys[|keys| - 1]
    ensures TrailingRun(keys) < |keys| ==> keys[|keys| - TrailingRun(keys) - 1] != keys[|keys| - 1]
  {
    if |keys| > 1 {
      TrailingRunMeaning(keys[..|keys| - 1]);
    }
  }

  lemma TrailingRunAppend(keys: seq<Evidence>, k: Evidence)
    ensures TrailingRun(keys + [k]) == if keys != [] && keys[|keys| - 1] == k then TrailingRun(keys) + 1 else 1
  {
    assert (keys + [k])[..|keys|] == keys;
  }

  lemma {:induction false} ConstantSuffix(keys: seq<Evidence>, i: nat)
    requires i < |keys| && forall j :: i <= j < |keys| ==> keys[j] == keys[i]
    ensures TrailingRun(keys) >= |keys| - i
  {
    if i < |keys| - 1 {
      ConstantSuffix(keys[..|keys| - 1], i);
    }
  }

  /** One more exploration latches exactly when the epoch was latched or the trailing run reaches the limit. */
  lemma LatchedAppend(loopLimit: nat, keys: seq<Evidence>, k: Evidence)
    ensures Latched(loopLimit, keys + [k]) <==> Latched(loopLimit, keys) || TrailingRun(keys + [k]) >= loopLimit + 1
  {
    var all := keys + [k];
    TrailingRunMeaning(all);
    if Latched(loopLimit, keys) {
      var i: nat :| SameFrom(keys, i, loopLimit);
      assert SameFrom(all, i, loopLimit);
    }
    if TrailingRun(all) >= loopLimit + 1 {
      assert SameFrom(all, |all| - loopLimit - 1, loopLimit);
    }
    if Latched(loopLimit, all) {
      var i: nat :| SameFrom(all, i, loopLimit);
      if i + loopLimit < |keys| {
        assert forall j :: 0 <= j < |keys| ==> all[j] == keys[j];
        assert SameFrom(keys, i, loopLimit);
      } else {
        ConstantSuffix(all, i);
      }
    }
  }

  // ---------- the refinement ----------

  ghost predicate CountsMatch(cfg: GuardConfig, signatures: map<Signature, nat>, es: seq<GuardEvent>) {
    forall sig :: Count(signatures, sig) == Attempts(cfg, es, sig)
  }

  ghost predicate EvidenceMatches(cfg: GuardConfig, s: Session, keys: seq<Evidence>) {
    && s.lastEvidence == (if keys == [] then None else Some(keys[|keys| - 1]))
    && s.noProgress == (if keys == [] then 0 else TrailingRun(keys) - 1)
    && s.loopBlocked == Latched(cfg.loopLimit, keys)
  }

  ghost predicate Refines(cfg: GuardConfig, s: Session, h: seq<GuardEvent>) {
    && s.lastSignal == SignalOf(h)
    && CountsMatch(cfg, s.signatures, Epoch(cfg, h))
    && EvidenceMatches(cfg, s, EvidenceKeys(cfg, Epoch(cfg, h)))
  }

  lemma NothingMatches(cfg: GuardConfig)
    ensures CountsMatch(cfg, map[], [])
    ensures EvidenceKeys(cfg, []) == [] && !Latched(cfg.loopLimit, [])
  {
  }

  lemma EpochStep(cfg: GuardConfig, es: seq<GuardEvent>, e: GuardEvent)
    ensures forall sig :: (Attempts(cfg, es + [e], sig) == Attempts(cfg, es, sig)
      + if e.Before? && cfg.explores(e.call.tool) && SignatureOf(e.call, e.signal) == sig then 1 else 0)
    ensures EvidenceKeys(cfg, es + [e]) ==
      if e.After? && e.completed && cfg.explores(e.call.tool) then EvidenceKeys(cfg, es) + [EvidenceOf(cfg, e.signal, e.result)]
      else EvidenceKeys(cfg, es)
  {
    assert (es + [e])[..|es|] == es;
  }

  lemma ForgetMatches(cfg: GuardConfig, s: Session)
    ensures CountsMatch(cfg, Forget(s).signatures, []) && EvidenceMatches(cfg, Forget(s), EvidenceKeys(cfg, []))
  {
    NothingMatches(cfg);
  }

  lemma LearnMatches(cfg: GuardConfig, s: Session, keys: seq<Evidence>, key: Evidence)
    requires EvidenceMatches(cfg, s, keys)
    ensures EvidenceMatches(cfg, Learn(cfg, s, key), keys + [key])
  {
    TrailingRunAppend(keys, key);
    TrailingRunMeaning(keys);
    LatchedAppend(cfg.loopLimit, keys, key);
  }

  /** The events the epoch of `e` starts from: none when `e` itself makes the guard forget. */
  function Kept(cfg: GuardConfig, h: seq<GuardEvent>, e: GuardEvent): seq<GuardEvent> {
    if IsReset(cfg, h, e) then [] else Epoch(cfg, h)
  }

  lemma EpochAppend(cfg: GuardConfig, h: seq<GuardEvent>, e: GuardEvent)
    ensures Epoch(cfg, h + [e]) == Kept(cfg, h, e) + [e]
    ensures SignalOf(h + [e]) == if e.Before? || e.After? then Some(e.signal) else SignalOf(h)
  {
    assert (h + [e])[..|h|] == h;
  }

  /** After the possible reset for a changed workspace, the counters match the events kept. */
  lemma ResetMatches(cfg: GuardConfig, s: Session, h: seq<GuardEvent>, e: GuardEvent)
    requires Refines(cfg, s, h) && (e.Before? || (e.After? && e.completed && cfg.explores(e.call.tool)))
    ensures var r, kept := ResetForWorkspace(s, e.signal), Kept(cfg, h, e);
      CountsMatch(cfg, r.signatures, kept) && EvidenceMatches(cfg, r, EvidenceKeys(cfg, kept))
  {
    ForgetMatches(cfg, s);
  }

  lemma CountAttempt(cfg: GuardConfig, r: Session, es: seq<GuardEvent>, e: GuardEvent)
    requires CountsMatch(cfg, r.signatures, es) && e.Before?
    ensures CountsMatch(cfg, if cfg.explores(e.call.tool) then Attempted(r, SignatureOf(e.call, e.signal)).signatures
                             else r.signatures, es + [e])
  {
    EpochStep(cfg, es, e);
    var t := if cfg.explores(e.call.tool) then Attempted(r, SignatureOf(e.call, e.signal)).signatures else r.signatures;
    forall sig ensures Count(t, sig) == Attempts(cfg, es + [e], sig) {
      assert Count(r.signatures, sig) == Attempts(cfg, es, sig);
    }
  }

  lemma BeforeRefines(cfg: GuardConfig, s: Session, h: seq<GuardEvent>, e: GuardEvent)
    requires Refines(cfg, s, h) && e.Before?
    ensures Refines(cfg, SessionStep(cfg, s, e), h + [e])
  {
    var kept := Kept(cfg, h, e);
    ResetMatches(cfg, s, h, e);
    CountAttempt(cfg, ResetForWorkspace(s, e.signal), kept, e);
    EpochStep(cfg, kept, e);
    EpochAppend(cfg, h, e);
  }

  lemma ExplorationRefines(cfg: GuardConfig, s: Session, h: seq<GuardEvent>, e: GuardEvent)
    requires Refines(cfg, s, h) && e.After? && e.completed && cfg.explores(e.call.tool)
    ensures Refines(cfg, SessionStep(cfg, s, e), h + [e])
  {
    var a := s.(activeCalls := s.activeCalls - if e.callID == "" then {} else {e.callID});
    var kept := Kept(cfg, h, e);
    ResetMatches(cfg, a, h, e);
    LearnMatches(cfg, ResetForWorkspace(a, e.signal), EvidenceKeys(cfg, kept), EvidenceOf(cfg, e.signal, e.result));
    EpochStep(cfg, kept, e);
    EpochAppend(cfg, h, e);
  }

  lemma OtherAfterRefines(cfg: GuardConfig, s: Session, h: seq<GuardEvent>, e: GuardEvent)
    requires Refines(cfg, s, h) && e.After? && !(e.completed && cfg.explores(e.call.tool))
    ensures Refines(cfg, SessionStep(cfg, s, e), h + [e])
  {
    var kept := Kept(cfg, h, e);
    ForgetMatches(cfg, s);
    EpochStep(cfg, kept, e);
    EpochAppend(cfg, h, e);
    var t := SessionStep(cfg, s, e);
    assert t.signatures == if IsReset(cfg, h, e) then map[] else s.signatures;
    assert CountsMatch(cfg, t.signatures, kept);
  }

  lemma TouchRefines(cfg: GuardConfig, s: Session, h: seq<GuardEvent>, e: GuardEvent)
    requires Refines(cfg, s, h) && e.Touched?
    ensures Refines(cfg, SessionStep(cfg, s, e), h + [e])
  {
    EpochAppend(cfg, h, e);
    EpochStep(cfg, Epoch(cfg, h), e);
  }

  lemma CompactionRefines(cfg: GuardConfig, s: Session, h: seq<GuardEvent>, e: GuardEvent)
    requires Refines(cfg, s, h) && e.Compaction?
    ensures Refines(cfg, SessionStep(cfg, s, e), h + [e])
  {
    EpochAppend(cfg, h, e);
    EpochStep(cfg, [], e);
    ForgetMatches(cfg, s);
  }

  lemma StepRefines(cfg: GuardConfig, s: Session, h: seq<GuardEvent>, e: GuardEvent)
    requires Refines(cfg, s, h)
    ensures Refines(cfg, SessionStep(cfg, s, e), h + [e])
  {
    if e.Before? {
      BeforeRefines(cfg, s, h, e);
    } else if e.Touched? {
      TouchRefines(cfg, s, h, e);
    } else if e.Compaction? {
      CompactionRefines(cfg, s, h, e);
    } else if e.completed && cfg.explores(e.call.tool) {
      ExplorationRefines(cfg, s, h, e);
    } else {
      OtherAfterRefines(cfg, s, h, e);
    }
  }

  /** After every history of events, the counters of a session are exactly what the history says:
      the attempts of each signature, the evidence streak and the latch of the current epoch. */
  lemma {:induction false} GuardRefinesHistory(cfg: GuardConfig, created: int, h: seq<GuardEvent>)
    ensures Refines(cfg, Replay(cfg, created, h), h)
  {
    if h == [] {
      NothingMatches(cfg);
    } else {
      var p, e := h[..|h| - 1], h[|h| - 1];
      assert h == p + [e];
      GuardRefinesHistory(cfg, created, p);
      StepRefines(cfg, Replay(cfg, created, p), p, e);
    }
  }

  // ---------- what the loop guard compares ----------

  /** The completed explorations, in order. */
  function Finds(cfg: GuardConfig, es: seq<GuardEvent>): (finds: seq<GuardEvent>)
    ensures forall f :: f in finds ==> f in es && f.After? && f.completed && cfg.explores(f.call.tool)
  {
    if es == [] then []
    else
      var e := es[|es| - 1];
      Finds(cfg, es[..|es| - 1]) + if e.After? && e.completed && cfg.explores(e.call.tool) then [e] else []
  }

  lemma {:induction false} EvidenceOfFinds(cfg: GuardConfig, es: seq<GuardEvent>)
    ensures |EvidenceKeys(cfg, es)| == |Finds(cfg, es)|
    ensures forall i :: 0 <= i < |Finds(cfg, es)| ==>
      EvidenceKeys(cfg, es)[i] == EvidenceOf(cfg, Finds(cfg, es)[i].signal, Finds(cfg, es)[i].result)
  {
    if es != [] {
      EvidenceOfFinds(cfg, es[..|es| - 1]);
    }
  }

  /** The find at `i` and the `n` after it were made in one workspace and are the same. */
  ghost predicate SameFinds(cfg: GuardConfig, finds: seq<GuardEvent>, i: nat, n: nat)
    requires forall f :: f in finds ==> f.After?
  {
    i + n < |finds|
    && forall j :: i <= j <= i + n ==>
         finds[j].signal == finds[i].signal && SameResult(cfg, finds[j].result, finds[i].result)
  }

  ghost predicate AllToldApart(cfg: GuardConfig, finds: seq<GuardEvent>)
    requires forall f :: f in finds ==> f.After?
  {
    forall i, j :: 0 <= i < |finds| && 0 <= j < |finds| ==> TellsApart(cfg, finds[j].result, finds[i].result)
  }

  lemma FindsWindow(cfg: GuardConfig, es: seq<GuardEvent>, i: nat, n: nat)
    requires AllToldApart(cfg, Finds(cfg, es))
    ensures SameFrom(EvidenceKeys(cfg, es), i, n) <==> SameFinds(cfg, Finds(cfg, es), i, n)
  {
    var keys, finds := EvidenceKeys(cfg, es), Finds(cfg, es);
    EvidenceOfFinds(cfg, es);
    if i + n < |finds| {
      forall j | i <= j <= i + n
        ensures keys[j] == keys[i] <==> finds[j].signal == finds[i].signal && SameResult(cfg, finds[j].result, finds[i].result)
      {
        SameEvidenceIff(cfg, finds[j].signal, finds[i].signal, finds[j].result, finds[i].result);
      }
    }
  }

  /** Some find and the `n` after it are the same. */
  ghost predicate Repeats(cfg: GuardConfig, finds: seq<GuardEvent>, n: nat)
    requires forall f :: f in finds ==> f.After?
  {
    exists i: nat :: SameFinds(cfg, finds, i, n)
  }

  /** An epoch is latched exactly when loopLimit + 1 successive explorations brought the same result. */
  lemma LatchedIffRepeats(cfg: GuardConfig, es: seq<GuardEvent>)
    requires AllToldApart(cfg, Finds(cfg, es))
    ensures Latched(cfg.loopLimit, EvidenceKeys(cfg, es)) <==> Repeats(cfg, Finds(cfg, es), cfg.loopLimit)
  {
    forall i: nat ensures SameFrom(EvidenceKeys(cfg, es), i, cfg.loopLimit) <==> SameFinds(cfg, Finds(cfg, es), i, cfg.loopLimit) {
      FindsWindow(cfg, es, i, cfg.loopLimit);
    }
  }

  // ---------- which calls are admitted ----------

  /** The decision on a call, read off the history: exploration is refused from the moment the epoch
      is latched, and from the (duplicateLimit + 1)-th attempt of one signature; nothing else is. */
  lemma DecisionFromHistory(cfg: GuardConfig, created: int, h: seq<GuardEvent>, e: GuardEvent)
    requires e.Before?
    ensures var epoch := Epoch(cfg, h + [e]);
      Decide(cfg, Replay(cfg, created, h), e.call, e.signal) ==
      if !cfg.explores(e.call.tool) then Admitted
      else if Latched(cfg.loopLimit, EvidenceKeys(cfg, epoch)) then LoopDetected
      else if Attempts(cfg, epoch, SignatureOf(e.call, e.signal)) > cfg.duplicateLimit then DuplicateTool
      else Admitted
  {
    var s := Replay(cfg, created, h);
    var kept := Kept(cfg, h, e);
    GuardRefinesHistory(cfg, created, h);
    ForgetMatches(cfg, s);
    EpochAppend(cfg, h, e);
    EpochStep(cfg, kept, e);
    var r := ResetForWorkspace(s, e.signal);
    assert CountsMatch(cfg, r.signatures, kept) && EvidenceMatches(cfg, r, EvidenceKeys(cfg, kept));
  }

  predicate IsAdmitted(cfg: GuardConfig, created: int, h: seq<GuardEvent>, e: GuardEvent) {
    e.Before? && Decide(cfg, Replay(cfg, created, h), e.call, e.signal) == Admitted
  }

  /** The first call straight after a compaction is admitted, whatever went before. */
  lemma FirstAfterCompactionAdmitted(cfg: GuardConfig, created: int, h: seq<GuardEvent>, at: int, e: GuardEvent)
    requires ValidGuard(cfg) && e.Before?
    ensures IsAdmitted(cfg, created, h + [Compaction(at)], e)
  {
    ReplayAppend(cfg, created, h, Compaction(at));
  }

  /** Exactly when a session is blocked although its counter is below the limit: the epoch was
      latched, and the evidence streak has been broken since. */
  lemma LatchOutlivesCounter(cfg: GuardConfig, created: int, h: seq<GuardEvent>)
    ensures var s, keys := Replay(cfg, created, h), EvidenceKeys(cfg, Epoch(cfg, h));
      s.loopBlocked && s.noProgress < cfg.loopLimit <==> Latched(cfg.loopLimit, keys) && TrailingRun(keys) <= cfg.loopLimit
  {
    GuardRefinesHistory(cfg, created, h);
    TrailingRunMeaning(EvidenceKeys(cfg, Epoch(cfg, h)));
  }

  /** It happens whenever an exploration in flight when the loop was detected brings fresh evidence:
      the counter starts again from zero, and exploration stays blocked. */
  lemma FreshEvidenceKeepsLatch(cfg: GuardConfig, created: int, h: seq<GuardEvent>, e: GuardEvent)
    requires ValidGuard(cfg)
    requires Latched(cfg.loopLimit, EvidenceKeys(cfg, Epoch(cfg, h)))
    requires e.After? && e.completed && cfg.explores(e.call.tool) && SignalOf(h) == Some(e.signal)
    requires Replay(cfg, created, h).lastEvidence != Some(EvidenceOf(cfg, e.signal, e.result))
    ensures var s := Replay(cfg, created, h + [e]); s.loopBlocked && s.noProgress == 0
  {
    GuardRefinesHistory(cfg, created, h);
    ReplayAppend(cfg, created, h, e);
  }

  /** The default limits, with "read" the only exploration tool. */
  const DEFAULTS := MakeConfig(0, 0, (t: string) => t == "read", (t: string) => false, (v: Json) => "{}")

  function Page(k: nat): Call {
    Call("read", Obj([Field("page", Num(k as real))]), "")
  }

  function PageID(k: nat): string {
    seq(k + 1, _ => 'c')
  }

  function Ask(k: nat): GuardEvent {
    Before(Page(k), "", PageID(k), 0)
  }

  /** The read of page `k` completes with `text`. */
  function Read(k: nat, text: string): GuardEvent {
    After(Page(k), "", PageID(k), true, Str(text), 0)
  }

  /** Pages read one after the other, all with the same text. */
  function Reads(n: nat): seq<GuardEvent> {
    if n == 0 then [] else Reads(n - 1) + [Ask(n - 1)] + [Read(n - 1, "same")]
  }

  /** Six such reads, then two at once: the first brings that text once more, the second a fresh one. */
  function RacingReads(): seq<GuardEvent> {
    Reads(6) + [Ask(6)] + [Ask(7)] + [Read(6, "same")] + [Read(7, "fresh")]
  }

  ghost predicate AllAdmitted(cfg: GuardConfig, created: int, h: seq<GuardEvent>) {
    forall i :: 0 <= i < |h| && h[i].Before? ==> IsAdmitted(cfg, created, h[..i], h[i])
  }

  lemma AllAdmittedAppend(cfg: GuardConfig, created: int, h: seq<GuardEvent>, e: GuardEvent)
    requires AllAdmitted(cfg, created, h) && (e.Before? ==> IsAdmitted(cfg, created, h, e))
    ensures AllAdmitted(cfg, created, h + [e])
  {
    forall i | 0 <= i < |h + [e]| && (h + [e])[i].Before? ensures IsAdmitted(cfg, created, (h + [e])[..i], (h + [e])[i]) {
      if i < |h| {
        assert (h + [e])[..i] == h[..i];
      } else {
        assert (h + [e])[..i] == h;
      }
    }
  }

  /** Pages below `asked` were asked for, and `n` of them read, all with the same text. */
  ghost predicate SeenSame(s: Session, asked: nat, n: nat) {
    && (if asked == 0 then s.lastSignal == None else s.lastSignal == Some(""))
    && (if n == 0 then s.lastEvidence == None && s.noProgress == 0
        else s.lastEvidence == Some(Evidence("", "same")) && s.noProgress == n - 1)
    && !s.loopBlocked
    && forall k: nat :: k >= asked ==> SignatureOf(Page(k), "") !in s.signatures
  }

  lemma PageSignature(k: nat)
    ensures SignatureOf(Page(k), "") == Signature("read", Obj([Field("page", Num(k as real))]), "", "")
  {
    var f := Field("page", Num(k as real));
    assert Canon(f.value) == f.value;
    assert CanonFields([f]) == [f];
    assert [f][1..] == [];
    assert Sort([f]) == Insert(f, []) == [f];
  }

  lemma AskStep(s: Session, asked: nat, n: nat)
    requires SeenSame(s, asked, n)
    ensures Decide(DEFAULTS, s, Page(asked), "") == Admitted
    ensures SeenSame(SessionStep(DEFAULTS, s, Ask(asked)), asked + 1, n)
  {
    PageSignature(asked);
    var t := SessionStep(DEFAULTS, s, Ask(asked));
    forall k: nat | k >= asked + 1 ensures SignatureOf(Page(k), "") !in t.signatures {
      PageSignature(k);
    }
  }

  lemma ReadStep(s: Session, asked: nat, n: nat)
    requires SeenSame(s, asked, n) && n < asked && n < 6
    ensures SeenSame(SessionStep(DEFAULTS, s, Read(n, "same")), asked, n + 1)
  {
  }

  lemma {:induction false} ReadsState(n: nat)
    requires n <= 6
    ensures SeenSame(Replay(DEFAULTS, 0, Reads(n)), n, n) && AllAdmitted(DEFAULTS, 0, Reads(n))
  {
    if n > 0 {
      ReadsState(n - 1);
      AskNext(Reads(n - 1), n - 1, n - 1);
      ReadNext(Reads(n - 1) + [Ask(n - 1)], n, n - 1);
    }
  }

  lemma ReadNext(h: seq<GuardEvent>, asked: nat, n: nat)
    requires SeenSame(Replay(DEFAULTS, 0, h), asked, n) && AllAdmitted(DEFAULTS, 0, h) && n < asked && n < 6
    ensures SeenSame(Replay(DEFAULTS, 0, h + [Read(n, "same")]), asked, n + 1)
    ensures AllAdmitted(DEFAULTS, 0, h + [Read(n, "same")])
  {
    ReadStep(Replay(DEFAULTS, 0, h), asked, n);
    ReplayAppend(DEFAULTS, 0, h, Read(n, "same"));
    AllAdmittedAppend(DEFAULTS, 0, h, Read(n, "same"));
  }

  lemma AskNext(h: seq<GuardEvent>, asked: nat, n: nat)
    requires SeenSame(Replay(DEFAULTS, 0, h), asked, n) && AllAdmitted(DEFAULTS, 0, h)
    ensures SeenSame(Replay(DEFAULTS, 0, h + [Ask(asked)]), asked + 1, n)
    ensures AllAdmitted(DEFAULTS, 0, h + [Ask(asked)])
  {
    AskStep(Replay(DEFAULTS, 0, h), asked, n);
    ReplayAppend(DEFAULTS, 0, h, Ask(asked));
    AllAdmittedAppend(DEFAULTS, 0, h, Ask(asked));
  }

  lemma Latches(s: Session)
    requires SeenSame(s, 8, 6)
    ensures var t := SessionStep(DEFAULTS, SessionStep(DEFAULTS, s, Read(6, "same")), Read(7, "fresh"));
      t.loopBlocked && t.noProgress == 0 && t.lastSignal == Some("")
  {
    assert "fresh"[0] != "same"[0];
    assert EvidenceOf(DEFAULTS, "", Str("fresh")) == Evidence("", "fresh");
  }

  /** Reads of eight different pages, all of them admitted, after which the counter is zero and every
      read is refused: the seventh equal text latches the loop guard while another read is open. */
  lemma BlockedWithCounterZero()
    ensures AllAdmitted(DEFAULTS, 0, RacingReads())
    ensures var s := Replay(DEFAULTS, 0, RacingReads());
      && s.loopBlocked && s.noProgress == 0
      && forall input, cwd :: Decide(DEFAULTS, s, Call("read", input, cwd), "") == LoopDetected
  {
    var h := Reads(6);
    ReadsState(6);
    AskNext(h, 6, 6);
    AskNext(h + [Ask(6)], 7, 6);
    var asked := h + [Ask(6)] + [Ask(7)];
    ReplayAppend(DEFAULTS, 0, asked, Read(6, "same"));
    ReplayAppend(DEFAULTS, 0, asked + [Read(6, "same")], Read(7, "fresh"));
    AllAdmittedAppend(DEFAULTS, 0, asked, Read(6, "same"));
    AllAdmittedAppend(DEFAULTS, 0, asked + [Read(6, "same")], Read(7, "fresh"));
    Latches(Replay(DEFAULTS, 0, asked));
  }

  // ---------- invariants of the stored state ----------

  /** What is stored belongs to the current workspace, and a counter at the limit has latched. */
  ghost predicate SessionInv(cfg: GuardConfig, s: Session) {
    && (forall sig :: sig in s.signatures ==> Some(sig.signal) == s.lastSignal && s.signatures[sig] >= 1)
    && (s.lastEvidence.Some? ==> Some(s.lastEvidence.value.signal) == s.lastSignal)
    && (s.noProgress >= cfg.loopLimit ==> s.loopBlocked)
  }

  lemma SessionStepKeeps(cfg: GuardConfig, s: Session, e: GuardEvent)
    requires ValidGuard(cfg) && SessionInv(cfg, s)
    ensures SessionInv(cfg, SessionStep(cfg, s, e))
  {
  }

  lemma {:induction false} StoredStateIsCurrent(cfg: GuardConfig, created: int, h: seq<GuardEvent>)
    requires ValidGuard(cfg)
    ensures SessionInv(cfg, Replay(cfg, created, h))
  {
    if h != [] {
      StoredStateIsCurrent(cfg, created, h[..|h| - 1]);
      SessionStepKeeps(cfg, Replay(cfg, created, h[..|h| - 1]), h[|h| - 1]);
    }
  }

  // ---------- open calls ----------

  predicate Closes(e: GuardEvent, callID: string) {
    e.After? && e.callID == callID
  }

  /** What one event does to the open calls. */
  lemma ActiveAfter(cfg: GuardConfig, s: Session, e: GuardEvent)
    ensures SessionStep(cfg, s, e).activeCalls ==
      match e
      case Before(call, signal, callID, _) =>
        if Decide(cfg, s, call, signal) == Admitted && callID != "" then s.activeCalls + {callID} else s.activeCalls
      case After(_, _, callID, _, _, _) => if callID != "" then s.activeCalls - {callID} else s.activeCalls
      case _ => s.activeCalls
  {
  }
}
