/** Provider recovery (index.js, lines 1063-1197; runtime-guard.js, lines 99-122): the retry loop over
    fresh executor sessions and the models it tries. */
module Recovery {

  datatype Kind = Auth | ContextTooLarge | Quota | NoToken | Timeout | RateLimit | Provider5xx | Other

  datatype Action = FailFastAction | CompactContext | FreshEscalated | FreshSame | FailRetryable | FailTask

  datatype Plan = Plan(action: Action, retry: bool)

  predicate Transient(kind: Kind) {
    kind.NoToken? || kind.Timeout? || kind.RateLimit? || kind.Provider5xx?
  }

  function RecoveryPlan(kind: Kind, attempt: nat, hasEscalationModel: bool): Plan {
    if kind.Auth? then Plan(FailFastAction, false)
    else if kind.ContextTooLarge? then Plan(CompactContext, false)
    else if kind.Quota? then (if hasEscalationModel then Plan(FreshEscalated, true) else Plan(FailRetryable, false))
    else if Transient(kind) then
      if attempt <= 1 then Plan(FreshSame, true)
      else if hasEscalationModel then Plan(FreshEscalated, true)
      else Plan(FailRetryable, false)
    else Plan(FailTask, false)
  }

  /** The models of a dispatch: the base model, the escalated one, whether the escalated name is a
      usable reference, and whether escalation is disabled. "" stands for no model. */
  datatype Models = Models(base: string, escalated: string, usable: bool, disabled: bool)

  predicate HasEscalation(m: Models, current: string) {
    !m.disabled && m.usable && m.escalated != "" && m.escalated != current
  }

  /** The failure kind each session would meet; beyond the list, and at None, a session succeeds. */
  datatype Outcome = Succeeds | Fails(kind: Kind)

  function OutcomeOf(stream: seq<Outcome>, i: nat): Outcome {
    if i < |stream| then stream[i] else Succeeds
  }

  /** The models tried from attempt `attempt` on, with the current model `model`, were there no cap. */
  function Tried(m: Models, stream: seq<Outcome>, attempt: nat, model: string): seq<string>
    requires attempt >= 1
    decreases |stream| - attempt
  {
    match OutcomeOf(stream, attempt - 1)
    case Succeeds => [model]
    case Fails(kind) =>
      var plan := RecoveryPlan(kind, attempt, HasEscalation(m, model));
      if !plan.retry then [model]
      else [model] + Tried(m, stream, attempt + 1, if plan.action == FreshEscalated then m.escalated else model)
  }

  /** At the third attempt the plan never asks for a retry: the escalated model is in use by then. */
  lemma ThirdAttemptNeverRetries(m: Models, stream: seq<Outcome>, kind: Kind)
    requires |Tried(m, stream, 1, m.base)| >= 3
    ensures Tried(m, stream, 1, m.base)[2] == m.escalated
    ensures !RecoveryPlan(kind, 3, HasEscalation(m, Tried(m, stream, 1, m.base)[2])).retry
  {
    ModelsTried(m, stream);
  }

  /** Once the escalated model is in use after the first attempt, no further session follows. */
  lemma EscalatedIsLast(m: Models, stream: seq<Outcome>, attempt: nat)
    requires attempt >= 2
    ensures Tried(m, stream, attempt, m.escalated) == [m.escalated]
  {
  }

  /** For every stream of failures the models tried form base, base-base, base-escalated or
      base-base-escalated, so the uncapped loop never needs more than three sessions. */
  lemma ModelsTried(m: Models, stream: seq<Outcome>)
    ensures var t := Tried(m, stream, 1, m.base);
      || t == [m.base]
      || t == [m.base, m.base]
      || (HasEscalation(m, m.base) && (t == [m.base, m.escalated] || t == [m.base, m.base, m.escalated]))
  {
    EscalatedIsLast(m, stream, 2);
    EscalatedIsLast(m, stream, 3);
    var second := Tried(m, stream, 2, m.base);
    assert second == [m.base] || second == [m.base] + Tried(m, stream, 3, m.escalated);
  }

  /** There is another model to escalate to. */
  predicate Escalates(m: Models) {
    !m.disabled && m.usable && m.escalated != "" && m.escalated != m.base
  }

  /** Failures of the provider, as opposed to the user, the context or the task. */
  predicate ProviderFails(o: Outcome) {
    o in {Fails(Quota), Fails(NoToken), Fails(Timeout), Fails(RateLimit), Fails(Provider5xx)}
  }

  /** Which of them it is: the first provider failure is retried at once, on the same model unless the
      quota is used up, and a second one only on another model. Nothing else is ever retried. */
  lemma ModelsTriedExactly(m: Models, stream: seq<Outcome>)
    ensures var first, second := OutcomeOf(stream, 0), OutcomeOf(stream, 1);
      Tried(m, stream, 1, m.base) ==
      if !ProviderFails(first) then [m.base]
      else if first == Fails(Quota) then (if Escalates(m) then [m.base, m.escalated] else [m.base])
      else if ProviderFails(second) && Escalates(m) then [m.base, m.base, m.escalated]
      else [m.base, m.base]
  {
    EscalatedIsLast(m, stream, 2);
    EscalatedIsLast(m, stream, 3);
  }

  /** With escalation disabled every session uses one model and there are at most two. */
  lemma DisabledEscalation(m: Models, stream: seq<Outcome>)
    requires m.disabled
    ensures |Tried(m, stream, 1, m.base)| <= 2
    ensures forall x :: x in Tried(m, stream, 1, m.base) ==> x == m.base
  {
    ModelsTried(m, stream);
  }

  /** The retry loop as it is written, with its cap of three. It tries exactly the models the uncapped
      plan would, so the cap is never what stops it; it succeeds when its last session does. */
  method RetryLoop(m: Models, stream: seq<Outcome>) returns (tried: seq<string>, succeeded: bool)
    ensures tried == Tried(m, stream, 1, m.base)
    ensures 1 <= |tried| <= 3
    ensures succeeded <==> OutcomeOf(stream, |tried| - 1) == Succeeds
  {
    ModelsTried(m, stream);
    var physicalAttempt, model := 0, m.base;
    tried, succeeded := [], false;
    while physicalAttempt < 3
      invariant 0 <= physicalAttempt <= 2 && |tried| == physicalAttempt
      invariant Tried(m, stream, 1, m.base) == tried + Tried(m, stream, physicalAttempt + 1, model)
    {
      physicalAttempt := physicalAttempt + 1;
      tried := tried + [model];
      var outcome := OutcomeOf(stream, physicalAttempt - 1);
      if outcome == Succeeds {
        return tried, true;
      }
      var plan := RecoveryPlan(outcome.kind, physicalAttempt, HasEscalation(m, model));
      if !plan.retry || physicalAttempt >= 3 {
        if plan.retry {
          ThirdAttemptNeverRetries(m, stream, outcome.kind);
        }
        return tried, false;
      }
      ghost var current := model;
      if plan.action == FreshEscalated {
        model := m.escalated;
      }
      assert Tried(m, stream, physicalAttempt, current) == [current] + Tried(m, stream, physicalAttempt + 1, model);
    }
  }
}
