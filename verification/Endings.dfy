/** When a run ends and how (`ReferenceGym.run` in `gym/core.py`): the exact condition of each of the
    seven endings, in terms of what the other parties answered. */
module Endings {
  import opened Json
  import opened HashChain
  import opened Evidence
  import opened Episode
  import EpisodeLaws
  import opened IsolatedLaws
  import opened HostBoundary
  import opened HostedRuns
  import Ledger

  function NotBelowZero(n: int): nat {
    if n < 0 then 0 else n
  }

  /** `max_generative_calls`, none when it is not given. */
  function DraftLimit(task: PublicTask): nat {
    if task.budget.maxGenerativeCalls.None? then 0 else NotBelowZero(task.budget.maxGenerativeCalls.value)
  }

  predicate Affordable(task: PublicTask, items: seq<Observation>) {
    task.budget.maxToolCost.Some? ==> ToolCost(items) <= task.budget.maxToolCost.value
  }

  /** Decision `k` is one that the gym passes on to its host. */
  predicate PassedOn(task: PublicTask, w: World, k: nat) {
    var d := w.policy(k);
    match d.kind
    case Select => d.action.Some? && d.action.value in task.allowedActions
    case CallGenerative =>
      "CALL_GENERATIVE" in task.allowedActions && w.generator.Some? && Drafts(w, k) < DraftLimit(task)
    case DeferTie => true
    case DeferNoSupport => true
    case DeferNoAdmissible => true
  }

  /** All that was seen before turn `k`. */
  function SeenBefore(task: PublicTask, w: World, k: nat): seq<Observation> {
    if k == 0 then w.reset
    else
      SeenBefore(task, w, k - 1)
      + (if PassedOn(task, w, k - 1) && w.host(k - 1).Outcome? then w.host(k - 1).observations else [])
  }

  /** After turn `k` there is a next one, if steps are left. */
  predicate GoesOn(task: PublicTask, w: World, k: nat) {
    && PassedOn(task, w, k) && w.host(k).Outcome? && !w.host(k).done
    && Affordable(task, SeenBefore(task, w, k + 1))
  }

  // ----- The endings -----

  /** The condition of each ending of a run that made `n` decisions. */
  predicate EndsBy(task: PublicTask, w: World, n: nat, drafts: nat, reason: Reason) {
    match reason
    case ToolCostBudgetExhausted => !Affordable(task, SeenBefore(task, w, n))
    case StepBudgetExhausted =>
      && n == NotBelowZero(task.budget.maxSteps) && Affordable(task, SeenBefore(task, w, n))
      && (n > 0 ==> GoesOn(task, w, n - 1))
    case EnvironmentDone =>
      && n > 0 && PassedOn(task, w, n - 1) && w.host(n - 1).Outcome? && w.host(n - 1).done
      && Affordable(task, SeenBefore(task, w, n))
    case InvalidPolicyAction =>
      && n > 0
      && var d := w.policy(n - 1);
         || (d.kind.Select? && (d.action.None? || d.action.value !in task.allowedActions))
         || (PassedOn(task, w, n - 1) && w.host(n - 1).Rejected?)
    case ActionUnsupported =>
      n > 0 && w.policy(n - 1).kind.CallGenerative? && "CALL_GENERATIVE" !in task.allowedActions
    case GeneratorUnavailable =>
      && n > 0 && w.policy(n - 1).kind.CallGenerative? && "CALL_GENERATIVE" in task.allowedActions
      && w.generator.None?
    case GenerativeBudgetExhausted =>
      && n > 0 && w.policy(n - 1).kind.CallGenerative? && "CALL_GENERATIVE" in task.allowedActions
      && w.generator.Some? && drafts == Drafts(w, n - 1) == DraftLimit(task)
  }

  /** The marks that the gym itself leaves on a trajectory. */
  function MarkOf(reason: Reason): seq<string> {
    match reason
    case EnvironmentDone => []
    case ToolCostBudgetExhausted => ["BUDGET_EXHAUSTED"]
    case StepBudgetExhausted => ["BUDGET_EXHAUSTED"]
    case GenerativeBudgetExhausted => ["BUDGET_EXHAUSTED"]
    case GeneratorUnavailable => ["DEFER_NO_SUPPORT"]
    case ActionUnsupported => ["DEFER_NO_SUPPORT"]
    case InvalidPolicyAction => ["DEFER_NO_ADMISSIBLE"]
  }

  /** The turns whose action made it into the trajectory. */
  function TurnsTaken(n: nat, reason: Reason): nat {
    if reason.EnvironmentDone? || reason.ToolCostBudgetExhausted? || reason.StepBudgetExhausted? then n
    else NotBelowZero(n - 1)
  }

  /** A run that goes on is where its turns so far have brought it. */
  predicate UnderWay(task: PublicTask, w: World, s: State) {
    && s.end.None? && s.steps <= NotBelowZero(task.budget.maxSteps)
    && (forall k :: 0 <= k < s.steps ==> GoesOn(task, w, k))
    && s.observations == SeenBefore(task, w, s.steps)
    && (forall k :: 0 <= k <= s.steps ==> Affordable(task, SeenBefore(task, w, k)))
    && s.trajectory == Actions(w, s.steps)
    && |s.candidates| == Drafts(w, s.steps) <= DraftLimit(task)
  }

  ghost predicate Ended(task: PublicTask, w: World, s: State) {
    && s.end.Some? && s.steps <= NotBelowZero(task.budget.maxSteps)
    && (forall k :: 0 <= k < s.steps - 1 ==> GoesOn(task, w, k))
    && s.observations == SeenBefore(task, w, s.steps)
    && |s.candidates| <= DraftLimit(task)
    && (s.steps > 0 ==> Affordable(task, SeenBefore(task, w, s.steps - 1)))
    && EndsBy(task, w, s.steps, |s.candidates|, s.end.value.reason)
    && s.trajectory == Actions(w, TurnsTaken(s.steps, s.end.value.reason)) + MarkOf(s.end.value.reason)
  }

  lemma CostsAffordable(task: PublicTask, items: seq<Observation>)
    ensures OverCost(task, items) <==> !Affordable(task, items)
  {
  }

  lemma BeginUnderWay(task: PublicTask, w: World)
    ensures var s := Begin(task, w); if s.end.None? then UnderWay(task, w, s) else Ended(task, w, s)
  {
    hide Append, ViewJson, TaskJson, ToDicts, ToolCost;
    assert SeenBefore(task, w, 0) == w.reset;
  }

  lemma TurnRefused(task: PublicTask, w: World, s: State)
    requires UnderWay(task, w, s) && s.steps < task.budget.maxSteps && !PassedOn(task, w, s.steps)
    ensures TakeTurn(task, w, s).end.Some? && Ended(task, w, TakeTurn(task, w, s))
  {
    hide Append, ToDicts, DecisionJson, ToolCost, Affordable, OverCost;
    var t := TakeTurn(task, w, s);
    assert t.observations == SeenBefore(task, w, t.steps) by { assert s.observations + [] == s.observations; }
  }

  lemma TurnPassedOn(task: PublicTask, w: World, s: State)
    requires UnderWay(task, w, s) && s.steps < task.budget.maxSteps && PassedOn(task, w, s.steps)
    ensures var t := TakeTurn(task, w, s); if t.end.None? then UnderWay(task, w, t) else Ended(task, w, t)
  {
    hide Append, ToDicts, DecisionJson, ToolCost, Affordable, OverCost, Ledger.ResultPayload, Ledger.DecisionPayload,
      GoesOn, SeenBefore, Drafts, Actions;
    var t, k := TakeTurn(task, w, s), s.steps;
    TurnNext(task, w, k);
    CostsAffordable(task, SeenBefore(task, w, k + 1));
    assert s.observations + [] == s.observations;
    assert t.observations == SeenBefore(task, w, k + 1) && t.steps == k + 1;
    WentOn(task, w, k);
  }

  lemma TurnNext(task: PublicTask, w: World, k: nat)
    requires PassedOn(task, w, k)
    ensures SeenBefore(task, w, k + 1)
         == SeenBefore(task, w, k) + (if w.host(k).Outcome? then w.host(k).observations else [])
    ensures Drafts(w, k + 1) == Drafts(w, k) + (if w.policy(k).kind.CallGenerative? then 1 else 0)
    ensures Actions(w, k + 1) == Actions(w, k) + [ActionOf(w.policy(k))]
  {
    hide PassedOn;
  }

  lemma WentOn(task: PublicTask, w: World, k: nat)
    ensures GoesOn(task, w, k) <==>
      && PassedOn(task, w, k) && w.host(k).Outcome? && !w.host(k).done
      && Affordable(task, SeenBefore(task, w, k + 1))
  {
  }

  lemma TurnOutOfSteps(task: PublicTask, w: World, s: State)
    requires UnderWay(task, w, s) && s.steps >= task.budget.maxSteps
    ensures TakeTurn(task, w, s).end.Some? && Ended(task, w, TakeTurn(task, w, s))
  {
    hide ToolCost, Affordable, SeenBefore, PassedOn, GoesOn;
  }

  lemma {:induction false} PlayEndsExactly(task: PublicTask, w: World, s: State)
    requires if s.end.None? then UnderWay(task, w, s) else Ended(task, w, s)
    ensures Ended(task, w, Play(task, w, s))
    decreases Fuel(task, s)
  {
    hide TakeTurn, Ended, PassedOn, SeenBefore, GoesOn, Affordable;
    if s.end.None? {
      TurnAdvances(task, w, s);
      if s.steps >= task.budget.maxSteps {
        TurnOutOfSteps(task, w, s);
      } else if PassedOn(task, w, s.steps) {
        TurnPassedOn(task, w, s);
      } else {
        TurnRefused(task, w, s);
      }
      PlayEndsExactly(task, w, TakeTurn(task, w, s));
    }
  }

  /** The candidates are the generator's answers in order. */
  predicate InOrder(w: World, s: State) {
    |s.candidates| > 0 ==>
      && w.generator.Some?
      && forall i :: 0 <= i < |s.candidates| ==> s.candidates[i] == w.generator.value(i)
  }

  lemma BeginInOrder(task: PublicTask, w: World)
    ensures InOrder(w, Begin(task, w))
  {
  }

  lemma TurnInOrder(task: PublicTask, w: World, s: State)
    requires s.end.None? && InOrder(w, s)
    ensures InOrder(w, TakeTurn(task, w, s))
  {
    hide Append, ToDicts, DecisionJson, OverCost, Ledger.ResultPayload, Ledger.DecisionPayload;
    var t := TakeTurn(task, w, s);
    if t.candidates != s.candidates {
      assert w.generator.Some? && t.candidates == s.candidates + [w.generator.value(|s.candidates|)];
    }
  }

  lemma {:induction false} PlayInOrder(task: PublicTask, w: World, s: State)
    requires InOrder(w, s)
    ensures InOrder(w, Play(task, w, s))
    decreases Fuel(task, s)
  {
    hide TakeTurn, InOrder;
    if s.end.None? {
      TurnAdvances(task, w, s);
      TurnInOrder(task, w, s);
      PlayInOrder(task, w, TakeTurn(task, w, s));
    }
  }

  /** Decision `k` was asked for on all that was seen before, and after all actions taken before. */
  ghost predicate AsksShown(task: PublicTask, w: World, s: State) {
    && |Asks(s.calls)| == s.steps
    && forall k :: 0 <= k < s.steps ==>
         Asks(s.calls)[k] == Decide(SeenBefore(task, w, k), Actions(w, k), w.policy(k))
  }

  lemma AsksNext(calls: seq<Call>, call: Call)
    ensures Asks(calls + [call]) == Asks(calls) + (if call.Decide? then [call] else [])
  {
    assert (calls + [call])[..|calls|] == calls;
  }

  lemma TurnAdds(task: PublicTask, w: World, s: State)
    requires s.end.None?
    ensures var t, call := TakeTurn(task, w, s), Decide(s.observations, s.trajectory, w.policy(s.steps));
      if s.steps < task.budget.maxSteps then
        && t.steps == s.steps + 1
        && (|| t.calls == s.calls + [call]
            || (w.generator.Some?
                && t.calls == s.calls + [call]
                     + [Generate(s.observations, |s.candidates| + 1, w.generator.value(|s.candidates|))]))
      else t.steps == s.steps && t.calls == s.calls
  {
    hide Append, ToDicts, DecisionJson, OverCost, Ledger.ResultPayload, Ledger.DecisionPayload;
  }

  lemma TurnShows(task: PublicTask, w: World, s: State)
    requires UnderWay(task, w, s) && AsksShown(task, w, s)
    ensures AsksShown(task, w, TakeTurn(task, w, s))
  {
    hide TakeTurn, SeenBefore, GoesOn, Affordable, Asks, Actions;
    TurnAdds(task, w, s);
    if s.steps < task.budget.maxSteps {
      var call := Decide(s.observations, s.trajectory, w.policy(s.steps));
      AsksNext(s.calls, call);
      if w.generator.Some? {
        AsksNext(s.calls + [call],
                 Generate(s.observations, |s.candidates| + 1, w.generator.value(|s.candidates|)));
      }
    }
  }

  lemma {:induction false} PlayShows(task: PublicTask, w: World, s: State)
    requires (s.end.None? ==> UnderWay(task, w, s)) && AsksShown(task, w, s)
    ensures AsksShown(task, w, Play(task, w, s))
    decreases Fuel(task, s)
  {
    hide TakeTurn, Ended, PassedOn, SeenBefore, GoesOn, Affordable, AsksShown;
    if s.end.None? {
      TurnAdvances(task, w, s);
      TurnShows(task, w, s);
      if s.steps >= task.budget.maxSteps {
        TurnOutOfSteps(task, w, s);
      } else if PassedOn(task, w, s.steps) {
        TurnPassedOn(task, w, s);
      } else {
        TurnRefused(task, w, s);
      }
      PlayShows(task, w, TakeTurn(task, w, s));
    }
  }

  lemma BeginShows(task: PublicTask, w: World)
    ensures AsksShown(task, w, Begin(task, w))
  {
    hide Append, ViewJson, TaskJson, ToDicts, OverCost;
  }

  /** What the policy of a run is shown: before each of its decisions everything observed so far, and
      the actions of all its earlier ones. */
  lemma PolicySees(task: PublicTask, w: World)
    ensures AsksShown(task, w, Final(task, w))
  {
    hide Play, Begin, SeenBefore, Actions, GoesOn, Affordable;
    BeginUnderWay(task, w);
    BeginShows(task, w);
    PlayShows(task, w, Begin(task, w));
  }

  /** At most one ending fits a run. */
  lemma OneEnding(task: PublicTask, w: World, n: nat, drafts: nat, a: Reason, b: Reason)
    requires EndsBy(task, w, n, drafts, a) && EndsBy(task, w, n, drafts, b)
    requires n > 0 ==> Affordable(task, SeenBefore(task, w, n - 1))
    ensures a == b
  {
    hide Affordable;
    if n > 0 && !(PassedOn(task, w, n - 1) && w.host(n - 1).Outcome?) {
      assert SeenBefore(task, w, n) == SeenBefore(task, w, n - 1) + [] == SeenBefore(task, w, n - 1);
    }
  }

  ghost predicate ExactEnd(task: PublicTask, w: World, r: EpisodeResult, n: nat) {
    && n <= NotBelowZero(task.budget.maxSteps) && r.generativeCalls <= DraftLimit(task)
    && (forall k :: 0 <= k < n - 1 ==> GoesOn(task, w, k))
    && (forall reason: Reason :: r.terminalReason == reason <==> EndsBy(task, w, n, r.generativeCalls, reason))
    && r.observations == SeenBefore(task, w, n)
    && |r.generatedCandidates| == r.generativeCalls
    && (r.generativeCalls > 0 ==>
          && w.generator.Some?
          && forall i :: 0 <= i < r.generativeCalls ==> r.generatedCandidates[i] == w.generator.value(i))
    && r.trajectory == Actions(w, TurnsTaken(n, r.terminalReason)) + MarkOf(r.terminalReason)
    && (r.budgetExhausted <==>
          || r.terminalReason == ToolCostBudgetExhausted || r.terminalReason == StepBudgetExhausted
          || r.terminalReason == GenerativeBudgetExhausted)
  }

  lemma ReceiptOf(task: PublicTask, w: World, s: State, bundlePasses: bool, hasSink: bool)
    requires s.end.Some?
    ensures var r, reason := Receipt(task, w, s, bundlePasses, hasSink), s.end.value.reason;
      && r.terminalReason == reason && r.observations == s.observations && r.trajectory == s.trajectory
      && r.generatedCandidates == s.candidates && r.generativeCalls == |s.candidates|
      && (r.budgetExhausted <==>
            || reason == ToolCostBudgetExhausted || reason == StepBudgetExhausted
            || reason == GenerativeBudgetExhausted)
  {
    hide Ledger.Accepts, BundleBinds, WithReceipt, Admissible;
  }

  /** How every run ends. A run of `n` decisions ends for a reason if and only if the condition of that
      reason holds of its last decision and what was answered; all decisions before were passed on,
      answered, and left the run affordable. Exactly the three budget endings count as exhausted
      budgets, and each ending leaves its own mark. */
  lemma EndingIsExact(task: PublicTask, w: World, bundlePasses: bool, hasSink: bool)
    ensures var r, s := Receipt(task, w, Final(task, w), bundlePasses, hasSink), Final(task, w);
      ExactEnd(task, w, r, s.steps)
  {
    hide Play, EndsBy, Receipt, SeenBefore, GoesOn, Begin, Actions, Affordable;
    ReceiptOf(task, w, Final(task, w), bundlePasses, hasSink);
    BeginUnderWay(task, w);
    PlayEndsExactly(task, w, Begin(task, w));
    BeginInOrder(task, w);
    PlayInOrder(task, w, Begin(task, w));
    var s := Final(task, w);
    assert Ended(task, w, s) && InOrder(w, s);
    forall reason: Reason | EndsBy(task, w, s.steps, |s.candidates|, reason) ensures reason == s.end.value.reason {
      OneEnding(task, w, s.steps, |s.candidates|, reason, s.end.value.reason);
    }
  }

  /** The actions themselves, by name. */
  lemma ActionNames(action: string)
    ensures ActionOf(PolicyDecision(Select, Some(action))) == action
    ensures forall a :: ActionOf(PolicyDecision(CallGenerative, a)) == "CALL_GENERATIVE"
    ensures forall a :: ActionOf(PolicyDecision(DeferTie, a)) == "DEFER_TIE"
    ensures forall a :: ActionOf(PolicyDecision(DeferNoSupport, a)) == "DEFER_NO_SUPPORT"
    ensures forall a :: ActionOf(PolicyDecision(DeferNoAdmissible, a)) == "DEFER_NO_ADMISSIBLE"
  {
  }
}
