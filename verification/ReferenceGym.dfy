/** `ReferenceGym.run` as the loop it is, over its own variables and a ledger object, tied to
    the specification in `Episode`. */
module ReferenceGym {
  import opened Json
  import opened HashChain
  import Ledger
  import opened Evidence
  import opened Episode
  import AgentAdapter

  function EndOf(reason: Option<Reason>, cause: Option<string>): Option<Ending> {
    if reason.Some? then Some(Ending(reason.value, cause)) else None
  }

  /** Who answers the gym's calls: an adapter, when there is one, also writes each of them down. */
  method Tell(adapter: AgentAdapter.AgentEndpointPolicyAdapter?, task: PublicTask, w: World, calls: seq<Call>,
              call: Call)
    returns (told: seq<Call>)
    requires adapter != null ==> adapter.Holds(w, task.AgentView(), calls)
    modifies if adapter == null then {} else {adapter, adapter.transcript}
    ensures told == calls + [call]
    ensures adapter != null ==> adapter.Holds(w, task.AgentView(), told)
  {
    if adapter != null { adapter.Forward(w, task.AgentView(), calls, call); }
    return calls + [call];
  }

  /** The state in which the host is asked: the decision recorded and any candidate drafted. */
  function Drafted(w: World, s: State, decision: PolicyDecision): State
    requires decision.kind.CallGenerative? ==> w.generator.Some?
  {
    if decision.kind.CallGenerative? then Draft(w, Ask(w, s)) else Ask(w, s)
  }

  /** The end of a turn: the host's answer is recorded, the budget and the end are checked. */
  method Settle(task: PublicTask, w: World, ledger: Ledger.TrajectoryLedger, decisionHash: string, action: string,
                reply: StepReply, candidateSha: Option<string>, observations: seq<Observation>, trajectory: seq<string>,
                ghost s: State)
    returns (observations': seq<Observation>, trajectory': seq<string>, reason: Option<Reason>, cause: Option<string>)
    requires ledger.Valid() && ledger.h == w.h && s.entries == ledger.entries && s.end.None?
    requires decisionHash == Root(s.entries) && observations == s.observations && trajectory == s.trajectory
    modifies ledger
    ensures ledger.Valid()
    ensures Answer(task, w, s, action, reply, candidateSha)
      == s.(observations := observations', trajectory := trajectory', entries := ledger.entries,
            end := EndOf(reason, cause))
    ensures cause.Some? ==> reason.Some?
    ensures reason.Some? ==>
      reason.value.InvalidPolicyAction? || reason.value.EnvironmentDone? || reason.value.ToolCostBudgetExhausted?
  {
    hide Ledger.ResultPayload, Append, ToDicts, Chained, OverCost, Ledger.FrontierSha;
    observations', trajectory', reason, cause := observations, trajectory, None, None;
    if reply.Rejected? {
      trajectory' := trajectory' + ["DEFER_NO_ADMISSIBLE"];
      reason, cause := Some(InvalidPolicyAction), Some(decisionHash);
      return;
    }
    trajectory' := trajectory' + [action];
    ledger.RecordActionResult(decisionHash, action, ToDicts(reply.observations), reply.done, reply.acceptedCandidate,
                              candidateSha);
    observations' := observations' + reply.observations;
    if OverCost(task, observations') {
      trajectory' := trajectory' + ["BUDGET_EXHAUSTED"];
      reason := Some(ToolCostBudgetExhausted);
    } else if reply.done {
      reason := Some(EnvironmentDone);
    }
  }

  /** One turn within the step budget: the policy decides, its decision is recorded and ruled on,
      and an action goes to the host. */
  method OneTurn(task: PublicTask, w: World, adapter: AgentAdapter.AgentEndpointPolicyAdapter?,
                 ledger: Ledger.TrajectoryLedger, observations: seq<Observation>, trajectory: seq<string>,
                 candidates: seq<string>, stepsTaken: nat, calls: seq<Call>, ghost s: State)
    returns (observations': seq<Observation>, trajectory': seq<string>, candidates': seq<string>, calls': seq<Call>,
             reason: Option<Reason>, cause: Option<string>)
    requires ledger.Valid() && ledger.h == w.h
    requires adapter != null ==> adapter.Holds(w, task.AgentView(), calls)
    requires s == State(observations, trajectory, candidates, stepsTaken, ledger.entries, calls, None)
    requires stepsTaken < task.budget.maxSteps
    modifies ledger, if adapter == null then {} else {adapter, adapter.transcript}
    ensures ledger.Valid()
    ensures adapter != null ==> adapter.Holds(w, task.AgentView(), calls')
    ensures TakeTurn(task, w, s)
      == State(observations', trajectory', candidates', stepsTaken + 1, ledger.entries, calls', EndOf(reason, cause))
    ensures cause.Some? ==> reason.Some?
  {
    hide Ledger.DecisionPayload, Append, ToDicts, DecisionJson, Chained, KindText, OverCost, MaxGenerative,
      Ledger.FrontierSha, Answer, NextEntry, TakeTurn, Rule, CandidateSha;
    TurnIs(task, w, s);
    observations', trajectory', candidates', reason, cause := observations, trajectory, candidates, None, None;
    var decision, reply := w.policy(stepsTaken), w.host(stepsTaken);
    calls' := Tell(adapter, task, w, calls, Decide(observations, trajectory, decision));
    var entry := ledger.RecordDecision(DecisionJson(decision), ToDicts(observations));
    var ruling := Rule(task, w, decision, |candidates|);
    if ruling.Refused? {
      trajectory' := trajectory + [ruling.mark];
      reason, cause := Some(ruling.why), Some(entry.entryHash);
      return;
    }
    var candidate: Option<string> := None;
    if decision.kind == CallGenerative {
      candidate := Some(w.generator.value(|candidates|));
      calls' := Tell(adapter, task, w, calls', Generate(observations, |candidates| + 1, candidate.value));
      candidates' := candidates + [candidate.value];
    }
    var candidateSha := if candidate.Some? then Some(w.textSha(candidate.value)) else None;
    observations', trajectory', reason, cause :=
      Settle(task, w, ledger, entry.entryHash, ruling.action, reply, candidateSha,
             observations, trajectory, Drafted(w, s, decision));
  }

  method Run(task: PublicTask, w: World, bundlePasses: bool, hasSink: bool,
             adapter: AgentAdapter.AgentEndpointPolicyAdapter?)
    returns (result: EpisodeResult, calls: seq<Call>)
    requires adapter != null ==> adapter.Holds(w, task.AgentView(), [])
    modifies if adapter == null then {} else {adapter, adapter.transcript}
    ensures adapter != null ==> adapter.Holds(w, task.AgentView(), calls)
    ensures result == Receipt(task, w, Final(task, w), bundlePasses, hasSink)
    ensures calls == Final(task, w).calls
  {
    hide Ledger.BatchPayload, Ledger.DecisionPayload, Ledger.ResultPayload, Ledger.TerminalPayload,
      Ledger.StartPayload, Ledger.Accepts, Append, ToDicts, ViewJson, TaskJson, DecisionJson, BundleBinds, Chained,
      Begin, Admissible, KindText, OverCost, Receipt, MaxGenerative, Ledger.FrontierSha,
      Play, Final, Fuel, NextEntry;
    var observations := w.reset;
    var trajectory: seq<string> := [];
    var candidates: seq<string> := [];
    var stepsTaken := 0;
    var reason: Option<Reason> := None;
    var cause: Option<string> := None;
    var done, budgetExhausted := false, false;
    calls := [];

    var ledger := new Ledger.TrajectoryLedger(w.h, w.h(ViewJson(task.AgentView())), w.h(TaskJson(task)));
    ledger.RecordObservationBatch(ToDicts(observations), RESET);
    if OverCost(task, observations) {
      budgetExhausted := true;
      reason := Some(ToolCostBudgetExhausted);
      trajectory := trajectory + ["BUDGET_EXHAUSTED"];
    }
    BeginIs(task, w);
    PlayIs(task, w, Begin(task, w));
    ghost var s := Begin(task, w);

    while reason.None?
      invariant ledger.Valid() && ledger.h == w.h && fresh(ledger)
      invariant adapter != null ==> adapter.Holds(w, task.AgentView(), calls)
      invariant Play(task, w, s) == Final(task, w)
      invariant s == State(observations, trajectory, candidates, stepsTaken, ledger.entries, calls,
                           EndOf(reason, cause))
      invariant done == (reason == Some(EnvironmentDone))
      invariant budgetExhausted == (reason.Some? && IsBudgetReason(reason.value))
      invariant reason.None? ==> cause.None?
      decreases if reason.Some? then 0
        else if stepsTaken < task.budget.maxSteps then task.budget.maxSteps - stepsTaken + 1 else 1
    {
      PlayIs(task, w, s);
      ghost var before := s;
      s := TakeTurn(task, w, s);
      if stepsTaken >= task.budget.maxSteps {
        budgetExhausted := true;
        reason := Some(StepBudgetExhausted);
        trajectory := trajectory + ["BUDGET_EXHAUSTED"];
        continue;
      }

      observations, trajectory, candidates, calls, reason, cause :=
        OneTurn(task, w, adapter, ledger, observations, trajectory, candidates, stepsTaken, calls, before);
      stepsTaken := stepsTaken + 1;
      done := reason == Some(EnvironmentDone);
      budgetExhausted := reason.Some? && IsBudgetReason(reason.value);
    }

    PlayIs(task, w, s);
    result := Conclude(task, w, bundlePasses, hasSink, ledger, observations, trajectory, candidates, reason.value,
                       cause, done, budgetExhausted, s);
  }

  /** What follows the loop: verdicts, the terminal receipt, verification and admission. */
  method Conclude(task: PublicTask, w: World, bundlePasses: bool, hasSink: bool, ledger: Ledger.TrajectoryLedger,
                  observations: seq<Observation>, trajectory: seq<string>, candidates: seq<string>, reason: Reason,
                  cause: Option<string>, done: bool, budgetExhausted: bool, ghost s: State)
    returns (result: EpisodeResult)
    requires ledger.Valid() && ledger.h == w.h
    requires s.observations == observations && s.trajectory == trajectory && s.candidates == candidates
    requires s.entries == ledger.entries && s.end == Some(Ending(reason, cause))
    requires done == (reason == EnvironmentDone) && budgetExhausted == IsBudgetReason(reason)
    modifies ledger
    ensures result == Receipt(task, w, s, bundlePasses, hasSink)
  {
    hide Ledger.TerminalPayload, Ledger.Accepts, Append, ToDicts, ViewJson, TaskJson, BundleBinds, Chained, Admissible;
    var semanticValid := done && !budgetExhausted && reason == EnvironmentDone && w.verdict;
    var provenanceValid := CheckProvenance(observations);
    ledger.RecordTerminal(ReasonWord(reason), semanticValid, provenanceValid, budgetExhausted,
      ToDicts(observations), cause);
    var document := ledger.ToDocument();
    var trajectoryValid := Ledger.VerifyLedgerDocument(w.h, document);
    var bundle := CheckBundle(w.h, task, observations, semanticValid, provenanceValid, document);
    var integrityValid := bundlePasses && bundle;
    var admitted := semanticValid && provenanceValid && trajectoryValid && integrityValid;
    var learningUpdated := admitted && task.split == "train" && hasSink;
    result := EpisodeResult(
      task.taskId, task.split, task.domain, trajectory, observations,
      Admission(semanticValid, provenanceValid, trajectoryValid, integrityValid, admitted),
      learningUpdated, |candidates|, reason, budgetExhausted, candidates,
      Some(Root(ledger.entries)), |ledger.entries|, ledger.entries);
  }

  lemma TurnIs(task: PublicTask, w: World, s: State)
    requires s.end.None?
    ensures s.steps >= task.budget.maxSteps ==>
      TakeTurn(task, w, s)
        == s.(trajectory := s.trajectory + ["BUDGET_EXHAUSTED"], end := Some(Ending(StepBudgetExhausted, None)))
    ensures s.steps < task.budget.maxSteps ==>
      var decision, asked := w.policy(s.steps), Ask(w, s);
      match Rule(task, w, decision, |s.candidates|)
      case Refused(mark, why) =>
        TakeTurn(task, w, s)
          == asked.(trajectory := asked.trajectory + [mark], end := Some(Ending(why, Some(Root(asked.entries)))))
      case Act(action) =>
        && (decision.kind.CallGenerative? ==> w.generator.Some?)
        && var drafted := Drafted(w, s, decision);
           TakeTurn(task, w, s) == Answer(task, w, drafted, action, w.host(s.steps),
             if decision.kind.CallGenerative? then Some(w.textSha(w.generator.value(|s.candidates|))) else None)
  {
    hide Append, ToDicts, DecisionJson, Answer, KindText, Root;
  }

  lemma BeginIs(task: PublicTask, w: World)
    ensures var start := Append(w.h, [], EPISODE_START,
              Ledger.StartPayload(w.h(ViewJson(task.AgentView())), w.h(TaskJson(task))));
      var entries := Append(w.h, start, OBSERVATION_BATCH, Ledger.BatchPayload(w.h, ToDicts(w.reset), RESET));
      Begin(task, w) == if OverCost(task, w.reset)
        then State(w.reset, ["BUDGET_EXHAUSTED"], [], 0, entries, [], Some(Ending(ToolCostBudgetExhausted, None)))
        else State(w.reset, [], [], 0, entries, [], None)
  {
  }

  lemma PlayIs(task: PublicTask, w: World, s: State)
    ensures Final(task, w) == Play(task, w, Begin(task, w))
    ensures Play(task, w, s) == if s.end.Some? then s else Play(task, w, TakeTurn(task, w, s))
  {
    hide TakeTurn;
  }
}
