/** One episode of the gym (`ReferenceGym.run` in `gym/core.py`): a policy, a generator and a
    host answer in turn, every answer is written to the trajectory ledger, and budgets and
    contract checks end the run. The three parties are arbitrary: each is a stream of
    answers, the k-th answer being whatever the party says on its k-th turn. */
module Episode {
  import opened Json
  import opened HashChain
  import Ledger
  import opened Evidence

  datatype DecisionKind = Select | DeferTie | DeferNoSupport | DeferNoAdmissible | CallGenerative

  datatype PolicyDecision = PolicyDecision(kind: DecisionKind, action: Option<string>)

  datatype Reason =
    | EnvironmentDone | ToolCostBudgetExhausted | StepBudgetExhausted | GenerativeBudgetExhausted
    | GeneratorUnavailable | ActionUnsupported | InvalidPolicyAction

  function KindWord(k: DecisionKind): Word {
    match k
    case Select => SELECT
    case DeferTie => DEFER_TIE
    case DeferNoSupport => DEFER_NO_SUPPORT
    case DeferNoAdmissible => DEFER_NO_ADMISSIBLE
    case CallGenerative => CALL_GENERATIVE
  }

  /** `decision.kind.value`, used as the action when the policy defers. */
  function KindText(k: DecisionKind): string {
    match k
    case Select => "SELECT"
    case DeferTie => "DEFER_TIE"
    case DeferNoSupport => "DEFER_NO_SUPPORT"
    case DeferNoAdmissible => "DEFER_NO_ADMISSIBLE"
    case CallGenerative => "CALL_GENERATIVE"
  }

  function ReasonWord(r: Reason): Word {
    match r
    case EnvironmentDone => ENVIRONMENT_DONE
    case ToolCostBudgetExhausted => TOOL_COST_BUDGET_EXHAUSTED
    case StepBudgetExhausted => STEP_BUDGET_EXHAUSTED
    case GenerativeBudgetExhausted => GENERATIVE_BUDGET_EXHAUSTED
    case GeneratorUnavailable => GENERATOR_UNAVAILABLE
    case ActionUnsupported => ACTION_UNSUPPORTED
    case InvalidPolicyAction => INVALID_POLICY_ACTION
  }

  predicate IsBudgetReason(r: Reason) {
    r.ToolCostBudgetExhausted? || r.StepBudgetExhausted? || r.GenerativeBudgetExhausted?
  }

  /** `_validate_decision`: the check every endpoint makes on a decision before it crosses the boundary. */
  predicate ValidDecision(d: PolicyDecision) {
    if d.kind.Select? then d.action.Some? && d.action.value != "" else d.action.None?
  }

  function DecisionJson(d: PolicyDecision): Object {
    map[Key.Kind := Fixed(KindWord(d.kind)), Key.Action := OptionalStr(d.action)]
  }

  datatype Budget = Budget(maxSteps: int, maxGenerativeCalls: Option<int>, maxToolCost: Option<real>)

  /** What a policy may see of a task. */
  datatype AgentTaskView = AgentTaskView(
    taskId: string, domain: string, description: string, allowedActions: seq<string>, budget: Budget,
    publicTests: seq<string>, publicInputs: seq<Json>)

  datatype PublicTask = PublicTask(
    taskId: string, domain: string, skillTargets: seq<string>, description: string, environment: Object,
    allowedActions: seq<string>, budget: Budget, split: string,
    publicTests: seq<string>, metadata: Object)
  {
    function AgentView(): AgentTaskView {
      var inputs := Get(environment, Other("public_inputs"));
      AgentTaskView(taskId, domain, description, allowedActions, budget, publicTests,
                    if inputs.Arr? then inputs.items else [])
    }
  }

  function BudgetJson(b: Budget): Json {
    Obj(map[Other("max_steps") := Int(b.maxSteps),
            Other("max_generative_calls") :=
              (if b.maxGenerativeCalls.Some? then Int(b.maxGenerativeCalls.value) else Null),
            Other("max_tool_cost") := (if b.maxToolCost.Some? then Real(b.maxToolCost.value) else Null)])
  }

  /** `asdict(agent_task_view)` */
  function ViewJson(v: AgentTaskView): Json {
    Obj(map[Other("task_id") := Str(v.taskId), Other("domain") := Str(v.domain),
            Other("description") := Str(v.description), Other("allowed_actions") := StrList(v.allowedActions),
            Other("budget") := BudgetJson(v.budget), Other("public_tests") := StrList(v.publicTests),
            Other("public_inputs") := Arr(v.publicInputs)])
  }

  /** `asdict(public_task)` */
  function TaskJson(t: PublicTask): Json {
    Obj(map[Other("task_id") := Str(t.taskId), Other("domain") := Str(t.domain),
            Other("skill_targets") := StrList(t.skillTargets), Other("description") := Str(t.description),
            Other("environment") := Obj(t.environment),
            Other("allowed_actions") := StrList(t.allowedActions), Other("budget") := BudgetJson(t.budget),
            Other("split") := Str(t.split), Other("public_tests") := StrList(t.publicTests),
            Other("metadata") := Obj(t.metadata)])
  }

  datatype StepReply =
    | Rejected
    | Outcome(observations: seq<Observation>, done: bool, acceptedCandidate: Option<bool>)

  /** Everything outside the gym: the answers of the other parties, turn by turn, and the two
      digest functions. */
  datatype World = World(
    h: Hasher,
    textSha: string -> string,
    reset: seq<Observation>,
    policy: nat -> PolicyDecision,
    generator: Option<nat -> string>,
    host: nat -> StepReply,
    verdict: bool)

  /** What the gym says to its policy and generator. */
  datatype Call =
    | Decide(observations: seq<Observation>, trajectory: seq<string>, decision: PolicyDecision)
    | Generate(seen: seq<Observation>, attempt: nat, candidate: string)

  datatype Ending = Ending(reason: Reason, cause: Option<string>)

  datatype State = State(
    observations: seq<Observation>,
    trajectory: seq<string>,
    candidates: seq<string>,
    steps: nat,
    entries: seq<Entry>,
    calls: seq<Call>,
    end: Option<Ending>)

  function ToolCost(items: seq<Observation>): real {
    if items == [] then 0.0 else ToolCost(items[..|items| - 1]) + items[|items| - 1].cost
  }

  predicate OverCost(task: PublicTask, items: seq<Observation>) {
    task.budget.maxToolCost.Some? && ToolCost(items) > task.budget.maxToolCost.value
  }

  function MaxGenerative(task: PublicTask): int {
    if task.budget.maxGenerativeCalls.Some? then task.budget.maxGenerativeCalls.value else 0
  }

  // ----- One turn -----

  /** A decision either ends the run on the spot, with a trajectory mark, or becomes an action
      for the host. */
  datatype Ruling = Refused(mark: string, why: Reason) | Act(action: string)

  const CALL_ACTION: string := "CALL_GENERATIVE"

  function Rule(task: PublicTask, w: World, decision: PolicyDecision, calls: nat): Ruling {
    match decision.kind
    case Select =>
      if decision.action.None? || decision.action.value !in task.allowedActions
      then Refused("DEFER_NO_ADMISSIBLE", InvalidPolicyAction)
      else Act(decision.action.value)
    case CallGenerative =>
      if CALL_ACTION !in task.allowedActions then Refused("DEFER_NO_SUPPORT", ActionUnsupported)
      else if w.generator.None? then Refused("DEFER_NO_SUPPORT", GeneratorUnavailable)
      else if calls >= MaxGenerative(task) then Refused("BUDGET_EXHAUSTED", GenerativeBudgetExhausted)
      else Act(CALL_ACTION)
    case _ => Act(KindText(decision.kind))
  }

  function Begin(task: PublicTask, w: World): State {
    var start := Append(w.h, [], EPISODE_START,
                        Ledger.StartPayload(w.h(ViewJson(task.AgentView())), w.h(TaskJson(task))));
    var entries := Append(w.h, start, OBSERVATION_BATCH, Ledger.BatchPayload(w.h, ToDicts(w.reset), RESET));
    if OverCost(task, w.reset)
    then State(w.reset, ["BUDGET_EXHAUSTED"], [], 0, entries, [], Some(Ending(ToolCostBudgetExhausted, None)))
    else State(w.reset, [], [], 0, entries, [], None)
  }

  /** The policy is asked and its decision recorded. */
  function Ask(w: World, s: State): State {
    var decision := w.policy(s.steps);
    s.(steps := s.steps + 1,
       calls := s.calls + [Decide(s.observations, s.trajectory, decision)],
       entries := Append(w.h, s.entries, DECISION,
                         Ledger.DecisionPayload(w.h, DecisionJson(decision), ToDicts(s.observations))))
  }

  /** The generator is asked for its next candidate. */
  function Draft(w: World, s: State): State
    requires w.generator.Some?
  {
    var candidate := w.generator.value(|s.candidates|);
    s.(candidates := s.candidates + [candidate],
       calls := s.calls + [Generate(s.observations, |s.candidates| + 1, candidate)])
  }

  function CandidateSha(w: World, s: State, decision: PolicyDecision): Option<string>
    requires decision.kind.CallGenerative? ==> s.candidates != []
  {
    if decision.kind.CallGenerative? then Some(w.textSha(s.candidates[|s.candidates| - 1])) else None
  }

  /** The host's answer to an action is recorded and the budgets and the end are checked. */
  function Answer(task: PublicTask, w: World, s: State, action: string, reply: StepReply, candidateSha: Option<string>)
    : State
  {
    match reply
    case Rejected =>
      s.(trajectory := s.trajectory + ["DEFER_NO_ADMISSIBLE"],
         end := Some(Ending(InvalidPolicyAction, Some(Root(s.entries)))))
    case Outcome(observations, done, accepted) =>
      var seen := s.observations + observations;
      var next := s.(
        trajectory := s.trajectory + [action],
        observations := seen,
        entries := Append(w.h, s.entries, ACTION_RESULT,
          Ledger.ResultPayload(w.h, Root(s.entries), action, ToDicts(observations), done, accepted, candidateSha)));
      if OverCost(task, seen) then
        next.(trajectory := next.trajectory + ["BUDGET_EXHAUSTED"], end := Some(Ending(ToolCostBudgetExhausted, None)))
      else if done then next.(end := Some(Ending(EnvironmentDone, None)))
      else next
  }

  function TakeTurn(task: PublicTask, w: World, s: State): State
    requires s.end.None?
  {
    if s.steps >= task.budget.maxSteps then
      s.(trajectory := s.trajectory + ["BUDGET_EXHAUSTED"], end := Some(Ending(StepBudgetExhausted, None)))
    else
      var decision, asked := w.policy(s.steps), Ask(w, s);
      match Rule(task, w, decision, |s.candidates|)
      case Refused(mark, why) =>
        asked.(trajectory := asked.trajectory + [mark], end := Some(Ending(why, Some(Root(asked.entries)))))
      case Act(action) =>
        var drafted := if decision.kind.CallGenerative? then Draft(w, asked) else asked;
        Answer(task, w, drafted, action, w.host(s.steps), CandidateSha(w, drafted, decision))
  }

  lemma TurnAdvances(task: PublicTask, w: World, s: State)
    requires s.end.None?
    ensures var t := TakeTurn(task, w, s);
      t.end.Some? || (t.steps == s.steps + 1 && s.steps < task.budget.maxSteps)
  {
  }

  function Fuel(task: PublicTask, s: State): int {
    if s.end.Some? then 0 else if s.steps < task.budget.maxSteps then task.budget.maxSteps - s.steps + 1 else 1
  }

  function Play(task: PublicTask, w: World, s: State): State
    decreases Fuel(task, s)
  {
    if s.end.Some? then s
    else
      TurnAdvances(task, w, s);
      Play(task, w, TakeTurn(task, w, s))
  }

  /** The whole run up to its ending. */
  function Final(task: PublicTask, w: World): (s: State)
    ensures s.end.Some?
  {
    PlayEnds(task, w, Begin(task, w));
    Play(task, w, Begin(task, w))
  }

  // ----- The receipt -----

  datatype Admission = Admission(
    semanticValid: bool, provenanceValid: bool, trajectoryValid: bool, integrityValid: bool, admitted: bool)

  datatype EpisodeResult = EpisodeResult(
    taskId: string, split: string, domain: string,
    trajectory: seq<string>, observations: seq<Observation>, admission: Admission,
    learningUpdated: bool, generativeCalls: nat, terminalReason: Reason, budgetExhausted: bool,
    generatedCandidates: seq<string>,
    ledgerRoot: Option<string>, ledgerEntryCount: int, ledgerEntries: seq<Entry>)
  {
    predicate Accepted() { admission.admitted }

    /** The document a consumer rebuilds from a result before trusting it. */
    function Document(): Object {
      map[Key.Format := Fixed(LEDGER_FORMAT), Key.RootSha256 := OptionalStr(ledgerRoot),
          Key.EntryCount := Int(ledgerEntryCount), Key.Entries := Arr(ToRaw(ledgerEntries))]
    }
  }

  /** The ledger half of `ProofBundleVerifier.verify`: the ledger verifies, starts from this
      task and ends in a receipt for these observations and verdicts. */
  ghost predicate BundleBinds(h: Hasher, task: PublicTask, items: seq<Observation>, semanticValid: bool,
                              provenanceValid: bool, document: Object)
  {
    && Ledger.Accepts(h, document)
    && var raw := Ledger.Entries(document);
       var start, end := PayloadOf(raw[0]), PayloadOf(raw[|raw| - 1]);
       && Get(start, Key.AgentTaskViewSha256) == Str(h(ViewJson(task.AgentView())))
       && Get(start, Key.HostTaskCommitment) == Str(h(TaskJson(task)))
       && Get(end, Key.ObservationFrontierSha256) == Str(Ledger.FrontierSha(h, ToDicts(items)))
       && EqualsBool(Get(end, Key.SemanticValid), semanticValid)
       && EqualsBool(Get(end, Key.ProvenanceValid), provenanceValid)
  }

  method CheckBundle(h: Hasher, task: PublicTask, items: seq<Observation>, semanticValid: bool,
                     provenanceValid: bool, document: Object)
    returns (ok: bool)
    ensures ok <==> BundleBinds(h, task, items, semanticValid, provenanceValid, document)
  {
    hide Ledger.Complete, ViewJson, TaskJson, ToDicts;
    ok := Ledger.VerifyLedgerDocument(h, document);
    if !ok { return; }
    var raw := Ledger.Entries(document);
    assert raw != [] by { Ledger.AcceptedNonEmpty(h, document); }
    var start, end := PayloadOf(raw[0]), PayloadOf(raw[|raw| - 1]);
    if Get(start, Key.AgentTaskViewSha256) != Str(h(ViewJson(task.AgentView()))) { return false; }
    if Get(start, Key.HostTaskCommitment) != Str(h(TaskJson(task))) { return false; }
    if Get(end, Key.ObservationFrontierSha256) != Str(Ledger.FrontierSha(h, ToDicts(items))) { return false; }
    if !EqualsBool(Get(end, Key.SemanticValid), semanticValid) { return false; }
    return EqualsBool(Get(end, Key.ProvenanceValid), provenanceValid);
  }

  /** The ledger closed by its receipt. */
  function WithReceipt(w: World, s: State, semanticValid: bool, provenanceValid: bool): seq<Entry>
    requires s.end.Some?
  {
    Append(w.h, s.entries, TERMINAL, Ledger.TerminalPayload(
      w.h, ReasonWord(s.end.value.reason), semanticValid, provenanceValid, IsBudgetReason(s.end.value.reason),
      ToDicts(s.observations), s.end.value.cause))
  }

  predicate SemanticallyValid(w: World, s: State) {
    s.end.Some? && s.end.value.reason.EnvironmentDone? && w.verdict
  }

  /** What `run` returns; `bundlePasses` is the artifact verifier's word on the written bundle. */
  ghost function Receipt(task: PublicTask, w: World, s: State, bundlePasses: bool, hasSink: bool): EpisodeResult
    requires s.end.Some?
  {
    var semantic, provenance := SemanticallyValid(w, s), Admissible(s.observations);
    var entries := WithReceipt(w, s, semantic, provenance);
    var trajectoryValid := Ledger.Accepts(w.h, Ledger.Document(entries));
    var integrity := bundlePasses
      && BundleBinds(w.h, task, s.observations, semantic, provenance, Ledger.Document(entries));
    var admitted := semantic && provenance && trajectoryValid && integrity;
    EpisodeResult(
      task.taskId, task.split, task.domain, s.trajectory, s.observations,
      Admission(semantic, provenance, trajectoryValid, integrity, admitted),
      admitted && task.split == "train" && hasSink,
      |s.candidates|, s.end.value.reason, IsBudgetReason(s.end.value.reason), s.candidates,
      Some(Root(entries)), |entries|, entries)
  }

  lemma {:induction false} PlayEnds(task: PublicTask, w: World, s: State)
    ensures Play(task, w, s).end.Some?
    decreases Fuel(task, s)
  {
    if s.end.None? {
      TurnAdvances(task, w, s);
      PlayEnds(task, w, TakeTurn(task, w, s));
    }
  }
}
