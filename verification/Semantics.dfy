/** The fixed abstraction under both learners (`gym/adaptive_policy.py`): evidence is encoded as a
    semantic state, decisions as canonical intents. */
module Semantics {
  import opened Json
  import opened Episode

  // ----- States -----

  datatype SemanticState =
    | SYNTHESIS_REQUIRED | NO_SUPPORTED_ACTUATOR
    | REPO_NEEDS_REGRESSION | REPO_NEEDS_REPAIR | REPO_NEEDS_EXECUTION
    | PROCESS_RESTARTED_NEEDS_VERIFY | PROCESS_STOPPED_CONFIRMED | PROCESS_RUNNING_CONFIRMED | PROCESS_STATE_AMBIGUOUS
    | AUTHORITY_SLOT_1 | AUTHORITY_SLOT_2 | AUTHORITY_UNKNOWN
    | UNKNOWN

  /** The last observation of a check, if any. */
  function Latest(items: seq<Json>, check: string): Option<Object> {
    if items == [] then None
    else
      var last := Fields(items[|items| - 1]);
      if Get(last, Key.CheckId) == Str(check) then Some(last) else Latest(items[..|items| - 1], check)
  }

  predicate Has(latest: map<string, Object>, check: string) {
    check in latest
  }

  predicate StatusIs(latest: map<string, Object>, check: string, status: string) {
    check in latest && Get(latest[check], Key.Status) == Str(status)
  }

  predicate ValueIs(latest: map<string, Object>, check: string, value: string) {
    check in latest && Get(latest[check], Key.Value) == Str(value)
  }

  /** A signed slot in the provenance that was looked up, by its name in either domain. */
  predicate Signed(latest: map<string, Object>, source: string, config: string) {
    var p := if "provenance" in latest then Some(latest["provenance"])
             else if "config-origin" in latest then Some(latest["config-origin"]) else None;
    p.Some? && Get(p.value, Key.Value).Obj? &&
    var value := Get(p.value, Key.Value).fields;
    Get(value, Other(source)) == Str("signed") || Get(value, Other(config)) == Str("signed")
  }

  function RepositoryState(latest: map<string, Object>): Option<SemanticState> {
    if StatusIs(latest, "patch", "PASS") && !Has(latest, "regression") then Some(REPO_NEEDS_REGRESSION)
    else if StatusIs(latest, "targeted-test", "FAIL") && !StatusIs(latest, "patch", "PASS") then Some(REPO_NEEDS_REPAIR)
    else if !Has(latest, "targeted-test") then Some(REPO_NEEDS_EXECUTION)
    else None
  }

  function ProcessState(latest: map<string, Object>): Option<SemanticState> {
    if Has(latest, "process-state") && StatusIs(latest, "restart", "PASS") then Some(PROCESS_RESTARTED_NEEDS_VERIFY)
    else if ValueIs(latest, "process-state", "stopped") then Some(PROCESS_STOPPED_CONFIRMED)
    else if ValueIs(latest, "process-state", "running") then Some(PROCESS_RUNNING_CONFIRMED)
    else if Has(latest, "health") then Some(PROCESS_STATE_AMBIGUOUS)
    else None
  }

  predicate InRepository(domain: string, latest: map<string, Object>) {
    || domain == "repository_coding"
    || Has(latest, "static-review") || Has(latest, "historical-regression") || Has(latest, "targeted-test")
    || Has(latest, "patch") || Has(latest, "regression")
  }

  /** The branches of `encode`, on the last observation of every check. */
  function StateFrom(domain: string, latest: map<string, Object>): SemanticState {
    if Has(latest, "bounded-actions") || StatusIs(latest, "generated-candidate", "FAIL") then SYNTHESIS_REQUIRED
    else if StatusIs(latest, "capability", "FAIL") then NO_SUPPORTED_ACTUATOR
    else if InRepository(domain, latest) && RepositoryState(latest).Some? then RepositoryState(latest).value
    else if ProcessState(latest).Some? then ProcessState(latest).value
    else if Signed(latest, "source_a", "project") then AUTHORITY_SLOT_1
    else if Signed(latest, "source_b", "cache") then AUTHORITY_SLOT_2
    else if (Has(latest, "source-a") && Has(latest, "source-b"))
            || (Has(latest, "project-config") && Has(latest, "cache-config")) then AUTHORITY_UNKNOWN
    else UNKNOWN
  }

  /** The dictionary `encode` fills: the last observation of each check. */
  function LatestOf(items: seq<Json>): map<string, Object> {
    if items == [] then map[]
    else
      var last, before := Fields(items[|items| - 1]), LatestOf(items[..|items| - 1]);
      if Get(last, Key.CheckId).Str? then before[Get(last, Key.CheckId).s := last] else before
  }

  function Encode(domain: string, items: seq<Json>): SemanticState {
    StateFrom(domain, LatestOf(items))
  }

  /** `SemanticStateEncoder.encode`: a later observation of a check replaces an earlier one. */
  method EncodeState(domain: string, items: seq<Json>) returns (state: SemanticState)
    ensures state == Encode(domain, items)
  {
    var latest: map<string, Object> := map[];
    for i := 0 to |items|
      invariant latest == LatestOf(items[..i])
    {
      var item := Fields(items[i]);
      assert items[..i + 1][..i] == items[..i];
      if Get(item, Key.CheckId).Str? { latest := latest[Get(item, Key.CheckId).s := item]; }
    }
    assert items[..|items|] == items;
    return StateFrom(domain, latest);
  }

  /** Only the last observation of each check counts: evidence in between is forgotten. */
  lemma {:induction false} LatestIsLast(items: seq<Json>, check: string)
    ensures check in LatestOf(items) <==> Latest(items, check).Some?
    ensures check in LatestOf(items) ==> LatestOf(items)[check] == Latest(items, check).value
  {
    if items != [] { LatestIsLast(items[..|items| - 1], check); }
  }

  lemma SupersededIsForgotten(domain: string, items: seq<Json>, later: seq<Json>)
    requires forall c :: Latest(items, c).Some? ==> Latest(later, c) == Latest(items, c)
    requires forall c :: Latest(later, c).Some? ==> Latest(items, c).Some?
    ensures Encode(domain, items) == Encode(domain, later)
  {
    hide StateFrom, Latest, LatestOf;
    forall c ensures c in LatestOf(items) <==> c in LatestOf(later)
      ensures c in LatestOf(items) ==> LatestOf(items)[c] == LatestOf(later)[c]
    {
      LatestIsLast(items, c);
      LatestIsLast(later, c);
    }
    assert LatestOf(items) == LatestOf(later);
  }

  // ----- Intents -----

  datatype Intent =
    | InspectProcessState | RestartProcess | RetryHealthcheck
    | InspectAuthority | SelectAuthoritySlot1 | SelectAuthoritySlot2
    | RunTargetedTest | ApplyCandidateFix | RunRegression
    | CallGenerator | SafelyDefer

  /** The actions an intent stands for, the preferred one first. */
  function ActionsOf(intent: Intent): seq<string> {
    match intent
    case InspectProcessState => ["INSPECT_PROCESS_STATE"]
    case RestartProcess => ["RESTART_PROCESS"]
    case RetryHealthcheck => ["RETRY_HEALTHCHECK"]
    case InspectAuthority => ["CHECK_PROVENANCE", "INSPECT_CONFIG_ORIGIN"]
    case SelectAuthoritySlot1 => ["SELECT_SOURCE_A", "SELECT_PROJECT_CONFIG"]
    case SelectAuthoritySlot2 => ["SELECT_SOURCE_B", "SELECT_CACHE_CONFIG"]
    case RunTargetedTest => ["RUN_TARGETED_TEST"]
    case ApplyCandidateFix => ["APPLY_CANDIDATE_FIX"]
    case RunRegression => ["RUN_REGRESSION"]
    case CallGenerator => []
    case SafelyDefer => []
  }

  /** `_RAW_TO_INTENT` */
  function RawIntent(action: string): Option<Intent> {
    if action == "INSPECT_PROCESS_STATE" then Some(InspectProcessState)
    else if action == "RESTART_PROCESS" then Some(RestartProcess)
    else if action == "RETRY_HEALTHCHECK" then Some(RetryHealthcheck)
    else if action == "CHECK_PROVENANCE" || action == "INSPECT_CONFIG_ORIGIN" then Some(InspectAuthority)
    else if action == "SELECT_SOURCE_A" || action == "SELECT_PROJECT_CONFIG" then Some(SelectAuthoritySlot1)
    else if action == "SELECT_SOURCE_B" || action == "SELECT_CACHE_CONFIG" then Some(SelectAuthoritySlot2)
    else if action == "RUN_TARGETED_TEST" then Some(RunTargetedTest)
    else if action == "APPLY_CANDIDATE_FIX" then Some(ApplyCandidateFix)
    else if action == "RUN_REGRESSION" then Some(RunRegression)
    else None
  }

  /** `decision_to_intent` */
  function DecisionIntent(decision: Json): Option<Intent> {
    var kind, action := Get(Fields(decision), Key.Kind), Get(Fields(decision), Key.Action);
    if kind == Fixed(CALL_GENERATIVE) then Some(CallGenerator)
    else if kind == Fixed(DEFER_TIE) || kind == Fixed(DEFER_NO_SUPPORT) || kind == Fixed(DEFER_NO_ADMISSIBLE)
    then Some(SafelyDefer)
    else if kind == Fixed(SELECT) && action.Str? then RawIntent(action.s)
    else None
  }

  function FirstAllowed(actions: seq<string>, allowed: seq<string>): Option<string> {
    if actions == [] then None
    else if actions[0] in allowed then Some(actions[0])
    else FirstAllowed(actions[1..], allowed)
  }

  /** `intent_to_decision` */
  function IntentDecision(intent: Intent, allowed: seq<string>): Option<PolicyDecision> {
    match intent
    case CallGenerator => if CALL_ACTION in allowed then Some(PolicyDecision(CallGenerative, None)) else None
    case SafelyDefer => Some(PolicyDecision(DeferNoAdmissible, None))
    case _ =>
      var action := FirstAllowed(ActionsOf(intent), allowed);
      if action.Some? then Some(PolicyDecision(Select, action)) else None
  }

  lemma {:induction false} FirstAllowedIs(actions: seq<string>, allowed: seq<string>)
    ensures var a := FirstAllowed(actions, allowed);
      && (a.Some? ==> a.value in actions && a.value in allowed)
      && (a.None? ==> forall x :: x in actions ==> x !in allowed)
  {
    if actions != [] { FirstAllowedIs(actions[1..], allowed); }
  }

  lemma ProcessActions()
    ensures RawIntent("INSPECT_PROCESS_STATE") == Some(InspectProcessState)
    ensures RawIntent("RESTART_PROCESS") == Some(RestartProcess)
    ensures RawIntent("RETRY_HEALTHCHECK") == Some(RetryHealthcheck)
  {
  }

  lemma AuthorityActions()
    ensures RawIntent("CHECK_PROVENANCE") == RawIntent("INSPECT_CONFIG_ORIGIN") == Some(InspectAuthority)
    ensures RawIntent("SELECT_SOURCE_A") == RawIntent("SELECT_PROJECT_CONFIG") == Some(SelectAuthoritySlot1)
  {
  }

  lemma SlotTwoActions()
    ensures RawIntent("SELECT_SOURCE_B") == RawIntent("SELECT_CACHE_CONFIG") == Some(SelectAuthoritySlot2)
  {
  }

  lemma CodingActions()
    ensures RawIntent("RUN_TARGETED_TEST") == Some(RunTargetedTest)
    ensures RawIntent("APPLY_CANDIDATE_FIX") == Some(ApplyCandidateFix)
    ensures RawIntent("RUN_REGRESSION") == Some(RunRegression)
  {
  }

  lemma ActionsMeanIntent(intent: Intent, action: string)
    requires action in ActionsOf(intent)
    ensures RawIntent(action) == Some(intent)
  {
    hide RawIntent;
    ProcessActions();
    AuthorityActions();
    SlotTwoActions();
    CodingActions();
  }

  lemma IntentHasAction(action: string)
    requires RawIntent(action).Some?
    ensures action in ActionsOf(RawIntent(action).value) && !RawIntent(action).value.CallGenerator?
  {
  }

  /** Whatever decision an intent is turned into for a task, it is within the task's actions and
      reads back as that intent. */
  lemma AdapterRoundTrip(intent: Intent, allowed: seq<string>)
    requires IntentDecision(intent, allowed).Some?
    ensures var d := IntentDecision(intent, allowed).value;
      && DecisionIntent(Obj(DecisionJson(d))) == Some(intent)
      && (d.kind.Select? ==> d.action.Some? && d.action.value in allowed)
      && (d.kind.CallGenerative? ==> CALL_ACTION in allowed)
  {
    hide RawIntent, ActionsOf;
    FirstAllowedIs(ActionsOf(intent), allowed);
    var d := IntentDecision(intent, allowed).value;
    if d.kind.Select? { ActionsMeanIntent(intent, d.action.value); }
  }

  /** An intent read off a decision the task allows can be acted on in that task. */
  lemma AllowedIntentSupported(d: PolicyDecision, allowed: seq<string>)
    requires DecisionIntent(Obj(DecisionJson(d))).Some?
    requires d.kind.Select? ==> d.action.Some? && d.action.value in allowed
    requires d.kind.CallGenerative? ==> CALL_ACTION in allowed
    ensures IntentDecision(DecisionIntent(Obj(DecisionJson(d))).value, allowed).Some?
  {
    hide RawIntent, ActionsOf;
    var intent := DecisionIntent(Obj(DecisionJson(d))).value;
    FirstAllowedIs(ActionsOf(intent), allowed);
    if d.kind.Select? { IntentHasAction(d.action.value); }
  }
}
