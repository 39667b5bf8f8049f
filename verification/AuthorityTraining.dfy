/** The loop of actor, store and environment closed (`gym/negative_experience.py` over
    `gym/host.py`): training on a structured-data task, from nothing learned and nothing stored. */
module AuthorityTraining {
  import opened Json
  import opened HashChain
  import Ledger
  import opened Evidence
  import opened Episode
  import EpisodeLaws
  import opened Host
  import opened HostBoundary
  import opened HostHistory
  import opened HostedRuns
  import HostSemantics
  import opened Replay
  import opened Semantics
  import AdaptivePolicy
  import opened NegativeExperience
  import opened LearningLaws
  import opened Exploration

  // ----- The environment and what it shows -----

  predicate Signs(provenance: Json, source: string) {
    provenance.Obj? && Get(provenance.fields, Other(source)) == Str("signed")
  }

  /** What the environment's constructor accepts: two sources, exactly one of them signed. */
  predicate Scenario(m: Machine) {
    && m.StructuredData? && !m.checked && m.provenance.Obj?
    && m.provenance.fields.Keys == {Other("source_a"), Other("source_b")}
    && Signs(m.provenance, "source_a") != Signs(m.provenance, "source_b")
    && m.admissible == if Signs(m.provenance, "source_a") then "SELECT_SOURCE_A" else "SELECT_SOURCE_B"
  }

  predicate Suits(task: PublicTask) {
    && task.domain != "repository_coding"
    && "CHECK_PROVENANCE" in task.allowedActions
    && "SELECT_SOURCE_A" in task.allowedActions && "SELECT_SOURCE_B" in task.allowedActions
    && task.budget.maxSteps >= 2
    && (task.budget.maxToolCost.Some? ==> task.budget.maxToolCost.value >= 0.2)
  }

  function Measured(m: Machine, k: nat): Emission
    requires m.StructuredData?
  {
    if k == 0 then Seen("source-a", "sensor-a", Nth(1), "measurement", "PASS", m.measurements.0, 0.0)
    else Seen("source-b", "sensor-b", Nth(1), "measurement", "PASS", m.measurements.1, 0.0)
  }

  lemma OpenedShows(taskId: string, snapshotId: string, m: Machine)
    requires m.StructuredData?
    ensures var s := Opened(taskId, snapshotId, m);
      && s.produced
           == [Stamped(taskId, snapshotId, 0, 1, Measured(m, 0)), Stamped(taskId, snapshotId, 1, 1, Measured(m, 1))]
      && s.attempts == map[("source-a", "sensor-a") := 1, ("source-b", "sensor-b") := 1]
      && s.taskId == taskId && s.snapshotId == snapshotId
  {
    hide Stamped, Sound;
    var start, emissions := NewState(taskId, snapshotId, m), Opening(m);
    assert emissions == [Measured(m, 0), Measured(m, 1)];
    assert emissions[..1] == [Measured(m, 0)] && emissions[..1][..0] == [];
    assert StampAll(start, emissions[..1][..0]) == Some(start);
    assert StampAll(start, emissions[..1]) == Stamp(start, Measured(m, 0));
    assert StampAll(start, emissions) == Stamp(Stamp(start, Measured(m, 0)).value, Measured(m, 1));
  }

  lemma LookShows(s: EnvironmentState)
    requires s.machine.StructuredData? && ("provenance", "provenance") !in s.attempts
    ensures var r := TakeStep(s, "CHECK_PROVENANCE", None);
      && r.item.Some? && !r.done && r.accepted == None
      && r.item.value.checkId == "provenance" && r.item.value.value == s.machine.provenance
      && r.item.value.cost == 0.15
      && r.state.produced == s.produced + [r.item.value]
      && r.state.attempts == s.attempts[("provenance", "provenance") := 1]
      && r.state.machine == s.machine.(checked := true) && r.state.verdict == s.verdict
  {
  }

  lemma SelectionEnds(s: EnvironmentState, choice: string)
    requires s.machine.StructuredData? && ("selection", "selection") !in s.attempts
    requires choice == "SELECT_SOURCE_A" || choice == "SELECT_SOURCE_B"
    ensures var r := TakeStep(s, choice, None);
      && r.item.Some? && r.done && r.accepted == None && r.item.value.cost == 0.05
      && r.state.verdict == (s.machine.checked && choice == s.machine.admissible)
  {
  }

  // ----- What the actor makes of it -----

  lemma LatestOfTwo(a: Observation, b: Observation)
    ensures LatestOf(ToDicts([a, b])) == map[a.checkId := ToDict(a).fields, b.checkId := ToDict(b).fields]
  {
    hide ToDict;
    assert ToDicts([a, b]) == [] + [ToDict(a)] + [ToDict(b)];
    HostSemantics.LatestNext([], a);
    HostSemantics.LatestNext([] + [ToDict(a)], b);
    assert LatestOf([]) == map[];
  }

  /** Two measurements without provenance leave the authority open. */
  lemma AuthorityOpen(domain: string, a: Observation, b: Observation)
    requires domain != "repository_coding" && a.checkId == "source-a" && b.checkId == "source-b"
    ensures Encode(domain, ToDicts([a, b])) == AUTHORITY_UNKNOWN
  {
    hide ToDict, ToDicts, LatestOf;
    LatestOfTwo(a, b);
  }

  function SlotOf(provenance: Json): SemanticState {
    if Signs(provenance, "source_a") then AUTHORITY_SLOT_1 else AUTHORITY_SLOT_2
  }

  /** With the provenance looked up it is the signed slot. */
  lemma AuthoritySeen(domain: string, a: Observation, b: Observation, p: Observation)
    requires domain != "repository_coding" && a.checkId == "source-a" && b.checkId == "source-b"
    requires p.checkId == "provenance" && p.value.Obj?
    requires p.value.fields.Keys == {Other("source_a"), Other("source_b")}
    requires Signs(p.value, "source_a") != Signs(p.value, "source_b")
    ensures Encode(domain, ToDicts([a, b] + [p])) == SlotOf(p.value)
  {
    hide ToDict, LatestOf, StateFrom, Signs, SlotOf;
    LatestOfTwo(a, b);
    assert ToDicts([a, b] + [p]) == ToDicts([a, b]) + [ToDict(p)];
    HostSemantics.LatestNext(ToDicts([a, b]), p);
    HostSemantics.ToDictSays(p);
    SlotFrom(domain, LatestOf(ToDicts([a, b] + [p])), p.value);
  }

  lemma NothingElse(domain: string, latest: map<string, Object>)
    requires domain != "repository_coding" && latest.Keys == {"source-a", "source-b", "provenance"}
    ensures StateFrom(domain, latest) ==
      if Signed(latest, "source_a", "project") then AUTHORITY_SLOT_1
      else if Signed(latest, "source_b", "cache") then AUTHORITY_SLOT_2
      else AUTHORITY_UNKNOWN
  {
    hide Signed;
  }

  lemma SlotFrom(domain: string, latest: map<string, Object>, value: Json)
    requires domain != "repository_coding" && latest.Keys == {"source-a", "source-b", "provenance"}
    requires Get(latest["provenance"], Key.Value) == value && value.Obj?
    requires value.fields.Keys == {Other("source_a"), Other("source_b")}
    requires Signs(value, "source_a") != Signs(value, "source_b")
    ensures StateFrom(domain, latest) == SlotOf(value)
  {
    hide StateFrom;
    NothingElse(domain, latest);
  }

  function WrongIntent(provenance: Json): Intent {
    if Signs(provenance, "source_a") then SelectAuthoritySlot2 else SelectAuthoritySlot1
  }

  function SelectionFor(intent: Intent): string {
    if intent.SelectAuthoritySlot1? then "SELECT_SOURCE_A" else "SELECT_SOURCE_B"
  }

  lemma IntentsChosen(allowed: seq<string>)
    requires "CHECK_PROVENANCE" in allowed && "SELECT_SOURCE_A" in allowed && "SELECT_SOURCE_B" in allowed
    ensures IntentDecision(InspectAuthority, allowed) == Some(PolicyDecision(Select, Some("CHECK_PROVENANCE")))
    ensures IntentDecision(SelectAuthoritySlot1, allowed) == Some(PolicyDecision(Select, Some("SELECT_SOURCE_A")))
    ensures IntentDecision(SelectAuthoritySlot2, allowed) == Some(PolicyDecision(Select, Some("SELECT_SOURCE_B")))
  {
  }

  lemma FilteredTwo(a: Intent, b: Intent, allowed: seq<string>)
    requires Supports(allowed, a)
    ensures Filtered([a], allowed) == [a]
    ensures Supports(allowed, b) ==> Filtered([a, b], allowed) == [a, b]
  {
    hide Supports;
    assert [a, b][..1] == [a] && [a][..0] == [];
  }

  lemma SupportedHere(allowed: seq<string>)
    requires "CHECK_PROVENANCE" in allowed && "SELECT_SOURCE_A" in allowed && "SELECT_SOURCE_B" in allowed
    ensures Supported(AUTHORITY_UNKNOWN, allowed) == [InspectAuthority]
    ensures Supported(AUTHORITY_SLOT_1, allowed) == [SelectAuthoritySlot2, SelectAuthoritySlot1]
    ensures Supported(AUTHORITY_SLOT_2, allowed) == [SelectAuthoritySlot1, SelectAuthoritySlot2]
  {
    hide IntentDecision, Filtered;
    IntentsChosen(allowed);
    FilteredTwo(InspectAuthority, InspectAuthority, allowed);
    FilteredTwo(SelectAuthoritySlot2, SelectAuthoritySlot1, allowed);
    FilteredTwo(SelectAuthoritySlot1, SelectAuthoritySlot2, allowed);
  }

  /** A decision of the actor while its learner has been taught nothing. */
  ghost predicate Acts(counts: Counts, state: SemanticState, allowed: seq<string>, d: PolicyDecision) {
    exists learned :: AdaptivePolicy.Decides(map[], state, allowed, learned)
      && d == if Undecided(learned) then LeastRejected(counts, state, allowed) else learned
  }

  lemma UntaughtActs(counts: Counts, state: SemanticState, allowed: seq<string>, d: PolicyDecision)
    requires Acts(counts, state, allowed, d)
    ensures d == LeastRejected(counts, state, allowed)
  {
    hide LeastRejected;
  }

  lemma LooksFirst(counts: Counts, allowed: seq<string>)
    requires "CHECK_PROVENANCE" in allowed && "SELECT_SOURCE_A" in allowed && "SELECT_SOURCE_B" in allowed
    ensures LeastRejected(counts, AUTHORITY_UNKNOWN, allowed) == PolicyDecision(Select, Some("CHECK_PROVENANCE"))
  {
    hide Supported, IntentDecision;
    SupportedHere(allowed);
    IntentsChosen(allowed);
  }

  /** With nothing stored the actor tries the unsigned source, after its rejection the signed one. */
  lemma TriesInOrder(provenance: Json, allowed: seq<string>)
    requires "CHECK_PROVENANCE" in allowed && "SELECT_SOURCE_A" in allowed && "SELECT_SOURCE_B" in allowed
    ensures var slot, wrong := SlotOf(provenance), WrongIntent(provenance);
      var right := if wrong.SelectAuthoritySlot1? then SelectAuthoritySlot2 else SelectAuthoritySlot1;
      && LeastRejected(map[], slot, allowed) == PolicyDecision(Select, Some(SelectionFor(wrong)))
      && LeastRejected(OneMore(map[], slot, wrong), slot, allowed) == PolicyDecision(Select, Some(SelectionFor(right)))
  {
    hide Supported, IntentDecision, LeastRejected;
    var slot, wrong := SlotOf(provenance), WrongIntent(provenance);
    SupportedHere(allowed);
    IntentsChosen(allowed);
    var candidates := Supported(slot, allowed);
    FreshActorTakesTurns(slot, allowed, 0);
    FreshActorTakesTurns(slot, allowed, 1);
    assert StoreAfter(map[], slot, candidates, 0) == map[];
    assert CountsFor(map[], slot, candidates) == [0, 0];
    assert StoreAfter(map[], slot, candidates, 1) == OneMore(map[], slot, wrong);
  }

  // ----- One run of the actor -----

  lemma {:induction false} PlayKeepsCalls(task: PublicTask, w: World, s: State)
    ensures s.calls <= Play(task, w, s).calls
    decreases Fuel(task, s)
  {
    hide TakeTurn;
    if s.end.None? {
      TurnAdvances(task, w, s);
      TurnKeepsCalls(task, w, s);
      PlayKeepsCalls(task, w, TakeTurn(task, w, s));
    }
  }

  lemma TurnKeepsCalls(task: PublicTask, w: World, s: State)
    requires s.end.None?
    ensures var t := TakeTurn(task, w, s);
      if s.steps < task.budget.maxSteps
      then s.calls + [Decide(s.observations, s.trajectory, w.policy(s.steps))] <= t.calls
      else s.calls == t.calls
  {
    hide Append, ToDicts, DecisionJson, OverCost;
  }

  lemma {:induction false} PlayKeepsObservations(task: PublicTask, w: World, s: State)
    ensures s.observations <= Play(task, w, s).observations
    decreases Fuel(task, s)
  {
    hide TakeTurn;
    if s.end.None? {
      TurnAdvances(task, w, s);
      TurnKeepsObservations(task, w, s);
      PlayKeepsObservations(task, w, TakeTurn(task, w, s));
    }
  }

  lemma TurnKeepsObservations(task: PublicTask, w: World, s: State)
    requires s.end.None?
    ensures s.observations <= TakeTurn(task, w, s).observations
  {
    hide Append, ToDicts, DecisionJson, OverCost;
  }

  /** What the host showed first is still there at the end. */
  lemma ResetKept(task: PublicTask, w: World)
    ensures w.reset <= Final(task, w).observations
  {
    hide Play, Append, ViewJson, TaskJson, ToDicts, OverCost;
    PlayKeepsObservations(task, w, Begin(task, w));
  }

  /** The decision of a turn is among the calls of the run. */
  lemma DecisionCalled(task: PublicTask, w: World, s: State)
    requires s.end.None? && s.steps < task.budget.maxSteps
    ensures var calls, n := Play(task, w, s).calls, |s.calls|;
      n < |calls| && calls[n] == Decide(s.observations, s.trajectory, w.policy(s.steps))
  {
    hide TakeTurn;
    TurnAdvances(task, w, s);
    TurnKeepsCalls(task, w, s);
    PlayKeepsCalls(task, w, TakeTurn(task, w, s));
  }

  /** A turn in which the policy selects an allowed action and the host does not reject it. */
  lemma SelectTurn(task: PublicTask, w: World, s: State, action: string, item: Observation, done: bool)
    requires s.end.None? && s.steps < task.budget.maxSteps && action in task.allowedActions
    requires w.policy(s.steps) == PolicyDecision(Select, Some(action))
    requires w.host(s.steps) == Outcome([item], done, None) && !OverCost(task, s.observations + [item])
    ensures var t := TakeTurn(task, w, s);
      && t.observations == s.observations + [item] && t.steps == s.steps + 1
      && t.calls == s.calls + [Decide(s.observations, s.trajectory, w.policy(s.steps))]
      && t.candidates == s.candidates
      && t.end == if done then Some(Ending(EnvironmentDone, None)) else None
  {
    hide Append, ToDicts, DecisionJson, OverCost;
  }

  /** The decisions of a run are those of the untaught actor with these counts. */
  ghost predicate ActedBy(task: PublicTask, w: World, counts: Counts) {
    CallsActed(task, Final(task, w).calls, counts)
  }

  ghost predicate CallsActed(task: PublicTask, calls: seq<Call>, counts: Counts) {
    forall i :: 0 <= i < |calls| && calls[i].Decide? ==>
      Acts(counts, Encode(task.domain, ToDicts(calls[i].observations)), task.allowedActions, calls[i].decision)
  }

  lemma CostsNext(items: seq<Observation>, item: Observation)
    ensures ToolCost(items + [item]) == ToolCost(items) + item.cost
  {
    assert (items + [item])[..|items|] == items;
  }

  lemma HostAnswers(task: PublicTask, w: World, start: EnvironmentState, k: nat, action: string)
    requires Hosted(task, w, start) && k < Final(task, w).steps
    requires w.policy(k) == PolicyDecision(Select, Some(action)) && action in task.allowedActions
    ensures var r := TakeStep(StateAfter(start, RequestsOf(w), k), action, None);
      && r.item.Some? && w.host(k) == Outcome([r.item.value], r.done, r.accepted)
      && StateAfter(start, RequestsOf(w), k + 1) == r.state
  {
    hide TakeStep, Final;
    assert AsksHost(task, w, k);
    assert ReplyAt(task, w, start, k) == Some(w.host(k));
    assert CandidateAt(w, k) == None;
    assert RequestsOf(w)(k) == (action, None);
  }

  ghost predicate Scene(task: PublicTask, w: World, snapshotId: string, m: Machine, counts: Counts) {
    Scenario(m) && Suits(task) && Hosted(task, w, Opened(task.taskId, snapshotId, m)) && ActedBy(task, w, counts)
  }

  lemma RunBegins(task: PublicTask, w: World, snapshotId: string, m: Machine)
    requires m.StructuredData? && Suits(task) && w.reset == Opened(task.taskId, snapshotId, m).produced
    ensures var s, start := Begin(task, w), Opened(task.taskId, snapshotId, m);
      && s.end.None? && s.steps == 0 && s.calls == [] && s.trajectory == [] && s.candidates == []
      && s.observations == start.produced && |start.produced| == 2 && ToolCost(start.produced) == 0.0
      && start.produced[0].checkId == "source-a" && start.produced[1].checkId == "source-b"
      && start.machine == m && !start.verdict && ("provenance", "provenance") !in start.attempts
      && ("selection", "selection") !in start.attempts
  {
    hide Append, ViewJson, TaskJson, ToDicts, Sound;
    OpenedShows(task.taskId, snapshotId, m);
    var items := Opened(task.taskId, snapshotId, m).produced;
    CostsNext([], items[0]);
    CostsNext([items[0]], items[1]);
    assert [] + [items[0]] == [items[0]] && [items[0]] + [items[1]] == items;
  }

  lemma NothingAsked(s: EnvironmentState, asked: Requests)
    ensures StateAfter(s, asked, 0) == s
  {
  }

  /** First the actor looks up the provenance. */
  lemma RunLooks(task: PublicTask, w: World, snapshotId: string, m: Machine, counts: Counts)
    returns (s: State, seen: EnvironmentState)
    requires Scene(task, w, snapshotId, m, counts)
    ensures s.end.None? && s.steps == 1 && |s.calls| == 1 && s.candidates == []
    ensures StateAfter(Opened(task.taskId, snapshotId, m), RequestsOf(w), 1) == seen
    ensures seen.machine == m.(checked := true) && ("selection", "selection") !in seen.attempts
    ensures ToolCost(s.observations) == 0.15
    ensures Encode(task.domain, ToDicts(s.observations)) == SlotOf(m.provenance)
    ensures Final(task, w) == Play(task, w, s)
  {
    hide TakeTurn, Begin, TakeStep, LeastRejected, Encode, Opened, StateAfter, ToolCost, ToDicts, SlotOf, Acts,
      OverCost;
    var begun, start := Begin(task, w), Opened(task.taskId, snapshotId, m);
    RunBegins(task, w, snapshotId, m);
    DecisionCalled(task, w, begun);
    var items := start.produced;
    assert [items[0], items[1]] == items;
    AuthorityOpen(task.domain, items[0], items[1]);
    UntaughtActs(counts, AUTHORITY_UNKNOWN, task.allowedActions, w.policy(0));
    LooksFirst(counts, task.allowedActions);
    s := TakeTurn(task, w, begun);
    EpisodeLaws.TurnCounts(task, w, begun);
    EpisodeLaws.PlayCounts(task, w, s);
    TurnAdvances(task, w, begun);
    NothingAsked(start, RequestsOf(w));
    HostAnswers(task, w, start, 0, "CHECK_PROVENANCE");
    LookShows(start);
    var looked := TakeStep(start, "CHECK_PROVENANCE", None);
    seen := looked.state;
    CostsNext(items, looked.item.value);
    CostFits(task, items + [looked.item.value]);
    SelectTurn(task, w, begun, "CHECK_PROVENANCE", looked.item.value, false);
    AuthoritySeen(task.domain, items[0], items[1], looked.item.value);
  }

  lemma CostFits(task: PublicTask, items: seq<Observation>)
    requires Suits(task) && ToolCost(items) <= 0.2
    ensures !OverCost(task, items)
  {
  }

  /** Then it selects a source, and that is the end. */
  lemma RunSelects(task: PublicTask, w: World, snapshotId: string, m: Machine, counts: Counts, choice: string)
    requires Scene(task, w, snapshotId, m, counts)
    requires LeastRejected(counts, SlotOf(m.provenance), task.allowedActions) == PolicyDecision(Select, Some(choice))
    requires choice == "SELECT_SOURCE_A" || choice == "SELECT_SOURCE_B"
    ensures var s := Final(task, w);
      && s.end == Some(Ending(EnvironmentDone, None)) && s.steps == 2
      && (w.verdict <==> choice == m.admissible)
      && |s.calls| == 2 && s.calls[1].Decide? && s.calls[1].decision == PolicyDecision(Select, Some(choice))
      && Encode(task.domain, ToDicts(s.calls[1].observations)) == SlotOf(m.provenance)
  {
    hide TakeTurn, Begin, TakeStep, LeastRejected, Encode, Opened, StateAfter, ToolCost, ToDicts, SlotOf, Acts,
      OverCost;
    var s, seen := RunLooks(task, w, snapshotId, m, counts);
    var start := Opened(task.taskId, snapshotId, m);
    DecisionCalled(task, w, s);
    UntaughtActs(counts, SlotOf(m.provenance), task.allowedActions, w.policy(1));
    EpisodeLaws.TurnCounts(task, w, s);
    EpisodeLaws.PlayCounts(task, w, TakeTurn(task, w, s));
    TurnAdvances(task, w, s);
    HostAnswers(task, w, start, 1, choice);
    SelectionEnds(seen, choice);
    var item := TakeStep(seen, choice, None).item.value;
    CostsNext(s.observations, item);
    CostFits(task, s.observations + [item]);
    SelectTurn(task, w, s, choice, item, true);
    assert Final(task, w) == TakeTurn(task, w, s);
  }

  // ----- The training -----

  /** An attempt of the actor with these counts over some session of the environment, its bundle
      verified. */
  ghost predicate AttemptIn(h: Hasher, task: PublicTask, m: Machine, counts: Counts, r: EpisodeResult) {
    exists w: World, snapshotId: string :: PlayedIn(h, task, m, counts, r, w, snapshotId)
  }

  ghost predicate PlayedIn(h: Hasher, task: PublicTask, m: Machine, counts: Counts, r: EpisodeResult, w: World,
                           snapshotId: string)
  {
    w.h == h && Scene(task, w, snapshotId, m, counts) && r == Receipt(task, w, Final(task, w), true, true)
  }

  lemma LivedSelection(domain: string, c: Choice, choice: string)
    requires choice == "SELECT_SOURCE_A" || choice == "SELECT_SOURCE_B"
    requires c.decision == PolicyDecision(Select, Some(choice)) && Encode(domain, ToDicts(c.observations)) != UNKNOWN
    ensures var intent := if choice == "SELECT_SOURCE_A" then SelectAuthoritySlot1 else SelectAuthoritySlot2;
      Lived(domain, c) == [AdaptivePolicy.Experience(Encode(domain, ToDicts(c.observations)), intent)]
  {
    hide Encode, ToDicts;
  }

  lemma LastChoice(calls: seq<Call>)
    requires |calls| == 2 && calls[1].Decide?
    ensures var choices := Choices(calls);
      choices != [] && choices[|choices| - 1].observations == calls[1].observations
      && choices[|choices| - 1].decision == calls[1].decision
  {
  }

  function SelectionIntent(choice: string): Intent {
    if choice == "SELECT_SOURCE_A" then SelectAuthoritySlot1 else SelectAuthoritySlot2
  }

  /** A run that its environment ended and found wrong is blamed on the selection it ended with. */
  lemma SelectionBlamed(task: PublicTask, w: World, slot: SemanticState, choice: string)
    requires choice == "SELECT_SOURCE_A" || choice == "SELECT_SOURCE_B"
    requires var s := Final(task, w);
      && s.end.value.reason == EnvironmentDone && |s.calls| == 2 && s.calls[1].Decide?
      && s.calls[1].decision == PolicyDecision(Select, Some(choice))
      && Encode(task.domain, ToDicts(s.calls[1].observations)) == slot != UNKNOWN
    requires Admissible(Receipt(task, w, Final(task, w), true, true).observations) && !w.verdict
    requires !Receipt(task, w, Final(task, w), true, true).Accepted()
    ensures var r := Receipt(task, w, Final(task, w), true, true);
      && Recordable(w.h, r)
      && Blamed(task.domain, r.ledgerEntries) == Some(Blame(slot, Some(SelectionIntent(choice))))
  {
    hide Encode, ToDicts, Final, Blamed, Recordable, Choices, Lived, Admissible, Ledger.Accepts, BundleBinds,
      WithReceipt, DecisionJson, DecisionIntent;
    var s := Final(task, w);
    RejectedEpisodesAreBlamed(task, w, true, true);
    BlameIsTheLastChoice(task, w, true, true);
    LastChoice(s.calls);
    var choices := Choices(s.calls);
    LivedSelection(task.domain, choices[|choices| - 1], choice);
    SelectionRead(choice);
  }

  lemma SelectionRead(choice: string)
    requires choice == "SELECT_SOURCE_A" || choice == "SELECT_SOURCE_B"
    ensures DecisionIntent(Obj(DecisionJson(PolicyDecision(Select, Some(choice))))) == Some(SelectionIntent(choice))
  {
  }

  /** An attempt is accepted when its selection is the signed source, and is otherwise a typed
      negative one blamed on that selection. */
  lemma AttemptEnds(h: Hasher, task: PublicTask, m: Machine, counts: Counts, r: EpisodeResult, choice: string)
    requires Scenario(m) && AttemptIn(h, task, m, counts, r) && task.split == "train"
    requires LeastRejected(counts, SlotOf(m.provenance), task.allowedActions) == PolicyDecision(Select, Some(choice))
    requires choice == "SELECT_SOURCE_A" || choice == "SELECT_SOURCE_B"
    ensures r.Accepted() <==> choice == m.admissible
    ensures r.split == "train"
    ensures !r.Accepted() ==>
      Typed(h, r) && CountsAfter(h, counts, r) == OneMore(counts, SlotOf(m.provenance), SelectionIntent(choice))
  {
    hide LeastRejected, Encode, ToDicts, SlotOf, Final, Blamed, Recordable, Admissible, Hosted, ActedBy, Suits, Opened,
      Receipt, OneMore;
    var w, snapshotId :| PlayedIn(h, task, m, counts, r, w, snapshotId);
    RunSelects(task, w, snapshotId, m, counts, choice);
    AttemptSays(task, w, snapshotId, m);
    SlotKnown(m.provenance);
    if !r.Accepted() { SelectionBlamed(task, w, SlotOf(m.provenance), choice); }
  }

  lemma SlotKnown(provenance: Json)
    ensures SlotOf(provenance) != UNKNOWN
  {
  }

  lemma AttemptSays(task: PublicTask, w: World, snapshotId: string, m: Machine)
    requires Hosted(task, w, Opened(task.taskId, snapshotId, m))
    ensures var r := Receipt(task, w, Final(task, w), true, true);
      && Admissible(r.observations) && r.split == task.split && r.domain == task.domain
      && (r.Accepted() <==> Final(task, w).end.value.reason == EnvironmentDone && w.verdict)
      && r.terminalReason == Final(task, w).end.value.reason
  {
    hide Final, Opened, Hosted, Admissible, Ledger.Accepts, BundleBinds, WithReceipt, Earned, StateAfter;
    HostedRunsAreEarned(task, w, snapshotId, m, true, true);
    EpisodeLaws.EveryRunVerifies(task, w, true, true);
  }

  // Such attempts exist for all counts: an agent that decides as the actor does, over a session.

  function Selecting(choice: string): nat -> PolicyDecision {
    (k: nat) => PolicyDecision(Select, Some(if k == 0 then "CHECK_PROVENANCE" else choice))
  }

  lemma RepliesOnce(task: PublicTask, w: World, start: EnvironmentState, choice: string)
    returns (look: Observation, item: Observation)
    requires Suits(task) && start.machine.StructuredData?
    requires ("provenance", "provenance") !in start.attempts && ("selection", "selection") !in start.attempts
    requires choice == "SELECT_SOURCE_A" || choice == "SELECT_SOURCE_B"
    requires w.policy == Selecting(choice)
    ensures look.cost == 0.15 && item.cost == 0.05
    ensures look.checkId == "provenance" && look.value == start.machine.provenance
    ensures ReplyAt(task, w, start, 0) == Some(Outcome([look], false, None))
    ensures ReplyAt(task, w, start, 1) == Some(Outcome([item], true, None))
  {
    hide TakeStep;
    var looked := TakeStep(start, "CHECK_PROVENANCE", None);
    NothingAsked(start, RequestsOf(w));
    LookShows(start);
    SelectionEnds(looked.state, choice);
    assert w.policy(0) == PolicyDecision(Select, Some("CHECK_PROVENANCE"));
    assert w.policy(1) == PolicyDecision(Select, Some(choice));
    assert CandidateAt(w, 0) == None && CandidateAt(w, 1) == None;
    assert RequestsOf(w)(0) == ("CHECK_PROVENANCE", None);
    assert StateAfter(start, RequestsOf(w), 1) == looked.state;
    look, item := looked.item.value, TakeStep(looked.state, choice, None).item.value;
  }

  lemma RunSelecting(task: PublicTask, w: World, snapshotId: string, m: Machine, choice: string, look: Observation,
                     item: Observation)
    requires m.StructuredData? && Suits(task) && w.reset == Opened(task.taskId, snapshotId, m).produced
    requires choice == "SELECT_SOURCE_A" || choice == "SELECT_SOURCE_B"
    requires w.policy == Selecting(choice) && look.cost == 0.15 && item.cost == 0.05
    requires w.host(0) == Outcome([look], false, None) && w.host(1) == Outcome([item], true, None)
    ensures var s := Final(task, w);
      && s.steps == 2 && |s.calls| == 2 && s.calls[0].Decide? && s.calls[1].Decide?
      && s.calls[0].observations == w.reset && s.calls[0].decision == w.policy(0)
      && s.calls[1].observations == w.reset + [look] && s.calls[1].decision == w.policy(1)
      && |w.reset| == 2 && w.reset[0].checkId == "source-a" && w.reset[1].checkId == "source-b"
  {
    hide TakeTurn, Begin, Opened, ToolCost, OverCost;
    var s := Begin(task, w);
    RunBegins(task, w, snapshotId, m);
    CostsNext(w.reset, look);
    CostFits(task, w.reset + [look]);
    SelectTurn(task, w, s, "CHECK_PROVENANCE", look, false);
    TurnAdvances(task, w, s);
    var t := TakeTurn(task, w, s);
    CostsNext(t.observations, item);
    CostFits(task, t.observations + [item]);
    SelectTurn(task, w, t, choice, item, true);
    TurnAdvances(task, w, t);
    assert Final(task, w) == Play(task, w, t) == TakeTurn(task, w, t);
  }

  lemma UntaughtMay(counts: Counts, state: SemanticState, allowed: seq<string>)
    ensures Acts(counts, state, allowed, LeastRejected(counts, state, allowed))
  {
    hide LeastRejected;
    assert AdaptivePolicy.Decides(map[], state, allowed, PolicyDecision(DeferNoSupport, None));
  }

  lemma ServedSays(task: PublicTask, base: World, start: EnvironmentState, k: nat)
    ensures var w := ServedBy(task, base, start);
      && w.reset == start.produced && w.policy == base.policy && w.generator == base.generator
      && (ReplyAt(task, base, start, k).Some? ==> Some(w.host(k)) == ReplyAt(task, base, start, k))
  {
    hide Final, StateAfter, SessionReply;
  }

  lemma SceneParts(m: Machine)
    requires Scenario(m)
    ensures m.StructuredData? && !m.checked
  {
  }

  lemma ServedSelecting(task: PublicTask, base: World, snapshotId: string, m: Machine, choice: string)
    returns (w: World, look: Observation)
    requires Scenario(m) && Suits(task) && base.policy == Selecting(choice)
    requires choice == "SELECT_SOURCE_A" || choice == "SELECT_SOURCE_B"
    ensures w == ServedBy(task, base, Opened(task.taskId, snapshotId, m))
    ensures Hosted(task, w, Opened(task.taskId, snapshotId, m))
    ensures look.checkId == "provenance" && look.value == m.provenance
    ensures |w.reset| == 2 && w.reset[0].checkId == "source-a" && w.reset[1].checkId == "source-b"
    ensures w.reset == [w.reset[0], w.reset[1]]
    ensures var calls := Final(task, w).calls;
      && |calls| == 2 && calls[0].Decide? && calls[1].Decide?
      && calls[0].observations == w.reset
      && calls[0].decision == PolicyDecision(Select, Some("CHECK_PROVENANCE"))
      && calls[1].observations == w.reset + [look] && calls[1].decision == PolicyDecision(Select, Some(choice))
  {
    hide TakeStep, Opened, StateAfter, Final, ReplyAt, AsksHost, ServedBy, Hosted, Suits, Scenario, ToolCost;
    SelectingSays(choice);
    var start := Opened(task.taskId, snapshotId, m);
    w := ServedBy(task, base, start);
    SceneParts(m);
    ServedSays(task, base, start, 0);
    ServedSays(task, base, start, 1);
    RunBegins(task, w, snapshotId, m);
    var item;
    look, item := RepliesOnce(task, base, start, choice);
    var _, _ := RepliesOnce(task, w, start, choice);
    RunSelecting(task, w, snapshotId, m, choice, look, item);
    ServedTwice(task, base, start);
    PairOf(w.reset);
  }

  lemma SelectingSays(choice: string)
    ensures Selecting(choice)(0) == PolicyDecision(Select, Some("CHECK_PROVENANCE"))
    ensures Selecting(choice)(1) == PolicyDecision(Select, Some(choice))
  {
  }

  lemma PairOf(items: seq<Observation>)
    requires |items| == 2
    ensures items == [items[0], items[1]]
  {
  }

  lemma ServedTwice(task: PublicTask, base: World, start: EnvironmentState)
    requires var w := ServedBy(task, base, start);
      Final(task, w).steps == 2 && ReplyAt(task, w, start, 0).Some? && ReplyAt(task, w, start, 1).Some?
    ensures Hosted(task, ServedBy(task, base, start), start)
  {
    hide Final, ReplyAt, AsksHost, ServedBy, Hosted;
    ServedRunsAreHosted(task, base, start);
  }

  lemma SceneExists(task: PublicTask, base: World, snapshotId: string, m: Machine, counts: Counts, choice: string)
    requires Scenario(m) && Suits(task) && base.policy == Selecting(choice)
    requires LeastRejected(counts, SlotOf(m.provenance), task.allowedActions) == PolicyDecision(Select, Some(choice))
    requires choice == "SELECT_SOURCE_A" || choice == "SELECT_SOURCE_B"
    ensures Scene(task, ServedBy(task, base, Opened(task.taskId, snapshotId, m)), snapshotId, m, counts)
  {
    hide LeastRejected, Opened, CallsActed, Final, ServedBy, Hosted, Suits, SlotOf;
    var w, look := ServedSelecting(task, base, snapshotId, m, choice);
    SelectionsActed(task, m, counts, Final(task, w).calls, w.reset[0], w.reset[1], look, choice);
  }

  lemma SelectionsActed(task: PublicTask, m: Machine, counts: Counts, calls: seq<Call>, a: Observation, b: Observation,
                        look: Observation, choice: string)
    requires Scenario(m) && Suits(task) && |calls| == 2 && calls[0].Decide? && calls[1].Decide?
    requires calls[0].observations == [a, b] && calls[1].observations == [a, b] + [look]
    requires a.checkId == "source-a" && b.checkId == "source-b"
    requires look.checkId == "provenance" && look.value == m.provenance
    requires calls[0].decision == PolicyDecision(Select, Some("CHECK_PROVENANCE"))
    requires calls[1].decision == PolicyDecision(Select, Some(choice))
    requires LeastRejected(counts, SlotOf(m.provenance), task.allowedActions) == PolicyDecision(Select, Some(choice))
    ensures CallsActed(task, calls, counts)
  {
    hide LeastRejected, Encode, ToDicts, SlotOf, Acts;
    AuthorityOpen(task.domain, a, b);
    AuthoritySeen(task.domain, a, b, look);
    LooksFirst(counts, task.allowedActions);
    UntaughtMay(counts, AUTHORITY_UNKNOWN, task.allowedActions);
    UntaughtMay(counts, SlotOf(m.provenance), task.allowedActions);
  }

  /** Every attempt of a training is one of the actor in this scene. */
  ghost predicate TrainsIn(h: Hasher, task: PublicTask, m: Machine, attempt: Attempts) {
    forall counts, k :: AttemptIn(h, task, m, counts, attempt(counts, k))
  }

  lemma SecondAttemptAccepted(h: Hasher, task: PublicTask, m: Machine, attempt: Attempts)
    requires Scenario(m) && Suits(task) && TrainsIn(h, task, m, attempt) && task.split == "train"
    ensures !AttemptAt(h, map[], attempt, 0).Accepted() && Typed(h, AttemptAt(h, map[], attempt, 0))
    ensures CountsBefore(h, map[], attempt, 1) == OneMore(map[], SlotOf(m.provenance), WrongIntent(m.provenance))
    ensures AttemptAt(h, map[], attempt, 1).Accepted()
  {
    hide LeastRejected, SlotOf, AttemptIn, Typed, CountsAfter, OneMore;
    var slot, wrong := SlotOf(m.provenance), WrongIntent(m.provenance);
    var right := if wrong.SelectAuthoritySlot1? then SelectAuthoritySlot2 else SelectAuthoritySlot1;
    var once := OneMore(map[], slot, wrong);
    assert AttemptIn(h, task, m, map[], attempt(map[], 0)) && AttemptIn(h, task, m, once, attempt(once, 1));
    TriesInOrder(m.provenance, task.allowedActions);
    AttemptEnds(h, task, m, map[], attempt(map[], 0), SelectionFor(wrong));
    AttemptEnds(h, task, m, once, attempt(once, 1), SelectionFor(right));
  }

  /** Nothing is stored after an accepted attempt. */
  lemma TwoAttempts(h: Hasher, attempt: Attempts)
    requires Typed(h, AttemptAt(h, map[], attempt, 0)) && AttemptAt(h, map[], attempt, 1).Accepted()
    ensures TypedBefore(h, map[], attempt, 1) == 1 == TypedBefore(h, map[], attempt, 2)
    ensures CountsBefore(h, map[], attempt, 2) == CountsBefore(h, map[], attempt, 1)
  {
    hide Recordable, Blamed;
    assert TypedBefore(h, map[], attempt, 0) == 0;
  }

  /** From nothing learned and nothing stored, training on any structured-data scenario is accepted
      on exactly its second attempt: the first one tries the unsigned source and is remembered. */
  method TrainFromNothing(store: NegativeExperienceStore, attempt: Attempts, maxAttempts: nat, ghost task: PublicTask,
                          ghost m: Machine)
    returns (r: Option<TrainingResult>)
    requires store.Valid() && store.counts == map[] && maxAttempts > 0
    requires Scenario(m) && Suits(task) && TrainsIn(store.h, task, m, attempt) && task.split == "train"
    modifies store
    ensures r.Some? && r.value.attempts == (if maxAttempts == 1 then 1 else 2)
    ensures r.value.accepted <==> maxAttempts > 1
    ensures r.value.typedNegative == 1
    ensures store.counts == OneMore(map[], SlotOf(m.provenance), WrongIntent(m.provenance))
  {
    hide TrainsIn, Typed, SlotOf, WrongIntent, CountsAfter, OneMore, CountsBefore, TypedBefore, AttemptAt, Scenario,
      Suits, Tallied;
    ghost var h := store.h;
    SecondAttemptAccepted(h, task, m, attempt);
    TwoAttempts(h, attempt);
    AttemptsTrain(h, task, m, attempt);
    r := TrainTask(store, attempt, maxAttempts);
  }

  lemma AttemptsTrain(h: Hasher, task: PublicTask, m: Machine, attempt: Attempts)
    requires TrainsIn(h, task, m, attempt)
    ensures forall k: nat :: AttemptAt(h, map[], attempt, k).split == task.split
  {
    hide Scene, Receipt, Final;
    forall k: nat ensures AttemptAt(h, map[], attempt, k).split == task.split {
      var counts := CountsBefore(h, map[], attempt, k);
      assert AttemptIn(h, task, m, counts, attempt(counts, k));
      SplitOf(h, task, m, counts, attempt(counts, k));
    }
  }

  lemma SplitOf(h: Hasher, task: PublicTask, m: Machine, counts: Counts, r: EpisodeResult)
    requires AttemptIn(h, task, m, counts, r)
    ensures r.split == task.split
  {
    hide Scene, Final, Ledger.Accepts, BundleBinds, WithReceipt, Admissible;
  }
}
