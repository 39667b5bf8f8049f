/** The actors that explore where nothing is learned yet: the cursor of `gym/on_policy.py` and the
    least-rejected-first preference of `gym/negative_experience.py`, with their training loops. */
module Exploration {
  import opened Json
  import opened Evidence
  import opened Episode
  import opened Replay
  import opened Semantics
  import opened AdaptivePolicy
  import opened NegativeExperience

  // ----- Candidates -----

  /** `_CANDIDATES` */
  function CandidatesFor(state: SemanticState): seq<Intent> {
    match state
    case PROCESS_STATE_AMBIGUOUS => [InspectProcessState]
    case PROCESS_STOPPED_CONFIRMED => [SafelyDefer, RestartProcess]
    case PROCESS_RESTARTED_NEEDS_VERIFY => [SafelyDefer, RetryHealthcheck]
    case AUTHORITY_UNKNOWN => [InspectAuthority]
    case AUTHORITY_SLOT_1 => [SelectAuthoritySlot2, SelectAuthoritySlot1]
    case AUTHORITY_SLOT_2 => [SelectAuthoritySlot1, SelectAuthoritySlot2]
    case REPO_NEEDS_EXECUTION => [RunTargetedTest]
    case REPO_NEEDS_REPAIR => [RunRegression, ApplyCandidateFix]
    case REPO_NEEDS_REGRESSION => [SafelyDefer, RunRegression]
    case SYNTHESIS_REQUIRED => [SafelyDefer, CallGenerator]
    case NO_SUPPORTED_ACTUATOR => [SafelyDefer]
    case _ => []
  }

  predicate Supports(allowed: seq<string>, intent: Intent) {
    (intent.SafelyDefer? ==> "DEFER" in allowed) && IntentDecision(intent, allowed).Some?
  }

  function Filtered(intents: seq<Intent>, allowed: seq<string>): seq<Intent> {
    if intents == [] then []
    else
      var last, before := intents[|intents| - 1], Filtered(intents[..|intents| - 1], allowed);
      if Supports(allowed, last) then before + [last] else before
  }

  function Supported(state: SemanticState, allowed: seq<string>): seq<Intent> {
    Filtered(CandidatesFor(state), allowed)
  }

  /** `_supported_candidates` */
  method SupportedCandidates(state: SemanticState, allowed: seq<string>) returns (supported: seq<Intent>)
    ensures supported == Supported(state, allowed)
  {
    hide CandidatesFor, IntentDecision;
    var all := CandidatesFor(state);
    supported := [];
    for i := 0 to |all|
      invariant supported == Filtered(all[..i], allowed)
    {
      assert all[..i + 1][..i] == all[..i];
      if all[i].SafelyDefer? && "DEFER" !in allowed { continue; }
      if IntentDecision(all[i], allowed).Some? { supported := supported + [all[i]]; }
    }
    assert all[..|all|] == all;
  }

  lemma {:induction false} FilteredKeeps(intents: seq<Intent>, allowed: seq<string>)
    ensures forall i :: i in Filtered(intents, allowed) <==> i in intents && Supports(allowed, i)
    ensures Distinct(intents) ==> Distinct(Filtered(intents, allowed))
  {
    hide Supports;
    if intents != [] {
      var n := |intents| - 1;
      FilteredKeeps(intents[..n], allowed);
      assert intents == intents[..n] + [intents[n]];
      if Distinct(intents) {
        assert Distinct(intents[..n]);
        var before := Filtered(intents[..n], allowed);
        forall k | 0 <= k < |before| ensures before[k] != intents[n] {
          assert before[k] in before;
          var m :| 0 <= m < n && intents[..n][m] == before[k];
          assert intents[m] == before[k];
        }
      }
    }
  }

  lemma SupportedDistinct(state: SemanticState, allowed: seq<string>)
    ensures Distinct(Supported(state, allowed))
    ensures forall i :: i in Supported(state, allowed) ==> IntentDecision(i, allowed).Some?
  {
    hide IntentDecision;
    FilteredKeeps(CandidatesFor(state), allowed);
  }

  // ----- Least rejected first -----

  function CountsFor(counts: Counts, state: SemanticState, candidates: seq<Intent>): seq<nat> {
    seq(|candidates|, i requires 0 <= i < |candidates| => Rejections(counts, state, candidates[i]))
  }

  predicate Undecided(d: PolicyDecision) {
    d.kind.DeferNoSupport? || d.kind.DeferTie?
  }

  /** What the actor does once Q has nothing to say. */
  function LeastRejected(counts: Counts, state: SemanticState, allowed: seq<string>): PolicyDecision {
    var candidates := Supported(state, allowed);
    if candidates == [] then PolicyDecision(DeferNoSupport, None)
    else
      var d := IntentDecision(candidates[Least(CountsFor(counts, state, candidates))], allowed);
      if d.Some? then d.value else PolicyDecision(DeferNoSupport, None)
  }

  /** `NegativeAwareExplorationPolicy.decide`: learned preferences first. */
  method DecideNegativeAware(learner: ProofGatedAdaptivePolicy, store: NegativeExperienceStore, view: AgentTaskView,
                             observations: seq<Observation>)
    returns (decision: PolicyDecision)
    ensures var state := Encode(view.domain, ToDicts(observations));
      exists learned :: Decides(learner.q, state, view.allowedActions, learned)
        && decision == if Undecided(learned) then LeastRejected(store.counts, state, view.allowedActions) else learned
  {
    hide Encode, Decides, IntentDecision, Supported, Least;
    var preferred := learner.Decide(view, observations);
    if !Undecided(preferred) { return preferred; }
    var state := EncodeState(view.domain, ToDicts(observations));
    var candidates := SupportedCandidates(state, view.allowedActions);
    if candidates == [] { return PolicyDecision(DeferNoSupport, None); }
    var best := 0;
    for i := 1 to |candidates|
      invariant best < i
      invariant forall j :: 0 <= j < i ==>
        var b, c := Rejections(store.counts, state, candidates[best]), Rejections(store.counts, state, candidates[j]);
        if j < best then b < c else b <= c
    {
      if Rejections(store.counts, state, candidates[i]) < Rejections(store.counts, state, candidates[best]) {
        best := i;
      }
    }
    LeastUnique(CountsFor(store.counts, state, candidates), best);
    var d := IntentDecision(candidates[best], view.allowedActions);
    return if d.Some? then d.value else PolicyDecision(DeferNoSupport, None);
  }

  /** Recording the rejection of a candidate moves the search on by one round. */
  lemma RecordingAdvances(counts: Counts, state: SemanticState, candidates: seq<Intent>, p: nat)
    requires Distinct(candidates) && p < |candidates|
    ensures var now := CountsFor(counts, state, candidates);
      CountsFor(OneMore(counts, state, candidates[p]), state, candidates) == now[p := now[p] + 1]
  {
    var now, next := CountsFor(counts, state, candidates),
      CountsFor(OneMore(counts, state, candidates[p]), state, candidates);
    forall i | 0 <= i < |candidates| ensures next[i] == now[p := now[p] + 1][i] {
      assert i != p ==> candidates[i] != candidates[p];
    }
  }

  /** The store after k rejections of whatever the search picked in this state. */
  function StoreAfter(counts: Counts, state: SemanticState, candidates: seq<Intent>, k: nat): Counts
    requires candidates != []
  {
    if k == 0 then counts
    else
      var before := StoreAfter(counts, state, candidates, k - 1);
      OneMore(before, state, candidates[Least(CountsFor(before, state, candidates))])
  }

  lemma {:induction false} StoreFollowsSearch(counts: Counts, state: SemanticState, candidates: seq<Intent>, k: nat)
    requires Distinct(candidates) && candidates != []
    ensures CountsFor(StoreAfter(counts, state, candidates, k), state, candidates)
         == Searched(CountsFor(counts, state, candidates), k)
  {
    hide Least, OneMore;
    if k > 0 {
      StoreFollowsSearch(counts, state, candidates, k - 1);
      var before := StoreAfter(counts, state, candidates, k - 1);
      RecordingAdvances(before, state, candidates, Least(CountsFor(before, state, candidates)));
    }
  }

  /** While every attempt in a state is rejected, the actor goes round its supported candidates:
      starting from an empty store its k-th choice is candidate k mod n. */
  lemma FreshActorTakesTurns(state: SemanticState, allowed: seq<string>, k: nat)
    requires Supported(state, allowed) != []
    ensures var candidates := Supported(state, allowed);
      Some(LeastRejected(StoreAfter(map[], state, candidates, k), state, allowed))
        == IntentDecision(candidates[k % |candidates|], allowed)
  {
    hide Supported, IntentDecision, Least, StoreAfter;
    var candidates := Supported(state, allowed);
    SupportedDistinct(state, allowed);
    StoreFollowsSearch(map[], state, candidates, k);
    assert CountsFor(map[], state, candidates) == Fresh(|candidates|);
    FreshSearchIsRoundRobin(|candidates|, k);
    assert candidates[k % |candidates|] in candidates;
  }

  /** Whatever is stored, each supported candidate is chosen after exactly as many other rejections
      as its count and position call for. */
  lemma ActorReachesEveryCandidate(counts: Counts, state: SemanticState, allowed: seq<string>, c: nat)
    requires c < |Supported(state, allowed)|
    ensures var candidates := Supported(state, allowed);
      var wait := Wait(CountsFor(counts, state, candidates), c);
      Some(LeastRejected(StoreAfter(counts, state, candidates, wait), state, allowed))
        == IntentDecision(candidates[c], allowed)
  {
    hide Supported, IntentDecision, Least, StoreAfter, Wait;
    var candidates := Supported(state, allowed);
    SupportedDistinct(state, allowed);
    var now := CountsFor(counts, state, candidates);
    StoreFollowsSearch(counts, state, candidates, Wait(now, c));
    EveryCandidateIsReached(now, c, Wait(now, c));
    assert candidates[c] in candidates;
  }

  datatype TrainingResult = TrainingResult(attempts: nat, accepted: bool, typedNegative: nat, last: EpisodeResult)

  /** What an attempt leaves in the store. */
  ghost function CountsAfter(h: Hasher, counts: Counts, result: EpisodeResult): Counts {
    if Typed(h, result) then
      var blame := Blamed(result.domain, result.ledgerEntries).value;
      OneMore(counts, blame.state, blame.intent.value)
    else counts
  }

  /** The attempt is a typed negative one. */
  ghost predicate Typed(h: Hasher, result: EpisodeResult) {
    result.split == "train" && !result.Accepted() && Recordable(h, result)
  }

  /** The episodes the gym plays: the actor's choices depend on what is stored. */
  type Attempts = (Counts, nat) -> EpisodeResult

  ghost function CountsBefore(h: Hasher, counts: Counts, attempt: Attempts, k: nat): Counts
    decreases k, 0
  {
    if k == 0 then counts
    else CountsAfter(h, CountsBefore(h, counts, attempt, k - 1), AttemptAt(h, counts, attempt, k - 1))
  }

  /** Attempt `k` of a training that starts with these counts. */
  ghost function AttemptAt(h: Hasher, counts: Counts, attempt: Attempts, k: nat): EpisodeResult
    decreases k, 1
  {
    attempt(CountsBefore(h, counts, attempt, k), k)
  }

  ghost function TypedBefore(h: Hasher, counts: Counts, attempt: Attempts, k: nat): nat {
    if k == 0 then 0
    else
      TypedBefore(h, counts, attempt, k - 1) + (if Typed(h, AttemptAt(h, counts, attempt, k - 1)) then 1 else 0)
  }

  /** Attempt `k` is rejected as those before it, and the store refuses it. */
  ghost predicate RefusedAt(h: Hasher, counts: Counts, attempt: Attempts, k: nat) {
    && AttemptAt(h, counts, attempt, k).split != "train"
    && forall j :: 0 <= j <= k ==> !AttemptAt(h, counts, attempt, j).Accepted()
  }

  /** `NegativeExperienceTrainer.train_task`: attempts until one is accepted or they run out, each
      recorded before the next; None is a raised error. */
  method TrainTask(store: NegativeExperienceStore, attempt: Attempts, maxAttempts: nat)
    returns (r: Option<TrainingResult>)
    requires store.Valid() && maxAttempts > 0
    modifies store
    ensures store.Valid() && old(store.receipts) <= store.receipts
    ensures var h, counts := store.h, old(store.counts);
      r.Some? ==>
      && 1 <= r.value.attempts <= maxAttempts
      && r.value.last == AttemptAt(h, counts, attempt, r.value.attempts - 1)
      && r.value.accepted == r.value.last.Accepted()
      && (forall k :: 0 <= k < r.value.attempts - 1 ==> !AttemptAt(h, counts, attempt, k).Accepted())
      && (!r.value.accepted ==> r.value.attempts == maxAttempts)
      && store.counts == CountsBefore(h, counts, attempt, r.value.attempts)
      && r.value.typedNegative == TypedBefore(h, counts, attempt, r.value.attempts)
           == |store.receipts| - |old(store.receipts)|
    ensures var h, counts := store.h, old(store.counts);
      r.None? <==> exists k :: 0 <= k < maxAttempts && RefusedAt(h, counts, attempt, k)
  {
    hide Tallied, Recordable, Blamed, OneMore, Rejections;
    ghost var h, counts := store.h, store.counts;
    var typedNegative := 0;
    var final: Option<EpisodeResult> := None;
    for i := 0 to maxAttempts
      invariant store.Valid() && old(store.receipts) <= store.receipts
      invariant i > 0 ==> final == Some(AttemptAt(h, counts, attempt, i - 1))
      invariant store.counts == CountsBefore(h, counts, attempt, i)
      invariant forall k :: 0 <= k < i ==>
        !AttemptAt(h, counts, attempt, k).Accepted() && AttemptAt(h, counts, attempt, k).split == "train"
      invariant typedNegative == TypedBefore(h, counts, attempt, i) == |store.receipts| - |old(store.receipts)|
    {
      var result := attempt(store.counts, i);
      assert AttemptAt(h, counts, attempt, i) == result;
      final := Some(result);
      if result.Accepted() { return Some(TrainingResult(i + 1, true, typedNegative, result)); }
      var outcome := store.Observe(result);
      if outcome.NotTrain? {
        assert RefusedAt(h, counts, attempt, i);
        return None;
      }
      if outcome.Recorded? { typedNegative := typedNegative + 1; }
    }
    return Some(TrainingResult(maxAttempts, false, typedNegative, final.value));
  }

  // ----- The cursor -----

  type Cursors = map<SemanticState, nat>

  function Cursor(cursors: Cursors, state: SemanticState): nat {
    if state in cursors then cursors[state] else 0
  }

  /** The candidate at the cursor, the last one once the cursor has passed them all. */
  function AtCursor(cursor: nat, state: SemanticState, allowed: seq<string>): PolicyDecision {
    var candidates := Supported(state, allowed);
    if candidates == [] then PolicyDecision(DeferNoSupport, None)
    else
      var d := IntentDecision(candidates[if cursor < |candidates| then cursor else |candidates| - 1], allowed);
      if d.Some? then d.value else PolicyDecision(DeferNoSupport, None)
  }

  datatype SearchReceipt = SearchReceipt(taskId: string, ledgerRoot: string, state: SemanticState, intent: Intent,
                                         previous: nat, next: nat)

  function StateReceipts(receipts: seq<SearchReceipt>, state: SemanticState): nat {
    if receipts == [] then 0
    else StateReceipts(receipts[..|receipts| - 1], state) + (if receipts[|receipts| - 1].state == state then 1 else 0)
  }

  function LastBlame(domain: string, situations: seq<Situation>): Option<Blame> {
    if situations == [] then None else Some(BlameOn(domain, situations[|situations| - 1]))
  }

  lemma NextSearchReceipt(receipts: seq<SearchReceipt>, r: SearchReceipt)
    ensures forall state ::
      StateReceipts(receipts + [r], state) == StateReceipts(receipts, state) + (if r.state == state then 1 else 0)
  {
    assert (receipts + [r])[..|receipts|] == receipts;
  }

  /** The last entry of `_decision_trace`. */
  function LastTraced(result: EpisodeResult): Option<Blame> {
    LastBlame(result.domain, Situations(result.ledgerEntries))
  }

  /** A rejection that moves the cursor: the evidence held, the last decision is known and no
      learned value already speaks for it. */
  predicate MovesCursor(q: Table, result: EpisodeResult) {
    && result.admission.provenanceValid && result.admission.trajectoryValid && result.admission.integrityValid
    && result.ledgerRoot.Some?
    && LastTraced(result).Some? && LastTraced(result).value.state != UNKNOWN && LastTraced(result).value.intent.Some?
    && Stat(q, LastTraced(result).value.state, LastTraced(result).value.intent.value).value <= 0.0
  }

  /** `_decision_trace`, of which only the last entry is used. */
  method TraceLast(result: EpisodeResult) returns (last: Option<Blame>)
    ensures last == LastTraced(result)
  {
    hide Encode, DecisionIntent, FrontierOf, Situations;
    var entries := result.ledgerEntries;
    var frontier: seq<Json> := [];
    last := None;
    NothingRead();
    assert entries[..0] == [];
    for i := 0 to |entries|
      invariant frontier == FrontierOf(entries[..i])
      invariant last == LastBlame(result.domain, Situations(entries[..i]))
    {
      var entry := entries[i];
      PrefixRead(entries, i);
      if entry.kind == Word.DECISION {
        last := Some(Blame(Encode(result.domain, frontier), DecisionIntent(Get(entry.payload, Key.Decision))));
      } else if entry.kind == OBSERVATION_BATCH || entry.kind == ACTION_RESULT {
        var observations := Get(entry.payload, Key.Observations);
        if observations.Arr? { frontier := frontier + observations.items; }
      }
    }
    assert entries[..|entries|] == entries;
  }

  class BoundedExplorationPolicy {
    const learner: ProofGatedAdaptivePolicy
    var cursors: Cursors
    var receipts: seq<SearchReceipt>

    /** The cursor of a state is the number of receipts for it. */
    ghost predicate Valid() reads this {
      forall state :: Cursor(cursors, state) == StateReceipts(receipts, state)
    }

    constructor (learner: ProofGatedAdaptivePolicy)
      ensures Valid() && cursors == map[] && receipts == [] && this.learner == learner
    {
      this.learner, cursors, receipts := learner, map[], [];
    }

    /** `decide`: the cursor walks through the candidates once and stays on the last. */
    method Decide(view: AgentTaskView, observations: seq<Observation>)
      returns (decision: PolicyDecision)
      ensures var state := Encode(view.domain, ToDicts(observations));
        exists learned :: Decides(learner.q, state, view.allowedActions, learned)
          && decision == if Undecided(learned) then AtCursor(Cursor(cursors, state), state, view.allowedActions)
            else learned
    {
      hide Encode, Decides, IntentDecision, Supported;
      var preferred := learner.Decide(view, observations);
      if !Undecided(preferred) { return preferred; }
      var state := EncodeState(view.domain, ToDicts(observations));
      var candidates := SupportedCandidates(state, view.allowedActions);
      if candidates == [] { return PolicyDecision(DeferNoSupport, None); }
      var index := if Cursor(cursors, state) < |candidates| - 1 then Cursor(cursors, state) else |candidates| - 1;
      SupportedDistinct(state, view.allowedActions);
      assert candidates[index] in candidates;
      return IntentDecision(candidates[index], view.allowedActions).value;
    }

    /** `observe_failed_attempt`: None when it raises; Q is left alone. */
    method ObserveFailedAttempt(result: EpisodeResult) returns (moved: Option<bool>)
      requires Valid()
      modifies this
      ensures Valid()
      ensures moved.None? <==> result.split != "train" || result.Accepted()
      ensures moved.Some? ==> (moved.value <==> MovesCursor(learner.q, result))
      ensures moved != Some(true) ==> cursors == old(cursors) && receipts == old(receipts)
      ensures moved == Some(true) ==>
        var blame := LastTraced(result).value;
        var previous := Cursor(old(cursors), blame.state);
        && cursors == old(cursors)[blame.state := previous + 1]
        && receipts == old(receipts)
             + [SearchReceipt(result.taskId, result.ledgerRoot.value, blame.state, blame.intent.value, previous,
                              previous + 1)]
    {
      hide LastTraced, Stat;
      if result.split != "train" || result.Accepted() { return None; }
      if !(result.admission.provenanceValid && result.admission.trajectoryValid && result.admission.integrityValid) {
        return Some(false);
      }
      if result.ledgerRoot.None? { return Some(false); }
      var last := TraceLast(result);
      if last.None? || last.value.state == UNKNOWN || last.value.intent.None? { return Some(false); }
      var state, intent := last.value.state, last.value.intent.value;
      if learner.QValue(state, intent) > 0.0 { return Some(false); }
      var previous := Cursor(cursors, state);
      var receipt := SearchReceipt(result.taskId, result.ledgerRoot.value, state, intent, previous, previous + 1);
      NextSearchReceipt(receipts, receipt);
      cursors, receipts := cursors[state := previous + 1], receipts + [receipt];
      return Some(true);
    }
  }
}
