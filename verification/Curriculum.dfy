/** Staged promotion (`gym/curriculum.py`): episode results are counted against a stage's
    thresholds and the verdicts are chained by their hashes. Rates are exact. */
module Curriculum {
  import opened Json
  import opened HashChain
  import opened Evidence
  import opened Episode
  import EpisodeLaws

  datatype Stage = Stage(
    index: int, name: string, trainTaskIds: seq<string>, validationTaskIds: seq<string>, requiredSkills: seq<string>,
    minTrainRate: real, minValidationRate: real, maxBudgetRate: real, requireUpdates: bool)

  datatype Plan = Plan(curriculumId: string, stages: seq<Stage>)

  /** `Curriculum.from_mapping`: indexes are contiguous from zero. */
  predicate Contiguous(plan: Plan) {
    forall i :: 0 <= i < |plan.stages| ==> plan.stages[i].index == i
  }

  datatype ReceiptFormat = PROMOTION_RECEIPT | OtherFormat(text: string)

  datatype StageFailure =
    | TrainAdmissionBelowThreshold | ValidationAdmissionBelowThreshold | BudgetExhaustionAboveThreshold
    | AdmittedTrainEpisodeMissingLearningUpdate

  datatype Verdict = Verdict(
    format: ReceiptFormat, curriculumId: string, stageIndex: int, stageName: string, previousCheckpoint: string,
    trainTaskIds: seq<string>, validationTaskIds: seq<string>, trainRate: real, validationRate: real, budgetRate: real,
    updateRate: real, promoted: bool, reasons: seq<StageFailure>)

  datatype PromotionReceipt = PromotionReceipt(payload: Verdict, checkpoint: string)

  /** `sha256_json` on receipt payloads. */
  type PayloadHash = Verdict -> string

  /** No two of these payloads share a checkpoint. */
  ghost predicate NoCollision(h: PayloadHash, payloads: set<Verdict>) {
    forall a, b :: a in payloads && b in payloads && h(a) == h(b) ==> a == b
  }

  function PayloadsOf(receipts: seq<PromotionReceipt>): set<Verdict> {
    set r | r in receipts :: r.payload
  }

  // ----- Counting -----

  datatype Trait = Admitted | Exhausted | Updated

  predicate Shows(r: EpisodeResult, mark: Trait) {
    match mark
    case Admitted => r.Accepted()
    case Exhausted => r.budgetExhausted
    case Updated => r.learningUpdated
  }

  function Count(results: seq<EpisodeResult>, mark: Trait): (n: nat)
    ensures n <= |results|
  {
    if results == [] then 0
    else Count(results[..|results| - 1], mark) + (if Shows(results[|results| - 1], mark) then 1 else 0)
  }

  function Rate(results: seq<EpisodeResult>, mark: Trait): real
    requires results != []
  {
    Count(results, mark) as real / |results| as real
  }

  /** `sum(1 for result in results if ...)` */
  method Counted(results: seq<EpisodeResult>, mark: Trait) returns (n: nat)
    ensures n == Count(results, mark)
  {
    n := 0;
    for i := 0 to |results|
      invariant n == Count(results[..i], mark)
    {
      assert results[..i + 1][..i] == results[..i];
      if Shows(results[i], mark) { n := n + 1; }
    }
    assert results[..|results|] == results;
  }

  // ----- One stage -----

  function TaskIds(results: seq<EpisodeResult>): seq<string> {
    seq(|results|, i requires 0 <= i < |results| => results[i].taskId)
  }

  ghost predicate Indexable(results: seq<EpisodeResult>) {
    results != [] && Distinct(TaskIds(results))
  }

  predicate ExactlyThese(results: seq<EpisodeResult>, ids: seq<string>) {
    (set r | r in results :: r.taskId) == (set i | i in ids)
  }

  predicate AllFrom(results: seq<EpisodeResult>, split: string) {
    forall i :: 0 <= i < |results| ==> results[i].split == split
  }

  /** What `evaluate_stage` insists on before it gives a receipt. */
  ghost predicate Evaluable(plan: Plan, stage: Stage, train: seq<EpisodeResult>, validation: seq<EpisodeResult>,
                            previous: string)
  {
    && stage in plan.stages && IsSha256(previous)
    && Indexable(train) && Indexable(validation)
    && ExactlyThese(train, stage.trainTaskIds) && ExactlyThese(validation, stage.validationTaskIds)
    && AllFrom(train, "train") && AllFrom(validation, "validation")
    && (forall i :: 0 <= i < |validation| ==> !validation[i].learningUpdated)
  }

  function Failures(stage: Stage, train: seq<EpisodeResult>, validation: seq<EpisodeResult>): seq<StageFailure>
    requires train != [] && validation != []
  {
    (if Rate(train, Admitted) < stage.minTrainRate then [TrainAdmissionBelowThreshold] else [])
    + (if Rate(validation, Admitted) < stage.minValidationRate then [ValidationAdmissionBelowThreshold] else [])
    + (if Rate(train + validation, Exhausted) > stage.maxBudgetRate then [BudgetExhaustionAboveThreshold] else [])
    + (if stage.requireUpdates && Rate(train, Updated) < Rate(train, Admitted)
       then [AdmittedTrainEpisodeMissingLearningUpdate] else [])
  }

  function Evaluation(h: PayloadHash, plan: Plan, stage: Stage, train: seq<EpisodeResult>,
                      validation: seq<EpisodeResult>, previous: string): PromotionReceipt
    requires train != [] && validation != []
  {
    var reasons := Failures(stage, train, validation);
    var payload := Verdict(PROMOTION_RECEIPT, plan.curriculumId, stage.index, stage.name, previous, stage.trainTaskIds,
      stage.validationTaskIds, Rate(train, Admitted), Rate(validation, Admitted), Rate(train + validation, Exhausted),
      Rate(train, Updated), reasons == [], reasons);
    PromotionReceipt(payload, h(payload))
  }

  /** `evaluate_stage`; None is a CurriculumError. */
  method EvaluateStage(h: PayloadHash, plan: Plan, stage: Stage, train: seq<EpisodeResult>,
                       validation: seq<EpisodeResult>, previous: string)
    returns (receipt: Option<PromotionReceipt>)
    ensures receipt.Some? <==> Evaluable(plan, stage, train, validation, previous)
    ensures receipt.Some? ==> receipt.value == Evaluation(h, plan, stage, train, validation, previous)
  {
    hide Count, IsSha256, Distinct, ExactlyThese, AllFrom;
    if stage !in plan.stages || !IsSha256(previous) { return None; }
    var trainIds, validationIds := TaskIds(train), TaskIds(validation);
    DistinctByCount(trainIds);
    DistinctByCount(validationIds);
    if |set x | x in trainIds| != |train| || train == [] { return None; }
    if |set x | x in validationIds| != |validation| || validation == [] { return None; }
    if !ExactlyThese(train, stage.trainTaskIds) || !ExactlyThese(validation, stage.validationTaskIds) { return None; }
    if !AllFrom(train, "train") || !AllFrom(validation, "validation") { return None; }
    if exists i :: 0 <= i < |validation| && validation[i].learningUpdated { return None; }
    var admitted := Counted(train, Admitted);
    var validated := Counted(validation, Admitted);
    var exhausted := Counted(train + validation, Exhausted);
    var updated := Counted(train, Updated);
    var trainRate, validationRate := admitted as real / |train| as real, validated as real / |validation| as real;
    var budgetRate, updateRate := exhausted as real / |train + validation| as real, updated as real / |train| as real;
    var reasons: seq<StageFailure> := [];
    if trainRate < stage.minTrainRate { reasons := reasons + [TrainAdmissionBelowThreshold]; }
    if validationRate < stage.minValidationRate { reasons := reasons + [ValidationAdmissionBelowThreshold]; }
    if budgetRate > stage.maxBudgetRate { reasons := reasons + [BudgetExhaustionAboveThreshold]; }
    if stage.requireUpdates && updateRate < trainRate {
      reasons := reasons + [AdmittedTrainEpisodeMissingLearningUpdate];
    }
    assert trainRate == Rate(train, Admitted) && validationRate == Rate(validation, Admitted);
    assert budgetRate == Rate(train + validation, Exhausted) && updateRate == Rate(train, Updated);
    assert reasons == Failures(stage, train, validation);
    var payload := Verdict(PROMOTION_RECEIPT, plan.curriculumId, stage.index, stage.name, previous, stage.trainTaskIds,
      stage.validationTaskIds, trainRate, validationRate, budgetRate, updateRate, reasons == [], reasons);
    return Some(PromotionReceipt(payload, h(payload)));
  }

  /** Results as the gym returns them: only admitted episodes have taught. */
  ghost predicate Genuine(results: seq<EpisodeResult>) {
    forall i :: 0 <= i < |results| ==> (results[i].learningUpdated ==> results[i].Accepted())
  }

  /** One play of the gym: the task, everything outside, the bundle's verdict and a learning sink. */
  datatype Played = Played(task: PublicTask, w: World, bundlePasses: bool, hasSink: bool)

  ghost function ResultOf(p: Played): EpisodeResult {
    Receipt(p.task, p.w, Final(p.task, p.w), p.bundlePasses, p.hasSink)
  }

  /** Whatever the gym plays, its results are genuine. */
  lemma GymResultsAreGenuine(plays: seq<Played>, results: seq<EpisodeResult>)
    requires |results| == |plays| && forall i :: 0 <= i < |plays| ==> results[i] == ResultOf(plays[i])
    ensures Genuine(results)
  {
    hide Receipt, Final;
    forall i | 0 <= i < |results| ensures results[i].learningUpdated ==> results[i].Accepted() {
      EpisodeLaws.EveryRunWithinBudget(plays[i].task, plays[i].w, plays[i].bundlePasses, plays[i].hasSink);
      assert results[i] == ResultOf(plays[i]);
    }
  }

  lemma {:induction false} NoMissingUpdates(results: seq<EpisodeResult>)
    requires Genuine(results)
    ensures Count(results, Updated) <= Count(results, Admitted)
    ensures Count(results, Updated) == Count(results, Admitted) ==>
      forall i :: 0 <= i < |results| ==> (results[i].learningUpdated <==> results[i].Accepted())
  {
    if results != [] {
      var n := |results| - 1;
      assert Genuine(results[..n]) by {
        forall i | 0 <= i < n ensures results[..n][i].learningUpdated ==> results[..n][i].Accepted() {
          assert results[..n][i] == results[i];
        }
      }
      NoMissingUpdates(results[..n]);
      if Count(results, Updated) == Count(results, Admitted) {
        forall i | 0 <= i < |results| ensures results[i].learningUpdated <==> results[i].Accepted() {
          if i < n { assert results[..n][i] == results[i]; }
        }
      }
    }
  }

  lemma RatesCompare(a: nat, b: nat, n: nat)
    requires n > 0 && a as real / n as real >= b as real / n as real
    ensures a >= b
  {
  }

  /** A promoted stage that requires updates has taught exactly its admitted train episodes: the
      code only compares two rates, but genuine results leave no other way to pass. */
  lemma PromotionTaughtAllAdmitted(h: PayloadHash, plan: Plan, stage: Stage, train: seq<EpisodeResult>,
                                   validation: seq<EpisodeResult>, previous: string)
    requires train != [] && validation != [] && Genuine(train)
    requires stage.requireUpdates && Evaluation(h, plan, stage, train, validation, previous).payload.promoted
    ensures forall i :: 0 <= i < |train| ==> (train[i].learningUpdated <==> train[i].Accepted())
    ensures Rate(train, Admitted) >= stage.minTrainRate && Rate(validation, Admitted) >= stage.minValidationRate
    ensures Rate(train + validation, Exhausted) <= stage.maxBudgetRate
  {
    hide Count, Genuine;
    NoMissingUpdates(train);
    RatesCompare(Count(train, Updated), Count(train, Admitted), |train|);
  }

  /** Where in the results a trait shows. */
  function Places(results: seq<EpisodeResult>, mark: Trait): set<nat> {
    set i: nat | i < |results| && Shows(results[i], mark)
  }

  lemma PlacesNext(results: seq<EpisodeResult>, mark: Trait)
    requires results != []
    ensures var n := |results| - 1;
      && n !in Places(results[..n], mark)
      && Places(results, mark) == Places(results[..n], mark) + (if Shows(results[n], mark) then {n} else {})
  {
    hide Shows;
    var n := |results| - 1;
    forall i: nat ensures i in Places(results, mark) <==>
      i in Places(results[..n], mark) + (if Shows(results[n], mark) then {n} else {})
    {
      if i < n { assert results[..n][i] == results[i]; }
    }
  }

  lemma {:induction false} CountIsPlaces(results: seq<EpisodeResult>, mark: Trait)
    ensures Count(results, mark) == |Places(results, mark)|
  {
    hide Shows;
    if results == [] {
      assert Places(results, mark) == {};
    } else {
      CountIsPlaces(results[..|results| - 1], mark);
      PlacesNext(results, mark);
      hide Places;
    }
  }

  lemma RateBelow(n: nat, total: nat, bound: real)
    requires total > 0
    ensures n as real / total as real < bound <==> n as real < bound * total as real
  {
    var rate, size := n as real / total as real, total as real;
    assert rate * size == n as real;
    if rate < bound { assert (bound - rate) * size > 0.0; }
    if rate >= bound { assert (rate - bound) * size >= 0.0; }
  }

  lemma RateAbove(n: nat, total: nat, bound: real)
    requires total > 0
    ensures n as real / total as real > bound <==> n as real > bound * total as real
  {
    var rate, size := n as real / total as real, total as real;
    assert rate * size == n as real;
    if rate > bound { assert (rate - bound) * size > 0.0; }
    if rate <= bound { assert (bound - rate) * size >= 0.0; }
  }

  lemma RatesBelow(m: nat, n: nat, total: nat)
    requires total > 0
    ensures m as real / total as real < n as real / total as real <==> m < n
  {
    RateBelow(m, total, n as real / total as real);
    assert n as real / total as real * total as real == n as real;
  }

  /** The failures of a stage, one by one, as counts of episodes; a threshold that is just met is met. */
  ghost predicate Fails(stage: Stage, train: seq<EpisodeResult>, validation: seq<EpisodeResult>,
                        failure: StageFailure)
  {
    var admitted := set i: nat | i < |train| && train[i].Accepted();
    match failure
    case TrainAdmissionBelowThreshold => |admitted| as real < stage.minTrainRate * |train| as real
    case ValidationAdmissionBelowThreshold =>
      |set i: nat | i < |validation| && validation[i].Accepted()| as real
        < stage.minValidationRate * |validation| as real
    case BudgetExhaustionAboveThreshold =>
      var all := train + validation;
      |set i: nat | i < |all| && all[i].budgetExhausted| as real > stage.maxBudgetRate * |all| as real
    case AdmittedTrainEpisodeMissingLearningUpdate =>
      stage.requireUpdates && |set i: nat | i < |train| && train[i].learningUpdated| < |admitted|
  }

  /** A stage is promoted if and only if none of its four failures holds of the counted episodes, and
      the reasons given are exactly those that do. */
  lemma PromotionIsExact(h: PayloadHash, plan: Plan, stage: Stage, train: seq<EpisodeResult>,
                         validation: seq<EpisodeResult>, previous: string)
    requires train != [] && validation != []
    ensures var verdict := Evaluation(h, plan, stage, train, validation, previous).payload;
      && (verdict.promoted <==> forall failure: StageFailure :: !Fails(stage, train, validation, failure))
      && (forall failure :: failure in verdict.reasons <==> Fails(stage, train, validation, failure))
  {
    hide Count, Fails;
    TrainFails(stage, train, validation);
    ValidationFails(stage, train, validation);
    BudgetFails(stage, train, validation);
    UpdateFails(stage, train, validation);
    var reasons := Failures(stage, train, validation);
    forall failure ensures failure in reasons <==> Fails(stage, train, validation, failure) {
      match failure
      case TrainAdmissionBelowThreshold =>
      case ValidationAdmissionBelowThreshold =>
      case BudgetExhaustionAboveThreshold =>
      case AdmittedTrainEpisodeMissingLearningUpdate =>
    }
    if reasons != [] { assert reasons[0] in reasons; }
  }

  lemma TrainFails(stage: Stage, train: seq<EpisodeResult>, validation: seq<EpisodeResult>)
    requires train != []
    ensures Rate(train, Admitted) < stage.minTrainRate
       <==> Fails(stage, train, validation, TrainAdmissionBelowThreshold)
  {
    CountIsPlaces(train, Admitted);
    assert Places(train, Admitted) == set i: nat | i < |train| && train[i].Accepted();
    RateBelow(Count(train, Admitted), |train|, stage.minTrainRate);
  }

  lemma ValidationFails(stage: Stage, train: seq<EpisodeResult>, validation: seq<EpisodeResult>)
    requires validation != []
    ensures Rate(validation, Admitted) < stage.minValidationRate
       <==> Fails(stage, train, validation, ValidationAdmissionBelowThreshold)
  {
    CountIsPlaces(validation, Admitted);
    assert Places(validation, Admitted) == set i: nat | i < |validation| && validation[i].Accepted();
    RateBelow(Count(validation, Admitted), |validation|, stage.minValidationRate);
  }

  lemma BudgetFails(stage: Stage, train: seq<EpisodeResult>, validation: seq<EpisodeResult>)
    requires train != []
    ensures Rate(train + validation, Exhausted) > stage.maxBudgetRate
       <==> Fails(stage, train, validation, BudgetExhaustionAboveThreshold)
  {
    hide Count;
    var all := train + validation;
    CountIsPlaces(all, Exhausted);
    assert Places(all, Exhausted) == set i: nat | i < |all| && all[i].budgetExhausted;
    RateAbove(Count(all, Exhausted), |all|, stage.maxBudgetRate);
  }

  lemma UpdateFails(stage: Stage, train: seq<EpisodeResult>, validation: seq<EpisodeResult>)
    requires train != []
    ensures stage.requireUpdates && Rate(train, Updated) < Rate(train, Admitted)
       <==> Fails(stage, train, validation, AdmittedTrainEpisodeMissingLearningUpdate)
  {
    CountIsPlaces(train, Updated);
    CountIsPlaces(train, Admitted);
    assert Places(train, Updated) == set i: nat | i < |train| && train[i].learningUpdated;
    assert Places(train, Admitted) == set i: nat | i < |train| && train[i].Accepted();
    RatesBelow(Count(train, Updated), Count(train, Admitted), |train|);
  }

  // ----- The chain of receipts -----

  function CheckpointBefore(receipts: seq<PromotionReceipt>, i: nat): string
    requires i <= |receipts|
  {
    if i == 0 then ZERO_HASH else receipts[i - 1].checkpoint
  }

  /** Receipt i belongs to stage i, follows its predecessor and, unless it is the last, promoted. */
  predicate LinkOk(h: PayloadHash, plan: Plan, receipts: seq<PromotionReceipt>, i: nat)
    requires i < |receipts| && i < |plan.stages|
  {
    var p := receipts[i].payload;
    && p.format == PROMOTION_RECEIPT && p.curriculumId == plan.curriculumId
    && p.stageIndex == plan.stages[i].index && p.stageName == plan.stages[i].name
    && p.previousCheckpoint == CheckpointBefore(receipts, i)
    && receipts[i].checkpoint == h(p)
    && (p.promoted || i == |receipts| - 1)
  }

  ghost predicate ChainOk(h: PayloadHash, plan: Plan, receipts: seq<PromotionReceipt>) {
    |receipts| <= |plan.stages| && forall i :: 0 <= i < |receipts| ==> LinkOk(h, plan, receipts, i)
  }

  /** `verify_promotion_chain` */
  method VerifyPromotionChain(h: PayloadHash, plan: Plan, receipts: seq<PromotionReceipt>) returns (ok: bool)
    ensures ok <==> ChainOk(h, plan, receipts)
  {
    if |receipts| > |plan.stages| { return false; }
    var previous := ZERO_HASH;
    for i := 0 to |receipts|
      invariant previous == CheckpointBefore(receipts, i)
      invariant forall k :: 0 <= k < i ==> LinkOk(h, plan, receipts, k)
    {
      var expected, receipt := plan.stages[i], receipts[i];
      var p := receipt.payload;
      if p.format != PROMOTION_RECEIPT || p.curriculumId != plan.curriculumId || p.stageIndex != expected.index
         || p.stageName != expected.name || p.previousCheckpoint != previous || receipt.checkpoint != h(p)
         || (!p.promoted && i != |receipts| - 1) {
        assert !LinkOk(h, plan, receipts, i);
        return false;
      }
      previous := receipt.checkpoint;
    }
    return true;
  }

  /** The results supplied for each evaluated stage. */
  type StageResults = (seq<EpisodeResult>, seq<EpisodeResult>)

  /** Receipts obtained by evaluating the stages in order, going on only after a promotion. */
  ghost predicate BuiltInOrder(h: PayloadHash, plan: Plan, given: seq<StageResults>, receipts: seq<PromotionReceipt>) {
    && |receipts| == |given| <= |plan.stages|
    && (forall i :: 0 <= i < |receipts| ==>
          given[i].0 != [] && given[i].1 != []
          && receipts[i] == Evaluation(h, plan, plan.stages[i], given[i].0, given[i].1, CheckpointBefore(receipts, i)))
    && (forall i :: 0 <= i < |receipts| - 1 ==> receipts[i].payload.promoted)
  }

  /** Whatever the results, such receipts are a valid chain. */
  lemma BuiltChainsVerify(h: PayloadHash, plan: Plan, given: seq<StageResults>, receipts: seq<PromotionReceipt>)
    requires BuiltInOrder(h, plan, given, receipts)
    ensures ChainOk(h, plan, receipts)
  {
    hide Rate, Failures;
    forall i | 0 <= i < |receipts| ensures LinkOk(h, plan, receipts, i) {
      assert receipts[i] == Evaluation(h, plan, plan.stages[i], given[i].0, given[i].1, CheckpointBefore(receipts, i));
    }
  }

  /** One evaluation of a stage. */
  datatype Evaluated = Evaluated(plan: Plan, stage: Stage, train: seq<EpisodeResult>, validation: seq<EpisodeResult>,
                                 previous: string)

  ghost predicate IsReceiptOf(h: PayloadHash, receipt: PromotionReceipt, e: Evaluated) {
    && e.train != [] && e.validation != []
    && receipt == Evaluation(h, e.plan, e.stage, e.train, e.validation, e.previous)
  }

  /** Conversely receipts of any evaluations, in whatever order and of whatever plans, are only accepted
      when they are those of this plan's stages in order, each on the checkpoint before it, and all but
      the last promoted. */
  lemma AcceptedChainsAreBuilt(h: PayloadHash, plan: Plan, receipts: seq<PromotionReceipt>, of: seq<Evaluated>)
    requires |of| == |receipts| && forall i :: 0 <= i < |of| ==> IsReceiptOf(h, receipts[i], of[i])
    ensures ChainOk(h, plan, receipts) <==>
      && |of| <= |plan.stages|
      && (forall i :: 0 <= i < |of| ==>
            IsOfStage(plan, plan.stages[i], of[i], if i == 0 then ZERO_HASH else receipts[i - 1].checkpoint))
      && (forall i :: 0 <= i < |of| - 1 ==> Promotes(of[i]))
  {
    hide IsReceiptOf, IsOfStage, Promotes, LinkOk;
    forall i | 0 <= i < |of| && |of| <= |plan.stages|
      ensures LinkOk(h, plan, receipts, i) <==>
        && IsOfStage(plan, plan.stages[i], of[i], CheckpointBefore(receipts, i))
        && (Promotes(of[i]) || i == |receipts| - 1)
    {
      ReceiptLinks(h, plan, receipts, of[i], i);
    }
  }

  predicate IsOfStage(plan: Plan, stage: Stage, e: Evaluated, previous: string) {
    && e.plan.curriculumId == plan.curriculumId
    && e.stage.index == stage.index && e.stage.name == stage.name && e.previous == previous
  }

  /** None of the four failures holds. */
  ghost predicate Promotes(e: Evaluated) {
    forall failure: StageFailure :: !Fails(e.stage, e.train, e.validation, failure)
  }

  lemma ReceiptLinks(h: PayloadHash, plan: Plan, receipts: seq<PromotionReceipt>, e: Evaluated, i: nat)
    requires i < |receipts| && i < |plan.stages| && IsReceiptOf(h, receipts[i], e)
    ensures LinkOk(h, plan, receipts, i) <==>
      && IsOfStage(plan, plan.stages[i], e, CheckpointBefore(receipts, i))
      && (Promotes(e) || i == |receipts| - 1)
  {
    hide Rate, Failures, Fails;
    PromotionIsExact(h, e.plan, e.stage, e.train, e.validation, e.previous);
  }

  /** What of a link does not depend on whether it is the last. */
  predicate Hooked(h: PayloadHash, plan: Plan, receipts: seq<PromotionReceipt>, i: nat)
    requires i < |receipts| && i < |plan.stages|
  {
    && receipts[i].payload.stageIndex == plan.stages[i].index
    && receipts[i].payload.previousCheckpoint == CheckpointBefore(receipts, i)
    && receipts[i].checkpoint == h(receipts[i].payload)
  }

  ghost predicate AllHooked(h: PayloadHash, plan: Plan, receipts: seq<PromotionReceipt>) {
    |receipts| <= |plan.stages| && forall i :: 0 <= i < |receipts| ==> Hooked(h, plan, receipts, i)
  }

  lemma SameCheckpointSameReceipt(h: PayloadHash, plan: Plan, a: seq<PromotionReceipt>, i: nat,
                                  b: seq<PromotionReceipt>, j: nat)
    requires NoCollision(h, PayloadsOf(a) + PayloadsOf(b)) && Contiguous(plan)
    requires AllHooked(h, plan, a) && AllHooked(h, plan, b)
    requires i < |a| && j < |b| && a[i].checkpoint == b[j].checkpoint
    ensures i == j && a[i] == b[j] && CheckpointBefore(a, i) == CheckpointBefore(b, j)
  {
    assert Hooked(h, plan, a, i) && Hooked(h, plan, b, j);
    assert a[i] in a && b[j] in b;
    assert a[i].payload in PayloadsOf(a) && b[j].payload in PayloadsOf(b);
    assert plan.stages[i].index == i && plan.stages[j].index == j;
  }

  lemma {:induction false} CheckpointCommits(h: PayloadHash, plan: Plan, a: seq<PromotionReceipt>, i: nat,
                                             b: seq<PromotionReceipt>, j: nat)
    requires NoCollision(h, PayloadsOf(a) + PayloadsOf(b)) && Contiguous(plan)
    requires AllHooked(h, plan, a) && AllHooked(h, plan, b)
    requires i < |a| && j < |b| && a[i].checkpoint == b[j].checkpoint
    ensures i == j && a[..i + 1] == b[..j + 1]
  {
    hide AllHooked, NoCollision, PayloadsOf, Contiguous;
    SameCheckpointSameReceipt(h, plan, a, i, b, j);
    if i > 0 { CheckpointCommits(h, plan, a, i - 1, b, j - 1); }
    assert a[..i + 1] == a[..i] + [a[i]] && b[..j + 1] == b[..j] + [b[j]];
  }

  /** The last checkpoint of an accepted chain fixes how many stages were passed and every receipt,
      unless two payloads in the two chains collide. */
  lemma ChainsCommit(h: PayloadHash, plan: Plan, a: seq<PromotionReceipt>, b: seq<PromotionReceipt>)
    requires NoCollision(h, PayloadsOf(a) + PayloadsOf(b)) && Contiguous(plan)
    requires ChainOk(h, plan, a) && ChainOk(h, plan, b) && a != [] && b != []
    requires a[|a| - 1].checkpoint == b[|b| - 1].checkpoint
    ensures a == b
  {
    hide NoCollision, PayloadsOf, Contiguous;
    ChainHooked(h, plan, a);
    ChainHooked(h, plan, b);
    CheckpointCommits(h, plan, a, |a| - 1, b, |b| - 1);
    assert a[..|a|] == a && b[..|b|] == b;
  }

  lemma ChainHooked(h: PayloadHash, plan: Plan, receipts: seq<PromotionReceipt>)
    requires ChainOk(h, plan, receipts)
    ensures AllHooked(h, plan, receipts)
  {
    forall i | 0 <= i < |receipts| ensures Hooked(h, plan, receipts, i) { assert LinkOk(h, plan, receipts, i); }
  }

  // ----- Task registries -----

  function AllIds(stages: seq<Stage>, training: bool): seq<string> {
    if stages == [] then []
    else
      var last := stages[|stages| - 1];
      AllIds(stages[..|stages| - 1], training) + (if training then last.trainTaskIds else last.validationTaskIds)
  }

  predicate Registered(tasks: map<string, PublicTask>, ids: seq<string>, split: string) {
    forall i :: 0 <= i < |ids| ==> ids[i] in tasks && tasks[ids[i]].split == split
  }

  predicate SkillsCovered(tasks: map<string, PublicTask>, stage: Stage) {
    forall s :: s in stage.requiredSkills ==>
      (exists i :: i in stage.trainTaskIds && i in tasks && s in tasks[i].skillTargets)
      || (exists i :: i in stage.validationTaskIds && i in tasks && s in tasks[i].skillTargets)
  }

  /** A registry that fits a curriculum: every task is known and of the right split, none is used
      twice, and every stage's skills are exercised by its own tasks. */
  ghost predicate Fits(tasks: map<string, PublicTask>, stages: seq<Stage>) {
    && Registered(tasks, AllIds(stages, true), "train") && Distinct(AllIds(stages, true))
    && Registered(tasks, AllIds(stages, false), "validation") && Distinct(AllIds(stages, false))
    && forall k :: 0 <= k < |stages| ==> SkillsCovered(tasks, stages[k])
  }

  /** The two halves never overlap, so the code's final check on that cannot fail. */
  lemma SplitsDisjoint(tasks: map<string, PublicTask>, stages: seq<Stage>)
    requires Fits(tasks, stages)
    ensures forall id :: id in AllIds(stages, true) ==> id !in AllIds(stages, false)
  {
    hide SkillsCovered;
    forall id | id in AllIds(stages, true) ensures id !in AllIds(stages, false) {
      assert tasks[id].split == "train";
      assert "train" != "validation";
    }
  }

  function NamesOf(tasks: seq<PublicTask>): seq<string> {
    seq(|tasks|, i requires 0 <= i < |tasks| => tasks[i].taskId)
  }

  function ById(tasks: seq<PublicTask>): map<string, PublicTask> {
    if tasks == [] then map[]
    else ById(tasks[..|tasks| - 1])[tasks[|tasks| - 1].taskId := tasks[|tasks| - 1]]
  }

  lemma {:induction false} ByIdKeys(tasks: seq<PublicTask>)
    ensures ById(tasks).Keys == set x | x in NamesOf(tasks)
  {
    if tasks != [] {
      var n := |tasks| - 1;
      ByIdKeys(tasks[..n]);
      assert NamesOf(tasks) == NamesOf(tasks[..n]) + [tasks[n].taskId];
    }
  }

  function SkillsOf(tasks: map<string, PublicTask>, ids: seq<string>): set<string> {
    set i, s | i in ids && i in tasks && s in tasks[i].skillTargets :: s
  }

  ghost predicate NewIds(tasks: map<string, PublicTask>, ids: seq<string>, split: string, seen: set<string>) {
    Registered(tasks, ids, split) && Distinct(ids) && forall i :: i in ids ==> i !in seen
  }

  lemma NoSkills(tasks: map<string, PublicTask>)
    ensures SkillsOf(tasks, []) == {}
  {
  }

  lemma SkillsNext(tasks: map<string, PublicTask>, ids: seq<string>, id: string)
    requires id in tasks
    ensures SkillsOf(tasks, ids + [id]) == SkillsOf(tasks, ids) + (set s | s in tasks[id].skillTargets)
  {
  }

  /** One of the two inner loops: the ids of one split of one stage. */
  method CheckIds(tasks: map<string, PublicTask>, ids: seq<string>, split: string, seen: set<string>,
                  skills: set<string>)
    returns (ok: bool, seen': set<string>, skills': set<string>)
    ensures ok <==> NewIds(tasks, ids, split, seen)
    ensures ok ==> seen' == seen + (set i | i in ids) && skills' == skills + SkillsOf(tasks, ids)
  {
    hide SkillsOf;
    seen', skills' := seen, skills;
    assert ids[..0] == [];
    NoSkills(tasks);
    for n := 0 to |ids|
      invariant Registered(tasks, ids[..n], split)
      invariant seen' == seen + (set i | i in ids[..n])
      invariant skills' == skills + SkillsOf(tasks, ids[..n])
      invariant forall i, j :: 0 <= i < j < n ==> ids[i] != ids[j]
      invariant forall i :: 0 <= i < n ==> ids[i] !in seen
    {
      var id := ids[n];
      if id !in tasks || tasks[id].split != split { return false, seen', skills'; }
      if id in seen' {
        if id !in seen { var k :| 0 <= k < n && ids[..n][k] == id; assert ids[k] == ids[n]; }
        return false, seen', skills';
      }
      assert ids[..n + 1] == ids[..n] + [id];
      SkillsNext(tasks, ids[..n], id);
      seen' := seen' + {id};
      skills' := skills' + (set s | s in tasks[id].skillTargets);
    }
    assert ids[..|ids|] == ids;
    return true, seen', skills';
  }

  lemma DistinctAppend<T>(a: seq<T>, b: seq<T>)
    ensures Distinct(a + b) <==> Distinct(a) && Distinct(b) && forall x :: x in b ==> x !in a
  {
    var c := a + b;
    if Distinct(a) && Distinct(b) && forall x :: x in b ==> x !in a { DisjointDistinct(a, b); }
    if Distinct(c) {
      assert forall i :: 0 <= i < |a| ==> c[i] == a[i];
      forall i, j | 0 <= i < j < |b| ensures b[i] != b[j] { assert c[|a| + i] != c[|a| + j]; }
      forall x | x in b ensures x !in a {
        var j :| 0 <= j < |b| && b[j] == x;
        forall i | 0 <= i < |a| ensures a[i] != x { assert c[i] != c[|a| + j]; }
      }
    }
  }

  lemma DisjointDistinct<T>(a: seq<T>, b: seq<T>)
    requires Distinct(a) && Distinct(b) && forall x :: x in b ==> x !in a
    ensures Distinct(a + b)
  {
    var c := a + b;
    forall i, j | 0 <= i < j < |c| ensures c[i] != c[j] {
      if i < |a| <= j { assert a[i] in a && b[j - |a|] in b; }
    }
  }

  lemma FitsNext(tasks: map<string, PublicTask>, stages: seq<Stage>, k: nat)
    requires k < |stages|
    ensures Fits(tasks, stages[..k + 1]) <==>
      && Fits(tasks, stages[..k])
      && NewIds(tasks, stages[k].trainTaskIds, "train", set i | i in AllIds(stages[..k], true))
      && NewIds(tasks, stages[k].validationTaskIds, "validation", set i | i in AllIds(stages[..k], false))
      && SkillsCovered(tasks, stages[k])
  {
    hide Distinct;
    var before, next := stages[..k], stages[..k + 1];
    assert next[..k] == before && next[k] == stages[k];
    DistinctAppend(AllIds(before, true), stages[k].trainTaskIds);
    DistinctAppend(AllIds(before, false), stages[k].validationTaskIds);
    RegisteredAppend(tasks, AllIds(before, true), stages[k].trainTaskIds, "train");
    RegisteredAppend(tasks, AllIds(before, false), stages[k].validationTaskIds, "validation");
    RegisteredKnown(tasks, stages[k].trainTaskIds, "train");
    RegisteredKnown(tasks, stages[k].validationTaskIds, "validation");
  }

  lemma RegisteredAppend(tasks: map<string, PublicTask>, a: seq<string>, b: seq<string>, split: string)
    ensures Registered(tasks, a + b, split) <==> Registered(tasks, a, split) && Registered(tasks, b, split)
  {
    var c := a + b;
    assert forall i :: 0 <= i < |a| ==> c[i] == a[i];
    assert forall i :: 0 <= i < |b| ==> c[|a| + i] == b[i];
  }

  lemma RegisteredKnown(tasks: map<string, PublicTask>, ids: seq<string>, split: string)
    ensures Registered(tasks, ids, split) ==> forall i :: i in ids ==> i in tasks
  {
  }

  /** `validate_curriculum_tasks` */
  method ValidateCurriculumTasks(plan: Plan, tasks: seq<PublicTask>) returns (ok: bool)
    ensures ok <==> Distinct(NamesOf(tasks)) && Fits(ById(tasks), plan.stages)
  {
    hide Distinct, Fits, NewIds, ById, AllIds, SkillsOf;
    var byId := ById(tasks);
    ByIdKeys(tasks);
    DistinctByCount(NamesOf(tasks));
    if |byId.Keys| != |tasks| { return false; }
    var seenTrain: set<string>, seenValidation: set<string> := {}, {};
    var stages := plan.stages;
    NothingFits(byId);
    assert stages[..0] == [];
    for k := 0 to |stages|
      invariant Fits(byId, stages[..k])
      invariant seenTrain == set i | i in AllIds(stages[..k], true)
      invariant seenValidation == set i | i in AllIds(stages[..k], false)
    {
      var stage := stages[k];
      FitsNext(byId, stages, k);
      NextIds(stages, k);
      var trainOk, seenTrain', skills := CheckIds(byId, stage.trainTaskIds, "train", seenTrain, {});
      if !trainOk { NotFitting(byId, stages, k); return false; }
      var validationOk, seenValidation', allSkills :=
        CheckIds(byId, stage.validationTaskIds, "validation", seenValidation, skills);
      if !validationOk { NotFitting(byId, stages, k); return false; }
      SkillsAre(byId, stage);
      var missing := set s | s in stage.requiredSkills && s !in allSkills;
      assert missing == {} <==> forall s :: s in stage.requiredSkills ==> s in allSkills by {
        if s :| s in stage.requiredSkills && s !in allSkills { assert s in missing; }
      }
      if missing != {} { NotFitting(byId, stages, k); return false; }
      seenTrain, seenValidation := seenTrain', seenValidation';
    }
    assert stages[..|stages|] == stages;
    SplitsDisjoint(byId, stages);
    return seenTrain * seenValidation == {};
  }

  lemma NothingFits(tasks: map<string, PublicTask>)
    ensures Fits(tasks, []) && AllIds([], true) == [] && AllIds([], false) == []
  {
  }

  lemma NextIds(stages: seq<Stage>, k: nat)
    requires k < |stages|
    ensures AllIds(stages[..k + 1], true) == AllIds(stages[..k], true) + stages[k].trainTaskIds
    ensures AllIds(stages[..k + 1], false) == AllIds(stages[..k], false) + stages[k].validationTaskIds
  {
    assert stages[..k + 1][..k] == stages[..k];
  }

  lemma SkillsAre(tasks: map<string, PublicTask>, stage: Stage)
    ensures SkillsCovered(tasks, stage) <==>
      forall s :: s in stage.requiredSkills ==>
        s in SkillsOf(tasks, stage.trainTaskIds) + SkillsOf(tasks, stage.validationTaskIds)
  {
  }

  /** A registry that does not fit some first stages does not fit all of them. */
  lemma NotFitting(tasks: map<string, PublicTask>, stages: seq<Stage>, k: nat)
    requires k < |stages| && !Fits(tasks, stages[..k + 1])
    ensures !Fits(tasks, stages)
    decreases |stages| - k
  {
    hide Fits, NewIds, SkillsCovered;
    if k + 1 < |stages| {
      FitsNext(tasks, stages, k + 1);
      NotFitting(tasks, stages, k + 1);
    } else {
      assert stages[..k + 1] == stages;
    }
  }
}
