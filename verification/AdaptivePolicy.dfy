/** The proof-gated Q learner (`ProofGatedAdaptivePolicy` in `gym/adaptive_policy.py`), with exact
    reals for its floats. */
module AdaptivePolicy {
  import opened Json
  import Ledger
  import opened Evidence
  import opened Episode
  import opened Replay
  import opened Semantics

  datatype QStat = QStat(visits: nat, value: real)

  type Row = map<Intent, QStat>

  type Table = map<SemanticState, Row>

  function Stat(q: Table, state: SemanticState, intent: Intent): QStat {
    if state in q && intent in q[state] then q[state][intent] else QStat(0, 0.0)
  }

  function Stored(q: Table, state: SemanticState, intent: Intent, stat: QStat): Table {
    q[state := (if state in q then q[state] else map[])[intent := stat]]
  }

  // ----- What an episode teaches -----

  datatype Experience = Experience(state: SemanticState, intent: Intent)

  function ExperienceIn(domain: string, s: Situation): seq<Experience> {
    var intent, state := DecisionIntent(s.decision), Encode(domain, s.frontier);
    if intent.Some? && state != UNKNOWN then [Experience(state, intent.value)] else []
  }

  function Experiences(domain: string, situations: seq<Situation>): seq<Experience> {
    if situations == [] then []
    else Experiences(domain, situations[..|situations| - 1]) + ExperienceIn(domain, situations[|situations| - 1])
  }

  function Taught(result: EpisodeResult): seq<Experience> {
    Experiences(result.domain, Situations(result.ledgerEntries))
  }

  lemma NextExperience(domain: string, situations: seq<Situation>, s: Situation)
    ensures Experiences(domain, situations + [s]) == Experiences(domain, situations) + ExperienceIn(domain, s)
  {
    assert (situations + [s])[..|situations|] == situations;
  }

  /** `_decision_experiences`: one pass over the ledger, keeping the frontier. */
  method DecisionExperiences(result: EpisodeResult) returns (learned: seq<Experience>)
    ensures learned == Taught(result)
  {
    hide Encode, DecisionIntent;
    var entries := result.ledgerEntries;
    var frontier: seq<Json> := [];
    learned := [];
    for i := 0 to |entries|
      invariant frontier == FrontierOf(entries[..i])
      invariant learned == Experiences(result.domain, Situations(entries[..i]))
    {
      var entry := entries[i];
      assert entries[..i + 1][..i] == entries[..i];
      assert entries[..i + 1][|entries[..i + 1]| - 1] == entry;
      assert Situations(entries[..i + 1]) == Situations(entries[..i]) + SituationOf(entries[..i], entry);
      if entry.kind == Word.DECISION {
        var decision := Get(entry.payload, Key.Decision);
        NextExperience(result.domain, Situations(entries[..i]), Situation(frontier, decision, entry.entryHash));
        var intent := DecisionIntent(decision);
        if intent.Some? {
          var state := Encode(result.domain, frontier);
          if state != UNKNOWN { learned := learned + [Experience(state, intent.value)]; }
        }
      } else {
        assert Situations(entries[..i]) + [] == Situations(entries[..i]);
        if entry.kind == OBSERVATION_BATCH || entry.kind == ACTION_RESULT {
          var observations := Get(entry.payload, Key.Observations);
          if observations.Arr? { frontier := frontier + observations.items; }
        }
      }
    }
    assert entries[..|entries|] == entries;
  }

  // ----- Means -----

  /** One target that was averaged in. */
  datatype Lesson = Lesson(experience: Experience, target: real)

  function Power(gamma: real, n: nat): real {
    if n == 0 then 1.0 else gamma * Power(gamma, n - 1)
  }

  /** The i-th of n experiences is worth gamma to the number of those that came after it. */
  function Lessons(gamma: real, learned: seq<Experience>): seq<Lesson> {
    seq(|learned|, i requires 0 <= i < |learned| => Lesson(learned[i], Power(gamma, |learned| - i - 1)))
  }

  function Occurrences(history: seq<Lesson>, e: Experience): nat {
    if history == [] then 0
    else Occurrences(history[..|history| - 1], e) + (if history[|history| - 1].experience == e then 1 else 0)
  }

  function TargetSum(history: seq<Lesson>, e: Experience): real {
    if history == [] then 0.0
    else TargetSum(history[..|history| - 1], e)
         + (if history[|history| - 1].experience == e then history[|history| - 1].target else 0.0)
  }

  /** Every cell counts its occurrences and holds the mean of their targets. */
  ghost predicate HoldsMeans(q: Table, history: seq<Lesson>) {
    forall state, intent ::
      MeanOf(Stat(q, state, intent), Occurrences(history, Experience(state, intent)),
             TargetSum(history, Experience(state, intent)))
  }

  predicate MeanOf(stat: QStat, n: nat, sum: real) {
    stat.visits == n && (if n == 0 then stat.value == 0.0 && sum == 0.0 else stat.value == sum / n as real)
  }

  /** The incremental step: `old.value + (target - old.value) / visits`. */
  function Averaged(stat: QStat, target: real): QStat {
    var visits := stat.visits + 1;
    QStat(visits, stat.value + (target - stat.value) / visits as real)
  }

  lemma AveragedIsMean(stat: QStat, n: nat, sum: real, target: real)
    requires MeanOf(stat, n, sum)
    ensures MeanOf(Averaged(stat, target), n + 1, sum + target)
  {
    var m := (n + 1) as real;
    var v := stat.value;
    assert v * n as real == sum;
    assert v + (target - v) / m == (v * m + (target - v)) / m by { Combine(v, target - v, m); }
    assert v * m == v * n as real + v;
  }

  lemma Combine(v: real, d: real, m: real)
    requires m > 0.0
    ensures v + d / m == (v * m + d) / m
  {
  }

  lemma NextLesson(history: seq<Lesson>, lesson: Lesson, e: Experience)
    ensures Occurrences(history + [lesson], e) == Occurrences(history, e) + (if lesson.experience == e then 1 else 0)
    ensures TargetSum(history + [lesson], e)
      == TargetSum(history, e) + (if lesson.experience == e then lesson.target else 0.0)
  {
    assert (history + [lesson])[..|history|] == history;
  }

  lemma LessonKeepsMeans(q: Table, history: seq<Lesson>, lesson: Lesson)
    requires HoldsMeans(q, history)
    ensures var e := lesson.experience;
      HoldsMeans(Stored(q, e.state, e.intent, Averaged(Stat(q, e.state, e.intent), lesson.target)), history + [lesson])
  {
    hide Occurrences, TargetSum, Averaged, MeanOf;
    var e := lesson.experience;
    var q' := Stored(q, e.state, e.intent, Averaged(Stat(q, e.state, e.intent), lesson.target));
    forall state, intent
      ensures MeanOf(Stat(q', state, intent), Occurrences(history + [lesson], Experience(state, intent)),
                     TargetSum(history + [lesson], Experience(state, intent)))
    {
      var here := Experience(state, intent);
      NextLesson(history, lesson, here);
      if here == e {
        AveragedIsMean(Stat(q, state, intent), Occurrences(history, here), TargetSum(history, here), lesson.target);
      }
    }
  }

  ghost predicate Credits(history: seq<Lesson>) {
    forall i :: 0 <= i < |history| ==> 0.0 < history[i].target <= 1.0
  }

  lemma {:induction false} PowerCredit(gamma: real, n: nat)
    requires 0.0 < gamma <= 1.0
    ensures 0.0 < Power(gamma, n) <= 1.0
  {
    if n > 0 {
      PowerCredit(gamma, n - 1);
      Shrinks(gamma, Power(gamma, n - 1));
    }
  }

  lemma Shrinks(x: real, y: real)
    requires 0.0 < x <= 1.0 && 0.0 < y <= 1.0
    ensures 0.0 < x * y <= 1.0
  {
    assert x * y <= 1.0 * y;
  }

  lemma {:induction false} SumWithin(history: seq<Lesson>, e: Experience)
    requires Credits(history)
    ensures 0.0 <= TargetSum(history, e) <= Occurrences(history, e) as real
    ensures Occurrences(history, e) > 0 ==> TargetSum(history, e) > 0.0
  {
    if history != [] {
      SumWithin(history[..|history| - 1], e);
    }
  }

  lemma MeanWithin(sum: real, n: nat)
    requires n > 0 && 0.0 < sum <= n as real
    ensures 0.0 < sum / n as real <= 1.0
  {
  }

  /** A learned value is a mean of credits, so it lies within (0, 1]. */
  lemma ValuesAreCredits(q: Table, history: seq<Lesson>, state: SemanticState, intent: Intent)
    requires HoldsMeans(q, history) && Credits(history)
    ensures var s := Stat(q, state, intent);
      if s.visits == 0 then s.value == 0.0 else 0.0 < s.value <= 1.0
  {
    var e := Experience(state, intent);
    assert MeanOf(Stat(q, state, intent), Occurrences(history, e), TargetSum(history, e));
    SumWithin(history, e);
    if Occurrences(history, e) > 0 { MeanWithin(TargetSum(history, e), Occurrences(history, e)); }
  }

  // ----- Credit -----

  predicate Shrunk(gamma: real, earlier: real, later: real) {
    earlier == gamma * later
  }

  /** Credit runs backwards from the end of the episode: the last experience is worth one, and each
      earlier one gamma times as much as the next. */
  ghost predicate Discounted(gamma: real, lessons: seq<Lesson>, learned: seq<Experience>) {
    && |lessons| == |learned|
    && (forall i :: 0 <= i < |lessons| ==> lessons[i].experience == learned[i])
    && (lessons != [] ==> lessons[|lessons| - 1].target == 1.0)
    && (forall i, j :: 0 <= i < j < |lessons| && j == i + 1 ==>
          Shrunk(gamma, lessons[i].target, lessons[j].target))
  }

  lemma NextPower(gamma: real, n: nat)
    ensures Power(gamma, 0) == 1.0 && Power(gamma, n + 1) == gamma * Power(gamma, n)
  {
  }

  lemma LessonsAreDiscounted(gamma: real, learned: seq<Experience>)
    ensures Discounted(gamma, Lessons(gamma, learned), learned)
  {
    hide Power;
    var lessons, n := Lessons(gamma, learned), |learned|;
    NextPower(gamma, 0);
    assert n > 0 ==> lessons[n - 1] == Lesson(learned[n - 1], Power(gamma, n - (n - 1) - 1));
    forall i, j | 0 <= i < j < |lessons| && j == i + 1 ensures lessons[i].target == gamma * lessons[j].target {
      NextPower(gamma, n - j - 1);
      assert n - i - 1 == (n - j - 1) + 1;
    }
  }

  /** One more experience: all earlier targets shrink by gamma, and the new one is worth one. */
  lemma OneMoreExperience(gamma: real, learned: seq<Experience>, e: Experience)
    ensures var before, after := Lessons(gamma, learned), Lessons(gamma, learned + [e]);
      && |after| == |before| + 1
      && after[|before|] == Lesson(e, 1.0)
      && forall i :: 0 <= i < |before| ==>
           after[i].experience == before[i].experience && after[i].target == gamma * before[i].target
  {
    hide Power;
    var before, after, n := Lessons(gamma, learned), Lessons(gamma, learned + [e]), |learned|;
    NextPower(gamma, 0);
    assert after[n] == Lesson(e, Power(gamma, (n + 1) - n - 1));
    forall i | 0 <= i < |before|
      ensures after[i].experience == before[i].experience && after[i].target == gamma * before[i].target
    {
      NextPower(gamma, n - i - 1);
      assert (n + 1) - i - 1 == (n - i - 1) + 1;
    }
  }

  ghost predicate NoRepeat(learned: seq<Experience>) {
    forall i, j :: 0 <= i < j < |learned| ==> learned[i] != learned[j]
  }

  /** The experience occurs at this place of the episode only. */
  ghost predicate Once(learned: seq<Experience>, i: nat)
    requires i < |learned|
  {
    forall j :: 0 <= j < |learned| && j != i ==> learned[j] != learned[i]
  }

  /** One more visit, one more target in the mean. */
  predicate Accrues(before: QStat, after: QStat, target: real) {
    && after.visits == before.visits + 1
    && after.value * after.visits as real == before.value * before.visits as real + target
  }

  lemma {:induction false} OccurrencesSplit(a: seq<Lesson>, b: seq<Lesson>, e: Experience)
    ensures Occurrences(a + b, e) == Occurrences(a, e) + Occurrences(b, e)
    ensures TargetSum(a + b, e) == TargetSum(a, e) + TargetSum(b, e)
  {
    if b == [] {
      assert a + b == a;
    } else {
      var n := |b| - 1;
      OccurrencesSplit(a, b[..n], e);
      assert a + b == (a + b[..n]) + [b[n]];
      NextLesson(a + b[..n], b[n], e);
    }
  }

  lemma {:induction false} NeverTaught(lessons: seq<Lesson>, e: Experience)
    requires forall i :: 0 <= i < |lessons| ==> lessons[i].experience != e
    ensures Occurrences(lessons, e) == 0 && TargetSum(lessons, e) == 0.0
  {
    if lessons != [] { NeverTaught(lessons[..|lessons| - 1], e); }
  }

  lemma TaughtOnce(lessons: seq<Lesson>, k: nat)
    requires k < |lessons|
    requires forall j :: 0 <= j < |lessons| && j != k ==> lessons[j].experience != lessons[k].experience
    ensures Occurrences(lessons, lessons[k].experience) == 1
    ensures TargetSum(lessons, lessons[k].experience) == lessons[k].target
  {
    var e, next := lessons[k].experience, k + 1;
    assert lessons == (lessons[..k] + [lessons[k]]) + lessons[next..];
    OccurrencesSplit(lessons[..k] + [lessons[k]], lessons[next..], e);
    NextLesson(lessons[..k], lessons[k], e);
    NeverTaught(lessons[..k], e);
    NeverTaught(lessons[next..], e);
  }

  lemma MeanTimesCount(stat: QStat, n: nat, sum: real)
    requires MeanOf(stat, n, sum)
    ensures stat.value * stat.visits as real == sum
  {
  }

  /** An experience that an episode holds once gets its one target; others are left alone. */
  lemma EpisodeAccrues(q: Table, q': Table, history: seq<Lesson>, lessons: seq<Lesson>, learned: seq<Experience>,
                       gamma: real)
    requires HoldsMeans(q, history) && HoldsMeans(q', history + lessons) && Discounted(gamma, lessons, learned)
    ensures forall i :: 0 <= i < |learned| && Once(learned, i) ==>
      Accrues(Stat(q, learned[i].state, learned[i].intent), Stat(q', learned[i].state, learned[i].intent),
              lessons[i].target)
    ensures forall e: Experience :: e !in learned ==> Stat(q', e.state, e.intent) == Stat(q, e.state, e.intent)
  {
    hide HoldsMeans, Occurrences, TargetSum, Stat;
    forall e: Experience
      ensures
        var before, after := Stat(q, e.state, e.intent), Stat(q', e.state, e.intent);
        && MeanOf(before, Occurrences(history, e), TargetSum(history, e))
        && MeanOf(after, Occurrences(history, e) + Occurrences(lessons, e),
                  TargetSum(history, e) + TargetSum(lessons, e))
    {
      MeanAt(q, history, e);
      MeanAt(q', history + lessons, e);
      OccurrencesSplit(history, lessons, e);
    }
    forall i | 0 <= i < |learned| && Once(learned, i)
      ensures Accrues(Stat(q, learned[i].state, learned[i].intent), Stat(q', learned[i].state, learned[i].intent),
                      lessons[i].target)
    {
      var e := learned[i];
      TaughtOnce(lessons, i);
      MeanTimesCount(Stat(q, e.state, e.intent), Occurrences(history, e), TargetSum(history, e));
      MeanTimesCount(Stat(q', e.state, e.intent), Occurrences(history, e) + Occurrences(lessons, e),
                     TargetSum(history, e) + TargetSum(lessons, e));
    }
    forall e: Experience | e !in learned ensures Stat(q', e.state, e.intent) == Stat(q, e.state, e.intent) {
      NeverTaught(lessons, e);
    }
  }

  lemma MeanAt(q: Table, history: seq<Lesson>, e: Experience)
    requires HoldsMeans(q, history)
    ensures MeanOf(Stat(q, e.state, e.intent), Occurrences(history, e), TargetSum(history, e))
  {
  }

  /** What a first episode leaves: the last choice has value one, each earlier one gamma times the
      value of the next, and nothing else has a value. */
  ghost predicate Credited(q: Table, gamma: real, learned: seq<Experience>) {
    && (forall i :: 0 <= i < |learned| ==> Stat(q, learned[i].state, learned[i].intent).visits == 1)
    && (learned != [] ==> Stat(q, learned[|learned| - 1].state, learned[|learned| - 1].intent).value == 1.0)
    && (forall i, j :: 0 <= i < j < |learned| && j == i + 1 ==>
          Shrunk(gamma, Stat(q, learned[i].state, learned[i].intent).value,
                 Stat(q, learned[j].state, learned[j].intent).value))
    && (forall e: Experience :: e !in learned ==> Stat(q, e.state, e.intent) == QStat(0, 0.0))
  }

  /** A fresh learner taught one episode of distinct experiences. */
  lemma FirstEpisodeCredits(q: Table, gamma: real, learned: seq<Experience>)
    requires HoldsMeans(q, Lessons(gamma, learned)) && NoRepeat(learned)
    ensures Credited(q, gamma, learned)
  {
    hide HoldsMeans, Lessons, Stat, Accrues, Once, Discounted, Credited;
    var lessons := Lessons(gamma, learned);
    LessonsAreDiscounted(gamma, learned);
    FreshTable();
    assert [] + lessons == lessons;
    EpisodeAccrues(map[], q, [], lessons, learned, gamma);
    LessonCount(gamma, learned);
    forall i | 0 <= i < |learned|
      ensures Stat(q, learned[i].state, learned[i].intent) == QStat(1, lessons[i].target)
    {
      OnceIn(learned, i);
      FirstVisit(Stat(map[], learned[i].state, learned[i].intent), Stat(q, learned[i].state, learned[i].intent),
                 lessons[i].target);
    }
    CreditedByTargets(q, gamma, lessons, learned);
  }

  lemma LessonCount(gamma: real, learned: seq<Experience>)
    ensures |Lessons(gamma, learned)| == |learned|
  {
  }

  lemma OnceIn(learned: seq<Experience>, i: nat)
    requires NoRepeat(learned) && i < |learned|
    ensures Once(learned, i)
  {
  }

  lemma CreditedByTargets(q: Table, gamma: real, lessons: seq<Lesson>, learned: seq<Experience>)
    requires Discounted(gamma, lessons, learned)
    requires forall i :: 0 <= i < |learned| ==>
      Stat(q, learned[i].state, learned[i].intent) == QStat(1, lessons[i].target)
    requires forall e: Experience :: e !in learned ==> Stat(q, e.state, e.intent) == QStat(0, 0.0)
    ensures Credited(q, gamma, learned)
  {
    hide Stat, Shrunk;
  }

  lemma FirstVisit(before: QStat, after: QStat, target: real)
    requires before == QStat(0, 0.0) && Accrues(before, after, target)
    ensures after == QStat(1, target)
  {
  }

  lemma FreshTable()
    ensures HoldsMeans(map[], [])
    ensures forall e: Experience :: Stat(map[], e.state, e.intent) == QStat(0, 0.0)
  {
  }

  // ----- Deciding -----

  /** The intents a state's row offers for a task. */
  function Offered(row: Row, allowed: seq<string>): set<Intent> {
    set i | i in row && IntentDecision(i, allowed).Some? && row[i].visits > 0 && row[i].value > 0.0
  }

  const TIE_MARGIN := 0.000000000001

  /** The offered intents whose value is the best one up to the margin. */
  function Best(row: Row, offered: set<Intent>): set<Intent>
    requires offered <= row.Keys
  {
    set i | i in offered && forall j :: j in offered ==> row[j].value - row[i].value <= TIE_MARGIN
  }

  function RowOf(q: Table, state: SemanticState): Row {
    if state in q then q[state] else map[]
  }

  /** What the policy decides is determined by the best intents alone. */
  ghost predicate Decides(q: Table, state: SemanticState, allowed: seq<string>, d: PolicyDecision) {
    var row := RowOf(q, state);
    var offered := Offered(row, allowed);
    var best := Best(row, offered);
    if offered == {} then d == PolicyDecision(DeferNoSupport, None)
    else if |best| != 1 then d == PolicyDecision(DeferTie, None)
    else exists i :: best == {i} && IntentDecision(i, allowed) == Some(d)
  }

  lemma SingletonOf<T>(s: set<T>, x: T)
    requires |s| == 1 && x in s
    ensures s == {x}
  {
    assert |s - {x}| == 0;
    assert s == {x} + (s - {x});
  }

  // ----- The learner -----

  datatype LearningReceipt = LearningReceipt(taskId: string, ledgerRoot: string, updatedPairs: nat)

  /** The reasons for which `update` raises. */
  ghost predicate Teachable(h: Hasher, result: EpisodeResult) {
    && result.split == "train" && result.Accepted()
    && result.admission.semanticValid && result.admission.provenanceValid
    && result.admission.trajectoryValid && result.admission.integrityValid
    && Ledger.Accepts(h, result.Document())
    && Taught(result) != []
  }

  lemma RootPresent(h: Hasher, result: EpisodeResult)
    requires Ledger.Accepts(h, result.Document())
    ensures result.ledgerRoot.Some?
  {
    hide Ledger.Complete;
  }

  class ProofGatedAdaptivePolicy {
    const h: Hasher
    const gamma: real
    var q: Table
    var receipts: seq<LearningReceipt>
    /** Every target averaged in so far, in order. */
    ghost var history: seq<Lesson>

    ghost predicate Valid() reads this {
      0.0 < gamma <= 1.0 && HoldsMeans(q, history) && Credits(history)
    }

    constructor (h: Hasher, gamma: real)
      requires 0.0 < gamma <= 1.0
      ensures Valid() && q == map[] && history == [] && receipts == [] && this.gamma == gamma && this.h == h
    {
      this.h, this.gamma := h, gamma;
      q, receipts, history := map[], [], [];
    }

    function QValue(state: SemanticState, intent: Intent): real reads this {
      Stat(q, state, intent).value
    }

    /** `update`: all or nothing. The last check of the code, on a missing root, comes after the
        values have changed; an accepted ledger has a root, so it never fails. */
    method Update(result: EpisodeResult) returns (raised: bool)
      requires Valid()
      modifies this
      ensures Valid()
      ensures raised <==> !Teachable(h, result)
      ensures raised ==> q == old(q) && history == old(history) && receipts == old(receipts)
      ensures !raised ==>
        && history == old(history) + Lessons(gamma, Taught(result))
        && result.ledgerRoot.Some?
        && receipts == old(receipts) + [LearningReceipt(result.taskId, result.ledgerRoot.value, |Taught(result)|)]
      ensures !raised ==>
        var learned, lessons := Taught(result), history[|old(history)|..];
        && Discounted(gamma, lessons, learned)
        && (forall i :: 0 <= i < |learned| && Once(learned, i) ==>
              Accrues(Stat(old(q), learned[i].state, learned[i].intent), Stat(q, learned[i].state, learned[i].intent),
                      lessons[i].target))
        && (forall e: Experience :: e !in learned ==> Stat(q, e.state, e.intent) == Stat(old(q), e.state, e.intent))
      ensures !raised && old(history) == [] && NoRepeat(Taught(result)) ==> Credited(q, gamma, Taught(result))
    {
      hide HoldsMeans, Averaged, Ledger.Accepts, Taught, Power, Credits, Stored, Credited, NoRepeat, Once, Accrues;
      if result.split != "train" || !result.Accepted() { return true; }
      if !(result.admission.semanticValid && result.admission.provenanceValid
           && result.admission.trajectoryValid && result.admission.integrityValid) { return true; }
      var valid := Ledger.VerifyLedgerDocument(h, result.Document());
      if !valid { return true; }
      var decisions := DecisionExperiences(result);
      if decisions == [] { return true; }
      var updated, count := 0, |decisions|;
      ghost var lessons := Lessons(gamma, decisions);
      for index := 0 to count
        invariant HoldsMeans(q, history) && Credits(history)
        invariant history == old(history) + lessons[..index]
        invariant updated == index && receipts == old(receipts)
      {
        var experience := decisions[index];
        var target := Power(gamma, count - index - 1);
        assert lessons[index] == Lesson(experience, target);
        LessonKeepsMeans(q, history, lessons[index]);
        PowerCredit(gamma, count - index - 1);
        CreditAdded(history, lessons[index]);
        q := Stored(q, experience.state, experience.intent,
                    Averaged(Stat(q, experience.state, experience.intent), target));
        history := history + [lessons[index]];
        updated := updated + 1;
      }
      assert lessons[..count] == lessons;
      LessonsAreDiscounted(gamma, decisions);
      EpisodeAccrues(old(q), q, old(history), lessons, decisions, gamma);
      assert history[|old(history)|..] == lessons;
      if old(history) == [] && NoRepeat(decisions) {
        assert [] + lessons == lessons;
        FirstEpisodeCredits(q, gamma, decisions);
      }
      RootPresent(h, result);
      receipts := receipts + [LearningReceipt(result.taskId, result.ledgerRoot.value, updated)];
      return false;
    }

    /** `decide` */
    method Decide(view: AgentTaskView, observations: seq<Observation>) returns (decision: PolicyDecision)
      ensures Decides(q, Encode(view.domain, ToDicts(observations)), view.allowedActions, decision)
    {
      hide Encode, IntentDecision;
      var state := EncodeState(view.domain, ToDicts(observations));
      var row := RowOf(q, state);
      var candidates := Offered(row, view.allowedActions);
      if candidates == {} { return PolicyDecision(DeferNoSupport, None); }
      var bestValue := Highest(row, candidates);
      var best := set i | i in candidates && bestValue - row[i].value <= TIE_MARGIN;
      assert best == Best(row, candidates);
      if |best| != 1 { return PolicyDecision(DeferTie, None); }
      var intent :| intent in best;
      SingletonOf(best, intent);
      return IntentDecision(intent, view.allowedActions).value;
    }
  }

  lemma CreditAdded(history: seq<Lesson>, lesson: Lesson)
    requires Credits(history) && 0.0 < lesson.target <= 1.0
    ensures Credits(history + [lesson])
  {
  }

  /** `max(...)` over the candidates. */
  method Highest(row: Row, candidates: set<Intent>) returns (best: real)
    requires candidates != {} && candidates <= row.Keys
    ensures exists i :: i in candidates && row[i].value == best
    ensures forall i :: i in candidates ==> row[i].value <= best
  {
    var first :| first in candidates;
    best := row[first].value;
    ghost var winner := first;
    var remaining := candidates - {first};
    while remaining != {}
      invariant remaining <= candidates
      invariant winner in candidates && row[winner].value == best
      invariant forall i :: i in candidates - remaining ==> row[i].value <= best
    {
      var i :| i in remaining;
      if row[i].value > best { best, winner := row[i].value, i; }
      remaining := remaining - {i};
    }
  }
}
