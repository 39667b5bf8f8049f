/** What the learner takes from a gym's own episodes: the situations it learns from are those the
    policy saw, and learning once from a proof-admitted episode reproduces its choices. */
module LearningLaws {
  import opened Json
  import opened HashChain
  import Ledger
  import opened Evidence
  import opened Episode
  import opened Replay
  import opened Semantics
  import opened AdaptivePolicy
  import opened NegativeExperience
  import EpisodeLaws

  // ----- Replay -----

  /** The experience in a choice as the policy faced it. */
  function Lived(domain: string, c: Choice): seq<Experience> {
    ExperienceIn(domain, Situation(ToDicts(c.observations), Obj(DecisionJson(c.decision)), ""))
  }

  function AllLived(domain: string, choices: seq<Choice>): seq<Experience> {
    if choices == [] then [] else AllLived(domain, choices[..|choices| - 1]) + Lived(domain, choices[|choices| - 1])
  }

  lemma {:induction false} FaithfulExperiences(domain: string, situations: seq<Situation>, choices: seq<Choice>)
    requires Faithful(situations, choices)
    ensures Experiences(domain, situations) == AllLived(domain, choices)
  {
    hide Encode, DecisionIntent, ToDicts, DecisionJson;
    if choices != [] {
      var n := |choices| - 1;
      assert Faithful(situations[..n], choices[..n]);
      FaithfulExperiences(domain, situations[..n], choices[..n]);
      assert Tells(situations[n], choices[n]);
    }
  }

  /** Learning from the ledger of a run is learning from what its policy saw and decided. */
  lemma TaughtIsLived(task: PublicTask, w: World, bundlePasses: bool, hasSink: bool)
    ensures Taught(Receipt(task, w, Final(task, w), bundlePasses, hasSink))
         == AllLived(task.domain, Choices(Final(task, w).calls))
  {
    hide Faithful, Situations, Choices, Final, Experiences, AllLived, WithReceipt, Ledger.Accepts, BundleBinds,
      Admissible;
    ReplayIsFaithful(task, w, bundlePasses, hasSink);
    var r := Receipt(task, w, Final(task, w), bundlePasses, hasSink);
    FaithfulExperiences(task.domain, Situations(r.ledgerEntries), Choices(Final(task, w).calls));
  }

  // ----- Decisions of an episode that ran to its end were all acted on -----

  predicate WithinTask(task: PublicTask, d: PolicyDecision) {
    && (d.kind.Select? ==> d.action.Some? && d.action.value in task.allowedActions)
    && (d.kind.CallGenerative? ==> CALL_ACTION in task.allowedActions)
  }

  ghost predicate AllActedOn(task: PublicTask, s: State) {
    (s.end.None? || s.end.value.reason.EnvironmentDone?) ==>
      forall i :: 0 <= i < |Choices(s.calls)| ==> WithinTask(task, Choices(s.calls)[i].decision)
  }

  lemma TurnActedOn(task: PublicTask, w: World, s: State)
    requires s.end.None? && AllActedOn(task, s)
    ensures AllActedOn(task, TakeTurn(task, w, s))
  {
    hide Append, DecisionJson, ToDicts, Choices, OverCost, KindText, ChoiceIn;
    if s.steps < task.budget.maxSteps {
      var decision, asked := w.policy(s.steps), Ask(w, s);
      NextCall(s.calls, Decide(s.observations, s.trajectory, decision));
      ChoicesIn(s.observations, s.trajectory, decision);
      if Rule(task, w, decision, |s.candidates|).Act? && decision.kind.CallGenerative? {
        var candidate := w.generator.value(|s.candidates|);
        NextCall(asked.calls, Generate(s.observations, |s.candidates| + 1, candidate));
        GeneratesNoChoice(s.observations, |s.candidates| + 1, candidate);
      }
    }
  }

  lemma ChoicesIn(observations: seq<Observation>, trajectory: seq<string>, decision: PolicyDecision)
    ensures ChoiceIn(Decide(observations, trajectory, decision)) == [Choice(observations, decision)]
  {
  }

  lemma GeneratesNoChoice(observations: seq<Observation>, attempt: nat, candidate: string)
    ensures ChoiceIn(Generate(observations, attempt, candidate)) == []
  {
  }

  lemma {:induction false} PlayActedOn(task: PublicTask, w: World, s: State)
    requires AllActedOn(task, s)
    ensures AllActedOn(task, Play(task, w, s))
    decreases Fuel(task, s)
  {
    hide AllActedOn, TakeTurn;
    if s.end.None? {
      TurnAdvances(task, w, s);
      TurnActedOn(task, w, s);
      PlayActedOn(task, w, TakeTurn(task, w, s));
    }
  }

  lemma FinalActedOn(task: PublicTask, w: World)
    ensures AllActedOn(task, Final(task, w))
  {
    hide Play, TakeTurn, Append;
    assert Choices([]) == [];
    PlayActedOn(task, w, Begin(task, w));
  }

  // ----- Imitation -----

  /** No state was left by two different intents. */
  ghost predicate OneIntentPerState(learned: seq<Experience>) {
    forall i, j :: 0 <= i < |learned| && 0 <= j < |learned| && learned[i].state == learned[j].state ==>
      learned[i].intent == learned[j].intent
  }

  lemma {:induction false} OccursInLessons(history: seq<Lesson>, e: Experience)
    ensures Occurrences(history, e) > 0 <==> exists i :: 0 <= i < |history| && history[i].experience == e
  {
    if history != [] {
      var n := |history| - 1;
      OccursInLessons(history[..n], e);
      if Occurrences(history, e) > 0 && history[n].experience != e {
        var i :| 0 <= i < n && history[..n][i].experience == e;
        assert history[i].experience == e;
      }
      if i :| 0 <= i < |history| && history[i].experience == e {
        if i < n { assert history[..n][i].experience == e; }
      }
    }
  }

  lemma {:induction false} LivedIsIn(domain: string, choices: seq<Choice>, k: nat)
    requires k < |choices| && Lived(domain, choices[k]) != []
    ensures Lived(domain, choices[k])[0] in AllLived(domain, choices)
  {
    hide Encode, DecisionIntent, ToDicts, DecisionJson;
    var n := |choices| - 1;
    if k < n {
      LivedIsIn(domain, choices[..n], k);
      assert choices[..n][k] == choices[k];
    } else {
      assert Lived(domain, choices[n])[0] in Lived(domain, choices[n]);
    }
  }

  /** With one lesson per state, what is offered is the lesson's intent and nothing else. */
  lemma OnlyTheLesson(q: Table, gamma: real, learned: seq<Experience>, e: Experience, allowed: seq<string>)
    requires 0.0 < gamma <= 1.0
    requires HoldsMeans(q, Lessons(gamma, learned)) && OneIntentPerState(learned) && e in learned
    requires IntentDecision(e.intent, allowed).Some?
    ensures Offered(RowOf(q, e.state), allowed) == {e.intent}
  {
    hide IntentDecision, Occurrences, TargetSum, Power;
    var history, row := Lessons(gamma, learned), RowOf(q, e.state);
    forall i | 0 <= i < |history| ensures 0.0 < history[i].target <= 1.0 { PowerCredit(gamma, |learned| - i - 1); }
    forall j ensures Stat(q, e.state, j).visits > 0 <==> j == e.intent {
      var here := Experience(e.state, j);
      OccursInLessons(history, here);
      assert MeanOf(Stat(q, e.state, j), Occurrences(history, here), TargetSum(history, here));
      var k :| 0 <= k < |learned| && learned[k] == e;
      assert history[k].experience == e;
      if Occurrences(history, here) > 0 {
        var i :| 0 <= i < |history| && history[i].experience == here;
        assert learned[i] == here;
      }
    }
    ValuesAreCredits(q, history, e.state, e.intent);
    assert Stat(q, e.state, e.intent).visits > 0;
    assert e.intent in row && row[e.intent] == Stat(q, e.state, e.intent);
    forall j | j in row ensures row[j] == Stat(q, e.state, j) { }
  }

  /** A fresh learner taught once by an admitted episode in which no state was left by two
      intents: wherever the episode's policy made a learnable choice, the learner, facing the same
      observations of the same task, makes a choice of the same canonical intent. */
  lemma LearnerImitates(task: PublicTask, w: World, bundlePasses: bool, hasSink: bool, q: Table, gamma: real, k: nat,
                        d: PolicyDecision)
    requires var r := Receipt(task, w, Final(task, w), bundlePasses, hasSink);
      && r.Accepted()
      && HoldsMeans(q, Lessons(gamma, Taught(r)))
      && OneIntentPerState(Taught(r))
    requires 0.0 < gamma <= 1.0
    requires k < |Choices(Final(task, w).calls)|
    requires Lived(task.domain, Choices(Final(task, w).calls)[k]) != []
    requires Decides(q, Encode(task.domain, ToDicts(Choices(Final(task, w).calls)[k].observations)),
                     task.AgentView().allowedActions, d)
    ensures DecisionIntent(Obj(DecisionJson(d)))
         == DecisionIntent(Obj(DecisionJson(Choices(Final(task, w).calls)[k].decision)))
  {
    hide HoldsMeans, OneIntentPerState, Final, Choices, AllLived, Encode, DecisionIntent, DecisionJson, ToDicts,
      Lessons, Taught, Offered, IntentDecision, Ledger.Accepts, BundleBinds, WithReceipt, Admissible;
    var c := Choices(Final(task, w).calls)[k];
    TaughtIsLived(task, w, bundlePasses, hasSink);
    LivedIsIn(task.domain, Choices(Final(task, w).calls), k);
    var e := Lived(task.domain, c)[0];
    FinalActedOn(task, w);
    assert WithinTask(task, c.decision);
    AllowedIntentSupported(c.decision, task.allowedActions);
    OnlyTheLesson(q, gamma, Taught(Receipt(task, w, Final(task, w), bundlePasses, hasSink)), e, task.allowedActions);
    BestOfOne(RowOf(q, e.state), e.intent, task.allowedActions);
    AdapterRoundTrip(e.intent, task.allowedActions);
  }

  lemma BestOfOne(row: Row, intent: Intent, allowed: seq<string>)
    requires Offered(row, allowed) == {intent}
    ensures Best(row, Offered(row, allowed)) == {intent} && intent in row
  {
    hide IntentDecision;
    assert intent in Offered(row, allowed);
  }

  // ----- Deciding by what was taught -----

  /** The intent was taught in this state and can be acted on in this task. */
  ghost predicate KnownHere(history: seq<Lesson>, state: SemanticState, allowed: seq<string>, intent: Intent) {
    && IntentDecision(intent, allowed).Some?
    && exists k :: 0 <= k < |history| && history[k].experience == Experience(state, intent)
  }

  /** Its value leads all others by more than the margin. */
  ghost predicate Leads(q: Table, history: seq<Lesson>, state: SemanticState, allowed: seq<string>, intent: Intent) {
    && KnownHere(history, state, allowed, intent)
    && forall j :: KnownHere(history, state, allowed, j) && j != intent ==>
         Stat(q, state, intent).value - Stat(q, state, j).value > TIE_MARGIN
  }

  lemma OfferedIsKnown(q: Table, history: seq<Lesson>, state: SemanticState, allowed: seq<string>, intent: Intent)
    requires HoldsMeans(q, history) && Credits(history)
    ensures intent in Offered(RowOf(q, state), allowed) <==> KnownHere(history, state, allowed, intent)
    ensures intent in RowOf(q, state) ==> RowOf(q, state)[intent] == Stat(q, state, intent)
  {
    hide IntentDecision, Occurrences, TargetSum;
    OccursInLessons(history, Experience(state, intent));
    ValuesAreCredits(q, history, state, intent);
    MeanAt(q, history, Experience(state, intent));
  }

  lemma OfferedInRow(row: Row, allowed: seq<string>)
    ensures Offered(row, allowed) <= row.Keys
  {
    hide IntentDecision;
  }

  lemma HighestOf(row: Row, offered: set<Intent>) returns (top: Intent)
    requires offered != {} && offered <= row.Keys
    ensures top in offered && forall j :: j in offered ==> row[j].value <= row[top].value
  {
    top :| top in offered;
    var rest := offered - {top};
    while rest != {}
      invariant rest <= offered && top in offered
      invariant forall j :: j in offered - rest ==> row[j].value <= row[top].value
    {
      var j :| j in rest;
      if row[j].value > row[top].value { top := j; }
      rest := rest - {j};
    }
  }

  /** A taught learner acts on the one intent that leads; it has no support exactly when nothing that
      the task allows was taught in this state, and a tie when nothing leads. */
  lemma DecisionIsExact(q: Table, history: seq<Lesson>, state: SemanticState, allowed: seq<string>, d: PolicyDecision)
    requires HoldsMeans(q, history) && Credits(history) && Decides(q, state, allowed, d)
    ensures (forall i :: !KnownHere(history, state, allowed, i)) ==> d == PolicyDecision(DeferNoSupport, None)
    ensures forall i :: Leads(q, history, state, allowed, i) ==> Some(d) == IntentDecision(i, allowed)
    ensures (exists i :: KnownHere(history, state, allowed, i)) && (forall i :: !Leads(q, history, state, allowed, i))
      ==> d == PolicyDecision(DeferTie, None)
  {
    hide IntentDecision, KnownHere, Credits, HoldsMeans, Stat, Offered, RowOf;
    var row := RowOf(q, state);
    var offered := Offered(row, allowed);
    forall i ensures i in offered <==> KnownHere(history, state, allowed, i)
      ensures i in row ==> row[i] == Stat(q, state, i)
    {
      OfferedIsKnown(q, history, state, allowed, i);
    }
    if offered != {} {
      OfferedInRow(row, allowed);
      var top := HighestOf(row, offered);
      var best := Best(row, offered);
      assert top in best;
      if |best| == 1 {
        SingletonOf(best, top);
        forall j | j in offered && j != top ensures row[top].value - row[j].value > TIE_MARGIN {
          assert j !in best;
        }
        assert Leads(q, history, state, allowed, top);
      }
      forall i | Leads(q, history, state, allowed, i) ensures best == {i} {
        forall j | j in best ensures j == i { }
        assert i == top;
      }
    }
  }

  // ----- What the learners accept from a gym -----

  /** An admitted train episode of the gym is refused by the learner for one reason only: there
      was nothing to learn from. Its ledger never is. */
  lemma AdmittedEpisodesTeach(task: PublicTask, w: World, bundlePasses: bool, hasSink: bool)
    ensures var r := Receipt(task, w, Final(task, w), bundlePasses, hasSink);
      r.Accepted() && r.split == "train" ==>
        (Teachable(w.h, r) <==> AllLived(task.domain, Choices(Final(task, w).calls)) != [])
  {
    hide Final, Ledger.Accepts, BundleBinds, WithReceipt, Admissible, AllLived, Choices, Taught;
    EpisodeLaws.EveryRunVerifies(task, w, bundlePasses, hasSink);
    TaughtIsLived(task, w, bundlePasses, hasSink);
  }

  /** A rejected train episode of the gym is recorded exactly when its environment came to its end,
      only the verdict went against it, and its last choice was made in a known state with a known
      intent; the recorded pair is that choice. */
  lemma RejectedEpisodesAreBlamed(task: PublicTask, w: World, bundlePasses: bool, hasSink: bool)
    requires !Receipt(task, w, Final(task, w), bundlePasses, hasSink).Accepted()
    ensures var r := Receipt(task, w, Final(task, w), bundlePasses, hasSink);
      var choices := Choices(Final(task, w).calls);
      && (Recordable(w.h, r) <==>
            && r.terminalReason.EnvironmentDone? && !w.verdict && Admissible(r.observations) && bundlePasses
            && choices != [] && Lived(task.domain, choices[|choices| - 1]) != [])
      && (Recordable(w.h, r) ==>
            var blame := Blamed(task.domain, r.ledgerEntries).value;
            Lived(task.domain, choices[|choices| - 1]) == [Experience(blame.state, blame.intent.value)])
  {
    hide Final, Ledger.Accepts, BundleBinds, WithReceipt, Admissible, Choices, Encode, DecisionIntent, Blamed, ToDicts,
      DecisionJson;
    EpisodeLaws.EveryRunVerifies(task, w, bundlePasses, hasSink);
    if Final(task, w).end.value.reason.EnvironmentDone? { BlameIsTheLastChoice(task, w, bundlePasses, hasSink); }
  }
}
