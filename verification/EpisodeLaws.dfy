/** What holds of every run of the gym, whatever the policy, the generator and the host answer. */
module EpisodeLaws {
  import opened Json
  import opened HashChain
  import Ledger
  import opened Evidence
  import opened Episode

  // ----- The ledger of every run verifies -----

  predicate Unresolved(s: State) {
    s.end.Some? && s.end.value.cause.Some?
  }

  ghost predicate Recorded(w: World, s: State) {
    && Ledger.Recording(w.h, s.entries, ToDicts(s.observations), Unresolved(s))
    && (Unresolved(s) ==> s.end.value.cause.value == Root(s.entries))
  }

  lemma BeginRecorded(task: PublicTask, w: World)
    ensures Recorded(w, Begin(task, w))
  {
    hide Ledger.Recording, Ledger.StartPayload, Ledger.BatchPayload, ViewJson, TaskJson, Append;
    var viewSha, hostSha := w.h(ViewJson(task.AgentView())), w.h(TaskJson(task));
    Ledger.StartRecording(w.h, viewSha, hostSha);
    var start := Append(w.h, [], EPISODE_START, Ledger.StartPayload(viewSha, hostSha));
    Ledger.BatchRecording(w.h, start, [], ToDicts(w.reset), RESET);
    assert [] + ToDicts(w.reset) == ToDicts(w.reset);
  }

  lemma AnswerRecorded(task: PublicTask, w: World, s: State, action: string, reply: StepReply,
                       candidateSha: Option<string>)
    requires s.end.None?
    requires Ledger.Recording(w.h, s.entries, ToDicts(s.observations), true)
    ensures Recorded(w, Answer(task, w, s, action, reply, candidateSha))
  {
    hide Ledger.Recording, Ledger.ResultPayload, Append, ToDicts;
    if reply.Outcome? {
      Ledger.ResultRecording(w.h, s.entries, ToDicts(s.observations), action, ToDicts(reply.observations),
                             reply.done, reply.acceptedCandidate, candidateSha);
      ToDictsAppend(s.observations, reply.observations);
    }
  }

  lemma TurnRecorded(task: PublicTask, w: World, s: State)
    requires s.end.None? && Recorded(w, s)
    ensures Recorded(w, TakeTurn(task, w, s))
  {
    hide Ledger.Recording, Append, Answer, Root, Ledger.DecisionPayload, DecisionJson;
    if s.steps < task.budget.maxSteps {
      var decision, asked := w.policy(s.steps), Ask(w, s);
      Ledger.DecisionRecording(w.h, s.entries, ToDicts(s.observations), DecisionJson(decision));
      var ruling := Rule(task, w, decision, |s.candidates|);
      if ruling.Act? {
        var drafted := if decision.kind.CallGenerative? then Draft(w, asked) else asked;
        AnswerRecorded(task, w, drafted, ruling.action, w.host(s.steps), CandidateSha(w, drafted, decision));
      }
    }
  }

  lemma {:induction false} PlayRecorded(task: PublicTask, w: World, s: State)
    requires Recorded(w, s)
    ensures Recorded(w, Play(task, w, s))
    decreases Fuel(task, s)
  {
    hide Recorded, TakeTurn;
    if s.end.None? {
      TurnAdvances(task, w, s);
      TurnRecorded(task, w, s);
      PlayRecorded(task, w, TakeTurn(task, w, s));
    }
  }

  lemma TurnExtends(task: PublicTask, w: World, s: State)
    requires s.end.None?
    ensures s.entries <= TakeTurn(task, w, s).entries
  {
    hide Ledger.DecisionPayload, Ledger.ResultPayload, DecisionJson, ToDicts, NextEntry, Rule;
  }

  lemma {:induction false} PlayExtends(task: PublicTask, w: World, s: State)
    ensures s.entries <= Play(task, w, s).entries
    decreases Fuel(task, s)
  {
    hide TakeTurn;
    if s.end.None? {
      TurnAdvances(task, w, s);
      TurnExtends(task, w, s);
      PlayExtends(task, w, TakeTurn(task, w, s));
    }
  }

  lemma StartEntry(task: PublicTask, w: World)
    ensures var s := Final(task, w);
      && s.entries != []
      && s.entries[0].payload
         == Ledger.StartPayload(w.h(ViewJson(task.AgentView())), w.h(TaskJson(task)))
  {
    hide TakeTurn, ViewJson, TaskJson, Ledger.StartPayload, Ledger.BatchPayload, Play;
    PlayExtends(task, w, Begin(task, w));
    var first := Begin(task, w).entries;
    assert first[0] == Final(task, w).entries[0];
  }

  lemma ClosedBinds(task: PublicTask, w: World, s: State, semanticValid: bool, provenanceValid: bool)
    requires s.end.Some? && Recorded(w, s)
    requires s.entries[0].payload == Ledger.StartPayload(w.h(ViewJson(task.AgentView())), w.h(TaskJson(task)))
    ensures BundleBinds(w.h, task, s.observations, semanticValid, provenanceValid,
                        Ledger.Document(WithReceipt(w, s, semanticValid, provenanceValid)))
  {
    hide Ledger.Recording, Ledger.Accepts, ViewJson, TaskJson, ToDicts, NextEntry, Append, ToRaw,
      Ledger.TerminalPayload, PayloadOf, Ledger.Document, Ledger.StartPayload, ReasonWord;
    var reason, cause := s.end.value.reason, s.end.value.cause;
    assert s.entries != [] by { Ledger.RecordingNonEmpty(w.h, s.entries, ToDicts(s.observations), Unresolved(s)); }
    Ledger.TerminalAccepted(w.h, s.entries, ToDicts(s.observations), Unresolved(s), ReasonWord(reason), semanticValid,
                            provenanceValid, IsBudgetReason(reason));
    var entries := WithReceipt(w, s, semanticValid, provenanceValid);
    assert cause == if Unresolved(s) then Some(Root(s.entries)) else None;
    Ledger.DocumentEntries(entries);
    Ledger.StartSays(w.h(ViewJson(task.AgentView())), w.h(TaskJson(task)));
    Ledger.TerminalSays(w.h, ReasonWord(reason), semanticValid, provenanceValid, IsBudgetReason(reason),
                        ToDicts(s.observations), cause);
    Ledger.ClosedEnds(w.h, s.entries, Ledger.TerminalPayload(w.h, ReasonWord(reason), semanticValid, provenanceValid,
                                     IsBudgetReason(reason), ToDicts(s.observations), cause));
  }

  /** Whatever ends a run, its ledger is accepted, opens with this task and closes on exactly the
      observations and verdicts of the result, so admission rests on the semantic verdict, the
      provenance of the evidence and the artifact verifier alone. */
  lemma EveryRunVerifies(task: PublicTask, w: World, bundlePasses: bool, hasSink: bool)
    ensures var r := Receipt(task, w, Final(task, w), bundlePasses, hasSink);
      && Ledger.Accepts(w.h, r.Document())
      && BundleBinds(w.h, task, r.observations, r.admission.semanticValid, r.admission.provenanceValid, r.Document())
      && r.admission.trajectoryValid
      && r.admission.integrityValid == bundlePasses
      && (r.Accepted() <==>
            r.terminalReason == EnvironmentDone && w.verdict && Admissible(r.observations) && bundlePasses)
  {
    hide Ledger.Accepts, Recorded, TakeTurn, Admissible, Play, ViewJson, TaskJson, ToDicts, Append;
    BeginRecorded(task, w);
    PlayRecorded(task, w, Begin(task, w));
    StartEntry(task, w);
    var s := Final(task, w);
    var semantic, provenance := SemanticallyValid(w, s), Admissible(s.observations);
    ClosedBinds(task, w, s, semantic, provenance);
    var r := Receipt(task, w, s, bundlePasses, hasSink);
    assert r.Document() == Ledger.Document(r.ledgerEntries);
  }

  // ----- Budgets and bookkeeping of every run -----

  lemma TurnCounts(task: PublicTask, w: World, s: State)
    requires s.end.None?
    ensures var t := TakeTurn(task, w, s);
      s.steps <= t.steps && (s.steps < task.budget.maxSteps ==> t.steps == s.steps + 1)
  {
  }

  lemma {:induction false} PlayCounts(task: PublicTask, w: World, s: State)
    ensures s.steps <= Play(task, w, s).steps
    decreases Fuel(task, s)
  {
    hide TakeTurn;
    if s.end.None? {
      TurnAdvances(task, w, s);
      TurnCounts(task, w, s);
      PlayCounts(task, w, TakeTurn(task, w, s));
    }
  }

  function Count(entries: seq<Entry>, kind: Word): nat {
    if entries == [] then 0
    else Count(entries[..|entries| - 1], kind) + (if entries[|entries| - 1].kind == kind then 1 else 0)
  }

  function AtLeastZero(n: int): nat {
    if n < 0 then 0 else n
  }

  predicate Tally(task: PublicTask, s: State) {
    && s.steps == Count(s.entries, DECISION) <= AtLeastZero(task.budget.maxSteps)
    && Count(s.entries, ACTION_RESULT) == s.steps - (if Unresolved(s) then 1 else 0)
    && |s.entries| == 2 + s.steps + Count(s.entries, ACTION_RESULT)
    && |s.candidates| <= AtLeastZero(MaxGenerative(task))
    && (s.end.Some? ==> (s.end.value.reason.ToolCostBudgetExhausted? <==> OverCost(task, s.observations)))
    && (s.end.Some? && s.end.value.reason.StepBudgetExhausted? ==> s.steps == AtLeastZero(task.budget.maxSteps))
    && (s.end.None? ==> !OverCost(task, s.observations))
  }

  lemma CountNext(h: Hasher, entries: seq<Entry>, kind: Word, payload: Object, wanted: Word)
    ensures Count(Append(h, entries, kind, payload), wanted)
      == Count(entries, wanted) + (if kind == wanted then 1 else 0)
    ensures |Append(h, entries, kind, payload)| == |entries| + 1
  {
    var longer := Append(h, entries, kind, payload);
    assert longer[..|longer| - 1] == entries;
  }

  lemma BeginTally(task: PublicTask, w: World)
    ensures Tally(task, Begin(task, w))
  {
    hide ViewJson, TaskJson, ToDicts, Ledger.BatchPayload, Ledger.StartPayload, Append, ToolCost, Root;
    var p := Ledger.StartPayload(w.h(ViewJson(task.AgentView())), w.h(TaskJson(task)));
    var q := Ledger.BatchPayload(w.h, ToDicts(w.reset), RESET);
    var start := Append(w.h, [], EPISODE_START, p);
    CountNext(w.h, [], EPISODE_START, p, DECISION);
    CountNext(w.h, [], EPISODE_START, p, ACTION_RESULT);
    CountNext(w.h, start, OBSERVATION_BATCH, q, DECISION);
    CountNext(w.h, start, OBSERVATION_BATCH, q, ACTION_RESULT);
  }

  lemma TurnTally(task: PublicTask, w: World, s: State)
    requires s.end.None? && Tally(task, s)
    ensures Tally(task, TakeTurn(task, w, s))
  {
    hide ToDicts, DecisionJson, Ledger.DecisionPayload, Ledger.ResultPayload, Append, Count, OverCost, Root,
      MaxGenerative;
    if s.steps < task.budget.maxSteps {
      var decision, asked := w.policy(s.steps), Ask(w, s);
      var p := Ledger.DecisionPayload(w.h, DecisionJson(decision), ToDicts(s.observations));
      CountNext(w.h, s.entries, DECISION, p, DECISION);
      CountNext(w.h, s.entries, DECISION, p, ACTION_RESULT);
      var ruling := Rule(task, w, decision, |s.candidates|);
      if ruling.Act? {
        var drafted := if decision.kind.CallGenerative? then Draft(w, asked) else asked;
        var reply, sha := w.host(s.steps), CandidateSha(w, drafted, decision);
        if reply.Outcome? {
          var q := Ledger.ResultPayload(w.h, Root(asked.entries), ruling.action, ToDicts(reply.observations),
                                        reply.done, reply.acceptedCandidate, sha);
          CountNext(w.h, asked.entries, ACTION_RESULT, q, DECISION);
          CountNext(w.h, asked.entries, ACTION_RESULT, q, ACTION_RESULT);
        }
      }
    }
  }

  lemma {:induction false} PlayTally(task: PublicTask, w: World, s: State)
    requires Tally(task, s)
    ensures Tally(task, Play(task, w, s))
    decreases Fuel(task, s)
  {
    hide Tally, TakeTurn;
    if s.end.None? {
      TurnAdvances(task, w, s);
      TurnTally(task, w, s);
      PlayTally(task, w, TakeTurn(task, w, s));
    }
  }

  /** Every run stays within its budgets and its ledger counts it out: decisions at most
      max_steps, candidates at most max_generative_calls, one result per decision except for the
      one that ended the run, three entries besides. The tool-cost ending is reported exactly
      when the observations cost more than allowed, so semantic success is within budget, and
      the learning sink is used only for admitted train episodes. */
  lemma EveryRunWithinBudget(task: PublicTask, w: World, bundlePasses: bool, hasSink: bool)
    ensures var r := Receipt(task, w, Final(task, w), bundlePasses, hasSink);
      var decisions, results := Count(r.ledgerEntries, DECISION), Count(r.ledgerEntries, ACTION_RESULT);
      && decisions <= AtLeastZero(task.budget.maxSteps)
      && r.generativeCalls == |r.generatedCandidates| <= AtLeastZero(MaxGenerative(task))
      && results <= decisions <= results + 1
      && r.ledgerEntryCount == |r.ledgerEntries| == 3 + decisions + results
      && (r.terminalReason.ToolCostBudgetExhausted? <==> OverCost(task, r.observations))
      && (r.terminalReason.StepBudgetExhausted? ==> decisions == AtLeastZero(task.budget.maxSteps))
      && (r.admission.semanticValid ==> r.terminalReason == EnvironmentDone && !OverCost(task, r.observations))
      && (r.learningUpdated <==> r.Accepted() && r.split == "train" && hasSink)
      && r.taskId == task.taskId && r.split == task.split && r.domain == task.domain
  {
    hide Play, TakeTurn, Ledger.Accepts, BundleBinds, ToDicts, Count, OverCost, Admissible, ViewJson, TaskJson, Append;
    BeginTally(task, w);
    PlayTally(task, w, Begin(task, w));
    var s := Final(task, w);
    var p := Ledger.TerminalPayload(w.h, ReasonWord(s.end.value.reason), SemanticallyValid(w, s),
                                    Admissible(s.observations),
      IsBudgetReason(s.end.value.reason), ToDicts(s.observations), s.end.value.cause);
    CountNext(w.h, s.entries, TERMINAL, p, DECISION);
    CountNext(w.h, s.entries, TERMINAL, p, ACTION_RESULT);
  }
}
