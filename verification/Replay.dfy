/** Reading a ledger back as the situations in which decisions were made, the way the learners do
    (`_decision_experiences`, `_terminal_decision_experience`, `_decision_trace`), and what that
    reading of a gym's own ledger is. */
module Replay {
  import opened Json
  import opened HashChain
  import Ledger
  import opened Evidence
  import opened Episode

  /** A recorded decision, what had been observed before it and the hash of its entry. */
  datatype Situation = Situation(frontier: seq<Json>, decision: Json, entryHash: string)

  function ObservedIn(e: Entry): seq<Json> {
    var o := Get(e.payload, Key.Observations);
    if (e.kind == OBSERVATION_BATCH || e.kind == ACTION_RESULT) && o.Arr? then o.items else []
  }

  function FrontierOf(entries: seq<Entry>): seq<Json> {
    if entries == [] then [] else FrontierOf(entries[..|entries| - 1]) + ObservedIn(entries[|entries| - 1])
  }

  function SituationOf(before: seq<Entry>, e: Entry): seq<Situation> {
    if e.kind == Word.DECISION then [Situation(FrontierOf(before), Get(e.payload, Key.Decision), e.entryHash)] else []
  }

  function Situations(entries: seq<Entry>): seq<Situation> {
    if entries == [] then []
    else
      var before := entries[..|entries| - 1];
      Situations(before) + SituationOf(before, entries[|entries| - 1])
  }

  // ----- What a run's policy faced -----

  datatype Choice = Choice(observations: seq<Observation>, decision: PolicyDecision)

  function ChoiceIn(call: Call): seq<Choice> {
    if call.Decide? then [Choice(call.observations, call.decision)] else []
  }

  function Choices(calls: seq<Call>): seq<Choice> {
    if calls == [] then [] else Choices(calls[..|calls| - 1]) + ChoiceIn(calls[|calls| - 1])
  }

  predicate Tells(s: Situation, c: Choice) {
    s.frontier == ToDicts(c.observations) && s.decision == Obj(DecisionJson(c.decision))
  }

  ghost predicate Faithful(situations: seq<Situation>, choices: seq<Choice>) {
    |situations| == |choices| && forall i :: 0 <= i < |choices| ==> Tells(situations[i], choices[i])
  }

  ghost predicate Replays(s: State) {
    FrontierOf(s.entries) == ToDicts(s.observations) && Faithful(Situations(s.entries), Choices(s.calls))
  }

  lemma NextEntryRead(h: Hasher, entries: seq<Entry>, kind: Word, payload: Object)
    ensures var longer, e := Append(h, entries, kind, payload), NextEntry(h, entries, kind, payload);
      && FrontierOf(longer) == FrontierOf(entries) + ObservedIn(e)
      && Situations(longer) == Situations(entries) + SituationOf(entries, e)
      && e.kind == kind && e.payload == payload
  {
    hide ObservedIn, SituationOf;
    var longer := Append(h, entries, kind, payload);
    assert longer[..|longer| - 1] == entries;
  }

  lemma PrefixRead(entries: seq<Entry>, i: nat)
    requires i < |entries|
    ensures FrontierOf(entries[..i + 1]) == FrontierOf(entries[..i]) + ObservedIn(entries[i])
    ensures Situations(entries[..i + 1]) == Situations(entries[..i]) + SituationOf(entries[..i], entries[i])
  {
    hide ObservedIn, SituationOf;
    assert entries[..i + 1][..i] == entries[..i];
  }

  lemma NextCall(calls: seq<Call>, call: Call)
    ensures Choices(calls + [call]) == Choices(calls) + ChoiceIn(call)
  {
    assert (calls + [call])[..|calls|] == calls;
  }

  lemma NothingRead()
    ensures FrontierOf([]) == [] && Situations([]) == [] && Choices([]) == []
  {
  }

  lemma BatchRead(h: Hasher, observations: seq<Json>, phase: Word, e: Entry)
    requires e.kind == OBSERVATION_BATCH && e.payload == Ledger.BatchPayload(h, observations, phase)
    ensures ObservedIn(e) == observations
  {
  }

  lemma ResultRead(h: Hasher, hash: string, action: string, observations: seq<Json>, done: bool, accepted: Option<bool>,
                   sha: Option<string>, e: Entry)
    requires e.kind == ACTION_RESULT
    requires e.payload == Ledger.ResultPayload(h, hash, action, observations, done, accepted, sha)
    ensures ObservedIn(e) == observations && SituationOf([], e) == []
    ensures Get(e.payload, Key.Done) == Bool(done) && Get(e.payload, Key.DecisionEntryHash) == Str(hash)
  {
  }

  lemma DecisionRead(h: Hasher, before: seq<Entry>, decision: Object, visible: seq<Json>, e: Entry)
    requires e.kind == Word.DECISION && e.payload == Ledger.DecisionPayload(h, decision, visible)
    ensures SituationOf(before, e) == [Situation(FrontierOf(before), Obj(decision), e.entryHash)] && ObservedIn(e) == []
  {
    hide FrontierOf;
  }

  lemma OtherRead(before: seq<Entry>, e: Entry)
    requires e.kind != Word.DECISION
    ensures SituationOf(before, e) == []
    ensures e.kind == EPISODE_START || e.kind == TERMINAL ==> ObservedIn(e) == []
  {
  }

  lemma BeginReplays(task: PublicTask, w: World)
    ensures Replays(Begin(task, w))
  {
    hide ViewJson, TaskJson, Ledger.StartPayload, Ledger.BatchPayload, ToDicts, FrontierOf, Situations, SituationOf,
      ObservedIn, Append, NextEntry, OverCost, Choices;
    var p := Ledger.StartPayload(w.h(ViewJson(task.AgentView())), w.h(TaskJson(task)));
    var q := Ledger.BatchPayload(w.h, ToDicts(w.reset), RESET);
    var start := Append(w.h, [], EPISODE_START, p);
    NothingRead();
    NextEntryRead(w.h, [], EPISODE_START, p);
    NextEntryRead(w.h, start, OBSERVATION_BATCH, q);
    OtherRead([], NextEntry(w.h, [], EPISODE_START, p));
    OtherRead(start, NextEntry(w.h, start, OBSERVATION_BATCH, q));
    BatchRead(w.h, ToDicts(w.reset), RESET, NextEntry(w.h, start, OBSERVATION_BATCH, q));
    assert [] + ToDicts(w.reset) == ToDicts(w.reset);
  }

  lemma AskReplays(w: World, s: State)
    requires Replays(s)
    ensures Replays(Ask(w, s))
  {
    hide ToDicts, FrontierOf, Situations, SituationOf, ObservedIn, Append, NextEntry, Choices, DecisionJson,
      Ledger.DecisionPayload;
    var decision := w.policy(s.steps);
    var p := Ledger.DecisionPayload(w.h, DecisionJson(decision), ToDicts(s.observations));
    NextEntryRead(w.h, s.entries, Word.DECISION, p);
    DecisionRead(w.h, s.entries, DecisionJson(decision), ToDicts(s.observations),
                 NextEntry(w.h, s.entries, Word.DECISION, p));
    NextCall(s.calls, Decide(s.observations, s.trajectory, decision));
    assert FrontierOf(s.entries) + [] == FrontierOf(s.entries);
  }

  lemma AnswerReplays(task: PublicTask, w: World, s: State, action: string, reply: StepReply,
                      candidateSha: Option<string>)
    requires Replays(s)
    ensures Replays(Answer(task, w, s, action, reply, candidateSha))
  {
    hide FrontierOf, Situations, SituationOf, ObservedIn, Append, NextEntry, Choices, Ledger.ResultPayload, OverCost,
      Tells, ToDicts, Faithful;
    if reply.Outcome? {
      var p := Ledger.ResultPayload(w.h, Root(s.entries), action, ToDicts(reply.observations), reply.done,
                                    reply.acceptedCandidate, candidateSha);
      NextEntryRead(w.h, s.entries, ACTION_RESULT, p);
      var e := NextEntry(w.h, s.entries, ACTION_RESULT, p);
      OtherRead(s.entries, e);
      ResultRead(w.h, Root(s.entries), action, ToDicts(reply.observations), reply.done, reply.acceptedCandidate,
                 candidateSha, e);
      assert Situations(s.entries) + [] == Situations(s.entries);
      ToDictsAppend(s.observations, reply.observations);
    }
  }

  lemma DraftReplays(w: World, s: State)
    requires Replays(s) && w.generator.Some?
    ensures Replays(Draft(w, s))
  {
    hide ToDicts, FrontierOf, Situations, Choices;
    var candidate := w.generator.value(|s.candidates|);
    NextCall(s.calls, Generate(s.observations, |s.candidates| + 1, candidate));
    assert Choices(s.calls) + [] == Choices(s.calls);
  }

  lemma TurnReplays(task: PublicTask, w: World, s: State)
    requires s.end.None? && Replays(s)
    ensures Replays(TakeTurn(task, w, s))
  {
    hide ToDicts, FrontierOf, Situations, Choices, Answer, Ask, Draft, Faithful;
    if s.steps < task.budget.maxSteps {
      AskReplays(w, s);
      var decision, asked := w.policy(s.steps), Ask(w, s);
      var ruling := Rule(task, w, decision, |s.candidates|);
      if ruling.Act? {
        if decision.kind.CallGenerative? { DraftReplays(w, asked); }
        var drafted := if decision.kind.CallGenerative? then Draft(w, asked) else asked;
        DraftKeeps(w, asked);
        AnswerReplays(task, w, drafted, ruling.action, w.host(s.steps), CandidateSha(w, drafted, decision));
      }
    }
  }

  lemma DraftKeeps(w: World, s: State)
    ensures w.generator.Some? ==> Draft(w, s).candidates != []
  {
  }

  lemma {:induction false} PlayReplays(task: PublicTask, w: World, s: State)
    requires Replays(s)
    ensures Replays(Play(task, w, s))
    decreases Fuel(task, s)
  {
    hide Replays, TakeTurn;
    if s.end.None? {
      TurnAdvances(task, w, s);
      TurnReplays(task, w, s);
      PlayReplays(task, w, TakeTurn(task, w, s));
    }
  }

  /** Read back from the ledger of a finished run, every decision stands in exactly the situation
      its policy saw, in order and without omissions. */
  lemma ReplayIsFaithful(task: PublicTask, w: World, bundlePasses: bool, hasSink: bool)
    ensures Faithful(Situations(Receipt(task, w, Final(task, w), bundlePasses, hasSink).ledgerEntries),
                     Choices(Final(task, w).calls))
  {
    hide Play, TakeTurn, Begin, ToDicts, FrontierOf, Situations, SituationOf, ObservedIn, NextEntry, Choices, Faithful,
      Append, Ledger.Accepts, BundleBinds, Ledger.TerminalPayload, Admissible;
    BeginReplays(task, w);
    PlayReplays(task, w, Begin(task, w));
    var s := Final(task, w);
    assert s == Play(task, w, Begin(task, w));
    var p := Ledger.TerminalPayload(w.h, ReasonWord(s.end.value.reason), SemanticallyValid(w, s),
                                    Admissible(s.observations),
      IsBudgetReason(s.end.value.reason), ToDicts(s.observations), s.end.value.cause);
    NextEntryRead(w.h, s.entries, TERMINAL, p);
    OtherRead(s.entries, NextEntry(w.h, s.entries, TERMINAL, p));
    assert Situations(s.entries) + [] == Situations(s.entries);
  }
}
