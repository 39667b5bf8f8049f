/** The transcript and the ledger of one isolated run agree: the producer side of both records
    meets both verifiers. */
module IsolatedLaws {
  import opened Json
  import opened HashChain
  import Ledger
  import opened Evidence
  import opened Episode
  import EpisodeLaws
  import opened AgentTranscript
  import opened TranscriptBinding
  import opened HostBoundary
  import opened AgentAdapter

  // ----- The transcript of well-formed calls is accepted -----

  function Generated(calls: seq<Call>): seq<string> {
    if calls == [] then [] else
      var last := calls[|calls| - 1];
      Generated(calls[..|calls| - 1]) + (if last.Generate? then [last.candidate] else [])
  }

  /** Decisions are well formed; a candidate is drafted right after the decision that asks for
      it, on the same observations, and attempts count the candidates. */
  predicate CallsOk(calls: seq<Call>) {
    calls == [] || (
      var before, last := calls[..|calls| - 1], calls[|calls| - 1];
      && CallsOk(before)
      && match last
         case Decide(_, _, decision) => ValidDecision(decision)
         case Generate(seen, attempt, _) =>
           && before != []
           && before[|before| - 1].Decide?
           && before[|before| - 1].decision.kind.CallGenerative?
           && before[|before| - 1].observations == seen
           && attempt == |Generated(before)| + 1)
  }

  ghost predicate HexDigests(w: World) {
    (forall v :: IsSha256(w.h(v))) && (forall s :: IsSha256(w.textSha(s)))
  }

  /** All of a transcript but its close. */
  ghost predicate OpenTranscript(w: World, view: AgentTaskView, session: string, entries: seq<Entry>,
                                 calls: seq<Call>)
  {
    var raw := ToRaw(entries);
    && |entries| == |calls| + 1
    && Chained(w.h, entries)
    && PayloadOf(raw[0]) == StartPayload(w.h, view, session)
    && KindOf(raw[|calls|]) == Fixed(if calls == [] then AGENT_START else CallKind(calls[|calls| - 1]))
    && (calls != [] ==> PayloadOf(raw[|calls|]) == CallPayload(w, |calls|, calls[|calls| - 1]))
    && Generations(raw, |raw|) == |Generated(calls)|
    && (forall i :: 0 <= i < |raw| ==> PlacedAt(raw, i))
    && (forall i :: 0 <= i < |raw| ==> !Is(raw[i], AGENT_CLOSE))
  }

  lemma {:induction false} GenerationsStable(raw: seq<Json>, longer: seq<Json>, n: nat)
    requires raw <= longer && n <= |raw|
    ensures Generations(raw, n) == Generations(longer, n)
  {
    if n > 0 { GenerationsStable(raw, longer, n - 1); }
  }

  lemma PlacedStable(raw: seq<Json>, longer: seq<Json>, i: nat)
    requires raw <= longer && i < |raw| && PlacedAt(raw, i) && !Is(raw[i], AGENT_CLOSE)
    ensures PlacedAt(longer, i)
  {
    hide StartOk, DecisionOk, GenerationOk, CloseOk, AnswersCall, Is;
    GenerationsStable(raw, longer, i);
    assert raw[i] == longer[i] && raw[0] == longer[0];
    assert i > 0 ==> raw[i - 1] == longer[i - 1];
  }

  lemma StartPlaced(w: World, view: AgentTaskView, session: string)
    requires HexDigests(w) && session != ""
    ensures StartOk(StartPayload(w.h, view, session))
  {
    hide IsSha256, ViewJson;
  }

  lemma DecisionJsonWellFormed(d: PolicyDecision)
    requires ValidDecision(d)
    ensures DecisionWellFormed(Obj(DecisionJson(d)))
  {
  }

  lemma DecisionPlaced(w: World, turn: nat, observations: seq<Observation>, trajectory: seq<string>,
                       decision: PolicyDecision)
    requires HexDigests(w) && ValidDecision(decision)
    ensures DecisionOk(DecisionPayload(w.h, turn, observations, trajectory, decision), turn)
  {
    hide IsSha256, DecisionWellFormed, DecisionJson, ToDicts, StrList;
    DecisionJsonWellFormed(decision);
  }

  lemma GenerationPlaced(w: World, turn: nat, observations: seq<Observation>, attempt: nat, candidate: string)
    requires HexDigests(w)
    ensures GenerationOk(GenerationPayload(w.h, w.textSha, turn, observations, attempt, candidate), turn, attempt)
  {
    hide IsSha256, ToDicts;
  }

  lemma AnswersPrevious(w: World, turn: nat, observations: seq<Observation>, trajectory: seq<string>,
                        decision: PolicyDecision, previous: Json, attempt: nat, candidate: string)
    requires decision.kind.CallGenerative?
    requires Is(previous, AGENT_DECISION)
    requires PayloadOf(previous) == DecisionPayload(w.h, turn, observations, trajectory, decision)
    ensures AnswersCall(previous, GenerationPayload(w.h, w.textSha, turn + 1, observations, attempt, candidate))
  {
    hide ToDicts, StrList;
  }

  lemma NotedPlaced(w: World, view: AgentTaskView, session: string, entries: seq<Entry>, calls: seq<Call>)
    requires HexDigests(w) && calls != [] && CallsOk(calls)
    requires OpenTranscript(w, view, session, entries, calls[..|calls| - 1])
    ensures var longer := ToRaw(Noted(w, entries, |calls|, calls[|calls| - 1]));
      PlacedAt(longer, |calls|) && Is(longer[|calls|], CallKind(calls[|calls| - 1]))
      && PayloadOf(longer[|calls|]) == CallPayload(w, |calls|, calls[|calls| - 1])
      && Generations(longer, |calls|) == |Generated(calls[..|calls| - 1])|
  {
    hide HexDigests, DecisionOk, GenerationOk, AnswersCall, DecisionPayload, GenerationPayload, Chained, HashBefore,
      Ledger.Frontier, Ledger.Observed, CallsOk, ToJson;
    var before, last, n := calls[..|calls| - 1], calls[|calls| - 1], |calls|;
    var kind, payload := CallKind(last), CallPayload(w, n, last);
    var raw, longer := ToRaw(entries), ToRaw(Append(w.h, entries, kind, payload));
    Ledger.AppendShape(w.h, entries, kind, payload);
    GenerationsStable(raw, longer, n);
    LastCallOk(calls);
    match last
    case Decide(observations, trajectory, decision) =>
      DecisionPlaced(w, n, observations, trajectory, decision);
    case Generate(seen, attempt, candidate) =>
      var asked := before[n - 2];
      GenerationPlaced(w, n, seen, attempt, candidate);
      assert longer[n - 1] == raw[n - 1];
      AnswersPrevious(w, n - 1, asked.observations, asked.trajectory, asked.decision, longer[n - 1], attempt,
                      candidate);
  }

  lemma LastCallOk(calls: seq<Call>)
    requires CallsOk(calls) && calls != []
    ensures CallsOk(calls[..|calls| - 1])
    ensures var before, last := calls[..|calls| - 1], calls[|calls| - 1];
      match last
      case Decide(_, _, decision) => ValidDecision(decision)
      case Generate(seen, attempt, _) =>
        && before != [] && before[|before| - 1].Decide?
        && before[|before| - 1].decision.kind.CallGenerative?
        && before[|before| - 1].observations == seen
        && attempt == |Generated(before)| + 1
  {
  }

  lemma {:induction false} TranscriptOpen(w: World, view: AgentTaskView, session: string, calls: seq<Call>)
    requires HexDigests(w) && session != "" && CallsOk(calls)
    ensures OpenTranscript(w, view, session, Transcript(w, view, session, calls), calls)
  {
    hide HexDigests, PlacedAt, CallsOk, CallPayload, StartPayload;
    var entries := Transcript(w, view, session, calls);
    if calls == [] {
      TranscriptStarts(w, view, session);
    } else {
      var before, last, n := calls[..|calls| - 1], calls[|calls| - 1], |calls|;
      LastCallOk(calls);
      TranscriptOpen(w, view, session, before);
      var shorter := Transcript(w, view, session, before);
      NotedPlaced(w, view, session, shorter, calls);
      NotedOpen(w, view, session, shorter, calls);
    }
  }

  lemma TranscriptStarts(w: World, view: AgentTaskView, session: string)
    requires HexDigests(w) && session != ""
    ensures OpenTranscript(w, view, session, Transcript(w, view, session, []), [])
  {
    hide HexDigests, StartPayload, StartOk, DecisionOk, GenerationOk, AnswersCall, CloseOk, NextEntry, ToJson,
      KindOf, PayloadOf, Chained;
    var entries := Transcript(w, view, session, []);
    StartPlaced(w, view, session);
    FirstEntry(w.h, AGENT_START, StartPayload(w.h, view, session));
    var raw := ToRaw(entries);
    assert Generations(raw, 1) == Generations(raw, 0);
  }

  lemma NotedOpen(w: World, view: AgentTaskView, session: string, entries: seq<Entry>, calls: seq<Call>)
    requires calls != []
    requires OpenTranscript(w, view, session, entries, calls[..|calls| - 1])
    requires var longer := ToRaw(Noted(w, entries, |calls|, calls[|calls| - 1]));
      PlacedAt(longer, |calls|) && Is(longer[|calls|], CallKind(calls[|calls| - 1]))
      && PayloadOf(longer[|calls|]) == CallPayload(w, |calls|, calls[|calls| - 1])
      && Generations(longer, |calls|) == |Generated(calls[..|calls| - 1])|
    ensures OpenTranscript(w, view, session, Noted(w, entries, |calls|, calls[|calls| - 1]), calls)
  {
    hide PlacedAt, CallPayload, PayloadOf, ToJson, Chained, NextEntry, StartPayload;
    var last, n := calls[|calls| - 1], |calls|;
    var raw, longer := ToRaw(entries), ToRaw(Noted(w, entries, n, last));
    AppendChained(w.h, entries, CallKind(last), CallPayload(w, n, last));
    assert raw <= longer;
    assert longer[0] == raw[0];
    forall i | 0 <= i < n ensures PlacedAt(longer, i) && !Is(longer[i], AGENT_CLOSE) {
      assert longer[i] == raw[i];
      PlacedStable(raw, longer, i);
    }
  }

  /** Every well-formed sequence of calls, closed, is a transcript the document verifier accepts. */
  lemma ClosedAccepted(w: World, view: AgentTaskView, session: string, calls: seq<Call>)
    requires HexDigests(w) && session != "" && CallsOk(calls)
    ensures Accepts(w.h, Document(ClosedTranscript(w, view, session, calls)))
  {
    hide PlacedAt, CallPayload, CallsOk, HexDigests, LinkedAt, ShapeOk, StartPayload, ToJson, Chained;
    TranscriptOpen(w, view, session, calls);
    var entries := Transcript(w, view, session, calls);
    var p := ClosePayload(session);
    var closed := Append(w.h, entries, AGENT_CLOSE, p);
    var raw, longer, n := ToRaw(entries), ToRaw(closed), |entries|;
    Ledger.AppendShape(w.h, entries, AGENT_CLOSE, p);
    AppendChained(w.h, entries, AGENT_CLOSE, p);
    ChainedIsLinked(w.h, closed);
    assert longer[0] == raw[0];
    ClosePlaced(w, view, session, longer);
    forall i | 0 <= i <= n ensures EntryOk(w.h, longer, i) {
      assert LinkedAt(w.h, longer, i);
      ShapesOk(w, closed, i);
      if i < n {
        assert longer[i] == raw[i];
        PlacedStable(raw, longer, i);
      }
    }
    DocumentOk(w, closed);
  }

  lemma ClosePlaced(w: World, view: AgentTaskView, session: string, raw: seq<Json>)
    requires |raw| >= 2 && Is(raw[|raw| - 1], AGENT_CLOSE)
    requires PayloadOf(raw[|raw| - 1]) == ClosePayload(session)
    requires PayloadOf(raw[0]) == StartPayload(w.h, view, session)
    ensures PlacedAt(raw, |raw| - 1)
  {
    hide ViewJson, PayloadOf;
  }

  lemma ShapesOk(w: World, entries: seq<Entry>, i: nat)
    requires HexDigests(w) && Chained(w.h, entries) && i < |entries|
    ensures ShapeOk(ToRaw(entries)[i])
  {
    hide IsSha256;
    assert entries[i] == NextEntry(w.h, entries[..i], entries[i].kind, entries[i].payload);
    ToJsonFields(entries[i]);
  }

  lemma DocumentOk(w: World, entries: seq<Entry>)
    requires HexDigests(w) && Chained(w.h, entries) && |entries| >= 2
    requires forall i :: 0 <= i < |entries| ==> EntryOk(w.h, ToRaw(entries), i)
    requires Is(ToRaw(entries)[|entries| - 1], AGENT_CLOSE)
    ensures Accepts(w.h, Document(entries))
  {
    hide EntryOk, IsSha256;
    var n := |entries| - 1;
    assert entries[n] == NextEntry(w.h, entries[..n], entries[n].kind, entries[n].payload);
    ToJsonFields(entries[n]);
  }

  // ----- The ledger of the same run says the same -----

  /** The ledger's reading of the decide calls. */
  function Decisions(w: World, calls: seq<Call>): seq<LedgerDecision> {
    if calls == [] then [] else
      var last := calls[|calls| - 1];
      var here :=
        if last.Decide?
        then [LedgerDecision(Ledger.DecisionPayload(w.h, DecisionJson(last.decision), ToDicts(last.observations)),
                             w.h(StrList(last.trajectory)))]
        else [];
      Decisions(w, calls[..|calls| - 1]) + here
  }

  /** The host rejected the action for which the generator had just drafted a candidate. */
  predicate LostCandidate(w: World, s: State) {
    s.calls != [] && s.calls[|s.calls| - 1].Generate? && s.steps > 0 && w.host(s.steps - 1).Rejected?
  }

  function Answered(candidates: seq<string>, lost: bool): seq<string> {
    if lost && candidates != [] then candidates[..|candidates| - 1] else candidates
  }

  predicate Reads(w: World, entries: seq<Entry>, calls: seq<Call>, answered: seq<string>) {
    && ActionsAreStrings(entries)
    && LedgerDecisions(w.h, entries, |entries|) == Decisions(w, calls)
    && LedgerCandidates(entries, |entries|) == CandidateShas(w.textSha, answered)
  }

  predicate Mirrors(w: World, s: State) {
    && CallsOk(s.calls)
    && Generated(s.calls) == s.candidates
    && (s.end.None? ==> Arr(ActionsBefore(s.entries, |s.entries|)) == StrList(s.trajectory))
    && (s.end.None? ==> !LostCandidate(w, s))
    && Reads(w, s.entries, s.calls, Answered(s.candidates, LostCandidate(w, s)))
  }

  lemma {:induction false} ReadsStable(h: Hasher, entries: seq<Entry>, longer: seq<Entry>, n: nat)
    requires entries <= longer && n <= |entries|
    ensures ActionsBefore(entries, n) == ActionsBefore(longer, n)
    ensures LedgerDecisions(h, entries, n) == LedgerDecisions(h, longer, n)
    ensures LedgerCandidates(entries, n) == LedgerCandidates(longer, n)
  {
    if n > 0 { ReadsStable(h, entries, longer, n - 1); }
  }

  /** How one more ledger entry changes what is read from the ledger. */
  lemma ReadsNext(h: Hasher, entries: seq<Entry>, kind: Word, payload: Object)
    ensures var longer, n := Append(h, entries, kind, payload), |entries|;
      && |longer| == n + 1
      && ActionsBefore(longer, n + 1) == ActionsBefore(entries, n)
           + (if kind == ACTION_RESULT then [Get(payload, Key.Action)] else [])
      && LedgerDecisions(h, longer, n + 1) == LedgerDecisions(h, entries, n)
           + (if kind == DECISION then [LedgerDecision(payload, h(Arr(ActionsBefore(entries, n))))] else [])
      && LedgerCandidates(longer, n + 1) == LedgerCandidates(entries, n)
           + (if kind == ACTION_RESULT && Key.CandidateSha256 in payload then [payload[Key.CandidateSha256]] else [])
      && (ActionsAreStrings(longer) <==>
            ActionsAreStrings(entries) && (kind == ACTION_RESULT ==> Get(payload, Key.Action).IsString()))
  {
    hide ChainHash;
    var longer, n := Append(h, entries, kind, payload), |entries|;
    ReadsStable(h, entries, longer, n);
    assert forall i :: 0 <= i < n ==> longer[i] == entries[i];
    if ActionsAreStrings(longer) {
      forall i | 0 <= i < n && entries[i].kind == ACTION_RESULT ensures Get(entries[i].payload, Key.Action).IsString() {
        assert longer[i].kind == ACTION_RESULT;
      }
      assert longer[n].kind == kind && longer[n].payload == payload;
    }
  }

  lemma StrListAppend(items: seq<string>, item: string)
    ensures StrList(items + [item]) == Arr(StrList(items).items + [Str(item)])
  {
  }

  lemma CandidateShasAppend(textSha: string -> string, items: seq<string>, item: string)
    ensures CandidateShas(textSha, items + [item]) == CandidateShas(textSha, items) + [Str(textSha(item))]
  {
  }

  lemma NothingInLedger(h: Hasher)
    ensures ActionsBefore([], 0) == [] && LedgerDecisions(h, [], 0) == [] && LedgerCandidates([], 0) == []
    ensures ActionsAreStrings([])
  {
  }

  lemma BeginMirrors(task: PublicTask, w: World)
    ensures Mirrors(w, Begin(task, w))
  {
    hide ViewJson, TaskJson, ToDicts, Ledger.FrontierSha, NextEntry, Ledger.StartPayload, Ledger.BatchPayload, OverCost,
      ActionsBefore, LedgerDecisions, LedgerCandidates, ActionsAreStrings;
    NothingInLedger(w.h);
    var first := Ledger.StartPayload(w.h(ViewJson(task.AgentView())), w.h(TaskJson(task)));
    ReadsNext(w.h, [], EPISODE_START, first);
    ReadsNext(w.h, Append(w.h, [], EPISODE_START, first), OBSERVATION_BATCH,
              Ledger.BatchPayload(w.h, ToDicts(w.reset), RESET));
  }

  /** Between the decision and the host's answer: the decision is noted in both records, the
      candidate, if any, is not yet in the ledger. */
  predicate Midway(w: World, s: State, decision: PolicyDecision) {
    && CallsOk(s.calls)
    && Generated(s.calls) == s.candidates
    && Arr(ActionsBefore(s.entries, |s.entries|)) == StrList(s.trajectory)
    && Reads(w, s.entries, s.calls, Answered(s.candidates, decision.kind.CallGenerative?))
  }

  lemma AskMirrors(w: World, s: State)
    requires s.end.None? && Mirrors(w, s) && ValidDecision(w.policy(s.steps))
    ensures var asked := Ask(w, s);
      && CallsOk(asked.calls) && Generated(asked.calls) == s.candidates
      && Arr(ActionsBefore(asked.entries, |asked.entries|)) == StrList(s.trajectory)
      && Reads(w, asked.entries, asked.calls, s.candidates)
  {
    hide ValidDecision, DecisionJson, ToDicts, NextEntry, Ledger.FrontierSha, StrList, CandidateShas;
    var decision := w.policy(s.steps);
    var payload := Ledger.DecisionPayload(w.h, DecisionJson(decision), ToDicts(s.observations));
    ReadsNext(w.h, s.entries, DECISION, payload);
    var calls := Ask(w, s).calls;
    assert calls[..|calls| - 1] == s.calls;
  }

  lemma DraftMirrors(w: World, s: State, asked: State)
    requires s.end.None? && Mirrors(w, s) && ValidDecision(w.policy(s.steps))
    requires asked == Ask(w, s)
    requires w.policy(s.steps).kind.CallGenerative? && w.generator.Some?
    ensures Midway(w, Draft(w, asked), w.policy(s.steps))
  {
    hide ValidDecision, DecisionJson, ToDicts, NextEntry, Ledger.FrontierSha, StrList, CandidateShas, Mirrors;
    AskMirrors(w, s);
    var calls, candidates := Draft(w, asked).calls, Draft(w, asked).candidates;
    assert calls[..|calls| - 1] == asked.calls;
    assert candidates[..|candidates| - 1] == s.candidates;
  }

  lemma ResultReads(w: World, entries: seq<Entry>, calls: seq<Call>, before: seq<string>, after: seq<string>,
                    action: string, items: seq<Json>, done: bool, accepted: Option<bool>, sha: Option<string>)
    requires Reads(w, entries, calls, before)
    requires CandidateShas(w.textSha, after)
      == CandidateShas(w.textSha, before) + (if sha.Some? then [Str(sha.value)] else [])
    ensures var longer := Append(w.h, entries, ACTION_RESULT,
              Ledger.ResultPayload(w.h, Root(entries), action, items, done, accepted, sha));
      && Reads(w, longer, calls, after)
      && ActionsBefore(longer, |longer|) == ActionsBefore(entries, |entries|) + [Str(action)]
  {
    hide NextEntry, Ledger.FrontierSha, CandidateShas, Decisions;
    ReadsNext(w.h, entries, ACTION_RESULT,
              Ledger.ResultPayload(w.h, Root(entries), action, items, done, accepted, sha));
  }

  lemma AnswerMirrors(task: PublicTask, w: World, s: State, decision: PolicyDecision, action: string)
    requires s.end.None? && s.steps > 0 && Midway(w, s, decision)
    requires decision.kind.CallGenerative? ==> s.candidates != []
    requires decision.kind.CallGenerative? <==> s.calls != [] && s.calls[|s.calls| - 1].Generate?
    ensures Mirrors(w, Answer(task, w, s, action, w.host(s.steps - 1), CandidateSha(w, s, decision)))
  {
    hide CallsOk, Append, StrList, CandidateShas, ToDicts, Reads, Ledger.ResultPayload, OverCost, ActionsBefore,
      Generated;
    var reply, sha := w.host(s.steps - 1), CandidateSha(w, s, decision);
    if reply.Outcome? {
      StrListAppend(s.trajectory, action);
      if decision.kind.CallGenerative? {
        var n := |s.candidates| - 1;
        CandidateShasAppend(w.textSha, s.candidates[..n], s.candidates[n]);
        assert s.candidates[..n] + [s.candidates[n]] == s.candidates;
      }
      ResultReads(w, s.entries, s.calls, Answered(s.candidates, decision.kind.CallGenerative?), s.candidates,
                  action, ToDicts(reply.observations), reply.done, reply.acceptedCandidate, sha);
    }
  }

  lemma TurnMirrors(task: PublicTask, w: World, s: State)
    requires s.end.None? && Mirrors(w, s)
    requires s.steps < task.budget.maxSteps ==> ValidDecision(w.policy(s.steps))
    ensures Mirrors(w, TakeTurn(task, w, s))
  {
    hide CallsOk, Append, StrList, Answer, Reads, OverCost, ValidDecision, Decisions, Generated;
    if s.steps < task.budget.maxSteps {
      var decision, asked := w.policy(s.steps), Ask(w, s);
      AskMirrors(w, s);
      var ruling := Rule(task, w, decision, |s.candidates|);
      if ruling.Act? {
        if decision.kind.CallGenerative? {
          DraftMirrors(w, s, asked);
          AnswerMirrors(task, w, Draft(w, asked), decision, ruling.action);
        } else {
          AnswerMirrors(task, w, asked, decision, ruling.action);
        }
      }
    }
  }

  lemma {:induction false} PlayMirrors(task: PublicTask, w: World, s: State)
    requires Mirrors(w, s) && forall k :: 0 <= k < Play(task, w, s).steps ==> ValidDecision(w.policy(k))
    ensures Mirrors(w, Play(task, w, s))
    decreases Fuel(task, s)
  {
    hide Mirrors, TakeTurn, ValidDecision;
    if s.end.None? {
      TurnAdvances(task, w, s);
      EpisodeLaws.TurnCounts(task, w, s);
      EpisodeLaws.PlayCounts(task, w, TakeTurn(task, w, s));
      TurnMirrors(task, w, s);
      PlayMirrors(task, w, TakeTurn(task, w, s));
    }
  }

  // ----- Both records together -----

  lemma {:induction false} PayloadsStable(raw: seq<Json>, longer: seq<Json>, kind: Word, n: nat)
    requires raw <= longer && n <= |raw|
    ensures PayloadsOf(raw, kind, n) == PayloadsOf(longer, kind, n)
  {
    if n > 0 { PayloadsStable(raw, longer, kind, n - 1); }
  }

  lemma NextPayloads(w: World, entries: seq<Entry>, kind: Word, payload: Object, wanted: Word)
    requires entries != []
    ensures var raw, longer, n := ToRaw(entries), ToRaw(Append(w.h, entries, kind, payload)), |entries|;
      && |longer| == n + 1 && longer[0] == raw[0]
      && PayloadsOf(longer, wanted, n + 1)
         == if kind == wanted then PayloadsOf(raw, wanted, n) + [payload] else PayloadsOf(raw, wanted, n)
  {
    hide NextEntry, ToJson, KindOf, PayloadOf, Ledger.Frontier, HashBefore;
    var raw, longer, n := ToRaw(entries), ToRaw(Append(w.h, entries, kind, payload)), |entries|;
    Ledger.AppendShape(w.h, entries, kind, payload);
    PayloadsStable(raw, longer, wanted, n);
  }

  lemma SameDecisionsAppend(a: seq<Object>, b: seq<LedgerDecision>, x: Object, y: LedgerDecision)
    requires SameDecisions(a, b) && SameDecision(x, y)
    ensures SameDecisions(a + [x], b + [y])
  {
    hide SameDecision;
  }

  lemma ShasInAppend(a: seq<Object>, p: Object)
    ensures ShasIn(a + [p]) == ShasIn(a) + [Get(p, Key.CandidateSha256)]
  {
  }

  lemma DecideSays(w: World, turn: nat, call: Call)
    requires call.Decide?
    ensures SameDecision(CallPayload(w, turn, call),
      LedgerDecision(Ledger.DecisionPayload(w.h, DecisionJson(call.decision), ToDicts(call.observations)),
                     w.h(StrList(call.trajectory))))
  {
    hide DecisionJson, ToDicts, StrList;
  }

  lemma GenerateSays(w: World, turn: nat, call: Call)
    requires call.Generate?
    ensures Get(CallPayload(w, turn, call), Key.CandidateSha256) == Str(w.textSha(call.candidate))
  {
    hide ToDicts;
  }

  /** Reading the transcript back gives the decisions and candidates of the calls. */
  lemma {:induction false} TranscriptReads(w: World, view: AgentTaskView, session: string, calls: seq<Call>)
    ensures var entries := Transcript(w, view, session, calls);
      var raw := ToRaw(entries);
      && |raw| == |calls| + 1 && |entries| == |calls| + 1
      && SameDecisions(PayloadsOf(raw, AGENT_DECISION, |raw|), Decisions(w, calls))
      && ShasIn(PayloadsOf(raw, AGENT_GENERATION, |raw|)) == CandidateShas(w.textSha, Generated(calls))
      && PayloadOf(raw[0]) == StartPayload(w.h, view, session)
  {
    hide NextEntry, ToJson, KindOf, PayloadOf, StartPayload, CallPayload, SameDecision, SameDecisions, Chained,
      CandidateShas, ShasIn, DecisionJson, ToDicts, StrList;
    var entries := Transcript(w, view, session, calls);
    if calls == [] {
      FirstEntry(w.h, AGENT_START, StartPayload(w.h, view, session));
      var raw := ToRaw(entries);
      assert PayloadsOf(raw, AGENT_DECISION, 1) == PayloadsOf(raw, AGENT_DECISION, 0);
      assert PayloadsOf(raw, AGENT_GENERATION, 1) == PayloadsOf(raw, AGENT_GENERATION, 0);
      NothingRead(w);
    } else {
      var before, last, n := calls[..|calls| - 1], calls[|calls| - 1], |calls|;
      var shorter := Transcript(w, view, session, before);
      TranscriptReads(w, view, session, before);
      NextPayloads(w, shorter, CallKind(last), CallPayload(w, n, last), AGENT_DECISION);
      NextPayloads(w, shorter, CallKind(last), CallPayload(w, n, last), AGENT_GENERATION);
      var agent, drafts := PayloadsOf(ToRaw(shorter), AGENT_DECISION, n),
        PayloadsOf(ToRaw(shorter), AGENT_GENERATION, n);
      if last.Decide? {
        DecideSays(w, n, last);
        SameDecisionsAppend(agent, Decisions(w, before), CallPayload(w, n, last),
          LedgerDecision(Ledger.DecisionPayload(w.h, DecisionJson(last.decision), ToDicts(last.observations)),
                         w.h(StrList(last.trajectory))));
        assert Generated(calls) == Generated(before) + [] == Generated(before);
      } else {
        GenerateSays(w, n, last);
        ShasInAppend(drafts, CallPayload(w, n, last));
        CandidateShasAppend(w.textSha, Generated(before), last.candidate);
        assert Decisions(w, calls) == Decisions(w, before) + [] == Decisions(w, before);
      }
    }
  }

  lemma NothingRead(w: World)
    ensures ShasIn([]) == [] && CandidateShas(w.textSha, []) == [] && SameDecisions([], [])
  {
  }

  lemma SameShasSameCount(w: World, payloads: seq<Object>, candidates: seq<string>)
    requires ShasIn(payloads) == CandidateShas(w.textSha, candidates)
    ensures |payloads| == |candidates|
  {
    assert |ShasIn(payloads)| == |payloads| && |CandidateShas(w.textSha, candidates)| == |candidates|;
  }

  lemma AnsweredAll(w: World, candidates: seq<string>, lost: bool)
    requires lost ==> candidates != []
    ensures CandidateShas(w.textSha, Answered(candidates, lost)) == CandidateShas(w.textSha, candidates) <==> !lost
  {
    if lost {
      assert |CandidateShas(w.textSha, Answered(candidates, lost))| < |CandidateShas(w.textSha, candidates)|;
    }
  }

  /** For any policy, generator, host and budgets, with endpoint decisions checked at the
      boundary and turns counted from one: the transcript is accepted on its own, and it binds to
      the episode exactly unless the host rejected an action after its candidate was drafted. */
  lemma TranscriptBindsToEpisode(task: PublicTask, w: World, session: string, bundlePasses: bool)
    requires HexDigests(w) && session != ""
    requires forall k :: 0 <= k < Final(task, w).steps ==> ValidDecision(w.policy(k))
    ensures var episode := Receipt(task, w, Final(task, w), bundlePasses, false);
      var document := Document(ClosedTranscript(w, task.AgentView(), session, Final(task, w).calls));
      && Accepts(w.h, document)
      && (AcceptsEpisode(w.h, w.textSha, document, task.AgentView(), episode) <==> !LostCandidate(w, Final(task, w)))
  {
    hide Mirrors, TakeTurn, CallsOk, HexDigests, Transcript, Accepts, Binds, ViewJson, ValidDecision, Play, Begin,
      Receipt, Document;
    var s := Final(task, w);
    assert Mirrors(w, s) by {
      BeginMirrors(task, w);
      PlayMirrors(task, w, Begin(task, w));
      FinalIs(task, w);
    }
    MirroredCalls(w, s);
    ClosedAccepted(w, task.AgentView(), session, s.calls);
    var episode := Receipt(task, w, s, bundlePasses, false);
    DocumentEntries(ClosedTranscript(w, task.AgentView(), session, s.calls));
    ClosedBinds(task, w, s, session, bundlePasses);
  }

  lemma FinalIs(task: PublicTask, w: World)
    ensures Final(task, w) == Play(task, w, Begin(task, w))
  {
  }

  lemma MirroredCalls(w: World, s: State)
    requires Mirrors(w, s)
    ensures CallsOk(s.calls)
  {
  }

  lemma DocumentEntries(entries: seq<Entry>)
    ensures Ledger.Entries(Document(entries)) == ToRaw(entries)
  {
  }

  lemma ClosedSays(w: World, view: AgentTaskView, session: string, calls: seq<Call>)
    ensures var raw := ToRaw(ClosedTranscript(w, view, session, calls));
      && raw != []
      && Get(PayloadOf(raw[0]), Key.AgentTaskViewSha256) == Str(w.h(ViewJson(view)))
      && SameDecisions(PayloadsOf(raw, AGENT_DECISION, |raw|), Decisions(w, calls))
      && ShasIn(PayloadsOf(raw, AGENT_GENERATION, |raw|)) == CandidateShas(w.textSha, Generated(calls))
  {
    hide Transcript, ViewJson, SameDecisions, ShasIn, CandidateShas, NextEntry, KindOf, PayloadOf, ToJson, Decisions,
      Generated, StartPayload, ClosePayload, ToRaw, PayloadsOf;
    var entries := Transcript(w, view, session, calls);
    TranscriptReads(w, view, session, calls);
    NextPayloads(w, entries, AGENT_CLOSE, ClosePayload(session), AGENT_DECISION);
    NextPayloads(w, entries, AGENT_CLOSE, ClosePayload(session), AGENT_GENERATION);
    StartSays(w, view, session);
  }

  lemma ReceiptReads(task: PublicTask, w: World, s: State, bundlePasses: bool)
    requires s.end.Some? && Mirrors(w, s)
    ensures var episode := Receipt(task, w, s, bundlePasses, false);
      && Reads(w, episode.ledgerEntries, s.calls, Answered(s.candidates, LostCandidate(w, s)))
      && episode.generativeCalls == |s.candidates| && episode.generatedCandidates == s.candidates
      && Generated(s.calls) == s.candidates
  {
    hide CallsOk, CandidateShas, NextEntry, Ledger.TerminalPayload, Ledger.Accepts, BundleBinds, Decisions, Generated,
      Admissible, ToDicts;
    ReadsNext(w.h, s.entries, TERMINAL, Ledger.TerminalPayload(w.h, ReasonWord(s.end.value.reason),
      SemanticallyValid(w, s), Admissible(s.observations), IsBudgetReason(s.end.value.reason), ToDicts(s.observations),
      s.end.value.cause));
  }

  lemma ClosedBinds(task: PublicTask, w: World, s: State, session: string, bundlePasses: bool)
    requires s.end.Some? && Mirrors(w, s)
    ensures var raw := ToRaw(ClosedTranscript(w, task.AgentView(), session, s.calls));
      && raw != []
      && (Binds(w.h, w.textSha, raw, task.AgentView(), Receipt(task, w, s, bundlePasses, false))
          <==> !LostCandidate(w, s))
  {
    hide ClosedTranscript, ToRaw, Mirrors, ViewJson, SameDecisions, ShasIn, CandidateShas, PayloadOf, Receipt, Answered,
      LedgerDecisions, LedgerCandidates, PayloadsOf, Decisions, Generated, LostCandidate, ActionsAreStrings;
    var raw := ToRaw(ClosedTranscript(w, task.AgentView(), session, s.calls));
    ClosedSays(w, task.AgentView(), session, s.calls);
    ReceiptReads(task, w, s, bundlePasses);
    SameShasSameCount(w, PayloadsOf(raw, AGENT_GENERATION, |raw|), s.candidates);
    LostIsDrafted(w, s);
    AnsweredAll(w, s.candidates, LostCandidate(w, s));
  }

  lemma StartSays(w: World, view: AgentTaskView, session: string)
    ensures Get(StartPayload(w.h, view, session), Key.AgentTaskViewSha256) == Str(w.h(ViewJson(view)))
  {
    hide ViewJson;
  }

  lemma LostIsDrafted(w: World, s: State)
    requires Mirrors(w, s)
    ensures LostCandidate(w, s) ==> s.candidates != []
  {
    hide CallsOk, Reads;
  }

  // ----- When a candidate can be lost -----

  /** `LocalReferenceHost.step` refuses exactly the actions outside the host contract. */
  ghost predicate LocalHost(task: PublicTask, w: World) {
    forall k :: w.host(k).Rejected? <==> !ActionAllowed(task, ActionOf(w.policy(k)))
  }

  /** A candidate is only ever drafted for a decision that asked for one, within the contract. */
  predicate DraftedWithinContract(task: PublicTask, w: World, s: State) {
    s.calls != [] && s.calls[|s.calls| - 1].Generate? ==>
      s.steps > 0 && w.policy(s.steps - 1).kind.CallGenerative? && CALL_ACTION in task.allowedActions
  }

  lemma {:induction false} PlayDraftsWithinContract(task: PublicTask, w: World, s: State)
    requires DraftedWithinContract(task, w, s)
    ensures DraftedWithinContract(task, w, Play(task, w, s))
    decreases Fuel(task, s)
  {
    hide Append, OverCost, ToDicts, DecisionJson, KindText;
    if s.end.None? {
      TurnAdvances(task, w, s);
      PlayDraftsWithinContract(task, w, TakeTurn(task, w, s));
    }
  }

  /** With the reference host no candidate is ever lost, so every isolated episode that
      completes yields a transcript both verifiers accept. */
  lemma LocalHostTranscriptAccepted(task: PublicTask, w: World, session: string, bundlePasses: bool)
    requires HexDigests(w) && session != ""
    requires forall k :: 0 <= k < Final(task, w).steps ==> ValidDecision(w.policy(k))
    requires LocalHost(task, w)
    ensures var episode := Receipt(task, w, Final(task, w), bundlePasses, false);
      AcceptsEpisode(w.h, w.textSha, Document(ClosedTranscript(w, task.AgentView(), session, Final(task, w).calls)),
                     task.AgentView(), episode)
  {
    hide HexDigests, ValidDecision, AcceptsEpisode, Receipt, ClosedTranscript, Document, Final, LostCandidate,
      LocalHost;
    TranscriptBindsToEpisode(task, w, session, bundlePasses);
    NothingLost(task, w);
  }

  lemma NothingLost(task: PublicTask, w: World)
    requires LocalHost(task, w)
    ensures !LostCandidate(w, Final(task, w))
  {
    hide Play, TakeTurn, Begin;
    BeginDrafts(task, w);
    PlayDraftsWithinContract(task, w, Begin(task, w));
    FinalIs(task, w);
  }

  lemma BeginDrafts(task: PublicTask, w: World)
    ensures DraftedWithinContract(task, w, Begin(task, w))
  {
  }

  /** The failing family: a host that rejects the first action after its candidate was drafted. */
  lemma RejectedDraftIsLost(task: PublicTask, w: World)
    requires task.budget.maxSteps > 0 && !OverCost(task, w.reset)
    requires w.policy(0) == PolicyDecision(CallGenerative, None) && w.generator.Some?
    requires CALL_ACTION in task.allowedActions && MaxGenerative(task) > 0
    requires w.host(0).Rejected?
    ensures LostCandidate(w, Final(task, w))
  {
    hide Append, ToDicts, DecisionJson, ViewJson, TaskJson, OverCost;
    var s := TakeTurn(task, w, Begin(task, w));
    assert s.end.Some? && LostCandidate(w, s);
    assert Final(task, w) == Play(task, w, s) == s;
  }

  // ----- Accepted transcripts tell the run -----

  /** The decide calls of a run, in order. */
  function Asks(calls: seq<Call>): seq<Call> {
    if calls == [] then []
    else
      Asks(calls[..|calls| - 1]) + (if calls[|calls| - 1].Decide? then [calls[|calls| - 1]] else [])
  }

  /** The payload tells what the policy was shown, by digest, and what it decided. */
  predicate TellsAsk(w: World, p: Object, call: Call) {
    && call.Decide?
    && Get(p, Key.ObservationFrontierSha256) == Str(w.h(Arr(ToDicts(call.observations))))
    && Get(p, Key.TrajectorySha256) == Str(w.h(StrList(call.trajectory)))
    && Get(p, Key.Decision) == Obj(DecisionJson(call.decision))
  }

  lemma DecisionTells(w: World, p: Object, call: Call)
    requires call.Decide?
    requires var shown := Ledger.DecisionPayload(w.h, DecisionJson(call.decision), ToDicts(call.observations));
      SameDecision(p, LedgerDecision(shown, w.h(StrList(call.trajectory))))
    ensures TellsAsk(w, p, call)
  {
    hide ToDicts, DecisionJson, StrList;
  }

  lemma {:induction false} SameDecisionsTell(w: World, payloads: seq<Object>, calls: seq<Call>)
    requires SameDecisions(payloads, Decisions(w, calls))
    ensures |payloads| == |Asks(calls)|
    ensures forall i :: 0 <= i < |payloads| ==> TellsAsk(w, payloads[i], Asks(calls)[i])
    decreases calls
  {
    hide SameDecision, TellsAsk, DecisionJson, ToDicts, StrList, Ledger.DecisionPayload;
    if calls != [] {
      var last, before := calls[|calls| - 1], calls[..|calls| - 1];
      var d := Decisions(w, before);
      if last.Decide? {
        var n := |payloads| - 1;
        assert Decisions(w, calls)[..n] == d;
        assert SameDecisions(payloads[..n], d) by {
          forall i | 0 <= i < n ensures SameDecision(payloads[..n][i], d[i]) {
            assert SameDecision(payloads[i], Decisions(w, calls)[i]);
          }
        }
        SameDecisionsTell(w, payloads[..n], before);
        assert SameDecision(payloads[n], Decisions(w, calls)[n]);
        DecisionTells(w, payloads[n], last);
        forall i | 0 <= i < n ensures TellsAsk(w, payloads[i], Asks(calls)[i]) {
          assert TellsAsk(w, payloads[..n][i], Asks(before)[i]);
        }
      } else {
        assert Decisions(w, calls) == d;
        SameDecisionsTell(w, payloads, before);
      }
    }
  }

  /** Whatever document is accepted as the transcript of a run, it tells that run: it is of the run's
      task, its decisions are those of the policy, each on the observations and after the actions that
      the policy was shown, its candidates are those the generator drafted, and none of them was lost. */
  lemma AcceptedTranscriptTellsRun(task: PublicTask, w: World, document: Object, bundlePasses: bool)
    requires forall k :: 0 <= k < Final(task, w).steps ==> ValidDecision(w.policy(k))
    requires AcceptsEpisode(w.h, w.textSha, document, task.AgentView(),
                            Receipt(task, w, Final(task, w), bundlePasses, false))
    ensures var raw, s := Ledger.Entries(document), Final(task, w);
      var decided, drafted := PayloadsOf(raw, AGENT_DECISION, |raw|), PayloadsOf(raw, AGENT_GENERATION, |raw|);
      && raw != [] && Get(PayloadOf(raw[0]), Key.AgentTaskViewSha256) == Str(w.h(ViewJson(task.AgentView())))
      && |decided| == |Asks(s.calls)|
      && (forall i :: 0 <= i < |decided| ==> TellsAsk(w, decided[i], Asks(s.calls)[i]))
      && |drafted| == |s.candidates|
      && (forall i :: 0 <= i < |drafted| ==> Get(drafted[i], Key.CandidateSha256) == Str(w.textSha(s.candidates[i])))
      && !LostCandidate(w, s)
  {
    hide Mirrors, TakeTurn, Accepts, ViewJson, ValidDecision, Play, Begin, Receipt, SameDecisions, TellsAsk,
      ActionsAreStrings, PayloadsOf, LedgerDecisions, LedgerCandidates, Decisions, Generated, LostCandidate, Answered;
    var s, raw := Final(task, w), Ledger.Entries(document);
    assert Mirrors(w, s) by {
      BeginMirrors(task, w);
      PlayMirrors(task, w, Begin(task, w));
      FinalIs(task, w);
    }
    RootIsLast(w.h, document);
    ReceiptReads(task, w, s, bundlePasses);
    LostIsDrafted(w, s);
    AnsweredAll(w, s.candidates, LostCandidate(w, s));
    SameDecisionsTell(w, PayloadsOf(raw, AGENT_DECISION, |raw|), s.calls);
    var drafted := PayloadsOf(raw, AGENT_GENERATION, |raw|);
    SameShasSameCount(w, drafted, s.candidates);
    forall i | 0 <= i < |drafted| ensures Get(drafted[i], Key.CandidateSha256) == Str(w.textSha(s.candidates[i])) {
      assert ShasIn(drafted)[i] == CandidateShas(w.textSha, s.candidates)[i];
    }
  }
}
