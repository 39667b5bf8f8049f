/** Cross-binding a transcript to the episode it claims to describe
    (`verify_agent_transcript_against_episode` in `gym/agent_transcript.py`). */
module TranscriptBinding {
  import opened Json
  import opened HashChain
  import Ledger
  import opened Evidence
  import opened Episode
  import opened AgentTranscript

  // ----- What the two records say -----

  /** The payloads of the entries of one kind, in order. */
  function PayloadsOf(raw: seq<Json>, kind: Word, n: nat): seq<Object>
    requires n <= |raw|
  {
    if n == 0 then [] else
      PayloadsOf(raw, kind, n - 1) + (if Is(raw[n - 1], kind) then [PayloadOf(raw[n - 1])] else [])
  }

  /** The actions the host answered before ledger entry `n`. */
  function ActionsBefore(entries: seq<Entry>, n: nat): seq<Json>
    requires n <= |entries|
  {
    if n == 0 then [] else
      var here := if entries[n - 1].kind == ACTION_RESULT then [Get(entries[n - 1].payload, Key.Action)] else [];
      ActionsBefore(entries, n - 1) + here
  }

  datatype LedgerDecision = LedgerDecision(payload: Object, trajectorySha: string)

  function LedgerDecisions(h: Hasher, entries: seq<Entry>, n: nat): seq<LedgerDecision>
    requires n <= |entries|
  {
    if n == 0 then [] else
      var here :=
        if entries[n - 1].kind == DECISION
        then [LedgerDecision(entries[n - 1].payload, h(Arr(ActionsBefore(entries, n - 1))))] else [];
      LedgerDecisions(h, entries, n - 1) + here
  }

  function LedgerCandidates(entries: seq<Entry>, n: nat): seq<Json>
    requires n <= |entries|
  {
    if n == 0 then [] else
      var here :=
        if entries[n - 1].kind == ACTION_RESULT && Key.CandidateSha256 in entries[n - 1].payload
        then [entries[n - 1].payload[Key.CandidateSha256]] else [];
      LedgerCandidates(entries, n - 1) + here
  }

  function CandidateShas(textSha: string -> string, candidates: seq<string>): seq<Json> {
    seq(|candidates|, i requires 0 <= i < |candidates| => Str(textSha(candidates[i])))
  }

  function ShasIn(payloads: seq<Object>): seq<Json> {
    seq(|payloads|, i requires 0 <= i < |payloads| => Get(payloads[i], Key.CandidateSha256))
  }

  predicate SameDecision(agent: Object, ledger: LedgerDecision) {
    && Get(agent, Key.ObservationFrontierSha256) == Get(ledger.payload, Key.ObservationFrontierSha256)
    && Get(agent, Key.Decision) == Get(ledger.payload, Key.Decision)
    && Get(agent, Key.TrajectorySha256) == Str(ledger.trajectorySha)
  }

  predicate SameDecisions(agent: seq<Object>, ledger: seq<LedgerDecision>) {
    |agent| == |ledger| && forall i :: 0 <= i < |agent| ==> SameDecision(agent[i], ledger[i])
  }

  predicate ActionsAreStrings(entries: seq<Entry>) {
    forall i :: 0 <= i < |entries| && entries[i].kind == ACTION_RESULT ==>
      Get(entries[i].payload, Key.Action).IsString()
  }

  /** The transcript is of this task, shows the ledger's decisions on the ledger's frontiers
      after the ledger's actions, and its candidates are the episode's and the ledger's. */
  ghost predicate Binds(h: Hasher, textSha: string -> string, raw: seq<Json>, view: AgentTaskView,
                        episode: EpisodeResult)
    requires raw != []
  {
    var entries, generations := episode.ledgerEntries, PayloadsOf(raw, AGENT_GENERATION, |raw|);
    && Get(PayloadOf(raw[0]), Key.AgentTaskViewSha256) == Str(h(ViewJson(view)))
    && ActionsAreStrings(entries)
    && SameDecisions(PayloadsOf(raw, AGENT_DECISION, |raw|), LedgerDecisions(h, entries, |entries|))
    && |generations| == episode.generativeCalls == |episode.generatedCandidates|
    && ShasIn(generations) == CandidateShas(textSha, episode.generatedCandidates)
    && LedgerCandidates(entries, |entries|) == CandidateShas(textSha, episode.generatedCandidates)
  }

  ghost predicate AcceptsEpisode(h: Hasher, textSha: string -> string, document: Object, view: AgentTaskView,
                                 episode: EpisodeResult)
  {
    Accepts(h, document) && Binds(h, textSha, Ledger.Entries(document), view, episode)
  }

  /** `verify_agent_transcript_against_episode` */
  method VerifyAgainstEpisode(h: Hasher, textSha: string -> string, document: Object, view: AgentTaskView,
                              episode: EpisodeResult)
    returns (ok: bool)
    ensures ok <==> AcceptsEpisode(h, textSha, document, view, episode)
  {
    hide Complete, ViewJson, Is, PayloadOf;
    ok := VerifyAgentTranscriptDocument(h, document);
    if !ok { return; }
    var raw := Ledger.Entries(document);
    CompleteNonEmpty(h, raw);
    if Get(PayloadOf(raw[0]), Key.AgentTaskViewSha256) != Str(h(ViewJson(view))) { return false; }

    var agentDecisions := CollectPayloads(raw, AGENT_DECISION);
    var strings, ledgerDecisions := CollectLedgerDecisions(h, episode.ledgerEntries);
    if !strings { return false; }
    if |agentDecisions| != |ledgerDecisions| { return false; }
    var i := 0;
    while i < |agentDecisions|
      invariant 0 <= i <= |agentDecisions|
      invariant forall j :: 0 <= j < i ==> SameDecision(agentDecisions[j], ledgerDecisions[j])
    {
      if !SameDecision(agentDecisions[i], ledgerDecisions[i]) { return false; }
      i := i + 1;
    }

    var generations := CollectPayloads(raw, AGENT_GENERATION);
    if |generations| != episode.generativeCalls { return false; }
    if |episode.generatedCandidates| != episode.generativeCalls { return false; }
    var candidateHashes := CandidateShas(textSha, episode.generatedCandidates);
    if ShasIn(generations) != candidateHashes { return false; }
    return LedgerCandidates(episode.ledgerEntries, |episode.ledgerEntries|) == candidateHashes;
  }

  lemma CompleteNonEmpty(h: Hasher, raw: seq<Json>)
    requires Complete(h, raw)
    ensures |raw| >= 2
  {
  }

  method CollectPayloads(raw: seq<Json>, kind: Word) returns (payloads: seq<Object>)
    ensures payloads == PayloadsOf(raw, kind, |raw|)
  {
    payloads := [];
    for i := 0 to |raw|
      invariant payloads == PayloadsOf(raw, kind, i)
    {
      if Is(raw[i], kind) { payloads := payloads + [PayloadOf(raw[i])]; }
    }
  }

  method CollectLedgerDecisions(h: Hasher, entries: seq<Entry>) returns (ok: bool, decisions: seq<LedgerDecision>)
    ensures ok <==> ActionsAreStrings(entries)
    ensures ok ==> decisions == LedgerDecisions(h, entries, |entries|)
  {
    decisions := [];
    var actionsSoFar: seq<Json> := [];
    for i := 0 to |entries|
      invariant forall j :: 0 <= j < i && entries[j].kind == ACTION_RESULT ==>
        Get(entries[j].payload, Key.Action).IsString()
      invariant decisions == LedgerDecisions(h, entries, i)
      invariant actionsSoFar == ActionsBefore(entries, i)
    {
      var entry := entries[i];
      if entry.kind == DECISION {
        decisions := decisions + [LedgerDecision(entry.payload, h(Arr(actionsSoFar)))];
      } else if entry.kind == ACTION_RESULT {
        var action := Get(entry.payload, Key.Action);
        if !action.IsString() { return false, decisions; }
        actionsSoFar := actionsSoFar + [action];
      }
    }
    return true, decisions;
  }

  // ----- The writer -----

  function StartPayload(h: Hasher, view: AgentTaskView, session: string): Object {
    map[Key.SessionId := Str(session), Key.AgentTaskViewSha256 := Str(h(ViewJson(view)))]
  }

  function DecisionPayload(h: Hasher, turn: nat, observations: seq<Observation>, trajectory: seq<string>,
                           decision: PolicyDecision): Object
  {
    map[Key.Turn := Int(turn),
        Key.ObservationFrontierSha256 := Str(Ledger.FrontierSha(h, ToDicts(observations))),
        Key.TrajectorySha256 := Str(h(StrList(trajectory))),
        Key.Decision := Obj(DecisionJson(decision))]
  }

  function GenerationPayload(h: Hasher, textSha: string -> string, turn: nat, observations: seq<Observation>,
                             attempt: nat, candidate: string): Object
  {
    map[Key.Turn := Int(turn),
        Key.ObservationFrontierSha256 := Str(Ledger.FrontierSha(h, ToDicts(observations))),
        Key.Attempt := Int(attempt), Key.CandidateSha256 := Str(textSha(candidate))]
  }

  function ClosePayload(session: string): Object {
    map[Key.SessionId := Str(session), Key.Closed := Bool(true)]
  }

  function Document(entries: seq<Entry>): Object {
    map[Key.Format := Fixed(TRANSCRIPT_FORMAT), Key.RootSha256 := Str(Root(entries)),
        Key.EntryCount := Int(|entries|), Key.Entries := Arr(ToRaw(entries))]
  }

  class AgentBoundaryTranscript {
    const h: Hasher
    const textSha: string -> string
    var entries: seq<Entry>

    constructor (h: Hasher, textSha: string -> string, view: AgentTaskView, session: string)
      ensures this.h == h && this.textSha == textSha
      ensures entries == Append(h, [], AGENT_START, StartPayload(h, view, session))
    {
      this.h := h;
      this.textSha := textSha;
      this.entries := [];
      new;
      AppendEntry(AGENT_START, StartPayload(h, view, session));
    }

    method AppendEntry(kind: Word, payload: Object)
      modifies this
      ensures entries == Append(h, old(entries), kind, payload)
    {
      var index := |entries|;
      var previousHash := if entries == [] then ZERO_HASH else entries[|entries| - 1].entryHash;
      var payloadSha := h(Obj(payload));
      entries := entries + [Entry(index, kind, previousHash, payloadSha, payload,
                                  ChainHash(h, index, Fixed(kind), previousHash, payloadSha))];
    }

    method RecordDecision(turn: nat, observations: seq<Observation>, trajectory: seq<string>, decision: PolicyDecision)
      modifies this
      ensures entries == Append(h, old(entries), AGENT_DECISION,
                                DecisionPayload(h, turn, observations, trajectory, decision))
    {
      AppendEntry(AGENT_DECISION, DecisionPayload(h, turn, observations, trajectory, decision));
    }

    method RecordGeneration(turn: nat, observations: seq<Observation>, attempt: nat, candidate: string)
      modifies this
      ensures entries == Append(h, old(entries), AGENT_GENERATION,
                                GenerationPayload(h, textSha, turn, observations, attempt, candidate))
    {
      AppendEntry(AGENT_GENERATION, GenerationPayload(h, textSha, turn, observations, attempt, candidate));
    }

    method RecordClose(session: string)
      modifies this
      ensures entries == Append(h, old(entries), AGENT_CLOSE, ClosePayload(session))
    {
      AppendEntry(AGENT_CLOSE, ClosePayload(session));
    }
  }
}
