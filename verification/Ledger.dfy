/** The trajectory ledger (`gym/ledger.py`): the writer that records an episode and the
    verifier that accepts or rejects any document presented as such a record. */
module Ledger {
  import opened Json
  import opened HashChain

  /** `observation_frontier_sha256` */
  function FrontierSha(h: Hasher, observations: seq<Json>): string {
    h(Arr(observations))
  }

  // ----- What an accepted document is -----

  function Observed(v: Json): seq<Json> {
    var o := Get(PayloadOf(v), Key.Observations);
    if (Is(v, OBSERVATION_BATCH) || Is(v, ACTION_RESULT)) && o.Arr? then o.items else []
  }

  /** Every observation recorded before entry `n`, in order. */
  function Frontier(raw: seq<Json>, n: nat): seq<Json>
    requires n <= |raw|
  {
    if n == 0 then [] else Frontier(raw, n - 1) + Observed(raw[n - 1])
  }

  /** The entry at `i` directly follows a decision that nothing has resolved yet. */
  predicate AfterDecision(raw: seq<Json>, i: nat)
    requires i <= |raw|
  {
    i > 0 && Is(raw[i - 1], DECISION)
  }

  predicate ObservationsBound(h: Hasher, p: Object) {
    Get(p, Key.Observations).Arr? &&
    Get(p, Key.ObservationsSha256) == Str(FrontierSha(h, Get(p, Key.Observations).items))
  }

  predicate FrontierBound(h: Hasher, raw: seq<Json>, i: nat)
    requires i < |raw|
  {
    Get(PayloadOf(raw[i]), Key.ObservationFrontierSha256) == Str(FrontierSha(h, Frontier(raw, i)))
  }

  /** Entry `i` may stand where it stands and commits to what it must commit to. */
  predicate PlacedAt(h: Hasher, raw: seq<Json>, i: nat)
    requires i < |raw|
  {
    var p := PayloadOf(raw[i]);
    if i == 0 then
      Is(raw[i], EPISODE_START) && Get(p, Key.HostTaskCommitment).IsString()
        && Get(p, Key.AgentTaskViewSha256).IsString()
    else
      && !Is(raw[i - 1], TERMINAL)
      && (|| (Is(raw[i], OBSERVATION_BATCH) && !AfterDecision(raw, i) && ObservationsBound(h, p))
          || (Is(raw[i], DECISION) && !AfterDecision(raw, i) && Get(p, Key.Decision).Obj? && FrontierBound(h, raw, i))
          || (Is(raw[i], ACTION_RESULT) && AfterDecision(raw, i) && ObservationsBound(h, p)
              && Get(p, Key.DecisionEntryHash) == Str(HashBefore(raw, i)))
          || (Is(raw[i], TERMINAL) && FrontierBound(h, raw, i)
              && Get(p, Key.CausedByDecisionEntryHash)
                 == (if AfterDecision(raw, i) then Str(HashBefore(raw, i)) else Null)))
  }

  ghost predicate Placed(h: Hasher, raw: seq<Json>) {
    forall i :: 0 <= i < |raw| ==> PlacedAt(h, raw, i)
  }

  function Entries(document: Object): seq<Json> {
    var es := Get(document, Key.Entries);
    if es.Arr? then es.items else []
  }

  /** A complete history: linked, well placed, and closed by a terminal receipt. */
  ghost predicate Complete(h: Hasher, raw: seq<Json>) {
    && raw != []
    && Linked(h, raw)
    && Placed(h, raw)
    && Is(raw[|raw| - 1], TERMINAL)
  }

  ghost predicate Accepts(h: Hasher, document: Object) {
    var raw := Entries(document);
    && Get(document, Key.Format) == Fixed(LEDGER_FORMAT)
    && EqualsInt(Get(document, Key.EntryCount), |raw|)
    && Complete(h, raw)
    && Get(document, Key.RootSha256) == Str(HashOf(raw[|raw| - 1]))
  }

  /** `verify_ledger_document` */
  method VerifyLedgerDocument(h: Hasher, document: Object) returns (ok: bool)
    ensures ok <==> Accepts(h, document)
  {
    if Get(document, Key.Format) != Fixed(LEDGER_FORMAT) { return false; }
    var entriesRaw := Get(document, Key.Entries);
    if !entriesRaw.Arr? || entriesRaw.items == [] { return false; }
    if !EqualsInt(Get(document, Key.EntryCount), |entriesRaw.items|) { return false; }
    var complete, lastHash := VerifyEntries(h, entriesRaw.items);
    return complete && Get(document, Key.RootSha256) == Str(lastHash);
  }

  /** The verifier's loop: one pass, keeping the running hash, the observations so far, the
      unresolved decision and whether the terminal receipt has been seen. */
  method VerifyEntries(h: Hasher, raw: seq<Json>) returns (ok: bool, lastHash: string)
    requires raw != []
    ensures ok <==> Complete(h, raw)
    ensures ok ==> lastHash == HashOf(raw[|raw| - 1])
  {
    hide LinkedAt, PlacedAt, Is, HashOf, KindOf, Observed;
    var previousHash := ZERO_HASH;
    var frontier: seq<Json> := [];
    var pending: Option<string> := None;
    var terminalSeen := false;
    var index := 0;
    while index < |raw|
      invariant index <= |raw|
      invariant previousHash == HashBefore(raw, index)
      invariant frontier == Frontier(raw, index)
      invariant pending == if AfterDecision(raw, index) then Some(HashBefore(raw, index)) else None
      invariant terminalSeen == (index > 0 && Is(raw[index - 1], TERMINAL))
      invariant forall i :: 0 <= i < index ==> LinkedAt(h, raw, i) && PlacedAt(h, raw, i)
    {
      var accepted := EntryAccepted(h, raw, index, previousHash, frontier, pending, terminalSeen);
      if !accepted { return false, ""; }
      frontier := frontier + Observed(raw[index]);
      pending := if Is(raw[index], DECISION) then Some(HashOf(raw[index])) else None;
      terminalSeen := Is(raw[index], TERMINAL);
      previousHash := HashOf(raw[index]);
      index := index + 1;
    }
    return terminalSeen, previousHash;
  }

  /** The checks of one turn of the verifier's loop, stated on the loop's own variables. */
  method EntryAccepted(h: Hasher, raw: seq<Json>, index: nat, previousHash: string, frontier: seq<Json>,
                       pending: Option<string>, terminalSeen: bool)
    returns (ok: bool)
    requires index < |raw|
    requires previousHash == HashBefore(raw, index)
    requires frontier == Frontier(raw, index)
    requires pending == if AfterDecision(raw, index) then Some(HashBefore(raw, index)) else None
    requires terminalSeen == (index > 0 && Is(raw[index - 1], TERMINAL))
    ensures ok <==> LinkedAt(h, raw, index) && PlacedAt(h, raw, index)
  {
    if !raw[index].Obj? { return false; }
    var entry := raw[index].fields;
    if !EqualsInt(Get(entry, Key.Index), index) { return false; }
    var kindRaw, payloadRaw := Get(entry, Key.Kind), Get(entry, Key.Payload);
    if !kindRaw.IsString() || !payloadRaw.Obj? { return false; }
    var payload := payloadRaw.fields;
    if Get(entry, Key.PreviousHash) != Str(previousHash) { return false; }
    var payloadSha := h(payloadRaw);
    if Get(entry, Key.PayloadSha256) != Str(payloadSha) { return false; }
    var expectedHash := ChainHash(h, index, kindRaw, previousHash, payloadSha);
    if Get(entry, Key.EntryHash) != Str(expectedHash) { return false; }
    if terminalSeen { return false; }
    if index == 0 {
      return kindRaw == Fixed(EPISODE_START) && Get(payload, Key.HostTaskCommitment).IsString()
          && Get(payload, Key.AgentTaskViewSha256).IsString();
    } else if kindRaw == Fixed(OBSERVATION_BATCH) {
      if pending.Some? { return false; }
      var observations := Get(payload, Key.Observations);
      return observations.Arr? && Get(payload, Key.ObservationsSha256) == Str(FrontierSha(h, observations.items));
    } else if kindRaw == Fixed(DECISION) {
      if pending.Some? || !Get(payload, Key.Decision).Obj? { return false; }
      return Get(payload, Key.ObservationFrontierSha256) == Str(FrontierSha(h, frontier));
    } else if kindRaw == Fixed(ACTION_RESULT) {
      if pending.None? || Get(payload, Key.DecisionEntryHash) != Str(pending.value) { return false; }
      var observations := Get(payload, Key.Observations);
      return observations.Arr? && Get(payload, Key.ObservationsSha256) == Str(FrontierSha(h, observations.items));
    } else if kindRaw == Fixed(TERMINAL) {
      if Get(payload, Key.ObservationFrontierSha256) != Str(FrontierSha(h, frontier)) { return false; }
      var cause := Get(payload, Key.CausedByDecisionEntryHash);
      return if pending.Some? then cause == Str(pending.value) else cause == Null;
    } else {
      return false;
    }
  }

  // ----- The shape of an accepted history -----

  function Kinds(raw: seq<Json>): seq<Json> {
    seq(|raw|, i requires 0 <= i < |raw| => KindOf(raw[i]))
  }

  /** (OBSERVATION_BATCH | DECISION ACTION_RESULT)* [DECISION] */
  predicate Body(kinds: seq<Json>) {
    || kinds == []
    || kinds == [Fixed(DECISION)]
    || (kinds[0] == Fixed(OBSERVATION_BATCH) && Body(kinds[1..]))
    || (|kinds| >= 2 && kinds[0] == Fixed(DECISION) && kinds[1] == Fixed(ACTION_RESULT) && Body(kinds[2..]))
  }

  lemma {:induction false} BodyOfTail(h: Hasher, raw: seq<Json>, i: nat)
    requires Placed(h, raw) && 0 < i < |raw|
    requires Is(raw[|raw| - 1], TERMINAL)
    requires !Is(raw[i - 1], DECISION)
    ensures Body(Kinds(raw)[i..|raw| - 1])
    decreases |raw| - i
  {
    var n := |raw| - 1;
    if i < n {
      var kinds := Kinds(raw)[i..n];
      assert PlacedAt(h, raw, i) && PlacedAt(h, raw, i + 1);
      if kinds[0] == Fixed(OBSERVATION_BATCH) {
        BodyOfTail(h, raw, i + 1);
        assert kinds[1..] == Kinds(raw)[i + 1..n];
      } else if i + 1 < n {
        assert PlacedAt(h, raw, i + 2);
        BodyOfTail(h, raw, i + 2);
        assert kinds[2..] == Kinds(raw)[i + 2..n];
      } else {
        assert kinds == [Fixed(DECISION)];
      }
    }
  }

  /** An accepted ledger reads EPISODE_START (OBSERVATION_BATCH | DECISION ACTION_RESULT)* [DECISION] TERMINAL. */
  lemma AcceptedGrammar(h: Hasher, document: Object)
    requires Accepts(h, document)
    ensures var kinds := Kinds(Entries(document));
      && |kinds| >= 2
      && kinds[0] == Fixed(EPISODE_START) && kinds[|kinds| - 1] == Fixed(TERMINAL)
      && Body(kinds[1..|kinds| - 1])
  {
    var raw := Entries(document);
    assert PlacedAt(h, raw, 0);
    BodyOfTail(h, raw, 1);
  }

  /** What entry `i` commits to, by its kind alone. */
  ghost predicate Commits(h: Hasher, raw: seq<Json>, i: nat)
    requires i < |raw|
  {
    var p, kind := PayloadOf(raw[i]), KindOf(raw[i]);
    && (kind == Fixed(EPISODE_START) ==>
          Get(p, Key.HostTaskCommitment).IsString() && Get(p, Key.AgentTaskViewSha256).IsString())
    && (kind == Fixed(OBSERVATION_BATCH) || kind == Fixed(ACTION_RESULT) ==>
          Get(p, Key.Observations).Arr? && Get(p, Key.ObservationsSha256) == Str(h(Get(p, Key.Observations))))
    && (kind == Fixed(DECISION) ==> Get(p, Key.Decision).Obj?)
    && (kind == Fixed(DECISION) || kind == Fixed(TERMINAL) ==>
          Get(p, Key.ObservationFrontierSha256) == Str(h(Arr(Frontier(raw, i)))))
    && (kind == Fixed(ACTION_RESULT) && i > 0 ==>
          Get(p, Key.DecisionEntryHash) == Get(Fields(raw[i - 1]), Key.EntryHash))
    && (kind == Fixed(TERMINAL) && i > 0 ==>
          Get(p, Key.CausedByDecisionEntryHash)
          == if Is(raw[i - 1], DECISION) then Get(Fields(raw[i - 1]), Key.EntryHash) else Null)
  }

  ghost predicate AllCommit(h: Hasher, raw: seq<Json>) {
    forall i :: 0 <= i < |raw| ==> Commits(h, raw, i)
  }

  lemma EntryHashIs(h: Hasher, raw: seq<Json>, i: nat)
    requires Linked(h, raw) && 0 < i <= |raw|
    ensures Get(Fields(raw[i - 1]), Key.EntryHash) == Str(HashBefore(raw, i))
  {
    assert LinkedAt(h, raw, i - 1);
  }

  lemma PlacedCommits(h: Hasher, raw: seq<Json>, i: nat)
    requires Linked(h, raw) && i < |raw| && PlacedAt(h, raw, i)
    ensures Commits(h, raw, i)
  {
    hide Frontier, LinkedAt, HashBefore;
    if i > 0 { EntryHashIs(h, raw, i); }
  }

  /** A well-formed body is placed as the verifier wants it. */
  lemma {:induction false} BodyPlaces(h: Hasher, raw: seq<Json>, i: nat)
    requires Linked(h, raw) && AllCommit(h, raw) && 0 < i < |raw|
    requires Is(raw[|raw| - 1], TERMINAL) && Body(Kinds(raw)[i..|raw| - 1])
    requires !Is(raw[i - 1], DECISION) && !Is(raw[i - 1], TERMINAL)
    ensures forall j :: i <= j < |raw| ==> PlacedAt(h, raw, j)
    decreases |raw| - i
  {
    hide Commits, PlacedAt, LinkedAt;
    var n, kinds := |raw| - 1, Kinds(raw)[i..|raw| - 1];
    if kinds == [] {
      CommitsPlace(h, raw, n);
    } else if kinds[0] == Fixed(OBSERVATION_BATCH) {
      CommitsPlace(h, raw, i);
      assert kinds[1..] == Kinds(raw)[i + 1..n];
      BodyPlaces(h, raw, i + 1);
    } else if |kinds| == 1 {
      CommitsPlace(h, raw, i);
      CommitsPlace(h, raw, n);
    } else {
      CommitsPlace(h, raw, i);
      CommitsPlace(h, raw, i + 1);
      assert kinds[2..] == Kinds(raw)[i + 2..n];
      BodyPlaces(h, raw, i + 2);
    }
  }

  lemma CommitsPlace(h: Hasher, raw: seq<Json>, i: nat)
    requires Linked(h, raw) && AllCommit(h, raw) && 0 < i < |raw| && !Is(raw[i - 1], TERMINAL)
    requires
      || Is(raw[i], TERMINAL)
      || (!Is(raw[i - 1], DECISION) && (Is(raw[i], OBSERVATION_BATCH) || Is(raw[i], DECISION)))
      || (Is(raw[i - 1], DECISION) && Is(raw[i], ACTION_RESULT))
    ensures PlacedAt(h, raw, i)
  {
    hide Frontier, LinkedAt, HashBefore;
    EntryHashIs(h, raw, i);
    assert Commits(h, raw, i);
  }

  /** A document is accepted if and only if it is a linked chain of its stated length and root that
      reads by the grammar, and every entry commits to what its kind calls for: a batch to its
      observations, a decision and the receipt to all observations before them, a result to the decision
      right before it, and the receipt to that decision exactly when it is unresolved. */
  lemma AcceptedIsAttested(h: Hasher, document: Object)
    ensures var raw, kinds := Entries(document), Kinds(Entries(document));
      Accepts(h, document) <==>
        && Get(document, Key.Format) == Fixed(LEDGER_FORMAT)
        && EqualsInt(Get(document, Key.EntryCount), |raw|)
        && Linked(h, raw) && AllCommit(h, raw)
        && |kinds| >= 2 && kinds[0] == Fixed(EPISODE_START) && kinds[|kinds| - 1] == Fixed(TERMINAL)
        && Body(kinds[1..|kinds| - 1])
        && Get(document, Key.RootSha256) == Get(Fields(raw[|raw| - 1]), Key.EntryHash)
  {
    hide LinkedAt, PlacedAt, Commits, Body;
    var raw, kinds := Entries(document), Kinds(Entries(document));
    if raw != [] && Linked(h, raw) { EntryHashIs(h, raw, |raw|); }
    if Accepts(h, document) {
      AcceptedGrammar(h, document);
      forall i | 0 <= i < |raw| ensures Commits(h, raw, i) { PlacedCommits(h, raw, i); }
    }
    if Linked(h, raw) && AllCommit(h, raw) && |kinds| >= 2 && kinds[0] == Fixed(EPISODE_START)
       && kinds[|kinds| - 1] == Fixed(TERMINAL) && Body(kinds[1..|kinds| - 1])
    {
      BodyPlaces(h, raw, 1);
      StartPlaces(h, raw);
    }
  }

  lemma StartPlaces(h: Hasher, raw: seq<Json>)
    requires AllCommit(h, raw) && raw != [] && Is(raw[0], EPISODE_START)
    ensures PlacedAt(h, raw, 0)
  {
    assert Commits(h, raw, 0);
  }

  lemma AcceptedNonEmpty(h: Hasher, document: Object)
    requires Accepts(h, document)
    ensures Entries(document) != []
  {
  }

  /** The root of an accepted ledger fixes all of it, unless something hashed in the two collides. */
  lemma RootFixesLedger(h: Hasher, a: Object, b: Object)
    requires NoCollisionAmong(h, Preimages(h, Entries(a)) + Preimages(h, Entries(b)))
    requires Accepts(h, a) && Accepts(h, b)
    requires Get(a, Key.RootSha256) == Get(b, Key.RootSha256)
    ensures |Entries(a)| == |Entries(b)|
    ensures forall k {:trigger SameEntry(Entries(a)[k], Entries(b)[k])} ::
      0 <= k < |Entries(a)| ==> SameEntry(Entries(a)[k], Entries(b)[k])
  {
    RootCommits(h, Entries(a), Entries(b));
  }

  // ----- The writer -----

  function StartPayload(viewSha: string, hostCommitment: string): Object {
    map[Key.AgentTaskViewSha256 := Str(viewSha), Key.HostTaskCommitment := Str(hostCommitment)]
  }

  function BatchPayload(h: Hasher, observations: seq<Json>, phase: Word): Object {
    map[Key.Phase := Fixed(phase), Key.Observations := Arr(observations),
        Key.ObservationsSha256 := Str(FrontierSha(h, observations))]
  }

  function DecisionPayload(h: Hasher, decision: Object, visible: seq<Json>): Object {
    map[Key.Decision := Obj(decision), Key.ObservationFrontierSha256 := Str(FrontierSha(h, visible))]
  }

  function ResultPayload(h: Hasher, decisionHash: string, action: string, observations: seq<Json>, done: bool,
                         acceptedCandidate: Option<bool>, candidateSha: Option<string>): Object
  {
    var base: Object := map[
      Key.DecisionEntryHash := Str(decisionHash), Key.Action := Str(action), Key.Done := Bool(done),
      Key.AcceptedCandidate := (if acceptedCandidate.Some? then Bool(acceptedCandidate.value) else Null),
      Key.Observations := Arr(observations), Key.ObservationsSha256 := Str(FrontierSha(h, observations))];
    if candidateSha.Some? then base[Key.CandidateSha256 := Str(candidateSha.value)] else base
  }

  function TerminalPayload(h: Hasher, reason: Word, semanticValid: bool, provenanceValid: bool,
                           budgetExhausted: bool, observations: seq<Json>, cause: Option<string>): Object
  {
    var base: Object := map[
      Key.TerminalReason := Fixed(reason), Key.SemanticValid := Bool(semanticValid),
      Key.ProvenanceValid := Bool(provenanceValid), Key.BudgetExhausted := Bool(budgetExhausted),
      Key.ObservationFrontierSha256 := Str(FrontierSha(h, observations))];
    if cause.Some? then base[Key.CausedByDecisionEntryHash := Str(cause.value)] else base
  }

  function Document(entries: seq<Entry>): Object {
    map[Key.Format := Fixed(LEDGER_FORMAT), Key.RootSha256 := Str(Root(entries)),
        Key.EntryCount := Int(|entries|), Key.Entries := Arr(ToRaw(entries))]
  }

  class TrajectoryLedger {
    const h: Hasher
    var entries: seq<Entry>

    ghost predicate Valid() reads this {
      Chained(h, entries)
    }

    constructor (h: Hasher, viewSha: string, hostCommitment: string)
      ensures Valid() && this.h == h
      ensures entries == Append(h, [], EPISODE_START, StartPayload(viewSha, hostCommitment))
    {
      this.h := h;
      this.entries := [];
      new;
      var _ := AppendEntry(EPISODE_START, StartPayload(viewSha, hostCommitment));
    }

    method AppendEntry(kind: Word, payload: Object) returns (entry: Entry)
      requires Valid()
      modifies this
      ensures Valid()
      ensures entries == Append(h, old(entries), kind, payload)
      ensures entries != [] && entry == entries[|entries| - 1] && entry.entryHash == Root(entries)
    {
      var previousHash := Root(entries);
      var index := |entries|;
      var payloadSha := h(Obj(payload));
      var entryHash := ChainHash(h, index, Fixed(kind), previousHash, payloadSha);
      entry := Entry(index, kind, previousHash, payloadSha, payload, entryHash);
      AppendChained(h, entries, kind, payload);
      entries := entries + [entry];
    }

    method RecordObservationBatch(observations: seq<Json>, phase: Word)
      requires Valid()
      modifies this
      ensures Valid() && entries == Append(h, old(entries), OBSERVATION_BATCH, BatchPayload(h, observations, phase))
    {
      var _ := AppendEntry(OBSERVATION_BATCH, BatchPayload(h, observations, phase));
    }

    method RecordDecision(decision: Object, visible: seq<Json>) returns (entry: Entry)
      requires Valid()
      modifies this
      ensures Valid() && entries == Append(h, old(entries), DECISION, DecisionPayload(h, decision, visible))
      ensures entries != [] && entry == entries[|entries| - 1] && entry.entryHash == Root(entries)
    {
      entry := AppendEntry(DECISION, DecisionPayload(h, decision, visible));
    }

    method RecordActionResult(decisionHash: string, action: string, observations: seq<Json>, done: bool,
                              acceptedCandidate: Option<bool>, candidateSha: Option<string>)
      requires Valid()
      modifies this
      ensures Valid()
      ensures entries == Append(h, old(entries), ACTION_RESULT,
        ResultPayload(h, decisionHash, action, observations, done, acceptedCandidate, candidateSha))
    {
      var _ := AppendEntry(ACTION_RESULT,
        ResultPayload(h, decisionHash, action, observations, done, acceptedCandidate, candidateSha));
    }

    method RecordTerminal(reason: Word, semanticValid: bool, provenanceValid: bool, budgetExhausted: bool,
                          observations: seq<Json>, cause: Option<string>)
      requires Valid()
      modifies this
      ensures Valid()
      ensures entries == Append(h, old(entries), TERMINAL,
        TerminalPayload(h, reason, semanticValid, provenanceValid, budgetExhausted, observations, cause))
    {
      var _ := AppendEntry(TERMINAL,
        TerminalPayload(h, reason, semanticValid, provenanceValid, budgetExhausted, observations, cause));
    }

    method ToDocument() returns (document: Object)
      requires Valid()
      ensures document == Document(entries)
    {
      document := Document(entries);
    }
  }

  // ----- Writing keeps the placement rules -----

  lemma {:induction false} FrontierStable(raw: seq<Json>, longer: seq<Json>, n: nat)
    requires raw <= longer && n <= |raw|
    ensures Frontier(raw, n) == Frontier(longer, n)
  {
    if n > 0 { FrontierStable(raw, longer, n - 1); }
  }

  lemma PlacedStable(h: Hasher, raw: seq<Json>, longer: seq<Json>, i: nat)
    requires raw <= longer && i < |raw|
    ensures PlacedAt(h, raw, i) <==> PlacedAt(h, longer, i)
  {
    FrontierStable(raw, longer, i);
    assert longer[i] == raw[i];
    assert i > 0 ==> longer[i - 1] == raw[i - 1];
  }

  /** Appending one well-placed entry keeps a well-placed history well placed. */
  lemma AppendPlaced(h: Hasher, entries: seq<Entry>, kind: Word, payload: Object)
    requires Placed(h, ToRaw(entries))
    requires PlacedAt(h, ToRaw(Append(h, entries, kind, payload)), |entries|)
    ensures Placed(h, ToRaw(Append(h, entries, kind, payload)))
  {
    var raw, longer := ToRaw(entries), ToRaw(Append(h, entries, kind, payload));
    assert raw <= longer;
    forall i | 0 <= i < |raw| ensures PlacedAt(h, longer, i) {
      PlacedStable(h, raw, longer, i);
    }
  }

  lemma DocumentSays(entries: seq<Entry>)
    ensures var document := Document(entries);
      && Entries(document) == ToRaw(entries)
      && Get(document, Key.Format) == Fixed(LEDGER_FORMAT) && Get(document, Key.EntryCount) == Int(|entries|)
      && Get(document, Key.RootSha256) == Str(Root(entries))
  {
    hide ToRaw;
  }

  /** A written history that is well placed and ends with its receipt is accepted. */
  lemma WrittenIsAccepted(h: Hasher, entries: seq<Entry>)
    requires Chained(h, entries) && Placed(h, ToRaw(entries))
    requires entries != [] && entries[|entries| - 1].kind == TERMINAL
    ensures Accepts(h, Document(entries))
  {
    hide LinkedAt, PlacedAt, ToJson, KindOf, HashOf, NextEntry;
    DocumentSays(entries);
    ToJsonFields(entries[|entries| - 1]);
    ChainedIsLinked(h, entries);
  }

  /** An open history whose observations so far are `frontier`, with a decision still
      unresolved exactly when `pending`. */
  ghost predicate Recording(h: Hasher, entries: seq<Entry>, frontier: seq<Json>, pending: bool) {
    && entries != []
    && Chained(h, entries)
    && Placed(h, ToRaw(entries))
    && Frontier(ToRaw(entries), |entries|) == frontier
    && entries[|entries| - 1].kind != TERMINAL
    && (entries[|entries| - 1].kind == DECISION <==> pending)
  }

  lemma AppendShape(h: Hasher, entries: seq<Entry>, kind: Word, payload: Object)
    requires entries != []
    ensures var longer, n := ToRaw(Append(h, entries, kind, payload)), |entries|;
      && |longer| == n + 1
      && longer[n] == ToJson(NextEntry(h, entries, kind, payload))
      && KindOf(longer[n]) == Fixed(kind) && PayloadOf(longer[n]) == payload
      && KindOf(longer[n - 1]) == Fixed(entries[n - 1].kind)
      && HashBefore(longer, n) == Root(entries)
      && Frontier(longer, n) == Frontier(ToRaw(entries), n)
      && Frontier(longer, n + 1) == Frontier(ToRaw(entries), n) + Observed(longer[n])
  {
    var raw, longer, n := ToRaw(entries), ToRaw(Append(h, entries, kind, payload)), |entries|;
    ToJsonFields(NextEntry(h, entries, kind, payload));
    ToJsonFields(entries[n - 1]);
    assert longer[n - 1] == ToJson(entries[n - 1]);
    FrontierStable(raw, longer, n);
  }

  lemma StartRecording(h: Hasher, viewSha: string, hostCommitment: string)
    ensures Recording(h, Append(h, [], EPISODE_START, StartPayload(viewSha, hostCommitment)), [], false)
  {
    hide NextEntry, ToJson, KindOf, PayloadOf, Chained;
    var entries := Append(h, [], EPISODE_START, StartPayload(viewSha, hostCommitment));
    FirstEntry(h, EPISODE_START, StartPayload(viewSha, hostCommitment));
    var raw := ToRaw(entries);
    assert Frontier(raw, 1) == Frontier(raw, 0) + Observed(raw[0]);
  }

  /** Appending keeps a history open as long as the new entry is well placed. */
  lemma AppendRecording(h: Hasher, entries: seq<Entry>, frontier: seq<Json>, pending: bool, kind: Word, payload: Object)
    requires Recording(h, entries, frontier, pending)
    requires PlacedAt(h, ToRaw(Append(h, entries, kind, payload)), |entries|)
    requires kind != TERMINAL
    ensures Recording(h, Append(h, entries, kind, payload),
                      frontier + Observed(ToJson(NextEntry(h, entries, kind, payload))), kind == DECISION)
  {
    hide PlacedAt, LinkedAt, Observed;
    AppendShape(h, entries, kind, payload);
    AppendChained(h, entries, kind, payload);
    AppendPlaced(h, entries, kind, payload);
  }

  lemma BatchPlaced(h: Hasher, raw: seq<Json>, i: nat, observations: seq<Json>, phase: Word)
    requires 0 < i < |raw| && Is(raw[i], OBSERVATION_BATCH) && !Is(raw[i - 1], DECISION) && !Is(raw[i - 1], TERMINAL)
    requires PayloadOf(raw[i]) == BatchPayload(h, observations, phase)
    ensures PlacedAt(h, raw, i) && Observed(raw[i]) == observations
  {
    hide HashBefore, Frontier, FrontierSha;
  }

  lemma BatchRecording(h: Hasher, entries: seq<Entry>, frontier: seq<Json>, observations: seq<Json>, phase: Word)
    requires Recording(h, entries, frontier, false)
    ensures Recording(h, Append(h, entries, OBSERVATION_BATCH, BatchPayload(h, observations, phase)),
                      frontier + observations, false)
  {
    hide LinkedAt, PlacedAt, BatchPayload, Observed;
    var p := BatchPayload(h, observations, phase);
    AppendShape(h, entries, OBSERVATION_BATCH, p);
    BatchPlaced(h, ToRaw(Append(h, entries, OBSERVATION_BATCH, p)), |entries|, observations, phase);
    AppendRecording(h, entries, frontier, false, OBSERVATION_BATCH, p);
  }

  lemma DecisionPlaced(h: Hasher, raw: seq<Json>, i: nat, decision: Object)
    requires 0 < i < |raw| && Is(raw[i], DECISION) && !Is(raw[i - 1], DECISION) && !Is(raw[i - 1], TERMINAL)
    requires PayloadOf(raw[i]) == DecisionPayload(h, decision, Frontier(raw, i))
    ensures PlacedAt(h, raw, i) && Observed(raw[i]) == []
  {
    hide HashBefore, Frontier, FrontierSha;
  }

  lemma DecisionRecording(h: Hasher, entries: seq<Entry>, frontier: seq<Json>, decision: Object)
    requires Recording(h, entries, frontier, false)
    ensures Recording(h, Append(h, entries, DECISION, DecisionPayload(h, decision, frontier)), frontier, true)
  {
    hide LinkedAt, PlacedAt, DecisionPayload, Observed;
    var p := DecisionPayload(h, decision, frontier);
    AppendShape(h, entries, DECISION, p);
    DecisionPlaced(h, ToRaw(Append(h, entries, DECISION, p)), |entries|, decision);
    AppendRecording(h, entries, frontier, false, DECISION, p);
    assert frontier + [] == frontier;
  }

  lemma ResultPlaced(h: Hasher, raw: seq<Json>, i: nat, action: string, observations: seq<Json>,
                     done: bool, acceptedCandidate: Option<bool>, candidateSha: Option<string>)
    requires 0 < i < |raw| && Is(raw[i], ACTION_RESULT) && Is(raw[i - 1], DECISION)
    requires PayloadOf(raw[i])
      == ResultPayload(h, HashBefore(raw, i), action, observations, done, acceptedCandidate, candidateSha)
    ensures PlacedAt(h, raw, i) && Observed(raw[i]) == observations
  {
    hide HashBefore, Frontier, FrontierSha;
  }

  lemma TerminalPlaced(h: Hasher, raw: seq<Json>, i: nat, reason: Word,
                       semanticValid: bool, provenanceValid: bool, budgetExhausted: bool)
    requires 0 < i < |raw| && Is(raw[i], TERMINAL) && !Is(raw[i - 1], TERMINAL)
    requires PayloadOf(raw[i])
      == TerminalPayload(h, reason, semanticValid, provenanceValid, budgetExhausted, Frontier(raw, i),
                         if Is(raw[i - 1], DECISION) then Some(HashBefore(raw, i)) else None)
    ensures PlacedAt(h, raw, i)
  {
    hide HashBefore, Frontier, FrontierSha;
  }

  lemma ResultRecording(h: Hasher, entries: seq<Entry>, frontier: seq<Json>, action: string, observations: seq<Json>,
                        done: bool, acceptedCandidate: Option<bool>, candidateSha: Option<string>)
    requires Recording(h, entries, frontier, true)
    ensures Recording(h, Append(h, entries, ACTION_RESULT,
      ResultPayload(h, Root(entries), action, observations, done, acceptedCandidate, candidateSha)),
      frontier + observations, false)
  {
    hide LinkedAt;
    var p := ResultPayload(h, Root(entries), action, observations, done, acceptedCandidate, candidateSha);
    hide PlacedAt, ResultPayload, Observed;
    AppendShape(h, entries, ACTION_RESULT, p);
    ResultPlaced(h, ToRaw(Append(h, entries, ACTION_RESULT, p)), |entries|, action, observations, done,
                 acceptedCandidate, candidateSha);
    AppendRecording(h, entries, frontier, true, ACTION_RESULT, p);
  }

  /** Closing an open history with a receipt that names the unresolved decision, if there is
      one, gives a document the verifier accepts. */
  lemma TerminalAccepted(h: Hasher, entries: seq<Entry>, frontier: seq<Json>, pending: bool, reason: Word,
                         semanticValid: bool, provenanceValid: bool, budgetExhausted: bool)
    requires Recording(h, entries, frontier, pending)
    ensures Accepts(h, Document(Append(h, entries, TERMINAL,
      TerminalPayload(h, reason, semanticValid, provenanceValid, budgetExhausted, frontier,
                      if pending then Some(Root(entries)) else None))))
  {
    hide LinkedAt;
    var p := TerminalPayload(h, reason, semanticValid, provenanceValid, budgetExhausted, frontier,
                             if pending then Some(Root(entries)) else None);
    hide PlacedAt, TerminalPayload;
    AppendShape(h, entries, TERMINAL, p);
    TerminalPlaced(h, ToRaw(Append(h, entries, TERMINAL, p)), |entries|, reason, semanticValid, provenanceValid,
                   budgetExhausted);
    AppendChained(h, entries, TERMINAL, p);
    AppendPlaced(h, entries, TERMINAL, p);
    WrittenIsAccepted(h, Append(h, entries, TERMINAL, p));
  }

  lemma RecordingNonEmpty(h: Hasher, entries: seq<Entry>, frontier: seq<Json>, pending: bool)
    requires Recording(h, entries, frontier, pending)
    ensures entries != []
  {
  }

  lemma DocumentEntries(entries: seq<Entry>)
    ensures Entries(Document(entries)) == ToRaw(entries)
  {
  }

  lemma NextEntrySays(h: Hasher, entries: seq<Entry>, kind: Word, payload: Object)
    ensures NextEntry(h, entries, kind, payload).kind == kind && NextEntry(h, entries, kind, payload).payload == payload
  {
  }

  lemma TerminalSays(h: Hasher, reason: Word, semanticValid: bool, provenanceValid: bool, budgetExhausted: bool,
                     observations: seq<Json>, cause: Option<string>)
    ensures var p := TerminalPayload(h, reason, semanticValid, provenanceValid, budgetExhausted, observations, cause);
      && Get(p, Key.ObservationFrontierSha256) == Str(FrontierSha(h, observations))
      && Get(p, Key.SemanticValid) == Bool(semanticValid) && Get(p, Key.ProvenanceValid) == Bool(provenanceValid)
  {
    hide FrontierSha;
  }

  lemma StartSays(viewSha: string, hostCommitment: string)
    ensures var p := StartPayload(viewSha, hostCommitment);
      Get(p, Key.AgentTaskViewSha256) == Str(viewSha) && Get(p, Key.HostTaskCommitment) == Str(hostCommitment)
  {
  }

  lemma ClosedEnds(h: Hasher, entries: seq<Entry>, payload: Object)
    requires entries != []
    ensures var raw := ToRaw(Append(h, entries, TERMINAL, payload));
      |raw| == |entries| + 1 && PayloadOf(raw[0]) == entries[0].payload && PayloadOf(raw[|entries|]) == payload
  {
    hide ToJson, NextEntry;
    ToJsonFields(entries[0]);
    ToJsonFields(NextEntry(h, entries, TERMINAL, payload));
    NextEntrySays(h, entries, TERMINAL, payload);
  }
}
