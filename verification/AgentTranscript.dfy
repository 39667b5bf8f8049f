/** The agent-boundary transcript (`gym/agent_transcript.py`): a second hash chain, written by
    the trusted controller, of what the agent was shown and what it answered. */
module AgentTranscript {
  import opened Json
  import opened HashChain
  import Ledger
  import opened Episode

  // ----- What an accepted transcript is -----

  predicate IsShaJson(v: Json) {
    v.Str? && IsSha256(v.s)
  }

  predicate IsDecisionWord(v: Json) {
    v.Fixed? && v.word in {SELECT, DEFER_TIE, DEFER_NO_SUPPORT, DEFER_NO_ADMISSIBLE, CALL_GENERATIVE}
  }

  /** A typed decision: a selection names an action, nothing else carries one. */
  predicate DecisionWellFormed(v: Json) {
    var d := Fields(v);
    && v.Obj? && d.Keys == {Key.Kind, Key.Action}
    && IsDecisionWord(Get(d, Key.Kind))
    && (if Get(d, Key.Kind) == Fixed(SELECT)
        then Get(d, Key.Action).IsString() && Get(d, Key.Action) != Str("")
        else Get(d, Key.Action) == Null)
  }

  function Generations(raw: seq<Json>, n: nat): nat
    requires n <= |raw|
  {
    if n == 0 then 0 else Generations(raw, n - 1) + (if Is(raw[n - 1], AGENT_GENERATION) then 1 else 0)
  }

  predicate StartOk(p: Object) {
    && p.Keys == {Key.SessionId, Key.AgentTaskViewSha256}
    && Get(p, Key.SessionId).IsString() && Get(p, Key.SessionId) != Str("")
    && IsShaJson(Get(p, Key.AgentTaskViewSha256))
  }

  predicate DecisionOk(p: Object, turn: nat) {
    && p.Keys == {Key.Turn, Key.ObservationFrontierSha256, Key.TrajectorySha256, Key.Decision}
    && EqualsInt(Get(p, Key.Turn), turn)
    && IsShaJson(Get(p, Key.ObservationFrontierSha256))
    && IsShaJson(Get(p, Key.TrajectorySha256))
    && DecisionWellFormed(Get(p, Key.Decision))
  }

  predicate GenerationOk(p: Object, turn: nat, attempt: nat) {
    && p.Keys == {Key.Turn, Key.ObservationFrontierSha256, Key.Attempt, Key.CandidateSha256}
    && EqualsInt(Get(p, Key.Turn), turn)
    && IsShaJson(Get(p, Key.ObservationFrontierSha256))
    && EqualsInt(Get(p, Key.Attempt), attempt)
    && IsShaJson(Get(p, Key.CandidateSha256))
  }

  /** A candidate answers the CALL_GENERATIVE decision right before it, on the same frontier. */
  predicate AnswersCall(previous: Json, p: Object) {
    && Is(previous, AGENT_DECISION)
    && Get(Fields(Get(PayloadOf(previous), Key.Decision)), Key.Kind) == Fixed(CALL_GENERATIVE)
    && Get(p, Key.ObservationFrontierSha256) == Get(PayloadOf(previous), Key.ObservationFrontierSha256)
  }

  predicate CloseOk(p: Object, start: Object) {
    && p.Keys == {Key.SessionId, Key.Closed}
    && Get(p, Key.Closed) == Bool(true)
    && Get(p, Key.SessionId) == Get(start, Key.SessionId)
  }

  predicate ShapeOk(v: Json) {
    && v.Obj?
    && v.fields.Keys == {Key.Index, Key.Kind, Key.PreviousHash, Key.PayloadSha256, Key.Payload, Key.EntryHash}
    && IsShaJson(Get(v.fields, Key.PayloadSha256)) && IsShaJson(Get(v.fields, Key.EntryHash))
  }

  /** Turns count the entries, attempts count the candidates, the close comes last. */
  predicate PlacedAt(raw: seq<Json>, i: nat)
    requires i < |raw|
  {
    var p := PayloadOf(raw[i]);
    if i == 0 then Is(raw[0], AGENT_START) && StartOk(p)
    else
      || (Is(raw[i], AGENT_DECISION) && DecisionOk(p, i))
      || (Is(raw[i], AGENT_GENERATION) && GenerationOk(p, i, Generations(raw, i) + 1) && AnswersCall(raw[i - 1], p))
      || (Is(raw[i], AGENT_CLOSE) && i == |raw| - 1 && CloseOk(p, PayloadOf(raw[0])))
  }

  predicate EntryOk(h: Hasher, raw: seq<Json>, i: nat)
    requires i < |raw|
  {
    ShapeOk(raw[i]) && LinkedAt(h, raw, i) && PlacedAt(raw, i)
  }

  ghost predicate Complete(h: Hasher, raw: seq<Json>) {
    && |raw| >= 2
    && (forall i :: 0 <= i < |raw| ==> EntryOk(h, raw, i))
    && Is(raw[|raw| - 1], AGENT_CLOSE)
  }

  ghost predicate Accepts(h: Hasher, document: Object) {
    var raw := Ledger.Entries(document);
    && document.Keys == {Key.Format, Key.RootSha256, Key.EntryCount, Key.Entries}
    && Get(document, Key.Format) == Fixed(TRANSCRIPT_FORMAT)
    && IsShaJson(Get(document, Key.RootSha256))
    && EqualsInt(Get(document, Key.EntryCount), |raw|)
    && Complete(h, raw)
    && Get(document, Key.RootSha256) == Str(HashOf(raw[|raw| - 1]))
  }

  /** `verify_agent_transcript_document` */
  method VerifyAgentTranscriptDocument(h: Hasher, document: Object) returns (ok: bool)
    ensures ok <==> Accepts(h, document)
  {
    hide Complete, EqualsInt, IsShaJson;
    if document.Keys != {Key.Format, Key.RootSha256, Key.EntryCount, Key.Entries} { return false; }
    if Get(document, Key.Format) != Fixed(TRANSCRIPT_FORMAT) { return false; }
    if !IsShaJson(Get(document, Key.RootSha256)) { return false; }
    var raw := Ledger.Entries(document);
    var complete, lastHash := VerifyEntries(h, raw);
    return complete && EqualsInt(Get(document, Key.EntryCount), |raw|)
        && Get(document, Key.RootSha256) == Str(lastHash);
  }

  /** The verifier's loop, with its running hash, next turn, next attempt and close flag. */
  method VerifyEntries(h: Hasher, raw: seq<Json>) returns (ok: bool, lastHash: string)
    ensures ok <==> Complete(h, raw)
    ensures ok ==> raw != [] && lastHash == HashOf(raw[|raw| - 1])
  {
    hide EntryOk, Is, HashOf;
    if |raw| < 2 { return false, ""; }
    var previousHash := ZERO_HASH;
    var expectedTurn, expectedAttempt := 1, 1;
    var closeSeen := false;
    var index := 0;
    while index < |raw|
      invariant index <= |raw|
      invariant previousHash == HashBefore(raw, index)
      invariant index > 0 ==> expectedTurn == index + (if closeSeen then -1 else 0)
      invariant index == 0 ==> expectedTurn == 1
      invariant expectedAttempt == Generations(raw, index) + 1
      invariant closeSeen == (index > 0 && Is(raw[index - 1], AGENT_CLOSE))
      invariant closeSeen ==> index == |raw|
      invariant forall i :: 0 <= i < index ==> EntryOk(h, raw, i)
    {
      var accepted := EntryAccepted(h, raw, index, previousHash, expectedTurn, expectedAttempt, closeSeen);
      if !accepted { return false, ""; }
      KindAt(h, raw, index);
      if Is(raw[index], AGENT_GENERATION) { expectedAttempt := expectedAttempt + 1; }
      if Is(raw[index], AGENT_DECISION) || Is(raw[index], AGENT_GENERATION) { expectedTurn := expectedTurn + 1; }
      closeSeen := Is(raw[index], AGENT_CLOSE);
      previousHash := HashOf(raw[index]);
      index := index + 1;
    }
    return closeSeen, previousHash;
  }

  lemma KindAt(h: Hasher, raw: seq<Json>, i: nat)
    requires i < |raw| && EntryOk(h, raw, i)
    ensures i == 0 ==> Is(raw[i], AGENT_START)
    ensures i > 0 ==> Is(raw[i], AGENT_DECISION) || Is(raw[i], AGENT_GENERATION) || Is(raw[i], AGENT_CLOSE)
    ensures Is(raw[i], AGENT_CLOSE) ==> i == |raw| - 1 && !Is(raw[i], AGENT_DECISION) && !Is(raw[i], AGENT_GENERATION)
    ensures Is(raw[i], AGENT_START) ==> !Is(raw[i], AGENT_DECISION) && !Is(raw[i], AGENT_GENERATION)
  {
    hide LinkedAt, ShapeOk, StartOk, DecisionOk, GenerationOk, CloseOk, AnswersCall;
  }

  method EntryAccepted(h: Hasher, raw: seq<Json>, index: nat, previousHash: string, expectedTurn: nat,
                       expectedAttempt: nat, closeSeen: bool)
    returns (ok: bool)
    requires index < |raw|
    requires previousHash == HashBefore(raw, index)
    requires index > 0 ==> expectedTurn == index
    requires expectedAttempt == Generations(raw, index) + 1
    requires !closeSeen
    ensures ok <==> EntryOk(h, raw, index)
  {
    hide StartOk, DecisionOk, GenerationOk, CloseOk, AnswersCall, Generations, HashBefore;
    if !ShapeOk(raw[index]) { return false; }
    var entry := raw[index].fields;
    if !EqualsInt(Get(entry, Key.Index), index) { return false; }
    var kind, payloadRaw := Get(entry, Key.Kind), Get(entry, Key.Payload);
    if !kind.IsString() || !payloadRaw.Obj? { return false; }
    if Get(entry, Key.PreviousHash) != Str(previousHash) { return false; }
    var payloadSha := h(payloadRaw);
    if Get(entry, Key.PayloadSha256) != Str(payloadSha) { return false; }
    if Get(entry, Key.EntryHash) != Str(ChainHash(h, index, kind, previousHash, payloadSha)) { return false; }
    if closeSeen { return false; }
    var payload := payloadRaw.fields;
    if index == 0 {
      return kind == Fixed(AGENT_START) && StartOk(payload);
    } else if kind == Fixed(AGENT_DECISION) {
      return DecisionOk(payload, expectedTurn);
    } else if kind == Fixed(AGENT_GENERATION) {
      return GenerationOk(payload, expectedTurn, expectedAttempt) && AnswersCall(raw[index - 1], payload);
    } else if kind == Fixed(AGENT_CLOSE) {
      return index == |raw| - 1 && CloseOk(payload, PayloadOf(raw[0]));
    } else {
      return false;
    }
  }

  /** The root of an accepted transcript fixes all of it, unless something hashed in the two collides. */
  lemma RootFixesTranscript(h: Hasher, a: Object, b: Object)
    requires NoCollisionAmong(h, Preimages(h, Ledger.Entries(a)) + Preimages(h, Ledger.Entries(b)))
    requires Accepts(h, a) && Accepts(h, b)
    requires Get(a, Key.RootSha256) == Get(b, Key.RootSha256)
    ensures |Ledger.Entries(a)| == |Ledger.Entries(b)|
    ensures forall k {:trigger SameEntry(Ledger.Entries(a)[k], Ledger.Entries(b)[k])} ::
      0 <= k < |Ledger.Entries(a)| ==> SameEntry(Ledger.Entries(a)[k], Ledger.Entries(b)[k])
  {
    hide NoCollisionAmong, Preimages, SameEntry, Complete;
    RootIsLast(h, a);
    RootIsLast(h, b);
    CompleteIsLinked(h, Ledger.Entries(a));
    CompleteIsLinked(h, Ledger.Entries(b));
    RootCommits(h, Ledger.Entries(a), Ledger.Entries(b));
  }

  lemma RootIsLast(h: Hasher, document: Object)
    requires Accepts(h, document)
    ensures var raw := Ledger.Entries(document);
      && raw != [] && Complete(h, raw) && Get(document, Key.RootSha256) == Str(HashOf(raw[|raw| - 1]))
  {
    hide Linked;
  }

  lemma CompleteIsLinked(h: Hasher, raw: seq<Json>)
    requires Complete(h, raw)
    ensures Linked(h, raw)
  {
    forall i | 0 <= i < |raw| ensures LinkedAt(h, raw, i) {
      assert EntryOk(h, raw, i);
    }
  }

  // ----- How an accepted transcript reads -----

  function GenerationsUpTo(raw: seq<Json>, n: nat): set<nat> {
    set i: nat | i < n && i < |raw| && Is(raw[i], AGENT_GENERATION)
  }

  lemma {:induction false} GenerationsCount(raw: seq<Json>, n: nat)
    requires n <= |raw|
    ensures Generations(raw, n) == |GenerationsUpTo(raw, n)|
  {
    hide Is;
    if n == 0 {
      assert GenerationsUpTo(raw, 0) == {};
    } else {
      var before := GenerationsUpTo(raw, n - 1);
      GenerationsCount(raw, n - 1);
      assert GenerationsUpTo(raw, n)
        == if Is(raw[n - 1], AGENT_GENERATION) then before + {n - 1} else before;
    }
  }

  /** A decision or a candidate and its turn; a candidate answers the call right before it, on the same
      frontier, and carries its own number. */
  ghost predicate TurnReads(raw: seq<Json>, i: nat)
    requires 0 < i < |raw|
  {
    var p, q := PayloadOf(raw[i]), PayloadOf(raw[i - 1]);
    && (Is(raw[i], AGENT_DECISION) || Is(raw[i], AGENT_GENERATION))
    && EqualsInt(Get(p, Key.Turn), i)
    && (Is(raw[i], AGENT_GENERATION) ==>
          && Is(raw[i - 1], AGENT_DECISION)
          && Get(Fields(Get(q, Key.Decision)), Key.Kind) == Fixed(CALL_GENERATIVE)
          && Get(p, Key.ObservationFrontierSha256) == Get(q, Key.ObservationFrontierSha256)
          && EqualsInt(Get(p, Key.Attempt), |GenerationsUpTo(raw, i + 1)|))
  }

  /** An accepted transcript opens a session, takes its turns one by one, and closes that session. */
  lemma AcceptedTranscriptReads(h: Hasher, document: Object)
    requires Accepts(h, document)
    ensures var raw := Ledger.Entries(document);
      && |raw| >= 2 && Linked(h, raw) && EqualsInt(Get(document, Key.EntryCount), |raw|)
      && Get(document, Key.RootSha256) == Get(Fields(raw[|raw| - 1]), Key.EntryHash)
      && Is(raw[0], AGENT_START) && Is(raw[|raw| - 1], AGENT_CLOSE)
      && Get(PayloadOf(raw[0]), Key.SessionId).IsString() && Get(PayloadOf(raw[0]), Key.SessionId) != Str("")
      && Get(PayloadOf(raw[|raw| - 1]), Key.SessionId) == Get(PayloadOf(raw[0]), Key.SessionId)
      && forall i :: 0 < i < |raw| - 1 ==> TurnReads(raw, i)
  {
    hide LinkedAt, ShapeOk, TurnReads, IsShaJson;
    var raw := Ledger.Entries(document);
    RootIsLast(h, document);
    CompleteIsLinked(h, raw);
    assert EntryOk(h, raw, 0) && EntryOk(h, raw, |raw| - 1);
    KindAt(h, raw, 0);
    Ledger.EntryHashIs(h, raw, |raw|);
    forall i | 0 < i < |raw| - 1 ensures TurnReads(raw, i) {
      assert EntryOk(h, raw, i);
      EntryReads(h, raw, i);
    }
  }

  lemma EntryReads(h: Hasher, raw: seq<Json>, i: nat)
    requires 0 < i < |raw| - 1 && EntryOk(h, raw, i)
    ensures TurnReads(raw, i)
  {
    hide LinkedAt, ShapeOk, IsShaJson, StartOk, CloseOk, DecisionWellFormed, GenerationsUpTo;
    var next := i + 1;
    KindAt(h, raw, i);
    GenerationsCount(raw, next);
    assert Is(raw[i], AGENT_GENERATION) ==> Generations(raw, next) == Generations(raw, i) + 1;
  }
}
