/** The memory of rejected episodes (`gym/negative_experience.py`): which decision a rejection is
    blamed on, how often, and how the least-rejected-first search uses the counts. */
module NegativeExperience {
  import opened Json
  import opened HashChain
  import Ledger
  import opened Evidence
  import opened Episode
  import opened Replay
  import opened Semantics

  // ----- The decision a rejection is blamed on -----

  datatype Blame = Blame(state: SemanticState, intent: Option<Intent>)

  /** The hash the ledger names as the cause of the end; a later entry overrides an earlier one. */
  function CauseIn(before: Option<string>, e: Entry): Option<string> {
    if e.kind == ACTION_RESULT && Get(e.payload, Key.Done) == Bool(true) && Get(e.payload, Key.DecisionEntryHash).Str?
    then Some(Get(e.payload, Key.DecisionEntryHash).s)
    else if e.kind == TERMINAL && Get(e.payload, Key.CausedByDecisionEntryHash).Str?
    then Some(Get(e.payload, Key.CausedByDecisionEntryHash).s)
    else before
  }

  function CauseOf(entries: seq<Entry>): Option<string> {
    if entries == [] then None else CauseIn(CauseOf(entries[..|entries| - 1]), entries[|entries| - 1])
  }

  function BlameOn(domain: string, s: Situation): Blame {
    Blame(Encode(domain, s.frontier), DecisionIntent(s.decision))
  }

  /** The last decision recorded under a hash. */
  function Deciding(domain: string, situations: seq<Situation>, hash: string): Option<Blame> {
    if situations == [] then None
    else
      var last := situations[|situations| - 1];
      if last.entryHash == hash then Some(BlameOn(domain, last))
      else Deciding(domain, situations[..|situations| - 1], hash)
  }

  function Blamed(domain: string, entries: seq<Entry>): Option<Blame> {
    var cause := CauseOf(entries);
    if cause.None? then None else Deciding(domain, Situations(entries), cause.value)
  }

  /** The dictionary of decisions by entry hash. */
  ghost predicate Indexed(domain: string, situations: seq<Situation>, decisions: map<string, Blame>) {
    forall hash :: Deciding(domain, situations, hash) == if hash in decisions then Some(decisions[hash]) else None
  }

  lemma NextIndexed(domain: string, situations: seq<Situation>, decisions: map<string, Blame>, s: Situation)
    requires Indexed(domain, situations, decisions)
    ensures Indexed(domain, situations + [s], decisions[s.entryHash := BlameOn(domain, s)])
  {
    hide BlameOn;
    assert (situations + [s])[..|situations|] == situations;
  }

  /** `_terminal_decision_experience` */
  method TerminalDecisionExperience(result: EpisodeResult) returns (blame: Option<Blame>)
    ensures blame == Blamed(result.domain, result.ledgerEntries)
  {
    hide Encode, DecisionIntent, Indexed;
    var entries := result.ledgerEntries;
    var frontier: seq<Json> := [];
    var decisions: map<string, Blame> := map[];
    var terminalCause: Option<string> := None;
    assert Indexed(result.domain, [], map[]) by { NothingIndexed(result.domain); }
    for i := 0 to |entries|
      invariant frontier == FrontierOf(entries[..i])
      invariant Indexed(result.domain, Situations(entries[..i]), decisions)
      invariant terminalCause == CauseOf(entries[..i])
    {
      var entry := entries[i];
      assert entries[..i + 1][..i] == entries[..i] && entries[..i + 1][i] == entry;
      assert Situations(entries[..i + 1]) == Situations(entries[..i]) + SituationOf(entries[..i], entry);
      if entry.kind == Word.DECISION {
        var situation := Situation(frontier, Get(entry.payload, Key.Decision), entry.entryHash);
        NextIndexed(result.domain, Situations(entries[..i]), decisions, situation);
        decisions := decisions[entry.entryHash := BlameOn(result.domain, situation)];
      } else {
        assert Situations(entries[..i]) + [] == Situations(entries[..i]);
        if entry.kind == OBSERVATION_BATCH || entry.kind == ACTION_RESULT {
          var observations := Get(entry.payload, Key.Observations);
          if observations.Arr? { frontier := frontier + observations.items; }
        }
        terminalCause := CauseIn(terminalCause, entry);
      }
    }
    assert entries[..|entries|] == entries;
    if terminalCause.None? { return None; }
    IndexedGives(result.domain, Situations(entries), decisions, terminalCause.value);
    return if terminalCause.value in decisions then Some(decisions[terminalCause.value]) else None;
  }

  lemma NothingIndexed(domain: string)
    ensures Indexed(domain, [], map[])
  {
  }

  lemma IndexedGives(domain: string, situations: seq<Situation>, decisions: map<string, Blame>, hash: string)
    requires Indexed(domain, situations, decisions)
    ensures Deciding(domain, situations, hash) == if hash in decisions then Some(decisions[hash]) else None
  {
  }

  // ----- In a gym's own ledger that decision is the last one -----

  /** The latest decision is the latest entry. */
  ghost predicate Pends(s: State) {
    var known := Situations(s.entries);
    known != [] && known[|known| - 1].entryHash == Root(s.entries)
  }

  ghost predicate EndsOnLastDecision(s: State) {
    s.end.Some? && s.end.value.reason.EnvironmentDone? ==>
      && s.end.value.cause.None?
      && Situations(s.entries) != []
      && CauseOf(s.entries) == Some(Situations(s.entries)[|Situations(s.entries)| - 1].entryHash)
  }

  lemma AskPends(w: World, s: State)
    ensures Pends(Ask(w, s))
  {
    hide ToDicts, FrontierOf, DecisionJson, Ledger.DecisionPayload;
    var p := Ledger.DecisionPayload(w.h, DecisionJson(w.policy(s.steps)), ToDicts(s.observations));
    NextEntryRead(w.h, s.entries, Word.DECISION, p);
  }

  lemma NextCause(h: Hasher, entries: seq<Entry>, kind: Word, payload: Object)
    ensures CauseOf(Append(h, entries, kind, payload))
      == CauseIn(CauseOf(entries), NextEntry(h, entries, kind, payload))
  {
    hide CauseIn;
    var longer := Append(h, entries, kind, payload);
    assert longer[..|longer| - 1] == entries;
  }

  lemma AnswerEnds(task: PublicTask, w: World, s: State, action: string, reply: StepReply, candidateSha: Option<string>)
    requires s.end.None? && Pends(s)
    ensures EndsOnLastDecision(Answer(task, w, s, action, reply, candidateSha))
  {
    hide ToDicts, FrontierOf, Ledger.ResultPayload, OverCost, Situations, CauseOf, Append, NextEntry, ObservedIn,
      SituationOf;
    if reply.Outcome? {
      var p := Ledger.ResultPayload(w.h, Root(s.entries), action, ToDicts(reply.observations), reply.done,
                                    reply.acceptedCandidate, candidateSha);
      var e := NextEntry(w.h, s.entries, ACTION_RESULT, p);
      NextEntryRead(w.h, s.entries, ACTION_RESULT, p);
      NextCause(w.h, s.entries, ACTION_RESULT, p);
      OtherRead(s.entries, e);
      ResultRead(w.h, Root(s.entries), action, ToDicts(reply.observations), reply.done, reply.acceptedCandidate,
                 candidateSha, e);
      assert Situations(s.entries) + [] == Situations(s.entries);
    }
  }

  lemma TurnEnds(task: PublicTask, w: World, s: State)
    requires s.end.None?
    ensures EndsOnLastDecision(TakeTurn(task, w, s))
  {
    hide Append, Answer, DecisionJson, ToDicts, Situations, CauseOf, Pends, Ledger.DecisionPayload;
    if s.steps < task.budget.maxSteps {
      AskPends(w, s);
      var decision, asked := w.policy(s.steps), Ask(w, s);
      var ruling := Rule(task, w, decision, |s.candidates|);
      if ruling.Act? {
        var drafted := if decision.kind.CallGenerative? then Draft(w, asked) else asked;
        assert Pends(drafted) by { DraftPends(w, asked); }
        AnswerEnds(task, w, drafted, ruling.action, w.host(s.steps), CandidateSha(w, drafted, decision));
      }
    }
  }

  lemma DraftPends(w: World, s: State)
    requires Pends(s)
    ensures w.generator.Some? ==> Pends(Draft(w, s))
  {
    hide Situations;
  }

  lemma {:induction false} PlayEndsOnLast(task: PublicTask, w: World, s: State)
    requires EndsOnLastDecision(s)
    ensures EndsOnLastDecision(Play(task, w, s))
    decreases Fuel(task, s)
  {
    hide EndsOnLastDecision, TakeTurn;
    if s.end.None? {
      TurnAdvances(task, w, s);
      TurnEnds(task, w, s);
      PlayEndsOnLast(task, w, TakeTurn(task, w, s));
    }
  }

  lemma LastDecides(domain: string, situations: seq<Situation>)
    requires situations != []
    ensures var last := situations[|situations| - 1];
      Deciding(domain, situations, last.entryHash) == Some(BlameOn(domain, last))
  {
  }

  /** When a run ends because its environment is done, the blame falls on its last decision, in
      the situation its policy faced when it made it. */
  lemma BlameIsTheLastChoice(task: PublicTask, w: World, bundlePasses: bool, hasSink: bool)
    requires Final(task, w).end.value.reason.EnvironmentDone?
    ensures var choices := Choices(Final(task, w).calls);
      choices != [] &&
      var last := choices[|choices| - 1];
      Blamed(task.domain, Receipt(task, w, Final(task, w), bundlePasses, hasSink).ledgerEntries)
        == Some(Blame(Encode(task.domain, ToDicts(last.observations)),
                      DecisionIntent(Obj(DecisionJson(last.decision)))))
  {
    hide Play, TakeTurn, Append, NextEntry, Situations, SituationOf, CauseOf, Choices, Encode, DecisionIntent, ToDicts,
      DecisionJson, Ledger.Accepts, BundleBinds, Admissible, Ledger.TerminalPayload, Deciding, ObservedIn, FrontierOf;
    var s := Final(task, w);
    PlayEndsOnLast(task, w, Begin(task, w));
    assert s == Play(task, w, Begin(task, w));
    var p := Ledger.TerminalPayload(w.h, ReasonWord(s.end.value.reason), SemanticallyValid(w, s),
                                    Admissible(s.observations),
      IsBudgetReason(s.end.value.reason), ToDicts(s.observations), s.end.value.cause);
    var e := NextEntry(w.h, s.entries, TERMINAL, p);
    NextEntryRead(w.h, s.entries, TERMINAL, p);
    NextCause(w.h, s.entries, TERMINAL, p);
    OtherRead(s.entries, e);
    UncausedTerminal(w.h, s, e, CauseOf(s.entries));
    assert Situations(s.entries) + [] == Situations(s.entries);
    LastDecides(task.domain, Situations(s.entries));
    ReplayIsFaithful(task, w, bundlePasses, hasSink);
    var situations, choices := Situations(s.entries), Choices(s.calls);
    assert Tells(situations[|situations| - 1], choices[|choices| - 1]);
  }

  lemma UncausedTerminal(h: Hasher, s: State, e: Entry, before: Option<string>)
    requires s.end.Some? && s.end.value.cause.None? && e.kind == TERMINAL
    requires exists r, a, b, c ::
      e.payload == Ledger.TerminalPayload(h, r, a, b, c, ToDicts(s.observations), s.end.value.cause)
    ensures CauseIn(before, e) == before
  {
  }

  // ----- The store -----

  type Counts = map<SemanticState, map<Intent, nat>>

  function Rejections(counts: Counts, state: SemanticState, intent: Intent): nat {
    if state in counts && intent in counts[state] then counts[state][intent] else 0
  }

  function OneMore(counts: Counts, state: SemanticState, intent: Intent): Counts {
    counts[state := (if state in counts then counts[state] else map[])[intent := Rejections(counts, state, intent) + 1]]
  }

  datatype NegativeReceipt = NegativeReceipt(
    taskId: string, ledgerRoot: string, state: SemanticState, intent: Intent, previous: nat, next: nat)

  function ReceiptsFor(receipts: seq<NegativeReceipt>, state: SemanticState, intent: Intent): nat {
    if receipts == [] then 0
    else
      var last := receipts[|receipts| - 1];
      ReceiptsFor(receipts[..|receipts| - 1], state, intent)
        + (if last.state == state && last.intent == intent then 1 else 0)
  }

  /** Every count is the number of receipts for its pair. */
  ghost predicate Tallied(counts: Counts, receipts: seq<NegativeReceipt>) {
    forall state, intent :: Rejections(counts, state, intent) == ReceiptsFor(receipts, state, intent)
  }

  lemma NextReceipt(counts: Counts, receipts: seq<NegativeReceipt>, r: NegativeReceipt)
    requires Tallied(counts, receipts)
    ensures Tallied(OneMore(counts, r.state, r.intent), receipts + [r])
  {
    assert (receipts + [r])[..|receipts|] == receipts;
  }

  datatype Observed = NotTrain | WasAccepted | Ignored | Recorded(receipt: NegativeReceipt)

  /** A rejection that is recorded: everything but the semantic verdict held, within budget, up to
      the environment's own end, and the blame falls on a known state and intent. */
  ghost predicate Recordable(h: Hasher, result: EpisodeResult) {
    && !result.admission.semanticValid && result.admission.provenanceValid
    && result.admission.trajectoryValid && result.admission.integrityValid
    && !result.budgetExhausted && result.terminalReason.EnvironmentDone?
    && result.ledgerRoot.Some? && Ledger.Accepts(h, result.Document())
    && var blame := Blamed(result.domain, result.ledgerEntries);
       blame.Some? && blame.value.state != UNKNOWN && blame.value.intent.Some?
  }

  class NegativeExperienceStore {
    const h: Hasher
    var counts: Counts
    var receipts: seq<NegativeReceipt>

    ghost predicate Valid() reads this {
      Tallied(counts, receipts)
    }

    constructor (h: Hasher)
      ensures Valid() && counts == map[] && receipts == [] && this.h == h
    {
      this.h, counts, receipts := h, map[], [];
    }

    /** `observe`: at most the blamed pair changes, by exactly one. */
    method Observe(result: EpisodeResult) returns (outcome: Observed)
      requires Valid()
      modifies this
      ensures Valid()
      ensures outcome.NotTrain? <==> result.split != "train"
      ensures outcome.WasAccepted? <==> result.split == "train" && result.Accepted()
      ensures outcome.Recorded? <==> result.split == "train" && !result.Accepted() && Recordable(h, result)
      ensures !outcome.Recorded? ==> counts == old(counts) && receipts == old(receipts)
      ensures outcome.Recorded? ==>
        var blame := Blamed(result.domain, result.ledgerEntries).value;
        && outcome.receipt == NegativeReceipt(result.taskId, result.ledgerRoot.value, blame.state, blame.intent.value,
             Rejections(old(counts), blame.state, blame.intent.value),
             Rejections(old(counts), blame.state, blame.intent.value) + 1)
        && receipts == old(receipts) + [outcome.receipt]
        && counts == OneMore(old(counts), blame.state, blame.intent.value)
    {
      hide Blamed, Tallied, Ledger.Accepts;
      if result.split != "train" { return NotTrain; }
      if result.Accepted() { return WasAccepted; }
      if result.admission.semanticValid { return Ignored; }
      if !(result.admission.provenanceValid && result.admission.trajectoryValid && result.admission.integrityValid) {
        return Ignored;
      }
      if result.budgetExhausted || !result.terminalReason.EnvironmentDone? || result.ledgerRoot.None? {
        return Ignored;
      }
      var valid := Ledger.VerifyLedgerDocument(h, result.Document());
      if !valid { return Ignored; }
      var cause := TerminalDecisionExperience(result);
      if cause.None? || cause.value.state == UNKNOWN || cause.value.intent.None? { return Ignored; }
      var state, intent := cause.value.state, cause.value.intent.value;
      var previous := Rejections(counts, state, intent);
      var next := previous + 1;
      var receipt := NegativeReceipt(result.taskId, result.ledgerRoot.value, state, intent, previous, next);
      NextReceipt(counts, receipts, receipt);
      counts := counts[state := (if state in counts then counts[state] else map[])[intent := next]];
      receipts := receipts + [receipt];
      return Recorded(receipt);
    }
  }

  // ----- Least-rejected-first search -----

  /** The first index with the smallest count: the head of a stable sort by (count, position). */
  function Least(counts: seq<nat>): (r: nat)
    requires counts != []
    ensures r < |counts|
    ensures forall j :: 0 <= j < |counts| ==> if j < r then counts[r] < counts[j] else counts[r] <= counts[j]
  {
    if |counts| == 1 then 0
    else
      var n := |counts| - 1;
      var r := Least(counts[..n]);
      assert forall j :: 0 <= j < n ==> counts[..n][j] == counts[j];
      if counts[n] < counts[r] then n else r
  }

  /** The counts after k rounds of picking the least and recording its rejection. */
  function Searched(counts: seq<nat>, k: nat): (r: seq<nat>)
    requires counts != []
    ensures |r| == |counts|
  {
    if k == 0 then counts
    else
      var before := Searched(counts, k - 1);
      before[Least(before) := before[Least(before)] + 1]
  }

  function Picked(counts: seq<nat>, k: nat): nat
    requires counts != []
  {
    Least(Searched(counts, k))
  }

  /** The counts of n candidates in an empty store. */
  function Fresh(n: nat): (s: seq<nat>)
    ensures |s| == n
  {
    seq(n, _ => 0)
  }

  /** One step above level q on the first r places, level q on the others. */
  predicate Stair(counts: seq<nat>, q: nat, r: nat) {
    r < |counts| && forall j :: 0 <= j < |counts| ==> counts[j] == q + (if j < r then 1 else 0)
  }

  lemma LeastUnique(counts: seq<nat>, r: nat)
    requires r < |counts|
    requires forall j :: 0 <= j < |counts| ==> if j < r then counts[r] < counts[j] else counts[r] <= counts[j]
    ensures Least(counts) == r
  {
    hide Least;
    assert counts[Least(counts)] == counts[r];
  }

  lemma StairLeast(counts: seq<nat>, q: nat, r: nat)
    requires Stair(counts, q, r)
    ensures Least(counts) == r
    ensures var next := counts[r := counts[r] + 1];
      if r + 1 < |counts| then Stair(next, q, r + 1) else Stair(next, q + 1, 0)
  {
    hide Least;
    LeastUnique(counts, r);
  }

  lemma SearchedNext(counts: seq<nat>, k: nat)
    requires counts != []
    ensures var before := Searched(counts, k);
      Searched(counts, k + 1) == before[Least(before) := before[Least(before)] + 1]
  {
    hide Least;
  }

  lemma {:induction false} SearchedIsStair(n: nat, q: nat, r: nat)
    requires r < n
    ensures Stair(Searched(Fresh(n), q * n + r), q, r)
    decreases q, r
  {
    hide Stair, Least, Fresh, Searched;
    if r > 0 {
      var k := q * n + (r - 1);
      SearchedIsStair(n, q, r - 1);
      SearchedNext(Fresh(n), k);
      StairLeast(Searched(Fresh(n), k), q, r - 1);
    } else if q > 0 {
      var k := (q - 1) * n + (n - 1);
      SearchedIsStair(n, q - 1, n - 1);
      SearchedNext(Fresh(n), k);
      StairLeast(Searched(Fresh(n), k), q - 1, n - 1);
      assert k + 1 == q * n;
    } else {
      FlatStart(n);
    }
  }

  lemma FlatStart(n: nat)
    requires n > 0
    ensures Stair(Searched(Fresh(n), 0), 0, 0)
  {
  }

  /** From an empty store the search is round robin: the k-th rejection falls on candidate
      k mod n, and no two counts ever differ by more than one. */
  lemma FreshSearchIsRoundRobin(n: nat, k: nat)
    requires n > 0
    ensures Picked(Fresh(n), k) == k % n
    ensures forall j :: 0 <= j < n ==> Searched(Fresh(n), k)[j] == k / n + (if j < k % n then 1 else 0)
  {
    hide Least, Searched;
    assert k == k / n * n + k % n;
    SearchedIsStair(n, k / n, k % n);
    StairLeast(Searched(Fresh(n), k), k / n, k % n);
  }

  /** How many picks of other candidates have to come before candidate c. */
  function Ahead(counts: seq<nat>, c: nat, j: nat): nat
    requires c < |counts| && j <= |counts|
  {
    if j == 0 then 0
    else
      var i := j - 1;
      var lead := counts[c] as int - counts[i] as int + (if i < c then 1 else 0);
      Ahead(counts, c, i) + (if i == c || lead < 0 then 0 else lead)
  }

  function Wait(counts: seq<nat>, c: nat): nat
    requires c < |counts|
  {
    Ahead(counts, c, |counts|)
  }

  lemma {:induction false} AheadAfterPick(counts: seq<nat>, c: nat, j: nat)
    requires c < |counts| && j <= |counts| && Least(counts) != c
    ensures var l := Least(counts);
      Ahead(counts[l := counts[l] + 1], c, j) == Ahead(counts, c, j) - (if l < j then 1 else 0)
  {
    hide Least;
    LeastBefore(counts, c);
    if j > 0 { AheadAfterPick(counts, c, j - 1); }
  }

  lemma LeastBefore(counts: seq<nat>, c: nat)
    requires c < |counts| && Least(counts) != c
    ensures var l := Least(counts);
      l < |counts| && (if l < c then counts[l] <= counts[c] else counts[l] < counts[c])
  {
  }

  lemma {:induction false} NobodyAhead(counts: seq<nat>, c: nat, j: nat)
    requires c < |counts| && j <= |counts|
    ensures Ahead(counts, c, j) == 0
      <==> forall i :: 0 <= i < j && i != c ==> if i < c then counts[c] < counts[i] else counts[c] <= counts[i]
  {
    if j > 0 { NobodyAhead(counts, c, j - 1); }
  }

  /** No candidate starves: from any counts, candidate c is picked for the first time after exactly
      Wait(counts, c) other picks. */
  lemma {:induction false} EveryCandidateIsReached(counts: seq<nat>, c: nat, k: nat)
    requires c < |counts|
    ensures k < Wait(counts, c) ==> Picked(counts, k) != c && Wait(Searched(counts, k), c) == Wait(counts, c) - k
    ensures k == Wait(counts, c) ==> Picked(counts, k) == c
  {
    hide Least, Ahead;
    if k > 0 && k <= Wait(counts, c) {
      EveryCandidateIsReached(counts, c, k - 1);
      var before := Searched(counts, k - 1);
      AheadAfterPick(before, c, |before|);
      LeastInRange(before);
    }
    if k <= Wait(counts, c) {
      var now := Searched(counts, k);
      assert Wait(now, c) == Wait(counts, c) - k;
      WaitDecides(now, c);
    }
  }

  lemma LeastInRange(counts: seq<nat>)
    requires counts != []
    ensures Least(counts) < |counts|
  {
  }

  lemma WaitDecides(counts: seq<nat>, c: nat)
    requires c < |counts|
    ensures Least(counts) == c <==> Wait(counts, c) == 0
  {
    hide Ahead, Least;
    NobodyAhead(counts, c, |counts|);
    if Wait(counts, c) == 0 { LeastUnique(counts, c); }
  }
}
