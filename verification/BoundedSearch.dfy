/** The walk of the cursor (`BoundedExplorationPolicy` in `gym/on_policy.py`), and where it leads in
    the reference environments. */
module BoundedSearch {
  import opened Json
  import opened Evidence
  import opened Episode
  import opened Host
  import opened HostBoundary
  import opened HostHistory
  import opened HostSemantics
  import opened Semantics
  import opened Exploration
  import AdaptivePolicy
  import Ledger
  import EpisodeLaws
  import opened Replay
  import opened LearningLaws

  /** The decision at a cursor reads back as this intent. */
  ghost predicate Chooses(d: PolicyDecision, intent: Intent) {
    DecisionIntent(Obj(DecisionJson(d))) == Some(intent)
  }

  /** After k recorded failures in a state candidate k is chosen; once the last candidate is reached it
      stays. */
  lemma CursorWalks(cursors: Cursors, receipts: seq<SearchReceipt>, state: SemanticState, allowed: seq<string>)
    requires forall s :: Cursor(cursors, s) == StateReceipts(receipts, s)
    requires Supported(state, allowed) != []
    ensures var k, candidates := StateReceipts(receipts, state), Supported(state, allowed);
      var d := AtCursor(Cursor(cursors, state), state, allowed);
      && (k < |candidates| ==> Chooses(d, candidates[k]))
      && (k >= |candidates| ==> Chooses(d, candidates[|candidates| - 1]))
  {
    hide IntentDecision, Supported, DecisionIntent, DecisionJson;
    var k, candidates := StateReceipts(receipts, state), Supported(state, allowed);
    var intent := candidates[if k < |candidates| then k else |candidates| - 1];
    SupportedDistinct(state, allowed);
    assert intent in candidates;
    AdapterRoundTrip(intent, allowed);
  }

  /** A rejected run of the gym moves the cursor exactly when its evidence and its bundle held, its last
      choice was made in a known state with a known intent, and no learned value speaks for that
      choice; it moves the cursor of that state. */
  lemma RejectionsMoveCursors(task: PublicTask, w: World, bundlePasses: bool, hasSink: bool, q: AdaptivePolicy.Table)
    ensures var r := Receipt(task, w, Final(task, w), bundlePasses, hasSink);
      var choices := Choices(Final(task, w).calls);
      var lived := if choices == [] then [] else Lived(task.domain, choices[|choices| - 1]);
      && (MovesCursor(q, r) <==>
            && Admissible(r.observations) && bundlePasses && lived != []
            && AdaptivePolicy.Stat(q, lived[0].state, lived[0].intent).value <= 0.0)
      && (MovesCursor(q, r) ==>
            var last := LastTraced(r).value;
            lived == [AdaptivePolicy.Experience(last.state, last.intent.value)])
  {
    hide Final, Ledger.Accepts, BundleBinds, WithReceipt, Admissible, Choices, Situations, Encode, DecisionIntent,
      ToDicts, DecisionJson, AdaptivePolicy.Stat;
    EpisodeLaws.EveryRunVerifies(task, w, bundlePasses, hasSink);
    ReplayIsFaithful(task, w, bundlePasses, hasSink);
    var r, choices := Receipt(task, w, Final(task, w), bundlePasses, hasSink), Choices(Final(task, w).calls);
    var situations := Situations(r.ledgerEntries);
    if choices != [] { assert Tells(situations[|situations| - 1], choices[|choices| - 1]); }
  }

  // ----- The last candidate -----

  lemma LastSupported(intents: seq<Intent>, allowed: seq<string>)
    requires intents != [] && Supports(allowed, intents[|intents| - 1])
    ensures var supported := Filtered(intents, allowed);
      && 0 < |supported| <= |intents| && supported[|supported| - 1] == intents[|intents| - 1]
  {
    hide Supports;
    FilteredShorter(intents[..|intents| - 1], allowed);
  }

  lemma {:induction false} FilteredShorter(intents: seq<Intent>, allowed: seq<string>)
    ensures |Filtered(intents, allowed)| <= |intents|
  {
    hide Supports;
    if intents != [] { FilteredShorter(intents[..|intents| - 1], allowed); }
  }

  /** With one failure recorded the last of at most two candidates is chosen. */
  lemma PastCursor(cursor: nat, state: SemanticState, allowed: seq<string>, intent: Intent)
    requires cursor >= 1 && 0 < |CandidatesFor(state)| <= 2
    requires CandidatesFor(state)[|CandidatesFor(state)| - 1] == intent && Supports(allowed, intent)
    ensures Some(AtCursor(cursor, state, allowed)) == IntentDecision(intent, allowed)
  {
    hide IntentDecision, CandidatesFor;
    LastSupported(CandidatesFor(state), allowed);
  }

  // ----- What it leads to -----

  /** What each environment's task must allow, and how its constructor ties the evidence to the
      action that is looked for. */
  predicate Equipped(m: Machine, allowed: seq<string>) {
    match m
    case Cli(health, _, _, _) =>
      && health != []
      && "INSPECT_PROCESS_STATE" in allowed && "RESTART_PROCESS" in allowed && "RETRY_HEALTHCHECK" in allowed
    case StructuredData(_, provenance, _, right) =>
      && "CHECK_PROVENANCE" in allowed && "SELECT_SOURCE_A" in allowed && "SELECT_SOURCE_B" in allowed
      && (right == "SELECT_SOURCE_A" || right == "SELECT_SOURCE_B")
      && SlotSigned(provenance, "source_a", "source_b")
         == if right == "SELECT_SOURCE_A" then AUTHORITY_SLOT_1 else AUTHORITY_SLOT_2
    case FilesystemConfig(_, _, origin, _, right) =>
      && "INSPECT_CONFIG_ORIGIN" in allowed
      && "SELECT_PROJECT_CONFIG" in allowed && "SELECT_CACHE_CONFIG" in allowed
      && "CHECK_PROVENANCE" !in allowed && "SELECT_SOURCE_A" !in allowed && "SELECT_SOURCE_B" !in allowed
      && (right == "SELECT_PROJECT_CONFIG" || right == "SELECT_CACHE_CONFIG")
      && SlotSigned(origin, "project", "cache")
         == if right == "SELECT_PROJECT_CONFIG" then AUTHORITY_SLOT_1 else AUTHORITY_SLOT_2
    case RepositoryCoding(_, _, _) =>
      "RUN_TARGETED_TEST" in allowed && "APPLY_CANDIDATE_FIX" in allowed && "RUN_REGRESSION" in allowed
    case SafeDefer => "DEFER" in allowed
    case GenerativeFallback(_) => CALL_ACTION in allowed
  }

  /** The action of the actor in a state. */
  function Move(cursors: Cursors, state: SemanticState, allowed: seq<string>): string {
    ActionOf(AtCursor(Cursor(cursors, state), state, allowed))
  }

  /** The first `n` requests are those of the actor, of which nothing is learned yet, on the evidence
      it has been shown; a candidate it asks for is the one that is looked for. */
  ghost predicate Driven(domain: string, start: EnvironmentState, allowed: seq<string>, cursors: Cursors,
                         asked: Requests, n: nat)
  {
    forall k: nat :: k < n ==>
      && asked(k).0 == Move(cursors, Encode(domain, ToDicts(StateAfter(start, asked, k).produced)), allowed)
      && (asked(k).0 == "CALL_GENERATIVE" ==> asked(k).1 == Some("key=stable-42"))
  }

  /** The requests that earn a valid end. */
  function Script(m: Machine): seq<string> {
    match m
    case Cli(_, running, _, _) =>
      if running then ["INSPECT_PROCESS_STATE"]
      else ["INSPECT_PROCESS_STATE", "RESTART_PROCESS", "RETRY_HEALTHCHECK"]
    case StructuredData(_, _, _, right) => ["CHECK_PROVENANCE", right]
    case FilesystemConfig(_, _, _, _, right) => ["INSPECT_CONFIG_ORIGIN", right]
    case RepositoryCoding(_, _, _) => ["RUN_TARGETED_TEST", "APPLY_CANDIDATE_FIX", "RUN_REGRESSION"]
    case SafeDefer => ["DEFER_NO_ADMISSIBLE"]
    case GenerativeFallback(_) => ["CALL_GENERATIVE"]
  }

  ghost predicate OnScript(m: Machine, asked: Requests, n: nat)
    requires n <= |Script(m)|
  {
    forall k: nat :: k < n ==> asked(k).0 == Script(m)[k]
  }

  /** The same requests in terms of the states that the history gives. */
  ghost predicate Follows(m: Machine, allowed: seq<string>, cursors: Cursors, asked: Requests, n: nat) {
    forall k: nat :: k < n ==> asked(k).0 == Move(cursors, StateSeen(m, asked, k), allowed)
  }

  lemma DrivenFollows(domain: string, taskId: string, snapshotId: string, m: Machine, allowed: seq<string>,
                      cursors: Cursors, asked: Requests, n: nat)
    requires Fresh(m) && SpeaksOfItsSlots(m) && (m.RepositoryCoding? || domain != "repository_coding")
    requires Driven(domain, Opened(taskId, snapshotId, m), allowed, cursors, asked, n)
    ensures Follows(m, allowed, cursors, asked, n)
  {
    hide StateAfter, Opened, ToDicts, Encode, Move, StateSeen, Fresh, SpeaksOfItsSlots;
    forall k: nat | k < n ensures asked(k).0 == Move(cursors, StateSeen(m, asked, k), allowed) {
      EvidenceEncodes(domain, taskId, snapshotId, m, asked, k);
    }
  }

  lemma ProcessMoves(cursors: Cursors, allowed: seq<string>)
    requires forall state :: Cursor(cursors, state) >= 1
    requires "INSPECT_PROCESS_STATE" in allowed && "RESTART_PROCESS" in allowed && "RETRY_HEALTHCHECK" in allowed
    ensures Move(cursors, PROCESS_STATE_AMBIGUOUS, allowed) == "INSPECT_PROCESS_STATE"
    ensures Move(cursors, PROCESS_STOPPED_CONFIRMED, allowed) == "RESTART_PROCESS"
    ensures Move(cursors, PROCESS_RESTARTED_NEEDS_VERIFY, allowed) == "RETRY_HEALTHCHECK"
  {
    hide Supported, AtCursor;
    PastCursor(Cursor(cursors, PROCESS_STATE_AMBIGUOUS), PROCESS_STATE_AMBIGUOUS, allowed, InspectProcessState);
    PastCursor(Cursor(cursors, PROCESS_STOPPED_CONFIRMED), PROCESS_STOPPED_CONFIRMED, allowed, RestartProcess);
    PastCursor(Cursor(cursors, PROCESS_RESTARTED_NEEDS_VERIFY), PROCESS_RESTARTED_NEEDS_VERIFY, allowed,
               RetryHealthcheck);
  }

  /** The state in which the next request of the script is made, and the move there. */
  lemma ProcessNext(m: Machine, allowed: seq<string>, cursors: Cursors, asked: Requests, k: nat)
    requires m.Cli? && Equipped(m, allowed) && forall state :: Cursor(cursors, state) >= 1
    requires k < |Script(m)| && OnScript(m, asked, k)
    ensures Move(cursors, StateSeen(m, asked, k), allowed) == Script(m)[k]
  {
    hide Move, Asked, AskedThen, AskedThenThen, RestartStands, Cursor;
    ProcessMoves(cursors, allowed);
    NothingAskedAtAll(asked);
    NoRestartYet(asked);
    if k > 0 {
      AskedNext(asked, 0, "INSPECT_PROCESS_STATE");
      RestartStandsNext(asked, 0);
    }
    if k > 1 {
      AskedNext(asked, 1, "INSPECT_PROCESS_STATE");
      AskedThenNext(asked, 0, "INSPECT_PROCESS_STATE", "RESTART_PROCESS");
      RestartStandsNext(asked, 1);
    }
  }

  lemma ProcessScriptEarns(m: Machine, asked: Requests)
    requires m.Cli? && OnScript(m, asked, |Script(m)|)
    ensures Earned(m, asked, |Script(m)|)
  {
    hide Asked, AskedThen, AskedThenThen;
    AskedNext(asked, 0, "INSPECT_PROCESS_STATE");
    if !m.running {
      AskedThenNext(asked, 1, "INSPECT_PROCESS_STATE", "RESTART_PROCESS");
      AskedThenThenNext(asked, 2, "INSPECT_PROCESS_STATE", "RESTART_PROCESS", "RETRY_HEALTHCHECK");
    }
  }

  lemma NoRestartYet(asked: Requests)
    ensures !RestartStands(asked, 0) && !FixTaken(asked, 0)
  {
  }

  lemma AuthorityMoves(cursors: Cursors, allowed: seq<string>)
    requires forall state :: Cursor(cursors, state) >= 1
    requires "CHECK_PROVENANCE" in allowed && "SELECT_SOURCE_A" in allowed && "SELECT_SOURCE_B" in allowed
    ensures Move(cursors, AUTHORITY_UNKNOWN, allowed) == "CHECK_PROVENANCE"
    ensures Move(cursors, AUTHORITY_SLOT_1, allowed) == "SELECT_SOURCE_A"
    ensures Move(cursors, AUTHORITY_SLOT_2, allowed) == "SELECT_SOURCE_B"
  {
    hide Supported, AtCursor;
    PastCursor(Cursor(cursors, AUTHORITY_UNKNOWN), AUTHORITY_UNKNOWN, allowed, InspectAuthority);
    PastCursor(Cursor(cursors, AUTHORITY_SLOT_1), AUTHORITY_SLOT_1, allowed, SelectAuthoritySlot1);
    PastCursor(Cursor(cursors, AUTHORITY_SLOT_2), AUTHORITY_SLOT_2, allowed, SelectAuthoritySlot2);
  }

  lemma ConfigMoves(cursors: Cursors, allowed: seq<string>)
    requires forall state :: Cursor(cursors, state) >= 1
    requires "INSPECT_CONFIG_ORIGIN" in allowed
    requires "SELECT_PROJECT_CONFIG" in allowed && "SELECT_CACHE_CONFIG" in allowed
    requires "CHECK_PROVENANCE" !in allowed && "SELECT_SOURCE_A" !in allowed && "SELECT_SOURCE_B" !in allowed
    ensures Move(cursors, AUTHORITY_UNKNOWN, allowed) == "INSPECT_CONFIG_ORIGIN"
    ensures Move(cursors, AUTHORITY_SLOT_1, allowed) == "SELECT_PROJECT_CONFIG"
    ensures Move(cursors, AUTHORITY_SLOT_2, allowed) == "SELECT_CACHE_CONFIG"
  {
    hide Supported, AtCursor, IntentDecision;
    SecondAllowed(InspectAuthority, allowed);
    SecondAllowed(SelectAuthoritySlot1, allowed);
    SecondAllowed(SelectAuthoritySlot2, allowed);
    PastCursor(Cursor(cursors, AUTHORITY_UNKNOWN), AUTHORITY_UNKNOWN, allowed, InspectAuthority);
    PastCursor(Cursor(cursors, AUTHORITY_SLOT_1), AUTHORITY_SLOT_1, allowed, SelectAuthoritySlot1);
    PastCursor(Cursor(cursors, AUTHORITY_SLOT_2), AUTHORITY_SLOT_2, allowed, SelectAuthoritySlot2);
  }

  /** An intent with two actions of which only the second is allowed. */
  lemma SecondAllowed(intent: Intent, allowed: seq<string>)
    requires !intent.CallGenerator? && |ActionsOf(intent)| == 2
    requires ActionsOf(intent)[0] !in allowed && ActionsOf(intent)[1] in allowed
    ensures IntentDecision(intent, allowed) == Some(PolicyDecision(Select, Some(ActionsOf(intent)[1])))
  {
    assert FirstAllowed(ActionsOf(intent)[1..], allowed) == Some(ActionsOf(intent)[1]);
  }

  lemma AuthorityNext(m: Machine, allowed: seq<string>, cursors: Cursors, asked: Requests, k: nat)
    requires m.StructuredData? || m.FilesystemConfig?
    requires Equipped(m, allowed) && forall state :: Cursor(cursors, state) >= 1
    requires k < 2 && OnScript(m, asked, k)
    ensures Move(cursors, StateSeen(m, asked, k), allowed) == Script(m)[k]
  {
    hide Move, Asked, SlotSigned, Cursor;
    NothingAskedAtAll(asked);
    if m.StructuredData? { AuthorityMoves(cursors, allowed); } else { ConfigMoves(cursors, allowed); }
    if k > 0 { AskedNext(asked, 0, if m.StructuredData? then "CHECK_PROVENANCE" else "INSPECT_CONFIG_ORIGIN"); }
  }

  lemma AuthorityScriptEarns(m: Machine, allowed: seq<string>, asked: Requests)
    requires m.StructuredData? || m.FilesystemConfig?
    requires Equipped(m, allowed) && OnScript(m, asked, 2)
    ensures Earned(m, asked, 2)
  {
    hide Asked, Selected, SlotSigned;
    AskedNext(asked, 0, if m.StructuredData? then "CHECK_PROVENANCE" else "INSPECT_CONFIG_ORIGIN");
    SelectedNext(asked, 1, "SELECT_SOURCE_A", "SELECT_SOURCE_B", "CHECK_PROVENANCE", asked(1).0);
    SelectedNext(asked, 1, "SELECT_PROJECT_CONFIG", "SELECT_CACHE_CONFIG", "INSPECT_CONFIG_ORIGIN", asked(1).0);
  }

  lemma RepositoryMoves(cursors: Cursors, allowed: seq<string>)
    requires forall state :: Cursor(cursors, state) >= 1
    requires "RUN_TARGETED_TEST" in allowed && "APPLY_CANDIDATE_FIX" in allowed && "RUN_REGRESSION" in allowed
    ensures Move(cursors, REPO_NEEDS_EXECUTION, allowed) == "RUN_TARGETED_TEST"
    ensures Move(cursors, REPO_NEEDS_REPAIR, allowed) == "APPLY_CANDIDATE_FIX"
    ensures Move(cursors, REPO_NEEDS_REGRESSION, allowed) == "RUN_REGRESSION"
  {
    hide Supported, AtCursor;
    PastCursor(Cursor(cursors, REPO_NEEDS_EXECUTION), REPO_NEEDS_EXECUTION, allowed, RunTargetedTest);
    PastCursor(Cursor(cursors, REPO_NEEDS_REPAIR), REPO_NEEDS_REPAIR, allowed, ApplyCandidateFix);
    PastCursor(Cursor(cursors, REPO_NEEDS_REGRESSION), REPO_NEEDS_REGRESSION, allowed, RunRegression);
  }

  lemma RepositoryNext(m: Machine, allowed: seq<string>, cursors: Cursors, asked: Requests, k: nat)
    requires m.RepositoryCoding? && Equipped(m, allowed) && forall state :: Cursor(cursors, state) >= 1
    requires k < 3 && OnScript(m, asked, k)
    ensures Move(cursors, StateSeen(m, asked, k), allowed) == Script(m)[k]
  {
    hide Move, Asked, FixStands, FailureSeen, FixTaken, FixConfirmed, Cursor;
    RepositoryMoves(cursors, allowed);
    NothingAskedAtAll(asked);
    NothingAskedYet(asked);
    NoRestartYet(asked);
    if k > 0 {
      AskedNext(asked, 0, "RUN_TARGETED_TEST");
      AskedNext(asked, 0, "RUN_REGRESSION");
      FailureSeenNext(asked, 0);
      FixTakenNext(asked, 0);
    }
    if k > 1 {
      AskedNext(asked, 1, "RUN_REGRESSION");
      FixTakenNext(asked, 1);
    }
  }

  /** What the script of a repository comes to, request by request. */
  lemma RepositoryScript(m: Machine, asked: Requests, n: nat)
    requires m.RepositoryCoding? && n <= 3 && OnScript(m, asked, n)
    ensures FailureSeen(asked, n) <==> n >= 1
    ensures FixStands(asked, n) <==> n >= 2
    ensures FixConfirmed(asked, n) <==> n >= 3
  {
    hide FixStands, FailureSeen, FixConfirmed;
    NothingAskedYet(asked);
    NothingAskedAtAll(asked);
    if n >= 1 {
      FailureSeenNext(asked, 0);
      FixStandsNext(asked, 0);
      FixConfirmedNext(asked, 0);
    }
    if n >= 2 {
      FailureSeenNext(asked, 1);
      FixStandsNext(asked, 1);
      FixConfirmedNext(asked, 1);
    }
    if n >= 3 {
      FailureSeenNext(asked, 2);
      FixStandsNext(asked, 2);
      FixConfirmedNext(asked, 2);
    }
  }

  lemma CapabilityMoves(cursors: Cursors, allowed: seq<string>)
    requires forall state :: Cursor(cursors, state) >= 1
    ensures "DEFER" in allowed ==> Move(cursors, NO_SUPPORTED_ACTUATOR, allowed) == "DEFER_NO_ADMISSIBLE"
    ensures CALL_ACTION in allowed ==>
      && Move(cursors, SYNTHESIS_REQUIRED, allowed) == "CALL_GENERATIVE"
      && AtCursor(Cursor(cursors, SYNTHESIS_REQUIRED), SYNTHESIS_REQUIRED, allowed)
           == PolicyDecision(CallGenerative, None)
  {
    hide Supported, AtCursor;
    if "DEFER" in allowed {
      PastCursor(Cursor(cursors, NO_SUPPORTED_ACTUATOR), NO_SUPPORTED_ACTUATOR, allowed, SafelyDefer);
    }
    if CALL_ACTION in allowed {
      PastCursor(Cursor(cursors, SYNTHESIS_REQUIRED), SYNTHESIS_REQUIRED, allowed, CallGenerator);
    }
  }

  lemma NextOnScript(m: Machine, allowed: seq<string>, cursors: Cursors, asked: Requests, k: nat)
    requires Equipped(m, allowed) && forall state :: Cursor(cursors, state) >= 1
    requires k < |Script(m)| && OnScript(m, asked, k)
    ensures Move(cursors, StateSeen(m, asked, k), allowed) == Script(m)[k]
  {
    hide Move, Equipped, Cursor;
    match m
    case Cli(_, _, _, _) => ProcessNext(m, allowed, cursors, asked, k);
    case StructuredData(_, _, _, _) => AuthorityNext(m, allowed, cursors, asked, k);
    case FilesystemConfig(_, _, _, _, _) => AuthorityNext(m, allowed, cursors, asked, k);
    case RepositoryCoding(_, _, _) => RepositoryNext(m, allowed, cursors, asked, k);
    case SafeDefer => CapabilityNext(m, allowed, cursors, asked);
    case GenerativeFallback(_) => CapabilityNext(m, allowed, cursors, asked);
  }

  lemma CapabilityNext(m: Machine, allowed: seq<string>, cursors: Cursors, asked: Requests)
    requires m.SafeDefer? || m.GenerativeFallback?
    requires Equipped(m, allowed) && forall state :: Cursor(cursors, state) >= 1
    ensures Move(cursors, StateSeen(m, asked, 0), allowed) == Script(m)[0]
  {
    hide Move, Cursor;
    CapabilityMoves(cursors, allowed);
  }

  lemma {:induction false} FollowsScript(m: Machine, allowed: seq<string>, cursors: Cursors, asked: Requests, n: nat)
    requires Equipped(m, allowed) && forall state :: Cursor(cursors, state) >= 1
    requires n <= |Script(m)| && Follows(m, allowed, cursors, asked, n)
    ensures OnScript(m, asked, n)
  {
    hide Equipped, Cursor, Move, StateSeen, Script;
    if n > 0 {
      FollowsScript(m, allowed, cursors, asked, n - 1);
      NextOnScript(m, allowed, cursors, asked, n - 1);
    }
  }

  lemma ScriptEarns(m: Machine, allowed: seq<string>, asked: Requests)
    requires Equipped(m, allowed) && OnScript(m, asked, |Script(m)|)
    requires m.GenerativeFallback? ==> asked(0).1 == Some("key=stable-42")
    ensures Earned(m, asked, |Script(m)|)
  {
    hide Equipped;
    match m
    case Cli(_, _, _, _) => ProcessScriptEarns(m, asked);
    case StructuredData(_, _, _, _) => AuthorityScriptEarns(m, allowed, asked);
    case FilesystemConfig(_, _, _, _, _) => AuthorityScriptEarns(m, allowed, asked);
    case RepositoryCoding(_, _, _) => RepositoryScript(m, asked, 3);
    case SafeDefer => CapabilityScriptEarns(m, asked);
    case GenerativeFallback(_) => CapabilityScriptEarns(m, asked);
  }

  lemma CapabilityScriptEarns(m: Machine, asked: Requests)
    requires (m.SafeDefer? || m.GenerativeFallback?) && OnScript(m, asked, 1)
    requires m.GenerativeFallback? ==> asked(0).1 == Some("key=stable-42")
    ensures Earned(m, asked, 1)
  {
    assert asked(0).0 == Script(m)[0];
  }

  /** The search is complete: an actor that has learned nothing and has recorded one failure in each
      state makes exactly the requests that earn a valid end, in every reference environment. */
  lemma SearchedActorEarns(domain: string, taskId: string, snapshotId: string, m: Machine, allowed: seq<string>,
                           cursors: Cursors, asked: Requests)
    requires Fresh(m) && SpeaksOfItsSlots(m) && Equipped(m, allowed)
    requires m.RepositoryCoding? || domain != "repository_coding"
    requires forall state :: Cursor(cursors, state) >= 1
    requires Driven(domain, Opened(taskId, snapshotId, m), allowed, cursors, asked, |Script(m)|)
    ensures OnScript(m, asked, |Script(m)|)
    ensures StateAfter(Opened(taskId, snapshotId, m), asked, |Script(m)|).verdict
  {
    hide StateAfter, Opened, Move, Equipped, Fresh, SpeaksOfItsSlots, Cursor, AtStart, Follows, ToDicts, Encode;
    var n := |Script(m)|;
    DrivenFollows(domain, taskId, snapshotId, m, allowed, cursors, asked, n);
    FollowsScript(m, allowed, cursors, asked, n);
    OpenedAtStart(taskId, snapshotId, m);
    ScriptEarns(m, allowed, asked);
    ValidEndIsEarned(Opened(taskId, snapshotId, m), asked, n);
  }
}
