/** The searched actor at work in the gym (`gym/on_policy.py` over `gym/host_boundary.py`,
    `gym/host.py` and `gym/core.py`): its run is accepted in every reference environment. */
module SearchedRuns {
  import opened Json
  import opened Evidence
  import opened Episode
  import opened Host
  import opened HostBoundary
  import opened HostHistory
  import opened HostSemantics
  import opened HostedRuns
  import opened Endings
  import IsolatedLaws
  import opened Semantics
  import AdaptivePolicy
  import opened Exploration
  import opened BoundedSearch

  // ----- The actor -----

  /** A decision of the actor while its learner has been taught nothing. */
  ghost predicate ActsByCursor(cursors: Cursors, state: SemanticState, allowed: seq<string>, d: PolicyDecision) {
    exists learned :: AdaptivePolicy.Decides(map[], state, allowed, learned)
      && d == if Undecided(learned) then AtCursor(Cursor(cursors, state), state, allowed) else learned
  }

  lemma UntaughtFollowsCursor(cursors: Cursors, state: SemanticState, allowed: seq<string>, d: PolicyDecision)
    requires ActsByCursor(cursors, state, allowed, d)
    ensures d == AtCursor(Cursor(cursors, state), state, allowed)
  {
    hide AtCursor, Cursor;
  }

  /** All decisions of the run are the actor's. */
  ghost predicate RunBy(task: PublicTask, calls: seq<Call>, cursors: Cursors) {
    forall k :: 0 <= k < |IsolatedLaws.Asks(calls)| && IsolatedLaws.Asks(calls)[k].Decide? ==>
      ActsByCursor(cursors, Encode(task.domain, ToDicts(IsolatedLaws.Asks(calls)[k].observations)), task.allowedActions,
                   IsolatedLaws.Asks(calls)[k].decision)
  }

  // ----- What it costs -----

  function PriceOf(action: string): real {
    if action == "INSPECT_PROCESS_STATE" || action == "APPLY_CANDIDATE_FIX" then 0.25
    else if action == "RESTART_PROCESS" then 1.0
    else if action == "RETRY_HEALTHCHECK" then 0.2
    else if action == "CHECK_PROVENANCE" || action == "INSPECT_CONFIG_ORIGIN" then 0.15
    else if action == "RUN_TARGETED_TEST" || action == "RUN_REGRESSION" then 0.5
    else if action == "CALL_GENERATIVE" then 0.75
    else if action == "DEFER_NO_ADMISSIBLE" then 0.0
    else 0.05
  }

  /** The price of the first `k` requests of the script. */
  function Paid(m: Machine, k: nat): real
    requires k <= |Script(m)|
  {
    if k == 0 then 0.0 else Paid(m, k - 1) + PriceOf(Script(m)[k - 1])
  }

  lemma {:induction false} PaidGrows(m: Machine, k: nat, n: nat)
    requires k <= n <= |Script(m)|
    ensures 0.0 <= Paid(m, k) <= Paid(m, n)
    decreases n
  {
    hide Script, PriceOf;
    if n > 0 { PricesPositive(Script(m)[n - 1]); }
    if k < n { PaidGrows(m, k, n - 1); }
    else if k > 0 { PaidGrows(m, k - 1, n - 1); }
  }

  lemma PricesPositive(action: string)
    ensures PriceOf(action) >= 0.0
  {
  }

  lemma CostNext(items: seq<Observation>, item: Observation)
    ensures ToolCost(items + [item]) == ToolCost(items) + item.cost
  {
    assert (items + [item])[..|items|] == items;
  }

  lemma {:induction false} FreeItems(items: seq<Observation>)
    requires forall i :: 0 <= i < |items| ==> items[i].cost == 0.0
    ensures ToolCost(items) == 0.0
  {
    if items != [] { FreeItems(items[..|items| - 1]); }
  }

  lemma {:induction false} StampedFree(s: EnvironmentState, emissions: seq<Emission>)
    requires s.produced == [] && StampAll(s, emissions).Some?
    requires forall i :: 0 <= i < |emissions| ==> emissions[i].cost == 0.0
    ensures forall i :: 0 <= i < |StampAll(s, emissions).value.produced| ==>
      StampAll(s, emissions).value.produced[i].cost == 0.0
  {
    hide StampedId, Lineage;
    if emissions != [] { StampedFree(s, emissions[..|emissions| - 1]); }
  }

  lemma OpeningCosts(m: Machine)
    ensures forall i :: 0 <= i < |Opening(m)| ==> Opening(m)[i].cost == 0.0
  {
  }

  lemma OpenedFree(taskId: string, snapshotId: string, m: Machine)
    ensures ToolCost(Opened(taskId, snapshotId, m).produced) == 0.0
  {
    hide Opening, StampAll, Sound;
    NewOpens(taskId, snapshotId, m);
    OpeningCosts(m);
    StampedFree(NewState(taskId, snapshotId, m), Opening(m));
    FreeItems(Opened(taskId, snapshotId, m).produced);
  }

  lemma ItemCosts(s: EnvironmentState, action: string, candidate: Option<string>)
    ensures var r, o := TakeStep(s, action, candidate), Respond(s.machine, action, candidate);
      r.item.Some? ==>
        && o.Some? && r.item.value.cost == o.value.emission.cost
        && r.state.produced == s.produced + [r.item.value]
  {
    hide Respond, StampedId, Lineage;
  }

  lemma CliPrices(t: Machine, action: string)
    requires t.Cli? && CliAction(action)
    ensures CliStep(t, action).Some? && CliStep(t, action).value.emission.cost == PriceOf(action)
  {
  }

  lemma DataPrices(t: Machine, action: string)
    requires t.StructuredData?
    requires action == "CHECK_PROVENANCE" || action == "SELECT_SOURCE_A" || action == "SELECT_SOURCE_B"
    ensures DataStep(t, action).Some? && DataStep(t, action).value.emission.cost == PriceOf(action)
  {
  }

  lemma ConfigPrices(t: Machine, action: string)
    requires t.FilesystemConfig?
    requires action == "INSPECT_CONFIG_ORIGIN" || action == "SELECT_PROJECT_CONFIG" || action == "SELECT_CACHE_CONFIG"
    ensures ConfigStep(t, action).Some? && ConfigStep(t, action).value.emission.cost == PriceOf(action)
  {
  }

  lemma CodingPrices(t: Machine, action: string)
    requires t.RepositoryCoding? && CodingAction(action) && action != "ROLLBACK"
    ensures CodingStep(t, action).Some? && CodingStep(t, action).value.emission.cost == PriceOf(action)
  {
  }

  /** The machines charge these prices. */
  lemma ScriptPrices(m: Machine, t: Machine, allowed: seq<string>, k: nat, candidate: Option<string>)
    requires Equipped(m, allowed) && SameKind(m, t) && k < |Script(m)|
    ensures Respond(t, Script(m)[k], candidate).Some?
    ensures Respond(t, Script(m)[k], candidate).value.emission.cost == PriceOf(Script(m)[k])
  {
    hide CliStep, DataStep, ConfigStep, CodingStep, SlotSigned;
    var action := Script(m)[k];
    match m
    case Cli(_, _, _, _) => CliPrices(t, action);
    case StructuredData(_, _, _, _) => DataPrices(t, action);
    case FilesystemConfig(_, _, _, _, _) => ConfigPrices(t, action);
    case RepositoryCoding(_, _, _) => CodingPrices(t, action);
    case _ =>
  }

  // ----- The script in the environment -----

  /** Along the script no request raises, and the last one ends the episode. */
  lemma ScriptAnswers(s: EnvironmentState, allowed: seq<string>, asked: Requests, k: nat)
    requires AtStart(s) && Equipped(s.machine, allowed) && k < |Script(s.machine)| && OnScript(s.machine, asked, k + 1)
    requires s.machine.GenerativeFallback? ==> asked(0).1 == Some("key=stable-42")
    ensures Answered(s, asked, k).item.Some?
    ensures Answered(s, asked, k).done <==> k == |Script(s.machine)| - 1
  {
    hide Answered, AtStart, Asked, AskedThen, FixStands, FailureSeen, SlotSigned;
    var m := s.machine;
    assert asked(k).0 == Script(m)[k];
    NothingAskedAtAll(asked);
    match m
    case Cli(_, _, _, _) =>
      CliAnswers(s, asked, k);
      if k > 0 { AskedNext(asked, 0, "INSPECT_PROCESS_STATE"); }
      if k > 1 {
        AskedNext(asked, 1, "INSPECT_PROCESS_STATE");
        AskedThenNext(asked, 1, "INSPECT_PROCESS_STATE", "RESTART_PROCESS");
      } else if k == 1 {
        AskedThenNext(asked, 0, "INSPECT_PROCESS_STATE", "RESTART_PROCESS");
      }
    case StructuredData(_, _, _, _) =>
      DataAnswers(s, asked, k);
      AskedNext(asked, 0, "SELECT_SOURCE_A");
      AskedNext(asked, 0, "SELECT_SOURCE_B");
    case FilesystemConfig(_, _, _, _, _) =>
      ConfigAnswers(s, asked, k);
      AskedNext(asked, 0, "SELECT_PROJECT_CONFIG");
      AskedNext(asked, 0, "SELECT_CACHE_CONFIG");
    case RepositoryCoding(_, _, _) => CodingAnswers(s, asked, k);
    case SafeDefer => SafeDeferAnswers(s, asked, k);
    case GenerativeFallback(_) => GenerativeAnswers(s, asked, k);
  }

  // ----- The run -----

  /** The budget reaches, and a generator that is needed drafts what is looked for. */
  ghost predicate Provided(task: PublicTask, w: World, m: Machine) {
    && task.budget.maxSteps >= |Script(m)|
    && (task.budget.maxToolCost.Some? ==> task.budget.maxToolCost.value >= Paid(m, |Script(m)|))
    && (m.GenerativeFallback? ==>
          w.generator.Some? && w.generator.value(0) == "key=stable-42" && DraftLimit(task) >= 1)
  }

  /** A task that fits its environment, and an actor that has recorded a failure in every state. */
  ghost predicate Fitted(task: PublicTask, w: World, m: Machine, cursors: Cursors) {
    && Fresh(m) && SpeaksOfItsSlots(m) && Equipped(m, task.allowedActions)
    && (m.RepositoryCoding? || task.domain != "repository_coding")
    && (forall state :: Cursor(cursors, state) >= 1)
    && Provided(task, w, m)
  }

  /** The actor's run over a session of this environment. */
  ghost predicate Searched(task: PublicTask, w: World, snapshotId: string, m: Machine, cursors: Cursors) {
    && Fitted(task, w, m, cursors)
    && Hosted(task, w, Opened(task.taskId, snapshotId, m)) && RunBy(task, Final(task, w).calls, cursors)
  }

  /** As much of that as the script needs: replies of the session where it has any, and decisions of the
      actor on what the session has shown. */
  ghost predicate Underway(task: PublicTask, w: World, snapshotId: string, m: Machine, cursors: Cursors) {
    var start := Opened(task.taskId, snapshotId, m);
    && Fitted(task, w, m, cursors)
    && w.reset == start.produced
    && (forall k: nat :: k < Final(task, w).steps && AsksHost(task, w, k) && ReplyAt(task, w, start, k).Some? ==>
          ReplyAt(task, w, start, k) == Some(w.host(k)))
    && forall k: nat :: k < |Script(m)| && k < Final(task, w).steps && KeptUp(task, w, start, k) ==>
         ActsByCursor(cursors, Encode(task.domain, ToDicts(SeenBefore(task, w, k))), task.allowedActions, w.policy(k))
  }

  /** Up to request `k` the run has kept to the script and seen what the environment produced. */
  ghost predicate KeptUp(task: PublicTask, w: World, start: EnvironmentState, k: nat)
    requires k <= |Script(start.machine)|
  {
    && OnScript(start.machine, RequestsOf(w), k)
    && SeenBefore(task, w, k) == StateAfter(start, RequestsOf(w), k).produced
  }

  lemma SearchedUnderway(task: PublicTask, w: World, snapshotId: string, m: Machine, cursors: Cursors)
    requires Searched(task, w, snapshotId, m, cursors)
    ensures Underway(task, w, snapshotId, m, cursors)
  {
    hide Fitted, Final, StateAfter, SeenBefore, Opened, ReplyAt, AsksHost, ActsByCursor, Encode, ToDicts, OnScript,
      Script, Actions;
    PolicySees(task, w);
    forall k: nat | k < Final(task, w).steps
      ensures ActsByCursor(cursors, Encode(task.domain, ToDicts(SeenBefore(task, w, k))), task.allowedActions,
                           w.policy(k))
    {
      assert IsolatedLaws.Asks(Final(task, w).calls)[k].Decide?;
    }
  }

  /** The run has come as far as request `k` of the script. */
  ghost predicate Reached(task: PublicTask, w: World, start: EnvironmentState, k: nat)
    requires k <= |Script(start.machine)|
  {
    && k <= Final(task, w).steps
    && KeptUp(task, w, start, k)
    && ToolCost(SeenBefore(task, w, k)) == Paid(start.machine, k)
    && forall j :: 0 <= j < k < |Script(start.machine)| ==> GoesOn(task, w, j)
  }

  lemma CursorWithin(cursor: nat, state: SemanticState, allowed: seq<string>)
    ensures var d := AtCursor(cursor, state, allowed);
      && (d.kind.Select? ==> d.action.Some? && d.action.value in allowed)
      && (d.kind.CallGenerative? ==> CALL_ACTION in allowed)
  {
    hide IntentDecision, Supported;
    var candidates := Supported(state, allowed);
    SupportedDistinct(state, allowed);
    if candidates != [] {
      var intent := candidates[if cursor < |candidates| then cursor else |candidates| - 1];
      assert intent in candidates;
      AdapterRoundTrip(intent, allowed);
    }
  }

  /** What is left open by the cost of the script so far. */
  lemma ReachedAffordable(task: PublicTask, w: World, start: EnvironmentState, k: nat)
    requires k <= |Script(start.machine)| && Provided(task, w, start.machine)
    requires ToolCost(SeenBefore(task, w, k)) == Paid(start.machine, k)
    ensures Affordable(task, SeenBefore(task, w, k))
  {
    hide Script, SeenBefore, ToolCost, Paid;
    PaidGrows(start.machine, k, |Script(start.machine)|);
  }

  /** In the middle of the script no ending fits. */
  lemma StillGoing(task: PublicTask, w: World, start: EnvironmentState, k: nat, r: EpisodeResult)
    requires k < |Script(start.machine)| && Provided(task, w, start.machine) && Reached(task, w, start, k)
    requires ExactEnd(task, w, r, Final(task, w).steps)
    ensures Final(task, w).steps > k
  {
    hide Script, SeenBefore, ToolCost, Paid, Final, StateAfter, OnScript, Affordable;
    ReachedAffordable(task, w, start, k);
    assert k > 0 ==> GoesOn(task, w, k - 1);
    if Final(task, w).steps == k {
      assert EndsBy(task, w, k, r.generativeCalls, r.terminalReason);
    }
  }

  /** The actor's decision is the next request of the script, and the gym passes it on. */
  lemma NextDecision(task: PublicTask, w: World, snapshotId: string, m: Machine, cursors: Cursors, k: nat)
    requires Underway(task, w, snapshotId, m, cursors) && k < |Script(m)|
    requires Reached(task, w, Opened(task.taskId, snapshotId, m), k) && k < Final(task, w).steps
    ensures OnScript(m, RequestsOf(w), k + 1) && PassedOn(task, w, k)
    ensures m.GenerativeFallback? ==> RequestsOf(w)(0).1 == Some("key=stable-42")
  {
    hide Script, SeenBefore, ToolCost, Paid, Final, StateAfter, Equipped, Fresh, SpeaksOfItsSlots, AtCursor, Opened,
      Encode, ToDicts, StateSeen, ActsByCursor, Cursor, AsksHost, ReplyAt;
    var asked, allowed := RequestsOf(w), task.allowedActions;
    var state := Encode(task.domain, ToDicts(SeenBefore(task, w, k)));
    UntaughtFollowsCursor(cursors, state, allowed, w.policy(k));
    EvidenceEncodes(task.domain, task.taskId, snapshotId, m, asked, k);
    NextOnScript(m, allowed, cursors, asked, k);
    CursorWithin(Cursor(cursors, state), state, allowed);
    NextKind(task, w, m, cursors, k);
  }

  /** Only the fallback calls the generator, and at once. */
  lemma NextKind(task: PublicTask, w: World, m: Machine, cursors: Cursors, k: nat)
    requires Equipped(m, task.allowedActions) && Provided(task, w, m) && forall state :: Cursor(cursors, state) >= 1
    requires k < |Script(m)|
    requires var state := StateSeen(m, RequestsOf(w), k);
      w.policy(k) == AtCursor(Cursor(cursors, state), state, task.allowedActions)
      && ActionOf(w.policy(k)) == Script(m)[k]
    ensures w.policy(k).kind.CallGenerative? ==> w.generator.Some? && Drafts(w, k) < DraftLimit(task)
    ensures m.GenerativeFallback? ==> RequestsOf(w)(0).1 == Some("key=stable-42")
  {
    hide AtCursor, Cursor, ProcessSeen, RepositorySeen, Asked, SlotSigned;
    if m.GenerativeFallback? { CapabilityMoves(cursors, task.allowedActions); }
    if w.policy(k).kind.CallGenerative? { assert Script(m)[k] == "CALL_GENERATIVE"; }
  }

  /** The session answers, and the script has come one request further. */
  lemma NextReply(task: PublicTask, w: World, snapshotId: string, m: Machine, cursors: Cursors, k: nat)
    requires Underway(task, w, snapshotId, m, cursors) && k < |Script(m)|
    requires Reached(task, w, Opened(task.taskId, snapshotId, m), k) && k < Final(task, w).steps
    requires OnScript(m, RequestsOf(w), k + 1) && PassedOn(task, w, k)
    requires m.GenerativeFallback? ==> RequestsOf(w)(0).1 == Some("key=stable-42")
    ensures w.host(k).Outcome? && (w.host(k).done <==> k == |Script(m)| - 1)
    ensures SeenBefore(task, w, k + 1) == StateAfter(Opened(task.taskId, snapshotId, m), RequestsOf(w), k + 1).produced
    ensures ToolCost(SeenBefore(task, w, k + 1)) == Paid(m, k + 1)
  {
    hide Script, ToolCost, Final, Fresh, SpeaksOfItsSlots, Equipped, Opened, AtStart, Provided, Respond, ActsByCursor,
      TakeStep, Sound, PriceOf, Cursor, SameKind;
    var start, asked := Opened(task.taskId, snapshotId, m), RequestsOf(w);
    OpenedAtStart(task.taskId, snapshotId, m);
    ScriptAnswers(start, task.allowedActions, asked, k);
    var t := StateAfter(start, asked, k);
    ItemCosts(t, asked(k).0, asked(k).1);
    KindKept(start, asked, k);
    ScriptPrices(m, t.machine, task.allowedActions, k, asked(k).1);
    ScriptWithin(task, m, k);
    assert asked(k).0 == Script(m)[k];
    assert AsksHost(task, w, k);
    assert ReplyAt(task, w, start, k).Some?;
    assert ReplyAt(task, w, start, k) == Some(w.host(k));
    CostNext(t.produced, TakeStep(t, asked(k).0, asked(k).1).item.value);
  }

  lemma {:induction false} KindKept(start: EnvironmentState, asked: Requests, k: nat)
    ensures SameKind(start.machine, StateAfter(start, asked, k).machine)
  {
    hide Respond, Stamp;
    if k > 0 {
      KindKept(start, asked, k - 1);
      RespondRegular(StateAfter(start, asked, k - 1).machine, asked(k - 1).0, asked(k - 1).1);
    }
  }

  lemma ScriptWithin(task: PublicTask, m: Machine, k: nat)
    requires Equipped(m, task.allowedActions) && k < |Script(m)|
    ensures ActionAllowed(task, Script(m)[k])
  {
    hide SlotSigned;
  }

  lemma UnderwayProvided(task: PublicTask, w: World, snapshotId: string, m: Machine, cursors: Cursors)
    requires Underway(task, w, snapshotId, m, cursors)
    ensures Provided(task, w, m) && w.reset == Opened(task.taskId, snapshotId, m).produced
  {
    hide Provided, Opened, Final, KeptUp, ReplyAt, AsksHost, ActsByCursor, Encode, ToDicts, SeenBefore;
  }

  lemma ScriptAdvances(task: PublicTask, w: World, snapshotId: string, m: Machine, cursors: Cursors, k: nat,
                       r: EpisodeResult)
    requires Underway(task, w, snapshotId, m, cursors) && k < |Script(m)|
    requires ExactEnd(task, w, r, Final(task, w).steps)
    requires Reached(task, w, Opened(task.taskId, snapshotId, m), k)
    ensures Reached(task, w, Opened(task.taskId, snapshotId, m), k + 1)
    ensures k < Final(task, w).steps && PassedOn(task, w, k)
    ensures w.host(k).Outcome? && (w.host(k).done <==> k == |Script(m)| - 1)
    ensures m.GenerativeFallback? ==> RequestsOf(w)(0).1 == Some("key=stable-42")
  {
    hide Script, ToolCost, Final, Opened, PassedOn, ExactEnd, Affordable, Paid, StateAfter, SeenBefore, Underway,
      OnScript, Provided;
    var start := Opened(task.taskId, snapshotId, m);
    UnderwayProvided(task, w, snapshotId, m, cursors);
    StillGoing(task, w, start, k, r);
    NextDecision(task, w, snapshotId, m, cursors, k);
    NextReply(task, w, snapshotId, m, cursors, k);
    ReachedAffordable(task, w, start, k + 1);
    WentOn(task, w, k);
  }

  lemma {:induction false} ScriptReached(task: PublicTask, w: World, snapshotId: string, m: Machine, cursors: Cursors,
                                         k: nat, r: EpisodeResult)
    requires Underway(task, w, snapshotId, m, cursors) && k <= |Script(m)|
    requires ExactEnd(task, w, r, Final(task, w).steps)
    ensures Reached(task, w, Opened(task.taskId, snapshotId, m), k)
    ensures forall j: nat :: j < k ==> j < Final(task, w).steps && PassedOn(task, w, j)
    ensures forall j: nat :: j < k ==> w.host(j).Outcome? && (w.host(j).done <==> j == |Script(m)| - 1)
    ensures m.GenerativeFallback? && k > 0 ==> RequestsOf(w)(0).1 == Some("key=stable-42")
  {
    hide Script, Final, Opened, PassedOn, ExactEnd, Reached, Underway;
    if k == 0 {
      UnderwayProvided(task, w, snapshotId, m, cursors);
      NothingReached(task, w, snapshotId, m);
    } else {
      ScriptReached(task, w, snapshotId, m, cursors, k - 1, r);
      ScriptAdvances(task, w, snapshotId, m, cursors, k - 1, r);
    }
  }

  lemma NothingReached(task: PublicTask, w: World, snapshotId: string, m: Machine)
    requires w.reset == Opened(task.taskId, snapshotId, m).produced
    ensures Reached(task, w, Opened(task.taskId, snapshotId, m), 0)
  {
    hide ToolCost, Final, Sound, StampAll, Opened;
    OpenedFree(task.taskId, snapshotId, m);
  }

  lemma ScriptIsLong(m: Machine)
    ensures |Script(m)| > 0
  {
  }

  /** With its last request the script ends the run. */
  lemma EndsWithScript(task: PublicTask, w: World, snapshotId: string, m: Machine, cursors: Cursors, r: EpisodeResult)
    requires Underway(task, w, snapshotId, m, cursors) && ExactEnd(task, w, r, Final(task, w).steps)
    ensures Final(task, w).steps == |Script(m)| && r.terminalReason == EnvironmentDone
    ensures OnScript(m, RequestsOf(w), |Script(m)|)
    ensures m.GenerativeFallback? ==> RequestsOf(w)(0).1 == Some("key=stable-42")
  {
    hide Script, ToolCost, Final, Fresh, SpeaksOfItsSlots, Equipped, Opened, Provided, Affordable, Paid, StateAfter,
      SeenBefore, Cursor, PassedOn, Actions, AsksHost, ReplyAt, ActsByCursor;
    var n, start, last := Final(task, w).steps, Opened(task.taskId, snapshotId, m), |Script(m)| - 1;
    ScriptIsLong(m);
    ScriptReached(task, w, snapshotId, m, cursors, |Script(m)|, r);
    ReachedAffordable(task, w, start, |Script(m)|);
    assert n > last && PassedOn(task, w, last) && w.host(last).Outcome? && w.host(last).done;
    WentOn(task, w, last);
    assert n == |Script(m)|;
    assert EndsBy(task, w, n, r.generativeCalls, EnvironmentDone);
  }

  /** The search succeeds in the gym: with nothing learned and one failure recorded in each state, a
      run of the actor over a session of any reference environment makes exactly the requests that
      earn its verdict, is ended by its environment, and is accepted if its bundle is verified. */
  lemma SearchedRunIsAccepted(task: PublicTask, w: World, snapshotId: string, m: Machine, cursors: Cursors,
                              bundlePasses: bool, hasSink: bool)
    requires Searched(task, w, snapshotId, m, cursors)
    ensures var r := Receipt(task, w, Final(task, w), bundlePasses, hasSink);
      && r.terminalReason == EnvironmentDone && r.trajectory == Script(m)
      && r.admission.provenanceValid && (r.Accepted() <==> bundlePasses)
  {
    hide Script, Final, Fresh, SpeaksOfItsSlots, Equipped, Opened, RunBy, Provided, StateAfter, Receipt, Cursor, Earned,
      ExactEnd, Hosted, Actions, OnScript, Underway;
    var r, n := Receipt(task, w, Final(task, w), bundlePasses, hasSink), Final(task, w).steps;
    SearchedUnderway(task, w, snapshotId, m, cursors);
    EndingIsExact(task, w, bundlePasses, hasSink);
    EndsWithScript(task, w, snapshotId, m, cursors, r);
    ScriptEarns(m, task.allowedActions, RequestsOf(w));
    HostedRunsAreEarned(task, w, snapshotId, m, bundlePasses, hasSink);
    ActionsAre(w, m, n);
    assert Script(m)[..n] == Script(m);
  }

  lemma {:induction false} ActionsAre(w: World, m: Machine, n: nat)
    requires n <= |Script(m)| && OnScript(m, RequestsOf(w), n)
    ensures Actions(w, n) == Script(m)[..n]
  {
    hide Script, CandidateAt;
    if n > 0 {
      ActionsAre(w, m, n - 1);
      assert RequestsOf(w)(n - 1).0 == Script(m)[n - 1];
    }
  }

  // ----- Such runs exist -----

  /** The script as a history of requests. */
  function Scripted(m: Machine): Requests {
    (k: nat) => (if k < |Script(m)| then Script(m)[k] else "",
                 if m.GenerativeFallback? then Some("key=stable-42") else None)
  }

  function StateOnScript(task: PublicTask, snapshotId: string, m: Machine, k: nat): SemanticState {
    Encode(task.domain, ToDicts(StateAfter(Opened(task.taskId, snapshotId, m), Scripted(m), k).produced))
  }

  function Chosen(task: PublicTask, snapshotId: string, m: Machine, cursors: Cursors, k: nat): PolicyDecision {
    var state := StateOnScript(task, snapshotId, m, k);
    AtCursor(Cursor(cursors, state), state, task.allowedActions)
  }

  /** The actor over a session of this environment. */
  function Acting(task: PublicTask, base: World, snapshotId: string, m: Machine, cursors: Cursors): World {
    ServedBy(task, base.(policy := (k: nat) => Chosen(task, snapshotId, m, cursors, k)),
             Opened(task.taskId, snapshotId, m))
  }

  lemma ChosenOnScript(task: PublicTask, base: World, snapshotId: string, m: Machine, cursors: Cursors, k: nat)
    requires Fitted(task, base, m, cursors) && k < |Script(m)|
    ensures RequestsOf(Acting(task, base, snapshotId, m, cursors))(k) == Scripted(m)(k)
  {
    hide Script, ServedBy, Opened, AtCursor, Equipped, Fresh, SpeaksOfItsSlots, Cursor, Encode, ToDicts, StateAfter,
      StateSeen;
    var w, allowed := Acting(task, base, snapshotId, m, cursors), task.allowedActions;
    ActingIs(task, base, snapshotId, m, cursors);
    EvidenceEncodes(task.domain, task.taskId, snapshotId, m, Scripted(m), k);
    NextOnScript(m, allowed, cursors, Scripted(m), k);
    DraftsOnScript(task, base, m, cursors, w, k);
  }

  lemma ActingIs(task: PublicTask, base: World, snapshotId: string, m: Machine, cursors: Cursors)
    ensures var w := Acting(task, base, snapshotId, m, cursors);
      && w.generator == base.generator && w.reset == Opened(task.taskId, snapshotId, m).produced
      && forall k :: w.policy(k) == Chosen(task, snapshotId, m, cursors, k)
  {
    hide Chosen, Opened, Final, StateAfter, SessionReply;
  }

  lemma DraftsOnScript(task: PublicTask, base: World, m: Machine, cursors: Cursors, w: World, k: nat)
    requires Fitted(task, base, m, cursors) && k < |Script(m)| && w.generator == base.generator
    requires var state := StateSeen(m, Scripted(m), k);
      && w.policy(k) == AtCursor(Cursor(cursors, state), state, task.allowedActions)
      && ActionOf(w.policy(k)) == Script(m)[k]
    ensures CandidateAt(w, k) == if m.GenerativeFallback? then Some("key=stable-42") else None
  {
    hide AtCursor, Cursor, ProcessSeen, RepositorySeen, Asked, SlotSigned, Fresh, SpeaksOfItsSlots;
    if m.GenerativeFallback? { CapabilityMoves(cursors, task.allowedActions); }
    if w.policy(k).kind.CallGenerative? { assert Script(m)[k] == "CALL_GENERATIVE"; }
  }

  lemma {:induction false} SamePrefix(s: EnvironmentState, a: Requests, b: Requests, n: nat)
    requires forall k: nat :: k < n ==> a(k) == b(k)
    ensures StateAfter(s, a, n) == StateAfter(s, b, n)
  {
    hide TakeStep;
    if n > 0 {
      var k: nat := n - 1;
      SamePrefix(s, a, b, k);
      assert a(k) == b(k);
    }
  }

  lemma UntaughtMayFollow(cursors: Cursors, state: SemanticState, allowed: seq<string>)
    ensures ActsByCursor(cursors, state, allowed, AtCursor(Cursor(cursors, state), state, allowed))
  {
    hide AtCursor, Cursor;
    assert AdaptivePolicy.Decides(map[], state, allowed, PolicyDecision(DeferNoSupport, None));
  }

  lemma ActingUnderway(task: PublicTask, base: World, snapshotId: string, m: Machine, cursors: Cursors)
    requires Fitted(task, base, m, cursors)
    ensures Underway(task, Acting(task, base, snapshotId, m, cursors), snapshotId, m, cursors)
  {
    hide Script, Opened, AtCursor, Cursor, Encode, ToDicts, StateAfter, Final, SeenBefore, AsksHost, SessionReply,
      ActsByCursor, OnScript, Acting, Equipped, Fresh, SpeaksOfItsSlots;
    var w, start := Acting(task, base, snapshotId, m, cursors), Opened(task.taskId, snapshotId, m);
    ActingIs(task, base, snapshotId, m, cursors);
    forall k: nat | ReplyAt(task, w, start, k).Some? ensures ReplyAt(task, w, start, k) == Some(w.host(k)) {
      ActingReplies(task, base, snapshotId, m, cursors, k);
    }
    forall k: nat | k < |Script(m)| && KeptUp(task, w, start, k)
      ensures ActsByCursor(cursors, Encode(task.domain, ToDicts(SeenBefore(task, w, k))), task.allowedActions,
                           w.policy(k))
    {
      forall j: nat | j < k ensures RequestsOf(w)(j) == Scripted(m)(j) {
        ChosenOnScript(task, base, snapshotId, m, cursors, j);
      }
      SamePrefix(start, RequestsOf(w), Scripted(m), k);
      UntaughtMayFollow(cursors, StateOnScript(task, snapshotId, m, k), task.allowedActions);
    }
  }

  lemma ActingReplies(task: PublicTask, base: World, snapshotId: string, m: Machine, cursors: Cursors, k: nat)
    ensures var w, start := Acting(task, base, snapshotId, m, cursors), Opened(task.taskId, snapshotId, m);
      var reply := ReplyAt(task, w, start, k); w.host(k) == if reply.Some? then reply.value else Rejected
  {
    hide Opened, StateAfter, SessionReply, Final, Chosen;
    var w, start := Acting(task, base, snapshotId, m, cursors), Opened(task.taskId, snapshotId, m);
    var actor := base.(policy := (i: nat) => Chosen(task, snapshotId, m, cursors, i));
    SameStates(w, actor, start, k);
    SameDrafts(w, actor, k);
  }

  /** For any generator that drafts what is looked for, and for any environment and task that fit, the
      actor's run over a session exists: the environment raises in none of its turns. */
  lemma SearchedRunExists(task: PublicTask, base: World, snapshotId: string, m: Machine, cursors: Cursors)
    requires Fitted(task, base, m, cursors)
    ensures Searched(task, Acting(task, base, snapshotId, m, cursors), snapshotId, m, cursors)
  {
    hide Script, Opened, Acting, Fitted, Final, Receipt, ExactEnd, SeenBefore, StateAfter, AsksHost, ReplyAt, PassedOn,
      ActsByCursor, Encode, ToDicts, Hosted, OnScript, Actions;
    var w, start := Acting(task, base, snapshotId, m, cursors), Opened(task.taskId, snapshotId, m);
    ActingUnderway(task, base, snapshotId, m, cursors);
    var r := Receipt(task, w, Final(task, w), true, false);
    EndingIsExact(task, w, true, false);
    EndsWithScript(task, w, snapshotId, m, cursors, r);
    ScriptReached(task, w, snapshotId, m, cursors, |Script(m)|, r);
    forall k: nat | k < Final(task, w).steps ensures ReplyAt(task, w, start, k).Some? {
      ActingReplies(task, base, snapshotId, m, cursors, k);
    }
    ActingHosted(task, base, snapshotId, m, cursors);
    PolicySees(task, w);
    forall k: nat | k < Final(task, w).steps
      ensures ActsByCursor(cursors, Encode(task.domain, ToDicts(SeenBefore(task, w, k))), task.allowedActions,
                           w.policy(k))
    {
      ScriptReached(task, w, snapshotId, m, cursors, k, r);
    }
  }

  lemma ActingHosted(task: PublicTask, base: World, snapshotId: string, m: Machine, cursors: Cursors)
    requires var w, start := Acting(task, base, snapshotId, m, cursors), Opened(task.taskId, snapshotId, m);
      forall k: nat :: k < Final(task, w).steps ==> ReplyAt(task, w, start, k).Some?
    ensures Hosted(task, Acting(task, base, snapshotId, m, cursors), Opened(task.taskId, snapshotId, m))
  {
    hide Opened, Final, ReplyAt, Chosen, StateAfter, Hosted, AsksHost, ServedBy;
    ServedRunsAreHosted(task, base.(policy := (k: nat) => Chosen(task, snapshotId, m, cursors, k)),
                        Opened(task.taskId, snapshotId, m));
  }
}
