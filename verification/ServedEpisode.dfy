/** An isolated episode whose agent sits behind the TCP endpoint (`gym/isolated_agent.py` over
    `gym/external_agent.py`): the receipts of the calls carry the turns that the transcript needs. */
module ServedEpisode {
  import opened Json
  import opened HashChain
  import opened Evidence
  import opened Episode
  import opened TranscriptBinding
  import opened AgentTranscript
  import opened AgentAdapter
  import opened IsolatedLaws
  import External = ExternalAgent

  /** The endpoint's other business before a call of the episode, and what the network and the
      worker's parties do to that call. */
  datatype Service = Service(before: seq<External.Step>, net: External.Network, minds: External.Minds)

  /** A call that has to do with other sessions, or with none. */
  predicate Elsewhere(call: External.Call, session: string) {
    match call
    case CallDecide(other, _, _) => other != session
    case CallGenerate(other, _, _) => other != session
    case CallClose(other) => other != session
    case _ => true
  }

  predicate AllElsewhere(steps: seq<External.Step>, session: string) {
    forall i :: 0 <= i < |steps| ==> Elsewhere(steps[i].call, session)
  }

  function Answered(l: External.Link, session: string, call: Call, service: Service)
    : (External.Link, Option<External.Answer>)
  {
    External.Called(External.Ran(l, service.before), Request(session, call), service.net, service.minds)
  }

  function Request(session: string, call: Call): External.Call {
    match call
    case Decide(observations, trajectory, _) => External.CallDecide(session, observations, trajectory)
    case Generate(seen, attempt, _) => External.CallGenerate(session, seen, attempt)
  }

  /** The receipt brings this answer. */
  predicate Brings(receipt: Option<External.Answer>, call: Call) {
    match receipt
    case Some(Decided(_, _, decision)) => call.Decide? && call.decision == decision
    case Some(Drafted(_, _, candidate)) => call.Generate? && call.candidate == candidate
    case _ => false
  }

  /** The endpoint answers all these calls, with any calls on other sessions in between; if it raised
      in one of them, the episode would not complete. */
  ghost predicate Served(l: External.Link, session: string, calls: seq<Call>, services: seq<Service>)
    decreases calls
  {
    calls != [] ==>
      && services != [] && AllElsewhere(services[0].before, session)
      && var (after, receipt) := Answered(l, session, calls[0], services[0]);
         Brings(receipt, calls[0]) && Served(after, session, calls[1..], services[1..])
  }

  /** The turns that the receipts report. */
  function Turns(l: External.Link, session: string, calls: seq<Call>, services: seq<Service>): seq<nat>
    decreases calls
  {
    if calls == [] || services == [] then []
    else
      var (after, receipt) := Answered(l, session, calls[0], services[0]);
      External.TurnOf(receipt, session) + Turns(after, session, calls[1..], services[1..])
  }

  lemma ElsewhereKeepsTurn(l: External.Link, step: External.Step, session: string)
    requires External.InSync(l) && session in l.endpoint.turns && Elsewhere(step.call, session)
    ensures var after := External.Called(l, step.call, step.net, step.m).0;
      && External.InSync(after)
      && (External.Usable(after.endpoint) ==>
            session in after.endpoint.turns && after.endpoint.turns[session] == l.endpoint.turns[session])
  {
    hide External.Called, External.InSync;
    var receipt := External.Called(l, step.call, step.net, step.m).1;
    External.CallKeepsSync(l, step.call, step.net, step.m);
    External.CallMovesTurn(l, step.call, step.net, step.m, session);
    if receipt.Some? { External.ReceiptAnswersThisCall(l, step.call, step.net, step.m); }
  }

  lemma {:induction false} StepsKeepTurn(l: External.Link, steps: seq<External.Step>, session: string)
    requires External.InSync(l) && session in l.endpoint.turns && AllElsewhere(steps, session)
    ensures var after := External.Ran(l, steps);
      && External.InSync(after)
      && (External.Usable(after.endpoint) ==>
            session in after.endpoint.turns && after.endpoint.turns[session] == l.endpoint.turns[session])
    decreases steps
  {
    hide External.Called, External.InSync;
    External.LockstepHolds(l, steps);
    if steps != [] {
      var after := External.Called(l, steps[0].call, steps[0].net, steps[0].m).0;
      ElsewhereKeepsTurn(l, steps[0], session);
      if External.Usable(after.endpoint) {
        StepsKeepTurn(after, steps[1..], session);
      } else {
        External.PoisonIsAbsorbing(after, steps[1..]);
      }
    }
  }

  lemma CallServed(l: External.Link, session: string, call: Call, service: Service)
    requires External.InSync(l) && session in l.endpoint.turns && AllElsewhere(service.before, session)
    requires Brings(Answered(l, session, call, service).1, call)
    ensures var (after, receipt) := Answered(l, session, call, service);
      && External.InSync(after) && session in after.endpoint.turns
      && External.TurnOf(receipt, session) == [l.endpoint.turns[session]]
      && after.endpoint.turns[session] == l.endpoint.turns[session] + 1
      && (call.Decide? ==> ValidDecision(call.decision))
  {
    hide External.Called, External.InSync, External.Ran, ValidDecision, AllElsewhere;
    var here := External.Ran(l, service.before);
    StepsKeepTurn(l, service.before, session);
    External.CallKeepsSync(here, Request(session, call), service.net, service.minds);
    External.CallMovesTurn(here, Request(session, call), service.net, service.minds, session);
    External.ReceiptAnswersThisCall(here, Request(session, call), service.net, service.minds);
  }

  /** The receipts of served calls count up, and their decisions are well formed. */
  lemma {:induction false} ServedTurns(l: External.Link, session: string, calls: seq<Call>, services: seq<Service>)
    requires External.InSync(l) && session in l.endpoint.turns && Served(l, session, calls, services)
    ensures var turns := Turns(l, session, calls, services);
      && |turns| == |calls|
      && forall i :: 0 <= i < |turns| ==> turns[i] == l.endpoint.turns[session] + i
    ensures forall i :: 0 <= i < |calls| && calls[i].Decide? ==> ValidDecision(calls[i].decision)
    decreases calls
  {
    hide Answered, External.InSync, External.TurnOf, ValidDecision, Brings;
    if calls != [] {
      CallServed(l, session, calls[0], services[0]);
      var after := Answered(l, session, calls[0], services[0]).0;
      ServedTurns(after, session, calls[1..], services[1..]);
      forall i | 0 < i < |calls| && calls[i].Decide? ensures ValidDecision(calls[i].decision) {
        assert calls[i] == calls[1..][i - 1];
      }
    }
  }

  /** The transcript written from receipts that report these turns. */
  function Written(w: World, view: AgentTaskView, session: string, calls: seq<Call>, turns: seq<nat>): seq<Entry>
    requires |turns| == |calls|
  {
    if calls == [] then Append(w.h, [], AGENT_START, StartPayload(w.h, view, session))
    else
      var n := |calls| - 1;
      Noted(w, Written(w, view, session, calls[..n], turns[..n]), turns[n], calls[n])
  }

  lemma {:induction false} WrittenIsTranscript(w: World, view: AgentTaskView, session: string, calls: seq<Call>,
                                               turns: seq<nat>)
    requires |turns| == |calls| && forall i :: 0 <= i < |turns| ==> turns[i] == i + 1
    ensures Written(w, view, session, calls, turns) == Transcript(w, view, session, calls)
  {
    hide Noted, StartPayload, Append;
    if calls != [] {
      var n := |calls| - 1;
      WrittenIsTranscript(w, view, session, calls[..n], turns[..n]);
    }
  }

  // ----- The policy's decisions are the ones its calls returned -----

  ghost predicate AskedFor(s: State, decision: PolicyDecision) {
    exists i :: 0 <= i < |s.calls| && s.calls[i].Decide? && s.calls[i].decision == decision
  }

  ghost predicate AllAskedFor(w: World, s: State) {
    forall k :: 0 <= k < s.steps ==> AskedFor(s, w.policy(k))
  }

  lemma CallsGrow(s: State, t: State, decision: PolicyDecision)
    requires s.calls <= t.calls && AskedFor(s, decision)
    ensures AskedFor(t, decision)
  {
    var i :| 0 <= i < |s.calls| && s.calls[i].Decide? && s.calls[i].decision == decision;
    assert t.calls[i] == s.calls[i];
  }

  lemma TurnCalls(task: PublicTask, w: World, s: State)
    requires s.end.None?
    ensures var t := TakeTurn(task, w, s);
      && s.calls <= t.calls
      && (if s.steps < task.budget.maxSteps
          then t.steps == s.steps + 1 && AskedFor(t, w.policy(s.steps)) else t.steps == s.steps)
  {
    hide Append, ToDicts, DecisionJson, OverCost;
    if s.steps < task.budget.maxSteps {
      var t := TakeTurn(task, w, s);
      assert t.calls[|s.calls|] == Ask(w, s).calls[|s.calls|];
    }
  }

  lemma {:induction false} PlayAsks(task: PublicTask, w: World, s: State)
    requires AllAskedFor(w, s)
    ensures AllAskedFor(w, Play(task, w, s))
    decreases Fuel(task, s)
  {
    hide TakeTurn, AskedFor;
    if s.end.None? {
      var t := TakeTurn(task, w, s);
      TurnAdvances(task, w, s);
      TurnCalls(task, w, s);
      forall k | 0 <= k < t.steps ensures AskedFor(t, w.policy(k)) {
        if k < s.steps { CallsGrow(s, t, w.policy(k)); }
      }
      PlayAsks(task, w, t);
    }
  }

  lemma DecisionsValid(task: PublicTask, w: World)
    requires var calls := Final(task, w).calls;
      forall i :: 0 <= i < |calls| && calls[i].Decide? ==> ValidDecision(calls[i].decision)
    ensures forall k :: 0 <= k < Final(task, w).steps ==> ValidDecision(w.policy(k))
  {
    hide Play, ValidDecision;
    assert Begin(task, w).steps == 0;
    PlayAsks(task, w, Begin(task, w));
    assert AllAskedFor(w, Final(task, w));
  }

  /** An isolated episode that completes over the endpoint: its session was opened, whatever calls
      and losses came before, and every call was answered, over any network and with any calls on
      other sessions in between. Then the transcript written from the receipts is accepted, and it
      binds to the episode exactly unless the host rejected an action after its candidate was drafted. */
  lemma ServedEpisodeBinds(task: PublicTask, w: World, history: seq<External.Step>, opening: External.Step,
                           session: string, taskSha: string, services: seq<Service>, bundlePasses: bool)
    requires HexDigests(w)
    requires var (l, receipt) := External.Called(External.Ran(External.NEW_LINK, history),
                External.CallStart(task.AgentView()), opening.net, opening.m);
      receipt == Some(External.Started(session, taskSha)) && Served(l, session, Final(task, w).calls, services)
    ensures var l := External.Called(External.Ran(External.NEW_LINK, history),
                External.CallStart(task.AgentView()), opening.net, opening.m).0;
      var calls := Final(task, w).calls;
      var turns := Turns(l, session, calls, services);
      && |turns| == |calls|
      && var entries := Append(w.h, Written(w, task.AgentView(), session, calls, turns), AGENT_CLOSE,
                               ClosePayload(session));
         && Accepts(w.h, Document(entries))
         && (AcceptsEpisode(w.h, w.textSha, Document(entries), task.AgentView(),
                            Receipt(task, w, Final(task, w), bundlePasses, false))
             <==> !LostCandidate(w, Final(task, w)))
  {
    hide HexDigests, Accepts, AcceptsEpisode, Receipt, Final, LostCandidate, Document, Written, Transcript, Append,
      Served, ValidDecision, ClosePayload, External.Called, External.Ran, External.InSync;
    var before := External.Ran(External.NEW_LINK, history);
    HistoryInSync(history);
    var l := External.Called(before, External.CallStart(task.AgentView()), opening.net, opening.m).0;
    SessionOpened(before, task.AgentView(), opening, session, taskSha);
    ServedTurns(l, session, Final(task, w).calls, services);
    DecisionsValid(task, w);
    WrittenIsTranscript(w, task.AgentView(), session, Final(task, w).calls,
                        Turns(l, session, Final(task, w).calls, services));
    TranscriptBindsToEpisode(task, w, session, bundlePasses);
  }

  lemma HistoryInSync(history: seq<External.Step>)
    ensures External.InSync(External.Ran(External.NEW_LINK, history))
  {
    hide External.Called;
    External.LockstepHolds(External.NEW_LINK, history);
  }

  lemma SessionOpened(before: External.Link, view: AgentTaskView, opening: External.Step, session: string,
                      taskSha: string)
    requires External.InSync(before)
    requires External.Called(before, External.CallStart(view), opening.net, opening.m).1
      == Some(External.Started(session, taskSha))
    ensures var l := External.Called(before, External.CallStart(view), opening.net, opening.m).0;
      External.InSync(l) && session != "" && session in l.endpoint.turns && l.endpoint.turns[session] == 1
  {
    hide External.Requested, External.InSync;
    External.CallKeepsSync(before, External.CallStart(view), opening.net, opening.m);
  }

  // ----- Served episodes exist -----

  /** A worker whose parties say what this call returned. */
  function MindsOf(w: World, call: Call, name: string): External.Minds {
    External.Minds(w.h, (_, _) => name, if call.Decide? then Some(call.decision) else None,
                   if call.Generate? then Some(call.candidate) else None)
  }

  const SOUND_NETWORK: External.Network := External.Network(true, External.Delivered, External.Delivered)

  /** Nothing but the episode's own calls, over a network that connects and delivers. */
  function Undisturbed(w: World, calls: seq<Call>, name: string): (services: seq<Service>)
    ensures |services| == |calls|
  {
    seq(|calls|, i requires 0 <= i < |calls| => Service([], SOUND_NETWORK, MindsOf(w, calls[i], name)))
  }

  /** A call that the endpoint does not turn away itself. */
  predicate Proper(call: Call) {
    match call
    case Decide(_, _, decision) => ValidDecision(decision)
    case Generate(_, attempt, _) => attempt >= 1
  }

  lemma ProperCallServed(w: World, l: External.Link, session: string, call: Call, name: string)
    requires External.InSync(l) && External.Usable(l.endpoint) && session in l.endpoint.turns && Proper(call)
    ensures var (after, receipt) := Answered(l, session, call, Service([], SOUND_NETWORK, MindsOf(w, call, name)));
      && Brings(receipt, call)
      && External.InSync(after) && External.Usable(after.endpoint) && session in after.endpoint.turns
  {
    hide External.Called, External.InSync, ValidDecision;
    var request, minds := Request(session, call), MindsOf(w, call, name);
    assert External.Ran(l, []) == l;
    External.WorkerAnswersByTable(l, request, minds);
    External.AnswersByTable(l, request, SOUND_NETWORK, minds);
    External.AnswerIsExact(l, request, SOUND_NETWORK, minds);
    External.CallKeepsSync(l, request, SOUND_NETWORK, minds);
  }

  lemma {:induction false} ProperCallsServed(w: World, l: External.Link, session: string, calls: seq<Call>,
                                             name: string)
    requires External.InSync(l) && External.Usable(l.endpoint) && session in l.endpoint.turns
    requires forall i :: 0 <= i < |calls| ==> Proper(calls[i])
    ensures Served(l, session, calls, Undisturbed(w, calls, name))
    decreases calls
  {
    hide External.InSync, External.Usable, Answered, Brings, Proper;
    if calls != [] {
      var services := Undisturbed(w, calls, name);
      ProperCallServed(w, l, session, calls[0], name);
      assert services[1..] == Undisturbed(w, calls[1..], name);
      ProperCallsServed(w, Answered(l, session, calls[0], services[0]).0, session, calls[1..], name);
    }
  }

  /** A decision call returned one of the first `n` decisions, and drafts are counted from one. */
  ghost predicate Genuine(w: World, n: nat, call: Call) {
    match call
    case Decide(_, _, decision) => exists k :: 0 <= k < n && decision == w.policy(k)
    case Generate(_, attempt, _) => attempt >= 1
  }

  ghost predicate AllGenuine(w: World, s: State) {
    forall i :: 0 <= i < |s.calls| ==> Genuine(w, s.steps, s.calls[i])
  }

  lemma TurnGenuine(task: PublicTask, w: World, s: State)
    requires s.end.None? && AllGenuine(w, s)
    ensures AllGenuine(w, TakeTurn(task, w, s))
  {
    hide Append, ToDicts, DecisionJson, OverCost;
    var t := TakeTurn(task, w, s);
    forall i | 0 <= i < |t.calls| ensures Genuine(w, t.steps, t.calls[i]) {
      if i < |s.calls| {
        assert Genuine(w, s.steps, s.calls[i]) && t.calls[i] == s.calls[i];
      } else if i == |s.calls| {
        assert t.calls[i] == Decide(s.observations, s.trajectory, w.policy(s.steps)) && s.steps < t.steps;
      } else {
        assert t.calls[i] == Generate(s.observations, |s.candidates| + 1, w.generator.value(|s.candidates|));
      }
    }
  }

  lemma {:induction false} PlayGenuine(task: PublicTask, w: World, s: State)
    requires AllGenuine(w, s)
    ensures AllGenuine(w, Play(task, w, s))
    decreases Fuel(task, s)
  {
    hide TakeTurn, AllGenuine;
    if s.end.None? {
      TurnAdvances(task, w, s);
      TurnGenuine(task, w, s);
      PlayGenuine(task, w, TakeTurn(task, w, s));
    }
  }

  /** An episode can be served, from a new endpoint on and under any session name, if and only if all
      its decisions are well formed. */
  lemma ValidEpisodesAreServed(task: PublicTask, w: World, session: string)
    requires session != ""
    ensures var minds := External.Minds(w.h, (_, _) => session, None, None);
      var opening := External.CallStart(task.AgentView());
      var (l, receipt) := External.Called(External.NEW_LINK, opening, SOUND_NETWORK, minds);
      var calls := Final(task, w).calls;
      && receipt == Some(External.Started(session, w.h(ViewJson(task.AgentView()))))
      && ((exists services :: Served(l, session, calls, services))
          <==> forall k :: 0 <= k < Final(task, w).steps ==> ValidDecision(w.policy(k)))
  {
    hide External.Called, External.InSync, ViewJson, Play, Served, ValidDecision;
    var minds := External.Minds(w.h, (_, _) => session, None, None);
    var view, calls := task.AgentView(), Final(task, w).calls;
    External.FirstCallIsAnswered(view, SOUND_NETWORK, minds);
    HistoryInSync([]);
    External.CallKeepsSync(External.NEW_LINK, External.CallStart(view), SOUND_NETWORK, minds);
    var l := External.Called(External.NEW_LINK, External.CallStart(view), SOUND_NETWORK, minds).0;
    if services :| Served(l, session, calls, services) {
      ServedTurns(l, session, calls, services);
      DecisionsValid(task, w);
    }
    if forall k :: 0 <= k < Final(task, w).steps ==> ValidDecision(w.policy(k)) {
      PlayGenuine(task, w, Begin(task, w));
      assert AllGenuine(w, Final(task, w));
      forall i | 0 <= i < |calls| ensures Proper(calls[i]) { assert Genuine(w, Final(task, w).steps, calls[i]); }
      ProperCallsServed(w, l, session, calls, session);
    }
  }
}
