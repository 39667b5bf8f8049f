/** The controller's endpoint over a TCP service (`gym/external_agent.py`), the worker behind one
    connection (`gym/agent_worker.py`) and a network that may drop, cut or corrupt anything. */
module ExternalAgent {
  import opened Json
  import opened Evidence
  import opened Episode

  // ----- Messages -----

  datatype Op =
    | Hello
    | Ping
    | Start(task: AgentTaskView)
    | Decide(session: string, turn: nat, observations: seq<Observation>, trajectory: seq<string>)
    | Generate(session: string, turn: nat, observations: seq<Observation>, attempt: nat)
    | Close(session: string)

  datatype Answer =
    | Welcome
    | Pong
    | Started(session: string, taskSha: string)
    | Decided(session: string, turn: nat, decision: PolicyDecision)
    | Drafted(session: string, turn: nat, candidate: string)
    | ClosedSession(session: string)

  /** Request ids are the endpoint's request counter. */
  datatype Frame = Frame(id: nat, op: Op)

  datatype Reply = Accepted(id: nat, answer: Answer) | Refused(id: nat)

  // ----- The worker -----

  datatype WorkerSession = WorkerSession(task: AgentTaskView, nextTurn: nat)

  datatype Worker = Worker(sessions: map<string, WorkerSession>, counter: nat)

  const NEW_WORKER: Worker := Worker(map[], 0)

  /** What the worker's own parties say when a request reaches them; None is an exception. */
  datatype Minds = Minds(
    h: Hasher,
    sessionId: (AgentTaskView, nat) -> string,
    decision: Option<PolicyDecision>,
    candidate: Option<string>)

  predicate InTurn(w: Worker, session: string, turn: nat) {
    session in w.sessions && w.sessions[session].nextTurn == turn
  }

  function Bumped(w: Worker, session: string): Worker
    requires session in w.sessions
  {
    var s := w.sessions[session];
    w.(sessions := w.sessions[session := s.(nextTurn := s.nextTurn + 1)])
  }

  /** `ReferenceAgentWorker.dispatch`: the new worker and its answer, None when it raises. */
  function Dispatched(w: Worker, op: Op, m: Minds): (Worker, Option<Answer>) {
    match op
    case Hello => (w, Some(Welcome))
    case Ping => (w, Some(Pong))
    case Start(task) =>
      var counter := w.counter + 1;
      var session := m.sessionId(task, counter);
      if session in w.sessions then (w.(counter := counter), None)
      else (Worker(w.sessions[session := WorkerSession(task, 1)], counter), Some(Started(session, m.h(ViewJson(task)))))
    case Decide(session, turn, _, _) =>
      if InTurn(w, session, turn) && m.decision.Some? && ValidDecision(m.decision.value)
      then (Bumped(w, session), Some(Decided(session, turn, m.decision.value)))
      else (w, None)
    case Generate(session, turn, _, _) =>
      if InTurn(w, session, turn) && m.candidate.Some?
      then (Bumped(w, session), Some(Drafted(session, turn, m.candidate.value)))
      else (w, None)
    case Close(session) =>
      if session in w.sessions then (w.(sessions := w.sessions - {session}), Some(ClosedSession(session)))
      else (w, None)
  }

  class ReferenceAgentWorker {
    var sessions: map<string, WorkerSession>
    var counter: nat

    function State(): Worker reads this { Worker(sessions, counter) }

    constructor ()
      ensures State() == NEW_WORKER
    {
      sessions := map[];
      counter := 0;
    }

    method Dispatch(op: Op, m: Minds) returns (answer: Option<Answer>)
      modifies this
      ensures (State(), answer) == Dispatched(old(State()), op, m)
    {
      match op
      case Hello => answer := Some(Welcome);
      case Ping => answer := Some(Pong);
      case Start(task) =>
        counter := counter + 1;
        var session := m.sessionId(task, counter);
        if session in sessions { return None; }
        sessions := sessions[session := WorkerSession(task, 1)];
        answer := Some(Started(session, m.h(ViewJson(task))));
      case Decide(session, turn, _, _) =>
        if session !in sessions || turn != sessions[session].nextTurn { return None; }
        if m.decision.None? || !ValidDecision(m.decision.value) { return None; }
        sessions := sessions[session := sessions[session].(nextTurn := sessions[session].nextTurn + 1)];
        answer := Some(Decided(session, turn, m.decision.value));
      case Generate(session, turn, _, _) =>
        if session !in sessions || turn != sessions[session].nextTurn { return None; }
        if m.candidate.None? { return None; }
        sessions := sessions[session := sessions[session].(nextTurn := sessions[session].nextTurn + 1)];
        answer := Some(Drafted(session, turn, m.candidate.value));
      case Close(session) =>
        if session !in sessions { return None; }
        sessions := sessions - {session};
        answer := Some(ClosedSession(session));
    }
  }

  // ----- The endpoint and its connection -----

  datatype Endpoint = Endpoint(
    connected: bool, handshakeComplete: bool, closed: bool, poisoned: bool,
    turns: map<string, nat>, requestCounter: nat)

  const NEW_ENDPOINT: Endpoint := Endpoint(false, false, false, false, map[], 0)

  /** The endpoint, the worker its connection leads to, and everything ever put on the wire. */
  datatype Link = Link(endpoint: Endpoint, worker: Worker, sent: seq<Frame>, replies: seq<Reply>)

  const NEW_LINK: Link := Link(NEW_ENDPOINT, NEW_WORKER, [], [])

  /** What becomes of one request. */
  datatype Fate =
    | TooLarge                        // refused by the encoder: nothing leaves the endpoint
    | WriteFails(reached: bool)       // the write times out or breaks, the worker may still see it
    | ReplyLost(reached: bool)        // timeout, end of stream or an oversized reply
    | ReplyGarbled                    // the reply does not decode
    | OtherReply(k: nat)              // an earlier reply of this connection turns up instead
    | Delivered

  function Poisoned(e: Endpoint): Endpoint {
    e.(poisoned := true, turns := map[], connected := false, handshakeComplete := false)
  }

  /** The worker handles a frame and its reply is put on the wire. */
  function Handled(l: Link, frame: Frame, m: Minds): Link {
    var (worker, answer) := Dispatched(l.worker, frame.op, m);
    l.(worker := worker,
       replies := l.replies + [if answer.Some? then Accepted(frame.id, answer.value) else Reply.Refused(frame.id)])
  }

  function Sent(l: Link, frame: Frame, reached: bool, m: Minds): Link {
    var sent := l.(sent := l.sent + [frame]);
    if reached then Handled(sent, frame, m) else sent
  }

  /** The endpoint reads a decodable reply: only a success carrying the current id passes. */
  function Read(l: Link, id: nat, reply: Reply): (Link, Option<Answer>) {
    if reply.id == id && reply.Accepted? then (l, Some(reply.answer))
    else (l.(endpoint := Poisoned(l.endpoint)), None)
  }

  /** `_request` on an open connection: one frame out, at most one reply in. */
  function Exchanged(l: Link, op: Op, fate: Fate, m: Minds): (Link, Option<Answer>) {
    var id := l.endpoint.requestCounter + 1;
    var counted := l.(endpoint := l.endpoint.(requestCounter := id));
    var frame := Frame(id, op);
    match fate
    case TooLarge => (counted, None)
    case WriteFails(reached) =>
      var l' := Sent(counted, frame, reached, m);
      (l'.(endpoint := Poisoned(l'.endpoint)), None)
    case ReplyLost(reached) =>
      var l' := Sent(counted, frame, reached, m);
      (l'.(endpoint := Poisoned(l'.endpoint)), None)
    case ReplyGarbled =>
      var l' := Sent(counted, frame, true, m);
      (l'.(endpoint := Poisoned(l'.endpoint)), None)
    case OtherReply(k) =>
      var l' := Sent(counted, frame, true, m);
      if k < |l.replies| then Read(l', id, l.replies[k]) else (l'.(endpoint := Poisoned(l'.endpoint)), None)
    case Delivered =>
      var l' := Sent(counted, frame, true, m);
      Read(l', id, l'.replies[|l'.replies| - 1])
  }

  /** What the network does to one call of the endpoint: the connection attempt, the HELLO that
      may have to come first, and the request itself. */
  datatype Network = Network(connects: bool, hello: Fate, request: Fate)

  predicate Usable(e: Endpoint) {
    !e.closed && !e.poisoned
  }

  /** `_ensure_connected`: the link afterwards, and whether a request may now be sent. */
  function Ready(l: Link, net: Network, m: Minds): (Link, bool) {
    if !Usable(l.endpoint) then (l, false)
    else if !l.endpoint.connected && !net.connects then (l.(endpoint := Poisoned(l.endpoint)), false)
    else if l.endpoint.connected && l.endpoint.handshakeComplete then (l, true)
    else
      var open := l.(endpoint := l.endpoint.(connected := true));
      var (l', answer) := Exchanged(open, Hello, net.hello, m);
      if answer.None? then (l', false)
      else if answer.value.Welcome? then (l'.(endpoint := l'.endpoint.(handshakeComplete := true)), true)
      else (l'.(endpoint := Poisoned(l'.endpoint)), false)
  }

  function Requested(l: Link, op: Op, net: Network, m: Minds): (Link, Option<Answer>) {
    var (l', ready) := Ready(l, net, m);
    if ready then Exchanged(l', op, net.request, m) else (l', None)
  }

  /** The calls a controller can make. */
  datatype Call =
    | CallStart(task: AgentTaskView)
    | CallDecide(session: string, observations: seq<Observation>, trajectory: seq<string>)
    | CallGenerate(session: string, seen: seq<Observation>, attempt: int)
    | CallClose(session: string)
    | CallPing
    | Disconnect

  function WithTurns(l: Link, turns: map<string, nat>): Link {
    l.(endpoint := l.endpoint.(turns := turns))
  }

  function Denied(l: Link): (Link, Option<Answer>) {
    (l.(endpoint := Poisoned(l.endpoint)), None)
  }

  /** One call of the endpoint: the link afterwards and the receipt, None when it raises. */
  function Called(l: Link, call: Call, net: Network, m: Minds): (Link, Option<Answer>) {
    match call
    case CallStart(task) =>
      var (l', answer) := Requested(l, Start(task), net, m);
      if answer.None? then (l', None)
      else if answer.value.Started? && answer.value.session != "" && answer.value.taskSha == m.h(ViewJson(task))
              && answer.value.session !in l'.endpoint.turns
      then (WithTurns(l', l'.endpoint.turns[answer.value.session := 1]), answer)
      else Denied(l')
    case CallDecide(session, observations, trajectory) =>
      if session !in l.endpoint.turns then (l, None) else
        var turn := l.endpoint.turns[session];
        var (l', answer) := Requested(l, Op.Decide(session, turn, observations, trajectory), net, m);
        if answer.None? then (l', None)
        else if answer.value.Decided? && answer.value.session == session && answer.value.turn == turn
                && ValidDecision(answer.value.decision)
        then (WithTurns(l', l'.endpoint.turns[session := turn + 1]), answer)
        else Denied(l')
    case CallGenerate(session, observations, attempt) =>
      if attempt < 1 || session !in l.endpoint.turns then (l, None) else
        var turn := l.endpoint.turns[session];
        var (l', answer) := Requested(l, Op.Generate(session, turn, observations, attempt), net, m);
        if answer.None? then (l', None)
        else if answer.value.Drafted? && answer.value.session == session && answer.value.turn == turn
        then (WithTurns(l', l'.endpoint.turns[session := turn + 1]), answer)
        else Denied(l')
    case CallClose(session) =>
      if session !in l.endpoint.turns then (l, None) else
        var (l', answer) := Requested(l, Close(session), net, m);
        if answer.None? then (l', None)
        else if answer.value == ClosedSession(session) then (WithTurns(l', l'.endpoint.turns - {session}), answer)
        else Denied(l')
    case CallPing =>
      var (l', answer) := Requested(l, Ping, net, m);
      if answer.None? || answer.value.Pong? then (l', answer) else Denied(l')
    case Disconnect =>
      (l.(endpoint := l.endpoint.(turns := map[], connected := false, handshakeComplete := false, closed := true)),
       None)
  }

  /** The endpoint's own fields and, below them, what lies beyond its socket. */
  class ExternalAgentEndpoint {
    var connected: bool
    var handshakeComplete: bool
    var closed: bool
    var poisoned: bool
    var turns: map<string, nat>
    var requestCounter: nat
    var worker: Worker
    var sent: seq<Frame>
    var replies: seq<Reply>

    function Here(): Link reads this {
      Link(Endpoint(connected, handshakeComplete, closed, poisoned, turns, requestCounter), worker, sent, replies)
    }

    constructor ()
      ensures Here() == NEW_LINK
    {
      connected, handshakeComplete, closed, poisoned := false, false, false, false;
      turns, requestCounter := map[], 0;
      worker, sent, replies := NEW_WORKER, [], [];
    }

    method Poison()
      modifies this
      ensures (Here(), None) == Denied(old(Here()))
    {
      poisoned, turns, connected, handshakeComplete := true, map[], false, false;
    }

    /** The far side: the worker reads the frame and answers it. */
    method Serve(frame: Frame, m: Minds)
      modifies this
      ensures Here() == Handled(old(Here()), frame, m)
      ensures Here().endpoint == old(Here()).endpoint && sent == old(sent) && replies != []
    {
      var (next, answer) := Dispatched(worker, frame.op, m);
      worker := next;
      replies := replies + [if answer.Some? then Accepted(frame.id, answer.value) else Reply.Refused(frame.id)];
    }

    /** One frame onto the wire; the far side may or may not see it. */
    method Transmit(frame: Frame, reached: bool, m: Minds)
      modifies this
      ensures Here() == Sent(old(Here()), frame, reached, m)
      ensures Here().endpoint == old(Here()).endpoint && (reached ==> replies != [])
    {
      hide Handled;
      sent := sent + [frame];
      if reached { Serve(frame, m); }
    }

    /** `_request` once the socket is open. */
    method Exchange(op: Op, fate: Fate, m: Minds) returns (answer: Option<Answer>)
      modifies this
      ensures (Here(), answer) == Exchanged(old(Here()), op, fate, m)
    {
      hide Sent, Read;
      ghost var l := Here();
      requestCounter := requestCounter + 1;
      assert Here() == l.(endpoint := l.endpoint.(requestCounter := requestCounter));
      if fate.TooLarge? { return None; }
      var frame, earlier := Frame(requestCounter, op), replies;
      if fate.WriteFails? || fate.ReplyLost? {
        Transmit(frame, fate.reached, m);
        Poison();
        return None;
      }
      ghost var counted := Here();
      Transmit(frame, true, m);
      assert Here() == Sent(counted, frame, true, m);
      if fate.ReplyGarbled? || (fate.OtherReply? && fate.k >= |earlier|) {
        Poison();
        return None;
      }
      answer := ReadReply(if fate.Delivered? then replies[|replies| - 1] else earlier[fate.k]);
    }

    /** What `_request` makes of a reply that decodes. */
    method ReadReply(reply: Reply) returns (answer: Option<Answer>)
      modifies this
      ensures (Here(), answer) == Read(old(Here()), old(requestCounter), reply)
    {
      if reply.id != requestCounter || reply.Refused? {
        Poison();
        return None;
      }
      return Some(reply.answer);
    }

    /** `_ensure_connected` and `_handshake` */
    method EnsureConnected(net: Network, m: Minds) returns (ready: bool)
      modifies this
      ensures (Here(), ready) == Ready(old(Here()), net, m)
    {
      hide Exchanged;
      if closed || poisoned { return false; }
      if connected && handshakeComplete { return true; }
      if !connected && !net.connects { Poison(); return false; }
      connected := true;
      var answer := Exchange(Hello, net.hello, m);
      if answer.None? { return false; }
      if !answer.value.Welcome? { Poison(); return false; }
      handshakeComplete := true;
      return true;
    }

    method Request(op: Op, net: Network, m: Minds) returns (answer: Option<Answer>)
      modifies this
      ensures (Here(), answer) == Requested(old(Here()), op, net, m)
    {
      hide Exchanged, Ready;
      var ready := EnsureConnected(net, m);
      if !ready { return None; }
      answer := Exchange(op, net.request, m);
    }

    method StartSession(task: AgentTaskView, net: Network, m: Minds) returns (receipt: Option<Answer>)
      modifies this
      ensures (Here(), receipt) == Called(old(Here()), CallStart(task), net, m)
    {
      hide Requested, ViewJson;
      receipt := Request(Start(task), net, m);
      if receipt.None? { return; }
      if !receipt.value.Started? || receipt.value.session == "" || receipt.value.taskSha != m.h(ViewJson(task))
         || receipt.value.session in turns {
        Poison();
        return None;
      }
      turns := turns[receipt.value.session := 1];
    }

    method DecideTurn(session: string, observations: seq<Observation>, trajectory: seq<string>, net: Network, m: Minds)
      returns (receipt: Option<Answer>)
      modifies this
      ensures (Here(), receipt) == Called(old(Here()), CallDecide(session, observations, trajectory), net, m)
    {
      hide Requested;
      if session !in turns { return None; }
      var turn := turns[session];
      receipt := Request(Op.Decide(session, turn, observations, trajectory), net, m);
      if receipt.None? { return; }
      if !receipt.value.Decided? || receipt.value.session != session || receipt.value.turn != turn
         || !ValidDecision(receipt.value.decision) {
        Poison();
        return None;
      }
      turns := turns[session := turn + 1];
    }

    method GenerateTurn(session: string, observations: seq<Observation>, attempt: int, net: Network, m: Minds)
      returns (receipt: Option<Answer>)
      modifies this
      ensures (Here(), receipt) == Called(old(Here()), CallGenerate(session, observations, attempt), net, m)
    {
      hide Requested;
      if attempt < 1 || session !in turns { return None; }
      var turn := turns[session];
      receipt := Request(Op.Generate(session, turn, observations, attempt), net, m);
      if receipt.None? { return; }
      if !receipt.value.Drafted? || receipt.value.session != session || receipt.value.turn != turn {
        Poison();
        return None;
      }
      turns := turns[session := turn + 1];
    }

    method CloseSession(session: string, net: Network, m: Minds) returns (receipt: Option<Answer>)
      modifies this
      ensures (Here(), receipt) == Called(old(Here()), CallClose(session), net, m)
    {
      hide Requested;
      if session !in turns { return None; }
      receipt := Request(Close(session), net, m);
      if receipt.None? { return; }
      if receipt.value != ClosedSession(session) { Poison(); return None; }
      turns := turns - {session};
    }

    method PingAgent(net: Network, m: Minds) returns (receipt: Option<Answer>)
      modifies this
      ensures (Here(), receipt) == Called(old(Here()), CallPing, net, m)
    {
      hide Requested;
      receipt := Request(Ping, net, m);
      if receipt.None? { return; }
      if !receipt.value.Pong? { Poison(); return None; }
    }

    method HangUp(net: Network, m: Minds)
      modifies this
      ensures (Here(), None) == Called(old(Here()), Disconnect, net, m)
    {
      turns, connected, handshakeComplete, closed := map[], false, false, true;
    }
  }

  // ----- Lockstep -----

  function NextTurns(w: Worker): map<string, nat> {
    map s | s in w.sessions :: w.sessions[s].nextTurn
  }

  /** Before the connection nothing has happened; while it lives both tables agree; once the
      endpoint is closed or poisoned its table is empty. No id on the wire is ahead of the counter. */
  ghost predicate InSync(l: Link) {
    var e := l.endpoint;
    && (Usable(e) && e.connected ==> e.turns == NextTurns(l.worker))
    && (Usable(e) && !e.connected ==> l.worker == NEW_WORKER && e.turns == map[] && !e.handshakeComplete)
    && (!Usable(e) ==> e.turns == map[] && !e.connected)
    && (forall k :: 0 <= k < |l.replies| ==> l.replies[k].id <= e.requestCounter)
    && (forall k :: 0 <= k < |l.sent| ==> l.sent[k].id <= e.requestCounter)
  }

  /** Everything but the turn table, which only the caller of `_request` touches. */
  ghost predicate Asked(l: Link, op: Op, m: Minds, after: Link, answer: Option<Answer>) {
    && after.endpoint.requestCounter >= l.endpoint.requestCounter
    && (forall k :: 0 <= k < |after.replies| ==> after.replies[k].id <= after.endpoint.requestCounter)
    && (forall k :: 0 <= k < |after.sent| ==> after.sent[k].id <= after.endpoint.requestCounter)
    && (answer.Some? ==>
          && Usable(after.endpoint) && after.endpoint.connected && after.endpoint.turns == l.endpoint.turns
          && Dispatched(l.worker, op, m) == (after.worker, answer)
          && after.sent != [] && after.sent[|after.sent| - 1] == Frame(after.endpoint.requestCounter, op)
          && after.replies != []
          && after.replies[|after.replies| - 1] == Accepted(after.endpoint.requestCounter, answer.value))
    && (answer.None? ==> InSync(after) && (Usable(after.endpoint) ==> after.endpoint.turns == l.endpoint.turns))
  }

  /** A frame on the wire, and at most one reply to it. */
  lemma SentFrame(l: Link, op: Op, reached: bool, m: Minds)
    requires InSync(l)
    ensures var id := l.endpoint.requestCounter + 1;
      var counted := l.(endpoint := l.endpoint.(requestCounter := id));
      var after, dispatched := Sent(counted, Frame(id, op), reached, m), Dispatched(l.worker, op, m);
      && after.endpoint == counted.endpoint
      && after.sent == l.sent + [Frame(id, op)]
      && after.worker == (if reached then dispatched.0 else l.worker)
      && after.replies == l.replies + (if !reached then [] else
           [if dispatched.1.Some? then Accepted(id, dispatched.1.value) else Reply.Refused(id)])
      && (forall k :: 0 <= k < |after.replies| ==> after.replies[k].id <= id)
      && (forall k :: 0 <= k < |after.sent| ==> after.sent[k].id <= id)
  {
    hide Dispatched, NextTurns;
  }

  /** Only the worker's own answer to this very request is ever accepted; every other outcome
      poisons the endpoint or never left it. */
  lemma ExchangeAsks(l: Link, op: Op, fate: Fate, m: Minds)
    requires InSync(l) && Usable(l.endpoint) && l.endpoint.connected
    ensures var (after, answer) := Exchanged(l, op, fate, m); Asked(l, op, m, after, answer)
  {
    hide Dispatched, NextTurns, Sent;
    SentFrame(l, op, true, m);
    SentFrame(l, op, false, m);
  }

  lemma ReadyKeeps(l: Link, net: Network, m: Minds)
    requires InSync(l)
    ensures var (l', ready) := Ready(l, net, m);
      && InSync(l')
      && l'.endpoint.requestCounter >= l.endpoint.requestCounter
      && (Usable(l'.endpoint) ==> l'.endpoint.turns == l.endpoint.turns)
      && (ready ==> Usable(l'.endpoint) && l'.endpoint.connected && l'.worker == l.worker
                    && l'.endpoint.turns == l.endpoint.turns)
      && (!Usable(l.endpoint) ==> !ready && l' == l)
  {
    hide Exchanged;
    if Usable(l.endpoint) && (l.endpoint.connected || net.connects)
       && !(l.endpoint.connected && l.endpoint.handshakeComplete) {
      var open := l.(endpoint := l.endpoint.(connected := true));
      ExchangeAsks(open, Hello, net.hello, m);
      var (after, answer) := Exchanged(open, Hello, net.hello, m);
      assert Dispatched(open.worker, Hello, m) == (open.worker, Some(Welcome));
      if answer.Some? { assert NextTurns(after.worker) == NextTurns(open.worker) == after.endpoint.turns; }
    }
  }

  lemma RequestAsks(l: Link, op: Op, net: Network, m: Minds)
    requires InSync(l)
    ensures var (after, answer) := Requested(l, op, net, m);
      && Asked(l, op, m, after, answer)
      && (!Usable(l.endpoint) ==> answer == None && after == l)
  {
    hide Exchanged, Ready, NextTurns;
    ReadyKeeps(l, net, m);
    var (l', ready) := Ready(l, net, m);
    if ready { ExchangeAsks(l', op, net.request, m); }
  }

  /** The request a call puts on the wire, if it gets that far. */
  function OpOf(l: Link, call: Call): Option<Op> {
    match call
    case CallStart(task) => Some(Start(task))
    case CallDecide(session, observations, trajectory) =>
      if session in l.endpoint.turns
      then Some(Op.Decide(session, l.endpoint.turns[session], observations, trajectory)) else None
    case CallGenerate(session, observations, attempt) =>
      if attempt >= 1 && session in l.endpoint.turns
      then Some(Op.Generate(session, l.endpoint.turns[session], observations, attempt)) else None
    case CallClose(session) => if session in l.endpoint.turns then Some(Close(session)) else None
    case CallPing => Some(Ping)
    case Disconnect => None
  }

  lemma BumpedTurns(w: Worker, session: string)
    requires session in w.sessions
    ensures NextTurns(Bumped(w, session)) == NextTurns(w)[session := w.sessions[session].nextTurn + 1]
  {
  }

  lemma NewWorkerTurns()
    ensures NextTurns(NEW_WORKER) == map[]
  {
  }

  lemma OpenedTurns(w: Worker, session: string, task: AgentTaskView, counter: nat)
    ensures NextTurns(Worker(w.sessions[session := WorkerSession(task, 1)], counter)) == NextTurns(w)[session := 1]
    ensures session in NextTurns(w) <==> session in w.sessions
  {
  }

  lemma ClosedTurns(w: Worker, session: string)
    ensures NextTurns(w.(sessions := w.sessions - {session})) == NextTurns(w) - {session}
  {
  }

  /** What the call makes of an answer that `_request` let through. */
  lemma AnswerKept(l: Link, call: Call, net: Network, m: Minds, op: Op, after: Link, a: Answer)
    requires InSync(l) && OpOf(l, call) == Some(op)
    requires Requested(l, op, net, m) == (after, Some(a))
    ensures InSync(Called(l, call, net, m).0)
    ensures Called(l, call, net, m).1 == if a.Started? && a.session == "" then None else Some(a)
  {
    hide Requested, NextTurns, ValidDecision;
    RequestAsks(l, op, net, m);
    assert Asked(l, op, m, after, Some(a));
    assert InSync(after.(endpoint := Poisoned(after.endpoint)));
    NewWorkerTurns();
    match op
    case Start(task) => OpenedTurns(l.worker, a.session, task, after.worker.counter);
    case Decide(session, _, _, _) => BumpedTurns(l.worker, session);
    case Generate(session, _, _, _) => BumpedTurns(l.worker, session);
    case Close(session) => ClosedTurns(l.worker, session);
    case _ =>
  }

  /** One call, whatever the network and the worker's own parties do. */
  lemma CallKeepsSync(l: Link, call: Call, net: Network, m: Minds)
    requires InSync(l)
    ensures InSync(Called(l, call, net, m).0)
    ensures !Usable(l.endpoint) ==>
      var after := Called(l, call, net, m).0;
      !Usable(after.endpoint) && after.sent == l.sent && Called(l, call, net, m).1 == None
  {
    hide Requested, NextTurns, ValidDecision;
    match OpOf(l, call)
    case None =>
    case Some(op) =>
      RequestAsks(l, op, net, m);
      var (after, answer) := Requested(l, op, net, m);
      if answer.Some? { AnswerKept(l, call, net, m, op, after, answer.value); }
  }

  // ----- Every run -----

  datatype Step = Step(call: Call, net: Network, m: Minds)

  function Ran(l: Link, steps: seq<Step>): Link
    decreases steps
  {
    if steps == [] then l
    else Ran(Called(l, steps[0].call, steps[0].net, steps[0].m).0, steps[1..])
  }

  /** Any calls, on any sessions, over any network: the two turn tables stay in step. */
  lemma {:induction false} LockstepHolds(l: Link, steps: seq<Step>)
    requires InSync(l)
    ensures InSync(Ran(l, steps))
    decreases steps
  {
    hide Called, InSync;
    if steps != [] {
      CallKeepsSync(l, steps[0].call, steps[0].net, steps[0].m);
      LockstepHolds(Called(l, steps[0].call, steps[0].net, steps[0].m).0, steps[1..]);
    }
  }

  /** From a new endpoint on, an endpoint that may still send has exactly the worker's turns. */
  lemma TurnTablesAgree(steps: seq<Step>)
    ensures var l := Ran(NEW_LINK, steps);
      if Usable(l.endpoint) then l.endpoint.turns == NextTurns(l.worker) else l.endpoint.turns == map[]
  {
    hide Called;
    LockstepHolds(NEW_LINK, steps);
  }

  /** Poisoned or closed is for good, and nothing is sent any more. */
  lemma {:induction false} PoisonIsAbsorbing(l: Link, steps: seq<Step>)
    requires InSync(l) && !Usable(l.endpoint)
    ensures var after := Ran(l, steps); !Usable(after.endpoint) && after.sent == l.sent
    decreases steps
  {
    hide Called;
    if steps != [] {
      CallKeepsSync(l, steps[0].call, steps[0].net, steps[0].m);
      PoisonIsAbsorbing(Called(l, steps[0].call, steps[0].net, steps[0].m).0, steps[1..]);
    }
  }

  /** A receipt is the worker's own answer to the frame just sent, and it advances the
      worker exactly as the caller's table says: no late, repeated or misdirected reply passes. */
  lemma ReceiptAnswersThisCall(l: Link, call: Call, net: Network, m: Minds)
    requires InSync(l) && Called(l, call, net, m).1.Some?
    ensures var (after, receipt) := Called(l, call, net, m);
      && OpOf(l, call).Some?
      && Dispatched(l.worker, OpOf(l, call).value, m) == (after.worker, receipt)
      && after.sent != [] && after.sent[|after.sent| - 1] == Frame(after.endpoint.requestCounter, OpOf(l, call).value)
      && after.replies != []
      && after.replies[|after.replies| - 1] == Accepted(after.endpoint.requestCounter, receipt.value)
      && Usable(after.endpoint)
  {
    hide Requested, NextTurns, ValidDecision, Dispatched, InSync;
    assert OpOf(l, call).Some?;
    RequestAsks(l, OpOf(l, call).value, net, m);
  }

  // ----- Exactly when a call is answered -----

  /** The way to the worker is open, or this call opens it. */
  predicate GetsThrough(l: Link, net: Network) {
    || (l.endpoint.connected && l.endpoint.handshakeComplete)
    || ((l.endpoint.connected || net.connects) && net.hello == Delivered)
  }

  /** The worker answers this call; an opened session has a name. */
  predicate WorkerAnswers(l: Link, call: Call, m: Minds) {
    && OpOf(l, call).Some?
    && var answer := Dispatched(l.worker, OpOf(l, call).value, m).1;
       answer.Some? && (answer.value.Started? ==> answer.value.session != "")
  }

  predicate IsAnswered(l: Link, call: Call, net: Network, m: Minds) {
    Usable(l.endpoint) && GetsThrough(l, net) && net.request == Delivered && WorkerAnswers(l, call, m)
  }

  /** The call fails before a frame leaves the endpoint. */
  predicate StaysHome(l: Link, call: Call, net: Network) {
    if OpOf(l, call).None? then !call.Disconnect?
    else if GetsThrough(l, net) then net.request.TooLarge?
    else (l.endpoint.connected || net.connects) && net.hello.TooLarge?
  }

  /** Of an exchange only a delivered answer comes through: an earlier reply has an earlier id. */
  lemma ExchangeIsExact(l: Link, op: Op, fate: Fate, m: Minds)
    requires InSync(l) && Usable(l.endpoint) && l.endpoint.connected
    ensures var (after, answer) := Exchanged(l, op, fate, m);
      && answer == (if fate == Delivered then Dispatched(l.worker, op, m).1 else None)
      && (answer.Some? ==> after.endpoint == l.endpoint.(requestCounter := l.endpoint.requestCounter + 1))
      && (Usable(after.endpoint) <==> answer.Some? || fate.TooLarge?)
      && (after.endpoint.closed <==> l.endpoint.closed)
  {
    hide Dispatched, NextTurns, Sent;
    SentFrame(l, op, true, m);
    SentFrame(l, op, false, m);
  }

  lemma HelloIsWelcome(w: Worker, m: Minds)
    ensures Dispatched(w, Hello, m) == (w, Some(Welcome))
  {
  }

  lemma ReadyIsExact(l: Link, net: Network, m: Minds)
    requires InSync(l) && Usable(l.endpoint)
    ensures var (l', ready) := Ready(l, net, m);
      && (ready <==> GetsThrough(l, net))
      && (ready ==> l'.endpoint.connected && l'.endpoint.handshakeComplete && l'.endpoint.turns == l.endpoint.turns)
      && (!ready ==>
            (Usable(l'.endpoint) <==> (l.endpoint.connected || net.connects) && net.hello.TooLarge?))
  {
    hide Exchanged, Dispatched;
    if (l.endpoint.connected || net.connects) && !(l.endpoint.connected && l.endpoint.handshakeComplete) {
      var open := l.(endpoint := l.endpoint.(connected := true));
      assert InSync(open) by { NewWorkerTurns(); }
      ExchangeIsExact(open, Hello, net.hello, m);
      HelloIsWelcome(open.worker, m);
    }
  }

  lemma RequestIsExact(l: Link, op: Op, net: Network, m: Minds)
    requires InSync(l) && Usable(l.endpoint)
    ensures var (after, answer) := Requested(l, op, net, m);
      && answer == (if GetsThrough(l, net) && net.request == Delivered then Dispatched(l.worker, op, m).1 else None)
      && (answer.Some? ==> Usable(after.endpoint) && after.endpoint.connected && after.endpoint.handshakeComplete)
      && (answer.None? ==> (Usable(after.endpoint) <==>
            if GetsThrough(l, net) then net.request.TooLarge?
            else (l.endpoint.connected || net.connects) && net.hello.TooLarge?))
  {
    hide Exchanged, Ready, Dispatched, GetsThrough, NextTurns;
    ReadyKeeps(l, net, m);
    ReadyIsExact(l, net, m);
    var (l', ready) := Ready(l, net, m);
    if ready { ExchangeIsExact(l', op, net.request, m); }
  }

  /** A call is answered if and only if the endpoint may still send, the way to the worker is open
      or this call opens it, the request and the reply are delivered, and the worker answers; its
      receipt is then the worker's own answer, and the connection stands. A call that is not answered
      poisons the endpoint unless it failed before anything was sent. */
  lemma AnswerIsExact(l: Link, call: Call, net: Network, m: Minds)
    requires InSync(l)
    ensures var (after, receipt) := Called(l, call, net, m);
      && receipt == (if IsAnswered(l, call, net, m) then Dispatched(l.worker, OpOf(l, call).value, m).1 else None)
      && (receipt.Some? ==>
            Usable(after.endpoint) && after.endpoint.connected && after.endpoint.handshakeComplete)
      && (Usable(l.endpoint) ==>
            (Usable(after.endpoint) <==> receipt.Some? || StaysHome(l, call, net)))
  {
    hide Dispatched, NextTurns, ValidDecision, Called, InSync, Requested, GetsThrough;
    CallKeepsSync(l, call, net, m);
    if !Usable(l.endpoint) { return; }
    match OpOf(l, call)
    case None => NoRequest(l, call, net, m);
    case Some(op) =>
      RequestIsExact(l, op, net, m);
      var (after, answer) := Requested(l, op, net, m);
      if answer.Some? {
        AnswerKept(l, call, net, m, op, after, answer.value);
        KeptStands(l, call, net, m, op, after, answer.value);
      } else {
        NotAnswered(l, call, net, m, op);
      }
  }

  lemma NoRequest(l: Link, call: Call, net: Network, m: Minds)
    requires OpOf(l, call).None?
    ensures Called(l, call, net, m).1 == None
    ensures Usable(Called(l, call, net, m).0.endpoint) <==> Usable(l.endpoint) && !call.Disconnect?
  {
  }

  lemma NotAnswered(l: Link, call: Call, net: Network, m: Minds, op: Op)
    requires OpOf(l, call) == Some(op) && Requested(l, op, net, m).1.None?
    ensures Called(l, call, net, m) == (Requested(l, op, net, m).0, None)
  {
    hide Requested, ValidDecision;
  }

  /** An answer leaves the connection standing unless it opens a session without a name. */
  lemma KeptStands(l: Link, call: Call, net: Network, m: Minds, op: Op, after: Link, a: Answer)
    requires OpOf(l, call) == Some(op) && Requested(l, op, net, m) == (after, Some(a))
    requires Called(l, call, net, m).1.Some? ==> Usable(after.endpoint)
    requires after.endpoint.connected && after.endpoint.handshakeComplete
    ensures var (next, receipt) := Called(l, call, net, m);
      if receipt.Some? then Usable(next.endpoint) && next.endpoint.connected && next.endpoint.handshakeComplete
      else !Usable(next.endpoint)
  {
    hide Requested, ValidDecision;
  }

  /** Conversely the endpoint never turns down a delivered answer: in lockstep the session, turn
      and decision checks cannot fail, so poison always means that the network or the worker did. */
  lemma DeliveredAnswerIsKept(l: Link, call: Call, net: Network, m: Minds)
    requires InSync(l) && Usable(l.endpoint)
    requires net.connects && net.hello == Delivered && net.request == Delivered
    requires OpOf(l, call).Some?
    requires var a := Dispatched(l.worker, OpOf(l, call).value, m).1;
      a.Some? && (a.value.Started? ==> a.value.session != "")
    ensures var (after, receipt) := Called(l, call, net, m);
      && receipt == Dispatched(l.worker, OpOf(l, call).value, m).1
      && Usable(after.endpoint) && after.endpoint.connected && after.endpoint.handshakeComplete
  {
    hide Dispatched, Called, InSync;
    AnswerIsExact(l, call, net, m);
  }

  /** What the worker answers, by the endpoint's own table: it opens sessions under unused names, takes
      a turn in any open session if its parties deliver, and closes any open session. */
  lemma WorkerAnswersByTable(l: Link, call: Call, m: Minds)
    requires InSync(l) && Usable(l.endpoint)
    ensures WorkerAnswers(l, call, m) <==>
      match call
      case CallStart(task) =>
        var session := m.sessionId(task, l.worker.counter + 1);
        session != "" && session !in l.endpoint.turns
      case CallDecide(session, _, _) =>
        session in l.endpoint.turns && m.decision.Some? && ValidDecision(m.decision.value)
      case CallGenerate(session, _, attempt) => session in l.endpoint.turns && attempt >= 1 && m.candidate.Some?
      case CallClose(session) => session in l.endpoint.turns
      case CallPing => true
      case Disconnect => false
  {
    hide ValidDecision;
    TablesAgree(l);
  }

  /** What an answered call brings, and what it does to the endpoint's table. */
  lemma AnswersByTable(l: Link, call: Call, net: Network, m: Minds)
    requires InSync(l) && IsAnswered(l, call, net, m)
    ensures var (after, receipt) := Called(l, call, net, m);
      receipt.Some? &&
      match call
      case CallStart(task) =>
        var session := m.sessionId(task, l.worker.counter + 1);
        && receipt.value == Started(session, m.h(ViewJson(task)))
        && after.endpoint.turns == l.endpoint.turns[session := 1]
      case CallDecide(session, _, _) =>
        && session in l.endpoint.turns && m.decision.Some?
        && var turn := l.endpoint.turns[session];
           && receipt.value == Decided(session, turn, m.decision.value)
           && after.endpoint.turns == l.endpoint.turns[session := turn + 1]
      case CallGenerate(session, _, _) =>
        && session in l.endpoint.turns && m.candidate.Some?
        && var turn := l.endpoint.turns[session];
           && receipt.value == Drafted(session, turn, m.candidate.value)
           && after.endpoint.turns == l.endpoint.turns[session := turn + 1]
      case CallClose(session) =>
        receipt.value == ClosedSession(session) && after.endpoint.turns == l.endpoint.turns - {session}
      case CallPing => receipt.value == Pong && after.endpoint.turns == l.endpoint.turns
      case Disconnect => false
  {
    hide ValidDecision, Called, InSync, GetsThrough, ViewJson;
    AnswerIsExact(l, call, net, m);
    ReceiptAnswersThisCall(l, call, net, m);
    CallKeepsSync(l, call, net, m);
    TablesAgree(l);
    var after := Called(l, call, net, m).0;
    TablesAgree(after);
    match call
    case CallStart(task) =>
      OpenedTurns(l.worker, m.sessionId(task, l.worker.counter + 1), task, l.worker.counter + 1);
    case CallDecide(session, _, _) => BumpedTurns(l.worker, session);
    case CallGenerate(session, _, _) => BumpedTurns(l.worker, session);
    case CallClose(session) => ClosedTurns(l.worker, session);
    case _ =>
  }

  lemma TablesAgree(l: Link)
    requires InSync(l) && Usable(l.endpoint)
    ensures l.endpoint.turns == NextTurns(l.worker)
  {
    NewWorkerTurns();
  }

  /** The first call of a new endpoint, over a network that connects and delivers: a named session is
      opened with turn one, and the worker answers. */
  lemma FirstCallIsAnswered(task: AgentTaskView, net: Network, m: Minds)
    requires net.connects && net.hello == Delivered && net.request == Delivered
    ensures Called(NEW_LINK, CallPing, net, m).1 == Some(Pong)
    ensures var session := m.sessionId(task, 1);
      var (after, receipt) := Called(NEW_LINK, CallStart(task), net, m);
      if session == "" then receipt == None && !Usable(after.endpoint)
      else
        && receipt == Some(Started(session, m.h(ViewJson(task))))
        && Usable(after.endpoint) && after.endpoint.connected && after.endpoint.handshakeComplete
        && after.endpoint.turns == map[session := 1] == NextTurns(after.worker)
  {
    hide Called, ViewJson;
    NewWorkerTurns();
    AnswerIsExact(NEW_LINK, CallPing, net, m);
    AnswerIsExact(NEW_LINK, CallStart(task), net, m);
    CallKeepsSync(NEW_LINK, CallStart(task), net, m);
    if m.sessionId(task, 1) != "" {
      ReceiptAnswersThisCall(NEW_LINK, CallStart(task), net, m);
      OpenedTurns(NEW_WORKER, m.sessionId(task, 1), task, 1);
    }
  }

  // ----- Turn numbers as the caller sees them -----

  /** The turn a receipt reports for a session. */
  function TurnOf(receipt: Option<Answer>, session: string): seq<nat> {
    match receipt
    case Some(Decided(s, turn, _)) => if s == session then [turn] else []
    case Some(Drafted(s, turn, _)) => if s == session then [turn] else []
    case _ => []
  }

  function TurnsReported(l: Link, steps: seq<Step>, session: string): seq<nat>
    decreases steps
  {
    if steps == [] then []
    else
      var (after, receipt) := Called(l, steps[0].call, steps[0].net, steps[0].m);
      TurnOf(receipt, session) + TurnsReported(after, steps[1..], session)
  }

  lemma CallMovesTurn(l: Link, call: Call, net: Network, m: Minds, session: string)
    requires InSync(l) && session in l.endpoint.turns && call != CallClose(session)
    ensures var (after, receipt) := Called(l, call, net, m);
      var turn := l.endpoint.turns[session];
      && (TurnOf(receipt, session) == [] || TurnOf(receipt, session) == [turn])
      && (Usable(after.endpoint) ==>
            session in after.endpoint.turns
            && after.endpoint.turns[session] == turn + |TurnOf(receipt, session)|)
  {
    hide Requested, NextTurns, ValidDecision, InSync;
    match OpOf(l, call)
    case None =>
    case Some(op) =>
      RequestAsks(l, op, net, m);
  }

  lemma {:induction false} NothingReported(l: Link, steps: seq<Step>, session: string)
    requires InSync(l) && !Usable(l.endpoint)
    ensures TurnsReported(l, steps, session) == []
    decreases steps
  {
    hide Called, InSync;
    if steps != [] {
      CallKeepsSync(l, steps[0].call, steps[0].net, steps[0].m);
      NothingReported(Called(l, steps[0].call, steps[0].net, steps[0].m).0, steps[1..], session);
    }
  }

  /** While a session stays open its receipts carry consecutive turns, with calls on other
      sessions, refused calls and losses in between. */
  lemma {:induction false} TurnsCountUp(l: Link, steps: seq<Step>, session: string)
    requires InSync(l) && session in l.endpoint.turns
    requires forall i :: 0 <= i < |steps| ==> steps[i].call != CallClose(session)
    ensures var turns := TurnsReported(l, steps, session);
      forall i :: 0 <= i < |turns| ==> turns[i] == l.endpoint.turns[session] + i
    decreases steps
  {
    hide Called, InSync, TurnOf;
    if steps != [] {
      var call, net, m := steps[0].call, steps[0].net, steps[0].m;
      var (after, receipt) := Called(l, call, net, m);
      CallKeepsSync(l, call, net, m);
      CallMovesTurn(l, call, net, m, session);
      assert TurnsReported(l, steps, session) == TurnOf(receipt, session) + TurnsReported(after, steps[1..], session);
      if Usable(after.endpoint) { TurnsCountUp(after, steps[1..], session); }
      else { NothingReported(after, steps[1..], session); }
    }
  }
}
