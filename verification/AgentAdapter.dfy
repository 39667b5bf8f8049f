/** The controller's side of an agent session (`AgentEndpointPolicyAdapter` in
    `gym/isolated_agent.py`): policy and generator to the gym, it forwards each call to the
    endpoint and writes call and answer into the transcript. */
module AgentAdapter {
  import opened Json
  import opened HashChain
  import opened Episode
  import opened TranscriptBinding

  /** The transcript after a run's calls: the endpoint counts turns from one, so the turn of a
      call is the number of entries before it. */
  function Transcript(w: World, view: AgentTaskView, session: string, calls: seq<Call>): seq<Entry> {
    if calls == [] then Append(w.h, [], AGENT_START, StartPayload(w.h, view, session))
    else Noted(w, Transcript(w, view, session, calls[..|calls| - 1]), |calls|, calls[|calls| - 1])
  }

  function CallKind(call: Call): Word {
    if call.Decide? then AGENT_DECISION else AGENT_GENERATION
  }

  function CallPayload(w: World, turn: nat, call: Call): Object {
    match call
    case Decide(observations, trajectory, decision) => DecisionPayload(w.h, turn, observations, trajectory, decision)
    case Generate(observations, attempt, candidate) =>
      GenerationPayload(w.h, w.textSha, turn, observations, attempt, candidate)
  }

  function Noted(w: World, entries: seq<Entry>, turn: nat, call: Call): seq<Entry> {
    Append(w.h, entries, CallKind(call), CallPayload(w, turn, call))
  }

  function ClosedTranscript(w: World, view: AgentTaskView, session: string, calls: seq<Call>): seq<Entry> {
    Append(w.h, Transcript(w, view, session, calls), AGENT_CLOSE, ClosePayload(session))
  }

  /** The controller's proxy for one endpoint session. */
  class AgentEndpointPolicyAdapter {
    const session: string
    const transcript: AgentBoundaryTranscript
    var nextTurn: nat
    var closed: bool

    /** The transcript holds exactly these calls and the endpoint is at the turn after them. */
    ghost predicate Holds(w: World, view: AgentTaskView, calls: seq<Call>)
      reads this, transcript
    {
      && transcript.h == w.h && transcript.textSha == w.textSha
      && nextTurn == |calls| + 1 && !closed
      && transcript.entries == Transcript(w, view, session, calls)
    }

    constructor (w: World, view: AgentTaskView, session: string)
      ensures this.session == session && fresh(transcript) && Holds(w, view, [])
    {
      this.session := session;
      this.transcript := new AgentBoundaryTranscript(w.h, w.textSha, view, session);
      this.nextTurn := 1;
      this.closed := false;
    }

    /** `decide` and `generate`: the endpoint answers a call with its next turn number and both
        are written down. */
    method Forward(w: World, view: AgentTaskView, ghost calls: seq<Call>, call: Call)
      requires Holds(w, view, calls)
      modifies this, transcript
      ensures Holds(w, view, calls + [call])
    {
      hide DecisionPayload, GenerationPayload, Append;
      var turn := nextTurn;
      nextTurn := nextTurn + 1;
      assert (calls + [call])[..|calls|] == calls;
      match call
      case Decide(observations, trajectory, decision) =>
        transcript.RecordDecision(turn, observations, trajectory, decision);
      case Generate(observations, attempt, candidate) =>
        transcript.RecordGeneration(turn, observations, attempt, candidate);
    }

    method Close()
      modifies this, transcript
      ensures closed && nextTurn == old(nextTurn)
      ensures transcript.entries == if old(closed) then old(transcript.entries)
        else Append(transcript.h, old(transcript.entries), AGENT_CLOSE, ClosePayload(session))
    {
      if closed { return; }
      transcript.RecordClose(session);
      closed := true;
    }
  }
}
