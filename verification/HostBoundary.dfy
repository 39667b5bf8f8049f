/** The in-repository host (`LocalReferenceHost` in `gym/host_boundary.py`): sessions over bundled
    environments, with every action checked against the task's contract first. */
module HostBoundary {
  import opened Json
  import opened Evidence
  import opened Episode
  import opened Host

  /** `_action_allowed` */
  predicate ActionAllowed(task: PublicTask, action: string) {
    || action in task.allowedActions
    || ("DEFER_" <= action && "DEFER" in task.allowedActions)
  }

  /** The action the host is asked to take when a decision is acted on. */
  function ActionOf(d: PolicyDecision): string {
    match d.kind
    case Select => if d.action.Some? then d.action.value else ""
    case CallGenerative => CALL_ACTION
    case _ => KindText(d.kind)
  }

  /** What `step` answers in a session whose environment is in this state: an action outside the
      contract is rejected; None when the environment raises. */
  function SessionReply(task: PublicTask, s: EnvironmentState, action: string, candidate: Option<string>)
    : Option<StepReply>
  {
    if !ActionAllowed(task, action) then Some(Rejected)
    else
      var r := TakeStep(s, action, candidate);
      if r.item.None? then None else Some(Outcome([r.item.value], r.done, r.accepted))
  }

  /** An action outside the contract never reaches the environment. */
  function SessionNext(task: PublicTask, s: EnvironmentState, action: string, candidate: Option<string>)
    : EnvironmentState
  {
    if ActionAllowed(task, action) then TakeStep(s, action, candidate).state else s
  }

  datatype HostSession = HostSession(task: PublicTask, environment: Environment)

  datatype HostReply =
    | UnknownSession
    | EnvironmentRaised
    | Replied(reply: StepReply)     // `Rejected` is HostActionRejected

  class LocalReferenceHost {
    const sessionId: (PublicTask, nat) -> string
    var sessions: map<string, HostSession>
    var counter: nat

    ghost function Environments(): set<Environment> reads this {
      set s | s in sessions :: sessions[s].environment
    }

    /** Every session has an environment of its own, and all evidence in them is admissible. */
    ghost predicate Valid() reads this, Environments() {
      && (forall s :: s in sessions ==> sessions[s].environment.Valid() && Sound(sessions[s].environment.State()))
      && (forall s, t :: s in sessions && t in sessions && s != t ==>
          sessions[s].environment != sessions[t].environment)
    }

    constructor (sessionId: (PublicTask, nat) -> string)
      ensures Valid() && sessions == map[]
    {
      this.sessionId, sessions, counter := sessionId, map[], 0;
    }

    /** `start`, with the environment its factory makes for the task; None when it raises. */
    method Start(task: PublicTask, snapshotId: string, machine: Machine)
      returns (session: string, observations: Option<seq<Observation>>)
      requires Valid()
      modifies this
      ensures Valid()
      ensures session == sessionId(task, old(counter) + 1)
      ensures observations.Some? <==> session !in old(sessions)
      ensures observations.None? ==> sessions == old(sessions)
      ensures observations.Some? ==>
        && sessions.Keys == old(sessions).Keys + {session}
        && fresh(sessions[session].environment) && sessions[session].task == task
        && sessions[session].environment.State() == Opened(task.taskId, snapshotId, machine)
        && observations.value == sessions[session].environment.produced
      ensures forall s :: s in old(sessions) ==> s in sessions && sessions[s] == old(sessions[s])
    {
      hide Produced, Counted, AllRegular, Opening, Environment.Valid, Environment.State, StampAll, Sound;
      counter := counter + 1;
      var environment := new Environment(task.taskId, snapshotId, machine);
      session := sessionId(task, counter);
      if session in sessions { return session, None; }
      sessions := sessions[session := HostSession(task, environment)];
      observations := environment.Reset();
      assert [] + environment.produced == environment.produced;
    }

    /** `step`: no other session is touched. */
    method StepSession(session: string, action: string, candidate: Option<string>) returns (reply: HostReply)
      requires Valid()
      modifies if session in sessions then {sessions[session].environment} else {}
      ensures Valid()
      ensures session !in sessions ==> reply == UnknownSession
      ensures session in sessions ==>
        var task, before := sessions[session].task, old(sessions[session].environment.State());
        var answer := SessionReply(task, before, action, candidate);
        && sessions[session].environment.State() == SessionNext(task, before, action, candidate)
        && reply == if answer.None? then EnvironmentRaised else Replied(answer.value)
    {
      hide Produced, Counted, AllRegular, TakeStep, Sound;
      if session !in sessions { return UnknownSession; }
      if !ActionAllowed(sessions[session].task, action) { return Replied(Rejected); }
      var environment := sessions[session].environment;
      StepKeepsSound(environment.State(), action, candidate);
      var outcome := environment.Step(action, candidate);
      if outcome.None? { return EnvironmentRaised; }
      return Replied(Outcome([outcome.value.0], outcome.value.1, outcome.value.2));
    }

    /** `semantic_verdict`; None for an unknown session. */
    method SemanticVerdict(session: string) returns (verdict: Option<bool>)
      ensures verdict == if session in sessions then Some(sessions[session].environment.State().verdict) else None
    {
      if session !in sessions { return None; }
      return Some(sessions[session].environment.semanticValid);
    }

    method Close(session: string)
      requires Valid()
      modifies this`sessions
      ensures Valid() && sessions == old(sessions) - {session}
    {
      sessions := sessions - {session};
    }
  }
}
