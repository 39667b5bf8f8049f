/** Runs of the gym over a bundled environment: the world outside the gym is a session of the
    in-repository host (`gym/host_boundary.py`, `gym/host.py`, `gym/core.py` together). */
module HostedRuns {
  import opened Json
  import opened HashChain
  import Ledger
  import opened Evidence
  import opened Episode
  import EpisodeLaws
  import opened Host
  import opened HostHistory
  import opened HostBoundary

  /** How often the policy has called for the generator before turn `k`. */
  function Drafts(w: World, k: nat): nat {
    if k == 0 then 0 else Drafts(w, k - 1) + (if w.policy(k - 1).kind.CallGenerative? then 1 else 0)
  }

  function CandidateAt(w: World, k: nat): Option<string> {
    if w.policy(k).kind.CallGenerative? && w.generator.Some? then Some(w.generator.value(Drafts(w, k))) else None
  }

  /** What the host is asked in each turn that comes to it. */
  function RequestsOf(w: World): Requests {
    (k: nat) => (ActionOf(w.policy(k)), CandidateAt(w, k))
  }

  predicate AsksHost(task: PublicTask, w: World, k: nat) {
    Rule(task, w, w.policy(k), Drafts(w, k)).Act?
  }

  /** What the session answers in turn `k`, when all turns before came to it. */
  function ReplyAt(task: PublicTask, w: World, start: EnvironmentState, k: nat): Option<StepReply> {
    SessionReply(task, StateAfter(start, RequestsOf(w), k), ActionOf(w.policy(k)), CandidateAt(w, k))
  }

  /** The host of this run is a session over this environment, which raises in none of its turns. */
  ghost predicate Hosted(task: PublicTask, w: World, start: EnvironmentState) {
    && w.reset == start.produced
    && (forall k :: 0 <= k < Final(task, w).steps && AsksHost(task, w, k) ==>
          ReplyAt(task, w, start, k) == Some(w.host(k)))
    && w.verdict == StateAfter(start, RequestsOf(w), Final(task, w).steps).verdict
  }

  function Actions(w: World, n: nat): seq<string> {
    if n == 0 then [] else Actions(w, n - 1) + [ActionOf(w.policy(n - 1))]
  }

  /** The run has seen what the environment has produced, and did what its trajectory says. */
  ghost predicate InStep(w: World, start: EnvironmentState, s: State) {
    && (s.end.None? ==> |s.candidates| == Drafts(w, s.steps))
    && (s.end.None? || s.end.value.reason.EnvironmentDone? ==>
          && s.trajectory == Actions(w, s.steps)
          && s.observations == StateAfter(start, RequestsOf(w), s.steps).produced)
    && (exists k :: SeenUpTo(w, start, s, k))
  }

  ghost predicate SeenUpTo(w: World, start: EnvironmentState, s: State, k: nat) {
    s.observations == StateAfter(start, RequestsOf(w), k).produced
  }

  lemma StepAppends(s: EnvironmentState, action: string, candidate: Option<string>)
    ensures var r := TakeStep(s, action, candidate);
      r.item.Some? ==> r.state.produced == s.produced + [r.item.value]
  {
    hide Respond, Stamped;
  }

  lemma TurnInStep(task: PublicTask, w: World, start: EnvironmentState, s: State)
    requires s.end.None? && InStep(w, start, s)
    requires s.steps < task.budget.maxSteps && AsksHost(task, w, s.steps) ==>
      ReplyAt(task, w, start, s.steps) == Some(w.host(s.steps))
    ensures InStep(w, start, TakeTurn(task, w, s))
  {
    hide Append, ToDicts, DecisionJson, OverCost, TakeStep, KindText, Ledger.ResultPayload, Ledger.DecisionPayload;
    var n, requests := s.steps, RequestsOf(w);
    var before, next := StateAfter(start, requests, n), TakeTurn(task, w, s);
    StepAppends(before, requests(n).0, requests(n).1);
    assert StateAfter(start, requests, n + 1) == TakeStep(before, requests(n).0, requests(n).1).state;
    assert next.observations == s.observations ==> SeenUpTo(w, start, next, n);
    assert next.observations == StateAfter(start, requests, n + 1).produced ==> SeenUpTo(w, start, next, n + 1);
  }

  lemma {:induction false} PlayInStep(task: PublicTask, w: World, start: EnvironmentState, s: State)
    requires InStep(w, start, s)
    requires forall k :: 0 <= k < Play(task, w, s).steps && AsksHost(task, w, k) ==>
      ReplyAt(task, w, start, k) == Some(w.host(k))
    ensures InStep(w, start, Play(task, w, s))
    decreases Fuel(task, s)
  {
    hide InStep, TakeTurn, AsksHost, ReplyAt;
    if s.end.None? {
      TurnAdvances(task, w, s);
      EpisodeLaws.TurnCounts(task, w, s);
      EpisodeLaws.PlayCounts(task, w, TakeTurn(task, w, s));
      TurnInStep(task, w, start, s);
      PlayInStep(task, w, start, TakeTurn(task, w, s));
    }
  }

  lemma BeginInStep(task: PublicTask, w: World, start: EnvironmentState)
    requires w.reset == start.produced
    ensures InStep(w, start, Begin(task, w))
  {
    hide Append, ViewJson, TaskJson, ToDicts, OverCost;
    assert SeenUpTo(w, start, Begin(task, w), 0);
  }

  lemma FinalInStep(task: PublicTask, w: World, start: EnvironmentState)
    requires Hosted(task, w, start)
    ensures InStep(w, start, Final(task, w))
  {
    hide InStep, Play, Begin, AsksHost, ReplyAt, StateAfter;
    BeginInStep(task, w, start);
    PlayInStep(task, w, start, Begin(task, w));
  }

  /** A run over a bundled environment has valid provenance, whatever the policy and the generator
      do. It is admitted exactly when the environment ended it, the bundle passes and the actions of
      its trajectory earned a valid verdict. */
  lemma HostedRunsAreEarned(task: PublicTask, w: World, snapshotId: string, machine: Machine, bundlePasses: bool,
                            hasSink: bool)
    requires Hosted(task, w, Opened(task.taskId, snapshotId, machine))
    ensures var r := Receipt(task, w, Final(task, w), bundlePasses, hasSink);
      var start, n := Opened(task.taskId, snapshotId, machine), Final(task, w).steps;
      && r.admission.provenanceValid
      && (r.Accepted() <==>
            && r.terminalReason == EnvironmentDone && bundlePasses
            && StateAfter(start, RequestsOf(w), n).verdict)
      && (r.terminalReason == EnvironmentDone ==> r.trajectory == Actions(w, n))
      && (Fresh(machine) ==>
            (r.Accepted() <==>
              r.terminalReason == EnvironmentDone && bundlePasses && Earned(machine, RequestsOf(w), n)))
  {
    hide Admissible, Sound, StateAfter, Final, WithReceipt, BundleBinds, Ledger.Accepts, Earned, AsksHost, ReplyAt,
      AtStart, Fresh;
    var start, s := Opened(task.taskId, snapshotId, machine), Final(task, w);
    FinalInStep(task, w, start);
    var k: nat :| SeenUpTo(w, start, s, k);
    EnvironmentEvidenceAdmissible(task.taskId, snapshotId, machine, RequestsOf(w), k);
    EpisodeLaws.EveryRunVerifies(task, w, bundlePasses, hasSink);
    if Fresh(machine) {
      OpenedAtStart(task.taskId, snapshotId, machine);
      ValidEndIsEarned(start, RequestsOf(w), s.steps);
    }
  }

  // ----- Every policy and generator can be hosted -----

  /** The same policy and generator, over a session of this environment. */
  function ServedBy(task: PublicTask, w: World, start: EnvironmentState): World {
    var host := (k: nat) =>
      var reply := ReplyAt(task, w, start, k);
      if reply.Some? then reply.value else Rejected;
    var served := w.(reset := start.produced, host := host);
    served.(verdict := StateAfter(start, RequestsOf(w), Final(task, served).steps).verdict)
  }

  lemma {:induction false} SameDrafts(a: World, b: World, k: nat)
    requires a.policy == b.policy && a.generator == b.generator
    ensures Drafts(a, k) == Drafts(b, k)
  {
    if k > 0 { SameDrafts(a, b, k - 1); }
  }

  lemma {:induction false} SameStates(a: World, b: World, start: EnvironmentState, n: nat)
    requires a.policy == b.policy && a.generator == b.generator
    ensures StateAfter(start, RequestsOf(a), n) == StateAfter(start, RequestsOf(b), n)
  {
    hide TakeStep;
    if n > 0 {
      var k: nat := n - 1;
      SameStates(a, b, start, k);
      SameDrafts(a, b, k);
      assert CandidateAt(a, k) == CandidateAt(b, k);
    }
  }

  lemma TurnIgnoresVerdict(task: PublicTask, w: World, v: bool, s: State)
    requires s.end.None?
    ensures TakeTurn(task, w.(verdict := v), s) == TakeTurn(task, w, s)
  {
    hide Append, ToDicts, DecisionJson, OverCost, Ledger.ResultPayload, Ledger.DecisionPayload;
  }

  lemma {:induction false} PlayIgnoresVerdict(task: PublicTask, w: World, v: bool, s: State)
    ensures Play(task, w.(verdict := v), s) == Play(task, w, s)
    decreases Fuel(task, s)
  {
    hide TakeTurn;
    if s.end.None? {
      TurnAdvances(task, w, s);
      TurnIgnoresVerdict(task, w, v, s);
      PlayIgnoresVerdict(task, w, v, TakeTurn(task, w, s));
    }
  }

  lemma FinalIgnoresVerdict(task: PublicTask, w: World, v: bool)
    ensures Final(task, w.(verdict := v)) == Final(task, w)
  {
    hide Play, ViewJson, TaskJson, Append, ToDicts, OverCost;
    PlayIgnoresVerdict(task, w, v, Begin(task, w));
    assert Begin(task, w.(verdict := v)) == Begin(task, w);
  }

  /** Whatever the policy and the generator answer, the run is a hosted one exactly when the
      environment raises in none of the turns in which the gym asks its host. */
  lemma ServedRunsAreHosted(task: PublicTask, w: World, start: EnvironmentState)
    ensures var served := ServedBy(task, w, start);
      Hosted(task, served, start) <==>
        forall k :: 0 <= k < Final(task, served).steps && AsksHost(task, served, k) ==>
          ReplyAt(task, served, start, k).Some?
  {
    hide Final, StateAfter, SessionReply, AsksHost;
    var served := ServedBy(task, w, start);
    FinalIgnoresVerdict(task, served, w.verdict);
    assert served.(verdict := w.verdict) == w.(reset := served.reset, host := served.host);
    SameStates(w, served, start, Final(task, served).steps);
    forall k: nat ensures ReplyAt(task, served, start, k) == ReplyAt(task, w, start, k) {
      SameStates(w, served, start, k);
      SameDrafts(w, served, k);
    }
  }
}
