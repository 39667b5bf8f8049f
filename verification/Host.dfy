/** The reference environments (`gym/host.py`): their step machines and the counter that stamps
    their observations (`_BaseEnvironment._obs`), which must satisfy the provenance test. */
module Host {
  import opened Json
  import opened Evidence
  import Digits

  // ----- What an environment observes -----

  /** The attempt number is given or the next one for this check and probe. */
  datatype Attempt = Nth(n: int) | Next

  datatype Emission = Emission(checkId: string, probeId: string, attempt: Attempt, observationType: string,
                               status: string, value: Json, cost: real, rawPayloadRef: Option<string>)

  function StampedId(taskId: string, n: nat): string {
    "obs-" + taskId + "-" + Digits.Padded4(n)
  }

  function Lineage(snapshotId: string): string {
    "lineage-" + snapshotId
  }

  function Stamped(taskId: string, snapshotId: string, n: nat, attempt: int, e: Emission): Observation {
    Observation(StampedId(taskId, n), Lineage(snapshotId), e.checkId, e.probeId, attempt, n, n,
                e.observationType, e.status, e.value, e.cost, e.rawPayloadRef)
  }

  /** The stamps of the counter: running ids, sequence and ticks, one source, and attempts that
      rise for each check and probe. */
  ghost predicate Produced(taskId: string, snapshotId: string, items: seq<Observation>) {
    && (forall i :: 0 <= i < |items| ==>
          && items[i].observationId == StampedId(taskId, i)
          && items[i].sourceLineageRoot == Lineage(snapshotId)
          && items[i].sequenceIndex == i && items[i].logicalTick == i)
    && (forall i, j :: 0 <= i < j < |items| && SameProbe(items[i], items[j]) ==>
        items[i].attemptId < items[j].attemptId)
  }

  predicate SameProbe(a: Observation, b: Observation) {
    a.checkId == b.checkId && a.probeId == b.probeId
  }

  lemma IdsDistinct(taskId: string, m: nat, n: nat)
    requires StampedId(taskId, m) == StampedId(taskId, n)
    ensures m == n
  {
    hide Digits.Padded4;
    var prefix := "obs-" + taskId + "-";
    var s, t := StampedId(taskId, m), StampedId(taskId, n);
    assert s == prefix + Digits.Padded4(m) && t == prefix + Digits.Padded4(n);
    assert s[|prefix|..] == Digits.Padded4(m) && t[|prefix|..] == Digits.Padded4(n);
    Digits.PaddedInjective(m, n);
  }

  /** What the counter stamps passes the provenance test exactly when every check sticks to one
      probe, names are not empty and no cost is negative. */
  lemma ProducedIsAdmissible(taskId: string, snapshotId: string, items: seq<Observation>)
    requires Produced(taskId, snapshotId, items)
    ensures Admissible(items) <==>
      && (forall i :: 0 <= i < |items| ==> items[i].checkId != "" && items[i].probeId != "" && items[i].cost >= 0.0)
      && (forall i, j :: 0 <= i < j < |items| && items[i].checkId == items[j].checkId ==>
          items[i].probeId == items[j].probeId)
  {
    hide StampedId;
    assert Lineage(snapshotId) != "";
    if Admissible(items) {
      assert forall i :: 0 <= i < |items| ==> Identified(items[i]);
      assert forall i, j :: 0 <= i < j < |items| ==> Consistent(items[i], items[j]);
    }
    if (forall i :: 0 <= i < |items| ==> items[i].checkId != "" && items[i].probeId != "" && items[i].cost >= 0.0)
       && (forall i, j :: 0 <= i < j < |items| && items[i].checkId == items[j].checkId ==>
           items[i].probeId == items[j].probeId) {
      forall i, j | 0 <= i < j < |items|
        ensures items[i].observationId != items[j].observationId && items[i].logicalTick < items[j].logicalTick
        ensures Consistent(items[i], items[j])
      {
        if items[i].observationId == items[j].observationId { IdsDistinct(taskId, i, j); }
        if items[i].checkId == items[j].checkId { assert SameProbe(items[i], items[j]); }
      }
    }
  }

  // ----- The step machines -----

  datatype Machine =
    | Cli(initialHealth: seq<bool>, running: bool, inspected: bool, restarted: bool)
    | StructuredData(measurements: (Json, Json), provenance: Json, checked: bool, admissible: string)
    | FilesystemConfig(project: Json, cache: Json, origin: Json, originChecked: bool, oracleAction: string)
    | RepositoryCoding(fixedText: bool, failedOnce: bool, patched: bool)
    | SafeDefer
    | GenerativeFallback(candidates: nat)

  function Seen(check: string, probe: string, attempt: Attempt, kind: string, status: string, value: Json, cost: real)
    : Emission
  {
    Emission(check, probe, attempt, kind, status, value, cost, None)
  }

  function Health(index: nat, pass: bool): Emission {
    Seen("health", "health", Nth(index), "healthcheck", if pass then "PASS" else "FAIL",
         Str(if pass then "ok" else "timeout"), 0.0)
  }

  /** `reset` */
  function Opening(m: Machine): seq<Emission> {
    match m
    case Cli(health, _, _, _) => seq(|health|, i requires 0 <= i < |health| => Health(i + 1, health[i]))
    case StructuredData(measurements, _, _, _) =>
      [Seen("source-a", "sensor-a", Nth(1), "measurement", "PASS", measurements.0, 0.0),
       Seen("source-b", "sensor-b", Nth(1), "measurement", "PASS", measurements.1, 0.0)]
    case FilesystemConfig(project, cache, _, _, _) =>
      [Seen("project-config", "config-reader-project", Nth(1), "configuration", "PASS", project, 0.0),
       Seen("cache-config", "config-reader-cache", Nth(1), "configuration", "PASS", cache, 0.0)]
    case RepositoryCoding(_, _, _) =>
      [Seen("static-review", "review", Nth(1), "claim", "PASS", Str("implementation looks plausible"), 0.0),
       Seen("historical-regression", "history", Nth(1), "claim", "FAIL", Str("clamp edge cases previously failed"),
            0.0)]
    case SafeDefer =>
      [Seen("capability", "capability", Nth(1), "capability", "FAIL", Str("required actuator unavailable"), 0.0)]
    case GenerativeFallback(_) =>
      [Seen("bounded-actions", "capability", Nth(1), "capability", "FAIL",
            Str("no bounded action can synthesize missing key"), 0.0)]
  }

  /** What one action does; the semantic verdict stays as it is when `verdict` is None. */
  datatype Response = Response(machine: Machine, emission: Emission, verdict: Option<bool>, done: bool)

  predicate Defers(action: string) {
    "DEFER_" <= action || action == "DEFER"
  }

  function Deferred(m: Machine, action: string): Option<Response> {
    if Defers(action)
    then Some(Response(m, Seen("defer", "defer", Nth(1), "decision", "FAIL", Str(action), 0.0), None, true))
    else None
  }

  function CliStep(m: Machine, action: string): Option<Response>
    requires m.Cli?
  {
    if action == "INSPECT_PROCESS_STATE" then
      Some(Response(m.(inspected := true),
        Seen("process-state", "process-state", Nth(1), "process_inspection", if m.running then "PASS" else "FAIL",
             Str(if m.running then "running" else "stopped"), 0.25), Some(m.running), m.running))
    else if action == "RESTART_PROCESS" then
      var valid := m.inspected && !m.running;
      Some(Response(if valid then m.(running := true, restarted := true) else m,
        Seen("restart", "restart", Next, "mutation", if valid then "PASS" else "WARN",
             Str(if valid then "restart-after-proof" else "destructive-repair-without-proof"), 1.0), None, false))
    else if action == "RETRY_HEALTHCHECK" then
      var valid := m.running && (m.restarted || m.inspected);
      Some(Response(m, Seen("health", "health", Next, "healthcheck", if valid then "PASS" else "FAIL",
             Str(if valid then "ok" else "timeout"), 0.2), Some(valid), valid))
    else Deferred(m, action)
  }

  function DataStep(m: Machine, action: string): Option<Response>
    requires m.StructuredData?
  {
    if action == "CHECK_PROVENANCE" then
      Some(Response(m.(checked := true),
        Emission("provenance", "provenance", Nth(1), "provenance", "PASS", m.provenance, 0.15, Some("provenance.json")),
        None, false))
    else if action == "SELECT_SOURCE_A" || action == "SELECT_SOURCE_B" then
      var valid := m.checked && action == m.admissible;
      Some(Response(m, Seen("selection", "selection", Nth(1), "decision", if valid then "PROOF_CLOSED" else "FAIL",
             Str(action), 0.05), Some(valid), true))
    else Deferred(m, action)
  }

  function ConfigStep(m: Machine, action: string): Option<Response>
    requires m.FilesystemConfig?
  {
    if action == "INSPECT_CONFIG_ORIGIN" then
      Some(Response(m.(originChecked := true),
        Emission("config-origin", "origin-reader", Nth(1), "provenance", "PASS", m.origin, 0.15, Some("origin.json")),
        None, false))
    else if action == "SELECT_PROJECT_CONFIG" || action == "SELECT_CACHE_CONFIG" then
      var valid := m.originChecked && action == m.oracleAction;
      Some(Response(m, Seen("config-selection", "config-selection", Nth(1), "decision",
             if valid then "PROOF_CLOSED" else "FAIL", Str(action), 0.05), Some(valid), true))
    else Deferred(m, action)
  }

  /** The test passes exactly when the fixed module text is in place. */
  function Tested(check: string, pass: bool): Emission {
    Emission(check, "unittest", Next, "execution", if pass then "PASS" else "FAIL",
             Obj(map[Other("returncode") := Int(if pass then 0 else 1)]), 0.5, Some("test_calc.py"))
  }

  function CodingStep(m: Machine, action: string): Option<Response>
    requires m.RepositoryCoding?
  {
    if action == "RUN_TARGETED_TEST" then
      Some(Response(m.(failedOnce := !m.fixedText), Tested("targeted-test", m.fixedText), None, false))
    else if action == "APPLY_CANDIDATE_FIX" then
      if !m.failedOnce
      then Some(Response(m,
        Seen("patch", "patch", Next, "mutation", "FAIL", Str("patch-before-execution-evidence"), 0.25), None, false))
      else Some(Response(m.(fixedText := true, patched := true),
        Emission("patch", "patch", Next, "mutation", "PASS", Str("candidate-applied"), 0.25, Some("calc.py")),
        None, false))
    else if action == "RUN_REGRESSION" then
      Some(Response(m, Tested("regression", m.fixedText), Some(m.patched && m.fixedText), true))
    else if action == "ROLLBACK" then
      Some(Response(m.(fixedText := false, patched := false),
        Seen("rollback", "rollback", Next, "mutation", "PASS", Str("rolled-back"), 0.25), None, false))
    else Deferred(m, action)
  }

  /** `step`; None when the environment raises on an action it does not know. */
  function Respond(m: Machine, action: string, candidate: Option<string>): Option<Response> {
    match m
    case Cli(_, _, _, _) => CliStep(m, action)
    case StructuredData(_, _, _, _) => DataStep(m, action)
    case FilesystemConfig(_, _, _, _, _) => ConfigStep(m, action)
    case RepositoryCoding(_, _, _) => CodingStep(m, action)
    case SafeDefer =>
      var valid := action == "DEFER_NO_SUPPORT" || action == "DEFER_NO_ADMISSIBLE";
      Some(Response(m,
        Seen("defer", "defer", Nth(1), "decision", if valid then "PROOF_CLOSED" else "FAIL", Str(action), 0.0),
        Some(valid), true))
    case GenerativeFallback(n) =>
      if action != "CALL_GENERATIVE"
      then Some(Response(m, Seen("fallback", "fallback", Nth(1), "decision", "FAIL", Str(action), 0.0), Some(false),
                         true))
      else
        var valid := candidate == Some("key=stable-42");
        Some(Response(GenerativeFallback(n + 1),
          Seen("generated-candidate", "hidden-validator", Nth(n + 1), "candidate_validation",
               if valid then "PASS" else "FAIL", Obj(map[Other("accepted") := Bool(valid)]), 0.75), Some(valid), valid))
  }

  // ----- Every check keeps its probe -----

  /** The probe behind each check of an environment. */
  function ProbeFor(m: Machine, check: string): string {
    match m
    case StructuredData(_, _, _, _) =>
      if check == "source-a" then "sensor-a" else if check == "source-b" then "sensor-b" else check
    case FilesystemConfig(_, _, _, _, _) =>
      if check == "project-config" then "config-reader-project"
      else if check == "cache-config" then "config-reader-cache"
      else if check == "config-origin" then "origin-reader" else check
    case RepositoryCoding(_, _, _) =>
      if check == "static-review" then "review"
      else if check == "historical-regression" then "history"
      else if check == "targeted-test" || check == "regression" then "unittest" else check
    case GenerativeFallback(_) =>
      if check == "bounded-actions" then "capability"
      else if check == "generated-candidate" then "hidden-validator" else check
    case _ => check
  }

  predicate SameKind(a: Machine, b: Machine) {
    && (a.Cli? <==> b.Cli?) && (a.StructuredData? <==> b.StructuredData?)
    && (a.FilesystemConfig? <==> b.FilesystemConfig?) && (a.RepositoryCoding? <==> b.RepositoryCoding?)
    && (a.SafeDefer? <==> b.SafeDefer?)
  }

  predicate Regular(m: Machine, e: Emission) {
    e.checkId != "" && e.probeId != "" && e.cost >= 0.0 && e.probeId == ProbeFor(m, e.checkId)
  }

  lemma OpeningRegular(m: Machine)
    ensures forall i :: 0 <= i < |Opening(m)| ==> Regular(m, Opening(m)[i])
  {
  }

  /** The attempts a reset states start at one and rise for each check. */
  lemma OpeningRises(m: Machine)
    ensures forall i :: 0 <= i < |Opening(m)| ==> Opening(m)[i].attempt.Nth? && Opening(m)[i].attempt.n >= 1
    ensures forall i, j :: 0 <= i < j < |Opening(m)| && Opening(m)[i].checkId == Opening(m)[j].checkId ==>
      Opening(m)[i].attempt.n < Opening(m)[j].attempt.n
  {
  }

  lemma CliRegular(m: Machine, action: string)
    requires m.Cli? && CliStep(m, action).Some?
    ensures Regular(m, CliStep(m, action).value.emission) && CliStep(m, action).value.machine.Cli?
  {
  }

  lemma DataRegular(m: Machine, action: string)
    requires m.StructuredData? && DataStep(m, action).Some?
    ensures Regular(m, DataStep(m, action).value.emission) && DataStep(m, action).value.machine.StructuredData?
  {
  }

  lemma ConfigRegular(m: Machine, action: string)
    requires m.FilesystemConfig? && ConfigStep(m, action).Some?
    ensures Regular(m, ConfigStep(m, action).value.emission) && ConfigStep(m, action).value.machine.FilesystemConfig?
  {
  }

  lemma CodingTable(m: Machine)
    requires m.RepositoryCoding?
    ensures ProbeFor(m, "targeted-test") == "unittest" && ProbeFor(m, "regression") == "unittest"
    ensures ProbeFor(m, "patch") == "patch" && ProbeFor(m, "rollback") == "rollback" && ProbeFor(m, "defer") == "defer"
  {
  }

  lemma CodingRegular(m: Machine, action: string)
    requires m.RepositoryCoding? && CodingStep(m, action).Some?
    ensures Regular(m, CodingStep(m, action).value.emission) && CodingStep(m, action).value.machine.RepositoryCoding?
  {
    hide ProbeFor;
    CodingTable(m);
  }

  lemma RespondRegular(m: Machine, action: string, candidate: Option<string>)
    ensures var r := Respond(m, action, candidate);
      r.Some? ==> Regular(m, r.value.emission) && SameKind(m, r.value.machine)
  {
    hide CliStep, DataStep, ConfigStep, CodingStep;
    if Respond(m, action, candidate).Some? {
      match m
      case Cli(_, _, _, _) => CliRegular(m, action);
      case StructuredData(_, _, _, _) => DataRegular(m, action);
      case FilesystemConfig(_, _, _, _, _) => ConfigRegular(m, action);
      case RepositoryCoding(_, _, _) => CodingRegular(m, action);
      case _ =>
    }
  }

  lemma KindKeepsProbe(a: Machine, b: Machine, check: string)
    requires SameKind(a, b)
    ensures ProbeFor(a, check) == ProbeFor(b, check)
  {
  }

  // ----- The environment -----

  function Previous(attempts: map<(string, string), int>, e: Emission): int {
    if (e.checkId, e.probeId) in attempts then attempts[(e.checkId, e.probeId)] else 0
  }

  function AttemptOf(attempts: map<(string, string), int>, e: Emission): int {
    if e.attempt.Nth? then e.attempt.n else Previous(attempts, e) + 1
  }

  /** The attempt counters are never behind what was observed. */
  ghost predicate Counted(attempts: map<(string, string), int>, items: seq<Observation>) {
    forall i :: 0 <= i < |items| ==>
      (items[i].checkId, items[i].probeId) in attempts
      && items[i].attemptId <= attempts[(items[i].checkId, items[i].probeId)]
  }

  ghost predicate AllRegular(m: Machine, items: seq<Observation>) {
    forall i :: 0 <= i < |items| ==>
      && items[i].checkId != "" && items[i].probeId != "" && items[i].cost >= 0.0
      && items[i].probeId == ProbeFor(m, items[i].checkId)
  }

  lemma NextStamped(taskId: string, snapshotId: string, items: seq<Observation>, attempts: map<(string, string), int>,
                    attempt: int, e: Emission)
    requires Produced(taskId, snapshotId, items) && Counted(attempts, items)
    requires attempt > Previous(attempts, e)
    ensures var item := Stamped(taskId, snapshotId, |items|, attempt, e);
      && Produced(taskId, snapshotId, items + [item])
      && Counted(attempts[(e.checkId, e.probeId) := attempt], items + [item])
  {
    hide StampedId, Lineage;
  }

  lemma KindKeepsRegular(a: Machine, b: Machine, items: seq<Observation>)
    requires SameKind(a, b) && AllRegular(a, items)
    ensures AllRegular(b, items)
  {
    hide ProbeFor, SameKind;
    forall i | 0 <= i < |items| ensures items[i].probeId == ProbeFor(b, items[i].checkId) {
      KindKeepsProbe(a, b, items[i].checkId);
    }
  }

  /** All there is to an environment. */
  datatype EnvironmentState = EnvironmentState(
    taskId: string, snapshotId: string, machine: Machine, attempts: map<(string, string), int>,
    produced: seq<Observation>, verdict: bool)

  function NewState(taskId: string, snapshotId: string, machine: Machine): EnvironmentState {
    EnvironmentState(taskId, snapshotId, machine, map[], [], false)
  }

  /** `_obs`: one more stamped observation; None when it raises because the attempt does not rise. */
  function Stamp(s: EnvironmentState, e: Emission): Option<EnvironmentState> {
    var attempt := AttemptOf(s.attempts, e);
    if attempt <= Previous(s.attempts, e) then None
    else Some(s.(attempts := s.attempts[(e.checkId, e.probeId) := attempt],
                 produced := s.produced + [Stamped(s.taskId, s.snapshotId, |s.produced|, attempt, e)]))
  }

  function StampAll(s: EnvironmentState, emissions: seq<Emission>): Option<EnvironmentState> {
    if emissions == [] then Some(s)
    else
      var before := StampAll(s, emissions[..|emissions| - 1]);
      if before.None? then None else Stamp(before.value, emissions[|emissions| - 1])
  }

  /** Whether the verdict is set before the observation is stamped, and so even if that raises. */
  predicate JudgesFirst(m: Machine, action: string) {
    || m.StructuredData? || m.FilesystemConfig? || m.SafeDefer?
    || (m.GenerativeFallback? && action != "CALL_GENERATIVE")
  }

  /** `accepted_candidate` of the outcome. */
  function Acceptance(m: Machine, action: string, r: Response): Option<bool> {
    if m.GenerativeFallback? && action == "CALL_GENERATIVE" then r.verdict else None
  }

  /** The state a step leaves and what it returns; no item when it raises. */
  datatype StepResult = StepResult(
    state: EnvironmentState, item: Option<Observation>, done: bool, accepted: Option<bool>)

  function TakeStep(s: EnvironmentState, action: string, candidate: Option<string>): StepResult {
    var r := Respond(s.machine, action, candidate);
    if r.None? then StepResult(s, None, false, None)
    else
      var judged := if r.value.verdict.Some? then r.value.verdict.value else s.verdict;
      var stamped := Stamp(s, r.value.emission);
      if stamped.None? then
        var kept := if JudgesFirst(s.machine, action) then judged else s.verdict;
        StepResult(s.(machine := r.value.machine, verdict := kept), None, false, None)
      else
        StepResult(stamped.value.(machine := r.value.machine, verdict := judged),
                   Some(stamped.value.produced[|s.produced|]), r.value.done, Acceptance(s.machine, action, r.value))
  }

  ghost predicate Sound(s: EnvironmentState) {
    && Produced(s.taskId, s.snapshotId, s.produced)
    && Counted(s.attempts, s.produced)
    && AllRegular(s.machine, s.produced)
  }

  lemma StampKeeps(s: EnvironmentState, e: Emission)
    requires Produced(s.taskId, s.snapshotId, s.produced) && Counted(s.attempts, s.produced) && Stamp(s, e).Some?
    ensures var t := Stamp(s, e).value;
      Produced(t.taskId, t.snapshotId, t.produced) && Counted(t.attempts, t.produced)
  {
    hide Produced, Counted, Stamped;
    NextStamped(s.taskId, s.snapshotId, s.produced, s.attempts, AttemptOf(s.attempts, e), e);
  }

  lemma StampKeepsSound(s: EnvironmentState, e: Emission)
    requires Sound(s) && Regular(s.machine, e)
    ensures Stamp(s, e).Some? ==> Sound(Stamp(s, e).value)
  {
    hide Produced, Counted, StampedId, Lineage, ProbeFor;
    if Stamp(s, e).Some? { StampKeeps(s, e); }
  }

  /** A step that raises or not leaves the evidence as good as it was. */
  lemma StepKeepsSound(s: EnvironmentState, action: string, candidate: Option<string>)
    requires Sound(s)
    ensures Sound(TakeStep(s, action, candidate).state)
  {
    hide Produced, Counted, AllRegular, Respond, Regular, Stamped, SameKind;
    var r := Respond(s.machine, action, candidate);
    if r.Some? {
      RespondRegular(s.machine, action, candidate);
      StampKeepsSound(s, r.value.emission);
      var t := Stamp(s, r.value.emission);
      KindKeepsRegular(s.machine, r.value.machine, if t.Some? then t.value.produced else s.produced);
    }
  }

  /** A new environment opens without raising. */
  lemma {:induction false} OpensFrom(s: EnvironmentState, k: nat)
    requires s.attempts == map[] && Sound(s) && k <= |Opening(s.machine)|
    ensures var t := StampAll(s, Opening(s.machine)[..k]);
      && t.Some? && Sound(t.value)
      && t.value.(attempts := s.attempts, produced := s.produced) == s
      && forall j :: k <= j < |Opening(s.machine)| ==>
           Previous(t.value.attempts, Opening(s.machine)[j]) < AttemptOf(t.value.attempts, Opening(s.machine)[j])
  {
    hide Sound, Opening, Stamped, Regular;
    var emissions := Opening(s.machine);
    OpeningRises(s.machine);
    if k > 0 {
      OpensFrom(s, k - 1);
      assert emissions[..k][..k - 1] == emissions[..k - 1];
      OpeningRegular(s.machine);
      StampKeepsSound(StampAll(s, emissions[..k - 1]).value, emissions[k - 1]);
    }
  }

  function Opened(taskId: string, snapshotId: string, machine: Machine): (s: EnvironmentState)
    ensures StampAll(NewState(taskId, snapshotId, machine), Opening(machine)) == Some(s)
    ensures Sound(s) && s.machine == machine && !s.verdict
  {
    hide Sound, Opening, Stamp;
    var start := NewState(taskId, snapshotId, machine);
    assert Sound(start) by { NewIsSound(taskId, snapshotId, machine); }
    assert Opening(machine)[..|Opening(machine)|] == Opening(machine);
    OpensFrom(start, |Opening(machine)|);
    StampAll(start, Opening(machine)).value
  }

  lemma NewOpens(taskId: string, snapshotId: string, machine: Machine)
    ensures StampAll(NewState(taskId, snapshotId, machine), Opening(machine)).Some?
  {
    hide Opening, StampAll;
    assert Some(Opened(taskId, snapshotId, machine))
      == StampAll(NewState(taskId, snapshotId, machine), Opening(machine));
  }

  lemma NewIsSound(taskId: string, snapshotId: string, machine: Machine)
    ensures Sound(NewState(taskId, snapshotId, machine))
  {
  }

  /** What is asked of an environment: an action and a candidate, time after time. */
  type Requests = nat -> (string, Option<string>)

  function StateAfter(s: EnvironmentState, asked: Requests, n: nat): EnvironmentState {
    if n == 0 then s else TakeStep(StateAfter(s, asked, n - 1), asked(n - 1).0, asked(n - 1).1).state
  }

  lemma {:induction false} StaysSound(s: EnvironmentState, asked: Requests, n: nat)
    requires Sound(s)
    ensures Sound(StateAfter(s, asked, n))
  {
    hide Sound, TakeStep;
    if n > 0 {
      StaysSound(s, asked, n - 1);
      StepKeepsSound(StateAfter(s, asked, n - 1), asked(n - 1).0, asked(n - 1).1);
    }
  }

  lemma SoundIsAdmissible(s: EnvironmentState)
    requires Sound(s)
    ensures Admissible(s.produced)
  {
    hide Admissible, Produced, ProbeFor;
    ProducedIsAdmissible(s.taskId, s.snapshotId, s.produced);
  }

  /** Whatever is asked of a bundled environment, and whatever raises, all it has observed passes
      the provenance test. */
  lemma EnvironmentEvidenceAdmissible(taskId: string, snapshotId: string, machine: Machine, asked: Requests, n: nat)
    ensures Admissible(StateAfter(Opened(taskId, snapshotId, machine), asked, n).produced)
  {
    hide Admissible, Sound, StateAfter;
    StaysSound(Opened(taskId, snapshotId, machine), asked, n);
    SoundIsAdmissible(StateAfter(Opened(taskId, snapshotId, machine), asked, n));
  }

  class Environment {
    const taskId: string
    const snapshotId: string
    var machine: Machine
    var sequence: nat
    var tick: nat
    var attempts: map<(string, string), int>
    var semanticValid: bool
    ghost var produced: seq<Observation>

    ghost function State(): EnvironmentState reads this {
      EnvironmentState(taskId, snapshotId, machine, attempts, produced, semanticValid)
    }

    ghost predicate Valid() reads this {
      && sequence == tick == |produced|
      && Produced(taskId, snapshotId, produced)
      && Counted(attempts, produced)
    }

    constructor (taskId: string, snapshotId: string, machine: Machine)
      ensures Valid() && State() == NewState(taskId, snapshotId, machine)
      ensures this.taskId == taskId && this.snapshotId == snapshotId && this.machine == machine && produced == []
    {
      this.taskId, this.snapshotId, this.machine := taskId, snapshotId, machine;
      sequence, tick, attempts, semanticValid, produced := 0, 0, map[], false, [];
    }

    /** `_obs`; None when it raises because the attempt does not rise. */
    method Obs(e: Emission) returns (item: Option<Observation>)
      requires Valid()
      modifies `sequence, `tick, `attempts, `produced
      ensures Valid()
      ensures item.None? <==> AttemptOf(old(attempts), e) <= Previous(old(attempts), e)
      ensures item.None? ==> State() == old(State())
      ensures item.Some? ==>
        && item.value == Stamped(taskId, snapshotId, |old(produced)|, AttemptOf(old(attempts), e), e)
        && Some(State()) == Stamp(old(State()), e)
    {
      hide StampedId, Lineage, Produced, Counted;
      var attempt := AttemptOf(attempts, e);
      if attempt <= Previous(attempts, e) { return None; }
      NextStamped(taskId, snapshotId, produced, attempts, attempt, e);
      attempts := attempts[(e.checkId, e.probeId) := attempt];
      var observation := Observation(StampedId(taskId, sequence), Lineage(snapshotId), e.checkId, e.probeId, attempt,
                                     sequence, tick, e.observationType, e.status, e.value, e.cost, e.rawPayloadRef);
      sequence, tick := sequence + 1, tick + 1;
      produced := produced + [observation];
      return Some(observation);
    }

    /** `reset`; a new environment never raises here. */
    method Reset() returns (observations: Option<seq<Observation>>)
      requires Valid()
      modifies `sequence, `tick, `attempts, `produced
      ensures Valid()
      ensures observations.Some? <==> StampAll(old(State()), Opening(machine)).Some?
      ensures observations.Some? ==>
        && Some(State()) == StampAll(old(State()), Opening(machine))
        && produced == old(produced) + observations.value
      ensures old(State()) == NewState(taskId, snapshotId, machine) ==>
        observations.Some? && State() == Opened(taskId, snapshotId, machine)
    {
      hide Produced, Counted, Opening, Stamped, StampAll, Opened, Sound, AttemptOf, Previous;
      var emissions := Opening(machine);
      ghost var start := State();
      var seen: seq<Observation> := [];
      StampAllNone(start, emissions);
      NewOpens(taskId, snapshotId, machine);
      for i := 0 to |emissions|
        invariant Valid() && produced == old(produced) + seen
        invariant Some(State()) == StampAll(start, emissions[..i])
      {
        StampAllNext(start, emissions, i);
        var item := Obs(emissions[i]);
        if item.None? {
          NoneAfter(start, emissions, i + 1);
          return None;
        }
        seen := seen + [item.value];
      }
      assert emissions[..|emissions|] == emissions;
      return Some(seen);
    }

    /** `step`; None when it raises, in which case a verdict or a flag may have been set already. */
    method Step(action: string, candidate: Option<string>)
      returns (outcome: Option<(Observation, bool, Option<bool>)>)
      requires Valid()
      modifies this
      ensures Valid()
      ensures var r := TakeStep(old(State()), action, candidate);
        && State() == r.state
        && outcome == if r.item.None? then None else Some((r.item.value, r.done, r.accepted))
    {
      hide Produced, Counted, Respond, Stamped;
      var m := machine;
      var r := Respond(m, action, candidate);
      if r.None? { return None; }
      var response := r.value;
      machine := response.machine;
      if response.verdict.Some? && JudgesFirst(m, action) { semanticValid := response.verdict.value; }
      var item := Obs(response.emission);
      if item.None? { return None; }
      if response.verdict.Some? { semanticValid := response.verdict.value; }
      return Some((item.value, response.done, Acceptance(m, action, response)));
    }
  }

  lemma StampAllNone(s: EnvironmentState, emissions: seq<Emission>)
    ensures StampAll(s, emissions[..0]) == Some(s)
  {
  }

  lemma StampAllNext(s: EnvironmentState, emissions: seq<Emission>, i: nat)
    requires i < |emissions|
    ensures StampAll(s, emissions[..i + 1])
      == if StampAll(s, emissions[..i]).None? then None else Stamp(StampAll(s, emissions[..i]).value, emissions[i])
  {
    assert emissions[..i + 1][..i] == emissions[..i];
  }

  lemma {:induction false} NoneAfter(s: EnvironmentState, emissions: seq<Emission>, k: nat)
    requires k <= |emissions| && StampAll(s, emissions[..k]).None?
    ensures StampAll(s, emissions).None?
  {
    hide Stamp;
    if k < |emissions| {
      assert emissions[..|emissions| - 1][..k] == emissions[..k];
      NoneAfter(s, emissions[..|emissions| - 1], k);
    } else {
      assert emissions[..k] == emissions;
    }
  }
}
