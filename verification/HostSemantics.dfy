/** What the learners' abstraction makes of a reference environment's evidence (`gym/host.py` under
    `SemanticStateEncoder.encode` in `gym/adaptive_policy.py`): the state after every history of
    requests. */
module HostSemantics {
  import opened Json
  import opened Evidence
  import opened Host
  import opened HostHistory
  import opened Semantics

  // ----- One more observation -----

  lemma LatestNext(items: seq<Json>, o: Observation)
    ensures LatestOf(items + [ToDict(o)]) == LatestOf(items)[o.checkId := ToDict(o).fields]
  {
    assert (items + [ToDict(o)])[..|items|] == items;
  }

  lemma ToDictSays(o: Observation)
    ensures Get(ToDict(o).fields, Key.Value) == o.value && Get(ToDict(o).fields, Key.CheckId) == Str(o.checkId)
    ensures Get(ToDict(o).fields, Key.Status) == Str(o.status)
  {
  }

  /** The last observation of every check of this environment. */
  function Known(s: EnvironmentState): map<string, Object> {
    LatestOf(ToDicts(s.produced))
  }

  predicate Told(latest: map<string, Object>, e: Emission) {
    && e.checkId in latest
    && Get(latest[e.checkId], Key.Status) == Str(e.status) && Get(latest[e.checkId], Key.Value) == e.value
  }

  /** Exactly what this observation says is news. */
  predicate News(before: map<string, Object>, after: map<string, Object>, e: Emission) {
    && after.Keys == before.Keys + {e.checkId} && Told(after, e)
    && forall c :: c in before && c != e.checkId ==> after[c] == before[c]
  }

  lemma StampTells(s: EnvironmentState, e: Emission)
    requires Stamp(s, e).Some?
    ensures News(Known(s), Known(Stamp(s, e).value), e)
  {
    hide StampedId, Lineage, LatestOf, ToDict;
    var item := Stamped(s.taskId, s.snapshotId, |s.produced|, AttemptOf(s.attempts, e), e);
    assert ToDicts(s.produced + [item]) == ToDicts(s.produced) + [ToDict(item)];
    LatestNext(ToDicts(s.produced), item);
    ToDictSays(item);
  }

  lemma StepTells(s: EnvironmentState, action: string, candidate: Option<string>)
    ensures var r, o := TakeStep(s, action, candidate), Respond(s.machine, action, candidate);
      if r.item.None? then Known(r.state) == Known(s)
      else o.Some? && News(Known(s), Known(r.state), o.value.emission)
  {
    hide Respond, Stamp, LatestOf, News;
    var o := Respond(s.machine, action, candidate);
    if o.Some? && Stamp(s, o.value.emission).Some? {
      StampTells(s, o.value.emission);
      assert Known(TakeStep(s, action, candidate).state) == Known(Stamp(s, o.value.emission).value);
    }
  }

  /** What is known are openings of the environment and nothing else. */
  ghost predicate Displayed(latest: map<string, Object>, emissions: seq<Emission>) {
    && (forall i :: 0 <= i < |emissions| ==> emissions[i].checkId in latest)
    && forall c :: c in latest ==>
         exists i :: 0 <= i < |emissions| && emissions[i].checkId == c && Told(latest, emissions[i])
  }

  lemma DisplayedNext(before: map<string, Object>, after: map<string, Object>, emissions: seq<Emission>, e: Emission)
    requires Displayed(before, emissions) && News(before, after, e)
    ensures Displayed(after, emissions + [e])
  {
    hide Told;
    var longer := emissions + [e];
    assert longer[|emissions|] == e;
    forall i | 0 <= i < |emissions| ensures longer[i] == emissions[i] && longer[i].checkId in after {}
    forall c | c in after
      ensures exists i :: 0 <= i < |longer| && longer[i].checkId == c && Told(after, longer[i])
    {
      if c != e.checkId {
        var i :| 0 <= i < |emissions| && emissions[i].checkId == c && Told(before, emissions[i]);
        StillTold(before, after, emissions[i]);
        assert longer[i].checkId == c && Told(after, longer[i]);
      }
    }
  }

  lemma StillTold(before: map<string, Object>, after: map<string, Object>, e: Emission)
    requires Told(before, e) && e.checkId in after && after[e.checkId] == before[e.checkId]
    ensures Told(after, e)
  {
  }

  lemma {:induction false} OpeningDisplayed(s: EnvironmentState, emissions: seq<Emission>)
    requires s.produced == [] && StampAll(s, emissions).Some?
    ensures Displayed(Known(StampAll(s, emissions).value), emissions)
  {
    hide Stamp, Displayed, LatestOf, News;
    if emissions == [] {
      assert ToDicts([]) == [];
      NothingDisplayed();
    } else {
      var n := |emissions| - 1;
      OpeningDisplayed(s, emissions[..n]);
      var before := StampAll(s, emissions[..n]).value;
      StampTells(before, emissions[n]);
      DisplayedNext(Known(before), Known(Stamp(before, emissions[n]).value), emissions[..n], emissions[n]);
      assert emissions[..n] + [emissions[n]] == emissions;
    }
  }

  lemma NothingDisplayed()
    ensures LatestOf([]) == map[] && Displayed(map[], [])
  {
  }

  lemma OpenedDisplays(taskId: string, snapshotId: string, m: Machine)
    ensures Displayed(Known(Opened(taskId, snapshotId, m)), Opening(m))
  {
    hide Opening, Displayed, StampAll, Sound, LatestOf;
    NewOpens(taskId, snapshotId, m);
    OpeningDisplayed(NewState(taskId, snapshotId, m), Opening(m));
  }

  /** The checks an environment opens with. */
  function OpeningChecks(m: Machine): set<string> {
    match m
    case Cli(health, _, _, _) => if health == [] then {} else {"health"}
    case StructuredData(_, _, _, _) => {"source-a", "source-b"}
    case FilesystemConfig(_, _, _, _, _) => {"project-config", "cache-config"}
    case RepositoryCoding(_, _, _) => {"static-review", "historical-regression"}
    case SafeDefer => {"capability"}
    case GenerativeFallback(_) => {"bounded-actions"}
  }

  lemma OpeningNames(m: Machine)
    ensures forall c :: c in OpeningChecks(m) <==> exists i :: 0 <= i < |Opening(m)| && Opening(m)[i].checkId == c
  {
    forall i | 0 <= i < |Opening(m)| ensures Opening(m)[i].checkId in OpeningChecks(m) {}
    forall c | c in OpeningChecks(m) ensures exists i :: 0 <= i < |Opening(m)| && Opening(m)[i].checkId == c {
      var i := if c == "source-b" || c == "cache-config" || c == "historical-regression" then 1 else 0;
      assert i < |Opening(m)| && Opening(m)[i].checkId == c;
    }
  }

  lemma OpenedKeys(taskId: string, snapshotId: string, m: Machine)
    ensures Known(Opened(taskId, snapshotId, m)).Keys == OpeningChecks(m)
  {
    hide Opening, Sound, LatestOf, ToDicts, StampAll, Told, OpeningChecks;
    OpenedDisplays(taskId, snapshotId, m);
    OpeningNames(m);
  }

  // ----- Processes -----

  /** The last restart that was asked for took place: it was the first after an inspection. */
  ghost predicate RestartStands(asked: Requests, n: nat) {
    exists j: nat ::
      && LastOf(asked, j, n, "RESTART_PROCESS", "RESTART_PROCESS")
      && Asked(asked, j, "INSPECT_PROCESS_STATE")
      && !AskedThen(asked, j, "INSPECT_PROCESS_STATE", "RESTART_PROCESS")
  }

  lemma RestartStandsNext(asked: Requests, n: nat)
    ensures RestartStands(asked, n + 1) <==>
      if asked(n).0 == "RESTART_PROCESS"
      then Asked(asked, n, "INSPECT_PROCESS_STATE")
           && !AskedThen(asked, n, "INSPECT_PROCESS_STATE", "RESTART_PROCESS")
      else RestartStands(asked, n)
  {
    hide Asked, AskedThen;
    var action, next := "RESTART_PROCESS", n + 1;
    if asked(n).0 == action {
      assert LastOf(asked, n, next, action, action);
      forall j: nat | j < n ensures !LastOf(asked, j, next, action, action) {}
    } else {
      forall j: nat | j < n ensures LastOf(asked, j, n, action, action) <==> LastOf(asked, j, next, action, action) {
        LastOfNext(asked, j, n, action, action);
      }
    }
  }

  /** The state of a process environment, by what was asked of it. */
  ghost function ProcessSeen(m: Machine, asked: Requests, n: nat): SemanticState
    requires m.Cli?
  {
    if Asked(asked, n, "INSPECT_PROCESS_STATE") then
      if m.running then PROCESS_RUNNING_CONFIRMED
      else if RestartStands(asked, n) then PROCESS_RESTARTED_NEEDS_VERIFY
      else PROCESS_STOPPED_CONFIRMED
    else if m.initialHealth != [] || Asked(asked, n, "RETRY_HEALTHCHECK") then PROCESS_STATE_AMBIGUOUS
    else UNKNOWN
  }

  ghost predicate ProcessKnown(latest: map<string, Object>, m: Machine, asked: Requests, n: nat)
    requires m.Cli?
  {
    && latest.Keys <= {"health", "process-state", "restart", "defer"}
    && ("health" in latest <==> m.initialHealth != [] || Asked(asked, n, "RETRY_HEALTHCHECK"))
    && ("process-state" in latest <==> Asked(asked, n, "INSPECT_PROCESS_STATE"))
    && ("process-state" in latest ==>
          Get(latest["process-state"], Key.Value) == Str(if m.running then "running" else "stopped"))
    && (StatusIs(latest, "restart", "PASS") <==> !m.running && RestartStands(asked, n))
  }

  lemma ProcessStateIs(domain: string, latest: map<string, Object>, m: Machine, asked: Requests, n: nat)
    requires m.Cli? && ProcessKnown(latest, m, asked, n) && domain != "repository_coding"
    ensures StateFrom(domain, latest) == ProcessSeen(m, asked, n)
  {
    hide Asked, RestartStands, InRepository, Signed;
    OnlyProcess(domain, latest);
  }

  lemma OnlyProcess(domain: string, latest: map<string, Object>)
    requires domain != "repository_coding" && latest.Keys <= {"health", "process-state", "restart", "defer"}
    ensures !InRepository(domain, latest) && !Has(latest, "bounded-actions") && !Has(latest, "generated-candidate")
    ensures !Has(latest, "capability") && !Has(latest, "source-a") && !Has(latest, "project-config")
    ensures forall a, b :: !Signed(latest, a, b)
  {
  }

  lemma OpenedProcess(taskId: string, snapshotId: string, m: Machine, asked: Requests)
    requires m.Cli?
    ensures ProcessKnown(Known(Opened(taskId, snapshotId, m)), m, asked, 0)
  {
    hide Sound, Known, Opened;
    OpenedKeys(taskId, snapshotId, m);
    NothingAskedAtAll(asked);
  }

  lemma ProcessStep(s: EnvironmentState, m: Machine, asked: Requests, n: nat)
    requires m.Cli? && s.machine.Cli? && Positive(s.attempts) && ProcessKnown(Known(s), m, asked, n)
    requires s.machine.inspected <==> Asked(asked, n, "INSPECT_PROCESS_STATE")
    requires Tried(s, "process-state") <==> Asked(asked, n, "INSPECT_PROCESS_STATE")
    requires s.machine.running <==>
      m.running || AskedThen(asked, n, "INSPECT_PROCESS_STATE", "RESTART_PROCESS")
    requires AskedThen(asked, n, "INSPECT_PROCESS_STATE", "RESTART_PROCESS") ==>
      Asked(asked, n, "INSPECT_PROCESS_STATE")
    ensures ProcessKnown(Known(TakeStep(s, asked(n).0, asked(n).1).state), m, asked, n + 1)
  {
    hide Asked, AskedThen, RestartStands, TakeStep, Known, Shows, DefersOnly;
    var action, candidate := asked(n).0, asked(n).1;
    AskedNext(asked, n, "INSPECT_PROCESS_STATE");
    AskedNext(asked, n, "RETRY_HEALTHCHECK");
    RestartStandsNext(asked, n);
    StepTells(s, action, candidate);
    ProcessItem(s, action, candidate);
  }

  lemma ProcessItem(s: EnvironmentState, action: string, candidate: Option<string>)
    requires s.machine.Cli? && Positive(s.attempts)
    ensures var r := TakeStep(s, action, candidate);
      && (action == "INSPECT_PROCESS_STATE" ==> (r.item.None? <==> Tried(s, "process-state")))
      && (action == "RESTART_PROCESS" || action == "RETRY_HEALTHCHECK" ==> r.item.Some?)
  {
    hide TakeStep, AskedThen;
    if action == "INSPECT_PROCESS_STATE" { CliInspects(s, candidate); }
    if action == "RESTART_PROCESS" { CliRestarts(s, candidate); }
    if action == "RETRY_HEALTHCHECK" { CliRetries(s, candidate); }
  }

  lemma {:induction false} ProcessHistory(taskId: string, snapshotId: string, m: Machine, asked: Requests, n: nat)
    requires m.Cli? && Fresh(m)
    ensures ProcessKnown(Known(StateAfter(Opened(taskId, snapshotId, m), asked, n)), m, asked, n)
  {
    hide ProcessKnown, TakeStep, Opened, Asked, AskedThen, AskedThenThen, Known, AtStart, Earned;
    if n == 0 {
      OpenedProcess(taskId, snapshotId, m, asked);
    } else {
      ProcessHistory(taskId, snapshotId, m, asked, n - 1);
      OpenedAtStart(taskId, snapshotId, m);
      CliHistory(Opened(taskId, snapshotId, m), asked, n - 1);
      ProcessStep(StateAfter(Opened(taskId, snapshotId, m), asked, n - 1), m, asked, n - 1);
    }
  }

  // ----- Repositories -----

  /** The last application of the fix took place: the last targeted test before it had failed. */
  ghost predicate FixTaken(asked: Requests, n: nat) {
    exists j: nat :: LastOf(asked, j, n, "APPLY_CANDIDATE_FIX", "APPLY_CANDIDATE_FIX") && FailureSeen(asked, j)
  }

  lemma FixTakenNext(asked: Requests, n: nat)
    ensures FixTaken(asked, n + 1) <==>
      if asked(n).0 == "APPLY_CANDIDATE_FIX" then FailureSeen(asked, n) else FixTaken(asked, n)
  {
    hide FailureSeen;
    var action, next := "APPLY_CANDIDATE_FIX", n + 1;
    if asked(n).0 == action {
      assert LastOf(asked, n, next, action, action);
      forall j: nat | j < n ensures !LastOf(asked, j, next, action, action) {}
    } else {
      forall j: nat | j < n ensures LastOf(asked, j, n, action, action) <==> LastOf(asked, j, next, action, action) {
        LastOfNext(asked, j, n, action, action);
      }
    }
  }

  /** The state of a repository environment. A rollback does not show in it. */
  ghost function RepositorySeen(asked: Requests, n: nat): SemanticState {
    if FixTaken(asked, n) && !Asked(asked, n, "RUN_REGRESSION") then REPO_NEEDS_REGRESSION
    else if FailureSeen(asked, n) && !FixTaken(asked, n) then REPO_NEEDS_REPAIR
    else if !Asked(asked, n, "RUN_TARGETED_TEST") then REPO_NEEDS_EXECUTION
    else UNKNOWN
  }

  ghost predicate RepositoryKnown(latest: map<string, Object>, asked: Requests, n: nat) {
    && {"static-review", "historical-regression"} <= latest.Keys
    && latest.Keys <= {"static-review", "historical-regression", "targeted-test", "patch", "regression", "rollback",
                       "defer"}
    && ("targeted-test" in latest <==> Asked(asked, n, "RUN_TARGETED_TEST"))
    && ("regression" in latest <==> Asked(asked, n, "RUN_REGRESSION"))
    && (StatusIs(latest, "targeted-test", "FAIL") <==> FailureSeen(asked, n))
    && (StatusIs(latest, "patch", "PASS") <==> FixTaken(asked, n))
  }

  lemma RepositoryStateIs(domain: string, latest: map<string, Object>, asked: Requests, n: nat)
    requires RepositoryKnown(latest, asked, n)
    ensures StateFrom(domain, latest) == RepositorySeen(asked, n)
  {
    hide Asked, FailureSeen, FixTaken, InRepository, Signed;
    OnlyRepository(domain, latest);
  }

  lemma OnlyRepository(domain: string, latest: map<string, Object>)
    requires "static-review" in latest
    requires latest.Keys <= {"static-review", "historical-regression", "targeted-test", "patch", "regression",
                             "rollback", "defer"}
    ensures !Has(latest, "bounded-actions") && !Has(latest, "generated-candidate") && !Has(latest, "capability")
    ensures !Has(latest, "process-state") && !Has(latest, "health")
    ensures !Has(latest, "source-a") && !Has(latest, "project-config")
    ensures InRepository(domain, latest) && forall a, b :: !Signed(latest, a, b)
  {
  }

  lemma OpenedRepository(taskId: string, snapshotId: string, m: Machine, asked: Requests)
    requires m.RepositoryCoding?
    ensures RepositoryKnown(Known(Opened(taskId, snapshotId, m)), asked, 0)
  {
    hide Sound, Known, Opened;
    OpenedKeys(taskId, snapshotId, m);
    NothingAskedAtAll(asked);
    NothingAskedYet(asked);
  }

  lemma RepositoryStep(s: EnvironmentState, asked: Requests, n: nat)
    requires s.machine.RepositoryCoding? && Positive(s.attempts) && RepositoryKnown(Known(s), asked, n)
    requires s.machine.fixedText <==> FixStands(asked, n)
    requires s.machine.failedOnce <==> FailureSeen(asked, n)
    ensures RepositoryKnown(Known(TakeStep(s, asked(n).0, asked(n).1).state), asked, n + 1)
  {
    hide Asked, FailureSeen, FixTaken, FixStands, TakeStep, Known, Shows, DefersOnly;
    var action, candidate := asked(n).0, asked(n).1;
    AskedNext(asked, n, "RUN_TARGETED_TEST");
    AskedNext(asked, n, "RUN_REGRESSION");
    FailureSeenNext(asked, n);
    FixTakenNext(asked, n);
    StepTells(s, action, candidate);
    if CodingAction(action) { RepositoryItem(s, action, candidate); }
  }

  lemma RepositoryItem(s: EnvironmentState, action: string, candidate: Option<string>)
    requires s.machine.RepositoryCoding? && Positive(s.attempts) && CodingAction(action)
    ensures TakeStep(s, action, candidate).item.Some?
  {
    hide TakeStep;
    if action == "RUN_TARGETED_TEST" { CodingTests(s, candidate); }
    if action == "APPLY_CANDIDATE_FIX" { CodingFixes(s, candidate); }
    if action == "RUN_REGRESSION" { CodingRegresses(s, candidate); }
    if action == "ROLLBACK" { CodingRollsBack(s, candidate); }
  }

  lemma {:induction false} RepositoryHistory(taskId: string, snapshotId: string, m: Machine, asked: Requests, n: nat)
    requires m.RepositoryCoding? && Fresh(m)
    ensures RepositoryKnown(Known(StateAfter(Opened(taskId, snapshotId, m), asked, n)), asked, n)
  {
    hide RepositoryKnown, TakeStep, Opened, Asked, FixStands, FailureSeen, Known, AtStart, Earned;
    if n == 0 {
      OpenedRepository(taskId, snapshotId, m, asked);
    } else {
      RepositoryHistory(taskId, snapshotId, m, asked, n - 1);
      OpenedAtStart(taskId, snapshotId, m);
      CodingHistory(Opened(taskId, snapshotId, m), asked, n - 1);
      RepositoryStep(StateAfter(Opened(taskId, snapshotId, m), asked, n - 1), asked, n - 1);
    }
  }

  // ----- Authorities -----

  /** What a signature in the provenance says. */
  function SlotSigned(provenance: Json, first: string, second: string): SemanticState {
    if !provenance.Obj? then AUTHORITY_UNKNOWN
    else if Get(provenance.fields, Other(first)) == Str("signed") then AUTHORITY_SLOT_1
    else if Get(provenance.fields, Other(second)) == Str("signed") then AUTHORITY_SLOT_2
    else AUTHORITY_UNKNOWN
  }

  /** A provenance that speaks of the environment's own two slots. */
  predicate Speaks(provenance: Json, others: set<string>) {
    provenance.Obj? ==> forall name :: name in others ==> Get(provenance.fields, Other(name)) != Str("signed")
  }

  ghost predicate DataKnown(latest: map<string, Object>, provenance: Json, asked: Requests, n: nat) {
    && {"source-a", "source-b"} <= latest.Keys
    && latest.Keys <= {"source-a", "source-b", "provenance", "selection", "defer"}
    && ("provenance" in latest <==> Asked(asked, n, "CHECK_PROVENANCE"))
    && ("provenance" in latest ==> Get(latest["provenance"], Key.Value) == provenance)
  }

  ghost predicate ConfigKnown(latest: map<string, Object>, origin: Json, asked: Requests, n: nat) {
    && {"project-config", "cache-config"} <= latest.Keys
    && latest.Keys <= {"project-config", "cache-config", "config-origin", "config-selection", "defer"}
    && ("config-origin" in latest <==> Asked(asked, n, "INSPECT_CONFIG_ORIGIN"))
    && ("config-origin" in latest ==> Get(latest["config-origin"], Key.Value) == origin)
  }

  lemma DataStateIs(domain: string, latest: map<string, Object>, provenance: Json, asked: Requests, n: nat)
    requires DataKnown(latest, provenance, asked, n) && domain != "repository_coding"
    requires Speaks(provenance, {"project", "cache"})
    ensures StateFrom(domain, latest)
      == if Asked(asked, n, "CHECK_PROVENANCE") then SlotSigned(provenance, "source_a", "source_b")
         else AUTHORITY_UNKNOWN
  {
    hide Asked, InRepository, Signed;
    OnlyAuthority(domain, latest);
    SignedSource(latest, provenance);
  }

  lemma SignedSource(latest: map<string, Object>, provenance: Json)
    requires "config-origin" !in latest && Speaks(provenance, {"project", "cache"})
    requires "provenance" in latest ==> Get(latest["provenance"], Key.Value) == provenance
    ensures Signed(latest, "source_a", "project") <==>
      "provenance" in latest && SlotSigned(provenance, "source_a", "source_b").AUTHORITY_SLOT_1?
    ensures Signed(latest, "source_b", "cache") <==>
      && "provenance" in latest && provenance.Obj?
      && Get(provenance.fields, Other("source_b")) == Str("signed")
  {
  }

  lemma ConfigStateIs(domain: string, latest: map<string, Object>, origin: Json, asked: Requests, n: nat)
    requires ConfigKnown(latest, origin, asked, n) && domain != "repository_coding"
    requires Speaks(origin, {"source_a", "source_b"})
    ensures StateFrom(domain, latest)
      == if Asked(asked, n, "INSPECT_CONFIG_ORIGIN") then SlotSigned(origin, "project", "cache") else AUTHORITY_UNKNOWN
  {
    hide Asked, InRepository, Signed;
    OnlyAuthority(domain, latest);
    SignedOrigin(latest, origin);
  }

  lemma SignedOrigin(latest: map<string, Object>, origin: Json)
    requires "provenance" !in latest && Speaks(origin, {"source_a", "source_b"})
    requires "config-origin" in latest ==> Get(latest["config-origin"], Key.Value) == origin
    ensures Signed(latest, "source_a", "project") <==>
      "config-origin" in latest && SlotSigned(origin, "project", "cache").AUTHORITY_SLOT_1?
    ensures Signed(latest, "source_b", "cache") <==>
      "config-origin" in latest && origin.Obj? && Get(origin.fields, Other("cache")) == Str("signed")
  {
  }

  lemma OnlyAuthority(domain: string, latest: map<string, Object>)
    requires domain != "repository_coding"
    requires latest.Keys <= {"source-a", "source-b", "provenance", "selection", "defer"}
      || latest.Keys <= {"project-config", "cache-config", "config-origin", "config-selection", "defer"}
    ensures !InRepository(domain, latest) && !Has(latest, "bounded-actions") && !Has(latest, "generated-candidate")
    ensures !Has(latest, "capability") && !Has(latest, "process-state") && !Has(latest, "health")
  {
  }

  lemma OpenedAuthority(taskId: string, snapshotId: string, m: Machine, asked: Requests)
    ensures m.StructuredData? ==> DataKnown(Known(Opened(taskId, snapshotId, m)), m.provenance, asked, 0)
    ensures m.FilesystemConfig? ==> ConfigKnown(Known(Opened(taskId, snapshotId, m)), m.origin, asked, 0)
  {
    hide Sound, Known, Opened;
    OpenedKeys(taskId, snapshotId, m);
    NothingAskedAtAll(asked);
  }

  lemma DataStepKnown(s: EnvironmentState, provenance: Json, asked: Requests, n: nat)
    requires s.machine.StructuredData? && s.machine.provenance == provenance && Positive(s.attempts)
    requires DataKnown(Known(s), provenance, asked, n)
    requires Tried(s, "provenance") <==> Asked(asked, n, "CHECK_PROVENANCE")
    ensures var t := TakeStep(s, asked(n).0, asked(n).1).state;
      DataKnown(Known(t), provenance, asked, n + 1) && t.machine.StructuredData? && t.machine.provenance == provenance
  {
    hide Asked, TakeStep, Known;
    AskedNext(asked, n, "CHECK_PROVENANCE");
    StepTells(s, asked(n).0, asked(n).1);
    DataDoes(s, asked(n).0, asked(n).1);
  }

  lemma ConfigStepKnown(s: EnvironmentState, origin: Json, asked: Requests, n: nat)
    requires s.machine.FilesystemConfig? && s.machine.origin == origin && Positive(s.attempts)
    requires ConfigKnown(Known(s), origin, asked, n)
    requires ("config-origin", "origin-reader") in s.attempts <==> Asked(asked, n, "INSPECT_CONFIG_ORIGIN")
    ensures var t := TakeStep(s, asked(n).0, asked(n).1).state;
      ConfigKnown(Known(t), origin, asked, n + 1) && t.machine.FilesystemConfig? && t.machine.origin == origin
  {
    hide Asked, TakeStep, Known;
    AskedNext(asked, n, "INSPECT_CONFIG_ORIGIN");
    StepTells(s, asked(n).0, asked(n).1);
    ConfigDoes(s, asked(n).0, asked(n).1);
  }

  lemma {:induction false} DataEvidence(taskId: string, snapshotId: string, m: Machine, asked: Requests, n: nat)
    requires m.StructuredData? && Fresh(m)
    ensures var t := StateAfter(Opened(taskId, snapshotId, m), asked, n);
      DataKnown(Known(t), m.provenance, asked, n) && t.machine.StructuredData? && t.machine.provenance == m.provenance
  {
    hide DataKnown, TakeStep, Opened, Asked, Known, AtStart, Earned;
    if n == 0 {
      OpenedAuthority(taskId, snapshotId, m, asked);
    } else {
      DataEvidence(taskId, snapshotId, m, asked, n - 1);
      OpenedAtStart(taskId, snapshotId, m);
      DataHistory(Opened(taskId, snapshotId, m), asked, n - 1);
      DataStepKnown(StateAfter(Opened(taskId, snapshotId, m), asked, n - 1), m.provenance, asked, n - 1);
    }
  }

  lemma {:induction false} ConfigEvidence(taskId: string, snapshotId: string, m: Machine, asked: Requests, n: nat)
    requires m.FilesystemConfig? && Fresh(m)
    ensures var t := StateAfter(Opened(taskId, snapshotId, m), asked, n);
      ConfigKnown(Known(t), m.origin, asked, n) && t.machine.FilesystemConfig? && t.machine.origin == m.origin
  {
    hide ConfigKnown, TakeStep, Opened, Asked, Known, AtStart, Earned;
    if n == 0 {
      OpenedAuthority(taskId, snapshotId, m, asked);
    } else {
      ConfigEvidence(taskId, snapshotId, m, asked, n - 1);
      OpenedAtStart(taskId, snapshotId, m);
      ConfigHistory(Opened(taskId, snapshotId, m), asked, n - 1);
      ConfigStepKnown(StateAfter(Opened(taskId, snapshotId, m), asked, n - 1), m.origin, asked, n - 1);
    }
  }

  // ----- Capabilities -----

  predicate DeferKnown(latest: map<string, Object>) {
    latest.Keys <= {"capability", "defer"} && StatusIs(latest, "capability", "FAIL")
  }

  lemma OpenedDefer(taskId: string, snapshotId: string)
    ensures DeferKnown(Known(Opened(taskId, snapshotId, SafeDefer)))
  {
    hide Sound, Known, Opened;
    OpenedKeys(taskId, snapshotId, SafeDefer);
    OpenedDisplays(taskId, snapshotId, SafeDefer);
    assert Opening(SafeDefer)[0].checkId == "capability";
  }

  lemma {:induction false} DeferEvidence(taskId: string, snapshotId: string, asked: Requests, n: nat)
    ensures var t := StateAfter(Opened(taskId, snapshotId, SafeDefer), asked, n);
      t.machine.SafeDefer? && DeferKnown(Known(t))
  {
    hide TakeStep, Opened, Known, Sound;
    if n == 0 {
      OpenedDefer(taskId, snapshotId);
    } else {
      DeferEvidence(taskId, snapshotId, asked, n - 1);
      var s := StateAfter(Opened(taskId, snapshotId, SafeDefer), asked, n - 1);
      StepTells(s, asked(n - 1).0, asked(n - 1).1);
      KindStays(s, asked(n - 1).0, asked(n - 1).1);
    }
  }

  lemma KindStays(s: EnvironmentState, action: string, candidate: Option<string>)
    ensures s.machine.SafeDefer? ==> TakeStep(s, action, candidate).state.machine.SafeDefer?
    ensures s.machine.GenerativeFallback? ==> TakeStep(s, action, candidate).state.machine.GenerativeFallback?
  {
    hide Stamp;
  }

  lemma {:induction false} FallbackEvidence(taskId: string, snapshotId: string, m: Machine, asked: Requests, n: nat)
    requires m.GenerativeFallback?
    ensures "bounded-actions" in Known(StateAfter(Opened(taskId, snapshotId, m), asked, n))
  {
    hide TakeStep, Opened, Known, Sound, Respond, Told;
    if n == 0 {
      OpenedKeys(taskId, snapshotId, m);
    } else {
      FallbackEvidence(taskId, snapshotId, m, asked, n - 1);
      StepTells(StateAfter(Opened(taskId, snapshotId, m), asked, n - 1), asked(n - 1).0, asked(n - 1).1);
    }
  }

  // ----- All environments -----

  /** The state of an environment's evidence, by what was asked of it. */
  ghost function StateSeen(m: Machine, asked: Requests, n: nat): SemanticState {
    match m
    case Cli(_, _, _, _) => ProcessSeen(m, asked, n)
    case StructuredData(_, provenance, _, _) =>
      if Asked(asked, n, "CHECK_PROVENANCE") then SlotSigned(provenance, "source_a", "source_b") else AUTHORITY_UNKNOWN
    case FilesystemConfig(_, _, origin, _, _) =>
      if Asked(asked, n, "INSPECT_CONFIG_ORIGIN") then SlotSigned(origin, "project", "cache") else AUTHORITY_UNKNOWN
    case RepositoryCoding(_, _, _) => RepositorySeen(asked, n)
    case SafeDefer => NO_SUPPORTED_ACTUATOR
    case GenerativeFallback(_) => SYNTHESIS_REQUIRED
  }

  /** A provenance or origin does not sign slots of the other domain. */
  predicate SpeaksOfItsSlots(m: Machine) {
    && (m.StructuredData? ==> Speaks(m.provenance, {"project", "cache"}))
    && (m.FilesystemConfig? ==> Speaks(m.origin, {"source_a", "source_b"}))
  }

  /** After any history of requests to a new environment its evidence is encoded as the state that the
      history says: a process is ambiguous until it is inspected, then running or stopped as it was at
      the start, and restarted only as long as the last restart was the one that took place; a
      repository needs a run, a repair or a regression by its last failing test and its last fix; an
      authority is open until it is looked up and then the signed slot. */
  lemma EvidenceEncodes(domain: string, taskId: string, snapshotId: string, m: Machine, asked: Requests, n: nat)
    requires Fresh(m) && SpeaksOfItsSlots(m) && (m.RepositoryCoding? || domain != "repository_coding")
    ensures Encode(domain, ToDicts(StateAfter(Opened(taskId, snapshotId, m), asked, n).produced))
      == StateSeen(m, asked, n)
  {
    hide StateAfter, Opened, LatestOf, ToDicts, Asked, ProcessSeen, RepositorySeen, ProcessKnown, RepositoryKnown,
      DataKnown, ConfigKnown, Sound, InRepository, Signed;
    var latest := Known(StateAfter(Opened(taskId, snapshotId, m), asked, n));
    match m
    case Cli(_, _, _, _) =>
      ProcessHistory(taskId, snapshotId, m, asked, n);
      ProcessStateIs(domain, latest, m, asked, n);
    case StructuredData(_, _, _, _) =>
      DataEvidence(taskId, snapshotId, m, asked, n);
      DataStateIs(domain, latest, m.provenance, asked, n);
    case FilesystemConfig(_, _, _, _, _) =>
      ConfigEvidence(taskId, snapshotId, m, asked, n);
      ConfigStateIs(domain, latest, m.origin, asked, n);
    case RepositoryCoding(_, _, _) =>
      RepositoryHistory(taskId, snapshotId, m, asked, n);
      RepositoryStateIs(domain, latest, asked, n);
    case SafeDefer =>
      DeferEvidence(taskId, snapshotId, asked, n);
    case GenerativeFallback(_) =>
      FallbackEvidence(taskId, snapshotId, m, asked, n);
  }
}
