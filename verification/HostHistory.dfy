/** What a semantic verdict takes: the exact history of requests behind every valid end of a
    reference environment (`gym/host.py`), and what each request shows. */
module HostHistory {
  import opened Json
  import opened Host

  /** The state in which the source's constructors leave a machine. */
  predicate Fresh(m: Machine) {
    match m
    case Cli(_, _, inspected, restarted) => !inspected && !restarted
    case StructuredData(_, _, checked, _) => !checked
    case FilesystemConfig(_, _, _, checked, _) => !checked
    case RepositoryCoding(fixedText, failedOnce, patched) => !fixedText && !failedOnce && !patched
    case SafeDefer => true
    case GenerativeFallback(n) => n == 0
  }

  ghost predicate Shown(m: Machine, key: (string, string)) {
    exists i :: 0 <= i < |Opening(m)| && key == (Opening(m)[i].checkId, Opening(m)[i].probeId)
  }

  /** Every attempt counted so far is at least the first. */
  ghost predicate Positive(attempts: map<(string, string), int>) {
    forall key :: key in attempts ==> attempts[key] >= 1
  }

  /** A new environment of which nothing has been asked: its counters are those of its opening. */
  ghost predicate AtStart(s: EnvironmentState) {
    && Fresh(s.machine) && !s.verdict && Positive(s.attempts)
    && forall key :: key in s.attempts ==> Shown(s.machine, key)
  }

  lemma {:induction false} OpeningCounted(s: EnvironmentState, k: nat)
    requires s.attempts == map[] && k <= |Opening(s.machine)|
    ensures var t := StampAll(s, Opening(s.machine)[..k]);
      t.Some? ==> Positive(t.value.attempts) && forall key :: key in t.value.attempts ==> Shown(s.machine, key)
  {
    hide Opening, Stamped;
    if k > 0 {
      OpeningCounted(s, k - 1);
      assert Opening(s.machine)[..k][..k - 1] == Opening(s.machine)[..k - 1];
    }
  }

  lemma OpenedAtStart(taskId: string, snapshotId: string, m: Machine)
    requires Fresh(m)
    ensures AtStart(Opened(taskId, snapshotId, m))
  {
    hide Opening, StampAll, Sound, Fresh, Shown, Positive;
    assert Opening(m)[..|Opening(m)|] == Opening(m);
    OpeningCounted(NewState(taskId, snapshotId, m), |Opening(m)|);
  }

  lemma StampKeepsPositive(s: EnvironmentState, e: Emission)
    requires Positive(s.attempts) && Stamp(s, e).Some?
    ensures Positive(Stamp(s, e).value.attempts)
  {
    hide Stamped;
  }

  // ----- Histories of requests -----

  /** One of the first `n` requests was for this action. */
  ghost predicate Asked(asked: Requests, n: nat, action: string) {
    exists i :: 0 <= i < n && asked(i).0 == action
  }

  /** ... and a later one for that. */
  ghost predicate AskedThen(asked: Requests, n: nat, first: string, second: string) {
    exists j :: 0 <= j < n && asked(j).0 == second && Asked(asked, j, first)
  }

  ghost predicate AskedThenThen(asked: Requests, n: nat, first: string, second: string, third: string) {
    exists j :: 0 <= j < n && asked(j).0 == third && AskedThen(asked, j, first, second)
  }

  /** The last of the first `n` requests for one of two actions is the one at `j`. */
  ghost predicate LastOf(asked: Requests, j: nat, n: nat, a: string, b: string) {
    && j < n && (asked(j).0 == a || asked(j).0 == b)
    && forall k :: j < k < n ==> asked(k).0 != a && asked(k).0 != b
  }

  /** The last selection is the right one and the evidence was looked up before it. */
  ghost predicate Selected(asked: Requests, n: nat, a: string, b: string, evidence: string, right: string) {
    exists j: nat :: LastOf(asked, j, n, a, b) && asked(j).0 == right && Asked(asked, j, evidence)
  }

  /** The targeted test was run at `i`, for the last time before `j`. */
  ghost predicate TestedLast(asked: Requests, i: nat, j: nat) {
    LastOf(asked, i, j, "RUN_TARGETED_TEST", "RUN_TARGETED_TEST")
  }

  /** The fix was applied at `j` and not rolled back before `n`. */
  ghost predicate AppliedLast(asked: Requests, j: nat, n: nat) {
    j < n && asked(j).0 == "APPLY_CANDIDATE_FIX" && forall k :: j < k < n ==> asked(k).0 != "ROLLBACK"
  }

  /** A fix is in place: it was applied when the last targeted test had been run without one, and it
      was not rolled back. */
  ghost predicate FixStands(asked: Requests, n: nat) {
    exists i: nat, j: nat {:trigger TestedLast(asked, i, j), AppliedLast(asked, j, n)} ::
      i < j < n && TestedLast(asked, i, j) && AppliedLast(asked, j, n) && !FixStands(asked, i)
  }

  /** The last targeted test was run with no fix in place, and so failed. */
  ghost predicate FailureSeen(asked: Requests, n: nat) {
    exists i: nat {:trigger TestedLast(asked, i, n)} :: TestedLast(asked, i, n) && !FixStands(asked, i)
  }

  /** The last regression run found the fix in place. */
  ghost predicate FixConfirmed(asked: Requests, n: nat) {
    exists k: nat :: LastOf(asked, k, n, "RUN_REGRESSION", "RUN_REGRESSION") && FixStands(asked, k)
  }

  /** The history of requests that makes an environment's end state valid. */
  ghost predicate Earned(m: Machine, asked: Requests, n: nat) {
    match m
    case Cli(_, running, _, _) =>
      if running then Asked(asked, n, "INSPECT_PROCESS_STATE")
      else AskedThenThen(asked, n, "INSPECT_PROCESS_STATE", "RESTART_PROCESS", "RETRY_HEALTHCHECK")
    case StructuredData(_, _, _, right) =>
      Selected(asked, n, "SELECT_SOURCE_A", "SELECT_SOURCE_B", "CHECK_PROVENANCE", right)
    case FilesystemConfig(_, _, _, _, right) =>
      Selected(asked, n, "SELECT_PROJECT_CONFIG", "SELECT_CACHE_CONFIG", "INSPECT_CONFIG_ORIGIN", right)
    case RepositoryCoding(_, _, _) => FixConfirmed(asked, n)
    case SafeDefer =>
      n > 0 && (asked(n - 1).0 == "DEFER_NO_SUPPORT" || asked(n - 1).0 == "DEFER_NO_ADMISSIBLE")
    case GenerativeFallback(_) => n > 0 && asked(n - 1) == ("CALL_GENERATIVE", Some("key=stable-42"))
  }

  lemma AskedNext(asked: Requests, n: nat, action: string)
    ensures Asked(asked, n + 1, action) <==> Asked(asked, n, action) || asked(n).0 == action
  {
  }

  lemma AskedThenNext(asked: Requests, n: nat, first: string, second: string)
    ensures AskedThen(asked, n + 1, first, second)
       <==> AskedThen(asked, n, first, second) || (asked(n).0 == second && Asked(asked, n, first))
  {
    hide Asked;
  }

  lemma AskedThenThenNext(asked: Requests, n: nat, first: string, second: string, third: string)
    ensures AskedThenThen(asked, n + 1, first, second, third)
       <==> AskedThenThen(asked, n, first, second, third)
            || (asked(n).0 == third && AskedThen(asked, n, first, second))
  {
    hide AskedThen;
  }

  lemma SelectedNext(asked: Requests, n: nat, a: string, b: string, evidence: string, right: string)
    ensures Selected(asked, n + 1, a, b, evidence, right) <==>
      if asked(n).0 == a || asked(n).0 == b then asked(n).0 == right && Asked(asked, n, evidence)
      else Selected(asked, n, a, b, evidence, right)
  {
    hide Asked;
    var next := n + 1;
    if asked(n).0 == a || asked(n).0 == b {
      assert LastOf(asked, n, next, a, b);
      forall j: nat | j < n ensures !LastOf(asked, j, next, a, b) {}
    } else {
      forall j: nat | j < n ensures LastOf(asked, j, n, a, b) <==> LastOf(asked, j, next, a, b) {
        LastOfNext(asked, j, n, a, b);
      }
    }
  }

  lemma LastOfNext(asked: Requests, j: nat, n: nat, a: string, b: string)
    requires j < n && asked(n).0 != a && asked(n).0 != b
    ensures LastOf(asked, j, n, a, b) <==> LastOf(asked, j, n + 1, a, b)
  {
    if LastOf(asked, j, n + 1, a, b) {
      forall k | j < k < n ensures asked(k).0 != a && asked(k).0 != b { assert j < k < n + 1; }
    }
  }

  lemma FailureSeenNext(asked: Requests, n: nat)
    ensures FailureSeen(asked, n + 1) <==>
      if asked(n).0 == "RUN_TARGETED_TEST" then !FixStands(asked, n) else FailureSeen(asked, n)
  {
    hide FixStands;
    var action, next := "RUN_TARGETED_TEST", n + 1;
    if asked(n).0 == action {
      assert TestedLast(asked, n, next);
      forall i: nat | i < n ensures !TestedLast(asked, i, next) {}
    } else {
      forall i: nat | i < n ensures TestedLast(asked, i, n) <==> TestedLast(asked, i, next) {
        LastOfNext(asked, i, n, action, action);
      }
    }
  }

  lemma FixStandsNext(asked: Requests, n: nat)
    ensures FixStands(asked, n + 1) <==>
      if asked(n).0 == "ROLLBACK" then false
      else FixStands(asked, n) || (asked(n).0 == "APPLY_CANDIDATE_FIX" && FailureSeen(asked, n))
  {
    hide TestedLast;
    var next := n + 1;
    if i: nat, j: nat :|
      i < j < next && TestedLast(asked, i, j) && AppliedLast(asked, j, next) && !FixStands(asked, i)
    {
      if j < n { assert asked(n).0 != "ROLLBACK" && AppliedLast(asked, j, n); }
    }
    if i: nat, j: nat :| i < j < n && TestedLast(asked, i, j) && AppliedLast(asked, j, n) && !FixStands(asked, i) {
      assert asked(n).0 != "ROLLBACK" ==> AppliedLast(asked, j, next);
    }
    if i: nat :| TestedLast(asked, i, n) && !FixStands(asked, i) {
      assert i < n by { TestedBefore(asked, i, n); }
      assert asked(n).0 == "APPLY_CANDIDATE_FIX" ==> AppliedLast(asked, n, next);
    }
  }

  lemma TestedBefore(asked: Requests, i: nat, j: nat)
    requires TestedLast(asked, i, j)
    ensures i < j
  {
  }

  lemma NothingAskedYet(asked: Requests)
    ensures !FixStands(asked, 0) && !FailureSeen(asked, 0)
  {
  }

  lemma FixConfirmedNext(asked: Requests, n: nat)
    ensures FixConfirmed(asked, n + 1) <==>
      if asked(n).0 == "RUN_REGRESSION" then FixStands(asked, n) else FixConfirmed(asked, n)
  {
    hide FixStands;
    var action, next := "RUN_REGRESSION", n + 1;
    if asked(n).0 == action {
      assert LastOf(asked, n, next, action, action);
      forall j: nat | j < n ensures !LastOf(asked, j, next, action, action) {}
    } else {
      forall j: nat | j < n ensures LastOf(asked, j, n, action, action) <==> LastOf(asked, j, next, action, action) {
        LastOfNext(asked, j, n, action, action);
      }
    }
  }

  // ----- What one request does -----

  predicate Tried(s: EnvironmentState, check: string) {
    (check, check) in s.attempts
  }

  predicate Shows(r: StepResult, status: string, done: bool) {
    r.item.Some? && r.item.value.status == status && r.done == done
  }

  /** A deferral ends the episode and settles nothing. */
  predicate DefersOnly(s: EnvironmentState, r: StepResult) {
    && r.state.machine == s.machine && r.state.verdict == s.verdict
    && (r.item.Some? ==> r.item.value.status == "FAIL" && r.done)
  }

  function KeyOf(e: Emission): (string, string) {
    (e.checkId, e.probeId)
  }

  /** A first attempt that was made before cannot be made again. */
  predicate Repeats(s: EnvironmentState, e: Emission) {
    e.attempt.Nth? && e.attempt.n <= Previous(s.attempts, e)
  }

  lemma StepEffect(s: EnvironmentState, action: string, candidate: Option<string>)
    requires Positive(s.attempts)
    ensures var o, r := Respond(s.machine, action, candidate), TakeStep(s, action, candidate);
      && Positive(r.state.attempts)
      && (o.None? ==> r.state == s && r.item.None?)
      && (o.Some? ==>
            var e := o.value.emission;
            && r.state.machine == o.value.machine && (r.item.None? <==> Repeats(s, e))
            && (Repeats(s, e) ==>
                  && r.state.attempts == s.attempts
                  && r.state.verdict == if JudgesFirst(s.machine, action) && o.value.verdict.Some?
                                        then o.value.verdict.value else s.verdict)
            && (!Repeats(s, e) ==>
                  && r.state.attempts == s.attempts[KeyOf(e) := AttemptOf(s.attempts, e)]
                  && Shows(r, e.status, o.value.done)
                  && r.state.verdict == if o.value.verdict.Some? then o.value.verdict.value else s.verdict))
  {
    hide Respond, StampedId, Lineage;
  }

  lemma DeferralDoes(s: EnvironmentState, action: string, candidate: Option<string>)
    requires Positive(s.attempts) && Respond(s.machine, action, candidate) == Deferred(s.machine, action)
    ensures var r := TakeStep(s, action, candidate);
      && DefersOnly(s, r)
      && forall check :: check != "defer" ==> (Tried(r.state, check) <==> Tried(s, check))
  {
    hide Respond, TakeStep, Defers;
    StepEffect(s, action, candidate);
  }

  lemma CliInspects(s: EnvironmentState, candidate: Option<string>)
    requires s.machine.Cli? && Positive(s.attempts)
    ensures var m, r := s.machine, TakeStep(s, "INSPECT_PROCESS_STATE", candidate);
      && Positive(r.state.attempts) && Tried(r.state, "process-state")
      && r.state.machine == m.(inspected := true)
      && if Tried(s, "process-state") then r.item.None? && r.state.verdict == s.verdict
         else Shows(r, if m.running then "PASS" else "FAIL", m.running) && r.state.verdict == m.running
  {
    hide TakeStep, Shows, Deferred;
    StepEffect(s, "INSPECT_PROCESS_STATE", candidate);
  }

  lemma CliRestarts(s: EnvironmentState, candidate: Option<string>)
    requires s.machine.Cli? && Positive(s.attempts)
    ensures var m, r := s.machine, TakeStep(s, "RESTART_PROCESS", candidate);
      && Positive(r.state.attempts) && (Tried(r.state, "process-state") <==> Tried(s, "process-state"))
      && r.state.machine == (if m.inspected && !m.running then m.(running := true, restarted := true) else m)
      && r.state.verdict == s.verdict
      && Shows(r, if m.inspected && !m.running then "PASS" else "WARN", false)
  {
    hide TakeStep, Shows, Deferred;
    StepEffect(s, "RESTART_PROCESS", candidate);
  }

  lemma CliRetries(s: EnvironmentState, candidate: Option<string>)
    requires s.machine.Cli? && Positive(s.attempts)
    ensures var m, r := s.machine, TakeStep(s, "RETRY_HEALTHCHECK", candidate);
      var valid := m.running && (m.restarted || m.inspected);
      && Positive(r.state.attempts) && (Tried(r.state, "process-state") <==> Tried(s, "process-state"))
      && r.state.machine == m && r.state.verdict == valid && Shows(r, if valid then "PASS" else "FAIL", valid)
  {
    hide TakeStep, Shows, Deferred;
    StepEffect(s, "RETRY_HEALTHCHECK", candidate);
  }

  predicate CliAction(action: string) {
    action == "INSPECT_PROCESS_STATE" || action == "RESTART_PROCESS" || action == "RETRY_HEALTHCHECK"
  }

  lemma CliDefers(s: EnvironmentState, action: string, candidate: Option<string>)
    requires s.machine.Cli? && Positive(s.attempts) && !CliAction(action)
    ensures var r := TakeStep(s, action, candidate);
      && Positive(r.state.attempts) && (Tried(r.state, "process-state") <==> Tried(s, "process-state"))
      && DefersOnly(s, r)
  {
    hide TakeStep, Shows, Deferred, DefersOnly;
    StepEffect(s, action, candidate);
    DeferralDoes(s, action, candidate);
  }

  lemma DataDoes(s: EnvironmentState, action: string, candidate: Option<string>)
    requires s.machine.StructuredData? && Positive(s.attempts)
    ensures var m, r := s.machine, TakeStep(s, action, candidate);
      && Positive(r.state.attempts)
      && (action == "CHECK_PROVENANCE" ==>
            && r.state.machine == m.(checked := true) && r.state.verdict == s.verdict
            && if Tried(s, "provenance") then r.item.None? else Shows(r, "PASS", false))
      && (action == "SELECT_SOURCE_A" || action == "SELECT_SOURCE_B" ==>
            var valid := m.checked && action == m.admissible;
            && r.state.machine == m && r.state.verdict == valid
            && if Tried(s, "selection") then r.item.None?
               else Shows(r, if valid then "PROOF_CLOSED" else "FAIL", true))
      && (action !in {"CHECK_PROVENANCE", "SELECT_SOURCE_A", "SELECT_SOURCE_B"} ==> DefersOnly(s, r))
      && (Tried(r.state, "provenance") <==> Tried(s, "provenance") || action == "CHECK_PROVENANCE")
      && (Tried(r.state, "selection") <==>
            Tried(s, "selection") || action == "SELECT_SOURCE_A" || action == "SELECT_SOURCE_B")
  {
    hide TakeStep, Shows, Deferred, DefersOnly;
    StepEffect(s, action, candidate);
    if action !in {"CHECK_PROVENANCE", "SELECT_SOURCE_A", "SELECT_SOURCE_B"} { DeferralDoes(s, action, candidate); }
  }

  lemma ConfigDoes(s: EnvironmentState, action: string, candidate: Option<string>)
    requires s.machine.FilesystemConfig? && Positive(s.attempts)
    ensures var m, r := s.machine, TakeStep(s, action, candidate);
      && Positive(r.state.attempts)
      && (action == "INSPECT_CONFIG_ORIGIN" ==>
            && r.state.machine == m.(originChecked := true) && r.state.verdict == s.verdict
            && if ("config-origin", "origin-reader") in s.attempts then r.item.None? else Shows(r, "PASS", false))
      && (action == "SELECT_PROJECT_CONFIG" || action == "SELECT_CACHE_CONFIG" ==>
            var valid := m.originChecked && action == m.oracleAction;
            && r.state.machine == m && r.state.verdict == valid
            && if Tried(s, "config-selection") then r.item.None?
               else Shows(r, if valid then "PROOF_CLOSED" else "FAIL", true))
      && (action !in {"INSPECT_CONFIG_ORIGIN", "SELECT_PROJECT_CONFIG", "SELECT_CACHE_CONFIG"} ==> DefersOnly(s, r))
      && (("config-origin", "origin-reader") in r.state.attempts <==>
            ("config-origin", "origin-reader") in s.attempts || action == "INSPECT_CONFIG_ORIGIN")
      && (Tried(r.state, "config-selection") <==>
            Tried(s, "config-selection") || action == "SELECT_PROJECT_CONFIG" || action == "SELECT_CACHE_CONFIG")
  {
    hide TakeStep, Shows, Deferred, DefersOnly;
    StepEffect(s, action, candidate);
    if action !in {"INSPECT_CONFIG_ORIGIN", "SELECT_PROJECT_CONFIG", "SELECT_CACHE_CONFIG"} {
      DeferralDoes(s, action, candidate);
      DeferralKeeps(s, action, candidate);
    }
  }

  lemma DeferralKeeps(s: EnvironmentState, action: string, candidate: Option<string>)
    requires Positive(s.attempts) && Respond(s.machine, action, candidate) == Deferred(s.machine, action)
    ensures var r := TakeStep(s, action, candidate);
      forall key :: key != ("defer", "defer") ==> (key in r.state.attempts <==> key in s.attempts)
  {
    hide Respond, TakeStep, Defers;
    StepEffect(s, action, candidate);
  }

  lemma CodingTests(s: EnvironmentState, candidate: Option<string>)
    requires s.machine.RepositoryCoding? && Positive(s.attempts)
    ensures var m, r := s.machine, TakeStep(s, "RUN_TARGETED_TEST", candidate);
      && Positive(r.state.attempts)
      && r.state.machine == m.(failedOnce := !m.fixedText) && r.state.verdict == s.verdict
      && Shows(r, if m.fixedText then "PASS" else "FAIL", false)
  {
    hide TakeStep, Shows, Deferred;
    StepEffect(s, "RUN_TARGETED_TEST", candidate);
  }

  lemma CodingFixes(s: EnvironmentState, candidate: Option<string>)
    requires s.machine.RepositoryCoding? && Positive(s.attempts)
    ensures var m, r := s.machine, TakeStep(s, "APPLY_CANDIDATE_FIX", candidate);
      && Positive(r.state.attempts)
      && r.state.machine == (if m.failedOnce then m.(fixedText := true, patched := true) else m)
      && r.state.verdict == s.verdict && Shows(r, if m.failedOnce then "PASS" else "FAIL", false)
  {
    hide TakeStep, Shows, Deferred;
    StepEffect(s, "APPLY_CANDIDATE_FIX", candidate);
  }

  lemma CodingRegresses(s: EnvironmentState, candidate: Option<string>)
    requires s.machine.RepositoryCoding? && Positive(s.attempts)
    ensures var m, r := s.machine, TakeStep(s, "RUN_REGRESSION", candidate);
      && Positive(r.state.attempts)
      && r.state.machine == m && r.state.verdict == (m.patched && m.fixedText)
      && Shows(r, if m.fixedText then "PASS" else "FAIL", true)
  {
    hide TakeStep, Shows, Deferred;
    StepEffect(s, "RUN_REGRESSION", candidate);
  }

  lemma CodingRollsBack(s: EnvironmentState, candidate: Option<string>)
    requires s.machine.RepositoryCoding? && Positive(s.attempts)
    ensures var m, r := s.machine, TakeStep(s, "ROLLBACK", candidate);
      && Positive(r.state.attempts)
      && r.state.machine == m.(fixedText := false, patched := false) && r.state.verdict == s.verdict
      && Shows(r, "PASS", false)
  {
    hide TakeStep, Shows, Deferred;
    StepEffect(s, "ROLLBACK", candidate);
  }

  predicate CodingAction(action: string) {
    || action == "RUN_TARGETED_TEST" || action == "APPLY_CANDIDATE_FIX"
    || action == "RUN_REGRESSION" || action == "ROLLBACK"
  }

  lemma CodingDefers(s: EnvironmentState, action: string, candidate: Option<string>)
    requires s.machine.RepositoryCoding? && Positive(s.attempts) && !CodingAction(action)
    ensures var r := TakeStep(s, action, candidate);
      Positive(r.state.attempts) && DefersOnly(s, r)
  {
    hide TakeStep, Shows, Deferred, DefersOnly;
    StepEffect(s, action, candidate);
    DeferralDoes(s, action, candidate);
  }

  lemma SafeDeferDoes(s: EnvironmentState, action: string, candidate: Option<string>)
    requires s.machine.SafeDefer? && Positive(s.attempts)
    ensures var r := TakeStep(s, action, candidate);
      var valid := action == "DEFER_NO_SUPPORT" || action == "DEFER_NO_ADMISSIBLE";
      && Positive(r.state.attempts) && r.state.machine == s.machine && r.state.verdict == valid
      && Tried(r.state, "defer")
      && if Tried(s, "defer") then r.item.None? else Shows(r, if valid then "PROOF_CLOSED" else "FAIL", true)
  {
    hide TakeStep, Shows;
    StepEffect(s, action, candidate);
  }

  const DRAFT_KEY := ("generated-candidate", "hidden-validator")

  /** The candidates counted are the attempts stamped. */
  predicate DraftsCounted(s: EnvironmentState) {
    && s.machine.GenerativeFallback?
    && s.machine.candidates == (if DRAFT_KEY in s.attempts then s.attempts[DRAFT_KEY] else 0)
  }

  lemma GenerativeDoes(s: EnvironmentState, action: string, candidate: Option<string>)
    requires DraftsCounted(s) && Positive(s.attempts)
    ensures var r := TakeStep(s, action, candidate);
      var valid := action == "CALL_GENERATIVE" && candidate == Some("key=stable-42");
      && Positive(r.state.attempts) && DraftsCounted(r.state) && r.state.verdict == valid
      && (action == "CALL_GENERATIVE" ==>
            Shows(r, if valid then "PASS" else "FAIL", valid) && r.accepted == Some(valid))
      && (action != "CALL_GENERATIVE" ==> if Tried(s, "fallback") then r.item.None? else Shows(r, "FAIL", true))
      && (Tried(r.state, "fallback") <==> Tried(s, "fallback") || action != "CALL_GENERATIVE")
  {
    hide StampedId, Lineage;
  }

  // ----- What a history of requests comes to -----

  /** The outcome of request `k` of a history. */
  function Answered(s: EnvironmentState, asked: Requests, k: nat): StepResult {
    TakeStep(StateAfter(s, asked, k), asked(k).0, asked(k).1)
  }

  lemma CliShows(m: Machine)
    requires m.Cli?
    ensures !Shown(m, ("process-state", "process-state"))
  {
  }

  /** A process environment after any history. */
  lemma {:induction false} CliHistory(s: EnvironmentState, asked: Requests, n: nat)
    requires s.machine.Cli? && AtStart(s)
    ensures var t := StateAfter(s, asked, n);
      && t.machine.Cli? && Positive(t.attempts)
      && (Tried(t, "process-state") <==> Asked(asked, n, "INSPECT_PROCESS_STATE"))
      && (t.machine.inspected <==> Asked(asked, n, "INSPECT_PROCESS_STATE"))
      && (t.machine.restarted <==>
            !s.machine.running && AskedThen(asked, n, "INSPECT_PROCESS_STATE", "RESTART_PROCESS"))
      && (t.machine.running <==> s.machine.running || t.machine.restarted)
      && (AskedThen(asked, n, "INSPECT_PROCESS_STATE", "RESTART_PROCESS") ==>
            Asked(asked, n, "INSPECT_PROCESS_STATE"))
      && (AskedThenThen(asked, n, "INSPECT_PROCESS_STATE", "RESTART_PROCESS", "RETRY_HEALTHCHECK") ==>
            AskedThen(asked, n, "INSPECT_PROCESS_STATE", "RESTART_PROCESS"))
      && (t.verdict <==> Earned(s.machine, asked, n))
  {
    hide Asked, AskedThen, AskedThenThen, TakeStep, Shows, Shown;
    if n == 0 {
      CliShows(s.machine);
      NothingAskedAtAll(asked);
    } else {
      var k := n - 1;
      CliHistory(s, asked, k);
      AskedNext(asked, k, "INSPECT_PROCESS_STATE");
      AskedThenNext(asked, k, "INSPECT_PROCESS_STATE", "RESTART_PROCESS");
      AskedThenThenNext(asked, k, "INSPECT_PROCESS_STATE", "RESTART_PROCESS", "RETRY_HEALTHCHECK");
      var t, candidate := StateAfter(s, asked, k), asked(k).1;
      CliInspects(t, candidate);
      CliRestarts(t, candidate);
      CliRetries(t, candidate);
      if !CliAction(asked(k).0) { CliDefers(t, asked(k).0, candidate); }
    }
  }

  /** What each request of a process environment shows. */
  lemma CliAnswers(s: EnvironmentState, asked: Requests, k: nat)
    requires s.machine.Cli? && AtStart(s)
    ensures var r, action, running := Answered(s, asked, k), asked(k).0, s.machine.running;
      var inspected := Asked(asked, k, "INSPECT_PROCESS_STATE");
      var restarted := AskedThen(asked, k, "INSPECT_PROCESS_STATE", "RESTART_PROCESS");
      var ready := inspected && (running || restarted);
      && (action == "INSPECT_PROCESS_STATE" ==>
            if inspected then r.item.None? else Shows(r, if running then "PASS" else "FAIL", running))
      && (action == "RESTART_PROCESS" ==>
            Shows(r, if inspected && !running && !restarted then "PASS" else "WARN", false))
      && (action == "RETRY_HEALTHCHECK" ==> Shows(r, if ready then "PASS" else "FAIL", ready))
      && (!CliAction(action) && r.item.Some? ==> Shows(r, "FAIL", true))
  {
    hide Asked, AskedThen, AskedThenThen, TakeStep, StateAfter, AtStart;
    CliHistory(s, asked, k);
    var t, candidate := StateAfter(s, asked, k), asked(k).1;
    CliInspects(t, candidate);
    CliRestarts(t, candidate);
    CliRetries(t, candidate);
    if !CliAction(asked(k).0) { CliDefers(t, asked(k).0, candidate); }
  }

  lemma DataShows(m: Machine)
    requires m.StructuredData?
    ensures !Shown(m, ("provenance", "provenance")) && !Shown(m, ("selection", "selection"))
  {
  }

  lemma {:induction false} DataHistory(s: EnvironmentState, asked: Requests, n: nat)
    requires s.machine.StructuredData? && AtStart(s)
    ensures var t := StateAfter(s, asked, n);
      && t.machine.StructuredData? && t.machine.admissible == s.machine.admissible && Positive(t.attempts)
      && (Tried(t, "provenance") <==> Asked(asked, n, "CHECK_PROVENANCE"))
      && (Tried(t, "selection") <==> Asked(asked, n, "SELECT_SOURCE_A") || Asked(asked, n, "SELECT_SOURCE_B"))
      && (t.machine.checked <==> Asked(asked, n, "CHECK_PROVENANCE"))
      && (t.verdict <==> Earned(s.machine, asked, n))
  {
    hide Asked, Selected, TakeStep, Shows, Shown;
    if n == 0 {
      DataShows(s.machine);
      NothingAskedAtAll(asked);
    } else {
      var k := n - 1;
      DataHistory(s, asked, k);
      AskedNext(asked, k, "CHECK_PROVENANCE");
      AskedNext(asked, k, "SELECT_SOURCE_A");
      AskedNext(asked, k, "SELECT_SOURCE_B");
      SelectedNext(asked, k, "SELECT_SOURCE_A", "SELECT_SOURCE_B", "CHECK_PROVENANCE", s.machine.admissible);
      DataDoes(StateAfter(s, asked, k), asked(k).0, asked(k).1);
    }
  }

  lemma DataAnswers(s: EnvironmentState, asked: Requests, k: nat)
    requires s.machine.StructuredData? && AtStart(s)
    ensures var r, action := Answered(s, asked, k), asked(k).0;
      var checked := Asked(asked, k, "CHECK_PROVENANCE");
      var selected := Asked(asked, k, "SELECT_SOURCE_A") || Asked(asked, k, "SELECT_SOURCE_B");
      && (action == "CHECK_PROVENANCE" ==> if checked then r.item.None? else Shows(r, "PASS", false))
      && (action == "SELECT_SOURCE_A" || action == "SELECT_SOURCE_B" ==>
            if selected then r.item.None?
            else Shows(r, if checked && action == s.machine.admissible then "PROOF_CLOSED" else "FAIL", true))
      && (action !in {"CHECK_PROVENANCE", "SELECT_SOURCE_A", "SELECT_SOURCE_B"} && r.item.Some? ==>
            Shows(r, "FAIL", true))
  {
    hide Asked, TakeStep, StateAfter, AtStart, Selected;
    DataHistory(s, asked, k);
    DataDoes(StateAfter(s, asked, k), asked(k).0, asked(k).1);
  }

  lemma ConfigShows(m: Machine)
    requires m.FilesystemConfig?
    ensures !Shown(m, ("config-origin", "origin-reader")) && !Shown(m, ("config-selection", "config-selection"))
  {
  }

  lemma {:induction false} ConfigHistory(s: EnvironmentState, asked: Requests, n: nat)
    requires s.machine.FilesystemConfig? && AtStart(s)
    ensures var t := StateAfter(s, asked, n);
      && t.machine.FilesystemConfig? && t.machine.oracleAction == s.machine.oracleAction && Positive(t.attempts)
      && (("config-origin", "origin-reader") in t.attempts <==> Asked(asked, n, "INSPECT_CONFIG_ORIGIN"))
      && (Tried(t, "config-selection") <==>
            Asked(asked, n, "SELECT_PROJECT_CONFIG") || Asked(asked, n, "SELECT_CACHE_CONFIG"))
      && (t.machine.originChecked <==> Asked(asked, n, "INSPECT_CONFIG_ORIGIN"))
      && (t.verdict <==> Earned(s.machine, asked, n))
  {
    hide Asked, Selected, TakeStep, Shows, Shown;
    if n == 0 {
      ConfigShows(s.machine);
      NothingAskedAtAll(asked);
    } else {
      var k := n - 1;
      ConfigHistory(s, asked, k);
      AskedNext(asked, k, "INSPECT_CONFIG_ORIGIN");
      AskedNext(asked, k, "SELECT_PROJECT_CONFIG");
      AskedNext(asked, k, "SELECT_CACHE_CONFIG");
      SelectedNext(asked, k, "SELECT_PROJECT_CONFIG", "SELECT_CACHE_CONFIG", "INSPECT_CONFIG_ORIGIN",
                   s.machine.oracleAction);
      ConfigDoes(StateAfter(s, asked, k), asked(k).0, asked(k).1);
    }
  }

  lemma ConfigAnswers(s: EnvironmentState, asked: Requests, k: nat)
    requires s.machine.FilesystemConfig? && AtStart(s)
    ensures var r, action := Answered(s, asked, k), asked(k).0;
      var checked := Asked(asked, k, "INSPECT_CONFIG_ORIGIN");
      var selected := Asked(asked, k, "SELECT_PROJECT_CONFIG") || Asked(asked, k, "SELECT_CACHE_CONFIG");
      && (action == "INSPECT_CONFIG_ORIGIN" ==> if checked then r.item.None? else Shows(r, "PASS", false))
      && (action == "SELECT_PROJECT_CONFIG" || action == "SELECT_CACHE_CONFIG" ==>
            if selected then r.item.None?
            else Shows(r, if checked && action == s.machine.oracleAction then "PROOF_CLOSED" else "FAIL", true))
      && (action !in {"INSPECT_CONFIG_ORIGIN", "SELECT_PROJECT_CONFIG", "SELECT_CACHE_CONFIG"} && r.item.Some? ==>
            Shows(r, "FAIL", true))
  {
    hide Asked, TakeStep, StateAfter, AtStart, Selected;
    ConfigHistory(s, asked, k);
    ConfigDoes(StateAfter(s, asked, k), asked(k).0, asked(k).1);
  }

  /** A repository environment: the module text is fixed exactly while a fix stands. */
  lemma {:induction false} CodingHistory(s: EnvironmentState, asked: Requests, n: nat)
    requires s.machine.RepositoryCoding? && AtStart(s)
    ensures var t := StateAfter(s, asked, n);
      && t.machine.RepositoryCoding? && Positive(t.attempts)
      && (t.machine.fixedText <==> FixStands(asked, n)) && (t.machine.patched <==> FixStands(asked, n))
      && (t.machine.failedOnce <==> FailureSeen(asked, n))
      && (t.verdict <==> Earned(s.machine, asked, n))
  {
    hide FixStands, FailureSeen, FixConfirmed, TakeStep, Shows, Shown;
    if n == 0 {
      NothingAskedYet(asked);
      NothingAskedAtAll(asked);
    } else {
      var k := n - 1;
      CodingHistory(s, asked, k);
      FixStandsNext(asked, k);
      FailureSeenNext(asked, k);
      FixConfirmedNext(asked, k);
      var t, candidate := StateAfter(s, asked, k), asked(k).1;
      CodingTests(t, candidate);
      CodingFixes(t, candidate);
      CodingRegresses(t, candidate);
      CodingRollsBack(t, candidate);
      if !CodingAction(asked(k).0) { CodingDefers(t, asked(k).0, candidate); }
    }
  }

  lemma CodingAnswers(s: EnvironmentState, asked: Requests, k: nat)
    requires s.machine.RepositoryCoding? && AtStart(s)
    ensures var r, action, fixed := Answered(s, asked, k), asked(k).0, FixStands(asked, k);
      && (action == "RUN_TARGETED_TEST" ==> Shows(r, if fixed then "PASS" else "FAIL", false))
      && (action == "APPLY_CANDIDATE_FIX" ==> Shows(r, if FailureSeen(asked, k) then "PASS" else "FAIL", false))
      && (action == "RUN_REGRESSION" ==> Shows(r, if fixed then "PASS" else "FAIL", true))
      && (action == "ROLLBACK" ==> Shows(r, "PASS", false))
      && (!CodingAction(action) && r.item.Some? ==> Shows(r, "FAIL", true))
  {
    hide FixStands, FailureSeen, TakeStep, StateAfter, AtStart, FixConfirmed;
    CodingHistory(s, asked, k);
    var t, candidate := StateAfter(s, asked, k), asked(k).1;
    CodingTests(t, candidate);
    CodingFixes(t, candidate);
    CodingRegresses(t, candidate);
    CodingRollsBack(t, candidate);
    if !CodingAction(asked(k).0) { CodingDefers(t, asked(k).0, candidate); }
  }

  lemma SafeDeferShows()
    ensures !Shown(SafeDefer, ("defer", "defer"))
  {
  }

  lemma {:induction false} SafeDeferHistory(s: EnvironmentState, asked: Requests, n: nat)
    requires s.machine.SafeDefer? && AtStart(s)
    ensures var t := StateAfter(s, asked, n);
      && t.machine.SafeDefer? && Positive(t.attempts) && (Tried(t, "defer") <==> n > 0)
      && (t.verdict <==> Earned(s.machine, asked, n))
  {
    hide TakeStep, Shows, Shown;
    if n == 0 {
      SafeDeferShows();
    } else {
      SafeDeferHistory(s, asked, n - 1);
      SafeDeferDoes(StateAfter(s, asked, n - 1), asked(n - 1).0, asked(n - 1).1);
    }
  }

  lemma SafeDeferAnswers(s: EnvironmentState, asked: Requests, k: nat)
    requires s.machine.SafeDefer? && AtStart(s)
    ensures var r, action := Answered(s, asked, k), asked(k).0;
      var safe := action == "DEFER_NO_SUPPORT" || action == "DEFER_NO_ADMISSIBLE";
      if k > 0 then r.item.None? else Shows(r, if safe then "PROOF_CLOSED" else "FAIL", true)
  {
    hide TakeStep, StateAfter, AtStart;
    SafeDeferHistory(s, asked, k);
    SafeDeferDoes(StateAfter(s, asked, k), asked(k).0, asked(k).1);
  }

  lemma GenerativeShows(n: nat)
    ensures !Shown(GenerativeFallback(n), DRAFT_KEY) && !Shown(GenerativeFallback(n), ("fallback", "fallback"))
  {
  }

  /** One of the first `n` requests was for something else. */
  ghost predicate AskedOther(asked: Requests, n: nat, action: string) {
    exists i :: 0 <= i < n && asked(i).0 != action
  }

  lemma {:induction false} GenerativeHistory(s: EnvironmentState, asked: Requests, n: nat)
    requires s.machine.GenerativeFallback? && AtStart(s)
    ensures var t := StateAfter(s, asked, n);
      && DraftsCounted(t) && Positive(t.attempts)
      && (Tried(t, "fallback") <==> AskedOther(asked, n, "CALL_GENERATIVE"))
      && (t.verdict <==> Earned(s.machine, asked, n))
  {
    hide TakeStep, Shows, Shown;
    if n == 0 {
      GenerativeShows(0);
    } else {
      GenerativeHistory(s, asked, n - 1);
      GenerativeDoes(StateAfter(s, asked, n - 1), asked(n - 1).0, asked(n - 1).1);
    }
  }

  lemma GenerativeAnswers(s: EnvironmentState, asked: Requests, k: nat)
    requires s.machine.GenerativeFallback? && AtStart(s)
    ensures var r, valid := Answered(s, asked, k), asked(k).1 == Some("key=stable-42");
      if asked(k).0 == "CALL_GENERATIVE"
      then Shows(r, if valid then "PASS" else "FAIL", valid) && r.accepted == Some(valid)
      else if AskedOther(asked, k, "CALL_GENERATIVE") then r.item.None? else Shows(r, "FAIL", true)
  {
    hide TakeStep, StateAfter, AtStart, AskedOther;
    GenerativeHistory(s, asked, k);
    GenerativeDoes(StateAfter(s, asked, k), asked(k).0, asked(k).1);
  }

  /** After any history of requests to a new environment its end state is valid if and only if the
      history earned it: a running process was inspected; a stopped one was inspected, restarted and
      retried in this order; the last selection was the admissible one and came after the provenance
      or the origin was looked up; the last regression run found a fix that was applied after a failing
      test and not rolled back; the last request was one of the two safe deferrals; or the last request
      brought the candidate that is looked for. */
  lemma ValidEndIsEarned(s: EnvironmentState, asked: Requests, n: nat)
    requires AtStart(s)
    ensures StateAfter(s, asked, n).verdict <==> Earned(s.machine, asked, n)
  {
    hide StateAfter, Earned, AtStart;
    match s.machine
    case Cli(_, _, _, _) => CliHistory(s, asked, n);
    case StructuredData(_, _, _, _) => DataHistory(s, asked, n);
    case FilesystemConfig(_, _, _, _, _) => ConfigHistory(s, asked, n);
    case RepositoryCoding(_, _, _) => CodingHistory(s, asked, n);
    case SafeDefer => SafeDeferHistory(s, asked, n);
    case GenerativeFallback(_) => GenerativeHistory(s, asked, n);
  }

  lemma NothingAskedAtAll(asked: Requests)
    ensures forall a :: !Asked(asked, 0, a)
    ensures forall a, b :: !AskedThen(asked, 0, a, b)
    ensures forall a, b, c :: !AskedThenThen(asked, 0, a, b, c)
    ensures forall a, b, e, r :: !Selected(asked, 0, a, b, e, r)
    ensures !FixConfirmed(asked, 0)
  {
  }
}
