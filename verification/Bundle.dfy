/** The proof bundle of an episode (`ProofBundleVerifier` in `gym/core.py`): the ledger is checked,
    the episode is written into a directory of its own, and the artifact verifier is run on it. */
module Bundle {
  import opened Json
  import opened FileSystem
  import opened Evidence
  import opened Episode
  import opened Host
  import opened HostHistory
  import opened HostedRuns
  import opened Engine
  import opened Exploration
  import opened NegativeExperience
  import AuthorityTraining
  import Checks
  import EpisodeLaws
  import Ledger
  import ReferenceGym
  import Source

  const MANIFEST_PATH: Path := ["ARTIFACT_PROOF.json"]
  const VIEW_PATH: Path := ["agent_task_view.json"]
  const TRAJECTORY_PATH: Path := ["trajectory.json"]
  const LEDGER_PATH: Path := ["ledger.json"]
  const ADMISSION_PATH: Path := ["admission.json"]

  const DEFAULT_LIMITS := Source.Limits(4096, 64 * MIB, 256 * MIB)

  /** How values become files and digests: `canonical_json_bytes`, SHA-256, the snapshot digest,
      and the parsers that read files back. */
  datatype Codec = Codec(
    text: Json -> Bytes, sha: Bytes -> string, commit: map<Path, string> -> string,
    parseManifest: Bytes -> Option<Checks.Manifest>, reader: Checks.JsonReader)
  {
    /** `verify_artifact(root)` with its default arguments. */
    function Defaults(): Setup {
      Setup(sha, commit, parseManifest, reader, MANIFEST_PATH, Checks.Sealed, None, false, DEFAULT_LIMITS)
    }
  }

  /** What a bundle says of an episode. */
  datatype Claim = Claim(
    task: PublicTask, observations: seq<Observation>, semanticValid: bool, provenanceValid: bool, document: Object)

  function TrajectoryJson(claim: Claim): Json {
    Obj(map[Key.Format := Str("proof-gym-trajectory-v2"), Other("task_id") := Str(claim.task.taskId),
            Other("split") := Str(claim.task.split), Key.Observations := Arr(ToDicts(claim.observations))])
  }

  function AdmissionJson(codec: Codec, h: Hasher, claim: Claim): Json {
    Obj(map[Key.Format := Str("proof-gym-admission-v2"), Other("task_id") := Str(claim.task.taskId),
            Key.SemanticValid := Bool(claim.semanticValid), Key.ProvenanceValid := Bool(claim.provenanceValid),
            Key.HostTaskCommitment := Str(h(TaskJson(claim.task))), Other("trajectory_valid") := Bool(true),
            Other("trajectory_ledger_sha256") := Str(codec.sha(codec.text(Obj(claim.document)))),
            Other("trajectory_ledger_root_sha256") := Get(claim.document, Key.RootSha256)])
  }

  function Contents(codec: Codec, h: Hasher, claim: Claim): map<Path, Bytes> {
    map[VIEW_PATH := codec.text(ViewJson(claim.task.AgentView())),
        TRAJECTORY_PATH := codec.text(TrajectoryJson(claim)),
        LEDGER_PATH := codec.text(Obj(claim.document)),
        ADMISSION_PATH := codec.text(AdmissionJson(codec, h, claim))]
  }

  function Listing(codec: Codec, contents: map<Path, Bytes>): Checks.Manifest {
    Checks.Manifest(map p | p in contents :: Checks.FileSpec(codec.sha(contents[p]), false), [], true, {})
  }

  function ManifestJson(codec: Codec, contents: map<Path, Bytes>): Json {
    Obj(map[Key.Format := Str("artifact-proof-manifest-v1"),
            Other("artifact") := Obj(map[Other("name") := Str("proof-gym-episode"), Other("version") := Str("2")]),
            Other("files") := Obj(map[
              Other("agent_task_view.json") := FileJson(codec, contents, VIEW_PATH),
              Other("trajectory.json") := FileJson(codec, contents, TRAJECTORY_PATH),
              Other("ledger.json") := FileJson(codec, contents, LEDGER_PATH),
              Other("admission.json") := FileJson(codec, contents, ADMISSION_PATH)]),
            Other("coverage") := Obj(map[Other("complete") := Bool(true), Other("allow_unlisted") := Arr([])]),
            Other("checks") := Arr([])])
  }

  function FileJson(codec: Codec, contents: map<Path, Bytes>, p: Path): Json {
    Obj(map[Other("sha256") := Str(if p in contents then codec.sha(contents[p]) else "")])
  }

  function ManifestText(codec: Codec, h: Hasher, claim: Claim): Bytes {
    codec.text(ManifestJson(codec, Contents(codec, h, claim)))
  }

  /** The directory holds exactly the bundle of this episode. */
  ghost predicate Written(codec: Codec, h: Hasher, claim: Claim, files: map<Path, File>) {
    var contents := Contents(codec, h, claim);
    && files.Keys == contents.Keys + {MANIFEST_PATH}
    && (forall p :: p in contents ==> files[p].data == contents[p])
    && files[MANIFEST_PATH].data == ManifestText(codec, h, claim)
  }

  /** The manifest that was written is short and the parser reads it back. */
  ghost predicate ReadsBack(codec: Codec, h: Hasher, claim: Claim) {
    var text := ManifestText(codec, h, claim);
    |text| <= MIB && codec.parseManifest(text) == Some(Listing(codec, Contents(codec, h, claim)))
  }

  lemma DefaultsOk(codec: Codec)
    ensures ArgumentsOk(codec.Defaults()) && Source.Canonical(MANIFEST_PATH)
  {
    assert Source.CanonicalPart("ARTIFACT_PROOF.json");
  }

  lemma ListedHolds(codec: Codec, contents: map<Path, Bytes>, files: map<Path, File>)
    requires files.Keys == contents.Keys + {MANIFEST_PATH}
    requires forall p :: p in contents ==> files[p].data == contents[p]
    ensures ContentHolds(codec.Defaults(), files, Listing(codec, contents))
  {
    hide Checks.CheckHolds;
    var m := Listing(codec, contents);
    assert m.files.Keys == contents.Keys;
  }

  /** How much the files of a bundle hold. */
  function BundleSizes(codec: Codec, h: Hasher, claim: Claim): map<Path, nat> {
    var contents := Contents(codec, h, claim);
    (map p | p in contents :: |contents[p]|)[MANIFEST_PATH := |ManifestText(codec, h, claim)|]
  }

  /** The verifier's default limits leave room for the bundle. */
  ghost predicate FitsDefaults(codec: Codec, h: Hasher, claim: Claim) {
    Source.WithinLimits(BundleSizes(codec, h, claim), DEFAULT_LIMITS)
  }

  lemma BundleChecks(codec: Codec, h: Hasher, claim: Claim, files: map<Path, File>)
    requires Written(codec, h, claim, files) && ReadsBack(codec, h, claim)
    ensures AtomicPass(codec.Defaults(), files)
  {
    hide Contents, ContentHolds, ArgumentsOk, ManifestText, Listing;
    DefaultsOk(codec);
    ListedHolds(codec, Contents(codec, h, claim), files);
  }

  lemma NamesCanonical(codec: Codec, h: Hasher, claim: Claim)
    ensures Source.Canonical(MANIFEST_PATH)
    ensures forall p :: p in Contents(codec, h, claim) ==> Source.Canonical(p)
  {
    hide ViewJson, TrajectoryJson, AdmissionJson, Source.Canonical;
    DefaultsOk(codec);
    ViewCanonical();
    TrajectoryCanonical();
    LedgerCanonical();
    AdmissionCanonical();
  }

  lemma ViewCanonical()
    ensures Source.Canonical(VIEW_PATH)
  {
    assert Source.CanonicalPart("agent_task_view.json");
  }

  lemma TrajectoryCanonical()
    ensures Source.Canonical(TRAJECTORY_PATH)
  {
    assert Source.CanonicalPart("trajectory.json");
  }

  lemma LedgerCanonical()
    ensures Source.Canonical(LEDGER_PATH)
  {
    assert Source.CanonicalPart("ledger.json");
  }

  lemma AdmissionCanonical()
    ensures Source.Canonical(ADMISSION_PATH)
  {
    assert Source.CanonicalPart("admission.json");
  }

  lemma BundleListable(codec: Codec, h: Hasher, claim: Claim, files: map<Path, File>)
    requires Written(codec, h, claim, files)
    ensures Listable(files, DEFAULT_LIMITS) <==> FitsDefaults(codec, h, claim)
  {
    hide Contents, ManifestText, Source.Canonical, Source.WithinLimits;
    NamesCanonical(codec, h, claim);
    assert Source.Lengths(files) == BundleSizes(codec, h, claim);
  }

  /** The artifact verifier's verdict on a bundle as it was written: it passes exactly when it is
      within the limits. */
  lemma WrittenBundlePasses(codec: Codec, h: Hasher, claim: Claim, files: map<Path, File>)
    requires Written(codec, h, claim, files) && ReadsBack(codec, h, claim)
    ensures Verdict(codec.Defaults(), files) <==> FitsDefaults(codec, h, claim)
  {
    hide Written, ReadsBack, AtomicPass, Listable, FitsDefaults;
    BundleChecks(codec, h, claim, files);
    BundleListable(codec, h, claim, files);
  }

  ghost predicate ClaimBinds(h: Hasher, claim: Claim) {
    BundleBinds(h, claim.task, claim.observations, claim.semanticValid, claim.provenanceValid, claim.document)
  }

  /** From `from` to `to` the bundle's directory holds what was written and nothing happens to it. */
  ghost predicate LeftAsWritten(codec: Codec, h: Hasher, claim: Claim, disk: History, from: nat, to: nat,
                                walks: seq<seq<Source.Visit>>, known: map<Path, Meta>)
  {
    && Untouched(disk, from, to, walks, known)
    && Written(codec, h, claim, Source.FilesAt(disk, known.Keys, to))
    && ReadsBack(codec, h, claim)
  }

  /** `ProofBundleVerifier.verify`. The bundle's directory is private to the call: when nothing else
      happens to it, the answer is that of the ledger half, unless the bundle is too large. */
  method Verify(disk: Disk, codec: Codec, h: Hasher, claim: Claim, walk: seq<Source.Visit>,
                secondWalk: seq<Source.Visit>, lastWalk: seq<Source.Visit>, ghost known: map<Path, Meta>)
    returns (ok: bool)
    requires Checks.Strict(codec.reader)
    modifies disk
    ensures disk.now >= old(disk.now)
    ensures ok ==> ClaimBinds(h, claim)
    ensures LeftAsWritten(codec, h, claim, disk.h, old(disk.now), disk.now, [walk, secondWalk, lastWalk], known) ==>
      (ok <==> ClaimBinds(h, claim) && FitsDefaults(codec, h, claim))
  {
    hide Untouched, Written, ReadsBack, BundleBinds, Verdict, ManifestReadable, ManifestBytes, Checks.NoFail, Listable,
      Checks.Strict, Source.FilesAt, FitsDefaults;
    ok := CheckBundle(h, claim.task, claim.observations, claim.semanticValid, claim.provenanceValid, claim.document);
    if !ok { return; }
    var report, frame := VerifyArtifact(disk, codec.Defaults(), walk, secondWalk, lastWalk, known);
    ok := report.Passed();
    ghost var files := Source.FilesAt(disk.h, known.Keys, disk.now);
    if Written(codec, h, claim, files) && ReadsBack(codec, h, claim) { WrittenBundlePasses(codec, h, claim, files); }
  }

  /** What the gym claims at the end of a run. */
  ghost function ClaimOf(task: PublicTask, w: World): Claim {
    var s := Final(task, w);
    var semantic, provenance := SemanticallyValid(w, s), Admissible(s.observations);
    Claim(task, s.observations, semantic, provenance, Ledger.Document(WithReceipt(w, s, semantic, provenance)))
  }

  /** What `run` returns when the artifact verifier says this of the bundle. */
  ghost function ReceiptWith(task: PublicTask, w: World, ok: bool, hasSink: bool): EpisodeResult {
    Receipt(task, w, Final(task, w), ok, hasSink)
  }

  /** The gym with its bundle verifier: the run, then its bundle on a disk. Integrity is the verifier's
      own answer, and on a private directory it only depends on whether the bundle is too large. */
  method RunVerified(disk: Disk, codec: Codec, task: PublicTask, w: World, hasSink: bool, walk: seq<Source.Visit>,
                     secondWalk: seq<Source.Visit>, lastWalk: seq<Source.Visit>, ghost known: map<Path, Meta>)
    returns (result: EpisodeResult)
    requires Checks.Strict(codec.reader)
    modifies disk
    ensures result == ReceiptWith(task, w, result.admission.integrityValid, hasSink)
    ensures LeftAsWritten(codec, w.h, ClaimOf(task, w), disk.h, old(disk.now), disk.now, [walk, secondWalk, lastWalk],
                          known) ==>
      && (result.admission.integrityValid <==> FitsDefaults(codec, w.h, ClaimOf(task, w)))
      && (result.Accepted() <==>
            && result.terminalReason == EnvironmentDone && w.verdict && Admissible(result.observations)
            && FitsDefaults(codec, w.h, ClaimOf(task, w)))
  {
    hide LeftAsWritten, FitsDefaults, ClaimBinds, Checks.Strict, Receipt, Final, Admissible, ClaimOf;
    var played, _ := ReferenceGym.Run(task, w, true, hasSink, null);
    ReceiptSays(task, w, true, hasSink);
    var claim := Claim(task, played.observations, played.admission.semanticValid, played.admission.provenanceValid,
                       played.Document());
    var ok := Verify(disk, codec, w.h, claim, walk, secondWalk, lastWalk, known);
    ReceiptSays(task, w, ok, hasSink);
    var admitted := played.admission.semanticValid && played.admission.provenanceValid
      && played.admission.trajectoryValid && ok;
    return played.(admission := played.admission.(integrityValid := ok, admitted := admitted),
                   learningUpdated := admitted && task.split == "train" && hasSink);
  }

  /** How the receipt of a run depends on the verifier's answer. */
  lemma ReceiptSays(task: PublicTask, w: World, ok: bool, hasSink: bool)
    ensures var r, claim := ReceiptWith(task, w, ok, hasSink), ClaimOf(task, w);
      && claim == Claim(task, r.observations, r.admission.semanticValid, r.admission.provenanceValid, r.Document())
      && ClaimBinds(w.h, claim) && r.admission.integrityValid == ok
      && r.admission.admitted == (r.admission.semanticValid && r.admission.provenanceValid
                                  && r.admission.trajectoryValid && ok)
      && r.learningUpdated == (r.admission.admitted && task.split == "train" && hasSink)
      && (r.Accepted() <==> r.terminalReason == EnvironmentDone && w.verdict && Admissible(r.observations) && ok)
      && r == ReceiptWith(task, w, true, hasSink).(admission := r.admission, learningUpdated := r.learningUpdated)
      && ReceiptWith(task, w, true, hasSink).admission
         == r.admission.(integrityValid := true, admitted := ReceiptWith(task, w, true, hasSink).admission.admitted)
  {
    hide Ledger.Accepts, BundleBinds, Final, Admissible, WithReceipt;
    EpisodeLaws.EveryRunVerifies(task, w, ok, hasSink);
    EpisodeLaws.EveryRunVerifies(task, w, true, hasSink);
  }

  /** Every run's bundle is verified unless it is too large, so a run is admitted exactly on its end,
      its semantic verdict, the provenance of its evidence and its size. */
  lemma EveryRunIsVerified(task: PublicTask, w: World, codec: Codec, files: map<Path, File>, hasSink: bool)
    requires Written(codec, w.h, ClaimOf(task, w), files) && ReadsBack(codec, w.h, ClaimOf(task, w))
    ensures var r := ReceiptWith(task, w, Verdict(codec.Defaults(), files), hasSink);
      && (r.admission.integrityValid <==> FitsDefaults(codec, w.h, ClaimOf(task, w)))
      && (r.Accepted() <==>
            && r.terminalReason == EnvironmentDone && w.verdict && Admissible(r.observations)
            && FitsDefaults(codec, w.h, ClaimOf(task, w)))
  {
    hide Verdict, Written, ReadsBack, ClaimOf, Admissible, ReceiptWith, FitsDefaults, ClaimBinds;
    WrittenBundlePasses(codec, w.h, ClaimOf(task, w), files);
    ReceiptSays(task, w, Verdict(codec.Defaults(), files), hasSink);
  }

  /** ... and over a bundled environment exactly when the environment ended it, the requests of its
      trajectory earned a valid verdict and the bundle is not too large. */
  lemma HostedRunsAreAdmitted(task: PublicTask, w: World, snapshotId: string, machine: Machine, codec: Codec,
                              files: map<Path, File>, hasSink: bool)
    requires Written(codec, w.h, ClaimOf(task, w), files) && ReadsBack(codec, w.h, ClaimOf(task, w))
    requires Hosted(task, w, Opened(task.taskId, snapshotId, machine)) && HostHistory.Fresh(machine)
    ensures var r := ReceiptWith(task, w, Verdict(codec.Defaults(), files), hasSink);
      var n := Final(task, w).steps;
      && (r.terminalReason == EnvironmentDone ==> r.trajectory == Actions(w, n))
      && (r.Accepted() <==>
            && r.terminalReason == EnvironmentDone && Earned(machine, RequestsOf(w), n)
            && FitsDefaults(codec, w.h, ClaimOf(task, w)))
  {
    hide Verdict, Written, ReadsBack, ClaimOf, Final, Receipt, Hosted, Earned, StateAfter, Sound, Actions, FitsDefaults;
    WrittenBundlePasses(codec, w.h, ClaimOf(task, w), files);
    HostedRunsAreEarned(task, w, snapshotId, machine, Verdict(codec.Defaults(), files), hasSink);
  }

  // ----- A run that is earned and too large -----

  /** The text of a trajectory is at least as long as any string observed in it. */
  ghost predicate SpeltOut(codec: Codec) {
    forall claim: Claim, i :: 0 <= i < |claim.observations| && claim.observations[i].value.Str? ==>
      |claim.observations[i].value.s| <= |codec.text(TrajectoryJson(claim))|
  }

  lemma TooLarge(codec: Codec, h: Hasher, claim: Claim, i: nat)
    requires SpeltOut(codec) && i < |claim.observations|
    requires claim.observations[i].value.Str? && |claim.observations[i].value.s| > 64 * MIB
    ensures !FitsDefaults(codec, h, claim)
  {
    hide ManifestText, TrajectoryJson, ViewJson, AdmissionJson, Source.Sum;
    assert TRAJECTORY_PATH in Contents(codec, h, claim) && TRAJECTORY_PATH != MANIFEST_PATH;
    assert BundleSizes(codec, h, claim)[TRAJECTORY_PATH] == |codec.text(TrajectoryJson(claim))|;
  }

  /** A structured-data run that selects the signed source has earned its verdict and its evidence
      is in order; with a measurement of more than 64 MiB it is not admitted all the same. */
  lemma OversizedRunIsRefused(task: PublicTask, w: World, snapshotId: string, m: Machine, counts: Counts, codec: Codec,
                              files: map<Path, File>, hasSink: bool)
    requires AuthorityTraining.Scene(task, w, snapshotId, m, counts) && m.StructuredData?
    requires LeastRejected(counts, AuthorityTraining.SlotOf(m.provenance), task.allowedActions)
      == PolicyDecision(Select, Some(m.admissible))
    requires SpeltOut(codec) && m.measurements.0.Str? && |m.measurements.0.s| > 64 * MIB
    requires Written(codec, w.h, ClaimOf(task, w), files) && ReadsBack(codec, w.h, ClaimOf(task, w))
    ensures var r := ReceiptWith(task, w, Verdict(codec.Defaults(), files), hasSink);
      && r.terminalReason == EnvironmentDone && r.admission.semanticValid && r.admission.provenanceValid
      && !r.admission.integrityValid && !r.Accepted()
  {
    hide Verdict, Written, ReadsBack, FitsDefaults, ClaimBinds, SpeltOut, Final, LeastRejected, Admissible,
      AuthorityTraining.SlotOf, AuthorityTraining.Suits, Earned, StateAfter, ReplyAt, AsksHost,
      AuthorityTraining.ActedBy, BundleBinds, Ledger.Accepts, WithReceipt, Sound, Opened;
    AuthorityTraining.RunSelects(task, w, snapshotId, m, counts, m.admissible);
    EveryRunIsVerified(task, w, codec, files, hasSink);
    HostedRunsAreEarned(task, w, snapshotId, m, Verdict(codec.Defaults(), files), hasSink);
    AuthorityTraining.ResetKept(task, w);
    AuthorityTraining.OpenedShows(task.taskId, snapshotId, m);
    TooLarge(codec, w.h, ClaimOf(task, w), 0);
  }
}
