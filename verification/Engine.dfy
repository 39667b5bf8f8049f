/** One verification run over a directory (`verify_artifact` in `src/artifact_proof/engine.py`):
    its report is the report on one frozen state of the directory, although its reads are spread
    over time and others may write meanwhile. */
module Engine {
  import opened Json
  import opened FileSystem
  import opened Source
  import opened Checks

  /** Everything a run is given besides the directory; digests and parsers are functions. */
  datatype Setup = Setup(
    sha: Bytes -> string,
    commit: map<Path, string> -> string,
    parseManifest: Bytes -> Option<Manifest>,
    reader: JsonReader,
    manifestPath: Path,
    profile: Profile,
    manifestSha256: Option<string>,
    requireAnchor: bool,
    limits: Limits)

  datatype Report = Report(manifestSha256: Option<string>, snapshotSha256: Option<string>, findings: seq<Finding>) {
    predicate Passed() { NoFail(findings) }
  }

  const MIB := 1024 * 1024

  predicate ArgumentsOk(setup: Setup) {
    && !setup.profile.Unsupported?
    && Canonical(setup.manifestPath)
    && (setup.manifestSha256.Some? ==> IsSha256(setup.manifestSha256.value))
  }

  /** The files can be listed: their names are canonical and they are within the limits. */
  ghost predicate Listable(files: map<Path, File>, limits: Limits) {
    WithinLimits(Lengths(files), limits) && forall p :: p in files ==> Canonical(p)
  }

  /** The verdict on one fixed set of files. */
  ghost predicate Verdict(setup: Setup, files: map<Path, File>) {
    Listable(files, setup.limits) && AtomicPass(setup, files)
  }

  /** Every check made on those files at once. */
  ghost predicate AtomicPass(setup: Setup, files: map<Path, File>) {
    && ArgumentsOk(setup)
    && ManifestBytes(setup, files).Some?
    && ManifestHolds(setup, files, ManifestBytes(setup, files).value)
  }

  /** What can be read as the manifest. */
  function ManifestBytes(setup: Setup, files: map<Path, File>): Option<Bytes> {
    if setup.manifestPath in files && |files[setup.manifestPath].data| <= MIB then Some(files[setup.manifestPath].data)
    else None
  }

  predicate ManifestReadable(setup: Setup, files: map<Path, File>) {
    && ArgumentsOk(setup)
    && ManifestBytes(setup, files).Some?
    && setup.parseManifest(ManifestBytes(setup, files).value).Some?
  }

  ghost predicate ManifestHolds(setup: Setup, files: map<Path, File>, data: Bytes) {
    && setup.parseManifest(data).Some?
    && AnchorHolds(setup.sha, data, setup.manifestSha256, setup.requireAnchor)
    && ContentHolds(setup, files, setup.parseManifest(data).value)
  }

  ghost predicate ContentHolds(setup: Setup, files: map<Path, File>, m: Manifest) {
    && CoverageHolds(files.Keys, m, setup.manifestPath)
    && (forall p :: p in m.files ==> HashHolds(setup.sha, files, setup.profile, p, m.files[p]))
    && (forall i :: 0 <= i < |m.checks| ==> CheckHolds(setup.sha, setup.reader, files, setup.profile, m.checks[i]))
  }

  // ----- Accumulating findings -----

  lemma NoFailAppend(a: seq<Finding>, b: seq<Finding>)
    ensures NoFail(a + b) <==> NoFail(a) && NoFail(b)
    ensures NoneRefused(a + b) <==> NoneRefused(a) && NoneRefused(b)
  {
    var c := a + b;
    assert forall i :: 0 <= i < |a| ==> c[i] == a[i];
    assert forall i :: 0 <= i < |b| ==> c[|a| + i] == b[i];
    assert forall i :: |a| <= i < |c| ==> c[i] == b[i - |a|];
  }

  /** What these findings tell of a statement about the files. */
  predicate Decides(findings: seq<Finding>, holds: bool) {
    (NoFail(findings) ==> holds) && (NoneRefused(findings) ==> (NoFail(findings) <==> holds))
  }

  lemma DecidesBoth(a: seq<Finding>, x: bool, b: seq<Finding>, y: bool)
    requires Decides(a, x) && Decides(b, y)
    ensures Decides(a + b, x && y)
  {
    hide NoFail, NoneRefused;
    NoFailAppend(a, b);
  }

  lemma DecidesOne(f: Finding, holds: bool)
    requires f.refused ==> f.status == FAIL
    requires !f.refused ==> (f.status != FAIL <==> holds)
    ensures Decides([f], holds)
  {
    assert NoFail([f]) <==> f.status != FAIL by { assert [f][0] == f; }
    assert NoneRefused([f]) <==> !f.refused by { assert [f][0] == f; }
  }

  /** The declared checks, one after the other. */
  method RunDeclared(source: DirectorySource, setup: Setup, checks: seq<CheckSpec>) returns (findings: seq<Finding>)
    requires source.Valid() && source.sha == setup.sha && Strict(setup.reader)
    modifies source.disk, source`observedDigests, source`log
    ensures ReadOn(source)
    ensures forall files: map<Path, File> :: Matches(source.log, source.snapshots, files) ==>
      Decides(findings,
              forall i :: 0 <= i < |checks| ==> CheckHolds(setup.sha, setup.reader, files, setup.profile, checks[i]))
    ensures Undisturbed(source) ==> NoneRefused(findings)
  {
    hide Matches, CheckHolds, Strict, ReadsOk, Digested, Stamped, Canonical, Decides, NoFail, NoneRefused, Onward,
      AllStill;
    findings := [];
    NothingDecided();
    ghost var start := source.At();
    OnwardIdle(source.Fixed(), start, source.disk.now);
    for i := 0 to |checks|
      invariant ReadOn(source)
      invariant NoneRefused(findings) || !AllStill(source.Fixed(), start, source.disk.now)
      invariant forall files: map<Path, File> :: Matches(source.log, source.snapshots, files) ==>
        Decides(findings,
                forall k :: 0 <= k < i ==> CheckHolds(setup.sha, setup.reader, files, setup.profile, checks[k]))
    {
      ghost var earlier, before, here := source.log, findings, source.At();
      var finding := RunDeclaredCheck(source, setup.reader, checks[i], setup.profile);
      OnwardTwice(source.Fixed(), start, here, source.At());
      OnwardHere(source.Fixed(), start, here, source.disk.now);
      AllStillUntil(source.Fixed(), start, here.now, source.disk.now);
      NoFailNext(before, finding);
      findings := findings + [finding];
      forall files: map<Path, File> | Matches(source.log, source.snapshots, files)
        ensures Decides(findings,
          forall k :: 0 <= k < i + 1 ==> CheckHolds(setup.sha, setup.reader, files, setup.profile, checks[k]))
      {
        MatchesEarlier(earlier, source.log, source.snapshots, files);
        ghost var next := CheckHolds(setup.sha, setup.reader, files, setup.profile, checks[i]);
        ghost var sofar := forall k :: 0 <= k < i ==>
          CheckHolds(setup.sha, setup.reader, files, setup.profile, checks[k]);
        DecidesOne(finding, next);
        DecidesBoth(before, sofar, [finding], next);
        assert (forall k :: 0 <= k < i + 1 ==> CheckHolds(setup.sha, setup.reader, files, setup.profile, checks[k]))
          <==> sofar && next;
      }
    }
  }

  lemma NothingDecided()
    ensures Decides([], true) && NoneRefused([])
  {
  }

  /** The coverage, hash and declared checks for a parsed manifest. When a read raises, what was
      found before stays. */
  method RunContent(source: DirectorySource, setup: Setup, m: Manifest)
    returns (findings: seq<Finding>, finished: bool)
    requires source.Valid() && source.sha == setup.sha && Strict(setup.reader)
    modifies source.disk, source`observedDigests, source`log
    ensures ReadOn(source)
    ensures findings != [] && findings[0].subject == Coverage && (!finished ==> |findings| == 1)
    ensures findings[0].status != FAIL <==> CoverageHolds(source.snapshots.Keys, m, setup.manifestPath)
    ensures finished ==> forall files: map<Path, File> :: Matches(source.log, source.snapshots, files) ==>
      Decides(findings, ContentHolds(setup, files, m))
    ensures Undisturbed(source) ==> finished && NoneRefused(findings)
  {
    hide Matches, CheckHolds, Strict, ReadsOk, Digested, Stamped, Canonical, Decides, NoFail, NoneRefused, HashHolds,
      CoverageHolds, Onward, AllStill;
    ghost var start := source.At();
    var coverage := VerifyCoverage(source.ListFiles(), m, setup.manifestPath);
    var hashes := VerifyFileHashes(source, m, setup.profile);
    if hashes.None? { return [coverage], false; }
    ghost var earlier, here := source.log, source.At();
    var declared := RunDeclared(source, setup, m.checks);
    OnwardTwice(source.Fixed(), start, here, source.At());
    OnwardHere(source.Fixed(), start, here, source.disk.now);
    AllStillUntil(source.Fixed(), start, here.now, source.disk.now);
    RefusedNowhere(coverage, hashes.value, declared);
    forall files: map<Path, File> | Matches(source.log, source.snapshots, files)
      ensures Decides([coverage] + hashes.value + declared, ContentHolds(setup, files, m))
    {
      MatchesEarlier(earlier, source.log, source.snapshots, files);
      ghost var x := CoverageHolds(files.Keys, m, setup.manifestPath);
      ghost var y := forall p :: p in m.files ==> HashHolds(setup.sha, files, setup.profile, p, m.files[p]);
      ghost var z := forall i :: 0 <= i < |m.checks| ==>
        CheckHolds(setup.sha, setup.reader, files, setup.profile, m.checks[i]);
      MatchesListed(source.log, source.snapshots);
      DecidesOne(coverage, x);
      DecidesAll(hashes.value, y);
      DecidesBoth([coverage], x, hashes.value, y);
      DecidesBoth([coverage] + hashes.value, x && y, declared, z);
    }
    return [coverage] + hashes.value + declared, true;
  }

  lemma RefusedNowhere(f: Finding, a: seq<Finding>, b: seq<Finding>)
    requires !f.refused && NoneRefused(a)
    ensures NoneRefused([f]) && (NoneRefused(b) ==> NoneRefused([f] + a + b))
  {
  }

  lemma DecidesAll(findings: seq<Finding>, holds: bool)
    requires NoneRefused(findings) && (NoFail(findings) <==> holds)
    ensures Decides(findings, holds)
  {
  }

  // What a run so far says of any files its reads could come from.

  ghost predicate ManifestRead(setup: Setup, log: seq<Read>, listed: map<Path, Meta>, manifest: Option<Bytes>) {
    forall files: map<Path, File> :: Matches(log, listed, files) ==> ManifestBytes(setup, files) == manifest
  }

  ghost predicate ManifestJudged(setup: Setup, log: seq<Read>, listed: map<Path, Meta>, readable: bool) {
    forall files: map<Path, File> :: Matches(log, listed, files) ==> (ManifestReadable(setup, files) <==> readable)
  }

  ghost predicate ChecksDecided(setup: Setup, log: seq<Read>, listed: map<Path, Meta>, findings: seq<Finding>) {
    forall files: map<Path, File> :: Matches(log, listed, files) ==> Decides(findings, AtomicPass(setup, files))
  }

  lemma SaysOf(setup: Setup, log: seq<Read>, listed: map<Path, Meta>, files: map<Path, File>, manifest: Option<Bytes>,
               readable: bool, findings: seq<Finding>)
    requires Matches(log, listed, files)
    ensures ManifestRead(setup, log, listed, manifest) ==> ManifestBytes(setup, files) == manifest
    ensures ManifestJudged(setup, log, listed, readable) ==> (ManifestReadable(setup, files) <==> readable)
    ensures ChecksDecided(setup, log, listed, findings) ==> Decides(findings, AtomicPass(setup, files))
  {
    hide Matches, ManifestBytes, ManifestReadable, Decides, AtomicPass;
  }

  /** Everything between opening the source and finalizing it. `manifest` is what was read as the
      manifest; findings made before an exception are kept. */
  method RunChecks(source: DirectorySource, setup: Setup)
    returns (findings: seq<Finding>, finished: bool, manifest: Option<Bytes>)
    requires source.Valid() && source.sha == setup.sha && Strict(setup.reader) && ArgumentsOk(setup)
    modifies source.disk, source`observedDigests, source`log
    ensures ReadOn(source)
    ensures manifest.Some? || Undisturbed(source) ==> ManifestRead(setup, source.log, source.snapshots, manifest)
    ensures finished || Undisturbed(source) ==> ManifestJudged(setup, source.log, source.snapshots, finished)
    ensures finished ==> ChecksDecided(setup, source.log, source.snapshots, findings)
    ensures Undisturbed(source) && finished ==> NoneRefused(findings)
    ensures finished ==> manifest.Some?
    ensures manifest.Some? && setup.parseManifest(manifest.value).Some? ==>
      && |findings| >= 2 && findings[0].subject == Anchor && findings[1].subject == Coverage
      && (findings[0].status != FAIL
          <==> AnchorHolds(setup.sha, manifest.value, setup.manifestSha256, setup.requireAnchor))
      && (findings[1].status != FAIL <==>
            CoverageHolds(source.snapshots.Keys, setup.parseManifest(manifest.value).value, setup.manifestPath))
  {
    hide CoverageHolds, Matches, Strict, ReadsOk, Digested, Stamped, Canonical, Decides, NoFail, NoneRefused,
      ContentHolds, AnchorHolds, ArgumentsOk, Onward, AllStill;
    ghost var start, listed := source.At(), source.snapshots;
    var data := source.ReadBytes(setup.manifestPath, Some(MIB));
    MatchesListed(source.log, listed);
    if data.None? { return [], false, None; }
    ReadTells(source.log, setup.manifestPath, data.value, listed);
    ghost var earlier, here := source.log, source.At();
    manifest := data;
    var m := setup.parseManifest(data.value);
    if m.None? { return [], false, manifest; }
    var anchor := VerifyManifestAnchor(setup.sha, data.value, setup.manifestSha256, setup.requireAnchor);
    var content, done := RunContent(source, setup, m.value);
    OnwardTwice(source.Fixed(), start, here, source.At());
    OnwardHere(source.Fixed(), start, here, source.disk.now);
    ManifestStays(setup, earlier, source.log, listed, data.value);
    findings := [anchor] + content;
    if !done { return findings, false, manifest; }
    finished := true;
    NoFailAppend([anchor], content);
    DecidesOne(anchor, AnchorHolds(setup.sha, data.value, setup.manifestSha256, setup.requireAnchor));
    NothingDecided();
    RefusedNowhere(anchor, [], []);
    forall files: map<Path, File> | Matches(source.log, listed, files)
      ensures Decides(findings, AtomicPass(setup, files))
    {
      ghost var x := AnchorHolds(setup.sha, data.value, setup.manifestSha256, setup.requireAnchor);
      ghost var y := ContentHolds(setup, files, m.value);
      DecidesBoth([anchor], x, content, y);
    }
  }

  lemma ManifestStays(setup: Setup, earlier: seq<Read>, log: seq<Read>, listed: map<Path, Meta>, data: Bytes)
    requires earlier <= log && |data| <= MIB
    requires forall files: map<Path, File> :: Matches(earlier, listed, files) ==>
      setup.manifestPath in files && files[setup.manifestPath].data == data
    ensures forall files: map<Path, File> :: Matches(log, listed, files) ==> ManifestBytes(setup, files) == Some(data)
  {
    hide Matches;
    forall files: map<Path, File> | Matches(log, listed, files) ensures ManifestBytes(setup, files) == Some(data) {
      MatchesEarlier(earlier, log, listed, files);
    }
  }

  const CONTRACT_FAILURE := Finding(Contract, FAIL, false)

  const SNAPSHOT_PASS := Finding(Snapshot, PASS, false)

  /** The instants and files a finished run speaks of, and the metadata they were first listed with. */
  datatype Frame = Frame(since: nat, until: nat, files: map<Path, File>, listed: map<Path, Meta>)

  ghost predicate ListedWithin(h: History, listed: map<Path, Meta>, from: nat, to: nat) {
    exists stamps :: Stamped(h, listed, stamps, from, to)
  }

  /** From `from` to `to` nothing happens to the directory: each walk of it comes across every known
      file once and across no other, and they stay what they are. */
  ghost predicate Untouched(h: History, from: nat, to: nat, walks: seq<seq<Visit>>, known: map<Path, Meta>) {
    && (forall i :: 0 <= i < |walks| ==>
          Quiet(h, from, to, walks[i], known) && EntriesOf(walks[i]) == known.Keys && NoRepeats(walks[i]))
    && forall p :: p in known ==> Still(h, from, to, p, known[p])
  }

  /** The report is the one on these files: the verdict, and the digests exactly where there are any. */
  ghost predicate ReportOn(setup: Setup, files: map<Path, File>, report: Report) {
    var listable := Listable(files, setup.limits);
    && (report.Passed() <==> Verdict(setup, files))
    && report.manifestSha256
         == (if ArgumentsOk(setup) && listable && ManifestBytes(setup, files).Some?
             then Some(setup.sha(ManifestBytes(setup, files).value)) else None)
    && report.snapshotSha256
         == if listable && ManifestReadable(setup, files) then Some(setup.commit(DigestsOf(setup.sha, files)))
            else None
  }

  /** `verify_artifact` on a directory. A passing report, read off interleaved reads, is the passing
      verdict on the files of one frozen state, and its digests are theirs. A finalized report in
      which no check was refused a read is that verdict, whichever way it goes. On a directory that
      nothing happens to, whatever its files are and however large, the report is the one on them. */
  method VerifyArtifact(disk: Disk, setup: Setup, walk: seq<Visit>, secondWalk: seq<Visit>, lastWalk: seq<Visit>,
                        ghost known: map<Path, Meta>)
    returns (report: Report, ghost frame: Frame)
    requires Strict(setup.reader)
    modifies disk
    ensures disk.now >= old(disk.now)
    ensures report.Passed() ==> report.snapshotSha256.Some?
    ensures report.snapshotSha256.Some? ==> old(disk.now) <= frame.since <= frame.until <= disk.now
    ensures report.snapshotSha256.Some? ==>
      frame.listed.Keys == EntriesOf(walk) && ListedWithin(disk.h, frame.listed, old(disk.now), frame.since)
    ensures report.snapshotSha256.Some? && FreshMetadata(disk.h, old(disk.now), disk.now, frame.listed) ==>
      && frame.files.Keys == EntriesOf(walk) && (NoRepeats(walk) ==> Listable(frame.files, setup.limits))
      && Frozen(disk.h, frame.files, frame.since, frame.until)
      && report.snapshotSha256 == Some(setup.commit(DigestsOf(setup.sha, frame.files)))
      && setup.manifestPath in frame.files
      && report.manifestSha256 == Some(setup.sha(frame.files[setup.manifestPath].data))
      && Decides(report.findings, AtomicPass(setup, frame.files))
    ensures Untouched(disk.h, old(disk.now), disk.now, [walk, secondWalk, lastWalk], known) ==>
      ReportOn(setup, FilesAt(disk.h, known.Keys, disk.now), report)
  {
    hide Matches, Strict, ReadsOk, Digested, Stamped, Decides, AtomicPass, Frozen, FreshMetadata, NoneRefused, NoFail,
      Canonical, Onward, AllStill, Quiet, Fits, Untouched, ReportOn, LeftAlone, ManifestReadable, ManifestBytes,
      ArgumentsOk, Sized, DigestsOf, AsOf, ManifestRead, ManifestJudged, ChecksDecided, ListedWithin,
      Listable, EntriesOf, Total, Sizes, NoRepeats, AnchorHolds, CoverageHolds, FilesAt, WithinLimits;
    frame := Frame(0, 0, map[], map[]);
    ghost var h, start, walks := disk.h, disk.now, [walk, secondWalk, lastWalk];
    OneFailure([]);
    if !ArgumentsOk(setup) {
      BadArguments(setup, FilesAt(h, known.Keys, disk.now));
      return Report(None, None, [CONTRACT_FAILURE]), frame;
    }
    var source := OpenDirectory(disk, setup.limits, setup.sha, setup.commit, walk, known);
    if Untouched(h, start, disk.now, walks, known) { UntouchedFits(h, start, disk.now, walks, known, setup); }
    if source == null { return Report(None, None, [CONTRACT_FAILURE]), frame; }
    ghost var begun := source.At();
    var findings, finished, manifest := RunChecks(source, setup);
    var manifestSha := if manifest.Some? then Some(setup.sha(manifest.value)) else None;
    OneFailure(findings);
    ghost var here, checked := source.At(), source.log;
    if !finished {
      report := Report(manifestSha, None, findings + [CONTRACT_FAILURE]);
      if Untouched(h, start, disk.now, walks, known) {
        UntouchedQuiet(h, start, start, begun.now, disk.now, walks, 0, known);
        UntouchedFits(h, start, disk.now, walks, known, setup);
        UntouchedStill(source.Fixed(), start, begun.now, disk.now, walks);
        UntouchedMatches(h, start, begun.now, disk.now, walks, known, source.log);
        SaysOf(setup, checked, known, FilesAt(h, known.Keys, disk.now), manifest, finished, findings);
        UnreadableReport(setup, FilesAt(h, known.Keys, disk.now), report, manifest);
      }
      return report, frame;
    }
    var digest, until := source.FinalizeSnapshot(secondWalk, lastWalk);
    if Untouched(h, start, disk.now, walks, known) {
      UntouchedQuiet(h, start, start, begun.now, disk.now, walks, 0, known);
      UntouchedFits(h, start, disk.now, walks, known, setup);
      UntouchedRun(source, setup, start, begun, here, walks, checked, findings, manifest.value, digest);
    }
    if digest.None? { return Report(manifestSha, None, findings + [CONTRACT_FAILURE]), frame; }
    frame := Frame(source.since, until, FilesAt(disk.h, source.snapshots.Keys, until), source.snapshots);
    SourceListed(source);
    if FreshMetadata(h, start, disk.now, source.snapshots) {
      FrozenRun(source, setup, until, walk, checked, findings, manifest.value);
    }
    return Report(manifestSha, digest, findings + [SNAPSHOT_PASS]), frame;
  }

  /** A run over an untouched directory whose files could be listed: nothing was refused. */
  lemma UntouchedRun(source: DirectorySource, setup: Setup, start: nat, begun: Moment, here: Moment,
                     walks: seq<seq<Visit>>, checked: seq<Read>, findings: seq<Finding>, data: Bytes,
                     digest: Option<string>)
    requires source.Valid() && source.sha == setup.sha && source.commit == setup.commit
    requires start <= begun.now <= here.now <= source.disk.now && begun == Moment(source.since, map[])
    requires Untouched(source.disk.h, start, source.disk.now, walks, source.snapshots) && |walks| == 3
    requires source.snapshots != map[] ==> start < source.disk.now
    requires Fits(walks[1], source.snapshots, setup.limits) && Fits(walks[2], source.snapshots, setup.limits)
    requires Onward(source.Fixed(), begun, here) && checked <= source.log
    requires AllStill(source.Fixed(), begun, here.now) ==> NoneRefused(findings)
    requires LeftAlone(source.Fixed(), here, source.disk.now, walks[1], walks[2], setup.limits) ==> digest.Some?
    requires digest.Some? ==>
      digest.value == setup.commit(source.observedDigests) && source.observedDigests.Keys == source.snapshots.Keys
    requires ManifestRead(setup, checked, source.snapshots, Some(data))
    requires ManifestJudged(setup, checked, source.snapshots, true)
    requires ChecksDecided(setup, checked, source.snapshots, findings)
    requires Listable(FilesAt(source.disk.h, source.snapshots.Keys, source.disk.now), setup.limits)
    ensures digest.Some?
    ensures ReportOn(setup, FilesAt(source.disk.h, source.snapshots.Keys, source.disk.now),
                     Report(Some(setup.sha(data)), digest, findings + [SNAPSHOT_PASS]))
  {
    hide Matches, ReadsOk, Digested, Stamped, Decides, AtomicPass, NoneRefused, NoFail, Canonical, Onward, AllStill,
      Fits, Untouched, ReportOn, LeftAlone, ManifestReadable, ManifestBytes, DigestsOf, ManifestRead, ManifestJudged,
      ChecksDecided, Listable;
    var h, to, known := source.disk.h, source.disk.now, source.snapshots;
    var files := FilesAt(h, known.Keys, to);
    UntouchedStill(source.Fixed(), start, begun.now, to, walks);
    AllStillUntil(source.Fixed(), begun, here.now, to);
    OnwardHere(source.Fixed(), begun, here, to);
    UntouchedAlone(source.Fixed(), start, here, to, walks, setup.limits);
    UntouchedMatches(h, start, begun.now, to, walks, known, source.log);
    MatchesEarlier(checked, source.log, known, files);
    SaysOf(setup, checked, known, files, Some(data), true, findings);
    MatchingDigests(source.log, known, files, setup.sha, source.observedDigests);
    ReadableReport(setup, files, findings, data, digest);
  }

  /** A finished run whose files, by the assumption on metadata, did not change meanwhile. */
  lemma FrozenRun(source: DirectorySource, setup: Setup, until: nat, walk: seq<Visit>, checked: seq<Read>,
                  findings: seq<Finding>, data: Bytes)
    requires source.Valid() && source.limits == setup.limits && checked <= source.log
    requires var files := FilesAt(source.disk.h, source.snapshots.Keys, until);
      && AsOf(source.disk.h, files, source.since, until, source.log, setup.sha, source.observedDigests)
      && Sized(files, source.snapshots)
    requires EntriesOf(walk) == source.snapshots.Keys && |source.snapshots| <= source.limits.maxEntries
    requires NoRepeats(walk) ==> Total(Sizes(walk, source.snapshots)) <= source.limits.maxTotalBytes
    requires ManifestRead(setup, checked, source.snapshots, Some(data))
    requires ManifestJudged(setup, checked, source.snapshots, true)
    requires ChecksDecided(setup, checked, source.snapshots, findings)
    ensures var files := FilesAt(source.disk.h, source.snapshots.Keys, until);
      && Frozen(source.disk.h, files, source.since, until)
      && source.observedDigests == DigestsOf(setup.sha, files)
      && setup.manifestPath in files && files[setup.manifestPath].data == data
      && Decides(findings + [SNAPSHOT_PASS], AtomicPass(setup, files))
      && files.Keys == EntriesOf(walk) && (NoRepeats(walk) ==> Listable(files, setup.limits))
  {
    hide Matches, ReadsOk, Digested, Stamped, Decides, AtomicPass, Frozen, Canonical, ManifestReadable, ManifestBytes,
      Sized, DigestsOf, AsOf, ManifestRead, ManifestJudged, ChecksDecided, Listable, EntriesOf, Total, Sizes, NoRepeats;
    var files := FilesAt(source.disk.h, source.snapshots.Keys, until);
    AsOfMatches(source.disk.h, files, source.since, until, source.log, setup.sha, source.observedDigests,
                source.snapshots);
    MatchesEarlier(checked, source.log, source.snapshots, files);
    SaysOf(setup, checked, source.snapshots, files, Some(data), true, findings);
    ReadableData(setup, files);
    DecidesSnapshot(findings, AtomicPass(setup, files));
    ListedIsListable(source, walk, files);
  }

  lemma SourceListed(source: DirectorySource)
    requires source.Valid()
    ensures ListedWithin(source.disk.h, source.snapshots, source.begun, source.since)
  {
    hide Stamped;
  }

  lemma ListedIsListable(source: DirectorySource, walk: seq<Visit>, files: map<Path, File>)
    requires source.Valid() && Sized(files, source.snapshots) && EntriesOf(walk) == source.snapshots.Keys
    requires |source.snapshots| <= source.limits.maxEntries
    requires NoRepeats(walk) ==> Total(Sizes(walk, source.snapshots)) <= source.limits.maxTotalBytes
    ensures files.Keys == EntriesOf(walk) && (NoRepeats(walk) ==> Listable(files, source.limits))
  {
    hide Canonical, EntriesOf, Total, Sizes, NoRepeats, Stamped, ReadsOk, Digested, Sum;
    if NoRepeats(walk) {
      assert Lengths(files) == KnownSizes(source.snapshots);
      FitsIsWithin(walk, source.snapshots, source.limits);
    }
  }

  /** On an untouched directory every walk fits exactly when the files can be listed. */
  lemma UntouchedFits(h: History, from: nat, to: nat, walks: seq<seq<Visit>>, known: map<Path, Meta>, setup: Setup)
    requires Untouched(h, from, to, walks, known) && walks != []
    requires walks[0] != [] ==> from < to
    ensures known != map[] ==> from < to
    ensures forall i :: 0 <= i < |walks| ==>
      && Quiet(h, from, to, walks[i], known) && EntriesOf(walks[i]) == known.Keys
      && (Fits(walks[i], known, setup.limits) <==> Listable(FilesAt(h, known.Keys, to), setup.limits))
    ensures !Listable(FilesAt(h, known.Keys, to), setup.limits) ==>
      ReportOn(setup, FilesAt(h, known.Keys, to), Report(None, None, [CONTRACT_FAILURE]))
  {
    hide Quiet, Fits, Canonical, Plain, Still, NoRepeats, Sum, AtomicPass, ManifestReadable, ManifestBytes;
    var files := FilesAt(h, known.Keys, to);
    assert EntriesOf(walks[0]) == known.Keys;
    assert walks[0] == [] ==> known.Keys == {};
    OneFailure([]);
    StillSized(h, from, to, known);
    assert Lengths(files) == KnownSizes(known);
    forall i | 0 <= i < |walks| ensures Fits(walks[i], known, setup.limits) <==> Listable(files, setup.limits) {
      FitsIsWithin(walks[i], known, setup.limits);
    }
  }

  lemma StillSized(h: History, from: nat, to: nat, known: map<Path, Meta>)
    requires known != map[] ==> from < to
    requires forall p :: p in known ==> Still(h, from, to, p, known[p])
    ensures Sized(FilesAt(h, known.Keys, to), known)
  {
    forall p | p in known
      ensures Sees(h, to, p).Seen? && |Sees(h, to, p).file.data| == known[p].size
    {
      assert Plain(h, to, p, known[p]);
    }
  }

  lemma DecidesSnapshot(findings: seq<Finding>, holds: bool)
    requires Decides(findings, holds)
    ensures Decides(findings + [SNAPSHOT_PASS], holds)
  {
    DecidesOne(SNAPSHOT_PASS, true);
    DecidesBoth(findings, holds, [SNAPSHOT_PASS], true);
  }

  lemma ReadableData(setup: Setup, files: map<Path, File>)
    requires ManifestReadable(setup, files)
    ensures setup.manifestPath in files && Some(files[setup.manifestPath].data) == ManifestBytes(setup, files)
  {
  }

  lemma UntouchedQuiet(h: History, from: nat, a: nat, b: nat, to: nat, walks: seq<seq<Visit>>, i: nat,
                       known: map<Path, Meta>)
    requires from <= a <= b <= to && i < |walks|
    requires Untouched(h, from, to, walks, known)
    ensures Quiet(h, a, b, walks[i], known) && EntriesOf(walks[i]) == known.Keys
  {
    hide Plain, Still, EntriesOf, NoRepeats;
    assert Quiet(h, from, to, walks[i], known);
  }

  lemma UntouchedStill(s: Setting, from: nat, since: nat, to: nat, walks: seq<seq<Visit>>)
    requires from <= since <= to && Untouched(s.h, from, to, walks, s.files)
    ensures AllStill(s, Moment(since, map[]), to)
  {
    hide Plain, Quiet, Still, EntriesOf, NoRepeats;
    forall p | p in s.files ensures Still(s.h, since, to, p, s.files[p]) {
      StillLater(s.h, from, since, to, p, s.files[p]);
    }
  }

  lemma UntouchedAlone(s: Setting, from: nat, m: Moment, to: nat, walks: seq<seq<Visit>>, limits: Limits)
    requires from <= m.now <= to && |walks| == 3
    requires Untouched(s.h, from, to, walks, s.files) && AllStill(s, m, to)
    requires Fits(walks[1], s.files, limits) && Fits(walks[2], s.files, limits)
    ensures LeftAlone(s, m, to, walks[1], walks[2], limits)
  {
    hide Plain, Fits, Quiet, AllStill, Untouched;
    UntouchedQuiet(s.h, from, m.now, to, to, walks, 1, s.files);
    UntouchedQuiet(s.h, from, m.now, to, to, walks, 2, s.files);
  }

  /** Whatever was read of files that are left alone is what they hold. */
  lemma StillMatches(h: History, from: nat, since: nat, to: nat, known: map<Path, Meta>, log: seq<Read>)
    requires from <= since && (known != map[] ==> from < to)
    requires forall p :: p in known ==> Still(h, from, to, p, known[p])
    requires ReadsOk(h, known, since, to, log)
    ensures Matches(log, known, FilesAt(h, known.Keys, to))
  {
    hide Guarded, Sized;
    StillSized(h, from, to, known);
    forall p | p in known ensures Sees(h, to, p) == Seen(known[p].id, h.inode(to, known[p].id)) {
      assert Plain(h, to, p, known[p]);
    }
    forall k | 0 <= k < |log| ensures log[k].path in known && log[k].data == Sees(h, to, log[k].path).file.data {
      assert ReadOk(h, known, since, to, log[k]);
      StillRead(h, from, to, log[k], known[log[k].path]);
    }
  }

  lemma UntouchedMatches(h: History, from: nat, since: nat, to: nat, walks: seq<seq<Visit>>, known: map<Path, Meta>,
                         log: seq<Read>)
    requires Untouched(h, from, to, walks, known) && ReadsOk(h, known, since, to, log)
    requires from <= since && (known != map[] ==> from < to)
    ensures Matches(log, known, FilesAt(h, known.Keys, to))
  {
    hide Quiet, Still, ReadsOk, Matches, EntriesOf, NoRepeats;
    StillMatches(h, from, since, to, known, log);
  }

  lemma MatchingDigests(log: seq<Read>, listed: map<Path, Meta>, files: map<Path, File>, sha: Bytes -> string,
                        digests: map<Path, string>)
    requires Matches(log, listed, files) && Digested(sha, log, digests)
    ensures digests.Keys == listed.Keys ==> digests == DigestsOf(sha, files)
  {
  }

  lemma BadArguments(setup: Setup, files: map<Path, File>)
    requires !ArgumentsOk(setup)
    ensures ReportOn(setup, files, Report(None, None, [CONTRACT_FAILURE]))
  {
    hide ArgumentsOk, Listable;
    OneFailure([]);
  }

  lemma UnreadableReport(setup: Setup, files: map<Path, File>, report: Report, manifest: Option<Bytes>)
    requires ArgumentsOk(setup) && manifest == ManifestBytes(setup, files) && !ManifestReadable(setup, files)
    requires Listable(files, setup.limits)
    requires !report.Passed() && report.snapshotSha256 == None
    requires report.manifestSha256 == if manifest.Some? then Some(setup.sha(manifest.value)) else None
    ensures ReportOn(setup, files, report)
  {
    hide ArgumentsOk, ManifestBytes, NoFail, Listable;
  }

  lemma ReadableReport(setup: Setup, files: map<Path, File>, findings: seq<Finding>, data: Bytes,
                       digest: Option<string>)
    requires ManifestReadable(setup, files) && ManifestBytes(setup, files) == Some(data)
    requires Listable(files, setup.limits)
    requires NoneRefused(findings) && Decides(findings, AtomicPass(setup, files))
    requires digest == Some(setup.commit(DigestsOf(setup.sha, files)))
    ensures ReportOn(setup, files, Report(Some(setup.sha(data)), digest, findings + [SNAPSHOT_PASS]))
  {
    hide ArgumentsOk, ManifestBytes, NoFail, NoneRefused, AtomicPass, Listable;
    NoFailNext(findings, SNAPSHOT_PASS);
  }

  lemma OneFailure(findings: seq<Finding>)
    ensures !NoFail(findings + [CONTRACT_FAILURE]) && !NoFail([CONTRACT_FAILURE])
  {
    assert (findings + [CONTRACT_FAILURE])[|findings|] == CONTRACT_FAILURE;
    assert [CONTRACT_FAILURE][0] == CONTRACT_FAILURE;
  }

  lemma AsOfMatches(h: History, files: map<Path, File>, from: nat, until: nat, log: seq<Read>, sha: Bytes -> string,
                    digests: map<Path, string>, listed: map<Path, Meta>)
    requires AsOf(h, files, from, until, log, sha, digests) && Sized(files, listed)
    ensures Matches(log, listed, files) && Frozen(h, files, from, until) && digests == DigestsOf(sha, files)
  {
    hide Frozen;
  }

  /** What a reader may conclude from a passing report about the frozen files. */
  lemma PassingReportMeans(setup: Setup, findings: seq<Finding>, files: map<Path, File>)
    requires Decides(findings, AtomicPass(setup, files)) && NoFail(findings)
    ensures setup.manifestPath in files && setup.parseManifest(files[setup.manifestPath].data).Some?
    ensures var m := setup.parseManifest(files[setup.manifestPath].data).value;
      && (forall p :: p in m.files ==> p in files)
      && (forall p :: p in m.files && (setup.profile.Sealed? || !m.files[p].mutable) ==>
            setup.sha(files[p].data) == m.files[p].sha256)
      && (m.completeCoverage ==> forall p :: p in files ==>
            p in m.files || p == setup.manifestPath || p in m.allowUnlisted)
      && (forall c :: c in m.checks && c.ValueBinding? && setup.profile in c.profiles ==>
            BindingHolds(setup.sha, setup.reader, files, c.operands))
  {
    hide BindingHolds;
    var m := setup.parseManifest(files[setup.manifestPath].data).value;
    forall p | p in m.files
      ensures p in files
      ensures setup.profile.Sealed? || !m.files[p].mutable ==> setup.sha(files[p].data) == m.files[p].sha256
    {
      assert HashHolds(setup.sha, files, setup.profile, p, m.files[p]);
    }
    if m.completeCoverage {
      forall p | p in files ensures p in m.files || p == setup.manifestPath || p in m.allowUnlisted {
        assert p in files.Keys;
      }
    }
    forall c | c in m.checks && c.ValueBinding? && setup.profile in c.profiles
      ensures BindingHolds(setup.sha, setup.reader, files, c.operands)
    {
      var i :| 0 <= i < |m.checks| && m.checks[i] == c;
      assert CheckHolds(setup.sha, setup.reader, files, setup.profile, m.checks[i]);
    }
  }
}
