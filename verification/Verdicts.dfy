/** What a report says about the files, check by check (`verify_artifact` in
    `src/artifact_proof/engine.py`): every condition of a pass, and what a pass leaves free. */
module Verdicts {
  import opened Json
  import opened FileSystem
  import opened Source
  import opened CanonicalJson
  import JsonPointer
  import opened Checks
  import opened Engine

  // ----- The limits -----

  /** Every file once. */
  ghost predicate Lists(listing: seq<Path>, paths: set<Path>) {
    && (forall i :: 0 <= i < |listing| ==> listing[i] in paths)
    && (forall p :: p in paths ==> p in listing)
    && forall i, j :: 0 <= i < j < |listing| ==> listing[i] != listing[j]
  }

  function Added(listing: seq<Path>, files: map<Path, File>): nat
    requires forall p :: p in listing ==> p in files
  {
    if listing == [] then 0
    else Added(listing[..|listing| - 1], files) + |files[listing[|listing| - 1]].data|
  }

  lemma ListsFewer(listing: seq<Path>, paths: set<Path>)
    requires Lists(listing, paths) && listing != []
    ensures var n := |listing| - 1;
      listing[n] in paths && Lists(listing[..n], paths - {listing[n]})
    ensures forall p :: p in listing ==> p in paths
  {
    var n := |listing| - 1;
    assert listing == listing[..n] + [listing[n]];
  }

  lemma NothingListed(paths: set<Path>, files: map<Path, File>)
    requires Lists([], paths) && paths <= files.Keys
    ensures Sum(paths, Lengths(files)) == 0 && paths == {}
  {
    forall p ensures p !in paths {}
  }

  lemma {:induction false} AddedIsSum(listing: seq<Path>, paths: set<Path>, files: map<Path, File>)
    requires Lists(listing, paths) && paths <= files.Keys
    ensures Added(listing, files) == Sum(paths, Lengths(files))
  {
    hide Lists, Sum;
    if listing == [] {
      NothingListed(paths, files);
    } else {
      var n := |listing| - 1;
      ListsFewer(listing, paths);
      AddedIsSum(listing[..n], paths - {listing[n]}, files);
      SumSplit(paths, Lengths(files), listing[n]);
    }
  }

  /** `SourceLimits`, on files added up in any order. */
  ghost predicate Fit(files: map<Path, File>, limits: Limits, listing: seq<Path>)
    requires Lists(listing, files.Keys)
  {
    && |listing| <= limits.maxEntries
    && Added(listing, files) <= limits.maxTotalBytes
    && forall p :: p in files ==> Canonical(p) && |files[p].data| <= limits.maxFileBytes
  }

  lemma {:induction false} ListingSize(listing: seq<Path>, paths: set<Path>)
    requires Lists(listing, paths)
    ensures |listing| == |paths|
  {
    if listing == [] {
      assert paths == {};
    } else {
      var n := |listing| - 1;
      ListsFewer(listing, paths);
      ListingSize(listing[..n], paths - {listing[n]});
    }
  }

  lemma FitIsListable(files: map<Path, File>, limits: Limits, listing: seq<Path>)
    requires Lists(listing, files.Keys)
    ensures Fit(files, limits, listing) <==> Listable(files, limits)
  {
    hide Canonical, Sum, Lists;
    AddedIsSum(listing, files.Keys, files);
    ListingSize(listing, files.Keys);
    assert Lengths(files).Keys == files.Keys;
    assert |Lengths(files)| == |files| by { KeyCount(files); KeyCount(Lengths(files)); }
  }

  lemma KeyCount<K, V>(m: map<K, V>)
    ensures |m| == |m.Keys|
  {
  }

  // ----- The checks -----

  /** What an operand stands for. A pointer leads to a node of the document in its file. */
  ghost predicate StandsFor(setup: Setup, files: map<Path, File>, op: Operand, meaning: Meaning) {
    && op.path in files
    && match op
       case DigestOperand(path) => meaning == Words(Ascii(setup.sha(files[path].data)))
       case PointerOperand(path, pointer) =>
         var document := setup.reader.parse(files[path].data);
         && document.Some? && WellFormed(document.value)
         && var node := JsonPointer.Walk(setup.reader.numerals, document.value, JsonPointer.Decode(pointer));
            node.Some? && WellFormed(node.value) && meaning == Means(node.value)
  }

  /** One meaning fits all operands. */
  ghost predicate Agree(setup: Setup, files: map<Path, File>, operands: seq<Operand>) {
    exists meaning :: AllStandFor(setup, files, operands, meaning)
  }

  ghost predicate AllStandFor(setup: Setup, files: map<Path, File>, operands: seq<Operand>, meaning: Meaning) {
    forall op :: op in operands ==> StandsFor(setup, files, op, meaning)
  }

  /** The bytes of the inputs in order, each no longer than it may be. */
  ghost predicate AreInputs(files: map<Path, File>, inputs: seq<(Path, Option<nat>)>, contents: seq<Bytes>) {
    && |contents| == |inputs|
    && forall i :: 0 <= i < |inputs| ==>
         && inputs[i].0 in files && contents[i] == files[inputs[i].0].data
         && (inputs[i].1.Some? ==> |contents[i]| <= inputs[i].1.value)
  }

  ghost predicate Inspected(files: map<Path, File>, inputs: seq<(Path, Option<nat>)>, judge: seq<Bytes> -> Status) {
    exists contents :: AreInputs(files, inputs, contents) && judge(contents) != FAIL
  }

  ghost predicate Satisfied(setup: Setup, files: map<Path, File>, check: CheckSpec) {
    match check
    case ValueBinding(_, operands) => Agree(setup, files, operands)
    case Inspection(_, inputs, judge) => Inspected(files, inputs, judge)
  }

  ghost predicate ReadsAs(setup: Setup, files: map<Path, File>, m: Manifest) {
    && setup.manifestPath in files && |files[setup.manifestPath].data| <= 1024 * 1024
    && setup.parseManifest(files[setup.manifestPath].data) == Some(m)
  }

  /** Everything a pass stands for. A file that is mutable is exempt from its digest in the live
      profile, and from nothing else. */
  ghost predicate Sound(setup: Setup, files: map<Path, File>, m: Manifest) {
    && ReadsAs(setup, files, m)
    && (setup.manifestSha256.Some? ==> setup.sha(files[setup.manifestPath].data) == setup.manifestSha256.value)
    && (setup.manifestSha256.None? ==> !setup.requireAnchor)
    && (forall p :: p in m.files ==> p in files)
    && (forall p :: p in m.files && !(setup.profile == Live && m.files[p].mutable) ==>
          setup.sha(files[p].data) == m.files[p].sha256)
    && (m.completeCoverage ==> forall p :: p in files ==>
          p in m.files || p == setup.manifestPath || p in m.allowUnlisted)
    && forall c :: c in m.checks && setup.profile in c.profiles ==> Satisfied(setup, files, c)
  }

  lemma AgreeIsBinding(setup: Setup, files: map<Path, File>, operands: seq<Operand>)
    requires Strict(setup.reader)
    ensures BindingHolds(setup.sha, setup.reader, files, operands) <==> Agree(setup, files, operands)
  {
    hide JsonPointer.Walk, JsonPointer.Decode, Means, WellFormed, Ascii, StandsFor, OperandMeaning;
    forall op: Operand, meaning: Meaning
      ensures StandsFor(setup, files, op, meaning)
         <==> OperandMeaning(setup.sha, setup.reader, files, op) == Some(meaning)
    {
      StandsForMeaning(setup, files, op, meaning);
    }
    if BindingHolds(setup.sha, setup.reader, files, operands) {
      var meaning := if operands == [] then Meaning.Nothing
                     else OperandMeaning(setup.sha, setup.reader, files, operands[0]).value;
      forall op | op in operands ensures StandsFor(setup, files, op, meaning) {
        var i :| 0 <= i < |operands| && operands[i] == op;
      }
      assert AllStandFor(setup, files, operands, meaning);
    }
    if Agree(setup, files, operands) {
      var meaning :| AllStandFor(setup, files, operands, meaning);
      forall i | 0 <= i < |operands|
        ensures OperandMeaning(setup.sha, setup.reader, files, operands[i]) == Some(meaning)
      {
        assert operands[i] in operands;
      }
    }
  }

  lemma StandsForMeaning(setup: Setup, files: map<Path, File>, op: Operand, meaning: Meaning)
    requires Strict(setup.reader)
    ensures StandsFor(setup, files, op, meaning)
       <==> OperandMeaning(setup.sha, setup.reader, files, op) == Some(meaning)
  {
    hide JsonPointer.Walk, JsonPointer.Decode;
    if op.DigestOperand? && op.path in files { AsciiWellFormed(setup.sha(files[op.path].data)); }
  }

  lemma {:induction false} InputsRead(files: map<Path, File>, inputs: seq<(Path, Option<nat>)>)
    ensures InputBytes(files, inputs).Some? ==> AreInputs(files, inputs, InputBytes(files, inputs).value)
    ensures forall contents :: AreInputs(files, inputs, contents) ==> InputBytes(files, inputs) == Some(contents)
  {
    if inputs != [] {
      var n := |inputs| - 1;
      InputsRead(files, inputs[..n]);
      forall contents | AreInputs(files, inputs, contents) ensures InputBytes(files, inputs) == Some(contents) {
        assert AreInputs(files, inputs[..n], contents[..n]);
        assert contents == contents[..n] + [contents[n]];
      }
    }
  }

  lemma SatisfiedIsHolds(setup: Setup, files: map<Path, File>, check: CheckSpec)
    requires Strict(setup.reader) && setup.profile in check.profiles
    ensures CheckHolds(setup.sha, setup.reader, files, setup.profile, check) <==> Satisfied(setup, files, check)
  {
    hide BindingHolds, Agree, InputBytes, AreInputs;
    match check
    case ValueBinding(_, operands) => AgreeIsBinding(setup, files, operands);
    case Inspection(_, inputs, judge) => InputsRead(files, inputs);
  }

  lemma SoundReads(setup: Setup, files: map<Path, File>, m: Manifest)
    requires Sound(setup, files, m)
    ensures ReadsAs(setup, files, m)
  {
  }

  lemma InactiveHolds(setup: Setup, files: map<Path, File>, check: CheckSpec)
    requires setup.profile !in check.profiles
    ensures CheckHolds(setup.sha, setup.reader, files, setup.profile, check)
  {
  }

  lemma PassReads(setup: Setup, files: map<Path, File>)
    requires AtomicPass(setup, files)
    ensures setup.manifestPath in files && setup.parseManifest(files[setup.manifestPath].data).Some?
    ensures ReadsAs(setup, files, setup.parseManifest(files[setup.manifestPath].data).value)
  {
  }

  lemma CoverageMeans(files: map<Path, File>, m: Manifest, manifestPath: Path)
    ensures CoverageHolds(files.Keys, m, manifestPath) <==> (
      && (forall p :: p in m.files ==> p in files)
      && (m.completeCoverage ==> forall p :: p in files ==>
            p in m.files || p == manifestPath || p in m.allowUnlisted))
  {
    assert m.files.Keys <= files.Keys <==> forall p :: p in m.files ==> p in files;
  }

  lemma SoundIsPass(setup: Setup, files: map<Path, File>, m: Manifest)
    requires Strict(setup.reader) && ArgumentsOk(setup) && ReadsAs(setup, files, m)
    ensures Sound(setup, files, m) <==> AtomicPass(setup, files)
  {
    hide Satisfied, CheckHolds, Canonical, IsSha256;
    assert MIB == 1024 * 1024;
    CoverageMeans(files, m, setup.manifestPath);
    forall c | c in m.checks && setup.profile in c.profiles
      ensures CheckHolds(setup.sha, setup.reader, files, setup.profile, c) <==> Satisfied(setup, files, c)
    {
      SatisfiedIsHolds(setup, files, c);
    }
    forall c: CheckSpec | setup.profile !in c.profiles
      ensures CheckHolds(setup.sha, setup.reader, files, setup.profile, c) {
      InactiveHolds(setup, files, c);
    }
  }

  /** The report on some files passes if and only if every condition of a pass holds of them, one by
      one: the anchor, every declared file there, every digest that counts, no stray file, and every
      active check. */
  lemma PassIsSound(setup: Setup, files: map<Path, File>, report: Report, listing: seq<Path>)
    requires Strict(setup.reader) && ReportOn(setup, files, report) && Lists(listing, files.Keys)
    ensures report.Passed() <==>
      ArgumentsOk(setup) && Fit(files, setup.limits, listing) && exists m :: Sound(setup, files, m)
  {
    hide ArgumentsOk, Sound, Listable, Lists, Fit, NoFail, ManifestHolds;
    FitIsListable(files, setup.limits, listing);
    if ArgumentsOk(setup) {
      forall m | ReadsAs(setup, files, m) ensures Sound(setup, files, m) <==> AtomicPass(setup, files) {
        SoundIsPass(setup, files, m);
      }
      forall m | Sound(setup, files, m) ensures ReadsAs(setup, files, m) { SoundReads(setup, files, m); }
      if AtomicPass(setup, files) {
        PassReads(setup, files);
      }
    }
  }

  // ----- What operands stand for -----

  /** The pointer of a node stands for that node. */
  lemma PointerStandsForNode(setup: Setup, files: map<Path, File>, path: Path, document: Value,
                             steps: seq<JsonPointer.Step>, node: Value, meaning: Meaning)
    requires Strict(setup.reader) && path in files && setup.reader.parse(files[path].data) == Some(document)
    requires WellFormed(document) && JsonPointer.Reaches(document, steps, node)
    ensures WellFormed(node)
    ensures StandsFor(setup, files, PointerOperand(path, JsonPointer.Encode(JsonPointer.Texts(steps))), meaning)
       <==> meaning == Means(node)
  {
    hide WellFormed, JsonPointer.Walk, JsonPointer.Decode, JsonPointer.Encode, JsonPointer.Reaches, Means,
      JsonPointer.ValidPointer, JsonPointer.Decimal;
    var pointer := JsonPointer.Encode(JsonPointer.Texts(steps));
    JsonPointer.EveryNodeHasItsPointer(setup.reader.numerals, document, steps, node);
    JsonPointer.WalkWellFormed(setup.reader.numerals, document, JsonPointer.Decode(pointer));
  }

  lemma AsciiInjective(a: string, b: string)
    requires IsSha256(a) && IsSha256(b)
    ensures Ascii(a) == Ascii(b) <==> a == b
  {
    if Ascii(a) == Ascii(b) {
      forall i | 0 <= i < |a| ensures a[i] == b[i] { assert Ascii(a)[i] == Ascii(b)[i]; }
    }
  }

  /** Digest operands agree exactly when the files have one digest. */
  lemma DigestsAgree(setup: Setup, files: map<Path, File>, p: Path, q: Path)
    requires forall r :: r in files ==> IsSha256(setup.sha(files[r].data))
    ensures Agree(setup, files, [DigestOperand(p), DigestOperand(q)]) <==>
      p in files && q in files && setup.sha(files[p].data) == setup.sha(files[q].data)
  {
    hide Ascii, IsSha256;
    var operands := [DigestOperand(p), DigestOperand(q)];
    assert operands[0] in operands && operands[1] in operands;
    if p in files && q in files {
      AsciiInjective(setup.sha(files[p].data), setup.sha(files[q].data));
      if setup.sha(files[p].data) == setup.sha(files[q].data) {
        assert AllStandFor(setup, files, operands, Words(Ascii(setup.sha(files[p].data))));
      }
    }
  }

  // ----- Mutable files -----

  /** The files a check reads. */
  function Consulted(check: CheckSpec): set<Path> {
    match check
    case ValueBinding(_, operands) => set op | op in operands :: op.path
    case Inspection(_, inputs, _) => set input | input in inputs :: input.0
  }

  /** The same files with the same bytes, except for mutable ones. */
  ghost predicate DifferInMutable(setup: Setup, m: Manifest, files: map<Path, File>, later: map<Path, File>) {
    && files.Keys == later.Keys
    && forall p :: p in files && later[p].data != files[p].data ==>
         p in m.files && m.files[p].mutable && p != setup.manifestPath
  }

  predicate ReadsChanged(files: map<Path, File>, later: map<Path, File>, check: CheckSpec)
    requires files.Keys == later.Keys
  {
    exists p :: p in Consulted(check) && p in files && later[p].data != files[p].data
  }

  lemma OperandUnchanged(setup: Setup, files: map<Path, File>, later: map<Path, File>, op: Operand, meaning: Meaning)
    requires files.Keys == later.Keys && (op.path in files ==> later[op.path].data == files[op.path].data)
    ensures StandsFor(setup, files, op, meaning) <==> StandsFor(setup, later, op, meaning)
  {
    hide Ascii, WellFormed, JsonPointer.Walk, JsonPointer.Decode, Means;
  }

  lemma CheckUnchanged(setup: Setup, files: map<Path, File>, later: map<Path, File>, check: CheckSpec)
    requires files.Keys == later.Keys && !ReadsChanged(files, later, check)
    ensures Satisfied(setup, files, check) <==> Satisfied(setup, later, check)
  {
    hide StandsFor;
    match check
    case ValueBinding(_, operands) =>
      forall meaning: Meaning, op | op in operands
        ensures StandsFor(setup, files, op, meaning) <==> StandsFor(setup, later, op, meaning)
      {
        assert op.path in Consulted(check);
        OperandUnchanged(setup, files, later, op, meaning);
      }
      forall meaning: Meaning
        ensures AllStandFor(setup, files, operands, meaning) <==> AllStandFor(setup, later, operands, meaning)
      {
      }
    case Inspection(_, inputs, judge) =>
      forall i | 0 <= i < |inputs| && inputs[i].0 in files
        ensures later[inputs[i].0].data == files[inputs[i].0].data
      {
        assert inputs[i] in inputs && inputs[i].0 in Consulted(check);
      }
      forall contents ensures AreInputs(files, inputs, contents) <==> AreInputs(later, inputs, contents) {
      }
  }

  /** In the live profile mutable files may change: a pass stays one, unless an active check that
      reads a changed file is no longer satisfied. */
  lemma MutableFilesAreFree(setup: Setup, m: Manifest, files: map<Path, File>, later: map<Path, File>,
                            report: Report, next: Report, listing: seq<Path>)
    requires Strict(setup.reader) && setup.profile == Live && Lists(listing, files.Keys)
    requires ReadsAs(setup, files, m) && DifferInMutable(setup, m, files, later)
    requires ReportOn(setup, files, report) && ReportOn(setup, later, next)
    requires report.Passed() && Fit(later, setup.limits, listing)
    ensures next.Passed() <==>
      forall c :: c in m.checks && setup.profile in c.profiles && ReadsChanged(files, later, c) ==>
        Satisfied(setup, later, c)
  {
    hide ReportOn, NoFail, Lists, Fit, ArgumentsOk, Satisfied, Consulted;
    PassIsSound(setup, files, report, listing);
    PassIsSound(setup, later, next, listing);
    SoundAlone(setup, files, m);
    assert ReadsAs(setup, later, m);
    SoundAlone(setup, later, m);
    forall c | c in m.checks && !ReadsChanged(files, later, c)
      ensures Satisfied(setup, files, c) <==> Satisfied(setup, later, c)
    {
      CheckUnchanged(setup, files, later, c);
    }
  }

  lemma SoundAlone(setup: Setup, files: map<Path, File>, m: Manifest)
    requires ReadsAs(setup, files, m)
    ensures (exists n :: Sound(setup, files, n)) <==> Sound(setup, files, m)
  {
    forall n | Sound(setup, files, n) ensures n == m { SoundReads(setup, files, n); }
  }

  const KEPT: Path := ["kept"]

  const GROWING: Path := ["growing"]

  const MANIFEST: Path := ["proof"]

  lemma ThreeNames()
    ensures KEPT != GROWING && KEPT != MANIFEST && GROWING != MANIFEST
    ensures Canonical(KEPT) && Canonical(GROWING) && Canonical(MANIFEST)
  {
    assert KEPT[0] != GROWING[0] && KEPT[0] != MANIFEST[0] && GROWING[0] != MANIFEST[0];
  }

  lemma ThreeAdded(files: map<Path, File>, p: Path, q: Path, r: Path)
    requires p in files && q in files && r in files
    ensures Added([p, q, r], files) == |files[p].data| + |files[q].data| + |files[r].data|
  {
    assert [p, q, r][..2] == [p, q] && [p, q][..1] == [p] && [p][..0] == [];
    assert Added([p], files) == |files[p].data|;
    assert Added([p, q], files) == |files[p].data| + |files[q].data|;
  }

  /** A mutable file bound to a copy of what it once was. */
  function BoundManifest(digest: string): Manifest {
    Manifest(map[GROWING := FileSpec(digest, true)],
             [ValueBinding({Live}, [DigestOperand(GROWING), DigestOperand(KEPT)])], false, {})
  }

  function BoundFiles(before: Bytes, now: Bytes): map<Path, File> {
    map[MANIFEST := File(true, 0, []), KEPT := File(true, 0, before), GROWING := File(true, 0, now)]
  }

  function BoundSetup(sha: Bytes -> string, commit: map<Path, string> -> string, reader: JsonReader, digest: string,
                      total: nat): Setup
  {
    Setup(sha, commit, data => Some(BoundManifest(digest)), reader, MANIFEST, Live, None, false,
          Limits(3, total, total))
  }

  lemma BoundSound(setup: Setup, digest: string, before: Bytes, now: Bytes)
    requires setup == BoundSetup(setup.sha, setup.commit, setup.reader, digest, setup.limits.maxTotalBytes)
    requires forall data :: IsSha256(setup.sha(data))
    ensures Sound(setup, BoundFiles(before, now), BoundManifest(digest)) <==> setup.sha(now) == setup.sha(before)
  {
    hide Ascii, IsSha256, Agree;
    ThreeNames();
    var files, binding := BoundFiles(before, now), BoundManifest(digest).checks[0];
    DigestsAgree(setup, files, GROWING, KEPT);
    assert binding in BoundManifest(digest).checks;
    assert Satisfied(setup, files, binding) <==> setup.sha(now) == setup.sha(before);
  }

  /** The exemption is from the digest alone: a live check can still bind a mutable file. Here it is
      bound to a copy of what it was; as long as it is that, the report passes, and when it has
      changed the report fails. */
  lemma BoundMutableFile(setup: Setup, digest: string, before: Bytes, now: Bytes, report: Report)
    requires setup == BoundSetup(setup.sha, setup.commit, setup.reader, digest, setup.limits.maxTotalBytes)
    requires Strict(setup.reader) && |before| + |now| <= setup.limits.maxTotalBytes
    requires forall data :: IsSha256(setup.sha(data))
    requires ReportOn(setup, BoundFiles(before, now), report)
    ensures report.Passed() <==> setup.sha(now) == setup.sha(before)
  {
    hide Sound, ReportOn, NoFail, CanonicalPart, IsSha256, Strict;
    ThreeNames();
    var files, listing := BoundFiles(before, now), [MANIFEST, KEPT, GROWING];
    assert Lists(listing, files.Keys);
    ThreeAdded(files, MANIFEST, KEPT, GROWING);
    PassIsSound(setup, files, report, listing);
    assert ReadsAs(setup, files, BoundManifest(digest));
    SoundAlone(setup, files, BoundManifest(digest));
    BoundSound(setup, digest, before, now);
  }
}
