/** The checks a verification run makes (`src/artifact_proof/checks.py`), each tied to what it
    would say of one fixed set of files. */
module Checks {
  import opened Json
  import opened FileSystem
  import opened Source
  import opened CanonicalJson
  import AsciiJson
  import JsonPointer

  datatype Profile = Sealed | Live | Unsupported

  datatype Status = PASS | FAIL | WARN | SKIP

  datatype FileSpec = FileSpec(sha256: string, mutable: bool)

  datatype Operand = PointerOperand(path: Path, pointer: AsciiJson.Text) | DigestOperand(path: Path)

  /** `Inspection` stands for the checks that read some files and judge the bytes with a library:
      SQLite integrity, nested ZIP members and, reading nothing, the environment. */
  datatype CheckSpec =
    | ValueBinding(profiles: set<Profile>, operands: seq<Operand>)
    | Inspection(profiles: set<Profile>, inputs: seq<(Path, Option<nat>)>, judge: seq<Bytes> -> Status)

  datatype Manifest = Manifest(
    files: map<Path, FileSpec>, checks: seq<CheckSpec>, completeCoverage: bool, allowUnlisted: set<Path>)

  datatype Subject = Anchor | Coverage | FileHash(path: Path) | Declared(check: CheckSpec) | Snapshot | Contract

  /** `refused` marks a failure that a refused read caused. */
  datatype Finding = Finding(subject: Subject, status: Status, refused: bool)

  predicate NoFail(findings: seq<Finding>) {
    forall i :: 0 <= i < |findings| ==> findings[i].status != FAIL
  }

  predicate NoneRefused(findings: seq<Finding>) {
    forall i :: 0 <= i < |findings| ==> !findings[i].refused
  }

  // ----- What the checks say of fixed files -----

  predicate AnchorHolds(sha: Bytes -> string, data: Bytes, expected: Option<string>, required: bool) {
    if expected.Some? then expected.value == sha(data) else !required
  }

  predicate CoverageHolds(present: set<Path>, m: Manifest, manifestPath: Path) {
    && m.files.Keys <= present
    && (m.completeCoverage ==> present <= m.files.Keys + {manifestPath} + m.allowUnlisted)
  }

  predicate HashHolds(sha: Bytes -> string, files: map<Path, File>, profile: Profile, p: Path, spec: FileSpec) {
    p in files && ((profile.Live? && spec.mutable) || sha(files[p].data) == spec.sha256)
  }

  /** What the standard library does: `json.loads` with its hooks, and `int` on one code point. */
  datatype JsonReader = JsonReader(parse: Bytes -> Option<Value>, numerals: JsonPointer.Numerals)

  /** The value an operand stands for; None when the code raises on these bytes. */
  function OperandValue(sha: Bytes -> string, reader: JsonReader, files: map<Path, File>, op: Operand): Option<Value> {
    if op.path !in files then None
    else match op
      case DigestOperand(path) => Some(String(Ascii(sha(files[path].data))))
      case PointerOperand(path, pointer) =>
        var document := reader.parse(files[path].data);
        if document.None? then None else JsonPointer.Walk(reader.numerals, document.value, JsonPointer.Decode(pointer))
  }

  /** The parser refuses duplicate keys and non-standard constants, and digits are digits. */
  ghost predicate Strict(reader: JsonReader) {
    && JsonPointer.Decimal(reader.numerals)
    && forall data :: reader.parse(data).Some? ==> WellFormed(reader.parse(data).value)
  }

  ghost function OperandMeaning(sha: Bytes -> string, reader: JsonReader, files: map<Path, File>, op: Operand)
    : Option<Meaning>
  {
    var v := OperandValue(sha, reader, files, op);
    if v.Some? && WellFormed(v.value) then Some(Means(v.value)) else None
  }

  /** Every operand has a value and they all mean the same. */
  ghost predicate BindingHolds(sha: Bytes -> string, reader: JsonReader, files: map<Path, File>,
                               operands: seq<Operand>)
  {
    forall i :: 0 <= i < |operands| ==>
      && OperandMeaning(sha, reader, files, operands[i]).Some?
      && OperandMeaning(sha, reader, files, operands[i]) == OperandMeaning(sha, reader, files, operands[0])
  }

  predicate WithinCap(size: nat, cap: Option<nat>) {
    cap.Some? ==> size <= cap.value
  }

  /** The bytes of the inputs; None when one is missing or longer than it may be. */
  function InputBytes(files: map<Path, File>, inputs: seq<(Path, Option<nat>)>): Option<seq<Bytes>> {
    if inputs == [] then Some([])
    else
      var rest, last := InputBytes(files, inputs[..|inputs| - 1]), inputs[|inputs| - 1];
      if rest.None? || last.0 !in files || !WithinCap(|files[last.0].data|, last.1) then None
      else Some(rest.value + [files[last.0].data])
  }

  ghost predicate CheckHolds(sha: Bytes -> string, reader: JsonReader, files: map<Path, File>,
                             profile: Profile, check: CheckSpec)
  {
    profile in check.profiles ==>
      match check
      case ValueBinding(_, operands) => BindingHolds(sha, reader, files, operands)
      case Inspection(_, inputs, judge) =>
        InputBytes(files, inputs).Some? && judge(InputBytes(files, inputs).value) != FAIL
  }

  // ----- The reads of a run and the files they could be reads of -----

  /** Everything read so far is what these files hold, and they are the listed ones with their sizes. */
  ghost predicate Matches(log: seq<Read>, listed: map<Path, Meta>, files: map<Path, File>) {
    && Sized(files, listed)
    && forall k :: 0 <= k < |log| ==> log[k].path in files && log[k].data == files[log[k].path].data
  }

  lemma MatchesEarlier(earlier: seq<Read>, log: seq<Read>, listed: map<Path, Meta>, files: map<Path, File>)
    requires earlier <= log && Matches(log, listed, files)
    ensures Matches(earlier, listed, files)
  {
    forall k | 0 <= k < |earlier|
      ensures earlier[k].path in files && earlier[k].data == files[earlier[k].path].data
    {
      assert earlier[k] == log[k];
    }
  }

  lemma MatchesListed(log: seq<Read>, listed: map<Path, Meta>)
    ensures forall files: map<Path, File> :: Matches(log, listed, files) ==>
      Sized(files, listed) && files.Keys == listed.Keys
  {
  }

  /** A read tells what the file holds. */
  lemma ReadTells(log: seq<Read>, p: Path, data: Bytes, listed: map<Path, Meta>)
    requires log != [] && log[|log| - 1].path == p && log[|log| - 1].data == data
    ensures forall files: map<Path, File> :: Matches(log, listed, files) ==> p in files && files[p].data == data
  {
  }

  /** The source was read further, and nothing is held against files that are left alone. */
  twostate predicate ReadOn(source: DirectorySource)
    reads source, source.disk
  {
    && source.Valid() && source.disk.now >= old(source.disk.now) && old(source.log) <= source.log
    && Onward(source.Fixed(), old(source.At()), source.At())
  }

  /** All inventoried files were left alone meanwhile. */
  twostate predicate Undisturbed(source: DirectorySource)
    reads source, source.disk
  {
    AllStill(source.Fixed(), old(source.At()), source.disk.now)
  }

  // ----- The checks -----

  method VerifyManifestAnchor(sha: Bytes -> string, data: Bytes, expected: Option<string>, required: bool)
    returns (finding: Finding)
    ensures finding.subject == Anchor && !finding.refused
    ensures finding.status != FAIL <==> AnchorHolds(sha, data, expected, required)
    ensures finding.status == PASS <==> expected == Some(sha(data))
  {
    var observed := sha(data);
    if expected.None? { return Finding(Anchor, if required then FAIL else WARN, false); }
    return Finding(Anchor, if expected.value == observed then PASS else FAIL, false);
  }

  lemma DifferenceEmpty<T>(a: set<T>, b: set<T>)
    ensures a - b == {} <==> a <= b
  {
    if !(a <= b) {
      var x :| x in a && x !in b;
      assert x in a - b;
    }
  }

  method VerifyCoverage(listed: set<Path>, m: Manifest, manifestPath: Path) returns (finding: Finding)
    ensures finding.subject == Coverage && !finding.refused
    ensures finding.status != FAIL <==> CoverageHolds(listed, m, manifestPath)
  {
    var expected := m.files.Keys;
    var missing := expected - listed;
    var unlisted := listed - expected - {manifestPath} - m.allowUnlisted;
    var failed := missing != {} || (m.completeCoverage && unlisted != {});
    DifferenceEmpty(expected, listed);
    DifferenceEmpty(listed, expected + {manifestPath} + m.allowUnlisted);
    assert unlisted == listed - (expected + {manifestPath} + m.allowUnlisted);
    return Finding(Coverage, if failed then FAIL else PASS, false);
  }

  method VerifyFileHashes(source: DirectorySource, m: Manifest, profile: Profile)
    returns (findings: Option<seq<Finding>>)
    requires source.Valid()
    modifies source.disk, source`observedDigests, source`log
    ensures ReadOn(source)
    ensures Undisturbed(source) ==> findings.Some?
    ensures findings.Some? ==> NoneRefused(findings.value)
    ensures findings.Some? ==> forall files: map<Path, File> :: Matches(source.log, source.snapshots, files) ==>
      (NoFail(findings.value) <==> forall p :: p in m.files ==> HashHolds(source.sha, files, profile, p, m.files[p]))
  {
    hide Matches, HashHolds, Onward, AllStill, ReadsOk, Digested, Stamped, Canonical;
    var remaining := m.files.Keys;
    var found: seq<Finding> := [];
    ghost var start := source.At();
    OnwardIdle(source.Fixed(), start, source.disk.now);
    while remaining != {}
      invariant ReadOn(source)
      invariant remaining <= m.files.Keys
      invariant NoneRefused(found)
      invariant forall files: map<Path, File> :: Matches(source.log, source.snapshots, files) ==>
        (NoFail(found) <==>
          forall p :: p in m.files.Keys - remaining ==> HashHolds(source.sha, files, profile, p, m.files[p]))
    {
      var p :| p in remaining;
      ghost var earlier, before, rest, here := source.log, found, remaining, source.At();
      var status, ok := HashStatus(source, p, m.files[p], profile);
      OnwardTwice(source.Fixed(), start, here, source.At());
      OnwardHere(source.Fixed(), start, here, source.disk.now);
      if !ok { return None; }
      found := found + [Finding(FileHash(p), status, false)];
      remaining := remaining - {p};
      assert NoFail(found) <==> NoFail(before) && status != FAIL by {
        NoFailNext(before, Finding(FileHash(p), status, false));
      }
      forall files: map<Path, File> | Matches(source.log, source.snapshots, files)
        ensures NoFail(found) <==>
          forall q :: q in m.files.Keys - remaining ==> HashHolds(source.sha, files, profile, q, m.files[q])
      {
        MatchesEarlier(earlier, source.log, source.snapshots, files);
        assert m.files.Keys - remaining == (m.files.Keys - rest) + {p};
      }
    }
    assert m.files.Keys - remaining == m.files.Keys;
    return Some(found);
  }

  lemma NoFailNext(findings: seq<Finding>, f: Finding)
    ensures NoFail(findings + [f]) <==> NoFail(findings) && f.status != FAIL
    ensures NoneRefused(findings + [f]) <==> NoneRefused(findings) && !f.refused
  {
    var longer := findings + [f];
    assert longer[|findings|] == f;
    assert forall i :: 0 <= i < |findings| ==> longer[i] == findings[i];
  }

  /** One turn of the loop in `verify_file_hashes`; `ok` is false when the read raises. */
  method HashStatus(source: DirectorySource, p: Path, spec: FileSpec, profile: Profile)
    returns (status: Status, ok: bool)
    requires source.Valid()
    modifies source.disk, source`observedDigests, source`log
    ensures ReadOn(source)
    ensures Undisturbed(source) ==> ok
    ensures ok ==> (status == SKIP <==> p in source.snapshots && profile.Live? && spec.mutable)
    ensures ok ==> (status == PASS || status == SKIP || status == FAIL)
    ensures ok ==> forall files: map<Path, File> :: Matches(source.log, source.snapshots, files) ==>
      (status != FAIL <==> HashHolds(source.sha, files, profile, p, spec))
  {
    hide Onward, AllStill, Still, Plain, ReadsOk, Digested, Stamped, Canonical;
    OnwardIdle(source.Fixed(), source.At(), source.disk.now);
    if p !in source.ListFiles() { return FAIL, true; }
    var data := source.ReadBytes(p, None);
    if data.None? { return FAIL, false; }
    var observed := source.sha(data.value);
    ReadTells(source.log, p, data.value, source.snapshots);
    if profile.Live? && spec.mutable { return SKIP, true; }
    return if observed == spec.sha256 then PASS else FAIL, true;
  }

  // ----- Declared checks -----

  datatype Fetched<T> = Got(value: T) | Raised | ReadRefused

  /** The documents parsed so far, for any files that the reads could come from. */
  ghost predicate Kept(log: seq<Read>, listed: map<Path, Meta>, reader: JsonReader, documents: map<Path, Value>) {
    && (forall p :: p in documents ==> WellFormed(documents[p]))
    && forall files: map<Path, File> :: Matches(log, listed, files) ==> Parsed(reader, documents, files)
  }

  /** The parsed document at a path, read at most once. */
  method FetchDocument(source: DirectorySource, reader: JsonReader, path: Path, documents: map<Path, Value>)
    returns (outcome: Fetched<map<Path, Value>>)
    requires source.Valid() && Strict(reader)
    requires Kept(source.log, source.snapshots, reader, documents)
    modifies source.disk, source`observedDigests, source`log
    ensures ReadOn(source)
    ensures Kept(source.log, source.snapshots, reader, documents)
    ensures outcome.Got? ==> path in outcome.value && Kept(source.log, source.snapshots, reader, outcome.value)
    ensures outcome.Raised? ==> forall files: map<Path, File> :: Matches(source.log, source.snapshots, files) ==>
      (path in files ==> reader.parse(files[path].data) == None)
    ensures Undisturbed(source) ==> !outcome.ReadRefused?
  {
    hide Matches, WellFormed, Kept, Strict, Still, Plain, ReadsOk, Digested, Stamped, Canonical, Onward, AllStill;
    ghost var earlier, listed := source.log, source.snapshots;
    OnwardIdle(source.Fixed(), source.At(), source.disk.now);
    if path in documents { return Got(documents); }
    var data := source.ReadBytes(path, None);
    KeptLater(earlier, source.log, listed, reader, documents);
    if path !in source.ListFiles() {
      MatchesListed(source.log, listed);
      return Raised;
    }
    if data.None? { return ReadRefused; }
    ReadTells(source.log, path, data.value, listed);
    var document := reader.parse(data.value);
    if document.None? { return Raised; }
    KeptNext(source.log, listed, reader, documents, path, data.value);
    return Got(documents[path := document.value]);
  }

  /** One operand's value. */
  method ReadOperand(source: DirectorySource, reader: JsonReader, op: Operand, documents: map<Path, Value>)
    returns (outcome: Fetched<Value>, documents': map<Path, Value>)
    requires source.Valid() && Strict(reader)
    requires Kept(source.log, source.snapshots, reader, documents)
    modifies source.disk, source`observedDigests, source`log
    ensures ReadOn(source)
    ensures Kept(source.log, source.snapshots, reader, documents')
    ensures outcome.Got? ==> WellFormed(outcome.value)
    ensures Undisturbed(source) ==> !outcome.ReadRefused?
    ensures !outcome.ReadRefused? ==> forall files: map<Path, File> :: Matches(source.log, source.snapshots, files) ==>
      OperandValue(source.sha, reader, files, op) == if outcome.Got? then Some(outcome.value) else None
  {
    hide Matches, WellFormed, JsonPointer.Walk, JsonPointer.Decode, Ascii, Kept, Onward, AllStill, ReadsOk, Digested,
      Stamped, Canonical, Still, Plain;
    documents' := documents;
    ghost var earlier, listed := source.log, source.snapshots;
    match op
    case DigestOperand(path) =>
      var data := source.ReadBytes(path, None);
      KeptLater(earlier, source.log, listed, reader, documents);
      if path !in source.ListFiles() {
        MatchesListed(source.log, listed);
        return Raised, documents;
      }
      if data.None? { return ReadRefused, documents; }
      ReadTells(source.log, path, data.value, listed);
      AsciiWellFormed(source.sha(data.value));
      return Got(String(Ascii(source.sha(data.value)))), documents;
    case PointerOperand(path, pointer) =>
      var fetched := FetchDocument(source, reader, path, documents);
      if fetched.Raised? { return Raised, documents; }
      if fetched.ReadRefused? { return ReadRefused, documents; }
      documents' := fetched.value;
      KeptTells(source.log, listed, reader, documents', path);
      var value := JsonPointer.ResolveJsonPointer(reader.numerals, documents'[path], pointer);
      if value.None? { return Raised, documents'; }
      JsonPointer.WalkWellFormed(reader.numerals, documents'[path], JsonPointer.Decode(pointer));
      return Got(value.value), documents';
  }

  /** The documents kept are the parsed contents of their files. */
  predicate Parsed(reader: JsonReader, documents: map<Path, Value>, files: map<Path, File>) {
    forall p :: p in documents ==> p in files && reader.parse(files[p].data) == Some(documents[p])
  }

  lemma KeptLater(earlier: seq<Read>, log: seq<Read>, listed: map<Path, Meta>, reader: JsonReader,
                  documents: map<Path, Value>)
    requires earlier <= log && Kept(earlier, listed, reader, documents)
    ensures Kept(log, listed, reader, documents)
  {
    hide Matches, Parsed, WellFormed;
    forall files: map<Path, File> | Matches(log, listed, files) ensures Parsed(reader, documents, files) {
      MatchesEarlier(earlier, log, listed, files);
    }
  }

  lemma KeptNext(log: seq<Read>, listed: map<Path, Meta>, reader: JsonReader, documents: map<Path, Value>, p: Path,
                 data: Bytes)
    requires Kept(log, listed, reader, documents) && Strict(reader) && reader.parse(data).Some?
    requires forall files: map<Path, File> :: Matches(log, listed, files) ==> p in files && files[p].data == data
    ensures Kept(log, listed, reader, documents[p := reader.parse(data).value])
  {
    hide Matches, WellFormed;
    assert WellFormed(reader.parse(data).value);
  }

  lemma KeptTells(log: seq<Read>, listed: map<Path, Meta>, reader: JsonReader, documents: map<Path, Value>, p: Path)
    requires Kept(log, listed, reader, documents) && p in documents
    ensures WellFormed(documents[p])
    ensures forall files: map<Path, File> :: Matches(log, listed, files) ==>
      p in files && reader.parse(files[p].data) == Some(documents[p])
  {
    hide Matches, WellFormed;
  }

  lemma AsciiWellFormed(s: string)
    ensures WellFormed(String(Ascii(s)))
  {
    AsciiPaired(s);
  }

  /** `_value_binding`: every operand's canonical text is gathered, then compared with the first. */
  method VerifyValueBinding(source: DirectorySource, reader: JsonReader, operands: seq<Operand>)
    returns (status: Status, refused: bool)
    requires source.Valid() && Strict(reader)
    modifies source.disk, source`observedDigests, source`log
    ensures ReadOn(source)
    ensures refused ==> status == FAIL && !Undisturbed(source)
    ensures !refused ==> forall files: map<Path, File> :: Matches(source.log, source.snapshots, files) ==>
      (status != FAIL <==> BindingHolds(source.sha, reader, files, operands))
  {
    hide Matches, WellFormed, Kept, Strict, Still, Plain, ReadsOk, Digested, Stamped, Canonical, OperandValue,
      CanonicalText, Means, BindingHolds, ValuesRead, OperandMeaning, Onward, AllStill;
    ghost var start := source.At();
    OnwardIdle(source.Fixed(), start, source.disk.now);
    var bound: seq<string> := [];
    var documents: map<Path, Value> := map[];
    ghost var values: seq<Value> := [];
    NothingKept(source.log, source.snapshots, reader);
    NoValuesRead(source.sha, reader, source.log, source.snapshots, operands);
    for i := 0 to |operands|
      invariant ReadOn(source)
      invariant Kept(source.log, source.snapshots, reader, documents)
      invariant |bound| == |values| == i
      invariant forall k :: 0 <= k < i ==> WellFormed(values[k]) && bound[k] == CanonicalText(values[k])
      invariant ValuesRead(source.sha, reader, source.log, source.snapshots, operands[..i], values)
    {
      ghost var earlier, here := source.log, source.At();
      var outcome;
      outcome, documents := ReadOperand(source, reader, operands[i], documents);
      OnwardTwice(source.Fixed(), start, here, source.At());
      OnwardHere(source.Fixed(), start, here, source.disk.now);
      if outcome.ReadRefused? { return FAIL, true; }
      if outcome.Raised? {
        RaisedFails(source.sha, reader, source.log, source.snapshots, operands, i);
        return FAIL, false;
      }
      NextValueRead(source.sha, reader, earlier, source.log, source.snapshots, operands, values, outcome.value);
      bound, values := bound + [CanonicalText(outcome.value)], values + [outcome.value];
    }
    assert operands[..|operands|] == operands;
    BoundDecides(source.sha, reader, source.log, source.snapshots, operands, values);
    var passed := forall k :: 0 <= k < |bound| ==> bound[k] == bound[0];
    return if passed then PASS else FAIL, false;
  }

  /** For any files the reads could come from, these are the values of the operands. */
  ghost predicate ValuesRead(sha: Bytes -> string, reader: JsonReader, log: seq<Read>, listed: map<Path, Meta>,
                             operands: seq<Operand>, values: seq<Value>)
  {
    |values| == |operands| &&
    forall files: map<Path, File> :: Matches(log, listed, files) ==>
      forall k :: 0 <= k < |operands| ==> OperandValue(sha, reader, files, operands[k]) == Some(values[k])
  }

  lemma NothingKept(log: seq<Read>, listed: map<Path, Meta>, reader: JsonReader)
    ensures Kept(log, listed, reader, map[])
  {
  }

  lemma NoValuesRead(sha: Bytes -> string, reader: JsonReader, log: seq<Read>, listed: map<Path, Meta>,
                     operands: seq<Operand>)
    ensures ValuesRead(sha, reader, log, listed, operands[..0], [])
  {
  }

  lemma NextValueRead(sha: Bytes -> string, reader: JsonReader, earlier: seq<Read>, log: seq<Read>,
                      listed: map<Path, Meta>, operands: seq<Operand>, values: seq<Value>, value: Value)
    requires earlier <= log && |values| < |operands|
    requires ValuesRead(sha, reader, earlier, listed, operands[..|values|], values)
    requires forall files: map<Path, File> :: Matches(log, listed, files) ==>
      OperandValue(sha, reader, files, operands[|values|]) == Some(value)
    ensures ValuesRead(sha, reader, log, listed, operands[..|values| + 1], values + [value])
  {
    hide Matches, OperandValue;
    var n := |values|;
    forall files: map<Path, File>, k | Matches(log, listed, files) && 0 <= k < n + 1
      ensures OperandValue(sha, reader, files, operands[..n + 1][k]) == Some((values + [value])[k])
    {
      MatchesEarlier(earlier, log, listed, files);
      if k < n { assert operands[..n + 1][k] == operands[..n][k]; }
    }
  }

  lemma RaisedFails(sha: Bytes -> string, reader: JsonReader, log: seq<Read>, listed: map<Path, Meta>,
                    operands: seq<Operand>, i: nat)
    requires i < |operands|
    requires forall files: map<Path, File> :: Matches(log, listed, files) ==>
      OperandValue(sha, reader, files, operands[i]) == None
    ensures forall files: map<Path, File> :: Matches(log, listed, files) ==> !BindingHolds(sha, reader, files, operands)
  {
    hide Matches, OperandValue, WellFormed;
    forall files: map<Path, File> | Matches(log, listed, files) ensures !BindingHolds(sha, reader, files, operands) {
      assert OperandMeaning(sha, reader, files, operands[i]) == None;
    }
  }

  /** Equal canonical texts and equal meanings are the same thing. */
  lemma BoundDecides(sha: Bytes -> string, reader: JsonReader, log: seq<Read>, listed: map<Path, Meta>,
                     operands: seq<Operand>, values: seq<Value>)
    requires forall k :: 0 <= k < |values| ==> WellFormed(values[k])
    requires ValuesRead(sha, reader, log, listed, operands, values)
    ensures forall files: map<Path, File> :: Matches(log, listed, files) ==>
      (BindingHolds(sha, reader, files, operands)
       <==> forall k :: 0 <= k < |values| ==> CanonicalText(values[k]) == CanonicalText(values[0]))
  {
    hide Matches, OperandValue, WellFormed, CanonicalText, Means;
    forall k | 0 <= k < |values|
      ensures CanonicalText(values[k]) == CanonicalText(values[0]) <==> Means(values[k]) == Means(values[0])
    {
      CanonicalTextDecides(values[k], values[0]);
    }
    forall files: map<Path, File> | Matches(log, listed, files)
      ensures BindingHolds(sha, reader, files, operands)
         <==> forall k :: 0 <= k < |values| ==> CanonicalText(values[k]) == CanonicalText(values[0])
    {
      forall k | 0 <= k < |values| ensures OperandMeaning(sha, reader, files, operands[k]) == Some(Means(values[k])) {
        assert OperandValue(sha, reader, files, operands[k]) == Some(values[k]);
      }
    }
  }

  /** The files an inspection looks at, read in order. */
  method ReadInputs(source: DirectorySource, inputs: seq<(Path, Option<nat>)>) returns (outcome: Fetched<seq<Bytes>>)
    requires source.Valid()
    modifies source.disk, source`observedDigests, source`log
    ensures ReadOn(source)
    ensures Undisturbed(source) ==> !outcome.ReadRefused?
    ensures !outcome.ReadRefused? ==> forall files: map<Path, File> :: Matches(source.log, source.snapshots, files) ==>
      InputBytes(files, inputs) == if outcome.Got? then Some(outcome.value) else None
  {
    hide Matches, Still, Plain, ReadsOk, Digested, Stamped, Canonical, InputBytes, Onward, AllStill;
    var found: seq<Bytes> := [];
    ghost var start, listed := source.At(), source.snapshots;
    OnwardIdle(source.Fixed(), start, source.disk.now);
    NoInputs(inputs);
    for i := 0 to |inputs|
      invariant ReadOn(source)
      invariant forall files: map<Path, File> :: Matches(source.log, listed, files) ==>
        InputBytes(files, inputs[..i]) == Some(found)
    {
      ghost var earlier, here := source.log, source.At();
      var path, cap := inputs[i].0, inputs[i].1;
      var data := source.ReadBytes(path, cap);
      OnwardTwice(source.Fixed(), start, here, source.At());
      OnwardHere(source.Fixed(), start, here, source.disk.now);
      if data.None? {
        if path in source.ListFiles() && WithinCap(source.snapshots[path].size, cap) { return ReadRefused; }
        InputMissing(source.log, listed, inputs, i);
        return Raised;
      }
      ReadTells(source.log, path, data.value, listed);
      forall files: map<Path, File> | Matches(source.log, listed, files)
        ensures InputBytes(files, inputs[..i + 1]) == Some(found + [data.value])
      {
        MatchesEarlier(earlier, source.log, listed, files);
        NextInput(files, inputs, i);
      }
      found := found + [data.value];
    }
    assert inputs[..|inputs|] == inputs;
    return Got(found);
  }

  /** An input that is missing or too long leaves nothing to judge. */
  lemma InputMissing(log: seq<Read>, listed: map<Path, Meta>, inputs: seq<(Path, Option<nat>)>, i: nat)
    requires i < |inputs| && !(inputs[i].0 in listed && WithinCap(listed[inputs[i].0].size, inputs[i].1))
    ensures forall files: map<Path, File> :: Matches(log, listed, files) ==> InputBytes(files, inputs) == None
  {
    forall files: map<Path, File> | Matches(log, listed, files) ensures InputBytes(files, inputs) == None {
      InputsStop(files, inputs, i);
    }
  }

  lemma {:induction false} InputsStop(files: map<Path, File>, inputs: seq<(Path, Option<nat>)>, i: nat)
    requires i < |inputs|
    requires !(inputs[i].0 in files && WithinCap(|files[inputs[i].0].data|, inputs[i].1))
    ensures InputBytes(files, inputs) == None
  {
    if i < |inputs| - 1 { InputsStop(files, inputs[..|inputs| - 1], i); }
  }

  lemma NoInputs(inputs: seq<(Path, Option<nat>)>)
    ensures forall files: map<Path, File> :: InputBytes(files, inputs[..0]) == Some([])
  {
  }

  lemma NextInput(files: map<Path, File>, inputs: seq<(Path, Option<nat>)>, i: nat)
    requires i < |inputs| && InputBytes(files, inputs[..i]).Some? && inputs[i].0 in files
    requires WithinCap(|files[inputs[i].0].data|, inputs[i].1)
    ensures InputBytes(files, inputs[..i + 1]) == Some(InputBytes(files, inputs[..i]).value + [files[inputs[i].0].data])
  {
    assert inputs[..i + 1][..i] == inputs[..i];
  }

  /** `run_declared_check` */
  method RunDeclaredCheck(source: DirectorySource, reader: JsonReader, check: CheckSpec, profile: Profile)
    returns (finding: Finding)
    requires source.Valid() && Strict(reader)
    modifies source.disk, source`observedDigests, source`log
    ensures ReadOn(source)
    ensures finding.subject == Declared(check) && (profile !in check.profiles ==> finding.status == SKIP)
    ensures finding.refused ==> finding.status == FAIL && !Undisturbed(source)
    ensures !finding.refused ==> forall files: map<Path, File> :: Matches(source.log, source.snapshots, files) ==>
      (finding.status != FAIL <==> CheckHolds(source.sha, reader, files, profile, check))
  {
    hide Matches, BindingHolds, InputBytes, Strict, ReadsOk, Digested, Stamped, Canonical, Onward, AllStill;
    OnwardIdle(source.Fixed(), source.At(), source.disk.now);
    if profile !in check.profiles { return Finding(Declared(check), SKIP, false); }
    match check
    case ValueBinding(_, operands) =>
      var status, refused := VerifyValueBinding(source, reader, operands);
      return Finding(Declared(check), status, refused);
    case Inspection(_, inputs, judge) =>
      var contents := ReadInputs(source, inputs);
      if contents.ReadRefused? { return Finding(Declared(check), FAIL, true); }
      if contents.Raised? { return Finding(Declared(check), FAIL, false); }
      return Finding(Declared(check), judge(contents.value), false);
  }
}
