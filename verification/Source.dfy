/** `DirectorySource` (`src/artifact_proof/source.py`): an inventory, guarded reads, and a
    finalization that takes the inventory again, reads everything again and takes it once more. */
module Source {
  import opened Json
  import opened FileSystem

  datatype Limits = Limits(maxEntries: nat, maxFileBytes: nat, maxTotalBytes: nat)

  predicate CanonicalPart(part: string) {
    part != "" && part != "." && part != ".." && forall c :: c in part ==> c != '/' && c != '\\' && c as int != 0
  }

  /** `canonical_relative_path` on the parts of a path. */
  predicate Canonical(p: Path) {
    p != [] && forall i :: 0 <= i < |p| ==> CanonicalPart(p[i])
  }

  // ----- A disk that is left alone -----

  /** Path `p` is a plain file with the inventoried metadata. */
  predicate Plain(h: History, t: nat, p: Path, m: Meta) {
    && (forall k :: 0 < k <= |p| ==> h.entry(t, p[..k]).Inode?)
    && h.entry(t, p) == Inode(m.id)
    && h.inode(t, m.id).regular
    && MetaOf(h, t, m.id) == m
  }

  ghost predicate PlainAlways(h: History, from: nat, to: nat, p: Path, m: Meta) {
    forall t :: from < t <= to ==> Plain(h, t, p, m)
  }

  /** ... and stays the same file all the while. */
  ghost predicate Still(h: History, from: nat, to: nat, p: Path, m: Meta) {
    forall t {:trigger Plain(h, t, p, m)} :: from < t <= to ==>
      Plain(h, t, p, m) && h.inode(t, m.id) == h.inode(to, m.id)
  }

  // ----- The inventory -----

  /** What the directory walk comes across, one entry after the other. */
  datatype Visit = Folder(path: Path) | Entry(path: Path)

  function EntriesOf(walk: seq<Visit>): set<Path> {
    set v | v in walk && v.Entry? :: v.path
  }

  function Total(sizes: seq<nat>): nat {
    if sizes == [] then 0 else Total(sizes[..|sizes| - 1]) + sizes[|sizes| - 1]
  }

  function Sizes(walk: seq<Visit>, known: map<Path, Meta>): seq<nat> {
    if walk == [] then []
    else
      var v, before := walk[|walk| - 1], Sizes(walk[..|walk| - 1], known);
      if v.Entry? && v.path in known then before + [known[v.path].size] else before
  }

  /** Nothing the walk comes across differs from what is known, at any of these instants. */
  ghost predicate Quiet(h: History, from: nat, to: nat, walk: seq<Visit>, known: map<Path, Meta>) {
    forall v :: v in walk ==>
      if v.Folder? then forall t :: from < t <= to ==> !h.entry(t, v.path).Link?
      else v.path in known && PlainAlways(h, from, to, v.path, known[v.path])
  }

  /** The known files are within the limits, counted as the walk counts them. */
  predicate Fits(walk: seq<Visit>, known: map<Path, Meta>, limits: Limits) {
    && EntriesOf(walk) == known.Keys
    && |known| <= limits.maxEntries
    && Total(Sizes(walk, known)) <= limits.maxTotalBytes
    && forall p :: p in known ==> Canonical(p) && known[p].size <= limits.maxFileBytes
  }

  /** Every path was listed with its metadata at its stamp, within the given instants. */
  ghost predicate Stamped(h: History, files: map<Path, Meta>, stamps: map<Path, nat>, from: int, to: int) {
    && stamps.Keys == files.Keys
    && forall p :: p in files ==> from < stamps[p] <= to && SeesMeta(h, stamps[p], p, files[p])
  }

  lemma EntriesNext(walk: seq<Visit>, i: nat)
    requires i < |walk|
    ensures EntriesOf(walk[..i + 1]) == EntriesOf(walk[..i]) + (if walk[i].Entry? then {walk[i].path} else {})
  {
    assert walk[..i + 1] == walk[..i] + [walk[i]];
  }

  /** What the first `i` visits found is what was known. */
  ghost predicate AsKnown(walk: seq<Visit>, i: nat, known: map<Path, Meta>, found: map<Path, Meta>, sizes: seq<nat>)
    requires i <= |walk|
  {
    sizes == Sizes(walk[..i], known) && forall p :: p in found ==> p in known && found[p] == known[p]
  }

  lemma NoneKnown(walk: seq<Visit>, known: map<Path, Meta>)
    ensures AsKnown(walk, 0, known, map[], [])
  {
  }

  lemma NextKnown(walk: seq<Visit>, i: nat, known: map<Path, Meta>, found: map<Path, Meta>, sizes: seq<nat>)
    requires i < |walk| && AsKnown(walk, i, known, found, sizes)
    ensures walk[i].Folder? ==> AsKnown(walk, i + 1, known, found, sizes)
    ensures walk[i].Entry? && walk[i].path in known ==>
      var m := known[walk[i].path]; AsKnown(walk, i + 1, known, found[walk[i].path := m], sizes + [m.size])
  {
    SizesNext(walk, i, known);
  }

  lemma AllKnown(walk: seq<Visit>, known: map<Path, Meta>, found: map<Path, Meta>, sizes: seq<nat>, limits: Limits)
    requires found.Keys == EntriesOf(walk)
    requires forall p :: p in found ==> Canonical(p) && found[p].size <= limits.maxFileBytes
    ensures AsKnown(walk, |walk|, known, found, sizes) && EntriesOf(walk) == known.Keys ==>
      && found == known
      && (Fits(walk, known, limits) <==>
            |found.Keys| <= limits.maxEntries && Total(sizes) <= limits.maxTotalBytes)
  {
    hide Canonical, EntriesOf, Total;
    assert walk[..|walk|] == walk;
    assert |known.Keys| == |known|;
  }

  lemma QuietFolder(h: History, from: nat, middle: nat, to: nat, walk: seq<Visit>, i: nat, known: map<Path, Meta>)
    requires from <= middle < to && i < |walk| && walk[i].Folder?
    ensures Quiet(h, from, to, walk, known) ==> Quiet(h, from, middle, walk, known) && !h.entry(to, walk[i].path).Link?
  {
    hide Plain;
    assert walk[i] in walk;
  }

  lemma QuietEntry(h: History, from: nat, middle: nat, to: nat, walk: seq<Visit>, i: nat, known: map<Path, Meta>,
                   limits: Limits)
    requires from <= middle < to && i < |walk| && walk[i].Entry?
    ensures Quiet(h, from, to, walk, known) ==>
      var p := walk[i].path;
      && Quiet(h, from, middle, walk, known)
      && p in known && PlainAlways(h, middle, to, p, known[p])
      && (Fits(walk, known, limits) ==> Canonical(p) && known[p].size <= limits.maxFileBytes)
  {
    hide Plain, Canonical;
    assert walk[i] in walk;
  }

  lemma SizesNext(walk: seq<Visit>, i: nat, known: map<Path, Meta>)
    requires i < |walk|
    ensures Sizes(walk[..i + 1], known)
      == Sizes(walk[..i], known) + (if walk[i].Entry? && walk[i].path in known then [known[walk[i].path].size] else [])
  {
    assert walk[..i + 1][..i] == walk[..i];
  }

  /** The walk comes across no file twice. */
  predicate NoRepeats(walk: seq<Visit>) {
    forall i, j :: 0 <= i < j < |walk| && walk[i].Entry? && walk[j].Entry? ==> walk[i].path != walk[j].path
  }

  lemma {:induction false} SizesStable(walk: seq<Visit>, a: map<Path, Meta>, b: map<Path, Meta>)
    requires forall v :: v in walk && v.Entry? ==>
      (v.path in a <==> v.path in b) && (v.path in a ==> a[v.path] == b[v.path])
    ensures Sizes(walk, a) == Sizes(walk, b)
  {
    if walk != [] {
      var n := |walk| - 1;
      assert walk[n] in walk && forall v :: v in walk[..n] ==> v in walk;
      SizesStable(walk[..n], a, b);
    }
  }

  lemma NewSize(walk: seq<Visit>, i: nat, found: map<Path, Meta>, m: Meta)
    requires i < |walk| && walk[i].Entry? && NoRepeats(walk)
    ensures Sizes(walk[..i + 1], found[walk[i].path := m]) == Sizes(walk[..i], found) + [m.size]
  {
    SizesNext(walk, i, found[walk[i].path := m]);
    SizesStable(walk[..i], found, found[walk[i].path := m]);
  }

  lemma NothingWalked(walk: seq<Visit>, known: map<Path, Meta>)
    ensures EntriesOf(walk[..0]) == {} && Total([]) == 0 && Sizes(walk[..0], known) == []
  {
  }

  lemma TotalNext(sizes: seq<nat>, size: nat)
    ensures Total(sizes + [size]) == Total(sizes) + size
  {
    assert (sizes + [size])[..|sizes|] == sizes;
  }

  lemma NothingStamped(h: History, now: nat)
    ensures Stamped(h, map[], map[], now, now)
  {
  }

  lemma StampLater(h: History, files: map<Path, Meta>, stamps: map<Path, nat>, from: nat, before: nat, to: nat)
    requires Stamped(h, files, stamps, from, before) && before <= to
    ensures Stamped(h, files, stamps, from, to)
  {
    hide SeesMeta;
  }

  lemma StampNext(h: History, files: map<Path, Meta>, stamps: map<Path, nat>, from: nat, before: nat, to: nat, p: Path,
                  m: Meta)
    requires Stamped(h, files, stamps, from, before) && from <= before < to && SeesMeta(h, to, p, m)
    ensures Stamped(h, files[p := m], stamps[p := to], from, to)
  {
    hide SeesMeta;
  }

  /** The inventory's look at one file: what it is, then its metadata. */
  method Observe(disk: Disk, limits: Limits, p: Path, ghost m: Meta) returns (metadata: Option<Meta>)
    modifies disk
    ensures disk.now > old(disk.now)
    ensures metadata.Some? ==>
      Canonical(p) && SeesMeta(disk.h, disk.now, p, metadata.value) && metadata.value.size <= limits.maxFileBytes
    ensures PlainAlways(disk.h, old(disk.now), disk.now, p, m) ==>
      metadata == if Canonical(p) && m.size <= limits.maxFileBytes then Some(m) else None
  {
    ghost var from := disk.now;
    var node := disk.Lstat(p);
    assert PlainAlways(disk.h, from, disk.now, p, m) ==> Plain(disk.h, disk.now, p, m);
    if !Canonical(p) || !node.Inode? || !disk.h.inode(disk.now, node.id).regular { return None; }
    var sight := disk.Stat(p);
    assert PlainAlways(disk.h, from, disk.now, p, m) ==> Plain(disk.h, disk.now, p, m);
    if sight.Nothing? || |sight.file.data| > limits.maxFileBytes { return None; }
    return Some(Meta(sight.id, |sight.file.data|, sight.file.mtime));
  }

  /** `_inventory`: one entry at a time while the disk goes on changing. */
  method Inventory(disk: Disk, limits: Limits, walk: seq<Visit>, ghost known: map<Path, Meta>)
    returns (files: Option<map<Path, Meta>>, ghost stamps: map<Path, nat>)
    modifies disk
    ensures disk.now >= old(disk.now)
    ensures files.Some? ==> Stamped(disk.h, files.value, stamps, old(disk.now), disk.now)
    ensures files.Some? ==> files.value.Keys == EntriesOf(walk)
    ensures files.Some? ==> |files.value| <= limits.maxEntries
    ensures files.Some? && NoRepeats(walk) ==> Total(Sizes(walk, files.value)) <= limits.maxTotalBytes
    ensures files.Some? ==> forall p :: p in files.value ==> Canonical(p) && files.value[p].size <= limits.maxFileBytes
    ensures walk != [] ==> disk.now > old(disk.now)
    ensures Quiet(disk.h, old(disk.now), disk.now, walk, known) && EntriesOf(walk) == known.Keys ==>
      files == if Fits(walk, known, limits) then Some(known) else None
  {
    hide SeesMeta, EntriesOf, Total, Sizes, Plain, Canonical, Quiet, Fits, AsKnown, PlainAlways, NoRepeats, Stamped;
    NothingStamped(disk.h, disk.now);
    ghost var h, from := disk.h, disk.now;
    var found: map<Path, Meta> := map[];
    ghost var sizes: seq<nat> := [];
    stamps := map[];
    var total := 0;
    NothingWalked(walk, known);
    NothingWalked(walk, found);
    NoneKnown(walk, known);
    for i := 0 to |walk|
      invariant disk.now >= from && (i > 0 ==> disk.now > from)
      invariant Stamped(h, found, stamps, from, disk.now)
      invariant found.Keys == EntriesOf(walk[..i])
      invariant total == Total(sizes)
      invariant NoRepeats(walk) ==> sizes == Sizes(walk[..i], found)
      invariant forall p :: p in found ==> Canonical(p) && found[p].size <= limits.maxFileBytes
      invariant Quiet(h, from, disk.now, walk, known) ==> AsKnown(walk, i, known, found, sizes)
    {
      var visit := walk[i];
      ghost var before := disk.now;
      EntriesNext(walk, i);
      if AsKnown(walk, i, known, found, sizes) { NextKnown(walk, i, known, found, sizes); }
      if visit.Folder? {
        var node := disk.Lstat(visit.path);
        QuietFolder(h, from, before, disk.now, walk, i, known);
        if node.Link? { return None, stamps; }
        StampLater(h, found, stamps, from, before, disk.now);
        SizesNext(walk, i, found);
      } else {
        ghost var listed := if visit.path in known then known[visit.path] else Meta(0, 0, 0);
        var metadata := Observe(disk, limits, visit.path, listed);
        QuietEntry(h, from, before, disk.now, walk, i, known, limits);
        if metadata.None? { return None, stamps; }
        total := total + metadata.value.size;
        TotalNext(sizes, metadata.value.size);
        if NoRepeats(walk) { NewSize(walk, i, found, metadata.value); }
        sizes := sizes + [metadata.value.size];
        StampNext(h, found, stamps, from, before, disk.now, visit.path, metadata.value);
        found, stamps := found[visit.path := metadata.value], stamps[visit.path := disk.now];
      }
    }
    assert walk[..|walk|] == walk;
    AllKnown(walk, known, found, sizes, limits);
    if |found.Keys| > limits.maxEntries || total > limits.maxTotalBytes { return None, stamps; }
    return Some(found), stamps;
  }

  // ----- How much the files hold -----

  ghost function Sum(paths: set<Path>, sizes: map<Path, nat>): nat
    requires paths <= sizes.Keys
  {
    if paths == {} then 0
    else
      var p :| p in paths;
      sizes[p] + Sum(paths - {p}, sizes)
  }

  lemma {:induction false} SumSplit(paths: set<Path>, sizes: map<Path, nat>, p: Path)
    requires paths <= sizes.Keys && p in paths
    ensures Sum(paths, sizes) == sizes[p] + Sum(paths - {p}, sizes)
  {
    var q :| q in paths && Sum(paths, sizes) == sizes[q] + Sum(paths - {q}, sizes);
    if p != q {
      SumSplit(paths - {q}, sizes, p);
      SumSplit(paths - {p}, sizes, q);
      assert paths - {q} - {p} == paths - {p} - {q};
    }
  }

  function Lengths(files: map<Path, File>): map<Path, nat> {
    map p | p in files :: |files[p].data|
  }

  function KnownSizes(known: map<Path, Meta>): map<Path, nat> {
    map p | p in known :: known[p].size
  }

  /** The limits, on files of these sizes. */
  ghost predicate WithinLimits(sizes: map<Path, nat>, limits: Limits) {
    && |sizes| <= limits.maxEntries
    && Sum(sizes.Keys, sizes) <= limits.maxTotalBytes
    && forall p :: p in sizes ==> sizes[p] <= limits.maxFileBytes
  }

  lemma {:induction false} WalkTotal(walk: seq<Visit>, known: map<Path, Meta>)
    requires NoRepeats(walk) && EntriesOf(walk) <= known.Keys
    ensures Total(Sizes(walk, known)) == Sum(EntriesOf(walk), KnownSizes(known))
  {
    hide EntriesOf, Sum, Total, NoRepeats;
    if walk == [] {
      NothingWalked(walk, known);
      assert walk[..0] == walk;
      NothingHeld(KnownSizes(known));
    } else {
      var n := |walk| - 1;
      assert walk[..n + 1] == walk;
      EntriesNext(walk, n);
      SizesNext(walk, n, known);
      NewEntry(walk);
      WalkTotal(walk[..n], known);
      if walk[n].Entry? {
        var p := walk[n].path;
        TotalNext(Sizes(walk[..n], known), known[p].size);
        SumSplit(EntriesOf(walk), KnownSizes(known), p);
        assert EntriesOf(walk) - {p} == EntriesOf(walk[..n]);
      } else {
        assert EntriesOf(walk) == EntriesOf(walk[..n]) && Sizes(walk, known) == Sizes(walk[..n], known);
      }
    }
  }

  lemma NothingHeld(sizes: map<Path, nat>)
    ensures Sum({}, sizes) == 0
  {
  }

  lemma NewEntry(walk: seq<Visit>)
    requires NoRepeats(walk) && walk != []
    ensures var n := |walk| - 1;
      NoRepeats(walk[..n]) && (walk[n].Entry? ==> walk[n].path !in EntriesOf(walk[..n]))
  {
  }

  /** A walk that comes across every known file once counts what the files hold. */
  lemma FitsIsWithin(walk: seq<Visit>, known: map<Path, Meta>, limits: Limits)
    requires NoRepeats(walk) && EntriesOf(walk) == known.Keys
    ensures Fits(walk, known, limits)
       <==> WithinLimits(KnownSizes(known), limits) && forall p :: p in known ==> Canonical(p)
  {
    hide Canonical, EntriesOf, Sum, Total, Sizes, NoRepeats;
    WalkTotal(walk, known);
    assert KnownSizes(known).Keys == known.Keys;
    assert |KnownSizes(known)| == |KnownSizes(known).Keys| == |known.Keys| == |known|;
  }

  // ----- One guarded read -----

  /** A finished read: when the file was opened, when its metadata was taken before and after, and
      at which instant each byte and the end of the file were met. */
  datatype Read = Read(path: Path, id: nat, openedAt: nat, before: nat, after: nat, data: Bytes,
                       times: seq<nat>, end: nat)

  ghost predicate ByteAt(h: History, e: Read, i: nat)
    requires i < |e.data| == |e.times|
  {
    && e.before < e.times[i] < e.after
    && i < |h.inode(e.times[i], e.id).data|
    && h.inode(e.times[i], e.id).data[i] == e.data[i]
  }

  /** The bytes come from one open file, though not from one instant, and both metadata looks at
      that file showed `m`. */
  ghost predicate Guarded(h: History, e: Read, m: Meta) {
    && e.openedAt < e.before < e.end < e.after
    && h.entry(e.openedAt, e.path) == Inode(e.id)
    && MetaOf(h, e.before, e.id) == m == MetaOf(h, e.after, e.id)
    && h.inode(e.before, e.id).regular
    && |e.data| == |e.times|
    && (forall i :: 0 <= i < |e.data| ==> ByteAt(h, e, i))
    && |h.inode(e.end, e.id).data| <= |e.data|
  }

  /** No component of the path has become a symbolic link or gone away. */
  method ComponentsOk(disk: Disk, p: Path) returns (ok: bool)
    modifies disk
    ensures disk.now >= old(disk.now)
    ensures !ok ==> exists k, t :: 0 < k <= |p| && old(disk.now) < t <= disk.now && !disk.h.entry(t, p[..k]).Inode?
  {
    for i := 0 to |p|
      invariant disk.now >= old(disk.now)
    {
      var node := disk.Lstat(p[..i + 1]);
      if node.Absent? || node.Link? { return false; }
    }
    return true;
  }

  /** Read up to `limit + 1` bytes of an open file. */
  method ReadOpen(disk: Disk, id: nat, limit: nat)
    returns (data: Bytes, ghost times: seq<nat>, ghost end: nat)
    modifies disk
    ensures disk.now > old(disk.now)
    ensures |data| == |times| <= limit + 1
    ensures forall i :: 0 <= i < |data| ==>
      && old(disk.now) < times[i] <= disk.now
      && i < |disk.h.inode(times[i], id).data| && disk.h.inode(times[i], id).data[i] == data[i]
    ensures |data| <= limit ==> old(disk.now) < end <= disk.now && |disk.h.inode(end, id).data| <= |data|
  {
    data, times, end := [], [], 0;
    while |data| <= limit
      invariant disk.now >= old(disk.now) && (|data| > 0 ==> disk.now > old(disk.now))
      invariant |data| == |times| <= limit + 1
      invariant forall i :: 0 <= i < |data| ==>
        && old(disk.now) < times[i] <= disk.now
        && i < |disk.h.inode(times[i], id).data| && disk.h.inode(times[i], id).data[i] == data[i]
    {
      var byte := disk.ReadByte(id, |data|);
      if byte.None? {
        end := disk.now;
        return;
      }
      data, times := data + [byte.value], times + [disk.now];
    }
  }

  lemma ReadOfOneContent(h: History, e: Read, m: Meta, content: Bytes)
    requires Guarded(h, e, m)
    requires forall u :: e.before < u < e.after ==> h.inode(u, e.id).data == content
    ensures e.data == content
  {
    assert |content| <= |e.data|;
    forall i | 0 <= i < |e.data| ensures i < |content| && e.data[i] == content[i] {
      assert ByteAt(h, e, i);
    }
    var last := |e.data| - 1;
    assert last >= 0 ==> ByteAt(h, e, last);
  }

  lemma StillRead(h: History, from: nat, to: nat, e: Read, m: Meta)
    requires Guarded(h, e, m) && from < e.openedAt && e.after <= to
    requires Still(h, from, to, e.path, m)
    ensures e.data == h.inode(to, m.id).data
  {
    assert Plain(h, e.openedAt, e.path, m);
    forall u | e.before < u < e.after ensures h.inode(u, e.id).data == h.inode(to, m.id).data {
      assert Plain(h, u, e.path, m);
    }
    ReadOfOneContent(h, e, m, h.inode(to, m.id).data);
  }

  /** The middle of `read_bytes`: open, look, read, look again. */
  method ReadGuarded(disk: Disk, p: Path, m: Meta, limit: nat) returns (data: Option<Bytes>, ghost e: Read)
    modifies disk
    ensures disk.now > old(disk.now)
    ensures data.Some? ==>
      && Guarded(disk.h, e, m) && e.path == p && e.data == data.value && |e.data| <= limit
      && old(disk.now) < e.openedAt && e.after <= disk.now
    ensures Still(disk.h, old(disk.now), disk.now, p, m) && m.size <= limit ==>
      data == Some(disk.h.inode(disk.now, m.id).data)
    ensures Still(disk.h, old(disk.now), disk.now, p, m) && data.Some? ==>
      data.value == disk.h.inode(disk.now, m.id).data
  {
    hide Guarded;
    e := Read(p, 0, 0, 0, 0, [], [], 0);
    ghost var h, from := disk.h, disk.now;
    var node := disk.Lstat(p);
    assert Still(h, from, disk.now, p, m) ==> Plain(h, disk.now, p, m);
    if !node.Inode? { return None, e; }
    ghost var openedAt := disk.now;
    var before := disk.Fstat(node.id);
    ghost var beforeAt := disk.now;
    assert Still(h, from, disk.now, p, m) ==> Plain(h, openedAt, p, m) && Plain(h, beforeAt, p, m);
    if Meta(node.id, |before.data|, before.mtime) != m || !before.regular { return None, e; }
    var bytes, times, end := ReadOpen(disk, node.id, limit);
    assert |bytes| > limit ==> |disk.h.inode(times[limit], node.id).data| > limit;
    assert Still(h, from, disk.now, p, m) && |bytes| > limit ==> Plain(h, times[limit], p, m);
    var after := disk.Fstat(node.id);
    assert Still(h, from, disk.now, p, m) ==> Plain(h, openedAt, p, m) && Plain(h, disk.now, p, m);
    if Meta(node.id, |after.data|, after.mtime) != m { return None, e; }
    if |bytes| > limit {
      assert Still(h, from, disk.now, p, m) ==> Plain(h, times[limit], p, m);
      return None, e;
    }
    e := Read(p, node.id, openedAt, beforeAt, disk.now, bytes, times, end);
    assert Guarded(h, e, m) by { ReadIsGuarded(h, e, m); }
    if Still(h, from, disk.now, p, m) { StillRead(h, from, disk.now, e, m); }
    return Some(bytes), e;
  }

  lemma ReadIsGuarded(h: History, e: Read, m: Meta)
    requires e.openedAt < e.before < e.end < e.after
    requires h.entry(e.openedAt, e.path) == Inode(e.id)
    requires MetaOf(h, e.before, e.id) == m == MetaOf(h, e.after, e.id)
    requires h.inode(e.before, e.id).regular
    requires |e.data| == |e.times|
    requires forall i :: 0 <= i < |e.data| ==>
      && e.before < e.times[i] < e.after
      && i < |h.inode(e.times[i], e.id).data| && h.inode(e.times[i], e.id).data[i] == e.data[i]
    requires |h.inode(e.end, e.id).data| <= |e.data|
    ensures Guarded(h, e, m)
  {
  }

  // ----- What a stable source means -----

  ghost predicate ReadOk(h: History, files: map<Path, Meta>, from: nat, to: nat, e: Read) {
    e.path in files && Guarded(h, e, files[e.path]) && from < e.openedAt && e.after <= to
  }

  ghost predicate ReadsOk(h: History, files: map<Path, Meta>, from: nat, to: nat, log: seq<Read>) {
    forall k :: 0 <= k < |log| ==> ReadOk(h, files, from, to, log[k])
  }

  /** All through these instants every path leads to the same file. */
  ghost predicate Frozen(h: History, files: map<Path, File>, from: nat, to: nat) {
    forall p, u :: p in files && from <= u <= to ==> Sees(h, u, p).Seen? && Sees(h, u, p).file == files[p]
  }

  function FilesAt(h: History, paths: set<Path>, t: nat): map<Path, File> {
    map p | p in paths :: if Sees(h, t, p).Seen? then Sees(h, t, p).file else File(false, 0, [])
  }

  /** These are the listed files, each as long as its metadata says. */
  ghost predicate Sized(files: map<Path, File>, listed: map<Path, Meta>) {
    files.Keys == listed.Keys && forall p :: p in files ==> |files[p].data| == listed[p].size
  }

  /** Two matching inventories leave no room for a change between them. */
  lemma NothingChanged(h: History, files: map<Path, Meta>, begun: nat, first: map<Path, nat>, from: nat,
                       last: map<Path, nat>, until: nat, to: nat)
    requires FreshMetadata(h, begun, to, files) && from <= until
    requires Stamped(h, files, first, begun, from) && Stamped(h, files, last, until, to)
    ensures Frozen(h, FilesAt(h, files.Keys, until), from, until)
    ensures forall p, u :: p in files && from <= u <= until ==> Sees(h, u, p) == Sees(h, until, p)
    ensures Sized(FilesAt(h, files.Keys, until), files)
  {
    forall p, u | p in files && from <= u <= until
      ensures Sees(h, u, p).Seen? && Sees(h, u, p) == Sees(h, until, p)
      ensures |Sees(h, until, p).file.data| == files[p].size
    {
      SameMetaSameFile(h, begun, to, p, files[p], first[p], last[p], u);
      SameMetaSameFile(h, begun, to, p, files[p], first[p], last[p], until);
    }
    assert forall p :: p in files ==> from <= until && Sees(h, until, p) == Sees(h, until, p);
  }

  /** A guarded read from a path that never changes returns that file's bytes, although it
      reads through an open file and one byte at a time. */
  lemma ReadOfUnchanged(h: History, files: map<Path, Meta>, e: Read, from: nat, until: nat)
    requires ReadOk(h, files, from, until, e)
    requires forall u :: from <= u <= until ==> Sees(h, u, e.path).Seen? && Sees(h, u, e.path) == Sees(h, until, e.path)
    ensures e.data == Sees(h, until, e.path).file.data && Sees(h, until, e.path).file.regular
  {
    var file := Sees(h, until, e.path).file;
    assert Sees(h, e.openedAt, e.path) == Seen(e.id, h.inode(e.openedAt, e.id));
    forall u | from <= u <= until ensures h.inode(u, e.id) == file {
      assert Sees(h, u, e.path) == Sees(h, until, e.path);
    }
    ReadOfOneContent(h, e, files[e.path], file.data);
  }

  // ----- The source -----

  /** The table of digests holds exactly the digests of the reads made so far. */
  ghost predicate Digested(sha: Bytes -> string, log: seq<Read>, digests: map<Path, string>) {
    && (forall k :: 0 <= k < |log| ==> log[k].path in digests && digests[log[k].path] == sha(log[k].data))
    && (forall p :: p in digests ==> exists k :: 0 <= k < |log| && log[k].path == p)
  }

  function Min(a: nat, b: nat): nat {
    if a < b then a else b
  }

  /** What does not change over the life of a source, and what does. */
  datatype Setting = Setting(h: History, files: map<Path, Meta>, sha: Bytes -> string)

  datatype Moment = Moment(now: nat, digests: map<Path, string>)

  /** From this moment on every inventoried file is left alone, and earlier reads saw what it holds. */
  ghost predicate AllStill(s: Setting, m: Moment, to: nat) {
    forall p :: p in s.files ==>
      && Still(s.h, m.now, to, p, s.files[p])
      && (p in m.digests && m.now < to ==> m.digests[p] == s.sha(s.h.inode(to, s.files[p].id).data))
  }

  /** Files that are left alone from the earlier moment on still count as such at the later one. */
  ghost predicate Onward(s: Setting, m: Moment, m': Moment) {
    m.now <= m'.now && forall to :: m'.now <= to && AllStill(s, m, to) ==> AllStill(s, m', to)
  }

  lemma OnwardTwice(s: Setting, a: Moment, b: Moment, c: Moment)
    requires Onward(s, a, b) && Onward(s, b, c)
    ensures Onward(s, a, c)
  {
    hide AllStill;
  }

  lemma OnwardHere(s: Setting, a: Moment, b: Moment, to: nat)
    requires Onward(s, a, b) && b.now <= to
    ensures AllStill(s, a, to) ==> AllStill(s, b, to)
  {
    hide AllStill;
  }

  lemma OnwardIdle(s: Setting, m: Moment, now: nat)
    requires m.now <= now
    ensures Onward(s, m, m.(now := now))
  {
    hide Plain;
    forall to | now <= to && AllStill(s, m, to) ensures AllStill(s, m.(now := now), to) {
      forall p | p in s.files ensures Still(s.h, now, to, p, s.files[p]) {
        StillLater(s.h, m.now, now, to, p, s.files[p]);
      }
    }
  }

  lemma OnwardRead(s: Setting, m: Moment, now: nat, p: Path, data: Bytes)
    requires m.now < now && p in s.files
    requires Still(s.h, m.now, now, p, s.files[p]) ==> data == s.h.inode(now, s.files[p].id).data
    ensures Onward(s, m, Moment(now, m.digests[p := s.sha(data)]))
  {
    hide Plain;
    var m' := Moment(now, m.digests[p := s.sha(data)]);
    forall to | now <= to && AllStill(s, m, to) ensures AllStill(s, m', to) {
      forall q | q in s.files
        ensures Still(s.h, now, to, q, s.files[q])
        ensures q in m'.digests && now < to ==> m'.digests[q] == s.sha(s.h.inode(to, s.files[q].id).data)
      {
        StillLater(s.h, m.now, now, to, q, s.files[q]);
        if q == p { StillUntil(s.h, m.now, now, to, p, s.files[p]); }
      }
    }
  }

  lemma StillUntil(h: History, from: nat, middle: nat, to: nat, p: Path, m: Meta)
    requires from < middle <= to && Still(h, from, to, p, m)
    ensures Still(h, from, middle, p, m) && h.inode(middle, m.id) == h.inode(to, m.id)
  {
    assert Plain(h, middle, p, m);
  }

  lemma AllStillUntil(s: Setting, m: Moment, middle: nat, to: nat)
    requires m.now <= middle <= to
    ensures AllStill(s, m, to) ==> AllStill(s, m, middle)
  {
    hide Plain, Still;
    if AllStill(s, m, to) {
      forall p | p in s.files
        ensures Still(s.h, m.now, middle, p, s.files[p])
        ensures p in m.digests && m.now < middle ==> m.digests[p] == s.sha(s.h.inode(middle, s.files[p].id).data)
      {
        if m.now < middle {
          StillUntil(s.h, m.now, middle, to, p, s.files[p]);
        } else {
          StillNow(s.h, middle, p, s.files[p]);
        }
      }
    }
  }

  lemma StillNow(h: History, t: nat, p: Path, m: Meta)
    ensures Still(h, t, t, p, m)
  {
  }

  lemma StillHere(s: Setting, m: Moment, to: nat, p: Path)
    requires AllStill(s, m, to) && m.now < to && p in s.files
    ensures Still(s.h, m.now, to, p, s.files[p])
    ensures p in m.digests ==> m.digests[p] == s.sha(s.h.inode(to, s.files[p].id).data)
  {
    hide Still;
  }

  class DirectorySource {
    const disk: Disk
    const limits: Limits
    const sha: Bytes -> string
    const commit: map<Path, string> -> string
    const snapshots: map<Path, Meta>
    var observedDigests: map<Path, string>
    /** When the inventory began, when each file was listed, when it ended, and every read since. */
    ghost const begun: nat
    ghost const stamps: map<Path, nat>
    ghost const since: nat
    ghost var log: seq<Read>

    ghost predicate Valid() reads this, disk {
      && since <= disk.now
      && Stamped(disk.h, snapshots, stamps, begun, since)
      && (forall p :: p in snapshots ==> Canonical(p) && snapshots[p].size <= limits.maxFileBytes)
      && ReadsOk(disk.h, snapshots, since, disk.now, log)
      && Digested(sha, log, observedDigests)
    }

    constructor (disk: Disk, limits: Limits, sha: Bytes -> string, commit: map<Path, string> -> string,
                 files: map<Path, Meta>, ghost begun: nat, ghost stamps: map<Path, nat>)
      requires Stamped(disk.h, files, stamps, begun, disk.now)
      requires forall p :: p in files ==> Canonical(p) && files[p].size <= limits.maxFileBytes
      ensures Valid() && this.disk == disk && this.limits == limits && this.sha == sha && this.commit == commit
      ensures snapshots == files && observedDigests == map[] && log == [] && since == disk.now
      ensures this.begun == begun
    {
      this.disk, this.limits, this.sha, this.commit := disk, limits, sha, commit;
      snapshots, observedDigests := files, map[];
      this.begun, this.stamps, since, log := begun, stamps, disk.now, [];
    }

    function Fixed(): Setting {
      Setting(disk.h, snapshots, sha)
    }

    function At(): Moment reads this, disk {
      Moment(disk.now, observedDigests)
    }

    /** `list_files` */
    function ListFiles(): set<Path> {
      snapshots.Keys
    }

    method ReadBytes(p: Path, maxBytes: Option<nat>) returns (data: Option<Bytes>)
      requires Valid()
      modifies disk, `observedDigests, `log
      ensures Valid() && disk.now >= old(disk.now) && (p in snapshots ==> disk.now > old(disk.now))
      ensures data.None? ==> log == old(log) && observedDigests == old(observedDigests)
      ensures data.Some? ==>
        && p in snapshots && |data.value| <= (if maxBytes.Some? then maxBytes.value else limits.maxFileBytes)
        && observedDigests == old(observedDigests)[p := sha(data.value)]
        && (p in old(observedDigests) ==> old(observedDigests)[p] == sha(data.value))
        && |log| == |old(log)| + 1 && log[..|old(log)|] == old(log)
        && log[|old(log)|].path == p && log[|old(log)|].data == data.value
      ensures p in snapshots && Still(disk.h, old(disk.now), disk.now, p, snapshots[p])
        && (maxBytes.Some? ==> snapshots[p].size <= maxBytes.value)
        && (p in old(observedDigests) ==>
              old(observedDigests)[p] == sha(disk.h.inode(disk.now, snapshots[p].id).data))
        ==> data == Some(disk.h.inode(disk.now, snapshots[p].id).data)
      ensures Onward(Fixed(), old(At()), At())
      ensures (AllStill(Fixed(), old(At()), disk.now) && p in snapshots
               && (maxBytes.Some? ==> snapshots[p].size <= maxBytes.value)) ==> data.Some?
    {
      hide Guarded, Canonical, SeesMeta, Plain, Still, Onward, AllStill;
      ghost var start := At();
      OnwardIdle(Fixed(), start, disk.now);
      if !Canonical(p) || p !in snapshots { return None; }
      ghost var from := disk.now;
      var ok := ComponentsOk(disk, p);
      OnwardIdle(Fixed(), start, disk.now);
      if !ok {
        NotStill(disk.h, from, disk.now, p, snapshots[p]);
        if AllStill(Fixed(), start, disk.now) { StillHere(Fixed(), start, disk.now, p); }
        return None;
      }
      ghost var middle := disk.now;
      var limit := if maxBytes.None? then limits.maxFileBytes else Min(maxBytes.value, limits.maxFileBytes);
      var bytes, e := ReadGuarded(disk, p, snapshots[p], limit);
      StillLater(disk.h, from, middle, disk.now, p, snapshots[p]);
      OnwardIdle(Fixed(), start, disk.now);
      if AllStill(Fixed(), start, disk.now) { StillHere(Fixed(), start, disk.now, p); }
      if bytes.None? { return None; }
      var digest := sha(bytes.value);
      OnwardRead(Fixed(), start, disk.now, p, bytes.value);
      if p in observedDigests && observedDigests[p] != digest { return None; }
      LogRead(disk.h, snapshots, since, old(disk.now), disk.now, sha, log, observedDigests, e);
      observedDigests, log := observedDigests[p := digest], log + [e];
      return bytes;
    }

    /** The second pass over the content: every inventoried file is read (again). */
    method ReadEverything() returns (ok: bool)
      requires Valid()
      modifies disk, `observedDigests, `log
      ensures Valid() && disk.now >= old(disk.now) && old(log) <= log
      ensures ok ==> observedDigests.Keys == snapshots.Keys
      ensures Onward(Fixed(), old(At()), At())
      ensures AllStill(Fixed(), old(At()), disk.now) ==> ok
    {
      hide Still, Stamped, ReadsOk, Digested, Canonical, AllStill;
      var remaining := snapshots.Keys;
      ghost var start := At();
      OnwardIdle(Fixed(), start, disk.now);
      while remaining != {}
        invariant Valid() && disk.now >= start.now && old(log) <= log
        invariant remaining <= snapshots.Keys
        invariant snapshots.Keys - remaining <= observedDigests.Keys
        invariant Onward(Fixed(), start, At())
      {
        var p :| p in remaining;
        ghost var before := At();
        var data := ReadBytes(p, None);
        OnwardTwice(Fixed(), start, before, At());
        if data.None? { return false; }
        remaining := remaining - {p};
      }
      DigestedKeys(sha, log, observedDigests, snapshots, disk.h, since, disk.now);
      return true;
    }

    /** `finalize_snapshot`: `until` is the instant at which the last inventory starts. */
    method FinalizeSnapshot(walk: seq<Visit>, lastWalk: seq<Visit>) returns (digest: Option<string>, ghost until: nat)
      requires Valid()
      modifies disk, `observedDigests, `log
      ensures Valid() && disk.now >= old(disk.now) && old(log) <= log
      ensures digest.Some? ==> digest.value == commit(observedDigests) && observedDigests.Keys == snapshots.Keys
      ensures digest.Some? ==> old(disk.now) <= until <= disk.now && ReadsOk(disk.h, snapshots, since, until, log)
      ensures digest.Some? && FreshMetadata(disk.h, begun, disk.now, snapshots) ==>
        && AsOf(disk.h, FilesAt(disk.h, snapshots.Keys, until), since, until, log, sha, observedDigests)
        && Sized(FilesAt(disk.h, snapshots.Keys, until), snapshots)
      ensures LeftAlone(Fixed(), old(At()), disk.now, walk, lastWalk, limits) ==> digest.Some?
    {
      hide Stamped, ReadsOk, Digested, Canonical, AllStill, Quiet, Fits, Frozen, AsOf, FreshMetadata, Onward, Sized;
      ghost var h, from, start := disk.h, disk.now, At();
      var again, _ := Inventory(disk, limits, walk, snapshots);
      ghost var first := disk.now;
      LaterReads(h, snapshots, since, from, disk.now, log);
      until := disk.now;
      LeftAloneParts(Fixed(), start, from, disk.now, disk.now, walk, lastWalk, limits);
      if again != Some(snapshots) { return None, until; }
      var ok := ReadEverything();
      until := disk.now;
      LeftAloneParts(Fixed(), start, first, until, until, walk, lastWalk, limits);
      if !ok { return None, until; }
      var last, lastStamps := Inventory(disk, limits, lastWalk, snapshots);
      LaterReads(h, snapshots, since, until, disk.now, log);
      LeftAloneParts(Fixed(), start, first, until, disk.now, walk, lastWalk, limits);
      if last != Some(snapshots) { return None, until; }
      if FreshMetadata(h, begun, disk.now, snapshots) {
        Linearized(h, snapshots, begun, stamps, since, log, lastStamps, until, disk.now, sha, observedDigests);
      }
      return Some(commit(observedDigests)), until;
    }
  }

  function DigestsOf(sha: Bytes -> string, files: map<Path, File>): map<Path, string> {
    map p | p in files :: sha(files[p].data)
  }

  /** The whole run saw one state: these regular files did not change during `[from, until]`, every
      read returned their bytes, and the recorded digests are the digests of those bytes. */
  ghost predicate AsOf(h: History, files: map<Path, File>, from: nat, until: nat, log: seq<Read>, sha: Bytes -> string,
                       digests: map<Path, string>)
  {
    && Frozen(h, files, from, until)
    && (forall p :: p in files ==> files[p].regular)
    && (forall k :: 0 <= k < |log| ==> log[k].path in files && log[k].data == files[log[k].path].data)
    && digests == DigestsOf(sha, files)
  }

  /** The linearization point of a verification run: two equal inventories around guarded reads of
      every file pin down one state of the directory for all the instants in between. */
  lemma Linearized(h: History, files: map<Path, Meta>, begun: nat, first: map<Path, nat>, since: nat, log: seq<Read>,
                   last: map<Path, nat>, until: nat, to: nat, sha: Bytes -> string, digests: map<Path, string>)
    requires FreshMetadata(h, begun, to, files) && since <= until
    requires Stamped(h, files, first, begun, since) && Stamped(h, files, last, until, to)
    requires ReadsOk(h, files, since, until, log)
    requires Digested(sha, log, digests) && digests.Keys == files.Keys
    ensures AsOf(h, FilesAt(h, files.Keys, until), since, until, log, sha, digests)
    ensures Sized(FilesAt(h, files.Keys, until), files)
  {
    hide Frozen, FreshMetadata, Stamped, Guarded, Sees, Sized;
    var frozen := FilesAt(h, files.Keys, until);
    NothingChanged(h, files, begun, first, since, last, until, to);
    forall k | 0 <= k < |log|
      ensures log[k].path in frozen && log[k].data == frozen[log[k].path].data && frozen[log[k].path].regular
    {
      assert ReadOk(h, files, since, until, log[k]);
      ReadOfUnchanged(h, files, log[k], since, until);
    }
    forall p | p in files ensures frozen[p].regular && digests[p] == sha(frozen[p].data) {
      var k :| 0 <= k < |log| && log[k].path == p;
    }
    assert digests == DigestsOf(sha, frozen);
  }

  /** Even with no assumption on metadata, all reads of one path had one digest. */
  lemma OneDigestPerPath(sha: Bytes -> string, log: seq<Read>, digests: map<Path, string>, j: nat, k: nat)
    requires Digested(sha, log, digests)
    requires j < |log| && k < |log| && log[j].path == log[k].path
    ensures sha(log[j].data) == sha(log[k].data)
  {
    assert digests[log[j].path] == sha(log[j].data) && digests[log[k].path] == sha(log[k].data);
  }

  lemma NotStill(h: History, from: nat, to: nat, p: Path, m: Meta)
    requires exists k, t :: 0 < k <= |p| && from < t <= to && !h.entry(t, p[..k]).Inode?
    ensures !Still(h, from, to, p, m)
  {
    var k, t :| 0 < k <= |p| && from < t <= to && !h.entry(t, p[..k]).Inode?;
    assert !Plain(h, t, p, m);
  }

  lemma StillLater(h: History, from: nat, middle: nat, to: nat, p: Path, m: Meta)
    requires from <= middle <= to
    ensures Still(h, from, to, p, m) ==> Still(h, middle, to, p, m)
  {
  }

  lemma LogRead(h: History, files: map<Path, Meta>, since: nat, earlier: nat, to: nat, sha: Bytes -> string,
                log: seq<Read>, digests: map<Path, string>, e: Read)
    requires earlier <= to
    requires ReadsOk(h, files, since, earlier, log) && ReadOk(h, files, since, to, e)
    requires Digested(sha, log, digests)
    requires e.path in digests ==> digests[e.path] == sha(e.data)
    ensures ReadsOk(h, files, since, to, log + [e])
    ensures Digested(sha, log + [e], digests[e.path := sha(e.data)])
  {
    hide Guarded;
    var longer, digests' := log + [e], digests[e.path := sha(e.data)];
    forall k | 0 <= k < |longer| ensures ReadOk(h, files, since, to, longer[k]) {
      if k < |log| { assert ReadOk(h, files, since, earlier, log[k]); }
    }
    forall p | p in digests' ensures exists k :: 0 <= k < |longer| && longer[k].path == p {
      if p == e.path {
        assert longer[|log|].path == p;
      } else {
        var k :| 0 <= k < |log| && log[k].path == p;
        assert longer[k].path == p;
      }
    }
  }

  lemma DigestedKeys(sha: Bytes -> string, log: seq<Read>, digests: map<Path, string>, files: map<Path, Meta>,
                     h: History, since: nat, to: nat)
    requires Digested(sha, log, digests) && ReadsOk(h, files, since, to, log)
    ensures digests.Keys <= files.Keys
  {
    forall p | p in digests ensures p in files {
      var k :| 0 <= k < |log| && log[k].path == p;
      assert ReadOk(h, files, since, to, log[k]);
    }
  }

  /** Nothing happens to the source while it is being finalized. */
  ghost predicate LeftAlone(s: Setting, m: Moment, to: nat, walk: seq<Visit>, lastWalk: seq<Visit>, limits: Limits) {
    && AllStill(s, m, to)
    && Quiet(s.h, m.now, to, walk, s.files) && Fits(walk, s.files, limits)
    && Quiet(s.h, m.now, to, lastWalk, s.files) && Fits(lastWalk, s.files, limits)
  }

  lemma LeftAloneParts(s: Setting, m: Moment, first: nat, until: nat, to: nat, walk: seq<Visit>, lastWalk: seq<Visit>,
                       limits: Limits)
    requires m.now <= first <= until <= to
    ensures LeftAlone(s, m, to, walk, lastWalk, limits) ==>
      && Quiet(s.h, m.now, first, walk, s.files)
      && AllStill(s, m.(now := first), until)
      && Quiet(s.h, until, to, lastWalk, s.files)
      && Fits(walk, s.files, limits) && Fits(lastWalk, s.files, limits)
      && EntriesOf(walk) == s.files.Keys == EntriesOf(lastWalk)
  {
    hide Plain, Still, EntriesOf, Canonical, Total, Sizes;
    if LeftAlone(s, m, to, walk, lastWalk, limits) {
      forall p | p in s.files
        ensures Still(s.h, first, until, p, s.files[p])
        ensures p in m.digests && first < until ==> m.digests[p] == s.sha(s.h.inode(until, s.files[p].id).data)
      {
        StillLater(s.h, m.now, first, to, p, s.files[p]);
        if first < until {
          StillUntil(s.h, first, until, to, p, s.files[p]);
        } else {
          StillNow(s.h, until, p, s.files[p]);
        }
      }
    }
  }

  lemma LaterReads(h: History, files: map<Path, Meta>, since: nat, earlier: nat, to: nat, log: seq<Read>)
    requires ReadsOk(h, files, since, earlier, log) && earlier <= to
    ensures ReadsOk(h, files, since, to, log)
  {
    hide Guarded;
    forall k | 0 <= k < |log| ensures ReadOk(h, files, since, to, log[k]) {
      assert ReadOk(h, files, since, earlier, log[k]);
    }
  }

  method OpenDirectory(disk: Disk, limits: Limits, sha: Bytes -> string, commit: map<Path, string> -> string,
                       walk: seq<Visit>, ghost known: map<Path, Meta>)
    returns (source: DirectorySource?)
    modifies disk
    ensures disk.now >= old(disk.now)
    ensures source != null ==>
      && fresh(source) && source.Valid() && source.disk == disk && source.limits == limits
      && source.sha == sha && source.commit == commit
      && source.snapshots.Keys == EntriesOf(walk) && source.observedDigests == map[] && source.log == []
      && |source.snapshots| <= limits.maxEntries
      && (NoRepeats(walk) ==> Total(Sizes(walk, source.snapshots)) <= limits.maxTotalBytes)
      && source.begun == old(disk.now) <= source.since == disk.now
      && (source.snapshots != map[] ==> old(disk.now) < disk.now)
    ensures walk != [] ==> disk.now > old(disk.now)
    ensures Quiet(disk.h, old(disk.now), disk.now, walk, known) && EntriesOf(walk) == known.Keys ==>
      if Fits(walk, known, limits) then source != null && source.snapshots == known else source == null
  {
    hide EntriesOf, Canonical, Quiet, Fits, SeesMeta;
    var files, stamps := Inventory(disk, limits, walk, known);
    if files.None? { return null; }
    source := new DirectorySource(disk, limits, sha, commit, files.value, old(disk.now), stamps);
  }

  // ----- Why the assumption on metadata is needed -----

  const A_PATH: Path := ["a"]

  /** One file whose single byte is different at instant 10 only, with size and time put back. */
  function Flicker(): History {
    History((t, p) => if p == A_PATH then Inode(0) else Absent,
            (t, id) => File(true, 0, if t == 10 then [1 as Byte] else [0 as Byte]))
  }

  /** What a whole run has taken down: the first inventory ending at `since`, a check's read and the
      finalization's read of each file, the inventory between them and the last one. */
  ghost predicate NothingNoticed(h: History, files: map<Path, Meta>, since: nat, sha: Bytes -> string, log: seq<Read>,
                                 digests: map<Path, string>, middle: (nat, nat), until: nat, to: nat)
  {
    && (exists stamps :: Stamped(h, files, stamps, 0, since))
    && (exists stamps :: Stamped(h, files, stamps, middle.0, middle.1))
    && (exists stamps :: Stamped(h, files, stamps, until, to))
    && ReadsOk(h, files, since, until, log) && Digested(sha, log, digests) && digests.Keys == files.Keys
    && (forall k :: 0 <= k < |log| ==> log[k].after <= middle.0 || middle.1 < log[k].openedAt)
  }

  const FIRST_LOOK := Read(A_PATH, 0, 2, 3, 6, [0 as Byte], [4], 5)
  const SECOND_LOOK := Read(A_PATH, 0, 8, 9, 13, [0 as Byte], [11], 12)

  lemma FlickerStamped(from: int, t: nat, to: int)
    requires from < t <= to
    ensures Stamped(Flicker(), map[A_PATH := Meta(0, 1, 0)], map[A_PATH := t], from, to)
  {
  }

  lemma FlickerReads(sha: Bytes -> string)
    ensures var files, log := map[A_PATH := Meta(0, 1, 0)], [FIRST_LOOK, SECOND_LOOK];
      ReadsOk(Flicker(), files, 1, 13, log) && Digested(sha, log, map[A_PATH := sha([0 as Byte])])
  {
    assert ByteAt(Flicker(), FIRST_LOOK, 0) && ByteAt(Flicker(), SECOND_LOOK, 0);
    assert [FIRST_LOOK, SECOND_LOOK][0].path == A_PATH;
  }

  lemma FlickerChanges()
    ensures var h := Flicker();
      !Frozen(h, FilesAt(h, {A_PATH}, 13), 1, 13) && !FreshMeta(h, 0, 14, A_PATH, Meta(0, 1, 0))
  {
    var h, m := Flicker(), Meta(0, 1, 0);
    assert Sees(h, 10, A_PATH) == Seen(0, File(true, 0, [1 as Byte]));
    assert Sees(h, 13, A_PATH) == Seen(0, File(true, 0, [0 as Byte]));
    assert A_PATH in FilesAt(h, {A_PATH}, 13) && FilesAt(h, {A_PATH}, 13)[A_PATH].data == [0 as Byte];
    assert SeesMeta(h, 10, A_PATH, m) && SeesMeta(h, 9, A_PATH, m);
    assert Sees(h, 9, A_PATH) == Seen(0, File(true, 0, [0 as Byte]));
    assert Sees(h, 9 + 1, A_PATH) != Sees(h, 9, A_PATH);
  }

  /** All three inventories and both guarded reads of the file match around instant 10, so that the
      run ends well, yet the file did change. */
  lemma UnnoticedChange(sha: Bytes -> string)
    ensures var h, files := Flicker(), map[A_PATH := Meta(0, 1, 0)];
      && NothingNoticed(h, files, 1, sha, [FIRST_LOOK, SECOND_LOOK], map[A_PATH := sha([0 as Byte])], (6, 7), 13, 14)
      && !Frozen(h, FilesAt(h, files.Keys, 13), 1, 13)
      && !FreshMetadata(h, 0, 14, files)
  {
    hide Stamped, ReadsOk, Digested, Frozen, FreshMeta, Flicker, FilesAt;
    FlickerStamped(0, 1, 1);
    FlickerStamped(6, 7, 7);
    FlickerStamped(13, 14, 14);
    FlickerReads(sha);
    FlickerChanges();
    assert (map[A_PATH := Meta(0, 1, 0)]).Keys == {A_PATH};
  }
}
