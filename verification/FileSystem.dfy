/** A file system that other programs keep changing. Time is a counter of instants; between two
    operations of this program any number of instants pass, and at each of them anything may change. */
module FileSystem {
  import opened Json

  newtype Byte = b: int | 0 <= b < 256

  type Bytes = seq<Byte>

  /** The parts of a relative path. */
  type Path = seq<string>

  datatype File = File(regular: bool, mtime: int, data: Bytes)

  /** What a directory entry is: nothing, a file or a symbolic link with what it leads to. */
  datatype Node = Absent | Inode(id: nat) | Link(target: Option<nat>)

  /** `(st_dev, st_ino, st_size, st_mtime_ns)`, device and inode number being the `id`. */
  datatype Meta = Meta(id: nat, size: nat, mtime: int)

  datatype History = History(entry: (nat, Path) -> Node, inode: (nat, nat) -> File)

  function MetaOf(h: History, t: nat, id: nat): Meta {
    Meta(id, |h.inode(t, id).data|, h.inode(t, id).mtime)
  }

  datatype Sight = Nothing | Seen(id: nat, file: File)

  /** What a path leads to at an instant, links followed. */
  function Sees(h: History, t: nat, p: Path): Sight {
    match h.entry(t, p)
    case Absent => Nothing
    case Inode(id) => Seen(id, h.inode(t, id))
    case Link(target) => if target.Some? then Seen(target.value, h.inode(t, target.value)) else Nothing
  }

  predicate SeesMeta(h: History, t: nat, p: Path, m: Meta) {
    Sees(h, t, p).Seen? && m == MetaOf(h, t, Sees(h, t, p).id)
  }

  /** The assumption on metadata, for one path and the metadata it was listed with: when what the
      path leads to changes between these instants, it does not show that metadata again if it
      showed it before. */
  ghost predicate FreshMeta(h: History, from: nat, to: nat, p: Path, m: Meta) {
    forall s, t ::
      from <= s <= t < to && Sees(h, t + 1, p) != Sees(h, t, p) && SeesMeta(h, t + 1, p, m) ==> !SeesMeta(h, s, p, m)
  }

  ghost predicate FreshMetadata(h: History, from: nat, to: nat, files: map<Path, Meta>) {
    forall p :: p in files ==> FreshMeta(h, from, to, p, files[p])
  }

  /** Between two looks that show the same metadata nothing about the path has changed. */
  lemma {:induction false} SameMetaSameFile(h: History, from: nat, to: nat, p: Path, m: Meta, s: nat, t: nat, u: nat)
    requires FreshMeta(h, from, to, p, m) && from <= s && t <= to
    requires s <= u <= t && SeesMeta(h, s, p, m) && SeesMeta(h, t, p, m)
    ensures Sees(h, u, p) == Sees(h, t, p)
    decreases t - u
  {
    if u < t {
      SameMetaSameFile(h, from, to, p, m, s, t, u + 1);
      assert SeesMeta(h, u + 1, p, m);
      assert Sees(h, u + 1, p) == Sees(h, u, p);
    }
  }

  /** This program's view of the disk: every call takes place at some later instant. */
  class Disk {
    const h: History
    var now: nat

    constructor (h: History)
      ensures this.h == h
    {
      this.h := h;
      this.now := *;
    }

    method Lapse()
      modifies this
      ensures now > old(now)
    {
      var others: nat :| others >= 0;
      now := now + 1 + others;
    }

    method Lstat(p: Path) returns (node: Node)
      modifies this
      ensures now > old(now) && node == h.entry(now, p)
    {
      Lapse();
      node := h.entry(now, p);
    }

    method Stat(p: Path) returns (sight: Sight)
      modifies this
      ensures now > old(now) && sight == Sees(h, now, p)
    {
      Lapse();
      sight := Sees(h, now, p);
    }

    method Fstat(id: nat) returns (file: File)
      modifies this
      ensures now > old(now) && file == h.inode(now, id)
    {
      Lapse();
      file := h.inode(now, id);
    }

    /** One byte of an open file, None at its end. */
    method ReadByte(id: nat, offset: nat) returns (byte: Option<Byte>)
      modifies this
      ensures now > old(now)
      ensures byte == if offset < |h.inode(now, id).data| then Some(h.inode(now, id).data[offset]) else None
    {
      Lapse();
      var data := h.inode(now, id).data;
      byte := if offset < |data| then Some(data[offset]) else None;
    }
  }
}
