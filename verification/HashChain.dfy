/** The append-only hash chain that the trajectory ledger and the agent-boundary
    transcript share: every entry hashes its index, its kind, its predecessor's hash
    and its payload's digest. */
module HashChain {
  import opened Json

  function Zeros(n: nat): string {
    if n == 0 then "" else ['0'] + Zeros(n - 1)
  }

  const ZERO_HASH: string := Zeros(64)

  datatype Entry = Entry(
    index: nat,
    kind: Word,
    previousHash: string,
    payloadSha256: string,
    payload: Object,
    entryHash: string)

  /** What is hashed for an entry besides its payload. */
  function Record(index: nat, kind: Json, previousHash: string, payloadSha256: string): Json {
    Obj(map[Key.Index := Int(index), Key.Kind := kind, Key.PreviousHash := Str(previousHash),
            Key.PayloadSha256 := Str(payloadSha256)])
  }

  function ChainHash(h: Hasher, index: nat, kind: Json, previousHash: string, payloadSha256: string): string {
    h(Record(index, kind, previousHash, payloadSha256))
  }

  function Root(entries: seq<Entry>): string {
    if entries == [] then ZERO_HASH else entries[|entries| - 1].entryHash
  }

  function NextEntry(h: Hasher, entries: seq<Entry>, kind: Word, payload: Object): Entry {
    var payloadSha := h(Obj(payload));
    Entry(|entries|, kind, Root(entries), payloadSha, payload,
          ChainHash(h, |entries|, Fixed(kind), Root(entries), payloadSha))
  }

  function Append(h: Hasher, entries: seq<Entry>, kind: Word, payload: Object): seq<Entry> {
    entries + [NextEntry(h, entries, kind, payload)]
  }

  function ToJson(e: Entry): Json {
    Obj(map[Key.Index := Int(e.index), Key.Kind := Fixed(e.kind), Key.PreviousHash := Str(e.previousHash),
            Key.PayloadSha256 := Str(e.payloadSha256), Key.Payload := Obj(e.payload),
            Key.EntryHash := Str(e.entryHash)])
  }

  function ToRaw(entries: seq<Entry>): seq<Json> {
    seq(|entries|, i requires 0 <= i < |entries| => ToJson(entries[i]))
  }

  // ----- Decoded entries, as a verifier meets them -----

  function KindOf(v: Json): Json {
    Get(Fields(v), Key.Kind)
  }

  predicate Is(v: Json, kind: Word) {
    KindOf(v) == Fixed(kind)
  }

  function PayloadOf(v: Json): Object {
    Fields(Get(Fields(v), Key.Payload))
  }

  function HashOf(v: Json): string {
    var d := Get(Fields(v), Key.EntryHash);
    if d.Str? then d.s else ""
  }

  function HashBefore(raw: seq<Json>, i: nat): string
    requires i <= |raw|
  {
    if i == 0 then ZERO_HASH else HashOf(raw[i - 1])
  }

  /** Entry `i` has the shape of an entry and extends the chain made by the ones before it. */
  predicate LinkedAt(h: Hasher, raw: seq<Json>, i: nat)
    requires i < |raw|
  {
    var entry := Fields(raw[i]);
    && raw[i].Obj?
    && EqualsInt(Get(entry, Key.Index), i)
    && Get(entry, Key.Kind).IsString()
    && Get(entry, Key.Payload).Obj?
    && Get(entry, Key.PreviousHash) == Str(HashBefore(raw, i))
    && Get(entry, Key.PayloadSha256) == Str(h(Get(entry, Key.Payload)))
    && Get(entry, Key.EntryHash)
       == Str(ChainHash(h, i, KindOf(raw[i]), HashBefore(raw, i), h(Get(entry, Key.Payload))))
  }

  ghost predicate Linked(h: Hasher, raw: seq<Json>) {
    forall i :: 0 <= i < |raw| ==> LinkedAt(h, raw, i)
  }

  /** Equal on every hashed or chained field; the index may differ only as `1` and `True` do. */
  predicate SameEntry(a: Json, b: Json) {
    var x, y := Fields(a), Fields(b);
    && Get(x, Key.Kind) == Get(y, Key.Kind)
    && Get(x, Key.Payload) == Get(y, Key.Payload)
    && Get(x, Key.PreviousHash) == Get(y, Key.PreviousHash)
    && Get(x, Key.PayloadSha256) == Get(y, Key.PayloadSha256)
    && Get(x, Key.EntryHash) == Get(y, Key.EntryHash)
  }

  function PayloadJson(v: Json): Json {
    Get(Fields(v), Key.Payload)
  }

  function RecordAt(h: Hasher, raw: seq<Json>, i: nat): Json
    requires i < |raw|
  {
    Record(i, KindOf(raw[i]), HashBefore(raw, i), h(PayloadJson(raw[i])))
  }

  /** Everything that was hashed to write these entries. */
  function Preimages(h: Hasher, raw: seq<Json>): set<Json> {
    (set i | 0 <= i < |raw| :: RecordAt(h, raw, i)) + (set i | 0 <= i < |raw| :: PayloadJson(raw[i]))
  }

  lemma RecordCommits(i: nat, k: Json, p: string, d: string, i': nat, k': Json, p': string, d': string)
    requires Record(i, k, p, d) == Record(i', k', p', d')
    ensures i == i' && k == k' && p == p' && d == d'
  {
    var a, b := Record(i, k, p, d).fields, Record(i', k', p', d').fields;
    assert a[Key.Index] == b[Key.Index] && a[Key.Kind] == b[Key.Kind];
    assert a[Key.PreviousHash] == b[Key.PreviousHash] && a[Key.PayloadSha256] == b[Key.PayloadSha256];
  }

  lemma SameHashSameEntry(h: Hasher, a: seq<Json>, i: nat, b: seq<Json>, j: nat)
    requires NoCollisionAmong(h, Preimages(h, a) + Preimages(h, b))
    requires i < |a| && Linked(h, a)
    requires j < |b| && Linked(h, b)
    requires HashOf(a[i]) == HashOf(b[j])
    ensures i == j && SameEntry(a[i], b[j]) && HashBefore(a, i) == HashBefore(b, j)
  {
    hide Record;
    assert LinkedAt(h, a, i) && LinkedAt(h, b, j);
    var all := Preimages(h, a) + Preimages(h, b);
    assert RecordAt(h, a, i) in all && RecordAt(h, b, j) in all;
    var x, y := PayloadJson(a[i]), PayloadJson(b[j]);
    assert x in all && y in all;
    assert h(RecordAt(h, a, i)) == h(RecordAt(h, b, j));
    RecordCommits(i, KindOf(a[i]), HashBefore(a, i), h(x), j, KindOf(b[j]), HashBefore(b, j), h(y));
  }

  /** Equal hashes at two places fix the places and everything before them. */
  lemma {:induction false} HashCommits(h: Hasher, a: seq<Json>, i: nat, b: seq<Json>, j: nat)
    requires NoCollisionAmong(h, Preimages(h, a) + Preimages(h, b))
    requires i < |a| && Linked(h, a)
    requires j < |b| && Linked(h, b)
    requires HashOf(a[i]) == HashOf(b[j])
    ensures i == j
    ensures forall k {:trigger SameEntry(a[k], b[k])} :: 0 <= k <= i ==> SameEntry(a[k], b[k])
  {
    hide NoCollisionAmong, Preimages, Linked, SameEntry;
    SameHashSameEntry(h, a, i, b, j);
    if i > 0 { HashCommits(h, a, i - 1, b, j - 1); }
  }

  /** The last hash fixes the whole history: its length, because the index is hashed,
      and every entry of it, as long as nothing hashed in the two histories collides. */
  lemma RootCommits(h: Hasher, a: seq<Json>, b: seq<Json>)
    requires NoCollisionAmong(h, Preimages(h, a) + Preimages(h, b))
    requires Linked(h, a) && Linked(h, b)
    requires a != [] && b != []
    requires HashOf(a[|a| - 1]) == HashOf(b[|b| - 1])
    ensures |a| == |b|
    ensures forall k {:trigger SameEntry(a[k], b[k])} :: 0 <= k < |a| ==> SameEntry(a[k], b[k])
  {
    hide NoCollisionAmong, Preimages, Linked, SameEntry;
    HashCommits(h, a, |a| - 1, b, |b| - 1);
  }

  // ----- The producer's side -----

  ghost predicate Chained(h: Hasher, entries: seq<Entry>) {
    forall i :: 0 <= i < |entries| ==>
      entries[i] == NextEntry(h, entries[..i], entries[i].kind, entries[i].payload)
  }

  lemma AppendChained(h: Hasher, entries: seq<Entry>, kind: Word, payload: Object)
    requires Chained(h, entries)
    ensures Chained(h, Append(h, entries, kind, payload))
  {
    var longer := Append(h, entries, kind, payload);
    forall i | 0 <= i < |longer|
      ensures longer[i] == NextEntry(h, longer[..i], longer[i].kind, longer[i].payload)
    {
      assert longer[..i] == entries[..i];
      if i == |entries| { assert entries[..i] == entries; }
    }
  }

  lemma ToJsonFields(e: Entry)
    ensures var v := ToJson(e);
      && KindOf(v) == Fixed(e.kind) && PayloadOf(v) == e.payload && HashOf(v) == e.entryHash
      && Fields(v).Keys == {Key.Index, Key.Kind, Key.PreviousHash, Key.PayloadSha256, Key.Payload, Key.EntryHash}
      && Get(Fields(v), Key.Index) == Int(e.index)
      && Get(Fields(v), Key.Kind) == Fixed(e.kind)
      && Get(Fields(v), Key.Payload) == Obj(e.payload)
      && Get(Fields(v), Key.PreviousHash) == Str(e.previousHash)
      && Get(Fields(v), Key.PayloadSha256) == Str(e.payloadSha256)
      && Get(Fields(v), Key.EntryHash) == Str(e.entryHash)
  {
  }

  lemma LinkedEntry(h: Hasher, entries: seq<Entry>, i: nat)
    requires i < |entries| && entries[i] == NextEntry(h, entries[..i], entries[i].kind, entries[i].payload)
    ensures LinkedAt(h, ToRaw(entries), i)
  {
    hide ToJson, Record, ChainHash, KindOf, HashOf;
    ToJsonFields(entries[i]);
    if i > 0 { ToJsonFields(entries[i - 1]); }
  }

  /** What `append` builds is exactly what the verifiers call a linked chain. */
  lemma ChainedIsLinked(h: Hasher, entries: seq<Entry>)
    requires Chained(h, entries)
    ensures Linked(h, ToRaw(entries))
  {
    hide ToJson, Record, ChainHash, LinkedAt, NextEntry;
    var raw := ToRaw(entries);
    forall i | 0 <= i < |raw| ensures LinkedAt(h, raw, i) {
      assert entries[i] == NextEntry(h, entries[..i], entries[i].kind, entries[i].payload);
      LinkedEntry(h, entries, i);
    }
  }

  lemma FirstEntry(h: Hasher, kind: Word, payload: Object)
    ensures var entries := Append(h, [], kind, payload);
      && |entries| == 1 && entries[0].kind == kind
      && Chained(h, entries)
      && KindOf(ToRaw(entries)[0]) == Fixed(kind) && PayloadOf(ToRaw(entries)[0]) == payload
  {
    AppendChained(h, [], kind, payload);
    ToJsonFields(NextEntry(h, [], kind, payload));
  }
}
