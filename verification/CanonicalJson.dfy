/** The typed canonical form of JSON values (`_normalize_json_value`, `_canonical_json_value` in
    `src/artifact_proof/checks.py`) decides whether two values mean the same. */
module CanonicalJson {
  import D = DecimalForm
  import opened AsciiJson

  /** A parsed document: numbers are exact decimals, objects keep their members' order. */
  datatype Value =
    | Null
    | Bool(b: bool)
    | Decimal(d: D.Decimal)
    | String(s: Text)
    | Array(items: seq<Value>)
    | Object(members: seq<Member>)

  datatype Member = Member(key: Text, value: Value)

  /** What the strict parser guarantees. */
  predicate WellFormed(v: Value) {
    match v
    case Decimal(d) => D.Coefficient(d.digits)
    case String(s) => Paired(s)
    case Array(items) => forall i :: 0 <= i < |items| ==> WellFormed(items[i])
    case Object(members) =>
      && (forall i :: 0 <= i < |members| ==> Paired(members[i].key) && WellFormed(members[i].value))
      && (forall i, j :: 0 <= i < j < |members| ==> members[i].key != members[j].key)
    case _ => true
  }

  // ----- What a value means -----

  datatype Meaning =
    | Nothing
    | Truth(b: bool)
    | Quantity(r: real)
    | Words(s: Text)
    | Sequence(items: seq<Meaning>)
    | Mapping(members: map<Text, Meaning>)

  function Keys(members: seq<Member>): set<Text> {
    set m | m in members :: m.key
  }

  ghost function IndexOf(members: seq<Member>, k: Text): (i: nat)
    requires k in Keys(members)
    ensures i < |members| && members[i].key == k
  {
    var i :| 0 <= i < |members| && members[i].key == k;
    i
  }

  /** Objects are maps, arrays keep their order, numbers count by value and types stay apart. */
  ghost function Means(v: Value): Meaning
    requires WellFormed(v)
  {
    match v
    case Null => Nothing
    case Bool(b) => Truth(b)
    case Decimal(d) => Quantity(D.Number(d))
    case String(s) => Words(s)
    case Array(items) => Sequence(seq(|items|, i requires 0 <= i < |items| => Means(items[i])))
    case Object(members) => Mapping(map k | k in Keys(members) :: Means(members[IndexOf(members, k)].value))
  }

  // ----- Sorting members by key -----

  /** Python's order on strings: code points, then length. */
  predicate Before(a: Text, b: Text) {
    b != [] && (a == [] || a[0] < b[0] || (a[0] == b[0] && Before(a[1..], b[1..])))
  }

  lemma {:induction false} BeforeOrders(a: Text, b: Text)
    ensures !(Before(a, b) && Before(b, a))
    ensures a != b ==> Before(a, b) || Before(b, a)
    ensures !Before(a, a)
  {
    if a != [] {
      BeforeOrders(a[1..], if b != [] then b[1..] else []);
      if b != [] && a[0] == b[0] && a[1..] == b[1..] {
        assert a == [a[0]] + a[1..] && b == [b[0]] + b[1..];
      }
    }
  }

  lemma {:induction false} BeforeTransitive(a: Text, b: Text, c: Text)
    requires Before(a, b) && Before(b, c)
    ensures Before(a, c)
  {
    if a != [] && a[0] == b[0] == c[0] { BeforeTransitive(a[1..], b[1..], c[1..]); }
  }

  type Pair = (Text, Tree)

  function Insert(p: Pair, sorted: seq<Pair>): seq<Pair> {
    if sorted == [] then [p]
    else if Before(p.0, sorted[0].0) then [p] + sorted
    else [sorted[0]] + Insert(p, sorted[1..])
  }

  function Sorted(pairs: seq<Pair>): seq<Pair> {
    if pairs == [] then [] else Insert(pairs[|pairs| - 1], Sorted(pairs[..|pairs| - 1]))
  }

  predicate Ordered(s: seq<Pair>) {
    forall i, j :: 0 <= i < j < |s| ==> Before(s[i].0, s[j].0)
  }

  predicate DistinctKeys(s: seq<Pair>) {
    forall i, j :: 0 <= i < j < |s| ==> s[i].0 != s[j].0
  }

  ghost predicate SameElements(a: seq<Pair>, b: seq<Pair>) {
    forall p :: (p in a <==> p in b)
  }

  lemma {:induction false} InsertElements(p: Pair, s: seq<Pair>)
    ensures forall q :: (q in Insert(p, s) <==> q == p || q in s)
  {
    if s != [] && !Before(p.0, s[0].0) {
      InsertElements(p, s[1..]);
      assert s == [s[0]] + s[1..];
    }
  }

  lemma {:induction false} InsertOrdered(p: Pair, s: seq<Pair>)
    requires Ordered(s) && forall q :: q in s ==> q.0 != p.0
    ensures Ordered(Insert(p, s))
  {
    if s != [] {
      BeforeOrders(p.0, s[0].0);
      if Before(p.0, s[0].0) {
        forall j | 0 < j < |s| ensures Before(p.0, s[j].0) { BeforeTransitive(p.0, s[0].0, s[j].0); }
      } else {
        var rest := Insert(p, s[1..]);
        InsertOrdered(p, s[1..]);
        InsertElements(p, s[1..]);
        forall j | 0 <= j < |rest| ensures Before(s[0].0, rest[j].0) {
          assert rest[j] in rest;
          if rest[j] != p { var k :| 0 <= k < |s[1..]| && s[1..][k] == rest[j]; assert s[k + 1] == rest[j]; }
        }
      }
    }
  }

  lemma {:induction false} SortedIsSorted(s: seq<Pair>)
    requires DistinctKeys(s)
    ensures Ordered(Sorted(s)) && SameElements(Sorted(s), s)
  {
    if s != [] {
      var n := |s| - 1;
      var init := s[..n];
      SortedIsSorted(init);
      InsertElements(s[n], Sorted(init));
      assert s == init + [s[n]];
      InsertOrdered(s[n], Sorted(init));
    }
  }

  lemma SameEmptiness(a: seq<Pair>, b: seq<Pair>)
    requires SameElements(a, b)
    ensures a == [] <==> b == []
  {
    if a != [] { assert a[0] in b; }
    if b != [] { assert b[0] in a; }
  }

  /** An ordered list is fixed by its elements. */
  lemma {:induction false} OrderedUnique(a: seq<Pair>, b: seq<Pair>)
    requires Ordered(a) && Ordered(b) && SameElements(a, b)
    ensures a == b
  {
    SameEmptiness(a, b);
    if a != [] {
      assert a[0] in b && b[0] in a;
      BeforeOrders(a[0].0, b[0].0);
      assert a[0] == b[0];
      BeforeOrders(a[0].0, a[0].0);
      forall p ensures p in a[1..] <==> p in b[1..] {
        assert a == [a[0]] + a[1..] && b == [b[0]] + b[1..];
        if p in a[1..] { var i :| 0 <= i < |a[1..]| && a[1..][i] == p; assert a[i + 1] == p && p in b; }
        if p in b[1..] { var i :| 0 <= i < |b[1..]| && b[1..][i] == p; assert b[i + 1] == p && p in a; }
      }
      OrderedUnique(a[1..], b[1..]);
      assert a == [a[0]] + a[1..] && b == [b[0]] + b[1..];
    }
  }

  // ----- Normalization -----

  function Ascii(s: string): Text {
    seq(|s|, i requires 0 <= i < |s| => if s[i] as int < 0x80 then s[i] as int else 0)
  }

  const NULL := Ascii("null")
  const BOOL := Ascii("bool")
  const NUMBER := Ascii("number")
  const STRING := Ascii("string")
  const ARRAY := Ascii("array")
  const OBJECT := Ascii("object")

  function DigitText(digits: seq<D.Digit>): Text {
    seq(|digits|, i requires 0 <= i < |digits| => 0x30 + digits[i] as int)
  }

  function Entry(p: Pair): Tree {
    Nested([Quoted(p.0), p.1])
  }

  function Entries(pairs: seq<Pair>): seq<Tree> {
    seq(|pairs|, i requires 0 <= i < |pairs| => Entry(pairs[i]))
  }

  function PairsOf(v: Value): seq<Pair>
    requires v.Object?
    decreases v, 0
  {
    seq(|v.members|, i requires 0 <= i < |v.members| => (v.members[i].key, Normalize(v.members[i].value)))
  }

  /** `_normalize_json_value` */
  function Normalize(v: Value): Tree
    decreases v, 1
  {
    match v
    case Null => Nested([Quoted(NULL)])
    case Bool(b) => Nested([Quoted(BOOL), Flag(b)])
    case Decimal(d) =>
      var t := D.Canonical(d);
      Nested([Quoted(NUMBER), Number(t.sign), Quoted(DigitText(t.digits)), Number(t.exponent)])
    case String(s) => Nested([Quoted(STRING), Quoted(s)])
    case Array(items) =>
      Nested([Quoted(ARRAY), Nested(seq(|items|, i requires 0 <= i < |items| => Normalize(items[i])))])
    case Object(members) => Nested([Quoted(OBJECT), Nested(Entries(Sorted(PairsOf(v))))])
  }

  /** `_canonical_json_value` */
  function CanonicalText(v: Value): string {
    Dump(Normalize(v))
  }

  lemma TagsDiffer()
    ensures |NULL| == |BOOL| == 4 && |NUMBER| == |STRING| == |OBJECT| == 6 && |ARRAY| == 5
    ensures NULL[0] != BOOL[0] && NUMBER[0] != STRING[0] && NUMBER[0] != OBJECT[0] && STRING[0] != OBJECT[0]
  {
  }

  lemma DigitTextInjective(a: seq<D.Digit>, b: seq<D.Digit>)
    requires DigitText(a) == DigitText(b)
    ensures a == b
  {
    var s, t := DigitText(a), DigitText(b);
    assert |a| == |s| == |t| == |b|;
    forall i | 0 <= i < |a| ensures a[i] == b[i] { assert s[i] == t[i]; }
  }

  lemma EntriesInjective(a: seq<Pair>, b: seq<Pair>)
    requires Entries(a) == Entries(b)
    ensures a == b
  {
    var s, t := Entries(a), Entries(b);
    assert |a| == |s| == |t| == |b|;
    forall i | 0 <= i < |a| ensures a[i] == b[i] {
      assert s[i] == Entry(a[i]) && t[i] == Entry(b[i]);
      assert s[i].items[0] == t[i].items[0] && s[i].items[1] == t[i].items[1];
    }
  }

  /** The kind of a value shows in its normalized form. */
  lemma SameKind(a: Value, b: Value)
    requires Normalize(a) == Normalize(b)
    ensures (a.Null? <==> b.Null?) && (a.Bool? <==> b.Bool?) && (a.Decimal? <==> b.Decimal?)
    ensures (a.String? <==> b.String?) && (a.Array? <==> b.Array?) && (a.Object? <==> b.Object?)
  {
    hide D.Canonical, DigitText, Sorted, PairsOf, Entries, Ascii;
    TagsDiffer();
    assert Normalize(a).items[0] == Normalize(b).items[0];
  }

  lemma DecimalDecides(a: Value, b: Value)
    requires a.Decimal? && b.Decimal? && WellFormed(a) && WellFormed(b)
    ensures Normalize(a) == Normalize(b) <==> Means(a) == Means(b)
  {
    hide D.Canonical, D.Number, DigitText, Ascii;
    D.CanonicalIsExact(a.d, b.d);
    if Normalize(a) == Normalize(b) {
      var s, t := D.Canonical(a.d), D.Canonical(b.d);
      var x, y := Normalize(a).items, Normalize(b).items;
      assert x[1] == y[1] && x[2] == y[2] && x[3] == y[3];
      DigitTextInjective(s.digits, t.digits);
    }
  }

  /** Two values have the same normalized form exactly when they mean the same. */
  lemma {:induction false} NormalizeDecides(a: Value, b: Value)
    requires WellFormed(a) && WellFormed(b)
    ensures Normalize(a) == Normalize(b) <==> Means(a) == Means(b)
    decreases a, 1
  {
    hide D.Canonical, Sorted, PairsOf, Entries, Ascii;
    if Normalize(a) == Normalize(b) { SameKind(a, b); }
    if a.Decimal? && b.Decimal? { DecimalDecides(a, b); }
    if a.Array? && b.Array? { ArrayDecides(a, b); }
    if a.Object? && b.Object? { ObjectDecides(a, b); }
    if a.Bool? && b.Bool? && Normalize(a) == Normalize(b) { assert Normalize(a).items[1] == Normalize(b).items[1]; }
    if a.String? && b.String? && Normalize(a) == Normalize(b) { assert Normalize(a).items[1] == Normalize(b).items[1]; }
  }

  lemma {:induction false} ArrayDecides(a: Value, b: Value)
    requires a.Array? && b.Array? && WellFormed(a) && WellFormed(b)
    ensures Normalize(a) == Normalize(b) <==> Means(a) == Means(b)
    decreases a, 0
  {
    hide D.Canonical, Ascii;
    var x, y := Normalize(a).items[1].items, Normalize(b).items[1].items;
    var m, n := Means(a).items, Means(b).items;
    assert |x| == |a.items| == |m| && |y| == |b.items| == |n|;
    assert Normalize(a) == Normalize(b) <==> x == y;
    if |a.items| == |b.items| {
      forall i | 0 <= i < |a.items| ensures x[i] == y[i] <==> m[i] == n[i] {
        NormalizeDecides(a.items[i], b.items[i]);
      }
      assert x == y <==> m == n;
    }
  }

  lemma MemberMeans(v: Value, i: nat)
    requires v.Object? && WellFormed(v) && i < |v.members|
    ensures var m := v.members[i];
      && m.key in Means(v).members && Means(v).members[m.key] == Means(m.value)
      && PairsOf(v)[i] == (m.key, Normalize(m.value)) && PairsOf(v)[i] in PairsOf(v)
  {
    hide Normalize, Paired;
    var m := v.members[i];
    assert PairsOf(v)[i] in PairsOf(v);
    assert m in v.members && m.key in Keys(v.members);
    assert IndexOf(v.members, m.key) == i;
  }

  lemma MeantMember(v: Value, k: Text) returns (i: nat)
    requires v.Object? && WellFormed(v) && k in Means(v).members
    ensures i < |v.members| && v.members[i].key == k && Means(v).members[k] == Means(v.members[i].value)
  {
    hide Paired;
    i := IndexOf(v.members, k);
  }

  /** Comparing the members of two values by normal form or by meaning comes to the same. */
  ghost predicate MembersDecided(a: Value, b: Value)
    requires a.Object? && b.Object? && WellFormed(a) && WellFormed(b)
  {
    forall i, j :: 0 <= i < |a.members| && 0 <= j < |b.members| ==>
      (Normalize(a.members[i].value) == Normalize(b.members[j].value)
       <==> Means(a.members[i].value) == Means(b.members[j].value))
  }

  /** Every member of `a` is one of `b`, told by normal form ... */
  ghost predicate PairsIn(a: Value, b: Value)
    requires a.Object? && b.Object?
  {
    forall p :: p in PairsOf(a) ==> p in PairsOf(b)
  }

  /** ... or by meaning. */
  ghost predicate MeaningsIn(a: Value, b: Value)
    requires a.Object? && b.Object? && WellFormed(a) && WellFormed(b)
  {
    forall k :: k in Means(a).members ==> k in Means(b).members && Means(a).members[k] == Means(b).members[k]
  }

  lemma PairsWithin(a: Value, b: Value)
    requires a.Object? && b.Object? && WellFormed(a) && WellFormed(b) && MembersDecided(a, b)
    requires PairsIn(a, b)
    ensures MeaningsIn(a, b)
  {
    hide Normalize, Means, WellFormed, PairsOf;
    ObjectsMean(a, b);
    forall k | k in Means(a).members ensures k in Means(b).members && Means(a).members[k] == Means(b).members[k] {
      var i := MeantMember(a, k);
      MemberMeans(a, i);
      PairsLength(a);
      PairsLength(b);
      var j :| 0 <= j < |PairsOf(b)| && PairsOf(b)[j] == PairsOf(a)[i];
      MemberMeans(b, j);
    }
  }

  lemma PairsLength(v: Value)
    requires v.Object?
    ensures |PairsOf(v)| == |v.members|
  {
  }

  lemma MeaningsWithin(a: Value, b: Value)
    requires a.Object? && b.Object? && WellFormed(a) && WellFormed(b) && MembersDecided(a, b)
    requires MeaningsIn(a, b)
    ensures PairsIn(a, b)
  {
    hide Normalize, Means, WellFormed, PairsOf;
    ObjectsMean(a, b);
    forall p | p in PairsOf(a) ensures p in PairsOf(b) {
      var i :| 0 <= i < |PairsOf(a)| && PairsOf(a)[i] == p;
      PairsLength(a);
      MemberMeans(a, i);
      var j := MeantMember(b, a.members[i].key);
      MemberMeans(b, j);
    }
  }

  lemma PairsDistinct(v: Value)
    requires v.Object? && WellFormed(v)
    ensures DistinctKeys(PairsOf(v))
  {
    hide Normalize;
  }

  lemma SameEntriesSameElements(a: Value, b: Value)
    requires a.Object? && b.Object? && WellFormed(a) && WellFormed(b)
    ensures Entries(Sorted(PairsOf(a))) == Entries(Sorted(PairsOf(b))) <==> SameElements(PairsOf(a), PairsOf(b))
  {
    hide PairsOf, Entries, Ordered, DistinctKeys, WellFormed, Sorted;
    var pa, pb := PairsOf(a), PairsOf(b);
    PairsDistinct(a);
    PairsDistinct(b);
    SortedIsSorted(pa);
    SortedIsSorted(pb);
    if Entries(Sorted(pa)) == Entries(Sorted(pb)) { EntriesInjective(Sorted(pa), Sorted(pb)); }
    if SameElements(pa, pb) { OrderedUnique(Sorted(pa), Sorted(pb)); }
  }

  lemma {:induction false} ObjectDecides(a: Value, b: Value)
    requires a.Object? && b.Object? && WellFormed(a) && WellFormed(b)
    ensures Normalize(a) == Normalize(b) <==> Means(a) == Means(b)
    decreases a, 0
  {
    forall i, j | 0 <= i < |a.members| && 0 <= j < |b.members|
      ensures Normalize(a.members[i].value) == Normalize(b.members[j].value)
         <==> Means(a.members[i].value) == Means(b.members[j].value)
    {
      NormalizeDecides(a.members[i].value, b.members[j].value);
    }
    ObjectsDecided(a, b);
  }

  lemma ObjectsDecided(a: Value, b: Value)
    requires a.Object? && b.Object? && WellFormed(a) && WellFormed(b) && MembersDecided(a, b)
    ensures Normalize(a) == Normalize(b) <==> Means(a) == Means(b)
  {
    hide Means, WellFormed, PairsOf, Sorted, Entries, Ascii, MembersDecided, SameElements, PairsIn, MeaningsIn;
    SameEntriesSameElements(a, b);
    ObjectsMean(a, b);
    DecidedBack(a, b);
    if PairsIn(a, b) && PairsIn(b, a) {
      PairsWithin(a, b);
      PairsWithin(b, a);
    }
    if MeaningsIn(a, b) && MeaningsIn(b, a) {
      MeaningsWithin(a, b);
      MeaningsWithin(b, a);
    }
    ObjectForm(a);
    ObjectForm(b);
    BothWays(a, b);
  }

  lemma BothWays(a: Value, b: Value)
    requires a.Object? && b.Object? && WellFormed(a) && WellFormed(b)
    ensures SameElements(PairsOf(a), PairsOf(b)) <==> PairsIn(a, b) && PairsIn(b, a)
    ensures Means(a) == Means(b) <==> MeaningsIn(a, b) && MeaningsIn(b, a)
  {
    hide WellFormed, PairsOf, Means;
    ObjectsMean(a, b);
    assert MeaningsIn(a, b) && MeaningsIn(b, a) ==> Means(a).members == Means(b).members;
  }

  lemma DecidedBack(a: Value, b: Value)
    requires a.Object? && b.Object? && WellFormed(a) && WellFormed(b) && MembersDecided(a, b)
    ensures MembersDecided(b, a)
  {
    hide Normalize, Means;
  }

  lemma ObjectsMean(a: Value, b: Value)
    requires a.Object? && b.Object? && WellFormed(a) && WellFormed(b)
    ensures Means(a).Mapping? && Means(b).Mapping?
  {
  }

  lemma ObjectForm(v: Value)
    requires v.Object?
    ensures Normalize(v).Nested? && |Normalize(v).items| == 2
    ensures Normalize(v).items[1] == Nested(Entries(Sorted(PairsOf(v))))
    ensures Normalize(v) == Nested([Quoted(OBJECT), Nested(Entries(Sorted(PairsOf(v))))])
  {
    hide PairsOf, Sorted, Entries, Ascii;
  }

  // ----- The canonical text -----

  lemma AsciiPaired(s: string)
    ensures Paired(Ascii(s))
  {
  }

  lemma DigitsPaired(digits: seq<D.Digit>)
    ensures Paired(DigitText(digits))
  {
  }

  lemma EntriesClean(pairs: seq<Pair>)
    requires forall p :: p in pairs ==> Paired(p.0) && Clean(p.1)
    ensures Clean(Nested(Entries(pairs)))
  {
    forall i | 0 <= i < |pairs| ensures Clean(Entries(pairs)[i]) {
      assert pairs[i] in pairs;
      assert Entries(pairs)[i] == Nested([Quoted(pairs[i].0), pairs[i].1]);
    }
  }

  lemma {:induction false} NormalizeClean(v: Value)
    requires WellFormed(v)
    ensures Clean(Normalize(v))
  {
    hide D.Canonical, D.Coefficient, Ascii, Paired, Sorted, Entries, PairsOf, DigitText;
    AsciiPaired("null");
    AsciiPaired("bool");
    AsciiPaired("number");
    AsciiPaired("string");
    AsciiPaired("array");
    AsciiPaired("object");
    match v
    case Decimal(d) => DigitsPaired(D.Canonical(d).digits);
    case Array(items) =>
      forall i | 0 <= i < |items| ensures Clean(Normalize(items[i])) { NormalizeClean(items[i]); }
    case Object(members) =>
      forall i | 0 <= i < |members| ensures Paired(members[i].key) && Clean(Normalize(members[i].value)) {
        NormalizeClean(members[i].value);
      }
      ObjectClean(v);
    case _ =>
  }

  lemma ObjectClean(v: Value)
    requires v.Object? && WellFormed(v)
    requires forall i :: 0 <= i < |v.members| ==> Paired(v.members[i].key) && Clean(Normalize(v.members[i].value))
    ensures Clean(Nested(Entries(Sorted(PairsOf(v)))))
  {
    hide Normalize, WellFormed, Entries, Clean, Paired, Sorted, DistinctKeys;
    PairsDistinct(v);
    SortedIsSorted(PairsOf(v));
    forall p | p in Sorted(PairsOf(v)) ensures Paired(p.0) && Clean(p.1) {
      assert p in PairsOf(v);
      var i :| 0 <= i < |PairsOf(v)| && PairsOf(v)[i] == p;
    }
    EntriesClean(Sorted(PairsOf(v)));
  }

  /** The canonical bytes of two parsed values are equal exactly when the values mean the same:
      objects as maps, arrays in order, numbers by value, kinds never mixed. */
  lemma CanonicalTextDecides(a: Value, b: Value)
    requires WellFormed(a) && WellFormed(b)
    ensures CanonicalText(a) == CanonicalText(b) <==> Means(a) == Means(b)
  {
    hide Normalize, Means, WellFormed, Dump, Clean;
    NormalizeDecides(a, b);
    NormalizeClean(a);
    NormalizeClean(b);
    if CanonicalText(a) == CanonicalText(b) { DumpInjective(Normalize(a), Normalize(b)); }
  }

  /** Without that guarantee on strings it fails: U+1F600 and its two surrogates as separate code
      points have one canonical text. No parser of UTF-8 text yields the second string. */
  lemma SplitPairCollides()
    ensures var a, b := String([0x1f600]), String([0xd83d, 0xde00]);
      a != b && CanonicalText(a) == CanonicalText(b) && !Paired(b.s)
  {
    var s: Text, t: Text := [0x1f600], [0xd83d, 0xde00];
    assert s[1..] == [] && t[1..] == [0xde00] && t[1..][1..] == [];
    assert UnitsOf(0xd83d) == [0xd83d] && UnitsOf(0xde00) == [0xde00];
    assert UnitsOf(0x1f600) == [0xd83d, 0xde00];
    assert Units(t[1..]) == [0xde00] + [];
    assert Units(t) == [0xd83d] + Units(t[1..]);
    assert Units(s) == [0xd83d, 0xde00] + [] == Units(t);
    assert s[0] != t[0] && High(t[0]) && Low(t[1]);
    StringTextDecides(s, t);
  }

  /** The exact rule for strings: one canonical text, one sequence of UTF-16 code units. */
  lemma StringTextDecides(s: Text, t: Text)
    ensures CanonicalText(String(s)) == CanonicalText(String(t)) <==> Units(s) == Units(t)
  {
    hide Escape, Units, Ascii, CanonicalText;
    var prefix := ['['] + Dump(Quoted(STRING)) + [','];
    StringText(s);
    StringText(t);
    if CanonicalText(String(s)) == CanonicalText(String(t)) {
      var n, tail := |prefix| + 1, ['"'] + "]";
      assert CanonicalText(String(s))[n..] == Escape(Units(s)) + tail;
      assert CanonicalText(String(t))[n..] == Escape(Units(t)) + tail;
      assert Escape(Units(s)) + ['"'] + "]" == Escape(Units(s)) + tail;
      assert Escape(Units(t)) + ['"'] + "]" == Escape(Units(t)) + tail;
      EscapePrefix(Units(s), Units(t), "]", "]");
    }
  }

  lemma StringText(s: Text)
    ensures CanonicalText(String(s))
      == ['['] + Dump(Quoted(STRING)) + [','] + (['"'] + Escape(Units(s)) + (['"'] + "]"))
  {
    hide Escape, Units, Ascii;
    var a := Normalize(String(s));
    assert Joined(a, 1) == Dump(Quoted(s));
    assert Joined(a, 0) == Dump(Quoted(STRING)) + [','] + Joined(a, 1);
  }
}
