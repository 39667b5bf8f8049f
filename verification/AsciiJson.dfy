/** `json.dumps(tree, separators=(",", ":"), ensure_ascii=True)` on the nested lists that
    normalization produces, and why no two of them have the same text. */
module AsciiJson {
  import opened Json
  import Digits

  /** A code point; a lone surrogate counts as one, as in a Python string. */
  type Code = c: nat | c < 0x110000

  type Text = seq<Code>

  type CodeUnit = u: nat | u < 0x10000

  datatype Tree = Flag(b: bool) | Number(n: int) | Quoted(s: Text) | Nested(items: seq<Tree>)

  // ----- Text -----

  predicate High(c: Code) {
    0xd800 <= c < 0xdc00
  }

  predicate Low(c: Code) {
    0xdc00 <= c < 0xe000
  }

  /** No high surrogate directly before a low one: what any UTF-16-aware decoder yields. */
  predicate Paired(s: Text) {
    forall i :: 0 < i < |s| ==> !(High(s[i - 1]) && Low(s[i]))
  }

  function UnitsOf(c: Code): seq<CodeUnit> {
    if c < 0x10000 then [c] else [0xd800 + (c - 0x10000) / 1024, 0xdc00 + (c - 0x10000) % 1024]
  }

  function Units(s: Text): seq<CodeUnit> {
    if s == [] then [] else UnitsOf(s[0]) + Units(s[1..])
  }

  function HexChar(d: nat): char
    requires d < 16
  {
    if d < 10 then '0' + d as char else 'a' + (d - 10) as char
  }

  function Hex4(u: CodeUnit): (s: string)
    ensures |s| == 4
  {
    [HexChar(u / 4096), HexChar(u / 256 % 16), HexChar(u / 16 % 16), HexChar(u % 16)]
  }

  /** The letter after the backslash in the short escapes. */
  function Short(u: CodeUnit): Option<char> {
    if u == 0x22 then Some('"') else if u == 0x5c then Some('\\')
    else if u == 0x0a then Some('n') else if u == 0x0d then Some('r') else if u == 0x09 then Some('t')
    else if u == 0x0c then Some('f') else if u == 0x08 then Some('b') else None
  }

  function EscapeUnit(u: CodeUnit): string {
    if Short(u).Some? then ['\\', Short(u).value]
    else if 0x20 <= u <= 0x7e then [u as char]
    else ['\\', 'u'] + Hex4(u)
  }

  function Escape(units: seq<CodeUnit>): string {
    if units == [] then [] else EscapeUnit(units[0]) + Escape(units[1..])
  }

  lemma Hex4Injective(u: CodeUnit, v: CodeUnit)
    requires Hex4(u) == Hex4(v)
    ensures u == v
  {
    HexDigits(u);
    HexDigits(v);
    var s, t := Hex4(u), Hex4(v);
    assert s[0] == t[0] && s[1] == t[1] && s[2] == t[2] && s[3] == t[3];
    HexInjective(u / 4096, v / 4096);
    HexInjective(u / 256 % 16, v / 256 % 16);
    HexInjective(u / 16 % 16, v / 16 % 16);
    HexInjective(u % 16, v % 16);
  }

  lemma HexInjective(d: nat, e: nat)
    requires d < 16 && e < 16 && HexChar(d) == HexChar(e)
    ensures d == e
  {
  }

  lemma HexDigits(u: CodeUnit)
    ensures u == u / 4096 * 4096 + u / 256 % 16 * 256 + u / 16 % 16 * 16 + u % 16
  {
    var a, b, c := u / 16, u / 256, u / 4096;
    assert u == a * 16 + u % 16;
    assert b == a / 16 && a == b * 16 + a % 16;
    assert c == b / 16 && b == c * 16 + b % 16;
    assert c < 16;
  }

  /** An escaped unit never begins like the closing quote and can be told from its first characters. */
  lemma UnitPrefix(u: CodeUnit, v: CodeUnit, x: string, y: string)
    requires EscapeUnit(u) + x == EscapeUnit(v) + y
    ensures u == v && x == y
  {
    hide Hex4;
    var s, t := EscapeUnit(u) + x, EscapeUnit(v) + y;
    assert s[0] == t[0];
    if Short(u).Some? || Short(v).Some? {
      assert s[1] == t[1];
      assert s[2..] == x && t[2..] == y;
    } else if 0x20 <= u <= 0x7e {
      assert s[1..] == x && t[1..] == y;
    } else {
      assert Hex4(u) == s[2..6] && Hex4(v) == t[2..6];
      Hex4Injective(u, v);
      assert s[6..] == x && t[6..] == y;
    }
  }

  lemma EscapeNotQuote(u: CodeUnit)
    ensures EscapeUnit(u) != [] && EscapeUnit(u)[0] != '"'
  {
    hide Hex4;
  }

  lemma {:induction false} EscapePrefix(a: seq<CodeUnit>, b: seq<CodeUnit>, x: string, y: string)
    requires Escape(a) + ['"'] + x == Escape(b) + ['"'] + y
    ensures a == b && x == y
    decreases |a| + |b|
  {
    hide EscapeUnit;
    var s, t := Escape(a) + ['"'] + x, Escape(b) + ['"'] + y;
    assert s[0] == t[0];
    if a != [] { EscapeNotQuote(a[0]); }
    if b != [] { EscapeNotQuote(b[0]); }
    if a == [] || b == [] {
      assert a == [] && b == [];
      assert s[1..] == x && t[1..] == y;
    } else {
      var s', t' := Escape(a[1..]) + ['"'] + x, Escape(b[1..]) + ['"'] + y;
      assert s == EscapeUnit(a[0]) + s' && t == EscapeUnit(b[0]) + t';
      UnitPrefix(a[0], b[0], s', t');
      EscapePrefix(a[1..], b[1..], x, y);
      assert a == [a[0]] + a[1..] && b == [b[0]] + b[1..];
    }
  }

  lemma HighFirst(c: Code)
    requires c >= 0x10000
    ensures |UnitsOf(c)| == 2 && High(UnitsOf(c)[0]) && Low(UnitsOf(c)[1])
    ensures c as int == 0x10000 + (UnitsOf(c)[0] as int - 0xd800) * 1024 + (UnitsOf(c)[1] as int - 0xdc00)
  {
  }

  lemma PairedTail(s: Text)
    requires Paired(s) && s != []
    ensures Paired(s[1..])
  {
  }

  /** A code point outside the basic plane cannot be mistaken for two surrogates in a row. */
  lemma NotASplitPair(s: Text, t: Text)
    requires s != [] && t != [] && s[0] >= 0x10000 && t[0] < 0x10000
    requires Units(s) == Units(t)
    ensures !Paired(t)
  {
    HighFirst(s[0]);
    assert Units(s)[0] == Units(t)[0] == t[0] && Units(s)[1] == UnitsOf(s[0])[1];
    assert Units(t) == [t[0]] + Units(t[1..]);
    assert Units(t[1..])[0] == Units(t)[1];
    if t[1] >= 0x10000 { HighFirst(t[1]); }
    assert High(t[0]) && Low(t[1]);
  }

  lemma {:induction false} UnitsInjective(s: Text, t: Text)
    requires Paired(s) && Paired(t) && Units(s) == Units(t)
    ensures s == t
  {
    if s != [] && t != [] {
      var m, n := |UnitsOf(s[0])|, |UnitsOf(t[0])|;
      if s[0] >= 0x10000 && t[0] < 0x10000 { NotASplitPair(s, t); }
      if t[0] >= 0x10000 && s[0] < 0x10000 { NotASplitPair(t, s); }
      if s[0] >= 0x10000 { HighFirst(s[0]); HighFirst(t[0]); }
      assert UnitsOf(s[0]) == Units(s)[..m] && UnitsOf(t[0]) == Units(t)[..n];
      assert Units(s[1..]) == Units(s)[m..] && Units(t[1..]) == Units(t)[n..];
      PairedTail(s);
      PairedTail(t);
      UnitsInjective(s[1..], t[1..]);
      assert s == [s[0]] + s[1..] && t == [t[0]] + t[1..];
    }
  }

  // ----- Numbers -----

  function IntText(n: int): string {
    if n < 0 then "-" + Digits.NatText(-n) else Digits.NatText(n)
  }

  /** What may follow a value: the end, or a list going on or closing. */
  predicate Ends(x: string) {
    x == "" || x[0] == ',' || x[0] == ']'
  }

  lemma LongerRun(s: string, t: string, x: string, y: string)
    requires s + x == t + y && |s| < |t| && Digits.AllDigits(t)
    ensures x != "" && Digits.IsDigit(x[0])
  {
    var a, b := s + x, t + y;
    assert a[|s|] == b[|s|] == t[|s|];
  }

  lemma DigitRun(s: string, t: string, x: string, y: string)
    requires Digits.AllDigits(s) && Digits.AllDigits(t) && Ends(x) && Ends(y)
    requires s + x == t + y
    ensures s == t && x == y
  {
    if |s| < |t| { LongerRun(s, t, x, y); }
    if |t| < |s| { LongerRun(t, s, y, x); }
    var a, b := s + x, t + y;
    assert a[..|s|] == s && b[..|t|] == t && a[|s|..] == x && b[|t|..] == y;
  }

  lemma NatPrefix(m: nat, n: nat, x: string, y: string)
    requires Ends(x) && Ends(y) && Digits.NatText(m) + x == Digits.NatText(n) + y
    ensures m == n && x == y
  {
    hide Digits.NatText, Digits.NatValue, Digits.AllDigits, Ends;
    Digits.NatRoundTrip(m);
    Digits.NatRoundTrip(n);
    DigitRun(Digits.NatText(m), Digits.NatText(n), x, y);
  }

  lemma NatFirst(n: nat)
    ensures Digits.NatText(n) != "" && Digits.IsDigit(Digits.NatText(n)[0])
  {
    hide Digits.NatText, Digits.NatValue;
    Digits.NatRoundTrip(n);
  }

  lemma IntPrefix(m: int, n: int, x: string, y: string)
    requires Ends(x) && Ends(y) && IntText(m) + x == IntText(n) + y
    ensures m == n && x == y
  {
    hide Digits.NatText, Ends;
    var p, q := if m < 0 then -m else m, if n < 0 then -n else n;
    NatFirst(p);
    NatFirst(q);
    var s, t := IntText(m) + x, IntText(n) + y;
    assert s[0] == t[0];
    assert m < 0 <==> n < 0;
    if m < 0 {
      assert s[1..] == Digits.NatText(p) + x && t[1..] == Digits.NatText(q) + y;
    }
    NatPrefix(p, q, x, y);
  }

  // ----- Trees -----

  predicate Clean(t: Tree) {
    match t
    case Quoted(s) => Paired(s)
    case Nested(items) => forall i :: 0 <= i < |items| ==> Clean(items[i])
    case _ => true
  }

  /** `json.dumps` */
  function Dump(t: Tree): string
    decreases t, if t.Nested? then |t.items| + 1 else 0
  {
    match t
    case Flag(b) => if b then "true" else "false"
    case Number(n) => IntText(n)
    case Quoted(s) => ['"'] + Escape(Units(s)) + ['"']
    case Nested(items) => ['['] + Joined(t, 0) + [']']
  }

  /** The items from the k-th on, separated by commas. */
  function Joined(t: Tree, k: nat): string
    requires t.Nested? && k <= |t.items|
    decreases t, |t.items| - k
  {
    if k == |t.items| then ""
    else if k + 1 == |t.items| then Dump(t.items[k])
    else Dump(t.items[k]) + [','] + Joined(t, k + 1)
  }

  lemma FirstChar(t: Tree)
    ensures var s := Dump(t);
      && s != ""
      && (s[0] == '"' <==> t.Quoted?) && (s[0] == '[' <==> t.Nested?)
      && (s[0] == 't' || s[0] == 'f' <==> t.Flag?) && s[0] != ']' && s[0] != ','
      && (s[0] == 't' <==> t == Flag(true))
  {
    hide Digits.NatText, Escape, Units, Joined;
    if t.Number? { NatFirst(if t.n < 0 then -t.n else t.n); }
  }

  /** What stands after the k-th item. */
  function After(t: Tree, k: nat, x: string): string
    requires t.Nested? && k < |t.items|
  {
    if k + 1 == |t.items| then [']'] + x else [','] + Joined(t, k + 1) + [']'] + x
  }

  lemma JoinedSplits(t: Tree, k: nat, x: string)
    requires t.Nested? && k < |t.items|
    ensures Joined(t, k) + [']'] + x == Dump(t.items[k]) + After(t, k, x)
    ensures Ends(After(t, k, x))
  {
    hide Dump;
    var d := Dump(t.items[k]);
    if k + 1 < |t.items| {
      assert d + [','] + Joined(t, k + 1) + [']'] + x == d + ([','] + Joined(t, k + 1) + [']'] + x);
    } else {
      assert d + [']'] + x == d + ([']'] + x);
    }
  }

  /** A dumped tree ends where its text says: whatever may follow it, both tree and rest can be
      read off. */
  lemma {:induction false} DumpPrefix(a: Tree, b: Tree, x: string, y: string)
    requires Clean(a) && Clean(b) && Ends(x) && Ends(y)
    requires Dump(a) + x == Dump(b) + y
    ensures a == b && x == y
    decreases a, if a.Nested? then |a.items| + 1 else 0
  {
    hide Clean, Paired, Ends, Units, Escape, Joined;
    FirstChar(a);
    FirstChar(b);
    var s, t := Dump(a) + x, Dump(b) + y;
    assert s[0] == t[0] == Dump(a)[0] == Dump(b)[0];
    match a
    case Flag(p) =>
      assert a == b;
      assert s[|Dump(a)|..] == x && t[|Dump(a)|..] == y;
    case Number(m) => IntPrefix(m, b.n, x, y);
    case Quoted(u) =>
      QuotedPrefix(u, b.s, x, y);
    case Nested(items) =>
      assert s[1..] == Joined(a, 0) + [']'] + x && t[1..] == Joined(b, 0) + [']'] + y;
      JoinedPrefix(a, b, 0, x, y);
  }

  lemma QuotedPrefix(u: Text, v: Text, x: string, y: string)
    requires Clean(Quoted(u)) && Clean(Quoted(v))
    requires Dump(Quoted(u)) + x == Dump(Quoted(v)) + y
    ensures u == v && x == y
  {
    hide Units, Escape;
    var s, t := Dump(Quoted(u)) + x, Dump(Quoted(v)) + y;
    assert s[1..] == Escape(Units(u)) + ['"'] + x && t[1..] == Escape(Units(v)) + ['"'] + y;
    EscapePrefix(Units(u), Units(v), x, y);
    UnitsInjective(u, v);
  }

  lemma {:induction false} JoinedPrefix(a: Tree, b: Tree, k: nat, x: string, y: string)
    requires a.Nested? && b.Nested? && Clean(a) && Clean(b)
    requires k <= |a.items| && k <= |b.items| && a.items[..k] == b.items[..k]
    requires Joined(a, k) + [']'] + x == Joined(b, k) + [']'] + y
    ensures a == b && x == y
    decreases a, |a.items| - k
  {
    hide Dump, Ends, Paired, Joined, After;
    NothingJoined(a, k, x);
    NothingJoined(b, k, y);
    var s, t := Joined(a, k) + [']'] + x, Joined(b, k) + [']'] + y;
    assert s[0] == t[0];
    if k == |a.items| || k == |b.items| {
      assert k == |a.items| == |b.items|;
      assert a.items[..k] == a.items && b.items[..k] == b.items;
    } else {
      JoinedSplits(a, k, x);
      JoinedSplits(b, k, y);
      DumpPrefix(a.items[k], b.items[k], After(a, k, x), After(b, k, y));
      AfterSplits(a, b, k, x, y);
      assert a.items[..k + 1] == a.items[..k] + [a.items[k]] && b.items[..k + 1] == b.items[..k] + [b.items[k]];
      if k + 1 < |a.items| {
        JoinedPrefix(a, b, k + 1, x, y);
      } else {
        assert a.items[..k + 1] == a.items && b.items[..k + 1] == b.items;
      }
    }
  }

  lemma NothingJoined(t: Tree, k: nat, x: string)
    requires t.Nested? && k <= |t.items|
    ensures var s := Joined(t, k) + [']'] + x;
      && (s[0] == ']' <==> k == |t.items|)
      && (k == |t.items| ==> s == [']'] + x && x == s[1..])
  {
    hide Dump, After;
    if k < |t.items| {
      JoinedSplits(t, k, x);
      FirstChar(t.items[k]);
      var s := Dump(t.items[k]) + After(t, k, x);
      assert s[0] == Dump(t.items[k])[0];
    }
  }

  lemma AfterSplits(a: Tree, b: Tree, k: nat, x: string, y: string)
    requires a.Nested? && b.Nested? && k < |a.items| && k < |b.items|
    requires After(a, k, x) == After(b, k, y)
    ensures k + 1 == |a.items| <==> k + 1 == |b.items|
    ensures if k + 1 == |a.items| then x == y else Joined(a, k + 1) + [']'] + x == Joined(b, k + 1) + [']'] + y
  {
    hide Joined;
    var s, t := After(a, k, x), After(b, k, y);
    assert s[0] == t[0];
    if k + 1 == |a.items| {
      assert s[1..] == x && t[1..] == y;
    } else {
      assert s[1..] == Joined(a, k + 1) + [']'] + x && t[1..] == Joined(b, k + 1) + [']'] + y;
    }
  }

  /** No two normalized trees share a text. */
  lemma DumpInjective(a: Tree, b: Tree)
    requires Clean(a) && Clean(b) && Dump(a) == Dump(b)
    ensures a == b
  {
    hide Dump, Clean;
    assert Dump(a) + "" == Dump(b) + "";
    DumpPrefix(a, b, "", "");
  }
}
