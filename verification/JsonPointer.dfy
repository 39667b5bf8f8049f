/** JSON Pointers (RFC 6901): the manifest's validation of a pointer and its resolution in a
    parsed document (`src/artifact_proof/manifest.py`, `src/artifact_proof/checks.py`). */
module JsonPointer {
  import opened Json
  import Digits
  import opened AsciiJson
  import opened CanonicalJson

  const TILDE: Code := 0x7e
  const SLASH: Code := 0x2f
  const ZERO: Code := 0x30
  const ONE: Code := 0x31

  // ----- Validation -----

  /** Every tilde starts one of the two escapes. */
  predicate EscapesOk(s: Text) {
    || s == []
    || (s[0] != TILDE && EscapesOk(s[1..]))
    || (s[0] == TILDE && |s| >= 2 && (s[1] == ZERO || s[1] == ONE) && EscapesOk(s[2..]))
  }

  /** What the manifest parser accepts as a pointer. */
  predicate ValidPointer(s: Text) {
    (s == [] || s[0] == SLASH) && EscapesOk(s)
  }

  /** `_validate_json_pointer`, after the check of the first character. */
  method ValidateJsonPointer(pointer: Text) returns (ok: bool)
    ensures ok <==> ValidPointer(pointer)
  {
    if pointer != [] && pointer[0] != SLASH { return false; }
    var index := 0;
    while index < |pointer|
      invariant index <= |pointer|
      invariant EscapesOk(pointer) <==> EscapesOk(pointer[index..])
    {
      if pointer[index] != TILDE {
        assert pointer[index..][1..] == pointer[index + 1..];
        index := index + 1;
        continue;
      }
      if index + 1 >= |pointer| || (pointer[index + 1] != ZERO && pointer[index + 1] != ONE) { return false; }
      assert pointer[index..][2..] == pointer[index + 2..];
      index := index + 2;
    }
    return true;
  }

  // ----- Tokens -----

  /** `s.split("/")` */
  function Split(s: Text): (parts: seq<Text>)
    ensures parts != []
  {
    if s == [] then [[]]
    else if s[0] == SLASH then [[]] + Split(s[1..])
    else var rest := Split(s[1..]); [[s[0]] + rest[0]] + rest[1..]
  }

  /** `s.replace("~" + mark, with)` */
  function Replace(s: Text, mark: Code, with: Code): Text {
    if s == [] then []
    else if |s| >= 2 && s[0] == TILDE && s[1] == mark then [with] + Replace(s[2..], mark, with)
    else [s[0]] + Replace(s[1..], mark, with)
  }

  /** The two replacements, in the order the code makes them. */
  function Token(raw: Text): Text {
    Replace(Replace(raw, ONE, SLASH), ZERO, TILDE)
  }

  /** RFC 6901, section 4, in one pass. */
  function Unescape(raw: Text): Text {
    if raw == [] then []
    else if |raw| >= 2 && raw[0] == TILDE && raw[1] == ONE then [SLASH] + Unescape(raw[2..])
    else if |raw| >= 2 && raw[0] == TILDE && raw[1] == ZERO then [TILDE] + Unescape(raw[2..])
    else [raw[0]] + Unescape(raw[1..])
  }

  lemma ReplaceKeepsFirst(s: Text)
    requires s != [] && !(|s| >= 2 && s[0] == TILDE && s[1] == ONE)
    ensures Replace(s, ONE, SLASH) == [s[0]] + Replace(s[1..], ONE, SLASH)
    ensures |s| >= 2 && s[1] == ZERO <==> |Replace(s, ONE, SLASH)| >= 2 && Replace(s, ONE, SLASH)[1] == ZERO
  {
  }

  /** Two ordered replacements are the one-pass decoder, on every text. */
  lemma {:induction false} TwoPassesAreOne(raw: Text)
    ensures Token(raw) == Unescape(raw)
  {
    if raw != [] {
      var once := Replace(raw, ONE, SLASH);
      if |raw| >= 2 && raw[0] == TILDE && raw[1] == ONE {
        TwoPassesAreOne(raw[2..]);
        assert once[1..] == Replace(raw[2..], ONE, SLASH);
      } else if |raw| >= 2 && raw[0] == TILDE && raw[1] == ZERO {
        TwoPassesAreOne(raw[2..]);
        assert raw[1..][1..] == raw[2..];
        assert Replace(raw[1..], ONE, SLASH) == [ZERO] + Replace(raw[2..], ONE, SLASH);
        assert once[2..] == Replace(raw[2..], ONE, SLASH);
      } else {
        TwoPassesAreOne(raw[1..]);
        ReplaceKeepsFirst(raw);
        assert once[1..] == Replace(raw[1..], ONE, SLASH);
      }
    }
  }

  /** RFC 6901, section 3. */
  function EscapeToken(token: Text): Text {
    if token == [] then []
    else (if token[0] == TILDE then [TILDE, ZERO] else if token[0] == SLASH then [TILDE, ONE] else [token[0]])
         + EscapeToken(token[1..])
  }

  lemma {:induction false} EscapeRoundTrip(token: Text)
    ensures Unescape(EscapeToken(token)) == token
    ensures EscapesOk(EscapeToken(token)) && SLASH !in EscapeToken(token)
  {
    if token != [] {
      EscapeRoundTrip(token[1..]);
      var s, rest := EscapeToken(token), EscapeToken(token[1..]);
      if token[0] == TILDE || token[0] == SLASH { assert s[2..] == rest; } else { assert s[1..] == rest; }
    }
  }

  /** A valid raw token is the encoding of what it decodes to, so decoding is injective. */
  lemma {:induction false} UnescapeRoundTrip(raw: Text)
    requires EscapesOk(raw) && SLASH !in raw
    ensures EscapeToken(Unescape(raw)) == raw
  {
    if raw != [] {
      if raw[0] == TILDE {
        UnescapeRoundTrip(raw[2..]);
        assert Unescape(raw)[1..] == Unescape(raw[2..]);
        assert raw == raw[..2] + raw[2..];
      } else {
        UnescapeRoundTrip(raw[1..]);
        assert Unescape(raw)[1..] == Unescape(raw[1..]);
        assert raw == [raw[0]] + raw[1..];
      }
    }
  }

  // ----- Pointers and paths -----

  function Tokens(parts: seq<Text>): seq<Text> {
    seq(|parts|, i requires 0 <= i < |parts| => Token(parts[i]))
  }

  /** The reference tokens of a pointer, as the code obtains them. */
  function Decode(pointer: Text): seq<Text> {
    if pointer == [] then [] else Tokens(Split(pointer)[1..])
  }

  function Encode(path: seq<Text>): Text {
    if path == [] then [] else [SLASH] + EscapeToken(path[0]) + Encode(path[1..])
  }

  function Glue(parts: seq<Text>): Text {
    if parts == [] then [] else [SLASH] + parts[0] + Glue(parts[1..])
  }

  predicate RawToken(s: Text) {
    SLASH !in s && EscapesOk(s)
  }

  lemma GlueFirst(first: Text, rest: seq<Text>)
    ensures Glue([first] + rest) == [SLASH] + (first + Glue(rest))
  {
    assert ([first] + rest)[1..] == rest;
  }

  lemma {:induction false} SplitGlued(s: Text)
    ensures Glue(Split(s)) == [SLASH] + s
  {
    hide Glue;
    if s == [] {
      GlueNothing();
      GlueFirst([], []);
      assert [[]] + [] == Split(s);
    } else {
      SplitGlued(s[1..]);
      assert s == [s[0]] + s[1..];
      var rest := Split(s[1..]);
      if s[0] == SLASH {
        GlueFirst([], rest);
        assert [] + Glue(rest) == Glue(rest);
      } else {
        assert rest == [rest[0]] + rest[1..];
        GlueFirst(rest[0], rest[1..]);
        GlueFirst([s[0]] + rest[0], rest[1..]);
        SameTail(rest[0] + Glue(rest[1..]), s[1..]);
        assert ([s[0]] + rest[0]) + Glue(rest[1..]) == [s[0]] + (rest[0] + Glue(rest[1..]));
      }
    }
  }

  lemma GlueNothing()
    ensures Glue([]) == []
  {
  }

  lemma SameTail(a: Text, b: Text)
    requires [SLASH] + a == [SLASH] + b
    ensures a == b
  {
    assert ([SLASH] + a)[1..] == a && ([SLASH] + b)[1..] == b;
  }

  lemma {:induction false} SplitRaw(s: Text)
    requires EscapesOk(s)
    ensures forall i :: 0 <= i < |Split(s)| ==> RawToken(Split(s)[i])
  {
    if s != [] {
      if s[0] == TILDE {
        SplitRaw(s[2..]);
        var rest := Split(s[2..]);
        assert s[1..][1..] == s[2..];
        assert Split(s[1..]) == [[s[1]] + rest[0]] + rest[1..];
        assert Split(s) == [[s[0]] + ([s[1]] + rest[0])] + rest[1..];
        var t := [s[0]] + ([s[1]] + rest[0]);
        assert t[2..] == rest[0];
        assert RawToken(t);
      } else {
        SplitRaw(s[1..]);
        var rest := Split(s[1..]);
        var t := [s[0]] + rest[0];
        assert t[1..] == rest[0];
        assert s[0] != SLASH ==> RawToken(t);
      }
    }
  }

  lemma {:induction false} SplitOfGlue(parts: seq<Text>)
    requires parts != [] && forall i :: 0 <= i < |parts| ==> SLASH !in parts[i]
    ensures Split(Glue(parts)) == [[]] + parts
  {
    var s := Glue(parts);
    assert s[1..] == parts[0] + Glue(parts[1..]);
    if parts[1..] == [] {
      SplitFirst(parts[0], []);
      assert parts == [parts[0]];
    } else {
      SplitOfGlue(parts[1..]);
      SplitFirst(parts[0], Glue(parts[1..]));
      assert parts == [parts[0]] + parts[1..];
    }
  }

  lemma {:induction false} SplitFirst(t: Text, rest: Text)
    requires SLASH !in t && (rest == [] || rest[0] == SLASH)
    ensures Split(t + rest) == [t] + Split(rest)[1..]
  {
    if t == [] {
      assert t + rest == rest;
    } else {
      SplitFirst(t[1..], rest);
      var s := t + rest;
      assert s[1..] == t[1..] + rest && s[0] == t[0];
      assert t == [t[0]] + t[1..];
      assert Split(s) == [[t[0]] + t[1..]] + Split(rest)[1..];
    }
  }

  function Escaped(path: seq<Text>): seq<Text> {
    seq(|path|, i requires 0 <= i < |path| => EscapeToken(path[i]))
  }

  lemma {:induction false} EncodeIsGlue(path: seq<Text>)
    ensures Encode(path) == Glue(Escaped(path))
  {
    if path != [] {
      EncodeIsGlue(path[1..]);
      assert Escaped(path)[1..] == Escaped(path[1..]);
    }
  }

  lemma EscapesAppend(s: Text, t: Text)
    requires EscapesOk(s) && EscapesOk(t)
    ensures EscapesOk(s + t)
  {
    if s != [] {
      var n := if s[0] == TILDE then 2 else 1;
      EscapesAppend(s[n..], t);
      assert (s + t)[n..] == s[n..] + t;
    } else {
      assert s + t == t;
    }
  }

  lemma NothingEscaped()
    ensures EscapesOk([]) && ValidPointer([])
  {
  }

  lemma SlashThen(s: Text)
    requires EscapesOk(s)
    ensures ValidPointer([SLASH] + s) && EscapesOk([SLASH] + s)
  {
    assert ([SLASH] + s)[1..] == s;
  }

  lemma {:induction false} EncodeValid(path: seq<Text>)
    ensures ValidPointer(Encode(path)) && EscapesOk(Encode(path))
  {
    hide EscapesOk, EscapeToken, ValidPointer;
    NothingEscaped();
    if path != [] {
      EncodeValid(path[1..]);
      EscapeRoundTrip(path[0]);
      var t := EscapeToken(path[0]);
      EscapesAppend(t, Encode(path[1..]));
      SlashThen(t + Encode(path[1..]));
      assert Encode(path) == [SLASH] + (t + Encode(path[1..]));
    }
  }

  /** The encoding of any path is a valid pointer that decodes to that path. */
  lemma EncodeDecodes(path: seq<Text>)
    ensures ValidPointer(Encode(path)) && Decode(Encode(path)) == path
  {
    hide EscapesOk, Token, Unescape, EscapeToken;
    EncodeValid(path);
    EncodeIsGlue(path);
    if path != [] {
      forall i | 0 <= i < |path| ensures SLASH !in Escaped(path)[i] && Token(Escaped(path)[i]) == path[i] {
        EscapeRoundTrip(path[i]);
        TwoPassesAreOne(EscapeToken(path[i]));
      }
      SplitOfGlue(Escaped(path));
      assert Split(Encode(path))[1..] == Escaped(path);
      assert Encode(path) != [];
    }
  }

  /** Conversely a valid pointer is the encoding of what it decodes to, so no two valid
      pointers name the same path. */
  lemma DecodeEncodes(pointer: Text)
    requires ValidPointer(pointer)
    ensures Encode(Decode(pointer)) == pointer
  {
    hide Token, Unescape, EscapeToken, Encode;
    EncodeIsGlue(Decode(pointer));
    if pointer != [] {
      var s := pointer[1..];
      var parts := Split(s);
      assert pointer == [SLASH] + s;
      assert Split(pointer)[1..] == parts;
      SplitGlued(s);
      SplitRaw(s);
      forall i | 0 <= i < |parts| ensures EscapeToken(Token(parts[i])) == parts[i] {
        assert RawToken(parts[i]);
        TwoPassesAreOne(parts[i]);
        UnescapeRoundTrip(parts[i]);
      }
      assert Escaped(Decode(pointer)) == parts;
    } else {
      assert Escaped([]) == [];
    }
  }

  lemma DecodeInjective(p: Text, q: Text)
    requires ValidPointer(p) && ValidPointer(q) && Decode(p) == Decode(q)
    ensures p == q
  {
    hide Decode, Encode;
    DecodeEncodes(p);
    DecodeEncodes(q);
  }

  // ----- Resolution -----

  /** What Python's `int` makes of a code point: the value of a decimal digit of any script. */
  type Numerals = Code -> Option<nat>

  /** Each stands for a digit, and among the ASCII characters the digits are the usual ones. */
  ghost predicate Decimal(numerals: Numerals) {
    forall c :: (numerals(c).Some? ==> numerals(c).value < 10)
      && (c < 0x80 ==> numerals(c) == if ZERO <= c <= 0x39 then Some(c as nat - 0x30) else None)
  }

  predicate AllDecimal(numerals: Numerals, token: Text) {
    forall i :: 0 <= i < |token| ==> numerals(token[i]).Some?
  }

  /** `token.isdigit()` and `int(token)` pass, without a leading zero; "-" does not. A digit that
      `int` refuses, as the superscripts, raises as no digit does. */
  predicate IsIndex(numerals: Numerals, token: Text) {
    token != [] && AllDecimal(numerals, token) && (|token| > 1 ==> token[0] != ZERO)
  }

  /** `int(token)` */
  function IndexValue(numerals: Numerals, token: Text): nat
    requires AllDecimal(numerals, token)
  {
    if token == [] then 0
    else IndexValue(numerals, token[..|token| - 1]) * 10 + numerals(token[|token| - 1]).value
  }

  predicate AsciiDigits(token: Text) {
    forall i :: 0 <= i < |token| ==> ZERO <= token[i] <= 0x39
  }

  function Chars(token: Text): (s: string)
    requires AsciiDigits(token)
    ensures |s| == |token| && Digits.AllDigits(s)
  {
    seq(|token|, i requires 0 <= i < |token| => token[i] as char)
  }

  lemma {:induction false} AsciiIndex(numerals: Numerals, token: Text)
    requires Decimal(numerals) && AsciiDigits(token)
    ensures AllDecimal(numerals, token) && IndexValue(numerals, token) == Digits.NatValue(Chars(token))
  {
    if token != [] {
      var n := |token| - 1;
      AsciiIndex(numerals, token[..n]);
      assert Chars(token)[..n] == Chars(token[..n]);
      assert numerals(token[n]) == Some(Digits.DigitValue(Chars(token)[n]));
    }
  }

  function IndexText(n: nat): Text {
    Ascii(Digits.NatText(n))
  }

  function Find(members: seq<Member>, key: Text): Option<Value> {
    if members == [] then None
    else if members[0].key == key then Some(members[0].value)
    else Find(members[1..], key)
  }

  function Child(numerals: Numerals, v: Value, token: Text): Option<Value> {
    match v
    case Object(members) => Find(members, token)
    case Array(items) =>
      if IsIndex(numerals, token) && IndexValue(numerals, token) < |items|
      then Some(items[IndexValue(numerals, token)]) else None
    case _ => None
  }

  function Walk(numerals: Numerals, v: Value, tokens: seq<Text>): Option<Value>
    decreases tokens
  {
    if tokens == [] then Some(v)
    else
      var next := Child(numerals, v, tokens[0]);
      if next.None? then None else Walk(numerals, next.value, tokens[1..])
  }

  /** `_resolve_json_pointer` */
  method ResolveJsonPointer(numerals: Numerals, document: Value, pointer: Text) returns (value: Option<Value>)
    ensures value == Walk(numerals, document, Decode(pointer))
  {
    if pointer == [] { return Some(document); }
    var rawTokens := Split(pointer)[1..];
    var current := document;
    for i := 0 to |rawTokens|
      invariant Walk(numerals, document, Tokens(rawTokens)) == Walk(numerals, current, Tokens(rawTokens)[i..])
    {
      var token := Replace(Replace(rawTokens[i], ONE, SLASH), ZERO, TILDE);
      assert Tokens(rawTokens)[i..][1..] == Tokens(rawTokens)[i + 1..];
      match current
      case Object(members) =>
        var found := Find(members, token);
        if found.None? { return None; }
        current := found.value;
      case Array(items) =>
        if !IsIndex(numerals, token) { return None; }
        var index := IndexValue(numerals, token);
        if index >= |items| { return None; }
        current := items[index];
      case _ => return None;
    }
    return Some(current);
  }

  // ----- Nodes of a document -----

  datatype Step = ByKey(key: Text) | ByIndex(index: nat)

  predicate StepsTo(v: Value, step: Step, child: Value) {
    match step
    case ByKey(key) => v.Object? && Member(key, child) in v.members
    case ByIndex(index) => v.Array? && index < |v.items| && v.items[index] == child
  }

  /** `node` is what these steps lead to. */
  ghost predicate Reaches(v: Value, steps: seq<Step>, node: Value) {
    if steps == [] then v == node
    else exists child :: StepsTo(v, steps[0], child) && Reaches(child, steps[1..], node)
  }

  function StepText(step: Step): Text {
    match step
    case ByKey(key) => key
    case ByIndex(index) => IndexText(index)
  }

  function Texts(steps: seq<Step>): seq<Text> {
    seq(|steps|, i requires 0 <= i < |steps| => StepText(steps[i]))
  }

  lemma IndexRoundTrip(numerals: Numerals, n: nat)
    requires Decimal(numerals)
    ensures IsIndex(numerals, IndexText(n)) && IndexValue(numerals, IndexText(n)) == n
  {
    Digits.NatRoundTrip(n);
    var s := Digits.NatText(n);
    assert forall i :: 0 <= i < |s| ==> Digits.IsDigit(s[i]);
    assert Chars(IndexText(n)) == s;
    AsciiIndex(numerals, IndexText(n));
  }

  /** Of the tokens for an index, the one that `str` writes is the one in ASCII digits. */
  lemma IndexTextUnique(numerals: Numerals, token: Text)
    requires Decimal(numerals) && IsIndex(numerals, token)
    ensures IndexText(IndexValue(numerals, token)) == token <==> AsciiDigits(token)
  {
    if AsciiDigits(token) {
      var s := Chars(token);
      AsciiIndex(numerals, token);
      assert s[0] == token[0] as char;
      Digits.ValueRoundTrip(s);
      assert Ascii(s) == token;
    } else {
      var n := IndexValue(numerals, token);
      Digits.NatRoundTrip(n);
      assert forall i :: 0 <= i < |Digits.NatText(n)| ==> Digits.IsDigit(Digits.NatText(n)[i]);
      assert AsciiDigits(IndexText(n));
    }
  }

  lemma {:induction false} FindMember(members: seq<Member>, key: Text, child: Value)
    requires forall i, j :: 0 <= i < j < |members| ==> members[i].key != members[j].key
    ensures Find(members, key) == Some(child) <==> Member(key, child) in members
  {
    if members != [] {
      FindMember(members[1..], key, child);
      assert members == [members[0]] + members[1..];
      assert forall m :: m in members[1..] ==> m.key != members[0].key;
    }
  }

  lemma StepIsChild(numerals: Numerals, v: Value, step: Step, child: Value)
    requires Decimal(numerals) && WellFormed(v) && StepsTo(v, step, child)
    ensures Child(numerals, v, StepText(step)) == Some(child) && WellFormed(child)
  {
    match step
    case ByKey(key) => FindMember(v.members, key, child);
    case ByIndex(index) => IndexRoundTrip(numerals, index);
  }

  lemma ChildIsStep(numerals: Numerals, v: Value, token: Text) returns (step: Step)
    requires Decimal(numerals) && WellFormed(v) && Child(numerals, v, token).Some?
    ensures StepsTo(v, step, Child(numerals, v, token).value) && WellFormed(Child(numerals, v, token).value)
    ensures StepText(step) == token <==> Plainly(step, token)
  {
    match v
    case Object(members) =>
      step := ByKey(token);
      FindMember(members, token, Child(numerals, v, token).value);
    case Array(items) =>
      step := ByIndex(IndexValue(numerals, token));
      IndexTextUnique(numerals, token);
  }

  /** An index is written in ASCII digits. */
  predicate Plainly(step: Step, token: Text) {
    step.ByIndex? ==> AsciiDigits(token)
  }

  lemma {:induction false} WalkReaches(numerals: Numerals, v: Value, steps: seq<Step>, node: Value)
    requires Decimal(numerals) && WellFormed(v) && Reaches(v, steps, node)
    ensures Walk(numerals, v, Texts(steps)) == Some(node)
    decreases steps
  {
    hide WellFormed, StepsTo, Child, StepText, Decimal;
    if steps != [] {
      var child :| StepsTo(v, steps[0], child) && Reaches(child, steps[1..], node);
      StepIsChild(numerals, v, steps[0], child);
      WalkReaches(numerals, child, steps[1..], node);
      assert Texts(steps)[1..] == Texts(steps[1..]);
    }
  }

  lemma {:induction false} ReachesByWalk(numerals: Numerals, v: Value, tokens: seq<Text>) returns (steps: seq<Step>)
    requires Decimal(numerals) && WellFormed(v) && Walk(numerals, v, tokens).Some?
    ensures Reaches(v, steps, Walk(numerals, v, tokens).value) && |steps| == |tokens|
    ensures forall i :: 0 <= i < |steps| ==> (StepText(steps[i]) == tokens[i] <==> Plainly(steps[i], tokens[i]))
    decreases tokens
  {
    hide WellFormed, StepsTo, Child, StepText, Decimal, Plainly;
    if tokens == [] {
      steps := [];
    } else {
      var step := ChildIsStep(numerals, v, tokens[0]);
      var rest := ReachesByWalk(numerals, Child(numerals, v, tokens[0]).value, tokens[1..]);
      steps := [step] + rest;
      assert steps[1..] == rest;
    }
  }

  /** The pointer that encodes the path to a node is valid and resolves to that node. */
  lemma EveryNodeHasItsPointer(numerals: Numerals, document: Value, steps: seq<Step>, node: Value)
    requires Decimal(numerals) && WellFormed(document) && Reaches(document, steps, node)
    ensures var pointer := Encode(Texts(steps));
      ValidPointer(pointer) && Walk(numerals, document, Decode(pointer)) == Some(node)
  {
    hide WellFormed, Decode, Encode, Walk, ValidPointer, Decimal;
    WalkReaches(numerals, document, steps, node);
    EncodeDecodes(Texts(steps));
  }

  /** A valid pointer that resolves leads to a node, and it is the encoding of the path to that node
      exactly when every index on the way is written in ASCII digits. */
  lemma ResolvedIsANode(numerals: Numerals, document: Value, pointer: Text) returns (steps: seq<Step>)
    requires Decimal(numerals) && WellFormed(document)
    requires ValidPointer(pointer) && Walk(numerals, document, Decode(pointer)).Some?
    ensures Reaches(document, steps, Walk(numerals, document, Decode(pointer)).value)
    ensures |steps| == |Decode(pointer)|
    ensures Encode(Texts(steps)) == pointer
       <==> forall i :: 0 <= i < |steps| ==> Plainly(steps[i], Decode(pointer)[i])
  {
    hide WellFormed, Decode, Encode, Walk, ValidPointer, Decimal, StepText, Plainly;
    var tokens := Decode(pointer);
    steps := ReachesByWalk(numerals, document, tokens);
    DecodeEncodes(pointer);
    EncodeDecodes(Texts(steps));
    if forall i :: 0 <= i < |steps| ==> Plainly(steps[i], tokens[i]) {
      assert Texts(steps) == tokens;
    } else {
      var i :| 0 <= i < |steps| && !Plainly(steps[i], tokens[i]);
      assert Texts(steps)[i] != tokens[i];
    }
  }

  const ARABIC_THREE: Code := 0x663

  lemma LoneToken(c: Code)
    requires c != SLASH && c != TILDE
    ensures ValidPointer([SLASH, c]) && Decode([SLASH, c]) == [[c]]
  {
    hide Decode, ValidPointer;
    assert EscapeToken([c]) == [c] + EscapeToken([]) == [c];
    assert Encode([[c]]) == [SLASH] + EscapeToken([c]) + Encode([]) == [SLASH, c];
    EncodeDecodes([[c]]);
  }

  /** An index in other digits resolves as well: "/" and ARABIC-INDIC DIGIT THREE leads to item 3. */
  lemma ForeignIndexResolves(numerals: Numerals, items: seq<Value>)
    requires Decimal(numerals) && numerals(ARABIC_THREE) == Some(3) && |items| > 3
    ensures var pointer := [SLASH, ARABIC_THREE];
      && ValidPointer(pointer) && Walk(numerals, Array(items), Decode(pointer)) == Some(items[3])
      && Encode(Texts([ByIndex(3)])) != pointer
  {
    var token := [ARABIC_THREE];
    LoneToken(ARABIC_THREE);
    assert IndexValue(numerals, token) == IndexValue(numerals, token[..0]) * 10 + 3;
    assert Walk(numerals, Array(items), [token]) == Some(items[3]);
    IndexTextUnique(numerals, token);
    EncodeDecodes(Texts([ByIndex(3)]));
    assert Texts([ByIndex(3)])[0] != token;
  }

  lemma {:induction false} WalkWellFormed(numerals: Numerals, v: Value, tokens: seq<Text>)
    requires Decimal(numerals) && WellFormed(v) && Walk(numerals, v, tokens).Some?
    ensures WellFormed(Walk(numerals, v, tokens).value)
    decreases tokens
  {
    hide WellFormed, StepsTo, Child, Decimal;
    if tokens != [] {
      var _ := ChildIsStep(numerals, v, tokens[0]);
      WalkWellFormed(numerals, Child(numerals, v, tokens[0]).value, tokens[1..]);
    }
  }
}
