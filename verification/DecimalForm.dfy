/** Exact decimals as the JSON parser yields them and their canonical triples
    (`_canonical_decimal` in `src/artifact_proof/checks.py`). */
module DecimalForm {
  type Digit = d: nat | d < 10

  /** `Decimal.as_tuple()` */
  datatype Decimal = Decimal(negative: bool, digits: seq<Digit>, exponent: int)

  datatype Triple = Triple(sign: nat, digits: seq<Digit>, exponent: int)

  /** What `Decimal` guarantees of a coefficient: some digits, and no leading zero besides "0". */
  predicate Coefficient(digits: seq<Digit>) {
    digits != [] && (digits[0] == 0 ==> digits == [0])
  }

  predicate AnyNonzero(digits: seq<Digit>) {
    exists i :: 0 <= i < |digits| && digits[i] != 0
  }

  function TrailingZeros(digits: seq<Digit>): (n: nat)
    ensures n <= |digits|
  {
    if digits != [] && digits[|digits| - 1] == 0 then 1 + TrailingZeros(digits[..|digits| - 1]) else 0
  }

  const ZERO_TRIPLE := Triple(0, [0], 0)

  function Canonical(d: Decimal): Triple {
    if !AnyNonzero(d.digits) then ZERO_TRIPLE
    else
      var n := TrailingZeros(d.digits);
      Triple(if d.negative then 1 else 0, d.digits[..|d.digits| - n], d.exponent + n)
  }

  /** `_canonical_decimal` */
  method CanonicalDecimal(d: Decimal) returns (t: Triple)
    ensures t == Canonical(d)
  {
    var digits, exponent := d.digits, d.exponent;
    if !AnyNonzero(digits) { return ZERO_TRIPLE; }
    while digits != [] && digits[|digits| - 1] == 0
      invariant TrailingZeros(d.digits) == |d.digits| - |digits| + TrailingZeros(digits)
      invariant digits == d.digits[..|digits|]
      invariant exponent - d.exponent == |d.digits| - |digits|
      decreases |digits|
    {
      digits, exponent := digits[..|digits| - 1], exponent + 1;
    }
    return Triple(if d.negative then 1 else 0, digits, exponent);
  }

  // ----- The number a decimal stands for -----

  function Coeff(digits: seq<Digit>): nat {
    if digits == [] then 0 else Coeff(digits[..|digits| - 1]) * 10 + digits[|digits| - 1]
  }

  function Pow10(e: int): real
    decreases if e < 0 then -e else e
  {
    if e == 0 then 1.0 else if e > 0 then Pow10(e - 1) * 10.0 else Pow10(e + 1) / 10.0
  }

  function Signed(negative: bool, digits: seq<Digit>, exponent: int): real {
    (if negative then -1.0 else 1.0) * (Coeff(digits) as real) * Pow10(exponent)
  }

  function Number(d: Decimal): real {
    Signed(d.negative, d.digits, d.exponent)
  }

  lemma {:induction false} Pow10Next(e: int)
    ensures Pow10(e + 1) == Pow10(e) * 10.0
  {
  }

  lemma {:induction false} Pow10Positive(e: int)
    ensures Pow10(e) > 0.0
    decreases if e < 0 then -e else e
  {
    if e > 0 { Pow10Positive(e - 1); }
    if e < 0 { Pow10Positive(e + 1); }
  }

  lemma {:induction false} CoeffZero(digits: seq<Digit>)
    ensures AnyNonzero(digits) <==> Coeff(digits) > 0
  {
    if digits != [] {
      var init, last := digits[..|digits| - 1], digits[|digits| - 1];
      CoeffZero(init);
      assert digits == init + [last];
      if last == 0 && AnyNonzero(digits) {
        var i :| 0 <= i < |digits| && digits[i] != 0;
        assert init[i] != 0;
      }
      if AnyNonzero(init) {
        var i :| 0 <= i < |init| && init[i] != 0;
        assert digits[i] != 0;
      }
    }
  }

  lemma TimesTen(negative: bool, c: nat, p: real)
    ensures (if negative then -1.0 else 1.0) * (c as real) * (p * 10.0)
         == (if negative then -1.0 else 1.0) * ((c * 10) as real) * p
  {
  }

  lemma ZeroDropped(negative: bool, digits: seq<Digit>, exponent: int)
    requires digits != [] && digits[|digits| - 1] == 0
    ensures Signed(negative, digits[..|digits| - 1], exponent + 1) == Signed(negative, digits, exponent)
  {
    hide Pow10;
    Pow10Next(exponent);
    TimesTen(negative, Coeff(digits[..|digits| - 1]), Pow10(exponent));
  }

  /** Dropping trailing zeros while raising the exponent keeps the number. */
  lemma {:induction false} StrippedSameNumber(negative: bool, digits: seq<Digit>, exponent: int)
    ensures var n := TrailingZeros(digits);
      Signed(negative, digits[..|digits| - n], exponent + n) == Signed(negative, digits, exponent)
    decreases |digits|
  {
    hide Signed, Coeff, Pow10;
    if digits != [] && digits[|digits| - 1] == 0 {
      var init := digits[..|digits| - 1];
      StrippedSameNumber(negative, init, exponent + 1);
      assert digits[..|digits| - TrailingZeros(digits)] == init[..|init| - TrailingZeros(init)];
      ZeroDropped(negative, digits, exponent);
    } else {
      assert digits[..|digits|] == digits;
    }
  }

  // ----- One triple per number -----

  /** A triple as `_canonical_decimal` leaves it. */
  predicate Stripped(t: Triple) {
    || t == ZERO_TRIPLE
    || (t.sign <= 1 && t.digits != [] && t.digits[0] != 0 && t.digits[|t.digits| - 1] != 0)
  }

  function Value(t: Triple): real {
    Signed(t.sign == 1, t.digits, t.exponent)
  }

  lemma {:induction false} StrippedEnds(digits: seq<Digit>)
    ensures var kept := digits[..|digits| - TrailingZeros(digits)];
      && (AnyNonzero(digits) ==> kept != [])
      && (kept != [] ==> kept[|kept| - 1] != 0)
  {
    if digits != [] && digits[|digits| - 1] == 0 {
      var init := digits[..|digits| - 1];
      StrippedEnds(init);
      assert digits[..|digits| - TrailingZeros(digits)] == init[..|init| - TrailingZeros(init)];
      if AnyNonzero(digits) {
        var i :| 0 <= i < |digits| && digits[i] != 0;
        assert init[i] != 0;
      }
    }
  }

  lemma ZeroValue(negative: bool, digits: seq<Digit>, exponent: int)
    requires Coeff(digits) == 0
    ensures Signed(negative, digits, exponent) == 0.0
  {
  }

  /** The triple stands for the same number and is in stripped form. */
  lemma CanonicalKeepsNumber(d: Decimal)
    requires Coefficient(d.digits)
    ensures Stripped(Canonical(d)) && Value(Canonical(d)) == Number(d)
  {
    hide Signed, Coeff, Pow10, TrailingZeros;
    CoeffZero(d.digits);
    if AnyNonzero(d.digits) {
      StrippedSameNumber(d.negative, d.digits, d.exponent);
      StrippedEnds(d.digits);
      assert d.digits[0] != 0;
    } else {
      ZeroValue(d.negative, d.digits, d.exponent);
      assert Value(ZERO_TRIPLE) == 0.0 by { ZeroIsZero(); }
    }
  }

  lemma ZeroIsZero()
    ensures Value(ZERO_TRIPLE) == 0.0
  {
    assert Coeff([0]) == 0;
    ZeroValue(false, [0], 0);
  }

  /** Without leading zeros a coefficient has one spelling. */
  lemma {:induction false} CoeffInjective(a: seq<Digit>, b: seq<Digit>)
    requires a != [] ==> a[0] != 0
    requires b != [] ==> b[0] != 0
    requires Coeff(a) == Coeff(b)
    ensures a == b
  {
    CoeffZero(a);
    CoeffZero(b);
    if a != [] && b != [] {
      var a', b' := a[..|a| - 1], b[..|b| - 1];
      assert Coeff(a') == Coeff(b') && a[|a| - 1] == b[|b| - 1];
      CoeffInjective(a', b');
      assert a == a' + [a[|a| - 1]] && b == b' + [b[|b| - 1]];
    }
  }

  function NatPower(k: nat): nat {
    if k == 0 then 1 else NatPower(k - 1) * 10
  }

  lemma {:induction false} PowSplit(k: nat, e: int)
    ensures Pow10(e + k) == NatPower(k) as real * Pow10(e)
  {
    if k > 0 {
      PowSplit(k - 1, e);
      Pow10Next(e + k - 1);
    }
  }

  lemma Cancel(c: nat, d: nat, k: nat, p: real)
    requires p > 0.0
    requires c as real * (k as real * p) == d as real * p
    ensures c * k == d
  {
    assert (c as real * k as real) * p == d as real * p;
    assert c as real * k as real == d as real;
    assert (c * k) as real == c as real * k as real;
  }

  lemma MultipleOfTen(c: nat, n: nat)
    ensures (c * (n * 10)) % 10 == 0
  {
    assert c * (n * 10) == (c * n) * 10;
  }

  lemma {:induction false} NotByTen(c: nat, k: nat, d: nat)
    requires c * NatPower(k) == d && d % 10 != 0
    ensures k == 0
  {
    if k > 0 { MultipleOfTen(c, NatPower(k - 1)); }
  }

  lemma LastDigit(digits: seq<Digit>)
    requires digits != []
    ensures Coeff(digits) % 10 == digits[|digits| - 1]
  {
  }

  lemma SameMagnitude(a: Triple, b: Triple)
    requires a.digits != [] && a.digits[0] != 0
    requires b.digits != [] && b.digits[0] != 0 && b.digits[|b.digits| - 1] != 0
    requires a.exponent >= b.exponent
    requires Coeff(a.digits) as real * Pow10(a.exponent) == Coeff(b.digits) as real * Pow10(b.exponent)
    ensures a.digits == b.digits && a.exponent == b.exponent
  {
    hide Coeff, Pow10, NatPower;
    var k := a.exponent - b.exponent;
    PowSplit(k, b.exponent);
    Pow10Positive(b.exponent);
    Cancel(Coeff(a.digits), Coeff(b.digits), NatPower(k), Pow10(b.exponent));
    LastDigit(b.digits);
    NotByTen(Coeff(a.digits), k, Coeff(b.digits));
    PowerZero();
    CoeffInjective(a.digits, b.digits);
  }

  lemma PowerZero()
    ensures NatPower(0) == 1
  {
  }

  lemma SignOfValue(t: Triple)
    requires t.sign <= 1 && t.digits != [] && t.digits[0] != 0
    ensures Value(t) != 0.0 && (Value(t) < 0.0 <==> t.sign == 1)
    ensures Coeff(t.digits) as real * Pow10(t.exponent) == if t.sign == 1 then -Value(t) else Value(t)
  {
    hide Coeff, Pow10;
    CoeffZero(t.digits);
    Pow10Positive(t.exponent);
    var m := Coeff(t.digits) as real * Pow10(t.exponent);
    assert m > 0.0;
    assert Value(t) == (if t.sign == 1 then -1.0 else 1.0) * m by {
      assert t.sign == 1 ==> -1.0 * (Coeff(t.digits) as real) * Pow10(t.exponent) == -1.0 * m;
    }
  }

  lemma StrippedUnique(a: Triple, b: Triple)
    requires Stripped(a) && Stripped(b) && Value(a) == Value(b)
    ensures a == b
  {
    hide Value, Coeff, Pow10;
    ZeroIsZero();
    if a != ZERO_TRIPLE { SignOfValue(a); }
    if b != ZERO_TRIPLE { SignOfValue(b); }
    if a != ZERO_TRIPLE && b != ZERO_TRIPLE {
      if a.exponent >= b.exponent { SameMagnitude(a, b); } else { SameMagnitude(b, a); }
    }
  }

  /** Two decimals have one canonical triple exactly when they are one number. */
  lemma CanonicalIsExact(a: Decimal, b: Decimal)
    requires Coefficient(a.digits) && Coefficient(b.digits)
    ensures Canonical(a) == Canonical(b) <==> Number(a) == Number(b)
  {
    hide Value, Number, Canonical;
    CanonicalKeepsNumber(a);
    CanonicalKeepsNumber(b);
    if Number(a) == Number(b) { StrippedUnique(Canonical(a), Canonical(b)); }
  }
}
