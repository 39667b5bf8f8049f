/** Decimal numerals: `str(n)`, `int(s)` on ASCII digits and the `:04d` padding. */
module Digits {

  predicate IsDigit(c: char) {
    '0' <= c <= '9'
  }

  /** `s.isdigit()` restricted to ASCII, without its non-emptiness half. */
  predicate AllDigits(s: string) {
    forall i :: 0 <= i < |s| ==> IsDigit(s[i])
  }

  function DigitChar(d: nat): (c: char)
    requires d < 10
    ensures IsDigit(c) && DigitValue(c) == d
  {
    ('0' as int + d) as char
  }

  function DigitValue(c: char): (d: nat)
    requires IsDigit(c)
    ensures d < 10
  {
    c as int - '0' as int
  }

  function NatText(n: nat): string {
    if n < 10 then [DigitChar(n)] else NatText(n / 10) + [DigitChar(n % 10)]
  }

  function NatValue(s: string): nat
    requires AllDigits(s)
  {
    if s == "" then 0 else NatValue(s[..|s| - 1]) * 10 + DigitValue(s[|s| - 1])
  }

  /** Reading back a numeral gives the number, and only "0" starts with a zero. */
  lemma {:induction false} NatRoundTrip(n: nat)
    ensures AllDigits(NatText(n)) && NatText(n) != ""
    ensures NatValue(NatText(n)) == n
    ensures NatText(n)[0] == '0' ==> NatText(n) == "0"
  {
    if n >= 10 {
      NatRoundTrip(n / 10);
      var s := NatText(n);
      assert s[..|s| - 1] == NatText(n / 10);
      assert s[0] == NatText(n / 10)[0];
      assert NatValue("0") == NatValue("") * 10 + DigitValue('0');
    } else {
      assert NatText(n)[..0] == "";
    }
  }

  /** A numeral without leading zeros is the one `str` writes. */
  lemma {:induction false} ValueRoundTrip(s: string)
    requires s != "" && AllDigits(s) && (s[0] == '0' ==> |s| == 1)
    ensures NatText(NatValue(s)) == s
    ensures s[0] != '0' ==> NatValue(s) > 0
  {
    var init, d := s[..|s| - 1], DigitValue(s[|s| - 1]);
    assert s == init + [s[|s| - 1]] && DigitChar(d) == s[|s| - 1];
    if init == "" {
      assert NatValue(init) == 0;
    } else {
      assert init[0] == s[0];
      ValueRoundTrip(init);
      assert NatValue(s) / 10 == NatValue(init) && NatValue(s) % 10 == d;
    }
  }

  function Zeros(k: nat): string {
    if k == 0 then "" else "0" + Zeros(k - 1)
  }

  /** `f"{n:04d}"` */
  function Padded4(n: nat): string {
    var s := NatText(n);
    if |s| >= 4 then s else Zeros(4 - |s|) + s
  }

  lemma {:induction false} LeadingZeros(k: nat, s: string)
    requires AllDigits(s)
    ensures AllDigits(Zeros(k) + s) && NatValue(Zeros(k) + s) == NatValue(s)
    decreases k, |s|
  {
    var padded := Zeros(k) + s;
    if k == 0 {
      assert padded == s;
    } else if s == "" {
      LeadingZeros(k - 1, "");
      assert padded == "0" + Zeros(k - 1);
      ZerosValue(k);
      assert Zeros(k) + s == Zeros(k);
    } else {
      LeadingZeros(k, s[..|s| - 1]);
      assert padded[..|padded| - 1] == Zeros(k) + s[..|s| - 1];
      assert AllDigits(padded) by {
        assert padded == (Zeros(k) + s[..|s| - 1]) + [s[|s| - 1]];
      }
    }
  }

  lemma {:induction false} ZerosValue(k: nat)
    ensures |Zeros(k)| == k && AllDigits(Zeros(k)) && NatValue(Zeros(k)) == 0
    ensures forall i :: 0 <= i < k ==> Zeros(k)[i] == '0'
  {
    if k > 0 {
      ZerosValue(k - 1);
      assert Zeros(k)[..k - 1] == Zeros(k - 1);
    }
  }

  lemma PaddedValue(n: nat)
    ensures AllDigits(Padded4(n)) && NatValue(Padded4(n)) == n
  {
    NatRoundTrip(n);
    var s := NatText(n);
    if |s| < 4 { LeadingZeros(4 - |s|, s); }
  }

  /** Padding never makes two numbers look alike. */
  lemma PaddedInjective(m: nat, n: nat)
    requires Padded4(m) == Padded4(n)
    ensures m == n
  {
    PaddedValue(m);
    PaddedValue(n);
  }
}
