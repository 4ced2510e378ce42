/**
 Zenon amounts as people type them: the accepted shape, one normal form per number, and the
 conversion to a token's base units (wasm/swap.go, wasm/offerterms.go, wasm/manager.go).
 */
module Decimal {
  import opened Prelude

  predicate IsDigit(c: char) {
    '0' <= c <= '9'
  }

  predicate AllDigits(s: string) {
    forall i :: 0 <= i < |s| ==> IsDigit(s[i])
  }

  function DigitValue(c: char): (d: nat)
    requires IsDigit(c)
    ensures d < 10
  {
    c as int - '0' as int
  }

  function Pow10(k: nat): (p: nat)
    ensures p > 0
  {
    if k == 0 then 1 else 10 * Pow10(k - 1)
  }

  /** A product the proofs below treat as a whole. */
  function Times(a: nat, b: nat): nat {
    a * b
  }

  /** The number a string of digits stands for. */
  function Digits(s: string): (n: nat)
    requires AllDigits(s)
  {
    if s == "" then 0 else 10 * Digits(s[..|s| - 1]) + DigitValue(s[|s| - 1])
  }

  /** A number in decimal digits. */
  function Written(n: nat): string {
    if n < 10 then [('0' as int + n) as char] else Written(n / 10) + [('0' as int + n % 10) as char]
  }

  // ---------- strings ----------

  predicate IsSpace(c: char) {
    c in "\t\n\r " || c == 11 as char || c == 12 as char || c == 0x85 as char || c == 0xA0 as char
    || c == 0x1680 as char || 0x2000 as char <= c <= 0x200a as char || c == 0x2028 as char || c == 0x2029 as char
    || c == 0x202f as char || c == 0x205f as char || c == 0x3000 as char
  }

  function TrimSpaceLeft(s: string): string {
    if s != "" && IsSpace(s[0]) then TrimSpaceLeft(s[1..]) else s
  }

  function TrimSpaceRight(s: string): string {
    if s != "" && IsSpace(s[|s| - 1]) then TrimSpaceRight(s[..|s| - 1]) else s
  }

  function TrimSpace(s: string): string {
    TrimSpaceRight(TrimSpaceLeft(s))
  }

  function TrimPlus(s: string): string {
    if s != "" && s[0] == '+' then s[1..] else s
  }

  function TrimZerosLeft(s: string): string {
    if s != "" && s[0] == '0' then TrimZerosLeft(s[1..]) else s
  }

  function TrimZerosRight(s: string): string {
    if s != "" && s[|s| - 1] == '0' then TrimZerosRight(s[..|s| - 1]) else s
  }

  /** The position of the first point, or the length when there is none. */
  function PointAt(s: string): (k: nat)
    ensures k <= |s|
    ensures k < |s| ==> s[k] == '.'
    ensures forall i :: 0 <= i < k ==> s[i] != '.'
  {
    if s == "" || s[0] == '.' then 0 else 1 + PointAt(s[1..])
  }

  function IntPart(s: string): string {
    s[..PointAt(s)]
  }

  function FracPart(s: string): string {
    if PointAt(s) == |s| then "" else s[PointAt(s) + 1..]
  }

  predicate HasPoint(s: string) {
    PointAt(s) < |s|
  }

  function Repeat(c: char, n: nat): (s: string)
    ensures |s| == n && forall i :: 0 <= i < n ==> s[i] == c
  {
    seq(n, i => c)
  }

  // ---------- the source's functions ----------

  /** Digits, optionally a point and more digits; or nothing at all. */
  predicate CanonicalZenonAmount(s: string) {
    s == ""
    || (IntPart(s) != "" && AllDigits(IntPart(s))
        && (HasPoint(s) ==> FracPart(s) != "" && AllDigits(FracPart(s))))
  }

  /** Nothing but zeros and points. */
  predicate ZeroAmount(s: string) {
    forall i :: 0 <= i < |s| ==> s[i] == '0' || s[i] == '.'
  }

  function NormalDecimal(given: string): string {
    var s := TrimSpace(TrimPlus(TrimSpace(given)));
    if s == "" then ""
    else if '-' in s || 'e' in s || 'E' in s || (HasPoint(s) && '.' in FracPart(s)) then s
    else
      var i := TrimZerosLeft(IntPart(s));
      var whole := if i == "" then "0" else i;
      if !HasPoint(s) then whole
      else
        var frac := TrimZerosRight(FracPart(s));
        if frac == "" then whole else whole + "." + frac
  }

  /** An integer as big.Int reads it in base ten: an optional sign, then at least one digit. */
  function ParseInteger(s: string): Option<int> {
    var body := if s != "" && (s[0] == '+' || s[0] == '-') then s[1..] else s;
    if body == "" || !AllDigits(body) then None
    else if s[0] == '-' then Some(0 - Digits(body))
    else Some(Digits(body))
  }

  function DecimalToBaseUnits(given: string, decimals: int): Result<int, string> {
    var s := TrimSpace(given);
    if s == "" then Err("amount is empty")
    else if s[0] == '-' then Err("amount must not be negative")
    else if decimals < 0 || decimals > 30 then Err("implausible decimals")
    else if |FracPart(s)| > decimals then Err("more decimal places than the token has")
    else
      var combined := IntPart(s) + FracPart(s) + Repeat('0', decimals - |FracPart(s)|);
      if combined == "" then Err("not a valid amount")
      else
        match ParseInteger(combined)
        case None => Err("not a valid decimal amount")
        case Some(v) => Ok(v)
  }

  // ---------- values ----------

  /** An accepted, non-blank amount is `Scaled(s) / 10^Places(s)`. */
  function Places(s: string): nat {
    |FracPart(s)|
  }

  function Scaled(s: string): nat
    requires CanonicalZenonAmount(s) && s != ""
  {
    FracDigits(s);
    Times(Digits(IntPart(s)), Pow10(Places(s))) + Digits(FracPart(s))
  }

  lemma FracDigits(s: string)
    requires CanonicalZenonAmount(s) && s != ""
    ensures AllDigits(IntPart(s)) && AllDigits(FracPart(s))
  {
  }

  /** The two amounts are the same number. */
  predicate SameValue(a: string, b: string)
    requires CanonicalZenonAmount(a) && a != "" && CanonicalZenonAmount(b) && b != ""
  {
    Times(Scaled(a), Pow10(Places(b))) == Times(Scaled(b), Pow10(Places(a)))
  }

  // ---------- digit strings ----------

  lemma {:induction false} DigitsAppend(a: string, b: string)
    requires AllDigits(a) && AllDigits(b)
    ensures AllDigits(a + b)
    ensures Digits(a + b) == Times(Digits(a), Pow10(|b|)) + Digits(b)
  {
    if b == "" {
      assert a + b == a;
    } else {
      var b', d := b[..|b| - 1], DigitValue(b[|b| - 1]);
      assert (a + b)[..|a + b| - 1] == a + b';
      DigitsAppend(a, b');
      TenTimes(Digits(a), Pow10(|b'|));
    }
  }

  lemma {:induction false} DigitsBound(s: string)
    requires AllDigits(s)
    ensures Digits(s) < Pow10(|s|)
  {
    if s != "" {
      DigitsBound(s[..|s| - 1]);
    }
  }

  lemma {:induction false} DigitsOfZeros(n: nat)
    ensures AllDigits(Repeat('0', n)) && Digits(Repeat('0', n)) == 0
  {
    if n > 0 {
      assert Repeat('0', n)[..n - 1] == Repeat('0', n - 1);
      DigitsOfZeros(n - 1);
    }
  }

  /** Strings of one length are told apart by their numbers. */
  lemma {:induction false} DigitsInjective(a: string, b: string)
    requires AllDigits(a) && AllDigits(b) && |a| == |b|
    requires Digits(a) == Digits(b)
    ensures a == b
  {
    if a != "" {
      var n := |a| - 1;
      LastStep(a);
      LastStep(b);
      hide Digits, DigitValue;
      LastDigits(Digits(a[..n]), DigitValue(a[n]), Digits(b[..n]), DigitValue(b[n]));
      DigitsInjective(a[..n], b[..n]);
      SameDigit(a[n], b[n]);
      assert a == a[..n] + [a[n]] && b == b[..n] + [b[n]];
    }
  }

  lemma LastStep(s: string)
    requires AllDigits(s) && s != ""
    ensures Digits(s) == 10 * Digits(s[..|s| - 1]) + DigitValue(s[|s| - 1])
  {
  }

  lemma SameDigit(a: char, b: char)
    requires IsDigit(a) && IsDigit(b) && DigitValue(a) == DigitValue(b)
    ensures a == b
  {
  }

  lemma LastDigits(x: nat, d: nat, y: nat, e: nat)
    requires d < 10 && e < 10 && 10 * x + d == 10 * y + e
    ensures x == y && d == e
  {
  }

  lemma {:induction false} LeadingDigit(s: string)
    requires AllDigits(s) && s != "" && s[0] != '0'
    ensures Digits(s) >= Pow10(|s| - 1)
  {
    if |s| > 1 {
      assert s[..|s| - 1][0] == s[0];
      LeadingDigit(s[..|s| - 1]);
    } else {
      assert s[..0] == "";
      assert DigitValue(s[0]) >= 1;
    }
  }

  lemma {:induction false} Pow10Monotone(a: nat, b: nat)
    requires a <= b
    ensures Pow10(a) <= Pow10(b)
  {
    if a < b {
      Pow10Monotone(a, b - 1);
    }
  }

  lemma {:induction false} Pow10Sum(a: nat, b: nat)
    ensures Pow10(a + b) == Times(Pow10(a), Pow10(b))
  {
    if a > 0 {
      Pow10Sum(a - 1, b);
      TenTimes(Pow10(a - 1), Pow10(b));
    }
  }

  lemma TenTimes(a: nat, b: nat)
    ensures 10 * Times(a, b) == Times(10 * a, b) == Times(a, 10 * b)
  {
  }

  lemma Pow10Positive(k: nat)
    ensures Pow10(k) >= 1
  {
  }

  /** An integer without a leading zero (or "0" itself). */
  predicate NormalWhole(s: string) {
    s != "" && AllDigits(s) && (s == "0" || s[0] != '0')
  }

  lemma NoShorter(a: string, b: string)
    requires AllDigits(a) && AllDigits(b) && b != "" && b[0] != '0' && Digits(a) == Digits(b)
    ensures |a| >= |b|
  {
    var n := |b| - 1;
    if |a| <= n {
      Pow10Monotone(|a|, n);
      DigitsBound(a);
      LeadingDigit(b);
    }
  }

  lemma NotZero(s: string)
    requires AllDigits(s) && s != "" && s[0] != '0'
    ensures Digits(s) > 0
  {
    Pow10Positive(|s| - 1);
    LeadingDigit(s);
  }

  lemma EmptyDigits()
    ensures Digits("") == 0
  {
  }

  lemma NoTrimOfEmpty()
    ensures TrimZerosRight("") == ""
  {
  }

  lemma ZeroString()
    ensures AllDigits("0") && Digits("0") == 0
  {
    assert "0"[..0] == "";
  }

  lemma NormalWholeInjective(a: string, b: string)
    requires NormalWhole(a) && NormalWhole(b) && Digits(a) == Digits(b)
    ensures a == b
  {
    hide Digits, Pow10;
    ZeroString();
    if a != "0" { NotZero(a); }
    if b != "0" { NotZero(b); }
    if a != "0" && b != "0" {
      NoShorter(a, b);
      NoShorter(b, a);
      DigitsInjective(a, b);
    }
  }

  // ---------- trimming ----------

  lemma {:induction false} TrimLeftValue(s: string)
    requires AllDigits(s)
    ensures AllDigits(TrimZerosLeft(s)) && Digits(TrimZerosLeft(s)) == Digits(s)
    ensures TrimZerosLeft(s) == "" || TrimZerosLeft(s)[0] != '0'
  {
    if s != "" && s[0] == '0' {
      TrimLeftValue(s[1..]);
      assert s == [s[0]] + s[1..];
      assert [s[0]][..0] == "";
      assert Digits([s[0]]) == 0;
      DigitsAppend([s[0]], s[1..]);
    }
  }

  lemma {:induction false} TrimRightValue(s: string)
    requires AllDigits(s)
    ensures AllDigits(TrimZerosRight(s)) && |TrimZerosRight(s)| <= |s|
    ensures Digits(s) == Times(Digits(TrimZerosRight(s)), Pow10(|s| - |TrimZerosRight(s)|))
    ensures TrimZerosRight(s) == "" || TrimZerosRight(s)[|TrimZerosRight(s)| - 1] != '0'
  {
    if s != "" && s[|s| - 1] == '0' {
      var s' := s[..|s| - 1];
      TrimRightValue(s');
      TenTimes(Digits(TrimZerosRight(s)), Pow10(|s'| - |TrimZerosRight(s)|));
    }
  }

  lemma TrimSpaceOfAmount(s: string)
    requires CanonicalZenonAmount(s)
    ensures TrimSpace(s) == s && TrimPlus(s) == s
    ensures '-' !in s && 'e' !in s && 'E' !in s
    ensures HasPoint(s) ==> '.' !in FracPart(s)
  {
    if s != "" {
      AmountCharacters(s);
      assert !IsSpace(s[0]) && !IsSpace(s[|s| - 1]);
    }
  }

  lemma AmountCharacters(s: string)
    requires CanonicalZenonAmount(s) && s != ""
    ensures forall i :: 0 <= i < |s| ==> IsDigit(s[i]) || s[i] == '.'
    ensures IsDigit(s[0]) && IsDigit(s[|s| - 1])
  {
    forall i | 0 <= i < |s| ensures IsDigit(s[i]) || s[i] == '.' {
      if i < PointAt(s) {
        assert s[i] == IntPart(s)[i];
      } else if i > PointAt(s) {
        assert s[i] == FracPart(s)[i - PointAt(s) - 1];
      }
    }
    assert s[0] == IntPart(s)[0];
    if HasPoint(s) {
      assert s[|s| - 1] == FracPart(s)[|FracPart(s)| - 1];
    } else {
      assert s[|s| - 1] == IntPart(s)[|s| - 1];
    }
  }

  /** A whole part, and a fraction when there is one, put together with a point. */
  function Join(whole: string, frac: string): string {
    if frac == "" then whole else whole + "." + frac
  }

  lemma JoinParts(whole: string, frac: string)
    requires AllDigits(whole)
    ensures IntPart(Join(whole, frac)) == whole && FracPart(Join(whole, frac)) == frac
    ensures HasPoint(Join(whole, frac)) <==> frac != ""
  {
    var s := Join(whole, frac);
    if frac == "" {
      NoPoint(s);
    } else {
      assert s[|whole|] == '.';
      assert forall i :: 0 <= i < |whole| ==> s[i] == whole[i];
      assert PointAt(s) == |whole|;
    }
  }

  lemma ScaledJoin(whole: string, frac: string)
    requires whole != "" && AllDigits(whole) && AllDigits(frac)
    ensures CanonicalZenonAmount(Join(whole, frac)) && Join(whole, frac) != ""
    ensures Places(Join(whole, frac)) == |frac|
    ensures Scaled(Join(whole, frac)) == Times(Digits(whole), Pow10(|frac|)) + Digits(frac)
  {
    hide Digits, Pow10, PointAt, Join;
    JoinParts(whole, frac);
  }

  lemma NoPoint(s: string)
    requires AllDigits(s)
    ensures PointAt(s) == |s|
  {
  }

  // ---------- the theorems ----------

  /** What the normal form of an accepted amount is made of. */
  lemma NormalParts(s: string) returns (whole: string, frac: string)
    requires CanonicalZenonAmount(s) && s != ""
    ensures NormalDecimal(s) == Join(whole, frac)
    ensures NormalWhole(whole) && AllDigits(frac) && |frac| <= Places(s)
    ensures frac == "" || frac[|frac| - 1] != '0'
    ensures Digits(whole) == Digits(IntPart(s))
    ensures AllDigits(FracPart(s)) && Digits(FracPart(s)) == Times(Digits(frac), Pow10(Places(s) - |frac|))
  {
    hide Digits, Pow10, Times, PointAt, TrimZerosLeft, TrimZerosRight, TrimSpaceLeft, TrimSpaceRight;
    TrimSpaceOfAmount(s);
    FracDigits(s);
    TrimLeftValue(IntPart(s));
    TrimRightValue(FracPart(s));
    var i := TrimZerosLeft(IntPart(s));
    whole := if i == "" then "0" else i;
    frac := TrimZerosRight(FracPart(s));
    ZeroString();
    EmptyDigits();
    NoTrimOfEmpty();
  }

  /** The normal form is an accepted amount with the same value. */
  lemma NormalKeepsValue(s: string)
    requires CanonicalZenonAmount(s) && s != ""
    ensures CanonicalZenonAmount(NormalDecimal(s)) && NormalDecimal(s) != ""
    ensures SameValue(s, NormalDecimal(s))
    ensures Places(NormalDecimal(s)) <= Places(s)
    ensures Scaled(s) == Times(Scaled(NormalDecimal(s)), Pow10(Places(s) - Places(NormalDecimal(s))))
  {
    hide NormalDecimal, Digits, Pow10, PointAt, Join, Times;
    var whole, frac := NormalParts(s);
    ScaledJoin(whole, frac);
    var k := Places(s) - |frac|;
    Pow10Sum(|frac|, k);
    Factor(Digits(whole), Pow10(|frac|), Digits(frac), Pow10(k));
    Regroup(Scaled(NormalDecimal(s)), Pow10(k), Pow10(|frac|));
  }

  lemma Factor(w: nat, p: nat, f: nat, q: nat)
    ensures Times(w, Times(p, q)) + Times(f, q) == Times(Times(w, p) + f, q)
  {
  }

  lemma Regroup(n: nat, q: nat, p: nat)
    ensures Times(Times(n, q), p) == Times(n, Times(p, q)) == Times(n, Times(q, p))
  {
  }

  /** Normalising twice is normalising once. */
  lemma NormalIdempotent(s: string)
    requires CanonicalZenonAmount(s)
    ensures NormalDecimal(NormalDecimal(s)) == NormalDecimal(s)
  {
    if s == "" {
      assert NormalDecimal("") == "";
    } else {
      NormalKeepsValue(s);
      var whole, frac := NormalParts(s);
      JoinParts(whole, frac);
      var n := NormalDecimal(s);
      TrimSpaceOfAmount(n);
      assert TrimZerosLeft(whole) == (if whole == "0" then "" else whole) by {
        assert "0"[1..] == "";
      }
      assert TrimZerosRight(frac) == frac;
    }
  }

  /** Digits of a whole and of a fraction, as one number without the point. */
  function Joined(w: string, f: string): nat
    requires AllDigits(w) && AllDigits(f)
  {
    Times(Digits(w), Pow10(|f|)) + Digits(f)
  }

  /** Two normal forms with one value are one string. */
  lemma NormalUnique(wa: string, fa: string, wb: string, fb: string)
    requires NormalWhole(wa) && AllDigits(fa) && (fa == "" || fa[|fa| - 1] != '0')
    requires NormalWhole(wb) && AllDigits(fb) && (fb == "" || fb[|fb| - 1] != '0')
    requires Times(Joined(wa, fa), Pow10(|fb|)) == Times(Joined(wb, fb), Pow10(|fa|))
    ensures wa == wb && fa == fb
  {
    hide Digits, Pow10, Times;
    if |fa| < |fb| {
      PlacesAgree(wa, fa, wb, fb);
    } else if |fb| < |fa| {
      PlacesAgree(wb, fb, wa, fa);
    }
    var p := Pow10(|fa|);
    CancelFactor(Joined(wa, fa), Joined(wb, fb), p);
    DigitsBound(fa);
    DigitsBound(fb);
    DivisionUnique(Digits(wa), Digits(fa), Digits(wb), Digits(fb), p);
    DigitsInjective(fa, fb);
    NormalWholeInjective(wa, wb);
  }

  /** A longer fraction of the same value would end in a zero. */
  lemma PlacesAgree(wa: string, fa: string, wb: string, fb: string)
    requires AllDigits(wa) && AllDigits(fa) && AllDigits(wb) && AllDigits(fb) && |fa| < |fb|
    requires Times(Joined(wa, fa), Pow10(|fb|)) == Times(Joined(wb, fb), Pow10(|fa|))
    ensures fb[|fb| - 1] == '0'
  {
    var k, m := |fb| - |fa|, |fb| - 1;
    var rest, d := Digits(fb[..m]), DigitValue(fb[m]);
    TenMore(m);
    TenMore(k - 1);
    assert Digits(fb) == 10 * rest + d;
    hide Digits, Pow10, Times, Joined;
    Pow10Sum(|fa|, k);
    Regroup(Joined(wa, fa), Pow10(k), Pow10(|fa|));
    CancelFactor(Times(Joined(wa, fa), Pow10(k)), Joined(wb, fb), Pow10(|fa|));
    JoinedIs(wb, fb);
    LastDigit(Joined(wa, fa), Pow10(k - 1), Digits(wb), Pow10(m), rest, d);
  }

  lemma TenMore(k: nat)
    ensures Pow10(k + 1) == 10 * Pow10(k)
  {
  }

  lemma JoinedIs(w: string, f: string)
    requires AllDigits(w) && AllDigits(f)
    ensures Joined(w, f) == Times(Digits(w), Pow10(|f|)) + Digits(f)
  {
  }

  lemma LastDigit(a: nat, p: nat, w: nat, q: nat, rest: nat, d: nat)
    requires d < 10 && Times(a, 10 * p) == Times(w, 10 * q) + (10 * rest + d)
    ensures d == 0
  {
    hide Times;
    TenTimes(a, p);
    TenTimes(w, q);
  }

  lemma CancelFactor(a: nat, b: nat, p: nat)
    requires p > 0 && Times(a, p) == Times(b, p)
    ensures a == b
  {
    hide Times;
    if a < b { TimesStrict(a, b, p); }
    if b < a { TimesStrict(b, a, p); }
  }

  lemma TimesStrict(a: nat, b: nat, p: nat)
    requires a < b
    ensures Times(a, p) + p <= Times(b, p)
  {
    TimesMonotone(a + 1, b, p);
    assert Times(a + 1, p) == Times(a, p) + p;
  }

  lemma TimesMonotone(a: nat, b: nat, p: nat)
    requires a <= b
    ensures Times(a, p) <= Times(b, p)
  {
  }

  lemma DivisionUnique(wa: nat, fa: nat, wb: nat, fb: nat, p: nat)
    requires fa < p && fb < p && Times(wa, p) + fa == Times(wb, p) + fb
    ensures wa == wb && fa == fb
  {
    hide Times;
    if wa < wb { TimesStrict(wa, wb, p); }
    if wb < wa { TimesStrict(wb, wa, p); }
  }

  /** Amounts are the same number exactly when their normal forms are. */
  lemma NormalSameValue(a: string, b: string)
    requires CanonicalZenonAmount(a) && a != "" && CanonicalZenonAmount(b) && b != ""
    ensures CanonicalZenonAmount(NormalDecimal(a)) && NormalDecimal(a) != ""
    ensures CanonicalZenonAmount(NormalDecimal(b)) && NormalDecimal(b) != ""
    ensures SameValue(a, b) <==> SameValue(NormalDecimal(a), NormalDecimal(b))
  {
    hide Digits, Pow10, PointAt, NormalDecimal, Join, Scaled, Times, CanonicalZenonAmount, Places;
    NormalKeepsValue(a);
    NormalKeepsValue(b);
    var na, nb := NormalDecimal(a), NormalDecimal(b);
    var x, y := Places(a) - Places(na), Places(b) - Places(nb);
    Pow10Sum(Places(na), x);
    Pow10Sum(Places(nb), y);
    Cross(Scaled(na), Pow10(x), Pow10(Places(nb)), Pow10(y), Scaled(nb), Pow10(Places(na)));
  }

  /** Two accepted amounts normalise to one string exactly when they are one number. */
  lemma NormalExactly(a: string, b: string)
    requires CanonicalZenonAmount(a) && a != "" && CanonicalZenonAmount(b) && b != ""
    ensures NormalDecimal(a) == NormalDecimal(b) <==> SameValue(a, b)
  {
    hide Digits, Pow10, PointAt, NormalDecimal, Join, Scaled, Times, CanonicalZenonAmount, Places;
    NormalSameValue(a, b);
    if SameValue(a, b) {
      var wa, fa := NormalParts(a);
      var wb, fb := NormalParts(b);
      ScaledJoin(wa, fa);
      ScaledJoin(wb, fb);
      NormalUnique(wa, fa, wb, fb);
    }
  }

  lemma Rearrange(a: nat, x: nat, b: nat, y: nat)
    ensures Times(Times(a, x), Times(b, y)) == Times(Times(a, b), Times(x, y))
    ensures Times(x, y) == Times(y, x)
  {
    assert Times(Times(a, x), Times(b, y)) == (a * x) * (b * y);
    assert (a * x) * (b * y) == (a * b) * (x * y);
  }

  /** Removing the factors both sides share. */
  lemma Cross(sa: nat, x: nat, pb: nat, y: nat, sb: nat, pa: nat)
    requires x > 0 && y > 0
    ensures Times(Times(sa, x), Times(pb, y)) == Times(Times(sb, y), Times(pa, x)) <==> Times(sa, pb) == Times(sb, pa)
  {
    hide Times;
    Rearrange(sa, x, pb, y);
    Rearrange(sb, y, pa, x);
    TimesPositive(x, y);
    if Times(Times(sa, x), Times(pb, y)) == Times(Times(sb, y), Times(pa, x)) {
      CancelFactor(Times(sa, pb), Times(sb, pa), Times(x, y));
    }
  }

  lemma TimesPositive(x: nat, y: nat)
    requires x > 0 && y > 0
    ensures Times(x, y) > 0
  {
  }

  lemma CombinedDigits(i: string, f: string, n: nat)
    requires AllDigits(i) && AllDigits(f)
    ensures AllDigits(i + f + Repeat('0', n))
    ensures Digits(i + f + Repeat('0', n)) == Times(Times(Digits(i), Pow10(|f|)) + Digits(f), Pow10(n))
  {
    hide Digits, Pow10, Times;
    DigitsOfZeros(n);
    DigitsAppend(i, f);
    DigitsAppend(i + f, Repeat('0', n));
  }

  /** Conversion succeeds exactly when the token has room for the decimals, and yields value x 10^decimals. */
  lemma BaseUnitsExactly(s: string, decimals: int)
    requires CanonicalZenonAmount(s) && s != ""
    ensures var r := DecimalToBaseUnits(s, decimals);
            && (r.Ok? <==> Places(s) <= decimals <= 30)
            && (r.Ok? ==> r.value == Times(Scaled(s), Pow10(decimals - Places(s))))
  {
    hide Digits, Pow10, PointAt, TrimSpaceLeft, TrimSpaceRight, Times;
    TrimSpaceOfAmount(s);
    FracDigits(s);
    AmountCharacters(s);
    if Places(s) <= decimals <= 30 {
      var i, f, z := IntPart(s), FracPart(s), Repeat('0', decimals - Places(s));
      CombinedDigits(i, f, decimals - Places(s));
      assert IsDigit((i + f + z)[0]);
    }
  }

  /** The normal form converts wherever the amount does, to the same number of base units. */
  lemma BaseUnitsOfNormal(s: string, decimals: int)
    requires CanonicalZenonAmount(s) && s != ""
    requires DecimalToBaseUnits(s, decimals).Ok?
    ensures DecimalToBaseUnits(NormalDecimal(s), decimals) == DecimalToBaseUnits(s, decimals)
  {
    hide Digits, Pow10, PointAt, NormalDecimal, DecimalToBaseUnits, Scaled, Times;
    NormalKeepsValue(s);
    BaseUnitsExactly(s, decimals);
    BaseUnitsExactly(NormalDecimal(s), decimals);
    var n := NormalDecimal(s);
    var x, y := Places(s) - Places(n), decimals - Places(s);
    Pow10Sum(x, y);
    Regroup(Scaled(n), Pow10(x), Pow10(y));
  }

  /** An accepted amount is nothing, digits, or digits on both sides of one point. */
  lemma CanonicalExactly(s: string)
    ensures CanonicalZenonAmount(s) <==>
              s == "" || (s != "" && AllDigits(s))
              || exists i: string, f: string :: i != "" && f != "" && AllDigits(i) && AllDigits(f) && s == i + "." + f
  {
    if CanonicalZenonAmount(s) && HasPoint(s) {
      assert s == IntPart(s) + "." + FracPart(s);
    }
    if i: string, f: string :| i != "" && f != "" && AllDigits(i) && AllDigits(f) && s == i + "." + f {
      assert s[|i|] == '.' && forall k :: 0 <= k < |i| ==> s[k] == i[k] && s[k] != '.';
      assert PointAt(s) == |i|;
      assert IntPart(s) == i && FracPart(s) == f;
    }
  }

  /** Reading a written number gives it back, with or without its sign. */
  lemma ReadWritten(n: nat)
    ensures ParseInteger(Written(n)) == Some(n as int)
    ensures ParseInteger("+" + Written(n)) == Some(n) && ParseInteger("-" + Written(n)) == Some(0 - n)
  {
    WrittenDigits(n);
    assert ("+" + Written(n))[1..] == Written(n) && ("-" + Written(n))[1..] == Written(n);
    assert IsDigit(Written(n)[0]);
  }

  lemma {:induction false} WrittenDigits(n: nat)
    ensures Written(n) != "" && AllDigits(Written(n)) && Digits(Written(n)) == n
  {
    if n >= 10 {
      WrittenDigits(n / 10);
      var s := Written(n);
      assert s[..|s| - 1] == Written(n / 10);
    } else {
      assert Written(n)[..0] == "";
    }
  }

  lemma {:induction false} ZeroDigits(s: string)
    requires AllDigits(s)
    ensures Digits(s) == 0 <==> forall i :: 0 <= i < |s| ==> s[i] == '0'
  {
    if s != "" {
      var s' := s[..|s| - 1];
      ZeroDigits(s');
      assert forall i :: 0 <= i < |s'| ==> s[i] == s'[i];
      assert DigitValue(s[|s| - 1]) == 0 <==> s[|s| - 1] == '0';
    }
  }

  /** Only the number zero is a zero amount. */
  lemma ZeroAmountExactly(s: string)
    requires CanonicalZenonAmount(s) && s != ""
    ensures ZeroAmount(s) <==> Scaled(s) == 0
  {
    FracDigits(s);
    AmountCharacters(s);
    var i, f := IntPart(s), FracPart(s);
    ZeroDigits(i);
    ZeroDigits(f);
    assert Scaled(s) == 0 <==> Digits(i) == 0 && Digits(f) == 0 by {
      if Digits(i) > 0 { TimesPositive(Digits(i), Pow10(Places(s))); }
    }
    if ZeroAmount(s) {
      forall k | 0 <= k < |i| ensures i[k] == '0' { assert s[k] == i[k]; }
      forall k | 0 <= k < |f| ensures f[k] == '0' { assert s[PointAt(s) + 1 + k] == f[k]; }
    }
    if Digits(i) == 0 && Digits(f) == 0 {
      forall k | 0 <= k < |s| ensures s[k] == '0' || s[k] == '.' {
        if k < PointAt(s) { assert s[k] == i[k]; }
        if k > PointAt(s) { assert s[k] == f[k - PointAt(s) - 1]; }
      }
    }
  }
}
