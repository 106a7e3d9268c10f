/**
 Exact amounts as decimal strings (services/compliance/asset_reporting.go): base units are
 written with a decimal point and trailing zeros dropped, and read back to be added to.
 */
module Decimals {
  import opened Wrappers

  // ---- digits ----

  predicate IsDigit(c: char) {
    '0' <= c <= '9'
  }

  predicate AreDigits(s: string) {
    forall i | 0 <= i < |s| :: IsDigit(s[i])
  }

  function DigitOf(c: char): nat
    requires IsDigit(c)
  {
    c as int - '0' as int
  }

  function CharOf(k: nat): (c: char)
    requires k < 10
    ensures IsDigit(c) && DigitOf(c) == k
  {
    ('0' as int + k) as char
  }

  /** The number a string of digits writes. */
  function Value(s: string): nat
    requires AreDigits(s)
  {
    if s == "" then 0 else 10 * Value(s[..|s| - 1]) + DigitOf(s[|s| - 1])
  }

  /** A number in decimal. */
  function Digits(n: nat): (s: string)
    ensures AreDigits(s) && |s| >= 1
  {
    if n < 10 then [CharOf(n)] else Digits(n / 10) + [CharOf(n % 10)]
  }

  lemma {:induction false} DigitsWrite(n: nat)
    ensures Value(Digits(n)) == n
  {
    if n < 10 {
      assert Value([CharOf(n)]) == 10 * Value("") + n;
    } else {
      DigitsWrite(n / 10);
      var s := Digits(n);
      assert s[..|s| - 1] == Digits(n / 10);
    }
  }

  function Zeros(k: nat): (z: string)
    ensures |z| == k && AreDigits(z) && forall i | 0 <= i < k :: z[i] == '0'
  {
    if k == 0 then "" else Zeros(k - 1) + "0"
  }

  function Pow10(k: nat): nat {
    if k == 0 then 1 else 10 * Pow10(k - 1)
  }

  lemma {:induction false} Pow10Adds(j: nat, k: nat)
    ensures Pow10(j + k) == Pow10(j) * Pow10(k)
  {
    if k > 0 {
      Pow10Adds(j, k - 1);
    }
  }

  lemma {:induction false} Pow10Increases(j: nat, k: nat)
    requires j < k
    ensures 0 < Pow10(j) < Pow10(k)
  {
    if j + 1 < k {
      Pow10Increases(j, k - 1);
    } else if j > 0 {
      Pow10Increases(j - 1, k - 1);
    }
  }

  /** Zeros in front change nothing, and each behind multiplies by ten. */
  lemma {:induction false} LeadingZeros(k: nat, s: string)
    requires AreDigits(s)
    ensures Value(Zeros(k) + s) == Value(s)
  {
    if s != "" {
      LeadingZeros(k, s[..|s| - 1]);
      var t := Zeros(k) + s;
      assert t[..|t| - 1] == Zeros(k) + s[..|s| - 1];
    } else {
      assert Zeros(k) + s == Zeros(k);
      OnlyZeros(k);
    }
  }

  lemma {:induction false} OnlyZeros(k: nat)
    ensures Value(Zeros(k)) == 0
  {
    if k > 0 {
      OnlyZeros(k - 1);
      assert Zeros(k)[..k - 1] == Zeros(k - 1);
    }
  }

  lemma {:induction false} TrailingZeros(s: string, k: nat)
    requires AreDigits(s)
    ensures Value(s + Zeros(k)) == Value(s) * Pow10(k)
  {
    if k == 0 {
      assert s + Zeros(0) == s;
    } else {
      TrailingZeros(s, k - 1);
      LastZero(s, k - 1);
      TenTimes(Value(s), Pow10(k - 1));
    }
  }

  lemma LastZero(s: string, k: nat)
    requires AreDigits(s)
    ensures Value(s + Zeros(k + 1)) == 10 * Value(s + Zeros(k))
  {
    var t := s + Zeros(k + 1);
    assert t[..|t| - 1] == s + Zeros(k);
  }

  lemma TenTimes(a: int, b: int)
    ensures a * (10 * b) == 10 * (a * b)
  {
  }

  // ---- integers ----

  /** An integer in decimal, as big.Int prints it. */
  function String(a: int): string {
    if a < 0 then "-" + Digits(-a) else Digits(a)
  }

  /** Reading an integer in base 10: an optional sign and at least one digit. */
  function Parse(s: string): Option<int> {
    var body := if s != "" && (s[0] == '-' || s[0] == '+') then s[1..] else s;
    if body == "" || !AreDigits(body) then None
    else
      var v: int := Value(body);
      Some(if s[0] == '-' then -v else v)
  }

  function Sign(a: int): string {
    if a < 0 then "-" else ""
  }

  function Abs(a: int): nat {
    if a < 0 then -a else a
  }

  /** A magnitude with the sign of `a`. */
  function Signed(a: int, v: int): int {
    if a < 0 then -v else v
  }

  lemma ParseDigits(body: string)
    requires AreDigits(body) && body != ""
    ensures Parse(body) == Some(Value(body) as int)
  {
    assert IsDigit(body[0]);
  }

  lemma ParseNegative(body: string)
    requires AreDigits(body) && body != ""
    ensures Parse("-" + body) == Some(-(Value(body) as int))
  {
    assert ("-" + body)[1..] == body;
  }

  lemma ParseSigned(a: int, body: string)
    requires AreDigits(body) && body != ""
    ensures Parse(Sign(a) + body) == Some(Signed(a, Value(body)))
  {
    if a < 0 {
      ParseNegative(body);
    } else {
      ParseDigits(body);
      assert Sign(a) + body == body;
    }
  }

  // ---- the decimal point ----

  /** Zeros in front until there is a digit before the point. */
  function Fill(s: string, decimals: nat): (r: string)
    ensures |r| > decimals
  {
    if |s| <= decimals then Zeros(decimals + 1 - |s|) + s else s
  }

  function Trimmed(s: string): (t: string)
    ensures t <= s && (t == "" || t[|t| - 1] != '0')
  {
    if s != "" && s[|s| - 1] == '0' then Trimmed(s[..|s| - 1]) else s
  }

  /** The digits after the point, without the zeros at the end. */
  function Fraction(s: string, decimals: nat): (f: string)
    requires |s| > decimals
    ensures |f| <= decimals
  {
    Trimmed(s[|s| - decimals..])
  }

  function Joined(sign: string, whole: string, fraction: string): string {
    sign + whole + if fraction == "" then "" else "." + fraction
  }

  /** Digits with the point put in. */
  function Layout(sign: string, s: string, decimals: nat): string
    requires |s| > decimals
  {
    Joined(sign, s[..|s| - decimals], Fraction(s, decimals))
  }

  /** Base units as a decimal string. */
  function Format(amount: int, decimals: nat): string {
    Layout(Sign(amount), Fill(Digits(Abs(amount)), decimals), decimals)
  }

  /** The position of the point, or the length. */
  function Point(s: string): (k: nat)
    ensures k <= |s| && (k < |s| ==> s[k] == '.') && forall i | 0 <= i < k :: s[i] != '.'
  {
    if s == "" then 0
    else if s[0] == '.' then 0
    else 1 + Point(s[1..])
  }

  /** A decimal string without its point, filled up with zeros to `decimals` digits after it. */
  function Strip(s: string, decimals: nat): string {
    var k := Point(s);
    var fraction := if k < |s| then s[k + 1..] else "";
    s[..k] + fraction + if |fraction| < decimals then Zeros(decimals - |fraction|) else ""
  }

  /** How many digits follow the point. */
  function FractionDigits(s: string): nat {
    var k := Point(s);
    if k < |s| then |s| - k - 1 else 0
  }

  /** A total as it is read; one that cannot be read counts as nothing. */
  function Running(existing: string, decimals: nat): int {
    if existing == "" then 0
    else match Parse(Strip(existing, decimals)) case Some(v) => v case None => 0
  }

  function Added(existing: string, amount: int, decimals: nat): string {
    Format(Running(existing, decimals) + amount, decimals)
  }

  // ---- what is written is read back ----

  lemma FilledWrites(s: string, decimals: nat)
    requires AreDigits(s)
    ensures AreDigits(Fill(s, decimals)) && Value(Fill(s, decimals)) == Value(s)
  {
    if |s| <= decimals {
      LeadingZeros(decimals + 1 - |s|, s);
    }
  }

  lemma {:induction false} TrimmedIs(s: string)
    ensures s == Trimmed(s) + Zeros(|s| - |Trimmed(s)|)
  {
    if s != "" && s[|s| - 1] == '0' {
      TrimmedIs(s[..|s| - 1]);
      assert s == s[..|s| - 1] + "0";
    } else {
      assert s + "" == s;
    }
  }

  /** The digits that are written. */
  function Kept(s: string, decimals: nat): string
    requires |s| > decimals
  {
    s[..|s| - decimals] + Fraction(s, decimals)
  }

  lemma KeptIs(s: string, decimals: nat)
    requires |s| > decimals
    ensures s == Kept(s, decimals) + Zeros(decimals - |Fraction(s, decimals)|)
  {
    TrimmedIs(s[|s| - decimals..]);
    assert s == s[..|s| - decimals] + s[|s| - decimals..];
  }

  lemma KeptDigits(s: string, decimals: nat)
    requires |s| > decimals && AreDigits(s)
    ensures AreDigits(Kept(s, decimals)) && Kept(s, decimals) != ""
    ensures Value(s) == Value(Kept(s, decimals)) * Pow10(decimals - |Fraction(s, decimals)|)
  {
    KeptIs(s, decimals);
    var k := Kept(s, decimals);
    forall i | 0 <= i < |k| ensures IsDigit(k[i]) {
      assert k[i] == s[i];
    }
    TrailingZeros(k, decimals - |Fraction(s, decimals)|);
  }

  lemma KeptPositive(s: string, decimals: nat)
    requires |s| > decimals && AreDigits(s) && Fraction(s, decimals) != ""
    ensures AreDigits(Kept(s, decimals)) && Value(Kept(s, decimals)) > 0
  {
    KeptDigits(s, decimals);
    var k, f := Kept(s, decimals), Fraction(s, decimals);
    assert k[|k| - 1] == f[|f| - 1];
  }

  lemma PointAt(s: string, k: nat)
    requires k <= |s| && (k < |s| ==> s[k] == '.') && forall i | 0 <= i < k :: s[i] != '.'
    ensures Point(s) == k
  {
  }

  predicate NoPoint(s: string) {
    forall i | 0 <= i < |s| :: s[i] != '.'
  }

  /** How many zeros stripping adds. */
  function Missing(digits: nat, decimals: nat): nat {
    if digits < decimals then decimals - digits else 0
  }

  lemma StripPlain(whole: string, decimals: nat)
    requires NoPoint(whole)
    ensures Strip(whole, decimals) == whole + Zeros(decimals) && FractionDigits(whole) == 0
  {
    PointAt(whole, |whole|);
  }

  lemma StripPointed(whole: string, fraction: string, decimals: nat)
    requires NoPoint(whole)
    ensures Strip(whole + "." + fraction, decimals) == whole + fraction + Zeros(Missing(|fraction|, decimals))
    ensures FractionDigits(whole + "." + fraction) == |fraction|
  {
    var s := whole + "." + fraction;
    PointAt(s, |whole|);
    assert s[..|whole|] == whole && s[|whole| + 1..] == fraction;
  }

  lemma Associate(a: string, b: string, c: string, d: string)
    ensures a + b + c + d == a + (b + c + d)
  {
  }

  lemma StripJoined(sign: string, whole: string, f: string, d: nat)
    requires NoPoint(sign + whole)
    ensures var s := Joined(sign, whole, f);
            FractionDigits(s) == |f| && Strip(s, d) == sign + (whole + f + Zeros(Missing(|f|, d)))
  {
    var w := sign + whole;
    var s := Joined(sign, whole, f);
    Associate(sign, whole, f, Zeros(Missing(|f|, d)));
    if f == "" {
      assert s == w && w + f == w;
      StripPlain(w, d);
    } else {
      assert s == w + "." + f;
      StripPointed(w, f, d);
    }
  }

  lemma NoPointInDigits(a: int, s: string, k: nat)
    requires AreDigits(s) && k <= |s|
    ensures NoPoint(Sign(a) + s[..k])
  {
    forall i | 0 <= i < k ensures s[i] != '.' {
      assert IsDigit(s[i]);
    }
  }

  lemma ReadDigits(a: int, body: string, k: nat)
    requires AreDigits(body) && body != ""
    ensures Parse(Sign(a) + (body + Zeros(k))) == Some(Signed(a, Value(body) * Pow10(k)))
  {
    TrailingZeros(body, k);
    ParseSigned(a, body + Zeros(k));
  }

  /** What digits laid out with some decimals are read as at any others. */
  lemma LayoutReads(a: int, s: string, d1: nat, d2: nat) returns (v: nat, f: nat)
    requires AreDigits(s) && |s| > d1
    ensures f <= d1 && Value(s) == v * Pow10(d1 - f) && (f > 0 ==> v > 0)
    ensures FractionDigits(Layout(Sign(a), s, d1)) == f
    ensures Parse(Strip(Layout(Sign(a), s, d1), d2)) == Some(Signed(a, v * Pow10(Missing(f, d2))))
  {
    KeptDigits(s, d1);
    v, f := Value(Kept(s, d1)), |Fraction(s, d1)|;
    if f > 0 {
      KeptPositive(s, d1);
    }
    NoPointInDigits(a, s, |s| - d1);
    StripJoined(Sign(a), s[..|s| - d1], Fraction(s, d1), d2);
    ReadDigits(a, Kept(s, d1), Missing(f, d2));
  }

  lemma FormatReads(amount: int, d1: nat, d2: nat) returns (v: nat, f: nat)
    ensures f <= d1 && Abs(amount) == v * Pow10(d1 - f) && (f > 0 ==> v > 0)
    ensures FractionDigits(Format(amount, d1)) == f
    ensures Parse(Strip(Format(amount, d1), d2)) == Some(Signed(amount, v * Pow10(Missing(f, d2))))
  {
    var digits := Digits(Abs(amount));
    DigitsWrite(Abs(amount));
    FilledWrites(digits, d1);
    v, f := LayoutReads(amount, Fill(digits, d1), d1, d2);
  }

  /** Reading back an amount at the decimals it was written with gives it exactly, negative
      amounts included. */
  lemma ParseFormat(amount: int, decimals: nat)
    ensures Parse(Strip(Format(amount, decimals), decimals)) == Some(amount)
  {
    var v, f := FormatReads(amount, decimals, decimals);
    assert Missing(f, decimals) == decimals - f;
  }

  // ---- reading at other decimals ----

  /** A total written with some decimals is read at others as the same quantity exactly when it
      has no more digits after its point than those others: a/10^d1 is read as r/10^d2. */
  lemma ReadExactly(amount: int, d1: nat, d2: nat)
    ensures var r := Parse(Strip(Format(amount, d1), d2));
            && r.Some?
            && (r.value * Pow10(d1) == amount * Pow10(d2) <==> FractionDigits(Format(amount, d1)) <= d2)
  {
    var v, f := FormatReads(amount, d1, d2);
    SignedQuantity(amount, v, f, d1, d2);
  }

  lemma SignedQuantity(amount: int, v: nat, f: nat, d1: nat, d2: nat)
    requires f <= d1 && Abs(amount) == v * Pow10(d1 - f) && (f > 0 ==> v > 0)
    ensures Signed(amount, v * Pow10(Missing(f, d2))) * Pow10(d1) == amount * Pow10(d2) <==> f <= d2
  {
    Quantity(v, f, d1, d2);
    SignedTimes(amount, v * Pow10(Missing(f, d2)), Pow10(d1));
    SignedTimes(amount, v * Pow10(d1 - f), Pow10(d2));
  }

  lemma SignedTimes(a: int, v: int, p: int)
    ensures Signed(a, v) * p == if a < 0 then -(v * p) else v * p
  {
  }

  lemma Quantity(v: nat, f: nat, d1: nat, d2: nat)
    requires f <= d1 && (f > 0 ==> v > 0)
    ensures v * Pow10(Missing(f, d2)) * Pow10(d1) == v * Pow10(d1 - f) * Pow10(d2) <==> f <= d2
  {
    if f <= d2 {
      SameQuantity(v, f, d1, d2);
    } else {
      OtherQuantity(v, f, d1, d2);
    }
  }

  lemma SameQuantity(v: nat, f: nat, d1: nat, d2: nat)
    requires f <= d1 && f <= d2
    ensures v * Pow10(d2 - f) * Pow10(d1) == v * Pow10(d1 - f) * Pow10(d2)
  {
    Pow10Adds(d2 - f, d1);
    Pow10Adds(d1 - f, d2);
    Regroup(v, Pow10(d2 - f), Pow10(d1));
    Regroup(v, Pow10(d1 - f), Pow10(d2));
  }

  lemma Regroup(a: int, b: int, c: int)
    ensures a * b * c == a * (b * c)
  {
  }

  lemma OtherQuantity(v: nat, f: nat, d1: nat, d2: nat)
    requires v > 0 && d2 < f <= d1
    ensures v * Pow10(d1) != v * Pow10(d1 - f) * Pow10(d2)
  {
    Pow10Adds(d1 - f, d2);
    Regroup(v, Pow10(d1 - f), Pow10(d2));
    Pow10Increases(d1 - f + d2, d1);
    assert v * Pow10(d1 - f + d2) < v * Pow10(d1) by { Scale(v, Pow10(d1 - f + d2), Pow10(d1)); }
  }

  lemma Scale(v: nat, a: nat, b: nat)
    requires v > 0 && a < b
    ensures v * a < v * b
  {
  }

  // ---- the loops ----

  lemma StringIs(a: int)
    ensures var s := String(a);
            s != "" && (s[0] == '-' <==> a < 0) && (if a < 0 then s[1..] else s) == Digits(Abs(a))
  {
    assert IsDigit(Digits(Abs(a))[0]);
  }

  lemma {:induction false} AllZeros(s: string)
    requires forall i | 0 <= i < |s| :: s[i] == '0'
    ensures s == Zeros(|s|)
  {
  }

  lemma ZeroInFront(k: nat, s: string)
    ensures "0" + (Zeros(k) + s) == Zeros(k + 1) + s
  {
    AllZeros("0" + Zeros(k));
    assert "0" + (Zeros(k) + s) == "0" + Zeros(k) + s;
  }

  method PadLeft(s: string, decimals: nat) returns (r: string)
    ensures r == Fill(s, decimals)
  {
    r := s;
    ghost var k := 0;
    assert Zeros(0) + s == s;
    while |r| <= decimals
      invariant r == Zeros(k) + s
      invariant k == 0 || |r| <= decimals + 1
      decreases decimals - |r|
    {
      ZeroInFront(k, s);
      r := "0" + r;
      k := k + 1;
    }
  }

  /** Drops zeros from the end, but for the last digit. */
  method TrimRight(s: string) returns (t: string)
    requires s != ""
    ensures t == "0" <==> Trimmed(s) == ""
    ensures t != "0" ==> t == Trimmed(s) && t != ""
  {
    t := s;
    while |t| > 1 && t[|t| - 1] == '0'
      invariant t != "" && Trimmed(t) == Trimmed(s)
    {
      t := t[..|t| - 1];
    }
    TrimmedDigit(t);
  }

  lemma TrimmedDigit(t: string)
    requires t != "" && (|t| == 1 || t[|t| - 1] != '0')
    ensures t == "0" <==> Trimmed(t) == ""
    ensures t != "0" ==> t == Trimmed(t)
  {
    if t[|t| - 1] == '0' {
      assert t == "0" && t[..0] == "";
    }
  }

  lemma JoinedIs(whole: string, fraction: string)
    ensures Joined("", whole, "") == whole && Joined("-", whole, "") == "-" + whole
    ensures fraction != "" ==> Joined("", whole, fraction) == whole + "." + fraction
    ensures fraction != "" ==> Joined("-", whole, fraction) == "-" + whole + "." + fraction
  {
  }

  /** Puts the point in, dropping zeros at the end, and the sign in front. */
  method PlacePoint(negative: bool, s: string, decimals: nat) returns (r: string)
    requires 0 < decimals < |s|
    ensures r == Layout(if negative then "-" else "", s, decimals)
  {
    var whole, frac := s[..|s| - decimals], s[|s| - decimals..];
    frac := TrimRight(frac);
    JoinedIs(whole, frac);
    if frac == "0" {
      if negative {
        return "-" + whole;
      }
      return whole;
    }
    if negative {
      return "-" + whole + "." + frac;
    }
    return whole + "." + frac;
  }

  /** The printed number, its sign taken off. */
  method SplitSign(amount: int) returns (negative: bool, s: string)
    ensures negative == (amount < 0) && s == Digits(Abs(amount))
  {
    s := String(amount);
    StringIs(amount);
    negative := |s| > 0 && s[0] == '-';
    if negative {
      s := s[1..];
    }
  }

  method FormatUnits(amount: int, decimals: nat) returns (r: string)
    ensures r == Format(amount, decimals)
  {
    if decimals == 0 {
      FormatWhole(amount);
      return String(amount);
    }
    var negative, digits := SplitSign(amount);
    var s := PadLeft(digits, decimals);
    r := PlacePoint(negative, s, decimals);
  }

  lemma FormatWhole(amount: int)
    ensures Format(amount, 0) == String(amount)
  {
    var s := Digits(Abs(amount));
    assert s[..|s|] == s && s[|s|..] == "";
    JoinedIs(s, "");
  }

  method StripDecimalPoint(s: string, decimals: nat) returns (r: string)
    ensures r == Strip(s, decimals)
  {
    var whole, frac := s, "";
    var i := 0;
    while i < |s| && s[i] != '.'
      invariant i <= |s| && NoPoint(s[..i])
    {
      i := i + 1;
    }
    PointAt(s, i);
    if i < |s| {
      whole, frac := s[..i], s[i + 1..];
    }
    ghost var f := frac;
    assert f + Zeros(0) == f;
    ghost var k := 0;
    while |frac| < decimals
      invariant frac == f + Zeros(k)
      invariant |frac| <= decimals || k == 0
    {
      frac := frac + "0";
      k := k + 1;
    }
    assert s[..|s|] == s;
    assert whole == s[..Point(s)];
    assert k == Missing(|f|, decimals);
    r := whole + frac;
    assert whole + (f + Zeros(k)) == whole + f + Zeros(k);
    assert whole + f + "" == whole + f + Zeros(0);
  }

  method ReadTotal(existing: string, decimals: nat) returns (running: int)
    ensures running == Running(existing, decimals)
  {
    running := 0;
    if existing != "" {
      var digits := StripDecimalPoint(existing, decimals);
      match Parse(digits)
      case Some(v) => running := v;
      case None =>
    }
  }

  method AddDecimal(existing: string, amount: int, decimals: nat) returns (r: string)
    ensures r == Added(existing, amount, decimals)
  {
    var running := ReadTotal(existing, decimals);
    r := FormatUnits(running + amount, decimals);
  }

  /** Adding to a total written with the same decimals is adding the amounts. */
  lemma AddedIs(total: int, amount: int, decimals: nat)
    ensures Format(total, decimals) != "" && Added(Format(total, decimals), amount, decimals) == Format(total + amount, decimals)
  {
    ParseFormat(total, decimals);
  }

  /** At other decimals the sum is of the same quantities exactly when the total has no more
      digits after its point than those. */
  lemma AddedExactly(total: int, d1: nat, amount: int, d2: nat)
    ensures exists r: int ::
      && Added(Format(total, d1), amount, d2) == Format(r + amount, d2)
      && (r * Pow10(d1) == total * Pow10(d2) <==> FractionDigits(Format(total, d1)) <= d2)
  {
    var read := Parse(Strip(Format(total, d1), d2));
    ReadExactly(total, d1, d2);
    AddedIs(total, 0, d1);
    assert Added(Format(total, d1), amount, d2) == Format(read.value + amount, d2);
  }

  // ---- totals at mixed decimals ----

  /** Nothing, or an amount written with no more decimals than some bound. */
  ghost predicate IsTotal(s: string, bound: nat) {
    s == "" || exists v: int, d: nat :: d <= bound && s == Format(v, d)
  }

  lemma Associates(a: int, b: int, c: int)
    ensures a * b * c == a * (b * c)
  {
  }

  lemma ScaledUp(a: int, v: int, p: int, q: int, whole: int)
    requires whole == p * q && v * p == if a < 0 then -a else a
    ensures Signed(a, v * whole) == a * q
  {
    Associates(v, p, q);
  }

  /** At decimals no fewer than its own a total is read as the same quantity. */
  lemma ReadAtMore(amount: int, d: nat, bound: nat)
    requires d <= bound
    ensures Format(amount, d) != "" && Running(Format(amount, d), bound) == amount * Pow10(bound - d)
  {
    var v, f := FormatReads(amount, d, bound);
    AddedIs(amount, 0, d);
    PowersSplit(f, d, bound);
    ScaledUp(amount, v, Pow10(d - f), Pow10(bound - d), Pow10(bound - f));
  }

  lemma PowersSplit(f: nat, d: nat, bound: nat)
    requires f <= d <= bound
    ensures Pow10(bound - f) == Pow10(d - f) * Pow10(bound - d) && Missing(f, bound) == bound - f
  {
    Pow10Adds(d - f, bound - d);
  }

  lemma Cross(r: int, v: int, x: int, y: int, z: int, w: int)
    requires x > 0 && w > 0 && x * y == z * w
    ensures r * x == v * z <==> r * w == v * y
  {
    assert v * z * w == v * x * y by {
      Associates(v, z, w);
      Associates(v, x, y);
    }
    if r * x == v * z {
      assert r * w * x == v * y * x;
      Cancel(r * w, v * y, x);
    }
    if r * w == v * y {
      assert r * x * w == v * z * w;
      Cancel(r * x, v * z, w);
    }
  }

  lemma Cancel(a: int, b: int, p: int)
    requires p > 0 && a * p == b * p
    ensures a == b
  {
  }

  /** The same quantity at two numbers of decimals is the same at any greater one. */
  lemma SameScaled(r: int, v: int, d1: nat, d2: nat, bound: nat)
    requires d1 <= bound && d2 <= bound
    ensures r * Pow10(bound - d2) == v * Pow10(bound - d1) <==> r * Pow10(d1) == v * Pow10(d2)
  {
    Pow10Adds(bound - d2, d2);
    Pow10Adds(bound - d1, d1);
    Pow10Increases(bound - d2, bound - d2 + 1);
    Pow10Increases(d1, d1 + 1);
    Cross(r, v, Pow10(bound - d2), Pow10(d2), Pow10(bound - d1), Pow10(d1));
  }

  /** What a total is read as by an addition. */
  lemma AddedReads(v: int, d1: nat, amount: int, d2: nat) returns (r: int)
    ensures r * Pow10(d1) == v * Pow10(d2) <==> FractionDigits(Format(v, d1)) <= d2
    ensures Added(Format(v, d1), amount, d2) == Format(r + amount, d2)
  {
    var read := Parse(Strip(Format(v, d1), d2));
    ReadExactly(v, d1, d2);
    AddedIs(v, 0, d1);
    r := read.value;
  }

  lemma AddedAt(v: int, d1: nat, amount: int, d2: nat, bound: nat)
    requires d1 <= bound && d2 <= bound
    ensures var t := Format(v, d1);
            Running(Added(t, amount, d2), bound) == Running(t, bound) + amount * Pow10(bound - d2) <==> FractionDigits(t) <= d2
  {
    var r := AddedReads(v, d1, amount, d2);
    ReadAtMore(v, d1, bound);
    ReadAtMore(r + amount, d2, bound);
    SameScaled(r, v, d1, d2, bound);
    Distributes(r, amount, Pow10(bound - d2));
  }

  lemma Distributes(a: int, b: int, p: int)
    ensures (a + b) * p == a * p + b * p
  {
  }

  /** Read at enough decimals, a total that has been added to is the one before plus the amount if
      and only if the one before has no more digits after its point than the amount has decimals. */
  lemma AddsExactly(total: string, amount: int, decimals: nat, bound: nat)
    requires IsTotal(total, bound) && decimals <= bound
    ensures var t := Added(total, amount, decimals);
            && IsTotal(t, bound)
            && (Running(t, bound) == Running(total, bound) + amount * Pow10(bound - decimals) <==> FractionDigits(total) <= decimals)
  {
    if total == "" {
      ReadAtMore(amount, decimals, bound);
    } else {
      var v: int, d: nat :| d <= bound && total == Format(v, d);
      AddedAt(v, d, amount, decimals, bound);
    }
  }

  lemma DigitsOfTwo(n: nat)
    requires 10 <= n < 100
    ensures Digits(n) == [CharOf(n / 10), CharOf(n % 10)]
  {
    assert Digits(n) == Digits(n / 10) + [CharOf(n % 10)];
  }

  lemma OneAndAHalf()
    ensures Format(15, 1) == "1.5"
  {
    DigitsOfTwo(15);
    assert "15"[..1] == "1" && "15"[1..] == "5";
    assert Fraction("15", 1) == "5";
  }

  lemma OneAndAHalfStripped()
    ensures Strip("1.5", 0) == "15"
  {
    assert "1.5"[1..] == ".5";
    assert Point("1.5") == 1;
    assert "1.5"[..1] == "1" && "1.5"[2..] == "5";
  }

  /** One and a half, with one more added at no decimals, is reported as sixteen. */
  lemma FinerTotalIsMisread()
    ensures Format(15, 1) == "1.5" && Added("1.5", 1, 0) == "16"
  {
    OneAndAHalf();
    OneAndAHalfStripped();
    DigitsOfTwo(15);
    DigitsWrite(15);
    assert Parse("15") == Some(15);
    DigitsOfTwo(16);
    assert "16"[..2] == "16" && "16"[2..] == "";
  }
}
