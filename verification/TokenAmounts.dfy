/** Printing token amounts (src/utils/account/pgas.ts, src/utils/account/drip.ts). */
module TokenAmounts {
  import opened Decimal
  import opened Options

  const MAX_FRACTION_DIGITS := 4
  const PAS_DECIMALS := 10

  function Pow10(k: nat): (p: nat)
    ensures p > 0
  {
    if k == 0 then 1 else 10 * Pow10(k - 1)
  }

  function Zeros(k: nat): (s: string)
    ensures |s| == k && AllDigits(s)
  {
    if k == 0 then "" else "0" + Zeros(k - 1)
  }

  function PadStart(s: string, width: nat): string {
    if |s| >= width then s else Zeros(width - |s|) + s
  }

  function TrimEnd(s: string): string {
    if s != "" && s[|s| - 1] == '0' then TrimEnd(s[..|s| - 1]) else s
  }

  /** Thousands separators, as the `en-US` locale writes them. */
  function Grouped(s: string): string {
    if |s| <= 3 then s else Grouped(s[..|s| - 3]) + "," + s[|s| - 3..]
  }

  function Group(value: nat): string {
    Grouped(Digits(value))
  }

  /** The leading fraction digits that are kept. */
  function Cut(padded: string): string {
    if |padded| <= MAX_FRACTION_DIGITS then padded else padded[..MAX_FRACTION_DIGITS]
  }

  /** The shown fraction digits of `frac` out of `decimals`. */
  function Fraction(frac: nat, decimals: nat): string {
    TrimEnd(Cut(PadStart(Digits(frac), decimals)))
  }

  function Quotient(a: nat, b: nat): (q: nat)
    requires b > 0
    ensures q * b + Remainder(a, b) == a
  {
    DivisionFacts(a, b);
    a / b
  }

  function Remainder(a: nat, b: nat): (r: nat)
    requires b > 0
    ensures r < b
  {
    a % b
  }

  lemma DivisionFacts(a: nat, b: nat)
    requires b > 0
    ensures a / b >= 0 && a / b * b + a % b == a
  {
  }

  /** The amount, its integer part written by `show`. */
  function Amount(value: nat, decimals: int, show: nat -> string): string {
    if decimals <= 0 then show(value)
    else
      var base := Pow10(decimals);
      var whole, frac := Quotient(value, base), Remainder(value, base);
      if frac == 0 || Fraction(frac, decimals) == "" then show(whole)
      else show(whole) + "." + Fraction(frac, decimals)
  }

  function FormatTokenAmount(value: nat, decimals: int, symbol: string): string {
    Amount(value, decimals, Group) + (if symbol != "" then " " + symbol else "")
  }

  function FormatPas(planck: nat, symbol: string): string {
    Amount(planck, PAS_DECIMALS, Digits) + " " + symbol
  }

  // ---------- Reading an amount back ----------

  function Ungrouped(s: string): string {
    if s == "" then "" else (if s[0] == ',' then "" else [s[0]]) + Ungrouped(s[1..])
  }

  /** The position of the first point, or the length. */
  function Point(s: string): (i: nat)
    ensures i <= |s| && (i < |s| ==> s[i] == '.')
  {
    if s == "" || s[0] == '.' then 0 else 1 + Point(s[1..])
  }

  /** The amount a reader sees, in units of the fourth fraction digit. */
  function Read(s: string): Option<nat> {
    var t := Ungrouped(s);
    var i := Point(t);
    var whole, frac := t[..i], if i < |t| then t[i + 1..] else "";
    if AllDigits(whole) && whole != "" && AllDigits(frac) && |frac| <= MAX_FRACTION_DIGITS then
      Some(Value(Filled(whole, frac)))
    else None
  }

  /** The digits of a numeral with its fraction filled up to four digits. */
  function Filled(whole: string, frac: string): (s: string)
    requires |frac| <= MAX_FRACTION_DIGITS
    ensures AllDigits(whole) && AllDigits(frac) ==> AllDigits(s)
  {
    whole + frac + Zeros(MAX_FRACTION_DIGITS - |frac|)
  }

  /** `value` with `k` decimal digits dropped. */
  function Drop(value: nat, k: nat): nat {
    if k == 0 then value else Drop(value / 10, k - 1)
  }

  /** `value` with `k` zeros appended. */
  function Append(value: nat, k: nat): nat {
    if k == 0 then value else 10 * Append(value, k - 1)
  }

  /** An amount of `decimals` decimals in units of the fourth, rounded down. */
  function FourDecimals(value: nat, decimals: int): nat {
    if decimals <= 0 then Append(value, MAX_FRACTION_DIGITS)
    else if decimals <= MAX_FRACTION_DIGITS then Append(value, MAX_FRACTION_DIGITS - decimals)
    else Drop(value, decimals - MAX_FRACTION_DIGITS)
  }

  // ---------- Numerals ----------

  lemma AllDigitsConcat(a: string, b: string)
    requires AllDigits(a) && AllDigits(b)
    ensures AllDigits(a + b)
  {
  }

  lemma TenTimes(x: nat, y: nat)
    ensures 10 * (x * y) == x * (10 * y)
  {
  }

  lemma {:induction false} ValueConcat(a: string, b: string)
    requires AllDigits(a) && AllDigits(b)
    ensures AllDigits(a + b) && Value(a + b) == Value(a) * Pow10(|b|) + Value(b)
  {
    AllDigitsConcat(a, b);
    if b == "" {
      assert a + b == a;
    } else {
      var front, last := b[..|b| - 1], b[|b| - 1];
      ValueConcat(a, front);
      assert (a + b)[..|a + b| - 1] == a + front;
      TenTimes(Value(a), Pow10(|front|));
    }
  }

  lemma {:induction false} ValueZeros(k: nat)
    ensures Value(Zeros(k)) == 0
  {
    if k > 0 {
      ValueZeros(k - 1);
      ValueConcat("0", Zeros(k - 1));
      assert "0"[..0] == "";
    }
  }

  lemma {:induction false} DigitsFit(n: nat, k: nat)
    requires n < Pow10(k) && k > 0
    ensures |Digits(n)| <= k
  {
    if n >= 10 {
      assert k > 1 by {
        assert Pow10(1) == 10;
      }
      assert Pow10(k) == 10 * Pow10(k - 1);
      DigitsFit(n / 10, k - 1);
    }
  }

  lemma ZerosBefore(k: nat, s: string)
    requires AllDigits(s)
    ensures AllDigits(Zeros(k) + s) && Value(Zeros(k) + s) == Value(s)
  {
    ValueConcat(Zeros(k), s);
    ValueZeros(k);
  }

  lemma PadStartValue(n: nat, k: nat)
    requires n < Pow10(k) && k > 0
    ensures var s := PadStart(Digits(n), k); |s| == k && AllDigits(s) && Value(s) == n
  {
    DigitsFit(n, k);
    ValueOfDigits(n);
    var pad := k - |Digits(n)|;
    if pad > 0 {
      ZerosBefore(pad, Digits(n));
    }
  }

  /** Trailing zeros carry no value: what was trimmed is zeros. */
  lemma {:induction false} TrimEndZeros(s: string)
    requires AllDigits(s)
    ensures var t := TrimEnd(s);
      && |t| <= |s| && AllDigits(t) && s == t + Zeros(|s| - |t|)
      && (t != "" ==> t[|t| - 1] != '0')
  {
    if s != "" && s[|s| - 1] == '0' {
      var front := s[..|s| - 1];
      TrimEndZeros(front);
      var t := TrimEnd(s);
      ZerosSnoc(|front| - |t|);
      assert s == front + "0";
    }
  }

  lemma {:induction false} ZerosSnoc(k: nat)
    ensures Zeros(k + 1) == Zeros(k) + "0"
  {
    if k > 0 {
      ZerosSnoc(k - 1);
    }
  }

  lemma {:induction false} ZerosAdd(a: nat, b: nat)
    ensures Zeros(a) + Zeros(b) == Zeros(a + b)
  {
    if a > 0 {
      ZerosAdd(a - 1, b);
    }
  }

  // ---------- Dropping and appending digits ----------

  lemma {:induction false} DropPrefix(s: string, k: nat)
    requires AllDigits(s) && k <= |s|
    ensures Value(s[..|s| - k]) == Drop(Value(s), k)
    decreases k
  {
    if k == 0 {
      assert s[..|s|] == s;
    } else {
      var front := s[..|s| - 1];
      DropPrefix(front, k - 1);
      assert front[..|front| - (k - 1)] == s[..|s| - k];
      assert Value(s) / 10 == Value(front);
    }
  }

  lemma AppendZero(s: string)
    requires AllDigits(s)
    ensures AllDigits(s + "0") && Value(s + "0") == 10 * Value(s)
  {
    assert (s + "0")[..|s + "0"| - 1] == s;
  }

  lemma {:induction false} AppendZeros(s: string, k: nat)
    requires AllDigits(s)
    ensures AllDigits(s + Zeros(k)) && Value(s + Zeros(k)) == Append(Value(s), k)
  {
    if k == 0 {
      assert s + Zeros(0) == s;
    } else {
      AppendZeros(s, k - 1);
      ZerosSnoc(k - 1);
      AppendZero(s + Zeros(k - 1));
      assert s + Zeros(k) == s + Zeros(k - 1) + "0";
    }
  }

  /** Dropping digits divides, rounding down; appending zeros multiplies. */
  lemma {:induction false} DropRounds(value: nat, k: nat)
    ensures Drop(value, k) * Pow10(k) <= value < (Drop(value, k) + 1) * Pow10(k)
    decreases k
  {
    if k > 0 {
      DropRounds(value / 10, k - 1);
      TenTimes(Drop(value, k), Pow10(k - 1));
      TenTimes(Drop(value, k) + 1, Pow10(k - 1));
    }
  }

  lemma {:induction false} AppendMultiplies(value: nat, k: nat)
    ensures Append(value, k) == value * Pow10(k)
  {
    if k > 0 {
      AppendMultiplies(value, k - 1);
      TenTimes(value, Pow10(k - 1));
    }
  }

  // ---------- The fraction ----------

  /** Trimmed zeros come back when the fraction is filled up. */
  lemma TrimmedFill(whole: string, cut: string)
    requires AllDigits(cut) && |cut| <= MAX_FRACTION_DIGITS
    ensures AllDigits(TrimEnd(cut)) && |TrimEnd(cut)| <= |cut|
    ensures TrimEnd(cut) != "" ==> TrimEnd(cut)[|TrimEnd(cut)| - 1] != '0'
    ensures Filled(whole, TrimEnd(cut)) == Filled(whole, cut)
  {
    TrimEndZeros(cut);
    var t := TrimEnd(cut);
    Refill(whole, t, |cut| - |t|, MAX_FRACTION_DIGITS - |cut|);
  }

  lemma Refill(whole: string, t: string, trimmed: nat, missing: nat)
    ensures whole + t + Zeros(trimmed + missing) == whole + (t + Zeros(trimmed)) + Zeros(missing)
  {
    ZerosAdd(trimmed, missing);
    var a, b := Zeros(trimmed), Zeros(missing);
    assert whole + t + (a + b) == whole + (t + a) + b;
  }

  /** All the digits of an amount: its integer part, then its decimals. */
  lemma AllDigitsOfAmount(value: nat, decimals: nat)
    requires decimals > 0
    ensures var base := Pow10(decimals);
      var f := PadStart(Digits(Remainder(value, base)), decimals);
      && AllDigits(f) && |f| == decimals && AllDigits(Digits(Quotient(value, base)) + f)
      && Value(Digits(Quotient(value, base)) + f) == value
  {
    var base := Pow10(decimals);
    var whole, frac := Quotient(value, base), Remainder(value, base);
    PadStartValue(frac, decimals);
    ValueOfDigits(whole);
    ValueConcat(Digits(whole), PadStart(Digits(frac), decimals));
  }

  lemma ShortFraction(w: string, f: string)
    requires AllDigits(w + f) && |f| <= MAX_FRACTION_DIGITS
    ensures Value(Filled(w, f)) == Append(Value(w + f), MAX_FRACTION_DIGITS - |f|)
  {
    AppendZeros(w + f, MAX_FRACTION_DIGITS - |f|);
  }

  lemma LongFraction(w: string, f: string)
    requires AllDigits(w + f) && |f| > MAX_FRACTION_DIGITS
    ensures Filled(w, f[..MAX_FRACTION_DIGITS]) == (w + f)[..|w + f| - (|f| - MAX_FRACTION_DIGITS)]
    ensures Value(Filled(w, f[..MAX_FRACTION_DIGITS])) == Drop(Value(w + f), |f| - MAX_FRACTION_DIGITS)
  {
    DropPrefix(w + f, |f| - MAX_FRACTION_DIGITS);
  }

  /** Cutting a fraction at four digits rounds the numeral down. */
  lemma CutRounds(w: string, f: string)
    requires f != "" && AllDigits(w) && AllDigits(f) && AllDigits(w + f)
    ensures AllDigits(Cut(f)) && |Cut(f)| <= MAX_FRACTION_DIGITS
    ensures Value(Filled(w, Cut(f))) == FourDecimals(Value(w + f), |f|)
  {
    if |f| <= MAX_FRACTION_DIGITS {
      ShortFraction(w, f);
    } else {
      LongFraction(w, f);
    }
  }

  /** The integer part and the shown fraction digits hold the amount rounded down. */
  lemma ShownDigits(value: nat, decimals: nat)
    requires decimals > 0
    ensures var base := Pow10(decimals);
      var w, t := Digits(Quotient(value, base)), Fraction(Remainder(value, base), decimals);
      && AllDigits(t) && |t| <= MAX_FRACTION_DIGITS && (t != "" ==> t[|t| - 1] != '0')
      && Value(Filled(w, t)) == FourDecimals(value, decimals)
  {
    var base := Pow10(decimals);
    AllDigitsOfAmount(value, decimals);
    var w, f := Digits(Quotient(value, base)), PadStart(Digits(Remainder(value, base)), decimals);
    CutRounds(w, f);
    TrimmedFill(w, Cut(f));
  }

  // ---------- Reading back ----------

  lemma {:induction false} UngroupedConcat(a: string, b: string)
    ensures Ungrouped(a + b) == Ungrouped(a) + Ungrouped(b)
  {
    if a == "" {
      assert a + b == b;
    } else {
      var front := if a[0] == ',' then "" else [a[0]];
      assert (a + b)[1..] == a[1..] + b;
      UngroupedConcat(a[1..], b);
      assert front + (Ungrouped(a[1..]) + Ungrouped(b)) == (front + Ungrouped(a[1..])) + Ungrouped(b);
    }
  }

  lemma {:induction false} UngroupedWithoutCommas(s: string)
    requires ',' !in s
    ensures Ungrouped(s) == s
  {
    if s != "" {
      assert s == [s[0]] + s[1..];
      UngroupedWithoutCommas(s[1..]);
    }
  }

  lemma DigitsWithoutCommas(s: string)
    requires AllDigits(s)
    ensures ',' !in s && '.' !in s
  {
  }

  lemma {:induction false} UngroupedGrouped(s: string)
    requires AllDigits(s)
    ensures Ungrouped(Grouped(s)) == s
  {
    DigitsWithoutCommas(s);
    if |s| <= 3 {
      UngroupedWithoutCommas(s);
    } else {
      var front, last := s[..|s| - 3], s[|s| - 3..];
      UngroupedGrouped(front);
      UngroupedConcat(Grouped(front) + ",", last);
      UngroupedConcat(Grouped(front), ",");
      UngroupedWithoutCommas(last);
      assert Ungrouped(",") == "" by {
        assert ","[1..] == "";
      }
      assert s == front + last;
    }
  }

  /** Counted from the right, every fourth character of a grouped numeral, and no other, is a
      separator, and it does not start with one. */
  lemma {:induction false} GroupedShape(s: string, i: nat)
    requires AllDigits(s) && i < |Grouped(s)|
    ensures Grouped(s)[|Grouped(s)| - 1 - i] == ',' <==> i % 4 == 3
    ensures Grouped(s)[0] != ','
  {
    DigitsWithoutCommas(s);
    if |s| > 3 {
      var front, last := s[..|s| - 3], s[|s| - 3..];
      var h := Grouped(front);
      LastGroup(h, last, i);
      GroupedShape(front, if i >= 4 then i - 4 else 0);
    }
  }

  /** The characters from the right of a numeral's last group and what comes before it. */
  lemma LastGroup(h: string, last: string, i: nat)
    requires h != "" && |last| == 3 && AllDigits(last) && i < |h| + 4
    ensures var g := h + "," + last;
      && g[0] == h[0]
      && (i >= 4 ==> g[|g| - 1 - i] == h[|h| - 1 - (i - 4)])
      && (i < 4 ==> (g[|g| - 1 - i] == ',' <==> i == 3))
  {
    var g := h + "," + last;
    if i < 3 {
      assert g[|g| - 1 - i] == last[2 - i];
    }
  }

  lemma {:induction false} PointAfter(a: string, b: string)
    requires '.' !in a
    ensures Point(a) == |a| && Point(a + "." + b) == |a|
  {
    if a == "" {
      assert a + "." + b == "." + b;
    } else {
      assert forall c :: c in a[1..] ==> c in a;
      PointAfter(a[1..], b);
      assert (a + "." + b)[1..] == a[1..] + "." + b;
    }
  }

  /** A numeral with or without a fraction reads as its digits. */
  lemma ReadParts(text: string, whole: string, frac: string)
    requires AllDigits(whole) && whole != "" && AllDigits(frac) && |frac| <= MAX_FRACTION_DIGITS
    requires Ungrouped(text) == if frac == "" then whole else whole + "." + frac
    ensures Read(text) == Some(Value(Filled(whole, frac)))
  {
    DigitsWithoutCommas(whole);
    PointAfter(whole, frac);
    var t := Ungrouped(text);
    assert t[..|whole|] == whole;
    if frac != "" {
      assert t[|whole| + 1..] == frac;
    }
  }

  /** The text of an amount, its separators dropped. */
  function PlainAmount(value: nat, decimals: int): string {
    Amount(value, decimals, Digits)
  }

  /** A numeral and its fraction, with the point only if there is one. */
  function Joined(whole: string, frac: string): string {
    if frac == "" then whole else whole + "." + frac
  }

  lemma AmountIsJoined(value: nat, decimals: nat, show: nat -> string)
    requires decimals > 0
    ensures var base := Pow10(decimals);
      Amount(value, decimals, show) == Joined(show(Quotient(value, base)), Fraction(Remainder(value, base), decimals))
  {
    ZeroFraction(decimals);
  }

  lemma GroupedJoined(whole: nat, frac: string)
    requires AllDigits(frac)
    ensures Ungrouped(Joined(Group(whole), frac)) == Joined(Digits(whole), frac)
  {
    UngroupedGrouped(Digits(whole));
    if frac != "" {
      var tail := "." + frac;
      DigitsWithoutCommas(frac);
      assert ',' !in tail;
      UngroupedWithoutCommas(tail);
      UngroupedConcat(Group(whole), tail);
      assert Group(whole) + "." + frac == Group(whole) + tail;
      assert Digits(whole) + "." + frac == Digits(whole) + tail;
    }
  }

  lemma GroupedAmount(value: nat, decimals: int)
    ensures Ungrouped(Amount(value, decimals, Group)) == PlainAmount(value, decimals)
  {
    if decimals <= 0 {
      UngroupedGrouped(Digits(value));
    } else {
      AmountIsJoined(value, decimals, Group);
      AmountIsJoined(value, decimals, Digits);
      ShownDigits(value, decimals);
      var base := Pow10(decimals);
      GroupedJoined(Quotient(value, base), Fraction(Remainder(value, base), decimals));
    }
  }

  /** Read without its separators, a printed amount is the amount rounded down to four
      decimals: exact when it has no more, and otherwise less than one unit of the fourth
      decimal below it. */
  lemma AmountReadsBack(value: nat, decimals: int)
    ensures Read(Amount(value, decimals, Group)) == Some(FourDecimals(value, decimals))
  {
    var text := Amount(value, decimals, Group);
    GroupedAmount(value, decimals);
    if decimals <= 0 {
      ReadParts(text, Digits(value), "");
      ValueOfDigits(value);
      AppendZeros(Digits(value), MAX_FRACTION_DIGITS);
      assert Digits(value) + "" == Digits(value);
    } else {
      AmountIsJoined(value, decimals, Digits);
      ShownDigits(value, decimals);
      var base := Pow10(decimals);
      ReadParts(text, Digits(Quotient(value, base)), Fraction(Remainder(value, base), decimals));
    }
  }

  /** What rounding to four decimals means. */
  lemma FourDecimalsRounds(value: nat, decimals: nat)
    ensures decimals <= MAX_FRACTION_DIGITS ==>
      FourDecimals(value, decimals) == value * Pow10(MAX_FRACTION_DIGITS - decimals)
    ensures decimals > MAX_FRACTION_DIGITS ==>
      var u, unit := FourDecimals(value, decimals), Pow10(decimals - MAX_FRACTION_DIGITS);
      u * unit <= value < (u + 1) * unit
  {
    if decimals <= MAX_FRACTION_DIGITS {
      AppendMultiplies(value, MAX_FRACTION_DIGITS - decimals);
    } else {
      DropRounds(value, decimals - MAX_FRACTION_DIGITS);
    }
  }

  /** A printed fraction never ends in zero, and a point is never printed without one. */
  lemma FractionEndsInNonZero(value: nat, decimals: int)
    ensures var t := PlainAmount(value, decimals);
      var i := Point(t);
      i < |t| ==> 0 < i && i + 1 < |t| <= i + 1 + MAX_FRACTION_DIGITS && t[|t| - 1] != '0'
  {
    if decimals <= 0 {
      DigitsWithoutCommas(Digits(value));
      PointAfter(Digits(value), "");
    } else {
      AmountIsJoined(value, decimals, Digits);
      ShownDigits(value, decimals);
      var base := Pow10(decimals);
      var w, t := Digits(Quotient(value, base)), Fraction(Remainder(value, base), decimals);
      DigitsWithoutCommas(w);
      PointAfter(w, t);
    }
  }

  /** The fraction digits of zero are all trimmed. */
  lemma ZeroFraction(decimals: nat)
    requires decimals > 0
    ensures Fraction(0, decimals) == ""
  {
    assert Digits(0) == "0";
    ZerosSnoc(decimals - 1);
    var padded := PadStart("0", decimals);
    assert padded == Zeros(decimals);
    var k := if decimals <= MAX_FRACTION_DIGITS then decimals else MAX_FRACTION_DIGITS;
    ZerosAdd(k, decimals - k);
    assert padded[..k] == Zeros(k);
    TrimZeros(k);
  }

  lemma {:induction false} TrimZeros(k: nat)
    ensures TrimEnd(Zeros(k)) == ""
  {
    if k > 0 {
      ZerosSnoc(k - 1);
      TrimZeros(k - 1);
      assert Zeros(k)[..k - 1] == Zeros(k - 1);
    }
  }

  /** The drip command prints the same amounts, without separators, at ten decimals. */
  lemma FormatPasAgrees(planck: nat, symbol: string)
    requires symbol != "" && ',' !in symbol
    ensures FormatPas(planck, symbol) == Ungrouped(FormatTokenAmount(planck, PAS_DECIMALS, symbol))
  {
    GroupedAmount(planck, PAS_DECIMALS);
    UngroupedConcat(Amount(planck, PAS_DECIMALS, Group), " " + symbol);
    UngroupedWithoutCommas(" " + symbol);
  }
}
