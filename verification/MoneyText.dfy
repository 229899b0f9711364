/** Money as decimal text: the server's formatting and the app's parsing of amounts in base units. */
module MoneyText {
  import opened Basics

  // ----- Decimal digits -----

  function Pow10(n: nat): (p: nat)
    ensures p > 0
  {
    if n == 0 then 1 else 10 * Pow10(n - 1)
  }

  predicate IsDigit(c: char) {
    '0' <= c <= '9'
  }

  predicate AllDigits(s: string) {
    forall i :: 0 <= i < |s| ==> IsDigit(s[i])
  }

  function DigitChar(d: nat): (c: char)
    requires d < 10
    ensures IsDigit(c) && DigitOf(c) == d
  {
    d as char + '0'
  }

  function DigitOf(c: char): (d: nat)
    requires IsDigit(c)
    ensures d < 10
  {
    (c - '0') as nat
  }

  /** BigInt.prototype.toString for amounts. */
  function Digits(n: nat): string {
    if n < 10 then [DigitChar(n)] else Digits(n / 10) + [DigitChar(n % 10)]
  }

  function Value(s: string): nat
    requires AllDigits(s)
  {
    if s == [] then 0 else 10 * Value(s[..|s| - 1]) + DigitOf(s[|s| - 1])
  }

  function Zeros(n: nat): (z: string)
    ensures |z| == n && AllDigits(z) && forall i :: 0 <= i < n ==> z[i] == '0'
  {
    if n == 0 then [] else Zeros(n - 1) + ['0']
  }

  function PadStart(s: string, length: nat): string {
    Zeros(if |s| < length then length - |s| else 0) + s
  }

  function PadEnd(s: string, length: nat): string {
    s + Zeros(if |s| < length then length - |s| else 0)
  }

  /** replace(/0+$/, ""). */
  function StripZeros(s: string): string {
    if s != [] && s[|s| - 1] == '0' then StripZeros(s[..|s| - 1]) else s
  }

  function Split(s: string, separator: char): (parts: seq<string>)
    ensures |parts| > 0
  {
    if s == [] then [[]]
    else
      var rest := Split(s[1..], separator);
      if s[0] == separator then [[]] + rest else [[s[0]] + rest[0]] + rest[1..]
  }

  // ----- Formatting and parsing -----

  /** BigInt division and remainder of amounts. */
  function Quotient(a: nat, d: nat): nat
    requires d > 0
  {
    a / d
  }

  function Remainder(a: nat, d: nat): (r: nat)
    requires d > 0
    ensures r < d
  {
    a % d
  }

  function WholePart(amount: nat, decimals: nat): string {
    Digits(Quotient(amount, Pow10(decimals)))
  }

  function FractionPart(amount: nat, decimals: nat): string {
    StripZeros(PadStart(Digits(Remainder(amount, Pow10(decimals))), decimals))
  }

  /** The text of a whole part and a fraction, without the point where there is no fraction. */
  function Text(whole: string, fraction: string): string {
    whole + (if fraction == [] then [] else "." + fraction)
  }

  /** formatWagerAmount; None where it throws. */
  function FormatAmount(amount: int, decimals: nat): Option<string> {
    if amount < 0 then None else Some(Text(WholePart(amount, decimals), FractionPart(amount, decimals)))
  }

  /** BigInt(text) for plain decimal texts; the empty text is zero. */
  function BigInt(text: string): Option<nat> {
    if AllDigits(text) then Some(Value(text)) else None
  }

  /** rawAmount; None where BigInt throws. */
  function RawAmount(text: string, decimals: nat): Option<nat> {
    var parts := Split(text, '.');
    RawParts(parts[0], if |parts| > 1 then parts[1] else "", decimals)
  }

  function RawParts(whole: string, fraction: string, decimals: nat): Option<nat> {
    var cut := Kept(fraction, decimals);
    var w, f := BigInt(whole), BigInt(if cut == [] then "0" else cut);
    if w.Some? && f.Some? then Some(w.value * Pow10(decimals) + f.value) else None
  }

  /** The digits of a fraction that count: the first `decimals` of them, filled up with zeros. */
  function Kept(fraction: string, decimals: nat): string {
    PadEnd(fraction, decimals)[..decimals]
  }

  // ----- Digits and values -----

  lemma {:induction false} ValueConcat(a: string, b: string)
    requires AllDigits(a) && AllDigits(b)
    ensures AllDigits(a + b) && Value(a + b) == Value(a) * Pow10(|b|) + Value(b)
  {
    if b == [] {
      assert a + b == a;
    } else {
      var init := b[..|b| - 1];
      assert (a + b)[..|a + b| - 1] == a + init;
      ValueConcat(a, init);
      TenTimes(Value(a), Pow10(|init|), Value(init));
    }
  }

  lemma TenTimes(a: nat, p: nat, v: nat)
    ensures 10 * (a * p + v) == a * (10 * p) + 10 * v
  {
  }

  lemma {:induction false} ValueBound(s: string)
    requires AllDigits(s)
    ensures Value(s) < Pow10(|s|)
  {
    if s != [] {
      ValueBound(s[..|s| - 1]);
    }
  }

  lemma {:induction false} ZerosValue(n: nat)
    ensures Value(Zeros(n)) == 0
  {
    if n > 0 {
      ZerosValue(n - 1);
      assert Zeros(n)[..n - 1] == Zeros(n - 1);
    }
  }

  lemma {:induction false} DigitsValue(n: nat)
    ensures AllDigits(Digits(n)) && Value(Digits(n)) == n
  {
    if n >= 10 {
      DigitsValue(n / 10);
      assert Digits(n)[..|Digits(n)| - 1] == Digits(n / 10);
    } else {
      assert Digits(n)[..0] == [];
    }
  }

  lemma {:induction false} DigitsFit(n: nat, k: nat)
    requires 0 < k && n < Pow10(k)
    ensures |Digits(n)| <= k
  {
    if n >= 10 {
      DigitsFit(n / 10, k - 1);
    }
  }

  /** A numeral as it is usually written: no leading zero except in "0". */
  predicate Numeral(s: string) {
    AllDigits(s) && s != [] && (s[0] == '0' ==> |s| == 1)
  }

  lemma {:induction false} DigitsNumeral(n: nat)
    ensures Numeral(Digits(n)) && (n > 0 ==> Digits(n)[0] != '0')
  {
    if n >= 10 {
      DigitsNumeral(n / 10);
    }
  }

  lemma {:induction false} NumeralPositive(s: string)
    requires Numeral(s) && s[0] != '0'
    ensures Value(s) > 0
  {
    if |s| > 1 {
      NumeralPositive(s[..|s| - 1]);
    } else {
      assert s[..0] == [];
    }
  }

  lemma DigitsOneMore(n: nat, last: char)
    requires IsDigit(last) && n > 0
    ensures Digits(10 * n + DigitOf(last)) == Digits(n) + [last]
  {
    assert DigitChar(DigitOf(last)) == last;
  }

  lemma ValueAppend(init: string, last: char)
    requires AllDigits(init) && IsDigit(last)
    ensures AllDigits(init + [last]) && Value(init + [last]) == 10 * Value(init) + DigitOf(last)
  {
    assert (init + [last])[..|init|] == init;
  }

  lemma OneDigit(last: char)
    requires IsDigit(last)
    ensures Digits(DigitOf(last)) == [last]
  {
    assert DigitChar(DigitOf(last)) == last;
  }

  lemma {:induction false} DigitsOfNumeral(s: string)
    requires Numeral(s)
    ensures Digits(Value(s)) == s
  {
    var init, last := s[..|s| - 1], s[|s| - 1];
    assert s == init + [last];
    ValueAppend(init, last);
    if init == [] {
      OneDigit(last);
    } else {
      DigitsOfNumeral(init);
      NumeralPositive(init);
      DigitsOneMore(Value(init), last);
    }
  }

  /** Left padding restores a digit string from its value. */
  lemma {:induction false} PadDigits(s: string)
    requires AllDigits(s) && s != []
    ensures PadStart(Digits(Value(s)), |s|) == s
  {
    var init, last := s[..|s| - 1], s[|s| - 1];
    assert s == init + [last];
    assert DigitChar(DigitOf(last)) == last;
    if init == [] {
      assert Value(s) == DigitOf(last);
    } else {
      PadDigits(init);
      PadOneMore(init, last, Value(init), |init|);
    }
  }

  lemma PadOneMore(init: string, last: char, n: nat, k: nat)
    requires IsDigit(last) && k > 0 && PadStart(Digits(n), k) == init && |init| == k
    ensures PadStart(Digits(10 * n + DigitOf(last)), k + 1) == init + [last]
  {
    if n > 0 {
      DigitsOneMore(n, last);
    } else {
      assert Digits(n) == "0" && DigitChar(DigitOf(last)) == last;
    }
  }

  lemma {:induction false} StripSplits(s: string)
    ensures var t := StripZeros(s);
            && |t| <= |s| && s == t + Zeros(|s| - |t|)
            && (t != [] ==> t[|t| - 1] != '0')
  {
    if s != [] && s[|s| - 1] == '0' {
      var init := s[..|s| - 1];
      StripSplits(init);
      assert s == init + ['0'];
    }
  }

  lemma {:induction false} StripZerosOf(s: string, n: nat)
    requires s != [] ==> s[|s| - 1] != '0'
    ensures StripZeros(s + Zeros(n)) == s
  {
    if n > 0 {
      assert (s + Zeros(n))[..|s| + n - 1] == s + Zeros(n - 1);
      StripZerosOf(s, n - 1);
    } else {
      assert s + Zeros(0) == s;
    }
  }

  // ----- Splitting -----

  lemma {:induction false} SplitNone(s: string, separator: char)
    requires separator !in s
    ensures Split(s, separator) == [s]
  {
    if s != [] {
      SplitNone(s[1..], separator);
      assert [s[0]] + s[1..] == s;
    }
  }

  lemma {:induction false} SplitAt(a: string, separator: char, b: string)
    requires separator !in a
    ensures Split(a + [separator] + b, separator) == [a] + Split(b, separator)
  {
    if a == [] {
      assert (a + [separator] + b)[1..] == b;
    } else {
      assert (a + [separator] + b)[1..] == a[1..] + [separator] + b;
      SplitAt(a[1..], separator, b);
      assert [a[0]] + a[1..] == a;
    }
  }

  // ----- What a decimal text means -----

  lemma SplitText(whole: string, fraction: string)
    requires AllDigits(whole) && AllDigits(fraction)
    ensures Split(Text(whole, fraction), '.') == if fraction == [] then [whole] else [whole, fraction]
  {
    if fraction == [] {
      assert Text(whole, fraction) == whole;
      SplitNone(whole, '.');
    } else {
      assert Text(whole, fraction) == whole + ['.'] + fraction;
      SplitAt(whole, '.', fraction);
      SplitNone(fraction, '.');
    }
  }

  lemma KeptDigits(fraction: string, decimals: nat)
    requires AllDigits(fraction)
    ensures |Kept(fraction, decimals)| == decimals && AllDigits(Kept(fraction, decimals))
  {
  }

  lemma RawOfParts(whole: string, fraction: string, decimals: nat)
    requires AllDigits(whole) && AllDigits(Kept(fraction, decimals))
    ensures RawParts(whole, fraction, decimals)
         == Some(Value(whole) * Pow10(decimals) + Value(Kept(fraction, decimals)))
  {
  }

  lemma RawText(whole: string, fraction: string, decimals: nat)
    requires AllDigits(whole) && AllDigits(fraction)
    ensures AllDigits(Kept(fraction, decimals))
    ensures RawAmount(Text(whole, fraction), decimals)
         == Some(Value(whole) * Pow10(decimals) + Value(Kept(fraction, decimals)))
  {
    KeptDigits(fraction, decimals);
    SplitText(whole, fraction);
    RawOfParts(whole, fraction, decimals);
  }

  lemma PowAdds(m: nat, n: nat)
    ensures Pow10(m + n) == Pow10(m) * Pow10(n)
  {
    if m > 0 {
      PowAdds(m - 1, n);
    }
  }

  /** raw == floor(number / unit * scale) */
  predicate RoundsDown(raw: nat, number: nat, unit: nat, scale: nat) {
    raw * unit <= number * scale < (raw + 1) * unit
  }

  lemma FilledUp(fraction: string, k: nat)
    requires AllDigits(fraction)
    ensures Value(fraction + Zeros(k)) == Value(fraction) * Pow10(k)
  {
    ValueConcat(fraction, Zeros(k));
    ZerosValue(k);
  }

  /** The kept digits are the fraction in base units, rounded down. */
  lemma KeptRoundsDown(fraction: string, decimals: nat)
    requires AllDigits(fraction) && AllDigits(Kept(fraction, decimals))
    ensures RoundsDown(Value(Kept(fraction, decimals)), Value(fraction), Pow10(|fraction|), Pow10(decimals))
  {
    var kept, n := Kept(fraction, decimals), |fraction|;
    if n <= decimals {
      var k := decimals - n;
      assert kept == fraction + Zeros(k);
      FilledUp(fraction, k);
      PowAdds(k, n);
      Fills(Value(fraction), Pow10(k), Pow10(n));
    } else {
      var cut := fraction[decimals..];
      assert kept == fraction[..decimals] && fraction == kept + cut;
      ValueConcat(kept, cut);
      ValueBound(cut);
      PowAdds(|cut|, decimals);
      Truncates(Value(kept), Value(cut), Pow10(|cut|), Pow10(decimals));
    }
  }

  lemma Fills(fraction: nat, fill: nat, unit: nat)
    requires unit > 0
    ensures RoundsDown(fraction * fill, fraction, unit, fill * unit)
  {
  }

  lemma Truncates(kept: nat, cut: nat, unit: nat, scale: nat)
    requires cut < unit && scale > 0
    ensures RoundsDown(kept, kept * unit + cut, unit * scale, scale)
  {
  }

  /** A decimal text is read as the number it denotes, in base units and rounded down: digits beyond the
    * asset's decimals are dropped, missing ones are zero. With n fraction digits the number is
    * (whole * 10^n + fraction) / 10^n.
    */
  lemma RawRoundsDown(whole: string, fraction: string, decimals: nat) returns (raw: nat)
    requires AllDigits(whole) && AllDigits(fraction)
    ensures RawAmount(Text(whole, fraction), decimals) == Some(raw)
    ensures RoundsDown(raw, Value(whole) * Pow10(|fraction|) + Value(fraction), Pow10(|fraction|), Pow10(decimals))
  {
    RawText(whole, fraction, decimals);
    var kept := Value(Kept(fraction, decimals));
    KeptRoundsDown(fraction, decimals);
    raw := Shift(Value(whole), Value(fraction), kept, Pow10(|fraction|), Pow10(decimals));
  }

  lemma Shift(whole: nat, fraction: nat, kept: nat, unit: nat, scale: nat) returns (raw: nat)
    requires RoundsDown(kept, fraction, unit, scale)
    ensures raw == whole * scale + kept && RoundsDown(raw, whole * unit + fraction, unit, scale)
  {
    raw := whole * scale + kept;
    assert (whole * unit + fraction) * scale == whole * scale * unit + fraction * scale;
    assert raw * unit == whole * scale * unit + kept * unit;
    assert (raw + 1) * unit == whole * scale * unit + (kept + 1) * unit;
  }

  // ----- Round trips -----

  /** A text as formatting writes it: a plain numeral, then at most `decimals` fraction digits of which the
    * last is not zero.
    */
  predicate Canonical(whole: string, fraction: string, decimals: nat) {
    && Numeral(whole) && AllDigits(fraction) && |fraction| <= decimals
    && (fraction != [] ==> fraction[|fraction| - 1] != '0')
  }

  lemma LeadingZeros(k: nat, s: string)
    requires AllDigits(s)
    ensures AllDigits(Zeros(k) + s) && Value(Zeros(k) + s) == Value(s)
  {
    ValueConcat(Zeros(k), s);
    ZerosValue(k);
  }

  lemma PaddedValue(rest: nat, decimals: nat)
    requires rest < Pow10(decimals) && decimals > 0
    ensures var padded := PadStart(Digits(rest), decimals);
            |padded| == decimals && AllDigits(padded) && Value(padded) == rest
  {
    DigitsValue(rest);
    DigitsFit(rest, decimals);
    LeadingZeros(decimals - |Digits(rest)|, Digits(rest));
  }

  lemma NoDecimals()
    ensures StripZeros(PadStart(Digits(0), 0)) == "" && Value(Kept("", 0)) == 0
  {
  }

  lemma {:induction false} StripKeepsDigits(s: string)
    requires AllDigits(s)
    ensures AllDigits(StripZeros(s))
  {
    if s != [] && s[|s| - 1] == '0' {
      StripKeepsDigits(s[..|s| - 1]);
    }
  }

  /** What formatting puts after the point, padded on the right again, is the remainder. */
  lemma FractionKept(rest: nat, decimals: nat)
    requires rest < Pow10(decimals)
    ensures var fraction := StripZeros(PadStart(Digits(rest), decimals));
            && AllDigits(fraction) && |fraction| <= decimals
            && (fraction != [] ==> fraction[|fraction| - 1] != '0')
            && AllDigits(Kept(fraction, decimals))
            && Value(Kept(fraction, decimals)) == rest
  {
    if decimals == 0 {
      NoDecimals();
    } else {
      var padded := PadStart(Digits(rest), decimals);
      PaddedValue(rest, decimals);
      StrippedKept(padded);
    }
  }

  lemma StrippedKept(padded: string)
    requires AllDigits(padded)
    ensures var fraction := StripZeros(padded);
            && AllDigits(fraction) && |fraction| <= |padded|
            && (fraction != [] ==> fraction[|fraction| - 1] != '0')
            && Kept(fraction, |padded|) == padded
  {
    StripSplits(padded);
    StripKeepsDigits(padded);
  }

  lemma FormatIsCanonical(amount: nat, decimals: nat)
    ensures Canonical(WholePart(amount, decimals), FractionPart(amount, decimals), decimals)
  {
    DigitsNumeral(Quotient(amount, Pow10(decimals)));
    FractionKept(Remainder(amount, Pow10(decimals)), decimals);
  }

  lemma Divides(a: nat, d: nat)
    requires d > 0
    ensures a == Quotient(a, d) * d + Remainder(a, d)
  {
  }

  /** Parsing undoes formatting, for every amount and every number of decimals. */
  lemma RawOfFormat(amount: nat, decimals: nat)
    ensures FormatAmount(amount, decimals).Some?
    ensures RawAmount(FormatAmount(amount, decimals).value, decimals) == Some(amount)
  {
    var whole, fraction := WholePart(amount, decimals), FractionPart(amount, decimals);
    FormatIsCanonical(amount, decimals);
    RawText(whole, fraction, decimals);
    DigitsValue(Quotient(amount, Pow10(decimals)));
    FractionKept(Remainder(amount, Pow10(decimals)), decimals);
    Divides(amount, Pow10(decimals));
  }

  lemma Monotone(m: nat, n: nat, d: nat)
    requires m <= n
    ensures m * d <= n * d
  {
  }

  lemma Splits(q: nat, r: nat, d: nat)
    requires r < d
    ensures Quotient(q * d + r, d) == q && Remainder(q * d + r, d) == r
  {
    var a := q * d + r;
    Divides(a, d);
    if Quotient(a, d) < q {
      Monotone(Quotient(a, d) + 1, q, d);
    } else if Quotient(a, d) > q {
      Monotone(q + 1, Quotient(a, d), d);
    }
  }

  lemma KeptShort(fraction: string, decimals: nat)
    requires AllDigits(fraction) && |fraction| <= decimals
    ensures Kept(fraction, decimals) == fraction + Zeros(decimals - |fraction|)
    ensures AllDigits(Kept(fraction, decimals))
  {
  }

  lemma PaddedBack(fraction: string, decimals: nat)
    requires AllDigits(fraction) && |fraction| <= decimals
    requires fraction != [] ==> fraction[|fraction| - 1] != '0'
    ensures AllDigits(Kept(fraction, decimals))
    ensures StripZeros(PadStart(Digits(Value(Kept(fraction, decimals))), decimals)) == fraction
  {
    KeptShort(fraction, decimals);
    if decimals == 0 {
      NoDecimals();
    } else {
      PadDigits(Kept(fraction, decimals));
      StripZerosOf(fraction, decimals - |fraction|);
    }
  }

  lemma PartsOf(amount: nat, whole: string, fraction: string, decimals: nat)
    requires Canonical(whole, fraction, decimals) && AllDigits(Kept(fraction, decimals))
    requires Quotient(amount, Pow10(decimals)) == Value(whole)
    requires Remainder(amount, Pow10(decimals)) == Value(Kept(fraction, decimals))
    ensures FormatAmount(amount, decimals) == Some(Text(whole, fraction))
  {
    DigitsOfNumeral(whole);
    PaddedBack(fraction, decimals);
  }

  lemma RawSplits(whole: string, fraction: string, decimals: nat) returns (amount: nat)
    requires Canonical(whole, fraction, decimals)
    ensures AllDigits(Kept(fraction, decimals)) && RawAmount(Text(whole, fraction), decimals) == Some(amount)
    ensures Quotient(amount, Pow10(decimals)) == Value(whole)
    ensures Remainder(amount, Pow10(decimals)) == Value(Kept(fraction, decimals))
  {
    RawText(whole, fraction, decimals);
    ValueBound(Kept(fraction, decimals));
    amount := Value(whole) * Pow10(decimals) + Value(Kept(fraction, decimals));
    Splits(Value(whole), Value(Kept(fraction, decimals)), Pow10(decimals));
  }

  /** Formatting undoes parsing on canonical texts, so the two are inverse bijections. */
  lemma FormatOfRaw(whole: string, fraction: string, decimals: nat)
    requires Canonical(whole, fraction, decimals)
    ensures RawAmount(Text(whole, fraction), decimals).Some?
    ensures FormatAmount(RawAmount(Text(whole, fraction), decimals).value, decimals) == Some(Text(whole, fraction))
  {
    var amount := RawSplits(whole, fraction, decimals);
    PartsOf(amount, whole, fraction, decimals);
  }

  /** Reading refuses a text exactly for a character other than a digit in its whole part, or among the digits of its
    * fraction that count.
    */
  lemma RawReadableIff(whole: string, fraction: string, decimals: nat)
    requires '.' !in whole && '.' !in fraction
    ensures RawAmount(whole, decimals).Some? <==> AllDigits(whole)
    ensures RawAmount(whole + ['.'] + fraction, decimals).Some? <==>
              AllDigits(whole) && AllDigits(if |fraction| < decimals then fraction else fraction[..decimals])
  {
    SplitNone(whole, '.');
    SplitAt(whole, '.', fraction);
    SplitNone(fraction, '.');
    KeptReadable("", decimals);
    KeptReadable(fraction, decimals);
  }

  lemma KeptReadable(fraction: string, decimals: nat)
    ensures AllDigits(Kept(fraction, decimals)) <==>
              AllDigits(if |fraction| < decimals then fraction else fraction[..decimals])
  {
    if |fraction| < decimals {
      assert PadEnd(fraction, decimals) == fraction + Zeros(decimals - |fraction|);
      assert Kept(fraction, decimals) == fraction + Zeros(decimals - |fraction|);
      assert forall i :: 0 <= i < |fraction| ==> Kept(fraction, decimals)[i] == fraction[i];
    } else {
      assert PadEnd(fraction, decimals) == fraction;
    }
  }
}
