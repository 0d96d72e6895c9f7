/** `formatWeight` and `formatTime`: unit choice and hour/minute decomposition,
    with `Number.prototype.toFixed` written out for exact reals. */
module Formatting {
  import opened Text
  import opened JsMath

  function Pow10(f: nat): (p: nat)
    ensures p >= 1
  {
    if f == 0 then 1 else 10 * Pow10(f - 1)
  }

  /** Digits padded with leading zeros to at least `f + 1` of them; their value is kept. */
  function PadDigits(m: string, f: nat): (p: string)
    requires AllDigits(m)
    ensures AllDigits(p) && |p| >= f + 1 && ParseNat(p) == ParseNat(m)
  {
    if |m| <= f then
      ParseNatLeadingZeros(f + 1 - |m|, m);
      Zeros(f + 1 - |m|) + m
    else m
  }

  /** A decimal point inserted before the last `f` characters. */
  function InsertPoint(p: string, f: nat): string
    requires f < |p|
  {
    p[..|p| - f] + "." + p[|p| - f..]
  }

  /** The digits of `n` with a decimal point inserted `f` places from the right,
      zero-padded so that at least one digit precedes the point. */
  function FixedDigits(n: nat, f: nat): (s: string)
    ensures |s| >= 1
  {
    if f == 0 then NatToString(n) else InsertPoint(PadDigits(NatToString(n), f), f)
  }

  /** `|x| * 10^f` rounded half up, as `toFixed` computes it. */
  function ScaledRound(x: real, f: nat): nat
  {
    var magnitude := if x < 0.0 then -x else x;
    var n := Round(magnitude * Pow10(f) as real);
    if n < 0 then 0 else n
  }

  /** `x.toFixed(f)`: the sign, then the rounded magnitude with `f` decimals. */
  function ToFixed(x: real, f: nat): (s: string)
    ensures |s| >= 1
  {
    (if x < 0.0 then "-" else "") + FixedDigits(ScaledRound(x, f), f)
  }

  /** `s` shows exactly `f` digits after its point and at least one before it, and
      its digits, point removed, read as `n`. */
  predicate ReadsAs(s: string, f: nat, n: nat) {
    |s| >= f + 2 && s[|s| - f - 1] == '.' &&
    AllDigits(s[..|s| - f - 1]) && AllDigits(s[|s| - f..]) &&
    ParseNat(s[..|s| - f - 1] + s[|s| - f..]) == n
  }

  /** Reading the digits back, with the point removed, gives `n`. */
  lemma FixedDigitsValue(n: nat, f: nat)
    requires f > 0
    ensures ReadsAs(FixedDigits(n, f), f, n)
  {
    ParseNatToString(n);
    InsertPointReads(PadDigits(NatToString(n), f), f);
  }

  /** Inserting a point and taking it out again restores the digits. */
  lemma InsertPointReads(p: string, f: nat)
    requires f < |p| && AllDigits(p)
    ensures ReadsAs(InsertPoint(p, f), f, ParseNat(p))
  {
    var k := |p| - f;
    var a, b := p[..k], p[k..];
    DigitSlices(p, k);
    assert a + b == p;
    PointRemoved(a, b);
    assert InsertPoint(p, f) == a + "." + b;
  }

  lemma DigitSlices(p: string, k: nat)
    requires k <= |p| && AllDigits(p)
    ensures AllDigits(p[..k]) && AllDigits(p[k..])
  {
    assert forall i :: 0 <= i < |p| - k ==> p[k..][i] == p[k + i];
  }

  /** Digits `a`, a point, digits `b`: the text reads as the digits of `a + b`. */
  lemma PointRemoved(a: string, b: string)
    requires |a| >= 1 && AllDigits(a) && AllDigits(b) && AllDigits(a + b)
    ensures ReadsAs(a + "." + b, |b|, ParseNat(a + b))
  {
    var s := a + "." + b;
    assert s[..|a|] == a;
    assert s[|a| + 1..] == b;
  }

  lemma ScaledRoundValue(x: real, f: nat)
    requires x >= 0.0
    ensures ScaledRound(x, f) == Round(x * Pow10(f) as real)
  {
    var p := Pow10(f) as real;
    assert x * p >= 0.0;
  }

  /** The digits of `x.toFixed(f)` for non-negative `x`, point removed, read back as
      the scaled and rounded magnitude (`x * 10^f` rounded, by `ScaledRoundValue`). */
  lemma ToFixedDigits(x: real, f: nat)
    requires x >= 0.0 && f > 0
    ensures ReadsAs(ToFixed(x, f), f, ScaledRound(x, f))
  {
    FixedDigitsValue(ScaledRound(x, f), f);
    assert ToFixed(x, f) == FixedDigits(ScaledRound(x, f), f);
  }

  /** A negative number shows a minus sign, then its magnitude as `toFixed` shows it;
      so `(-0.4).toFixed(0)` is "-0". */
  lemma ToFixedNegative(x: real, f: nat)
    requires x < 0.0
    ensures ToFixed(x, f) == "-" + ToFixed(-x, f)
  {
    var n := ScaledRound(x, f);
    ScaledRoundOfMagnitude(x, f);
    var digits := FixedDigits(n, f);
    assert ToFixed(x, f) == "-" + digits;
    assert ToFixed(-x, f) == "" + digits == digits;
  }

  lemma ScaledRoundOfMagnitude(x: real, f: nat)
    requires x < 0.0
    ensures ScaledRound(x, f) == ScaledRound(-x, f)
  {
    var m := -x;
    assert (if x < 0.0 then -x else x) == m == (if m < 0.0 then -m else m);
  }

  lemma NegativeZeroExample()
    ensures ToFixed(-0.4, 0) == "-0"
  {
    assert ScaledRound(-0.4, 0) == 0;
    assert NatToString(0) == "0";
  }

  /** With no decimals, `toFixed` renders the rounded value. */
  lemma ToFixedWhole(x: real)
    requires x >= 0.0
    ensures AllDigits(ToFixed(x, 0)) && ParseNat(ToFixed(x, 0)) == Round(x)
  {
    var n := ScaledRound(x, 0);
    ScaledRoundValue(x, 0);
    assert Pow10(0) == 1 && n == Round(x);
    assert ToFixed(x, 0) == FixedDigits(n, 0) == NatToString(n);
    ParseNatToString(n);
  }

  /** `formatWeight`: kilograms with two decimals from 1000 g, whole grams below. */
  function FormatWeight(grams: real): string
  {
    if grams >= 1000.0 then ToFixed(grams / 1000.0, 2) + " kg" else ToFixed(grams, 0) + " g"
  }

  predicate EndsWith(s: string, suffix: string) {
    |suffix| <= |s| && s[|s| - |suffix|..] == suffix
  }

  /** The unit is "kg" exactly when the weight is at least 1000 g. */
  lemma WeightUnit(grams: real)
    ensures EndsWith(FormatWeight(grams), " kg") <==> grams >= 1000.0
    ensures EndsWith(FormatWeight(grams), " g") <==> grams < 1000.0
  {
    var s := FormatWeight(grams);
    if grams < 1000.0 {
      assert s[|s| - 2..] == " g";
      assert s[|s| - 2] == ' ';
      assert |s| >= 3 ==> s[|s| - 3..][1] == ' ';
    } else {
      assert s[|s| - 3..] == " kg";
      assert s[|s| - 2..][0] == 'k';
    }
  }

  lemma WeightInKilograms()
    ensures FormatWeight(1500.0) == "1.50 kg"
  {
    assert ScaledRound(1.5, 2) == 150;
    assert NatToString(150) == "150";
  }

  lemma WeightInGrams()
    ensures FormatWeight(500.0) == "500 g"
  {
    assert ScaledRound(500.0, 0) == 500;
    assert NatToString(500) == "500";
  }

  /** The whole hours and the rounded remaining minutes `formatTime` shows. */
  function HoursPart(hours: real): int {
    Floor(hours)
  }

  function MinutesPart(hours: real): int {
    Round((hours - HoursPart(hours) as real) * 60.0)
  }

  /** `formatTime` */
  function FormatTime(hours: real): string
  {
    var h := HoursPart(hours);
    var m := MinutesPart(hours);
    if h == 0 then IntToString(m) + "m"
    else if m == 0 then IntToString(h) + "h"
    else IntToString(h) + "h " + IntToString(m) + "m"
  }

  /** Hours and minutes together are the duration in minutes, rounded; the minute part
      lies in 0..60 and reaches 60 without carrying into the hours. */
  lemma TimeParts(hours: real)
    ensures 0 <= MinutesPart(hours) <= 60
    ensures HoursPart(hours) * 60 + MinutesPart(hours) == Round(hours * 60.0)
  {
    var h := HoursPart(hours);
    var frac := (hours - h as real) * 60.0;
    assert hours * 60.0 + 0.5 == frac + 0.5 + (h * 60) as real;
  }

  lemma NoUnitLetters(i: int)
    ensures 'h' !in IntToString(i) && 'm' !in IntToString(i) && ' ' !in IntToString(i)
  {
    var s := IntToString(i);
    if i < 0 {
      assert s == [s[0]] + s[1..];
      assert forall c :: c in s[1..] ==> IsDigit(c);
    }
  }

  /** The hour unit appears exactly when the whole hours are non-zero; the minute unit
      exactly when there are no whole hours or the rounded minutes are non-zero. */
  lemma TimeUnits(hours: real)
    ensures 'h' in FormatTime(hours) <==> HoursPart(hours) != 0
    ensures 'm' in FormatTime(hours) <==> HoursPart(hours) == 0 || MinutesPart(hours) != 0
  {
    NoUnitLetters(HoursPart(hours));
    NoUnitLetters(MinutesPart(hours));
  }

  /** For a non-negative duration the text reads back: the digits before the "h" are
      the whole hours, and the digits between the hours (or the start) and the final
      "m" are the rounded minutes. */
  lemma TimeReadsBack(hours: real)
    requires hours >= 0.0
    ensures var s, h := FormatTime(hours), HoursPart(hours); var k := LastIndexOf(s, 'h');
      h != 0 ==> 0 < k && AllDigits(s[..k]) && ParseNat(s[..k]) == h
    ensures var s, h, m := FormatTime(hours), HoursPart(hours), MinutesPart(hours);
      var start := if h == 0 then 0 else LastIndexOf(s, 'h') + 2;
      h == 0 || m != 0 ==>
        start < |s| - 1 && s[|s| - 1] == 'm' && AllDigits(s[start..|s| - 1]) &&
        ParseNat(s[start..|s| - 1]) == m
  {
    var s, h, m := FormatTime(hours), HoursPart(hours), MinutesPart(hours);
    TimeParts(hours);
    assert h >= 0;
    var hs, ms := IntToString(h), IntToString(m);
    NoUnitLetters(h);
    NoUnitLetters(m);
    if h == 0 {
      assert s == ms + "m";
      assert s[..|s| - 1] == ms;
    } else if m == 0 {
      assert s == hs + "h";
      HoursBeforeLetter(s, hs, "h", |hs|);
    } else {
      var tail := "h " + ms + "m";
      assert s == hs + tail;
      assert 'h' !in tail[1..] by {
        assert tail[1..] == " " + ms + "m";
      }
      HoursBeforeLetter(s, hs, tail, |hs|);
      assert s[|hs| + 2..|s| - 1] == ms;
    }
  }

  /** In `hs + tail`, with no "h" in `hs` and the only "h" of `tail` at its start, the
      last "h" sits right after `hs`. */
  lemma HoursBeforeLetter(s: string, hs: string, tail: string, k: nat)
    requires s == hs + tail && k == |hs| && |tail| >= 1 && tail[0] == 'h'
    requires 'h' !in tail[1..]
    ensures LastIndexOf(s, 'h') == k && s[..k] == hs
  {
    var r := LastIndexOf(s, 'h');
    assert s[k] == 'h';
  }

  lemma TimeExamples()
    ensures FormatTime(4.5) == "4h 30m"
    ensures FormatTime(1.995) == "1h 60m"
    ensures FormatTime(0.25) == "15m"
  {
    assert HoursPart(4.5) == 4 && MinutesPart(4.5) == 30;
    assert NatToString(4) == "4" && NatToString(30) == "30";
    assert HoursPart(1.995) == 1 && MinutesPart(1.995) == 60;
    assert NatToString(1) == "1" && NatToString(60) == "60";
    assert HoursPart(0.25) == 0 && MinutesPart(0.25) == 15;
    assert NatToString(15) == "15";
  }
}
