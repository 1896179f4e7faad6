/** Labels of the response curve's background grid (ResponseCurve::resized).
    The grid frequencies are whole numbers of hertz and the gains whole
    decibels, so each label is an exact function of an integer. */
module Grid {
  import opened Text
  import opened Arith

  /** The frequencies that get a vertical grid line, in hertz. */
  const Frequencies: seq<nat> := [
    20, 30, 40, 50, 60, 70, 80, 90, 100,
    200, 300, 400, 500, 600, 700, 800, 900, 1000,
    2000, 3000, 4000, 5000, 6000, 7000, 8000, 9000, 10000,
    20000]

  /** The gains that get a horizontal grid line, in decibels. */
  const Gains: seq<int> := [-24, -12, 0, 12, 24]

  function Pow10(k: nat): (p: nat)
    ensures p >= 1
  {
    if k == 0 then 1 else 10 * Pow10(k - 1)
  }

  /** `(int)log10(f)`: one less than the number of decimal digits of `f`. */
  function Log10Floor(f: nat): (k: nat)
    requires f >= 1
    ensures Pow10(k) <= f < 10 * Pow10(k)
    ensures k + 1 == |NatToString(f)|
  {
    if f < 10 then 0 else 1 + Log10Floor(f / 10)
  }

  /** `(int)(f / pow(10, digits))`: the leading decimal digit of `f`. */
  function FirstDigit(f: nat): (d: nat)
    requires f >= 1
    ensures 1 <= d <= 9
  {
    var p := Pow10(Log10Floor(f));
    var d := f / p;
    assert 1 <= d <= 9 by {
      DivBounds(f, p);
      if d >= 10 { MulMono(10, d, p); }
    }
    d
  }

  /** The leading digit computed through the logarithm is the first character
      of the number's decimal text. */
  lemma {:induction false} FirstDigitIsLeadingChar(f: nat)
    requires f >= 1
    ensures NatToString(f)[0] == DigitChar(FirstDigit(f))
    decreases f
  {
    if f >= 10 {
      FirstDigitIsLeadingChar(f / 10);
      var k := Log10Floor(f / 10);
      assert Log10Floor(f) == k + 1;
      calc {
        FirstDigit(f);
        f / Pow10(k + 1);
        f / (10 * Pow10(k));
        { DivDiv(f, 10, Pow10(k)); }
        (f / 10) / Pow10(k);
        FirstDigit(f / 10);
      }
    }
  }

  /** A grid frequency is labelled only when its leading digit is 1, 2, 3 or 5. */
  predicate HasLabel(f: nat)
    requires f >= 1
  {
    var d := FirstDigit(f);
    d == 1 || d == 2 || d == 3 || d == 5
  }

  /** Frequencies above 999 Hz are written in kilohertz with a "k" before the
      unit; the label code divides by 1000, so whole numbers of kilohertz keep
      an integer text. */
  predicate Labellable(f: nat) { f >= 1 && (f > 999 ==> f % 1000 == 0) }

  /** The text drawn above a frequency grid line, if any. */
  function FrequencyLabel(f: nat): (text: Option<string>)
    requires Labellable(f)
    ensures text.Some? <==> NatToString(f)[0] in "1235"
  {
    FirstDigitIsLeadingChar(f);
    if !HasLabel(f) then None
    else if f > 999 then Some(NatToString(f / 1000) + "kHz")
    else Some(NatToString(f) + "Hz")
  }

  predicate AllDigits(s: string) { forall i :: 0 <= i < |s| ==> IsDigit(s[i]) }

  /** What a frequency label denotes, in hertz: a decimal number followed by
      "Hz", or by "kHz" for thousands of hertz. */
  function ReadFrequencyLabel(s: string): Option<nat>
  {
    if |s| >= 4 && s[|s| - 3..] == "kHz" && AllDigits(s[..|s| - 3]) then
      Some(DigitsValue(s[..|s| - 3]) * 1000)
    else if |s| >= 3 && s[|s| - 2..] == "Hz" && AllDigits(s[..|s| - 2]) then
      Some(DigitsValue(s[..|s| - 2]))
    else None
  }

  /** A kilohertz label reads back as its number of thousands of hertz. */
  lemma ReadKiloLabel(t: string)
    requires |t| >= 1 && AllDigits(t)
    ensures ReadFrequencyLabel(t + "kHz") == Some(DigitsValue(t) * 1000)
    ensures 'k' in t + "kHz"
  {
    var s := t + "kHz";
    assert s[..|s| - 3] == t && s[|s| - 3..] == "kHz";
    assert s[|s| - 3] == 'k';
  }

  /** A hertz label reads back as its number, and has no "k". */
  lemma ReadHertzLabel(t: string)
    requires |t| >= 1 && AllDigits(t)
    ensures ReadFrequencyLabel(t + "Hz") == Some(DigitsValue(t))
    ensures 'k' !in t + "Hz"
  {
    var s := t + "Hz";
    assert s[..|s| - 2] == t && s[|s| - 2..] == "Hz";
    var suffix := s[|s| - 3..];
    assert suffix[0] == t[|t| - 1] && IsDigit(t[|t| - 1]);
    assert suffix[0] != "kHz"[0];
    forall i | 0 <= i < |s| ensures s[i] != 'k' {
      if i < |t| { assert s[i] == t[i] && IsDigit(t[i]); }
    }
  }

  /** Every frequency label reads back as the frequency of its grid line, and
      carries the "k" exactly when that frequency is above 999 Hz. */
  lemma FrequencyLabelRoundTrip(f: nat)
    requires Labellable(f) && FrequencyLabel(f).Some?
    ensures ReadFrequencyLabel(FrequencyLabel(f).value) == Some(f)
    ensures 'k' in FrequencyLabel(f).value <==> f > 999
  {
    if f > 999 {
      NatToStringRoundTrip(f / 1000);
      ReadKiloLabel(NatToString(f / 1000));
    } else {
      NatToStringRoundTrip(f);
      ReadHertzLabel(NatToString(f));
    }
  }

  /** Every grid frequency is in the domain of the label rule. */
  lemma GridFrequenciesLabellable()
    ensures forall i :: 0 <= i < |Frequencies| ==> Labellable(Frequencies[i])
  {
  }

  /** The text drawn beside a gain grid line: a "+" before positive gains. */
  function GainLabel(gain: int): (s: string)
    ensures |s| >= 1
    ensures s[0] == '+' <==> gain > 0
    ensures s[0] == '-' <==> gain < 0
  {
    (if gain > 0 then "+" else "") + IntToString(gain)
  }

  /** What a gain label denotes, in decibels. */
  function ReadGainLabel(s: string): Option<int>
  {
    if |s| == 0 then None
    else if s[0] == '+' || s[0] == '-' then
      var magnitude := s[1..];
      if |magnitude| >= 1 && AllDigits(magnitude) then
        var v: int := DigitsValue(magnitude);
        Some(if s[0] == '-' then -v else v)
      else None
    else if AllDigits(s) then Some(DigitsValue(s) as int)
    else None
  }

  lemma ReadSignedLabel(sign: char, t: string)
    requires sign == '+' || sign == '-'
    requires |t| >= 1 && AllDigits(t)
    ensures ReadGainLabel([sign] + t) ==
      Some(if sign == '-' then -(DigitsValue(t) as int) else DigitsValue(t) as int)
  {
    assert ([sign] + t)[1..] == t;
  }

  lemma NegativeGainLabelRoundTrip(gain: int)
    requires gain < 0
    ensures ReadGainLabel(GainLabel(gain)) == Some(gain)
  {
    var m: nat := -gain;
    var t := NatToString(m);
    assert GainLabel(gain) == ['-'] + t;
    ReadSignedLabel('-', t);
    NatToStringRoundTrip(m);
    var r := ReadGainLabel(['-'] + t);
    assert r == Some(-(m as int));
    assert r == Some(gain);
  }

  lemma PositiveGainLabelRoundTrip(gain: int)
    requires gain > 0
    ensures ReadGainLabel(GainLabel(gain)) == Some(gain)
  {
    var m: nat := gain;
    var t := NatToString(m);
    assert GainLabel(gain) == ['+'] + t;
    ReadSignedLabel('+', t);
    NatToStringRoundTrip(m);
    var r := ReadGainLabel(['+'] + t);
    assert r == Some(m as int);
    assert r == Some(gain);
  }

  /** Every gain label reads back as its gain. */
  lemma GainLabelRoundTrip(gain: int)
    ensures ReadGainLabel(GainLabel(gain)) == Some(gain)
  {
    if gain > 0 {
      PositiveGainLabelRoundTrip(gain);
    } else if gain < 0 {
      NegativeGainLabelRoundTrip(gain);
    } else {
      ZeroGainLabelRoundTrip();
    }
  }

  lemma ZeroGainLabelRoundTrip()
    ensures ReadGainLabel(GainLabel(0)) == Some(0)
  {
    var t := NatToString(0);
    NatToStringRoundTrip(0);
    assert GainLabel(0) == t;
    assert AllDigits(t) && t[0] == '0';
  }

  /** The five gain labels, bottom to top. */
  lemma GridGainLabels()
    ensures seq(|Gains|, i requires 0 <= i < |Gains| => GainLabel(Gains[i]))
            == ["-24", "-12", "0", "+12", "+24"]
  {
    assert GainLabel(-24) == "-24" && GainLabel(-12) == "-12" && GainLabel(0) == "0";
    assert GainLabel(12) == "+12" && GainLabel(24) == "+24";
  }
}
