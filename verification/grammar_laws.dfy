/** Properties of the argument validators of src/cli/args.rs that relate
    several calls or several validators. */
module GrammarLaws {
  import opened Wrappers
  import opened Text
  import opened Grammar

  /** No preset word carries a unit suffix, so the preset branch never
      competes with a unit branch. */
  lemma PresetsCarryNoUnit(s: string)
    ensures s in PitchPresets ==> !EndsWith(s, "Hz") && !EndsWith(s, "%") && !EndsWith(s, "st")
    ensures s in RatePresets ==> !EndsWith(s, "%") && !EndsWith(s, "f")
  {
  }

  /** A semitone value without an explicit sign is rejected unless the
      whole string happens to be a float (`"2st"` is an error). */
  lemma UnsignedSemitonesRejected(nx: Numerics, s: string)
    requires EndsWith(s, "st") && !StartsWith(s, "+") && !StartsWith(s, "-")
    requires !IsFloat(nx, s)
    ensures ParsePitch(nx, s) == Err(InvalidPitch)
  {
    PresetsCarryNoUnit(s);
    EndsWithLastChar(s, "st");
    if EndsWith(s, "Hz") {
      EndsWithLastChar(s, "Hz");
    }
    if EndsWith(s, "%") {
      EndsWithLastChar(s, "%");
    }
  }

  /** A signed float followed by `st` is passed through unchanged. */
  lemma SignedSemitonesAccepted(nx: Numerics, sign: string, x: string)
    requires sign == "+" || sign == "-"
    requires IsFloat(nx, sign + x)
    ensures ParsePitch(nx, sign + x + "st") == Ok(sign + x + "st")
  {
    var s := sign + x + "st";
    EndsWithAppend(sign + x, "st");
    assert s[..1] == sign;
  }

  lemma SemitoneExamples(nx: Numerics)
    requires IsFloat(nx, "+2") && !IsFloat(nx, "2st")
    ensures ParsePitch(nx, "+2st") == Ok("+2st")
    ensures ParsePitch(nx, "2st") == Err(InvalidPitch)
  {
    assert "+" + "2" == "+2";
    assert "+" + "2" + "st" == "+2st";
    SignedSemitonesAccepted(nx, "+", "2");
    assert "2st"[..1] == "2";
    UnsignedSemitonesRejected(nx, "2st");
  }

  /** A float followed by `f` is a raw multiplier: the `f` is dropped and
      the float returned as written, whatever the float is. */
  lemma MultiplierSuffixDropped(nx: Numerics, x: string)
    requires IsFloat(nx, x)
    ensures ParseRate(nx, x + "f") == Ok(x)
    ensures ParseRatePercent(nx, x + "f") == Ok(x)
  {
    EndsWithAppend(x, "f");
    PresetsCarryNoUnit(x + "f");
    assert !EndsWith(x + "f", "%") by {
      assert (x + "f")[|x + "f"| - 1] == 'f';
    }
  }

  lemma MultiplierExamples(nx: Numerics)
    requires IsFloat(nx, "2") && IsFloat(nx, "2.5")
    ensures ParseRate(nx, "2f") == Ok("2")
    ensures ParseRate(nx, "2.5f") == Ok("2.5")
  {
    assert "2" + "f" == "2f";
    assert "2.5" + "f" == "2.5f";
    MultiplierSuffixDropped(nx, "2");
    MultiplierSuffixDropped(nx, "2.5");
  }

  /** A percentage is passed through unchanged by both prosody validators. */
  lemma PercentagePassesBoth(nx: Numerics, s: string)
    requires FloatWithSuffix(nx, s, "%")
    ensures ParsePitch(nx, s) == Ok(s) && ParseRate(nx, s) == Ok(s)
  {
  }

  /** A bare float that is no preset and carries no unit suffix is
      rendered the same way by both prosody validators. */
  lemma BareFloatSameForBoth(nx: Numerics, s: string)
    requires IsFloat(nx, s)
    requires !EndsWith(s, "Hz") && !EndsWith(s, "%") && !EndsWith(s, "st") && !EndsWith(s, "f")
    requires s !in PitchPresets && s !in RatePresets
    ensures ParsePitch(nx, s) == ParseRate(nx, s) == Ok(nx.fixed2(nx.parse(s).value))
  {
    assert nx.fixed2(nx.parse(s).value) + "" == nx.fixed2(nx.parse(s).value);
  }

  /** The percentage rendering changes only the bare-float branch: on every
      other input it agrees with the validators as written. */
  lemma PercentRenderingOnlyTouchesBareFloats(nx: Numerics, s: string)
    ensures VerbatimPitch(nx, s) || !IsFloat(nx, s) ==> ParsePitchPercent(nx, s) == ParsePitch(nx, s)
    ensures (VerbatimRate(nx, s) || FloatWithSuffix(nx, s, "f") || !IsFloat(nx, s))
            ==> ParseRatePercent(nx, s) == ParseRate(nx, s)
  {
  }

  /** The style degree bounds are inclusive and use the f32 value of
      `0.01`: a string that parses to exactly `0.01f32` is accepted, and so
      is `2`; anything outside is rejected with the parsed value. */
  lemma StyleDegreeBounds(nx: Numerics, s: string, v: real)
    requires nx.parse(s) == Some(Finite(v))
    ensures v == MinStyleDegree || v == MaxStyleDegree ==> ParseStyleDegree(nx, s) == Ok(v)
    ensures v < MinStyleDegree || v > MaxStyleDegree ==> ParseStyleDegree(nx, s) == Err(OutOfRange(Finite(v)))
  {
  }

  /** Not-a-number, negative zero and the infinities parse as floats but
      are out of range, and the error reports them as parsed. */
  lemma StyleDegreeSpecials(nx: Numerics, s: string)
    requires || nx.parse(s) == Some(NaN) || nx.parse(s) == Some(NegZero)
             || nx.parse(s) == Some(PosInf) || nx.parse(s) == Some(NegInf)
    ensures ParseStyleDegree(nx, s) == Err(OutOfRange(nx.parse(s).value))
  {
  }

  lemma StyleDegreeExamples(nx: Numerics, low: real, high: real)
    requires nx.parse("0.005") == Some(Finite(low)) && low < 0.005001
    requires nx.parse("2.0") == Some(Finite(2.0))
    requires nx.parse("2.01") == Some(Finite(high)) && high > 2.0
    requires nx.parse("abc") == None
    requires nx.parse("NaN") == Some(NaN)
    ensures ParseStyleDegree(nx, "0.005").Err?
    ensures ParseStyleDegree(nx, "2.0") == Ok(2.0)
    ensures ParseStyleDegree(nx, "2.01").Err?
    ensures ParseStyleDegree(nx, "abc") == Err(NotAFloat)
    ensures ParseStyleDegree(nx, "NaN") == Err(OutOfRange(NaN))
  {
  }

  /** A bare zero keeps its sign: `0` and `-0` parse to different f32
      values, so both validators hand on `0.00` and `-0.00` respectively. */
  lemma SignedZeroKept(nx: Numerics)
    requires nx.parse("0") == Some(Finite(0.0)) && nx.parse("-0") == Some(NegZero)
    requires nx.fixed2(Finite(0.0)) == "0.00" && nx.fixed2(NegZero) == "-0.00"
    ensures ParsePitch(nx, "0") == Ok("0.00") && ParsePitch(nx, "-0") == Ok("-0.00")
    ensures ParseRate(nx, "0") == Ok("0.00") && ParseRate(nx, "-0") == Ok("-0.00")
    ensures ParsePitch(nx, "0") != ParsePitch(nx, "-0")
  {
    ZeroRendered(nx, "0");
    ZeroRendered(nx, "-0");
  }

  /** `0` and `-0` are bare floats to both validators. */
  lemma ZeroRendered(nx: Numerics, s: string)
    requires s == "0" || s == "-0"
    requires IsFloat(nx, s)
    ensures ParsePitch(nx, s) == ParseRate(nx, s) == Ok(nx.fixed2(nx.parse(s).value))
  {
    NoSuffixOnDigit(s);
    assert s !in PitchPresets && s !in RatePresets;
    BareFloatSameForBoth(nx, s);
  }

  /** A string ending in a digit carries none of the validators' suffixes. */
  lemma NoSuffixOnDigit(s: string)
    requires |s| > 0 && '0' <= s[|s| - 1] <= '9'
    ensures !EndsWith(s, "Hz") && !EndsWith(s, "%") && !EndsWith(s, "st") && !EndsWith(s, "f")
  {
    if EndsWith(s, "Hz") { EndsWithLastChar(s, "Hz"); }
    if EndsWith(s, "%") { EndsWithLastChar(s, "%"); }
    if EndsWith(s, "st") { EndsWithLastChar(s, "st"); }
    if EndsWith(s, "f") { EndsWithLastChar(s, "f"); }
  }

  /** Joining a name and a value with `=` and parsing the result gives the
      validated name and the value back, even when the value itself
      contains `=`: the split is at the first `=`, which the name lacks. */
  lemma ParseHeaderRoundTrip(rules: HeaderRules, name: string, value: string)
    requires '=' !in name
    ensures ParseHeader(rules, name + "=" + value) ==
      match rules.name(name)
      case None => Err(InvalidName(name))
      case Some(n) => if rules.valueStr(value) then Ok(Header(n, value)) else Err(InvalidValue(value))
  {
    var s := name + "=" + value;
    assert s[..|name|] == name && s[|name|] == '=' && s[|name| + 1..] == value;
    FindAt(s, '=', |name|);
  }
}
