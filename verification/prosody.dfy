/** What a pitch or rate string means, on the way in and on the way out.

    On the way in, the help texts of `--pitch` and `--rate`
    (src/cli/args.rs:222-235) promise that a bare float is a percentage
    (`0.5` is +50%), that `2f` is a raw multiplier and that units and
    preset words keep their usual sense. On the way out, the validated
    string becomes the `pitch` or `rate` attribute of an SSML `prosody`
    element, where the speech service reads a bare number as a rate
    multiplier and does not accept a bare number as a pitch.

    The validators as written render a bare float without `%`, so `0.5`
    reaches the service as `50.00`: a 50-fold rate and an unusable pitch.
    With `%` appended (`ParsePitchPercent`, `ParseRatePercent`) every
    accepted string keeps the kind the help text promises. */
module Prosody {
  import opened Wrappers
  import opened Text
  import opened Grammar

  datatype Kind = Preset | Percentage | Hertz | Semitones | Multiplier

  /** The unit a prosody value ends in, read off its last characters. */
  datatype Unit = HzUnit | PercentUnit | StUnit | NoUnit

  function UnitOf(s: string): (u: Unit)
    ensures u == HzUnit || u == StUnit ==> |s| >= 2
    ensures u == PercentUnit ==> |s| >= 1
  {
    if |s| >= 2 && s[|s| - 2] == 'H' && s[|s| - 1] == 'z' then HzUnit
    else if |s| >= 1 && s[|s| - 1] == '%' then PercentUnit
    else if |s| >= 2 && s[|s| - 2] == 's' && s[|s| - 1] == 't' then StUnit
    else NoUnit
  }

  function UnitLength(u: Unit): nat {
    match u
    case HzUnit => 2
    case PercentUnit => 1
    case StUnit => 2
    case NoUnit => 0
  }

  /** The number in front of the unit. */
  function Magnitude(s: string): string {
    s[..|s| - UnitLength(UnitOf(s))]
  }

  /** The keywords of the SSML `pitch` and `rate` attributes. */
  const PitchKeywords: set<string> := {"x-low", "low", "medium", "high", "x-high", "default"}
  const RateKeywords: set<string> := {"x-slow", "slow", "medium", "fast", "x-fast", "default"}

  /** How the speech service reads a `pitch` attribute: a keyword, or a
      number with a unit, where semitones must carry a sign. */
  function ServicePitch(nx: Numerics, s: string): Option<Kind> {
    if s in PitchKeywords then Some(Preset)
    else if !IsFloat(nx, Magnitude(s)) then None
    else
      match UnitOf(s)
      case HzUnit => Some(Hertz)
      case PercentUnit => Some(Percentage)
      case StUnit => if s[0] == '+' || s[0] == '-' then Some(Semitones) else None
      case NoUnit => None
  }

  /** How the speech service reads a `rate` attribute: a keyword, a number
      with `%`, or a bare number, which multiplies the normal rate. */
  function ServiceRate(nx: Numerics, s: string): Option<Kind> {
    if s in RateKeywords then Some(Preset)
    else if UnitOf(s) == PercentUnit && IsFloat(nx, Magnitude(s)) then Some(Percentage)
    else if IsFloat(nx, s) then Some(Multiplier)
    else None
  }

  lemma EndsWithTwo(s: string, a: char, b: char)
    ensures EndsWith(s, [a, b]) <==> |s| >= 2 && s[|s| - 2] == a && s[|s| - 1] == b
  {
    if |s| >= 2 {
      assert s[|s| - 2..] == [s[|s| - 2], s[|s| - 1]];
    }
  }

  lemma EndsWithOne(s: string, a: char)
    ensures EndsWith(s, [a]) <==> |s| >= 1 && s[|s| - 1] == a
  {
    if |s| >= 1 {
      assert s[|s| - 1..] == [s[|s| - 1]];
    }
  }

  /** Reading the unit off the last characters agrees with the suffix tests
      of the validators. */
  lemma UnitMatchesSuffix(s: string)
    ensures UnitOf(s) == HzUnit <==> EndsWith(s, "Hz")
    ensures UnitOf(s) == PercentUnit <==> EndsWith(s, "%")
    ensures UnitOf(s) == StUnit <==> EndsWith(s, "st")
    ensures Magnitude(s) == DropLast(s, UnitLength(UnitOf(s)))
  {
    EndsWithTwo(s, 'H', 'z');
    EndsWithOne(s, '%');
    EndsWithTwo(s, 's', 't');
    assert "Hz" == ['H', 'z'] && "%" == ['%'] && "st" == ['s', 't'];
  }

  /** The preset words the validators accept are the keywords of SSML. */
  lemma PresetsAreKeywords(s: string)
    ensures s in PitchPresets <==> s in PitchKeywords
    ensures s in RatePresets <==> s in RateKeywords
  {
  }

  /** The pitch forms the validator passes through unchanged are exactly
      those the service understands, each in the sense its form suggests. */
  lemma VerbatimPitchIsServicePitch(nx: Numerics, s: string)
    ensures VerbatimPitch(nx, s) <==> ServicePitch(nx, s).Some?
    ensures s in PitchPresets ==> ServicePitch(nx, s) == Some(Preset)
    ensures FloatWithSuffix(nx, s, "Hz") ==> ServicePitch(nx, s) == Some(Hertz)
    ensures FloatWithSuffix(nx, s, "%") ==> ServicePitch(nx, s) == Some(Percentage)
    ensures SignedSemitones(nx, s) ==> ServicePitch(nx, s) == Some(Semitones)
  {
    PresetsAreKeywords(s);
    if s in PitchKeywords {
      KeywordsCarryNoUnit(s);
      UnitMatchesSuffix(s);
    } else {
      UnitFormsAgree(nx, s);
    }
  }

  /** No pitch keyword ends in a unit. */
  lemma KeywordsCarryNoUnit(s: string)
    requires s in PitchKeywords
    ensures !EndsWith(s, "Hz") && !EndsWith(s, "%") && !EndsWith(s, "st")
  {
    if EndsWith(s, "Hz") { EndsWithLastChar(s, "Hz"); }
    if EndsWith(s, "%") { EndsWithLastChar(s, "%"); }
    if EndsWith(s, "st") { EndsWithLastChar(s, "st"); }
  }

  /** Off the keywords, the unit forms of the validator and of the service coincide. */
  lemma UnitFormsAgree(nx: Numerics, s: string)
    requires s !in PitchKeywords && s !in PitchPresets
    ensures VerbatimPitch(nx, s) <==> ServicePitch(nx, s).Some?
    ensures FloatWithSuffix(nx, s, "Hz") ==> ServicePitch(nx, s) == Some(Hertz)
    ensures FloatWithSuffix(nx, s, "%") ==> ServicePitch(nx, s) == Some(Percentage)
    ensures SignedSemitones(nx, s) ==> ServicePitch(nx, s) == Some(Semitones)
  {
    UnitMatchesSuffix(s);
    match UnitOf(s)
    case HzUnit =>
      assert !EndsWith(s, "%") && !EndsWith(s, "st");
    case PercentUnit =>
      assert !EndsWith(s, "Hz") && !EndsWith(s, "st");
    case StUnit =>
      assert !EndsWith(s, "Hz") && !EndsWith(s, "%");
      assert s[..1] == [s[0]];
      assert StartsWith(s, "+") <==> s[0] == '+';
      assert StartsWith(s, "-") <==> s[0] == '-';
    case NoUnit =>
      assert !EndsWith(s, "Hz") && !EndsWith(s, "%") && !EndsWith(s, "st");
  }

  /** What `--pitch` promises: every form the service knows, and a bare
      float as a percentage. */
  function PromisedPitch(nx: Numerics, s: string): Option<Kind> {
    if ServicePitch(nx, s).Some? then ServicePitch(nx, s)
    else if IsFloat(nx, s) then Some(Percentage)
    else None
  }

  /** What `--rate` promises: percentages and presets, a float with `f` as
      a raw multiplier, and a bare float as a percentage. */
  function PromisedRate(nx: Numerics, s: string): Option<Kind> {
    if s in RatePresets then Some(Preset)
    else if FloatWithSuffix(nx, s, "%") then Some(Percentage)
    else if FloatWithSuffix(nx, s, "f") then Some(Multiplier)
    else if IsFloat(nx, s) then Some(Percentage)
    else None
  }

  /** Three facts of Rust's float syntax the corrected validators rely on:
      what `{:.2}` renders reads back as a float, no float ends in `%`,
      and no rate preset is a float. */
  ghost predicate PlainFloats(nx: Numerics) {
    && (forall v: F32 :: IsFloat(nx, nx.fixed2(v)))
    && (forall s: string :: IsFloat(nx, s) ==> !EndsWith(s, "%"))
    && !IsFloat(nx, "default") && !IsFloat(nx, "x-slow") && !IsFloat(nx, "slow")
    && !IsFloat(nx, "medium") && !IsFloat(nx, "fast") && !IsFloat(nx, "x-fast")
  }

  /** A rendered number followed by `%` is read as a percentage by both attributes. */
  lemma RenderedPercentage(nx: Numerics, v: F32)
    requires IsFloat(nx, nx.fixed2(v))
    ensures ServicePitch(nx, nx.fixed2(v) + "%") == Some(Percentage)
    ensures ServiceRate(nx, nx.fixed2(v) + "%") == Some(Percentage)
  {
    var s := nx.fixed2(v) + "%";
    EndsWithAppend(nx.fixed2(v), "%");
    UnitMatchesSuffix(s);
    EndsWithLastChar(s, "%");
    if EndsWith(s, "Hz") {
      EndsWithLastChar(s, "Hz");
    }
    KeywordsCarryNoPercent(s);
  }

  /** No keyword ends in `%`. */
  lemma KeywordsCarryNoPercent(s: string)
    requires EndsWith(s, "%")
    ensures s !in PitchKeywords && s !in RateKeywords
  {
    EndsWithLastChar(s, "%");
  }

  /** With `%` appended, every pitch `--pitch` accepts reaches the service
      with the kind its help text promises, and exactly the strings it
      promises nothing for are rejected. */
  lemma PitchPercentKeepsKind(nx: Numerics, arg: string)
    requires forall v: F32 :: IsFloat(nx, nx.fixed2(v))
    ensures ParsePitchPercent(nx, arg).Err? <==> PromisedPitch(nx, arg).None?
    ensures ParsePitchPercent(nx, arg).Ok? ==>
              ServicePitch(nx, ParsePitchPercent(nx, arg).value) == PromisedPitch(nx, arg)
  {
    VerbatimPitchIsServicePitch(nx, arg);
    if !VerbatimPitch(nx, arg) && IsFloat(nx, arg) {
      RenderedPercentage(nx, nx.parse(arg).value);
    }
  }

  /** With `%` appended, every rate `--rate` accepts reaches the service
      with the kind its help text promises. */
  lemma RatePercentKeepsKind(nx: Numerics, arg: string)
    requires PlainFloats(nx)
    ensures ParseRatePercent(nx, arg).Err? <==> PromisedRate(nx, arg).None?
    ensures ParseRatePercent(nx, arg).Ok? ==>
              ServiceRate(nx, ParseRatePercent(nx, arg).value) == PromisedRate(nx, arg)
  {
    PresetsAreKeywords(arg);
    if VerbatimRate(nx, arg) {
      if FloatWithSuffix(nx, arg, "%") {
        EndsWithLastChar(arg, "%");
        KeywordsCarryNoPercent(arg);
        UnitMatchesSuffix(arg);
      }
    } else if FloatWithSuffix(nx, arg, "f") {
      var x := DropLast(arg, 1);
      EndsWithLastChar(arg, "f");
      assert arg !in RatePresets;
      assert !EndsWith(x, "%");
      UnitMatchesSuffix(x);
      assert x !in RateKeywords;
      assert ServiceRate(nx, x) == Some(Multiplier);
    } else if IsFloat(nx, arg) {
      RenderedPercentage(nx, nx.parse(arg).value);
    }
  }

  /** A string that ends in a digit carries no unit and is no preset. */
  lemma EndsInDigit(s: string)
    requires |s| > 0 && '0' <= s[|s| - 1] <= '9'
    ensures !EndsWith(s, "Hz") && !EndsWith(s, "%") && !EndsWith(s, "st") && !EndsWith(s, "f")
    ensures s !in PitchPresets && s !in RatePresets
  {
    if EndsWith(s, "Hz") { EndsWithLastChar(s, "Hz"); }
    if EndsWith(s, "%") { EndsWithLastChar(s, "%"); }
    if EndsWith(s, "st") { EndsWithLastChar(s, "st"); }
    if EndsWith(s, "f") { EndsWithLastChar(s, "f"); }
  }

  /** As written, `--pitch 0.5` reaches the service as `50.00`, which is
      no pitch at all, although the help text promises +50%. */
  lemma BareFloatPitchLosesPercent(nx: Numerics)
    requires nx.parse("0.5") == Some(Finite(0.5)) && nx.fixed2(Finite(0.5)) == "50.00"
    ensures PromisedPitch(nx, "0.5") == Some(Percentage)
    ensures ParsePitch(nx, "0.5") == Ok("50.00")
    ensures ServicePitch(nx, "50.00") == None
  {
    EndsInDigit("0.5");
    EndsInDigit("50.00");
    UnitMatchesSuffix("50.00");
    assert "50.00" + "" == "50.00";
  }

  /** As written, `--rate 0.5` reaches the service as `50.00`, which it
      reads as fifty times the normal rate, although the help text
      promises +50%. */
  lemma BareFloatRateBecomesMultiplier(nx: Numerics)
    requires nx.parse("0.5") == Some(Finite(0.5)) && nx.fixed2(Finite(0.5)) == "50.00"
    requires nx.parse("50.00") == Some(Finite(50.0))
    ensures PromisedRate(nx, "0.5") == Some(Percentage)
    ensures ParseRate(nx, "0.5") == Ok("50.00")
    ensures ServiceRate(nx, "50.00") == Some(Multiplier)
  {
    EndsInDigit("0.5");
    EndsInDigit("50.00");
    UnitMatchesSuffix("50.00");
    assert "50.00" + "" == "50.00";
  }
}
