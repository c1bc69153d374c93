/** The argument validators of the command-line front end (src/cli/args.rs):
    `parse_pitch`, `parse_rate`, `parse_style_degree` with
    `validate_style_degree`, and `parse_header`.

    Float numerics are left abstract. A `Numerics` value supplies Rust's
    `str::parse::<f32>` and the `{:.2}` rendering of `v * 100f32`; every
    validator takes one, and every property below holds whichever is
    supplied, unless a `requires` says which facts about it are used. */
module Grammar {
  import opened Wrappers
  import opened Text

  /** An f32 value: a finite value other than negative zero (held exactly,
      as a real; `Finite(0.0)` is positive zero), negative zero (`-0`,
      which `{:.2}` renders with its sign), an infinity (`inf`, or a
      literal too large such as `1e39`) or not-a-number. */
  datatype F32 = Finite(value: real) | NegZero | PosInf | NegInf | NaN

  /** `parse(s)` is `None` when `s.parse::<f32>()` fails and otherwise the
      parsed f32 value; `fixed2(v)` is the text that
      `format!("{:.2}", v * 100f32)` produces. */
  datatype Numerics = Numerics(parse: string -> Option<F32>, fixed2: F32 -> string)

  /** `is_float` (args.rs:290-292). */
  predicate IsFloat(nx: Numerics, s: string) {
    nx.parse(s).Some?
  }

  /** `s` is a float followed by `suffix`. */
  predicate FloatWithSuffix(nx: Numerics, s: string, suffix: string) {
    EndsWith(s, suffix) && IsFloat(nx, DropLast(s, |suffix|))
  }

  const PitchPresets: seq<string> := ["default", "x-low", "low", "medium", "high", "x-high"]
  const RatePresets: seq<string> := ["default", "x-slow", "slow", "medium", "fast", "x-fast"]

  /** A rejected pitch, a rejected rate, a style degree that is no float,
      and a style degree outside its range, which the error reports. */
  datatype GrammarError =
    | InvalidPitch
    | InvalidRate
    | NotAFloat
    | OutOfRange(value: F32)

  /** A semitone value: a sign, a float and `st`. The float test covers the
      sign too, since the source tests `arg` minus its last two characters. */
  predicate SignedSemitones(nx: Numerics, s: string) {
    EndsWith(s, "st") && (StartsWith(s, "+") || StartsWith(s, "-")) && IsFloat(nx, DropLast(s, 2))
  }

  /** The pitch forms passed through unchanged (args.rs:295-302). */
  predicate VerbatimPitch(nx: Numerics, s: string) {
    || FloatWithSuffix(nx, s, "Hz")
    || FloatWithSuffix(nx, s, "%")
    || SignedSemitones(nx, s)
    || s in PitchPresets
  }

  /** The rate forms passed through unchanged (args.rs:314-317). */
  predicate VerbatimRate(nx: Numerics, s: string) {
    FloatWithSuffix(nx, s, "%") || s in RatePresets
  }

  /** The branch structure of `parse_pitch`; `percentSign` is what follows
      the rendered number in the bare-float branch. */
  function PitchGrammar(nx: Numerics, arg: string, percentSign: string): Result<string, GrammarError> {
    if VerbatimPitch(nx, arg) then Ok(arg)
    else if IsFloat(nx, arg) then Ok(nx.fixed2(nx.parse(arg).value) + percentSign)
    else Err(InvalidPitch)
  }

  /** The branch structure of `parse_rate`. */
  function RateGrammar(nx: Numerics, arg: string, percentSign: string): Result<string, GrammarError> {
    if VerbatimRate(nx, arg) then Ok(arg)
    else if FloatWithSuffix(nx, arg, "f") then Ok(DropLast(arg, 1))
    else if IsFloat(nx, arg) then Ok(nx.fixed2(nx.parse(arg).value) + percentSign)
    else Err(InvalidRate)
  }

  /** `parse_pitch` as written (args.rs:294-311): a bare float comes out as
      `{:.2}` of a hundred times it, with no `%`. */
  function ParsePitch(nx: Numerics, arg: string): (r: Result<string, GrammarError>)
    ensures VerbatimPitch(nx, arg) ==> r == Ok(arg)
    ensures r.Ok? <==> VerbatimPitch(nx, arg) || IsFloat(nx, arg)
    ensures r.Err? ==> r.error == InvalidPitch
    ensures r.Ok? && !VerbatimPitch(nx, arg) ==> r.value == nx.fixed2(nx.parse(arg).value)
  {
    if IsFloat(nx, arg) then
      assert nx.fixed2(nx.parse(arg).value) + "" == nx.fixed2(nx.parse(arg).value);
      PitchGrammar(nx, arg, "")
    else PitchGrammar(nx, arg, "")
  }

  /** `parse_rate` as written (args.rs:313-329). */
  function ParseRate(nx: Numerics, arg: string): (r: Result<string, GrammarError>)
    ensures VerbatimRate(nx, arg) ==> r == Ok(arg)
    ensures r.Ok? <==> VerbatimRate(nx, arg) || FloatWithSuffix(nx, arg, "f") || IsFloat(nx, arg)
    ensures r.Err? ==> r.error == InvalidRate
    ensures !VerbatimRate(nx, arg) && FloatWithSuffix(nx, arg, "f") ==> r == Ok(DropLast(arg, 1))
    ensures !VerbatimRate(nx, arg) && !FloatWithSuffix(nx, arg, "f") && IsFloat(nx, arg) ==>
              r == Ok(nx.fixed2(nx.parse(arg).value))
  {
    if IsFloat(nx, arg) then
      assert nx.fixed2(nx.parse(arg).value) + "" == nx.fixed2(nx.parse(arg).value);
      RateGrammar(nx, arg, "")
    else RateGrammar(nx, arg, "")
  }

  /** `parse_pitch` with the bare-float branch rendering a percentage (`50.00%`). */
  function ParsePitchPercent(nx: Numerics, arg: string): (r: Result<string, GrammarError>)
    ensures r.Ok? <==> ParsePitch(nx, arg).Ok?
    ensures VerbatimPitch(nx, arg) ==> r == Ok(arg)
    ensures r.Ok? && !VerbatimPitch(nx, arg) ==>
              EndsWith(r.value, "%") && DropLast(r.value, 1) == nx.fixed2(nx.parse(arg).value)
  {
    if IsFloat(nx, arg) then
      EndsWithAppend(nx.fixed2(nx.parse(arg).value), "%");
      PitchGrammar(nx, arg, "%")
    else PitchGrammar(nx, arg, "%")
  }

  /** `parse_rate` with the bare-float branch rendering a percentage. */
  function ParseRatePercent(nx: Numerics, arg: string): (r: Result<string, GrammarError>)
    ensures r.Ok? <==> ParseRate(nx, arg).Ok?
    ensures VerbatimRate(nx, arg) ==> r == Ok(arg)
    ensures !VerbatimRate(nx, arg) && FloatWithSuffix(nx, arg, "f") ==> r == Ok(DropLast(arg, 1))
    ensures r.Ok? && !VerbatimRate(nx, arg) && !FloatWithSuffix(nx, arg, "f") ==>
              EndsWith(r.value, "%") && DropLast(r.value, 1) == nx.fixed2(nx.parse(arg).value)
  {
    if IsFloat(nx, arg) then
      EndsWithAppend(nx.fixed2(nx.parse(arg).value), "%");
      RateGrammar(nx, arg, "%")
    else RateGrammar(nx, arg, "%")
  }

  /** `0.01f32`, the f32 nearest to 0.01, exactly: 10737418 / 2^30. */
  const MinStyleDegree: real := 10737418.0 / 1073741824.0
  const MaxStyleDegree: real := 2.0

  /** `validate_style_degree` (args.rs:343-345), on f32 values: both
      comparisons are false for not-a-number, and negative zero and the
      infinities lie outside the range. */
  function ValidateStyleDegree(degree: F32): (ok: bool)
    ensures ok <==> degree.Finite? && MinStyleDegree <= degree.value <= MaxStyleDegree
    ensures ok ==> 0.0099 < degree.value && degree.value <= 2.0
  {
    match degree
    case Finite(v) => MinStyleDegree <= v && v <= MaxStyleDegree
    case NegZero => false
    case PosInf => false
    case NegInf => false
    case NaN => false
  }

  /** `parse_style_degree` (args.rs:331-341). */
  function ParseStyleDegree(nx: Numerics, arg: string): (r: Result<real, GrammarError>)
    ensures r.Ok? <==> IsFloat(nx, arg) && ValidateStyleDegree(nx.parse(arg).value)
    ensures r.Ok? ==> nx.parse(arg) == Some(Finite(r.value)) && MinStyleDegree <= r.value <= MaxStyleDegree
    ensures !IsFloat(nx, arg) ==> r == Err(NotAFloat)
    ensures IsFloat(nx, arg) && r.Err? ==> r == Err(OutOfRange(nx.parse(arg).value))
  {
    match nx.parse(arg)
    case None => Err(NotAFloat)
    case Some(v) => if ValidateStyleDegree(v) then Ok(v.value) else Err(OutOfRange(v))
  }

  // ---------------------------------------------------------------------
  // Request headers

  /** The header validation of the HTTP library, left abstract: `name(k)`
      is `HeaderName::from_bytes(k)`, `None` when `k` is not a valid header
      name and otherwise the name as the library stores it (lower case);
      `valueStr(v)` and `valueBytes(v)` say whether `HeaderValue::from_str`
      and `HeaderValue::from_bytes` accept `v`. */
  datatype HeaderRules = HeaderRules(
    name: string -> Option<string>,
    valueStr: string -> bool,
    valueBytes: string -> bool)

  datatype Header = Header(name: string, value: string)

  /** A header argument without `=` (reported whole), or one whose name
      or value the HTTP library rejects. */
  datatype HeaderError =
    | NoSeparator(arg: string)
    | InvalidName(name: string)
    | InvalidValue(value: string)

  /** `s` cut at its first `=`: the part before it and the part after it. */
  function SplitAtFirstEquals(s: string): (r: Option<(string, string)>)
    ensures r.None? <==> '=' !in s
    ensures r.Some? ==> s == r.value.0 + "=" + r.value.1 && '=' !in r.value.0
  {
    match Find(s, '=')
    case None => None
    case Some(pos) =>
      assert s == s[..pos] + "=" + s[pos + 1..];
      Some((s[..pos], s[pos + 1..]))
  }

  /** `parse_header` (args.rs:277-288). */
  function ParseHeader(rules: HeaderRules, s: string): (r: Result<Header, HeaderError>)
    ensures '=' !in s <==> r == Err(NoSeparator(s))
    ensures r.Ok? ==> exists k, v :: s == k + "=" + v && '=' !in k
                        && rules.name(k) == Some(r.value.name) && rules.valueStr(v) && r.value.value == v
  {
    match SplitAtFirstEquals(s)
    case None => Err(NoSeparator(s))
    case Some((k, v)) =>
      match rules.name(k)
      case None => Err(InvalidName(k))
      case Some(name) => if rules.valueStr(v) then Ok(Header(name, v)) else Err(InvalidValue(v))
  }
}
