/** Text options (src/cli/args.rs:216-275): the text, the voice and the
    prosody of one synthesis request. The voice is `--voice`, or else the
    default voice of `--locale`, whose own default is `en-US`. */
module TextOptions {
  import opened Wrappers
  import opened Text
  import opened Grammar
  import Voices

  /** A speaking role of the library; the set of roles is not part of this model. */
  datatype Role = Role(name: string)

  /** `TextArgs` once the argument parser has run the value parsers. */
  datatype TextArgs = TextArgs(
    text: Option<string>,
    pitch: Option<string>,
    rate: Option<string>,
    style: Option<string>,
    role: Option<Role>,
    styleDegree: Option<real>,
    voice: Option<string>,
    locale: Option<string>)

  datatype Options = Options(
    text: string,
    voice: string,
    pitch: Option<string>,
    rate: Option<string>,
    style: Option<string>,
    role: Option<Role>,
    styleDegree: Option<real>)

  /** The two `.unwrap()` calls of the conversion, which panic in the source. */
  datatype TextError =
    | NoText                            // args.rs:258
    | NoVoiceForLocale(locale: string)  // args.rs:267

  const DefaultLocale: string := "en-US"

  /** `TryInto<TextOptions> for &TextArgs` (args.rs:253-275). The text is
      unwrapped before the voice is resolved. */
  function ToTextOptions(args: TextArgs): (r: Result<Options, TextError>)
    ensures args.text.None? <==> r == Err(NoText)
    ensures r.Err? <==> (args.text.None? ||
                         (args.voice.None? && !Voices.IsKnownLocale(args.locale.GetOr(DefaultLocale))))
    ensures r.Ok? ==> && r.value.text == args.text.value
                      && r.value.pitch == args.pitch && r.value.rate == args.rate
                      && r.value.style == args.style && r.value.role == args.role
                      && r.value.styleDegree == args.styleDegree
    ensures r.Ok? && args.voice.Some? ==> r.value.voice == args.voice.value
    ensures r.Ok? && args.voice.None? ==>
              && StartsWith(r.value.voice, args.locale.GetOr(DefaultLocale) + "-")
              && EndsWith(r.value.voice, "Neural")
  {
    match args.text
    case None => Err(NoText)
    case Some(text) =>
      var voice := if args.voice.Some? then args.voice
                   else Voices.GetDefaultVoiceByLocale(args.locale.GetOr(DefaultLocale));
      match voice
      case None => Err(NoVoiceForLocale(args.locale.GetOr(DefaultLocale)))
      case Some(v) => Ok(Options(text, v, args.pitch, args.rate, args.style, args.role, args.styleDegree))
  }

  /** Without `--voice`, the voice is the table's default for the locale. */
  lemma VoiceFromTable(args: TextArgs)
    requires args.voice.None? && ToTextOptions(args).Ok?
    ensures Voices.GetDefaultVoiceByLocale(args.locale.GetOr(DefaultLocale)) == Some(ToTextOptions(args).value.voice)
  {
  }

  /** With neither `--voice` nor `--locale`, the voice is `en-US-JennyNeural`. */
  lemma DefaultVoiceIsJenny(text: string)
    ensures ToTextOptions(TextArgs(Some(text), None, None, None, None, None, None, None))
         == Ok(Options(text, "en-US-JennyNeural", None, None, None, None, None))
  {
    Voices.EnUsDefaultVoice();
  }

  /** `--voice` makes `--locale` irrelevant. */
  lemma VoiceBeatsLocale(args: TextArgs, locale: Option<string>)
    requires args.voice.Some?
    ensures ToTextOptions(args) == ToTextOptions(args.(locale := locale))
  {
  }

  // ---------------------------------------------------------------------
  // From the raw command line

  /** The text arguments as typed, before the value parsers run. */
  datatype RawTextArgs = RawTextArgs(
    text: Option<string>,
    pitch: Option<string>,
    rate: Option<string>,
    style: Option<string>,
    role: Option<Role>,
    styleDegree: Option<string>,
    voice: Option<string>,
    locale: Option<string>)

  /** Runs `parse` on an optional argument. */
  function ParseOptional<T>(arg: Option<string>, parse: string -> Result<T, GrammarError>): (r: Result<Option<T>, GrammarError>)
    ensures arg.None? ==> r == Ok(None)
    ensures arg.Some? ==> (r.Ok? <==> parse(arg.value).Ok?)
    ensures arg.Some? && r.Ok? ==> r.value == Some(parse(arg.value).value)
  {
    match arg
    case None => Ok(None)
    case Some(s) =>
      match parse(s)
      case Err(e) => Err(e)
      case Ok(v) => Ok(Some(v))
  }

  /** The value parsers the argument parser runs on `--pitch`, `--rate` and
      `--style-degree` (args.rs:222, 229, 243). The parser runs them in
      command-line order; which of them fails first only decides which
      error is reported, so the model checks them in a fixed order. */
  function ParseTextArgs(nx: Numerics, raw: RawTextArgs): (r: Result<TextArgs, GrammarError>)
    ensures r.Ok? ==> && (raw.pitch.Some? ==> r.value.pitch.Some? && ParsePitch(nx, raw.pitch.value) == Ok(r.value.pitch.value))
                      && (raw.rate.Some? ==> r.value.rate.Some? && ParseRate(nx, raw.rate.value) == Ok(r.value.rate.value))
                      && (raw.styleDegree.Some? ==>
                            r.value.styleDegree.Some? && ParseStyleDegree(nx, raw.styleDegree.value) == Ok(r.value.styleDegree.value))
                      && r.value.text == raw.text && r.value.voice == raw.voice && r.value.locale == raw.locale
                      && r.value.style == raw.style && r.value.role == raw.role
                      && (raw.pitch.None? ==> r.value.pitch.None?) && (raw.rate.None? ==> r.value.rate.None?)
                      && (raw.styleDegree.None? ==> r.value.styleDegree.None?)
    ensures r.Err? <==> || (raw.pitch.Some? && ParsePitch(nx, raw.pitch.value).Err?)
                        || (raw.rate.Some? && ParseRate(nx, raw.rate.value).Err?)
                        || (raw.styleDegree.Some? && ParseStyleDegree(nx, raw.styleDegree.value).Err?)
  {
    match ParseOptional(raw.pitch, s => ParsePitch(nx, s))
    case Err(e) => Err(e)
    case Ok(pitch) =>
      match ParseOptional(raw.rate, s => ParseRate(nx, s))
      case Err(e) => Err(e)
      case Ok(rate) =>
        match ParseOptional(raw.styleDegree, s => ParseStyleDegree(nx, s))
        case Err(e) => Err(e)
        case Ok(degree) =>
          Ok(TextArgs(raw.text, pitch, rate, raw.style, raw.role, degree, raw.voice, raw.locale))
  }

  /** `ParseTextArgs` with the bare-float pitch and rate rendered as
      percentages: it accepts exactly what `ParseTextArgs` accepts and
      differs from it only in the pitch and rate it hands on. */
  function ParseTextArgsPercent(nx: Numerics, raw: RawTextArgs): (r: Result<TextArgs, GrammarError>)
    ensures r.Ok? <==> ParseTextArgs(nx, raw).Ok?
    ensures r.Ok? ==> && (raw.pitch.Some? ==> r.value.pitch.Some? && ParsePitchPercent(nx, raw.pitch.value) == Ok(r.value.pitch.value))
                      && (raw.rate.Some? ==> r.value.rate.Some? && ParseRatePercent(nx, raw.rate.value) == Ok(r.value.rate.value))
                      && r.value.(pitch := None, rate := None) == ParseTextArgs(nx, raw).value.(pitch := None, rate := None)
  {
    match ParseOptional(raw.pitch, s => ParsePitchPercent(nx, s))
    case Err(e) => Err(e)
    case Ok(pitch) =>
      match ParseOptional(raw.rate, s => ParseRatePercent(nx, s))
      case Err(e) => Err(e)
      case Ok(rate) =>
        match ParseOptional(raw.styleDegree, s => ParseStyleDegree(nx, s))
        case Err(e) => Err(e)
        case Ok(degree) =>
          Ok(TextArgs(raw.text, pitch, rate, raw.style, raw.role, degree, raw.voice, raw.locale))
  }

  /** The options for a known locale, whatever the locale. */
  lemma LocaleOptions(args: TextArgs, voice: string)
    requires args.text.Some? && args.voice.None?
    requires Voices.GetDefaultVoiceByLocale(args.locale.GetOr(DefaultLocale)) == Some(voice)
    ensures ToTextOptions(args) == Ok(Options(args.text.value, voice, args.pitch, args.rate,
                                              args.style, args.role, args.styleDegree))
  {
  }

  /** `--pitch -10% --rate 1.5f`: the pitch as typed and the rate without its `f`. */
  lemma GermanScenarioArgs(nx: Numerics, raw: RawTextArgs)
    requires nx.parse("-10") == Some(Finite(-10.0)) && nx.parse("1.5") == Some(Finite(1.5))
    requires raw == RawTextArgs(Some("Hallo"), Some("-10%"), Some("1.5f"), None, None, None, None, Some("de-DE"))
    ensures ParseTextArgs(nx, raw) == Ok(TextArgs(Some("Hallo"), Some("-10%"), Some("1.5"), None, None, None, None, Some("de-DE")))
  {
    assert DropLast("-10%", 1) == "-10";
    assert EndsWith("-10%", "%");
    assert DropLast("1.5f", 1) == "1.5";
    assert EndsWith("1.5f", "f");
    assert !EndsWith("1.5f", "%");
  }

  /** `aspeak text Hallo --locale de-DE --pitch -10% --rate 1.5f`: the
      German default voice, the pitch as typed and the rate without its
      `f`. */
  lemma GermanScenario(nx: Numerics, raw: RawTextArgs)
    requires nx.parse("-10") == Some(Finite(-10.0)) && nx.parse("1.5") == Some(Finite(1.5))
    requires raw == RawTextArgs(Some("Hallo"), Some("-10%"), Some("1.5f"), None, None, None, None, Some("de-DE"))
    ensures ParseTextArgs(nx, raw).Ok?
    ensures ToTextOptions(ParseTextArgs(nx, raw).value)
         == Ok(Options("Hallo", "de-DE-KatjaNeural", Some("-10%"), Some("1.5"), None, None, None))
  {
    GermanScenarioArgs(nx, raw);
    Voices.DeDeDefaultVoice();
    LocaleOptions(ParseTextArgs(nx, raw).value, "de-DE-KatjaNeural");
  }
}
