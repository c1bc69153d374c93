/** The output format (src/cli/args.rs:15-24, 143-215): an explicit
    `--format`, an explicit `--container-format` with `--quality`, or
    what the profile's `output` section says, looked up in the library's
    quality table, and the library's default format otherwise. */
module Output {
  import opened Wrappers

  /** `ContainerFormat`; `Wav` is its `#[default]`. */
  datatype ContainerFormat = Mp3 | Ogg | Webm | Wav

  const DefaultContainer: ContainerFormat := Wav

  /** The kebab-case name (`AsRefStr`) under which the quality table files a container. */
  function ContainerName(c: ContainerFormat): (name: string)
    ensures c == Mp3 ==> name == "mp3"
    ensures c == Ogg ==> name == "ogg"
    ensures c == Webm ==> name == "webm"
    ensures c == Wav ==> name == "wav"
  {
    match c
    case Mp3 => "mp3"
    case Ogg => "ogg"
    case Webm => "webm"
    case Wav => "wav"
  }

  /** The container a name denotes, as the argument parser and the profile
      reader (`ValueEnum`, `Deserialize` with kebab-case) read it. */
  function ContainerFromName(name: string): (r: Option<ContainerFormat>)
    ensures r.Some? ==> ContainerName(r.value) == name
  {
    if name == "mp3" then Some(Mp3)
    else if name == "ogg" then Some(Ogg)
    else if name == "webm" then Some(Webm)
    else if name == "wav" then Some(Wav)
    else None
  }

  lemma ContainerNameRoundTrip(c: ContainerFormat)
    ensures ContainerFromName(ContainerName(c)) == Some(c)
  {
  }

  /** Distinct containers are filed under distinct names. */
  lemma ContainerNameInjective(a: ContainerFormat, b: ContainerFormat)
    ensures ContainerName(a) == ContainerName(b) <==> a == b
  {
    ContainerNameRoundTrip(a);
    ContainerNameRoundTrip(b);
  }

  /** An audio format of the library, identified by its name; the set of
      formats is not part of this model. */
  datatype AudioFormat = AudioFormat(name: string)

  /** The library's `QUALITY_MAP` (container name to quality level to
      format) and `AudioFormat::default()`. */
  datatype OutputEnv = OutputEnv(qualityMap: map<string, map<int, AudioFormat>>, defaultFormat: AudioFormat)

  /** The table files every container: the `.unwrap()` after the container
      lookup (args.rs:184, 201) never fails. */
  predicate CoversContainers(env: OutputEnv) {
    forall c: ContainerFormat :: ContainerName(c) in env.qualityMap
  }

  /** `q as i8` on an `i32`: two's-complement wrap-around to [-128, 127]. */
  function AsI8(q: int): (r: int)
    ensures -128 <= r <= 127
    ensures (r - q) % 256 == 0
  {
    (q + 128) % 256 - 128
  }

  lemma AsI8InRange(q: int)
    ensures AsI8(q) == q <==> -128 <= q <= 127
  {
  }

  lemma AsI8Periodic(q: int)
    ensures AsI8(q + 256) == AsI8(q)
  {
  }

  /** `--quality`, `--container-format` and `--format`. */
  datatype OutputArgs = OutputArgs(quality: Option<int>, container: Option<ContainerFormat>, format: Option<AudioFormat>)

  /** The profile's `output` section. */
  datatype OutputFormatConfig =
    | FormatConfig(format: AudioFormat)
    | ContainerAndQuality(container: Option<ContainerFormat>, quality: Option<int>)

  /** A quality level the table does not file for the container (the
      container is absent when the profile named none), and a quality
      given without a container, where the source stops at a `todo!()`. */
  datatype OutputError =
    | InvalidQuality(container: Option<ContainerFormat>, quality: Option<int>)
    | QualityWithoutContainer(level: int)

  /** The table entry for `container` at quality `quality`, the quality
      defaulting to 0 and wrapped to `i8`; `reported` is the container
      the error names. */
  function Lookup(env: OutputEnv, container: ContainerFormat, quality: Option<int>, reported: Option<ContainerFormat>): (r: Result<AudioFormat, OutputError>)
    requires CoversContainers(env)
    ensures r.Ok? <==> AsI8(quality.GetOr(0)) in env.qualityMap[ContainerName(container)]
    ensures r.Ok? ==> r.value == env.qualityMap[ContainerName(container)][AsI8(quality.GetOr(0))]
    ensures r.Err? ==> r.error == InvalidQuality(reported, quality)
  {
    var levels := env.qualityMap[ContainerName(container)];
    var level := AsI8(quality.GetOr(0));
    if level in levels then Ok(levels[level]) else Err(InvalidQuality(reported, quality))
  }

  /** `OutputArgs::get_audio_format` (args.rs:174-215). */
  function GetAudioFormat(env: OutputEnv, args: OutputArgs, config: Option<OutputFormatConfig>): (r: Result<AudioFormat, OutputError>)
    requires CoversContainers(env)
    ensures args.format.Some? ==> r == Ok(args.format.value)
    ensures args.format.None? && args.container.Some? ==>
              r == Lookup(env, args.container.value, args.quality, args.container)
    ensures args.format.None? && args.container.None? && args.quality.Some? ==>
              r == Err(QualityWithoutContainer(args.quality.value))
    ensures r.Err? ==> args.format.None?
    ensures args == OutputArgs(None, None, None) && config.None? ==> r == Ok(env.defaultFormat)
    ensures args == OutputArgs(None, None, None) && config.Some? && config.value.FormatConfig? ==>
              r == Ok(config.value.format)
    ensures args == OutputArgs(None, None, None) && config.Some? && config.value.ContainerAndQuality? ==>
              r == Lookup(env, config.value.container.GetOr(DefaultContainer), config.value.quality, config.value.container)
  {
    if args.format.Some? then Ok(args.format.value)
    else if args.container.Some? then Lookup(env, args.container.value, args.quality, args.container)
    else if args.quality.Some? then Err(QualityWithoutContainer(args.quality.value))
    else
      match config
      case Some(FormatConfig(format)) => Ok(format)
      case Some(ContainerAndQuality(container, quality)) =>
        Lookup(env, container.GetOr(DefaultContainer), quality, container)
      case None => Ok(env.defaultFormat)
  }

  /** An explicit format or container makes the profile irrelevant. */
  lemma ExplicitBeatsProfile(env: OutputEnv, args: OutputArgs, c1: Option<OutputFormatConfig>, c2: Option<OutputFormatConfig>)
    requires CoversContainers(env)
    requires args.format.Some? || args.container.Some? || args.quality.Some?
    ensures GetAudioFormat(env, args, c1) == GetAudioFormat(env, args, c2)
  {
  }

  /** A format named in the profile acts as if given with `--format`. */
  lemma ProfileFormatActsAsExplicit(env: OutputEnv, format: AudioFormat)
    requires CoversContainers(env)
    ensures GetAudioFormat(env, OutputArgs(None, None, None), Some(FormatConfig(format)))
         == GetAudioFormat(env, OutputArgs(None, None, Some(format)), None)
  {
  }

  /** A container and quality named in the profile act as if given on the
      command line, errors included. */
  lemma ProfileContainerActsAsExplicit(env: OutputEnv, c: ContainerFormat, q: Option<int>)
    requires CoversContainers(env)
    ensures GetAudioFormat(env, OutputArgs(None, None, None), Some(ContainerAndQuality(Some(c), q)))
         == GetAudioFormat(env, OutputArgs(q, Some(c), None), None)
  {
  }

  /** A profile without a container means the default container, `Wav`;
      only the error differs, as it names no container. */
  lemma ProfileContainerDefaultsToWav(env: OutputEnv, q: Option<int>)
    requires CoversContainers(env)
    ensures var absent := GetAudioFormat(env, OutputArgs(None, None, None), Some(ContainerAndQuality(None, q)));
            var wav := GetAudioFormat(env, OutputArgs(q, Some(Wav), None), None);
            && (absent.Ok? <==> wav.Ok?)
            && (absent.Ok? ==> absent == wav)
            && (absent.Err? ==> absent.error == InvalidQuality(None, q))
  {
  }

  /** A missing quality means level 0. */
  lemma QualityDefaultsToZero(env: OutputEnv, c: ContainerFormat)
    requires CoversContainers(env)
    ensures var absent := GetAudioFormat(env, OutputArgs(None, Some(c), None), None);
            var zero := GetAudioFormat(env, OutputArgs(Some(0), Some(c), None), None);
            && (absent.Ok? <==> zero.Ok?)
            && (absent.Ok? ==> absent.value == zero.value)
            && (absent.Err? ==> absent.error == InvalidQuality(Some(c), None))
  {
  }

  /** A lookup that succeeds returns the table's entry for the container:
      never a default standing in for a missing level. */
  lemma ExplicitLookupComesFromTable(env: OutputEnv, c: ContainerFormat, q: Option<int>)
    requires CoversContainers(env)
    requires GetAudioFormat(env, OutputArgs(q, Some(c), None), None).Ok?
    ensures GetAudioFormat(env, OutputArgs(q, Some(c), None), None).value
              in env.qualityMap[ContainerName(c)].Values
  {
  }

  // ---------------------------------------------------------------------
  // The quality level wraps around before the lookup

  /** As written, quality 256 is read as level 0: a request for a level
      the table does not have succeeds with another level's format. */
  lemma QualityWrapAliases(env: OutputEnv, c: ContainerFormat)
    requires CoversContainers(env)
    requires 0 in env.qualityMap[ContainerName(c)] && 256 !in env.qualityMap[ContainerName(c)]
    ensures GetAudioFormat(env, OutputArgs(Some(256), Some(c), None), None)
         == Ok(env.qualityMap[ContainerName(c)][0])
  {
    assert AsI8(256) == 0;
  }

  /** The lookup with the level taken as given: a level outside the `i8`
      range is reported as invalid instead of being wrapped. */
  function LookupChecked(env: OutputEnv, container: ContainerFormat, quality: Option<int>, reported: Option<ContainerFormat>): (r: Result<AudioFormat, OutputError>)
    requires CoversContainers(env)
    ensures r.Ok? <==> quality.GetOr(0) in env.qualityMap[ContainerName(container)] && -128 <= quality.GetOr(0) <= 127
    ensures r.Ok? ==> r.value == env.qualityMap[ContainerName(container)][quality.GetOr(0)]
    ensures r.Err? ==> r.error == InvalidQuality(reported, quality)
  {
    var level := quality.GetOr(0);
    if -128 <= level <= 127 then
      AsI8InRange(level);
      Lookup(env, container, quality, reported)
    else Err(InvalidQuality(reported, quality))
  }

  /** `get_audio_format` without the wrap-around. */
  function GetAudioFormatChecked(env: OutputEnv, args: OutputArgs, config: Option<OutputFormatConfig>): (r: Result<AudioFormat, OutputError>)
    requires CoversContainers(env)
    ensures args.format.Some? ==> r == Ok(args.format.value)
    ensures args.format.None? && args.container.Some? ==>
              r == LookupChecked(env, args.container.value, args.quality, args.container)
    ensures args.format.None? && args.container.None? && args.quality.Some? ==>
              r == Err(QualityWithoutContainer(args.quality.value))
    ensures r.Err? ==> args.format.None?
    ensures args == OutputArgs(None, None, None) && config.None? ==> r == Ok(env.defaultFormat)
    ensures args == OutputArgs(None, None, None) && config.Some? && config.value.FormatConfig? ==>
              r == Ok(config.value.format)
    ensures args == OutputArgs(None, None, None) && config.Some? && config.value.ContainerAndQuality? ==>
              r == LookupChecked(env, config.value.container.GetOr(DefaultContainer), config.value.quality, config.value.container)
  {
    if args.format.Some? then Ok(args.format.value)
    else if args.container.Some? then LookupChecked(env, args.container.value, args.quality, args.container)
    else if args.quality.Some? then Err(QualityWithoutContainer(args.quality.value))
    else
      match config
      case Some(FormatConfig(format)) => Ok(format)
      case Some(ContainerAndQuality(container, quality)) =>
        LookupChecked(env, container.GetOr(DefaultContainer), quality, container)
      case None => Ok(env.defaultFormat)
  }

  /** Without the wrap-around, a quality level is found only under its own
      number, so the aliasing request above fails, on the command line and
      in the profile alike. */
  lemma CheckedQualityNoAlias(env: OutputEnv, c: ContainerFormat, q: int)
    requires CoversContainers(env)
    ensures GetAudioFormatChecked(env, OutputArgs(Some(q), Some(c), None), None).Ok? ==>
              q in env.qualityMap[ContainerName(c)]
    ensures GetAudioFormatChecked(env, OutputArgs(None, None, None), Some(ContainerAndQuality(Some(c), Some(q)))).Ok? ==>
              q in env.qualityMap[ContainerName(c)]
    ensures 256 !in env.qualityMap[ContainerName(c)] ==>
              && GetAudioFormatChecked(env, OutputArgs(Some(256), Some(c), None), None).Err?
              && GetAudioFormatChecked(env, OutputArgs(None, None, None), Some(ContainerAndQuality(Some(c), Some(256)))).Err?
  {
  }

  /** As written, the same aliasing reaches the profile: a profile asking
      for quality 256 gets level 0's format. */
  lemma ProfileQualityWrapAliases(env: OutputEnv, c: ContainerFormat)
    requires CoversContainers(env)
    requires 0 in env.qualityMap[ContainerName(c)] && 256 !in env.qualityMap[ContainerName(c)]
    ensures GetAudioFormat(env, OutputArgs(None, None, None), Some(ContainerAndQuality(Some(c), Some(256))))
         == Ok(env.qualityMap[ContainerName(c)][0])
  {
    assert AsI8(256) == 0;
  }

  /** For every level in the `i8` range the two lookups agree. */
  lemma CheckedAgreesInRange(env: OutputEnv, args: OutputArgs, config: Option<OutputFormatConfig>)
    requires CoversContainers(env)
    requires args.quality.Some? ==> -128 <= args.quality.value <= 127
    requires config.Some? && config.value.ContainerAndQuality? && config.value.quality.Some? ==>
               -128 <= config.value.quality.value <= 127
    ensures GetAudioFormatChecked(env, args, config) == GetAudioFormat(env, args, config)
  {
    AsI8InRange(args.quality.GetOr(0));
    if config.Some? && config.value.ContainerAndQuality? {
      AsI8InRange(config.value.quality.GetOr(0));
    }
  }
}
