# aspeak parameter resolution, modelled in Dafny

aspeak is a command-line client for a cloud text-to-speech service. Before
it sends anything, it resolves what the user asked for, from the command
line, the profile and built-in defaults, into one set of request options:

- the endpoint, token, key and extra request headers (`AuthOptions`);
- the output audio format (`get_audio_format`);
- the text, voice and prosody (`TextOptions`).

It also validates pitch, rate, style degree and header arguments on the
way in. This project models that resolution layer of the Rust source,
together with the library's endpoint builders and its locale-to-voice
table, and proves properties of it.

Modules, one file each:

- `Wrappers` (wrappers.dfy): `Option` and `Result`.
- `Text` (text.dfy): prefix, suffix and character search on strings.
- `Endpoints` (endpoints.dfy): `get_websocket_endpoint_by_region` and `get_rest_endpoint_by_region`.
- `VoiceTable` (voice_table.dfy): the 129 entries of `DEFAULT_VOICES`, in source order. Each entry is stored as a locale and a speaker, and its voice is `<locale>-<speaker>Neural`, which is the form of every value in the source table. The module also checks that the keys are strictly ascending and that every key is a lower-case language code, a dash and an upper-case country code.
- `Voices` (voices.dfy): `get_default_voice_by_locale`.
- `Grammar` (grammar.dfy): `parse_pitch`, `parse_rate`, `parse_style_degree`, `validate_style_degree`, `parse_header`.
- `GrammarLaws` (grammar_laws.dfy): laws of those validators.
- `Prosody` (prosody.dfy): what a validated pitch or rate means to the speech service, compared with what the help text promises.
- `Auth` (auth.dfy): `AuthArgs::to_auth_options` and `TryInto<AuthOptions> for &AuthArgs`.
- `Output` (output.dfy): `ContainerFormat` and `OutputArgs::get_audio_format`.
- `TextOptions` (text_options.dfy): `TryInto<TextOptions> for &TextArgs`, and the value parsers wired to its arguments.

Parts of the system that the core only calls are passed in as parameters, so every property holds for every choice of them:

- Float parsing (`str::parse::<f32>`) and the `{:.2}` rendering of `v * 100f32` are the `Grammar.Numerics` parameter. A `requires` names any fact about them that a property uses. A parsed value is a `Grammar.F32`: a finite non-zero value or positive zero, held exactly as a real; negative zero (`-0`), which keeps its sign when rendered (`-0.00`); one of the two infinities; or not-a-number. `parse::<f32>` accepts `-0`, `inf`, `NaN` and literals too large for f32.
- `HeaderName`/`HeaderValue` validation is `Grammar.HeaderRules`.
- `DEFAULT_ENDPOINT` and `get_endpoint_by_region` are `Auth.AuthEnv`.
- `QUALITY_MAP` and `AudioFormat::default()` are `Output.OutputEnv`.

The source panics in five places. The model turns three of them into error values:

- `todo!()` on a quality without a container becomes `QualityWithoutContainer`.
- The `.unwrap()` on a missing text becomes `NoText`.
- The `.unwrap()` on an unknown locale becomes `NoVoiceForLocale`.

The other two are the `.unwrap()` calls after the container lookup in the quality table (args.rs:184 and 201). They cannot fail when the table files every container. The model states this as a `requires` (`Output.CoversContainers`) on every member that looks up a container.

Two behaviours of the code are easy to misread:

- The semitone form of a pitch checks that `arg` without its last two characters is a float. The sign is part of what is checked (`+2st` needs `+2` to be a float), not only the digits between the sign and `st`.
- The quality level is cast `as i8` before the lookup. This wraps around (two's complement) rather than rejecting out-of-range levels.

## Model

| member | source | states |
|---|---|---|
| Endpoints.Surround | src/lib.rs:115-123 | a URL built from a prefix, a region and a suffix starts with the prefix, ends with the suffix, and is exactly as long as the three parts together |
| Endpoints.WebsocketEndpoint | src/lib.rs:115-118 | the websocket endpoint of a region starts with `wss://`, ends with the websocket path, and holds nothing but the region in between |
| Endpoints.RestEndpoint | src/lib.rs:120-123 | the REST endpoint of a region starts with `https://`, ends with the REST path, and holds nothing but the region in between |
| Endpoints.RegionOf | src/lib.rs:115-123 | reading the region out of an endpoint succeeds exactly for strings with the given prefix and suffix |
| Endpoints.SurroundRoundTrip | src/lib.rs:115-123 | the region can be read back from any endpoint built from it |
| Endpoints.RegionOfRoundTrip | src/lib.rs:115-123 | an endpoint from which a region can be read is the endpoint built from that region |
| Endpoints.WebsocketEndpointRoundTrip | src/lib.rs:115-118 | the region is recovered from its websocket endpoint |
| Endpoints.RestEndpointRoundTrip | src/lib.rs:120-123 | the region is recovered from its REST endpoint |
| Endpoints.WebsocketEndpointInjective | src/lib.rs:115-118 | two regions give the same websocket endpoint if and only if they are the same region |
| Endpoints.RestEndpointInjective | src/lib.rs:120-123 | two regions give the same REST endpoint if and only if they are the same region |
| Endpoints.TransportsDiffer | src/lib.rs:115-123 | no websocket endpoint is ever a REST endpoint |
| VoiceTable.Table | src/lib.rs:150-280 | the table has the 129 entries of the source, from `af-ZA` (`Adri`) to `zu-ZA` (`Thando`) |
| VoiceTable.VoiceName | src/lib.rs:150-280 | every default voice starts with its locale and a dash and ends with `Neural` |
| VoiceTable.CheckedAppend | src/lib.rs:150-280 | two key-checked runs of the table joined at an ascending seam form a key-checked run |
| VoiceTable.TableChecked | src/lib.rs:150-280 | the keys of the voice table are strictly ascending, and each is a lower-case language code of two or three letters, a dash and an upper-case two-letter country code |
| Voices.FindEntry | src/lib.rs:146-148 | the lookup finds nothing exactly when no entry has the locale, and otherwise an entry of the table with that locale |
| Voices.GetDefaultVoiceByLocale | src/lib.rs:146-148 | a voice comes back exactly for the locales in the table, and it begins with the locale and ends with `Neural` |
| Voices.KeyLessTransitive | src/lib.rs:150-280 | the key order of the table is transitive |
| Voices.KeyLessIrreflexive | src/lib.rs:150-280 | no key is below itself, so the order is strict |
| Voices.CheckedSorted | src/lib.rs:150-280 | in a key-checked run, any two keys are in strict order and every key is a well-formed locale code (lower-case language, dash, upper-case country) |
| Voices.TableLocales | src/lib.rs:150-280 | no locale occurs twice in the table, so a lookup cannot be ambiguous |
| Voices.LookupMatchesTable | src/lib.rs:146-280 | the lookup returns a voice if and only if some table entry maps the locale to it |
| Voices.MalformedLocaleUnknown | src/lib.rs:139-148 | the lookup is exact and case-sensitive: a string that is not a lower-case language code, a dash and an upper-case country code has no default voice |
| Voices.MiscasedLocalesUnknown | src/lib.rs:139-148 | `en-us`, `en-uS` and `EN-US` have no default voice |
| Voices.EntryLookup | src/lib.rs:146-148 | each entry of the table is what the lookup returns for its locale |
| Voices.EnUsAt39 | src/lib.rs:190 | the table maps `en-US` to the speaker `Jenny` |
| Voices.DeDeAt25 | src/lib.rs:176 | the table maps `de-DE` to the speaker `Katja` |
| Voices.FrFrAt70 | src/lib.rs:221 | the table maps `fr-FR` to the speaker `Denise` |
| Voices.EnUsDefaultVoice | src/lib.rs:190 | the default voice of `en-US` is `en-US-JennyNeural` |
| Voices.DeDeDefaultVoice | src/lib.rs:176 | the default voice of `de-DE` is `de-DE-KatjaNeural` |
| Voices.FrFrDefaultVoice | src/lib.rs:221 | the default voice of `fr-FR` is `fr-FR-DeniseNeural` |
| Grammar.IsFloat | src/cli/args.rs:290-292 | a string is a float exactly when the f32 parse accepts it; this is a definition, with no contract of its own |
| Grammar.ParsePitch | src/cli/args.rs:294-311 | a pitch is accepted exactly when it is a unit form, a preset or a float; unit forms and presets pass unchanged; any other accepted value is a bare float, rendered as `{:.2}` of a hundred times it with no `%`; every rejection is `InvalidPitch` |
| Grammar.ParseRate | src/cli/args.rs:313-329 | a rate is accepted exactly when it is a percentage, a preset, a float with `f`, or a float; percentages and presets pass unchanged; a float with `f` loses the `f`; any other float is rendered as `{:.2}` of a hundred times it with no `%`; every rejection is `InvalidRate` |
| Grammar.ParsePitchPercent | src/cli/args.rs:294-311 | the corrected pitch validator accepts exactly what the original accepts, passes the same forms unchanged, and turns a bare float into the rendered number followed by `%` |
| Grammar.ParseRatePercent | src/cli/args.rs:313-329 | the corrected rate validator accepts exactly what the original accepts, passes the same forms unchanged, drops the `f` of a multiplier, and turns a bare float into the rendered number followed by `%` |
| Grammar.ValidateStyleDegree | src/cli/args.rs:343-345 | a style degree is valid exactly from `0.01f32` up to and including 2 |
| Grammar.ParseStyleDegree | src/cli/args.rs:331-341 | a style degree is accepted exactly when it parses and is in range, and is then the parsed value; a non-float is `NotAFloat`; an out-of-range float is reported with its value |
| Grammar.SplitAtFirstEquals | src/cli/args.rs:280-287 | a split exists exactly when the string contains `=`; the string is the name, `=`, and the value, and the name holds no `=` |
| Grammar.ParseHeader | src/cli/args.rs:277-288 | `KEY=value` is rejected with `NoSeparator` exactly when there is no `=`; an accepted header comes from a split at the first `=` whose name and value the HTTP library accepts |
| GrammarLaws.PresetsCarryNoUnit | src/cli/args.rs:294-329 | no preset word ends in a unit suffix, so the branches of the validators do not overlap |
| GrammarLaws.UnsignedSemitonesRejected | src/cli/args.rs:298-300 | a semitone value without a sign is rejected |
| GrammarLaws.SignedSemitonesAccepted | src/cli/args.rs:298-300 | a signed float followed by `st` passes unchanged |
| GrammarLaws.SemitoneExamples | src/cli/args.rs:298-300 | `+2st` passes unchanged and `2st` is rejected |
| GrammarLaws.MultiplierSuffixDropped | src/cli/args.rs:318-320 | a float followed by `f` comes out as the float, in both rate validators |
| GrammarLaws.MultiplierExamples | src/cli/args.rs:318-320 | `2f` gives `2` and `2.5f` gives `2.5` |
| GrammarLaws.PercentagePassesBoth | src/cli/args.rs:294-317 | a percentage passes both pitch and rate unchanged |
| GrammarLaws.BareFloatSameForBoth | src/cli/args.rs:303-323 | a bare float is rendered the same way as a pitch and as a rate |
| GrammarLaws.PercentRenderingOnlyTouchesBareFloats | src/cli/args.rs:294-329 | the corrected validators differ from the originals only on bare floats |
| GrammarLaws.StyleDegreeBounds | src/cli/args.rs:331-345 | both bounds are accepted and anything outside them is reported out of range |
| GrammarLaws.StyleDegreeSpecials | src/cli/args.rs:331-345 | not-a-number, negative zero and both infinities parse as floats but are reported out of range, with the value parsed |
| GrammarLaws.SignedZeroKept | src/cli/args.rs:303-305 | a bare `0` and `-0` are different f32 values, so pitch and rate hand on `0.00` and `-0.00` respectively, never the same string |
| GrammarLaws.StyleDegreeExamples | src/cli/args.rs:331-345 | `0.005` and `2.01` are out of range, `2.0` is accepted, `abc` is not a float |
| GrammarLaws.ParseHeaderRoundTrip | src/cli/args.rs:277-288 | for a name without `=`, `name=value` parses back to that name (as the library stores it) and that value, whatever the value holds, `=` included |
| Prosody.VerbatimPitchIsServicePitch | src/cli/args.rs:295-302 | the pitch forms passed through unchanged are exactly those the speech service reads as a pitch (a keyword, or a float with `Hz`, `%` or a signed `st`), each as its own kind: presets as keywords, `Hz` as hertz, `%` as a percentage, signed `st` as semitones |
| Prosody.RenderedPercentage | src/cli/args.rs:305 | a rendered number followed by `%` is a percentage as a pitch and as a rate |
| Prosody.PitchPercentKeepsKind | src/cli/args.rs:294-311 | with `%` after a rendered float, every accepted pitch reaches the service as the kind the help text promises, and exactly the pitches the help promises nothing for are rejected |
| Prosody.RatePercentKeepsKind | src/cli/args.rs:313-329 | with `%` after a rendered float, every accepted rate reaches the service as the kind the help text promises, and exactly the rates the help promises nothing for are rejected |
| Prosody.EndsInDigit | src/cli/args.rs:294-329 | a string ending in a digit has no unit suffix and is no preset |
| Prosody.BareFloatPitchLosesPercent | src/cli/args.rs:303-305 | as written, pitch `0.5` (promised +50%) becomes `50.00`, which the service does not take as a pitch |
| Prosody.BareFloatRateBecomesMultiplier | src/cli/args.rs:321-323 | as written, rate `0.5` (promised +50%) becomes `50.00`, which the service reads as a 50-fold multiplier |
| Auth.ValidateHeaders | src/cli/args.rs:96-109 | the profile headers convert exactly when every pair is valid, keeping order and values; otherwise the error names the first invalid pair, its name checked before its value |
| Auth.FirstPresent | src/cli/args.rs:65-84 | the first present value of a chain with a fallback: an earlier present value always wins, and the fallback applies only when none is present |
| Auth.ToAuthOptions | src/cli/args.rs:63-116 | resolution fails exactly when a profile header is invalid; `--endpoint`, then `--region`, then the profile, then the default give the endpoint; the command line's token and key win over the profile's; the profile's headers come first, then those given with `-H` |
| Auth.AuthFromArgs | src/cli/args.rs:119-140 | without a profile, endpoint resolution falls from `--endpoint` to `--region` to the default, and token, key and headers are as given |
| Auth.EndpointChain | src/cli/args.rs:65-84 | the endpoint is the first present of `--endpoint`, the region endpoint and the profile endpoint, else the default |
| Auth.NoProfileIsArgsOnly | src/cli/args.rs:63-140 | resolving with no profile is the profile-free conversion, and it cannot fail |
| Auth.EmptyProfileIsNoProfile | src/cli/args.rs:63-116 | a profile that sets nothing changes nothing |
| Auth.CommandLineWins | src/cli/args.rs:63-95 | whatever the profile says, the endpoint, token and key given on the command line are the ones used |
| Auth.ProfileFillsGaps | src/cli/args.rs:63-95 | with nothing on the command line, the profile supplies endpoint, token and key, and the endpoint falls back to the default |
| Auth.CommandLineHeadersLast | src/cli/args.rs:96-115 | the headers given with `-H` are always the tail of the resolved headers |
| Auth.InvalidProfileHeaderFails | src/cli/args.rs:96-109 | a single invalid profile header makes resolution fail |
| Auth.RegionEndpointNamesRegion | src/cli/args.rs:72-77 | with the official websocket endpoints, the region given with `--region` can be read back from the resolved endpoint |
| Output.ContainerName | src/cli/args.rs:15-24 | the containers are filed under their kebab-case names `mp3`, `ogg`, `webm` and `wav` |
| Output.ContainerFromName | src/cli/args.rs:15-24 | reading a container name back gives a container with that name |
| Output.ContainerNameRoundTrip | src/cli/args.rs:15-24 | every container is read back from its name |
| Output.ContainerNameInjective | src/cli/args.rs:15-24 | two containers share a name if and only if they are the same container |
| Output.AsI8 | src/cli/args.rs:185 | the `as i8` cast gives a value in [-128, 127] congruent to its input modulo 256 |
| Output.AsI8InRange | src/cli/args.rs:185 | the cast leaves a level unchanged if and only if it is already in the `i8` range |
| Output.AsI8Periodic | src/cli/args.rs:185 | levels 256 apart are cast to the same level |
| Output.Lookup | src/cli/args.rs:182-193 | the quality-table lookup succeeds exactly when the cast level, 0 when absent, is filed under the container, returns that entry, and otherwise names the container and the quality asked for |
| Output.GetAudioFormat | src/cli/args.rs:174-215 | an explicit format wins; otherwise an explicit container is looked up; a quality without a container is an error; it fails only when no format was given; with nothing on the command line, a profile format is used as it stands, a profile container and quality are looked up (container `Wav` when absent), and with no profile the default format comes back |
| Output.ExplicitBeatsProfile | src/cli/args.rs:180-197 | when a format, container or quality is given on the command line, the profile does not matter |
| Output.ProfileFormatActsAsExplicit | src/cli/args.rs:180-197 | a format in the profile acts as if given with `--format` |
| Output.ProfileContainerActsAsExplicit | src/cli/args.rs:182-210 | a container and quality in the profile act as if given on the command line, errors included |
| Output.ProfileContainerDefaultsToWav | src/cli/args.rs:198-210 | a profile without a container uses `Wav`; only its error differs, as it names no container |
| Output.QualityDefaultsToZero | src/cli/args.rs:185 | an absent quality means level 0: the lookup succeeds for both or for neither, with the same format, and otherwise reports the container and no quality |
| Output.ExplicitLookupComesFromTable | src/cli/args.rs:182-193 | a successful container lookup returns an entry of that container's table, never a stand-in default |
| Output.QualityWrapAliases | src/cli/args.rs:185 | as written, quality 256 succeeds with the format of level 0 |
| Output.ProfileQualityWrapAliases | src/cli/args.rs:198-210 | as written, a profile asking for quality 256 gets the format of level 0 |
| Output.LookupChecked | src/cli/args.rs:182-193 | the corrected lookup succeeds exactly when the level asked for is in the `i8` range and filed under the container, and returns that entry |
| Output.GetAudioFormatChecked | src/cli/args.rs:174-215 | the corrected resolution keeps every branch of the original: an explicit format wins, then an explicit container, a quality without a container is an error, then the profile's format or container and quality, then the default; both lookups go through the corrected lookup |
| Output.CheckedQualityNoAlias | src/cli/args.rs:182-210 | with the corrected lookup, a quality succeeds only if filed under its own number, so 256 fails, on the command line and in the profile |
| Output.CheckedAgreesInRange | src/cli/args.rs:174-215 | for levels in the `i8` range, the corrected and original resolutions agree |
| TextOptions.ToTextOptions | src/cli/args.rs:253-275 | fails with `NoText` exactly when there is no text, and otherwise only when neither `--voice` nor a known locale (default `en-US`) gives a voice; the prosody fields pass through; a table voice begins with the locale and ends with `Neural` |
| TextOptions.VoiceFromTable | src/cli/args.rs:259-267 | without `--voice`, the voice is the table's default for the locale |
| TextOptions.DefaultVoiceIsJenny | src/cli/args.rs:259-267 | with neither `--voice` nor `--locale`, the voice is `en-US-JennyNeural` |
| TextOptions.VoiceBeatsLocale | src/cli/args.rs:259-267 | `--voice` makes `--locale` irrelevant |
| TextOptions.LocaleOptions | src/cli/args.rs:253-275 | for any locale in the table and no `--voice`, the options carry that locale's default voice |
| TextOptions.ParseOptional | src/cli/args.rs:222-243 | an absent argument parses to nothing; a present one fails or succeeds as its parser does |
| TextOptions.ParseTextArgs | src/cli/args.rs:222-243 | the raw arguments are accepted exactly when pitch, rate and style degree each pass their validator, and they then carry the validated values, computed by the validators as written; the text, voice, locale, style and role pass through unchanged, and an absent argument stays absent |
| TextOptions.ParseTextArgsPercent | src/cli/args.rs:222-243 | with the corrected pitch and rate validators, the same raw arguments are accepted, and only pitch and rate can differ from what the validators as written give |
| TextOptions.GermanScenarioArgs | src/cli/args.rs:222-234 | `--pitch -10% --rate 1.5f` validates to pitch `-10%` and rate `1.5` |
| TextOptions.GermanScenario | src/cli/args.rs:253-275 | `text Hallo --locale de-DE --pitch -10% --rate 1.5f` resolves to the voice `de-DE-KatjaNeural`, pitch `-10%` and rate `1.5` |
| Text.Find | src/cli/args.rs:280-282 | the character search finds nothing exactly when the character is absent, and otherwise its first position |
| Text.FindAt | src/cli/args.rs:280-282 | a character's first position is what the search returns |

## Left out

- `ProfileArgs::load_profile` and reading the configuration file: I/O. The profile comes in as an optional value.
- The argument parser's conflict rules (`--endpoint` with `--region`, `--voice` with `--locale`, `--format` with container or quality): the parser enforces them before any code modelled here runs. The model accepts every combination and states what resolution does with it.
- Float parsing and formatting: abstract (the `Numerics` parameter). Which strings parse to which f32 value, rounding included, is left to that parameter. No property depends on it beyond the facts each `requires` names. The style-degree minimum is the exact value of `0.01f32`.
- `HeaderName::from_bytes`, `HeaderValue::from_str` and `HeaderValue::from_bytes`: abstract validation (the `HeaderRules` parameter).
- The contents of `QUALITY_MAP`, the `AudioFormat` variants, `AudioFormat::default()`, `DEFAULT_ENDPOINT` and `get_endpoint_by_region`: these live in library modules that are not part of this model, so they are parameters. The model requires that the quality table files every container, which the `.unwrap()` at args.rs:184 and 201 relies on.
- The wording of error messages: the model keeps which error occurs and the values it names, not the formatted text.
- The profile's header list and quality are taken as a sequence of pairs and an integer. The configuration module that declares their types is not part of this model.
- `Role` values: the set of roles is in a library module that is not part of this model. A role is carried by name and passed through unchanged.
- src/aspeak/api/format.py: a legacy Python wrapper whose behaviour depends on an external speech SDK.
- src/error.rs: error types only. The model uses its own error datatypes.

## Findings

| source | as written | input that shows it | evidently intended | confidence | as-written member | corrected member |
|---|---|---|---|---|---|---|
| src/cli/args.rs:303-305 | `parse_pitch` renders a bare float as `{:.2}` of a hundred times it, with no `%` | `--pitch 0.5` gives `50.00`, which the speech service does not take as a pitch | the help text promises that floats are converted to percentages, so `0.5` should become `50.00%`; with that, every accepted pitch keeps its promised kind (Prosody.PitchPercentKeepsKind) | medium, not executed | Prosody.BareFloatPitchLosesPercent | Grammar.ParsePitchPercent |
| src/cli/args.rs:321-323 | `parse_rate` renders a bare float the same way, with no `%` | `--rate 0.5` gives `50.00`, which the speech service reads as 50 times the normal rate | `0.5` should become `50.00%`, a 50% increase; with that, every accepted rate keeps its promised kind (Prosody.RatePercentKeepsKind) | medium, not executed | Prosody.BareFloatRateBecomesMultiplier | Grammar.ParseRatePercent |
| src/cli/args.rs:185 | the quality level is cast `as i8`, which wraps around; the profile branch does the same (args.rs:202) | `--container-format mp3 --quality 256` uses level 0 instead of reporting an invalid quality | levels outside the table, including those outside the `i8` range, are reported as invalid quality | low, not executed | Output.QualityWrapAliases | Output.GetAudioFormatChecked |
