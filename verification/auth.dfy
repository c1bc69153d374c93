/** Authentication options (src/cli/args.rs:44-141): the endpoint, token,
    key and extra request headers, resolved from the command line and,
    when there is one, the `auth` section of the profile.

    What the command line gives wins; the profile fills what it leaves
    out; a fixed default endpoint closes the endpoint chain. */
module Auth {
  import opened Wrappers
  import opened Grammar
  import Endpoints

  /** The `--endpoint`, `--region`, `--token`, `--key` and `-H` arguments;
      each `-H` value has already passed `parse_header`. */
  datatype AuthArgs = AuthArgs(
    endpoint: Option<string>,
    region: Option<string>,
    token: Option<string>,
    key: Option<string>,
    headers: seq<Header>)

  /** The `auth` section of a profile; its headers are raw name/value pairs. */
  datatype AuthConfig = AuthConfig(
    endpoint: Option<string>,
    token: Option<string>,
    key: Option<string>,
    headers: Option<seq<(string, string)>>)

  datatype AuthOptions = AuthOptions(
    endpoint: string,
    token: Option<string>,
    key: Option<string>,
    headers: seq<Header>)

  /** The library's `DEFAULT_ENDPOINT`, its `get_endpoint_by_region`, and
      the header validation of the HTTP library. */
  datatype AuthEnv = AuthEnv(
    defaultEndpoint: string,
    endpointByRegion: string -> string,
    rules: HeaderRules)

  /** A profile header the HTTP library accepts: a valid name (checked
      with `HeaderName::from_bytes`) and a valid value (`HeaderValue::from_bytes`). */
  predicate ValidPair(rules: HeaderRules, p: (string, string)) {
    rules.name(p.0).Some? && rules.valueBytes(p.1)
  }

  /** The error for an invalid profile header: the name is checked first. */
  function PairFault(rules: HeaderRules, p: (string, string)): HeaderError {
    if rules.name(p.0).None? then InvalidName(p.0) else InvalidValue(p.1)
  }

  /** The profile headers converted one by one (args.rs:96-109); the
      collection stops at the first pair that fails. */
  function ValidateHeaders(rules: HeaderRules, pairs: seq<(string, string)>): (r: Result<seq<Header>, HeaderError>)
    ensures r.Ok? <==> forall i :: 0 <= i < |pairs| ==> ValidPair(rules, pairs[i])
    ensures r.Ok? ==> |r.value| == |pairs|
    ensures r.Ok? ==> forall i :: 0 <= i < |pairs| ==>
                        r.value[i] == Header(rules.name(pairs[i].0).value, pairs[i].1)
    ensures r.Err? ==> exists i :: 0 <= i < |pairs| && !ValidPair(rules, pairs[i])
                        && (forall j :: 0 <= j < i ==> ValidPair(rules, pairs[j]))
                        && r.error == PairFault(rules, pairs[i])
  {
    if |pairs| == 0 then Ok([])
    else
      var p := pairs[0];
      if !ValidPair(rules, p) then Err(PairFault(rules, p))
      else
        match ValidateHeaders(rules, pairs[1..])
        case Err(e) =>
          ghost var i :| 0 <= i < |pairs[1..]| && !ValidPair(rules, pairs[1..][i])
                         && (forall j :: 0 <= j < i ==> ValidPair(rules, pairs[1..][j]))
                         && e == PairFault(rules, pairs[1..][i]);
          assert forall j :: 0 <= j < i + 1 ==> ValidPair(rules, pairs[j]) by {
            forall j | 0 <= j < i + 1 ensures ValidPair(rules, pairs[j]) {
              if j > 0 { assert pairs[j] == pairs[1..][j - 1]; }
            }
          }
          assert pairs[i + 1] == pairs[1..][i];
          Err(e)
        case Ok(rest) =>
          assert forall i :: 1 <= i < |pairs| ==> pairs[i] == pairs[1..][i - 1];
          Ok([Header(rules.name(p.0).value, p.1)] + rest)
  }

  /** The first present value of `chain`, or `fallback` when none is. */
  function FirstPresent<T>(chain: seq<Option<T>>, fallback: T): (r: T)
    ensures (exists i :: 0 <= i < |chain| && chain[i].Some?) ==>
              exists i :: 0 <= i < |chain| && chain[i] == Some(r) && forall j :: 0 <= j < i ==> chain[j].None?
    ensures (forall i :: 0 <= i < |chain| ==> chain[i].None?) ==> r == fallback
  {
    if |chain| == 0 then fallback
    else if chain[0].Some? then chain[0].value
    else
      var r := FirstPresent(chain[1..], fallback);
      assert forall i :: 1 <= i < |chain| ==> chain[i] == chain[1..][i - 1];
      if exists i :: 0 <= i < |chain| && chain[i].Some? then
        ghost var k :| 0 <= k < |chain| && chain[k].Some?;
        assert chain[1..][k - 1].Some?;
        ghost var i :| 0 <= i < |chain[1..]| && chain[1..][i] == Some(r)
                       && forall j :: 0 <= j < i ==> chain[1..][j].None?;
        assert chain[i + 1] == Some(r);
        r
      else r
  }

  /** The endpoint the command line names: `--endpoint`, else the
      official endpoint of `--region`. */
  function ArgsEndpoint(env: AuthEnv, args: AuthArgs): Option<string> {
    if args.endpoint.Some? then args.endpoint
    else if args.region.Some? then Some(env.endpointByRegion(args.region.value))
    else None
  }

  /** `AuthArgs::to_auth_options` (args.rs:63-116). The error is that of
      the first invalid profile header. */
  function ToAuthOptions(env: AuthEnv, args: AuthArgs, config: Option<AuthConfig>): (r: Result<AuthOptions, HeaderError>)
    ensures r.Err? <==> config.Some? && config.value.headers.Some?
                        && ValidateHeaders(env.rules, config.value.headers.value).Err?
    ensures r.Ok? && args.endpoint.Some? ==> r.value.endpoint == args.endpoint.value
    ensures r.Ok? && args.endpoint.None? && args.region.Some? ==>
              r.value.endpoint == env.endpointByRegion(args.region.value)
    ensures r.Ok? && args.endpoint.None? && args.region.None? ==>
              r.value.endpoint == (if config.Some? then config.value.endpoint.GetOr(env.defaultEndpoint)
                                   else env.defaultEndpoint)
    ensures r.Ok? ==> r.value.token == (if args.token.Some? || config.None? then args.token else config.value.token)
    ensures r.Ok? ==> r.value.key == (if args.key.Some? || config.None? then args.key else config.value.key)
    ensures r.Ok? && config.Some? && config.value.headers.Some? ==>
              r.value.headers == ValidateHeaders(env.rules, config.value.headers.value).value + args.headers
    ensures r.Ok? && (config.None? || config.value.headers.None?) ==> r.value.headers == args.headers
  {
    var endpoint :=
      match ArgsEndpoint(env, args)
      case Some(e) => e
      case None =>
        if config.Some? && config.value.endpoint.Some? then config.value.endpoint.value
        else env.defaultEndpoint;
    var token := if args.token.Some? then args.token else if config.Some? then config.value.token else None;
    var key := if args.key.Some? then args.key else if config.Some? then config.value.key else None;
    if config.Some? && config.value.headers.Some? then
      match ValidateHeaders(env.rules, config.value.headers.value)
      case Err(e) => Err(e)
      case Ok(fromProfile) => Ok(AuthOptions(endpoint, token, key, fromProfile + args.headers))
    else
      Ok(AuthOptions(endpoint, token, key, args.headers))
  }

  /** `TryInto<AuthOptions> for &AuthArgs` (args.rs:119-140): the
      command line alone, which cannot fail. */
  function AuthFromArgs(env: AuthEnv, args: AuthArgs): (r: AuthOptions)
    ensures args.endpoint.Some? ==> r.endpoint == args.endpoint.value
    ensures args.endpoint.None? && args.region.Some? ==> r.endpoint == env.endpointByRegion(args.region.value)
    ensures args.endpoint.None? && args.region.None? ==> r.endpoint == env.defaultEndpoint
    ensures r.token == args.token && r.key == args.key && r.headers == args.headers
  {
    var endpoint := match ArgsEndpoint(env, args) case Some(e) => e case None => env.defaultEndpoint;
    AuthOptions(endpoint, args.token, args.key, args.headers)
  }

  const EmptyConfig: AuthConfig := AuthConfig(None, None, None, None)

  /** The endpoint is the first of `--endpoint`, the official endpoint of
      `--region` and the profile's endpoint that is present, and the
      default endpoint when none is. */
  lemma EndpointChain(env: AuthEnv, args: AuthArgs, config: Option<AuthConfig>)
    requires ToAuthOptions(env, args, config).Ok?
    ensures ToAuthOptions(env, args, config).value.endpoint == FirstPresent(
              [args.endpoint,
               if args.region.Some? then Some(env.endpointByRegion(args.region.value)) else None,
               if config.Some? then config.value.endpoint else None],
              env.defaultEndpoint)
  {
    var chain := [args.endpoint,
                  if args.region.Some? then Some(env.endpointByRegion(args.region.value)) else None,
                  if config.Some? then config.value.endpoint else None];
    assert chain[1..] == chain[1..2] + chain[2..];
    assert chain[1..][1..] == [chain[2]];
    assert [chain[2]][1..] == [];
  }

  /** Without a profile, resolving the options is the profile-free conversion. */
  lemma NoProfileIsArgsOnly(env: AuthEnv, args: AuthArgs)
    ensures ToAuthOptions(env, args, None) == Ok(AuthFromArgs(env, args))
  {
  }

  /** A profile that sets nothing changes nothing. */
  lemma EmptyProfileIsNoProfile(env: AuthEnv, args: AuthArgs)
    ensures ToAuthOptions(env, args, Some(EmptyConfig)) == ToAuthOptions(env, args, None)
  {
  }

  /** Whatever the profile says, what the command line sets is what is used. */
  lemma CommandLineWins(env: AuthEnv, args: AuthArgs, config: AuthConfig)
    requires args.endpoint.Some? && args.token.Some? && args.key.Some?
    requires ToAuthOptions(env, args, Some(config)).Ok?
    ensures var r := ToAuthOptions(env, args, Some(config)).value;
            r.endpoint == args.endpoint.value && r.token == args.token && r.key == args.key
  {
  }

  /** The profile fills exactly what the command line leaves out. */
  lemma ProfileFillsGaps(env: AuthEnv, args: AuthArgs, config: AuthConfig)
    requires args.endpoint.None? && args.region.None? && args.token.None? && args.key.None?
    requires config.headers.None?
    ensures ToAuthOptions(env, args, Some(config)) == Ok(AuthOptions(
              config.endpoint.GetOr(env.defaultEndpoint), config.token, config.key, args.headers))
  {
  }

  /** The headers given with `-H` always come last, after the profile's. */
  lemma CommandLineHeadersLast(env: AuthEnv, args: AuthArgs, config: Option<AuthConfig>)
    requires ToAuthOptions(env, args, config).Ok?
    ensures var h := ToAuthOptions(env, args, config).value.headers;
            |h| >= |args.headers| && h[|h| - |args.headers|..] == args.headers
  {
  }

  /** One invalid profile header makes the whole resolution fail, naming it. */
  lemma InvalidProfileHeaderFails(env: AuthEnv, args: AuthArgs, config: AuthConfig, i: nat)
    requires config.headers.Some? && i < |config.headers.value|
    requires !ValidPair(env.rules, config.headers.value[i])
    ensures ToAuthOptions(env, args, Some(config)).Err?
  {
  }

  /** With the official websocket endpoints, `--region` yields an endpoint
      from which the region can be read back. */
  lemma RegionEndpointNamesRegion(env: AuthEnv, args: AuthArgs, region: string)
    requires forall r :: env.endpointByRegion(r) == Endpoints.WebsocketEndpoint(r)
    requires args.endpoint.None? && args.region == Some(region)
    ensures Endpoints.RegionOf(Endpoints.WebsocketPrefix, Endpoints.WebsocketSuffix,
                               AuthFromArgs(env, args).endpoint) == Some(region)
  {
    Endpoints.WebsocketEndpointRoundTrip(region);
  }
}
