/**
 * The `[buildbot]` settings read by `BuildbotHook.__init__`: the build
 * master's host, optionally written `host:port`, and an explicit `port`.
 */
module HookConfig {
  import opened Wrappers
  import opened Text

  /** The port used when the host setting names none. */
  const DefaultPort: int := 9989

  datatype Endpoint = Endpoint(host: string, port: int)

  datatype ConfigError =
    | MissingHost               // TracError: the host setting is empty
    | InvalidPort(text: string) // ValueError from `int(text)`

  /**
   * Host and port as `__init__` has them before it consults the `port`
   * option: `host:port` keeps the first two colon-separated fields.
   */
  function HostEndpoint(hostSetting: string): (r: Result<Endpoint, ConfigError>)
    ensures r.Err? <==> hostSetting == "" || (':' in hostSetting && ParseInt(Split(hostSetting, ':')[1]).None?)
    ensures r.Ok? ==> ':' !in r.value.host
    ensures r.Ok? && ':' !in hostSetting ==> r.value == Endpoint(hostSetting, DefaultPort)
    ensures r.Ok? && ':' in hostSetting ==>
      |r.value.host| < |hostSetting| && hostSetting[..|r.value.host| + 1] == r.value.host + [':']
    ensures r.Ok? && ':' in hostSetting ==> r.value.port == ParseInt(Split(hostSetting, ':')[1]).value
  {
    if hostSetting == "" then Err(MissingHost)
    else if ':' in hostSetting then
      var fields := Split(hostSetting, ':');
      assert hostSetting == fields[0] + [':'] + Join(fields[1..], ':');
      match ParseInt(fields[1])
      case None => Err(InvalidPort(fields[1]))
      case Some(port) => Ok(Endpoint(fields[0], port))
    else Ok(Endpoint(hostSetting, DefaultPort))
  }

  /**
   * The endpoint `__init__` settles on: the host setting's endpoint, whose
   * port an explicit `port` option then replaces.
   */
  function ParseEndpoint(hostSetting: string, portSetting: Option<string>): (r: Result<Endpoint, ConfigError>)
    ensures hostSetting == "" ==> r == Err(MissingHost)
    ensures HostEndpoint(hostSetting).Err? ==> r == HostEndpoint(hostSetting)
    ensures r.Ok? ==> r.value.host == HostEndpoint(hostSetting).value.host
    ensures portSetting.None? ==> r == HostEndpoint(hostSetting)
    ensures HostEndpoint(hostSetting).Ok? && portSetting.Some? ==>
      (r.Ok? <==> ParseInt(portSetting.value).Some?) &&
      (r.Ok? ==> r.value.port == ParseInt(portSetting.value).value)
  {
    match HostEndpoint(hostSetting)
    case Err(e) => Err(e)
    case Ok(endpoint) =>
      match portSetting
      case None => Ok(endpoint)
      case Some(text) =>
        match ParseInt(text)
        case None => Err(InvalidPort(text))
        case Some(port) => Ok(Endpoint(endpoint.host, port))
  }

  /** `host:port` with a colon-free host reads back as that host and port. */
  lemma {:induction false} HostPortRoundTrip(host: string, port: nat)
    requires ':' !in host
    ensures ParseEndpoint(host + ":" + NatToString(port), None) == Ok(Endpoint(host, port))
  {
    ParseIntOfNat(port);
    SplitTwo(host, NatToString(port), ':');
  }

  /** Fields after the second are ignored: `host:port:rest` reads as `host:port`. */
  lemma ExtraFieldsIgnored(host: string, port: nat, rest: string)
    requires ':' !in host
    ensures ParseEndpoint(host + [':'] + NatToString(port) + [':'] + rest, None) == Ok(Endpoint(host, port))
  {
    ParseIntOfNat(port);
    PortFieldThenMore(host, NatToString(port), rest);
  }

  lemma {:induction false} PortFieldThenMore(host: string, digits: string, rest: string)
    requires ':' !in host && ':' !in digits && ParseInt(digits).Some?
    ensures HostEndpoint(host + [':'] + digits + [':'] + rest) == Ok(Endpoint(host, ParseInt(digits).value))
  {
    var tail := digits + [':'] + rest;
    var setting := host + [':'] + digits + [':'] + rest;
    assert setting == host + [':'] + tail;
    SplitCons(host, tail, ':');
    SplitCons(digits, rest, ':');
    assert Split(setting, ':')[1] == digits;
  }

  /** `host:` has an empty port field, which `int('')` rejects, whatever the `port` option says. */
  lemma EmptyPortFieldRejected(host: string, portSetting: Option<string>)
    requires ':' !in host
    ensures ParseEndpoint(host + ":", portSetting) == Err(InvalidPort(""))
  {
    SplitTwo(host, "", ':');
    assert host + ":" == host + [':'] + "";
    ParseIntOfBlank("");
  }

  /** An explicit `port` option wins over both the default and a port in the host setting. */
  lemma ExplicitPortWins(hostSetting: string, port: nat)
    requires HostEndpoint(hostSetting).Ok?
    ensures ParseEndpoint(hostSetting, Some(NatToString(port))) == Ok(Endpoint(HostEndpoint(hostSetting).value.host, port))
  {
    ParseIntOfNat(port);
  }
}
