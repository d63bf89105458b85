/**
 * The connection to one DNS server's management API (src/Connection.js):
 * configuration validation, the derived base URL, and `connect()`, which
 * discovers the server's zones URL template.
 */
module Connection {
  import opened Wrappers
  import opened JsonValues
  import opened Api
  import Text

  /** A configuration record that passed validation. */
  datatype Config = Config(host: string, port: int, protocol: string, key: string)

  /** The regular expression /^https?$/: "http", an optional "s", nothing else. */
  predicate MatchesHttpScheme(s: string) {
    |s| >= 4 && s[..4] == "http" && (|s| == 4 || (|s| == 5 && s[4] == 's'))
  }

  lemma HttpSchemeIsHttpOrHttps(s: string)
    ensures MatchesHttpScheme(s) <==> s == "http" || s == "https"
  {
  }

  /**
   * The configuration schema: every property required; `host` a string of at
   * least 3 characters, `port` a number, `protocol` a string matching
   * /^https?$/, `key` a non-empty string.
   */
  predicate ConfigShape(config: Json) {
    && config.Obj?
    && StringAt(config.fields, "host") && |config.fields["host"].s| >= 3
    && NumberAt(config.fields, "port")
    && StringAt(config.fields, "protocol") && MatchesHttpScheme(config.fields["protocol"].s)
    && StringAt(config.fields, "key") && |config.fields["key"].s| >= 1
  }

  /** What a validated configuration guarantees. */
  predicate ConfigOk(c: Config) {
    |c.host| >= 3 && (c.protocol == "http" || c.protocol == "https") && |c.key| >= 1
  }

  /** The constructor's validation step: the configuration record or ConfigInvalid. */
  function ValidateConfig(config: Json): (r: Outcome<Config>)
    ensures r.Success? <==> ConfigShape(config)
    ensures r.Failure? ==> r.error == ConfigInvalid
    ensures r.Success? ==> ConfigOk(r.value)
    ensures r.Success? ==>
      && config.fields["host"] == Str(r.value.host)
      && config.fields["port"] == Num(r.value.port)
      && config.fields["protocol"] == Str(r.value.protocol)
      && config.fields["key"] == Str(r.value.key)
  {
    if ConfigShape(config) then
      var protocol := config.fields["protocol"].s;
      HttpSchemeIsHttpOrHttps(protocol);
      Success(Config(config.fields["host"].s, config.fields["port"].n, protocol, config.fields["key"].s))
    else
      Failure(ConfigInvalid)
  }

  /** A configuration lacking any one required property is rejected. */
  lemma MissingPropertyRejected(config: Json, key: string)
    requires config.Obj? && key !in config.fields
    requires key == "host" || key == "port" || key == "protocol" || key == "key"
    ensures ValidateConfig(config) == Failure(ConfigInvalid)
  {
  }

  /** The configuration the client is constructed with in its tests. */
  const TestConfiguration: Json :=
    Obj(map["host" := Str("abc"), "port" := Num(8080), "protocol" := Str("http"), "key" := Str("abcd")])

  lemma TestConfigurationAccepted()
    ensures ValidateConfig(TestConfiguration) == Success(Config("abc", 8080, "http", "abcd"))
  {
  }

  /**
   * The schema constrains only its four properties: any other property may be
   * present, and `minLength` on `port` is ignored, so every number is a port.
   */
  lemma ConfigShapeConstrainsOnlyItsProperties(fields: map<string, Json>, k: string, v: Json, port: int)
    requires ConfigShape(Obj(fields))
    requires k != "host" && k != "port" && k != "protocol" && k != "key"
    ensures ConfigShape(Obj(fields[k := v]))
    ensures ConfigShape(Obj(fields["port" := Num(port)]))
  {
  }

  /** Each property's own rule rejects, whatever the others hold. */
  lemma ConfigShapeRejectsEachRule(fields: map<string, Json>, s: string)
    ensures !ConfigShape(Obj(fields["port" := Str(s)]))
    ensures |s| < 3 ==> !ConfigShape(Obj(fields["host" := Str(s)]))
    ensures !MatchesHttpScheme(s) ==> !ConfigShape(Obj(fields["protocol" := Str(s)]))
    ensures !ConfigShape(Obj(fields["key" := Str("")]))
  {
  }

  /** A missing configuration and an empty object both fail validation. */
  lemma AbsentOrEmptyConfigurationRejected()
    ensures ValidateConfig(Undefined) == Failure(ConfigInvalid)
    ensures ValidateConfig(Obj(map[])) == Failure(ConfigInvalid)
  {
  }

  /** `${protocol}://${host}:${port}` */
  function BaseUrl(c: Config): string {
    c.protocol + "://" + c.host + ":" + Text.DecimalString(c.port)
  }

  /** Splits `host:port` at its last ':' and reads the port. */
  function SplitHostPort(rest: string): Option<(string, int)> {
    match Text.LastIndexOf(rest, ':')
    case None => None
    case Some(k) =>
      match Text.ParseDecimal(rest[k + 1..])
      case None => None
      case Some(port) => Some((rest[..k], port))
  }

  /** Reads a base URL back into its protocol, host and port. */
  function ParseBaseUrl(u: string): Option<(string, string, int)> {
    var protocol := if |u| > 4 && u[4] == 's' then "https" else "http";
    var n := |protocol| + 3;
    if |u| < n || u[..n] != protocol + "://" then None
    else
      match SplitHostPort(u[n..])
      case None => None
      case Some(hostPort) => Some((protocol, hostPort.0, hostPort.1))
  }

  lemma SplitHostPortRoundTrip(host: string, port: int)
    ensures SplitHostPort(host + ":" + Text.DecimalString(port)) == Some((host, port))
  {
    var d := Text.DecimalString(port);
    Text.DecimalRoundTrip(port);
    var rest := host + ":" + d;
    var k := |host|;
    assert rest[k] == ':';
    assert forall j :: k < j < |rest| ==> rest[j] == d[j - k - 1];
    assert Text.LastIndexOf(rest, ':') == Some(k);
    assert rest[k + 1..] == d;
    assert rest[..k] == host;
  }

  /**
   * The base URL determines the protocol, host and port it was built from,
   * even when the host holds a ':'.
   */
  lemma BaseUrlRoundTrip(c: Config)
    requires c.protocol == "http" || c.protocol == "https"
    ensures ParseBaseUrl(BaseUrl(c)) == Some((c.protocol, c.host, c.port))
  {
    var rest := c.host + ":" + Text.DecimalString(c.port);
    var u := BaseUrl(c);
    var n := |c.protocol| + 3;
    assert u == (c.protocol + "://") + rest;
    assert u[..n] == c.protocol + "://" && u[n..] == rest;
    assert u[4] == (c.protocol + "://")[4];
    SplitHostPortRoundTrip(c.host, c.port);
  }

  /** The schema of one server descriptor: seven required string properties. */
  predicate ServerShape(v: Json) {
    && v.Obj?
    && StringAt(v.fields, "type")
    && StringAt(v.fields, "id")
    && StringAt(v.fields, "url")
    && StringAt(v.fields, "daemon_type")
    && StringAt(v.fields, "version")
    && StringAt(v.fields, "config_url")
    && StringAt(v.fields, "zones_url")
  }

  /** The `/servers` schema: an array of exactly one server descriptor. */
  predicate ServersShape(body: Json) {
    body.Arr? && |body.items| == 1 && ServerShape(body.items[0])
  }

  /**
   * How `connect()` reads the reply to its `/servers` request: the server's
   * zones URL template, or the error the promise rejects with.
   */
  function DiscoverZonesUrl(reply: Reply): (r: Outcome<string>)
    ensures r == Failure(Unauthorised) <==> reply.Errored? && reply.status == Some(401)
    ensures reply.Errored? && reply.status != Some(401) ==> r == Failure(Transport(reply.cause))
    ensures r == Failure(InvalidResults) <==> reply.Body? && !ServersShape(reply.body)
    ensures r.Success? <==> reply.Body? && ServersShape(reply.body)
    ensures r.Success? ==> Str(r.value) == reply.body.items[0].fields["zones_url"]
  {
    match reply
    case Errored(cause, status) =>
      if status == Some(401) then Failure(Unauthorised) else Failure(Transport(cause))
    case Body(body) =>
      if !ServersShape(body) then Failure(InvalidResults)
      else Success(body.items[0].fields["zones_url"].s)
  }

  /** The server descriptor the client's tests reply with. */
  const TestServer: Json :=
    Obj(map[
      "type" := Str("Server"),
      "id" := Str("localhost"),
      "url" := Str("/servers/localhost"),
      "daemon_type" := Str("authoritative"),
      "version" := Str("3.4.7"),
      "config_url" := Str("/servers/localhost/config{/config_setting}"),
      "zones_url" := Str("/servers/localhost/zones{/zone}")
    ])

  lemma TestServerDiscovered()
    ensures DiscoverZonesUrl(Body(Arr([TestServer]))) == Success("/servers/localhost/zones{/zone}")
  {
  }

  /** Any number of servers other than one is rejected, however well-formed they are. */
  lemma ServersNotExactlyOneRejected(servers: seq<Json>)
    requires |servers| != 1
    ensures DiscoverZonesUrl(Body(Arr(servers))) == Failure(InvalidResults)
  {
  }

  /** A server lacking any of its seven properties is rejected. */
  lemma ServerMissingPropertyRejected(fields: map<string, Json>, k: string)
    requires k in ["type", "id", "url", "daemon_type", "version", "config_url", "zones_url"]
    requires k !in fields
    ensures DiscoverZonesUrl(Body(Arr([Obj(fields)]))) == Failure(InvalidResults)
  {
  }

  /**
   * `connect()` does not set the `json` option, so a transport that honours it
   * hands over the body as an undecoded string, which is always rejected; so
   * is a null body.
   */
  lemma UndecodedBodyRejected(raw: string)
    ensures DiscoverZonesUrl(Body(Str(raw))) == Failure(InvalidResults)
    ensures DiscoverZonesUrl(Body(Null)) == Failure(InvalidResults)
  {
  }

  class Connection {
    const config: Config
    const baseURL: string
    var connected: bool
    /** The server's zones URL template; undefined until a `connect()` succeeds. */
    var zonesUrl: Option<string>

    ghost predicate Valid()
      reads this
    {
      && ConfigOk(config)
      && baseURL == BaseUrl(config)
      && (connected <==> zonesUrl.Some?)
    }

    /** Lines 31-35 of the constructor, once `config` has passed validation. */
    constructor (config: Config)
      requires ConfigOk(config)
      ensures Valid()
      ensures this.config == config && baseURL == BaseUrl(config)
      ensures !connected && zonesUrl == None
    {
      this.config := config;
      connected := false;
      baseURL := BaseUrl(config);
      zonesUrl := None;
    }

    /** `new Connection(config)`: validates, then constructs or throws. */
    static method New(config: Json) returns (r: Outcome<Connection>)
      ensures r.Failure? <==> !ConfigShape(config)
      ensures r.Failure? ==> r.error == ConfigInvalid
      ensures r.Success? ==> fresh(r.value) && r.value.Valid()
      ensures r.Success? ==> ValidateConfig(config) == Success(r.value.config)
      ensures r.Success? ==> r.value.baseURL == BaseUrl(r.value.config)
      ensures r.Success? ==> !r.value.connected && r.value.zonesUrl == None
    {
      match ValidateConfig(config)
      case Failure(e) =>
        r := Failure(e);
      case Success(c) =>
        var connection := new Connection(c);
        r := Success(connection);
    }

    /**
     * `connect()`: issues the discovery request (`sent`, without the `json`
     * option) and, given the
     * transport's `reply`, stores the zones URL template and becomes connected
     * on success; on any failure it rejects and changes nothing.
     */
    method Connect(reply: Reply) returns (sent: Request, r: Outcome<()>)
      requires Valid()
      modifies this
      ensures Valid()
      ensures sent == Request(baseURL + "/servers", map["X-API-Key" := config.key], false)
      ensures r.Success? <==> DiscoverZonesUrl(reply).Success?
      ensures r.Success? ==> connected && zonesUrl == Some(DiscoverZonesUrl(reply).value)
      ensures r.Failure? ==> r.error == DiscoverZonesUrl(reply).error
      ensures r.Failure? ==> connected == old(connected) && zonesUrl == old(zonesUrl)
    {
      sent := Request(baseURL + "/servers", map["X-API-Key" := config.key], false);
      match DiscoverZonesUrl(reply)
      case Failure(e) =>
        r := Failure(e);
      case Success(template) =>
        zonesUrl := Some(template);
        connected := true;
        r := Success(());
    }
  }
}
