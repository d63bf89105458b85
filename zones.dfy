/**
 * The zone directory (src/Zones.js): lists the server's zones through the
 * connection's GET primitive, at the URL built from the zones URL template.
 */
module Zones {
  import opened Wrappers
  import opened JsonValues
  import opened Api
  import Text
  import Connection

  /** The placeholder the server's zones URL template holds for one zone's segment. */
  const ZonePlaceholder := "{/zone}"

  /** The collection path: the template with its first placeholder removed. */
  function CollectionPath(template: string): string {
    Text.ReplaceFirst(template, ZonePlaceholder, "")
  }

  /** A template whose part before the placeholder holds no '{' loses exactly that placeholder. */
  lemma CollectionPathDropsPlaceholder(prefix: string, suffix: string)
    requires '{' !in prefix
    ensures CollectionPath(prefix + ZonePlaceholder + suffix) == prefix + suffix
  {
    Text.FirstOccurrenceAfter(prefix, ZonePlaceholder, suffix);
    var s := prefix + ZonePlaceholder + suffix;
    assert s[..|prefix|] == prefix;
    assert s[|prefix| + |ZonePlaceholder|..] == suffix;
  }

  /** A template without the placeholder is used as it is. */
  lemma CollectionPathWithoutPlaceholder(template: string)
    requires forall j :: !Text.OccursAt(template, ZonePlaceholder, j)
    ensures CollectionPath(template) == template
  {
  }

  /** The template PowerDNS reports for its local server. */
  lemma LocalhostCollectionPath()
    ensures CollectionPath("/servers/localhost/zones{/zone}") == "/servers/localhost/zones"
  {
    CollectionPathDropsPlaceholder("/servers/localhost/zones", "");
    assert "/servers/localhost/zones" + ZonePlaceholder + "" == "/servers/localhost/zones{/zone}";
  }

  /** The schema of one zone summary; every property required. */
  predicate ZoneSummaryShape(v: Json) {
    && v.Obj?
    && StringAt(v.fields, "id")
    && StringAt(v.fields, "name")
    && StringAt(v.fields, "url")
    && StringAt(v.fields, "kind")
    && BoolAt(v.fields, "dnssec")
    && StringAt(v.fields, "account")
    && ArrayAt(v.fields, "masters")
    && NumberAt(v.fields, "serial")
    && NumberAt(v.fields, "notified_serial")
    && NumberAt(v.fields, "last_check")
  }

  /** The zone list schema: an array of zone summaries. */
  predicate ZoneListShape(body: Json) {
    body.Arr? && forall i :: 0 <= i < |body.items| ==> ZoneSummaryShape(body.items[i])
  }

  /** The zone summary the client's tests reply with; it also carries `records`. */
  const TestZone: Json :=
    Obj(map[
      "id" := Str("test.net."),
      "url" := Str("/servers/localhost/zones/test.net."),
      "name" := Str("test.net"),
      "kind" := Str("Master"),
      "dnssec" := Bool(false),
      "account" := Str(""),
      "masters" := Arr([]),
      "serial" := Num(1970010101),
      "notified_serial" := Num(0),
      "last_check" := Num(0),
      "records" := Arr([])
    ])

  /** A zone summary lacking any of its ten properties is rejected. */
  lemma ZoneSummaryMissingPropertyRejected(fields: map<string, Json>, k: string)
    requires k in ["id", "name", "url", "kind", "dnssec", "account", "masters", "serial", "notified_serial", "last_check"]
    requires k !in fields
    ensures !ZoneListShape(Arr([Obj(fields)]))
  {
    var list := Arr([Obj(fields)]);
    assert list.items[0] == Obj(fields) && !ZoneSummaryShape(Obj(fields));
  }

  /** A Zones instance: the connection it was constructed with. */
  datatype Zones = Zones(connection: Connection.Connection) {

    /**
     * `list()`: given the outcome `got` of `connection.get`, the call made and
     * how the promise settles. Reading `replace` of an undefined template
     * (the connection never connected) throws before any call is made.
     */
    function List(got: Outcome<Json>): (run: Run<Json>)
      reads connection
      ensures connection.zonesUrl.None? ==> run == Run(None, Failure(TypeError("replace")))
      ensures connection.zonesUrl.Some? ==>
        run.call == Some(Get(connection.baseURL + CollectionPath(connection.zonesUrl.value)))
      ensures run.result.Success? <==>
        connection.zonesUrl.Some? && got.Success? && ZoneListShape(got.value)
      ensures run.result.Success? ==> run.result == got
      ensures connection.zonesUrl.Some? && got.Failure? ==> run.result == got
      ensures connection.zonesUrl.Some? && got.Success? && !ZoneListShape(got.value) ==>
        run.result == Failure(InvalidResults)
    {
      match connection.zonesUrl
      case None => Run(None, Failure(TypeError("replace")))
      case Some(template) =>
        var url := connection.baseURL + CollectionPath(template);
        var result :=
          match got
          case Failure(e) => Failure(e)
          case Success(body) => if ZoneListShape(body) then Success(body) else Failure(InvalidResults);
        Run(Some(Get(url)), result)
    }
  }

  /** `new Zones(connection)`: throws without a connection. */
  function NewZones(connection: Connection.Connection?): (r: Outcome<Zones>)
    ensures r.Failure? <==> connection == null
    ensures r.Failure? ==> r.error == ConnectionRequired
    ensures r.Success? ==> r.value.connection == connection
  {
    if connection == null then Failure(ConnectionRequired) else Success(Zones(connection))
  }

  /**
   * After a successful `connect()` whose server reported `prefix{/zone}suffix`,
   * `list()` requests the base URL followed by `prefixsuffix`.
   */
  lemma ListUrlAfterConnect(z: Zones, got: Outcome<Json>, prefix: string, suffix: string)
    requires z.connection.zonesUrl == Some(prefix + ZonePlaceholder + suffix)
    requires '{' !in prefix
    ensures z.List(got).call == Some(Get(z.connection.baseURL + prefix + suffix))
  {
    CollectionPathDropsPlaceholder(prefix, suffix);
    assert z.connection.baseURL + (prefix + suffix) == z.connection.baseURL + prefix + suffix;
  }

  /** Until a `connect()` succeeds, `list()` makes no call and rejects. */
  lemma ListBeforeConnect(z: Zones, got: Outcome<Json>)
    requires z.connection.Valid() && !z.connection.connected
    ensures z.List(got) == Run(None, Failure(TypeError("replace")))
  {
  }

  /** A list of well-formed summaries, extra properties included, comes back as it is; null does not. */
  lemma TestZonesListed(z: Zones)
    requires z.connection.zonesUrl.Some?
    ensures var zones := Arr([TestZone, TestZone, TestZone]);
      z.List(Success(zones)).result == Success(zones)
    ensures z.List(Success(Null)).result == Failure(InvalidResults)
  {
  }
}
