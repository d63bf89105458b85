# pdns-api client core, modelled in Dafny

A model of the core of a small JavaScript client for the PowerDNS HTTP API
(`node-pdns-api`). It covers three classes:

- `Connection` validates its configuration and derives `baseURL` as
  `protocol://host:port`. Its `connect()` asks `baseURL + "/servers"` for the
  server descriptor. It stores the server's zones URL template and becomes
  connected only when the reply is an array of exactly one well-formed
  descriptor.
- `Zones.list()` builds the collection URL by removing the first `{/zone}`
  from the template. It issues one GET, validates the zone list and returns it
  unchanged.
- `Records.list(zone)` extracts and validates a fetched zone's `records`.
  `Records.add(zone, record)` checks its guards in order. It then hands
  `{name, type, changetype: "REPLACE", records: [record]}` to
  `zones.patchRRset`.

Layout, one module per file:

- `wrappers.dfy` holds `Option` and `Result`.
- `json.dfy` holds JavaScript values, falsiness and property access.
- `api.dfy` holds errors, transport replies, requests, calls to collaborators
  and runs.
- `text.dfy` holds `String.prototype.replace` with a string pattern and the
  decimal rendering of integers.
- `connection.dfy`, `zones.dfy` and `records.dfy` model the three source files.

`Connection` is a class with mutable fields `connected` and `zonesUrl`, and
`Valid()` holds `connected <==> zonesUrl.Some?`. Zones and records are values
that hold their connection, and their operations are functions.

Each HTTP round trip and each call to code outside the model is an input
value: a `Reply` for the transport, and an `Outcome` for `connection.get`,
`zones.fetch` and `zones.patchRRset`. Each operation returns the call it made,
so "which URL was requested" and "no call on failure" can be stated.

Where the code and its tests disagree, the model follows the code:

- A failed `connect()` leaves `connected` and the zones URL as they were. A
  test expects a rejected `connect()` to leave `connected` false
  (test/Connection.test.js:381-388). That holds only because the connection
  under test never connected. After a failed reconnect, the connection stays
  connected and keeps its earlier template.
- The 401 mapping applies only when the transport reports a truthy error. A
  test yields `(false, {statusCode: 401}, null)` and expects `Unauthorised`.
  The code reads that reply as the body `null` and rejects with "API returned
  invalid results".
- `new Connection()` without an argument fails schema validation and throws
  "Configuration failed validation". One test expects "configuration must be
  supplied" instead.
- `connect()` does not set the transport's `json` option
  (src/Connection.js:42-47). A transport that honours that option hands over
  the body as an undecoded string, and Connection.UndecodedBodyRejected shows
  that such a body is always rejected. The tests hide this because their
  stubbed transport replies with decoded values.

The schemas follow `schema-inspector`'s defaults:

- Every listed property is required.
- Other properties are allowed.
- `minLength` on a number is ignored.

## Model

| member | source | states |
|---|---|---|
| Connection.ValidateConfig | src/Connection.js:15-29 | accepts exactly the configurations whose host is a string of at least 3 characters, port a number, protocol "http" or "https" and key a non-empty string; returns those four values; otherwise fails with ConfigInvalid |
| Connection.MissingPropertyRejected | src/Connection.js:15-29 | a configuration lacking any one of host, port, protocol or key is rejected |
| Connection.HttpSchemeIsHttpOrHttps | src/Connection.js:20 | MatchesHttpScheme, the model of the pattern /^https?$/, accepts exactly "http" and "https" |
| Connection.BaseUrlRoundTrip | src/Connection.js:33 | BaseUrl's `protocol://host:port` can be read back into the protocol, host and port it was built from, even when the host contains ':' |
| Text.DecimalRoundTrip | src/Connection.js:33 | the decimal rendering of the port reads back as the port and contains no ':' |
| Connection.TestConfigurationAccepted | src/Connection.js:15-23 | ConfigShape accepts the configuration the tests use, and validation returns its four values |
| Connection.ConfigShapeConstrainsOnlyItsProperties | src/Connection.js:15-23 | ConfigShape allows any other property, and it accepts every number as the port because `minLength` on a number is ignored |
| Connection.ConfigShapeRejectsEachRule | src/Connection.js:17-22 | each rule rejects on its own: a non-number port, a host shorter than 3, a protocol not matching /^https?$/, an empty key |
| Connection.AbsentOrEmptyConfigurationRejected | src/Connection.js:25-29 | a missing configuration and `{}` both fail with ConfigInvalid |
| Connection.DiscoverZonesUrl | src/Connection.js:49-88 | a transport error with status 401 gives Unauthorised and any other transport error is passed on; a body that is not exactly one well-formed server gives InvalidResults; a valid body gives that server's zones_url |
| Connection.TestServerDiscovered | src/Connection.js:61-92 | an array holding the tests' server descriptor passes ServersShape and ServerShape, and yields its zones_url |
| Connection.ServersNotExactlyOneRejected | src/Connection.js:61-86 | by `exactLength: 1`, an array of zero or of several servers is rejected with InvalidResults |
| Connection.ServerMissingPropertyRejected | src/Connection.js:64-75 | a server lacking any one of its seven string properties is rejected with InvalidResults |
| Connection.UndecodedBodyRejected | src/Connection.js:42-86 | a string body, which is what a transport returns without the `json` option, and a null body are always rejected with InvalidResults |
| Connection.Connection.constructor | src/Connection.js:31-35 | a new connection is disconnected, has no zones URL, and baseURL is built from the configuration |
| Connection.Connection.New | src/Connection.js:12-36 | construction throws ConfigInvalid exactly when validation fails; otherwise it yields a fresh, disconnected connection whose baseURL is protocol://host:port |
| Connection.Connection.Connect | src/Connection.js:38-95 | requests baseURL + "/servers" with X-API-Key set to the key and no `json` option; on success stores the server's zones_url (overwriting any earlier one) and sets connected; on failure rejects with the classified error and changes no state; keeps connected iff a zones URL is stored |
| Text.IndexFrom | src/Zones.js:25 | the index found is where the pattern occurs, with no occurrence between the start and that index; when nothing is found, no occurrence exists |
| Text.ReplaceFirst | src/Zones.js:25 | replace with a string pattern substitutes only the leftmost occurrence and leaves a string without the pattern unchanged |
| Zones.CollectionPathDropsPlaceholder | src/Zones.js:25 | CollectionPath turns a template `prefix{/zone}suffix` (no '{' in prefix) into `prefixsuffix` |
| Zones.CollectionPathWithoutPlaceholder | src/Zones.js:25 | CollectionPath leaves a template without `{/zone}` unchanged |
| Zones.LocalhostCollectionPath | src/Zones.js:25 | `/servers/localhost/zones{/zone}` becomes `/servers/localhost/zones` |
| Zones.NewZones | src/Zones.js:8-16 | construction fails with "Expected Connection" exactly when no connection is given, and otherwise stores it |
| Zones.Zones.List | src/Zones.js:18-66 | without a zones URL, list rejects before any call; otherwise it issues one GET to baseURL + the collection path; it resolves exactly when the GET resolves with a list satisfying ZoneListShape, with that body unchanged; an invalid body gives InvalidResults, and a GET rejection is passed on |
| Zones.ListUrlAfterConnect | src/Zones.js:25-27 | for a connection whose stored template is `prefix{/zone}suffix` (no '{' in prefix), list requests baseURL + prefix + suffix |
| Zones.ListBeforeConnect | src/Zones.js:24-25 | on a connection that never connected, list makes no call and rejects |
| Zones.ZoneSummaryMissingPropertyRejected | src/Zones.js:31-50 | ZoneListShape rejects a zone summary lacking any one of its ten properties |
| Zones.TestZonesListed | src/Zones.js:31-60 | three copies of the tests' zone, which carries an extra `records` property, are returned unchanged; a null body is rejected with InvalidResults |
| Records.NewRecords | src/Records.js:8-16 | construction fails with "Expected Connection" exactly when no connection is given, and otherwise stores it |
| Records.Records.List | src/Records.js:18-59 | always delegates to zones.fetch(zone); passes on its rejection; resolves exactly when the fetched zone's records value satisfies RecordListShape, with exactly that value; a fetched value that is null or undefined gives a TypeError, and an invalid value gives InvalidResults |
| Records.Records.Add | src/Records.js:61-105 | guards run in order: a missing zone gives ZoneRequired whatever the record is, then a missing record gives RecordRequired, then an invalid record gives RecordInvalid; patchRRset is called exactly when all pass, with the same zone and the RRset built from the record, and its outcome is the result |
| Records.RRsetOfValidRecord | src/Records.js:97-104 | the RRset built by RRset carries the record's name and type, changetype "REPLACE" and the single record, and nothing else |
| Records.ValidRecordIsPresent | src/Records.js:72-95 | a record that passes the add schema is never rejected as missing and also passes the list schema |
| Records.AddedRecordIsListed | src/Records.js:97-104 | a zone holding the records array of the RRset that add sent lists exactly [record] |
| Records.TestZoneRecordsListed | src/Records.js:27-53 | a fetched zone whose records hold the tests' record satisfies RecordShape and RecordListShape and lists exactly [record] |
| Records.FetchedValueWithoutRecords | src/Records.js:27 | Property reads `records`: it is undefined on a string or on `{}`, which gives InvalidResults, and reading it from null gives a TypeError |
| Records.FetchRejectionPassedOn | src/Records.js:55-57 | any rejection from fetch, "zone must be supplied" included, is the rejection of list |
| Records.MissingArgumentsRejected | src/Records.js:67-75 | `add()` rejects with ZoneRequired and `add(zone)` with RecordRequired, and neither makes a call |
| Records.GuardTruthiness | src/Records.js:67-75 | Falsy follows JavaScript: "", 0, false and null count as missing, while "0", `{}` and `[]` count as present |
| Records.SetPtrRequired | src/Records.js:77-95 | RecordInputShape requires `set-ptr`: the tests' record without it is rejected with RecordInvalid; with it, add sends the RRset |

## Left out

- The HTTP transport (`request`) is left out. Each round trip's result is an
  input `Reply`, and the request that was sent is returned as a value.
- Promises and async sequencing are left out. Each operation settles once, as
  a sequential result. Overlapping `connect()` calls are not modelled.
- `connection.get`, `connection.patch`, `connection.makeRequest`,
  `connection.getZonesUrl`, `zones.fetch` and `zones.patchRRset` are not part
  of this model: their code is not in the modelled files. Calls to them are
  recorded, and their outcomes are inputs.
- The `schema-inspector` library is reduced to one predicate per schema. Its
  `format()` diagnostics are left out; errors carry only their fixed message
  prefixes.
- Zones.Zones.List and Records.Records.List check every element of a zone or
  record array. The library's positional reading of a one-entry `items` list
  is not modelled.
- Numbers are integers. Non-integer numbers, NaN and -0 are left out. So is
  the exponential rendering JavaScript uses for integers of 10^21 and more.
- String lengths count characters rather than UTF-16 code units.
- Property access on a primitive or an array yields `Undefined`. Built-in
  properties such as `length` are not modelled; the model reads only
  `records`.
- The wording of a TypeError message depends on the JavaScript engine. The
  model keeps only the property name.
- The constructor's `this.zones` and `this.records` assignments
  (src/Connection.js:34-35) are not fields of the class: the Zones and Records
  modules import Connection. Zones.NewZones and Records.NewRecords model those
  constructors instead.
- Zones.NewZones and Records.NewRecords model the `!connection` guard for a
  missing (null) connection only. Other falsy values cannot be a connection
  here.
- Debug logging, index.js, src/index.js and wallaby.js are left out.
