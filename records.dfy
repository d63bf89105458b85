/**
 * The record catalogue (src/Records.js): lists a zone's records and adds a
 * record by replacing the RRset that shares its name and type.
 */
module Records {
  import opened Wrappers
  import opened JsonValues
  import opened Api
  import Connection

  /** The schema of one listed record; every property required. */
  predicate RecordShape(v: Json) {
    && v.Obj?
    && StringAt(v.fields, "name")
    && StringAt(v.fields, "type")
    && NumberAt(v.fields, "ttl")
    && BoolAt(v.fields, "disabled")
    && StringAt(v.fields, "content")
  }

  /** The records schema: an array of records. */
  predicate RecordListShape(v: Json) {
    v.Arr? && forall i :: 0 <= i < |v.items| ==> RecordShape(v.items[i])
  }

  /** The schema a record to add must meet: the listed fields and a boolean `set-ptr`. */
  predicate RecordInputShape(v: Json) {
    && v.Obj?
    && StringAt(v.fields, "content")
    && StringAt(v.fields, "name")
    && NumberAt(v.fields, "ttl")
    && StringAt(v.fields, "type")
    && BoolAt(v.fields, "disabled")
    && BoolAt(v.fields, "set-ptr")
  }

  /** The RRset that replaces every record sharing `record`'s name and type by `record` alone. */
  function RRset(record: Json): Json
    requires record.Obj? && "name" in record.fields && "type" in record.fields
  {
    Obj(map[
      "name" := record.fields["name"],
      "type" := record.fields["type"],
      "changetype" := Str("REPLACE"),
      "records" := Arr([record])
    ])
  }

  /** A Records instance: the connection it was constructed with. */
  datatype Records = Records(connection: Connection.Connection) {

    /**
     * `list(zone)`: given the outcome `fetched` of `connection.zones.fetch(zone)`,
     * the call made and how the promise settles.
     */
    function List(zone: Json, fetched: Outcome<Json>): (run: Run<Json>)
      ensures run.call == Some(Fetch(zone))
      ensures fetched.Failure? ==> run.result == fetched
      ensures run.result.Success? <==>
        fetched.Success? && fetched.value.Obj? && "records" in fetched.value.fields
        && RecordListShape(fetched.value.fields["records"])
      ensures run.result.Success? ==> run.result.value == fetched.value.fields["records"]
      ensures fetched.Success? && (fetched.value.Undefined? || fetched.value.Null?) ==>
        run.result == Failure(TypeError("records"))
      ensures fetched.Success? && !fetched.value.Undefined? && !fetched.value.Null? && run.result.Failure? ==>
        run.result == Failure(InvalidResults)
    {
      var result :=
        match fetched
        case Failure(e) => Failure(e)
        case Success(zoneRecord) =>
          match Property(zoneRecord, "records")
          case None => Failure(TypeError("records"))
          case Some(records) =>
            if RecordListShape(records) then Success(records) else Failure(InvalidResults);
      Run(Some(Fetch(zone)), result)
    }

    /**
     * `add(zone, record)`: the guards in their order, then one call to
     * `connection.zones.patchRRset`, whose outcome `patched` becomes the result.
     */
    function Add(zone: Json, record: Json, patched: Outcome<Json>): (run: Run<Json>)
      ensures Falsy(zone) ==> run == Run(None, Failure(ZoneRequired))
      ensures !Falsy(zone) && Falsy(record) ==> run == Run(None, Failure(RecordRequired))
      ensures !Falsy(zone) && !Falsy(record) && !RecordInputShape(record) ==>
        run == Run(None, Failure(RecordInvalid))
      ensures run.call.Some? <==> !Falsy(zone) && RecordInputShape(record)
      ensures run.call.Some? ==> run.call.value == PatchRRset(zone, RRset(record)) && run.result == patched
    {
      if Falsy(zone) then Run(None, Failure(ZoneRequired))
      else if Falsy(record) then Run(None, Failure(RecordRequired))
      else if !RecordInputShape(record) then Run(None, Failure(RecordInvalid))
      else Run(Some(PatchRRset(zone, RRset(record))), patched)
    }
  }

  /** `new Records(connection)`: throws without a connection. */
  function NewRecords(connection: Connection.Connection?): (r: Outcome<Records>)
    ensures r.Failure? <==> connection == null
    ensures r.Failure? ==> r.error == ConnectionRequired
    ensures r.Success? ==> r.value.connection == connection
  {
    if connection == null then Failure(ConnectionRequired) else Success(Records(connection))
  }

  /**
   * The RRset sent for a valid record: keyed by the record's name and type,
   * replacing, holding that one record, and itself carrying string `name`,
   * `type` and `changetype` properties with a `records` array.
   */
  lemma RRsetOfValidRecord(record: Json)
    requires RecordInputShape(record)
    ensures var rrset := RRset(record);
      && rrset.Obj?
      && rrset.fields.Keys == {"name", "type", "changetype", "records"}
      && StringAt(rrset.fields, "name") && rrset.fields["name"] == record.fields["name"]
      && StringAt(rrset.fields, "type") && rrset.fields["type"] == record.fields["type"]
      && rrset.fields["changetype"] == Str("REPLACE")
      && rrset.fields["records"] == Arr([record])
      && RecordListShape(rrset.fields["records"])
  {
  }

  /** A record valid for `add` is never rejected as missing and satisfies the listed-record schema. */
  lemma ValidRecordIsPresent(record: Json)
    requires RecordInputShape(record)
    ensures !Falsy(record) && RecordShape(record)
  {
  }

  /**
   * Round trip: once the server stores the RRset that `add` sent, a fetched
   * zone holding it lists exactly `[record]`.
   */
  lemma AddedRecordIsListed(rs: Records, zone: Json, record: Json, patched: Outcome<Json>, other: map<string, Json>)
    requires rs.Add(zone, record, patched).call.Some?
    ensures var rrset := rs.Add(zone, record, patched).call.value.rrset;
      rs.List(zone, Success(Obj(other["records" := rrset.fields["records"]]))).result
        == Success(Arr([record]))
  {
  }

  /** The record the client's tests use. */
  const TestRecord: Json :=
    Obj(map[
      "name" := Str("server.test.net"),
      "type" := Str("A"),
      "ttl" := Num(3600),
      "disabled" := Bool(false),
      "content" := Str("192.168.0.1")
    ])

  /** A fetched zone whose `records` holds one well-formed record lists exactly that record. */
  lemma TestZoneRecordsListed(rs: Records, zone: Json, fields: map<string, Json>)
    ensures rs.List(zone, Success(Obj(fields["records" := Arr([TestRecord])]))).result
      == Success(Arr([TestRecord]))
  {
  }

  /** A fetched value without a `records` object: a string has none, null throws. */
  lemma FetchedValueWithoutRecords(rs: Records, zone: Json, s: string)
    ensures rs.List(zone, Success(Str(s))).result == Failure(InvalidResults)
    ensures rs.List(zone, Success(Obj(map[]))).result == Failure(InvalidResults)
    ensures rs.List(zone, Success(Null)).result == Failure(TypeError("records"))
  {
  }

  /** Whatever `fetch` rejects with, `list` rejects with, "zone must be supplied" included. */
  lemma FetchRejectionPassedOn(rs: Records, zone: Json, message: string)
    ensures rs.List(zone, Failure(ZoneRequired)).result == Failure(ZoneRequired)
    ensures rs.List(zone, Failure(Other(message))).result == Failure(Other(message))
  {
  }

  /** `add()` and `add(zone)`: the missing argument is named, and nothing is sent. */
  lemma MissingArgumentsRejected(rs: Records, patched: Outcome<Json>)
    ensures rs.Add(Undefined, Undefined, patched) == Run(None, Failure(ZoneRequired))
    ensures rs.Add(Str("abcd"), Undefined, patched) == Run(None, Failure(RecordRequired))
  {
  }

  /**
   * The guards use JavaScript truthiness: "", 0, false and null are missing;
   * "0", an empty object and an empty array are present.
   */
  lemma GuardTruthiness(rs: Records, record: Json, patched: Outcome<Json>)
    ensures rs.Add(Str(""), record, patched).result == Failure(ZoneRequired)
    ensures rs.Add(Num(0), record, patched).result == Failure(ZoneRequired)
    ensures rs.Add(Bool(false), record, patched).result == Failure(ZoneRequired)
    ensures rs.Add(Null, record, patched).result == Failure(ZoneRequired)
    ensures rs.Add(Str("0"), Str(""), patched).result == Failure(RecordRequired)
    ensures rs.Add(Str("0"), Obj(map[]), patched).result == Failure(RecordInvalid)
    ensures rs.Add(Arr([]), Arr([]), patched).result == Failure(RecordInvalid)
  {
  }

  /** `set-ptr` is required: the listed record alone is invalid, with `set-ptr` it is sent. */
  lemma SetPtrRequired(rs: Records, patched: Outcome<Json>)
    ensures rs.Add(Str("abcd"), TestRecord, patched) == Run(None, Failure(RecordInvalid))
    ensures var record := Obj(TestRecord.fields["set-ptr" := Bool(false)]);
      rs.Add(Str("abcd"), record, patched) == Run(Some(PatchRRset(Str("abcd"), RRset(record))), patched)
  {
  }
}
