/**
 * What crosses the boundary of the client: the errors its promises reject
 * with, the outcome of one HTTP round trip, the requests it issues and the
 * calls it makes to collaborators whose code is not part of this model.
 */
module Api {
  import opened Wrappers
  import opened JsonValues

  /** A network-level error from the HTTP transport, passed on verbatim. */
  datatype TransportError = TransportError(code: string, message: string)

  datatype Error =
    | ConfigInvalid                    // "Configuration failed validation"
    | Unauthorised                     // "Unauthorised"
    | Transport(cause: TransportError) // the transport's own error object
    | InvalidResults                   // "API returned invalid results"
    | ZoneRequired                     // "zone must be supplied"
    | RecordRequired                   // "record must be supplied"
    | RecordInvalid                    // "Specified record is invalid"
    | ConnectionRequired               // "Expected Connection as constructor parameter"
    | TypeError(property: string)      // reading `property` of undefined or null
    | Other(message: string)           // any other rejection from a collaborator outside the model

  type Outcome<T> = Result<T, Error>

  /**
   * What the HTTP transport hands its callback: a (truthy) error together with
   * the response's status code when there was a response, or the body. A body
   * the transport was not asked to decode arrives as `Body(Str(raw))`.
   */
  datatype Reply =
    | Errored(cause: TransportError, status: Option<int>)
    | Body(body: Json)

  /**
   * An HTTP request as given to the transport: its URL, its headers, and
   * whether the `json` option asks the transport to decode the body.
   */
  datatype Request = Request(url: string, headers: map<string, string>, json: bool)

  /** A call into a collaborator whose code is not part of this model. */
  datatype Call =
    | Get(url: string)                     // connection.get(url)
    | Fetch(zone: Json)                    // connection.zones.fetch(zone)
    | PatchRRset(zone: Json, rrset: Json)  // connection.zones.patchRRset(zone, rrset)

  /** One run of an operation: the call it made, if any, and how it settled. */
  datatype Run<T> = Run(call: Option<Call>, result: Outcome<T>)
}
