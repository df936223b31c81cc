/** The untyped tier, Client.SendRequest (cashramp.go): build the GraphQL POST
    and classify what the server answered into a CashrampResponse and an
    optional Go error. The HTTP round trip is the `exchange` parameter; it also
    stands for the JSON encoding of the request and the JSON decoding of a 200
    body, whose results it reports through HttpOutcome. */
module Transport {
  import opened GoValues
  import opened Json
  import opened Config

  /** The JSON body of every request: `{"query": ..., "variables": ...}`. */
  datatype RequestBody = RequestBody(query: string, variables: Value)

  /** An outbound HTTP request; `header` holds one value per key, as `Header.Set` leaves it. */
  datatype HttpRequest = HttpRequest(verb: string, url: string, header: map<string, string>, body: RequestBody)

  /** One entry of a GraphQL `errors` list. */
  datatype GraphQLError = GraphQLError(message: string)

  /** A 200 body decoded as the GraphQL envelope `{data, errors}`. A field that
      is absent or `null` decodes to None; `"errors": []` decodes to Some([]),
      a non-nil empty slice in the source. */
  datatype Envelope =
    | Undecodable(err: Error)
    | Decoded(data: Option<map<string, Value>>, errors: Option<seq<GraphQLError>>)

  /** What the transport reports for a request: a failure before any status
      arrived (encoding the body, building the request or the network), or a
      status code, its status line (such as "500 Internal Server Error") and the
      decoded body. */
  datatype HttpOutcome =
    | TransportFailed(err: Error)
    | Response(statusCode: int, status: string, body: Envelope)

  /** The untyped result. `result` is Null for Go's nil. */
  datatype CashrampResponse = CashrampResponse(success: bool, result: Value, error: string)

  const AuthScheme := "Bearer "
  const IndexPanic := "runtime error: index out of range [0] with length 0"

  /** The request sent for `query` and `variables` (nil variables are Null). */
  function NewRequest(c: Client, query: string, variables: Value): (req: HttpRequest)
    ensures req.verb == "POST" && req.url == c.apiUrl
    ensures req.body.query == query && req.body.variables == variables
    ensures req.header.Keys == {"Content-Type", "Authorization"}
    ensures req.header["Content-Type"] == "application/json"
    ensures AuthScheme <= req.header["Authorization"]
    ensures req.header["Authorization"][|AuthScheme|..] == c.secretKey
  {
    var header := map["Content-Type" := "application/json"];
    var header := header["Authorization" := AuthScheme + c.secretKey];
    HttpRequest("POST", c.apiUrl, header, RequestBody(query, variables))
  }

  /** `data[name]` on a possibly nil map: Null when `data` or the key is missing. */
  function Field(data: Option<map<string, Value>>, name: string): Value {
    if data.Some? && name in data.value then data.value[name] else Null
  }

  /** The outcomes that SendRequest reports through its Go error: the request
      failed in transport, or a 200 body did not decode. */
  predicate FailsInTransport(o: HttpOutcome) {
    o.TransportFailed? || (o.statusCode == 200 && o.body.Undecodable?)
  }

  /** The only panic for a client built by InitialiseClient: a 200 whose
      `errors` list is present but empty. */
  predicate EmptyErrorList(o: HttpOutcome) {
    o.Response? && o.statusCode == 200 && o.body.Decoded? && o.body.errors == Some([])
  }

  /** SendRequest: classify the transport's answer to NewRequest(c, query, variables). */
  function SendRequest(c: Client, name: string, query: string, variables: Value,
                       exchange: HttpRequest -> HttpOutcome): (r: Call<Option<CashrampResponse>>)
    ensures var o := exchange(NewRequest(c, query, variables));
      && (r.Panicked? <==> EmptyErrorList(o))
      && (r.Returned? ==>
          && (r.value.Some? <==> o.Response?)
          && (r.err.Some? <==> FailsInTransport(o)))
    // a transport failure is returned unchanged, with no response
    ensures var o := exchange(NewRequest(c, query, variables));
      o.TransportFailed? ==> r == Returned(None, Some(o.err))
    // exactly one of: success with a result, or failure with an error text
    ensures r.Returned? && r.value.Some? ==>
      var resp := r.value.value;
      && (resp.success ==> resp.error == "")
      && (!resp.success ==> resp.result == Null)
    ensures var o := exchange(NewRequest(c, query, variables));
      o.Response? && o.statusCode != 200 ==>
        r == Returned(Some(CashrampResponse(false, Null, o.status)), None)
    ensures var o := exchange(NewRequest(c, query, variables));
      o.Response? && o.statusCode == 200 && o.body.Undecodable? ==>
        r == Returned(Some(CashrampResponse(false, Null, o.body.err.message)), Some(o.body.err))
    ensures var o := exchange(NewRequest(c, query, variables));
      o.Response? && o.statusCode == 200 && o.body.Decoded? && o.body.errors.Some? && o.body.errors.value != [] ==>
        r == Returned(Some(CashrampResponse(false, Null, o.body.errors.value[0].message)), None)
    // success exactly for a decoded 200 without `errors`; the result is data[name]
    ensures var o := exchange(NewRequest(c, query, variables));
      && (r.Returned? && r.value.Some? && r.value.value.success <==>
          o.Response? && o.statusCode == 200 && o.body.Decoded? && o.body.errors.None?)
      && (r.Returned? && r.value.Some? && r.value.value.success ==>
          r.value.value.result == Field(o.body.data, name) && r.err.None?)
  {
    match exchange(NewRequest(c, query, variables))
    case TransportFailed(err) => Returned(None, Some(err))
    case Response(statusCode, status, body) =>
      if statusCode == 200 then
        match body
        case Undecodable(err) => Returned(Some(CashrampResponse(false, Null, err.message)), Some(err))
        case Decoded(data, errors) =>
          if errors.Some? then
            if |errors.value| == 0 then Panicked(IndexPanic)
            else Returned(Some(CashrampResponse(false, Null, errors.value[0].message)), None)
          else Returned(Some(CashrampResponse(true, Field(data, name), "")), None)
      else Returned(Some(CashrampResponse(false, Null, status)), None)
  }

  /** The mock server's checks on every request pass: the content type is JSON
      and the Authorization header contains "Bearer ". */
  lemma {:induction false} MockServerAcceptsRequest(c: Client, query: string, variables: Value)
    ensures var req := NewRequest(c, query, variables);
      && req.header["Content-Type"] == "application/json"
      && Contains(req.header["Authorization"], "Bearer ")
  {
    var req := NewRequest(c, query, variables);
    assert AuthScheme <= req.header["Authorization"][0..];
  }

  /** A server answering `{"data": {name: x}}` with 200 yields success with `x`. */
  lemma {:induction false} DataRoundTrip(c: Client, name: string, query: string, variables: Value,
                                         exchange: HttpRequest -> HttpOutcome, status: string, x: Value)
    requires exchange(NewRequest(c, query, variables)) == Response(200, status, Decoded(Some(map[name := x]), None))
    ensures SendRequest(c, name, query, variables, exchange) == Returned(Some(CashrampResponse(true, x, "")), None)
  {
  }
}
