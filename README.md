# Cashramp Go SDK client: request/response pipeline

A model of the request/response pipeline of the Cashramp GraphQL SDK client (`cashramp.go`). It covers four parts:

- **Client construction.** `InitialiseClient`, `validateEnv` and `validateSecretKey` turn an environment tag and a secret key into a `Client`, or into an error. The tag may come from the argument or from `CASHRAMP_ENV`. The secret may come from the argument or from `CASHRAMP_SECRET_KEY`. The tags "test" and "live" select the staging and the production GraphQL endpoint.
- **The untyped tier.** `Client.SendRequest` builds a POST whose body is `{query, variables}`, with a JSON content type and a bearer token. It then classifies the server's answer into a `CashrampResponse{Success, Result, Error}` and an optional Go error:
  - a transport failure is returned as the error, with no response;
  - a non-200 status gives the status line as `Error`;
  - a 200 body that does not decode gives the decoder's message, and that same error is also returned;
  - a 200 with GraphQL `errors` gives the first message;
  - otherwise `Result` is `data[name]`.
- **The crash path.** A 200 whose `errors` list is present but empty makes the source index an empty slice. The model gives that case an explicit `Panicked` outcome.
- **The typed tier.** `SendRequestTyped` passes a transport error on unchanged. It turns an unsuccessful response into `"request failed: " + Error`. Only a successful result reaches the JSON decoder.

Modules:
- `GoValues`: Go's nil-able values (`Option`) and `error` values (`Error`). `Call<T>` stands for the `(T, error)` return convention, or a panic. `Contains` is substring search.
- `Json`: the decoded JSON `Value`. `Null` is Go's nil.
- `Config`: `Client` and the three construction functions. The `os.Getenv` results are the parameters `cashrampEnv` and `cashrampSecretKey`.
- `Transport`: the request, the HTTP outcome, the GraphQL envelope and `SendRequest`. The HTTP client is the parameter `exchange: HttpRequest -> HttpOutcome`.
- `Typed`: `SendRequestTyped`. It has two parameters: the zero value of `T`, and an abstract decoder `decode: Value -> (T, Option<Error>)`.

Three behaviours of the code are worth stating plainly:
- cashramp.go:96 tests the `errors` list for nil, not for being non-empty, so a present but empty list reaches the index at line 98 and crashes.
- cashramp.go:102 indexes `data` even when it is nil, so a 200 with no `data` at all is a success with a nil result.
- cashramp.go:277 gives the missing-secret message "please provide your API secret key".

## Model

| member | source | states |
|---|---|---|
| Config.ValidateEnv | cashramp.go:251-268 | The argument selects the tag, and CASHRAMP_ENV is used only when the argument is empty. There is no error exactly when the tag is "test" or "live". These give the staging and the production endpoint under `api.useaccrue.com`. Any other tag, including an empty one, gives an empty URL and the "not a valid env" error built from that tag. |
| Config.ValidateSecretKey | cashramp.go:270-286 | A non-empty argument is returned unchanged. An empty one falls back to CASHRAMP_SECRET_KEY. If both are empty, the result is the error "please provide your API secret key". A secret comes without an error exactly when it is non-empty. |
| Config.InitialiseClient | cashramp.go:44-60 | A client comes back exactly when there is no error. An environment error wins over a secret error. When both validations pass, a client is returned. It holds the resolved URL, which is one of the two endpoints, and the resolved secret, which is non-empty. |
| Config.InvalidEnvironmentIsNamed | cashramp.go:259-267 | An unrecognised tag yields no client, whatever the secret sources hold, and the error's text contains the offending tag. |
| Config.ClientUrlNamesHost | cashramp.go:259-263 | Every constructed client's URL contains the API host. It is the staging URL exactly when the selected tag is "test". |
| Transport.NewRequest | cashramp.go:64-80 | A request is a POST to the client's URL. Its body carries the caller's query and variables unchanged. It has exactly two headers: `Content-Type: application/json`, and `Authorization`, which is "Bearer " followed by exactly the client's secret. |
| Transport.SendRequest | cashramp.go:62-111 | For a client built by InitialiseClient, it panics exactly on a 200 whose `errors` list is present and empty. A response comes back exactly when the server sent a status. A Go error comes back exactly on a transport failure, which is passed on unchanged, or on an undecodable 200 body. A successful response has an empty error, and a failed one has a nil result. Non-200 gives the status line as the error. A 200 with errors gives the first message. Success happens exactly for a decoded 200 without errors, and its result is `data[name]`, nil when `data` or the key is missing. |
| Transport.MockServerAcceptsRequest | cashramp_test.go:17-21 | Every request passes the test server's checks: a JSON content type, and an Authorization header containing "Bearer ". |
| Transport.DataRoundTrip | cashramp_test.go:68-92 | A 200 answer `{"data": {name: x}}` yields success with result `x`, an empty error text and no Go error. |
| Typed.SendRequestTyped | cashramp.go:231-249 | A panic in SendRequest propagates. A SendRequest error is returned unchanged, with the zero T. An unsuccessful response gives the zero T and the error "request failed: " + its error text. Only a successful response reaches the decoder, and the decoder's answer is returned. A typed call with no error went through a successful response. |
| Typed.RequestFailedNamesCause | cashramp_test.go:128-142 | A failed response reaches a typed caller as the zero T and an error whose text contains both "request failed" and the response's error text. |
| Typed.MissingFieldGivesZero | cashramp.go:242-248 | Take a decoder that maps JSON null to the zero value, as Go's does. A 200 without errors whose data lacks the operation's field then gives the zero T and no error at the typed tier. |

## Left out

- HTTP transport (`http.NewRequest`, `httpClient.Do`, reading bodies): the `exchange` parameter stands for all of it. Its `TransportFailed` outcome covers the three early returns before a status is known (cashramp.go:69-84): marshalling failed, the request could not be built, or the network failed. The source treats all three alike, returning a nil response and the error.
- `encoding/json`: the request body is kept as the structured `{query, variables}` record, not serialised bytes. A 200 body reaches the model already decoded into the GraphQL envelope, or as the decoder's error. The re-encoding in SendRequestTyped (cashramp.go:243-246) is folded into the abstract `decode`: values that came out of the JSON decoder always re-encode. Floating-point numbers are not modelled (`Number` holds an integer).
- `os.Getenv`: its results are parameters. An unset variable is the empty string, as in Go.
- The `http.Client` handle inside `Client`: it is the `exchange` parameter of `SendRequest`.
- Transport.SendRequest: the panics of a nil `*Client` (returned by InitialiseClient on error, cashramp.go:47 and 52, and dereferenced at line 74) and of a zero-value `Client{}` (whose nil `httpClient` is called at line 81) are not modelled, because the model's `Client` is always a value and `exchange` is total.
- The per-operation wrappers (cashramp.go:113-228): each passes a fixed name, document and variables to `SendRequestTyped` and maps an error to nil or false. They make no decisions of their own.
- Query and mutation documents (queries/queries.go, mutations/mutations.go) and the domain types (types/types.go): opaque strings and record layouts.
- Idempotence of repeated calls: every member is a function of its inputs, so it holds by construction.
