/** The typed tier, SendRequestTyped (cashramp.go): turn the untyped response
    into a value of the caller's type T, or an error. `zero` is Go's zero value
    of T; `decode` is `json.Unmarshal` of the re-encoded result into a fresh
    zero T, giving back the filled value and the decoder's error (it reports
    failures through the error and does not panic). */
module Typed {
  import opened GoValues
  import opened Json
  import opened Config
  import opened Transport

  const RequestFailedPrefix := "request failed: "

  /** SendRequestTyped: a SendRequest error is passed on unchanged, a failed
      response becomes "request failed: " + its error text, both with the zero
      T; only a successful response reaches the decoder, and its answer is
      returned as is. A panic in SendRequest is not recovered. */
  function SendRequestTyped<T>(c: Client, name: string, query: string, variables: Value,
                               exchange: HttpRequest -> HttpOutcome,
                               zero: T, decode: Value -> (T, Option<Error>)): (r: Call<T>)
    ensures var s := SendRequest(c, name, query, variables, exchange);
      && (s.Panicked? ==> r == Panicked(s.reason))
      && (s.Returned? && s.err.Some? ==> r == Returned(zero, s.err))
      && (s.Returned? && s.err.None? ==>
          var resp := s.value.value;
          && (!resp.success ==> r == Returned(zero, Some(Error(RequestFailedPrefix + resp.error))))
          && (resp.success ==> r == Returned(decode(resp.result).0, decode(resp.result).1)))
    // a typed call without an error went through a successful response
    ensures var s := SendRequest(c, name, query, variables, exchange);
      r.Returned? && r.err.None? ==> s.Returned? && s.err.None? && s.value.value.success
  {
    var s := SendRequest(c, name, query, variables, exchange);
    if s.Panicked? then Panicked(s.reason)
    else if s.err.Some? then Returned(zero, s.err)
    else
      var resp := s.value.value;
      if !resp.success then Returned(zero, Some(Error(RequestFailedPrefix + resp.error)))
      else
        var (out, err) := decode(resp.result);
        Returned(out, err)
  }

  /** A failed response reaches a typed caller as an error whose text carries
      the fixed marker "request failed" and the response's own error text. */
  lemma {:induction false} RequestFailedNamesCause<T>(c: Client, name: string, query: string, variables: Value,
                                                      exchange: HttpRequest -> HttpOutcome,
                                                      zero: T, decode: Value -> (T, Option<Error>))
    requires var s := SendRequest(c, name, query, variables, exchange);
      s.Returned? && s.err.None? && !s.value.value.success
    ensures var s := SendRequest(c, name, query, variables, exchange);
            var r := SendRequestTyped(c, name, query, variables, exchange, zero, decode);
      && r.Returned? && r.value == zero && r.err.Some?
      && Contains(r.err.value.message, "request failed")
      && Contains(r.err.value.message, s.value.value.error)
  {
    var cause := SendRequest(c, name, query, variables, exchange).value.value.error;
    var message := RequestFailedPrefix + cause;
    assert "request failed" <= message[0..];
    assert cause <= message[|RequestFailedPrefix|..];
  }

  /** Go's decoder leaves the zero value in place for a JSON null. */
  ghost predicate NullDecodesToZero<T>(zero: T, decode: Value -> (T, Option<Error>)) {
    decode(Null) == (zero, None)
  }

  /** A 200 without `errors` whose `data` lacks the operation's field is not an
      error at either tier: with a decoder that maps null to the zero value,
      the typed call returns the zero T and no error. */
  lemma {:induction false} MissingFieldGivesZero<T>(c: Client, name: string, query: string, variables: Value,
                                                       exchange: HttpRequest -> HttpOutcome,
                                                       zero: T, decode: Value -> (T, Option<Error>))
    requires NullDecodesToZero(zero, decode)
    requires var o := exchange(NewRequest(c, query, variables));
      o.Response? && o.statusCode == 200 && o.body.Decoded? && o.body.errors.None?
      && (o.body.data.Some? ==> name !in o.body.data.value)
    ensures SendRequestTyped(c, name, query, variables, exchange, zero, decode) == Returned(zero, None)
  {
  }
}
