/** The API gateway, `ApiClient._request` (script.js:16-49): how a request's
    headers and body are chosen, and how a response is classified into the value
    the caller receives and the error that is reported.

    The network, `fetch` and JSON decoding are external: a request is returned as
    a value, and a response is given as an abstract record that already says
    whether its body decodes. */
module Gateway {
  import opened Records

  const AuthorizationHeader := "Authorization"
  const ContentTypeHeader := "Content-Type"
  const BearerPrefix := "Bearer "
  const JsonContentType := "application/json"
  /** What fetch sends for a URLSearchParams body when no Content-Type is set. */
  const FormContentType := "application/x-www-form-urlencoded;charset=UTF-8"
  /** What fetch sends for a string body when no Content-Type is set. */
  const PlainTextContentType := "text/plain;charset=UTF-8"
  /** The message used when an error response carries no usable detail. */
  const DefaultErrorText := "오류가 발생했습니다."
  /** The prefix of every error notice the gateway shows. */
  const ErrorToastPrefix := "오류: "

  // ---------------------------------------------------------------------------
  // Request shape (script.js:18-32)
  // ---------------------------------------------------------------------------

  /** A serialised body: `new URLSearchParams(body)` or `JSON.stringify(body)`. */
  datatype Encoded<B> = UrlEncoded(params: B) | JsonText(document: B)

  /** The options handed to fetch. */
  datatype Request<B> = Request(verb: string, headers: map<string, string>, body: Option<Encoded<B>>)

  /** The headers and body `_request` builds from the session token, the optional
      body and the `isFormData` flag. A body object is always truthy, so "a body
      is given" is `body.Some?`. */
  function BuildRequest<B>(verb: string, token: Option<string>, body: Option<B>, isFormData: bool): (r: Request<B>)
    ensures r.verb == verb
    ensures r.headers.Keys <= {AuthorizationHeader, ContentTypeHeader}
    ensures AuthorizationHeader in r.headers <==> Truthy(token)
    ensures Truthy(token) ==> r.headers[AuthorizationHeader] == BearerPrefix + token.value
    ensures ContentTypeHeader in r.headers <==> body.Some? && !isFormData
    ensures ContentTypeHeader in r.headers ==> r.headers[ContentTypeHeader] == JsonContentType
    ensures r.body.Some? <==> body.Some?
    ensures body.Some? ==> r.body.value.UrlEncoded? == isFormData
  {
    var auth := if Truthy(token) then map[AuthorizationHeader := BearerPrefix + token.value] else map[];
    match body
    case None => Request(verb, auth, None)
    case Some(b) =>
      if isFormData then Request(verb, auth, Some(UrlEncoded(b)))
      else Request(verb, auth[ContentTypeHeader := JsonContentType], Some(JsonText(b)))
  }

  /** The token a server reads from a request: the text after the bearer prefix
      of the Authorization header. */
  function BearerToken(headers: map<string, string>): (t: Option<string>)
  {
    if AuthorizationHeader in headers
       && BearerPrefix <= headers[AuthorizationHeader]
    then Some(headers[AuthorizationHeader][|BearerPrefix|..])
    else None
  }

  /** The Content-Type a server receives: the header the client set, or else the
      one fetch derives from the kind of body. */
  function EffectiveContentType<B>(r: Request<B>): (ct: Option<string>)
  {
    if ContentTypeHeader in r.headers then Some(r.headers[ContentTypeHeader])
    else match r.body
      case None => None
      case Some(UrlEncoded(_)) => Some(FormContentType)
      case Some(JsonText(_)) => Some(PlainTextContentType)
  }

  /** How a server decodes a body: with the decoder its Content-Type names, which
      succeeds only on a body of that encoding. */
  function ReadBody<B>(r: Request<B>): (b: Option<B>)
  {
    match r.body
    case None => None
    case Some(UrlEncoded(p)) => if EffectiveContentType(r) == Some(FormContentType) then Some(p) else None
    case Some(JsonText(d)) => if EffectiveContentType(r) == Some(JsonContentType) then Some(d) else None
  }

  /** The server recovers exactly the session token when it is truthy, and finds
      none otherwise. */
  lemma BearerRoundTrip<B>(verb: string, token: Option<string>, body: Option<B>, isFormData: bool)
    ensures BearerToken(BuildRequest(verb, token, body, isFormData).headers)
            == if Truthy(token) then token else None
  {
  }

  /** Every body reaches the server under a Content-Type that decodes it: form
      bodies as form data, the others as JSON. */
  lemma BodyRoundTrip<B>(verb: string, token: Option<string>, body: Option<B>, isFormData: bool)
    ensures var r := BuildRequest(verb, token, body, isFormData);
            ReadBody(r) == body
            && EffectiveContentType(r) == (if body.None? then None
                                           else if isFormData then Some(FormContentType)
                                           else Some(JsonContentType))
  {
  }

  // ---------------------------------------------------------------------------
  // Outcome classification (script.js:34-48)
  // ---------------------------------------------------------------------------

  /** What `response.json()` yields: a parse failure with its message, or the
      decoded value together with its `detail` member ("" when absent or falsy). */
  datatype Payload<T> = NotJson(parseError: string) | Json(value: T, detail: string)

  /** A response; `ok` is derived from the status as fetch does. */
  datatype Response<T> = Response(status: int, statusText: string, payload: Payload<T>)
  {
    predicate Ok() { 200 <= status <= 299 }
  }

  /** What `await fetch(...)` gives: a response, or a thrown error with its message. */
  datatype Exchange<T> = Received(response: Response<T>) | Thrown(error: string)

  /** The tagged result the gateway's three return paths stand for. */
  datatype Outcome<T> = Body(value: T) | NoContent | Failed(message: string)

  /** The message of the error raised for a non-ok response: the body's `detail`,
      or the status text when the body does not decode, or the default text when
      that is empty. */
  function ErrorText<T>(r: Response<T>): (m: string)
    ensures m != ""
    ensures r.payload.Json? && r.payload.detail != "" ==> m == r.payload.detail
    ensures r.payload.NotJson? && r.statusText != "" ==> m == r.statusText
    ensures (if r.payload.Json? then r.payload.detail else r.statusText) == "" ==> m == DefaultErrorText
  {
    var detail := if r.payload.Json? then r.payload.detail else r.statusText;
    if detail != "" then detail else DefaultErrorText
  }

  /** The classification of an exchange, with an undecodable success body
      reported like every other failure (see the Findings in README.md for the
      code as written). */
  function Classify<T>(e: Exchange<T>): (o: Outcome<T>)
    ensures o.Body? <==> e.Received? && e.response.Ok() && e.response.status != 204 && e.response.payload.Json?
    ensures o.Body? ==> o.value == e.response.payload.value
    ensures o.NoContent? <==> e.Received? && e.response.status == 204
    ensures e.Thrown? ==> o == Failed(e.error)
    ensures e.Received? && !e.response.Ok() ==> o == Failed(ErrorText(e.response))
    ensures e.Received? && e.response.Ok() && e.response.status != 204 && e.response.payload.NotJson?
            ==> o == Failed(e.response.payload.parseError)
  {
    match e
    case Thrown(msg) => Failed(msg)
    case Received(r) =>
      if !r.Ok() then Failed(ErrorText(r))
      else if r.status == 204 then NoContent
      else match r.payload
        case NotJson(err) => Failed(err)
        case Json(v, _) => Body(v)
  }

  /** The value `_request` resolves to: the body, or `null`. */
  function Resolve<T>(o: Outcome<T>): (v: Option<T>)
  {
    match o
    case Body(v) => Some(v)
    case _ => None
  }

  /** The error notice `_request` shows, if any. */
  function ErrorToast<T>(o: Outcome<T>): (notice: Option<string>)
  {
    match o
    case Failed(m) => Some(ErrorToastPrefix + m)
    case _ => None
  }

  /** `null` stands for two outcomes: "no content" and "failed". Only the error
      notice tells them apart, and a reported error always comes with `null`. */
  lemma NullCollapse<T>(e: Exchange<T>)
    ensures Resolve(Classify(e)).None? <==> Classify(e).NoContent? || Classify(e).Failed?
    ensures ErrorToast(Classify(e)).Some? ==> Resolve(Classify(e)).None?
    ensures Resolve(Classify(e)).None? && ErrorToast(Classify(e)).None?
            <==> e.Received? && e.response.status == 204
  {
  }

  /** A 204 and a 404 resolve to the same `null`. */
  lemma NullIsAmbiguous()
    ensures var deleted: Exchange<int> := Received(Response(204, "No Content", NotJson("")));
            var missing: Exchange<int> := Received(Response(404, "Not Found", Json(0, "Student not found")));
            Resolve(Classify(deleted)) == Resolve(Classify(missing)) == None
            && ErrorToast(Classify(deleted)) == None
            && ErrorToast(Classify(missing)) == Some(ErrorToastPrefix + "Student not found")
  {
  }

  /** Every failure of an HTTP response is reported with a non-empty message. */
  lemma ResponseFailureHasMessage<T>(e: Exchange<T>)
    requires e.Received? && !e.response.Ok()
    ensures ErrorToast(Classify(e)).Some?
    ensures |ErrorToast(Classify(e)).value| > |ErrorToastPrefix|
  {
  }

  // ---------------------------------------------------------------------------
  // The code as written
  // ---------------------------------------------------------------------------

  /** How the promise `_request` returns settles: resolved with a value after
      showing an optional notice, or rejected with a reason. */
  datatype Settlement<T> = Resolved(value: Option<T>, toast: Option<string>) | Rejected(reason: string)

  /** `_request` as written. `return response.json()` inside the `try` block
      hands back the pending promise without awaiting it, so a parse failure of a
      successful response escapes the `catch`: the promise rejects and no notice
      is shown. */
  function RequestAsWritten<T>(e: Exchange<T>): (s: Settlement<T>)
    ensures s.Rejected? <==> e.Received? && e.response.Ok() && e.response.status != 204 && e.response.payload.NotJson?
    ensures s.Rejected? ==> s.reason == e.response.payload.parseError
    ensures e.Thrown? ==> s == Resolved(None, Some(ErrorToastPrefix + e.error))
    ensures e.Received? && !e.response.Ok() ==> s == Resolved(None, Some(ErrorToastPrefix + ErrorText(e.response)))
    ensures e.Received? && e.response.status == 204 ==> s == Resolved(None, None)
    ensures s.Resolved? && s.value.Some? <==> e.Received? && e.response.Ok() && e.response.status != 204 && e.response.payload.Json?
    ensures s.Resolved? && s.value.Some? ==> s.value.value == e.response.payload.value && s.toast.None?
  {
    match e
    case Thrown(msg) => Resolved(None, Some(ErrorToastPrefix + msg))
    case Received(r) =>
      if !r.Ok() then Resolved(None, Some(ErrorToastPrefix + ErrorText(r)))
      else if r.status == 204 then Resolved(None, None)
      else match r.payload
        case NotJson(err) => Rejected(err)
        case Json(v, _) => Resolved(Some(v), None)
  }

  /** The corrected gateway settles through the tagged outcome. */
  function Settle<T>(e: Exchange<T>): (s: Settlement<T>)
    ensures s.Resolved?
    ensures s.value.None? ==> Classify(e).NoContent? || Classify(e).Failed?
    ensures Classify(e).Failed? ==> s.value.None?
    ensures Classify(e).Body? ==> s.value == Some(Classify(e).value)
    ensures s.toast.Some? <==> Classify(e).Failed?
  {
    Resolved(Resolve(Classify(e)), ErrorToast(Classify(e)))
  }

  /** The code as written agrees with the corrected gateway everywhere except on
      a successful, non-204 response whose body does not decode. */
  lemma AsWrittenAgreesElsewhere<T>(e: Exchange<T>)
    requires !(e.Received? && e.response.Ok() && e.response.status != 204 && e.response.payload.NotJson?)
    ensures RequestAsWritten(e) == Settle(e)
  {
  }

  /** A 200 answer with an empty body: as written the promise rejects without
      a notice; the corrected gateway reports the parse error and gives `null`. */
  lemma UndecodableSuccessEscapes()
    ensures var e: Exchange<int> := Received(Response(200, "OK", NotJson("Unexpected end of JSON input")));
            RequestAsWritten(e) == Rejected("Unexpected end of JSON input")
            && Settle(e) == Resolved(None, Some(ErrorToastPrefix + "Unexpected end of JSON input"))
  {
  }

  // ---------------------------------------------------------------------------
  // The delete handler's test on the result (script.js:338-342)
  // ---------------------------------------------------------------------------

  /** The delete handler as written: success is announced when the gateway
      resolves to `null`. */
  predicate DeleteAnnouncedAsWritten<T>(response: Option<T>)
  {
    response.None?
  }

  /** The corrected test, on the tagged outcome: only a 204 is a deletion. */
  predicate DeleteConfirmed<T>(o: Outcome<T>)
  {
    o.NoContent?
  }

  /** As written, a 404 answer to a delete is announced as a success right after
      its error notice. */
  lemma DeleteFailureAnnouncedAsWritten()
    ensures var e: Exchange<int> := Received(Response(404, "Not Found", Json(0, "Student not found")));
            DeleteAnnouncedAsWritten(Resolve(Classify(e))) && ErrorToast(Classify(e)).Some?
  {
  }

  /** The corrected test announces a deletion exactly when the server answered
      204, and never together with an error notice. */
  lemma DeleteConfirmedIffNoContent<T>(e: Exchange<T>)
    ensures DeleteConfirmed(Classify(e)) <==> e.Received? && e.response.status == 204
    ensures DeleteConfirmed(Classify(e)) ==> ErrorToast(Classify(e)).None?
  {
  }
}
