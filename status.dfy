/**
 * `checkStatusOk`, the classification of an HTTP response into an error. Two forms
 * exist: the one of api/api.go, which also recognises an unknown event listener on
 * status 400, and the one kizcool.go, client/client.go and api.go share, which does not.
 */
module Status {
  import opened Wrappers
  import opened Text
  import opened Errors
  import opened Http

  const TooManyRequestsMarker := "Too many requests"
  const NoListenerMarker := "No registered event listener"

  /** The envelope's message, when the body decoded as one. */
  predicate MessageContains(r: Response, marker: string) {
    r.envelope.Some? && Contains(r.envelope.value.message, marker)
  }

  /** checkStatusOk of api/api.go. */
  function CheckStatusOk(r: Response): (e: Option<Error>)
    // 200: no error, and the body is not looked at
    ensures e.None? <==> r.status == 200
    // any other status whose body is not an envelope: a decode error
    ensures e == Some(JsonDecode) <==> r.status != 200 && r.envelope.None?
    // 401 splits on the rate-limit message
    ensures (e.Some? && e.value.TooManyRequests?) <==> r.status == 401 && MessageContains(r, TooManyRequestsMarker)
    ensures (e.Some? && e.value.Authentication?) <==>
      r.status == 401 && r.envelope.Some? && !MessageContains(r, TooManyRequestsMarker)
    // 400 splits on the unknown-listener message
    ensures (e.Some? && e.value.NoRegisteredEventListener?) <==> r.status == 400 && MessageContains(r, NoListenerMarker)
    ensures (e.Some? && e.value.Plain?) <==> r.status == 400 && r.envelope.Some? && !MessageContains(r, NoListenerMarker)
    // every other status: the envelope itself
    ensures (e.Some? && e.value.Envelope?) <==> r.status !in {200, 400, 401} && r.envelope.Some?
    // the typed errors carry the server's message unchanged
    ensures e.Some? && e.value != JsonDecode ==>
      e.value.message == r.envelope.value.message
    ensures e.Some? && e.value.Envelope? ==> e.value.errorCode == r.envelope.value.errorCode
  {
    if r.status == 200 then None
    else if r.envelope.None? then Some(JsonDecode)
    else
      var msg := r.envelope.value.message;
      if r.status == 401 then
        if Contains(msg, TooManyRequestsMarker) then Some(TooManyRequests(msg)) else Some(Authentication(msg))
      else if r.status == 400 then
        if Contains(msg, NoListenerMarker) then Some(NoRegisteredEventListener(msg)) else Some(Plain(msg))
      else Some(Envelope(r.envelope.value.errorCode, msg))
  }

  /** checkStatusOk of kizcool.go, client/client.go and api.go: no 400 branch. */
  function CheckStatusOkNo400(r: Response): (e: Option<Error>)
    ensures e.None? <==> r.status == 200
    ensures e == Some(JsonDecode) <==> r.status != 200 && r.envelope.None?
    ensures (e.Some? && e.value.TooManyRequests?) <==> r.status == 401 && MessageContains(r, TooManyRequestsMarker)
    ensures (e.Some? && e.value.Authentication?) <==>
      r.status == 401 && r.envelope.Some? && !MessageContains(r, TooManyRequestsMarker)
    // 400 included: every status but 200 and 401 yields the envelope
    ensures (e.Some? && e.value.Envelope?) <==> r.status !in {200, 401} && r.envelope.Some?
    // a listener error or a plain message never comes out of this form
    ensures e.Some? ==> e.value.JsonDecode? || e.value.TooManyRequests? || e.value.Authentication? || e.value.Envelope?
    ensures e.Some? && e.value != JsonDecode ==> e.value.message == r.envelope.value.message
    ensures e.Some? && e.value.Envelope? ==> e.value.errorCode == r.envelope.value.errorCode
  {
    if r.status == 200 then None
    else if r.envelope.None? then Some(JsonDecode)
    else
      var msg := r.envelope.value.message;
      if r.status == 401 then
        if Contains(msg, TooManyRequestsMarker) then Some(TooManyRequests(msg)) else Some(Authentication(msg))
      else Some(Envelope(r.envelope.value.errorCode, msg))
  }

  /** The two forms agree on every status but 400; on 400 the older one reports the envelope. */
  lemma FormsDifferOnlyOn400(r: Response)
    ensures r.status != 400 ==> CheckStatusOkNo400(r) == CheckStatusOk(r)
    ensures r.status == 400 && r.envelope.Some? ==>
      CheckStatusOkNo400(r) == Some(Envelope(r.envelope.value.errorCode, r.envelope.value.message)) &&
      CheckStatusOk(r) != CheckStatusOkNo400(r)
  {
  }

  function Body(code: string, message: string): Option<ErrorEnvelope> {
    Some(ErrorEnvelope(code, message))
  }

  /** The rows of TestCheckStatusOk (api/api_test.go, kizcool_test.go, client/client_test.go). */
  lemma CheckStatusOkTable()
    ensures CheckStatusOk(Response(200, None, None, [])) == None
    ensures CheckStatusOk(Response(401, Body("AUTHENTICATION_ERROR", BadCredentials), None, []))
      == Some(Authentication(BadCredentials))
    ensures CheckStatusOk(Response(401, Body("AUTHENTICATION_ERROR", TooManyText), None, []))
      == Some(TooManyRequests(TooManyText))
    ensures CheckStatusOk(Response(999, None, None, [])) == Some(JsonDecode)
  {
    MarkerFacts();
  }

  /** The "500" row: the error's text is the envelope printed with `%v`. */
  lemma EnvelopeErrorText()
    ensures ErrorText(CheckStatusOk(Response(500, Body("WEIRD_ERROR", "Unexpected"), None, [])).value)
      == "{WEIRD_ERROR Unexpected}"
  {
    var e := CheckStatusOk(Response(500, Body("WEIRD_ERROR", "Unexpected"), None, []));
    assert e == Some(Envelope("WEIRD_ERROR", "Unexpected"));
    assert "{" + "WEIRD_ERROR" == "{WEIRD_ERROR";
    assert "{WEIRD_ERROR" + " " == "{WEIRD_ERROR ";
    assert "{WEIRD_ERROR " + "Unexpected" == "{WEIRD_ERROR Unexpected";
    assert "{WEIRD_ERROR Unexpected" + "}" == "{WEIRD_ERROR Unexpected}";
  }

  /** The 401 rows of TestCheckStatusOk hold on the older form too. */
  lemma CheckStatusOkNo400Table()
    ensures CheckStatusOkNo400(Response(401, Body("AUTHENTICATION_ERROR", BadCredentials), None, []))
      == Some(Authentication(BadCredentials))
    ensures CheckStatusOkNo400(Response(401, Body("AUTHENTICATION_ERROR", TooManyText), None, []))
      == Some(TooManyRequests(TooManyText))
  {
    MarkerFacts();
  }

  /** The 400 body of TestPollEventsWithIDBad: a listener error, and a generic envelope on the older form. */
  lemma UnknownListenerRow()
    ensures CheckStatusOk(Response(400, Body("UNSPECIFIED_ERROR", NoListenerMarker), None, []))
      == Some(NoRegisteredEventListener(NoListenerMarker))
    ensures CheckStatusOkNo400(Response(400, Body("UNSPECIFIED_ERROR", NoListenerMarker), None, []))
      == Some(Envelope("UNSPECIFIED_ERROR", NoListenerMarker))
  {
    assert OccursAt(NoListenerMarker, NoListenerMarker, 0);
  }

  const BadCredentials := "Bad credentials"
  /** The 401 message of the tests: "Too many requests, try again later : login with user@domain.com". */
  const TooManyText := TooManyRequestsMarker + ", try again later : login with user@domain.com"

  lemma MarkerFacts()
    ensures Contains(TooManyText, TooManyRequestsMarker)
    ensures !Contains(BadCredentials, TooManyRequestsMarker)
  {
    assert OccursAt(TooManyText, TooManyRequestsMarker, 0);
  }
}
