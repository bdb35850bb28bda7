/**
 * Login and the authenticated request with one re-login, as specification functions over
 * the transport state. api/api.go and client/client.go run exactly these steps (they differ
 * only in the checkStatusOk form they use); kizcool.go and api.go log in the same way.
 */
module Session {
  import opened Wrappers
  import opened Errors
  import opened Http
  import opened Status

  /** Which checkStatusOk a revision uses. */
  datatype Revision =
    | ListenerAware   // api/api.go: 400 may be NoRegisteredEventListener
    | Classic         // kizcool.go, client/client.go, api.go

  function Classify(rev: Revision, r: Response): Option<Error> {
    if rev == ListenerAware then CheckStatusOk(r) else CheckStatusOkNo400(r)
  }

  datatype Credentials = Credentials(username: string, password: string, baseURL: string)

  function LoginRequest(c: Credentials): Request {
    PostForm(c.baseURL + "/enduserAPI/login", c.username, c.password)
  }

  /**
   * What one login reply means: a transport failure or a classified error is returned; a
   * 200 reply must carry a non-empty JSESSIONID cookie, whose value is the result.
   */
  function LoginResult(rev: Revision, reply: Reply): (r: Result<string, Error>)
    ensures r.Success? <==>
      reply.Got? && reply.response.status == 200 && SessionCookieValue(reply.response.cookies).Some?
    ensures r.Success? ==> r.value != "" && Some(r.value) == SessionCookieValue(reply.response.cookies)
    // the missing cookie is its own error, distinct from every classified one
    ensures r == Failure(MissingSessionCookie) <==>
      reply.Got? && reply.response.status == 200 && SessionCookieValue(reply.response.cookies).None?
    ensures reply.Failed? ==> r == Failure(TransportFailure(reply.reason))
    ensures reply.Got? && reply.response.status != 200 ==> r == Failure(Classify(rev, reply.response).value)
  {
    match reply
    case Failed(reason) => Failure(TransportFailure(reason))
    case Got(resp) =>
      match Classify(rev, resp)
      case Some(e) => Failure(e)
      case None =>
        match SessionCookieValue(resp.cookies)
        case Some(v) => Success(v)
        case None => Failure(MissingSessionCookie)
  }

  /** `Login()`: one form POST of the credentials. */
  function Login(rev: Revision, c: Credentials, server: Server, net: Net): Outcome<Result<string, Error>> {
    var o := Step(server, net, LoginRequest(c));
    Outcome(LoginResult(rev, o.result), o.net)
  }

  /** A reply passed through without classification. */
  function Unclassified(reply: Reply): Result<Response, Error> {
    match reply
    case Failed(reason) => Failure(TransportFailure(reason))
    case Got(resp) => Success(resp)
  }

  /** The first reply of `req` is classified as an authentication error. */
  predicate AuthRejected(rev: Revision, reply: Reply) {
    reply.Got? && Classify(rev, reply.response).Some? && Classify(rev, reply.response).value.Authentication?
  }

  /**
   * `DoWithAuth(req)`: send; on an AuthenticationError log in once and, if that succeeded,
   * send once more and return that reply as it is. Any other error is returned at once.
   */
  function DoWithAuth(rev: Revision, c: Credentials, server: Server, net: Net, req: Request): Outcome<Result<Response, Error>> {
    var first := Step(server, net, req);
    match first.result
    case Failed(reason) => Outcome(Failure(TransportFailure(reason)), first.net)
    case Got(resp) =>
      match Classify(rev, resp)
      case None => Outcome(Success(resp), first.net)
      case Some(e) =>
        if !e.Authentication? then Outcome(Failure(e), first.net)
        else
          var login := Login(rev, c, server, first.net);
          if login.result.Failure? then Outcome(Failure(login.result.error), login.net)
          else
            var retry := Step(server, login.net, req);
            Outcome(Unclassified(retry.result), retry.net)
  }

  /** At most two sends of the request and at most one login, in this order and no other. */
  lemma DoWithAuthSends(rev: Revision, c: Credentials, server: Server, net: Net, req: Request)
    ensures var o := DoWithAuth(rev, c, server, net, req);
      Extends(net, o.net) &&
      SentSince(net, o.net) in {[req], [req, LoginRequest(c)], [req, LoginRequest(c), req]}
  {
    var first := Step(server, net, req);
    var o := DoWithAuth(rev, c, server, net, req);
    assert first.net.log == net.log + [Sent(req, SessionID(net.jar))];
    if AuthRejected(rev, first.result) {
      var login := Login(rev, c, server, first.net);
      assert login.net.log == first.net.log + [Sent(LoginRequest(c), SessionID(first.net.jar))];
      if login.result.Success? {
        var retry := Step(server, login.net, req);
        assert o.net == retry.net;
        assert SentSince(net, o.net) == [req, LoginRequest(c), req];
      } else {
        assert SentSince(net, o.net) == [req, LoginRequest(c)];
      }
    } else {
      assert SentSince(net, o.net) == [req];
    }
  }

  /** The second send happens exactly when the first reply was an authentication error and the login succeeded. */
  lemma DoWithAuthRetriesOnlyAfterLogin(rev: Revision, c: Credentials, server: Server, net: Net, req: Request)
    ensures var first := Step(server, net, req);
      var login := Login(rev, c, server, first.net);
      var o := DoWithAuth(rev, c, server, net, req);
      |o.net.log| >= |net.log| &&
      (|o.net.log| - |net.log| >= 2 <==> AuthRejected(rev, first.result)) &&
      (|o.net.log| - |net.log| == 3 <==> AuthRejected(rev, first.result) && login.result.Success?)
  {
  }

  /** What DoWithAuth returns, case by case. */
  lemma DoWithAuthResult(rev: Revision, c: Credentials, server: Server, net: Net, req: Request)
    ensures var first := Step(server, net, req);
      var login := Login(rev, c, server, first.net);
      var o := DoWithAuth(rev, c, server, net, req);
      // a transport failure of the first send is returned without retry
      (first.result.Failed? ==> o.result == Failure(TransportFailure(first.result.reason))) &&
      // a first reply that classifies as no error is returned as it is
      (first.result.Got? && Classify(rev, first.result.response).None? ==> o.result == Success(first.result.response)) &&
      // every other error, TooManyRequests included, is returned without retry
      (first.result.Got? && Classify(rev, first.result.response).Some? && !AuthRejected(rev, first.result) ==>
        o.result == Failure(Classify(rev, first.result.response).value) && o.net == first.net) &&
      // a failed login is returned
      (AuthRejected(rev, first.result) && login.result.Failure? ==> o.result == Failure(login.result.error)) &&
      // the retried reply is returned without being classified, and it is sent while the jar holds the session the login left
      (AuthRejected(rev, first.result) && login.result.Success? ==>
        o.result == Unclassified(server(o.net.log)) &&
        o.net.log[|o.net.log| - 1] == Sent(req, SessionID(login.net.jar)))
  {
  }
}
