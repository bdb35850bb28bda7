/**
 * The API type of api.go: the oldest client. Its Login also returns the new session and
 * saves it into the configuration; its DoWithAuth retries even when that login failed.
 */
module RootApi {
  import opened Wrappers
  import opened Errors
  import opened Http
  import opened Session

  const Rev := Classic

  /** A result with the transport state and the session id saved in the configuration after it. */
  datatype Saved<+T> = Saved(result: T, net: Net, saved: string)

  /** Login: the session value is returned and saved; a failed login saves nothing. */
  function LoginAndSave(c: Credentials, server: Server, net: Net, saved: string): (o: Saved<Result<string, Error>>)
    ensures var l := Session.Login(Rev, c, server, net);
      o.result == l.result && o.net == l.net &&
      o.saved == (if l.result.Success? then l.result.value else saved)
  {
    var l := Session.Login(Rev, c, server, net);
    Saved(l.result, l.net, if l.result.Success? then l.result.value else saved)
  }

  /** DoWithAuth: on an authentication error, log in, ignore how that went, and send again. */
  function DoWithAuthIgnoringLogin(c: Credentials, server: Server, net: Net, saved: string, req: Request): Saved<Result<Response, Error>> {
    var first := Step(server, net, req);
    match first.result
    case Failed(reason) => Saved(Failure(TransportFailure(reason)), first.net, saved)
    case Got(resp) =>
      match Classify(Rev, resp)
      case None => Saved(Success(resp), first.net, saved)
      case Some(e) =>
        if !e.Authentication? then Saved(Failure(e), first.net, saved)
        else
          var login := LoginAndSave(c, server, first.net, saved);
          var retry := Step(server, login.net, req);
          Saved(Unclassified(retry.result), retry.net, login.saved)
  }

  /** The request is sent once, or twice around one login: never a login without the retry. */
  lemma DoWithAuthAlwaysRetries(c: Credentials, server: Server, net: Net, saved: string, req: Request)
    ensures var o := DoWithAuthIgnoringLogin(c, server, net, saved, req);
      Extends(net, o.net) &&
      SentSince(net, o.net) in {[req], [req, LoginRequest(c), req]} &&
      (|SentSince(net, o.net)| == 3 <==> AuthRejected(Rev, Step(server, net, req).result))
  {
    var first := Step(server, net, req);
    var o := DoWithAuthIgnoringLogin(c, server, net, saved, req);
    assert first.net.log == net.log + [Sent(req, SessionID(net.jar))];
    if AuthRejected(Rev, first.result) {
      var login := LoginAndSave(c, server, first.net, saved);
      assert login.net.log == first.net.log + [Sent(LoginRequest(c), SessionID(first.net.jar))];
      var retry := Step(server, login.net, req);
      assert o.net == retry.net;
      assert SentSince(net, o.net) == [req, LoginRequest(c), req];
    } else {
      assert SentSince(net, o.net) == [req];
    }
  }

  /**
   * Where the login succeeds (or is not needed) this DoWithAuth behaves as the one of
   * client/client.go; where it fails, that one stops with the login error
   * while this one sends the request again and returns its reply.
   */
  lemma DoWithAuthAgainstSession(c: Credentials, server: Server, net: Net, saved: string, req: Request)
    ensures var first := Step(server, net, req);
      var login := Session.Login(Rev, c, server, first.net);
      var mine := DoWithAuthIgnoringLogin(c, server, net, saved, req);
      var theirs := Session.DoWithAuth(Rev, c, server, net, req);
      (!(AuthRejected(Rev, first.result) && login.result.Failure?) ==> mine.result == theirs.result && mine.net == theirs.net) &&
      (AuthRejected(Rev, first.result) && login.result.Failure? ==>
        theirs.result == Failure(login.result.error) &&
        mine.result == Unclassified(Step(server, login.net, req).result))
  {
  }

  /** The saved session changes only through a successful login inside the call, and then to that login's value. */
  lemma DoWithAuthSavesOnlyLoggedInSession(c: Credentials, server: Server, net: Net, saved: string, req: Request)
    ensures var first := Step(server, net, req);
      var login := Session.Login(Rev, c, server, first.net);
      var o := DoWithAuthIgnoringLogin(c, server, net, saved, req);
      o.saved != saved ==> AuthRejected(Rev, first.result) && login.result == Success(o.saved)
  {
  }

  /** kizcool.API. */
  class API {
    const username: string
    const password: string
    const baseURL: string
    const transport: Transport
    /** The session id kept in the configuration file by SaveSessionID. */
    var savedSessionID: string

    function Creds(): Credentials {
      Credentials(username, password, baseURL)
    }

    constructor (username: string, password: string, baseURL: string, sessionID: string, transport: Transport)
      ensures this.username == username && this.password == password && this.baseURL == baseURL
      ensures this.transport == transport && savedSessionID == sessionID
    {
      this.username := username;
      this.password := password;
      this.baseURL := baseURL;
      this.transport := transport;
      savedSessionID := sessionID;
    }

    /** NewAPI: seeds the jar with the configured session; `baseURLParses` stands for url.Parse, consulted only then. */
    static method NewAPI(username: string, password: string, baseURL: string, sessionID: string,
                         baseURLParses: bool, hc: Transport) returns (r: Result<API, Error>)
      modifies hc
      ensures r.Success? <==> sessionID == "" || baseURLParses
      ensures r.Failure? ==> r.error == BadBaseURL && hc.jar == old(hc.jar)
      ensures r.Success? ==> fresh(r.value) && r.value.transport == hc && r.value.savedSessionID == sessionID
      ensures r.Success? ==> r.value.Creds() == Credentials(username, password, baseURL) && hc.jar == SeededJar(sessionID)
      ensures hc.log == old(hc.log)
    {
      if sessionID != "" && !baseURLParses {
        return Failure(BadBaseURL);
      }
      hc.SetJar(SeededJar(sessionID));
      var api := new API(username, password, baseURL, sessionID, hc);
      r := Success(api);
    }

    method Login() returns (r: Result<string, Error>)
      modifies this, transport
      ensures Saved(r, transport.State(), savedSessionID)
        == LoginAndSave(Creds(), transport.server, old(transport.State()), old(savedSessionID))
    {
      var reply := transport.Do(LoginRequest(Creds()));
      r := LoginResult(Rev, reply);
      if r.Success? {
        savedSessionID := r.value;
      }
    }

    method DoWithAuth(req: Request) returns (r: Result<Response, Error>)
      modifies this, transport
      ensures Saved(r, transport.State(), savedSessionID)
        == DoWithAuthIgnoringLogin(Creds(), transport.server, old(transport.State()), old(savedSessionID), req)
    {
      var reply := transport.Do(req);
      if reply.Failed? {
        return Failure(TransportFailure(reply.reason));
      }
      var e := Classify(Rev, reply.response);
      if e.None? {
        return Success(reply.response);
      }
      if !e.value.Authentication? {
        return Failure(e.value);
      }
      var _ := Login();
      var retry := transport.Do(req);
      r := Unclassified(retry);
    }
  }
}
