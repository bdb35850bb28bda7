/**
 * The client of client/client.go: the same authenticated requests as api/api.go, with the
 * 400-blind checkStatusOk and with listener ids passed in and out instead of stored.
 */
module LegacyClient {
  import opened Wrappers
  import opened Errors
  import opened Http
  import opened Session

  const Rev := Classic

  function RegisterRequest(c: Credentials): Request {
    Call("POST", c.baseURL + "/events/register")
  }

  function UnregisterRequest(c: Credentials, l: string): Request {
    Call("POST", c.baseURL + "/events/" + l + "/unregister")
  }

  /** RegisterListener: the decoded id is returned; nothing is stored. */
  function Register(c: Credentials, server: Server, net: Net): (o: Outcome<Result<string, Error>>)
    ensures var call := DoWithAuth(Rev, c, server, net, RegisterRequest(c));
      o.net == call.net &&
      (o.result.Success? <==> call.result.Success? && call.result.value.listenerId.Some?) &&
      (o.result.Success? ==> o.result.value == call.result.value.listenerId.value) &&
      (call.result.Failure? ==> o.result == Failure(call.result.error)) &&
      (call.result.Success? && call.result.value.listenerId.None? ==> o.result == Failure(BodyDecode))
  {
    var call := DoWithAuth(Rev, c, server, net, RegisterRequest(c));
    match call.result
    case Failure(e) => Outcome(Failure(e), call.net)
    case Success(resp) =>
      match resp.listenerId
      case None => Outcome(Failure(BodyDecode), call.net)
      case Some(id) => Outcome(Success(id), call.net)
  }

  /** UnregisterListener(l): sent even for an empty id; the error of the request is returned. */
  function Unregister(c: Credentials, server: Server, net: Net, l: string): (o: Outcome<Option<Error>>)
    ensures var call := DoWithAuth(Rev, c, server, net, UnregisterRequest(c, l));
      o.net == call.net &&
      (o.result.None? <==> call.result.Success?) &&
      (o.result.Some? ==> o.result.value == call.result.error)
  {
    var call := DoWithAuth(Rev, c, server, net, UnregisterRequest(c, l));
    Outcome(if call.result.Failure? then Some(call.result.error) else None, call.net)
  }

  /** Without stored state, registering twice asks the box twice: the second id comes from a second request. */
  lemma RegisterTwiceSendsTwice(c: Credentials, server: Server, net: Net)
    ensures var first := Register(c, server, net);
      var second := Register(c, server, first.net);
      Extends(net, second.net) &&
      |second.net.log| >= |net.log| + 2 &&
      second.net.log[|net.log|].request == RegisterRequest(c) &&
      second.net.log[|first.net.log|].request == RegisterRequest(c)
  {
    var first := Register(c, server, net);
    var second := Register(c, server, first.net);
    DoWithAuthSends(Rev, c, server, net, RegisterRequest(c));
    DoWithAuthSends(Rev, c, server, first.net, RegisterRequest(c));
    assert SentSince(net, first.net)[0] == RegisterRequest(c);
    assert SentSince(first.net, second.net)[0] == RegisterRequest(c);
    ExtendsTransitive(net, first.net, second.net);
  }

  /** client.Client. */
  class Client {
    const username: string
    const password: string
    const baseURL: string
    const transport: Transport

    function Creds(): Credentials {
      Credentials(username, password, baseURL)
    }

    constructor (username: string, password: string, baseURL: string, transport: Transport)
      ensures this.username == username && this.password == password && this.baseURL == baseURL
      ensures this.transport == transport
    {
      this.username := username;
      this.password := password;
      this.baseURL := baseURL;
      this.transport := transport;
    }

    /**
     * NewWithHTTPClient: no check of the base URL itself; `baseURLParses` stands for
     * url.Parse, whose failure matters only when a session is to be seeded.
     */
    static method NewWithHTTPClient(username: string, password: string, baseURL: string, sessionID: string,
                                    baseURLParses: bool, hc: Transport) returns (r: Result<Client, Error>)
      modifies hc
      ensures r.Success? <==> sessionID == "" || baseURLParses
      ensures r.Failure? ==> r.error == BadBaseURL && hc.jar == old(hc.jar)
      ensures r.Success? ==> fresh(r.value) && r.value.transport == hc
      ensures r.Success? ==> r.value.Creds() == Credentials(username, password, baseURL) && hc.jar == SeededJar(sessionID)
      ensures hc.log == old(hc.log)
    {
      if sessionID != "" && !baseURLParses {
        return Failure(BadBaseURL);
      }
      hc.SetJar(SeededJar(sessionID));
      var c := new Client(username, password, baseURL, hc);
      r := Success(c);
    }

    function SessionID(): string
      reads transport
    {
      Http.SessionID(transport.jar)
    }

    method Login() returns (err: Option<Error>)
      modifies transport
      ensures var o := Session.Login(Rev, Creds(), transport.server, old(transport.State()));
        transport.State() == o.net && err == (if o.result.Failure? then Some(o.result.error) else None)
    {
      var reply := transport.Do(LoginRequest(Creds()));
      var r := LoginResult(Rev, reply);
      err := if r.Failure? then Some(r.error) else None;
    }

    method DoWithAuth(req: Request) returns (r: Result<Response, Error>)
      modifies transport
      ensures Outcome(r, transport.State()) == Session.DoWithAuth(Rev, Creds(), transport.server, old(transport.State()), req)
    {
      var reply := transport.Do(req);
      if reply.Failed? {
        return Failure(TransportFailure(reply.reason));
      }
      var e := Classify(Rev, reply.response);
      if e.None? {
        return Success(reply.response);
      }
      if !e.value.Authentication? {
        return Failure(e.value);
      }
      var loginErr := Login();
      if loginErr.Some? {
        return Failure(loginErr.value);
      }
      var retry := transport.Do(req);
      r := Unclassified(retry);
    }

    method RegisterListener() returns (r: Result<string, Error>)
      modifies transport
      ensures Outcome(r, transport.State()) == Register(Creds(), transport.server, old(transport.State()))
    {
      var resp := DoWithAuth(RegisterRequest(Creds()));
      if resp.Failure? {
        return Failure(resp.error);
      }
      if resp.value.listenerId.None? {
        return Failure(BodyDecode);
      }
      r := Success(resp.value.listenerId.value);
    }

    method UnregisterListener(l: string) returns (err: Option<Error>)
      modifies transport
      ensures Outcome(err, transport.State()) == Unregister(Creds(), transport.server, old(transport.State()), l)
    {
      var resp := DoWithAuth(UnregisterRequest(Creds(), l));
      if resp.Failure? {
        return Some(resp.error);
      }
      err := None;
    }
  }
}
