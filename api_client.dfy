/**
 * The client of api/api.go: the authenticated client that also owns the event-listener
 * lifecycle. Its one piece of mutable state besides the transport is `listenerID`.
 */
module Api {
  import opened Wrappers
  import opened Errors
  import opened Http
  import opened Session

  const Rev := ListenerAware
  const EmptyListenerMessage := "listenerID cannot be empty"

  /** A result with the transport state and the stored listener id after it. */
  datatype ListenerOutcome<+T> = ListenerOutcome(result: T, net: Net, listenerID: string)

  function RegisterRequest(c: Credentials): Request {
    Call("POST", c.baseURL + "/events/register")
  }

  function UnregisterRequest(c: Credentials, id: string): Request {
    Call("POST", c.baseURL + "/events/" + id + "/unregister")
  }

  function FetchRequest(c: Credentials, id: string): Request {
    Call("POST", c.baseURL + "/events/" + id + "/fetch")
  }

  /** registerListener: the id is stored exactly when the request succeeded and its body decoded. */
  function Register(c: Credentials, server: Server, net: Net, lid: string): (o: ListenerOutcome<Option<Error>>)
    ensures var call := DoWithAuth(Rev, c, server, net, RegisterRequest(c));
      o.net == call.net &&
      (o.result.None? <==> call.result.Success? && call.result.value.listenerId.Some?) &&
      (o.result.None? ==> o.listenerID == call.result.value.listenerId.value) &&
      (o.result.Some? ==> o.listenerID == lid) &&
      (call.result.Failure? ==> o.result == Some(call.result.error)) &&
      (call.result.Success? && call.result.value.listenerId.None? ==> o.result == Some(BodyDecode))
  {
    var call := DoWithAuth(Rev, c, server, net, RegisterRequest(c));
    match call.result
    case Failure(e) => ListenerOutcome(Some(e), call.net, lid)
    case Success(resp) =>
      match resp.listenerId
      case None => ListenerOutcome(Some(BodyDecode), call.net, lid)
      case Some(id) => ListenerOutcome(None, call.net, id)
  }

  /** unregisterListener: nothing without a listener; otherwise the id is cleared only once the request succeeded. */
  function Unregister(c: Credentials, server: Server, net: Net, lid: string): (o: ListenerOutcome<Option<Error>>)
    ensures lid == "" ==> o == ListenerOutcome(None, net, "")
    ensures lid != "" ==> var call := DoWithAuth(Rev, c, server, net, UnregisterRequest(c, lid));
      o.net == call.net &&
      (o.result.None? <==> call.result.Success?) &&
      (o.result.Some? ==> o.result.value == call.result.error && o.listenerID == lid) &&
      (o.result.None? ==> o.listenerID == "")
  {
    if lid == "" then ListenerOutcome(None, net, lid)
    else
      var call := DoWithAuth(Rev, c, server, net, UnregisterRequest(c, lid));
      match call.result
      case Failure(e) => ListenerOutcome(Some(e), call.net, lid)
      case Success(_) => ListenerOutcome(None, call.net, "")
  }

  /** pollEventsWithID: an empty id is refused before anything is sent. */
  function PollWithID(c: Credentials, server: Server, net: Net, id: string): (o: Outcome<Result<Response, Error>>)
    ensures id == "" ==> o == Outcome(Failure(NoRegisteredEventListener(EmptyListenerMessage)), net)
    ensures id != "" ==> o == DoWithAuth(Rev, c, server, net, FetchRequest(c, id))
  {
    if id == "" then Outcome(Failure(NoRegisteredEventListener(EmptyListenerMessage)), net)
    else DoWithAuth(Rev, c, server, net, FetchRequest(c, id))
  }

  /** The registration PollEvents starts with: one is sent only when no listener is stored. */
  function FirstRegistration(c: Credentials, server: Server, net: Net, lid: string): ListenerOutcome<Option<Error>> {
    if lid == "" then Register(c, server, net, lid) else ListenerOutcome(None, net, lid)
  }

  /**
   * PollEvents as written: register when no listener is stored; fetch; on an unknown
   * listener register once more and fetch once more. Any other fetch error is dropped:
   * the result is then no response and no error.
   */
  function PollEventsAsWritten(c: Credentials, server: Server, net: Net, lid: string): ListenerOutcome<Result<Option<Response>, Error>> {
    var reg := FirstRegistration(c, server, net, lid);
    if reg.result.Some? then ListenerOutcome(Failure(reg.result.value), reg.net, reg.listenerID)
    else
      var fetch := PollWithID(c, server, reg.net, reg.listenerID);
      match fetch.result
      case Success(resp) => ListenerOutcome(Success(Some(resp)), fetch.net, reg.listenerID)
      case Failure(e) =>
        if e.NoRegisteredEventListener? then Refetch(c, server, fetch.net, reg.listenerID)
        else ListenerOutcome(Success(None), fetch.net, reg.listenerID)
  }

  /** The one-shot recovery path of PollEvents: register again, then fetch with the new id. */
  function Refetch(c: Credentials, server: Server, net: Net, lid: string): ListenerOutcome<Result<Option<Response>, Error>> {
    var again := Register(c, server, net, lid);
    if again.result.Some? then ListenerOutcome(Failure(again.result.value), again.net, again.listenerID)
    else
      var refetch := PollWithID(c, server, again.net, again.listenerID);
      match refetch.result
      case Success(resp) => ListenerOutcome(Success(Some(resp)), refetch.net, again.listenerID)
      case Failure(e) => ListenerOutcome(Failure(e), refetch.net, again.listenerID)
  }

  /** PollEvents as evidently intended: a fetch error that is not an unknown listener is returned. */
  function PollEventsReporting(c: Credentials, server: Server, net: Net, lid: string): ListenerOutcome<Result<Option<Response>, Error>> {
    var reg := FirstRegistration(c, server, net, lid);
    if reg.result.Some? then ListenerOutcome(Failure(reg.result.value), reg.net, reg.listenerID)
    else
      var fetch := PollWithID(c, server, reg.net, reg.listenerID);
      match fetch.result
      case Success(resp) => ListenerOutcome(Success(Some(resp)), fetch.net, reg.listenerID)
      case Failure(e) =>
        if e.NoRegisteredEventListener? then Refetch(c, server, fetch.net, reg.listenerID)
        else ListenerOutcome(Failure(e), fetch.net, reg.listenerID)
  }

  /** The first request PollEvents sends: a registration when no listener is stored, else a fetch with the stored id. */
  lemma PollEventsFirstRequest(c: Credentials, server: Server, net: Net, lid: string)
    ensures var o := PollEventsAsWritten(c, server, net, lid);
      Extends(net, o.net) && |o.net.log| > |net.log| &&
      o.net.log[|net.log|].request == (if lid == "" then RegisterRequest(c) else FetchRequest(c, lid))
  {
    var o := PollEventsAsWritten(c, server, net, lid);
    var first := if lid == "" then RegisterRequest(c) else FetchRequest(c, lid);
    var call := DoWithAuth(Rev, c, server, net, first);
    DoWithAuthSends(Rev, c, server, net, first);
    assert SentSince(net, call.net)[0] == first;
    PollEventsAfterFirstCall(c, server, net, lid);
    ExtendsTransitive(net, call.net, o.net);
  }

  /** Everything PollEvents sends after its first call only appends to the log of that call. */
  lemma PollEventsAfterFirstCall(c: Credentials, server: Server, net: Net, lid: string)
    ensures var first := if lid == "" then RegisterRequest(c) else FetchRequest(c, lid);
      Extends(DoWithAuth(Rev, c, server, net, first).net, PollEventsAsWritten(c, server, net, lid).net)
  {
    var o := PollEventsAsWritten(c, server, net, lid);
    var reg := FirstRegistration(c, server, net, lid);
    if reg.result.None? {
      var fetch := PollWithID(c, server, reg.net, reg.listenerID);
      if reg.listenerID != "" { DoWithAuthSends(Rev, c, server, reg.net, FetchRequest(c, reg.listenerID)); }
      assert Extends(reg.net, fetch.net);
      if fetch.result.Failure? && fetch.result.error.NoRegisteredEventListener? {
        RefetchExtends(c, server, fetch.net, reg.listenerID);
        assert Extends(fetch.net, o.net);
      } else {
        assert o.net == fetch.net;
      }
      if lid == "" {
        ExtendsTransitive(reg.net, fetch.net, o.net);
      }
    }
  }

  /** Every path of PollEvents only appends to the log, and sends at most twelve requests. */
  lemma PollEventsExtends(c: Credentials, server: Server, net: Net, lid: string)
    ensures var o := PollEventsAsWritten(c, server, net, lid);
      Extends(net, o.net) && |o.net.log| - |net.log| <= 12
  {
    var o := PollEventsAsWritten(c, server, net, lid);
    var reg := FirstRegistration(c, server, net, lid);
    if lid == "" { DoWithAuthSends(Rev, c, server, net, RegisterRequest(c)); }
    assert Extends(net, reg.net) && |reg.net.log| - |net.log| <= 3;
    if reg.result.None? {
      var fetch := PollWithID(c, server, reg.net, reg.listenerID);
      if reg.listenerID != "" { DoWithAuthSends(Rev, c, server, reg.net, FetchRequest(c, reg.listenerID)); }
      assert Extends(reg.net, fetch.net) && |fetch.net.log| - |reg.net.log| <= 3;
      ExtendsTransitive(net, reg.net, fetch.net);
      if fetch.result.Failure? && fetch.result.error.NoRegisteredEventListener? {
        RefetchExtends(c, server, fetch.net, reg.listenerID);
        ExtendsTransitive(net, fetch.net, o.net);
      }
    }
  }

  lemma RefetchExtends(c: Credentials, server: Server, net: Net, lid: string)
    ensures var o := Refetch(c, server, net, lid);
      Extends(net, o.net) && |o.net.log| - |net.log| <= 6
  {
    var o := Refetch(c, server, net, lid);
    var again := Register(c, server, net, lid);
    DoWithAuthSends(Rev, c, server, net, RegisterRequest(c));
    if again.result.None? {
      var refetch := PollWithID(c, server, again.net, again.listenerID);
      if again.listenerID != "" {
        DoWithAuthSends(Rev, c, server, again.net, FetchRequest(c, again.listenerID));
      }
      ExtendsTransitive(net, again.net, refetch.net);
      assert o.net == refetch.net;
    }
  }

  /**
   * A failed registration ends PollEvents with that error and leaves the stored id as it was,
   * whether it is the first registration or the one after an unknown-listener error.
   */
  lemma PollEventsRegistrationFailure(c: Credentials, server: Server, net: Net, lid: string)
    ensures var reg := FirstRegistration(c, server, net, lid);
      reg.result.Some? ==>
        reg.listenerID == lid &&
        PollEventsAsWritten(c, server, net, lid) == ListenerOutcome(Failure(reg.result.value), reg.net, lid)
    ensures var again := Register(c, server, net, lid);
      again.result.Some? ==> Refetch(c, server, net, lid) == ListenerOutcome(Failure(again.result.value), again.net, lid)
  {
  }

  /**
   * After an unknown-listener error on the first fetch and a successful re-registration,
   * the id the re-registration decoded is the one stored, whatever the second fetch gives.
   */
  lemma PollEventsStoresRenewedId(c: Credentials, server: Server, net: Net, lid: string)
    ensures var reg := FirstRegistration(c, server, net, lid);
      var fetch := PollWithID(c, server, reg.net, reg.listenerID);
      var again := Register(c, server, fetch.net, reg.listenerID);
      var o := PollEventsAsWritten(c, server, net, lid);
      reg.result.None? && fetch.result.Failure? && fetch.result.error.NoRegisteredEventListener? ==>
        (again.result.None? ==>
          o.listenerID == again.listenerID &&
          (o.result.Failure? <==> PollWithID(c, server, again.net, again.listenerID).result.Failure?)) &&
        (again.result.Some? ==> o == ListenerOutcome(Failure(again.result.value), again.net, reg.listenerID))
  {
  }

  /** As written, a first fetch failing for any reason but an unknown listener yields no response and no error. */
  lemma PollEventsDropsOtherFetchErrors(c: Credentials, server: Server, net: Net, lid: string)
    ensures var reg := FirstRegistration(c, server, net, lid);
      var fetch := PollWithID(c, server, reg.net, reg.listenerID);
      reg.result.None? && fetch.result.Failure? && !fetch.result.error.NoRegisteredEventListener? ==>
        PollEventsAsWritten(c, server, net, lid) == ListenerOutcome(Success(None), fetch.net, reg.listenerID)
  {
  }

  /** A box that accepts registrations and whose connection then drops. */
  function DroppingServer(base: string): Server {
    (log: seq<Sent>) =>
      if |log| > 0 && log[|log| - 1].request == Call("POST", base + "/events/register")
      then Got(Response(200, None, Some("L1"), []))
      else Failed("connection reset")
  }

  /** The fetch request for listener L1 is not the register request. */
  lemma FetchIsNotRegister(c: Credentials)
    ensures FetchRequest(c, "L1") != RegisterRequest(c)
  {
    assert (c.baseURL + "/events/" + "L1" + "/fetch")[|c.baseURL| + 8] == 'L';
    assert (c.baseURL + "/events/register")[|c.baseURL| + 8] == 'r';
  }

  /** Against the dropping server, registering from a fresh network stores L1. */
  lemma DroppingServerRegisters(c: Credentials)
    ensures var reg := Register(c, DroppingServer(c.baseURL), Net([], map[]), "");
      reg.result.None? && reg.listenerID == "L1"
  {
    var s1 := Step(DroppingServer(c.baseURL), Net([], map[]), RegisterRequest(c));
    assert s1.result == Got(Response(200, None, Some("L1"), []));
  }

  /** Against the dropping server, a fetch for L1 fails in transport. */
  lemma DroppingServerResetsFetch(c: Credentials, net: Net)
    ensures Step(DroppingServer(c.baseURL), net, FetchRequest(c, "L1")).result == Failed("connection reset")
  {
    var s2 := Step(DroppingServer(c.baseURL), net, FetchRequest(c, "L1"));
    assert s2.net.log[|s2.net.log| - 1].request == FetchRequest(c, "L1");
    FetchIsNotRegister(c);
  }

  /** The input that shows the dropped error: the fetch fails in transport, PollEvents reports success with no response. */
  lemma PollEventsSwallowsTransportFailure()
    ensures var c := Credentials("user", "pass", "http://box");
      var o := PollEventsAsWritten(c, DroppingServer(c.baseURL), Net([], map[]), "");
      o.result == Success(None) && o.listenerID == "L1"
  {
    var c := Credentials("user", "pass", "http://box");
    var reg := Register(c, DroppingServer(c.baseURL), Net([], map[]), "");
    DroppingServerRegisters(c);
    DroppingServerResetsFetch(c, reg.net);
  }

  /** The intended PollEvents never reports success without a response, and returns the fetch error it did not recover from. */
  lemma PollEventsReportingSurfacesErrors(c: Credentials, server: Server, net: Net, lid: string)
    ensures var o := PollEventsReporting(c, server, net, lid);
      o.result != Success(None)
    ensures var reg := FirstRegistration(c, server, net, lid);
      var fetch := PollWithID(c, server, reg.net, reg.listenerID);
      reg.result.None? && fetch.result.Failure? && !fetch.result.error.NoRegisteredEventListener? ==>
        PollEventsReporting(c, server, net, lid) == ListenerOutcome(Failure(fetch.result.error), fetch.net, reg.listenerID)
    ensures var o := PollEventsAsWritten(c, server, net, lid);
      o.result != Success(None) ==> PollEventsReporting(c, server, net, lid) == o
  {
  }

  /** api.Client. */
  class Client {
    const username: string
    const password: string
    const baseURL: string
    const transport: Transport
    var listenerID: string

    function Creds(): Credentials {
      Credentials(username, password, baseURL)
    }

    constructor (username: string, password: string, baseURL: string, transport: Transport)
      ensures this.username == username && this.password == password && this.baseURL == baseURL
      ensures this.transport == transport && listenerID == ""
    {
      this.username := username;
      this.password := password;
      this.baseURL := baseURL;
      this.transport := transport;
      listenerID := "";
    }

    /**
     * NewWithHTTPClient: refuses an empty base URL; seeds a fresh jar with the cached
     * session when there is one (`baseURLParses` stands for url.Parse, consulted only then).
     */
    static method NewWithHTTPClient(username: string, password: string, baseURL: string, sessionID: string,
                                    baseURLParses: bool, hc: Transport) returns (r: Result<Client, Error>)
      modifies hc
      ensures baseURL == "" ==> r == Failure(EmptyBaseURL)
      ensures baseURL != "" && sessionID != "" && !baseURLParses ==> r == Failure(BadBaseURL)
      ensures r.Success? <==> baseURL != "" && (sessionID == "" || baseURLParses)
      ensures r.Failure? ==> hc.jar == old(hc.jar)
      ensures r.Success? ==> fresh(r.value) && r.value.transport == hc && r.value.listenerID == ""
      ensures r.Success? ==> r.value.Creds() == Credentials(username, password, baseURL) && hc.jar == SeededJar(sessionID)
      ensures hc.log == old(hc.log)
    {
      if baseURL == "" {
        return Failure(EmptyBaseURL);
      }
      if sessionID != "" && !baseURLParses {
        return Failure(BadBaseURL);
      }
      hc.SetJar(SeededJar(sessionID));
      var c := new Client(username, password, baseURL, hc);
      r := Success(c);
    }

    /** SessionID: the session cookie in the jar, or "". */
    function SessionID(): string
      reads transport
    {
      Http.SessionID(transport.jar)
    }

    method Login() returns (err: Option<Error>)
      modifies transport
      ensures var o := Session.Login(Rev, Creds(), transport.server, old(transport.State()));
        transport.State() == o.net && err == (if o.result.Failure? then Some(o.result.error) else None)
    {
      var reply := transport.Do(LoginRequest(Creds()));
      var r := LoginResult(Rev, reply);
      err := if r.Failure? then Some(r.error) else None;
    }

    method DoWithAuth(req: Request) returns (r: Result<Response, Error>)
      modifies transport
      ensures Outcome(r, transport.State()) == Session.DoWithAuth(Rev, Creds(), transport.server, old(transport.State()), req)
    {
      var reply := transport.Do(req);
      if reply.Failed? {
        return Failure(TransportFailure(reply.reason));
      }
      var e := Classify(Rev, reply.response);
      if e.None? {
        return Success(reply.response);
      }
      if !e.value.Authentication? {
        return Failure(e.value);
      }
      var loginErr := Login();
      if loginErr.Some? {
        return Failure(loginErr.value);
      }
      var retry := transport.Do(req);
      r := Unclassified(retry);
    }

    method SetListenerID(id: string)
      modifies this
      ensures listenerID == id
    {
      listenerID := id;
    }

    function ListenerID(): string
      reads this
    {
      listenerID
    }

    method RegisterListener() returns (err: Option<Error>)
      modifies this, transport
      ensures ListenerOutcome(err, transport.State(), listenerID)
        == Register(Creds(), transport.server, old(transport.State()), old(listenerID))
    {
      var r := DoWithAuth(RegisterRequest(Creds()));
      if r.Failure? {
        return Some(r.error);
      }
      if r.value.listenerId.None? {
        return Some(BodyDecode);
      }
      SetListenerID(r.value.listenerId.value);
      err := None;
    }

    method UnregisterListener() returns (err: Option<Error>)
      modifies this, transport
      ensures ListenerOutcome(err, transport.State(), listenerID)
        == Unregister(Creds(), transport.server, old(transport.State()), old(listenerID))
    {
      if ListenerID() == "" {
        return None;
      }
      var r := DoWithAuth(UnregisterRequest(Creds(), ListenerID()));
      if r.Failure? {
        return Some(r.error);
      }
      SetListenerID("");
      err := None;
    }

    method PollEventsWithID(lid: string) returns (r: Result<Response, Error>)
      modifies transport
      ensures Outcome(r, transport.State()) == PollWithID(Creds(), transport.server, old(transport.State()), lid)
    {
      if lid == "" {
        return Failure(NoRegisteredEventListener(EmptyListenerMessage));
      }
      r := DoWithAuth(FetchRequest(Creds(), lid));
    }

    method PollEvents() returns (r: Result<Option<Response>, Error>)
      modifies this, transport
      ensures ListenerOutcome(r, transport.State(), listenerID)
        == PollEventsAsWritten(Creds(), transport.server, old(transport.State()), old(listenerID))
    {
      if ListenerID() == "" {
        var err := RegisterListener();
        if err.Some? {
          return Failure(err.value);
        }
      }
      var resp := PollEventsWithID(ListenerID());
      if resp.Failure? {
        if resp.error.NoRegisteredEventListener? {
          var err := RegisterListener();
          if err.Some? {
            return Failure(err.value);
          }
          resp := PollEventsWithID(ListenerID());
          if resp.Failure? {
            return Failure(resp.error);
          }
          return Success(Some(resp.value));
        }
        return Success(None);
      }
      r := Success(Some(resp.value));
    }
  }
}
