/**
 * The HTTP boundary shared by every client revision: requests, the abstract server that
 * answers them, and the cookie-bearing transport (`*http.Client` with its cookie jar).
 * JSON bodies are not parsed here; a response carries the views of its body the core
 * consults: the `{errorCode, error}` envelope and the `{id}` of a listener registration.
 */
module Http {
  import opened Wrappers

  const SessionCookie := "JSESSIONID"

  datatype Cookie = Cookie(name: string, value: string)

  /** The decoded `{errorCode, error}` error envelope of a body. */
  datatype ErrorEnvelope = ErrorEnvelope(errorCode: string, message: string)

  datatype Response = Response(
    status: int,
    envelope: Option<ErrorEnvelope>,  // None: the body does not decode as the envelope
    listenerId: Option<string>,       // None: the body does not decode as `{id}`
    cookies: seq<Cookie>)             // the Set-Cookie headers, in order

  datatype Request =
    | PostForm(url: string, userId: string, userPassword: string)
    | Call(verb: string, url: string)

  /** What the network gives back for one request. */
  datatype Reply = Failed(reason: string) | Got(response: Response)

  /** One request as it left the client, with the session cookie the jar attached ("" when none). */
  datatype Sent = Sent(request: Request, session: string)

  /**
   * The server: the reply to the last request of a log, given everything sent before it.
   * Any deterministic server, flaky network or test double is one of these.
   */
  type Server = seq<Sent> -> Reply

  /** The transport's observable state: every request sent so far, and the cookie jar. */
  datatype Net = Net(log: seq<Sent>, jar: map<string, string>)

  /** The result of an effectful step together with the transport state after it. */
  datatype Outcome<+T> = Outcome(result: T, net: Net)

  /** The jar a fresh client starts with: the cached session when there is one (NewWithHTTPClient). */
  function SeededJar(sessionID: string): (jar: map<string, string>)
    ensures SessionID(jar) == sessionID
  {
    if sessionID != "" then map[SessionCookie := sessionID] else map[]
  }

  /** `SessionID()`: the jar's session cookie when its value is non-empty, else "". */
  function SessionID(jar: map<string, string>): string
  {
    if SessionCookie in jar && jar[SessionCookie] != "" then jar[SessionCookie] else ""
  }

  /** Stores the cookies of a response in the jar, a later cookie of the same name replacing an earlier one. */
  function Absorb(jar: map<string, string>, cookies: seq<Cookie>): map<string, string>
    decreases |cookies|
  {
    if cookies == [] then jar else Absorb(jar[cookies[0].name := cookies[0].value], cookies[1..])
  }

  /**
   * The first non-empty JSESSIONID value among a response's cookies: the search
   * every `Login` revision runs over `resp.Cookies()`.
   */
  function SessionCookieValue(cookies: seq<Cookie>): (v: Option<string>)
    ensures v.Some? <==> exists i :: 0 <= i < |cookies| && cookies[i].name == SessionCookie && cookies[i].value != ""
    ensures v.Some? ==> v.value != ""
    ensures v.Some? ==>
      exists i :: 0 <= i < |cookies| && cookies[i] == Cookie(SessionCookie, v.value) &&
        forall j :: 0 <= j < i ==> cookies[j].name != SessionCookie || cookies[j].value == ""
  {
    if cookies == [] then None
    else if cookies[0].name == SessionCookie && cookies[0].value != "" then Some(cookies[0].value)
    else
      var v := SessionCookieValue(cookies[1..]);
      assert forall i :: 0 < i < |cookies| ==> cookies[i] == cookies[1..][i - 1];
      v
  }

  /** One round trip: the request is logged with the current session, answered, and its cookies kept. */
  function Step(server: Server, net: Net, request: Request): Outcome<Reply>
  {
    var log := net.log + [Sent(request, SessionID(net.jar))];
    var reply := server(log);
    Outcome(reply, Net(log, if reply.Got? then Absorb(net.jar, reply.response.cookies) else net.jar))
  }

  /** The requests sent between two transport states. */
  function SentSince(before: Net, after: Net): seq<Request>
    requires |before.log| <= |after.log|
  {
    seq(|after.log| - |before.log|, i requires 0 <= i < |after.log| - |before.log| => after.log[|before.log| + i].request)
  }

  /** `after` only appended requests to the log of `before`. */
  predicate Extends(before: Net, after: Net) {
    |before.log| <= |after.log| && after.log[..|before.log|] == before.log
  }

  lemma ExtendsTransitive(a: Net, b: Net, c: Net)
    requires Extends(a, b) && Extends(b, c)
    ensures Extends(a, c)
    ensures forall k :: 0 <= k < |b.log| ==> c.log[k] == b.log[k]
  {
    assert forall k :: 0 <= k < |b.log| ==> c.log[k] == c.log[..|b.log|][k];
  }

  /** `*http.Client` with its cookie jar. */
  class Transport {
    const server: Server
    var log: seq<Sent>
    var jar: map<string, string>

    function State(): Net
      reads this
    {
      Net(log, jar)
    }

    constructor (server: Server)
      ensures this.server == server && log == [] && jar == map[]
    {
      this.server := server;
      log := [];
      jar := map[];
    }

    /** Replaces the jar (`hc.Jar = jar`). */
    method SetJar(jar: map<string, string>)
      modifies this
      ensures this.jar == jar && log == old(log)
    {
      this.jar := jar;
    }

    /** `hc.Do(req)` / `hc.PostForm(...)`. */
    method Do(request: Request) returns (reply: Reply)
      modifies this
      ensures Outcome(reply, State()) == Step(server, old(State()), request)
    {
      log := log + [Sent(request, SessionID(jar))];
      reply := server(log);
      if reply.Got? {
        jar := Absorb(jar, reply.response.cookies);
      }
    }
  }
}
