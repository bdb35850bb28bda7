/**
 * kizcool.go: the Kiz client's login, device lookup by URL or label, and the
 * single-command action groups behind On, Off, Open, Close, Stop, SetIntensity and
 * SetClosure. The HTTP endpoints that only fetch or post (GetDevice, GetDevices, Execute)
 * are parameters.
 */
module Kizcool {
  import opened Wrappers
  import opened Errors
  import opened Http
  import opened Session
  import opened Text
  import opened Domain

  const Rev := Classic

  // ---------------------------------------------------------------- commands

  /** Whether some command definition of `defs` is named `name`, scanning in order. */
  function DefinesCommand(defs: seq<CommandDefinition>, name: string): (b: bool)
    ensures b <==> exists i :: 0 <= i < |defs| && defs[i].commandName == name
  {
    if |defs| == 0 then false
    else if defs[0].commandName == name then true
    else
      var b := DefinesCommand(defs[1..], name);
      assert forall i :: 0 < i < |defs| ==> defs[i] == defs[1..][i - 1];
      b
  }

  /** supportsCommand: the device definition lists a command of that name. */
  function SupportsCommand(device: Device, command: Command): (b: bool)
    ensures b <==> exists i :: (0 <= i < |device.definition.commands| &&
      device.definition.commands[i].commandName == command.name)
  {
    DefinesCommand(device.definition.commands, command.name)
  }

  /** ActionGroupWithOneCommand: fails closed on an unsupported command. */
  function ActionGroupWithOneCommand(device: Device, command: Command): (r: Result<ActionGroup, Error>)
    ensures r.Success? <==> SupportsCommand(device, command)
    ensures r.Success? ==> (|r.value.actions| == 1 &&
      r.value.actions[0].deviceURL == device.deviceURL && r.value.actions[0].commands == [command])
    ensures r.Failure? ==> r.error == UnsupportedCommand
  {
    if !SupportsCommand(device, command) then Failure(UnsupportedCommand)
    else Success(ActionGroup([Action(device.deviceURL, [command])]))
  }

  /** What a device operation submitted to Execute, if anything, and what it returned. */
  datatype Invocation = Invocation(submitted: Option<ActionGroup>, result: Result<string, Error>)

  /** The body shared by On, Off, ..., SetClosure: build the group, and execute it only if that succeeded. */
  function Invoke(device: Device, command: Command, execute: ActionGroup -> Result<string, Error>): (i: Invocation)
    ensures i.submitted.Some? <==> SupportsCommand(device, command)
    ensures i.submitted.Some? ==> i.submitted.value == ActionGroup([Action(device.deviceURL, [command])])
    ensures i.submitted.Some? ==> i.result == execute(i.submitted.value)
    ensures i.submitted.None? ==> i.result == Failure(UnsupportedCommand)
  {
    match ActionGroupWithOneCommand(device, command)
    case Failure(e) => Invocation(None, Failure(e))
    case Success(ag) => Invocation(Some(ag), execute(ag))
  }

  /** The one command an invocation submitted. */
  predicate Submits(i: Invocation, device: Device, command: Command) {
    i.submitted == Some(ActionGroup([Action(device.deviceURL, [command])]))
  }

  function On(device: Device, execute: ActionGroup -> Result<string, Error>): (i: Invocation)
    ensures i.submitted.Some? <==> SupportsCommand(device, Command(CmdOn, []))
    ensures i.submitted.Some? ==> Submits(i, device, Command(CmdOn, []))
    ensures i.submitted.Some? ==> i.result == execute(i.submitted.value)
    ensures i.submitted.None? ==> i.result == Failure(UnsupportedCommand)
  {
    Invoke(device, Command(CmdOn, []), execute)
  }

  function Off(device: Device, execute: ActionGroup -> Result<string, Error>): (i: Invocation)
    ensures i.submitted.Some? <==> SupportsCommand(device, Command(CmdOff, []))
    ensures i.submitted.Some? ==> Submits(i, device, Command(CmdOff, []))
    ensures i.submitted.Some? ==> i.result == execute(i.submitted.value)
    ensures i.submitted.None? ==> i.result == Failure(UnsupportedCommand)
  {
    Invoke(device, Command(CmdOff, []), execute)
  }

  function Open(device: Device, execute: ActionGroup -> Result<string, Error>): (i: Invocation)
    ensures i.submitted.Some? <==> SupportsCommand(device, Command(CmdOpen, []))
    ensures i.submitted.Some? ==> Submits(i, device, Command(CmdOpen, []))
    ensures i.submitted.Some? ==> i.result == execute(i.submitted.value)
    ensures i.submitted.None? ==> i.result == Failure(UnsupportedCommand)
  {
    Invoke(device, Command(CmdOpen, []), execute)
  }

  function Close(device: Device, execute: ActionGroup -> Result<string, Error>): (i: Invocation)
    ensures i.submitted.Some? <==> SupportsCommand(device, Command(CmdClose, []))
    ensures i.submitted.Some? ==> Submits(i, device, Command(CmdClose, []))
    ensures i.submitted.Some? ==> i.result == execute(i.submitted.value)
    ensures i.submitted.None? ==> i.result == Failure(UnsupportedCommand)
  {
    Invoke(device, Command(CmdClose, []), execute)
  }

  function Stop(device: Device, execute: ActionGroup -> Result<string, Error>): (i: Invocation)
    ensures i.submitted.Some? <==> SupportsCommand(device, Command(CmdStop, []))
    ensures i.submitted.Some? ==> Submits(i, device, Command(CmdStop, []))
    ensures i.submitted.Some? ==> i.result == execute(i.submitted.value)
    ensures i.submitted.None? ==> i.result == Failure(UnsupportedCommand)
  {
    Invoke(device, Command(CmdStop, []), execute)
  }

  /** The intensity is passed on as given: no range check. */
  function SetIntensity(device: Device, intensity: int, execute: ActionGroup -> Result<string, Error>): (i: Invocation)
    ensures i.submitted.Some? <==> SupportsCommand(device, Command(CmdSetIntensity, [intensity]))
    ensures i.submitted.Some? ==> Submits(i, device, Command(CmdSetIntensity, [intensity]))
    ensures i.submitted.Some? ==> i.result == execute(i.submitted.value)
    ensures i.submitted.None? ==> i.result == Failure(UnsupportedCommand)
  {
    Invoke(device, Command(CmdSetIntensity, [intensity]), execute)
  }

  /** The position is passed on as given: no range check. */
  function SetClosure(device: Device, position: int, execute: ActionGroup -> Result<string, Error>): (i: Invocation)
    ensures i.submitted.Some? <==> SupportsCommand(device, Command(CmdSetClosure, [position]))
    ensures i.submitted.Some? ==> Submits(i, device, Command(CmdSetClosure, [position]))
    ensures i.submitted.Some? ==> i.result == execute(i.submitted.value)
    ensures i.submitted.None? ==> i.result == Failure(UnsupportedCommand)
  {
    Invoke(device, Command(CmdSetClosure, [position]), execute)
  }

  /** Support depends on the command name only, so the parameter of SetIntensity never decides whether it is sent. */
  lemma SupportIgnoresParameters(device: Device, a: int, b: int)
    ensures SetIntensity(device, a, (ag: ActionGroup) => Success("")).submitted.Some?
        <==> SetIntensity(device, b, (ag: ActionGroup) => Success("")).submitted.Some?
    ensures SetClosure(device, a, (ag: ActionGroup) => Success("")).submitted.Some?
        <==> SetClosure(device, b, (ag: ActionGroup) => Success("")).submitted.Some?
  {
  }

  // ---------------------------------------------------------------- device URLs

  predicate IsLowerLetter(c: char) { 'a' <= c <= 'z' }

  predicate IsDigit(c: char) { '0' <= c <= '9' }

  /** `s[..k]` are all lower-case letters. */
  predicate LowerBefore(s: string, k: int)
    requires 0 <= k <= |s|
  {
    forall i :: 0 <= i < k ==> IsLowerLetter(s[i])
  }

  /** `s[from..to]` are all decimal digits. */
  predicate DigitsIn(s: string, from: nat, to: nat)
    requires from <= to <= |s|
  {
    forall i :: from <= i < to ==> IsDigit(s[i])
  }

  /** From index `k` on, `s` reads `://`, three dash-separated groups of four digits, `/` and a digit. */
  predicate ShapeAt(s: string, k: nat) {
    |s| >= k + 19 && s[k] == ':' && s[k + 1] == '/' && s[k + 2] == '/' &&
    DigitsIn(s, k + 3, k + 7) && s[k + 7] == '-' && DigitsIn(s, k + 8, k + 12) && s[k + 12] == '-' &&
    DigitsIn(s, k + 13, k + 17) && s[k + 17] == '/' && IsDigit(s[k + 18])
  }

  /** The regular expression `^[a-z]+://\d{4}-\d{4}-\d{4}/\d+` matches a prefix of `s`. */
  predicate MatchesURLShape(s: string) {
    exists k :: 1 <= k <= |s| && LowerBefore(s, k) && ShapeAt(s, k)
  }

  /** The length of the run of lower-case letters `s` starts with. */
  function SchemeLength(s: string): (n: nat)
    ensures n <= |s| && LowerBefore(s, n)
    ensures n < |s| ==> !IsLowerLetter(s[n])
  {
    if |s| == 0 || !IsLowerLetter(s[0]) then 0
    else
      var n := 1 + SchemeLength(s[1..]);
      assert forall i :: 1 <= i < n ==> s[i] == s[1..][i - 1];
      n
  }

  /** A run of lower-case letters that is not followed by another one is the leading run. */
  lemma SchemeEnds(s: string, k: int)
    requires 0 <= k <= |s| && LowerBefore(s, k)
    requires k < |s| ==> !IsLowerLetter(s[k])
    ensures k == SchemeLength(s)
  {
  }

  /** A scheme followed by the URL shape can only be the whole leading run of lower-case letters. */
  lemma SchemeIsLeadingRun(s: string)
    ensures forall k :: 1 <= k <= |s| && LowerBefore(s, k) && ShapeAt(s, k) ==> k == SchemeLength(s)
  {
    forall k | 1 <= k <= |s| && LowerBefore(s, k) && ShapeAt(s, k)
      ensures k == SchemeLength(s)
    {
      SchemeEnds(s, k);
    }
  }

  /** The URL-shape test of GetDeviceByText, matching greedily as the regular expression engine does. */
  function IsDeviceURL(s: string): (b: bool)
    ensures b <==> MatchesURLShape(s)
  {
    SchemeIsLeadingRun(s);
    var n := SchemeLength(s);
    n >= 1 && ShapeAt(s, n)
  }

  /** The match has no end anchor: anything may follow a device URL. */
  lemma {:induction false} DeviceURLIsPrefixMatch(s: string, t: string)
    requires IsDeviceURL(s)
    ensures IsDeviceURL(s + t)
  {
    var k :| 1 <= k <= |s| && LowerBefore(s, k) && ShapeAt(s, k);
    var u := s + t;
    assert forall i :: 0 <= i < |s| ==> u[i] == s[i];
    assert LowerBefore(u, k) && ShapeAt(u, k);
  }

  /** The device URL of the tests has the URL shape right after its two-letter scheme. */
  lemma SampleShape()
    ensures ShapeAt("io://1111-0000-4444/12345678", 2)
  {
    var u := "io://1111-0000-4444/12345678";
    SampleDigits();
    assert u[2] == ':' && u[3] == '/' && u[4] == '/';
    assert u[9] == '-' && u[14] == '-' && u[19] == '/';
  }

  /** The digit groups of the tests' device URL. */
  lemma SampleDigits()
    ensures var u := "io://1111-0000-4444/12345678";
      DigitsIn(u, 5, 9) && DigitsIn(u, 10, 14) && DigitsIn(u, 15, 19) && IsDigit(u[20])
  {
  }

  lemma DeviceURLAccepted()
    ensures IsDeviceURL("io://1111-0000-4444/12345678")
  {
    var u := "io://1111-0000-4444/12345678";
    SampleShape();
    assert LowerBefore(u, 2);
  }

  lemma DeviceURLRejected()
    ensures !IsDeviceURL("IO://1111-0000-4444/12345678")
    ensures !IsDeviceURL("label1")
  {
    SchemeEnds("label1", 5);
  }

  /** The scheme of `io://...` is `io`. */
  lemma IoScheme(s: string)
    requires |s| > 2 && s[0] == 'i' && s[1] == 'o' && s[2] == ':'
    ensures SchemeLength(s) == 2
  {
    SchemeEnds(s, 2);
  }

  lemma DeviceURLNeedsFourDigits()
    ensures !IsDeviceURL("io://111-0000-4444/12345678")
  {
    var bad := "io://111-0000-4444/12345678";
    ShortGroupFacts();
    IoScheme(bad);
    NoDashAt(bad, 2);
  }

  /** The test URL with three digits in its first group has a digit where the dash belongs. */
  lemma ShortGroupFacts()
    ensures var bad := "io://111-0000-4444/12345678";
      |bad| == 27 && bad[0] == 'i' && bad[1] == 'o' && bad[2] == ':' && bad[9] == '0'
  {
  }

  /** The first group is followed by a dash at k + 7 in every URL shape. */
  lemma NoDashAt(s: string, k: nat)
    requires |s| > k + 7 && s[k + 7] != '-'
    ensures !ShapeAt(s, k)
  {
  }

  // ---------------------------------------------------------------- device lookup

  /** The device's label equals `query` once both are lower-cased. */
  predicate LabelMatches(query: string, d: Device) {
    ToLower(d.deviceLabel) == ToLower(query)
  }

  /** Two matching devices, the earlier of which has a URL. */
  predicate Ambiguous(query: string, devices: seq<Device>) {
    exists i, j :: 0 <= i < j < |devices| && LabelMatches(query, devices[i]) && LabelMatches(query, devices[j]) &&
      devices[i].deviceURL != ""
  }

  /** Some matching device has a URL. */
  predicate Found(query: string, devices: seq<Device>) {
    exists i :: 0 <= i < |devices| && LabelMatches(query, devices[i]) && devices[i].deviceURL != ""
  }

  /**
   * DeviceFromListByLabel: the one device whose query matches. Two matches where the
   * first has a URL are an error even if the entries are identical; a match without URL
   * does not count as found.
   */
  method DeviceFromListByLabel(query: string, devices: seq<Device>) returns (r: Result<Device, Error>)
    ensures r == Failure(AmbiguousLabel) <==> Ambiguous(query, devices)
    ensures r == Failure(NoDeviceWithLabel) <==> !Ambiguous(query, devices) && !Found(query, devices)
    ensures r.Success? <==> !Ambiguous(query, devices) && Found(query, devices)
    ensures r.Success? ==> exists i :: (0 <= i < |devices| && r.value == devices[i] &&
      LabelMatches(query, devices[i]) && devices[i].deviceURL != "" &&
      forall j :: 0 <= j < |devices| && j != i && LabelMatches(query, devices[j]) ==> j < i && devices[j].deviceURL == "")
  {
    var found := NoDevice;
    ghost var at := -1;
    var n := 0;
    while n < |devices|
      invariant 0 <= n <= |devices|
      invariant -1 <= at < n
      invariant at == -1 ==> found == NoDevice
      invariant at >= 0 ==> found == devices[at] && LabelMatches(query, devices[at])
      invariant forall j :: 0 <= j < n && LabelMatches(query, devices[j]) ==> j <= at
      invariant forall j :: 0 <= j < n && j != at && LabelMatches(query, devices[j]) ==> devices[j].deviceURL == ""
    {
      var d := devices[n];
      if ToLower(d.deviceLabel) == ToLower(query) {
        if found.deviceURL != "" {
          assert LabelMatches(query, devices[at]) && LabelMatches(query, devices[n]);
          return Failure(AmbiguousLabel);
        }
        found := d;
        at := n;
      }
      n := n + 1;
    }
    if found.deviceURL == "" {
      return Failure(NoDeviceWithLabel);
    }
    r := Success(found);
  }

  /** ASCII lower-casing is idempotent. */
  lemma ToLowerIdempotent(s: string)
    ensures ToLower(ToLower(s)) == ToLower(s)
  {
  }

  /** The lookup ignores case: a query and its lower-cased form match the same devices. */
  lemma LookupIgnoresCase(query: string, devices: seq<Device>)
    ensures Ambiguous(ToLower(query), devices) <==> Ambiguous(query, devices)
    ensures Found(ToLower(query), devices) <==> Found(query, devices)
  {
    ToLowerIdempotent(query);
  }

  /** The list of the lookup test: a unique query, an unknown one, and one listed twice. */
  lemma LookupExamples()
    ensures var d1 := Device("label1", "url1", DeviceDefinition([], []));
      var d2 := Device("label2", "url2", DeviceDefinition([], []));
      var ds := [d1, d2, d2];
      !Ambiguous("label1", ds) && Found("label1", ds) &&
      !Ambiguous("bogus", ds) && !Found("bogus", ds) &&
      Ambiguous("label2", ds)
  {
    var d1 := Device("label1", "url1", DeviceDefinition([], []));
    var d2 := Device("label2", "url2", DeviceDefinition([], []));
    var ds := [d1, d2, d2];
    assert ToLower("label1") == "label1";
    assert ToLower("label2") == "label2";
    assert ToLower("bogus") == "bogus";
    assert LabelMatches("label1", ds[0]);
    assert !LabelMatches("label1", ds[1]) by { assert ToLower(ds[1].deviceLabel)[5] == '2'; }
    assert !LabelMatches("bogus", ds[0]) by { assert ToLower(ds[0].deviceLabel)[0] == 'l'; }
    assert !LabelMatches("bogus", ds[1]) by { assert ToLower(ds[1].deviceLabel)[0] == 'l'; }
    assert LabelMatches("label2", ds[1]) && LabelMatches("label2", ds[2]);
  }

  /** TestDeviceFromListByLabel: "label1" returns device1, "bogus" is not found, "label2" is listed twice. */
  method LookupTestCases() returns (found: Result<Device, Error>, missing: Result<Device, Error>, twice: Result<Device, Error>)
    ensures found == Success(Device("label1", "url1", DeviceDefinition([], [])))
    ensures missing == Failure(NoDeviceWithLabel)
    ensures twice == Failure(AmbiguousLabel)
  {
    var d1 := Device("label1", "url1", DeviceDefinition([], []));
    var d2 := Device("label2", "url2", DeviceDefinition([], []));
    var ds := [d1, d2, d2];
    LookupExamples();
    found := DeviceFromListByLabel("label1", ds);
    assert !LabelMatches("label1", ds[1]) && !LabelMatches("label1", ds[2]) by {
      assert ToLower(ds[1].deviceLabel)[5] == '2';
      assert ToLower("label1")[5] == '1';
    }
    missing := DeviceFromListByLabel("bogus", ds);
    twice := DeviceFromListByLabel("label2", ds);
  }

  /** The endpoint GetDeviceByText asked. */
  datatype Fetch = ByURL(url: string) | AllDevices

  /**
   * GetDeviceByText: a text with the URL shape is fetched as a device URL; any other text
   * is looked up by query among all devices. `getDevice` and `getDevices` stand for the
   * two GET endpoints.
   */
  method GetDeviceByText(text: string, getDevice: string -> Result<Device, Error>, getDevices: Result<seq<Device>, Error>)
    returns (r: Result<Device, Error>, asked: Fetch)
    ensures asked == ByURL(text) <==> MatchesURLShape(text)
    ensures asked == AllDevices <==> !MatchesURLShape(text)
    ensures asked == ByURL(text) ==> r == getDevice(text)
    ensures asked == AllDevices && getDevices.Failure? ==> r == Failure(getDevices.error)
    ensures asked == AllDevices && getDevices.Success? ==>
      (r == Failure(AmbiguousLabel) <==> Ambiguous(text, getDevices.value)) &&
      (r == Failure(NoDeviceWithLabel) <==> !Ambiguous(text, getDevices.value) && !Found(text, getDevices.value)) &&
      (r.Success? <==> !Ambiguous(text, getDevices.value) && Found(text, getDevices.value)) &&
      (r.Success? ==> exists i :: (0 <= i < |getDevices.value| && r.value == getDevices.value[i] &&
        LabelMatches(text, getDevices.value[i]) && getDevices.value[i].deviceURL != "" &&
        forall j :: 0 <= j < |getDevices.value| && j != i && LabelMatches(text, getDevices.value[j]) ==>
          j < i && getDevices.value[j].deviceURL == ""))
  {
    if IsDeviceURL(text) {
      asked := ByURL(text);
      r := getDevice(text);
      return;
    }
    asked := AllDevices;
    if getDevices.Failure? {
      r := Failure(getDevices.error);
      return;
    }
    r := DeviceFromListByLabel(text, getDevices.value);
  }

  // ---------------------------------------------------------------- the client

  /** kizcool.Kiz: its own HTTP client with an empty cookie jar. */
  class Kiz {
    const config: Credentials
    const transport: Transport

    /** New: a fresh jar; no session is seeded. */
    constructor New(config: Credentials, transport: Transport)
      modifies transport
      ensures this.config == config && this.transport == transport
      ensures transport.jar == map[] && transport.log == old(transport.log)
    {
      this.config := config;
      this.transport := transport;
      new;
      transport.SetJar(map[]);
    }

    /** Login: one form POST; a 200 reply without a non-empty JSESSIONID cookie is its own error. */
    method Login() returns (err: Option<Error>)
      modifies transport
      ensures var o := Session.Login(Rev, config, transport.server, old(transport.State()));
        transport.State() == o.net && err == (if o.result.Failure? then Some(o.result.error) else None)
    {
      var reply := transport.Do(LoginRequest(config));
      var r := LoginResult(Rev, reply);
      err := if r.Failure? then Some(r.error) else None;
    }
  }
}
