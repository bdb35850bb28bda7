/**
 * knxbridge/knxbridge.go: turning KNX group telegrams into calls on the Kiz devices the
 * configuration maps their destination to. Events from the box are not forwarded yet.
 */
module KnxBridge {
  import opened Wrappers
  import opened Errors
  import opened Domain
  import opened KnxConfig
  import Kizcool
  import Events

  newtype byte = x: int | 0 <= x < 256

  /** The APCI service of a group telegram. */
  datatype GroupCommand = GroupRead | GroupResponse | GroupWrite

  datatype GroupEvent = GroupEvent(command: GroupCommand, source: int, destination: GroupAddr, data: seq<byte>)

  /** The domain call processCommand makes on the device. */
  datatype DomainCall = TurnOn(device: Device) | TurnOff(device: Device) | SetIntensityTo(device: Device, intensity: int)

  const SetOnOff := "setOnOff"
  const SetIntensity := "setIntensity"

  /** The rescaling of a KNX 8-bit value onto the box's 0..100 intensity, rounding down. */
  function Intensity(b: byte): (n: int)
    ensures 0 <= n <= 100
    ensures n * 255 <= b as int * 100 < (n + 1) * 255
  {
    (b as int) * 100 / 255
  }

  lemma IntensityEndpoints()
    ensures Intensity(0) == 0 && Intensity(128) == 50 && Intensity(255) == 100
  {
  }

  /** A larger byte never gives a smaller intensity. */
  lemma IntensityMonotone(a: byte, b: byte)
    requires a <= b
    ensures Intensity(a) <= Intensity(b)
  {
    assert Intensity(a) * 255 <= a as int * 100 <= b as int * 100 < (Intensity(b) + 1) * 255;
  }

  /** processCommand: decode the payload the command's name calls for. */
  function ProcessCommand(gcmd: Binding, d: Device, data: seq<byte>): (r: Result<DomainCall, Error>)
    ensures gcmd.name == SetOnOff ==>
      (|data| < 1 <==> r == Failure(InvalidData(SetOnOff))) &&
      (|data| >= 1 && data[0] == 1 <==> r == Success(TurnOn(d))) &&
      (|data| >= 1 && data[0] != 1 <==> r == Success(TurnOff(d)))
    ensures gcmd.name == SetIntensity ==>
      (|data| < 2 <==> r == Failure(InvalidData(SetIntensity))) &&
      (|data| >= 2 ==> r == Success(SetIntensityTo(d, Intensity(data[1]))))
    ensures gcmd.name != SetOnOff && gcmd.name != SetIntensity ==> r == Failure(UnhandledCommand)
    ensures r.Success? ==> r.value.device == d
  {
    if gcmd.name == SetOnOff then
      if |data| < 1 then Failure(InvalidData(SetOnOff))
      else if data[0] == 1 then Success(TurnOn(d))
      else Success(TurnOff(d))
    else if gcmd.name == SetIntensity then
      if |data| < 2 then Failure(InvalidData(SetIntensity))
      else Success(SetIntensityTo(d, Intensity(data[1])))
    else Failure(UnhandledCommand)
  }

  /** The bytes of a switch telegram are compared with 1 as they are: no masking of the low bit. */
  lemma SwitchIsNotMasked(gcmd: Binding, d: Device)
    requires gcmd.name == SetOnOff
    ensures ProcessCommand(gcmd, d, [3]) == Success(TurnOff(d))
    ensures ProcessCommand(gcmd, d, [1, 0]) == Success(TurnOn(d))
  {
  }

  /** What the Kiz client does with a domain call: the device operation of that name. */
  function Perform(call: DomainCall, execute: ActionGroup -> Result<string, Error>): Kizcool.Invocation {
    match call
    case TurnOn(d) => Kizcool.On(d, execute)
    case TurnOff(d) => Kizcool.Off(d, execute)
    case SetIntensityTo(d, n) => Kizcool.SetIntensity(d, n, execute)
  }

  /**
   * A scaling telegram reaches the box as one setIntensity command with the rescaled value,
   * exactly when the device supports setIntensity; otherwise nothing is executed.
   */
  lemma ScalingTelegramReachesBox(gcmd: Binding, d: Device, data: seq<byte>, execute: ActionGroup -> Result<string, Error>)
    requires gcmd.name == SetIntensity && |data| >= 2
    ensures var i := Perform(ProcessCommand(gcmd, d, data).value, execute);
      (i.submitted.Some? <==> exists k :: (0 <= k < |d.definition.commands| &&
        d.definition.commands[k].commandName == CmdSetIntensity)) &&
      (i.submitted.Some? ==> (i.submitted.value.actions ==
        [Action(d.deviceURL, [Command(CmdSetIntensity, [Intensity(data[1])])])]))
  {
    var i := Perform(ProcessCommand(gcmd, d, data).value, execute);
    assert i == Kizcool.SetIntensity(d, Intensity(data[1]), execute);
  }

  /** The command binding at (i, j) listens on `dest`. */
  ghost predicate Hit(devices: seq<MappedDevice>, dest: GroupAddr, i: int, j: int) {
    0 <= i < |devices| && 0 <= j < |devices[i].commands| && devices[i].commands[j].groupAddr == dest
  }

  /** (i, j) is the first binding on `dest`, scanning devices and then their commands in order. */
  ghost predicate FirstHit(devices: seq<MappedDevice>, dest: GroupAddr, i: int, j: int) {
    Hit(devices, dest, i, j) &&
    forall i', j' :: Hit(devices, dest, i', j') ==> i < i' || (i == i' && j <= j')
  }

  /** What processKnxEvent did: the error it returned, the device URL it fetched, the call it made. */
  datatype KnxOutcome = KnxOutcome(err: Option<Error>, fetched: Option<string>, call: Option<DomainCall>)

  const Ignored := KnxOutcome(None, None, None)

  /** The call processCommand made, if it made one; its error is not kept. */
  function CallMade(r: Result<DomainCall, Error>): Option<DomainCall> {
    if r.Success? then Some(r.value) else None
  }

  /** knxbridge.Bridge, with the fetch of a device by URL as a parameter. */
  class Bridge {
    const devices: seq<MappedDevice>

    constructor (devices: seq<MappedDevice>)
      ensures this.devices == devices
    {
      this.devices := devices;
    }

    /** processKizEvent: box events are not bridged; nothing happens. */
    method ProcessKizEvent(event: Events.Event) returns (err: Option<Error>)
      ensures err == None
    {
      err := None;
    }

    /**
     * processKnxEvent: only writes are handled; the first binding on the destination
     * selects the device, which is fetched and handed to processCommand, whose error is
     * dropped.
     */
    method ProcessKnxEvent(event: GroupEvent, getDevice: string -> Result<Device, Error>) returns (o: KnxOutcome)
      ensures event.command != GroupWrite ==> o == Ignored
      ensures (forall i, j :: !Hit(devices, event.destination, i, j)) ==> o == Ignored
      ensures event.command == GroupWrite && o != Ignored ==>
        exists i, j :: FirstHit(devices, event.destination, i, j) &&
          o.fetched == Some(devices[i].url) &&
          (getDevice(devices[i].url).Failure? ==>
            o.err == Some(DeviceFetch(devices[i].url, getDevice(devices[i].url).error)) && o.call.None?) &&
          (getDevice(devices[i].url).Success? ==>
            o.err.None? && o.call == CallMade(ProcessCommand(devices[i].commands[j], getDevice(devices[i].url).value, event.data)))
      ensures event.command == GroupWrite && (exists i, j :: Hit(devices, event.destination, i, j)) ==> o.fetched.Some?
    {
      if event.command != GroupWrite {
        return Ignored;
      }
      var i := 0;
      while i < |devices|
        invariant 0 <= i <= |devices|
        invariant forall i', j' :: 0 <= i' < i ==> !Hit(devices, event.destination, i', j')
      {
        var d := devices[i];
        var j := 0;
        while j < |d.commands|
          invariant 0 <= j <= |d.commands|
          invariant forall j' :: 0 <= j' < j ==> !Hit(devices, event.destination, i, j')
        {
          var gcmd := d.commands[j];
          if gcmd.groupAddr == event.destination {
            assert FirstHit(devices, event.destination, i, j);
            var fetched := getDevice(d.url);
            if fetched.Failure? {
              return KnxOutcome(Some(DeviceFetch(d.url, fetched.error)), Some(d.url), None);
            }
            var r := ProcessCommand(gcmd, fetched.value, event.data);
            return KnxOutcome(None, Some(d.url), CallMade(r));
          }
          j := j + 1;
        }
        i := i + 1;
      }
      o := Ignored;
    }
  }
}
