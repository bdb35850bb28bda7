/**
 * group/group.go: the mapping from a device (by URL, with an optional label) to the KNX
 * group addresses of its commands and states.
 */
module KnxConfig {

  /** A KNX group address (cemi.GroupAddr, 16 bits). */
  newtype GroupAddr = x: int | 0 <= x < 0x1_0000

  /** A command or state name bound to a group address; group.Command and group.State have this shape. */
  datatype Binding = Binding(name: string, groupAddr: GroupAddr)

  datatype MappedDevice = MappedDevice(deviceLabel: string, url: string, commands: seq<Binding>, states: seq<Binding>)
}
