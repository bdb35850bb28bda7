/**
 * The record types of device.go, state.go, command.go and action.go, reduced to the
 * fields the modelled operations read or build.
 */
module Domain {

  datatype CommandDefinition = CommandDefinition(commandName: string, nparams: int)

  datatype StateDefinition = StateDefinition(stateType: string, qualifiedName: string, values: seq<string>)

  datatype DeviceDefinition = DeviceDefinition(commands: seq<CommandDefinition>, states: seq<StateDefinition>)

  datatype Device = Device(deviceLabel: string, deviceURL: string, definition: DeviceDefinition)

  /** A command with its integer parameters. */
  datatype Command = Command(name: string, parameters: seq<int>)

  /** The commands to run on one device. */
  datatype Action = Action(deviceURL: string, commands: seq<Command>)

  /** A scenario: actions run in sequence. */
  datatype ActionGroup = ActionGroup(actions: seq<Action>)

  /** The zero `Device{}` the lookup loop starts from. */
  const NoDevice := Device("", "", DeviceDefinition([], []))

  // The command vocabulary of the box.
  const CmdOn := "on"
  const CmdOff := "off"
  const CmdOpen := "open"
  const CmdClose := "close"
  const CmdStop := "stop"
  const CmdSetIntensity := "setIntensity"
  const CmdSetClosure := "setClosure"
}
