/**
 * org.ev3dev.hardware.motors.DCMotor: a dc-motor handle over the org.ev3dev
 * Device base class. Unlike Motor it has no connectivity guard: every accessor
 * reads or writes its attribute directly, whatever the device's state.
 */
module OrgMotors {
  import opened Wrappers
  import opened JavaLang
  import opened Sysfs
  import opened Defs
  import opened Devices
  import opened Ports

  class DCMotor {
    /** The Device part: store, class Def.DC_MOTOR_CLASS_NAME and the bound instance. */
    const dev: Device
    const def: Table
    const address: string

    /** Assembles a handle once Open's checks have passed; only Open creates handles. */
    constructor (dev: Device, def: Table, address: string)
      requires dev.cls == def.dcMotorClass
      ensures this.dev == dev && this.def == def && this.address == address
    {
      this.dev := dev;
      this.def := def;
      this.address := address;
    }

    /**
     * new DCMotor(port). The Device constructor binds the dc-motor class to
     * the instance `inst` (how it finds it is not modelled); then an address
     * without "out" throws InvalidPortException, and only after that a status
     * other than the dc-motor class throws InvalidMotorException.
     */
    static method Open(port: LegoPort, def: Table, inst: string, connected: bool) returns (r: Result<DCMotor, Error>)
      ensures var verdict := Admission(port.GetAddress(), port.GetStatus(), def.dcMotorClass, InvalidMotorException);
              (r.Success? <==> verdict == Pass) && (r.Failure? ==> r.error == verdict.error)
      ensures r.Success? ==> fresh(r.value) && fresh(r.value.dev) && r.value.def == def
      ensures r.Success? ==> r.value.address == port.GetAddress().value
      ensures r.Success? ==> r.value.dev.store == port.store && r.value.dev.cls == def.dcMotorClass
      ensures r.Success? ==> r.value.dev.inst == inst && r.value.dev.connected == connected
    {
      var dev := new Device(port.store, def.dcMotorClass, inst, connected);
      var address := port.GetAddress();
      if address.Failure? {
        return Failure(address.error);
      }
      if !Contains(address.value, "out") {
        return Failure(InvalidPortException);
      } else {
        var status := port.GetStatus();
        if status.Failure? {
          return Failure(status.error);
        }
        if status.value != def.dcMotorClass {
          return Failure(InvalidMotorException);
        }
      }
      var m := new DCMotor(dev, def, address.value);
      return Success(m);
    }

    /** The file behind attribute constant `p`: the Device's class and instance. */
    function AttrKey(p: Prop): Key
    {
      dev.KeyOf(def.prop(p))
    }

    /** getAddress: the address attribute. */
    function GetAddress(): (r: Result<string, Error>)
      reads dev.store
      ensures r == dev.store.Read(dev.KeyOf(def.prop(Prop.Address)))
    {
      dev.store.Read(AttrKey(Prop.Address))
    }

    /** sendCommand: writes `command` to the command attribute. */
    method SendCommand(command: string)
      modifies dev.store
      ensures dev.store.attrs == old(dev.store.attrs)[AttrKey(Prop.Command) := command]
    {
      dev.SetAttribute(def.prop(Prop.Command), command);
    }

    /** runForever: writes the COMMAND_RUN_FOREVER token. */
    method RunForever()
      modifies dev.store
      ensures dev.store.attrs == old(dev.store.attrs)[AttrKey(Prop.Command) := def.cmd(Cmd.RunForever)]
    {
      SendCommand(def.cmd(Cmd.RunForever));
    }

    /** runTimed: writes the COMMAND_RUN_TIMED token. */
    method RunTimed()
      modifies dev.store
      ensures dev.store.attrs == old(dev.store.attrs)[AttrKey(Prop.Command) := def.cmd(Cmd.RunTimed)]
    {
      SendCommand(def.cmd(Cmd.RunTimed));
    }

    /** stop: writes the COMMAND_STOP token. */
    method Stop()
      modifies dev.store
      ensures dev.store.attrs == old(dev.store.attrs)[AttrKey(Prop.Command) := def.cmd(Cmd.Stop)]
    {
      SendCommand(def.cmd(Cmd.Stop));
    }

    /** getCommands: the commands attribute split into tokens. */
    function GetCommands(): (r: Result<seq<string>, Error>)
      reads dev.store
      ensures r == dev.store.ReadList(dev.KeyOf(def.prop(Prop.Commands)))
    {
      dev.store.ReadList(AttrKey(Prop.Commands))
    }

    /** getDriverName: the driver_name attribute. */
    function GetDriverName(): (r: Result<string, Error>)
      reads dev.store
      ensures r == dev.store.Read(dev.KeyOf(def.prop(Prop.DriverName)))
    {
      dev.store.Read(AttrKey(Prop.DriverName))
    }

    /** getDutyCycle: the duty_cycle attribute as an int. */
    function GetDutyCycle(): (r: Result<int32, Error>)
      reads dev.store
      ensures r == dev.store.ReadInt(dev.KeyOf(def.prop(Prop.DutyCycle)))
    {
      dev.store.ReadInt(AttrKey(Prop.DutyCycle))
    }

    /** getDutyCycleSP: the duty_cycle_sp attribute as an int. */
    function GetDutyCycleSP(): (r: Result<int32, Error>)
      reads dev.store
      ensures r == dev.store.ReadInt(dev.KeyOf(def.prop(Prop.DutyCycleSp)))
    {
      dev.store.ReadInt(AttrKey(Prop.DutyCycleSp))
    }

    /** setDutyCycleSP: writes duty_cycle_sp. */
    method SetDutyCycleSP(v: int32)
      modifies dev.store
      ensures dev.store.attrs == old(dev.store.attrs)[AttrKey(Prop.DutyCycleSp) := IntToString(v)]
      ensures GetDutyCycleSP() == Success(v)
    {
      dev.SetAttribute(def.prop(Prop.DutyCycleSp), IntToString(v));
    }

    /** getPolarity: the polarity attribute. */
    function GetPolarity(): (r: Result<string, Error>)
      reads dev.store
      ensures r == dev.store.Read(dev.KeyOf(def.prop(Prop.Polarity)))
    {
      dev.store.Read(AttrKey(Prop.Polarity))
    }

    /** setPolarity: writes polarity. */
    method SetPolarity(v: string)
      modifies dev.store
      ensures dev.store.attrs == old(dev.store.attrs)[AttrKey(Prop.Polarity) := v]
      ensures GetPolarity() == Success(v)
    {
      dev.SetAttribute(def.prop(Prop.Polarity), v);
    }

    /** getRamp_Up_SP: the ramp_up_sp attribute as an int. */
    function GetRampUpSP(): (r: Result<int32, Error>)
      reads dev.store
      ensures r == dev.store.ReadInt(dev.KeyOf(def.prop(Prop.RampUpSp)))
    {
      dev.store.ReadInt(AttrKey(Prop.RampUpSp))
    }

    /** setRamp_Up_SP: writes ramp_up_sp. */
    method SetRampUpSP(v: int32)
      modifies dev.store
      ensures dev.store.attrs == old(dev.store.attrs)[AttrKey(Prop.RampUpSp) := IntToString(v)]
      ensures GetRampUpSP() == Success(v)
    {
      dev.SetAttribute(def.prop(Prop.RampUpSp), IntToString(v));
    }

    /** getRamp_Down_SP: the ramp_down_sp attribute as an int. */
    function GetRampDownSP(): (r: Result<int32, Error>)
      reads dev.store
      ensures r == dev.store.ReadInt(dev.KeyOf(def.prop(Prop.RampDownSp)))
    {
      dev.store.ReadInt(AttrKey(Prop.RampDownSp))
    }

    /** setRamp_Down_SP: writes ramp_down_sp. */
    method SetRampDownSP(v: int32)
      modifies dev.store
      ensures dev.store.attrs == old(dev.store.attrs)[AttrKey(Prop.RampDownSp) := IntToString(v)]
      ensures GetRampDownSP() == Success(v)
    {
      dev.SetAttribute(def.prop(Prop.RampDownSp), IntToString(v));
    }

    /** getStateViaString: the raw state text. */
    function GetStateViaString(): (r: Result<string, Error>)
      reads dev.store
      ensures r == dev.store.Read(dev.KeyOf(def.prop(Prop.State)))
    {
      dev.store.Read(AttrKey(Prop.State))
    }

    /** getState: the state text split into flags. */
    function GetState(): (r: Result<seq<string>, Error>)
      reads dev.store
      ensures r == dev.store.ReadList(dev.KeyOf(def.prop(Prop.State)))
    {
      var str := GetStateViaString();
      if str.Failure? then Failure(str.error) else Success(Tokens(str.value))
    }

    /** getStopCommand: the stop_action attribute. */
    function GetStopCommand(): (r: Result<string, Error>)
      reads dev.store
      ensures r == dev.store.Read(dev.KeyOf(def.prop(Prop.StopAction)))
    {
      dev.store.Read(AttrKey(Prop.StopAction))
    }

    /** setStopCommand: writes stop_action. */
    method SetStopCommand(v: string)
      modifies dev.store
      ensures dev.store.attrs == old(dev.store.attrs)[AttrKey(Prop.StopAction) := v]
      ensures GetStopCommand() == Success(v)
    {
      dev.SetAttribute(def.prop(Prop.StopAction), v);
    }

    /** getStopCommandsViaString: the raw stop_actions text. */
    function GetStopCommandsViaString(): (r: Result<string, Error>)
      reads dev.store
      ensures r == dev.store.Read(dev.KeyOf(def.prop(Prop.StopActions)))
    {
      dev.store.Read(AttrKey(Prop.StopActions))
    }

    /** getStopCommands: the stop_actions text split into tokens. */
    function GetStopCommands(): (r: Result<seq<string>, Error>)
      reads dev.store
      ensures r == dev.store.ReadList(dev.KeyOf(def.prop(Prop.StopActions)))
    {
      var str := GetStopCommandsViaString();
      if str.Failure? then Failure(str.error) else Success(Tokens(str.value))
    }

    /** getTime_SP: the time_sp attribute as an int. */
    function GetTimeSP(): (r: Result<int32, Error>)
      reads dev.store
      ensures r == dev.store.ReadInt(dev.KeyOf(def.prop(Prop.TimeSp)))
    {
      dev.store.ReadInt(AttrKey(Prop.TimeSp))
    }

    /** setTime_SP: writes time_sp. */
    method SetTimeSP(v: int32)
      modifies dev.store
      ensures dev.store.attrs == old(dev.store.attrs)[AttrKey(Prop.TimeSp) := IntToString(v)]
      ensures GetTimeSP() == Success(v)
    {
      dev.SetAttribute(def.prop(Prop.TimeSp), IntToString(v));
    }
  }
}
