/**
 * ev3dev.hardware.motors.DCMotor: a dc-motor handle that talks to Sysclass
 * directly. Its constructor checks the port, then resolves the motor instance
 * (MOTOR_STR); every accessor targets (DC_MOTOR_CLASS_NAME, MOTOR_STR), with no
 * connectivity guard.
 */
module DcMotors {
  import opened Wrappers
  import opened JavaLang
  import opened Sysfs
  import opened Defs
  import opened Devices
  import opened Ports

  class DCMotor {
    const port: LegoPort
    /** The PropertyDefaults table. */
    const def: Table
    const address: string
    /** MOTOR_STR: the instance name resolved at construction. */
    const motorStr: string

    /** Assembles a handle once Open's checks and resolution have succeeded; only Open creates handles. */
    constructor (port: LegoPort, def: Table, address: string, motorStr: string)
      ensures this.port == port && this.def == def && this.address == address && this.motorStr == motorStr
    {
      this.port := port;
      this.def := def;
      this.address := address;
      this.motorStr := motorStr;
    }

    /**
     * new DCMotor(device), with the port the device reports. In order: an
     * address without "out", a status other than the dc-motor class, and an
     * address the resolver cannot map to an instance each throw
     * InvalidPortException; otherwise MOTOR_STR is the resolved instance.
     */
    static method Open(port: LegoPort, def: Table, resolve: Resolver) returns (r: Result<DCMotor, Error>)
      ensures var verdict := Admission(port.GetAddress(), port.GetStatus(), def.dcMotorClass, InvalidPortException);
              verdict != Pass ==> r == Failure(verdict.error)
      ensures var verdict := Admission(port.GetAddress(), port.GetStatus(), def.dcMotorClass, InvalidPortException);
              verdict == Pass && resolve(def.dcMotorClass, def.subMotorClass, port.GetAddress().value).None?
              ==> r == Failure(InvalidPortException)
      ensures var verdict := Admission(port.GetAddress(), port.GetStatus(), def.dcMotorClass, InvalidPortException);
              r.Success? <==> verdict == Pass && resolve(def.dcMotorClass, def.subMotorClass, port.GetAddress().value).Some?
      ensures r.Success? ==>
                && Admission(port.GetAddress(), port.GetStatus(), def.dcMotorClass, InvalidPortException) == Pass
                && resolve(def.dcMotorClass, def.subMotorClass, port.GetAddress().value) == Some(r.value.motorStr)
      ensures r.Success? ==> fresh(r.value) && r.value.port == port && r.value.def == def
      ensures r.Success? ==> r.value.address == port.GetAddress().value
    {
      var address := port.GetAddress();
      if address.Failure? {
        return Failure(address.error);
      }
      if !Contains(address.value, "out") {
        return Failure(InvalidPortException);
      } else {
        var status := port.GetStatus();
        if status.Failure? {
          return Failure(status.error);
        }
        if status.value != def.dcMotorClass {
          return Failure(InvalidPortException);
        }
      }
      var motorStr := resolve(def.dcMotorClass, def.subMotorClass, address.value);
      if motorStr.None? {
        return Failure(InvalidPortException);
      }
      var m := new DCMotor(port, def, address.value, motorStr.value);
      return Success(m);
    }

    /** The file behind attribute constant `p`: (DC_MOTOR_CLASS_NAME, MOTOR_STR). */
    function KeyOf(name: string): Key
    {
      Key(def.dcMotorClass, motorStr, name)
    }

    function AttrKey(p: Prop): Key
    {
      KeyOf(def.prop(p))
    }

    /** getAddress: the address attribute. */
    function GetAddress(): (r: Result<string, Error>)
      reads port.store
      ensures r == port.store.Read(Key(def.dcMotorClass, motorStr, def.prop(Prop.Address)))
    {
      port.store.Read(AttrKey(Prop.Address))
    }

    /** sendCommand: writes `command` to the command attribute. */
    method SendCommand(command: string)
      modifies port.store
      ensures port.store.attrs == old(port.store.attrs)[AttrKey(Prop.Command) := command]
    {
      port.store.Write(AttrKey(Prop.Command), command);
    }

    /** runForever: writes the COMMAND_RUN_FOREVER token. */
    method RunForever()
      modifies port.store
      ensures port.store.attrs == old(port.store.attrs)[AttrKey(Prop.Command) := def.cmd(Cmd.RunForever)]
    {
      SendCommand(def.cmd(Cmd.RunForever));
    }

    /** runTimed: writes the COMMAND_RUN_TIMED token. */
    method RunTimed()
      modifies port.store
      ensures port.store.attrs == old(port.store.attrs)[AttrKey(Prop.Command) := def.cmd(Cmd.RunTimed)]
    {
      SendCommand(def.cmd(Cmd.RunTimed));
    }

    /** stop: writes the COMMAND_STOP token. */
    method Stop()
      modifies port.store
      ensures port.store.attrs == old(port.store.attrs)[AttrKey(Prop.Command) := def.cmd(Cmd.Stop)]
    {
      SendCommand(def.cmd(Cmd.Stop));
    }

    /** getCommands: the commands attribute split into tokens. */
    function GetCommands(): (r: Result<seq<string>, Error>)
      reads port.store
      ensures r == port.store.ReadList(Key(def.dcMotorClass, motorStr, def.prop(Prop.Commands)))
    {
      port.store.ReadList(AttrKey(Prop.Commands))
    }

    /** getDriverName: the driver_name attribute. */
    function GetDriverName(): (r: Result<string, Error>)
      reads port.store
      ensures r == port.store.Read(Key(def.dcMotorClass, motorStr, def.prop(Prop.DriverName)))
    {
      port.store.Read(AttrKey(Prop.DriverName))
    }

    /** getDutyCycle: the duty_cycle attribute as an int. */
    function GetDutyCycle(): (r: Result<int32, Error>)
      reads port.store
      ensures r == port.store.ReadInt(Key(def.dcMotorClass, motorStr, def.prop(Prop.DutyCycle)))
    {
      port.store.ReadInt(AttrKey(Prop.DutyCycle))
    }

    /** getDutyCycleSP: the duty_cycle_sp attribute as an int. */
    function GetDutyCycleSP(): (r: Result<int32, Error>)
      reads port.store
      ensures r == port.store.ReadInt(Key(def.dcMotorClass, motorStr, def.prop(Prop.DutyCycleSp)))
    {
      port.store.ReadInt(AttrKey(Prop.DutyCycleSp))
    }

    /** setDutyCycleSP: writes duty_cycle_sp. */
    method SetDutyCycleSP(v: int32)
      modifies port.store
      ensures port.store.attrs == old(port.store.attrs)[AttrKey(Prop.DutyCycleSp) := IntToString(v)]
      ensures GetDutyCycleSP() == Success(v)
    {
      port.store.Write(AttrKey(Prop.DutyCycleSp), IntToString(v));
    }

    /** getPolarity: the polarity attribute. */
    function GetPolarity(): (r: Result<string, Error>)
      reads port.store
      ensures r == port.store.Read(Key(def.dcMotorClass, motorStr, def.prop(Prop.Polarity)))
    {
      port.store.Read(AttrKey(Prop.Polarity))
    }

    /** setPolarity: writes polarity. */
    method SetPolarity(v: string)
      modifies port.store
      ensures port.store.attrs == old(port.store.attrs)[AttrKey(Prop.Polarity) := v]
      ensures GetPolarity() == Success(v)
    {
      port.store.Write(AttrKey(Prop.Polarity), v);
    }

    /** getRamp_Up_SP: the ramp_up_sp attribute as an int. */
    function GetRampUpSP(): (r: Result<int32, Error>)
      reads port.store
      ensures r == port.store.ReadInt(Key(def.dcMotorClass, motorStr, def.prop(Prop.RampUpSp)))
    {
      port.store.ReadInt(AttrKey(Prop.RampUpSp))
    }

    /** setRamp_Up_SP: writes ramp_up_sp. */
    method SetRampUpSP(v: int32)
      modifies port.store
      ensures port.store.attrs == old(port.store.attrs)[AttrKey(Prop.RampUpSp) := IntToString(v)]
      ensures GetRampUpSP() == Success(v)
    {
      port.store.Write(AttrKey(Prop.RampUpSp), IntToString(v));
    }

    /** getRamp_Down_SP: the ramp_down_sp attribute as an int. */
    function GetRampDownSP(): (r: Result<int32, Error>)
      reads port.store
      ensures r == port.store.ReadInt(Key(def.dcMotorClass, motorStr, def.prop(Prop.RampDownSp)))
    {
      port.store.ReadInt(AttrKey(Prop.RampDownSp))
    }

    /** setRamp_Down_SP: writes ramp_down_sp. */
    method SetRampDownSP(v: int32)
      modifies port.store
      ensures port.store.attrs == old(port.store.attrs)[AttrKey(Prop.RampDownSp) := IntToString(v)]
      ensures GetRampDownSP() == Success(v)
    {
      port.store.Write(AttrKey(Prop.RampDownSp), IntToString(v));
    }

    /** getStateViaString: the raw state text. */
    function GetStateViaString(): (r: Result<string, Error>)
      reads port.store
      ensures r == port.store.Read(Key(def.dcMotorClass, motorStr, def.prop(Prop.State)))
    {
      port.store.Read(AttrKey(Prop.State))
    }

    /** getState: the state text split into flags. */
    function GetState(): (r: Result<seq<string>, Error>)
      reads port.store
      ensures r == port.store.ReadList(Key(def.dcMotorClass, motorStr, def.prop(Prop.State)))
    {
      var str := GetStateViaString();
      if str.Failure? then Failure(str.error) else Success(Tokens(str.value))
    }

    /** getStopCommand: the stop_command attribute. */
    function GetStopCommand(): (r: Result<string, Error>)
      reads port.store
      ensures r == port.store.Read(Key(def.dcMotorClass, motorStr, def.prop(Prop.StopCommand)))
    {
      port.store.Read(AttrKey(Prop.StopCommand))
    }

    /** setStopCommand: writes stop_command. */
    method SetStopCommand(v: string)
      modifies port.store
      ensures port.store.attrs == old(port.store.attrs)[AttrKey(Prop.StopCommand) := v]
      ensures GetStopCommand() == Success(v)
    {
      port.store.Write(AttrKey(Prop.StopCommand), v);
    }

    /** getStopCommandsViaString: the raw stop_commands text. */
    function GetStopCommandsViaString(): (r: Result<string, Error>)
      reads port.store
      ensures r == port.store.Read(Key(def.dcMotorClass, motorStr, def.prop(Prop.StopCommands)))
    {
      port.store.Read(AttrKey(Prop.StopCommands))
    }

    /** getStopCommands: the stop_commands text split into tokens. */
    function GetStopCommands(): (r: Result<seq<string>, Error>)
      reads port.store
      ensures r == port.store.ReadList(Key(def.dcMotorClass, motorStr, def.prop(Prop.StopCommands)))
    {
      var str := GetStopCommandsViaString();
      if str.Failure? then Failure(str.error) else Success(Tokens(str.value))
    }

    /** getTime_SP: the time_sp attribute as an int. */
    function GetTimeSP(): (r: Result<int32, Error>)
      reads port.store
      ensures r == port.store.ReadInt(Key(def.dcMotorClass, motorStr, def.prop(Prop.TimeSp)))
    {
      port.store.ReadInt(AttrKey(Prop.TimeSp))
    }

    /** setTime_SP: writes time_sp. */
    method SetTimeSP(v: int32)
      modifies port.store
      ensures port.store.attrs == old(port.store.attrs)[AttrKey(Prop.TimeSp) := IntToString(v)]
      ensures GetTimeSP() == Success(v)
    {
      port.store.Write(AttrKey(Prop.TimeSp), IntToString(v));
    }
  }
}
