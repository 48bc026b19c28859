/**
 * ev3dev.hardware.motors.Motor: a tacho-motor handle. Every accessor first asks
 * the Device whether it is connected; when it is not, getters return a
 * sentinel (-1, null or false) and setters and commands return without
 * writing anything.
 */
module Motors {
  import opened Wrappers
  import opened JavaLang
  import opened Sysfs
  import opened Defs
  import opened Devices
  import opened Ports

  /** setSpeedRegulationEnabled(boolean): true is written as "on", false as "off". */
  function OnOff(enabled: bool): (s: string)
    ensures s == "on" || s == "off"
  {
    if enabled then "on" else "off"
  }

  /** The on/off text read as a boolean: "on" is true; "off" and anything else are false. */
  function IsOn(s: string): (b: bool)
    ensures b <==> s == "on"
  {
    if s == "on" then true
    else if s == "off" then false
    else false
  }

  /** Writing a boolean as on/off and reading it back gives the boolean. */
  lemma IsOnOnOff(enabled: bool)
    ensures IsOn(OnOff(enabled)) == enabled
  {
  }

  /** Normalising any text through a boolean keeps "on" and turns everything else into "off". */
  lemma OnOffIsOn(s: string)
    ensures OnOff(IsOn(s)) == (if s == "on" then "on" else "off")
  {
  }

  class Motor {
    /** The Device part: store, class Def.MOTOR_CLASS_NAME, bound instance, connectivity. */
    const dev: Device
    const def: Table
    const address: string

    /** Assembles a handle once Open's checks have passed; only Open creates handles. */
    constructor (dev: Device, def: Table, address: string)
      requires dev.cls == def.motorClass
      ensures this.dev == dev && this.def == def && this.address == address
    {
      this.dev := dev;
      this.def := def;
      this.address := address;
    }

    /**
     * new Motor(port). The Device constructor binds the motor class to the
     * instance `inst` (how it finds it is not modelled); then the port's
     * address must contain "out" and only then its status must equal the motor
     * class name. Both failures throw InvalidPortException.
     */
    static method Open(port: LegoPort, def: Table, inst: string, connected: bool) returns (r: Result<Motor, Error>)
      ensures var verdict := Admission(port.GetAddress(), port.GetStatus(), def.motorClass, InvalidPortException);
              (r.Success? <==> verdict == Pass) && (r.Failure? ==> r.error == verdict.error)
      ensures r.Success? ==> fresh(r.value) && fresh(r.value.dev) && r.value.def == def
      ensures r.Success? ==> r.value.address == port.GetAddress().value
      ensures r.Success? ==> r.value.dev.store == port.store && r.value.dev.cls == def.motorClass
      ensures r.Success? ==> r.value.dev.inst == inst && r.value.dev.connected == connected
    {
      var dev := new Device(port.store, def.motorClass, inst, connected);
      var address := port.GetAddress();
      if address.Failure? {
        return Failure(address.error);
      }
      if !Contains(address.value, "out") {
        return Failure(InvalidPortException);
      }
      var status := port.GetStatus();
      if status.Failure? {
        return Failure(status.error);
      }
      if status.value != def.motorClass {
        return Failure(InvalidPortException);
      }
      var m := new Motor(dev, def, address.value);
      return Success(m);
    }

    /** The file behind attribute constant `p` of this motor. */
    function AttrKey(p: Prop): Key
    {
      dev.KeyOf(def.prop(p))
    }

    /** A guarded int read: -1 when disconnected. */
    function IntAttr(name: string): Result<int32, Error>
      reads dev, dev.store
    {
      if !dev.connected then Success(-1) else dev.GetIntAttribute(name)
    }

    /** A guarded string read: null when disconnected. */
    function StringAttr(name: string): Result<Option<string>, Error>
      reads dev, dev.store
    {
      if !dev.connected then Success(None) else Lift(dev.GetAttribute(name))
    }

    /** getAddress: the address attribute. */
    function GetAddress(): (r: Result<Option<string>, Error>)
      reads dev, dev.store
      ensures !dev.connected ==> r == Success(None)
      ensures dev.connected ==> r == Lift(dev.GetAttribute(def.prop(Prop.Address)))
    {
      StringAttr(def.prop(Prop.Address))
    }

    /** sendCommand: writes `command` to the command attribute. */
    method SendCommand(command: string)
      modifies dev.store
      ensures dev.store.attrs == GuardedWrite(dev.connected, old(dev.store.attrs), AttrKey(Prop.Command), command)
    {
      if !dev.connected {
        return;
      }
      dev.SetAttribute(def.prop(Prop.Command), command);
    }

    /** runForever: writes the COMMAND_RUN_FOREVER token. */
    method RunForever()
      modifies dev.store
      ensures dev.store.attrs == GuardedWrite(dev.connected, old(dev.store.attrs), AttrKey(Prop.Command), def.cmd(Cmd.RunForever))
    {
      if !dev.connected {
        return;
      }
      SendCommand(def.cmd(Cmd.RunForever));
    }

    /** runToAbsPos: writes the COMMAND_RUN_TO_ABS_POS token. */
    method RunToAbsPos()
      modifies dev.store
      ensures dev.store.attrs == GuardedWrite(dev.connected, old(dev.store.attrs), AttrKey(Prop.Command), def.cmd(Cmd.RunToAbsPos))
    {
      if !dev.connected {
        return;
      }
      SendCommand(def.cmd(Cmd.RunToAbsPos));
    }

    /** runToRelPos: writes the COMMAND_RUN_TO_REL_POS token. */
    method RunToRelPos()
      modifies dev.store
      ensures dev.store.attrs == GuardedWrite(dev.connected, old(dev.store.attrs), AttrKey(Prop.Command), def.cmd(Cmd.RunToRelPos))
    {
      if !dev.connected {
        return;
      }
      SendCommand(def.cmd(Cmd.RunToRelPos));
    }

    /** runTimed: writes the COMMAND_RUN_TIMED token. */
    method RunTimed()
      modifies dev.store
      ensures dev.store.attrs == GuardedWrite(dev.connected, old(dev.store.attrs), AttrKey(Prop.Command), def.cmd(Cmd.RunTimed))
    {
      if !dev.connected {
        return;
      }
      SendCommand(def.cmd(Cmd.RunTimed));
    }

    /** runDirect: writes the COMMAND_RUN_DIRECT token. */
    method RunDirect()
      modifies dev.store
      ensures dev.store.attrs == GuardedWrite(dev.connected, old(dev.store.attrs), AttrKey(Prop.Command), def.cmd(Cmd.RunDirect))
    {
      if !dev.connected {
        return;
      }
      SendCommand(def.cmd(Cmd.RunDirect));
    }

    /** stop: writes the COMMAND_STOP token. */
    method Stop()
      modifies dev.store
      ensures dev.store.attrs == GuardedWrite(dev.connected, old(dev.store.attrs), AttrKey(Prop.Command), def.cmd(Cmd.Stop))
    {
      if !dev.connected {
        return;
      }
      SendCommand(def.cmd(Cmd.Stop));
    }

    /** reset: writes the COMMAND_RESET token. */
    method Reset()
      modifies dev.store
      ensures dev.store.attrs == GuardedWrite(dev.connected, old(dev.store.attrs), AttrKey(Prop.Command), def.cmd(Cmd.Reset))
    {
      if !dev.connected {
        return;
      }
      SendCommand(def.cmd(Cmd.Reset));
    }

    /** getCommands: the commands attribute split into tokens. */
    function GetCommands(): (r: Result<Option<seq<string>>, Error>)
      reads dev, dev.store
      ensures !dev.connected ==> r == Success(None)
      ensures dev.connected ==> r == Lift(dev.GetListAttribute(def.prop(Prop.Commands)))
    {
      if !dev.connected then Success(None) else Lift(dev.GetListAttribute(def.prop(Prop.Commands)))
    }

    /** getCountPerRot: the count_per_rot attribute as an int. */
    function GetCountPerRot(): (r: Result<int32, Error>)
      reads dev, dev.store
      ensures !dev.connected ==> r == Success(-1)
      ensures dev.connected ==> r == dev.GetIntAttribute(def.prop(Prop.CountPerRot))
    {
      IntAttr(def.prop(Prop.CountPerRot))
    }

    /** getDriverName: the driver_name attribute. */
    function GetDriverName(): (r: Result<Option<string>, Error>)
      reads dev, dev.store
      ensures !dev.connected ==> r == Success(None)
      ensures dev.connected ==> r == Lift(dev.GetAttribute(def.prop(Prop.DriverName)))
    {
      StringAttr(def.prop(Prop.DriverName))
    }

    /** getDutyCycle: the duty_cycle attribute as an int. */
    function GetDutyCycle(): (r: Result<int32, Error>)
      reads dev, dev.store
      ensures !dev.connected ==> r == Success(-1)
      ensures dev.connected ==> r == dev.GetIntAttribute(def.prop(Prop.DutyCycle))
    {
      IntAttr(def.prop(Prop.DutyCycle))
    }

    /** getDutyCycleSP: the duty_cycle_sp attribute as an int. */
    function GetDutyCycleSP(): (r: Result<int32, Error>)
      reads dev, dev.store
      ensures !dev.connected ==> r == Success(-1)
      ensures dev.connected ==> r == dev.GetIntAttribute(def.prop(Prop.DutyCycleSp))
    {
      IntAttr(def.prop(Prop.DutyCycleSp))
    }

    /** setDutyCycleSP: writes duty_cycle_sp. */
    method SetDutyCycleSP(v: int32)
      modifies dev.store
      ensures dev.store.attrs == GuardedWrite(dev.connected, old(dev.store.attrs), AttrKey(Prop.DutyCycleSp), IntToString(v))
      ensures dev.connected ==> GetDutyCycleSP() == Success(v)
    {
      if !dev.connected {
        return;
      }
      dev.SetAttribute(def.prop(Prop.DutyCycleSp), IntToString(v));
    }

    /** getEncoderPolarity: the encoder_polarity attribute. */
    function GetEncoderPolarity(): (r: Result<Option<string>, Error>)
      reads dev, dev.store
      ensures !dev.connected ==> r == Success(None)
      ensures dev.connected ==> r == Lift(dev.GetAttribute(def.prop(Prop.EncoderPolarity)))
    {
      StringAttr(def.prop(Prop.EncoderPolarity))
    }

    /** setEncoderPolarity: writes encoder_polarity. */
    method SetEncoderPolarity(v: string)
      modifies dev.store
      ensures dev.store.attrs == GuardedWrite(dev.connected, old(dev.store.attrs), AttrKey(Prop.EncoderPolarity), v)
      ensures dev.connected ==> GetEncoderPolarity() == Success(Some(v))
    {
      if !dev.connected {
        return;
      }
      dev.SetAttribute(def.prop(Prop.EncoderPolarity), v);
    }

    /** getPolarity: the polarity attribute. */
    function GetPolarity(): (r: Result<Option<string>, Error>)
      reads dev, dev.store
      ensures !dev.connected ==> r == Success(None)
      ensures dev.connected ==> r == Lift(dev.GetAttribute(def.prop(Prop.Polarity)))
    {
      StringAttr(def.prop(Prop.Polarity))
    }

    /** setPolarity: writes polarity. */
    method SetPolarity(v: string)
      modifies dev.store
      ensures dev.store.attrs == GuardedWrite(dev.connected, old(dev.store.attrs), AttrKey(Prop.Polarity), v)
      ensures dev.connected ==> GetPolarity() == Success(Some(v))
    {
      if !dev.connected {
        return;
      }
      dev.SetAttribute(def.prop(Prop.Polarity), v);
    }

    /** getPosition: reads the attribute literally named "position_p", not the position constant. */
    function GetPosition(): (r: Result<int32, Error>)
      reads dev, dev.store
      ensures !dev.connected ==> r == Success(-1)
      ensures dev.connected ==> r == dev.GetIntAttribute("position_p")
    {
      IntAttr("position_p")
    }

    /** setPosition: writes the position constant, which getPosition does not read. */
    method SetPosition(v: int32)
      modifies dev.store
      ensures dev.store.attrs == GuardedWrite(dev.connected, old(dev.store.attrs), AttrKey(Prop.Position), IntToString(v))
      ensures def.prop(Prop.Position) != "position_p" ==> GetPosition() == old(GetPosition())
    {
      if !dev.connected {
        return;
      }
      dev.SetAttribute(def.prop(Prop.Position), IntToString(v));
    }

    /** getPosition_P: the position P gain. */
    function GetPositionP(): (r: Result<int32, Error>)
      reads dev, dev.store
      ensures !dev.connected ==> r == Success(-1)
      ensures dev.connected ==> r == dev.GetIntAttribute(def.prop(Prop.PositionP))
    {
      IntAttr(def.prop(Prop.PositionP))
    }

    /** getPosition_I: the position I gain. */
    function GetPositionI(): (r: Result<int32, Error>)
      reads dev, dev.store
      ensures !dev.connected ==> r == Success(-1)
      ensures dev.connected ==> r == dev.GetIntAttribute(def.prop(Prop.PositionI))
    {
      IntAttr(def.prop(Prop.PositionI))
    }

    /** getPosition_D: the position D gain. */
    function GetPositionD(): (r: Result<int32, Error>)
      reads dev, dev.store
      ensures !dev.connected ==> r == Success(-1)
      ensures dev.connected ==> r == dev.GetIntAttribute(def.prop(Prop.PositionD))
    {
      IntAttr(def.prop(Prop.PositionD))
    }

    /** setPosition_P: writes the position P gain. */
    method SetPositionP(v: int32)
      modifies dev.store
      ensures dev.store.attrs == GuardedWrite(dev.connected, old(dev.store.attrs), AttrKey(Prop.PositionP), IntToString(v))
      ensures dev.connected ==> GetPositionP() == Success(v)
    {
      if !dev.connected {
        return;
      }
      dev.SetAttribute(def.prop(Prop.PositionP), IntToString(v));
    }

    /** setPosition_I: writes the position I gain. */
    method SetPositionI(v: int32)
      modifies dev.store
      ensures dev.store.attrs == GuardedWrite(dev.connected, old(dev.store.attrs), AttrKey(Prop.PositionI), IntToString(v))
      ensures dev.connected ==> GetPositionI() == Success(v)
    {
      if !dev.connected {
        return;
      }
      dev.SetAttribute(def.prop(Prop.PositionI), IntToString(v));
    }

    /** setPosition_D: writes the position D gain. */
    method SetPositionD(v: int32)
      modifies dev.store
      ensures dev.store.attrs == GuardedWrite(dev.connected, old(dev.store.attrs), AttrKey(Prop.PositionD), IntToString(v))
      ensures dev.connected ==> GetPositionD() == Success(v)
    {
      if !dev.connected {
        return;
      }
      dev.SetAttribute(def.prop(Prop.PositionD), IntToString(v));
    }

    /** getPosition_SP: the position_sp attribute as an int. */
    function GetPositionSP(): (r: Result<int32, Error>)
      reads dev, dev.store
      ensures !dev.connected ==> r == Success(-1)
      ensures dev.connected ==> r == dev.GetIntAttribute(def.prop(Prop.PositionSp))
    {
      IntAttr(def.prop(Prop.PositionSp))
    }

    /** setPosition_SP: writes position_sp. */
    method SetPositionSP(v: int32)
      modifies dev.store
      ensures dev.store.attrs == GuardedWrite(dev.connected, old(dev.store.attrs), AttrKey(Prop.PositionSp), IntToString(v))
      ensures dev.connected ==> GetPositionSP() == Success(v)
    {
      if !dev.connected {
        return;
      }
      dev.SetAttribute(def.prop(Prop.PositionSp), IntToString(v));
    }

    /** getSpeed: the speed attribute as an int. */
    function GetSpeed(): (r: Result<int32, Error>)
      reads dev, dev.store
      ensures !dev.connected ==> r == Success(-1)
      ensures dev.connected ==> r == dev.GetIntAttribute(def.prop(Prop.Speed))
    {
      IntAttr(def.prop(Prop.Speed))
    }

    /** getSpeed_SP: reads the speed attribute (the one getSpeed reads), not speed_sp. */
    function GetSpeedSP(): (r: Result<int32, Error>)
      reads dev, dev.store
      ensures !dev.connected ==> r == Success(-1)
      ensures dev.connected ==> r == dev.GetIntAttribute(def.prop(Prop.Speed))
    {
      IntAttr(def.prop(Prop.Speed))
    }

    /** setSpeed_SP: writes speed_sp, which getSpeed_SP does not read. */
    method SetSpeedSP(v: int32)
      modifies dev.store
      ensures dev.store.attrs == GuardedWrite(dev.connected, old(dev.store.attrs), AttrKey(Prop.SpeedSp), IntToString(v))
      ensures def.Valid() ==> GetSpeedSP() == old(GetSpeedSP())
    {
      if !dev.connected {
        return;
      }
      dev.SetAttribute(def.prop(Prop.SpeedSp), IntToString(v));
    }

    /** getRamp_Up_SP: the ramp_up_sp attribute as an int. */
    function GetRampUpSP(): (r: Result<int32, Error>)
      reads dev, dev.store
      ensures !dev.connected ==> r == Success(-1)
      ensures dev.connected ==> r == dev.GetIntAttribute(def.prop(Prop.RampUpSp))
    {
      IntAttr(def.prop(Prop.RampUpSp))
    }

    /** setRamp_Up_SP: writes ramp_up_sp. */
    method SetRampUpSP(v: int32)
      modifies dev.store
      ensures dev.store.attrs == GuardedWrite(dev.connected, old(dev.store.attrs), AttrKey(Prop.RampUpSp), IntToString(v))
      ensures dev.connected ==> GetRampUpSP() == Success(v)
    {
      if !dev.connected {
        return;
      }
      dev.SetAttribute(def.prop(Prop.RampUpSp), IntToString(v));
    }

    /** getRamp_Down_SP: the ramp_down_sp attribute as an int. */
    function GetRampDownSP(): (r: Result<int32, Error>)
      reads dev, dev.store
      ensures !dev.connected ==> r == Success(-1)
      ensures dev.connected ==> r == dev.GetIntAttribute(def.prop(Prop.RampDownSp))
    {
      IntAttr(def.prop(Prop.RampDownSp))
    }

    /** setRamp_Down_SP: writes ramp_down_sp. */
    method SetRampDownSP(v: int32)
      modifies dev.store
      ensures dev.store.attrs == GuardedWrite(dev.connected, old(dev.store.attrs), AttrKey(Prop.RampDownSp), IntToString(v))
      ensures dev.connected ==> GetRampDownSP() == Success(v)
    {
      if !dev.connected {
        return;
      }
      dev.SetAttribute(def.prop(Prop.RampDownSp), IntToString(v));
    }

    /** getSpeedRegulationEnabled: the raw on/off text. */
    function GetSpeedRegulationEnabled(): (r: Result<Option<string>, Error>)
      reads dev, dev.store
      ensures !dev.connected ==> r == Success(None)
      ensures dev.connected ==> r == Lift(dev.GetAttribute(def.prop(Prop.SpeedRegulationEnabled)))
    {
      StringAttr(def.prop(Prop.SpeedRegulationEnabled))
    }

    /** isSpeedRegulationEnabled: false when disconnected; otherwise whether the text is exactly "on". */
    function IsSpeedRegulationEnabled(): (r: Result<bool, Error>)
      reads dev, dev.store
      ensures !dev.connected ==> r == Success(false)
      ensures dev.connected ==> (r.Success? <==> dev.GetAttribute(def.prop(Prop.SpeedRegulationEnabled)).Success?)
      ensures dev.connected && r.Success? ==>
                (r.value <==> dev.GetAttribute(def.prop(Prop.SpeedRegulationEnabled)).value == "on")
      ensures dev.connected && r.Failure? ==> r.error == IOException
    {
      if !dev.connected then Success(false)
      else
        var str := GetSpeedRegulationEnabled();
        if str.Failure? then Failure(str.error)
        else
          assert str.value.Some?;
          Success(IsOn(str.value.value))
    }

    /** setSpeedRegulationEnabled(boolean): writes "on" or "off". */
    method SetSpeedRegulationEnabled(enabled: bool)
      modifies dev.store
      ensures dev.store.attrs == GuardedWrite(dev.connected, old(dev.store.attrs), AttrKey(Prop.SpeedRegulationEnabled), OnOff(enabled))
      ensures dev.connected ==> IsSpeedRegulationEnabled() == Success(enabled)
    {
      if !dev.connected {
        return;
      }
      var str := if enabled then "on" else "off";
      dev.SetAttribute(def.prop(Prop.SpeedRegulationEnabled), str);
    }

    /** setSpeedRegulationEnabled(String): "on" is written as "on"; any other text as "off". */
    method SetSpeedRegulationEnabledFrom(onoff: string)
      modifies dev.store
      ensures dev.store.attrs == GuardedWrite(dev.connected, old(dev.store.attrs), AttrKey(Prop.SpeedRegulationEnabled),
                                              if onoff == "on" then "on" else "off")
      ensures dev.connected ==> IsSpeedRegulationEnabled() == Success(onoff == "on")
    {
      if !dev.connected {
        return;
      }
      var enabled := false;
      if onoff == "on" {
        enabled := true;
      } else if onoff == "off" {
        enabled := false;
      } else {
        enabled := false;
      }
      SetSpeedRegulationEnabled(enabled);
    }

    /** getSpeedRegulation_P: the speed regulation P gain. */
    function GetSpeedRegulationP(): (r: Result<int32, Error>)
      reads dev, dev.store
      ensures !dev.connected ==> r == Success(-1)
      ensures dev.connected ==> r == dev.GetIntAttribute(def.prop(Prop.SpeedRegulationP))
    {
      IntAttr(def.prop(Prop.SpeedRegulationP))
    }

    /** setSpeedRegulation_P: writes the speed regulation P gain. */
    method SetSpeedRegulationP(v: int32)
      modifies dev.store
      ensures dev.store.attrs == GuardedWrite(dev.connected, old(dev.store.attrs), AttrKey(Prop.SpeedRegulationP), IntToString(v))
      ensures dev.connected ==> GetSpeedRegulationP() == Success(v)
    {
      if !dev.connected {
        return;
      }
      dev.SetAttribute(def.prop(Prop.SpeedRegulationP), IntToString(v));
    }

    /** getSpeedRegulation_I: the speed regulation I gain. */
    function GetSpeedRegulationI(): (r: Result<int32, Error>)
      reads dev, dev.store
      ensures !dev.connected ==> r == Success(-1)
      ensures dev.connected ==> r == dev.GetIntAttribute(def.prop(Prop.SpeedRegulationI))
    {
      IntAttr(def.prop(Prop.SpeedRegulationI))
    }

    /** setSpeedRegulation_I: writes the speed regulation I gain. */
    method SetSpeedRegulationI(v: int32)
      modifies dev.store
      ensures dev.store.attrs == GuardedWrite(dev.connected, old(dev.store.attrs), AttrKey(Prop.SpeedRegulationI), IntToString(v))
      ensures dev.connected ==> GetSpeedRegulationI() == Success(v)
    {
      if !dev.connected {
        return;
      }
      dev.SetAttribute(def.prop(Prop.SpeedRegulationI), IntToString(v));
    }

    /** getSpeedRegulation_D: the speed regulation D gain. */
    function GetSpeedRegulationD(): (r: Result<int32, Error>)
      reads dev, dev.store
      ensures !dev.connected ==> r == Success(-1)
      ensures dev.connected ==> r == dev.GetIntAttribute(def.prop(Prop.SpeedRegulationD))
    {
      IntAttr(def.prop(Prop.SpeedRegulationD))
    }

    /** setSpeedRegulation_D: writes the speed regulation D gain. */
    method SetSpeedRegulationD(v: int32)
      modifies dev.store
      ensures dev.store.attrs == GuardedWrite(dev.connected, old(dev.store.attrs), AttrKey(Prop.SpeedRegulationD), IntToString(v))
      ensures dev.connected ==> GetSpeedRegulationD() == Success(v)
    {
      if !dev.connected {
        return;
      }
      dev.SetAttribute(def.prop(Prop.SpeedRegulationD), IntToString(v));
    }

    /** getStateViaString: the raw state text. */
    function GetStateViaString(): (r: Result<Option<string>, Error>)
      reads dev, dev.store
      ensures !dev.connected ==> r == Success(None)
      ensures dev.connected ==> r == Lift(dev.GetAttribute(def.prop(Prop.State)))
    {
      StringAttr(def.prop(Prop.State))
    }

    /** getState: the state text split into flags. */
    function GetState(): (r: Result<Option<seq<string>>, Error>)
      reads dev, dev.store
      ensures !dev.connected ==> r == Success(None)
      ensures dev.connected ==> r == Lift(dev.GetListAttribute(def.prop(Prop.State)))
    {
      if !dev.connected then Success(None)
      else
        var str := GetStateViaString();
        if str.Failure? then Failure(str.error)
        else
          assert str.value.Some?;
          Success(Some(Tokens(str.value.value)))
    }

    /** getStopCommand: the stop_command attribute. */
    function GetStopCommand(): (r: Result<Option<string>, Error>)
      reads dev, dev.store
      ensures !dev.connected ==> r == Success(None)
      ensures dev.connected ==> r == Lift(dev.GetAttribute(def.prop(Prop.StopCommand)))
    {
      StringAttr(def.prop(Prop.StopCommand))
    }

    /** setStopCommand: writes stop_command. */
    method SetStopCommand(v: string)
      modifies dev.store
      ensures dev.store.attrs == GuardedWrite(dev.connected, old(dev.store.attrs), AttrKey(Prop.StopCommand), v)
      ensures dev.connected ==> GetStopCommand() == Success(Some(v))
    {
      if !dev.connected {
        return;
      }
      dev.SetAttribute(def.prop(Prop.StopCommand), v);
    }

    /** getStopCommandsViaString: the raw stop_commands text. */
    function GetStopCommandsViaString(): (r: Result<Option<string>, Error>)
      reads dev, dev.store
      ensures !dev.connected ==> r == Success(None)
      ensures dev.connected ==> r == Lift(dev.GetAttribute(def.prop(Prop.StopCommands)))
    {
      StringAttr(def.prop(Prop.StopCommands))
    }

    /** getStopCommands: the stop_commands text split into tokens. */
    function GetStopCommands(): (r: Result<Option<seq<string>>, Error>)
      reads dev, dev.store
      ensures !dev.connected ==> r == Success(None)
      ensures dev.connected ==> r == Lift(dev.GetListAttribute(def.prop(Prop.StopCommands)))
    {
      if !dev.connected then Success(None)
      else
        var str := GetStopCommandsViaString();
        if str.Failure? then Failure(str.error)
        else
          assert str.value.Some?;
          Success(Some(Tokens(str.value.value)))
    }

    /** getTime_SP: the time_sp attribute as an int. */
    function GetTimeSP(): (r: Result<int32, Error>)
      reads dev, dev.store
      ensures !dev.connected ==> r == Success(-1)
      ensures dev.connected ==> r == dev.GetIntAttribute(def.prop(Prop.TimeSp))
    {
      IntAttr(def.prop(Prop.TimeSp))
    }

    /** setTime_SP: writes time_sp. */
    method SetTimeSP(v: int32)
      modifies dev.store
      ensures dev.store.attrs == GuardedWrite(dev.connected, old(dev.store.attrs), AttrKey(Prop.TimeSp), IntToString(v))
      ensures dev.connected ==> GetTimeSP() == Success(v)
    {
      if !dev.connected {
        return;
      }
      dev.SetAttribute(def.prop(Prop.TimeSp), IntToString(v));
    }
  }

  /** A disconnected motor answers every getter with its sentinel: -1, null or false. */
  lemma DisconnectedSentinels(m: Motor)
    requires !m.dev.connected
    ensures m.GetCountPerRot() == m.GetDutyCycle() == m.GetDutyCycleSP() == m.GetPosition() == Success(-1)
    ensures m.GetPositionP() == m.GetPositionI() == m.GetPositionD() == m.GetPositionSP() == Success(-1)
    ensures m.GetSpeed() == m.GetSpeedSP() == m.GetRampUpSP() == m.GetRampDownSP() == m.GetTimeSP() == Success(-1)
    ensures m.GetSpeedRegulationP() == m.GetSpeedRegulationI() == m.GetSpeedRegulationD() == Success(-1)
    ensures m.GetAddress() == m.GetDriverName() == m.GetEncoderPolarity() == m.GetPolarity() == Success(None)
    ensures m.GetSpeedRegulationEnabled() == m.GetStateViaString() == Success(None)
    ensures m.GetStopCommand() == m.GetStopCommandsViaString() == Success(None)
    ensures m.GetCommands() == m.GetState() == m.GetStopCommands() == Success(None)
    ensures m.IsSpeedRegulationEnabled() == Success(false)
  {
  }

  /**
   * A connected motor whose duty_cycle_sp file holds text that is not a
   * decimal numeral answers getDutyCycleSP with NumberFormatException.
   */
  lemma DutyCycleSPNotNumeral(m: Motor)
    requires m.dev.connected
    requires m.AttrKey(Prop.DutyCycleSp) in m.dev.store.attrs
    requires !IsNumeral(m.dev.store.attrs[m.AttrKey(Prop.DutyCycleSp)])
    ensures m.GetDutyCycleSP() == Failure(NumberFormatException)
  {
  }

  /** getSpeed_SP and getSpeed always agree: both read the speed attribute. */
  lemma SpeedSPReadsSpeed(m: Motor)
    ensures m.GetSpeedSP() == m.GetSpeed()
  {
  }
}
