/**
 * The constant tables the handles name their attributes and commands by
 * (ev3dev.io.Def, org.ev3dev.io.Def and ev3dev.io.PropertyDefaults). Their
 * string values are not part of this model, so a table is a parameter: each
 * handle carries the table its Java class reads.
 */
module Defs {

  /** The attribute-name constants (PROPERTY_...). */
  datatype Prop =
    | Address | Command | Commands | CountPerRot | DriverName
    | DutyCycle | DutyCycleSp | EncoderPolarity | Polarity
    | Position | PositionP | PositionI | PositionD | PositionSp
    | Speed | SpeedSp | RampUpSp | RampDownSp
    | SpeedRegulationEnabled | SpeedRegulationP | SpeedRegulationI | SpeedRegulationD
    | State | StopCommand | StopCommands | StopAction | StopActions | TimeSp

  /** The command-token constants (COMMAND_...). */
  datatype Cmd = RunForever | RunToAbsPos | RunToRelPos | RunTimed | RunDirect | Stop | Reset

  /** One constant table: the attribute names, the command tokens and the class names. */
  datatype Table = Table(
    prop: Prop -> string,
    cmd: Cmd -> string,
    motorClass: string,     // MOTOR_CLASS_NAME
    dcMotorClass: string,   // DC_MOTOR_CLASS_NAME
    subMotorClass: string)  // SUB_MOTOR_CLASS_NAME
  {
    /** Distinct constants have distinct values. */
    ghost predicate Valid()
    {
      && (forall a: Prop, b: Prop :: prop(a) == prop(b) ==> a == b)
      && (forall a: Cmd, b: Cmd :: cmd(a) == cmd(b) ==> a == b)
    }
  }
}
