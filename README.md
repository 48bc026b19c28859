# ev3dev-lang-java motor and port handles, in Dafny

This project models the motor and port handles of ev3dev-lang-java. Each handle is a thin object. It reads and writes text attributes that the ev3dev kernel drivers expose under `/sys/class/<class>/<instance>/<attribute>`.

- **Files and modules.**
  - `lego_port.dfy` (module `Ports`) models `ev3dev.hardware.ports.LegoPort`.
    - A port is a numbered output or input socket, 0..7.
    - The module also models the port's `separateSpace` tokenizer: first as written, then corrected.
  - `motor.dfy` (module `Motors`) models `ev3dev.hardware.motors.Motor`, the tacho-motor handle.
    - Every getter and setter is guarded by the device's connectivity.
    - A disconnected motor answers sentinel values and does no writes.
  - `org_dc_motor.dfy` (module `OrgMotors`) models `org.ev3dev.hardware.motors.DCMotor`.
  - `dc_motor.dfy` (module `DcMotors`) models `ev3dev.hardware.motors.DCMotor`.
    - It resolves its own sysfs instance name, `MOTOR_STR`, through a lookup function.
    - That DC motor variant talks to the store directly, with no connectivity guard.
- **Supporting modules.** They model library code that the handles call.
  - `sysfs.dfy` (`Sysfs`) holds the attribute store, which all handles share and which is the state the handles change. The other variable is a `Device`'s connectivity flag, which the handles only read.
    - A read of a missing attribute is an `IOException`.
    - `Sysfs.Tokens` stands for `Sysclass.separateSpace`, which is not shown. It is assumed to split on spaces with no empty elements.
  - `device.dfy` (`Devices`) holds the `Device` base class and the output-port admission check that every motor constructor performs.
  - `javalang.dfy` (`JavaLang`) holds `Integer.parseInt`, `Integer.toString` and `String.contains` over 32-bit ints.
  - `defs.dfy` (`Defs`) holds the names from `Def` / `PropertyDefaults`.
    - They are kept symbolic in a `Table`. Its `Valid()` says that distinct properties and commands have distinct names.
  - `wrappers.dfy` holds `Option`, `Result` and `Outcome`, and the Java exceptions as an `Error` datatype.
- **Java exceptions.** A thrown exception is a `Failure(e)` or a `Fail(e)`.
- **Constructors.** A Java constructor that can throw becomes a static `Open` method. It returns either the fresh handle or the error.
- **State changes.** State-changing operations are methods over the shared `AttributeStore.attrs` map. Each one states its whole new state.
  - The motor setters write `attrs[key := value]` only when connected.
  - Each setter except `Motors.Motor.SetPosition`, `Motors.Motor.SetSpeedSP` and `Ports.LegoPort.SetDevice` comes with a set-then-get round trip. The integer round trips rest on `ParseIntToString`.
  - The injectivity of the name table is needed only where `SetSpeedSP` leaves `GetSpeedSP` unchanged.

Three error and tokenizer behaviours are modelled as the code has them:
- `ev3dev.hardware.motors.DCMotor` reports a failed instance lookup as `InvalidPortException`. It does not use a distinct error.
- `org.ev3dev.hardware.motors.DCMotor` reports a wrong port status as `InvalidMotorException`.
- `LegoPort.getModes` splits with the port's own `separateSpace`, which is buggy (see Findings), not the tokenizer the motor getters use.

Two of the tacho-motor getters read an attribute other than the one their name suggests. The model reproduces both as written:
- `getPosition` reads the literal `"position_p"`.
- `getSpeed_SP` reads `speed`.

`Motors.Motor.GetPosition` and `Motors.SpeedSPReadsSpeed` state these behaviours.

## Model

| member | source | states |
|---|---|---|
| JavaLang.Digits | src/main/java/ev3dev/hardware/motors/Motor.java:247 | the decimal numeral of a natural number: non-empty, all digits, no leading zero, and its digit value is the number |
| JavaLang.IntToString | src/main/java/ev3dev/hardware/motors/Motor.java:247 | Integer.toString: a leading minus exactly for negative ints, followed by the digits of the magnitude without leading zeros |
| JavaLang.ParseInt | src/main/java/ev3dev/hardware/motors/Motor.java:232-233 | Integer.parseInt: succeeds exactly when the text is an optional sign followed by one or more ASCII digits whose signed value is within the int range, and then returns that value; otherwise NumberFormatException |
| JavaLang.NotNumeralFails | src/main/java/ev3dev/hardware/motors/Motor.java:232-233 | text that is not an optional sign followed by digits, a lone sign and the empty string included, throws NumberFormatException |
| JavaLang.ParseIntToString | src/main/java/ev3dev/hardware/motors/Motor.java:243-248 | parseInt(toString(n)) == n for every int, the basis of every set-then-get round trip |
| JavaLang.IntToStringInjective | src/main/java/ev3dev/hardware/motors/Motor.java:247 | two different ints never have the same text |
| JavaLang.ContainsIffOccurs | src/main/java/ev3dev/hardware/motors/Motor.java:45 | String.contains(t) holds exactly when t occurs at some index of the string |
| Sysfs.AttributeStore.ReadInt | src/main/java/ev3dev/hardware/motors/Motor.java:232-233 | a getAttribute followed by parseInt: IOException for a missing attribute; NumberFormatException for text that is not a numeral; the value of an in-range numeral; n for an attribute holding toString(n) |
| Sysfs.AttributeStore.ReadList | src/main/java/ev3dev/hardware/motors/Motor.java:174-175 | a getAttribute followed by Sysclass.separateSpace: IOException for a missing attribute, otherwise its tokens |
| Sysfs.WordLen | src/main/java/ev3dev/hardware/ports/LegoPort.java:89-93 | the index of the first space (or the length): no space before it, and a space or the end at it |
| Sysfs.Tokens | src/main/java/ev3dev/hardware/motors/Motor.java:519-525 | the assumed behaviour of Sysclass.separateSpace, which is not shown: split on space characters, every element non-empty and space-free |
| Sysfs.TokensOfJoin | src/main/java/ev3dev/hardware/motors/Motor.java:519-525 | splitting a space-joined list of tokens gives back exactly that list |
| Sysfs.TokensTrailingSpace | src/main/java/ev3dev/hardware/motors/Motor.java:519-525 | a trailing space adds no empty element |
| Sysfs.StateExample | src/main/java/org/ev3dev/hardware/motors/DCMotor.java:230-233 | the state text "running ramping " yields exactly ["running", "ramping"] |
| Devices.Admission | src/main/java/ev3dev/hardware/motors/Motor.java:44-49 | the motor port check in source order: an unreadable address propagates its error; an address without "out" is InvalidPortException whatever the status; a readable status other than the class name is the class-specific error; passes exactly when the address contains "out" and the status equals the class |
| Devices.AddressCheckedFirst | src/main/java/ev3dev/hardware/motors/Motor.java:45-46 | when the address lacks "out" the verdict is InvalidPortException and does not depend on the status at all |
| Ports.CheckPort | src/main/java/ev3dev/hardware/ports/LegoPort.java:41-48 | passes exactly for 0..7; every other id is InvalidPortException |
| Ports.NamedPorts | src/main/java/ev3dev/hardware/ports/LegoPort.java:25-39 | PORT_1..PORT_4 are 0..3, PORT_A..PORT_D are 4..7, and they are exactly the ids the constructor accepts |
| Ports.InstanceInjective | src/main/java/ev3dev/hardware/ports/LegoPort.java:51 | two ports share the instance name "port"+id only if they are the same port |
| Ports.LegoPort.Open | src/main/java/ev3dev/hardware/ports/LegoPort.java:41-48 | fails with InvalidPortException exactly when the id is below 0 or above 7; otherwise a fresh port keeping the id unchanged |
| Ports.LegoPort.GetAddress | src/main/java/ev3dev/hardware/ports/LegoPort.java:50-53 | reads ("lego-port", "port"+id, "address") afresh on each call |
| Ports.LegoPort.GetDriverName | src/main/java/ev3dev/hardware/ports/LegoPort.java:55-58 | reads ("lego-port", "port"+id, "driver_name") |
| Ports.LegoPort.GetModes | src/main/java/ev3dev/hardware/ports/LegoPort.java:60-63 | IOException when the modes attribute is missing; otherwise the as-written separateSpace of its text |
| Ports.LegoPort.GetMode | src/main/java/ev3dev/hardware/ports/LegoPort.java:65-68 | reads ("lego-port", "port"+id, "mode") |
| Ports.LegoPort.SetMode | src/main/java/ev3dev/hardware/ports/LegoPort.java:70-72 | writes only the mode attribute, after which GetMode returns the written mode |
| Ports.LegoPort.SetDevice | src/main/java/ev3dev/hardware/ports/LegoPort.java:74-76 | writes only the set_device attribute; every other attribute keeps its value |
| Ports.LegoPort.GetStatus | src/main/java/ev3dev/hardware/ports/LegoPort.java:78-81 | reads ("lego-port", "port"+id, "status") |
| Ports.SeparateSpace | src/main/java/ev3dev/hardware/ports/LegoPort.java:83-107 | the nested loops as written compute SeparatedAsWritten: no element without a space, only the text before the first space when it lies within two of the end, and StringIndexOutOfBoundsException otherwise |
| Ports.NoSpaceNoElements | src/main/java/ev3dev/hardware/ports/LegoPort.java:88-96 | a string without a space, the empty string and a lone token included, yields an empty array |
| Ports.FirstSpaceDecides | src/main/java/ev3dev/hardware/ports/LegoPort.java:88-100 | with the first space at p the result is [s[0..p]] (empty when p = 0) if p + 2 >= length, and the call throws otherwise |
| Ports.SeparateSpaceLosesTokens | src/main/java/ev3dev/hardware/ports/LegoPort.java:88-100 | "a b" gives ["a"] and "a b c" throws, where the intended split gives ["a","b"] and ["a","b","c"] |
| Ports.ScanWord | src/main/java/ev3dev/hardware/ports/LegoPort.java:89-93 | the corrected inner scan: from the token start it stops at the first space or the end, passing only non-spaces |
| Ports.SplitOnSpaces | src/main/java/ev3dev/hardware/ports/LegoPort.java:83-107 | the corrected loop computes Tokens: it scans from the token start, keeps a token ended by the end of the text, and resumes right after the space |
| Motors.OnOff | src/main/java/ev3dev/hardware/motors/Motor.java:448 | true is written as "on", false as "off" |
| Motors.IsOn | src/main/java/ev3dev/hardware/motors/Motor.java:435-441 | the text means enabled exactly when it is "on"; "off" and any other text mean disabled |
| Motors.IsOnOnOff | src/main/java/ev3dev/hardware/motors/Motor.java:444-450 | a boolean written as on/off reads back as the same boolean |
| Motors.OnOffIsOn | src/main/java/ev3dev/hardware/motors/Motor.java:452-465 | normalising text through a boolean keeps "on" and turns everything else into "off" |
| Motors.Motor.Open | src/main/java/ev3dev/hardware/motors/Motor.java:40-50 | fails exactly as Admission(address, status, MOTOR_CLASS_NAME, InvalidPortException) says; on success the device is bound to the motor class and the given instance and keeps the port address |
| Motors.Motor.GetAddress | src/main/java/ev3dev/hardware/motors/Motor.java:60-65 | null when disconnected; otherwise the address attribute of the bound instance |
| Motors.Motor.SendCommand | src/main/java/ev3dev/hardware/motors/Motor.java:71-76 | disconnected: store unchanged; connected: only the command attribute changes, to the given text |
| Motors.Motor.RunForever | src/main/java/ev3dev/hardware/motors/Motor.java:82-87 | disconnected: store unchanged; connected: only the command attribute changes, to COMMAND_RUN_FOREVER |
| Motors.Motor.RunToAbsPos | src/main/java/ev3dev/hardware/motors/Motor.java:94-99 | disconnected: store unchanged; connected: only the command attribute changes, to COMMAND_RUN_TO_ABS_POS |
| Motors.Motor.RunToRelPos | src/main/java/ev3dev/hardware/motors/Motor.java:108-113 | disconnected: store unchanged; connected: only the command attribute changes, to COMMAND_RUN_TO_REL_POS |
| Motors.Motor.RunTimed | src/main/java/ev3dev/hardware/motors/Motor.java:121-126 | disconnected: store unchanged; connected: only the command attribute changes, to COMMAND_RUN_TIMED |
| Motors.Motor.RunDirect | src/main/java/ev3dev/hardware/motors/Motor.java:134-139 | disconnected: store unchanged; connected: only the command attribute changes, to COMMAND_RUN_DIRECT |
| Motors.Motor.Stop | src/main/java/ev3dev/hardware/motors/Motor.java:145-150 | disconnected: store unchanged; connected: only the command attribute changes, to COMMAND_STOP |
| Motors.Motor.Reset | src/main/java/ev3dev/hardware/motors/Motor.java:156-161 | disconnected: store unchanged; connected: only the command attribute changes, to COMMAND_RESET |
| Motors.Motor.GetCommands | src/main/java/ev3dev/hardware/motors/Motor.java:170-176 | null when disconnected; otherwise the tokens of the commands attribute |
| Motors.Motor.GetCountPerRot | src/main/java/ev3dev/hardware/motors/Motor.java:187-193 | -1 when disconnected; otherwise count_per_rot of the bound instance parsed by Integer.parseInt (IOException if absent, NumberFormatException if not an int) |
| Motors.Motor.GetDutyCycle | src/main/java/ev3dev/hardware/motors/Motor.java:213-219 | -1 when disconnected; otherwise duty_cycle of the bound instance parsed by Integer.parseInt (IOException if absent, NumberFormatException if not an int) |
| Motors.Motor.GetDutyCycleSP | src/main/java/ev3dev/hardware/motors/Motor.java:228-234 | -1 when disconnected; otherwise duty_cycle_sp of the bound instance parsed by Integer.parseInt (IOException if absent, NumberFormatException if not an int) |
| Motors.Motor.SetDutyCycleSP | src/main/java/ev3dev/hardware/motors/Motor.java:243-248 | disconnected: store unchanged; connected: only duty_cycle_sp changes, to Integer.toString(v), after which GetDutyCycleSP returns v |
| Motors.Motor.GetPositionP | src/main/java/ev3dev/hardware/motors/Motor.java:309-315 | -1 when disconnected; otherwise the position P gain of the bound instance parsed by Integer.parseInt (IOException if absent, NumberFormatException if not an int) |
| Motors.Motor.SetPositionP | src/main/java/ev3dev/hardware/motors/Motor.java:333-338 | disconnected: store unchanged; connected: only the position P gain changes, to Integer.toString(v), after which GetPositionP returns v |
| Motors.Motor.GetPositionI | src/main/java/ev3dev/hardware/motors/Motor.java:317-323 | -1 when disconnected; otherwise the position I gain of the bound instance parsed by Integer.parseInt (IOException if absent, NumberFormatException if not an int) |
| Motors.Motor.SetPositionI | src/main/java/ev3dev/hardware/motors/Motor.java:340-345 | disconnected: store unchanged; connected: only the position I gain changes, to Integer.toString(v), after which GetPositionI returns v |
| Motors.Motor.GetPositionD | src/main/java/ev3dev/hardware/motors/Motor.java:325-331 | -1 when disconnected; otherwise the position D gain of the bound instance parsed by Integer.parseInt (IOException if absent, NumberFormatException if not an int) |
| Motors.Motor.SetPositionD | src/main/java/ev3dev/hardware/motors/Motor.java:347-352 | disconnected: store unchanged; connected: only the position D gain changes, to Integer.toString(v), after which GetPositionD returns v |
| Motors.Motor.GetPositionSP | src/main/java/ev3dev/hardware/motors/Motor.java:354-360 | -1 when disconnected; otherwise position_sp of the bound instance parsed by Integer.parseInt (IOException if absent, NumberFormatException if not an int) |
| Motors.Motor.SetPositionSP | src/main/java/ev3dev/hardware/motors/Motor.java:362-367 | disconnected: store unchanged; connected: only position_sp changes, to Integer.toString(v), after which GetPositionSP returns v |
| Motors.Motor.GetSpeed | src/main/java/ev3dev/hardware/motors/Motor.java:369-375 | -1 when disconnected; otherwise speed of the bound instance parsed by Integer.parseInt (IOException if absent, NumberFormatException if not an int) |
| Motors.Motor.GetRampUpSP | src/main/java/ev3dev/hardware/motors/Motor.java:392-398 | -1 when disconnected; otherwise ramp_up_sp of the bound instance parsed by Integer.parseInt (IOException if absent, NumberFormatException if not an int) |
| Motors.Motor.SetRampUpSP | src/main/java/ev3dev/hardware/motors/Motor.java:400-405 | disconnected: store unchanged; connected: only ramp_up_sp changes, to Integer.toString(v), after which GetRampUpSP returns v |
| Motors.Motor.GetRampDownSP | src/main/java/ev3dev/hardware/motors/Motor.java:407-413 | -1 when disconnected; otherwise ramp_down_sp of the bound instance parsed by Integer.parseInt (IOException if absent, NumberFormatException if not an int) |
| Motors.Motor.SetRampDownSP | src/main/java/ev3dev/hardware/motors/Motor.java:415-420 | disconnected: store unchanged; connected: only ramp_down_sp changes, to Integer.toString(v), after which GetRampDownSP returns v |
| Motors.Motor.GetSpeedRegulationP | src/main/java/ev3dev/hardware/motors/Motor.java:467-473 | -1 when disconnected; otherwise the speed regulation P gain of the bound instance parsed by Integer.parseInt (IOException if absent, NumberFormatException if not an int) |
| Motors.Motor.SetSpeedRegulationP | src/main/java/ev3dev/hardware/motors/Motor.java:475-480 | disconnected: store unchanged; connected: only the speed regulation P gain changes, to Integer.toString(v), after which GetSpeedRegulationP returns v |
| Motors.Motor.GetSpeedRegulationI | src/main/java/ev3dev/hardware/motors/Motor.java:482-488 | -1 when disconnected; otherwise the speed regulation I gain of the bound instance parsed by Integer.parseInt (IOException if absent, NumberFormatException if not an int) |
| Motors.Motor.SetSpeedRegulationI | src/main/java/ev3dev/hardware/motors/Motor.java:490-495 | disconnected: store unchanged; connected: only the speed regulation I gain changes, to Integer.toString(v), after which GetSpeedRegulationI returns v |
| Motors.Motor.GetSpeedRegulationD | src/main/java/ev3dev/hardware/motors/Motor.java:497-503 | -1 when disconnected; otherwise the speed regulation D gain of the bound instance parsed by Integer.parseInt (IOException if absent, NumberFormatException if not an int) |
| Motors.Motor.SetSpeedRegulationD | src/main/java/ev3dev/hardware/motors/Motor.java:505-510 | disconnected: store unchanged; connected: only the speed regulation D gain changes, to Integer.toString(v), after which GetSpeedRegulationD returns v |
| Motors.Motor.GetTimeSP | src/main/java/ev3dev/hardware/motors/Motor.java:556-562 | -1 when disconnected; otherwise time_sp of the bound instance parsed by Integer.parseInt (IOException if absent, NumberFormatException if not an int) |
| Motors.Motor.SetTimeSP | src/main/java/ev3dev/hardware/motors/Motor.java:564-569 | disconnected: store unchanged; connected: only time_sp changes, to Integer.toString(v), after which GetTimeSP returns v |
| Motors.Motor.GetDriverName | src/main/java/ev3dev/hardware/motors/Motor.java:200-205 | null when disconnected; otherwise the driver_name attribute |
| Motors.Motor.GetEncoderPolarity | src/main/java/ev3dev/hardware/motors/Motor.java:258-263 | null when disconnected; otherwise the encoder_polarity attribute |
| Motors.Motor.SetEncoderPolarity | src/main/java/ev3dev/hardware/motors/Motor.java:273-278 | disconnected: store unchanged; connected: only encoder_polarity changes, and GetEncoderPolarity then returns the written text |
| Motors.Motor.GetPolarity | src/main/java/ev3dev/hardware/motors/Motor.java:280-285 | null when disconnected; otherwise the polarity attribute |
| Motors.Motor.SetPolarity | src/main/java/ev3dev/hardware/motors/Motor.java:287-292 | disconnected: store unchanged; connected: only polarity changes, and GetPolarity then returns the written text |
| Motors.Motor.GetPosition | src/main/java/ev3dev/hardware/motors/Motor.java:294-300 | -1 when disconnected; otherwise the attribute literally named "position_p" parsed as an int, not the position attribute |
| Motors.Motor.SetPosition | src/main/java/ev3dev/hardware/motors/Motor.java:302-307 | disconnected: store unchanged; connected: only the position attribute changes; unless that attribute is named "position_p", GetPosition is unaffected |
| Motors.Motor.GetSpeedSP | src/main/java/ev3dev/hardware/motors/Motor.java:377-383 | -1 when disconnected; otherwise the speed attribute (the one GetSpeed reads) parsed as an int |
| Motors.Motor.SetSpeedSP | src/main/java/ev3dev/hardware/motors/Motor.java:385-390 | disconnected: store unchanged; connected: only speed_sp changes; with distinct constants GetSpeedSP is unaffected |
| Motors.Motor.GetSpeedRegulationEnabled | src/main/java/ev3dev/hardware/motors/Motor.java:422-428 | null when disconnected; otherwise the raw speed_regulation text |
| Motors.Motor.IsSpeedRegulationEnabled | src/main/java/ev3dev/hardware/motors/Motor.java:430-442 | false when disconnected; otherwise IOException if the attribute is missing, else true exactly when the text is "on" |
| Motors.Motor.SetSpeedRegulationEnabled | src/main/java/ev3dev/hardware/motors/Motor.java:444-450 | disconnected: store unchanged; connected: writes "on" or "off" and IsSpeedRegulationEnabled then returns the boolean |
| Motors.Motor.SetSpeedRegulationEnabledFrom | src/main/java/ev3dev/hardware/motors/Motor.java:452-465 | disconnected: store unchanged; connected: writes "on" exactly when the argument is "on", otherwise "off"; IsSpeedRegulationEnabled then reports whether it was "on" |
| Motors.Motor.GetStateViaString | src/main/java/ev3dev/hardware/motors/Motor.java:512-517 | null when disconnected; otherwise the raw state text |
| Motors.Motor.GetState | src/main/java/ev3dev/hardware/motors/Motor.java:519-525 | null when disconnected; otherwise the tokens of the state attribute |
| Motors.Motor.GetStopCommand | src/main/java/ev3dev/hardware/motors/Motor.java:527-532 | null when disconnected; otherwise the stop_command attribute |
| Motors.Motor.SetStopCommand | src/main/java/ev3dev/hardware/motors/Motor.java:534-539 | disconnected: store unchanged; connected: only stop_command changes, and GetStopCommand then returns the written text |
| Motors.Motor.GetStopCommandsViaString | src/main/java/ev3dev/hardware/motors/Motor.java:541-546 | null when disconnected; otherwise the raw stop_commands text |
| Motors.Motor.GetStopCommands | src/main/java/ev3dev/hardware/motors/Motor.java:548-554 | null when disconnected; otherwise the tokens of the stop_commands attribute |
| Motors.DisconnectedSentinels | src/main/java/ev3dev/hardware/motors/Motor.java:187-190 | a disconnected motor answers -1 from every int getter, null from every string and list getter, and false from isSpeedRegulationEnabled |
| Motors.DutyCycleSPNotNumeral | src/main/java/ev3dev/hardware/motors/Motor.java:228-234 | a connected motor whose duty_cycle_sp text is not a decimal numeral answers NumberFormatException |
| Motors.SpeedSPReadsSpeed | src/main/java/ev3dev/hardware/motors/Motor.java:377-383 | getSpeed_SP and getSpeed always return the same result |
| OrgMotors.DCMotor.Open | src/main/java/org/ev3dev/hardware/motors/DCMotor.java:29-39 | fails exactly as Admission(address, status, DC_MOTOR_CLASS_NAME, InvalidMotorException) says: no "out" is InvalidPortException, a wrong status InvalidMotorException; on success bound to the dc-motor class and the given instance |
| OrgMotors.DCMotor.GetAddress | src/main/java/org/ev3dev/hardware/motors/DCMotor.java:46-48 | the address attribute of the bound instance, read whatever the connectivity |
| OrgMotors.DCMotor.SendCommand | src/main/java/org/ev3dev/hardware/motors/DCMotor.java:55-57 | only the command attribute changes, to the given text; no connectivity guard |
| OrgMotors.DCMotor.RunForever | src/main/java/org/ev3dev/hardware/motors/DCMotor.java:63-65 | only the command attribute changes, to COMMAND_RUN_FOREVER |
| OrgMotors.DCMotor.RunTimed | src/main/java/org/ev3dev/hardware/motors/DCMotor.java:73-75 | only the command attribute changes, to COMMAND_RUN_TIMED |
| OrgMotors.DCMotor.Stop | src/main/java/org/ev3dev/hardware/motors/DCMotor.java:81-83 | only the command attribute changes, to COMMAND_STOP |
| OrgMotors.DCMotor.GetCommands | src/main/java/org/ev3dev/hardware/motors/DCMotor.java:92-95 | the tokens of the commands attribute (IOException if missing) |
| OrgMotors.DCMotor.GetDriverName | src/main/java/org/ev3dev/hardware/motors/DCMotor.java:102-104 | the driver_name attribute |
| OrgMotors.DCMotor.GetDutyCycle | src/main/java/org/ev3dev/hardware/motors/DCMotor.java:111-114 | duty_cycle parsed by Integer.parseInt |
| OrgMotors.DCMotor.GetDutyCycleSP | src/main/java/org/ev3dev/hardware/motors/DCMotor.java:123-126 | duty_cycle_sp parsed by Integer.parseInt |
| OrgMotors.DCMotor.SetDutyCycleSP | src/main/java/org/ev3dev/hardware/motors/DCMotor.java:135-137 | only duty_cycle_sp changes, to Integer.toString(v); GetDutyCycleSP then returns v |
| OrgMotors.DCMotor.GetPolarity | src/main/java/org/ev3dev/hardware/motors/DCMotor.java:145-147 | the polarity attribute |
| OrgMotors.DCMotor.SetPolarity | src/main/java/org/ev3dev/hardware/motors/DCMotor.java:155-157 | only polarity changes; GetPolarity then returns the written text |
| OrgMotors.DCMotor.GetRampUpSP | src/main/java/org/ev3dev/hardware/motors/DCMotor.java:168-171 | ramp_up_sp parsed by Integer.parseInt |
| OrgMotors.DCMotor.SetRampUpSP | src/main/java/org/ev3dev/hardware/motors/DCMotor.java:182-184 | only ramp_up_sp changes; GetRampUpSP then returns v |
| OrgMotors.DCMotor.GetRampDownSP | src/main/java/org/ev3dev/hardware/motors/DCMotor.java:194-197 | ramp_down_sp parsed by Integer.parseInt |
| OrgMotors.DCMotor.SetRampDownSP | src/main/java/org/ev3dev/hardware/motors/DCMotor.java:207-209 | only ramp_down_sp changes; GetRampDownSP then returns v |
| OrgMotors.DCMotor.GetStateViaString | src/main/java/org/ev3dev/hardware/motors/DCMotor.java:221-223 | the raw state text |
| OrgMotors.DCMotor.GetState | src/main/java/org/ev3dev/hardware/motors/DCMotor.java:230-233 | the tokens of the state attribute |
| OrgMotors.DCMotor.GetStopCommand | src/main/java/org/ev3dev/hardware/motors/DCMotor.java:241-243 | the stop_action attribute |
| OrgMotors.DCMotor.SetStopCommand | src/main/java/org/ev3dev/hardware/motors/DCMotor.java:251-253 | only stop_action changes; GetStopCommand then returns the written text |
| OrgMotors.DCMotor.GetStopCommandsViaString | src/main/java/org/ev3dev/hardware/motors/DCMotor.java:272-274 | the raw stop_actions text |
| OrgMotors.DCMotor.GetStopCommands | src/main/java/org/ev3dev/hardware/motors/DCMotor.java:288-291 | the tokens of the stop_actions attribute |
| OrgMotors.DCMotor.GetTimeSP | src/main/java/org/ev3dev/hardware/motors/DCMotor.java:298-301 | time_sp parsed by Integer.parseInt |
| OrgMotors.DCMotor.SetTimeSP | src/main/java/org/ev3dev/hardware/motors/DCMotor.java:308-310 | only time_sp changes; GetTimeSP then returns v |
| DcMotors.DCMotor.Open | src/main/java/ev3dev/hardware/motors/DCMotor.java:24-39 | in order: a failed port check (no "out", then wrong status) is InvalidPortException, then an unresolvable address is InvalidPortException; succeeds exactly when the port check passes and the address resolves, and then MOTOR_STR is the resolved instance name |
| DcMotors.DCMotor.GetAddress | src/main/java/ev3dev/hardware/motors/DCMotor.java:46-48 | the address attribute of (DC_MOTOR_CLASS_NAME, MOTOR_STR), read whatever the connectivity |
| DcMotors.DCMotor.SendCommand | src/main/java/ev3dev/hardware/motors/DCMotor.java:54-56 | only the command attribute changes, to the given text; no connectivity guard |
| DcMotors.DCMotor.RunForever | src/main/java/ev3dev/hardware/motors/DCMotor.java:62-64 | only the command attribute changes, to COMMAND_RUN_FOREVER |
| DcMotors.DCMotor.RunTimed | src/main/java/ev3dev/hardware/motors/DCMotor.java:72-74 | only the command attribute changes, to COMMAND_RUN_TIMED |
| DcMotors.DCMotor.Stop | src/main/java/ev3dev/hardware/motors/DCMotor.java:76-78 | only the command attribute changes, to COMMAND_STOP |
| DcMotors.DCMotor.GetCommands | src/main/java/ev3dev/hardware/motors/DCMotor.java:80-83 | the tokens of the commands attribute (IOException if missing) |
| DcMotors.DCMotor.GetDriverName | src/main/java/ev3dev/hardware/motors/DCMotor.java:85-87 | the driver_name attribute |
| DcMotors.DCMotor.GetDutyCycle | src/main/java/ev3dev/hardware/motors/DCMotor.java:89-92 | duty_cycle parsed by Integer.parseInt |
| DcMotors.DCMotor.GetDutyCycleSP | src/main/java/ev3dev/hardware/motors/DCMotor.java:94-97 | duty_cycle_sp parsed by Integer.parseInt |
| DcMotors.DCMotor.SetDutyCycleSP | src/main/java/ev3dev/hardware/motors/DCMotor.java:99-101 | only duty_cycle_sp changes, to Integer.toString(v); GetDutyCycleSP then returns v |
| DcMotors.DCMotor.GetPolarity | src/main/java/ev3dev/hardware/motors/DCMotor.java:103-105 | the polarity attribute |
| DcMotors.DCMotor.SetPolarity | src/main/java/ev3dev/hardware/motors/DCMotor.java:107-109 | only polarity changes; GetPolarity then returns the written text |
| DcMotors.DCMotor.GetRampUpSP | src/main/java/ev3dev/hardware/motors/DCMotor.java:111-114 | ramp_up_sp parsed by Integer.parseInt |
| DcMotors.DCMotor.SetRampUpSP | src/main/java/ev3dev/hardware/motors/DCMotor.java:116-118 | only ramp_up_sp changes; GetRampUpSP then returns v |
| DcMotors.DCMotor.GetRampDownSP | src/main/java/ev3dev/hardware/motors/DCMotor.java:120-123 | ramp_down_sp parsed by Integer.parseInt |
| DcMotors.DCMotor.SetRampDownSP | src/main/java/ev3dev/hardware/motors/DCMotor.java:125-127 | only ramp_down_sp changes; GetRampDownSP then returns v |
| DcMotors.DCMotor.GetStateViaString | src/main/java/ev3dev/hardware/motors/DCMotor.java:129-131 | the raw state text |
| DcMotors.DCMotor.GetState | src/main/java/ev3dev/hardware/motors/DCMotor.java:133-136 | the tokens of the state attribute |
| DcMotors.DCMotor.GetStopCommand | src/main/java/ev3dev/hardware/motors/DCMotor.java:138-140 | the stop_command attribute |
| DcMotors.DCMotor.SetStopCommand | src/main/java/ev3dev/hardware/motors/DCMotor.java:142-144 | only stop_command changes; GetStopCommand then returns the written text |
| DcMotors.DCMotor.GetStopCommandsViaString | src/main/java/ev3dev/hardware/motors/DCMotor.java:146-148 | the raw stop_commands text |
| DcMotors.DCMotor.GetStopCommands | src/main/java/ev3dev/hardware/motors/DCMotor.java:150-153 | the tokens of the stop_commands attribute |
| DcMotors.DCMotor.GetTimeSP | src/main/java/ev3dev/hardware/motors/DCMotor.java:155-158 | time_sp parsed by Integer.parseInt |
| DcMotors.DCMotor.SetTimeSP | src/main/java/ev3dev/hardware/motors/DCMotor.java:160-162 | only time_sp changes; GetTimeSP then returns v |

## Left out

- Sysfs file I/O is not modelled. `Sysclass.getProperty`/`setProperty` become reads and writes of the `AttributeStore` map. `Sysclass.getHardwareName`'s directory scan becomes the `Resolver` function passed to `DcMotors.DCMotor.Open`. `Sysclass` is not part of this model.
- The `Device` base class is not part of this model. Its constructor's instance lookup and failures are left out. The instance name and `isConnected()` are inputs to `Open`, and connectivity changes only outside the handles.
- `org.ev3dev.hardware.ports.LegoPort` and `org.ev3dev.hardware.Device` are not part of this model. The `ev3dev` `LegoPort` stands in for both.
- `DcMotors.DCMotor.Open` takes the `LegoPort` directly, not the `Device` whose `getPort()` supplies it. The initial `MOTOR_STR = "motor"` is left out too: it cannot be observed after a successful construction.
- Write failures are left out: a read-only attribute or a device that vanished. In the model every write succeeds.
- The concrete text of the `Def` / `PropertyDefaults` constants is not part of this model. Where a property needs distinct names, it requires `Table.Valid()`. The constants `"position_p"`, `"out"`, `"on"`, `"off"` and `"lego-port"`, which the code writes literally, are kept.
- Exception messages are left out. So are the extra `getAddress()`/`getStatus()` reads made only to build them.
- `Sysclass.separateSpace`, which the motor list getters call, is not part of this model. `Sysfs.Tokens` assumes it splits on the space character `' '` and keeps no empty entries. Tabs and newlines are not separators in the model. If that helper has the same defects as `LegoPort.separateSpace`, the list getters' contracts would not hold for the real code.
- The constructors of `Motors.Motor`, `OrgMotors.DCMotor` and `DcMotors.DCMotor` only assemble a handle. Only `Open` creates handles, so a handle built by calling a constructor directly skips the port checks. The two `Device`-based constructors do require the device's class to be the motor class.
- `null` arguments and the `NullPointerException` they cause are left out.
- `Integer.parseInt` is modelled over ASCII digits only. Java also accepts other Unicode decimal digits.
- The element-by-element copy at the end of `LegoPort.separateSpace` is folded into the returned sequence.
- What the kernel driver does with a command or setpoint is left out, and so is concurrent access by other processes.
- `Motors.Motor.SetPosition` states no round trip: `getPosition` reads the `"position_p"` attribute, not the one `setPosition` writes.
- `Motors.Motor.SetSpeedSP` states no round trip: `getSpeed_SP` reads the `speed` attribute, not `speed_sp`.

## Findings

| source | as written | input that shows it | evidently intended | confidence | as-written member | corrected member |
|---|---|---|---|---|---|---|
| src/main/java/ev3dev/hardware/ports/LegoPort.java:88-100 | Three defects. (1) The inner loop restarts its scan at index 0 on every pass, so it always finds the first space p. (2) A token is added only when a space follows it (lines 94-96), so text without a space, such as `"abc"`, gives `[]`, and a last token is dropped. (3) `i = j + 1` at line 99 plus the loop's `i++` moves past the first character of the next token. Together: the first pass adds `s[0..p]` and sets i to p + 2; a second pass calls `substring(p + 2, p)` and throws. | `"abc"` gives `[]`; `"a b"` gives `["a"]`; `"a b c"` throws `StringIndexOutOfBoundsException` | split the text on spaces into all its tokens | not executed | Ports.SeparateSpaceLosesTokens | Ports.SplitOnSpaces |

`Ports.SplitOnSpaces` fixes all three defects and is proved to compute `Sysfs.Tokens`. The model takes `Sysfs.Tokens` to be what the motor list getters use (see the `Sysclass.separateSpace` line under Left out). `Ports.LegoPort.GetModes` keeps the as-written behaviour, because that is what the port class does.
