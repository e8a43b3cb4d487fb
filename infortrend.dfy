/** The CheckInfortrend plugin object: its counters, output lines and
    performance data, and the methods that update them in place. */
module Infortrend {
  import opened Wrappers
  import opened Bits
  import opened PyStr
  import opened Snmp
  import opened Classifiers
  import opened Perf
  import opened Report
  import opened Devices
  import opened Drives

  class CheckInfortrend {
    /** `self.state['critical']`, `self.state['warning']`, `self.state['unknown']`. */
    var critical: nat
    var warning: nat
    var unknown: nat
    /** `self.output`: one entry per flagged device or drive. */
    var output: seq<string>
    /** `self.perfData`: one entry per fan and temperature sensor. */
    var perfData: seq<string>

    function Snapshot(): State
      reads this
    {
      State(critical, warning, unknown, output, perfData)
    }

    constructor ()
      ensures Snapshot() == Initial
    {
      critical, warning, unknown := 0, 0, 0;
      output, perfData := [], [];
    }

    /** The part every `__check<Kind>` shares: for a non-zero status, build
        `outputLine` check by check on `bin(status)[2:]`, then append it.
        The ValueError of an empty numeral slice leaves the method at once. */
    method CheckBits(checks: seq<Check>, description: string, status: nat) returns (raised: Option<PyError>)
      modifies this
      ensures Effect(Snapshot(), raised) == BitfieldStep(old(Snapshot()), checks, description, status)
    {
      raised := None;
      if status == 0 {
        return;
      }
      var outputLine := [description + ":"];
      var binary := Binary(status);
      ghost var o := Start;
      var i := 0;
      while i < |checks|
        invariant 0 <= i <= |checks|
        invariant o.raised.None? && Run(checks[i..], binary, o) == Run(checks, binary, Start)
        invariant critical == old(critical) + o.critical && warning == old(warning) + o.warning
        invariant outputLine == [description + ":"] + o.fragments
        invariant unknown == old(unknown) && output == old(output) && perfData == old(perfData)
        decreases |checks| - i
      {
        assert checks[i..][1..] == checks[i + 1..];
        match checks[i] {
          case BitCheck(k, text, severity) =>
            if IndexFromEnd(binary, k) == Some('1') {
              outputLine := outputLine + [text];
              if severity == Critical {
                critical := critical + 1;
              } else if severity == Warning {
                warning := warning + 1;
              }
            }
          case NumeralCheck(high, low, grades) =>
            var numeral := ParseBinary(SliceFromEnd(binary, high, low));
            if numeral.Failure? {
              raised := Some(numeral.error);
              return;
            }
            var grade := Grading(grades, numeral.value);
            if grade.Some? {
              outputLine := outputLine + [grade.value.text];
              if grade.value.severity == Critical {
                critical := critical + 1;
              } else if grade.value.severity == Warning {
                warning := warning + 1;
              }
            }
        }
        o := Apply(o, checks[i], binary);
        i := i + 1;
      }
      output := output + [Join(outputLine, ' ')];
    }

    /** `__checkBattery`. */
    method CheckBattery(description: string, status: nat, sensorValue: int) returns (raised: Option<PyError>)
      modifies this
      ensures Effect(Snapshot(), raised) == DeviceStep(old(Snapshot()), Battery, description, status, sensorValue)
    {
      raised := CheckBits(ChecksOf(Battery), description, status);
    }

    /** `__checkCurrentSensor`. */
    method CheckCurrentSensor(description: string, status: nat, sensorValue: int) returns (raised: Option<PyError>)
      modifies this
      ensures Effect(Snapshot(), raised) == DeviceStep(old(Snapshot()), CurrentSensor, description, status, sensorValue)
    {
      raised := CheckBits(ChecksOf(CurrentSensor), description, status);
    }

    /** `__checkDoor`. */
    method CheckDoor(description: string, status: nat, sensorValue: int) returns (raised: Option<PyError>)
      modifies this
      ensures Effect(Snapshot(), raised) == DeviceStep(old(Snapshot()), Door, description, status, sensorValue)
    {
      raised := CheckBits(ChecksOf(Door), description, status);
    }

    /** `__checkFan`: the speed lookup and its perfdata entry come first. */
    method CheckFan(description: string, status: nat, sensorValue: int) returns (raised: Option<PyError>)
      modifies this
      ensures Effect(Snapshot(), raised) == DeviceStep(old(Snapshot()), Fan, description, status, sensorValue)
    {
      var perf := FanPerf(description, sensorValue);
      if perf.Failure? {
        return Some(perf.error);
      }
      perfData := perfData + [perf.value];
      raised := CheckBits(ChecksOf(Fan), description, status);
    }

    /** `__checkPowerSupply`. */
    method CheckPowerSupply(description: string, status: nat, sensorValue: int) returns (raised: Option<PyError>)
      modifies this
      ensures Effect(Snapshot(), raised) == DeviceStep(old(Snapshot()), PowerSupply, description, status, sensorValue)
    {
      raised := CheckBits(ChecksOf(PowerSupply), description, status);
    }

    /** `__checkSpeaker`. */
    method CheckSpeaker(description: string, status: nat, sensorValue: int) returns (raised: Option<PyError>)
      modifies this
      ensures Effect(Snapshot(), raised) == DeviceStep(old(Snapshot()), Speaker, description, status, sensorValue)
    {
      raised := CheckBits(ChecksOf(Speaker), description, status);
    }

    /** `__checkSlotStates`. */
    method CheckSlotStates(description: string, status: nat, sensorValue: int) returns (raised: Option<PyError>)
      modifies this
      ensures Effect(Snapshot(), raised) == DeviceStep(old(Snapshot()), SlotStates, description, status, sensorValue)
    {
      raised := CheckBits(ChecksOf(SlotStates), description, status);
    }

    /** `__checkTempSensor`: the temperature's perfdata entry comes first. */
    method CheckTempSensor(description: string, status: nat, sensorValue: int) returns (raised: Option<PyError>)
      modifies this
      ensures Effect(Snapshot(), raised) == DeviceStep(old(Snapshot()), TempSensor, description, status, sensorValue)
    {
      perfData := perfData + [TempPerf(description, sensorValue)];
      raised := CheckBits(ChecksOf(TempSensor), description, status);
    }

    /** `__checkUPS`. */
    method CheckUps(description: string, status: nat, sensorValue: int) returns (raised: Option<PyError>)
      modifies this
      ensures Effect(Snapshot(), raised) == DeviceStep(old(Snapshot()), Ups, description, status, sensorValue)
    {
      raised := CheckBits(ChecksOf(Ups), description, status);
    }

    /** `__checkVoltageSensor`. */
    method CheckVoltageSensor(description: string, status: nat, sensorValue: int) returns (raised: Option<PyError>)
      modifies this
      ensures Effect(Snapshot(), raised) == DeviceStep(old(Snapshot()), VoltageSensor, description, status, sensorValue)
    {
      raised := CheckBits(ChecksOf(VoltageSensor), description, status);
    }

    /** The classifier `luDevTypeCodes` selected, called on the device. */
    method CheckDevice(d: Device) returns (raised: Option<PyError>)
      modifies this
      ensures Effect(Snapshot(), raised) == DeviceStep(old(Snapshot()), d.kind, d.description, d.status, d.sensorValue)
    {
      match d.kind
      case PowerSupply => raised := CheckPowerSupply(d.description, d.status, d.sensorValue);
      case Fan => raised := CheckFan(d.description, d.status, d.sensorValue);
      case TempSensor => raised := CheckTempSensor(d.description, d.status, d.sensorValue);
      case Ups => raised := CheckUps(d.description, d.status, d.sensorValue);
      case VoltageSensor => raised := CheckVoltageSensor(d.description, d.status, d.sensorValue);
      case CurrentSensor => raised := CheckCurrentSensor(d.description, d.status, d.sensorValue);
      case Door => raised := CheckDoor(d.description, d.status, d.sensorValue);
      case Speaker => raised := CheckSpeaker(d.description, d.status, d.sensorValue);
      case Battery => raised := CheckBattery(d.description, d.status, d.sensorValue);
      case SlotStates => raised := CheckSlotStates(d.description, d.status, d.sensorValue);
    }

    /** The loop of `checkDeviceStatus` over the four walked lists, in the
        order of the type codes; the first exception ends it. */
    method CheckDeviceStatus(types: seq<int>, descriptions: seq<string>, statuses: seq<nat>, values: seq<int>) returns (raised: Option<PyError>)
      modifies this
      ensures Effect(Snapshot(), raised) == Dispatch(Effect(old(Snapshot()), None), types, descriptions, statuses, values, 0)
    {
      raised := None;
      var number := 0;
      while number < |types|
        invariant 0 <= number <= |types| && raised.None?
        invariant Dispatch(Effect(Snapshot(), None), types, descriptions, statuses, values, number) ==
                  Dispatch(Effect(old(Snapshot()), None), types, descriptions, statuses, values, 0)
      {
        ghost var before := Snapshot();
        var device := DeviceAt(types, descriptions, statuses, values, number);
        if device.Failure? {
          assert StepAt(before, types, descriptions, statuses, values, number) == Effect(before, Some(device.error));
          return Some(device.error);
        }
        raised := CheckDevice(device.value);
        assert StepAt(before, types, descriptions, statuses, values, number) == Effect(Snapshot(), raised);
        if raised.Some? {
          return;
        }
        number := number + 1;
      }
    }

    /** `__checkHddModelSerialNumber`, with the two values it fetches given. */
    method CheckHddModelSerialNumber(model: string, serial: string)
      modifies this
      ensures Snapshot() == old(Snapshot()).(output := old(output) + ["model:" + model, "serial number:" + serial])
    {
      output := output + ["model:" + model];
      output := output + ["serial number:" + serial];
    }

    /** `__checkHddStatus`. */
    method CheckHddStatus(hdds: seq<SnmpValue>, models: nat -> string, serials: nat -> string)
      modifies this
      ensures Snapshot() == HddRun(old(Snapshot()), hdds, models, serials, 0)
    {
      for drive := 0 to |hdds|
        invariant HddRun(Snapshot(), hdds, models, serials, drive) == HddRun(old(Snapshot()), hdds, models, serials, 0)
      {
        ghost var before := Snapshot();
        var status := hdds[drive];
        if HasCode(status, HddCritical) {
          critical := critical + 1;
          output := output + [DriveLine("Drive", drive, HddCritical[status.i])];
          if status.i == 255 {
            CheckHddModelSerialNumber(models(drive), serials(drive));
          }
        } else if HasCode(status, HddWarning) {
          warning := warning + 1;
          output := output + [DriveLine("Drive", drive, HddWarning[status.i])];
        } else {
          assert before.output + [] == before.output;
        }
        assert Snapshot() == HddStep(before, drive, status, models(drive), serials(drive));
      }
    }

    /** `__checkLdStatus`. */
    method CheckLdStatus(logicalDrives: seq<SnmpValue>) returns (raised: Option<PyError>)
      modifies this
      ensures Effect(Snapshot(), raised) == LdRun(Effect(old(Snapshot()), None), logicalDrives, 0)
    {
      raised := None;
      for drive := 0 to |logicalDrives|
        invariant raised.None?
        invariant LdRun(Effect(Snapshot(), None), logicalDrives, drive) == LdRun(Effect(old(Snapshot()), None), logicalDrives, 0)
      {
        raised := CheckLogicalDrive(drive, logicalDrives[drive]);
        if raised.Some? {
          return;
        }
      }
    }

    /** One turn of the loop of `__checkLdStatus`. */
    method CheckLogicalDrive(drive: nat, status: SnmpValue) returns (raised: Option<PyError>)
      modifies this
      ensures Effect(Snapshot(), raised) == LdStep(old(Snapshot()), drive, status)
    {
      ghost var before := Snapshot();
      if HasCode(status, LdCritical) {
        critical := critical + 1;
        output := output + [DriveLine("Logical Drive", drive, LdCritical[status.i])];
        assert Snapshot() == LdStep(before, drive, status).state;
        return None;
      }
      var n := AsInt(status);
      if n.Failure? {
        return Some(n.error);
      }
      if n.value in LdWarning {
        warning := warning + 1;
        output := output + [DriveLine("Logical Drive", drive, LdWarning[n.value])];
      }
      assert Snapshot() == LdStep(before, drive, status).state;
      raised := None;
    }

    /** `parsePrintExit` without the print and the exit: the verdict, the
        text it would print and the code it would exit with. */
    method ParsePrintExit() returns (text: string, exitCode: nat)
      ensures text == Render(Snapshot())
      ensures exitCode == ExitCode(VerdictOf(Snapshot()))
    {
      var status: Verdict;
      if critical > 0 {
        status := CRITICAL;
      } else if warning > 0 {
        status := WARNING;
      } else if unknown > 0 {
        status := UNKNOWN;
      } else {
        status := OK;
      }
      var finalLine := "";
      for i := 0 to |output|
        invariant finalLine == Body(output[..i])
      {
        BodyStep(output, i);
        finalLine := finalLine + " " + output[i] + " ";
      }
      assert output[..|output|] == output;
      if perfData != [] {
        finalLine := finalLine + "| ";
        for i := 0 to |perfData|
          invariant finalLine == Body(output) + ("| " + PerfBody(perfData[..i]))
        {
          PerfBodyStep(perfData, i);
          Associative("| " + PerfBody(perfData[..i]), perfData[i], " ");
          Associative("| ", PerfBody(perfData[..i]), perfData[i]);
          Associative("| ", PerfBody(perfData[..i]) + perfData[i], " ");
          Associative(Body(output), "| " + PerfBody(perfData[..i]), perfData[i]);
          Associative(Body(output), "| " + PerfBody(perfData[..i]) + perfData[i], " ");
          finalLine := finalLine + perfData[i] + " ";
        }
        assert perfData[..|perfData|] == perfData;
      } else {
        assert finalLine + [] == finalLine;
      }
      text := StatusName(status) + ":" + finalLine;
      exitCode := ExitCode(status);
    }
  }
}
