/** One logical-unit device seen by CheckInfortrend: what its classifier does
    to the plugin's state, and the dispatch loop of `checkDeviceStatus` over
    the four lists fetched from the array. */
module Devices {
  import opened Wrappers
  import opened Bits
  import opened PyStr
  import opened Classifiers
  import opened Perf
  import opened Report

  /** `' '.join(outputLine)` where `outputLine` starts with
      `deviceDescription + ':'` and goes on with the fragments. */
  function Line(description: string, fragments: seq<string>): string
  {
    Join([description + ":"] + fragments, ' ')
  }

  /** Each fragment preceded by one space. */
  function Spaced(fragments: seq<string>): string
  {
    if fragments == [] then "" else " " + fragments[0] + Spaced(fragments[1..])
  }

  /** The bitfield part of a classifier, after any perfdata: nothing at all
      for status 0, otherwise what its checks found on `bin(status)[2:]`. */
  function BitfieldStep(s: State, checks: seq<Check>, description: string, status: nat): Effect
  {
    if status == 0 then Effect(s, None) else Settle(s, description, Run(checks, Binary(status), Start))
  }

  /** The counters grow by what the checks found, and the line is appended
      only if no check raised. */
  function Settle(s: State, description: string, o: Outcome): (e: Effect)
    ensures e.raised == o.raised && e.state.unknown == s.unknown && e.state.perfData == s.perfData
    ensures e.state.critical == s.critical + o.critical && e.state.warning == s.warning + o.warning
    ensures e.state.output == s.output + (if o.raised.Some? then [] else [Line(description, o.fragments)])
  {
    var counted := s.(critical := s.critical + o.critical, warning := s.warning + o.warning);
    if o.raised.Some? then Effect(counted, o.raised)
    else Effect(counted.(output := s.output + [Line(description, o.fragments)]), None)
  }

  /** `__check<Kind>(deviceDescription, status, sensorValue)`. The fan looks
      its speed up (KeyError before anything is appended) and the fan and
      temperature sensor append their perfdata before testing the status. */
  function DeviceStep(s: State, kind: DeviceKind, description: string, status: nat, sensorValue: int): Effect
  {
    match kind
    case Fan =>
      (match FanPerf(description, sensorValue)
       case Failure(e) => Effect(s, Some(e))
       case Success(p) => BitfieldStep(s.(perfData := s.perfData + [p]), ChecksOf(kind), description, status))
    case TempSensor =>
      BitfieldStep(s.(perfData := s.perfData + [TempPerf(description, sensorValue)]), ChecksOf(kind), description, status)
    case _ => BitfieldStep(s, ChecksOf(kind), description, status)
  }

  /** `luDevTypeCodes`: the device-type codes and the classifier each one
      selects. */
  const DeviceTypes: map<int, DeviceKind> := map[
    1 := PowerSupply, 2 := Fan, 3 := TempSensor, 4 := Ups, 5 := VoltageSensor,
    6 := CurrentSensor, 8 := TempSensor, 9 := Door, 10 := Speaker, 11 := Battery,
    17 := SlotStates]

  /** The arguments of one classifier call. */
  datatype Device = Device(kind: DeviceKind, description: string, status: nat, sensorValue: int)

  /** `luDevTypeCodes[device]`, then `deviceDescription[number]`,
      `deviceStatus[number]` and `deviceValue[number]`, in that order. */
  function DeviceAt(types: seq<int>, descriptions: seq<string>, statuses: seq<nat>, values: seq<int>, i: nat): (r: Result<Device, PyError>)
    requires i < |types|
    ensures r.Success? <==> types[i] in DeviceTypes && i < |descriptions| && i < |statuses| && i < |values|
    ensures r.Failure? ==> r.error == (if types[i] in DeviceTypes then IndexError else KeyError)
    ensures r.Success? ==> r.value == Device(DeviceTypes[types[i]], descriptions[i], statuses[i], values[i])
  {
    if types[i] !in DeviceTypes then Failure(KeyError)
    else if i >= |descriptions| || i >= |statuses| || i >= |values| then Failure(IndexError)
    else Success(Device(DeviceTypes[types[i]], descriptions[i], statuses[i], values[i]))
  }

  /** One turn of the dispatch loop: the lookups, then the classifier. */
  function StepAt(s: State, types: seq<int>, descriptions: seq<string>, statuses: seq<nat>, values: seq<int>, i: nat): (e: Effect)
    requires i < |types|
    ensures DeviceAt(types, descriptions, statuses, values, i).Failure? ==> e.state == s && e.raised.Some?
    ensures e.raised.None? ==> types[i] in DeviceTypes && i < |descriptions| && i < |statuses| && i < |values|
  {
    match DeviceAt(types, descriptions, statuses, values, i)
    case Failure(err) => Effect(s, Some(err))
    case Success(d) => DeviceStep(s, d.kind, d.description, d.status, d.sensorValue)
  }

  /** The dispatch loop from device i on, from the effect of the devices
      before it: an exception already raised ends the loop. */
  function Dispatch(e: Effect, types: seq<int>, descriptions: seq<string>, statuses: seq<nat>, values: seq<int>, i: nat): Effect
    requires i <= |types|
    decreases |types| - i
  {
    if i == |types| || e.raised.Some? then e
    else Dispatch(StepAt(e.state, types, descriptions, statuses, values, i), types, descriptions, statuses, values, i + 1)
  }

  // ---------------------------------------------------------------------

  /** The line is the description and its colon, then each fragment after
      one space, in the order the checks made them. */
  lemma LineShape(description: string, fragments: seq<string>)
    ensures Line(description, fragments) == description + ":" + Spaced(fragments)
  {
    if fragments != [] {
      JoinSpaced(fragments);
      assert ([description + ":"] + fragments)[1..] == fragments;
    }
  }

  lemma {:induction false} JoinSpaced(parts: seq<string>)
    requires parts != []
    ensures Join(parts, ' ') == parts[0] + Spaced(parts[1..])
    decreases |parts|
  {
    if |parts| > 1 {
      JoinSpaced(parts[1..]);
      assert parts[1..][1..] == parts[2..];
    }
  }

  /** A device whose status word is 0 leaves counters and output alone;
      only the fan and the temperature sensor add their perfdata entry. */
  lemma QuietDevice(s: State, kind: DeviceKind, description: string, sensorValue: int)
    requires !(kind == Fan && sensorValue !in FanSpeeds)
    ensures var e := DeviceStep(s, kind, description, 0, sensorValue);
      e.raised.None? &&
      e.state.(perfData := s.perfData) == s &&
      |e.state.perfData| == |s.perfData| + (if kind == Fan || kind == TempSensor then 1 else 0)
  {
  }

  /** A non-zero status word adds the tallies of the classifier's checks to
      the counters, and appends exactly one line, `description:` and the
      fragments, unless a numeral slice came out empty: then the
      ValueError leaves the counters grown and no line appended. */
  lemma DeviceCounts(s: State, kind: DeviceKind, description: string, status: nat, sensorValue: int)
    requires status > 0 && !(kind == Fan && sensorValue !in FanSpeeds)
    ensures var e := DeviceStep(s, kind, description, status, sensorValue);
      var t := ChecksOf(kind);
      e.state.critical == s.critical + Tally(t, status, Critical) &&
      e.state.warning == s.warning + Tally(t, status, Warning) &&
      e.state.unknown == s.unknown &&
      (e.raised.Some? <==> RaisesIn(t, status)) &&
      (e.raised.Some? ==> e.raised == Some(ValueError) && e.state.output == s.output) &&
      (e.raised.None? ==> e.state.output == s.output + [description + ":" + Spaced(Transcript(t, status))])
  {
    ClassifyTally(kind, status);
    LineShape(description, Transcript(ChecksOf(kind), status));
  }

  /** The fan and temperature sensor append exactly one perfdata entry
      whatever the status; the other classifiers none. A fan speed off the
      table raises KeyError with nothing changed. */
  lemma DevicePerfData(s: State, kind: DeviceKind, description: string, status: nat, sensorValue: int)
    ensures var e := DeviceStep(s, kind, description, status, sensorValue);
      (kind == Fan && sensorValue !in FanSpeeds ==> e == Effect(s, Some(KeyError))) &&
      (kind == Fan && sensorValue in FanSpeeds ==>
         e.state.perfData == s.perfData + [PerfLine(description, FanSpeeds[sensorValue], "6000", "7000", "0", "8000")]) &&
      (kind == TempSensor ==>
         e.state.perfData == s.perfData + [PerfLine(description, Celsius(sensorValue), "70", "80", "0", "100")]) &&
      (kind != Fan && kind != TempSensor ==> e.state.perfData == s.perfData)
  {
  }

  /** Bit 1 of every status word is a malfunction and counts as critical. */
  lemma MalfunctionIsCritical(kind: DeviceKind, status: nat)
    requires BitSet(status, 1)
    ensures Tally(ChecksOf(kind), status, Critical) >= 1
  {
    var t := ChecksOf(kind);
    assert t[0].BitCheck? && t[0].position == 1 && t[0].severity == Critical;
    assert t[0..] == t;
    TallyStep(t, status, 0);
    BitContribution(t[0], status);
  }

  /** The type map knows eleven codes; 3 and 8 both mean a temperature
      sensor, and 7 is not a code. */
  lemma DeviceTypeCodes()
    ensures DeviceTypes.Keys == {1, 2, 3, 4, 5, 6, 8, 9, 10, 11, 17}
    ensures DeviceTypes[3] == DeviceTypes[8] == TempSensor
  {
  }

  /** Every other code selects a different classifier. */
  lemma TemperatureCodes(c: int)
    requires c in DeviceTypes && DeviceTypes[c] == TempSensor
    ensures c == 3 || c == 8
  {
  }

  /** Dispatch only adds: counters grow, output and perfdata are extended,
      and the unknown counter is never touched. */
  lemma {:induction false} DispatchExtends(e: Effect, types: seq<int>, descriptions: seq<string>, statuses: seq<nat>, values: seq<int>, i: nat)
    requires i <= |types|
    ensures var s, r := e.state, Dispatch(e, types, descriptions, statuses, values, i).state;
      r.unknown == s.unknown && s.critical <= r.critical && s.warning <= r.warning &&
      |s.output| <= |r.output| && r.output[..|s.output|] == s.output &&
      |s.perfData| <= |r.perfData| && r.perfData[..|s.perfData|] == s.perfData
    decreases |types| - i
  {
    if i < |types| && e.raised.None? {
      var s := e.state;
      var e' := StepAt(s, types, descriptions, statuses, values, i);
      var d := DeviceAt(types, descriptions, statuses, values, i);
      if d.Success? {
        StepExtends(s, d.value);
      }
      DispatchExtends(e', types, descriptions, statuses, values, i + 1);
      var r := Dispatch(e', types, descriptions, statuses, values, i + 1).state;
      assert r.output[..|s.output|] == r.output[..|e'.state.output|][..|s.output|];
      assert r.perfData[..|s.perfData|] == r.perfData[..|e'.state.perfData|][..|s.perfData|];
    }
  }

  lemma StepExtends(s: State, d: Device)
    ensures var r := DeviceStep(s, d.kind, d.description, d.status, d.sensorValue).state;
      r.unknown == s.unknown && s.critical <= r.critical && s.warning <= r.warning &&
      |s.output| <= |r.output| && r.output[..|s.output|] == s.output &&
      |s.perfData| <= |r.perfData| && r.perfData[..|s.perfData|] == s.perfData
  {
    var s' := if d.kind == Fan && d.sensorValue in FanSpeeds then s.(perfData := s.perfData + [FanPerf(d.description, d.sensorValue).value])
              else if d.kind == TempSensor then s.(perfData := s.perfData + [TempPerf(d.description, d.sensorValue)])
              else s;
    assert s'.perfData[..|s.perfData|] == s.perfData;
  }

  /** Dispatch gets through every device only when every type code is in
      the map. */
  lemma {:induction false} DispatchKnownTypes(e: Effect, types: seq<int>, descriptions: seq<string>, statuses: seq<nat>, values: seq<int>, i: nat, j: nat)
    requires i <= j < |types|
    requires Dispatch(e, types, descriptions, statuses, values, i).raised.None?
    ensures types[j] in DeviceTypes
    decreases j - i
  {
    var e' := StepAt(e.state, types, descriptions, statuses, values, i);
    if i < j {
      DispatchKnownTypes(e', types, descriptions, statuses, values, i + 1, j);
    }
  }

  /** ... and every list is at least as long as the list of type codes. */
  lemma {:induction false} DispatchListsLongEnough(e: Effect, types: seq<int>, descriptions: seq<string>, statuses: seq<nat>, values: seq<int>, i: nat)
    requires i < |types|
    requires Dispatch(e, types, descriptions, statuses, values, i).raised.None?
    ensures |descriptions| >= |types| && |statuses| >= |types| && |values| >= |types|
    decreases |types| - i
  {
    var e' := StepAt(e.state, types, descriptions, statuses, values, i);
    if i + 1 < |types| {
      DispatchListsLongEnough(e', types, descriptions, statuses, values, i + 1);
    }
  }

  /** The first device with an unmapped type code stops the dispatch with a
      KeyError before its own lists are read. */
  lemma UnmappedType(s: State, types: seq<int>, descriptions: seq<string>, statuses: seq<nat>, values: seq<int>, i: nat)
    requires i < |types| && types[i] !in DeviceTypes
    ensures Dispatch(Effect(s, None), types, descriptions, statuses, values, i) == Effect(s, Some(KeyError))
  {
  }
}
