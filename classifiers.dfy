/** The ten bitfield classifiers of CheckInfortrend (`__checkBattery`,
    `__checkCurrentSensor`, `__checkDoor`, `__checkFan`, `__checkPowerSupply`,
    `__checkSpeaker`, `__checkSlotStates`, `__checkTempSensor`, `__checkUPS`,
    `__checkVoltageSensor`), written as the sequence of checks each one makes
    on `binary = bin(status)[2:]`, in the order it makes them, plus the fan
    and temperature performance data. */
module Classifiers {
  import opened Wrappers
  import opened Numerals
  import opened Bits

  /** Informational text is appended without touching a counter. */
  datatype Severity = Critical | Warning | Informational

  /** One arm of an `if numeral == n` chain. */
  datatype Grade = Grade(numeral: nat, text: string, severity: Severity)

  /** One `try` block of a classifier: `binary[-position] == '1'`, or the
      numeral `int('0b' + binary[-high:-low], 2)` looked up in grades. */
  datatype Check =
    | BitCheck(position: nat, text: string, severity: Severity)
    | NumeralCheck(high: nat, low: nat, grades: seq<Grade>)

  /** What a classifier has done so far: the text fragments after
      `description + ':'`, the counter increments, and the exception that
      stopped it, if any. */
  datatype Outcome = Outcome(fragments: seq<string>, critical: nat, warning: nat, raised: Option<PyError>)

  const Start: Outcome := Outcome([], 0, 0, None)

  function Record(o: Outcome, text: string, severity: Severity): Outcome
  {
    o.(fragments := o.fragments + [text],
       critical := o.critical + (if severity == Critical then 1 else 0),
       warning := o.warning + (if severity == Warning then 1 else 0))
  }

  /** The first grade for numeral n: the `if`/`elif` chain. */
  function Grading(grades: seq<Grade>, n: nat): (g: Option<Grade>)
    ensures g.Some? ==> g.value in grades && g.value.numeral == n
    ensures g.None? ==> forall i :: 0 <= i < |grades| ==> grades[i].numeral != n
  {
    if grades == [] then None
    else if grades[0].numeral == n then Some(grades[0])
    else Grading(grades[1..], n)
  }

  /** The chain stops at the first arm that matches. */
  lemma {:induction false} GradingFirst(grades: seq<Grade>, n: nat, i: nat)
    requires i < |grades| && grades[i].numeral == n
    requires forall j :: 0 <= j < i ==> grades[j].numeral != n
    ensures Grading(grades, n) == Some(grades[i])
    decreases i
  {
    if i > 0 {
      assert grades[0].numeral != n;
      assert forall j :: 0 <= j < i - 1 ==> grades[1..][j] == grades[j + 1];
      GradingFirst(grades[1..], n, i - 1);
    }
  }

  /** One check on the binary string. An IndexError is swallowed; the
      ValueError of an empty slice is not. */
  function Apply(o: Outcome, c: Check, binary: string): Outcome
  {
    match c
    case BitCheck(k, text, severity) =>
      if IndexFromEnd(binary, k) == Some('1') then Record(o, text, severity) else o
    case NumeralCheck(high, low, grades) =>
      match ParseBinary(SliceFromEnd(binary, high, low))
      case Failure(e) => o.(raised := Some(e))
      case Success(n) =>
        match Grading(grades, n)
        case None => o
        case Some(g) => Record(o, g.text, g.severity)
  }

  /** The remaining checks, in order, stopping at the first exception. */
  function Run(checks: seq<Check>, binary: string, o: Outcome): Outcome
    decreases |checks|
  {
    if checks == [] || o.raised.Some? then o
    else Run(checks[1..], binary, Apply(o, checks[0], binary))
  }

  predicate WellFormedCheck(c: Check) {
    match c
    case BitCheck(k, _, _) => k >= 1
    case NumeralCheck(high, low, _) => high > low >= 1
  }

  predicate WellFormed(checks: seq<Check>) {
    forall i :: 0 <= i < |checks| ==> WellFormedCheck(checks[i])
  }

  /** The same check stated on the integer status word instead of its
      binary string. */
  function ApplyReference(o: Outcome, c: Check, status: nat): Outcome
    requires WellFormedCheck(c)
  {
    match c
    case BitCheck(k, text, severity) =>
      if BitSet(status, k) then Record(o, text, severity) else o
    case NumeralCheck(high, low, grades) =>
      if status < Pow(2, low) then o.(raised := Some(ValueError))
      else
        match Grading(grades, Field(status, low, high - low))
        case None => o
        case Some(g) => Record(o, g.text, g.severity)
  }

  function RunReference(checks: seq<Check>, status: nat, o: Outcome): Outcome
    requires WellFormed(checks)
    decreases |checks|
  {
    if checks == [] || o.raised.Some? then o
    else RunReference(checks[1..], status, ApplyReference(o, checks[0], status))
  }

  lemma ApplyMatchesReference(o: Outcome, c: Check, status: nat)
    requires status > 0 && WellFormedCheck(c)
    ensures Apply(o, c, Binary(status)) == ApplyReference(o, c, status)
  {
    match c
    case BitCheck(k, _, _) => BitFromEnd(status, k);
    case NumeralCheck(high, low, _) => SliceField(status, high, low);
  }

  /** Reading bits and slices off the unpadded binary string, with its
      exceptions, is the same as reading them off the integer. */
  lemma {:induction false} RunMatchesReference(checks: seq<Check>, status: nat, o: Outcome)
    requires status > 0 && WellFormed(checks)
    ensures Run(checks, Binary(status), o) == RunReference(checks, status, o)
    decreases |checks|
  {
    if checks != [] && o.raised.None? {
      ApplyMatchesReference(o, checks[0], status);
      RunMatchesReference(checks[1..], status, Apply(o, checks[0], Binary(status)));
    }
  }

  /** A run only adds: fragments are appended and counters grow. */
  lemma {:induction false} RunExtends(checks: seq<Check>, binary: string, o: Outcome)
    ensures var r := Run(checks, binary, o);
      |o.fragments| <= |r.fragments| && r.fragments[..|o.fragments|] == o.fragments &&
      o.critical <= r.critical && o.warning <= r.warning &&
      (o.raised.Some? ==> r == o)
    decreases |checks|
  {
    if checks != [] && o.raised.None? {
      var o' := Apply(o, checks[0], binary);
      RunExtends(checks[1..], binary, o');
      assert Run(checks[1..], binary, o').fragments[..|o'.fragments|] == o'.fragments;
      assert o'.fragments[..|o.fragments|] == o.fragments;
    }
  }

  /** Whether a numeral's grade has the given severity. */
  predicate GradedAs(grades: seq<Grade>, n: nat, severity: Severity) {
    var g := Grading(grades, n);
    g.Some? && g.value.severity == severity
  }

  /** The check raises: its slice is empty. */
  predicate Raises(c: Check, status: nat)
    requires WellFormedCheck(c)
  {
    c.NumeralCheck? && status < Pow(2, c.low)
  }

  /** What one check that does not raise adds to the counter of a severity. */
  function Contribution(c: Check, status: nat, severity: Severity): nat
    requires WellFormedCheck(c)
  {
    match c
    case BitCheck(k, _, s) => if s == severity && BitSet(status, k) then 1 else 0
    case NumeralCheck(high, low, grades) =>
      if status >= Pow(2, low) && GradedAs(grades, Field(status, low, high - low), severity) then 1 else 0
  }

  /** The text one check that does not raise appends. */
  function Said(c: Check, status: nat): seq<string>
    requires WellFormedCheck(c)
  {
    match c
    case BitCheck(k, text, _) => if BitSet(status, k) then [text] else []
    case NumeralCheck(high, low, grades) =>
      if status < Pow(2, low) then []
      else
        match Grading(grades, Field(status, low, high - low))
        case None => []
        case Some(g) => [g.text]
  }

  /** Some check of the table raises. */
  predicate RaisesIn(checks: seq<Check>, status: nat)
    requires WellFormed(checks)
    decreases |checks|
  {
    checks != [] && (Raises(checks[0], status) || RaisesIn(checks[1..], status))
  }

  /** The increments of a severity's counter, up to the first check that raises. */
  function Tally(checks: seq<Check>, status: nat, severity: Severity): nat
    requires WellFormed(checks)
    decreases |checks|
  {
    if checks == [] || Raises(checks[0], status) then 0
    else Contribution(checks[0], status, severity) + Tally(checks[1..], status, severity)
  }

  /** The fragments appended, up to the first check that raises. */
  function Transcript(checks: seq<Check>, status: nat): seq<string>
    requires WellFormed(checks)
    decreases |checks|
  {
    if checks == [] || Raises(checks[0], status) then []
    else Said(checks[0], status) + Transcript(checks[1..], status)
  }

  /** A run of a table is its tally, its transcript and, if some check
      raises, the ValueError of the first one that does. */
  lemma {:induction false} RunTally(checks: seq<Check>, status: nat, o: Outcome)
    requires WellFormed(checks) && o.raised.None?
    ensures var r := RunReference(checks, status, o);
      r.critical == o.critical + Tally(checks, status, Critical) &&
      r.warning == o.warning + Tally(checks, status, Warning) &&
      r.fragments == o.fragments + Transcript(checks, status) &&
      r.raised == (if RaisesIn(checks, status) then Some(ValueError) else None)
    decreases |checks|
  {
    if checks != [] {
      var o' := ApplyReference(o, checks[0], status);
      if !Raises(checks[0], status) {
        ApplyReferenceSteps(o, checks[0], status);
        RunTally(checks[1..], status, o');
      }
    }
  }

  /** What a check that does not raise does to an outcome. */
  lemma ApplyReferenceSteps(o: Outcome, c: Check, status: nat)
    requires WellFormedCheck(c) && !Raises(c, status)
    ensures var r := ApplyReference(o, c, status);
      r.raised == o.raised &&
      r.critical == o.critical + Contribution(c, status, Critical) &&
      r.warning == o.warning + Contribution(c, status, Warning) &&
      r.fragments == o.fragments + Said(c, status)
  {
  }

  /** A bit check never raises and counts its bit under its severity. */
  lemma BitContribution(c: Check, status: nat)
    requires c.BitCheck? && c.position >= 1
    ensures !Raises(c, status)
    ensures Contribution(c, status, Critical) == (if c.severity == Critical then Flag(status, c.position) else 0)
    ensures Contribution(c, status, Warning) == (if c.severity == Warning then Flag(status, c.position) else 0)
  {
  }

  /** A numeral check raises below its slice and otherwise counts its grade. */
  lemma NumeralContribution(c: Check, status: nat)
    requires c.NumeralCheck? && WellFormedCheck(c)
    ensures Raises(c, status) <==> status < Pow(2, c.low)
    ensures status >= Pow(2, c.low) ==>
      (Contribution(c, status, Critical) ==
         (if GradedAs(c.grades, Field(status, c.low, c.high - c.low), Critical) then 1 else 0) &&
       Contribution(c, status, Warning) ==
         (if GradedAs(c.grades, Field(status, c.low, c.high - c.low), Warning) then 1 else 0))
  {
  }

  /** One step of the tallies of a table, from position i. */
  lemma TallyStep(checks: seq<Check>, status: nat, i: nat)
    requires WellFormed(checks) && i < |checks|
    ensures Tally(checks[i..], status, Critical) ==
            (if Raises(checks[i], status) then 0
             else Contribution(checks[i], status, Critical) + Tally(checks[i + 1..], status, Critical))
    ensures Tally(checks[i..], status, Warning) ==
            (if Raises(checks[i], status) then 0
             else Contribution(checks[i], status, Warning) + Tally(checks[i + 1..], status, Warning))
    ensures RaisesIn(checks[i..], status) == (Raises(checks[i], status) || RaisesIn(checks[i + 1..], status))
  {
    assert checks[i..][1..] == checks[i + 1..];
  }

  // ---------------------------------------------------------------------
  // The tables, in the order of each classifier's try blocks.

  const BatteryGrades: seq<Grade> := [
    Grade(1, "Battery not fully charged", Warning),
    Grade(2, "Battery charge critically low", Critical),
    Grade(3, "Battery completely drained", Critical)]

  const BatteryChecks: seq<Check> := [
    BitCheck(1, "Battery is malfunctioning", Critical),
    BitCheck(2, "Battery charging on", Warning),
    NumeralCheck(4, 2, BatteryGrades),
    BitCheck(7, "Battery-backup is disabled", Informational),
    BitCheck(8, "Battery is not present", Critical)]

  const CurrentGrades: seq<Grade> := [
    Grade(3, "Over current warning", Warning),
    Grade(5, "Over current limit exceeded", Critical)]

  const CurrentSensorChecks: seq<Check> := [
    BitCheck(1, "Current sensor malfunctioning", Critical),
    NumeralCheck(4, 1, CurrentGrades),
    BitCheck(7, "Current sensor is not activated", Warning),
    BitCheck(8, "Current sensor not present", Critical)]

  const DoorChecks: seq<Check> := [
    BitCheck(1, "Door, door lock, or door sensor malfunctioning", Critical),
    BitCheck(2, "Door is open", Warning),
    BitCheck(7, "Door lock not engaged", Warning),
    BitCheck(8, "Door is not present", Critical)]

  const FanChecks: seq<Check> := [
    BitCheck(1, "Fan is malfunctioning", Critical),
    BitCheck(7, "Fan is off", Warning),
    BitCheck(8, "Fan is not present", Critical)]

  const PowerSupplyChecks: seq<Check> := [
    BitCheck(1, "Power supply is malfunctioning", Critical),
    BitCheck(7, "Power supply is off", Warning),
    BitCheck(8, "Power supply is not present", Critical)]

  const SpeakerChecks: seq<Check> := [
    BitCheck(1, "Speaker is malfunctioning", Critical),
    BitCheck(7, "Speaker is off", Warning),
    BitCheck(8, "Speaker is not present", Critical)]

  const SlotChecks: seq<Check> := [
    BitCheck(1, "Slot sense circuitry is malfunctioning", Critical),
    BitCheck(2, "Device in slot has been marked bad and is awaiting a replacement", Warning),
    BitCheck(3, "Slot is not activated", Warning),
    BitCheck(7, "Slot is ready for insertion/removal", Informational),
    BitCheck(8, "Slot is empty", Warning)]

  const TempGrades: seq<Grade> := [
    Grade(2, "Cold temperature warning", Warning),
    Grade(3, "Hot temperature warning", Warning),
    Grade(4, "Cold temperature limit exceeded", Critical),
    Grade(5, "Hot temperature limit exceeded", Critical)]

  const TempSensorChecks: seq<Check> := [
    BitCheck(1, "Temperature sensor is malfunctioning", Critical),
    NumeralCheck(4, 1, TempGrades),
    BitCheck(7, "Temperature sensor is not activated", Warning),
    BitCheck(8, "Temperature sensor is not present", Critical)]

  const UpsChecks: seq<Check> := [
    BitCheck(1, "Unit is malfunctioning", Critical),
    BitCheck(2, "AC Power not present", Critical),
    NumeralCheck(4, 2, BatteryGrades),
    BitCheck(7, "UPS is off", Warning),
    BitCheck(8, "UPS is not present", Critical)]

  const VoltageGrades: seq<Grade> := [
    Grade(2, "Low voltage warning", Warning),
    Grade(3, "High voltage warning", Warning),
    Grade(4, "Low voltage limit exceeded", Critical),
    Grade(5, "High voltage limit exceeded", Critical)]

  const VoltageSensorChecks: seq<Check> := [
    BitCheck(1, "Voltage sensor is malfunctioning", Critical),
    NumeralCheck(4, 1, VoltageGrades),
    BitCheck(7, "Voltage sensor is not activated", Warning),
    BitCheck(8, "Voltage sensor is not present", Critical)]

  /** The device classes `checkDeviceStatus` dispatches to. */
  datatype DeviceKind =
    | PowerSupply | Fan | TempSensor | Ups | VoltageSensor
    | CurrentSensor | Door | Speaker | Battery | SlotStates

  function ChecksOf(kind: DeviceKind): (checks: seq<Check>)
    ensures WellFormed(checks)
  {
    match kind
    case PowerSupply => PowerSupplyChecks
    case Fan => FanChecks
    case TempSensor => TempSensorChecks
    case Ups => UpsChecks
    case VoltageSensor => VoltageSensorChecks
    case CurrentSensor => CurrentSensorChecks
    case Door => DoorChecks
    case Speaker => SpeakerChecks
    case Battery => BatteryChecks
    case SlotStates => SlotChecks
  }

  /** The outcome of a classifier on a non-zero status word. */
  function Classify(kind: DeviceKind, status: nat): Outcome
  {
    Run(ChecksOf(kind), Binary(status), Start)
  }

  // ---------------------------------------------------------------------
  // What each classifier does, stated on the bits of the status word.

  /** A classifier's outcome on a non-zero status is the tally, transcript
      and exception of its table, read off the integer. */
  lemma ClassifyTally(kind: DeviceKind, status: nat)
    requires status > 0
    ensures var t := ChecksOf(kind);
      Classify(kind, status) ==
        Outcome(Transcript(t, status), Tally(t, status, Critical), Tally(t, status, Warning),
                if RaisesIn(t, status) then Some(ValueError) else None)
  {
    RunMatchesReference(ChecksOf(kind), status, Start);
    RunTally(ChecksOf(kind), status, Start);
  }

  function Flag(status: nat, k: nat): nat
    requires k >= 1
  {
    if BitSet(status, k) then 1 else 0
  }

  /** The two numerals: `binary[-4:-2]` is `(status >> 2) & 3` and
      `binary[-4:-1]` is `(status >> 1) & 7`. */
  lemma NumeralFields(status: nat)
    ensures Field(status, 2, 2) == (status / 4) % 4
    ensures Field(status, 1, 3) == (status / 2) % 8
  {
    assert Pow(2, 2) == 4 && Pow(2, 1) == 2 && Pow(2, 3) == 8;
  }

  lemma BatteryGrading(n: nat)
    ensures GradedAs(BatteryGrades, n, Critical) <==> 2 <= n <= 3
    ensures GradedAs(BatteryGrades, n, Warning) <==> n == 1
  {
  }

  lemma TempGrading(n: nat)
    ensures GradedAs(TempGrades, n, Critical) <==> 4 <= n <= 5
    ensures GradedAs(TempGrades, n, Warning) <==> 2 <= n <= 3
  {
  }

  lemma VoltageGrading(n: nat)
    ensures GradedAs(VoltageGrades, n, Critical) <==> 4 <= n <= 5
    ensures GradedAs(VoltageGrades, n, Warning) <==> 2 <= n <= 3
  {
  }

  lemma CurrentGrading(n: nat)
    ensures GradedAs(CurrentGrades, n, Critical) <==> n == 5
    ensures GradedAs(CurrentGrades, n, Warning) <==> n == 3
  {
  }

  /** Power supply: bit 1 and bit 8 critical, bit 7 warning; never raises. */
  lemma PowerSupplyCounts(status: nat)
    ensures !RaisesIn(PowerSupplyChecks, status)
    ensures Tally(PowerSupplyChecks, status, Critical) == Flag(status, 1) + Flag(status, 8)
    ensures Tally(PowerSupplyChecks, status, Warning) == Flag(status, 7)
  {
    var t := PowerSupplyChecks;
    assert t[0..] == t;
    TallyStep(t, status, 0);
    BitContribution(t[0], status);
    TallyStep(t, status, 1);
    BitContribution(t[1], status);
    TallyStep(t, status, 2);
    BitContribution(t[2], status);
    assert t[3..] == [];
  }

  /** Fan: bit 1 and bit 8 critical, bit 7 warning; never raises. */
  lemma FanCounts(status: nat)
    ensures !RaisesIn(FanChecks, status)
    ensures Tally(FanChecks, status, Critical) == Flag(status, 1) + Flag(status, 8)
    ensures Tally(FanChecks, status, Warning) == Flag(status, 7)
  {
    var t := FanChecks;
    assert t[0..] == t;
    TallyStep(t, status, 0);
    BitContribution(t[0], status);
    TallyStep(t, status, 1);
    BitContribution(t[1], status);
    TallyStep(t, status, 2);
    BitContribution(t[2], status);
    assert t[3..] == [];
  }

  /** Speaker: bit 1 and bit 8 critical, bit 7 warning; never raises. */
  lemma SpeakerCounts(status: nat)
    ensures !RaisesIn(SpeakerChecks, status)
    ensures Tally(SpeakerChecks, status, Critical) == Flag(status, 1) + Flag(status, 8)
    ensures Tally(SpeakerChecks, status, Warning) == Flag(status, 7)
  {
    var t := SpeakerChecks;
    assert t[0..] == t;
    TallyStep(t, status, 0);
    BitContribution(t[0], status);
    TallyStep(t, status, 1);
    BitContribution(t[1], status);
    TallyStep(t, status, 2);
    BitContribution(t[2], status);
    assert t[3..] == [];
  }

  /** Door: bit 1 and bit 8 critical, bits 2 and 7 warning; never raises. */
  lemma DoorCounts(status: nat)
    ensures !RaisesIn(DoorChecks, status)
    ensures Tally(DoorChecks, status, Critical) == Flag(status, 1) + Flag(status, 8)
    ensures Tally(DoorChecks, status, Warning) == Flag(status, 2) + Flag(status, 7)
  {
    var t := DoorChecks;
    assert t[0..] == t;
    TallyStep(t, status, 0);
    BitContribution(t[0], status);
    TallyStep(t, status, 1);
    BitContribution(t[1], status);
    TallyStep(t, status, 2);
    BitContribution(t[2], status);
    TallyStep(t, status, 3);
    BitContribution(t[3], status);
    assert t[4..] == [];
  }

  /** Slot: bit 1 critical; bits 2, 3 and 8 warning; bit 7 is text only; never raises. */
  lemma SlotCounts(status: nat)
    ensures !RaisesIn(SlotChecks, status)
    ensures Tally(SlotChecks, status, Critical) == Flag(status, 1)
    ensures Tally(SlotChecks, status, Warning) == Flag(status, 2) + Flag(status, 3) + Flag(status, 8)
  {
    var t := SlotChecks;
    assert t[0..] == t;
    TallyStep(t, status, 0);
    BitContribution(t[0], status);
    TallyStep(t, status, 1);
    BitContribution(t[1], status);
    TallyStep(t, status, 2);
    BitContribution(t[2], status);
    TallyStep(t, status, 3);
    BitContribution(t[3], status);
    TallyStep(t, status, 4);
    BitContribution(t[4], status);
    assert t[5..] == [];
  }

  /** Battery: a status below 4 raises ValueError after bits 1 and 2 have
      been counted; otherwise numeral 1 warns and 2 or 3 is critical; bit 7
      is text only. */
  lemma BatteryCounts(status: nat)
    ensures RaisesIn(BatteryChecks, status) <==> status < 4
    ensures status < 4 ==> (Tally(BatteryChecks, status, Critical) == Flag(status, 1) &&
                            Tally(BatteryChecks, status, Warning) == Flag(status, 2))
    ensures status >= 4 ==> (Tally(BatteryChecks, status, Critical) ==
                             Flag(status, 1) + (if (status / 4) % 4 >= 2 then 1 else 0) + Flag(status, 8))
    ensures status >= 4 ==> (Tally(BatteryChecks, status, Warning) ==
                             Flag(status, 2) + (if (status / 4) % 4 == 1 then 1 else 0))
  {
    var t := BatteryChecks;
    assert t[0..] == t;
    TallyStep(t, status, 0);
    BitContribution(t[0], status);
    TallyStep(t, status, 1);
    BitContribution(t[1], status);
    TallyStep(t, status, 2);
    NumeralContribution(t[2], status);
    assert Pow(2, 2) == 4;
    TallyStep(t, status, 3);
    BitContribution(t[3], status);
    TallyStep(t, status, 4);
    BitContribution(t[4], status);
    assert t[5..] == [];
    if status >= 4 {
      NumeralFields(status);
      BatteryGrading(Field(status, 2, 2));
    }
  }

  /** UPS: bits 1, 2 and 8 critical, bit 7 warning, the numeral graded as
      the battery's; a status below 4 raises ValueError. */
  lemma UpsCounts(status: nat)
    ensures RaisesIn(UpsChecks, status) <==> status < 4
    ensures status < 4 ==> (Tally(UpsChecks, status, Critical) == Flag(status, 1) + Flag(status, 2) &&
                            Tally(UpsChecks, status, Warning) == 0)
    ensures status >= 4 ==> (Tally(UpsChecks, status, Critical) ==
                             Flag(status, 1) + Flag(status, 2) + (if (status / 4) % 4 >= 2 then 1 else 0) + Flag(status, 8))
    ensures status >= 4 ==> (Tally(UpsChecks, status, Warning) ==
                             (if (status / 4) % 4 == 1 then 1 else 0) + Flag(status, 7))
  {
    var t := UpsChecks;
    assert t[0..] == t;
    TallyStep(t, status, 0);
    BitContribution(t[0], status);
    TallyStep(t, status, 1);
    BitContribution(t[1], status);
    TallyStep(t, status, 2);
    NumeralContribution(t[2], status);
    assert Pow(2, 2) == 4;
    TallyStep(t, status, 3);
    BitContribution(t[3], status);
    TallyStep(t, status, 4);
    BitContribution(t[4], status);
    assert t[5..] == [];
    if status >= 4 {
      NumeralFields(status);
      BatteryGrading(Field(status, 2, 2));
    }
  }

  /** Temperature: numeral 2 or 3 warns, 4 or 5 is critical; a status below 2 raises ValueError after bit 1 has been counted. */
  lemma TempSensorCounts(status: nat)
    ensures RaisesIn(TempSensorChecks, status) <==> status < 2
    ensures status < 2 ==> (Tally(TempSensorChecks, status, Critical) == Flag(status, 1) &&
                            Tally(TempSensorChecks, status, Warning) == 0)
    ensures status >= 2 ==> (Tally(TempSensorChecks, status, Critical) ==
                             Flag(status, 1) + (if 4 <= (status / 2) % 8 <= 5 then 1 else 0) + Flag(status, 8))
    ensures status >= 2 ==> (Tally(TempSensorChecks, status, Warning) ==
                             (if 2 <= (status / 2) % 8 <= 3 then 1 else 0) + Flag(status, 7))
  {
    var t := TempSensorChecks;
    assert t[0..] == t;
    TallyStep(t, status, 0);
    BitContribution(t[0], status);
    TallyStep(t, status, 1);
    NumeralContribution(t[1], status);
    assert Pow(2, 1) == 2;
    TallyStep(t, status, 2);
    BitContribution(t[2], status);
    TallyStep(t, status, 3);
    BitContribution(t[3], status);
    assert t[4..] == [];
    NumeralFields(status);
    TempGrading(Field(status, 1, 3));
  }

  /** Voltage: graded as the temperature sensor. */
  lemma VoltageSensorCounts(status: nat)
    ensures RaisesIn(VoltageSensorChecks, status) <==> status < 2
    ensures status < 2 ==> (Tally(VoltageSensorChecks, status, Critical) == Flag(status, 1) &&
                            Tally(VoltageSensorChecks, status, Warning) == 0)
    ensures status >= 2 ==> (Tally(VoltageSensorChecks, status, Critical) ==
                             Flag(status, 1) + (if 4 <= (status / 2) % 8 <= 5 then 1 else 0) + Flag(status, 8))
    ensures status >= 2 ==> (Tally(VoltageSensorChecks, status, Warning) ==
                             (if 2 <= (status / 2) % 8 <= 3 then 1 else 0) + Flag(status, 7))
  {
    var t := VoltageSensorChecks;
    assert t[0..] == t;
    TallyStep(t, status, 0);
    BitContribution(t[0], status);
    TallyStep(t, status, 1);
    NumeralContribution(t[1], status);
    assert Pow(2, 1) == 2;
    TallyStep(t, status, 2);
    BitContribution(t[2], status);
    TallyStep(t, status, 3);
    BitContribution(t[3], status);
    assert t[4..] == [];
    NumeralFields(status);
    VoltageGrading(Field(status, 1, 3));
  }

  /** Current: only numeral 3 (warning) and 5 (critical) count; a status below 2 raises ValueError after bit 1 has been counted. */
  lemma CurrentSensorCounts(status: nat)
    ensures RaisesIn(CurrentSensorChecks, status) <==> status < 2
    ensures status < 2 ==> (Tally(CurrentSensorChecks, status, Critical) == Flag(status, 1) &&
                            Tally(CurrentSensorChecks, status, Warning) == 0)
    ensures status >= 2 ==> (Tally(CurrentSensorChecks, status, Critical) ==
                             Flag(status, 1) + (if (status / 2) % 8 == 5 then 1 else 0) + Flag(status, 8))
    ensures status >= 2 ==> (Tally(CurrentSensorChecks, status, Warning) ==
                             (if (status / 2) % 8 == 3 then 1 else 0) + Flag(status, 7))
  {
    var t := CurrentSensorChecks;
    assert t[0..] == t;
    TallyStep(t, status, 0);
    BitContribution(t[0], status);
    TallyStep(t, status, 1);
    NumeralContribution(t[1], status);
    assert Pow(2, 1) == 2;
    TallyStep(t, status, 2);
    BitContribution(t[2], status);
    TallyStep(t, status, 3);
    BitContribution(t[3], status);
    assert t[4..] == [];
    NumeralFields(status);
    CurrentGrading(Field(status, 1, 3));
  }
}
