/** The enumerated-code checks of CheckInfortrend: `__checkHddStatus` over the
    physical-drive status codes and `__checkLdStatus` over the logical-drive
    status codes, each code looked up in a table of critical and a table of
    warning codes. */
module Drives {
  import opened Wrappers
  import opened PyStr
  import opened Snmp
  import opened Report

  /** Physical-drive codes that make the check critical. */
  const HddCritical: map<int, string> := map[
    63 := "Drive Absent", 252 := "Missing Global Spare Drive", 253 := "Missing Spare Drive",
    254 := "Missing Drive", 255 := "Failed Drive"]

  /** Physical-drive codes that make the check a warning. */
  const HddWarning: map<int, string> := map[
    0 := "New (Unassigned) Drive", 4 := "Drive Initialization in Progress",
    5 := "Drive Rebuild in Progress", 6 := "Add Drive to Logical Drive in Progress",
    17 := "Drive is in process of Cloning another Drive",
    19 := "Drive is in process of Copying from another Drive"]

  /** Logical-drive codes that make the check a warning. */
  const LdWarning: map<int, string> := map[1 := "Rebuilding", 2 := "Initializing", 3 := "Degraded"]

  /** Logical-drive codes that make the check critical. */
  const LdCritical: map<int, string> := map[
    4 := "Dead", 5 := "Invalid", 6 := "Incomplete", 7 := "Drive Missing", 64 := "Logical Drive Off-line"]

  /** `status in codes` for a value of the walk: the tables have integer
      keys, so a string is never found in them. */
  predicate HasCode(status: SnmpValue, codes: map<int, string>)
  {
    status.IntValue? && status.i in codes
  }

  /** `int(status)`: the identity on an integer, a parse of a string. */
  function AsInt(status: SnmpValue): (r: Result<int, PyError>)
    ensures status.IntValue? ==> r == Success(status.i)
    ensures r.Failure? ==> r.error == ValueError
  {
    match status
    case IntValue(n) => Success(n)
    case StrValue(t) => ParseInt(t)
  }

  /** `prefix + ' ' + str(drive + 1) + ': ' + message`: the drives are
      numbered from 1 in the text. */
  function DriveLine(prefix: string, drive: nat, message: string): string
  {
    prefix + " " + IntToString(drive + 1) + ": " + message
  }

  /** One turn of `__checkHddStatus`; a failed drive (code 255) also gets
      its model and serial number, looked up by the 0-based index. */
  function HddStep(s: State, drive: nat, status: SnmpValue, model: string, serial: string): State
  {
    if HasCode(status, HddCritical) then
      s.(critical := s.critical + 1,
         output := s.output + [DriveLine("Drive", drive, HddCritical[status.i])] +
                   (if status.i == 255 then ["model:" + model, "serial number:" + serial] else []))
    else if HasCode(status, HddWarning) then
      s.(warning := s.warning + 1, output := s.output + [DriveLine("Drive", drive, HddWarning[status.i])])
    else s
  }

  /** `__checkHddStatus` from drive i on; `models` and `serials` stand for
      the two SNMP gets of `__checkHddModelSerialNumber`. */
  function HddRun(s: State, statuses: seq<SnmpValue>, models: nat -> string, serials: nat -> string, i: nat): State
    requires i <= |statuses|
    decreases |statuses| - i
  {
    if i == |statuses| then s
    else HddRun(HddStep(s, i, statuses[i], models(i), serials(i)), statuses, models, serials, i + 1)
  }

  /** One turn of `__checkLdStatus`: the critical test is on the raw value,
      the warning test on `int(status)`, which raises ValueError for a
      string that is not a number. */
  function LdStep(s: State, drive: nat, status: SnmpValue): (e: Effect)
    ensures e.raised.None? <==> AsInt(status).Success?
    ensures e.raised.Some? ==> e == Effect(s, Some(ValueError))
  {
    if HasCode(status, LdCritical) then
      Effect(s.(critical := s.critical + 1,
                output := s.output + [DriveLine("Logical Drive", drive, LdCritical[status.i])]), None)
    else
      match AsInt(status)
      case Failure(e) => Effect(s, Some(e))
      case Success(n) =>
        if n in LdWarning then
          Effect(s.(warning := s.warning + 1,
                    output := s.output + [DriveLine("Logical Drive", drive, LdWarning[n])]), None)
        else Effect(s, None)
  }

  /** `__checkLdStatus` from logical drive i on, stopping at the first
      exception. */
  function LdRun(e: Effect, statuses: seq<SnmpValue>, i: nat): Effect
    requires i <= |statuses|
    decreases |statuses| - i
  {
    if i == |statuses| || e.raised.Some? then e
    else LdRun(LdStep(e.state, i, statuses[i]), statuses, i + 1)
  }

  /** The lines one physical drive contributes, in the order they are
      appended: its own line when its code is flagged, then the model and
      serial number of a failed drive. */
  function HddLines(drive: nat, status: SnmpValue, model: string, serial: string): seq<string>
  {
    if status.IntValue? && status.i in HddCritical then
      if status.i == 255 then
        [DriveLine("Drive", drive, "Failed Drive"), "model:" + model, "serial number:" + serial]
      else [DriveLine("Drive", drive, HddCritical[status.i])]
    else if status.IntValue? && status.i in HddWarning then [DriveLine("Drive", drive, HddWarning[status.i])]
    else []
  }

  /** The lines of drives i onwards, in drive order. */
  function HddRunLines(statuses: seq<SnmpValue>, models: nat -> string, serials: nat -> string, i: nat): seq<string>
    requires i <= |statuses|
    decreases |statuses| - i
  {
    if i == |statuses| then []
    else HddLines(i, statuses[i], models(i), serials(i)) + HddRunLines(statuses, models, serials, i + 1)
  }

  /** The line one logical drive contributes, if any: a critical code given
      as an integer, or a warning code once read by `int()`. */
  function LdLines(drive: nat, status: SnmpValue): seq<string>
  {
    if status.IntValue? && status.i in LdCritical then [DriveLine("Logical Drive", drive, LdCritical[status.i])]
    else
      match AsInt(status)
      case Success(n) => if n in LdWarning then [DriveLine("Logical Drive", drive, LdWarning[n])] else []
      case Failure(_) => []
  }

  /** The lines of logical drives i onwards, in drive order. */
  function LdRunLines(statuses: seq<SnmpValue>, i: nat): seq<string>
    requires i <= |statuses|
    decreases |statuses| - i
  {
    if i == |statuses| then []
    else LdLines(i, statuses[i]) + LdRunLines(statuses, i + 1)
  }

  /** How many of the values are integers among the codes. */
  function CountCodes(statuses: seq<SnmpValue>, codes: set<int>): nat
  {
    if statuses == [] then 0
    else (if statuses[0].IntValue? && statuses[0].i in codes then 1 else 0) + CountCodes(statuses[1..], codes)
  }

  /** How many of the values read as one of the codes under `int()`. */
  function CountParsed(statuses: seq<SnmpValue>, codes: set<int>): nat
  {
    if statuses == [] then 0
    else (if AsInt(statuses[0]).Success? && AsInt(statuses[0]).value in codes then 1 else 0) +
         CountParsed(statuses[1..], codes)
  }

  // ---------------------------------------------------------------------

  /** No code is both critical and a warning in either table, so the order
      of the two tests does not matter. */
  lemma CodeTablesDisjoint()
    ensures HddCritical.Keys !! HddWarning.Keys
    ensures LdCritical.Keys !! LdWarning.Keys
  {
  }

  /** The good physical-drive codes (on-line, used, spare, global spare,
      valid clone, SCSI device) are in neither table. */
  lemma GoodDriveCodes(c: int)
    requires c in {1, 2, 3, 9, 18} || 128 <= c <= 143
    ensures c !in HddCritical && c !in HddWarning
  {
  }

  /** A failed drive adds one critical and three lines: the drive, its model
      and its serial number. */
  lemma FailedDrive(s: State, drive: nat, model: string, serial: string)
    ensures HddStep(s, drive, IntValue(255), model, serial) ==
      s.(critical := s.critical + 1,
         output := s.output + [DriveLine("Drive", drive, "Failed Drive"), "model:" + model, "serial number:" + serial])
  {
  }

  /** A drive status that came back as a string is never flagged. */
  lemma HddIgnoresStrings(s: State, drive: nat, t: string, model: string, serial: string)
    ensures HddStep(s, drive, StrValue(t), model, serial) == s
  {
  }

  lemma HddStepCounts(s: State, drive: nat, status: SnmpValue, model: string, serial: string)
    ensures var r := HddStep(s, drive, status, model, serial);
      var crit, warn := HasCode(status, HddCritical), HasCode(status, HddWarning);
      r.critical == s.critical + (if crit then 1 else 0) &&
      r.warning == s.warning + (if warn then 1 else 0) &&
      r.unknown == s.unknown && r.perfData == s.perfData &&
      r.output == s.output + HddLines(drive, status, model, serial) &&
      r.output[..|s.output|] == s.output &&
      |r.output| == |s.output| + (if crit || warn then 1 else 0) + (if status == IntValue(255) then 2 else 0)
  {
  }

  /** `__checkHddStatus` counts one critical per critical code and one
      warning per warning code, and writes one line per flagged drive plus
      two per failed drive, after the lines already there. */
  lemma {:induction false} HddCounts(s: State, statuses: seq<SnmpValue>, models: nat -> string, serials: nat -> string, i: nat)
    requires i <= |statuses|
    ensures var r := HddRun(s, statuses, models, serials, i);
      var rest := statuses[i..];
      r.critical == s.critical + CountCodes(rest, HddCritical.Keys) &&
      r.warning == s.warning + CountCodes(rest, HddWarning.Keys) &&
      r.unknown == s.unknown && r.perfData == s.perfData &&
      r.output == s.output + HddRunLines(statuses, models, serials, i) &&
      |s.output| <= |r.output| && r.output[..|s.output|] == s.output &&
      |r.output| == |s.output| + CountCodes(rest, HddCritical.Keys) + CountCodes(rest, HddWarning.Keys) +
                    2 * CountCodes(rest, {255})
    decreases |statuses| - i
  {
    if i < |statuses| {
      var s' := HddStep(s, i, statuses[i], models(i), serials(i));
      HddStepCounts(s, i, statuses[i], models(i), serials(i));
      HddCounts(s', statuses, models, serials, i + 1);
      assert statuses[i..][1..] == statuses[i + 1..];
      var r := HddRun(s', statuses, models, serials, i + 1);
      var here, later := HddLines(i, statuses[i], models(i), serials(i)), HddRunLines(statuses, models, serials, i + 1);
      assert r.output == s.output + here + later;
      assert s.output + here + later == s.output + (here + later);
      assert r.output[..|s.output|] == r.output[..|s'.output|][..|s.output|];
    }
  }

  /** A logical-drive status that came back as a string is never counted
      critical, even when it spells a critical code: the critical test
      compares it with integer keys without converting it. */
  lemma LdStringNeverCritical(s: State, drive: nat, t: string)
    ensures LdStep(s, drive, StrValue(t)).state.critical == s.critical
  {
  }

  /** A critical code written as a string, `str(n)`, changes nothing: it
      reads back as n under `int()`, but only the warning codes are looked
      up after the conversion. */
  lemma LdCriticalCodeAsString(s: State, drive: nat, n: int)
    requires n in LdCritical
    ensures LdStep(s, drive, StrValue(IntToString(n))) == Effect(s, None)
  {
    var t := IntToString(n);
    ParseIntRoundTrip([], n, []);
    assert [] + t + [] == t;
    assert AsInt(StrValue(t)) == Success(n);
    CodeTablesDisjoint();
    assert n in LdCritical.Keys;
  }

  /** A string that `int()` cannot read raises ValueError with nothing
      changed; one that reads as a warning code counts as that warning. */
  lemma LdStringStatus(s: State, drive: nat, t: string)
    ensures ParseInt(t).Failure? ==> LdStep(s, drive, StrValue(t)) == Effect(s, Some(ValueError))
    ensures ParseInt(t).Success? && ParseInt(t).value in LdWarning ==>
      LdStep(s, drive, StrValue(t)) ==
        Effect(s.(warning := s.warning + 1,
                  output := s.output + [DriveLine("Logical Drive", drive, LdWarning[ParseInt(t).value])]), None)
  {
    assert !HasCode(StrValue(t), LdCritical);
    assert AsInt(StrValue(t)) == ParseInt(t);
  }

  /** Once every status reads under `int()`, `__checkLdStatus` runs to the
      end and counts one critical per integer critical code and one warning
      per value that reads as a warning code. */
  lemma {:induction false} LdCounts(s: State, statuses: seq<SnmpValue>, i: nat)
    requires i <= |statuses|
    requires forall j :: i <= j < |statuses| ==> AsInt(statuses[j]).Success?
    ensures var r := LdRun(Effect(s, None), statuses, i);
      var rest := statuses[i..];
      r.raised.None? &&
      r.state.critical == s.critical + CountCodes(rest, LdCritical.Keys) &&
      r.state.warning == s.warning + CountParsed(rest, LdWarning.Keys) &&
      r.state.unknown == s.unknown && r.state.perfData == s.perfData &&
      r.state.output == s.output + LdRunLines(statuses, i)
    decreases |statuses| - i
  {
    LdRunOutput(s, statuses, i);
    if i < |statuses| {
      var status := statuses[i];
      var e := LdStep(s, i, status);
      assert e.raised.None?;
      assert LdRun(Effect(s, None), statuses, i) == LdRun(e, statuses, i + 1);
      LdStepCounts(s, i, status);
      var rest := statuses[i..];
      assert rest[0] == status && rest[1..] == statuses[i + 1..];
      assert CountCodes(rest, LdCritical.Keys) ==
             (if status.IntValue? && status.i in LdCritical.Keys then 1 else 0) + CountCodes(statuses[i + 1..], LdCritical.Keys);
      assert CountParsed(rest, LdWarning.Keys) ==
             (if AsInt(status).value in LdWarning.Keys then 1 else 0) + CountParsed(statuses[i + 1..], LdWarning.Keys);
      LdCounts(e.state, statuses, i + 1);
    }
  }

  /** One logical drive whose status reads under `int()`: one critical for an
      integer critical code, one warning for a value that reads as a warning
      code. */
  lemma LdStepCounts(s: State, drive: nat, status: SnmpValue)
    requires AsInt(status).Success?
    ensures var r := LdStep(s, drive, status);
      r.raised.None? &&
      r.state.critical == s.critical + (if status.IntValue? && status.i in LdCritical.Keys then 1 else 0) &&
      r.state.warning == s.warning + (if AsInt(status).value in LdWarning.Keys then 1 else 0) &&
      r.state.unknown == s.unknown && r.state.perfData == s.perfData
  {
    CodeTablesDisjoint();
  }

  /** ... and appends the lines of the logical drives in drive order. */
  lemma {:induction false} LdRunOutput(s: State, statuses: seq<SnmpValue>, i: nat)
    requires i <= |statuses|
    requires forall j :: i <= j < |statuses| ==> AsInt(statuses[j]).Success?
    ensures LdRun(Effect(s, None), statuses, i).state.output == s.output + LdRunLines(statuses, i)
    decreases |statuses| - i
  {
    if i < |statuses| {
      var e := LdStep(s, i, statuses[i]);
      assert e.raised.None?;
      assert LdRun(Effect(s, None), statuses, i) == LdRun(e, statuses, i + 1);
      LdStepLines(s, i, statuses[i]);
      LdRunOutput(e.state, statuses, i + 1);
      var here, later := LdLines(i, statuses[i]), LdRunLines(statuses, i + 1);
      assert s.output + here + later == s.output + (here + later);
    }
  }

  /** A logical drive whose status reads under `int()` appends its own line
      and nothing else. */
  lemma LdStepLines(s: State, drive: nat, status: SnmpValue)
    requires AsInt(status).Success?
    ensures LdStep(s, drive, status).state.output == s.output + LdLines(drive, status)
  {
    if !HasCode(status, LdCritical) && AsInt(status).value !in LdWarning {
      assert s.output + [] == s.output;
    }
  }

  /** `__checkLdStatus` raises only ValueError, and only when some status
      does not read under `int()`. */
  lemma {:induction false} LdRaises(e: Effect, statuses: seq<SnmpValue>, i: nat, j: nat)
    requires i <= j < |statuses| && e.raised.None?
    requires LdRun(e, statuses, i).raised.None?
    ensures AsInt(statuses[j]).Success?
    decreases j - i
  {
    var e' := LdStep(e.state, i, statuses[i]);
    if i < j {
      LdRaises(e', statuses, i + 1, j);
    }
  }

  lemma {:induction false} LdRaisesValueError(e: Effect, statuses: seq<SnmpValue>, i: nat)
    requires i <= |statuses| && e.raised.None?
    ensures LdRun(e, statuses, i).raised.Some? ==> LdRun(e, statuses, i).raised == Some(ValueError)
    decreases |statuses| - i
  {
    if i < |statuses| {
      var e' := LdStep(e.state, i, statuses[i]);
      if e'.raised.None? {
        LdRaisesValueError(e', statuses, i + 1);
      }
    }
  }
}
