# check_infortrend in Dafny

A model of the decoding core of `check_infortrend.py`. This Nagios plugin
watches Infortrend RAID arrays over SNMP. The model covers how the plugin
object `CheckInfortrend` turns values already fetched from the array into
three things:

- three severity counters (`self.state`: critical, warning, unknown);
- output lines (`self.output`);
- performance-data entries (`self.perfData`).

It also covers how `parsePrintExit` folds these into one Nagios verdict, an
exit code and the printed text, and how `_parseSnmpOutput` turns the text of
`snmpget`/`snmpwalk` into integers and strings.

Module layout:

- `Wrappers` (wrappers.dfy): `Option`, `Result`, and the three Python
  exceptions the code really raises: `KeyError`, `ValueError` and
  `IndexError`.
- `Numerals`, `Bits` (numerals.dfy, bits.dfy):
  - `bin(n)[2:]` and `int('0b' + s, 2)`;
  - Python's negative indexing and clamped slicing on the binary string;
  - what these mean on the integer status word.
- `PyStr` (pystr.dfy): `str.split`, `' '.join`, `str.strip`, `str(n)` and
  the part of `int(s)` the model keeps.
- `Snmp` (snmp.dfy): `_parseSnmpOutput`.
- `Classifiers` (classifiers.dfy): the ten bitfield classifiers. Each is the
  sequence of `try` blocks it runs on `binary`, given as a table of
  `BitCheck`/`NumeralCheck` entries. A generic evaluator runs these over the
  string. A reference evaluator runs them over the integer. The two are
  proved to agree, and each classifier gets closed-form counter lemmas.
- `Perf` (perf.dfy): the fan and temperature perfdata entries.
- `Report` (report.dfy):
  - the plugin's state as a value;
  - the verdict chain, the exit codes and the rendered text of
    `parsePrintExit`.
- `Devices` (devices.dfy):
  - one classifier call on the state;
  - the `luDevTypeCodes` map;
  - the dispatch loop of `checkDeviceStatus`.
- `Drives` (drives.dfy): `__checkHddStatus` and `__checkLdStatus` as
  functions on the state.
- `Infortrend` (infortrend.dfy): the class `CheckInfortrend`.
  - Its fields are `critical`, `warning`, `unknown`, `output` and
    `perfData`.
  - Its methods update those fields in place, with the loops of the source.
  - Each method is proved to leave exactly the state that the matching
    function of `Devices`, `Drives` or `Report` describes.

An uncaught Python exception is an explicit outcome: an `Effect` pairs the
state reached with the exception raised, if any. Whatever the code changed
before raising stays changed.

## Model

| member | source | states |
|---|---|---|
| Bits.Binary | check_infortrend.py:1115-1120 | `bin(n)[2:]` is a non-empty string of binary digits, and it starts with '1' when n > 0 (no padding) |
| Bits.ParseBinary | check_infortrend.py:1107-1113 | on strings without whitespace, `int('0b'+s, 2)` raises ValueError exactly when s is empty or holds a non-binary digit, and otherwise gives the value of the digits |
| Bits.BinaryRoundTrip | check_infortrend.py:1107-1120 | `_convertBinarytoInteger` inverts `_convertIntegerToBinaryAndFormat` for every n |
| Bits.BinaryLength | check_infortrend.py:1115-1120 | the unpadded binary of n > 0 has length L with 2^(L-1) <= n < 2^L |
| Bits.LongerThan | check_infortrend.py:1115-1120 | the binary string of n > 0 is longer than k exactly when n >= 2^k |
| Bits.PrefixIsShift | check_infortrend.py:1115-1120 | dropping the last l characters of `bin(n)[2:]` gives the binary of n shifted right by l bits |
| Bits.SuffixIsModulus | check_infortrend.py:1107-1113 | the last m characters of a binary string are worth its value modulo 2^m |
| Bits.BinaryBelow | check_infortrend.py:1107-1113 | a binary string of length L is worth less than 2^L |
| Bits.BitFromEnd | check_infortrend.py:270-275 | `binary[-k] == '1'` exactly when bit k of n is set; the IndexError happens exactly when n < 2^(k-1), where the bit is clear, so swallowing it reads as "not set" |
| Bits.SliceField | check_infortrend.py:284-298 | `int('0b' + binary[-high:-low], 2)` raises ValueError exactly when n < 2^low, and otherwise is the bit field of n between bits low+1 and high |
| Bits.SliceValue | check_infortrend.py:285 | once the binary string is longer than low, the slice is non-empty, binary, and worth the field |
| PyStr.Split | check_infortrend.py:121 | `str.split` yields at least one piece |
| PyStr.SplitPieces | check_infortrend.py:119 | `split(sep)` gives one more piece than there are separators, and no piece holds the separator |
| PyStr.JoinSplit | check_infortrend.py:119 | joining the pieces of a split with the separator gives the original string back |
| PyStr.SplitJoin | check_infortrend.py:121 | splitting a join of separator-free pieces gives the pieces back |
| PyStr.Strip | check_infortrend.py:132 | `strip(cs)` leaves no character of cs at either end |
| PyStr.StripPadded | check_infortrend.py:132 | stripping padding made of cs off a core that does not start or end with cs gives the core |
| PyStr.StripEdgeless | check_infortrend.py:132 | stripping a string that does not start or end with cs changes nothing |
| PyStr.ParseInt | check_infortrend.py:129 | `int(value)` fails only with ValueError |
| PyStr.ParseIntRoundTrip | check_infortrend.py:129 | `int()` reads back what `str()` wrote, whatever whitespace surrounds it |
| PyStr.IntToStringChars | check_infortrend.py:567-568 | `str(n)` holds only a minus sign and decimal digits |
| PyStr.IntToStringEdges | check_infortrend.py:567-568 | `str(n)` starts and ends without whitespace |
| Snmp.ParseItems | check_infortrend.py:119-135 | on success there is one value per line, after the values already collected |
| Snmp.ParseSnmpOutput | check_infortrend.py:112-143 | the loop over the output lines returns exactly `ParseOutput`: the first failing line's error, the first value for `snmpget`, or the whole list |
| Snmp.ParseItemsSucceeds | check_infortrend.py:119-135 | the parse succeeds exactly when every line parses |
| Snmp.ParseItemsValues | check_infortrend.py:119-135 | on success, value j is the parse of line j |
| Snmp.ParseItemsFirstError | check_infortrend.py:119-135 | on failure, the error is that of a line before which every line parses |
| Snmp.WalkPerLine | check_infortrend.py:119-135 | a walk yields Count('\n') + 1 values, value j being the parse of line j |
| Snmp.GetIsFirstLine | check_infortrend.py:137-138 | a get returns the value of the first line, and succeeds only when the whole walk would |
| Snmp.PassThrough | check_infortrend.py:120-126 | a line that does not split into exactly two parts on ':' comes back verbatim as a string |
| Snmp.TwoFields | check_infortrend.py:121 | a line with exactly one colon splits into its style and its value |
| Snmp.IntegerItem | check_infortrend.py:128-129 | an `INTEGER` line yields `int(value)` or its ValueError |
| Snmp.StringItem | check_infortrend.py:130-132 | a `STRING` line yields its value stripped of whitespace, then quotes, then whitespace |
| Snmp.OtherItem | check_infortrend.py:133-135 | a line of any other style keeps its raw value text |
| Snmp.IntegerLine | check_infortrend.py:128-129 | `INTEGER: <n>` as net-snmp prints it parses to the integer n |
| Snmp.Unquote | check_infortrend.py:132 | the whitespace/quote/whitespace cleaning undoes the quoting net-snmp adds around a string |
| Snmp.StringLine | check_infortrend.py:130-132 | `STRING: "<s>"` parses to s for any s without a colon, edge whitespace or edge quotes |
| Classifiers.Grading | check_infortrend.py:287-295 | the `if numeral ==` chain picks a grade for exactly the numerals it lists |
| Classifiers.GradingFirst | check_infortrend.py:287-295 | the `if`/`elif` chain takes the first arm whose numeral matches |
| Classifiers.ApplyMatchesReference | check_infortrend.py:270-298 | one `try` block reads the same off the binary string as off the integer status |
| Classifiers.RunMatchesReference | check_infortrend.py:270-311 | a classifier's string-based checks, with their IndexError and ValueError behaviour, agree with bit arithmetic on the status word for every status > 0 |
| Classifiers.RunExtends | check_infortrend.py:270-311 | the checks only append fragments and raise counters, and nothing runs after an exception |
| Classifiers.RunTally | check_infortrend.py:270-311 | a run is the tally of each counter, the transcript of fragments and, if some slice is empty, the ValueError of the first such slice |
| Classifiers.ApplyReferenceSteps | check_infortrend.py:270-298 | a check that does not raise adds its contribution to each counter and its fragments to the line |
| Classifiers.BitContribution | check_infortrend.py:270-275 | a single-bit check never raises and counts its bit under its own severity |
| Classifiers.NumeralContribution | check_infortrend.py:284-298 | a numeral check raises exactly below its slice, and otherwise counts the grade of the field |
| Classifiers.TallyStep | check_infortrend.py:270-311 | the tallies and the raising test advance one check at a time |
| Classifiers.ChecksOf | check_infortrend.py:250-316 | every classifier's table addresses valid bit positions and slices |
| Classifiers.ClassifyTally | check_infortrend.py:258-314 | a classifier on a non-zero status yields the tally, transcript and exception of its table |
| Classifiers.NumeralFields | check_infortrend.py:285 | `binary[-4:-2]` is `(status >> 2) & 3` and `binary[-4:-1]` is `(status >> 1) & 7` |
| Classifiers.BatteryGrading | check_infortrend.py:287-295 | battery and UPS numeral 1 warns; 2 and 3 are critical |
| Classifiers.TempGrading | check_infortrend.py:803-820 | temperature numeral 2 or 3 warns; 4 or 5 is critical |
| Classifiers.VoltageGrading | check_infortrend.py:931-947 | voltage numeral 2 or 3 warns; 4 or 5 is critical |
| Classifiers.CurrentGrading | check_infortrend.py:344-354 | current numeral 3 warns; 5 is critical; nothing else counts |
| Classifiers.PowerSupplyCounts | check_infortrend.py:624-657 | power supply: bits 1 and 8 critical, bit 7 warning, never raises |
| Classifiers.FanCounts | check_infortrend.py:471-504 | fan: bits 1 and 8 critical, bit 7 warning, never raises |
| Classifiers.SpeakerCounts | check_infortrend.py:668-701 | speaker: bits 1 and 8 critical, bit 7 warning, never raises |
| Classifiers.DoorCounts | check_infortrend.py:381-422 | door: bits 1 and 8 critical, bits 2 and 7 warning, never raises |
| Classifiers.SlotCounts | check_infortrend.py:712-759 | slot: bit 1 critical; bits 2, 3 and 8 warning; bit 7 text only; never raises |
| Classifiers.BatteryCounts | check_infortrend.py:258-314 | battery raises ValueError exactly for status < 4, after bits 1 (critical) and 2 (warning) were counted; otherwise numeral 1 warns, 2 or 3 is critical, bit 8 is critical, bit 7 is text only |
| Classifiers.UpsCounts | check_infortrend.py:846-902 | UPS raises exactly for status < 4 after bits 1 and 2 (both critical) were counted; otherwise the battery numeral grading plus bit 7 warning and bit 8 critical |
| Classifiers.TempSensorCounts | check_infortrend.py:784-836 | temperature raises exactly for status < 2 after bit 1 was counted; otherwise numeral 2-3 warns, 4-5 critical, bit 7 warns, bit 8 critical |
| Classifiers.VoltageSensorCounts | check_infortrend.py:912-965 | voltage as temperature: raises exactly for status < 2, numeral 2-3 warns, 4-5 critical, bit 7 warns, bit 8 critical |
| Classifiers.CurrentSensorCounts | check_infortrend.py:325-370 | current raises exactly for status < 2; otherwise numeral 3 warns, 5 is critical, bit 7 warns, bit 8 critical |
| Perf.PerfLine | check_infortrend.py:466-469 | a perfdata entry starts with the quoted description followed by '=' |
| Perf.PerfLineFields | check_infortrend.py:466-469 | an entry splits on ';' back into the quoted description with `str(value)`, and the four thresholds |
| Perf.FanRpm | check_infortrend.py:466-469 | `fanSpeeds[sensorValue]` succeeds exactly on the table keys, with the table's RPM, and raises KeyError otherwise |
| Perf.FanPerf | check_infortrend.py:466-469 | the fan entry is the table RPM with thresholds 6000;7000;0;8000, or KeyError off the table |
| Perf.Celsius | check_infortrend.py:772 | `sensorValue / 2**17 - 274` floors: the reading lies in the 2^17-wide band of the returned degree |
| Perf.FanTableKeys | check_infortrend.py:448-456 | the table has exactly its eight codes, 0 is not one of them, and every RPM lies in 4000..5800 |
| Perf.FanTableOrdered | check_infortrend.py:448-456 | the codes step by 65536 from 12292 and the RPM never falls as the code rises |
| Perf.CelsiusOfBand | check_infortrend.py:772 | any reading within a degree's band reads back as that degree |
| Report.VerdictPrecedence | check_infortrend.py:1134-1141 | CRITICAL iff critical > 0; WARNING iff no critical and some warning; UNKNOWN iff only unknown; OK iff all zero; exit code 2 iff critical, 0 iff all zero |
| Report.VerdictMonotone | check_infortrend.py:1134-1141 | larger counters never give a milder verdict |
| Report.VerdictIgnoresText | check_infortrend.py:1134-1141 | the verdict depends on the counters alone |
| Report.BodyStep | check_infortrend.py:1145-1146 | one more output line adds `' ' + line + ' '` to the body |
| Report.PerfBodyStep | check_infortrend.py:1151-1152 | one more perfdata entry adds `entry + ' '` |
| Report.BodyConcat | check_infortrend.py:1145-1146 | the body of two runs of lines is the concatenation of their bodies |
| Report.BodyLineAt | check_infortrend.py:1145-1146 | each output line stands in the body, padded by a space on both sides, after the lines before it |
| Report.RenderLineAt | check_infortrend.py:1143-1155 | each output line stands in the printed text after `STATUS:` and the earlier lines, padded by spaces |
| Report.RenderPerfPart | check_infortrend.py:1149-1155 | the text is `STATUS:` and the body, followed by `'| '` and the perfdata exactly when there is perfdata |
| Report.RenderInitial | check_infortrend.py:190-194 | a fresh plugin prints `OK:` and exits 0 |
| Devices.Settle | check_infortrend.py:258-314 | the counters grow by what the checks counted; the line is appended only when no check raised |
| Devices.DeviceAt | check_infortrend.py:1009-1011 | the lookups succeed exactly for a mapped type code and lists long enough; otherwise KeyError for the code, then IndexError |
| Devices.StepAt | check_infortrend.py:1009-1011 | a failed lookup raises with the state untouched; a call that does not raise had a mapped code and long enough lists |
| Devices.LineShape | check_infortrend.py:314 | `' '.join(outputLine)` is `description:` followed by each fragment after one space |
| Devices.JoinSpaced | check_infortrend.py:314 | joining with spaces puts one space before every part after the first |
| Devices.QuietDevice | check_infortrend.py:258 | status 0 leaves counters and output alone; only fan and temperature add their perfdata entry |
| Devices.DeviceCounts | check_infortrend.py:258-314 | a non-zero status adds the tallies to the counters and appends exactly one line `description:` plus fragments, unless a numeral slice is empty: then ValueError, counters grown, no line |
| Devices.DevicePerfData | check_infortrend.py:466-469 | fan and temperature append exactly one perfdata entry whatever the status; a fan code off the table raises KeyError with nothing changed |
| Devices.MalfunctionIsCritical | check_infortrend.py:270-275 | bit 1 of any status makes every classifier count at least one critical |
| Devices.DeviceTypeCodes | check_infortrend.py:978-989 | the map knows the eleven codes 1-6, 8-11 and 17; codes 3 and 8 both select the temperature check |
| Devices.TemperatureCodes | check_infortrend.py:978-989 | only codes 3 and 8 select the temperature check |
| Devices.DispatchExtends | check_infortrend.py:1009-1011 | dispatch only appends output and perfdata and raises counters; the unknown counter never changes |
| Devices.StepExtends | check_infortrend.py:1010-1011 | one classifier call only appends and raises counters |
| Devices.DispatchKnownTypes | check_infortrend.py:1009-1011 | a dispatch that raises nothing saw only mapped type codes |
| Devices.DispatchListsLongEnough | check_infortrend.py:1009-1011 | a dispatch that raises nothing had description, status and value lists at least as long as the type list |
| Devices.UnmappedType | check_infortrend.py:1010 | an unmapped type code stops the dispatch with KeyError before its own lists are read |
| Drives.AsInt | check_infortrend.py:610 | `int(status)` is the identity on integers and fails only with ValueError |
| Drives.LdStep | check_infortrend.py:605-613 | a logical drive raises exactly when its status does not read under `int()`, and then nothing changes |
| Drives.CodeTablesDisjoint | check_infortrend.py:547-598 | no code is both critical and a warning, for drives or for logical drives |
| Drives.GoodDriveCodes | check_infortrend.py:538-545 | the codes listed as good (1, 2, 3, 9, 18, 128-143) are in neither drive table |
| Drives.FailedDrive | check_infortrend.py:566-573 | drive code 255 adds one critical and three lines: `Drive <i+1>: Failed Drive`, the model and the serial number |
| Drives.HddIgnoresStrings | check_infortrend.py:566-575 | a drive status that came back as a string is never flagged |
| Drives.HddStepCounts | check_infortrend.py:566-578 | one drive adds one critical or one warning by its code and appends exactly its lines: `Drive <i+1>: <msg>`, then the model and serial lines for code 255 |
| Drives.HddCounts | check_infortrend.py:562-578 | `__checkHddStatus` counts one critical per critical code and one warning per warning code, and appends the lines of every drive in drive order after the lines already there |
| Drives.LdStringNeverCritical | check_infortrend.py:605-608 | a logical-drive status given as a string never counts as critical |
| Drives.LdCriticalCodeAsString | check_infortrend.py:605-613 | a critical code written as a string reads back under `int()` but changes nothing |
| Drives.LdStringStatus | check_infortrend.py:610-613 | a string that does not read under `int()` raises ValueError with nothing changed; one that reads as a warning code counts as that warning |
| Drives.LdCounts | check_infortrend.py:600-613 | when every status reads under `int()`, the loop completes, with one critical per integer critical code, one warning per warning code, and the `Logical Drive <i+1>: <msg>` lines in drive order after the lines already there |
| Drives.LdStepCounts | check_infortrend.py:605-611 | a logical drive whose status reads under `int()` raises nothing and adds one critical for an integer critical code and one warning for a value that reads as a warning code |
| Drives.LdStepLines | check_infortrend.py:605-613 | a logical drive whose status reads under `int()` appends exactly its own line, if any |
| Drives.LdRunOutput | check_infortrend.py:600-613 | the loop appends the lines of the logical drives in drive order |
| Drives.LdRaises | check_infortrend.py:600-613 | a loop that raises nothing had only statuses that read under `int()` |
| Drives.LdRaisesValueError | check_infortrend.py:600-613 | the only exception `__checkLdStatus` raises is ValueError |
| Infortrend.CheckInfortrend.constructor | check_infortrend.py:190-194 | counters at zero, no output, no perfdata |
| Infortrend.CheckInfortrend.CheckBits | check_infortrend.py:258-314 | the shared classifier body leaves exactly the state `BitfieldStep` describes, and the exception if any |
| Infortrend.CheckInfortrend.CheckBattery | check_infortrend.py:250-316 | `__checkBattery` updates the object exactly as `DeviceStep` for a battery |
| Infortrend.CheckInfortrend.CheckCurrentSensor | check_infortrend.py:318-372 | `__checkCurrentSensor` updates the object exactly as `DeviceStep` for a current sensor |
| Infortrend.CheckInfortrend.CheckDoor | check_infortrend.py:374-424 | `__checkDoor` updates the object exactly as `DeviceStep` for a door |
| Infortrend.CheckInfortrend.CheckFan | check_infortrend.py:426-506 | `__checkFan` updates the object exactly as `DeviceStep` for a fan, with KeyError before anything is appended |
| Infortrend.CheckInfortrend.CheckPowerSupply | check_infortrend.py:617-659 | `__checkPowerSupply` updates the object exactly as `DeviceStep` for a power supply |
| Infortrend.CheckInfortrend.CheckSpeaker | check_infortrend.py:661-703 | `__checkSpeaker` updates the object exactly as `DeviceStep` for a speaker |
| Infortrend.CheckInfortrend.CheckSlotStates | check_infortrend.py:705-761 | `__checkSlotStates` updates the object exactly as `DeviceStep` for a slot |
| Infortrend.CheckInfortrend.CheckTempSensor | check_infortrend.py:763-838 | `__checkTempSensor` updates the object exactly as `DeviceStep` for a temperature sensor, with the perfdata entry first |
| Infortrend.CheckInfortrend.CheckUps | check_infortrend.py:840-904 | `__checkUPS` updates the object exactly as `DeviceStep` for a UPS |
| Infortrend.CheckInfortrend.CheckVoltageSensor | check_infortrend.py:906-967 | `__checkVoltageSensor` updates the object exactly as `DeviceStep` for a voltage sensor |
| Infortrend.CheckInfortrend.CheckDevice | check_infortrend.py:1010-1011 | the classifier the type code selected, called on the device |
| Infortrend.CheckInfortrend.CheckDeviceStatus | check_infortrend.py:1009-1012 | the dispatch loop leaves exactly the state and exception of `Dispatch` |
| Infortrend.CheckInfortrend.CheckHddModelSerialNumber | check_infortrend.py:523-526 | appends `model:<model>` then `serial number:<serial>` and changes nothing else |
| Infortrend.CheckInfortrend.CheckHddStatus | check_infortrend.py:562-578 | the drive loop leaves exactly the state of `HddRun` |
| Infortrend.CheckInfortrend.CheckLdStatus | check_infortrend.py:600-613 | the logical-drive loop leaves exactly the state and exception of `LdRun` |
| Infortrend.CheckInfortrend.CheckLogicalDrive | check_infortrend.py:605-613 | one turn of the logical-drive loop is exactly `LdStep` |
| Infortrend.CheckInfortrend.ParsePrintExit | check_infortrend.py:1134-1155 | the chain and the two loops build exactly `Render` of the object's state, and the exit code is that of `VerdictOf` |

## Behaviour worth noting

- An empty numeral slice makes `int('0b', 2)` raise ValueError. Only
  IndexError is caught, so the classifier stops without appending its line
  and the dispatch loop ends. This happens for battery and UPS status 1 to 3,
  and for temperature, voltage and current status 1. Counters already raised
  by that classifier stay raised.
- An unmapped device-type code (KeyError), a description, status or value
  list shorter than the type list (IndexError), and a fan value outside the
  speed table (KeyError) each end the run with an uncaught exception.
- Nothing ever increments the unknown counter, so the verdict is never
  UNKNOWN.
- The logical-drive off-line code is 64.
- `checkDriveStatus` runs `__checkLdStatus` before `__checkHddStatus`, and
  `checkAll` runs the drive checks before `checkDeviceStatus` and
  `parsePrintExit`. A ValueError from a logical-drive status that `int()`
  cannot read therefore skips the drive loop, the device dispatch and the
  status line.

## Left out

- `Snmp.query`: it runs a subprocess and reads its pipe.
- `__which`: it depends on the filesystem.
- `__query` and `checkModelFirmware`: they fetch values and append them.
  The values they fetch are parameters of the modelled operations.
- `checkDriveStatus`: its three count lines are not modelled. Nor is the
  order in which it runs the modelled checks: `__checkLdStatus` first, then
  `__checkHddStatus`.
- `checkAll`: the order in which it runs the checks is not modelled. It runs
  `autoDetect`, `checkModelFirmware`, `checkDriveStatus`,
  `checkDeviceStatus` and then `parsePrintExit`.
- `autoDetect`: its base-OID probe is not modelled. Nor is its exit with
  CRITICAL when no base OID answers.
- The two SNMP gets of `__checkHddModelSerialNumber`: model and serial are
  the parameters `models(i)`/`serials(i)` (or `model`/`serial`).
- `sigalarm_handler`, the alarm timeout and the `optparse` entry point:
  these are process-level I/O.
- `print`, `sys.exit` and `eval(status)`: `ParsePrintExit` returns the text
  and the exit code instead.
- The `verbose > 1` debug prints. The fan's debug print repeats the same
  table lookup, so it would raise the same KeyError at the same point.
- Negative status words: statuses are `nat`, since `bin(-n)[2:]` is not a
  binary string.
- The device lists of `checkDeviceStatus` are typed: descriptions are
  strings, and type codes, statuses and values are integers. An exception
  from a mistyped entry is not modelled: a TypeError, or a KeyError for a
  string type code or fan value. Drive statuses are `SnmpValue`,
  since `__checkLdStatus` converts them with `int()`.
- Bits.ParseBinary: Python's `int('0b' + s, 2)` also accepts trailing
  whitespace after the digits. This is not modelled, because every slice
  the classifiers pass comes from `bin(n)[2:]` and holds none.
- `PyStr.ParseInt`: `int()` is modelled on optional whitespace, an
  optional sign and decimal digits. Anything else is ValueError. Python's
  full `int()` grammar is not modelled.
- `PyStr.Strip`: `str.strip()` with no argument strips the ASCII whitespace
  set. Unicode whitespace is not modelled.
- `PyStr.Split`: only the separator form `split(c)` with one character is
  modelled. That is the only form the parser uses.
- `Snmp.ParseSnmpOutput`: `snmpget` on empty output would raise IndexError
  at `finalOutput[0]`. This cannot happen, because `split` always yields at
  least one line.
