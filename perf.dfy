/** The performance data the fan and temperature classifiers append,
    whatever the status word: `'desc'=value;warn;crit;min;max`. */
module Perf {
  import opened Wrappers
  import opened PyStr
  import opened Numerals

  /** The fan-speed codes the array reports, each mapped to the top of the
      RPM band it stands for. */
  const FanSpeeds: map<int, nat> := map[
    12292 := 4000, 77828 := 4285, 143364 := 4570, 208900 := 4571,
    274436 := 4857, 339972 := 5428, 405508 := 5713, 471044 := 5800]

  /** `"'{0}'={1};{2};{3};{4};{5}".format(...)`. */
  function PerfLine(description: string, value: int, warn: string, crit: string, min: string, max: string): (r: string)
    ensures |r| > |description| + 2
    ensures r[..|description| + 3] == "'" + description + "'="
  {
    "'" + description + "'=" + IntToString(value) + ";" + warn + ";" + crit + ";" + min + ";" + max
  }

  /** `fanSpeeds[sensorValue]`, which raises KeyError off the table. */
  function FanRpm(sensorValue: int): (r: Result<nat, PyError>)
    ensures r.Success? <==> sensorValue in FanSpeeds
    ensures r.Success? ==> r.value == FanSpeeds[sensorValue]
    ensures r.Failure? ==> r.error == KeyError
  {
    if sensorValue in FanSpeeds then Success(FanSpeeds[sensorValue]) else Failure(KeyError)
  }

  /** The fan's perfdata entry, with thresholds 6000;7000;0;8000. */
  function FanPerf(description: string, sensorValue: int): (r: Result<string, PyError>)
    ensures r.Failure? <==> sensorValue !in FanSpeeds
    ensures r.Failure? ==> r.error == KeyError
    ensures r.Success? ==> r.value == PerfLine(description, FanSpeeds[sensorValue], "6000", "7000", "0", "8000")
  {
    match FanRpm(sensorValue)
    case Failure(e) => Failure(e)
    case Success(rpm) => Success(PerfLine(description, rpm, "6000", "7000", "0", "8000"))
  }

  /** `sensorValue / 2 ** 17 - 274`: Python 2 floors the division, which
      for a positive divisor is Dafny's `/` as well. */
  function Celsius(sensorValue: int): (t: int)
    ensures 131072 * (t + 274) <= sensorValue < 131072 * (t + 275)
  {
    sensorValue / 131072 - 274
  }

  /** The temperature's perfdata entry, with thresholds 70;80;0;100. */
  function TempPerf(description: string, sensorValue: int): string
  {
    PerfLine(description, Celsius(sensorValue), "70", "80", "0", "100")
  }

  /** An entry splits on ';' back into the quoted description with its
      value, and the four thresholds, when none of them holds a ';'. */
  lemma PerfLineFields(description: string, value: int, warn: string, crit: string, min: string, max: string)
    requires ';' !in description && ';' !in warn && ';' !in crit && ';' !in min && ';' !in max
    ensures Split(PerfLine(description, value, warn, crit, min, max), ';') ==
            ["'" + description + "'=" + IntToString(value), warn, crit, min, max]
  {
    var head := "'" + description + "'=" + IntToString(value);
    IntToStringChars(value);
    assert ';' !in head;
    assert PerfLine(description, value, warn, crit, min, max) ==
           head + [';'] + (warn + [';'] + (crit + [';'] + (min + [';'] + max)));
    SplitFive(head, warn, crit, min, max);
  }

  lemma SplitFive(a: string, b: string, c: string, d: string, e: string)
    requires ';' !in a && ';' !in b && ';' !in c && ';' !in d && ';' !in e
    ensures Split(a + [';'] + (b + [';'] + (c + [';'] + (d + [';'] + e))), ';') == [a, b, c, d, e]
  {
    SplitNoSeparator(e, ';');
    SplitAfterPiece(d, e, ';');
    SplitAfterPiece(c, d + [';'] + e, ';');
    SplitAfterPiece(b, c + [';'] + (d + [';'] + e), ';');
    SplitAfterPiece(a, b + [';'] + (c + [';'] + (d + [';'] + e)), ';');
  }

  /** The table has exactly its eight codes, and zero is not one of them. */
  lemma FanTableKeys()
    ensures FanSpeeds.Keys == {12292, 77828, 143364, 208900, 274436, 339972, 405508, 471044}
    ensures 0 !in FanSpeeds
    ensures forall v :: v in FanSpeeds ==> 4000 <= FanSpeeds[v] <= 5800
  {
  }

  /** The codes step by 65536 from 12292, and the RPM bands never fall as
      the code rises. */
  lemma FanTableOrdered(v: int, w: int)
    requires v in FanSpeeds && w in FanSpeeds && v <= w
    ensures FanSpeeds[v] <= FanSpeeds[w]
    ensures (v - 12292) % 65536 == 0
  {
  }

  /** The temperature read back from a reading taken at the start of a
      degree band is that degree. */
  lemma CelsiusOfBand(t: int, fraction: int)
    requires 0 <= fraction < 131072
    ensures Celsius(131072 * (t + 274) + fraction) == t
  {
    DivUnique(131072 * (t + 274) + fraction, 131072, t + 274, fraction);
  }
}
