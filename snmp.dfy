/** `Snmp._parseSnmpOutput`: turns the text printed by `snmpget`/`snmpwalk -O v`
    into typed values, one per line. */
module Snmp {
  import opened Wrappers
  import opened PyStr

  /** A parsed value: `int(...)` of an INTEGER line or a string. */
  datatype SnmpValue = IntValue(i: int) | StrValue(s: string)

  /** A `snmpget` yields its first value, anything else the whole list. */
  datatype QueryResult = Single(value: SnmpValue) | Many(values: seq<SnmpValue>)

  /** The set `strip('"')` removes. */
  const Quote: set<char> := {'"'}

  /** The handling of one output line: `style, value = item.split(':')`, with
      a line that does not split in exactly two kept whole. */
  function ParseItem(item: string): Result<SnmpValue, PyError>
  {
    var parts := Split(item, ':');
    if |parts| == 2 && parts[0] == "INTEGER" then
      match ParseInt(parts[1])
      case Success(n) => Success(IntValue(n))
      case Failure(e) => Failure(e)
    else if |parts| == 2 && parts[0] == "STRING" then
      Success(StrValue(Strip(Strip(Strip(parts[1], Whitespace), Quote), Whitespace)))
    else if |parts| == 2 then Success(StrValue(parts[1]))
    else Success(StrValue(item))
  }

  /** The values of lines, appended to acc in order; the first line whose
      parsing raises ends the whole parse with that error. */
  function ParseItems(lines: seq<string>, acc: seq<SnmpValue>): (r: Result<seq<SnmpValue>, PyError>)
    ensures r.Success? ==> |r.value| == |acc| + |lines| && r.value[..|acc|] == acc
    decreases |lines|
  {
    if lines == [] then Success(acc)
    else
      match ParseItem(lines[0])
      case Failure(e) => Failure(e)
      case Success(v) => ParseItems(lines[1..], acc + [v])
  }

  /** What `_parseSnmpOutput(snmpCmd, output)` returns or raises. */
  function ParseOutput(snmpCmd: string, output: string): Result<QueryResult, PyError>
  {
    var lines := Split(output, '\n');
    match ParseItems(lines, [])
    case Failure(e) => Failure(e)
    case Success(vs) =>
      if snmpCmd == "snmpget" then Success(Single(vs[0])) else Success(Many(vs))
  }

  /** `_parseSnmpOutput`: the loop over the output lines. */
  method ParseSnmpOutput(snmpCmd: string, output: string) returns (r: Result<QueryResult, PyError>)
    ensures r == ParseOutput(snmpCmd, output)
  {
    var lines := Split(output, '\n');
    var finalOutput: seq<SnmpValue> := [];
    var i := 0;
    while i < |lines|
      invariant 0 <= i <= |lines|
      invariant ParseItems(lines[i..], finalOutput) == ParseItems(lines, [])
    {
      assert lines[i..][1..] == lines[i + 1..];
      var item := ParseItem(lines[i]);
      if item.Failure? {
        return Failure(item.error);
      }
      finalOutput := finalOutput + [item.value];
      i := i + 1;
    }
    if snmpCmd == "snmpget" {
      r := Success(Single(finalOutput[0]));
    } else {
      r := Success(Many(finalOutput));
    }
  }

  /** The parse succeeds exactly when every line parses. */
  lemma {:induction false} ParseItemsSucceeds(lines: seq<string>, acc: seq<SnmpValue>)
    ensures ParseItems(lines, acc).Success? <==>
            forall j :: 0 <= j < |lines| ==> ParseItem(lines[j]).Success?
    decreases |lines|
  {
    if lines != [] {
      assert forall j :: 1 <= j < |lines| ==> lines[j] == lines[1..][j - 1];
      if ParseItem(lines[0]).Success? {
        ParseItemsSucceeds(lines[1..], acc + [ParseItem(lines[0]).value]);
      }
    }
  }

  /** On success there is one value per line, in order. */
  lemma {:induction false} ParseItemsValues(lines: seq<string>, acc: seq<SnmpValue>)
    requires ParseItems(lines, acc).Success?
    ensures forall j :: 0 <= j < |lines| ==>
              ParseItem(lines[j]) == Success(ParseItems(lines, acc).value[|acc| + j])
    decreases |lines|
  {
    if lines != [] {
      var first := ParseItem(lines[0]);
      assert first.Success?;
      var v := first.value;
      assert ParseItems(lines, acc) == ParseItems(lines[1..], acc + [v]);
      var vs := ParseItems(lines, acc).value;
      ParseItemsValues(lines[1..], acc + [v]);
      assert vs[..|acc| + 1] == acc + [v];
      assert vs[|acc|] == v;
      forall j | 0 <= j < |lines|
        ensures ParseItem(lines[j]) == Success(vs[|acc| + j])
      {
        if j == 0 {
          assert ParseItem(lines[0]) == Success(vs[|acc|]);
        } else {
          assert lines[j] == lines[1..][j - 1];
          assert |acc + [v]| + (j - 1) == |acc| + j;
        }
      }
    }
  }

  /** On failure the error is that of the first line that does not parse. */
  lemma {:induction false} ParseItemsFirstError(lines: seq<string>, acc: seq<SnmpValue>)
    requires ParseItems(lines, acc).Failure?
    ensures exists j :: 0 <= j < |lines| && ParseItem(lines[j]) == Failure(ParseItems(lines, acc).error) &&
                        forall k :: 0 <= k < j ==> ParseItem(lines[k]).Success?
    decreases |lines|
  {
    var e := ParseItems(lines, acc).error;
    if ParseItem(lines[0]).Failure? {
      assert ParseItem(lines[0]) == Failure(e);
    } else {
      var rest := lines[1..];
      ParseItemsFirstError(rest, acc + [ParseItem(lines[0]).value]);
      var j :| 0 <= j < |rest| && ParseItem(rest[j]) == Failure(e) &&
               forall k :: 0 <= k < j ==> ParseItem(rest[k]).Success?;
      assert lines[j + 1] == rest[j];
      assert forall k :: 1 <= k < j + 1 ==> lines[k] == rest[k - 1];
    }
  }

  /** A walk yields one value per `'\n'`-separated line, in order. */
  lemma WalkPerLine(output: string)
    requires ParseOutput("snmpwalk", output).Success?
    ensures |ParseOutput("snmpwalk", output).value.values| == Count(output, '\n') + 1
    ensures forall j :: 0 <= j < Count(output, '\n') + 1 ==>
      ParseItem(Split(output, '\n')[j]) == Success(ParseOutput("snmpwalk", output).value.values[j])
  {
    SplitPieces(output, '\n');
    ParseItemsValues(Split(output, '\n'), []);
  }

  /** A get returns the value of the first line, though a later line can
      still make the whole call raise. */
  lemma GetIsFirstLine(output: string)
    requires ParseOutput("snmpget", output).Success?
    ensures ParseItem(Split(output, '\n')[0]) == Success(ParseOutput("snmpget", output).value.value)
    ensures ParseOutput("snmpwalk", output).Success?
  {
    ParseItemsValues(Split(output, '\n'), []);
  }

  /** A line that does not split into exactly two parts on ':' passes through
      verbatim. */
  lemma PassThrough(item: string)
    requires Count(item, ':') != 1
    ensures ParseItem(item) == Success(StrValue(item))
  {
    SplitPieces(item, ':');
  }

  /** A line with one colon splits into its style and its value. */
  lemma TwoFields(style: string, v: string)
    requires ':' !in style && ':' !in v
    ensures Split(style + ":" + v, ':') == [style, v]
  {
    assert style + ":" + v == style + [':'] + v;
    SplitAfterPiece(style, v, ':');
    SplitNoSeparator(v, ':');
  }

  /** An INTEGER line is `int` of its value text. */
  lemma IntegerItem(item: string, v: string)
    requires Split(item, ':') == ["INTEGER", v]
    ensures ParseItem(item) ==
            match ParseInt(v) case Success(n) => Success(IntValue(n)) case Failure(e) => Failure(e)
  {
  }

  /** A STRING line is its value stripped of whitespace, quotes, whitespace. */
  lemma StringItem(item: string, v: string)
    requires Split(item, ':') == ["STRING", v]
    ensures ParseItem(item) == Success(StrValue(Strip(Strip(Strip(v, Whitespace), Quote), Whitespace)))
  {
  }

  /** A line of any other style keeps its raw value text. */
  lemma OtherItem(item: string, style: string, v: string)
    requires Split(item, ':') == [style, v] && style != "INTEGER" && style != "STRING"
    ensures ParseItem(item) == Success(StrValue(v))
  {
  }

  /** `INTEGER: <n>`, as net-snmp prints it, parses to n. */
  lemma IntegerLine(n: int)
    ensures ParseItem("INTEGER: " + IntToString(n)) == Success(IntValue(n))
  {
    var v := " " + IntToString(n);
    NumeralHasNoColon(n);
    assert "INTEGER: " + IntToString(n) == "INTEGER" + ":" + v;
    TwoFields("INTEGER", v);
    ParseIntRoundTrip(" ", n, "");
    assert " " + IntToString(n) + "" == v;
    IntegerItem("INTEGER: " + IntToString(n), v);
  }

  /** A printed integer, after the space net-snmp puts before it, holds no
      colon. */
  lemma NumeralHasNoColon(n: int)
    ensures ':' !in " " + IntToString(n)
  {
    IntToStringChars(n);
  }

  lemma StripSpaceBeforeQuotes(s: string)
    ensures Strip(" \"" + s + "\"", Whitespace) == "\"" + s + "\""
  {
    var q := "\"" + s + "\"";
    assert Edgeless(q, Whitespace);
    assert " " + q + "" == " \"" + s + "\"";
    StripPadded(" ", q, "", Whitespace);
  }

  lemma StripQuotes(s: string)
    requires Edgeless(s, Quote)
    ensures Strip("\"" + s + "\"", Quote) == s
  {
    StripPadded("\"", s, "\"", Quote);
  }

  /** The cleaning of a quoted value undoes the quoting. */
  lemma Unquote(s: string)
    requires Edgeless(s, Whitespace) && Edgeless(s, Quote)
    ensures Strip(Strip(Strip(" \"" + s + "\"", Whitespace), Quote), Whitespace) == s
  {
    StripSpaceBeforeQuotes(s);
    StripQuotes(s);
    StripEdgeless(s, Whitespace);
  }

  /** `STRING: "<s>"`, as net-snmp prints it, comes back as s when s has no
      colon and no surrounding whitespace or quotes. */
  lemma StringLine(s: string)
    requires ':' !in s && Edgeless(s, Whitespace) && Edgeless(s, Quote)
    ensures ParseItem("STRING: \"" + s + "\"") == Success(StrValue(s))
  {
    var v := " \"" + s + "\"";
    assert "STRING: \"" + s + "\"" == "STRING" + ":" + v;
    assert ':' !in v;
    TwoFields("STRING", v);
    StringItem("STRING: \"" + s + "\"", v);
    Unquote(s);
  }
}
