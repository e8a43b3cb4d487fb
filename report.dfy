/** What CheckInfortrend accumulates (`self.state`, `self.output`,
    `self.perfData`) and how `parsePrintExit` folds it into one Nagios
    verdict, an exit code and the text it prints. */
module Report {
  import opened Wrappers

  /** The plugin's state: the three counters of `self.state`, the output
      lines and the performance data. */
  datatype State = State(critical: nat, warning: nat, unknown: nat, output: seq<string>, perfData: seq<string>)

  /** A state reached by an operation, with the exception it raised, if any.
      Whatever was changed before the exception stays changed. */
  datatype Effect = Effect(state: State, raised: Option<PyError>)

  const Initial: State := State(0, 0, 0, [], [])

  /** The Nagios verdicts, named as the plugin's exit-code constants. */
  datatype Verdict = OK | WARNING | CRITICAL | UNKNOWN

  /** The `if`/`elif` chain of `parsePrintExit`. */
  function VerdictOf(s: State): Verdict
  {
    if s.critical > 0 then CRITICAL
    else if s.warning > 0 then WARNING
    else if s.unknown > 0 then UNKNOWN
    else OK
  }

  /** `sys.exit(eval(status))`: the module constants UNKNOWN = 3,
      CRITICAL = 2, WARNING = 1, OK = 0. */
  function ExitCode(v: Verdict): nat
  {
    match v
    case OK => 0
    case WARNING => 1
    case CRITICAL => 2
    case UNKNOWN => 3
  }

  function StatusName(v: Verdict): string
  {
    match v
    case OK => "OK"
    case WARNING => "WARNING"
    case CRITICAL => "CRITICAL"
    case UNKNOWN => "UNKNOWN"
  }

  /** `finalLine += ' ' + line + ' '` over the output lines. */
  function Body(lines: seq<string>): string
  {
    if lines == [] then ""
    else Body(lines[..|lines| - 1]) + " " + lines[|lines| - 1] + " "
  }

  /** `finalLine += line + ' '` over the perfdata entries. */
  function PerfBody(entries: seq<string>): string
  {
    if entries == [] then ""
    else PerfBody(entries[..|entries| - 1]) + entries[|entries| - 1] + " "
  }

  /** The text `parsePrintExit` prints: `'{status}:{output}'`, where the
      perfdata part is added only when there is some. */
  function Render(s: State): string
  {
    StatusName(VerdictOf(s)) + ":" + (Body(s.output) + PerfPart(s.perfData))
  }

  /** The perfdata part of the text: nothing when there is no perfdata. */
  function PerfPart(entries: seq<string>): string
  {
    if entries == [] then "" else "| " + PerfBody(entries)
  }

  /** How bad a verdict is, in the order the chain tests the counters. */
  function Rank(v: Verdict): nat
  {
    match v
    case OK => 0
    case UNKNOWN => 1
    case WARNING => 2
    case CRITICAL => 3
  }

  // ---------------------------------------------------------------------

  /** Critical wins over warning, warning over unknown, and OK needs all
      three counters at zero; the exit codes are 2, 1, 3 and 0. */
  lemma VerdictPrecedence(s: State)
    ensures VerdictOf(s) == CRITICAL <==> s.critical > 0
    ensures VerdictOf(s) == WARNING <==> s.critical == 0 && s.warning > 0
    ensures VerdictOf(s) == UNKNOWN <==> s.critical == 0 && s.warning == 0 && s.unknown > 0
    ensures VerdictOf(s) == OK <==> s.critical == 0 && s.warning == 0 && s.unknown == 0
    ensures ExitCode(VerdictOf(s)) == 2 <==> s.critical > 0
    ensures ExitCode(VerdictOf(s)) == 0 <==> s.critical == 0 && s.warning == 0 && s.unknown == 0
  {
  }

  /** More problems never give a milder verdict. */
  lemma VerdictMonotone(s: State, t: State)
    requires s.critical <= t.critical && s.warning <= t.warning && s.unknown <= t.unknown
    ensures Rank(VerdictOf(s)) <= Rank(VerdictOf(t))
  {
  }

  /** The verdict depends on the counters alone. */
  lemma VerdictIgnoresText(s: State, output: seq<string>, perfData: seq<string>)
    ensures VerdictOf(s.(output := output, perfData := perfData)) == VerdictOf(s)
  {
  }

  /** One more turn of the loop that builds the body. */
  lemma BodyStep(lines: seq<string>, i: nat)
    requires i < |lines|
    ensures Body(lines[..i + 1]) == Body(lines[..i]) + " " + lines[i] + " "
  {
    assert lines[..i + 1][..i] == lines[..i];
  }

  lemma PerfBodyStep(entries: seq<string>, i: nat)
    requires i < |entries|
    ensures PerfBody(entries[..i + 1]) == PerfBody(entries[..i]) + entries[i] + " "
  {
    assert entries[..i + 1][..i] == entries[..i];
  }

  lemma {:induction false} BodyConcat(a: seq<string>, b: seq<string>)
    ensures Body(a + b) == Body(a) + Body(b)
    decreases |b|
  {
    if b == [] {
      assert a + b == a;
    } else {
      var b' := b[..|b| - 1];
      assert (a + b)[..|a + b| - 1] == a + b';
      BodyConcat(a, b');
    }
  }

  /** Inside the body, each line follows the lines before it, padded by a
      space on both sides. */
  lemma BodyLineAt(lines: seq<string>, i: nat)
    requires i < |lines|
    ensures var at := |Body(lines[..i])| + 1;
      at + |lines[i]| + 1 <= |Body(lines)| &&
      Body(lines)[at - 1] == ' ' &&
      Body(lines)[at..at + |lines[i]|] == lines[i] &&
      Body(lines)[at + |lines[i]|] == ' '
  {
    assert lines == lines[..i] + [lines[i]] + lines[i + 1..];
    BodyConcat(lines[..i] + [lines[i]], lines[i + 1..]);
    BodyConcat(lines[..i], [lines[i]]);
    assert Body([lines[i]]) == " " + lines[i] + " " by {
      assert [lines[i]][..0] == [];
    }
    assert Body(lines) == Body(lines[..i]) + (" " + lines[i] + " ") + Body(lines[i + 1..]);
    Padded(Body(lines[..i]), lines[i], Body(lines[i + 1..]));
  }

  /** A word between two spaces, inside a longer string. */
  lemma Padded(pre: string, word: string, post: string)
    ensures var x, at := pre + (" " + word + " ") + post, |pre| + 1;
      at + |word| + 1 <= |x| && x[at - 1] == ' ' && x[at..at + |word|] == word && x[at + |word|] == ' '
  {
    var mid := " " + word + " ";
    var x := pre + mid + post;
    assert x[|pre|..|pre| + |mid|] == mid;
    assert mid[1..1 + |word|] == word;
  }

  /** Each output line stands in the printed text, padded by a space on both
      sides, after the lines before it. */
  lemma RenderLineAt(s: State, i: nat)
    requires i < |s.output|
    ensures var at := |StatusName(VerdictOf(s))| + 1 + |Body(s.output[..i])| + 1;
      at + |s.output[i]| + 1 <= |Render(s)| &&
      Render(s)[at - 1] == ' ' &&
      Render(s)[at..at + |s.output[i]|] == s.output[i] &&
      Render(s)[at + |s.output[i]|] == ' '
  {
    BodyLineAt(s.output, i);
    PaddedInfix(StatusName(VerdictOf(s)) + ":", Body(s.output), PerfPart(s.perfData), |Body(s.output[..i])|, s.output[i]);
  }

  /** A padded word in the middle part of a concatenation. */
  lemma PaddedInfix(head: string, body: string, tail: string, p: nat, word: string)
    requires p + |word| + 2 <= |body|
    requires body[p] == ' ' && body[p + 1..p + 1 + |word|] == word && body[p + 1 + |word|] == ' '
    ensures var x, at := head + (body + tail), |head| + p + 1;
      at + |word| + 1 <= |x| && x[at - 1] == ' ' && x[at..at + |word|] == word && x[at + |word|] == ' '
  {
    var x, at := head + (body + tail), |head| + p + 1;
    assert x[at..at + |word|] == body[p + 1..p + 1 + |word|];
  }

  /** The perfdata separator is there exactly when there is perfdata. */
  lemma RenderPerfPart(s: State)
    ensures var n := |StatusName(VerdictOf(s))| + 1 + |Body(s.output)|;
      n <= |Render(s)| &&
      Render(s)[..n] == StatusName(VerdictOf(s)) + ":" + Body(s.output) &&
      (s.perfData == [] <==> |Render(s)| == n) &&
      (s.perfData != [] ==> Render(s)[n..] == "| " + PerfBody(s.perfData))
  {
  }

  /** String concatenation regrouped: the loops of `parsePrintExit` build
      the text from the left, `Render` groups the body with the perfdata. */
  lemma Associative(a: string, b: string, c: string)
    ensures a + (b + c) == (a + b) + c
  {
  }

  /** A fresh plugin reports `OK:` and exits 0. */
  lemma RenderInitial()
    ensures Render(Initial) == "OK:" && ExitCode(VerdictOf(Initial)) == 0
  {
  }
}
