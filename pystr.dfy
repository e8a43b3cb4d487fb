/** The Python string built-ins the modelled code relies on: `split` and
    `join` on one character, `strip`, `str` of an integer and `int` of a
    string. */
module PyStr {
  import opened Wrappers
  import opened Numerals

  /** `s.split(sep)` for a one-character separator. */
  function Split(s: string, sep: char): (parts: seq<string>)
    ensures |parts| >= 1
    decreases |s|
  {
    if s == [] then [[]]
    else
      var rest := Split(s[1..], sep);
      if s[0] == sep then [[]] + rest
      else [[s[0]] + rest[0]] + rest[1..]
  }

  /** `sep.join(parts)` for a one-character separator. */
  function Join(parts: seq<string>, sep: char): string
  {
    if parts == [] then []
    else if |parts| == 1 then parts[0]
    else parts[0] + [sep] + Join(parts[1..], sep)
  }

  function Count(s: string, c: char): nat
  {
    if s == [] then 0 else (if s[0] == c then 1 else 0) + Count(s[1..], c)
  }

  /** Splitting yields one more piece than there are separators, and no piece
      holds a separator. */
  lemma {:induction false} SplitPieces(s: string, sep: char)
    ensures |Split(s, sep)| == Count(s, sep) + 1
    ensures forall i :: 0 <= i < |Split(s, sep)| ==> sep !in Split(s, sep)[i]
    decreases |s|
  {
    if s != [] {
      SplitPieces(s[1..], sep);
    }
  }

  lemma JoinCons(x: char, p: string, r: seq<string>, sep: char)
    ensures Join([[x] + p] + r, sep) == [x] + Join([p] + r, sep)
  {
    if r != [] {
      assert ([[x] + p] + r)[1..] == r;
      assert ([p] + r)[1..] == r;
    }
  }

  /** Joining the pieces of a split gives back the original string. */
  lemma {:induction false} JoinSplit(s: string, sep: char)
    ensures Join(Split(s, sep), sep) == s
    decreases |s|
  {
    if s != [] {
      var rest := Split(s[1..], sep);
      JoinSplit(s[1..], sep);
      if s[0] == sep {
        assert ([[]] + rest)[1..] == rest;
      } else {
        assert rest == [rest[0]] + rest[1..];
        JoinCons(s[0], rest[0], rest[1..], sep);
      }
    }
  }

  lemma {:induction false} SplitAfterPiece(p: string, r: string, sep: char)
    requires sep !in p
    ensures Split(p + [sep] + r, sep) == [p] + Split(r, sep)
    decreases |p|
  {
    if p != [] {
      assert (p + [sep] + r)[1..] == p[1..] + [sep] + r;
      SplitAfterPiece(p[1..], r, sep);
      assert [p[0]] + p[1..] == p;
    } else {
      assert (p + [sep] + r)[1..] == r;
    }
  }

  lemma {:induction false} SplitNoSeparator(p: string, sep: char)
    requires sep !in p
    ensures Split(p, sep) == [p]
    decreases |p|
  {
    if p != [] {
      SplitNoSeparator(p[1..], sep);
      assert [p[0]] + p[1..] == p;
    }
  }

  /** Splitting a join of separator-free pieces gives back the pieces. */
  lemma {:induction false} SplitJoin(parts: seq<string>, sep: char)
    requires |parts| >= 1
    requires forall i :: 0 <= i < |parts| ==> sep !in parts[i]
    ensures Split(Join(parts, sep), sep) == parts
    decreases |parts|
  {
    if |parts| == 1 {
      SplitNoSeparator(parts[0], sep);
    } else {
      SplitJoin(parts[1..], sep);
      SplitAfterPiece(parts[0], Join(parts[1..], sep), sep);
      assert [parts[0]] + parts[1..] == parts;
    }
  }

  /** The characters Python 2's `str.strip()` and `int()` treat as whitespace. */
  const Whitespace: set<char> := {' ', '\t', '\n', '\r', 11 as char, 12 as char}

  predicate AllIn(s: string, cs: set<char>) {
    forall i :: 0 <= i < |s| ==> s[i] in cs
  }

  /** Neither end of s is a character of cs. */
  predicate Edgeless(s: string, cs: set<char>) {
    s == [] || (s[0] !in cs && s[|s| - 1] !in cs)
  }

  function TrimLeft(s: string, cs: set<char>): (r: string)
    ensures |r| <= |s| && r == s[|s| - |r|..]
    ensures AllIn(s[..|s| - |r|], cs)
    ensures r == [] || r[0] !in cs
    decreases |s|
  {
    if s != [] && s[0] in cs then
      var r := TrimLeft(s[1..], cs);
      assert s[..|s| - |r|] == [s[0]] + s[1..][..|s| - 1 - |r|];
      r
    else s
  }

  function TrimRight(s: string, cs: set<char>): (r: string)
    ensures |r| <= |s| && r == s[..|r|]
    ensures AllIn(s[|r|..], cs)
    ensures r == [] || r[|r| - 1] !in cs
    decreases |s|
  {
    if s != [] && s[|s| - 1] in cs then
      var r := TrimRight(s[..|s| - 1], cs);
      assert s[|r|..] == s[..|s| - 1][|r|..] + [s[|s| - 1]];
      r
    else s
  }

  /** `s.strip(chars)`: removes every leading and trailing character of cs. */
  function Strip(s: string, cs: set<char>): (r: string)
    ensures Edgeless(r, cs)
  {
    var l := TrimLeft(s, cs);
    var r := TrimRight(l, cs);
    assert r != [] ==> r[0] == l[0];
    r
  }

  lemma {:induction false} TrimLeftPadded(pre: string, core: string, cs: set<char>)
    requires AllIn(pre, cs) && (core == [] || core[0] !in cs)
    ensures TrimLeft(pre + core, cs) == core
    decreases |pre|
  {
    if pre != [] {
      assert (pre + core)[1..] == pre[1..] + core;
      TrimLeftPadded(pre[1..], core, cs);
    }
  }

  lemma {:induction false} TrimRightPadded(core: string, post: string, cs: set<char>)
    requires AllIn(post, cs) && (core == [] || core[|core| - 1] !in cs)
    ensures TrimRight(core + post, cs) == core
    decreases |post|
  {
    if post != [] {
      assert (core + post)[..|core + post| - 1] == core + post[..|post| - 1];
      TrimRightPadded(core, post[..|post| - 1], cs);
    }
  }

  /** Stripping undoes any padding made of the stripped characters. */
  lemma StripPadded(pre: string, core: string, post: string, cs: set<char>)
    requires AllIn(pre, cs) && AllIn(post, cs) && Edgeless(core, cs)
    ensures Strip(pre + core + post, cs) == core
  {
    if core == [] {
      assert pre + core + post == pre + post;
      TrimLeftPadded(pre + post, [], cs);
    } else {
      assert pre + core + post == pre + (core + post);
      TrimLeftPadded(pre, core + post, cs);
      TrimRightPadded(core, post, cs);
    }
  }

  /** Stripping leaves a string that has nothing to strip unchanged. */
  lemma StripEdgeless(s: string, cs: set<char>)
    requires Edgeless(s, cs)
    ensures Strip(s, cs) == s
  {
    if s != [] {
      assert TrimLeft(s, cs) == s;
      assert TrimRight(s, cs) == s;
    }
  }

  /** `str(n)` for an integer. */
  function IntToString(n: int): (r: string)
  {
    if n < 0 then "-" + ToDigits(-n, 10) else ToDigits(n, 10)
  }

  /** `int(s)`, restricted to optional whitespace, an optional sign and
      decimal digits; anything else raises ValueError. */
  function ParseInt(s: string): (r: Result<int, PyError>)
    ensures r.Failure? ==> r.error == ValueError
  {
    ParseDecimal(Strip(s, Whitespace))
  }

  /** An optional sign and at least one decimal digit. */
  function ParseDecimal(t: string): (r: Result<int, PyError>)
    ensures r.Failure? ==> r.error == ValueError
  {
    if t != [] && (t[0] == '-' || t[0] == '+') then
      var ds := t[1..];
      if ds != [] && AllDigits(ds, 10) then
        var v: int := FromDigits(ds, 10);
        Success(if t[0] == '-' then -v else v)
      else Failure(ValueError)
    else if t != [] && AllDigits(t, 10) then Success(FromDigits(t, 10))
    else Failure(ValueError)
  }

  /** `str(n)` starts with a sign or a digit and ends with a digit. */
  lemma IntToStringEdges(n: int)
    ensures Edgeless(IntToString(n), Whitespace)
  {
    var s := IntToString(n);
    var ds := ToDigits(if n < 0 then -n else n, 10);
    assert IsDigit(ds[0], 10) && IsDigit(ds[|ds| - 1], 10);
    assert s[|s| - 1] == ds[|ds| - 1];
    assert s[0] == '-' || s[0] == ds[0];
  }

  /** `str(n)` holds only a minus sign and decimal digits. */
  lemma IntToStringChars(n: int)
    ensures forall c :: c in IntToString(n) ==> c == '-' || IsDigit(c, 10)
  {
    var d := IntToString(n);
    assert forall i :: 0 <= i < |d| ==> d[i] == '-' || IsDigit(d[i], 10);
  }

  lemma DecimalRoundTrip(n: int)
    ensures ParseDecimal(IntToString(n)) == Success(n)
  {
    var s := IntToString(n);
    if n < 0 {
      var ds := ToDigits(-n, 10);
      FromToDigits(-n, 10);
      assert s[1..] == ds;
      assert IsDigit(ds[0], 10);
    } else {
      FromToDigits(n, 10);
      assert IsDigit(s[0], 10);
    }
  }

  /** `int` reads back what `str` wrote, whatever whitespace surrounds it. */
  lemma ParseIntRoundTrip(pre: string, n: int, post: string)
    requires AllIn(pre, Whitespace) && AllIn(post, Whitespace)
    ensures ParseInt(pre + IntToString(n) + post) == Success(n)
  {
    IntToStringEdges(n);
    StripPadded(pre, IntToString(n), post, Whitespace);
    DecimalRoundTrip(n);
  }
}
