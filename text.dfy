/** String helpers that the news agent relies on: Python's `str.join`,
    `str.startswith`, the decimal rendering of an `int` inside an f-string,
    and a line splitter used to read a rendered result block back. */
module Text {

  /** `sep.join(parts)` in Python. */
  function Join(parts: seq<string>, sep: string): (s: string)
    ensures parts == [] ==> s == ""
    ensures |parts| == 1 ==> s == parts[0]
    ensures |parts| > 0 ==> StartsWith(s, parts[0])
  {
    if |parts| == 0 then ""
    else if |parts| == 1 then parts[0]
    else parts[0] + sep + Join(parts[1..], sep)
  }

  /** Appending one part to a non-empty list appends the separator and that
      part to the joined string: `join` is the left fold the source's loop
      builds up one paragraph at a time. */
  lemma {:induction false} JoinSnoc(parts: seq<string>, p: string, sep: string)
    requires parts != []
    ensures Join(parts + [p], sep) == Join(parts, sep) + sep + p
  {
    if |parts| == 1 {
      assert (parts + [p])[1..] == [p];
    } else {
      assert (parts + [p])[1..] == parts[1..] + [p];
      JoinSnoc(parts[1..], p, sep);
    }
  }

  /** A join of two or more parts is the first part, the separator and the
      join of the rest. */
  lemma JoinCons(parts: seq<string>, sep: string)
    requires |parts| > 1
    ensures Join(parts, sep) == parts[0] + (sep + Join(parts[1..], sep))
  {
    assert parts[0] + sep + Join(parts[1..], sep) == parts[0] + (sep + Join(parts[1..], sep));
  }

  /** A join ends in the character its last part ends in. */
  lemma {:induction false} JoinEndsWith(parts: seq<string>, sep: string, c: char)
    requires parts != [] && EndsWithChar(parts[|parts| - 1], c)
    ensures EndsWithChar(Join(parts, sep), c)
    decreases |parts|
  {
    if |parts| > 1 {
      assert parts[1..][|parts[1..]| - 1] == parts[|parts| - 1];
      JoinEndsWith(parts[1..], sep, c);
    }
  }

  /** `s.startswith(prefix)` in Python. */
  predicate StartsWith(s: string, prefix: string) {
    |prefix| <= |s| && s[..|prefix|] == prefix
  }

  /** The rest of `s` after `prefix`, when `s` starts with it. */
  function StripPrefix(s: string, prefix: string): (r: Option<string>)
    ensures r.Some? <==> StartsWith(s, prefix)
    ensures r.Some? ==> s == prefix + r.value
  {
    if StartsWith(s, prefix) then Some(s[|prefix|..]) else None
  }

  lemma StartsWithConcat(prefix: string, rest: string)
    ensures StartsWith(prefix + rest, prefix)
    ensures StripPrefix(prefix + rest, prefix) == Some(rest)
  {
    assert (prefix + rest)[..|prefix|] == prefix;
    assert (prefix + rest)[|prefix|..] == rest;
  }

  lemma StartsWithTrans(s: string, p: string, q: string)
    requires StartsWith(s, p) && StartsWith(p, q)
    ensures StartsWith(s, q)
  {
    assert s[..|q|] == s[..|p|][..|q|];
  }

  lemma StartsWithFirstChar(s: string, prefix: string)
    requires |prefix| > 0 && StartsWith(s, prefix)
    ensures |s| > 0 && s[0] == prefix[0]
  {
    assert s[..|prefix|][0] == s[0];
  }

  /** `s.endswith(c)` in Python, for one character. */
  predicate EndsWithChar(s: string, c: char) {
    |s| > 0 && s[|s| - 1] == c
  }

  /** Strings that differ in their first character do not start with each other. */
  lemma FirstCharRulesOut(s: string, prefix: string)
    requires |s| > 0 && |prefix| > 0 && s[0] != prefix[0]
    ensures !StartsWith(s, prefix)
  {
  }

  datatype Option<+T> = None | Some(value: T)

  predicate IsDigit(c: char) {
    '0' <= c <= '9'
  }

  function DigitChar(d: nat): (c: char)
    requires d < 10
    ensures IsDigit(c)
  {
    "0123456789"[d]
  }

  function DigitValue(c: char): (d: nat)
    requires IsDigit(c)
    ensures d < 10
  {
    (c as int - '0' as int) as nat
  }

  /** The decimal text of a natural number, as Python's `str(idx)`. */
  function NatToString(n: nat): (s: string)
    ensures |s| > 0
    ensures forall i :: 0 <= i < |s| ==> IsDigit(s[i])
    ensures n > 0 ==> s[0] != '0'
    decreases n
  {
    if n < 10 then [DigitChar(n)]
    else NatToString(n / 10) + [DigitChar(n % 10)]
  }

  /** The value of a string of decimal digits. */
  function DecimalValue(s: string): (n: nat)
    requires forall i :: 0 <= i < |s| ==> IsDigit(s[i])
  {
    if s == [] then 0
    else DecimalValue(s[..|s| - 1]) * 10 + DigitValue(s[|s| - 1])
  }

  /** Reading the rendered number back gives the number: distinct indices
      are rendered as distinct strings. */
  lemma {:induction false} DecimalRoundTrip(n: nat)
    ensures DecimalValue(NatToString(n)) == n
    decreases n
  {
    var s := NatToString(n);
    if n >= 10 {
      DecimalRoundTrip(n / 10);
      assert s[..|s| - 1] == NatToString(n / 10);
    }
  }

  lemma NatToStringInjective(m: nat, n: nat)
    ensures NatToString(m) == NatToString(n) <==> m == n
  {
    if NatToString(m) == NatToString(n) {
      DecimalRoundTrip(m);
      DecimalRoundTrip(n);
    }
  }

  /** Splitting on `'\n'`, as Python's `s.split("\n")`: a string ending in a
      newline yields a final empty line. */
  function Lines(s: string): (ls: seq<string>)
    ensures |ls| > 0
    decreases |s|
  {
    if |s| == 0 then [""]
    else if s[0] == '\n' then [""] + Lines(s[1..])
    else
      var rest := Lines(s[1..]);
      [[s[0]] + rest[0]] + rest[1..]
  }

  /** Lines, each followed by a newline. */
  function Unlines(ls: seq<string>): string {
    if ls == [] then "" else ls[0] + "\n" + Unlines(ls[1..])
  }

  /** Lines without newlines read back from their text, whatever follows. */
  lemma {:induction false} LinesUnlines(ls: seq<string>, rest: string)
    requires forall i :: 0 <= i < |ls| ==> '\n' !in ls[i]
    ensures Lines(Unlines(ls) + rest) == ls + Lines(rest)
    decreases |ls|
  {
    if ls == [] {
      assert Unlines(ls) + rest == rest;
    } else {
      var tail := Unlines(ls[1..]) + rest;
      UnlinesCons(ls, rest);
      LinesCons(ls[0], tail);
      NoNewlineTail(ls);
      LinesUnlines(ls[1..], rest);
      assert [ls[0]] + (ls[1..] + Lines(rest)) == ls + Lines(rest);
    }
  }

  lemma NoNewlineTail(ls: seq<string>)
    requires ls != []
    requires forall i :: 0 <= i < |ls| ==> '\n' !in ls[i]
    ensures forall i :: 0 <= i < |ls[1..]| ==> '\n' !in ls[1..][i]
  {
    forall i | 0 <= i < |ls[1..]| ensures '\n' !in ls[1..][i] {
      assert ls[1..][i] == ls[i + 1];
    }
  }

  lemma UnlinesCons(ls: seq<string>, rest: string)
    requires ls != []
    ensures Unlines(ls) + rest == ls[0] + "\n" + (Unlines(ls[1..]) + rest)
  {
  }

  /** The text of one or more lines ends in a newline. */
  lemma {:induction false} UnlinesEndsInNewline(ls: seq<string>)
    requires ls != []
    ensures EndsWithChar(Unlines(ls), '\n')
    decreases |ls|
  {
    if |ls| > 1 {
      UnlinesEndsInNewline(ls[1..]);
    } else {
      assert Unlines(ls) == ls[0] + "\n";
    }
  }

  /** The text of some lines starts with the first line. */
  lemma UnlinesStartsWith(ls: seq<string>)
    requires ls != []
    ensures StartsWith(Unlines(ls), ls[0])
  {
    assert Unlines(ls) == ls[0] + ("\n" + Unlines(ls[1..]));
    StartsWithConcat(ls[0], "\n" + Unlines(ls[1..]));
  }

  /** A line without a newline followed by a newline is split off as one
      line, whatever follows. */
  lemma {:induction false} LinesCons(line: string, rest: string)
    requires '\n' !in line
    ensures Lines(line + "\n" + rest) == [line] + Lines(rest)
    decreases |line|
  {
    if line == [] {
      assert line + "\n" + rest == "\n" + rest;
      assert ("\n" + rest)[1..] == rest;
    } else {
      var s := line + "\n" + rest;
      assert s[0] == line[0];
      assert s[1..] == line[1..] + "\n" + rest;
      LinesCons(line[1..], rest);
      assert [line[0]] + line[1..] == line;
    }
  }
}
