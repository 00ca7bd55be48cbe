/**
 * The Python string built-ins the simulator relies on, over `seq<char>`:
 * str.isspace, str.lower, str.strip, str.split(sep), str.split(),
 * str.splitlines, str.join, int(s, base) and str(n).
 */
module Text {
  import opened Wrappers

  /** The characters for which Python's str.isspace() holds; str.strip() and str.split() use them. */
  predicate IsSpace(c: char) {
    ('\t' <= c <= '\r') || ('\U{1C}' <= c <= ' ') || c == '\U{85}' || c == '\U{A0}' ||
    c == '\U{1680}' || ('\U{2000}' <= c <= '\U{200A}') || c == '\U{2028}' || c == '\U{2029}' ||
    c == '\U{202F}' || c == '\U{205F}' || c == '\U{3000}'
  }

  /** The line boundaries of Python's str.splitlines() ("\r\n" is two of them here). */
  predicate IsLineBreak(c: char) {
    ('\n' <= c <= '\r') || ('\U{1C}' <= c <= '\U{1E}') || c == '\U{85}' || c == '\U{2028}' || c == '\U{2029}'
  }

  predicate NoSpace(s: string) {
    forall i :: 0 <= i < |s| ==> !IsSpace(s[i])
  }

  predicate IsUpper(c: char) {
    'A' <= c <= 'Z'
  }

  /** No ASCII upper-case letter is left. */
  predicate IsLowerCase(s: string) {
    forall i :: 0 <= i < |s| ==> !IsUpper(s[i])
  }

  /** No leading and no trailing whitespace. */
  predicate IsTrimmed(s: string) {
    s != [] ==> !IsSpace(s[0]) && !IsSpace(s[|s| - 1])
  }

  function LowerChar(c: char): (d: char)
    ensures !IsUpper(d)
    ensures d == '#' <==> c == '#'
  {
    if IsUpper(c) then (c as int + 32) as char else c
  }

  /** str.lower(), for the ASCII letters. */
  function Lower(s: string): (r: string)
    ensures |r| == |s|
    ensures forall i :: 0 <= i < |s| ==> r[i] == LowerChar(s[i])
    ensures IsLowerCase(r)
  {
    if s == [] then [] else [LowerChar(s[0])] + Lower(s[1..])
  }

  lemma {:induction false} LowerOfLowerCase(s: string)
    requires IsLowerCase(s)
    ensures Lower(s) == s
  {
    if s != [] {
      LowerOfLowerCase(s[1..]);
      assert [s[0]] + s[1..] == s;
    }
  }

  /** str.lstrip() */
  function TrimStart(s: string): (r: string)
    ensures |r| <= |s| && r == s[|s| - |r|..]
    ensures forall i :: 0 <= i < |s| - |r| ==> IsSpace(s[i])
    ensures r != [] ==> !IsSpace(r[0])
  {
    if s != [] && IsSpace(s[0]) then TrimStart(s[1..]) else s
  }

  /** str.rstrip() */
  function TrimEnd(s: string): (r: string)
    ensures |r| <= |s| && r == s[..|r|]
    ensures forall i :: |r| <= i < |s| ==> IsSpace(s[i])
    ensures r != [] ==> !IsSpace(r[|r| - 1])
  {
    if s != [] && IsSpace(s[|s| - 1]) then TrimEnd(s[..|s| - 1]) else s
  }

  /** str.strip(): the longest slice of `s` that neither starts nor ends with whitespace. */
  function Strip(s: string): (r: string)
    ensures IsTrimmed(r)
    ensures |r| <= |s|
    ensures IsLowerCase(s) ==> IsLowerCase(r)
    ensures '#' !in s ==> '#' !in r
  {
    StripIsSlice(s);
    TrimEnd(TrimStart(s))
  }

  lemma StripIsSlice(s: string)
    ensures var t := TrimStart(s); TrimEnd(t) == s[|s| - |t|..][..|TrimEnd(t)|]
  {
  }

  /** sep.join(parts) */
  function JoinWith(parts: seq<string>, sep: string): string
  {
    if |parts| == 0 then ""
    else if |parts| == 1 then parts[0]
    else parts[0] + sep + JoinWith(parts[1..], sep)
  }

  /**
   * s.split(sep) for a one-character separator: the pieces between the
   * separators, so that joining them back with `sep` gives `s`.
   */
  function Split(s: string, sep: char): (r: seq<string>)
    ensures |r| >= 1
    ensures forall i :: 0 <= i < |r| ==> sep !in r[i]
    ensures |r| > 1 <==> sep in s
    ensures r[0] <= s && (|r| > 1 ==> s[|r[0]|] == sep)
    decreases |s|
  {
    if s == [] then [""]
    else
      var rest := Split(s[1..], sep);
      if s[0] == sep then [""] + rest
      else [[s[0]] + rest[0]] + rest[1..]
  }

  lemma {:induction false} SplitJoin(s: string, sep: char)
    ensures JoinWith(Split(s, sep), [sep]) == s
    decreases |s|
  {
    if s != [] {
      var rest := Split(s[1..], sep);
      SplitJoin(s[1..], sep);
      if s[0] == sep {
        assert ([""] + rest)[1..] == rest;
      } else if |rest| > 1 {
        var r := Split(s, sep);
        assert r[1..] == rest[1..];
        assert JoinWith(rest, [sep]) == rest[0] + [sep] + JoinWith(rest[1..], [sep]);
      }
    }
  }

  /** The length of the run of non-whitespace characters at the start of `s`. */
  function WordLength(s: string): (n: nat)
    ensures n <= |s|
    ensures forall i :: 0 <= i < n ==> !IsSpace(s[i])
    ensures n < |s| ==> IsSpace(s[n])
  {
    if s == [] || IsSpace(s[0]) then 0 else 1 + WordLength(s[1..])
  }

  /** s.split() with no argument: the maximal runs of non-whitespace characters, in order. */
  function SplitWs(s: string): (r: seq<string>)
    ensures forall i :: 0 <= i < |r| ==> r[i] != [] && NoSpace(r[i])
    decreases |s|
  {
    if s == [] then []
    else if IsSpace(s[0]) then SplitWs(s[1..])
    else
      var n := WordLength(s);
      [s[..n]] + SplitWs(s[n..])
  }

  lemma {:induction false} WordLengthOf(t: string, tail: string)
    requires NoSpace(t)
    requires tail == [] || IsSpace(tail[0])
    ensures WordLength(t + tail) == |t|
  {
    if t != [] {
      assert (t + tail)[1..] == t[1..] + tail;
      WordLengthOf(t[1..], tail);
    } else {
      assert t + tail == tail;
    }
  }

  lemma SplitWsWord(t: string, tail: string)
    requires t != [] && NoSpace(t)
    requires tail == [] || IsSpace(tail[0])
    ensures SplitWs(t + tail) == [t] + SplitWs(tail)
  {
    WordLengthOf(t, tail);
    assert (t + tail)[..|t|] == t;
    assert (t + tail)[|t|..] == tail;
  }

  /** Splitting on whitespace undoes joining words with single spaces. */
  lemma {:induction false} SplitWsJoin(words: seq<string>)
    requires forall i :: 0 <= i < |words| ==> words[i] != [] && NoSpace(words[i])
    ensures SplitWs(JoinWith(words, " ")) == words
  {
    if |words| == 1 {
      SplitWsWord(words[0], "");
      assert words[0] + "" == words[0];
    } else if |words| > 1 {
      var rest := JoinWith(words[1..], " ");
      SplitWsJoin(words[1..]);
      assert JoinWith(words, " ") == words[0] + (" " + rest);
      SplitWsWord(words[0], " " + rest);
      assert (" " + rest)[1..] == rest;
    }
  }

  /** s.splitlines(), except that "\r\n", the empty text and a final line break each yield an extra empty piece. */
  function SplitLines(s: string): (r: seq<string>)
    ensures |r| >= 1
    ensures forall i :: 0 <= i < |r| ==> forall j :: 0 <= j < |r[i]| ==> !IsLineBreak(r[i][j])
    decreases |s|
  {
    if s == [] then [""]
    else
      var rest := SplitLines(s[1..]);
      if IsLineBreak(s[0]) then [""] + rest
      else [[s[0]] + rest[0]] + rest[1..]
  }

  predicate NoLineBreak(s: string) {
    forall i :: 0 <= i < |s| ==> !IsLineBreak(s[i])
  }

  /** A string without line boundaries is a single line. */
  lemma {:induction false} SplitLinesSingle(line: string)
    requires NoLineBreak(line)
    ensures SplitLines(line) == [line]
    decreases |line|
  {
    if line != [] {
      SplitLinesSingle(line[1..]);
      assert [line[0]] + line[1..] == line;
    }
  }

  /** A line followed by a boundary is split off as the first piece. */
  lemma {:induction false} SplitLinesCons(line: string, c: char, rest: string)
    requires NoLineBreak(line) && IsLineBreak(c)
    ensures SplitLines(line + [c] + rest) == [line] + SplitLines(rest)
    decreases |line|
  {
    if line == [] {
      assert line + [c] + rest == [c] + rest;
      assert ([c] + rest)[1..] == rest;
    } else {
      SplitLinesCons(line[1..], c, rest);
      assert (line + [c] + rest)[1..] == line[1..] + [c] + rest;
      assert [line[0]] + line[1..] == line;
    }
  }

  predicate IsDigitIn(c: char, base: nat) {
    '0' <= c && (c as int) - ('0' as int) < base
  }

  predicate AllDigitsIn(s: string, base: nat) {
    forall i :: 0 <= i < |s| ==> IsDigitIn(s[i], base)
  }

  /** The value of a string of digits in the given base, most significant first. */
  function DigitsValue(s: string, base: nat): nat
    requires AllDigitsIn(s, base)
    decreases |s|
  {
    if s == [] then 0
    else DigitsValue(s[..|s| - 1], base) * base + ((s[|s| - 1] as int) - ('0' as int))
  }

  /**
   * int(s, base) for base 2 or 10, on the tokens the assembler passes it:
   * an optional sign followed by at least one digit of the base, or nothing.
   */
  function ParseInt(s: string, base: nat): Option<int>
    requires base == 2 || base == 10
  {
    if s != [] && (s[0] == '+' || s[0] == '-') then
      var digits := s[1..];
      if digits != [] && AllDigitsIn(digits, base) then
        var magnitude: int := DigitsValue(digits, base);
        Some(if s[0] == '-' then -magnitude else magnitude)
      else None
    else if s != [] && AllDigitsIn(s, base) then Some(DigitsValue(s, base))
    else None
  }

  lemma {:induction false} BinaryDigitsValue(s: string)
    requires AllDigitsIn(s, 2)
    ensures AllDigitsIn(s, 10)
    ensures DigitsValue(s, 2) <= DigitsValue(s, 10)
    decreases |s|
  {
    if s != [] {
      BinaryDigitsValue(s[..|s| - 1]);
    }
  }

  /**
   * Every numeral int(s, 2) accepts is also accepted by int(s), so when both
   * are tried in that order the base-2 reading always wins. The base-10
   * reading is never smaller in magnitude: at least as large without a minus
   * sign, at most as large with one.
   */
  lemma BinaryNumeralIsDecimalNumeral(s: string)
    requires ParseInt(s, 2).Some?
    ensures ParseInt(s, 10).Some?
    ensures s != [] && s[0] != '-' ==> ParseInt(s, 2).value <= ParseInt(s, 10).value
    ensures s != [] && s[0] == '-' ==> ParseInt(s, 10).value <= ParseInt(s, 2).value
  {
    if s[0] == '+' || s[0] == '-' {
      BinaryDigitsValue(s[1..]);
    } else {
      BinaryDigitsValue(s);
    }
  }

  function DigitChar(d: nat): (c: char)
    requires d < 10
    ensures IsDigitIn(c, 10) && (c as int) - ('0' as int) == d
  {
    ('0' as int + d) as char
  }

  /** str(n) for n >= 0 */
  function NatToString(n: nat): (s: string)
    ensures s != [] && AllDigitsIn(s, 10)
    decreases n
  {
    if n < 10 then [DigitChar(n)] else NatToString(n / 10) + [DigitChar(n % 10)]
  }

  /** str(n) */
  function IntToString(n: int): (s: string)
    ensures s != [] && NoSpace(s)
    ensures forall i :: 0 <= i < |s| ==> s[i] == '-' || IsDigitIn(s[i], 10)
    ensures s[0] == '-' <==> n < 0
  {
    if n < 0 then "-" + NatToString(-n) else NatToString(n)
  }

  lemma {:induction false} NatToStringValue(n: nat)
    ensures DigitsValue(NatToString(n), 10) == n
    decreases n
  {
    if n >= 10 {
      NatToStringValue(n / 10);
      var s := NatToString(n);
      assert s[..|s| - 1] == NatToString(n / 10);
    }
  }

  /** int(str(n)) == n */
  lemma DecimalRoundTrip(n: int)
    ensures ParseInt(IntToString(n), 10) == Some(n)
  {
    if n < 0 {
      NatToStringValue(-n);
      assert IntToString(n)[1..] == NatToString(-n);
    } else {
      NatToStringValue(n);
    }
  }
}
