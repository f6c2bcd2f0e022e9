/** Text helpers shared by the Python and JavaScript parts of the system:
    Python's whitespace and `str.strip()`, `str.split(sep)` with a one-character
    separator and its inverse `sep.join(parts)`, and decimal printing (`str(n)`). */
module Text {

  /** Python's `str.isspace()` for the code points below U+0100: TAB, LF, VT,
      FF, CR, the four separators U+001C..U+001F, SPACE, NEL and NBSP. */
  predicate IsSpace(c: char) {
    ('\t' <= c <= '\r') || ('\U{1c}' <= c <= '\U{1f}') || c == ' ' || c == '\U{85}' || c == '\U{a0}'
  }

  /** `s.lstrip()`: drops the leading whitespace of `s`. */
  function TrimStart(s: string): (r: string)
    ensures |r| <= |s| && r == s[|s| - |r|..]
    ensures r != [] ==> !IsSpace(r[0])
    ensures forall i :: 0 <= i < |s| - |r| ==> IsSpace(s[i])
  {
    if s != [] && IsSpace(s[0]) then TrimStart(s[1..]) else s
  }

  /** `s.rstrip()`: drops the trailing whitespace of `s`. */
  function TrimEnd(s: string): (r: string)
    ensures |r| <= |s| && r == s[..|r|]
    ensures r != [] ==> !IsSpace(r[|r| - 1])
    ensures forall i :: |r| <= i < |s| ==> IsSpace(s[i])
  {
    if s != [] && IsSpace(s[|s| - 1]) then TrimEnd(s[..|s| - 1]) else s
  }

  /** `s.strip()`: what is left of `s` once whitespace is dropped at both ends. */
  function Strip(s: string): (r: string)
    ensures r != [] ==> !IsSpace(r[0]) && !IsSpace(r[|r| - 1])
  {
    TrimEnd(TrimStart(s))
  }

  /** Stripping keeps the text between surrounding whitespace: padding any text
      that has no whitespace at its ends gives that text back. */
  lemma {:induction false} StripPadded(pre: string, t: string, post: string)
    requires forall i :: 0 <= i < |pre| ==> IsSpace(pre[i])
    requires forall i :: 0 <= i < |post| ==> IsSpace(post[i])
    requires t != [] && !IsSpace(t[0]) && !IsSpace(t[|t| - 1])
    ensures Strip(pre + t + post) == t
  {
    TrimStartPadded(pre, t + post);
    assert pre + t + post == pre + (t + post);
    TrimEndPadded(t, post);
  }

  lemma {:induction false} TrimStartPadded(pre: string, t: string)
    requires forall i :: 0 <= i < |pre| ==> IsSpace(pre[i])
    requires t != [] && !IsSpace(t[0])
    ensures TrimStart(pre + t) == t
  {
    if pre != [] {
      assert (pre + t)[1..] == pre[1..] + t;
      TrimStartPadded(pre[1..], t);
    }
  }

  lemma {:induction false} TrimEndPadded(t: string, post: string)
    requires forall i :: 0 <= i < |post| ==> IsSpace(post[i])
    requires t != [] && !IsSpace(t[|t| - 1])
    ensures TrimEnd(t + post) == t
  {
    if post != [] {
      var n := |post|;
      assert (t + post)[..|t + post| - 1] == t + post[..n - 1];
      TrimEndPadded(t, post[..n - 1]);
    } else {
      assert t + post == t;
    }
  }

  /** `s.split(sep)` for a one-character separator: the maximal runs of `s`
      between separators, so an empty text gives `[""]` and two adjacent
      separators give an empty part between them. */
  function Split(s: string, sep: char): (parts: seq<string>)
    ensures |parts| >= 1
    ensures forall k :: 0 <= k < |parts| ==> sep !in parts[k]
  {
    if s == [] then [""]
    else
      var rest := Split(s[1..], sep);
      if s[0] == sep then [""] + rest else [[s[0]] + rest[0]] + rest[1..]
  }

  /** `sep.join(parts)` for a non-empty list of parts. */
  function Join(parts: seq<string>, sep: char): string
    requires |parts| >= 1
  {
    if |parts| == 1 then parts[0] else parts[0] + [sep] + Join(parts[1..], sep)
  }

  /** Joining the parts of a split gives the original text back. */
  lemma {:induction false} JoinSplit(s: string, sep: char)
    ensures Join(Split(s, sep), sep) == s
  {
    if s != [] {
      var rest := Split(s[1..], sep);
      JoinSplit(s[1..], sep);
      if s[0] == sep {
        assert ([""] + rest)[1..] == rest;
      } else {
        var parts := [[s[0]] + rest[0]] + rest[1..];
        assert parts[1..] == rest[1..];
        if |rest| > 1 {
          assert rest == [rest[0]] + rest[1..];
        }
      }
    }
  }

  /** Splitting a join of separator-free parts gives the parts back, so the
      split is the only list of separator-free parts that joins to `s`. */
  lemma {:induction false} SplitJoin(parts: seq<string>, sep: char)
    requires |parts| >= 1
    requires forall k :: 0 <= k < |parts| ==> sep !in parts[k]
    ensures Split(Join(parts, sep), sep) == parts
  {
    if |parts| == 1 {
      SplitFree(parts[0], [], sep);
      assert parts[0] + [] == parts[0];
    } else {
      SplitJoin(parts[1..], sep);
      var tail := Join(parts[1..], sep);
      SplitFree(parts[0], [sep] + tail, sep);
      assert parts[0] + [sep] + tail == parts[0] + ([sep] + tail);
      assert ([sep] + tail)[1..] == tail;
      var r := Split([sep] + tail, sep);
      assert r == [""] + parts[1..];
      assert parts[0] + r[0] == parts[0];
      assert r[1..] == parts[1..];
      assert [parts[0]] + parts[1..] == parts;
    }
  }

  /** Splitting a separator-free prefix `p` onto `u` glues `p` to the first part. */
  lemma {:induction false} SplitFree(p: string, u: string, sep: char)
    requires sep !in p
    ensures Split(p + u, sep) == [p + Split(u, sep)[0]] + Split(u, sep)[1..]
  {
    if p == [] {
      assert p + u == u;
      var r := Split(u, sep);
      assert p + r[0] == r[0];
      assert [r[0]] + r[1..] == r;
    } else {
      assert (p + u)[1..] == p[1..] + u;
      SplitFree(p[1..], u, sep);
      assert [p[0]] + (p[1..] + Split(u, sep)[0]) == p + Split(u, sep)[0];
    }
  }

  /** The given lines, each followed by a line break. */
  function ConcatLines(lines: seq<string>): string {
    if lines == [] then "" else lines[0] + "\n" + ConcatLines(lines[1..])
  }

  lemma {:induction false} ConcatLinesAppend(lines: seq<string>, line: string)
    ensures ConcatLines(lines + [line]) == ConcatLines(lines) + line + "\n"
  {
    if lines != [] {
      assert (lines + [line])[1..] == lines[1..] + [line];
      ConcatLinesAppend(lines[1..], line);
      ConcatAssoc(lines[0] + "\n", ConcatLines(lines[1..]), line + "\n");
      ConcatAssoc(ConcatLines(lines[1..]), line, "\n");
      ConcatAssoc(lines[0] + "\n" + ConcatLines(lines[1..]), line, "\n");
    } else {
      assert [line][1..] == [];
    }
  }

  /** Text made of lines without line breaks splits at its line breaks into
      those lines, and an empty remainder after the last break. */
  lemma {:induction false} SplitConcatLines(lines: seq<string>)
    requires forall k :: 0 <= k < |lines| ==> '\n' !in lines[k]
    ensures Split(ConcatLines(lines), '\n') == lines + [""]
  {
    if lines != [] {
      var rest := ConcatLines(lines[1..]);
      SplitConcatLines(lines[1..]);
      SplitFree(lines[0], "\n" + rest, '\n');
      ConcatAssoc(lines[0], "\n", rest);
      assert ("\n" + rest)[1..] == rest;
      assert Split("\n" + rest, '\n') == [""] + Split(rest, '\n');
      assert lines[0] + "" == lines[0];
      assert [lines[0]] + (lines[1..] + [""]) == lines + [""];
    }
  }

  /** Regrouping a concatenation; called where the solver would otherwise
      unfold the operands to prove it. */
  lemma ConcatAssoc(a: string, b: string, c: string)
    ensures (a + b) + c == a + (b + c)
  {
  }

  /** The character of the decimal digit `d`. */
  function DigitChar(d: nat): (c: char)
    requires d < 10
    ensures '0' <= c <= '9' && c as int - '0' as int == d
  {
    ['0', '1', '2', '3', '4', '5', '6', '7', '8', '9'][d]
  }

  /** The value of a decimal digit character. */
  function DigitValue(c: char): (d: nat)
    requires '0' <= c <= '9'
    ensures d < 10 && DigitChar(d) == c
  {
    (c as int - '0' as int)
  }

  predicate IsDigit(c: char) {
    '0' <= c <= '9'
  }

  predicate AllDigits(s: string) {
    forall i :: 0 <= i < |s| ==> IsDigit(s[i])
  }

  /** `str(n)` for a natural number: its decimal digits, without leading zeros. */
  function NatToString(n: nat): (s: string)
    ensures s != [] && AllDigits(s)
    ensures n >= 10 ==> s[0] != '0'
    ensures n < 10 ==> |s| == 1
  {
    if n < 10 then [DigitChar(n)] else NatToString(n / 10) + [DigitChar(n % 10)]
  }

  /** `str(i)` for an integer: a minus sign in front of a negative number. */
  function IntToString(i: int): (s: string)
    ensures s != []
  {
    if i < 0 then "-" + NatToString(-i) else NatToString(i)
  }

  /** The value of a string of decimal digits, read most significant first. */
  function DigitsValue(s: string): nat
    requires AllDigits(s)
  {
    if s == [] then 0 else DigitsValue(s[..|s| - 1]) * 10 + DigitValue(s[|s| - 1])
  }

  /** Reading back the digits `str(n)` prints gives `n`. */
  lemma {:induction false} DigitsValueOfNatToString(n: nat)
    ensures DigitsValue(NatToString(n)) == n
  {
    var s := NatToString(n);
    if n >= 10 {
      DigitsValueOfNatToString(n / 10);
      assert s[..|s| - 1] == NatToString(n / 10);
      assert DigitValue(s[|s| - 1]) == n % 10;
    }
  }
}
