/**
 * Character classes and the few string operations of Python's `str` that the
 * benchmark script relies on: substring test (`in`), `split`, `join`, and the
 * decimal rendering of an integer by `"{}".format(n)`.
 */
module Text {
  import opened Wrappers

  /** ASCII decimal digit, the characters `\d` and `int()` accept in this model. */
  predicate IsDigit(c: char) {
    '0' <= c <= '9'
  }

  /** The ASCII characters that `\s` matches. */
  predicate IsSpace(c: char) {
    c == ' ' || c == '\t' || c == '\n' || c == '\r' || c == '\U{0B}' || c == '\U{0C}'
  }

  predicate AllDigits(s: string) {
    forall i :: 0 <= i < |s| ==> IsDigit(s[i])
  }

  predicate NoSpace(s: string) {
    forall i :: 0 <= i < |s| ==> !IsSpace(s[i])
  }

  /** The length of the longest all-digit prefix of `s`. */
  function DigitRun(s: string): (n: nat)
    ensures n <= |s| && AllDigits(s[..n])
    ensures n < |s| ==> !IsDigit(s[n])
  {
    if |s| == 0 || !IsDigit(s[0]) then 0
    else
      var n := 1 + DigitRun(s[1..]);
      assert s[..n] == [s[0]] + s[1..][..n - 1];
      n
  }

  function DigitValue(c: char): (d: nat)
    requires IsDigit(c)
    ensures d < 10
  {
    c as int - '0' as int
  }

  function DigitChar(d: nat): (c: char)
    requires d < 10
    ensures IsDigit(c) && DigitValue(c) == d
  {
    ('0' as int + d) as char
  }

  /** The value of a string of decimal digits, most significant first. */
  function NatValue(s: string): nat
    requires AllDigits(s)
  {
    if |s| == 0 then 0 else NatValue(s[..|s| - 1]) * 10 + DigitValue(s[|s| - 1])
  }

  /** `"{}".format(n)` for a natural number: its shortest decimal digits. */
  function NatToString(n: nat): (s: string)
    ensures |s| >= 1 && AllDigits(s)
    decreases n
  {
    if n < 10 then [DigitChar(n)] else NatToString(n / 10) + [DigitChar(n % 10)]
  }

  /** The digits read back as the number, and only zero is written with a leading `0`. */
  lemma {:induction false} NatToStringValue(n: nat)
    ensures NatValue(NatToString(n)) == n
    ensures NatToString(n)[0] == '0' ==> n == 0
    decreases n
  {
    if n >= 10 {
      var s := NatToString(n);
      NatToStringValue(n / 10);
      assert s[..|s| - 1] == NatToString(n / 10);
      assert s[0] == NatToString(n / 10)[0];
    }
  }

  /** `"{}".format(n)` for an integer: a minus sign before the digits of a negative one. */
  function IntToString(n: int): (s: string)
    ensures |s| >= 1 && ',' !in s && !IsSpace(s[0])
  {
    if n < 0 then "-" + NatToString(-n) else NatToString(n)
  }

  /** Reading back what `IntToString` writes: an optional minus sign, then digits. */
  function IntValue(s: string): Option<int> {
    if |s| > 0 && s[0] == '-' then
      if |s| > 1 && AllDigits(s[1..]) then Some(-(NatValue(s[1..]) as int)) else None
    else if |s| > 0 && AllDigits(s) then Some(NatValue(s) as int)
    else None
  }

  lemma IntToStringRoundTrip(n: int)
    ensures IntValue(IntToString(n)) == Some(n)
  {
    var d := if n < 0 then NatToString(-n) else NatToString(n);
    NatToStringValue(if n < 0 then -n else n);
    if n < 0 {
      assert IntToString(n) == "-" + d;
      NegativeValue(d);
    } else {
      assert IntToString(n) == d;
      DigitsValue(d);
    }
  }

  /** A minus sign before digits reads as the negated number. */
  lemma NegativeValue(d: string)
    requires |d| >= 1 && AllDigits(d)
    ensures IntValue("-" + d) == Some(-(NatValue(d) as int))
  {
    assert ("-" + d)[1..] == d;
  }

  /** Digits alone read as their number. */
  lemma DigitsValue(d: string)
    requires |d| >= 1 && AllDigits(d)
    ensures IntValue(d) == Some(NatValue(d) as int)
  {
    assert IsDigit(d[0]);
  }

  /** Distinct integers are rendered as distinct strings. */
  lemma IntToStringInjective(a: int, b: int)
    ensures IntToString(a) == IntToString(b) ==> a == b
  {
    IntToStringRoundTrip(a);
    IntToStringRoundTrip(b);
  }

  predicate StartsWith(s: string, prefix: string) {
    |prefix| <= |s| && s[..|prefix|] == prefix
  }

  /** Python's `pat in s`: `pat` occurs as a contiguous substring of `s`. */
  predicate Contains(s: string, pat: string)
    decreases |s|
  {
    StartsWith(s, pat) || (|s| > 0 && Contains(s[1..], pat))
  }

  /** `sep.join(parts)` for a one-character separator. */
  function Join(parts: seq<string>, sep: char): string {
    if |parts| == 0 then ""
    else if |parts| == 1 then parts[0]
    else parts[0] + [sep] + Join(parts[1..], sep)
  }

  /** `s.split(sep)` for a one-character separator: the maximal pieces between separators. */
  function Split(s: string, sep: char): (r: seq<string>)
    ensures |r| >= 1
    ensures forall i :: 0 <= i < |r| ==> sep !in r[i]
  {
    if |s| == 0 then [""]
    else
      var rest := Split(s[1..], sep);
      if s[0] == sep then [""] + rest else [[s[0]] + rest[0]] + rest[1..]
  }

  /** Splitting and joining again gives back the text. */
  lemma {:induction false} JoinSplit(s: string, sep: char)
    ensures Join(Split(s, sep), sep) == s
  {
    if |s| > 0 {
      JoinSplit(s[1..], sep);
      var rest := Split(s[1..], sep);
      if s[0] == sep {
        assert s == [sep] + s[1..];
      } else if |rest| == 1 {
        assert s == [s[0]] + s[1..];
      } else {
        assert Split(s, sep)[1..] == rest[1..];
        assert s == [s[0]] + s[1..];
      }
    }
  }

  /** Joining pieces that hold no separator and splitting again gives back the pieces. */
  lemma {:induction false} SplitJoin(parts: seq<string>, sep: char)
    requires |parts| >= 1
    requires forall i :: 0 <= i < |parts| ==> sep !in parts[i]
    ensures Split(Join(parts, sep), sep) == parts
  {
    if |parts| == 1 {
      SplitNoSep(parts[0], sep);
    } else {
      SplitJoin(parts[1..], sep);
      SplitPrefix(parts[0], Join(parts[1..], sep), sep);
      assert Join(parts, sep) == parts[0] + ([sep] + Join(parts[1..], sep));
      assert parts == [parts[0]] + parts[1..];
    }
  }

  lemma {:induction false} SplitNoSep(s: string, sep: char)
    requires sep !in s
    ensures Split(s, sep) == [s]
  {
    if |s| > 0 {
      SplitNoSep(s[1..], sep);
      assert s == [s[0]] + s[1..];
    }
  }

  lemma {:induction false} SplitPrefix(w: string, t: string, sep: char)
    requires sep !in w
    ensures Split(w + ([sep] + t), sep) == [w] + Split(t, sep)
  {
    if |w| == 0 {
      assert w + ([sep] + t) == [sep] + t;
      assert ([sep] + t)[1..] == t;
    } else {
      SplitPrefix(w[1..], t, sep);
      assert (w + ([sep] + t))[1..] == w[1..] + ([sep] + t);
      assert w == [w[0]] + w[1..];
    }
  }

  /** The index of the first whitespace character of `s`, or `|s|`. */
  function WordEnd(s: string): (n: nat)
    ensures n <= |s| && NoSpace(s[..n])
    ensures n < |s| ==> IsSpace(s[n])
  {
    if |s| == 0 || IsSpace(s[0]) then 0
    else
      var n := 1 + WordEnd(s[1..]);
      assert s[..n] == [s[0]] + s[1..][..n - 1];
      n
  }

  /** Python's `s.split()`: the maximal runs of non-whitespace characters, in order. */
  function Words(s: string): (r: seq<string>)
    ensures forall i :: 0 <= i < |r| ==> |r[i]| > 0 && NoSpace(r[i])
    decreases |s|
  {
    if |s| == 0 then []
    else if IsSpace(s[0]) then Words(s[1..])
    else
      var n := WordEnd(s);
      [s[..n]] + Words(s[n..])
  }

  /** The length of the longest all-whitespace prefix of `s`. */
  function SpaceRun(s: string): (n: nat)
    ensures n <= |s|
    ensures forall i :: 0 <= i < n ==> IsSpace(s[i])
    ensures n < |s| ==> !IsSpace(s[n])
  {
    if |s| == 0 || !IsSpace(s[0]) then 0 else 1 + SpaceRun(s[1..])
  }

  /** A word followed by whitespace (or nothing) ends where the word does. */
  lemma {:induction false} WordEndOfWord(w: string, rest: string)
    requires NoSpace(w) && (rest == [] || IsSpace(rest[0]))
    ensures WordEnd(w + rest) == |w|
  {
    if |w| > 0 {
      assert (w + rest)[0] == w[0];
      assert (w + rest)[1..] == w[1..] + rest;
      WordEndOfWord(w[1..], rest);
    } else {
      assert w + rest == rest;
    }
  }

  lemma WordsOfWord(w: string, rest: string)
    requires |w| > 0 && NoSpace(w) && (rest == [] || IsSpace(rest[0]))
    ensures Words(w + rest) == [w] + Words(rest)
  {
    var s := w + rest;
    WordEndOfWord(w, rest);
    assert s[0] == w[0];
    assert s[..|w|] == w && s[|w|..] == rest;
  }

  /** The words written out, each after one space. */
  function SpaceJoin(ws: seq<string>): (s: string)
    ensures |ws| > 0 ==> |s| > 0 && s[0] == ' '
  {
    if |ws| == 0 then "" else " " + ws[0] + SpaceJoin(ws[1..])
  }

  /** Splitting words written out with spaces gives back the words. */
  lemma {:induction false} WordsOfSpaceJoin(ws: seq<string>)
    requires forall i :: 0 <= i < |ws| ==> |ws[i]| > 0 && NoSpace(ws[i])
    ensures Words(SpaceJoin(ws)) == ws
  {
    if |ws| > 0 {
      WordsOfSpaceJoin(ws[1..]);
      var s := SpaceJoin(ws);
      assert s[1..] == ws[0] + SpaceJoin(ws[1..]);
      WordsOfWord(ws[0], SpaceJoin(ws[1..]));
    }
  }
}
