/**
 * Python's `float(s)` on the strings the report regexes can capture: a run of
 * digits, optionally followed by one more character and a second run of digits.
 * Values are exact reals; IEEE rounding and overflow are not modelled.
 */
module PyFloat {
  import opened Wrappers
  import opened Text

  function Pow10(n: nat): (p: nat)
    ensures p >= 1
  {
    if n == 0 then 1 else 10 * Pow10(n - 1)
  }

  /** The value of the digits after a decimal point. */
  function Fraction(f: string): real
    requires AllDigits(f)
  {
    NatValue(f) as real / Pow10(|f|) as real
  }

  /**
   * `float(s)` for `s` of the shape digits, then optionally one character `c`
   * and digits. `c` may be a digit (all one number), `.` (a decimal point),
   * `e`/`E` (an exponent), `_` (a digit group separator) or, with nothing
   * after it, whitespace that `float` strips; any other `c` makes `float`
   * raise `ValueError`, modelled as `None`.
   */
  function Float(s: string): (r: Option<real>)
    ensures |s| > 0 && AllDigits(s) ==> r == Some(NatValue(s) as real)
    ensures r.Some? ==> 0.0 <= r.value
  {
    var n := DigitRun(s);
    if n == 0 then None
    else if n == |s| then Some(NatValue(s) as real)
    else
      var whole := NatValue(s[..n]) as real;
      var c, rest := s[n], s[n + 1..];
      if !AllDigits(rest) then None
      else if c == '.' then Some(whole + Fraction(rest))
      else if |rest| == 0 then (if IsSpace(c) then Some(whole) else None)
      else if c == 'e' || c == 'E' then Some(whole * Pow10(NatValue(rest)) as real)
      else if c == '_' then Some(NatValue(s[..n] + rest) as real)
      else None
  }

  /** A literal with a decimal point, `D.D'`, is always accepted, with its decimal value. */
  lemma FloatOfDecimal(d: string, f: string)
    requires |d| > 0 && AllDigits(d) && AllDigits(f)
    ensures Float(d + "." + f) == Some(NatValue(d) as real + Fraction(f))
  {
    var s := d + "." + f;
    assert s[..|d|] == d && s[|d|] == '.' && s[|d| + 1..] == f;
    DigitRunOfPrefix(s, |d|);
    var n := DigitRun(s);
    assert n == |d| && n < |s|;
    assert s[n] == '.';
    assert AllDigits(s[n + 1..]);
    assert Float(s) == Some(NatValue(s[..n]) as real + Fraction(s[n + 1..]));
  }

  /** Digits followed by a character other than a digit, `.`, `e`, `E`, `_` and further digits are refused. */
  lemma FloatRefuses(d: string, c: char, f: string)
    requires |d| > 0 && AllDigits(d) && |f| > 0 && AllDigits(f)
    requires !IsDigit(c) && c != '.' && c != 'e' && c != 'E' && c != '_'
    ensures Float(d + [c] + f) == None
  {
    var s := d + [c] + f;
    assert s[..|d|] == d && s[|d|] == c && s[|d| + 1..] == f;
    DigitRunOfPrefix(s, |d|);
  }

  lemma DigitRunOfPrefix(s: string, n: nat)
    requires n < |s| && AllDigits(s[..n]) && !IsDigit(s[n])
    ensures DigitRun(s) == n
  {
  }
}
