/** Python's int() on a text, as the tool's entry fields use it to read a
    number, and str() on a natural number. */
module PyInt {
  import opened Colour

  predicate IsDigit(c: char) {
    '0' <= c <= '9'
  }

  /** A non-empty run of decimal digits. */
  predicate Digits(s: string) {
    |s| > 0 && forall i :: 0 <= i < |s| ==> IsDigit(s[i])
  }

  function DigitsValue(s: string): (n: nat)
    requires forall i :: 0 <= i < |s| ==> IsDigit(s[i])
  {
    if s == [] then 0
    else
      assert IsDigit(s[|s| - 1]);
      10 * DigitsValue(s[..|s| - 1]) + (s[|s| - 1] as int - '0' as int)
  }

  predicate IsSpace(c: char) {
    c == ' ' || c == '\t' || c == '\n' || c == '\r' || c == '\U{B}' || c == '\U{C}'
  }

  /** s without the white space at its start and end, as int() skips it. */
  function Strip(s: string): (r: string)
    ensures |r| <= |s|
    ensures |r| > 0 ==> !IsSpace(r[0]) && !IsSpace(r[|r| - 1])
    ensures forall i :: 0 <= i < |s| && !IsSpace(s[i]) ==> |r| > 0
  {
    if |s| > 0 && IsSpace(s[0]) then Strip(s[1..])
    else if |s| > 0 && IsSpace(s[|s| - 1]) then Strip(s[..|s| - 1])
    else s
  }

  /** s without the white space at its start. */
  function SkipSpace(s: string): (r: string)
    ensures |r| <= |s|
    ensures |r| > 0 ==> !IsSpace(r[0])
  {
    if |s| > 0 && IsSpace(s[0]) then SkipSpace(s[1..]) else s
  }

  /** int(text) on a decimal text, as Python 2 reads it: optional white
      space around the whole, an optional sign, optional white space after
      the sign, and at least one digit; None where int() raises ValueError. */
  function ParseInt(text: string): (r: Option<int>)
  {
    var s := Strip(text);
    if |s| > 0 && (s[0] == '-' || s[0] == '+') && Digits(SkipSpace(s[1..])) then
      var v: int := DigitsValue(SkipSpace(s[1..]));
      Some(if s[0] == '-' then -v else v)
    else if Digits(s) then Some(DigitsValue(s))
    else None
  }

  /** The decimal digits of n, as str(n) writes them. */
  function Show(n: nat): (s: string)
    ensures Digits(s)
  {
    if n < 10 then [('0' as int + n) as char] else Show(n / 10) + [('0' as int + n % 10) as char]
  }

  lemma {:induction false} ShowValue(n: nat)
    ensures DigitsValue(Show(n)) == n
  {
    if n >= 10 {
      ShowValue(n / 10);
      assert Show(n)[..|Show(n)| - 1] == Show(n / 10);
    }
  }

  lemma NoSpace(s: string)
    requires |s| > 0 && !IsSpace(s[0]) && !IsSpace(s[|s| - 1])
    ensures Strip(s) == s
  {
  }

  /** int() reads back what str() writes, with or without a minus sign. */
  lemma ParseShow(a: nat)
    ensures ParseInt(Show(a)) == Some(a)
    ensures a > 0 ==> ParseInt("-" + Show(a)) == Some(-(a as int))
  {
    ShowValue(a);
    NoSpace(Show(a));
    assert Show(a)[0] != '-' && Show(a)[0] != '+';
    var s := "-" + Show(a);
    NoSpace(s);
    assert s[1..] == Show(a);
    assert SkipSpace(Show(a)) == Show(a);
  }

  /** int() also reads a sign that white space separates from the digits:
      "- 5" is -5 and "+ 5" is 5. */
  lemma ParseSpacedSign(a: nat)
    ensures ParseInt("- " + Show(a)) == Some(-(a as int))
    ensures ParseInt("+ " + Show(a)) == Some(a)
  {
    SpacedSign('-', a);
    SpacedSign('+', a);
  }

  lemma SpacedSign(sign: char, a: nat)
    requires sign == '-' || sign == '+'
    ensures ParseInt([sign, ' '] + Show(a)) == Some(if sign == '-' then -(a as int) else a)
  {
    ShowValue(a);
    var d := Show(a);
    var s := [sign, ' '] + d;
    NoSpace(s);
    assert s[1..] == [' '] + d;
    assert ([' '] + d)[1..] == d;
    assert SkipSpace(d) == d;
    assert SkipSpace(s[1..]) == d;
  }
}
