/** The scene number label `String(scene_number).padStart(2, '0')` shown in
    both views (app/page.tsx), with the decimal reading that undoes it. */
module Format {

  predicate IsDigit(c: char)
  {
    '0' <= c <= '9'
  }

  predicate AllDigits(s: string)
  {
    forall i :: 0 <= i < |s| ==> IsDigit(s[i])
  }

  function DigitChar(d: int): (c: char)
    requires 0 <= d < 10
    ensures IsDigit(c) && DigitValue(c) == d
  {
    ('0' as int + d) as char
  }

  function DigitValue(c: char): int
    requires IsDigit(c)
  {
    c as int - '0' as int
  }

  /** The decimal digits of `n`, most significant first, without leading zeros. */
  function Digits(n: nat): (r: string)
    ensures AllDigits(r)
    ensures |r| >= 1
    ensures |r| == 1 <==> n < 10
    ensures n > 0 ==> r[0] != '0'
    decreases n
  {
    if n < 10 then [DigitChar(n)] else Digits(n / 10) + [DigitChar(n % 10)]
  }

  /** JavaScript's `String(n)` for an integer `n` of magnitude below 10^21,
      where it prints the plain decimal form: an optional minus sign, then
      the digits without leading zeros. */
  function NumberToString(n: int): (r: string)
    ensures |r| >= 1
    ensures r[0] == '-' <==> n < 0
    ensures n >= 0 ==> AllDigits(r)
    ensures AllDigits(r[1..])
    ensures |r| > 1 ==> r[if n < 0 then 1 else 0] != '0'
  {
    if n < 0 then "-" + Digits(-n) else Digits(n)
  }

  /** JavaScript's `s.padStart(width, fill)` with a one-character `fill`:
      `s` unchanged when it is already `width` long, otherwise `s` prefixed
      with as many copies of `fill` as make it `width` long. */
  function PadStart(s: string, width: int, fill: char): (r: string)
    ensures |r| == if |s| >= width then |s| else width
    ensures r[|r| - |s|..] == s
    ensures forall i :: 0 <= i < |r| - |s| ==> r[i] == fill
    decreases width - |s|
  {
    if |s| >= width then s
    else
      var r := PadStart([fill] + s, width, fill);
      assert r[|r| - |s|..] == r[|r| - |s| - 1..][1..];
      r
  }

  /** The label `SCENE 07` shows for scene number 7. */
  function SceneLabel(n: int): (r: string)
    ensures |r| >= 2
    ensures n >= 0 ==> |Digits(n)| <= |r| && r[|r| - |Digits(n)|..] == Digits(n)
    ensures n >= 0 ==> (r[0] == '0' <==> n < 10)
    ensures n >= 0 ==> (|r| == 2 <==> n < 100)
  {
    if n >= 0 then DigitsLength(n); PadStart(NumberToString(n), 2, '0')
    else PadStart(NumberToString(n), 2, '0')
  }

  /** The value of a string of decimal digits. */
  function ParseDigits(s: string): nat
    requires AllDigits(s)
    decreases |s|
  {
    if s == [] then 0 else ParseDigits(s[..|s| - 1]) * 10 + DigitValue(s[|s| - 1])
  }

  /** The integer a decimal string with an optional leading minus stands for. */
  function ParseInt(s: string): int
    requires if s != [] && s[0] == '-' then AllDigits(s[1..]) else AllDigits(s)
  {
    if s != [] && s[0] == '-' then 0 - ParseDigits(s[1..]) as int else ParseDigits(s)
  }

  /** Digits has exactly two characters for the two-digit numbers. */
  lemma DigitsLength(n: nat)
    ensures |Digits(n)| == 2 <==> 10 <= n < 100
  {
  }

  lemma {:induction false} ParseDigitsOfDigits(n: nat)
    ensures ParseDigits(Digits(n)) == n
    decreases n
  {
    if n >= 10 {
      var d := Digits(n);
      assert d[..|d| - 1] == Digits(n / 10);
      ParseDigitsOfDigits(n / 10);
    }
  }

  /** Leading zeros do not change the value read back. */
  lemma {:induction false} ParseDigitsLeadingZero(s: string)
    requires AllDigits(s)
    ensures AllDigits(['0'] + s) && ParseDigits(['0'] + s) == ParseDigits(s)
    decreases |s|
  {
    var z := ['0'] + s;
    if s != [] {
      assert z[..|z| - 1] == ['0'] + s[..|s| - 1];
      ParseDigitsLeadingZero(s[..|s| - 1]);
    }
  }

  /** Reading `String(n)` back gives `n`, for every integer the plain
      decimal form covers. */
  lemma NumberToStringRoundTrip(n: int)
    ensures ParseInt(NumberToString(n)) == n
  {
    if n < 0 {
      assert NumberToString(n)[1..] == Digits(-n);
      ParseDigitsOfDigits(-n);
    } else {
      ParseDigitsOfDigits(n);
    }
  }

  /** Padding with zeros does not change the value read back. */
  lemma {:induction false} PadZerosRoundTrip(s: string, width: int)
    requires AllDigits(s)
    ensures AllDigits(PadStart(s, width, '0'))
    ensures ParseDigits(PadStart(s, width, '0')) == ParseDigits(s)
    decreases width - |s|
  {
    if |s| < width {
      ParseDigitsLeadingZero(s);
      PadZerosRoundTrip(['0'] + s, width);
    }
  }

  /** The label loses nothing: reading it back gives the scene number, for
      every integer (a negative number is never padded). */
  lemma SceneLabelRoundTrip(n: int)
    ensures ParseInt(SceneLabel(n)) == n
  {
    var t := NumberToString(n);
    if n < 0 {
      assert |t| >= 2;
      NumberToStringRoundTrip(n);
    } else {
      PadZerosRoundTrip(t, 2);
      ParseDigitsOfDigits(n);
      var r := SceneLabel(n);
      assert IsDigit(r[0]);
    }
  }
}
