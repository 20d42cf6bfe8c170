/** The data file names of `load_data`: `path + fname + n + ".csv"`, where the
    number `n` is written in decimal and zero-padded to three characters as
    Python's `'{2:03d}'` format does. */
module FileNames {

  function DigitChar(k: nat): char
    requires k < 10
  {
    "0123456789"[k]
  }

  predicate IsDigit(c: char)
  {
    '0' <= c <= '9'
  }

  function DigitValue(c: char): nat
  {
    if IsDigit(c) then (c - '0') as nat else 0
  }

  /** The decimal digits of `n`, most significant first, without leading zeros. */
  function Digits(n: nat): (s: string)
    ensures 0 < |s| && forall i :: 0 <= i < |s| ==> IsDigit(s[i])
  {
    if n < 10 then [DigitChar(n)] else Digits(n / 10) + [DigitChar(n % 10)]
  }

  /** The number a string of decimal digits denotes. */
  function ParseDigits(s: string): nat
  {
    if |s| == 0 then 0 else ParseDigits(s[..|s| - 1]) * 10 + DigitValue(s[|s| - 1])
  }

  /** `s` with zeros prepended until it is `width` characters long. */
  function PadLeft(s: string, width: nat): (r: string)
    ensures |r| == if |s| < width then width else |s|
  {
    if |s| < width then seq(width - |s|, _ => '0') + s else s
  }

  /** Python's `'{:03d}'.format(n)`: the sign counts towards the width of three. */
  function Format03(n: int): (s: string)
  {
    if n >= 0 then PadLeft(Digits(n), 3) else "-" + PadLeft(Digits(-n), 2)
  }

  /** Reads a number back from its `Format03` form. */
  function ParseInt(s: string): int
  {
    if 0 < |s| && s[0] == '-' then -(ParseDigits(s[1..]) as int) else ParseDigits(s)
  }

  /** The file name read for an example whose number is `n`. */
  function FileName(path: string, fname: string, n: int): string
  {
    path + fname + Format03(n) + ".csv"
  }

  // ---------------------------------------------------------------------
  // Properties

  lemma {:induction false} ParseDigitsOfDigits(n: nat)
    ensures ParseDigits(Digits(n)) == n
  {
    if n >= 10 {
      var s := Digits(n);
      assert s[..|s| - 1] == Digits(n / 10);
      ParseDigitsOfDigits(n / 10);
    }
  }

  /** Leading zeros do not change the number a digit string denotes. */
  lemma {:induction false} ParseDigitsZeros(k: nat, s: string)
    ensures ParseDigits(seq(k, _ => '0') + s) == ParseDigits(s)
  {
    var z := seq(k, _ => '0');
    if |s| == 0 {
      assert z + s == z;
      if k > 0 {
        assert z[..k - 1] == seq(k - 1, _ => '0');
        ParseDigitsZeros(k - 1, s);
        assert seq(k - 1, _ => '0') + s == seq(k - 1, _ => '0');
      }
    } else {
      var n := |s| - 1;
      assert (z + s)[..|z + s| - 1] == z + s[..n];
      ParseDigitsZeros(k, s[..n]);
    }
  }

  /** A zero-padded number of at least three characters, all of them digits. */
  lemma FormatNatural(n: nat)
    ensures |Format03(n)| == if |Digits(n)| < 3 then 3 else |Digits(n)|
    ensures forall i :: 0 <= i < |Format03(n)| ==> IsDigit(Format03(n)[i])
  {
  }

  /** The padded form reads back as the number it was made from. */
  lemma FormatRoundTrip(n: int)
    ensures ParseInt(Format03(n)) == n
  {
    var m := if n >= 0 then n else -n;
    var w := if n >= 0 then 3 else 2;
    var d := Digits(m);
    var p := PadLeft(d, w);
    if |d| < w {
      ParseDigitsZeros(w - |d|, d);
    }
    ParseDigitsOfDigits(m);
    assert ParseDigits(p) == m;
    if n >= 0 {
      assert p[0] != '-' by { FormatNatural(n); }
    } else {
      assert ("-" + p)[1..] == p;
    }
  }

  /** Different numbers give different file names. */
  lemma FileNameInjective(path: string, fname: string, a: int, b: int)
    requires FileName(path, fname, a) == FileName(path, fname, b)
    ensures a == b
  {
    var pre := path + fname;
    var fa, fb := Format03(a), Format03(b);
    assert FileName(path, fname, a) == pre + fa + ".csv";
    assert |fa| == |fb|;
    assert fa == FileName(path, fname, a)[|pre|..|pre| + |fa|];
    assert fb == FileName(path, fname, b)[|pre|..|pre| + |fb|];
    FormatRoundTrip(a);
    FormatRoundTrip(b);
  }
}
