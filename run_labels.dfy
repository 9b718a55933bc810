/** Run labels of the dictionary form of a sample table: the text
    `"Run_" + str(n)`, read back with `int(name.split('Run_')[-1])`. */
module RunLabels {
  import opened Wrappers

  const Prefix: string := "Run_"

  predicate IsDigit(c: char) {
    '0' <= c <= '9'
  }

  predicate AllDigits(s: string) {
    forall i :: 0 <= i < |s| ==> IsDigit(s[i])
  }

  function DigitChar(d: nat): (c: char)
    requires d < 10
    ensures IsDigit(c) && c as int - '0' as int == d
  {
    ('0' as int + d) as char
  }

  /** Python's `str(n)` for a non-negative integer: decimal, no leading zero. */
  function NatToString(n: nat): (s: string)
    ensures |s| > 0 && AllDigits(s)
    ensures s[0] == '0' ==> n == 0
  {
    if n < 10 then [DigitChar(n)] else NatToString(n / 10) + [DigitChar(n % 10)]
  }

  /** The value of a string of decimal digits, read most significant first. */
  function DigitsValue(s: string): nat
    requires AllDigits(s)
  {
    if |s| == 0 then 0 else 10 * DigitsValue(s[..|s| - 1]) + (s[|s| - 1] as int - '0' as int)
  }

  /** Python's `int(s)` on a string: an optional sign followed by at least
      one decimal digit; anything else is a `ValueError` (here `None`). */
  function ParseInt(s: string): (r: Option<int>)
    ensures r.Some? <==>
      || (|s| > 0 && AllDigits(s))
      || (|s| > 1 && (s[0] == '+' || s[0] == '-') && AllDigits(s[1..]))
    ensures |s| > 0 && AllDigits(s) ==> r == Some(DigitsValue(s))
    ensures |s| > 1 && s[0] == '+' && AllDigits(s[1..]) ==> r == Some(DigitsValue(s[1..]))
    ensures |s| > 1 && s[0] == '-' && AllDigits(s[1..]) ==> r.Some? && r.value == -(DigitsValue(s[1..]) as int)
    ensures r.Some? && |s| > 0 && IsDigit(s[0]) ==> r.value >= 0
  {
    if |s| > 0 && (s[0] == '+' || s[0] == '-') then
      var digits := s[1..];
      if |digits| > 0 && AllDigits(digits) then
        var v: int := DigitsValue(digits);
        Some(if s[0] == '-' then -v else v)
      else None
    else if |s| > 0 && AllDigits(s) then Some(DigitsValue(s))
    else None
  }

  /** `s.split(sep)[-1]`: the text after the last separator that a left to
      right, non-overlapping scan finds; `piece` is the text seen since the
      previous separator. */
  function LastPieceFrom(s: string, sep: string, piece: string): string
    requires |sep| > 0
    decreases |s|
  {
    if |s| == 0 then piece
    else if sep <= s then LastPieceFrom(s[|sep|..], sep, [])
    else LastPieceFrom(s[1..], sep, piece + [s[0]])
  }

  function LastPiece(s: string, sep: string): string
    requires |sep| > 0
  {
    LastPieceFrom(s, sep, [])
  }

  /** `int(name.split('Run_')[-1])`; `None` when `int` raises. */
  function ParseRunLabel(name: string): Option<int> {
    ParseInt(LastPiece(name, Prefix))
  }

  /** `'Run_' + str(n)`. */
  function RunLabel(n: nat): string {
    Prefix + NatToString(n)
  }

  lemma {:induction false} DigitsRoundTrip(n: nat)
    ensures DigitsValue(NatToString(n)) == n
  {
    if n >= 10 {
      var s := NatToString(n);
      assert s[..|s| - 1] == NatToString(n / 10);
      DigitsRoundTrip(n / 10);
    }
  }

  /** A scan over text that holds no 'R' never meets the separator. */
  lemma {:induction false} NoSeparatorInDigits(d: string, piece: string)
    requires AllDigits(d)
    ensures LastPieceFrom(d, Prefix, piece) == piece + d
    decreases |d|
  {
    if |d| > 0 {
      assert !(Prefix <= d) by { assert d[0] != Prefix[0]; }
      NoSeparatorInDigits(d[1..], piece + [d[0]]);
      assert piece + [d[0]] + d[1..] == piece + d;
    }
  }

  /** Reading back a label written by `RunLabel` gives its run number. */
  lemma RunLabelRoundTrip(n: nat)
    ensures ParseRunLabel(RunLabel(n)) == Some(n)
  {
    var d := NatToString(n);
    assert Prefix <= Prefix + d;
    assert (Prefix + d)[|Prefix|..] == d;
    NoSeparatorInDigits(d, []);
    assert LastPiece(RunLabel(n), Prefix) == d;
    DigitsRoundTrip(n);
  }

  /** `int(str(n)) == n`. */
  lemma ParseIntOfString(n: nat)
    ensures ParseInt(NatToString(n)) == Some(n)
  {
    DigitsRoundTrip(n);
  }

  /** Distinct run numbers have distinct labels. */
  lemma RunLabelInjective(m: nat, n: nat)
    requires RunLabel(m) == RunLabel(n)
    ensures m == n
  {
    RunLabelRoundTrip(m);
    RunLabelRoundTrip(n);
  }
}
