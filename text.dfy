/**
 * The parts of Java's string library the protocol relies on, on ASCII text:
 * `%d` formatting, `Integer.parseInt`, `String.trim`, `String.replace` of a
 * character and `String.split(" ")`.
 */
module Text {
  import opened Wrappers

  const MinInt: int := -0x8000_0000
  const MaxInt: int := 0x7fff_ffff

  /** A value of Java's `int`. */
  predicate IsInt32(n: int)
  {
    MinInt <= n <= MaxInt
  }

  predicate IsDigit(c: char)
  {
    '0' <= c <= '9'
  }

  predicate AllDigits(s: string)
  {
    forall i :: 0 <= i < |s| ==> IsDigit(s[i])
  }

  function Digit(d: nat): (c: char)
    requires d < 10
    ensures IsDigit(c) && (c as int) - ('0' as int) == d
  {
    (('0' as int) + d) as char
  }

  /** The decimal digits of n, most significant first, without leading zeros. */
  function NatToString(n: nat): (s: string)
    ensures |s| >= 1 && AllDigits(s)
    ensures s[0] == '0' ==> n == 0
    decreases n
  {
    if n < 10 then [Digit(n)] else NatToString(n / 10) + [Digit(n % 10)]
  }

  /** `%d`: a minus sign for negative values, then the digits. */
  function IntToString(n: int): string
  {
    if n < 0 then "-" + NatToString(-n) else NatToString(n)
  }

  /** The value of a string of decimal digits. */
  function DigitsValue(s: string): nat
    requires AllDigits(s)
    decreases |s|
  {
    if s == [] then 0 else DigitsValue(s[..|s| - 1]) * 10 + ((s[|s| - 1] as int) - ('0' as int))
  }

  /**
   * `Integer.parseInt`: an optional sign, at least one digit, nothing else,
   * and a value in range; `None` is the NumberFormatException.
   */
  function ParseInt(s: string): (r: Option<int>)
    ensures r.Some? ==> IsInt32(r.value)
  {
    if |s| == 0 then None
    else
      var signed := s[0] == '-' || s[0] == '+';
      var digits := if signed then s[1..] else s;
      if |digits| == 0 || !AllDigits(digits) then None
      else
        var v: int := DigitsValue(digits);
        var n: int := if s[0] == '-' then -v else v;
        if IsInt32(n) then Some(n) else None
  }

  /** `trim`: drop leading and trailing characters up to and including the space. */
  function TrimLeft(s: string): (r: string)
    ensures |r| <= |s| && (|r| > 0 ==> r[0] > ' ')
    decreases |s|
  {
    if |s| > 0 && s[0] <= ' ' then TrimLeft(s[1..]) else s
  }

  function TrimRight(s: string): (r: string)
    ensures |r| <= |s| && (|r| > 0 ==> r[|r| - 1] > ' ')
    decreases |s|
  {
    if |s| > 0 && s[|s| - 1] <= ' ' then TrimRight(s[..|s| - 1]) else s
  }

  function Trim(s: string): string
  {
    TrimRight(TrimLeft(s))
  }

  /** `replace("\n", "")`. */
  function RemoveNewlines(s: string): (r: string)
    ensures '\n' !in r
    decreases |s|
  {
    if s == [] then []
    else (if s[0] == '\n' then [] else [s[0]]) + RemoveNewlines(s[1..])
  }

  predicate NoSpace(s: string)
  {
    ' ' !in s
  }

  /** Every character is above the space: no blank, no control character. */
  predicate Visible(s: string)
  {
    forall i :: 0 <= i < |s| ==> s[i] > ' '
  }

  /** The index of the first space, or |s| when there is none. */
  function SpaceIndex(s: string): (i: nat)
    ensures i <= |s| && (i < |s| ==> s[i] == ' ') && NoSpace(s[..i])
    decreases |s|
  {
    if s == [] then 0
    else if s[0] == ' ' then 0
    else
      var j := SpaceIndex(s[1..]);
      assert s[..j + 1] == [s[0]] + s[1..][..j];
      j + 1
  }

  /** All the pieces of s between spaces, empty ones included. */
  function Fields(s: string): (r: seq<string>)
    ensures |r| >= 1
    decreases |s|
  {
    var i := SpaceIndex(s);
    if i == |s| then [s] else [s[..i]] + Fields(s[i + 1..])
  }

  /** Drop the empty strings at the end, as `split` with limit 0 does. */
  function DropTrailingEmpty(fs: seq<string>): (r: seq<string>)
    ensures |r| <= |fs| && r == fs[..|r|]
    ensures |r| > 0 ==> r[|r| - 1] != ""
    ensures forall k :: |r| <= k < |fs| ==> fs[k] == ""
    decreases |fs|
  {
    if |fs| > 0 && fs[|fs| - 1] == "" then DropTrailingEmpty(fs[..|fs| - 1]) else fs
  }

  /**
   * `split(" ")`: a string without a space is its own single field (even the
   * empty string); otherwise the fields between spaces, less trailing empty ones.
   */
  function Split(s: string): seq<string>
  {
    if NoSpace(s) then [s] else DropTrailingEmpty(Fields(s))
  }

  /** The fields joined with single spaces. */
  function Join(fs: seq<string>): string
    requires |fs| >= 1
    decreases |fs|
  {
    if |fs| == 1 then fs[0] else fs[0] + " " + Join(fs[1..])
  }
}
