/** Decimal rendering of integers and their comma-joined lists, as the
    response headers carry them, with the parser that reads them back. */
module Csv {
  import opened Wrappers

  predicate IsDigit(c: char)
  {
    '0' <= c <= '9'
  }

  predicate AllDigits(s: string)
  {
    forall i :: 0 <= i < |s| ==> IsDigit(s[i])
  }

  function DigitChar(d: int): (c: char)
    requires 0 <= d < 10
    ensures IsDigit(c)
  {
    (48 + d) as char
  }

  function DigitValue(c: char): (d: int)
    requires IsDigit(c)
    ensures 0 <= d < 10
  {
    c as int - 48
  }

  /** Decimal digits of `n`, most significant first, without leading zeros. */
  function NatToString(n: nat): (s: string)
    ensures |s| >= 1 && AllDigits(s)
    ensures s[0] == '0' ==> n == 0
  {
    if n < 10 then [DigitChar(n)] else NatToString(n / 10) + [DigitChar(n % 10)]
  }

  /** Python's `str` of an integer: a minus sign before the digits of a negative number. */
  function IntToString(x: int): (s: string)
    ensures |s| >= 1
    ensures s[0] == '-' <==> x < 0
    ensures ',' !in s
  {
    if x < 0 then "-" + NatToString(-x) else NatToString(x)
  }

  /** The value of a string of decimal digits (0 for the empty string). */
  function ParseDigits(s: string): nat
    requires AllDigits(s)
  {
    if |s| == 0 then 0 else ParseDigits(s[..|s| - 1]) * 10 + DigitValue(s[|s| - 1])
  }

  lemma {:induction false} ParseDigitsOfNat(n: nat)
    ensures ParseDigits(NatToString(n)) == n
  {
    if n >= 10 {
      var s := NatToString(n);
      var p := NatToString(n / 10);
      assert s[..|s| - 1] == p;
      ParseDigitsOfNat(n / 10);
    }
  }

  /** Reads an optional minus sign followed by at least one digit. */
  function ParseInt(s: string): (r: Option<int>)
    ensures r.Some? ==> |s| >= 1
  {
    if |s| == 0 then None
    else if s[0] == '-' then
      if |s| > 1 && AllDigits(s[1..]) then Some(-(ParseDigits(s[1..]) as int)) else None
    else if AllDigits(s) then Some(ParseDigits(s))
    else None
  }

  lemma ParseIntOfString(x: int)
    ensures ParseInt(IntToString(x)) == Some(x)
  {
    var s := IntToString(x);
    if x < 0 {
      assert s[1..] == NatToString(-x);
      ParseDigitsOfNat(-x);
    } else {
      ParseDigitsOfNat(x);
    }
  }

  /** `','.join(str(x) for x in xs)`. The parser reads every joined list
      back exactly, the empty list included. */
  function Join(xs: seq<int>): (s: string)
    ensures Parse(s) == Some(xs)
    decreases |xs|
  {
    if |xs| == 0 then ""
    else
      var head := IntToString(xs[0]);
      ParseIntOfString(xs[0]);
      if |xs| == 1 then
        assert FirstComma(head) == |head|;
        assert head[..|head|] == head;
        assert xs == [xs[0]];
        head
      else
        var tail := Join(xs[1..]);
        var joined := head + "," + tail;
        FirstCommaOfJoin(head, tail);
        assert joined[..|head|] == head;
        assert joined[|head| + 1..] == tail;
        assert [xs[0]] + xs[1..] == xs;
        joined
  }

  /** Index of the first comma, or the length when there is none. */
  function FirstComma(s: string): (i: nat)
    ensures i <= |s|
    ensures i < |s| ==> s[i] == ','
    ensures forall j :: 0 <= j < i ==> s[j] != ','
  {
    if |s| == 0 || s[0] == ',' then 0 else 1 + FirstComma(s[1..])
  }

  /** Reads comma-separated integers; every field must be non-empty. */
  function ParseFields(s: string): Option<seq<int>>
    decreases |s|
  {
    var i := FirstComma(s);
    match ParseInt(s[..i])
    case None => None
    case Some(x) =>
      if i == |s| then Some([x])
      else
        match ParseFields(s[i + 1..])
        case None => None
        case Some(rest) => Some([x] + rest)
  }

  /** Reads a header value back into its integers; the empty string is the empty list. */
  function Parse(s: string): Option<seq<int>>
  {
    if s == "" then Some([]) else ParseFields(s)
  }

  lemma {:induction false} FirstCommaOfJoin(a: string, b: string)
    requires ',' !in a
    ensures FirstComma(a + "," + b) == |a|
  {
    if |a| > 0 {
      assert (a + "," + b)[1..] == a[1..] + "," + b;
      FirstCommaOfJoin(a[1..], b);
    }
  }
}
