/** Lower-case hexadecimal digits, shared by `hexdigest()` and by the
    `\uXXXX` escapes of the JSON encoder. */
module Hex {
  import opened Wrappers

  predicate IsHexDigit(c: char) {
    '0' <= c <= '9' || 'a' <= c <= 'f'
  }

  function HexDigit(d: nat): (c: char)
    requires d < 16
    ensures IsHexDigit(c) && c as int < 128
    ensures HexValue(c) == Some(d)
  {
    if d < 10 then ('0' as int + d) as char else ('a' as int + d - 10) as char
  }

  /** The value of one lower-case hexadecimal digit, None for any other character. */
  function HexValue(c: char): (r: Option<nat>)
    ensures r.Some? <==> IsHexDigit(c)
    ensures r.Some? ==> r.value < 16
  {
    if '0' <= c <= '9' then Some(c as int - '0' as int)
    else if 'a' <= c <= 'f' then Some(c as int - 'a' as int + 10)
    else None
  }

  /** Four digits, most significant first, as Python's `'%04x'` writes them. */
  function Hex4(n: nat): (s: string)
    requires n < 0x10000
    ensures |s| == 4
    ensures forall i :: 0 <= i < 4 ==> IsHexDigit(s[i]) && s[i] as int < 128
  {
    [HexDigit(n / 16 / 16 / 16), HexDigit(n / 16 / 16 % 16), HexDigit(n / 16 % 16), HexDigit(n % 16)]
  }

  /** Reads four lower-case digits back; None if any of them is not one. */
  function Hex4Value(s: string): (r: Option<nat>)
    requires |s| == 4
    ensures r.Some? ==> r.value < 0x10000
  {
    match (HexValue(s[0]), HexValue(s[1]), HexValue(s[2]), HexValue(s[3]))
    case (Some(a), Some(b), Some(c), Some(d)) => Some(a * 0x1000 + b * 0x100 + c * 0x10 + d)
    case _ => None
  }

  lemma Hex4RoundTrip(n: nat)
    requires n < 0x10000
    ensures Hex4Value(Hex4(n)) == Some(n)
  {
    var m1 := n / 16;
    var m2 := m1 / 16;
    assert n == m1 * 16 + n % 16;
    assert m1 == m2 * 16 + m1 % 16;
    assert m2 == m2 / 16 * 16 + m2 % 16;
    var s := Hex4(n);
    assert HexValue(s[0]) == Some(m2 / 16);
    assert HexValue(s[1]) == Some(m2 % 16);
    assert HexValue(s[2]) == Some(m1 % 16);
    assert HexValue(s[3]) == Some(n % 16);
    assert m2 / 16 * 0x1000 + m2 % 16 * 0x100 + m1 % 16 * 0x10 + n % 16 == n;
  }
}
