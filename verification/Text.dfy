/** The text handling that the configuration file and the rule fields use: the
    parts of Rust's `str` and `FromStr` that they call. */
module Text {
  import opened Basics

  /** Unicode `White_Space`, which is what `trim` removes. */
  predicate IsSpace(c: char) {
    var n := c as int;
    || 9 <= n <= 13 || n == 0x20 || n == 0x85 || n == 0xA0 || n == 0x1680
    || 0x2000 <= n <= 0x200A || n == 0x2028 || n == 0x2029 || n == 0x202F || n == 0x205F || n == 0x3000
  }

  function TrimStart(s: string): string {
    if s != [] && IsSpace(s[0]) then TrimStart(s[1..]) else s
  }

  function TrimEnd(s: string): string {
    if s != [] && IsSpace(s[|s| - 1]) then TrimEnd(s[..|s| - 1]) else s
  }

  function Trim(s: string): string { TrimEnd(TrimStart(s)) }

  predicate IsDigit(c: char) { '0' <= c <= '9' }

  function DigitsValue(s: string): nat
    requires forall c :: c in s ==> IsDigit(c)
  {
    if s == [] then 0
    else
      assert s[|s| - 1] in s && IsDigit(s[|s| - 1]);
      10 * DigitsValue(s[..|s| - 1]) + (s[|s| - 1] as int - '0' as int)
  }

  /** `str::parse` at an unsigned type whose largest value is `max`. */
  function ParseUint(s: string, max: nat): Option<nat> {
    var digits := if s != [] && s[0] == '+' then s[1..] else s;
    if digits == [] || exists c :: c in digits && !IsDigit(c) then None
    else if DigitsValue(digits) > max then None
    else Some(DigitsValue(digits))
  }

  /** One octet of a dotted address: no sign, no leading zero. */
  function ParseOctet(s: string): Option<nat> {
    if !(1 <= |s| <= 3) || (|s| > 1 && s[0] == '0') || s[0] == '+' then None else ParseUint(s, 255)
  }

  function ParseIpv4(s: string): Option<bv32> {
    var parts := Split(s, '.');
    if |parts| != 4 then None
    else
      var a, b, c, d := ParseOctet(parts[0]), ParseOctet(parts[1]), ParseOctet(parts[2]), ParseOctet(parts[3]);
      if a.None? || b.None? || c.None? || d.None? then None
      else
        var n := ((a.value * 256 + b.value) * 256 + c.value) * 256 + d.value;
        if n < 0x1_0000_0000 then Some(n as bv32) else None
  }

  /** UTF-8. */
  function CharBytes(c: char): seq<byte> {
    var n := c as int;
    if n < 0x80 then [n]
    else if n < 0x800 then [0xC0 + n / 0x40 % 0x20, 0x80 + n % 0x40]
    else if n < 0x1_0000 then [0xE0 + n / 0x1000 % 0x10, 0x80 + n / 0x40 % 0x40, 0x80 + n % 0x40]
    else [0xF0 + n / 0x4_0000 % 8, 0x80 + n / 0x1000 % 0x40, 0x80 + n / 0x40 % 0x40, 0x80 + n % 0x40]
  }

  function Bytes(s: string): seq<byte> {
    if s == [] then [] else CharBytes(s[0]) + Bytes(s[1..])
  }
}
