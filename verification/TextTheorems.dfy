/** What the fields of a configuration line read as: numbers, addresses, networks,
    ports and host patterns, each by the text that stands for it. */
module TextTheorems {
  import opened Basics
  import opened Text
  import opened Hostnames
  import opened Rules

  // ---- numbers ------------------------------------------------------------------------

  function Digit(n: nat): char
    requires n < 10
  {
    ['0', '1', '2', '3', '4', '5', '6', '7', '8', '9'][n]
  }

  /** As people write it: no sign, no leading zero. */
  function Decimal(n: nat): string { if n < 10 then [Digit(n)] else Decimal(n / 10) + [Digit(n % 10)] }

  function Zeros(k: nat): string { seq(k, _ => '0') }

  predicate AllDigits(s: string) { forall c :: c in s ==> IsDigit(c) }

  lemma {:induction false} DecimalDigits(n: nat)
    ensures Decimal(n) != [] && AllDigits(Decimal(n)) && (n > 0 ==> Decimal(n)[0] != '0')
    ensures DigitsValue(Decimal(n)) == n
    ensures |Decimal(n)| > 1 ==> n >= 10
  {
    if n >= 10 {
      DecimalDigits(n / 10);
      assert Decimal(n)[..|Decimal(n)| - 1] == Decimal(n / 10);
    } else {
      assert Decimal(n)[..0] == "";
    }
  }

  lemma {:induction false} ZerosValue(k: nat, s: string)
    requires AllDigits(s) && s != []
    ensures AllDigits(Zeros(k) + s) && DigitsValue(Zeros(k) + s) == DigitsValue(s)
    decreases |s|, k
  {
    var t := Zeros(k) + s;
    assert t[..|t| - 1] == Zeros(k) + s[..|s| - 1];
    if |s| > 1 {
      ZerosValue(k, s[..|s| - 1]);
    } else {
      NothingButZeros(k);
      assert t[..|t| - 1] == Zeros(k) && s[..0] == "";
    }
  }

  lemma {:induction false} NothingButZeros(k: nat)
    ensures AllDigits(Zeros(k)) && DigitsValue(Zeros(k)) == 0
  {
    if k > 0 {
      NothingButZeros(k - 1);
      assert Zeros(k)[..k - 1] == Zeros(k - 1);
    }
  }

  lemma DecimalSnoc(v: nat, d: nat)
    requires v > 0 && d < 10
    ensures Decimal(10 * v + d) == Decimal(v) + [Digit(d)]
  {
    assert (10 * v + d) / 10 == v && (10 * v + d) % 10 == d;
  }

  lemma ZeroSnoc(k: nat, d: nat)
    requires d < 10
    ensures Zeros(k) + "0" + [Digit(d)] == Zeros(k + 1) + Decimal(d)
  {
    assert Zeros(k + 1) == Zeros(k) + "0";
  }

  lemma DigitIs(c: char) returns (d: nat)
    requires IsDigit(c)
    ensures d < 10 && c == Digit(d) && d == c as int - '0' as int
  {
    d := c as int - '0' as int;
  }

  lemma FrontDigits(s: string) returns (d: nat)
    requires s != [] && AllDigits(s)
    ensures AllDigits(s[..|s| - 1]) && (forall c :: c in s[..|s| - 1] ==> IsDigit(c))
    ensures d < 10 && s == s[..|s| - 1] + [Digit(d)]
    ensures DigitsValue(s) == 10 * DigitsValue(s[..|s| - 1]) + d
  {
    hide Digit;
    var last := s[|s| - 1];
    assert last in s;
    d := DigitIs(last);
    assert forall c :: c in s[..|s| - 1] ==> c in s;
  }

  /** Digits are a number with zeros before it. */
  lemma {:induction false} DigitsAre(s: string) returns (k: nat)
    requires s != [] && AllDigits(s)
    ensures s == Zeros(k) + Decimal(DigitsValue(s))
    decreases |s|
  {
    hide *;
    var front := s[..|s| - 1];
    var d := FrontDigits(s);
    if front == [] {
      k := 0;
      NoDigits();
      OneDigit(d);
      assert s == [Digit(d)];
    } else {
      k := DigitsAre(front);
      var v := DigitsValue(front);
      if v == 0 {
        OneDigit(0);
        ZeroSnoc(k, d);
        k := k + 1;
      } else {
        DecimalSnoc(v, d);
        Assoc(Zeros(k), Decimal(v), [Digit(d)]);
      }
    }
  }

  lemma NoDigits()
    ensures DigitsValue("") == 0
  {
  }

  lemma OneDigit(d: nat)
    requires d < 10
    ensures Decimal(d) == Zeros(0) + [Digit(d)] && Digit(0) == '0' && Decimal(d) == [Digit(d)]
  {
  }

  /** A number is read from its digits, with or without a `+` and leading zeros,
      and from nothing else; it fails above the largest value of its type. */
  lemma {:induction false} UintReads(s: string, max: nat, n: nat)
    ensures ParseUint(s, max) == Some(n) <==>
      n <= max && exists k: nat :: s == Zeros(k) + Decimal(n) || s == "+" + (Zeros(k) + Decimal(n))
  {
    hide DigitsValue, Decimal, Zeros;
    DecimalDigits(n);
    var digits := if s != [] && s[0] == '+' then s[1..] else s;
    if ParseUint(s, max) == Some(n) {
      var k := DigitsAre(digits);
      assert s == digits || s == "+" + digits;
    }
    if n <= max && exists k: nat :: s == Zeros(k) + Decimal(n) || s == "+" + (Zeros(k) + Decimal(n)) {
      var k: nat :| s == Zeros(k) + Decimal(n) || s == "+" + (Zeros(k) + Decimal(n));
      ZerosValue(k, Decimal(n));
      var t := Zeros(k) + Decimal(n);
      assert t[0] in t && !IsDigit('+');
      assert digits == t;
    }
  }

  lemma {:induction false} DecimalReads(n: nat, max: nat)
    ensures ParseUint(Decimal(n), max) == if n <= max then Some(n) else None
  {
    hide DigitsValue, Decimal;
    DecimalDigits(n);
    assert Decimal(n)[0] in Decimal(n) && !IsDigit('+');
  }

  // ---- trimming -------------------------------------------------------------------------

  predicate AllSpace(s: string) { forall c :: c in s ==> IsSpace(c) }

  lemma {:induction false} StartTrims(s: string) returns (lead: string)
    ensures AllSpace(lead) && s == lead + TrimStart(s) && (TrimStart(s) != "" ==> !IsSpace(TrimStart(s)[0]))
    decreases |s|
  {
    hide IsSpace;
    lead := "";
    if s != [] && IsSpace(s[0]) {
      lead := StartTrims(s[1..]);
      lead := s[..1] + lead;
    }
  }

  lemma {:induction false} EndTrims(s: string) returns (trail: string)
    ensures AllSpace(trail) && s == TrimEnd(s) + trail
    ensures TrimEnd(s) != "" ==> !IsSpace(TrimEnd(s)[|TrimEnd(s)| - 1])
    decreases |s|
  {
    hide IsSpace;
    trail := "";
    if s != [] && IsSpace(s[|s| - 1]) {
      trail := EndTrims(s[..|s| - 1]);
      trail := trail + s[|s| - 1..];
    }
  }

  /** Trimming takes white space away, and all of it at both ends. */
  lemma {:induction false} TrimSplits(s: string) returns (lead: string, trail: string)
    ensures AllSpace(lead) && AllSpace(trail) && s == lead + Trim(s) + trail
    ensures Trim(s) != "" ==> !IsSpace(Trim(s)[0]) && !IsSpace(Trim(s)[|Trim(s)| - 1])
  {
    hide IsSpace;
    lead := StartTrims(s);
    trail := EndTrims(TrimStart(s));
    Assoc(lead, Trim(s), trail);
  }

  // ---- addresses ------------------------------------------------------------------------

  lemma {:induction false} SmallDecimals(n: nat)
    requires n < 256
    ensures 1 <= |Decimal(n)| <= 3
  {
    assert Decimal(n) == if n < 10 then [Digit(n)] else Decimal(n / 10) + [Digit(n % 10)];
    assert n >= 10 ==> Decimal(n / 10) == if n / 10 < 10 then [Digit(n / 10)]
                                          else Decimal(n / 10 / 10) + [Digit(n / 10 % 10)];
  }

  /** An octet is written as a decimal number below 256, and in no other way. */
  lemma {:induction false} OctetReads(s: string, n: nat)
    ensures ParseOctet(s) == Some(n) <==> n < 256 && s == Decimal(n)
  {
    DecimalDigits(n);
    hide Decimal, DigitsValue, Zeros, ParseUint;
    if ParseOctet(s) == Some(n) {
      UintReads(s, 255, n);
      var k: nat :| s == Zeros(k) + Decimal(n) || s == "+" + (Zeros(k) + Decimal(n));
      OctetHasNoZeros(s, k, n);
    }
    if n < 256 && s == Decimal(n) {
      SmallDecimals(n);
      DecimalReads(n, 255);
      assert s[0] in s && !IsDigit('+');
    }
  }

  lemma {:induction false} OctetHasNoZeros(s: string, k: nat, n: nat)
    requires s == Zeros(k) + Decimal(n) || s == "+" + (Zeros(k) + Decimal(n))
    requires s != [] && s[0] != '+' && (|s| > 1 ==> s[0] != '0')
    ensures s == Decimal(n)
  {
    DecimalDigits(n);
    hide Decimal;
    var t := Zeros(k) + Decimal(n);
    ZerosLead(k, Decimal(n));
    assert k == 0 ==> t == Decimal(n);
    assert ("+" + t)[0] == '+';
  }

  lemma ZerosLead(k: nat, s: string)
    requires s != []
    ensures k > 0 ==> (Zeros(k) + s)[0] == '0' && |Zeros(k) + s| > 1
  {
  }

  function Quad(a: nat, b: nat, c: nat, d: nat): nat { ((a * 256 + b) * 256 + c) * 256 + d }

  lemma QuadFits(a: nat, b: nat, c: nat, d: nat)
    requires a < 256 && b < 256 && c < 256 && d < 256
    ensures Quad(a, b, c, d) < 0x1_0000_0000
  {
  }

  function Dotted(a: nat, b: nat, c: nat, d: nat): string {
    Join([Decimal(a), Decimal(b), Decimal(c), Decimal(d)], '.')
  }

  /** An address is written as four octets with dots between, and in no other way. */
  lemma {:induction false} AddressReads(s: string, addr: bv32)
    ensures ParseIpv4(s) == Some(addr) <==>
      exists a: nat, b: nat, c: nat, d: nat ::
        && a < 256 && b < 256 && c < 256 && d < 256
        && Quad(a, b, c, d) < 0x1_0000_0000 && s == Dotted(a, b, c, d) && addr == Quad(a, b, c, d) as bv32
  {
    hide Decimal, Split, Join, ParseOctet, Quad;
    if ParseIpv4(s) == Some(addr) {
      var parts := Split(s, '.');
      var a, b, c, d := ParseOctet(parts[0]).value, ParseOctet(parts[1]).value, ParseOctet(parts[2]).value,
        ParseOctet(parts[3]).value;
      OctetReads(parts[0], a);
      OctetReads(parts[1], b);
      OctetReads(parts[2], c);
      OctetReads(parts[3], d);
      JoinSplit(s, '.');
      assert parts == [Decimal(a), Decimal(b), Decimal(c), Decimal(d)];
      AddressIs(s, addr, a, b, c, d);
    }
    if a: nat, b: nat, c: nat, d: nat :|
      && a < 256 && b < 256 && c < 256 && d < 256
      && Quad(a, b, c, d) < 0x1_0000_0000 && s == Dotted(a, b, c, d) && addr == Quad(a, b, c, d) as bv32
    {
      DottedSplits(a, b, c, d);
      OctetReads(Decimal(a), a);
      OctetReads(Decimal(b), b);
      OctetReads(Decimal(c), c);
      OctetReads(Decimal(d), d);
      AddressIs(s, addr, a, b, c, d);
    }
  }

  lemma AddressIs(s: string, addr: bv32, a: nat, b: nat, c: nat, d: nat)
    requires |Split(s, '.')| == 4
    requires var parts := Split(s, '.');
      && ParseOctet(parts[0]) == Some(a) && ParseOctet(parts[1]) == Some(b)
      && ParseOctet(parts[2]) == Some(c) && ParseOctet(parts[3]) == Some(d)
    requires a < 256 && b < 256 && c < 256 && d < 256
    ensures Quad(a, b, c, d) < 0x1_0000_0000
    ensures ParseIpv4(s) == Some(addr) <==> addr == Quad(a, b, c, d) as bv32
  {
    hide Split, ParseOctet;
    QuadFits(a, b, c, d);
  }

  lemma DottedSplits(a: nat, b: nat, c: nat, d: nat)
    ensures Split(Dotted(a, b, c, d), '.') == [Decimal(a), Decimal(b), Decimal(c), Decimal(d)]
  {
    DecimalDigits(a);
    DecimalDigits(b);
    DecimalDigits(c);
    DecimalDigits(d);
    hide Decimal, Split, Join;
    SplitJoin([Decimal(a), Decimal(b), Decimal(c), Decimal(d)], '.');
  }

  // ---- ports -------------------------------------------------------------------------------

  predicate PortRange(r: (nat, nat)) { r.0 <= r.1 <= 0xFFFF }

  /** A port, or two with a hyphen between. */
  function RangeText(r: (nat, nat)): string {
    if r.0 == r.1 then Decimal(r.0) else Decimal(r.0) + "-" + Decimal(r.1)
  }

  lemma {:induction false} DigitsTrim(s: string)
    requires AllDigits(s)
    ensures Trim(s) == s
  {
    assert s != [] ==> s[0] in s && s[|s| - 1] in s;
  }

  lemma {:induction false} RangeReads(r: (nat, nat))
    requires PortRange(r)
    ensures ParseRange(RangeText(r)) == Some(r) && ',' !in RangeText(r)
  {
    DecimalDigits(r.0);
    DecimalDigits(r.1);
    DecimalReads(r.0, 0xFFFF);
    DecimalReads(r.1, 0xFFFF);
    hide Decimal, DigitsValue, ParseUint, ParseRange;
    if r.0 == r.1 {
      PortReads(Decimal(r.0), r.0);
    } else {
      PairReads(Decimal(r.0), Decimal(r.1), r.0, r.1);
    }
  }

  lemma {:induction false} PortReads(s: string, n: nat)
    requires AllDigits(s) && ParseUint(s, 0xFFFF) == Some(n)
    ensures ParseRange(s) == Some((n, n))
  {
    DigitsTrim(s);
    hide DigitsValue, ParseUint, Trim;
    assert s[..|s|] == s;
    FindIs(s, '-', |s|);
  }

  lemma {:induction false} PairReads(low: string, high: string, n: nat, m: nat)
    requires low != [] && high != [] && AllDigits(low) && AllDigits(high)
    requires ParseUint(low, 0xFFFF) == Some(n) && ParseUint(high, 0xFFFF) == Some(m) && n <= m
    ensures ParseRange(low + "-" + high) == Some((n, m))
  {
    DigitsTrim(low);
    DigitsTrim(high);
    var s := low + "-" + high;
    EndsTrim(s, low, high);
    hide DigitsValue, ParseUint, Trim;
    assert s[..|low|] == low && s[|low| + 1..] == high;
    FindIs(s, '-', |low|);
  }

  lemma EndsTrim(s: string, low: string, high: string)
    requires s == low + "-" + high && low != [] && high != [] && AllDigits(low) && AllDigits(high)
    ensures Trim(s) == s
  {
    assert s[0] == low[0] && low[0] in low;
    assert s[|s| - 1] == high[|high| - 1] && high[|high| - 1] in high;
  }

  /** Up to 32 ports and ranges with commas between are read as they stand. */
  lemma {:induction false} PortsRead(ranges: seq<(nat, nat)>)
    requires 1 <= |ranges| <= 32 && forall r :: r in ranges ==> PortRange(r)
    ensures ParsedPorts(Join(seq(|ranges|, i requires 0 <= i < |ranges| => RangeText(ranges[i])), ','))
         == Some(PortSpec(ranges))
  {
    hide RangeText, ParseRange, Split, Join;
    var parts := seq(|ranges|, i requires 0 <= i < |ranges| => RangeText(ranges[i]));
    forall i | 0 <= i < |ranges| ensures ParseRange(parts[i]) == Some(ranges[i]) && ',' !in parts[i] {
      assert ranges[i] in ranges;
      RangeReads(ranges[i]);
    }
    SplitJoin(parts, ',');
    assert forall p :: p in parts ==> ParseRange(p).Some?;
    assert ParsedPorts(Join(parts, ',')).value.ranges == ranges;
  }

  // ---- host patterns ---------------------------------------------------------------------------

  /** A name stands for itself, and `*.` before a name for every name that ends with
      its labels. */
  lemma {:induction false} PatternReads(raw: seq<byte>, h: Hostname)
    ensures ParsePattern(raw) == Some(Exact(h)) <==> ParsedName(raw) == Some(h)
    ensures ParsePattern(raw) == Some(Suffix(h)) <==>
      exists name :: raw == [42, 46] + name && ParsedName(name) == Some(h)
  {
    if |raw| >= 2 && raw[0] == 42 && raw[1] == 46 {
      assert raw == [42, 46] + raw[2..];
      StarIsNoName(raw);
    }
    hide ParsedName;
    if name :| raw == [42, 46] + name && ParsedName(name) == Some(h) {
      assert raw[2..] == name;
    }
  }

  lemma {:induction false} StarIsNoName(raw: seq<byte>)
    requires |raw| >= 2 && raw[0] == 42
    ensures ParsedName(raw).None?
  {
    hide Split;
    var s := StripDot(raw);
    assert s != [] && s[0] == 42;
    JoinSplit(s, DOT);
    FirstLabel(s);
  }

  lemma {:induction false} FirstLabel(s: seq<byte>)
    requires s != [] && s[0] == 42
    ensures !AllLabels(Split(s, DOT))
  {
    var first := Split(s, DOT)[0];
    assert first in Split(s, DOT);
    assert first != [] ==> first[0] == 42 && first[0] in first;
  }
}
