/** The ordered, first-match-wins rule list (`rules.rs`). */
module Rules {
  import opened Basics
  import opened Hostnames
  import opened Text

  const MAX_EXIT_KEY: nat := 32
  const MAX_PORT_RANGES: nat := 32

  datatype Action = Direct | Exit(index: nat) | Block

  datatype Proto = Tcp | Udp

  /** An action as the token the stats file carries. */
  type Label = seq<byte>

  function SimpleLabel(action: Action): Label {
    match action
    case Direct => Bytes("direct")
    case Block => Bytes("block")
    case Exit(_) => Bytes("exit")
  }

  function ExitLabel(key: string): Option<Label> {
    if key == [] || |Bytes(key)| > MAX_EXIT_KEY then None else Some(Bytes("exit:" + key))
  }

  // ---- addresses and ports -----------------------------------------------------

  datatype Cidr4 = Cidr4(network: bv32, mask: bv32)

  function Mask(prefix: nat): bv32
    requires prefix <= 32
  {
    if prefix == 0 then 0 else 0xFFFF_FFFF << (32 - prefix)
  }

  function Masked(addr: bv32, mask: bv32): bv32 { addr & mask }

  function ParseCidr(text: string): Option<Cidr4> {
    var slash := Find(text, '/');
    var prefix := if slash < |text| then ParseUint(text[slash + 1..], 0xFFFF_FFFF) else Some(32);
    var addr := ParseIpv4(text[..slash]);
    if prefix.None? || prefix.value > 32 || addr.None? then None
    else Some(Cidr4(Masked(addr.value, Mask(prefix.value)), Mask(prefix.value)))
  }

  predicate CidrContains(c: Cidr4, addr: bv32) { Masked(addr, c.mask) == c.network }

  datatype PortSpec = PortSpec(ranges: seq<(nat, nat)>)

  /** One comma-separated part: a port or an inclusive range. */
  function ParseRange(part: string): Option<(nat, nat)> {
    var text := Trim(part);
    var dash := Find(text, '-');
    if dash < |text| then
      var low, high := ParseUint(Trim(text[..dash]), 0xFFFF), ParseUint(Trim(text[dash + 1..]), 0xFFFF);
      if low.None? || high.None? || low.value > high.value then None else Some((low.value, high.value))
    else
      var port := ParseUint(text, 0xFFFF);
      if port.None? then None else Some((port.value, port.value))
  }

  /** Every part a range, and at most 32 of them. */
  function ParsedPorts(text: string): Option<PortSpec> {
    var parts := Split(text, ',');
    if |parts| > MAX_PORT_RANGES || exists p :: p in parts && ParseRange(p).None? then None
    else Some(PortSpec(seq(|parts|, i requires 0 <= i < |parts| =>
      assert parts[i] in parts; ParseRange(parts[i]).value)))
  }

  method ParsePortSpec(text: string) returns (r: Option<PortSpec>)
    ensures r == ParsedPorts(text)
  {
    var parts := Split(text, ',');
    var ranges: seq<(nat, nat)> := [];
    for k := 0 to |parts|
      invariant |ranges| == k <= MAX_PORT_RANGES
      invariant forall i :: 0 <= i < k ==> ParseRange(parts[i]) == Some(ranges[i])
    {
      if |ranges| >= MAX_PORT_RANGES {
        return None;
      }
      var range := ParseRange(parts[k]);
      if range.None? {
        assert parts[k] in parts;
        return None;
      }
      ranges := ranges + [range.value];
    }
    assert forall p :: p in parts ==> ParseRange(p).Some?;
    assert ParsedPorts(text).value.ranges == ranges;
    r := Some(PortSpec(ranges));
  }

  predicate PortsContain(spec: PortSpec, port: nat) {
    exists r :: r in spec.ranges && r.0 <= port <= r.1
  }

  // ---- rules ---------------------------------------------------------------------

  datatype Rule = Rule(
    seqNo: nat, action: Action, token: Label,
    src: Option<Cidr4>, dst: Option<Cidr4>, proto: Option<Proto>,
    dports: Option<PortSpec>, host: Option<HostPattern>, rateKbps: Option<nat>)

  datatype FlowKey = FlowKey(src: bv32, dst: bv32, dport: nat, host: Option<Hostname>)

  /** Every present condition must hold. All traffic here is TCP, and a host
      condition needs a known host. */
  predicate Matches(rule: Rule, key: FlowKey) {
    if rule.src.Some? && !CidrContains(rule.src.value, key.src) then false
    else if rule.dst.Some? && !CidrContains(rule.dst.value, key.dst) then false
    else if rule.proto == Some(Udp) then false
    else if rule.dports.Some? && !PortsContain(rule.dports.value, key.dport) then false
    else if rule.host.Some? then key.host.Some? && PatternMatches(rule.host.value, key.host.value)
    else true
  }

  /** Position of the first rule that matches. */
  function MatchRule(rules: seq<Rule>, key: FlowKey): (r: Option<nat>)
    ensures r.Some? ==>
      r.value < |rules| && Matches(rules[r.value], key) && forall j :: 0 <= j < r.value ==> !Matches(rules[j], key)
    ensures r.None? ==> forall j :: 0 <= j < |rules| ==> !Matches(rules[j], key)
  {
    if rules == [] then None
    else if Matches(rules[0], key) then Some(0)
    else
      match MatchRule(rules[1..], key)
      case Some(k) => Some(k + 1)
      case None => None
  }

  // ---- what a rule asks ------------------------------------------------------------

  /** Ones in the top `prefix` bits and zeros below. */
  function TopBits(prefix: nat): bv32
    requires prefix <= 32
  {
    !(0xFFFF_FFFF >> prefix)
  }

  /** A netmask: ones down to some bit and zeros below. */
  ghost predicate IsMask(mask: bv32) { exists p: nat :: p <= 32 && mask == TopBits(p) }

  /** The two addresses agree in every bit of the mask. */
  predicate SameNet(a: bv32, b: bv32, mask: bv32) { a & mask == b & mask }

  lemma MaskIsTop(prefix: nat)
    requires prefix <= 32
    ensures Mask(prefix) == TopBits(prefix)
  {
    if prefix < 16 {
      assert prefix == 0 || prefix == 1 || prefix == 2 || prefix == 3 || prefix == 4 || prefix == 5 || prefix == 6
        || prefix == 7 || prefix == 8 || prefix == 9 || prefix == 10 || prefix == 11 || prefix == 12 || prefix == 13
        || prefix == 14 || prefix == 15;
    } else {
      assert prefix == 16 || prefix == 17 || prefix == 18 || prefix == 19 || prefix == 20 || prefix == 21
        || prefix == 22 || prefix == 23 || prefix == 24 || prefix == 25 || prefix == 26 || prefix == 27
        || prefix == 28 || prefix == 29 || prefix == 30 || prefix == 31 || prefix == 32;
    }
  }

  /** A network as a condition holds it. */
  ghost predicate IsNetwork(c: Cidr4) { IsMask(c.mask) && Masked(c.network, c.mask) == c.network }

  ghost predicate Covers(c: Cidr4, addr: bv32) { IsMask(c.mask) && SameNet(addr, c.network, c.mask) }

  lemma ContainsIffCovers(c: Cidr4, addr: bv32)
    requires IsNetwork(c)
    ensures CidrContains(c, addr) <==> Covers(c, addr)
  {
    hide IsMask, Masked, SameNet;
    SameMasked(addr, c.network, c.mask);
  }

  lemma NetworkOf(c: Cidr4, base: bv32, mask: bv32, addr: bv32)
    requires IsMask(mask) && c == Cidr4(Masked(base, mask), mask)
    ensures IsNetwork(c) && (CidrContains(c, addr) <==> SameNet(addr, base, mask))
  {
    hide IsMask, Masked, SameNet;
    MaskedTwice(base, mask);
    SameMasked(addr, base, mask);
  }

  lemma SameMasked(a: bv32, b: bv32, mask: bv32)
    ensures SameNet(a, b, mask) <==> Masked(a, mask) == Masked(b, mask)
  {
  }

  lemma MaskedTwice(base: bv32, mask: bv32)
    ensures Masked(Masked(base, mask), mask) == Masked(base, mask)
  {
  }

  lemma PrefixReads(text: string)
    ensures ParseUint(text, 32).Some? <==>
      ParseUint(text, 0xFFFF_FFFF).Some? && ParseUint(text, 0xFFFF_FFFF).value <= 32
    ensures ParseUint(text, 32).Some? ==> ParseUint(text, 32) == ParseUint(text, 0xFFFF_FFFF)
  {
    hide DigitsValue;
  }

  /** `address/prefix`, or an address alone, is the network of the addresses that
      agree with it in their top `prefix` bits. */
  lemma CidrReads(text: string, addr: bv32)
    ensures ParseCidr(text).Some? <==>
      var slash := Find(text, '/');
      && ParseIpv4(text[..slash]).Some?
      && (slash < |text| ==> ParseUint(text[slash + 1..], 32).Some?)
    ensures ParseCidr(text).Some? ==>
      var slash := Find(text, '/');
      var prefix := if slash < |text| then ParseUint(text[slash + 1..], 32).value else 32;
      && prefix <= 32 && IsNetwork(ParseCidr(text).value)
      && (CidrContains(ParseCidr(text).value, addr) <==>
            SameNet(addr, ParseIpv4(text[..slash]).value, TopBits(prefix)))
  {
    var slash := Find(text, '/');
    if slash < |text| {
      PrefixReads(text[slash + 1..]);
    }
    PrefixWithin(if slash < |text| then text[slash + 1..] else "");
    hide ParseIpv4, ParseUint, Mask, Masked, TopBits, SameNet, CidrContains, IsNetwork, IsMask;
    if ParseCidr(text).Some? {
      var prefix := if slash < |text| then ParseUint(text[slash + 1..], 32).value else 32;
      MaskIsTop(prefix);
      TopIsMask(prefix);
      NetworkOf(ParseCidr(text).value, ParseIpv4(text[..slash]).value, TopBits(prefix), addr);
    }
  }

  lemma PrefixWithin(text: string)
    ensures ParseUint(text, 32).Some? ==> ParseUint(text, 32).value <= 32
  {
    hide DigitsValue;
  }

  lemma TopIsMask(prefix: nat)
    requires prefix <= 32
    ensures IsMask(TopBits(prefix))
  {
    hide TopBits;
  }

  /** Everything a rule asks of a connection holds of it. The host is asked about
      label by label. */
  ghost predicate Applies(rule: Rule, src: bv32, dst: bv32, port: nat, host: Option<Hostname>) {
    && (rule.src.Some? ==> Covers(rule.src.value, src))
    && (rule.dst.Some? ==> Covers(rule.dst.value, dst))
    && rule.proto != Some(Udp)
    && (rule.dports.Some? ==> exists r :: r in rule.dports.value.ranges && r.0 <= port <= r.1)
    && (rule.host.Some? ==> host.Some? && Names(rule.host.value, Split(host.value.bytes, DOT)))
  }

  /** A pattern names a host by all its labels, or by the last of them. */
  ghost predicate Names(p: HostPattern, labels: seq<seq<byte>>) {
    match p
    case Exact(name) => labels == Split(name.bytes, DOT)
    case Suffix(base) => IsSuffix(Split(base.bytes, DOT), labels)
  }

  lemma MatchesNames(p: HostPattern, host: Hostname)
    ensures PatternMatches(p, host) <==> Names(p, Split(host.bytes, DOT))
  {
    match p
    case Exact(name) =>
      JoinSplit(name.bytes, DOT);
      JoinSplit(host.bytes, DOT);
    case Suffix(base) => SuffixIsLabelSuffix(base, host);
  }

  ghost predicate NetworksOk(rule: Rule) {
    (rule.src.Some? ==> IsNetwork(rule.src.value)) && (rule.dst.Some? ==> IsNetwork(rule.dst.value))
  }

  lemma MatchesIffApplies(rule: Rule, key: FlowKey)
    requires NetworksOk(rule)
    ensures Matches(rule, key) <==> Applies(rule, key.src, key.dst, key.dport, key.host)
  {
    hide IsNetwork, Covers, CidrContains, PatternMatches, Names;
    if rule.src.Some? {
      ContainsIffCovers(rule.src.value, key.src);
    }
    if rule.dst.Some? {
      ContainsIffCovers(rule.dst.value, key.dst);
    }
    if rule.host.Some? && key.host.Some? {
      MatchesNames(rule.host.value, key.host.value);
    }
  }

  /** The first rule that applies, or that none does. */
  ghost predicate IsFirst(
      rules: seq<Rule>, src: bv32, dst: bv32, port: nat, host: Option<Hostname>, choice: Option<nat>)
  {
    match choice
    case Some(k) =>
      k < |rules| && Applies(rules[k], src, dst, port, host)
      && forall j :: 0 <= j < k ==> !Applies(rules[j], src, dst, port, host)
    case None => forall j :: 0 <= j < |rules| ==> !Applies(rules[j], src, dst, port, host)
  }

  /** `match_rule` chooses the first rule all of whose conditions hold. */
  lemma {:induction false} ChoosesFirst(rules: seq<Rule>, key: FlowKey, choice: Option<nat>)
    requires forall r :: r in rules ==> NetworksOk(r)
    ensures MatchRule(rules, key) == choice <==> IsFirst(rules, key.src, key.dst, key.dport, key.host, choice)
  {
    hide Applies, Matches, NetworksOk;
    forall j | 0 <= j < |rules|
      ensures Matches(rules[j], key) <==> Applies(rules[j], key.src, key.dst, key.dport, key.host)
    {
      assert rules[j] in rules;
      MatchesIffApplies(rules[j], key);
    }
  }
}
