/** Host names (`hostname.rs`): the one-pass validator, its normal form, and
    the `*.` suffix pattern. */
module Hostnames {
  import opened Basics

  const MAX_HOSTNAME: nat := 253
  const MAX_LABEL: nat := 63
  const DOT: byte := 46
  const HYPHEN: byte := 45
  const STAR: byte := 42

  /** A validated, lowercased name. The fixed array and its length byte are one
      value here: the bytes up to the length. */
  datatype Hostname = Hostname(bytes: seq<byte>)

  function AsciiLower(b: byte): byte { if 65 <= b <= 90 then b + 32 else b }

  predicate IsLdh(b: byte) {
    48 <= b <= 57 || 65 <= b <= 90 || 97 <= b <= 122 || b == HYPHEN
  }

  function Lowered(s: seq<byte>): (r: seq<byte>)
    ensures |r| == |s|
    ensures forall i :: 0 <= i < |s| ==> r[i] == AsciiLower(s[i])
  {
    seq(|s|, i requires 0 <= i < |s| => AsciiLower(s[i]))
  }

  /** One LDH label (section 2.3.1 of RFC 5890, section 2.3.4 of RFC 1035). */
  predicate IsLabel(l: seq<byte>) {
    && 1 <= |l| <= MAX_LABEL
    && (forall b :: b in l ==> IsLdh(b))
    && l[0] != HYPHEN
    && l[|l| - 1] != HYPHEN
  }

  predicate AllLabels(ls: seq<seq<byte>>) { forall l :: l in ls ==> IsLabel(l) }

  /** `example.com.` and `example.com` are one name. */
  function StripDot(raw: seq<byte>): seq<byte> {
    if |raw| > 0 && raw[|raw| - 1] == DOT then raw[..|raw| - 1] else raw
  }

  /** What validation means: at most 253 bytes, every dot-separated piece a label. */
  predicate IsName(s: seq<byte>) {
    |s| <= MAX_HOSTNAME && AllLabels(Split(s, DOT))
  }

  function ParsedName(raw: seq<byte>): Option<Hostname> {
    if IsName(StripDot(raw)) then Some(Hostname(Lowered(StripDot(raw)))) else None
  }

  /** A value only `Parse` can produce. */
  ghost predicate Validated(h: Hostname) {
    IsName(h.bytes) && Lowered(h.bytes) == h.bytes
  }

  // ---- the scan ---------------------------------------------------------

  /** Bytes seen of the label being scanned are acceptable so far. */
  ghost predicate LabelPrefix(l: seq<byte>) {
    |l| <= MAX_LABEL && (forall b :: b in l ==> IsLdh(b)) && (|l| > 0 ==> l[0] != HYPHEN)
  }

  /** Having read `i` bytes, the last `n` of them an unfinished label: whether
      `s` is a list of labels hangs on what starts at that label. */
  ghost predicate Scanned(s: seq<byte>, i: nat, n: nat) {
    && n <= i <= |s|
    && DOT !in s[i - n..i]
    && LabelPrefix(s[i - n..i])
    && (AllLabels(Split(s, DOT)) <==> AllLabels(Split(s[i - n..], DOT)))
  }

  /** A label begins with every prefix of itself, so a bad prefix spoils the name. */
  lemma BadPrefixSpoils(s: seq<byte>, n: nat)
    requires n <= |s| && DOT !in s[..n] && !LabelPrefix(s[..n])
    ensures !AllLabels(Split(s, DOT))
  {
    NotInPrefix(s, DOT, n);
    var first := Split(s, DOT)[0];
    assert first[..n] == s[..n];
    assert first in Split(s, DOT);
    assert (forall b :: b in first ==> IsLdh(b)) ==> forall b :: b in s[..n] ==> IsLdh(b) by {
      assert forall b :: b in s[..n] ==> b in first;
    }
  }

  lemma AllLabelsCons(l: seq<byte>, rest: seq<seq<byte>>)
    ensures AllLabels([l] + rest) <==> IsLabel(l) && AllLabels(rest)
  {
    assert ([l] + rest)[0] == l;
    assert forall m :: m in [l] + rest <==> m == l || m in rest;
  }

  /** A good prefix is a label once it is not empty and does not end in a hyphen. */
  lemma LabelWhole(l: seq<byte>)
    requires LabelPrefix(l)
    ensures IsLabel(l) <==> l != [] && l[|l| - 1] != HYPHEN
  {
  }

  lemma DotSplits(s: seq<byte>, i: nat, n: nat)
    requires n <= i < |s| && s[i] == DOT && DOT !in s[i - n..i]
    ensures Split(s[i - n..], DOT) == [s[i - n..i]] + Split(s[i + 1..], DOT)
  {
    hide Split;
    assert s[i - n..] == s[i - n..i] + [DOT] + s[i + 1..];
    SplitAt(s[i - n..i], DOT, s[i + 1..]);
  }

  lemma ScanDot(s: seq<byte>, i: nat, n: nat)
    requires i < |s| && Scanned(s, i, n) && s[i] == DOT
    ensures if n == 0 || s[i - 1] == HYPHEN then !AllLabels(Split(s, DOT)) else Scanned(s, i + 1, 0)
  {
    var l := s[i - n..i];
    LabelWhole(l);
    EmptyPrefix(s[i + 1..i + 1]);
    hide Split, AllLabels, IsLabel, LabelPrefix;
    DotSplits(s, i, n);
    AllLabelsCons(l, Split(s[i + 1..], DOT));
    assert n > 0 ==> l[n - 1] == s[i - 1];
  }

  lemma EmptyPrefix(l: seq<byte>)
    requires |l| == 0
    ensures LabelPrefix(l)
  {
  }

  lemma ScanByte(s: seq<byte>, i: nat, n: nat)
    requires i < |s| && Scanned(s, i, n) && s[i] != DOT
    ensures if !IsLdh(s[i]) || (n == 0 && s[i] == HYPHEN) || n + 1 > MAX_LABEL
            then !AllLabels(Split(s, DOT))
            else Scanned(s, i + 1, n + 1)
  {
    hide Split, AllLabels, IsLabel;
    var tail, l := s[i - n..], s[i - n..i];
    assert tail[..n + 1] == l + [s[i]] == s[i + 1 - (n + 1)..i + 1];
    if !LabelPrefix(tail[..n + 1]) {
      BadPrefixSpoils(tail, n + 1);
    }
    assert s[i] in tail[..n + 1];
  }

  lemma ScanEnd(s: seq<byte>, n: nat)
    requires Scanned(s, |s|, n)
    ensures AllLabels(Split(s, DOT)) <==> n > 0 && s[|s| - 1] != HYPHEN
  {
    var last := s[|s| - n..];
    assert last == s[|s| - n..|s|];
    SplitWhole(last, DOT);
    assert last in Split(last, DOT);
    assert n > 0 ==> last[n - 1] == s[|s| - 1];
  }

  lemma EmptyIsNoName()
    ensures !AllLabels(Split([], DOT))
  {
    assert Split([], DOT)[0] == [];
    assert Split([], DOT)[0] in Split([], DOT);
  }

  /** The verdict of scanning on from byte `i` with `n` bytes of a label read. */
  predicate ScanFrom(s: seq<byte>, i: nat, n: nat)
    requires n <= i <= |s|
    decreases |s| - i
  {
    if i == |s| then n > 0 && s[i - 1] != HYPHEN
    else if s[i] == DOT then n > 0 && s[i - 1] != HYPHEN && ScanFrom(s, i + 1, 0)
    else IsLdh(s[i]) && !(n == 0 && s[i] == HYPHEN) && n + 1 <= MAX_LABEL && ScanFrom(s, i + 1, n + 1)
  }

  /** Scanning decides whether every piece is a label. */
  lemma {:induction false} ScanDecides(s: seq<byte>, i: nat, n: nat)
    requires Scanned(s, i, n)
    ensures ScanFrom(s, i, n) <==> AllLabels(Split(s, DOT))
    decreases |s| - i
  {
    hide Split, AllLabels;
    if i == |s| {
      ScanEnd(s, n);
    } else if s[i] == DOT {
      ScanDot(s, i, n);
      if n > 0 && s[i - 1] != HYPHEN {
        ScanDecides(s, i + 1, 0);
      }
    } else {
      ScanByte(s, i, n);
      if IsLdh(s[i]) && !(n == 0 && s[i] == HYPHEN) && n + 1 <= MAX_LABEL {
        ScanDecides(s, i + 1, n + 1);
      }
    }
  }

  lemma ScanDecidesAll(s: seq<byte>)
    ensures ScanFrom(s, 0, 0) <==> AllLabels(Split(s, DOT))
  {
    assert s[0..] == s;
    ScanDecides(s, 0, 0);
  }

  /** The validator, as the single pass over a fixed buffer that the source makes. */
  method Parse(raw: seq<byte>) returns (r: Option<Hostname>)
    ensures r == ParsedName(raw)
  {
    hide Split, AllLabels, IsLabel;
    var s := StripDot(raw);
    if s == [] || |s| > MAX_HOSTNAME {
      EmptyIsNoName();
      return None;
    }
    var bytes := new byte[MAX_HOSTNAME](_ => 0);
    var labelLen: nat := 0;
    // As if a label had just ended, so a leading `-` or `.` is caught too.
    var prev := DOT;
    var i := 0;
    ScanDecidesAll(s);
    while i < |s|
      invariant labelLen <= i <= |s|
      invariant ScanFrom(s, 0, 0) == ScanFrom(s, i, labelLen)
      invariant labelLen > 0 ==> prev == AsciiLower(s[i - 1])
      invariant forall k :: 0 <= k < i ==> bytes[k] == AsciiLower(s[k])
    {
      var b := s[i];
      if b == DOT {
        if labelLen == 0 || prev == HYPHEN {
          return None;
        }
        labelLen := 0;
      } else {
        if !IsLdh(b) {
          return None;
        }
        if labelLen == 0 && b == HYPHEN {
          return None;
        }
        labelLen := labelLen + 1;
        if labelLen > MAX_LABEL {
          return None;
        }
      }
      bytes[i] := AsciiLower(b);
      prev := AsciiLower(b);
      i := i + 1;
    }
    if labelLen == 0 || prev == HYPHEN {
      return None;
    }
    assert bytes[..|s|] == Lowered(s);
    return Some(Hostname(bytes[..|s|]));
  }

  // ---- what the validator accepts ----------------------------------------

  lemma {:induction false} LoweredSplit(s: seq<byte>)
    ensures |Split(Lowered(s), DOT)| == |Split(s, DOT)|
    ensures forall k :: 0 <= k < |Split(s, DOT)| ==> Split(Lowered(s), DOT)[k] == Lowered(Split(s, DOT)[k])
    decreases |s|
  {
    var i := Find(s, DOT);
    var low := Lowered(s);
    NotInPrefix(s, DOT, i);
    assert DOT !in low[..i];
    FindIs(low, DOT, i);
    if i < |s| {
      LoweredSplit(s[i + 1..]);
      assert low[i + 1..] == Lowered(s[i + 1..]);
      assert low[..i] == Lowered(s[..i]);
    }
  }

  lemma LoweredLabel(l: seq<byte>)
    ensures IsLabel(Lowered(l)) <==> IsLabel(l)
  {
    if IsLabel(Lowered(l)) {
      forall b | b in l ensures IsLdh(b) {
        var k :| 0 <= k < |l| && l[k] == b;
        assert Lowered(l)[k] in Lowered(l);
      }
    }
  }

  lemma LoweredName(s: seq<byte>)
    requires IsName(s)
    ensures IsName(Lowered(s))
  {
    LoweredSplit(s);
    forall l | l in Split(Lowered(s), DOT) ensures IsLabel(l) {
      var k :| 0 <= k < |Split(s, DOT)| && l == Lowered(Split(s, DOT)[k]);
      LoweredLabel(Split(s, DOT)[k]);
    }
  }

  lemma EndsInDot(s: seq<byte>)
    requires s != []
    ensures s[|s| - 1] == DOT ==> [] in Split(s, DOT)
  {
    if s[|s| - 1] == DOT {
      assert s == s[..|s| - 1] + [DOT] + [];
      SplitAppend(s[..|s| - 1], DOT, []);
      SplitWhole<byte>([], DOT);
    }
  }

  lemma NameHasNoTrailingDot(s: seq<byte>)
    requires IsName(s)
    ensures |s| > 0 && StripDot(s) == s
  {
    EmptyIsNoName();
    if s != [] {
      EndsInDot(s);
    }
  }

  /** Letters, digits and hyphens, 1 to 63 of them, a hyphen neither first nor last. */
  predicate LabelText(l: seq<byte>) {
    && 1 <= |l| <= 63
    && (forall b :: b in l ==> 48 <= b <= 57 || 65 <= b <= 90 || 97 <= b <= 122 || b == 45)
    && l[0] != 45 && l[|l| - 1] != 45
  }

  predicate SameInLowerCase(s: seq<byte>, low: seq<byte>) {
    |low| == |s| && forall i :: 0 <= i < |s| ==> low[i] == if 65 <= s[i] <= 90 then s[i] + 32 else s[i]
  }

  /** How a name is written: labels with dots between, and perhaps one at the end. */
  ghost predicate Spells(raw: seq<byte>, ls: seq<seq<byte>>, name: seq<byte>) {
    && |ls| > 0 && (forall l :: l in ls ==> LabelText(l)) && |Join(ls, 46)| <= 253
    && (raw == Join(ls, 46) || raw == Join(ls, 46) + [46])
    && SameInLowerCase(Join(ls, 46), name)
  }

  /** The accepted inputs are exactly the dot-joined label lists of at most 253
      bytes, with or without one trailing dot, and the name is theirs in lower case. */
  lemma {:induction false} AcceptsExactlyLabelLists(raw: seq<byte>, h: Hostname)
    ensures ParsedName(raw) == Some(h) <==> exists ls :: Spells(raw, ls, h.bytes)
  {
    hide Split, Join;
    var s := StripDot(raw);
    if ParsedName(raw) == Some(h) {
      JoinSplit(s, DOT);
      assert raw == s || raw == s + [46];
      assert Spells(raw, Split(s, DOT), h.bytes);
    }
    if exists ls :: Spells(raw, ls, h.bytes) {
      var ls :| Spells(raw, ls, h.bytes);
      forall p | p in ls ensures DOT !in p {
      }
      SplitJoin(ls, DOT);
      var name := Join(ls, DOT);
      assert AllLabels(Split(name, DOT));
      NameHasNoTrailingDot(name);
      assert StripDot(name + [46]) == name;
      assert Lowered(name) == h.bytes;
    }
  }

  /** The output is a normal form: non-empty, lowercase, and re-parsing it gives
      it back. */
  lemma ParseIsIdempotent(raw: seq<byte>)
    requires ParsedName(raw).Some?
    ensures Validated(ParsedName(raw).value)
    ensures ParsedName(raw).value.bytes == Lowered(StripDot(raw))
    ensures ParsedName(ParsedName(raw).value.bytes) == ParsedName(raw)
  {
    var s := StripDot(raw);
    LoweredName(s);
    NameHasNoTrailingDot(Lowered(s));
    assert Lowered(Lowered(s)) == Lowered(s);
  }

  /** Case and one trailing dot never change the answer, so neither can be used
      to slip past a host rule. */
  lemma ParseIgnoresCaseAndTrailingDot(a: seq<byte>, b: seq<byte>)
    requires Lowered(StripDot(a)) == Lowered(StripDot(b))
    ensures ParsedName(a) == ParsedName(b)
  {
    var s, t := StripDot(a), StripDot(b);
    LoweredSplit(s);
    LoweredSplit(t);
    forall k | 0 <= k < |Split(s, DOT)|
      ensures IsLabel(Split(s, DOT)[k]) <==> IsLabel(Split(t, DOT)[k])
    {
      LoweredLabel(Split(s, DOT)[k]);
      LoweredLabel(Split(t, DOT)[k]);
    }
    assert |s| == |Lowered(s)| == |t|;
  }

  // ---- patterns -----------------------------------------------------------

  datatype HostPattern = Exact(name: Hostname) | Suffix(base: Hostname)

  function ParsePattern(raw: seq<byte>): Option<HostPattern> {
    if |raw| >= 2 && raw[0] == STAR && raw[1] == DOT then
      match ParsedName(raw[2..])
      case Some(h) => Some(Suffix(h))
      case None => None
    else
      match ParsedName(raw)
      case Some(h) => Some(Exact(h))
      case None => None
  }

  /** The byte-level test the source makes. */
  predicate PatternMatches(p: HostPattern, host: Hostname) {
    var observed := host.bytes;
    match p
    case Exact(want) => observed == want.bytes
    case Suffix(baseName) =>
      var base := baseName.bytes;
      if observed == base then true
      else
        var cut := |observed| - |base|;
        if cut < 1 then false
        else observed[cut - 1] == DOT && observed[cut..] == base
  }

  ghost predicate IsSuffix<T>(a: seq<T>, b: seq<T>) {
    |a| <= |b| && b[|b| - |a|..] == a
  }

  /** `*.base` matches exactly the names whose label list ends with the label
      list of `base`, the apex included: a whole-label test, never a byte-suffix
      one. */
  lemma SuffixIsLabelSuffix(base: Hostname, host: Hostname)
    ensures PatternMatches(Suffix(base), host) <==> IsSuffix(Split(base.bytes, DOT), Split(host.bytes, DOT))
  {
    hide Split, Join;
    var b, h := base.bytes, host.bytes;
    var bs, hs := Split(b, DOT), Split(h, DOT);
    if PatternMatches(Suffix(base), host) && h != b {
      var cut := |h| - |b|;
      assert h == h[..cut - 1] + [DOT] + b;
      SplitAppend(h[..cut - 1], DOT, b);
    }
    if IsSuffix(bs, hs) {
      JoinSplit(b, DOT);
      JoinSplit(h, DOT);
      var front := hs[..|hs| - |bs|];
      assert hs == front + bs;
      if front == [] {
        assert hs == bs;
      } else {
        JoinAppend(front, bs, DOT);
        assert h == Join(front, DOT) + [DOT] + b;
      }
    }
  }
}
