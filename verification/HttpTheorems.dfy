/** What `peek_http_host` answers, and that TCP segmentation never changes it. */
module HttpTheorems {
  import opened Basics
  import opened Hostnames
  import opened Prelude
  import opened Http

  // ---- exactly when a host is found -------------------------------------------------

  /** The values of the `host:` lines, in order. */
  function HostValues(lines: seq<seq<byte>>): seq<seq<byte>> {
    if lines == [] then []
    else
      match HeaderValue(lines[0], HOST)
      case Some(v) => [v] + HostValues(lines[1..])
      case None => HostValues(lines[1..])
  }

  /** A header line that does not spoil the request. */
  predicate Tolerable(line: seq<byte>) { 1 <= |line| <= MAX_HEADER_LINE && !IsOws(line[0]) }

  /** The header lines: complete lines after the first, up to the first empty one. */
  function Headers(lines: seq<seq<byte>>): seq<seq<byte>> { lines[..Find(lines, [])] }

  lemma {:induction false} WalkFinds(
      s: nat, lines: seq<seq<byte>>, host: Option<Hostname>, count: nat, fuel: nat, found: Hostname)
    ensures HeaderWalk(s, lines, host, count, fuel) == HostFound(found) <==>
      && [] in lines
      && |Headers(lines)| < fuel
      && (forall l :: l in Headers(lines) ==> Tolerable(l))
      && count + |HostValues(Headers(lines))| == 1
      && Some(found) == (if HostValues(Headers(lines)) == [] then host else HostOf(HostValues(Headers(lines))[0]))
    decreases |lines|
  {
    hide HeaderValue, HostOf;
    if lines != [] {
      var headers, rest := Headers(lines), lines[1..];
      if lines[0] == [] {
        assert headers == [];
      } else {
        assert headers == [lines[0]] + Headers(rest);
        assert headers[1..] == Headers(rest);
        assert [] in lines <==> [] in rest;
        assert (forall l :: l in headers ==> Tolerable(l))
          <==> Tolerable(lines[0]) && forall l :: l in Headers(rest) ==> Tolerable(l) by {
          assert headers[0] in headers;
          assert forall l :: l in headers <==> l == lines[0] || l in Headers(rest);
        }
        if fuel > 0 {
          match HeaderValue(lines[0], HOST)
          case Some(v) => WalkFinds(s, rest, HostOf(v), count + 1, fuel - 1, found);
          case None => WalkFinds(s, rest, host, count, fuel - 1, found);
        }
      }
    }
  }

  /** A valid request line leads with an acceptable method and a space. */
  lemma RequestLineIsPlausible(stream: seq<byte>)
    requires CompleteLines(stream) != [] && IsRequestLine(CompleteLines(stream)[0])
    ensures Plausible(stream)
  {
    FirstLine(stream);
    var i := Find(stream, LF);
    var line := StripCr(stream[..i]);
    var space, k := Find(line, SP), UpperRun(stream);
    assert forall j :: 0 <= j < |line| ==> line[j] == stream[j];
    forall j | 0 <= j < space ensures IsUpper(stream[j]) {
      assert line[..space][j] in line[..space];
    }
    assert k == space;
  }

  /** `peek_http_host` names a host exactly when the request line is valid, the
      blank line comes after at most 127 header lines, none of them too long or
      folded, and exactly one is a `host:` line, whose value validates. */
  lemma HostFoundIff(stream: seq<byte>, host: Hostname)
    ensures HttpVerdict(stream) == HostFound(host) <==>
      var lines := CompleteLines(stream);
      && lines != []
      && IsRequestLine(lines[0])
      && [] in lines[1..]
      && |Headers(lines[1..])| < MAX_HEADER_LINES
      && (forall l :: l in Headers(lines[1..]) ==> Tolerable(l))
      && |HostValues(Headers(lines[1..]))| == 1
      && HostOf(HostValues(Headers(lines[1..]))[0]) == Some(host)
  {
    hide IsRequestLine, Plausible, HeaderWalk, HostOf, CompleteLines, HostValues;
    var lines := CompleteLines(stream);
    if lines != [] && IsRequestLine(lines[0]) {
      RequestLineIsPlausible(stream);
      WalkFinds(|stream|, lines[1..], None, 0, MAX_HEADER_LINES, host);
    }
  }

  // ---- TCP segmentation -----------------------------------------------------------------

  lemma {:induction false} FindMore(s: seq<byte>, more: seq<byte>, x: byte)
    ensures Find(s, x) < |s| ==> Find(s + more, x) == Find(s, x)
  {
    var i := Find(s, x);
    if i < |s| {
      assert (s + more)[..i] == s[..i];
      FindIs(s + more, x, i);
    }
  }

  /** More bytes only append lines. */
  lemma {:induction false} LinesMore(s: seq<byte>, more: seq<byte>) returns (extra: seq<seq<byte>>)
    ensures CompleteLines(s + more) == CompleteLines(s) + extra
    decreases |s|
  {
    hide CompleteLines, StripCr;
    FirstLine(s);
    var i := Find(s, LF);
    if i == |s| {
      extra := CompleteLines(s + more);
      assert [] + extra == extra;
    } else {
      FindMore(s, more, LF);
      FirstLine(s + more);
      assert (s + more)[..i] == s[..i];
      assert (s + more)[i + 1..] == s[i + 1..] + more;
      extra := LinesMore(s[i + 1..], more);
      Assoc([StripCr(s[..i])], CompleteLines(s[i + 1..]), extra);
    }
  }

  lemma {:induction false} WalkMore(
      s: nat, lines: seq<seq<byte>>, host: Option<Hostname>, count: nat, fuel: nat, t: nat, extra: seq<seq<byte>>)
    requires HeaderWalk(s, lines, host, count, fuel) != NeedMore
    requires s < MAX_PEEK
    ensures HeaderWalk(t, lines + extra, host, count, fuel) == HeaderWalk(s, lines, host, count, fuel)
    decreases |lines|
  {
    hide HeaderValue, HostOf;
    if fuel > 0 && lines != [] {
      assert (lines + extra)[0] == lines[0] && (lines + extra)[1..] == lines[1..] + extra;
      if Tolerable(lines[0]) {
        match HeaderValue(lines[0], HOST)
        case Some(v) => WalkMore(s, lines[1..], HostOf(v), count + 1, fuel - 1, t, extra);
        case None => WalkMore(s, lines[1..], host, count, fuel - 1, t, extra);
      }
    }
  }

  lemma ImplausibleStays(s: seq<byte>, more: seq<byte>)
    ensures !Plausible(s) ==> !Plausible(s + more)
  {
    var k, n := UpperRun(s), UpperRun(s + more);
    assert forall i :: 0 <= i < |s| ==> (s + more)[i] == s[i];
    assert k < |s| ==> n == k;
  }

  lemma HttpVerdictStable(stream: seq<byte>, more: seq<byte>)
    requires |stream + more| <= MAX_PEEK
    requires HttpVerdict(stream) != NeedMore
    ensures HttpVerdict(stream + more) == HttpVerdict(stream)
  {
    hide IsRequestLine, Plausible, HeaderWalk, HostOf, CompleteLines;
    if more == [] {
      assert stream + more == stream;
    } else {
      ImplausibleStays(stream, more);
      var extra := LinesMore(stream, more);
      var lines, all := CompleteLines(stream), CompleteLines(stream + more);
      if Plausible(stream) && lines != [] {
        assert all[0] == lines[0] && all[1..] == lines[1..] + extra;
        if IsRequestLine(lines[0]) {
          RequestLineIsPlausible(stream + more);
          WalkMore(|stream|, lines[1..], None, 0, MAX_HEADER_LINES, |stream + more|, extra);
        }
      }
    }
  }

  lemma {:induction false} WalkAtLimit(s: nat, lines: seq<seq<byte>>, host: Option<Hostname>, count: nat, fuel: nat)
    requires s >= MAX_PEEK
    ensures HeaderWalk(s, lines, host, count, fuel) != NeedMore
    decreases |lines|
  {
    hide HeaderValue, HostOf;
    if fuel > 0 && lines != [] {
      match HeaderValue(lines[0], HOST)
      case Some(v) => WalkAtLimit(s, lines[1..], HostOf(v), count + 1, fuel - 1);
      case None => WalkAtLimit(s, lines[1..], host, count, fuel - 1);
    }
  }
}
