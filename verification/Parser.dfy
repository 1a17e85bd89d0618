/** The parser's entry point (`parser.rs`), for both kinds of listener. */
module Parser {
  import opened Basics
  import opened Hostnames
  import opened Prelude
  import opened ConfigFile
  import Tls
  import Http
  import TlsTheorems
  import TlsEvidence
  import HttpTheorems
  import HttpEvidence

  function PeekVerdict(mode: PeekMode, stream: seq<byte>): Peek {
    match mode
    case TlsMode => Tls.TlsVerdict(stream)
    case HttpMode => Http.HttpVerdict(stream)
  }

  method PeekHead(mode: PeekMode, stream: seq<byte>) returns (r: Peek)
    ensures r == PeekVerdict(mode, stream)
  {
    match mode
    case TlsMode => r := Tls.PeekTls(stream);
    case HttpMode => r := Http.PeekHttpHost(stream);
  }

  /** TCP segmentation never changes a verdict: once conclusive on what has
      arrived, it stays the same whatever arrives later, up to the peek limit. */
  lemma VerdictStable(mode: PeekMode, stream: seq<byte>, more: seq<byte>)
    requires |stream + more| <= MAX_PEEK
    requires PeekVerdict(mode, stream) != NeedMore
    ensures PeekVerdict(mode, stream + more) == PeekVerdict(mode, stream)
  {
    match mode
    case TlsMode => TlsTheorems.TlsVerdictStable(stream, more);
    case HttpMode => HttpTheorems.HttpVerdictStable(stream, more);
  }

  /** At the peek limit the answer is always conclusive. */
  lemma ConclusiveAtLimit(mode: PeekMode, stream: seq<byte>)
    requires |stream| >= MAX_PEEK
    ensures PeekVerdict(mode, stream) != NeedMore
  {
    match mode
    case TlsMode => TlsTheorems.WalkAtLimit(|stream|, stream, [], None, FUEL);
    case HttpMode =>
      var lines := Http.CompleteLines(stream);
      if lines != [] {
        HttpTheorems.WalkAtLimit(|stream|, lines[1..], None, 0, Http.MAX_HEADER_LINES);
      }
  }

  /** The stream names this host: in a ClientHello on a TLS listener, in a request on
      an HTTP listener. */
  ghost predicate NamedBy(mode: PeekMode, stream: seq<byte>, host: Hostname) {
    match mode
    case TlsMode => exists e :: TlsEvidence.Carries(stream, e) && ParsedName(TlsEvidence.NameIn(e)) == Some(host)
    case HttpMode => exists r, rest :: HttpEvidence.Carries(stream, r, rest) && ParsedName(r.host.name) == Some(host)
  }

  /** On either kind of listener a host is found exactly when the stream names it. */
  lemma HostFoundIff(mode: PeekMode, stream: seq<byte>, host: Hostname)
    ensures PeekVerdict(mode, stream) == HostFound(host) <==> NamedBy(mode, stream, host)
  {
    hide Tls.TlsVerdict, Http.HttpVerdict, TlsEvidence.Carries, HttpEvidence.Carries;
    match mode
    case TlsMode => TlsEvidence.HostFoundIffCarried(stream, host);
    case HttpMode => HttpEvidence.HostFoundIffRequested(stream, host);
  }

  /** The stream may be the beginning of what the listener is for. */
  ghost predicate Begun(mode: PeekMode, stream: seq<byte>) {
    && |stream| < 8192
    && match mode
       case TlsMode => exists recs, part :: TlsEvidence.Begins(stream, recs, part)
       case HttpMode => HttpEvidence.MayBeRequest(stream)
  }

  /** And more is waited for exactly while it may. */
  lemma WaitsIff(mode: PeekMode, stream: seq<byte>)
    ensures PeekVerdict(mode, stream) == NeedMore <==> Begun(mode, stream)
  {
    hide Tls.TlsVerdict, Http.HttpVerdict, TlsEvidence.Begins, HttpEvidence.MayBeRequest;
    match mode
    case TlsMode => TlsEvidence.WaitsIff(stream);
    case HttpMode => HttpEvidence.WaitsIff(stream);
  }
}
