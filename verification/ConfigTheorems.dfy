/** What the configuration parser guarantees: the order of unlike records does
    not matter, and every accepted configuration is well formed. */
module ConfigTheorems {
  import opened Basics
  import opened Text
  import opened Hostnames
  import opened Rules
  import opened ConfigFile

  // ---- reading a file without its line numbers --------------------------------------

  function Significant(lines: seq<string>): seq<string> {
    if lines == [] then []
    else
      var before, line := Significant(lines[..|lines| - 1]), Trim(lines[|lines| - 1]);
      if Skipped(line) then before else before + [line]
  }

  /** A draft with its line numbers blanked. */
  function Erased(d: Draft): Draft {
    d.(pending := seq(|d.pending|, i requires 0 <= i < |d.pending| => (d.pending[i].0, 0)),
       defaultAction := if d.defaultAction.Some? then Some((d.defaultAction.value.0, 0)) else None)
  }

  function Apply(d: Draft, line: string): Option<Draft> {
    match Record(d, line, 0)
    case Ok(next) => Some(next)
    case Err(_) => None
  }

  /** All records applied in order. */
  function Fold<S>(lines: seq<string>, s: S, f: (S, string) -> Option<S>): Option<S> {
    if lines == [] then Some(s)
    else
      match Fold(lines[..|lines| - 1], s, f)
      case Some(before) => f(before, lines[|lines| - 1])
      case None => None
  }

  lemma RecordErased(d: Draft, line: string, number: nat)
    ensures match Record(d, line, number)
            case Ok(next) => Apply(Erased(d), line) == Some(Erased(next))
            case Err(_) => Apply(Erased(d), line) == None
  {
    hide ListenRecord, ExitRecord, RuleRecord, LimitsRecord, KindOf, Split;
    var e := Erased(d);
    match KindOf(line)
    case RuleLine =>
      var rule := RuleRecord(|d.pending|, Split(line, ' '));
      if rule.Ok? {
        var next := d.(pending := d.pending + [(rule.value, number)]);
        assert Erased(next).pending == e.pending + [(rule.value, 0)];
      }
    case _ =>
  }

  /** A build agrees with folding the record lines that follow the header. */
  ghost predicate Agrees(built: Result<Option<Draft>, ConfigError>, s: seq<string>) {
    if s == [] then built == Ok(None)
    else if HeaderCheck(s[0]).Err? then built.Err?
    else
      match Fold(s[1..], EMPTY_DRAFT, Apply)
      case Some(d) => built.Ok? && built.value.Some? && Erased(built.value.value) == d
      case None => built.Err?
  }

  lemma AgreesStep(before: Option<Draft>, s: seq<string>, line: string, number: nat)
    requires Agrees(Ok(before), s) && !Skipped(line)
    ensures Agrees(Line(before, line, number), s + [line])
  {
    hide Record, HeaderCheck;
    if s == [] {
      assert (s + [line])[1..] == [];
      assert Erased(EMPTY_DRAFT) == EMPTY_DRAFT;
    } else {
      assert (s + [line])[1..] == s[1..] + [line];
      FoldSnoc(s[1..], line, EMPTY_DRAFT, Apply);
      RecordErased(before.value, line, number);
    }
  }

  lemma AgreesFail(e: ConfigError, s: seq<string>, line: string)
    requires Agrees(Err(e), s)
    ensures Agrees(Err(e), s + [line])
  {
    hide Record, HeaderCheck;
    if s != [] {
      assert (s + [line])[1..] == s[1..] + [line];
      FoldSnoc(s[1..], line, EMPTY_DRAFT, Apply);
    }
  }

  /** Line numbers only serve error reports. */
  lemma {:induction false} BuiltErased(lines: seq<string>, n: nat)
    requires n <= |lines| && n <= MAX_LINES
    ensures Agrees(Built(lines, n), Significant(lines[..n]))
    decreases n
  {
    hide Agrees, Trim, Record, HeaderCheck, Split;
    if n == 0 {
      EmptyAgrees();
    } else {
      BuiltErased(lines, n - 1);
      assert lines[..n][..n - 1] == lines[..n - 1];
      var line, before, s := Trim(lines[n - 1]), Built(lines, n - 1), Significant(lines[..n - 1]);
      if !Skipped(line) {
        assert Significant(lines[..n]) == s + [line];
        if before.Ok? {
          AgreesStep(before.value, s, line, n);
        } else {
          AgreesFail(before.error, s, line);
        }
      }
    }
  }

  lemma EmptyAgrees()
    ensures Agrees(Ok(None), [])
  {
  }

  // ---- five independent folds -----------------------------------------------------------

  function Of(lines: seq<string>, kind: RecordKind): seq<string> {
    if lines == [] then []
    else
      var before, line := Of(lines[..|lines| - 1], kind), lines[|lines| - 1];
      if KindOf(line) == kind then before + [line] else before
  }

  function ToOption<T>(r: Result<T, ErrorKind>): Option<T> {
    match r
    case Ok(v) => Some(v)
    case Err(_) => None
  }

  function ListenOn(s: seq<Listener>, line: string): Option<seq<Listener>> {
    ToOption(ListenRecord(s, Split(line, ' ')))
  }

  function ExitOn(s: seq<ExitDecl>, line: string): Option<seq<ExitDecl>> {
    ToOption(ExitRecord(s, Split(line, ' ')))
  }

  function DefaultOn(s: Option<(string, nat)>, line: string): Option<Option<(string, nat)>> {
    match DefaultRecord(s.Some?, Split(line, ' '))
    case Ok(text) => Some(Some((text, 0)))
    case Err(_) => None
  }

  function RuleOn(s: seq<(PendingRule, nat)>, line: string): Option<seq<(PendingRule, nat)>> {
    match RuleRecord(|s|, Split(line, ' '))
    case Ok(rule) => Some(s + [(rule, 0)])
    case Err(_) => None
  }

  function LimitsOn(s: Option<Limits>, line: string): Option<Option<Limits>> {
    match LimitsRecord(Split(line, ' '))
    case Ok(l) => Some(Some(l))
    case Err(_) => None
  }

  /** The draft that each kind's own lines determine. */
  function Product(lines: seq<string>): Option<Draft> {
    var ls := Fold(Of(lines, ListenLine), EMPTY_DRAFT.listeners, ListenOn);
    var es := Fold(Of(lines, ExitLine), EMPTY_DRAFT.exits, ExitOn);
    var ps := Fold(Of(lines, RuleLine), EMPTY_DRAFT.pending, RuleOn);
    var da := Fold(Of(lines, DefaultLine), EMPTY_DRAFT.defaultAction, DefaultOn);
    var li := Fold(Of(lines, LimitsLine), EMPTY_DRAFT.limits, LimitsOn);
    if Of(lines, UnknownLine) != [] || ls.None? || es.None? || ps.None? || da.None? || li.None? then None
    else Some(Draft(ls.value, es.value, ps.value, da.value, li.value))
  }

  lemma FoldSnoc<S>(lines: seq<string>, line: string, s: S, f: (S, string) -> Option<S>)
    ensures Fold(lines + [line], s, f)
         == match Fold(lines, s, f) case Some(b) => f(b, line) case None => None
  {
    assert (lines + [line])[..|lines|] == lines;
  }

  lemma OfSnoc(lines: seq<string>, line: string, kind: RecordKind)
    ensures Of(lines + [line], kind) == if KindOf(line) == kind then Of(lines, kind) + [line] else Of(lines, kind)
  {
    assert (lines + [line])[..|lines|] == lines;
  }

  /** A record touches one component and can fail on that one only. */
  lemma ApplyTouchesOne(d: Draft, line: string)
    ensures Apply(d, line) ==
      match KindOf(line)
      case ListenLine => (match ListenOn(d.listeners, line) case Some(x) => Some(d.(listeners := x)) case None => None)
      case ExitLine => (match ExitOn(d.exits, line) case Some(x) => Some(d.(exits := x)) case None => None)
      case DefaultLine =>
        (match DefaultOn(d.defaultAction, line) case Some(x) => Some(d.(defaultAction := x)) case None => None)
      case RuleLine => (match RuleOn(d.pending, line) case Some(x) => Some(d.(pending := x)) case None => None)
      case LimitsLine => (match LimitsOn(d.limits, line) case Some(x) => Some(d.(limits := x)) case None => None)
      case UnknownLine => None
  {
    hide ListenRecord, ExitRecord, DefaultRecord, RuleRecord, LimitsRecord, KindOf, Split;
  }

  lemma ProductSnoc(lines: seq<string>, line: string)
    ensures Product(lines + [line])
         == match Product(lines) case Some(d) => Apply(d, line) case None => None
  {
    hide KindOf, Apply, ListenOn, ExitOn, DefaultOn, RuleOn, LimitsOn;
    OfSnoc(lines, line, ListenLine);
    OfSnoc(lines, line, ExitLine);
    OfSnoc(lines, line, DefaultLine);
    OfSnoc(lines, line, RuleLine);
    OfSnoc(lines, line, LimitsLine);
    OfSnoc(lines, line, UnknownLine);
    if Product(lines).Some? {
      ApplyTouchesOne(Product(lines).value, line);
    }
    match KindOf(line)
    case ListenLine => FoldSnoc(Of(lines, ListenLine), line, EMPTY_DRAFT.listeners, ListenOn);
    case ExitLine => FoldSnoc(Of(lines, ExitLine), line, EMPTY_DRAFT.exits, ExitOn);
    case RuleLine => FoldSnoc(Of(lines, RuleLine), line, EMPTY_DRAFT.pending, RuleOn);
    case DefaultLine => FoldSnoc(Of(lines, DefaultLine), line, EMPTY_DRAFT.defaultAction, DefaultOn);
    case LimitsLine => FoldSnoc(Of(lines, LimitsLine), line, EMPTY_DRAFT.limits, LimitsOn);
    case UnknownLine =>
  }

  lemma NothingFolds(lines: seq<string>)
    requires lines == []
    ensures Fold(lines, EMPTY_DRAFT, Apply) == Product(lines) == Some(EMPTY_DRAFT)
  {
    hide Apply, ListenOn, ExitOn, DefaultOn, RuleOn, LimitsOn;
  }

  lemma {:induction false} FoldIsProduct(lines: seq<string>)
    ensures Fold(lines, EMPTY_DRAFT, Apply) == Product(lines)
    decreases |lines|
  {
    hide Apply, Product, Fold;
    if lines == [] {
      NothingFolds(lines);
    } else {
      var front, line := lines[..|lines| - 1], lines[|lines| - 1];
      FoldIsProduct(front);
      assert lines == front + [line];
      FoldSnoc(front, line, EMPTY_DRAFT, Apply);
      ProductSnoc(front, line);
    }
  }

  // ---- the outcome of a file --------------------------------------------------------------

  lemma {:induction false} ResolveErased(d: Draft, n: nat)
    requires n <= |d.pending|
    ensures match ResolveRules(d, n)
            case Ok(rules) => ResolveRules(Erased(d), n) == Ok(rules)
            case Err(_) => ResolveRules(Erased(d), n).Err?
  {
    hide ResolveRule;
    if n > 0 {
      ResolveErased(d, n - 1);
    }
  }

  lemma FinishErased(d: Draft)
    ensures match Finish(d)
            case Ok(c) => Finish(Erased(d)) == Ok(c)
            case Err(_) => Finish(Erased(d)).Err?
  {
    hide ResolveAction, ActionToken, ResolveRules;
    ResolveErased(d, |d.pending|);
  }

  function Completed(d: Draft): Option<Config> {
    match Finish(d)
    case Ok(c) => Some(c)
    case Err(_) => None
  }

  /** The configuration a file yields, from its header and its five subsequences. */
  function Outcome(lines: seq<string>): Option<Config> {
    var s := Significant(lines);
    if |lines| > MAX_LINES || s == [] || HeaderCheck(s[0]).Err? || Product(s[1..]).None? then None
    else Completed(Product(s[1..]).value)
  }

  lemma ParseOutcome(lines: seq<string>)
    ensures match ParseLines(lines)
            case Ok(c) => Outcome(lines) == Some(c)
            case Err(_) => Outcome(lines) == None
  {
    hide Finish, Product, HeaderCheck, Significant, Line;
    if |lines| > MAX_LINES {
      if Built(lines, MAX_LINES).Err? {
        BuiltFails(lines, MAX_LINES, |lines|);
      } else {
        BuiltFails(lines, MAX_LINES + 1, |lines|);
      }
    } else {
      BuiltErased(lines, |lines|);
      assert lines[..|lines|] == lines;
      var s, built := Significant(lines), Built(lines, |lines|);
      if s != [] {
        FoldIsProduct(s[1..]);
      }
      if built.Ok? && built.value.Some? {
        FinishErased(built.value.value);
      }
    }
  }

  /** The record lines: what follows the header. */
  function Records(lines: seq<string>): seq<string> {
    if Significant(lines) == [] then [] else Significant(lines)[1..]
  }

  /** Two files with the same header line whose records agree kind by kind are
      both rejected or give the same configuration, however the kinds are
      interleaved and whatever comments and blank lines they carry. Records of
      no known kind count as a sixth kind: one of them rejects a file. The line
      counts need only fall on the same side of the limit. */
  lemma OrderIndependence(a: seq<string>, b: seq<string>)
    requires |a| <= MAX_LINES <==> |b| <= MAX_LINES
    requires Significant(a) != [] && Significant(b) != [] && Significant(a)[0] == Significant(b)[0]
    requires forall k :: k != UnknownLine ==> Of(Records(a), k) == Of(Records(b), k)
    requires Of(Records(a), UnknownLine) == [] <==> Of(Records(b), UnknownLine) == []
    ensures match ParseLines(a)
            case Ok(c) => ParseLines(b) == Ok(c)
            case Err(_) => ParseLines(b).Err?
  {
    hide Fold, HeaderCheck, ParseLines, Completed;
    ParseOutcome(a);
    ParseOutcome(b);
  }

  lemma AcceptedWithin(lines: seq<string>)
    requires ParseLines(lines).Ok?
    ensures |lines| <= MAX_LINES && Of(Records(lines), UnknownLine) == []
  {
    hide Fold, HeaderCheck, ParseLines, Completed;
    ParseOutcome(lines);
  }

  /** When the first of two such files is accepted, the second gives the same
      configuration exactly if it is short enough and has no record of an unknown
      kind. */
  lemma OrderDecides(a: seq<string>, b: seq<string>)
    requires Significant(a) != [] && Significant(b) != [] && Significant(a)[0] == Significant(b)[0]
    requires forall k :: k != UnknownLine ==> Of(Records(a), k) == Of(Records(b), k)
    requires ParseLines(a).Ok?
    ensures ParseLines(b) == ParseLines(a) <==> |b| <= MAX_LINES && Of(Records(b), UnknownLine) == []
  {
    hide ParseLines, Of, Records, Significant;
    AcceptedWithin(a);
    if |b| <= MAX_LINES && Of(Records(b), UnknownLine) == [] {
      OrderIndependence(a, b);
    } else if ParseLines(b).Ok? {
      AcceptedWithin(b);
    }
  }

  // ---- both provisos are needed ----------------------------------------------------------------

  /** A file with a listener and a default. */
  const SMALLEST: seq<string> := ["VPNPROXY 1", "LISTEN 1024 tls", "DEFAULT direct"]

  lemma Fields2(a: string, b: string)
    requires ' ' !in a && ' ' !in b
    ensures Split(a + " " + b, ' ') == [a, b]
  {
    SplitAt(a, ' ', b);
    SplitWhole(b, ' ');
  }

  lemma Fields3(a: string, b: string, c: string)
    requires ' ' !in a && ' ' !in b && ' ' !in c
    ensures Split(a + " " + (b + " " + c), ' ') == [a, b, c]
  {
    hide Split;
    SplitAt(a, ' ', b + " " + c);
    Fields2(b, c);
  }

  lemma SmallestFields()
    ensures Split(SMALLEST[0], ' ') == ["VPNPROXY", "1"]
    ensures Split(SMALLEST[1], ' ') == ["LISTEN", "1024", "tls"]
    ensures Split(SMALLEST[2], ' ') == ["DEFAULT", "direct"]
  {
    hide Split;
    assert SMALLEST[0] == "VPNPROXY" + " " + "1";
    Fields2("VPNPROXY", "1");
    assert SMALLEST[1] == "LISTEN" + " " + ("1024" + " " + "tls");
    Fields3("LISTEN", "1024", "tls");
    assert SMALLEST[2] == "DEFAULT" + " " + "direct";
    Fields2("DEFAULT", "direct");
  }

  /** A line counts, trimmed, unless nothing is left of it or it begins with `#`. */
  lemma SignificantSnoc(lines: seq<string>, line: string)
    ensures Significant([]) == []
    ensures Significant(lines + [line])
         == if Trim(line) == "" || Trim(line)[0] == '#' then Significant(lines) else Significant(lines) + [Trim(line)]
  {
    assert (lines + [line])[..|lines|] == lines;
  }

  lemma SmallestIsTrim(k: nat)
    requires k < 3
    ensures Trim(SMALLEST[k]) == SMALLEST[k] && SMALLEST[k] != "" && SMALLEST[k][0] != '#'
  {
  }

  lemma SmallestRecords()
    ensures Significant(SMALLEST) == SMALLEST
  {
    hide Significant, Trim;
    assert SMALLEST == (([] + [SMALLEST[0]]) + [SMALLEST[1]]) + [SMALLEST[2]];
    SmallestIsTrim(0);
    SmallestIsTrim(1);
    SmallestIsTrim(2);
    SignificantSnoc([], SMALLEST[0]);
    SignificantSnoc([] + [SMALLEST[0]], SMALLEST[1]);
    SignificantSnoc(([] + [SMALLEST[0]]) + [SMALLEST[1]], SMALLEST[2]);
  }

  lemma PortIs1024()
    ensures ParseUint("1024", U16_MAX) == Some(1024)
  {
    assert "1024"[..3] == "102" && "102"[..2] == "10" && "10"[..1] == "1" && "1"[..0] == "";
    assert DigitsValue("1") == 1 && DigitsValue("10") == 10 && DigitsValue("102") == 102;
  }

  lemma ListenApplies(d: Draft, line: string)
    requires line == SMALLEST[1] && d == EMPTY_DRAFT
    ensures Apply(d, line) == Some(d.(listeners := [Listener(1024, TlsMode)]))
  {
    hide Split, ParseUint;
    SmallestFields();
    PortIs1024();
    var none: seq<Listener> := [];
    assert ListenRecord(none, ["LISTEN", "1024", "tls"]) == Ok(none + [Listener(1024, TlsMode)]);
    assert none + [Listener(1024, TlsMode)] == [Listener(1024, TlsMode)];
  }

  lemma DefaultApplies(d: Draft, line: string)
    requires line == SMALLEST[2] && d.defaultAction.None?
    ensures Apply(d, line) == Some(d.(defaultAction := Some(("direct", 0))))
  {
    hide Split;
    SmallestFields();
  }

  lemma {:induction false} SmallestIsAccepted()
    ensures ParseLines(SMALLEST).Ok?
  {
    hide ParseLines, Significant, Product, Fold, Split, Apply, KindOf;
    SmallestRecords();
    SmallestFields();
    var listen, default := SMALLEST[1], SMALLEST[2];
    var none: seq<string> := [];
    assert SMALLEST[1..] == (none + [listen]) + [default];
    NothingFolds(none);
    ListenApplies(EMPTY_DRAFT, listen);
    ProductSnoc(none, listen);
    var d := EMPTY_DRAFT.(listeners := [Listener(1024, TlsMode)]);
    DefaultApplies(d, default);
    ProductSnoc(none + [listen], default);
    ParseOutcome(SMALLEST);
  }

  /** A line of an unknown kind at the end of an accepted file leaves every other
      kind as it was and has the file rejected; so do enough blank lines. */
  lemma {:induction false} ProvisosNeeded(blank: seq<string>)
    requires |blank| == MAX_LINES && forall k :: 0 <= k < |blank| ==> blank[k] == ""
    ensures ParseLines(SMALLEST).Ok?
    ensures forall k :: k != UnknownLine ==> Of(Records(SMALLEST + ["?"]), k) == Of(Records(SMALLEST), k)
    ensures |SMALLEST + ["?"]| <= MAX_LINES && ParseLines(SMALLEST + ["?"]).Err?
    ensures Records(SMALLEST + blank) == Records(SMALLEST) && ParseLines(SMALLEST + blank).Err?
  {
    hide ParseLines, Significant, Of, KindOf;
    SmallestIsAccepted();
    SmallestRecords();
    var junk := SMALLEST + ["?"];
    assert Trim("?") == "?" && !Skipped("?");
    SignificantSnoc(SMALLEST, "?");
    assert Records(junk) == Records(SMALLEST) + ["?"];
    UnknownMark();
    forall k ensures Of(Records(junk), k) ==
      if k == UnknownLine then Of(Records(SMALLEST), k) + ["?"] else Of(Records(SMALLEST), k)
    {
      OfSnoc(Records(SMALLEST), "?", k);
    }
    BlanksAreSkipped(SMALLEST, blank);
    if ParseLines(junk).Ok? {
      AcceptedWithin(junk);
    }
    if ParseLines(SMALLEST + blank).Ok? {
      AcceptedWithin(SMALLEST + blank);
    }
  }

  lemma UnknownMark()
    ensures KindOf("?") == UnknownLine
  {
    hide Split;
    SplitWhole("?", ' ');
  }

  lemma {:induction false} BlanksAreSkipped(lines: seq<string>, blank: seq<string>)
    requires forall k :: 0 <= k < |blank| ==> blank[k] == ""
    ensures Significant(lines + blank) == Significant(lines)
    decreases |blank|
  {
    hide Significant;
    if blank == [] {
      assert lines + blank == lines;
    } else {
      var front := blank[..|blank| - 1];
      BlanksAreSkipped(lines, front);
      assert lines + blank == (lines + front) + [""];
      assert Skipped(Trim(""));
      SignificantSnoc(lines + front, "");
    }
  }

  /** Lines are what ends in a line feed, the last one not necessarily. */
  lemma {:induction false} TextLinesRead(lines: seq<string>)
    requires forall l :: l in lines ==> '\n' !in l
    ensures TextLines(Join(lines + [""], '\n')) == lines
    ensures lines != [] && lines[|lines| - 1] != "" ==> TextLines(Join(lines, '\n')) == lines
  {
    hide Split, Join;
    SplitJoin(lines + [""], '\n');
    assert (lines + [""])[..|lines|] == lines;
    if lines != [] {
      SplitJoin(lines, '\n');
    }
  }

  // ---- what a file says ------------------------------------------------------------------------

  /** The records that begin with this word. */
  function Tagged(lines: seq<string>, word: string): seq<string> {
    if lines == [] then []
    else
      var before, line := Tagged(lines[..|lines| - 1], word), lines[|lines| - 1];
      if Split(line, ' ')[0] == word then before + [line] else before
  }

  const WORDS: set<string> := {"LISTEN", "EXIT", "DEFAULT", "RULE", "LIMITS"}

  predicate ListenReads(fields: seq<string>, l: Listener) {
    && |fields| > 2
    && ParseUint(fields[1], 65535) == Some(l.port) && l.port >= 1024
    && fields[2] == match l.mode case TlsMode => "tls" case HttpMode => "http"
  }

  ghost predicate ListenersRead(lines: seq<string>, ls: seq<Listener>) {
    && |ls| == |lines|
    && (forall i :: 0 <= i < |ls| ==> ListenReads(Split(lines[i], ' '), ls[i]))
    && forall i, j :: 0 <= i < j < |ls| ==> ls[i].port != ls[j].port
  }

  predicate WordChar(c: char) { '0' <= c <= '9' || 'A' <= c <= 'Z' || 'a' <= c <= 'z' || c == '_' || c == '-' }

  predicate ExitReads(fields: seq<string>, e: ExitDecl) {
    && |fields| > 2 && fields[1] == e.key && fields[2] == e.ifname
    && 1 <= |e.key| <= 32 && (forall c :: c in e.key ==> WordChar(c))
    && 1 <= |e.ifname| <= 15 && (forall c :: c in e.ifname ==> WordChar(c) || c == '.' || c == ':')
  }

  ghost predicate ExitsRead(lines: seq<string>, es: seq<ExitDecl>) {
    && |es| == |lines| <= 16
    && (forall i :: 0 <= i < |es| ==> ExitReads(Split(lines[i], ' '), es[i]))
    && forall i, j :: 0 <= i < j < |es| ==> es[i].key != es[j].key
  }

  /** An action by its word, an exit by a key that has been declared. */
  predicate ActionReads(text: string, exits: seq<ExitDecl>, action: Action) {
    match action
    case Direct => text == "direct"
    case Block => text == "block"
    case Exit(k) => k < |exits| && text == "exit:" + exits[k].key
  }

  /** A column that a `-` leaves open. */
  predicate ColumnReads<T(==)>(text: string, parse: string -> Option<T>, value: Option<T>) {
    text != "" && if text == "-" then value.None? else value.Some? && parse(text) == value
  }

  predicate ProtoReads(text: string, value: Option<Proto>) {
    match value
    case None => text == "-"
    case Some(Tcp) => text == "tcp"
    case Some(Udp) => text == "udp"
  }

  predicate RateReads(text: string, value: Option<nat>) {
    match value
    case None => text == "-"
    case Some(kbps) => text != "-" && kbps > 0 && ParseUint(text, 0xFFFF_FFFF) == Some(kbps)
  }

  function HostColumn(text: string): Option<HostPattern> { ParsePattern(Bytes(text)) }

  /** A RULE line: number, action, source, destination, protocol, ports, host, rate. */
  predicate RuleReads(fields: seq<string>, number: nat, exits: seq<ExitDecl>, rule: Rule) {
    && |fields| == 9
    && rule.seqNo == number && ParseUint(fields[1], 65535) == Some(number)
    && ActionReads(fields[2], exits, rule.action) && rule.token == Bytes(fields[2])
    && ColumnReads(fields[3], ParseCidr, rule.src) && ColumnReads(fields[4], ParseCidr, rule.dst)
    && ProtoReads(fields[5], rule.proto)
    && ColumnReads(fields[6], ParsedPorts, rule.dports)
    && ColumnReads(fields[7], HostColumn, rule.host)
    && RateReads(fields[8], rule.rateKbps)
  }

  ghost predicate RulesRead(lines: seq<string>, exits: seq<ExitDecl>, rules: seq<Rule>) {
    && |rules| == |lines| <= 200
    && forall i :: 0 <= i < |rules| ==> RuleReads(Split(lines[i], ' '), i + 1, exits, rules[i])
  }

  predicate DefaultReads(lines: seq<string>, exits: seq<ExitDecl>, action: Action, token: Label) {
    && |lines| == 1
    && var fields := Split(lines[0], ' ');
       |fields| > 1 && ActionReads(fields[1], exits, action) && token == Bytes(fields[1])
  }

  predicate NumberReads(fields: seq<string>, k: nat, otherwise: nat, n: nat) {
    if k >= |fields| || fields[k] == "-" then n == otherwise else ParseUint(fields[k], U64_MAX) == Some(n)
  }

  /** A LIMITS line: flows, idle seconds, pipe bytes, workers. */
  predicate LimitsRead(fields: seq<string>, l: Limits) {
    && NumberReads(fields, 1, 512, l.maxFlows) && l.maxFlows >= 1
    && NumberReads(fields, 2, 120, l.idleSecs)
    && NumberReads(fields, 3, 1048576, l.pipeBytes)
    && NumberReads(fields, 4, 0, l.workers)
  }

  ghost predicate LimitsOk(line: string) { exists l :: LimitsRead(Split(line, ' '), l) }

  /** The last LIMITS line counts, and all must be readable. */
  ghost predicate LastLimits(lines: seq<string>, l: Limits) {
    && (forall i :: 0 <= i < |lines| ==> LimitsOk(lines[i]))
    && if lines == [] then l == Limits(512, 120, 1048576, 0) else LimitsRead(Split(lines[|lines| - 1], ' '), l)
  }

  /** The configuration is the one the file says, line by line. */
  ghost predicate Says(lines: seq<string>, c: Config) {
    && |lines| <= 1024
    && Significant(lines) != [] && Split(Significant(lines)[0], ' ') == ["VPNPROXY", "1"]
    && var records := Significant(lines)[1..];
       && (forall r :: r in records ==> Split(r, ' ')[0] in WORDS)
       && c.listeners != [] && ListenersRead(Tagged(records, "LISTEN"), c.listeners)
       && ExitsRead(Tagged(records, "EXIT"), c.exits)
       && RulesRead(Tagged(records, "RULE"), c.exits, c.rules)
       && DefaultReads(Tagged(records, "DEFAULT"), c.exits, c.defaultAction, c.defaultToken)
       && LastLimits(Tagged(records, "LIMITS"), c.limits)
  }

  // ---- kind by kind ------------------------------------------------------------------------------

  lemma {:induction false} OfIsTagged(lines: seq<string>)
    ensures Of(lines, ListenLine) == Tagged(lines, "LISTEN") && Of(lines, ExitLine) == Tagged(lines, "EXIT")
    ensures Of(lines, DefaultLine) == Tagged(lines, "DEFAULT") && Of(lines, RuleLine) == Tagged(lines, "RULE")
    ensures Of(lines, LimitsLine) == Tagged(lines, "LIMITS")
    ensures Of(lines, UnknownLine) == [] <==> forall r :: r in lines ==> Split(r, ' ')[0] in WORDS
    decreases |lines|
  {
    hide Split;
    if lines != [] {
      var front, last := lines[..|lines| - 1], lines[|lines| - 1];
      OfIsTagged(front);
      assert last in lines && lines == front + [last];
      assert KindOf(last) == UnknownLine <==> Split(last, ' ')[0] !in WORDS;
    }
  }

  lemma ListenerReads(before: seq<Listener>, fields: seq<string>, l: Listener)
    ensures ListenRecord(before, fields) == Ok(before + [l]) <==>
      ListenReads(fields, l) && forall i :: 0 <= i < |before| ==> before[i].port != l.port
    ensures ListenRecord(before, fields).Ok? ==> exists m :: ListenRecord(before, fields) == Ok(before + [m])
  {
    hide DigitsValue;
    assert (before + [l])[|before|] == l;
  }

  lemma {:induction false} ListenersFold(lines: seq<string>, ls: seq<Listener>)
    ensures Fold(lines, EMPTY_DRAFT.listeners, ListenOn) == Some(ls) <==> ListenersRead(lines, ls)
    decreases |lines|
  {
    hide Split, ListenRecord, ListenReads;
    if lines != [] {
      var front, last := lines[..|lines| - 1], Split(lines[|lines| - 1], ' ');
      var folded := Fold(front, EMPTY_DRAFT.listeners, ListenOn);
      if folded.Some? && ListenRecord(folded.value, last) == Ok(ls) {
        var before := folded.value;
        ListenersFold(front, before);
        ListenerReads(before, last, Listener(0, TlsMode));
        var l :| ListenRecord(before, last) == Ok(before + [l]);
        ListenerReads(before, last, l);
        assert ListenersRead(lines, ls);
      }
      if ListenersRead(lines, ls) {
        var before, l := ls[..|ls| - 1], ls[|ls| - 1];
        ListenersFold(front, before);
        ListenerReads(before, last, l);
        assert ls == before + [l];
      }
    }
  }

  lemma {:induction false} PlainBytes(s: string)
    requires forall k :: 0 <= k < |s| ==> s[k] as int < 0x80
    ensures |Bytes(s)| == |s|
  {
    if s != [] {
      PlainBytes(s[1..]);
    }
  }

  lemma KeyIsWord(key: string)
    ensures IsExitKey(key) <==> 1 <= |key| <= 32 && forall c :: c in key ==> WordChar(c)
  {
    if forall c :: c in key ==> WordChar(c) {
      assert forall k :: 0 <= k < |key| ==> key[k] in key;
      PlainBytes(key);
    }
  }

  lemma IfnameIsWord(name: string)
    ensures IsIfname(name) <==> 1 <= |name| <= 15 && forall c :: c in name ==> WordChar(c) || c == '.' || c == ':'
  {
    if forall c :: c in name ==> WordChar(c) || c == '.' || c == ':' {
      assert forall k :: 0 <= k < |name| ==> name[k] in name;
      PlainBytes(name);
    }
  }

  lemma ExitDeclReads(before: seq<ExitDecl>, fields: seq<string>, e: ExitDecl)
    ensures ExitRecord(before, fields) == Ok(before + [e]) <==>
      ExitReads(fields, e) && |before| < 16 && forall i :: 0 <= i < |before| ==> before[i].key != e.key
    ensures ExitRecord(before, fields).Ok? ==> exists m :: ExitRecord(before, fields) == Ok(before + [m])
  {
    hide IsExitKey, IsIfname, WordChar;
    if |fields| > 2 {
      KeyIsWord(fields[1]);
      IfnameIsWord(fields[2]);
    }
    assert (before + [e])[|before|] == e;
  }

  lemma {:induction false} ExitsFold(lines: seq<string>, es: seq<ExitDecl>)
    ensures Fold(lines, EMPTY_DRAFT.exits, ExitOn) == Some(es) <==> ExitsRead(lines, es)
    decreases |lines|
  {
    hide Split, ExitRecord, ExitReads;
    if lines != [] {
      var front, last := lines[..|lines| - 1], Split(lines[|lines| - 1], ' ');
      var folded := Fold(front, EMPTY_DRAFT.exits, ExitOn);
      if folded.Some? && ExitRecord(folded.value, last) == Ok(es) {
        var before := folded.value;
        ExitsFold(front, before);
        ExitDeclReads(before, last, ExitDecl("", ""));
        var e :| ExitRecord(before, last) == Ok(before + [e]);
        ExitDeclReads(before, last, e);
        assert ExitsRead(lines, es);
      }
      if ExitsRead(lines, es) {
        var before, e := es[..|es| - 1], es[|es| - 1];
        ExitsFold(front, before);
        ExitDeclReads(before, last, e);
        assert es == before + [e];
      }
    }
  }

  // A rule is read in two steps: its line when it comes, its action at the end.

  predicate PendingReads(fields: seq<string>, p: PendingRule) {
    && |fields| == 9
    && ParseUint(fields[1], 65535) == Some(p.seqNo) && fields[2] == p.action != ""
    && ColumnReads(fields[3], ParseCidr, p.src) && ColumnReads(fields[4], ParseCidr, p.dst)
    && ProtoReads(fields[5], p.proto)
    && ColumnReads(fields[6], ParsedPorts, p.dports)
    && ColumnReads(fields[7], HostColumn, p.host)
    && RateReads(fields[8], p.rateKbps)
  }

  lemma NumberColumn(fields: seq<string>, n: nat)
    ensures RequiredNumber(fields, 1, U16_MAX) == Ok(n) <==> |fields| > 1 && ParseUint(fields[1], 65535) == Some(n)
  {
    hide DigitsValue;
  }

  lemma Column<T>(fields: seq<string>, k: nat, parse: string -> Option<T>, value: Option<T>)
    ensures OptionalWith(fields, k, parse) == Ok(value) <==> k < |fields| && ColumnReads(fields[k], parse, value)
  {
  }

  lemma ProtoColumn(fields: seq<string>, value: Option<Proto>)
    ensures OptionalWith(fields, 5, ParseProto) == Ok(value) <==> 5 < |fields| && ProtoReads(fields[5], value)
  {
  }

  lemma RateColumn(fields: seq<string>, value: Option<nat>)
    ensures OptionalWith(fields, 8, ParseRate) == Ok(value) <==> 8 < |fields| && RateReads(fields[8], value)
  {
    hide DigitsValue;
  }

  lemma HostColumnIs(fields: seq<string>)
    ensures OptionalWith(fields, 7, ParseHostField) == OptionalWith(fields, 7, HostColumn)
  {
    hide ParsePattern, Bytes;
  }

  lemma {:induction false} RuleRecordReads(count: nat, fields: seq<string>, p: PendingRule)
    ensures RuleRecord(count, fields) == Ok(p) <==> count < 200 && PendingReads(fields, p)
  {
    NumberColumn(fields, p.seqNo);
    Column(fields, 3, ParseCidr, p.src);
    Column(fields, 4, ParseCidr, p.dst);
    ProtoColumn(fields, p.proto);
    Column(fields, 6, ParsedPorts, p.dports);
    HostColumnIs(fields);
    Column(fields, 7, HostColumn, p.host);
    RateColumn(fields, p.rateKbps);
    hide RequiredNumber, OptionalWith, ColumnReads, ProtoReads, RateReads;
  }

  ghost predicate AllPending(lines: seq<string>, ps: seq<(PendingRule, nat)>) {
    && |ps| == |lines| <= 200
    && forall i :: 0 <= i < |ps| ==> PendingReads(Split(lines[i], ' '), ps[i].0) && ps[i].1 == 0
  }

  lemma {:induction false} RulesFold(lines: seq<string>, ps: seq<(PendingRule, nat)>)
    ensures Fold(lines, EMPTY_DRAFT.pending, RuleOn) == Some(ps) <==> AllPending(lines, ps)
    decreases |lines|
  {
    hide Split, RuleRecord, PendingReads;
    if lines != [] {
      var front, last := lines[..|lines| - 1], Split(lines[|lines| - 1], ' ');
      var folded := Fold(front, EMPTY_DRAFT.pending, RuleOn);
      if folded.Some? && RuleRecord(|folded.value|, last).Ok? {
        var before, p := folded.value, RuleRecord(|folded.value|, last).value;
        RulesFold(front, before);
        RuleRecordReads(|before|, last, p);
        if Fold(lines, EMPTY_DRAFT.pending, RuleOn) == Some(ps) {
          assert ps == before + [(p, 0)];
          assert AllPending(lines, ps);
        }
      }
      if AllPending(lines, ps) {
        var before, p := ps[..|ps| - 1], ps[|ps| - 1].0;
        RulesFold(front, before);
        RuleRecordReads(|before|, last, p);
        assert ps == before + [(p, 0)];
      }
    }
  }

  lemma {:induction false} DefaultFold(lines: seq<string>, d: Option<(string, nat)>)
    ensures Fold(lines, EMPTY_DRAFT.defaultAction, DefaultOn) == Some(d) <==>
      || (lines == [] && d == None)
      || (|lines| == 1 && |Split(lines[0], ' ')| > 1 && Split(lines[0], ' ')[1] != ""
          && d == Some((Split(lines[0], ' ')[1], 0)))
    decreases |lines|
  {
    hide Split;
    if lines != [] {
      var front := lines[..|lines| - 1];
      DefaultFold(front, None);
      if Fold(front, EMPTY_DRAFT.defaultAction, DefaultOn).Some? {
        DefaultFold(front, Fold(front, EMPTY_DRAFT.defaultAction, DefaultOn).value);
      }
    }
  }

  lemma LimitsRecordReads(fields: seq<string>, l: Limits)
    ensures LimitsRecord(fields) == Ok(l) <==> LimitsRead(fields, l)
  {
    hide ParseUint;
  }

  ghost predicate LimitsGiven(lines: seq<string>, l: Option<Limits>) {
    && (forall i :: 0 <= i < |lines| ==> LimitsOk(lines[i]))
    && if lines == [] then l == None else l.Some? && LimitsRead(Split(lines[|lines| - 1], ' '), l.value)
  }

  lemma {:induction false} LimitsFold(lines: seq<string>, l: Option<Limits>)
    ensures Fold(lines, EMPTY_DRAFT.limits, LimitsOn) == Some(l) <==> LimitsGiven(lines, l)
    decreases |lines|
  {
    hide Split, LimitsRecord, LimitsRead;
    if lines != [] {
      var front, last := lines[..|lines| - 1], Split(lines[|lines| - 1], ' ');
      var folded := Fold(front, EMPTY_DRAFT.limits, LimitsOn);
      if folded.Some? {
        LimitsFold(front, folded.value);
      }
      if LimitsRecord(last).Ok? {
        LimitsRecordReads(last, LimitsRecord(last).value);
      }
      if LimitsGiven(lines, l) {
        LimitsRecordReads(last, l.value);
        assert forall i :: 0 <= i < |front| ==> front[i] == lines[i];
        if front == [] {
          LimitsFold(front, None);
        } else {
          assert LimitsOk(front[|front| - 1]);
          var m :| LimitsRead(Split(front[|front| - 1], ' '), m);
          LimitsFold(front, Some(m));
        }
      }
    }
  }

  // ---- the end of the file -------------------------------------------------------------------------

  lemma KeyIsShort(exits: seq<ExitDecl>, k: nat)
    requires k < |exits| && IsExitKey(exits[k].key)
    ensures ExitLabel(exits[k].key) == Some(Bytes("exit:" + exits[k].key))
  {
    hide Bytes;
  }

  ghost predicate KeysOk(exits: seq<ExitDecl>) {
    && (forall i :: 0 <= i < |exits| ==> IsExitKey(exits[i].key))
    && forall i, j :: 0 <= i < j < |exits| ==> exits[i].key != exits[j].key
  }

  lemma {:induction false} ActionResolves(text: string, exits: seq<ExitDecl>, action: Action)
    requires KeysOk(exits)
    ensures ResolveAction(text, exits) == Ok(action) <==> ActionReads(text, exits, action)
    ensures ActionReads(text, exits, action) ==> ActionToken(action, exits) == Ok(Bytes(text)) && text != ""
  {
    hide Bytes, IsExitKey, FindExit;
    if "exit:" <= text {
      assert text == "exit:" + text[5..];
    }
    if action.Exit? && action.index < |exits| {
      var key := exits[action.index].key;
      KeyIsShort(exits, action.index);
      assert ("exit:" + key)[5..] == key && "direct"[0] == 'd' && "block"[0] == 'b' && ("exit:" + key)[0] == 'e';
      assert exits[action.index] in exits;
      var found := FindExit(exits, key);
      assert found.Some? && exits[found.value].key == key;
    }
  }

  lemma {:induction false} RuleResolves(fields: seq<string>, p: PendingRule, n: nat, exits: seq<ExitDecl>, rule: Rule)
    requires KeysOk(exits) && PendingReads(fields, p)
    ensures ResolveRule(p, n, exits) == Ok(rule) <==> RuleReads(fields, n, exits, rule)
  {
    hide Bytes, ResolveAction, ActionToken, ActionReads, ColumnReads, ProtoReads, RateReads, KeysOk;
    ActionResolves(p.action, exits, rule.action);
    if ResolveAction(p.action, exits).Ok? {
      ActionResolves(p.action, exits, ResolveAction(p.action, exits).value);
    }
    if RuleReads(fields, n, exits, rule) {
      ColumnsAgree(fields, n, exits, p, rule);
    }
  }

  /** What a line says of a rule, it says once. */
  lemma {:induction false} ColumnsAgree(fields: seq<string>, n: nat, exits: seq<ExitDecl>, p: PendingRule, rule: Rule)
    requires PendingReads(fields, p) && RuleReads(fields, n, exits, rule)
    ensures p.seqNo == n && p.src == rule.src && p.dst == rule.dst && p.proto == rule.proto
    ensures p.dports == rule.dports && p.host == rule.host && p.rateKbps == rule.rateKbps
  {
  }

  /** The lines of the rules that have been resolved. */
  ghost predicate FirstRules(lines: seq<string>, exits: seq<ExitDecl>, rules: seq<Rule>, n: nat) {
    && |rules| == n <= |lines|
    && forall i :: 0 <= i < n ==> RuleReads(Split(lines[i], ' '), i + 1, exits, rules[i])
  }

  lemma {:induction false} RulesResolve(d: Draft, lines: seq<string>, n: nat, rules: seq<Rule>)
    requires n <= |d.pending| && AllPending(lines, d.pending) && KeysOk(d.exits)
    ensures ResolveRules(d, n) == Ok(rules) <==> FirstRules(lines, d.exits, rules, n)
  {
    hide Split, KeysOk, PendingReads, RuleReads, ResolveRule;
    if n > 0 {
      var fields, p := Split(lines[n - 1], ' '), d.pending[n - 1].0;
      var before := ResolveRules(d, n - 1);
      if before.Ok? {
        RulesResolve(d, lines, n - 1, before.value);
      }
      if ResolveRule(p, n, d.exits).Ok? {
        RuleResolves(fields, p, n, d.exits, ResolveRule(p, n, d.exits).value);
      }
      if FirstRules(lines, d.exits, rules, n) {
        RulesResolve(d, lines, n - 1, rules[..n - 1]);
        RuleResolves(fields, p, n, d.exits, rules[n - 1]);
        assert rules == rules[..n - 1] + [rules[n - 1]];
      }
    }
  }

  lemma {:induction false} ExitsAreKeyed(lines: seq<string>, es: seq<ExitDecl>)
    requires ExitsRead(lines, es)
    ensures KeysOk(es)
  {
    hide Split, IsExitKey, WordChar;
    forall i | 0 <= i < |es| ensures IsExitKey(es[i].key) {
      KeyIsWord(es[i].key);
    }
  }

  lemma LimitsAgree(fields: seq<string>, l: Limits, m: Limits)
    requires LimitsRead(fields, l) && LimitsRead(fields, m)
    ensures l == m
  {
    hide ParseUint;
  }

  /** A draft is built of what its lines say. */
  ghost predicate Drafted(records: seq<string>, d: Draft) {
    && ListenersRead(Tagged(records, "LISTEN"), d.listeners)
    && ExitsRead(Tagged(records, "EXIT"), d.exits)
    && AllPending(Tagged(records, "RULE"), d.pending)
    && Fold(Tagged(records, "DEFAULT"), EMPTY_DRAFT.defaultAction, DefaultOn) == Some(d.defaultAction)
    && LimitsGiven(Tagged(records, "LIMITS"), d.limits)
  }

  ghost predicate RecordsSay(records: seq<string>, c: Config) {
    && c.listeners != [] && ListenersRead(Tagged(records, "LISTEN"), c.listeners)
    && ExitsRead(Tagged(records, "EXIT"), c.exits)
    && RulesRead(Tagged(records, "RULE"), c.exits, c.rules)
    && DefaultReads(Tagged(records, "DEFAULT"), c.exits, c.defaultAction, c.defaultToken)
    && LastLimits(Tagged(records, "LIMITS"), c.limits)
  }

  lemma {:induction false} ProductIsDrafted(records: seq<string>, d: Draft)
    ensures Product(records) == Some(d) <==>
      Drafted(records, d) && forall r :: r in records ==> Split(r, ' ')[0] in WORDS
  {
    OfIsTagged(records);
    ListenersFold(Tagged(records, "LISTEN"), d.listeners);
    ExitsFold(Tagged(records, "EXIT"), d.exits);
    RulesFold(Tagged(records, "RULE"), d.pending);
    LimitsFold(Tagged(records, "LIMITS"), d.limits);
    hide Fold, Split, Tagged, Of, ListenersRead, ExitsRead, AllPending, LimitsGiven, WORDS;
  }

  lemma {:induction false} DefaultResolves(d: Draft, lines: seq<string>, action: Action, token: Label)
    requires Fold(lines, EMPTY_DRAFT.defaultAction, DefaultOn) == Some(d.defaultAction) && KeysOk(d.exits)
    ensures DefaultReads(lines, d.exits, action, token) <==>
      && d.defaultAction.Some?
      && ResolveAction(d.defaultAction.value.0, d.exits) == Ok(action)
      && ActionToken(action, d.exits) == Ok(token)
  {
    hide Fold, Split, ResolveAction, ActionToken, ActionReads, KeysOk, Bytes;
    if |lines| == 1 && |Split(lines[0], ' ')| > 1 {
      ActionResolves(Split(lines[0], ' ')[1], d.exits, action);
    }
    DefaultFold(lines, d.defaultAction);
  }

  /** The parts that finishing a draft puts together. */
  ghost predicate Finished(d: Draft, c: Config) {
    && d.listeners != [] && d.defaultAction.Some? && c.listeners == d.listeners && c.exits == d.exits
    && ResolveAction(d.defaultAction.value.0, d.exits) == Ok(c.defaultAction)
    && ActionToken(c.defaultAction, d.exits) == Ok(c.defaultToken)
    && ResolveRules(d, |d.pending|) == Ok(c.rules)
    && c.limits == if d.limits.Some? then d.limits.value else DEFAULT_LIMITS
  }

  lemma FinishIs(d: Draft, c: Config)
    ensures Finish(d) == Ok(c) <==> Finished(d, c)
  {
    hide ResolveAction, ActionToken, ResolveRules;
  }

  /** What a draft comes to is what its lines say. */
  lemma {:induction false} DraftSays(records: seq<string>, d: Draft, c: Config)
    requires Drafted(records, d)
    ensures Finish(d) == Ok(c) <==> c.exits == d.exits && c.listeners == d.listeners && RecordsSay(records, c)
  {
    hide Fold, Split, Tagged, ResolveAction, ActionToken, ResolveRules, RuleReads, DefaultReads, KeysOk, LimitsRead,
         ListenersRead, ExitsRead, LastLimits, LimitsGiven, PendingReads, Finish;
    FinishIs(d, c);
    ExitsAreKeyed(Tagged(records, "EXIT"), d.exits);
    DefaultResolves(d, Tagged(records, "DEFAULT"), c.defaultAction, c.defaultToken);
    RulesResolve(d, Tagged(records, "RULE"), |d.pending|, c.rules);
    LimitsSay(Tagged(records, "LIMITS"), d.limits, c.limits);
  }

  lemma {:induction false} LimitsSay(lines: seq<string>, given: Option<Limits>, l: Limits)
    requires LimitsGiven(lines, given)
    ensures LastLimits(lines, l) <==> l == if given.Some? then given.value else DEFAULT_LIMITS
  {
    hide Split, LimitsRead, LimitsOk;
    if lines != [] && LimitsRead(Split(lines[|lines| - 1], ' '), l) {
      LimitsAgree(Split(lines[|lines| - 1], ' '), l, given.value);
    }
  }

  function PendingOf(line: string, rule: Rule): PendingRule
    requires |Split(line, ' ')| == 9
  {
    PendingRule(rule.seqNo, Split(line, ' ')[2], rule.src, rule.dst, rule.proto, rule.dports, rule.host, rule.rateKbps)
  }

  /** Lines that say something can be drafted. */
  lemma {:induction false} Drafts(records: seq<string>, c: Config) returns (d: Draft)
    requires RecordsSay(records, c)
    ensures Drafted(records, d) && d.listeners == c.listeners && d.exits == c.exits
  {
    var rules, defaults, limits := Tagged(records, "RULE"), Tagged(records, "DEFAULT"), Tagged(records, "LIMITS");
    ExitsAreKeyed(Tagged(records, "EXIT"), c.exits);
    var text := Split(defaults[0], ' ')[1];
    ActionResolves(text, c.exits, c.defaultAction);
    DefaultFold(defaults, Some((text, 0)));
    var pending := PendingsOf(rules, c.exits, c.rules);
    d := Draft(c.listeners, c.exits, pending, Some((text, 0)), if limits == [] then None else Some(c.limits));
    hide Fold, Split, Tagged, ActionReads, LimitsRead, ListenersRead, ExitsRead, AllPending, RulesRead;
  }

  lemma {:induction false} PendingsOf(lines: seq<string>, exits: seq<ExitDecl>, rules: seq<Rule>)
      returns (ps: seq<(PendingRule, nat)>)
    requires RulesRead(lines, exits, rules) && KeysOk(exits)
    ensures AllPending(lines, ps)
  {
    hide Split, RuleReads, PendingReads, KeysOk;
    forall i | 0 <= i < |rules|
      ensures |Split(lines[i], ' ')| == 9 && PendingReads(Split(lines[i], ' '), PendingOf(lines[i], rules[i]))
    {
      PendingFrom(lines[i], i + 1, exits, rules[i]);
    }
    ps := seq(|rules|, i requires 0 <= i < |rules| =>
      assert |Split(lines[i], ' ')| == 9; (PendingOf(lines[i], rules[i]), 0));
  }

  lemma {:induction false} PendingFrom(line: string, n: nat, exits: seq<ExitDecl>, rule: Rule)
    requires RuleReads(Split(line, ' '), n, exits, rule) && KeysOk(exits)
    ensures |Split(line, ' ')| == 9 && PendingReads(Split(line, ' '), PendingOf(line, rule))
  {
    hide Split, KeysOk, ActionReads;
    ActionResolves(Split(line, ' ')[2], exits, rule.action);
  }

  /** A file is accepted exactly when it says a configuration, and that is the one
      it is read as: every listener, exit, rule, default and limit, column by
      column. */
  lemma {:induction false} ReadsWhatItSays(lines: seq<string>, c: Config)
    ensures ParseLines(lines) == Ok(c) <==> Says(lines, c)
  {
    hide ParseLines, Product, Significant, Split, Finish, Drafted, RecordsSay;
    ParseOutcome(lines);
    var s := Significant(lines);
    if s != [] {
      var records := s[1..];
      HeaderIs(s[0]);
      if ParseLines(lines) == Ok(c) {
        var d := Product(records).value;
        ProductIsDrafted(records, d);
        DraftSays(records, d, c);
        SaysIs(lines, records, c);
      }
      if Says(lines, c) {
        SaysIs(lines, records, c);
        var d := Drafts(records, c);
        ProductIsDrafted(records, d);
        DraftSays(records, d, c);
      }
    }
    hide Says;
  }

  lemma HeaderIs(line: string)
    ensures HeaderCheck(line).Ok? <==> Split(line, ' ') == ["VPNPROXY", "1"]
  {
    hide Split;
  }

  lemma SaysIs(lines: seq<string>, records: seq<string>, c: Config)
    requires Significant(lines) != [] && records == Significant(lines)[1..]
    ensures Says(lines, c) <==>
      && |lines| <= MAX_LINES && Split(Significant(lines)[0], ' ') == ["VPNPROXY", "1"]
      && (forall r :: r in records ==> Split(r, ' ')[0] in WORDS) && RecordsSay(records, c)
  {
    hide Significant, Split, Tagged, ListenersRead, ExitsRead, RulesRead, DefaultReads, LastLimits;
  }

  // ---- well-formedness ------------------------------------------------------------------------

  ghost predicate WellFormed(c: Config) {
    && c.listeners != []
    && (forall i :: 0 <= i < |c.listeners| ==> MIN_LISTEN_PORT <= c.listeners[i].port <= U16_MAX)
    && (forall i, j :: 0 <= i < j < |c.listeners| ==> c.listeners[i].port != c.listeners[j].port)
    && |c.exits| <= MAX_EXITS
    && (forall i :: 0 <= i < |c.exits| ==> IsExitKey(c.exits[i].key) && IsIfname(c.exits[i].ifname))
    && (forall i, j :: 0 <= i < j < |c.exits| ==> c.exits[i].key != c.exits[j].key)
    && |c.rules| <= MAX_RULES
    && (forall i :: 0 <= i < |c.rules| ==> c.rules[i].seqNo == i + 1)
    && (forall i :: 0 <= i < |c.rules| ==> InRange(c.rules[i].action, c.exits))
    && (forall i :: 0 <= i < |c.rules| ==> NetworksOk(c.rules[i]) && RateOk(c.rules[i]))
    && InRange(c.defaultAction, c.exits)
    && c.limits.maxFlows >= 1
  }

  predicate RateOk(rule: Rule) { rule.rateKbps.Some? ==> 1 <= rule.rateKbps.value <= 0xFFFF_FFFF }

  predicate InRange(a: Action, exits: seq<ExitDecl>) { a.Exit? ==> a.index < |exits| }

  lemma {:induction false} RuleIsOk(fields: seq<string>, n: nat, exits: seq<ExitDecl>, rule: Rule)
    requires RuleReads(fields, n, exits, rule)
    ensures InRange(rule.action, exits) && NetworksOk(rule) && RateOk(rule) && rule.seqNo == n
  {
    hide IsNetwork, ParseCidr, ParsedPorts, HostColumn, DigitsValue, Bytes;
    CidrReads(fields[3], 0);
    CidrReads(fields[4], 0);
  }

  lemma {:induction false} RulesAreOk(lines: seq<string>, exits: seq<ExitDecl>, rules: seq<Rule>)
    requires RulesRead(lines, exits, rules)
    ensures |rules| <= MAX_RULES
    ensures forall i :: 0 <= i < |rules| ==>
      rules[i].seqNo == i + 1 && InRange(rules[i].action, exits) && NetworksOk(rules[i]) && RateOk(rules[i])
  {
    hide Split, RuleReads, NetworksOk, RateOk, InRange;
    forall i | 0 <= i < |rules|
      ensures rules[i].seqNo == i + 1 && InRange(rules[i].action, exits) && NetworksOk(rules[i]) && RateOk(rules[i])
    {
      RuleIsOk(Split(lines[i], ' '), i + 1, exits, rules[i]);
    }
  }

  /** Every accepted file is well formed. */
  lemma {:induction false} AcceptedIsWellFormed(lines: seq<string>)
    requires ParseLines(lines).Ok?
    ensures WellFormed(ParseLines(lines).value)
  {
    hide ParseLines, Split, Significant, Tagged, ListenersRead, ExitsRead, RulesRead, DefaultReads, LimitsRead, InRange,
         NetworksOk, RateOk, IsExitKey, IsIfname;
    var c := ParseLines(lines).value;
    ReadsWhatItSays(lines, c);
    var records := Significant(lines)[1..];
    ListenersAreOk(Tagged(records, "LISTEN"), c.listeners);
    ExitsAreOk(Tagged(records, "EXIT"), c.exits);
    RulesAreOk(Tagged(records, "RULE"), c.exits, c.rules);
    DefaultIsOk(Tagged(records, "DEFAULT"), c);
    LimitsAreOk(Tagged(records, "LIMITS"), c.limits);
  }

  lemma LimitsAreOk(lines: seq<string>, l: Limits)
    requires LastLimits(lines, l)
    ensures l.maxFlows >= 1
  {
    hide Split, ParseUint;
  }

  lemma DefaultIsOk(lines: seq<string>, c: Config)
    requires DefaultReads(lines, c.exits, c.defaultAction, c.defaultToken)
    ensures InRange(c.defaultAction, c.exits)
  {
    hide Split, Bytes;
  }

  lemma {:induction false} ListenersAreOk(lines: seq<string>, ls: seq<Listener>)
    requires ListenersRead(lines, ls)
    ensures forall i :: 0 <= i < |ls| ==> MIN_LISTEN_PORT <= ls[i].port <= U16_MAX
    ensures forall i, j :: 0 <= i < j < |ls| ==> ls[i].port != ls[j].port
  {
    hide Split, DigitsValue;
    assert forall i :: 0 <= i < |ls| ==> ListenReads(Split(lines[i], ' '), ls[i]);
  }

  lemma {:induction false} ExitsAreOk(lines: seq<string>, es: seq<ExitDecl>)
    requires ExitsRead(lines, es)
    ensures |es| <= MAX_EXITS && forall i :: 0 <= i < |es| ==> IsExitKey(es[i].key) && IsIfname(es[i].ifname)
    ensures forall i, j :: 0 <= i < j < |es| ==> es[i].key != es[j].key
  {
    hide Split, IsExitKey, IsIfname, WordChar;
    forall i | 0 <= i < |es| ensures IsExitKey(es[i].key) && IsIfname(es[i].ifname) {
      assert ExitReads(Split(lines[i], ' '), es[i]);
      KeyIsWord(es[i].key);
      IfnameIsWord(es[i].ifname);
    }
  }
}
