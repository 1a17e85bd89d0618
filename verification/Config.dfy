/** The configuration file (`config.rs`): a line loop feeding a builder, then one
    pass that resolves the actions. */
module ConfigFile {
  import opened Basics
  import opened Text
  import opened Hostnames
  import opened Rules

  const MAX_EXITS: nat := 16
  const MAX_RULES: nat := 200
  const MAX_LINES: nat := 1024
  const MAX_IFNAME: nat := 15
  const MIN_LISTEN_PORT: nat := 1024
  const U16_MAX: nat := 0xFFFF
  const U32_MAX: nat := 0xFFFF_FFFF

  datatype ErrorKind =
    | TooManyLines | NotOurFile | WrongVersion | HeaderTooLong | NoHeader
    | UnknownRecord | MissingField | BadNumber | BadField | ExtraFields
    | LowPort | BadMode | DuplicatePort | BadKey | BadIfname | DuplicateKey | TooManyExits
    | SecondDefault | NoFlows | TooManyRules
    | NoListeners | NoDefault | SeqNotDense | NotAnAction | UndeclaredExit | KeyTooLong

  /** 1-based line, or 0 for a whole-file problem. */
  datatype ConfigError = ConfigError(line: nat, kind: ErrorKind)

  datatype PeekMode = TlsMode | HttpMode
  datatype Listener = Listener(port: nat, mode: PeekMode)
  datatype ExitDecl = ExitDecl(key: string, ifname: string)
  datatype Limits = Limits(maxFlows: nat, idleSecs: nat, pipeBytes: nat, workers: nat)

  datatype Config = Config(
    listeners: seq<Listener>, exits: seq<ExitDecl>, rules: seq<Rule>,
    defaultAction: Action, defaultToken: Label, limits: Limits)

  const DEFAULT_LIMITS := Limits(512, 120, 1048576, 0)

  datatype PendingRule = PendingRule(
    seqNo: nat, action: string, src: Option<Cidr4>, dst: Option<Cidr4>, proto: Option<Proto>,
    dports: Option<PortSpec>, host: Option<HostPattern>, rateKbps: Option<nat>)

  /** What the builder has accumulated. Line numbers serve error reports only. */
  datatype Draft = Draft(
    listeners: seq<Listener>, exits: seq<ExitDecl>, pending: seq<(PendingRule, nat)>,
    defaultAction: Option<(string, nat)>, limits: Option<Limits>)

  const EMPTY_DRAFT := Draft([], [], [], None, None)

  // ---- fields -----------------------------------------------------------------

  function Required(fields: seq<string>, k: nat): Result<string, ErrorKind> {
    if k < |fields| && fields[k] != "" then Ok(fields[k]) else Err(MissingField)
  }

  function OptionalWith<T>(fields: seq<string>, k: nat, parse: string -> Option<T>): Result<Option<T>, ErrorKind> {
    var value :- Required(fields, k);
    if value == "-" then Ok(None)
    else
      match parse(value)
      case Some(v) => Ok(Some(v))
      case None => Err(BadField)
  }

  function OptionalNumber(fields: seq<string>, k: nat, max: nat, fallback: nat): Result<nat, ErrorKind> {
    if k >= |fields| || fields[k] == "-" then Ok(fallback)
    else
      match ParseUint(fields[k], max)
      case Some(n) => Ok(n)
      case None => Err(BadNumber)
  }

  function RequiredNumber(fields: seq<string>, k: nat, max: nat): Result<nat, ErrorKind> {
    var text :- Required(fields, k);
    match ParseUint(text, max)
    case Some(n) => Ok(n)
    case None => Err(BadNumber)
  }

  predicate IsAlnum(c: char) { '0' <= c <= '9' || 'A' <= c <= 'Z' || 'a' <= c <= 'z' }

  predicate IsExitKey(key: string) {
    key != "" && |Bytes(key)| <= MAX_EXIT_KEY && forall c :: c in key ==> IsAlnum(c) || c == '_' || c == '-'
  }

  predicate IsIfname(name: string) {
    name != "" && |Bytes(name)| <= MAX_IFNAME
    && forall c :: c in name ==> IsAlnum(c) || c == '_' || c == '-' || c == '.' || c == ':'
  }

  function ParseProto(text: string): Option<Proto> {
    if text == "tcp" then Some(Tcp) else if text == "udp" then Some(Udp) else None
  }

  function ParseHostField(text: string): Option<HostPattern> { ParsePattern(Bytes(text)) }

  function ParseRate(text: string): Option<nat> {
    match ParseUint(text, U32_MAX)
    case Some(n) => if n > 0 then Some(n) else None
    case None => None
  }

  // ---- one record ---------------------------------------------------------------

  function ListenRecord(listeners: seq<Listener>, fields: seq<string>): Result<seq<Listener>, ErrorKind> {
    var port :- RequiredNumber(fields, 1, U16_MAX);
    if port < MIN_LISTEN_PORT then Err(LowPort)
    else
      var mode :- Required(fields, 2);
      if mode != "tls" && mode != "http" then Err(BadMode)
      else if exists l :: l in listeners && l.port == port then Err(DuplicatePort)
      else Ok(listeners + [Listener(port, if mode == "tls" then TlsMode else HttpMode)])
  }

  function ExitRecord(exits: seq<ExitDecl>, fields: seq<string>): Result<seq<ExitDecl>, ErrorKind> {
    var key :- Required(fields, 1);
    if !IsExitKey(key) then Err(BadKey)
    else
      var ifname :- Required(fields, 2);
      if !IsIfname(ifname) then Err(BadIfname)
      else if exists e :: e in exits && e.key == key then Err(DuplicateKey)
      else if |exits| >= MAX_EXITS then Err(TooManyExits)
      else Ok(exits + [ExitDecl(key, ifname)])
  }

  function DefaultRecord(already: bool, fields: seq<string>): Result<string, ErrorKind> {
    if already then Err(SecondDefault) else Required(fields, 1)
  }

  function LimitsRecord(fields: seq<string>): Result<Limits, ErrorKind> {
    var maxFlows :- OptionalNumber(fields, 1, U64_MAX, DEFAULT_LIMITS.maxFlows);
    var idle :- OptionalNumber(fields, 2, U64_MAX, DEFAULT_LIMITS.idleSecs);
    var pipe :- OptionalNumber(fields, 3, U64_MAX, DEFAULT_LIMITS.pipeBytes);
    var workers :- OptionalNumber(fields, 4, U64_MAX, DEFAULT_LIMITS.workers);
    if maxFlows == 0 then Err(NoFlows) else Ok(Limits(maxFlows, idle, pipe, workers))
  }

  function RuleRecord(count: nat, fields: seq<string>): Result<PendingRule, ErrorKind> {
    var seqNo :- RequiredNumber(fields, 1, U16_MAX);
    var action :- Required(fields, 2);
    var src :- OptionalWith(fields, 3, ParseCidr);
    var dst :- OptionalWith(fields, 4, ParseCidr);
    var proto :- OptionalWith(fields, 5, ParseProto);
    var dports :- OptionalWith(fields, 6, ParsedPorts);
    var host :- OptionalWith(fields, 7, ParseHostField);
    var rate :- OptionalWith(fields, 8, ParseRate);
    if |fields| > 9 then Err(ExtraFields)
    else if count >= MAX_RULES then Err(TooManyRules)
    else Ok(PendingRule(seqNo, action, src, dst, proto, dports, host, rate))
  }

  datatype RecordKind = ListenLine | ExitLine | DefaultLine | RuleLine | LimitsLine | UnknownLine

  function KindOf(line: string): RecordKind {
    match Split(line, ' ')[0]
    case "LISTEN" => ListenLine
    case "EXIT" => ExitLine
    case "DEFAULT" => DefaultLine
    case "RULE" => RuleLine
    case "LIMITS" => LimitsLine
    case _ => UnknownLine
  }

  function At<T>(r: Result<T, ErrorKind>, number: nat): Result<T, ConfigError> {
    match r
    case Ok(v) => Ok(v)
    case Err(kind) => Err(ConfigError(number, kind))
  }

  function Record(d: Draft, line: string, number: nat): Result<Draft, ConfigError> {
    var fields := Split(line, ' ');
    match KindOf(line)
    case ListenLine =>
      var ls :- At(ListenRecord(d.listeners, fields), number);
      Ok(d.(listeners := ls))
    case ExitLine =>
      var es :- At(ExitRecord(d.exits, fields), number);
      Ok(d.(exits := es))
    case DefaultLine =>
      var text :- At(DefaultRecord(d.defaultAction.Some?, fields), number);
      Ok(d.(defaultAction := Some((text, number))))
    case RuleLine =>
      var rule :- At(RuleRecord(|d.pending|, fields), number);
      Ok(d.(pending := d.pending + [(rule, number)]))
    case LimitsLine =>
      var limits :- At(LimitsRecord(fields), number);
      Ok(d.(limits := Some(limits)))
    case UnknownLine => Err(ConfigError(number, UnknownRecord))
  }

  // ---- resolving -------------------------------------------------------------------

  /** Position of the exit with this key. */
  function FindExit(exits: seq<ExitDecl>, key: string): (r: Option<nat>)
    ensures r.Some? ==> r.value < |exits| && exits[r.value].key == key
    ensures r.None? ==> forall e :: e in exits ==> e.key != key
  {
    if exits == [] then None
    else if exits[0].key == key then Some(0)
    else
      match FindExit(exits[1..], key)
      case Some(k) => Some(k + 1)
      case None => None
  }

  function ResolveAction(text: string, exits: seq<ExitDecl>): Result<Action, ErrorKind> {
    if text == "direct" then Ok(Direct)
    else if text == "block" then Ok(Block)
    else if !("exit:" <= text) then Err(NotAnAction)
    else
      match FindExit(exits, text[5..])
      case Some(k) => Ok(Exit(k))
      case None => Err(UndeclaredExit)
  }

  function ActionToken(action: Action, exits: seq<ExitDecl>): Result<Label, ErrorKind> {
    match action
    case Direct => Ok(SimpleLabel(action))
    case Block => Ok(SimpleLabel(action))
    case Exit(k) =>
      if k >= |exits| then Err(UndeclaredExit)
      else
        match ExitLabel(exits[k].key)
        case Some(l) => Ok(l)
        case None => Err(KeyTooLong)
  }

  function ResolveRule(p: PendingRule, expected: nat, exits: seq<ExitDecl>): Result<Rule, ErrorKind> {
    if p.seqNo != expected then Err(SeqNotDense)
    else
      var action :- ResolveAction(p.action, exits);
      var token :- ActionToken(action, exits);
      Ok(Rule(p.seqNo, action, token, p.src, p.dst, p.proto, p.dports, p.host, p.rateKbps))
  }

  /** The first `n` pending rules, resolved in order. */
  function ResolveRules(d: Draft, n: nat): Result<seq<Rule>, ConfigError>
    requires n <= |d.pending|
  {
    if n == 0 then Ok([])
    else
      var before :- ResolveRules(d, n - 1);
      var rule :- At(ResolveRule(d.pending[n - 1].0, n, d.exits), d.pending[n - 1].1);
      Ok(before + [rule])
  }

  function Finish(d: Draft): Result<Config, ConfigError> {
    if d.listeners == [] then Err(ConfigError(0, NoListeners))
    else if d.defaultAction.None? then Err(ConfigError(0, NoDefault))
    else
      var (text, line) := d.defaultAction.value;
      var action :- At(ResolveAction(text, d.exits), line);
      var token :- At(ActionToken(action, d.exits), line);
      var rules :- ResolveRules(d, |d.pending|);
      Ok(Config(d.listeners, d.exits, rules, action, token,
                if d.limits.Some? then d.limits.value else DEFAULT_LIMITS))
  }

  // ---- the file ---------------------------------------------------------------------

  predicate Skipped(line: string) { line == "" || line[0] == '#' }

  function HeaderCheck(line: string): Result<(), ErrorKind> {
    var fields := Split(line, ' ');
    if fields[0] != "VPNPROXY" then Err(NotOurFile)
    else if |fields| < 2 || fields[1] != "1" then Err(WrongVersion)
    else if |fields| > 2 then Err(HeaderTooLong)
    else Ok(())
  }

  /** `str::lines`, up to the line ending that trimming removes anyway. */
  function TextLines(text: string): seq<string> {
    var parts := Split(text, '\n');
    if parts[|parts| - 1] == "" then parts[..|parts| - 1] else parts
  }

  /** One trimmed line; no draft until the header has been seen. */
  function Line(before: Option<Draft>, line: string, number: nat): Result<Option<Draft>, ConfigError> {
    if Skipped(line) then Ok(before)
    else if before.None? then
      var _ :- At(HeaderCheck(line), number);
      Ok(Some(EMPTY_DRAFT))
    else
      var d :- Record(before.value, line, number);
      Ok(Some(d))
  }

  /** What the first `n` lines build. */
  function Built(lines: seq<string>, n: nat): Result<Option<Draft>, ConfigError>
    requires n <= |lines|
  {
    if n == 0 then Ok(None)
    else
      var before :- Built(lines, n - 1);
      if n > MAX_LINES then Err(ConfigError(n, TooManyLines)) else Line(before, Trim(lines[n - 1]), n)
  }

  function ParseLines(lines: seq<string>): Result<Config, ConfigError> {
    var built :- Built(lines, |lines|);
    if built.None? then Err(ConfigError(0, NoHeader)) else Finish(built.value)
  }

  function ParseConfig(text: string): Result<Config, ConfigError> { ParseLines(TextLines(text)) }

  // ---- the builder ---------------------------------------------------------------------

  class Builder {
    var listeners: seq<Listener>
    var exits: seq<ExitDecl>
    var pending: seq<(PendingRule, nat)>
    var defaultAction: Option<(string, nat)>
    var limits: Option<Limits>

    function State(): Draft
      reads this
    {
      Draft(listeners, exits, pending, defaultAction, limits)
    }

    constructor ()
      ensures State() == EMPTY_DRAFT
    {
      listeners, exits, pending, defaultAction, limits := [], [], [], None, None;
    }

    /** An error leaves the draft as it was. */
    method AddRecord(line: string, number: nat) returns (r: Result<(), ConfigError>)
      modifies this
      ensures match Record(old(State()), line, number)
              case Ok(d) => r == Ok(()) && State() == d
              case Err(e) => r == Err(e) && State() == old(State())
    {
      var fields := Split(line, ' ');
      match KindOf(line)
      case ListenLine => r := Listen(fields, number);
      case ExitLine => r := AddExit(fields, number);
      case DefaultLine => r := Default(fields, number);
      case RuleLine => r := AddRule(fields, number);
      case LimitsLine => r := SetLimits(fields, number);
      case UnknownLine => r := Err(ConfigError(number, UnknownRecord));
    }

    method Listen(fields: seq<string>, number: nat) returns (r: Result<(), ConfigError>)
      modifies this`listeners
      ensures match ListenRecord(old(listeners), fields)
              case Ok(ls) => r == Ok(()) && listeners == ls
              case Err(kind) => r == Err(ConfigError(number, kind)) && listeners == old(listeners)
    {
      var port :- At(RequiredNumber(fields, 1, U16_MAX), number);
      if port < MIN_LISTEN_PORT {
        return Err(ConfigError(number, LowPort));
      }
      var mode :- At(Required(fields, 2), number);
      if mode != "tls" && mode != "http" {
        return Err(ConfigError(number, BadMode));
      }
      if exists l :: l in listeners && l.port == port {
        return Err(ConfigError(number, DuplicatePort));
      }
      listeners := listeners + [Listener(port, if mode == "tls" then TlsMode else HttpMode)];
      return Ok(());
    }

    method AddExit(fields: seq<string>, number: nat) returns (r: Result<(), ConfigError>)
      modifies this`exits
      ensures match ExitRecord(old(exits), fields)
              case Ok(es) => r == Ok(()) && exits == es
              case Err(kind) => r == Err(ConfigError(number, kind)) && exits == old(exits)
    {
      var key :- At(Required(fields, 1), number);
      if !IsExitKey(key) {
        return Err(ConfigError(number, BadKey));
      }
      var ifname :- At(Required(fields, 2), number);
      if !IsIfname(ifname) {
        return Err(ConfigError(number, BadIfname));
      }
      if exists e :: e in exits && e.key == key {
        return Err(ConfigError(number, DuplicateKey));
      }
      if |exits| >= MAX_EXITS {
        return Err(ConfigError(number, TooManyExits));
      }
      exits := exits + [ExitDecl(key, ifname)];
      return Ok(());
    }

    method Default(fields: seq<string>, number: nat) returns (r: Result<(), ConfigError>)
      modifies this`defaultAction
      ensures match DefaultRecord(old(defaultAction).Some?, fields)
              case Ok(text) => r == Ok(()) && defaultAction == Some((text, number))
              case Err(kind) => r == Err(ConfigError(number, kind)) && defaultAction == old(defaultAction)
    {
      if defaultAction.Some? {
        return Err(ConfigError(number, SecondDefault));
      }
      var action :- At(Required(fields, 1), number);
      defaultAction := Some((action, number));
      return Ok(());
    }

    method SetLimits(fields: seq<string>, number: nat) returns (r: Result<(), ConfigError>)
      modifies this`limits
      ensures match LimitsRecord(fields)
              case Ok(l) => r == Ok(()) && limits == Some(l)
              case Err(kind) => r == Err(ConfigError(number, kind)) && limits == old(limits)
    {
      var maxFlows :- At(OptionalNumber(fields, 1, U64_MAX, DEFAULT_LIMITS.maxFlows), number);
      var idle :- At(OptionalNumber(fields, 2, U64_MAX, DEFAULT_LIMITS.idleSecs), number);
      var pipe :- At(OptionalNumber(fields, 3, U64_MAX, DEFAULT_LIMITS.pipeBytes), number);
      var workers :- At(OptionalNumber(fields, 4, U64_MAX, DEFAULT_LIMITS.workers), number);
      if maxFlows == 0 {
        return Err(ConfigError(number, NoFlows));
      }
      limits := Some(Limits(maxFlows, idle, pipe, workers));
      return Ok(());
    }

    method AddRule(fields: seq<string>, number: nat) returns (r: Result<(), ConfigError>)
      modifies this`pending
      ensures match RuleRecord(|old(pending)|, fields)
              case Ok(rule) => r == Ok(()) && pending == old(pending) + [(rule, number)]
              case Err(kind) => r == Err(ConfigError(number, kind)) && pending == old(pending)
    {
      var seqNo :- At(RequiredNumber(fields, 1, U16_MAX), number);
      var action :- At(Required(fields, 2), number);
      var src :- At(OptionalWith(fields, 3, ParseCidr), number);
      var dst :- At(OptionalWith(fields, 4, ParseCidr), number);
      var proto :- At(OptionalWith(fields, 5, ParseProto), number);
      var dports :- At(OptionalWith(fields, 6, ParsedPorts), number);
      var host :- At(OptionalWith(fields, 7, ParseHostField), number);
      var rate :- At(OptionalWith(fields, 8, ParseRate), number);
      if |fields| > 9 {
        return Err(ConfigError(number, ExtraFields));
      }
      if |pending| >= MAX_RULES {
        return Err(ConfigError(number, TooManyRules));
      }
      pending := pending + [(PendingRule(seqNo, action, src, dst, proto, dports, host, rate), number)];
      return Ok(());
    }

    method Complete() returns (r: Result<Config, ConfigError>)
      ensures r == Finish(State())
    {
      if listeners == [] {
        return Err(ConfigError(0, NoListeners));
      }
      if defaultAction.None? {
        return Err(ConfigError(0, NoDefault));
      }
      var (text, line) := defaultAction.value;
      var action :- At(ResolveAction(text, exits), line);
      var token :- At(ActionToken(action, exits), line);
      var rules: seq<Rule> := [];
      var i := 0;
      while i < |pending|
        invariant 0 <= i <= |pending|
        invariant ResolveRules(State(), i) == Ok(rules)
      {
        var resolved := At(ResolveRule(pending[i].0, i + 1, exits), pending[i].1);
        if resolved.Err? {
          RulesFail(State(), i + 1, |pending|);
          return Err(resolved.error);
        }
        rules := rules + [resolved.value];
        i := i + 1;
      }
      return Ok(Config(listeners, exits, rules, action, token,
                       if limits.Some? then limits.value else DEFAULT_LIMITS));
    }
  }

  lemma RulesFailOnce(d: Draft, n: nat)
    requires 0 < n <= |d.pending| && ResolveRules(d, n - 1).Err?
    ensures ResolveRules(d, n) == ResolveRules(d, n - 1)
  {
    hide ResolveRule, At;
    assert ResolveRules(d, n - 1).IsFailure();
  }

  lemma {:induction false} RulesFail(d: Draft, k: nat, n: nat)
    requires k <= n <= |d.pending| && ResolveRules(d, k).Err?
    ensures ResolveRules(d, n) == ResolveRules(d, k)
    decreases n
  {
    hide ResolveRules;
    if k < n {
      RulesFail(d, k, n - 1);
      RulesFailOnce(d, n);
    }
  }

  lemma {:induction false} BuiltFails(lines: seq<string>, k: nat, n: nat)
    requires k <= n <= |lines| && Built(lines, k).Err?
    ensures Built(lines, n) == Built(lines, k)
    decreases n
  {
    if k < n {
      BuiltFails(lines, k, n - 1);
    }
  }

  method Parse(text: string) returns (r: Result<Config, ConfigError>)
    ensures r == ParseConfig(text)
  {
    var builder := new Builder();
    var seenHeader := false;
    var lines := TextLines(text);
    var offset := 0;
    while offset < |lines|
      invariant 0 <= offset <= |lines|
      invariant Built(lines, offset) == Ok(if seenHeader then Some(builder.State()) else None)
      invariant !seenHeader ==> builder.State() == EMPTY_DRAFT
    {
      var number := offset + 1;
      if number > MAX_LINES {
        BuiltFails(lines, number, |lines|);
        return Err(ConfigError(number, TooManyLines));
      }
      var line := Trim(lines[offset]);
      offset := number;
      if Skipped(line) {
        continue;
      }
      if !seenHeader {
        var checked := At(HeaderCheck(line), number);
        if checked.Err? {
          BuiltFails(lines, number, |lines|);
          return Err(checked.error);
        }
        seenHeader := true;
        continue;
      }
      var recorded := builder.AddRecord(line, number);
      if recorded.Err? {
        BuiltFails(lines, number, |lines|);
        return Err(recorded.error);
      }
    }
    if !seenHeader {
      return Err(ConfigError(0, NoHeader));
    }
    r := builder.Complete();
  }
}
