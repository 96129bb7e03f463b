/** Vendor mappings: from the fields a Source Pack extracted to the sections of a normalized event. */
module Mappings {
  import opened Common
  import opened Contracts
  import opened UnifiedEvents
  import opened SemanticValidation

  datatype MappingResult = MappingResult(
    category: string,
    eventType: string,
    name: string,
    message: Value,
    observerType: string,
    hostname: Value,
    softwareVersion: Value,
    action: Action,
    severity: Severity,
    source: Option<Endpoint>,
    destination: Option<Endpoint>,
    network: Option<Fields>,
    threat: Option<Threat>,
    authentication: Option<Authentication>,
    http: Option<Fields>,
    observedAt: Option<Iso>,
    missing: seq<string>,
    warnings: seq<string>)

  // ---- helpers ---------------------------------------------------------------------------------------

  /** Python's `a or b`. */
  function Or(a: Value, b: Value): Value {
    if Truthy(a) then a else b
  }

  function If(condition: bool, s: string): seq<string> {
    if condition then [s] else []
  }

  predicate Text(v: Value) {
    v.Str? && v.text != ""
  }

  /** `re.sub("[^a-z0-9]+", "_", s)`. */
  function Collapse(s: string, inRun: bool): string {
    if s == "" then ""
    else if AlphaNum(s[0]) then [s[0]] + Collapse(s[1..], false)
    else (if inRun then "" else "_") + Collapse(s[1..], true)
  }

  function StripLeft(s: string): string {
    if s != "" && s[0] == '_' then StripLeft(s[1..]) else s
  }

  function StripRight(s: string): string {
    if s != "" && s[|s| - 1] == '_' then StripRight(s[..|s| - 1]) else s
  }

  function Slug(s: string): string {
    StripRight(StripLeft(Collapse(s, false)))
  }

  predicate Joined(s: string) {
    && (forall i :: 0 <= i < |s| ==> AlphaNum(s[i]) || s[i] == '_')
    && (forall i :: 0 <= i < |s| - 1 ==> !(s[i] == '_' && s[i + 1] == '_'))
  }

  lemma {:induction false} CollapseJoins(s: string, inRun: bool)
    ensures var r := Collapse(s, inRun); Joined(r) && (inRun && r != "" ==> r[0] != '_')
  {
    if s != "" {
      var tail := Collapse(s[1..], !AlphaNum(s[0]));
      CollapseJoins(s[1..], !AlphaNum(s[0]));
      var r := Collapse(s, inRun);
      assert r == tail || (|r| == |tail| + 1 && r[1..] == tail);
      if r != tail {
        assert forall i :: 0 <= i < |tail| ==> r[i + 1] == tail[i];
        forall i | 0 <= i < |r| - 1 ensures !(r[i] == '_' && r[i + 1] == '_') {
          if i > 0 {
            assert !(tail[i - 1] == '_' && tail[i] == '_');
          }
        }
      }
    }
  }

  lemma {:induction false} StripLeftKeeps(s: string)
    requires Joined(s)
    ensures var r := StripLeft(s); Joined(r) && (r != "" ==> r[0] != '_')
  {
    if s != "" && s[0] == '_' {
      assert forall i :: 0 <= i < |s[1..]| ==> s[1..][i] == s[i + 1];
      forall i | 0 <= i < |s[1..]| - 1 ensures !(s[1..][i] == '_' && s[1..][i + 1] == '_') {
        assert !(s[i + 1] == '_' && s[i + 2] == '_');
      }
      StripLeftKeeps(s[1..]);
    }
  }

  lemma {:induction false} StripRightKeeps(s: string)
    requires Joined(s) && (s != "" ==> s[0] != '_')
    ensures var r := StripRight(s); Words(r) && (r != "" ==> r[0] != '_')
  {
    if s != "" && s[|s| - 1] == '_' {
      StripRightKeeps(s[..|s| - 1]);
    }
  }

  /** Whatever the text, its slug is made of lower-case words joined by single underscores. */
  lemma SlugIsWords(s: string)
    ensures Words(Slug(s)) && (Slug(s) != "" ==> AlphaNum(Slug(s)[0]))
  {
    CollapseJoins(s, false);
    StripLeftKeeps(Collapse(s, false));
    StripRightKeeps(StripLeft(Collapse(s, false)));
  }

  lemma {:induction false} CollapseKeepsWords(s: string)
    requires Words(s)
    ensures Collapse(s, false) == s
    ensures s != "" && s[0] != '_' ==> Collapse(s, true) == s
  {
    if s != "" {
      WordsCons(s);
      CollapseKeepsWords(s[1..]);
      assert s == [s[0]] + s[1..];
    }
  }

  /** What is already a slug stays as it is. */
  lemma SlugKeepsWords(s: string)
    requires Words(s) && (s != "" ==> s[0] != '_')
    ensures Slug(s) == s
  {
    CollapseKeepsWords(s);
  }

  function SlugOr(text: string, fallback: string): string {
    var slug := Slug(text);
    if slug == "" || !Letter(slug[0]) then fallback else slug
  }

  /** A slug with a fallback always satisfies the namespace grammar, if the fallback does. */
  lemma SlugOrIsNamespace(text: string, fallback: string)
    requires IsNamespace(fallback)
    ensures IsNamespace(SlugOr(text, fallback))
  {
    SlugIsWords(text);
    NamespaceIffWords(SlugOr(text, fallback));
  }

  function EventType(f: Foreign, value: Value, fallback: string): string {
    SlugOr(f.lower(f.strip(f.text(Or(value, Str(fallback))))), fallback)
  }

  function ValidIp(f: Foreign, v: Value): Option<string> {
    if v.Str? then f.parseIp(v.text) else None
  }

  function ValidPort(f: Foreign, v: Value): Option<int> {
    match f.toInt(v)
    case None => None
    case Some(port) => if 0 <= port <= 65535 then Some(port) else None
  }

  function OrNull(s: Option<string>): Value {
    if s.Some? then Str(s.value) else Null
  }

  /** `endpoint`: None when nothing usable is there. */
  function EndpointOf(f: Foreign, fields: Fields, ipKey: string, portKey: string, interfaceKey: string): Option<Endpoint> {
    var ip := ValidIp(f, Get(fields, ipKey));
    var port := ValidPort(f, Get(fields, portKey));
    var interface := Get(fields, interfaceKey);
    if ip.None? && port.None? && !Text(interface) then None
    else
      Some(Endpoint(
        OrNull(ip),
        if port.Some? then Int(port.value) else Null,
        if Text(interface) then interface else Null))
  }

  method BuildEndpoint(f: Foreign, fields: Fields, ipKey: string, portKey: string, interfaceKey: string)
    returns (r: Option<Endpoint>)
    ensures r == EndpointOf(f, fields, ipKey, portKey, interfaceKey)
  {
    var result := Endpoint(Null, Null, Null);
    var ip := ValidIp(f, Get(fields, ipKey));
    var port := ValidPort(f, Get(fields, portKey));
    var interface := Get(fields, interfaceKey);
    if ip.Some? {
      result := result.(ip := Str(ip.value));
    }
    if port.Some? {
      result := result.(port := Int(port.value));
    }
    if interface.Str? && interface.text != "" {
      result := result.(interface := interface);
    }
    r := if result == Endpoint(Null, Null, Null) then None else Some(result);
  }

  predicate WithIp(e: Option<Endpoint>) {
    e.Some? && e.value.ip != Null
  }

  /** The missing fields of an event between two endpoints. */
  function EndpointGaps(source: Option<Endpoint>, destination: Option<Endpoint>): seq<string> {
    If(!WithIp(source), "source.ip") + If(!WithIp(destination), "destination.ip")
  }

  function FlowGaps(source: Option<Endpoint>, destination: Option<Endpoint>, transport: Option<string>): seq<string> {
    EndpointGaps(source, destination) + If(transport.None?, "network.transport")
  }

  function NoteMessage(missing: seq<string>, present: bool): seq<string> {
    if present then missing else missing + ["event.message"]
  }

  lemma NoGaps(source: Option<Endpoint>, destination: Option<Endpoint>, transport: Option<string>)
    ensures EndpointGaps(source, destination) == [] <==> WithIp(source) && WithIp(destination)
    ensures FlowGaps(source, destination, transport) == [] <==>
            WithIp(source) && WithIp(destination) && transport.Some?
  {
  }

  method NoteEndpoints(source: Option<Endpoint>, destination: Option<Endpoint>) returns (missing: seq<string>)
    ensures missing == EndpointGaps(source, destination)
  {
    missing := [];
    if source.None? || source.value.ip == Null {
      missing := missing + ["source.ip"];
    }
    if destination.None? || destination.value.ip == Null {
      missing := missing + ["destination.ip"];
    }
  }

  // ---- severity tables -------------------------------------------------------------------------------

  const SEVERITY_MISSING := "Source severity is missing or unrecognized"

  function SyslogScore(code: int): Option<(int, string)> {
    match code
    case 0 => Some((10, "critical"))
    case 1 => Some((9, "critical"))
    case 2 => Some((8, "high"))
    case 3 => Some((7, "high"))
    case 4 => Some((5, "medium"))
    case 5 => Some((4, "medium"))
    case 6 => Some((2, "low"))
    case 7 => Some((0, "informational"))
    case _ => None
  }

  function FortinetScore(level: string): Option<(int, string)> {
    if level == "emergency" then Some((10, "critical"))
    else if level == "alert" then Some((9, "critical"))
    else if level == "critical" then Some((8, "high"))
    else if level == "error" then Some((7, "high"))
    else if level == "warning" then Some((5, "medium"))
    else if level == "notice" then Some((4, "medium"))
    else if level == "information" then Some((2, "low"))
    else if level == "debug" then Some((0, "informational"))
    else None
  }

  /** The score, label and confidence of an alert severity; a key equal to 1, 2 or 3 is found whatever its
      numeric type. */
  function SuricataScore(v: Value): Option<(int, string, Value)> {
    if v == Int(1) || v == Bool(true) || v == Float(1, 0) then Some((8, "high", Float(9, -1)))
    else if v == Int(2) || v == Float(2, 0) then Some((5, "medium", Float(7, -1)))
    else if v == Int(3) || v == Float(3, 0) then Some((2, "low", Float(5, -1)))
    else None
  }

  function Scored(original: string, score: Option<(int, string)>): Severity {
    match score
    case None => Severity(Str(original), Int(0), Str("unknown"))
    case Some((n, rating)) => Severity(Str(original), Int(n), Str(rating))
  }

  /** `syslog_severity`, with its warnings. */
  function SyslogSeverity(f: Foreign, v: Value): (Severity, seq<string>) {
    var score := SyslogScore(f.toInt(v).GetOr(-1));
    if score.None? then (Scored(f.text(Or(v, Str("unknown"))), None), [SEVERITY_MISSING])
    else (Scored(f.text(v), score), [])
  }

  // ---- Fortinet FortiGate ----------------------------------------------------------------------------

  function FortinetTransport(f: Foreign, fields: Fields): Option<string> {
    match f.toInt(Get(fields, "protocol"))
    case None => None
    case Some(n) =>
      if n == 1 then Some("icmp") else if n == 6 then Some("tcp") else if n == 17 then Some("udp")
      else if n == 47 then Some("gre") else if n == 58 then Some("icmpv6") else None
  }

  function FortinetActionText(fields: Fields): Value {
    Or(Or(Get(fields, "action"), Get(fields, "status")), Str("unknown"))
  }

  predicate FortinetIsLogin(f: Foreign, fields: Fields) {
    f.lower(f.text(FortinetActionText(fields))) == "login" && Text(Get(fields, "user"))
  }

  function FortinetLoginOutcome(f: Foreign, fields: Fields): string {
    var status := f.lower(f.text(Or(Get(fields, "status"), Str("unknown"))));
    if status == "failed" || status == "failure" then "failure"
    else if status == "success" then "success"
    else "unknown"
  }

  /** The normalized action and its outcome. */
  function FortinetVerdict(f: Foreign, fields: Fields): (string, string) {
    var action := f.lower(f.text(FortinetActionText(fields)));
    if FortinetIsLogin(f, fields) then ("authenticate", FortinetLoginOutcome(f, fields))
    else if action == "deny" || action == "denied" || action == "block" || action == "blocked" then ("block", "failure")
    else if action == "accept" || action == "allow" || action == "allowed" || action == "pass" then ("allow", "success")
    else ("unknown", "unknown")
  }

  function FortinetMap(f: Foreign, fields: Fields): MappingResult {
    var source := EndpointOf(f, fields, "src_ip", "src_port", "src_intf");
    var destination := EndpointOf(f, fields, "dst_ip", "dst_port", "dst_intf");
    var transport := FortinetTransport(f, fields);
    var family := f.lower(f.text(Or(Get(fields, "event_type"), Str(""))));
    var isFlow := family == "traffic" || family == "utm";
    var isNetwork := isFlow && WithIp(source) && WithIp(destination) && transport.Some?;
    var isLogin := FortinetIsLogin(f, fields);
    var (normalized, outcome) := FortinetVerdict(f, fields);
    var level := f.lower(f.text(Or(Get(fields, "level"), Str("unknown"))));
    var message := Or(Get(fields, "message"), Get(fields, "log_description"));
    MappingResult(
      if isLogin then "authentication" else if isNetwork then "network" else if isFlow then "unknown" else "system",
      EventType(f, Or(Get(fields, "event_subtype"), Get(fields, "event_type")), "fortigate_event"),
      "FortiGate security event",
      if Text(message) then message else Null,
      "firewall",
      if Text(Get(fields, "hostname")) then Get(fields, "hostname") else Null,
      Null,
      Action(Str(f.text(FortinetActionText(fields))), Str(normalized), Str(outcome)),
      Scored(level, FortinetScore(level)),
      source,
      destination,
      if isNetwork then Some(map["transport" := Str(transport.value), "direction" := Str("unknown")]) else None,
      None,
      if isLogin then Some(Authentication(Get(fields, "user"), Str(outcome))) else None,
      None,
      None,
      NoteMessage(if isFlow then FlowGaps(source, destination, transport) else [], Text(message)),
      If(FortinetScore(level).None?, SEVERITY_MISSING))
  }

  predicate FortinetDenial(action: string) {
    action in {"deny", "denied", "block", "blocked"}
  }

  predicate FortinetAllowance(action: string) {
    action in {"accept", "allow", "allowed", "pass"}
  }

  /** A login of a named user is an authentication whatever else its action text could mean, with the outcome
      its status names. Any other event fails exactly when its action is a denial, which is blocked and never
      succeeds, and succeeds exactly when it is an allowance. */
  method ClassifyFortinet(f: Foreign, fields: Fields) returns (isLogin: bool, normalized: string, outcome: string)
    ensures isLogin == FortinetIsLogin(f, fields) && (normalized, outcome) == FortinetVerdict(f, fields)
    ensures var action := f.lower(f.text(FortinetActionText(fields)));
            && (isLogin <==> action == "login" && Text(Get(fields, "user")))
            && (normalized == "authenticate" <==> isLogin)
            && (normalized == "block" <==> FortinetDenial(action))
            && (normalized == "allow" <==> FortinetAllowance(action))
            && (!isLogin ==> (outcome == "failure" <==> normalized == "block"))
            && (!isLogin ==> (outcome == "success" <==> normalized == "allow"))
    ensures var status := f.lower(f.text(Or(Get(fields, "status"), Str("unknown"))));
            && (isLogin ==> (outcome == "failure" <==> status in {"failed", "failure"}))
            && (isLogin ==> (outcome == "success" <==> status == "success"))
    ensures normalized in {"authenticate", "block", "allow", "unknown"} && outcome in {"success", "failure", "unknown"}
  {
    var action := f.lower(f.text(FortinetActionText(fields)));
    normalized, outcome := "unknown", "unknown";
    isLogin := action == "login" && Text(Get(fields, "user"));
    if isLogin {
      normalized := "authenticate";
      var status := f.lower(f.text(Or(Get(fields, "status"), Str("unknown"))));
      if status == "failed" {
        status := "failure";
      }
      if status == "success" || status == "failure" {
        outcome := status;
      }
    } else if action == "deny" || action == "denied" || action == "block" || action == "blocked" {
      normalized, outcome := "block", "failure";
    } else if action == "accept" || action == "allow" || action == "allowed" || action == "pass" {
      normalized, outcome := "allow", "success";
    }
  }

  /** `FortinetFortigateMapping.map`, step by step. */
  method MapFortinet(f: Foreign, fields: Fields) returns (r: MappingResult)
    ensures r == FortinetMap(f, fields)
  {
    hide EndpointOf, EventType, FortinetTransport, FortinetScore, FortinetVerdict, FortinetIsLogin, EndpointGaps, Or, Truthy;
    var source := BuildEndpoint(f, fields, "src_ip", "src_port", "src_intf");
    var destination := BuildEndpoint(f, fields, "dst_ip", "dst_port", "dst_intf");
    var transport := FortinetTransport(f, fields);
    var missing: seq<string> := [];
    var family := f.lower(f.text(Or(Get(fields, "event_type"), Str(""))));
    var isFlow := family == "traffic" || family == "utm";
    if isFlow {
      missing := NoteEndpoints(source, destination);
      missing := missing + (if transport.None? then ["network.transport"] else []);
      NoGaps(source, destination, transport);
    }
    var isNetwork := isFlow && missing == [];
    var isLogin, normalized, outcome := ClassifyFortinet(f, fields);
    var level := f.lower(f.text(Or(Get(fields, "level"), Str("unknown"))));
    var warnings: seq<string> := [];
    var score := FortinetScore(level);
    if score.None? {
      warnings := [SEVERITY_MISSING];
    }
    var severity := Scored(level, score);
    var category := "system";
    if isLogin {
      category := "authentication";
    } else if isNetwork {
      category := "network";
    } else if isFlow {
      category := "unknown";
    }
    var message := Or(Get(fields, "message"), Get(fields, "log_description"));
    if !Text(message) {
      missing := missing + ["event.message"];
      message := Null;
    }
    var authentication := if isLogin then Some(Authentication(Get(fields, "user"), Str(outcome))) else None;
    r := MappingResult(
      category,
      EventType(f, Or(Get(fields, "event_subtype"), Get(fields, "event_type")), "fortigate_event"),
      "FortiGate security event", message, "firewall",
      if Text(Get(fields, "hostname")) then Get(fields, "hostname") else Null, Null,
      Action(Str(f.text(FortinetActionText(fields))), Str(normalized), Str(outcome)), severity, source, destination,
      if isNetwork then Some(map["transport" := Str(transport.value), "direction" := Str("unknown")]) else None,
      None, authentication, None, None, missing, warnings);
  }

  // ---- Cisco ASA -------------------------------------------------------------------------------------

  predicate Contains(s: string, part: string) {
    part <= s || (s != "" && Contains(s[1..], part))
  }

  function CiscoTransport(f: Foreign, fields: Fields): Option<string> {
    var p := f.lower(f.text(Or(Get(fields, "protocol"), Str(""))));
    if p == "tcp" || p == "udp" || p == "icmp" || p == "icmpv6" || p == "gre" then Some(p) else None
  }

  function CiscoVerdict(action: string): (string, string) {
    if Contains(action, "deny") then ("deny", "failure")
    else if Contains(action, "built") || Contains(action, "permit") || Contains(action, "allow") then ("allow", "success")
    else if Contains(action, "teardown") then ("disconnect", "success")
    else ("unknown", "unknown")
  }

  function CiscoMap(f: Foreign, fields: Fields): MappingResult {
    var source := EndpointOf(f, fields, "src_ip", "src_port", "src_interface");
    var destination := EndpointOf(f, fields, "dst_ip", "dst_port", "dst_interface");
    var transport := CiscoTransport(f, fields);
    var isNetwork := WithIp(source) && WithIp(destination) && transport.Some?;
    var original := f.text(Or(Get(fields, "action"), Str("unknown")));
    var (normalized, outcome) := CiscoVerdict(f.lower(original));
    var (severity, warnings) := SyslogSeverity(f, Get(fields, "severity"));
    var message := Get(fields, "message_text");
    MappingResult(
      if isNetwork then "network" else "unknown",
      EventType(f, Get(fields, "event_type"), "firewall_event"),
      "Cisco ASA firewall event",
      if Text(message) then message else Null,
      "firewall",
      if Text(Get(fields, "hostname")) then Get(fields, "hostname") else Null,
      Null,
      Action(Str(original), Str(normalized), Str(outcome)),
      severity,
      source,
      destination,
      if isNetwork then Some(map["transport" := Str(transport.value), "direction" := Str("unknown")]) else None,
      None, None, None, None,
      NoteMessage(FlowGaps(source, destination, transport), Text(message)),
      warnings)
  }

  predicate Occurs(s: string, part: string) {
    exists i :: 0 <= i <= |s| && part <= s[i..]
  }

  lemma {:induction false} ContainsIffOccurs(s: string, part: string)
    ensures Contains(s, part) <==> Occurs(s, part)
  {
    if s != "" {
      ContainsIffOccurs(s[1..], part);
      assert forall i :: 0 <= i <= |s| - 1 ==> s[1..][i..] == s[i + 1..];
      if Occurs(s, part) && !(part <= s) {
        var i :| 0 <= i <= |s| && part <= s[i..];
        assert s[0..] == s;
        assert part <= s[1..][i - 1..];
      }
      if Occurs(s[1..], part) {
        var i :| 0 <= i <= |s| - 1 && part <= s[1..][i..];
        assert part <= s[i + 1..];
      }
    }
    assert s[0..] == s;
  }

  predicate CiscoAllows(action: string) {
    Occurs(action, "built") || Occurs(action, "permit") || Occurs(action, "allow")
  }

  /** A text that mentions a denial is denied and fails, whatever else it mentions; only then can it be allowed,
      and only then be the end of a connection. Exactly these two succeed. */
  method ClassifyCisco(action: string) returns (normalized: string, outcome: string)
    ensures (normalized, outcome) == CiscoVerdict(action)
    ensures normalized == "deny" <==> Occurs(action, "deny")
    ensures normalized == "allow" <==> CiscoAllows(action) && !Occurs(action, "deny")
    ensures normalized == "disconnect" <==> Occurs(action, "teardown") && !CiscoAllows(action) && !Occurs(action, "deny")
    ensures outcome == "failure" <==> normalized == "deny"
    ensures outcome == "success" <==> normalized in {"allow", "disconnect"}
    ensures normalized in {"deny", "allow", "disconnect", "unknown"} && outcome in {"success", "failure", "unknown"}
  {
    hide Contains, Occurs;
    ContainsIffOccurs(action, "deny");
    ContainsIffOccurs(action, "built");
    ContainsIffOccurs(action, "permit");
    ContainsIffOccurs(action, "allow");
    ContainsIffOccurs(action, "teardown");
    normalized, outcome := "unknown", "unknown";
    if Contains(action, "deny") {
      normalized, outcome := "deny", "failure";
    } else if Contains(action, "built") || Contains(action, "permit") || Contains(action, "allow") {
      normalized, outcome := "allow", "success";
    } else if Contains(action, "teardown") {
      normalized, outcome := "disconnect", "success";
    }
  }

  /** `CiscoASAMapping.map`, step by step. */
  method MapCisco(f: Foreign, fields: Fields) returns (r: MappingResult)
    ensures r == CiscoMap(f, fields)
  {
    hide EndpointOf, EventType, CiscoTransport, SyslogSeverity, CiscoVerdict, EndpointGaps, Or, Truthy;
    var source := BuildEndpoint(f, fields, "src_ip", "src_port", "src_interface");
    var destination := BuildEndpoint(f, fields, "dst_ip", "dst_port", "dst_interface");
    var transport := CiscoTransport(f, fields);
    var missing := NoteEndpoints(source, destination);
    missing := missing + (if transport.None? then ["network.transport"] else []);
    NoGaps(source, destination, transport);
    var isNetwork := missing == [];
    var original := f.text(Or(Get(fields, "action"), Str("unknown")));
    var normalized, outcome := ClassifyCisco(f.lower(original));
    var (severity, warnings) := SyslogSeverity(f, Get(fields, "severity"));
    var message := Get(fields, "message_text");
    if !Text(message) {
      missing := missing + ["event.message"];
      message := Null;
    }
    r := MappingResult(
      if isNetwork then "network" else "unknown",
      EventType(f, Get(fields, "event_type"), "firewall_event"),
      "Cisco ASA firewall event", message, "firewall",
      if Text(Get(fields, "hostname")) then Get(fields, "hostname") else Null, Null,
      Action(Str(original), Str(normalized), Str(outcome)), severity, source, destination,
      if isNetwork then Some(map["transport" := Str(transport.value), "direction" := Str("unknown")]) else None,
      None, None, None, None, missing, warnings);
  }

  // ---- generic Linux syslog --------------------------------------------------------------------------

  function LinuxMap(f: Foreign, fields: Fields): MappingResult {
    var (severity, warnings) := SyslogSeverity(f, Get(fields, "severity"));
    var process, message := Get(fields, "process"), Get(fields, "message");
    MappingResult(
      "system",
      EventType(f, process, "system_log"),
      if Truthy(process) then "Linux Syslog" + (" (" + f.text(process) + ")") else "Linux Syslog",
      if Text(message) then message else Null,
      "unknown",
      if Text(Get(fields, "hostname")) then Get(fields, "hostname") else Null,
      Null,
      Action(Str("unknown"), Str("unknown"), Str("unknown")),
      severity,
      None, None, None, None, None, None, None,
      NoteMessage([], Text(message)),
      warnings)
  }

  /** `GenericLinuxSyslogMapping.map`, step by step. */
  method MapLinux(f: Foreign, fields: Fields) returns (r: MappingResult)
    ensures r == LinuxMap(f, fields)
  {
    hide EventType, SyslogSeverity;
    var (severity, warnings) := SyslogSeverity(f, Get(fields, "severity"));
    var hostname, process := Get(fields, "hostname"), Get(fields, "process");
    if !hostname.Str? || hostname.text == "" {
      hostname := Null;
    }
    var name := "Linux Syslog";
    if Truthy(process) {
      name := name + (" (" + f.text(process) + ")");
    }
    var missing: seq<string> := [];
    var message := Get(fields, "message");
    if !message.Str? || message.text == "" {
      missing := missing + ["event.message"];
      message := Null;
    }
    var unknown := Str("unknown");
    r := MappingResult(
      "system", EventType(f, process, "system_log"), name, message, "unknown", hostname, Null,
      Action(unknown, unknown, unknown), severity, None, None, None, None, None, None, None, missing, warnings);
  }

  // ---- Suricata EVE ----------------------------------------------------------------------------------

  function SuricataFamily(f: Foreign, fields: Fields): string {
    f.lower(f.text(Or(Get(fields, "event_type"), Str("unknown"))))
  }

  predicate Hashable(v: Value) {
    !v.List? && !v.Dict?
  }

  /** The mapping reads an alert's action and severity. It raises when the alert is there and not an object,
      and when the severity cannot be looked up in the table. */
  predicate SuricataRaises(f: Foreign, fields: Fields) {
    && SuricataFamily(f, fields) == "alert"
    && (("alert" in fields && !fields["alert"].Dict?) || !Hashable(Get(AlertOf(fields), "severity")))
  }

  /** The alert object, empty when there is none. */
  function AlertOf(fields: Fields): Fields {
    match Get(fields, "alert")
    case Dict(entries) => entries
    case _ => map[]
  }

  function SuricataAction(f: Foreign, fields: Fields, family: string): Action {
    if family == "alert" then
      var original := f.text(Or(Get(AlertOf(fields), "action"), Str("alert")));
      if f.lower(original) == "blocked" then Action(Str(original), Str("block"), Str("failure"))
      else Action(Str(original), Str("detect"), Str("success"))
    else
      Action(Str(family), Str("connect"), Str("success"))
  }

  function SuricataSeverity(f: Foreign, fields: Fields, family: string): Severity {
    if family != "alert" then Severity(Str("informational"), Int(0), Str("informational"))
    else
      var original := Get(AlertOf(fields), "severity");
      match SuricataScore(original)
      case None => Severity(Str(f.text(Or(original, Str("unknown")))), Int(0), Str("unknown"))
      case Some((n, rating, _)) => Severity(Str(f.text(original)), Int(n), Str(rating))
  }

  function SuricataThreat(f: Foreign, fields: Fields): Threat {
    var alert := AlertOf(fields);
    var score := SuricataScore(Get(alert, "severity"));
    var category := Get(alert, "category");
    Threat(
      Str(f.text(Or(Get(alert, "signature"), Str("Unknown Suricata alert")))),
      if score.Some? then score.value.2 else Float(3, -1),
      if Get(alert, "signature_id") == Null then Null else Str(f.text(Get(alert, "signature_id"))),
      if Truthy(category) then Str(EventType(f, category, "unknown")) else Null)
  }

  function Counter(v: Value): Option<nat> {
    if v.Int? && v.number >= 0 then Some(v.number) else None
  }

  function SumOf(flow: Fields, a: string, b: string): Option<nat> {
    var x, y := Counter(Get(flow, a)), Counter(Get(flow, b));
    if x.Some? && y.Some? then Some(x.value + y.value) else None
  }

  function SuricataTransport(f: Foreign, fields: Fields): string {
    var p := f.lower(f.text(Or(Get(fields, "proto"), Str("unknown"))));
    if p == "tcp" || p == "udp" || p == "icmp" || p == "icmpv6" || p == "gre" then p else "unknown"
  }

  function SuricataNetwork(f: Foreign, fields: Fields): Fields {
    var direction := f.text(Get(fields, "direction"));
    var network: Fields := map[
      "transport" := Str(SuricataTransport(f, fields)),
      "application_protocol" := Str(f.text(Or(Get(fields, "app_proto"), Str("unknown")))),
      "direction" := Str(if direction == "to_server" then "outbound"
                         else if direction == "to_client" then "inbound" else "unknown")];
    match Get(fields, "flow")
    case Dict(flow) =>
      var packets := SumOf(flow, "pkts_toserver", "pkts_toclient");
      var octets := SumOf(flow, "bytes_toserver", "bytes_toclient");
      var counted := if packets.Some? then network["packets" := Int(packets.value)] else network;
      if octets.Some? then counted["bytes" := Int(octets.value)] else counted
    case _ => network
  }

  function GetDefault(fields: Fields, key: string, default: string): Value {
    if key in fields then fields[key] else Str(default)
  }

  function SuricataMessage(f: Foreign, fields: Fields, family: string): Value {
    match Get(fields, family)
    case Dict(body) =>
      if family == "alert" then Get(body, "signature")
      else if family == "dns" then
        if Truthy(Get(body, "rrname")) then
          Str("DNS " + f.text(GetDefault(body, "type", "transaction")) + ": " + f.text(Get(body, "rrname")))
        else Str("DNS event")
      else if family == "http" then
        Str("HTTP " + f.text(GetDefault(body, "http_method", "request")) + " " + f.text(GetDefault(body, "url", "/")))
      else if family == "flow" then
        Str("Flow " + f.text(GetDefault(body, "state", "unknown")) + ": "
            + f.text(GetDefault(body, "reason", "unspecified")))
      else Null
    case _ => Null
  }

  function SuricataCategory(family: string, source: Option<Endpoint>, destination: Option<Endpoint>): string {
    if family == "alert" then "intrusion_detection"
    else if family == "flow" || family == "dns" then
      (if source.None? || destination.None? then "unknown" else "network")
    else if family == "http" then "web"
    else "unknown"
  }

  function SuricataMap(f: Foreign, fields: Fields): MappingResult {
    var family := SuricataFamily(f, fields);
    var source := EndpointOf(f, fields, "src_ip", "src_port", "in_iface");
    var destination := EndpointOf(f, fields, "dest_ip", "dest_port", "out_iface");
    var message := SuricataMessage(f, fields, family);
    var isFlow := family == "flow" || family == "dns";
    var timestamp := Get(fields, "timestamp");
    MappingResult(
      SuricataCategory(family, source, destination),
      SlugOr(f.lower(f.strip("suricata_" + family)), "suricata_event"),
      if family != "unknown" then "Suricata " + family + " event" else "Suricata event",
      if Truthy(message) then message else Null,
      "ips",
      Null,
      if Text(Get(fields, "suricata_version")) then Get(fields, "suricata_version") else Null,
      SuricataAction(f, fields, family),
      SuricataSeverity(f, fields, family),
      source,
      destination,
      Some(SuricataNetwork(f, fields)),
      if family == "alert" then Some(SuricataThreat(f, fields)) else None,
      None,
      if family == "http" then SuricataHttp(f, fields) else None,
      if timestamp.Str? then f.parseIso(timestamp.text) else None,
      NoteMessage(if isFlow then EndpointGaps(source, destination) else [], Truthy(message)),
      [])
  }

  /** The http section keeps what is well-formed. */
  function SuricataHttp(f: Foreign, fields: Fields): Option<Fields> {
    match Get(fields, "http")
    case Dict(http) =>
      var host, path, status, agent := Get(http, "hostname"), Get(http, "url"), Get(http, "status"), Get(http, "http_user_agent");
      var verb := Get(http, "http_method");
      var r1: Fields := if verb.Str? && f.isAlpha(verb.text) then map["method" := Str(f.upper(verb.text))] else map[];
      var r2 := if Text(host) then r1["host" := host] else r1;
      var r3 := if Text(path) && path.text[0] == '/' then r2["path" := path] else r2;
      var r4 := if status.Int? && 100 <= status.number <= 599 then r3["status_code" := status] else r3;
      var result := if agent.Str? then r4["user_agent" := agent] else r4;
      if result == map[] then None else Some(result)
    case _ => None
  }

  /** `_threat`: the section is filled key by key. */
  method BuildThreat(f: Foreign, fields: Fields) returns (threat: Threat)
    ensures threat == SuricataThreat(f, fields)
  {
    hide EventType;
    var alert := AlertOf(fields);
    var confidence := Float(3, -1);
    var score := SuricataScore(Get(alert, "severity"));
    if score.Some? {
      confidence := score.value.2;
    }
    var signature := Get(alert, "signature");
    var name := if Truthy(signature) then f.text(signature) else f.text(Str("Unknown Suricata alert"));
    threat := Threat(Str(name), confidence, Null, Null);
    var signatureId := Get(alert, "signature_id");
    if signatureId != Null {
      threat := threat.(signatureId := Str(f.text(signatureId)));
    }
    var category := Get(alert, "category");
    if Truthy(category) {
      threat := threat.(category := Str(EventType(f, category, "unknown")));
    }
  }

  /** `_network`: counts are added when the flow gives both of them. */
  method BuildNetwork(f: Foreign, fields: Fields) returns (network: Fields)
    ensures network == SuricataNetwork(f, fields)
  {
    hide SuricataTransport, Counter;
    var direction := "unknown";
    var stated := f.text(Get(fields, "direction"));
    if stated == "to_server" {
      direction := "outbound";
    } else if stated == "to_client" {
      direction := "inbound";
    }
    network := map[
      "transport" := Str(SuricataTransport(f, fields)),
      "application_protocol" := Str(f.text(Or(Get(fields, "app_proto"), Str("unknown")))),
      "direction" := Str(direction)];
    var flow := Get(fields, "flow");
    if flow.Dict? {
      var sent, answered := Counter(Get(flow.entries, "pkts_toserver")), Counter(Get(flow.entries, "pkts_toclient"));
      if sent.Some? && answered.Some? {
        network := network["packets" := Int(sent.value + answered.value)];
      }
      var up, down := Counter(Get(flow.entries, "bytes_toserver")), Counter(Get(flow.entries, "bytes_toclient"));
      if up.Some? && down.Some? {
        network := network["bytes" := Int(up.value + down.value)];
      }
    }
  }

  /** `_http`: a key for each field that is well-formed, and no section without any. */
  method BuildHttp(f: Foreign, fields: Fields) returns (section: Option<Fields>)
    ensures section == SuricataHttp(f, fields)
  {
    var source := Get(fields, "http");
    if !source.Dict? {
      return None;
    }
    var result: Fields := map[];
    var verb, host := Get(source.entries, "http_method"), Get(source.entries, "hostname");
    if verb.Str? && f.isAlpha(verb.text) {
      result := result["method" := Str(f.upper(verb.text))];
    }
    if host.Str? && host.text != "" {
      result := result["host" := host];
    }
    var path, status := Get(source.entries, "url"), Get(source.entries, "status");
    if path.Str? && path.text != "" && path.text[0] == '/' {
      result := result["path" := path];
    }
    if status.Int? && 100 <= status.number <= 599 {
      result := result["status_code" := status];
    }
    var agent := Get(source.entries, "http_user_agent");
    if agent.Str? {
      result := result["user_agent" := agent];
    }
    section := if result == map[] then None else Some(result);
  }

  /** `SuricataEveMapping.map`, step by step; `None` when it raises. */
  method MapSuricata(f: Foreign, fields: Fields) returns (r: Option<MappingResult>)
    ensures r == if SuricataRaises(f, fields) then None else Some(SuricataMap(f, fields))
  {
    hide EndpointOf, EndpointGaps, SlugOr, SuricataNetwork, SuricataMessage, SuricataHttp, SuricataThreat, SuricataAction,
      SuricataSeverity, SuricataFamily;
    var family := SuricataFamily(f, fields);
    var source := BuildEndpoint(f, fields, "src_ip", "src_port", "in_iface");
    var destination := BuildEndpoint(f, fields, "dest_ip", "dest_port", "out_iface");
    var category := "unknown";
    if family == "alert" {
      category := "intrusion_detection";
    } else if family == "flow" || family == "dns" {
      category := "network";
    } else if family == "http" {
      category := "web";
    }
    if category == "network" && (source.None? || destination.None?) {
      category := "unknown";
    }
    if family == "alert" {
      if "alert" in fields && !fields["alert"].Dict? {
        return None;
      }
      var severity := Get(AlertOf(fields), "severity");
      if severity.List? || severity.Dict? {
        return None;
      }
    }
    var message := SuricataMessage(f, fields, family);
    var missing: seq<string> := [];
    if family == "flow" || family == "dns" {
      missing := NoteEndpoints(source, destination);
    }
    if !Truthy(message) {
      missing := missing + ["event.message"];
      message := Null;
    }
    var observedAt: Option<Iso> := None;
    var timestamp := Get(fields, "timestamp");
    if timestamp.Str? {
      observedAt := f.parseIso(timestamp.text);
    }
    var network := BuildNetwork(f, fields);
    var threat, http := None, None;
    if family == "alert" {
      var section := BuildThreat(f, fields);
      threat := Some(section);
    }
    if family == "http" {
      http := BuildHttp(f, fields);
    }
    r := Some(MappingResult(
      category,
      SlugOr(f.lower(f.strip("suricata_" + family)), "suricata_event"),
      if family != "unknown" then "Suricata " + family + " event" else "Suricata event",
      message, "ips", Null,
      if Text(Get(fields, "suricata_version")) then Get(fields, "suricata_version") else Null,
      SuricataAction(f, fields, family), SuricataSeverity(f, fields, family), source, destination,
      Some(network), threat, None, http, observedAt, missing, []));
  }

  // ---- the registry ----------------------------------------------------------------------------------

  datatype Vendor = CiscoAsa | Fortigate | LinuxSyslog | Suricata

  function VendorOf(packId: Option<string>): Option<Vendor> {
    if packId == Some("cisco_asa") then Some(CiscoAsa)
    else if packId == Some("fortinet_fortigate") then Some(Fortigate)
    else if packId == Some("generic_linux_syslog") then Some(LinuxSyslog)
    else if packId == Some("suricata_eve") then Some(Suricata)
    else None
  }

  const UNKNOWN_MAPPING := MappingResult(
    "unknown", "unmapped_event", "Unmapped source event", Null, "unknown", Null, Null,
    Action(Str("unknown"), Str("unknown"), Str("unknown")),
    Severity(Str("unknown"), Int(0), Str("unknown")),
    None, None, None, None, None, None, None,
    ["normalization.mapping"],
    ["No normalization mapping is registered for this Source Pack"])

  /** Whether the mapping chosen for a Source Pack raises on these fields. */
  predicate MapRaises(f: Foreign, packId: Option<string>, fields: Fields) {
    VendorOf(packId) == Some(Suricata) && SuricataRaises(f, fields)
  }

  /** What the mapping yields when it does not raise. */
  function MapEvent(f: Foreign, packId: Option<string>, fields: Fields): MappingResult {
    match VendorOf(packId)
    case None => UNKNOWN_MAPPING
    case Some(CiscoAsa) => CiscoMap(f, fields)
    case Some(Fortigate) => FortinetMap(f, fields)
    case Some(LinuxSyslog) => LinuxMap(f, fields)
    case Some(Suricata) => SuricataMap(f, fields)
  }
}
