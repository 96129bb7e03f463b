/** What the mappings report, said of the fields they read: slugs, severity tables, transports, and the sections
    of Suricata events. */
module MappingFacts {
  import opened Common
  import opened Contracts
  import opened UnifiedEvents
  import opened SemanticValidation
  import opened Mappings

  // ---- slugs -------------------------------------------------------------------------------------------

  /** The longest stretches of lower-case letters and digits. */
  function Runs(s: string): seq<string> {
    if s == "" then []
    else if !AlphaNum(s[0]) then Runs(s[1..])
    else if |s| > 1 && AlphaNum(s[1]) && Runs(s[1..]) != [] then [[s[0]] + Runs(s[1..])[0]] + Runs(s[1..])[1..]
    else [[s[0]]] + Runs(s[1..])
  }

  function JoinRuns(runs: seq<string>): string {
    if runs == [] then "" else if |runs| == 1 then runs[0] else runs[0] + ("_" + JoinRuns(runs[1..]))
  }

  lemma {:induction false} RunsAreWords(s: string)
    ensures forall i :: 0 <= i < |Runs(s)| ==> Runs(s)[i] != ""
    ensures s != "" && AlphaNum(s[0]) ==> Runs(s) != []
    ensures JoinRuns(Runs(s)) == "" <==> Runs(s) == []
  {
    if s != "" {
      RunsAreWords(s[1..]);
    }
  }

  lemma StripRightCons(c: char, x: string)
    ensures StripRight([c] + x) == if StripRight(x) == "" && c == '_' then "" else [c] + StripRight(x)
    decreases |x|
  {
    var s := [c] + x;
    if x == "" {
      assert s == [c] && s[..0] == "";
      assert [c] + "" == [c];
    } else {
      assert s[|s| - 1] == x[|x| - 1];
      if x[|x| - 1] == '_' {
        assert s[..|s| - 1] == [c] + x[..|x| - 1];
        StripRightCons(c, x[..|x| - 1]);
      }
    }
  }

  lemma JoinHead(w: string, rest: seq<string>)
    ensures JoinRuns([w] + rest) == if rest == [] then w else w + ("_" + JoinRuns(rest))
  {
    assert ([w] + rest)[1..] == rest;
  }

  lemma Regroup(a: string, b: string, c: string)
    ensures (a + b) + c == a + (b + c)
  {
  }

  lemma JoinLonger(c: char, runs: seq<string>)
    requires runs != []
    ensures JoinRuns([[c] + runs[0]] + runs[1..]) == [c] + JoinRuns(runs)
  {
    hide JoinRuns;
    JoinHead([c] + runs[0], runs[1..]);
    JoinHead(runs[0], runs[1..]);
    assert [runs[0]] + runs[1..] == runs;
    Regroup([c], runs[0], "_" + JoinRuns(runs[1..]));
  }

  lemma StripKeepsAlnum(c: char, x: string)
    requires AlphaNum(c)
    ensures StripRight([c] + x) == [c] + StripRight(x)
  {
    StripRightCons(c, x);
  }

  lemma StripUnderscore(x: string)
    ensures StripRight("_" + x) == if StripRight(x) == "" then "" else "_" + StripRight(x)
  {
    StripRightCons('_', x);
  }

  /** Inside a run of separators, collapsing drops the ones that lead. */
  lemma {:induction false} CollapsedJoins(s: string)
    ensures StripRight(Collapse(s, true)) == JoinRuns(Runs(s))
    ensures Collapse(s, true) == "" || Collapse(s, true)[0] != '_'
    ensures s != "" && AlphaNum(s[0]) ==> Collapse(s, false) == Collapse(s, true)
    ensures s != "" && !AlphaNum(s[0]) ==> Collapse(s, false) == "_" + Collapse(s, true)
  {
    hide StripRight, JoinRuns;
    if s == "" {
      assert StripRight("") == JoinRuns([]) by { NothingToStrip(); }
    } else {
      var u := s[1..];
      CollapsedJoins(u);
      RunsAreWords(u);
      if AlphaNum(s[0]) {
        StripKeepsAlnum(s[0], Collapse(u, false));
        assert Collapse(s, true) == [s[0]] + Collapse(u, false);
        JoinHead([s[0]], Runs(u));
        if u == "" {
          NothingToStrip();
          assert [s[0]] + "" == [s[0]];
          assert Runs(s) == [[s[0]]] + Runs(u);
        } else if AlphaNum(u[0]) {
          assert s[1] == u[0];
          assert Runs(s) == [[s[0]] + Runs(u)[0]] + Runs(u)[1..];
          JoinLonger(s[0], Runs(u));
        } else {
          assert s[1] == u[0];
          assert Runs(s) == [[s[0]]] + Runs(u);
          StripUnderscore(Collapse(u, true));
          assert [s[0]] + "" == [s[0]];
        }
      } else {
        assert "" + Collapse(u, true) == Collapse(u, true);
      }
    }
  }

  lemma NothingToStrip()
    ensures StripRight("") == "" && JoinRuns([]) == ""
  {
  }

  /** A slug is the runs of letters and digits of its text, in order, joined by single underscores. */
  lemma SlugJoinsRuns(s: string)
    ensures Slug(s) == JoinRuns(Runs(s))
  {
    CollapsedJoins(s);
    hide Runs, JoinRuns;
    if s != "" && !AlphaNum(s[0]) {
      assert Collapse(s, false)[1..] == Collapse(s, true);
    }
    assert StripLeft(Collapse(s, true)) == Collapse(s, true);
  }

  /** The slug is used unless it is empty or starts with a digit. */
  lemma SlugOrIs(text: string, fallback: string)
    ensures SlugOr(text, fallback) ==
            var joined := JoinRuns(Runs(text)); if joined != "" && 'a' <= joined[0] <= 'z' then joined else fallback
  {
    SlugJoinsRuns(text);
    hide Slug, Runs, JoinRuns;
  }

  /** The type of an event is the slug of its text without surrounding white space and capitals, where a missing
      or empty text reads as the fallback. */
  lemma EventTypeIs(f: Foreign, value: Value, fallback: string)
    ensures !Truthy(value) ==> EventType(f, value, fallback) == EventType(f, Str(fallback), fallback)
    ensures Truthy(value) ==>
              var joined := JoinRuns(Runs(f.lower(f.strip(f.text(value)))));
              EventType(f, value, fallback) == if joined != "" && 'a' <= joined[0] <= 'z' then joined else fallback
  {
    hide SlugOr, Runs, JoinRuns, Truthy;
    SlugOrIs(f.lower(f.strip(f.text(value))), fallback);
    OrWithFallback(fallback);
  }

  lemma OrWithFallback(fallback: string)
    ensures Or(Str(fallback), Str(fallback)) == Str(fallback)
  {
  }

  /** What `value or fallback` replaces: nothing, false, zero and what is empty. */
  lemma EmptyValuesAre(v: Value)
    ensures !Truthy(v) <==>
            v in {Null, Bool(false), Int(0), Str(""), List([]), Dict(map[])} || (v.Float? && v.mantissa == 0)
  {
  }

  // ---- endpoints ---------------------------------------------------------------------------------------

  /** An endpoint reports exactly the address the library can read, a port in range and a named interface. */
  lemma EndpointReports(f: Foreign, fields: Fields, ipKey: string, portKey: string, interfaceKey: string)
    ensures var e := EndpointOf(f, fields, ipKey, portKey, interfaceKey);
            var ip, port, interface := Get(fields, ipKey), Get(fields, portKey), Get(fields, interfaceKey);
            var readable, inRange, named :=
              ip.Str? && f.parseIp(ip.text).Some?,
              f.toInt(port).Some? && 0 <= f.toInt(port).value <= 65535,
              interface.Str? && interface.text != "";
            && (e.Some? <==> readable || inRange || named)
            && (e.Some? ==>
                  && e.value.ip == (if readable then Str(f.parseIp(ip.text).value) else Null)
                  && e.value.port == (if inRange then Int(f.toInt(port).value) else Null)
                  && e.value.interface == (if named then interface else Null))
  {
  }

  // ---- severities --------------------------------------------------------------------------------------

  const SYSLOG_SCORES: seq<int> := [10, 9, 8, 7, 5, 4, 2, 0]

  const FORTINET_LEVELS: seq<string> :=
    ["emergency", "alert", "critical", "error", "warning", "notice", "information", "debug"]

  /** The syslog codes 0 to 7 fall from 10 to 0, each with the label the validator asks for; no other code is in
      the table. */
  lemma SyslogScoreIs(code: int)
    ensures SyslogScore(code) ==
            if 0 <= code <= 7 then Some((SYSLOG_SCORES[code], ExpectedLabel(SYSLOG_SCORES[code]))) else None
  {
  }

  /** FortiGate names the same eight severities, in the same order, and no others. */
  lemma FortinetScoreIs(level: string)
    ensures forall i :: 0 <= i < 8 && level == FORTINET_LEVELS[i] ==> FortinetScore(level) == SyslogScore(i)
    ensures level !in FORTINET_LEVELS ==> FortinetScore(level) == None
  {
  }

  /** A syslog severity is scored by its code; without one in the table it is unknown, and that is warned of. */
  lemma SyslogSeverityIs(f: Foreign, v: Value)
    ensures var (s, warnings) := SyslogSeverity(f, v);
            var code := f.toInt(v);
            var listed := code.Some? && 0 <= code.value <= 7;
            && (listed ==> s == Severity(Str(f.text(v)), Int(SYSLOG_SCORES[code.value]), Str(ExpectedLabel(SYSLOG_SCORES[code.value])))
                           && warnings == [])
            && (!listed ==> s.normalized == Int(0) && s.labelText == Str("unknown") && |warnings| == 1
                            && s.original == Str(f.text(if Truthy(v) then v else Str("unknown"))))
  {
    SyslogScoreIs(f.toInt(v).GetOr(-1));
    hide SyslogScore, ExpectedLabel;
  }

  // ---- transports --------------------------------------------------------------------------------------

  const TRANSPORTS: set<string> := {"tcp", "udp", "icmp", "icmpv6", "gre"}

  /** FortiGate numbers its protocols as IP does. */
  lemma FortinetTransportIs(f: Foreign, fields: Fields)
    ensures var number, t := f.toInt(Get(fields, "protocol")), FortinetTransport(f, fields);
            && (t == Some("icmp") <==> number == Some(1)) && (t == Some("tcp") <==> number == Some(6))
            && (t == Some("udp") <==> number == Some(17)) && (t == Some("gre") <==> number == Some(47))
            && (t == Some("icmpv6") <==> number == Some(58)) && (t.Some? ==> t.value in TRANSPORTS)
  {
  }

  /** Cisco and Suricata name theirs. */
  lemma NamedTransportIs(f: Foreign, fields: Fields)
    ensures var name, t := f.lower(f.text(Or(Get(fields, "protocol"), Str("")))), CiscoTransport(f, fields);
            t == if name in TRANSPORTS then Some(name) else None
    ensures var name, t := f.lower(f.text(Or(Get(fields, "proto"), Str("unknown")))), SuricataTransport(f, fields);
            t == if name in TRANSPORTS then name else "unknown"
  {
  }

  /** A FortiGate action is the action field, the status field, or unknown, whichever is first to say something. */
  lemma FortinetActionIs(f: Foreign, fields: Fields)
    ensures var action, status := Get(fields, "action"), Get(fields, "status");
            && FortinetMap(f, fields).action.original == Str(f.text(
                 if Truthy(action) then action else if Truthy(status) then status else Str("unknown")))
  {
    hide EndpointOf, EventType, FortinetTransport, FortinetScore, FortinetVerdict, FortinetIsLogin, EndpointGaps, FlowGaps, Truthy;
  }

  // ---- Suricata ----------------------------------------------------------------------------------------

  /** The family is the event type in lower case, or unknown when there is none. */
  lemma SuricataFamilyIs(f: Foreign, fields: Fields)
    ensures var v := Get(fields, "event_type");
            SuricataFamily(f, fields) == f.lower(f.text(if Truthy(v) then v else Str("unknown")))
  {
  }

  /** An alert is blocked exactly when its action says so, and detected otherwise; it fails exactly when it is
      blocked. Any other record is a connection that succeeded. */
  lemma SuricataActionIs(f: Foreign, fields: Fields)
    ensures var a, family := SuricataMap(f, fields).action, SuricataFamily(f, fields);
            && (family == "alert" ==>
                  var said := Get(AlertOf(fields), "action");
                  var text := f.text(if Truthy(said) then said else Str("alert"));
                  && a.original == Str(text)
                  && (a.normalized == Str("block") <==> f.lower(text) == "blocked")
                  && (a.normalized == Str("detect") <==> f.lower(text) != "blocked")
                  && (a.outcome == Str("failure") <==> f.lower(text) == "blocked")
                  && (a.outcome == Str("success") <==> f.lower(text) != "blocked"))
            && (family != "alert" ==> a == Action(Str(family), Str("connect"), Str("success")))
  {
    hide SuricataFamily, EndpointOf, SlugOr, SuricataMessage, SuricataHttp, SuricataNetwork, SuricataThreat, SuricataSeverity,
      EndpointGaps, AlertOf, Truthy, SuricataCategory;
  }

  /** Severities 1, 2 and 3 are high, medium and low, with a confidence that falls with them; any other alert is
      of unknown severity, and what is no alert is informational. */
  lemma SuricataSeverityIs(f: Foreign, fields: Fields)
    ensures var m, family := SuricataMap(f, fields), SuricataFamily(f, fields);
            var v := Get(AlertOf(fields), "severity");
            && (family != "alert" ==> m.severity == Severity(Str("informational"), Int(0), Str("informational")) && m.threat.None?)
            && (family == "alert" ==>
                  && m.threat.Some?
                  && (v == Int(1) ==> m.severity == Severity(Str(f.text(v)), Int(8), Str("high")) && m.threat.value.confidence == Float(9, -1))
                  && (v == Int(2) ==> m.severity == Severity(Str(f.text(v)), Int(5), Str("medium")) && m.threat.value.confidence == Float(7, -1))
                  && (v == Int(3) ==> m.severity == Severity(Str(f.text(v)), Int(2), Str("low")) && m.threat.value.confidence == Float(5, -1))
                  && (v !in {Int(1), Int(2), Int(3), Bool(true), Float(1, 0), Float(2, 0), Float(3, 0)} ==>
                        m.severity.normalized == Int(0) && m.severity.labelText == Str("unknown") && m.threat.value.confidence == Float(3, -1)))
  {
    hide SuricataFamily, EndpointOf, SlugOr, SuricataMessage, SuricataHttp, SuricataNetwork, SuricataAction, EventType,
      EndpointGaps, AlertOf, Truthy, SuricataCategory;
  }

  /** A threat bears the signature, its number and its category. */
  lemma SuricataThreatIs(f: Foreign, fields: Fields)
    ensures var t, alert := SuricataThreat(f, fields), AlertOf(fields);
            var signature, id, category := Get(alert, "signature"), Get(alert, "signature_id"), Get(alert, "category");
            && t.name == Str(f.text(if Truthy(signature) then signature else Str("Unknown Suricata alert")))
            && t.signatureId == (if id == Null then Null else Str(f.text(id)))
            && t.category == (if Truthy(category) then Str(EventType(f, category, "unknown")) else Null)
  {
    hide EventType;
  }

  predicate Counts(v: Value) {
    v.Int? && v.number >= 0
  }

  /** The totals of a flow are given exactly when both directions are counted. */
  lemma SuricataTotalsAre(f: Foreign, fields: Fields, key: string, up: string, down: string)
    requires (key, up, down) in {("packets", "pkts_toserver", "pkts_toclient"), ("bytes", "bytes_toserver", "bytes_toclient")}
    ensures var n, flow := SuricataNetwork(f, fields), Get(fields, "flow");
            && (key in n <==> flow.Dict? && Counts(Get(flow.entries, up)) && Counts(Get(flow.entries, down)))
            && (key in n ==> n[key] == Int(Get(flow.entries, up).number + Get(flow.entries, down).number))
  {
    hide SuricataTransport;
  }

  /** The direction is told from the initiator's side. */
  lemma SuricataNetworkIs(f: Foreign, fields: Fields)
    ensures var n, stated, protocol := SuricataNetwork(f, fields), f.text(Get(fields, "direction")), Get(fields, "app_proto");
            && {"transport", "application_protocol", "direction"} <= n.Keys
            && n.Keys <= {"transport", "application_protocol", "direction", "packets", "bytes"}
            && (n["direction"] == Str("outbound") <==> stated == "to_server")
            && (n["direction"] == Str("inbound") <==> stated == "to_client")
            && (n["direction"] == Str("unknown") <==> stated != "to_server" && stated != "to_client")
            && n["transport"] == Str(SuricataTransport(f, fields))
            && n["application_protocol"] == Str(f.text(if Truthy(protocol) then protocol else Str("unknown")))
  {
    hide SuricataTransport, SumOf, Truthy;
  }

  function Described(fields: Fields, key: string, default: string): Value {
    if key in fields then fields[key] else Str(default)
  }

  /** The message is the signature of an alert, the name asked for, the request, or the state and reason of a
      flow. A record without a body of its family has none. */
  lemma SuricataMessageIs(f: Foreign, fields: Fields, family: string)
    ensures var body, said := Get(fields, family), SuricataMessage(f, fields, family);
            && (!body.Dict? ==> said == Null)
            && (body.Dict? && family == "alert" ==> said == Get(body.entries, "signature"))
            && (body.Dict? && family == "dns" ==>
                  var asked := Get(body.entries, "rrname");
                  said == Str(if Truthy(asked) then
                                "DNS " + f.text(Described(body.entries, "type", "transaction")) + ": " + f.text(asked)
                              else "DNS event"))
            && (body.Dict? && family == "http" ==>
                  said == Str("HTTP " + f.text(Described(body.entries, "http_method", "request")) + " "
                              + f.text(Described(body.entries, "url", "/"))))
            && (body.Dict? && family == "flow" ==>
                  said == Str("Flow " + f.text(Described(body.entries, "state", "unknown")) + ": "
                              + f.text(Described(body.entries, "reason", "unspecified"))))
            && (family !in {"alert", "dns", "http", "flow"} ==> said == Null)
  {
    hide Truthy;
  }

  /** Alerts are intrusions and HTTP records web traffic; flows and DNS records between two ends are network
      events. */
  lemma SuricataCategoryIs(f: Foreign, fields: Fields)
    ensures var m, family := SuricataMap(f, fields), SuricataFamily(f, fields);
            && (m.category == "intrusion_detection" <==> family == "alert")
            && (m.category == "web" <==> family == "http")
            && (m.category == "network" <==> family in {"flow", "dns"} && m.source.Some? && m.destination.Some?)
            && (m.http.Some? ==> family == "http") && m.network.Some?
  {
    hide SuricataFamily, EndpointOf, SlugOr, SuricataMessage, SuricataHttp, SuricataNetwork, SuricataThreat, SuricataSeverity,
      SuricataAction, EndpointGaps;
  }

  // ---- the registry ------------------------------------------------------------------------------------

  /** Every shipped Source Pack is mapped by the mapping of its name. */
  lemma EachPackHasItsMapping(f: Foreign, fields: Fields)
    ensures MapEvent(f, Some("cisco_asa"), fields) == CiscoMap(f, fields)
    ensures MapEvent(f, Some("fortinet_fortigate"), fields) == FortinetMap(f, fields)
    ensures MapEvent(f, Some("generic_linux_syslog"), fields) == LinuxMap(f, fields)
    ensures MapEvent(f, Some("suricata_eve"), fields) == SuricataMap(f, fields)
  {
    hide CiscoMap, FortinetMap, LinuxMap, SuricataMap;
  }

  /** The events of any other Source Pack say that they are not mapped. */
  lemma UnmappedSaysSo(f: Foreign, packId: Option<string>, fields: Fields)
    requires packId !in {Some("cisco_asa"), Some("fortinet_fortigate"), Some("generic_linux_syslog"), Some("suricata_eve")}
    ensures var m := MapEvent(f, packId, fields);
            && m.category == m.observerType == "unknown" && m.eventType == "unmapped_event"
            && m.missing == ["normalization.mapping"] && |m.warnings| == 1
            && m.action == Action(Str("unknown"), Str("unknown"), Str("unknown"))
            && m.severity == Severity(Str("unknown"), Int(0), Str("unknown"))
            && m.source == m.destination == None && m.network == m.http == None && m.threat.None? && m.authentication.None?
            && m.observedAt.None?
  {
  }
}
