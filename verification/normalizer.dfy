/** Assembly of normalized events, and what the validator makes of them. */
module Normalizer {
  import opened Common
  import opened Contracts
  import opened UnifiedEvents
  import opened SemanticValidation
  import opened Mappings

  // ---- assembly --------------------------------------------------------------------------------------

  const VENDOR_MISSING := "Source vendor was not identified"
  const PRODUCT_MISSING := "Source product was not identified"
  const PACK_VERSION_INVALID := "Source Pack version was missing or invalid"
  const PARSER_VERSION_INVALID := "Parser version was missing or invalid"
  const TIMESTAMP_LATE := "Source timestamp was later than ingestion time and was not trusted"

  function SafeVersion(f: Foreign, v: Option<string>): string {
    if v.Some? && f.semver(v.value) then v.value else "0.0.0"
  }

  function Namespace(f: Foreign, packId: Option<string>): string {
    SlugOr(f.lower(if packId.Some? && packId.value != "" then packId.value else "unknown_source"), "unknown_source")
  }

  function NameOr(v: Option<string>, default: string): string {
    if v.Some? && v.value != "" then v.value else default
  }

  function Missing(p: Parsed, m: MappingResult): seq<string> {
    m.missing + If(p.vendor.None?, "observer.vendor") + If(p.product.None?, "observer.product")
  }

  function IsLate(p: Parsed, m: MappingResult): bool {
    m.observedAt.Some? && m.observedAt.value.Zoned? && m.observedAt.value.at > p.rawEvent.ingestedAt
  }

  function Warnings(f: Foreign, p: Parsed, m: MappingResult): seq<string> {
    m.warnings + p.issues + If(p.vendor.None?, VENDOR_MISSING) + If(p.product.None?, PRODUCT_MISSING)
    + If(SafeVersion(f, p.sourcePackVersion) == "0.0.0" && p.sourcePackVersion != Some("0.0.0"), PACK_VERSION_INVALID)
    + If(SafeVersion(f, Some(p.parserVersion)) == "0.0.0" && p.parserVersion != "0.0.0", PARSER_VERSION_INVALID)
    + If(IsLate(p, m), TIMESTAMP_LATE)
  }

  predicate Representable(t: int) {
    EARLIEST <= t <= LATEST
  }

  /** The time to report, unless it cannot be converted to UTC. */
  function ObservedAt(p: Parsed, m: MappingResult): Instant {
    if m.observedAt.Some? && m.observedAt.value.Zoned? && !IsLate(p, m) && EARLIEST <= m.observedAt.value.at then
      m.observedAt.value.at
    else
      p.rawEvent.ingestedAt
  }

  function Later(a: Instant, b: Instant): Instant {
    if a >= b then a else b
  }

  /** The latest of the three times, unless that cannot be converted to UTC. */
  function NormalizedAt(p: Parsed, now: Instant): Instant {
    var known := Later(now, p.rawEvent.ingestedAt);
    if Stamped(p.parsedAt) && known <= p.parsedAt.at then p.parsedAt.at else known
  }

  /** A time of parsing that has a zone and does not come after the last instant. */
  predicate Stamped(t: Iso) {
    t.Zoned? && t.at <= LATEST
  }

  function QualityStatus(status: ParseStatus, missing: seq<string>, warnings: seq<string>): string {
    if status == Failed then "invalid"
    else if status == Unrecognized then "unknown"
    else if status == Partial || missing != [] || warnings != [] then "partial"
    else "valid"
  }

  function Confidence(status: ParseStatus, missing: seq<string>, warnings: seq<string>): Value {
    if status == Failed || status == Unrecognized then Float(0, 0)
    else if status == Partial || missing != [] || warnings != [] then Float(5, -1)
    else Float(1, 0)
  }

  /** `list(dict.fromkeys(s))`: first occurrences, in order. */
  function Unique(s: seq<string>): seq<string> {
    if s == [] then []
    else
      var rest, last := s[..|s| - 1], s[|s| - 1];
      if last in rest then Unique(rest) else Unique(rest) + [last]
  }

  predicate LessEq(a: string, b: string) {
    a == "" || (b != "" && (a[0] < b[0] || (a[0] == b[0] && LessEq(a[1..], b[1..]))))
  }

  function Insert(x: string, sorted: seq<string>): seq<string> {
    if sorted == [] then [x]
    else if x == sorted[0] then sorted
    else if LessEq(x, sorted[0]) then [x] + sorted
    else [sorted[0]] + Insert(x, sorted[1..])
  }

  /** `sorted(set(s))` */
  function SortedSet(s: seq<string>): seq<string> {
    if s == [] then [] else Insert(s[0], SortedSet(s[1..]))
  }

  function Strings(s: seq<string>): Value {
    List(seq(|s|, i requires 0 <= i < |s| => Str(s[i])))
  }

  lemma {:induction false} UniqueKeepsElements(s: seq<string>)
    ensures forall x :: x in Unique(s) <==> x in s
  {
    if s != [] {
      UniqueKeepsElements(s[..|s| - 1]);
      assert s == s[..|s| - 1] + [s[|s| - 1]];
    }
  }

  lemma {:induction false} InsertKeepsElements(x: string, s: seq<string>)
    ensures forall y :: y in Insert(x, s) <==> y == x || y in s
  {
    if s != [] {
      InsertKeepsElements(x, s[1..]);
    }
  }

  lemma {:induction false} SortedSetKeepsElements(s: seq<string>)
    ensures forall x :: x in SortedSet(s) <==> x in s
  {
    if s != [] {
      SortedSetKeepsElements(s[1..]);
      InsertKeepsElements(s[0], SortedSet(s[1..]));
    }
  }

  lemma ListsSayWhetherEmpty(s: seq<string>)
    ensures Truthy(Strings(Unique(s))) <==> s != []
    ensures Truthy(Strings(SortedSet(s))) <==> s != []
  {
    UniqueKeepsElements(s);
    SortedSetKeepsElements(s);
    if s != [] {
      assert s[0] in s;
    }
  }

  function ToSection<T>(o: Option<T>): Section<T> {
    if o.Some? then Object(o.value) else Absent
  }

  function OptionalText(v: Option<string>): Value {
    if v.Some? then Str(v.value) else Null
  }

  function MappingName(p: Parsed): string {
    if VendorOf(p.sourcePackId).Some? then p.sourcePackId.value else "unknown"
  }

  function Provenance(p: Parsed): Fields {
    map[
      "mapping" := Dict(map[
        "name" := Str(MappingName(p)),
        "version" := Str(if VendorOf(p.sourcePackId).Some? then "1.0.0" else "0.0.0")]),
      "normalizer" := Dict(map["name" := Str("universal_normalizer"), "version" := Str("1.0.0")]),
      "received_versions" := Dict(map[
        "source_pack" := OptionalText(p.sourcePackVersion),
        "parser" := Str(p.parserVersion)])]
  }

  function Extensions(f: Foreign, p: Parsed): Fields {
    map[Namespace(f, p.sourcePackId) := Dict(p.extracted)]["ulpf" := Dict(Provenance(p))]
  }

  function RawSection(f: Foreign, p: Parsed): Section<RawText> {
    match f.decodeUtf8(p.rawEvent.raw)
    case None => Absent
    case Some(text) => Object(RawText(Str(text)))
  }

  function Assemble(f: Foreign, p: Parsed, m: MappingResult, now: Instant): UnifiedEvent {
    var missing, warnings := Missing(p, m), Warnings(f, p, m);
    UnifiedEvent(
      Object(Times(
        Str(f.utc(ObservedAt(p, m))), Str(f.utc(p.rawEvent.ingestedAt)), Str(f.utc(NormalizedAt(p, now))))),
      Object(EventMeta(Str(p.eventId), Str(m.category), Str(m.eventType), Str(m.name), m.message)),
      Object(Observer(
        Str(NameOr(p.vendor, "unknown")), Str(NameOr(p.product, "unknown")),
        Str(m.observerType), m.hostname, m.softwareVersion)),
      Object(m.action),
      Object(m.severity),
      ToSection(m.source),
      ToSection(m.destination),
      ToSection(m.network),
      ToSection(m.threat),
      ToSection(m.authentication),
      ToSection(m.http),
      Object(Quality(
        Str(QualityStatus(p.status, missing, warnings)), Confidence(p.status, missing, warnings),
        Strings(SortedSet(missing)), Strings(Unique(warnings)))),
      Object(Traceability(
        Str(p.rawEvent.eventId), Str(p.rawEvent.rawSha256),
        Str(NameOr(p.sourcePackId, "unknown_source_pack")), Str(SafeVersion(f, p.sourcePackVersion)),
        Str(p.parserId), Str(SafeVersion(f, Some(p.parserVersion))),
        RawSection(f, p))),
      Object(Extensions(f, p)))
  }

  /** `validate_event`: schema and semantics together. */
  function Issues(f: Foreign, e: UnifiedEvent): set<Issue> {
    f.structure(e) + SemanticIssues(f, e)
  }

  /** Marks an event that its own validation rejects. */
  function Flagged(f: Foreign, e: UnifiedEvent, issues: set<Issue>): UnifiedEvent
    requires e.quality.Object? && e.quality.body.warnings.List?
  {
    var lines := f.render(issues);
    e.(quality := Object(e.quality.body.(
      status := Str("invalid"),
      warnings := List(e.quality.body.warnings.items + Strings(lines).items))))
  }

  /** The event when nothing raises. */
  function Finished(f: Foreign, p: Parsed, now: Instant): UnifiedEvent {
    var e := Assemble(f, p, MapEvent(f, p.sourcePackId, p.extracted), now);
    if Issues(f, e) == {} then e else Flagged(f, e, Issues(f, e))
  }

  /** A time the normalizer cannot work with: it names no zone and cannot be compared, or precedes the first
      instant and cannot be converted to UTC. */
  predicate BadTime(t: Option<Iso>) {
    t.Some? && (t.value.Naive? || t.value.at < EARLIEST)
  }

  /** The mapping raises, or one of the times does. */
  predicate Raises(f: Foreign, p: Parsed) {
    MapRaises(f, p.sourcePackId, p.extracted)
    || BadTime(MapEvent(f, p.sourcePackId, p.extracted).observedAt)
    || !Stamped(p.parsedAt)
  }

  /** `UniversalNormalizer.normalize`; `None` stands for an exception. */
  function Normalize(f: Foreign, p: Parsed, now: Instant): Option<UnifiedEvent> {
    if Raises(f, p) then None else Some(Finished(f, p, now))
  }

  /** Choosing and running the mapping. */
  method MapRecord(f: Foreign, p: Parsed) returns (m: Option<MappingResult>)
    ensures m == if MapRaises(f, p.sourcePackId, p.extracted) then None else Some(MapEvent(f, p.sourcePackId, p.extracted))
  {
    hide CiscoMap, FortinetMap, LinuxMap, SuricataMap, SuricataRaises;
    var vendor := VendorOf(p.sourcePackId);
    var mapped := UNKNOWN_MAPPING;
    if vendor == Some(CiscoAsa) {
      mapped := MapCisco(f, p.extracted);
    } else if vendor == Some(Fortigate) {
      mapped := MapFortinet(f, p.extracted);
    } else if vendor == Some(LinuxSyslog) {
      mapped := MapLinux(f, p.extracted);
    } else if vendor == Some(Suricata) {
      m := MapSuricata(f, p.extracted);
      return;
    }
    m := Some(mapped);
  }

  /** A note is added to a list if there is a reason for it. */
  method Note(before: seq<string>, reason: bool, note: string) returns (notes: seq<string>)
    ensures notes == before + If(reason, note)
  {
    notes := before;
    if reason {
      notes := notes + [note];
    }
  }

  /** What is missing and doubtful, collected in two growing lists. */
  method CollectNotes(f: Foreign, p: Parsed, m: MappingResult) returns (missing: seq<string>, warnings: seq<string>)
    ensures missing == Missing(p, m)
    ensures warnings + If(IsLate(p, m), TIMESTAMP_LATE) == Warnings(f, p, m)
  {
    hide IsLate, If, SafeVersion;
    missing, warnings := m.missing, m.warnings + p.issues;
    missing := Note(missing, p.vendor.None?, "observer.vendor");
    warnings := Note(warnings, p.vendor.None?, VENDOR_MISSING);
    missing := Note(missing, p.product.None?, "observer.product");
    warnings := Note(warnings, p.product.None?, PRODUCT_MISSING);
    var packVersion, parserVersion := SafeVersion(f, p.sourcePackVersion), SafeVersion(f, Some(p.parserVersion));
    warnings := Note(warnings, packVersion == "0.0.0" && p.sourcePackVersion != Some("0.0.0"), PACK_VERSION_INVALID);
    warnings := Note(warnings, parserVersion == "0.0.0" && p.parserVersion != "0.0.0", PARSER_VERSION_INVALID);
  }

  /** The quality of an event, and how far its parse is to be relied on. */
  method Rate(status: ParseStatus, missing: seq<string>, warnings: seq<string>) returns (quality: string, confidence: Value)
    ensures quality == QualityStatus(status, missing, warnings) && confidence == Confidence(status, missing, warnings)
  {
    quality, confidence := "valid", Float(1, 0);
    if status == Failed {
      quality, confidence := "invalid", Float(0, 0);
    } else if status == Unrecognized {
      quality, confidence := "unknown", Float(0, 0);
    } else if status == Partial || missing != [] || warnings != [] {
      quality, confidence := "partial", Float(5, -1);
    }
  }

  method TextOrDefault(v: Option<string>, default: string) returns (text: string)
    ensures text == NameOr(v, default)
  {
    text := default;
    if v.Some? && v.value != "" {
      text := v.value;
    }
  }

  /** The event, section by section: the required ones, and each optional one that the mapping filled. */
  method BuildEvent(
    f: Foreign, p: Parsed, m: MappingResult, observedAt: Instant, normalizedAt: Instant, missing: seq<string>,
    warnings: seq<string>, ghost now: Instant) returns (e: UnifiedEvent)
    requires observedAt == ObservedAt(p, m) && normalizedAt == NormalizedAt(p, now)
    requires missing == Missing(p, m) && warnings == Warnings(f, p, m)
    ensures e == Assemble(f, p, m, now)
  {
    hide Unique, SortedSet, Provenance, Namespace, SafeVersion, ObservedAt, NormalizedAt, Missing, Warnings, Strings, NameOr,
      QualityStatus, Confidence;
    var vendor := TextOrDefault(p.vendor, "unknown");
    var product := TextOrDefault(p.product, "unknown");
    var packName := TextOrDefault(p.sourcePackId, "unknown_source_pack");
    var quality, confidence := Rate(p.status, missing, warnings);
    var raw: Section<RawText> := Absent;
    var text := f.decodeUtf8(p.rawEvent.raw);
    if text.Some? {
      raw := Object(RawText(Str(text.value)));
    }
    e := UnifiedEvent(
      Object(Times(Str(f.utc(observedAt)), Str(f.utc(p.rawEvent.ingestedAt)), Str(f.utc(normalizedAt)))),
      Object(EventMeta(Str(p.eventId), Str(m.category), Str(m.eventType), Str(m.name), m.message)),
      Object(Observer(Str(vendor), Str(product), Str(m.observerType), m.hostname, m.softwareVersion)),
      Object(m.action),
      Object(m.severity),
      if m.source.Some? then Object(m.source.value) else Absent,
      if m.destination.Some? then Object(m.destination.value) else Absent,
      if m.network.Some? then Object(m.network.value) else Absent,
      if m.threat.Some? then Object(m.threat.value) else Absent,
      if m.authentication.Some? then Object(m.authentication.value) else Absent,
      if m.http.Some? then Object(m.http.value) else Absent,
      Object(Quality(Str(quality), confidence, Strings(SortedSet(missing)), Strings(Unique(warnings)))),
      Object(Traceability(
        Str(p.rawEvent.eventId), Str(p.rawEvent.rawSha256), Str(packName), Str(SafeVersion(f, p.sourcePackVersion)),
        Str(p.parserId), Str(SafeVersion(f, Some(p.parserVersion))), raw)),
      Object(map[Namespace(f, p.sourcePackId) := Dict(p.extracted)]["ulpf" := Dict(Provenance(p))]));
  }

  /** The two times the normalizer decides on; `None` when one of them cannot be worked with. The second result
      says that the source's time was not trusted. */
  method ChooseTimes(p: Parsed, m: MappingResult, now: Instant) returns (times: Option<(Instant, Instant)>, late: bool)
    ensures times.None? <==> BadTime(m.observedAt) || !Stamped(p.parsedAt)
    ensures times.Some? ==> times.value == (ObservedAt(p, m), NormalizedAt(p, now)) && late == IsLate(p, m)
  {
    late := false;
    if p.parsedAt.Naive? || m.observedAt == Some(Naive) {
      return None, late;
    }
    var normalizedAt: int := now;
    if p.parsedAt.at > normalizedAt {
      normalizedAt := p.parsedAt.at;
    }
    if p.rawEvent.ingestedAt > normalizedAt {
      normalizedAt := p.rawEvent.ingestedAt;
    }
    var observedAt: int := p.rawEvent.ingestedAt;
    if m.observedAt.Some? {
      observedAt := m.observedAt.value.at;
    }
    if observedAt > p.rawEvent.ingestedAt {
      observedAt := p.rawEvent.ingestedAt;
      late := true;
    }
    if observedAt < EARLIEST || normalizedAt > LATEST {
      return None, late;
    }
    times := Some((observedAt, normalizedAt));
  }

  /** The normalizer's own steps: run the mapping, collect what is missing and doubtful, choose the times, put the
      event together, validate and mark. */
  method NormalizeEvent(f: Foreign, p: Parsed, now: Instant) returns (r: Option<UnifiedEvent>)
    ensures r == Normalize(f, p, now)
  {
    hide MapEvent, MapRaises, Assemble, SemanticIssues, Missing, Warnings, IsLate, ObservedAt, NormalizedAt, BadTime, Stamped;
    var mapped := MapRecord(f, p);
    if mapped.None? {
      return None;
    }
    var m := mapped.value;
    var missing, warnings := CollectNotes(f, p, m);
    var times, late := ChooseTimes(p, m, now);
    if times.None? {
      return None;
    }
    if late {
      warnings := warnings + [TIMESTAMP_LATE];
    }
    assert warnings == Warnings(f, p, m);
    var e := BuildEvent(f, p, m, times.value.0, times.value.1, missing, warnings, now);
    AssembledQuality(f, p, m, now);
    var semantic := ValidateSemantics(f, e);
    var issues := f.structure(e) + semantic;
    if issues != {} {
      var lines := f.render(issues);
      e := e.(quality := Object(e.quality.body.(
        status := Str("invalid"),
        warnings := List(e.quality.body.warnings.items + Strings(lines).items))));
    }
    r := Some(e);
  }

  predicate SuricataTimeRaises(f: Foreign, fields: Fields) {
    var t := Get(fields, "timestamp");
    t.Str? && BadTime(f.parseIso(t.text))
  }

  /** Normalizing raises on exactly these records: those whose time of parsing has no zone or lies beyond the
      last instant, which no pack writes; and, of Suricata, an alert that is not an object or whose severity
      cannot be a key, and a time that has no zone or lies before the first instant. */
  lemma NormalizeRaisesIff(f: Foreign, p: Parsed, now: Instant)
    ensures var fields := p.extracted;
            Normalize(f, p, now).None? <==>
              || !Stamped(p.parsedAt)
              || (VendorOf(p.sourcePackId) == Some(Suricata)
                  && (|| (SuricataFamily(f, fields) == "alert"
                          && (("alert" in fields && !fields["alert"].Dict?) || !Hashable(Get(AlertOf(fields), "severity"))))
                      || SuricataTimeRaises(f, fields)))
  {
    hide SuricataFamily, Finished, EndpointOf, SuricataNetwork, SuricataMessage, SuricataHttp, SuricataThreat, SuricataAction,
      SuricataSeverity, SlugOr, EventType, EndpointGaps, FlowGaps, AlertOf, Stamped;
  }

  // ---- what every mapping guarantees -------------------------------------------------------------------

  predicate RatedLike(s: Severity) {
    s.normalized.Int? && s.labelText.Str?
    && (s.labelText == SEVERITY_UNKNOWN || (0 <= s.normalized.number <= 10
                                            && s.labelText.text == ExpectedLabel(s.normalized.number)))
  }

  lemma ScoresAreRated(original: string, code: int, level: string)
    ensures RatedLike(Scored(original, SyslogScore(code))) && RatedLike(Scored(original, FortinetScore(level)))
    ensures Scored(original, SyslogScore(code)).labelText == SEVERITY_UNKNOWN <==> SyslogScore(code).None?
    ensures Scored(original, FortinetScore(level)).labelText == SEVERITY_UNKNOWN <==> FortinetScore(level).None?
  {
  }

  /** Sections agree with the category, the action with its outcome, the severity with its label, and the
      authentication result with the action outcome. */
  predicate WellMapped(f: Foreign, m: MappingResult) {
    && (m.category == "intrusion_detection" ==> m.threat.Some?)
    && (m.category == "authentication" ==> m.authentication.Some?)
    && m.action.normalized.Str? && m.action.outcome.Str?
    && !(OneOf(m.action.normalized, "deny", "block") && m.action.outcome == Str("success"))
    && RatedLike(m.severity)
    && (m.authentication.Some? ==> m.authentication.value.result == m.action.outcome)
    && (m.source.Some? && m.source.value.ip != Null ==> Truthy(m.source.value.ip))
    && (m.destination.Some? && m.destination.value.ip != Null ==> Truthy(m.destination.value.ip))
  }

  lemma EndpointIpIsText(f: Foreign, fields: Fields, a: string, b: string, c: string)
    requires Lawful(f)
    ensures var e := EndpointOf(f, fields, a, b, c);
            && (WithIp(e) <==> ValidIp(f, Get(fields, a)).Some?)
            && (e.Some? && e.value.ip != Null ==> Truthy(e.value.ip))
  {
  }

  lemma CiscoIsWellMapped(f: Foreign, fields: Fields)
    requires Lawful(f)
    ensures var m := CiscoMap(f, fields);
            && WellMapped(f, m) && (m.category == "network" ==> WithIp(m.source) && WithIp(m.destination))
            && (m.severity.labelText == SEVERITY_UNKNOWN ==> m.warnings != [])
  {
    hide EndpointOf, EventType, Contains, FlowGaps, Lawful, CiscoTransport;
    EndpointIpIsText(f, fields, "src_ip", "src_port", "src_interface");
    EndpointIpIsText(f, fields, "dst_ip", "dst_port", "dst_interface");
    var v := Get(fields, "severity");
    ScoresAreRated(f.text(v), f.toInt(v).GetOr(-1), "");
    hide SyslogScore;
  }

  lemma FortinetIsWellMapped(f: Foreign, fields: Fields)
    requires Lawful(f)
    ensures var m := FortinetMap(f, fields);
            && WellMapped(f, m) && (m.category == "network" ==> WithIp(m.source) && WithIp(m.destination))
            && (m.severity.labelText == SEVERITY_UNKNOWN ==> m.warnings != [])
  {
    hide EndpointOf, EventType, FortinetScore, FlowGaps, Lawful, FortinetTransport, RatedLike, Scored;
    EndpointIpIsText(f, fields, "src_ip", "src_port", "src_intf");
    EndpointIpIsText(f, fields, "dst_ip", "dst_port", "dst_intf");
    var level := f.lower(f.text(Or(Get(fields, "level"), Str("unknown"))));
    ScoresAreRated(level, 0, level);
  }

  lemma LinuxIsWellMapped(f: Foreign, fields: Fields)
    ensures var m := LinuxMap(f, fields);
            && WellMapped(f, m) && m.category == "system"
            && (m.severity.labelText == SEVERITY_UNKNOWN ==> m.warnings != [])
  {
    hide EventType;
    var v := Get(fields, "severity");
    ScoresAreRated(f.text(v), f.toInt(v).GetOr(-1), "");
    hide SyslogScore;
  }

  lemma SuricataIsWellMapped(f: Foreign, fields: Fields)
    requires Lawful(f)
    ensures var m := SuricataMap(f, fields);
            && WellMapped(f, m)
            && (m.category == "network" ==>
                  (WithIp(m.source) <==> ValidIp(f, Get(fields, "src_ip")).Some?)
                  && (WithIp(m.destination) <==> ValidIp(f, Get(fields, "dest_ip")).Some?))
            && (m.category == "network" <==>
                  (SuricataFamily(f, fields) == "flow" || SuricataFamily(f, fields) == "dns")
                  && m.source.Some? && m.destination.Some?)
            && (m.severity.labelText == SEVERITY_UNKNOWN <==>
                  SuricataFamily(f, fields) == "alert" && SuricataScore(Get(AlertOf(fields), "severity")).None?)
            && m.warnings == []
  {
    hide EndpointOf, EventType, SlugOr, Lawful, SuricataMessage, SuricataHttp, SuricataNetwork, SuricataThreat, EndpointGaps,
      SuricataFamily, ValidIp;
    EndpointIpIsText(f, fields, "src_ip", "src_port", "in_iface");
    EndpointIpIsText(f, fields, "dest_ip", "dest_port", "out_iface");
  }

  // ---- the builder satisfies the judge -----------------------------------------------------------------

  predicate BadIp(f: Foreign, fields: Fields, key: string) {
    ValidIp(f, Get(fields, key)).None?
  }

  predicate Usable(f: Foreign, fields: Fields, ipKey: string, portKey: string, interfaceKey: string) {
    !BadIp(f, fields, ipKey) || ValidPort(f, Get(fields, portKey)).Some? || Text(Get(fields, interfaceKey))
  }

  predicate SuricataFlow(f: Foreign, fields: Fields) {
    SuricataFamily(f, fields) == "flow" || SuricataFamily(f, fields) == "dns"
  }

  /** A Suricata flow or DNS record that says anything about both of its ends has both addresses. */
  predicate SuricataHasIps(f: Foreign, p: Parsed) {
    VendorOf(p.sourcePackId) == Some(Suricata) && SuricataFlow(f, p.extracted)
    && Usable(f, p.extracted, "src_ip", "src_port", "in_iface") && Usable(f, p.extracted, "dest_ip", "dest_port", "out_iface")
    ==> !BadIp(f, p.extracted, "src_ip") && !BadIp(f, p.extracted, "dest_ip")
  }

  predicate VersionDoubtful(f: Foreign, v: Option<string>) {
    v.None? || (v.value != "0.0.0" && !f.semver(v.value))
  }

  predicate UnlistedCode(f: Foreign, v: Value) {
    f.toInt(v).None? || !(0 <= f.toInt(v).value <= 7)
  }

  predicate UnlistedLevel(level: string) {
    level !in {"emergency", "alert", "critical", "error", "warning", "notice", "information", "debug"}
  }

  predicate LateTimestamp(f: Foreign, p: Parsed) {
    var t := Get(p.extracted, "timestamp");
    t.Str? && f.parseIso(t.text).Some? && f.parseIso(t.text).value.Zoned? && f.parseIso(t.text).value.at > p.rawEvent.ingestedAt
  }

  /** A record that normalizing warns about, by what it holds: an issue, no vendor or product, a version that
      is none, no mapping, an unlisted severity, or a time after its ingestion. Suricata alone reads a time
      and alone does not warn of severities. */
  predicate Doubted(f: Foreign, p: Parsed) {
    || p.issues != [] || p.vendor.None? || p.product.None?
    || VersionDoubtful(f, p.sourcePackVersion) || VersionDoubtful(f, Some(p.parserVersion))
    || match VendorOf(p.sourcePackId)
       case None => true
       case Some(Fortigate) => UnlistedLevel(f.lower(f.text(Or(Get(p.extracted, "level"), Str("unknown")))))
       case Some(Suricata) => LateTimestamp(f, p)
       case Some(_) => UnlistedCode(f, Get(p.extracted, "severity"))
  }

  predicate FortinetFlow(f: Foreign, fields: Fields) {
    f.lower(f.text(Or(Get(fields, "event_type"), Str("")))) in {"traffic", "utm"}
  }

  /** A record that normalizing finds incomplete, by what it holds. */
  predicate Incomplete(f: Foreign, p: Parsed) {
    || p.vendor.None? || p.product.None?
    || match VendorOf(p.sourcePackId)
       case None => true
       case Some(CiscoAsa) =>
         || BadIp(f, p.extracted, "src_ip") || BadIp(f, p.extracted, "dst_ip")
         || CiscoTransport(f, p.extracted).None? || !Text(Get(p.extracted, "message_text"))
       case Some(Fortigate) =>
         || (FortinetFlow(f, p.extracted)
             && (|| BadIp(f, p.extracted, "src_ip") || BadIp(f, p.extracted, "dst_ip")
                 || FortinetTransport(f, p.extracted).None?))
         || !Text(Or(Get(p.extracted, "message"), Get(p.extracted, "log_description")))
       case Some(LinuxSyslog) => !Text(Get(p.extracted, "message"))
       case Some(Suricata) =>
         || (SuricataFlow(f, p.extracted) && (BadIp(f, p.extracted, "src_ip") || BadIp(f, p.extracted, "dest_ip")))
         || !Truthy(SuricataMessage(f, p.extracted, SuricataFamily(f, p.extracted)))
  }

  /** An alert whose severity is not in the table is doubted for some other reason. */
  predicate SuricataSeverityExplained(f: Foreign, p: Parsed) {
    VendorOf(p.sourcePackId) == Some(Suricata)
    && SuricataFamily(f, p.extracted) == "alert"
    && SuricataScore(Get(AlertOf(p.extracted), "severity")).None?
    ==> Doubted(f, p)
  }

  predicate PartialHasReason(f: Foreign, p: Parsed) {
    p.status == Partial ==> Doubted(f, p) || Incomplete(f, p)
  }

  lemma CiscoNotes(f: Foreign, fields: Fields)
    requires Lawful(f)
    ensures var m := CiscoMap(f, fields);
            && (m.warnings != [] <==> UnlistedCode(f, Get(fields, "severity"))) && m.observedAt == None
            && (m.missing != [] <==>
                  BadIp(f, fields, "src_ip") || BadIp(f, fields, "dst_ip")
                  || CiscoTransport(f, fields).None? || !Text(Get(fields, "message_text")))
  {
    hide EndpointOf, EventType, Contains, Lawful, CiscoTransport, CiscoVerdict, ValidIp, Or;
    EndpointIpIsText(f, fields, "src_ip", "src_port", "src_interface");
    EndpointIpIsText(f, fields, "dst_ip", "dst_port", "dst_interface");
  }

  lemma FortinetNotes(f: Foreign, fields: Fields)
    requires Lawful(f)
    ensures var m := FortinetMap(f, fields);
            && (m.warnings != [] <==> UnlistedLevel(f.lower(f.text(Or(Get(fields, "level"), Str("unknown")))))) && m.observedAt == None
            && (m.missing != [] <==>
                  (FortinetFlow(f, fields)
                   && (BadIp(f, fields, "src_ip") || BadIp(f, fields, "dst_ip") || FortinetTransport(f, fields).None?))
                  || !Text(Or(Get(fields, "message"), Get(fields, "log_description"))))
  {
    hide EndpointOf, EventType, Lawful, FortinetTransport, FortinetVerdict, FortinetIsLogin, ValidIp, Or;
    EndpointIpIsText(f, fields, "src_ip", "src_port", "src_intf");
    EndpointIpIsText(f, fields, "dst_ip", "dst_port", "dst_intf");
  }

  lemma LinuxNotes(f: Foreign, fields: Fields)
    ensures var m := LinuxMap(f, fields);
            && (m.warnings != [] <==> UnlistedCode(f, Get(fields, "severity"))) && m.observedAt == None
            && (m.missing != [] <==> !Text(Get(fields, "message")))
  {
    hide EventType, Or;
  }

  lemma SuricataNotes(f: Foreign, fields: Fields)
    requires Lawful(f)
    ensures var m, t := SuricataMap(f, fields), Get(fields, "timestamp");
            && m.warnings == [] && m.observedAt == (if t.Str? then f.parseIso(t.text) else None)
            && (m.missing != [] <==>
                  (SuricataFlow(f, fields) && (BadIp(f, fields, "src_ip") || BadIp(f, fields, "dest_ip")))
                  || !Truthy(SuricataMessage(f, fields, SuricataFamily(f, fields))))
  {
    hide EndpointOf, EventType, SlugOr, Lawful, SuricataMessage, SuricataHttp, SuricataNetwork, SuricataThreat,
      SuricataAction, SuricataSeverity, SuricataFamily, ValidIp;
    EndpointIpIsText(f, fields, "src_ip", "src_port", "in_iface");
    EndpointIpIsText(f, fields, "dest_ip", "dest_port", "out_iface");
  }

  lemma VersionsWarn(f: Foreign, v: Option<string>)
    ensures SafeVersion(f, v) == "0.0.0" && v != Some("0.0.0") <==> VersionDoubtful(f, v)
  {
  }

  /** What the normalizer warns about and misses is decided by the record alone. */
  lemma NotesIff(f: Foreign, p: Parsed)
    requires Lawful(f)
    ensures var m := MapEvent(f, p.sourcePackId, p.extracted);
            && (Warnings(f, p, m) != [] <==> Doubted(f, p))
            && (Missing(p, m) != [] <==> Incomplete(f, p))
  {
    hide CiscoMap, FortinetMap, LinuxMap, SuricataMap, SafeVersion, VersionDoubtful, Lawful, UnlistedLevel, UnlistedCode, BadIp,
      CiscoTransport, FortinetTransport, FortinetFlow, SuricataFlow, SuricataMessage, Or;
    VersionsWarn(f, p.sourcePackVersion);
    VersionsWarn(f, Some(p.parserVersion));
    match VendorOf(p.sourcePackId)
    case None =>
    case Some(CiscoAsa) => CiscoNotes(f, p.extracted);
    case Some(Fortigate) => FortinetNotes(f, p.extracted);
    case Some(LinuxSyslog) => LinuxNotes(f, p.extracted);
    case Some(Suricata) => SuricataNotes(f, p.extracted);
  }

  /** What the mapping decides about the rules that can fail. */
  lemma MappingVerdict(f: Foreign, p: Parsed)
    requires Lawful(f)
    ensures var m := MapEvent(f, p.sourcePackId, p.extracted);
            && WellMapped(f, m)
            && ((m.category == "network" ==> WithIp(m.source) && WithIp(m.destination)) <==> SuricataHasIps(f, p))
            && ((m.severity.labelText == SEVERITY_UNKNOWN ==> Warnings(f, p, m) != []) <==>
                SuricataSeverityExplained(f, p))
  {
    hide CiscoMap, FortinetMap, LinuxMap, WellMapped, Lawful, SuricataFamily, SuricataScore, AlertOf, Doubted, Incomplete, BadIp,
      Missing, Usable;
    NotesIff(f, p);
    match VendorOf(p.sourcePackId)
    case None => UnknownIsWellMapped(f);
    case Some(CiscoAsa) => CiscoIsWellMapped(f, p.extracted);
    case Some(Fortigate) => FortinetIsWellMapped(f, p.extracted);
    case Some(LinuxSyslog) => LinuxIsWellMapped(f, p.extracted);
    case Some(Suricata) => SuricataVerdict(f, p);
  }

  lemma SuricataVerdict(f: Foreign, p: Parsed)
    requires Lawful(f) && VendorOf(p.sourcePackId) == Some(Suricata)
    ensures var m := SuricataMap(f, p.extracted);
            && WellMapped(f, m)
            && ((m.category == "network" ==> WithIp(m.source) && WithIp(m.destination)) <==> SuricataHasIps(f, p))
            && (m.severity.labelText == SEVERITY_UNKNOWN <==>
                SuricataFamily(f, p.extracted) == "alert" && SuricataScore(Get(AlertOf(p.extracted), "severity")).None?)
  {
    hide WellMapped, Lawful, SuricataFamily, SuricataScore, AlertOf, ValidIp, ValidPort, EndpointOf, WithIp;
    SuricataIsWellMapped(f, p.extracted);
    SuricataEndpoints(f, p.extracted);
    EndpointIffUsable(f, p.extracted, "src_ip", "src_port", "in_iface");
    EndpointIffUsable(f, p.extracted, "dest_ip", "dest_port", "out_iface");
    hide SuricataMap;
  }

  lemma EndpointIffUsable(f: Foreign, fields: Fields, ipKey: string, portKey: string, interfaceKey: string)
    ensures EndpointOf(f, fields, ipKey, portKey, interfaceKey).Some? <==> Usable(f, fields, ipKey, portKey, interfaceKey)
  {
  }

  lemma SuricataEndpoints(f: Foreign, fields: Fields)
    ensures SuricataMap(f, fields).source == EndpointOf(f, fields, "src_ip", "src_port", "in_iface")
    ensures SuricataMap(f, fields).destination == EndpointOf(f, fields, "dest_ip", "dest_port", "out_iface")
  {
  }

  lemma UnknownIsWellMapped(f: Foreign)
    ensures WellMapped(f, UNKNOWN_MAPPING) && UNKNOWN_MAPPING.category == "unknown" && UNKNOWN_MAPPING.warnings != []
  {
  }

  lemma UnknownNamespaceHolds()
    ensures IsNamespace("unknown_source")
  {
    NamespaceIffWords("unknown_source");
    hide IsNamespace;
  }

  lemma OwnNamespaceHolds()
    ensures IsNamespace("ulpf")
  {
    NamespaceIffWords("ulpf");
    hide IsNamespace;
  }

  lemma PackNamespaceHolds(f: Foreign, packId: Option<string>)
    ensures IsNamespace(Namespace(f, packId))
  {
    hide IsNamespace, SlugOr;
    UnknownNamespaceHolds();
    SlugOrIsNamespace(f.lower(if packId.Some? && packId.value != "" then packId.value else "unknown_source"), "unknown_source");
  }

  lemma NamespacesHold(f: Foreign, p: Parsed, m: MappingResult, now: Instant)
    ensures NamespacesWellFormed(Assemble(f, p, m, now))
  {
    hide IsNamespace, Namespace, Provenance, Unique, SortedSet, Warnings, Missing, RawSection, Strings, QualityStatus, Confidence;
    OwnNamespaceHolds();
    PackNamespaceHolds(f, p.sourcePackId);
  }

  lemma TimesHold(f: Foreign, p: Parsed, m: MappingResult, now: Instant)
    requires Lawful(f)
    ensures TimesOrdered(f, Assemble(f, p, m, now))
  {
    hide Extensions, Unique, SortedSet, RawSection, Warnings, Missing;
    assert f.parseUtc(f.utc(ObservedAt(p, m))) == Some(ObservedAt(p, m));
    assert f.parseUtc(f.utc(p.rawEvent.ingestedAt)) == Some(p.rawEvent.ingestedAt);
    assert f.parseUtc(f.utc(NormalizedAt(p, now))) == Some(NormalizedAt(p, now));
  }

  lemma RawHolds(f: Foreign, p: Parsed, m: MappingResult, now: Instant)
    requires Lawful(f) && ValidEnvelope(p.rawEvent, f.sha256)
    ensures RawIntact(f, Assemble(f, p, m, now))
  {
    hide Extensions, Unique, SortedSet, Warnings, Missing;
  }

  lemma SectionsHold(f: Foreign, p: Parsed, m: MappingResult, now: Instant)
    requires WellMapped(f, m)
    ensures var e := Assemble(f, p, m, now);
            && IntrusionHasThreat(e) && AuthenticationHasDetails(e) && ActionConsistent(e)
            && SeverityLabelled(e) && OutcomesAgree(e)
            && ((NetworkHasEndpoint(e, e.source) && NetworkHasEndpoint(e, e.destination)) <==>
                (m.category == "network" ==> WithIp(m.source) && WithIp(m.destination)))
  {
    hide Extensions, Unique, SortedSet, Warnings, Missing, RawSection, QualityStatus, Confidence, Strings;
  }

  lemma QualityHolds(f: Foreign, p: Parsed, m: MappingResult, now: Instant)
    requires WellMapped(f, m)
    ensures var e := Assemble(f, p, m, now);
            && (UnknownSeverityExplained(e) <==>
                (m.severity.labelText == SEVERITY_UNKNOWN ==> Warnings(f, p, m) != []))
            && (PartialExplained(e) <==>
                (p.status == Partial ==> Warnings(f, p, m) != [] || Missing(p, m) != []))
  {
    hide Extensions, Unique, SortedSet, Warnings, Missing, RawSection, RatedLike;
    ListsSayWhetherEmpty(Warnings(f, p, m));
    ListsSayWhetherEmpty(Missing(p, m));
    hide Strings;
  }

  /** For every extracted-field map of every source: the validator has no objection to the assembled event
      if and only if a Suricata flow has its addresses, an unlisted alert severity comes with a warning, and
      a partial parse says why. All the other rules hold of every event the builder makes. */
  lemma AssembledIsConsistentIff(f: Foreign, p: Parsed, now: Instant)
    requires Lawful(f) && ValidEnvelope(p.rawEvent, f.sha256)
    ensures var e := Assemble(f, p, MapEvent(f, p.sourcePackId, p.extracted), now);
            SemanticIssues(f, e) == {} <==>
            SuricataHasIps(f, p) && SuricataSeverityExplained(f, p) && PartialHasReason(f, p)
  {
    hide Assemble, MapEvent, WellMapped, SuricataHasIps, SuricataSeverityExplained, SemanticIssues, Lawful, Warnings, Missing,
      Doubted, Incomplete;
    NotesIff(f, p);
    var m := MapEvent(f, p.sourcePackId, p.extracted);
    var e := Assemble(f, p, m, now);
    MappingVerdict(f, p);
    NamespacesHold(f, p, m, now);
    TimesHold(f, p, m, now);
    RawHolds(f, p, m, now);
    SectionsHold(f, p, m, now);
    QualityHolds(f, p, m, now);
    SilentIffConsistent(f, e);
    hide NetworkHasEndpoint, TimesOrdered, IntrusionHasThreat, AuthenticationHasDetails, ActionConsistent, SeverityLabelled,
      UnknownSeverityExplained, OutcomesAgree, PartialExplained, NamespacesWellFormed, RawIntact;
  }

  // ---- what the shipped Source Packs hand over ---------------------------------------------------------

  /** Laws of text conversion: `str` keeps text, and lower case is left alone. */
  ghost predicate LawfulText(f: Foreign) {
    && (forall s: string :: f.text(Str(s)) == s)
    && (forall s: string :: Words(s) ==> f.lower(s) == s)
  }

  predicate PortIfAny(fields: Fields, key: string) {
    key in fields ==> fields[key].Int? && 0 <= fields[key].number <= 65535
  }

  /** The checks of the Suricata pack. They look at the event type, the time, the addresses, the ports and
      the body, and at nothing inside an alert. */
  predicate SuricataAccepts(f: Foreign, fields: Fields) {
    var family, timestamp := Get(fields, "event_type"), Get(fields, "timestamp");
    && family in {Str("alert"), Str("flow"), Str("dns"), Str("http")}
    && timestamp.Str? && f.parseIso(timestamp.text).Some? && f.parseIso(timestamp.text).value.Zoned?
    && !BadIp(f, fields, "src_ip") && !BadIp(f, fields, "dest_ip")
    && PortIfAny(fields, "src_port") && PortIfAny(fields, "dest_port")
    && Get(fields, family.text).Dict?
  }

  /** Every pack stamps a record with a clock reading. Every record that is no success carries an issue; a Suricata record is a success exactly when it passes
      the checks, and otherwise keeps its fields all the same. */
  predicate FromShippedPack(f: Foreign, p: Parsed) {
    && p.parsedAt.Zoned? && Representable(p.parsedAt.at)
    && (p.status != Success ==> p.issues != [])
    && (VendorOf(p.sourcePackId) == Some(Suricata) ==> (p.status == Success <==> SuricataAccepts(f, p.extracted)))
  }

  /** The validator's verdict on everything the shipped packs hand over. It objects to two kinds of Suricata
      records only: an accepted alert of an unlisted severity that nothing else casts doubt on, and a rejected
      flow between two ends of which one has no address. */
  lemma ShippedIsConsistentIff(f: Foreign, p: Parsed, now: Instant)
    requires Lawful(f) && ValidEnvelope(p.rawEvent, f.sha256) && FromShippedPack(f, p)
    ensures SemanticIssues(f, Assemble(f, p, MapEvent(f, p.sourcePackId, p.extracted), now)) == {} <==>
            (p.status == Success ==> SuricataSeverityExplained(f, p)) && (p.status != Success ==> SuricataHasIps(f, p))
  {
    hide Assemble, SemanticIssues, MapEvent, SuricataFamily, SuricataScore, Lawful, BadIp, PortIfAny;
    AssembledIsConsistentIff(f, p, now);
  }

  /** Normalizing an accepted Suricata record raises exactly when its alert's severity cannot be a key or its
      time lies before the first instant. The pack checks neither. */
  lemma AcceptedRaisesIff(f: Foreign, p: Parsed, now: Instant)
    requires LawfulText(f) && FromShippedPack(f, p) && p.status == Success && VendorOf(p.sourcePackId) == Some(Suricata)
    ensures Normalize(f, p, now).None? <==>
            || (Get(p.extracted, "event_type") == Str("alert") && !Hashable(Get(AlertOf(p.extracted), "severity")))
            || f.parseIso(Get(p.extracted, "timestamp").text).value.at < EARLIEST
  {
    hide Finished, BadIp, PortIfAny;
    NormalizeRaisesIff(f, p, now);
    hide Normalize;
    FamilyIsText(f, p.extracted);
  }

  lemma FamilyIsText(f: Foreign, fields: Fields)
    requires LawfulText(f) && SuricataAccepts(f, fields)
    ensures Get(fields, "event_type") == Str(SuricataFamily(f, fields))
  {
    hide BadIp, PortIfAny;
    assert Words("alert");
    assert Words("flow");
    assert Words("dns");
    assert Words("http");
  }

  /** The builder satisfies the judge on everything the shipped packs hand over, provided the caller keeps to
      Suricata records that were accepted, whose time is in range, and to alerts of a listed severity. */
  lemma BuilderSatisfiesJudge(f: Foreign, p: Parsed, now: Instant)
    requires Lawful(f) && LawfulText(f) && ValidEnvelope(p.rawEvent, f.sha256) && FromShippedPack(f, p)
    requires VendorOf(p.sourcePackId) == Some(Suricata) ==>
               && p.status == Success
               && !SuricataTimeRaises(f, p.extracted)
               && (Get(p.extracted, "event_type") == Str("alert") ==>
                     Get(AlertOf(p.extracted), "severity") in {Int(1), Int(2), Int(3)})
    ensures Normalize(f, p, now).Some?
    ensures SemanticIssues(f, Assemble(f, p, MapEvent(f, p.sourcePackId, p.extracted), now)) == {}
  {
    hide Assemble, SemanticIssues, MapEvent, Finished, Lawful, BadIp, PortIfAny, SuricataFamily, LawfulText, Doubted, Usable;
    ShippedIsConsistentIff(f, p, now);
    NormalizeRaisesIff(f, p, now);
    hide Normalize;
    if VendorOf(p.sourcePackId) == Some(Suricata) {
      AcceptedRaisesIff(f, p, now);
      FamilyIsText(f, p.extracted);
    }
  }

  // ---- records the judge objects to --------------------------------------------------------------------

  const ALERT_OF_SEVERITY_FOUR: Fields := map[
    "event_type" := Str("alert"), "timestamp" := Str("2026-01-01T00:00:00Z"),
    "src_ip" := Str("192.0.2.1"), "dest_ip" := Str("192.0.2.2"),
    "alert" := Dict(map["severity" := Int(4), "signature" := Str("probe")])]

  const ALERT_OF_LIST_SEVERITY: Fields := map[
    "event_type" := Str("alert"), "timestamp" := Str("2026-01-01T00:00:00Z"),
    "src_ip" := Str("192.0.2.1"), "dest_ip" := Str("192.0.2.2"),
    "alert" := Dict(map["severity" := List([])])]

  const DNS_BEFORE_YEAR_ONE: Fields := map[
    "event_type" := Str("dns"), "timestamp" := Str("0001-01-01T00:00:00+01:00"),
    "src_ip" := Str("192.0.2.1"), "dest_ip" := Str("192.0.2.2"),
    "dns" := Dict(map[])]

  const FLOW_WITHOUT_ADDRESSES: Fields := map[
    "event_type" := Str("flow"), "timestamp" := Str("2026-01-01T00:00:00Z"),
    "src_ip" := Str("unknown"), "dest_ip" := Str("unknown"), "src_port" := Int(1024), "dest_port" := Int(53),
    "flow" := Dict(map[])]

  function SuricataRecord(raw: Envelope, status: ParseStatus, issues: seq<string>, fields: Fields): Parsed {
    Parsed(
      raw.eventId, Zoned(raw.ingestedAt), Some("OISF"), Some("Suricata"), "suricata.eve.json", "1.0.0",
      Some("suricata_eve"), Some("1.0.0"), status, issues, fields, raw)
  }

  /** What the library makes of the texts in these records. */
  predicate ReadsExamples(f: Foreign, raw: Envelope) {
    && f.semver("1.0.0") && f.parseIp("192.0.2.1").Some? && f.parseIp("192.0.2.2").Some? && f.parseIp("unknown").None?
    && f.parseIso("2026-01-01T00:00:00Z") == Some(Zoned(raw.ingestedAt))
    && f.parseIso("0001-01-01T00:00:00+01:00") == Some(Zoned(EARLIEST - 3600000000))
  }

  lemma AlertExampleReads()
    ensures var a := ALERT_OF_SEVERITY_FOUR;
            && Get(a, "event_type") == Str("alert") && Get(a, "timestamp") == Str("2026-01-01T00:00:00Z")
            && Get(a, "src_ip") == Str("192.0.2.1") && Get(a, "dest_ip") == Str("192.0.2.2")
            && "src_port" !in a && "dest_port" !in a
            && Get(a, "alert") == Dict(map["severity" := Int(4), "signature" := Str("probe")])
  {
  }

  lemma FlowExampleReads()
    ensures var a := FLOW_WITHOUT_ADDRESSES;
            && Get(a, "event_type") == Str("flow") && Get(a, "timestamp") == Str("2026-01-01T00:00:00Z")
            && Get(a, "src_ip") == Str("unknown") && Get(a, "dest_ip") == Str("unknown")
            && Get(a, "src_port") == Int(1024) && Get(a, "dest_port") == Int(53)
  {
  }

  lemma AlertExampleIsAccepted(f: Foreign, raw: Envelope)
    requires LawfulText(f) && ReadsExamples(f, raw)
    ensures SuricataAccepts(f, ALERT_OF_SEVERITY_FOUR) && SuricataFamily(f, ALERT_OF_SEVERITY_FOUR) == "alert"
    ensures Get(AlertOf(ALERT_OF_SEVERITY_FOUR), "severity") == Int(4)
  {
    AlertExampleReads();
    hide ALERT_OF_SEVERITY_FOUR;
    assert SuricataAccepts(f, ALERT_OF_SEVERITY_FOUR);
    FamilyIsText(f, ALERT_OF_SEVERITY_FOUR);
  }

  /** The pack accepts an alert of severity 4, and the validator objects to the event it becomes. */
  lemma UnlistedSeverityIsObjected(f: Foreign, raw: Envelope, now: Instant)
    requires Lawful(f) && LawfulText(f) && ValidEnvelope(raw, f.sha256) && ReadsExamples(f, raw)
    ensures var p := SuricataRecord(raw, Success, [], ALERT_OF_SEVERITY_FOUR);
            && FromShippedPack(f, p) && Normalize(f, p, now).Some?
            && SemanticIssues(f, Assemble(f, p, MapEvent(f, p.sourcePackId, p.extracted), now)) != {}
  {
    hide Assemble, SemanticIssues, MapEvent, Finished, SuricataAccepts, BadIp, Lawful, LawfulText, SuricataFamily, Normalize;
    var p := SuricataRecord(raw, Success, [], ALERT_OF_SEVERITY_FOUR);
    AlertExampleReads();
    AlertExampleIsAccepted(f, raw);
    hide ALERT_OF_SEVERITY_FOUR, AlertOf;
    assert !Doubted(f, p);
    hide Doubted;
    AcceptedRaisesIff(f, p, now);
    ShippedIsConsistentIff(f, p, now);
  }

  lemma ListAlertReads()
    ensures var a := ALERT_OF_LIST_SEVERITY;
            && Get(a, "event_type") == Str("alert") && Get(a, "timestamp") == Str("2026-01-01T00:00:00Z")
            && Get(a, "src_ip") == Str("192.0.2.1") && Get(a, "dest_ip") == Str("192.0.2.2")
            && "src_port" !in a && "dest_port" !in a
            && Get(a, "alert") == Dict(map["severity" := List([])])
  {
  }

  /** The pack accepts an alert whose severity is a list, and normalizing it raises, at every clock reading. */
  lemma ListSeverityRaises(f: Foreign, raw: Envelope, now: Instant)
    requires LawfulText(f) && ReadsExamples(f, raw)
    ensures var p := SuricataRecord(raw, Success, [], ALERT_OF_LIST_SEVERITY);
            FromShippedPack(f, p) && Normalize(f, p, now) == None
  {
    hide Finished, LawfulText, Normalize, MapEvent;
    var p := SuricataRecord(raw, Success, [], ALERT_OF_LIST_SEVERITY);
    ListAlertReads();
    hide ALERT_OF_LIST_SEVERITY;
    assert SuricataAccepts(f, p.extracted);
    hide SuricataAccepts;
    AcceptedRaisesIff(f, p, now);
  }

  lemma EarlyExampleReads()
    ensures var a := DNS_BEFORE_YEAR_ONE;
            && Get(a, "event_type") == Str("dns") && Get(a, "timestamp") == Str("0001-01-01T00:00:00+01:00")
            && Get(a, "src_ip") == Str("192.0.2.1") && Get(a, "dest_ip") == Str("192.0.2.2")
            && "src_port" !in a && "dest_port" !in a && Get(a, "dns") == Dict(map[])
  {
  }

  /** The pack accepts a time that falls before year 1 in UTC, and normalizing it raises. */
  lemma EarlyTimeRaises(f: Foreign, raw: Envelope, now: Instant)
    requires LawfulText(f) && ReadsExamples(f, raw)
    ensures var p := SuricataRecord(raw, Success, [], DNS_BEFORE_YEAR_ONE);
            FromShippedPack(f, p) && Normalize(f, p, now) == None
  {
    hide Finished, LawfulText, Normalize, MapEvent;
    var p := SuricataRecord(raw, Success, [], DNS_BEFORE_YEAR_ONE);
    EarlyExampleReads();
    hide DNS_BEFORE_YEAR_ONE;
    assert SuricataAccepts(f, p.extracted);
    hide SuricataAccepts;
    AcceptedRaisesIff(f, p, now);
  }

  lemma FlowExampleIsRejected(f: Foreign, raw: Envelope)
    requires LawfulText(f) && ReadsExamples(f, raw)
    requires f.toInt(Int(1024)) == Some(1024) && f.toInt(Int(53)) == Some(53)
    ensures var a := FLOW_WITHOUT_ADDRESSES;
            && !SuricataAccepts(f, a) && SuricataFamily(f, a) == "flow" && BadIp(f, a, "src_ip")
            && Usable(f, a, "src_ip", "src_port", "in_iface") && Usable(f, a, "dest_ip", "dest_port", "out_iface")
  {
    FlowExampleReads();
    hide FLOW_WITHOUT_ADDRESSES;
    assert Words("flow");
  }

  /** A flow the pack rejected for its addresses is normalized all the same, and even the event marked invalid
      breaks the rule about network endpoints. */
  lemma RejectedFlowIsObjected(f: Foreign, raw: Envelope, now: Instant)
    requires Lawful(f) && LawfulText(f) && ValidEnvelope(raw, f.sha256) && ReadsExamples(f, raw)
    requires f.toInt(Int(1024)) == Some(1024) && f.toInt(Int(53)) == Some(53)
    ensures var p := SuricataRecord(raw, Failed, ["src_ip must be a valid IPv4 or IPv6 address"], FLOW_WITHOUT_ADDRESSES);
            && FromShippedPack(f, p) && Normalize(f, p, now).Some?
            && SemanticIssues(f, Finished(f, p, now)) != {}
  {
    hide Finished, SemanticIssues, BadIp, Usable, SuricataFamily, MapEvent, SuricataAccepts, Lawful, LawfulText, Normalize;
    var p := SuricataRecord(raw, Failed, ["src_ip must be a valid IPv4 or IPv6 address"], FLOW_WITHOUT_ADDRESSES);
    FlowExampleReads();
    FlowExampleIsRejected(f, raw);
    hide FLOW_WITHOUT_ADDRESSES;
    NormalizeRaisesIff(f, p, now);
    NormalizedIsConsistentIff(f, p, now);
  }

  /** The finished event may have been marked invalid by its own validation. That mark adds a warning, so the
      only objection that can be left is the one about a Suricata flow's addresses. */
  lemma NormalizedIsConsistentIff(f: Foreign, p: Parsed, now: Instant)
    requires Lawful(f) && ValidEnvelope(p.rawEvent, f.sha256)
    ensures SemanticIssues(f, Finished(f, p, now)) == {} <==> SuricataHasIps(f, p)
  {
    hide Assemble, MapEvent, SuricataHasIps, SuricataSeverityExplained, PartialHasReason, SemanticIssues, Lawful;
    var m := MapEvent(f, p.sourcePackId, p.extracted);
    var e := Assemble(f, p, m, now);
    AssembledIsConsistentIff(f, p, now);
    AssembledQuality(f, p, m, now);
    if Issues(f, e) != {} {
      assert f.render(Issues(f, e)) != [] by { LawfulRender(f, Issues(f, e)); }
      FlagKeepsRules(f, e, Issues(f, e));
      var flagged := Flagged(f, e, Issues(f, e));
      MappingVerdict(f, p);
      NamespacesHold(f, p, m, now);
      TimesHold(f, p, m, now);
      RawHolds(f, p, m, now);
      SectionsHold(f, p, m, now);
      SilentIffConsistent(f, flagged);
      hide NetworkHasEndpoint, TimesOrdered, IntrusionHasThreat, AuthenticationHasDetails, ActionConsistent, SeverityLabelled,
        UnknownSeverityExplained, OutcomesAgree, PartialExplained, NamespacesWellFormed, RawIntact, WellMapped, WithIp;
    } else {
      assert SemanticIssues(f, e) == {};
    }
  }

  lemma LawfulRender(f: Foreign, issues: set<Issue>)
    requires Lawful(f) && issues != {}
    ensures f.render(issues) != []
  {
  }

  lemma AssembledQuality(f: Foreign, p: Parsed, m: MappingResult, now: Instant)
    ensures var e := Assemble(f, p, m, now); e.quality.Object? && e.quality.body.warnings.List?
  {
    hide Extensions, Unique, SortedSet, Warnings, Missing, RawSection;
  }

  lemma FlagKeepsRules(f: Foreign, e: UnifiedEvent, issues: set<Issue>)
    requires e.quality.Object? && e.quality.body.warnings.List? && f.render(issues) != []
    ensures var e' := Flagged(f, e, issues);
            && (TimesOrdered(f, e') <==> TimesOrdered(f, e))
            && (NetworkHasEndpoint(e', e'.source) <==> NetworkHasEndpoint(e, e.source))
            && (NetworkHasEndpoint(e', e'.destination) <==> NetworkHasEndpoint(e, e.destination))
            && (IntrusionHasThreat(e') <==> IntrusionHasThreat(e))
            && (AuthenticationHasDetails(e') <==> AuthenticationHasDetails(e))
            && (ActionConsistent(e') <==> ActionConsistent(e)) && (SeverityLabelled(e') <==> SeverityLabelled(e))
            && (OutcomesAgree(e') <==> OutcomesAgree(e))
            && (NamespacesWellFormed(e') <==> NamespacesWellFormed(e)) && (RawIntact(f, e') <==> RawIntact(f, e))
            && UnknownSeverityExplained(e') && PartialExplained(e')
  {
    hide IsNamespace, ExpectedLabel;
  }

  // ---- evidence --------------------------------------------------------------------------------------

  /** Every normalized event names the parsed event's id and the raw hash it was built from. */
  lemma NormalizedKeepsIdentity(f: Foreign, p: Parsed, now: Instant)
    ensures var e := Normalize(f, p, now);
            e.Some? ==> Identity(e.value) == Some((p.eventId, p.rawEvent.rawSha256))
  {
    hide MapEvent, Extensions, Unique, SortedSet, Warnings, Missing, RawSection, SemanticIssues;
  }

  /** The extracted fields are kept whole under the Source Pack's namespace, unless that namespace is the one the
      normalizer writes its own provenance to. */
  lemma ExtractedFieldsKeptIff(f: Foreign, p: Parsed, now: Instant)
    ensures var ns := Namespace(f, p.sourcePackId);
            var e := Finished(f, p, now);
            && e.extensions.Object? && ns in e.extensions.body
            && (e.extensions.body[ns] == Dict(p.extracted) <==> ns != "ulpf" || p.extracted == Provenance(p))
  {
    hide MapEvent, Unique, SortedSet, Warnings, Missing, RawSection, SemanticIssues, Provenance, Namespace;
  }

  lemma FinishedExtensions(f: Foreign, p: Parsed, now: Instant)
    ensures Finished(f, p, now).extensions == Object(Extensions(f, p))
  {
    hide MapEvent, Unique, SortedSet, Warnings, Missing, RawSection, SemanticIssues, Extensions;
  }

  /** A Source Pack named `ulpf` does lose its fields. */
  lemma UlpfPackLosesFields(f: Foreign, p: Parsed, now: Instant)
    requires f.lower("ulpf") == "ulpf" && Stamped(p.parsedAt) && p.sourcePackId == Some("ulpf") && p.extracted == map["user" := Str("alice")]
    ensures var e := Normalize(f, p, now);
            e.Some? && e.value.extensions == Object(map["ulpf" := Dict(Provenance(p))])
    ensures Provenance(p) != p.extracted
  {
    hide Provenance, MapEvent, Slug, Finished, SuricataFamily, AlertOf;
    SlugKeepsWords("ulpf");
    assert Namespace(f, p.sourcePackId) == "ulpf";
    FinishedExtensions(f, p, now);
    assert Extensions(f, p) == map["ulpf" := Dict(Provenance(p))];
    NormalizeRaisesIff(f, p, now);
    ProvenanceIsNotFields(p);
  }

  lemma ProvenanceIsNotFields(p: Parsed)
    ensures "user" !in Provenance(p)
  {
  }

  // ---- two runs ----------------------------------------------------------------------------------------

  /** The event with its normalization time replaced. */
  function Retimed(e: UnifiedEvent, at: Value): UnifiedEvent {
    if e.times.Object? then e.(times := Object(e.times.body.(normalizedAt := at))) else e
  }

  /** The schema constrains the form of the normalization time, not its value. */
  ghost predicate SchemaIgnoresClock(f: Foreign) {
    forall e: UnifiedEvent, s: Instant, t: Instant :: f.structure(Retimed(e, Str(f.utc(s)))) == f.structure(Retimed(e, Str(f.utc(t))))
  }

  lemma AssembleRetimed(f: Foreign, p: Parsed, m: MappingResult, now: Instant, parsedAt: Iso, later: Instant)
    ensures Assemble(f, p.(parsedAt := parsedAt), m, later)
         == Retimed(Assemble(f, p, m, now), Str(f.utc(NormalizedAt(p.(parsedAt := parsedAt), later))))
  {
    hide Unique, SortedSet, Strings;
  }

  /** The validator finds the same in both assemblies. */
  lemma SameIssues(f: Foreign, p: Parsed, now: Instant, parsedAt: Iso, later: Instant)
    requires Lawful(f) && SchemaIgnoresClock(f)
    ensures var q, m := p.(parsedAt := parsedAt), MapEvent(f, p.sourcePackId, p.extracted);
            Issues(f, Assemble(f, p, m, now)) == Issues(f, Assemble(f, q, m, later))
  {
    hide Assemble, MapEvent, SemanticIssues, Lawful;
    var q := p.(parsedAt := parsedAt);
    var m := MapEvent(f, p.sourcePackId, p.extracted);
    var e := Assemble(f, p, m, now);
    AssembleRetimed(f, p, m, now, parsedAt, later);
    AssembleRetimed(f, p, m, now, p.parsedAt, now);
    assert p.(parsedAt := p.parsedAt) == p;
    var s, t := NormalizedAt(p, now), NormalizedAt(q, later);
    assert f.structure(Retimed(e, Str(f.utc(s)))) == f.structure(Retimed(e, Str(f.utc(t))));
    SameSemantics(f, p, m, now, q, later);
  }

  /** Normalizing the same parsed event at two clock readings, or the same parse made at two times, gives
      events that differ in `normalized_at` only. */
  lemma NormalizingTwiceDiffersInTimeOnly(f: Foreign, p: Parsed, now: Instant, parsedAt: Iso, later: Instant)
    requires Lawful(f) && SchemaIgnoresClock(f)
    ensures var q := p.(parsedAt := parsedAt);
            && Finished(f, q, later) == Retimed(Finished(f, p, now), Str(f.utc(NormalizedAt(q, later))))
            && ((Stamped(parsedAt) <==> Stamped(p.parsedAt)) ==> (Raises(f, q) <==> Raises(f, p)))
  {
    hide Assemble, MapEvent, Issues, Lawful, SchemaIgnoresClock;
    var q := p.(parsedAt := parsedAt);
    var m := MapEvent(f, p.sourcePackId, p.extracted);
    AssembleRetimed(f, p, m, now, parsedAt, later);
    SameIssues(f, p, now, parsedAt, later);
    AssembledQuality(f, p, m, now);
    AssembledQuality(f, q, m, later);
  }

  predicate MarkedInvalid(e: UnifiedEvent) {
    e.quality.Object? && e.quality.body.status == Str("invalid")
  }

  /** An event is fit for the events table when the validator has no objection to it and it is not marked invalid. */
  predicate Fit(f: Foreign, e: UnifiedEvent) {
    Issues(f, e) == {} && !MarkedInvalid(e)
  }

  /** That is decided by its assembly and its parse. */
  lemma FitIff(f: Foreign, p: Parsed, now: Instant)
    ensures Fit(f, Finished(f, p, now)) <==>
            Issues(f, Assemble(f, p, MapEvent(f, p.sourcePackId, p.extracted), now)) == {} && p.status != Failed
  {
    hide MapEvent, Issues, Extensions, Unique, SortedSet, Warnings, Missing, RawSection, Strings;
  }

  lemma SameFitness(f: Foreign, p: Parsed, now: Instant, parsedAt: Iso, later: Instant)
    requires Lawful(f) && SchemaIgnoresClock(f)
    ensures Fit(f, Finished(f, p, now)) <==> Fit(f, Finished(f, p.(parsedAt := parsedAt), later))
  {
    hide Fit, Finished, Issues, Assemble, MapEvent, Lawful, SchemaIgnoresClock;
    FitIff(f, p, now);
    FitIff(f, p.(parsedAt := parsedAt), later);
    SameIssues(f, p, now, parsedAt, later);
  }

  lemma SameSemantics(f: Foreign, p: Parsed, m: MappingResult, now: Instant, q: Parsed, later: Instant)
    requires Lawful(f) && q == p.(parsedAt := q.parsedAt)
    ensures SemanticIssues(f, Assemble(f, p, m, now)) == SemanticIssues(f, Assemble(f, q, m, later))
  {
    hide Assemble, Lawful, TimesOrdered, CategoryIssues, ActionIssues, SeverityIssues, OutcomeIssues, QualityIssues,
      NamespaceIssues, RawIssues, Retimed;
    TimesHold(f, p, m, now);
    TimesHold(f, q, m, later);
    AssembleRetimed(f, p, m, now, q.parsedAt, later);
    RetimingKeepsRules(f, Assemble(f, p, m, now), Str(f.utc(NormalizedAt(q, later))));
  }

  /** Only the rule about times reads the normalization time. */
  lemma RetimingKeepsRules(f: Foreign, e: UnifiedEvent, at: Value)
    ensures var e' := Retimed(e, at);
            && CategoryIssues(e') == CategoryIssues(e) && ActionIssues(e') == ActionIssues(e)
            && SeverityIssues(f, e') == SeverityIssues(f, e) && OutcomeIssues(e') == OutcomeIssues(e)
            && QualityIssues(e') == QualityIssues(e) && NamespaceIssues(e') == NamespaceIssues(e)
            && RawIssues(f, e') == RawIssues(f, e)
  {
    hide IsNamespace, ExpectedLabel, LabelIssue, NamespaceIssue;
    var e' := Retimed(e, at);
    assert CategoryIssues(e') == CategoryIssues(e);
    assert SeverityIssues(f, e') == SeverityIssues(f, e);
    assert NamespaceIssues(e') == NamespaceIssues(e);
  }
}
