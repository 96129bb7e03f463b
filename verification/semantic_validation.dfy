/** The cross-field rules that judge a normalized event. */
module SemanticValidation {
  import opened Common
  import opened Contracts
  import opened UnifiedEvents

  datatype Issue = Issue(path: string, rule: string, message: string)

  /** Library functions the normalizer and the validator call. */
  datatype Foreign = Foreign(
    lower: string -> string,
    strip: string -> string,                // strip of white space
    upper: string -> string,
    isAlpha: string -> bool,
    text: Value -> string,                  // str
    toInt: Value -> Option<int>,            // int; None is TypeError or ValueError
    parseIp: string -> Option<string>,      // canonical text of an IP address
    parseIso: string -> Option<Iso>,        // an ISO 8601 time; Z is read as a zone
    parseUtc: string -> Option<int>,        // the time that text ending in Z names
    utc: Instant -> string,
    encodeUtf8: string -> Bytes,
    decodeUtf8: Bytes -> Option<string>,
    sha256: Bytes -> string,
    semver: string -> bool,
    structure: UnifiedEvent -> set<Issue>,  // JSON Schema validation
    render: set<Issue> -> seq<string>)      // one line for each issue, sorted

  ghost predicate Lawful(f: Foreign) {
    && (forall t: Instant :: EndsWithZ(f.utc(t)) && f.parseUtc(f.utc(t)) == Some(t))
    && (forall b: Bytes :: f.decodeUtf8(b).Some? ==> f.encodeUtf8(f.decodeUtf8(b).value) == b)
    && (forall s: string :: f.parseIp(s).Some? ==> f.parseIp(s).value != "")
    && (forall issues: set<Issue> :: issues != {} ==> f.render(issues) != [])
  }

  predicate EndsWithZ(s: string) {
    s != "" && s[|s| - 1] == 'Z'
  }

  function ParseUtc(f: Foreign, v: Value): Option<int> {
    if v.Str? && EndsWithZ(v.text) then f.parseUtc(v.text) else None
  }

  // ---- the namespace grammar -----------------------------------------------------------------------

  predicate Letter(c: char) { 'a' <= c <= 'z' }

  predicate AlphaNum(c: char) { Letter(c) || '0' <= c <= '9' }

  /** The alphabet, written out. */
  lemma LettersAre(c: char)
    ensures Letter(c) <==> c in "abcdefghijklmnopqrstuvwxyz"
    ensures AlphaNum(c) <==> Letter(c) || c in "0123456789"
  {
    DigitsAre(c);
    var letters := "abcdefghijklmnopqrstuvwxyz";
    assert Letter(c) ==> letters[c as int - 97] == c;
  }

  lemma DigitsAre(c: char)
    ensures '0' <= c <= '9' <==> c in "0123456789"
  {
    var digits := "0123456789";
    assert '0' <= c <= '9' ==> digits[c as int - 48] == c;
  }

  datatype Scanning = AtStart | InWord | AfterUnderscore

  /** A matcher for `^[a-z][a-z0-9]*(?:_[a-z0-9]+)*$`. */
  predicate Matches(s: string, at: Scanning)
    decreases |s|
  {
    if s == "" then at == InWord
    else
      match at
      case AtStart => Letter(s[0]) && Matches(s[1..], InWord)
      case InWord => if s[0] == '_' then Matches(s[1..], AfterUnderscore) else AlphaNum(s[0]) && Matches(s[1..], InWord)
      case AfterUnderscore => AlphaNum(s[0]) && Matches(s[1..], InWord)
  }

  predicate IsNamespace(s: string) {
    Matches(s, AtStart)
  }

  /** Lower-case words joined by single underscores. */
  predicate Words(s: string) {
    && (forall i :: 0 <= i < |s| ==> AlphaNum(s[i]) || s[i] == '_')
    && (forall i :: 0 <= i < |s| - 1 ==> !(s[i] == '_' && s[i + 1] == '_'))
    && (s != "" ==> s[|s| - 1] != '_')
  }

  lemma {:induction false} MatchesIffWords(s: string, at: Scanning)
    requires at != AtStart
    ensures Matches(s, at) <==> Words(s) && (at == AfterUnderscore ==> s != "" && s[0] != '_')
    decreases |s|
  {
    if s != "" {
      MatchesIffWords(s[1..], InWord);
      MatchesIffWords(s[1..], AfterUnderscore);
      WordsCons(s);
    }
  }

  lemma WordsCons(s: string)
    requires s != ""
    ensures Words(s) <==>
            && (AlphaNum(s[0]) || s[0] == '_') && Words(s[1..])
            && (s[0] == '_' ==> |s| > 1 && s[1] != '_')
  {
    var t := s[1..];
    assert forall i :: 0 <= i < |t| ==> t[i] == s[i + 1];
    if Words(s) {
      forall i | 0 <= i < |t| - 1 ensures !(t[i] == '_' && t[i + 1] == '_') {
        assert !(s[i + 1] == '_' && s[i + 2] == '_');
      }
    }
    if (AlphaNum(s[0]) || s[0] == '_') && Words(t) && (s[0] == '_' ==> |s| > 1 && s[1] != '_') {
      forall i | 0 <= i < |s| - 1 ensures !(s[i] == '_' && s[i + 1] == '_') {
        if i > 0 {
          assert !(t[i - 1] == '_' && t[i] == '_');
        }
      }
      forall i | 0 <= i < |s| ensures AlphaNum(s[i]) || s[i] == '_' {
        if i > 0 {
          assert AlphaNum(t[i - 1]) || t[i - 1] == '_';
        }
      }
    }
  }

  /** The grammar accepts exactly the words that start with a letter. */
  lemma NamespaceIffWords(s: string)
    ensures IsNamespace(s) <==> s != "" && Letter(s[0]) && Words(s)
  {
    if s != "" {
      MatchesIffWords(s[1..], InWord);
      WordsCons(s);
    }
  }

  // ---- the rules -----------------------------------------------------------------------------------

  function Category(e: UnifiedEvent): Value {
    if e.meta.Object? then e.meta.body.category else Null
  }

  /** A missing section reads as an empty object where the source gives `{}` as default. */
  function ActionOf(e: UnifiedEvent): Option<Action> {
    match e.action
    case Absent => Some(Action(Null, Null, Null))
    case Malformed => None
    case Object(a) => Some(a)
  }

  function SeverityOf(e: UnifiedEvent): Option<Severity> {
    match e.severity
    case Absent => Some(Severity(Null, Null, Null))
    case Malformed => None
    case Object(s) => Some(s)
  }

  function WarningsOf(e: UnifiedEvent): Value {
    if e.quality.Object? then e.quality.body.warnings else List([])
  }

  function ExpectedLabel(n: int): string {
    if n == 0 then "informational"
    else if n <= 3 then "low"
    else if n <= 6 then "medium"
    else if n <= 8 then "high"
    else "critical"
  }

  const SEVERITY_UNKNOWN := Str("unknown")

  predicate OneOf(v: Value, a: string, b: string) {
    v == Str(a) || v == Str(b)
  }

  /** One predicate for each rule: true when the event obeys it. */
  predicate TimesOrdered(f: Foreign, e: UnifiedEvent) {
    e.times.Object? ==>
      var observed := ParseUtc(f, e.times.body.observedAt);
      var ingested := ParseUtc(f, e.times.body.ingestedAt);
      var normalized := ParseUtc(f, e.times.body.normalizedAt);
      observed.Some? && ingested.Some? && normalized.Some? ==>
        observed.value <= ingested.value <= normalized.value
  }

  predicate HasIp(endpoint: Section<Endpoint>) {
    endpoint.Object? && Truthy(endpoint.body.ip)
  }

  predicate NetworkHasEndpoint(e: UnifiedEvent, endpoint: Section<Endpoint>) {
    Category(e) == Str("network") ==> HasIp(endpoint)
  }

  predicate IntrusionHasThreat(e: UnifiedEvent) {
    Category(e) == Str("intrusion_detection") ==> e.threat.Object?
  }

  predicate AuthenticationHasDetails(e: UnifiedEvent) {
    Category(e) == Str("authentication") ==> e.authentication.Object?
  }

  predicate ActionConsistent(e: UnifiedEvent) {
    ActionOf(e).Some? ==>
      !(OneOf(ActionOf(e).value.normalized, "deny", "block") && ActionOf(e).value.outcome == Str("success"))
  }

  predicate SeverityLabelled(e: UnifiedEvent) {
    SeverityOf(e).Some? ==>
      var s := SeverityOf(e).value;
      s.normalized.Int? && 0 <= s.normalized.number <= 10 && s.labelText != SEVERITY_UNKNOWN ==>
        s.labelText == Str(ExpectedLabel(s.normalized.number))
  }

  predicate UnknownSeverityExplained(e: UnifiedEvent) {
    SeverityOf(e).Some? && SeverityOf(e).value.labelText == SEVERITY_UNKNOWN ==> Truthy(WarningsOf(e))
  }

  predicate OutcomesAgree(e: UnifiedEvent) {
    e.authentication.Object? && ActionOf(e).Some? ==>
      var result, outcome := e.authentication.body.result, ActionOf(e).value.outcome;
      OneOf(result, "success", "failure") && OneOf(outcome, "success", "failure") ==> result == outcome
  }

  predicate PartialExplained(e: UnifiedEvent) {
    e.quality.Object? && e.quality.body.status == Str("partial") ==>
      Truthy(e.quality.body.missingFields) || Truthy(e.quality.body.warnings)
  }

  predicate NamespacesWellFormed(e: UnifiedEvent) {
    e.extensions.Object? ==> forall ns :: ns in e.extensions.body ==> IsNamespace(ns)
  }

  predicate RawIntact(f: Foreign, e: UnifiedEvent) {
    e.traceability.Object? && e.traceability.body.rawEvent.Object?
    && e.traceability.body.rawEvent.body.content.Str? ==>
      Str(f.sha256(f.encodeUtf8(e.traceability.body.rawEvent.body.content.text))) == e.traceability.body.rawSha256
  }

  /** An event that no rule objects to. */
  predicate Consistent(f: Foreign, e: UnifiedEvent) {
    && TimesOrdered(f, e)
    && NetworkHasEndpoint(e, e.source) && NetworkHasEndpoint(e, e.destination)
    && IntrusionHasThreat(e) && AuthenticationHasDetails(e)
    && ActionConsistent(e)
    && SeverityLabelled(e) && UnknownSeverityExplained(e)
    && OutcomesAgree(e)
    && PartialExplained(e)
    && NamespacesWellFormed(e)
    && RawIntact(f, e)
  }

  // ---- the issues ------------------------------------------------------------------------------------

  const TIME_ISSUE := Issue("$.time", "timestamp_order", "must satisfy observed_at <= ingested_at <= normalized_at")
  const SOURCE_ISSUE := Issue("$.source.ip", "network_endpoint", "network events require an IP address")
  const DESTINATION_ISSUE := Issue("$.destination.ip", "network_endpoint", "network events require an IP address")
  const THREAT_ISSUE :=
    Issue("$.threat", "category_requirement", "intrusion_detection events require threat details")
  const AUTHENTICATION_ISSUE :=
    Issue("$.authentication", "category_requirement", "authentication events require authentication details")
  const ACTION_ISSUE :=
    Issue("$.action.outcome", "action_consistency", "deny and block actions cannot have success outcome")
  const UNCERTAIN_ISSUE :=
    Issue("$.severity.label", "severity_uncertainty", "unknown severity requires a quality warning")
  const OUTCOME_ISSUE :=
    Issue("$.authentication.result", "outcome_consistency", "authentication result must match action outcome")
  const PARTIAL_ISSUE :=
    Issue("$.quality", "partial_explanation", "partial quality requires missing_fields or warnings")
  const RAW_ISSUE :=
    Issue("$.traceability.raw_sha256", "raw_integrity", "does not match embedded raw_event content")

  function LabelIssue(f: Foreign, n: int): Issue {
    Issue("$.severity.label", "severity_consistency",
          "normalized severity " + f.text(Int(n)) + " requires label " + ExpectedLabel(n))
  }

  function NamespaceIssue(ns: string): Issue {
    Issue("$.extensions." + ns, "vendor_namespace", "extension namespace must be lowercase snake_case")
  }

  function When(broken: bool, issue: Issue): set<Issue> {
    if broken then {issue} else {}
  }

  function NamespaceIssues(e: UnifiedEvent): set<Issue> {
    if e.extensions.Object? then
      set ns | ns in e.extensions.body.Keys && !IsNamespace(ns) :: NamespaceIssue(ns)
    else {}
  }

  function SeverityNumber(e: UnifiedEvent): int {
    if SeverityOf(e).Some? && SeverityOf(e).value.normalized.Int? then SeverityOf(e).value.normalized.number else 0
  }

  function TimeIssues(f: Foreign, e: UnifiedEvent): set<Issue> {
    When(!TimesOrdered(f, e), TIME_ISSUE)
  }

  function CategoryIssues(e: UnifiedEvent): set<Issue> {
    When(!NetworkHasEndpoint(e, e.source), SOURCE_ISSUE)
    + When(!NetworkHasEndpoint(e, e.destination), DESTINATION_ISSUE)
    + When(!IntrusionHasThreat(e), THREAT_ISSUE)
    + When(!AuthenticationHasDetails(e), AUTHENTICATION_ISSUE)
  }

  function ActionIssues(e: UnifiedEvent): set<Issue> {
    When(!ActionConsistent(e), ACTION_ISSUE)
  }

  function SeverityIssues(f: Foreign, e: UnifiedEvent): set<Issue> {
    When(!SeverityLabelled(e), LabelIssue(f, SeverityNumber(e)))
    + When(!UnknownSeverityExplained(e), UNCERTAIN_ISSUE)
  }

  function OutcomeIssues(e: UnifiedEvent): set<Issue> {
    When(!OutcomesAgree(e), OUTCOME_ISSUE)
  }

  function QualityIssues(e: UnifiedEvent): set<Issue> {
    When(!PartialExplained(e), PARTIAL_ISSUE)
  }

  function RawIssues(f: Foreign, e: UnifiedEvent): set<Issue> {
    When(!RawIntact(f, e), RAW_ISSUE)
  }

  /** Every issue of an event: one for each broken rule, and one for each bad namespace. */
  function SemanticIssues(f: Foreign, e: UnifiedEvent): set<Issue> {
    TimeIssues(f, e) + CategoryIssues(e) + ActionIssues(e) + SeverityIssues(f, e) + OutcomeIssues(e)
    + QualityIssues(e) + NamespaceIssues(e) + RawIssues(f, e)
  }

  lemma NoNamespaceIssues(e: UnifiedEvent)
    ensures NamespaceIssues(e) == {} <==> NamespacesWellFormed(e)
  {
    if !NamespacesWellFormed(e) {
      var ns :| ns in e.extensions.body && !IsNamespace(ns);
      assert NamespaceIssue(ns) in NamespaceIssues(e);
    }
  }

  /** Times that can be read are judged by their order, and times that cannot are not judged. */
  lemma TimesJudgedIff(f: Foreign, e: UnifiedEvent, a: Instant, b: Instant, c: Instant)
    requires Lawful(f) && e.times == Object(Times(Str(f.utc(a)), Str(f.utc(b)), Str(f.utc(c))))
    ensures TimesOrdered(f, e) <==> a <= b <= c
  {
    assert f.parseUtc(f.utc(a)) == Some(a as int) && f.parseUtc(f.utc(b)) == Some(b as int)
           && f.parseUtc(f.utc(c)) == Some(c as int);
  }

  lemma OneBadTimeIsNotJudged(f: Foreign, e: UnifiedEvent, v: Value)
    requires !v.Str? || v.text == "" || v.text[|v.text| - 1] != 'Z' || f.parseUtc(v.text).None?
    requires e.times.Object? && v in {e.times.body.observedAt, e.times.body.ingestedAt, e.times.body.normalizedAt}
    ensures TimesOrdered(f, e)
  {
  }

  /** The judge is silent exactly on consistent events. */
  lemma SilentIffConsistent(f: Foreign, e: UnifiedEvent)
    ensures SemanticIssues(f, e) == {} <==> Consistent(f, e)
  {
    hide TimesOrdered, NetworkHasEndpoint, IntrusionHasThreat, AuthenticationHasDetails, ActionConsistent,
      SeverityLabelled, UnknownSeverityExplained, OutcomesAgree, PartialExplained, RawIntact, NamespaceIssues,
      NamespacesWellFormed, LabelIssue;
    NoNamespaceIssues(e);
  }

  // ---- the validator ---------------------------------------------------------------------------------

  /** `validate_semantics`: a chain of branches that collect issues. The source sorts and deduplicates its
      list at the end, so issues are collected in a set. */
  method ValidateSemantics(f: Foreign, e: UnifiedEvent) returns (issues: set<Issue>)
    ensures issues == SemanticIssues(f, e)
  {
    hide TimeIssues, CategoryIssues, ActionIssues, SeverityIssues, OutcomeIssues, QualityIssues, NamespaceIssues, RawIssues;
    var times := ValidateTimes(f, e);
    var category := ValidateCategory(e);
    var action := ValidateAction(e);
    var severity := ValidateSeverity(f, e);
    var outcome := ValidateOutcome(e);
    var quality := ValidateQuality(e);
    var namespaces := ValidateNamespaces(e);
    var raw := ValidateRaw(f, e);
    issues := times + category + action + severity + outcome + quality + namespaces + raw;
  }

  method ValidateTimes(f: Foreign, e: UnifiedEvent) returns (issues: set<Issue>)
    ensures issues == TimeIssues(f, e)
  {
    issues := {};
    if e.times.Object? {
      var observed := ParseUtc(f, e.times.body.observedAt);
      var ingested := ParseUtc(f, e.times.body.ingestedAt);
      var normalized := ParseUtc(f, e.times.body.normalizedAt);
      if observed.Some? && ingested.Some? && normalized.Some? {
        if !(observed.value <= ingested.value <= normalized.value) {
          issues := issues + {TIME_ISSUE};
        }
      }
    }
  }

  method ValidateQuality(e: UnifiedEvent) returns (issues: set<Issue>)
    ensures issues == QualityIssues(e)
  {
    issues := {};
    if e.quality.Object? && e.quality.body.status == Str("partial") {
      if !Truthy(e.quality.body.missingFields) && !Truthy(e.quality.body.warnings) {
        issues := issues + {PARTIAL_ISSUE};
      }
    }
  }

  method ValidateRaw(f: Foreign, e: UnifiedEvent) returns (issues: set<Issue>)
    ensures issues == RawIssues(f, e)
  {
    issues := {};
    if e.traceability.Object? && e.traceability.body.rawEvent.Object? {
      var content := e.traceability.body.rawEvent.body.content;
      if content.Str? {
        var actual := f.sha256(f.encodeUtf8(content.text));
        if Str(actual) != e.traceability.body.rawSha256 {
          issues := issues + {RAW_ISSUE};
        }
      }
    }
  }

  method ValidateCategory(e: UnifiedEvent) returns (issues: set<Issue>)
    ensures issues == CategoryIssues(e)
  {
    issues := {};
    var category := if e.meta.Object? then e.meta.body.category else Null;
    if category == Str("network") {
      if !e.source.Object? || !Truthy(e.source.body.ip) {
        issues := issues + {SOURCE_ISSUE};
      }
      if !e.destination.Object? || !Truthy(e.destination.body.ip) {
        issues := issues + {DESTINATION_ISSUE};
      }
    }
    if category == Str("intrusion_detection") && !e.threat.Object? {
      issues := issues + {THREAT_ISSUE};
    }
    if category == Str("authentication") && !e.authentication.Object? {
      issues := issues + {AUTHENTICATION_ISSUE};
    }
  }

  method ValidateAction(e: UnifiedEvent) returns (issues: set<Issue>)
    ensures issues == ActionIssues(e)
  {
    issues := {};
    if e.action.Object? {
      var normalized, outcome := e.action.body.normalized, e.action.body.outcome;
      if normalized.Str? && (normalized.text == "deny" || normalized.text == "block") && outcome == Str("success") {
        issues := issues + {ACTION_ISSUE};
      }
    }
  }

  method ValidateSeverity(f: Foreign, e: UnifiedEvent) returns (issues: set<Issue>)
    ensures issues == SeverityIssues(f, e)
  {
    issues := {};
    if e.severity.Object? {
      var number, name := e.severity.body.normalized, e.severity.body.labelText;
      if number.Int? && 0 <= number.number <= 10 && name != SEVERITY_UNKNOWN {
        var n := number.number;
        var expected: string;
        if n == 0 {
          expected := "informational";
        } else if n <= 3 {
          expected := "low";
        } else if n <= 6 {
          expected := "medium";
        } else if n <= 8 {
          expected := "high";
        } else {
          expected := "critical";
        }
        if name != Str(expected) {
          issues := issues + {
            Issue("$.severity.label", "severity_consistency", "normalized severity " + f.text(Int(n)) + " requires label " + expected)};
        }
      }
      if name == SEVERITY_UNKNOWN {
        var warnings := if e.quality.Object? then e.quality.body.warnings else List([]);
        if !Truthy(warnings) {
          issues := issues + {UNCERTAIN_ISSUE};
        }
      }
    }
  }

  method ValidateOutcome(e: UnifiedEvent) returns (issues: set<Issue>)
    ensures issues == OutcomeIssues(e)
  {
    issues := {};
    if e.authentication.Object? && e.action.Object? {
      var result, outcome := e.authentication.body.result, e.action.body.outcome;
      if result.Str? && (result.text == "success" || result.text == "failure")
         && outcome.Str? && (outcome.text == "success" || outcome.text == "failure")
         && result != outcome {
        issues := issues + {OUTCOME_ISSUE};
      }
    }
  }

  method ValidateNamespaces(e: UnifiedEvent) returns (issues: set<Issue>)
    ensures issues == NamespaceIssues(e)
  {
    issues := {};
    if e.extensions.Object? {
      var names := e.extensions.body.Keys;
      while names != {}
        invariant names <= e.extensions.body.Keys
        invariant issues == set ns | ns in e.extensions.body.Keys - names && !IsNamespace(ns) :: NamespaceIssue(ns)
        decreases names
      {
        var ns :| ns in names;
        ghost var done := e.extensions.body.Keys - names;
        names := names - {ns};
        assert e.extensions.body.Keys - names == done + {ns};
        if !IsNamespace(ns) {
          issues := issues + {
            Issue("$.extensions." + ns, "vendor_namespace", "extension namespace must be lowercase snake_case")};
        }
      }
      assert e.extensions.body.Keys - names == e.extensions.body.Keys;
    }
  }
}
