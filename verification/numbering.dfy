/** Every record of the model has a number of its own, so that text and bytes can name it. */
module Numbering {
  import opened Common
  import opened Contracts
  import opened UnifiedEvents

  // ---- numbers for parts -------------------------------------------------------------------------------

  ghost function Pair(a: nat, b: nat): nat {
    (a + b) * (a + b) + a
  }

  lemma SquareGap(m: nat, n: nat)
    requires m < n
    ensures m * m + m < n * n
  {
    assert n * n >= (m + 1) * n >= (m + 1) * (m + 1);
  }

  lemma PairInjective(a: nat, b: nat, c: nat, d: nat)
    requires Pair(a, b) == Pair(c, d)
    ensures a == c && b == d
  {
    if a + b < c + d {
      SquareGap(a + b, c + d);
    } else if c + d < a + b {
      SquareGap(c + d, a + b);
    }
  }

  ghost function IntCode(n: int): nat {
    if n >= 0 then 2 * n else -2 * n - 1
  }

  ghost function TextCode(s: string): nat {
    if s == "" then 0 else 1 + Pair(s[0] as nat, TextCode(s[1..]))
  }

  lemma {:induction false} TextCodeInjective(a: string, b: string)
    requires TextCode(a) == TextCode(b)
    ensures a == b
  {
    hide Pair;
    if a != "" && b != "" {
      PairInjective(a[0] as nat, TextCode(a[1..]), b[0] as nat, TextCode(b[1..]));
      TextCodeInjective(a[1..], b[1..]);
      assert a == [a[0]] + a[1..] && b == [b[0]] + b[1..];
    }
  }

  // ---- values ------------------------------------------------------------------------------------------

  ghost function ValueCode(v: Value): nat
    decreases v
  {
    match v
    case Null => Pair(0, 0)
    case Bool(b) => Pair(1, if b then 1 else 0)
    case Int(n) => Pair(2, IntCode(n))
    case Float(m, e) => Pair(3, Pair(IntCode(m), IntCode(e)))
    case Str(s) => Pair(4, TextCode(s))
    case List(items) => Pair(5, ItemsCode(v, items))
    case Dict(entries) => Pair(6, EntriesCode(v, entries))
  }

  ghost function ItemsCode(v: Value, items: seq<Value>): nat
    requires forall i :: 0 <= i < |items| ==> items[i] < v
    decreases v, |items|
  {
    if items == [] then 0 else 1 + Pair(ValueCode(items[0]), ItemsCode(v, items[1..]))
  }

  ghost function EntriesCode(v: Value, entries: map<string, Value>): nat
    requires forall k :: k in entries ==> entries[k] < v
    decreases v, |entries|
  {
    if entries == map[] then 0
    else
      var k :| k in entries;
      1 + Pair(TextCode(k), Pair(ValueCode(entries[k]), EntriesCode(v, entries - {k})))
  }

  lemma {:induction false} ValueCodeInjective(a: Value, b: Value)
    requires ValueCode(a) == ValueCode(b)
    ensures a == b
    decreases a
  {
    hide Pair, TextCode;
    KindsAgree(a, b);
    match a
    case Null =>
    case Bool(_) =>
    case Int(_) =>
    case Float(m, e) => PairInjective(IntCode(m), IntCode(e), IntCode(b.mantissa), IntCode(b.exponent));
    case Str(s) => TextCodeInjective(s, b.text);
    case List(items) => ItemsCodeInjective(a, items, b, b.items);
    case Dict(entries) => EntriesCodeInjective(a, entries, b, b.entries);
  }

  ghost function Kind(v: Value): nat {
    match v
    case Null => 0
    case Bool(_) => 1
    case Int(_) => 2
    case Float(_, _) => 3
    case Str(_) => 4
    case List(_) => 5
    case Dict(_) => 6
  }

  ghost function Content(v: Value): nat {
    match v
    case Null => 0
    case Bool(b) => if b then 1 else 0
    case Int(n) => IntCode(n)
    case Float(m, e) => Pair(IntCode(m), IntCode(e))
    case Str(s) => TextCode(s)
    case List(items) => ItemsCode(v, items)
    case Dict(entries) => EntriesCode(v, entries)
  }

  lemma KindsAgree(a: Value, b: Value)
    requires ValueCode(a) == ValueCode(b)
    ensures Kind(a) == Kind(b) && Content(a) == Content(b)
  {
    hide Pair, TextCode, ItemsCode, EntriesCode;
    assert ValueCode(a) == Pair(Kind(a), Content(a)) && ValueCode(b) == Pair(Kind(b), Content(b));
    PairInjective(Kind(a), Content(a), Kind(b), Content(b));
  }

  lemma {:induction false} ItemsCodeInjective(u: Value, a: seq<Value>, v: Value, b: seq<Value>)
    requires forall i :: 0 <= i < |a| ==> a[i] < u
    requires forall i :: 0 <= i < |b| ==> b[i] < v
    requires ItemsCode(u, a) == ItemsCode(v, b)
    ensures a == b
    decreases u, |a|
  {
    hide Pair;
    if a != [] && b != [] {
      PairInjective(ValueCode(a[0]), ItemsCode(u, a[1..]), ValueCode(b[0]), ItemsCode(v, b[1..]));
      ValueCodeInjective(a[0], b[0]);
      ItemsCodeInjective(u, a[1..], v, b[1..]);
      assert a == [a[0]] + a[1..] && b == [b[0]] + b[1..];
    }
  }

  lemma {:induction false} EntriesCodeInjective(u: Value, a: map<string, Value>, v: Value, b: map<string, Value>)
    requires forall k :: k in a ==> a[k] < u
    requires forall k :: k in b ==> b[k] < v
    requires EntriesCode(u, a) == EntriesCode(v, b)
    ensures a == b
    decreases u, |a|
  {
    hide Pair, TextCode, ValueCode;
    if a != map[] && b != map[] {
      var i :| i in a && EntriesCode(u, a) == 1 + Pair(TextCode(i), Pair(ValueCode(a[i]), EntriesCode(u, a - {i})));
      var j :| j in b && EntriesCode(v, b) == 1 + Pair(TextCode(j), Pair(ValueCode(b[j]), EntriesCode(v, b - {j})));
      hide EntriesCode;
      PairInjective(TextCode(i), Pair(ValueCode(a[i]), EntriesCode(u, a - {i})),
                    TextCode(j), Pair(ValueCode(b[j]), EntriesCode(v, b - {j})));
      TextCodeInjective(i, j);
      PairInjective(ValueCode(a[i]), EntriesCode(u, a - {i}), ValueCode(b[j]), EntriesCode(v, b - {j}));
      ValueCodeInjective(a[i], b[j]);
      EntriesCodeInjective(u, a - {i}, v, b - {j});
      PutBack(a, i);
      PutBack(b, j);
    }
  }

  lemma PutBack(m: map<string, Value>, k: string)
    requires k in m
    ensures m == (m - {k})[k := m[k]]
  {
  }

  // ---- records as values -------------------------------------------------------------------------------

  /** A section as a value, given the parts of its body. */
  ghost function Packed<T>(s: Section<T>, parts: T -> seq<Value>): Value {
    match s
    case Absent => Null
    case Malformed => Bool(true)
    case Object(body) => List(parts(body))
  }

  /** A section is known by its value if a body can be built from its parts. */
  lemma PackedInjective<T(!new)>(a: Section<T>, b: Section<T>, parts: T -> seq<Value>, build: seq<Value> -> T)
    requires forall t: T :: build(parts(t)) == t
    requires Packed(a, parts) == Packed(b, parts)
    ensures a == b
  {
    if a.Object? && b.Object? {
      assert build(parts(a.body)) == build(parts(b.body));
    }
  }

  function At(v: seq<Value>, i: nat): Value {
    if i < |v| then v[i] else Null
  }

  function TimesParts(t: Times): seq<Value> { [t.observedAt, t.ingestedAt, t.normalizedAt] }

  function TimesFrom(v: seq<Value>): Times { Times(At(v, 0), At(v, 1), At(v, 2)) }

  function MetaParts(t: EventMeta): seq<Value> { [t.id, t.category, t.eventType, t.name, t.message] }

  function MetaFrom(v: seq<Value>): EventMeta { EventMeta(At(v, 0), At(v, 1), At(v, 2), At(v, 3), At(v, 4)) }

  function ObserverParts(t: Observer): seq<Value> { [t.vendor, t.product, t.observerType, t.hostname, t.softwareVersion] }

  function ObserverFrom(v: seq<Value>): Observer { Observer(At(v, 0), At(v, 1), At(v, 2), At(v, 3), At(v, 4)) }

  function ActionParts(t: Action): seq<Value> { [t.original, t.normalized, t.outcome] }

  function ActionFrom(v: seq<Value>): Action { Action(At(v, 0), At(v, 1), At(v, 2)) }

  function SeverityParts(t: Severity): seq<Value> { [t.original, t.normalized, t.labelText] }

  function SeverityFrom(v: seq<Value>): Severity { Severity(At(v, 0), At(v, 1), At(v, 2)) }

  function EndpointParts(t: Endpoint): seq<Value> { [t.ip, t.port, t.interface] }

  function EndpointFrom(v: seq<Value>): Endpoint { Endpoint(At(v, 0), At(v, 1), At(v, 2)) }

  function ThreatParts(t: Threat): seq<Value> { [t.name, t.confidence, t.signatureId, t.category] }

  function ThreatFrom(v: seq<Value>): Threat { Threat(At(v, 0), At(v, 1), At(v, 2), At(v, 3)) }

  function AuthenticationParts(t: Authentication): seq<Value> { [t.user, t.result] }

  function AuthenticationFrom(v: seq<Value>): Authentication { Authentication(At(v, 0), At(v, 1)) }

  function QualityParts(t: Quality): seq<Value> { [t.status, t.confidence, t.missingFields, t.warnings] }

  function QualityFrom(v: seq<Value>): Quality { Quality(At(v, 0), At(v, 1), At(v, 2), At(v, 3)) }

  function RawTextParts(t: RawText): seq<Value> { [t.content] }

  function RawTextFrom(v: seq<Value>): RawText { RawText(At(v, 0)) }

  ghost function TraceabilityParts(t: Traceability): seq<Value> {
    [t.rawEventId, t.rawSha256, t.sourcePackName, t.sourcePackVersion, t.parserName, t.parserVersion,
     Packed(t.rawEvent, RawTextParts)]
  }

  ghost function TraceabilityFrom(v: seq<Value>): Traceability {
    Traceability(At(v, 0), At(v, 1), At(v, 2), At(v, 3), At(v, 4), At(v, 5), RawSectionFrom(At(v, 6)))
  }

  ghost function RawSectionFrom(v: Value): Section<RawText> {
    match v
    case Null => Absent
    case List(parts) => Object(RawTextFrom(parts))
    case _ => Malformed
  }

  ghost function FieldsValue(s: Section<Fields>): Value {
    match s
    case Absent => Null
    case Malformed => Bool(true)
    case Object(fields) => Dict(fields)
  }

  ghost function EventParts(e: UnifiedEvent): seq<Value> {
    [Packed(e.times, TimesParts), Packed(e.meta, MetaParts), Packed(e.observer, ObserverParts),
     Packed(e.action, ActionParts), Packed(e.severity, SeverityParts), Packed(e.source, EndpointParts),
     Packed(e.destination, EndpointParts), FieldsValue(e.network), Packed(e.threat, ThreatParts),
     Packed(e.authentication, AuthenticationParts), FieldsValue(e.http), Packed(e.quality, QualityParts),
     Packed(e.traceability, (t: Traceability) => TraceabilityParts(t)), FieldsValue(e.extensions)]
  }

  ghost function EventCode(e: UnifiedEvent): nat {
    ValueCode(List(EventParts(e)))
  }

  lemma EventCodeInjective(a: UnifiedEvent, b: UnifiedEvent)
    requires EventCode(a) == EventCode(b)
    ensures a == b
  {
    hide ValueCode;
    ValueCodeInjective(List(EventParts(a)), List(EventParts(b)));
    EventPartsInjective(a, b);
  }

  lemma EventPartsInjective(a: UnifiedEvent, b: UnifiedEvent)
    requires EventParts(a) == EventParts(b)
    ensures a == b
  {
    var x, y := EventParts(a), EventParts(b);
    assert forall i :: 0 <= i < 14 ==> x[i] == y[i];
    PackedInjective(a.times, b.times, TimesParts, TimesFrom);
    PackedInjective(a.meta, b.meta, MetaParts, MetaFrom);
    PackedInjective(a.observer, b.observer, ObserverParts, ObserverFrom);
    PackedInjective(a.action, b.action, ActionParts, ActionFrom);
    PackedInjective(a.severity, b.severity, SeverityParts, SeverityFrom);
    PackedInjective(a.source, b.source, EndpointParts, EndpointFrom);
    PackedInjective(a.destination, b.destination, EndpointParts, EndpointFrom);
    PackedInjective(a.threat, b.threat, ThreatParts, ThreatFrom);
    PackedInjective(a.authentication, b.authentication, AuthenticationParts, AuthenticationFrom);
    PackedInjective(a.quality, b.quality, QualityParts, QualityFrom);
    PackedInjective(a.traceability, b.traceability,
                    (t: Traceability) => TraceabilityParts(t), (v: seq<Value>) => TraceabilityFrom(v));
  }

  ghost function Optional(s: Option<string>): Value {
    match s
    case None => Null
    case Some(text) => Str(text)
  }

  ghost function BytesValue(b: Bytes): Value {
    List(seq(|b|, i requires 0 <= i < |b| => Int(b[i] as int)))
  }

  ghost function TextsValue(s: seq<string>): Value {
    List(seq(|s|, i requires 0 <= i < |s| => Str(s[i])))
  }

  lemma BytesValueInjective(a: Bytes, b: Bytes)
    requires BytesValue(a) == BytesValue(b)
    ensures a == b
  {
    var x, y := BytesValue(a).items, BytesValue(b).items;
    forall i | 0 <= i < |a| ensures a[i] == b[i] {
      assert x[i] == Int(a[i] as int) && y[i] == Int(b[i] as int);
    }
  }

  lemma TextsValueInjective(a: seq<string>, b: seq<string>)
    requires TextsValue(a) == TextsValue(b)
    ensures a == b
  {
    var x, y := TextsValue(a).items, TextsValue(b).items;
    forall i | 0 <= i < |a| ensures a[i] == b[i] {
      assert x[i] == Str(a[i]) && y[i] == Str(b[i]);
    }
  }

  ghost function EnvelopeValue(e: Envelope): Value {
    List([Str(e.eventId), Str(e.rawSha256), BytesValue(e.raw), Int(e.ingestedAt)])
  }

  lemma EnvelopeValueInjective(a: Envelope, b: Envelope)
    requires EnvelopeValue(a) == EnvelopeValue(b)
    ensures a == b
  {
    hide BytesValue;
    var x, y := EnvelopeValue(a).items, EnvelopeValue(b).items;
    assert x[0] == y[0] && x[1] == y[1] && x[2] == y[2] && x[3] == y[3];
    BytesValueInjective(a.raw, b.raw);
  }

  ghost function StatusNumber(s: ParseStatus): int {
    match s
    case Success => 0
    case Partial => 1
    case Failed => 2
    case Unrecognized => 3
  }

  ghost function IsoValue(t: Iso): Value {
    match t
    case Naive => Null
    case Zoned(at) => Int(at)
  }

  ghost function ParsedParts(p: Parsed): seq<Value> {
    [Str(p.eventId), IsoValue(p.parsedAt), Optional(p.vendor), Optional(p.product), Str(p.parserId), Str(p.parserVersion),
     Optional(p.sourcePackId), Optional(p.sourcePackVersion), Int(StatusNumber(p.status)), TextsValue(p.issues),
     Dict(p.extracted), EnvelopeValue(p.rawEvent)]
  }

  ghost function ParsedCode(p: Parsed): nat {
    ValueCode(List(ParsedParts(p)))
  }

  ghost function EnvelopeCode(e: Envelope): nat {
    ValueCode(EnvelopeValue(e))
  }

  lemma ParsedCodeInjective(a: Parsed, b: Parsed)
    requires ParsedCode(a) == ParsedCode(b)
    ensures a == b
  {
    hide ValueCode, TextsValue, EnvelopeValue;
    ValueCodeInjective(List(ParsedParts(a)), List(ParsedParts(b)));
    var x, y := ParsedParts(a), ParsedParts(b);
    assert x[0] == y[0] && x[1] == y[1] && x[2] == y[2] && x[3] == y[3] && x[4] == y[4] && x[5] == y[5];
    assert x[6] == y[6] && x[7] == y[7] && x[8] == y[8] && x[9] == y[9] && x[10] == y[10] && x[11] == y[11];
    TextsValueInjective(a.issues, b.issues);
    EnvelopeValueInjective(a.rawEvent, b.rawEvent);
  }
}
