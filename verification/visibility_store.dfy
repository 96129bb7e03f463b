/** The in-memory visibility store: indexes against a scan, search against its matches, and aggregation
    against counting. */
module VisibilityStore {
  import opened Common
  import opened Contracts
  import opened UnifiedEvents
  import opened SemanticValidation
  import opened Normalizer

  // ---- reading leaves ----------------------------------------------------------------------------------

  /** `event.get(section, {}).get(leaf, default)` used as text; `None` stands for an exception. */
  function Text<T>(s: Section<T>, leaf: T -> Value, default: string): Option<string> {
    match s
    case Absent => Some(default)
    case Malformed => None
    case Object(body) =>
      match leaf(body)
      case Null => Some(default)
      case Str(t) => Some(t)
      case _ => None
  }

  function HashOf(e: UnifiedEvent): Option<string> {
    Text(e.traceability, (t: Traceability) => t.rawSha256, "")
  }

  // ---- keys --------------------------------------------------------------------------------------------

  function IdLeaf(e: UnifiedEvent): Value {
    if e.meta.Object? then e.meta.body.id else Null
  }

  function HashLeaf(e: UnifiedEvent): Value {
    if e.traceability.Object? then e.traceability.body.rawSha256 else Null
  }

  /** Both sections can be read; reading one that is not an object raises. */
  predicate Readable(e: UnifiedEvent) {
    !e.meta.Malformed? && !e.traceability.Malformed?
  }

  /** A leaf that cannot be a dictionary key, and raises when it is used as one. */
  predicate BadKey(v: Value) {
    Truthy(v) && (v.List? || v.Dict?)
  }

  function Pow10(n: nat): nat {
    if n == 0 then 1 else 10 * Pow10(n - 1)
  }

  /** The key of a dictionary: numbers that are equal are one key, whatever their type. */
  function DictKey(v: Value): Value {
    match v
    case Bool(b) => Int(if b then 1 else 0)
    case Float(m, e) => if e >= 0 then Int(m * Pow10(e)) else v
    case _ => v
  }

  /** The whole number a value stands for, if it is one. */
  predicate IsWhole(v: Value, n: int) {
    match v
    case Bool(b) => n == if b then 1 else 0
    case Int(i) => n == i
    case Float(m, e) => e >= 0 && n == m * Pow10(e)
    case _ => false
  }

  /** Two keys are one exactly when they are the same value or stand for the same whole number. */
  lemma DictKeyIff(a: Value, b: Value)
    ensures DictKey(a) == DictKey(b) <==> a == b || exists n :: IsWhole(a, n) && IsWhole(b, n)
  {
    hide Pow10;
    if DictKey(a) == DictKey(b) && a != b {
      assert DictKey(a).Int? && IsWhole(a, DictKey(a).number) && IsWhole(b, DictKey(a).number);
    }
  }

  function KeyOfLeaf(v: Value): Option<Value> {
    if Truthy(v) && !BadKey(v) then Some(DictKey(v)) else None
  }

  /** The key under which an event is indexed by its id, if it is. */
  function IdKey(e: UnifiedEvent): Option<Value> {
    KeyOfLeaf(IdLeaf(e))
  }

  /** The same for its raw hash, which is not reached when the id raises. */
  function HashKey(e: UnifiedEvent): Option<Value> {
    if BadKey(IdLeaf(e)) then None else KeyOfLeaf(HashLeaf(e))
  }

  /** An event that is added without an exception. */
  predicate Addable(e: UnifiedEvent) {
    Readable(e) && !BadKey(IdLeaf(e)) && !BadKey(HashLeaf(e))
  }

  // ---- lookups -----------------------------------------------------------------------------------------

  type KeyFunction = UnifiedEvent -> Option<Value>

  /** A scan of the list for the last event with a key. */
  function Last(events: seq<UnifiedEvent>, key: KeyFunction, k: Value): Option<UnifiedEvent> {
    if events == [] then None
    else if key(events[|events| - 1]) == Some(k) then Some(events[|events| - 1])
    else Last(events[..|events| - 1], key, k)
  }

  predicate LastAt(events: seq<UnifiedEvent>, key: KeyFunction, k: Value, i: int) {
    && 0 <= i < |events| && key(events[i]) == Some(k)
    && forall j :: i < j < |events| ==> key(events[j]) != Some(k)
  }

  /** What a lookup answers: the event at the last position that has the key, if any has it. */
  lemma {:induction false} LookupIsLast(events: seq<UnifiedEvent>, key: KeyFunction, k: Value)
    ensures Last(events, key, k).Some? <==> exists i :: LastAt(events, key, k, i)
    ensures forall i :: LastAt(events, key, k, i) ==> Last(events, key, k) == Some(events[i])
  {
    if events != [] {
      var n := |events| - 1;
      var front := events[..n];
      LookupIsLast(front, key, k);
      if key(events[n]) == Some(k) {
        assert LastAt(events, key, k, n);
      } else {
        forall i ensures LastAt(events, key, k, i) <==> LastAt(front, key, k, i) {
          if LastAt(front, key, k, i) {
            forall j | i < j < |events| ensures key(events[j]) != Some(k) {
              assert j < n ==> front[j] == events[j];
            }
          }
          if LastAt(events, key, k, i) {
            forall j | i < j < |front| ensures key(front[j]) != Some(k) {
              assert front[j] == events[j];
            }
          }
        }
      }
    }
  }

  ghost predicate Agrees(index: map<Value, UnifiedEvent>, events: seq<UnifiedEvent>, key: KeyFunction) {
    forall k: Value :: (if k in index then Some(index[k]) else None) == Last(events, key, k)
  }

  function Indexed(index: map<Value, UnifiedEvent>, k: Option<Value>, e: UnifiedEvent): map<Value, UnifiedEvent> {
    if k.Some? then index[k.value := e] else index
  }

  lemma AppendAgrees(index: map<Value, UnifiedEvent>, events: seq<UnifiedEvent>, key: KeyFunction, e: UnifiedEvent)
    requires Agrees(index, events, key)
    ensures Agrees(Indexed(index, key(e), e), events + [e], key)
  {
    assert (events + [e])[..|events|] == events;
  }

  lemma {:induction false} EmptyKeyIsNowhere(events: seq<UnifiedEvent>)
    ensures Last(events, IdKey, Str("")).None? && Last(events, HashKey, Str("")).None?
  {
    if events != [] {
      EmptyKeyIsNowhere(events[..|events| - 1]);
    }
  }

  /** For events whose ids and hashes are text, as the normalizer writes them, the hash key is the raw hash
      itself and nothing raises. */
  lemma TextKeys(e: UnifiedEvent)
    requires Readable(e) && TextOrMissing(IdLeaf(e)) && TextOrMissing(HashLeaf(e))
    ensures Addable(e)
    ensures IdKey(e) == (if Truthy(IdLeaf(e)) then Some(IdLeaf(e)) else None)
    ensures HashKey(e) == (if Truthy(HashLeaf(e)) then Some(HashLeaf(e)) else None)
  {
  }

  predicate TextOrMissing(v: Value) {
    v == Null || v.Str?
  }

  /** The positions at which a raw hash is last found by looking at the events themselves. */
  predicate LastWithHash(events: seq<UnifiedEvent>, hash: string, i: int) {
    && 0 <= i < |events| && HashLeaf(events[i]) == Str(hash)
    && forall j :: i < j < |events| ==> HashLeaf(events[j]) != Str(hash)
  }

  predicate LastWithId(events: seq<UnifiedEvent>, id: string, i: int) {
    && 0 <= i < |events| && IdLeaf(events[i]) == Str(id)
    && forall j :: i < j < |events| ==> IdLeaf(events[j]) != Str(id)
  }

  /** Where ids and hashes are text, as the normalizer writes them, a lookup finds the last event that carries
      the id or the hash, and nothing if none does. */
  lemma TextLookup(events: seq<UnifiedEvent>, text: string)
    requires text != ""
    requires forall i :: 0 <= i < |events| ==>
               Readable(events[i]) && TextOrMissing(IdLeaf(events[i])) && TextOrMissing(HashLeaf(events[i]))
    ensures forall i :: LastWithId(events, text, i) ==> Last(events, IdKey, Str(text)) == Some(events[i])
    ensures forall i :: LastWithHash(events, text, i) ==> Last(events, HashKey, Str(text)) == Some(events[i])
    ensures Last(events, IdKey, Str(text)).Some? <==> exists i :: LastWithId(events, text, i)
    ensures Last(events, HashKey, Str(text)).Some? <==> exists i :: LastWithHash(events, text, i)
  {
    hide IdKey, HashKey, Last, Readable, IdLeaf, HashLeaf;
    forall i | 0 <= i < |events|
      ensures IdKey(events[i]) == Some(Str(text)) <==> IdLeaf(events[i]) == Str(text)
      ensures HashKey(events[i]) == Some(Str(text)) <==> HashLeaf(events[i]) == Str(text)
    {
      TextKeys(events[i]);
    }
    LookupIsLast(events, IdKey, Str(text));
    LookupIsLast(events, HashKey, Str(text));
    forall i ensures LastWithId(events, text, i) <==> LastAt(events, IdKey, Str(text), i)
      ensures LastWithHash(events, text, i) <==> LastAt(events, HashKey, Str(text), i)
    {
    }
  }

  // ---- search ------------------------------------------------------------------------------------------

  /** An empty text stands for a filter that is not given. */
  datatype Query = Query(
    query: string,
    vendor: string,
    category: string,
    action: string,
    severity: string,
    qualityStatus: string,
    start: Option<int>,
    end: Option<int>,
    limit: int)

  datatype Verdict = Hit | Miss | Raises

  /** Library functions the store calls. */
  datatype Library = Library(
    foreign: Foreign,
    timestamp: string -> Option<int>,
    capitalize: string -> string,
    percent: (nat, nat) -> real)  // `round(part / whole * 100, 1)` in binary floats

  /** A percentage of binary floats, rounded to one decimal, is off by half a decimal and a rounding error. */
  ghost predicate Rounds(l: Library) {
    forall part: nat, whole: nat :: part <= whole && whole > 0 ==>
      Exact(part, whole) - 0.051 <= l.percent(part, whole) <= Exact(part, whole) + 0.051
  }

  function Exact(part: nat, whole: nat): real
    requires whole > 0
  {
    part as real / whole as real * 100.0
  }

  function VendorLeaf(e: UnifiedEvent): Option<string> {
    Text(e.observer, (o: Observer) => o.vendor, "")
  }

  function CategoryLeaf(e: UnifiedEvent): Option<string> {
    Text(e.meta, (m: EventMeta) => m.category, "")
  }

  function ActionLeaf(e: UnifiedEvent): Option<string> {
    Text(e.action, (a: Action) => a.normalized, "")
  }

  function SeverityLeaf(e: UnifiedEvent): Option<string> {
    Text(e.severity, (s: Severity) => s.labelText, "")
  }

  function StatusLeaf(e: UnifiedEvent): Option<string> {
    Text(e.quality, (x: Quality) => x.status, "")
  }

  function MessageLeaf(e: UnifiedEvent): Option<string> {
    Text(e.meta, (m: EventMeta) => m.message, "")
  }

  function NameLeaf(e: UnifiedEvent): Option<string> {
    Text(e.meta, (m: EventMeta) => m.name, "")
  }

  function SourceLeaf(e: UnifiedEvent): Option<string> {
    Text(e.source, (p: Endpoint) => p.ip, "")
  }

  function DestinationLeaf(e: UnifiedEvent): Option<string> {
    Text(e.destination, (p: Endpoint) => p.ip, "")
  }

  /** A filter is not given, asks for everything, or equals the leaf. */
  predicate Passes(l: Library, filter: string, leaf: string) {
    filter == "" || l.foreign.lower(filter) == "all" || l.foreign.lower(filter) == l.foreign.lower(leaf)
  }

  function Filtered(l: Library, filter: string, leaf: Option<string>): Verdict {
    if leaf.None? then Raises else if Passes(l, filter, leaf.value) then Hit else Miss
  }

  /** The time window applies to events whose observation time is text. */
  function InWindow(l: Library, q: Query, e: UnifiedEvent): Verdict {
    match e.times
    case Absent => Hit
    case Malformed => Raises
    case Object(times) =>
      if (q.start.None? && q.end.None?) || !times.observedAt.Str? then Hit
      else
        var at := l.timestamp(times.observedAt.text);
        if at.None? then Raises
        else if q.start.Some? && at.value < q.start.value then Miss
        else if q.end.Some? && at.value >= q.end.value then Miss
        else Hit
  }

  predicate Contains(text: string, part: string) {
    exists i :: 0 <= i <= |text| && part <= text[i..]
  }

  function FreeText(l: Library, q: Query, e: UnifiedEvent): Verdict {
    if q.query == "" then Hit
    else
      var part := l.foreign.lower(q.query);
      var message := MessageLeaf(e);
      var name := NameLeaf(e);
      var source := SourceLeaf(e);
      var destination := DestinationLeaf(e);
      var hash := HashOf(e);
      var vendor := VendorLeaf(e);
      if message.None? || name.None? || source.None? || destination.None? || hash.None? || vendor.None? then Raises
      else if Contains(l.foreign.lower(message.value), part) || Contains(l.foreign.lower(name.value), part)
              || Contains(source.value, part) || Contains(destination.value, part) || Contains(hash.value, part)
              || Contains(l.foreign.lower(vendor.value), part) then Hit
      else Miss
  }

  /** The filters in the order in which the source applies them; the first that does not pass decides. */
  function Filters(l: Library, q: Query, e: UnifiedEvent): seq<Verdict> {
    [Filtered(l, q.vendor, VendorLeaf(e)),
     Filtered(l, q.category, CategoryLeaf(e)),
     Filtered(l, q.action, ActionLeaf(e)),
     InWindow(l, q, e),
     Filtered(l, q.severity, SeverityLeaf(e)),
     Filtered(l, q.qualityStatus, StatusLeaf(e)),
     FreeText(l, q, e)]
  }

  function First(verdicts: seq<Verdict>): Verdict {
    if verdicts == [] then Hit else if verdicts[0] != Hit then verdicts[0] else First(verdicts[1..])
  }

  function Judge(l: Library, q: Query, e: UnifiedEvent): Verdict {
    First(Filters(l, q, e))
  }

  /** An event matches when it passes every filter. */
  lemma HitIffAllPass(l: Library, q: Query, e: UnifiedEvent)
    ensures Judge(l, q, e) == Hit <==> forall i :: 0 <= i < |Filters(l, q, e)| ==> Filters(l, q, e)[i] == Hit
  {
    FirstHit(Filters(l, q, e));
    hide Filters;
  }

  lemma {:induction false} FirstHit(verdicts: seq<Verdict>)
    ensures First(verdicts) == Hit <==> forall i :: 0 <= i < |verdicts| ==> verdicts[i] == Hit
  {
    if verdicts != [] {
      FirstHit(verdicts[1..]);
      assert forall i :: 1 <= i < |verdicts| ==> verdicts[i] == verdicts[1..][i - 1];
    }
  }

  /** The matches, newest first, down to the first event on which a filter raises. */
  function Hits(l: Library, q: Query, events: seq<UnifiedEvent>): seq<UnifiedEvent> {
    if events == [] then []
    else
      var e, older := events[|events| - 1], events[..|events| - 1];
      match Judge(l, q, e)
      case Raises => []
      case Miss => Hits(l, q, older)
      case Hit => [e] + Hits(l, q, older)
  }

  predicate Fails(l: Library, q: Query, events: seq<UnifiedEvent>) {
    exists i :: 0 <= i < |events| && Judge(l, q, events[i]) == Raises
  }

  /** The number of events a search stops at: a limit below one still returns one. */
  function Cap(limit: int): nat {
    Max(limit, 1)
  }

  /** The first matches of the reversed list; an exception if a filter raises before enough are found. */
  function Found(l: Library, q: Query, events: seq<UnifiedEvent>): Option<seq<UnifiedEvent>> {
    var hits := Hits(l, q, events);
    if |hits| >= Cap(q.limit) then Some(hits[..Cap(q.limit)])
    else if Fails(l, q, events) then None
    else Some(hits)
  }

  /** When nothing raises, the hits are exactly the matching events, each as often as it is stored. */
  lemma {:induction false} HitsAreTheMatches(l: Library, q: Query, events: seq<UnifiedEvent>, e: UnifiedEvent)
    requires !Fails(l, q, events)
    ensures multiset(Hits(l, q, events))[e] == if Judge(l, q, e) == Hit then multiset(events)[e] else 0
  {
    hide Judge;
    if events != [] {
      var n := |events| - 1;
      var older := events[..n];
      assert forall i :: 0 <= i < n ==> older[i] == events[i];
      HitsAreTheMatches(l, q, older, e);
      assert events == older + [events[n]];
      assert Judge(l, q, events[n]) != Raises;
    }
  }

  /** Newer events come first. */
  lemma {:induction false} HitsAreNewestFirst(l: Library, q: Query, older: seq<UnifiedEvent>, newer: seq<UnifiedEvent>)
    requires !Fails(l, q, newer)
    ensures Hits(l, q, older + newer) == Hits(l, q, newer) + Hits(l, q, older)
  {
    hide Judge;
    if newer == [] {
      assert older + newer == older;
    } else {
      var n := |newer| - 1;
      assert forall i :: 0 <= i < n ==> newer[..n][i] == newer[i];
      HitsAreNewestFirst(l, q, older, newer[..n]);
      assert (older + newer)[..|older| + n] == older + newer[..n];
      assert Judge(l, q, newer[n]) != Raises;
    }
  }

  // ---- what a search finds -----------------------------------------------------------------------------

  /** The leaves a search looks at, as text; a missing one is empty. */
  datatype Leaves = Leaves(
    vendor: string,
    category: string,
    action: string,
    severity: string,
    status: string,
    message: string,
    name: string,
    source: string,
    destination: string,
    hash: string)

  predicate IsText(v: Value, t: string) {
    v == Str(t) || (v == Null && t == "")
  }

  predicate HasEndpoint(s: Section<Endpoint>, ip: string) {
    (s.Object? && IsText(s.body.ip, ip)) || (s.Absent? && ip == "")
  }

  predicate HasLeaves(e: UnifiedEvent, x: Leaves) {
    && ((e.observer.Object? && IsText(e.observer.body.vendor, x.vendor)) || (e.observer.Absent? && x.vendor == ""))
    && ((e.meta.Object? && IsText(e.meta.body.category, x.category) && IsText(e.meta.body.message, x.message)
         && IsText(e.meta.body.name, x.name))
        || (e.meta.Absent? && x.category == x.message == x.name == ""))
    && ((e.action.Object? && IsText(e.action.body.normalized, x.action)) || (e.action.Absent? && x.action == ""))
    && ((e.severity.Object? && IsText(e.severity.body.labelText, x.severity)) || (e.severity.Absent? && x.severity == ""))
    && ((e.quality.Object? && IsText(e.quality.body.status, x.status)) || (e.quality.Absent? && x.status == ""))
    && HasEndpoint(e.source, x.source) && HasEndpoint(e.destination, x.destination)
    && ((e.traceability.Object? && IsText(e.traceability.body.rawSha256, x.hash)) || (e.traceability.Absent? && x.hash == ""))
  }

  /** The time an event was observed at, if it is text. */
  predicate ObservedAt(l: Library, e: UnifiedEvent, at: Option<int>) {
    || (e.times.Absent? && at == None)
    || (e.times.Object? && !e.times.body.observedAt.Str? && at == None)
    || (e.times.Object? && e.times.body.observedAt.Str? && at.Some? && l.timestamp(e.times.body.observedAt.text) == at)
  }

  /** What a query asks of one leaf. */
  predicate Asks(l: Library, wanted: string, leaf: string) {
    wanted != "" && l.foreign.lower(wanted) != "all" ==> l.foreign.lower(leaf) == l.foreign.lower(wanted)
  }

  predicate OccursAt(part: string, text: string, i: nat) {
    i + |part| <= |text| && text[i..i + |part|] == part
  }

  predicate Occurs(part: string, text: string) {
    exists i: nat :: i <= |text| && OccursAt(part, text, i)
  }

  /** What a query asks of an event: each named filter of its leaf, the window of its time, and the free text of
      any of six leaves. */
  predicate Wanted(l: Library, q: Query, x: Leaves, at: Option<int>) {
    && Asks(l, q.vendor, x.vendor) && Asks(l, q.category, x.category) && Asks(l, q.action, x.action)
    && Asks(l, q.severity, x.severity) && Asks(l, q.qualityStatus, x.status)
    && Within(q, at) && Mentions(l, q.query, x)
  }

  lemma ContainsIffOccurs(text: string, part: string)
    ensures Contains(text, part) <==> Occurs(part, text)
  {
    if Contains(text, part) {
      var i :| 0 <= i <= |text| && part <= text[i..];
      assert text[i..][..|part|] == text[i..i + |part|];
      assert OccursAt(part, text, i);
    }
    if Occurs(part, text) {
      var i: nat :| i <= |text| && OccursAt(part, text, i);
      assert text[i..][..|part|] == text[i..i + |part|];
    }
  }

  lemma LeavesAreRead(e: UnifiedEvent, x: Leaves)
    requires HasLeaves(e, x)
    ensures VendorLeaf(e) == Some(x.vendor) && CategoryLeaf(e) == Some(x.category) && ActionLeaf(e) == Some(x.action)
    ensures SeverityLeaf(e) == Some(x.severity) && StatusLeaf(e) == Some(x.status) && MessageLeaf(e) == Some(x.message)
    ensures NameLeaf(e) == Some(x.name) && SourceLeaf(e) == Some(x.source) && DestinationLeaf(e) == Some(x.destination)
    ensures HashOf(e) == Some(x.hash)
  {
  }

  /** The free text is looked for in six leaves, of which three are read without capitals. */
  predicate Mentions(l: Library, wanted: string, x: Leaves) {
    wanted != "" ==>
      var part := l.foreign.lower(wanted);
      || Occurs(part, l.foreign.lower(x.message)) || Occurs(part, l.foreign.lower(x.name))
      || Occurs(part, x.source) || Occurs(part, x.destination) || Occurs(part, x.hash)
      || Occurs(part, l.foreign.lower(x.vendor))
  }

  lemma FreeTextIff(l: Library, q: Query, e: UnifiedEvent, x: Leaves)
    requires HasLeaves(e, x)
    ensures FreeText(l, q, e) == if Mentions(l, q.query, x) then Hit else Miss
  {
    hide Contains, Occurs, HasLeaves, VendorLeaf, MessageLeaf, NameLeaf, SourceLeaf, DestinationLeaf, HashOf;
    LeavesAreRead(e, x);
    var part := l.foreign.lower(q.query);
    ContainsIffOccurs(l.foreign.lower(x.message), part);
    ContainsIffOccurs(l.foreign.lower(x.name), part);
    ContainsIffOccurs(x.source, part);
    ContainsIffOccurs(x.destination, part);
    ContainsIffOccurs(x.hash, part);
    ContainsIffOccurs(l.foreign.lower(x.vendor), part);
  }

  /** The window holds its start and not its end; an event without a time is in every window. */
  predicate Within(q: Query, at: Option<int>) {
    && (at.Some? && q.start.Some? ==> q.start.value <= at.value)
    && (at.Some? && q.end.Some? ==> at.value < q.end.value)
  }

  lemma WindowIff(l: Library, q: Query, e: UnifiedEvent, at: Option<int>)
    requires ObservedAt(l, e, at)
    ensures InWindow(l, q, e) == if Within(q, at) then Hit else Miss
  {
  }

  lemma FilterIff(l: Library, wanted: string, leaf: string)
    ensures Filtered(l, wanted, Some(leaf)) == if Asks(l, wanted, leaf) then Hit else Miss
  {
  }

  /** An event whose leaves are text matches exactly when it meets what the query asks, and never raises. */
  lemma JudgedIff(l: Library, q: Query, e: UnifiedEvent, x: Leaves, at: Option<int>)
    requires HasLeaves(e, x) && ObservedAt(l, e, at)
    ensures Judge(l, q, e) != Raises && (Judge(l, q, e) == Hit <==> Wanted(l, q, x, at))
  {
    hide Occurs, FreeText, First, Filtered, InWindow, Judge, ObservedAt, HasLeaves, Within, Asks, Mentions, VendorLeaf,
      CategoryLeaf, ActionLeaf, SeverityLeaf, StatusLeaf;
    LeavesAreRead(e, x);
    FreeTextIff(l, q, e, x);
    WindowIff(l, q, e, at);
    FilterIff(l, q.vendor, x.vendor);
    FilterIff(l, q.category, x.category);
    FilterIff(l, q.action, x.action);
    FilterIff(l, q.severity, x.severity);
    FilterIff(l, q.qualityStatus, x.status);
    FiltersInOrder(l, q, e);
  }

  /** What a search answers over events whose leaves are text: some of the events that meet what the query asks,
      as many as the limit allows, and all of them, each as often as it is stored, if that is not reached. */
  lemma FoundIs(l: Library, q: Query, events: seq<UnifiedEvent>, x: UnifiedEvent -> Leaves, at: UnifiedEvent -> Option<int>)
    requires forall e :: e in events ==> HasLeaves(e, x(e)) && ObservedAt(l, e, at(e))
    ensures var r := Found(l, q, events);
            && r.Some? && |r.value| <= Max(q.limit, 1)
            && (forall e :: e in r.value ==> e in events && Wanted(l, q, x(e), at(e)))
            && (|r.value| < Max(q.limit, 1) ==>
                  forall e :: multiset(r.value)[e] == if e in events && Wanted(l, q, x(e), at(e)) then multiset(events)[e] else 0)
  {
    hide Judge, Wanted, HasLeaves, ObservedAt, Hits;
    forall e | e in events ensures Judge(l, q, e) != Raises && (Judge(l, q, e) == Hit <==> Wanted(l, q, x(e), at(e))) {
      JudgedIff(l, q, e, x(e), at(e));
    }
    assert !Fails(l, q, events);
    var hits := Hits(l, q, events);
    forall e
      ensures multiset(hits)[e] == if e in events && Wanted(l, q, x(e), at(e)) then multiset(events)[e] else 0
      ensures e in hits ==> e in events && Wanted(l, q, x(e), at(e))
    {
      HitsAreTheMatches(l, q, events, e);
      assert e in hits <==> multiset(hits)[e] > 0;
      assert e in events <==> multiset(events)[e] > 0;
    }
  }

  /** An event observed at 15 is found between 10 and 20 and not from 20 on. */
  lemma WindowIsHalfOpen(l: Library, e: UnifiedEvent)
    requires l.timestamp("t") == Some(15) && e == BLANK.(times := Object(Times(Str("t"), Null, Null)))
    ensures Found(l, Query("", "", "", "", "", "", Some(10), Some(20), 100), [e]) == Some([e])
    ensures Found(l, Query("", "", "", "", "", "", Some(20), None, 100), [e]) == Some([])
  {
    var inside := Query("", "", "", "", "", "", Some(10), Some(20), 100);
    var after := Query("", "", "", "", "", "", Some(20), None, 100);
    var x := Leaves("", "", "", "", "", "", "", "", "", "");
    JudgedIff(l, inside, e, x, Some(15));
    JudgedIff(l, after, e, x, Some(15));
    hide Judge;
    assert !Within(after, Some(15)) && Within(inside, Some(15));
    assert Judge(l, inside, e) == Hit && Judge(l, after, e) == Miss;
    assert [e][..0] == [] && [e] + [] == [e];
    assert Hits(l, inside, []) == Hits(l, after, []) == [];
    assert Hits(l, inside, [e]) == [e];
    assert Hits(l, after, [e]) == [];
    assert !Fails(l, after, [e]);
  }

  const BLANK := UnifiedEvent(
    Absent, Absent, Absent, Absent, Absent, Absent, Absent, Absent, Absent, Absent, Absent, Absent, Absent, Absent)

  /** A search with a limit below one returns the newest match if there is one. */
  lemma LimitBelowOne(l: Library, q: Query, events: seq<UnifiedEvent>)
    requires q.limit < 1 && Hits(l, q, events) != []
    ensures Found(l, q, events) == Some([Hits(l, q, events)[0]])
  {
  }

  /** A search of one event without any filter and with limit 0 returns that event. */
  lemma LimitZeroReturnsOne(l: Library)
    ensures Found(l, Query("", "", "", "", "", "", None, None, 0), [BLANK]) == Some([BLANK])
  {
    var q := Query("", "", "", "", "", "", None, None, 0);
    HitIffAllPass(l, q, BLANK);
    hide Judge;
    assert [BLANK][..0] == [];
    assert Hits(l, q, [BLANK]) == [BLANK] + [];
    LimitBelowOne(l, q, [BLANK]);
  }

  // ---- aggregation -------------------------------------------------------------------------------------

  type Counts = map<string, nat>

  function Bump(m: Counts, k: string): Counts {
    m[k := (if k in m then m[k] else 0) + 1]
  }

  /** Counters started at `m` after one pass over the events. */
  function Tally(m: Counts, events: seq<UnifiedEvent>, key: UnifiedEvent -> string): Counts {
    if events == [] then m else Bump(Tally(m, events[..|events| - 1], key), key(events[|events| - 1]))
  }

  function Count(events: seq<UnifiedEvent>, key: UnifiedEvent -> string, k: string): nat {
    if events == [] then 0
    else Count(events[..|events| - 1], key, k) + (if key(events[|events| - 1]) == k then 1 else 0)
  }

  ghost function Total(m: Counts): nat {
    if m == map[] then 0
    else
      var k :| k in m;
      m[k] + Total(m - {k})
  }

  lemma {:induction false} TotalWithout(m: Counts, k: string)
    requires k in m
    ensures Total(m) == m[k] + Total(m - {k})
    decreases |m|
  {
    var x :| x in m && Total(m) == m[x] + Total(m - {x});
    if x != k {
      TotalWithout(m - {x}, k);
      TotalWithout(m - {k}, x);
      assert m - {x} - {k} == m - {k} - {x};
    }
  }

  lemma BumpAddsOne(m: Counts, k: string)
    ensures Total(Bump(m, k)) == Total(m) + 1
  {
    var m' := Bump(m, k);
    TotalWithout(m', k);
    assert m' - {k} == m - {k};
    if k in m {
      TotalWithout(m, k);
    } else {
      assert m - {k} == m;
    }
  }

  /** Each bucket counts its events, on top of where it started, and the buckets add up. */
  lemma {:induction false} TallyCounts(m: Counts, events: seq<UnifiedEvent>, key: UnifiedEvent -> string)
    ensures var t := Tally(m, events, key);
            && Total(t) == Total(m) + |events|
            && (forall k :: k in t <==> k in m || Count(events, key, k) > 0)
            && (forall k :: k in t ==> t[k] == (if k in m then m[k] else 0) + Count(events, key, k))
  {
    hide Total;
    if events != [] {
      var front, last := events[..|events| - 1], key(events[|events| - 1]);
      TallyCounts(m, front, key);
      BumpAddsOne(Tally(m, front, key), last);
    }
  }

  lemma {:induction false} TotalOfZeros(m: Counts)
    requires forall k :: k in m ==> m[k] == 0
    ensures Total(m) == 0
    decreases |m|
  {
    if m != map[] {
      var k :| k in m;
      TotalWithout(m, k);
      TotalOfZeros(m - {k});
    }
  }

  function TextOf(t: Option<string>): string {
    t.GetOr("")
  }

  function VendorText(e: UnifiedEvent): Option<string> {
    Text(e.observer, (o: Observer) => o.vendor, "unknown")
  }

  function ProductText(e: UnifiedEvent): Option<string> {
    Text(e.observer, (o: Observer) => o.product, "unknown")
  }

  function ActionText(e: UnifiedEvent): Option<string> {
    Text(e.action, (a: Action) => a.normalized, "other")
  }

  function SeverityText(e: UnifiedEvent): Option<string> {
    Text(e.severity, (s: Severity) => s.labelText, "unknown")
  }

  function QualityText(e: UnifiedEvent): Option<string> {
    Text(e.quality, (q: Quality) => q.status, "unknown")
  }

  predicate Countable(e: UnifiedEvent) {
    VendorText(e).Some? && ProductText(e).Some? && ActionText(e).Some? && SeverityText(e).Some? && QualityText(e).Some?
  }

  function SourceKey(l: Library, e: UnifiedEvent): string {
    l.capitalize(TextOf(VendorText(e))) + " " + l.foreign.upper(TextOf(ProductText(e)))
  }

  function ActionKey(e: UnifiedEvent): string {
    var act := TextOf(ActionText(e));
    if act in {"allow", "connect", "authenticate"} then "allow"
    else if act in {"deny", "block"} then "deny"
    else if act == "detect" then "detect"
    else "other"
  }

  function SeverityKey(e: UnifiedEvent): string {
    TextOf(SeverityText(e))
  }

  function QualityKey(e: UnifiedEvent): string {
    TextOf(QualityText(e))
  }

  /** The bucket of an event: allowed, denied and detected by its action, and other for any other action or none. */
  lemma ActionKeyIs(e: UnifiedEvent, act: string)
    requires (e.action.Object? && e.action.body.normalized == Str(act)) || (act == "other" && e.action.Absent?)
    ensures ActionKey(e) == "allow" <==> act in {"allow", "connect", "authenticate"}
    ensures ActionKey(e) == "deny" <==> act in {"deny", "block"}
    ensures ActionKey(e) == "detect" <==> act == "detect"
    ensures ActionKey(e) in {"allow", "deny", "detect", "other"}
  {
  }

  /** The other buckets are the severity's label, the status, and the source's name and product; a missing leaf is
      unknown. */
  lemma KeysAre(l: Library, e: UnifiedEvent)
    ensures e.severity.Object? && e.severity.body.labelText.Str? ==> SeverityKey(e) == e.severity.body.labelText.text
    ensures e.severity.Absent? ==> SeverityKey(e) == "unknown"
    ensures e.quality.Object? && e.quality.body.status.Str? ==> QualityKey(e) == e.quality.body.status.text
    ensures e.quality.Absent? ==> QualityKey(e) == "unknown"
    ensures e.observer.Object? && e.observer.body.vendor.Str? && e.observer.body.product.Str? ==>
              SourceKey(l, e) == l.capitalize(e.observer.body.vendor.text) + " " + l.foreign.upper(e.observer.body.product.text)
    ensures e.observer.Absent? ==> SourceKey(l, e) == l.capitalize("unknown") + " " + l.foreign.upper("unknown")
  {
    hide ActionKey;
  }

  const ACTIONS: Counts := map["allow" := 0, "deny" := 0, "detect" := 0, "other" := 0]
  const SEVERITIES: Counts :=
    map["critical" := 0, "high" := 0, "medium" := 0, "low" := 0, "informational" := 0, "unknown" := 0]
  const QUALITIES: Counts := map["valid" := 0, "partial" := 0, "invalid" := 0, "unknown" := 0]

  datatype Aggregations = Aggregations(
    total: nat,
    sources: Counts,
    actions: Counts,
    allowPercent: real,
    denyPercent: real,
    severities: Counts,
    quality: Counts)

  function BucketOf(m: Counts, k: string): nat {
    if k in m then m[k] else 0
  }

  function Percent(l: Library, part: nat, whole: nat): real {
    if whole > 0 then l.percent(part, whole) else 0.0
  }

  predicate AllCountable(events: seq<UnifiedEvent>) {
    forall i :: 0 <= i < |events| ==> Countable(events[i])
  }

  /** Every bucket is the number of events that belong to it, every event belongs to one bucket of each
      distribution, and the percentages share out the decided events. */
  ghost predicate CountsEvents(l: Library, events: seq<UnifiedEvent>, r: Aggregations) {
    && r.total == |events|
    && Total(r.sources) == |events| && Total(r.actions) == |events|
    && Total(r.severities) == |events| && Total(r.quality) == |events|
    && (forall k :: BucketOf(r.sources, k) == Count(events, e => SourceKey(l, e), k))
    && (forall k :: BucketOf(r.actions, k) == Count(events, ActionKey, k))
    && (forall k :: BucketOf(r.severities, k) == Count(events, SeverityKey, k))
    && (forall k :: BucketOf(r.quality, k) == Count(events, QualityKey, k))
    && var allow, deny := Count(events, ActionKey, "allow"), Count(events, ActionKey, "deny");
       && r.allowPercent == Percent(l, allow, allow + deny)
       && r.denyPercent == Percent(l, deny, allow + deny)
  }

  lemma TallyFromZero(m: Counts, events: seq<UnifiedEvent>, key: UnifiedEvent -> string)
    requires forall k :: k in m ==> m[k] == 0
    ensures Total(Tally(m, events, key)) == |events|
    ensures forall k :: BucketOf(Tally(m, events, key), k) == Count(events, key, k)
  {
    hide Total;
    TallyCounts(m, events, key);
    TotalOfZeros(m);
  }

  // ---- the store ---------------------------------------------------------------------------------------

  /** Reading the status of an event without schema issues whose quality is not an object. */
  predicate QualityRaises(f: Foreign, e: UnifiedEvent) {
    Issues(f, e) == {} && e.quality.Malformed?
  }

  /** How many events of a batch are fit. */
  function FitCount(f: Foreign, batch: seq<UnifiedEvent>): nat {
    if batch == [] then 0 else FitCount(f, batch[..|batch| - 1]) + (if Fit(f, batch[|batch| - 1]) then 1 else 0)
  }

  lemma FitCountStep(f: Foreign, batch: seq<UnifiedEvent>, i: nat)
    requires i < |batch|
    ensures FitCount(f, batch[..i + 1]) == FitCount(f, batch[..i]) + if Fit(f, batch[i]) then 1 else 0
  {
    hide Fit;
    assert batch[..i + 1][..i] == batch[..i];
  }

  predicate Takes(f: Foreign, e: UnifiedEvent) {
    !QualityRaises(f, e) && Addable(e)
  }

  /** What a batch adds to the list: everything up to the event that raises, which is itself listed if only its
      keys are bad. */
  function Listed(f: Foreign, batch: seq<UnifiedEvent>): seq<UnifiedEvent> {
    if batch == [] || QualityRaises(f, batch[0]) || !Readable(batch[0]) then []
    else [batch[0]] + (if Addable(batch[0]) then Listed(f, batch[1..]) else [])
  }

  lemma ListedNothing(f: Foreign)
    ensures Listed(f, []) == [] && FitCount(f, []) == 0
  {
  }

  lemma ListedStep(f: Foreign, batch: seq<UnifiedEvent>, i: nat)
    requires i < |batch|
    ensures Listed(f, batch[i..]) ==
            if QualityRaises(f, batch[i]) || !Readable(batch[i]) then []
            else if Addable(batch[i]) then [batch[i]] + Listed(f, batch[i + 1..])
            else [batch[i]]
    ensures Addable(batch[i]) ==> Readable(batch[i])
  {
    hide QualityRaises;
    assert batch[i..][1..] == batch[i + 1..];
    assert [batch[i]] + [] == [batch[i]];
  }

  lemma {:induction false} ListedAfter(f: Foreign, batch: seq<UnifiedEvent>, i: nat)
    requires i <= |batch| && forall j :: 0 <= j < i ==> Takes(f, batch[j])
    ensures Listed(f, batch) == batch[..i] + Listed(f, batch[i..])
  {
    hide QualityRaises, Addable, Readable, Listed;
    if i == 0 {
      assert batch[0..] == batch;
    } else {
      ListedAfter(f, batch, i - 1);
      ListedStep(f, batch, i - 1);
      assert Takes(f, batch[i - 1]);
      var rest := Listed(f, batch[i..]);
      assert batch[..i - 1] + ([batch[i - 1]] + rest) == batch[..i] + rest;
    }
  }

  /** What is listed of a batch whose first `i` events are taken and whose next, if there is one, may not be. */
  lemma ListedUpTo(f: Foreign, batch: seq<UnifiedEvent>, i: nat)
    requires i <= |batch| && forall j :: 0 <= j < i ==> Takes(f, batch[j])
    ensures i == |batch| ==> Listed(f, batch) == batch
    ensures i < |batch| ==>
              && (Takes(f, batch[i]) <==> !QualityRaises(f, batch[i]) && Addable(batch[i]))
              && (Addable(batch[i]) ==> Readable(batch[i]))
              && (!Takes(f, batch[i]) ==>
                    Listed(f, batch) == batch[..i] + (if QualityRaises(f, batch[i]) || !Readable(batch[i]) then [] else [batch[i]]))
  {
    ListedAfter(f, batch, i);
    ListedNothing(f);
    if i < |batch| {
      ListedStep(f, batch, i);
    } else {
      assert batch[i..] == [] && batch[..i] + [] == batch;
    }
    hide QualityRaises, Addable, Readable, Listed;
  }

  class AnalyticalVisibilityStore {
    var events: seq<UnifiedEvent>
    var byId: map<Value, UnifiedEvent>
    var byRawHash: map<Value, UnifiedEvent>

    /** The indexes answer as a scan of the list would. */
    ghost predicate Valid()
      reads this
    {
      Agrees(byId, events, IdKey) && Agrees(byRawHash, events, HashKey)
    }

    constructor ()
      ensures Valid() && events == []
    {
      events, byId, byRawHash := [], map[], map[];
    }

    /** False when an exception leaves the method; an event with a bad key is then listed all the same. */
    method AddEvent(e: UnifiedEvent) returns (ok: bool)
      requires Valid()
      modifies this
      ensures Valid() && (ok <==> Addable(e))
      ensures events == old(events) + (if Readable(e) then [e] else [])
    {
      hide DictKey;
      if !Readable(e) {
        return false;
      }
      AppendAgrees(byId, events, IdKey, e);
      AppendAgrees(byRawHash, events, HashKey, e);
      var id, hash := IdLeaf(e), HashLeaf(e);
      events := events + [e];
      if Truthy(id) {
        if id.List? || id.Dict? {
          return false;
        }
        byId := byId[DictKey(id) := e];
      }
      if Truthy(hash) {
        if hash.List? || hash.Dict? {
          return false;
        }
        byRawHash := byRawHash[DictKey(hash) := e];
      }
      return true;
    }

    method GetById(id: string) returns (r: Option<UnifiedEvent>)
      requires Valid()
      ensures r == Last(events, IdKey, Str(id)) && (id == "" ==> r == None)
    {
      EmptyKeyIsNowhere(events);
      r := if Str(id) in byId then Some(byId[Str(id)]) else None;
    }

    method GetByRawHash(hash: string) returns (r: Option<UnifiedEvent>)
      requires Valid()
      ensures r == Last(events, HashKey, Str(hash)) && (hash == "" ==> r == None)
    {
      EmptyKeyIsNowhere(events);
      r := if Str(hash) in byRawHash then Some(byRawHash[Str(hash)]) else None;
    }

    /** The test that sends an event to quarantine; `None` is an exception. */
    method IsInvalid(f: Foreign, e: UnifiedEvent) returns (invalid: Option<bool>)
      ensures invalid == if QualityRaises(f, e) then None else Some(!Fit(f, e))
    {
      hide Issues;
      if Issues(f, e) != {} {
        return Some(true);
      }
      if e.quality.Malformed? {
        return None;
      }
      invalid := Some(e.quality.Object? && e.quality.body.status == Str("invalid"));
    }

    /** Unlike the persistent store, this one keeps the invalid events with the rest and only counts them apart.
        `None` when an exception ends the batch. */
    method WriteBatch(f: Foreign, batch: seq<UnifiedEvent>) returns (counts: Option<(nat, nat)>)
      requires Valid()
      modifies this
      ensures Valid() && events == old(events) + Listed(f, batch)
      ensures counts.Some? <==> forall i :: 0 <= i < |batch| ==> Takes(f, batch[i])
      ensures counts.Some? ==>
                && events == old(events) + batch
                && counts.value.0 == FitCount(f, batch)
                && counts.value.0 + counts.value.1 == |batch|
    {
      hide Fit, QualityRaises, Addable, Readable, Agrees, Listed, FitCount, Issues, Takes;
      var valid: nat, quarantined: nat := 0, 0;
      ListedNothing(f);
      for i := 0 to |batch|
        invariant Valid() && events == old(events) + batch[..i]
        invariant forall j :: 0 <= j < i ==> Takes(f, batch[j])
        invariant valid == FitCount(f, batch[..i]) && valid + quarantined == i
      {
        FitCountStep(f, batch, i);
        ListedUpTo(f, batch, i);
        var invalid := IsInvalid(f, batch[i]);
        if invalid.None? {
          return None;
        }
        var ok := AddEvent(batch[i]);
        if !ok {
          return None;
        }
        if invalid.value {
          quarantined := quarantined + 1;
        } else {
          valid := valid + 1;
        }
        assert old(events) + batch[..i] + [batch[i]] == old(events) + batch[..i + 1];
      }
      assert batch[..|batch|] == batch;
      ListedUpTo(f, batch, |batch|);
      counts := Some((valid, quarantined));
    }

    method Clear()
      modifies this
      ensures Valid() && events == []
    {
      events, byId, byRawHash := [], map[], map[];
    }

    /** The chain of filters that each event goes through. */
    method Consider(l: Library, q: Query, e: UnifiedEvent) returns (v: Verdict)
      ensures v == Judge(l, q, e)
    {
      hide InWindow, FreeText, Passes;
      FiltersInOrder(l, q, e);
      var vendor := VendorLeaf(e);
      if vendor.None? {
        return Raises;
      }
      if !Passes(l, q.vendor, vendor.value) {
        return Miss;
      }
      var category := CategoryLeaf(e);
      if category.None? {
        return Raises;
      }
      if !Passes(l, q.category, category.value) {
        return Miss;
      }
      var action := ActionLeaf(e);
      if action.None? {
        return Raises;
      }
      if !Passes(l, q.action, action.value) {
        return Miss;
      }
      v := InWindow(l, q, e);
      if v != Hit {
        return;
      }
      var severity := SeverityLeaf(e);
      if severity.None? {
        return Raises;
      }
      if !Passes(l, q.severity, severity.value) {
        return Miss;
      }
      var status := StatusLeaf(e);
      if status.None? {
        return Raises;
      }
      if !Passes(l, q.qualityStatus, status.value) {
        return Miss;
      }
      v := FreeText(l, q, e);
    }

    /** `None` when a filter raises. */
    method Search(l: Library, q: Query) returns (r: Option<seq<UnifiedEvent>>)
      ensures r == Found(l, q, events)
    {
      hide Judge;
      var results: seq<UnifiedEvent> := [];
      var n := |events|;
      assert events[..n] == events;
      while n > 0
        invariant 0 <= n <= |events|
        invariant |results| < Cap(q.limit)
        invariant Hits(l, q, events) == results + Hits(l, q, events[..n])
        invariant Fails(l, q, events) <==> Fails(l, q, events[..n])
      {
        n := n - 1;
        assert events[..n + 1][..n] == events[..n];
        FailsStep(l, q, events[..n + 1]);
        var verdict := Consider(l, q, events[n]);
        if verdict == Raises {
          return None;
        }
        if verdict == Hit {
          results := results + [events[n]];
          if |results| >= q.limit {
            assert Hits(l, q, events)[..Cap(q.limit)] == results;
            return Some(results);
          }
        }
      }
      assert events[..0] == [] && results + [] == results;
      assert Hits(l, q, events) == results && !Fails(l, q, events);
      r := Some(results);
    }

    /** `None` when a leaf is not text. */
    method GetAggregations(l: Library) returns (r: Option<Aggregations>)
      ensures r.Some? <==> AllCountable(events)
      ensures r.Some? ==> CountsEvents(l, events, r.value)
    {
      hide Countable, SourceKey, ActionKey, SeverityKey, QualityKey, Total, Tally, Bump, Count;
      var sources: Counts := map[];
      var actions, severities, quality := ACTIONS, SEVERITIES, QUALITIES;
      TalliedNothing(l);
      assert events[..0] == [];
      for i := 0 to |events|
        invariant AllCountable(events[..i])
        invariant Tallied(l, events[..i], sources, actions, severities, quality)
      {
        if !Countable(events[i]) {
          return None;
        }
        TalliedStep(l, events, i, sources, actions, severities, quality);
        sources := Bump(sources, SourceKey(l, events[i]));
        actions := Bump(actions, ActionKey(events[i]));
        severities := Bump(severities, SeverityKey(events[i]));
        quality := Bump(quality, QualityKey(events[i]));
      }
      assert events[..|events|] == events;
      var allow, deny := BucketOf(actions, "allow"), BucketOf(actions, "deny");
      r := Some(Aggregations(
        |events|, sources, actions, Percent(l, allow, allow + deny), Percent(l, deny, allow + deny),
        severities, quality));
      TalliedCounts(l, events, r.value);
      hide CountsEvents;
    }
  }

  predicate Tallied(
      l: Library, events: seq<UnifiedEvent>, sources: Counts, actions: Counts, severities: Counts, quality: Counts) {
    && sources == Tally(map[], events, e => SourceKey(l, e))
    && actions == Tally(ACTIONS, events, ActionKey)
    && severities == Tally(SEVERITIES, events, SeverityKey)
    && quality == Tally(QUALITIES, events, QualityKey)
  }

  lemma TalliedNothing(l: Library)
    ensures Tallied(l, [], map[], ACTIONS, SEVERITIES, QUALITIES)
  {
  }

  lemma TalliedStep(
      l: Library, events: seq<UnifiedEvent>, i: nat, sources: Counts, actions: Counts, severities: Counts, quality: Counts)
    requires i < |events| && Tallied(l, events[..i], sources, actions, severities, quality)
    ensures Tallied(l, events[..i + 1], Bump(sources, SourceKey(l, events[i])), Bump(actions, ActionKey(events[i])),
                    Bump(severities, SeverityKey(events[i])), Bump(quality, QualityKey(events[i])))
  {
    hide Bump, SourceKey, ActionKey, SeverityKey, QualityKey;
    assert events[..i + 1][..i] == events[..i];
  }

  lemma TalliedCounts(l: Library, events: seq<UnifiedEvent>, r: Aggregations)
    requires Tallied(l, events, r.sources, r.actions, r.severities, r.quality) && r.total == |events|
    requires var allow, deny := BucketOf(r.actions, "allow"), BucketOf(r.actions, "deny");
             r.allowPercent == Percent(l, allow, allow + deny) && r.denyPercent == Percent(l, deny, allow + deny)
    ensures CountsEvents(l, events, r)
  {
    hide Total, Tally, Count, BucketOf, Percent, SourceKey, ActionKey, SeverityKey, QualityKey;
    TallyFromZero(map[], events, e => SourceKey(l, e));
    TallyFromZero(ACTIONS, events, ActionKey);
    TallyFromZero(SEVERITIES, events, SeverityKey);
    TallyFromZero(QUALITIES, events, QualityKey);
  }

  lemma FiltersInOrder(l: Library, q: Query, e: UnifiedEvent)
    ensures var v := Filters(l, q, e);
            Judge(l, q, e) ==
              if v[0] != Hit then v[0] else if v[1] != Hit then v[1] else if v[2] != Hit then v[2]
              else if v[3] != Hit then v[3] else if v[4] != Hit then v[4] else if v[5] != Hit then v[5] else v[6]
  {
    hide Filtered, InWindow, FreeText;
    var v := Filters(l, q, e);
    FirstStep(v, 6);
    FirstStep(v, 5);
    FirstStep(v, 4);
    FirstStep(v, 3);
    FirstStep(v, 2);
    FirstStep(v, 1);
    FirstStep(v, 0);
    assert v[7..] == [] && v[0..] == v;
  }

  lemma FirstStep(v: seq<Verdict>, i: nat)
    requires i < |v|
    ensures First(v[i..]) == if v[i] != Hit then v[i] else First(v[i + 1..])
  {
    assert v[i..][1..] == v[i + 1..];
  }

  lemma FailsStep(l: Library, q: Query, events: seq<UnifiedEvent>)
    requires events != []
    ensures Fails(l, q, events) <==>
            Judge(l, q, events[|events| - 1]) == Raises || Fails(l, q, events[..|events| - 1])
  {
    hide Judge;
    var n := |events| - 1;
    assert forall i :: 0 <= i < n ==> events[..n][i] == events[i];
  }

  /** The two percentages share out the decided events, but for rounding, and are zero without any. */
  lemma PercentagesShareOut(l: Library, allow: nat, deny: nat)
    requires Rounds(l)
    ensures allow + deny > 0 ==> 99.89 <= Percent(l, allow, allow + deny) + Percent(l, deny, allow + deny) <= 100.11
    ensures allow + deny == 0 ==> Percent(l, allow, allow + deny) == Percent(l, deny, allow + deny) == 0.0
  {
    if allow + deny > 0 {
      SharesAddUp(allow as real, deny as real, (allow + deny) as real);
      assert Exact(allow, allow + deny) + Exact(deny, allow + deny) == 100.0;
    }
  }

  lemma SharesAddUp(a: real, d: real, w: real)
    requires w > 0.0 && a + d == w
    ensures a / w + d / w == 1.0
  {
    var x, y := a / w, d / w;
    Cancels(a, w);
    Cancels(d, w);
    assert (x + y) * w == x * w + y * w;
    assert (x + y - 1.0) * w == 0.0;
  }

  lemma Cancels(a: real, w: real)
    requires w > 0.0
    ensures a / w * w == a
  {
  }
}
