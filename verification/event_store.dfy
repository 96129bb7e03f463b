/** Storage of normalized events: rows, batched writes, quarantine and the sink's decision. */
module EventStore {
  import opened Common
  import opened Contracts
  import opened UnifiedEvents
  import opened SemanticValidation
  import opened Normalizer

  // ---- rows ------------------------------------------------------------------------------------------

  datatype EventRow = EventRow(
    eventId: string,
    observedAt: int,
    ingestedAt: int,
    normalizedAt: int,
    vendor: string,
    product: string,
    category: string,
    eventType: string,
    action: string,
    severity: int,
    severityLabel: string,
    sourceIp: string,
    sourcePort: Value,
    destinationIp: string,
    destinationPort: Value,
    qualityStatus: string,
    rawEventId: string,
    rawSha256: string,
    sourcePackName: string,
    sourcePackVersion: string,
    parserName: string,
    parserVersion: string,
    normalizedJson: string)

  datatype QuarantineRow = QuarantineRow(
    eventId: string, rawSha256: string, payloadJson: string, errorCodes: seq<string>, quarantinedAt: int)

  /** What `json.loads` makes of a consumed value; on a number of too many digits it raises an error that nothing
      catches. */
  datatype Loaded = Unloadable | NotJson | NotObject | Event(event: UnifiedEvent)

  /** Library functions the store calls. */
  datatype Codec = Codec(
    timestamp: string -> Option<int>,       // an ISO 8601 time that carries a zone
    compact: UnifiedEvent -> string,        // sorted, compact JSON text
    loads: string -> Loaded,
    encode: UnifiedEvent -> Bytes,          // what the normalizer publishes
    decode: Bytes -> Loaded,
    replaceDecode: Bytes -> string,         // UTF-8 with replacement characters
    codes: set<Issue> -> seq<string>)       // `path:rule` of each issue, in the validator's order

  ghost predicate LawfulCodec(f: Foreign, c: Codec) {
    && (forall t: Instant :: c.timestamp(f.utc(t)) == Some(t))
    && (forall n: int :: f.toInt(Int(n)) == Some(n))
    && (forall s: string :: f.text(Str(s)) == s)
    && (forall e: UnifiedEvent :: c.loads(c.compact(e)) == Event(e))
    && (forall e: UnifiedEvent :: c.decode(c.encode(e)) == Event(e))
    && (forall issues: set<Issue> :: issues != {} ==> c.codes(issues) != [])
  }

  function Timestamp(c: Codec, v: Value): Option<int> {
    if v.Str? then c.timestamp(v.text) else None
  }

  function EndpointBody(s: Section<Endpoint>): Option<Endpoint> {
    match s
    case Absent => Some(Endpoint(Null, Null, Null))
    case Malformed => None
    case Object(e) => Some(e)
  }

  function TextOr(f: Foreign, v: Value, default: string): string {
    if v == Null then default else f.text(v)
  }

  /** Every section and leaf that the projection subscripts. */
  predicate Projectable(e: UnifiedEvent) {
    && e.meta.Object? && e.times.Object? && e.observer.Object? && e.action.Object? && e.severity.Object?
    && e.quality.Object? && e.traceability.Object?
    && EndpointBody(e.source).Some? && EndpointBody(e.destination).Some?
    && Null !in {
         e.meta.body.id, e.meta.body.category, e.meta.body.eventType, e.observer.body.vendor, e.observer.body.product,
         e.action.body.normalized, e.severity.body.labelText, e.quality.body.status, e.traceability.body.rawEventId,
         e.traceability.body.rawSha256, e.traceability.body.sourcePackName, e.traceability.body.sourcePackVersion,
         e.traceability.body.parserName, e.traceability.body.parserVersion}
  }

  /** `map_unified_event`; `None` stands for an exception. */
  function MapRow(f: Foreign, c: Codec, e: UnifiedEvent): Option<EventRow> {
    if !Projectable(e) then None
    else
      var meta, times, observer, trace := e.meta.body, e.times.body, e.observer.body, e.traceability.body;
      var source, destination := EndpointBody(e.source).value, EndpointBody(e.destination).value;
      var observed, ingested, normalized :=
        Timestamp(c, times.observedAt), Timestamp(c, times.ingestedAt), Timestamp(c, times.normalizedAt);
      var score := f.toInt(e.severity.body.normalized);
      if observed.None? || ingested.None? || normalized.None? || score.None? then None
      else Some(EventRow(
        f.text(meta.id), observed.value, ingested.value, normalized.value,
        f.text(observer.vendor), f.text(observer.product), f.text(meta.category), f.text(meta.eventType),
        f.text(e.action.body.normalized), score.value, f.text(e.severity.body.labelText),
        TextOr(f, source.ip, ""), source.port, TextOr(f, destination.ip, ""), destination.port,
        f.text(e.quality.body.status), f.text(trace.rawEventId), f.text(trace.rawSha256),
        f.text(trace.sourcePackName), f.text(trace.sourcePackVersion),
        f.text(trace.parserName), f.text(trace.parserVersion), c.compact(e)))
  }

  function Codes(f: Foreign, c: Codec, e: UnifiedEvent): seq<string> {
    c.codes(Issues(f, e)) + (if MarkedInvalid(e) then ["$.quality.status:invalid"] else [])
  }

  function Quarantined(f: Foreign, c: Codec, e: UnifiedEvent, now: int): QuarantineRow {
    QuarantineRow(
      if e.meta.Object? then TextOr(f, e.meta.body.id, "") else "",
      if e.traceability.Object? then TextOr(f, e.traceability.body.rawSha256, "") else "",
      c.compact(e), Codes(f, c, e), now)
  }

  /** A quarantined event keeps its id and hash as far as it has them, its whole text, the codes of its issues, and
      the mark of its own validation. */
  lemma QuarantinedIs(f: Foreign, c: Codec, e: UnifiedEvent, now: int)
    requires LawfulCodec(f, c)
    ensures var q := Quarantined(f, c, e, now);
            && (e.meta.Object? && e.meta.body.id.Str? ==> q.eventId == e.meta.body.id.text)
            && (!e.meta.Object? || e.meta.body.id == Null ==> q.eventId == "")
            && (e.traceability.Object? && e.traceability.body.rawSha256.Str? ==>
                  q.rawSha256 == e.traceability.body.rawSha256.text)
            && (!e.traceability.Object? || e.traceability.body.rawSha256 == Null ==> q.rawSha256 == "")
            && c.loads(q.payloadJson) == Event(e) && q.quarantinedAt == now
            && (MarkedInvalid(e) ==> q.errorCodes == c.codes(Issues(f, e)) + ["$.quality.status:invalid"])
            && (!MarkedInvalid(e) ==> q.errorCodes == c.codes(Issues(f, e)))
            && (!Fit(f, e) ==> q.errorCodes != [])
  {
    hide Issues;
    assert c.loads(c.compact(e)) == Event(e);
    assert Issues(f, e) != {} ==> c.codes(Issues(f, e)) != [];
    assert e.meta.Object? && e.meta.body.id.Str? ==> f.text(e.meta.body.id) == e.meta.body.id.text;
    assert e.traceability.Object? && e.traceability.body.rawSha256.Str? ==>
             f.text(e.traceability.body.rawSha256) == e.traceability.body.rawSha256.text;
    hide LawfulCodec;
  }

  // ---- tables ----------------------------------------------------------------------------------------

  datatype Tables = Tables(events: seq<EventRow>, quarantine: seq<QuarantineRow>)

  /** The client's answer to one insert. An insert that raises may still have stored its rows. */
  datatype Answer = Inserted | Raised(message: string, stored: bool)

  function Extended<T>(table: seq<T>, rows: seq<T>, a: Answer): seq<T> {
    if a.Inserted? || a.stored then table + rows else table
  }

  class Client {
    var events: seq<EventRow>
    var quarantine: seq<QuarantineRow>

    constructor ()
      ensures View() == Tables([], [])
    {
      events, quarantine := [], [];
    }

    function View(): Tables
      reads this
    {
      Tables(events, quarantine)
    }

    method InsertEvents(rows: seq<EventRow>, a: Answer) returns (error: Option<string>)
      modifies this
      ensures View() == old(View()).(events := Extended(old(events), rows, a))
      ensures error == if a.Inserted? then None else Some(a.message)
    {
      error := None;
      if a.Inserted? || a.stored {
        events := events + rows;
      }
      if a.Raised? {
        error := Some(a.message);
      }
    }

    method InsertQuarantine(rows: seq<QuarantineRow>, a: Answer) returns (error: Option<string>)
      modifies this
      ensures View() == old(View()).(quarantine := Extended(old(quarantine), rows, a))
      ensures error == if a.Inserted? then None else Some(a.message)
    {
      error := None;
      if a.Inserted? || a.stored {
        quarantine := quarantine + rows;
      }
      if a.Raised? {
        error := Some(a.message);
      }
    }
  }

  // ---- batches ---------------------------------------------------------------------------------------

  datatype Split = Split(rows: seq<EventRow>, bad: seq<QuarantineRow>)

  /** The rows a batch turns into; `None` when projecting an accepted event raises. `clock` gives the reading
      taken for each event. */
  function SplitOf(f: Foreign, c: Codec, events: seq<UnifiedEvent>, clock: nat -> int): Option<Split> {
    if events == [] then Some(Split([], []))
    else
      var n := |events| - 1;
      var before := SplitOf(f, c, events[..n], clock);
      if before.None? then None
      else if !Fit(f, events[n]) then
        Some(before.value.(bad := before.value.bad + [Quarantined(f, c, events[n], clock(n))]))
      else
        var row := MapRow(f, c, events[n]);
        if row.None? then None else Some(before.value.(rows := before.value.rows + [row.value]))
  }

  datatype WriteResult = WriteResult(accepted: nat, valid: nat, quarantined: nat, failed: nat, errors: seq<string>)

  function Written(t: Tables, s: Split, events: Answer, quarantine: Answer): Tables {
    Tables(Extended(t.events, s.rows, events), Extended(t.quarantine, s.bad, quarantine))
  }

  function Report(s: Split, events: Answer, quarantine: Answer): WriteResult {
    var lostRows, lostBad := s.rows != [] && events.Raised?, s.bad != [] && quarantine.Raised?;
    var valid, bad := if lostRows then 0 else |s.rows|, if lostBad then 0 else |s.bad|;
    WriteResult(
      valid + bad, valid, bad, |s.rows| + |s.bad| - valid - bad,
      if lostRows && lostBad then [events.message, quarantine.message]
      else if lostRows then [events.message]
      else if lostBad then [quarantine.message]
      else [])
  }

  /** Splitting loses no event and keeps the two sorts apart: the events table gets exactly the projections of
      the accepted events and quarantine exactly the others. */
  lemma {:induction false} SplitIsPartition(f: Foreign, c: Codec, events: seq<UnifiedEvent>, clock: nat -> int)
    requires SplitOf(f, c, events, clock).Some?
    ensures var s := SplitOf(f, c, events, clock).value;
            && |s.rows| + |s.bad| == |events|
            && (forall r :: r in s.rows <==>
                  exists i :: 0 <= i < |events| && Fit(f, events[i]) && MapRow(f, c, events[i]) == Some(r))
            && (forall b :: b in s.bad <==>
                  exists i: nat :: i < |events| && !Fit(f, events[i]) && b == Quarantined(f, c, events[i], clock(i)))
  {
    hide Fit, MapRow, Quarantined;
    if events != [] {
      SplitIsPartition(f, c, events[..|events| - 1], clock);
    }
  }

  /** A batch accounts for each of its events exactly once, reports a failure if and only if it reports an
      error, and what it reports as written is in its table. */
  lemma BatchAccounts(
      f: Foreign, c: Codec, t: Tables, batch: seq<UnifiedEvent>, clock: nat -> int, events: Answer, quarantine: Answer)
    requires SplitOf(f, c, batch, clock).Some?
    ensures var s := SplitOf(f, c, batch, clock).value;
            var r := Report(s, events, quarantine);
            var t' := Written(t, s, events, quarantine);
            && r.valid + r.quarantined + r.failed == |batch| && r.accepted == r.valid + r.quarantined
            && (r.failed == 0 <==> r.errors == [])
            && (r.failed == 0 ==> t' == Tables(t.events + s.rows, t.quarantine + s.bad))
            && t.events <= t'.events && t.quarantine <= t'.quarantine
            && |t'.events| - |t.events| >= r.valid && |t'.quarantine| - |t.quarantine| >= r.quarantined
  {
    SplitIsPartition(f, c, batch, clock);
  }

  class ClickHouseEventStore {
    const client: Client

    constructor (client: Client)
      ensures this.client == client
    {
      this.client := client;
    }

    method WriteBatch(f: Foreign, c: Codec, batch: seq<UnifiedEvent>, clock: nat -> int, events: Answer, quarantine: Answer)
      returns (result: Option<WriteResult>)
      modifies client
      ensures SplitOf(f, c, batch, clock).None? ==> result == None && client.View() == old(client.View())
      ensures SplitOf(f, c, batch, clock).Some? ==>
                var s := SplitOf(f, c, batch, clock).value;
                && result == Some(Report(s, events, quarantine))
                && client.View() == Written(old(client.View()), s, events, quarantine)
    {
      var split := Classify(f, c, batch, clock);
      if split.None? {
        return None;
      }
      var written := Insert(split.value, events, quarantine);
      result := Some(written);
    }

    /** The first loop: rows for accepted events, quarantine rows for the rest. */
    method Classify(f: Foreign, c: Codec, batch: seq<UnifiedEvent>, clock: nat -> int) returns (split: Option<Split>)
      ensures split == SplitOf(f, c, batch, clock)
    {
      hide Fit, MapRow, Quarantined;
      var rows: seq<EventRow>, bad: seq<QuarantineRow> := [], [];
      for i := 0 to |batch|
        invariant SplitOf(f, c, batch[..i], clock) == Some(Split(rows, bad))
      {
        assert batch[..i + 1][..i] == batch[..i];
        if Fit(f, batch[i]) {
          var row := MapRow(f, c, batch[i]);
          if row.None? {
            SplitStaysStuck(f, c, batch, clock, i + 1);
            return None;
          }
          rows := rows + [row.value];
        } else {
          bad := bad + [Quarantined(f, c, batch[i], clock(i))];
        }
      }
      assert batch[..|batch|] == batch;
      split := Some(Split(rows, bad));
    }

    /** The two inserts; each is skipped when it has no rows and neither stops the other. */
    method Insert(s: Split, events: Answer, quarantine: Answer) returns (result: WriteResult)
      modifies client
      ensures result == Report(s, events, quarantine)
      ensures client.View() == Written(old(client.View()), s, events, quarantine)
    {
      var valid, quarantined, failed := 0, 0, 0;
      var errors: seq<string> := [];
      if s.rows != [] {
        var error := client.InsertEvents(s.rows, events);
        if error.None? {
          valid := |s.rows|;
        } else {
          failed := failed + |s.rows|;
          errors := errors + [error.value];
          assert errors == [events.message];
        }
      }
      if s.bad != [] {
        var error := client.InsertQuarantine(s.bad, quarantine);
        if error.None? {
          quarantined := |s.bad|;
        } else {
          failed := failed + |s.bad|;
          errors := errors + [error.value];
        }
      }
      result := WriteResult(valid + quarantined, valid, quarantined, failed, errors);
      assert result.errors == Report(s, events, quarantine).errors;
    }

    method QuarantinePayload(c: Codec, payload: Bytes, code: string, now: int, a: Answer) returns (result: WriteResult)
      modifies client
      ensures client.View() == Written(old(client.View()), Unreadable(c, payload, code, now), Inserted, a)
      ensures result == Report(Unreadable(c, payload, code, now), Inserted, a)
    {
      var row := QuarantineRow("", "", c.replaceDecode(payload), [code], now);
      var error := client.InsertQuarantine([row], a);
      if error.Some? {
        return WriteResult(0, 0, 0, 1, [error.value]);
      }
      return WriteResult(1, 0, 1, 0, []);
    }
  }

  lemma {:induction false} SplitStaysStuck(f: Foreign, c: Codec, events: seq<UnifiedEvent>, clock: nat -> int, n: nat)
    requires n <= |events| && SplitOf(f, c, events[..n], clock).None?
    ensures SplitOf(f, c, events, clock).None?
  {
    if n == |events| {
      assert events[..n] == events;
    } else {
      var front := events[..|events| - 1];
      assert front[..n] == events[..n];
      SplitStaysStuck(f, c, front, clock, n);
    }
  }

  // ---- the sink --------------------------------------------------------------------------------------

  datatype StorageDecision = StorageDecision(
    acknowledge: bool,
    retryable: bool,
    errorCode: Option<string>,
    errorMessage: Option<seq<string>>)  // the messages that the source joins with semicolons

  /** The single quarantine row of a payload that is not an event. */
  function Unreadable(c: Codec, payload: Bytes, code: string, now: int): Split {
    Split([], [QuarantineRow("", "", c.replaceDecode(payload), [code], now)])
  }

  /** Where one consumed value goes, and the code reported when that is quarantine. */
  function Placement(f: Foreign, c: Codec, payload: Bytes, now: int): Option<Split> {
    match c.decode(payload)
    case Unloadable => None
    case NotJson => Some(Unreadable(c, payload, "INVALID_NORMALIZED_JSON", now))
    case NotObject => Some(Unreadable(c, payload, "INVALID_NORMALIZED_CONTRACT", now))
    case Event(e) =>
      if !Fit(f, e) then Some(Split([], [Quarantined(f, c, e, now)]))
      else
        var row := MapRow(f, c, e);
        if row.None? then None else Some(Split([row.value], []))
  }

  function CodeOf(f: Foreign, c: Codec, payload: Bytes): Option<string> {
    match c.decode(payload)
    case Unloadable => None
    case NotJson => Some("INVALID_NORMALIZED_JSON")
    case NotObject => Some("INVALID_NORMALIZED_CONTRACT")
    case Event(e) => if Fit(f, e) then None else Some("INVALID_NORMALIZED_CONTRACT")
  }

  function Decided(f: Foreign, c: Codec, payload: Bytes, a: Answer): StorageDecision {
    match a
    case Raised(message, _) => StorageDecision(false, true, Some("STORAGE_WRITE_FAILED"), Some([message]))
    case Inserted => StorageDecision(true, false, CodeOf(f, c, payload), None)
  }

  /** A batch of one event is its placement. */
  lemma SplitOfOne(f: Foreign, c: Codec, e: UnifiedEvent, clock: nat -> int)
    ensures SplitOf(f, c, [e], clock) ==
            if !Fit(f, e) then Some(Split([], [Quarantined(f, c, e, clock(0))]))
            else if MapRow(f, c, e).None? then None
            else Some(Split([MapRow(f, c, e).value], []))
  {
    hide Fit, MapRow, Quarantined;
    assert [e][..0] == [];
    var bad, row := Quarantined(f, c, e, clock(0)), MapRow(f, c, e);
    assert [] + [bad] == [bad];
    assert row.Some? ==> [] + [row.value] == [row.value];
  }

  /** What a report on the one row of a payload says. */
  lemma ReportOfOne(s: Split, a: Answer)
    requires |s.rows| + |s.bad| == 1
    ensures var r := Report(s, a, a);
            && (r.failed != 0 <==> a.Raised?)
            && (a.Raised? ==> r.errors == [a.message])
            && (a.Inserted? ==> (r.quarantined != 0 <==> s.bad != []))
  {
  }

  class ClickHouseSinkProcessor {
    const store: ClickHouseEventStore

    constructor (store: ClickHouseEventStore)
      ensures this.store == store
    {
      this.store := store;
    }

    /** One consumed value: `None` when an exception leaves the method. */
    method Process(f: Foreign, c: Codec, payload: Bytes, now: int, a: Answer) returns (d: Option<StorageDecision>)
      modifies store.client
      ensures Placement(f, c, payload, now).None? ==> d == None && store.client.View() == old(store.client.View())
      ensures Placement(f, c, payload, now).Some? ==>
                && d == Some(Decided(f, c, payload, a))
                && store.client.View() == Written(old(store.client.View()), Placement(f, c, payload, now).value, a, a)
    {
      hide Fit, MapRow, Quarantined;
      match c.decode(payload) {
        case Unloadable =>
          return None;
        case NotJson =>
          d := Quarantine(f, c, payload, "INVALID_NORMALIZED_JSON", now, a);
        case NotObject =>
          d := Quarantine(f, c, payload, "INVALID_NORMALIZED_CONTRACT", now, a);
        case Event(e) =>
          var clock: nat -> int := i => now;
          SplitOfOne(f, c, e, clock);
          hide SplitOf, Report, Written;
          var result := store.WriteBatch(f, c, [e], clock, a, a);
          if result.None? {
            return None;
          }
          ReportOfOne(SplitOf(f, c, [e], clock).value, a);
          if result.value.failed != 0 {
            return Some(StorageDecision(false, true, Some("STORAGE_WRITE_FAILED"), Some(result.value.errors)));
          }
          if result.value.quarantined != 0 {
            return Some(StorageDecision(true, false, Some("INVALID_NORMALIZED_CONTRACT"), None));
          }
          d := Some(StorageDecision(true, false, None, None));
      }
    }

    method Quarantine(f: Foreign, c: Codec, payload: Bytes, code: string, now: int, a: Answer)
      returns (d: Option<StorageDecision>)
      requires !c.decode(payload).Event? && CodeOf(f, c, payload) == Some(code)
      modifies store.client
      ensures d == Some(Decided(f, c, payload, a))
      ensures store.client.View() == Written(old(store.client.View()), Unreadable(c, payload, code, now), a, a)
    {
      var result := store.QuarantinePayload(c, payload, code, now, a);
      ReportQuarantined(c, payload, code, now, a);
      hide Report, Written;
      if result.failed != 0 {
        return Some(StorageDecision(false, true, Some("STORAGE_WRITE_FAILED"), Some(result.errors)));
      }
      d := Some(StorageDecision(true, false, Some(code), None));
    }
  }

  lemma ReportQuarantined(c: Codec, payload: Bytes, code: string, now: int, a: Answer)
    ensures var s := Unreadable(c, payload, code, now);
            Report(s, Inserted, a) == Report(s, a, a)
    ensures forall t :: Written(t, Unreadable(c, payload, code, now), Inserted, a) == Written(t, Unreadable(c, payload, code, now), a, a)
    ensures var r := Report(Unreadable(c, payload, code, now), a, a);
            && (r.failed != 0 <==> a.Raised?)
            && (a.Raised? ==> r.errors == [a.message])
  {
    ReportOfOne(Unreadable(c, payload, code, now), a);
  }
}
