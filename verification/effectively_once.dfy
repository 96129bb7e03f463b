/** The events table keeps the latest version of each key. Redelivery, retried inserts and background merges
    leave the same logical rows as one delivery, up to the normalization time. */
module EffectivelyOnce {
  import opened Common
  import opened Contracts
  import opened UnifiedEvents
  import opened SemanticValidation
  import opened Mappings
  import opened Normalizer
  import opened EventStore

  // ---- the table -------------------------------------------------------------------------------------

  datatype Key = Key(observedAt: int, eventId: string)

  function KeyOf(r: EventRow): Key {
    Key(r.observedAt, r.eventId)
  }

  /** What a query with FINAL sees: for each key the row with the greatest version, the last inserted of those
      on a tie. */
  function Final(rows: seq<EventRow>): map<Key, EventRow> {
    if rows == [] then map[]
    else
      var n := |rows| - 1;
      var m, k := Final(rows[..n]), KeyOf(rows[n]);
      if k in m && rows[n].normalizedAt < m[k].normalizedAt then m else m[k := rows[n]]
  }

  /** Row `j` hides row `i` of the same key. */
  predicate Hides(rows: seq<EventRow>, j: int, i: int)
    requires 0 <= i < |rows| && 0 <= j < |rows|
  {
    && KeyOf(rows[j]) == KeyOf(rows[i])
    && (rows[j].normalizedAt > rows[i].normalizedAt || (rows[j].normalizedAt == rows[i].normalizedAt && j > i))
  }

  predicate Wins(rows: seq<EventRow>, i: int) {
    0 <= i < |rows| && forall j :: 0 <= j < |rows| ==> !Hides(rows, j, i)
  }

  lemma FrontWinnerStays(rows: seq<EventRow>, i: int)
    requires rows != [] && Wins(rows[..|rows| - 1], i) && !Hides(rows, |rows| - 1, i)
    ensures Wins(rows, i)
  {
    var front := rows[..|rows| - 1];
    forall j | 0 <= j < |rows| ensures !Hides(rows, j, i) {
      if j < |front| {
        assert !Hides(front, j, i);
      }
    }
  }

  lemma LastWins(rows: seq<EventRow>, i: int)
    requires rows != [] && Wins(rows[..|rows| - 1], i) && Hides(rows, |rows| - 1, i)
    ensures Wins(rows, |rows| - 1)
  {
    var front, n := rows[..|rows| - 1], |rows| - 1;
    forall j | 0 <= j < |rows| ensures !Hides(rows, j, n) {
      if j < n {
        assert !Hides(front, j, i);
      }
    }
  }

  /** Row `i` is the one that queries see for key `k`. */
  predicate Shown(rows: seq<EventRow>, k: Key, i: int) {
    Wins(rows, i) && KeyOf(rows[i]) == k && k in Final(rows) && Final(rows)[k] == rows[i]
  }

  /** A key is seen exactly when some row has it, and what is seen is the row that none other hides. */
  lemma {:induction false} FinalIsLatest(rows: seq<EventRow>, k: Key)
    ensures k in Final(rows) <==> exists i :: 0 <= i < |rows| && KeyOf(rows[i]) == k
    ensures k in Final(rows) ==> exists i :: Shown(rows, k, i)
  {
    hide Hides, KeyOf, Wins;
    if rows != [] {
      var n := |rows| - 1;
      var front := rows[..n];
      FinalIsLatest(front, k);
      if k in Final(front) {
        var i :| Shown(front, k, i);
        ShownStepsOn(rows, k, i);
      } else if KeyOf(rows[n]) == k {
        FirstOfKeyWins(rows, n);
        assert Shown(rows, k, n);
      }
    }
  }

  lemma FirstOfKeyWins(rows: seq<EventRow>, n: nat)
    requires n + 1 == |rows| && forall j :: 0 <= j < n ==> KeyOf(rows[j]) != KeyOf(rows[n])
    ensures Wins(rows, n)
  {
  }

  lemma ShownStepsOn(rows: seq<EventRow>, k: Key, i: int)
    requires rows != [] && Shown(rows[..|rows| - 1], k, i)
    ensures Shown(rows, k, i) || Shown(rows, k, |rows| - 1)
  {
    hide Wins;
    var n := |rows| - 1;
    assert 0 <= i < n && rows[..n][i] == rows[i] by { assert Wins(rows[..n], i); WinsInRange(rows[..n], i); }
    if Hides(rows, n, i) {
      LastWins(rows, i);
    } else {
      FrontWinnerStays(rows, i);
    }
  }

  lemma WinsInRange(rows: seq<EventRow>, i: int)
    requires Wins(rows, i)
    ensures 0 <= i < |rows|
  {
  }

  lemma WinnerIsSeen(rows: seq<EventRow>, i: int)
    requires Wins(rows, i)
    ensures KeyOf(rows[i]) in Final(rows) && Final(rows)[KeyOf(rows[i])] == rows[i]
  {
    FinalIsLatest(rows, KeyOf(rows[i]));
    var w :| Shown(rows, KeyOf(rows[i]), w);
    assert !Hides(rows, w, i) && !Hides(rows, i, w);
  }

  /** A background merge drops rows that newer rows of the same key hide. */
  function Without(rows: seq<EventRow>, i: nat): seq<EventRow>
    requires i < |rows|
  {
    rows[..i] + rows[i + 1..]
  }

  predicate Superseded(rows: seq<EventRow>, i: nat) {
    i < |rows| && exists j :: 0 <= j < |rows| && Hides(rows, j, i)
  }

  /** Merging is invisible to queries. */
  lemma MergeKeepsFinal(rows: seq<EventRow>, i: nat)
    requires Superseded(rows, i)
    ensures Final(Without(rows, i)) == Final(rows)
  {
    var rest := Without(rows, i);
    forall k ensures k in Final(rest) <==> k in Final(rows)
      ensures k in Final(rows) && k in Final(rest) ==> Final(rest)[k] == Final(rows)[k]
    {
      FinalIsLatest(rows, k);
      FinalIsLatest(rest, k);
      if k in Final(rows) {
        var w :| Shown(rows, k, w);
        assert w != i;
        WinnerSurvives(rows, i, w);
        WinnerIsSeen(rest, if w < i then w else w - 1);
      }
    }
    assert Final(rest).Keys == Final(rows).Keys;
  }

  lemma WinnerSurvives(rows: seq<EventRow>, i: nat, w: int)
    requires i < |rows| && Wins(rows, w) && w != i
    ensures var w' := if w < i then w else w - 1; Wins(Without(rows, i), w') && Without(rows, i)[w'] == rows[w]
  {
    var rest, w' := Without(rows, i), if w < i then w else w - 1;
    forall j | 0 <= j < |rest| ensures !Hides(rest, j, w') {
      assert rest[j] == rows[if j < i then j else j + 1];
      assert !Hides(rows, if j < i then j else j + 1, w);
    }
  }

  // ---- logical rows ----------------------------------------------------------------------------------

  /** A row without its normalization time, in the column and in the retained JSON. */
  function Undated(c: Codec, r: EventRow): EventRow {
    r.(normalizedAt := 0,
       normalizedJson := match c.loads(r.normalizedJson)
                         case Event(e) => c.compact(Retimed(e, Null))
                         case _ => r.normalizedJson)
  }

  function Logical(c: Codec, rows: seq<EventRow>): map<Key, EventRow> {
    map k | k in Final(rows) :: Undated(c, Final(rows)[k])
  }

  /** Rows of one key differ in their normalization time only. */
  predicate SameByKey(c: Codec, rows: seq<EventRow>) {
    forall i, j :: 0 <= i < |rows| && 0 <= j < |rows| && KeyOf(rows[i]) == KeyOf(rows[j]) ==>
      Undated(c, rows[i]) == Undated(c, rows[j])
  }

  predicate HasLike(c: Codec, rows: seq<EventRow>, r: EventRow) {
    exists j :: 0 <= j < |rows| && Undated(c, rows[j]) == Undated(c, r)
  }

  /** Every row of `a` has a row in `b` that is the same up to its normalization time. */
  predicate CoveredBy(c: Codec, a: seq<EventRow>, b: seq<EventRow>) {
    forall i :: 0 <= i < |a| ==> HasLike(c, b, a[i])
  }

  lemma UndatedKeepsKey(c: Codec, a: EventRow, b: EventRow)
    requires Undated(c, a) == Undated(c, b)
    ensures KeyOf(a) == KeyOf(b)
  {
  }

  lemma CoveredKey(c: Codec, a: seq<EventRow>, b: seq<EventRow>, k: Key)
    requires CoveredBy(c, a, b) && k in Final(a)
    ensures k in Final(b)
  {
    hide Undated, KeyOf, Final;
    FinalIsLatest(a, k);
    var i :| 0 <= i < |a| && KeyOf(a[i]) == k;
    assert HasLike(c, b, a[i]);
    var j :| 0 <= j < |b| && Undated(c, b[j]) == Undated(c, a[i]);
    UndatedKeepsKey(c, a[i], b[j]);
    FinalIsLatest(b, k);
  }

  lemma CoveredRow(c: Codec, a: seq<EventRow>, b: seq<EventRow>, k: Key)
    requires SameByKey(c, b) && CoveredBy(c, a, b) && k in Final(a) && k in Final(b)
    ensures Undated(c, Final(a)[k]) == Undated(c, Final(b)[k])
  {
    hide Undated, KeyOf, Final, Wins;
    FinalIsLatest(a, k);
    FinalIsLatest(b, k);
    var i :| Shown(a, k, i);
    var w :| Shown(b, k, w);
    WinsInRange(a, i);
    WinsInRange(b, w);
    assert HasLike(c, b, a[i]);
    var j :| 0 <= j < |b| && Undated(c, b[j]) == Undated(c, a[i]);
    UndatedKeepsKey(c, a[i], b[j]);
    assert KeyOf(b[j]) == KeyOf(b[w]);
  }

  /** Tables that cover each other show the same logical rows, whatever the order and multiplicity. */
  lemma CoversShowTheSame(c: Codec, a: seq<EventRow>, b: seq<EventRow>)
    requires SameByKey(c, b) && CoveredBy(c, a, b) && CoveredBy(c, b, a)
    ensures Logical(c, a) == Logical(c, b)
  {
    hide Undated, KeyOf, Final, SameByKey, CoveredBy;
    forall k | k in Final(a) ensures k in Final(b) && Undated(c, Final(a)[k]) == Undated(c, Final(b)[k]) {
      CoveredKey(c, a, b, k);
      CoveredRow(c, a, b, k);
    }
    forall k | k in Final(b) ensures k in Final(a) {
      CoveredKey(c, b, a, k);
    }
    assert Logical(c, a).Keys == Logical(c, b).Keys;
  }

  // ---- redelivered inputs ----------------------------------------------------------------------------

  /** One delivery of a parsed event to the normalizer, and the clock reading it was normalized at. */
  datatype Delivery = Delivery(parsed: Parsed, now: Instant)

  predicate Published(f: Foreign, d: Delivery) {
    Normalize(f, d.parsed, d.now).Some?
  }

  /** The event that is published for a delivery, unless normalizing raises. */
  function Normalized(f: Foreign, d: Delivery): UnifiedEvent {
    Finished(f, d.parsed, d.now)
  }

  /** Two deliveries of one parsed event; the parse may have been repeated at another time, stamped like the
      first. */
  predicate SameInput(a: Delivery, b: Delivery) {
    b.parsed == a.parsed.(parsedAt := b.parsed.parsedAt) && (Stamped(a.parsed.parsedAt) <==> Stamped(b.parsed.parsedAt))
  }

  /** The row a delivery puts into the events table, if it belongs there. */
  function RowOf(f: Foreign, c: Codec, d: Delivery): Option<EventRow> {
    var e := Normalized(f, d);
    if Published(f, d) && Fit(f, e) then MapRow(f, c, e) else None
  }

  lemma RetimedRow(f: Foreign, c: Codec, e: UnifiedEvent, at: Instant)
    requires LawfulCodec(f, c)
    ensures var r, r' := MapRow(f, c, e), MapRow(f, c, Retimed(e, Str(f.utc(at))));
            e.times.Object? && Timestamp(c, e.times.body.normalizedAt).Some? ==>
              && (r.Some? <==> r'.Some?)
              && (r.Some? ==> Undated(c, r.value) == Undated(c, r'.value) && r'.value.normalizedAt == at)
  {
    var e' := Retimed(e, Str(f.utc(at)));
    assert c.loads(c.compact(e)) == Event(e) && c.loads(c.compact(e')) == Event(e');
    assert Retimed(e', Null) == Retimed(e, Null);
    assert c.timestamp(f.utc(at)) == Some(at);
    hide LawfulCodec;
  }

  /** A normalized event always projects to a row, and its key does not depend on when it was normalized. */
  lemma NormalizedHasRow(f: Foreign, c: Codec, d: Delivery)
    requires Lawful(f) && LawfulCodec(f, c)
    ensures var r := MapRow(f, c, Normalized(f, d));
            var m := MapEvent(f, d.parsed.sourcePackId, d.parsed.extracted);
            && r.Some?
            && KeyOf(r.value) == Key(ObservedAt(d.parsed, m), d.parsed.eventId)
            && r.value.rawSha256 == d.parsed.rawEvent.rawSha256
            && r.value.normalizedAt == NormalizedAt(d.parsed, d.now)
  {
    var p := d.parsed;
    var m := MapEvent(f, p.sourcePackId, p.extracted);
    MappingVerdict(f, p);
    AssembledHasRow(f, c, p, m, d.now);
    hide Assemble, MapEvent, SemanticIssues, Lawful, LawfulCodec, WellMapped, Raises;
    var e := Assemble(f, p, m, d.now);
    AssembledQuality(f, p, m, d.now);
    if Issues(f, e) != {} {
      FlaggedHasRow(f, c, e, Issues(f, e));
    }
  }

  lemma AssembledHasRow(f: Foreign, c: Codec, p: Parsed, m: MappingResult, now: Instant)
    requires Lawful(f) && LawfulCodec(f, c) && WellMapped(f, m)
    ensures var r := MapRow(f, c, Assemble(f, p, m, now));
            && r.Some?
            && KeyOf(r.value) == Key(ObservedAt(p, m), p.eventId)
            && r.value.rawSha256 == p.rawEvent.rawSha256
            && r.value.normalizedAt == NormalizedAt(p, now)
  {
    hide Extensions, Unique, SortedSet, Warnings, Missing, RawSection, Strings, QualityStatus, Confidence, ExpectedLabel;
    assert c.timestamp(f.utc(ObservedAt(p, m))) == Some(ObservedAt(p, m));
    assert c.timestamp(f.utc(p.rawEvent.ingestedAt)).Some?;
    assert c.timestamp(f.utc(NormalizedAt(p, now))) == Some(NormalizedAt(p, now));
    assert f.toInt(m.severity.normalized).Some?;
    assert f.text(Str(p.eventId)) == p.eventId;
    hide LawfulCodec, Lawful;
  }

  function IpColumn(f: Foreign, e: Option<Endpoint>): string {
    if e.Some? && e.value.ip != Null then f.text(e.value.ip) else ""
  }

  /** What the searchable columns say about the parsed event and its mapping, and that the retained JSON is
      the whole event. */
  lemma RowShowsMapping(f: Foreign, c: Codec, p: Parsed, m: MappingResult, now: Instant)
    requires Lawful(f) && LawfulCodec(f, c) && WellMapped(f, m)
    ensures var e := Assemble(f, p, m, now);
            var r := MapRow(f, c, e);
            && r.Some?
            && r.value.vendor == NameOr(p.vendor, "unknown") && r.value.product == NameOr(p.product, "unknown")
            && r.value.category == m.category && r.value.eventType == m.eventType
            && Str(r.value.action) == m.action.normalized
            && Int(r.value.severity) == m.severity.normalized && Str(r.value.severityLabel) == m.severity.labelText
            && r.value.rawEventId == p.rawEvent.eventId && r.value.parserName == p.parserId
            && c.loads(r.value.normalizedJson) == Event(e)
  {
    AssembledHasRow(f, c, p, m, now);
    hide Extensions, Unique, SortedSet, Warnings, Missing, RawSection, Strings, QualityStatus, Confidence, ExpectedLabel, Lawful,
      Timestamp, EndpointBody, TextOr, ObservedAt, NormalizedAt, Projectable;
  }

  lemma RowEndpoints(f: Foreign, c: Codec, e: UnifiedEvent, source: Option<Endpoint>, destination: Option<Endpoint>)
    requires MapRow(f, c, e).Some? && e.source == ToSection(source) && e.destination == ToSection(destination)
    ensures var r := MapRow(f, c, e).value;
            && r.sourceIp == IpColumn(f, source) && r.destinationIp == IpColumn(f, destination)
            && r.sourcePort == (if source.Some? then source.value.port else Null)
            && r.destinationPort == (if destination.Some? then destination.value.port else Null)
  {
    hide Timestamp, Projectable;
  }

  lemma AssembledEndpoints(f: Foreign, p: Parsed, m: MappingResult, now: Instant)
    ensures Assemble(f, p, m, now).source == ToSection(m.source)
    ensures Assemble(f, p, m, now).destination == ToSection(m.destination)
  {
    hide ToSection;
  }

  lemma RowShowsEndpoints(f: Foreign, c: Codec, p: Parsed, m: MappingResult, now: Instant)
    requires Lawful(f) && LawfulCodec(f, c) && WellMapped(f, m)
    ensures var r := MapRow(f, c, Assemble(f, p, m, now));
            && r.Some?
            && r.value.sourceIp == IpColumn(f, m.source) && r.value.destinationIp == IpColumn(f, m.destination)
            && r.value.sourcePort == (if m.source.Some? then m.source.value.port else Null)
            && r.value.destinationPort == (if m.destination.Some? then m.destination.value.port else Null)
  {
    hide MapRow, Assemble, Lawful, LawfulCodec, WellMapped, IpColumn, ToSection;
    AssembledHasRow(f, c, p, m, now);
    AssembledEndpoints(f, p, m, now);
    RowEndpoints(f, c, Assemble(f, p, m, now), m.source, m.destination);
  }

  /** The columns of the trace, the envelope's time and the quality. */
  lemma RowShowsTrace(f: Foreign, c: Codec, e: UnifiedEvent, t: Traceability, q: string, ingestedAt: Instant)
    requires LawfulCodec(f, c) && MapRow(f, c, e).Some? && e.traceability == Object(t)
    requires e.quality.Object? && e.quality.body.status == Str(q)
    requires e.times.Object? && e.times.body.ingestedAt == Str(f.utc(ingestedAt))
    ensures var r := MapRow(f, c, e).value;
            && (t.rawEventId.Str? ==> r.rawEventId == t.rawEventId.text)
            && (t.rawSha256.Str? ==> r.rawSha256 == t.rawSha256.text)
            && (t.sourcePackName.Str? ==> r.sourcePackName == t.sourcePackName.text)
            && (t.sourcePackVersion.Str? ==> r.sourcePackVersion == t.sourcePackVersion.text)
            && (t.parserName.Str? ==> r.parserName == t.parserName.text)
            && (t.parserVersion.Str? ==> r.parserVersion == t.parserVersion.text)
            && r.qualityStatus == q && r.ingestedAt == ingestedAt
  {
    assert c.timestamp(f.utc(ingestedAt)) == Some(ingestedAt as int);
    assert forall s: string :: f.text(Str(s)) == s;
    hide LawfulCodec, Projectable, EndpointBody, TextOr;
  }

  /** Two rows are the same up to time exactly when they agree in every column but the time's and hold events that
      differ in their normalization time only. */
  lemma UndatedIff(f: Foreign, c: Codec, a: EventRow, b: EventRow, d: UnifiedEvent, e: UnifiedEvent)
    requires LawfulCodec(f, c) && c.loads(a.normalizedJson) == Event(d) && c.loads(b.normalizedJson) == Event(e)
    ensures Undated(c, a) == Undated(c, b) <==>
            && b == a.(normalizedAt := b.normalizedAt, normalizedJson := b.normalizedJson)
            && Retimed(d, Null) == Retimed(e, Null)
  {
    assert c.loads(c.compact(Retimed(d, Null))) == Event(Retimed(d, Null));
    assert c.loads(c.compact(Retimed(e, Null))) == Event(Retimed(e, Null));
    hide LawfulCodec, Retimed;
  }

  lemma FlaggedHasRow(f: Foreign, c: Codec, e: UnifiedEvent, issues: set<Issue>)
    requires e.quality.Object? && e.quality.body.warnings.List? && MapRow(f, c, e).Some?
    ensures var r, r' := MapRow(f, c, e), MapRow(f, c, Flagged(f, e, issues));
            r'.Some? && KeyOf(r'.value) == KeyOf(r.value) && r'.value.rawSha256 == r.value.rawSha256
            && r'.value.normalizedAt == r.value.normalizedAt
  {
  }

  /** Two deliveries of one parsed event are stored alike, and their rows differ in their time only. */
  lemma RedeliveredRowAgrees(f: Foreign, c: Codec, a: Delivery, b: Delivery)
    requires Lawful(f) && LawfulCodec(f, c) && SchemaIgnoresClock(f)
    requires SameInput(a, b)
    ensures Published(f, a) <==> Published(f, b)
    ensures Fit(f, Normalized(f, a)) <==> Fit(f, Normalized(f, b))
    ensures RowOf(f, c, a).Some? <==> RowOf(f, c, b).Some?
    ensures RowOf(f, c, a).Some? ==> Undated(c, RowOf(f, c, a).value) == Undated(c, RowOf(f, c, b).value)
  {
    var p, q := a.parsed, b.parsed;
    var e := Normalized(f, a);
    NormalizingTwiceDiffersInTimeOnly(f, p, a.now, q.parsedAt, b.now);
    SameFitness(f, p, a.now, q.parsedAt, b.now);
    NormalizedHasRow(f, c, a);
    NormalizedHasRow(f, c, b);
    RetimedRow(f, c, e, NormalizedAt(q, b.now));
    hide Finished, Raises, Fit, LawfulCodec, Lawful, MapEvent, Retimed, Undated, Stamped;
  }
}
