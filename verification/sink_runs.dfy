/** Every run of the sink: insert failures, inserts that fail after storing, exits before the commit,
    redelivery from the committed offset and background merges, in any order. */
module SinkRuns {
  import opened Common
  import opened Contracts
  import opened SemanticValidation
  import opened Normalizer
  import opened EventStore
  import opened EffectivelyOnce

  /** The partitions of the normalized topic. */
  type Logs = seq<seq<Bytes>>

  /** The tables, and the committed offset of each partition, zero when it is missing. */
  datatype State = State(tables: Tables, committed: map<nat, nat>)

  const START := State(Tables([], []), map[])

  function Committed(s: State, p: nat): nat {
    if p in s.committed then s.committed[p] else 0
  }

  datatype Step =
    /** The message at `offset` of partition `p` is processed at clock reading `now`; `commits` says whether the
        commit that follows an acknowledgement takes effect before the process ends. */
    | Deliver(p: nat, offset: nat, answer: Answer, now: int, commits: bool)
    | Merge(row: nat)

  /** Deliveries come from the committed offset on, or repeat earlier ones. */
  predicate Enabled(s: State, logs: Logs, a: Step) {
    match a
    case Deliver(p, offset, _, _, _) => p < |logs| && offset <= Committed(s, p) && offset < |logs[p]|
    case Merge(row) => Superseded(s.tables.events, row)
  }

  function Next(f: Foreign, c: Codec, s: State, logs: Logs, a: Step): State
    requires Enabled(s, logs, a)
  {
    match a
    case Merge(row) => s.(tables := s.tables.(events := Without(s.tables.events, row)))
    case Deliver(p, offset, answer, now, commits) =>
      var placed := Placement(f, c, logs[p][offset], now);
      if placed.None? then s
      else
        State(
          Written(s.tables, placed.value, answer, answer),
          if Decided(f, c, logs[p][offset], answer).acknowledge && commits && offset == Committed(s, p) then
            s.committed[p := offset + 1]
          else s.committed)
  }

  /** The sink worker and the offsets its consumer has committed. */
  class KafkaSinkWorker {
    const processor: ClickHouseSinkProcessor
    var committed: map<nat, nat>

    constructor (processor: ClickHouseSinkProcessor)
      ensures this.processor == processor && committed == map[]
    {
      this.processor := processor;
      committed := map[];
    }

    function View(): State
      reads this, processor.store.client
    {
      State(processor.store.client.View(), committed)
    }

    /** `process_one`: store the value, then commit its offset only if the store acknowledged it. The answer is
        `None` when an exception leaves the method; a commit that does not take effect raises. */
    method ProcessOne(
      f: Foreign, c: Codec, logs: Logs, p: nat, offset: nat, answer: Answer, now: int, commits: bool)
      returns (kept: Option<bool>)
      requires Enabled(View(), logs, Deliver(p, offset, answer, now, commits))
      modifies this, processor.store.client
      ensures View() == Next(f, c, old(View()), logs, Deliver(p, offset, answer, now, commits))
      ensures kept == Some(true) <==>
                commits && Placement(f, c, logs[p][offset], now).Some? && Decided(f, c, logs[p][offset], answer).acknowledge
      ensures kept == Some(false) <==>
                Placement(f, c, logs[p][offset], now).Some? && !Decided(f, c, logs[p][offset], answer).acknowledge
    {
      hide Placement, Written, Decided;
      var decision := processor.Process(f, c, logs[p][offset], now, answer);
      if decision.None? {
        return None;
      }
      if !decision.value.acknowledge {
        return Some(false);
      }
      if !commits {
        return None;
      }
      if offset == (if p in committed then committed[p] else 0) {
        committed := committed[p := offset + 1];
      }
      kept := Some(true);
    }
  }

  function After(f: Foreign, c: Codec, logs: Logs, steps: seq<Step>): Option<State> {
    if steps == [] then Some(START)
    else
      var before := After(f, c, logs, steps[..|steps| - 1]);
      var a := steps[|steps| - 1];
      if before.Some? && Enabled(before.value, logs, a) then Some(Next(f, c, before.value, logs, a)) else None
  }

  /** The row a payload has in the events table, and the text it has in quarantine. */
  function StoredRow(f: Foreign, c: Codec, payload: Bytes): Option<EventRow> {
    match c.decode(payload)
    case Event(e) => if Fit(f, e) then MapRow(f, c, e) else None
    case _ => None
  }

  function QuarantineText(f: Foreign, c: Codec, payload: Bytes): Option<string> {
    match c.decode(payload)
    case Event(e) => if Fit(f, e) then None else Some(c.compact(e))
    case Unloadable => None
    case _ => Some(c.replaceDecode(payload))
  }

  predicate HasKey(rows: seq<EventRow>, k: Key) {
    exists i :: 0 <= i < |rows| && KeyOf(rows[i]) == k
  }

  predicate HasText(rows: seq<QuarantineRow>, text: string) {
    exists i :: 0 <= i < |rows| && rows[i].payloadJson == text
  }

  predicate InLogs(logs: Logs, payload: Bytes) {
    exists p :: 0 <= p < |logs| && payload in logs[p]
  }

  predicate FromLog(f: Foreign, c: Codec, logs: Logs, r: EventRow) {
    exists p, j :: 0 <= p < |logs| && 0 <= j < |logs[p]| && StoredRow(f, c, logs[p][j]) == Some(r)
  }

  /** A payload that has its row or its quarantine entry. */
  predicate Kept(f: Foreign, c: Codec, t: Tables, payload: Bytes) {
    var row, text := StoredRow(f, c, payload), QuarantineText(f, c, payload);
    || (row.Some? && HasKey(t.events, KeyOf(row.value)))
    || (text.Some? && HasText(t.quarantine, text.value))
  }

  predicate Inv(f: Foreign, c: Codec, logs: Logs, s: State) {
    && (forall p :: 0 <= p < |logs| ==> Committed(s, p) <= |logs[p]|)
    && (forall i :: 0 <= i < |s.tables.events| ==> FromLog(f, c, logs, s.tables.events[i]))
    && (forall p, j :: 0 <= p < |logs| && 0 <= j < Committed(s, p) ==> Kept(f, c, s.tables, logs[p][j]))
  }

  /** Every partition is committed to its end. */
  predicate Drained(logs: Logs, s: State) {
    forall p :: 0 <= p < |logs| ==> Committed(s, p) == |logs[p]|
  }

  // ---- one step --------------------------------------------------------------------------------------

  /** A payload is stored in exactly one of the two tables. */
  lemma PlacedOnce(f: Foreign, c: Codec, payload: Bytes, now: int)
    requires Placement(f, c, payload, now).Some?
    ensures var s := Placement(f, c, payload, now).value;
            || (StoredRow(f, c, payload).Some? && QuarantineText(f, c, payload).None?
                && s == Split([StoredRow(f, c, payload).value], []))
            || (StoredRow(f, c, payload).None? && QuarantineText(f, c, payload).Some?
                && s.rows == [] && |s.bad| == 1 && s.bad[0].payloadJson == QuarantineText(f, c, payload).value)
  {
    hide Fit, MapRow, Codes;
  }

  lemma GrowingKeeps(f: Foreign, c: Codec, t: Tables, t': Tables, payload: Bytes)
    requires Kept(f, c, t, payload) && t.events <= t'.events && t.quarantine <= t'.quarantine
    ensures Kept(f, c, t', payload)
  {
    hide StoredRow, QuarantineText, KeyOf;
    var row, text := StoredRow(f, c, payload), QuarantineText(f, c, payload);
    if row.Some? && HasKey(t.events, KeyOf(row.value)) {
      var i :| 0 <= i < |t.events| && KeyOf(t.events[i]) == KeyOf(row.value);
      assert t'.events[i] == t.events[i];
    } else {
      var i :| 0 <= i < |t.quarantine| && t.quarantine[i].payloadJson == text.value;
      assert t'.quarantine[i] == t.quarantine[i];
    }
  }

  /** What an acknowledged payload leaves behind. */
  lemma AcknowledgedIsKept(f: Foreign, c: Codec, t: Tables, payload: Bytes, answer: Answer, now: int)
    requires Placement(f, c, payload, now).Some? && Decided(f, c, payload, answer).acknowledge
    ensures Kept(f, c, Written(t, Placement(f, c, payload, now).value, answer, answer), payload)
  {
    hide StoredRow, QuarantineText, KeyOf, Placement;
    PlacedOnce(f, c, payload, now);
    var s := Placement(f, c, payload, now).value;
    var t' := Written(t, s, answer, answer);
    if s.rows != [] {
      assert t'.events[|t.events|] == s.rows[0];
    } else {
      assert t'.quarantine[|t.quarantine|] == s.bad[0];
    }
  }

  lemma DeliverKeepsInv(f: Foreign, c: Codec, s: State, logs: Logs, a: Step)
    requires Inv(f, c, logs, s) && a.Deliver? && Enabled(s, logs, a)
    ensures Inv(f, c, logs, Next(f, c, s, logs, a))
  {
    hide StoredRow, QuarantineText, KeyOf, Placement, Kept, Decided, FromLog;
    var payload, s' := logs[a.p][a.offset], Next(f, c, s, logs, a);
    if Placement(f, c, payload, a.now).Some? {
      DeliveredRowsAreLogged(f, c, s, logs, a);
      forall q, j | 0 <= q < |logs| && 0 <= j < Committed(s', q) ensures Kept(f, c, s'.tables, logs[q][j]) {
        if j < Committed(s, q) {
          GrowingKeeps(f, c, s.tables, s'.tables, logs[q][j]);
        } else {
          AcknowledgedIsKept(f, c, s.tables, payload, a.answer, a.now);
        }
      }
    }
  }

  lemma DeliveredRowsAreLogged(f: Foreign, c: Codec, s: State, logs: Logs, a: Step)
    requires Inv(f, c, logs, s) && a.Deliver? && Enabled(s, logs, a)
    requires Placement(f, c, logs[a.p][a.offset], a.now).Some?
    ensures var s' := Next(f, c, s, logs, a);
            forall i :: 0 <= i < |s'.tables.events| ==> FromLog(f, c, logs, s'.tables.events[i])
  {
    hide StoredRow, QuarantineText, KeyOf, Placement, Kept, Decided;
    var payload, s' := logs[a.p][a.offset], Next(f, c, s, logs, a);
    var split := Placement(f, c, payload, a.now).value;
    PlacedOnce(f, c, payload, a.now);
    forall i | 0 <= i < |s'.tables.events| ensures FromLog(f, c, logs, s'.tables.events[i]) {
      if i >= |s.tables.events| {
        assert s'.tables.events[i] == split.rows[0];
      } else {
        assert s'.tables.events[i] == s.tables.events[i];
      }
    }
  }

  lemma MergeKeepsInv(f: Foreign, c: Codec, s: State, logs: Logs, row: nat)
    requires Inv(f, c, logs, s) && Superseded(s.tables.events, row)
    ensures Inv(f, c, logs, s.(tables := s.tables.(events := Without(s.tables.events, row))))
  {
    hide StoredRow, QuarantineText, FromLog;
    var rows, rest := s.tables.events, Without(s.tables.events, row);
    forall i | 0 <= i < |rest| ensures FromLog(f, c, logs, rest[i]) {
      assert rest[i] == rows[if i < row then i else i + 1];
    }
    forall k | HasKey(rows, k) ensures HasKey(rest, k) {
      MergeKeepsKey(rows, row, k);
    }
    hide HasKey, HasText;
  }

  lemma MergeKeepsKey(rows: seq<EventRow>, row: nat, k: Key)
    requires Superseded(rows, row) && HasKey(rows, k)
    ensures HasKey(Without(rows, row), k)
  {
    hide KeyOf;
    var rest := Without(rows, row);
    var i :| 0 <= i < |rows| && KeyOf(rows[i]) == k;
    var newer :| 0 <= newer < |rows| && Hides(rows, newer, row);
    var keeper := if i == row then newer else i;
    assert keeper != row;
    assert rest[if keeper < row then keeper else keeper - 1] == rows[keeper];
  }

  /** In every run, whatever was committed is in the events table or in quarantine, and the events table holds
      nothing but rows of the topic. */
  lemma {:induction false} RunsKeepInv(f: Foreign, c: Codec, logs: Logs, steps: seq<Step>)
    requires After(f, c, logs, steps).Some?
    ensures Inv(f, c, logs, After(f, c, logs, steps).value)
  {
    hide Inv, Next;
    if steps == [] {
      StartIsInv(f, c, logs);
    } else {
      var front, a := steps[..|steps| - 1], steps[|steps| - 1];
      RunsKeepInv(f, c, logs, front);
      var s := After(f, c, logs, front).value;
      match a
      case Deliver(_, _, _, _, _) => DeliverKeepsInv(f, c, s, logs, a);
      case Merge(row) => MergeStep(f, c, s, logs, row);
    }
  }

  lemma StartIsInv(f: Foreign, c: Codec, logs: Logs)
    ensures Inv(f, c, logs, START)
  {
  }

  lemma MergeStep(f: Foreign, c: Codec, s: State, logs: Logs, row: nat)
    requires Inv(f, c, logs, s) && Enabled(s, logs, Merge(row))
    ensures Inv(f, c, logs, Next(f, c, s, logs, Merge(row)))
  {
    MergeKeepsInv(f, c, s, logs, row);
  }

  // ---- redelivery is harmless --------------------------------------------------------------------------

  /** The rows of one delivery of each, in order. */
  function RowsOf(f: Foreign, c: Codec, ds: seq<Delivery>): seq<EventRow> {
    if ds == [] then []
    else
      hide RowOf;
      var row := RowOf(f, c, ds[|ds| - 1]);
      RowsOf(f, c, ds[..|ds| - 1]) + (if row.Some? then [row.value] else [])
  }

  lemma {:induction false} RowsOfElements(f: Foreign, c: Codec, ds: seq<Delivery>)
    ensures forall r :: r in RowsOf(f, c, ds) <==> exists i :: 0 <= i < |ds| && RowOf(f, c, ds[i]) == Some(r)
  {
    hide RowOf;
    if ds != [] {
      RowsOfElements(f, c, ds[..|ds| - 1]);
    }
  }

  /** The topic holds, on whatever partitions, in whatever order and however often, exactly what the normalizer
      published for the deliveries. */
  ghost predicate Publishes(f: Foreign, c: Codec, logs: Logs, ds: seq<Delivery>) {
    && (forall i :: 0 <= i < |ds| && Published(f, ds[i]) ==> InLogs(logs, c.encode(Normalized(f, ds[i]))))
    && (forall p, j :: 0 <= p < |logs| && 0 <= j < |logs[p]| ==> PublishedFor(f, c, ds, logs[p][j]))
  }

  ghost predicate PublishedFor(f: Foreign, c: Codec, ds: seq<Delivery>, payload: Bytes) {
    exists i :: 0 <= i < |ds| && Published(f, ds[i]) && payload == c.encode(Normalized(f, ds[i]))
  }

  /** An event id names one parsed event, however often it was parsed, normalized or delivered. */
  predicate IdsAreUnique(ds: seq<Delivery>) {
    forall i, j :: 0 <= i < |ds| && 0 <= j < |ds| && ds[i].parsed.eventId == ds[j].parsed.eventId ==> SameInput(ds[i], ds[j])
  }

  /** Every delivery in `a` is a delivery of some event that `b` delivers. */
  predicate Within(a: seq<Delivery>, b: seq<Delivery>) {
    forall i :: 0 <= i < |a| ==> exists j :: 0 <= j < |b| && SameInput(a[i], b[j])
  }

  lemma LikeIsListed(c: Codec, rows: seq<EventRow>, a: EventRow, r: EventRow)
    requires a in rows && Undated(c, a) == Undated(c, r)
    ensures HasLike(c, rows, r)
  {
    hide Undated;
    var j :| 0 <= j < |rows| && rows[j] == a;
    assert Undated(c, rows[j]) == Undated(c, r);
  }

  lemma WithinIsCovered(f: Foreign, c: Codec, a: seq<Delivery>, b: seq<Delivery>)
    requires Lawful(f) && LawfulCodec(f, c) && SchemaIgnoresClock(f) && Within(a, b)
    ensures CoveredBy(c, RowsOf(f, c, a), RowsOf(f, c, b))
  {
    hide RowOf, RowsOf, SameInput, Undated, HasLike, Lawful, LawfulCodec, SchemaIgnoresClock, Finished, Raises, Fit, MapRow;
    var rows, others := RowsOf(f, c, a), RowsOf(f, c, b);
    RowsOfElements(f, c, a);
    RowsOfElements(f, c, b);
    forall x | 0 <= x < |rows| ensures HasLike(c, others, rows[x]) {
      assert rows[x] in rows;
      var i :| 0 <= i < |a| && RowOf(f, c, a[i]) == Some(rows[x]);
      var j :| 0 <= j < |b| && SameInput(a[i], b[j]);
      RedeliveredRowAgrees(f, c, a[i], b[j]);
      LikeIsListed(c, others, RowOf(f, c, b[j]).value, rows[x]);
    }
  }

  lemma UniqueIdsGiveSameRows(f: Foreign, c: Codec, ds: seq<Delivery>)
    requires Lawful(f) && LawfulCodec(f, c) && SchemaIgnoresClock(f) && IdsAreUnique(ds)
    ensures SameByKey(c, RowsOf(f, c, ds))
  {
    hide RowOf, RowsOf, SameInput, Undated, KeyOf, Lawful, LawfulCodec, SchemaIgnoresClock;
    var rows := RowsOf(f, c, ds);
    RowsOfElements(f, c, ds);
    forall x, y | 0 <= x < |rows| && 0 <= y < |rows| && KeyOf(rows[x]) == KeyOf(rows[y])
      ensures Undated(c, rows[x]) == Undated(c, rows[y])
    {
      assert rows[x] in rows && rows[y] in rows;
      var i :| 0 <= i < |ds| && RowOf(f, c, ds[i]) == Some(rows[x]);
      var j :| 0 <= j < |ds| && RowOf(f, c, ds[j]) == Some(rows[y]);
      RowHasItsId(f, c, ds[i]);
      RowHasItsId(f, c, ds[j]);
      RedeliveredRowAgrees(f, c, ds[i], ds[j]);
    }
  }

  lemma RowHasItsId(f: Foreign, c: Codec, d: Delivery)
    requires Lawful(f) && LawfulCodec(f, c) && RowOf(f, c, d).Some?
    ensures KeyOf(RowOf(f, c, d).value).eventId == d.parsed.eventId
  {
    hide Finished, Raises, Lawful, LawfulCodec, Fit, MapRow;
    NormalizedHasRow(f, c, d);
  }

  /** Any redelivery, in any order and multiplicity and at any clock readings, shows the same logical rows. */
  lemma RedeliveryIsHarmless(f: Foreign, c: Codec, ds: seq<Delivery>, once: seq<Delivery>)
    requires Lawful(f) && LawfulCodec(f, c) && SchemaIgnoresClock(f)
    requires IdsAreUnique(once) && Within(ds, once) && Within(once, ds)
    ensures Logical(c, RowsOf(f, c, ds)) == Logical(c, RowsOf(f, c, once))
  {
    hide RowsOf, SameInput, Logical, SameByKey, CoveredBy, Lawful, LawfulCodec, SchemaIgnoresClock;
    WithinIsCovered(f, c, ds, once);
    WithinIsCovered(f, c, once, ds);
    UniqueIdsGiveSameRows(f, c, once);
    CoversShowTheSame(c, RowsOf(f, c, ds), RowsOf(f, c, once));
  }

  lemma PublishedRow(f: Foreign, c: Codec, d: Delivery)
    requires Lawful(f) && LawfulCodec(f, c) && Published(f, d)
    ensures var payload := c.encode(Normalized(f, d));
            && StoredRow(f, c, payload) == RowOf(f, c, d)
            && (QuarantineText(f, c, payload).None? <==> RowOf(f, c, d).Some?)
  {
    hide Finished, Fit, MapRow, Lawful, Raises;
    NormalizedHasRow(f, c, d);
    assert c.decode(c.encode(Normalized(f, d))) == Event(Normalized(f, d));
    hide LawfulCodec;
  }

  /** After any run that commits the whole topic, queries see exactly what one delivery of each event would
      have stored, up to the normalization time. */
  lemma EffectivelyOnceOverRuns(
      f: Foreign, c: Codec, logs: Logs, ds: seq<Delivery>, steps: seq<Step>, once: seq<Delivery>)
    requires Lawful(f) && LawfulCodec(f, c) && SchemaIgnoresClock(f)
    requires IdsAreUnique(once) && Within(ds, once) && Within(once, ds)
    requires Publishes(f, c, logs, ds) && After(f, c, logs, steps).Some?
    requires Drained(logs, After(f, c, logs, steps).value)
    ensures Logical(c, After(f, c, logs, steps).value.tables.events) == Logical(c, RowsOf(f, c, once))
  {
    hide After, Lawful, LawfulCodec, SchemaIgnoresClock, Logical, SameInput, RowsOf, Publishes, SameByKey, CoveredBy, Drained, Inv;
    var s := After(f, c, logs, steps).value;
    RunsKeepInv(f, c, logs, steps);
    RedeliveryIsHarmless(f, c, ds, once);
    IdsStayUnique(ds, once);
    UniqueIdsGiveSameRows(f, c, ds);
    TableIsCovered(f, c, logs, ds, s);
    RowsAreCovered(f, c, logs, ds, s);
    CoversShowTheSame(c, s.tables.events, RowsOf(f, c, ds));
  }

  lemma IdsStayUnique(ds: seq<Delivery>, once: seq<Delivery>)
    requires IdsAreUnique(once) && Within(ds, once)
    ensures IdsAreUnique(ds)
  {
    forall i, j | 0 <= i < |ds| && 0 <= j < |ds| && ds[i].parsed.eventId == ds[j].parsed.eventId
      ensures SameInput(ds[i], ds[j])
    {
      var x :| 0 <= x < |once| && SameInput(ds[i], once[x]);
      var y :| 0 <= y < |once| && SameInput(ds[j], once[y]);
      assert SameInput(once[x], once[y]);
    }
  }

  lemma TableRowIsListed(f: Foreign, c: Codec, logs: Logs, ds: seq<Delivery>, r: EventRow)
    requires Lawful(f) && LawfulCodec(f, c) && Publishes(f, c, logs, ds) && FromLog(f, c, logs, r)
    ensures r in RowsOf(f, c, ds)
  {
    hide Lawful, LawfulCodec, RowOf, StoredRow, QuarantineText, RowsOf, Published, Normalized;
    RowsOfElements(f, c, ds);
    var p, j :| 0 <= p < |logs| && 0 <= j < |logs[p]| && StoredRow(f, c, logs[p][j]) == Some(r);
    assert PublishedFor(f, c, ds, logs[p][j]);
    var i :| 0 <= i < |ds| && Published(f, ds[i]) && logs[p][j] == c.encode(Normalized(f, ds[i]));
    PublishedRow(f, c, ds[i]);
  }

  lemma ListedRowIsKept(f: Foreign, c: Codec, logs: Logs, ds: seq<Delivery>, s: State, r: EventRow)
    requires Lawful(f) && LawfulCodec(f, c) && Publishes(f, c, logs, ds) && Inv(f, c, logs, s) && Drained(logs, s)
    requires r in RowsOf(f, c, ds)
    ensures HasKey(s.tables.events, KeyOf(r))
  {
    hide Lawful, LawfulCodec, RowOf, StoredRow, QuarantineText, RowsOf, KeyOf, HasKey, HasText, Normalized, Published;
    RowsOfElements(f, c, ds);
    var i :| 0 <= i < |ds| && RowOf(f, c, ds[i]) == Some(r);
    RowIsPublished(f, c, ds[i]);
    PublishedRow(f, c, ds[i]);
    var payload := c.encode(Normalized(f, ds[i]));
    assert InLogs(logs, payload);
    var p :| 0 <= p < |logs| && payload in logs[p];
    var j :| 0 <= j < |logs[p]| && logs[p][j] == payload;
    assert Kept(f, c, s.tables, logs[p][j]);
  }

  lemma RowIsPublished(f: Foreign, c: Codec, d: Delivery)
    requires RowOf(f, c, d).Some?
    ensures Published(f, d)
  {
    hide Finished, Raises, Fit, MapRow, Normalized;
  }

  lemma TableIsCovered(f: Foreign, c: Codec, logs: Logs, ds: seq<Delivery>, s: State)
    requires Lawful(f) && LawfulCodec(f, c) && Publishes(f, c, logs, ds) && Inv(f, c, logs, s)
    ensures CoveredBy(c, s.tables.events, RowsOf(f, c, ds))
  {
    hide Lawful, LawfulCodec, Publishes, RowsOf, Undated, KeyOf, FromLog, Kept, HasLike;
    var rows, events := RowsOf(f, c, ds), s.tables.events;
    forall x | 0 <= x < |events| ensures HasLike(c, rows, events[x]) {
      TableRowIsListed(f, c, logs, ds, events[x]);
      LikeIsListed(c, rows, events[x], events[x]);
    }
  }

  lemma RowsAreCovered(f: Foreign, c: Codec, logs: Logs, ds: seq<Delivery>, s: State)
    requires Lawful(f) && LawfulCodec(f, c) && SameByKey(c, RowsOf(f, c, ds))
    requires Publishes(f, c, logs, ds) && Inv(f, c, logs, s) && Drained(logs, s)
    ensures CoveredBy(c, RowsOf(f, c, ds), s.tables.events)
  {
    hide Lawful, LawfulCodec, Publishes, RowsOf, Undated, KeyOf, FromLog, Kept, SameByKey, HasLike, Drained;
    var rows, events := RowsOf(f, c, ds), s.tables.events;
    forall y | 0 <= y < |rows| ensures HasLike(c, events, rows[y]) {
      assert rows[y] in rows;
      ListedRowIsKept(f, c, logs, ds, s, rows[y]);
      var x :| 0 <= x < |events| && KeyOf(events[x]) == KeyOf(rows[y]);
      TableRowIsListed(f, c, logs, ds, events[x]);
      ListedRowsAgree(c, rows, rows[y], events[x]);
      LikeIsListed(c, events, events[x], rows[y]);
    }
  }

  lemma ListedRowsAgree(c: Codec, rows: seq<EventRow>, a: EventRow, b: EventRow)
    requires SameByKey(c, rows) && a in rows && b in rows && KeyOf(a) == KeyOf(b)
    ensures Undated(c, a) == Undated(c, b)
  {
    hide Undated, KeyOf;
    var i :| 0 <= i < |rows| && rows[i] == a;
    var j :| 0 <= j < |rows| && rows[j] == b;
    assert Undated(c, rows[i]) == Undated(c, rows[j]);
  }

  /** After such a run every event that belongs in the table can be read back whole: what queries see under
      its key is that event, up to the normalization time. */
  lemma EveryEventCanBeRead(f: Foreign, c: Codec, logs: Logs, ds: seq<Delivery>, steps: seq<Step>, i: nat)
    requires Lawful(f) && LawfulCodec(f, c) && SchemaIgnoresClock(f) && IdsAreUnique(ds)
    requires Publishes(f, c, logs, ds) && After(f, c, logs, steps).Some?
    requires Drained(logs, After(f, c, logs, steps).value)
    requires i < |ds| && RowOf(f, c, ds[i]).Some?
    ensures var seen, k := Final(After(f, c, logs, steps).value.tables.events), KeyOf(RowOf(f, c, ds[i]).value);
            && k in seen
            && exists e :: c.loads(seen[k].normalizedJson) == Event(e) && Retimed(e, Null) == Retimed(Normalized(f, ds[i]), Null)
  {
    hide After, Lawful, LawfulCodec, SchemaIgnoresClock, RowOf, RowsOf, Publishes, KeyOf, Inv, Final, Shown, Wins, Finished, Fit,
      MapRow, Drained, FromLog, Raises;
    var row := RowOf(f, c, ds[i]).value;
    var s := After(f, c, logs, steps).value;
    RunsKeepInv(f, c, logs, steps);
    RowsOfElements(f, c, ds);
    ListedRowIsKept(f, c, logs, ds, s, row);
    FinalIsLatest(s.tables.events, KeyOf(row));
    var w :| Shown(s.tables.events, KeyOf(row), w);
    ShownRow(s.tables.events, KeyOf(row), w);
    var seen := s.tables.events[w];
    InvFromLog(f, c, logs, s, w);
    TableRowIsListed(f, c, logs, ds, seen);
    var j :| 0 <= j < |ds| && RowOf(f, c, ds[j]) == Some(seen);
    SameKeySameInput(f, c, ds, i, j);
    SeenEvent(f, c, ds[i], ds[j]);
  }

  lemma ShownRow(rows: seq<EventRow>, k: Key, w: int)
    requires Shown(rows, k, w)
    ensures 0 <= w < |rows| && k in Final(rows) && Final(rows)[k] == rows[w] && KeyOf(rows[w]) == k
  {
  }

  lemma InvFromLog(f: Foreign, c: Codec, logs: Logs, s: State, i: nat)
    requires Inv(f, c, logs, s) && i < |s.tables.events|
    ensures FromLog(f, c, logs, s.tables.events[i])
  {
  }

  lemma SameKeySameInput(f: Foreign, c: Codec, ds: seq<Delivery>, i: nat, j: nat)
    requires Lawful(f) && LawfulCodec(f, c) && IdsAreUnique(ds) && i < |ds| && j < |ds|
    requires RowOf(f, c, ds[i]).Some? && RowOf(f, c, ds[j]).Some?
    requires KeyOf(RowOf(f, c, ds[i]).value) == KeyOf(RowOf(f, c, ds[j]).value)
    ensures SameInput(ds[i], ds[j])
  {
    hide RowOf, Lawful, LawfulCodec, SameInput, Finished, Raises, Fit, MapRow;
    RowHasItsId(f, c, ds[i]);
    RowHasItsId(f, c, ds[j]);
  }

  lemma SeenEvent(f: Foreign, c: Codec, a: Delivery, b: Delivery)
    requires Lawful(f) && LawfulCodec(f, c) && SchemaIgnoresClock(f) && SameInput(a, b) && RowOf(f, c, b).Some?
    ensures c.loads(RowOf(f, c, b).value.normalizedJson) == Event(Normalized(f, b))
    ensures Retimed(Normalized(f, b), Null) == Retimed(Normalized(f, a), Null)
  {
    hide Finished, Raises, Fit, Lawful, SchemaIgnoresClock, Projectable;
    var e := Normalized(f, b);
    assert c.loads(c.compact(e)) == Event(e);
    hide LawfulCodec;
    NormalizingTwiceDiffersInTimeOnly(f, a.parsed, a.now, b.parsed.parsedAt, b.now);
  }

  // ---- draining ----------------------------------------------------------------------------------------

  /** A value that the sink can load and, if it is fit, project. */
  predicate Storable(f: Foreign, c: Codec, payload: Bytes) {
    StoredRow(f, c, payload).Some? || QuarantineText(f, c, payload).Some?
  }

  lemma StorableIffPlaced(f: Foreign, c: Codec, payload: Bytes, now: int)
    ensures Storable(f, c, payload) <==> Placement(f, c, payload, now).Some?
  {
    hide Fit, MapRow, Quarantined;
  }

  lemma AfterOne(f: Foreign, c: Codec, logs: Logs, steps: seq<Step>, a: Step)
    requires After(f, c, logs, steps).Some? && Enabled(After(f, c, logs, steps).value, logs, a)
    ensures After(f, c, logs, steps + [a]) == Some(Next(f, c, After(f, c, logs, steps).value, logs, a))
  {
    assert (steps + [a])[..|steps|] == steps;
  }

  /** One more delivery, acknowledged and committed. */
  lemma CanDeliverNext(f: Foreign, c: Codec, logs: Logs, steps: seq<Step>, p: nat, now: int) returns (a: Step)
    requires After(f, c, logs, steps).Some? && p < |logs|
    requires var s := After(f, c, logs, steps).value;
             Committed(s, p) < |logs[p]| && Storable(f, c, logs[p][Committed(s, p)])
    ensures After(f, c, logs, steps + [a]).Some?
    ensures var s, s' := After(f, c, logs, steps).value, After(f, c, logs, steps + [a]).value;
            s'.committed == s.committed[p := Committed(s, p) + 1]
  {
    hide Placement, After, Storable, Written;
    var s := After(f, c, logs, steps).value;
    a := Deliver(p, Committed(s, p), Inserted, now, true);
    StorableIffPlaced(f, c, logs[p][Committed(s, p)], now);
    AfterOne(f, c, logs, steps, a);
  }

  lemma {:induction false} PartitionCanBeDrained(f: Foreign, c: Codec, logs: Logs, steps: seq<Step>, p: nat, now: int)
    returns (more: seq<Step>)
    requires After(f, c, logs, steps).Some? && p < |logs| && Committed(After(f, c, logs, steps).value, p) <= |logs[p]|
    requires forall j :: 0 <= j < |logs[p]| ==> Storable(f, c, logs[p][j])
    ensures After(f, c, logs, steps + more).Some?
    ensures var s, s' := After(f, c, logs, steps).value, After(f, c, logs, steps + more).value;
            Committed(s', p) == |logs[p]| && forall q: nat :: q != p ==> Committed(s', q) == Committed(s, q)
    decreases |logs[p]| - Committed(After(f, c, logs, steps).value, p)
  {
    hide After, Storable;
    if Committed(After(f, c, logs, steps).value, p) == |logs[p]| {
      more := [];
      assert steps + more == steps;
    } else {
      var a := CanDeliverNext(f, c, logs, steps, p, now);
      var rest := PartitionCanBeDrained(f, c, logs, steps + [a], p, now);
      more := [a] + rest;
      assert steps + more == (steps + [a]) + rest;
    }
  }

  lemma {:induction false} FirstCanBeDrained(f: Foreign, c: Codec, logs: Logs, steps: seq<Step>, n: nat, now: int)
    returns (more: seq<Step>)
    requires After(f, c, logs, steps).Some? && n <= |logs|
    requires forall p, j :: 0 <= p < |logs| && 0 <= j < |logs[p]| ==> Storable(f, c, logs[p][j])
    ensures After(f, c, logs, steps + more).Some?
    ensures forall p :: 0 <= p < n ==> Committed(After(f, c, logs, steps + more).value, p) == |logs[p]|
  {
    hide After, Storable, Inv;
    if n == 0 {
      more := [];
      assert steps + more == steps;
    } else {
      var first := FirstCanBeDrained(f, c, logs, steps, n - 1, now);
      RunsKeepInv(f, c, logs, steps + first);
      assert Committed(After(f, c, logs, steps + first).value, n - 1) <= |logs[n - 1]| by {
        CommittedInLog(f, c, logs, After(f, c, logs, steps + first).value);
      }
      var rest := PartitionCanBeDrained(f, c, logs, steps + first, n - 1, now);
      more := first + rest;
      assert steps + more == (steps + first) + rest;
    }
  }

  lemma CommittedInLog(f: Foreign, c: Codec, logs: Logs, s: State)
    requires Inv(f, c, logs, s)
    ensures forall p :: 0 <= p < |logs| ==> Committed(s, p) <= |logs[p]|
  {
  }

  /** Whatever has failed so far, a run can still commit the whole topic, if every value can be stored. */
  lemma CanBeDrained(f: Foreign, c: Codec, logs: Logs, steps: seq<Step>, now: int) returns (more: seq<Step>)
    requires After(f, c, logs, steps).Some?
    requires forall p, j :: 0 <= p < |logs| && 0 <= j < |logs[p]| ==> Storable(f, c, logs[p][j])
    ensures After(f, c, logs, steps + more).Some? && Drained(logs, After(f, c, logs, steps + more).value)
  {
    hide After, Storable;
    more := FirstCanBeDrained(f, c, logs, steps, |logs|, now);
  }

  /** And no run commits past a value that cannot be. */
  lemma UnstorableIsNeverPassed(f: Foreign, c: Codec, logs: Logs, steps: seq<Step>, p: nat, j: nat)
    requires After(f, c, logs, steps).Some? && p < |logs| && j < |logs[p]| && !Storable(f, c, logs[p][j])
    ensures Committed(After(f, c, logs, steps).value, p) <= j
  {
    hide After, StoredRow, QuarantineText, FromLog;
    RunsKeepInv(f, c, logs, steps);
    assert !Kept(f, c, After(f, c, logs, steps).value.tables, logs[p][j]);
  }
}
