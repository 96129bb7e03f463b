/** From the collector to the tables: the state machine of the whole pipeline and the runs of the sink's store,
    put together. */
module EndToEnd {
  import opened Common
  import opened Contracts
  import opened UnifiedEvents
  import opened Processors
  import opened RetryWorker
  import opened PipelineWorld
  import opened PipelineSafety
  import opened StageLaws
  import S = EventStore
  import K = SinkRuns
  import O = EffectivelyOnce
  import N = Normalizer
  import V = SemanticValidation

  function SinkInput(p: nat): PartitionId {
    PartitionId(NormalizedEvent, p)
  }

  function SinkCommitted(logs: K.Logs, s: K.State, p: nat): nat {
    if p < |logs| then K.Committed(s, p) else 0
  }

  /** The sink reads the partitions of the normalized topic, and the offsets committed there are its own. */
  ghost predicate SinkReads(w: World, logs: K.Logs, s: K.State) {
    && (forall p: nat, j: nat :: p < |logs| && j < |logs[p]| ==>
          InLog(w, Position(SinkInput(p), j)) && EntryAt(w, Position(SinkInput(p), j)).value == Some(logs[p][j]))
    && (forall p: nat :: Committed(w, SinkInput(p)) <= SinkCommitted(logs, s, p))
  }

  /** The payload is a normalized event about `id` and `sha`, and the table that the pipeline has the sink write
      it to holds a row of its key or its text. */
  predicate InTables(c: Config, f: V.Foreign, k: S.Codec, t: S.Tables, payload: Bytes, id: string, sha: string) {
    var loaded := k.decode(payload);
    && loaded.Event? && Identity(loaded.event) == Some((id, sha))
    && (|| (SinkTable(c, payload) == Some(EventsTable)
            && S.MapRow(f, k, loaded.event).Some?
            && K.HasKey(t.events, O.KeyOf(S.MapRow(f, k, loaded.event).value))
            && S.MapRow(f, k, loaded.event).value.eventId == id
            && S.MapRow(f, k, loaded.event).value.rawSha256 == sha)
        || (SinkTable(c, payload) == Some(QuarantineTable)
            && K.HasText(t.quarantine, k.compact(loaded.event))))
  }

  /** A record that is a dead letter, is still to be processed, or is a normalized event in the tables. */
  predicate Accounted(
    c: Config, f: V.Foreign, k: S.Codec, w: World, t: S.Tables, d: Position, id: string, sha: string)
    requires InLog(w, d)
  {
    || d.partition.topic == DeadLetter
    || Committed(w, d.partition) <= d.offset
    || (d.partition.topic == NormalizedEvent && EntryAt(w, d).value.Some?
        && InTables(c, f, k, t, EntryAt(w, d).value.value, id, sha))
  }

  /** From a record of any stage, a bounded number of processing steps leads to a normalized event, a dead
      letter, or a record still owed to a consumer. */
  lemma {:induction false} ReachesSink(c: Config, w: World, pos: Position) returns (d: Position, n: nat)
    requires Numbered(c) && Inv(c, w) && InLog(w, pos)
    requires pos.partition.topic !in {EventsTable, QuarantineTable}
    ensures InLog(w, d) && Descends(w, pos, d, n) && n + RankAt(c, w, d) <= RankAt(c, w, pos)
    ensures d.partition.topic in {NormalizedEvent, DeadLetter} || Committed(w, d.partition) <= d.offset
    ensures d.partition.topic !in {EventsTable, QuarantineTable}
    decreases RankAt(c, w, pos)
  {
    hide Rank, Numbered, Inv;
    if pos.partition.topic in {NormalizedEvent, DeadLetter} || Committed(w, pos.partition) <= pos.offset {
      d, n := pos, 0;
    } else {
      var child := AnswerOf(c, w, pos);
      ChildDecreasesRank(c, w, child, pos);
      ChildStaysUpstream(c, w, child, pos);
      hide Faithful;
      d, n := ReachesSink(c, w, child);
      DescendsThrough(w, pos, child, d, n);
      n := n + 1;
    }
  }

  lemma RankRange(c: Config, topic: Topic, h: Headers)
    ensures topic !in {EventsTable, QuarantineTable} ==> Rank(c, topic, h) >= 1
    ensures topic == RawEvent ==> Rank(c, topic, h) <= MaxAttempts(c) + 3
  {
  }

  lemma ChildStaysUpstream(c: Config, w: World, child: Position, pos: Position)
    requires ChildOf(w, child, pos) && Faithful(c, w, child)
    requires pos.partition.topic !in {NormalizedEvent, DeadLetter, EventsTable, QuarantineTable}
    ensures child.partition.topic !in {EventsTable, QuarantineTable}
  {
    hide Decide;
    var e := EntryAt(w, pos);
    StageMoves(c, pos.partition.topic, e.value.value, e.headers, EntryAt(w, child).origin.value.env);
  }

  /** What the store keeps of a payload is in the table that the pipeline names. */
  lemma KeptInNamedTable(
    c: Config, f: V.Foreign, k: S.Codec, t: S.Tables, payload: Bytes, id: string, sha: string)
    requires Deployed(c, f, k) && S.LawfulCodec(f, k)
    requires NormalizedCarries(c, payload, id, sha) && K.Kept(f, k, t, payload)
    ensures InTables(c, f, k, t, payload, id, sha)
  {
    hide K.HasKey, K.HasText, N.Fit, O.KeyOf, S.Codes, N.Normalize, SinkTable;
    LoadedAlike(c, f, k, payload);
    SinkTableIsPlacement(c, f, k, payload, 0);
    var loaded := k.decode(payload);
    assert loaded.Event?;
    if N.Fit(f, loaded.event) {
      if S.MapRow(f, k, loaded.event).Some? {
        K.PlacedOnce(f, k, payload, 0);
        RowHasIdentity(f, k, loaded.event, id, sha);
      }
      hide S.MapRow;
    } else {
      hide S.MapRow;
      K.PlacedOnce(f, k, payload, 0);
    }
  }

  lemma LoadedAlike(c: Config, f: V.Foreign, k: S.Codec, payload: Bytes)
    requires Deployed(c, f, k)
    ensures c.decodeNormalized(payload) == Loading(k.decode(payload))
  {
    hide N.Normalize, Storable, Loading;
  }

  lemma RowHasIdentity(f: V.Foreign, k: S.Codec, e: UnifiedEvent, id: string, sha: string)
    requires S.LawfulCodec(f, k) && Identity(e) == Some((id, sha)) && S.MapRow(f, k, e).Some?
    ensures S.MapRow(f, k, e).value.eventId == id && S.MapRow(f, k, e).value.rawSha256 == sha
  {
    assert f.text(Str(id)) == id && f.text(Str(sha)) == sha;
    hide S.LawfulCodec;
  }

  /** Every raw event ends up in the tables, in the dead-letter topic, or at an offset that is still to be
      processed: at every moment of every run of the pipeline, after any run of the store that accounts for the
      offsets committed so far. In the tables it is under its own event id and raw hash. */
  lemma RawEventReachesTables(
    c: Config, f: V.Foreign, k: S.Codec, actions: seq<Step>, worlds: seq<World>, i: nat, pos: Position,
    id: string, sha: string, logs: K.Logs, steps: seq<K.Step>, s: K.State) returns (d: Position, n: nat)
    requires Lawful(c) && S.LawfulCodec(f, k) && Deployed(c, f, k)
    requires Run(c, actions, worlds) && i < |worlds| && InLog(worlds[i], pos) && pos.partition.topic == RawEvent
    requires EntryAt(worlds[i], pos).value.Some? && RawCarries(c, EntryAt(worlds[i], pos).value.value, id, sha)
    requires K.After(f, k, logs, steps) == Some(s) && SinkReads(worlds[i], logs, s)
    ensures InLog(worlds[i], d) && Descends(worlds[i], pos, d, n) && n <= MaxAttempts(c) + 2
    ensures Accounted(c, f, k, worlds[i], s.tables, d, id, sha)
  {
    hide Rank, MaxAttempts, Inv, K.Inv, K.After, K.Kept, Deployed, S.LawfulCodec, InTables, RawCarries, ParsedCarries, NormalizedCarries;
    var w := worlds[i];
    RunsKeepInv(c, actions, worlds, i);
    d, n := ReachesSink(c, w, pos);
    RankRange(c, pos.partition.topic, EntryAt(w, pos).headers);
    RankRange(c, d.partition.topic, EntryAt(w, d).headers);
    IdentityOverRuns(c, w, pos, d, n, id, sha);
    if d.partition.topic == NormalizedEvent && d.offset < Committed(w, d.partition) {
      K.RunsKeepInv(f, k, logs, steps);
      var p := d.partition.index;
      assert SinkInput(p) == d.partition;
      CommittedIsKept(f, k, logs, s, p, d.offset);
      assert EntryAt(w, Position(SinkInput(p), d.offset)).value == Some(logs[p][d.offset]);
      KeptInNamedTable(c, f, k, s.tables, logs[p][d.offset], id, sha);
    }
  }

  lemma CommittedIsKept(f: V.Foreign, k: S.Codec, logs: K.Logs, s: K.State, p: nat, j: nat)
    requires K.Inv(f, k, logs, s) && j < SinkCommitted(logs, s, p)
    ensures p < |logs| && j < |logs[p]| && K.Kept(f, k, s.tables, logs[p][j])
  {
    hide K.Kept;
  }
}
