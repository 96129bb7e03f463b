/** What a normalized event and its row report, said of the parsed event they come from. */
module NormalizedFacts {
  import opened Common
  import opened Contracts
  import opened UnifiedEvents
  import opened SemanticValidation
  import opened Mappings
  import opened Normalizer
  import S = EventStore
  import O = EffectivelyOnce

  /** Self-validation touches nothing but the quality section. */
  lemma FinishedIsAssembled(f: Foreign, p: Parsed, now: Instant)
    ensures var e := Finished(f, p, now);
            e == Assemble(f, p, MapEvent(f, p.sourcePackId, p.extracted), now).(quality := e.quality)
  {
    AssembledQuality(f, p, MapEvent(f, p.sourcePackId, p.extracted), now);
    hide Assemble, MapEvent, Issues;
  }

  // ---- times -------------------------------------------------------------------------------------------

  /** The source's own time, which only Suricata records give. */
  function SourceTime(f: Foreign, p: Parsed): Option<Iso> {
    var t := Get(p.extracted, "timestamp");
    if p.sourcePackId == Some("suricata_eve") && t.Str? then f.parseIso(t.text) else None
  }

  lemma MappedTime(f: Foreign, p: Parsed)
    requires Lawful(f)
    ensures MapEvent(f, p.sourcePackId, p.extracted).observedAt == SourceTime(f, p)
  {
    hide CiscoMap, FortinetMap, LinuxMap, SuricataMap, Lawful;
    match VendorOf(p.sourcePackId)
    case None =>
    case Some(CiscoAsa) => CiscoNotes(f, p.extracted);
    case Some(Fortigate) => FortinetNotes(f, p.extracted);
    case Some(LinuxSyslog) => LinuxNotes(f, p.extracted);
    case Some(Suricata) => SuricataNotes(f, p.extracted);
  }

  /** The time a record is reported under: the source's, if it gives one that does not come after ingestion, and
      the time of ingestion otherwise. */
  predicate ReportedTime(f: Foreign, p: Parsed, t: int) {
    var source := SourceTime(f, p);
    if source.Some? && source.value.Zoned? && source.value.at <= p.rawEvent.ingestedAt then t == source.value.at
    else t == p.rawEvent.ingestedAt
  }

  lemma ObservedIsReported(f: Foreign, p: Parsed)
    requires Lawful(f) && !Raises(f, p)
    ensures ReportedTime(f, p, ObservedAt(p, MapEvent(f, p.sourcePackId, p.extracted)))
  {
    hide MapEvent, Lawful, SourceTime;
    MappedTime(f, p);
  }

  /** When normalizing does not raise, the event is observed at the reported time, ingested when its envelope says,
      and normalized at the latest of the clock reading, the time of parsing and the time of ingestion. */
  lemma EventTimesAre(f: Foreign, p: Parsed, now: Instant)
    requires Lawful(f) && Normalize(f, p, now).Some?
    ensures var times := Normalize(f, p, now).value.times;
            && times.Object? && times.body.observedAt.Str? && times.body.ingestedAt.Str? && times.body.normalizedAt.Str?
            && f.parseUtc(times.body.observedAt.text).Some?
            && ReportedTime(f, p, f.parseUtc(times.body.observedAt.text).value)
            && f.parseUtc(times.body.ingestedAt.text) == Some(p.rawEvent.ingestedAt as int)
            && p.parsedAt.Zoned?
            && f.parseUtc(times.body.normalizedAt.text) == Some(Max(Max(now, p.parsedAt.at), p.rawEvent.ingestedAt))
  {
    hide Finished, Assemble, MapEvent, ObservedAt, NormalizedAt, ReportedTime, Lawful;
    var m := MapEvent(f, p.sourcePackId, p.extracted);
    FinishedIsAssembled(f, p, now);
    ObservedIsReported(f, p);
    NormalizedIsLatest(f, p, now);
    AssembledTimes(f, p, m, now);
    UtcReadsBack(f, ObservedAt(p, m));
    UtcReadsBack(f, p.rawEvent.ingestedAt);
    UtcReadsBack(f, NormalizedAt(p, now));
    hide Raises;
  }

  lemma UtcReadsBack(f: Foreign, t: Instant)
    requires Lawful(f)
    ensures f.parseUtc(f.utc(t)) == Some(t as int)
  {
  }

  lemma NormalizedIsLatest(f: Foreign, p: Parsed, now: Instant)
    requires !Raises(f, p)
    ensures p.parsedAt.Zoned? && NormalizedAt(p, now) == Max(Max(now, p.parsedAt.at), p.rawEvent.ingestedAt)
  {
    hide MapEvent, BadTime;
  }

  lemma AssembledTimes(f: Foreign, p: Parsed, m: MappingResult, now: Instant)
    ensures Assemble(f, p, m, now).times
         == Object(Times(Str(f.utc(ObservedAt(p, m))), Str(f.utc(p.rawEvent.ingestedAt)), Str(f.utc(NormalizedAt(p, now)))))
  {
  }

  /** The row of a published event has the reported time in its key, and the same three times in its columns. */
  lemma RowTimesAre(f: Foreign, c: S.Codec, d: O.Delivery)
    requires Lawful(f) && S.LawfulCodec(f, c) && O.Published(f, d)
    ensures var r := S.MapRow(f, c, O.Normalized(f, d));
            && r.Some? && ReportedTime(f, d.parsed, r.value.observedAt)
            && O.KeyOf(r.value) == O.Key(r.value.observedAt, d.parsed.eventId)
            && d.parsed.parsedAt.Zoned?
            && r.value.normalizedAt == Max(Max(d.now, d.parsed.parsedAt.at), d.parsed.rawEvent.ingestedAt)
  {
    hide S.MapRow, Finished, MapEvent, ObservedAt, NormalizedAt, ReportedTime, Lawful, S.LawfulCodec;
    O.NormalizedHasRow(f, c, d);
    ObservedIsReported(f, d.parsed);
    NormalizedIsLatest(f, d.parsed, d.now);
    hide Raises;
  }

  // ---- lists -------------------------------------------------------------------------------------------

  predicate Before(a: string, b: string) {
    || (|a| < |b| && b[..|a|] == a)
    || exists i :: 0 <= i < |a| && i < |b| && a[..i] == b[..i] && a[i] < b[i]
  }

  /** The order of text: a prefix comes first, and otherwise the first difference decides. */
  lemma {:induction false} LessEqIsOrder(a: string, b: string)
    ensures LessEq(a, b) <==> a == b || Before(a, b)
  {
    if a == "" || b == "" {
      assert b[..0] == "";
    } else if a[0] == b[0] {
      LessEqIsOrder(a[1..], b[1..]);
      assert a == [a[0]] + a[1..] && b == [b[0]] + b[1..];
      BeforeTails(a, b);
    } else {
      assert a[..0] == b[..0];
      BeforeHeads(a, b);
    }
  }

  lemma BeforeHeads(a: string, b: string)
    requires a != "" && b != "" && a[0] != b[0]
    ensures Before(a, b) ==> a[0] < b[0]
  {
    assert |a| < |b| ==> b[..|a|][0] == b[0];
    assert forall i :: 0 < i < |a| && i < |b| ==> a[..i][0] != b[..i][0];
  }

  lemma BeforeTails(a: string, b: string)
    requires a != "" && b != "" && a[0] == b[0]
    ensures Before(a, b) <==> Before(a[1..], b[1..])
  {
    var x, y := a[1..], b[1..];
    assert a == [a[0]] + x && b == [b[0]] + y;
    if |a| < |b| {
      assert b[..|a|] == [b[0]] + y[..|x|];
    }
    if Before(x, y) && !(|x| < |y| && y[..|x|] == x) {
      var i :| 0 <= i < |x| && i < |y| && x[..i] == y[..i] && x[i] < y[i];
      assert a[..i + 1] == [a[0]] + x[..i] && b[..i + 1] == [b[0]] + y[..i];
    }
    if Before(a, b) && !(|a| < |b| && b[..|a|] == a) {
      var i :| 0 <= i < |a| && i < |b| && a[..i] == b[..i] && a[i] < b[i];
      assert a[..i] == [a[0]] + x[..i - 1] && b[..i] == [b[0]] + y[..i - 1];
      assert a[..i][1..] == x[..i - 1] && b[..i][1..] == y[..i - 1];
    }
  }

  predicate Ascending(s: seq<string>) {
    forall i, j :: 0 <= i < j < |s| ==> LessEq(s[i], s[j]) && s[i] != s[j]
  }

  lemma {:induction false} LessEqTotal(a: string, b: string)
    ensures LessEq(a, b) || LessEq(b, a)
    ensures LessEq(a, b) && LessEq(b, a) ==> a == b
  {
    if a != "" && b != "" {
      LessEqTotal(a[1..], b[1..]);
      assert a == [a[0]] + a[1..] && b == [b[0]] + b[1..];
    }
  }

  lemma {:induction false} LessEqTransitive(a: string, b: string, c: string)
    requires LessEq(a, b) && LessEq(b, c)
    ensures LessEq(a, c)
  {
    if a != "" && a[0] == b[0] == c[0] {
      LessEqTransitive(a[1..], b[1..], c[1..]);
    }
  }

  lemma {:induction false} InsertAscends(x: string, s: seq<string>)
    requires Ascending(s)
    ensures Ascending(Insert(x, s))
  {
    hide LessEq;
    if s != [] {
      var rest := s[1..];
      assert Ascending(rest);
      InsertAscends(x, rest);
      InsertKeepsElements(x, rest);
      LessEqTotal(x, s[0]);
      if x != s[0] && LessEq(x, s[0]) {
        forall j | 0 <= j < |s| ensures LessEq(x, s[j]) && x != s[j] {
          if j > 0 {
            LessEqTransitive(x, s[0], s[j]);
            LessEqTotal(s[0], s[j]);
          }
        }
      } else if x != s[0] {
        var more := Insert(x, rest);
        forall j | 0 <= j < |more| ensures LessEq(s[0], more[j]) && s[0] != more[j] {
          assert more[j] in more;
          if more[j] != x {
            var k :| 0 <= k < |rest| && rest[k] == more[j];
            assert s[k + 1] == more[j];
          }
        }
      }
    }
  }

  /** The list of missing fields ascends, names each field once, and names exactly what was missed. */
  lemma {:induction false} MissingAreSorted(s: seq<string>)
    ensures Ascending(SortedSet(s)) && forall x :: x in SortedSet(s) <==> x in s
  {
    SortedSetKeepsElements(s);
    if s != [] {
      MissingAreSorted(s[1..]);
      InsertAscends(s[0], SortedSet(s[1..]));
    }
  }

  /** Where a text first occurs. */
  function FirstIndex(s: seq<string>, x: string): nat {
    if s == [] || s[0] == x then 0 else 1 + FirstIndex(s[1..], x)
  }

  lemma {:induction false} FirstIndexIn(s: seq<string>, x: string, last: string)
    ensures x in s ==> FirstIndex(s, x) < |s| && s[FirstIndex(s, x)] == x && FirstIndex(s + [last], x) == FirstIndex(s, x)
    ensures x !in s ==> FirstIndex(s + [last], x) == |s| + (if x == last then 0 else 1)
  {
    if s == [] {
      assert s + [last] == [last] && [last][1..] == [];
    } else {
      FirstIndexIn(s[1..], x, last);
      assert (s + [last])[1..] == s[1..] + [last];
      assert s == [s[0]] + s[1..];
    }
  }

  /** The list of warnings names each once, in the order in which they first came up. */
  lemma {:induction false} WarningsAreUnique(s: seq<string>)
    ensures forall x :: x in Unique(s) <==> x in s
    ensures forall i, j :: 0 <= i < j < |Unique(s)| ==> FirstIndex(s, Unique(s)[i]) < FirstIndex(s, Unique(s)[j])
  {
    UniqueKeepsElements(s);
    if s != [] {
      var rest, last := s[..|s| - 1], s[|s| - 1];
      assert s == rest + [last];
      WarningsAreUnique(rest);
      forall i, j | 0 <= i < j < |Unique(s)| ensures FirstIndex(s, Unique(s)[i]) < FirstIndex(s, Unique(s)[j]) {
        assert Unique(s)[i] in Unique(rest);
        FirstIndexIn(rest, Unique(s)[i], last);
        FirstIndexIn(rest, Unique(s)[j], last);
      }
    }
  }

  // ---- quality -----------------------------------------------------------------------------------------

  /** An event is invalid exactly when its parse failed or the validator objects, unknown when the parse was
      unrecognized, partial when it was partial, doubted or incomplete, and valid otherwise. */
  lemma QualityIs(f: Foreign, p: Parsed, now: Instant)
    requires Lawful(f)
    ensures var objected := Issues(f, Assemble(f, p, MapEvent(f, p.sourcePackId, p.extracted), now)) != {};
            var q := Finished(f, p, now).quality;
            && q.Object?
            && (q.body.status == Str("invalid") <==> p.status == Failed || objected)
            && (q.body.status == Str("unknown") <==> p.status == Unrecognized && !objected)
            && (q.body.status == Str("partial") <==>
                  !objected && (p.status == Partial || (p.status == Success && (Doubted(f, p) || Incomplete(f, p)))))
            && (q.body.status == Str("valid") <==>
                  !objected && p.status == Success && !Doubted(f, p) && !Incomplete(f, p))
  {
    hide Assemble, MapEvent, Issues, Doubted, Incomplete, Warnings, Missing, Lawful, Strings, SortedSet, Unique;
    var m := MapEvent(f, p.sourcePackId, p.extracted);
    NotesIff(f, p);
    AssembledStatus(f, p, m, now);
    AssembledQuality(f, p, m, now);
  }

  lemma AssembledStatus(f: Foreign, p: Parsed, m: MappingResult, now: Instant)
    ensures var q := Assemble(f, p, m, now).quality;
            && q.Object?
            && q.body.status == Str(QualityStatus(p.status, Missing(p, m), Warnings(f, p, m)))
            && q.body.confidence == Confidence(p.status, Missing(p, m), Warnings(f, p, m))
            && q.body.missingFields == Strings(SortedSet(Missing(p, m)))
            && q.body.warnings == Strings(Unique(Warnings(f, p, m)))
  {
    hide QualityStatus, Confidence, Missing, Warnings, Strings, SortedSet, Unique;
  }

  /** A parse is relied on fully when it succeeded without a doubt, not at all when it did not succeed even in
      part, and by half otherwise, whatever the validator says. */
  lemma ConfidenceIs(f: Foreign, p: Parsed, now: Instant)
    requires Lawful(f)
    ensures var q := Finished(f, p, now).quality;
            && q.Object?
            && (q.body.confidence == Float(0, 0) <==> p.status in {Failed, Unrecognized})
            && (q.body.confidence == Float(1, 0) <==> p.status == Success && !Doubted(f, p) && !Incomplete(f, p))
            && q.body.confidence in {Float(0, 0), Float(5, -1), Float(1, 0)}
  {
    hide Assemble, MapEvent, Issues, Doubted, Incomplete, Warnings, Missing, Lawful, Strings, SortedSet, Unique;
    var m := MapEvent(f, p.sourcePackId, p.extracted);
    NotesIff(f, p);
    AssembledStatus(f, p, m, now);
    AssembledQuality(f, p, m, now);
  }

  // ---- evidence ----------------------------------------------------------------------------------------

  /** The trace names the raw event, and the Source Pack and parser with their versions where these are semantic;
      the raw text is embedded exactly when it is text. */
  lemma TraceIs(f: Foreign, p: Parsed, now: Instant)
    ensures var t := Finished(f, p, now).traceability;
            && t.Object?
            && t.body.rawEventId == Str(p.rawEvent.eventId) && t.body.rawSha256 == Str(p.rawEvent.rawSha256)
            && t.body.parserName == Str(p.parserId)
            && t.body.parserVersion == Str(if f.semver(p.parserVersion) then p.parserVersion else "0.0.0")
            && (p.sourcePackId in {None, Some("")} ==> t.body.sourcePackName == Str("unknown_source_pack"))
            && (p.sourcePackId !in {None, Some("")} ==> t.body.sourcePackName == Str(p.sourcePackId.value))
            && (p.sourcePackVersion.Some? && f.semver(p.sourcePackVersion.value) ==>
                  t.body.sourcePackVersion == Str(p.sourcePackVersion.value))
            && (p.sourcePackVersion.None? || !f.semver(p.sourcePackVersion.value) ==>
                  t.body.sourcePackVersion == Str("0.0.0"))
            && (f.decodeUtf8(p.rawEvent.raw).Some? ==>
                  t.body.rawEvent == Object(RawText(Str(f.decodeUtf8(p.rawEvent.raw).value))))
            && (f.decodeUtf8(p.rawEvent.raw).None? ==> t.body.rawEvent == Absent)
  {
    FinishedIsAssembled(f, p, now);
    AssembledTrace(f, p, MapEvent(f, p.sourcePackId, p.extracted), now);
    hide Finished, Assemble, MapEvent;
  }

  lemma AssembledTrace(f: Foreign, p: Parsed, m: MappingResult, now: Instant)
    ensures Assemble(f, p, m, now).traceability == Object(Traceability(
              Str(p.rawEvent.eventId), Str(p.rawEvent.rawSha256),
              Str(NameOr(p.sourcePackId, "unknown_source_pack")), Str(SafeVersion(f, p.sourcePackVersion)),
              Str(p.parserId), Str(SafeVersion(f, Some(p.parserVersion))),
              RawSection(f, p)))
  {
    hide NameOr, SafeVersion, RawSection;
  }

  /** Every other section is the mapping's, with the vendor and product the parse identified. */
  lemma SectionsAre(f: Foreign, p: Parsed, now: Instant)
    ensures var e, m := Finished(f, p, now), MapEvent(f, p.sourcePackId, p.extracted);
            && e.meta == Object(EventMeta(Str(p.eventId), Str(m.category), Str(m.eventType), Str(m.name), m.message))
            && e.action == Object(m.action) && e.severity == Object(m.severity)
            && e.observer.Object?
            && e.observer.body.vendor == (if p.vendor in {None, Some("")} then Str("unknown") else Str(p.vendor.value))
            && e.observer.body.product == (if p.product in {None, Some("")} then Str("unknown") else Str(p.product.value))
            && (m.source.Some? <==> e.source != Absent) && (m.source.Some? ==> e.source == Object(m.source.value))
            && (m.destination.Some? <==> e.destination != Absent) && (m.destination.Some? ==> e.destination == Object(m.destination.value))
            && (m.network.Some? <==> e.network != Absent) && (m.network.Some? ==> e.network == Object(m.network.value))
            && (m.threat.Some? <==> e.threat != Absent) && (m.threat.Some? ==> e.threat == Object(m.threat.value))
            && (m.authentication.Some? <==> e.authentication != Absent)
            && (m.http.Some? <==> e.http != Absent) && (m.http.Some? ==> e.http == Object(m.http.value))
  {
    FinishedIsAssembled(f, p, now);
    var m := MapEvent(f, p.sourcePackId, p.extracted);
    hide Finished, MapEvent, Missing, Warnings, ObservedAt, NormalizedAt, SafeVersion, RawSection, Extensions, Strings,
      SortedSet, Unique, QualityStatus, Confidence;
  }

  /** The normalizer signs with the mapping it used and the versions it was given. */
  lemma ProvenanceIs(f: Foreign, p: Parsed, now: Instant)
    ensures var x := Finished(f, p, now).extensions;
            var mapped := p.sourcePackId in
              {Some("cisco_asa"), Some("fortinet_fortigate"), Some("generic_linux_syslog"), Some("suricata_eve")};
            && x.Object? && "ulpf" in x.body && x.body["ulpf"].Dict?
            && var own := x.body["ulpf"].entries;
               && own.Keys == {"mapping", "normalizer", "received_versions"}
               && own["mapping"] == Dict(map["name" := Str(if mapped then p.sourcePackId.value else "unknown"),
                                             "version" := Str(if mapped then "1.0.0" else "0.0.0")])
               && own["received_versions"] == Dict(map[
                    "source_pack" := if p.sourcePackVersion.Some? then Str(p.sourcePackVersion.value) else Null,
                    "parser" := Str(p.parserVersion)])
  {
    FinishedExtensions(f, p, now);
    hide Finished, Namespace;
  }
}
