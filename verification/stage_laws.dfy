/** The pipeline model takes the normalizer, the store and the foreign libraries as parameters. Those of this
    repository satisfy what it asks of them, and all laws together can be satisfied. */
module StageLaws {
  import opened Common
  import opened Contracts
  import opened UnifiedEvents
  import opened Numbering
  import P = Processors
  import N = Normalizer
  import S = EventStore
  import V = SemanticValidation

  function Loading(l: S.Loaded): P.Decoded {
    match l
    case Unloadable => P.Unloadable
    case NotJson => P.NotJson
    case NotObject => P.NotObject
    case Event(e) => P.Event(e)
  }

  function Storable(f: V.Foreign, k: S.Codec, e: UnifiedEvent): Option<bool> {
    if !N.Fit(f, e) then Some(false) else if S.MapRow(f, k, e).None? then None else Some(true)
  }

  /** The parameters stand for the modelled normalizer, store and codec. */
  ghost predicate Deployed(c: P.Config, f: V.Foreign, k: S.Codec) {
    && (forall p: Parsed, now: Instant :: c.normalize(p, now) == N.Normalize(f, p, now))
    && (forall e: UnifiedEvent :: c.storable(e) == Storable(f, k, e))
    && (forall e: UnifiedEvent :: c.encodeNormalized(e) == k.encode(e))
    && (forall b: Bytes :: c.decodeNormalized(b) == Loading(k.decode(b)))
  }

  /** The codec and identity laws of the normalized topic hold of the modelled normalizer. */
  lemma NormalizedTopicIsLawful(c: P.Config, f: V.Foreign, k: S.Codec)
    requires Deployed(c, f, k) && S.LawfulCodec(f, k)
    ensures forall p: Parsed, now: Instant :: c.normalize(p, now).Some? ==>
              Identity(c.normalize(p, now).value) == Some((p.eventId, p.rawEvent.rawSha256))
    ensures forall e: UnifiedEvent :: c.decodeNormalized(c.encodeNormalized(e)) == P.Event(e)
  {
    hide N.Normalize, Storable;
    forall p: Parsed, now: Instant | c.normalize(p, now).Some?
      ensures Identity(c.normalize(p, now).value) == Some((p.eventId, p.rawEvent.rawSha256))
    {
      N.NormalizedKeepsIdentity(f, p, now);
    }
    forall e: UnifiedEvent ensures c.decodeNormalized(c.encodeNormalized(e)) == P.Event(e) {
      assert k.decode(k.encode(e)) == S.Event(e);
    }
  }

  /** The table in which the pipeline model places a consumed value is the one the store writes to, and the
      pipeline model has a worker fail exactly when the store's projection raises. */
  lemma SinkTableIsPlacement(c: P.Config, f: V.Foreign, k: S.Codec, payload: Bytes, now: int)
    requires Deployed(c, f, k)
    ensures var placed, table := S.Placement(f, k, payload, now), P.SinkTable(c, payload);
            && (placed.None? <==> table.None?)
            && (table == Some(P.EventsTable) <==> placed.Some? && |placed.value.rows| == 1 && placed.value.bad == [])
            && (table == Some(P.QuarantineTable) <==> placed.Some? && placed.value.rows == [] && |placed.value.bad| == 1)
  {
    hide N.Fit, S.MapRow, S.Codes, N.Normalize;
  }

  // ---- the laws can be met -----------------------------------------------------------------------------

  function Strokes(n: nat): string {
    seq(n, i => '|')
  }

  function Zeros(n: nat): Bytes {
    seq(n, i => 0)
  }

  ghost function EventOf(n: nat): S.Loaded {
    if exists e :: EventCode(e) == n then
      var e :| EventCode(e) == n;
      S.Event(e)
    else S.NotJson
  }

  ghost function IntOf(n: nat): Option<int> {
    if exists i :: IntCode(i) == n then
      var i :| IntCode(i) == n;
      Some(i)
    else None
  }

  ghost function ParsedOf(n: nat, sha256: Bytes -> string): Option<Parsed> {
    if exists p :: ParsedCode(p) == n && ValidParsed(p, sha256) then
      var p :| ParsedCode(p) == n && ValidParsed(p, sha256);
      Some(p)
    else None
  }

  ghost function EnvelopeOf(n: nat, sha256: Bytes -> string): Option<Envelope> {
    if exists e :: EnvelopeCode(e) == n && ValidEnvelope(e, sha256) then
      var e :| EnvelopeCode(e) == n && ValidEnvelope(e, sha256);
      Some(e)
    else None
  }

  lemma EventOfCode(e: UnifiedEvent)
    ensures EventOf(EventCode(e)) == S.Event(e)
  {
    hide EventCode;
    forall d | EventCode(d) == EventCode(e) ensures d == e {
      EventCodeInjective(d, e);
    }
  }

  lemma IntOfCode(i: int)
    ensures IntOf(IntCode(i)) == Some(i)
  {
  }

  lemma ParsedOfCode(p: Parsed, sha256: Bytes -> string)
    ensures ParsedOf(ParsedCode(p), sha256) == if ValidParsed(p, sha256) then Some(p) else None
  {
    hide ParsedCode;
    forall d | ParsedCode(d) == ParsedCode(p) ensures d == p {
      ParsedCodeInjective(d, p);
    }
  }

  /** A library that reads back what it printed, and not much else. */
  ghost function SomeForeign(): V.Foreign {
    V.Foreign(
      s => s, s => s, s => s, s => false,
      (v: Value) => if v.Str? then v.text else "",
      (v: Value) => if v.Int? then Some(v.number) else None,
      s => if s == "" || s == "unknown" then None else Some(s),
      s => Some(Zoned(if s == "0001-01-01T00:00:00+01:00" then EARLIEST - 3600000000 else 0)),
      s => if s == "" then None else IntOf(|s| - 1),
      t => Strokes(IntCode(t)) + "Z",
      s => [], b => None, b => "", s => true,
      e => {},
      issues => if issues == {} then [] else ["issue"])
  }

  ghost function SomeCodec(f: V.Foreign): S.Codec {
    S.Codec(
      f.parseUtc,
      e => Strokes(EventCode(e)), s => EventOf(|s|),
      e => Zeros(EventCode(e)), b => EventOf(|b|),
      b => "",
      issues => if issues == {} then [] else ["issue"])
  }

  ghost function SomeConfig(f: V.Foreign, k: S.Codec): P.Config {
    hide N.Normalize, Storable, EnvelopeOf, ParsedOf, IntOf;
    P.Config(
      f.sha256,
      n => Strokes(IntCode(n)), s => IntOf(|s|),
      b => EnvelopeOf(|b|, f.sha256),
      p => Some(Zeros(ParsedCode(p))), b => ParsedOf(|b|, f.sha256),
      k.encode, b => Loading(k.decode(b)),
      (p: Parsed, now: Instant) => N.Normalize(f, p, now), e => Storable(f, k, e),
      P.DEFAULT_POLICY, P.DEFAULT_POLICY)
  }

  lemma ForeignIsLawful()
    ensures V.Lawful(SomeForeign()) && N.LawfulText(SomeForeign()) && N.SchemaIgnoresClock(SomeForeign())
  {
    hide IntOf, IntCode;
    var f := SomeForeign();
    forall t: Instant ensures V.EndsWithZ(f.utc(t)) && f.parseUtc(f.utc(t)) == Some(t) {
      IntOfCode(t);
    }
  }

  lemma CodecIsLawful(f: V.Foreign)
    requires f == SomeForeign()
    ensures S.LawfulCodec(f, SomeCodec(f))
  {
    hide IntOf, IntCode, EventOf, EventCode;
    var k := SomeCodec(f);
    forall t: Instant ensures k.timestamp(f.utc(t)) == Some(t) {
      IntOfCode(t);
    }
    forall e: UnifiedEvent ensures k.loads(k.compact(e)) == S.Event(e) && k.decode(k.encode(e)) == S.Event(e) {
      EventOfCode(e);
    }
  }

  lemma ConfigIsLawful(f: V.Foreign, k: S.Codec)
    requires S.LawfulCodec(f, k)
    ensures P.Lawful(SomeConfig(f, k)) && Deployed(SomeConfig(f, k), f, k)
  {
    hide IntOf, IntCode, ParsedOf, ParsedCode, EnvelopeOf, N.Normalize, Storable, S.LawfulCodec;
    var c := SomeConfig(f, k);
    NormalizedTopicIsLawful(c, f, k);
    forall n: int ensures c.parseInt(c.text(n)) == Some(n) {
      IntOfCode(n);
    }
    forall p: Parsed ensures c.decodeParsed(c.encodeParsed(p).value) == if ValidParsed(p, c.sha256) then Some(p) else None {
      ParsedOfCode(p, c.sha256);
    }
    forall b: Bytes ensures c.decodeParsed(b).Some? ==> ValidParsed(c.decodeParsed(b).value, c.sha256)
      ensures c.decodeRaw(b).Some? ==> ValidEnvelope(c.decodeRaw(b).value, c.sha256)
    {
      DecodedIsValid(|b|, c.sha256);
    }
  }

  lemma DecodedIsValid(n: nat, sha256: Bytes -> string)
    ensures ParsedOf(n, sha256).Some? ==> ValidParsed(ParsedOf(n, sha256).value, sha256)
    ensures EnvelopeOf(n, sha256).Some? ==> ValidEnvelope(EnvelopeOf(n, sha256).value, sha256)
  {
    hide ParsedCode, EnvelopeCode;
  }

  /** Some libraries satisfy every law that the theorems assume, with the modelled normalizer and store in
      place, and read the example records as assumed; so no theorem holds for want of a library. */
  lemma LawsCanBeMet() returns (f: V.Foreign, k: S.Codec, c: P.Config, raw: Envelope)
    ensures V.Lawful(f) && N.LawfulText(f) && N.SchemaIgnoresClock(f) && S.LawfulCodec(f, k)
    ensures P.Lawful(c) && Deployed(c, f, k)
    ensures N.ReadsExamples(f, raw) && ValidEnvelope(raw, f.sha256)
    ensures f.toInt(Int(1024)) == Some(1024) && f.toInt(Int(53)) == Some(53) && f.lower("ulpf") == "ulpf"
  {
    hide P.Lawful, Deployed, S.LawfulCodec, V.Lawful, N.LawfulText, N.SchemaIgnoresClock, SomeCodec, SomeConfig;
    f := SomeForeign();
    k := SomeCodec(f);
    c := SomeConfig(f, k);
    raw := Envelope("", "", [], 0);
    ForeignIsLawful();
    CodecIsLawful(f);
    ConfigIsLawful(f, k);
  }
}
