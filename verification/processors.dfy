/** The pure stage processors: parsing engine with its total fallback, parser, normalizer, retry
    router, retry policy and sink. Each maps one consumed record to exactly one decision.

    Everything the processors cannot decide for themselves arrives as an argument: `Config` holds
    the foreign functions and the policies, `Env` holds what one call observes of the world. */
module Processors {
  import opened Common
  import opened Contracts
  import opened UnifiedEvents

  datatype Topic =
    | RawEvent | ParsedEvent | NormalizedEvent | Retry | DeadLetter
    | EventsTable | QuarantineTable  // where the sink's writes land

  type Headers = map<string, string>

  datatype Decision = Decision(
    topic: Topic,
    key: string,
    payload: Bytes,
    eventId: string,
    terminal: bool,
    headers: Headers,
    errorCode: Option<string>)

  /** What the sink gets from decoding a consumed value. Loading a value that is JSON raises when it holds an
      integer of more digits than Python converts. */
  datatype Decoded = Unloadable | NotJson | NotObject | Event(event: UnifiedEvent)

  datatype Policy = Policy(maxAttempts: nat, baseSeconds: nat, capSeconds: nat)

  predicate ValidPolicy(p: Policy) {
    p.baseSeconds > 0 && p.capSeconds > 0
  }

  const DEFAULT_POLICY := Policy(5, 15, 1800)

  datatype Config = Config(
    sha256: Bytes -> string,
    text: int -> string,                  // str of an integer
    parseInt: string -> Option<int>,      // int of a string; None is ValueError
    decodeRaw: Bytes -> Option<Envelope>, // None is a contract violation
    encodeParsed: Parsed -> Option<Bytes>,  // None is an exception: text that is not Unicode
    decodeParsed: Bytes -> Option<Parsed>,
    encodeNormalized: UnifiedEvent -> Bytes,
    decodeNormalized: Bytes -> Decoded,
    normalize: (Parsed, Instant) -> Option<UnifiedEvent>,  // None is an exception that is not transient
    storable: UnifiedEvent -> Option<bool>,            // valid and not marked invalid; None is an exception
    parser: Policy,
    normalizer: Policy)

  /** All that counting attempts needs: a real policy, and integers that survive text. */
  ghost predicate Numbered(c: Config) {
    && ValidPolicy(c.parser) && ValidPolicy(c.normalizer)
    && (forall n: int :: c.parseInt(c.text(n)) == Some(n))
  }

  /** The laws of the foreign codecs: decoding inverts encoding exactly on contract-valid records,
      and a decoded record satisfies its contract. */
  ghost predicate Lawful(c: Config) {
    && Numbered(c)
    && (forall p: Parsed :: c.encodeParsed(p).Some? ==>
          c.decodeParsed(c.encodeParsed(p).value) == if ValidParsed(p, c.sha256) then Some(p) else None)
    && (forall b: Bytes :: c.decodeParsed(b).Some? ==> ValidParsed(c.decodeParsed(b).value, c.sha256))
    && (forall b: Bytes :: c.decodeRaw(b).Some? ==> ValidEnvelope(c.decodeRaw(b).value, c.sha256))
    && (forall e: UnifiedEvent :: c.decodeNormalized(c.encodeNormalized(e)) == Event(e))
    && (forall p: Parsed, now: Instant :: c.normalize(p, now).Some? ==>
          Identity(c.normalize(p, now).value) == Some((p.eventId, p.rawEvent.rawSha256)))
  }

  // ---- parsing engine ----------------------------------------------------------------------

  /** The attributes of a Source Pack; one that is missing or empty is None. */
  datatype Pack = Pack(
    packId: string,
    vendor: Option<string>,
    product: Option<string>,
    version: Option<string>,
    parserId: Option<string>,
    parserVersion: Option<string>)

  /** What source detection and the selected Source Pack do with one envelope. `Returned` holds what the pack
      passes to the constructor of the parsed record, which checks the parsed contract and raises `violation`
      if it is broken. */
  datatype PackOutcome =
    | NoMatch
    | DetectionRaised
    | KnownError(pack: Pack, reason: string)       // an ULPFError
    | UnexpectedError(pack: Pack, reason: string)  // any other exception
    | NotParsed(pack: Pack)                        // something that is not a ParsedEvent
    | Returned(pack: Pack, parsed: Parsed, violation: string)

  function UnrecognizedEvent(e: Envelope, now: Instant): Parsed {
    Parsed(e.eventId, Zoned(now), None, None, "ulpf.source-pack-registry", "1.0.0", None, None,
           Unrecognized, ["no matching source pack"], map[], e)
  }

  function FailedEvent(e: Envelope, reason: string, pack: Pack, now: Instant): Parsed {
    Parsed(
      e.eventId, Zoned(now), pack.vendor, pack.product,
      pack.parserId.GetOr(pack.packId + ".parser"),
      pack.parserVersion.GetOr(pack.version.GetOr("1.0.0")),
      Some(pack.packId), pack.version, Failed, [reason], map[], e)
  }

  /** Why a Source Pack's result is not used, when it is not. */
  function Failure(sha256: Bytes -> string, e: Envelope, outcome: PackOutcome): Option<string>
    requires !outcome.NoMatch? && !outcome.DetectionRaised?
  {
    match outcome
    case KnownError(_, reason) => Some(reason)
    case UnexpectedError(_, reason) => Some("unexpected_error: " + reason)
    case NotParsed(_) => Some("unexpected_error: Source Pack parse() must return canonical ParsedEvent")
    case Returned(_, p, violation) =>
      if !ValidParsed(p, sha256) then Some("unexpected_error: " + violation)
      else if p.rawEvent.eventId != e.eventId || p.rawEvent.rawSha256 != e.rawSha256 then
        Some("unexpected_error: Source Pack output does not reference the input raw event")
      else
        None
  }

  /** `ParsingEngine.process`: total, whatever the Source Pack does. */
  function EngineProcess(sha256: Bytes -> string, e: Envelope, outcome: PackOutcome, now: Instant): Parsed {
    if outcome.NoMatch? || outcome.DetectionRaised? then UnrecognizedEvent(e, now)
    else
      match Failure(sha256, e, outcome)
      case Some(reason) => FailedEvent(e, reason, outcome.pack, now)
      case None => outcome.parsed
  }

  lemma UnrecognizedIsValid(sha256: Bytes -> string, e: Envelope, now: Instant)
    requires ValidEnvelope(e, sha256)
    ensures var p := UnrecognizedEvent(e, now); ValidParsed(p, sha256) && p.eventId == e.eventId && p.rawEvent == e
  {
  }

  lemma FailedIsValid(sha256: Bytes -> string, e: Envelope, reason: string, pack: Pack, now: Instant)
    requires ValidEnvelope(e, sha256)
    ensures var p := FailedEvent(e, reason, pack, now); ValidParsed(p, sha256) && p.eventId == e.eventId && p.rawEvent == e
  {
  }

  /** Whatever a Source Pack builds, returns or raises, even a record about another envelope: the engine's
      event meets the parsed contract and is about the evidence it was given. */
  lemma EngineContract(sha256: Bytes -> string, e: Envelope, outcome: PackOutcome, now: Instant)
    requires ValidEnvelope(e, sha256)
    ensures var p := EngineProcess(sha256, e, outcome, now);
            && ValidParsed(p, sha256) && p.eventId == e.eventId
            && p.rawEvent.eventId == e.eventId && p.rawEvent.rawSha256 == e.rawSha256
  {
    hide FailedEvent, UnrecognizedEvent;
    if outcome.NoMatch? || outcome.DetectionRaised? {
      UnrecognizedIsValid(sha256, e, now);
    } else if Failure(sha256, e, outcome).Some? {
      FailedIsValid(sha256, e, Failure(sha256, e, outcome).value, outcome.pack, now);
      hide Failure;
    }
  }

  // ---- retry policy ------------------------------------------------------------------------

  function Pow2(n: nat): (r: nat)
    ensures r >= 1
  {
    if n == 0 then 1 else 2 * Pow2(n - 1)
  }

  function Delay(p: Policy, attempt: nat): nat {
    Min(p.baseSeconds * Pow2(attempt), p.capSeconds)
  }

  function NotBeforeMs(p: Policy, attempt: nat, now: real): int {
    ((now + Delay(p, attempt) as real) * 1000.0).Floor
  }

  datatype Stage = ParserStage | NormalizerStage

  function StageName(s: Stage): string {
    match s
    case ParserStage => "parser"
    case NormalizerStage => "normalizer"
  }

  function PolicyOf(c: Config, s: Stage): Policy {
    match s
    case ParserStage => c.parser
    case NormalizerStage => c.normalizer
  }

  function Truncate(s: string): string {
    s[..Min(|s|, 512)]
  }

  function RetryOrDeadLetter(
    c: Config, stage: Stage, payload: Bytes, eventId: string, attempt: nat, error: string, now: real): Decision
  {
    var policy := PolicyOf(c, stage);
    if attempt >= policy.maxAttempts then
      Decision(
        DeadLetter, eventId, payload, eventId, true,
        map["attempt" := c.text(attempt),
            "retry_stage" := StageName(stage),
            "error_code" := "TRANSIENT_RETRIES_EXHAUSTED",
            "error_message" := Truncate(error)],
        Some("TRANSIENT_RETRIES_EXHAUSTED"))
    else
      Decision(
        Retry, eventId, payload, eventId, false,
        map["attempt" := c.text(attempt + 1),
            "retry_stage" := StageName(stage),
            "retry_after_seconds" := c.text(Delay(policy, attempt)),
            "retry_not_before_epoch_ms" := c.text(NotBeforeMs(policy, attempt, now)),
            "error_code" := "TRANSIENT_PROCESSING_ERROR",
            "error_message" := Truncate(error)],
        Some("TRANSIENT_PROCESSING_ERROR"))
  }

  function InvalidContract(c: Config, payload: Bytes, attempt: nat, code: string, error: string): Decision {
    Decision(
      DeadLetter, c.sha256(payload), payload, c.sha256(payload), true,
      map["attempt" := c.text(attempt), "error_code" := code, "error_message" := Truncate(error)],
      Some(code))
  }

  function InvalidRetry(c: Config, payload: Bytes, reason: string): Decision {
    Decision(
      DeadLetter, c.sha256(payload), payload, c.sha256(payload), true,
      map["error_code" := "INVALID_RETRY_METADATA", "error_message" := reason],
      Some("INVALID_RETRY_METADATA"))
  }

  // ---- the processors ----------------------------------------------------------------------

  /** What one call to a processor observes: the Source Pack, an injected or raised transient error, and
      the clocks. `horizon` is the clock reading of the retry worker's horizon test, if it makes one. */
  datatype Env = Env(
    pack: PackOutcome,
    fault: Option<string>,
    contractError: string,
    now: real,
    clock: Instant,
    horizon: Option<real>)

  /** `None` when the parsed event cannot be written, which nothing catches. */
  function ParserProcess(c: Config, payload: Bytes, attempt: nat, env: Env): Option<Decision> {
    match c.decodeRaw(payload)
    case None => Some(InvalidContract(c, payload, attempt, "INVALID_RAW_CONTRACT", env.contractError))
    case Some(e) =>
      if env.fault.Some? then
        Some(RetryOrDeadLetter(c, ParserStage, payload, e.eventId, attempt, env.fault.value, env.now))
      else
        match c.encodeParsed(EngineProcess(c.sha256, e, env.pack, env.clock))
        case None => None
        case Some(written) =>
          Some(Decision(
            ParsedEvent, e.eventId, written, e.eventId, true,
            map["attempt" := c.text(attempt), "contract_version" := "1.0.0"],
            None))
  }

  /** `None` when normalizing raises something other than a transient error, which nothing catches. */
  function NormalizerProcess(c: Config, payload: Bytes, attempt: nat, env: Env): Option<Decision> {
    match c.decodeParsed(payload)
    case None => Some(InvalidContract(c, payload, attempt, "INVALID_PARSED_CONTRACT", env.contractError))
    case Some(p) =>
      if env.fault.Some? then
        Some(RetryOrDeadLetter(c, NormalizerStage, payload, p.eventId, attempt, env.fault.value, env.now))
      else
        match c.normalize(p, env.clock)
        case None => None
        case Some(e) =>
          Some(Decision(
            NormalizedEvent, p.eventId, c.encodeNormalized(e), p.eventId, true,
            map["attempt" := c.text(attempt), "schema_version" := "1.0.0"],
            None))
  }

  /** `RetryProcessorRouter.for_headers`; None stands for the invalid-retry processor. */
  function RetryRoute(h: Headers): Option<Stage> {
    if "retry_stage" !in h then None
    else if h["retry_stage"] == "parser" then Some(ParserStage)
    else if h["retry_stage"] == "normalizer" then Some(NormalizerStage)
    else None
  }

  function AttemptValue(c: Config, h: Headers): nat {
    match c.parseInt(if "attempt" in h then h["attempt"] else "0")
    case None => 0
    case Some(n) => Max(n, 0)
  }

  function DeadlineText(h: Headers): string {
    if "retry_not_before_epoch_ms" in h then h["retry_not_before_epoch_ms"] else "0"
  }

  /** The retry worker's horizon test on a parsed deadline. */
  predicate DeadlineAccepted(dueMs: int, clock: real) {
    0 <= dueMs && (dueMs as real) <= clock * 1000.0 + 1805000.0
  }

  /** The deadline a retry record carries, when the horizon test accepts it. */
  function AcceptedDeadline(c: Config, h: Headers, clock: real): Option<int> {
    match c.parseInt(DeadlineText(h))
    case None => None
    case Some(due) => if DeadlineAccepted(due, clock) then Some(due) else None
  }

  /** The horizon test is made and fails. */
  predicate DeadlineRejected(c: Config, h: Headers, env: Env) {
    env.horizon.Some? && AcceptedDeadline(c, h, env.horizon.value).None?
  }

  function StageProcess(c: Config, stage: Stage, payload: Bytes, attempt: nat, env: Env): Option<Decision> {
    match stage
    case ParserStage => ParserProcess(c, payload, attempt, env)
    case NormalizerStage => NormalizerProcess(c, payload, attempt, env)
  }

  /** Where the sink stores one consumed value; `None` is an exception. */
  function SinkTable(c: Config, payload: Bytes): Option<Topic> {
    match c.decodeNormalized(payload)
    case Unloadable => None
    case NotJson => Some(QuarantineTable)
    case NotObject => Some(QuarantineTable)
    case Event(e) =>
      match c.storable(e)
      case None => None
      case Some(fit) => Some(if fit then EventsTable else QuarantineTable)
  }

  /** The one decision a worker subscribed to `topic` takes on a record, for every role; `None` when an
      exception leaves its processor. */
  function Decide(c: Config, topic: Topic, payload: Bytes, h: Headers, env: Env): Option<Decision> {
    match topic
    case RawEvent => ParserProcess(c, payload, AttemptValue(c, h), env)
    case ParsedEvent => NormalizerProcess(c, payload, AttemptValue(c, h), env)
    case Retry =>
      (match RetryRoute(h)
       case None => Some(InvalidRetry(c, payload, "retry message has no recognized retry_stage header"))
       case Some(stage) =>
         if DeadlineRejected(c, h, env) then Some(InvalidRetry(c, payload, "invalid retry_not_before_epoch_ms"))
         else StageProcess(c, stage, payload, AttemptValue(c, h), env))
    case _ =>
      match SinkTable(c, payload)
      case None => None
      case Some(table) => Some(Decision(table, "", payload, "", true, map[], None))
  }

  predicate Consumed(t: Topic) {
    t == RawEvent || t == ParsedEvent || t == NormalizedEvent || t == Retry
  }

  // ---- properties: bounded work ------------------------------------------------------------

  function MaxAttempts(c: Config): nat {
    Max(c.parser.maxAttempts, c.normalizer.maxAttempts)
  }

  function Budget(c: Config, attempt: nat): nat {
    if attempt < MaxAttempts(c) then MaxAttempts(c) - attempt else 0
  }

  /** How many processing steps can still follow from a record: one for each retry left, and one for
      each stage it has yet to pass, the sink included. A dead letter counts like a normalized event. */
  function Rank(c: Config, topic: Topic, h: Headers): nat {
    match topic
    case RawEvent => Budget(c, AttemptValue(c, h)) + 3
    case ParsedEvent => Budget(c, AttemptValue(c, h)) + 2
    case Retry =>
      (match RetryRoute(h)
       case None => 2
       case Some(ParserStage) => Budget(c, AttemptValue(c, h)) + 3
       case Some(NormalizerStage) => Budget(c, AttemptValue(c, h)) + 2)
    case NormalizedEvent => 1
    case DeadLetter => 1
    case _ => 0
  }

  /** The retry branch of either stage spends one attempt. */
  lemma RetryDecreasesRank(c: Config, stage: Stage, payload: Bytes, id: string, attempt: nat, error: string, now: real)
    requires Numbered(c)
    ensures var d := RetryOrDeadLetter(c, stage, payload, id, attempt, error, now);
            Rank(c, d.topic, d.headers) <
            Budget(c, attempt) + (if stage == ParserStage then 3 else 2)
  {
    assert c.parseInt(c.text(attempt + 1)) == Some(attempt + 1);
    var d := RetryOrDeadLetter(c, stage, payload, id, attempt, error, now);
    if attempt < PolicyOf(c, stage).maxAttempts {
      assert RetryRoute(d.headers) == Some(stage);
      assert AttemptValue(c, d.headers) == attempt + 1;
    }
  }

  lemma StageDecreasesRank(c: Config, stage: Stage, payload: Bytes, attempt: nat, env: Env)
    requires Numbered(c)
    ensures var d := StageProcess(c, stage, payload, attempt, env);
            d.Some? ==> Rank(c, d.value.topic, d.value.headers) < Budget(c, attempt) + (if stage == ParserStage then 3 else 2)
  {
    assert c.parseInt(c.text(attempt)) == Some(attempt as int);
    if env.fault.Some? {
      var id := if stage == ParserStage
                then (if c.decodeRaw(payload).Some? then c.decodeRaw(payload).value.eventId else "")
                else (if c.decodeParsed(payload).Some? then c.decodeParsed(payload).value.eventId else "");
      RetryDecreasesRank(c, stage, payload, id, attempt, env.fault.value, env.now);
    }
  }

  /** Every decision is strictly closer to the end than the record it was taken on, for any record at
      all (well-formed or not) and whatever fails. */
  lemma DecisionDecreasesRank(c: Config, topic: Topic, payload: Bytes, h: Headers, env: Env)
    requires Numbered(c) && Consumed(topic)
    ensures var d := Decide(c, topic, payload, h, env);
            d.Some? ==> Rank(c, d.value.topic, d.value.headers) < Rank(c, topic, h)
  {
    hide ParserProcess, NormalizerProcess, Budget, AttemptValue, Numbered;
    StageDecreasesRank(c, ParserStage, payload, AttemptValue(c, h), env);
    StageDecreasesRank(c, NormalizerStage, payload, AttemptValue(c, h), env);
  }

  lemma StageCountsAttempts(c: Config, stage: Stage, payload: Bytes, attempt: nat, env: Env)
    requires Numbered(c)
    ensures var d := StageProcess(c, stage, payload, attempt, env);
            d.Some? ==>
              && (d.value.topic == Retry ==> AttemptValue(c, d.value.headers) == attempt + 1 <= MaxAttempts(c))
              && (d.value.topic in {ParsedEvent, NormalizedEvent} ==> AttemptValue(c, d.value.headers) == attempt)
  {
    assert c.parseInt(c.text(attempt)) == Some(attempt as int);
    assert c.parseInt(c.text(attempt + 1)) == Some(attempt + 1);
  }

  /** The attempt number counts retries: a retry adds one and stays within the larger of the two
      policies' limits, and a forward step carries the number unchanged. */
  lemma DecisionCountsAttempts(c: Config, topic: Topic, payload: Bytes, h: Headers, env: Env)
    requires Numbered(c) && Consumed(topic) && topic != NormalizedEvent
    ensures var d := Decide(c, topic, payload, h, env);
            d.Some? ==>
              && (d.value.topic == Retry ==> AttemptValue(c, d.value.headers) == AttemptValue(c, h) + 1 <= MaxAttempts(c))
              && (d.value.topic in {ParsedEvent, NormalizedEvent} ==>
                    AttemptValue(c, d.value.headers) == AttemptValue(c, h))
  {
    hide ParserProcess, NormalizerProcess, Numbered, AttemptValue;
    StageCountsAttempts(c, ParserStage, payload, AttemptValue(c, h), env);
    StageCountsAttempts(c, NormalizerStage, payload, AttemptValue(c, h), env);
  }

  // ---- properties: identity and payloads -----------------------------------------------------

  predicate RawCarries(c: Config, payload: Bytes, id: string, sha: string) {
    var e := c.decodeRaw(payload);
    e.Some? && e.value.eventId == id && e.value.rawSha256 == sha
  }

  predicate ParsedCarries(c: Config, payload: Bytes, id: string, sha: string) {
    var p := c.decodeParsed(payload);
    p.Some? && p.value.eventId == id && p.value.rawEvent.rawSha256 == sha
  }

  predicate NormalizedCarries(c: Config, payload: Bytes, id: string, sha: string) {
    var d := c.decodeNormalized(payload);
    d.Event? && Identity(d.event) == Some((id, sha))
  }

  /** The record's payload, read as its topic and stage demand, is about event `id` with hash `sha`. */
  predicate Carries(c: Config, topic: Topic, payload: Bytes, h: Headers, id: string, sha: string) {
    match topic
    case RawEvent => RawCarries(c, payload, id, sha)
    case ParsedEvent => ParsedCarries(c, payload, id, sha)
    case Retry =>
      (match RetryRoute(h)
       case None => false
       case Some(ParserStage) => RawCarries(c, payload, id, sha)
       case Some(NormalizerStage) => ParsedCarries(c, payload, id, sha))
    case DeadLetter => RawCarries(c, payload, id, sha) || ParsedCarries(c, payload, id, sha)
    case _ => NormalizedCarries(c, payload, id, sha)
  }

  lemma ParserKeepsIdentity(c: Config, payload: Bytes, attempt: nat, env: Env, id: string, sha: string)
    requires Lawful(c) && RawCarries(c, payload, id, sha)
    ensures var d := ParserProcess(c, payload, attempt, env);
            d.Some? ==>
              && Carries(c, d.value.topic, d.value.payload, d.value.headers, id, sha)
              && d.value.key == id && d.value.eventId == id
  {
    hide EngineProcess;
    var e := c.decodeRaw(payload).value;
    EngineContract(c.sha256, e, env.pack, env.clock);
    var p := EngineProcess(c.sha256, e, env.pack, env.clock);
    assert c.encodeParsed(p).Some? ==> c.decodeParsed(c.encodeParsed(p).value) == Some(p);
  }

  lemma NormalizerKeepsIdentity(c: Config, payload: Bytes, attempt: nat, env: Env, id: string, sha: string)
    requires Lawful(c) && ParsedCarries(c, payload, id, sha)
    ensures var d := NormalizerProcess(c, payload, attempt, env);
            d.Some? ==>
              && Carries(c, d.value.topic, d.value.payload, d.value.headers, id, sha)
              && d.value.key == id && d.value.eventId == id
  {
  }

  /** One step keeps the evidence identity, whatever the Source Pack does; a retry or dead letter carries the
      consumed bytes unchanged, and only a rejected retry deadline replaces the event id in the output key. */
  lemma DecisionKeepsIdentity(
    c: Config, topic: Topic, payload: Bytes, h: Headers, env: Env, id: string, sha: string)
    requires Lawful(c) && Consumed(topic)
    requires Carries(c, topic, payload, h, id, sha)
    ensures var d := Decide(c, topic, payload, h, env);
            d.Some? ==>
              && Carries(c, d.value.topic, d.value.payload, d.value.headers, id, sha)
              && (topic == RawEvent || topic == ParsedEvent || (topic == Retry && !DeadlineRejected(c, h, env)) ==>
                    d.value.key == id && d.value.eventId == id)
  {
    hide ParserProcess, NormalizerProcess, AttemptValue, Lawful, ParsedCarries, NormalizedCarries, DeadlineRejected;
    if RawCarries(c, payload, id, sha) {
      ParserKeepsIdentity(c, payload, AttemptValue(c, h), env, id, sha);
    }
    if ParsedCarries(c, payload, id, sha) {
      NormalizerKeepsIdentity(c, payload, AttemptValue(c, h), env, id, sha);
    }
  }

  /** A retry record whose deadline the horizon test rejects is dead-lettered under a digest of its payload,
      which tells its event id only if it happens to be that digest. */
  lemma RejectedDeadlineHidesId(c: Config, payload: Bytes, h: Headers, env: Env, id: string, sha: string)
    requires DeadlineRejected(c, h, env) && Carries(c, Retry, payload, h, id, sha)
    ensures var d := Decide(c, Retry, payload, h, env);
            && d.Some? && d.value.topic == DeadLetter && d.value.payload == payload
            && (d.value.key == id <==> c.sha256(payload) == id)
  {
    hide ParserProcess, NormalizerProcess, AttemptValue, RawCarries, ParsedCarries, DeadlineRejected;
  }

  /** A deadline that is no number is rejected at every clock reading. */
  lemma WordyDeadlineHidesId(c: Config, payload: Bytes, env: Env, clock: real, id: string, sha: string)
    requires c.parseInt("soon") == None && RawCarries(c, payload, id, sha) && env.horizon == Some(clock)
    ensures var h := map["retry_stage" := "parser", "retry_not_before_epoch_ms" := "soon"];
            var d := Decide(c, Retry, payload, h, env);
            && Carries(c, Retry, payload, h, id, sha)
            && d.Some? && d.value.topic == DeadLetter && d.value.key == c.sha256(payload)
  {
    var h := map["retry_stage" := "parser", "retry_not_before_epoch_ms" := "soon"];
    assert DeadlineText(h) == "soon" && RetryRoute(h) == Some(ParserStage);
    hide ParserProcess, NormalizerProcess, AttemptValue, RawCarries;
  }

  lemma StageFailureKeepsBytes(c: Config, stage: Stage, payload: Bytes, attempt: nat, env: Env)
    ensures var d := StageProcess(c, stage, payload, attempt, env);
            d.Some? ==>
              && (d.value.topic == Retry || d.value.topic == DeadLetter ==> d.value.payload == payload)
              && (d.value.topic != Retry <==> d.value.terminal)
              && (d.value.topic == Retry || d.value.topic == DeadLetter
                  || d.value.topic == if stage == ParserStage then ParsedEvent else NormalizedEvent)
  {
  }

  /** Failure routing never rewrites evidence: for every record and environment, whatever does not
      move to the next stage holds exactly the consumed bytes, and only retries are not terminal. */
  lemma FailureKeepsBytes(c: Config, topic: Topic, payload: Bytes, h: Headers, env: Env)
    requires Consumed(topic)
    ensures var d := Decide(c, topic, payload, h, env);
            d.Some? ==>
              && (d.value.topic != ParsedEvent && d.value.topic != NormalizedEvent ==> d.value.payload == payload)
              && (d.value.terminal <==> d.value.topic != Retry)
  {
    hide StageProcess, ParserProcess, NormalizerProcess, AttemptValue, SinkTable, DeadlineRejected, InvalidRetry;
    if topic == NormalizedEvent {
      SinkTableIsTable(c, payload);
    } else {
      StagesAre(c, payload, AttemptValue(c, h), env);
      StageFailureKeepsBytes(c, ParserStage, payload, AttemptValue(c, h), env);
      StageFailureKeepsBytes(c, NormalizerStage, payload, AttemptValue(c, h), env);
      InvalidRetryKeepsBytes(c, payload, "retry message has no recognized retry_stage header");
      InvalidRetryKeepsBytes(c, payload, "invalid retry_not_before_epoch_ms");
    }
  }

  lemma InvalidRetryKeepsBytes(c: Config, payload: Bytes, reason: string)
    ensures var d := InvalidRetry(c, payload, reason); d.topic == DeadLetter && d.terminal && d.payload == payload
  {
  }

  lemma StagesAre(c: Config, payload: Bytes, attempt: nat, env: Env)
    ensures StageProcess(c, ParserStage, payload, attempt, env) == ParserProcess(c, payload, attempt, env)
    ensures StageProcess(c, NormalizerStage, payload, attempt, env) == NormalizerProcess(c, payload, attempt, env)
  {
    hide ParserProcess, NormalizerProcess;
  }

  lemma SinkTableIsTable(c: Config, payload: Bytes)
    ensures SinkTable(c, payload) in {None, Some(EventsTable), Some(QuarantineTable)}
  {
  }

  // ---- properties: backoff -------------------------------------------------------------------

  lemma {:induction false} Pow2Monotone(m: nat, n: nat)
    requires m <= n
    ensures Pow2(m) <= Pow2(n)
    decreases n
  {
    if m < n {
      Pow2Monotone(m, n - 1);
    }
  }

  lemma BackoffMonotoneAndBounded(p: Policy, m: nat, n: nat)
    requires ValidPolicy(p) && m <= n
    ensures Delay(p, m) <= Delay(p, n)
    ensures Min(p.baseSeconds, p.capSeconds) <= Delay(p, m) <= p.capSeconds
  {
    hide Pow2;
    Pow2Monotone(m, n);
    ScaleMonotone(p.baseSeconds, 1, Pow2(m));
    ScaleMonotone(p.baseSeconds, Pow2(m), Pow2(n));
  }

  lemma ScaleMonotone(k: nat, x: nat, y: nat)
    requires x <= y
    ensures k * x <= k * y
  {
  }

  /** A deadline written with a cap of at most 30 minutes is accepted by every worker whose clock
      lags by at most five seconds. */
  lemma BackoffFitsHorizon(p: Policy, attempt: nat, now: real, clock: real)
    requires p.capSeconds <= DEFAULT_POLICY.capSeconds
    requires 0.0 <= now && now - 5.0 <= clock
    ensures DeadlineAccepted(NotBeforeMs(p, attempt, now), clock)
  {
    var x := (now + Delay(p, attempt) as real) * 1000.0;
    assert x <= (now + 1800.0) * 1000.0;
    assert x.Floor as real <= x;
  }
}
