/** What every stage answers, said of the record and of what its processor observes: the engine's results, the
    choice between a retry and a dead letter, and the rejection of records that cannot be read. */
module Decisions {
  import opened Common
  import opened Contracts
  import opened Processors

  // ---- the engine --------------------------------------------------------------------------------------

  /** The Source Pack built a contract-valid record about the envelope it was given. */
  predicate PackSucceeds(sha256: Bytes -> string, e: Envelope, outcome: PackOutcome) {
    && outcome.Returned? && ValidParsed(outcome.parsed, sha256)
    && outcome.parsed.eventId == e.eventId && outcome.parsed.rawEvent.rawSha256 == e.rawSha256
  }

  /** The text of the one issue of an event that is not the Source Pack's. */
  predicate ExplainedBy(sha256: Bytes -> string, outcome: PackOutcome, issue: string) {
    match outcome
    case NoMatch => issue == "no matching source pack"
    case DetectionRaised => issue == "no matching source pack"
    case KnownError(_, reason) => issue == reason
    case UnexpectedError(_, reason) => issue == "unexpected_error: " + reason
    case NotParsed(_) => issue == "unexpected_error: Source Pack parse() must return canonical ParsedEvent"
    case Returned(_, p, violation) =>
      issue == if ValidParsed(p, sha256) then
                 "unexpected_error: Source Pack output does not reference the input raw event"
               else "unexpected_error: " + violation
  }

  /** The engine returns what the Source Pack built, untouched, exactly when that succeeds. */
  lemma EngineReturnsIff(sha256: Bytes -> string, e: Envelope, outcome: PackOutcome, now: Instant)
    requires ValidEnvelope(e, sha256)
    ensures PackSucceeds(sha256, e, outcome) <==>
            outcome.Returned? && EngineProcess(sha256, e, outcome, now) == outcome.parsed
  {
    EngineContract(sha256, e, outcome, now);
    hide FailedEvent, UnrecognizedEvent;
    if outcome.Returned? && Failure(sha256, e, outcome).Some? {
      FailedIsValid(sha256, e, Failure(sha256, e, outcome).value, outcome.pack, now);
    }
  }

  /** Without a Source Pack the event is unrecognized, and with one that did not succeed it failed. Either way it
      holds no fields, says why in one issue, and keeps the whole envelope. */
  lemma EngineExplains(sha256: Bytes -> string, e: Envelope, outcome: PackOutcome, now: Instant)
    requires ValidEnvelope(e, sha256) && !PackSucceeds(sha256, e, outcome)
    ensures var p := EngineProcess(sha256, e, outcome, now);
            && p.rawEvent == e && p.parsedAt == Zoned(now) && p.extracted == map[]
            && |p.issues| == 1 && ExplainedBy(sha256, outcome, p.issues[0])
            && (outcome.NoMatch? || outcome.DetectionRaised? <==> p.status == Unrecognized)
            && (!outcome.NoMatch? && !outcome.DetectionRaised? <==> p.status == Failed)
  {
    UnmatchedEvent(e, now);
    if !outcome.NoMatch? && !outcome.DetectionRaised? {
      FailureIsExplained(sha256, e, outcome);
      FailedShape(e, Failure(sha256, e, outcome).value, outcome.pack, now);
    }
    hide FailedEvent, UnrecognizedEvent, Failure;
  }

  lemma UnmatchedEvent(e: Envelope, now: Instant)
    ensures var p := UnrecognizedEvent(e, now);
            && p.rawEvent == e && p.parsedAt == Zoned(now) && p.extracted == map[] && p.status == Unrecognized
            && p.issues == ["no matching source pack"] && p.vendor == p.product == p.sourcePackId == None
  {
  }

  lemma FailureIsExplained(sha256: Bytes -> string, e: Envelope, outcome: PackOutcome)
    requires ValidEnvelope(e, sha256) && !PackSucceeds(sha256, e, outcome)
    requires !outcome.NoMatch? && !outcome.DetectionRaised?
    ensures Failure(sha256, e, outcome).Some? && ExplainedBy(sha256, outcome, Failure(sha256, e, outcome).value)
  {
  }

  lemma FailedShape(e: Envelope, reason: string, pack: Pack, now: Instant)
    ensures var p := FailedEvent(e, reason, pack, now);
            && p.rawEvent == e && p.parsedAt == Zoned(now) && p.extracted == map[] && p.status == Failed && p.issues == [reason]
  {
  }

  /** A failed event names the Source Pack that failed, with its own parser where it declares one. */
  lemma FailedNamesPack(sha256: Bytes -> string, e: Envelope, outcome: PackOutcome, now: Instant)
    requires ValidEnvelope(e, sha256) && !PackSucceeds(sha256, e, outcome)
    requires !outcome.NoMatch? && !outcome.DetectionRaised?
    ensures var p := EngineProcess(sha256, e, outcome, now);
            && p.vendor == outcome.pack.vendor && p.product == outcome.pack.product
            && p.sourcePackId == Some(outcome.pack.packId) && p.sourcePackVersion == outcome.pack.version
            && (outcome.pack.parserId.Some? ==> p.parserId == outcome.pack.parserId.value)
            && (outcome.pack.parserId.None? ==> p.parserId == outcome.pack.packId + ".parser")
            && (outcome.pack.parserVersion.Some? ==> p.parserVersion == outcome.pack.parserVersion.value)
            && (outcome.pack.parserVersion.None? && outcome.pack.version.Some? ==>
                  p.parserVersion == outcome.pack.version.value)
            && (outcome.pack.parserVersion.None? && outcome.pack.version.None? ==> p.parserVersion == "1.0.0")
  {
    FailureIsExplained(sha256, e, outcome);
    hide Failure;
  }

  // ---- from topic to topic -----------------------------------------------------------------------------

  /** The stage that handles a record of a topic. */
  predicate HandledBy(topic: Topic, h: Headers, stage: Stage) {
    match topic
    case RawEvent => stage == ParserStage
    case ParsedEvent => stage == NormalizerStage
    case Retry => "retry_stage" in h && h["retry_stage"] == (if stage == ParserStage then "parser" else "normalizer")
    case _ => false
  }

  /** Nothing outside the payload stands in the way of its stage. */
  predicate Admitted(c: Config, topic: Topic, h: Headers, env: Env) {
    topic == Retry ==> !DeadlineRejected(c, h, env)
  }

  lemma HandledIsStage(c: Config, topic: Topic, payload: Bytes, h: Headers, env: Env, stage: Stage)
    requires HandledBy(topic, h, stage) && Admitted(c, topic, h, env)
    ensures Decide(c, topic, payload, h, env) == StageProcess(c, stage, payload, AttemptValue(c, h), env)
  {
    hide ParserProcess, NormalizerProcess, AttemptValue, DeadlineRejected;
  }

  /** Without a fault, a raw record goes to the parsed topic as the event the engine makes of it, and to nowhere
      if that event cannot be written. In particular a good parse arrives there as the Source Pack built it. */
  lemma ParserPublishes(c: Config, topic: Topic, payload: Bytes, h: Headers, env: Env)
    requires Lawful(c) && HandledBy(topic, h, ParserStage) && Admitted(c, topic, h, env)
    requires env.fault.None? && c.decodeRaw(payload).Some?
    ensures var e, d := c.decodeRaw(payload).value, Decide(c, topic, payload, h, env);
            && (d.None? <==> c.encodeParsed(EngineProcess(c.sha256, e, env.pack, env.clock)).None?)
            && (d.Some? ==>
                  && d.value.topic == ParsedEvent && d.value.key == e.eventId
                  && c.decodeParsed(d.value.payload) == Some(EngineProcess(c.sha256, e, env.pack, env.clock))
                  && (PackSucceeds(c.sha256, e, env.pack) ==> c.decodeParsed(d.value.payload) == Some(env.pack.parsed)))
  {
    HandledIsStage(c, topic, payload, h, env, ParserStage);
    hide Decide, EngineProcess, DeadlineRejected;
    var e := c.decodeRaw(payload).value;
    EngineContract(c.sha256, e, env.pack, env.clock);
    EngineReturnsIff(c.sha256, e, env.pack, env.clock);
  }

  /** Without a fault, a parsed record goes to the normalized topic as what the normalizer makes of it, and to
      nowhere if that raises. */
  lemma NormalizerPublishes(c: Config, topic: Topic, payload: Bytes, h: Headers, env: Env)
    requires Lawful(c) && HandledBy(topic, h, NormalizerStage) && Admitted(c, topic, h, env)
    requires env.fault.None? && c.decodeParsed(payload).Some?
    ensures var p, d := c.decodeParsed(payload).value, Decide(c, topic, payload, h, env);
            && (d.None? <==> c.normalize(p, env.clock).None?)
            && (d.Some? ==>
                  && d.value.topic == NormalizedEvent && d.value.key == p.eventId
                  && c.decodeNormalized(d.value.payload) == Event(c.normalize(p, env.clock).value))
  {
    HandledIsStage(c, topic, payload, h, env, NormalizerStage);
    hide Decide, DeadlineRejected;
  }

  // ---- retries -----------------------------------------------------------------------------------------

  predicate Readable(c: Config, stage: Stage, payload: Bytes) {
    match stage
    case ParserStage => c.decodeRaw(payload).Some?
    case NormalizerStage => c.decodeParsed(payload).Some?
  }

  function LimitOf(c: Config, stage: Stage): nat {
    match stage
    case ParserStage => c.parser.maxAttempts
    case NormalizerStage => c.normalizer.maxAttempts
  }

  /** The headers give the code of the failure and the first 512 characters of what was raised. */
  predicate Tells(h: Headers, code: string, error: string) {
    && "error_code" in h && h["error_code"] == code
    && "error_message" in h && |h["error_message"]| == Min(|error|, 512) && h["error_message"] <= error
  }

  /** A transient fault on a readable record is retried exactly while the attempts last, and is a dead letter
      exactly when they are used up. */
  lemma RetriedIff(c: Config, topic: Topic, payload: Bytes, h: Headers, env: Env, stage: Stage)
    requires HandledBy(topic, h, stage) && Admitted(c, topic, h, env)
    requires env.fault.Some? && Readable(c, stage, payload)
    ensures var d := Decide(c, topic, payload, h, env);
            && d.Some?
            && (d.value.topic == Retry <==> AttemptValue(c, h) < LimitOf(c, stage))
            && (d.value.topic == DeadLetter <==> AttemptValue(c, h) >= LimitOf(c, stage))
            && d.value.errorCode == Some(if AttemptValue(c, h) < LimitOf(c, stage) then "TRANSIENT_PROCESSING_ERROR"
                                         else "TRANSIENT_RETRIES_EXHAUSTED")
            && Tells(d.value.headers, d.value.errorCode.value, env.fault.value)
            && HandledBy(Retry, d.value.headers, stage) && d.value.payload == payload
            && (d.value.terminal <==> d.value.topic == DeadLetter)
            && (d.value.topic == DeadLetter && Numbered(c) ==> AttemptValue(c, d.value.headers) == AttemptValue(c, h))
  {
    KeepsAttempt(c, h);
    HandledIsStage(c, topic, payload, h, env, stage);
    hide Decide, DeadlineRejected, AttemptValue, Delay, NotBeforeMs;
  }

  lemma KeepsAttempt(c: Config, h: Headers)
    ensures Numbered(c) ==>
              var n := AttemptValue(c, h);
              c.parseInt(c.text(n)) == Some(n) && forall g: Headers :: "attempt" in g && g["attempt"] == c.text(n) ==> AttemptValue(c, g) == n
  {
  }

  /** A retry comes back to the stage that failed, with one attempt more, and not before the time of the failure
      plus the base delay, doubled with each attempt, up to the cap. */
  lemma RetryIsScheduled(c: Config, topic: Topic, payload: Bytes, h: Headers, env: Env, stage: Stage, policy: Policy)
    requires Numbered(c) && HandledBy(topic, h, stage) && Admitted(c, topic, h, env)
    requires env.fault.Some? && Readable(c, stage, payload) && AttemptValue(c, h) < LimitOf(c, stage)
    requires policy == if stage == ParserStage then c.parser else c.normalizer
    ensures var d, n := Decide(c, topic, payload, h, env), AttemptValue(c, h);
            && d.Some? && HandledBy(Retry, d.value.headers, stage)
            && AttemptValue(c, d.value.headers) == n + 1
            && c.parseInt(DeadlineText(d.value.headers))
               == Some(((env.now + Min(policy.baseSeconds * Pow2(n), policy.capSeconds) as real) * 1000.0).Floor)
            && "retry_after_seconds" in d.value.headers
            && c.parseInt(d.value.headers["retry_after_seconds"])
               == Some(Min(policy.baseSeconds * Pow2(n), policy.capSeconds))
  {
    HandledIsStage(c, topic, payload, h, env, stage);
    var n := AttemptValue(c, h);
    ScheduleOf(c, stage, payload, "", n, env.fault.value, env.now);
    hide Decide, DeadlineRejected, AttemptValue, Pow2, Min, DeadlineText;
    var id := match stage case ParserStage => c.decodeRaw(payload).value.eventId
                          case NormalizerStage => c.decodeParsed(payload).value.eventId;
    ScheduleOf(c, stage, payload, id, n, env.fault.value, env.now);
    hide RetryOrDeadLetter;
  }

  lemma ScheduleOf(c: Config, stage: Stage, payload: Bytes, id: string, n: nat, error: string, now: real)
    requires Numbered(c) && n < LimitOf(c, stage)
    ensures var d := RetryOrDeadLetter(c, stage, payload, id, n, error, now);
            var policy := if stage == ParserStage then c.parser else c.normalizer;
            && HandledBy(Retry, d.headers, stage) && AttemptValue(c, d.headers) == n + 1
            && c.parseInt(DeadlineText(d.headers))
               == Some(((now + Min(policy.baseSeconds * Pow2(n), policy.capSeconds) as real) * 1000.0).Floor)
            && "retry_after_seconds" in d.headers
            && c.parseInt(d.headers["retry_after_seconds"]) == Some(Min(policy.baseSeconds * Pow2(n), policy.capSeconds))
  {
    hide Pow2, Min;
    assert c.parseInt(c.text(n + 1)) == Some(n + 1);
  }

  /** The delay starts at the base and doubles, until it reaches the cap and stays. */
  lemma DelayDoubles(p: Policy, n: nat)
    requires ValidPolicy(p)
    ensures Pow2(0) == 1 && Pow2(n + 1) == 2 * Pow2(n)
    ensures Delay(p, 0) == Min(p.baseSeconds, p.capSeconds)
    ensures Delay(p, n + 1) == Min(2 * Delay(p, n), p.capSeconds)
  {
    var x := p.baseSeconds * Pow2(n);
    assert p.baseSeconds * Pow2(n + 1) == 2 * x;
    assert p.baseSeconds * Pow2(0) == p.baseSeconds;
  }

  /** The attempt header counts when it holds a number that is not negative, and stands for zero otherwise. */
  lemma AttemptIs(c: Config, h: Headers)
    ensures var n := AttemptValue(c, h);
            && ("attempt" in h && c.parseInt(h["attempt"]).Some? && c.parseInt(h["attempt"]).value >= 0 ==>
                  n == c.parseInt(h["attempt"]).value)
            && ("attempt" in h && (c.parseInt(h["attempt"]).None? || c.parseInt(h["attempt"]).value < 0) ==> n == 0)
            && ("attempt" !in h && c.parseInt("0") == Some(0) ==> n == 0)
  {
  }

  /** The horizon test accepts a deadline exactly when it is a number that is neither negative nor more than half
      an hour and five seconds ahead of the clock; without a deadline a record is due at once. */
  lemma AcceptedIff(c: Config, h: Headers, clock: real)
    ensures "retry_not_before_epoch_ms" in h ==>
              var due := c.parseInt(h["retry_not_before_epoch_ms"]);
              AcceptedDeadline(c, h, clock).Some? <==>
                due.Some? && 0 <= due.value && due.value as real / 1000.0 - clock <= 1805.0
    ensures "retry_not_before_epoch_ms" in h && AcceptedDeadline(c, h, clock).Some? ==>
              AcceptedDeadline(c, h, clock) == c.parseInt(h["retry_not_before_epoch_ms"])
    ensures "retry_not_before_epoch_ms" !in h && c.parseInt("0") == Some(0) && clock >= 0.0 ==>
              AcceptedDeadline(c, h, clock) == Some(0)
  {
  }

  // ---- records that cannot be handled --------------------------------------------------------------------

  /** A payload that breaks the contract of its stage is a dead letter at once, fault or not, under its digest. */
  lemma UnreadableIsDeadLettered(c: Config, topic: Topic, payload: Bytes, h: Headers, env: Env, stage: Stage)
    requires HandledBy(topic, h, stage) && Admitted(c, topic, h, env) && !Readable(c, stage, payload)
    ensures var d := Decide(c, topic, payload, h, env);
            && d.Some? && d.value.topic == DeadLetter && d.value.payload == payload && d.value.key == c.sha256(payload)
            && d.value.errorCode == Some(if stage == ParserStage then "INVALID_RAW_CONTRACT" else "INVALID_PARSED_CONTRACT")
            && Tells(d.value.headers, d.value.errorCode.value, env.contractError) && d.value.terminal
            && (Numbered(c) ==> AttemptValue(c, d.value.headers) == AttemptValue(c, h))
  {
    HandledIsStage(c, topic, payload, h, env, stage);
    KeepsAttempt(c, h);
    hide Decide, DeadlineRejected, AttemptValue;
  }

  /** What the two errors of a retry record's metadata tell. */
  lemma RefusedRetry(c: Config, payload: Bytes, reason: string)
    requires |reason| <= 512
    ensures var d := InvalidRetry(c, payload, reason);
            && d.topic == DeadLetter && d.payload == payload && d.key == c.sha256(payload) && d.terminal
            && d.errorCode == Some("INVALID_RETRY_METADATA") && Tells(d.headers, "INVALID_RETRY_METADATA", reason)
  {
  }

  /** So is a retry record that no stage can be found for, or whose deadline is rejected. */
  lemma UnroutableIsDeadLettered(c: Config, payload: Bytes, h: Headers, env: Env)
    requires (forall stage :: !HandledBy(Retry, h, stage)) || DeadlineRejected(c, h, env)
    ensures var d := Decide(c, Retry, payload, h, env);
            && d.Some? && d.value.topic == DeadLetter && d.value.payload == payload && d.value.key == c.sha256(payload)
            && d.value.errorCode == Some("INVALID_RETRY_METADATA") && d.value.terminal
            && Tells(d.value.headers, "INVALID_RETRY_METADATA",
                     if forall stage :: !HandledBy(Retry, h, stage) then "retry message has no recognized retry_stage header"
                     else "invalid retry_not_before_epoch_ms")
  {
    assert (forall stage :: !HandledBy(Retry, h, stage)) <==> RetryRoute(h).None? by {
      assert !HandledBy(Retry, h, ParserStage) && !HandledBy(Retry, h, NormalizerStage) ==> RetryRoute(h).None?;
    }
    RefusedRetry(c, payload, "retry message has no recognized retry_stage header");
    RefusedRetry(c, payload, "invalid retry_not_before_epoch_ms");
    hide DeadlineRejected, ParserProcess, NormalizerProcess, AttemptValue, InvalidRetry, HandledBy, RetryRoute, Tells;
  }

  /** The fifth failure under the default limit is still retried, and the sixth is not. */
  lemma FifthFailureIsRetried(c: Config, payload: Bytes, env: Env, h: Headers, n: int)
    requires c.parser == DEFAULT_POLICY && env.fault.Some? && c.decodeRaw(payload).Some?
    requires "attempt" in h && c.parseInt(h["attempt"]) == Some(n) && n in {4, 5}
    ensures var d := Decide(c, RawEvent, payload, h, env);
            d.Some? && d.value.topic == if n == 4 then Retry else DeadLetter
  {
    AttemptIs(c, h);
    RetriedIff(c, RawEvent, payload, h, env, ParserStage);
    hide Decide, AttemptValue;
  }
}
