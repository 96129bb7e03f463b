/** The normalized event as the validator, the normalizer and the stores read it.

    A section is `Absent` when its key is missing, `Malformed` when the key holds something
    that is not an object, and `Object` otherwise. Leaves stay dynamically typed, so that every
    `isinstance` branch of the validator can be taken; a missing leaf reads as `Null`. */
module UnifiedEvents {
  import opened Common
  import opened Contracts

  datatype Section<+T> = Absent | Malformed | Object(body: T)

  datatype Times = Times(observedAt: Value, ingestedAt: Value, normalizedAt: Value)

  datatype EventMeta = EventMeta(id: Value, category: Value, eventType: Value, name: Value, message: Value)

  datatype Observer = Observer(
    vendor: Value, product: Value, observerType: Value, hostname: Value, softwareVersion: Value)

  datatype Action = Action(original: Value, normalized: Value, outcome: Value)

  datatype Severity = Severity(original: Value, normalized: Value, labelText: Value)

  datatype Endpoint = Endpoint(ip: Value, port: Value, interface: Value)

  datatype Authentication = Authentication(user: Value, result: Value)

  datatype Threat = Threat(name: Value, confidence: Value, signatureId: Value, category: Value)

  datatype Quality = Quality(
    status: Value, confidence: Value, missingFields: Value, warnings: Value)

  datatype RawText = RawText(content: Value)

  datatype Traceability = Traceability(
    rawEventId: Value,
    rawSha256: Value,
    sourcePackName: Value,
    sourcePackVersion: Value,
    parserName: Value,
    parserVersion: Value,
    rawEvent: Section<RawText>)

  datatype UnifiedEvent = UnifiedEvent(
    times: Section<Times>,
    meta: Section<EventMeta>,
    observer: Section<Observer>,
    action: Section<Action>,
    severity: Section<Severity>,
    source: Section<Endpoint>,
    destination: Section<Endpoint>,
    network: Section<Fields>,
    threat: Section<Threat>,
    authentication: Section<Authentication>,
    http: Section<Fields>,
    quality: Section<Quality>,
    traceability: Section<Traceability>,
    extensions: Section<Fields>)

  /** The event id and raw hash that an event carries, when both are present as text. */
  function Identity(e: UnifiedEvent): Option<(string, string)> {
    if e.meta.Object? && e.traceability.Object?
       && e.meta.body.id.Str? && e.traceability.body.rawSha256.Str? then
      Some((e.meta.body.id.text, e.traceability.body.rawSha256.text))
    else
      None
  }
}
