/** The records exchanged by the stages: raw envelope, parsed event and the
    dynamically typed values that a Source Pack extracts. */
module Contracts {
  import opened Common

  /** A decoded JSON/Python value. */
  datatype Value =
    | Null
    | Bool(flag: bool)
    | Int(number: int)
    | Float(mantissa: int, exponent: int)  // mantissa * 10^exponent, the shortest decimal that names the number
    | Str(text: string)
    | List(items: seq<Value>)
    | Dict(entries: map<string, Value>)

  /** Python truth value testing. */
  predicate Truthy(v: Value) {
    match v
    case Null => false
    case Bool(b) => b
    case Int(n) => n != 0
    case Float(m, _) => m != 0
    case Str(s) => s != ""
    case List(items) => items != []
    case Dict(entries) => entries != map[]
  }

  type Fields = map<string, Value>

  /** `fields.get(key)` */
  function Get(fields: Fields, key: string): Value {
    if key in fields then fields[key] else Null
  }

  /** The first and the last instant that a `datetime` in UTC can hold, in microseconds. */
  const EARLIEST := -62135596800000000  // 0001-01-01T00:00:00Z
  const LATEST := 253402300799999999    // 9999-12-31T23:59:59.999999Z

  /** A time in UTC: a clock reading, or a time the contract requires to be in UTC. */
  type Instant = t: int | EARLIEST <= t <= LATEST

  /** A `datetime` as it is parsed. With a zone it names a time that may lie up to a day outside the range of
      UTC, where it cannot be converted. */
  datatype Iso = Zoned(at: int) | Naive

  datatype Envelope = Envelope(eventId: string, rawSha256: string, raw: Bytes, ingestedAt: Instant)

  datatype ParseStatus = Success | Partial | Failed | Unrecognized

  datatype Parsed = Parsed(
    eventId: string,
    parsedAt: Iso,
    vendor: Option<string>,
    product: Option<string>,
    parserId: string,
    parserVersion: string,
    sourcePackId: Option<string>,
    sourcePackVersion: Option<string>,
    status: ParseStatus,
    issues: seq<string>,  // the message of each parse issue
    extracted: Fields,
    rawEvent: Envelope)

  /** The evidence check that the raw contract performs on every load. */
  predicate ValidEnvelope(e: Envelope, sha256: Bytes -> string) {
    e.rawSha256 == sha256(e.raw)
  }

  /** The identity check that the parsed contract performs on every load. */
  predicate ValidParsed(p: Parsed, sha256: Bytes -> string) {
    && p.eventId == p.rawEvent.eventId
    && ValidEnvelope(p.rawEvent, sha256)
  }
}
