/** The leaves of a normalized event that the CEF and RFC 5424 printers read, as text. */
module Exports {
  import opened Common

  datatype Peer = Peer(ip: string, port: Option<int>)

  /** An absent message, host name or address is the empty string, which both printers treat alike. */
  datatype Exported = Exported(
    schemaVersion: string,
    observedAt: string,
    id: string,
    eventType: string,
    name: string,
    message: string,
    hostname: string,
    action: string,
    severity: int,
    source: Peer,
    destination: Peer,
    quality: string,
    rawSha256: string,
    packName: string,
    packVersion: string,
    parserName: string,
    parserVersion: string)

  datatype Field = Field(key: string, value: string)
}
