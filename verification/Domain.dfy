/** The values of internal/domain that flow through the use-case layer. */
module Domain {
  import opened Wrappers

  /** A Go interface{} as the specs fill it. */
  datatype Field = Str(s: string) | Num(n: int) | Bool(b: bool)

  type Data = map<string, string>

  datatype EventType = EventUpdate | EventDead | EventOther

  /** cacheData is None for a nil map, which dead events carry. */
  datatype TelemetryEvent = TelemetryEvent(
    routerID: string,
    measurement: string,
    tags: Data,
    fields: map<string, Field>,
    timestamp: int,
    kind: EventType,
    cacheKey: string,
    cacheData: Option<Data>)

  datatype Point = Point(measurement: string, tags: Data, fields: map<string, Field>, timestamp: int)

  /** m[k] on a Go map of strings: missing keys read as "". */
  function Lookup(m: Data, k: string): string {
    if k in m then m[k] else ""
  }
}
