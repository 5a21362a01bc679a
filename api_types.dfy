/**
 * Shapes of the values exchanged with the stream-management server
 * (html/src/types/api.types.ts).  Only the two records the polling core
 * uses are modelled.
 */
module ApiTypes {

  /** The conventional optional value; `None` stands for JavaScript's null/undefined. */
  datatype Option<+T> = None | Some(value: T)

  /**
   * One stream identity: a publisher ID, a player ID and an optional
   * description.  Player IDs are unique on the server; publisher IDs may be shared.
   */
  datatype StreamId = StreamId(publisher: string, player: string, description: Option<string>)

  /**
   * The identity of a JavaScript object (an array or a `Date`).  React
   * compares an effect's dependencies with `Object.is`, which for objects
   * compares identities, not contents: a new array with the same elements,
   * or a new `Date` for the same instant, is a changed dependency.
   */
  type ObjectRef = nat

  /**
   * The transport statistics of one publisher as the stats endpoint reports them.
   * Counters, the bitrate and the uptime are integers here; the measured
   * rates and times are kept as exact reals and never computed with.
   */
  datatype PublisherStats = PublisherStats(
    bitrate: int,
    bytesRcvDrop: int,
    bytesRcvLoss: int,
    latency: int,
    mbpsBandwidth: real,
    mbpsRecvRate: real,
    msRcvBuf: int,
    pktRcvDrop: int,
    pktRcvLoss: int,
    rtt: real,
    uptime: int)
}
