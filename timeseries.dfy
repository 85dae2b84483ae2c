/**
 * The time-series store as far as the engine changes it: an append-only log of the
 * points written to it. What the store answers to queries is not derived from this log
 * (the queries' two-day window, their tag filter and the packet-to-point conversion are
 * not modelled); the answers are inputs to the policy instead.
 */
module TimeSeries {
  import opened Packets

  /** One write_points call: the battery policy's new interval for a device, or a received packet. */
  datatype Record =
    | IntervalRecord(treetalker: int, measurementInterval: int)
    | PacketRecord(packet: Packet)

  class Store {
    var records: seq<Record>

    constructor()
      ensures records == []
    {
      records := [];
    }

    method WritePoints(r: Record)
      modifies this
      ensures records == old(records) + [r]
    {
      records := records + [r];
    }
  }
}
