/**
 The network-quality update after a large transfer (updateHostNetworkStatus):
 the speed of a transfer over 1 MiB is reported for the server's address
 type. As written, the transfer's duration is its end time minus its end
 time, so no update can ever happen; `UpdateHostNetworkStatus` is the
 intended reading, with the duration taken from start to end.
 */
module NetworkStatus {
  import opened Options
  import opened AttemptMetrics
  import opened Reporting

  /** The smallest transfer, exclusive, whose speed is worth recording. */
  const LargeTransfer := 1024 * 1024

  /** One update sent to the network-status store: address type and bytes per second. */
  datatype StatusUpdate = StatusUpdate(ipType: string, speed: int)

  /** Utils.getIpType: the address family of a server, from its ip and host. */
  type IpTypeOf = (Option<string>, Option<string>) -> string

  /** The update as the source computes it: the duration is `endDate - endDate`. */
  function UpdateAsWritten(metrics: Option<Metrics>, server: UploadServer, ipType: IpTypeOf): Option<StatusUpdate> {
    match metrics
    case None => None
    case Some(m) =>
      if m.startDate.Some? && m.endDate.Some? && m.bytesSend > LargeTransfer then
        var duration := m.endDate.value - m.endDate.value;
        if duration > 0 then Some(StatusUpdate(ipType(server.ip, server.host), m.bytesSend * 1000 / duration))
        else None
      else None
  }

  /** As written, no input ever yields an update. */
  lemma AsWrittenNeverUpdates(metrics: Option<Metrics>, server: UploadServer, ipType: IpTypeOf)
    ensures UpdateAsWritten(metrics, server, ipType) == None
  {
  }

  /**
   The intended update: a transfer of more than 1 MiB with a positive
   measured duration is reported, at its speed in bytes per second rounded
   down; nothing else is.
   */
  function UpdateHostNetworkStatus(metrics: Option<Metrics>, server: UploadServer, ipType: IpTypeOf): (u: Option<StatusUpdate>)
    ensures u.Some? <==>
      && metrics.Some?
      && metrics.value.startDate.Some? && metrics.value.endDate.Some?
      && metrics.value.bytesSend > LargeTransfer
      && metrics.value.endDate.value > metrics.value.startDate.value
    ensures u.Some? ==>
      var m := metrics.value;
      var duration := m.endDate.value - m.startDate.value;
      && u.value.ipType == ipType(server.ip, server.host)
      && u.value.speed * duration <= m.bytesSend * 1000 < (u.value.speed + 1) * duration
  {
    match metrics
    case None => None
    case Some(m) =>
      if m.startDate.Some? && m.endDate.Some? && m.bytesSend > LargeTransfer then
        var duration := m.endDate.value - m.startDate.value;
        if duration > 0 then
          var speed := m.bytesSend * 1000 / duration;
          SpeedBounds(m.bytesSend * 1000, duration);
          Some(StatusUpdate(ipType(server.ip, server.host), speed))
        else None
      else None
  }

  lemma SpeedBounds(amount: int, duration: int)
    requires amount >= 0 && duration > 0
    ensures (amount / duration) * duration <= amount < (amount / duration + 1) * duration
  {
  }

  /** A 2 MiB transfer over one second: the intended reading reports it, the source does not. */
  lemma ElapsedTransferIsDropped(ipType: IpTypeOf)
    ensures var m := Metrics(Some(0), Some(1000), None, None, 0, 0, 0, 0, 0, 0, 0,
                             2 * LargeTransfer, 2 * LargeTransfer, None, None, None);
      var server := UploadServer(None, None, None, None);
      && UpdateAsWritten(Some(m), server, ipType) == None
      && UpdateHostNetworkStatus(Some(m), server, ipType) == Some(StatusUpdate(ipType(None, None), 2 * LargeTransfer))
  {
  }
}
