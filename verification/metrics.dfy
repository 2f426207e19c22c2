/** The per-attempt timing record the transport produces (UploadSingleRequestMetrics). */
module AttemptMetrics {
  import opened Options
  import opened Responses

  /**
   One attempt's metrics. The timings are the values of the record's
   total*Time accessors, in milliseconds; `connectCheckResponse` is null
   until this core attaches a probe outcome to it.
   */
  datatype Metrics = Metrics(
    startDate: Option<int>,
    endDate: Option<int>,
    remoteAddress: Option<string>,
    remotePort: Option<int>,
    totalElapsedTime: int,
    totalDnsTime: int,
    totalConnectTime: int,
    totalSecureConnectTime: int,
    totalRequestTime: int,
    totalWaitTime: int,
    totalResponseTime: int,
    bytesSend: int,
    totalBytes: int,
    clientName: Option<string>,
    clientVersion: Option<string>,
    connectCheckResponse: Option<Response>)

  /**
   The record an attempt contributes to the run's metrics list: the
   transport's own record, with the probe's outcome attached when the
   attempt's outcome called for a probe. In the source the record is
   appended first and mutated afterwards through the shared reference; the
   list therefore holds the attached record, which is what this returns.
   */
  function Record(o: Oracles, info: Option<Response>, metrics: Option<Metrics>, probe: Option<Response>): (m: Option<Metrics>)
    ensures m.Some? <==> metrics.Some?
  {
    match metrics
    case None => None
    case Some(r) =>
      if ShouldCheckConnect(o, info) then Some(r.(connectCheckResponse := probe)) else metrics
  }

  /**
   Attaching the probe outcome touches no other field of the record, and
   happens exactly when the attempt's outcome called for a probe.
   */
  lemma RecordSpec(o: Oracles, info: Option<Response>, metrics: Option<Metrics>, probe: Option<Response>)
    ensures var m := Record(o, info, metrics, probe);
      && (m.Some? ==> m.value.(connectCheckResponse := metrics.value.connectCheckResponse) == metrics.value)
      && (m.Some? && ShouldCheckConnect(o, info) ==> m.value.connectCheckResponse == probe)
      && (!ShouldCheckConnect(o, info) ==> m == metrics)
  {
  }
}
