/**
 The request-log report assembled when a run completes: when it is
 produced at all, and where each of its fields comes from.
 */
module Reporting {
  import opened Options
  import opened Responses
  import opened AttemptMetrics

  /** The upload token: its text and whether it is still valid. */
  datatype UpToken = UpToken(valid: bool, token: string)

  /** The caller's description of what is being uploaded (UploadRequestInfo). */
  datatype RequestInfo = RequestInfo(
    shouldReportRequestLog: bool,
    bucket: Option<string>,
    key: Option<string>,
    fileOffset: int,
    targetRegionId: Option<string>,
    currentRegionId: Option<string>,
    requestType: Option<string>)

  /** The server an attempt is sent to, with the provenance of its prefetched address. */
  datatype UploadServer = UploadServer(
    ip: Option<string>,
    host: Option<string>,
    source: Option<string>,
    ipPrefetchedTime: Option<int>)

  /** The request every attempt of a run sends. */
  datatype Request = Request(host: Option<string>, server: UploadServer)

  /**
   What the report reads from outside this core: the token and request
   info of the run, the status and error-type classification ReportItem
   assigns to an outcome, and the DNS prefetcher's last error. The request
   info is never null here: its key is read, unguarded, before every
   attempt is dispatched, so a run without one never gets as far as a
   report.
   */
  datatype ReportEnv = ReportEnv(
    token: Option<UpToken>,
    requestInfo: RequestInfo,
    statusCodeOf: Option<Response> -> int,
    errorTypeOf: Option<Response> -> Option<string>,
    lastPrefetchError: Option<string>)

  /** The fields of a request-log report that this core selects. */
  datatype Report = Report(
    authToken: string,
    upTime: int,
    clientTime: int,
    statusCode: int,
    requestId: Option<string>,
    host: Option<string>,
    remoteIp: Option<string>,
    port: Option<int>,
    targetBucket: Option<string>,
    targetKey: Option<string>,
    totalElapsedTime: int,
    dnsElapsedTime: int,
    connectElapsedTime: int,
    tlsConnectElapsedTime: int,
    requestElapsedTime: int,
    waitElapsedTime: int,
    responseElapsedTime: int,
    fileOffset: int,
    bytesSent: int,
    bytesTotal: int,
    targetRegionId: Option<string>,
    currentRegionId: Option<string>,
    errorType: Option<string>,
    errorDescription: Option<string>,
    upType: Option<string>,
    prefetchedDnsSource: Option<string>,
    prefetchedBefore: Option<int>,
    prefetchedErrorMessage: Option<string>,
    httpClient: Option<string>,
    httpClientVersion: Option<string>)

  /** Java's `long / 1000`, which truncates toward zero. */
  function Seconds(ms: int): (s: int)
    ensures ms >= 0 ==> 0 <= s && 1000 * s <= ms < 1000 * s + 1000
    ensures ms < 0 ==> s <= 0 && 1000 * s - 1000 < ms <= 1000 * s
  {
    if ms >= 0 then ms / 1000 else -((-ms) / 1000)
  }

  /** Whether a completed run reports at all. */
  predicate ShouldReport(env: ReportEnv, lastMetrics: Option<Metrics>) {
    && env.token.Some? && env.token.value.valid
    && env.requestInfo.shouldReportRequestLog
    && lastMetrics.Some?
  }

  /**
   The report for a completed run. `lastMetrics` is the final attempt's own
   record, not the last element of the run's metrics list; `now` is the
   clock reading taken when the report is built.
   */
  function ReportRequest(env: ReportEnv, info: Option<Response>, request: Request,
                         lastMetrics: Option<Metrics>, now: int): (r: Option<Report>)
    ensures r.Some? <==> ShouldReport(env, lastMetrics)
    ensures r.Some? ==>
      && r.value.authToken == env.token.value.token
      && r.value.clientTime == now
      && r.value.upTime == Seconds(now)
      && r.value.requestId == (if info.Some? then info.value.reqId else None)
      && r.value.host == request.host
    ensures r.Some? ==>
      && r.value.errorType == env.errorTypeOf(info)
      && (r.value.errorDescription.Some? ==> info.Some? && r.value.errorType.Some?)
      && (info.Some? && r.value.errorType.Some? ==>
            r.value.errorDescription == if info.value.error.Some? then info.value.error else info.value.message)
    ensures r.Some? ==>
      && (r.value.prefetchedBefore.Some? <==> request.server.ipPrefetchedTime.Some?)
      && (r.value.prefetchedBefore.Some? ==> r.value.prefetchedBefore.value == request.server.ipPrefetchedTime.value - now)
    ensures r.Some? ==>
      && r.value.remoteIp == lastMetrics.value.remoteAddress
      && r.value.port == lastMetrics.value.remotePort
      && r.value.waitElapsedTime == lastMetrics.value.totalWaitTime
      && r.value.responseElapsedTime == lastMetrics.value.totalResponseTime
      && r.value.bytesSent == lastMetrics.value.bytesSend
  {
    if !ShouldReport(env, lastMetrics) then None
    else
      var m := lastMetrics.value;
      var ri := env.requestInfo;
      var errorType := env.errorTypeOf(info);
      var errorDesc :=
        if info.Some? && errorType.Some? then
          (if info.value.error.Some? then info.value.error else info.value.message)
        else None;
      var prefetched :=
        match request.server.ipPrefetchedTime
        case None => None
        case Some(t) => Some(t - now);
      Some(Report(
        authToken := env.token.value.token,
        upTime := Seconds(now),
        clientTime := now,
        statusCode := env.statusCodeOf(info),
        requestId := if info.Some? then info.value.reqId else None,
        host := request.host,
        remoteIp := m.remoteAddress,
        port := m.remotePort,
        targetBucket := ri.bucket,
        targetKey := ri.key,
        totalElapsedTime := m.totalElapsedTime,
        dnsElapsedTime := m.totalDnsTime,
        connectElapsedTime := m.totalConnectTime,
        tlsConnectElapsedTime := m.totalSecureConnectTime,
        requestElapsedTime := m.totalRequestTime,
        waitElapsedTime := m.totalWaitTime,
        // the response-time key is written twice; the later write wins
        responseElapsedTime := m.totalResponseTime,
        fileOffset := ri.fileOffset,
        bytesSent := m.bytesSend,
        bytesTotal := m.totalBytes,
        targetRegionId := ri.targetRegionId,
        currentRegionId := ri.currentRegionId,
        errorType := errorType,
        errorDescription := errorDesc,
        upType := ri.requestType,
        prefetchedDnsSource := request.server.source,
        prefetchedBefore := prefetched,
        prefetchedErrorMessage := env.lastPrefetchError,
        httpClient := m.clientName,
        httpClientVersion := m.clientVersion))
  }
}
