# HttpSingleRequest: retry, reclassification, completion and reporting

This project models the decision logic of the Qiniu Android SDK's
`HttpSingleRequest`, the class that carries out one logical upload request.
A request can take several attempts.
The transport client supplies each attempt's outcome (`ResponseInfo`),
metrics record and response document. Everything after that is modelled:

- the cancellation check on every progress callback;
- appending the attempt's metrics to the run's list;
- the connectivity check that rewrites an ambiguous network failure to
  `NetworkSlow` when the probe says the device is offline;
- the four-way retry decision and the retry counter;
- the completion gate, which fires the caller's handler at most once;
- the gating and field selection of the request-log report.

In the source, a retry re-enters `retryRequest` from inside the transport's
completion callback. Here that recursion is a fold, `SingleRequest.Drive`,
over a caller-supplied sequence of `AttemptInput` values. Each value holds
what the transport delivers for one attempt, plus what the connectivity probe
would answer. External classifiers are function-valued fields of
`Responses.Oracles` and `Reporting.ReportEnv`:

- `isTlsError`, `couldHostRetry` and `ConnectChecker.isConnected`;
- the report's status-code and error-type mappings.

The caller's retry predicate is a field of `SingleRequest.Context`.

The terminal callback (line numbers in this README's prose refer to
`HttpSingleRequest.java`) first appends the attempt's metrics record to the
run's list (:106-108). It then attaches the probe outcome to that same
record through the shared reference (:112-114), and only after that may it
rewrite an ambiguous outcome (:115-118). Because the list holds a reference,
it ends up holding the record with the probe outcome attached. Attaching and
rewriting depend on nothing but the attempt itself. So `SingleRequest.Run`
first judges each delivered attempt (`SingleRequest.JudgeAll`): it attaches
the probe outcome and rewrites the outcome. It then folds the bookkeeping
(append, count, decide) over the judged attempts. This gives the same list
and the same decisions as the source's order, and it keeps the run-level
proofs apart from the text of the rewritten outcome.

Modules, one per concern:

| file | module | concern |
|---|---|---|
| options.dfy | Options | nullable references |
| decimal.dfy | Decimal | Java's decimal rendering of an `int`, and its parser |
| responses.dfy | Responses | outcomes, the connectivity-ambiguous class, reclassification |
| metrics.dfy | AttemptMetrics | per-attempt metrics and the probe attachment |
| cancellation.dfy | Cancellation | the cancellation check on progress callbacks |
| reporting.dfy | Reporting | the request-log report |
| single_request.dfy | SingleRequest | run state, retry decision, completion gate, the fold |
| run_properties.dfy | RunProperties | what a whole run guarantees |
| network_status.dfy | NetworkStatus | the network-quality update (see Findings) |

Three behaviours of the code that a reader might not expect:

- **Cancellation between attempts.** The code never checks cancellation
  between attempts. The flag is consulted only in the progress callback
  (:93-97), where its effect is to call `client.cancel()`.
  `RunProperties.CancellationDoesNotStopRetries` shows that, given the same
  transport outcomes, the retry decision in this file never reads the flag.
  What the transport delivers after `cancel()` is an input to the model.
- **Metrics count.** Only non-null metrics records are appended (:106-108).
  So the list length is the number of attempts that returned metrics, not
  the number of attempts.
- **Null outcome.** A null outcome that the retry predicate approves while the
  counter is below the ceiling throws at `couldHostRetry()` (:123-125). The
  run then ends with no completion and no report (`Phase.Faulted`). Without a
  completion handler nothing fires either. So the completion handler fires
  at most once, and exactly once when the run stops and a handler is present.

## Model

| member | source | states |
|---|---|---|
| Decimal.ParseIntToString | library/src/main/java/com/qiniu/android/http/request/HttpSingleRequest.java:116 | the decimal text that string concatenation gives an `int` status code parses back to that code |
| Responses.ShouldCheckConnect | library/src/main/java/com/qiniu/android/http/request/HttpSingleRequest.java:141-142 | a null outcome never calls for a probe |
| Responses.ShouldCheckConnectAmbiguous | library/src/main/java/com/qiniu/android/http/request/HttpSingleRequest.java:141-150 | a non-null outcome calls for a probe exactly when its status is NetworkError, -1001, -1003, -1004, -1005 or -1009, or it is a TLS error |
| Responses.DiagnosticRoundTrip | library/src/main/java/com/qiniu/android/http/request/HttpSingleRequest.java:116 | the message "check origin statusCode:<code> error:<error>" keeps both the original status and the original error text (null shown as "null"), and both can be read back |
| Responses.ReclassifySpec | library/src/main/java/com/qiniu/android/http/request/HttpSingleRequest.java:110-119 | when the probe is called for and reports no connectivity, the outcome becomes a NetworkSlow error whose text is the diagnostic message; in every other case the outcome is unchanged |
| Responses.ReclassifiedNamesOriginal | library/src/main/java/com/qiniu/android/http/request/HttpSingleRequest.java:110-119 | an outcome that was changed had an ambiguous or TLS status and a negative probe; the new status is NetworkSlow and its text names the original status and error |
| AttemptMetrics.Record | library/src/main/java/com/qiniu/android/http/request/HttpSingleRequest.java:106-108 | an attempt contributes a record exactly when it returned metrics |
| AttemptMetrics.RecordSpec | library/src/main/java/com/qiniu/android/http/request/HttpSingleRequest.java:110-114 | the probe outcome is attached to the record exactly when the outcome called for a probe, and no other field of the record changes |
| Cancellation.OnProgress | library/src/main/java/com/qiniu/android/http/request/HttpSingleRequest.java:75-101 | a progress callback cancels when the user already cancelled or a present signal reports cancellation; it then sets the user-cancel flag, asks a live client to cancel and forwards nothing; otherwise the progress goes to a present handler unchanged |
| Cancellation.CancelledStaysCancelled | library/src/main/java/com/qiniu/android/http/request/HttpSingleRequest.java:94-98 | once the user-cancel flag is set, each later callback only asks the client to cancel again and forwards nothing |
| Cancellation.OnProgressAllSpec | library/src/main/java/com/qiniu/android/http/request/HttpSingleRequest.java:93-101 | over one attempt, the callbacks before the first cancelled one are forwarded unchanged and in order; every callback from it on asks the client to cancel, and the flag ends set exactly when some callback cancelled |
| Reporting.Seconds | library/src/main/java/com/qiniu/android/http/request/HttpSingleRequest.java:195 | the report's upload time is the millisecond timestamp divided by 1000 and truncated toward zero, as Java's long division does |
| Reporting.ReportRequest | library/src/main/java/com/qiniu/android/http/request/HttpSingleRequest.java:184-245 | a report exists exactly when the token is valid, the request info asks for request logs and the final attempt's metrics are non-null; its error description is the error text, falling back to the message, and is set only when the error type is non-null; the prefetch field is set exactly when a prefetch time exists, as prefetch time minus now; the response-time field takes the later write, the response time and not the wait time |
| SingleRequest.Decide | library/src/main/java/com/qiniu/android/http/request/HttpSingleRequest.java:123-135 | a retry happens exactly when a retry handler exists, it approves, the counter is below retryMax and the outcome allows a host retry; a null outcome reaching the host-retry check throws; everything else completes |
| SingleRequest.CompleteAction | library/src/main/java/com/qiniu/android/http/request/HttpSingleRequest.java:152-167 | the first completion clears the client, calls a present handler with the outcome, the full metrics list and the response, and calls the report step once with the outcome and the final attempt's own metrics; a completion with the client already cleared changes nothing |
| SingleRequest.CompleteActionOnce | library/src/main/java/com/qiniu/android/http/request/HttpSingleRequest.java:158-161 | a second completion, with any arguments, is a no-op; one completion adds at most one handler call and one report call |
| RunProperties.RecordedAllLength | library/src/main/java/com/qiniu/android/http/request/HttpSingleRequest.java:106-108 | the metrics records of a sequence of attempts are as many as the attempts that returned metrics |
| RunProperties.AttemptStep | library/src/main/java/com/qiniu/android/http/request/HttpSingleRequest.java:105-135 | a handled attempt either retries with the counter one higher and the client re-created, or throws, or completes and clears the client |
| RunProperties.RetryBound | library/src/main/java/com/qiniu/android/http/request/HttpSingleRequest.java:123-132 | the counter stays between 0 and retryMax (0 when retryMax is not positive); attempts dispatched equal the counter plus one, so at most retryMax + 1 attempts are dispatched |
| RunProperties.RetryCondition | library/src/main/java/com/qiniu/android/http/request/HttpSingleRequest.java:123-135 | every handled attempt but the last met the four-way retry condition at its counter value, and the run is still waiting for an attempt exactly when the last handled attempt met it; a run still waiting has handled every delivered attempt |
| RunProperties.NullOutcomeFault | library/src/main/java/com/qiniu/android/http/request/HttpSingleRequest.java:123-125 | the run throws exactly when the predicate approves a retry of a null final outcome while the counter is below retryMax |
| RunProperties.NoHandlerSingleAttempt | library/src/main/java/com/qiniu/android/http/request/HttpSingleRequest.java:123-134 | with no retry handler a run makes exactly one attempt and completes |
| RunProperties.MetricsHistory | library/src/main/java/com/qiniu/android/http/request/HttpSingleRequest.java:106-108 | a run's metrics list holds the handled attempts' records in attempt order, with probe outcomes attached, and its length is the number of those attempts that returned metrics |
| RunProperties.MetricsAppendOnly | library/src/main/java/com/qiniu/android/http/request/HttpSingleRequest.java:106-108 | delivering further attempts only appends to the metrics list and never rewrites earlier records |
| RunProperties.SingleCompletion | library/src/main/java/com/qiniu/android/http/request/HttpSingleRequest.java:152-167 | the completion handler fires at most once, exactly when the run stopped and a handler exists, with the final outcome, the whole metrics list and the last response |
| RunProperties.RunReportCalls | library/src/main/java/com/qiniu/android/http/request/HttpSingleRequest.java:152-167 | a run calls the report step exactly once if it stopped, with the last handled attempt's final outcome and that attempt's own metrics record, and never otherwise |
| RunProperties.ReportGate | library/src/main/java/com/qiniu/android/http/request/HttpSingleRequest.java:188 | at most one report, produced exactly when the run stopped, the token is valid, request logging is on and the final attempt itself returned metrics; earlier attempts' metrics do not count |
| RunProperties.CancellationOverRun | library/src/main/java/com/qiniu/android/http/request/HttpSingleRequest.java:91-101 | every progress callback of every handled attempt passes the cancellation check, starting from the request's user-cancel flag |
| RunProperties.CancellationDoesNotStopRetries | library/src/main/java/com/qiniu/android/http/request/HttpSingleRequest.java:123-132 | given the same transport deliveries, two runs that differ only in the user-cancel flag dispatch the same attempts and end with the same metrics, completion and report |
| RunProperties.FreshRequestResets | library/src/main/java/com/qiniu/android/http/request/HttpSingleRequest.java:53-61 | a new request starts with the counter at 0 and an empty metrics list; it depends on earlier requests only through the user-cancel flag |
| NetworkStatus.AsWrittenNeverUpdates | library/src/main/java/com/qiniu/android/http/request/HttpSingleRequest.java:169-182 | as written, no input ever produces a network-status update |
| NetworkStatus.UpdateHostNetworkStatus | library/src/main/java/com/qiniu/android/http/request/HttpSingleRequest.java:169-182 | intended reading: a transfer of more than 1 MiB with a positive duration from start to end is reported, at its speed in bytes per second rounded down, for the server's address type; nothing else is reported |
| NetworkStatus.ElapsedTransferIsDropped | library/src/main/java/com/qiniu/android/http/request/HttpSingleRequest.java:175 | a 2 MiB transfer over one second is reported by the intended reading but not by the code as written |

## Left out

- Transport, probe, DNS prefetcher, network-status store and report sink are
  not modelled as running code. Their answers are inputs (`AttemptInput`) or
  function-valued fields (`Oracles`, `ReportEnv`). ResponseInfo.java,
  ConnectChecker.java, ReportItem.java and Utils.java are not part of this
  model.
- The values of `ResponseInfo.NetworkError` and `ResponseInfo.NetworkSlow`
  are parameters, because they are defined outside this file.
  `ResponseInfo.errorInfo(code, text)` is taken to store `text` as the
  outcome's error, with message and request id null.
- The retry delay `Thread.sleep(retryInterval)` is a timing side effect, and
  its interruption is ignored, so it is left out. `config.retryInterval` is
  taken to be non-negative. A negative one makes `Thread.sleep` throw an
  `IllegalArgumentException` at :129, which the catch at :130 does not
  catch. The exception escapes after the counter increment (:126) and
  before the next attempt (:132), so there is no next attempt, completion
  or report. That fault is not modelled.
- `synchronized` and cross-thread races are left out. The completion gate is
  modelled sequentially: a second call is a no-op. The transport is assumed
  to deliver one terminal callback per attempt, so the fold stops taking
  inputs once the run has ended.
- Logging is left out, and so are the `isHttp3` branch (both arms create the
  same client), the `isAsync` flag and the proxy, which go only to the
  transport.
- The response document is an opaque string.
- `requestInfo` is taken to be non-null. The source reads its key without
  a guard at :86, before each attempt is dispatched, and again at :121. So
  a null one throws before any attempt, and that fault is not modelled.
  Hence the report gate's `requestInfo == null` test (:188) has no
  counterpart in `Reporting.ShouldReport`.
- `uploadOption` is taken to be non-null. It is read only at :79, inside
  the cancellation check, which runs from the progress callback (:94) and
  reaches :79 only when the user-cancel flag is clear. A null one would
  throw inside the first progress callback that finds the flag clear, and
  never if no progress is reported or the user has already cancelled. That
  fault is not modelled.
- `request` (with its `uploadServer`), `config` and `requestState` are
  taken to be non-null. Before each attempt is dispatched, the source reads
  `request.uploadServer.isHttp3()` at :69, `request.urlString` at :88 and
  `config.proxy` at :91. It reads `config.retryMax` at :124. It reads
  `requestState` at :78, on the first progress callback, whatever the flag
  says. A null one throws at those points, and these faults are not
  modelled. Hence the report's `request != null ? request.host : null` test
  (:198) has no counterpart in `Reporting.ReportRequest`, which reads the
  host directly.
- Reporting.ReportRequest: the contract states the gate and the fields that
  involve a choice: token, times, request id, host, error type and
  description, prefetch, remote address and port, wait, response and bytes
  sent. The remaining copied fields are in the body but not in the contract.
- Reporting.ReportRequest: the ambient report fields are left out. These are
  process and thread ids, OS and SDK names and versions, network type,
  signal strength and the log-type constant. `ReportItem.setReport`'s
  key/value semantics are unseen; the model keeps the later of the two
  writes to the response-time key (:209-210).
- Java `int`/`long` wrap-around is not modelled (status codes, timestamps,
  `prefetchTime - now`). The values involved stay far from the limits.
- NetworkStatus.UpdateHostNetworkStatus: the double-precision division and
  the saturating `(int)` cast are modelled as integer division rounded down.
  The method is never called from this file, so no run uses it.

## Findings

| source | as written | input that shows it | evidently intended | confidence | as-written member | corrected member |
|---|---|---|---|---|---|---|
| library/src/main/java/com/qiniu/android/http/request/HttpSingleRequest.java:175 | the duration is `endDate - endDate`, always 0, so `second > 0` never holds and no update is ever sent | a record with start 0 ms, end 1000 ms and 2 MiB sent | `endDate - startDate`, giving 2097152 bytes/s for that record | high; not executed | NetworkStatus.AsWrittenNeverUpdates | NetworkStatus.UpdateHostNetworkStatus |
