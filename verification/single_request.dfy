/**
 One logical request (HttpSingleRequest): attempts are dispatched one at a
 time; each attempt's terminal callback records its metrics, reclassifies
 an ambiguous failure, and either retries or completes the run exactly once.

 The source re-enters its retry routine from inside the transport's
 completion callback. Here that recursion is a fold, `Drive`, over the
 sequence of what the transport delivers for each attempt; the external
 classifiers are fields of `Context`.
 */
module SingleRequest {
  import opened Options
  import opened Responses
  import opened AttemptMetrics
  import opened Cancellation
  import opened Reporting

  /** The response document of an attempt, passed through untouched. */
  type Payload = string

  /** The caller's RequestShouldRetryHandler. */
  type RetryPredicate = (Option<Response>, Option<Payload>) -> bool

  /**
   Everything a run reads but does not change: the retry ceiling, the
   outcome classifiers, which caller handlers and signal are present, the
   request, the report inputs and the clock reading used by the report.
   */
  datatype Context = Context(
    retryMax: int,
    oracles: Oracles,
    shouldRetry: Option<RetryPredicate>,
    hasProgressHandler: bool,
    hasCompleteHandler: bool,
    hasCancellationSignal: bool,
    request: Request,
    reportEnv: ReportEnv,
    now: int)

  /**
   What the transport delivers for one attempt: its progress callbacks, then
   one terminal callback with an outcome, metrics and response document, and
   what the connectivity probe would return if it were asked.
   */
  datatype AttemptInput = AttemptInput(
    ticks: seq<Tick>,
    info: Option<Response>,
    metrics: Option<Metrics>,
    payload: Option<Payload>,
    probe: Option<Response>)

  /** One call of the caller's completion handler. */
  datatype Completion = Completion(info: Option<Response>, metrics: seq<Metrics>, payload: Option<Payload>)

  /** One call of `reportRequest`: the final outcome and the final attempt's own metrics. */
  datatype ReportCall = ReportCall(info: Option<Response>, lastMetrics: Option<Metrics>)

  /**
   InFlight: an attempt is dispatched and its terminal callback is awaited.
   Stopped: the retry decision chose to complete.
   Faulted: the retry decision dereferenced a null outcome and threw.
   */
  datatype Phase = InFlight | Stopped | Faulted

  /**
   The state of a run: the retry counter, the metrics list, whether the
   completion gate is still armed (the `client` field is non-null), the
   cancellation state, how many terminal callbacks were handled, and the
   completion-handler and report calls made so far.
   */
  datatype RunState = RunState(
    retryTime: int,
    metrics: seq<Metrics>,
    clientPresent: bool,
    monitor: Monitor,
    answered: nat,
    phase: Phase,
    completions: seq<Completion>,
    reportCalls: seq<ReportCall>)

  datatype Decision = Retry | Complete | NullDereference

  /** The retry condition, written out: the four-way conjunction of the source. */
  predicate RetryApproved(ctx: Context, retryTime: int, info: Option<Response>, payload: Option<Payload>) {
    && ctx.shouldRetry.Some?
    && ctx.shouldRetry.value(info, payload)
    && retryTime < ctx.retryMax
    && info.Some?
    && ctx.oracles.couldHostRetry(info.value)
  }

  /**
   The retry decision on an attempt's (possibly rewritten) outcome. The
   four conditions are evaluated left to right with short-circuiting, so the
   host-retry check on a null outcome is reached, and throws, only when the
   first three hold.
   */
  function Decide(ctx: Context, retryTime: int, info: Option<Response>, payload: Option<Payload>): (d: Decision)
    ensures d == Retry <==> RetryApproved(ctx, retryTime, info, payload)
    ensures d == NullDereference <==>
      && ctx.shouldRetry.Some? && ctx.shouldRetry.value(info, payload)
      && retryTime < ctx.retryMax
      && info.None?
  {
    if ctx.shouldRetry.None? then Complete
    else if !ctx.shouldRetry.value(info, payload) then Complete
    else if retryTime >= ctx.retryMax then Complete
    else if info.None? then NullDereference
    else if ctx.oracles.couldHostRetry(info.value) then Retry
    else Complete
  }

  /**
   An attempt as the terminal callback works with it once the connectivity
   check has run: the (possibly rewritten) outcome and the metrics record
   with the probe outcome attached. Judging depends on nothing but the
   attempt itself, so it can be done attempt by attempt ahead of the
   bookkeeping without changing the result.
   */
  datatype Judged = Judged(ticks: seq<Tick>, info: Option<Response>, recorded: Option<Metrics>, payload: Option<Payload>)

  function Judge(o: Oracles, a: AttemptInput): Judged {
    Judged(a.ticks, Reclassify(o, a.info, a.probe), Record(o, a.info, a.metrics, a.probe), a.payload)
  }

  /** The outcome an attempt is judged by, after the connectivity check. */
  function Final(o: Oracles, a: AttemptInput): Option<Response> {
    Judge(o, a).info
  }

  /** The metrics record an attempt contributes, if any. */
  function Recorded(o: Oracles, a: AttemptInput): Option<Metrics> {
    Judge(o, a).recorded
  }

  /** Every delivered attempt, judged, in delivery order. */
  function JudgeAll(o: Oracles, inputs: seq<AttemptInput>): (js: seq<Judged>)
    ensures |js| == |inputs|
    decreases |inputs|
  {
    if |inputs| == 0 then [] else [Judge(o, inputs[0])] + JudgeAll(o, inputs[1..])
  }

  /** The k-th judged attempt is the k-th delivered attempt, judged. */
  lemma {:induction false} JudgeAllAt(o: Oracles, inputs: seq<AttemptInput>, k: nat)
    requires k < |inputs|
    ensures JudgeAll(o, inputs)[k] == Judge(o, inputs[k])
    decreases |inputs|
  {
    if k > 0 {
      JudgeAllAt(o, inputs[1..], k - 1);
    }
  }

  /** Judging a prefix of the attempts gives the same prefix of the judged attempts. */
  lemma {:induction false} JudgeAllPrefix(o: Oracles, inputs: seq<AttemptInput>, n: nat)
    requires n <= |inputs|
    ensures JudgeAll(o, inputs)[..n] == JudgeAll(o, inputs[..n])
    decreases n
  {
    if n > 0 {
      assert inputs[..n][1..] == inputs[1..][..n - 1];
      JudgeAllPrefix(o, inputs[1..], n - 1);
    }
  }

  /** Judging two batches is judging them together. */
  lemma {:induction false} JudgeAllConcat(o: Oracles, xs: seq<AttemptInput>, ys: seq<AttemptInput>)
    ensures JudgeAll(o, xs + ys) == JudgeAll(o, xs) + JudgeAll(o, ys)
    decreases |xs|
  {
    if |xs| == 0 {
      assert xs + ys == ys;
    } else {
      assert (xs + ys)[1..] == xs[1..] + ys;
      JudgeAllConcat(o, xs[1..], ys);
    }
  }

  /**
   The completion gate: the first call disarms it, hands the caller the
   outcome and the whole metrics list, and calls the report step; a call on
   a disarmed gate changes nothing.
   */
  function CompleteAction(ctx: Context, s: RunState, info: Option<Response>, payload: Option<Payload>,
                          lastMetrics: Option<Metrics>): (s': RunState)
    ensures !s.clientPresent ==> s' == s
    ensures s.clientPresent ==>
      && !s'.clientPresent
      && s'.completions == s.completions + (if ctx.hasCompleteHandler then [Completion(info, s.metrics, payload)] else [])
      && s'.reportCalls == s.reportCalls + [ReportCall(info, lastMetrics)]
      && s'.(clientPresent := s.clientPresent, completions := s.completions, reportCalls := s.reportCalls) == s
  {
    if !s.clientPresent then s
    else
      var fired := if ctx.hasCompleteHandler then [Completion(info, s.metrics, payload)] else [];
      s.(clientPresent := false, completions := s.completions + fired,
         reportCalls := s.reportCalls + [ReportCall(info, lastMetrics)])
  }

  /** A second completion, whatever it carries, is a no-op. */
  lemma CompleteActionOnce(ctx: Context, s: RunState,
                           info: Option<Response>, payload: Option<Payload>, m: Option<Metrics>,
                           info2: Option<Response>, payload2: Option<Payload>, m2: Option<Metrics>)
    ensures var once := CompleteAction(ctx, s, info, payload, m);
      && CompleteAction(ctx, once, info2, payload2, m2) == once
      && |once.completions| <= |s.completions| + 1
      && |once.reportCalls| <= |s.reportCalls| + 1
  {
  }

  /** The terminal callback of the dispatched attempt, once judged. */
  function OnAttemptComplete(ctx: Context, s: RunState, j: Judged): RunState {
    var s1 := s.(metrics := s.metrics + j.recorded.ToSeq(), answered := s.answered + 1);
    match Decide(ctx, s.retryTime, j.info, j.payload)
    case Retry => s1.(retryTime := s.retryTime + 1, clientPresent := true)
    case NullDereference => s1.(phase := Faulted)
    case Complete => CompleteAction(ctx, s1, j.info, j.payload, j.recorded).(phase := Stopped)
  }

  /** One attempt: its progress callbacks, then its terminal callback. */
  function RunAttempt(ctx: Context, s: RunState, j: Judged): RunState {
    var monitored := OnProgressAll(s.monitor, s.clientPresent, ctx.hasCancellationSignal, ctx.hasProgressHandler, j.ticks);
    OnAttemptComplete(ctx, s.(monitor := monitored), j)
  }

  /** Feeds attempts to the run until it stops or the transport has nothing more to deliver. */
  function Drive(ctx: Context, s: RunState, js: seq<Judged>): RunState
    decreases |js|
  {
    if s.phase != InFlight || |js| == 0 then s
    else Drive(ctx, RunAttempt(ctx, s, js[0]), js[1..])
  }

  /**
   A fresh logical request: the counter and metrics list are reset and the
   first attempt is dispatched. Only the shared user-cancel flag carries over.
   */
  function Begin(prior: RunState): RunState {
    RunState(0, [], true, Monitor(prior.monitor.userCancel, 0, []), 0, InFlight, [], [])
  }

  /** `request`: a fresh run driven by what the transport delivers. */
  function Run(ctx: Context, prior: RunState, inputs: seq<AttemptInput>): RunState {
    Drive(ctx, Begin(prior), JudgeAll(ctx.oracles, inputs))
  }

  /** The reports the run's report calls hand to the sink. */
  function Reports(ctx: Context, calls: seq<ReportCall>): seq<Report>
    decreases |calls|
  {
    if |calls| == 0 then []
    else ReportRequest(ctx.reportEnv, calls[0].info, ctx.request, calls[0].lastMetrics, ctx.now).ToSeq()
         + Reports(ctx, calls[1..])
  }
}
