/** What a whole run of HttpSingleRequest guarantees. */
module RunProperties {
  import opened Options
  import opened Responses
  import opened AttemptMetrics
  import opened Cancellation
  import opened Reporting
  import opened SingleRequest

  /** The most attempts a run can dispatch under a given retry ceiling. */
  function MaxAttempts(retryMax: int): nat {
    if retryMax > 0 then retryMax + 1 else 1
  }

  /** The metrics records a sequence of attempts contributes, in attempt order. */
  function RecordedAll(js: seq<Judged>): seq<Metrics>
    decreases |js|
  {
    if |js| == 0 then [] else js[0].recorded.ToSeq() + RecordedAll(js[1..])
  }

  /** How many of the attempts came back with a metrics record. */
  function CountWithMetrics(inputs: seq<AttemptInput>): nat
    decreases |inputs|
  {
    if |inputs| == 0 then 0
    else (if inputs[0].metrics.Some? then 1 else 0) + CountWithMetrics(inputs[1..])
  }

  /** One record per attempt that had metrics, no more and no fewer. */
  lemma {:induction false} RecordedAllLength(o: Oracles, inputs: seq<AttemptInput>)
    ensures |RecordedAll(JudgeAll(o, inputs))| == CountWithMetrics(inputs)
    decreases |inputs|
  {
    if |inputs| > 0 {
      RecordedAllLength(o, inputs[1..]);
    }
  }

  /** Each judged attempt carries its attempt's final outcome and response document. */
  lemma JudgedOutcomes(o: Oracles, inputs: seq<AttemptInput>)
    ensures forall k :: 0 <= k < |inputs| ==>
      JudgeAll(o, inputs)[k].info == Final(o, inputs[k]) && JudgeAll(o, inputs)[k].payload == inputs[k].payload
  {
    forall k | 0 <= k < |inputs|
      ensures JudgeAll(o, inputs)[k].info == Final(o, inputs[k]) && JudgeAll(o, inputs)[k].payload == inputs[k].payload
    {
      JudgeAllAt(o, inputs, k);
    }
  }

  /** A run that is between attempts as a fresh run is: one attempt dispatched per counter step. */
  predicate Running(ctx: Context, s: RunState) {
    && s.phase == InFlight
    && s.clientPresent
    && s.answered == s.retryTime
    && (s.retryTime == 0 || s.retryTime <= ctx.retryMax)
    && s.completions == []
    && s.reportCalls == []
  }

  /** One attempt appends its record, if any, and counts as handled; nothing else touches the list. */
  lemma AttemptRecords(ctx: Context, s: RunState, j: Judged)
    ensures var r := RunAttempt(ctx, s, j);
      && r.answered == s.answered + 1
      && r.metrics == s.metrics + j.recorded.ToSeq()
  {
  }

  /** The phase a run is in right after a decision. */
  function PhaseOf(d: Decision): Phase {
    match d
    case Retry => InFlight
    case Complete => Stopped
    case NullDereference => Faulted
  }

  /** One attempt from a running state either retries and is running again, or ends the run. */
  lemma AttemptStep(ctx: Context, s: RunState, j: Judged)
    requires Running(ctx, s)
    ensures var r := RunAttempt(ctx, s, j);
      && r.answered == s.answered + 1
      && r.phase == PhaseOf(Decide(ctx, s.retryTime, j.info, j.payload))
      && (r.phase == InFlight ==> Running(ctx, r) && r.retryTime == s.retryTime + 1)
      && (r.phase != InFlight ==> r.retryTime == s.retryTime)
      && (r.phase == Faulted ==> r.clientPresent && r.completions == [] && r.reportCalls == [])
      && (r.phase == Stopped ==> !r.clientPresent && |r.reportCalls| == 1)
      && (r.phase == Stopped ==> |r.completions| == if ctx.hasCompleteHandler then 1 else 0)
  {
  }

  /** The attempt that completes a running run supplies the completion and the report call. */
  lemma AttemptCompletes(ctx: Context, s: RunState, j: Judged)
    requires Running(ctx, s)
    requires RunAttempt(ctx, s, j).phase == Stopped
    ensures var r := RunAttempt(ctx, s, j);
      && r.completions == (if ctx.hasCompleteHandler then [Completion(j.info, r.metrics, j.payload)] else [])
      && r.reportCalls == [ReportCall(j.info, j.recorded)]
  {
  }

  /** A run handles at most one attempt per delivered input. */
  lemma {:induction false} DriveAnswered(ctx: Context, s: RunState, js: seq<Judged>)
    ensures var r := Drive(ctx, s, js);
      s.answered <= r.answered <= s.answered + |js|
    decreases |js|
  {
    if s.phase == InFlight && |js| > 0 {
      AttemptRecords(ctx, s, js[0]);
      DriveAnswered(ctx, RunAttempt(ctx, s, js[0]), js[1..]);
    }
  }

  /** Counter, attempt count and completion bookkeeping along a run. */
  lemma {:induction false} DriveCounters(ctx: Context, s: RunState, js: seq<Judged>)
    requires Running(ctx, s)
    ensures var r := Drive(ctx, s, js);
      && s.answered <= r.answered <= s.answered + |js|
      && 0 <= r.retryTime
      && (r.retryTime == 0 || r.retryTime <= ctx.retryMax)
      && (r.phase == InFlight ==> Running(ctx, r) && r.answered == s.answered + |js|)
      && (r.phase != InFlight ==> r.answered == r.retryTime + 1 && r.answered > s.answered)
      && (r.phase == Faulted ==> r.clientPresent && r.completions == [] && r.reportCalls == [])
      && (r.phase == Stopped ==> !r.clientPresent)
      && |r.completions| <= 1 && |r.reportCalls| <= 1
      && (r.phase == Stopped ==> |r.completions| == if ctx.hasCompleteHandler then 1 else 0)
    decreases |js|
  {
    if |js| > 0 {
      var s1 := RunAttempt(ctx, s, js[0]);
      AttemptStep(ctx, s, js[0]);
      if s1.phase == InFlight {
        assert Drive(ctx, s, js) == Drive(ctx, s1, js[1..]);
        DriveCounters(ctx, s1, js[1..]);
      } else {
        assert Drive(ctx, s, js) == s1;
      }
    }
  }

  /** Along a run, the metrics list is the records of the handled attempts, in attempt order. */
  lemma {:induction false} DriveMetrics(ctx: Context, s: RunState, js: seq<Judged>)
    ensures var r := Drive(ctx, s, js);
      && s.answered <= r.answered <= s.answered + |js|
      && r.metrics == s.metrics + RecordedAll(js[..r.answered - s.answered])
    decreases |js|
  {
    DriveAnswered(ctx, s, js);
    if s.phase != InFlight || |js| == 0 {
      assert js[..0] == [];
    } else {
      var s1 := RunAttempt(ctx, s, js[0]);
      var here := js[0].recorded.ToSeq();
      AttemptRecords(ctx, s, js[0]);
      DriveMetrics(ctx, s1, js[1..]);
      var r := Drive(ctx, s1, js[1..]);
      var n := r.answered - s.answered;
      var tail := RecordedAll(js[1..][..n - 1]);
      assert js[..n][0] == js[0];
      assert js[..n][1..] == js[1..][..n - 1];
      assert RecordedAll(js[..n]) == here + tail;
      assert s.metrics + here + tail == s.metrics + (here + tail);
    }
  }

  /** The decision taken on the k-th attempt of `js` when the counter started at `base`. */
  function DecisionAt(ctx: Context, base: int, js: seq<Judged>, k: nat): Decision
    requires k < |js|
  {
    Decide(ctx, base + k, js[k].info, js[k].payload)
  }

  /** The decisions of the rest of a run are those of the whole run, one attempt later. */
  lemma DecisionsShift(ctx: Context, base: int, js: seq<Judged>, next: int, rest: seq<Judged>, n: nat)
    requires 0 < n <= |js| && rest == js[1..] && next == base + 1
    requires DecisionAt(ctx, base, js, 0) == Retry
    requires forall k :: 0 <= k < n - 2 ==> DecisionAt(ctx, next, rest, k) == Retry
    ensures forall k :: 0 <= k < n - 1 ==> DecisionAt(ctx, base, js, k) == Retry
    ensures n > 1 ==> DecisionAt(ctx, next, rest, n - 2) == DecisionAt(ctx, base, js, n - 1)
  {
    forall k | 0 < k < n
      ensures DecisionAt(ctx, next, rest, k - 1) == DecisionAt(ctx, base, js, k)
    {
      assert rest[k - 1] == js[k];
    }
  }

  /**
   Along a run, every handled attempt but the last was retried, and the
   last one's decision is what the run's phase says.
   */
  lemma {:induction false} DriveTrace(ctx: Context, s: RunState, js: seq<Judged>)
    requires Running(ctx, s)
    ensures var r := Drive(ctx, s, js);
      var n := r.answered - s.answered;
      && 0 <= n <= |js|
      && (n == 0 <==> |js| == 0)
      && (forall k :: 0 <= k < n - 1 ==> DecisionAt(ctx, s.retryTime, js, k) == Retry)
      && (n > 0 ==> r.phase == PhaseOf(DecisionAt(ctx, s.retryTime, js, n - 1)))
    decreases |js|
  {
    DriveAnswered(ctx, s, js);
    if |js| > 0 {
      var s1 := RunAttempt(ctx, s, js[0]);
      AttemptStep(ctx, s, js[0]);
      if s1.phase == InFlight {
        assert Drive(ctx, s, js) == Drive(ctx, s1, js[1..]);
        DriveTrace(ctx, s1, js[1..]);
        DecisionsShift(ctx, s.retryTime, js, s1.retryTime, js[1..], Drive(ctx, s1, js[1..]).answered - s.answered);
      } else {
        assert Drive(ctx, s, js) == s1;
      }
    }
  }

  /** Along a run, the fault comes from a null outcome whose retry the caller approved below the ceiling. */
  lemma DriveFault(ctx: Context, s: RunState, js: seq<Judged>)
    requires Running(ctx, s)
    ensures var r := Drive(ctx, s, js);
      var n := r.answered - s.answered;
      && 0 <= n <= |js|
      && (r.phase == Faulted <==>
            && n > 0
            && ctx.shouldRetry.Some?
            && ctx.shouldRetry.value(js[n - 1].info, js[n - 1].payload)
            && s.retryTime + n - 1 < ctx.retryMax
            && js[n - 1].info.None?)
  {
    DriveTrace(ctx, s, js);
  }

  /**
   Along a run, every handled attempt but the last met the retry condition
   at its counter value, and the run is still in flight after the last one
   exactly when that attempt met it too.
   */
  lemma DriveRetries(ctx: Context, s: RunState, js: seq<Judged>)
    requires Running(ctx, s)
    ensures var r := Drive(ctx, s, js);
      var n := r.answered - s.answered;
      && 0 <= n <= |js|
      && (forall k :: 0 <= k < n - 1 ==> RetryApproved(ctx, s.retryTime + k, js[k].info, js[k].payload))
      && (n > 0 ==> (r.phase == InFlight <==>
            RetryApproved(ctx, s.retryTime + n - 1, js[n - 1].info, js[n - 1].payload)))
      && (n == 0 <==> |js| == 0)
  {
    DriveTrace(ctx, s, js);
    var n := Drive(ctx, s, js).answered - s.answered;
    forall k | 0 <= k < n
      ensures DecisionAt(ctx, s.retryTime, js, k) == Retry <==>
              RetryApproved(ctx, s.retryTime + k, js[k].info, js[k].payload)
    {
      DecisionRetry(ctx, s.retryTime, js, k);
    }
  }

  /** The decision on the k-th attempt retries exactly when that attempt meets the retry condition. */
  lemma DecisionRetry(ctx: Context, base: int, js: seq<Judged>, k: nat)
    requires k < |js|
    ensures DecisionAt(ctx, base, js, k) == Retry <==> RetryApproved(ctx, base + k, js[k].info, js[k].payload)
  {
  }

  /** The completion and report call a run holds once its last handled attempt stopped it. */
  predicate CompletedBy(ctx: Context, r: RunState, last: Judged) {
    && r.completions == (if ctx.hasCompleteHandler then [Completion(last.info, r.metrics, last.payload)] else [])
    && r.reportCalls == [ReportCall(last.info, last.recorded)]
  }

  /** An attempt that stops a running run ends the fold there. */
  lemma StopsHere(ctx: Context, s: RunState, js: seq<Judged>)
    requires Running(ctx, s) && |js| > 0
    requires RunAttempt(ctx, s, js[0]).phase == Stopped
    ensures Drive(ctx, s, js) == RunAttempt(ctx, s, js[0])
    ensures CompletedBy(ctx, RunAttempt(ctx, s, js[0]), js[0])
  {
    AttemptCompletes(ctx, s, js[0]);
  }

  /** Along a run, the single completion and report call come from the last handled attempt. */
  lemma {:induction false} DriveCompletion(ctx: Context, s: RunState, js: seq<Judged>)
    requires Running(ctx, s)
    ensures var r := Drive(ctx, s, js);
      var n := r.answered - s.answered;
      && 0 <= n <= |js|
      && (r.phase != Stopped ==> r.completions == [] && r.reportCalls == [])
      && (r.phase == Stopped ==> n > 0 && CompletedBy(ctx, r, js[n - 1]))
    decreases |js|
  {
    DriveAnswered(ctx, s, js);
    if |js| > 0 {
      var s1 := RunAttempt(ctx, s, js[0]);
      AttemptStep(ctx, s, js[0]);
      if s1.phase == InFlight {
        assert Drive(ctx, s, js) == Drive(ctx, s1, js[1..]);
        DriveCompletion(ctx, s1, js[1..]);
        var r := Drive(ctx, s1, js[1..]);
        var n := r.answered - s.answered;
        if r.phase == Stopped {
          assert js[n - 1] == js[1..][n - 2];
        }
      } else if s1.phase == Stopped {
        StopsHere(ctx, s, js);
      } else {
        assert Drive(ctx, s, js) == s1;
      }
    }
  }

  /** Along a run, the completion handler is called once if the run stopped and a handler is present. */
  lemma DriveCompletions(ctx: Context, s: RunState, js: seq<Judged>)
    requires Running(ctx, s)
    ensures var r := Drive(ctx, s, js);
      var n := r.answered - s.answered;
      && 0 <= n <= |js|
      && (r.phase == Stopped ==> n > 0)
      && (r.phase == Stopped <==> !r.clientPresent)
      && r.completions ==
           if r.phase == Stopped && ctx.hasCompleteHandler && n > 0
           then [Completion(js[n - 1].info, r.metrics, js[n - 1].payload)]
           else []
  {
    DriveCounters(ctx, s, js);
    DriveCompletion(ctx, s, js);
  }

  /** Along a run, the report step is called once if the run stopped, on the last handled attempt. */
  lemma DriveReportCalls(ctx: Context, s: RunState, js: seq<Judged>)
    requires Running(ctx, s)
    ensures var r := Drive(ctx, s, js);
      var n := r.answered - s.answered;
      && 0 <= n <= |js|
      && (r.phase == Stopped ==> n > 0)
      && r.reportCalls ==
           if r.phase == Stopped && n > 0
           then [ReportCall(js[n - 1].info, js[n - 1].recorded)]
           else []
  {
    DriveCompletion(ctx, s, js);
  }

  /** All progress callbacks of a sequence of attempts, in delivery order. */
  function TicksOf(js: seq<Judged>): seq<Tick>
    decreases |js|
  {
    if |js| == 0 then [] else js[0].ticks + TicksOf(js[1..])
  }

  /** The ticks of a non-empty prefix: the first attempt's, then those of the rest of the prefix. */
  lemma TicksOfPrefix(js: seq<Judged>, n: nat)
    requires 0 < n <= |js|
    ensures TicksOf(js[..n]) == js[0].ticks + TicksOf(js[1..][..n - 1])
  {
    assert js[..n][0] == js[0];
    assert js[..n][1..] == js[1..][..n - 1];
  }

  /** One attempt runs the cancellation check over its own progress callbacks. */
  lemma AttemptMonitor(ctx: Context, s: RunState, j: Judged)
    ensures RunAttempt(ctx, s, j).monitor ==
      OnProgressAll(s.monitor, s.clientPresent, ctx.hasCancellationSignal, ctx.hasProgressHandler, j.ticks)
  {
  }

  /** Along a run, cancellation is checked on every progress callback of every handled attempt. */
  lemma {:induction false} DriveMonitor(ctx: Context, s: RunState, js: seq<Judged>)
    requires Running(ctx, s)
    ensures var r := Drive(ctx, s, js);
      && s.answered <= r.answered <= s.answered + |js|
      && r.monitor == OnProgressAll(s.monitor, true, ctx.hasCancellationSignal, ctx.hasProgressHandler,
                                    TicksOf(js[..r.answered - s.answered]))
    decreases |js|
  {
    DriveAnswered(ctx, s, js);
    var sig, fwd := ctx.hasCancellationSignal, ctx.hasProgressHandler;
    if |js| == 0 {
      assert js[..0] == [];
    } else {
      var s1 := RunAttempt(ctx, s, js[0]);
      AttemptStep(ctx, s, js[0]);
      AttemptMonitor(ctx, s, js[0]);
      TicksOfPrefix(js, s1.answered - s.answered);
      if s1.phase == InFlight {
        DriveMonitor(ctx, s1, js[1..]);
        var n := Drive(ctx, s1, js[1..]).answered - s.answered;
        TicksOfPrefix(js, n);
        OnProgressAllConcat(s.monitor, true, sig, fwd, js[0].ticks, TicksOf(js[1..][..n - 1]));
      } else {
        assert js[1..][..0] == [];
        assert js[0].ticks + [] == js[0].ticks;
      }
    }
  }

  /** The retry path never reads the cancellation state: runs that differ only there stay so. */
  lemma {:induction false} DriveIgnoresMonitor(ctx: Context, s: RunState, t: RunState, js: seq<Judged>)
    requires s.(monitor := t.monitor) == t
    ensures Drive(ctx, s, js).(monitor := Drive(ctx, t, js).monitor) == Drive(ctx, t, js)
    decreases |js|
  {
    if s.phase == InFlight && |js| > 0 {
      var s1 := RunAttempt(ctx, s, js[0]);
      var t1 := RunAttempt(ctx, t, js[0]);
      assert s1.(monitor := t1.monitor) == t1;
      DriveIgnoresMonitor(ctx, s1, t1, js[1..]);
    }
  }

  /** Feeding attempts in two batches is feeding them all at once. */
  lemma {:induction false} DriveConcat(ctx: Context, s: RunState, xs: seq<Judged>, ys: seq<Judged>)
    ensures Drive(ctx, s, xs + ys) == Drive(ctx, Drive(ctx, s, xs), ys)
    decreases |xs|
  {
    if s.phase != InFlight {
    } else if |xs| == 0 {
      assert xs + ys == ys;
    } else {
      assert (xs + ys)[0] == xs[0];
      assert (xs + ys)[1..] == xs[1..] + ys;
      DriveConcat(ctx, RunAttempt(ctx, s, xs[0]), xs[1..], ys);
    }
  }

  /** Later attempts only append to the metrics list. */
  lemma {:induction false} DriveMetricsGrow(ctx: Context, s: RunState, js: seq<Judged>)
    ensures var r := Drive(ctx, s, js);
      |s.metrics| <= |r.metrics| && r.metrics[..|s.metrics|] == s.metrics
    decreases |js|
  {
    if s.phase == InFlight && |js| > 0 {
      var s1 := RunAttempt(ctx, s, js[0]);
      assert s1.metrics == s.metrics + js[0].recorded.ToSeq();
      DriveMetricsGrow(ctx, s1, js[1..]);
      var r := Drive(ctx, s1, js[1..]);
      assert r.metrics[..|s.metrics|] == r.metrics[..|s1.metrics|][..|s.metrics|];
    }
  }

  /**
   Retry bound: the counter stays within [0, retryMax] (0 when retryMax is
   not positive), one attempt is dispatched per counter step plus the
   first, and so at most retryMax + 1 attempts are ever dispatched.
   */
  lemma RetryBound(ctx: Context, prior: RunState, inputs: seq<AttemptInput>)
    ensures var r := Run(ctx, prior, inputs);
      var dispatched := r.answered + (if r.phase == InFlight then 1 else 0);
      && 0 <= r.retryTime
      && (r.retryTime == 0 || r.retryTime <= ctx.retryMax)
      && dispatched == r.retryTime + 1
      && dispatched <= MaxAttempts(ctx.retryMax)
      && r.answered <= |inputs|
  {
    DriveCounters(ctx, Begin(prior), JudgeAll(ctx.oracles, inputs));
  }

  /** A run still in flight has handled every attempt it was given. */
  lemma DriveInFlight(ctx: Context, s: RunState, js: seq<Judged>)
    requires Running(ctx, s)
    ensures var r := Drive(ctx, s, js);
      r.phase == InFlight ==> r.answered == s.answered + |js|
  {
    DriveCounters(ctx, s, js);
  }

  /**
   Retry condition: every handled attempt but the last was retried, and each
   retry happened exactly when the four-way condition held of that attempt's
   (possibly rewritten) outcome at that counter value; the run is still in
   flight after its last handled attempt exactly when that attempt met it,
   and a run still in flight has handled every delivered attempt.
   */
  lemma RetryCondition(ctx: Context, prior: RunState, inputs: seq<AttemptInput>)
    ensures var r := Run(ctx, prior, inputs);
      var n := r.answered;
      && n <= |inputs|
      && (forall k :: 0 <= k < n - 1 ==> RetryApproved(ctx, k, Final(ctx.oracles, inputs[k]), inputs[k].payload))
      && (n > 0 ==> (r.phase == InFlight <==>
            RetryApproved(ctx, n - 1, Final(ctx.oracles, inputs[n - 1]), inputs[n - 1].payload)))
      && (n == 0 <==> |inputs| == 0)
      && (r.phase == InFlight ==> n == |inputs|)
  {
    var s, js := Begin(prior), JudgeAll(ctx.oracles, inputs);
    var r := Drive(ctx, s, js);
    assert Run(ctx, prior, inputs) == r;
    DriveInFlight(ctx, s, js);
    DriveRetries(ctx, s, js);
    forall k | 0 <= k < r.answered
      ensures RetryApproved(ctx, k, Final(ctx.oracles, inputs[k]), inputs[k].payload)
          == RetryApproved(ctx, s.retryTime + k, js[k].info, js[k].payload)
    {
      JudgedApproval(ctx, inputs, k);
    }
  }

  /** Judging ahead does not change whether an attempt meets the retry condition. */
  lemma JudgedApproval(ctx: Context, inputs: seq<AttemptInput>, k: nat)
    requires k < |inputs|
    ensures var j := JudgeAll(ctx.oracles, inputs)[k];
      RetryApproved(ctx, k, Final(ctx.oracles, inputs[k]), inputs[k].payload)
        == RetryApproved(ctx, 0 + k, j.info, j.payload)
  {
    JudgeAllAt(ctx.oracles, inputs, k);
  }

  /**
   The run throws, instead of completing, exactly when the caller approves
   a retry of a null outcome while the counter is below the ceiling.
   */
  lemma NullOutcomeFault(ctx: Context, prior: RunState, inputs: seq<AttemptInput>)
    ensures var r := Run(ctx, prior, inputs);
      var n := r.answered;
      && n <= |inputs|
      && (r.phase == Faulted <==>
            && n > 0
            && ctx.shouldRetry.Some?
            && ctx.shouldRetry.value(Final(ctx.oracles, inputs[n - 1]), inputs[n - 1].payload)
            && n - 1 < ctx.retryMax
            && Final(ctx.oracles, inputs[n - 1]).None?)
  {
    DriveFault(ctx, Begin(prior), JudgeAll(ctx.oracles, inputs));
    var r := Run(ctx, prior, inputs);
    if r.answered > 0 {
      JudgeAllAt(ctx.oracles, inputs, r.answered - 1);
    }
  }

  /** Without a retry handler a run is exactly one attempt, which completes. */
  lemma NoHandlerSingleAttempt(ctx: Context, prior: RunState, inputs: seq<AttemptInput>)
    requires ctx.shouldRetry.None?
    requires |inputs| > 0
    ensures var r := Run(ctx, prior, inputs);
      r.answered == 1 && r.retryTime == 0 && r.phase == Stopped
  {
    DriveTrace(ctx, Begin(prior), JudgeAll(ctx.oracles, inputs));
    DriveCounters(ctx, Begin(prior), JudgeAll(ctx.oracles, inputs));
    var r := Run(ctx, prior, inputs);
    JudgeAllAt(ctx.oracles, inputs, r.answered - 1);
    assert r.phase == PhaseOf(Decide(ctx, r.answered - 1, Final(ctx.oracles, inputs[r.answered - 1]), inputs[r.answered - 1].payload));
  }

  /**
   Metrics: a run's list holds, in attempt order, the record of each handled
   attempt that had one, with the probe outcome attached where a probe ran,
   and nothing else.
   */
  lemma MetricsHistory(ctx: Context, prior: RunState, inputs: seq<AttemptInput>)
    ensures var r := Run(ctx, prior, inputs);
      && r.answered <= |inputs|
      && r.metrics == RecordedAll(JudgeAll(ctx.oracles, inputs[..r.answered]))
      && |r.metrics| == CountWithMetrics(inputs[..r.answered])
  {
    DriveMetrics(ctx, Begin(prior), JudgeAll(ctx.oracles, inputs));
    var r := Run(ctx, prior, inputs);
    JudgeAllPrefix(ctx.oracles, inputs, r.answered);
    RecordedAllLength(ctx.oracles, inputs[..r.answered]);
  }

  /** Metrics: delivering more attempts never rewrites the records already in the list. */
  lemma MetricsAppendOnly(ctx: Context, prior: RunState, xs: seq<AttemptInput>, ys: seq<AttemptInput>)
    ensures var before := Run(ctx, prior, xs).metrics;
      var after := Run(ctx, prior, xs + ys).metrics;
      |before| <= |after| && after[..|before|] == before
  {
    JudgeAllConcat(ctx.oracles, xs, ys);
    DriveConcat(ctx, Begin(prior), JudgeAll(ctx.oracles, xs), JudgeAll(ctx.oracles, ys));
    DriveMetricsGrow(ctx, Run(ctx, prior, xs), JudgeAll(ctx.oracles, ys));
  }

  /**
   Single completion: the caller's completion handler fires at most once,
   and it fires exactly when the run stopped and a handler is present, with
   the last attempt's (possibly rewritten) outcome, the whole metrics list
   and the last response document.
   */
  lemma SingleCompletion(ctx: Context, prior: RunState, inputs: seq<AttemptInput>)
    ensures var r := Run(ctx, prior, inputs);
      var n := r.answered;
      && n <= |inputs|
      && |r.completions| <= 1
      && (|r.completions| == 1 <==> r.phase == Stopped && ctx.hasCompleteHandler)
      && (|r.completions| == 1 ==>
            && n > 0
            && r.completions[0] == Completion(Final(ctx.oracles, inputs[n - 1]), r.metrics, inputs[n - 1].payload))
      && (r.phase == Stopped <==> !r.clientPresent)
  {
    DriveCompletions(ctx, Begin(prior), JudgeAll(ctx.oracles, inputs));
    var r := Run(ctx, prior, inputs);
    if r.answered > 0 {
      JudgeAllAt(ctx.oracles, inputs, r.answered - 1);
    }
  }

  /**
   A run calls the report step once if it stopped, with the last handled
   attempt's (possibly rewritten) outcome and that attempt's own metrics
   record, and otherwise not at all.
   */
  lemma RunReportCalls(ctx: Context, prior: RunState, inputs: seq<AttemptInput>)
    ensures var r := Run(ctx, prior, inputs);
      var n := r.answered;
      && n <= |inputs|
      && (r.phase == Stopped ==> n > 0)
      && r.reportCalls ==
           if r.phase == Stopped && n > 0
           then [ReportCall(Final(ctx.oracles, inputs[n - 1]), Recorded(ctx.oracles, inputs[n - 1]))]
           else []
  {
    DriveReportCalls(ctx, Begin(prior), JudgeAll(ctx.oracles, inputs));
    var r := Run(ctx, prior, inputs);
    if r.answered > 0 {
      JudgeAllAt(ctx.oracles, inputs, r.answered - 1);
    }
  }

  /** At most one report call, and it yields a report exactly when the report gate admits it. */
  lemma ReportsOfOneCall(ctx: Context, calls: seq<ReportCall>)
    requires |calls| <= 1
    ensures |Reports(ctx, calls)| <= 1
    ensures |Reports(ctx, calls)| == 1 <==> |calls| == 1 && ShouldReport(ctx.reportEnv, calls[0].lastMetrics)
    ensures |Reports(ctx, calls)| == 1 ==>
      Reports(ctx, calls)[0] == ReportRequest(ctx.reportEnv, calls[0].info, ctx.request, calls[0].lastMetrics, ctx.now).value
  {
    if |calls| == 1 {
      assert calls[1..] == [];
    }
  }

  /**
   Reporting: at most one report, and one exactly when the run stopped with
   a valid token, request info that asks for request logs, and a metrics
   record from the final attempt itself; records of earlier attempts do
   not count.
   */
  lemma ReportGate(ctx: Context, prior: RunState, inputs: seq<AttemptInput>)
    ensures var r := Run(ctx, prior, inputs);
      var n := r.answered;
      var reports := Reports(ctx, r.reportCalls);
      && n <= |inputs|
      && |reports| <= 1
      && (|reports| == 1 <==>
            && r.phase == Stopped
            && n > 0
            && ShouldReport(ctx.reportEnv, Recorded(ctx.oracles, inputs[n - 1])))
      && (|reports| == 1 ==>
            reports[0] == ReportRequest(ctx.reportEnv, Final(ctx.oracles, inputs[n - 1]), ctx.request,
                                        Recorded(ctx.oracles, inputs[n - 1]), ctx.now).value)
  {
    RunReportCalls(ctx, prior, inputs);
    ReportsOfOneCall(ctx, Run(ctx, prior, inputs).reportCalls);
  }

  /**
   Cancellation over a run: every progress callback of every handled
   attempt goes through the cancellation check, the live client being
   present throughout, starting from the request's user-cancel flag.
   */
  lemma CancellationOverRun(ctx: Context, prior: RunState, inputs: seq<AttemptInput>)
    ensures var r := Run(ctx, prior, inputs);
      && r.answered <= |inputs|
      && r.monitor == Monitored(Monitor(prior.monitor.userCancel, 0, []), true,
                                ctx.hasCancellationSignal, ctx.hasProgressHandler, TicksOf(JudgeAll(ctx.oracles, inputs[..r.answered])))
  {
    DriveMonitor(ctx, Begin(prior), JudgeAll(ctx.oracles, inputs));
    var r := Run(ctx, prior, inputs);
    JudgeAllPrefix(ctx.oracles, inputs, r.answered);
    OnProgressAllSpec(Monitor(prior.monitor.userCancel, 0, []), true,
                      ctx.hasCancellationSignal, ctx.hasProgressHandler, TicksOf(JudgeAll(ctx.oracles, inputs[..r.answered])));
  }

  /**
   Cancellation does not stop retries: given the same transport deliveries,
   two runs that differ only in whether the user had already cancelled
   dispatch the same attempts, keep the same metrics, and complete and
   report identically. The flag's effect on the transport (a cancel request)
   is outside this file and shows only in what is delivered.
   */
  lemma CancellationDoesNotStopRetries(ctx: Context, prior: RunState, prior': RunState, inputs: seq<AttemptInput>)
    ensures var r := Run(ctx, prior, inputs);
      var r' := Run(ctx, prior', inputs);
      r.(monitor := r'.monitor) == r'
  {
    DriveIgnoresMonitor(ctx, Begin(prior), Begin(prior'), JudgeAll(ctx.oracles, inputs));
  }

  /** A fresh request depends on earlier requests only through the user-cancel flag. */
  lemma FreshRequestResets(ctx: Context, prior: RunState, prior': RunState, inputs: seq<AttemptInput>)
    requires prior.monitor.userCancel == prior'.monitor.userCancel
    ensures Run(ctx, prior, inputs) == Run(ctx, prior', inputs)
    ensures Run(ctx, prior, []).retryTime == 0 && Run(ctx, prior, []).metrics == []
  {
  }
}
