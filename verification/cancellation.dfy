/**
 The cancellation check run on every progress callback of an attempt: a
 cancelled request sets the user-cancel flag and asks the live client to
 cancel; otherwise the progress is forwarded to the caller's handler.
 */
module Cancellation {

  /** One progress callback, with what the caller's cancellation signal says at that moment. */
  datatype Tick = Tick(written: int, expected: int, signalCancelled: bool)

  /** A progress report as the caller's handler receives it. */
  datatype Progress = Progress(written: int, expected: int)

  /**
   The observable state of cancellation: the shared user-cancel flag, how
   many times the client was asked to cancel, and the progress forwarded
   to the caller, in order.
   */
  datatype Monitor = Monitor(userCancel: bool, cancelRequests: nat, forwarded: seq<Progress>)

  /** The request counts as cancelled once the user cancelled it or a present signal says so. */
  predicate IsCancelled(userCancel: bool, hasSignal: bool, signalCancelled: bool) {
    if userCancel then true else hasSignal && signalCancelled
  }

  /** One progress callback. */
  function OnProgress(m: Monitor, clientPresent: bool, hasSignal: bool, hasHandler: bool, t: Tick): (m': Monitor)
    ensures m'.userCancel <==> m.userCancel || (hasSignal && t.signalCancelled)
    ensures m'.userCancel ==>
      && m'.forwarded == m.forwarded
      && m'.cancelRequests == m.cancelRequests + (if clientPresent then 1 else 0)
    ensures !m'.userCancel ==>
      && m'.cancelRequests == m.cancelRequests
      && m'.forwarded == m.forwarded + (if hasHandler then [Progress(t.written, t.expected)] else [])
  {
    if IsCancelled(m.userCancel, hasSignal, t.signalCancelled) then
      m.(userCancel := true, cancelRequests := m.cancelRequests + if clientPresent then 1 else 0)
    else if hasHandler then
      m.(forwarded := m.forwarded + [Progress(t.written, t.expected)])
    else
      m
  }

  /** The progress callbacks of one attempt, in order. */
  function OnProgressAll(m: Monitor, clientPresent: bool, hasSignal: bool, hasHandler: bool, ticks: seq<Tick>): Monitor
    decreases |ticks|
  {
    if |ticks| == 0 then m
    else OnProgressAll(OnProgress(m, clientPresent, hasSignal, hasHandler, ticks[0]), clientPresent, hasSignal, hasHandler, ticks[1..])
  }

  /** Index of the first tick at which a present signal reports cancellation, or `|ticks|`. */
  function FirstSignalled(hasSignal: bool, ticks: seq<Tick>): (k: nat)
    ensures k <= |ticks|
    ensures forall i :: 0 <= i < k ==> !(hasSignal && ticks[i].signalCancelled)
    ensures k < |ticks| ==> hasSignal && ticks[k].signalCancelled
  {
    if |ticks| == 0 || (hasSignal && ticks[0].signalCancelled) then 0
    else 1 + FirstSignalled(hasSignal, ticks[1..])
  }

  /** The progress reports carried by a run of ticks, unchanged. */
  function ProgressOf(ticks: seq<Tick>): (ps: seq<Progress>)
    ensures |ps| == |ticks|
    ensures forall i :: 0 <= i < |ticks| ==> ps[i] == Progress(ticks[i].written, ticks[i].expected)
  {
    if |ticks| == 0 then [] else [Progress(ticks[0].written, ticks[0].expected)] + ProgressOf(ticks[1..])
  }

  /** Once cancelled, every further tick only asks the client to cancel again. */
  lemma {:induction false} CancelledStaysCancelled(m: Monitor, clientPresent: bool, hasSignal: bool, hasHandler: bool, ticks: seq<Tick>)
    requires m.userCancel
    ensures OnProgressAll(m, clientPresent, hasSignal, hasHandler, ticks)
         == m.(cancelRequests := m.cancelRequests + if clientPresent then |ticks| else 0)
    decreases |ticks|
  {
    if |ticks| > 0 {
      CancelledStaysCancelled(OnProgress(m, clientPresent, hasSignal, hasHandler, ticks[0]), clientPresent, hasSignal, hasHandler, ticks[1..]);
    }
  }

  /**
   The outcome of one attempt's progress callbacks, stated without folding:
   the ticks before the first cancelled one are forwarded unchanged and in
   order (when a handler is present); from that tick on nothing is
   forwarded, the user-cancel flag is set, and every tick asks the live
   client to cancel.
   */
  function Monitored(m: Monitor, clientPresent: bool, hasSignal: bool, hasHandler: bool, ticks: seq<Tick>): Monitor {
    var cut := if m.userCancel then 0 else FirstSignalled(hasSignal, ticks);
    Monitor(
      m.userCancel || cut < |ticks|,
      m.cancelRequests + (if clientPresent then |ticks| - cut else 0),
      m.forwarded + (if hasHandler then ProgressOf(ticks[..cut]) else []))
  }

  /** The callback-by-callback fold agrees with the direct description. */
  lemma {:induction false} OnProgressAllSpec(m: Monitor, clientPresent: bool, hasSignal: bool, hasHandler: bool, ticks: seq<Tick>)
    ensures OnProgressAll(m, clientPresent, hasSignal, hasHandler, ticks) == Monitored(m, clientPresent, hasSignal, hasHandler, ticks)
    decreases |ticks|
  {
    if m.userCancel {
      CancelledStaysCancelled(m, clientPresent, hasSignal, hasHandler, ticks);
      assert ticks[..0] == [];
    } else if |ticks| == 0 {
    } else if hasSignal && ticks[0].signalCancelled {
      SignalledFirst(m, clientPresent, hasSignal, hasHandler, ticks);
    } else {
      var m1 := OnProgress(m, clientPresent, hasSignal, hasHandler, ticks[0]);
      OnProgressAllSpec(m1, clientPresent, hasSignal, hasHandler, ticks[1..]);
      ForwardedFirst(m, clientPresent, hasSignal, hasHandler, ticks);
    }
  }

  lemma SignalledFirst(m: Monitor, clientPresent: bool, hasSignal: bool, hasHandler: bool, ticks: seq<Tick>)
    requires !m.userCancel && |ticks| > 0 && hasSignal && ticks[0].signalCancelled
    ensures OnProgressAll(m, clientPresent, hasSignal, hasHandler, ticks) == Monitored(m, clientPresent, hasSignal, hasHandler, ticks)
  {
    var m1 := OnProgress(m, clientPresent, hasSignal, hasHandler, ticks[0]);
    assert OnProgressAll(m, clientPresent, hasSignal, hasHandler, ticks) == OnProgressAll(m1, clientPresent, hasSignal, hasHandler, ticks[1..]);
    CancelledStaysCancelled(m1, clientPresent, hasSignal, hasHandler, ticks[1..]);
    assert FirstSignalled(hasSignal, ticks) == 0;
    assert ticks[..0] == [];
  }

  lemma ForwardedFirst(m: Monitor, clientPresent: bool, hasSignal: bool, hasHandler: bool, ticks: seq<Tick>)
    requires !m.userCancel && |ticks| > 0 && !(hasSignal && ticks[0].signalCancelled)
    requires var m1 := OnProgress(m, clientPresent, hasSignal, hasHandler, ticks[0]);
      OnProgressAll(m1, clientPresent, hasSignal, hasHandler, ticks[1..]) == Monitored(m1, clientPresent, hasSignal, hasHandler, ticks[1..])
    ensures OnProgressAll(m, clientPresent, hasSignal, hasHandler, ticks) == Monitored(m, clientPresent, hasSignal, hasHandler, ticks)
  {
    var m1 := OnProgress(m, clientPresent, hasSignal, hasHandler, ticks[0]);
    MonitoredStep(m, clientPresent, hasSignal, hasHandler, ticks);
    assert OnProgressAll(m, clientPresent, hasSignal, hasHandler, ticks) == OnProgressAll(m1, clientPresent, hasSignal, hasHandler, ticks[1..]);
  }

  /** The direct description is unchanged by handling a forwarded first tick separately. */
  lemma MonitoredStep(m: Monitor, clientPresent: bool, hasSignal: bool, hasHandler: bool, ticks: seq<Tick>)
    requires !m.userCancel && |ticks| > 0 && !(hasSignal && ticks[0].signalCancelled)
    ensures Monitored(OnProgress(m, clientPresent, hasSignal, hasHandler, ticks[0]), clientPresent, hasSignal, hasHandler, ticks[1..])
         == Monitored(m, clientPresent, hasSignal, hasHandler, ticks)
  {
    var m1 := OnProgress(m, clientPresent, hasSignal, hasHandler, ticks[0]);
    var cut := FirstSignalled(hasSignal, ticks);
    var cut1 := FirstSignalled(hasSignal, ticks[1..]);
    assert cut == 1 + cut1;
    ForwardedStep(m.forwarded, hasHandler, ticks, cut1);
  }

  lemma ForwardedStep(fs: seq<Progress>, hasHandler: bool, ticks: seq<Tick>, cut1: nat)
    requires |ticks| > 0 && cut1 < |ticks|
    ensures (fs + (if hasHandler then [Progress(ticks[0].written, ticks[0].expected)] else []))
            + (if hasHandler then ProgressOf(ticks[1..][..cut1]) else [])
         == fs + (if hasHandler then ProgressOf(ticks[..cut1 + 1]) else [])
  {
    assert ticks[..cut1 + 1] == [ticks[0]] + ticks[1..][..cut1];
    ProgressOfConcat(ticks[0], ticks[1..][..cut1]);
  }

  lemma ProgressOfConcat(t: Tick, ticks: seq<Tick>)
    ensures ProgressOf([t] + ticks) == [Progress(t.written, t.expected)] + ProgressOf(ticks)
  {
    assert ([t] + ticks)[1..] == ticks;
  }

  /** Handling two runs of callbacks one after the other is handling their concatenation. */
  lemma {:induction false} OnProgressAllConcat(m: Monitor, clientPresent: bool, hasSignal: bool, hasHandler: bool, xs: seq<Tick>, ys: seq<Tick>)
    ensures OnProgressAll(m, clientPresent, hasSignal, hasHandler, xs + ys)
         == OnProgressAll(OnProgressAll(m, clientPresent, hasSignal, hasHandler, xs), clientPresent, hasSignal, hasHandler, ys)
    decreases |xs|
  {
    if |xs| == 0 {
      assert xs + ys == ys;
    } else {
      assert (xs + ys)[1..] == xs[1..] + ys;
      OnProgressAllConcat(OnProgress(m, clientPresent, hasSignal, hasHandler, xs[0]), clientPresent, hasSignal, hasHandler, xs[1..], ys);
    }
  }
}
