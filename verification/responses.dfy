/**
 The outcome of one attempt (the fields of a ResponseInfo this core reads
 or writes), the connectivity-ambiguous status class, and the rewrite of an
 ambiguous failure to "network slow" when the connectivity probe says the
 device is offline.
 */
module Responses {
  import opened Options
  import Decimal

  /** One attempt's outcome. `error` and `message` are the two nullable text fields. */
  datatype Response = Response(
    statusCode: int,
    error: Option<string>,
    message: Option<string>,
    reqId: Option<string>)

  /**
   Behaviour of ResponseInfo and ConnectChecker that this core consults but
   does not define: the two status constants it names, the TLS and
   host-retry classifications of an outcome, and the probe's verdict.
   */
  datatype Oracles = Oracles(
    networkError: int,
    networkSlow: int,
    isTlsError: Response -> bool,
    couldHostRetry: Response -> bool,
    isConnected: Option<Response> -> bool)

  const TimedOut := -1001
  const UnknownHost := -1003
  const CannotConnectToHost := -1004
  const ConnectionLost := -1005
  const NotConnectedToHost := -1009

  /** The statuses that are ambiguous between a server fault and a dead link. */
  function AmbiguousStatuses(o: Oracles): set<int> {
    {o.networkError, TimedOut, UnknownHost, CannotConnectToHost, ConnectionLost, NotConnectedToHost}
  }

  /** Whether an attempt's outcome calls for a connectivity probe; a null outcome never does. */
  function ShouldCheckConnect(o: Oracles, info: Option<Response>): (b: bool)
    ensures b ==> info.Some?
  {
    match info
    case None => false
    case Some(r) =>
      || r.statusCode == o.networkError
      || r.statusCode == TimedOut
      || r.statusCode == UnknownHost
      || r.statusCode == CannotConnectToHost
      || r.statusCode == ConnectionLost
      || r.statusCode == NotConnectedToHost
      || o.isTlsError(r)
  }

  /** A probe is called for exactly when the status is ambiguous or the failure is a TLS one. */
  lemma ShouldCheckConnectAmbiguous(o: Oracles, info: Option<Response>)
    requires info.Some?
    ensures ShouldCheckConnect(o, info) <==>
      info.value.statusCode in AmbiguousStatuses(o) || o.isTlsError(info.value)
  {
  }

  /** ResponseInfo.errorInfo(code, text): a bare outcome whose error text is `text`. */
  function ErrorInfo(code: int, text: string): Response {
    Response(code, Some(text), None, None)
  }

  /** How Java's string concatenation renders a nullable string. */
  function JavaText(s: Option<string>): string {
    s.GetOr("null")
  }

  const DiagnosticPrefix := "check origin statusCode:"
  const ErrorLabel := " error:"

  /** The text a rewritten outcome carries: the original status and error. */
  function DiagnosticMessage(r: Response): string {
    DiagnosticPrefix + Decimal.IntToString(r.statusCode) + ErrorLabel + JavaText(r.error)
  }

  /** Position of the first blank in `s`, or `|s|` when there is none. */
  function SpaceIndex(s: string): (k: nat)
    ensures k <= |s|
    ensures forall i :: 0 <= i < k ==> s[i] != ' '
    ensures k < |s| ==> s[k] == ' '
  {
    if |s| == 0 || s[0] == ' ' then 0 else 1 + SpaceIndex(s[1..])
  }

  /** Reads back the original status and error text from a diagnostic message. */
  function ParseDiagnostic(msg: string): Option<(int, string)> {
    if |msg| < |DiagnosticPrefix| || msg[..|DiagnosticPrefix|] != DiagnosticPrefix then None
    else
      var rest := msg[|DiagnosticPrefix|..];
      var k := SpaceIndex(rest);
      var tail := rest[k..];
      if |tail| < |ErrorLabel| || tail[..|ErrorLabel|] != ErrorLabel then None
      else
        match Decimal.ParseInt(rest[..k])
        case None => None
        case Some(code) => Some((code, tail[|ErrorLabel|..]))
  }

  /** The diagnostic message loses neither the original status nor the original error. */
  lemma {:induction false} DiagnosticRoundTrip(r: Response)
    ensures ParseDiagnostic(DiagnosticMessage(r)) == Some((r.statusCode, JavaText(r.error)))
  {
    var digits := Decimal.IntToString(r.statusCode);
    var msg := DiagnosticMessage(r);
    var rest := digits + ErrorLabel + JavaText(r.error);
    assert msg == DiagnosticPrefix + rest;
    assert msg[..|DiagnosticPrefix|] == DiagnosticPrefix;
    assert msg[|DiagnosticPrefix|..] == rest;
    var k := SpaceIndex(rest);
    assert rest[|digits|] == ' ';
    assert forall i :: 0 <= i < |digits| ==> rest[i] == digits[i];
    assert k == |digits|;
    assert rest[..k] == digits;
    assert rest[k..] == ErrorLabel + JavaText(r.error);
    Decimal.ParseIntToString(r.statusCode);
  }

  /**
   The outcome after the connectivity check: an ambiguous failure becomes
   a NetworkSlow outcome naming the original status and error when the
   probe reports no connectivity; every other outcome passes unchanged.
   */
  function Reclassify(o: Oracles, info: Option<Response>, probe: Option<Response>): (r: Option<Response>)
    ensures r.None? ==> info.None?
  {
    if ShouldCheckConnect(o, info) && !o.isConnected(probe) then
      Some(ErrorInfo(o.networkSlow, DiagnosticMessage(info.value)))
    else
      info
  }

  /** What the rewrite produces, and that nothing else is rewritten. */
  lemma ReclassifySpec(o: Oracles, info: Option<Response>, probe: Option<Response>)
    ensures var r := Reclassify(o, info, probe);
      && (ShouldCheckConnect(o, info) && !o.isConnected(probe) ==>
            && r.Some?
            && r.value.statusCode == o.networkSlow
            && r.value.error == Some(DiagnosticMessage(info.value))
            && r.value.message.None? && r.value.reqId.None?)
      && (!(ShouldCheckConnect(o, info) && !o.isConnected(probe)) ==> r == info)
  {
  }

  /**
   A changed outcome always comes from an ambiguous status and a negative
   probe, and its error text still names the original status and error.
   */
  lemma ReclassifiedNamesOriginal(o: Oracles, info: Option<Response>, probe: Option<Response>)
    requires Reclassify(o, info, probe) != info
    ensures info.Some?
    ensures info.value.statusCode in AmbiguousStatuses(o) || o.isTlsError(info.value)
    ensures !o.isConnected(probe)
    ensures Reclassify(o, info, probe).value.statusCode == o.networkSlow
    ensures ParseDiagnostic(Reclassify(o, info, probe).value.error.value)
         == Some((info.value.statusCode, JavaText(info.value.error)))
  {
    ShouldCheckConnectAmbiguous(o, info);
    DiagnosticRoundTrip(info.value);
  }
}
