/**
 * The acceptance decision taken when a client connects: the agent id check,
 * the API key check, and the verdict on the signed-URL request. A rejection
 * is one JSON error frame followed by a close with a fixed code; acceptance
 * goes on to open the upstream socket at the signed URL.
 */
module Handshake {
  import opened Wire

  /** How the signed-URL request ended: an HTTP response, or an exception
      (network failure, failing to read the error text of a non-ok response,
      a body that is not JSON, a missing or unusable URL). */
  datatype Reply = Response(status: nat, signedUrl: string) | Threw(message: string)

  datatype Rejection = Rejection(message: string, code: int, reason: string)

  datatype Decision = Reject(rejection: Rejection) | Proceed(signedUrl: string)

  /** A query parameter or environment variable counts only when it is set and non-empty. */
  predicate Present(v: Option<string>) {
    v.Some? && v.value != ""
  }

  /** The `ok` flag of an HTTP response. */
  predicate Ok(status: nat) {
    200 <= status <= 299
  }

  const MissingAgent := Rejection("Missing agent_id", PolicyViolation, "Missing agent_id")
  const NoApiKey := Rejection("API key not configured", InternalError, "No API key")
  const AuthPrefix := "Auth failed: "
  const SetupPrefix := "Setup failed: "

  function DigitChar(d: nat): (c: char)
    requires d < 10
    ensures '0' <= c <= '9' && c as int - '0' as int == d
  {
    ('0' as int + d) as char
  }

  predicate IsDigits(s: string) {
    forall i :: 0 <= i < |s| ==> '0' <= s[i] <= '9'
  }

  /** The decimal text of `n` as JavaScript prints a non-negative integer. */
  function Decimal(n: nat): (s: string)
    ensures 1 <= |s| && IsDigits(s)
    ensures s[0] == '0' ==> n == 0
    decreases n
  {
    if n < 10 then [DigitChar(n)] else Decimal(n / 10) + [DigitChar(n % 10)]
  }

  /** The number a string of decimal digits denotes. */
  function DigitsValue(s: string): nat
    requires IsDigits(s)
    decreases |s|
  {
    if s == [] then 0 else DigitsValue(s[..|s| - 1]) * 10 + (s[|s| - 1] as int - '0' as int)
  }

  lemma {:induction false} DecimalRoundTrip(n: nat)
    ensures DigitsValue(Decimal(n)) == n
    decreases n
  {
    if n >= 10 {
      DecimalRoundTrip(n / 10);
      var s := Decimal(n);
      assert s[..|s| - 1] == Decimal(n / 10);
    }
  }

  /** The checks made before any request is issued; the agent id is checked first. */
  function Precheck(agentId: Option<string>, apiKey: Option<string>): (r: Option<Rejection>)
    ensures r.None? <==> Present(agentId) && Present(apiKey)
    ensures r == Some(MissingAgent) <==> !Present(agentId)
  {
    if !Present(agentId) then Some(MissingAgent)
    else if !Present(apiKey) then Some(NoApiKey)
    else None
  }

  /** Whether the signed-URL request is issued at all. */
  predicate RequestIssued(agentId: Option<string>, apiKey: Option<string>) {
    Precheck(agentId, apiKey).None?
  }

  /** The whole acceptance decision. */
  function Decide(agentId: Option<string>, apiKey: Option<string>, reply: Reply): (d: Decision)
    ensures d.Proceed? <==> RequestIssued(agentId, apiKey) && reply.Response? && Ok(reply.status)
    ensures d.Proceed? ==> d.signedUrl == reply.signedUrl
    ensures d.Reject? ==> d.rejection.code == (if Present(agentId) then InternalError else PolicyViolation)
  {
    match Precheck(agentId, apiKey)
    case Some(r) => Reject(r)
    case None =>
      match reply
      case Threw(m) => Reject(Rejection(SetupPrefix + m, InternalError, "Setup failed"))
      case Response(status, url) =>
        if Ok(status) then Proceed(url)
        else Reject(Rejection(AuthPrefix + Decimal(status), InternalError, "Auth failed"))
  }

  /** What a rejected client receives: one error frame, then a close. */
  function RejectOutput(r: Rejection): (out: seq<Output>)
    ensures forall o | o in out :: o.SendClient? || o.CloseClient?
  {
    [SendClient(ErrorNotice(r.message)), CloseClient(r.code, r.reason)]
  }

  /** A rejection closes the client exactly once, after its one error frame,
      and touches no upstream socket. */
  lemma RejectionErrorThenClose(r: Rejection)
    ensures var out := RejectOutput(r);
      && ClientCloses(out) == [CloseClient(r.code, r.reason)]
      && Gather(out, GuardedClientCall) == [SendClient(ErrorNotice(r.message)), CloseClient(r.code, r.reason)]
      && UpstreamPayloads(out) == [] && UpstreamCloses(out) == []
  {
    var e, c := SendClient(ErrorNotice(r.message)), CloseClient(r.code, r.reason);
    GatherTwo(e, c, ClientCloseOf);
    GatherTwo(e, c, GuardedClientCall);
    GatherTwo(e, c, SentUpstream);
    GatherTwo(e, c, UpstreamCloseOf);
  }

  /** A missing or empty agent id is rejected with 1008 whatever else holds,
      so the API key check comes second and no request is issued. */
  lemma MissingAgentRejected(agentId: Option<string>, apiKey: Option<string>, reply: Reply)
    requires !Present(agentId)
    ensures Decide(agentId, apiKey, reply) == Reject(MissingAgent)
    ensures !RequestIssued(agentId, apiKey)
  {
  }

  /** With an agent id but no API key the client is told so and closed with 1011; no request. */
  lemma MissingKeyRejected(agentId: Option<string>, apiKey: Option<string>, reply: Reply)
    requires Present(agentId) && !Present(apiKey)
    ensures Decide(agentId, apiKey, reply) == Reject(NoApiKey)
    ensures !RequestIssued(agentId, apiKey)
  {
  }

  /** When no request is issued, its outcome cannot influence the decision. */
  lemma UnissuedReplyIgnored(agentId: Option<string>, apiKey: Option<string>, r1: Reply, r2: Reply)
    requires !RequestIssued(agentId, apiKey)
    ensures Decide(agentId, apiKey, r1) == Decide(agentId, apiKey, r2)
  {
  }

  /** A non-ok response is reported with its status, which the client can read back
      from the message, and the client is closed with 1011. */
  lemma AuthFailureNamesStatus(agentId: Option<string>, apiKey: Option<string>, status: nat, url: string)
    requires RequestIssued(agentId, apiKey) && !Ok(status)
    ensures var d := Decide(agentId, apiKey, Response(status, url));
      && d.Reject?
      && d.rejection.code == InternalError
      && d.rejection.reason == "Auth failed"
      && |AuthPrefix| < |d.rejection.message|
      && d.rejection.message[..|AuthPrefix|] == AuthPrefix
      && IsDigits(d.rejection.message[|AuthPrefix|..])
      && DigitsValue(d.rejection.message[|AuthPrefix|..]) == status
      && d.rejection.message[|AuthPrefix|..] == Decimal(status)
  {
    var m := AuthPrefix + Decimal(status);
    assert m[|AuthPrefix|..] == Decimal(status);
    DecimalRoundTrip(status);
  }

  /** Two different failing statuses never produce the same error frame. */
  lemma AuthMessagesDistinct(s1: nat, s2: nat)
    requires s1 != s2
    ensures AuthPrefix + Decimal(s1) != AuthPrefix + Decimal(s2)
  {
    var m1, m2 := AuthPrefix + Decimal(s1), AuthPrefix + Decimal(s2);
    assert m1[|AuthPrefix|..] == Decimal(s1) && m2[|AuthPrefix|..] == Decimal(s2);
    DecimalRoundTrip(s1);
    DecimalRoundTrip(s2);
  }

  /** An exception during setup is reported with its own message after "Setup failed: ". */
  lemma SetupFailureCarriesMessage(agentId: Option<string>, apiKey: Option<string>, m: string)
    requires RequestIssued(agentId, apiKey)
    ensures var d := Decide(agentId, apiKey, Threw(m));
      && d == Reject(Rejection(SetupPrefix + m, InternalError, "Setup failed"))
      && d.rejection.message[|SetupPrefix|..] == m
  {
  }
}
