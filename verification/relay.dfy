/**
 * The connection handler as it runs: the acceptance checks with their early
 * returns, then one relay session whose callbacks update the variables the
 * handler closes over. Each callback is a method proved to do what
 * `Session.Step` says, so every trace lemma of `Session` holds of the object.
 */
module Relay {
  import opened Wire
  import opened Handshake
  import opened Session

  /** The variables one connection handler closes over once its upstream socket exists. */
  class RelaySession {
    const signedUrl: string
    var client: SocketState
    var upstream: SocketState
    var ready: bool                 // elConnected
    var buffer: seq<Payload>        // messageBuffer
    var clientMsgCount: nat
    var upstreamMsgCount: nat       // elMsgCount
    var out: seq<Output>            // the send/close calls made so far

    function Snapshot(): State
      reads this
    {
      State(client, upstream, ready, buffer, clientMsgCount, upstreamMsgCount, out)
    }

    predicate Valid()
      reads this
    {
      Inv(Snapshot())
    }

    /** The handlers are attached right after the upstream socket is created. */
    constructor (signedUrl: string, client: SocketState)
      ensures this.signedUrl == signedUrl
      ensures Valid() && Snapshot() == Start(client)
    {
      this.signedUrl := signedUrl;
      this.client := client;
      upstream := Connecting;
      ready := false;
      buffer := [];
      clientMsgCount := 0;
      upstreamMsgCount := 0;
      out := [];
    }

    /** clientWs "message": forward if upstream is ready and open, else buffer. */
    method ClientMessage(data: Payload)
      requires Valid()
      modifies this
      ensures Valid() && Snapshot() == Step(old(Snapshot()), ClientSent(data))
    {
      ghost var before := Snapshot();
      clientMsgCount := clientMsgCount + 1;
      if ready && upstream == Open {
        out := out + [SendUpstream(data)];
      } else {
        buffer := buffer + [data];
      }
      StepAccounting(before, ClientSent(data));
    }

    /** elWs "open": mark ready, drain the buffer oldest-first, then notify the client. */
    method UpstreamOpen()
      requires Valid()
      modifies this
      ensures buffer == [] && ready && upstream == Open
      ensures out == old(out) + Flushed(old(buffer)) + [SendClient(ProxyConnected)]
      ensures Valid() && Snapshot() == Step(old(Snapshot()), UpstreamOpened)
    {
      ghost var before := Snapshot();
      upstream := Open;
      ready := true;
      Drain();
      out := out + [SendClient(ProxyConnected)];
      OpenFlushesThenAnnounces(before);
    }

    /** The drain loop of the "open" callback: shift each buffered message and send it upstream. */
    method Drain()
      modifies this
      ensures buffer == [] && out == old(out) + Flushed(old(buffer))
      ensures client == old(client) && upstream == old(upstream) && ready == old(ready)
      ensures clientMsgCount == old(clientMsgCount) && upstreamMsgCount == old(upstreamMsgCount)
    {
      ghost var drained: seq<Payload> := [];
      while |buffer| > 0
        invariant old(buffer) == drained + buffer
        invariant out == old(out) + Flushed(drained)
        invariant client == old(client) && upstream == old(upstream) && ready == old(ready)
        invariant clientMsgCount == old(clientMsgCount) && upstreamMsgCount == old(upstreamMsgCount)
        decreases |buffer|
      {
        var msg := buffer[0];
        FlushedSnoc(drained, msg);
        assert drained + buffer == (drained + [msg]) + buffer[1..];
        buffer := buffer[1..];
        out := out + [SendUpstream(msg)];
        drained := drained + [msg];
      }
      assert drained == old(buffer);
    }

    /** elWs "message": relay unchanged to an open client, else drop. */
    method UpstreamMessage(data: Payload)
      requires Valid()
      modifies this
      ensures Valid() && Snapshot() == Step(old(Snapshot()), UpstreamSent(data))
    {
      upstreamMsgCount := upstreamMsgCount + 1;
      if client == Open {
        out := out + [SendClient(Relayed(data))];
      }
    }

    /** clientWs "close": close upstream, without a code, if it is open. */
    method ClientClose()
      requires Valid()
      modifies this
      ensures Valid() && Snapshot() == Step(old(Snapshot()), ClientClosed)
    {
      client := Closed;
      if upstream == Open {
        out := out + [CloseUpstream];
        upstream := Closing;
      }
    }

    /** elWs "close": close an open client with upstream's code and reason. */
    method UpstreamClose(code: int, reason: Option<string>)
      requires Valid()
      modifies this
      ensures Valid() && Snapshot() == Step(old(Snapshot()), UpstreamClosed(code, reason))
    {
      upstream := Closed;
      var r := ReasonText(reason);
      if client == Open {
        out := out + [CloseClient(code, r)];
        client := Closing;
      }
    }

    /** clientWs "error": close upstream, without a code, if it is open. */
    method ClientError()
      requires Valid()
      modifies this
      ensures Valid() && Snapshot() == Step(old(Snapshot()), ClientFailed)
    {
      client := Erroring(client);
      if upstream == Open {
        out := out + [CloseUpstream];
        upstream := Closing;
      }
    }

    /** elWs "error": tell an open client, then close it with 1011. */
    method UpstreamError()
      requires Valid()
      modifies this
      ensures Valid() && Snapshot() == Step(old(Snapshot()), UpstreamFailed)
    {
      upstream := Erroring(upstream);
      if client == Open {
        out := out + [SendClient(ErrorNotice(UpstreamErrorMessage))];
        out := out + [CloseClient(InternalError, "Upstream error")];
        client := Closing;
      }
    }
  }

  /** The "connection" handler up to the creation of the upstream socket: the two
      checks, the signed-URL request and its failure paths. `client` is the client's
      state when the request settles. A rejection makes the returned calls on the
      client and creates no session; otherwise a fresh session starts. */
  method Accept(agentId: Option<string>, apiKey: Option<string>, reply: Reply, client: SocketState)
    returns (session: RelaySession?, sent: seq<Output>)
    ensures var d := Decide(agentId, apiKey, reply);
      && (session == null <==> d.Reject?)
      && (d.Reject? ==> sent == RejectOutput(d.rejection))
      && (d.Proceed? ==> sent == [] && fresh(session) && session.signedUrl == d.signedUrl
                         && session.Valid() && session.Snapshot() == Start(client))
  {
    if !Present(agentId) {
      return null, RejectOutput(MissingAgent);
    }
    if !Present(apiKey) {
      return null, RejectOutput(NoApiKey);
    }
    match reply
    case Threw(m) =>
      session, sent := null, RejectOutput(Rejection(SetupPrefix + m, InternalError, "Setup failed"));
    case Response(status, url) =>
      if !Ok(status) {
        return null, RejectOutput(Rejection(AuthPrefix + Decimal(status), InternalError, "Auth failed"));
      }
      session := new RelaySession(url, client);
      sent := [];
  }
}
