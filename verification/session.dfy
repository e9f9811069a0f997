/**
 * The relay session as a sequential state machine: one step per socket
 * callback, each run to completion. `Step` is what one callback does to the
 * session's state and to the log of calls made on the two sockets; `Run`
 * replays a trace of callbacks. The lemmas state the ordering guarantees of
 * the relay over whole traces.
 */
module Session {
  import opened Wire

  /** The state one connection handler closes over, plus the sockets' `readyState`s. */
  datatype State = State(
    client: SocketState,
    upstream: SocketState,
    ready: bool,                 // elConnected
    buffer: seq<Payload>,        // messageBuffer, oldest first
    clientMsgCount: nat,
    upstreamMsgCount: nat,       // elMsgCount
    out: seq<Output>)            // every send/close call made, in order

  /** One callback, fired by the socket library. */
  datatype Event =
    | ClientSent(data: Payload)                            // clientWs "message"
    | UpstreamOpened                                       // elWs "open"
    | UpstreamSent(data: Payload)                          // elWs "message"
    | ClientClosed                                         // clientWs "close"
    | UpstreamClosed(code: int, reason: Option<string>)    // elWs "close"
    | ClientFailed                                         // clientWs "error"
    | UpstreamFailed                                       // elWs "error"

  const UpstreamErrorMessage := "ElevenLabs connection error"

  /** The state when the handlers are attached: the upstream socket has just been created. */
  function Start(client: SocketState): (s: State)
    ensures Inv(s)
  {
    State(client, Connecting, false, [], 0, 0, [])
  }

  /** The socket library moves a socket to CLOSING before it reports an error on it. */
  function Erroring(st: SocketState): SocketState {
    if st == Closed then Closed else Closing
  }

  /** The text of an upstream close reason; an absent reason becomes "". */
  function ReasonText(reason: Option<string>): string {
    if reason.Some? then reason.value else ""
  }

  /** A socket the relay itself closes goes from OPEN to CLOSING; any other state stays. */
  function ClosedByRelay(st: SocketState): SocketState {
    if st == Open then Closing else st
  }

  /** The calls one callback makes, in the order it makes them: one per buffered
      message and `proxy_connected` on "open", at most two otherwise. */
  function Emitted(s: State, e: Event): (calls: seq<Output>)
    ensures |calls| <= if e.UpstreamOpened? then |s.buffer| + 1 else 2
    ensures e.UpstreamOpened? ==> |calls| == |s.buffer| + 1
  {
    match e
    case ClientSent(data) =>
      if s.ready && s.upstream == Open then [SendUpstream(data)] else []
    case UpstreamOpened =>
      Flushed(s.buffer) + [SendClient(ProxyConnected)]
    case UpstreamSent(data) =>
      if s.client == Open then [SendClient(Relayed(data))] else []
    case ClientClosed =>
      if s.upstream == Open then [CloseUpstream] else []
    case UpstreamClosed(code, reason) =>
      if s.client == Open then [CloseClient(code, ReasonText(reason))] else []
    case ClientFailed =>
      if s.upstream == Open then [CloseUpstream] else []
    case UpstreamFailed =>
      if s.client == Open
      then [SendClient(ErrorNotice(UpstreamErrorMessage)), CloseClient(InternalError, "Upstream error")]
      else []
  }

  /** One callback: the state it leaves, with its calls appended to the log and nothing
      earlier changed. A callback makes at most one call per buffered message plus two. */
  function Step(s: State, e: Event): (n: State)
    ensures n.out == s.out + Emitted(s, e)
    ensures |s.out| <= |n.out| <= |s.out| + |s.buffer| + 2
  {
    var out := s.out + Emitted(s, e);
    match e
    case ClientSent(data) =>
      var counted := s.(clientMsgCount := s.clientMsgCount + 1, out := out);
      if s.ready && s.upstream == Open then counted else counted.(buffer := s.buffer + [data])
    case UpstreamOpened =>
      s.(upstream := Open, ready := true, buffer := [], out := out)
    case UpstreamSent(_) =>
      s.(upstreamMsgCount := s.upstreamMsgCount + 1, out := out)
    case ClientClosed =>
      s.(client := Closed, upstream := ClosedByRelay(s.upstream), out := out)
    case UpstreamClosed(_, _) =>
      s.(upstream := Closed, client := ClosedByRelay(s.client), out := out)
    case ClientFailed =>
      s.(client := Erroring(s.client), upstream := ClosedByRelay(s.upstream), out := out)
    case UpstreamFailed =>
      s.(upstream := Erroring(s.upstream), client := ClosedByRelay(s.client), out := out)
  }

  function Run(s: State, t: seq<Event>): State
    decreases |t|
  {
    if t == [] then s else Run(Step(s, t[0]), t[1..])
  }

  /** The message bodies the client sent, in arrival order. */
  function ClientFrames(t: seq<Event>): seq<Payload>
    decreases |t|
  {
    if t == [] then [] else (if t[0].ClientSent? then [t[0].data] else []) + ClientFrames(t[1..])
  }

  /** The message bodies upstream sent, in arrival order. */
  function UpstreamFrames(t: seq<Event>): seq<Payload>
    decreases |t|
  {
    if t == [] then [] else (if t[0].UpstreamSent? then [t[0].data] else []) + UpstreamFrames(t[1..])
  }

  /** The session invariant: once upstream is open, the relay is ready and holds nothing back. */
  predicate Inv(s: State) {
    s.upstream == Open ==> s.ready && s.buffer == []
  }

  /** The socket library fires "open" only on a socket that is still connecting. */
  predicate Enabled(s: State, e: Event) {
    e.UpstreamOpened? ==> s.upstream == Connecting
  }

  predicate Possible(s: State, t: seq<Event>)
    decreases |t|
  {
    t == [] || (Enabled(s, t[0]) && Possible(Step(s, t[0]), t[1..]))
  }

  lemma StepGather<T>(s: State, e: Event, pick: Output -> seq<T>)
    ensures Gather(Step(s, e).out, pick) == Gather(s.out, pick) + Gather(Emitted(s, e), pick)
  {
    assert Step(s, e).out == s.out + Emitted(s, e);
    GatherAppend(s.out, Emitted(s, e), pick);
  }

  /** A projection that ignores upstream sends and `proxy_connected` sees nothing of "open". */
  lemma OpenQuiet<T>(s: State, pick: Output -> seq<T>)
    requires forall p :: pick(SendUpstream(p)) == []
    requires pick(SendClient(ProxyConnected)) == []
    ensures Gather(Emitted(s, UpstreamOpened), pick) == []
  {
    FlushedQuiet(s.buffer, pick);
    GatherAppend(Flushed(s.buffer), [SendClient(ProxyConnected)], pick);
    GatherOne(SendClient(ProxyConnected), pick);
  }

  /** Which message bodies one callback sends upstream. */
  lemma EmittedUpstreamPayloads(s: State, e: Event)
    ensures UpstreamPayloads(Emitted(s, e))
         == if e.ClientSent? && s.ready && s.upstream == Open then [e.data]
            else if e.UpstreamOpened? then s.buffer
            else []
  {
    var delta := Emitted(s, e);
    match e
    case ClientSent(d) =>
      if s.ready && s.upstream == Open { GatherOne(SendUpstream(d), SentUpstream); } else { assert delta == []; }
    case UpstreamOpened =>
        FlushedSendsBuffer(s.buffer);
      GatherAppend(Flushed(s.buffer), [SendClient(ProxyConnected)], SentUpstream);
      GatherOne(SendClient(ProxyConnected), SentUpstream);
    case UpstreamSent(d) =>
      if s.client == Open { GatherOne(SendClient(Relayed(d)), SentUpstream); } else { assert delta == []; }
    case ClientClosed =>
      if s.upstream == Open { GatherOne(CloseUpstream, SentUpstream); } else { assert delta == []; }
    case UpstreamClosed(code, reason) =>
      if s.client == Open { GatherOne(CloseClient(code, ReasonText(reason)), SentUpstream); } else { assert delta == []; }
    case ClientFailed =>
      if s.upstream == Open { GatherOne(CloseUpstream, SentUpstream); } else { assert delta == []; }
    case UpstreamFailed =>
      if s.client == Open {
        GatherTwo(SendClient(ErrorNotice(UpstreamErrorMessage)), CloseClient(InternalError, "Upstream error"), SentUpstream);
      } else {
        assert delta == [];
      }
  }

  /** Which upstream message bodies one callback relays to the client. */
  lemma EmittedClientPayloads(s: State, e: Event)
    ensures ClientPayloads(Emitted(s, e)) == if e.UpstreamSent? && s.client == Open then [e.data] else []
  {
    var delta := Emitted(s, e);
    match e
    case ClientSent(d) =>
      if s.ready && s.upstream == Open { GatherOne(SendUpstream(d), RelayedToClient); } else { assert delta == []; }
    case UpstreamOpened =>
      OpenQuiet(s, RelayedToClient);
    case UpstreamSent(d) =>
      if s.client == Open { GatherOne(SendClient(Relayed(d)), RelayedToClient); } else { assert delta == []; }
    case ClientClosed =>
      if s.upstream == Open { GatherOne(CloseUpstream, RelayedToClient); } else { assert delta == []; }
    case UpstreamClosed(code, reason) =>
      if s.client == Open { GatherOne(CloseClient(code, ReasonText(reason)), RelayedToClient); } else { assert delta == []; }
    case ClientFailed =>
      if s.upstream == Open { GatherOne(CloseUpstream, RelayedToClient); } else { assert delta == []; }
    case UpstreamFailed =>
      if s.client == Open {
        GatherTwo(SendClient(ErrorNotice(UpstreamErrorMessage)), CloseClient(InternalError, "Upstream error"), RelayedToClient);
      } else {
        assert delta == [];
      }
  }

  /** The guarded calls one callback makes on the client: everything but `proxy_connected`. */
  function GuardedEmitted(s: State, e: Event): seq<Output> {
    if s.client != Open then []
    else match e
      case UpstreamSent(d) => [SendClient(Relayed(d))]
      case UpstreamClosed(code, reason) => [CloseClient(code, ReasonText(reason))]
      case UpstreamFailed => [SendClient(ErrorNotice(UpstreamErrorMessage)), CloseClient(InternalError, "Upstream error")]
      case _ => []
  }

  lemma EmittedGuardedCalls(s: State, e: Event)
    ensures Gather(Emitted(s, e), GuardedClientCall) == GuardedEmitted(s, e)
  {
    var calls := Emitted(s, e);
    if e.UpstreamOpened? {
      OpenQuiet(s, GuardedClientCall);
    } else if |calls| == 1 {
      assert calls == [calls[0]];
      GatherOne(calls[0], GuardedClientCall);
    } else if |calls| == 2 {
      assert calls == [calls[0], calls[1]];
      GatherTwo(calls[0], calls[1], GuardedClientCall);
    } else {
      assert calls == [];
    }
  }

  /** Which close calls one callback makes on the client. */
  lemma EmittedClientCloses(s: State, e: Event)
    ensures ClientCloses(Emitted(s, e))
         == if s.client == Open && e.UpstreamClosed? then [CloseClient(e.code, ReasonText(e.reason))]
            else if s.client == Open && e.UpstreamFailed? then [CloseClient(InternalError, "Upstream error")]
            else []
  {
    var delta := Emitted(s, e);
    match e
    case ClientSent(d) =>
      if s.ready && s.upstream == Open { GatherOne(SendUpstream(d), ClientCloseOf); } else { assert delta == []; }
    case UpstreamOpened =>
      OpenQuiet(s, ClientCloseOf);
    case UpstreamSent(d) =>
      if s.client == Open { GatherOne(SendClient(Relayed(d)), ClientCloseOf); } else { assert delta == []; }
    case ClientClosed =>
      if s.upstream == Open { GatherOne(CloseUpstream, ClientCloseOf); } else { assert delta == []; }
    case UpstreamClosed(code, reason) =>
      if s.client == Open { GatherOne(CloseClient(code, ReasonText(reason)), ClientCloseOf); } else { assert delta == []; }
    case ClientFailed =>
      if s.upstream == Open { GatherOne(CloseUpstream, ClientCloseOf); } else { assert delta == []; }
    case UpstreamFailed =>
      if s.client == Open {
        GatherTwo(SendClient(ErrorNotice(UpstreamErrorMessage)), CloseClient(InternalError, "Upstream error"), ClientCloseOf);
      } else {
        assert delta == [];
      }
  }

  /** Which close calls one callback makes on upstream. */
  lemma EmittedUpstreamCloses(s: State, e: Event)
    ensures UpstreamCloses(Emitted(s, e))
         == if (e.ClientClosed? || e.ClientFailed?) && s.upstream == Open then [CloseUpstream] else []
  {
    var delta := Emitted(s, e);
    match e
    case ClientSent(d) =>
      if s.ready && s.upstream == Open { GatherOne(SendUpstream(d), UpstreamCloseOf); } else { assert delta == []; }
    case UpstreamOpened =>
      OpenQuiet(s, UpstreamCloseOf);
    case UpstreamSent(d) =>
      if s.client == Open { GatherOne(SendClient(Relayed(d)), UpstreamCloseOf); } else { assert delta == []; }
    case ClientClosed =>
      if s.upstream == Open { GatherOne(CloseUpstream, UpstreamCloseOf); } else { assert delta == []; }
    case UpstreamClosed(code, reason) =>
      if s.client == Open { GatherOne(CloseClient(code, ReasonText(reason)), UpstreamCloseOf); } else { assert delta == []; }
    case ClientFailed =>
      if s.upstream == Open { GatherOne(CloseUpstream, UpstreamCloseOf); } else { assert delta == []; }
    case UpstreamFailed =>
      if s.client == Open {
        GatherTwo(SendClient(ErrorNotice(UpstreamErrorMessage)), CloseClient(InternalError, "Upstream error"), UpstreamCloseOf);
      } else {
        assert delta == [];
      }
  }

  // ---------------------------------------------------------------------
  // Client to upstream: buffering, flushing, no loss, no duplication.

  /** The "open" callback drains the buffer oldest-first, and only then
      announces `proxy_connected`; afterwards the relay is ready and the buffer empty. */
  lemma OpenFlushesThenAnnounces(s: State)
    ensures var n := Step(s, UpstreamOpened);
      && n.ready && n.upstream == Open && n.buffer == []
      && n.out == s.out + Flushed(s.buffer) + [SendClient(ProxyConnected)]
      && UpstreamPayloads(n.out) == UpstreamPayloads(s.out) + s.buffer
      && ClientPayloads(n.out) == ClientPayloads(s.out)
  {
    StepGather(s, UpstreamOpened, SentUpstream);
    EmittedUpstreamPayloads(s, UpstreamOpened);
    StepGather(s, UpstreamOpened, RelayedToClient);
    EmittedClientPayloads(s, UpstreamOpened);
  }

  /** One callback keeps the invariant, and extends "sent upstream, then still buffered"
      by exactly the client message it handles, if any. */
  lemma StepAccounting(s: State, e: Event)
    requires Inv(s)
    ensures Inv(Step(s, e))
    ensures UpstreamPayloads(Step(s, e).out) + Step(s, e).buffer
         == UpstreamPayloads(s.out) + s.buffer + (if e.ClientSent? then [e.data] else [])
  {
    var n := Step(s, e);
    var sent := UpstreamPayloads(Emitted(s, e));
    assert Inv(n);
    assert UpstreamPayloads(n.out) == UpstreamPayloads(s.out) + sent by {
      StepGather(s, e, SentUpstream);
    }
    assert sent == if e.ClientSent? && s.ready && s.upstream == Open then [e.data]
                   else if e.UpstreamOpened? then s.buffer
                   else [] by {
      EmittedUpstreamPayloads(s, e);
    }
    assert n.buffer == if e.ClientSent? && !(s.ready && s.upstream == Open) then s.buffer + [e.data]
                       else if e.UpstreamOpened? then []
                       else s.buffer;
  }

  /** Over any trace, what was sent upstream followed by what is still buffered is
      what it was before followed by the client's messages in arrival order. */
  lemma {:induction false} RunAccounting(s: State, t: seq<Event>)
    requires Inv(s)
    ensures Inv(Run(s, t))
    ensures UpstreamPayloads(Run(s, t).out) + Run(s, t).buffer
         == UpstreamPayloads(s.out) + s.buffer + ClientFrames(t)
    decreases |t|
  {
    if t != [] {
      StepAccounting(s, t[0]);
      RunAccounting(Step(s, t[0]), t[1..]);
    }
  }

  /** From the start of a session, the messages sent upstream followed by those still
      buffered are exactly the client's messages in arrival order (no gap, duplicate
      or reordering), and nothing is held back while upstream is open. */
  lemma ClientOrderPreserved(client: SocketState, t: seq<Event>)
    ensures var r := Run(Start(client), t);
      && UpstreamPayloads(r.out) + r.buffer == ClientFrames(t)
      && (r.upstream == Open ==> r.ready && r.buffer == [] && UpstreamPayloads(r.out) == ClientFrames(t))
  {
    var r := Run(Start(client), t);
    assert UpstreamPayloads(r.out) + r.buffer == ClientFrames(t) && Inv(r) by {
      RunAccounting(Start(client), t);
      assert UpstreamPayloads([]) == [];
    }
  }

  // ---------------------------------------------------------------------
  // Counters.

  /** Each counter counts every message its socket delivered, whatever became of it. */
  lemma {:induction false} Counters(s: State, t: seq<Event>)
    ensures Run(s, t).clientMsgCount == s.clientMsgCount + |ClientFrames(t)|
    ensures Run(s, t).upstreamMsgCount == s.upstreamMsgCount + |UpstreamFrames(t)|
    decreases |t|
  {
    if t != [] {
      Counters(Step(s, t[0]), t[1..]);
    }
  }

  // ---------------------------------------------------------------------
  // Upstream to client: forwarded unchanged while the client is open, otherwise dropped.

  /** What the client is relayed during a trace is an order-preserving selection of
      what upstream sent during it: never invented, duplicated or reordered. */
  lemma {:induction false} ClientGetsSubsequence(s: State, t: seq<Event>)
    ensures var before, after := ClientPayloads(s.out), ClientPayloads(Run(s, t).out);
      && |before| <= |after|
      && after[..|before|] == before
      && IsSubsequence(after[|before|..], UpstreamFrames(t))
    decreases |t|
  {
    var before, after := ClientPayloads(s.out), ClientPayloads(Run(s, t).out);
    if t == [] {
      assert after[|before|..] == [];
    } else {
      var e, n := t[0], Step(s, t[0]);
      var mid := ClientPayloads(n.out);
      var got := if e.UpstreamSent? && s.client == Open then [e.data] else [];
      var sent := if e.UpstreamSent? then [e.data] else [];
      assert mid == before + got by {
        StepGather(s, e, RelayedToClient);
        EmittedClientPayloads(s, e);
      }
      ClientGetsSubsequence(n, t[1..]);
      assert Run(s, t) == Run(n, t[1..]);
      var rest, later := after[|mid|..], UpstreamFrames(t[1..]);
      assert UpstreamFrames(t) == sent + later;
      PrefixSplit(after, before, got);
      SubsequenceExtend(got, rest, sent, later);
    }
  }

  /** Only messages and the "open" callback occur. */
  predicate NoTeardown(t: seq<Event>)
    decreases |t|
  {
    t == [] || ((t[0].ClientSent? || t[0].UpstreamSent? || t[0].UpstreamOpened?) && NoTeardown(t[1..]))
  }

  /** While neither side closes or fails and the client is open, every upstream
      message reaches the client, unchanged and in order. */
  lemma {:induction false} ClientGetsEverythingWhileOpen(s: State, t: seq<Event>)
    requires s.client == Open && NoTeardown(t)
    ensures Run(s, t).client == Open
    ensures ClientPayloads(Run(s, t).out) == ClientPayloads(s.out) + UpstreamFrames(t)
    decreases |t|
  {
    if t != [] {
      var e, n := t[0], Step(s, t[0]);
      var got, later := if e.UpstreamSent? then [e.data] else [], UpstreamFrames(t[1..]);
      QuietStepRelays(s, e);
      ClientGetsEverythingWhileOpen(n, t[1..]);
      var r := Run(n, t[1..]);
      assert Run(s, t) == r;
      assert UpstreamFrames(t) == got + later;
      assert ClientPayloads(r.out) == (ClientPayloads(s.out) + got) + later;
    }
  }

  /** One message or "open" callback keeps the client open and relays exactly the upstream message, if any. */
  lemma QuietStepRelays(s: State, e: Event)
    requires s.client == Open && (e.ClientSent? || e.UpstreamSent? || e.UpstreamOpened?)
    ensures Step(s, e).client == Open
    ensures ClientPayloads(Step(s, e).out) == ClientPayloads(s.out) + (if e.UpstreamSent? then [e.data] else [])
  {
    StepGather(s, e, RelayedToClient);
    EmittedClientPayloads(s, e);
  }

  // ---------------------------------------------------------------------
  // Teardown: close and error propagation, each guarded by "target is open".

  /** "close" from upstream makes exactly one call: it closes an open client with the
      same code and reason (an absent reason as ""). A client that is not open gets nothing. */
  lemma UpstreamCloseMirrored(s: State, code: int, reason: Option<string>)
    ensures Emitted(s, UpstreamClosed(code, reason))
         == if s.client == Open then [CloseClient(code, ReasonText(reason))] else []
    ensures var n := Step(s, UpstreamClosed(code, reason));
      && n.upstream == Closed && n.client != Open
      && Gather(n.out, GuardedClientCall)
         == Gather(s.out, GuardedClientCall) + (if s.client == Open then [CloseClient(code, ReasonText(reason))] else [])
      && UpstreamPayloads(n.out) == UpstreamPayloads(s.out)
  {
    var e, c := UpstreamClosed(code, reason), CloseClient(code, ReasonText(reason));
    var n := Step(s, e);
    assert Emitted(s, e) == if s.client == Open then [c] else [];
    assert Gather(n.out, GuardedClientCall)
        == Gather(s.out, GuardedClientCall) + (if s.client == Open then [c] else []) by {
      StepGather(s, e, GuardedClientCall);
      if s.client == Open { GatherOne(c, GuardedClientCall); }
    }
    assert UpstreamPayloads(n.out) == UpstreamPayloads(s.out) by {
      StepGather(s, e, SentUpstream);
      if s.client == Open { GatherOne(c, SentUpstream); }
    }
  }

  /** An upstream error makes exactly two calls on an open client: the error frame, then
      a 1011 close. A client that is not open gets nothing, and upstream is not closed. */
  lemma UpstreamErrorNotifiesClient(s: State)
    ensures Emitted(s, UpstreamFailed)
         == if s.client == Open
            then [SendClient(ErrorNotice(UpstreamErrorMessage)), CloseClient(InternalError, "Upstream error")]
            else []
    ensures var n := Step(s, UpstreamFailed);
      && n.client != Open && n.upstream != Open
      && Gather(n.out, GuardedClientCall)
         == Gather(s.out, GuardedClientCall)
            + (if s.client == Open
               then [SendClient(ErrorNotice(UpstreamErrorMessage)), CloseClient(InternalError, "Upstream error")]
               else [])
      && UpstreamCloses(n.out) == UpstreamCloses(s.out)
  {
    var a, c := SendClient(ErrorNotice(UpstreamErrorMessage)), CloseClient(InternalError, "Upstream error");
    var n := Step(s, UpstreamFailed);
    assert Emitted(s, UpstreamFailed) == if s.client == Open then [a, c] else [];
    assert Gather(n.out, GuardedClientCall)
        == Gather(s.out, GuardedClientCall) + (if s.client == Open then [a, c] else []) by {
      StepGather(s, UpstreamFailed, GuardedClientCall);
      if s.client == Open { GatherTwo(a, c, GuardedClientCall); }
    }
    assert UpstreamCloses(n.out) == UpstreamCloses(s.out) by {
      StepGather(s, UpstreamFailed, UpstreamCloseOf);
      if s.client == Open { GatherTwo(a, c, UpstreamCloseOf); }
    }
  }

  /** "close" or "error" on the client makes exactly one call: it closes an open upstream,
      without a code. Nothing is sent, and the client gets nothing. */
  lemma ClientLeavingClosesUpstream(s: State, e: Event)
    requires e == ClientClosed || e == ClientFailed
    ensures Emitted(s, e) == if s.upstream == Open then [CloseUpstream] else []
    ensures var n := Step(s, e);
      && n.client != Open && n.upstream != Open
      && UpstreamCloses(n.out) == UpstreamCloses(s.out) + (if s.upstream == Open then [CloseUpstream] else [])
      && Gather(n.out, GuardedClientCall) == Gather(s.out, GuardedClientCall)
  {
    var n := Step(s, e);
    assert Emitted(s, e) == if s.upstream == Open then [CloseUpstream] else [];
    assert n.client != Open && n.upstream != Open;
    assert UpstreamCloses(n.out) == UpstreamCloses(s.out) + (if s.upstream == Open then [CloseUpstream] else []) by {
      StepGather(s, e, UpstreamCloseOf);
      if s.upstream == Open { GatherOne(CloseUpstream, UpstreamCloseOf); }
    }
    assert Gather(n.out, GuardedClientCall) == Gather(s.out, GuardedClientCall) by {
      StepGather(s, e, GuardedClientCall);
      if s.upstream == Open { GatherOne(CloseUpstream, GuardedClientCall); }
    }
  }

  /** No callback reopens the client, and a client that has left open gets no
      further relayed message, error frame or close. */
  lemma {:induction false} ClientLeftStaysLeft(s: State, t: seq<Event>)
    requires s.client != Open
    ensures Run(s, t).client != Open
    ensures Gather(Run(s, t).out, GuardedClientCall) == Gather(s.out, GuardedClientCall)
    ensures ClientCloses(Run(s, t).out) == ClientCloses(s.out)
    decreases |t|
  {
    if t != [] {
      var n := Step(s, t[0]);
      assert Gather(n.out, GuardedClientCall) == Gather(s.out, GuardedClientCall)
          && ClientCloses(n.out) == ClientCloses(s.out) by {
        StepGather(s, t[0], GuardedClientCall);
        StepGather(s, t[0], ClientCloseOf);
        EmittedGuardedCalls(s, t[0]);
        EmittedClientCloses(s, t[0]);
      }
      assert n.client != Open;
      ClientLeftStaysLeft(n, t[1..]);
      assert Run(s, t) == Run(n, t[1..]);
    }
  }

  /** The relay closes the client at most once over any trace, and never once it is
      no longer open. */
  lemma {:induction false} ClientClosedAtMostOnce(s: State, t: seq<Event>)
    ensures |ClientCloses(Run(s, t).out)| <= |ClientCloses(s.out)| + (if s.client == Open then 1 else 0)
    decreases |t|
  {
    if s.client != Open {
      ClientLeftStaysLeft(s, t);
    } else if t != [] {
      var e, n := t[0], Step(s, t[0]);
      var closing := e.UpstreamClosed? || e.UpstreamFailed?;
      assert |ClientCloses(n.out)| == |ClientCloses(s.out)| + (if closing then 1 else 0) by {
        StepGather(s, e, ClientCloseOf);
        EmittedClientCloses(s, e);
      }
      assert closing ==> n.client != Open;
      if n.client == Open {
        ClientClosedAtMostOnce(n, t[1..]);
      } else {
        ClientLeftStaysLeft(n, t[1..]);
      }
      assert Run(s, t) == Run(n, t[1..]);
    }
  }

  /** Once upstream is closing or closed, nothing more is sent to it and it is not
      closed again (the library never fires "open" on it again). */
  lemma {:induction false} UpstreamLeftStaysLeft(s: State, t: seq<Event>)
    requires Possible(s, t)
    requires s.upstream == Closing || s.upstream == Closed
    ensures Run(s, t).upstream == Closing || Run(s, t).upstream == Closed
    ensures UpstreamPayloads(Run(s, t).out) == UpstreamPayloads(s.out)
    ensures UpstreamCloses(Run(s, t).out) == UpstreamCloses(s.out)
    decreases |t|
  {
    if t != [] {
      var n := Step(s, t[0]);
      assert n.upstream == Closing || n.upstream == Closed;
      assert UpstreamPayloads(n.out) == UpstreamPayloads(s.out) by {
        StepGather(s, t[0], SentUpstream);
        EmittedUpstreamPayloads(s, t[0]);
      }
      assert UpstreamCloses(n.out) == UpstreamCloses(s.out) by {
        StepGather(s, t[0], UpstreamCloseOf);
        EmittedUpstreamCloses(s, t[0]);
      }
      UpstreamLeftStaysLeft(n, t[1..]);
      assert Run(s, t) == Run(n, t[1..]);
    }
  }

  /** The relay closes upstream at most once, and never once it is closing or closed. */
  lemma {:induction false} UpstreamClosedAtMostOnce(s: State, t: seq<Event>)
    requires Possible(s, t)
    ensures |UpstreamCloses(Run(s, t).out)|
         <= |UpstreamCloses(s.out)| + (if s.upstream == Connecting || s.upstream == Open then 1 else 0)
    decreases |t|
  {
    if s.upstream == Closing || s.upstream == Closed {
      UpstreamLeftStaysLeft(s, t);
    } else if t != [] {
      var e, n := t[0], Step(s, t[0]);
      var closing := (e.ClientClosed? || e.ClientFailed?) && s.upstream == Open;
      assert |UpstreamCloses(n.out)| == |UpstreamCloses(s.out)| + (if closing then 1 else 0) by {
        StepGather(s, e, UpstreamCloseOf);
        EmittedUpstreamCloses(s, e);
      }
      assert Possible(n, t[1..]);
      if n.upstream == Connecting || n.upstream == Open {
        assert !closing;
        UpstreamClosedAtMostOnce(n, t[1..]);
      } else {
        UpstreamLeftStaysLeft(n, t[1..]);
      }
      assert Run(s, t) == Run(n, t[1..]);
    }
  }

  /** The client's close callback closes upstream only if it is already open: a client
      that leaves while upstream is still connecting leaves upstream to open, receive
      the buffered messages and stay open. */
  lemma EarlyClientCloseLeavesUpstreamOpen(d: Payload)
    ensures var r := Run(Start(Open), [ClientSent(d), ClientClosed, UpstreamOpened]);
      && r.client == Closed && r.upstream == Open
      && r.out == [SendUpstream(d), SendClient(ProxyConnected)]
  {
    assert Flushed([d]) == [SendUpstream(d)] by {
      assert [d][..0] == [];
    }
    assert [ClientSent(d), ClientClosed, UpstreamOpened][1..] == [ClientClosed, UpstreamOpened];
    assert [ClientClosed, UpstreamOpened][1..] == [UpstreamOpened];
  }
}
