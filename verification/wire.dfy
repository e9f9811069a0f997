/**
 * What travels over the two WebSocket connections of one relay session:
 * opaque message bodies, the JSON control frames the relay writes to the
 * client, the send/close calls it makes on either socket, and projections
 * of a log of such calls.
 */
module Wire {

  datatype Option<+T> = None | Some(value: T)

  /** A WebSocket message body. The relay never looks inside it. */
  type Payload = seq<bv8>

  /** Close code 1008, used when the request lacks an agent id. */
  const PolicyViolation: int := 1008
  /** Close code 1011, used for every other failure the relay reports. */
  const InternalError: int := 1011

  /** The `readyState` of a socket, as the socket library reports it. */
  datatype SocketState = Connecting | Open | Closing | Closed

  /** A frame the relay sends to the client. */
  datatype ClientFrame =
    | Relayed(data: Payload)          // a message from upstream, unchanged
    | ErrorNotice(message: string)    // {"type":"error","message":...}
    | ProxyConnected                  // {"type":"proxy_connected"}

  /** One call the relay makes on one of its two sockets. */
  datatype Output =
    | SendUpstream(data: Payload)
    | CloseUpstream                   // close() without a code
    | SendClient(frame: ClientFrame)
    | CloseClient(code: int, reason: string)

  /** The outputs of `log`, each mapped through `pick`, concatenated in log order. */
  function Gather<T>(log: seq<Output>, pick: Output -> seq<T>): seq<T>
    decreases |log|
  {
    if log == [] then [] else Gather(log[..|log| - 1], pick) + pick(log[|log| - 1])
  }

  lemma {:induction false} GatherAppend<T>(a: seq<Output>, b: seq<Output>, pick: Output -> seq<T>)
    ensures Gather(a + b, pick) == Gather(a, pick) + Gather(b, pick)
    decreases |b|
  {
    if b != [] {
      var last := |b| - 1;
      assert (a + b)[..|a + b| - 1] == a + b[..last];
      GatherAppend(a, b[..last], pick);
    } else {
      assert a + b == a;
    }
  }

  lemma GatherOne<T>(o: Output, pick: Output -> seq<T>)
    ensures Gather([o], pick) == pick(o)
  {
    assert [o][..0] == [];
  }

  lemma GatherTwo<T>(o0: Output, o1: Output, pick: Output -> seq<T>)
    ensures Gather([o0, o1], pick) == pick(o0) + pick(o1)
  {
    assert [o0, o1] == [o0] + [o1];
    GatherAppend([o0], [o1], pick);
    GatherOne(o0, pick);
    GatherOne(o1, pick);
  }

  function SentUpstream(o: Output): seq<Payload> {
    if o.SendUpstream? then [o.data] else []
  }

  function RelayedToClient(o: Output): seq<Payload> {
    if o.SendClient? && o.frame.Relayed? then [o.frame.data] else []
  }

  function ClientCloseOf(o: Output): seq<Output> {
    if o.CloseClient? then [o] else []
  }

  function UpstreamCloseOf(o: Output): seq<Output> {
    if o.CloseUpstream? then [o] else []
  }

  /** Every call on the client except the `proxy_connected` notice, which is sent unguarded. */
  function GuardedClientCall(o: Output): seq<Output> {
    if o.CloseClient? || (o.SendClient? && !o.frame.ProxyConnected?) then [o] else []
  }

  /** The message bodies sent upstream, in order. */
  function UpstreamPayloads(log: seq<Output>): seq<Payload> {
    Gather(log, SentUpstream)
  }

  /** The upstream message bodies relayed to the client, in order. */
  function ClientPayloads(log: seq<Output>): seq<Payload> {
    Gather(log, RelayedToClient)
  }

  function ClientCloses(log: seq<Output>): seq<Output> {
    Gather(log, ClientCloseOf)
  }

  function UpstreamCloses(log: seq<Output>): seq<Output> {
    Gather(log, UpstreamCloseOf)
  }

  /** The sends that drain the pre-open buffer `b`, oldest first. */
  function Flushed(b: seq<Payload>): (r: seq<Output>)
    ensures |r| == |b|
    decreases |b|
  {
    if b == [] then [] else Flushed(b[..|b| - 1]) + [SendUpstream(b[|b| - 1])]
  }

  lemma FlushedSnoc(b: seq<Payload>, p: Payload)
    ensures Flushed(b + [p]) == Flushed(b) + [SendUpstream(p)]
  {
    assert (b + [p])[..|b|] == b;
  }

  /** Draining sends exactly the buffered bodies, in buffer order, and nothing to anyone else. */
  lemma {:induction false} FlushedSendsBuffer(b: seq<Payload>)
    ensures |Flushed(b)| == |b|
    ensures UpstreamPayloads(Flushed(b)) == b
    decreases |b|
  {
    if b != [] {
      var init := b[..|b| - 1];
      FlushedSendsBuffer(init);
      GatherAppend(Flushed(init), [SendUpstream(b[|b| - 1])], SentUpstream);
      assert Gather([SendUpstream(b[|b| - 1])], SentUpstream) == [b[|b| - 1]] by {
        assert [SendUpstream(b[|b| - 1])][..0] == [];
      }
      assert init + [b[|b| - 1]] == b;
    }
  }

  /** A projection that ignores upstream sends sees nothing in a drain. */
  lemma {:induction false} FlushedQuiet<T>(b: seq<Payload>, pick: Output -> seq<T>)
    requires forall p :: pick(SendUpstream(p)) == []
    ensures Gather(Flushed(b), pick) == []
    decreases |b|
  {
    if b != [] {
      var init := b[..|b| - 1];
      FlushedQuiet(init, pick);
      GatherAppend(Flushed(init), [SendUpstream(b[|b| - 1])], pick);
      assert [SendUpstream(b[|b| - 1])][..0] == [];
    }
  }

  /** `x` can be obtained from `y` by deleting elements, without reordering. */
  predicate IsSubsequence<T(==)>(x: seq<T>, y: seq<T>)
    decreases |y|
  {
    x == [] ||
    (y != [] && ((x[0] == y[0] && IsSubsequence(x[1..], y[1..])) || IsSubsequence(x, y[1..])))
  }

  lemma SubsequenceKeep<T>(p: T, x: seq<T>, y: seq<T>)
    requires IsSubsequence(x, y)
    ensures IsSubsequence([p] + x, [p] + y)
  {
    assert ([p] + x)[1..] == x && ([p] + y)[1..] == y;
  }

  lemma PrefixSplit<T>(a: seq<T>, x: seq<T>, y: seq<T>)
    requires |x + y| <= |a| && a[..|x + y|] == x + y
    ensures |x| <= |a| && a[..|x|] == x && a[|x|..] == y + a[|x + y|..]
  {
    assert a[..|x|] == (x + y)[..|x|];
    assert a[|x|..] == a[|x|..|x + y|] + a[|x + y|..];
  }

  /** Extending both sides by one step's worth: the element is either kept or skipped. */
  lemma SubsequenceExtend<T>(got: seq<T>, rest: seq<T>, sent: seq<T>, later: seq<T>)
    requires IsSubsequence(rest, later)
    requires got == [] || got == sent
    requires |sent| <= 1
    ensures IsSubsequence(got + rest, sent + later)
  {
    if sent == [] {
      assert got + rest == rest && sent + later == later;
    } else if got == [] {
      SubsequenceSkip(sent[0], rest, later);
      assert sent == [sent[0]] && got + rest == rest;
    } else {
      SubsequenceKeep(sent[0], rest, later);
      assert got == sent == [sent[0]];
    }
  }

  lemma SubsequenceSkip<T>(p: T, x: seq<T>, y: seq<T>)
    requires IsSubsequence(x, y)
    ensures IsSubsequence(x, [p] + y)
  {
    assert ([p] + y)[1..] == y;
  }
}
