/** The telemetry data types of the client (src/model/telemetry.ts): subscription
    commands, subscribers and inbound websocket messages.

    A command and a subscriber are objects in the source: the service writes the
    command's `cmdId` in place and later reads it back, and it keys its registry and
    its reconnect set by subscriber identity. Both are classes here. Every other
    property of a command is only ever read by the service, so it is a `const`. */
module Telemetry {
  import opened Wrappers

  /** `type` of a time-series command, and the fallback type of an untyped command. */
  const TIMESERIES: string := "TIMESERIES"

  /** A command as a value: what the object spread `{ ...cmd }` copies at one moment.
      `cmdId` 0 stands for "not yet assigned" (the source tests it for truthiness);
      `kind` is the `type` property. */
  datatype Envelope = Envelope(
    cmdId: int,
    entityType: string,
    entityId: string,
    keys: Option<string>,
    scope: Option<string>,
    unsubscribe: Option<bool>,
    kind: Option<string>)

  /** `SubscriptionCmd`: the service assigns `cmdId` in place. */
  class Cmd {
    var cmdId: int
    const entityType: string
    const entityId: string
    const keys: Option<string>
    const scope: Option<string>
    const unsubscribe: Option<bool>
    const kind: Option<string>

    constructor (e: Envelope)
      ensures Snapshot() == e
    {
      cmdId := e.cmdId;
      entityType := e.entityType;
      entityId := e.entityId;
      keys := e.keys;
      scope := e.scope;
      unsubscribe := e.unsubscribe;
      kind := e.kind;
    }

    function Snapshot(): Envelope
      reads this
    {
      Envelope(cmdId, entityType, entityId, keys, scope, unsubscribe, kind)
    }
  }

  /** The value of each command of `q`, taken in the current heap. */
  function Snapshots(q: seq<Cmd>): (r: seq<Envelope>)
    reads q
    ensures |r| == |q|
  {
    if q == [] then [] else [q[0].Snapshot()] + Snapshots(q[1..])
  }

  /** Snapshot `k` is the value of command `k`. */
  lemma {:induction false} SnapshotsAt(q: seq<Cmd>)
    ensures forall k | 0 <= k < |q| :: Snapshots(q)[k] == q[k].Snapshot()
  {
    if q != [] {
      SnapshotsAt(q[1..]);
      forall k | 0 <= k < |q| ensures Snapshots(q)[k] == q[k].Snapshot() {
        if k > 0 { assert q[1..][k - 1] == q[k]; }
      }
    }
  }

  /** An element of the outbound queue: a subscriber's command object, shared with
      the subscriber (its `cmdId` can still change while it waits), or an object
      literal that only the queue holds (what `unsubscribe` pushes), which is a
      value. */
  datatype Queued = Live(cmd: Cmd) | Literal(env: Envelope)

  /** The command objects the queue shares. */
  function Shared(q: seq<Queued>): set<Cmd>
  {
    set e | e in q && e.Live? :: e.cmd
  }

  /** What the spread `{ ...cmd }` of a queued element copies now. */
  function Value(e: Queued): Envelope
    reads if e.Live? then {e.cmd} else {}
  {
    if e.Live? then e.cmd.Snapshot() else e.env
  }

  /** The value of each element of the queue, taken in the current heap. */
  function Values(q: seq<Queued>): (r: seq<Envelope>)
    reads Shared(q)
    ensures |r| == |q|
  {
    if q == [] then []
    else
      assert forall e | e in q[1..] :: e in q;
      [Value(q[0])] + Values(q[1..])
  }

  /** The values depend only on the shared command objects. */
  twostate lemma ValuesUnchanged(q: seq<Queued>)
    requires unchanged(Shared(q))
    ensures Values(q) == old(Values(q))
  {
  }

  lemma {:induction false} ValuesAt(q: seq<Queued>)
    ensures forall k | 0 <= k < |q| :: Values(q)[k] == Value(q[k])
  {
    if q != [] {
      ValuesAt(q[1..]);
      forall k | 0 <= k < |q| ensures Values(q)[k] == Value(q[k]) {
        if k > 0 { assert q[1..][k - 1] == q[k]; }
      }
    }
  }

  lemma ValuesConcat(a: seq<Queued>, b: seq<Queued>)
    ensures Values(a + b) == Values(a) + Values(b)
  {
    ValuesAt(a + b);
    ValuesAt(a);
    ValuesAt(b);
    forall k | 0 <= k < |a + b| ensures Values(a + b)[k] == (Values(a) + Values(b))[k] {
      if k < |a| { assert (a + b)[k] == a[k]; } else { assert (a + b)[k] == b[k - |a|]; }
    }
  }

  /** A slice of the values is the values of the slice. */
  lemma ValuesSlice(q: seq<Queued>, n: nat)
    requires n <= |q|
    ensures Values(q)[..n] == Values(q[..n])
    ensures Values(q)[n..] == Values(q[n..])
  {
    ValuesPrefix(q, n);
    ValuesSuffix(q, n);
  }

  lemma ValuesPrefix(q: seq<Queued>, n: nat)
    requires n <= |q|
    ensures Values(q)[..n] == Values(q[..n])
  {
    ValuesAt(q);
    ValuesAt(q[..n]);
    forall k | 0 <= k < n ensures Values(q)[..n][k] == Values(q[..n])[k] {
      assert q[..n][k] == q[k];
    }
  }

  lemma {:induction false} ValuesSuffix(q: seq<Queued>, n: nat)
    requires n <= |q|
    ensures Values(q)[n..] == Values(q[n..])
  {
    if n > 0 {
      ValuesSuffix(q[1..], n - 1);
      assert q[1..][n - 1..] == q[n..];
    }
  }

  /** The queue elements for a subscriber's commands, pushed by reference. */
  function Lives(cs: seq<Cmd>): (r: seq<Queued>)
    ensures |r| == |cs|
  {
    seq(|cs|, k requires 0 <= k < |cs| => Live(cs[k]))
  }

  /** Commands queued by reference have the values of the commands themselves. */
  lemma ValuesLives(cs: seq<Cmd>)
    ensures Values(Lives(cs)) == Snapshots(cs)
  {
    ValuesAt(Lives(cs));
    SnapshotsAt(cs);
  }

  /** The queue elements for envelopes pushed as literals. */
  function Literals(es: seq<Envelope>): (r: seq<Queued>)
    ensures |r| == |es|
  {
    seq(|es|, k requires 0 <= k < |es| => Literal(es[k]))
  }

  lemma LiteralsSnoc(es: seq<Envelope>, e: Envelope)
    ensures Literals(es + [e]) == Literals(es) + [Literal(e)]
  {
    assert forall k | 0 <= k < |es| :: Literals(es + [e])[k] == Literal(es[k]);
  }

  /** Literals have their own values, whatever the heap. */
  lemma ValuesLiterals(es: seq<Envelope>)
    ensures Values(Literals(es)) == es
  {
    ValuesAt(Literals(es));
  }

  /** `TelemetrySubscriber`: its commands, a required `onData` callback (always
      present, so not a field) and an optional `onReconnected` callback. */
  class Subscriber {
    const commands: seq<Cmd>
    const hasOnReconnected: bool

    constructor (commands: seq<Cmd>, hasOnReconnected: bool)
      ensures this.commands == commands && this.hasOnReconnected == hasOnReconnected
    {
      this.commands := commands;
      this.hasOnReconnected := hasOnReconnected;
    }
  }

  /** A call the service makes into subscriber code: `onData(message)` or
      `onReconnected()`. */
  datatype Callback = OnData(sub: Subscriber, msg: Msg) | OnReconnected(sub: Subscriber)

  /** `WebsocketDataMsg` after `JSON.parse`; the payload fields are opaque JSON text. */
  datatype Msg = Msg(
    subscriptionId: Option<int>,
    cmdId: Option<int>,
    errorCode: Option<int>,
    errorMsg: Option<string>,
    data: Option<string>,
    latestValues: Option<string>)

}
