/** The pure parts of src/service/TelemetryWebsocketService.ts: the socket URL derived
    from the REST endpoint, the frames written to the socket, the per-command type
    fallback applied when the queue is flushed, the unsubscribe envelopes, and the
    routing of an inbound message to a registered subscriber. */
module WebsocketProtocol {
  import opened Wrappers
  import opened Seqs
  import opened Telemetry

  /** Commands per `{cmds: [...]}` frame (`cmdQueue.splice(0, 10)`). */
  const BATCH_SIZE: nat := 10
  /** The `cmdId` of the authentication command. */
  const AUTH_CMD_ID: int := 0

  // ---------------------------------------------------------------- socket URL

  predicate StartsWith(s: string, p: string)
  {
    |p| <= |s| && s[..|p|] == p
  }

  predicate EndsWith(s: string, p: string)
  {
    |p| <= |s| && s[|s| - |p|..] == p
  }

  /** `apiEndpoint.replace(/^https?:\/\//, '')`. */
  function StripHttpScheme(endpoint: string): (r: string)
    ensures EndsWith(endpoint, r)
    ensures r == endpoint <==> !StartsWith(endpoint, "http://") && !StartsWith(endpoint, "https://")
    ensures StartsWith(endpoint, "https://") ==> endpoint == "https://" + r
    ensures StartsWith(endpoint, "http://") ==> endpoint == "http://" + r
  {
    if StartsWith(endpoint, "https://") then
      assert endpoint[..7][4] == 's';
      endpoint[8..]
    else if StartsWith(endpoint, "http://") then endpoint[7..]
    else endpoint
  }

  /** The socket URL built by the service's constructor. */
  function TelemetryUri(apiEndpoint: string): string
  {
    var protocol := if StartsWith(apiEndpoint, "https") then "wss" else "ws";
    protocol + "://" + StripHttpScheme(apiEndpoint) + "/api/ws"
  }

  /** The URL uses the secure scheme exactly when the endpoint starts with `https`,
      always ends in `/api/ws`, and carries the endpoint with any `http(s)://` prefix
      removed between the two. */
  lemma TelemetryUriShape(apiEndpoint: string)
    ensures var uri := TelemetryUri(apiEndpoint);
      && (StartsWith(uri, "wss://") <==> StartsWith(apiEndpoint, "https"))
      && (!StartsWith(apiEndpoint, "https") ==> StartsWith(uri, "ws://"))
      && EndsWith(uri, "/api/ws")
      && var n := if StartsWith(apiEndpoint, "https") then 6 else 5;
         n <= |uri| - 7 && uri[n..|uri| - 7] == StripHttpScheme(apiEndpoint)
  {
    UriLayout(if StartsWith(apiEndpoint, "https") then "wss" else "ws", StripHttpScheme(apiEndpoint));
  }

  /** Where the scheme, the host and the path sit in a socket URL. */
  lemma UriLayout(scheme: string, host: string)
    requires scheme == "ws" || scheme == "wss"
    ensures var uri := scheme + "://" + host + "/api/ws";
      && (StartsWith(uri, "wss://") <==> scheme == "wss")
      && (scheme == "ws" ==> StartsWith(uri, "ws://"))
      && EndsWith(uri, "/api/ws")
      && |scheme| + 3 <= |uri| - 7 && uri[|scheme| + 3..|uri| - 7] == host
  {
    var uri := scheme + "://" + host + "/api/ws";
    var n := |scheme| + 3;
    assert uri[..n] == scheme + "://";
    assert uri[n..|uri| - 7] == host;
    assert uri[|uri| - 7..] == "/api/ws";
    if scheme == "ws" {
      assert uri[2] == ':';
    }
  }

  /** An `http(s)://host` endpoint gives `ws(s)://host/api/ws`; an endpoint without
      either prefix is kept whole behind the `ws` scheme. */
  lemma TelemetryUriOfHost(host: string)
    ensures TelemetryUri("https://" + host) == "wss://" + host + "/api/ws"
    ensures TelemetryUri("http://" + host) == "ws://" + host + "/api/ws"
  {
    SecureEndpoint(host);
    PlainEndpoint(host);
  }

  lemma SecureEndpoint(host: string)
    ensures StartsWith("https://" + host, "https") && StripHttpScheme("https://" + host) == host
  {
    var s := "https://" + host;
    assert s[..5] == "https" && s[..8] == "https://" && s[8..] == host;
  }

  lemma PlainEndpoint(host: string)
    ensures !StartsWith("http://" + host, "https") && StripHttpScheme("http://" + host) == host
  {
    var p := "http://" + host;
    assert p[4] == ':';
    assert p[..7] == "http://" && p[7..] == host;
  }

  // ---------------------------------------------------------------- frames

  /** What the socket is sent: `{authCmd: {cmdId, token}}` or `{cmds: [...]}`. */
  datatype Frame = AuthFrame(cmdId: int, token: string) | Cmds(cmds: seq<Envelope>)

  /** The copy of one queued command that `publishCommands` sends: a missing `type`
      becomes `TIMESERIES` when the command has both `keys` and `scope`, or is an
      unsubscribe; every other property is copied as it is. */
  function Normalize(e: Envelope): (r: Envelope)
    ensures r.(kind := e.kind) == e
    ensures Truthy(e.kind) ==> r.kind == e.kind
    ensures r.kind != e.kind <==>
      !Truthy(e.kind) && ((Truthy(e.keys) && Truthy(e.scope)) || IsTrue(e.unsubscribe))
    ensures r.kind != e.kind ==> r.kind == Some(TIMESERIES)
  {
    if !Truthy(e.kind) && ((Truthy(e.keys) && Truthy(e.scope)) || IsTrue(e.unsubscribe))
    then e.(kind := Some(TIMESERIES))
    else e
  }

  function NormalizeAll(es: seq<Envelope>): (r: seq<Envelope>)
    ensures |r| == |es|
  {
    if es == [] then [] else [Normalize(es[0])] + NormalizeAll(es[1..])
  }

  /** Each command is normalized on its own. */
  lemma {:induction false} NormalizeAllAt(es: seq<Envelope>)
    ensures forall k | 0 <= k < |es| :: NormalizeAll(es)[k] == Normalize(es[k])
  {
    if es != [] {
      NormalizeAllAt(es[1..]);
      forall k | 0 <= k < |es| ensures NormalizeAll(es)[k] == Normalize(es[k]) {
        if k > 0 { assert es[1..][k - 1] == es[k]; }
      }
    }
  }

  /** The frames one `publishCommands` drain writes for a queue whose commands
      currently have the values `es`: ten commands at a time, in order. */
  function PublishFrames(es: seq<Envelope>): seq<Frame>
    decreases |es|
  {
    if es == [] then []
    else
      var n := if |es| < BATCH_SIZE then |es| else BATCH_SIZE;
      [Cmds(NormalizeAll(es[..n]))] + PublishFrames(es[n..])
  }

  /** One turn of the drain loop: the first batch of the queue's frames holds its
      first `n` commands, and the rest are the frames of what remains. */
  lemma PublishStep(q: seq<Queued>, n: nat)
    requires q != [] && n == if |q| < BATCH_SIZE then |q| else BATCH_SIZE
    ensures PublishFrames(Values(q)) == [Cmds(NormalizeAll(Values(q[..n])))] + PublishFrames(Values(q[n..]))
  {
    ValuesSlice(q, n);
  }

  /** The commands carried by a run of frames, in the order they were written. */
  function FrameCmds(fs: seq<Frame>): seq<Envelope>
  {
    if fs == [] then []
    else (if fs[0].Cmds? then fs[0].cmds else []) + FrameCmds(fs[1..])
  }

  lemma {:induction false} FrameCmdsConcat(a: seq<Frame>, b: seq<Frame>)
    ensures FrameCmds(a + b) == FrameCmds(a) + FrameCmds(b)
  {
    if a == [] {
      assert a + b == b;
    } else {
      assert (a + b)[0] == a[0];
      assert (a + b)[1..] == a[1..] + b;
      FrameCmdsConcat(a[1..], b);
    }
  }

  /** Every frame is a command frame holding between one and ten commands. */
  ghost predicate Batched(fs: seq<Frame>)
  {
    forall i | 0 <= i < |fs| :: fs[i].Cmds? && 1 <= |fs[i].cmds| <= BATCH_SIZE
  }

  /** Draining the queue is lossless and FIFO: the concatenated batches are the queued
      commands, each normalized, in queue order; every batch holds one to ten commands,
      only the last may hold fewer than ten, and there are ceil(n / 10) of them. */
  lemma PublishFramesDrain(es: seq<Envelope>)
    ensures FrameCmds(PublishFrames(es)) == NormalizeAll(es)
    ensures Batched(PublishFrames(es))
    ensures forall i | 0 <= i < |PublishFrames(es)| - 1 :: |PublishFrames(es)[i].cmds| == BATCH_SIZE
    ensures |PublishFrames(es)| == (|es| + BATCH_SIZE - 1) / BATCH_SIZE
  {
    PublishFramesContent(es);
    PublishFramesShape(es);
  }

  lemma {:induction false} PublishFramesContent(es: seq<Envelope>)
    ensures FrameCmds(PublishFrames(es)) == NormalizeAll(es)
    decreases |es|
  {
    if es != [] {
      var n := if |es| < BATCH_SIZE then |es| else BATCH_SIZE;
      PublishFramesContent(es[n..]);
      NormalizeAllConcat(es, n);
      assert PublishFrames(es)[1..] == PublishFrames(es[n..]);
    }
  }

  lemma {:induction false} NormalizeAllConcat(es: seq<Envelope>, n: nat)
    requires n <= |es|
    ensures NormalizeAll(es) == NormalizeAll(es[..n]) + NormalizeAll(es[n..])
  {
    if n == 0 {
      assert es[..n] == [] && es[n..] == es;
    } else {
      NormalizeAllConcat(es[1..], n - 1);
      assert es[..n][1..] == es[1..][..n - 1];
      assert es[1..][n - 1..] == es[n..];
    }
  }

  lemma {:induction false} PublishFramesShape(es: seq<Envelope>)
    ensures Batched(PublishFrames(es))
    ensures forall i | 0 <= i < |PublishFrames(es)| - 1 :: |PublishFrames(es)[i].cmds| == BATCH_SIZE
    ensures |PublishFrames(es)| == (|es| + BATCH_SIZE - 1) / BATCH_SIZE
    decreases |es|
  {
    if es != [] {
      var n := if |es| < BATCH_SIZE then |es| else BATCH_SIZE;
      PublishFramesShape(es[n..]);
      var fs := PublishFrames(es);
      assert fs == [Cmds(NormalizeAll(es[..n]))] + PublishFrames(es[n..]);
      assert fs[1..] == PublishFrames(es[n..]);
      if n < BATCH_SIZE {
        assert es[n..] == [];
      }
    }
  }

  /** Appending well-formed batches to well-formed batches: the commands add up. */
  lemma AppendBatches(a: seq<Frame>, b: seq<Frame>)
    requires Batched(a) && Batched(b)
    ensures Batched(a + b)
    ensures |FrameCmds(a + b)| == |FrameCmds(a)| + |FrameCmds(b)|
  {
    BatchedConcat(a, b);
    FrameCmdsConcat(a, b);
  }

  lemma BatchedConcat(a: seq<Frame>, b: seq<Frame>)
    requires Batched(a) && Batched(b)
    ensures Batched(a + b)
  {
    forall i | 0 <= i < |a + b| ensures (a + b)[i].Cmds? && 1 <= |(a + b)[i].cmds| <= BATCH_SIZE {
      if i >= |a| { assert (a + b)[i] == b[i - |a|]; }
    }
  }

  // ---------------------------------------------------------------- unsubscribe

  /** The envelope `unsubscribe` builds for a command: its id and target, the
      `unsubscribe` flag, and no type, keys or scope. */
  function UnsubscribeEnvelope(e: Envelope): Envelope
  {
    Envelope(e.cmdId, e.entityType, e.entityId, None, None, Some(true), None)
  }

  /** The envelopes queued by `unsubscribe` for commands with values `cs`: one per
      command whose `cmdId` is set, in command order. */
  function UnsubscribeEnvelopes(cs: seq<Envelope>): (r: seq<Envelope>)
    ensures |r| <= |cs|
  {
    if cs == [] then []
    else
      var init := cs[..|cs| - 1];
      var last := cs[|cs| - 1];
      UnsubscribeEnvelopes(init) + (if last.cmdId != 0 then [UnsubscribeEnvelope(last)] else [])
  }

  /** Every envelope queued is an unsubscribe for a set id, with no type, keys or
      scope, and every command with a set id gets its envelope. */
  lemma {:induction false} UnsubscribeEnvelopesShape(cs: seq<Envelope>)
    ensures forall e | e in UnsubscribeEnvelopes(cs) ::
      e.cmdId != 0 && e.unsubscribe == Some(true) && e.keys == None && e.scope == None && e.kind == None
    ensures forall c | c in cs && c.cmdId != 0 :: UnsubscribeEnvelope(c) in UnsubscribeEnvelopes(cs)
  {
    if cs != [] {
      var init := cs[..|cs| - 1];
      var last := cs[|cs| - 1];
      UnsubscribeEnvelopesShape(init);
      assert forall c | c in cs :: c in init || c == last;
    }
  }

  /** Extending the commands by one extends the envelopes by at most one. */
  lemma UnsubscribeEnvelopesSnoc(cs: seq<Envelope>, e: Envelope)
    ensures UnsubscribeEnvelopes(cs + [e]) ==
      UnsubscribeEnvelopes(cs) + (if e.cmdId != 0 then [UnsubscribeEnvelope(e)] else [])
  {
    assert (cs + [e])[..|cs|] == cs;
  }

  /** When every command has an id, the envelopes correspond one to one, in order. */
  lemma {:induction false} UnsubscribeEnvelopesOneEach(cs: seq<Envelope>)
    requires forall c | c in cs :: c.cmdId != 0
    ensures |UnsubscribeEnvelopes(cs)| == |cs|
    ensures forall k | 0 <= k < |cs| :: UnsubscribeEnvelopes(cs)[k] == UnsubscribeEnvelope(cs[k])
  {
    if cs != [] {
      var init := cs[..|cs| - 1];
      var last := cs[|cs| - 1];
      assert forall c | c in init :: c in cs;
      UnsubscribeEnvelopesOneEach(init);
      assert last in cs;
      assert UnsubscribeEnvelopes(cs) == UnsubscribeEnvelopes(init) + [UnsubscribeEnvelope(last)];
      forall k | 0 <= k < |cs| ensures UnsubscribeEnvelopes(cs)[k] == UnsubscribeEnvelope(cs[k]) {
        if k < |init| { assert cs[k] == init[k]; }
      }
    }
  }

  /** Commands without an id produce no envelope at all. */
  lemma {:induction false} UnsubscribeEnvelopesNone(cs: seq<Envelope>)
    requires forall c | c in cs :: c.cmdId == 0
    ensures UnsubscribeEnvelopes(cs) == []
  {
    if cs != [] {
      var init := cs[..|cs| - 1];
      assert forall c | c in init :: c in cs;
      UnsubscribeEnvelopesNone(init);
      assert cs[|cs| - 1] in cs;
    }
  }

  /** Unsubscribe envelopes carry no type, so the flush fallback sends each of them
      typed `TIMESERIES`, whatever the type of the command it cancels. */
  lemma UnsubscribeSentAsTimeseries(cs: seq<Envelope>)
    ensures forall e | e in NormalizeAll(UnsubscribeEnvelopes(cs)) :: e.kind == Some(TIMESERIES) && e.unsubscribe == Some(true)
  {
    var us := UnsubscribeEnvelopes(cs);
    UnsubscribeEnvelopesShape(cs);
    NormalizeAllAt(us);
    forall e | e in NormalizeAll(us) ensures e.kind == Some(TIMESERIES) && e.unsubscribe == Some(true) {
      var k :| 0 <= k < |us| && NormalizeAll(us)[k] == e;
      assert us[k] in us;
    }
  }

  /** The ids that `unsubscribe` deletes from the registry. */
  function RetiredIds(cs: seq<Envelope>): (ids: set<int>)
    ensures forall c | c in cs && c.cmdId != 0 :: c.cmdId in ids
    ensures 0 !in ids
  {
    set c | c in cs && c.cmdId != 0 :: c.cmdId
  }

  /** Retiring the ids of one more command adds its id when that id is set. */
  lemma RetiredIdsSnoc(cs: seq<Envelope>, e: Envelope)
    ensures RetiredIds(cs + [e]) == RetiredIds(cs) + (if e.cmdId != 0 then {e.cmdId} else {})
  {
    assert forall c | c in cs + [e] :: c in cs || c == e;
  }

  // ---------------------------------------------------------------- routing

  /** The id `onMessage` looks up: `subscriptionId` when it is set and nonzero,
      otherwise `cmdId` when that is set and nonzero, otherwise none. */
  function CorrelationId(m: Msg): (id: Option<int>)
    ensures id.Some? <==> NonZero(m.subscriptionId) || NonZero(m.cmdId)
    ensures id.Some? ==> id.value != 0
    ensures NonZero(m.subscriptionId) ==> id == m.subscriptionId
    ensures !NonZero(m.subscriptionId) && NonZero(m.cmdId) ==> id == m.cmdId
  {
    if NonZero(m.subscriptionId) then m.subscriptionId
    else if NonZero(m.cmdId) then m.cmdId
    else None
  }

  /** The subscriber whose `onData` receives an inbound message; `None` for a
      message that did not parse, carries no id, or whose id is not registered. */
  function Route(subs: map<int, Subscriber>, msg: Option<Msg>): (r: Option<Subscriber>)
    ensures r.Some? <==> msg.Some? && CorrelationId(msg.value).Some? && CorrelationId(msg.value).value in subs
    ensures r.Some? ==> r.value == subs[CorrelationId(msg.value).value]
  {
    if msg.None? then None
    else
      var id := CorrelationId(msg.value);
      if id.Some? && id.value in subs then Some(subs[id.value]) else None
  }

  /** A registered `subscriptionId` wins: the `cmdId` of the same message is then
      never consulted, even when the two name different subscribers. */
  lemma RouteSubscriptionIdFirst(subs: map<int, Subscriber>, m: Msg)
    requires NonZero(m.subscriptionId)
    ensures Route(subs, Some(m)) == (if m.subscriptionId.value in subs then Some(subs[m.subscriptionId.value]) else None)
  {
  }

  /** After the registry drops a set of ids (unsubscribe, or the reconnect that empties
      it), a late message correlated with one of them is dropped; messages for the
      remaining ids are routed exactly as before. */
  lemma RouteAfterRetire(subs: map<int, Subscriber>, retired: set<int>, msg: Option<Msg>)
    ensures msg.Some? && CorrelationId(msg.value).Some? && CorrelationId(msg.value).value in retired
      ==> Route(subs - retired, msg) == None
    ensures msg.Some? && CorrelationId(msg.value).Some? && CorrelationId(msg.value).value !in retired
      ==> Route(subs - retired, msg) == Route(subs, msg)
  {
  }

  // ---------------------------------------------------------------- id allocation

  /** `n` ids handed out after `base`, in order. */
  function IdSeq(base: int, n: nat): (ids: seq<int>)
    ensures |ids| == n
  {
    if n == 0 then [] else IdSeq(base, n - 1) + [base + n]
  }

  /** Id `k` of the batch is `base + k + 1`. */
  lemma {:induction false} IdSeqAt(base: int, n: nat)
    ensures forall k | 0 <= k < n :: IdSeq(base, n)[k] == base + k + 1
  {
    if n > 0 {
      IdSeqAt(base, n - 1);
    }
  }

  /** The registry entries `subscribe` adds: ids `base + 1 .. base + n`, all to `sub`. */
  function IdRange(base: int, n: nat, sub: Subscriber): map<int, Subscriber>
  {
    if n == 0 then map[] else IdRange(base, n - 1, sub)[base + n := sub]
  }

  /** The entries are exactly the ids `base + 1 .. base + n`, each mapped to `sub`. */
  lemma {:induction false} IdRangeKeys(base: int, n: nat, sub: Subscriber)
    ensures forall id | id in IdRange(base, n, sub) :: base < id <= base + n && IdRange(base, n, sub)[id] == sub
    ensures forall id | base < id <= base + n :: id in IdRange(base, n, sub)
  {
    if n > 0 {
      IdRangeKeys(base, n - 1, sub);
    }
  }

  /** Adding the entries of one `subscribe` call to a registry whose ids are at most
      `base` overwrites nothing: every earlier id keeps its subscriber, and every new
      id goes to `sub`. */
  lemma SubscribeKeepsRegistry(m: map<int, Subscriber>, base: int, n: nat, sub: Subscriber)
    requires forall id | id in m :: id <= base
    ensures m.Keys !! IdRange(base, n, sub).Keys
    ensures forall id | id in m :: id in m + IdRange(base, n, sub) && (m + IdRange(base, n, sub))[id] == m[id]
    ensures forall id | base < id <= base + n :: id in m + IdRange(base, n, sub) && (m + IdRange(base, n, sub))[id] == sub
  {
    IdRangeKeys(base, n, sub);
  }

  /** `m` after the ids `base + 1 .. base + n` are set to `sub`, one at a time. */
  function Registered(m: map<int, Subscriber>, base: int, n: nat, sub: Subscriber): map<int, Subscriber>
  {
    if n == 0 then m else Registered(m, base, n - 1, sub)[base + n := sub]
  }

  /** Setting the ids one at a time is adding the whole range at once. */
  lemma {:induction false} RegisteredIsUnion(m: map<int, Subscriber>, base: int, n: nat, sub: Subscriber)
    ensures Registered(m, base, n, sub) == m + IdRange(base, n, sub)
  {
    if n > 0 {
      RegisteredIsUnion(m, base, n - 1, sub);
    }
  }

  /** The number of commands of a sequence of subscribers. */
  function TotalCommands(subs: seq<Subscriber>): nat
  {
    if subs == [] then 0
    else TotalCommands(subs[..|subs| - 1]) + |subs[|subs| - 1].commands|
  }

  /** The registry entries that `subscribe`-ing each of `subs` in turn adds, starting
      after id `base`. */
  function Allocation(subs: seq<Subscriber>, base: int): map<int, Subscriber>
  {
    if subs == [] then map[]
    else
      var init := subs[..|subs| - 1];
      var t := TotalCommands(init);
      var r := IdRange(base + t, |subs[|subs| - 1].commands|, subs[|subs| - 1]);
      Allocation(init, base) + r
  }

  /** Resubscribing `subs` hands out exactly the ids `base + 1 .. base + T`, where `T`
      is the number of their commands. */
  lemma {:induction false} AllocationKeys(subs: seq<Subscriber>, base: int)
    ensures forall id | id in Allocation(subs, base) :: base < id <= base + TotalCommands(subs)
    ensures forall id | base < id <= base + TotalCommands(subs) :: id in Allocation(subs, base)
  {
    if subs != [] {
      var init := subs[..|subs| - 1];
      AllocationKeys(init, base);
      IdRangeKeys(base + TotalCommands(init), |subs[|subs| - 1].commands|, subs[|subs| - 1]);
    }
  }

  /** The registry `m` after `subscribe`-ing each of `subs` in turn, starting after
      id `base`: one id range added per subscriber. */
  function Reallocated(m: map<int, Subscriber>, subs: seq<Subscriber>, base: int): map<int, Subscriber>
  {
    if subs == [] then m
    else
      var init := subs[..|subs| - 1];
      Reallocated(m, init, base) + IdRange(base + TotalCommands(init), |subs[|subs| - 1].commands|, subs[|subs| - 1])
  }

  lemma {:induction false} ReallocatedIsUnion(m: map<int, Subscriber>, subs: seq<Subscriber>, base: int)
    ensures Reallocated(m, subs, base) == m + Allocation(subs, base)
  {
    if subs != [] {
      var init := subs[..|subs| - 1];
      ReallocatedIsUnion(m, init, base);
      var r := IdRange(base + TotalCommands(init), |subs[|subs| - 1].commands|, subs[|subs| - 1]);
      MapUnionAssoc(m, Allocation(init, base), r);
    }
  }

  /** One more subscriber resubscribed: its id range, its commands and its
      `onReconnected` call follow those of the ones before it. */
  lemma ResubscribeStep(m: map<int, Subscriber>, cb: seq<Callback>, subs: seq<Subscriber>, i: nat, base: int,
                        last: int, sub: Subscriber)
    requires i < |subs| && sub == subs[i] && last == base + TotalCommands(subs[..i])
    ensures TotalCommands(subs[..i + 1]) == TotalCommands(subs[..i]) + |sub.commands|
    ensures Reallocated(m, subs[..i + 1], base) == Reallocated(m, subs[..i], base) + IdRange(last, |sub.commands|, sub)
    ensures cb + ReconnectCallbacks(subs[..i + 1])
      == cb + ReconnectCallbacks(subs[..i]) + (if sub.hasOnReconnected then [OnReconnected(sub)] else [])
  {
    assert subs[..i + 1][..i] == subs[..i];
  }

  /** Every id of a resubscription goes to one of the resubscribed subscribers. */
  lemma {:induction false} AllocationOwners(subs: seq<Subscriber>, base: int)
    ensures forall id | id in Allocation(subs, base) :: Allocation(subs, base)[id] in subs
  {
    if subs != [] {
      var init := subs[..|subs| - 1];
      AllocationOwners(init, base);
      IdRangeKeys(base + TotalCommands(init), |subs[|subs| - 1].commands|, subs[|subs| - 1]);
      assert forall s | s in init :: s in subs;
    }
  }

  /** The `onReconnected` calls made while resubscribing `subs`, in order: one for
      each subscriber that defines the callback. */
  function ReconnectCallbacks(subs: seq<Subscriber>): (r: seq<Callback>)
    ensures |r| <= |subs|
    ensures forall c | c in r :: c.OnReconnected? && c.sub in subs && c.sub.hasOnReconnected
    ensures forall s | s in subs && s.hasOnReconnected :: OnReconnected(s) in r
  {
    if subs == [] then []
    else
      var init := subs[..|subs| - 1];
      var last := subs[|subs| - 1];
      assert forall s | s in subs :: s in init || s == last;
      ReconnectCallbacks(init) + (if last.hasOnReconnected then [OnReconnected(last)] else [])
  }

  /** The objects of every command of `subs`. */
  function CommandsOf(subs: seq<Subscriber>): set<Cmd>
  {
    set s, c | s in subs && c in s.commands :: c
  }

  lemma CommandsOfMember(subs: seq<Subscriber>, i: nat)
    requires i < |subs|
    ensures forall c | c in subs[i].commands :: c in CommandsOf(subs)
  {
    assert subs[i] in subs;
  }

  /** The registry's subscribers in key insertion order (what `Map.forEach` visits). */
  function OrderedValues(m: map<int, Subscriber>, order: seq<int>): (r: seq<Subscriber>)
    requires forall k | 0 <= k < |order| :: order[k] in m
    ensures |r| == |order|
    ensures forall k | 0 <= k < |order| :: r[k] == m[order[k]]
  {
    seq(|order|, k requires 0 <= k < |order| => m[order[k]])
  }

  /** The reconnect set that `onClose` builds holds each registered subscriber exactly
      once, however many ids it has. */
  lemma ReconnectSetCoversRegistry(m: map<int, Subscriber>, order: seq<int>)
    requires forall k | 0 <= k < |order| :: order[k] in m
    requires forall id | id in m :: id in order
    ensures Distinct(Dedup(OrderedValues(m, order)))
    ensures forall s | s in Dedup(OrderedValues(m, order)) :: s in m.Values
    ensures forall id | id in m :: m[id] in Dedup(OrderedValues(m, order))
  {
    var vs := OrderedValues(m, order);
    forall id | id in m ensures m[id] in vs {
      var k :| 0 <= k < |order| && order[k] == id;
      assert vs[k] == m[id];
    }
    forall s | s in vs ensures s in m.Values {
      var k :| 0 <= k < |vs| && vs[k] == s;
      assert order[k] in m;
    }
  }

  /** Messages that carry only the authentication id 0 are never routed. */
  lemma AuthIdNeverRouted(subs: map<int, Subscriber>, m: Msg)
    requires m.subscriptionId == Some(AUTH_CMD_ID) || m.subscriptionId == None
    requires m.cmdId == Some(AUTH_CMD_ID) || m.cmdId == None
    ensures Route(subs, Some(m)) == None
  {
  }

}
