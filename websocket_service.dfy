/** `TelemetryWebsocketService` (src/service/TelemetryWebsocketService.ts): one
    websocket multiplexing the subscriptions of many subscribers, with an id counter,
    a registry from id to subscriber, a FIFO outbound queue, and a reconnect state
    machine.

    The transport is modelled by its effects: what is written to the socket is the
    log `sent`, what the service asks of the browser and of the REST client is the
    log `requests`, and what it calls in subscriber code is the log `callbacks`.
    Every transport event (the socket opened, a message, an error, the socket closed,
    the reconnect timer fired, the token refresh settled) is a method of its own, so
    any interleaving of events is a sequence of method calls. */
module TelemetryWebsocket {
  import opened Wrappers
  import opened Seqs
  import opened Telemetry
  import opened WebsocketProtocol

  /** Delay of the reconnect timer, in milliseconds. */
  const RECONNECT_INTERVAL: nat := 2000

  /** What the service reads of `ThingsboardClient`: the stored token
      (`getToken()`) and whether it has expired (`isTokenExpired(token)`). */
  class AuthClient {
    var token: Option<string>
    var tokenExpired: bool

    constructor (token: Option<string>, tokenExpired: bool)
      ensures this.token == token && this.tokenExpired == tokenExpired
    {
      this.token := token;
      this.tokenExpired := tokenExpired;
    }
  }

  /** `token && !isTokenExpired(token)`. */
  predicate Usable(token: Option<string>, expired: bool)
  {
    Truthy(token) && !expired
  }

  /** A request the service makes of its environment: a new `WebSocket(url)` whose
      `onopen` will authenticate with `token`, `refreshJwtToken()`, `logout()`, and
      `socket.close()`. */
  datatype Request = Connect(url: string, token: string) | RefreshToken | Logout | CloseSocket

  /** The connection flags and logs of the service and the client's token. */
  datatype ConnState = ConnState(
    wasOpened: bool, wasOpening: bool, requests: seq<Request>, hasSocket: bool,
    pendingRefreshes: nat, token: Option<string>, tokenExpired: bool)

  /** The first frame ever written is an authentication frame, every authentication
      frame carries id 0, and while opened the connection's authentication frame, at
      `epoch`, is followed only by command frames. */
  ghost predicate WellFormedLog(sent: seq<Frame>, open: bool, epoch: nat)
  {
    && (sent != [] ==> sent[0].AuthFrame?)
    && (forall i | 0 <= i < |sent| :: sent[i].AuthFrame? ==> sent[i].cmdId == AUTH_CMD_ID)
    && (open ==>
          && epoch < |sent|
          && sent[epoch].AuthFrame?
          && forall i | epoch < i < |sent| :: sent[i].Cmds?)
  }

  /** Writing command frames on an open connection keeps the log well formed. */
  lemma WellFormedLogExtend(sent: seq<Frame>, epoch: nat, fs: seq<Frame>)
    requires WellFormedLog(sent, true, epoch) && Batched(fs)
    ensures WellFormedLog(sent + fs, true, epoch)
  {
    var t := sent + fs;
    forall i | 0 <= i < |t| ensures t[i] == if i < |sent| then sent[i] else fs[i - |sent|] {
    }
  }

  /** Registry ids lie in `1 .. last`, so the next id is fresh and never the
      authentication id 0; `order` lists exactly the registry's ids, ascending. */
  ghost predicate RegistryInvariant(m: map<int, Subscriber>, order: seq<int>, last: int)
  {
    && (forall id | id in m :: 0 < id <= last)
    && (forall k | 0 <= k < |order| :: order[k] in m)
    && (forall id | id in m :: id in order)
    && Increasing(order)
  }

  /** A registry without entries has an empty key order. */
  lemma EmptyRegistryOrder(m: map<int, Subscriber>, order: seq<int>, last: int)
    requires RegistryInvariant(m, order, last)
    ensures m == map[] ==> order == []
  {
    if order != [] {
      assert order[0] in m;
    }
  }

  /** Registering the next id keeps the registry well formed and overwrites nothing. */
  lemma RegisterKeepsRegistry(m: map<int, Subscriber>, order: seq<int>, last: nat, sub: Subscriber)
    requires RegistryInvariant(m, order, last)
    ensures last + 1 !in m
    ensures RegistryInvariant(m[last + 1 := sub], order + [last + 1], last + 1)
  {
    var o := order + [last + 1];
    forall i, j | 0 <= i < j < |o| ensures o[i] < o[j] {
      if j == |order| { assert o[i] == order[i] && order[i] in m; }
    }
  }

  /** Deleting an id keeps the registry well formed. */
  lemma RetireKeepsRegistry(m: map<int, Subscriber>, order: seq<int>, last: nat, id: int)
    requires RegistryInvariant(m, order, last)
    ensures RegistryInvariant(m - {id}, Without(order, id), last)
  {
    WithoutIncreasing(order, id);
    var o := Without(order, id);
    forall k | 0 <= k < |o| ensures o[k] in m - {id} {
      assert o[k] in o;
      var j :| 0 <= j < |order| && order[j] == o[k];
    }
  }

  /** The registry, its key order and the queue after the loop of `unsubscribe` has
      handled commands with values `cs`, one at a time. */
  function RetiredMap(m: map<int, Subscriber>, cs: seq<Envelope>): map<int, Subscriber>
  {
    if cs == [] then m
    else
      var rest := RetiredMap(m, cs[..|cs| - 1]);
      var last := cs[|cs| - 1];
      if last.cmdId != 0 then rest - {last.cmdId} else rest
  }

  function RetiredOrder(order: seq<int>, cs: seq<Envelope>): seq<int>
  {
    if cs == [] then order
    else
      var rest := RetiredOrder(order, cs[..|cs| - 1]);
      var last := cs[|cs| - 1];
      if last.cmdId != 0 then Without(rest, last.cmdId) else rest
  }

  function RetiredQueue(q: seq<Queued>, cs: seq<Envelope>): seq<Queued>
  {
    if cs == [] then q
    else
      var rest := RetiredQueue(q, cs[..|cs| - 1]);
      var last := cs[|cs| - 1];
      if last.cmdId != 0 then rest + [Literal(UnsubscribeEnvelope(last))] else rest
  }

  /** Handling the commands one at a time deletes exactly their set ids and queues
      their unsubscribe envelopes, in order, as literals. */
  lemma {:induction false} RetiredInFull(m: map<int, Subscriber>, q: seq<Queued>, cs: seq<Envelope>)
    ensures RetiredMap(m, cs) == m - RetiredIds(cs)
    ensures RetiredQueue(q, cs) == q + Literals(UnsubscribeEnvelopes(cs))
  {
    if cs != [] {
      var init, e := cs[..|cs| - 1], cs[|cs| - 1];
      RetiredInFull(m, q, init);
      assert cs == init + [e];
      RetiredIdsSnoc(init, e);
      UnsubscribeEnvelopesSnoc(init, e);
      if e.cmdId != 0 {
        LiteralsSnoc(UnsubscribeEnvelopes(init), UnsubscribeEnvelope(e));
        assert m - RetiredIds(cs) == (m - RetiredIds(init)) - {e.cmdId};
      } else {
        assert RetiredIds(cs) == RetiredIds(init);
      }
    }
  }

  /** Deleting the ids of a run of commands keeps the registry well formed. */
  lemma {:induction false} RetireAllKeepsRegistry(m: map<int, Subscriber>, order: seq<int>, last: nat, cs: seq<Envelope>)
    requires RegistryInvariant(m, order, last)
    ensures RegistryInvariant(RetiredMap(m, cs), RetiredOrder(order, cs), last)
  {
    if cs != [] {
      var init, e := cs[..|cs| - 1], cs[|cs| - 1];
      RetireAllKeepsRegistry(m, order, last, init);
      if e.cmdId != 0 {
        RetireKeepsRegistry(RetiredMap(m, init), RetiredOrder(order, init), last, e.cmdId);
      }
    }
  }

  /** The last position below `i` at which `cs` lists the object `cs[k]`. */
  ghost function LastSlot(cs: seq<Cmd>, k: nat, i: nat): nat
    requires k < i <= |cs|
    decreases i
  {
    if cs[i - 1] == cs[k] then i - 1 else LastSlot(cs, k, i - 1)
  }

  /** That position is at or after `k`, below `i`, and lists the same object. */
  lemma {:induction false} LastSlotLists(cs: seq<Cmd>, k: nat, i: nat)
    requires k < i <= |cs|
    ensures k <= LastSlot(cs, k, i) < i && cs[LastSlot(cs, k, i)] == cs[k]
    decreases i
  {
    if cs[i - 1] != cs[k] {
      LastSlotLists(cs, k, i - 1);
    }
  }

  /** A command listed without repetition has only its own position. */
  lemma LastSlotDistinct(cs: seq<Cmd>, k: nat, i: nat)
    requires k < i <= |cs| && Distinct(cs)
    ensures LastSlot(cs, k, i) == k
  {
    LastSlotLists(cs, k, i);
    var j := LastSlot(cs, k, i);
    if j != k {
      DistinctAt(cs, k, j);
    }
  }

  /** Each of the first `i` commands of `cs` carries the id `base + j + 1` of the last
      position `j < i` that lists it: an object listed twice keeps the later id. */
  ghost predicate IdsLastWritten(cs: seq<Cmd>, base: int, i: nat)
    requires i <= |cs|
    reads cs
  {
    forall k | 0 <= k < i :: cs[k].cmdId == base + LastSlot(cs, k, i) + 1
  }

  /** One turn of the loop of `subscribe`, in the terms `RegisterCommand` states. */
  lemma RegisterStep(m0: map<int, Subscriber>, o0: seq<int>, q0: seq<Queued>, sub: Subscriber,
                     base: int, i: nat, id: int, cmd: Cmd)
    requires i < |sub.commands| && cmd == sub.commands[i] && id == base + i + 1
    ensures Registered(m0, base, i + 1, sub) == Registered(m0, base, i, sub)[id := sub]
    ensures AppendPrefix(o0, IdSeq(base, |sub.commands|), i + 1) == AppendPrefix(o0, IdSeq(base, |sub.commands|), i) + [id]
    ensures AppendPrefix(q0, Lives(sub.commands), i + 1) == AppendPrefix(q0, Lives(sub.commands), i) + [Live(cmd)]
  {
    IdSeqAt(base, |sub.commands|);
  }

  /** Command `k`, for each `k < i`, carries id `base + k + 1`. */
  ghost predicate IdsInOrder(cs: seq<Cmd>, base: int, i: nat)
    requires i <= |cs|
    reads cs
  {
    forall k | 0 <= k < i :: cs[k].cmdId == base + k + 1
  }

  /** Without repetition, the last-written ids are the ids in order. */
  lemma IdsInOrderOfDistinct(cs: seq<Cmd>, base: int, i: nat)
    requires i <= |cs| && Distinct(cs) && IdsLastWritten(cs, base, i)
    ensures IdsInOrder(cs, base, i)
  {
    forall k | 0 <= k < i ensures cs[k].cmdId == base + k + 1 {
      LastSlotDistinct(cs, k, i);
    }
  }

  /** One turn of the loop of `subscribe` writes id `base + i + 1` into command `i`
      and no other id; `before` is the value of each command before the turn. */
  lemma AssignedIds(cs: seq<Cmd>, i: nat, base: int, before: seq<Envelope>)
    requires i < |cs| == |before|
    requires forall k | 0 <= k < i :: before[k].cmdId == base + LastSlot(cs, k, i) + 1
    requires cs[i].cmdId == base + i + 1
    requires forall k | 0 <= k < i && cs[k] != cs[i] :: cs[k].cmdId == before[k].cmdId
    ensures IdsLastWritten(cs, base, i + 1)
  {
    forall k | 0 <= k < i + 1 ensures cs[k].cmdId == base + LastSlot(cs, k, i + 1) + 1 {
      if k < i && cs[k] != cs[i] {
        assert LastSlot(cs, k, i + 1) == LastSlot(cs, k, i);
      }
    }
  }

  /** The state after the first `i` turns of the reconnect loop over `subs`, which
      started after id `base` from registry `m0`, callback log `cb0`, socket log `s0`,
      queue `q0` and activity `a0`, and has written `frames`: counter `last`, registry
      `m`, callback log `cb`, socket log `sent`, queue `q` and activity `active`. Every
      turn runs `subscribe`, which activates the service and drains the queue. */
  ghost predicate RejoinState(subs: seq<Subscriber>, i: nat, base: nat, m0: map<int, Subscriber>,
                              cb0: seq<Callback>, s0: seq<Frame>, q0: seq<Queued>, a0: bool,
                              frames: seq<Frame>, last: int, m: map<int, Subscriber>, cb: seq<Callback>,
                              sent: seq<Frame>, q: seq<Queued>, active: bool)
    requires i <= |subs|
  {
    && last == base + TotalCommands(subs[..i])
    && m == Reallocated(m0, subs[..i], base)
    && cb == cb0 + ReconnectCallbacks(subs[..i])
    && sent == s0 + frames && Batched(frames)
    && q == (if i == 0 then q0 else [])
    && |FrameCmds(frames)| == (if i == 0 then 0 else |q0|) + TotalCommands(subs[..i])
    && active == (a0 || i > 0)
  }

  /** Turn `i` of the reconnect loop, given what `subscribe` does to the counter, the
      registry, the callback log, the socket log, the queue and the activity. */
  lemma RejoinTurn(subs: seq<Subscriber>, i: nat, base: nat, m0: map<int, Subscriber>,
                   cb0: seq<Callback>, s0: seq<Frame>, q0: seq<Queued>, a0: bool,
                   frames: seq<Frame>, delta: seq<Frame>,
                   last: int, m: map<int, Subscriber>, cb: seq<Callback>, sent: seq<Frame>, q: seq<Queued>,
                   active: bool, last': int, m': map<int, Subscriber>, cb': seq<Callback>,
                   sent': seq<Frame>, q': seq<Queued>, active': bool)
    requires i < |subs|
    requires RejoinState(subs, i, base, m0, cb0, s0, q0, a0, frames, last, m, cb, sent, q, active)
    requires last' == last + |subs[i].commands|
    requires m' == m + IdRange(last, |subs[i].commands|, subs[i])
    requires cb' == cb + (if subs[i].hasOnReconnected then [OnReconnected(subs[i])] else [])
    requires sent' == sent + delta && Batched(delta) && q' == [] && active'
    requires |FrameCmds(delta)| == |q| + |subs[i].commands|
    ensures RejoinState(subs, i + 1, base, m0, cb0, s0, q0, a0, frames + delta, last', m', cb', sent', q', active')
  {
    ResubscribeStep(m0, cb0, subs, i, base, last, subs[i]);
    ConcatAssoc(s0, frames, delta);
    AppendBatches(frames, delta);
  }

  class TelemetryWebsocketService {
    var isActive: bool
    var isOpening: bool
    var isOpened: bool
    var isReconnect: bool
    /** The delay of the pending reconnect timer, if one is pending. */
    var reconnectTimer: Option<nat>
    var lastCmdId: nat
    var subscribersMap: map<int, Subscriber>
    /** The key insertion order of `subscribersMap` (the order `forEach` visits). */
    var mapOrder: seq<int>
    /** `reconnectSubscribers`, a `Set`: distinct, in insertion order. */
    var reconnectSubscribers: seq<Subscriber>
    var cmdQueue: seq<Queued>
    /** `socket !== null`. */
    var hasSocket: bool
    const telemetryUri: string
    const client: AuthClient

    /** Every frame written to a socket, in order. */
    ghost var sent: seq<Frame>
    /** Every call into subscriber code, in order. */
    ghost var callbacks: seq<Callback>
    /** Every request made of the environment, in order. */
    ghost var requests: seq<Request>
    /** Token refreshes requested and not yet settled. */
    ghost var pendingRefreshes: nat
    /** The index in `sent` of the authentication frame of the current connection. */
    ghost var epochStart: nat

    /** The invariant every method keeps, in four parts that read disjoint groups
        of fields. */
    ghost predicate Valid()
      reads this`subscribersMap, this`mapOrder, this`lastCmdId, this`reconnectSubscribers,
        this`isOpened, this`isOpening, this`hasSocket, this`requests, this`sent, this`epochStart
    {
      RegistryValid() && Distinct(reconnectSubscribers) && FlagsValid() && LogValid()
    }

    ghost predicate RegistryValid()
      reads this`subscribersMap, this`mapOrder, this`lastCmdId
    {
      RegistryInvariant(subscribersMap, mapOrder, lastCmdId)
    }

    /** The service never is opened and opening at once, and has a socket when
        opened or once it asked for one. */
    ghost predicate FlagsValid()
      reads this`isOpened, this`isOpening, this`hasSocket, this`requests
    {
      && !(isOpened && isOpening)
      && (isOpened ==> hasSocket)
      && (forall i | 0 <= i < |requests| :: requests[i].Connect? ==> hasSocket)
    }

    ghost predicate LogValid()
      reads this`sent, this`isOpened, this`epochStart
    {
      WellFormedLog(sent, isOpened, epochStart)
    }

    /** Nothing waits in the queue while the socket is open. */
    predicate Flushed()
      reads this`isOpened, this`cmdQueue
    {
      isOpened ==> cmdQueue == []
    }

    /** The part of the state that `tryOpenSocket` reads and writes, together with
        the client's token at that moment. */
    ghost function Conn(): ConnState
      reads this`isOpened, this`isOpening, this`requests, this`hasSocket, this`pendingRefreshes,
        client`token, client`tokenExpired
    {
      ConnState(isOpened, isOpening, requests, hasSocket, pendingRefreshes, client.token, client.tokenExpired)
    }

    /** The effect of `tryOpenSocket` from state `c`: when the service is active,
        neither opened nor opening, it becomes opening and either connects with the
        stored token, when that is usable, or requests one token refresh; otherwise
        nothing of the connection state changes. */
    ghost predicate OpenStep(c: ConnState)
      reads this`isActive, this`isOpening, this`requests, this`hasSocket, this`pendingRefreshes
    {
      if isActive && !c.wasOpened && !c.wasOpening then
        && isOpening
        && if Usable(c.token, c.tokenExpired) then
             && requests == c.requests + [Connect(telemetryUri, c.token.value)]
             && hasSocket
             && pendingRefreshes == c.pendingRefreshes
           else
             && requests == c.requests + [RefreshToken]
             && hasSocket == c.hasSocket
             && pendingRefreshes == c.pendingRefreshes + 1
      else
        && isOpening == c.wasOpening
        && requests == c.requests
        && hasSocket == c.hasSocket
        && pendingRefreshes == c.pendingRefreshes
    }

    /** The service starts inactive, with no socket, and targets the URL derived
        from the client's REST endpoint. */
    constructor (apiEndpoint: string, client: AuthClient)
      ensures Valid() && Flushed()
      ensures telemetryUri == TelemetryUri(apiEndpoint) && this.client == client
      ensures !isActive && !isOpening && !isOpened && !isReconnect && !hasSocket
      ensures reconnectTimer == None && lastCmdId == 0
      ensures subscribersMap == map[] && mapOrder == [] && reconnectSubscribers == [] && cmdQueue == []
      ensures sent == [] && callbacks == [] && requests == [] && pendingRefreshes == 0
    {
      isActive, isOpening, isOpened, isReconnect := false, false, false, false;
      reconnectTimer := None;
      lastCmdId := 0;
      subscribersMap, mapOrder := map[], [];
      reconnectSubscribers, cmdQueue := [], [];
      hasSocket := false;
      telemetryUri := TelemetryUri(apiEndpoint);
      this.client := client;
      sent, callbacks, requests := [], [], [];
      pendingRefreshes, epochStart := 0, 0;
    }

    /** `nextCmdId`: the counter goes up by one and its new value is the id. */
    method NextCmdId() returns (id: nat)
      modifies this`lastCmdId
      ensures lastCmdId == old(lastCmdId) + 1 && id == lastCmdId
    {
      lastCmdId := lastCmdId + 1;
      id := lastCmdId;
    }

    /** `subscribe`: activates the service, gives the subscriber's commands the next
        ids in the order supplied, registers each id to the subscriber, queues the
        commands, and publishes. The new ids are all above every id registered
        before, so no registration is overwritten. */
    method Subscribe(sub: Subscriber)
      requires Valid()
      modifies this`isActive, this`lastCmdId, this`subscribersMap, this`mapOrder, this`cmdQueue,
        this`sent, this`isOpening, this`requests, this`hasSocket, this`pendingRefreshes, sub.commands
      ensures Valid()
      ensures isActive
      ensures lastCmdId == old(lastCmdId) + |sub.commands|
      ensures subscribersMap == old(subscribersMap) + IdRange(old(lastCmdId), |sub.commands|, sub)
      ensures mapOrder == old(mapOrder) + IdSeq(old(lastCmdId), |sub.commands|)
      ensures IdsLastWritten(sub.commands, old(lastCmdId), |sub.commands|)
      ensures Distinct(sub.commands) ==> IdsInOrder(sub.commands, old(lastCmdId), |sub.commands|)
      ensures old(isOpened) ==>
        cmdQueue == [] && sent == old(sent) + PublishFrames(Values(old(cmdQueue)) + Snapshots(sub.commands))
      ensures !old(isOpened) ==> cmdQueue == old(cmdQueue) + Lives(sub.commands) && sent == old(sent)
      ensures OpenStep(old(Conn()))
    {
      isActive := true;
      Register(sub);
      assert Conn() == old(Conn());
      PublishRegistered(old(cmdQueue), sub.commands);
    }

    /** The `publishCommands` call that ends `subscribe`, on the queue `q0` followed by
        the subscriber's commands `cs`. */
    method PublishRegistered(ghost q0: seq<Queued>, ghost cs: seq<Cmd>)
      requires Valid() && cmdQueue == q0 + Lives(cs)
      modifies this`cmdQueue, this`sent, this`isOpening, this`requests, this`hasSocket, this`pendingRefreshes
      ensures Valid()
      ensures old(isOpened) ==> cmdQueue == [] && sent == old(sent) + PublishFrames(Values(q0) + Snapshots(cs))
      ensures !old(isOpened) ==> cmdQueue == q0 + Lives(cs) && sent == old(sent)
      ensures OpenStep(old(Conn()))
    {
      PublishCommands();
      ValuesUnchanged(old(cmdQueue));
      assert Values(old(cmdQueue)) == Values(q0) + Snapshots(cs) by {
        ValuesConcat(q0, Lives(cs));
        ValuesLives(cs);
      }
    }

    /** The loop of `subscribe`. */
    method Register(sub: Subscriber)
      requires RegistryValid()
      modifies this`lastCmdId, this`subscribersMap, this`mapOrder, this`cmdQueue, sub.commands
      ensures RegistryValid()
      ensures lastCmdId == old(lastCmdId) + |sub.commands|
      ensures subscribersMap == old(subscribersMap) + IdRange(old(lastCmdId), |sub.commands|, sub)
      ensures mapOrder == old(mapOrder) + IdSeq(old(lastCmdId), |sub.commands|)
      ensures cmdQueue == old(cmdQueue) + Lives(sub.commands)
      ensures IdsLastWritten(sub.commands, old(lastCmdId), |sub.commands|)
      ensures Distinct(sub.commands) ==> IdsInOrder(sub.commands, old(lastCmdId), |sub.commands|)
    {
      var base := lastCmdId;
      RegisterAll(sub);
      if Distinct(sub.commands) {
        IdsInOrderOfDistinct(sub.commands, base, |sub.commands|);
      }
      RegisteredIsUnion(old(subscribersMap), base, |sub.commands|, sub);
      AppendPrefixIsConcat(old(mapOrder), IdSeq(base, |sub.commands|), |sub.commands|);
      AppendPrefixIsConcat(old(cmdQueue), Lives(sub.commands), |sub.commands|);
      assert IdSeq(base, |sub.commands|)[..|sub.commands|] == IdSeq(base, |sub.commands|);
      assert Lives(sub.commands)[..|sub.commands|] == Lives(sub.commands);
    }

    /** The loop of `subscribe`, stated one step at a time. */
    method RegisterAll(sub: Subscriber)
      requires RegistryValid()
      modifies this`lastCmdId, this`subscribersMap, this`mapOrder, this`cmdQueue, sub.commands
      ensures RegistryValid()
      ensures lastCmdId == old(lastCmdId) + |sub.commands|
      ensures subscribersMap == Registered(old(subscribersMap), old(lastCmdId), |sub.commands|, sub)
      ensures mapOrder == AppendPrefix(old(mapOrder), IdSeq(old(lastCmdId), |sub.commands|), |sub.commands|)
      ensures cmdQueue == AppendPrefix(old(cmdQueue), Lives(sub.commands), |sub.commands|)
      ensures IdsLastWritten(sub.commands, old(lastCmdId), |sub.commands|)
    {
      var base := lastCmdId;
      ghost var ids, lives := IdSeq(base, |sub.commands|), Lives(sub.commands);
      ghost var m0, o0, q0 := subscribersMap, mapOrder, cmdQueue;
      var i := 0;
      while i < |sub.commands|
        invariant 0 <= i <= |sub.commands|
        invariant RegistryValid()
        invariant lastCmdId == base + i
        invariant subscribersMap == Registered(m0, base, i, sub)
        invariant mapOrder == AppendPrefix(o0, ids, i)
        invariant cmdQueue == AppendPrefix(q0, lives, i)
        invariant IdsLastWritten(sub.commands, base, i)
      {
        RegisterNext(sub, i, base);
        RegisterStep(m0, o0, q0, sub, base, i, lastCmdId, sub.commands[i]);
        i := i + 1;
      }
    }

    /** One turn of the loop of `subscribe`: command `i` gets id `base + i + 1`, which
        is now the last-written id of every position listing the same object. */
    method RegisterNext(sub: Subscriber, i: nat, base: int)
      requires RegistryValid() && i < |sub.commands| && lastCmdId == base + i
      requires IdsLastWritten(sub.commands, base, i)
      modifies this`lastCmdId, this`subscribersMap, this`mapOrder, this`cmdQueue, sub.commands
      ensures RegistryValid()
      ensures lastCmdId == old(lastCmdId) + 1
      ensures subscribersMap == old(subscribersMap)[lastCmdId := sub]
      ensures mapOrder == old(mapOrder) + [lastCmdId]
      ensures cmdQueue == old(cmdQueue) + [Live(sub.commands[i])]
      ensures IdsLastWritten(sub.commands, base, i + 1)
    {
      ghost var before := Snapshots(sub.commands);
      SnapshotsAt(sub.commands);
      RegisterCommand(sub, sub.commands[i]);
      AssignedIds(sub.commands, i, base, before);
    }

    /** The callback `subscribe` runs for one command: the next id is registered to
        the subscriber and written into the command, and the command is queued. */
    method RegisterCommand(sub: Subscriber, cmd: Cmd)
      requires RegistryValid()
      modifies this`lastCmdId, this`subscribersMap, this`mapOrder, this`cmdQueue, cmd`cmdId
      ensures RegistryValid()
      ensures lastCmdId == old(lastCmdId) + 1
      ensures lastCmdId !in old(subscribersMap)
      ensures subscribersMap == old(subscribersMap)[lastCmdId := sub]
      ensures mapOrder == old(mapOrder) + [lastCmdId]
      ensures cmd.cmdId == lastCmdId
      ensures cmdQueue == old(cmdQueue) + [Live(cmd)]
    {
      RegisterKeepsRegistry(subscribersMap, mapOrder, lastCmdId, sub);
      var id := NextCmdId();
      subscribersMap := subscribersMap[id := sub];
      mapOrder := mapOrder + [id];
      cmd.cmdId := id;
      cmdQueue := cmdQueue + [Live(cmd)];
    }

    /** `unsubscribe`: a no-op while inactive. Otherwise it queues, behind what is
        already queued, one fresh unsubscribe envelope per command whose id is set,
        retires those ids from the registry, drops the subscriber from the reconnect
        set, and publishes. */
    method Unsubscribe(sub: Subscriber)
      requires Valid()
      modifies this`cmdQueue, this`subscribersMap, this`mapOrder, this`reconnectSubscribers,
        this`sent, this`isOpening, this`requests, this`hasSocket, this`pendingRefreshes
      ensures Valid()
      ensures !isActive ==>
        && cmdQueue == old(cmdQueue) && subscribersMap == old(subscribersMap) && mapOrder == old(mapOrder)
        && reconnectSubscribers == old(reconnectSubscribers) && sent == old(sent)
        && isOpening == old(isOpening) && requests == old(requests)
        && hasSocket == old(hasSocket) && pendingRefreshes == old(pendingRefreshes)
      ensures isActive ==>
        && subscribersMap == old(subscribersMap) - RetiredIds(old(Snapshots(sub.commands)))
        && reconnectSubscribers == Without(old(reconnectSubscribers), sub)
        && OpenStep(old(Conn()))
      ensures isActive && isOpened ==>
        && cmdQueue == []
        && sent == old(sent) + PublishFrames(old(Values(cmdQueue)) + UnsubscribeEnvelopes(old(Snapshots(sub.commands))))
      ensures isActive && !isOpened ==>
        && sent == old(sent)
        && cmdQueue == old(cmdQueue) + Literals(UnsubscribeEnvelopes(old(Snapshots(sub.commands))))
    {
      if isActive {
        Retract(sub);
      }
    }

    /** `unsubscribe` on an active service. */
    method Retract(sub: Subscriber)
      requires Valid() && isActive
      modifies this`cmdQueue, this`subscribersMap, this`mapOrder, this`reconnectSubscribers,
        this`sent, this`isOpening, this`requests, this`hasSocket, this`pendingRefreshes
      ensures Valid()
      ensures subscribersMap == old(subscribersMap) - RetiredIds(old(Snapshots(sub.commands)))
      ensures reconnectSubscribers == Without(old(reconnectSubscribers), sub)
      ensures OpenStep(old(Conn()))
      ensures isOpened ==>
        && cmdQueue == []
        && sent == old(sent) + PublishFrames(old(Values(cmdQueue)) + UnsubscribeEnvelopes(old(Snapshots(sub.commands))))
      ensures !isOpened ==>
        && sent == old(sent)
        && cmdQueue == old(cmdQueue) + Literals(UnsubscribeEnvelopes(old(Snapshots(sub.commands))))
    {
      var cs := Snapshots(sub.commands);
      Retire(cs);
      reconnectSubscribers := Without(reconnectSubscribers, sub);
      assert Conn() == old(Conn());
      ghost var us, q1 := UnsubscribeEnvelopes(cs), cmdQueue;
      assert Values(q1) == old(Values(cmdQueue)) + us by {
        ValuesUnchanged(old(cmdQueue));
        ValuesConcat(old(cmdQueue), Literals(us));
        ValuesLiterals(us);
      }
      label Retired:
      PublishCommands();
      ValuesUnchanged@Retired(q1);
    }

    /** The loop of `unsubscribe`, over the values `cs` the subscriber's commands have
        (nothing writes a command meanwhile). The queue and the registry are carried
        in locals while it runs. */
    method Retire(cs: seq<Envelope>)
      requires RegistryValid()
      modifies this`cmdQueue, this`subscribersMap, this`mapOrder
      ensures RegistryValid()
      ensures subscribersMap == old(subscribersMap) - RetiredIds(cs)
      ensures cmdQueue == old(cmdQueue) + Literals(UnsubscribeEnvelopes(cs))
    {
      var queue, m, order := cmdQueue, subscribersMap, mapOrder;
      ghost var q0, m0, o0 := cmdQueue, subscribersMap, mapOrder;
      var i := 0;
      while i < |cs|
        invariant 0 <= i <= |cs|
        invariant m == RetiredMap(m0, cs[..i])
        invariant order == RetiredOrder(o0, cs[..i])
        invariant queue == RetiredQueue(q0, cs[..i])
        modifies {}
      {
        var c := cs[i];
        assert cs[..i + 1][..i] == cs[..i];
        if c.cmdId != 0 {
          queue := queue + [Literal(UnsubscribeEnvelope(c))];
          m := m - {c.cmdId};
          order := Without(order, c.cmdId);
        }
        i := i + 1;
      }
      assert cs[..i] == cs;
      RetireAllKeepsRegistry(m0, o0, lastCmdId, cs);
      RetiredInFull(m0, q0, cs);
      cmdQueue, subscribersMap, mapOrder := queue, m, order;
    }

    /** `publishCommands`: while opened, writes the queue out ten commands at a time
        until it is empty; then tries to open the socket. */
    method PublishCommands()
      requires Valid()
      modifies this`sent, this`cmdQueue, this`isOpening, this`requests, this`hasSocket, this`pendingRefreshes
      ensures Valid()
      ensures old(isOpened) ==> cmdQueue == [] && sent == old(sent) + PublishFrames(old(Values(cmdQueue)))
      ensures !old(isOpened) ==> cmdQueue == old(cmdQueue) && sent == old(sent)
      ensures OpenStep(old(Conn()))
    {
      Drain();
      assert Conn() == old(Conn());
      TryOpenSocket();
    }

    /** The loop of `publishCommands`. The queue and the socket log are carried in
        locals while it runs; nothing else can observe the fields in between. */
    method Drain()
      requires LogValid()
      modifies this`sent, this`cmdQueue
      ensures LogValid()
      ensures old(isOpened) ==> cmdQueue == [] && sent == old(sent) + PublishFrames(old(Values(cmdQueue)))
      ensures !old(isOpened) ==> cmdQueue == old(cmdQueue) && sent == old(sent)
    {
      var queue := cmdQueue;
      ghost var written := sent;
      ghost var es := Values(cmdQueue);
      ghost var goal := sent + PublishFrames(es);
      while isOpened && |queue| > 0
        invariant isOpened ==> written + PublishFrames(Values(queue)) == goal
        invariant !isOpened ==> queue == cmdQueue && written == sent
        modifies {}
        decreases |queue|
      {
        var n := if |queue| < BATCH_SIZE then |queue| else BATCH_SIZE;
        var batch := NormalizeAll(Values(queue[..n]));
        PublishStep(queue, n);
        queue := queue[n..];
        written := written + [Cmds(batch)];
      }
      if isOpened {
        assert queue == [] && written == goal;
        PublishFramesDrain(es);
        WellFormedLogExtend(sent, epochStart, PublishFrames(es));
      }
      cmdQueue := queue;
      sent := written;
    }

    /** `tryOpenSocket`. */
    method TryOpenSocket()
      requires Valid()
      modifies this`isOpening, this`requests, this`hasSocket, this`pendingRefreshes
      ensures Valid()
      ensures OpenStep(old(Conn()))
    {
      if isActive {
        if !isOpened && !isOpening {
          isOpening := true;
          var token := client.token;
          if Usable(token, client.tokenExpired) {
            OpenSocket(token.value);
          } else {
            requests := requests + [RefreshToken];
            pendingRefreshes := pendingRefreshes + 1;
          }
        }
      }
    }

    /** `openSocket`: creates the socket for `telemetryUri`; its `onopen` will
        authenticate with `token`. */
    method OpenSocket(token: string)
      requires Valid()
      modifies this`hasSocket, this`requests
      ensures Valid()
      ensures hasSocket && requests == old(requests) + [Connect(telemetryUri, token)]
    {
      hasSocket := true;
      requests := requests + [Connect(telemetryUri, token)];
    }

    /** The refresh resolved: the service connects with the token now stored, if
        there is one, without checking activity or expiry again. With no token it
        does nothing, and `isOpening` stays set. */
    method RefreshSucceeded()
      requires Valid() && pendingRefreshes > 0
      modifies this`pendingRefreshes, this`hasSocket, this`requests
      ensures Valid()
      ensures pendingRefreshes == old(pendingRefreshes) - 1
      ensures Truthy(client.token) ==> hasSocket && requests == old(requests) + [Connect(telemetryUri, client.token.value)]
      ensures !Truthy(client.token) ==> hasSocket == old(hasSocket) && requests == old(requests)
    {
      pendingRefreshes := pendingRefreshes - 1;
      var newToken := client.token;
      if Truthy(newToken) {
        OpenSocket(newToken.value);
      }
    }

    /** The refresh was rejected: the open attempt ends and the user is logged out. */
    method RefreshFailed()
      requires Valid() && pendingRefreshes > 0
      modifies this`pendingRefreshes, this`isOpening, this`requests
      ensures Valid()
      ensures pendingRefreshes == old(pendingRefreshes) - 1
      ensures !isOpening && requests == old(requests) + [Logout]
    {
      pendingRefreshes := pendingRefreshes - 1;
      isOpening := false;
      requests := requests + [Logout];
    }

    /** The first half of `onOpen`: the connection is up, the authentication frame
        is written, and a pending reconnect timer is cancelled. */
    method Authenticate(token: string)
      requires Valid() && hasSocket
      modifies this`isOpening, this`isOpened, this`sent, this`epochStart, this`reconnectTimer
      ensures Valid()
      ensures isOpened && !isOpening && reconnectTimer == None
      ensures sent == old(sent) + [AuthFrame(AUTH_CMD_ID, token)]
    {
      isOpening := false;
      isOpened := true;
      epochStart := |sent|;
      sent := sent + [AuthFrame(AUTH_CMD_ID, token)];
      reconnectTimer := None;
    }

    /** The reconnect branch of `onOpen`: for each subscriber of the reconnect set,
        in order, `onReconnected` (when defined) and then `subscribe`; afterwards the
        set is empty. The subscribers get fresh ids in order. When there was at least
        one, the queue is drained into well-formed batches that carry the old queue
        and every resubscribed command; when there was none, nothing is written and
        the queue stays as it was. */
    method Resubscribe()
      requires Valid() && isOpened
      modifies this`isActive, this`lastCmdId, this`subscribersMap, this`mapOrder, this`cmdQueue,
        this`sent, this`isOpening, this`requests, this`hasSocket, this`pendingRefreshes,
        this`callbacks, this`reconnectSubscribers, CommandsOf(reconnectSubscribers)
      ensures Valid() && isOpened
      ensures reconnectSubscribers == []
      ensures isActive == (old(isActive) || old(reconnectSubscribers) != [])
      ensures lastCmdId == old(lastCmdId) + TotalCommands(old(reconnectSubscribers))
      ensures subscribersMap == old(subscribersMap) + Allocation(old(reconnectSubscribers), old(lastCmdId))
      ensures callbacks == old(callbacks) + ReconnectCallbacks(old(reconnectSubscribers))
      ensures isOpening == old(isOpening) && requests == old(requests)
      ensures hasSocket == old(hasSocket) && pendingRefreshes == old(pendingRefreshes)
      ensures old(reconnectSubscribers) == [] ==> cmdQueue == old(cmdQueue) && sent == old(sent)
      ensures old(reconnectSubscribers) != [] ==>
        && cmdQueue == []
        && |old(sent)| <= |sent| && sent[..|old(sent)|] == old(sent)
        && Batched(sent[|old(sent)|..])
        && |FrameCmds(sent[|old(sent)|..])| == |old(cmdQueue)| + TotalCommands(old(reconnectSubscribers))
    {
      ghost var subs := reconnectSubscribers;
      ghost var frames := RejoinAll();
      assert subs[..|subs|] == subs;
      ReallocatedIsUnion(old(subscribersMap), old(reconnectSubscribers), old(lastCmdId));
      assert sent[..|old(sent)|] == old(sent) && sent[|old(sent)|..] == frames;
      reconnectSubscribers := [];
    }

    /** The loop of the reconnect branch, with the registry stated step by step. */
    method RejoinAll() returns (ghost frames: seq<Frame>)
      requires Valid() && isOpened
      modifies this`isActive, this`lastCmdId, this`subscribersMap, this`mapOrder, this`cmdQueue,
        this`sent, this`isOpening, this`requests, this`hasSocket, this`pendingRefreshes,
        this`callbacks, CommandsOf(reconnectSubscribers)
      ensures Valid() && isOpened && reconnectSubscribers == old(reconnectSubscribers)
      ensures RejoinedFirst(reconnectSubscribers, |reconnectSubscribers|, old(lastCmdId), old(subscribersMap),
        old(callbacks), old(sent), old(cmdQueue), old(Conn()), old(isActive), frames)
    {
      var subs := reconnectSubscribers;
      var base := lastCmdId;
      ghost var m0, cb0, s0, q0, c0, a0 := subscribersMap, callbacks, sent, cmdQueue, Conn(), isActive;
      frames := [];
      var i := 0;
      while i < |subs|
        invariant 0 <= i <= |subs|
        invariant Valid() && isOpened && reconnectSubscribers == subs
        invariant RejoinedFirst(subs, i, base, m0, cb0, s0, q0, c0, a0, frames)
      {
        frames := RejoinNext(subs, i, base, m0, cb0, s0, q0, c0, a0, frames);
        i := i + 1;
      }
    }

    /** The state after the first `i` turns of the reconnect loop, as `RejoinState`
        states it, with the connection state still `c0`. */
    ghost predicate RejoinedFirst(subs: seq<Subscriber>, i: nat, base: nat, m0: map<int, Subscriber>,
                                  cb0: seq<Callback>, s0: seq<Frame>, q0: seq<Queued>, c0: ConnState,
                                  a0: bool, frames: seq<Frame>)
      requires i <= |subs|
      reads this`isActive, this`lastCmdId, this`subscribersMap, this`callbacks, this`sent, this`cmdQueue,
        this`isOpened, this`isOpening, this`requests, this`hasSocket, this`pendingRefreshes,
        client`token, client`tokenExpired
    {
      && RejoinState(subs, i, base, m0, cb0, s0, q0, a0, frames,
                     lastCmdId, subscribersMap, callbacks, sent, cmdQueue, isActive)
      && Conn() == c0
    }

    /** Turn `i` of the reconnect loop. */
    method RejoinNext(subs: seq<Subscriber>, i: nat, base: nat, ghost m0: map<int, Subscriber>,
                      ghost cb0: seq<Callback>, ghost s0: seq<Frame>, ghost q0: seq<Queued>,
                      ghost c0: ConnState, ghost a0: bool, ghost frames: seq<Frame>)
      returns (ghost next: seq<Frame>)
      requires i < |subs| && Valid() && isOpened && reconnectSubscribers == subs
      requires RejoinedFirst(subs, i, base, m0, cb0, s0, q0, c0, a0, frames)
      modifies this`isActive, this`lastCmdId, this`subscribersMap, this`mapOrder, this`cmdQueue,
        this`sent, this`isOpening, this`requests, this`hasSocket, this`pendingRefreshes,
        this`callbacks, CommandsOf(subs)
      ensures Valid() && isOpened && reconnectSubscribers == subs
      ensures RejoinedFirst(subs, i + 1, base, m0, cb0, s0, q0, c0, a0, next)
      ensures next == frames + PublishFrames((if i == 0 then Values(q0) else []) + Snapshots(subs[i].commands))
    {
      var sub := subs[i];
      CommandsOfMember(subs, i);
      ghost var last, m, cb, st, q, active := lastCmdId, subscribersMap, callbacks, sent, cmdQueue, isActive;
      ghost var delta := Rejoin(sub);
      RejoinTurn(subs, i, base, m0, cb0, s0, q0, a0, frames, delta, last, m, cb, st, q, active,
                 lastCmdId, subscribersMap, callbacks, sent, cmdQueue, isActive);
      next := frames + delta;
    }

    /** One turn of the reconnect loop of `onOpen` on the open socket: the optional
        `onReconnected` call, then `subscribe`, which writes the queue and the
        subscriber's commands out in well-formed batches. */
    method Rejoin(sub: Subscriber) returns (ghost frames: seq<Frame>)
      requires Valid() && isOpened
      modifies this`isActive, this`lastCmdId, this`subscribersMap, this`mapOrder, this`cmdQueue,
        this`sent, this`isOpening, this`requests, this`hasSocket, this`pendingRefreshes,
        this`callbacks, sub.commands
      ensures Valid() && isOpened && isActive
      ensures lastCmdId == old(lastCmdId) + |sub.commands|
      ensures subscribersMap == old(subscribersMap) + IdRange(old(lastCmdId), |sub.commands|, sub)
      ensures callbacks == old(callbacks) + (if sub.hasOnReconnected then [OnReconnected(sub)] else [])
      ensures isOpening == old(isOpening) && requests == old(requests)
      ensures hasSocket == old(hasSocket) && pendingRefreshes == old(pendingRefreshes)
      ensures cmdQueue == [] && sent == old(sent) + frames && Batched(frames)
      ensures frames == PublishFrames(Values(old(cmdQueue)) + Snapshots(sub.commands))
      ensures |FrameCmds(frames)| == |old(cmdQueue)| + |sub.commands|
    {
      if sub.hasOnReconnected {
        callbacks := callbacks + [OnReconnected(sub)];
      }
      ghost var before, queued := sent, cmdQueue;
      Subscribe(sub);
      ghost var es := Values(queued) + Snapshots(sub.commands);
      PublishFramesDrain(es);
      frames := PublishFrames(es);
    }

    /** `onOpen`, as written: authenticates, then resubscribes when reconnecting and
        publishes the queue otherwise. On a reconnect whose reconnect set is empty the
        queue is left as it was on an open socket: see `OnOpenFlushed`. */
    method OnOpen(token: string)
      requires Valid() && Connect(telemetryUri, token) in requests
      modifies this`isActive, this`isOpening, this`isOpened, this`isReconnect, this`reconnectTimer,
        this`lastCmdId, this`subscribersMap, this`mapOrder, this`reconnectSubscribers, this`cmdQueue,
        this`sent, this`callbacks, this`requests, this`hasSocket, this`pendingRefreshes, this`epochStart,
        CommandsOf(reconnectSubscribers)
      ensures Valid()
      ensures isOpened && !isOpening && !isReconnect && reconnectTimer == None
      ensures |old(sent)| < |sent| && sent[|old(sent)|] == AuthFrame(AUTH_CMD_ID, token)
      ensures forall i | |old(sent)| < i < |sent| :: sent[i].Cmds?
      ensures requests == old(requests) && hasSocket == old(hasSocket) && pendingRefreshes == old(pendingRefreshes)
      ensures !old(isReconnect) ==>
        && cmdQueue == []
        && sent == old(sent) + [AuthFrame(AUTH_CMD_ID, token)] + PublishFrames(old(Values(cmdQueue)))
        && subscribersMap == old(subscribersMap) && lastCmdId == old(lastCmdId)
        && reconnectSubscribers == old(reconnectSubscribers) && callbacks == old(callbacks)
        && isActive == old(isActive)
      ensures old(isReconnect) ==>
        && reconnectSubscribers == []
        && isActive == (old(isActive) || old(reconnectSubscribers) != [])
        && lastCmdId == old(lastCmdId) + TotalCommands(old(reconnectSubscribers))
        && subscribersMap == old(subscribersMap) + Allocation(old(reconnectSubscribers), old(lastCmdId))
        && callbacks == old(callbacks) + ReconnectCallbacks(old(reconnectSubscribers))
      ensures old(isReconnect) && old(reconnectSubscribers) != [] ==> cmdQueue == []
      ensures old(isReconnect) && old(reconnectSubscribers) == [] ==>
        cmdQueue == old(cmdQueue) && sent == old(sent) + [AuthFrame(AUTH_CMD_ID, token)]
    {
      Authenticate(token);
      ValuesUnchanged(cmdQueue);
      Resume();
    }

    /** The second half of `onOpen`, on the open socket. */
    method Resume()
      requires Valid() && isOpened
      modifies this`isActive, this`isReconnect, this`lastCmdId, this`subscribersMap, this`mapOrder,
        this`reconnectSubscribers, this`cmdQueue, this`sent, this`callbacks, this`isOpening,
        this`requests, this`hasSocket, this`pendingRefreshes, CommandsOf(reconnectSubscribers)
      ensures Valid() && isOpened && !isReconnect
      ensures isOpening == old(isOpening) && requests == old(requests)
      ensures hasSocket == old(hasSocket) && pendingRefreshes == old(pendingRefreshes)
      ensures |old(sent)| <= |sent| && sent[..|old(sent)|] == old(sent)
      ensures !old(isReconnect) ==>
        && cmdQueue == []
        && sent == old(sent) + PublishFrames(old(Values(cmdQueue)))
        && subscribersMap == old(subscribersMap) && lastCmdId == old(lastCmdId)
        && reconnectSubscribers == old(reconnectSubscribers) && callbacks == old(callbacks)
        && isActive == old(isActive)
      ensures old(isReconnect) ==>
        && reconnectSubscribers == []
        && isActive == (old(isActive) || old(reconnectSubscribers) != [])
        && lastCmdId == old(lastCmdId) + TotalCommands(old(reconnectSubscribers))
        && subscribersMap == old(subscribersMap) + Allocation(old(reconnectSubscribers), old(lastCmdId))
        && callbacks == old(callbacks) + ReconnectCallbacks(old(reconnectSubscribers))
      ensures old(isReconnect) && old(reconnectSubscribers) != [] ==> cmdQueue == []
      ensures old(isReconnect) && old(reconnectSubscribers) == [] ==>
        cmdQueue == old(cmdQueue) && sent == old(sent)
    {
      if isReconnect {
        isReconnect := false;
        Resubscribe();
      } else {
        PublishCommands();
      }
    }

    /** `onOpen` with the queue published after the reconnect branch as well: the
        open socket is always left with an empty queue. */
    method OnOpenFlushed(token: string)
      requires Valid() && Connect(telemetryUri, token) in requests
      modifies this`isActive, this`isOpening, this`isOpened, this`isReconnect, this`reconnectTimer,
        this`lastCmdId, this`subscribersMap, this`mapOrder, this`reconnectSubscribers, this`cmdQueue,
        this`sent, this`callbacks, this`requests, this`hasSocket, this`pendingRefreshes, this`epochStart,
        CommandsOf(reconnectSubscribers)
      ensures Valid() && Flushed()
      ensures isOpened && !isOpening && !isReconnect && reconnectTimer == None
      ensures |old(sent)| < |sent| && sent[|old(sent)|] == AuthFrame(AUTH_CMD_ID, token)
      ensures forall i | |old(sent)| < i < |sent| :: sent[i].Cmds?
      ensures requests == old(requests) && hasSocket == old(hasSocket) && pendingRefreshes == old(pendingRefreshes)
      ensures !old(isReconnect) || old(reconnectSubscribers) == [] ==>
        && sent == old(sent) + [AuthFrame(AUTH_CMD_ID, token)] + PublishFrames(old(Values(cmdQueue)))
        && subscribersMap == old(subscribersMap) && lastCmdId == old(lastCmdId) && callbacks == old(callbacks)
      ensures !old(isReconnect) ==> reconnectSubscribers == old(reconnectSubscribers) && isActive == old(isActive)
      ensures old(isReconnect) ==>
        && reconnectSubscribers == []
        && isActive == (old(isActive) || old(reconnectSubscribers) != [])
        && lastCmdId == old(lastCmdId) + TotalCommands(old(reconnectSubscribers))
        && subscribersMap == old(subscribersMap) + Allocation(old(reconnectSubscribers), old(lastCmdId))
        && callbacks == old(callbacks) + ReconnectCallbacks(old(reconnectSubscribers))
    {
      Authenticate(token);
      ValuesUnchanged(cmdQueue);
      ResumeFlushed();
    }

    /** The second half of `OnOpenFlushed`, on the open socket. */
    method ResumeFlushed()
      requires Valid() && isOpened
      modifies this`isActive, this`isReconnect, this`lastCmdId, this`subscribersMap, this`mapOrder,
        this`reconnectSubscribers, this`cmdQueue, this`sent, this`callbacks, this`isOpening,
        this`requests, this`hasSocket, this`pendingRefreshes, CommandsOf(reconnectSubscribers)
      ensures Valid() && isOpened && cmdQueue == [] && !isReconnect
      ensures isOpening == old(isOpening) && requests == old(requests)
      ensures hasSocket == old(hasSocket) && pendingRefreshes == old(pendingRefreshes)
      ensures |old(sent)| <= |sent| && sent[..|old(sent)|] == old(sent)
      ensures !old(isReconnect) || old(reconnectSubscribers) == [] ==>
        && sent == old(sent) + PublishFrames(old(Values(cmdQueue)))
        && subscribersMap == old(subscribersMap) && lastCmdId == old(lastCmdId) && callbacks == old(callbacks)
      ensures !old(isReconnect) ==> reconnectSubscribers == old(reconnectSubscribers) && isActive == old(isActive)
      ensures old(isReconnect) ==>
        && reconnectSubscribers == []
        && isActive == (old(isActive) || old(reconnectSubscribers) != [])
        && lastCmdId == old(lastCmdId) + TotalCommands(old(reconnectSubscribers))
        && subscribersMap == old(subscribersMap) + Allocation(old(reconnectSubscribers), old(lastCmdId))
        && callbacks == old(callbacks) + ReconnectCallbacks(old(reconnectSubscribers))
    {
      if isReconnect {
        isReconnect := false;
        ValuesUnchanged(cmdQueue);
        ResubscribeFlushed();
      } else {
        PublishCommands();
      }
    }

    /** The reconnect branch of `OnOpenFlushed`: resubscribe, then publish what is
        still queued. */
    method ResubscribeFlushed()
      requires Valid() && isOpened
      modifies this`isActive, this`lastCmdId, this`subscribersMap, this`mapOrder, this`cmdQueue,
        this`sent, this`isOpening, this`requests, this`hasSocket, this`pendingRefreshes,
        this`callbacks, this`reconnectSubscribers, CommandsOf(reconnectSubscribers)
      ensures Valid() && isOpened && cmdQueue == []
      ensures reconnectSubscribers == []
      ensures isActive == (old(isActive) || old(reconnectSubscribers) != [])
      ensures lastCmdId == old(lastCmdId) + TotalCommands(old(reconnectSubscribers))
      ensures subscribersMap == old(subscribersMap) + Allocation(old(reconnectSubscribers), old(lastCmdId))
      ensures callbacks == old(callbacks) + ReconnectCallbacks(old(reconnectSubscribers))
      ensures isOpening == old(isOpening) && requests == old(requests)
      ensures hasSocket == old(hasSocket) && pendingRefreshes == old(pendingRefreshes)
      ensures |old(sent)| <= |sent| && sent[..|old(sent)|] == old(sent)
      ensures old(reconnectSubscribers) == [] ==> sent == old(sent) + PublishFrames(old(Values(cmdQueue)))
    {
      ghost var none := reconnectSubscribers == [];
      assert none ==> CommandsOf(reconnectSubscribers) == {};
      Resubscribe();
      if none {
        ValuesUnchanged(old(cmdQueue));
      }
      PublishCommands();
    }

    /** `onMessage`: a message that parsed and correlates with a registered id is
        handed to that subscriber's `onData`; anything else is dropped. No state
        other than the callback log changes. */
    method OnMessage(msg: Option<Msg>)
      modifies this`callbacks
      ensures Route(subscribersMap, msg).Some? ==>
        callbacks == old(callbacks) + [OnData(Route(subscribersMap, msg).value, msg.value)]
      ensures Route(subscribersMap, msg).None? ==> callbacks == old(callbacks)
    {
      var target := Route(subscribersMap, msg);
      if target.Some? {
        callbacks := callbacks + [OnData(target.value, msg.value)];
      }
    }

    /** `onError`: the open attempt is over; the socket stays as it is. */
    method OnError()
      requires Valid()
      modifies this`isOpening
      ensures Valid()
      ensures !isOpening
    {
      isOpening := false;
    }

    /** `onClose`: the connection is down. While active, a first close moves the
        registry's subscribers (each once, in registration order) into the reconnect
        set, empties the registry and marks the service as reconnecting; a close
        while already reconnecting leaves both alone. While active, exactly one
        reconnect timer is then pending, replacing any earlier one. */
    method OnClose()
      requires Valid()
      modifies this`isOpening, this`isOpened, this`reconnectSubscribers, this`subscribersMap,
        this`mapOrder, this`isReconnect, this`reconnectTimer
      ensures Valid() && Flushed()
      ensures !isOpening && !isOpened
      ensures isActive && !old(isReconnect) ==>
        && reconnectSubscribers == Dedup(OrderedValues(old(subscribersMap), old(mapOrder)))
        && subscribersMap == map[] && mapOrder == [] && isReconnect
      ensures !(isActive && !old(isReconnect)) ==>
        && reconnectSubscribers == old(reconnectSubscribers) && subscribersMap == old(subscribersMap)
        && mapOrder == old(mapOrder) && isReconnect == old(isReconnect)
      ensures reconnectTimer == if isActive then Some(RECONNECT_INTERVAL) else old(reconnectTimer)
    {
      isOpening := false;
      isOpened := false;
      if isActive {
        if !isReconnect {
          Suspend();
        }
        reconnectTimer := Some(RECONNECT_INTERVAL);
      }
    }

    /** The first close of an active service: the registered subscribers move to the
        reconnect set and the registry is emptied. */
    method Suspend()
      requires RegistryValid()
      modifies this`reconnectSubscribers, this`subscribersMap, this`mapOrder, this`isReconnect
      ensures RegistryValid() && Distinct(reconnectSubscribers)
      ensures reconnectSubscribers == Dedup(OrderedValues(old(subscribersMap), old(mapOrder)))
      ensures subscribersMap == map[] && mapOrder == [] && isReconnect
    {
      CollectSubscribers();
      subscribersMap := map[];
      mapOrder := [];
      isReconnect := true;
    }

    /** The loop of `onClose`: the set is cleared, then every registered subscriber is
        added in key insertion order; a subscriber already in the set is not added
        again. */
    method CollectSubscribers()
      requires RegistryValid()
      modifies this`reconnectSubscribers
      ensures reconnectSubscribers == Dedup(OrderedValues(subscribersMap, mapOrder))
    {
      var m, order := subscribersMap, mapOrder;
      ghost var vs := OrderedValues(m, order);
      var members: seq<Subscriber> := [];
      var k := 0;
      while k < |order|
        invariant 0 <= k <= |order|
        invariant members == Dedup(vs[..k])
        modifies {}
      {
        var sub := m[order[k]];
        assert vs[..k + 1][..k] == vs[..k] && vs[..k + 1][k] == sub;
        if sub !in members {
          members := members + [sub];
        }
        k := k + 1;
      }
      assert vs[..k] == vs;
      reconnectSubscribers := members;
    }

    /** The reconnect timer fired: it is no longer pending, and the service tries to
        open the socket. */
    method TimerFired()
      requires Valid() && reconnectTimer.Some?
      modifies this`reconnectTimer, this`isOpening, this`requests, this`hasSocket, this`pendingRefreshes
      ensures Valid()
      ensures reconnectTimer == None
      ensures OpenStep(old(Conn()))
    {
      reconnectTimer := None;
      TryOpenSocket();
    }

    /** `close`: deactivates the service and closes the socket if there is one. A
        pending reconnect timer is not cancelled. */
    method Close()
      requires Valid()
      modifies this`isActive, this`requests
      ensures Valid()
      ensures !isActive
      ensures requests == old(requests) + (if hasSocket then [CloseSocket] else [])
    {
      isActive := false;
      if hasSocket {
        requests := requests + [CloseSocket];
      }
    }
  }

}
