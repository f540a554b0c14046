/** A reachable run of the service after which the socket is open and a command is
    still queued: the page drops its last subscription, the connection is lost, a new
    subscription is made while the service is reconnecting, and the socket opens
    again. `onOpen` resubscribes the empty reconnect set and never publishes the
    queue. The same run with `OnOpenFlushed` ends with the queue written out. */
module TelemetryWebsocketFindings {
  import opened Wrappers
  import opened Telemetry
  import opened WebsocketProtocol
  import opened TelemetryWebsocket

  /** A time-series command for one device key, before an id is assigned. */
  method NewTimeseriesCmd(entityId: string) returns (c: Cmd)
    ensures fresh(c)
    ensures c.Snapshot() == Envelope(0, "DEVICE", entityId, Some("temperature"), None, None, Some(TIMESERIES))
  {
    c := new Cmd(Envelope(0, "DEVICE", entityId, Some("temperature"), None, None, Some(TIMESERIES)));
  }

  /** A new service whose client holds a usable token. */
  method Created() returns (ws: TelemetryWebsocketService, token: string)
    ensures fresh(ws) && ws.Valid() && !ws.isActive && !ws.isOpened && !ws.isOpening && !ws.isReconnect
    ensures ws.subscribersMap == map[] && ws.mapOrder == [] && ws.lastCmdId == 0
    ensures ws.reconnectSubscribers == [] && ws.cmdQueue == []
    ensures Usable(ws.client.token, ws.client.tokenExpired) && ws.client.token == Some(token)
  {
    token := "jwt";
    var client := new AuthClient(Some(token), false);
    ws := new TelemetryWebsocketService("https://tb.example", client);
  }

  /** A first subscriber with one command, which gets id 1; the socket is requested
      with the stored token. */
  method Started(ws: TelemetryWebsocketService, token: string) returns (a: Subscriber)
    requires ws.Valid() && !ws.isActive && !ws.isOpened && !ws.isOpening && !ws.isReconnect
    requires ws.subscribersMap == map[] && ws.mapOrder == [] && ws.lastCmdId == 0
    requires ws.reconnectSubscribers == [] && ws.cmdQueue == []
    requires Usable(ws.client.token, ws.client.tokenExpired) && ws.client.token == Some(token)
    modifies ws
    ensures ws.Valid() && ws.isActive && !ws.isOpened && !ws.isReconnect
    ensures ws.subscribersMap == map[1 := a] && ws.reconnectSubscribers == []
    ensures |a.commands| == 1 && a.commands[0].cmdId == 1
    ensures Connect(ws.telemetryUri, token) in ws.requests
  {
    var c := NewTimeseriesCmd("d1");
    a := new Subscriber([c], false);
    ws.Subscribe(a);
    assert IdRange(0, 1, a) == map[1 := a];
  }

  /** The socket opens: the first subscription is written out. */
  method Opened(ws: TelemetryWebsocketService, a: Subscriber, token: string)
    requires ws.Valid() && ws.isActive && !ws.isReconnect && Connect(ws.telemetryUri, token) in ws.requests
    requires ws.subscribersMap == map[1 := a] && ws.reconnectSubscribers == []
    modifies ws
    ensures ws.Valid() && ws.isActive && ws.isOpened && !ws.isReconnect
    ensures ws.subscribersMap == map[1 := a] && ws.reconnectSubscribers == [] && ws.cmdQueue == []
  {
    assert CommandsOf(ws.reconnectSubscribers) == {};
    ws.OnOpen(token);
  }

  /** The only subscriber leaves: the registry is empty and the socket still open. */
  method Left(ws: TelemetryWebsocketService, a: Subscriber)
    requires ws.Valid() && ws.isActive && ws.isOpened && !ws.isReconnect
    requires ws.subscribersMap == map[1 := a] && ws.reconnectSubscribers == [] && ws.cmdQueue == []
    requires |a.commands| == 1 && a.commands[0].cmdId == 1
    modifies ws
    ensures ws.Valid() && ws.isActive && !ws.isReconnect
    ensures ws.subscribersMap == map[] && ws.mapOrder == [] && ws.reconnectSubscribers == [] && ws.cmdQueue == []
  {
    assert RetiredIds(Snapshots(a.commands)) == {1} by {
      assert Snapshots(a.commands) == [a.commands[0].Snapshot()];
    }
    ws.Unsubscribe(a);
    EmptyRegistryOrder(ws.subscribersMap, ws.mapOrder, ws.lastCmdId);
  }

  /** The connection is lost: the service is reconnecting with an empty reconnect set. */
  method Lost(ws: TelemetryWebsocketService)
    requires ws.Valid() && ws.isActive && !ws.isReconnect
    requires ws.subscribersMap == map[] && ws.mapOrder == [] && ws.reconnectSubscribers == [] && ws.cmdQueue == []
    modifies ws
    ensures ws.Valid() && ws.isActive && !ws.isOpened && !ws.isOpening && ws.isReconnect
    ensures ws.reconnectSubscribers == [] && ws.cmdQueue == []
  {
    ws.OnClose();
    assert OrderedValues(map[], []) == [];
  }

  /** A new subscriber with one command, while reconnecting: its command waits in the
      queue and a connection is requested. */
  method Rejoined(ws: TelemetryWebsocketService, token: string)
    requires ws.Valid() && ws.isActive && !ws.isOpened && !ws.isOpening && ws.isReconnect
    requires ws.reconnectSubscribers == [] && ws.cmdQueue == []
    requires Usable(ws.client.token, ws.client.tokenExpired) && ws.client.token == Some(token)
    modifies ws
    ensures ws.Valid() && ws.isReconnect && ws.reconnectSubscribers == [] && |ws.cmdQueue| == 1
    ensures Connect(ws.telemetryUri, token) in ws.requests
  {
    var d := NewTimeseriesCmd("d2");
    var b := new Subscriber([d], false);
    ws.Subscribe(b);
  }

  /** The run up to the second `onopen`: subscribe, open, unsubscribe, close, and
      subscribe again while reconnecting. The second subscription waits in the queue,
      the reconnect set is empty and a connection has been requested. */
  method ReconnectWithNewSubscriber() returns (ws: TelemetryWebsocketService, token: string)
    ensures fresh(ws) && ws.Valid()
    ensures ws.isReconnect && ws.reconnectSubscribers == [] && |ws.cmdQueue| == 1
    ensures Connect(ws.telemetryUri, token) in ws.requests
  {
    ws, token := Created();
    var a := Started(ws, token);
    Opened(ws, a, token);
    Left(ws, a);
    Lost(ws);
    Rejoined(ws, token);
  }

  /** `onOpen`, as written, leaves the second subscription queued on an open socket. */
  method StrandedSubscription() returns (isOpen: bool, backlog: nat)
    ensures isOpen && backlog == 1
  {
    var ws, token := ReconnectWithNewSubscriber();
    ws.OnOpen(token);
    isOpen, backlog := ws.isOpened, |ws.cmdQueue|;
  }

  /** With the queue published on every open, the same run leaves nothing queued. */
  method FlushedSubscription() returns (isOpen: bool, backlog: nat)
    ensures isOpen && backlog == 0
  {
    var ws, token := ReconnectWithNewSubscriber();
    ws.OnOpenFlushed(token);
    isOpen, backlog := ws.isOpened, |ws.cmdQueue|;
  }
}
