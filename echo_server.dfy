/**
 * server.js: an HTTP webhook that points the platform at
 * `ws://…/audio-stream/<callSid>`, and a WebSocket server that keeps, per call
 * SID, the connection in `activeConnections` and `{redirectSent,
 * audioChunksReceived, startTime}` in `callStates`. Each connection gets a
 * `connection_ack`, has its binary frames echoed back, and is sent one
 * redirect command by a 5-second timer; `close`, `error` and a `finished`
 * status callback remove the call from both maps.
 *
 * Node runs each handler to completion, so every event is one atomic step:
 * a pure function on a `Registry` value (`Connect`, `Receive`, `Fire`,
 * `Disconnect`, `Status`), applied in place by the methods of `Server`.
 */
module EchoServer {
  import opened Js
  import opened Jambonz

  const WS_URL := "ws://51.136.97.170:8080"
  const BACKEND_URL := "http://51.136.97.170:3000"

  // ---------------------------------------------------------------------------
  // POST /jambonz/webhook

  /** The request path the platform opens for a call: what `req.url` holds on connection. */
  function StreamPath(callSid: string): string
  {
    "/audio-stream/" + callSid
  }

  /** The stream URL for a call is read back to the same call SID by the connection handler. */
  lemma StreamUrlRoundTrip(callSid: string)
    ensures '/' !in callSid ==>
      LastSegment(StreamPath(callSid)) == callSid && LastSegment(WS_URL + StreamPath(callSid)) == callSid
  {
    if '/' !in callSid {
      assert StreamPath(callSid) == "/audio-stream" + "/" + callSid;
      LastSegmentAfterSlash("/audio-stream", callSid);
      assert WS_URL + StreamPath(callSid) == (WS_URL + "/audio-stream") + "/" + callSid;
      LastSegmentAfterSlash(WS_URL + "/audio-stream", callSid);
    }
  }

  /**
   * The `listen` directive of the webhook response. It streams mono audio at
   * 16000 Hz both ways to the call's own URL, reports status to
   * `/jambonz/status`, and reads no registry state.
   */
  function WebhookResponse(body: WebhookBody, now: nat): (d: Listen)
    ensures var sid := SelectCallSid(body, now);
      && d.url == WS_URL + StreamPath(sid)
      && ('/' !in sid ==> LastSegment(d.url) == sid)
    ensures d.mixType == "mono" && d.sampleRate == 16000
    ensures d.bidirectionalAudio == BidirectionalAudio(true, true, 16000)
    ensures d.actionHook == BACKEND_URL + "/jambonz/status"
  {
    var sid := SelectCallSid(body, now);
    StreamUrlRoundTrip(sid);
    ListenVerb(WS_URL + "/audio-stream/" + sid, BACKEND_URL + "/jambonz/status")
  }

  // ---------------------------------------------------------------------------
  // The registry

  /** A WebSocket connection, told apart by the order in which it was opened. */
  type ConnId = nat

  /** A connection: the call SID its handlers captured, and everything handed to its `send`. */
  datatype Socket = Socket(callSid: string, sent: seq<Outbound>)

  /** A pending 5-second timer: it captured the call SID and its own connection. */
  datatype Timer = Timer(callSid: string, conn: ConnId)

  /** Everything the handlers read and change. */
  datatype Registry = Registry(
    activeConnections: map<string, ConnId>,
    callStates: map<string, CallState>,
    sockets: map<ConnId, Socket>,
    closed: set<ConnId>,        // connections whose `close()` the status handler called
    timers: multiset<Timer>,
    nextConn: ConnId)

  function Initial(): Registry
  {
    Registry(map[], map[], map[], {}, multiset{}, 0)
  }

  function Send(k: Socket, m: Outbound): Socket
  {
    k.(sent := k.sent + [m])
  }

  /** `activeConnections.delete(sid); callStates.delete(sid)`. */
  function Forget(s: Registry, sid: string): (r: Registry)
    ensures sid !in r.activeConnections && sid !in r.callStates
    ensures AgreeExcept(r.activeConnections, s.activeConnections, sid)
    ensures AgreeExcept(r.callStates, s.callStates, sid)
    ensures r.sockets == s.sockets && r.closed == s.closed && r.timers == s.timers && r.nextConn == s.nextConn
  {
    s.(activeConnections := s.activeConnections - {sid}, callStates := s.callStates - {sid})
  }

  /** Removing a call twice is the same as removing it once. */
  lemma ForgetIdempotent(s: Registry, sid: string)
    ensures Forget(Forget(s, sid), sid) == Forget(s, sid)
  {
  }

  // ---------------------------------------------------------------------------
  // The events

  /**
   * `wss.on('connection')`: the call SID is the last `/`-segment of the
   * request path. Both maps are set for it, replacing whatever was there; the
   * new connection's first message is the `connection_ack` for that SID, and
   * one timer is armed for the pair (SID, connection).
   */
  function Connect(s: Registry, url: string, now: nat): (r: Registry)
    ensures var sid, c := LastSegment(url), s.nextConn;
      && sid in r.activeConnections && r.activeConnections[sid] == c
      && sid in r.callStates && r.callStates[sid] == CallState(false, 0, now)
      && AgreeExcept(r.activeConnections, s.activeConnections, sid)
      && AgreeExcept(r.callStates, s.callStates, sid)
      && r.sockets == s.sockets[c := Socket(sid, [ConnectionAck(sid, ACK_TEXT)])]
      && r.timers == s.timers + multiset{Timer(sid, c)}
      && r.closed == s.closed && r.nextConn == c + 1
  {
    var sid := LastSegment(url);
    var c := s.nextConn;
    Registry(
      s.activeConnections[sid := c],
      s.callStates[sid := FreshCallState(now)],
      s.sockets[c := Socket(sid, [Ack(sid)])],
      s.closed,
      s.timers + multiset{Timer(sid, c)},
      c + 1)
  }

  /**
   * `ws.on('message')`: while the connection's call has a state, a `Buffer`
   * frame raises the chunk count by one and is sent back unchanged on the
   * same connection. Anything else changes nothing.
   */
  function Receive(s: Registry, c: ConnId, data: Payload): (r: Registry)
    requires c in s.sockets
    ensures var sid := s.sockets[c].callSid;
      if sid in s.callStates && data.BufferData? then
        && r.callStates == s.callStates[sid := s.callStates[sid].(
             audioChunksReceived := s.callStates[sid].audioChunksReceived + 1)]
        && r.sockets.Keys == s.sockets.Keys
        && r.sockets[c] == s.sockets[c].(sent := s.sockets[c].sent + [Audio(data.bytes)])
        && (forall c' | c' in s.sockets && c' != c :: r.sockets[c'] == s.sockets[c'])
        && r.activeConnections == s.activeConnections && r.timers == s.timers
        && r.closed == s.closed && r.nextConn == s.nextConn
      else r == s
  {
    var sid := s.sockets[c].callSid;
    if sid !in s.callStates then s
    else if !data.BufferData? then s
    else
      var st := s.callStates[sid];
      s.(callStates := s.callStates[sid := st.(audioChunksReceived := st.audioChunksReceived + 1)],
         sockets := s.sockets[c := Send(s.sockets[c], Audio(data.bytes))])
  }

  /** The guard the timer checks before sending: state present, no redirect yet, still registered. */
  predicate RedirectDue(s: Registry, sid: string)
  {
    sid in s.callStates && !s.callStates[sid].redirectSent && sid in s.activeConnections
  }

  /**
   * The 5-second timer fires, once. If the redirect is due for its SID, the
   * redirect command goes out on the timer's own connection, and
   * `redirectSent` becomes true exactly when `sendOk` reports that send a
   * success. Otherwise nothing is sent and no state changes.
   */
  function Fire(s: Registry, t: Timer, sendOk: bool): (r: Registry)
    requires t in s.timers && t.conn in s.sockets
    ensures r.timers == s.timers - multiset{t}
    ensures r.sockets.Keys == s.sockets.Keys
    ensures r.sockets[t.conn] == s.sockets[t.conn].(sent :=
      s.sockets[t.conn].sent + (if RedirectDue(s, t.callSid) then [Redirect(BRIDGE_REDIRECT)] else []))
    ensures forall c | c in s.sockets && c != t.conn :: r.sockets[c] == s.sockets[c]
    ensures r.callStates.Keys == s.callStates.Keys
    ensures forall sid | sid in s.callStates ::
      r.callStates[sid] == s.callStates[sid].(redirectSent :=
        s.callStates[sid].redirectSent || (sid == t.callSid && RedirectDue(s, sid) && sendOk))
    ensures r.activeConnections == s.activeConnections && r.closed == s.closed && r.nextConn == s.nextConn
  {
    var s' := s.(timers := s.timers - multiset{t});
    var sid := t.callSid;
    if sid in s.callStates && !s.callStates[sid].redirectSent && sid in s.activeConnections then
      var sent := s'.(sockets := s.sockets[t.conn := Send(s.sockets[t.conn], Redirect(BRIDGE_REDIRECT))]);
      if sendOk then sent.(callStates := s.callStates[sid := s.callStates[sid].(redirectSent := true)])
      else sent
    else s'
  }

  /** `ws.on('close')` and `ws.on('error')`: remove the connection's call SID from both maps. */
  function Disconnect(s: Registry, c: ConnId): Registry
    requires c in s.sockets
  {
    Forget(s, s.sockets[c].callSid)
  }

  /**
   * POST /jambonz/status. Only `finished` acts: it closes the connection
   * registered for the SID, if there is one, and removes the SID from both
   * maps. `started`, `error` and anything else change nothing.
   */
  function Status(s: Registry, body: StatusBody): (r: Registry)
    ensures StatusOf(body) != Finished || StatusCallSid(body).None? ==> r == s
    ensures StatusOf(body) == Finished && StatusCallSid(body).Some? ==>
      var sid := StatusCallSid(body).value;
      && r == Forget(s, sid).(closed := r.closed)
      && r.closed == s.closed + (if sid in s.activeConnections then {s.activeConnections[sid]} else {})
  {
    match StatusOf(body)
    case Finished =>
      var key := StatusCallSid(body);
      if key.None? then s   // Map.has(undefined) and Map.delete(undefined) find nothing
      else
        var sid := key.value;
        var s' :=
          if sid in s.activeConnections then
            s.(closed := s.closed + {s.activeConnections[sid]},
               activeConnections := s.activeConnections - {sid})
          else s;
        s'.(callStates := s'.callStates - {sid})
    case _ => s
  }

  /** A frame that arrives after its call was removed is dropped and does not revive it. */
  lemma LateFrameDropped(s: Registry, c: ConnId, data: Payload)
    requires c in s.sockets
    ensures Receive(Disconnect(s, c), c, data) == Disconnect(s, c)
  {
  }

  /** Closing (or erroring) a connection twice is the same as once. */
  lemma DisconnectIdempotent(s: Registry, c: ConnId)
    requires c in s.sockets
    ensures Disconnect(Disconnect(s, c), c) == Disconnect(s, c)
  {
  }

  // ---------------------------------------------------------------------------
  // What every event keeps

  /** The connection registered for `sid` exists and was opened for `sid`. */
  predicate RegisteredFor(activeConnections: map<string, ConnId>, sockets: map<ConnId, Socket>, sid: string)
    requires sid in activeConnections
  {
    activeConnections[sid] in sockets && sockets[activeConnections[sid]].callSid == sid
  }

  /** Connection `c` was opened before the next one to be opened. */
  predicate Opened(nextConn: ConnId, c: ConnId)
  {
    c < nextConn
  }

  /**
   * Connection `c`'s log starts with its `connection_ack`, and the redirects
   * it was sent plus its timers still pending are at most one.
   */
  predicate LogWellFormed(sockets: map<ConnId, Socket>, timers: multiset<Timer>, c: ConnId)
    requires c in sockets
  {
    var k := sockets[c];
    && |k.sent| >= 1 && k.sent[0] == Ack(k.callSid)
    && BridgeMoves(k.sent) + timers[Timer(k.callSid, c)] <= 1
  }

  /** A pending timer belongs to an opened connection and carries that connection's call SID. */
  predicate TimerOf(sockets: map<ConnId, Socket>, t: Timer)
  {
    t.conn in sockets && sockets[t.conn].callSid == t.callSid
  }

  /** The two maps hold the same SIDs, each registered to a connection opened for it. */
  ghost predicate MapsInv(s: Registry)
  {
    && s.activeConnections.Keys == s.callStates.Keys
    && (forall sid {:trigger RegisteredFor(s.activeConnections, s.sockets, sid)} | sid in s.activeConnections ::
          RegisteredFor(s.activeConnections, s.sockets, sid))
    && s.closed <= s.sockets.Keys
  }

  /** Every connection's log is well formed, and every pending timer is one of theirs. */
  ghost predicate SocketsInv(s: Registry)
  {
    && (forall c {:trigger Opened(s.nextConn, c)} | c in s.sockets :: Opened(s.nextConn, c))
    && (forall c {:trigger LogWellFormed(s.sockets, s.timers, c)} | c in s.sockets ::
          LogWellFormed(s.sockets, s.timers, c))
    && (forall t {:trigger TimerOf(s.sockets, t)} | t in s.timers :: TimerOf(s.sockets, t))
  }

  ghost predicate Inv(s: Registry)
  {
    MapsInv(s) && SocketsInv(s)
  }

  lemma InitialInv()
    ensures Inv(Initial())
  {
  }

  lemma ConnectKeepsInv(s: Registry, url: string, now: nat)
    requires Inv(s)
    ensures Inv(Connect(s, url, now))
  {
    ConnectKeepsMaps(s, url, now);
    ConnectKeepsSockets(s, url, now);
  }

  lemma ConnectKeepsMaps(s: Registry, url: string, now: nat)
    requires MapsInv(s) && SocketsInv(s)
    ensures MapsInv(Connect(s, url, now))
  {
    var r, sid := Connect(s, url, now), LastSegment(url);
    forall sid' | sid' in r.activeConnections
      ensures RegisteredFor(r.activeConnections, r.sockets, sid')
    {
      if sid' != sid {
        assert RegisteredFor(s.activeConnections, s.sockets, sid');
        assert Opened(s.nextConn, s.activeConnections[sid']);
      }
    }
  }

  lemma ConnectKeepsSockets(s: Registry, url: string, now: nat)
    requires SocketsInv(s)
    ensures SocketsInv(Connect(s, url, now))
  {
    var r, sid, c := Connect(s, url, now), LastSegment(url), s.nextConn;
    forall t | t in s.timers
      ensures t.conn < c
    {
      assert TimerOf(s.sockets, t) && Opened(s.nextConn, t.conn);
    }
    assert BridgeMoves([Ack(sid)]) == 0 by {
      assert [] + [Ack(sid)] == [Ack(sid)];
      BridgeMovesAppend([], Ack(sid));
    }
    forall c' | c' in r.sockets
      ensures Opened(r.nextConn, c') && LogWellFormed(r.sockets, r.timers, c')
    {
      if c' != c {
        assert Opened(s.nextConn, c') && LogWellFormed(s.sockets, s.timers, c');
        assert Timer(r.sockets[c'].callSid, c') != Timer(sid, c);
      }
    }
    forall t | t in r.timers
      ensures TimerOf(r.sockets, t)
    {
      if t != Timer(sid, c) {
        assert TimerOf(s.sockets, t) && Opened(s.nextConn, t.conn);
      }
    }
  }

  lemma ReceiveKeepsInv(s: Registry, c: ConnId, data: Payload)
    requires Inv(s) && c in s.sockets
    ensures Inv(Receive(s, c, data))
  {
    ReceiveKeepsMaps(s, c, data);
    ReceiveKeepsSockets(s, c, data);
  }

  lemma ReceiveKeepsMaps(s: Registry, c: ConnId, data: Payload)
    requires MapsInv(s) && c in s.sockets
    ensures MapsInv(Receive(s, c, data))
  {
    var r := Receive(s, c, data);
    forall sid | sid in r.activeConnections
      ensures RegisteredFor(r.activeConnections, r.sockets, sid)
    {
      assert RegisteredFor(s.activeConnections, s.sockets, sid);
    }
  }

  lemma ReceiveKeepsSockets(s: Registry, c: ConnId, data: Payload)
    requires SocketsInv(s) && c in s.sockets
    ensures SocketsInv(Receive(s, c, data))
  {
    var r := Receive(s, c, data);
    if data.BufferData? {
      BridgeMovesAppend(s.sockets[c].sent, Audio(data.bytes));
    }
    forall c' | c' in r.sockets
      ensures Opened(r.nextConn, c') && LogWellFormed(r.sockets, r.timers, c')
    {
      assert Opened(s.nextConn, c') && LogWellFormed(s.sockets, s.timers, c');
    }
    forall t | t in r.timers
      ensures TimerOf(r.sockets, t)
    {
      assert TimerOf(s.sockets, t);
    }
  }

  lemma FireKeepsInv(s: Registry, t: Timer, sendOk: bool)
    requires Inv(s) && t in s.timers && t.conn in s.sockets
    ensures Inv(Fire(s, t, sendOk))
  {
    FireKeepsMaps(s, t, sendOk);
    FireKeepsSockets(s, t, sendOk);
  }

  lemma FireKeepsMaps(s: Registry, t: Timer, sendOk: bool)
    requires MapsInv(s) && t in s.timers && t.conn in s.sockets
    ensures MapsInv(Fire(s, t, sendOk))
  {
    var r := Fire(s, t, sendOk);
    forall sid | sid in r.activeConnections
      ensures RegisteredFor(r.activeConnections, r.sockets, sid)
    {
      assert RegisteredFor(s.activeConnections, s.sockets, sid);
    }
  }

  lemma FireKeepsSockets(s: Registry, t: Timer, sendOk: bool)
    requires SocketsInv(s) && t in s.timers && t.conn in s.sockets
    ensures SocketsInv(Fire(s, t, sendOk))
  {
    var r := Fire(s, t, sendOk);
    forall c | c in r.sockets
      ensures Opened(r.nextConn, c) && LogWellFormed(r.sockets, r.timers, c)
    {
      assert Opened(s.nextConn, c);
      FireKeepsLog(s, t, sendOk, c);
    }
    forall t' | t' in r.timers
      ensures TimerOf(r.sockets, t')
    {
      assert TimerOf(s.sockets, t');
    }
  }

  /** The timer consumed by `Fire` pays for the redirect it may append. */
  lemma FireKeepsLog(s: Registry, t: Timer, sendOk: bool, c: ConnId)
    requires SocketsInv(s) && t in s.timers && t.conn in s.sockets && c in s.sockets
    ensures LogWellFormed(Fire(s, t, sendOk).sockets, Fire(s, t, sendOk).timers, c)
  {
    var r := Fire(s, t, sendOk);
    assert TimerOf(s.sockets, t) && LogWellFormed(s.sockets, s.timers, c);
    if c == t.conn {
      BridgeMovesAppend(s.sockets[c].sent, Redirect(BRIDGE_REDIRECT));
    } else {
      assert Timer(r.sockets[c].callSid, c) != t;
    }
  }

  lemma DisconnectKeepsInv(s: Registry, c: ConnId)
    requires Inv(s) && c in s.sockets
    ensures Inv(Disconnect(s, c))
  {
    var r := Disconnect(s, c);
    forall sid | sid in r.activeConnections
      ensures RegisteredFor(r.activeConnections, r.sockets, sid)
    {
      assert RegisteredFor(s.activeConnections, s.sockets, sid);
    }
  }

  lemma StatusKeepsInv(s: Registry, body: StatusBody)
    requires Inv(s)
    ensures Inv(Status(s, body))
  {
    var r := Status(s, body);
    forall sid | sid in r.activeConnections
      ensures RegisteredFor(r.activeConnections, r.sockets, sid)
    {
      assert RegisteredFor(s.activeConnections, s.sockets, sid);
    }
    if StatusOf(body) == Finished && StatusCallSid(body).Some? {
      var sid := StatusCallSid(body).value;
      if sid in s.activeConnections {
        assert RegisteredFor(s.activeConnections, s.sockets, sid);
      }
    }
  }

  // ---------------------------------------------------------------------------
  // Any interleaving of events

  datatype Event =
    | Open(url: string, now: nat)
    | Frame(conn: ConnId, data: Payload)
    | TimerDue(timer: Timer, sendOk: bool)
    | SocketClose(conn: ConnId)
    | SocketError(conn: ConnId)
    | StatusCallback(body: StatusBody)

  /** Whether the runtime can deliver the event: it names an open connection or a pending timer. */
  predicate Deliverable(s: Registry, e: Event)
  {
    match e
    case Frame(c, _) => c in s.sockets
    case TimerDue(t, _) => t in s.timers && t.conn in s.sockets
    case SocketClose(c) => c in s.sockets
    case SocketError(c) => c in s.sockets
    case _ => true
  }

  /** One handler run to completion; an event that cannot be delivered changes nothing. */
  function Step(s: Registry, e: Event): Registry
  {
    if !Deliverable(s, e) then s
    else
      match e
      case Open(url, now) => Connect(s, url, now)
      case Frame(c, data) => Receive(s, c, data)
      case TimerDue(t, ok) => Fire(s, t, ok)
      case SocketClose(c) => Disconnect(s, c)
      case SocketError(c) => Disconnect(s, c)
      case StatusCallback(body) => Status(s, body)
  }

  function Run(s: Registry, events: seq<Event>): Registry
    decreases |events|
  {
    if events == [] then s else Run(Step(s, events[0]), events[1..])
  }

  lemma StepKeepsInv(s: Registry, e: Event)
    requires Inv(s)
    ensures Inv(Step(s, e))
  {
    if Deliverable(s, e) {
      match e
      case Open(url, now) => ConnectKeepsInv(s, url, now);
      case Frame(c, data) => ReceiveKeepsInv(s, c, data);
      case TimerDue(t, ok) => FireKeepsInv(s, t, ok);
      case SocketClose(c) => DisconnectKeepsInv(s, c);
      case SocketError(c) => DisconnectKeepsInv(s, c);
      case StatusCallback(body) => StatusKeepsInv(s, body);
    }
  }

  lemma {:induction false} RunKeepsInv(s: Registry, events: seq<Event>)
    requires Inv(s)
    ensures Inv(Run(s, events))
    decreases |events|
  {
    if events != [] {
      StepKeepsInv(s, events[0]);
      RunKeepsInv(Step(s, events[0]), events[1..]);
    }
  }

  /**
   * After any sequence of events from the empty registry: the two maps have
   * the same keys; every connection's first message is its `connection_ack`;
   * and no connection has been sent more than one redirect command.
   */
  lemma EveryRunIsConsistent(events: seq<Event>)
    ensures var s := Run(Initial(), events);
      && s.activeConnections.Keys == s.callStates.Keys
      && forall c | c in s.sockets ::
           && |s.sockets[c].sent| >= 1 && s.sockets[c].sent[0] == Ack(s.sockets[c].callSid)
           && BridgeMoves(s.sockets[c].sent) <= 1
  {
    InitialInv();
    RunKeepsInv(Initial(), events);
    var s := Run(Initial(), events);
    forall c | c in s.sockets
      ensures |s.sockets[c].sent| >= 1 && s.sockets[c].sent[0] == Ack(s.sockets[c].callSid)
      ensures BridgeMoves(s.sockets[c].sent) <= 1
    {
      assert LogWellFormed(s.sockets, s.timers, c);
    }
  }

  // ---------------------------------------------------------------------------
  // The server, updating its maps in place

  class Server {
    var activeConnections: map<string, ConnId>
    var callStates: map<string, CallState>
    var sockets: map<ConnId, Socket>
    var closed: set<ConnId>
    var timers: multiset<Timer>
    var nextConn: ConnId

    ghost function Snapshot(): Registry
      reads this
    {
      Registry(activeConnections, callStates, sockets, closed, timers, nextConn)
    }

    ghost predicate Valid()
      reads this
    {
      Inv(Snapshot())
    }

    constructor ()
      ensures Valid() && Snapshot() == Initial()
    {
      activeConnections, callStates := map[], map[];
      sockets, closed, timers, nextConn := map[], {}, multiset{}, 0;
      InitialInv();
    }

    /** `wss.on('connection', (ws, req) => …)` for a new connection with path `url`. */
    method OnConnection(url: string, now: nat) returns (c: ConnId)
      requires Valid()
      modifies this
      ensures Valid() && c == old(nextConn)
      ensures Snapshot() == Connect(old(Snapshot()), url, now)
    {
      ConnectKeepsInv(Snapshot(), url, now);
      var callSid := LastSegment(url);
      c := nextConn;
      nextConn := nextConn + 1;
      activeConnections := activeConnections[callSid := c];
      callStates := callStates[callSid := CallState(false, 0, now)];
      timers := timers + multiset{Timer(callSid, c)};
      sockets := sockets[c := Socket(callSid, [Ack(callSid)])];
    }

    /** `ws.on('message', data => …)` on connection `c`. */
    method OnMessage(c: ConnId, data: Payload)
      requires Valid() && c in sockets
      modifies this
      ensures Valid()
      ensures Snapshot() == Receive(old(Snapshot()), c, data)
    {
      ReceiveKeepsInv(Snapshot(), c, data);
      var callSid := sockets[c].callSid;
      if callSid !in callStates {
        return;
      }
      if data.BufferData? {
        var callState := callStates[callSid];
        callStates := callStates[callSid := callState.(audioChunksReceived := callState.audioChunksReceived + 1)];
        sockets := sockets[c := Send(sockets[c], Audio(data.bytes))];
      }
    }

    /** The `setTimeout` callback of timer `t`; `sendOk` is what the send callback reports. */
    method OnTimer(t: Timer, sendOk: bool)
      requires Valid() && t in timers && t.conn in sockets
      modifies this
      ensures Valid()
      ensures Snapshot() == Fire(old(Snapshot()), t, sendOk)
    {
      FireKeepsInv(Snapshot(), t, sendOk);
      timers := timers - multiset{t};
      var callSid := t.callSid;
      if callSid in callStates && !callStates[callSid].redirectSent && callSid in activeConnections {
        sockets := sockets[t.conn := Send(sockets[t.conn], Redirect(BRIDGE_REDIRECT))];
        if sendOk {
          callStates := callStates[callSid := callStates[callSid].(redirectSent := true)];
        }
      }
    }

    /** `ws.on('close')` on connection `c`. */
    method OnClose(c: ConnId)
      requires Valid() && c in sockets
      modifies this
      ensures Valid()
      ensures Snapshot() == Disconnect(old(Snapshot()), c)
    {
      DisconnectKeepsInv(Snapshot(), c);
      var callSid := sockets[c].callSid;
      activeConnections := activeConnections - {callSid};
      callStates := callStates - {callSid};
    }

    /** `ws.on('error')` on connection `c`: the same cleanup as `close`. */
    method OnError(c: ConnId)
      requires Valid() && c in sockets
      modifies this
      ensures Valid()
      ensures Snapshot() == Disconnect(old(Snapshot()), c)
    {
      DisconnectKeepsInv(Snapshot(), c);
      var callSid := sockets[c].callSid;
      activeConnections := activeConnections - {callSid};
      callStates := callStates - {callSid};
    }

    /** POST /jambonz/status with `body`. */
    method OnStatus(body: StatusBody)
      requires Valid()
      modifies this
      ensures Valid()
      ensures Snapshot() == Status(old(Snapshot()), body)
    {
      StatusKeepsInv(Snapshot(), body);
      var callSid := StatusCallSid(body);
      match StatusOf(body)
      case Finished =>
        if callSid.Some? {
          if callSid.value in activeConnections {
            closed := closed + {activeConnections[callSid.value]};
            activeConnections := activeConnections - {callSid.value};
          }
          callStates := callStates - {callSid.value};
        }
      case _ =>
    }
  }

  /**
   * A call whose status says `finished` before its timer fires is never
   * redirected: its connection is closed, both maps forget it, and the timer
   * finds nothing to do.
   */
  lemma FinishedBeforeRedirect(url: string, now: nat, sendOk: bool)
    requires LastSegment(url) != ""
    ensures var sid := LastSegment(url);
      var s1 := Connect(Initial(), url, now);
      var s2 := Status(s1, StatusBody(Some(sid), None, None, Some("finished")));
      var s3 := Fire(s2, Timer(sid, 0), sendOk);
      && s1.sockets[0].sent == [Ack(sid)] && s1.callStates[sid] == CallState(false, 0, now)
      && sid !in s2.activeConnections && sid !in s2.callStates && s2.closed == {0}
      && s3.sockets[0].sent == [Ack(sid)] && s3.timers == multiset{} && s3.callStates == map[]
  {
  }

  /**
   * On a live call, a frame is echoed and counted, and the timer then sends
   * the one redirect and, the send having succeeded, marks the call.
   */
  lemma RedirectAfterEcho(url: string, now: nat, frame: seq<byte>)
    ensures var sid := LastSegment(url);
      var s1 := Connect(Initial(), url, now);
      var s2 := Receive(s1, 0, BufferData(frame));
      var s3 := Fire(s2, Timer(sid, 0), true);
      && s2.sockets[0].sent == [Ack(sid), Audio(frame)]
      && s2.callStates[sid].audioChunksReceived == 1
      && s3.sockets[0].sent == [Ack(sid), Audio(frame), Redirect(BRIDGE_REDIRECT)]
      && s3.callStates[sid].redirectSent
  {
  }

  /**
   * Re-registration overwrites: when a second connection opens for the same
   * SID, the first one's `close` still removes the SID, so the live second
   * connection is no longer registered, and the first one's timer finds
   * nothing due.
   */
  lemma StaleCloseForgetsSuccessor(url: string, now1: nat, now2: nat, sendOk: bool)
    ensures var sid := LastSegment(url);
      var s2 := Connect(Connect(Initial(), url, now1), url, now2);
      var s3 := Disconnect(s2, 0);
      var s4 := Fire(s3, Timer(sid, 1), sendOk);
      && s2.activeConnections[sid] == 1 && s2.callStates[sid] == CallState(false, 0, now2)
      && 1 in s3.sockets && sid !in s3.activeConnections && sid !in s3.callStates
      && s4.sockets[1].sent == [Ack(sid)]
  {
  }

  /**
   * The at-most-one-redirect guarantee is per connection, not per call SID:
   * a call redirected on its first connection that connects again under the
   * same SID starts from a fresh state and is redirected again.
   */
  lemma SecondConnectionRedirectsAgain(url: string, now1: nat, now2: nat)
    ensures var sid := LastSegment(url);
      var s1 := Fire(Connect(Initial(), url, now1), Timer(sid, 0), true);
      var s2 := Fire(Connect(s1, url, now2), Timer(sid, 1), true);
      && s2.sockets[0].sent == [Ack(sid), Redirect(BRIDGE_REDIRECT)]
      && s2.sockets[1].sent == [Ack(sid), Redirect(BRIDGE_REDIRECT)]
      && s2.callStates[sid].redirectSent
  {
  }
}
