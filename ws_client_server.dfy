/**
 * server-ws-client.js: the same echo application written against the
 * platform's WebSocket client library. The webhook points every call at one
 * fixed stream URL; the library hands each stream over as a session carrying
 * its call SID. Per call SID, `activeSessions` keeps the session and
 * `callStates` keeps `{redirectSent, audioChunksReceived, startTime}`. Each
 * session gets a `connection_ack`, has its binary frames echoed back, and is
 * dialled to the bridge by a 5-second timer; `close`, `error` and a
 * `finished` status callback remove the call from both maps. Unlike
 * server.js, nothing ever sets `redirectSent`.
 *
 * As in server.js, every handler is one atomic step: a pure function on a
 * `Registry` value (`SessionNew`, `Receive`, `Fire`, `Disconnect`, `Status`),
 * applied in place by the methods of `SessionServer`.
 */
module WsClientServer {
  import opened Js
  import opened Jambonz

  const BACKEND_URL := "http://51.136.97.170:3001"

  // ---------------------------------------------------------------------------
  // POST /jambonz/webhook

  /** The stream URL of the webhook response: the same for every call. */
  const STREAM_URL := BACKEND_URL + "/audio-stream"

  /**
   * The `listen` directive of the webhook response: mono audio at 16000 Hz
   * both ways to the one stream URL, status reported to `/jambonz/status`.
   * The call SID is selected (with a clock reading `now`) but not used, and
   * no registry state is read.
   */
  function WebhookResponse(body: WebhookBody, now: nat): (d: Listen)
    ensures d.url == "http://51.136.97.170:3001/audio-stream"
    ensures d.mixType == "mono" && d.sampleRate == 16000
    ensures d.bidirectionalAudio == BidirectionalAudio(true, true, 16000)
    ensures d.actionHook == "http://51.136.97.170:3001/jambonz/status"
  {
    var callSid := SelectCallSid(body, now);
    ListenVerb(STREAM_URL, BACKEND_URL + "/jambonz/status")
  }

  /** Two calls, whatever their bodies and clocks, are pointed at the same stream. */
  lemma WebhookIgnoresCall(b1: WebhookBody, now1: nat, b2: WebhookBody, now2: nat)
    ensures WebhookResponse(b1, now1) == WebhookResponse(b2, now2)
  {
  }

  // ---------------------------------------------------------------------------
  // The registry

  /** A session, told apart by the order in which the library announced it. */
  type SessionId = nat

  /** A session: its `call_sid`, and everything handed to its `send` or `dial`. */
  datatype Session = Session(callSid: string, sent: seq<Outbound>)

  /** The dial every due timer issues: answer on bridge, to the fixed phone number. */
  const BRIDGE_DIAL := DialCall(true, [BRIDGE_TARGET])

  /**
   * Everything the handlers read and change. A pending timer captured its
   * session, and re-reads the state by that session's `call_sid`.
   */
  datatype Registry = Registry(
    activeSessions: map<string, SessionId>,
    callStates: map<string, CallState>,
    sessions: map<SessionId, Session>,
    closed: set<SessionId>,         // sessions whose `close()` the status handler called
    timers: multiset<SessionId>,
    nextSession: SessionId)

  function Initial(): Registry
  {
    Registry(map[], map[], map[], {}, multiset{}, 0)
  }

  function Send(k: Session, m: Outbound): Session
  {
    k.(sent := k.sent + [m])
  }

  /** `activeSessions.delete(sid); callStates.delete(sid)`. */
  function Forget(s: Registry, sid: string): (r: Registry)
    ensures sid !in r.activeSessions && sid !in r.callStates
    ensures AgreeExcept(r.activeSessions, s.activeSessions, sid)
    ensures AgreeExcept(r.callStates, s.callStates, sid)
    ensures r.sessions == s.sessions && r.closed == s.closed && r.timers == s.timers
    ensures r.nextSession == s.nextSession
  {
    s.(activeSessions := s.activeSessions - {sid}, callStates := s.callStates - {sid})
  }

  // ---------------------------------------------------------------------------
  // The events

  /**
   * `svc.on('session:new')` for a session whose `call_sid` is `callSid`:
   * both maps are set for it, replacing whatever was there; the session's
   * first message is the `connection_ack` for that SID, and one timer is
   * armed for the session.
   */
  function SessionNew(s: Registry, callSid: string, now: nat): (r: Registry)
    ensures var id := s.nextSession;
      && callSid in r.activeSessions && r.activeSessions[callSid] == id
      && callSid in r.callStates && r.callStates[callSid] == CallState(false, 0, now)
      && AgreeExcept(r.activeSessions, s.activeSessions, callSid)
      && AgreeExcept(r.callStates, s.callStates, callSid)
      && r.sessions == s.sessions[id := Session(callSid, [ConnectionAck(callSid, ACK_TEXT)])]
      && r.timers == s.timers + multiset{id}
      && r.closed == s.closed && r.nextSession == id + 1
  {
    var id := s.nextSession;
    Registry(
      s.activeSessions[callSid := id],
      s.callStates[callSid := FreshCallState(now)],
      s.sessions[id := Session(callSid, [Ack(callSid)])],
      s.closed,
      s.timers + multiset{id},
      id + 1)
  }

  /**
   * `onMessage(session, data)`: while the session's call has a state, a
   * `Buffer` frame raises the chunk count by one and is sent back unchanged
   * on the same session. Anything else changes nothing.
   */
  function Receive(s: Registry, id: SessionId, data: Payload): (r: Registry)
    requires id in s.sessions
    ensures var sid := s.sessions[id].callSid;
      if sid in s.callStates && data.BufferData? then
        && r.callStates == s.callStates[sid := s.callStates[sid].(
             audioChunksReceived := s.callStates[sid].audioChunksReceived + 1)]
        && r.sessions.Keys == s.sessions.Keys
        && r.sessions[id] == s.sessions[id].(sent := s.sessions[id].sent + [Audio(data.bytes)])
        && (forall id' | id' in s.sessions && id' != id :: r.sessions[id'] == s.sessions[id'])
        && r.activeSessions == s.activeSessions && r.timers == s.timers
        && r.closed == s.closed && r.nextSession == s.nextSession
      else r == s
  {
    var sid := s.sessions[id].callSid;
    if sid !in s.callStates then s
    else if !data.BufferData? then s
    else
      var st := s.callStates[sid];
      s.(callStates := s.callStates[sid := st.(audioChunksReceived := st.audioChunksReceived + 1)],
         sessions := s.sessions[id := Send(s.sessions[id], Audio(data.bytes))])
  }

  /** The guard the timer checks before dialling: state present, no redirect yet, still registered. */
  predicate DialDue(s: Registry, sid: string)
  {
    sid in s.callStates && !s.callStates[sid].redirectSent && sid in s.activeSessions
  }

  /**
   * The 5-second timer of session `id` fires, once. If the dial is due for
   * the session's SID, the session dials the bridge. No call state changes:
   * `redirectSent` stays as it was.
   */
  function Fire(s: Registry, id: SessionId): (r: Registry)
    requires id in s.timers && id in s.sessions
    ensures r.timers == s.timers - multiset{id}
    ensures r.sessions.Keys == s.sessions.Keys
    ensures r.sessions[id] == s.sessions[id].(sent :=
      s.sessions[id].sent + (if DialDue(s, s.sessions[id].callSid) then [BRIDGE_DIAL] else []))
    ensures forall id' | id' in s.sessions && id' != id :: r.sessions[id'] == s.sessions[id']
    ensures r.callStates == s.callStates && r.activeSessions == s.activeSessions
    ensures r.closed == s.closed && r.nextSession == s.nextSession
  {
    var s' := s.(timers := s.timers - multiset{id});
    var sid := s.sessions[id].callSid;
    if sid in s.callStates && !s.callStates[sid].redirectSent && sid in s.activeSessions then
      s'.(sessions := s.sessions[id := Send(s.sessions[id], BRIDGE_DIAL)])
    else s'
  }

  /** `onClose(session)` and `onError(session)`: remove the session's call SID from both maps. */
  function Disconnect(s: Registry, id: SessionId): Registry
    requires id in s.sessions
  {
    Forget(s, s.sessions[id].callSid)
  }

  /**
   * POST /jambonz/status. Only `finished` acts: it closes the session
   * registered for the SID, if there is one, and removes the SID from both
   * maps. `started`, `error` and anything else change nothing.
   */
  function Status(s: Registry, body: StatusBody): (r: Registry)
    ensures StatusOf(body) != Finished || StatusCallSid(body).None? ==> r == s
    ensures StatusOf(body) == Finished && StatusCallSid(body).Some? ==>
      var sid := StatusCallSid(body).value;
      && r == Forget(s, sid).(closed := r.closed)
      && r.closed == s.closed + (if sid in s.activeSessions then {s.activeSessions[sid]} else {})
  {
    match StatusOf(body)
    case Finished =>
      var key := StatusCallSid(body);
      if key.None? then s   // Map.has(undefined) and Map.delete(undefined) find nothing
      else
        var sid := key.value;
        var s' :=
          if sid in s.activeSessions then
            s.(closed := s.closed + {s.activeSessions[sid]},
               activeSessions := s.activeSessions - {sid})
          else s;
        s'.(callStates := s'.callStates - {sid})
    case _ => s
  }

  /** Closing (or erroring) a session twice is the same as once. */
  lemma DisconnectIdempotent(s: Registry, id: SessionId)
    requires id in s.sessions
    ensures Disconnect(Disconnect(s, id), id) == Disconnect(s, id)
  {
  }

  /** A frame that arrives after its call was removed is dropped and does not revive it. */
  lemma LateFrameDropped(s: Registry, id: SessionId, data: Payload)
    requires id in s.sessions
    ensures Receive(Disconnect(s, id), id, data) == Disconnect(s, id)
  {
  }

  // ---------------------------------------------------------------------------
  // What every event keeps

  /** The session registered for `sid` exists and carries `sid`. */
  predicate RegisteredFor(activeSessions: map<string, SessionId>, sessions: map<SessionId, Session>, sid: string)
    requires sid in activeSessions
  {
    activeSessions[sid] in sessions && sessions[activeSessions[sid]].callSid == sid
  }

  /** The state of `sid` has never been marked as redirected. */
  predicate NotRedirected(callStates: map<string, CallState>, sid: string)
    requires sid in callStates
  {
    !callStates[sid].redirectSent
  }

  /** Session `id` was announced before the next one to be announced. */
  predicate Opened(nextSession: SessionId, id: SessionId)
  {
    id < nextSession
  }

  /**
   * Session `id`'s log starts with its `connection_ack`, and the dials it
   * issued plus its timers still pending are at most one.
   */
  predicate LogWellFormed(sessions: map<SessionId, Session>, timers: multiset<SessionId>, id: SessionId)
    requires id in sessions
  {
    var k := sessions[id];
    && |k.sent| >= 1 && k.sent[0] == Ack(k.callSid)
    && BridgeMoves(k.sent) + timers[id] <= 1
  }

  /** A pending timer belongs to an announced session. */
  predicate Armed(sessions: map<SessionId, Session>, id: SessionId)
  {
    id in sessions
  }

  /**
   * The two maps hold the same SIDs, each registered to a session carrying
   * it, and no call state is marked as redirected.
   */
  ghost predicate MapsInv(s: Registry)
  {
    && s.activeSessions.Keys == s.callStates.Keys
    && (forall sid {:trigger RegisteredFor(s.activeSessions, s.sessions, sid)} | sid in s.activeSessions ::
          RegisteredFor(s.activeSessions, s.sessions, sid))
    && (forall sid {:trigger NotRedirected(s.callStates, sid)} | sid in s.callStates ::
          NotRedirected(s.callStates, sid))
    && s.closed <= s.sessions.Keys
  }

  /** Every session's log is well formed, and every pending timer is one of theirs. */
  ghost predicate SessionsInv(s: Registry)
  {
    && (forall id {:trigger Opened(s.nextSession, id)} | id in s.sessions :: Opened(s.nextSession, id))
    && (forall id {:trigger LogWellFormed(s.sessions, s.timers, id)} | id in s.sessions ::
          LogWellFormed(s.sessions, s.timers, id))
    && (forall id {:trigger Armed(s.sessions, id)} | id in s.timers :: Armed(s.sessions, id))
  }

  ghost predicate Inv(s: Registry)
  {
    MapsInv(s) && SessionsInv(s)
  }

  lemma InitialInv()
    ensures Inv(Initial())
  {
  }

  /** Since nothing sets `redirectSent`, a timer's dial is due exactly while its SID is registered. */
  lemma DialDueIffRegistered(s: Registry, sid: string)
    requires MapsInv(s)
    ensures DialDue(s, sid) <==> sid in s.activeSessions
  {
    if sid in s.activeSessions {
      assert NotRedirected(s.callStates, sid);
    }
  }

  lemma SessionNewKeepsInv(s: Registry, callSid: string, now: nat)
    requires Inv(s)
    ensures Inv(SessionNew(s, callSid, now))
  {
    SessionNewKeepsMaps(s, callSid, now);
    SessionNewKeepsSessions(s, callSid, now);
  }

  lemma SessionNewKeepsMaps(s: Registry, callSid: string, now: nat)
    requires MapsInv(s) && SessionsInv(s)
    ensures MapsInv(SessionNew(s, callSid, now))
  {
    var r := SessionNew(s, callSid, now);
    forall sid | sid in r.activeSessions
      ensures RegisteredFor(r.activeSessions, r.sessions, sid)
    {
      if sid != callSid {
        assert RegisteredFor(s.activeSessions, s.sessions, sid);
        assert Opened(s.nextSession, s.activeSessions[sid]);
      }
    }
    forall sid | sid in r.callStates
      ensures NotRedirected(r.callStates, sid)
    {
      if sid != callSid {
        assert NotRedirected(s.callStates, sid);
      }
    }
  }

  lemma SessionNewKeepsSessions(s: Registry, callSid: string, now: nat)
    requires SessionsInv(s)
    ensures SessionsInv(SessionNew(s, callSid, now))
  {
    var r, id := SessionNew(s, callSid, now), s.nextSession;
    forall id' | id' in s.timers
      ensures id' < id
    {
      assert Armed(s.sessions, id') && Opened(s.nextSession, id');
    }
    assert BridgeMoves([Ack(callSid)]) == 0 by {
      assert [] + [Ack(callSid)] == [Ack(callSid)];
      BridgeMovesAppend([], Ack(callSid));
    }
    forall id' | id' in r.sessions
      ensures Opened(r.nextSession, id') && LogWellFormed(r.sessions, r.timers, id')
    {
      if id' != id {
        assert Opened(s.nextSession, id') && LogWellFormed(s.sessions, s.timers, id');
      }
    }
    forall id' | id' in r.timers
      ensures Armed(r.sessions, id')
    {
      if id' != id {
        assert Armed(s.sessions, id');
      }
    }
  }

  lemma ReceiveKeepsInv(s: Registry, id: SessionId, data: Payload)
    requires Inv(s) && id in s.sessions
    ensures Inv(Receive(s, id, data))
  {
    ReceiveKeepsMaps(s, id, data);
    ReceiveKeepsSessions(s, id, data);
  }

  lemma ReceiveKeepsMaps(s: Registry, id: SessionId, data: Payload)
    requires MapsInv(s) && id in s.sessions
    ensures MapsInv(Receive(s, id, data))
  {
    var r := Receive(s, id, data);
    forall sid | sid in r.activeSessions
      ensures RegisteredFor(r.activeSessions, r.sessions, sid)
    {
      assert RegisteredFor(s.activeSessions, s.sessions, sid);
    }
    forall sid | sid in r.callStates
      ensures NotRedirected(r.callStates, sid)
    {
      assert NotRedirected(s.callStates, sid);
    }
  }

  lemma ReceiveKeepsSessions(s: Registry, id: SessionId, data: Payload)
    requires SessionsInv(s) && id in s.sessions
    ensures SessionsInv(Receive(s, id, data))
  {
    var r := Receive(s, id, data);
    forall id' | id' in r.sessions
      ensures Opened(r.nextSession, id') && LogWellFormed(r.sessions, r.timers, id')
    {
      assert Opened(s.nextSession, id');
      ReceiveKeepsLog(s, id, data, id');
    }
    forall id' | id' in r.timers
      ensures Armed(r.sessions, id')
    {
      assert Armed(s.sessions, id');
    }
  }

  /** An echoed frame is no bridge move, so each log stays well formed. */
  lemma ReceiveKeepsLog(s: Registry, id: SessionId, data: Payload, id': SessionId)
    requires SessionsInv(s) && id in s.sessions && id' in s.sessions
    ensures LogWellFormed(Receive(s, id, data).sessions, Receive(s, id, data).timers, id')
  {
    assert LogWellFormed(s.sessions, s.timers, id');
    if id' == id && data.BufferData? {
      BridgeMovesAppend(s.sessions[id].sent, Audio(data.bytes));
    }
  }

  lemma FireKeepsInv(s: Registry, id: SessionId)
    requires Inv(s) && id in s.timers && id in s.sessions
    ensures Inv(Fire(s, id))
  {
    FireKeepsMaps(s, id);
    FireKeepsSessions(s, id);
  }

  lemma FireKeepsMaps(s: Registry, id: SessionId)
    requires MapsInv(s) && id in s.timers && id in s.sessions
    ensures MapsInv(Fire(s, id))
  {
    var r := Fire(s, id);
    forall sid | sid in r.activeSessions
      ensures RegisteredFor(r.activeSessions, r.sessions, sid)
    {
      assert RegisteredFor(s.activeSessions, s.sessions, sid);
    }
  }

  lemma FireKeepsSessions(s: Registry, id: SessionId)
    requires SessionsInv(s) && id in s.timers && id in s.sessions
    ensures SessionsInv(Fire(s, id))
  {
    var r := Fire(s, id);
    forall id' | id' in r.sessions
      ensures Opened(r.nextSession, id') && LogWellFormed(r.sessions, r.timers, id')
    {
      assert Opened(s.nextSession, id');
      FireKeepsLog(s, id, id');
    }
    forall id' | id' in r.timers
      ensures Armed(r.sessions, id')
    {
      assert Armed(s.sessions, id');
    }
  }

  /** The timer consumed by `Fire` pays for the dial it may issue. */
  lemma FireKeepsLog(s: Registry, id: SessionId, id': SessionId)
    requires SessionsInv(s) && id in s.timers && id in s.sessions && id' in s.sessions
    ensures LogWellFormed(Fire(s, id).sessions, Fire(s, id).timers, id')
  {
    assert LogWellFormed(s.sessions, s.timers, id');
    if id' == id {
      BridgeMovesAppend(s.sessions[id].sent, BRIDGE_DIAL);
    }
  }

  lemma DisconnectKeepsInv(s: Registry, id: SessionId)
    requires Inv(s) && id in s.sessions
    ensures Inv(Disconnect(s, id))
  {
    var r := Disconnect(s, id);
    forall sid | sid in r.activeSessions
      ensures RegisteredFor(r.activeSessions, r.sessions, sid)
    {
      assert RegisteredFor(s.activeSessions, s.sessions, sid);
    }
    forall sid | sid in r.callStates
      ensures NotRedirected(r.callStates, sid)
    {
      assert NotRedirected(s.callStates, sid);
    }
  }

  lemma StatusKeepsInv(s: Registry, body: StatusBody)
    requires Inv(s)
    ensures Inv(Status(s, body))
  {
    var r := Status(s, body);
    forall sid | sid in r.activeSessions
      ensures RegisteredFor(r.activeSessions, r.sessions, sid)
    {
      assert RegisteredFor(s.activeSessions, s.sessions, sid);
    }
    forall sid | sid in r.callStates
      ensures NotRedirected(r.callStates, sid)
    {
      assert NotRedirected(s.callStates, sid);
    }
    if StatusOf(body) == Finished && StatusCallSid(body).Some? {
      var sid := StatusCallSid(body).value;
      if sid in s.activeSessions {
        assert RegisteredFor(s.activeSessions, s.sessions, sid);
      }
    }
  }

  // ---------------------------------------------------------------------------
  // Any interleaving of events

  datatype Event =
    | NewSession(callSid: string, now: nat)
    | Message(session: SessionId, data: Payload)
    | TimerDue(session: SessionId)
    | SessionClose(session: SessionId)
    | SessionError(session: SessionId)
    | StatusCallback(body: StatusBody)

  /** Whether the runtime can deliver the event: it names an announced session or a pending timer. */
  predicate Deliverable(s: Registry, e: Event)
  {
    match e
    case Message(id, _) => id in s.sessions
    case TimerDue(id) => id in s.timers && id in s.sessions
    case SessionClose(id) => id in s.sessions
    case SessionError(id) => id in s.sessions
    case _ => true
  }

  /** One handler run to completion; an event that cannot be delivered changes nothing. */
  function Step(s: Registry, e: Event): Registry
  {
    if !Deliverable(s, e) then s
    else
      match e
      case NewSession(callSid, now) => SessionNew(s, callSid, now)
      case Message(id, data) => Receive(s, id, data)
      case TimerDue(id) => Fire(s, id)
      case SessionClose(id) => Disconnect(s, id)
      case SessionError(id) => Disconnect(s, id)
      case StatusCallback(body) => Status(s, body)
  }

  function Run(s: Registry, events: seq<Event>): Registry
    decreases |events|
  {
    if events == [] then s else Run(Step(s, events[0]), events[1..])
  }

  lemma StepKeepsInv(s: Registry, e: Event)
    requires Inv(s)
    ensures Inv(Step(s, e))
  {
    if Deliverable(s, e) {
      match e
      case NewSession(callSid, now) => SessionNewKeepsInv(s, callSid, now);
      case Message(id, data) => ReceiveKeepsInv(s, id, data);
      case TimerDue(id) => FireKeepsInv(s, id);
      case SessionClose(id) => DisconnectKeepsInv(s, id);
      case SessionError(id) => DisconnectKeepsInv(s, id);
      case StatusCallback(body) => StatusKeepsInv(s, body);
    }
  }

  lemma {:induction false} RunKeepsInv(s: Registry, events: seq<Event>)
    requires Inv(s)
    ensures Inv(Run(s, events))
    decreases |events|
  {
    if events != [] {
      StepKeepsInv(s, events[0]);
      RunKeepsInv(Step(s, events[0]), events[1..]);
    }
  }

  /**
   * After any sequence of events from the empty registry: the two maps have
   * the same keys; no call state is marked as redirected; every session's
   * first message is its `connection_ack`; and no session has dialled the
   * bridge more than once.
   */
  lemma EveryRunIsConsistent(events: seq<Event>)
    ensures var s := Run(Initial(), events);
      && s.activeSessions.Keys == s.callStates.Keys
      && (forall sid | sid in s.callStates :: !s.callStates[sid].redirectSent)
      && forall id | id in s.sessions ::
           && |s.sessions[id].sent| >= 1 && s.sessions[id].sent[0] == Ack(s.sessions[id].callSid)
           && BridgeMoves(s.sessions[id].sent) <= 1
  {
    InitialInv();
    RunKeepsInv(Initial(), events);
    var s := Run(Initial(), events);
    forall sid | sid in s.callStates
      ensures !s.callStates[sid].redirectSent
    {
      assert NotRedirected(s.callStates, sid);
    }
    forall id | id in s.sessions
      ensures |s.sessions[id].sent| >= 1 && s.sessions[id].sent[0] == Ack(s.sessions[id].callSid)
      ensures BridgeMoves(s.sessions[id].sent) <= 1
    {
      assert LogWellFormed(s.sessions, s.timers, id);
    }
  }

  // ---------------------------------------------------------------------------
  // The server, updating its maps in place

  class SessionServer {
    var activeSessions: map<string, SessionId>
    var callStates: map<string, CallState>
    var sessions: map<SessionId, Session>
    var closed: set<SessionId>
    var timers: multiset<SessionId>
    var nextSession: SessionId

    ghost function Snapshot(): Registry
      reads this
    {
      Registry(activeSessions, callStates, sessions, closed, timers, nextSession)
    }

    ghost predicate Valid()
      reads this
    {
      Inv(Snapshot())
    }

    constructor ()
      ensures Valid() && Snapshot() == Initial()
    {
      activeSessions, callStates := map[], map[];
      sessions, closed, timers, nextSession := map[], {}, multiset{}, 0;
      InitialInv();
    }

    /** `svc.on('session:new', session => …)` for a session whose `call_sid` is `callSid`. */
    method OnSessionNew(callSid: string, now: nat) returns (id: SessionId)
      requires Valid()
      modifies this
      ensures Valid() && id == old(nextSession)
      ensures Snapshot() == SessionNew(old(Snapshot()), callSid, now)
    {
      SessionNewKeepsInv(Snapshot(), callSid, now);
      id := nextSession;
      nextSession := nextSession + 1;
      activeSessions := activeSessions[callSid := id];
      callStates := callStates[callSid := CallState(false, 0, now)];
      sessions := sessions[id := Session(callSid, [Ack(callSid)])];
      timers := timers + multiset{id};
    }

    /** `onMessage(session, data)` for session `id`. */
    method OnMessage(id: SessionId, data: Payload)
      requires Valid() && id in sessions
      modifies this
      ensures Valid()
      ensures Snapshot() == Receive(old(Snapshot()), id, data)
    {
      ReceiveKeepsInv(Snapshot(), id, data);
      var callSid := sessions[id].callSid;
      if callSid !in callStates {
        return;
      }
      if data.BufferData? {
        var callState := callStates[callSid];
        callStates := callStates[callSid := callState.(audioChunksReceived := callState.audioChunksReceived + 1)];
        sessions := sessions[id := Send(sessions[id], Audio(data.bytes))];
      }
    }

    /** The `setTimeout` callback armed for session `id`. */
    method OnTimer(id: SessionId)
      requires Valid() && id in timers && id in sessions
      modifies this
      ensures Valid()
      ensures Snapshot() == Fire(old(Snapshot()), id)
    {
      FireKeepsInv(Snapshot(), id);
      timers := timers - multiset{id};
      var callSid := sessions[id].callSid;
      if callSid in callStates && !callStates[callSid].redirectSent && callSid in activeSessions {
        sessions := sessions[id := Send(sessions[id], BRIDGE_DIAL)];
      }
    }

    /** `onClose(session)` for session `id`. */
    method OnClose(id: SessionId)
      requires Valid() && id in sessions
      modifies this
      ensures Valid()
      ensures Snapshot() == Disconnect(old(Snapshot()), id)
    {
      DisconnectKeepsInv(Snapshot(), id);
      var callSid := sessions[id].callSid;
      activeSessions := activeSessions - {callSid};
      callStates := callStates - {callSid};
    }

    /** `onError(session)` for session `id`: the same cleanup as `onClose`. */
    method OnError(id: SessionId)
      requires Valid() && id in sessions
      modifies this
      ensures Valid()
      ensures Snapshot() == Disconnect(old(Snapshot()), id)
    {
      DisconnectKeepsInv(Snapshot(), id);
      var callSid := sessions[id].callSid;
      activeSessions := activeSessions - {callSid};
      callStates := callStates - {callSid};
    }

    /** POST /jambonz/status with `body`. */
    method OnStatus(body: StatusBody)
      requires Valid()
      modifies this
      ensures Valid()
      ensures Snapshot() == Status(old(Snapshot()), body)
    {
      StatusKeepsInv(Snapshot(), body);
      var callSid := StatusCallSid(body);
      match StatusOf(body)
      case Finished =>
        if callSid.Some? {
          if callSid.value in activeSessions {
            closed := closed + {activeSessions[callSid.value]};
            activeSessions := activeSessions - {callSid.value};
          }
          callStates := callStates - {callSid.value};
        }
      case _ =>
    }
  }

  // ---------------------------------------------------------------------------
  // Scenarios

  /**
   * Because `redirectSent` is never set, the one timer of a live session
   * dials, and a second session for the same SID dials again on its own
   * timer: the guard stops nothing while the SID stays registered.
   */
  lemma EverySessionDials(callSid: string, now1: nat, now2: nat)
    ensures var s1 := Fire(SessionNew(Initial(), callSid, now1), 0);
      var s2 := Fire(SessionNew(s1, callSid, now2), 1);
      && s1.sessions[0].sent == [Ack(callSid), BRIDGE_DIAL]
      && s2.sessions[1].sent == [Ack(callSid), BRIDGE_DIAL]
      && s2.callStates[callSid] == CallState(false, 0, now2)
  {
  }

  /**
   * A call whose status says `finished` before its timer fires is never
   * dialled: its session is closed, both maps forget it, and the timer
   * finds nothing to do.
   */
  lemma FinishedBeforeDial(callSid: string, now: nat)
    ensures var s1 := SessionNew(Initial(), callSid, now);
      var s2 := Status(s1, StatusBody(Some(callSid), None, Some("finished"), None));
      var s3 := Fire(s2, 0);
      callSid != "" ==>
        && s2.closed == {0} && s2.activeSessions == map[] && s2.callStates == map[]
        && s3.sessions[0].sent == [Ack(callSid)] && s3.timers == multiset{}
  {
  }

  /**
   * Re-registration overwrites: when a second session arrives for the same
   * SID, the first one's `close` still removes the SID, so the live second
   * session is no longer registered, and its own timer then dials nothing.
   */
  lemma StaleCloseForgetsSuccessor(callSid: string, now1: nat, now2: nat)
    ensures var s2 := SessionNew(SessionNew(Initial(), callSid, now1), callSid, now2);
      var s3 := Disconnect(s2, 0);
      var s4 := Fire(s3, 1);
      && s2.activeSessions[callSid] == 1 && s2.callStates[callSid] == CallState(false, 0, now2)
      && 1 in s3.sessions && callSid !in s3.activeSessions && callSid !in s3.callStates
      && s4.sessions[1].sent == [Ack(callSid)]
  {
  }
}
