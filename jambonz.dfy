/**
 * The vocabulary both servers share with the jambonz platform: the fields of
 * the call-setup webhook and of the status callback, the `listen` directive
 * returned to the platform, the per-call state, the frames that arrive on an
 * audio stream and the messages sent back on it.
 */
module Jambonz {
  import opened Js

  newtype byte = x: int | 0 <= x < 256

  // ---------------------------------------------------------------------------
  // Inbound HTTP bodies

  /** The two call-identifier fields of the webhook body. */
  datatype WebhookBody = WebhookBody(call_sid: Option<string>, callSid: Option<string>)

  /** The fields of the status-callback body that the handler reads. */
  datatype StatusBody = StatusBody(
    call_sid: Option<string>,
    callSid: Option<string>,
    listen_status: Option<string>,
    status: Option<string>)

  /**
   * `req.body.call_sid || req.body.callSid || \`call_${Date.now()}\``, with the
   * clock reading `now` (milliseconds) passed in. The result is never empty; a
   * synthesized SID is `call_` followed by the decimal digits of `now`.
   */
  function SelectCallSid(body: WebhookBody, now: nat): (sid: string)
    ensures sid != ""
    ensures Truthy(body.call_sid) ==> sid == body.call_sid.value
    ensures !Truthy(body.call_sid) && Truthy(body.callSid) ==> sid == body.callSid.value
    ensures !Truthy(body.call_sid) && !Truthy(body.callSid) ==>
      && |sid| > 5 && sid[..5] == "call_"
      && AllDigits(sid[5..]) && ParseDecimal(sid[5..]) == now
      && (sid[5] == '0' ==> now == 0)
      && '/' !in sid
  {
    var synthesized := "call_" + DecimalString(now);
    assert synthesized[5..] == DecimalString(now);
    ParseDecimalString(now);
    Or(Or(body.call_sid, body.callSid), Some(synthesized)).value
  }

  /**
   * `req.body.call_sid || req.body.callSid`: `call_sid` when truthy, otherwise
   * `callSid` as it is. It is `undefined` only when `call_sid` is falsy and
   * `callSid` is absent, and it is `""` when `call_sid` is falsy and `callSid`
   * is `""`.
   */
  function StatusCallSid(body: StatusBody): (key: Option<string>)
    ensures Truthy(body.call_sid) ==> key == body.call_sid
    ensures !Truthy(body.call_sid) ==> key == body.callSid
    ensures key.None? <==> !Truthy(body.call_sid) && body.callSid.None?
  {
    Or(body.call_sid, body.callSid)
  }

  datatype StatusKind = Started | Finished | Failed | Unknown

  /** The `switch` on `req.body.listen_status || req.body.status`. */
  function StatusOf(body: StatusBody): (k: StatusKind)
    ensures k == Finished <==>
      (Truthy(body.listen_status) && body.listen_status.value == "finished") ||
      (!Truthy(body.listen_status) && body.status == Some("finished"))
  {
    var status := Or(body.listen_status, body.status);
    if status == Some("started") then Started
    else if status == Some("finished") then Finished
    else if status == Some("error") then Failed
    else Unknown
  }

  // ---------------------------------------------------------------------------
  // The listen directive

  const MIX_TYPE := "mono"
  const SAMPLE_RATE: nat := 16000

  datatype BidirectionalAudio = BidirectionalAudio(enabled: bool, streaming: bool, sampleRate: nat)

  datatype Listen = Listen(
    url: string,
    mixType: string,
    actionHook: string,
    sampleRate: nat,
    bidirectionalAudio: BidirectionalAudio)

  /** The `listen` verb both servers put in their webhook response, for a stream URL and a status hook. */
  function ListenVerb(url: string, actionHook: string): Listen
  {
    Listen(url, MIX_TYPE, actionHook, SAMPLE_RATE, BidirectionalAudio(true, true, SAMPLE_RATE))
  }

  // ---------------------------------------------------------------------------
  // The bridge command

  /** A dial target: `{type, number}`. */
  datatype Target = Target(kind: string, number: string)

  /** One entry of a redirect command's `data`: `{verb, answerOnBridge, target}`. */
  datatype DialVerb = DialVerb(verb: string, answerOnBridge: bool, target: seq<Target>)

  /** `{type, command, queueCommand, data}`. */
  datatype RedirectCommand = RedirectCommand(kind: string, command: string, queueCommand: bool, data: seq<DialVerb>)

  /** The one fixed destination both servers bridge the call to. */
  const BRIDGE_TARGET := Target("phone", "1111962797073022")

  /** The redirect command of server.js: dial the fixed phone number, answering on bridge, not queued. */
  const BRIDGE_REDIRECT := RedirectCommand("command", "redirect", false, [DialVerb("dial", true, [BRIDGE_TARGET])])

  // ---------------------------------------------------------------------------
  // The audio stream

  /** What a `message` handler receives: a Node `Buffer` or something else. */
  datatype Payload = BufferData(bytes: seq<byte>) | OtherData(text: string)

  const ACK_TEXT := "WebSocket connection established for audio streaming"

  /** A message handed to a connection's `send` (or, for `DialCall`, to the session's `dial`). */
  datatype Outbound =
    | ConnectionAck(callSid: string, message: string)
    | Audio(frame: seq<byte>)
    | Redirect(command: RedirectCommand)
    | DialCall(answerOnBridge: bool, target: seq<Target>)
  {
    /** Both a redirect command and a dial move the call into the bridge. */
    predicate MovesToBridge()
    {
      Redirect? || DialCall?
    }
  }

  /** The `connection_ack` control message for a call. */
  function Ack(callSid: string): Outbound
  {
    ConnectionAck(callSid, ACK_TEXT)
  }

  /** How many messages of a log move the call into the bridge. */
  function BridgeMoves(log: seq<Outbound>): nat
  {
    if log == [] then 0
    else BridgeMoves(log[..|log| - 1]) + (if log[|log| - 1].MovesToBridge() then 1 else 0)
  }

  /** Appending a message adds one bridge move exactly when the message is one. */
  lemma BridgeMovesAppend(log: seq<Outbound>, m: Outbound)
    ensures BridgeMoves(log + [m]) == BridgeMoves(log) + (if m.MovesToBridge() then 1 else 0)
  {
    assert (log + [m])[..|log|] == log;
  }

  /** `{redirectSent, audioChunksReceived, startTime}`. */
  datatype CallState = CallState(redirectSent: bool, audioChunksReceived: nat, startTime: nat)

  /** The state a newly registered call starts in. */
  function FreshCallState(now: nat): CallState
  {
    CallState(false, 0, now)
  }
}
