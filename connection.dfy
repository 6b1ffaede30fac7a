/**
 * One live dashboard socket (src/websocket/connection.rs): the actor bound to
 * a tenant scope, the one actor message it accepts, and its dispatch of
 * inbound WebSocket frames. The actor context's side effects (`ctx.text`,
 * `ctx.pong`, `ctx.stop`) become updates of a WebsocketContext object.
 */
module Connection {
  import opened Wrappers
  import opened ObjectIds

  /** The actor message asking a connection to announce a new log; it carries the log id only. */
  datatype SendLogId = SendLogId(logId: ObjectId)

  /** The address of one actor's mailbox; two addresses are equal iff they name the same actor. */
  datatype Addr = Addr(mailbox: nat)

  /** One message posted to an actor's mailbox with `do_send`. */
  datatype Envelope = Envelope(to: Addr, msg: SendLogId)

  /** The mailboxes of all actors together: every `do_send` appends one envelope, fire-and-forget. */
  class Outbox {
    var sent: seq<Envelope>

    constructor ()
      ensures sent == []
    {
      sent := [];
    }

    method DoSend(to: Addr, msg: SendLogId)
      modifies this
      ensures sent == old(sent) + [Envelope(to, msg)]
    {
      sent := sent + [Envelope(to, msg)];
    }
  }

  const LogIdPrefix: string := "New log ID: "

  /** The text frame sent for a SendLogId: the fixed prefix followed by the displayed log id. */
  function RenderLogId(msg: SendLogId): (text: string)
    ensures |text| == |LogIdPrefix| + 24
    ensures text[..|LogIdPrefix|] == LogIdPrefix
    ensures IsHexText(text[|LogIdPrefix|..])
  {
    LogIdPrefix + Display(msg.logId)
  }

  /** What a dashboard client has to do with such a frame: recognise the format and read the id back. */
  function ParseLogIdText(text: string): (msg: Option<SendLogId>)
  {
    var n := |LogIdPrefix|;
    if |text| == n + 24 && text[..n] == LogIdPrefix && IsHexText(text[n..])
    then Some(SendLogId(FromHex(text[n..])))
    else None
  }

  lemma ParseRenderLogId(msg: SendLogId)
    ensures ParseLogIdText(RenderLogId(msg)) == Some(msg)
  {
    var text := RenderLogId(msg);
    assert text[|LogIdPrefix|..] == Display(msg.logId);
  }

  lemma {:induction false} RenderParseLogId(text: string)
    requires ParseLogIdText(text).Some?
    ensures RenderLogId(ParseLogIdText(text).value) == text
  {
    var n := |LogIdPrefix|;
    ToHexFromHex(text[n..]);
    assert text == text[..n] + text[n..];
  }

  /** `ws::CloseReason`: a close code and an optional description. */
  datatype CloseReason = CloseReason(code: nat, description: Option<string>)

  /** `ws::Message`, the frames a client can send. */
  datatype Message =
    | Text(text: string)
    | Binary(data: seq<Byte>)
    | Continuation(data: seq<Byte>)
    | Ping(payload: seq<Byte>)
    | Pong(payload: seq<Byte>)
    | Close(reason: Option<CloseReason>)
    | Nop

  /** One item of the inbound stream: a frame, or a protocol error (`Result<ws::Message, ws::ProtocolError>`). */
  datatype StreamItem = Received(msg: Message) | ProtocolError(description: string)

  /** Frames the actor writes back to its client. */
  datatype OutFrame = TextFrame(text: string) | PongFrame(payload: seq<Byte>)

  datatype ActorState = Running | Stopped

  /** What handling one inbound item does: the frames written, and whether the actor stops. */
  datatype Reaction = Reaction(frames: seq<OutFrame>, stop: bool)

  /** Keep-alive and text frames are the only input the actor survives. */
  predicate KeepsRunning(item: StreamItem)
  {
    item.Received? && (item.msg.Ping? || item.msg.Pong? || item.msg.Text?)
  }

  /** The dispatch of `StreamHandler::handle`. */
  function React(item: StreamItem): (r: Reaction)
    ensures r.stop <==> !KeepsRunning(item)
    ensures item.Received? && item.msg.Ping? ==> r.frames == [PongFrame(item.msg.payload)]
    ensures !(item.Received? && item.msg.Ping?) ==> r.frames == []
  {
    match item
    case Received(Ping(payload)) => Reaction([PongFrame(payload)], false)
    case Received(Pong(_)) => Reaction([], false)
    case Received(Text(_)) => Reaction([], false)
    case Received(Close(_)) => Reaction([], true)
    case _ => Reaction([], true)
  }

  /** `ws::WebsocketContext`: the actor's lifecycle state and the frames written to its socket. */
  class WebsocketContext {
    var state: ActorState
    var frames: seq<OutFrame>

    constructor ()
      ensures state == Running && frames == []
    {
      state := Running;
      frames := [];
    }

    method SendText(text: string)
      modifies this
      ensures frames == old(frames) + [TextFrame(text)] && state == old(state)
    {
      frames := frames + [TextFrame(text)];
    }

    method SendPong(payload: seq<Byte>)
      modifies this
      ensures frames == old(frames) + [PongFrame(payload)] && state == old(state)
    {
      frames := frames + [PongFrame(payload)];
    }

    method Stop()
      modifies this
      ensures frames == old(frames) && state == Stopped
    {
      state := Stopped;
    }
  }

  /** `WebSocketActor`: one connection, bound to an organization and an application. */
  class WebSocketActor {
    var organizationId: ObjectId
    var applicationId: ObjectId

    constructor (organizationId: ObjectId, applicationId: ObjectId)
      ensures this.organizationId == organizationId && this.applicationId == applicationId
    {
      this.organizationId := organizationId;
      this.applicationId := applicationId;
    }

    /** `Handler<SendLogId>::handle`: one text frame, and the actor keeps its state. */
    method HandleSendLogId(msg: SendLogId, ctx: WebsocketContext)
      modifies ctx
      ensures ctx.frames == old(ctx.frames) + [TextFrame(RenderLogId(msg))]
      ensures ctx.state == old(ctx.state)
      ensures unchanged(this)
    {
      ctx.SendText(RenderLogId(msg));
    }

    /** `StreamHandler::handle`: answers pings, ignores pongs and text, stops on anything else. */
    method HandleStreamItem(item: StreamItem, ctx: WebsocketContext)
      modifies ctx
      ensures ctx.frames == old(ctx.frames) + React(item).frames
      ensures ctx.state == if React(item).stop then Stopped else old(ctx.state)
      ensures unchanged(this)
    {
      match item {
        case Received(Ping(payload)) => ctx.SendPong(payload);
        case Received(Pong(_)) =>
        case Received(Text(_)) =>
        case Received(Close(_)) => ctx.Stop();
        case _ => ctx.Stop();
      }
    }
  }
}
