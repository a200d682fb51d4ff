/** The two commands that touch the websocket: the read that turns one
    inbound frame into an event (main.go:281-311) and the write of a user
    message (main.go:313-328). The socket itself is left out: a read is
    given as its outcome, already decoded from JSON, and a write as the
    error it returned, if any. */
module Wire {
  import opened Wrappers
  import opened GoStrings
  import opened Session

  /** The `content` field of an inbound frame. Round-info objects are given
      as their string-valued fields. */
  datatype Content =
    | NoContent
    | TextContent(text: string)
    | ObjectContent(fields: map<string, string>)

  /** One inbound JSON object: its `type` field (absent or a string) and its
      `content` field. */
  datatype Frame = Frame(tag: Option<string>, content: Content)

  /** The outcome of one websocket read. */
  datatype ReadResult = ReadFailed(reason: string) | Received(frame: Frame)

  const ChatTag := "ChatMessage"
  const OngoingRoundTag := "OngoingRoundInfo"
  const FinishedRoundTag := "FinishedRoundInfo"
  const FinishedGameTag := "FinishedGame"
  const PongTag := "PongMessage"

  /** The tags the client knows. */
  predicate IsKnownTag(tag: Option<string>) {
    tag == Some(ChatTag) || tag == Some(OngoingRoundTag) || tag == Some(FinishedRoundTag)
    || tag == Some(FinishedGameTag) || tag == Some(PongTag)
  }

  /** The content has the shape its tag calls for; the source panics on any
      other shape. */
  predicate WellTyped(f: Frame) {
    && (f.tag == Some(ChatTag) ==> f.content.TextContent?)
    && (f.tag == Some(OngoingRoundTag) ==> f.content.ObjectContent?)
    && (f.tag == Some(FinishedRoundTag) ==> f.content.ObjectContent?)
  }

  /** How Go's `%s` prints the `type` field: a string as it is, a missing
      field as "%!s(<nil>)". */
  function TagText(tag: Option<string>): (t: string)
    ensures tag.Some? ==> t == tag.value
    ensures tag.None? ==> t == "%!s(<nil>)"
  {
    match tag
    case Some(t) => t
    case None => "%!s(<nil>)"
  }

  /** The event a read produces (main.go:286-309). */
  function Decode(r: ReadResult): (e: Event)
    requires r.Received? ==> WellTyped(r.frame)
    ensures IsInbound(e)
    ensures e.WsFailed? <==> r.ReadFailed? || !IsKnownTag(r.frame.tag)
  {
    match r
    case ReadFailed(reason) => WsFailed("wsjson.Read: " + reason)
    case Received(Frame(tag, content)) =>
      if tag == Some(ChatTag) then WsChat(content.text)
      else if tag == Some(OngoingRoundTag) then WsOngoingRoundInfo(content.fields)
      else if tag == Some(FinishedRoundTag) then WsFinishedRoundInfo(content.fields)
      else if tag == Some(FinishedGameTag) then WsFinishedGame
      else if tag == Some(PongTag) then WsPong
      else WsFailed("unknown message type: " + TagText(tag))
  }

  /** A frame of an unknown tag, or without one, becomes an error event whose
      message ends with the tag; reading goes on (the event re-arms a read). */
  lemma UnknownTagReported(f: Frame, now: int, parseTime: string -> TimeParse)
    requires !IsKnownTag(f.tag)
    ensures Decode(Received(f)) == WsFailed("unknown message type: " + TagText(f.tag))
    ensures var m := Decode(Received(f)).message;
      |m| >= |TagText(f.tag)| && m[|m| - |TagText(f.tag)|..] == TagText(f.tag)
    ensures forall s: State :: Update(s, Decode(Received(f)), now, parseTime).cmds == [Listen]
  {
    var m := Decode(Received(f)).message;
    assert m == "unknown message type: " + TagText(f.tag);
  }

  /** The frame the server sends for an inbound event. */
  function FrameOf(e: Event): (f: Frame)
    requires IsInbound(e) && !e.WsFailed?
    ensures IsKnownTag(f.tag) && WellTyped(f)
  {
    match e
    case WsChat(text) => Frame(Some(ChatTag), TextContent(text))
    case WsOngoingRoundInfo(c) => Frame(Some(OngoingRoundTag), ObjectContent(c))
    case WsFinishedRoundInfo(c) => Frame(Some(FinishedRoundTag), ObjectContent(c))
    case WsFinishedGame => Frame(Some(FinishedGameTag), NoContent)
    case WsPong => Frame(Some(PongTag), NoContent)
  }

  /** Every known tag maps to its own event: decoding the frame of an event
      gives the event back, and a known, well-typed frame decodes to an
      event whose frame has the same tag and, where it is read, the same
      content. */
  lemma DecodeFrameOf(e: Event, f: Frame)
    requires IsInbound(e) && !e.WsFailed?
    requires IsKnownTag(f.tag) && WellTyped(f)
    ensures Decode(Received(FrameOf(e))) == e
    ensures FrameOf(Decode(Received(f))).tag == f.tag
    ensures f.tag != Some(FinishedGameTag) && f.tag != Some(PongTag) ==>
      FrameOf(Decode(Received(f))) == f
  {
  }

  const PingText := "/ping"
  const ManualPingMessage := "don't ping manually! this is handled automatically by the client"

  /** What running a Send command does: the text it writes to the socket,
      if any, and the event it reports back. */
  datatype SendEffect = SendEffect(written: Option<string>, reply: Event)

  /** `sendToWsServer` (main.go:313-328): "/ping" is refused without a
      write; anything else is written verbatim, and the reply tells whether
      the write succeeded. */
  function SendToServer(msg: string, writeError: Option<string>): (r: SendEffect)
    ensures r.written.None? <==> msg == PingText
    ensures r.written.Some? ==> r.written.value == msg
    ensures r.reply == SuccessSent <==> msg != PingText && writeError.None?
    ensures r.reply.Failed? <==> r.reply != SuccessSent
  {
    if msg == PingText then SendEffect(None, Failed(ManualPingMessage))
    else if writeError.Some? then SendEffect(Some(msg), Failed("c.Write: " + writeError.value))
    else SendEffect(Some(msg), SuccessSent)
  }

  /** Submitting a line that trims to "/ping" never writes it: when connected
      the reducer asks for the send, which refuses it and reports an error
      that lands in the error slot, input left in place. */
  lemma ManualPingRefused(s: State, writeError: Option<string>, now: int, parseTime: string -> TimeParse)
    requires TrimSpace(s.input) == PingText
    ensures var r := Update(s, KeyPress("enter"), now, parseTime);
      && r.next == s
      && forall c :: c in r.cmds ==> c.Send? && SendToServer(c.text, writeError).written == None
    ensures s.connected ==>
      var reply := SendToServer(PingText, writeError).reply;
      Update(s, reply, now, parseTime) == Step(s.(err := Some(ManualPingMessage)), [])
  {
    assert PingText != "/exit" && PingText != "/clear" && PingText != "";
    EnterSendsTrimmed(s, now, parseTime);
    var r := Update(s, KeyPress("enter"), now, parseTime);
    assert r.cmds == [] || r.cmds == [Send(PingText)];
    assert SendToServer(PingText, writeError) == SendEffect(None, Failed(ManualPingMessage));
    ErrorSlot(s, ManualPingMessage, now, parseTime);
  }

  /** A chat line submitted while connected is written verbatim after
      trimming; the input is cleared when the write succeeds and kept, with
      the error recorded, when it fails. */
  lemma SubmitThenReply(s: State, writeError: Option<string>, now: int, parseTime: string -> TimeParse)
    requires s.connected
    requires var t := TrimSpace(s.input); t != "" && t != "/exit" && t != "/clear" && t != PingText
    ensures var t := TrimSpace(s.input);
      var r := Update(s, KeyPress("enter"), now, parseTime);
      && r == Step(s, [Send(t)])
      && SendToServer(t, writeError).written == Some(t)
      && var after := Update(s, SendToServer(t, writeError).reply, now, parseTime);
      && after.cmds == []
      && (after.next.input == "" <==> writeError.None?)
      && (writeError.Some? ==> after.next == s.(err := Some("c.Write: " + writeError.value)))
  {
    var t := TrimSpace(s.input);
    EnterSendsTrimmed(s, now, parseTime);
    assert s.input != "";
    match writeError
    case None =>
      assert SendToServer(t, writeError) == SendEffect(Some(t), SuccessSent);
      SuccessSentClearsInput(s, now, parseTime);
    case Some(w) =>
      assert SendToServer(t, writeError) == SendEffect(Some(t), Failed("c.Write: " + w));
      ErrorSlot(s, "c.Write: " + w, now, parseTime);
  }
}
