/** The reply chain: which IDs the bridge stores for Octopus messages, and which message a reply
    refers to on the other side. */
module Replies {
  import opened Wrappers
  import opened MessageIds
  import J = Json
  import P = Protocol
  import Rpc

  const REVOKE := "revoke"
  const CONVERTIBLE: set<string> := {"text", "image", "sticker", "audio", "video", "file", "location", "app", REVOKE}

  /** The fields of octopus.Message that take part; reply is Reply.ID. */
  datatype Message = Message(
    id: string, timestamp: int, from: string, chat: string, chatType: int, kind: string, reply: Option<string>)

  // ---------- From Octopus to Matrix ----------

  /** The ID under which the bridge stores the message; softRevoke is on. */
  function GetId(m: Message): string {
    if m.kind == REVOKE then MakeFakeMessageId(m.chat, "revoke-" + m.id) else MakeMessageId(m.chat, m.id)
  }

  function GetTargetMessage(m: Message): string {
    MakeMessageId(m.chat, m.id)
  }

  /** ReplyTo of the converted message; None stands for the nil dereference that a message of
      another kind runs into. */
  function Converted(m: Message): Option<Option<string>> {
    if m.kind !in CONVERTIBLE then None
    else if m.kind == REVOKE then Some(Some(MakeMessageId(m.chat, m.id)))
    else if m.reply.Some? then Some(Some(MakeMessageId(m.chat, m.reply.value)))
    else Some(None)
  }

  // ---------- From Matrix to Octopus ----------

  /** What SendMessage returns, as far as the handler looks at it. */
  datatype SendAnswer = SendFailed | SentNil | SendPanics | SentAs(id: string, timestamp: int)

  function SentId(m: J.Val): string {
    if m.VPtr? && m.v.VStruct? && |m.v.vs| == 10 && m.v.vs[0].VString? then m.v.vs[0].s else ""
  }

  function SentTime(m: J.Val): int {
    if m.VPtr? && m.v.VStruct? && |m.v.vs| == 10 && m.v.vs[2].VInt? then m.v.vs[2].i else 0
  }

  function AnswerOf(c: Rpc.CallResult): SendAnswer {
    match c
    case Got(v) => if v == J.VNil then SentNil else SentAs(SentId(v), SentTime(v))
    case NoData => SentNil
    case Failed => SendFailed
    case Panic => SendPanics
  }

  datatype HandleResult =
    | Stored(messageId: string, sender: string, timestamp: int)
    | NotLoggedIn
    | NotConvertible
    | UnknownChatType
    | BadReply(e: ParseError)
    | NotSent
    | NilDereference             // a panic
    | WrongType                  // a panic inside SendMessage

  datatype MatrixEvent = MatrixEvent(
    id: string, timestamp: int, portal: string, chatType: int, replyTo: Option<string>)

  /** The message HandleMatrixMessage passes to SendMessage, or why it passes none. */
  function Outgoing(loggedIn: bool, login: string, kind: Option<string>, ev: MatrixEvent)
    : Result<Message, HandleResult>
  {
    if !loggedIn then Failure(NotLoggedIn)
    else if kind.None? then Failure(NotConvertible)
    else if ev.chatType != 1 && ev.chatType != 2 then Failure(UnknownChatType)
    else
      match ev.replyTo
      case None => Success(Message(ev.id, ev.timestamp, login, ev.portal, ev.chatType, kind.value, None))
      case Some(target) =>
        match ParseMessageId(target)
        case Failure(e) => Failure(BadReply(e))
        case Success(p) => Success(Message(ev.id, ev.timestamp, login, ev.portal, ev.chatType, kind.value, Some(p.id)))
  }

  function StoredAs(login: string, portal: string, answer: SendAnswer): HandleResult {
    match answer
    case SendFailed => NotSent
    case SentNil => NilDereference
    case SendPanics => WrongType
    case SentAs(id, ts) => Stored(MakeMessageId(portal, id), login, ts)
  }

  class OctopusMessage {
    var id: string
    var timestamp: int
    var from: string
    var chat: string
    var chatType: int
    var kind: string
    var reply: Option<string>

    constructor (kind: string)
      ensures this.kind == kind && reply == None
    {
      this.kind := kind;
      id, timestamp, from, chat, chatType, reply := "", 0, "", "", 0, None;
    }

    function View(): Message
      reads this
    {
      Message(id, timestamp, from, chat, chatType, kind, reply)
    }

    /** convertRevokeMessage overwrites the reply. */
    method ConvertRevoke()
      modifies this`reply
      ensures reply == Some(id)
    {
      reply := Some(id);
    }

    /** ToMatrix, as far as the reply goes. */
    method ToMatrix() returns (replyTo: Option<Option<string>>)
      modifies this`reply
      ensures replyTo == Converted(old(View()))
      ensures replyTo == None <==>
        kind !in {"text", "image", "sticker", "audio", "video", "file", "location", "app", "revoke"}
      ensures replyTo == Some(None) <==> replyTo != None && kind != "revoke" && old(reply) == None
      ensures replyTo != None && replyTo.value != None ==>
        replyTo.value.value == chat + ":" + if kind == "revoke" then id else old(reply).value
      ensures reply == if kind == REVOKE then Some(id) else old(reply)
    {
      if kind !in CONVERTIBLE {
        return None;
      }
      if kind == REVOKE {
        ConvertRevoke();
      }
      if reply.Some? {
        return Some(Some(MakeMessageId(chat, reply.value)));
      }
      return Some(None);
    }
  }

  /** HandleMatrixMessage fills the message in step by step; `kind` is what ToOctopus made of
      the content, `result` is what the call of SendMessage will come to. */
  method HandleMatrixMessage(loggedIn: bool, login: string, kind: Option<string>, ev: MatrixEvent,
                             result: Rpc.CallResult)
    returns (sent: OctopusMessage?, r: HandleResult)
    ensures var o := Outgoing(loggedIn, login, kind, ev);
      if o.Success? then
        sent != null && fresh(sent) && sent.View() == o.value && r == StoredAs(login, ev.portal, AnswerOf(result))
      else sent == null && r == o.error
    ensures sent != null ==>
      && sent.id == ev.id && sent.timestamp == ev.timestamp && sent.from == login && sent.chat == ev.portal
      && sent.chatType == ev.chatType && kind == Some(sent.kind) && (sent.reply == None <==> ev.replyTo == None)
  {
    if !loggedIn {
      return null, NotLoggedIn;
    }
    if kind.None? {
      return null, NotConvertible;
    }
    var msg := new OctopusMessage(kind.value);
    msg.id := ev.id;
    msg.timestamp := ev.timestamp;
    msg.from := login;
    msg.chat := ev.portal;
    if ev.chatType == 1 {
      msg.chatType := 1;
    } else if ev.chatType == 2 {
      msg.chatType := 2;
    } else {
      return null, UnknownChatType;
    }
    if ev.replyTo.Some? {
      var p := ParseMessageId(ev.replyTo.value);
      if p.Failure? {
        return null, BadReply(p.error);
      }
      msg.reply := Some(p.value.id);
    }
    sent := msg;
    match AnswerOf(result) {
      case SendFailed => r := NotSent;
      case SentNil => r := NilDereference;
      case SendPanics => r := WrongType;
      case SentAs(id, ts) => r := Stored(MakeMessageId(msg.chat, id), login, ts);
    }
  }

  /** A message is sent exactly for a logged-in user, convertible content, a known chat type and
      no reply or a reply to a message of a clean chat; every field of it comes from the event. */
  lemma OutgoingIff(loggedIn: bool, login: string, kind: Option<string>, ev: MatrixEvent, m: Message)
    ensures Outgoing(loggedIn, login, kind, ev) == Success(m) <==>
      && loggedIn && kind == Some(m.kind) && ev.chatType in {1, 2}
      && m.id == ev.id && m.timestamp == ev.timestamp && m.from == login
      && m.chat == ev.portal && m.chatType == ev.chatType
      && (m.reply == None <==> ev.replyTo == None)
      && (m.reply != None && ev.replyTo != None ==>
            exists chat :: Clean(chat) && ev.replyTo.value == MakeMessageId(chat, m.reply.value))
  {
    if ev.replyTo.Some? {
      forall chat, id
        ensures ParseMessageId(ev.replyTo.value) == Success(ParsedId(chat, id)) <==>
                Clean(chat) && ev.replyTo.value == MakeMessageId(chat, id)
      {
        ParseIff(ev.replyTo.value, chat, id);
      }
    }
  }

  /** Which error exit is taken, the first that applies. */
  lemma NotSentIff(loggedIn: bool, login: string, kind: Option<string>, ev: MatrixEvent)
    ensures var o := Outgoing(loggedIn, login, kind, ev);
      var target := if ev.replyTo == None then "" else ev.replyTo.value;
      && (o == Failure(NotLoggedIn) <==> !loggedIn)
      && (o == Failure(NotConvertible) <==> loggedIn && kind == None)
      && (o == Failure(UnknownChatType) <==> loggedIn && kind != None && ev.chatType !in {1, 2})
      && (o == Failure(BadReply(InvalidId)) <==>
            loggedIn && kind != None && ev.chatType in {1, 2} && ev.replyTo != None && ':' !in target)
      && (o == Failure(BadReply(FakeId)) <==>
            loggedIn && kind != None && ev.chatType in {1, 2} && ev.replyTo != None && "fake:" <= target)
  {
    if ev.replyTo != None { RejectIff(ev.replyTo.value); }
  }

  // ---------- The chain ----------

  /** A Matrix reply to a stored Octopus message carries that message's own id, exactly if the
      chat is clean and the message is no revoke notice. */
  lemma ReplyCarriesIdIff(m: Message, login: string, kind: string, ev: MatrixEvent)
    requires ev.chatType in {1, 2} && ev.replyTo == Some(GetId(m))
    ensures var o := Outgoing(true, login, Some(kind), ev);
      (o.Success? && o.value.reply == Some(m.id)) <==> Clean(m.chat) && m.kind != REVOKE
  {
    if m.kind == REVOKE {
      FakeIsRejected(m.chat, "revoke-" + m.id);
    } else {
      var p := ParseMessageId(GetId(m));
      if p.Success? && p.value.id == m.id {
        ParseIff(GetId(m), p.value.chat, p.value.id);
        assert |p.value.chat| == |m.chat|;
        assert GetId(m)[..|m.chat|] == m.chat && GetId(m)[..|m.chat|] == p.value.chat;
      }
      ParseMakeIff(m.chat, m.id);
    }
  }

  /** Nobody can reply to a revoke notice, and its stored ID is that of no message of a clean
      chat; on Matrix it replies to exactly the message that GetTargetMessage names, whatever
      it replied to before. */
  lemma RevokeNotice(m: Message, loggedIn: bool, login: string, kind: Option<string>, ev: MatrixEvent, other: Message)
    requires m.kind == REVOKE
    ensures ev.replyTo == Some(GetId(m)) ==> Outgoing(loggedIn, login, kind, ev).Failure?
    ensures Clean(other.chat) && other.kind != REVOKE ==> GetId(other) != GetId(m)
    ensures Converted(m) == Some(Some(GetTargetMessage(m)))
    ensures forall r :: Converted(m.(reply := r)) == Converted(m)
  {
    FakeIsRejected(m.chat, "revoke-" + m.id);
    if Clean(other.chat) && other.kind != REVOKE {
      FakeIsNeverReal(other.chat, other.id, m.chat, "revoke-" + m.id);
    }
  }

  /** The notices of different revoked messages are stored under different IDs. */
  lemma RevokesDiffer(m: Message, other: Message)
    requires m.kind == REVOKE && other.kind == REVOKE && ':' !in m.chat && ':' !in other.chat
    ensures GetId(m) == GetId(other) <==> m.chat == other.chat && m.id == other.id
  {
    if GetId(m) == GetId(other) {
      var x, y := "revoke-" + m.id, "revoke-" + other.id;
      FakeIsRejected(m.chat, x);
      FakeIsRejected(other.chat, y);
      MakeInjective("fake", m.chat + ":" + x, "fake", other.chat + ":" + y);
      MakeInjective(m.chat, x, other.chat, y);
      assert x[7..] == m.id && y[7..] == other.id;
    }
  }

  /** A message bridged from Matrix: an Octopus reply to the id the agent gave it points at the
      ID it is stored under, and a Matrix reply to that ID carries the agent's id. */
  lemma BridgedReplies(login: string, portal: string, id: string, ts: int, m: Message, kind: string, ev: MatrixEvent)
    requires Clean(portal) && m.chat == portal && m.reply == Some(id) && m.kind in CONVERTIBLE && m.kind != REVOKE
    requires ev.chatType in {1, 2} && ev.replyTo == Some(StoredAs(login, portal, SentAs(id, ts)).messageId)
    ensures Converted(m) == Some(Some(StoredAs(login, portal, SentAs(id, ts)).messageId))
    ensures var o := Outgoing(true, login, Some(kind), ev); o.Success? && o.value.reply == Some(id)
  {
    ParseMakeIff(portal, id);
  }

  /** A reply quoted back and forth stays on one message: the Octopus reply that came out of a
      Matrix reply to m points at the ID m is stored under. */
  lemma ReplyReturns(m: Message, login: string, kind: string, ev: MatrixEvent)
    requires Clean(m.chat) && m.kind != REVOKE && kind in CONVERTIBLE && kind != REVOKE
    requires ev.chatType in {1, 2} && ev.portal == m.chat && ev.replyTo == Some(GetId(m))
    ensures var o := Outgoing(true, login, Some(kind), ev); o.Success? && Converted(o.value) == Some(ev.replyTo)
  {
    ParseMakeIff(m.chat, m.id);
  }

  // ---------- What is stored ----------

  /** For every response to SendMessage that decodes: the handler stores the message, under the
      id the agent gave it, exactly if the response is no refusal and carries a message; it
      dereferences nil exactly if the response is no refusal, its type is that of no
      data-returning method and its data is null. */
  lemma {:induction false} StoredIff(login: string, portal: string, j: J.Json)
    requires J.Decode(P.Response(), j).Success?
    ensures var r := J.Decode(P.Response(), j).value;
      var c := Rpc.FinishResponse("send_message", r); var h := StoredAs(login, portal, AnswerOf(c));
      && (h.Stored? <==> !Rpc.Refusal(r) && Rpc.Asserted(Rpc.TypeOf(r)) == Some(J.TPtr(P.Message())))
      && (h.Stored? ==>
            var data := J.Find(J.Members(j), "data");
            && data.Some? && h.sender == login && h.timestamp == J.IntegerIn(data.value, "timestamp")
            && h.messageId == MakeMessageId(portal, J.TextIn(data.value, "id")))
      && (h == NilDereference <==>
          !Rpc.Refusal(r) && Rpc.Asserted(Rpc.TypeOf(r)) == None && J.Find(J.Members(j), "data") == Some(J.Null))
      && (h == NotSent <==> Rpc.Refusal(r))
  {
    Rpc.PanicIff("send_message", j);
    Rpc.NoDataIff("send_message", j);
    Rpc.GotIff("send_message", j);
    var data := J.Find(J.Members(j), "data");
    if data.Some? && data.value != J.Null && J.Decode(P.Message(), data.value).Success? {
      SentFields(data.value);
    }
  }

  /** The id and the timestamp are those of the message that came back. */
  lemma {:induction false} SentFields(j: J.Json)
    requires J.Decode(P.Message(), j).Success?
    ensures var m := J.VPtr(J.Decode(P.Message(), j).value);
      SentId(m) == J.TextIn(j, "id") && SentTime(m) == J.IntegerIn(j, "timestamp")
  {
    FieldsOfSent(P.Message(), P.MessageFields(), j);
  }

  lemma {:induction false} FieldsOfSent(ty: J.Ty, fs: seq<J.Field>, j: J.Json)
    requires ty.TStruct? && ty.fields == fs && (ty.union.Some? ==> ty.union.value.body == 9) && |fs| == 10
    requires fs[0] == J.Field("id", J.Never, J.TString) && fs[2] == J.Field("timestamp", J.Never, P.INT64)
    requires J.Decode(ty, j).Success?
    ensures var m := J.VPtr(J.Decode(ty, j).value);
      SentId(m) == J.TextIn(j, "id") && SentTime(m) == J.IntegerIn(j, "timestamp")
  {
    J.MemberDecoded(ty, j, 0);
    J.MemberDecoded(ty, j, 2);
  }
}
