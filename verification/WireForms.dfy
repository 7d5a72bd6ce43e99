/** What the packets look like on the wire, as JSON trees written out: every name, every place
    and every method. */
module WireForms {
  import opened Wrappers
  import opened Json
  import opened Protocol
  import opened Rpc

  // ---------- The members of a struct, one by one ----------

  function Written(f: Field, v: Val): seq<Member> {
    if Skipped(f, v) then [] else [Member(f.name, Encode(f.ty, v))]
  }

  lemma {:induction false} WrittenFirst(f: Field, fs: seq<Field>, v: Val, vs: seq<Val>)
    ensures EncodeFields([f] + fs, [v] + vs) == Written(f, v) + EncodeFields(fs, vs)
  {
    assert ([f] + fs)[1..] == fs && ([v] + vs)[1..] == vs;
  }

  lemma TwoWritten(f0: Field, f1: Field, v0: Val, v1: Val)
    ensures EncodeFields([f0, f1], [v0, v1]) == Written(f0, v0) + Written(f1, v1)
  {
    WrittenFirst(f1, [], v1, []);
    WrittenFirst(f0, [f1], v0, [v1]);
    assert [f0] + [f1] == [f0, f1] && [v0] + [v1] == [v0, v1];
    assert [f1] + [] == [f1] && [v1] + [] == [v1];
  }

  lemma ThreeWritten(f0: Field, f1: Field, f2: Field, v0: Val, v1: Val, v2: Val)
    ensures EncodeFields([f0, f1, f2], [v0, v1, v2]) == Written(f0, v0) + Written(f1, v1) + Written(f2, v2)
  {
    TwoWritten(f1, f2, v1, v2);
    WrittenFirst(f0, [f1, f2], v0, [v1, v2]);
    assert [f0] + [f1, f2] == [f0, f1, f2] && [v0] + [v1, v2] == [v0, v1, v2];
  }

  lemma FourWritten(f0: Field, f1: Field, f2: Field, f3: Field, v0: Val, v1: Val, v2: Val, v3: Val)
    ensures EncodeFields([f0, f1, f2, f3], [v0, v1, v2, v3]) ==
            Written(f0, v0) + Written(f1, v1) + Written(f2, v2) + Written(f3, v3)
  {
    ThreeWritten(f1, f2, f3, v1, v2, v3);
    WrittenFirst(f0, [f1, f2, f3], v0, [v1, v2, v3]);
    assert [f0] + [f1, f2, f3] == [f0, f1, f2, f3] && [v0] + [v1, v2, v3] == [v0, v1, v2, v3];
  }

  // ---------- Packets ----------

  function Envelope(id: int, mxid: string, tag: string, payload: Json): Json {
    Obj([Member("id", Num(id as real, true)), Member("mxid", Str(mxid)),
         Member("type", Str(tag)), Member("payload", payload)])
  }

  lemma {:induction false} PacketOnWire(id: int, mxid: string, tag: string, t: Ty, w: Val)
    ensures Encode(Packet(), PacketVal(id, mxid, tag, ATyped(t, w))) == Envelope(id, mxid, tag, Encode(t, w))
  {
    EnvelopeWritten(Packet(), PacketCases(), id, mxid, tag, t, w);
  }

  lemma {:induction false} EnvelopeWritten(ty: Ty, cases: seq<Case>, id: int, mxid: string, tag: string, t: Ty, w: Val)
    requires ty == Tagged("Packet", PacketFields(), 2, 3, None, cases)
    ensures Encode(ty, PacketVal(id, mxid, tag, ATyped(t, w))) == Envelope(id, mxid, tag, Encode(t, w))
  {
    FourWritten(Field("id", Never, INT64), Field("mxid", Never, TString), Field("type", Never, TString),
                Field("payload", IfEmpty, TAny),
                VInt(id), VString(mxid), VString(tag), VAny(ATyped(t, w)));
  }

  // ---------- Requests ----------

  /** What each client method writes. */
  function RequestForm(c: ClientCall): seq<Member> {
    match c
    case Connect => [Member("type", Str("connect"))]
    case Disconnect => [Member("type", Str("disconnect"))]
    case Login(step) => [Member("type", Str("login")), Member("params", Encode(TPtr(LoginStep()), step))]
    case GetLoginInfo => [Member("type", Str("get_login_info"))]
    case GetUserInfo(user) => [Member("type", Str("get_user_info")), Member("params", Arr([Str(user)]))]
    case GetGroupInfo(group) => [Member("type", Str("get_group_info")), Member("params", Arr([Str(group)]))]
    case GetFriendList => [Member("type", Str("get_friend_list"))]
    case GetGroupList => [Member("type", Str("get_group_list"))]
    case GetGroupMemberList(group) =>
      [Member("type", Str("get_group_member_list")), Member("params", Arr([Str(group)]))]
    case GetGroupMemberInfo(group, user) =>
      [Member("type", Str("get_group_member_info")), Member("params", Arr([Str(group), Str(user)]))]
    case SendMessage(msg) => [Member("type", Str("send_message")), Member("params", Encode(TPtr(Message()), msg))]
    case RevokeMessage(id) => [Member("type", Str("revoke_message")), Member("params", Arr([Str(id)]))]
  }

  function AnyForm(a: AnyVal): seq<Member> {
    match a
    case ATyped(t, w) => [Member("params", Encode(t, w))]
    case _ => []
  }

  lemma {:induction false} RequestWritten(ty: Ty, cases: seq<Case>, kind: string, params: AnyVal)
    requires ty == Tagged("Request", RequestFields(), 0, 1, None, cases) && (params.ATyped? || params.ANil?)
    ensures Encode(ty, RequestVal(kind, params)) == Obj([Member("type", Str(kind))] + AnyForm(params))
  {
    TwoWritten(Field("type", Never, TString), Field("params", IfEmpty, TAny), VString(kind), VAny(params));
  }

  lemma {:induction false} OneEncoded(v: Val)
    ensures EncodeAll(TString, [v]) == [Encode(TString, v)]
  {
    assert [v][1..] == [];
  }

  lemma {:induction false} TwoEncoded(v: Val, w: Val)
    ensures EncodeAll(TString, [v, w]) == [Encode(TString, v), Encode(TString, w)]
  {
    OneEncoded(w);
    assert [v, w][1..] == [w];
  }

  lemma OneString(s: string)
    ensures Strings([s]).ATyped? && Encode(Strings([s]).ty, Strings([s]).v) == Arr([Str(s)])
  {
    OneEncoded(VString(s));
    assert Strings([s]).v.items == [VString(s)];
  }

  lemma TwoStrings(s: string, t: string)
    ensures Strings([s, t]).ATyped? && Encode(Strings([s, t]).ty, Strings([s, t]).v) == Arr([Str(s), Str(t)])
  {
    TwoEncoded(VString(s), VString(t));
    assert Strings([s, t]).v.items == [VString(s), VString(t)];
  }

  /** Every request goes out under its method's own name with its own parameters in place. */
  lemma RequestOnWire(c: ClientCall, id: int, mxid: string)
    ensures Encode(Packet(), RequestPacket(id, mxid, Kind(c), Params(c))) ==
            Envelope(id, mxid, "request", Obj(RequestForm(c)))
  {
    PacketOnWire(id, mxid, "request", TPtr(Request()), VPtr(RequestVal(Kind(c), Params(c))));
    RequestWritten(Request(), RequestCases(), Kind(c), Params(c));
    ParamsWritten(c);
  }

  lemma ParamsWritten(c: ClientCall)
    ensures [Member("type", Str(Kind(c)))] + AnyForm(Params(c)) == RequestForm(c)
  {
    match c
    case GetUserInfo(s) => OneString(s);
    case GetGroupInfo(s) => OneString(s);
    case GetGroupMemberList(s) => OneString(s);
    case RevokeMessage(s) => OneString(s);
    case GetGroupMemberInfo(s, t) => TwoStrings(s, t);
    case _ =>
  }

  // ---------- Responses and heartbeats ----------

  /** A successful response with its data, which is read under these names. */
  lemma {:induction false} AnswerOnWire(id: int, mxid: string, kind: string, t: Ty, w: Val)
    ensures Encode(Packet(), AnswerPacket(id, mxid, kind, ATyped(t, w))) ==
            Envelope(id, mxid, "response", Obj([Member("type", Str(kind)), Member("data", Encode(t, w))]))
  {
    PacketOnWire(id, mxid, "response", TPtr(Response()), VPtr(ResponseVal(kind, VNil, ATyped(t, w))));
    AnswerWritten(Response(), ResponseCases(), kind, t, w);
  }

  lemma {:induction false} AnswerWritten(ty: Ty, cases: seq<Case>, kind: string, t: Ty, w: Val)
    requires ty == Tagged("Response", ResponseFields(), 0, 2, Some(1), cases)
    ensures Encode(TPtr(ty), VPtr(ResponseVal(kind, VNil, ATyped(t, w)))) ==
            Obj([Member("type", Str(kind)), Member("data", Encode(t, w))])
  {
    ResponseWritten(ty, cases, kind, VNil, ATyped(t, w));
  }

  lemma {:induction false} ResponseWritten(ty: Ty, cases: seq<Case>, kind: string, error: Val, data: AnyVal)
    requires ty == Tagged("Response", ResponseFields(), 0, 2, Some(1), cases)
    ensures Encode(ty, ResponseVal(kind, error, data)) ==
      Obj([Member("type", Str(kind))] + Written(Field("error", IfEmpty, TPtr(ErrorResponse())), error)
          + Written(Field("data", IfEmpty, TAny), VAny(data)))
  {
    ThreeWritten(Field("type", Never, TString), Field("error", IfEmpty, TPtr(ErrorResponse())),
                 Field("data", IfEmpty, TAny), VString(kind), error, VAny(data));
  }

  /** A refusal: the HTTP status stays behind. */
  lemma RefusalOnWire(kind: string, status: int, code: string, message: string)
    ensures var error := VPtr(VStruct([VInt(status), VString(code), VString(message)]));
      Encode(Response(), ResponseVal(kind, error, ANil)) ==
      Obj([Member("type", Str(kind)),
           Member("error", Obj([Member("code", Str(code)), Member("message", Str(message))]))])
  {
    var vs := [VInt(status), VString(code), VString(message)];
    ThreeWritten(Field("HTTPStatus", Always, INT64), Field("code", Never, TString), Field("message", Never, TString),
                 VInt(status), VString(code), VString(message));
    assert Encode(ErrorResponse(), VStruct(vs)) == Obj([Member("code", Str(code)), Member("message", Str(message))]);
    ResponseWritten(Response(), ResponseCases(), kind, VPtr(VStruct(vs)), ANil);
  }

  /** A heartbeat: the misspelt tag shows in the second name. */
  lemma HeartbeatOnWire(loggedIn: bool, interval: int)
    ensures Encode(Heartbeat(), VStruct([VBool(loggedIn), VInt(interval)])) == HeartbeatForm(loggedIn, interval)
  {
    TwoWritten(Field("is_logged_in", Never, TBool), Field("Interval", Never, UINT32), VBool(loggedIn), VInt(interval));
  }

  function HeartbeatForm(loggedIn: bool, interval: int): Json {
    Obj([Member("is_logged_in", Bool(loggedIn)), Member("Interval", Num(interval as real, true))])
  }

  /** A notice that carries one. */
  lemma NoticeOnWire(client: string, timestamp: int, loggedIn: bool, interval: int)
    ensures var beat := ATyped(TPtr(Heartbeat()), VPtr(VStruct([VBool(loggedIn), VInt(interval)])));
      Encode(Notice(), VStruct([VString(client), VInt(timestamp), VString("heartbeat"), VAny(beat)])) ==
      Obj([Member("client_id", Str(client)), Member("timestamp", Num(timestamp as real, true)),
           Member("type", Str("heartbeat")), Member("data", HeartbeatForm(loggedIn, interval))])
  {
    var beat := VStruct([VBool(loggedIn), VInt(interval)]);
    HeartbeatOnWire(loggedIn, interval);
    NoticeWritten(Notice(), NoticeCases(), client, timestamp, TPtr(Heartbeat()), VPtr(beat));
  }

  lemma {:induction false} NoticeWritten(ty: Ty, cases: seq<Case>, client: string, timestamp: int, t: Ty, w: Val)
    requires ty == Tagged("Notice", Notice().fields, 2, 3, None, cases)
    ensures Encode(ty, VStruct([VString(client), VInt(timestamp), VString("heartbeat"), VAny(ATyped(t, w))])) ==
      Obj([Member("client_id", Str(client)), Member("timestamp", Num(timestamp as real, true)),
           Member("type", Str("heartbeat")), Member("data", Encode(t, w))])
  {
    FourWritten(Field("client_id", Never, TString), Field("timestamp", Never, INT64),
                Field("type", Never, TString), Field("data", IfEmpty, TAny),
                VString(client), VInt(timestamp), VString("heartbeat"), VAny(ATyped(t, w)));
  }

  // ---------- Messages ----------

  lemma {:induction false} WrittenApart(fs: seq<Field>, gs: seq<Field>, vs: seq<Val>, ws: seq<Val>)
    requires |fs| == |vs|
    ensures EncodeFields(fs + gs, vs + ws) == EncodeFields(fs, vs) + EncodeFields(gs, ws)
  {
    if fs == [] {
      assert fs + gs == gs && vs + ws == ws;
    } else {
      assert (fs + gs)[1..] == fs[1..] + gs && (vs + ws)[1..] == vs[1..] + ws;
      WrittenApart(fs[1..], gs, vs[1..], ws);
    }
  }

  /** A sender and a chat as the handler of a Matrix message fills them in. */
  lemma PartiesOnWire(from: string, chat: string, chatType: int)
    ensures Encode(User(), VStruct([VString(from), VString(""), VString(""), VString("")])) ==
            Obj([Member("id", Str(from)), Member("name", Str(""))])
    ensures Encode(Chat(), VStruct([VString(chat), VInt(chatType), VString("")])) ==
            Obj([Member("id", Str(chat)), Member("type", Num(chatType as real, true))])
  {
    FourWritten(Field("id", Never, TString), Field("name", Never, TString), Field("alias", IfEmpty, TString),
                Field("avatar", IfEmpty, TString), VString(from), VString(""), VString(""), VString(""));
    ThreeWritten(Field("id", Never, TString), Field("type", Never, INT64), Field("title", IfEmpty, TString),
                 VString(chat), VInt(chatType), VString(""));
  }

  lemma ReplyOnWire(id: string)
    ensures Encode(ReplyInfo(), VStruct([VString(id), VInt(0), VString(""), VString("")])) ==
            Obj([Member("id", Str(id))])
  {
    FourWritten(Field("id", Never, TString), Field("timestamp", IfEmpty, INT64), Field("sender", IfEmpty, TString),
                Field("content", IfEmpty, TString), VString(id), VInt(0), VString(""), VString(""));
  }

  function ReplyVal(reply: Option<string>): Val {
    match reply
    case None => VNil
    case Some(id) => VPtr(VStruct([VString(id), VInt(0), VString(""), VString("")]))
  }

  function ReplyForm(reply: Option<string>): seq<Member> {
    match reply
    case None => []
    case Some(id) => [Member("reply", Obj([Member("id", Str(id))]))]
  }

  /** A text message from Matrix, with or without a reply. */
  lemma TextOnWire(id: string, ts: int, from: string, chat: string, chatType: int, content: string,
                   reply: Option<string>)
    requires content != ""
    ensures var user := VStruct([VString(from), VString(""), VString(""), VString("")]);
      var room := VStruct([VString(chat), VInt(chatType), VString("")]);
      var vs := [VString(id), VString(""), VInt(ts), user]
                + [room, VString("text"), VString(content)] + [VNil, ReplyVal(reply), VAny(ANil)];
      Encode(Message(), VStruct(vs)) ==
      Obj([Member("id", Str(id)), Member("timestamp", Num(ts as real, true)),
           Member("from", Obj([Member("id", Str(from)), Member("name", Str(""))])),
           Member("chat", Obj([Member("id", Str(chat)), Member("type", Num(chatType as real, true))])),
           Member("type", Str("text")), Member("content", Str(content))] + ReplyForm(reply))
  {
    var user := VStruct([VString(from), VString(""), VString(""), VString("")]);
    var room := VStruct([VString(chat), VInt(chatType), VString("")]);
    PartiesOnWire(from, chat, chatType);
    if reply.Some? { ReplyOnWire(reply.value); }
    TextWritten(Message(), MessageCases(), User(), Chat(), ReplyInfo(), id, ts, user, room, content, ReplyVal(reply));
  }

  lemma {:induction false} TextWritten(ty: Ty, cases: seq<Case>, user: Ty, chat: Ty, reply: Ty,
                                       id: string, ts: int, u: Val, c: Val, content: string, r: Val)
    requires ty == Tagged("Message", MessageFieldsOf(user, chat, reply), 5, 9, None, cases)
    requires content != "" && (r.VNil? || r.VPtr?)
    ensures Encode(ty, VStruct([VString(id), VString(""), VInt(ts), u] + [c, VString("text"), VString(content)]
                               + [VNil, r, VAny(ANil)])) ==
      Obj([Member("id", Str(id)), Member("timestamp", Num(ts as real, true)), Member("from", Encode(user, u)),
           Member("chat", Encode(chat, c)), Member("type", Str("text")), Member("content", Str(content))]
          + if r.VNil? then [] else [Member("reply", Encode(TPtr(reply), r))])
  {
    MessageParts(user, chat, reply);
    FirstWritten(user, id, ts, u);
    MiddleWritten(chat, c, content);
    LastWritten(reply, r);
    ThreePartsWritten(ty, FirstFields(user), MiddleFields(chat), LastFields(reply),
                      [VString(id), VString(""), VInt(ts), u], [c, VString("text"), VString(content)],
                      [VNil, r, VAny(ANil)]);
  }

  lemma MessageParts(user: Ty, chat: Ty, reply: Ty)
    ensures MessageFieldsOf(user, chat, reply) == FirstFields(user) + MiddleFields(chat) + LastFields(reply)
  {
  }

  function FirstFields(user: Ty): seq<Field> {
    [Field("id", Never, TString), Field("thread_id", IfEmpty, TString), Field("timestamp", Never, INT64),
     Field("from", Never, user)]
  }

  function MiddleFields(chat: Ty): seq<Field> {
    [Field("chat", Never, chat), Field("type", Never, TString), Field("content", IfEmpty, TString)]
  }

  function LastFields(reply: Ty): seq<Field> {
    [Field("mentions", IfEmpty, TSlice(TString)), Field("reply", IfEmpty, TPtr(reply)),
     Field("attachment", IfEmpty, TAny)]
  }

  lemma {:induction false} FirstWritten(user: Ty, id: string, ts: int, u: Val)
    ensures EncodeFields(FirstFields(user), [VString(id), VString(""), VInt(ts), u]) ==
      [Member("id", Str(id)), Member("timestamp", Num(ts as real, true)), Member("from", Encode(user, u))]
  {
    var fs := FirstFields(user);
    FourWritten(fs[0], fs[1], fs[2], fs[3], VString(id), VString(""), VInt(ts), u);
  }

  lemma {:induction false} MiddleWritten(chat: Ty, c: Val, content: string)
    requires content != ""
    ensures EncodeFields(MiddleFields(chat), [c, VString("text"), VString(content)]) ==
      [Member("chat", Encode(chat, c)), Member("type", Str("text")), Member("content", Str(content))]
  {
    var fs := MiddleFields(chat);
    ThreeWritten(fs[0], fs[1], fs[2], c, VString("text"), VString(content));
  }

  lemma {:induction false} LastWritten(reply: Ty, r: Val)
    requires r.VNil? || r.VPtr?
    ensures EncodeFields(LastFields(reply), [VNil, r, VAny(ANil)]) ==
      if r.VNil? then [] else [Member("reply", Encode(TPtr(reply), r))]
  {
    var fs := LastFields(reply);
    ThreeWritten(fs[0], fs[1], fs[2], VNil, r, VAny(ANil));
  }

  lemma {:induction false} ThreePartsWritten(ty: Ty, f0: seq<Field>, f1: seq<Field>, f2: seq<Field>,
                                             v0: seq<Val>, v1: seq<Val>, v2: seq<Val>)
    requires ty.TStruct? && ty.fields == f0 + f1 + f2 && |f0| == |v0| && |f1| == |v1|
    ensures Encode(ty, VStruct(v0 + v1 + v2)) ==
            Obj(EncodeFields(f0, v0) + EncodeFields(f1, v1) + EncodeFields(f2, v2))
  {
    WrittenApart(f0 + f1, f2, v0 + v1, v2);
    WrittenApart(f0, f1, v0, v1);
  }

  // ---------- What is read, and under which names ----------

  /** User information; that of a member and a sender are alike. */
  lemma {:induction false} UserRead(ty: Ty, j: Json)
    requires ty in {UserInfo(), MemberInfo(), User()} && Decode(ty, j).Success?
    ensures var v := Decode(ty, j).value;
      && v.VStruct? && |v.vs| == 4
      && v.vs[0] == VString(TextIn(j, "id")) && v.vs[1] == VString(TextIn(j, "name"))
      && v.vs[2] == VString(TextIn(j, "alias")) && v.vs[3] == VString(TextIn(j, "avatar"))
  {
    MemberDecoded(ty, j, 0);
    MemberDecoded(ty, j, 1);
    MemberDecoded(ty, j, 2);
    MemberDecoded(ty, j, 3);
  }

  /** A group, with its members. */
  lemma {:induction false} GroupRead(j: Json)
    requires Decode(GroupInfo(), j).Success?
    ensures var v := Decode(GroupInfo(), j).value;
      && v.VStruct? && |v.vs| == 6
      && v.vs[0] == VString(TextIn(j, "id")) && v.vs[1] == VString(TextIn(j, "name"))
      && v.vs[2] == VString(TextIn(j, "alias")) && v.vs[3] == VString(TextIn(j, "avatar"))
      && v.vs[4] == VString(TextIn(j, "notice")) && DecodedFrom(TSlice(TString), Find(Members(j), "members"), v.vs[5])
  {
    MemberDecoded(GroupInfo(), j, 0);
    MemberDecoded(GroupInfo(), j, 1);
    MemberDecoded(GroupInfo(), j, 2);
    MemberDecoded(GroupInfo(), j, 3);
    MemberDecoded(GroupInfo(), j, 4);
    MemberDecoded(GroupInfo(), j, 5);
  }

  /** A location. */
  lemma {:induction false} LocationRead(j: Json)
    requires Decode(LocationData(), j).Success?
    ensures var v := Decode(LocationData(), j).value;
      && v.VStruct? && |v.vs| == 4
      && v.vs[0] == VString(TextIn(j, "name")) && v.vs[1] == VString(TextIn(j, "address"))
      && DecodedFrom(TFloat, Find(Members(j), "longitude"), v.vs[2])
      && DecodedFrom(TFloat, Find(Members(j), "latitude"), v.vs[3])
  {
    MemberDecoded(LocationData(), j, 0);
    MemberDecoded(LocationData(), j, 1);
    MemberDecoded(LocationData(), j, 2);
    MemberDecoded(LocationData(), j, 3);
  }

  /** A shared app or link. */
  lemma {:induction false} AppRead(j: Json)
    requires Decode(AppData(), j).Success?
    ensures var v := Decode(AppData(), j).value;
      && v.VStruct? && |v.vs| == 3
      && v.vs[0] == VString(TextIn(j, "title")) && v.vs[1] == VString(TextIn(j, "desc"))
      && v.vs[2] == VString(TextIn(j, "url"))
  {
    MemberDecoded(AppData(), j, 0);
    MemberDecoded(AppData(), j, 1);
    MemberDecoded(AppData(), j, 2);
  }

  /** A login step. */
  lemma {:induction false} LoginRead(j: Json)
    requires Decode(LoginStep(), j).Success?
    ensures var v := Decode(LoginStep(), j).value;
      && v.VStruct? && |v.vs| == 6
      && v.vs[0] == VString(TextIn(j, "id")) && v.vs[1] == VString(TextIn(j, "type"))
      && v.vs[2] == VString(TextIn(j, "instructions"))
      && DecodedFrom(TPtr(DisplayAndWait()), Find(Members(j), "display_and_wait"), v.vs[3])
      && DecodedFrom(TPtr(UserInput()), Find(Members(j), "user_input"), v.vs[4])
      && DecodedFrom(TPtr(Complete()), Find(Members(j), "complete"), v.vs[5])
  {
    MemberDecoded(LoginStep(), j, 0);
    MemberDecoded(LoginStep(), j, 1);
    MemberDecoded(LoginStep(), j, 2);
    MemberDecoded(LoginStep(), j, 3);
    MemberDecoded(LoginStep(), j, 4);
    MemberDecoded(LoginStep(), j, 5);
  }

  /** What a login shows. */
  lemma {:induction false} DisplayRead(j: Json)
    requires Decode(DisplayAndWait(), j).Success?
    ensures var v := Decode(DisplayAndWait(), j).value;
      && v.VStruct? && |v.vs| == 3
      && v.vs[0] == VString(TextIn(j, "type")) && v.vs[1] == VString(TextIn(j, "data"))
      && v.vs[2] == VString(TextIn(j, "image_url"))
  {
    MemberDecoded(DisplayAndWait(), j, 0);
    MemberDecoded(DisplayAndWait(), j, 1);
    MemberDecoded(DisplayAndWait(), j, 2);
  }

  /** What a login asks for. */
  lemma {:induction false} InputRead(j: Json)
    requires Decode(InputDataField(), j).Success?
    ensures var v := Decode(InputDataField(), j).value;
      && v.VStruct? && |v.vs| == 5
      && v.vs[0] == VString(TextIn(j, "type")) && v.vs[1] == VString(TextIn(j, "id"))
      && v.vs[2] == VString(TextIn(j, "name"))
      && v.vs[3] == VString(TextIn(j, "description")) && v.vs[4] == VString(TextIn(j, "pattern"))
  {
    MemberDecoded(InputDataField(), j, 0);
    MemberDecoded(InputDataField(), j, 1);
    MemberDecoded(InputDataField(), j, 2);
    MemberDecoded(InputDataField(), j, 3);
    MemberDecoded(InputDataField(), j, 4);
  }
}
