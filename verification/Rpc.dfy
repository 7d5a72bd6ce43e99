/** The typed calls of client.go on top of the packet format: what a call makes of whatever
    packets the agent sends. */
module Rpc {
  import opened Wrappers
  import opened Json
  import opened Protocol

  // ---------- Packets as values ----------

  function PacketVal(id: int, mxid: string, tag: string, payload: AnyVal): Val {
    VStruct([VInt(id), VString(mxid), VString(tag), VAny(payload)])
  }

  function RequestVal(kind: string, params: AnyVal): Val {
    VStruct([VString(kind), VAny(params)])
  }

  function ResponseVal(kind: string, error: Val, data: AnyVal): Val {
    VStruct([VString(kind), error, VAny(data)])
  }

  function RequestPacket(id: int, mxid: string, kind: string, params: AnyVal): Val {
    PacketVal(id, mxid, "request", ATyped(TPtr(Request()), VPtr(RequestVal(kind, params))))
  }

  /** A successful response. */
  function AnswerPacket(id: int, mxid: string, kind: string, data: AnyVal): Val {
    PacketVal(id, mxid, "response", ATyped(TPtr(Response()), VPtr(ResponseVal(kind, VNil, data))))
  }

  function IdOf(p: Val): int {
    if p.VStruct? && |p.vs| == 4 && p.vs[0].VInt? then p.vs[0].i else 0
  }

  function TagOf(p: Val): string {
    if p.VStruct? && |p.vs| == 4 && p.vs[2].VString? then p.vs[2].s else ""
  }

  function PayloadOf(p: Val): AnyVal {
    if p.VStruct? && |p.vs| == 4 && p.vs[3].VAny? then p.vs[3].a else ANil
  }

  // ---------- What a typed call makes of a response ----------

  datatype Reply =
    | Answer(data: AnyVal)
    | Refused(error: Val)
    | Invalid                  // "receive invalid response packet"

  /** The end of agent.transmit. */
  function ReplyOf(payload: AnyVal): Reply {
    if payload.ATyped? && payload.ty == TPtr(Response()) && payload.v.VPtr?
       && payload.v.v.VStruct? && |payload.v.v.vs| == 3 && payload.v.v.vs[2].VAny? then
      if payload.v.v.vs[1] != VNil then Refused(payload.v.v.vs[1]) else Answer(payload.v.v.vs[2].a)
    else Invalid
  }

  /** The type that the client method asserts on non-nil data. */
  function Asserted(kind: string): Option<Ty> {
    if kind == "login" then Some(TPtr(LoginStep()))
    else if kind == "get_login_info" then Some(TPtr(UserInfo()))
    else if kind == "get_user_info" then Some(TPtr(UserInfo()))
    else if kind == "get_group_info" then Some(TPtr(GroupInfo()))
    else if kind == "get_friend_list" then Some(TSlice(TPtr(UserInfo())))
    else if kind == "get_group_list" then Some(TSlice(TPtr(GroupInfo())))
    else if kind == "get_group_member_list" then Some(TSlice(TPtr(MemberInfo())))
    else if kind == "get_group_member_info" then Some(TPtr(MemberInfo()))
    else if kind == "send_message" then Some(TPtr(Message()))
    else None
  }

  /** What a client method returns. */
  datatype CallResult =
    | Got(v: Val)
    | NoData                   // nil and no error
    | Failed                   // an error
    | Panic                    // the type assertion failed

  function Downcast(expected: Ty, a: AnyVal): CallResult {
    match a
    case ANil => NoData
    case ATyped(t, v) => if t == expected then Got(v) else Panic
    case _ => Panic
  }

  function Finish(kind: string, payload: AnyVal): CallResult {
    match ReplyOf(payload)
    case Answer(a) => if Asserted(kind).Some? then Downcast(Asserted(kind).value, a) else NoData
    case _ => Failed
  }

  // ---------- Both sides agree on the type of every method ----------

  lemma {:induction false} FindCaseIs(cases: seq<Case>, tag: string, k: nat)
    requires k <= |cases| && forall i :: 0 <= i < k ==> cases[i].tag != tag
    requires k < |cases| ==> cases[k].tag == tag
    ensures FindCase(cases, tag) == if k < |cases| then Some(cases[k].ty) else None
  {
    if k > 0 {
      FindCaseIs(cases[1..], tag, k - 1);
    }
  }

  /** Each branch of Response.UnmarshalJSON builds the type that the client method of the same
      name asserts, and there is a branch for exactly those methods. */
  lemma {:induction false} DecoderMeetsCallers(kind: string)
    ensures FindCase(ResponseCases(), kind) == Asserted(kind)
  {
    var k :=
      if kind == "login" then 0
      else if kind == "get_login_info" then 1
      else if kind == "get_user_info" then 2
      else if kind == "get_group_info" then 3
      else if kind == "get_friend_list" then 4
      else if kind == "get_group_list" then 5
      else if kind == "get_group_member_list" then 6
      else if kind == "get_group_member_info" then 7
      else if kind == "send_message" then 8
      else 9;
    FindCaseIs(ResponseCases(), kind, k);
  }

  // ---------- When a downcast panics ----------

  ghost predicate ResponseShape(r: Val, j: Json) {
    && r.VStruct? && |r.vs| == 3 && r.vs[0].VString? && r.vs[2].VAny?
    && BodyDecoded(r.vs[2].a, if r.vs[1] != VNil then None else Asserted(r.vs[0].s), Find(Members(j), "data"))
  }

  lemma {:induction false} DecodedResponse(j: Json)
    requires Decode(Response(), j).Success?
    ensures ResponseShape(Decode(Response(), j).value, j)
  {
    ResponseWf();
    DecodedBody(Response(), j);
    DecoderMeetsCallers(Decode(Response(), j).value.vs[0].s);
  }

  function TypeOf(r: Val): string {
    if r.VStruct? && |r.vs| == 3 && r.vs[0].VString? then r.vs[0].s else ""
  }

  predicate Refusal(r: Val) {
    r.VStruct? && |r.vs| == 3 && r.vs[1] != VNil
  }

  /** The call's result for a response that has decoded. */
  function FinishResponse(kind: string, r: Val): CallResult {
    Finish(kind, ATyped(TPtr(Response()), VPtr(r)))
  }

  lemma FinishedResponse(kind: string, r: Val, j: Json)
    requires Asserted(kind).Some? && ResponseShape(r, j)
    ensures FinishResponse(kind, r) == if Refusal(r) then Failed else Downcast(Asserted(kind).value, r.vs[2].a)
  {
  }

  /** For every response an agent can send that decodes at all: the call panics exactly when it
      is no error response and either its type is that of a method with other data, or its type
      is that of no such method and its data member is absent or not null. */
  lemma {:induction false} PanicIff(kind: string, j: Json)
    ensures var d := Decode(Response(), j);
      Asserted(kind).Some? && d.Success? ==>
        (FinishResponse(kind, d.value) == Panic <==>
         !Refusal(d.value) && if Asserted(TypeOf(d.value)).Some? then Asserted(TypeOf(d.value)) != Asserted(kind)
                              else Find(Members(j), "data") != Some(Null))
  {
    if Asserted(kind).Some? && Decode(Response(), j).Success? {
      DecodedResponse(j);
      FinishedResponse(kind, Decode(Response(), j).value, j);
    }
  }

  /** It returns nil without an error exactly when it is no error response, its type is that of
      no data-returning method and its data member is null. */
  lemma {:induction false} NoDataIff(kind: string, j: Json)
    ensures var d := Decode(Response(), j);
      Asserted(kind).Some? && d.Success? ==>
        (FinishResponse(kind, d.value) == NoData <==>
         !Refusal(d.value) && Asserted(TypeOf(d.value)).None? && Find(Members(j), "data") == Some(Null))
  {
    if Asserted(kind).Some? && Decode(Response(), j).Success? {
      DecodedResponse(j);
      FinishedResponse(kind, Decode(Response(), j).value, j);
    }
  }

  lemma {:induction false} DecodedIsNotNil(ty: Ty, j: Json)
    requires (ty.TPtr? || ty.TSlice?) && j != Null && Decode(ty, j).Success?
    ensures Decode(ty, j).value != VNil
  {
  }

  /** The call's data is that of the response, and not nil. */
  ghost predicate Carries(v: Val, ty: Ty, j: Json) {
    var data := Find(Members(j), "data");
    data.Some? && Decode(ty, data.value) == Success(v) && v != VNil
  }

  /** It returns data exactly when it is no error response and its type is that of a method
      with the same data; the data is then that of the response and is not nil. */
  lemma {:induction false} GotIff(kind: string, j: Json)
    ensures var d := Decode(Response(), j);
      Asserted(kind).Some? && d.Success? ==>
        var c := FinishResponse(kind, d.value);
        && (c.Got? <==> !Refusal(d.value) && Asserted(TypeOf(d.value)) == Asserted(kind))
        && (c.Got? ==> Carries(c.v, Asserted(kind).value, j))
  {
    if Asserted(kind).Some? && Decode(Response(), j).Success? {
      DecodedResponse(j);
      var r := Decode(Response(), j).value;
      FinishedResponse(kind, r, j);
      if FinishResponse(kind, r).Got? {
        DecodedIsNotNil(Asserted(kind).value, Find(Members(j), "data").value);
      }
    }
  }

  /** An agent that echoes the type of the request never makes the call panic, whatever the
      rest of its response. */
  lemma {:induction false} EchoIsSafe(kind: string, j: Json)
    ensures var d := Decode(Response(), j);
      d.Success? && TypeOf(d.value) == kind ==> FinishResponse(kind, d.value) != Panic
  {
    PanicIff(kind, j);
  }

  // ---------- What the read loop relies on ----------

  function PayloadType(tag: string): Option<Ty> {
    if tag == "request" then Some(TPtr(Request()))
    else if tag == "response" then Some(TPtr(Response()))
    else if tag == "notice" then Some(TPtr(Notice()))
    else if tag == "message" then Some(TPtr(Message()))
    else None
  }

  lemma {:induction false} PacketCaseOf(tag: string)
    ensures FindCase(PacketCases(), tag) == PayloadType(tag)
  {
    FindCaseIs(PacketCases(), tag,
      if tag == "request" then 0 else if tag == "response" then 1 else if tag == "notice" then 2
      else if tag == "message" then 3 else 4);
  }

  lemma {:induction false} DecodedPacket(j: Json)
    requires Decode(Packet(), j).Success?
    ensures var p := Decode(Packet(), j).value;
      && p.VStruct? && |p.vs| == 4
      && BodyDecoded(PayloadOf(p), PayloadType(TagOf(p)), Find(Members(j), "payload"))
  {
    PacketWf();
    DecodedBody(Packet(), j);
    PacketCaseOf(Decode(Packet(), j).value.vs[2].s);
  }

  /** The type assertions on the payloads of notices and messages in the read loop, and the one
      on responses at the end of a transmit, hold for every packet that decodes: its payload is
      a non-nil pointer to what its type names, decoded from the payload member. */
  lemma {:induction false} DispatchIsSafe(j: Json)
    requires Decode(Packet(), j).Success?
    ensures var p := Decode(Packet(), j).value;
      PayloadType(TagOf(p)).Some? ==> PointsTo(PayloadOf(p), PayloadType(TagOf(p)).value, Find(Members(j), "payload"))
  {
    DecodedPacket(j);
  }

  ghost predicate PointsTo(a: AnyVal, ty: Ty, raw: Option<Json>) {
    && a.ATyped? && a.ty == ty && ty.TPtr? && a.v.VPtr?
    && raw.Some? && Decode(ty.elem, raw.value) == Success(a.v.v)
  }

  /** The assertion on *Heartbeat in processNotice. */
  lemma {:induction false} HeartbeatIsSafe(j: Json)
    requires Decode(Notice(), j).Success?
    ensures var n := Decode(Notice(), j).value;
      && n.VStruct? && |n.vs| == 4 && n.vs[2].VString? && n.vs[3].VAny?
      && (n.vs[2].s == "heartbeat" ==> n.vs[3].a.ATyped? && n.vs[3].a.ty == TPtr(Heartbeat()) && n.vs[3].a.v.VPtr?)
  {
    NoticeWf();
    DecodedBody(Notice(), j);
    var tag := Decode(Notice(), j).value.vs[2].s;
    FindCaseIs(NoticeCases(), tag, if tag == "heartbeat" then 0 else 1);
  }

  /** In spite of its misspelt tag the interval is found under the name the tag meant. */
  lemma IntervalIsFound(loggedIn: bool, interval: int)
    requires 0 <= interval <= 4294967295
    ensures Decode(Heartbeat(), Obj([Member("is_logged_in", Bool(loggedIn)),
                                     Member("interval", Num(interval as real, true))]))
            == Success(VStruct([VBool(loggedIn), VInt(interval)]))
  {
    var first, last := Member("is_logged_in", Bool(loggedIn)), Member("interval", Num(interval as real, true));
    var ms := [first, last];
    assert ms[..1] == [first];
    assert Fold("interval") == Fold("Interval");
    assert |Fold("is_logged_in")| == 12 && |Fold("interval")| == 8;
    assert Find([first], "is_logged_in") == Some(first.val);
    var fs, vs := Heartbeat().fields, [VBool(loggedIn), VInt(interval)];
    assert forall i :: 0 <= i < |fs| ==> DecodeField(fs[i], ms) == Success(vs[i]);
    FieldsDecode(fs, ms, vs);
  }

  // ---------- The packet round trip ----------

  /** Every packet whose payload agrees with its tags comes back, up to Norm. */
  lemma {:induction false} PacketRoundTrip(p: Val)
    requires HasType(Packet(), p)
    ensures Decode(Packet(), Encode(Packet(), p)) == Success(Norm(Packet(), p))
  {
    PacketWf();
    RoundTrip(Packet(), p);
  }

  /** And unchanged if it also omits nothing and leaves no payload untyped. */
  lemma {:induction false} PacketExactRoundTrip(p: Val)
    requires HasType(Packet(), p) && Lossless(Packet(), p)
    ensures Decode(Packet(), Encode(Packet(), p)) == Success(p)
  {
    PacketWf();
    ExactRoundTrip(Packet(), p);
  }

  // ---------- A typed call end to end ----------

  lemma {:induction false} TypedPacket(ty: Ty, cases: seq<Case>, id: int, mxid: string, tag: string, t: Ty, w: Val)
    requires ty == Tagged("Packet", PacketFields(), 2, 3, None, cases) && FindCase(cases, tag) == Some(t)
    requires INT64.lo <= id <= INT64.hi && HasType(t, w) && Encode(t, w) != Null
    ensures HasType(ty, PacketVal(id, mxid, tag, ATyped(t, w)))
  {
    TypedBody(ty, PacketVal(id, mxid, tag, ATyped(t, w)).vs, t, w);
  }

  lemma {:induction false} NormPacket(ty: Ty, cases: seq<Case>, id: int, mxid: string, tag: string, t: Ty, w: Val)
    requires ty == Tagged("Packet", PacketFields(), 2, 3, None, cases) && FindCase(cases, tag) == Some(t)
    ensures Norm(ty, PacketVal(id, mxid, tag, ATyped(t, w))) == PacketVal(id, mxid, tag, ATyped(t, Norm(t, w)))
  {
    var vs := PacketVal(id, mxid, tag, ATyped(t, w)).vs;
    NormTypedBody(ty, vs, t, w);
    assert vs[3 := VAny(ATyped(t, Norm(t, w)))] == PacketVal(id, mxid, tag, ATyped(t, Norm(t, w))).vs;
  }

  lemma {:induction false} TypedResponse(ty: Ty, cases: seq<Case>, kind: string, t: Ty, w: Val)
    requires ty == Tagged("Response", ResponseFields(), 0, 2, Some(1), cases) && FindCase(cases, kind) == Some(t)
    requires HasType(t, w) && Encode(t, w) != Null
    ensures HasType(ty, ResponseVal(kind, VNil, ATyped(t, w)))
  {
    TypedBody(ty, ResponseVal(kind, VNil, ATyped(t, w)).vs, t, w);
  }

  lemma {:induction false} NormResponse(ty: Ty, cases: seq<Case>, kind: string, t: Ty, w: Val)
    requires ty == Tagged("Response", ResponseFields(), 0, 2, Some(1), cases) && FindCase(cases, kind) == Some(t)
    ensures Norm(ty, ResponseVal(kind, VNil, ATyped(t, w))) == ResponseVal(kind, VNil, ATyped(t, Norm(t, w)))
  {
    var vs := ResponseVal(kind, VNil, ATyped(t, w)).vs;
    NormTypedBody(ty, vs, t, w);
    assert vs[2 := VAny(ATyped(t, Norm(t, w)))] == ResponseVal(kind, VNil, ATyped(t, Norm(t, w))).vs;
  }

  /** A successful response that echoes the type of the request and carries data of its type
      comes back as it was sent, up to Norm, unless the data is nil: then it does not decode. */
  lemma {:induction false} AnswerArrives(id: int, mxid: string, kind: string, ty: Ty, data: Val)
    requires INT64.lo <= id <= INT64.hi && Asserted(kind) == Some(ty) && HasType(ty, data)
    ensures var d := Decode(Packet(), Encode(Packet(), AnswerPacket(id, mxid, kind, ATyped(ty, data))));
      if Encode(ty, data) == Null then d.Failure?
      else d == Success(AnswerPacket(id, mxid, kind, ATyped(ty, Norm(ty, data))))
  {
    if Encode(ty, data) == Null {
      NilAnswerFails(id, mxid, kind, ty, data);
    } else {
      FullAnswerArrives(id, mxid, kind, ty, data);
    }
  }

  lemma {:induction false} FullAnswerArrives(id: int, mxid: string, kind: string, ty: Ty, data: Val)
    requires INT64.lo <= id <= INT64.hi && Asserted(kind) == Some(ty) && HasType(ty, data) && Encode(ty, data) != Null
    ensures Decode(Packet(), Encode(Packet(), AnswerPacket(id, mxid, kind, ATyped(ty, data)))) ==
            Success(AnswerPacket(id, mxid, kind, ATyped(ty, Norm(ty, data))))
  {
    var r := ResponseVal(kind, VNil, ATyped(ty, data));
    DecoderMeetsCallers(kind);
    TypedResponse(Response(), ResponseCases(), kind, ty, data);
    NormResponse(Response(), ResponseCases(), kind, ty, data);
    PacketCaseOf("response");
    TypedPacket(Packet(), PacketCases(), id, mxid, "response", TPtr(Response()), VPtr(r));
    NormPacket(Packet(), PacketCases(), id, mxid, "response", TPtr(Response()), VPtr(r));
    PacketRoundTrip(AnswerPacket(id, mxid, kind, ATyped(ty, data)));
  }

  lemma {:induction false} NilAnswerFails(id: int, mxid: string, kind: string, ty: Ty, data: Val)
    requires INT64.lo <= id <= INT64.hi && Asserted(kind) == Some(ty) && HasType(ty, data) && Encode(ty, data) == Null
    ensures Decode(Packet(), Encode(Packet(), AnswerPacket(id, mxid, kind, ATyped(ty, data)))).Failure?
  {
    ResponseWf();
    DecoderMeetsCallers(kind);
    NilResponseFails(Response(), ResponseCases(), kind, ty, data);
    PacketWf();
    PacketCaseOf("response");
    PointerFails(Response(), ResponseVal(kind, VNil, ATyped(ty, data)));
    PacketBodyFails(Packet(), PacketCases(), id, mxid, "response",
                    TPtr(Response()), VPtr(ResponseVal(kind, VNil, ATyped(ty, data))));
  }

  lemma {:induction false} PointerFails(t: Ty, w: Val)
    requires Decode(t, Encode(t, w)).Failure?
    ensures var j := Encode(TPtr(t), VPtr(w)); j == Null || Decode(TPtr(t), j).Failure?
  {
  }

  lemma {:induction false} ResponseFits(cases: seq<Case>, kind: string, a: AnyVal)
    ensures var vs := ResponseVal(kind, VNil, a).vs;
      FieldsHaveType(ResponseFields(), vs) && BodyType(Union(0, 2, Some(1), cases), vs) == FindCase(cases, kind)
  {
  }

  lemma {:induction false} PacketFits(cases: seq<Case>, id: int, mxid: string, tag: string, a: AnyVal)
    requires INT64.lo <= id <= INT64.hi
    ensures var vs := PacketVal(id, mxid, tag, a).vs;
      FieldsHaveType(PacketFields(), vs) && BodyType(Union(2, 3, None, cases), vs) == FindCase(cases, tag)
  {
  }

  lemma {:induction false} NilResponseFails(ty: Ty, cases: seq<Case>, kind: string, t: Ty, w: Val)
    requires ty == Tagged("Response", ResponseFields(), 0, 2, Some(1), cases) && WfTy(ty)
    requires FindCase(cases, kind) == Some(t) && Encode(t, w) == Null
    ensures Decode(ty, Encode(ty, ResponseVal(kind, VNil, ATyped(t, w)))).Failure?
  {
    ResponseFits(cases, kind, ATyped(t, w));
    BodyFails(ty, ResponseVal(kind, VNil, ATyped(t, w)).vs, t, w);
  }

  lemma {:induction false} PacketBodyFails(ty: Ty, cases: seq<Case>, id: int, mxid: string, tag: string, t: Ty, w: Val)
    requires ty == Tagged("Packet", PacketFields(), 2, 3, None, cases) && WfTy(ty) && INT64.lo <= id <= INT64.hi
    requires FindCase(cases, tag) == Some(t) && (Encode(t, w) == Null || Decode(t, Encode(t, w)).Failure?)
    ensures Decode(ty, Encode(ty, PacketVal(id, mxid, tag, ATyped(t, w)))).Failure?
  {
    PacketFits(cases, id, mxid, tag, ATyped(t, w));
    BodyFails(ty, PacketVal(id, mxid, tag, ATyped(t, w)).vs, t, w);
  }

  // ---------- Among everything else the agent sends ----------

  /** The response that a caller waiting for `id` receives from a connection on which these
      packets arrive: the read loop ends with the first that does not decode. */
  function Await(id: int, js: seq<Json>): Option<Val> {
    if js == [] then None
    else
      match Decode(Packet(), js[0])
      case Failure(_) => None
      case Success(p) => if TagOf(p) == "response" && IdOf(p) == id then Some(p) else Await(id, js[1..])
  }

  /** What a client method returns for a request numbered `id`. */
  function TypedCall(kind: string, id: int, js: seq<Json>): CallResult {
    match Await(id, js)
    case None => Failed
    case Some(p) => Finish(kind, PayloadOf(p))
  }

  ghost predicate Passed(id: int, j: Json) {
    && Decode(Packet(), j).Success?
    && !(TagOf(Decode(Packet(), j).value) == "response" && IdOf(Decode(Packet(), j).value) == id)
  }

  lemma {:induction false} AwaitPasses(id: int, before: seq<Json>, rest: seq<Json>)
    requires forall k :: 0 <= k < |before| ==> Passed(id, before[k])
    ensures Await(id, before + rest) == Await(id, rest)
  {
    if before == [] {
      assert before + rest == rest;
    } else {
      assert Passed(id, before[0]);
      assert (before + rest)[1..] == before[1..] + rest;
      AwaitPasses(id, before[1..], rest);
    }
  }

  /** A packet that does not decode ends the connection: nothing behind it is ever heard. */
  lemma {:induction false} BrokenPacketEnds(kind: string, id: int, before: seq<Json>, j: Json, after: seq<Json>)
    requires (forall k :: 0 <= k < |before| ==> Passed(id, before[k])) && Decode(Packet(), j).Failure?
    ensures TypedCall(kind, id, before + [j] + after) == Failed
  {
    AwaitPasses(id, before, [j] + after);
    assert before + [j] + after == before + ([j] + after);
  }

  lemma AnswerFinishes(id: int, mxid: string, kind: string, ty: Ty, v: Val)
    requires Asserted(kind) == Some(ty)
    ensures Finish(kind, PayloadOf(AnswerPacket(id, mxid, kind, ATyped(ty, v)))) == Got(v)
  {
    assert ReplyOf(PayloadOf(AnswerPacket(id, mxid, kind, ATyped(ty, v)))) == Answer(ATyped(ty, v));
  }

  /** Every data-returning client method gets, as the Go type it asserts, the data of the first
      response with its own ID, whatever else arrives before and after. */
  lemma {:induction false} EndToEnd(kind: string, ty: Ty, data: Val, id: int, mxid: string,
                                    before: seq<Json>, after: seq<Json>)
    requires INT64.lo <= id <= INT64.hi && Asserted(kind) == Some(ty) && HasType(ty, data) && Encode(ty, data) != Null
    requires forall k :: 0 <= k < |before| ==> Passed(id, before[k])
    ensures TypedCall(kind, id, before + [Encode(Packet(), AnswerPacket(id, mxid, kind, ATyped(ty, data)))] + after)
            == Got(Norm(ty, data))
  {
    var j := Encode(Packet(), AnswerPacket(id, mxid, kind, ATyped(ty, data)));
    FullAnswerArrives(id, mxid, kind, ty, data);
    AwaitPasses(id, before, [j] + after);
    assert before + [j] + after == before + ([j] + after);
    var p := AnswerPacket(id, mxid, kind, ATyped(ty, Norm(ty, data)));
    assert Await(id, [j] + after) == Some(p);
    AnswerFinishes(id, mxid, kind, ty, Norm(ty, data));
  }

  // ---------- The requests that the client methods send ----------

  datatype ClientCall =
    | Connect
    | Disconnect
    | Login(step: Val)
    | GetLoginInfo
    | GetUserInfo(user: string)
    | GetGroupInfo(group: string)
    | GetFriendList
    | GetGroupList
    | GetGroupMemberList(group: string)
    | GetGroupMemberInfo(group: string, user: string)
    | SendMessage(msg: Val)
    | RevokeMessage(id: string)

  function Kind(c: ClientCall): string {
    match c
    case Connect => "connect"
    case Disconnect => "disconnect"
    case Login(_) => "login"
    case GetLoginInfo => "get_login_info"
    case GetUserInfo(_) => "get_user_info"
    case GetGroupInfo(_) => "get_group_info"
    case GetFriendList => "get_friend_list"
    case GetGroupList => "get_group_list"
    case GetGroupMemberList(_) => "get_group_member_list"
    case GetGroupMemberInfo(_, _) => "get_group_member_info"
    case SendMessage(_) => "send_message"
    case RevokeMessage(_) => "revoke_message"
  }

  function Strings(ss: seq<string>): AnyVal {
    ATyped(TSlice(TString), VSlice(seq(|ss|, i requires 0 <= i < |ss| => VString(ss[i]))))
  }

  function Params(c: ClientCall): AnyVal {
    match c
    case Login(step) => ATyped(TPtr(LoginStep()), step)
    case GetUserInfo(user) => Strings([user])
    case GetGroupInfo(group) => Strings([group])
    case GetGroupMemberList(group) => Strings([group])
    case GetGroupMemberInfo(group, user) => Strings([group, user])
    case SendMessage(msg) => ATyped(TPtr(Message()), msg)
    case RevokeMessage(id) => Strings([id])
    case _ => ANil
  }

  function RequestType(kind: string): Option<Ty> {
    if kind == "login" then Some(TPtr(LoginStep()))
    else if kind == "send_message" then Some(TPtr(Message()))
    else if kind == "get_user_info" || kind == "get_group_info" || kind == "get_group_member_list"
            || kind == "get_group_member_info" || kind == "revoke_message" then Some(TSlice(TString))
    else None
  }

  lemma {:induction false} RequestCaseOf(kind: string)
    ensures FindCase(RequestCases(), kind) == RequestType(kind)
  {
    FindCaseIs(RequestCases(), kind,
      if kind == "login" then 0 else if kind == "get_user_info" then 1 else if kind == "get_group_info" then 2
      else if kind == "get_group_member_list" then 3 else if kind == "get_group_member_info" then 4
      else if kind == "revoke_message" then 5 else if kind == "send_message" then 6 else 7);
  }

  /** Request.UnmarshalJSON decodes the parameters of every method as the type that the client
      puts in, and leaves them raw exactly where the client sends none. */
  lemma RequestsMeetDecoder(c: ClientCall)
    ensures FindCase(RequestCases(), Kind(c)) == if Params(c) == ANil then None else Some(Params(c).ty)
  {
    RequestCaseOf(Kind(c));
  }

  lemma {:induction false} TypedRequest(ty: Ty, cases: seq<Case>, kind: string, t: Ty, w: Val)
    requires ty == Tagged("Request", RequestFields(), 0, 1, None, cases) && FindCase(cases, kind) == Some(t)
    requires HasType(t, w) && Encode(t, w) != Null
    ensures HasType(ty, RequestVal(kind, ATyped(t, w)))
  {
    TypedBody(ty, RequestVal(kind, ATyped(t, w)).vs, t, w);
  }

  lemma {:induction false} NormRequest(ty: Ty, cases: seq<Case>, kind: string, t: Ty, w: Val)
    requires ty == Tagged("Request", RequestFields(), 0, 1, None, cases) && FindCase(cases, kind) == Some(t)
    ensures Norm(ty, RequestVal(kind, ATyped(t, w))) == RequestVal(kind, ATyped(t, Norm(t, w)))
  {
    var vs := RequestVal(kind, ATyped(t, w)).vs;
    NormTypedBody(ty, vs, t, w);
    assert vs[1 := VAny(ATyped(t, Norm(t, w)))] == RequestVal(kind, ATyped(t, Norm(t, w))).vs;
  }

  lemma {:induction false} NilRequestFails(ty: Ty, cases: seq<Case>, kind: string, t: Ty, w: Val)
    requires ty == Tagged("Request", RequestFields(), 0, 1, None, cases) && WfTy(ty)
    requires FindCase(cases, kind) == Some(t) && Encode(t, w) == Null
    ensures Decode(ty, Encode(ty, RequestVal(kind, ATyped(t, w)))).Failure?
  {
    BodyFails(ty, RequestVal(kind, ATyped(t, w)).vs, t, w);
  }

  lemma {:induction false} BareRequest(ty: Ty, cases: seq<Case>, kind: string)
    requires ty == Tagged("Request", RequestFields(), 0, 1, None, cases) && FindCase(cases, kind) == None
    ensures HasType(ty, RequestVal(kind, ANil)) && Norm(ty, RequestVal(kind, ANil)) == RequestVal(kind, ARawEmpty)
  {
    var fs, vs := RequestFields(), RequestVal(kind, ANil).vs;
    NormFieldsAt(fs, vs, 0);
    assert SetBody(ty.union.value, NormFields(fs, vs), ARawEmpty) == RequestVal(kind, ARawEmpty).vs;
  }

  /** The parameters the agent finds in the request. */
  function ParamsReceived(c: ClientCall): AnyVal {
    match Params(c)
    case ATyped(t, w) => ATyped(t, Norm(t, w))
    case _ => ARawEmpty
  }

  ghost predicate ArgsFit(c: ClientCall) {
    match c
    case Login(step) => HasType(TPtr(LoginStep()), step)
    case SendMessage(msg) => HasType(TPtr(Message()), msg)
    case _ => true
  }

  predicate NilArgument(c: ClientCall) {
    (c.Login? && c.step == VNil) || (c.SendMessage? && c.msg == VNil)
  }

  lemma {:induction false} PointerNull(t: Ty, v: Val)
    requires t.TStruct? && HasType(TPtr(t), v)
    ensures Encode(TPtr(t), v) == Null <==> v == VNil
  {
    if v.VPtr? {
      assert HasType(t, v.v);
    }
  }

  lemma ParamsFit(c: ClientCall)
    requires ArgsFit(c) && Params(c) != ANil
    ensures HasType(Params(c).ty, Params(c).v) && (Encode(Params(c).ty, Params(c).v) == Null <==> NilArgument(c))
  {
    if c.Login? {
      PointerNull(LoginStep(), c.step);
    } else if c.SendMessage? {
      PointerNull(Message(), c.msg);
    }
  }

  /** Every request the client methods send decodes to the same method with the parameters it
      was given, unless Login or SendMessage was called with nil: then it does not decode. */
  lemma RequestArrives(c: ClientCall, id: int, mxid: string)
    requires INT64.lo <= id <= INT64.hi && ArgsFit(c)
    ensures var d := Decode(Packet(), Encode(Packet(), RequestPacket(id, mxid, Kind(c), Params(c))));
      if NilArgument(c) then d.Failure? else d == Success(RequestPacket(id, mxid, Kind(c), ParamsReceived(c)))
  {
    RequestsMeetDecoder(c);
    PacketCaseOf("request");
    if Params(c) == ANil {
      BareRequest(Request(), RequestCases(), Kind(c));
      RequestInPacket(id, mxid, RequestVal(Kind(c), ANil));
    } else if NilArgument(c) {
      ParamsFit(c);
      NilRequestArrives(id, mxid, Kind(c), Params(c).ty, Params(c).v);
    } else {
      ParamsFit(c);
      TypedRequest(Request(), RequestCases(), Kind(c), Params(c).ty, Params(c).v);
      NormRequest(Request(), RequestCases(), Kind(c), Params(c).ty, Params(c).v);
      RequestInPacket(id, mxid, RequestVal(Kind(c), Params(c)));
    }
  }

  lemma {:induction false} RequestInPacket(id: int, mxid: string, r: Val)
    requires INT64.lo <= id <= INT64.hi && r.VStruct? && HasType(Request(), r)
    ensures Decode(Packet(), Encode(Packet(), PacketVal(id, mxid, "request", ATyped(TPtr(Request()), VPtr(r))))) ==
            Success(PacketVal(id, mxid, "request", ATyped(TPtr(Request()), VPtr(Norm(Request(), r)))))
  {
    PacketCaseOf("request");
    TypedPacket(Packet(), PacketCases(), id, mxid, "request", TPtr(Request()), VPtr(r));
    NormPacket(Packet(), PacketCases(), id, mxid, "request", TPtr(Request()), VPtr(r));
    PacketRoundTrip(PacketVal(id, mxid, "request", ATyped(TPtr(Request()), VPtr(r))));
  }

  lemma {:induction false} NilRequestArrives(id: int, mxid: string, kind: string, t: Ty, w: Val)
    requires INT64.lo <= id <= INT64.hi && FindCase(RequestCases(), kind) == Some(t) && Encode(t, w) == Null
    ensures Decode(Packet(), Encode(Packet(), RequestPacket(id, mxid, kind, ATyped(t, w)))).Failure?
  {
    RequestWf();
    NilRequestFails(Request(), RequestCases(), kind, t, w);
    PointerFails(Request(), RequestVal(kind, ATyped(t, w)));
    PacketWf();
    PacketCaseOf("request");
    PacketBodyFails(Packet(), PacketCases(), id, mxid, "request",
                    TPtr(Request()), VPtr(RequestVal(kind, ATyped(t, w))));
  }
}
