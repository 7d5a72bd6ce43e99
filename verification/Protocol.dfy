/** The wire types of protocol.go as descriptors: every struct tag in field order, and the five
    UnmarshalJSON methods as the tag, body, guard and cases they switch on. */
module Protocol {
  import opened Wrappers
  import opened Json

  // ---------- The structs ----------

  const INT64: Ty := TInt(-0x8000_0000_0000_0000, 0x7FFF_FFFF_FFFF_FFFF)
  const UINT32: Ty := TInt(0, 0xFFFF_FFFF)

  /** Which numbers fit. */
  lemma NumberRanges(i: int)
    ensures Decode(INT64, Num(i as real, true)).Success? <==> -9223372036854775808 <= i <= 9223372036854775807
    ensures Decode(UINT32, Num(i as real, true)).Success? <==> 0 <= i <= 4294967295
  {
  }

  function Plain(name: string, fields: seq<Field>): Ty {
    TStruct(name, fields, None)
  }

  function Tagged(name: string, fields: seq<Field>, tag: nat, body: nat, guard: Option<nat>, cases: seq<Case>): Ty {
    TStruct(name, fields, Some(Union(tag, body, guard, cases)))
  }

  function UserInfoFields(): seq<Field> {
    [Field("id", Never, TString), Field("name", Never, TString),
     Field("alias", IfEmpty, TString), Field("avatar", IfEmpty, TString)]
  }

  function UserInfo(): Ty { Plain("UserInfo", UserInfoFields()) }

  function MemberInfo(): Ty { Plain("MemberInfo", UserInfoFields()) }

  function User(): Ty { Plain("User", UserInfoFields()) }

  function GroupInfo(): Ty {
    Plain("GroupInfo",
          [Field("id", Never, TString), Field("name", Never, TString), Field("alias", IfEmpty, TString),
           Field("avatar", IfEmpty, TString), Field("notice", IfEmpty, TString),
           Field("members", Never, TSlice(TString))])
  }

  function Chat(): Ty {
    Plain("Chat", [Field("id", Never, TString), Field("type", Never, INT64), Field("title", IfEmpty, TString)])
  }

  function ReplyInfo(): Ty {
    Plain("ReplyInfo",
          [Field("id", Never, TString), Field("timestamp", IfEmpty, INT64),
           Field("sender", IfEmpty, TString), Field("content", IfEmpty, TString)])
  }

  function AppData(): Ty {
    Plain("AppData",
          [Field("title", IfEmpty, TString), Field("desc", IfEmpty, TString), Field("url", IfEmpty, TString)])
  }

  function LocationData(): Ty {
    Plain("LocationData",
          [Field("name", IfEmpty, TString), Field("address", IfEmpty, TString),
           Field("longitude", Never, TFloat), Field("latitude", Never, TFloat)])
  }

  function BlobData(): Ty {
    Plain("BlobData",
          [Field("name", IfEmpty, TString), Field("mime", IfEmpty, TString), Field("binary", Never, TBytes)])
  }

  function DisplayAndWait(): Ty {
    Plain("LoginDisplayAndWaitParams",
          [Field("type", Never, TString), Field("data", Never, TString), Field("image_url", IfEmpty, TString)])
  }

  function InputDataField(): Ty {
    Plain("LoginInputDataField",
          [Field("type", Never, TString), Field("id", Never, TString), Field("name", Never, TString),
           Field("description", Never, TString), Field("pattern", IfEmpty, TString)])
  }

  function UserInput(): Ty {
    Plain("LoginUserInputParams", [Field("fields", Never, TSlice(InputDataField()))])
  }

  function Complete(): Ty {
    Plain("LoginCompleteParams", [Field("login_info", IfEmpty, TPtr(UserInfo()))])
  }

  function LoginFieldsOf(display: Ty, input: Ty, complete: Ty): seq<Field> {
    [Field("id", Never, TString), Field("type", Never, TString), Field("instructions", Never, TString),
     Field("display_and_wait", IfEmpty, display), Field("user_input", IfEmpty, input),
     Field("complete", IfEmpty, complete)]
  }

  function LoginStep(): Ty {
    Plain("LoginStep", LoginFieldsOf(TPtr(DisplayAndWait()), TPtr(UserInput()), TPtr(Complete())))
  }

  function ErrorResponse(): Ty {
    Plain("ErrorResponse",
          [Field("HTTPStatus", Always, INT64), Field("code", Never, TString), Field("message", Never, TString)])
  }

  /** The tag of Interval is misspelt, so its name on the wire is the Go field name; decoding
      still takes "interval", as names match up to case. */
  function Heartbeat(): Ty {
    Plain("Heartbeat", [Field("is_logged_in", Never, TBool), Field("Interval", Never, UINT32)])
  }

  // ---------- The structs with an UnmarshalJSON method ----------

  function Blobs(): Ty { TSlice(TPtr(BlobData())) }

  function MessageFieldsOf(user: Ty, chat: Ty, reply: Ty): seq<Field> {
    [Field("id", Never, TString), Field("thread_id", IfEmpty, TString), Field("timestamp", Never, INT64),
     Field("from", Never, user), Field("chat", Never, chat), Field("type", Never, TString),
     Field("content", IfEmpty, TString), Field("mentions", IfEmpty, TSlice(TString)),
     Field("reply", IfEmpty, TPtr(reply)), Field("attachment", IfEmpty, TAny)]
  }

  function MessageFields(): seq<Field> { MessageFieldsOf(User(), Chat(), ReplyInfo()) }

  function MessageCases(): seq<Case> {
    [Case("image", Blobs()), Case("sticker", Blobs()), Case("audio", Blobs()), Case("video", Blobs()),
     Case("file", Blobs()), Case("location", TPtr(LocationData())), Case("app", TPtr(AppData()))]
  }

  function Message(): Ty { Tagged("Message", MessageFields(), 5, 9, None, MessageCases()) }

  function NoticeCases(): seq<Case> { [Case("heartbeat", TPtr(Heartbeat()))] }

  function Notice(): Ty {
    Tagged("Notice",
           [Field("client_id", Never, TString), Field("timestamp", Never, INT64),
            Field("type", Never, TString), Field("data", IfEmpty, TAny)],
           2, 3, None, NoticeCases())
  }

  function RequestCases(): seq<Case> {
    [Case("login", TPtr(LoginStep())), Case("get_user_info", TSlice(TString)), Case("get_group_info", TSlice(TString)),
     Case("get_group_member_list", TSlice(TString)), Case("get_group_member_info", TSlice(TString)),
     Case("revoke_message", TSlice(TString)), Case("send_message", TPtr(Message()))]
  }

  function RequestFields(): seq<Field> {
    [Field("type", Never, TString), Field("params", IfEmpty, TAny)]
  }

  function Request(): Ty { Tagged("Request", RequestFields(), 0, 1, None, RequestCases()) }

  function ResponseCases(): seq<Case> {
    [Case("login", TPtr(LoginStep())),
     Case("get_login_info", TPtr(UserInfo())), Case("get_user_info", TPtr(UserInfo())),
     Case("get_group_info", TPtr(GroupInfo())), Case("get_friend_list", TSlice(TPtr(UserInfo()))),
     Case("get_group_list", TSlice(TPtr(GroupInfo()))), Case("get_group_member_list", TSlice(TPtr(MemberInfo()))),
     Case("get_group_member_info", TPtr(MemberInfo())), Case("send_message", TPtr(Message()))]
  }

  function ResponseFields(): seq<Field> {
    [Field("type", Never, TString), Field("error", IfEmpty, TPtr(ErrorResponse())), Field("data", IfEmpty, TAny)]
  }

  function Response(): Ty { Tagged("Response", ResponseFields(), 0, 2, Some(1), ResponseCases()) }

  function PacketCasesOf(request: Ty, response: Ty, notice: Ty, message: Ty): seq<Case> {
    [Case("request", request), Case("response", response), Case("notice", notice), Case("message", message)]
  }

  function PacketCases(): seq<Case> {
    PacketCasesOf(TPtr(Request()), TPtr(Response()), TPtr(Notice()), TPtr(Message()))
  }

  function PacketFields(): seq<Field> {
    [Field("id", Never, INT64), Field("mxid", Never, TString), Field("type", Never, TString),
     Field("payload", IfEmpty, TAny)]
  }

  function Packet(): Ty { Tagged("Packet", PacketFields(), 2, 3, None, PacketCases()) }

  // ---------- They are well formed ----------

  /** A length and a second letter tell the names of one struct apart. */
  ghost predicate Marked(fs: seq<Field>, marks: seq<(nat, char)>) {
    && |marks| == |fs|
    && forall i :: 0 <= i < |fs| ==> |fs[i].name| > 1 && marks[i] == (|fs[i].name|, Lower(fs[i].name[1]))
  }

  lemma DistinctByMarks(fs: seq<Field>, marks: seq<(nat, char)>)
    requires Marked(fs, marks)
    requires forall i, j :: 0 <= i < j < |marks| ==> marks[i] != marks[j]
    ensures DistinctNames(fs)
  {
    forall i, j | 0 <= i < j < |fs|
      ensures Fold(fs[i].name) != Fold(fs[j].name)
    {
      assert marks[i] != marks[j];
      assert |Fold(fs[i].name)| == |fs[i].name| && Fold(fs[i].name)[1] == marks[i].1;
      assert |Fold(fs[j].name)| == |fs[j].name| && Fold(fs[j].name)[1] == marks[j].1;
    }
  }

  lemma PlainWf(name: string, fs: seq<Field>, marks: seq<(nat, char)>)
    requires Marked(fs, marks)
    requires forall i, j :: 0 <= i < j < |marks| ==> marks[i] != marks[j]
    requires forall i :: 0 <= i < |fs| ==> fs[i].ty != TAny && WfTy(fs[i].ty)
    ensures WfTy(Plain(name, fs))
  {
    DistinctByMarks(fs, marks);
  }

  ghost predicate TypesWf(fs: seq<Field>, body: nat) {
    forall i :: 0 <= i < |fs| ==> WfTy(fs[i].ty) && (i != body ==> fs[i].ty != TAny)
  }

  ghost predicate CasesWf(cases: seq<Case>) {
    forall i :: 0 <= i < |cases| ==> cases[i].ty != TAny && WfTy(cases[i].ty)
  }

  lemma {:induction false} MoreCases(tag: string, ty: Ty, cases: seq<Case>)
    requires ty != TAny && WfTy(ty) && CasesWf(cases)
    ensures CasesWf([Case(tag, ty)] + cases)
  {
  }

  lemma {:induction false} PointerWf(elem: Ty)
    requires elem.TStruct? && WfTy(elem)
    ensures WfTy(TPtr(elem))
  {
  }

  lemma {:induction false} PacketCasesOfWf(request: Ty, response: Ty, notice: Ty, message: Ty)
    requires request != TAny && response != TAny && notice != TAny && message != TAny
    requires WfTy(request) && WfTy(response) && WfTy(notice) && WfTy(message)
    ensures CasesWf(PacketCasesOf(request, response, notice, message))
  {
    var messages := [Case("message", message)];
    var notices := [Case("notice", notice)] + messages;
    var responses := [Case("response", response)] + notices;
    MoreCases("message", message, []);
    assert [Case("message", message)] + [] == messages;
    MoreCases("notice", notice, messages);
    MoreCases("response", response, notices);
    MoreCases("request", request, responses);
    assert PacketCasesOf(request, response, notice, message) == [Case("request", request)] + responses;
  }

  lemma {:induction false} TaggedWf(ty: Ty)
    requires ty.TStruct? && ty.union.Some? && DistinctNames(ty.fields) && UnionFits(ty.union.value, ty.fields)
    requires TypesWf(ty.fields, ty.union.value.body) && CasesWf(ty.union.value.cases)
    ensures WfTy(ty)
  {
  }

  lemma UsersWf()
    ensures WfTy(UserInfo()) && WfTy(MemberInfo()) && WfTy(User())
  {
    var marks := [(2, 'd'), (4, 'a'), (5, 'l'), (6, 'v')];
    PlainWf("UserInfo", UserInfoFields(), marks);
    PlainWf("MemberInfo", UserInfoFields(), marks);
    PlainWf("User", UserInfoFields(), marks);
  }

  lemma GroupInfoWf()
    ensures WfTy(GroupInfo())
  {
    PlainWf("GroupInfo", GroupInfo().fields, [(2, 'd'), (4, 'a'), (5, 'l'), (6, 'v'), (6, 'o'), (7, 'e')]);
  }

  lemma ChatWf()
    ensures WfTy(Chat())
  {
    PlainWf("Chat", Chat().fields, [(2, 'd'), (4, 'y'), (5, 'i')]);
  }

  lemma ReplyInfoWf()
    ensures WfTy(ReplyInfo())
  {
    PlainWf("ReplyInfo", ReplyInfo().fields, [(2, 'd'), (9, 'i'), (6, 'e'), (7, 'o')]);
  }

  lemma AppDataWf()
    ensures WfTy(AppData())
  {
    PlainWf("AppData", AppData().fields, [(5, 'i'), (4, 'e'), (3, 'r')]);
  }

  lemma LocationDataWf()
    ensures WfTy(LocationData())
  {
    PlainWf("LocationData", LocationData().fields, [(4, 'a'), (7, 'd'), (9, 'o'), (8, 'a')]);
  }

  lemma BlobDataWf()
    ensures WfTy(BlobData())
  {
    PlainWf("BlobData", BlobData().fields, [(4, 'a'), (4, 'i'), (6, 'i')]);
  }

  lemma ErrorResponseWf()
    ensures WfTy(ErrorResponse())
  {
    PlainWf("ErrorResponse", ErrorResponse().fields, [(10, 't'), (4, 'o'), (7, 'e')]);
  }

  lemma HeartbeatWf()
    ensures WfTy(Heartbeat())
  {
    PlainWf("Heartbeat", Heartbeat().fields, [(12, 's'), (8, 'n')]);
  }

  lemma DisplayAndWaitWf()
    ensures WfTy(DisplayAndWait())
  {
    PlainWf("LoginDisplayAndWaitParams", DisplayAndWait().fields, [(4, 'y'), (4, 'a'), (9, 'm')]);
  }

  lemma InputDataFieldWf()
    ensures WfTy(InputDataField())
  {
    PlainWf("LoginInputDataField", InputDataField().fields, [(4, 'y'), (2, 'd'), (4, 'a'), (11, 'e'), (7, 'a')]);
  }

  lemma UserInputWf()
    ensures WfTy(UserInput())
  {
    InputDataFieldWf();
    PlainWf("LoginUserInputParams", UserInput().fields, [(6, 'i')]);
  }

  lemma CompleteWf()
    ensures WfTy(Complete())
  {
    UsersWf();
    PlainWf("LoginCompleteParams", Complete().fields, [(10, 'o')]);
  }

  lemma {:induction false} LoginFieldsWf(display: Ty, input: Ty, complete: Ty)
    requires display != TAny && input != TAny && complete != TAny && WfTy(display) && WfTy(input) && WfTy(complete)
    ensures WfTy(Plain("LoginStep", LoginFieldsOf(display, input, complete)))
  {
    LoginNames(display, input, complete);
  }

  lemma LoginNames(display: Ty, input: Ty, complete: Ty)
    ensures DistinctNames(LoginFieldsOf(display, input, complete))
  {
    DistinctByMarks(LoginFieldsOf(display, input, complete),
      [(2, 'd'), (4, 'y'), (12, 'n'), (16, 'i'), (10, 's'), (8, 'o')]);
  }

  lemma LoginStepWf()
    ensures WfTy(LoginStep())
  {
    DisplayAndWaitWf();
    UserInputWf();
    CompleteWf();
    LoginFieldsWf(TPtr(DisplayAndWait()), TPtr(UserInput()), TPtr(Complete()));
  }

  lemma MessageNames(user: Ty, chat: Ty, reply: Ty)
    ensures DistinctNames(MessageFieldsOf(user, chat, reply))
  {
    DistinctByMarks(MessageFieldsOf(user, chat, reply),
      [(2, 'd'), (9, 'h'), (9, 'i'), (4, 'r'), (4, 'h'), (4, 'y'), (7, 'o'), (8, 'e'), (5, 'e'), (10, 't')]);
  }

  lemma MessageTypes()
    ensures TypesWf(MessageFields(), 9)
  {
    UsersWf();
    ChatWf();
    ReplyInfoWf();
  }

  lemma MessageCasesWf()
    ensures CasesWf(MessageCases())
  {
    AppDataWf();
    LocationDataWf();
    BlobDataWf();
  }

  lemma MessageWf()
    ensures WfTy(Message())
  {
    MessageNames(User(), Chat(), ReplyInfo());
    MessageTypes();
    MessageCasesWf();
    TaggedWf(Message());
  }

  lemma NoticeNames()
    ensures DistinctNames(Notice().fields)
  {
    DistinctByMarks(Notice().fields,
      [(9, 'l'), (9, 'i'), (4, 'y'), (4, 'a')]);
  }

  lemma NoticeTypes()
    ensures TypesWf(Notice().fields, 3)
  {
  }

  lemma NoticeCasesWf()
    ensures CasesWf(NoticeCases())
  {
    HeartbeatWf();
  }

  lemma NoticeWf()
    ensures WfTy(Notice())
  {
    NoticeNames();
    NoticeTypes();
    NoticeCasesWf();
    TaggedWf(Notice());
  }

  lemma RequestNames()
    ensures DistinctNames(RequestFields())
  {
    DistinctByMarks(RequestFields(),
      [(4, 'y'), (6, 'a')]);
  }

  lemma RequestTypes()
    ensures TypesWf(RequestFields(), 1)
  {
  }

  lemma RequestCasesWf()
    ensures CasesWf(RequestCases())
  {
    LoginStepWf();
    MessageWf();
  }

  lemma RequestWf()
    ensures WfTy(Request())
  {
    RequestNames();
    RequestTypes();
    RequestCasesWf();
    TaggedWf(Request());
  }

  lemma ResponseNames()
    ensures DistinctNames(ResponseFields())
  {
    DistinctByMarks(ResponseFields(),
      [(4, 'y'), (5, 'r'), (4, 'a')]);
  }

  lemma ResponseTypes()
    ensures TypesWf(ResponseFields(), 2)
  {
    ErrorResponseWf();
  }

  lemma ResponseCasesWf()
    ensures CasesWf(ResponseCases())
  {
    UsersWf();
    GroupInfoWf();
    LoginStepWf();
    MessageWf();
  }

  lemma ResponseWf()
    ensures WfTy(Response())
  {
    ResponseNames();
    ResponseTypes();
    ResponseCasesWf();
    TaggedWf(Response());
  }

  lemma PacketNames()
    ensures DistinctNames(PacketFields())
  {
    DistinctByMarks(PacketFields(),
      [(2, 'd'), (4, 'x'), (4, 'y'), (7, 'a')]);
  }

  lemma PacketTypes()
    ensures TypesWf(PacketFields(), 3)
  {
  }

  lemma PacketCasesWf()
    ensures CasesWf(PacketCases())
  {
    RequestWf();
    ResponseWf();
    NoticeWf();
    MessageWf();
    PointerWf(Request());
    PointerWf(Response());
    PointerWf(Notice());
    PointerWf(Message());
    PacketCasesOfWf(TPtr(Request()), TPtr(Response()), TPtr(Notice()), TPtr(Message()));
  }

  lemma PacketWf()
    ensures WfTy(Packet())
  {
    PacketNames();
    PacketTypes();
    PacketCasesWf();
    TaggedWf(Packet());
  }
}
