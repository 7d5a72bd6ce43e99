/** Matrix-side message IDs: "<chat>:<id>" for real messages, "fake:<chat>:<data>" for notices
    that stand for no Octopus message. */
module MessageIds {
  import opened Wrappers

  function MakeMessageId(chat: string, id: string): string {
    chat + ":" + id
  }

  function MakeFakeMessageId(chat: string, data: string): string {
    "fake:" + chat + ":" + data
  }

  datatype ParsedId = ParsedId(chat: string, id: string)

  datatype ParseError = FakeId | InvalidId

  /** The text before the first colon and the text after it, or the whole if there is none. */
  function SplitOnce(s: string): (parts: seq<string>)
    ensures ':' !in s ==> parts == [s]
    ensures ':' in s ==> |parts| == 2 && s == parts[0] + ":" + parts[1] && ':' !in parts[0]
  {
    if s == "" then [s]
    else if s[0] == ':' then ["", s[1..]]
    else
      var rest := SplitOnce(s[1..]);
      if |rest| == 2 then [[s[0]] + rest[0], rest[1]] else [s]
  }

  function ParseMessageId(m: string): Result<ParsedId, ParseError> {
    var parts := SplitOnce(m);
    if |parts| == 2 then
      if parts[0] == "fake" then Failure(FakeId) else Success(ParsedId(parts[0], parts[1]))
    else Failure(InvalidId)
  }

  /** The chat IDs that the format can carry. */
  predicate Clean(chat: string) {
    ':' !in chat && chat != "fake"
  }

  /** The text before the first colon determines the split. */
  lemma {:induction false} SplitMade(chat: string, rest: string)
    requires ':' !in chat
    ensures SplitOnce(chat + ":" + rest) == [chat, rest]
  {
    var s := chat + ":" + rest;
    if chat == "" {
      assert s == ":" + rest && s[1..] == rest;
    } else {
      assert s[1..] == chat[1..] + ":" + rest;
      SplitMade(chat[1..], rest);
      assert [chat[0]] + chat[1..] == chat;
    }
  }

  /** Parsing undoes making for every id, exactly for the clean chats. */
  lemma ParseMakeIff(chat: string, id: string)
    ensures ParseMessageId(MakeMessageId(chat, id)) == Success(ParsedId(chat, id)) <==> Clean(chat)
  {
    if ':' !in chat {
      SplitMade(chat, id);
    }
  }

  /** What is accepted, and as what: exactly the IDs made from a clean chat. */
  lemma ParseIff(m: string, chat: string, id: string)
    ensures ParseMessageId(m) == Success(ParsedId(chat, id)) <==> Clean(chat) && m == MakeMessageId(chat, id)
  {
    if Clean(chat) && m == MakeMessageId(chat, id) {
      SplitMade(chat, id);
    }
  }

  /** What is rejected, and why. */
  lemma RejectIff(m: string)
    ensures ParseMessageId(m) == Failure(InvalidId) <==> ':' !in m
    ensures ParseMessageId(m) == Failure(FakeId) <==> "fake:" <= m
  {
    if "fake:" <= m {
      assert m == "fake" + ":" + m[5..];
      SplitMade("fake", m[5..]);
    }
    if ':' in m {
      var parts := SplitOnce(m);
      assert parts[0] == "fake" ==> m[..5] == "fake:";
    }
  }

  /** Among chats without a colon, different messages have different IDs. */
  lemma MakeInjective(chat1: string, id1: string, chat2: string, id2: string)
    requires ':' !in chat1 && ':' !in chat2 && MakeMessageId(chat1, id1) == MakeMessageId(chat2, id2)
    ensures chat1 == chat2 && id1 == id2
  {
    SplitMade(chat1, id1);
    SplitMade(chat2, id2);
  }

  /** In general, two chats have messages with the same ID exactly when one chat is the other,
      a colon and something more. */
  lemma CollideIff(chat1: string, chat2: string)
    requires chat1 != chat2
    ensures (exists id1, id2 :: MakeMessageId(chat1, id1) == MakeMessageId(chat2, id2)) <==>
            chat1 + ":" <= chat2 || chat2 + ":" <= chat1
  {
    if chat1 + ":" <= chat2 {
      Collision(chat1, chat2);
    } else if chat2 + ":" <= chat1 {
      Collision(chat2, chat1);
    }
    if exists id1, id2 :: MakeMessageId(chat1, id1) == MakeMessageId(chat2, id2) {
      var id1, id2 :| MakeMessageId(chat1, id1) == MakeMessageId(chat2, id2);
      if |chat1| <= |chat2| { LongerChat(chat1, id1, chat2, id2); } else { LongerChat(chat2, id2, chat1, id1); }
    }
  }

  lemma Collision(short: string, long: string)
    requires short + ":" <= long
    ensures MakeMessageId(short, long[|short| + 1..] + ":") == MakeMessageId(long, "")
  {
    assert long == short + ":" + long[|short| + 1..];
  }

  lemma LongerChat(short: string, id1: string, long: string, id2: string)
    requires |short| <= |long| && short != long && MakeMessageId(short, id1) == MakeMessageId(long, id2)
    ensures short + ":" <= long
  {
    var m := MakeMessageId(long, id2);
    assert m[..|short|] == short && m[..|long|] == long;
    assert m[..|short| + 1] == short + ":" && long[..|short| + 1] == m[..|short| + 1];
  }

  /** Fake IDs are always rejected, and are exactly the IDs of a chat named "fake" whose
      message has a colon in its id: no clean chat makes one. */
  lemma FakeIsRejected(chat: string, data: string)
    ensures ParseMessageId(MakeFakeMessageId(chat, data)) == Failure(FakeId)
    ensures MakeFakeMessageId(chat, data) == MakeMessageId("fake", chat + ":" + data)
  {
    SplitMade("fake", chat + ":" + data);
    assert MakeFakeMessageId(chat, data) == "fake" + ":" + (chat + ":" + data);
  }

  lemma FakeIsNeverReal(chat: string, id: string, fakeChat: string, data: string)
    requires Clean(chat)
    ensures MakeMessageId(chat, id) != MakeFakeMessageId(fakeChat, data)
  {
    SplitMade(chat, id);
    FakeIsRejected(fakeChat, data);
  }
}
