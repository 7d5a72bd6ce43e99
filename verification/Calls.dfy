/** The typed calls over a whole connection: what a client method makes of the response that
    the transmit protocol, in any interleaving, hands to it. */
module Calls {
  import opened Wrappers
  import opened Json
  import opened Protocol
  import opened Rpc
  import T = Transmit
  import TransmitTheorems
  import TransmitOutcomes
  import Resync

  // ---------- Where answers come from ----------

  /** The responses handed to handlers. */
  function Arrivals(ls: seq<T.Label>): set<T.Packet> {
    set l | l in ls && l.Arrive? :: l.p
  }

  /** Every response in the state is one of these. */
  ghost predicate Within(s: T.State, heard: set<T.Packet>) {
    && (forall h :: 0 <= h < |s.handlers| ==> s.handlers[h].p in heard)
    && (forall n :: n in s.chans && s.chans[n].buffer.Some? ==> s.chans[n].buffer.value in heard)
    && (forall c :: 0 <= c < |s.calls| && T.HasOutcome(s.calls[c]) && s.calls[c].o.Answered? ==>
          s.calls[c].o.p in heard)
  }

  lemma HandlerWithin(s: T.State, l: T.Label, heard: set<T.Packet>)
    requires Within(s, heard) && T.Can(s, l) && T.Handles(l) && (l.Arrive? ==> l.p in heard)
    ensures Within(T.Do(s, l), heard)
  {
    assert T.Do(s, l).calls == s.calls;
  }

  lemma CallerWithin(s: T.State, l: T.Label, heard: set<T.Packet>)
    requires Within(s, heard) && T.Can(s, l) && !T.Handles(l)
    ensures Within(T.Do(s, l), heard)
  {
    assert T.Do(s, l).handlers == s.handlers;
  }

  /** Nothing is made up: every response anywhere in a run has arrived. */
  lemma {:induction false} AllArrived(ls: seq<T.Label>, heard: set<T.Packet>)
    requires T.Legal(ls) && Arrivals(ls) <= heard
    ensures Within(T.Run(ls), heard)
    decreases |ls|
  {
    if ls != [] {
      var front, l := ls[..|ls| - 1], ls[|ls| - 1];
      assert Arrivals(front) <= Arrivals(ls) && (l.Arrive? ==> l.p in Arrivals(ls));
      AllArrived(front, heard);
      if T.Handles(l) { HandlerWithin(T.Run(front), l, heard); } else { CallerWithin(T.Run(front), l, heard); }
    }
  }

  // ---------- Typed calls in a run ----------

  predicate IsResponse(j: Json, id: int) {
    && Decode(Packet(), j).Success?
    && TagOf(Decode(Packet(), j).value) == "response" && IdOf(Decode(Packet(), j).value) == id
  }

  /** The responses that arrive are packets of js: the body of each says which. */
  ghost predicate Feeds(heard: set<T.Packet>, js: seq<Json>) {
    forall p :: p in heard ==> p.body.Data? && 0 <= p.body.value < |js| && IsResponse(js[p.body.value], p.id)
  }

  /** What a client method returns when its transmit ends like this. */
  function ResultOf(kind: string, js: seq<Json>, o: T.Outcome): CallResult {
    match o
    case Answered(p) =>
      if p.body.Data? && 0 <= p.body.value < |js| && Decode(Packet(), js[p.body.value]).Success? then
        Finish(kind, PayloadOf(Decode(Packet(), js[p.body.value]).value))
      else Failed
    case _ => Failed
  }

  /** The call took a response and has returned. */
  ghost predicate TookAndReturned(ls: seq<T.Label>, c: nat)
    requires T.Legal(ls)
  {
    T.Take(c) in ls && c < |T.Run(ls).calls| && T.Run(ls).calls[c].Returned?
  }

  /** In every interleaving, a call that took a response returns what the client method makes of
      the first one that was sent into its channel, which carries the call's own ID. */
  lemma AnsweredFromOwn(ls: seq<T.Label>, c: nat, js: seq<Json>, kind: string) returns (k: nat)
    requires T.Legal(ls) && TookAndReturned(ls, c) && Feeds(Arrivals(ls), js)
    ensures k < |js| && IsResponse(js[k], T.WireId(T.Run(ls).calls[c].n))
    ensures var first := TransmitOutcomes.FirstSent(ls, T.Run(ls).calls[c].n);
      first.Some? && first.value.body == T.Data(k)
    ensures ResultOf(kind, js, T.Run(ls).calls[c].o) == Finish(kind, PayloadOf(Decode(Packet(), js[k]).value))
  {
    var p := AnswerArrived(ls, c);
    TransmitTheorems.Correlated(ls, c);
    k := p.body.value;
  }

  /** A call that took no response returns an error, and its timeout fired, its write failed or
      there was no connection. */
  lemma {:induction false} UnansweredFails(ls: seq<T.Label>, c: nat, js: seq<Json>, kind: string)
    requires T.Legal(ls) && c < |T.Run(ls).calls| && T.Run(ls).calls[c].Returned? && T.Take(c) !in ls
    ensures ResultOf(kind, js, T.Run(ls).calls[c].o) == Failed
    ensures T.Timeout(c) in ls || T.WriteFail(c) in ls || T.NoConn(c) in ls
  {
    TransmitOutcomes.OutcomeIff(ls, c);
  }

  lemma AnswerArrived(ls: seq<T.Label>, c: nat) returns (p: T.Packet)
    requires T.Legal(ls) && TookAndReturned(ls, c)
    ensures p in Arrivals(ls) && T.Run(ls).calls[c].o == T.Answered(p)
    ensures TransmitOutcomes.FirstSent(ls, T.Run(ls).calls[c].n) == Some(p)
  {
    TransmitOutcomes.AnsweredWithFirst(ls, c);
    AllArrived(ls, Arrivals(ls));
    p := T.Run(ls).calls[c].o.p;
  }

  /** If the agent answers the request with data of its type under its own name, however often,
      late or mixed with other packets, a call that took a response gets that data as the type
      it asserts. */
  lemma {:induction false} AnsweredCallGets(ls: seq<T.Label>, c: nat, js: seq<Json>, kind: string, ty: Ty,
                                            data: Val, mxid: string)
    requires T.Legal(ls) && TookAndReturned(ls, c) && Feeds(Arrivals(ls), js)
    requires Asserted(kind) == Some(ty) && HasType(ty, data) && Encode(ty, data) != Null
    requires var id := T.WireId(T.Run(ls).calls[c].n);
      forall k :: 0 <= k < |js| && IsResponse(js[k], id) ==>
        js[k] == Encode(Packet(), AnswerPacket(id, mxid, kind, ATyped(ty, data)))
    ensures ResultOf(kind, js, T.Run(ls).calls[c].o) == Got(Norm(ty, data))
  {
    var id := T.WireId(T.Run(ls).calls[c].n);
    var k := AnsweredFromOwn(ls, c, js, kind);
    assert IsResponse(js[k], id);
    WireIdInRange(T.Run(ls).calls[c].n);
    FullAnswerArrives(id, mxid, kind, ty, data);
    AnswerFinishes(id, mxid, kind, ty, Norm(ty, data));
  }

  lemma WireIdInRange(n: nat)
    ensures INT64.lo <= T.WireId(n) <= INT64.hi
  {
  }

  // ---------- The background resync's calls ----------

  /** The avatar of a user information. */
  function AvatarOf(v: Val): string {
    if v.VPtr? && v.v.VStruct? && |v.v.vs| == 4 && v.v.vs[3].VString? then v.v.vs[3].s else ""
  }

  /** The avatar can be wrapped: there is none, or it parses as a URL. The error of a failed
      parse is not looked at, and its nil result is dereferenced. */
  predicate Wraps(parses: string -> bool, avatar: string) {
    avatar == "" || parses(avatar)
  }

  /** What comes of a background GetUserInfo and the conversion of its contact; `parses` is what
      the URL parser accepts. */
  function ContactOf(c: CallResult, parses: string -> bool): Resync.Contact {
    match c
    case Got(v) => if v != VNil && Wraps(parses, AvatarOf(v)) then Resync.Fetched else Resync.Fatal
    case Failed => Resync.NotFetched
    case _ => Resync.Fatal
  }

  /** The data of the response, decoded as user information. */
  function ContactIn(j: Json): Option<Val> {
    match Find(Members(j), "data")
    case None => None
    case Some(data) =>
      match Decode(TPtr(UserInfo()), data)
      case Failure(_) => None
      case Success(v) => Some(v)
  }

  /** For every response to a background GetUserInfo that decodes: a refusal is skipped; user
      information without an avatar, or with one that parses, is used; and everything else is
      fatal, user information with another avatar included. */
  lemma {:induction false} ContactIff(j: Json, parses: string -> bool)
    requires Decode(Response(), j).Success?
    ensures var r := Decode(Response(), j).value;
      var c := ContactOf(FinishResponse("get_user_info", r), parses);
      && (c.NotFetched? <==> Refusal(r))
      && (c.Fetched? <==>
            && !Refusal(r) && TypeOf(r) in {"get_login_info", "get_user_info"}
            && ContactIn(j).Some? && Wraps(parses, AvatarOf(ContactIn(j).value)))
  {
    PanicIff("get_user_info", j);
    NoDataIff("get_user_info", j);
    GotIff("get_user_info", j);
    SameDataIff(TypeOf(Decode(Response(), j).value));
  }

  /** Such a fatal contact exists: the avatar need only be one the parser refuses. */
  lemma BadAvatarIsFatal(id: int, mxid: string, name: string, avatar: string, parses: string -> bool)
    requires INT64.lo <= id <= INT64.hi && avatar != "" && !parses(avatar)
    ensures var data := VPtr(VStruct([VString("1"), VString(name), VString(""), VString(avatar)]));
      var p := AnswerPacket(id, mxid, "get_user_info", ATyped(TPtr(UserInfo()), data));
      var d := Decode(Packet(), Encode(Packet(), p));
      d.Success? && ContactOf(Finish("get_user_info", PayloadOf(d.value)), parses) == Resync.Fatal
  {
    var vs := [VString("1"), VString(name), VString(""), VString(avatar)];
    var data := VPtr(VStruct(vs));
    assert HasType(UserInfo(), VStruct(vs));
    FullAnswerArrives(id, mxid, "get_user_info", TPtr(UserInfo()), data);
    AnswerFinishes(id, mxid, "get_user_info", TPtr(UserInfo()), Norm(TPtr(UserInfo()), data));
    NormFieldsAt(UserInfoFields(), vs, 3);
    assert AvatarOf(Norm(TPtr(UserInfo()), data)) == avatar;
  }

  lemma SameDataIff(kind: string)
    ensures Asserted(kind) == Asserted("get_user_info") <==> kind in {"get_login_info", "get_user_info"}
  {
  }
}
