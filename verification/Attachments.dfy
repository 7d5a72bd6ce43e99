/** What the conversion of an Octopus message to Matrix makes of its attachment: from_octopus.go
    on messages as protocol.go decodes them. */
module Attachments {
  import opened Wrappers
  import opened Json
  import opened Protocol
  import opened Rpc

  /** The conversions that take the first of the media parts. */
  const SINGLE: set<string> := {"sticker", "audio", "video", "file"}

  predicate IsMedia(kind: string) {
    kind == "image" || kind in SINGLE
  }

  /** The type that the conversion of this kind asserts on the attachment. */
  function Attached(kind: string): Option<Ty> {
    if IsMedia(kind) then Some(Blobs())
    else if kind == "location" then Some(TPtr(LocationData()))
    else if kind == "app" then Some(TPtr(AppData()))
    else None
  }

  function KindOf(m: Val): string {
    if m.VStruct? && |m.vs| == 10 && m.vs[5].VString? then m.vs[5].s else ""
  }

  function AttachmentOf(m: Val): AnyVal {
    if m.VStruct? && |m.vs| == 10 && m.vs[9].VAny? then m.vs[9].a else ANil
  }

  function NameOf(blob: Val): string {
    if blob.VStruct? && |blob.vs| == 3 && blob.vs[0].VString? then blob.vs[0].s else ""
  }

  function MimeOf(blob: Val): string {
    if blob.VStruct? && |blob.vs| == 3 && blob.vs[1].VString? then blob.vs[1].s else ""
  }

  /** Its file name cannot be made: looking up a type that the library does not know gives nil,
      whose extension is asked for. A file that has a name is not looked up. */
  predicate Nameless(kind: string, known: string -> bool, blob: Val) {
    !known(MimeOf(blob)) && (kind != "file" || NameOf(blob) == "")
  }

  /** A nil blob cannot be prepared either. */
  predicate Unprepared(kind: string, known: string -> bool, blob: Val) {
    blob == VNil || (blob.VPtr? && Nameless(kind, known, blob.v))
  }

  predicate HasUnprepared(kind: string, known: string -> bool, blobs: seq<Val>) {
    exists i :: 0 <= i < |blobs| && Unprepared(kind, known, blobs[i])
  }

  /** ToMatrix panics on the message: a kind without a conversion has no part, an assertion
      fails, a blob cannot be prepared, a nil pointer is dereferenced, or the first of no media
      parts is taken. `known` is what the library for media types knows. */
  predicate Unfit(m: Val, known: string -> bool) {
    var kind := KindOf(m);
    if kind == "text" || kind == "revoke" then false
    else if Attached(kind).None? then true
    else
      match Downcast(Attached(kind).value, AttachmentOf(m))
      case Got(VSlice(blobs)) => HasUnprepared(kind, known, blobs) || (kind in SINGLE && blobs == [])
      case Got(v) => v == VNil && kind != "image"
      case _ => true
  }

  lemma {:induction false} AttachmentCaseOf(kind: string)
    ensures FindCase(MessageCases(), kind) == Attached(kind)
  {
    FindCaseIs(MessageCases(), kind,
      if kind == "image" then 0 else if kind == "sticker" then 1 else if kind == "audio" then 2
      else if kind == "video" then 3 else if kind == "file" then 4 else if kind == "location" then 5
      else if kind == "app" then 6 else 7);
  }

  lemma {:induction false} DecodedMessage(j: Json)
    requires Decode(Message(), j).Success?
    ensures var m := Decode(Message(), j).value;
      && m.VStruct? && |m.vs| == 10
      && BodyDecoded(AttachmentOf(m), Attached(KindOf(m)), Find(Members(j), "attachment"))
  {
    MessageWf();
    AttachmentCaseOf(KindOf(Decode(Message(), j).value));
    DecodedAsMessage(Message(), MessageFields(), MessageCases(), j);
  }

  lemma {:induction false} DecodedAsMessage(ty: Ty, fs: seq<Field>, cases: seq<Case>, j: Json)
    requires ty == Tagged("Message", fs, 5, 9, None, cases) && WfTy(ty) && Decode(ty, j).Success?
    requires |fs| == 10 && fs[9].name == "attachment"
    ensures var m := Decode(ty, j).value;
      && m.VStruct? && |m.vs| == 10
      && BodyDecoded(AttachmentOf(m), FindCase(cases, KindOf(m)), Find(Members(j), "attachment"))
  {
    DecodedBody(ty, j);
  }

  lemma {:induction false} DecodedItem(ty: Ty, js: seq<Json>, i: nat)
    requires DecodeAll(ty, js).Success? && i < |js|
    ensures i < |DecodeAll(ty, js).value| && Decode(ty, js[i]) == Success(DecodeAll(ty, js).value[i])
    decreases i
  {
    if i > 0 {
      DecodedItem(ty, js[1..], i - 1);
    }
  }

  lemma {:induction false} DecodedLength(ty: Ty, js: seq<Json>)
    requires DecodeAll(ty, js).Success?
    ensures |DecodeAll(ty, js).value| == |js|
  {
    if js != [] {
      DecodedLength(ty, js[1..]);
    }
  }

  /** A list of pointers has a nil exactly where the array has a null, and elsewhere what the
      item decodes to. */
  lemma {:induction false} DecodedPointers(ty: Ty, j: Json)
    requires j != Null && Decode(TSlice(TPtr(ty)), j).Success?
    ensures var v := Decode(TSlice(TPtr(ty)), j).value;
      && j.Arr? && v.VSlice? && |v.items| == |j.items|
      && forall i :: 0 <= i < |v.items| ==> PointerTo(ty, j.items[i], v.items[i])
  {
    var vs := DecodeAll(TPtr(ty), j.items).value;
    DecodedLength(TPtr(ty), j.items);
    forall i | 0 <= i < |vs|
      ensures PointerTo(ty, j.items[i], vs[i])
    {
      DecodedItem(TPtr(ty), j.items, i);
    }
  }

  predicate PointerTo(ty: Ty, j: Json, v: Val) {
    if j == Null then v == VNil else v.VPtr? && Decode(ty, j) == Success(v.v)
  }

  /** An item of the attachment array that cannot be prepared: a null, or a blob whose MIME type
      the library does not know, unless it is a file that has a name. */
  predicate BadItem(kind: string, known: string -> bool, j: Json) {
    j == Null || (!known(TextIn(j, "mime")) && (kind == "file" ==> TextIn(j, "name") == ""))
  }

  lemma {:induction false} BlobNames(j: Json)
    requires Decode(BlobData(), j).Success?
    ensures var blob := Decode(BlobData(), j).value;
      NameOf(blob) == TextIn(j, "name") && MimeOf(blob) == TextIn(j, "mime")
  {
    MemberDecoded(BlobData(), j, 0);
    MemberDecoded(BlobData(), j, 1);
  }

  predicate HasBadItem(kind: string, known: string -> bool, items: seq<Json>) {
    exists i :: 0 <= i < |items| && BadItem(kind, known, items[i])
  }

  lemma UnpreparedIff(kind: string, known: string -> bool, items: seq<Json>, blobs: seq<Val>)
    requires |items| == |blobs| && forall i :: 0 <= i < |blobs| ==> PointerTo(BlobData(), items[i], blobs[i])
    ensures HasUnprepared(kind, known, blobs) <==> HasBadItem(kind, known, items)
  {
    forall i | 0 <= i < |blobs|
      ensures Unprepared(kind, known, blobs[i]) <==> BadItem(kind, known, items[i])
    {
      assert PointerTo(BlobData(), items[i], blobs[i]);
      if items[i] != Null { BlobNames(items[i]); }
    }
  }

  /** For every message that decodes: its conversion panics exactly if its kind has none, or it
      is a media message with a null or a blob of unknown type among its attachments, or one
      that has a single part and no blob. No assertion on an attachment ever fails. */
  lemma {:induction false} UnfitIff(j: Json, known: string -> bool)
    requires Decode(Message(), j).Success?
    ensures var m := Decode(Message(), j).value;
      var kind, a := KindOf(m), Find(Members(j), "attachment");
      && (Attached(kind).Some? ==> Downcast(Attached(kind).value, AttachmentOf(m)).Got?)
      && (Unfit(m, known) <==>
            || kind !in {"text", "revoke", "location", "app", "image", "sticker", "audio", "video", "file"}
            || (kind in {"image", "sticker", "audio", "video", "file"}
                && a.Some? && a.value.Arr? && HasBadItem(kind, known, a.value.items))
            || (kind in {"sticker", "audio", "video", "file"} && a == Some(Arr([]))))
  {
    DecodedMessage(j);
    var m := Decode(Message(), j).value;
    var a := Find(Members(j), "attachment");
    if IsMedia(KindOf(m)) {
      MediaIff(m, a, known);
    } else {
      OtherIff(m, a, known);
    }
  }

  lemma MediaIff(m: Val, a: Option<Json>, known: string -> bool)
    requires IsMedia(KindOf(m)) && BodyDecoded(AttachmentOf(m), Some(Blobs()), a)
    ensures a.value.Arr? && Downcast(Blobs(), AttachmentOf(m)).Got?
    ensures Unfit(m, known) <==>
      HasBadItem(KindOf(m), known, a.value.items) || (KindOf(m) != "image" && a.value.items == [])
  {
    DecodedPointers(BlobData(), a.value);
    UnpreparedIff(KindOf(m), known, a.value.items, AttachmentOf(m).v.items);
  }

  lemma OtherIff(m: Val, a: Option<Json>, known: string -> bool)
    requires !IsMedia(KindOf(m)) && BodyDecoded(AttachmentOf(m), Attached(KindOf(m)), a)
    ensures Attached(KindOf(m)).Some? ==> Downcast(Attached(KindOf(m)).value, AttachmentOf(m)).Got?
    ensures Unfit(m, known) <==> KindOf(m) !in {"text", "revoke", "location", "app"}
  {
  }
}
