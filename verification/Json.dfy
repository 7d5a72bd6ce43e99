/** Go's encoding/json on JSON trees, driven by type descriptors: a descriptor says what the
    Go type, its struct tags and its UnmarshalJSON method say. */
module Json {
  import opened Wrappers

  // ---------- JSON trees ----------

  type Byte = b: int | 0 <= b < 256

  datatype Member = Member(key: string, val: Json)

  datatype Json =
    | Null
    | Bool(b: bool)
    | Num(r: real, plain: bool)    // plain: written without fraction or exponent
    | Str(s: string)
    | Base64(bytes: seq<Byte>)      // a string that is the base64 form of some bytes
    | Arr(items: seq<Json>)
    | Obj(members: seq<Member>)

  /** Two letters outside ASCII fold to one inside: the long s and the Kelvin sign. */
  function Lower(c: char): char {
    if 'A' <= c <= 'Z' then c + 32 as char
    else if c == '\U{017F}' then 's'
    else if c == '\U{212A}' then 'k'
    else c
  }

  /** Field names match up to case. */
  function Fold(s: string): string {
    seq(|s|, i requires 0 <= i < |s| => Lower(s[i]))
  }

  function Find(ms: seq<Member>, name: string): (r: Option<Json>)
    ensures r.Some? ==> exists k :: 0 <= k < |ms| && ms[k].val == r.value
  {
    if ms == [] then None
    else if Fold(ms[|ms| - 1].key) == Fold(name) then Some(ms[|ms| - 1].val)
    else Find(ms[..|ms| - 1], name)
  }

  // ---------- Go types and values ----------

  datatype Omit = Never | IfEmpty | Always   // no option, `omitempty`, `-`

  datatype Field = Field(name: string, omit: Omit, ty: Ty)

  datatype Case = Case(tag: string, ty: Ty)

  /** An UnmarshalJSON method: the field numbered `body`, of type any, is decoded as the type
      that `cases` gives for the string in field `tag`, and stays raw if there is none or if
      the pointer in field `guard` is set. */
  datatype Union = Union(tag: nat, body: nat, guard: Option<nat>, cases: seq<Case>)

  datatype Ty =
    | TString
    | TBool
    | TInt(lo: int, hi: int)
    | TFloat
    | TBytes
    | TPtr(elem: Ty)
    | TSlice(elem: Ty)
    | TAny
    | TStruct(name: string, fields: seq<Field>, union: Option<Union>)

  datatype Val =
    | VString(s: string)
    | VBool(b: bool)
    | VInt(i: int)
    | VFloat(r: real)
    | VBytes(bytes: Option<seq<Byte>>)
    | VNil                           // a nil pointer or a nil slice
    | VPtr(v: Val)
    | VSlice(items: seq<Val>)
    | VStruct(vs: seq<Val>)
    | VAny(a: AnyVal)

  datatype AnyVal =
    | ANil
    | ATyped(ty: Ty, v: Val)         // a value of this dynamic type
    | ARaw(j: Json)                  // *json.RawMessage
    | ARawEmpty                      // *json.RawMessage of no bytes at all

  function FindCase(cases: seq<Case>, tag: string): Option<Ty> {
    if cases == [] then None else if cases[0].tag == tag then Some(cases[0].ty) else FindCase(cases[1..], tag)
  }

  /** The type the body of a struct has to be decoded as. */
  function BodyType(u: Union, vs: seq<Val>): Option<Ty> {
    if u.guard.Some? && u.guard.value < |vs| && vs[u.guard.value] != VNil then None
    else if u.tag < |vs| && vs[u.tag].VString? then FindCase(u.cases, vs[u.tag].s)
    else None
  }

  // ---------- Well-formed descriptors ----------

  predicate DistinctNames(fs: seq<Field>) {
    forall i, j :: 0 <= i < j < |fs| ==> Fold(fs[i].name) != Fold(fs[j].name)
  }

  predicate UnionFits(u: Union, fs: seq<Field>) {
    && u.tag < |fs| && fs[u.tag].ty == TString && fs[u.tag].omit == Never
    && u.body < |fs| && fs[u.body].ty == TAny && fs[u.body].omit == IfEmpty
    && (u.guard.Some? ==> u.guard.value < |fs| && fs[u.guard.value].ty.TPtr? && fs[u.guard.value].omit != Always)
  }

  predicate FieldsFit(fs: seq<Field>, union: Option<Union>) {
    && DistinctNames(fs)
    && (union.Some? ==> UnionFits(union.value, fs))
    && (forall i :: 0 <= i < |fs| && fs[i].ty == TAny ==> union.Some? && union.value.body == i)
  }

  predicate WfTy(ty: Ty)
    decreases ty
  {
    match ty
    case TPtr(e) => e.TStruct? && WfTy(e)
    case TSlice(e) => e != TAny && WfTy(e)
    case TStruct(_, fs, union) =>
      && FieldsFit(fs, union)
      && (forall i :: 0 <= i < |fs| ==> WfTy(fs[i].ty))
      && (union.Some? ==> forall i :: 0 <= i < |union.value.cases| ==>
            union.value.cases[i].ty != TAny && WfTy(union.value.cases[i].ty))
    case _ => true
  }

  // ---------- Encoding ----------

  function IsEmpty(v: Val): bool {
    match v
    case VString(s) => s == ""
    case VBool(b) => !b
    case VInt(i) => i == 0
    case VFloat(r) => r == 0.0
    case VBytes(b) => b.None? || b.value == []
    case VNil => true
    case VSlice(items) => items == []
    case VAny(a) => a == ANil
    case _ => false
  }

  predicate Skipped(f: Field, v: Val) {
    f.omit == Always || (f.omit == IfEmpty && IsEmpty(v))
  }

  function EncodeFloat(r: real): Json {
    Num(r, r.Floor as real == r && -1.0e21 < r < 1.0e21)
  }

  function Encode(ty: Ty, v: Val): Json
    decreases v, 1
  {
    match v
    case VString(s) => Str(s)
    case VBool(b) => Bool(b)
    case VInt(i) => Num(i as real, true)
    case VFloat(r) => EncodeFloat(r)
    case VBytes(b) => if b.Some? then Base64(b.value) else Null
    case VNil => Null
    case VPtr(w) => if ty.TPtr? then Encode(ty.elem, w) else Null
    case VSlice(items) => if ty.TSlice? then Arr(EncodeAll(ty.elem, items)) else Null
    case VStruct(vs) => if ty.TStruct? then Obj(EncodeFields(ty.fields, vs)) else Null
    case VAny(ATyped(t, w)) => Encode(t, w)
    case VAny(ARaw(j)) => j
    case VAny(_) => Null
  }

  function EncodeAll(ty: Ty, items: seq<Val>): (js: seq<Json>)
    ensures |js| == |items|
    decreases items, 0
  {
    if items == [] then [] else [Encode(ty, items[0])] + EncodeAll(ty, items[1..])
  }

  function EncodeFields(fs: seq<Field>, vs: seq<Val>): seq<Member>
    decreases vs, 0
  {
    if fs == [] || vs == [] then []
    else (if Skipped(fs[0], vs[0]) then [] else [Member(fs[0].name, Encode(fs[0].ty, vs[0]))])
         + EncodeFields(fs[1..], vs[1..])
  }

  // ---------- Decoding ----------

  datatype DecodeError = TypeMismatch | UnexpectedEnd

  type Decoded = Result<Val, DecodeError>

  function Zero(ty: Ty): Val
    decreases ty
  {
    match ty
    case TString => VString("")
    case TBool => VBool(false)
    case TInt(_, _) => VInt(0)
    case TFloat => VFloat(0.0)
    case TBytes => VBytes(None)
    case TPtr(_) => VNil
    case TSlice(_) => VNil
    case TAny => VAny(ANil)
    case TStruct(_, fs, _) => VStruct(ZeroAll(fs))
  }

  function ZeroAll(fs: seq<Field>): (vs: seq<Val>)
    ensures |vs| == |fs|
    decreases fs
  {
    if fs == [] then [] else [Zero(fs[0].ty)] + ZeroAll(fs[1..])
  }

  function DecodeScalar(ty: Ty, j: Json): Decoded {
    match (ty, j)
    case (_, Null) => Success(Zero(ty))
    case (TString, Str(s)) => Success(VString(s))
    case (TBool, Bool(b)) => Success(VBool(b))
    case (TInt(lo, hi), Num(r, plain)) =>
      if plain && r.Floor as real == r && lo <= r.Floor <= hi then Success(VInt(r.Floor)) else Failure(TypeMismatch)
    case (TFloat, Num(r, _)) => Success(VFloat(r))
    case (TBytes, Base64(b)) => Success(VBytes(Some(b)))
    case (TBytes, Arr(items)) =>
      (match DecodeBytes(items) case Some(b) => Success(VBytes(Some(b))) case None => Failure(TypeMismatch))
    case _ => Failure(TypeMismatch)
  }

  /** Bytes may also come as an array of numbers; a null stands for zero. */
  function DecodeBytes(items: seq<Json>): (r: Option<seq<Byte>>)
    ensures r.Some? ==> |r.value| == |items|
  {
    if items == [] then Some([])
    else
      match (items[0], DecodeBytes(items[1..]))
      case (_, None) => None
      case (Null, Some(bs)) => Some([0] + bs)
      case (Num(r, plain), Some(bs)) =>
        if plain && r.Floor as real == r && 0 <= r.Floor < 256 then Some([r.Floor] + bs) else None
      case _ => None
  }

  /** A null decodes as the zero value. */
  lemma {:induction false} NullIsZero(lo: int, hi: int, t: Ty, name: string, fs: seq<Field>)
    ensures Decode(TString, Null) == Success(VString("")) && Decode(TBool, Null) == Success(VBool(false))
    ensures Decode(TInt(lo, hi), Null) == Success(VInt(0)) && Decode(TFloat, Null) == Success(VFloat(0.0))
    ensures Decode(TBytes, Null) == Success(VBytes(None))
    ensures Decode(TPtr(t), Null) == Success(VNil) && Decode(TSlice(t), Null) == Success(VNil)
    ensures Decode(TStruct(name, fs, None), Null) == Success(VStruct(ZeroAll(fs)))
  {
  }

  /** A number decodes as an integer exactly if it is one, is written as one and is in range, as a
      whole float64 below 1e21 is; and it never decodes as text or as a truth value. */
  lemma IntegerIff(lo: int, hi: int, r: real, plain: bool)
    ensures forall i :: Decode(TInt(lo, hi), Num(r, plain)) == Success(VInt(i)) <==>
                        plain && i as real == r && lo <= i <= hi
    ensures !plain || r.Floor as real != r || r.Floor < lo || hi < r.Floor ==>
      Decode(TInt(lo, hi), Num(r, plain)) == Failure(TypeMismatch)
    ensures Decode(TString, Num(r, plain)).Failure? && Decode(TBool, Num(r, plain)).Failure?
    ensures forall i :: Decode(TInt(lo, hi), Encode(TFloat, VFloat(r))) == Success(VInt(i)) <==>
                        i as real == r && lo <= i <= hi && -1.0e21 < r < 1.0e21
  {
  }

  function ByteNumbers(bs: seq<Byte>): seq<Json> {
    seq(|bs|, i requires 0 <= i < |bs| => Num(bs[i] as real, true))
  }

  /** Both forms of the same bytes decode alike. */
  lemma {:induction false} BytesEitherWay(bs: seq<Byte>)
    ensures Decode(TBytes, Arr(ByteNumbers(bs))) == Decode(TBytes, Base64(bs))
  {
    if bs != [] {
      BytesEitherWay(bs[1..]);
      assert ByteNumbers(bs)[1..] == ByteNumbers(bs[1..]);
      assert [bs[0]] + bs[1..] == bs;
    }
  }

  /** The bytes json.RawMessage has kept of the body: none at all for an absent member, and
      none for null, which sets the interface to nil without reaching the RawMessage. */
  function RawBody(raw: Option<Json>): AnyVal {
    match raw
    case None => ARawEmpty
    case Some(Null) => ANil
    case Some(j) => ARaw(j)
  }

  function Members(j: Json): seq<Member> {
    if j.Obj? then j.members else []
  }

  /** Decoding into a zero value; on a struct null is a no-op. */
  function Decode(ty: Ty, j: Json): Decoded
    decreases j, ty
  {
    match ty
    case TPtr(e) =>
      if j == Null then Success(VNil)
      else (match Decode(e, j) case Success(v) => Success(VPtr(v)) case Failure(x) => Failure(x))
    case TSlice(e) =>
      (match j
       case Null => Success(VNil)
       case Arr(items) =>
         (match DecodeAll(e, items) case Success(vs) => Success(VSlice(vs)) case Failure(x) => Failure(x))
       case _ => Failure(TypeMismatch))
    case TStruct(_, fs, union) =>
      if j.Obj? then
        (match DecodeFields(fs, j.members)
         case Failure(x) => Failure(x)
         case Success(vs) =>
           if union.None? then Success(VStruct(vs))
           else
             var raw := if union.value.body < |fs| then Find(j.members, fs[union.value.body].name) else None;
             var t := BodyType(union.value, vs);
             if t.None? then Success(VStruct(SetBody(union.value, vs, RawBody(raw))))
             else if raw.None? || raw.value == Null then Failure(UnexpectedEnd)
             else
               (match Decode(t.value, raw.value)
                case Failure(x) => Failure(x)
                case Success(v) => Success(VStruct(SetBody(union.value, vs, ATyped(t.value, v))))))
      else if j == Null then
        if union.None? then Success(Zero(ty))
        else if BodyType(union.value, ZeroAll(fs)).None? then
          Success(VStruct(SetBody(union.value, ZeroAll(fs), ARawEmpty)))
        else Failure(UnexpectedEnd)
      else Failure(TypeMismatch)
    case TAny => Success(VAny(ANil))   // filled in by SetBody
    case _ => DecodeScalar(ty, j)
  }

  function SetBody(u: Union, vs: seq<Val>, a: AnyVal): seq<Val> {
    if u.body < |vs| then vs[u.body := VAny(a)] else vs
  }

  function DecodeAll(ty: Ty, js: seq<Json>): Result<seq<Val>, DecodeError>
    decreases js, ty
  {
    if js == [] then Success([])
    else
      match Decode(ty, js[0])
      case Failure(x) => Failure(x)
      case Success(v) =>
        match DecodeAll(ty, js[1..])
        case Failure(x) => Failure(x)
        case Success(vs) => Success([v] + vs)
  }

  function DecodeFields(fs: seq<Field>, ms: seq<Member>): (r: Result<seq<Val>, DecodeError>)
    ensures r.Success? ==> |r.value| == |fs|
    decreases ms, fs
  {
    if fs == [] then Success([])
    else
      match DecodeField(fs[0], ms)
      case Failure(x) => Failure(x)
      case Success(v) =>
        match DecodeFields(fs[1..], ms)
        case Failure(x) => Failure(x)
        case Success(vs) => Success([v] + vs)
  }

  function DecodeField(f: Field, ms: seq<Member>): Decoded
    decreases ms, f
  {
    if f.omit == Always || f.ty == TAny || Find(ms, f.name).None? then Success(Zero(f.ty))
    else Decode(f.ty, Find(ms, f.name).value)
  }

  // ---------- Values that fit a descriptor ----------

  /** The value has the descriptor's type, and what its tag promises: where the tag asks for a
      typed body there is one of that type, and it is not nil. */
  predicate HasType(ty: Ty, v: Val)
    decreases v, 1
  {
    match v
    case VString(_) => ty == TString
    case VBool(_) => ty == TBool
    case VInt(i) => ty.TInt? && ty.lo <= i <= ty.hi
    case VFloat(_) => ty == TFloat
    case VBytes(_) => ty == TBytes
    case VNil => ty.TPtr? || ty.TSlice?
    case VPtr(w) => ty.TPtr? && HasType(ty.elem, w)
    case VSlice(items) => ty.TSlice? && AllHaveType(ty.elem, items)
    case VStruct(vs) =>
      && ty.TStruct? && |vs| == |ty.fields| && FieldsHaveType(ty.fields, vs)
      && (ty.union.None? || (ty.union.value.body < |vs| && vs[ty.union.value.body].VAny?
                             && BodyFits(vs[ty.union.value.body].a, BodyType(ty.union.value, vs))))
    case VAny(_) => ty == TAny
  }

  predicate BodyFits(a: AnyVal, t: Option<Ty>)
    decreases a, 0
  {
    match a
    case ATyped(ty, w) => HasType(ty, w) && (t.Some? ==> t.value == ty && Encode(ty, w) != Null)
    case ARawEmpty => false
    case _ => t.None?
  }

  predicate AllHaveType(ty: Ty, items: seq<Val>)
    decreases items, 0
  {
    forall i :: 0 <= i < |items| ==> HasType(ty, items[i])
  }

  predicate FieldsHaveType(fs: seq<Field>, vs: seq<Val>)
    decreases vs, 0
  {
    |fs| == |vs| && forall i :: 0 <= i < |vs| ==> HasType(fs[i].ty, vs[i])
  }

  // ---------- What survives a round trip ----------

  /** The value that comes back: fields tagged `-` and empty `omitempty` fields are zero, and a
      body without a typed form is left raw. */
  function Norm(ty: Ty, v: Val): Val
    decreases v, 1
  {
    match v
    case VPtr(w) => if ty.TPtr? then VPtr(Norm(ty.elem, w)) else v
    case VSlice(items) => if ty.TSlice? then VSlice(NormAll(ty.elem, items)) else v
    case VStruct(vs) =>
      if !ty.TStruct? then v
      else if ty.union.Some? && ty.union.value.body < |vs| && vs[ty.union.value.body].VAny? then
        VStruct(SetBody(ty.union.value, NormFields(ty.fields, vs),
                        NormBody(vs[ty.union.value.body].a, BodyType(ty.union.value, vs))))
      else VStruct(NormFields(ty.fields, vs))
    case _ => v
  }

  function NormBody(a: AnyVal, t: Option<Ty>): AnyVal
    decreases a, 0
  {
    match a
    case ATyped(ty, w) => if t.Some? then ATyped(ty, Norm(ty, w)) else RawBody(Some(Encode(ty, w)))
    case ARaw(j) => RawBody(Some(j))
    case _ => ARawEmpty
  }

  function NormAll(ty: Ty, items: seq<Val>): (r: seq<Val>)
    ensures |r| == |items|
    decreases items, 0
  {
    if items == [] then [] else [Norm(ty, items[0])] + NormAll(ty, items[1..])
  }

  function NormField(f: Field, v: Val): Val
    decreases v, 2
  {
    if Skipped(f, v) || f.ty == TAny then Zero(f.ty) else Norm(f.ty, v)
  }

  function NormFields(fs: seq<Field>, vs: seq<Val>): (r: seq<Val>)
    ensures |fs| == |vs| ==> |r| == |vs|
    decreases vs, 0
  {
    if fs == [] || vs == [] then [] else [NormField(fs[0], vs[0])] + NormFields(fs[1..], vs[1..])
  }

  lemma {:induction false} NormFieldsAt(fs: seq<Field>, vs: seq<Val>, i: nat)
    requires |fs| == |vs| && i < |fs|
    ensures NormFields(fs, vs)[i] == NormField(fs[i], vs[i])
    decreases i
  {
    if i > 0 {
      NormFieldsAt(fs[1..], vs[1..], i - 1);
    }
  }

  // ---------- Finding encoded fields again ----------

  lemma {:induction false} FindAppend(xs: seq<Member>, ys: seq<Member>, name: string)
    ensures Find(xs + ys, name) == if Find(ys, name).Some? then Find(ys, name) else Find(xs, name)
    decreases |ys|
  {
    if ys == [] {
      assert xs + ys == xs;
    } else {
      assert (xs + ys)[..|xs + ys| - 1] == xs + ys[..|ys| - 1];
      FindAppend(xs, ys[..|ys| - 1], name);
    }
  }

  lemma {:induction false} FindForeign(fs: seq<Field>, vs: seq<Val>, name: string)
    requires forall i :: 0 <= i < |fs| ==> Fold(fs[i].name) != Fold(name)
    ensures Find(EncodeFields(fs, vs), name) == None
    decreases |fs|
  {
    if fs != [] && vs != [] {
      FindForeign(fs[1..], vs[1..], name);
      var head := if Skipped(fs[0], vs[0]) then [] else [Member(fs[0].name, Encode(fs[0].ty, vs[0]))];
      FindAppend(head, EncodeFields(fs[1..], vs[1..]), name);
      assert head != [] ==> head[..|head| - 1] == [];
    }
  }

  /** Looking a field up in the encoding of its struct finds its own encoding, if it was written. */
  lemma {:induction false} FindEncoded(fs: seq<Field>, vs: seq<Val>, i: nat)
    requires |fs| == |vs| && i < |fs| && DistinctNames(fs)
    ensures Find(EncodeFields(fs, vs), fs[i].name) ==
            if Skipped(fs[i], vs[i]) then None else Some(Encode(fs[i].ty, vs[i]))
    decreases i
  {
    var head := if Skipped(fs[0], vs[0]) then [] else [Member(fs[0].name, Encode(fs[0].ty, vs[0]))];
    FindAppend(head, EncodeFields(fs[1..], vs[1..]), fs[i].name);
    assert head != [] ==> head[..|head| - 1] == [];
    if i == 0 {
      FindForeign(fs[1..], vs[1..], fs[0].name);
    } else {
      FindEncoded(fs[1..], vs[1..], i - 1);
    }
  }

  // ---------- The round trip ----------

  lemma {:induction false} FieldsDecode(fs: seq<Field>, ms: seq<Member>, vs: seq<Val>)
    requires |fs| == |vs|
    requires forall i :: 0 <= i < |fs| ==> DecodeField(fs[i], ms) == Success(vs[i])
    ensures DecodeFields(fs, ms) == Success(vs)
    decreases |fs|
  {
    if fs != [] {
      assert DecodeField(fs[0], ms) == Success(vs[0]);
      forall i | 0 <= i < |fs[1..]|
        ensures DecodeField(fs[1..][i], ms) == Success(vs[1..][i])
      {
        assert DecodeField(fs[i + 1], ms) == Success(vs[i + 1]);
      }
      FieldsDecode(fs[1..], ms, vs[1..]);
      assert [vs[0]] + vs[1..] == vs;
    }
  }

  /** Decoding what was encoded gives the value back, up to Norm: for every well-formed
      descriptor and every value of its type. */
  lemma {:induction false} RoundTrip(ty: Ty, v: Val)
    requires WfTy(ty) && ty != TAny && HasType(ty, v)
    ensures Decode(ty, Encode(ty, v)) == Success(Norm(ty, v))
    decreases v, 1
  {
    match v
    case VPtr(w) =>
      RoundTrip(ty.elem, w);
    case VSlice(items) =>
      RoundTripAll(ty.elem, items);
    case VStruct(vs) =>
      RoundTripStruct(ty, vs);
    case _ =>
  }

  lemma {:induction false} RoundTripAll(ty: Ty, items: seq<Val>)
    requires WfTy(ty) && ty != TAny && AllHaveType(ty, items)
    ensures DecodeAll(ty, EncodeAll(ty, items)) == Success(NormAll(ty, items))
    decreases items, 0
  {
    if items != [] {
      RoundTrip(ty, items[0]);
      RoundTripAll(ty, items[1..]);
    }
  }

  lemma {:induction false} RoundTripField(fs: seq<Field>, vs: seq<Val>, i: nat)
    requires |fs| == |vs| && i < |fs| && DistinctNames(fs) && WfTy(fs[i].ty) && HasType(fs[i].ty, vs[i])
    ensures DecodeField(fs[i], EncodeFields(fs, vs)) == Success(NormField(fs[i], vs[i]))
    decreases vs, 0
  {
    FindEncoded(fs, vs, i);
    if !Skipped(fs[i], vs[i]) && fs[i].ty != TAny {
      RoundTrip(fs[i].ty, vs[i]);
    }
  }

  lemma {:induction false} BodyTypeKept(ty: Ty, vs: seq<Val>)
    requires ty.TStruct? && ty.union.Some? && WfTy(ty) && FieldsHaveType(ty.fields, vs)
    ensures BodyType(ty.union.value, NormFields(ty.fields, vs)) == BodyType(ty.union.value, vs)
  {
    var u := ty.union.value;
    NormFieldsAt(ty.fields, vs, u.tag);
    assert HasType(ty.fields[u.tag].ty, vs[u.tag]);
    if u.guard.Some? {
      NormFieldsAt(ty.fields, vs, u.guard.value);
      assert HasType(ty.fields[u.guard.value].ty, vs[u.guard.value]);
    }
  }

  lemma {:induction false} RoundTripFields(fs: seq<Field>, vs: seq<Val>)
    requires DistinctNames(fs) && FieldsHaveType(fs, vs) && forall i :: 0 <= i < |fs| ==> WfTy(fs[i].ty)
    ensures DecodeFields(fs, EncodeFields(fs, vs)) == Success(NormFields(fs, vs))
    decreases vs, 1
  {
    forall i | 0 <= i < |fs|
      ensures DecodeField(fs[i], EncodeFields(fs, vs)) == Success(NormFields(fs, vs)[i])
    {
      RoundTripField(fs, vs, i);
      NormFieldsAt(fs, vs, i);
    }
    FieldsDecode(fs, EncodeFields(fs, vs), NormFields(fs, vs));
  }

  lemma {:induction false} RoundTripStruct(ty: Ty, vs: seq<Val>)
    requires ty.TStruct? && WfTy(ty) && HasType(ty, VStruct(vs))
    ensures Decode(ty, Encode(ty, VStruct(vs))) == Success(Norm(ty, VStruct(vs)))
    decreases vs, 2
  {
    RoundTripFields(ty.fields, vs);
    if ty.union.Some? {
      FindEncoded(ty.fields, vs, ty.union.value.body);
      BodyTypeKept(ty, vs);
      RoundTripBody(ty, vs);
      SecondStage(ty, vs);
    }
  }

  /** The second stage of UnmarshalJSON, after the fields have come back. */
  lemma {:induction false} SecondStage(ty: Ty, vs: seq<Val>)
    requires ty.TStruct? && ty.union.Some? && WfTy(ty) && HasType(ty, VStruct(vs))
    requires DecodeFields(ty.fields, EncodeFields(ty.fields, vs)) == Success(NormFields(ty.fields, vs))
    requires var b := ty.union.value.body;
      Find(EncodeFields(ty.fields, vs), ty.fields[b].name) ==
      if Skipped(ty.fields[b], vs[b]) then None else Some(Encode(ty.fields[b].ty, vs[b]))
    requires BodyType(ty.union.value, NormFields(ty.fields, vs)) == BodyType(ty.union.value, vs)
    requires BodyReturns(vs[ty.union.value.body].a, BodyType(ty.union.value, vs))
    ensures Decode(ty, Encode(ty, VStruct(vs))) == Success(Norm(ty, VStruct(vs)))
  {
  }

  ghost predicate BodyReturns(a: AnyVal, t: Option<Ty>) {
    t.Some? ==> a.ATyped? && a.ty == t.value && Encode(a.ty, a.v) != Null
                && Decode(a.ty, Encode(a.ty, a.v)) == Success(Norm(a.ty, a.v))
  }

  lemma {:induction false} RoundTripBody(ty: Ty, vs: seq<Val>)
    requires ty.TStruct? && ty.union.Some? && WfTy(ty) && HasType(ty, VStruct(vs))
    ensures BodyReturns(vs[ty.union.value.body].a, BodyType(ty.union.value, vs))
    decreases vs, 0
  {
    var u := ty.union.value;
    var t := BodyType(u, vs);
    if t.Some? {
      CaseIsWf(u.cases, vs[u.tag].s);
      RoundTrip(t.value, vs[u.body].a.v);
    }
  }

  lemma {:induction false} CaseIsWf(cases: seq<Case>, tag: string)
    requires forall i :: 0 <= i < |cases| ==> cases[i].ty != TAny && WfTy(cases[i].ty)
    ensures FindCase(cases, tag).Some? ==> FindCase(cases, tag).value != TAny && WfTy(FindCase(cases, tag).value)
  {
    if cases != [] && cases[0].tag != tag {
      CaseIsWf(cases[1..], tag);
    }
  }

  /** A struct with the body its tag asks for has its type. */
  lemma {:induction false} TypedBody(ty: Ty, vs: seq<Val>, t: Ty, w: Val)
    requires ty.TStruct? && ty.union.Some? && FieldsHaveType(ty.fields, vs)
    requires ty.union.value.body < |vs| && vs[ty.union.value.body] == VAny(ATyped(t, w))
    requires BodyType(ty.union.value, vs) == Some(t) && HasType(t, w) && Encode(t, w) != Null
    ensures HasType(ty, VStruct(vs))
  {
    assert BodyFits(vs[ty.union.value.body].a, Some(t));
  }

  /** Norm reaches only the body where every other field is kept. */
  lemma {:induction false} NormTypedBody(ty: Ty, vs: seq<Val>, t: Ty, w: Val)
    requires ty.TStruct? && ty.union.Some? && |ty.fields| == |vs|
    requires ty.union.value.body < |vs| && vs[ty.union.value.body] == VAny(ATyped(t, w))
    requires BodyType(ty.union.value, vs) == Some(t)
    requires forall i :: 0 <= i < |vs| && i != ty.union.value.body ==> NormField(ty.fields[i], vs[i]) == vs[i]
    ensures Norm(ty, VStruct(vs)) == VStruct(vs[ty.union.value.body := VAny(ATyped(t, Norm(t, w)))])
  {
    var b, ns := ty.union.value.body, NormFields(ty.fields, vs);
    forall i | 0 <= i < |vs| && i != b
      ensures ns[i] == vs[i]
    {
      NormFieldsAt(ty.fields, vs, i);
    }
    assert ns[b := VAny(ATyped(t, Norm(t, w)))] == vs[b := VAny(ATyped(t, Norm(t, w)))];
  }

  /** Where the tag asks for a type, a body that is nil or that does not decode as that type
      fails the whole struct. */
  lemma {:induction false} BodyFails(ty: Ty, vs: seq<Val>, t: Ty, w: Val)
    requires ty.TStruct? && ty.union.Some? && WfTy(ty) && FieldsHaveType(ty.fields, vs)
    requires ty.union.value.body < |vs| && vs[ty.union.value.body] == VAny(ATyped(t, w))
    requires BodyType(ty.union.value, vs) == Some(t) && (Encode(t, w) == Null || Decode(t, Encode(t, w)).Failure?)
    ensures Decode(ty, Encode(ty, VStruct(vs))).Failure?
  {
    FieldsReturn(ty, vs);
    WrittenBody(ty.fields, vs, ty.union.value.body, t, w);
    BodyTypeKept(ty, vs);
    SecondStageFails(ty, EncodeFields(ty.fields, vs), NormFields(ty.fields, vs), t);
    assert Encode(ty, VStruct(vs)) == Obj(EncodeFields(ty.fields, vs));
  }

  lemma {:induction false} WrittenBody(fs: seq<Field>, vs: seq<Val>, b: nat, t: Ty, w: Val)
    requires |fs| == |vs| && b < |fs| && DistinctNames(fs) && vs[b] == VAny(ATyped(t, w))
    ensures var raw := Find(EncodeFields(fs, vs), fs[b].name); raw == None || raw == Some(Encode(t, w))
  {
    FindEncoded(fs, vs, b);
  }

  lemma {:induction false} FieldsReturn(ty: Ty, vs: seq<Val>)
    requires ty.TStruct? && WfTy(ty) && FieldsHaveType(ty.fields, vs)
    ensures DistinctNames(ty.fields)
    ensures DecodeFields(ty.fields, EncodeFields(ty.fields, vs)) == Success(NormFields(ty.fields, vs))
  {
    RoundTripFields(ty.fields, vs);
  }

  lemma {:induction false} SecondStageFails(ty: Ty, ms: seq<Member>, ns: seq<Val>, t: Ty)
    requires ty.TStruct? && ty.union.Some? && ty.union.value.body < |ty.fields|
    requires DecodeFields(ty.fields, ms) == Success(ns) && BodyType(ty.union.value, ns) == Some(t)
    requires var raw := Find(ms, ty.fields[ty.union.value.body].name);
      raw.Some? ==> raw.value == Null || Decode(t, raw.value).Failure?
    ensures Decode(ty, Obj(ms)).Failure?
  {
  }

  // ---------- When the value comes back unchanged ----------

  /** Nothing is lost: omitted fields hold their zero value and every body is typed as its
      tag asks. */
  predicate Lossless(ty: Ty, v: Val)
    decreases v, 1
  {
    match v
    case VPtr(w) => ty.TPtr? && Lossless(ty.elem, w)
    case VSlice(items) => ty.TSlice? && forall i :: 0 <= i < |items| ==> Lossless(ty.elem, items[i])
    case VStruct(vs) =>
      && ty.TStruct? && |vs| == |ty.fields|
      && (forall i :: 0 <= i < |vs| && ty.fields[i].ty != TAny ==>
            if Skipped(ty.fields[i], vs[i]) then vs[i] == Zero(ty.fields[i].ty) else Lossless(ty.fields[i].ty, vs[i]))
      && (ty.union.Some? ==>
            && ty.union.value.body < |vs| && vs[ty.union.value.body].VAny?
            && BodyType(ty.union.value, vs).Some?
            && BodyLossless(vs[ty.union.value.body].a))
    case _ => true
  }

  predicate BodyLossless(a: AnyVal)
    decreases a, 0
  {
    a.ATyped? && Lossless(a.ty, a.v)
  }

  lemma {:induction false} NormLossless(ty: Ty, v: Val)
    requires WfTy(ty) && ty != TAny && HasType(ty, v) && Lossless(ty, v)
    ensures Norm(ty, v) == v
    decreases v, 1
  {
    match v
    case VPtr(w) => NormLossless(ty.elem, w);
    case VSlice(items) => NormAllLossless(ty.elem, items);
    case VStruct(vs) => NormStructLossless(ty, vs);
    case _ =>
  }

  lemma {:induction false} NormFieldLossless(ty: Ty, vs: seq<Val>, i: nat)
    requires ty.TStruct? && WfTy(ty) && HasType(ty, VStruct(vs)) && Lossless(ty, VStruct(vs))
    requires i < |vs| && ty.fields[i].ty != TAny
    ensures NormFields(ty.fields, vs)[i] == vs[i]
    decreases vs, 0
  {
    NormFieldsAt(ty.fields, vs, i);
    assert HasType(ty.fields[i].ty, vs[i]);
    if !Skipped(ty.fields[i], vs[i]) { NormLossless(ty.fields[i].ty, vs[i]); }
  }

  lemma {:induction false} NormBodyLossless(ty: Ty, vs: seq<Val>)
    requires ty.TStruct? && ty.union.Some? && WfTy(ty) && HasType(ty, VStruct(vs)) && Lossless(ty, VStruct(vs))
    ensures var u := ty.union.value;
      NormBody(vs[u.body].a, BodyType(u, vs)) == vs[u.body].a
    decreases vs, 0
  {
    var u := ty.union.value;
    CaseIsWf(u.cases, vs[u.tag].s);
    NormLossless(vs[u.body].a.ty, vs[u.body].a.v);
  }

  lemma {:induction false} NormStructLossless(ty: Ty, vs: seq<Val>)
    requires ty.TStruct? && WfTy(ty) && HasType(ty, VStruct(vs)) && Lossless(ty, VStruct(vs))
    ensures Norm(ty, VStruct(vs)) == VStruct(vs)
    decreases vs, 1
  {
    var ns := NormFields(ty.fields, vs);
    forall i | 0 <= i < |vs| && ty.fields[i].ty != TAny
      ensures ns[i] == vs[i]
    {
      NormFieldLossless(ty, vs, i);
    }
    if ty.union.Some? {
      NormBodyLossless(ty, vs);
      assert SetBody(ty.union.value, ns, vs[ty.union.value.body].a) == vs;
    } else {
      assert ns == vs;
    }
  }

  lemma {:induction false} NormAllLossless(ty: Ty, items: seq<Val>)
    requires WfTy(ty) && ty != TAny && AllHaveType(ty, items)
    requires forall i :: 0 <= i < |items| ==> Lossless(ty, items[i])
    ensures NormAll(ty, items) == items
    decreases items, 0
  {
    if items != [] {
      NormLossless(ty, items[0]);
      NormAllLossless(ty, items[1..]);
    }
  }

  /** A lossless value comes back exactly. */
  lemma {:induction false} ExactRoundTrip(ty: Ty, v: Val)
    requires WfTy(ty) && ty != TAny && HasType(ty, v) && Lossless(ty, v)
    ensures Decode(ty, Encode(ty, v)) == Success(v)
  {
    RoundTrip(ty, v);
    NormLossless(ty, v);
  }

  // ---------- What decoding promises about any input ----------

  lemma {:induction false} DecodedAt(fs: seq<Field>, ms: seq<Member>, i: nat)
    requires DecodeFields(fs, ms).Success? && i < |fs|
    ensures DecodeField(fs[i], ms) == Success(DecodeFields(fs, ms).value[i])
    decreases i
  {
    if i > 0 {
      DecodedAt(fs[1..], ms, i - 1);
    }
  }

  lemma {:induction false} ZeroAt(fs: seq<Field>, i: nat)
    requires i < |fs|
    ensures ZeroAll(fs)[i] == Zero(fs[i].ty)
    decreases i
  {
    if i > 0 {
      ZeroAt(fs[1..], i - 1);
    }
  }

  /** The fields after the first of the two stages of UnmarshalJSON. */
  function FirstStage(fs: seq<Field>, j: Json): seq<Val>
    requires j.Obj? ==> DecodeFields(fs, j.members).Success?
  {
    if j.Obj? then DecodeFields(fs, j.members).value else ZeroAll(fs)
  }

  lemma {:induction false} FirstStageTag(fs: seq<Field>, u: Union, j: Json)
    requires UnionFits(u, fs) && (j.Obj? ==> DecodeFields(fs, j.members).Success?)
    ensures |FirstStage(fs, j)| == |fs| && FirstStage(fs, j)[u.tag].VString?
  {
    if j.Obj? {
      DecodedAt(fs, j.members, u.tag);
    } else {
      ZeroAt(fs, u.tag);
    }
  }

  ghost predicate BodyDecoded(a: AnyVal, t: Option<Ty>, raw: Option<Json>) {
    if t.None? then a == RawBody(raw)
    else raw.Some? && raw.value != Null && a.ATyped? && a.ty == t.value && Decode(t.value, raw.value) == Success(a.v)
  }

  /** Whatever was sent, if it decodes at all then the body has been decoded as the type its
      tag asks for, from a member that was there and was not null, and is raw or nil exactly
      when the tag asks for none. */
  lemma {:induction false} DecodedBody(ty: Ty, j: Json)
    requires ty.TStruct? && ty.union.Some? && WfTy(ty) && Decode(ty, j).Success?
    ensures var v, u := Decode(ty, j).value, ty.union.value;
      && v.VStruct? && |v.vs| == |ty.fields| && v.vs[u.tag].VString? && v.vs[u.body].VAny?
      && BodyDecoded(v.vs[u.body].a, BodyType(u, v.vs), Find(Members(j), ty.fields[u.body].name))
  {
    var u := ty.union.value;
    FirstStageTag(ty.fields, u, j);
    var vs := FirstStage(ty.fields, j);
    assert forall a :: BodyType(u, SetBody(u, vs, a)) == BodyType(u, vs);
  }

  /** The text under this name; empty if there is none. */
  function TextIn(j: Json, name: string): string {
    match Find(Members(j), name)
    case Some(Str(s)) => s
    case _ => ""
  }

  /** The integer under this name; zero if there is none. */
  function IntegerIn(j: Json, name: string): int {
    match Find(Members(j), name)
    case Some(Num(r, _)) => r.Floor
    case _ => 0
  }

  /** The value is what the member decodes to, and zero without one. */
  predicate DecodedFrom(ty: Ty, j: Option<Json>, v: Val) {
    match j
    case None => v == Zero(ty)
    case Some(x) => Decode(ty, x) == Success(v)
  }

  /** A field of text or of a number holds what stands in the tree under the field's name. */
  lemma {:induction false} MemberDecoded(ty: Ty, j: Json, i: nat)
    requires ty.TStruct? && Decode(ty, j).Success? && i < |ty.fields| && ty.fields[i].omit != Always
    requires ty.union.Some? ==> ty.union.value.body != i
    ensures Decode(ty, j).value.VStruct? && |Decode(ty, j).value.vs| == |ty.fields|
    ensures ty.fields[i].ty == TString ==> Decode(ty, j).value.vs[i] == VString(TextIn(j, ty.fields[i].name))
    ensures ty.fields[i].ty.TInt? ==> Decode(ty, j).value.vs[i] == VInt(IntegerIn(j, ty.fields[i].name))
    ensures ty.fields[i].ty != TAny ==>
      DecodedFrom(ty.fields[i].ty, Find(Members(j), ty.fields[i].name), Decode(ty, j).value.vs[i])
  {
    if j.Obj? {
      DecodedAt(ty.fields, j.members, i);
    } else {
      ZeroAt(ty.fields, i);
    }
  }

  /** Of several members with the name, the last one counts. */
  lemma {:induction false} FindLast(ms: seq<Member>, name: string, k: nat)
    requires k < |ms| && Fold(ms[k].key) == Fold(name)
    requires forall i :: k < i < |ms| ==> Fold(ms[i].key) != Fold(name)
    ensures Find(ms, name) == Some(ms[k].val)
    decreases |ms|
  {
    if k < |ms| - 1 {
      FindLast(ms[..|ms| - 1], name, k);
    }
  }

  lemma {:induction false} FindNone(ms: seq<Member>, name: string)
    ensures Find(ms, name) == None <==> forall i :: 0 <= i < |ms| ==> Fold(ms[i].key) != Fold(name)
    decreases |ms|
  {
    if ms != [] {
      FindNone(ms[..|ms| - 1], name);
    }
  }
}
