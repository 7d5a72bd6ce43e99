/** Which strings are decimal numbers, and which number each one stands for. */
module GeoNumbers {
  import opened Wrappers
  import opened Geo

  // ---------- Digits and powers of ten ----------

  /** Digits are read by place: those on the left count for ten times as much for every digit
      to their right. */
  lemma {:induction false} ValAppend(a: string, b: string)
    requires IsDigits(a) && IsDigits(b)
    ensures IsDigits(a + b) && Val(a + b) == Val(a) * Pow10(|b|) + Val(b)
    decreases |b|
  {
    if b == "" {
      assert a + b == a;
    } else {
      var front := b[..|b| - 1];
      ValAppend(a, front);
      assert (a + b)[..|a + b| - 1] == a + front;
      Regrouped(Val(a), Pow10(|front|), Val(front), (b[|b| - 1] - '0') as nat);
    }
  }

  lemma Regrouped(v: nat, p: nat, n: nat, d: nat)
    ensures (v * p + n) * 10 + d == v * (10 * p) + (n * 10 + d)
  {
    assert v * (10 * p) == (v * p) * 10;
  }

  lemma {:induction false} ShiftDivides(r: Magnitude, k: nat)
    ensures Shift(r, k) * Pow10(k) as real == r
    decreases k
  {
    if k > 0 {
      ShiftDivides(r / 10.0, k - 1);
      TenTimes(Shift(r, k), Pow10(k - 1), r / 10.0);
    }
  }

  lemma TenTimes(x: real, p: nat, y: real)
    requires x * p as real == y
    ensures x * (10 * p) as real == y * 10.0
  {
    assert (10 * p) as real == 10.0 * p as real;
  }

  lemma {:induction false} GrowMultiplies(r: Magnitude, k: nat)
    ensures Grow(r, k) == r * Pow10(k) as real
    decreases k
  {
    if k > 0 {
      GrowMultiplies(r * 10.0, k - 1);
      assert Pow10(k) as real == 10.0 * Pow10(k - 1) as real;
      assert r * 10.0 * Pow10(k - 1) as real == r * (10.0 * Pow10(k - 1) as real);
    }
  }

  // ---------- The form of a number ----------

  /** A sign or none */
  predicate IsSign(s: string) {
    s == "" || s == "+" || s == "-"
  }

  /** Digits before and after a point, or without one; not all of them missing. */
  predicate IsMantissa(m: string, a: string, b: string) {
    IsDigits(a) && IsDigits(b) && a + b != "" && ((m == a && b == "") || m == a + "." + b)
  }

  /** Nothing, or a letter e, a sign and digits. */
  ghost predicate IsExponent(t: string, e: int) {
    || (t == "" && e == 0)
    || exists c, sign, digits :: IsExponentOf(t, e, c, sign, digits)
  }

  predicate IsExponentOf(t: string, e: int, c: char, sign: string, digits: string) {
    && (c == 'e' || c == 'E') && IsSign(sign) && IsDigits(digits) && digits != ""
    && t == [c] + sign + digits && e == if sign == "-" then 0 - Val(digits) else Val(digits)
  }

  /** The digits before and after the point, read as one number. */
  function Joined(a: string, b: string): nat
    requires IsDigits(a) && IsDigits(b)
  {
    Val(a) * Pow10(|b|) + Val(b)
  }

  /** The magnitude is v divided by p, times ten to the e. */
  predicate IsValue(mag: real, v: real, p: real, e: int) {
    if e >= 0 then mag * p == v * Pow10(e) as real else mag * Pow10(-e) as real * p == v
  }

  // ---------- What is read ----------

  lemma UnsignedOf(sign: string, rest: string)
    requires IsSign(sign) && rest != "" && rest[0] !in {'+', '-'}
    ensures Unsigned(sign + rest) == rest && ((sign + rest)[0] == '-' <==> sign == "-")
  {
    if sign == "" {
      assert sign + rest == rest;
    } else {
      assert (sign + rest)[1..] == rest;
    }
  }

  lemma {:induction false} IndexAt(a: string, rest: string, cs: set<char>)
    requires (forall i :: 0 <= i < |a| ==> a[i] !in cs) && (rest == "" || rest[0] in cs)
    ensures IndexOf(a + rest, cs) == |a|
  {
    assert forall i :: 0 <= i < |a| ==> (a + rest)[i] == a[i];
    assert rest != "" ==> (a + rest)[|a|] == rest[0];
  }

  lemma {:induction false} ReadMantissa(m: string, a: string, b: string)
    requires IsMantissa(m, a, b)
    ensures IsDigits(a + b) && ParseMantissa(m) == Some(Shift(Val(a + b) as real, |b|))
  {
    if m == a && b == "" {
      IndexNone(m, {'.'});
      assert m[..|m|] + "" == a + b;
    } else {
      assert m == a + ("." + b);
      IndexAt(a, "." + b, {'.'});
      assert m[..|a|] == a && m[|a| + 1..] == b;
    }
  }

  lemma ReadExponent(t: string, e: int, c: char, sign: string, digits: string)
    requires IsExponentOf(t, e, c, sign, digits)
    ensures t != "" && t[0] in {'e', 'E'} && ParseExponent(t[1..]) == Some(e)
  {
    UnsignedOf(sign, digits);
    assert t[1..] == sign + digits;
  }

  lemma PlainMantissa(m: string, a: string, b: string)
    requires IsMantissa(m, a, b)
    ensures m != "" && forall i :: 0 <= i < |m| ==> '0' <= m[i] <= '9' || m[i] == '.'
  {
  }

  /** The exponent that ParseFloat finds behind the mantissa. */
  function ExponentIn(body: string): Option<int> {
    var k := IndexOf(body, {'e', 'E'});
    if k < |body| then ParseExponent(body[k + 1..]) else Some(0)
  }

  lemma ReadHead(m: string, t: string)
    ensures (m + t)[..|m|] == m && (t != "" ==> (m + t)[|m| + 1..] == t[1..])
  {
  }

  lemma {:induction false} ReadTail(m: string, t: string, e: int)
    requires m != "" && (forall i :: 0 <= i < |m| ==> m[i] !in {'e', 'E'}) && IsExponent(t, e)
    ensures IndexOf(m + t, {'e', 'E'}) == |m| && (m + t)[..|m|] == m && ExponentIn(m + t) == Some(e)
  {
    if t != "" {
      var c, sign, digits :| IsExponentOf(t, e, c, sign, digits);
      ReadExponent(t, e, c, sign, digits);
    }
    ReadHead(m, t);
    IndexAt(m, t, {'e', 'E'});
  }

  lemma {:induction false} ReadBody(s: string, body: string, m: string, e: int, v: Magnitude)
    requires Unsigned(s) == body && body != "" && ExponentIn(body) == Some(e)
    requires body[..IndexOf(body, {'e', 'E'})] == m && ParseMantissa(m) == Some(v)
    ensures ParseFloat(s) == Some(Float(s[0] == '-', Scale(v, e)))
  {
  }

  /** ParseFloat on a number taken apart. */
  lemma {:induction false} ReadNumber(sign: string, m: string, a: string, b: string, t: string, e: int)
    requires IsSign(sign) && IsMantissa(m, a, b) && IsExponent(t, e)
    ensures IsDigits(a + b)
    ensures ParseFloat(sign + m + t) == Some(Float(sign == "-", Scale(Shift(Val(a + b) as real, |b|), e)))
  {
    assert sign + m + t == sign + (m + t);
    PlainMantissa(m, a, b);
    assert (m + t)[0] == m[0];
    UnsignedOf(sign, m + t);
    ReadMantissa(m, a, b);
    ReadTail(m, t, e);
    ReadBody(sign + (m + t), m + t, m, e, Shift(Val(a + b) as real, |b|));
  }

  lemma ScaleMeans(r: Magnitude, e: int, p: real, v: real)
    requires r * p == v
    ensures IsValue(Scale(r, e), v, p, e)
  {
    if e >= 0 {
      GrowMultiplies(r, e);
      Swapped(r, Pow10(e) as real, p);
    } else {
      ShiftDivides(r, -e);
    }
  }

  lemma Swapped(x: real, y: real, z: real)
    ensures x * y * z == x * z * y
  {
  }

  lemma ShiftedValue(n: nat, k: nat, e: int, mag: real)
    requires mag == Scale(Shift(n as real, k), e)
    ensures IsValue(mag, n as real, Pow10(k) as real, e)
  {
    var r := Shift(n as real, k);
    ShiftDivides(n as real, k);
    ScaleMeans(r, e, Pow10(k) as real, n as real);
  }

  /** The value of every decimal number, with an exponent or without. */
  lemma {:induction false} NumberValue(sign: string, m: string, a: string, b: string, t: string, e: int)
    requires IsSign(sign) && IsMantissa(m, a, b) && IsExponent(t, e)
    ensures var r := ParseFloat(sign + m + t);
      && r.Some? && (r.value.negative <==> sign == "-")
      && IsValue(r.value.mag, Joined(a, b) as real, Pow10(|b|) as real, e)
  {
    ReadNumber(sign, m, a, b, t, e);
    JoinedValue(a, b, e, Scale(Shift(Val(a + b) as real, |b|), e));
  }

  lemma {:induction false} JoinedValue(a: string, b: string, e: int, mag: real)
    requires IsDigits(a) && IsDigits(b) && IsDigits(a + b) && mag == Scale(Shift(Val(a + b) as real, |b|), e)
    ensures IsValue(mag, Joined(a, b) as real, Pow10(|b|) as real, e)
  {
    ValAppend(a, b);
    ShiftedValue(Val(a + b), |b|, e, mag);
  }

  // ---------- And nothing else ----------

  ghost predicate IsNumber(s: string, sign: string, m: string, a: string, b: string, t: string, e: int) {
    s == sign + m + t && IsSign(sign) && IsMantissa(m, a, b) && IsExponent(t, e)
  }

  lemma DigitsApart(a: string, b: string)
    requires IsDigits(a + b)
    ensures IsDigits(a) && IsDigits(b)
  {
    assert forall i :: 0 <= i < |a| ==> (a + b)[i] == a[i];
    assert forall i :: 0 <= i < |b| ==> (a + b)[|a| + i] == b[i];
  }

  lemma PointAt(m: string, d: nat)
    requires d < |m| && m[d] == '.'
    ensures m == m[..d] + "." + m[d + 1..]
  {
  }

  lemma MantissaParts(m: string) returns (a: string, b: string)
    requires ParseMantissa(m).Some?
    ensures IsMantissa(m, a, b)
  {
    var d := IndexOf(m, {'.'});
    a := m[..d];
    b := if d < |m| then m[d + 1..] else "";
    DigitsApart(a, b);
    if d < |m| {
      PointAt(m, d);
    } else {
      assert m[..|m|] == m;
    }
  }

  lemma SignOf(s: string) returns (sign: string)
    ensures IsSign(sign) && s == sign + Unsigned(s)
  {
    sign := if s != "" && s[0] in {'+', '-'} then [s[0]] else "";
  }

  lemma ExponentParts(t: string)
    requires t != "" && t[0] in {'e', 'E'} && ParseExponent(t[1..]).Some?
    ensures IsExponent(t, ParseExponent(t[1..]).value)
  {
    var sign := SignOf(t[1..]);
    assert t == [t[0]] + sign + Unsigned(t[1..]);
    assert IsExponentOf(t, ParseExponent(t[1..]).value, t[0], sign, Unsigned(t[1..]));
  }

  lemma TailIn(body: string, k: nat, t: string) returns (e: int)
    requires k == IndexOf(body, {'e', 'E'}) && t == body[k..] && ExponentIn(body).Some?
    ensures IsExponent(t, e)
  {
    e := 0;
    if k < |body| {
      assert t[1..] == body[k + 1..];
      ExponentParts(t);
      e := ParseExponent(t[1..]).value;
    }
  }

  lemma Rejoined(s: string, sign: string, body: string, m: string, t: string, k: nat)
    requires s == sign + body && k <= |body| && m == body[..k] && t == body[k..]
    ensures s == sign + m + t
  {
  }

  lemma Accepts(s: string)
    requires ParseFloat(s).Some?
    ensures ExponentIn(Unsigned(s)).Some?
    ensures ParseMantissa(Unsigned(s)[..IndexOf(Unsigned(s), {'e', 'E'})]).Some?
  {
  }

  lemma NumberParts(s: string)
      returns (sign: string, m: string, a: string, b: string, t: string, e: int)
    requires ParseFloat(s).Some?
    ensures IsNumber(s, sign, m, a, b, t, e)
  {
    var body := Unsigned(s);
    Accepts(s);
    sign := SignOf(s);
    var k := IndexOf(body, {'e', 'E'});
    m, t := body[..k], body[k..];
    e := TailIn(body, k, t);
    a, b := MantissaParts(m);
    Rejoined(s, sign, body, m, t, k);
  }

  /** A string is accepted exactly if it is a decimal number. */
  lemma NumberIff(s: string)
    ensures ParseFloat(s).Some? <==> exists sign, m, a, b, t, e :: IsNumber(s, sign, m, a, b, t, e)
  {
    if ParseFloat(s).Some? {
      var sign, m, a, b, t, e := NumberParts(s);
    }
    forall sign, m, a, b, t, e | IsNumber(s, sign, m, a, b, t, e)
      ensures ParseFloat(s).Some?
    {
      ReadNumber(sign, m, a, b, t, e);
    }
  }
}
