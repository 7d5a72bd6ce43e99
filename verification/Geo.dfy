/** Locations as geo: URIs (RFC 5870, section 3.3, with two coordinates). A float64 is a sign and
    a real magnitude, so that negative zero is a number of its own. */
module Geo {
  import opened Wrappers

  // ---------- Signed numbers ----------

  type Magnitude = r: real | r >= 0.0

  datatype Float = Float(negative: bool, mag: Magnitude)

  function Value(x: Float): real {
    if x.negative then 0.0 - x.mag else x.mag
  }

  // ---------- Decimal digits ----------

  function Pow10(k: nat): (r: nat)
    ensures r > 0
  {
    if k == 0 then 1 else 10 * Pow10(k - 1)
  }

  function Digit(d: nat): (c: char)
    requires d < 10
    ensures '0' <= c <= '9'
  {
    '0' + d as char
  }

  predicate IsDigits(s: string) {
    forall i :: 0 <= i < |s| ==> '0' <= s[i] <= '9'
  }

  function Val(s: string): nat
    requires IsDigits(s)
  {
    if s == "" then 0 else Val(s[..|s| - 1]) * 10 + (s[|s| - 1] - '0') as nat
  }

  function Dec(n: nat): (s: string)
    ensures IsDigits(s) && s != ""
  {
    if n < 10 then [Digit(n)] else Dec(n / 10) + [Digit(n % 10)]
  }

  /** The last k digits of n. */
  function Pad(n: nat, k: nat): (s: string)
    ensures IsDigits(s) && |s| == k
    decreases k
  {
    if k == 0 then "" else Pad(n / 10, k - 1) + [Digit(n % 10)]
  }

  lemma {:induction false} ValSnoc(s: string, d: nat)
    requires IsDigits(s) && d < 10
    ensures Val(s + [Digit(d)]) == Val(s) * 10 + d
  {
    assert (s + [Digit(d)])[..|s|] == s;
  }

  lemma {:induction false} ValDec(n: nat)
    ensures Val(Dec(n)) == n
  {
    if n < 10 {
      assert [] + [Digit(n)] == [Digit(n)];
      ValSnoc("", n);
    } else {
      ValDec(n / 10);
      ValSnoc(Dec(n / 10), n % 10);
    }
  }

  lemma Regroup(v: nat, p: nat, n: nat)
    ensures (v * p + n / 10) * 10 + n % 10 == v * (10 * p) + n
  {
    assert v * (10 * p) == (v * p) * 10;
  }

  lemma {:induction false} ValPad(s: string, n: nat, k: nat)
    requires IsDigits(s) && n < Pow10(k)
    ensures Val(s + Pad(n, k)) == Val(s) * Pow10(k) + n
    decreases k
  {
    if k == 0 {
      assert s + Pad(n, k) == s;
    } else {
      ValPad(s, n / 10, k - 1);
      ValSnoc(s + Pad(n / 10, k - 1), n % 10);
      assert s + Pad(n, k) == (s + Pad(n / 10, k - 1)) + [Digit(n % 10)];
      Regroup(Val(s), Pow10(k - 1), n);
    }
  }

  // ---------- Printing: %.5f ----------

  function Abs(x: real): real {
    if x < 0.0 then -x else x
  }

  /** Ties go to the even neighbour. */
  function Nearest(y: real): (n: nat)
    requires y >= 0.0
    ensures -0.5 <= n as real - y <= 0.5
    ensures n as real - y in {-0.5, 0.5} ==> n % 2 == 0
  {
    var f := y.Floor;
    if y - f as real < 0.5 || (y - f as real == 0.5 && f % 2 == 0) then f else f + 1
  }

  function Units(x: Float): nat {
    Nearest(x.mag * 100000.0)
  }

  function Body(n: nat): string {
    Dec(n / 100000) + "." + Pad(n % 100000, 5)
  }

  /** The sign bit is printed, also that of a number that rounds to zero. */
  function Fixed5(x: Float): string {
    (if x.negative then "-" else "") + Body(Units(x))
  }

  /** convertLocationMessage */
  function GeoUri(lat: Float, long: Float): string {
    "geo:" + Fixed5(lat) + "," + Fixed5(long)
  }

  // ---------- Parsing ----------

  function IndexOf(s: string, cs: set<char>): (k: nat)
    ensures k <= |s| && (forall i :: 0 <= i < k ==> s[i] !in cs) && (k < |s| ==> s[k] in cs)
  {
    if s == "" || s[0] in cs then 0 else 1 + IndexOf(s[1..], cs)
  }

  function Unsigned(s: string): string {
    if s != "" && s[0] in {'+', '-'} then s[1..] else s
  }

  /** The decimal point moved k places to the left. */
  function Shift(r: Magnitude, k: nat): Magnitude
    decreases k
  {
    if k == 0 then r else Shift(r / 10.0, k - 1)
  }

  function Grow(r: Magnitude, k: nat): Magnitude
    decreases k
  {
    if k == 0 then r else Grow(r * 10.0, k - 1)
  }

  function ParseMantissa(m: string): Option<Magnitude> {
    var d := IndexOf(m, {'.'});
    var frac := if d < |m| then m[d + 1..] else "";
    if m[..d] + frac != "" && IsDigits(m[..d] + frac) then Some(Shift(Val(m[..d] + frac) as real, |frac|)) else None
  }

  function ParseExponent(s: string): Option<int> {
    if Unsigned(s) == "" || !IsDigits(Unsigned(s)) then None
    else if s[0] == '-' then Some(0 - Val(Unsigned(s)))
    else Some(Val(Unsigned(s)))
  }

  function Scale(r: Magnitude, e: int): Magnitude {
    if e < 0 then Shift(r, -e) else Grow(r, e)
  }

  /** strconv.ParseFloat on decimal numbers, with an exponent or without. The sign is put on after
      the magnitude has been read, so "-0" is negative zero. */
  function ParseFloat(s: string): Option<Float> {
    var body := Unsigned(s);
    var k := IndexOf(body, {'e', 'E'});
    var e := if k < |body| then ParseExponent(body[k + 1..]) else Some(0);
    var m := ParseMantissa(body[..k]);
    if m.None? || e.None? then None else Some(Float(s[0] == '-', Scale(m.value, e.value)))
  }

  /** strings.Split by one character */
  function Split(s: string, c: char): (parts: seq<string>)
    ensures |parts| > 0
  {
    var k := IndexOf(s, {c});
    if k == |s| then [s] else [s[..k]] + Split(s[k + 1..], c)
  }

  datatype GeoError = NoPrefix | NotTwoNumbers | BadLatitude | BadLongitude

  function ParseGeoUri(uri: string): Result<(Float, Float), GeoError> {
    if !("geo:" <= uri) then Failure(NoPrefix)
    else
      var coordinates := Split(Split(uri[4..], ';')[0], ',');
      if |coordinates| != 2 then Failure(NotTwoNumbers)
      else if ParseFloat(coordinates[0]).None? then Failure(BadLatitude)
      else if ParseFloat(coordinates[1]).None? then Failure(BadLongitude)
      else Success((ParseFloat(coordinates[0]).value, ParseFloat(coordinates[1]).value))
  }

  // ---------- Parsing what was printed ----------

  function Rounded(x: Float): Float {
    Float(x.negative, Units(x) as real / 100000.0)
  }

  lemma {:induction false} MantissaOf(a: string, b: string)
    requires IsDigits(a) && IsDigits(b) && a != ""
    ensures ParseMantissa(a + "." + b) == Some(Shift(Val(a + b) as real, |b|))
  {
    var m := a + "." + b;
    assert m[|a|] == '.';
    assert m[..|a|] == a && m[|a| + 1..] == b;
  }

  lemma {:induction false} UnitsDigits(n: nat)
    ensures Val(Dec(n / 100000) + Pad(n % 100000, 5)) == n
  {
    assert Pow10(5) == 10 * (10 * (10 * (10 * (10 * Pow10(0)))));
    ValDec(n / 100000);
    ValPad(Dec(n / 100000), n % 100000, 5);
  }

  lemma {:induction false} ShiftFive(r: Magnitude)
    ensures Shift(r, 5) == r / 100000.0
  {
    assert Shift(r, 5) == Shift(r / 10.0 / 10.0, 3) == Shift(r / 10.0 / 10.0 / 10.0 / 10.0, 1);
  }

  lemma ScaleByOne(r: Magnitude)
    ensures Scale(r, 0) == r
  {
  }

  lemma SignedParse(s: string, v: Magnitude)
    requires Unsigned(s) != "" && IndexOf(Unsigned(s), {'e', 'E'}) == |Unsigned(s)|
    requires ParseMantissa(Unsigned(s)) == Some(v)
    ensures ParseFloat(s) == Some(Float(s[0] == '-', v))
  {
    var body := Unsigned(s);
    assert body[..|body|] == body;
    ScaleByOne(v);
  }

  lemma BodyValue(n: nat)
    ensures ParseMantissa(Body(n)) == Some(n as real / 100000.0)
  {
    UnitsDigits(n);
    MantissaOf(Dec(n / 100000), Pad(n % 100000, 5));
    ShiftFive(n as real);
  }

  lemma BodyIsPlain(n: nat)
    ensures Body(n) != "" && forall i :: 0 <= i < |Body(n)| ==> '0' <= Body(n)[i] <= '9' || Body(n)[i] == '.'
  {
  }

  lemma {:induction false} IndexNone(s: string, cs: set<char>)
    requires forall i :: 0 <= i < |s| ==> s[i] !in cs
    ensures IndexOf(s, cs) == |s|
  {
  }

  lemma UnsignedPrinted(x: Float)
    ensures Fixed5(x) != "" && Unsigned(Fixed5(x)) == Body(Units(x)) && (Fixed5(x)[0] == '-' <==> x.negative)
  {
    BodyIsPlain(Units(x));
  }

  lemma PlainHasNoExponent(n: nat)
    ensures IndexOf(Body(n), {'e', 'E'}) == |Body(n)|
  {
    BodyIsPlain(n);
    IndexNone(Body(n), {'e', 'E'});
  }

  lemma ParseBody(s: string, n: nat, v: Magnitude, r: Float)
    requires s != "" && Unsigned(s) == Body(n) && v == n as real / 100000.0 && r == Float(s[0] == '-', v)
    ensures ParseFloat(s) == Some(r)
  {
    BodyIsPlain(n);
    PlainHasNoExponent(n);
    BodyValue(n);
    SignedParse(s, v);
  }

  lemma ParsePrinted(x: Float)
    ensures ParseFloat(Fixed5(x)) == Some(Rounded(x))
  {
    UnsignedPrinted(x);
    ParseBody(Fixed5(x), Units(x), Units(x) as real / 100000.0, Rounded(x));
  }

  lemma PrintedIsPlain(x: Float)
    ensures ',' !in Fixed5(x) && ';' !in Fixed5(x)
  {
    BodyIsPlain(Units(x));
  }

  lemma {:induction false} SplitNone(s: string, c: char)
    requires c !in s
    ensures Split(s, c) == [s]
  {
  }

  lemma {:induction false} SplitFirst(a: string, c: char, rest: string)
    requires c !in a
    ensures Split(a + [c] + rest, c) == [a] + Split(rest, c)
  {
    var s := a + [c] + rest;
    assert s[|a|] == c;
    assert s[..|a|] == a && s[|a| + 1..] == rest;
  }

  lemma {:induction false} SplitUri(a: string, b: string, tail: string)
    requires ',' !in a && ',' !in b && ';' !in a && ';' !in b && (tail == "" || tail[0] == ';')
    ensures Split(Split(a + "," + b + tail, ';')[0], ',') == [a, b]
  {
    var coordinates := a + "," + b;
    if tail == "" {
      assert coordinates + tail == coordinates;
      SplitNone(coordinates, ';');
    } else {
      assert coordinates + tail == coordinates + [';'] + tail[1..];
      SplitFirst(coordinates, ';', tail[1..]);
    }
    SplitFirst(a, ',', b);
    SplitNone(b, ',');
  }

  /** parseGeoURI reads back, for all coordinates, the string that convertLocationMessage
      prints, whatever parameters follow it. */
  lemma PrintedIsParsed(lat: Float, long: Float, params: string)
    requires params == "" || params[0] == ';'
    ensures ParseGeoUri(GeoUri(lat, long) + params) == Success((Rounded(lat), Rounded(long)))
  {
    ParsePrinted(lat);
    ParsePrinted(long);
    PrintedIsPlain(lat);
    PrintedIsPlain(long);
    GeoParts("geo:" + Fixed5(lat) + "," + Fixed5(long) + params, Fixed5(lat), Fixed5(long), params);
  }

  lemma GeoParts(uri: string, a: string, b: string, params: string)
    requires IsGeo(uri, a, b, params)
    ensures "geo:" <= uri && Split(Split(uri[4..], ';')[0], ',') == [a, b]
  {
    SplitUri(a, b, params);
    DropPrefix(a, b, params);
  }

  lemma DropPrefix(a: string, b: string, params: string)
    ensures var uri := "geo:" + a + "," + b + params; "geo:" <= uri && uri[4..] == a + "," + b + params
  {
    assert "geo:" + a + "," + b + params == "geo:" + (a + "," + b + params);
  }

  /** What is accepted, and as what: exactly two decimal numbers between the prefix and the
      first semicolon. */
  lemma AcceptedIff(uri: string, lat: Float, long: Float)
    ensures ParseGeoUri(uri) == Success((lat, long)) <==>
      exists a, b, params :: IsGeo(uri, a, b, params) && ParseFloat(a) == Some(lat) && ParseFloat(b) == Some(long)
  {
    if ParseGeoUri(uri) == Success((lat, long)) {
      var a, b, params := PartsOf(uri);
      assert IsGeo(uri, a, b, params);
    }
    forall a, b, params | IsGeo(uri, a, b, params)
      ensures "geo:" <= uri && Split(Split(uri[4..], ';')[0], ',') == [a, b]
    {
      GeoParts(uri, a, b, params);
    }
  }

  lemma PartsOf(uri: string) returns (a: string, b: string, params: string)
    requires "geo:" <= uri && |Split(Split(uri[4..], ';')[0], ',')| == 2
    ensures IsGeo(uri, a, b, params) && Split(Split(uri[4..], ';')[0], ',') == [a, b]
  {
    var part := Split(uri[4..], ';')[0];
    SplitParts(uri[4..], ';');
    SplitParts(part, ',');
    SplitPair(part, ',');
    a, b, params := Split(part, ',')[0], Split(part, ',')[1], uri[4 + |part|..];
    RejoinUri(uri, part, a, b, params);
  }

  lemma RejoinUri(uri: string, part: string, a: string, b: string, params: string)
    requires "geo:" <= uri && part <= uri[4..] && part == a + [','] + b && params == uri[4 + |part|..]
    ensures uri == "geo:" + a + "," + b + params
  {
    assert uri == "geo:" + part + params;
  }

  ghost predicate IsGeo(uri: string, a: string, b: string, params: string) {
    && uri == "geo:" + a + "," + b + params
    && ',' !in a && ',' !in b && ';' !in a && ';' !in b
    && (params == "" || params[0] == ';')
  }

  lemma {:induction false} SplitParts(s: string, c: char)
    ensures var p := Split(s, c)[0];
      c !in p && p <= s && (|p| < |s| ==> s[|p|] == c)
  {
  }

  lemma {:induction false} SplitPair(s: string, c: char)
    requires |Split(s, c)| == 2
    ensures s == Split(s, c)[0] + [c] + Split(s, c)[1] && c !in Split(s, c)[1]
  {
    var k := IndexOf(s, {c});
    var rest := s[k + 1..];
    assert Split(s, c) == [s[..k]] + Split(rest, c);
    assert IndexOf(rest, {c}) == |rest|;
  }

  lemma RoundedIsClose(x: Float)
    ensures -0.000005 <= Value(Rounded(x)) - Value(x) <= 0.000005
  {
  }

  /** The round trip keeps the signs and moves no coordinate by more than half a unit in the
      fifth place. */
  lemma RoundTripIsClose(lat: Float, long: Float)
    ensures var r := ParseGeoUri(GeoUri(lat, long));
      && r.Success?
      && Abs(Value(r.value.0) - Value(lat)) <= 0.000005 && Abs(Value(r.value.1) - Value(long)) <= 0.000005
      && r.value.0.negative == lat.negative && r.value.1.negative == long.negative
  {
    PrintedOnly(lat, long);
    RoundedIsClose(lat);
    RoundedIsClose(long);
  }

  lemma RoundedUnits(x: Float)
    ensures Units(Rounded(x)) == Units(x)
  {
    assert Rounded(x).mag * 100000.0 == Units(x) as real;
  }

  /** Printing the number that was read back gives the same string, for every number. */
  lemma Reprint(x: Float)
    ensures ParseFloat(Fixed5(x)).Some? && Fixed5(ParseFloat(Fixed5(x)).value) == Fixed5(x)
  {
    ParsePrinted(x);
    RoundedUnits(x);
  }

  /** And printing the location that was read back gives the same URI, for every location. */
  lemma ReprintUri(lat: Float, long: Float)
    ensures ParseGeoUri(GeoUri(lat, long)).Success?
    ensures var r := ParseGeoUri(GeoUri(lat, long)).value; GeoUri(r.0, r.1) == GeoUri(lat, long)
  {
    PrintedOnly(lat, long);
    RoundedUnits(lat);
    RoundedUnits(long);
  }

  /** Two locations have the same URI exactly if their signs agree and they round alike. */
  lemma SameUriIff(lat: Float, long: Float, lat': Float, long': Float)
    ensures GeoUri(lat, long) == GeoUri(lat', long') <==>
            Rounded(lat) == Rounded(lat') && Rounded(long) == Rounded(long')
  {
    PrintedOnly(lat, long);
    PrintedOnly(lat', long');
    RoundedUnits(lat);
    RoundedUnits(lat');
    RoundedUnits(long);
    RoundedUnits(long');
  }

  /** Printing and parsing once more changes nothing. */
  lemma RoundTripIsStable(lat: Float, long: Float)
    ensures var r := ParseGeoUri(GeoUri(lat, long));
      r.Success? && ParseGeoUri(GeoUri(r.value.0, r.value.1)) == r
  {
    PrintedOnly(lat, long);
    PrintedOnly(Rounded(lat), Rounded(long));
    RoundedTwice(lat);
    RoundedTwice(long);
  }

  lemma PrintedOnly(lat: Float, long: Float)
    ensures ParseGeoUri(GeoUri(lat, long)) == Success((Rounded(lat), Rounded(long)))
  {
    PrintedIsParsed(lat, long, "");
    assert GeoUri(lat, long) + "" == GeoUri(lat, long);
  }

  lemma RoundedTwice(x: Float)
    ensures Rounded(Rounded(x)) == Rounded(x)
  {
    RoundedUnits(x);
  }
}
