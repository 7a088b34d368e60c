/** UTF-8 validation of text strings, against the encoding of Unicode scalar values (RFC 3629). */
module Utf8 {
  import opened Bytes

  // ---------------------------------------------------------------------------
  // What UTF-8 is: sections 3 and 4 of RFC 3629

  /** A Unicode scalar value: any code point but the surrogates. */
  type ScalarValue = c: int | 0 <= c < 0xD800 || 0xE000 <= c <= 0x10FFFF

  function EncodeScalar(c: ScalarValue): seq<Byte> {
    if c < 0x80 then [c]
    else if c < 0x800 then [0xC0 + c / 0x40, 0x80 + c % 0x40]
    else if c < 0x1_0000 then [0xE0 + c / 0x1000, 0x80 + c / 0x40 % 0x40, 0x80 + c % 0x40]
    else [0xF0 + c / 0x4_0000, 0x80 + c / 0x1000 % 0x40, 0x80 + c / 0x40 % 0x40, 0x80 + c % 0x40]
  }

  function Encode(text: seq<ScalarValue>): seq<Byte> {
    if text == [] then [] else EncodeScalar(text[0]) + Encode(text[1..])
  }

  ghost predicate IsUtf8(b: seq<Byte>) {
    exists text: seq<ScalarValue> :: Encode(text) == b
  }

  // ---------------------------------------------------------------------------
  // The validator

  /** Continuation bytes a lead byte announces; 4 stands for "not a lead byte". */
  function Extra(lead: Byte): nat {
    if lead < 0x80 then 0
    else if 0xC0 <= lead < 0xE0 then 1
    else if 0xE0 <= lead < 0xF0 then 2
    else if 0xF0 <= lead < 0xF8 then 3
    else 4
  }

  function LeadBits(lead: Byte): nat {
    if Extra(lead) == 1 then lead % 0x20
    else if Extra(lead) == 2 then lead % 0x10
    else lead % 0x08
  }

  predicate Continuation(b: Byte) {
    0x80 <= b < 0xC0
  }

  /** The code point spelled by a lead byte and its first k continuation bytes. */
  function CodePoint(b: seq<Byte>, k: nat): nat
    requires k < |b|
  {
    if k == 0 then LeadBits(b[0]) else CodePoint(b, k - 1) * 0x40 + b[k] % 0x40
  }

  /** Overlong forms, surrogates and values past U+10FFFF are not characters. */
  predicate Acceptable(extra: nat, code: nat) {
    && (extra == 1 ==> code >= 0x80)
    && (extra == 2 ==> code >= 0x800)
    && (extra == 3 ==> code >= 0x1_0000)
    && code <= 0x10FFFF
    && !(0xD800 <= code <= 0xDFFF)
  }

  predicate StartsWell(b: seq<Byte>) {
    && b != []
    && var extra := Extra(b[0]);
       extra == 0
       || (extra < 4 && extra < |b|
           && (forall k | 1 <= k <= extra :: Continuation(b[k]))
           && Acceptable(extra, CodePoint(b, extra)))
  }

  predicate WellFormed(b: seq<Byte>) {
    b == [] || (StartsWell(b) && WellFormed(b[1 + Extra(b[0])..]))
  }

  method ReadContinuations(b: seq<Byte>, extra: nat, lead: nat) returns (ok: bool, code: nat)
    requires extra < |b| && lead == LeadBits(b[0])
    ensures ok <==> forall k | 1 <= k <= extra :: Continuation(b[k])
    ensures ok ==> code == CodePoint(b, extra)
  {
    code := lead;
    for k := 1 to extra + 1
      invariant code == CodePoint(b, k - 1)
      invariant forall j | 1 <= j < k :: Continuation(b[j])
    {
      var cont := b[k];
      if !(0x80 <= cont < 0xC0) { return false, code; }
      code := code * 0x40 + cont % 0x40;
    }
    ok := true;
  }

  method IsValidUtf8(data: seq<Byte>) returns (ok: bool)
    ensures ok <==> IsUtf8(data)
  {
    WellFormedIffUtf8(data);
    var i := 0;
    while i < |data|
      invariant 0 <= i <= |data|
      invariant WellFormed(data) <==> WellFormed(data[i..])
    {
      var rest := data[i..];
      var lead := data[i];
      var extra := 0;
      var code: nat := 0;
      if lead < 0x80 {
        assert data[i + 1..] == rest[1..];
        i := i + 1;
        continue;
      } else if 0xC0 <= lead < 0xE0 {
        extra, code := 1, lead % 0x20;
      } else if 0xE0 <= lead < 0xF0 {
        extra, code := 2, lead % 0x10;
      } else if 0xF0 <= lead < 0xF8 {
        extra, code := 3, lead % 0x08;
      } else {
        return false;
      }
      if i + extra >= |data| { return false; }
      ok, code := ReadContinuations(rest, extra, code);
      if !ok { return false; }
      if extra == 1 && code < 0x80 { return false; }
      if extra == 2 && code < 0x800 { return false; }
      if extra == 3 && code < 0x1_0000 { return false; }
      if code > 0x10FFFF { return false; }
      if 0xD800 <= code <= 0xDFFF { return false; }
      assert data[i + extra + 1..] == rest[1 + extra..];
      i := i + extra + 1;
    }
    assert data[i..] == [];
    ok := true;
  }

  // ---------------------------------------------------------------------------
  // The validator accepts exactly UTF-8

  /** The scalar value at the front of a well-started sequence, and its encoding. */
  function FirstScalar(b: seq<Byte>): ScalarValue
    requires StartsWell(b)
  {
    if Extra(b[0]) == 0 then b[0] else CodePoint(b, Extra(b[0]))
  }

  /** Positional arithmetic of six-bit groups. */
  lemma OneGroup(a: nat, b: nat)
    requires b < 0x40
    ensures (a * 0x40 + b) / 0x40 == a && (a * 0x40 + b) % 0x40 == b
  {
  }

  lemma NestedGroups(v: nat)
    ensures v / 0x1000 == v / 0x40 / 0x40 && v / 0x4_0000 == v / 0x1000 / 0x40
  {
  }

  lemma SixBits(a: nat, b: nat, c: nat, d: nat)
    requires b < 0x40 && c < 0x40 && d < 0x40
    ensures var v := ((a * 0x40 + b) * 0x40 + c) * 0x40 + d;
            && v / 0x4_0000 == a && v / 0x1000 % 0x40 == b
            && v / 0x40 % 0x40 == c && v % 0x40 == d
  {
    var two := a * 0x40 + b;
    var three := two * 0x40 + c;
    var v := three * 0x40 + d;
    OneGroup(a, b);
    OneGroup(two, c);
    OneGroup(three, d);
    NestedGroups(v);
  }

  /** A lead byte or a continuation byte is its marker and its bits. */
  lemma Marker(b: Byte)
    ensures Extra(b) == 1 ==> b == 0xC0 + LeadBits(b)
    ensures Extra(b) == 2 ==> b == 0xE0 + LeadBits(b)
    ensures Extra(b) == 3 ==> b == 0xF0 + LeadBits(b)
    ensures Continuation(b) ==> b == 0x80 + b % 0x40
  {
  }

  lemma TwoReencode(b: seq<Byte>)
    requires StartsWell(b) && Extra(b[0]) == 1
    ensures EncodeScalar(FirstScalar(b)) == b[..2]
  {
    assert CodePoint(b, 1) == LeadBits(b[0]) * 0x40 + b[1] % 0x40;
    SixBits(0, 0, LeadBits(b[0]), b[1] % 0x40);
  }

  lemma ThreeOf(c: ScalarValue, lead: nat, x: nat, y: nat)
    requires lead < 0x10 && x < 0x40 && y < 0x40 && c == (lead * 0x40 + x) * 0x40 + y && 0x800 <= c < 0x1_0000
    ensures EncodeScalar(c) == [0xE0 + lead, 0x80 + x, 0x80 + y]
  {
    SixBits(0, lead, x, y);
  }

  lemma ThreeReencode(b: seq<Byte>)
    requires StartsWell(b) && Extra(b[0]) == 2
    ensures EncodeScalar(FirstScalar(b)) == b[..3]
  {
    var lead, x, y: nat := LeadBits(b[0]), b[1] % 0x40, b[2] % 0x40;
    assert CodePoint(b, 1) == lead * 0x40 + x;
    assert CodePoint(b, 2) == CodePoint(b, 1) * 0x40 + y;
    ThreeOf(FirstScalar(b), lead, x, y);
    Marker(b[0]);
    Marker(b[1]);
    Marker(b[2]);
    assert b[..3] == [b[0], b[1], b[2]];
  }

  lemma FourOf(c: ScalarValue, lead: nat, x: nat, y: nat, z: nat)
    requires lead < 8 && x < 0x40 && y < 0x40 && z < 0x40
    requires c == ((lead * 0x40 + x) * 0x40 + y) * 0x40 + z && 0x1_0000 <= c
    ensures EncodeScalar(c) == [0xF0 + lead, 0x80 + x, 0x80 + y, 0x80 + z]
  {
    SixBits(lead, x, y, z);
  }

  lemma FourReencode(b: seq<Byte>)
    requires StartsWell(b) && Extra(b[0]) == 3
    ensures EncodeScalar(FirstScalar(b)) == b[..4]
  {
    var lead, x, y, z: nat := LeadBits(b[0]), b[1] % 0x40, b[2] % 0x40, b[3] % 0x40;
    assert CodePoint(b, 1) == lead * 0x40 + x;
    assert CodePoint(b, 2) == CodePoint(b, 1) * 0x40 + y;
    assert CodePoint(b, 3) == CodePoint(b, 2) * 0x40 + z;
    FourOf(FirstScalar(b), lead, x, y, z);
    Marker(b[0]);
    Marker(b[1]);
    Marker(b[2]);
    Marker(b[3]);
    assert b[..4] == [b[0], b[1], b[2], b[3]];
  }

  lemma FirstScalarReencodes(b: seq<Byte>)
    requires StartsWell(b)
    ensures EncodeScalar(FirstScalar(b)) == b[..1 + Extra(b[0])]
  {
    match Extra(b[0]) {
      case 0 =>
      case 1 => TwoReencode(b);
      case 2 => ThreeReencode(b);
      case _ => FourReencode(b);
    }
  }

  lemma ContinuationOf(x: nat)
    requires x < 0x40
    ensures Continuation(0x80 + x) && (0x80 + x) % 0x40 == x
  {
  }

  lemma LeadOf(x: nat)
    ensures x < 0x20 ==> Extra(0xC0 + x) == 1 && LeadBits(0xC0 + x) == x
    ensures x < 0x10 ==> Extra(0xE0 + x) == 2 && LeadBits(0xE0 + x) == x
    ensures x < 0x08 ==> Extra(0xF0 + x) == 3 && LeadBits(0xF0 + x) == x
  {
  }

  /** One more continuation byte that carries the next six bits of v. */
  lemma NextGroup(b: seq<Byte>, k: nat, v: nat)
    requires k + 1 < |b| && CodePoint(b, k) == v / 0x40 && b[k + 1] == 0x80 + v % 0x40
    ensures Continuation(b[k + 1]) && CodePoint(b, k + 1) == v
  {
    ContinuationOf(v % 0x40);
  }

  lemma TwoBytes(c: ScalarValue, s: seq<Byte>)
    requires 0x80 <= c < 0x800
    ensures var b := EncodeScalar(c) + s;
            Extra(b[0]) == 1 && Continuation(b[1]) && CodePoint(b, 1) == c
  {
    var b := EncodeScalar(c) + s;
    assert b[0] == 0xC0 + c / 0x40 && b[1] == 0x80 + c % 0x40;
    LeadOf(c / 0x40);
    NextGroup(b, 0, c);
  }

  lemma ThreeBytes(c: ScalarValue, s: seq<Byte>)
    requires 0x800 <= c < 0x1_0000
    ensures var b := EncodeScalar(c) + s;
            && Extra(b[0]) == 2 && Continuation(b[1]) && Continuation(b[2])
            && CodePoint(b, 2) == c
  {
    var b := EncodeScalar(c) + s;
    assert b[0] == 0xE0 + c / 0x1000 && b[1] == 0x80 + c / 0x40 % 0x40 && b[2] == 0x80 + c % 0x40;
    NestedGroups(c);
    LeadOf(c / 0x1000);
    NextGroup(b, 0, c / 0x40);
    NextGroup(b, 1, c);
  }

  lemma FourBytes(c: ScalarValue, s: seq<Byte>)
    requires 0x1_0000 <= c
    ensures var b := EncodeScalar(c) + s;
            && Extra(b[0]) == 3
            && Continuation(b[1]) && Continuation(b[2]) && Continuation(b[3])
            && CodePoint(b, 3) == c
  {
    var b := EncodeScalar(c) + s;
    assert b[0] == 0xF0 + c / 0x4_0000 && b[1] == 0x80 + c / 0x1000 % 0x40;
    assert b[2] == 0x80 + c / 0x40 % 0x40 && b[3] == 0x80 + c % 0x40;
    NestedGroups(c);
    NestedGroups(c / 0x40);
    LeadOf(c / 0x4_0000);
    NextGroup(b, 0, c / 0x1000);
    NextGroup(b, 1, c / 0x40);
    NextGroup(b, 2, c);
  }

  lemma EncodedScalarStartsWell(c: ScalarValue, s: seq<Byte>)
    ensures StartsWell(EncodeScalar(c) + s)
    ensures 1 + Extra((EncodeScalar(c) + s)[0]) == |EncodeScalar(c)|
    ensures FirstScalar(EncodeScalar(c) + s) == c
  {
    if 0x80 <= c < 0x800 {
      TwoBytes(c, s);
    } else if 0x800 <= c < 0x1_0000 {
      ThreeBytes(c, s);
    } else if c >= 0x1_0000 {
      FourBytes(c, s);
    }
  }

  lemma {:induction false} EncodingsAreWellFormed(text: seq<ScalarValue>)
    ensures WellFormed(Encode(text))
  {
    if text != [] {
      EncodedScalarStartsWell(text[0], Encode(text[1..]));
      EncodingsAreWellFormed(text[1..]);
      assert Encode(text)[|EncodeScalar(text[0])|..] == Encode(text[1..]);
    }
  }

  lemma {:induction false} WellFormedDecodes(b: seq<Byte>) returns (text: seq<ScalarValue>)
    requires WellFormed(b)
    ensures Encode(text) == b
  {
    if b == [] {
      text := [];
    } else {
      var n := 1 + Extra(b[0]);
      var rest := WellFormedDecodes(b[n..]);
      text := [FirstScalar(b)] + rest;
      assert text[1..] == rest;
      FirstScalarReencodes(b);
      assert b == b[..n] + b[n..];
    }
  }

  lemma WellFormedIffUtf8(b: seq<Byte>)
    ensures WellFormed(b) <==> IsUtf8(b)
  {
    if WellFormed(b) {
      var text := WellFormedDecodes(b);
      assert Encode(text) == b;
    }
    if IsUtf8(b) {
      var text: seq<ScalarValue> :| Encode(text) == b;
      EncodingsAreWellFormed(text);
    }
  }

  /** A byte string spells at most one text. */
  lemma {:induction false} DecodingIsUnique(x: seq<ScalarValue>, y: seq<ScalarValue>)
    requires Encode(x) == Encode(y)
    ensures x == y
  {
    if x == [] || y == [] {
    } else {
      EncodedScalarStartsWell(x[0], Encode(x[1..]));
      EncodedScalarStartsWell(y[0], Encode(y[1..]));
      assert Encode(x[1..]) == Encode(x)[|EncodeScalar(x[0])|..];
      assert Encode(y[1..]) == Encode(y)[|EncodeScalar(y[0])|..];
      DecodingIsUnique(x[1..], y[1..]);
    }
  }
}
