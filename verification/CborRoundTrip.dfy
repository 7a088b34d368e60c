/** The CBOR codec is an exact pair: decoding inverts encoding, and encoding inverts decoding. */
module CborRoundTrip {
  import opened Bytes
  import opened Cbor
  import opened CborCanonical
  import Utf8

  // ---------------------------------------------------------------------------
  // Heads

  lemma LongArgumentOf(v: nat, n: nat, least: nat, s: seq<Byte>)
    requires least <= v < Limit(n)
    ensures LongArgument(BigEndian(v, n) + s, n, least) == Argument(v, s)
  {
    BigEndianRoundTrip(v, n);
    assert (BigEndian(v, n) + s)[..n] == BigEndian(v, n);
    assert (BigEndian(v, n) + s)[n..] == s;
  }

  /** One byte spelled as a big-endian integer. */
  lemma OneByte(v: nat)
    requires v < 0x100
    ensures BigEndian(v, 1) == [v]
  {
    assert BigEndian(v / 0x100, 0) == [];
  }

  lemma HeadReads(major: Byte, argument: nat, s: seq<Byte>)
    requires major < 8 && argument < Limit(8)
    ensures var b := Head(major, argument) + s;
            && b[0] / 0x20 == major
            && ReadArgument(b[1..], b[0] % 0x20) == Argument(argument, s)
  {
    Limits();
    var b := Head(major, argument) + s;
    if argument < 24 {
      assert b[1..] == s;
    } else if argument <= 0xFF {
      OneByte(argument);
      assert b[1..] == BigEndian(argument, 1) + s;
      LongArgumentOf(argument, 1, 24, s);
    } else if argument <= 0xFFFF {
      assert b[1..] == BigEndian(argument, 2) + s;
      LongArgumentOf(argument, 2, 0x100, s);
    } else if argument <= 0xFFFF_FFFF {
      assert b[1..] == BigEndian(argument, 4) + s;
      LongArgumentOf(argument, 4, 0x1_0000, s);
    } else {
      assert b[1..] == BigEndian(argument, 8) + s;
      LongArgumentOf(argument, 8, 0x1_0000_0000, s);
    }
  }

  lemma LongArgumentInverse(b: seq<Byte>, n: nat, least: nat)
    requires LongArgument(b, n, least).Argument?
    ensures var a := LongArgument(b, n, least);
            least <= a.value < Limit(n) && BigEndian(a.value, n) + a.rest == b
  {
    FromBigEndianRoundTrip(b[..n]);
  }

  /** Only the shortest head is accepted, so the bytes of a head are determined by its argument. */
  lemma HeadInverse(major: Byte, b: seq<Byte>, additional: nat)
    requires major < 8 && additional < 0x20 && ReadArgument(b, additional).Argument?
    ensures var a := ReadArgument(b, additional);
            && a.value < Limit(8)
            && Head(major, a.value) + a.rest == [major * 0x20 + additional] + b
  {
    Limits();
    var a := ReadArgument(b, additional);
    if additional == 24 {
      LongArgumentInverse(b, 1, 24);
      OneByte(a.value);
    } else if additional == 25 {
      LongArgumentInverse(b, 2, 0x100);
    } else if additional == 26 {
      LongArgumentInverse(b, 4, 0x1_0000);
    } else if additional == 27 {
      LongArgumentInverse(b, 8, 0x1_0000_0000);
    }
  }

  // ---------------------------------------------------------------------------
  // Decoding what was encoded

  lemma {:induction false} DecodeEncoded(v: Value, depth: nat, s: seq<Byte>)
    requires Valid(v, depth)
    ensures DecodeValue(Encode(v) + s, depth) == Decoded(v, s, true)
    decreases v, 2
  {
    match v
    case Unsigned(u) => DecodeEncodedUnsigned(u, depth, s);
    case Negative(n) => DecodeEncodedNegative(n, depth, s);
    case Bytes(b) => DecodeEncodedString(MAJOR_BYTES, b, depth, s);
    case Text(t) => DecodeEncodedString(MAJOR_TEXT, t, depth, s);
    case Array(items) => DecodeEncodedArray(v, depth, s);
    case Map(entries) => DecodeEncodedMap(v, depth, s);
    case Boolean(b) => DecodeEncodedAtom(v, depth, s);
    case Null => DecodeEncodedAtom(v, depth, s);
    case Double(bits) => DecodeEncodedReal(bits, depth, s);
  }

  lemma DecodeEncodedUnsigned(u: nat, depth: nat, s: seq<Byte>)
    requires Valid(Unsigned(u), depth)
    ensures DecodeValue(Encode(Unsigned(u)) + s, depth) == Decoded(Unsigned(u), s, true)
  {
    HeadReads(MAJOR_UNSIGNED, u, s);
  }

  lemma DecodeEncodedAtom(v: Value, depth: nat, s: seq<Byte>)
    requires (v.Boolean? || v.Null?) && depth <= MAX_NESTING_DEPTH
    ensures DecodeValue(Encode(v) + s, depth) == Decoded(v, s, true)
  {
    assert (Encode(v) + s)[1..] == s;
  }

  lemma DecodeEncodedNegative(n: int, depth: nat, s: seq<Byte>)
    requires Valid(Negative(n), depth)
    ensures DecodeValue(Encode(Negative(n)) + s, depth) == Decoded(Negative(n), s, true)
  {
    var argument: nat := -1 - n;
    assert Encode(Negative(n)) == Head(MAJOR_NEGATIVE, argument);
    Limits();
    HeadReads(MAJOR_NEGATIVE, argument, s);
    NegativeStep(Head(MAJOR_NEGATIVE, argument) + s, depth, n, argument, s);
  }

  lemma NegativeStep(b: seq<Byte>, depth: nat, n: int, argument: nat, rest: seq<Byte>)
    requires b != [] && b[0] / 0x20 == 1 && depth <= MAX_NESTING_DEPTH
    requires n == -1 - argument && argument <= 0x7FFF_FFFF_FFFF_FFFF
    requires ReadArgument(b[1..], b[0] % 0x20) == Argument(argument, rest)
    ensures DecodeValue(b, depth) == Decoded(Negative(n), rest, true)
  {
  }

  lemma DecodeEncodedReal(bits: nat, depth: nat, s: seq<Byte>)
    requires Valid(Double(bits), depth)
    ensures DecodeValue(Encode(Double(bits)) + s, depth) == Decoded(Double(bits), s, true)
  {
    BigEndianRoundTrip(bits, 8);
    var tail := BigEndian(bits, 8) + s;
    assert (Encode(Double(bits)) + s)[1..] == tail;
    assert tail[..8] == BigEndian(bits, 8) && tail[8..] == s;
  }

  lemma {:induction false} DecodeEncodedArray(v: Value, depth: nat, s: seq<Byte>)
    requires v.Array? && Valid(v, depth)
    ensures DecodeValue(Encode(v) + s, depth) == Decoded(v, s, true)
    decreases v, 1
  {
    Limits();
    var e := EncodeItems(v.items);
    Reassociate(Head(MAJOR_ARRAY, |v.items|), e, s);
    HeadReads(MAJOR_ARRAY, |v.items|, e + s);
    assert v.items[0..] == v.items && v.items[..0] == [];
    DecodeEncodedItems(v.items, 0, depth + 1, s);
  }

  lemma {:induction false} DecodeEncodedMap(v: Value, depth: nat, s: seq<Byte>)
    requires v.Map? && Valid(v, depth)
    ensures DecodeValue(Encode(v) + s, depth) == Decoded(v, s, true)
    decreases v, 1
  {
    Limits();
    var e := EncodeEntries(v.entries);
    Reassociate(Head(MAJOR_MAP, |v.entries|), e, s);
    HeadReads(MAJOR_MAP, |v.entries|, e + s);
    assert v.entries[0..] == v.entries && v.entries[..0] == [];
    DecodeEncodedEntries(v.entries, 0, depth + 1, s);
  }

  lemma DecodeEncodedString(major: Byte, b: seq<Byte>, depth: nat, s: seq<Byte>)
    requires major == MAJOR_BYTES || (major == MAJOR_TEXT && Utf8.WellFormed(b))
    requires |b| < Limit(8) && depth <= MAX_NESTING_DEPTH
    ensures DecodeValue((Head(major, |b|) + b) + s, depth)
         == Decoded(if major == MAJOR_TEXT then Text(b) else Bytes(b), s, true)
  {
    assert (Head(major, |b|) + b) + s == Head(major, |b|) + (b + s);
    HeadReads(major, |b|, b + s);
    assert (b + s)[..|b|] == b && (b + s)[|b|..] == s;
  }

  /** From here the loop of an array ends with these items, or that of a map with these entries ... */
  predicate GetsItems(b: seq<Byte>, count: nat, depth: nat, done: seq<Value>, all: seq<Value>, rest: seq<Byte>) {
    DecodeItems(b, count, depth, done, true) == DecodedItems(all, rest, true)
  }

  predicate GetsEntries(b: seq<Byte>, count: nat, depth: nat, done: seq<Entry>, all: seq<Entry>, rest: seq<Byte>) {
    DecodeEntries(b, count, depth, done, true) == DecodedEntries(all, rest, true)
  }

  /** ... and the next entry is this one. */
  predicate GetsEntry(b: seq<Byte>, depth: nat, e: Entry, rest: seq<Byte>) {
    DecodeEntry(b, depth) == DecodedEntries([e], rest, true)
  }

  lemma {:induction false} DecodeEncodedItems(all: seq<Value>, k: nat, depth: nat, s: seq<Byte>)
    requires k <= |all| && ValidItems(all[k..], depth)
    ensures GetsItems(EncodeItems(all[k..]) + s, |all| - k, depth, all[..k], all, s)
    decreases all[k..], 0
  {
    var b := EncodeItems(all[k..]) + s;
    if k == |all| {
      assert b == s && all[..k] == all;
    } else {
      var v, more := all[k], EncodeItems(all[k + 1..]);
      assert all[k..][1..] == all[k + 1..] && all[..k] + [v] == all[..k + 1];
      Reassociate(Encode(v), more, s);
      DecodeEncoded(v, depth, more + s);
      DecodeEncodedItems(all, k + 1, depth, s);
      ItemStep(b, |all| - k, depth, all[..k], v, more + s, all, s);
    }
  }

  lemma ItemStep(b: seq<Byte>, count: nat, depth: nat, done: seq<Value>, v: Value, next: seq<Byte>, all: seq<Value>,
                 rest: seq<Byte>)
    requires count > 0 && DecodeValue(b, depth) == Decoded(v, next, true)
    requires GetsItems(next, count - 1, depth, done + [v], all, rest)
    ensures GetsItems(b, count, depth, done, all, rest)
  {
  }

  lemma {:induction false} DecodeEncodedEntry(e: Entry, depth: nat, s: seq<Byte>)
    requires ValidKey(e.key) && Valid(e.value, depth)
    ensures GetsEntry(EncodeEntry(e) + s, depth, e, s)
    decreases e.value, 3
  {
    Reassociate(EncodeKey(e.key), Encode(e.value), s);
    DecodeEncodedString(MAJOR_TEXT, e.key, depth, Encode(e.value) + s);
    DecodeEncoded(e.value, depth, s);
  }

  lemma {:induction false} DecodeEncodedEntries(all: seq<Entry>, k: nat, depth: nat, s: seq<Byte>)
    requires k <= |all| && Sorted(all) && ValidEntries(all[k..], depth)
    ensures GetsEntries(EncodeEntries(all[k..]) + s, |all| - k, depth, all[..k], all, s)
    decreases all[k..], 0
  {
    var b := EncodeEntries(all[k..]) + s;
    if k == |all| {
      assert b == s && all[..k] == all;
    } else {
      var e, more := all[k], EncodeEntries(all[k + 1..]);
      assert all[k..][1..] == all[k + 1..] && all[..k] + [e] == all[..k + 1];
      Reassociate(EncodeEntry(e), more, s);
      assert b == EncodeEntry(e) + (more + s);
      DecodeEncodedEntry(e, depth, more + s);
      SortedIsBelow(all, k);
      DecodeEncodedEntries(all, k + 1, depth, s);
      EntryStep(b, |all| - k, depth, all[..k], e, more + s, all, s);
    }
  }

  lemma SortedIsBelow(all: seq<Entry>, k: nat)
    requires Sorted(all) && k < |all|
    ensures AllBelow(all[..k], all[k].key)
  {
  }

  lemma EntryStep(b: seq<Byte>, count: nat, depth: nat, done: seq<Entry>, e: Entry, next: seq<Byte>, all: seq<Entry>,
                  rest: seq<Byte>)
    requires count > 0 && AllBelow(done, e.key) && GetsEntry(b, depth, e, next)
    requires GetsEntries(next, count - 1, depth, done + [e], all, rest)
    ensures GetsEntries(b, count, depth, done, all, rest)
  {
    InsertAtEnd(done, e);
  }

  // ---------------------------------------------------------------------------
  // Encoding what was decoded

  /** A decoded value is one the program can hold; canonical input is reproduced byte for byte. */
  ghost predicate Inverse(b: seq<Byte>, depth: nat, r: Decoded)
    requires r.Decoded?
  {
    Valid(r.value, depth) && (r.canonical ==> Encode(r.value) + r.rest == b)
  }

  lemma {:induction false} EncodeDecoded(b: seq<Byte>, depth: nat)
    requires DecodeValue(b, depth).Decoded?
    ensures Inverse(b, depth, DecodeValue(b, depth))
    decreases |b|, 0, 0
  {
    assert b == [b[0]] + b[1..];
    var tail, additional := b[1..], b[0] % 0x20;
    assert b[0] == b[0] / 0x20 * 0x20 + additional;
    match b[0] / 0x20 {
      case 0 => HeadInverse(MAJOR_UNSIGNED, tail, additional);
      case 1 => EncodeDecodedNegative(b, depth);
      case 2 => EncodeDecodedString(tail, additional, false);
      case 3 => EncodeDecodedString(tail, additional, true);
      case 4 => EncodeDecodedArray(b, depth);
      case 5 => EncodeDecodedMap(b, depth);
      case _ => EncodeDecodedSimple(b, depth);
    }
  }

  lemma EncodeDecodedNegative(b: seq<Byte>, depth: nat)
    requires b != [] && b[0] / 0x20 == 1 && DecodeValue(b, depth).Decoded?
    ensures Inverse(b, depth, DecodeValue(b, depth))
  {
    var a := ReadArgument(b[1..], b[0] % 0x20);
    NegativeRead(b, depth, a);
    HeadInverse(MAJOR_NEGATIVE, b[1..], b[0] % 0x20);
    NegativeHead(a.value);
    assert b == [b[0]] + b[1..];
  }

  lemma NegativeRead(b: seq<Byte>, depth: nat, a: Argument)
    requires b != [] && b[0] / 0x20 == 1 && DecodeValue(b, depth).Decoded?
    requires a == ReadArgument(b[1..], b[0] % 0x20)
    ensures a.Argument? && a.value <= 0x7FFF_FFFF_FFFF_FFFF && depth <= MAX_NESTING_DEPTH
    ensures DecodeValue(b, depth) == Decoded(Negative(-1 - a.value), a.rest, true)
  {
  }

  lemma NegativeHead(argument: nat)
    requires argument <= 0x7FFF_FFFF_FFFF_FFFF
    ensures Encode(Negative(-1 - argument)) == Head(MAJOR_NEGATIVE, argument)
  {
    assert -1 - (-1 - argument) == argument;
  }

  lemma EncodeDecodedString(b: seq<Byte>, additional: nat, text: bool)
    requires additional < 0x20 && DecodeString(b, additional, text).Decoded?
    ensures var r := DecodeString(b, additional, text);
            var major := if text then MAJOR_TEXT else MAJOR_BYTES;
            && (r.value.Text? <==> text) && Valid(r.value, 0)
            && Encode(r.value) + r.rest == [major * 0x20 + additional] + b
  {
    var major := if text then MAJOR_TEXT else MAJOR_BYTES;
    HeadInverse(major, b, additional);
    var a := ReadArgument(b, additional);
    var content := a.rest[..a.value];
    assert a.rest == content + a.rest[a.value..];
    Reassociate(Head(major, a.value), content, a.rest[a.value..]);
  }

  lemma EncodeDecodedSimple(b: seq<Byte>, depth: nat)
    requires b != [] && b[0] / 0x20 == 7 && DecodeValue(b, depth).Decoded?
    ensures Inverse(b, depth, DecodeValue(b, depth))
  {
    var tail, additional := b[1..], b[0] % 0x20;
    assert b == [b[0]] + tail;
    if additional == 27 {
      FromBigEndianRoundTrip(tail[..8]);
      assert tail == tail[..8] + tail[8..];
    } else if additional == 26 {
      WidenedFits(FromBigEndian(tail[..4]));
    } else if additional == 25 {
      WidenedFits(FromBigEndian(tail[..2]));
    }
  }

  lemma {:induction false} EncodeDecodedArray(b: seq<Byte>, depth: nat)
    requires b != [] && b[0] / 0x20 == 4 && DecodeValue(b, depth).Decoded?
    ensures Inverse(b, depth, DecodeValue(b, depth))
    decreases |b| - 1, 2, 0
  {
    HeadInverse(MAJOR_ARRAY, b[1..], b[0] % 0x20);
    var a := ReadArgument(b[1..], b[0] % 0x20);
    EncodeDecodedItems(a.rest, a.value, depth + 1, [], true);
    var r := DecodeItems(a.rest, a.value, depth + 1, [], true);
    assert r.items[0..] == r.items;
    assert b == [b[0]] + b[1..];
    if r.canonical {
      assert Head(MAJOR_ARRAY, a.value) + (EncodeItems(r.items) + r.rest) == b;
      assert Head(MAJOR_ARRAY, a.value) + EncodeItems(r.items) + r.rest == b;
    }
  }

  lemma {:induction false} EncodeDecodedItems(b: seq<Byte>, count: nat, depth: nat, done: seq<Value>,
                                              canonical: bool)
    requires DecodeItems(b, count, depth, done, canonical).DecodedItems?
    ensures var r := DecodeItems(b, count, depth, done, canonical);
            && done <= r.items && |r.items| == |done| + count
            && ValidItems(r.items[|done|..], depth)
            && (r.canonical ==> canonical && EncodeItems(r.items[|done|..]) + r.rest == b)
    decreases |b|, 1, count
  {
    if count > 0 {
      EncodeDecoded(b, depth);
      var d := DecodeValue(b, depth);
      EncodeDecodedItems(d.rest, count - 1, depth, done + [d.value], canonical && d.canonical);
      var r := DecodeItems(b, count, depth, done, canonical);
      var items := r.items[|done|..];
      assert items[0] == d.value && items[1..] == r.items[|done| + 1..];
      Reassociate(Encode(d.value), EncodeItems(items[1..]), r.rest);
    }
  }

  lemma {:induction false} EncodeDecodedMap(b: seq<Byte>, depth: nat)
    requires b != [] && b[0] / 0x20 == 5 && DecodeValue(b, depth).Decoded?
    ensures Inverse(b, depth, DecodeValue(b, depth))
    decreases |b| - 1, 4, 0
  {
    HeadInverse(MAJOR_MAP, b[1..], b[0] % 0x20);
    var a := ReadArgument(b[1..], b[0] % 0x20);
    EncodeDecodedEntries(a.rest, a.value, depth + 1, [], true);
    var r := DecodeEntries(a.rest, a.value, depth + 1, [], true);
    assert b == [b[0]] + b[1..];
    if r.canonical {
      assert r.entries[0..] == r.entries;
      assert Head(MAJOR_MAP, a.value) + (EncodeEntries(r.entries) + r.rest) == b;
      assert Head(MAJOR_MAP, a.value) + EncodeEntries(r.entries) + r.rest == b;
    }
  }

  /** Is every entry fit to stay in a map nested at this depth? Independent of their order. */
  predicate ValidEach(entries: seq<Entry>, depth: nat) {
    forall e | e in entries :: ValidKey(e.key) && Valid(e.value, depth)
  }

  lemma {:induction false} ValidEachIsValid(entries: seq<Entry>, depth: nat)
    requires ValidEach(entries, depth)
    ensures ValidEntries(entries, depth)
  {
    if entries != [] {
      assert entries[0] in entries;
      ValidEachIsValid(entries[1..], depth);
    }
  }

  lemma {:induction false} EncodeDecodedEntry(b: seq<Byte>, depth: nat)
    requires DecodeEntry(b, depth).DecodedEntries?
    ensures var r := DecodeEntry(b, depth);
            var e := r.entries[0];
            && ValidKey(e.key) && Valid(e.value, depth)
            && (r.canonical ==> EncodeEntry(e) + r.rest == b)
    decreases |b|, 1, 0
  {
    var e := DecodeEntry(b, depth).entries[0];
    Reassociate(EncodeKey(e.key), Encode(e.value), DecodeEntry(b, depth).rest);
    EncodeDecoded(b, depth);
    var k := DecodeValue(b, depth);
    TextIsCanonical(b, depth);
    EncodeDecoded(k.rest, depth);
  }

  lemma TextIsCanonical(b: seq<Byte>, depth: nat)
    requires DecodeValue(b, depth).Decoded? && DecodeValue(b, depth).value.Text?
    ensures DecodeValue(b, depth).canonical
  {
  }

  lemma {:induction false} EncodeDecodedEntries(b: seq<Byte>, count: nat, depth: nat, done: seq<Entry>,
                                                canonical: bool)
    requires DecodeEntries(b, count, depth, done, canonical).DecodedEntries?
    requires Sorted(done) && ValidEach(done, depth)
    ensures var r := DecodeEntries(b, count, depth, done, canonical);
            && |r.entries| == |done| + count && Sorted(r.entries)
            && ValidEach(r.entries, depth) && ValidEntries(r.entries, depth)
            && (r.canonical ==> canonical && done <= r.entries
                                && EncodeEntries(r.entries[|done|..]) + r.rest == b)
    decreases |b|, 2, count
  {
    var r := DecodeEntries(b, count, depth, done, canonical);
    if count == 0 {
      ValidEachIsValid(done, depth);
      assert r.entries[|done|..] == [];
    } else {
      EncodeDecodedEntry(b, depth);
      var d := DecodeEntry(b, depth);
      var e := d.entries[0];
      InsertIsSorted(done, e);
      EncodeDecodedEntries(d.rest, count - 1, depth, Insert(done, e),
                           canonical && d.canonical && AllBelow(done, e.key));
      if r.canonical {
        InsertAtEnd(done, e);
        assert r.entries[..|done|] == done;
        var tail := r.entries[|done|..];
        assert tail[0] == e && tail[1..] == r.entries[|done| + 1..];
        Reassociate(EncodeEntry(e), EncodeEntries(tail[1..]), r.rest);
      }
    }
  }

  // ---------------------------------------------------------------------------
  // The codec as its callers see it

  /** Decoding inverts encoding, whatever bytes follow. */
  lemma RoundTrip(v: Value, suffix: seq<Byte>)
    requires Valid(v, 0)
    ensures DecodeValue(Encode(v) + suffix, 0) == Decoded(v, suffix, true)
    ensures Decode(Encode(v)) == Decoded(v, [], true)
    ensures suffix != [] ==> Decode(Encode(v) + suffix) == Failed(TrailingBytes)
  {
    DecodeEncoded(v, 0, suffix);
    DecodeEncoded(v, 0, []);
    assert Encode(v) + [] == Encode(v);
  }

  /** Accepted bytes re-encode to themselves exactly when they came in canonical form. */
  lemma CanonicalIffReencodes(b: seq<Byte>)
    requires Decode(b).Decoded?
    ensures Valid(Decode(b).value, 0)
    ensures Encode(Decode(b).value) == b <==> InCanonicalForm(b)
  {
    FlagIsCanonical(b, 0);
    EncodeDecoded(b, 0);
    var v := Decode(b).value;
    assert Encode(v) + [] == Encode(v);
    if Encode(v) == b {
      RoundTrip(v, []);
    }
  }

  /** No two values share an encoding, and no encoding is a proper prefix of another. */
  lemma EncodingIsPrefixFree(v: Value, w: Value, s: seq<Byte>, t: seq<Byte>)
    requires Valid(v, 0) && Valid(w, 0) && Encode(v) + s == Encode(w) + t
    ensures v == w && s == t
  {
    DecodeEncoded(v, 0, s);
    DecodeEncoded(w, 0, t);
  }
}
