/** The CBOR subset of the control channel: values, canonical encoding, and the decoder. */
module Cbor {
  import opened Bytes
  import Utf8

  const MAX_NESTING_DEPTH := 32
  const MAX_COLLECTION_ELEMENTS := 100000

  datatype Error =
    | NoError
    | Truncated
    | InvalidAdditionalInformation
    | NonMinimalInteger
    | InvalidUtf8
    | UnsupportedMapKey
    | UnsupportedSimpleValue
    | NestingLimitExceeded
    | TrailingBytes
    | IntegerOverflow
    | DuplicateMapKey
    | CollectionTooLarge

  /** Text is its UTF-8 bytes, a double its binary64 pattern, a map its entries in key order. */
  datatype Value =
    | Unsigned(u: nat)
    | Negative(n: int)
    | Bytes(bytes: seq<Byte>)
    | Text(text: seq<Byte>)
    | Array(items: seq<Value>)
    | Map(entries: seq<Entry>)
    | Boolean(b: bool)
    | Null
    | Double(bits: nat)

  datatype Entry = Entry(key: seq<Byte>, value: Value)

  // ---------------------------------------------------------------------------
  // Maps: entries ordered by key length, then bytewise (section 3.9 of RFC 7049)

  predicate BytesLess(a: seq<Byte>, b: seq<Byte>) {
    a != [] && b != [] && (a[0] < b[0] || (a[0] == b[0] && BytesLess(a[1..], b[1..])))
  }

  predicate KeyLess(a: seq<Byte>, b: seq<Byte>) {
    if |a| != |b| then |a| < |b| else BytesLess(a, b)
  }

  predicate Sorted(entries: seq<Entry>) {
    forall i, j | 0 <= i < j < |entries| :: KeyLess(entries[i].key, entries[j].key)
  }

  lemma {:induction false} BytesOrder(a: seq<Byte>, b: seq<Byte>)
    requires |a| == |b|
    ensures BytesLess(a, b) || BytesLess(b, a) || a == b
    ensures BytesLess(a, b) ==> !BytesLess(b, a) && a != b
  {
    if a != [] {
      BytesOrder(a[1..], b[1..]);
      assert a == [a[0]] + a[1..] && b == [b[0]] + b[1..];
    }
  }

  lemma {:induction false} BytesTransitive(a: seq<Byte>, b: seq<Byte>, c: seq<Byte>)
    requires BytesLess(a, b) && BytesLess(b, c)
    ensures BytesLess(a, c)
  {
    if a[0] == b[0] == c[0] {
      BytesTransitive(a[1..], b[1..], c[1..]);
    }
  }

  lemma KeyOrder(a: seq<Byte>, b: seq<Byte>)
    ensures KeyLess(a, b) || KeyLess(b, a) || a == b
    ensures KeyLess(a, b) ==> !KeyLess(b, a) && a != b
  {
    if |a| == |b| {
      BytesOrder(a, b);
    }
  }

  lemma KeyTransitive(a: seq<Byte>, b: seq<Byte>, c: seq<Byte>)
    requires KeyLess(a, b) && KeyLess(b, c)
    ensures KeyLess(a, c)
  {
    if |a| == |b| == |c| {
      BytesTransitive(a, b, c);
    }
  }

  predicate HasKey(entries: seq<Entry>, key: seq<Byte>) {
    exists e | e in entries :: e.key == key
  }

  /** Where a new key goes in an ordered map. */
  function Insert(entries: seq<Entry>, e: Entry): seq<Entry> {
    if entries == [] || KeyLess(e.key, entries[0].key) then [e] + entries
    else [entries[0]] + Insert(entries[1..], e)
  }

  /** Is every key of the map below this one? Then a new entry lands at the end. */
  predicate AllBelow(entries: seq<Entry>, key: seq<Byte>) {
    forall e | e in entries :: KeyLess(e.key, key)
  }

  lemma {:induction false} InsertIsSorted(entries: seq<Entry>, e: Entry)
    requires Sorted(entries) && !HasKey(entries, e.key)
    ensures Sorted(Insert(entries, e))
    ensures forall x :: x in Insert(entries, e) <==> x == e || x in entries
    ensures |Insert(entries, e)| == |entries| + 1
  {
    if entries == [] {
    } else if KeyLess(e.key, entries[0].key) {
      forall i | 0 <= i < |entries| ensures KeyLess(e.key, entries[i].key) {
        if i > 0 { KeyTransitive(e.key, entries[0].key, entries[i].key); }
      }
    } else {
      KeyOrder(e.key, entries[0].key);
      assert entries[0] in entries;
      InsertIsSorted(entries[1..], e);
      var rest := Insert(entries[1..], e);
      forall x | x in rest ensures KeyLess(entries[0].key, x.key) {
        if x != e {
          assert x in entries[1..];
        }
      }
      assert entries == [entries[0]] + entries[1..];
    }
  }

  lemma {:induction false} InsertAtEnd(entries: seq<Entry>, e: Entry)
    requires AllBelow(entries, e.key)
    ensures Insert(entries, e) == entries + [e] && !HasKey(entries, e.key)
  {
    forall x | x in entries ensures x.key != e.key {
      KeyOrder(x.key, e.key);
    }
    if entries != [] {
      assert entries[0] in entries;
      KeyOrder(entries[0].key, e.key);
      InsertAtEnd(entries[1..], e);
      assert entries == [entries[0]] + entries[1..];
    }
  }

  // ---------------------------------------------------------------------------
  // Encoding

  const MAJOR_UNSIGNED: Byte := 0
  const MAJOR_NEGATIVE: Byte := 1
  const MAJOR_BYTES: Byte := 2
  const MAJOR_TEXT: Byte := 3
  const MAJOR_ARRAY: Byte := 4
  const MAJOR_MAP: Byte := 5

  /** The shortest head that can carry the argument. */
  function Head(major: Byte, argument: nat): seq<Byte>
    requires major < 8
  {
    if argument < 24 then [major * 0x20 + argument]
    else if argument <= 0xFF then [major * 0x20 + 24, argument]
    else if argument <= 0xFFFF then [major * 0x20 + 25] + BigEndian(argument, 2)
    else if argument <= 0xFFFF_FFFF then [major * 0x20 + 26] + BigEndian(argument, 4)
    else [major * 0x20 + 27] + BigEndian(argument, 8)
  }

  function Encode(v: Value): seq<Byte>
    decreases v, 1
  {
    match v
    case Unsigned(u) => Head(MAJOR_UNSIGNED, u)
    case Negative(n) => Head(MAJOR_NEGATIVE, (-1 - n) % 0x1_0000_0000_0000_0000)  // as uint64
    case Bytes(b) => Head(MAJOR_BYTES, |b|) + b
    case Text(t) => Head(MAJOR_TEXT, |t|) + t
    case Array(items) => Head(MAJOR_ARRAY, |items|) + EncodeItems(items)
    case Map(entries) => Head(MAJOR_MAP, |entries|) + EncodeEntries(entries)
    case Boolean(b) => [0xE0 + (if b then 21 else 20)]
    case Null => [0xE0 + 22]
    case Double(bits) => [0xE0 + 27] + BigEndian(bits, 8)
  }

  function EncodeItems(items: seq<Value>): seq<Byte>
    decreases items, 0
  {
    if items == [] then [] else Encode(items[0]) + EncodeItems(items[1..])
  }

  function EncodeKey(key: seq<Byte>): seq<Byte> {
    Head(MAJOR_TEXT, |key|) + key
  }

  function EncodeEntries(entries: seq<Entry>): seq<Byte>
    decreases entries, 0
  {
    if entries == [] then []
    else EncodeEntry(entries[0]) + EncodeEntries(entries[1..])
  }

  function EncodeEntry(e: Entry): seq<Byte>
    decreases e, 0
  {
    EncodeKey(e.key) + Encode(e.value)
  }

  /** What the program can hold and send: 64-bit numbers, UTF-8 text, ordered bounded maps. */
  predicate Valid(v: Value, depth: nat)
    decreases v, 1
  {
    && depth <= MAX_NESTING_DEPTH
    && match v {
      case Unsigned(u) => u < Limit(8)
      case Negative(n) => -0x8000_0000_0000_0000 <= n < 0
      case Bytes(b) => |b| < Limit(8)
      case Text(t) => |t| < Limit(8) && Utf8.WellFormed(t)
      case Array(items) => |items| <= MAX_COLLECTION_ELEMENTS && ValidItems(items, depth + 1)
      case Map(entries) =>
        |entries| <= MAX_COLLECTION_ELEMENTS && Sorted(entries) && ValidEntries(entries, depth + 1)
      case Boolean(_) => true
      case Null => true
      case Double(bits) => bits < Limit(8)
    }
  }

  predicate ValidItems(items: seq<Value>, depth: nat)
    decreases items, 0
  {
    items == [] || (Valid(items[0], depth) && ValidItems(items[1..], depth))
  }

  predicate ValidKey(key: seq<Byte>) {
    |key| < Limit(8) && Utf8.WellFormed(key)
  }

  predicate ValidEntries(entries: seq<Entry>, depth: nat)
    decreases entries, 0
  {
    entries == []
    || (ValidKey(entries[0].key) && Valid(entries[0].value, depth)
        && ValidEntries(entries[1..], depth))
  }

  // ---------------------------------------------------------------------------
  // Widening of binary16 and binary32 patterns to binary64 patterns

  /** A subnormal fraction, doubled until its leading bit reaches `unit`. */
  function Normalized(mantissa: nat, exponent: nat, unit: nat, shift: nat): nat
    requires 0 < mantissa
    decreases if mantissa < unit then unit - mantissa else 0
  {
    if mantissa >= unit || exponent == 0 then
      exponent * 0x10_0000_0000_0000 + (if mantissa >= unit then mantissa - unit else 0) * shift
    else Normalized(2 * mantissa, exponent - 1, unit, shift)
  }

  function HalfToDouble(half: nat): nat {
    var exponent := half / 0x400 % 0x20;
    var mantissa := half % 0x400;
    var magnitude :=
      if exponent == 0 && mantissa == 0 then 0
      else if exponent == 0 then Normalized(mantissa, 1023 - 14, 0x400, 0x400_0000_0000)
      else if exponent == 0x1F then
        if mantissa == 0 then 0x7FF0_0000_0000_0000 else 0x7FF8_0000_0000_0000
      else (exponent + 1023 - 15) * 0x10_0000_0000_0000 + mantissa * 0x400_0000_0000;
    half / 0x8000 % 2 * 0x8000_0000_0000_0000 + magnitude % 0x8000_0000_0000_0000
  }

  function SingleToDouble(single: nat): nat {
    var exponent := single / 0x80_0000 % 0x100;
    var mantissa := single % 0x80_0000;
    var magnitude :=
      if exponent == 0 && mantissa == 0 then 0
      else if exponent == 0 then Normalized(mantissa, 1023 - 126, 0x80_0000, 0x2000_0000)
      else if exponent == 0xFF then
        if mantissa == 0 then 0x7FF0_0000_0000_0000
        else 0x7FF8_0000_0000_0000 + mantissa % 0x40_0000 * 0x2000_0000
      else (exponent + 1023 - 127) * 0x10_0000_0000_0000 + mantissa * 0x2000_0000;
    single / 0x8000_0000 % 2 * 0x8000_0000_0000_0000 + magnitude % 0x8000_0000_0000_0000
  }

  lemma WidenedFits(bits: nat)
    ensures HalfToDouble(bits) < Limit(8) && SingleToDouble(bits) < Limit(8)
  {
    Limits();
  }

  // ---------------------------------------------------------------------------
  // Decoding, on the bytes that remain

  datatype Argument = Argument(value: nat, rest: seq<Byte>) | BadArgument(error: Error)

  /** An argument of `n` bytes that must not have fitted a shorter head. */
  function LongArgument(b: seq<Byte>, n: nat, least: nat): Argument {
    if |b| < n then BadArgument(Truncated)
    else if FromBigEndian(b[..n]) < least then BadArgument(NonMinimalInteger)
    else Argument(FromBigEndian(b[..n]), b[n..])
  }

  function ReadArgument(b: seq<Byte>, additional: nat): (r: Argument)
    ensures r.Argument? ==> |r.rest| <= |b|
  {
    if additional < 24 then Argument(additional, b)
    else if additional == 24 then LongArgument(b, 1, 24)
    else if additional == 25 then LongArgument(b, 2, 0x100)
    else if additional == 26 then LongArgument(b, 4, 0x1_0000)
    else if additional == 27 then LongArgument(b, 8, 0x1_0000_0000)
    else BadArgument(InvalidAdditionalInformation)
  }

  /**
   * A decoded value and the bytes after it. `canonical` records that every map arrived in
   * key order and every real as binary64, which decoding does not insist on.
   */
  datatype Decoded =
    | Decoded(value: Value, rest: seq<Byte>, canonical: bool)
    | Failed(error: Error)

  datatype DecodedItems =
    | DecodedItems(items: seq<Value>, rest: seq<Byte>, canonical: bool)
    | FailedItems(error: Error)

  datatype DecodedEntries =
    | DecodedEntries(entries: seq<Entry>, rest: seq<Byte>, canonical: bool)
    | FailedEntries(error: Error)

  function DecodeString(b: seq<Byte>, additional: nat, text: bool): (r: Decoded)
    ensures r.Decoded? ==> |r.rest| <= |b|
  {
    match ReadArgument(b, additional)
    case BadArgument(e) => Failed(e)
    case Argument(count, rest) =>
      if count > |rest| then Failed(Truncated)
      else if !text then Decoded(Bytes(rest[..count]), rest[count..], true)
      else if !Utf8.WellFormed(rest[..count]) then Failed(InvalidUtf8)
      else Decoded(Text(rest[..count]), rest[count..], true)
  }

  function DecodeReal(b: seq<Byte>, n: nat): (r: Decoded)
    requires n in {2, 4, 8}
    ensures r.Decoded? ==> |r.rest| <= |b|
  {
    if |b| < n then Failed(Truncated)
    else
      var bits := FromBigEndian(b[..n]);
      Decoded(Double(if n == 2 then HalfToDouble(bits)
                     else if n == 4 then SingleToDouble(bits) else bits), b[n..], n == 8)
  }

  function DecodeSimple(b: seq<Byte>, additional: nat): (r: Decoded)
    ensures r.Decoded? ==> |r.rest| <= |b|
  {
    match additional
    case 20 => Decoded(Boolean(false), b, true)
    case 21 => Decoded(Boolean(true), b, true)
    case 22 => Decoded(Null, b, true)
    case 25 => DecodeReal(b, 2)
    case 26 => DecodeReal(b, 4)
    case 27 => DecodeReal(b, 8)
    case _ => Failed(UnsupportedSimpleValue)
  }

  function DecodeInteger(b: seq<Byte>, additional: nat, negative: bool): (r: Decoded)
    ensures r.Decoded? ==> |r.rest| <= |b|
  {
    match ReadArgument(b, additional)
    case BadArgument(e) => Failed(e)
    case Argument(value, rest) =>
      if !negative then Decoded(Unsigned(value), rest, true)
      else if value > 0x7FFF_FFFF_FFFF_FFFF then Failed(IntegerOverflow)
      else Decoded(Negative(-1 - value), rest, true)
  }

  function ReadCount(b: seq<Byte>, additional: nat): (r: Argument)
    ensures r.Argument? ==> |r.rest| <= |b|
  {
    match ReadArgument(b, additional)
    case BadArgument(e) => BadArgument(e)
    case Argument(count, rest) =>
      if count > MAX_COLLECTION_ELEMENTS then BadArgument(CollectionTooLarge)
      else Argument(count, rest)
  }

  function DecodeValue(b: seq<Byte>, depth: nat): (r: Decoded)
    ensures r.Decoded? ==> |r.rest| < |b|
    decreases |b|, 0, 0
  {
    if depth > MAX_NESTING_DEPTH then Failed(NestingLimitExceeded)
    else if b == [] then Failed(Truncated)
    else
      var additional := b[0] % 0x20;
      match b[0] / 0x20 {
        case 0 => DecodeInteger(b[1..], additional, false)
        case 1 => DecodeInteger(b[1..], additional, true)
        case 2 => DecodeString(b[1..], additional, false)
        case 3 => DecodeString(b[1..], additional, true)
        case 4 => DecodeArray(b[1..], additional, depth)
        case 5 => DecodeMap(b[1..], additional, depth)
        case 7 => DecodeSimple(b[1..], additional)
        case _ => Failed(InvalidAdditionalInformation)
      }
  }

  function DecodeArray(b: seq<Byte>, additional: nat, depth: nat): (r: Decoded)
    ensures r.Decoded? ==> |r.rest| <= |b|
    decreases |b|, 2, 0
  {
    match ReadCount(b, additional)
    case BadArgument(e) => Failed(e)
    case Argument(count, rest) =>
      match DecodeItems(rest, count, depth + 1, [], true) {
        case FailedItems(e) => Failed(e)
        case DecodedItems(items, after, canonical) => Decoded(Array(items), after, canonical)
      }
  }

  function DecodeItems(b: seq<Byte>, count: nat, depth: nat, done: seq<Value>, canonical: bool)
    : (r: DecodedItems)
    ensures r.DecodedItems? ==> |r.rest| <= |b|
    decreases |b|, 1, count
  {
    if count == 0 then DecodedItems(done, b, canonical)
    else
      match DecodeValue(b, depth)
      case Failed(e) => FailedItems(e)
      case Decoded(v, rest, c) => DecodeItems(rest, count - 1, depth, done + [v], canonical && c)
  }

  function DecodeMap(b: seq<Byte>, additional: nat, depth: nat): (r: Decoded)
    ensures r.Decoded? ==> |r.rest| <= |b|
    decreases |b|, 3, 0
  {
    match ReadCount(b, additional)
    case BadArgument(e) => Failed(e)
    case Argument(count, rest) =>
      match DecodeEntries(rest, count, depth + 1, [], true) {
        case FailedEntries(e) => Failed(e)
        case DecodedEntries(entries, after, canonical) => Decoded(Map(entries), after, canonical)
      }
  }

  /** The next entry: a text key, then its value. */
  function DecodeEntry(b: seq<Byte>, depth: nat): (r: DecodedEntries)
    ensures r.DecodedEntries? ==> |r.entries| == 1 && |r.rest| < |b|
    decreases |b|, 1, 0
  {
    match DecodeValue(b, depth)
    case Failed(e) => FailedEntries(e)
    case Decoded(key, rest, _) =>
      if !key.Text? then FailedEntries(UnsupportedMapKey)
      else match DecodeValue(rest, depth)
        case Failed(e) => FailedEntries(e)
        case Decoded(v, after, c) => DecodedEntries([Entry(key.text, v)], after, c)
  }

  function DecodeEntries(b: seq<Byte>, count: nat, depth: nat, done: seq<Entry>, canonical: bool)
    : (r: DecodedEntries)
    ensures r.DecodedEntries? ==> |r.rest| <= |b|
    decreases |b|, 2, count
  {
    if count == 0 then DecodedEntries(done, b, canonical)
    else
      match DecodeEntry(b, depth)
      case FailedEntries(e) => FailedEntries(e)
      case DecodedEntries(entries, rest, c) =>
        var e := entries[0];
        if HasKey(done, e.key) then FailedEntries(DuplicateMapKey)
        else DecodeEntries(rest, count - 1, depth, Insert(done, e),
                           canonical && c && AllBelow(done, e.key))
  }

  /** Exactly one item, and nothing after it. */
  function Decode(b: seq<Byte>): Decoded {
    match DecodeValue(b, 0)
    case Failed(e) => Failed(e)
    case Decoded(v, rest, canonical) =>
      if rest != [] then Failed(TrailingBytes) else Decoded(v, [], canonical)
  }
}
