/** The CBOR codec as the program runs it: a reader that advances, and a growing output. */
module CborCodec {
  import opened Bytes
  import opened Cbor
  import Utf8
  import CborRoundTrip

  class Reader {
    const data: seq<Byte>
    var offset: nat

    ghost predicate Valid()
      reads this
    {
      offset <= |data|
    }

    ghost function Rest(): seq<Byte>
      reads this
      requires Valid()
    {
      data[offset..]
    }

    constructor (data: seq<Byte>)
      ensures Valid() && Rest() == data
    {
      this.data := data;
      offset := 0;
    }

    method Remaining() returns (n: nat)
      requires Valid()
      ensures n == |Rest()|
    {
      n := |data| - offset;
    }

    method ReadByte() returns (error: Error, value: Byte)
      requires Valid()
      modifies this
      ensures Valid()
      ensures error == if old(Rest()) == [] then Truncated else NoError
      ensures error == NoError ==> [value] + Rest() == old(Rest())
    {
      error, value := NoError, 0;
      if |data| - offset < 1 { return Truncated, 0; }
      value := data[offset];
      offset := offset + 1;
    }

    method ReadBytes(count: nat) returns (error: Error, bytes: seq<Byte>)
      requires Valid()
      modifies this
      ensures Valid()
      ensures error == if count > |old(Rest())| then Truncated else NoError
      ensures error == NoError ==> bytes == old(Rest())[..count] && Rest() == old(Rest())[count..]
    {
      error, bytes := NoError, [];
      if count > |data| - offset { return Truncated, []; }
      bytes := data[offset..offset + count];
      offset := offset + count;
    }

    method ReadNumber(n: nat) returns (error: Error, value: nat)
      requires Valid()
      modifies this
      ensures Valid()
      ensures error == if n > |old(Rest())| then Truncated else NoError
      ensures error == NoError ==>
                value == FromBigEndian(old(Rest())[..n]) && Rest() == old(Rest())[n..]
    {
      var bytes;
      value := 0;
      error, bytes := ReadBytes(n);
      if error == NoError { value := ReadBigEndian(bytes); }
    }
  }

  method ReadLong(reader: Reader, n: nat, least: nat) returns (error: Error, value: nat)
    requires reader.Valid()
    modifies reader
    ensures reader.Valid()
    ensures match LongArgument(old(reader.Rest()), n, least)
            case BadArgument(e) => error == e != NoError
            case Argument(v, rest) => error == NoError && value == v && reader.Rest() == rest
  {
    error, value := reader.ReadNumber(n);
    if error == NoError && value < least { error := NonMinimalInteger; }
  }

  method ReadArgument(reader: Reader, additional: nat) returns (error: Error, value: nat)
    requires reader.Valid()
    modifies reader
    ensures reader.Valid()
    ensures match Cbor.ReadArgument(old(reader.Rest()), additional)
            case BadArgument(e) => error == e != NoError
            case Argument(v, rest) => error == NoError && value == v && reader.Rest() == rest
  {
    if additional < 24 { return NoError, additional; }
    match additional {
      case 24 => error, value := ReadLong(reader, 1, 24);
      case 25 => error, value := ReadLong(reader, 2, 0x100);
      case 26 => error, value := ReadLong(reader, 4, 0x1_0000);
      case 27 => error, value := ReadLong(reader, 8, 0x1_0000_0000);
      case _ => error, value := InvalidAdditionalInformation, 0;
    }
  }

  method DecodeCollectionCount(reader: Reader, additional: nat) returns (error: Error, count: nat)
    requires reader.Valid()
    modifies reader
    ensures reader.Valid()
    ensures match ReadCount(old(reader.Rest()), additional)
            case BadArgument(e) => error == e != NoError
            case Argument(v, rest) => error == NoError && count == v && reader.Rest() == rest
  {
    error, count := ReadArgument(reader, additional);
    if error == NoError && count > MAX_COLLECTION_ELEMENTS { error := CollectionTooLarge; }
  }

  method DecodeStringInto(reader: Reader, additional: nat, text: bool)
    returns (error: Error, value: Value)
    requires reader.Valid()
    modifies reader
    ensures reader.Valid()
    ensures match DecodeString(old(reader.Rest()), additional, text)
            case Failed(e) => error == e != NoError
            case Decoded(v, rest, _) => error == NoError && value == v && reader.Rest() == rest
  {
    value := Null;
    var count;
    error, count := ReadArgument(reader, additional);
    if error != NoError { return error, Null; }
    var start;
    error, start := reader.ReadBytes(count);
    if error != NoError { return error, Null; }
    if !text { return NoError, Bytes(start); }
    Utf8.WellFormedIffUtf8(start);
    var ok := Utf8.IsValidUtf8(start);
    if !ok { return InvalidUtf8, Null; }
    value := Text(start);
  }

  method DecodeSimpleInto(reader: Reader, additional: nat) returns (error: Error, value: Value)
    requires reader.Valid()
    modifies reader
    ensures reader.Valid()
    ensures match DecodeSimple(old(reader.Rest()), additional)
            case Failed(e) => error == e != NoError
            case Decoded(v, rest, _) => error == NoError && value == v && reader.Rest() == rest
  {
    error, value := NoError, Null;
    var bits;
    match additional {
      case 20 => value := Boolean(false);
      case 21 => value := Boolean(true);
      case 22 => value := Null;
      case 25 =>
        error, bits := reader.ReadNumber(2);
        value := Double(HalfToDouble(bits));
      case 26 =>
        error, bits := reader.ReadNumber(4);
        value := Double(SingleToDouble(bits));
      case 27 =>
        error, bits := reader.ReadNumber(8);
        value := Double(bits);
      case _ => error := UnsupportedSimpleValue;
    }
  }

  method DecodeIntegerInto(reader: Reader, additional: nat, negative: bool)
    returns (error: Error, value: Value)
    requires reader.Valid()
    modifies reader
    ensures reader.Valid()
    ensures match DecodeInteger(old(reader.Rest()), additional, negative)
            case Failed(e) => error == e != NoError
            case Decoded(v, rest, _) => error == NoError && value == v && reader.Rest() == rest
  {
    value := Null;
    var n: int;
    error, n := ReadArgument(reader, additional);
    if error != NoError { return error, Null; }
    if !negative { return NoError, Unsigned(n); }
    if n > 0x7FFF_FFFF_FFFF_FFFF { return IntegerOverflow, Null; }
    value := Negative(-1 - n);
  }

  /** One value at the given depth; the recursion and its error order are those of the program. */
  method DecodeFrom(reader: Reader, depth: nat) returns (error: Error, value: Value)
    requires reader.Valid()
    modifies reader
    ensures reader.Valid()
    ensures match DecodeValue(old(reader.Rest()), depth)
            case Failed(e) => error == e != NoError
            case Decoded(v, rest, _) => error == NoError && value == v && reader.Rest() == rest
    decreases |reader.Rest()|, 0
  {
    value := Null;
    if depth > MAX_NESTING_DEPTH { return NestingLimitExceeded, Null; }
    var initial;
    error, initial := reader.ReadByte();
    if error != NoError { return error, Null; }
    assert reader.Rest() == old(reader.Rest())[1..];
    var additional := initial % 0x20;
    match initial / 0x20 {
      case 0 => error, value := DecodeIntegerInto(reader, additional, false);
      case 1 => error, value := DecodeIntegerInto(reader, additional, true);
      case 2 => error, value := DecodeStringInto(reader, additional, false);
      case 3 => error, value := DecodeStringInto(reader, additional, true);
      case 4 => error, value := DecodeArrayFrom(reader, additional, depth);
      case 5 => error, value := DecodeMapFrom(reader, additional, depth);
      case 7 => error, value := DecodeSimpleInto(reader, additional);
      case _ => error := InvalidAdditionalInformation;
    }
  }

  method DecodeArrayFrom(reader: Reader, additional: nat, depth: nat)
    returns (error: Error, value: Value)
    requires reader.Valid()
    modifies reader
    ensures reader.Valid()
    ensures match DecodeArray(old(reader.Rest()), additional, depth)
            case Failed(e) => error == e != NoError
            case Decoded(v, rest, _) => error == NoError && value == v && reader.Rest() == rest
    decreases |reader.Rest()|, 1
  {
    value := Null;
    var count;
    error, count := DecodeCollectionCount(reader, additional);
    if error != NoError { return error, Null; }
    var items: seq<Value> := [];
    ghost var start := reader.Rest();
    ghost var canonical := true;
    for i := 0 to count
      invariant reader.Valid() && |reader.Rest()| <= |old(reader.Rest())|
      invariant DecodeItems(start, count, depth + 1, [], true)
             == DecodeItems(reader.Rest(), count - i, depth + 1, items, canonical)
    {
      ghost var here := DecodeValue(reader.Rest(), depth + 1);
      var item;
      error, item := DecodeFrom(reader, depth + 1);
      if error != NoError { return error, Null; }
      items := items + [item];
      canonical := canonical && here.canonical;
    }
    error, value := NoError, Array(items);
  }

  /** A binary search tree insert, seen from outside: refused when the key is present. */
  method Emplace(entries: seq<Entry>, e: Entry) returns (inserted: bool, r: seq<Entry>)
    requires Sorted(entries)
    ensures inserted <==> !HasKey(entries, e.key)
    ensures r == if inserted then Insert(entries, e) else entries
    ensures Sorted(r)
  {
    if exists x | x in entries :: x.key == e.key { return false, entries; }
    InsertIsSorted(entries, e);
    inserted, r := true, Insert(entries, e);
  }

  method DecodeMapFrom(reader: Reader, additional: nat, depth: nat)
    returns (error: Error, value: Value)
    requires reader.Valid()
    modifies reader
    ensures reader.Valid()
    ensures match DecodeMap(old(reader.Rest()), additional, depth)
            case Failed(e) => error == e != NoError
            case Decoded(v, rest, _) => error == NoError && value == v && reader.Rest() == rest
    decreases |reader.Rest()|, 3
  {
    value := Null;
    var count;
    error, count := DecodeCollectionCount(reader, additional);
    if error != NoError { return error, Null; }
    var entries;
    error, entries := DecodeEntriesFrom(reader, count, depth + 1);
    if error == NoError { value := Map(entries); }
  }

  /** One turn of the loop. */
  lemma NextEntry(b: seq<Byte>, count: nat, depth: nat, done: seq<Entry>, canonical: bool)
    requires count > 0
    ensures var here, all := DecodeEntry(b, depth), DecodeEntries(b, count, depth, done, canonical);
            match here
            case FailedEntries(e) => all == FailedEntries(e)
            case DecodedEntries(one, rest, c) =>
              if HasKey(done, one[0].key) then all == FailedEntries(DuplicateMapKey)
              else all == DecodeEntries(rest, count - 1, depth, Insert(done, one[0]),
                                        canonical && c && AllBelow(done, one[0].key))
  {
  }

  /** The loop of decodeMap: each entry goes to its place, and a key may come only once. */
  method DecodeEntriesFrom(reader: Reader, count: nat, depth: nat)
    returns (error: Error, entries: seq<Entry>)
    requires reader.Valid()
    modifies reader
    ensures reader.Valid()
    ensures match DecodeEntries(old(reader.Rest()), count, depth, [], true)
            case FailedEntries(e) => error == e != NoError
            case DecodedEntries(all, rest, _) => error == NoError && entries == all && reader.Rest() == rest
    decreases |reader.Rest()|, 2
  {
    entries := [];
    ghost var whole := DecodeEntries(reader.Rest(), count, depth, [], true);
    ghost var canonical := true;
    for i := 0 to count
      invariant reader.Valid() && |reader.Rest()| <= |old(reader.Rest())|
      invariant Sorted(entries)
      invariant whole == DecodeEntries(reader.Rest(), count - i, depth, entries, canonical)
    {
      ghost var here := DecodeEntry(reader.Rest(), depth);
      NextEntry(reader.Rest(), count - i, depth, entries, canonical);
      var entry;
      error, entry := DecodeEntryFrom(reader, depth);
      if error != NoError { return error, []; }
      canonical := canonical && here.canonical && AllBelow(entries, entry.key);
      var inserted;
      inserted, entries := Emplace(entries, entry);
      if !inserted { return DuplicateMapKey, []; }
    }
    error := NoError;
  }

  method DecodeEntryFrom(reader: Reader, depth: nat) returns (error: Error, entry: Entry)
    requires reader.Valid()
    modifies reader
    ensures reader.Valid()
    ensures match DecodeEntry(old(reader.Rest()), depth)
            case FailedEntries(e) => error == e != NoError
            case DecodedEntries(entries, rest, _) =>
              error == NoError && entries == [entry] && reader.Rest() == rest
    decreases |reader.Rest()|, 1
  {
    entry := Entry([], Null);
    var key, item;
    error, key := DecodeFrom(reader, depth);
    if error != NoError { return error, entry; }
    if !key.Text? { return UnsupportedMapKey, entry; }
    error, item := DecodeFrom(reader, depth);
    if error != NoError { return error, entry; }
    entry := Entry(key.text, item);
  }

  /** Exactly one top-level item: the inverse of encoding, and nothing else, is accepted. */
  method DecodeAll(data: seq<Byte>) returns (error: Error, value: Value)
    ensures match Decode(data)
            case Failed(e) => error == e != NoError
            case Decoded(v, _, _) => error == NoError && value == v
    ensures error == NoError ==> Valid(value, 0)
    ensures forall v | Valid(v, 0) && data == Encode(v) :: error == NoError && value == v
  {
    forall v | Valid(v, 0) && data == Encode(v)
      ensures Decode(data) == Decoded(v, [], true)
    {
      CborRoundTrip.RoundTrip(v, []);
    }
    var reader := new Reader(data);
    error, value := DecodeFrom(reader, 0);
    if error != NoError { return error, value; }
    CborRoundTrip.EncodeDecoded(data, 0);
    var left := reader.Remaining();
    if left != 0 { return TrailingBytes, value; }
  }

  // ---------------------------------------------------------------------------
  // Encoding into a growing output

  method AppendHead(out: seq<Byte>, major: Byte, argument: nat) returns (r: seq<Byte>)
    requires major < 8
    ensures r == out + Head(major, argument)
  {
    if argument < 24 {
      r := out + [major * 0x20 + argument];
    } else if argument <= 0xFF {
      r := out + [major * 0x20 + 24];
      r := r + [argument];
    } else if argument <= 0xFFFF {
      r := AppendBigEndian(out + [major * 0x20 + 25], argument, 2);
      Reassociate(out, [major * 0x20 + 25], BigEndian(argument, 2));
    } else if argument <= 0xFFFF_FFFF {
      r := AppendBigEndian(out + [major * 0x20 + 26], argument, 4);
      Reassociate(out, [major * 0x20 + 26], BigEndian(argument, 4));
    } else {
      r := AppendBigEndian(out + [major * 0x20 + 27], argument, 8);
      Reassociate(out, [major * 0x20 + 27], BigEndian(argument, 8));
    }
  }

  method EncodeInto(value: Value, out: seq<Byte>) returns (r: seq<Byte>)
    ensures r == out + Encode(value)
    decreases value, 1
  {
    match value
    case Unsigned(u) => r := AppendHead(out, MAJOR_UNSIGNED, u);
    case Negative(n) =>
      assert -(n + 1) == -1 - n;
      r := AppendHead(out, MAJOR_NEGATIVE, (-(n + 1)) % 0x1_0000_0000_0000_0000);
    case Bytes(b) => r := EncodeStringInto(MAJOR_BYTES, b, out);
    case Text(t) => r := EncodeStringInto(MAJOR_TEXT, t, out);
    case Array(items) => r := EncodeArrayInto(items, out);
    case Map(entries) => r := EncodeMapInto(entries, out);
    case Boolean(b) => r := out + [0xE0 + (if b then 21 else 20)];
    case Null => r := out + [0xE0 + 22];
    case Double(bits) =>
      r := AppendBigEndian(out + [0xE0 + 27], bits, 8);
      Reassociate(out, [0xE0 + 27], BigEndian(bits, 8));
  }

  method EncodeStringInto(major: Byte, b: seq<Byte>, out: seq<Byte>) returns (r: seq<Byte>)
    requires major < 8
    ensures r == out + (Head(major, |b|) + b)
  {
    r := AppendHead(out, major, |b|);
    r := r + b;
    Reassociate(out, Head(major, |b|), b);
  }

  method EncodeArrayInto(items: seq<Value>, out: seq<Byte>) returns (r: seq<Byte>)
    ensures r == out + (Head(MAJOR_ARRAY, |items|) + EncodeItems(items))
    decreases items, 0
  {
    r := AppendHead(out, MAJOR_ARRAY, |items|);
    ghost var start := r;
    for i := 0 to |items|
      invariant r + EncodeItems(items[i..]) == start + EncodeItems(items)
    {
      assert items[i..][1..] == items[i + 1..];
      Reassociate(r, Encode(items[i]), EncodeItems(items[i + 1..]));
      r := EncodeInto(items[i], r);
    }
    assert items[|items|..] == [] && r + [] == r;
  }

  method EncodeMapInto(entries: seq<Entry>, out: seq<Byte>) returns (r: seq<Byte>)
    ensures r == out + (Head(MAJOR_MAP, |entries|) + EncodeEntries(entries))
    decreases entries, 0
  {
    r := AppendHead(out, MAJOR_MAP, |entries|);
    ghost var start := r;
    for i := 0 to |entries|
      invariant r + EncodeEntries(entries[i..]) == start + EncodeEntries(entries)
    {
      assert entries[i..][1..] == entries[i + 1..];
      Reassociate(r, EncodeEntry(entries[i]), EncodeEntries(entries[i + 1..]));
      r := EncodeEntryInto(entries[i], r);
    }
    assert entries[|entries|..] == [] && r + [] == r;
  }

  method EncodeEntryInto(e: Entry, out: seq<Byte>) returns (r: seq<Byte>)
    ensures r == out + EncodeEntry(e)
    decreases e, 0
  {
    r := EncodeStringInto(MAJOR_TEXT, e.key, out);
    r := EncodeInto(e.value, r);
    Reassociate(out, EncodeKey(e.key), Encode(e.value));
  }

  /** The wire form of a value; decoding it gives the value back. */
  method EncodeAll(value: Value) returns (out: seq<Byte>)
    ensures out == Encode(value)
    ensures Valid(value, 0) ==> Decode(out) == Decoded(value, [], true)
  {
    out := EncodeInto(value, []);
    assert [] + Encode(value) == Encode(value);
    if Valid(value, 0) {
      CborRoundTrip.RoundTrip(value, []);
    }
  }
}
