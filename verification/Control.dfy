/** Control messages: a CBOR map whose key "t" names the type. */
module Control {
  import opened Bytes
  import opened Cbor
  import opened Wrappers
  import CborCanonical
  import CborRoundTrip
  import CborCodec
  import Utf8

  const MAX_PAYLOAD_BYTES := 1024 * 1024

  datatype Message = Message(kind: seq<Byte>, fields: seq<Entry>)

  datatype ControlError = PayloadTooLarge | MalformedCbor(cbor: Error) | NotAMap | MissingType

  datatype Result = Ok(message: Message) | Err(error: ControlError)

  const TYPE_KEY: seq<Byte> := Ascii("t")

  // ---------------------------------------------------------------------------
  // Maps by key

  /** The value under a key. */
  function Find(entries: seq<Entry>, key: seq<Byte>): Option<Value> {
    if entries == [] then None
    else if entries[0].key == key then Some(entries[0].value)
    else Find(entries[1..], key)
  }

  function Erase(entries: seq<Entry>, key: seq<Byte>): seq<Entry> {
    if entries == [] then []
    else (if entries[0].key == key then [] else [entries[0]]) + Erase(entries[1..], key)
  }

  /** insert_or_assign on an ordered map. */
  function Put(entries: seq<Entry>, key: seq<Byte>, value: Value): seq<Entry> {
    Insert(Erase(entries, key), Entry(key, value))
  }

  lemma {:induction false} EraseMembers(entries: seq<Entry>, key: seq<Byte>)
    ensures forall e :: e in Erase(entries, key) <==> e in entries && e.key != key
    ensures |Erase(entries, key)| <= |entries|
  {
    if entries != [] {
      EraseMembers(entries[1..], key);
      assert entries == [entries[0]] + entries[1..];
    }
  }

  lemma {:induction false} EraseIsSorted(entries: seq<Entry>, key: seq<Byte>)
    requires Sorted(entries)
    ensures Sorted(Erase(entries, key)) && !HasKey(Erase(entries, key), key)
  {
    EraseMembers(entries, key);
    if entries != [] {
      EraseIsSorted(entries[1..], key);
      EraseMembers(entries[1..], key);
      forall e | e in Erase(entries[1..], key) ensures KeyLess(entries[0].key, e.key) {
        var i :| 0 <= i < |entries[1..]| && entries[1..][i] == e;
        assert entries[i + 1] == e;
      }
    }
  }

  lemma {:induction false} EraseAbsent(entries: seq<Entry>, key: seq<Byte>)
    requires !HasKey(entries, key)
    ensures Erase(entries, key) == entries
  {
    if entries != [] {
      assert entries[0] in entries;
      assert forall e :: e in entries[1..] ==> e in entries;
      EraseAbsent(entries[1..], key);
      assert entries == [entries[0]] + entries[1..];
    }
  }

  lemma {:induction false} EraseInserted(entries: seq<Entry>, e: Entry)
    requires !HasKey(entries, e.key)
    ensures Erase(Insert(entries, e), e.key) == entries
    ensures Find(Insert(entries, e), e.key) == Some(e.value)
  {
    if entries == [] || KeyLess(e.key, entries[0].key) {
      EraseAbsent(entries, e.key);
      assert ([e] + entries)[1..] == entries;
    } else {
      assert entries[0] in entries;
      assert forall x :: x in entries[1..] ==> x in entries;
      EraseInserted(entries[1..], e);
      var rest := Insert(entries[1..], e);
      assert ([entries[0]] + rest)[1..] == rest;
      assert entries == [entries[0]] + entries[1..];
    }
  }

  // ---------------------------------------------------------------------------
  // Messages

  function AsMap(m: Message): Value {
    Map(Put(m.fields, TYPE_KEY, Text(m.kind)))
  }

  function EncodeMessage(m: Message): seq<Byte> {
    Encode(AsMap(m))
  }

  function FromMap(v: Value): Result {
    if !v.Map? then Err(NotAMap)
    else match Find(v.entries, TYPE_KEY)
      case None => Err(MissingType)
      case Some(t) => if !t.Text? then Err(MissingType) else Ok(Message(t.text, Erase(v.entries, TYPE_KEY)))
  }

  function DecodeMessage(data: seq<Byte>): Result {
    if |data| > MAX_PAYLOAD_BYTES then Err(PayloadTooLarge)
    else match Decode(data)
      case Failed(e) => Err(MalformedCbor(e))
      case Decoded(v, _, _) => FromMap(v)
  }

  method MessageToBytes(m: Message) returns (data: seq<Byte>)
    ensures data == EncodeMessage(m)
  {
    data := CborCodec.EncodeAll(AsMap(m));
  }

  method MessageFromBytes(data: seq<Byte>) returns (result: Result)
    ensures result == DecodeMessage(data)
  {
    if |data| > MAX_PAYLOAD_BYTES { return Err(PayloadTooLarge); }
    var error, value := CborCodec.DecodeAll(data);
    if error != NoError { return Err(MalformedCbor(error)); }
    result := FromMap(value);
  }

  /** What a message can hold. */
  predicate ValidMessage(m: Message) {
    && Sorted(m.fields) && |m.fields| < MAX_COLLECTION_ELEMENTS
    && CborRoundTrip.ValidEach(m.fields, 1)
    && |m.kind| < Limit(8) && Utf8.WellFormed(m.kind)
  }

  lemma {:induction false} AsciiIsUtf8(text: seq<Byte>)
    requires forall b :: b in text ==> b < 0x80
    ensures Utf8.WellFormed(text)
    decreases |text|
  {
    if text != [] {
      assert text[0] in text && forall b :: b in text[1..] ==> b in text;
      AsciiIsUtf8(text[1..]);
    }
  }

  lemma TypeKeyIsValid()
    ensures ValidKey(TYPE_KEY)
  {
    AsciiIsUtf8(TYPE_KEY);
    Limits();
  }

  lemma PutIsValid(entries: seq<Entry>, key: seq<Byte>, value: Value, depth: nat)
    requires Sorted(entries) && CborRoundTrip.ValidEach(entries, depth)
    requires ValidKey(key) && Valid(value, depth)
    ensures Sorted(Put(entries, key, value)) && CborRoundTrip.ValidEach(Put(entries, key, value), depth)
    ensures |Put(entries, key, value)| <= |entries| + 1
  {
    EraseIsSorted(entries, key);
    EraseMembers(entries, key);
    InsertIsSorted(Erase(entries, key), Entry(key, value));
  }

  lemma MessageMapIsValid(m: Message)
    requires ValidMessage(m)
    ensures Valid(AsMap(m), 0)
  {
    TypeKeyIsValid();
    PutIsValid(m.fields, TYPE_KEY, Text(m.kind), 1);
    CborRoundTrip.ValidEachIsValid(Put(m.fields, TYPE_KEY, Text(m.kind)), 1);
  }

  /** What a message's own map reads as. */
  lemma FromOwnMap(m: Message)
    requires Sorted(m.fields)
    ensures FromMap(AsMap(m)) == Ok(Message(m.kind, Erase(m.fields, TYPE_KEY)))
  {
    EraseIsSorted(m.fields, TYPE_KEY);
    EraseInserted(Erase(m.fields, TYPE_KEY), Entry(TYPE_KEY, Text(m.kind)));
  }

  /** A message decodes from its own bytes, but for a field named like the type key. */
  lemma MessageDecodes(m: Message)
    requires ValidMessage(m)
    ensures DecodeMessage(EncodeMessage(m))
         == if |EncodeMessage(m)| > MAX_PAYLOAD_BYTES then Err(PayloadTooLarge)
            else Ok(Message(m.kind, Erase(m.fields, TYPE_KEY)))
  {
    MessageMapIsValid(m);
    CborRoundTrip.RoundTrip(AsMap(m), []);
    FromOwnMap(m);
  }

  /** A message comes back as it was exactly when it fits the cap and has no field of that name. */
  lemma MessageRoundTrip(m: Message)
    requires ValidMessage(m)
    ensures DecodeMessage(EncodeMessage(m)) == Ok(m)
       <==> |EncodeMessage(m)| <= MAX_PAYLOAD_BYTES && !HasKey(m.fields, TYPE_KEY)
  {
    MessageDecodes(m);
    EraseIsSorted(m.fields, TYPE_KEY);
    if !HasKey(m.fields, TYPE_KEY) {
      EraseAbsent(m.fields, TYPE_KEY);
    }
  }

  lemma {:induction false} InsertErased(entries: seq<Entry>, key: seq<Byte>)
    requires Sorted(entries) && Find(entries, key).Some?
    ensures Put(entries, key, Find(entries, key).value) == entries
  {
    var rest := entries[1..];
    assert entries == [entries[0]] + rest;
    if entries[0].key == key {
      forall e | e in rest ensures KeyLess(key, e.key) && e.key != key {
        KeyOrder(key, e.key);
      }
      EraseAbsent(rest, key);
    } else {
      InsertErased(rest, key);
      FoundIsMember(rest, key);
      KeyOrder(entries[0].key, key);
    }
  }

  lemma {:induction false} FoundIsMember(entries: seq<Entry>, key: seq<Byte>)
    requires Find(entries, key).Some?
    ensures Entry(key, Find(entries, key).value) in entries
  {
    if entries[0].key == key {
      assert entries[0] == Entry(key, Find(entries, key).value);
    } else {
      FoundIsMember(entries[1..], key);
    }
  }

  /** Accepted bytes are those of the message they give, exactly when they came in canonical form. */
  lemma MessageReencodes(data: seq<Byte>)
    requires DecodeMessage(data).Ok?
    ensures var m := DecodeMessage(data).message;
            !HasKey(m.fields, TYPE_KEY) && (EncodeMessage(m) == data <==> CborCanonical.InCanonicalForm(data))
  {
    var v := Decode(data).value;
    CborRoundTrip.CanonicalIffReencodes(data);
    EraseIsSorted(v.entries, TYPE_KEY);
    InsertErased(v.entries, TYPE_KEY);
    EraseAbsent(Erase(v.entries, TYPE_KEY), TYPE_KEY);
  }
}
