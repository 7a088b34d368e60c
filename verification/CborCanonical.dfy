/**
 * Canonical form, read off the bytes alone: every map lists its keys in ascending order, and every
 * real is a binary64. The decoder is asked only where an item ends and what a key is.
 */
module CborCanonical {
  import opened Bytes
  import opened Cbor
  import opened Wrappers

  /** The whole input. */
  predicate InCanonicalForm(b: seq<Byte>) {
    Canonical(b, 0)
  }

  /** The item at the front of the bytes. */
  predicate Canonical(b: seq<Byte>, depth: nat)
    decreases |b|, 0, 0
  {
    && b != []
    && match b[0] / 0x20 {
      case 4 =>
        var count := ReadCount(b[1..], b[0] % 0x20);
        count.Argument? && ItemsCanonical(count.rest, count.value, depth + 1)
      case 5 =>
        var count := ReadCount(b[1..], b[0] % 0x20);
        count.Argument? && EntriesAscending(count.rest, count.value, depth + 1, None)
      case 7 => b[0] % 0x20 != 25 && b[0] % 0x20 != 26     // neither a half nor a single
      case _ => true
    }
  }

  predicate ItemsCanonical(b: seq<Byte>, count: nat, depth: nat)
    decreases |b|, 1, count
  {
    count == 0
    || (DecodeValue(b, depth).Decoded?
        && Canonical(b, depth) && ItemsCanonical(DecodeValue(b, depth).rest, count - 1, depth))
  }

  /** Each key above the one before it, each value canonical. */
  predicate EntriesAscending(b: seq<Byte>, count: nat, depth: nat, last: Option<seq<Byte>>)
    decreases |b|, 1, count
  {
    count == 0
    || (DecodeEntry(b, depth).DecodedEntries?
        && var key, value := DecodeValue(b, depth).value.text, DecodeValue(b, depth).rest;
           && (last.Some? ==> KeyLess(last.value, key))
           && Canonical(value, depth)
           && EntriesAscending(DecodeValue(value, depth).rest, count - 1, depth, Some(key)))
  }

  // ---------------------------------------------------------------------------
  // The flag that the decoder's specification carries says exactly this

  lemma {:induction false} FlagIsCanonical(b: seq<Byte>, depth: nat)
    requires DecodeValue(b, depth).Decoded?
    ensures DecodeValue(b, depth).canonical <==> Canonical(b, depth)
    decreases |b|, 0, 0
  {
    var additional := b[0] % 0x20;
    if b[0] / 0x20 == 4 {
      var count := ReadCount(b[1..], additional);
      ItemsFlag(count.rest, count.value, depth + 1, [], true);
    } else if b[0] / 0x20 == 5 {
      var count := ReadCount(b[1..], additional);
      EntriesFlag(count.rest, count.value, depth + 1, [], true, None);
    }
  }

  lemma {:induction false} ItemsFlag(b: seq<Byte>, count: nat, depth: nat, done: seq<Value>, canonical: bool)
    requires DecodeItems(b, count, depth, done, canonical).DecodedItems?
    ensures DecodeItems(b, count, depth, done, canonical).canonical <==> canonical && ItemsCanonical(b, count, depth)
    decreases |b|, 1, count
  {
    if count > 0 {
      var d := DecodeValue(b, depth);
      FlagIsCanonical(b, depth);
      ItemsFlag(d.rest, count - 1, depth, done + [d.value], canonical && d.canonical);
    }
  }

  /** In an ordered map the last key stands for them all. */
  predicate LastKey(done: seq<Entry>, last: Option<seq<Byte>>) {
    Sorted(done) && last == if done == [] then None else Some(done[|done| - 1].key)
  }

  lemma AllBelowIffLast(done: seq<Entry>, last: Option<seq<Byte>>, key: seq<Byte>)
    requires LastKey(done, last)
    ensures AllBelow(done, key) <==> (last.Some? ==> KeyLess(last.value, key))
  {
    if last.Some? && KeyLess(last.value, key) {
      forall e | e in done ensures KeyLess(e.key, key) {
        var i :| 0 <= i < |done| && done[i] == e;
        if i < |done| - 1 {
          KeyTransitive(e.key, last.value, key);
        }
      }
    } else if last.Some? {
      assert done[|done| - 1] in done;
    }
  }

  lemma NextLastKey(done: seq<Entry>, e: Entry)
    requires Sorted(done) && AllBelow(done, e.key)
    ensures Insert(done, e) == done + [e] && LastKey(done + [e], Some(e.key))
  {
    InsertAtEnd(done, e);
    InsertIsSorted(done, e);
  }

  lemma {:induction false} EntriesFlag(b: seq<Byte>, count: nat, depth: nat, done: seq<Entry>, canonical: bool,
                                       last: Option<seq<Byte>>)
    requires DecodeEntries(b, count, depth, done, canonical).DecodedEntries?
    requires canonical ==> LastKey(done, last)
    ensures DecodeEntries(b, count, depth, done, canonical).canonical
       <==> canonical && EntriesAscending(b, count, depth, last)
    decreases |b|, 1, count
  {
    if count > 0 {
      var d := DecodeEntry(b, depth);
      var e, value := d.entries[0], DecodeValue(b, depth).rest;
      FlagIsCanonical(value, depth);
      var still := canonical && d.canonical && AllBelow(done, e.key);
      if canonical {
        AllBelowIffLast(done, last, e.key);
      }
      if still {
        NextLastKey(done, e);
      }
      EntriesFlag(d.rest, count - 1, depth, Insert(done, e), still, Some(e.key));
    }
  }
}
