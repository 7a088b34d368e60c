/** Annex-B access units: splitting at start codes, inspection, and the phone's converter. */
module AnnexB {
  import opened Bytes

  datatype Codec = H264 | Hevc

  /** A NAL unit inside an access unit: past its start code, up to the next one. */
  datatype Nal = Nal(offset: nat, size: nat, nalType: nat)

  // ---------------------------------------------------------------------------
  // Start codes

  /** Length of the start code at index i: 3, 4, or 0 when there is none. */
  function CodeAt(data: seq<Byte>, i: nat): (length: nat)
    ensures length == 0 || 3 <= length <= 4
  {
    if i + 3 <= |data| && data[i] == 0 && data[i + 1] == 0 && data[i + 2] == 1 then 3
    else if i + 4 <= |data| && data[i] == 0 && data[i + 1] == 0 && data[i + 2] == 0
            && data[i + 3] == 1 then 4
    else 0
  }

  function NalTypeOf(codec: Codec, header: Byte): nat {
    if codec == H264 then header % 0x20 else header / 2 % 0x40
  }

  predicate CodeFree(data: seq<Byte>, from: nat, to: nat) {
    forall i | from <= i < to :: CodeAt(data, i) == 0
  }

  /**
   * What a NAL unit is (section B.1 of ITU-T H.264): non-empty, right behind 00 00 01, with no
   * start code beginning inside, and ended by a start code or the end of the data.
   */
  predicate IsNal(data: seq<Byte>, codec: Codec, n: Nal) {
    var end := n.offset + n.size;
    && n.offset >= 3 && n.size > 0 && end <= |data|
    && data[n.offset - 3] == 0 && data[n.offset - 2] == 0 && data[n.offset - 1] == 1
    && CodeFree(data, n.offset, end)
    && (end == |data| || CodeAt(data, end) > 0)
    && n.nalType == NalTypeOf(codec, data[n.offset])
  }

  // ---------------------------------------------------------------------------
  // Splitting

  /** The first index at or after i where a start code begins, or the end of the data. */
  function NextCode(data: seq<Byte>, i: nat): (r: nat)
    requires i <= |data|
    ensures i <= r <= |data|
    ensures r < |data| ==> CodeAt(data, r) > 0
    decreases |data| - i
  {
    if i == |data| || CodeAt(data, i) > 0 then i else NextCode(data, i + 1)
  }

  lemma {:induction false} NextCodeBound(data: seq<Byte>, i: nat, j: nat)
    requires i <= j < |data| && CodeAt(data, j) > 0
    ensures NextCode(data, i) <= j
    decreases j - i
  {
    if i < j {
      NextCodeBound(data, i + 1, j);
    }
  }

  lemma NextCodeSkips(data: seq<Byte>, i: nat)
    requires i <= |data|
    ensures CodeFree(data, i, NextCode(data, i))
  {
    forall j | i <= j < NextCode(data, i) ensures CodeAt(data, j) == 0 {
      if CodeAt(data, j) > 0 {
        NextCodeBound(data, i, j);
      }
    }
  }

  lemma {:induction false} NextCodeIsFirst(data: seq<Byte>, i: nat, j: nat)
    requires i <= j <= |data| && CodeFree(data, i, j)
    requires j == |data| || CodeAt(data, j) > 0
    ensures NextCode(data, i) == j
    decreases j - i
  {
    if i < j {
      NextCodeIsFirst(data, i + 1, j);
    }
  }

  /** The NAL unit between a start code's end and the next start code, unless it is empty. */
  function NalAt(data: seq<Byte>, codec: Codec, start: nat): seq<Nal>
    requires start < |data|
  {
    var next := NextCode(data, start);
    if next > start then [Nal(start, next - start, NalTypeOf(codec, data[start]))] else []
  }

  /** The NAL units from the start code at index i on. */
  function NalsFrom(data: seq<Byte>, codec: Codec, i: nat): seq<Nal>
    requires i < |data| && CodeAt(data, i) > 0
    decreases |data| - i, 0
  {
    var start := i + CodeAt(data, i);
    if start >= |data| then [] else NalAt(data, codec, start) + NalsBehind(data, codec, start)
  }

  function NalsBehind(data: seq<Byte>, codec: Codec, start: nat): seq<Nal>
    requires start < |data|
    decreases |data| - start, 1
  {
    var next := NextCode(data, start);
    if next >= |data| then [] else NalsFrom(data, codec, next)
  }

  function Nals(data: seq<Byte>, codec: Codec): seq<Nal> {
    var first := NextCode(data, 0);
    if first < |data| then NalsFrom(data, codec, first) else []
  }

  method Split(data: seq<Byte>, codec: Codec) returns (ok: bool, nals: seq<Nal>)
    ensures nals == if |data| < 4 then [] else Nals(data, codec)
    ensures ok <==> nals != []
  {
    nals := [];
    if |data| < 4 { return false, nals; }
    var index: nat := FindCode(data, 0);
    if index >= |data| { return false, nals; }
    ghost var whole := NalsFrom(data, codec, index);
    assert nals + LeftFrom(data, codec, index) == whole;
    while index < |data|
      invariant index <= |data| && (index < |data| ==> CodeAt(data, index) > 0)
      invariant whole == nals + LeftFrom(data, codec, index)
      decreases |data| - index
    {
      var nal, next := ReadNal(data, codec, index);
      Reassociate(nals, nal, LeftFrom(data, codec, next));
      nals := nals + nal;
      index := next;
    }
    assert nals + [] == nals;
    ok := nals != [];
  }

  /** What is still to be read at index i: from a start code, or nothing at the end. */
  function LeftFrom(data: seq<Byte>, codec: Codec, i: nat): seq<Nal>
    requires i < |data| ==> CodeAt(data, i) > 0
  {
    if i < |data| then NalsFrom(data, codec, i) else []
  }

  /** The NAL unit behind this start code, if there is one, and where the next start code is. */
  method ReadNal(data: seq<Byte>, codec: Codec, index: nat) returns (nal: seq<Nal>, next: nat)
    requires index < |data| && CodeAt(data, index) > 0
    ensures index < next <= |data| && (next < |data| ==> CodeAt(data, next) > 0)
    ensures NalsFrom(data, codec, index) == nal + LeftFrom(data, codec, next)
  {
    var start := index + CodeAt(data, index);
    if start >= |data| { return [], |data|; }
    next := FindCode(data, start);
    nal := if next > start then [Nal(start, next - start, NalTypeOf(codec, data[start]))] else [];
  }

  method FindCode(data: seq<Byte>, from: nat) returns (i: nat)
    requires from <= |data|
    ensures i == NextCode(data, from)
  {
    i := from;
    while i < |data| && CodeAt(data, i) == 0
      invariant from <= i <= |data| && CodeFree(data, from, i)
    {
      i := i + 1;
    }
    NextCodeIsFirst(data, from, i);
  }

  lemma NalAtExact(data: seq<Byte>, codec: Codec, i: nat, n: Nal)
    requires i < |data| && CodeAt(data, i) > 0 && i + CodeAt(data, i) < |data|
    ensures var start := i + CodeAt(data, i);
            n in NalAt(data, codec, start) <==> IsNal(data, codec, n) && n.offset == start
  {
    var start := i + CodeAt(data, i);
    NextCodeSkips(data, start);
    if IsNal(data, codec, n) && n.offset == start {
      NextCodeIsFirst(data, start, n.offset + n.size);
    }
  }

  /** Splitting finds the NAL units of the data, all of them and nothing else. */
  lemma {:induction false} NalsFromExact(data: seq<Byte>, codec: Codec, i: nat, n: Nal)
    requires i < |data| && CodeAt(data, i) > 0
    ensures n in NalsFrom(data, codec, i)
        <==> IsNal(data, codec, n) && n.offset >= i + CodeAt(data, i)
    decreases |data| - i
  {
    var start := i + CodeAt(data, i);
    if start < |data| {
      var next := NextCode(data, start);
      NalAtExact(data, codec, i, n);
      if IsNal(data, codec, n) && n.offset > start {
        SecondNal(data, codec, start, next, n);
      }
      if next < |data| {
        NalsFromExact(data, codec, next, n);
      }
    }
  }

  /** A NAL behind the first one starts behind the next start code. */
  lemma SecondNal(data: seq<Byte>, codec: Codec, start: nat, next: nat, n: Nal)
    requires start <= next <= |data| && next == NextCode(data, start)
    requires start >= 3 && data[start - 1] == 1
    requires IsNal(data, codec, n) && n.offset > start
    ensures next < |data| && n.offset >= next + CodeAt(data, next)
  {
    var c: nat := n.offset - 3;
    assert CodeAt(data, c) == 3;
    assert c >= start;
    NextCodeBound(data, start, c);
  }

  lemma FirstCode(data: seq<Byte>, codec: Codec, n: Nal)
    requires IsNal(data, codec, n)
    ensures var first := NextCode(data, 0);
            first < |data| && n.offset >= first + CodeAt(data, first)
  {
    var first := NextCode(data, 0);
    var c: nat := n.offset - 3;
    assert CodeAt(data, c) == 3;
    NextCodeBound(data, 0, c);
  }

  lemma SplitIsExact(data: seq<Byte>, codec: Codec, n: Nal)
    ensures n in Nals(data, codec) <==> IsNal(data, codec, n)
  {
    var first := NextCode(data, 0);
    if IsNal(data, codec, n) {
      FirstCode(data, codec, n);
    }
    if first < |data| {
      NalsFromExact(data, codec, first, n);
    }
  }

  /** NALs come in order and do not overlap; a start code separates neighbours. */
  predicate Ordered(nals: seq<Nal>) {
    forall j, k | 0 <= j < k < |nals| :: nals[j].offset + nals[j].size + 3 <= nals[k].offset
  }

  /** A NAL at `start` that ends at `next`, or none when they are the same, before others in order. */
  lemma PrependOrdered(first: seq<Nal>, rest: seq<Nal>, start: nat, next: nat)
    requires start <= next && Ordered(rest) && forall n | n in rest :: n.offset >= next + 3
    requires first == [] || (|first| == 1 && first[0].offset == start && first[0].offset + first[0].size == next)
    ensures Ordered(first + rest) && forall n | n in first + rest :: n.offset >= start
  {
    assert forall k | 0 <= k < |rest| :: rest[k] in rest;
  }

  lemma {:induction false} NalsFromOrdered(data: seq<Byte>, codec: Codec, i: nat)
    requires i < |data| && CodeAt(data, i) > 0
    ensures Ordered(NalsFrom(data, codec, i))
    ensures forall n | n in NalsFrom(data, codec, i) :: n.offset >= i + CodeAt(data, i)
    decreases |data| - i
  {
    var start := i + CodeAt(data, i);
    if start < |data| {
      var next := NextCode(data, start);
      if next < |data| {
        NalsFromOrdered(data, codec, next);
      }
      PrependOrdered(NalAt(data, codec, start), NalsBehind(data, codec, start), start, next);
    }
  }

  lemma SplitIsOrdered(data: seq<Byte>, codec: Codec)
    ensures Ordered(Nals(data, codec))
  {
    var first := NextCode(data, 0);
    if first < |data| {
      NalsFromOrdered(data, codec, first);
    }
  }

  // ---------------------------------------------------------------------------
  // The phone's converter

  const START_CODE: seq<Byte> := [0, 0, 0, 1]

  function AnnexBOf(units: seq<seq<Byte>>): seq<Byte> {
    if units == [] then [] else START_CODE + units[0] + AnnexBOf(units[1..])
  }

  /** Length-prefixed units, as the encoder hands them over. */
  function LengthPrefixed(units: seq<seq<Byte>>): seq<Byte> {
    if units == [] then []
    else BigEndian(|units[0]|, 4) + units[0] + LengthPrefixed(units[1..])
  }

  /** The units of a length-prefixed buffer up to the first empty or truncated one. */
  function PrefixedUnits(block: seq<Byte>): seq<seq<Byte>> {
    if |block| < 4 then []
    else
      var length := FromBigEndian(block[..4]);
      if length == 0 || 4 + length > |block| then []
      else [block[4..4 + length]] + PrefixedUnits(block[4 + length..])
  }

  /** How far the converter has got: `r` holds the units in front of the offset. */
  predicate Converted(result: seq<Byte>, block: seq<Byte>, r: seq<Byte>, offset: nat) {
    && offset <= |block|
    && result + AnnexBOf(PrefixedUnits(block)) == r + AnnexBOf(PrefixedUnits(block[offset..]))
  }

  method AppendConverted(result: seq<Byte>, block: seq<Byte>) returns (r: seq<Byte>)
    ensures r == result + AnnexBOf(PrefixedUnits(block))
  {
    r := result;
    var offset := 0;
    assert block[0..] == block;
    while offset + 4 <= |block|
      invariant Converted(result, block, r, offset)
      decreases |block| - offset
    {
      var length := ReadBigEndian(block[offset..offset + 4]);
      if length == 0 || offset + 4 + length > |block| {
        NothingToConvert(result, block, r, offset);
        return;
      }
      ConvertOne(result, block, r, offset, length);
      offset := offset + 4;
      r := r + START_CODE;
      r := r + block[offset..offset + length];
      offset := offset + length;
    }
    NothingToConvert(result, block, r, offset);
  }

  lemma ConvertOne(result: seq<Byte>, block: seq<Byte>, r: seq<Byte>, offset: nat, length: nat)
    requires Converted(result, block, r, offset) && offset + 4 + length <= |block|
    requires 0 < length == FromBigEndian(block[offset..offset + 4])
    ensures Converted(result, block, (r + START_CODE) + block[offset + 4..offset + 4 + length], offset + 4 + length)
  {
    UnfoldUnits(block, offset, length);
    AnnexBOfCons(r, block[offset + 4..offset + 4 + length], PrefixedUnits(block[offset + 4 + length..]));
  }

  lemma NothingToConvert(result: seq<Byte>, block: seq<Byte>, r: seq<Byte>, offset: nat)
    requires Converted(result, block, r, offset)
    requires offset + 4 <= |block| ==>
               var length := FromBigEndian(block[offset..offset + 4]);
               length == 0 || offset + 4 + length > |block|
    ensures r == result + AnnexBOf(PrefixedUnits(block))
  {
    if offset + 4 <= |block| {
      UnfoldUnits(block, offset, FromBigEndian(block[offset..offset + 4]));
    }
    assert PrefixedUnits(block[offset..]) == [];
    assert r + [] == r;
  }

  lemma UnfoldUnits(block: seq<Byte>, offset: nat, length: nat)
    requires offset + 4 <= |block| && length == FromBigEndian(block[offset..offset + 4])
    ensures PrefixedUnits(block[offset..])
         == if length == 0 || offset + 4 + length > |block| then []
            else [block[offset + 4..offset + 4 + length]]
                 + PrefixedUnits(block[offset + 4 + length..])
  {
    var rest := block[offset..];
    assert rest[..4] == block[offset..offset + 4];
    if length != 0 && offset + 4 + length <= |block| {
      assert rest[4..4 + length] == block[offset + 4..offset + 4 + length];
      assert rest[4 + length..] == block[offset + 4 + length..];
    }
  }

  lemma AnnexBOfCons(r: seq<Byte>, unit: seq<Byte>, more: seq<seq<Byte>>)
    ensures r + AnnexBOf([unit] + more) == ((r + START_CODE) + unit) + AnnexBOf(more)
  {
    assert ([unit] + more)[1..] == more;
  }

  lemma {:induction false} PrefixedUnitsOf(units: seq<seq<Byte>>)
    requires forall u | u in units :: 0 < |u| < Limit(4)
    ensures PrefixedUnits(LengthPrefixed(units)) == units
  {
    if units != [] {
      var u, more := units[0], LengthPrefixed(units[1..]);
      var b := LengthPrefixed(units);
      assert u in units;
      BigEndianRoundTrip(|u|, 4);
      assert b[..4] == BigEndian(|u|, 4);
      assert b[4..4 + |u|] == u && b[4 + |u|..] == more;
      PrefixedUnitsOf(units[1..]);
    }
  }

  /** Do these NAL units hold exactly these byte strings, in order? */
  predicate Carry(data: seq<Byte>, nals: seq<Nal>, units: seq<seq<Byte>>) {
    |nals| == |units| && forall k | 0 <= k < |nals| :: Carries(data, nals[k], units[k])
  }

  predicate Carries(data: seq<Byte>, n: Nal, unit: seq<Byte>) {
    n.offset + n.size <= |data| && data[n.offset..n.offset + n.size] == unit
  }

  /** Emulation prevention keeps 00 00 01 out of every unit an encoder produces. */
  predicate Escaped(unit: seq<Byte>) {
    unit != [] && forall k: nat | k + 3 <= |unit| :: !(unit[k] == 0 && unit[k + 1] == 0 && unit[k + 2] == 1)
  }

  lemma PartAt(data: seq<Byte>, start: nat, part: seq<Byte>, j: nat)
    requires start + |part| <= |data| && data[start..start + |part|] == part && j < |part|
    ensures data[start + j] == part[j]
  {
    assert data[start..start + |part|][j] == data[start + j];
  }

  lemma StartCodeAt(data: seq<Byte>, i: nat)
    requires i + 4 <= |data| && data[i..i + 4] == START_CODE
    ensures data[i] == data[i + 1] == data[i + 2] == 0
  {
    PartAt(data, i, START_CODE, 0);
    PartAt(data, i, START_CODE, 1);
    PartAt(data, i, START_CODE, 2);
  }

  lemma NoCodeInUnit(data: seq<Byte>, start: nat, unit: seq<Byte>, k: nat)
    requires Escaped(unit) && start + |unit| <= |data| && k < |unit|
    requires forall j: nat | j < |unit| :: data[start + j] == unit[j]
    requires start + |unit| == |data|
          || (start + |unit| + 4 <= |data|
              && data[start + |unit|] == data[start + |unit| + 1] == data[start + |unit| + 2] == 0)
    ensures CodeAt(data, start + k) == 0
  {
    var i := start + k;
    assert data[i] == unit[k];
    if k + 3 <= |unit| {
      assert data[start + (k + 1)] == unit[k + 1] && data[start + (k + 2)] == unit[k + 2];
      assert !(unit[k] == 0 && unit[k + 1] == 0 && unit[k + 2] == 1);
      if k + 4 <= |unit| {
        assert data[start + (k + 3)] == unit[k + 3];
        assert !(unit[k + 1] == 0 && unit[k + 1 + 1] == 0 && unit[k + 1 + 2] == 1);
      }
    }
  }

  /** A unit followed by nothing or by a four-byte start code is code-free to its end. */
  lemma UnitIsCodeFree(data: seq<Byte>, start: nat, unit: seq<Byte>)
    requires Escaped(unit) && start + |unit| <= |data|
    requires data[start..start + |unit|] == unit
    requires start + |unit| == |data|
          || (start + |unit| + 4 <= |data|
              && data[start + |unit|..start + |unit| + 4] == START_CODE)
    ensures CodeFree(data, start, start + |unit|)
  {
    var end := start + |unit|;
    forall j: nat | j < |unit| ensures data[start + j] == unit[j] {
      PartAt(data, start, unit, j);
    }
    if end < |data| {
      StartCodeAt(data, end);
    }
    forall i | start <= i < end ensures CodeAt(data, i) == 0 {
      NoCodeInUnit(data, start, unit, i - start);
    }
  }

  /** Index i carries a four-byte start code and then this unit, up to `end`. */
  predicate UnitAt(data: seq<Byte>, i: nat, u: seq<Byte>, end: nat) {
    && end == i + 4 + |u| <= |data| && u != []
    && CodeAt(data, i) == 4 && data[i + 4..end] == u && NextCode(data, i + 4) == end
  }

  lemma FirstUnit(data: seq<Byte>, i: nat, units: seq<seq<Byte>>) returns (end: nat)
    requires units != [] && Escaped(units[0])
    requires i <= |data| && data[i..] == AnnexBOf(units)
    ensures UnitAt(data, i, units[0], end)
    ensures end <= |data| && data[end..] == AnnexBOf(units[1..])
    ensures end < |data| <==> units[1..] != []
  {
    var u, more := units[0], AnnexBOf(units[1..]);
    end := i + 4 + |u|;
    UnitsApart(data, i, u, more);
    if units[1..] != [] {
      UnitsApart(data, end, units[1], AnnexBOf(units[1..][1..]));
    }
    UnitIsCodeFree(data, i + 4, u);
    NextCodeIsFirst(data, i + 4, end);
  }

  /** A start code, a unit and the rest, found in the data byte by byte. */
  lemma UnitsApart(data: seq<Byte>, i: nat, u: seq<Byte>, more: seq<Byte>)
    requires i <= |data| && data[i..] == START_CODE + u + more
    ensures i + 4 + |u| + |more| == |data| && data[i..i + 4] == START_CODE
    ensures data[i + 4..i + 4 + |u|] == u && data[i + 4 + |u|..] == more
    ensures CodeAt(data, i) == 4
  {
    var all := START_CODE + u + more;
    assert |all| == 4 + |u| + |more| == |data| - i;
    forall k | 0 <= k < |all| ensures data[i + k] == all[k] {
      assert data[i + k] == data[i..][k];
    }
    assert data[i] == all[0] && data[i + 1] == all[1] && data[i + 2] == all[2] && data[i + 3] == all[3];
    forall k | 0 <= k < |u| ensures data[i + 4 + k] == u[k] {
      assert data[i + (4 + k)] == all[4 + k];
    }
    forall k | 0 <= k < |more| ensures data[i + 4 + |u| + k] == more[k] {
      assert data[i + (4 + |u| + k)] == all[4 + |u| + k];
    }
  }

  lemma HeadNal(data: seq<Byte>, codec: Codec, i: nat, u: seq<Byte>, end: nat)
    requires UnitAt(data, i, u, end)
    ensures NalsFrom(data, codec, i)
         == [Nal(i + 4, |u|, NalTypeOf(codec, data[i + 4]))] + NalsBehind(data, codec, i + 4)
    ensures end == |data| ==> NalsBehind(data, codec, i + 4) == []
    ensures end < |data| ==>
              CodeAt(data, end) > 0 && NalsBehind(data, codec, i + 4) == NalsFrom(data, codec, end)
  {
    var start := i + 4;
    assert CodeAt(data, i) == 4 && NextCode(data, start) == end == start + |u|;
    assert NalAt(data, codec, start) == [Nal(start, |u|, NalTypeOf(codec, data[start]))];
  }

  lemma CarryCons(data: seq<Byte>, n: Nal, u: seq<Byte>, nals: seq<Nal>, units: seq<seq<Byte>>)
    requires Carries(data, n, u) && Carry(data, nals, units)
    ensures Carry(data, [n] + nals, [u] + units)
  {
  }

  lemma LastUnit(data: seq<Byte>, codec: Codec, i: nat, u: seq<Byte>)
    requires UnitAt(data, i, u, |data|)
    ensures Carry(data, NalsFrom(data, codec, i), [u])
  {
    HeadNal(data, codec, i, u, |data|);
  }

  lemma OneMoreUnit(data: seq<Byte>, codec: Codec, i: nat, u: seq<Byte>, end: nat,
                    more: seq<seq<Byte>>)
    requires UnitAt(data, i, u, end) && end < |data| && CodeAt(data, end) > 0
    requires Carry(data, NalsFrom(data, codec, end), more)
    ensures Carry(data, NalsFrom(data, codec, i), [u] + more)
  {
    HeadNal(data, codec, i, u, end);
    var head := Nal(i + 4, |u|, NalTypeOf(codec, data[i + 4]));
    CarryCons(data, head, u, NalsFrom(data, codec, end), more);
  }

  lemma {:induction false} NalsOfUnits(data: seq<Byte>, codec: Codec, i: nat, units: seq<seq<Byte>>)
    requires units != [] && forall u | u in units :: Escaped(u)
    requires i <= |data| && data[i..] == AnnexBOf(units)
    ensures i < |data| && CodeAt(data, i) == 4
    ensures Carry(data, NalsFrom(data, codec, i), units)
    decreases |units|
  {
    var u, more := units[0], units[1..];
    assert u in units;
    var end := FirstUnit(data, i, units);
    assert units == [u] + more;
    if more == [] {
      LastUnit(data, codec, i, u);
    } else {
      NalsOfUnits(data, codec, end, more);
      OneMoreUnit(data, codec, i, u, end, more);
    }
  }

  /** The receiver gets back exactly the units the phone's encoder produced. */
  lemma SplitInvertsConverter(units: seq<seq<Byte>>, codec: Codec)
    requires units != [] && forall u | u in units :: Escaped(u) && |u| < Limit(4)
    ensures var data := AnnexBOf(PrefixedUnits(LengthPrefixed(units)));
            |data| >= 4 && Carry(data, Nals(data, codec), units)
  {
    PrefixedUnitsOf(units);
    var data := AnnexBOf(units);
    assert data[0..] == data;
    NalsOfUnits(data, codec, 0, units);
  }

  // ---------------------------------------------------------------------------
  // Inspection

  const H264_SPS := 7
  const H264_PPS := 8
  const H264_IDR_SLICE := 5
  const HEVC_VPS := 32
  const HEVC_SPS := 33
  const HEVC_PPS := 34
  const HEVC_BLA_W_LP := 16
  const HEVC_CRA_NUT := 21

  predicate IsVideoSlice(codec: Codec, nalType: nat) {
    if codec == H264 then 1 <= nalType <= 5 else nalType <= 31
  }

  predicate IsKeyframeSlice(codec: Codec, nalType: nat) {
    if codec == H264 then nalType == H264_IDR_SLICE
    else HEVC_BLA_W_LP <= nalType <= HEVC_CRA_NUT
  }

  /** The parameter sets a decoder must have seen before it can start. */
  function ParameterSets(codec: Codec): set<nat> {
    if codec == H264 then {H264_SPS, H264_PPS} else {HEVC_VPS, HEVC_SPS, HEVC_PPS}
  }

  function Types(nals: seq<Nal>): set<nat> {
    set n | n in nals :: n.nalType
  }

  datatype Report = Report(
    isAnnexB: bool,
    nalCount: nat,
    hasParameterSets: bool,
    hasVideoSlice: bool,
    hasKeyframeSlice: bool,
    isSelfContainedKeyframe: bool,
    decodableFromHere: bool)

  /** The first keyframe slice is here, and every parameter set precedes it. */
  ghost predicate StartsAt(nals: seq<Nal>, codec: Codec, k: nat) {
    && k < |nals| && IsKeyframeSlice(codec, nals[k].nalType)
    && (forall j | 0 <= j < k :: !IsKeyframeSlice(codec, nals[j].nalType))
    && ParameterSets(codec) <= Types(nals[..k])
  }

  /** A decoder can start here. */
  ghost predicate SelfContained(nals: seq<Nal>, codec: Codec) {
    exists k :: StartsAt(nals, codec, k)
  }

  method Inspect(data: seq<Byte>, codec: Codec) returns (report: Report)
    ensures report.isAnnexB <==> |data| >= 4 && exists n :: IsNal(data, codec, n)
    ensures report.isAnnexB ==>
              && report.nalCount == |Nals(data, codec)|
              && (report.hasVideoSlice <==>
                    exists n :: IsNal(data, codec, n) && IsVideoSlice(codec, n.nalType))
              && (report.hasKeyframeSlice <==>
                    exists n :: IsNal(data, codec, n) && IsKeyframeSlice(codec, n.nalType))
              && (report.hasParameterSets <==> ParameterSets(codec) <= Types(Nals(data, codec)))
              && (report.isSelfContainedKeyframe <==> SelfContained(Nals(data, codec), codec))
              && (report.decodableFromHere <==>
                    (report.hasKeyframeSlice ==> report.isSelfContainedKeyframe))
    ensures !report.isAnnexB ==> report == Report(false, 0, false, false, false, false, false)
  {
    var ok, nals := Split(data, codec);
    MembersAreNals(data, codec);
    if !ok {
      assert |data| >= 4 ==> Nals(data, codec) == [];
      return Report(false, 0, false, false, false, false, false);
    }
    assert nals[0] in Nals(data, codec);
    report := Report(true, |nals|, false, false, false, false, false);
    var summary := Summarise(nals, codec);
    report := summary;
  }

  lemma MembersAreNals(data: seq<Byte>, codec: Codec)
    ensures forall n :: n in Nals(data, codec) <==> IsNal(data, codec, n)
  {
    forall n ensures n in Nals(data, codec) <==> IsNal(data, codec, n) {
      SplitIsExact(data, codec, n);
    }
  }

  /** Which parameter sets are among the types seen so far? */
  predicate SetsSeen(codec: Codec, types: set<nat>, vps: bool, sps: bool, pps: bool) {
    if codec == H264 then (sps <==> H264_SPS in types) && (pps <==> H264_PPS in types)
    else (vps <==> HEVC_VPS in types) && (sps <==> HEVC_SPS in types) && (pps <==> HEVC_PPS in types)
  }

  /** The first keyframe slice, and whether every parameter set comes before it. */
  predicate FirstKeyframeAt(nals: seq<Nal>, codec: Codec, first: nat, before: bool) {
    && first < |nals| && IsKeyframeSlice(codec, nals[first].nalType)
    && (forall j | 0 <= j < first :: !IsKeyframeSlice(codec, nals[j].nalType))
    && (before <==> ParameterSets(codec) <= Types(nals[..first]))
  }

  method Summarise(nals: seq<Nal>, codec: Codec) returns (report: Report)
    ensures report.isAnnexB && report.nalCount == |nals|
    ensures report.hasVideoSlice <==> exists n :: n in nals && IsVideoSlice(codec, n.nalType)
    ensures report.hasKeyframeSlice <==> exists n :: n in nals && IsKeyframeSlice(codec, n.nalType)
    ensures report.hasParameterSets <==> ParameterSets(codec) <= Types(nals)
    ensures report.isSelfContainedKeyframe <==> SelfContained(nals, codec)
    ensures report.decodableFromHere <==>
              (report.hasKeyframeSlice ==> report.isSelfContainedKeyframe)
  {
    var sps, pps, vps := false, false, false;
    var video, keyframe, before := false, false, false;
    ghost var first := 0;
    for i := 0 to |nals|
      invariant video <==> exists n :: n in nals[..i] && IsVideoSlice(codec, n.nalType)
      invariant keyframe <==> exists n :: n in nals[..i] && IsKeyframeSlice(codec, n.nalType)
      invariant SetsSeen(codec, Types(nals[..i]), vps, sps, pps)
      invariant !keyframe ==> forall j | 0 <= j < i :: !IsKeyframeSlice(codec, nals[j].nalType)
      invariant keyframe ==> first < i && FirstKeyframeAt(nals, codec, first, before)
      invariant !keyframe ==> !before
    {
      var nal := nals[i];
      assert nals[..i + 1] == nals[..i] + [nal];
      assert Types(nals[..i + 1]) == Types(nals[..i]) + {nal.nalType};
      if IsKeyframeSlice(codec, nal.nalType) && !keyframe {
        before := if codec == H264 then sps && pps else vps && sps && pps;
        first := i;
      }
      if IsVideoSlice(codec, nal.nalType) { video := true; }
      if codec == H264 {
        if nal.nalType == H264_SPS { sps := true; }
        if nal.nalType == H264_PPS { pps := true; }
      } else {
        if nal.nalType == HEVC_VPS { vps := true; }
        if nal.nalType == HEVC_SPS { sps := true; }
        if nal.nalType == HEVC_PPS { pps := true; }
      }
      if IsKeyframeSlice(codec, nal.nalType) { keyframe := true; }
    }
    assert nals[..|nals|] == nals;
    var sets := if codec == H264 then sps && pps else vps && sps && pps;
    report := Report(true, |nals|, sets, video, keyframe, keyframe && before,
                     !keyframe || (keyframe && before));
    assert keyframe && before ==> StartsAt(nals, codec, first);
  }

  // ---------------------------------------------------------------------------
  // Units whose headers have been written

  /**
   * The first byte of a unit's header: a forbidden bit, then in H.264 two bits of importance and five
   * of the type (section 7.3.1 of ITU-T H.264), in HEVC six bits of the type and one of the layer
   * (section 7.3.1.2 of ITU-T H.265).
   */
  function HeaderByte(codec: Codec, forbidden: nat, other: nat, nalType: nat): Byte
    requires forbidden < 2
    requires if codec == H264 then other < 4 && nalType < 0x20 else other < 2 && nalType < 0x40
  {
    if codec == H264 then forbidden * 0x80 + other * 0x20 + nalType else forbidden * 0x80 + nalType * 2 + other
  }

  /** The type read from a header is the type written into it, whatever else the header says. */
  lemma TypeIsRead(codec: Codec, forbidden: nat, other: nat, nalType: nat)
    requires forbidden < 2
    requires if codec == H264 then other < 4 && nalType < 0x20 else other < 2 && nalType < 0x40
    ensures NalTypeOf(codec, HeaderByte(codec, forbidden, other, nalType)) == nalType
  {
    if codec == Hevc {
      assert (forbidden * 0x80 + nalType * 2 + other) / 2 == forbidden * 0x40 + nalType;
    }
  }

  /** A unit as an encoder delivers it: escaped, short enough for its prefix, its header of this type. */
  ghost predicate Written(unit: seq<Byte>, codec: Codec, nalType: nat) {
    && Escaped(unit) && |unit| < Limit(4)
    && exists forbidden, other :: IsHeader(unit[0], codec, forbidden, other, nalType)
  }

  predicate IsHeader(b: Byte, codec: Codec, forbidden: nat, other: nat, nalType: nat) {
    && forbidden < 2
    && (if codec == H264 then other < 4 && nalType < 0x20 else other < 2 && nalType < 0x40)
    && b == HeaderByte(codec, forbidden, other, nalType)
  }

  ghost predicate AllWritten(units: seq<seq<Byte>>, codec: Codec, types: seq<nat>) {
    |types| == |units| && forall j | 0 <= j < |units| :: Written(units[j], codec, types[j])
  }

  lemma WrittenIsRead(unit: seq<Byte>, codec: Codec, nalType: nat)
    requires Written(unit, codec, nalType)
    ensures NalTypeOf(codec, unit[0]) == nalType
  {
    var forbidden, other :| IsHeader(unit[0], codec, forbidden, other, nalType);
    TypeIsRead(codec, forbidden, other, nalType);
  }

  /** The receiver reads the units the encoder wrote, each with the type it was written with. */
  lemma TypesSurvive(units: seq<seq<Byte>>, codec: Codec, types: seq<nat>)
    requires units != [] && AllWritten(units, codec, types)
    ensures var nals := Nals(AnnexBOf(units), codec);
            && Carry(AnnexBOf(units), nals, units) && |nals| == |types|
            && forall j | 0 <= j < |nals| :: nals[j].nalType == types[j]
  {
    SplitInvertsConverter(units, codec);
    PrefixedUnitsOf(units);
    var data := AnnexBOf(units);
    var nals := Nals(data, codec);
    forall j | 0 <= j < |nals| ensures nals[j].nalType == types[j] {
      SplitIsExact(data, codec, nals[j]);
      assert Carries(data, nals[j], units[j]);
      WrittenIsRead(units[j], codec, types[j]);
    }
  }

  lemma TypesUpTo(nals: seq<Nal>, types: seq<nat>, k: nat, t: nat)
    requires |nals| == |types| && k <= |nals| && forall j | 0 <= j < |nals| :: nals[j].nalType == types[j]
    ensures t in Types(nals[..k]) <==> t in types[..k]
  {
    if t in types[..k] {
      var j :| 0 <= j < k && types[j] == t;
      assert nals[..k][j] == nals[j];
    }
  }

  // ---- By the numbers of Table 7-1 of the two standards

  /** An IDR slice of H.264, a slice of any random access point of HEVC. */
  predicate KeyNumber(codec: Codec, t: nat) {
    if codec == H264 then t == 5 else 16 <= t <= 21
  }

  predicate VideoNumber(codec: Codec, t: nat) {
    if codec == H264 then 1 <= t <= 5 else t < 32
  }

  /** The first keyframe slice. */
  predicate BeginsAt(codec: Codec, types: seq<nat>, k: nat) {
    k < |types| && KeyNumber(codec, types[k]) && forall j | 0 <= j < k :: !KeyNumber(codec, types[j])
  }

  /** Sequence and picture parameter sets of H.264; those and the video parameter set of HEVC. */
  predicate SetsBefore(codec: Codec, types: seq<nat>, k: nat) {
    && k <= |types|
    && (if codec == H264 then 7 in types[..k] && 8 in types[..k]
        else 32 in types[..k] && 33 in types[..k] && 34 in types[..k])
  }

  lemma SetsAsRead(nals: seq<Nal>, codec: Codec, types: seq<nat>, k: nat)
    requires |nals| == |types| && forall j | 0 <= j < |nals| :: nals[j].nalType == types[j]
    requires k <= |nals|
    ensures SetsBefore(codec, types, k) <==> ParameterSets(codec) <= Types(nals[..k])
  {
    forall t ensures t in Types(nals[..k]) <==> t in types[..k] {
      TypesUpTo(nals, types, k, t);
    }
  }

  lemma StartsAsWritten(nals: seq<Nal>, codec: Codec, types: seq<nat>, k: nat)
    requires |nals| == |types| && forall j | 0 <= j < |nals| :: nals[j].nalType == types[j]
    ensures StartsAt(nals, codec, k) <==> BeginsAt(codec, types, k) && SetsBefore(codec, types, k)
  {
    if k <= |nals| {
      SetsAsRead(nals, codec, types, k);
    }
  }

  /**
   * The PC takes an access unit for one that a decoder can start from exactly when, by the types
   * written into its units, every parameter set comes before the first unit of a keyframe.
   */
  lemma SelfContainedIff(units: seq<seq<Byte>>, codec: Codec, types: seq<nat>)
    requires units != [] && AllWritten(units, codec, types)
    ensures SelfContained(Nals(AnnexBOf(units), codec), codec)
       <==> exists k :: BeginsAt(codec, types, k) && SetsBefore(codec, types, k)
  {
    TypesSurvive(units, codec, types);
    var nals := Nals(AnnexBOf(units), codec);
    if SelfContained(nals, codec) {
      var k :| StartsAt(nals, codec, k);
      StartsAsWritten(nals, codec, types, k);
    }
    if k :| BeginsAt(codec, types, k) && SetsBefore(codec, types, k) {
      StartsAsWritten(nals, codec, types, k);
    }
  }

  /** It sees video, and a keyframe, exactly where a slice of that kind was written. */
  lemma SlicesIff(units: seq<seq<Byte>>, codec: Codec, types: seq<nat>)
    requires units != [] && AllWritten(units, codec, types)
    ensures (exists n :: n in Nals(AnnexBOf(units), codec) && IsVideoSlice(codec, n.nalType))
       <==> exists t :: t in types && VideoNumber(codec, t)
    ensures (exists n :: n in Nals(AnnexBOf(units), codec) && IsKeyframeSlice(codec, n.nalType))
       <==> exists t :: t in types && KeyNumber(codec, t)
  {
    TypesSurvive(units, codec, types);
    var nals := Nals(AnnexBOf(units), codec);
    forall n | n in nals ensures n.nalType in types {
      var j :| 0 <= j < |nals| && nals[j] == n;
      assert types[j] == n.nalType;
    }
    forall t | t in types ensures exists n :: n in nals && n.nalType == t {
      var j :| 0 <= j < |types| && types[j] == t;
      assert nals[j] in nals;
    }
  }

  lemma WrittenTogether(a: seq<seq<Byte>>, b: seq<seq<Byte>>, codec: Codec, s: seq<nat>, t: seq<nat>)
    requires AllWritten(a, codec, s) && AllWritten(b, codec, t)
    ensures AllWritten(a + b, codec, s + t)
  {
  }

  /** A keyframe as the phone builds it, parameter sets in front, passes the receiver's inspection. */
  lemma PhoneKeyframeIsSelfContained(sets: seq<seq<Byte>>, setTypes: seq<nat>, slices: seq<seq<Byte>>,
                                     sliceTypes: seq<nat>, codec: Codec)
    requires AllWritten(sets, codec, setTypes) && AllWritten(slices, codec, sliceTypes) && slices != []
    requires SetsBefore(codec, setTypes, |setTypes|) && KeyNumber(codec, sliceTypes[0])
    requires forall t | t in setTypes :: !KeyNumber(codec, t)
    ensures SelfContained(Nals(AnnexBOf(sets + slices), codec), codec)
  {
    WrittenTogether(sets, slices, codec, setTypes, sliceTypes);
    var types, k := setTypes + sliceTypes, |setTypes|;
    assert types[..k] == setTypes[..k];
    assert BeginsAt(codec, types, k) && SetsBefore(codec, types, k);
    SelfContainedIff(sets + slices, codec, types);
  }
}
