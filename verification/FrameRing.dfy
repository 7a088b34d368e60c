/**
 * The calls of a FrameRing as the program has them: loads and stores in order, in loops. Here each
 * runs alone; the stores are those that the state machine interleaves.
 */
module FrameRing {
  import opened Bytes
  import opened Ring
  import opened RingInvariant

  /** Memory after the first k stores of a job. */
  function RunTo(m: Memory, job: Job, k: nat): (r: Memory)
    requires WellFormed(m) && Proper(job) && k <= Length(job)
    ensures WellFormed(r)
  {
    if k == 0 then m
    else
      var before, st := RunTo(m, job, k - 1), StoreAt(job, k - 1);
      StaysWellFormed(before, st);
      Perform(before, st)
  }

  lemma StaysWellFormed(m: Memory, st: Store)
    requires WellFormed(m) && InRange(st)
    ensures WellFormed(Perform(m, st))
  {
  }

  function Run(m: Memory, job: Job): (r: Memory)
    requires WellFormed(m) && Proper(job)
    ensures WellFormed(r)
  {
    RunTo(m, job, Length(job))
  }

  predicate MayWrite(m: Memory, generation: nat) {
    m.magic && m.consumerCount != 0 && m.consumerGeneration == generation
  }

  function MarkOf(m: Memory, f: Frame): Job
    requires WellFormed(m)
  {
    Mark(f, m.writeSeq, WritingSequence(m.slots[m.writeSeq % SLOTS].sequence))
  }

  function CommitOf(m: Memory, f: Frame): Job
    requires WellFormed(m)
  {
    Commit(f, m.writeSeq, WritingSequence(m.slots[m.writeSeq % SLOTS].sequence))
  }

  /** What an uninterrupted writeFrame does to the section. */
  function Published(m: Memory, f: Frame): (r: Memory)
    requires WellFormed(m) && Writable(f)
    ensures WellFormed(r)
  {
    Run(Run(m, MarkOf(m, f)), CommitOf(m, f))
  }

  /** What an uninterrupted readLatest returns. */
  function Latest(m: Memory, capacity: nat): ReadResult
    requires WellFormed(m)
  {
    if m.writeSeq == 0 then Nothing
    else
      var slot := m.slots[(m.writeSeq - 1) % SLOTS];
      if slot.sequence % 2 == 1 || slot.bytes == 0 || slot.bytes > SLOT_BYTES then Nothing
      else if slot.bytes > capacity then TooSmall
      else if !GeometryIsSane(InfoOf(m)) then Nothing
      else Got(InfoOf(m), slot.pixels[..slot.bytes])
  }

  function InfoOf(m: Memory): Info
    requires WellFormed(m) && m.writeSeq > 0
  {
    var slot := m.slots[(m.writeSeq - 1) % SLOTS];
    Info(slot.width, slot.height, slot.stride, m.format, slot.pts, m.writeSeq, slot.bytes)
  }

  /** The mapped section and the handle's own view of the generation. */
  class FrameRing {
    var section: Memory
    var consumerGeneration: nat

    constructor (m: Memory, generation: nat)
      requires WellFormed(m)
      ensures section == m && consumerGeneration == generation
    {
      section, consumerGeneration := m, generation;
    }

    /** One store: the k-th of the job under way. */
    method Store(st: Store, ghost m: Memory, ghost job: Job, ghost k: nat)
      requires WellFormed(m) && Proper(job) && k < Length(job)
      requires section == RunTo(m, job, k) && st == StoreAt(job, k)
      modifies this`section
      ensures section == RunTo(m, job, k + 1)
    {
      section := Perform(section, st);
    }

    /** writeFrame up to its second check: the slot is odd from the first store to the last. */
    method MarkSlot(f: Frame, slot: nat, writingSeq: nat)
      requires WellFormed(section) && Writable(f) && slot == section.writeSeq % SLOTS
      requires writingSeq == WritingSequence(section.slots[slot].sequence)
      modifies this`section
      ensures section == Run(old(section), MarkOf(old(section), f))
    {
      ghost var m, job := section, MarkOf(section, f);
      var n := |f.pixels|;
      Store(SetSequence(slot, writingSeq), m, job, 0);
      for i := 0 to n
        invariant section == RunTo(m, job, 1 + i)
      {
        Store(SetPixel(slot, i, f.pixels[i]), m, job, 1 + i);
      }
      MarkFields(f, slot, m, m.writeSeq, writingSeq);
    }

    /** The slot's header fields, after its pixels. */
    method MarkFields(f: Frame, slot: nat, ghost m: Memory, ghost seqNo: nat, ghost odd: nat)
      requires WellFormed(m) && Writable(f) && section == RunTo(m, Mark(f, seqNo, odd), 1 + |f.pixels|)
      requires slot == seqNo % SLOTS
      modifies this`section
      ensures section == Run(m, Mark(f, seqNo, odd))
    {
      ghost var job := Mark(f, seqNo, odd);
      var n := |f.pixels|;
      Store(SetPts(slot, f.pts), m, job, n + 1);
      Store(SetBytes(slot, n), m, job, n + 2);
      Store(SetWidth(slot, f.width), m, job, n + 3);
      Store(SetHeight(slot, f.height), m, job, n + 4);
      Store(SetStride(slot, f.stride), m, job, n + 5);
    }

    /** The rest of writeFrame: the slot becomes even, then writeSeq names it. */
    method CommitSlot(f: Frame, ghost job: Job, slot: nat, seqNo: nat, writingSeq: nat)
      requires WellFormed(section) && Writable(f) && slot == seqNo % SLOTS && job == Commit(f, seqNo, writingSeq)
      modifies this`section
      ensures section == Run(old(section), job)
    {
      ghost var m := section;
      Store(SetSequence(slot, writingSeq + 1), m, job, 0);
      Store(SetFormat(f.format), m, job, 1);
      Store(SetWriteSeq(seqNo + 1), m, job, 2);
    }

    method WriteFrame(f: Frame) returns (ok: bool)
      requires WellFormed(section)
      modifies this`section
      ensures ok == (Writable(f) && MayWrite(old(section), consumerGeneration))
      ensures section == if ok then Published(old(section), f) else old(section)
    {
      var n := |f.pixels|;
      if n == 0 || n > SLOT_BYTES { return false; }
      if !section.magic || section.consumerCount == 0 || section.consumerGeneration != consumerGeneration {
        return false;
      }
      var seqNo := section.writeSeq;
      var slot := seqNo % SLOTS;
      var slotSeq := section.slots[slot].sequence;
      var writingSeq := slotSeq + (if slotSeq % 2 == 1 then 2 else 1);
      MarkTouchesOneSlot(section, f, Length(MarkOf(section, f)));
      MarkSlot(f, slot, writingSeq);
      if section.consumerCount == 0 || section.consumerGeneration != consumerGeneration { return false; }
      CommitSlot(f, CommitOf(old(section), f), slot, seqNo, writingSeq);
      return true;
    }

    method ReadLatest(capacity: nat) returns (result: ReadResult)
      requires WellFormed(section)
      ensures result == Latest(section, capacity)
    {
      for attempt := 0 to ATTEMPTS
        invariant attempt > 0 ==> Latest(section, capacity) == Nothing
      {
        var seqNo := section.writeSeq;
        if seqNo == 0 { return Nothing; }
        var slot := (seqNo - 1) % SLOTS;
        var before := section.slots[slot].sequence;
        if before % 2 == 1 { continue; }
        var bytes := section.slots[slot].bytes;
        if bytes == 0 || bytes > SLOT_BYTES { continue; }
        if bytes > capacity { return TooSmall; }
        var candidate := Info(section.slots[slot].width, section.slots[slot].height, section.slots[slot].stride,
                              section.format, section.slots[slot].pts, seqNo, bytes);
        if !GeometryIsSane(candidate) { return Nothing; }
        var dst := CopySlot(slot, bytes);
        if section.slots[slot].sequence != before { continue; }
        return Got(candidate, dst);
      }
      return Nothing;
    }

    method CopySlot(slot: nat, bytes: nat) returns (dst: seq<Byte>)
      requires WellFormed(section) && slot < SLOTS && bytes <= SLOT_BYTES
      ensures dst == section.slots[slot].pixels[..bytes]
    {
      dst := [];
      for i := 0 to bytes
        invariant dst == section.slots[slot].pixels[..i]
      {
        dst := dst + [section.slots[slot].pixels[i]];
      }
    }
  }

  /** The stores of the first half change only their slot. */
  lemma {:induction false} MarkTouchesOneSlot(m: Memory, f: Frame, k: nat)
    requires WellFormed(m) && Writable(f) && k <= Length(MarkOf(m, f))
    ensures var r := RunTo(m, MarkOf(m, f), k);
            && r == m.(slots := r.slots)
            && forall i :: 0 <= i < SLOTS && i != m.writeSeq % SLOTS ==> r.slots[i] == m.slots[i]
  {
    if k > 0 {
      MarkTouchesOneSlot(m, f, k - 1);
    }
  }

  /** After the first half the slot holds the frame, behind an odd sequence. */
  lemma {:induction false} MarkFills(m: Memory, f: Frame, k: nat)
    requires WellFormed(m) && Writable(f) && 0 < k <= Length(MarkOf(m, f))
    ensures Marked(RunTo(m, MarkOf(m, f), k).slots[m.writeSeq % SLOTS], f, MarkOf(m, f).odd, k)
  {
    if k > 1 {
      MarkFills(m, f, k - 1);
    }
  }

  /** What an uninterrupted writeFrame amounts to. */
  lemma PublishedIs(m: Memory, f: Frame)
    requires WellFormed(m) && Writable(f)
    ensures var r, i := Published(m, f), m.writeSeq % SLOTS;
            && Holds(r.slots[i], f)
            && r.slots[i].sequence == m.slots[i].sequence + (if m.slots[i].sequence % 2 == 0 then 2 else 3)
            && r == m.(slots := r.slots, writeSeq := m.writeSeq + 1, format := f.format)
            && forall j :: 0 <= j < SLOTS && j != i ==> r.slots[j] == m.slots[j]
  {
    var mark, i := MarkOf(m, f), m.writeSeq % SLOTS;
    var marked := Run(m, mark);
    MarkTouchesOneSlot(m, f, Length(mark));
    MarkFills(m, f, Length(mark));
    MarkedHolds(marked.slots[i], f, mark.odd);
    CommitRuns(marked, CommitOf(m, f));
  }

  lemma CommitRuns(m: Memory, job: Job)
    requires WellFormed(m) && Proper(job) && job.Commit?
    ensures var i := job.seqNo % SLOTS;
            Run(m, job) == m.(slots := m.slots[i := m.slots[i].(sequence := job.odd + 1)],
                              format := job.frame.format, writeSeq := job.seqNo + 1)
  {
    var one := RunTo(m, job, 1);
    assert one == Perform(RunTo(m, job, 0), SetSequence(job.seqNo % SLOTS, job.odd + 1));
    var two := RunTo(m, job, 2);
    assert two == Perform(one, SetFormat(job.frame.format));
    assert Run(m, job) == Perform(two, SetWriteSeq(job.seqNo + 1));
  }

  /** What is written is what is read next: every byte, and everything said about them. */
  lemma WriteThenRead(m: Memory, f: Frame, capacity: nat)
    requires WellFormed(m) && Writable(f)
    ensures var info := Info(f.width, f.height, f.stride, f.format, f.pts, m.writeSeq + 1, |f.pixels|);
            Latest(Published(m, f), capacity)
              == if |f.pixels| > capacity then TooSmall
                 else if !GeometryIsSane(info) then Nothing
                 else Got(info, f.pixels)
  {
    PublishedIs(m, f);
  }
}
