/** What every step of the frame ring keeps. */
module RingInvariant {
  import opened Bytes
  import opened Ring
  import opened Wrappers

  // ---------------------------------------------------------------------------
  // The section and its bookkeeping

  /** The slot holds exactly this frame. */
  predicate Holds(slot: Slot, f: Frame) {
    && slot.bytes == |f.pixels| <= |slot.pixels| && slot.pixels[..slot.bytes] == f.pixels
    && slot.pts == f.pts && slot.width == f.width && slot.height == f.height && slot.stride == f.stride
  }

  /** A stable slot with a recorded frame holds that frame. */
  predicate SlotOk(slot: Slot, home: nat, log: seq<Entry>) {
    && home <= |log|
    && (home > 0 && slot.sequence % 2 == 0 ==> Holds(slot, log[home - 1].frame))
  }

  predicate SlotsOk(m: Memory, hist: History)
    requires WellFormed(m) && |hist.home| == SLOTS
  {
    forall i :: 0 <= i < SLOTS ==> SlotOk(m.slots[i], hist.home[i], hist.log)
  }

  /** The slot that writeSeq points at is stable and holds the last frame published. */
  predicate NewestOk(m: Memory, hist: History)
    requires WellFormed(m) && |hist.home| == SLOTS
  {
    m.writeSeq > 0 ==>
      var i := (m.writeSeq - 1) % SLOTS;
      0 < hist.last == hist.home[i] && m.slots[i].sequence % 2 == 0
  }

  predicate EntryOk(e: Entry) {
    Writable(e.frame) && e.bound <= e.epoch && (e.epoch - e.bound) % WORD == 0
  }

  /** While anyone is counted, every frame in a slot was written in this generation. */
  predicate EpochOk(m: Memory, hist: History)
    requires |hist.home| == SLOTS
  {
    && m.consumerGeneration == hist.epoch % WORD
    && (forall e :: e in hist.log ==> EntryOk(e))
    && (m.consumerCount > 0 ==>
          forall i :: 0 <= i < SLOTS && 0 < hist.home[i] <= |hist.log| ==>
            hist.log[hist.home[i] - 1].epoch == hist.epoch)
  }

  predicate RingOk(m: Memory, hist: History) {
    && WellFormed(m) && |hist.home| == SLOTS
    && SlotsOk(m, hist)
    && NewestOk(m, hist)
    && EpochOk(m, hist)
    && |hist.counted| <= m.consumerCount
  }

  // ---------------------------------------------------------------------------
  // Readers

  /** As long as the slot's sequence has not moved, what was read is what is there. */
  predicate Faithfully(m: Memory, r: Reader)
    requires WellFormed(m) && r.seqNo > 0 && r.before.Some? && ReaderSized(r)
  {
    var slot := m.slots[ReadSlot(r)];
    && (forall k :: 0 <= k < |r.loaded| && k != FORMAT_FIELD ==> r.loaded[k] == FieldOf(m, ReadSlot(r), k))
    && r.copied <= slot.pixels
  }

  predicate ReaderOk(m: Memory, hist: History, r: Reader)
    requires WellFormed(m) && |hist.home| == SLOTS
  {
    && ReaderSized(r)
    && (r.seqNo == 0 ==> r.before == None)
    && (r.before == None ==> r.loaded == [] && r.copied == [])
    && (|r.loaded| < FIELDS ==> r.copied == [])
    && (|r.loaded| == FIELDS ==> GeometryIsSane(Candidate(r)))
    && (|r.loaded| > 0 ==> 0 < r.loaded[0] <= r.capacity)
    && (r.seqNo > 0 ==> 0 < r.floor <= hist.home[ReadSlot(r)])
    && (r.before.Some? ==>
          var sequence := m.slots[ReadSlot(r)].sequence;
          && r.before.value % 2 == 0 && r.before.value <= sequence
          && (sequence == r.before.value ==> Faithfully(m, r)))
  }

  // ---------------------------------------------------------------------------
  // Jobs under the guard

  predicate Marked(slot: Slot, f: Frame, odd: nat, done: nat)
    requires |slot.pixels| == SLOT_BYTES && Writable(f)
  {
    var n := |f.pixels|;
    && slot.sequence == odd
    && (forall i :: 0 <= i < n && i + 1 < done ==> slot.pixels[i] == f.pixels[i])
    && (done > n + 1 ==> slot.pts == f.pts)
    && (done > n + 2 ==> slot.bytes == n)
    && (done > n + 3 ==> slot.width == f.width)
    && (done > n + 4 ==> slot.height == f.height)
    && (done > n + 5 ==> slot.stride == f.stride)
  }

  predicate JobOk(m: Memory, hist: History, h: nat, x: Handle, me: Process, job: Job, done: nat)
    requires WellFormed(m) && |hist.home| == SLOTS
  {
    && Proper(job) && done <= Length(job)
    && ((job.Initialise? && done < 3) || m.magic)
    && match job
       case Initialise =>
         && (done == 0 ==> m.consumerGeneration == 0)
         && (done <= 1 ==> m.consumerCount == 0)
         && (done >= 2 ==> h in hist.counted)
         && (forall i :: 0 <= i < SLOTS ==> hist.home[i] == 0)
       case Advance(g) => m.consumerCount == 0 && m.consumerGeneration == (g + done) % WORD
       case Clear =>
         && (done < Length(job) ==> m.consumerCount == 0)
         && (done >= 2 ==> m.writeSeq == 0)
         && (forall i :: 0 <= i < SLOTS && 2 + 6 * i < done ==> hist.home[i] == 0)
         && (done == Length(job) ==> h in hist.counted)
       case Join(count) => if done == 0 then m.consumerCount == count else h in hist.counted
       case Leave(count) =>
         0 < count && (done == 0 ==> m.consumerCount == count && x.role == Consumer)
       case Claim(pid, start) =>
         && pid == me.pid && start == me.start
         && (done >= 1 ==> m.ownerStart == start) && (done >= 2 ==> m.ownerPid == pid)
       case Unclaim => true
       case Mark(f, seqNo, odd) =>
         var slot := m.slots[seqNo % SLOTS];
         && m.consumerCount > 0 && x.generation == m.consumerGeneration && x.role != Detached
         && seqNo == m.writeSeq && odd % 2 == 1
         && (if done == 0 then odd > slot.sequence else Marked(slot, f, odd, done))
       case Commit(f, seqNo, odd) =>
         var slot := m.slots[seqNo % SLOTS];
         && m.consumerCount > 0 && x.generation == m.consumerGeneration && x.role != Detached
         && odd % 2 == 1
         && (done < 3 ==> seqNo == m.writeSeq)
         && (done == 0 ==> slot.sequence == odd && Holds(slot, f))
         && (done >= 1 ==> slot.sequence == odd + 1 && 0 < |hist.log| == hist.home[seqNo % SLOTS])
  }

  // ---------------------------------------------------------------------------
  // Handles

  predicate RoleOk(m: Memory, hist: History, procs: map<nat, Process>, h: nat, x: Handle) {
    && x.process in procs && procs[x.process].alive
    && (x.role != Detached ==>
          m.magic && x.generation == x.bound % WORD && x.bound <= hist.epoch)
    && (x.role == Consumer ==> h in hist.counted && x.bound == hist.epoch)
    && (x.role == Producer ==>
          m.ownerPid == procs[x.process].pid && m.ownerStart == procs[x.process].start)
  }

  predicate PcOk(m: Memory, hist: History, procs: map<nat, Process>, h: nat, x: Handle)
    requires WellFormed(m) && |hist.home| == SLOTS && x.process in procs
  {
    match x.pc
    case Idle => true
    case Guarded(call) =>
      && (call.CreateFirst? ==> m == ZeroMemory() && hist == NO_HISTORY)
      && (call.CreateFirst? || call.Create? || call.OpenWritable? ==> x.role == Detached)
      && (call.CloseConsumer? ==> x.role == Consumer)
      && (call.CloseProducer? ==> x.role == Producer)
      && (call.WriteFrame? ==> Writable(call.frame) && x.role != Detached)
    case Storing(job, done) =>
      && JobOk(m, hist, h, x, procs[x.process], job, done)
      && (!(job.Leave? || job.Mark? || job.Commit?) ==> x.role == Detached)
    case Reading(r) => x.role == Consumer && ReaderOk(m, hist, r)
  }

  predicate HandlesOk(s: State)
    requires WellFormed(s.mem) && |s.hist.home| == SLOTS
  {
    forall h :: h in s.handles ==>
      RoleOk(s.mem, s.hist, s.procs, h, s.handles[h]) && PcOk(s.mem, s.hist, s.procs, h, s.handles[h])
  }

  predicate Critical(pc: Pc) {
    pc.Guarded? || pc.Storing?
  }

  predicate GuardOk(s: State) {
    && (forall h :: h in s.handles && Critical(s.handles[h].pc) ==> s.guard == Some(h))
    && (s.guard.Some? ==> s.guard.value in s.handles && Critical(s.handles[s.guard.value].pc))
  }

  predicate IsProducer(s: State, h: nat) {
    h in s.handles && s.handles[h].role == Producer
  }

  predicate NoProducer(handles: map<nat, Handle>) {
    forall h :: h in handles ==> handles[h].role != Producer
  }

  predicate OneProducer(handles: map<nat, Handle>) {
    forall h, k :: h in handles && k in handles && handles[h].role == handles[k].role == Producer ==> h == k
  }

  predicate ChangesClaim(pc: Pc) {
    pc.Storing? && (pc.job.Claim? || pc.job.Unclaim?)
  }

  predicate ClaimOk(s: State) {
    && OneProducer(s.handles)
    && (s.guard.Some? && s.guard.value in s.handles && ChangesClaim(s.handles[s.guard.value].pc)
        ==> NoProducer(s.handles))
  }

  /** Until its maker initialises it, the section is as the system made it. */
  predicate MakerOk(s: State) {
    s.maker.Some? ==>
      && s.mem == ZeroMemory() && s.hist == NO_HISTORY
      && s.maker.value in s.handles && s.handles[s.maker.value].pc == Idle
      && (forall h :: h in s.handles ==> !Founding(s.handles[h].pc))
  }

  predicate Founding(pc: Pc) {
    || (pc.Guarded? && pc.call.CreateFirst?)
    || (pc.Storing? && pc.job.Initialise?)
  }

  predicate Inv(s: State) {
    && RingOk(s.mem, s.hist)
    && HandlesOk(s)
    && GuardOk(s)
    && ClaimOk(s)
    && MakerOk(s)
    && LivePidsDiffer(s.procs)
  }

  // ---------------------------------------------------------------------------
  // A store keeps the ring

  lemma SameRemainder(a: nat, b: nat)
    requires b <= a && a % WORD == b % WORD
    ensures (a - b) % WORD == 0
  {
  }

  lemma NextSlotDiffers(seqNo: nat)
    requires seqNo > 0
    ensures (seqNo - 1) % SLOTS != seqNo % SLOTS
  {
  }

  /** The slots after one of them has been stored to. */
  lemma OneSlotStored(m: Memory, hist: History, i: nat, slot: Slot)
    requires RingOk(m, hist) && i < SLOTS && |slot.pixels| == SLOT_BYTES
    requires SlotOk(slot, hist.home[i], hist.log)
    requires m.writeSeq > 0 && (m.writeSeq - 1) % SLOTS == i ==> slot.sequence % 2 == 0
    ensures RingOk(m.(slots := m.slots[i := slot]), hist)
  {
  }

  lemma MarkKeepsRing(m: Memory, hist: History, h: nat, x: Handle, me: Process, job: Job, k: nat)
    requires RingOk(m, hist) && JobOk(m, hist, h, x, me, job, k) && job.Mark? && k < Length(job)
    ensures RingOk(Perform(m, StoreAt(job, k)), hist)
  {
    var i := job.seqNo % SLOTS;
    var m' := Perform(m, StoreAt(job, k));
    if m.writeSeq > 0 {
      NextSlotDiffers(m.writeSeq);
    }
    assert m'.slots[i].sequence == job.odd;
    OneSlotStored(m, hist, i, m'.slots[i]);
    assert m' == m.(slots := m.slots[i := m'.slots[i]]);
  }

  lemma MarkKeepsJob(m: Memory, hist: History, h: nat, x: Handle, me: Process, job: Job, k: nat)
    requires RingOk(m, hist) && JobOk(m, hist, h, x, me, job, k) && job.Mark? && k < Length(job)
    ensures JobOk(Perform(m, StoreAt(job, k)), hist, h, x, me, job, k + 1)
  {
    var i := job.seqNo % SLOTS;
    var slot := Perform(m, StoreAt(job, k)).slots[i];
    assert Marked(slot, job.frame, job.odd, k + 1);
  }

  /** The second half of writeFrame starts from a slot that holds the whole frame. */
  lemma MarkedHolds(slot: Slot, f: Frame, odd: nat)
    requires |slot.pixels| == SLOT_BYTES && Writable(f) && Marked(slot, f, odd, 1 + |f.pixels| + 5)
    ensures Holds(slot, f)
  {
    assert slot.pixels[..|f.pixels|] == f.pixels;
  }

  lemma NewEntry(hist: History, h: nat, x: Handle, f: Frame)
    requires Writable(f) && x.generation == x.bound % WORD == hist.epoch % WORD && x.bound <= hist.epoch
    ensures EntryOk(Entry(f, h, x.bound, hist.epoch))
  {
    SameRemainder(hist.epoch, x.bound);
  }

  lemma CommitKeepsRing(m: Memory, hist: History, h: nat, x: Handle, me: Process, job: Job, k: nat)
    requires RingOk(m, hist) && JobOk(m, hist, h, x, me, job, k) && job.Commit? && k < Length(job)
    requires x.generation == x.bound % WORD && x.bound <= hist.epoch
    ensures RingOk(Perform(m, StoreAt(job, k)), Recorded(hist, h, x, job, k))
  {
    NewEntry(hist, h, x, job.frame);
    if k == 0 && m.writeSeq > 0 {
      NextSlotDiffers(m.writeSeq);
    }
  }

  lemma CommitKeepsJob(m: Memory, hist: History, h: nat, x: Handle, me: Process, job: Job, k: nat)
    requires RingOk(m, hist) && JobOk(m, hist, h, x, me, job, k) && job.Commit? && k < Length(job)
    ensures JobOk(Perform(m, StoreAt(job, k)), Recorded(hist, h, x, job, k), h, x, me, job, k + 1)
  {
  }

  lemma NobodyCounted(m: Memory, hist: History)
    requires RingOk(m, hist) && m.consumerCount == 0
    ensures hist.counted == {}
  {
  }

  lemma GenerationStore(m: Memory, hist: History, value: nat)
    requires RingOk(m, hist) && m.consumerCount == 0 && value == Next32(m.consumerGeneration)
    ensures RingOk(m.(consumerGeneration := value), hist.(epoch := hist.epoch + 1))
  {
    assert (hist.epoch % WORD + 1) % WORD == (hist.epoch + 1) % WORD;
  }

  lemma AdvanceKeeps(m: Memory, hist: History, h: nat, x: Handle, me: Process, job: Job, k: nat)
    requires RingOk(m, hist) && JobOk(m, hist, h, x, me, job, k) && job.Advance? && k < Length(job)
    ensures RingOk(Perform(m, StoreAt(job, k)), Recorded(hist, h, x, job, k))
    ensures JobOk(Perform(m, StoreAt(job, k)), Recorded(hist, h, x, job, k), h, x, me, job, k + 1)
  {
    var value := if k == 0 then Next32(job.generation) else 1;
    assert value == Next32(m.consumerGeneration) == (job.generation + k + 1) % WORD;
    GenerationStore(m, hist, value);
  }

  lemma InitialiseKeeps(m: Memory, hist: History, h: nat, x: Handle, me: Process, job: Job, k: nat)
    requires RingOk(m, hist) && JobOk(m, hist, h, x, me, job, k) && job.Initialise? && k < Length(job)
    ensures RingOk(Perform(m, StoreAt(job, k)), Recorded(hist, h, x, job, k))
    ensures JobOk(Perform(m, StoreAt(job, k)), Recorded(hist, h, x, job, k), h, x, me, job, k + 1)
  {
    if k == 0 {
      GenerationStore(m, hist, 1);
    } else if k == 1 {
      NobodyCounted(m, hist);
    }
  }

  lemma ClearSlotStore(m: Memory, hist: History, i: nat, field: nat)
    requires RingOk(m, hist) && m.writeSeq == 0 && i < SLOTS && field < 6
    requires field > 0 ==> hist.home[i] == 0
    ensures RingOk(Perform(m, ClearAt(i, field)), if field == 0 then hist.(home := hist.home[i := 0]) else hist)
  {
  }

  lemma ClearKeepsRing(m: Memory, hist: History, h: nat, x: Handle, me: Process, job: Job, k: nat)
    requires RingOk(m, hist) && JobOk(m, hist, h, x, me, job, k) && job.Clear? && k < Length(job)
    ensures RingOk(Perform(m, StoreAt(job, k)), Recorded(hist, h, x, job, k))
  {
    if k < 2 {
    } else if k < 2 + 6 * SLOTS {
      ClearSlotStore(m, hist, (k - 2) / 6, (k - 2) % 6);
    } else {
      NobodyCounted(m, hist);
    }
  }

  lemma ClearKeepsJob(m: Memory, hist: History, h: nat, x: Handle, me: Process, job: Job, k: nat)
    requires RingOk(m, hist) && JobOk(m, hist, h, x, me, job, k) && job.Clear? && k < Length(job)
    requires RingOk(Perform(m, StoreAt(job, k)), Recorded(hist, h, x, job, k))
    ensures JobOk(Perform(m, StoreAt(job, k)), Recorded(hist, h, x, job, k), h, x, me, job, k + 1)
  {
    if 2 <= k < 2 + 6 * SLOTS {
      var i, field := (k - 2) / 6, (k - 2) % 6;
      assert k == 2 + 6 * i + field;
    }
  }

  lemma CountKeeps(m: Memory, hist: History, h: nat, x: Handle, me: Process, job: Job, k: nat)
    requires RingOk(m, hist) && JobOk(m, hist, h, x, me, job, k) && k < Length(job)
    requires job.Join? || (job.Leave? && (k == 0 ==> h in hist.counted))
    ensures RingOk(Perform(m, StoreAt(job, k)), Recorded(hist, h, x, job, k))
    ensures JobOk(Perform(m, StoreAt(job, k)), Recorded(hist, h, x, job, k), h, x.(role := Detached), me, job, k + 1)
  {
  }

  lemma ClaimKeeps(m: Memory, hist: History, h: nat, x: Handle, me: Process, job: Job, k: nat)
    requires RingOk(m, hist) && JobOk(m, hist, h, x, me, job, k) && k < Length(job)
    requires job.Claim? || job.Unclaim?
    ensures RingOk(Perform(m, StoreAt(job, k)), Recorded(hist, h, x, job, k))
    ensures JobOk(Perform(m, StoreAt(job, k)), Recorded(hist, h, x, job, k), h, x, me, job, k + 1)
  {
  }

  // ---------------------------------------------------------------------------
  // A store keeps everybody else's reads

  /** Nothing a reader relies on has changed, or its slot's sequence has moved on. */
  lemma ReaderKept(m: Memory, hist: History, m': Memory, hist': History, r: Reader)
    requires RingOk(m, hist) && WellFormed(m') && |hist'.home| == SLOTS && ReaderOk(m, hist, r)
    requires r.seqNo > 0 ==>
      var i := ReadSlot(r);
      hist.home[i] <= hist'.home[i] && SlotSame(m.slots[i], m'.slots[i])
    ensures ReaderOk(m', hist', r)
  {
  }

  /** A slot is untouched, or was being written, or its sequence grows. */
  predicate SlotSame(slot: Slot, slot': Slot) {
    || slot' == slot
    || (slot'.sequence == slot.sequence && slot.sequence % 2 == 1)
    || slot'.sequence > slot.sequence
  }

  lemma StoreKeepsSlots(m: Memory, hist: History, h: nat, x: Handle, me: Process, job: Job, k: nat, i: nat)
    requires RingOk(m, hist) && JobOk(m, hist, h, x, me, job, k) && k < Length(job)
    requires m.consumerCount > 0 && i < SLOTS
    ensures hist.home[i] <= Recorded(hist, h, x, job, k).home[i]
    ensures SlotSame(m.slots[i], Perform(m, StoreAt(job, k)).slots[i])
  {
  }

  lemma OtherRoleKept(m: Memory, hist: History, h: nat, x: Handle, procs: map<nat, Process>, me: Process,
                      job: Job, k: nat, g: nat, y: Handle)
    requires RingOk(m, hist) && JobOk(m, hist, h, x, me, job, k) && k < Length(job)
    requires g != h && RoleOk(m, hist, procs, g, y)
    requires job.Claim? || job.Unclaim? ==> y.role != Producer
    ensures RoleOk(Perform(m, StoreAt(job, k)), Recorded(hist, h, x, job, k), procs, g, y)
  {
  }

  lemma OtherPcKept(m: Memory, hist: History, h: nat, x: Handle, procs: map<nat, Process>, me: Process,
                    job: Job, k: nat, g: nat, y: Handle)
    requires RingOk(m, hist) && JobOk(m, hist, h, x, me, job, k) && k < Length(job)
    requires RingOk(Perform(m, StoreAt(job, k)), Recorded(hist, h, x, job, k))
    requires g != h && RoleOk(m, hist, procs, g, y) && PcOk(m, hist, procs, g, y) && !Critical(y.pc)
    ensures PcOk(Perform(m, StoreAt(job, k)), Recorded(hist, h, x, job, k), procs, g, y)
  {
    if y.pc.Reading? {
      var m', hist' := Perform(m, StoreAt(job, k)), Recorded(hist, h, x, job, k);
      var r := y.pc.reader;
      assert m.consumerCount > 0;
      if r.seqNo > 0 {
        StoreKeepsSlots(m, hist, h, x, me, job, k, ReadSlot(r));
      }
      ReaderKept(m, hist, m', hist', r);
    }
  }
}
