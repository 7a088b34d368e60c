/** What the frame ring promises its producer and its consumers, in every run. */
module RingPromises {
  import opened Bytes
  import opened Ring
  import opened RingInvariant
  import opened RingSafety
  import opened Wrappers
  import F = FrameRing

  // ---------------------------------------------------------------------------
  // Runs

  predicate Possible(s: State, steps: seq<Step>)
    decreases steps
  {
    steps == [] || (Steppable(s, steps[0]) && Possible(Next(s, steps[0]), steps[1..]))
  }

  function After(s: State, steps: seq<Step>): State
    requires Possible(s, steps)
    decreases steps
  {
    if steps == [] then s else After(Next(s, steps[0]), steps[1..])
  }

  lemma {:induction false} RunKeeps(s: State, steps: seq<Step>)
    requires Inv(s) && Possible(s, steps)
    ensures Inv(After(s, steps))
    decreases steps
  {
    if steps == [] {
    } else {
      StepKeeps(s, steps[0]);
      RunKeeps(Next(s, steps[0]), steps[1..]);
    }
  }

  /** A state that some run of some system reaches. */
  ghost predicate Reachable(s: State) {
    exists s0, steps :: Init(s0) && Possible(s0, steps) && After(s0, steps) == s
  }

  lemma ReachableIsSafe(s: State)
    requires Reachable(s)
    ensures Inv(s)
  {
    var s0, steps :| Init(s0) && Possible(s0, steps) && After(s0, steps) == s;
    InitIsSafe(s0);
    RunKeeps(s0, steps);
  }

  /** Wherever a run has got to, each step that is enabled can be taken: nothing goes out of range. */
  lemma NoStepGoesWrong(s: State, step: Step)
    requires Reachable(s) && Enabled(s, step)
    ensures Steppable(s, step)
  {
    ReachableIsSafe(s);
    StepKeeps(s, step);
  }

  lemma LogGrowsOnce(s: State, step: Step)
    requires Steppable(s, step)
    ensures s.hist.log <= Next(s, step).hist.log
  {
  }

  lemma {:induction false} AfterOneMore(s: State, steps: seq<Step>, step: Step)
    requires Possible(s, steps) && Steppable(After(s, steps), step)
    ensures Possible(s, steps + [step]) && After(s, steps + [step]) == Next(After(s, steps), step)
    decreases steps
  {
    if steps == [] {
      assert Possible(Next(s, step), []);
    } else {
      AfterOneMore(Next(s, steps[0]), steps[1..], step);
      assert (steps + [step])[1..] == steps[1..] + [step];
    }
  }

  lemma Extend(s: State, step: Step)
    requires Reachable(s) && Enabled(s, step)
    ensures Steppable(s, step) && Reachable(Next(s, step))
  {
    NoStepGoesWrong(s, step);
    var s0, steps :| Init(s0) && Possible(s0, steps) && After(s0, steps) == s;
    AfterOneMore(s0, steps, step);
  }

  /** Completed frames are never forgotten, so an index into the log means the same for ever. */
  lemma {:induction false} LogGrows(s: State, steps: seq<Step>)
    requires Inv(s) && Possible(s, steps)
    ensures s.hist.log <= After(s, steps).hist.log
    decreases steps
  {
    if steps == [] {
    } else {
      StepKeeps(s, steps[0]);
      LogGrowsOnce(s, steps[0]);
      LogGrows(Next(s, steps[0]), steps[1..]);
    }
  }

  // ---------------------------------------------------------------------------
  // Readers

  /** What readLatest hands out, against the call of writeFrame that made it. */
  predicate IsFrame(info: Info, pixels: seq<Byte>, f: Frame) {
    && pixels == f.pixels && info.bytesUsed == |f.pixels|
    && info.width == f.width && info.height == f.height && info.stride == f.stride && info.pts == f.pts
  }

  /** Handle h is about to leave readLatest with S_OK. */
  predicate Delivers(s: State, h: nat, info: Info, pixels: seq<Byte>) {
    && Steppable(s, Read(h))
    && ReadStep(s.mem, s.hist, s.handles[h].pc.reader) == Return(Got(info, pixels))
  }

  /** The log entry a reader's slot holds when its sequence has not moved. */
  lemma DeliveredEntry(m: Memory, hist: History, r: Reader, info: Info, pixels: seq<Byte>) returns (i: nat)
    requires RingOk(m, hist) && ReaderOk(m, hist, r) && m.consumerCount > 0
    requires ReadStep(m, hist, r) == Return(Got(info, pixels))
    ensures r.floor <= i + 1 <= |hist.log| && 0 < r.floor
    ensures IsFrame(info, pixels, hist.log[i].frame) && hist.log[i].epoch == hist.epoch
    ensures GeometryIsSane(info) && |pixels| <= r.capacity && info.writeSeq == r.seqNo
  {
    var slot := m.slots[ReadSlot(r)];
    i := hist.home[ReadSlot(r)] - 1;
    assert Faithfully(m, r) && SlotOk(slot, hist.home[ReadSlot(r)], hist.log);
    assert r.loaded[0] == FieldOf(m, ReadSlot(r), 0) && r.loaded[1] == FieldOf(m, ReadSlot(r), 1);
    assert r.loaded[2] == FieldOf(m, ReadSlot(r), 2) && r.loaded[3] == FieldOf(m, ReadSlot(r), 3);
    assert r.loaded[5] == FieldOf(m, ReadSlot(r), 5);
  }

  /** What a reader got is entry i of the log, no older than the last frame published when it began. */
  predicate IsEntry(s: State, h: nat, info: Info, pixels: seq<Byte>, i: nat)
    requires h in s.handles && s.handles[h].pc.Reading?
  {
    && s.handles[h].pc.reader.floor <= i + 1 <= |s.hist.log|
    && IsFrame(info, pixels, s.hist.log[i].frame)
  }

  /** The entry was completed while this consumer was counted, by a producer of its generation number. */
  predicate OfGeneration(x: Handle, e: Entry) {
    && e.epoch == x.bound && e.bound % WORD == x.generation
    && (e.bound == x.bound || e.bound + WORD <= x.bound)
  }

  /**
   * No torn frame: whatever the interleaving and wherever producers died, pixels, size, geometry
   * and timestamp of a delivered frame all come from one call of writeFrame, which is no older
   * than the last frame published when the attempt began. That very call was made by a producer
   * bound to the consumer's own generation number, hence to its own generation unless the
   * generation was advanced 2^32 times while that producer stayed open.
   */
  lemma NoTornFrame(s: State, h: nat, info: Info, pixels: seq<Byte>)
    requires Reachable(s) && Delivers(s, h, info, pixels)
    ensures exists i: nat :: IsEntry(s, h, info, pixels, i) && OfGeneration(s.handles[h], s.hist.log[i])
    ensures GeometryIsSane(info) && info.bytesUsed == |pixels| <= s.handles[h].pc.reader.capacity
  {
    var i := GenerationIsolation(s, h, info, pixels);
  }

  lemma IsolatedEntry(m: Memory, hist: History, x: Handle, r: Reader, info: Info, pixels: seq<Byte>) returns (i: nat)
    requires RingOk(m, hist) && ReaderOk(m, hist, r) && m.consumerCount > 0
    requires ReadStep(m, hist, r) == Return(Got(info, pixels))
    requires x.bound == hist.epoch && x.generation == x.bound % WORD
    ensures r.floor <= i + 1 <= |hist.log| && IsFrame(info, pixels, hist.log[i].frame)
    ensures OfGeneration(x, hist.log[i]) && GeometryIsSane(info) && |pixels| <= r.capacity
  {
    i := DeliveredEntry(m, hist, r, info, pixels);
    assert hist.log[i] in hist.log && EntryOk(hist.log[i]);
    SameGeneration(hist.log[i].bound, x.bound);
  }

  /** Generation isolation, of the entry that was delivered. */
  lemma GenerationIsolation(s: State, h: nat, info: Info, pixels: seq<Byte>) returns (i: nat)
    requires Reachable(s) && Delivers(s, h, info, pixels)
    ensures IsEntry(s, h, info, pixels, i) && OfGeneration(s.handles[h], s.hist.log[i])
    ensures GeometryIsSane(info) && |pixels| <= s.handles[h].pc.reader.capacity
  {
    ReachableIsSafe(s);
    var x := s.handles[h];
    assert RoleOk(s.mem, s.hist, s.procs, h, x) && PcOk(s.mem, s.hist, s.procs, h, x);
    ConsumersAreCounted(s, h);
    i := IsolatedEntry(s.mem, s.hist, x, x.pc.reader, info, pixels);
  }

  /** What is delivered is NV12 of at most 3840 by 2160, and both its planes lie within the bytes delivered. */
  lemma DeliveredIsNv12(s: State, h: nat, info: Info, pixels: seq<Byte>)
    requires Reachable(s) && Delivers(s, h, info, pixels)
    ensures info.format == 0x3231564E && 0 < info.width <= 3840 && 0 < info.height <= 2160
    ensures info.width % 2 == 0 && info.height % 2 == 0 && info.width <= info.stride
    ensures info.stride * info.height + info.stride * info.height / 2 <= |pixels| <= 3840 * 2160 * 3 / 2
  {
    var i := GenerationIsolation(s, h, info, pixels);
  }

  lemma SameGeneration(a: nat, b: nat)
    requires a <= b && (b - a) % WORD == 0
    ensures a % WORD == b % WORD && (a == b || a + WORD <= b)
  {
  }

  /** The slot that writeSeq names is never one being written: it holds the last frame published. */
  lemma NewestSlotIsStable(s: State)
    requires Reachable(s) && s.mem.writeSeq > 0
    ensures WellFormed(s.mem)
    ensures var slot := s.mem.slots[(s.mem.writeSeq - 1) % SLOTS];
            && slot.sequence % 2 == 0 && 0 < s.hist.last <= |s.hist.log|
            && Holds(slot, s.hist.log[s.hist.last - 1].frame)
  {
    ReachableIsSafe(s);
    var i := (s.mem.writeSeq - 1) % SLOTS;
    assert SlotOk(s.mem.slots[i], s.hist.home[i], s.hist.log);
  }

  // ---- A reader left alone

  /** n further steps of a reader while nobody stores. */
  function Alone(m: Memory, hist: History, r: Reader, n: nat): Progress
    requires WellFormed(m) && ReaderSized(r)
    decreases n
  {
    if n == 0 then Continue(r)
    else
      match ReadStep(m, hist, r)
      case Continue(next) => if ReaderSized(next) then Alone(m, hist, next, n - 1) else Return(Nothing)
      case Return(result) => Return(result)
  }

  lemma {:induction false} CopyAlone(m: Memory, hist: History, r: Reader, n: nat)
    requires RingOk(m, hist) && ReaderOk(m, hist, r) && |r.loaded| == FIELDS
    requires m.slots[ReadSlot(r)].sequence == r.before.value
    requires n > r.loaded[0] - |r.copied|
    ensures Alone(m, hist, r, n) == Return(Got(Candidate(r), m.slots[ReadSlot(r)].pixels[..r.loaded[0]]))
    decreases n
  {
    assert Faithfully(m, r);
    if |r.copied| == r.loaded[0] {
      assert r.copied == m.slots[ReadSlot(r)].pixels[..r.loaded[0]];
    } else {
      ReadStepOk(m, hist, r);
      CopyAlone(m, hist, r.(copied := r.copied + [m.slots[ReadSlot(r)].pixels[|r.copied|]]), n - 1);
    }
  }

  /** An attempt on a quiet ring after k header loads. */
  function Loading(m: Memory, hist: History, capacity: nat, attempt: nat, k: nat): Reader
    requires WellFormed(m) && m.writeSeq > 0 && k <= FIELDS
  {
    var i := (m.writeSeq - 1) % SLOTS;
    var fields := seq(k, j requires 0 <= j < k => FieldOf(m, i, j));
    Reader(capacity, attempt, m.writeSeq, Some(m.slots[i].sequence), fields, [], hist.last)
  }

  predicate Readable(m: Memory, hist: History, capacity: nat) {
    && RingOk(m, hist) && m.writeSeq > 0
    && 0 < m.slots[(m.writeSeq - 1) % SLOTS].bytes <= SLOT_BYTES
    && m.slots[(m.writeSeq - 1) % SLOTS].bytes <= capacity
  }

  lemma {:induction false} LoadAlone(m: Memory, hist: History, capacity: nat, attempt: nat, k: nat, n: nat)
    requires Readable(m, hist, capacity) && 0 < k <= FIELDS && n > FIELDS + SLOT_BYTES - k
    requires k == FIELDS ==> GeometryIsSane(F.InfoOf(m))
    ensures Alone(m, hist, Loading(m, hist, capacity, attempt, k), n) == Return(F.Latest(m, capacity))
    decreases FIELDS - k
  {
    var r := Loading(m, hist, capacity, attempt, k);
    if k == FIELDS {
      assert Candidate(r) == F.InfoOf(m);
      CopyAlone(m, hist, r, n);
    } else {
      var next := Loading(m, hist, capacity, attempt, k + 1);
      assert next.loaded == r.loaded + [FieldOf(m, ReadSlot(r), k)];
      if k + 1 < FIELDS || GeometryIsSane(F.InfoOf(m)) {
        LoadAlone(m, hist, capacity, attempt, k + 1, n - 1);
      }
    }
  }

  lemma QuietAttempt(m: Memory, hist: History, capacity: nat, attempt: nat)
    requires RingOk(m, hist) && m.writeSeq > 0
    requires 0 < m.slots[(m.writeSeq - 1) % SLOTS].bytes <= SLOT_BYTES
    ensures Alone(m, hist, Reader(capacity, attempt, 0, None, [], [], 0), 3 + FIELDS + SLOT_BYTES)
         == Return(F.Latest(m, capacity))
  {
    var idle := Reader(capacity, attempt, 0, None, [], [], 0);
    var started := idle.(seqNo := m.writeSeq, floor := hist.last);
    var n := 3 + FIELDS + SLOT_BYTES;
    assert Alone(m, hist, idle, n) == Alone(m, hist, started, n - 1);
    var entered := Loading(m, hist, capacity, attempt, 0);
    assert Alone(m, hist, started, n - 1) == Alone(m, hist, entered, n - 2);
    if m.slots[(m.writeSeq - 1) % SLOTS].bytes <= capacity {
      assert Loading(m, hist, capacity, attempt, 1).loaded == entered.loaded + [FieldOf(m, ReadSlot(entered), 0)];
      LoadAlone(m, hist, capacity, attempt, 1, n - 3);
    }
  }

  /**
   * A reader left alone in any of its attempts, stepping as the state machine has it, returns what the
   * call returns when it runs alone: the frame published last, or exactly why that cannot be had.
   */
  lemma UndisturbedReadSucceeds(s: State, capacity: nat, attempt: nat)
    requires Reachable(s)
    ensures WellFormed(s.mem)
    ensures Alone(s.mem, s.hist, Reader(capacity, attempt, 0, None, [], [], 0), 3 + FIELDS + SLOT_BYTES)
         == Return(F.Latest(s.mem, capacity))
  {
    ReachableIsSafe(s);
    if s.mem.writeSeq > 0 {
      NewestSlotIsStable(s);
      assert s.hist.log[s.hist.last - 1] in s.hist.log;
      QuietAttempt(s.mem, s.hist, capacity, attempt);
    }
  }

  /** What spoils an attempt: a slot being written, one that holds nothing, or one written meanwhile. */
  predicate Disturbed(m: Memory, r: Reader)
    requires WellFormed(m) && ReaderSized(r)
  {
    r.seqNo > 0 &&
      var slot := m.slots[ReadSlot(r)];
      if r.before == None then slot.sequence % 2 == 1
      else if r.loaded == [] then slot.bytes == 0 || slot.bytes > SLOT_BYTES
      else |r.loaded| == FIELDS && |r.copied| == r.loaded[0] && slot.sequence != r.before.value
  }

  /** A spoiled attempt is followed by another, up to eight in all, and after the eighth by nothing. */
  lemma DisturbedReadStartsOver(s: State, h: nat)
    requires Reachable(s) && Steppable(s, Read(h)) && Disturbed(s.mem, s.handles[h].pc.reader)
    ensures var r, t := s.handles[h].pc.reader, Next(s, Read(h));
            && t.mem == s.mem && h in t.handles
            && t.handles[h] == s.handles[h].(pc :=
                 if r.attempt < 7 then Reading(Reader(r.capacity, r.attempt + 1, 0, None, [], [], 0)) else Idle)
  {
  }

  /** The reader once it has the last of the header fields as well. */
  function LastLoaded(m: Memory, r: Reader): Reader
    requires WellFormed(m) && r.seqNo > 0
  {
    r.(loaded := r.loaded + [FieldOf(m, ReadSlot(r), FIELDS - 1)])
  }

  /** Nothing else is answered with nothing than a ring in which nothing is published or nothing sane. */
  lemma NothingOnlyThen(m: Memory, hist: History, r: Reader)
    requires RingOk(m, hist) && ReaderOk(m, hist, r) && ReadStep(m, hist, r) == Return(Nothing)
    ensures || (r.seqNo == 0 && m.writeSeq == 0)
            || (|r.loaded| == FIELDS - 1 && !GeometryIsSane(Candidate(LastLoaded(m, r))))
            || (Disturbed(m, r) && r.attempt >= 7)
  {
  }

  // ---------------------------------------------------------------------------
  // The guard and the consumer count

  /** Only the holder of the guard changes the section, so what it loaded once stays so. */
  lemma OnlyTheHolderStores(s: State, step: Step)
    requires Reachable(s) && Steppable(s, step) && Next(s, step).mem != s.mem
    ensures step.DoStore? && s.guard == Some(step.h)
  {
    ReachableIsSafe(s);
  }

  /** Every open consumer is counted, so the count is never 0 under one and a close never wraps it. */
  lemma ConsumersAreCounted(s: State, h: nat)
    requires Reachable(s) && h in s.handles && s.handles[h].role == Consumer
    ensures h in s.hist.counted && |s.hist.counted| <= s.mem.consumerCount < WORD
    ensures 0 < s.mem.consumerCount
    ensures s.handles[h].pc.Storing? && s.handles[h].pc.job.Leave? ==> Length(s.handles[h].pc.job) == 1
  {
    ReachableIsSafe(s);
    assert PcOk(s.mem, s.hist, s.procs, h, s.handles[h]);
  }

  /** While a consumer is open nobody advances the generation or resets the slots under it. */
  lemma NoResetUnderAConsumer(s: State, h: nat, g: nat)
    requires Reachable(s) && h in s.handles && s.handles[h].role == Consumer
    requires g in s.handles && s.handles[g].pc.Storing? && s.handles[g].pc.done < Length(s.handles[g].pc.job)
    ensures !s.handles[g].pc.job.Advance? && !s.handles[g].pc.job.Clear?
  {
    ConsumersAreCounted(s, h);
    ReachableIsSafe(s);
    assert PcOk(s.mem, s.hist, s.procs, g, s.handles[g]);
  }

  // ---------------------------------------------------------------------------
  // The producer claim

  /** Two live producers never both hold the claim, and the header names the one that does. */
  lemma OneLiveProducer(s: State, h: nat, g: nat)
    requires Reachable(s) && IsProducer(s, h) && IsProducer(s, g)
    ensures h == g
    ensures s.handles[h].process in s.procs
    ensures var me := s.procs[s.handles[h].process];
            me.alive && s.mem.ownerPid == me.pid && s.mem.ownerStart == me.start
  {
    ReachableIsSafe(s);
    assert RoleOk(s.mem, s.hist, s.procs, h, s.handles[h]);
  }

  lemma IdentityStays(s: State, step: Step, p: nat)
    requires Steppable(s, step) && p in s.procs
    ensures var t := Next(s, step);
            p in t.procs && t.procs[p].pid == s.procs[p].pid && t.procs[p].start == s.procs[p].start
  {
  }

  lemma ProcessStays(s: State, step: Step, h: nat)
    requires Steppable(s, step) && h in s.handles && h in Next(s, step).handles
    ensures Next(s, step).handles[h].process == s.handles[h].process
  {
  }

  /** No step of anyone overwrites or clears the claim of a producer that survives the step. */
  lemma SurvivingClaimStays(s: State, step: Step, h: nat)
    requires Reachable(s) && Steppable(s, step) && IsProducer(s, h) && IsProducer(Next(s, step), h)
    ensures Next(s, step).mem.ownerPid == s.mem.ownerPid
    ensures Next(s, step).mem.ownerStart == s.mem.ownerStart
  {
    ReachableIsSafe(s);
    Extend(s, step);
    ProcessStays(s, step, h);
    OneLiveProducer(s, h, h);
    IdentityStays(s, step, s.handles[h].process);
    OneLiveProducer(Next(s, step), h, h);
  }

  /** A second writer is refused, whatever the system lets it see of the first. */
  lemma SecondWriterIsRefused(s: State, h: nat, g: nat, seen: Inspection)
    requires Reachable(s) && IsProducer(s, g) && Steppable(s, Look(h, seen))
    requires s.handles[h].pc.call.OpenWritable?
    ensures Next(s, Look(h, seen)).handles[h] == s.handles[h].(pc := Idle)
    ensures Next(s, Look(h, seen)).mem == s.mem && Next(s, Look(h, seen)).guard == None
  {
    ReachableIsSafe(s);
    LiveClaimIsSeen(s, g, seen);
  }

  /**
   * The processes that the system calls active: those that run, and those that are dead but left
   * STILL_ACTIVE as their exit code and are still known because somebody holds on to them.
   */
  predicate CalledActive(procs: map<nat, Process>, active: set<nat>) {
    && (forall p :: p in procs && procs[p].alive ==> p in active)
    && (forall p :: p in active ==> p in procs && procs[p].pid != 0)
    && (forall p, q :: p in active && q in active && procs[p].pid == procs[q].pid ==> p == q)
  }

  /** The system hides nothing: it says whether a process is active under the pid, and since when. */
  predicate Shown(procs: map<nat, Process>, active: set<nat>, pid: nat, seen: Inspection)
    requires CalledActive(procs, active)
  {
    match seen
    case NoSuchProcess => forall p :: p in active ==> procs[p].pid != pid
    case CannotOpen => false
    case Inspected(stillActive, actualStart) =>
      if stillActive == Some(true) then
        exists p :: p in active && procs[p].pid == pid && procs[p].start == actualStart != 0
      else stillActive == Some(false) && forall p :: p in active ==> procs[p].pid != pid
  }

  /**
   * When the system hides nothing, a claim is taken over exactly when every process that it calls
   * active under the claim's pid is told apart by a start time that was left with the claim.
   */
  lemma StaleClaimIsTakenIff(s: State, h: nat, active: set<nat>, seen: Inspection)
    requires Reachable(s) && Steppable(s, Look(h, seen)) && s.handles[h].pc.call.OpenWritable?
    requires s.mem.magic && s.mem.consumerCount > 0
    requires CalledActive(s.procs, active) && Shown(s.procs, active, s.mem.ownerPid, seen)
    ensures Next(s, Look(h, seen)).handles[h].pc.Storing? <==>
              forall p :: p in active && s.procs[p].pid == s.mem.ownerPid ==>
                s.mem.ownerStart != 0 && s.procs[p].start != s.mem.ownerStart
  {
    ReachableIsSafe(s);
  }

  /** No running process is the one that the claim names. */
  predicate OwnerIsGone(s: State) {
    forall p :: p in s.procs && s.procs[p].alive && s.procs[p].pid == s.mem.ownerPid ==>
      s.procs[p].start != s.mem.ownerStart
  }

  // ---- How a claim gets to have no start time: its producer dies inside close()

  lemma Take(s: State, step: Step) returns (t: State)
    requires Reachable(s) && Enabled(s, step)
    ensures Steppable(s, step) && t == Next(s, step) && Reachable(t)
  {
    Extend(s, step);
    t := Next(s, step);
  }

  predicate Resting(s: State, h: nat) {
    s.guard == None && h in s.handles && s.handles[h].pc == Idle && s.handles[h].role == Producer
  }

  lemma CloseBegins(s: State, h: nat) returns (t: State)
    requires Reachable(s) && Resting(s, h)
    ensures Reachable(t) && t.mem == s.mem && t.procs == s.procs && t.guard == Some(h)
    ensures h in t.handles && t.handles[h].process == s.handles[h].process
    ensures t.handles[h].pc == Storing(Unclaim, 0)
  {
    t := Take(s, Lock(h, CloseProducer));
    OneLiveProducer(s, h, h);
    t := Take(t, Look(h, NoSuchProcess));
  }

  lemma TakeStore(s: State, h: nat) returns (t: State)
    requires Reachable(s) && Enabled(s, DoStore(h))
    ensures Steppable(s, DoStore(h)) && Reachable(t) && t.procs == s.procs && t.guard == s.guard
    ensures t.mem == Perform(s.mem, StoreAt(s.handles[h].pc.job, s.handles[h].pc.done))
    ensures h in t.handles && t.handles[h].process == s.handles[h].process
  {
    t := Take(s, DoStore(h));
  }

  lemma StartTimeGoes(s: State, h: nat) returns (t: State)
    requires Reachable(s) && s.guard == Some(h) && h in s.handles && s.handles[h].pc == Storing(Unclaim, 0)
    ensures Reachable(t) && t.mem == s.mem.(ownerStart := 0) && t.procs == s.procs && t.guard == Some(h)
    ensures h in t.handles && t.handles[h].process == s.handles[h].process
  {
    t := TakeStore(s, h);
    UnclaimBegins(s.mem);
  }

  lemma UnclaimBegins(m: Memory)
    requires WellFormed(m)
    ensures Perform(m, StoreAt(Unclaim, 0)) == m.(ownerStart := 0)
  {
  }

  lemma HolderDies(s: State, h: nat, p: nat) returns (t: State)
    requires Reachable(s) && s.guard == Some(h) && h in s.handles && s.handles[h].process == p
    requires p in s.procs && s.procs[p].alive
    ensures Reachable(t) && t.mem == s.mem && t.guard == None
    ensures t.procs == s.procs[p := s.procs[p].(alive := false)]
  {
    t := Take(s, Crash(p));
  }

  lemma PidGoesTo(s: State, q: nat, pid: nat, start: nat) returns (t: State)
    requires Reachable(s) && Enabled(s, Spawn(q, pid, start))
    ensures Reachable(t) && t.mem == s.mem && t.guard == s.guard
    ensures t.procs == s.procs[q := Process(pid, start, true)]
  {
    t := Take(s, Spawn(q, pid, start));
  }

  /** Nobody else runs under the pid of a process that has just died. */
  lemma PidIsFree(s: State, p: nat, q: nat, start: nat)
    requires p in s.procs && !s.procs[p].alive && q !in s.procs
    requires LivePidsDiffer(s.procs[p := s.procs[p].(alive := true)])
    ensures Enabled(s, Spawn(q, s.procs[p].pid, start))
  {
    var before := s.procs[p := s.procs[p].(alive := true)];
    assert before[p].alive;
    forall r | r in s.procs && s.procs[r].alive ensures s.procs[r].pid != s.procs[p].pid {
      assert r in before && before[r].alive;
    }
  }

  lemma StrangerLooksLive(s: State, q: nat)
    requires Reachable(s) && q in s.procs && s.procs[q].alive && s.procs[q].pid == s.mem.ownerPid
    requires s.mem.ownerStart == 0 != s.procs[q].start
    ensures OwnerIsGone(s)
    ensures forall seen :: Faithful(s.procs, s.mem.ownerPid, seen) ==>
              ProducerClaimIsLive(s.mem.ownerPid, s.mem.ownerStart, seen)
  {
    ReachableIsSafe(s);
  }

  /**
   * Wherever a producer may close the ring, it may die between the two stores of that close; once
   * its pid has been given to a stranger q, everybody who asks takes the abandoned claim for live.
   */
  lemma DeathInCloseWedgesTheClaim(s: State, h: nat, q: nat, start: nat) returns (t: State)
    requires Reachable(s) && Resting(s, h) && q !in s.procs && start != 0
    ensures Reachable(t) && t.mem == s.mem.(ownerStart := 0) && t.guard == None
    ensures OwnerIsGone(t) && q in t.procs && t.procs[q] == Process(s.mem.ownerPid, start, true)
    ensures forall seen :: Faithful(t.procs, t.mem.ownerPid, seen) ==>
              ProducerClaimIsLive(t.mem.ownerPid, t.mem.ownerStart, seen)
  {
    OneLiveProducer(s, h, h);
    ReachableIsSafe(s);
    var p := s.handles[h].process;
    t := CloseBegins(s, h);
    t := StartTimeGoes(t, h);
    t := HolderDies(t, h, p);
    assert t.procs[p := t.procs[p].(alive := true)] == s.procs;
    PidIsFree(t, p, q, start);
    t := PidGoesTo(t, q, s.mem.ownerPid, start);
    StrangerLooksLive(t, q);
  }
}
