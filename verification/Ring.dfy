/**
 * The shared-memory frame ring as a state machine. Every store into the shared section, every
 * load of a reader and every use of the write guard is one step of one FrameRing handle; any
 * process may die between any two steps. Steps interleave in any order, sequentially
 * consistently.
 */
module Ring {
  import opened Bytes
  import opened Wrappers

  const SLOTS := 4
  const MAX_WIDTH := 3840
  const MAX_HEIGHT := 2160
  const SLOT_BYTES := MAX_WIDTH * MAX_HEIGHT * 3 / 2
  const FOURCC_NV12 := 0x3231564E
  const WORD := 0x1_0000_0000        // one past the largest uint32_t
  const ATTEMPTS := 8

  // ---------------------------------------------------------------------------
  // Frames

  /** One call of writeFrame: the bytes and what the producer says about them. */
  datatype Frame = Frame(pixels: seq<Byte>, width: nat, height: nat, stride: nat, format: nat, pts: nat)

  datatype Info = Info(width: nat, height: nat, stride: nat, format: nat, pts: nat,
                       writeSeq: nat, bytesUsed: nat)

  predicate Writable(f: Frame) {
    0 < |f.pixels| <= SLOT_BYTES
  }

  /** What a reader insists on before it lets anyone act on a frame's geometry. */
  predicate GeometryIsSane(i: Info) {
    && i.width != 0 && i.height != 0
    && i.width <= MAX_WIDTH && i.height <= MAX_HEIGHT
    && i.width % 2 == 0 && i.height % 2 == 0
    && i.stride >= i.width
    && i.format == FOURCC_NV12
    && i.stride * i.height + i.stride * i.height / 2 <= i.bytesUsed <= SLOT_BYTES
  }

  // ---------------------------------------------------------------------------
  // The shared section

  /** A slot's header fields and its pixels; an odd sequence marks a write in flight. */
  datatype Slot = Slot(sequence: nat, pts: nat, bytes: nat, width: nat, height: nat, stride: nat,
                       pixels: seq<Byte>)

  /** `magic` stands for the magic number, version and layout fields together. */
  datatype Memory = Memory(
    magic: bool, slots: seq<Slot>, writeSeq: nat, format: nat,
    consumerCount: nat, consumerGeneration: nat, ownerPid: nat, ownerStart: nat)

  function Zeroes(n: nat): (r: seq<Byte>)
    ensures |r| == n
  {
    seq(n, i => 0)
  }

  function EmptySlot(): Slot {
    Slot(0, 0, 0, 0, 0, 0, Zeroes(SLOT_BYTES))
  }

  function ZeroMemory(): Memory {
    Memory(false, [EmptySlot(), EmptySlot(), EmptySlot(), EmptySlot()], 0, 0, 0, 0, 0, 0)
  }

  predicate WellFormed(m: Memory) {
    && |m.slots| == SLOTS
    && (forall i :: 0 <= i < SLOTS ==> |m.slots[i].pixels| == SLOT_BYTES)
    && m.consumerCount < WORD && m.consumerGeneration < WORD
  }

  /** One store instruction. */
  datatype Store =
    | SetMagic
    | SetSequence(slot: nat, value: nat)
    | SetPixel(slot: nat, at: nat, byte: Byte)
    | SetPts(slot: nat, value: nat)
    | SetBytes(slot: nat, value: nat)
    | SetWidth(slot: nat, value: nat)
    | SetHeight(slot: nat, value: nat)
    | SetStride(slot: nat, value: nat)
    | SetFormat(value: nat)
    | SetWriteSeq(value: nat)
    | SetCount(value: nat)
    | SetGeneration(value: nat)
    | SetOwnerStart(value: nat)
    | SetOwnerPid(value: nat)

  predicate OnSlot(st: Store) {
    || st.SetSequence? || st.SetPixel? || st.SetPts? || st.SetBytes?
    || st.SetWidth? || st.SetHeight? || st.SetStride?
  }

  predicate InRange(st: Store) {
    && (OnSlot(st) ==> st.slot < SLOTS)
    && (st.SetPixel? ==> st.at < SLOT_BYTES)
    && (st.SetCount? || st.SetGeneration? ==> st.value < WORD)
  }

  function Perform(m: Memory, st: Store): Memory
    requires WellFormed(m) && InRange(st)
  {
    match st
    case SetMagic => m.(magic := true)
    case SetSequence(i, v) => m.(slots := m.slots[i := m.slots[i].(sequence := v)])
    case SetPixel(i, at, b) =>
      m.(slots := m.slots[i := m.slots[i].(pixels := m.slots[i].pixels[at := b])])
    case SetPts(i, v) => m.(slots := m.slots[i := m.slots[i].(pts := v)])
    case SetBytes(i, v) => m.(slots := m.slots[i := m.slots[i].(bytes := v)])
    case SetWidth(i, v) => m.(slots := m.slots[i := m.slots[i].(width := v)])
    case SetHeight(i, v) => m.(slots := m.slots[i := m.slots[i].(height := v)])
    case SetStride(i, v) => m.(slots := m.slots[i := m.slots[i].(stride := v)])
    case SetFormat(v) => m.(format := v)
    case SetWriteSeq(v) => m.(writeSeq := v)
    case SetCount(v) => m.(consumerCount := v)
    case SetGeneration(v) => m.(consumerGeneration := v)
    case SetOwnerStart(v) => m.(ownerStart := v)
    case SetOwnerPid(v) => m.(ownerPid := v)
  }

  // ---------------------------------------------------------------------------
  // The store sequences of the guarded operations, in program order

  /** What a handle is storing, with the values it loaded when it took the guard. */
  datatype Job =
    | Initialise
    | Advance(generation: nat)                     // create() as the first consumer again
    | Clear                                        // ... which then resets what was published
    | Join(count: nat)
    | Leave(count: nat)
    | Claim(pid: nat, start: nat)
    | Unclaim
    | Mark(frame: Frame, seqNo: nat, odd: nat)     // writeFrame, up to its second check
    | Commit(frame: Frame, seqNo: nat, odd: nat)   // ... and from there on

  function Next32(v: nat): (r: nat)
    ensures r < WORD
  {
    (v + 1) % WORD
  }

  function Length(job: Job): nat {
    match job
    case Initialise => 3
    case Advance(g) => if Next32(g) == 0 then 2 else 1
    case Clear => 2 + 6 * SLOTS + 1
    case Join(_) => 1
    case Leave(count) => if count == 0 then 2 else 1
    case Claim(_, _) => 2
    case Unclaim => 2
    case Mark(f, _, _) => 1 + |f.pixels| + 5
    case Commit(_, _, _) => 3
  }

  predicate Proper(job: Job) {
    && (job.Join? ==> 0 < job.count < WORD - 1)
    && (job.Leave? ==> job.count < WORD)
    && (job.Mark? || job.Commit? ==> Writable(job.frame))
  }

  function StoreAt(job: Job, k: nat): (st: Store)
    requires Proper(job) && k < Length(job)
    ensures InRange(st)
  {
    match job
    case Initialise => if k == 0 then SetGeneration(1) else if k == 1 then SetCount(1) else SetMagic
    case Advance(g) => SetGeneration(if k == 0 then Next32(g) else 1)
    case Clear =>
      if k == 0 then SetFormat(0) else if k == 1 then SetWriteSeq(0)
      else if k < 2 + 6 * SLOTS then ClearAt((k - 2) / 6, (k - 2) % 6)
      else SetCount(1)
    case Join(count) => SetCount(count + 1)
    case Leave(count) => SetCount(if k == 1 then 0 else if count == 0 then WORD - 1 else count - 1)
    case Claim(pid, start) => if k == 0 then SetOwnerStart(start) else SetOwnerPid(pid)
    case Unclaim => if k == 0 then SetOwnerStart(0) else SetOwnerPid(0)
    case Mark(f, seqNo, odd) => MarkAt(f, seqNo % SLOTS, odd, k)
    case Commit(f, seqNo, odd) =>
      if k == 0 then SetSequence(seqNo % SLOTS, odd + 1)
      else if k == 1 then SetFormat(f.format)
      else SetWriteSeq(seqNo + 1)
  }

  function ClearAt(slot: nat, field: nat): (st: Store)
    requires slot < SLOTS && field < 6
    ensures InRange(st)
  {
    if field == 0 then SetSequence(slot, 0)
    else if field == 1 then SetPts(slot, 0)
    else if field == 2 then SetBytes(slot, 0)
    else if field == 3 then SetWidth(slot, 0)
    else if field == 4 then SetHeight(slot, 0)
    else SetStride(slot, 0)
  }

  function MarkAt(f: Frame, slot: nat, odd: nat, k: nat): (st: Store)
    requires Writable(f) && slot < SLOTS && k < 1 + |f.pixels| + 5
    ensures InRange(st)
  {
    var n := |f.pixels|;
    if k == 0 then SetSequence(slot, odd)
    else if k <= n then SetPixel(slot, k - 1, f.pixels[k - 1])
    else if k == n + 1 then SetPts(slot, f.pts)
    else if k == n + 2 then SetBytes(slot, n)
    else if k == n + 3 then SetWidth(slot, f.width)
    else if k == n + 4 then SetHeight(slot, f.height)
    else SetStride(slot, f.stride)
  }

  /** Odd, and above the slot's old sequence, also when a dead producer left that odd. */
  function WritingSequence(sequence: nat): (r: nat)
    ensures r % 2 == 1 && r > sequence
  {
    sequence + (if sequence % 2 == 1 then 2 else 1)
  }

  // ---------------------------------------------------------------------------
  // Readers

  /**
   * An attempt of readLatest. `loaded` holds the header fields read so far, in program order:
   * bytes, width, height, stride, format, pts. `floor` is not in the program: it records how
   * many frames had been published when the attempt began.
   */
  datatype Reader = Reader(
    capacity: nat, attempt: nat, seqNo: nat, before: Option<nat>, loaded: seq<nat>,
    copied: seq<Byte>, floor: nat)

  const FIELDS := 6
  const FORMAT_FIELD := 4

  function FieldOf(m: Memory, slot: nat, k: nat): nat
    requires WellFormed(m) && slot < SLOTS && k < FIELDS
  {
    if k == 0 then m.slots[slot].bytes
    else if k == 1 then m.slots[slot].width
    else if k == 2 then m.slots[slot].height
    else if k == 3 then m.slots[slot].stride
    else if k == FORMAT_FIELD then m.format
    else m.slots[slot].pts
  }

  function Candidate(r: Reader): Info
    requires |r.loaded| == FIELDS
  {
    Info(r.loaded[1], r.loaded[2], r.loaded[3], r.loaded[4], r.loaded[5], r.seqNo, r.loaded[0])
  }

  function ReadSlot(r: Reader): (slot: nat)
    requires r.seqNo > 0
    ensures slot < SLOTS
  {
    (r.seqNo - 1) % SLOTS
  }

  datatype ReadResult = Nothing | TooSmall | Got(info: Info, pixels: seq<Byte>)

  // ---------------------------------------------------------------------------
  // Processes and handles

  /** `start` is the creation time as the process reads its own, 0 when it cannot. */
  datatype Process = Process(pid: nat, start: nat, alive: bool)

  datatype Role = Detached | Consumer | Producer

  /** A call that holds the guard and has not looked at the header yet. */
  datatype Call =
    | CreateFirst           // create() by the process that made the section
    | Create                // create() on a section that existed
    | OpenWritable
    | CloseConsumer
    | CloseProducer
    | WriteFrame(frame: Frame)

  datatype Pc = Idle | Guarded(call: Call) | Storing(job: Job, done: nat) | Reading(reader: Reader)

  /**
   * A FrameRing instance. `bound` is not in the program: it is how often the generation had
   * been advanced when the handle recorded it.
   */
  datatype Handle = Handle(process: nat, role: Role, generation: nat, bound: nat, pc: Pc)

  // ---------------------------------------------------------------------------
  // Liveness of a claim

  /** What the operating system says about a pid: no such process, no permission, or this. */
  datatype Inspection =
    | NoSuchProcess
    | CannotOpen
    | Inspected(stillActive: Option<bool>, actualStart: nat)

  function ProducerClaimIsLive(pid: nat, startTime: nat, seen: Inspection): bool {
    if pid == 0 then false
    else match seen
      case NoSuchProcess => false
      case CannotOpen => true
      case Inspected(stillActive, actualStart) =>
        if stillActive == Some(false) then false
        else if startTime != 0 && actualStart != 0 && actualStart != startTime then false
        else true
  }

  /** The system may withhold what it knows of a running process but does not lie about it. */
  predicate Faithful(procs: map<nat, Process>, pid: nat, seen: Inspection) {
    forall p :: p in procs && procs[p].alive && procs[p].pid == pid ==>
      match seen
      case NoSuchProcess => false
      case CannotOpen => true
      case Inspected(stillActive, actualStart) =>
        && stillActive != Some(false)
        && (actualStart == 0 || procs[p].start == 0 || actualStart == procs[p].start)
  }

  // ---------------------------------------------------------------------------
  // The whole system

  /** A frame whose slot was marked stable, by a writer bound to generation number `bound`. */
  datatype Entry = Entry(frame: Frame, writer: nat, bound: nat, epoch: nat)

  /**
   * Bookkeeping that is not in the program. `epoch` counts the generation stores, `counted` the
   * handles that consumerCount stands for, `log` every frame completed; `home[i]` and `last` are
   * one past the log index of the frame in slot i and of the last frame published, or 0.
   */
  datatype History = History(epoch: nat, counted: set<nat>, log: seq<Entry>, home: seq<nat>, last: nat)

  datatype State = State(
    mem: Memory, guard: Option<nat>, maker: Option<nat>,
    procs: map<nat, Process>, handles: map<nat, Handle>, hist: History)

  const NO_HISTORY := History(0, {}, [], [0, 0, 0, 0], 0)

  /** Handle `maker`, of process `p`, has just made the section and is still inside create(). */
  predicate Init(s: State) {
    && s.mem == ZeroMemory() && s.guard == None && s.hist == NO_HISTORY
    && s.maker.Some? && s.maker.value in s.handles
    && (forall h :: h in s.handles ==>
          && s.handles[h].pc == Idle && s.handles[h].role == Detached
          && s.handles[h].process in s.procs && s.procs[s.handles[h].process].alive)
    && LivePidsDiffer(s.procs)
  }

  predicate LivePidsDiffer(procs: map<nat, Process>) {
    && (forall p :: p in procs && procs[p].alive ==> procs[p].pid != 0)
    && (forall p, q :: p in procs && q in procs && procs[p].alive && procs[q].alive && procs[p].pid == procs[q].pid
          ==> p == q)
  }

  datatype Step =
    | Spawn(p: nat, pid: nat, start: nat)
    | Crash(p: nat)
    | Construct(h: nat, p: nat)
    | Lock(h: nat, call: Call)
    | Look(h: nat, seen: Inspection)
    | DoStore(h: nat)
    | Finish(h: nat)
    | StartRead(h: nat, capacity: nat)
    | Read(h: nat)

  predicate Enabled(s: State, step: Step) {
    match step
    case Spawn(p, pid, start) =>
      && p !in s.procs && pid != 0
      && (forall q :: q in s.procs && s.procs[q].alive ==> s.procs[q].pid != pid)
    case Crash(p) => p in s.procs && s.procs[p].alive
    case Construct(h, p) => h !in s.handles && p in s.procs && s.procs[p].alive
    case Lock(h, call) =>
      && s.guard == None && h in s.handles && s.handles[h].pc == Idle
      && (call.WriteFrame? ==> Writable(call.frame))
      && MayCall(s, h, call)
    case Look(h, seen) =>
      && h in s.handles && s.handles[h].pc.Guarded?
      && (s.handles[h].pc.call.OpenWritable? ==> Faithful(s.procs, s.mem.ownerPid, seen))
    case DoStore(h) =>
      h in s.handles && s.handles[h].pc.Storing? && s.handles[h].pc.done < Length(s.handles[h].pc.job)
    case Finish(h) =>
      h in s.handles && s.handles[h].pc.Storing? && s.handles[h].pc.done == Length(s.handles[h].pc.job)
    case StartRead(h, _) => h in s.handles && s.handles[h].pc == Idle && s.handles[h].role == Consumer
    case Read(h) => h in s.handles && s.handles[h].pc.Reading?
  }

  predicate MayCall(s: State, h: nat, call: Call)
    requires h in s.handles
  {
    var role := s.handles[h].role;
    match call
    case CreateFirst => s.maker == Some(h)
    case Create => role == Detached && s.maker != Some(h)
    case OpenWritable => role == Detached && s.maker != Some(h)
    case CloseConsumer => role == Consumer
    case CloseProducer => role == Producer
    case WriteFrame(_) => role != Detached
  }

  function At(s: State, h: nat, x: Handle): State {
    s.(handles := s.handles[h := x])
  }

  /** The holder of the guard goes on, or gives the guard back and leaves the call. */
  function Settle(s: State, h: nat, x: Handle): State {
    At(s, h, x).(guard := if x.pc == Idle then None else s.guard)
  }

  function Leaves(x: Handle): Handle { x.(pc := Idle) }
  function Stores(x: Handle, job: Job): Handle { x.(pc := Storing(job, 0)) }

  // ---- Taking the guard and looking at the header. Only the holder of the guard stores, so
  // ---- the loads made under it are one step.

  function Looked(m: Memory, x: Handle, me: Process, seen: Inspection): Handle
    requires WellFormed(m) && x.pc.Guarded?
  {
    match x.pc.call
    case CreateFirst => Stores(x, Initialise)
    case Create =>
      if !m.magic then Leaves(x)
      else if m.consumerCount == 0 then Stores(x, Advance(m.consumerGeneration))
      else if m.consumerCount == WORD - 1 then Leaves(x)
      else Stores(x, Join(m.consumerCount))
    case OpenWritable =>
      if !m.magic || m.consumerCount == 0 || ProducerClaimIsLive(m.ownerPid, m.ownerStart, seen)
      then Leaves(x)
      else Stores(x, Claim(me.pid, me.start))
    case CloseConsumer => Stores(x, Leave(m.consumerCount))
    case CloseProducer =>
      if m.ownerPid == me.pid && m.ownerStart == me.start
      then Stores(x.(role := Detached), Unclaim)
      else Leaves(x.(role := Detached))
    case WriteFrame(f) =>
      if !m.magic || m.consumerCount == 0 || m.consumerGeneration != x.generation then Leaves(x)
      else Stores(x, Mark(f, m.writeSeq, WritingSequence(m.slots[m.writeSeq % SLOTS].sequence)))
  }

  // ---- Storing

  /** What a store means to the bookkeeping. */
  function Recorded(hist: History, h: nat, x: Handle, job: Job, k: nat): History
    requires |hist.home| == SLOTS && Proper(job) && k < Length(job)
  {
    match job
    case Initialise =>
      if k == 0 then hist.(epoch := hist.epoch + 1)
      else if k == 1 then hist.(counted := hist.counted + {h})
      else hist
    case Advance(_) => hist.(epoch := hist.epoch + 1)
    case Clear =>
      var st := StoreAt(job, k);
      if st.SetSequence? then hist.(home := hist.home[st.slot := 0])
      else if st.SetCount? then hist.(counted := hist.counted + {h})
      else hist
    case Join(_) => hist.(counted := hist.counted + {h})
    case Leave(_) => hist.(counted := hist.counted - {h})
    case Claim(_, _) => hist
    case Unclaim => hist
    case Mark(_, _, _) => hist
    case Commit(f, seqNo, _) =>
      if k == 0 then
        hist.(log := hist.log + [Entry(f, h, x.bound, hist.epoch)],
              home := hist.home[seqNo % SLOTS := |hist.log| + 1])
      else if k == 1 then hist
      else hist.(last := |hist.log|)
  }

  function Stored(s: State, h: nat): State
    requires WellFormed(s.mem) && |s.hist.home| == SLOTS
    requires Enabled(s, DoStore(h)) && Proper(s.handles[h].pc.job)
  {
    var x := s.handles[h];
    var job, k := x.pc.job, x.pc.done;
    At(s, h, x.(pc := Storing(job, k + 1), role := if job.Leave? then Detached else x.role))
      .(mem := Perform(s.mem, StoreAt(job, k)), hist := Recorded(s.hist, h, x, job, k))
  }

  /** The handle's own fields, set from the header before the guard goes back. */
  function Bound(m: Memory, hist: History, x: Handle, role: Role): Handle {
    x.(role := role, generation := m.consumerGeneration, bound := hist.epoch, pc := Idle)
  }

  function Finished(m: Memory, hist: History, x: Handle): Handle
    requires x.pc.Storing?
  {
    match x.pc.job
    case Advance(_) => Stores(x, Clear)
    case Initialise => Bound(m, hist, x, Consumer)
    case Clear => Bound(m, hist, x, Consumer)
    case Join(_) => Bound(m, hist, x, Consumer)
    case Claim(_, _) => Bound(m, hist, x, Producer)
    case Leave(_) => Leaves(x)
    case Unclaim => Leaves(x)
    case Mark(f, seqNo, odd) =>
      if m.consumerCount == 0 || m.consumerGeneration != x.generation then Leaves(x)
      else Stores(x, Commit(f, seqNo, odd))
    case Commit(_, _, _) => Leaves(x)
  }

  // ---- Reading

  datatype Progress = Continue(reader: Reader) | Return(result: ReadResult)

  /** The next attempt, unless this was the last. */
  function Retry(r: Reader): Progress {
    if r.attempt + 1 < ATTEMPTS
    then Continue(Reader(r.capacity, r.attempt + 1, 0, None, [], [], 0))
    else Return(Nothing)
  }

  /** The next load of readLatest, and what the program does with it. */
  function ReadStep(m: Memory, hist: History, r: Reader): Progress
    requires WellFormed(m) && |r.loaded| <= FIELDS
    requires r.before.Some? && |r.loaded| == FIELDS ==> |r.copied| <= r.loaded[0] <= SLOT_BYTES
  {
    if r.seqNo == 0 then
      if m.writeSeq == 0 then Return(Nothing)
      else Continue(r.(seqNo := m.writeSeq, floor := hist.last))
    else if r.before == None then
      var before := m.slots[ReadSlot(r)].sequence;
      if before % 2 == 1 then Retry(r) else Continue(r.(before := Some(before)))
    else if |r.loaded| < FIELDS then Load(m, r)
    else if |r.copied| < r.loaded[0] then
      Continue(r.(copied := r.copied + [m.slots[ReadSlot(r)].pixels[|r.copied|]]))
    else if m.slots[ReadSlot(r)].sequence != r.before.value then Retry(r)
    else Return(Got(Candidate(r), r.copied))
  }

  function Load(m: Memory, r: Reader): Progress
    requires WellFormed(m) && r.seqNo > 0 && |r.loaded| < FIELDS
  {
    var value := FieldOf(m, ReadSlot(r), |r.loaded|);
    var next := r.(loaded := r.loaded + [value]);
    if |r.loaded| == 0 && (value == 0 || value > SLOT_BYTES) then Retry(r)
    else if |r.loaded| == 0 && value > r.capacity then Return(TooSmall)
    else if |next.loaded| == FIELDS && !GeometryIsSane(Candidate(next)) then Return(Nothing)
    else Continue(next)
  }

  predicate ReaderSized(r: Reader) {
    && |r.loaded| <= FIELDS && (|r.loaded| > 0 ==> r.loaded[0] <= SLOT_BYTES)
    && |r.copied| <= (if |r.loaded| > 0 then r.loaded[0] else 0)
  }

  // ---- One step of anybody

  predicate Steppable(s: State, step: Step) {
    && Enabled(s, step) && WellFormed(s.mem) && |s.hist.home| == SLOTS
    && (step.Look? ==> s.handles[step.h].process in s.procs)
    && (step.DoStore? ==> Proper(s.handles[step.h].pc.job))
    && (step.Read? ==> ReaderSized(s.handles[step.h].pc.reader))
  }

  function Next(s: State, step: Step): State
    requires Steppable(s, step)
  {
    match step
    case Spawn(p, pid, start) => s.(procs := s.procs[p := Process(pid, start, true)])
    case Crash(p) => Crashed(s, p)
    case Construct(h, p) => At(s, h, Handle(p, Detached, 0, 0, Idle))
    case Lock(h, call) =>
      At(s, h, s.handles[h].(pc := Guarded(call)))
        .(guard := Some(h), maker := if call.CreateFirst? then None else s.maker)
    case Look(h, seen) =>
      Settle(s, h, Looked(s.mem, s.handles[h], s.procs[s.handles[h].process], seen))
    case DoStore(h) => Stored(s, h)
    case Finish(h) => Settle(s, h, Finished(s.mem, s.hist, s.handles[h]))
    case StartRead(h, capacity) =>
      At(s, h, s.handles[h].(pc := Reading(Reader(capacity, 0, 0, None, [], [], 0))))
    case Read(h) =>
      match ReadStep(s.mem, s.hist, s.handles[h].pc.reader)
      case Continue(r) => At(s, h, s.handles[h].(pc := Reading(r)))
      case Return(_) => At(s, h, s.handles[h].(pc := Idle))
  }

  /** A process dies: its handles vanish, and a guard it held is abandoned to the next taker. */
  function Crashed(s: State, p: nat): State
    requires p in s.procs
  {
    s.(procs := s.procs[p := s.procs[p].(alive := false)],
       handles := map h | h in s.handles && s.handles[h].process != p :: s.handles[h],
       guard := if s.guard.Some? && Dies(s, p, s.guard.value) then None else s.guard,
       maker := if s.maker.Some? && Dies(s, p, s.maker.value) then None else s.maker)
  }

  predicate Dies(s: State, p: nat, h: nat) {
    h in s.handles && s.handles[h].process == p
  }
}
