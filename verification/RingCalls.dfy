/**
 * What each guarded call of the frame ring amounts to when its handle is left alone with it, from
 * the lock to the unlock: the whole section afterwards, and what the handle has become.
 */
module RingCalls {
  import opened Bytes
  import opened Ring
  import opened RingInvariant
  import opened RingSafety
  import opened RingPromises
  import opened Wrappers
  import F = FrameRing

  // ---------------------------------------------------------------------------
  // A handle left alone with its call

  /** What the holder of the guard does next. */
  function OwnStep(pc: Pc, h: nat, seen: Inspection): Step {
    if !pc.Storing? then Look(h, seen)
    else if pc.done < Length(pc.job) then DoStore(h)
    else Finish(h)
  }

  predicate CanGoOn(s: State, h: nat, seen: Inspection) {
    h in s.handles && Critical(s.handles[h].pc) && Steppable(s, OwnStep(s.handles[h].pc, h, seen))
  }

  function OneFurther(s: State, h: nat, seen: Inspection): State {
    if CanGoOn(s, h, seen) then Next(s, OwnStep(s.handles[h].pc, h, seen)) else s
  }

  /** Handle h goes on with its call while nobody else steps: to its end, or for n steps. */
  function GoesOn(s: State, h: nat, seen: Inspection, n: nat): State {
    if n == 0 then s else OneFurther(GoesOn(s, h, seen, n - 1), h, seen)
  }

  /** More steps than any call takes: the longest is a writeFrame that fills its slot. */
  const CALL_STEPS := SLOT_BYTES + 100

  /** Handle h makes a call and is left alone with it. */
  function Called(s: State, h: nat, call: Call, seen: Inspection): State
    requires Steppable(s, Lock(h, call))
  {
    GoesOn(Next(s, Lock(h, call)), h, seen, CALL_STEPS)
  }

  /** The call may be made, and what the system says of the claim's pid, if asked, is no lie. */
  predicate MayBegin(s: State, h: nat, call: Call, seen: Inspection) {
    Steppable(s, Lock(h, call)) && (call.OpenWritable? ==> Faithful(s.procs, s.mem.ownerPid, seen))
  }

  /** Handle h is out of its call: the guard is free, and h alone has changed. */
  ghost predicate Returned(s: State, h: nat, t: State) {
    && Reachable(t) && t.guard == None && t.procs == s.procs
    && h in s.handles && h in t.handles && t.handles == s.handles[h := t.handles[h]]
    && t.handles[h].pc == Idle && t.handles[h].process == s.handles[h].process
  }

  lemma MovesTo(t: State, h: nat, seen: Inspection, step: Step, next: State)
    requires h in t.handles && Critical(t.handles[h].pc) && step == OwnStep(t.handles[h].pc, h, seen)
    requires Steppable(t, step) && next == Next(t, step)
    ensures OneFurther(t, h, seen) == next
  {
  }

  lemma GoesOneFurther(s: State, h: nat, seen: Inspection, n: nat, t: State, next: State)
    requires n > 0 && t == GoesOn(s, h, seen, n - 1) && next == OneFurther(t, h, seen)
    ensures next == GoesOn(s, h, seen, n)
  {
  }

  /** Out of its call the handle has no step of its own. */
  lemma StaysPut(s: State, h: nat, seen: Inspection, n: nat, t: State, m: nat)
    requires t == GoesOn(s, h, seen, n) && n <= m && h in t.handles && !Critical(t.handles[h].pc)
    ensures t == GoesOn(s, h, seen, m)
  {
    assert OneFurther(t, h, seen) == t;
    for k := n to m
      invariant t == GoesOn(s, h, seen, k)
    {
      assert GoesOn(s, h, seen, k + 1) == OneFurther(GoesOn(s, h, seen, k), h, seen);
    }
  }

  // ---- The stores of one job

  /** The handle at store k of its job. */
  function AtStore(x: Handle, job: Job, k: nat): Handle {
    x.(pc := Storing(job, k), role := if job.Leave? && k > 0 then Detached else x.role)
  }

  predicate Holding(s: State, h: nat, job: Job, k: nat) {
    Proper(job) && k <= Length(job) && h in s.handles && s.handles[h].pc == Storing(job, k)
  }

  /** Only the section and handle h differ, and perhaps who has the guard. */
  predicate OnlyHandle(s: State, t: State, h: nat, x: Handle) {
    t.handles == s.handles[h := x] && t.procs == s.procs && t.maker == s.maker
  }

  lemma StoredIs(s: State, h: nat, job: Job, k: nat)
    requires Steppable(s, DoStore(h)) && Holding(s, h, job, k) && k < Length(job)
    ensures Stored(s, h).mem == Perform(s.mem, StoreAt(job, k)) && Stored(s, h).guard == s.guard
    ensures OnlyHandle(s, Stored(s, h), h, AtStore(s.handles[h], job, k + 1))
  {
  }

  lemma StoreStep(s: State, h: nat, job: Job, k: nat)
    requires Reachable(s) && Holding(s, h, job, k) && k < Length(job)
    ensures Steppable(s, DoStore(h)) && Reachable(Next(s, DoStore(h)))
    ensures WellFormed(s.mem) && Next(s, DoStore(h)).mem == Perform(s.mem, StoreAt(job, k))
    ensures OnlyHandle(s, Next(s, DoStore(h)), h, AtStore(s.handles[h], job, k + 1))
    ensures Next(s, DoStore(h)).guard == s.guard
  {
    Extend(s, DoStore(h));
    StoredIs(s, h, job, k);
    assert Next(s, DoStore(h)) == Stored(s, h);
  }

  lemma FinishStep(s: State, h: nat, job: Job)
    requires Reachable(s) && Holding(s, h, job, Length(job))
    ensures Steppable(s, Finish(h)) && Reachable(Next(s, Finish(h))) && Next(s, Finish(h)).mem == s.mem
    ensures var y := Finished(s.mem, s.hist, s.handles[h]);
            OnlyHandle(s, Next(s, Finish(h)), h, y)
            && Next(s, Finish(h)).guard == if y.pc == Idle then None else s.guard
  {
    Extend(s, Finish(h));
  }

  /** After k stores of the job. */
  ghost predicate StoredUpTo(s: State, t: State, h: nat, job: Job, k: nat)
    requires h in s.handles && WellFormed(s.mem) && Proper(job) && k <= Length(job)
  {
    && Reachable(t) && t.mem == F.RunTo(s.mem, job, k)
    && OnlyHandle(s, t, h, AtStore(s.handles[h], job, k)) && t.guard == s.guard
  }

  lemma StoredOneMore(s: State, t: State, h: nat, job: Job, k: nat)
    requires h in s.handles && WellFormed(s.mem) && Proper(job) && k < Length(job)
    requires StoredUpTo(s, t, h, job, k)
    ensures Steppable(t, DoStore(h)) && StoredUpTo(s, Next(t, DoStore(h)), h, job, k + 1)
  {
    StoreStep(t, h, job, k);
    RunsOneMore(s.mem, t.mem, job, k);
    var x := s.handles[h];
    assert AtStore(AtStore(x, job, k), job, k + 1) == AtStore(x, job, k + 1);
    SetTwice(s.handles, h, AtStore(x, job, k), AtStore(x, job, k + 1));
  }

  lemma SetTwice(handles: map<nat, Handle>, h: nat, x: Handle, y: Handle)
    ensures handles[h := x][h := y] == handles[h := y]
  {
  }

  lemma RunsOneMore(m: Memory, before: Memory, job: Job, k: nat)
    requires WellFormed(m) && Proper(job) && k < Length(job) && before == F.RunTo(m, job, k)
    ensures Perform(before, StoreAt(job, k)) == F.RunTo(m, job, k + 1)
  {
  }

  /** Those k stores bring h to step n of its call. */
  ghost predicate StoresReach(start: State, n: nat, s: State, h: nat, seen: Inspection, job: Job, k: nat, t: State)
    requires h in s.handles && WellFormed(s.mem) && Proper(job) && k <= Length(job)
  {
    t == GoesOn(start, h, seen, n) && StoredUpTo(s, t, h, job, k)
  }

  lemma StoresNext(s: State, h: nat, seen: Inspection, job: Job, k: nat, before: State) returns (t: State)
    requires h in s.handles && WellFormed(s.mem) && Proper(job) && 0 < k <= Length(job)
    requires StoredUpTo(s, before, h, job, k - 1)
    ensures t == OneFurther(before, h, seen) && StoredUpTo(s, t, h, job, k)
  {
    StoredOneMore(s, before, h, job, k - 1);
    t := Next(before, DoStore(h));
    AtStoreK(s.handles[h], before.handles[h], job, k - 1, h, seen);
    MovesTo(before, h, seen, DoStore(h), t);
  }

  lemma OneMoreStore(start: State, n: nat, s: State, h: nat, seen: Inspection, job: Job, k: nat, before: State)
    returns (t: State)
    requires h in s.handles && WellFormed(s.mem) && Proper(job) && 0 < k <= Length(job) && n > 0
    requires StoresReach(start, n - 1, s, h, seen, job, k - 1, before)
    ensures StoresReach(start, n, s, h, seen, job, k, t)
  {
    t := StoresNext(s, h, seen, job, k, before);
    GoesOneFurther(start, h, seen, n, before, t);
  }

  lemma NoStoreYet(start: State, n: nat, s: State, h: nat, seen: Inspection, job: Job)
    requires s == GoesOn(start, h, seen, n)
    requires Reachable(s) && WellFormed(s.mem) && Holding(s, h, job, 0)
    ensures StoresReach(start, n, s, h, seen, job, 0, s)
  {
    assert s.handles[h := AtStore(s.handles[h], job, 0)] == s.handles;
  }

  lemma StoresAlone(start: State, n: nat, s: State, h: nat, seen: Inspection, job: Job) returns (m: nat, t: State)
    requires s == GoesOn(start, h, seen, n)
    requires Reachable(s) && WellFormed(s.mem) && Holding(s, h, job, 0)
    ensures m == n + Length(job) && StoresReach(start, m, s, h, seen, job, Length(job), t)
  {
    NoStoreYet(start, n, s, h, seen, job);
    m, t := n, s;
    for k := 0 to Length(job)
      invariant m == n + k && StoresReach(start, m, s, h, seen, job, k, t)
    {
      t := OneMoreStore(start, m + 1, s, h, seen, job, k + 1, t);
      m := m + 1;
    }
  }

  lemma AtStoreK(x: Handle, y: Handle, job: Job, k: nat, h: nat, seen: Inspection)
    requires y == AtStore(x, job, k)
    ensures Critical(y.pc) && y.pc == Storing(job, k)
    ensures OwnStep(y.pc, h, seen) == if k < Length(job) then DoStore(h) else Finish(h)
  {
  }

  /** What the end of a job makes of the handle that took its guard in state s. */
  ghost predicate JobDone(s: State, t: State, h: nat, job: Job, y: Handle)
    requires h in s.handles && WellFormed(s.mem) && Proper(job)
  {
    && Reachable(t) && t.mem == F.Run(s.mem, job)
    && y == Finished(t.mem, t.hist, AtStore(s.handles[h], job, Length(job)))
    && OnlyHandle(s, t, h, y) && t.guard == if y.pc == Idle then None else s.guard
  }

  lemma EndOfJob(s: State, t: State, h: nat, job: Job)
    requires h in s.handles && WellFormed(s.mem) && Proper(job) && StoredUpTo(s, t, h, job, Length(job))
    ensures Steppable(t, Finish(h))
    ensures JobDone(s, Next(t, Finish(h)), h, job, Finished(t.mem, t.hist, t.handles[h]))
  {
    FinishStep(t, h, job);
    SetTwice(s.handles, h, t.handles[h], Finished(t.mem, t.hist, t.handles[h]));
  }

  /** The whole job. */
  lemma JobAlone(start: State, n: nat, s: State, h: nat, seen: Inspection, job: Job)
    returns (m: nat, t: State, y: Handle)
    requires s == GoesOn(start, h, seen, n)
    requires Reachable(s) && WellFormed(s.mem) && Holding(s, h, job, 0)
    ensures t == GoesOn(start, h, seen, m) && m == n + Length(job) + 1 && JobDone(s, t, h, job, y)
  {
    var end;
    m, end := StoresAlone(start, n, s, h, seen, job);
    EndOfJob(s, end, h, job);
    t, y := Next(end, Finish(h)), Finished(end.mem, end.hist, end.handles[h]);
    AtStoreK(s.handles[h], end.handles[h], job, Length(job), h, seen);
    MovesTo(end, h, seen, Finish(h), t);
    GoesOneFurther(start, h, seen, m + 1, end, t);
    m := m + 1;
  }

  // ---------------------------------------------------------------------------
  // What the stores of a job amount to

  lemma LeaveRuns(m: Memory, count: nat)
    requires WellFormed(m) && 0 < count < WORD
    ensures F.Run(m, Leave(count)) == m.(consumerCount := count - 1)
  {
    assert F.RunTo(m, Leave(count), 1) == Perform(F.RunTo(m, Leave(count), 0), SetCount(count - 1));
  }

  lemma JoinRuns(m: Memory, count: nat)
    requires WellFormed(m) && 0 < count < WORD - 1
    ensures F.Run(m, Join(count)) == m.(consumerCount := count + 1)
  {
    assert F.RunTo(m, Join(count), 1) == Perform(F.RunTo(m, Join(count), 0), SetCount(count + 1));
  }

  lemma ClaimRuns(m: Memory, pid: nat, start: nat)
    requires WellFormed(m)
    ensures F.Run(m, Claim(pid, start)) == m.(ownerPid := pid, ownerStart := start)
  {
    var one := F.RunTo(m, Claim(pid, start), 1);
    assert one == Perform(F.RunTo(m, Claim(pid, start), 0), SetOwnerStart(start));
    assert F.RunTo(m, Claim(pid, start), 2) == Perform(one, SetOwnerPid(pid));
  }

  lemma UnclaimRuns(m: Memory)
    requires WellFormed(m)
    ensures F.Run(m, Unclaim) == m.(ownerPid := 0, ownerStart := 0)
  {
    var one := F.RunTo(m, Unclaim, 1);
    assert one == Perform(F.RunTo(m, Unclaim, 0), SetOwnerStart(0));
    assert F.RunTo(m, Unclaim, 2) == Perform(one, SetOwnerPid(0));
  }

  lemma InitialiseRuns(m: Memory)
    requires WellFormed(m)
    ensures F.Run(m, Initialise) == m.(consumerGeneration := 1, consumerCount := 1, magic := true)
  {
    var one := F.RunTo(m, Initialise, 1);
    assert one == Perform(F.RunTo(m, Initialise, 0), SetGeneration(1));
    var two := F.RunTo(m, Initialise, 2);
    assert two == Perform(one, SetCount(1));
    assert F.RunTo(m, Initialise, 3) == Perform(two, SetMagic);
  }

  /** The generation after g: 0 is never one. */
  function NextGeneration(g: nat): nat {
    if g == WORD - 1 then 1 else g + 1
  }

  lemma AdvanceRuns(m: Memory, g: nat)
    requires WellFormed(m) && g < WORD
    ensures F.Run(m, Advance(g)) == m.(consumerGeneration := NextGeneration(g))
  {
    var one := F.RunTo(m, Advance(g), 1);
    assert one == Perform(F.RunTo(m, Advance(g), 0), SetGeneration(Next32(g)));
    if Next32(g) == 0 {
      assert F.RunTo(m, Advance(g), 2) == Perform(one, SetGeneration(1));
    }
  }

  /** A slot that says nothing of a frame; the pixels are left where they are. */
  function Bare(slot: Slot): Slot {
    Slot(0, 0, 0, 0, 0, 0, slot.pixels)
  }

  /** The first k of the six fields that a new generation zeroes. */
  function Wiped(slot: Slot, k: int): Slot {
    Slot(if k > 0 then 0 else slot.sequence, if k > 1 then 0 else slot.pts, if k > 2 then 0 else slot.bytes,
         if k > 3 then 0 else slot.width, if k > 4 then 0 else slot.height, if k > 5 then 0 else slot.stride,
         slot.pixels)
  }

  /** After k of the stores that clear what was published. */
  predicate ClearedTo(m: Memory, r: Memory, k: nat) {
    && |m.slots| == |r.slots| == SLOTS
    && r == m.(slots := r.slots, format := if k > 0 then 0 else m.format,
               writeSeq := if k > 1 then 0 else m.writeSeq)
    && forall j :: 0 <= j < SLOTS ==> r.slots[j] == Wiped(m.slots[j], k - 2 - 6 * j)
  }

  lemma ClearsOneMore(m: Memory, r: Memory, k: nat)
    requires WellFormed(r) && ClearedTo(m, r, k) && k < 2 + 6 * SLOTS
    ensures ClearedTo(m, Perform(r, StoreAt(Clear, k)), k + 1)
  {
    if k >= 2 {
      assert k - 2 - 6 * ((k - 2) / 6) == (k - 2) % 6;
    }
  }

  lemma ClearStep(m: Memory, before: Memory, k: nat, n: nat) returns (r: Memory)
    requires WellFormed(m) && k < 2 + 6 * SLOTS && n == k + 1
    requires before == F.RunTo(m, Clear, k) && ClearedTo(m, before, k)
    ensures r == F.RunTo(m, Clear, n) && ClearedTo(m, r, n)
  {
    r := Perform(before, StoreAt(Clear, k));
    ClearsOneMore(m, before, k);
    RunsOneMore(m, before, Clear, k);
  }

  lemma {:induction false} ClearsUpTo(m: Memory, k: nat) returns (r: Memory)
    requires WellFormed(m) && k <= 2 + 6 * SLOTS
    ensures r == F.RunTo(m, Clear, k) && ClearedTo(m, r, k)
  {
    if k == 0 {
      r := m;
    } else {
      r := ClearsUpTo(m, k - 1);
      r := ClearStep(m, r, k - 1, k);
    }
  }

  /** The section as the first consumer of a new generation leaves it. */
  function Restarted(m: Memory): Memory
    requires WellFormed(m)
  {
    m.(slots := [Bare(m.slots[0]), Bare(m.slots[1]), Bare(m.slots[2]), Bare(m.slots[3])],
       format := 0, writeSeq := 0, consumerCount := 1, consumerGeneration := NextGeneration(m.consumerGeneration))
  }

  lemma ClearRuns(m: Memory, a: Memory)
    requires WellFormed(m) && a == m.(consumerGeneration := NextGeneration(m.consumerGeneration))
    ensures WellFormed(a) && F.Run(a, Clear) == Restarted(m)
  {
    var r := ClearsUpTo(a, 2 + 6 * SLOTS);
    RunsOneMore(a, r, Clear, 2 + 6 * SLOTS);
    assert r.slots == Restarted(m).slots;
  }

  // ---------------------------------------------------------------------------
  // The calls

  /** From `start`, where it has just locked, h has taken n steps and is now y; only h has changed. */
  ghost predicate Midway(s: State, start: State, h: nat, seen: Inspection, n: nat, t: State, y: Handle) {
    && t == GoesOn(start, h, seen, n) && Reachable(t)
    && t.handles == s.handles[h := y] && t.procs == s.procs && t.guard == if y.pc == Idle then None else Some(h)
  }

  lemma Begins(s: State, h: nat, call: Call, seen: Inspection) returns (start: State, t: State, y: Handle)
    requires Reachable(s) && MayBegin(s, h, call, seen)
    ensures WellFormed(s.mem) && s.handles[h].process in s.procs && t.mem == s.mem
    ensures start == Next(s, Lock(h, call)) && Midway(s, start, h, seen, 1, t, y)
    ensures y == Looked(s.mem, s.handles[h].(pc := Guarded(call)), s.procs[s.handles[h].process], seen)
  {
    start := Take(s, Lock(h, call));
    t := Take(start, Look(h, seen));
    y := t.handles[h];
    SetTwice(s.handles, h, start.handles[h], y);
    assert start == GoesOn(start, h, seen, 0);
    MovesTo(start, h, seen, Look(h, seen), t);
    GoesOneFurther(start, h, seen, 1, start, t);
  }

  lemma JobIsProper(t: State, h: nat, job: Job)
    requires Reachable(t) && h in t.handles && t.handles[h].pc == Storing(job, 0)
    ensures WellFormed(t.mem) && Holding(t, h, job, 0)
  {
    ReachableIsSafe(t);
    assert PcOk(t.mem, t.hist, t.procs, h, t.handles[h]);
  }

  lemma DoesJob(s: State, start: State, h: nat, seen: Inspection, n: nat, t: State, y: Handle, job: Job)
    returns (k: nat, u: State, z: Handle)
    requires Midway(s, start, h, seen, n, t, y) && y.pc == Storing(job, 0)
    ensures Proper(job) && k == n + Length(job) + 1 && Midway(s, start, h, seen, k, u, z)
    ensures WellFormed(t.mem) && u.mem == F.Run(t.mem, job)
    ensures z == Finished(u.mem, u.hist, AtStore(y, job, Length(job)))
  {
    JobIsProper(t, h, job);
    k, u, z := JobAlone(start, n, t, h, seen, job);
    SetTwice(s.handles, h, y, z);
  }

  lemma Ends(s: State, start: State, h: nat, call: Call, seen: Inspection, n: nat, t: State, y: Handle)
    requires Steppable(s, Lock(h, call)) && start == Next(s, Lock(h, call))
    requires Midway(s, start, h, seen, n, t, y)
    requires y.pc == Idle && y.process == s.handles[h].process && n <= CALL_STEPS
    ensures t == Called(s, h, call, seen) && Returned(s, h, t) && t.handles[h] == y
  {
    StaysPut(start, h, seen, n, t, CALL_STEPS);
  }

  lemma Closes(s: State, start: State, h: nat, seen: Inspection, begun: State, y: Handle, count: nat)
    returns (t: State)
    requires Steppable(s, Lock(h, CloseConsumer)) && start == Next(s, Lock(h, CloseConsumer))
    requires Midway(s, start, h, seen, 1, begun, y) && begun.mem == s.mem && WellFormed(s.mem)
    requires y == s.handles[h].(pc := Storing(Leave(count), 0)) && 0 < count == s.mem.consumerCount
    ensures t == Called(s, h, CloseConsumer, seen) && Returned(s, h, t)
    ensures t.mem == s.mem.(consumerCount := count - 1) && t.handles[h] == s.handles[h].(role := Detached)
  {
    var n, end, z := DoesJob(s, start, h, seen, 1, begun, y, Leave(count));
    LeaveRuns(s.mem, count);
    Ends(s, start, h, CloseConsumer, seen, n, end, z);
    t := end;
  }

  /** close() of a consumer: one less is counted, and nothing else in the section changes. */
  lemma CloseConsumerAlone(s: State, h: nat, seen: Inspection) returns (t: State)
    requires Reachable(s) && MayBegin(s, h, CloseConsumer, seen)
    ensures t == Called(s, h, CloseConsumer, seen) && Returned(s, h, t)
    ensures 0 < s.mem.consumerCount && t.mem == s.mem.(consumerCount := s.mem.consumerCount - 1)
    ensures t.handles[h] == s.handles[h].(role := Detached)
  {
    var start, begun, y := Begins(s, h, CloseConsumer, seen);
    ConsumersAreCounted(s, h);
    t := Closes(s, start, h, seen, begun, y, s.mem.consumerCount);
  }

  /** create() by the maker of the section: the first generation, with one consumer. */
  lemma CreateFirstAlone(s: State, h: nat, seen: Inspection) returns (t: State)
    requires Reachable(s) && MayBegin(s, h, CreateFirst, seen)
    ensures t == Called(s, h, CreateFirst, seen) && Returned(s, h, t)
    ensures t.mem == ZeroMemory().(magic := true, consumerCount := 1, consumerGeneration := 1)
    ensures t.handles[h].role == Consumer && t.handles[h].generation == 1
  {
    MakerFindsZeroes(s, h);
    var start, begun, y := Begins(s, h, CreateFirst, seen);
    var n, end, z := DoesJob(s, start, h, seen, 1, begun, y, Initialise);
    InitialiseRuns(s.mem);
    Ends(s, start, h, CreateFirst, seen, n, end, z);
    t := end;
  }

  lemma MakerFindsZeroes(s: State, h: nat)
    requires Reachable(s) && s.maker == Some(h)
    ensures s.mem == ZeroMemory()
  {
    ReachableIsSafe(s);
  }

  /**
   * create() on a section that existed. As the first consumer it begins a new generation, in which
   * nothing is published; as a further one it is counted; either way the handle is a consumer of the
   * generation that the section is then in. It is refused without a trace when the section is not
   * initialised or the count is full.
   */
  lemma CreateAlone(s: State, h: nat, seen: Inspection) returns (t: State)
    requires Reachable(s) && MayBegin(s, h, Create, seen)
    ensures t == Called(s, h, Create, seen) && Returned(s, h, t) && WellFormed(s.mem)
    ensures t.mem == if !s.mem.magic || s.mem.consumerCount == WORD - 1 then s.mem
                     else if s.mem.consumerCount == 0 then Restarted(s.mem)
                     else s.mem.(consumerCount := s.mem.consumerCount + 1)
    ensures if !s.mem.magic || s.mem.consumerCount == WORD - 1 then t.handles[h] == s.handles[h]
            else t.handles[h].role == Consumer && t.handles[h].generation == t.mem.consumerGeneration
  {
    ReachableIsSafe(s);
    var start, begun, y := Begins(s, h, Create, seen);
    if !s.mem.magic || s.mem.consumerCount == WORD - 1 {
      Ends(s, start, h, Create, seen, 1, begun, y);
      t := begun;
    } else if s.mem.consumerCount == 0 {
      t := Restarts(s, start, h, seen, begun, y);
    } else {
      t := Joins(s, start, h, seen, begun, y);
    }
  }

  lemma Restarts(s: State, start: State, h: nat, seen: Inspection, begun: State, y: Handle) returns (t: State)
    requires Steppable(s, Lock(h, Create)) && start == Next(s, Lock(h, Create))
    requires Midway(s, start, h, seen, 1, begun, y) && y.process == s.handles[h].process
    requires begun.mem == s.mem && WellFormed(s.mem) && y.pc == Storing(Advance(s.mem.consumerGeneration), 0)
    ensures t == Called(s, h, Create, seen) && Returned(s, h, t) && t.mem == Restarted(s.mem)
    ensures t.handles[h].role == Consumer && t.handles[h].generation == t.mem.consumerGeneration
  {
    var n, middle, z := DoesJob(s, start, h, seen, 1, begun, y, Advance(s.mem.consumerGeneration));
    AdvanceRuns(s.mem, s.mem.consumerGeneration);
    ClearRuns(s.mem, middle.mem);
    var k, end, w := DoesJob(s, start, h, seen, n, middle, z, Clear);
    Ends(s, start, h, Create, seen, k, end, w);
    t := end;
  }

  lemma Joins(s: State, start: State, h: nat, seen: Inspection, begun: State, y: Handle) returns (t: State)
    requires Steppable(s, Lock(h, Create)) && start == Next(s, Lock(h, Create))
    requires Midway(s, start, h, seen, 1, begun, y) && y.process == s.handles[h].process
    requires begun.mem == s.mem && WellFormed(s.mem) && y.pc == Storing(Join(s.mem.consumerCount), 0)
    ensures 0 < s.mem.consumerCount && t.mem == s.mem.(consumerCount := s.mem.consumerCount + 1)
    ensures t == Called(s, h, Create, seen) && Returned(s, h, t)
    ensures t.handles[h].role == Consumer && t.handles[h].generation == t.mem.consumerGeneration
  {
    var n, end, z := DoesJob(s, start, h, seen, 1, begun, y, Join(s.mem.consumerCount));
    JoinRuns(s.mem, s.mem.consumerCount);
    Ends(s, start, h, Create, seen, n, end, z);
    t := end;
  }

  /**
   * open() for writing. With a consumer and without a live claim the section afterwards names the
   * caller's process and the handle produces for the present generation; otherwise nothing changes.
   */
  lemma OpenWritableAlone(s: State, h: nat, seen: Inspection) returns (t: State)
    requires Reachable(s) && MayBegin(s, h, OpenWritable, seen)
    ensures t == Called(s, h, OpenWritable, seen) && Returned(s, h, t) && s.handles[h].process in s.procs
    ensures var me := s.procs[s.handles[h].process];
            var granted := && s.mem.magic && s.mem.consumerCount > 0
                           && !ProducerClaimIsLive(s.mem.ownerPid, s.mem.ownerStart, seen);
            && t.mem == (if granted then s.mem.(ownerPid := me.pid, ownerStart := me.start) else s.mem)
            && if granted then t.handles[h].role == Producer && t.handles[h].generation == s.mem.consumerGeneration
               else t.handles[h] == s.handles[h]
  {
    var start, begun, y := Begins(s, h, OpenWritable, seen);
    if y.pc == Idle {
      Ends(s, start, h, OpenWritable, seen, 1, begun, y);
      t := begun;
    } else {
      var me := s.procs[s.handles[h].process];
      var n, end, z := DoesJob(s, start, h, seen, 1, begun, y, Claim(me.pid, me.start));
      ClaimRuns(s.mem, me.pid, me.start);
      Ends(s, start, h, OpenWritable, seen, n, end, z);
      t := end;
    }
  }

  /** close() of a producer: its claim is gone, and nothing else in the section changes. */
  lemma CloseProducerAlone(s: State, h: nat, seen: Inspection) returns (t: State)
    requires Reachable(s) && MayBegin(s, h, CloseProducer, seen)
    ensures t == Called(s, h, CloseProducer, seen) && Returned(s, h, t)
    ensures t.mem == s.mem.(ownerPid := 0, ownerStart := 0)
    ensures t.handles[h] == s.handles[h].(role := Detached)
  {
    OneLiveProducer(s, h, h);
    var start, begun, y := Begins(s, h, CloseProducer, seen);
    var n, end, z := DoesJob(s, start, h, seen, 1, begun, y, Unclaim);
    UnclaimRuns(s.mem);
    Ends(s, start, h, CloseProducer, seen, n, end, z);
    t := end;
  }

  /**
   * writeFrame: the frame is published when a consumer is counted and the section is still in the
   * handle's generation, and not one store is made otherwise.
   */
  lemma WriteFrameAlone(s: State, h: nat, f: Frame, seen: Inspection) returns (t: State)
    requires Reachable(s) && MayBegin(s, h, WriteFrame(f), seen)
    ensures t == Called(s, h, WriteFrame(f), seen) && Returned(s, h, t) && WellFormed(s.mem) && Writable(f)
    ensures t.mem == if s.mem.consumerCount > 0 && s.mem.consumerGeneration == s.handles[h].generation
                     then F.Published(s.mem, f) else s.mem
    ensures t.handles[h] == s.handles[h]
  {
    AttachedIsInitialised(s, h);
    var start, begun, y := Begins(s, h, WriteFrame(f), seen);
    if y.pc == Idle {
      Ends(s, start, h, WriteFrame(f), seen, 1, begun, y);
      t := begun;
    } else {
      t := Writes(s, start, h, f, seen, begun, y);
    }
  }

  lemma AttachedIsInitialised(s: State, h: nat)
    requires Reachable(s) && h in s.handles && s.handles[h].role != Detached
    ensures s.mem.magic
  {
    ReachableIsSafe(s);
    assert RoleOk(s.mem, s.hist, s.procs, h, s.handles[h]);
  }

  /** The first half of writeFrame and its second check. */
  lemma Marks(s: State, start: State, h: nat, f: Frame, seen: Inspection, begun: State, y: Handle)
    returns (n: nat, middle: State, z: Handle)
    requires Midway(s, start, h, seen, 1, begun, y) && WellFormed(begun.mem) && Writable(f)
    requires y.pc == Storing(F.MarkOf(begun.mem, f), 0) && F.MayWrite(begun.mem, y.generation)
    ensures n == Length(F.MarkOf(begun.mem, f)) + 2 && Midway(s, start, h, seen, n, middle, z)
    ensures middle.mem == F.Run(begun.mem, F.MarkOf(begun.mem, f))
    ensures z == y.(pc := Storing(F.CommitOf(begun.mem, f), 0))
  {
    n, middle, z := DoesJob(s, start, h, seen, 1, begun, y, F.MarkOf(begun.mem, f));
    StillMayWrite(begun.mem, middle.mem, f, y.generation);
  }

  /** The second half. */
  lemma Commits(s: State, start: State, h: nat, seen: Inspection, n: nat, middle: State, z: Handle, job: Job)
    returns (k: nat, end: State, w: Handle)
    requires Midway(s, start, h, seen, n, middle, z) && z.pc == Storing(job, 0) && job.Commit?
    ensures k == n + 4 && Midway(s, start, h, seen, k, end, w) && w == z.(pc := Idle)
    ensures WellFormed(middle.mem) && Proper(job) && end.mem == F.Run(middle.mem, job)
  {
    k, end, w := DoesJob(s, start, h, seen, n, middle, z, job);
  }

  lemma Writes(s: State, start: State, h: nat, f: Frame, seen: Inspection, begun: State, y: Handle)
    returns (t: State)
    requires Steppable(s, Lock(h, WriteFrame(f))) && start == Next(s, Lock(h, WriteFrame(f)))
    requires Midway(s, start, h, seen, 1, begun, y) && begun.mem == s.mem && WellFormed(s.mem) && Writable(f)
    requires y == s.handles[h].(pc := Storing(F.MarkOf(s.mem, f), 0)) && F.MayWrite(s.mem, y.generation)
    ensures t == Called(s, h, WriteFrame(f), seen) && Returned(s, h, t)
    ensures t.mem == F.Published(s.mem, f) && t.handles[h] == s.handles[h]
  {
    var n, middle, z := Marks(s, start, h, f, seen, begun, y);
    var k, end, w := Commits(s, start, h, seen, n, middle, z, F.CommitOf(s.mem, f));
    Ends(s, start, h, WriteFrame(f), seen, k, end, w);
    t := end;
  }

  /** What writeFrame checks a second time is untouched by its own first half. */
  lemma StillMayWrite(m: Memory, marked: Memory, f: Frame, generation: nat)
    requires WellFormed(m) && Writable(f) && F.MayWrite(m, generation) && marked == F.Run(m, F.MarkOf(m, f))
    ensures F.MayWrite(marked, generation)
  {
    F.MarkTouchesOneSlot(m, f, Length(F.MarkOf(m, f)));
  }

  // ---------------------------------------------------------------------------
  // Calls one after another

  /** Nothing was seen of a claim: what a call that does not ask about one is given. */
  const UNASKED := NoSuchProcess

  lemma MayBeginNext(t: State, h: nat, call: Call)
    requires Reachable(t) && Enabled(t, Lock(h, call)) && !call.OpenWritable?
    ensures MayBegin(t, h, call, UNASKED)
  {
    NoStepGoesWrong(t, Lock(h, call));
  }

  /** A further consumer that comes and goes leaves the section as it found it. */
  lemma ConsumerComesAndGoes(s: State, h: nat) returns (t: State, u: State)
    requires Reachable(s) && MayBegin(s, h, Create, UNASKED)
    requires s.mem.magic && 0 < s.mem.consumerCount < WORD - 1
    ensures t == Called(s, h, Create, UNASKED) && MayBegin(t, h, CloseConsumer, UNASKED)
    ensures u == Called(t, h, CloseConsumer, UNASKED) && Returned(t, h, u) && u.mem == s.mem
  {
    t := CreateAlone(s, h, UNASKED);
    MayBeginNext(t, h, CloseConsumer);
    u := CloseConsumerAlone(t, h, UNASKED);
  }

  /** A producer that comes and goes leaves no claim, and everything else as it found it. */
  lemma ProducerComesAndGoes(s: State, h: nat, seen: Inspection) returns (t: State, u: State)
    requires Reachable(s) && MayBegin(s, h, OpenWritable, seen)
    requires s.mem.magic && s.mem.consumerCount > 0
    requires !ProducerClaimIsLive(s.mem.ownerPid, s.mem.ownerStart, seen)
    ensures t == Called(s, h, OpenWritable, seen) && MayBegin(t, h, CloseProducer, UNASKED)
    ensures u == Called(t, h, CloseProducer, UNASKED) && Returned(t, h, u)
    ensures u.mem == s.mem.(ownerPid := 0, ownerStart := 0)
  {
    t := OpenWritableAlone(s, h, seen);
    MayBeginNext(t, h, CloseProducer);
    u := CloseProducerAlone(t, h, UNASKED);
  }

  lemma NoMakerOnceInitialised(s: State)
    requires Reachable(s) && s.mem.magic
    ensures s.maker == None
  {
    ReachableIsSafe(s);
  }

  /** Another handle's call leaves this handle as free to make its own as before. */
  lemma StillFree(s: State, h: nat, t: State, g: nat, call: Call)
    requires Returned(s, h, t) && g != h && Enabled(s, Lock(g, call)) && t.mem.magic
    requires !call.OpenWritable? && !call.CreateFirst?
    ensures MayBegin(t, g, call, UNASKED) && t.handles[g] == s.handles[g]
  {
    NoMakerOnceInitialised(t);
    MayBeginNext(t, g, call);
  }

  /**
   * The last consumer goes and another comes: its generation is a new one, in which nothing is
   * published, and a producer that stayed open from the generation before it cannot store a thing.
   */
  lemma OldProducerIsShutOut(s: State, last: nat, next: nat, p: nat, f: Frame)
    returns (t: State, u: State, v: State)
    requires Reachable(s) && MayBegin(s, last, CloseConsumer, UNASKED) && s.mem.consumerCount == 1
    requires Enabled(s, Lock(next, Create)) && Enabled(s, Lock(p, WriteFrame(f)))
    requires p != last && s.handles[p].generation == s.mem.consumerGeneration
    ensures t == Called(s, last, CloseConsumer, UNASKED) && MayBegin(t, next, Create, UNASKED)
    ensures u == Called(t, next, Create, UNASKED) && Returned(t, next, u) && MayBegin(u, p, WriteFrame(f), UNASKED)
    ensures WellFormed(s.mem) && u.mem == Restarted(s.mem) && u.handles[next].role == Consumer
    ensures v == Called(u, p, WriteFrame(f), UNASKED) && Returned(u, p, v) && v.mem == u.mem
  {
    AttachedIsInitialised(s, last);
    t := CloseConsumerAlone(s, last, UNASKED);
    StillFree(s, last, t, next, Create);
    StillFree(s, last, t, p, WriteFrame(f));
    u := CreateAlone(t, next, UNASKED);
    StillFree(t, next, u, p, WriteFrame(f));
    v := WriteFrameAlone(u, p, f, UNASKED);
    GenerationMovesOn(t.mem.consumerGeneration);
  }

  lemma GenerationMovesOn(g: nat)
    ensures NextGeneration(g) != g
  {
  }

  /** What writeFrame published is what a reader that is then left alone gets: every byte and field. */
  lemma WrittenIsRead(s: State, h: nat, f: Frame, capacity: nat) returns (t: State)
    requires Reachable(s) && MayBegin(s, h, WriteFrame(f), UNASKED)
    requires s.mem.consumerCount > 0 && s.mem.consumerGeneration == s.handles[h].generation
    requires |f.pixels| <= capacity
    ensures t == Called(s, h, WriteFrame(f), UNASKED) && Returned(s, h, t) && WellFormed(t.mem)
    ensures var info := Info(f.width, f.height, f.stride, f.format, f.pts, s.mem.writeSeq + 1, |f.pixels|);
            Alone(t.mem, t.hist, Reader(capacity, 0, 0, None, [], [], 0), 3 + FIELDS + SLOT_BYTES)
              == Return(if GeometryIsSane(info) then Got(info, f.pixels) else Nothing)
  {
    t := WriteFrameAlone(s, h, f, UNASKED);
    UndisturbedReadSucceeds(t, capacity, 0);
    F.WriteThenRead(s.mem, f, capacity);
  }

  /** So every NV12 frame of a size that the ring is made for gets through. */
  lemma Nv12IsRead(s: State, h: nat, f: Frame, capacity: nat) returns (t: State)
    requires Reachable(s) && MayBegin(s, h, WriteFrame(f), UNASKED)
    requires s.mem.consumerCount > 0 && s.mem.consumerGeneration == s.handles[h].generation
    requires f.format == 0x3231564E && 0 < f.width <= 3840 && 0 < f.height <= 2160
    requires f.width % 2 == 0 && f.height % 2 == 0 && f.width <= f.stride
    requires f.stride * f.height + f.stride * f.height / 2 <= |f.pixels| <= capacity
    ensures t == Called(s, h, WriteFrame(f), UNASKED) && WellFormed(s.mem) && WellFormed(t.mem)
    ensures Alone(t.mem, t.hist, Reader(capacity, 0, 0, None, [], [], 0), 3 + FIELDS + SLOT_BYTES)
         == Return(Got(Info(f.width, f.height, f.stride, f.format, f.pts, s.mem.writeSeq + 1, |f.pixels|), f.pixels))
  {
    t := WrittenIsRead(s, h, f, capacity);
    var info := Info(f.width, f.height, f.stride, f.format, f.pts, s.mem.writeSeq + 1, |f.pixels|);
    assert Writable(f) && GeometryIsSane(info);
  }
}
