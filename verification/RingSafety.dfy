/** What holds in every run of the frame ring. */
module RingSafety {
  import opened Bytes
  import opened Ring
  import opened RingInvariant
  import opened Wrappers

  // ---------------------------------------------------------------------------
  // Every step keeps the invariant

  lemma InitIsSafe(s: State)
    requires Init(s)
    ensures Inv(s)
  {
  }

  /** How the guard moves when handle h goes to x. */
  predicate GuardMoves(s: State, t: State, h: nat, x: Handle) {
    if Critical(x.pc) then t.guard == Some(h) && (s.guard == None || s.guard == Some(h))
    else t.guard == (if s.guard == Some(h) then None else s.guard)
  }

  predicate ClaimMoves(s: State, t: State, h: nat, x: Handle) {
    && (x.role == Producer ==> IsProducer(s, h) || (NoProducer(s.handles) && t.guard == None))
    && (ChangesClaim(x.pc) ==>
          x.role != Producer && forall g :: g in s.handles && g != h ==> s.handles[g].role != Producer)
  }

  predicate MakerMoves(s: State, t: State, h: nat, x: Handle) {
    && (t.maker == s.maker || t.maker == None)
    && (t.maker.Some? ==> !Founding(x.pc) && (t.maker == Some(h) ==> x.pc == Idle))
  }

  /** Steps that change one handle and nothing that any other handle depends on. */
  lemma OneHandleMoves(s: State, t: State, h: nat, x: Handle)
    requires Inv(s) && t.mem == s.mem && t.hist == s.hist && t.procs == s.procs
    requires t.handles == s.handles[h := x]
    requires RoleOk(s.mem, s.hist, s.procs, h, x) && PcOk(s.mem, s.hist, s.procs, h, x)
    requires GuardMoves(s, t, h, x) && ClaimMoves(s, t, h, x) && MakerMoves(s, t, h, x)
    ensures Inv(t)
  {
    OthersStay(s, t, h, x);
    GuardMoved(s, t, h, x);
    ClaimMoved(s, t, h, x);
  }

  lemma OthersStay(s: State, t: State, h: nat, x: Handle)
    requires Inv(s) && t.mem == s.mem && t.hist == s.hist && t.procs == s.procs
    requires t.handles == s.handles[h := x]
    requires RoleOk(s.mem, s.hist, s.procs, h, x) && PcOk(s.mem, s.hist, s.procs, h, x)
    ensures HandlesOk(t)
  {
  }

  lemma GuardMoved(s: State, t: State, h: nat, x: Handle)
    requires GuardOk(s) && t.handles == s.handles[h := x] && GuardMoves(s, t, h, x)
    ensures GuardOk(t)
  {
  }

  lemma ClaimMoved(s: State, t: State, h: nat, x: Handle)
    requires GuardOk(s) && ClaimOk(s) && t.handles == s.handles[h := x]
    requires GuardMoves(s, t, h, x) && ClaimMoves(s, t, h, x)
    ensures ClaimOk(t)
  {
  }

  lemma SpawnKeeps(s: State, p: nat, pid: nat, start: nat)
    requires Inv(s) && Enabled(s, Spawn(p, pid, start))
    ensures Inv(Next(s, Spawn(p, pid, start)))
  {
  }

  lemma CrashKeeps(s: State, p: nat)
    requires Inv(s) && Enabled(s, Crash(p))
    ensures Steppable(s, Crash(p)) && Inv(Next(s, Crash(p)))
  {
    assert HandlesOk(Crashed(s, p));
  }

  lemma ConstructKeeps(s: State, h: nat, p: nat)
    requires Inv(s) && Enabled(s, Construct(h, p))
    ensures Inv(Next(s, Construct(h, p)))
  {
    OneHandleMoves(s, Next(s, Construct(h, p)), h, Handle(p, Detached, 0, 0, Idle));
  }

  lemma LockKeeps(s: State, h: nat, call: Call)
    requires Inv(s) && Enabled(s, Lock(h, call))
    ensures Inv(Next(s, Lock(h, call)))
  {
    OneHandleMoves(s, Next(s, Lock(h, call)), h, s.handles[h].(pc := Guarded(call)));
  }

  /** Nobody takes the claim of a live producer. */
  lemma LiveClaimIsSeen(s: State, g: nat, seen: Inspection)
    requires Inv(s) && Faithful(s.procs, s.mem.ownerPid, seen)
    requires IsProducer(s, g)
    ensures ProducerClaimIsLive(s.mem.ownerPid, s.mem.ownerStart, seen)
  {
    var p := s.handles[g].process;
    assert p in s.procs && s.procs[p].alive && s.procs[p].pid == s.mem.ownerPid;
  }

  /** Only the guard's holder settles, so nobody is still waiting to initialise the section. */
  lemma SettleKeeps(s: State, h: nat, y: Handle)
    requires Inv(s) && h in s.handles && Critical(s.handles[h].pc)
    requires RoleOk(s.mem, s.hist, s.procs, h, y) && PcOk(s.mem, s.hist, s.procs, h, y)
    requires y.pc == Idle || y.pc.Storing?
    requires y.pc.Storing? && y.pc.job.Initialise? ==> Founding(s.handles[h].pc)
    requires ClaimMoves(s, Settle(s, h, y), h, y)
    ensures Inv(Settle(s, h, y))
  {
    OneHandleMoves(s, Settle(s, h, y), h, y);
  }

  lemma LookKeeps(s: State, h: nat, seen: Inspection)
    requires Inv(s) && Enabled(s, Look(h, seen))
    ensures Steppable(s, Look(h, seen)) && Inv(Next(s, Look(h, seen)))
  {
    LookedHandle(s, h, seen);
    LookedClaim(s, h, seen);
    SettleKeeps(s, h, Looked(s.mem, s.handles[h], s.procs[s.handles[h].process], seen));
  }

  lemma LookedHandle(s: State, h: nat, seen: Inspection)
    requires Inv(s) && Enabled(s, Look(h, seen))
    ensures Steppable(s, Look(h, seen))
    ensures var y := Looked(s.mem, s.handles[h], s.procs[s.handles[h].process], seen);
            RoleOk(s.mem, s.hist, s.procs, h, y) && PcOk(s.mem, s.hist, s.procs, h, y)
  {
    var x := s.handles[h];
    assert RoleOk(s.mem, s.hist, s.procs, h, x) && PcOk(s.mem, s.hist, s.procs, h, x);
    LookedOk(s.mem, s.hist, s.procs, h, x, seen);
  }

  lemma LookedOk(m: Memory, hist: History, procs: map<nat, Process>, h: nat, x: Handle, seen: Inspection)
    requires RingOk(m, hist) && x.pc.Guarded?
    requires RoleOk(m, hist, procs, h, x) && PcOk(m, hist, procs, h, x)
    ensures var y := Looked(m, x, procs[x.process], seen);
            RoleOk(m, hist, procs, h, y) && PcOk(m, hist, procs, h, y)
  {
  }

  lemma LookedClaim(s: State, h: nat, seen: Inspection)
    requires Inv(s) && Enabled(s, Look(h, seen)) && Steppable(s, Look(h, seen))
    ensures ClaimMoves(s, Next(s, Look(h, seen)), h, Next(s, Look(h, seen)).handles[h])
  {
    var x := s.handles[h];
    var y := Looked(s.mem, x, s.procs[x.process], seen);
    assert PcOk(s.mem, s.hist, s.procs, h, x);
    if y.pc.Storing? && y.pc.job.Claim? {
      forall g | g in s.handles ensures s.handles[g].role != Producer {
        if IsProducer(s, g) {
          LiveClaimIsSeen(s, g, seen);
        }
      }
    }
  }

  /** The store of any job keeps the section in order. */
  lemma StoreKeepsRing(m: Memory, hist: History, h: nat, x: Handle, me: Process, job: Job, k: nat)
    requires RingOk(m, hist) && JobOk(m, hist, h, x, me, job, k) && k < Length(job)
    requires job.Commit? ==> x.generation == x.bound % WORD && x.bound <= hist.epoch
    requires job.Leave? && k == 0 ==> h in hist.counted
    ensures RingOk(Perform(m, StoreAt(job, k)), Recorded(hist, h, x, job, k))
  {
    match job
    case Initialise => InitialiseKeeps(m, hist, h, x, me, job, k);
    case Advance(_) => AdvanceKeeps(m, hist, h, x, me, job, k);
    case Clear => ClearKeepsRing(m, hist, h, x, me, job, k);
    case Join(_) => CountKeeps(m, hist, h, x, me, job, k);
    case Leave(_) => CountKeeps(m, hist, h, x, me, job, k);
    case Claim(_, _) => ClaimKeeps(m, hist, h, x, me, job, k);
    case Unclaim => ClaimKeeps(m, hist, h, x, me, job, k);
    case Mark(_, _, _) => MarkKeepsRing(m, hist, h, x, me, job, k);
    case Commit(_, _, _) => CommitKeepsRing(m, hist, h, x, me, job, k);
  }

  /** ... and the job goes on from there. */
  lemma StoreKeepsJob(m: Memory, hist: History, h: nat, x: Handle, me: Process, job: Job, k: nat)
    requires RingOk(m, hist) && JobOk(m, hist, h, x, me, job, k) && k < Length(job)
    requires job.Leave? && k == 0 ==> h in hist.counted
    requires RingOk(Perform(m, StoreAt(job, k)), Recorded(hist, h, x, job, k))
    ensures var y := if job.Leave? then x.(role := Detached) else x;
            JobOk(Perform(m, StoreAt(job, k)), Recorded(hist, h, x, job, k), h, y, me, job, k + 1)
  {
    match job
    case Initialise => InitialiseKeeps(m, hist, h, x, me, job, k);
    case Advance(_) => AdvanceKeeps(m, hist, h, x, me, job, k);
    case Clear => ClearKeepsJob(m, hist, h, x, me, job, k);
    case Join(_) => CountKeeps(m, hist, h, x, me, job, k);
    case Leave(_) => CountKeeps(m, hist, h, x, me, job, k);
    case Claim(_, _) => ClaimKeeps(m, hist, h, x, me, job, k);
    case Unclaim => ClaimKeeps(m, hist, h, x, me, job, k);
    case Mark(_, _, _) => MarkKeepsJob(m, hist, h, x, me, job, k);
    case Commit(_, _, _) => CommitKeepsJob(m, hist, h, x, me, job, k);
  }

  lemma OwnRoleKept(m: Memory, hist: History, procs: map<nat, Process>, h: nat, x: Handle, job: Job, k: nat)
    requires RingOk(m, hist) && RoleOk(m, hist, procs, h, x) && PcOk(m, hist, procs, h, x)
    requires x.pc == Storing(job, k) && k < Length(job)
    ensures var y := if job.Leave? then x.(role := Detached) else x;
            RoleOk(Perform(m, StoreAt(job, k)), Recorded(hist, h, x, job, k), procs, h, y)
  {
  }

  lemma OwnHandleOk(m: Memory, hist: History, procs: map<nat, Process>, h: nat, x: Handle, job: Job, k: nat)
    requires RingOk(m, hist) && RoleOk(m, hist, procs, h, x) && PcOk(m, hist, procs, h, x)
    requires x.pc == Storing(job, k) && k < Length(job)
    requires RingOk(Perform(m, StoreAt(job, k)), Recorded(hist, h, x, job, k))
    ensures var m', hist' := Perform(m, StoreAt(job, k)), Recorded(hist, h, x, job, k);
            var y := x.(pc := Storing(job, k + 1), role := if job.Leave? then Detached else x.role);
            RoleOk(m', hist', procs, h, y) && PcOk(m', hist', procs, h, y)
  {
    OwnRoleKept(m, hist, procs, h, x, job, k);
    StoreKeepsJob(m, hist, h, x, procs[x.process], job, k);
  }

  lemma StoreKeeps(s: State, h: nat)
    requires Inv(s) && Enabled(s, DoStore(h))
    ensures Steppable(s, DoStore(h)) && Inv(Next(s, DoStore(h)))
  {
    var x := s.handles[h];
    var me, job, k := s.procs[x.process], x.pc.job, x.pc.done;
    assert RoleOk(s.mem, s.hist, s.procs, h, x) && PcOk(s.mem, s.hist, s.procs, h, x);
    StoreKeepsRing(s.mem, s.hist, h, x, me, job, k);
    StoreKeepsHandles(s, h);
    StoreKeepsRest(s, h);
  }

  lemma StoreKeepsHandles(s: State, h: nat)
    requires Inv(s) && Enabled(s, DoStore(h)) && Steppable(s, DoStore(h))
    requires RingOk(Stored(s, h).mem, Stored(s, h).hist)
    ensures HandlesOk(Stored(s, h))
  {
    var t := Stored(s, h);
    OwnHandleKept(s, h);
    forall g | g in t.handles && g != h
      ensures RoleOk(t.mem, t.hist, t.procs, g, t.handles[g]) && PcOk(t.mem, t.hist, t.procs, g, t.handles[g])
    {
      OtherHandleKept(s, h, g);
    }
  }

  lemma OwnHandleKept(s: State, h: nat)
    requires Inv(s) && Enabled(s, DoStore(h)) && Steppable(s, DoStore(h))
    requires RingOk(Stored(s, h).mem, Stored(s, h).hist)
    ensures var t := Stored(s, h);
            RoleOk(t.mem, t.hist, t.procs, h, t.handles[h]) && PcOk(t.mem, t.hist, t.procs, h, t.handles[h])
  {
    var x := s.handles[h];
    assert RoleOk(s.mem, s.hist, s.procs, h, x) && PcOk(s.mem, s.hist, s.procs, h, x);
    OwnHandleOk(s.mem, s.hist, s.procs, h, x, x.pc.job, x.pc.done);
  }

  lemma OtherHandleKept(s: State, h: nat, g: nat)
    requires Inv(s) && Enabled(s, DoStore(h)) && Steppable(s, DoStore(h)) && g in s.handles && g != h
    requires RingOk(Stored(s, h).mem, Stored(s, h).hist)
    ensures var t := Stored(s, h);
            RoleOk(t.mem, t.hist, t.procs, g, t.handles[g]) && PcOk(t.mem, t.hist, t.procs, g, t.handles[g])
  {
    var x, y := s.handles[h], s.handles[g];
    var me, job, k := s.procs[x.process], x.pc.job, x.pc.done;
    assert PcOk(s.mem, s.hist, s.procs, h, x);
    assert RoleOk(s.mem, s.hist, s.procs, g, y) && PcOk(s.mem, s.hist, s.procs, g, y);
    OtherRoleKept(s.mem, s.hist, h, x, s.procs, me, job, k, g, y);
    OtherPcKept(s.mem, s.hist, h, x, s.procs, me, job, k, g, y);
  }

  lemma StoreKeepsRest(s: State, h: nat)
    requires Inv(s) && Enabled(s, DoStore(h)) && Steppable(s, DoStore(h))
    ensures var t := Stored(s, h); GuardOk(t) && ClaimOk(t) && MakerOk(t)
  {
    assert PcOk(s.mem, s.hist, s.procs, h, s.handles[h]);
  }

  lemma FinishKeeps(s: State, h: nat)
    requires Inv(s) && Enabled(s, Finish(h))
    ensures Steppable(s, Finish(h)) && Inv(Next(s, Finish(h)))
  {
    var x := s.handles[h];
    assert RoleOk(s.mem, s.hist, s.procs, h, x) && PcOk(s.mem, s.hist, s.procs, h, x);
    var y := Finished(s.mem, s.hist, x);
    FinishedOk(s.mem, s.hist, s.procs, h, x);
    SettleKeeps(s, h, y);
  }

  lemma FinishedOk(m: Memory, hist: History, procs: map<nat, Process>, h: nat, x: Handle)
    requires RingOk(m, hist) && x.pc.Storing? && x.pc.done == Length(x.pc.job)
    requires RoleOk(m, hist, procs, h, x) && PcOk(m, hist, procs, h, x)
    ensures var y := Finished(m, hist, x); RoleOk(m, hist, procs, h, y) && PcOk(m, hist, procs, h, y)
  {
    if x.pc.job.Mark? {
      MarkedHolds(m.slots[x.pc.job.seqNo % SLOTS], x.pc.job.frame, x.pc.job.odd);
    }
  }

  lemma StartReadKeeps(s: State, h: nat, capacity: nat)
    requires Inv(s) && Enabled(s, StartRead(h, capacity))
    ensures Inv(Next(s, StartRead(h, capacity)))
  {
    var x := s.handles[h];
    assert RoleOk(s.mem, s.hist, s.procs, h, x);
    OneHandleMoves(s, Next(s, StartRead(h, capacity)), h, x.(pc := Reading(Reader(capacity, 0, 0, None, [], [], 0))));
  }

  /** A load, and what the program does with it, keeps what a reader may rely on. */
  lemma ReadStepOk(m: Memory, hist: History, r: Reader)
    requires RingOk(m, hist) && ReaderOk(m, hist, r)
    ensures var next := ReadStep(m, hist, r); next.Continue? ==> ReaderOk(m, hist, next.reader)
  {
    if r.before.Some? {
      if |r.loaded| < FIELDS {
        LoadOk(m, hist, r);
      } else if |r.copied| < r.loaded[0] {
        CopyOk(m, hist, r);
      }
    }
  }

  lemma LoadOk(m: Memory, hist: History, r: Reader)
    requires RingOk(m, hist) && ReaderOk(m, hist, r) && r.before.Some? && |r.loaded| < FIELDS
    ensures Load(m, r).Continue? ==> ReaderOk(m, hist, Load(m, r).reader)
  {
  }

  lemma CopyOk(m: Memory, hist: History, r: Reader)
    requires RingOk(m, hist) && ReaderOk(m, hist, r) && |r.loaded| == FIELDS && |r.copied| < r.loaded[0]
    ensures ReaderOk(m, hist, r.(copied := r.copied + [m.slots[ReadSlot(r)].pixels[|r.copied|]]))
  {
  }

  lemma ReadKeeps(s: State, h: nat)
    requires Inv(s) && Enabled(s, Read(h))
    ensures Steppable(s, Read(h)) && Inv(Next(s, Read(h)))
  {
    var x := s.handles[h];
    assert RoleOk(s.mem, s.hist, s.procs, h, x) && PcOk(s.mem, s.hist, s.procs, h, x);
    ReadStepOk(s.mem, s.hist, x.pc.reader);
    OneHandleMoves(s, Next(s, Read(h)), h, Next(s, Read(h)).handles[h]);
  }

  lemma StepKeeps(s: State, step: Step)
    requires Inv(s) && Enabled(s, step)
    ensures Steppable(s, step) && Inv(Next(s, step))
  {
    match step
    case Spawn(p, pid, start) => SpawnKeeps(s, p, pid, start);
    case Crash(p) => CrashKeeps(s, p);
    case Construct(h, p) => ConstructKeeps(s, h, p);
    case Lock(h, call) => LockKeeps(s, h, call);
    case Look(h, seen) => LookKeeps(s, h, seen);
    case DoStore(h) => StoreKeeps(s, h);
    case Finish(h) => FinishKeeps(s, h);
    case StartRead(h, capacity) => StartReadKeeps(s, h, capacity);
    case Read(h) => ReadKeeps(s, h);
  }
}
