/**
 * The recorder's frame accounting. Callers start, stop and enqueue; one worker opens the writer,
 * takes frames off the bounded queue, writes them, and finalizes. Each step is what one thread does
 * while it holds the queue's mutex, or between two such times.
 */
module Recorder {
  /** `number` is the position among the frames submitted; it is not in the program. */
  datatype Frame = Frame(number: nat, ptsMicros: nat)

  datatype Phase = Idle | Starting | Recording | Finalizing | Completed | Failed

  datatype Snapshot = Snapshot(phase: Phase, submitted: nat, written: nat, dropped: nat, queued: nat)

  /** Where the worker is; `discarded` is what it has counted but not yet reported. */
  datatype Worker =
    | Off
    | Opening
    | Looping
    | Holding(frame: Frame)
    | Closing
    | Publishing
    | Discarding(discarded: nat)

  /** `log` lists the frames handed to the writer with success. */
  datatype Recorder = Recorder(capacity: nat, queue: seq<Frame>, active: bool, stopping: bool,
                               snapshot: Snapshot, worker: Worker, log: seq<Frame>)

  const NO_FRAMES := Snapshot(Idle, 0, 0, 0, 0)
  const MAXIMUM_QUEUE_CAPACITY := 16

  datatype Step =
    | Start(capacity: nat, threadStarts: bool)
    | Enqueue(ptsMicros: nat, valid: bool)
    | Stop
    | Opened(ok: bool)
    | Take
    | Write(ok: bool)        // convert and write
    | Finalize(ok: bool)
    | Publish(ok: bool)      // move the file to its place
    | Report                 // the second half of discardAndFail

  predicate CanStep(r: Recorder, step: Step) {
    match step
    case Start(capacity, _) => 0 < capacity <= MAXIMUM_QUEUE_CAPACITY && !r.active && r.worker == Off   // start joins an old worker
    case Enqueue(_, _) => true
    case Stop => true
    case Opened(_) => r.worker == Opening
    case Take => r.worker == Looping && (r.stopping || r.queue != [])
    case Write(_) => r.worker.Holding?
    case Finalize(_) => r.worker == Closing
    case Publish(_) => r.worker == Publishing
    case Report => r.worker.Discarding?
  }

  datatype Answer = Accepted | AcceptedDroppingOldest | NotAccepting | InvalidArgument

  function EnqueueAnswer(r: Recorder, valid: bool): Answer {
    if !r.active || r.stopping then NotAccepting
    else if !valid then InvalidArgument
    else if |r.queue| >= r.capacity then AcceptedDroppingOldest
    else Accepted
  }

  function Enqueued(r: Recorder, ptsMicros: nat, valid: bool): Recorder {
    var f := Frame(r.snapshot.submitted, ptsMicros);
    match EnqueueAnswer(r, valid)
    case Accepted =>
      r.(queue := r.queue + [f],
         snapshot := r.snapshot.(submitted := r.snapshot.submitted + 1, queued := |r.queue| + 1))
    case AcceptedDroppingOldest =>
      var kept := if r.queue == [] then [] else r.queue[1..];
      r.(queue := kept + [f],
         snapshot := r.snapshot.(submitted := r.snapshot.submitted + 1, dropped := r.snapshot.dropped + 1,
                                 queued := |kept| + 1))
    case _ => r
  }

  /** The first half of discardAndFail. */
  function Discard(r: Recorder, currentFrames: nat): Recorder {
    r.(queue := [], stopping := true, active := false, worker := Discarding(currentFrames + |r.queue|))
  }

  function Next(r: Recorder, step: Step): Recorder
    requires CanStep(r, step)
  {
    match step
    case Start(capacity, threadStarts) =>
      Recorder(capacity, [], threadStarts, false, NO_FRAMES.(phase := if threadStarts then Starting else Failed),
               if threadStarts then Opening else Off, [])
    case Enqueue(ptsMicros, valid) => Enqueued(r, ptsMicros, valid)
    case Stop => if r.active then r.(stopping := true, active := false) else r
    case Opened(ok) =>
      if ok then r.(worker := Looping, snapshot := r.snapshot.(phase := Recording)) else Discard(r, 0)
    case Take =>
      if r.queue == [] then r.(worker := Closing, snapshot := r.snapshot.(phase := Finalizing))
      else r.(worker := Holding(r.queue[0]), queue := r.queue[1..],
              snapshot := r.snapshot.(queued := |r.queue| - 1))
    case Write(ok) =>
      if ok then r.(worker := Looping, snapshot := r.snapshot.(written := r.snapshot.written + 1),
                    log := r.log + [r.worker.frame])
      else Discard(r, 1)
    case Finalize(ok) => if ok then r.(worker := Publishing) else Discard(r, 0)
    case Publish(ok) =>
      r.(worker := Off, snapshot := r.snapshot.(phase := if ok then Completed else Failed, queued := 0))
    case Report =>
      r.(worker := Off,
         snapshot := r.snapshot.(phase := Failed, dropped := r.snapshot.dropped + r.worker.discarded, queued := 0))
  }

  // ---------------------------------------------------------------------------
  // Conservation

  function InFlight(r: Recorder): nat {
    if r.worker.Holding? then 1 else 0
  }

  /** Frames the worker has given up but not yet reported, beyond those still shown as queued. */
  function Unreported(r: Recorder): nat {
    if r.worker.Discarding? && r.worker.discarded > r.snapshot.queued then r.worker.discarded - r.snapshot.queued
    else 0
  }

  /** The frames still alive, oldest first. */
  function Alive(r: Recorder): seq<Frame> {
    r.log + (if r.worker.Holding? then [r.worker.frame] else []) + r.queue
  }

  predicate Increasing(frames: seq<Frame>) {
    forall i, j :: 0 <= i < j < |frames| ==> frames[i].number < frames[j].number
  }

  predicate RecorderOk(r: Recorder) {
    var s := r.snapshot;
    && s.submitted == s.written + s.dropped + s.queued + InFlight(r) + Unreported(r)
    && s.written == |r.log|
    && (r.worker.Discarding? ==> r.queue == [] && r.worker.discarded >= s.queued)
    && (!r.worker.Discarding? ==> s.queued == |r.queue|)
    && |r.queue| <= r.capacity && (r.active ==> 0 < r.capacity && !r.stopping)
    && (r.worker == Off ==> r.queue == [] && !r.active)
    && (r.worker == Closing || r.worker == Publishing ==> r.queue == [] && r.stopping && !r.active)
    && (r.worker.Discarding? ==> r.stopping && !r.active)
    && (s.phase == Completed || s.phase == Failed || s.phase == Idle ==> r.worker == Off)
    && PhaseOk(s.phase, r.worker)
    && Increasing(Alive(r))
    && (forall f :: f in Alive(r) ==> f.number < s.submitted)
  }

  /** The phase shown is where the worker is, up to a failure not yet reported. */
  predicate PhaseOk(phase: Phase, worker: Worker) {
    match worker
    case Off => phase == Idle || phase == Completed || phase == Failed
    case Opening => phase == Starting
    case Looping => phase == Recording
    case Holding(_) => phase == Recording
    case Closing => phase == Finalizing
    case Publishing => phase == Finalizing
    case Discarding(_) => true
  }

  const FRESH := Recorder(0, [], false, false, NO_FRAMES, Off, [])

  lemma AppendIncreases(frames: seq<Frame>, f: Frame)
    requires Increasing(frames) && forall g :: g in frames ==> g.number < f.number
    ensures Increasing(frames + [f])
  {
  }

  lemma RemoveIncreases(front: seq<Frame>, f: Frame, rest: seq<Frame>)
    requires Increasing(front + [f] + rest)
    ensures Increasing(front + rest)
  {
    var all := front + [f] + rest;
    forall i, j | 0 <= i < j < |front + rest| ensures (front + rest)[i].number < (front + rest)[j].number {
      assert (front + rest)[i] == all[if i < |front| then i else i + 1];
      assert (front + rest)[j] == all[if j < |front| then j else j + 1];
    }
  }

  lemma PrefixIncreases(front: seq<Frame>, rest: seq<Frame>)
    requires Increasing(front + rest)
    ensures Increasing(front)
  {
    forall i, j | 0 <= i < j < |front| ensures front[i].number < front[j].number {
      assert front[i] == (front + rest)[i] && front[j] == (front + rest)[j];
    }
  }

  lemma EnqueueKeeps(r: Recorder, ptsMicros: nat, valid: bool)
    requires RecorderOk(r)
    ensures RecorderOk(Enqueued(r, ptsMicros, valid))
  {
    var f := Frame(r.snapshot.submitted, ptsMicros);
    var front := r.log + (if r.worker.Holding? then [r.worker.frame] else []);
    var t := Enqueued(r, ptsMicros, valid);
    match EnqueueAnswer(r, valid)
    case Accepted =>
      AppendIncreases(Alive(r), f);
      assert Alive(t) == Alive(r) + [f];
    case AcceptedDroppingOldest =>
      assert Alive(r) == front + [r.queue[0]] + r.queue[1..];
      RemoveIncreases(front, r.queue[0], r.queue[1..]);
      AppendIncreases(front + r.queue[1..], f);
      assert Alive(t) == front + r.queue[1..] + [f];
      assert forall g :: g in front + r.queue[1..] ==> g in Alive(r);
    case _ =>
  }

  lemma DiscardKeeps(r: Recorder)
    requires RecorderOk(r) && r.worker != Off && !r.worker.Discarding?
    requires r.snapshot.phase != Completed && r.snapshot.phase != Failed && r.snapshot.phase != Idle
    ensures RecorderOk(Discard(r, InFlight(r)))
  {
    var t := Discard(r, InFlight(r));
    assert Alive(t) == r.log;
    var rest := (if r.worker.Holding? then [r.worker.frame] else []) + r.queue;
    assert Alive(r) == r.log + rest;
    PrefixIncreases(r.log, rest);
  }

  lemma TakeKeeps(r: Recorder)
    requires RecorderOk(r) && CanStep(r, Take)
    ensures RecorderOk(Next(r, Take))
  {
    if r.queue != [] {
      assert Alive(Next(r, Take)) == Alive(r);
    }
  }

  lemma WriteKeeps(r: Recorder, ok: bool)
    requires RecorderOk(r) && CanStep(r, Write(ok))
    ensures RecorderOk(Next(r, Write(ok)))
  {
    if ok {
      assert Alive(Next(r, Write(ok))) == Alive(r);
    } else {
      DiscardKeeps(r);
    }
  }

  lemma StepKeeps(r: Recorder, step: Step)
    requires RecorderOk(r) && CanStep(r, step)
    ensures RecorderOk(Next(r, step))
  {
    match step
    case Enqueue(ptsMicros, valid) => EnqueueKeeps(r, ptsMicros, valid);
    case Take => TakeKeeps(r);
    case Write(ok) => WriteKeeps(r, ok);
    case Opened(ok) => if !ok { DiscardKeeps(r); }
    case Finalize(ok) => if !ok { DiscardKeeps(r); }
    case _ =>
  }

  predicate Possible(r: Recorder, steps: seq<Step>)
    decreases steps
  {
    steps == [] || (CanStep(r, steps[0]) && Possible(Next(r, steps[0]), steps[1..]))
  }

  function After(r: Recorder, steps: seq<Step>): Recorder
    requires Possible(r, steps)
    decreases steps
  {
    if steps == [] then r else After(Next(r, steps[0]), steps[1..])
  }

  lemma {:induction false} RunKeeps(r: Recorder, steps: seq<Step>)
    requires RecorderOk(r) && Possible(r, steps)
    ensures RecorderOk(After(r, steps))
    decreases steps
  {
    if steps == [] {
    } else {
      StepKeeps(r, steps[0]);
      RunKeeps(Next(r, steps[0]), steps[1..]);
    }
  }

  lemma FreshIsOk()
    ensures RecorderOk(FRESH)
  {
    assert Alive(FRESH) == [];
  }

  ghost predicate Reachable(r: Recorder) {
    exists steps :: Possible(FRESH, steps) && After(FRESH, steps) == r
  }

  lemma ReachableIsOk(r: Recorder)
    requires Reachable(r)
    ensures RecorderOk(r)
  {
    var steps :| Possible(FRESH, steps) && After(FRESH, steps) == r;
    FreshIsOk();
    RunKeeps(FRESH, steps);
  }

  predicate Conserved(r: Recorder) {
    r.snapshot.submitted
      == r.snapshot.written + r.snapshot.dropped + r.snapshot.queued + InFlight(r) + Unreported(r)
  }

  predicate Ended(r: Recorder) {
    r.snapshot.phase == Completed || r.snapshot.phase == Failed
  }

  lemma EndedIsSettled(r: Recorder)
    requires RecorderOk(r)
    ensures Conserved(r)
    ensures Ended(r) ==> r.snapshot.submitted == r.snapshot.written + r.snapshot.dropped
  {
  }

  /**
   * No frame is lost to the count: after every step of every run, what was submitted was written,
   * dropped, is shown as queued, is in the worker's hands or is about to be reported as dropped;
   * once recording has ended, well or badly, it was written or dropped.
   */
  lemma FramesAreConserved(r: Recorder)
    requires Reachable(r)
    ensures Conserved(r)
    ensures Ended(r) ==> r.snapshot.submitted == r.snapshot.written + r.snapshot.dropped
  {
    ReachableIsOk(r);
    EndedIsSettled(r);
  }

  lemma LogIncreases(r: Recorder)
    requires RecorderOk(r)
    ensures Increasing(r.log) && |r.log| == r.snapshot.written
  {
    var rest := (if r.worker.Holding? then [r.worker.frame] else []) + r.queue;
    assert Alive(r) == r.log + rest;
    PrefixIncreases(r.log, rest);
  }

  /**
   * A frame that is accepted is queued last. A full queue gives up its oldest frame for it, the one
   * submitted before every other that is still queued; a queue with room gives up none.
   */
  lemma FullQueueGivesUpTheOldest(r: Recorder, ptsMicros: nat)
    requires Reachable(r) && r.active && !r.stopping
    ensures var before, after := r.queue, Next(r, Enqueue(ptsMicros, true)).queue;
            && |after| > 0 && after[|after| - 1] == Frame(r.snapshot.submitted, ptsMicros)
            && (|before| < r.capacity ==> after[..|after| - 1] == before)
            && (|before| == r.capacity ==>
                  && |after| == |before| > 0 && before == [before[0]] + after[..|after| - 1]
                  && forall f :: f in after ==> before[0].number < f.number)
  {
    ReachableIsOk(r);
    EnqueueKeeps(r, ptsMicros, true);
    if r.queue != [] {
      OldestIsFirst(r);
    }
  }

  lemma OldestIsFirst(r: Recorder)
    requires RecorderOk(r) && r.queue != []
    ensures r.queue[0].number < r.snapshot.submitted
    ensures forall f :: f in r.queue[1..] ==> r.queue[0].number < f.number
  {
    var front := r.log + (if r.worker.Holding? then [r.worker.frame] else []);
    assert Alive(r) == front + r.queue;
    assert r.queue[0] in Alive(r);
    forall i | 0 < i < |r.queue| ensures r.queue[0].number < r.queue[i].number {
      assert Alive(r)[|front|] == r.queue[0] && Alive(r)[|front| + i] == r.queue[i];
    }
  }

  /** Frames are written in the order they were submitted, and none twice. */
  lemma WrittenInOrder(r: Recorder)
    requires Reachable(r)
    ensures Increasing(r.log) && |r.log| == r.snapshot.written
  {
    ReachableIsOk(r);
    LogIncreases(r);
  }

  // ---------------------------------------------------------------------------
  // How a recording ends

  lemma PhaseSaysWhere(r: Recorder)
    requires Reachable(r)
    ensures PhaseOk(r.snapshot.phase, r.worker)
  {
    ReachableIsOk(r);
  }

  /** A file got to its place, and no recording has been started since. */
  predicate Published(steps: seq<Step>) {
    exists i :: 0 <= i < |steps| && PublishedAt(steps, i)
  }

  predicate PublishedAt(steps: seq<Step>, i: nat)
    requires i < |steps|
  {
    steps[i] == Publish(true) && forall j :: i < j < |steps| ==> !steps[j].Start?
  }

  lemma PublishedFrom(steps: seq<Step>)
    requires steps != []
    ensures Published(steps) <==>
              || Published(steps[1..])
              || (steps[0] == Publish(true) && forall j :: 0 < j < |steps| ==> !steps[j].Start?)
  {
    if Published(steps) {
      var i :| 0 <= i < |steps| && PublishedAt(steps, i);
      if i > 0 {
        assert PublishedAt(steps[1..], i - 1);
      }
    }
    if Published(steps[1..]) {
      var i :| 0 <= i < |steps[1..]| && PublishedAt(steps[1..], i);
      assert PublishedAt(steps, i + 1) by {
        forall j | i + 1 < j < |steps| ensures !steps[j].Start? {
          assert steps[j] == steps[1..][j - 1];
        }
      }
    }
    if steps[0] == Publish(true) && forall j :: 0 < j < |steps| ==> !steps[j].Start? {
      assert PublishedAt(steps, 0);
    }
  }

  predicate StartsNone(steps: seq<Step>) {
    forall j :: 0 <= j < |steps| ==> !steps[j].Start?
  }

  lemma OneStepCompletes(r: Recorder, step: Step)
    requires RecorderOk(r) && CanStep(r, step)
    ensures Next(r, step).snapshot.phase == Completed <==>
              step == Publish(true) || (r.snapshot.phase == Completed && !step.Start?)
  {
  }

  lemma {:induction false} CompletesFrom(r: Recorder, steps: seq<Step>)
    requires RecorderOk(r) && Possible(r, steps)
    ensures After(r, steps).snapshot.phase == Completed <==>
              Published(steps) || (r.snapshot.phase == Completed && StartsNone(steps))
    decreases steps
  {
    if steps != [] {
      StepKeeps(r, steps[0]);
      OneStepCompletes(r, steps[0]);
      CompletesFrom(Next(r, steps[0]), steps[1..]);
      PublishedFrom(steps);
      assert StartsNone(steps) <==> !steps[0].Start? && StartsNone(steps[1..]) by {
        forall j | 0 < j < |steps| ensures steps[j] == steps[1..][j - 1] {
        }
      }
    }
  }

  /**
   * From any reachable state, after any run: a recording is shown as completed exactly when its file
   * has got to its place, in the run or before it, and no recording has been started since.
   */
  lemma CompletedIff(r: Recorder, steps: seq<Step>)
    requires Reachable(r) && Possible(r, steps)
    ensures After(r, steps).snapshot.phase == Completed <==>
              Published(steps) || (r.snapshot.phase == Completed && StartsNone(steps))
  {
    ReachableIsOk(r);
    CompletesFrom(r, steps);
  }

  // ---- A stop that nothing goes wrong with

  predicate Leads(r: Recorder, steps: seq<Step>, t: Recorder) {
    Possible(r, steps) && After(r, steps) == t
  }

  /** The worker takes and writes n frames, closes the file and puts it in its place. */
  function Finishes(n: nat): seq<Step> {
    if n == 0 then [Take, Finalize(true), Publish(true)] else [Take, Write(true)] + Finishes(n - 1)
  }

  lemma LastSteps(r: Recorder)
    requires RecorderOk(r) && r.worker == Looping && r.stopping && r.queue == []
    ensures Possible(r, Finishes(0))
    ensures After(r, Finishes(0)).log == r.log && After(r, Finishes(0)).snapshot.phase == Completed
    ensures After(r, Finishes(0)).snapshot.dropped == r.snapshot.dropped
  {
    var a := Next(r, Take);
    var b := Next(a, Finalize(true));
    var c := Next(b, Publish(true));
    var steps := Finishes(0);
    assert steps[1..] == [Finalize(true), Publish(true)] && steps[1..][1..] == [Publish(true)];
    assert Possible(c, []) && Possible(b, steps[1..][1..]) && Possible(a, steps[1..]);
    assert After(c, []) == c && After(b, steps[1..][1..]) == c && After(a, steps[1..]) == c;
  }

  lemma TwoThen(r: Recorder, a: Step, b: Step, rest: seq<Step>)
    requires CanStep(r, a) && CanStep(Next(r, a), b) && Possible(Next(Next(r, a), b), rest)
    ensures Possible(r, [a, b] + rest) && After(r, [a, b] + rest) == After(Next(Next(r, a), b), rest)
  {
    var steps := [a, b] + rest;
    assert steps[1..] == [b] + rest && steps[1..][1..] == rest;
    assert Possible(Next(r, a), steps[1..]) && After(Next(r, a), steps[1..]) == After(Next(Next(r, a), b), rest);
  }

  lemma {:induction false} Drains(r: Recorder)
    requires RecorderOk(r) && r.worker == Looping && r.stopping
    ensures var steps := Finishes(|r.queue|);
            && Possible(r, steps) && After(r, steps).log == r.log + r.queue
            && After(r, steps).snapshot.phase == Completed
            && After(r, steps).snapshot.dropped == r.snapshot.dropped
    decreases |r.queue|
  {
    if r.queue == [] {
      LastSteps(r);
      assert r.log + [] == r.log;
    } else {
      var held := Next(r, Take);
      var t := Next(held, Write(true));
      StepKeeps(r, Take);
      StepKeeps(held, Write(true));
      Drains(t);
      TwoThen(r, Take, Write(true), Finishes(|t.queue|));
      assert t.log + t.queue == r.log + r.queue;
    }
  }

  /**
   * A stop loses nothing: in any state in which the worker waits for frames, once stop is asked for
   * and nothing fails, every frame still queued is written, in order, and the recording completes.
   */
  lemma StopWritesWhatIsQueued(r: Recorder) returns (steps: seq<Step>, t: Recorder)
    requires Reachable(r) && r.active && r.worker == Looping
    ensures steps == [Stop] + Finishes(|r.queue|) && Leads(r, steps, t)
    ensures t.log == r.log + r.queue && t.snapshot.phase == Completed && t.snapshot.dropped == r.snapshot.dropped
  {
    ReachableIsOk(r);
    var stopped := Next(r, Stop);
    StepKeeps(r, Stop);
    Drains(stopped);
    steps := [Stop] + Finishes(|r.queue|);
    assert steps[1..] == Finishes(|r.queue|);
    t := After(stopped, Finishes(|r.queue|));
  }

  // ---- A recording from its start to its end

  function Enqueues(pts: seq<nat>): seq<Step> {
    if pts == [] then [] else Enqueues(pts[..|pts| - 1]) + [Enqueue(pts[|pts| - 1], true)]
  }

  lemma {:induction false} OneMore(r: Recorder, steps: seq<Step>, step: Step)
    requires Possible(r, steps) && CanStep(After(r, steps), step)
    ensures Leads(r, steps + [step], Next(After(r, steps), step))
    decreases steps
  {
    if steps == [] {
      assert Possible(Next(r, step), []);
    } else {
      OneMore(Next(r, steps[0]), steps[1..], step);
      assert (steps + [step])[1..] == steps[1..] + [step];
    }
  }

  lemma {:induction false} Continues(r: Recorder, a: seq<Step>, t: Recorder, b: seq<Step>)
    requires Leads(r, a, t) && Possible(t, b)
    ensures Leads(r, a + b, After(t, b))
    decreases a
  {
    if a == [] {
      assert a + b == b;
    } else {
      Continues(Next(r, a[0]), a[1..], t, b);
      assert (a + b)[1..] == a[1..] + b;
    }
  }

  /** The frames are those submitted, by number and by time. */
  predicate AreFrames(frames: seq<Frame>, pts: seq<nat>) {
    |frames| == |pts| && forall i :: 0 <= i < |pts| ==> frames[i] == Frame(i, pts[i])
  }

  /** Recording, with these frames queued and nothing lost or written. */
  predicate Queues(r: Recorder, pts: seq<nat>) {
    && AreFrames(r.queue, pts) && r.log == [] && r.worker == Looping && r.active && !r.stopping
    && r.snapshot.submitted == |pts| && r.snapshot.dropped == 0
  }

  lemma {:induction false} QueuesAll(r: Recorder, pts: seq<nat>)
    requires Queues(r, []) && |pts| <= r.capacity
    ensures Possible(r, Enqueues(pts)) && Queues(After(r, Enqueues(pts)), pts)
    ensures After(r, Enqueues(pts)).capacity == r.capacity
    decreases |pts|
  {
    if pts != [] {
      var front, last := pts[..|pts| - 1], pts[|pts| - 1];
      QueuesAll(r, front);
      OneMore(r, Enqueues(front), Enqueue(last, true));
    }
  }

  lemma Starts(capacity: nat) returns (r: Recorder)
    requires 0 < capacity <= MAXIMUM_QUEUE_CAPACITY
    ensures Leads(FRESH, [Start(capacity, true), Opened(true)], r) && Queues(r, []) && r.capacity == capacity
  {
    var opening := Next(FRESH, Start(capacity, true));
    r := Next(opening, Opened(true));
    var steps := [Start(capacity, true), Opened(true)];
    assert steps[1..] == [Opened(true)] && steps[1..][1..] == [];
    assert Possible(r, []) && Possible(opening, steps[1..]);
    assert After(r, []) == r && After(opening, steps[1..]) == r;
  }

  /**
   * A recording of no more frames than its queue holds loses none, even if its worker gets to none of
   * them before the stop: it completes with all of them written, in order.
   */
  lemma ShortRecordingIsWhole(capacity: nat, pts: seq<nat>) returns (steps: seq<Step>, t: Recorder)
    requires |pts| <= capacity && 0 < capacity <= MAXIMUM_QUEUE_CAPACITY
    ensures steps == [Start(capacity, true), Opened(true)] + Enqueues(pts) + ([Stop] + Finishes(|pts|))
    ensures Leads(FRESH, steps, t)
    ensures AreFrames(t.log, pts) && t.snapshot.phase == Completed && t.snapshot.dropped == 0
  {
    var r := Starts(capacity);
    QueuesAll(r, pts);
    var q := After(r, Enqueues(pts));
    Continues(FRESH, [Start(capacity, true), Opened(true)], r, Enqueues(pts));
    var more;
    more, t := StopWritesWhatIsQueued(q);
    assert q.log + q.queue == q.queue;
    steps := [Start(capacity, true), Opened(true)] + Enqueues(pts) + more;
    Continues(FRESH, [Start(capacity, true), Opened(true)] + Enqueues(pts), q, more);
  }

  // ---------------------------------------------------------------------------
  // The recorder as the program has it

  class Mp4Recorder {
    var capacity: nat
    var queue: seq<Frame>
    var sessionActive: bool
    var stopRequested: bool
    var phase: Phase
    var submittedFrames: nat
    var writtenFrames: nat
    var droppedFrames: nat
    var queuedFrames: nat
    ghost var worker: Worker
    ghost var log: seq<Frame>

    ghost function Model(): Recorder
      reads this
    {
      Recorder(capacity, queue, sessionActive, stopRequested,
               Snapshot(phase, submittedFrames, writtenFrames, droppedFrames, queuedFrames), worker, log)
    }

    constructor ()
      ensures Model() == FRESH
    {
      capacity, queue, sessionActive, stopRequested := 0, [], false, false;
      phase, submittedFrames, writtenFrames, droppedFrames, queuedFrames := Idle, 0, 0, 0, 0;
      worker, log := Off, [];
    }

    /** Accepts a frame without waiting; a full queue gives up its oldest. */
    method EnqueueFrame(ptsMicros: nat, valid: bool) returns (answer: Answer)
      requires sessionActive ==> 0 < capacity
      modifies this`queue, this`submittedFrames, this`droppedFrames, this`queuedFrames
      ensures answer == EnqueueAnswer(old(Model()), valid)
      ensures Model() == Next(old(Model()), Enqueue(ptsMicros, valid))
    {
      if !sessionActive || stopRequested { return NotAccepting; }
      if !valid { return InvalidArgument; }
      var frame := Frame(submittedFrames, ptsMicros);
      var dropped := false;
      if |queue| >= capacity {
        queue := queue[1..];
        dropped := true;
      }
      queue := queue + [frame];
      submittedFrames := submittedFrames + 1;
      if dropped { droppedFrames := droppedFrames + 1; }
      queuedFrames := |queue|;
      return if dropped then AcceptedDroppingOldest else Accepted;
    }

    method RequestStop()
      modifies this`stopRequested, this`sessionActive
      ensures Model() == Next(old(Model()), Stop)
    {
      if sessionActive {
        stopRequested := true;
        sessionActive := false;
      }
    }

    /** The worker's next frame, or None when it is to close the file. */
    method TakeFrame() returns (frame: seq<Frame>)
      requires CanStep(Model(), Take)
      modifies this`queue, this`queuedFrames, this`phase, this`worker
      ensures Model() == Next(old(Model()), Take)
      ensures frame == old(if queue == [] then [] else [queue[0]])
    {
      if queue == [] {
        phase := Finalizing;
        worker := Closing;
        return [];
      }
      frame := [queue[0]];
      worker := Holding(queue[0]);
      queue := queue[1..];
      queuedFrames := |queue|;
    }

    /** discardAndFail: the queue goes at once, the count follows. */
    method DiscardAndFail(currentFrames: nat)
      requires worker != Off && !worker.Discarding?
      modifies this
      ensures Model() == Next(Discard(old(Model()), currentFrames), Report)
    {
      var discarded := currentFrames + |queue|;
      queue := [];
      stopRequested := true;
      sessionActive := false;
      phase := Failed;
      droppedFrames := droppedFrames + discarded;
      queuedFrames := 0;
      worker := Off;
    }
  }
}
