/** The decoding pipeline's own bounded queue, filled by the session and emptied by one worker. */
module Pipeline {
  import opened Bytes
  import opened Session
  import opened Wrappers

  const MAX_QUEUED_UNITS := 8
  const MAX_QUEUED_BYTES := 20 * 1024 * 1024

  function UnitBytes(queue: seq<Unit>): nat {
    if queue == [] then 0 else |queue[0].bytes| + UnitBytes(queue[1..])
  }

  /** What the worker has done to the decoder: given it a unit, or flushed or rebuilt it. */
  datatype Feed = Fed(unit: Unit) | Break

  /**
   * `holding` is the unit the worker has taken off the queue; `fed` and `accepted`, the last unit
   * let in since the queue was last flushed, are not in the program.
   */
  datatype State = State(queue: seq<Unit>, queueBytes: nat, waiting: bool, pendingReset: bool,
                         holding: Option<Unit>, fed: seq<Feed>, accepted: Option<Unit>)

  const START := State([], 0, true, false, None, [], None)

  function Flush(p: State): State {
    p.(queue := [], queueBytes := 0, waiting := true, accepted := None)
  }

  predicate Overflows(p: State, u: Unit) {
    && (p.waiting ==> u.keyframe)
    && (|p.queue| >= MAX_QUEUED_UNITS || p.queueBytes + |u.bytes| > MAX_QUEUED_BYTES)
  }

  /** consume: always takes the unit, one way or another. */
  function Offered(p: State, u: Unit): State {
    if p.waiting && !u.keyframe then p
    else if Overflows(p, u) then Flush(p)
    else p.(waiting := p.waiting && !u.keyframe, queue := p.queue + [u],
            queueBytes := p.queueBytes + |u.bytes|, accepted := Some(u))
  }

  function Restarted(p: State): State {
    Flush(p).(pendingReset := true)
  }

  // ---- The worker

  predicate CanTake(p: State) {
    p.holding == None && (p.pendingReset || p.queue != [])
  }

  /** A reset asked for comes before any queued unit. */
  function Taken(p: State): State
    requires CanTake(p)
  {
    if p.pendingReset then p.(pendingReset := false, fed := p.fed + [Break])
    else
      var n := |p.queue[0].bytes|;
      p.(holding := Some(p.queue[0]), queue := p.queue[1..],
         queueBytes := if n <= p.queueBytes then p.queueBytes - n else 0)
  }

  datatype Outcome = NoDecoder | Pushed | PushFailed

  /** The unit taken goes to the decoder; any failure flushes the queue and the decoder. */
  function Push(p: State, outcome: Outcome): State
    requires p.holding.Some?
  {
    match outcome
    case Pushed => p.(holding := None, fed := p.fed + [Fed(p.holding.value)])
    case PushFailed => Flush(p).(holding := None, fed := p.fed + [Fed(p.holding.value), Break])
    case NoDecoder => Flush(p).(holding := None, fed := p.fed + [Break])
  }

  // ---------------------------------------------------------------------------
  // The pipeline as the program has it

  class LiveMediaPipeline {
    var queue: seq<Unit>
    var queueBytes: nat
    var waitingForKeyframe: bool
    var pendingReset: bool
    ghost var holding: Option<Unit>
    ghost var fed: seq<Feed>
    ghost var accepted: Option<Unit>

    ghost predicate Valid()
      reads this
    {
      && queueBytes == UnitBytes(queue) <= MAX_QUEUED_BYTES && |queue| <= MAX_QUEUED_UNITS
      && (waitingForKeyframe ==> queue == [])
    }

    ghost function Model(): State
      reads this
    {
      State(queue, queueBytes, waitingForKeyframe, pendingReset, holding, fed, accepted)
    }

    constructor ()
      ensures Valid() && Model() == START
    {
      queue, queueBytes, waitingForKeyframe, pendingReset := [], 0, true, false;
      holding, fed, accepted := None, [], None;
    }

    method Clear()
      modifies this`queue, this`queueBytes, this`waitingForKeyframe, this`accepted
      ensures Valid() && Model() == Flush(old(Model()))
    {
      queue := [];
      queueBytes := 0;
      waitingForKeyframe := true;
      accepted := None;
    }

    method Consume(unit: Unit) returns (requestKeyframe: bool)
      requires Valid()
      modifies this
      ensures Valid() && Model() == Offered(old(Model()), unit)
      ensures requestKeyframe == Overflows(old(Model()), unit)
    {
      requestKeyframe := false;
      if waitingForKeyframe && !unit.keyframe { return; }
      if |queue| >= MAX_QUEUED_UNITS || queueBytes + |unit.bytes| > MAX_QUEUED_BYTES {
        Clear();
        requestKeyframe := true;
      }
      if !requestKeyframe {
        if unit.keyframe { waitingForKeyframe := false; }
        UnitBytesAppend(queue, unit);
        queue := queue + [unit];
        queueBytes := queueBytes + |unit.bytes|;
        accepted := Some(unit);
      }
    }

    method Reset()
      requires Valid()
      modifies this
      ensures Valid() && Model() == Restarted(old(Model()))
    {
      Clear();
      pendingReset := true;
    }

    /** The top of the worker's loop: a reset to carry out, or the next unit. */
    method TakeNext() returns (unit: Option<Unit>)
      requires Valid() && CanTake(Model())
      modifies this
      ensures Valid() && Model() == Taken(old(Model())) && unit == holding
    {
      if pendingReset {
        pendingReset := false;
        fed := fed + [Break];
        return None;
      }
      unit := Some(queue[0]);
      holding := unit;
      queueBytes := queueBytes - |queue[0].bytes|;
      queue := queue[1..];
    }

    /** The rest of the loop, when the codec is selected or not and the push does or does not work. */
    method PushHeld(selected: bool, pushed: bool)
      requires Valid() && holding.Some?
      modifies this
      ensures Valid()
      ensures Model() == Push(old(Model()), if !selected then NoDecoder else if pushed then Pushed else PushFailed)
    {
      if !selected {
        fed := fed + [Break];
        Clear();
      } else {
        fed := fed + [Fed(holding.value)];
        if !pushed {
          fed := fed + [Break];
          Clear();
        }
      }
      holding := None;
    }
  }

  lemma {:induction false} UnitBytesAppend(queue: seq<Unit>, u: Unit)
    ensures UnitBytes(queue + [u]) == UnitBytes(queue) + |u.bytes|
  {
    if queue == [] {
      assert UnitBytes([u]) == |u.bytes| + UnitBytes([]);
    } else {
      UnitBytesAppend(queue[1..], u);
      assert (queue + [u])[1..] == queue[1..] + [u];
    }
  }
}
