/** Two bounded keyframe-gated queues in series: the session's, then the pipeline's. */
module MediaPath {
  import opened Bytes
  import opened AnnexB
  import opened Session
  import opened Backend
  import opened Wrappers
  import L = Pipeline

  /** The PC with the live pipeline as its consumer. */
  datatype Path = Path(pc: Pc, pipe: L.State)

  datatype Step =
    | Section(event: Event)         // a section of the session, and any call of the pipeline in it
    | WorkerTakes
    | WorkerPushes(outcome: L.Outcome)

  ghost predicate CanStep(p: Path, step: Step) {
    match step
    case Section(event) => Backend.Enabled(p.pc, event) && (p.pc.rx.Consuming? && event.Proceed? ==> event.answer)
    case WorkerTakes => L.CanTake(p.pipe)
    case WorkerPushes(_) => p.pipe.holding.Some?
  }

  /** What the pipeline is told in a section. */
  function Told(p: Path, event: Event): L.State {
    if !event.Proceed? || !p.pc.attached then p.pipe
    else match p.pc.rx
      case Consuming(queued) => L.Offered(p.pipe, queued.unit)
      case Resetting(_, _, called) => if called then p.pipe else L.Restarted(p.pipe)
      case _ => p.pipe
  }

  function Stepped(p: Path, step: Step): Path
    requires step.WorkerTakes? ==> L.CanTake(p.pipe)
    requires step.WorkerPushes? ==> p.pipe.holding.Some?
  {
    match step
    case Section(event) => Path(Backend.Next(p.pc, event), Told(p, event))
    case WorkerTakes => p.(pipe := L.Taken(p.pipe))
    case WorkerPushes(outcome) => p.(pipe := L.Push(p.pipe, outcome))
  }

  // ---------------------------------------------------------------------------
  // Chains of units

  /** b may follow a at the decoder: nothing that arrived is missing between them, or b starts anew. */
  predicate Linked(a: Option<Unit>, b: Unit) {
    b.keyframe || (a.Some? && b.origin.arrival == a.value.origin.arrival + 1)
  }

  predicate Chain(a: Option<Unit>, units: seq<Unit>)
    decreases units
  {
    units == [] || (Linked(a, units[0]) && Chain(Some(units[0]), units[1..]))
  }

  function Last(a: Option<Unit>, units: seq<Unit>): Option<Unit> {
    if units == [] then a else Some(units[|units| - 1])
  }

  lemma {:induction false} ChainAppend(a: Option<Unit>, units: seq<Unit>, u: Unit)
    requires Chain(a, units) && Linked(Last(a, units), u)
    ensures Chain(a, units + [u]) && Last(a, units + [u]) == Some(u)
    decreases units
  {
    if units == [] {
      assert [u][1..] == [];
    } else {
      ChainAppend(Some(units[0]), units[1..], u);
      assert (units + [u])[1..] == units[1..] + [u];
    }
  }

  // ---------------------------------------------------------------------------
  // What every step keeps

  /** The unit the decoder got last, if it was not flushed since. */
  function Before(fed: seq<L.Feed>): Option<Unit> {
    if fed != [] && fed[|fed| - 1].Fed? then Some(fed[|fed| - 1].unit) else None
  }

  /** Every unit the decoder got may follow what it had got before. */
  predicate FedOk(fed: seq<L.Feed>) {
    forall i :: 0 <= i < |fed| && fed[i].Fed? ==> Linked(Before(fed[..i]), fed[i].unit)
  }

  /** The last unit on its way to the decoder, or given to it. */
  function AtDecoder(p: L.State): Option<Unit> {
    if p.holding.Some? then p.holding else Before(p.fed)
  }

  predicate PipeOk(p: L.State) {
    && FedOk(p.fed)
    && (p.holding.Some? ==> Linked(Before(p.fed), p.holding.value))
    && Chain(if p.pendingReset then None else AtDecoder(p), p.queue)
    && (p.waiting ==> p.queue == [] && p.accepted == None)
    && (!p.waiting ==> p.accepted.Some? && p.accepted == Last(if p.pendingReset then None else AtDecoder(p), p.queue))
  }

  /** What the session still has to offer to the pipeline. */
  function Coming(pc: Pc): seq<Unit> {
    var tail := if pc.session.queue == [] then [] else Units(pc.session.queue[1..]);
    match pc.rx
    case Consuming(q) => [q.unit] + tail
    case Consumed(q) => tail
    case _ => Units(pc.session.queue)
  }

  /** Units offered follow one another, and the first follows what the pipeline let in last. */
  predicate ComingOk(accepted: Option<Unit>, coming: seq<Unit>) {
    coming != [] ==>
      && Chain(Some(coming[0]), coming[1..])
      && (accepted.Some? ==> Linked(accepted, coming[0]))
  }

  /** Unless a keyframe is awaited, no frame has been lost since the last one let in. */
  predicate ArrivalsOk(pc: Pc, last: Option<Unit>) {
    if pc.rx.Opened? then
      && pc.rx.frame.origin.arrival + 1 == pc.arrivals
      && (!pc.session.waiting && last.Some? ==> last.value.origin.arrival + 1 == pc.rx.frame.origin.arrival)
    else
      !pc.session.waiting && pc.session.phase == Streaming && pc.session.pending == None && last.Some? ==>
        last.value.origin.arrival + 1 == pc.arrivals
  }

  predicate FlowOk(pc: Pc, accepted: Option<Unit>) {
    ComingOk(accepted, Coming(pc)) && ArrivalsOk(pc, Last(accepted, Coming(pc)))
  }

  predicate PathOk(p: Path) {
    PcOk(p.pc) && p.pc.attached && PipeOk(p.pipe) && FlowOk(p.pc, p.pipe.accepted)
  }

  // ---- The pipeline alone

  lemma FedAppend(fed: seq<L.Feed>, f: L.Feed)
    requires FedOk(fed) && (f.Fed? ==> Linked(Before(fed), f.unit))
    ensures FedOk(fed + [f]) && Before(fed + [f]) == if f.Fed? then Some(f.unit) else None
  {
    var all := fed + [f];
    assert all[..|fed|] == fed;
    forall i | 0 <= i < |all| && all[i].Fed? ensures Linked(Before(all[..i]), all[i].unit) {
      if i < |fed| {
        assert all[..i] == fed[..i] && fed[i].Fed?;
      }
    }
  }

  lemma TakeKeeps(p: L.State)
    requires PipeOk(p) && L.CanTake(p)
    ensures PipeOk(L.Taken(p)) && L.Taken(p).accepted == p.accepted
  {
    if p.pendingReset {
      FedAppend(p.fed, L.Break);
    }
  }

  lemma PushKeeps(p: L.State, outcome: L.Outcome)
    requires PipeOk(p) && p.holding.Some?
    ensures PipeOk(L.Push(p, outcome))
    ensures L.Push(p, outcome).accepted == if outcome == L.Pushed then p.accepted else None
  {
    var fed := p.fed + [L.Fed(p.holding.value)];
    FedAppend(p.fed, L.Fed(p.holding.value));
    FedAppend(fed, L.Break);
    FedAppend(p.fed, L.Break);
    assert fed + [L.Break] == p.fed + [L.Fed(p.holding.value), L.Break];
  }

  lemma OfferKeeps(p: L.State, u: Unit)
    requires PipeOk(p) && (p.accepted.Some? ==> Linked(p.accepted, u))
    ensures PipeOk(L.Offered(p, u))
    ensures L.Offered(p, u).accepted == Some(u) || L.Offered(p, u).accepted == None
  {
    if L.Offered(p, u).accepted.Some? {
      ChainAppend(if p.pendingReset then None else AtDecoder(p), p.queue, u);
    }
  }

  lemma RestartKeeps(p: L.State)
    requires PipeOk(p)
    ensures PipeOk(L.Restarted(p)) && L.Restarted(p).accepted == None
  {
  }

  // ---- The session's sections

  /** A unit admitted to the session's queue follows what came before it. */
  lemma AdmitKeeps(accepted: Option<Unit>, coming: seq<Unit>, u: Unit)
    requires ComingOk(accepted, coming)
    requires Last(accepted, coming).Some? ==> Linked(Last(accepted, coming), u)
    ensures ComingOk(accepted, coming + [u]) && Last(accepted, coming + [u]) == Some(u)
  {
    if coming == [] {
      assert coming + [u] == [u];
    } else {
      ChainAppend(Some(coming[0]), coming[1..], u);
      assert (coming + [u])[1..] == coming[1..] + [u];
    }
  }

  lemma OpenedKeeps(pc: Pc, accepted: Option<Unit>)
    requires PcOk(pc) && pc.rx.Opened?
    requires FlowOk(pc, accepted)
    ensures FlowOk(Proceeded(pc, true), accepted)
  {
    var s, f := pc.session, pc.rx.frame;
    if Admit(s, pc.limits, f) == Admitted {
      var u := UnitOf(f, pc.rx.codec, pc.rx.generation);
      UnitsAppend(s.queue, Queued(s.nextToken, u));
      AdmitKeeps(accepted, Coming(pc), u);
    }
  }

  lemma VideoKeepsComing(pc: Pc, accepted: Option<Unit>, f: Frame, ok: bool)
    requires PcOk(pc) && pc.rx == Waiting && f.origin.arrival == pc.arrivals
    requires FlowOk(pc, accepted)
    ensures FlowOk(Backend.Next(pc, Event.Video(f, ok)), accepted)
  {
  }

  /** Flushing the queue and waiting for a keyframe is always safe. */
  lemma FlushKeepsFlow(pc: Pc, accepted: Option<Unit>, s: Session)
    requires FlowOk(pc, accepted) && s.queue == [] && s.waiting
    ensures FlowOk(pc.(session := s), accepted)
  {
  }

  /** So is leaving queue and gate alone while nothing new starts streaming. */
  lemma SameQueueKeepsFlow(pc: Pc, accepted: Option<Unit>, s: Session)
    requires FlowOk(pc, accepted) && s.queue == pc.session.queue && s.waiting == pc.session.waiting
    requires s.phase == Streaming && s.pending == None ==> pc.session.phase == Streaming && pc.session.pending == None
    ensures FlowOk(pc.(session := s), accepted)
  {
  }

  lemma OutsideKeepsComing(pc: Pc, accepted: Option<Unit>, event: Event)
    requires event.SetFormat? || event.GiveUp? || event.Connected? || event.Hangup?
    requires FlowOk(pc, accepted)
    ensures FlowOk(Backend.Next(pc, event), accepted)
  {
    var s := Backend.Next(pc, event).session;
    if s.queue == [] && s.waiting {
      FlushKeepsFlow(pc, accepted, s);
    } else {
      SameQueueKeepsFlow(pc, accepted, s);
    }
  }

  /** Sections that leave the queue alone or flush it, and wait for a keyframe whenever a gap may open. */
  lemma ControlKeepsComing(pc: Pc, accepted: Option<Unit>, m: Message)
    requires PcOk(pc) && pc.rx == Waiting
    requires FlowOk(pc, accepted)
    ensures FlowOk(Received(pc, m), accepted)
  {
    var t := Received(pc, m);
    if t.session.queue == [] && t.session.waiting {
      FlushKeepsFlow(pc, accepted, t.session);
    } else {
      SameQueueKeepsFlow(pc, accepted, t.session);
    }
    assert Coming(t) == Coming(pc.(session := t.session));
  }

  lemma DrainKeepsComing(pc: Pc, accepted: Option<Unit>)
    requires PcOk(pc) && (pc.rx.Draining? || pc.rx.Consumed?)
    requires FlowOk(pc, accepted)
    ensures FlowOk(Proceeded(pc, true), accepted)
  {
    if pc.rx.Draining? && pc.session.queue != [] {
      assert Units(pc.session.queue) == [pc.session.queue[0].unit] + Units(pc.session.queue[1..]);
    }
  }

  /** The unit offered leaves what is coming, whether the pipeline lets it in or flushes. */
  lemma ConsumeKeepsComing(pc: Pc, accepted: Option<Unit>, next: Option<Unit>)
    requires PcOk(pc) && pc.rx.Consuming? && (next == None || next == Some(pc.rx.queued.unit))
    requires FlowOk(pc, accepted)
    ensures FlowOk(Proceeded(pc, true), next)
  {
    var tail := Coming(pc)[1..];
    assert Coming(Proceeded(pc, true)) == tail;
  }

  lemma ResetKeepsComing(pc: Pc, accepted: Option<Unit>, next: Option<Unit>)
    requires PcOk(pc) && pc.rx.Resetting? && (next == None || next == accepted)
    requires FlowOk(pc, accepted)
    ensures FlowOk(Proceeded(pc, true), next)
  {
  }

  lemma OfferKeepsPath(p: Path)
    requires PathOk(p) && p.pc.rx.Consuming?
    ensures PipeOk(L.Offered(p.pipe, p.pc.rx.queued.unit))
    ensures FlowOk(Proceeded(p.pc, true), L.Offered(p.pipe, p.pc.rx.queued.unit).accepted)
  {
    var u := p.pc.rx.queued.unit;
    assert Coming(p.pc)[0] == u;
    OfferKeeps(p.pipe, u);
    OfferedFlow(p.pc, p.pipe, u);
  }

  lemma OfferedFlow(pc: Pc, pipe: L.State, u: Unit)
    requires PcOk(pc) && pc.rx.Consuming? && u == pc.rx.queued.unit && PipeOk(pipe) && FlowOk(pc, pipe.accepted)
    ensures FlowOk(Proceeded(pc, true), L.Offered(pipe, u).accepted)
  {
    var next := L.Offered(pipe, u).accepted;
    if next == None || next == Some(u) {
      ConsumeKeepsComing(pc, pipe.accepted, next);
    }
  }

  lemma ProceedKeepsPath(p: Path, answer: bool)
    requires PathOk(p) && p.pc.rx != Waiting && (p.pc.rx.Consuming? ==> answer)
    ensures PipeOk(Told(p, Proceed(answer))) && FlowOk(Proceeded(p.pc, answer), Told(p, Proceed(answer)).accepted)
  {
    match p.pc.rx
    case Opened(_, _, _) => OpenedKeeps(p.pc, p.pipe.accepted);
    case Draining => DrainKeepsComing(p.pc, p.pipe.accepted);
    case Consumed(_) => DrainKeepsComing(p.pc, p.pipe.accepted);
    case Consuming(_) => OfferKeepsPath(p);
    case Resetting(_, _, called) =>
      RestartKeeps(p.pipe);
      ResetKeepsComing(p.pc, p.pipe.accepted, if called then p.pipe.accepted else None);
  }

  lemma ReceptionKeepsFlow(pc: Pc, accepted: Option<Unit>, event: Event)
    requires PcOk(pc) && Backend.Enabled(pc, event) && !event.Proceed? && FlowOk(pc, accepted)
    ensures FlowOk(Backend.Next(pc, event), accepted)
  {
    match event
    case Control(m) => ControlKeepsComing(pc, accepted, m);
    case Video(f, ok) => VideoKeepsComing(pc, accepted, f, ok);
    case _ => OutsideKeepsComing(pc, accepted, event);
  }

  lemma AttachedStays(pc: Pc, event: Event)
    ensures Backend.Next(pc, event).attached == pc.attached
  {
  }

  lemma SessionKeepsPath(p: Path, event: Event)
    requires PathOk(p) && CanStep(p, Section(event))
    ensures PathOk(Stepped(p, Section(event)))
  {
    Backend.StepKeeps(p.pc, event);
    AttachedStays(p.pc, event);
    if event.Proceed? {
      ProceedKeepsPath(p, event.answer);
    } else {
      ReceptionKeepsFlow(p.pc, p.pipe.accepted, event);
    }
  }

  /** Flushing what the pipeline let in never makes a demand of what is still coming. */
  lemma ForgetAccepted(pc: Pc, accepted: Option<Unit>)
    requires FlowOk(pc, accepted)
    ensures FlowOk(pc, None)
  {
  }

  lemma StepKeepsPath(p: Path, step: Step)
    requires PathOk(p) && CanStep(p, step)
    ensures PathOk(Stepped(p, step))
  {
    match step
    case Section(event) => SessionKeepsPath(p, event);
    case WorkerTakes => TakeKeeps(p.pipe);
    case WorkerPushes(outcome) =>
      PushKeeps(p.pipe, outcome);
      ForgetAccepted(p.pc, p.pipe.accepted);
  }

  // ---- Nothing but what was accepted gets anywhere

  ghost predicate PipeHolds(p: L.State, good: iset<Unit>) {
    && (forall u :: u in p.queue ==> u in good)
    && (p.holding.Some? ==> p.holding.value in good)
    && (forall f :: f in p.fed && f.Fed? ==> f.unit in good)
  }

  lemma OfferHolds(p: L.State, u: Unit, good: iset<Unit>)
    requires PipeHolds(p, good) && u in good
    ensures PipeHolds(L.Offered(p, u), good) && PipeHolds(L.Restarted(p), good)
  {
  }

  lemma WorkerHolds(p: L.State, outcome: L.Outcome, good: iset<Unit>)
    requires PipeHolds(p, good)
    ensures L.CanTake(p) ==> PipeHolds(L.Taken(p), good)
    ensures p.holding.Some? ==> PipeHolds(L.Push(p, outcome), good)
  {
  }

  lemma StepHolds(p: Path, step: Step, good: iset<Unit>)
    requires SessionHolds(p.pc, good) && PipeHolds(p.pipe, good) && CanStep(p, step)
    requires step.Section? && Admissible(p.pc, step.event).Some? ==> Admissible(p.pc, step.event).value in good
    ensures SessionHolds(Stepped(p, step).pc, good) && PipeHolds(Stepped(p, step).pipe, good)
  {
    match step
    case Section(event) =>
      Backend.StepHolds(p.pc, event, good);
      if event.Proceed? && p.pc.rx.Consuming? { OfferHolds(p.pipe, p.pc.rx.queued.unit, good); }
    case WorkerTakes => WorkerHolds(p.pipe, L.Pushed, good);
    case WorkerPushes(outcome) => WorkerHolds(p.pipe, outcome, good);
  }

  /** A keyframe can be decoded from where it stands. */
  ghost predicate Startable(u: Unit) {
    u.keyframe ==> SelfContained(Nals(u.bytes, u.codec), u.codec)
  }

  ghost function AllStartable(): iset<Unit> {
    iset u: Unit | Startable(u)
  }

  lemma AdmissibleIsStartable(pc: Pc, event: Event)
    requires Backend.Enabled(pc, event) && Admissible(pc, event).Some?
    ensures Admissible(pc, event).value in AllStartable()
  {
  }

  // ---------------------------------------------------------------------------
  // Runs

  function Begin(initial: StreamConfig, limits: Limits): Path {
    Path(Fresh(initial, limits, true), L.START)
  }

  ghost predicate Possible(p: Path, steps: seq<Step>)
    decreases steps
  {
    steps == [] || (CanStep(p, steps[0]) && Possible(Stepped(p, steps[0]), steps[1..]))
  }

  ghost function After(p: Path, steps: seq<Step>): Path
    requires Possible(p, steps)
    decreases steps
  {
    if steps == [] then p else After(Stepped(p, steps[0]), steps[1..])
  }

  lemma {:induction false} RunKeeps(p: Path, steps: seq<Step>)
    requires PathOk(p) && Possible(p, steps)
    requires SessionHolds(p.pc, AllStartable()) && PipeHolds(p.pipe, AllStartable())
    ensures PathOk(After(p, steps)) && PipeHolds(After(p, steps).pipe, AllStartable())
    decreases steps
  {
    if steps == [] {
    } else {
      StepKeepsPath(p, steps[0]);
      if steps[0].Section? && Admissible(p.pc, steps[0].event).Some? {
        AdmissibleIsStartable(p.pc, steps[0].event);
      }
      StepHolds(p, steps[0], AllStartable());
      RunKeeps(Stepped(p, steps[0]), steps[1..]);
    }
  }

  lemma FedFollows(fed: seq<L.Feed>, i: nat)
    requires FedOk(fed) && i < |fed| && fed[i].Fed? && !fed[i].unit.keyframe
    ensures 0 < i && fed[i - 1].Fed? && fed[i].unit.origin.arrival == fed[i - 1].unit.origin.arrival + 1
  {
    assert Linked(Before(fed[..i]), fed[i].unit);
  }

  /**
   * No hidden gap: over any run, through any overflow, failure, reset and format change, each unit
   * given to the decoder either arrived right behind the one given before it or is a keyframe; the
   * first one, and the first after any flush or rebuild of the decoder, is a keyframe; and a
   * keyframe can be decoded from where it stands.
   */
  lemma NoHiddenGap(initial: StreamConfig, limits: Limits, steps: seq<Step>, i: nat)
    requires Possible(Begin(initial, limits), steps)
    ensures var fed := After(Begin(initial, limits), steps).pipe.fed;
            i < |fed| && fed[i].Fed? && !fed[i].unit.keyframe ==>
              && 0 < i && fed[i - 1].Fed?
              && fed[i].unit.origin.arrival == fed[i - 1].unit.origin.arrival + 1
    ensures var fed := After(Begin(initial, limits), steps).pipe.fed;
            i < |fed| && fed[i].Fed? && fed[i].unit.keyframe ==>
              SelfContained(Nals(fed[i].unit.bytes, fed[i].unit.codec), fed[i].unit.codec)
  {
    RunKeeps(Begin(initial, limits), steps);
    var fed := After(Begin(initial, limits), steps).pipe.fed;
    if i < |fed| && fed[i].Fed? {
      if !fed[i].unit.keyframe { FedFollows(fed, i); }
      assert fed[i] in fed && fed[i].unit in AllStartable();
    }
  }

  // ---------------------------------------------------------------------------
  // What the decoder gets of a frame

  /** What the session goes through in a run. */
  function Sections(steps: seq<Step>): seq<Event> {
    if steps == [] then []
    else (if steps[0].Section? then [steps[0].event] else []) + Sections(steps[1..])
  }

  /** Every unit on the way to the decoder, or at it, is one of these. */
  ghost predicate Holds(p: Path, good: iset<Unit>) {
    SessionHolds(p.pc, good) && PipeHolds(p.pipe, good)
  }

  lemma {:induction false} RunHolds(p: Path, steps: seq<Step>, frames: seq<Frame>)
    requires Possible(p, steps) && p.pc.arrivals == |frames| && Holds(p, MadeFrom(frames))
    ensures Holds(After(p, steps), MadeFrom(frames + Arrivals(Sections(steps))))
    decreases steps
  {
    if steps == [] {
      assert frames + [] == frames;
    } else if steps[0].Section? {
      var event := steps[0].event;
      var more := Seen(frames, event);
      FrameMakesUnit(p.pc, event, frames);
      HoldsMore(p.pc, MadeFrom(frames), MadeFrom(more));
      StepHolds(p, steps[0], MadeFrom(more));
      RunHolds(Stepped(p, steps[0]), steps[1..], more);
      assert Sections(steps)[0] == event && Sections(steps)[1..] == Sections(steps[1..]);
      ArrivalsAfter(frames, Sections(steps));
    } else {
      StepHolds(p, steps[0], MadeFrom(frames));
      RunHolds(Stepped(p, steps[0]), steps[1..], frames);
      assert Sections(steps) == Sections(steps[1..]);
    }
  }

  /**
   * Over any run, what the decoder was fed, what it is about to be fed and what waits in either
   * queue are frames that arrived, each with the bytes, the keyframe flag and the time stamp of the
   * frame that arrived when its origin says.
   */
  lemma FedUnitsAreTheirFrames(initial: StreamConfig, limits: Limits, steps: seq<Step>)
    requires Possible(Begin(initial, limits), steps)
    ensures var p, frames := After(Begin(initial, limits), steps), Arrivals(Sections(steps));
            && (forall f :: f in p.pipe.fed && f.Fed? ==> IsItsFrame(f.unit, frames))
            && (p.pipe.holding.Some? ==> IsItsFrame(p.pipe.holding.value, frames))
            && (forall u :: u in p.pipe.queue ==> IsItsFrame(u, frames))
            && (forall q :: q in p.pc.session.queue ==> IsItsFrame(q.unit, frames))
  {
    RunHolds(Begin(initial, limits), steps, []);
    assert [] + Arrivals(Sections(steps)) == Arrivals(Sections(steps));
  }

  /** With room, a keyframe is let in behind what is queued, and nothing is awaited any more. */
  lemma KeyframeIsLetIn(p: L.State, u: Unit)
    requires u.keyframe && |p.queue| < L.MAX_QUEUED_UNITS && p.queueBytes + |u.bytes| <= L.MAX_QUEUED_BYTES
    ensures L.Offered(p, u).queue == p.queue + [u] && !L.Offered(p, u).waiting
    ensures L.Offered(p, u).queueBytes == p.queueBytes + |u.bytes| && L.Offered(p, u).fed == p.fed
    ensures L.Offered(p, u).holding == p.holding && L.Offered(p, u).pendingReset == p.pendingReset
  {
  }

  /** The path is empty, from the socket to the decoder. */
  predicate AtRest(p: Path) {
    && p.pc.rx == Waiting && p.pc.session.queue == []
    && p.pipe.queue == [] && p.pipe.queueBytes == 0 && p.pipe.holding == None && !p.pipe.pendingReset
  }

  ghost predicate Leads(p: Path, steps: seq<Step>, t: Path) {
    Possible(p, steps) && After(p, steps) == t
  }

  lemma {:induction false} OneMore(p: Path, steps: seq<Step>, t: Path, step: Step)
    returns (more: seq<Step>, u: Path)
    requires Leads(p, steps, t) && CanStep(t, step)
    ensures more == steps + [step] && u == Stepped(t, step) && Leads(p, more, u)
    decreases steps
  {
    more, u := steps + [step], Stepped(t, step);
    if steps == [] {
      assert Possible(u, []) && more[1..] == [];
    } else {
      var rest, v := OneMore(Stepped(p, steps[0]), steps[1..], t, step);
      assert more[1..] == rest;
    }
  }

  function IntoTheQueue(f: Frame): seq<Step> {
    [Section(Event.Video(f, true)), Section(Proceed(true))]
  }

  const TO_THE_PIPELINE := [Section(Proceed(true)), Section(Proceed(true))]
  const TO_THE_DECODER := [WorkerTakes, WorkerPushes(L.Pushed)]

  lemma Two<T>(s: seq<T>, a: T, b: T)
    ensures s + [a] + [b] == s + [a, b]
  {
  }

  lemma GetsQueued(p: Path, f: Frame) returns (steps: seq<Step>, t: Path, q: Queued)
    requires PcOk(p.pc) && p.pc.rx == Waiting && TakesVideo(p.pc.session)
    requires CanStep(p, Section(Event.Video(f, true)))
    requires HasRoom(p.pc.session, p.pc.limits, |f.payload|) && (f.keyframe || !p.pc.session.waiting)
    ensures steps == IntoTheQueue(f) && Leads(p, steps, t) && t.pipe == p.pipe && t.pc.attached == p.pc.attached
    ensures IsFrame(q.unit, f) && q.unit.codec == p.pc.session.config.codec
    ensures q.unit.generation == p.pc.session.streamGeneration
    ensures t.pc.session.queue == p.pc.session.queue + [q] && t.pc.rx == Draining && !t.pc.session.resetting
  {
    q := FrameIsQueued(p.pc, f);
    assert Possible(p, []) && After(p, []) == p;
    steps, t := OneMore(p, [], p, Section(Event.Video(f, true)));
    steps, t := OneMore(p, steps, t, Section(Proceed(true)));
  }

  lemma GetsOffered(p: Path, steps: seq<Step>, t: Path, q: Queued) returns (more: seq<Step>, u: Path)
    requires Leads(p, steps, t) && t.pc.attached && t.pc.rx == Draining && t.pc.session.queue == [q]
    requires !t.pc.session.resetting
    ensures more == steps + TO_THE_PIPELINE && Leads(p, more, u)
    ensures u.pipe == L.Offered(t.pipe, q.unit)
  {
    more, u := OneMore(p, steps, t, Section(Proceed(true)));
    more, u := OneMore(p, more, u, Section(Proceed(true)));
    Two(steps, Section(Proceed(true)), Section(Proceed(true)));
  }

  lemma GetsFed(p: Path, steps: seq<Step>, t: Path, u: Unit) returns (more: seq<Step>, v: Path)
    requires Leads(p, steps, t) && t.pipe.queue == [u] && t.pipe.holding == None && !t.pipe.pendingReset
    ensures more == steps + TO_THE_DECODER && Leads(p, more, v) && v.pipe.fed == t.pipe.fed + [L.Fed(u)]
  {
    more, v := OneMore(p, steps, t, WorkerTakes);
    more, v := OneMore(p, more, v, WorkerPushes(L.Pushed));
    Two(steps, WorkerTakes, WorkerPushes(L.Pushed));
  }

  /** An acceptable keyframe that arrives at an empty path gets to the decoder, as it arrived. */
  lemma KeyframeGetsThrough(p: Path, f: Frame) returns (steps: seq<Step>, t: Path, u: Unit)
    requires PathOk(p) && AtRest(p) && TakesVideo(p.pc.session) && CanStep(p, Section(Event.Video(f, true)))
    requires f.keyframe && HasRoom(p.pc.session, p.pc.limits, |f.payload|) && |f.payload| <= L.MAX_QUEUED_BYTES
    ensures steps == IntoTheQueue(f) + TO_THE_PIPELINE + TO_THE_DECODER && Leads(p, steps, t)
    ensures IsFrame(u, f) && u.codec == p.pc.session.config.codec && u.generation == p.pc.session.streamGeneration
    ensures t.pipe.fed == p.pipe.fed + [L.Fed(u)]
  {
    var q;
    steps, t, q := GetsQueued(p, f);
    u := q.unit;
    assert t.pc.session.queue == [q];
    KeyframeIsLetIn(t.pipe, u);
    steps, t := GetsOffered(p, steps, t, q);
    assert t.pipe.queue == [u];
    steps, t := GetsFed(p, steps, t, u);
  }

  // ---------------------------------------------------------------------------
  // No decoder for two formats

  /** The unit is of the generation and codec that the consumer was last reset for. */
  predicate OfReset(u: Unit, reset: Option<Call>) {
    && reset.Some? && reset.value.Reset?
    && u.generation == reset.value.generation && u.codec == reset.value.config.codec
  }

  predicate Alike(a: Option<Unit>, b: Unit) {
    a.Some? ==> a.value.generation == b.generation && a.value.codec == b.codec
  }

  /** Between units of different formats the decoder was rebuilt or flushed. */
  predicate FedAlike(fed: seq<L.Feed>) {
    forall i :: 0 <= i < |fed| && fed[i].Fed? ==> Alike(Before(fed[..i]), fed[i].unit)
  }

  /** What the pipeline has is of the last reset; only a rebuild still to come may leave older units before it. */
  predicate ResetOk(p: L.State, reset: Option<Call>) {
    && FedAlike(p.fed)
    && (p.holding.Some? ==> Alike(Before(p.fed), p.holding.value))
    && (forall u :: u in p.queue ==> OfReset(u, reset))
    && (!p.pendingReset ==>
          && (p.holding.Some? ==> OfReset(p.holding.value, reset))
          && (Before(p.fed).Some? ==> OfReset(Before(p.fed).value, reset)))
  }

  lemma FedAlikeAppend(fed: seq<L.Feed>, f: L.Feed)
    requires FedAlike(fed) && (f.Fed? ==> Alike(Before(fed), f.unit))
    ensures FedAlike(fed + [f]) && Before(fed + [f]) == if f.Fed? then Some(f.unit) else None
  {
    var all := fed + [f];
    assert all[..|fed|] == fed;
    forall i | 0 <= i < |all| && all[i].Fed? ensures Alike(Before(all[..i]), all[i].unit) {
      if i < |fed| {
        assert all[..i] == fed[..i] && fed[i].Fed?;
      }
    }
  }

  lemma TakeKeepsReset(p: L.State, reset: Option<Call>)
    requires ResetOk(p, reset) && L.CanTake(p)
    ensures ResetOk(L.Taken(p), reset)
  {
    if p.pendingReset {
      FedAlikeAppend(p.fed, L.Break);
    }
  }

  lemma PushKeepsReset(p: L.State, reset: Option<Call>, outcome: L.Outcome)
    requires ResetOk(p, reset) && p.holding.Some?
    ensures ResetOk(L.Push(p, outcome), reset)
  {
    var fed := p.fed + [L.Fed(p.holding.value)];
    FedAlikeAppend(p.fed, L.Fed(p.holding.value));
    FedAlikeAppend(fed, L.Break);
    FedAlikeAppend(p.fed, L.Break);
    assert fed + [L.Break] == p.fed + [L.Fed(p.holding.value), L.Break];
  }

  lemma OfferKeepsReset(p: L.State, reset: Option<Call>, u: Unit)
    requires ResetOk(p, reset) && OfReset(u, reset)
    ensures ResetOk(L.Offered(p, u), reset)
  {
  }

  lemma RestartKeepsReset(p: L.State, reset: Option<Call>, next: Option<Call>)
    requires ResetOk(p, reset)
    ensures ResetOk(L.Restarted(p), next)
  {
  }

  /** Units are handed over under the reset that was told last. */
  lemma ConsumedIsOfReset(pc: Pc)
    requires PcOk(pc) && pc.rx.Consuming?
    ensures OfReset(pc.rx.queued.unit, LastReset(pc.calls))
    ensures LastReset(Proceeded(pc, true).calls) == LastReset(pc.calls)
  {
    OneMoreCall(pc.calls, Consume(pc.rx.queued.unit));
  }

  /** No other section tells the consumer anything but a reset. */
  lemma CallsStay(pc: Pc, event: Event)
    requires !(event.Proceed? && pc.rx.Consuming?)
    ensures Backend.Next(pc, event).calls == pc.calls || (event.Proceed? && pc.rx.Resetting? && !pc.rx.called)
  {
  }

  lemma StepKeepsReset(p: Path, step: Step)
    requires PathOk(p) && CanStep(p, step) && ResetOk(p.pipe, LastReset(p.pc.calls))
    ensures ResetOk(Stepped(p, step).pipe, LastReset(Stepped(p, step).pc.calls))
  {
    match step
    case Section(event) =>
      if event.Proceed? && p.pc.rx.Consuming? {
        ConsumedIsOfReset(p.pc);
        OfferKeepsReset(p.pipe, LastReset(p.pc.calls), p.pc.rx.queued.unit);
      } else {
        CallsStay(p.pc, event);
        RestartKeepsReset(p.pipe, LastReset(p.pc.calls), LastReset(Backend.Next(p.pc, event).calls));
      }
    case WorkerTakes => TakeKeepsReset(p.pipe, LastReset(p.pc.calls));
    case WorkerPushes(outcome) => PushKeepsReset(p.pipe, LastReset(p.pc.calls), outcome);
  }

  lemma {:induction false} RunKeepsReset(p: Path, steps: seq<Step>)
    requires PathOk(p) && Possible(p, steps) && ResetOk(p.pipe, LastReset(p.pc.calls))
    ensures ResetOk(After(p, steps).pipe, LastReset(After(p, steps).pc.calls))
    decreases steps
  {
    if steps != [] {
      StepKeepsPath(p, steps[0]);
      StepKeepsReset(p, steps[0]);
      RunKeepsReset(Stepped(p, steps[0]), steps[1..]);
    }
  }

  /**
   * No decoder for two formats: over any run, between two units of different generations or codecs
   * the decoder was rebuilt or flushed.
   */
  lemma NoMixedFormats(initial: StreamConfig, limits: Limits, steps: seq<Step>, i: nat)
    requires Possible(Begin(initial, limits), steps)
    ensures var fed := After(Begin(initial, limits), steps).pipe.fed;
            0 < i < |fed| && fed[i].Fed? && fed[i - 1].Fed? ==>
              && fed[i].unit.generation == fed[i - 1].unit.generation
              && fed[i].unit.codec == fed[i - 1].unit.codec
  {
    RunKeepsReset(Begin(initial, limits), steps);
    var fed := After(Begin(initial, limits), steps).pipe.fed;
    if 0 < i < |fed| && fed[i].Fed? && fed[i - 1].Fed? {
      assert Alike(Before(fed[..i]), fed[i].unit);
    }
  }
}
