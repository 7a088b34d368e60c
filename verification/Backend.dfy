/**
 * The PC's threads over one session. The receiving thread runs the handlers, one section under the
 * mutex at a time; between any two sections another thread may ask for a new format and the
 * watchdog may give up on the connection.
 */
module Backend {
  import opened Bytes
  import opened AnnexB
  import opened Session
  import opened Wrappers

  /** A control message from the phone, with what the checks outside the session say of it. */
  datatype Message =
    | HelloMessage(hello: Hello, trusted: bool)
    | AuthResponse(accepted: bool)
    | StreamStart
    | FormatAck(generation: nat)
    | FormatReject(generation: nat)
    | Other

  /** Where the receiving thread is inside a handler. */
  datatype Rx =
    | Waiting
    | Opened(frame: Frame, codec: Codec, generation: nat)
    | Resetting(config: StreamConfig, generation: nat, called: bool)
    | Draining
    | Consuming(queued: Queued)
    | Consumed(queued: Queued)

  /** The calls the consumer has seen. */
  datatype Call = Reset(config: StreamConfig, generation: nat) | Consume(unit: Unit)

  /** `arrivals` counts the video frames received, `calls` what the consumer was told. */
  datatype Pc = Pc(session: Session, rx: Rx, attached: bool, limits: Limits, arrivals: nat, calls: seq<Call>)

  datatype Event =
    | Connected(initial: StreamConfig, serviceIdValid: bool)
    | Hangup
    | Control(message: Message)
    | Video(frame: Frame, acceptable: bool)
    | Proceed(answer: bool)                      // the next section of the handler
    | SetFormat(config: StreamConfig, delivered: bool)
    | GiveUp                                     // watchdog, or a message that could not be sent

  ghost predicate Enabled(pc: Pc, event: Event) {
    match event
    case Connected(_, _) => pc.rx == Waiting
    case Hangup => pc.rx == Waiting
    case Control(_) => pc.rx == Waiting
    case Video(f, ok) =>
      && pc.rx == Waiting && f.origin.arrival == pc.arrivals
      && (ok <==> Acceptable(f, pc.session.config.codec))
    case Proceed(_) => pc.rx != Waiting
    case SetFormat(_, _) => true
    case GiveUp => true
  }

  function Next(pc: Pc, event: Event): Pc {
    match event
    case Connected(initial, idValid) => pc.(session := Connect(pc.session, initial, idValid))
    case Hangup => pc.(session := Disconnect(pc.session))
    case Control(m) => Received(pc, m)
    case Video(f, ok) => Arrived(pc.(arrivals := pc.arrivals + 1), f, ok)
    case Proceed(answer) => Proceeded(pc, answer)
    case SetFormat(config, delivered) => pc.(session := BeginFormat(pc.session, config, delivered))
    case GiveUp => pc.(session := Fail(pc.session))
  }

  /** handleControl, up to the end of the first section that changes the session. */
  function Received(pc: Pc, m: Message): Pc {
    var s := pc.session;
    var failed := pc.(session := Fail(s));
    if m.HelloMessage? then
      if s.phase != AwaitingHello then failed else pc.(session := Welcome(s, m.hello, m.trusted))
    else if s.phase == AwaitingHello then failed
    else if m.AuthResponse? then
      if s.phase != AwaitingTrust || !m.accepted then failed else pc.(session := Authenticate(s))
    else if !s.trusted then pc
    else if s.phase != Ready && s.phase != Streaming then failed
    else match m
      case FormatAck(g) =>
        if !Matches(s, g) then failed
        else
          var t := CommitFormat(s, g);
          pc.(session := t, rx := Resetting(t.config, g, false))
      case FormatReject(g) => if !Matches(s, g) then failed else pc.(session := RejectFormat(s))
      case StreamStart =>
        if !MayStart(s) then failed
        else pc.(session := StartStream(s), rx := Resetting(s.config, s.streamGeneration, false))
      case _ => pc
  }

  /** handleVideo, up to its second section. */
  function Arrived(pc: Pc, f: Frame, ok: bool): Pc {
    match VideoGate(pc.session)
    case Unauthenticated => pc
    case OutOfState => pc
    case Open(codec, generation) =>
      if ok then pc.(rx := Opened(f, codec, generation)) else pc.(session := ResetQueue(pc.session))
  }

  /** The rest of a handler: the second section of handleVideo, the loop of drainQueue, a reset. */
  function Proceeded(pc: Pc, answer: bool): Pc {
    var s := pc.session;
    match pc.rx
    case Waiting => pc
    case Opened(f, codec, generation) =>
      var t := pc.(session := Enqueue(s, pc.limits, f, codec, generation));
      if Admit(s, pc.limits, f) != Admitted || s.draining then t.(rx := Waiting)
      else t.(session := t.session.(draining := true), rx := Draining)
    case Draining =>
      if MayDrain(s, pc.attached) then pc.(rx := Consuming(s.queue[0]))
      else pc.(session := s.(draining := false), rx := Waiting)
    case Consuming(queued) =>
      if answer then pc.(calls := pc.calls + [Consume(queued.unit)], rx := Consumed(queued))
      else pc.(session := s.(draining := false), rx := Waiting)
    case Consumed(queued) => pc.(session := Pop(s, queued.token), rx := Draining)
    case Resetting(config, generation, called) =>
      if !called then
        pc.(calls := if pc.attached then pc.calls + [Reset(config, generation)] else pc.calls,
            rx := Resetting(config, generation, true))
      else pc.(session := EndReset(s), rx := Waiting)
  }

  // ---------------------------------------------------------------------------
  // What every step keeps

  predicate Started(s: Session) {
    s.phase == Streaming || s.phase == Failed
  }

  predicate Committed(s: Session, u: Unit) {
    u.generation == s.streamGeneration && u.codec == s.config.codec
  }

  predicate RxOk(pc: Pc) {
    var s := pc.session;
    && (s.resetting <==> pc.rx.Resetting?)
    && (s.draining <==> pc.rx.Draining? || pc.rx.Consuming? || pc.rx.Consumed?)
    && (pc.rx != Waiting ==> Started(s))
    && (pc.rx.Consuming? || pc.rx.Consumed? ==> pc.attached)
    && match pc.rx
       case Opened(f, codec, generation) => Committed(s, UnitOf(f, codec, generation))
       case Resetting(config, generation, _) =>
         config == s.config && generation == s.streamGeneration && s.queue == []
       case Consuming(q) => HeldOk(s, q)
       case Consumed(q) => HeldOk(s, q)
       case _ => true
  }

  /** The unit being consumed is the queue's front, unless the queue was flushed meanwhile. */
  predicate HeldOk(s: Session, q: Queued) {
    && Committed(s, q.unit) && q.token < s.nextToken
    && (s.queue != [] ==> s.queue[0] == q)
  }

  /** The consumer was last reset for what the session has committed to. */
  predicate ToldOk(pc: Pc) {
    && CallsOk(pc.calls)
    && (pc.attached && (pc.rx.Opened? || pc.rx.Draining? || pc.rx.Consuming? || pc.rx.Consumed?
                        || pc.session.phase == Streaming)
        && !(pc.rx.Resetting? && !pc.rx.called) ==>
          LastReset(pc.calls) == Some(Reset(pc.session.config, pc.session.streamGeneration)))
  }

  function LastReset(calls: seq<Call>): (r: Option<Call>)
    ensures r.Some? ==> r.value.Reset?
  {
    if calls == [] then None
    else if calls[|calls| - 1].Reset? then Some(calls[|calls| - 1])
    else LastReset(calls[..|calls| - 1])
  }

  /** Every unit the consumer got belongs to the generation and codec it was last reset for. */
  predicate CallsOk(calls: seq<Call>) {
    forall i :: 0 <= i < |calls| && calls[i].Consume? ==>
      var r := LastReset(calls[..i]);
      r.Some? && calls[i].unit.generation == r.value.generation && calls[i].unit.codec == r.value.config.codec
  }

  predicate PcOk(pc: Pc) {
    SessionOk(pc.session, pc.limits) && RxOk(pc) && ToldOk(pc)
  }

  lemma OneMoreCall(calls: seq<Call>, c: Call)
    requires CallsOk(calls)
    requires c.Consume? ==>
      var r := LastReset(calls);
      r.Some? && c.unit.generation == r.value.generation && c.unit.codec == r.value.config.codec
    ensures CallsOk(calls + [c])
    ensures LastReset(calls + [c]) == if c.Reset? then Some(c) else LastReset(calls)
  {
    var all := calls + [c];
    assert all[..|calls|] == calls;
    forall i | 0 <= i < |all| && all[i].Consume?
      ensures var r := LastReset(all[..i]);
              && r.Some? && all[i].unit.generation == r.value.generation
              && all[i].unit.codec == r.value.config.codec
    {
      if i < |calls| {
        assert all[..i] == calls[..i] && calls[i].Consume?;
      }
    }
  }

  lemma HandshakeKeeps(pc: Pc, m: Message)
    requires PcOk(pc) && pc.rx == Waiting && (m.HelloMessage? || m.AuthResponse?)
    ensures PcOk(Received(pc, m))
  {
    var hello := if m.HelloMessage? then m.hello else Hello("", false);
    LifecycleSectionsKeep(pc.session, pc.limits, pc.session.config, true);
    TrustSectionsKeep(pc.session, pc.limits, hello, if m.HelloMessage? then m.trusted else true);
  }

  lemma ReplyKeeps(pc: Pc, m: Message)
    requires PcOk(pc) && pc.rx == Waiting && (m.FormatAck? || m.FormatReject?)
    ensures PcOk(Received(pc, m))
  {
    LifecycleSectionsKeep(pc.session, pc.limits, pc.session.config, true);
    FormatSectionsKeep(pc.session, pc.limits, m.generation, pc.session.config, true);
  }

  lemma NewsKeeps(pc: Pc, m: Message)
    requires PcOk(pc) && pc.rx == Waiting && (m.StreamStart? || m.Other?)
    ensures PcOk(Received(pc, m))
  {
    LifecycleSectionsKeep(pc.session, pc.limits, pc.session.config, true);
  }

  lemma ControlKeeps(pc: Pc, m: Message)
    requires PcOk(pc) && pc.rx == Waiting
    ensures PcOk(Received(pc, m))
  {
    match m
    case HelloMessage(_, _) => HandshakeKeeps(pc, m);
    case AuthResponse(_) => HandshakeKeeps(pc, m);
    case FormatAck(_) => ReplyKeeps(pc, m);
    case FormatReject(_) => ReplyKeeps(pc, m);
    case _ => NewsKeeps(pc, m);
  }

  lemma VideoKeeps(pc: Pc, f: Frame, ok: bool)
    requires PcOk(pc) && pc.rx == Waiting
    ensures PcOk(Arrived(pc.(arrivals := pc.arrivals + 1), f, ok))
  {
    LifecycleSectionsKeep(pc.session, pc.limits, pc.session.config, true);
  }

  lemma EnqueueKeepsFormat(s: Session, limits: Limits, f: Frame, codec: Codec, generation: nat)
    ensures var t := Enqueue(s, limits, f, codec, generation);
            && t.phase == s.phase && t.config == s.config && t.streamGeneration == s.streamGeneration
            && t.resetting == s.resetting && t.draining == s.draining
  {
  }

  lemma DrainingKeeps(s: Session, limits: Limits, draining: bool)
    requires SessionOk(s, limits)
    ensures SessionOk(s.(draining := draining), limits)
  {
  }

  lemma AdmissionKeeps(pc: Pc, answer: bool)
    requires PcOk(pc) && pc.rx.Opened?
    ensures PcOk(Proceeded(pc, answer))
  {
    var t := Enqueue(pc.session, pc.limits, pc.rx.frame, pc.rx.codec, pc.rx.generation);
    EnqueueKeeps(pc.session, pc.limits, pc.rx.frame);
    EnqueueKeepsFormat(pc.session, pc.limits, pc.rx.frame, pc.rx.codec, pc.rx.generation);
    DrainingKeeps(t, pc.limits, true);
  }

  lemma DrainKeeps(pc: Pc, answer: bool)
    requires PcOk(pc) && (pc.rx.Draining? || pc.rx.Consumed?)
    ensures PcOk(Proceeded(pc, answer))
  {
    if pc.rx.Consumed? { PopKeeps(pc.session, pc.limits, pc.rx.queued.token); }
  }

  lemma ConsumeKeeps(pc: Pc, answer: bool)
    requires PcOk(pc) && pc.rx.Consuming?
    ensures PcOk(Proceeded(pc, answer))
  {
    OneMoreCall(pc.calls, Consume(pc.rx.queued.unit));
  }

  lemma ResetKeeps(pc: Pc, answer: bool)
    requires PcOk(pc) && pc.rx.Resetting?
    ensures PcOk(Proceeded(pc, answer))
  {
    OneMoreCall(pc.calls, Reset(pc.rx.config, pc.rx.generation));
  }

  lemma ProceedKeeps(pc: Pc, answer: bool)
    requires PcOk(pc) && pc.rx != Waiting
    ensures PcOk(Proceeded(pc, answer))
  {
    match pc.rx
    case Opened(_, _, _) => AdmissionKeeps(pc, answer);
    case Draining => DrainKeeps(pc, answer);
    case Consuming(_) => ConsumeKeeps(pc, answer);
    case Consumed(_) => DrainKeeps(pc, answer);
    case Resetting(_, _, _) => ResetKeeps(pc, answer);
  }

  lemma ConnectKeeps(pc: Pc, initial: StreamConfig, idValid: bool)
    requires PcOk(pc) && pc.rx == Waiting
    ensures PcOk(Next(pc, Connected(initial, idValid)))
  {
    LifecycleSectionsKeep(pc.session, pc.limits, initial, idValid);
  }

  lemma HangupKeeps(pc: Pc)
    requires PcOk(pc) && pc.rx == Waiting
    ensures PcOk(Next(pc, Hangup))
  {
    LifecycleSectionsKeep(pc.session, pc.limits, pc.session.config, true);
  }

  lemma SetFormatKeeps(pc: Pc, config: StreamConfig, delivered: bool)
    requires PcOk(pc)
    ensures PcOk(Next(pc, SetFormat(config, delivered)))
  {
    FormatSectionsKeep(pc.session, pc.limits, 0, config, delivered);
  }

  lemma GiveUpKeeps(pc: Pc)
    requires PcOk(pc)
    ensures PcOk(Next(pc, GiveUp))
  {
    LifecycleSectionsKeep(pc.session, pc.limits, pc.session.config, true);
  }

  lemma StepKeeps(pc: Pc, event: Event)
    requires PcOk(pc) && Enabled(pc, event)
    ensures PcOk(Next(pc, event))
  {
    match event
    case Control(m) => ControlKeeps(pc, m);
    case Video(f, ok) => VideoKeeps(pc, f, ok);
    case Proceed(answer) => ProceedKeeps(pc, answer);
    case Connected(initial, idValid) => ConnectKeeps(pc, initial, idValid);
    case Hangup => HangupKeeps(pc);
    case SetFormat(config, delivered) => SetFormatKeeps(pc, config, delivered);
    case GiveUp => GiveUpKeeps(pc);
  }

  // ---------------------------------------------------------------------------
  // Runs

  /** A controller just constructed. */
  function Fresh(initial: StreamConfig, limits: Limits, attached: bool): Pc {
    Pc(Session(Phase.Disconnected, false, None, initial, 0, None, 0, 1, true, [], 0, 0, 1, false, false),
       Waiting, attached, limits, 0, [])
  }

  ghost predicate Possible(pc: Pc, events: seq<Event>)
    decreases events
  {
    events == [] || (Enabled(pc, events[0]) && Possible(Next(pc, events[0]), events[1..]))
  }

  function After(pc: Pc, events: seq<Event>): Pc
    decreases events
  {
    if events == [] then pc else After(Next(pc, events[0]), events[1..])
  }

  lemma {:induction false} RunKeeps(pc: Pc, events: seq<Event>)
    requires PcOk(pc) && Possible(pc, events)
    ensures PcOk(After(pc, events))
    decreases events
  {
    if events == [] {
    } else {
      StepKeeps(pc, events[0]);
      RunKeeps(Next(pc, events[0]), events[1..]);
    }
  }

  /**
   * Over any run, however sections interleave: only a trusted peer that said hello is ready or
   * streaming; a format is pending exactly when its generation is not 0, and that one is newer than
   * the committed one; depth and bytes are those of the queue and within limits; waiting for a
   * keyframe means an empty queue; tokens increase and every unit carries the committed format.
   */
  lemma EverySessionIsOk(initial: StreamConfig, limits: Limits, attached: bool, events: seq<Event>)
    requires Possible(Fresh(initial, limits, attached), events)
    ensures SessionOk(After(Fresh(initial, limits, attached), events).session, limits)
  {
    RunKeeps(Fresh(initial, limits, attached), events);
    LimitsStay(Fresh(initial, limits, attached), events);
  }

  lemma {:induction false} LimitsStay(pc: Pc, events: seq<Event>)
    ensures After(pc, events).limits == pc.limits && After(pc, events).attached == pc.attached
    decreases events
  {
    if events == [] {
    } else {
      LimitsStay(Next(pc, events[0]), events[1..]);
    }
  }

  /** Over any run each unit the consumer gets was announced by a reset for its generation and codec. */
  lemma UnitsFollowTheirReset(initial: StreamConfig, limits: Limits, attached: bool, events: seq<Event>, i: nat)
    requires Possible(Fresh(initial, limits, attached), events)
    ensures var calls := After(Fresh(initial, limits, attached), events).calls;
            i < |calls| && calls[i].Consume? ==>
              var r := LastReset(calls[..i]);
              && r.Some? && calls[i].unit.generation == r.value.generation
              && calls[i].unit.codec == r.value.config.codec
  {
    RunKeeps(Fresh(initial, limits, attached), events);
  }

  /** A pop never removes anything but the unit just consumed. */
  lemma PopRemovesTheConsumed(pc: Pc)
    requires PcOk(pc) && pc.rx.Consumed?
    ensures Proceeded(pc, true).session.queue
         == if pc.session.queue != [] && pc.session.queue[0] == pc.rx.queued then pc.session.queue[1..] else []
  {
  }

  /** A consumer that is busy costs nothing: what it did not take stays where it was, to be offered again. */
  lemma BusyConsumerLosesNothing(pc: Pc)
    requires PcOk(pc) && pc.rx.Consuming?
    ensures var t := Proceeded(pc, false);
            t.session == pc.session.(draining := false) && t.calls == pc.calls && t.rx == Waiting
  {
  }

  // ---------------------------------------------------------------------------
  // Faults

  /** What the PC does not put up with: anything before a hello or a second one, ... */
  predicate IsFault(s: Session, m: Message) {
    match m
    case HelloMessage(_, _) => s.phase != AwaitingHello
    case AuthResponse(accepted) => s.phase != AwaitingTrust || !accepted
    case FormatAck(g) => s.phase == AwaitingHello || (s.trusted && !Expected(s, g))
    case FormatReject(g) => s.phase == AwaitingHello || (s.trusted && !Expected(s, g))
    case StreamStart =>
      s.phase == AwaitingHello || (s.trusted && !(s.phase == Ready && s.pending == None && !s.resetting))
    case Other => s.phase == AwaitingHello || (s.trusted && s.phase != Ready && s.phase != Streaming)
  }

  /** ... and a reply to anything but the one request that is open. */
  predicate Expected(s: Session, generation: nat) {
    && (s.phase == Ready || s.phase == Streaming)
    && s.pending.Some? && s.pendingGeneration == generation && !s.resetting
  }

  /** A message fails the session exactly when it is a fault, and then it does nothing else. */
  lemma FaultIff(pc: Pc, m: Message)
    requires pc.session.phase != Failed
    ensures Received(pc, m).session.phase == Failed <==> IsFault(pc.session, m)
    ensures IsFault(pc.session, m) ==> Received(pc, m) == pc.(session := pc.session.(phase := Failed))
  {
  }

  /** A peer that is not trusted yet is not listened to. */
  lemma UntrustedIsIgnored(pc: Pc, m: Message)
    requires !pc.session.trusted && pc.session.phase != AwaitingHello && !m.HelloMessage? && !m.AuthResponse?
    ensures Received(pc, m) == pc
  {
  }

  // ---------------------------------------------------------------------------
  // Trust

  /** The first hello decides: ready at once, or a proof is awaited. */
  lemma HelloIsJudged(pc: Pc, hello: Hello, trusted: bool)
    requires pc.session.phase == AwaitingHello
    ensures var t := Received(pc, HelloMessage(hello, trusted));
            && t.session.hello == Some(hello) && t.session.trusted == trusted
            && t.session.phase == (if trusted then Ready else AwaitingTrust)
            && t.session.config == pc.session.config && t.rx == pc.rx && t.calls == pc.calls
  {
  }

  /** An accepted proof makes the awaiting session ready. */
  lemma ProofMakesReady(pc: Pc)
    requires pc.session.phase == AwaitingTrust
    ensures Received(pc, AuthResponse(true)) == pc.(session := pc.session.(trusted := true, phase := Ready))
  {
  }

  /** The checks outside the session vouch for the peer. */
  predicate Vouches(event: Event) {
    event == Control(AuthResponse(true)) || (event.Control? && event.message.HelloMessage? && event.message.trusted)
  }

  predicate NewPeer(event: Event) {
    event.Connected? || event.Hangup?
  }

  predicate OnePeer(events: seq<Event>) {
    forall i :: 0 <= i < |events| ==> !NewPeer(events[i])
  }

  /** They have, and it has been the same peer since. */
  predicate VouchedFor(events: seq<Event>) {
    events != [] && ((Vouches(events[0]) && OnePeer(events[1..])) || VouchedFor(events[1..]))
  }

  lemma TrustTakesAVoucher(pc: Pc, event: Event)
    ensures Next(pc, event).session.trusted ==> Vouches(event) || (pc.session.trusted && !NewPeer(event))
  {
  }

  lemma {:induction false} TrustFrom(pc: Pc, events: seq<Event>)
    ensures After(pc, events).session.trusted ==>
              VouchedFor(events) || (pc.session.trusted && OnePeer(events))
    decreases events
  {
    if events != [] {
      TrustTakesAVoucher(pc, events[0]);
      TrustFrom(Next(pc, events[0]), events[1..]);
      assert events == [events[0]] + events[1..];
    }
  }

  /** Over any run: a session trusts, gets ready and streams only with a peer that was vouched for. */
  lemma TrustIsEarned(initial: StreamConfig, limits: Limits, attached: bool, events: seq<Event>)
    requires Possible(Fresh(initial, limits, attached), events)
    ensures var s := After(Fresh(initial, limits, attached), events).session;
            s.trusted || s.phase == Ready || s.phase == Streaming ==> VouchedFor(events)
  {
    TrustFrom(Fresh(initial, limits, attached), events);
    EverySessionIsOk(initial, limits, attached, events);
  }

  // ---------------------------------------------------------------------------
  // A unit is the frame that arrived

  ghost predicate SessionHolds(pc: Pc, good: iset<Unit>) {
    && (forall q :: q in pc.session.queue ==> q.unit in good)
    && (pc.rx.Opened? ==> UnitOf(pc.rx.frame, pc.rx.codec, pc.rx.generation) in good)
    && (pc.rx.Consuming? || pc.rx.Consumed? ==> pc.rx.queued.unit in good)
    && (forall c :: c in pc.calls && c.Consume? ==> c.unit in good)
  }

  /** The unit an accepted frame turns into. */
  function Admissible(pc: Pc, event: Event): Option<Unit> {
    if event.Video? && event.acceptable
    then Some(UnitOf(event.frame, pc.session.config.codec, pc.session.streamGeneration)) else None
  }

  lemma ProceedHolds(pc: Pc, answer: bool, good: iset<Unit>)
    requires SessionHolds(pc, good)
    ensures SessionHolds(Proceeded(pc, answer), good)
  {
  }

  lemma ReceptionHolds(pc: Pc, event: Event, good: iset<Unit>)
    requires SessionHolds(pc, good) && !event.Proceed?
    requires Admissible(pc, event).Some? ==> Admissible(pc, event).value in good
    ensures SessionHolds(Next(pc, event), good)
  {
    if event.Control? { ControlHolds(pc, event.message, good); }
  }

  lemma ControlHolds(pc: Pc, m: Message, good: iset<Unit>)
    requires SessionHolds(pc, good)
    ensures SessionHolds(Received(pc, m), good)
  {
  }

  /** Only a frame just accepted adds to the units that there are. */
  lemma StepHolds(pc: Pc, event: Event, good: iset<Unit>)
    requires SessionHolds(pc, good)
    requires Admissible(pc, event).Some? ==> Admissible(pc, event).value in good
    ensures SessionHolds(Next(pc, event), good)
  {
    if event.Proceed? {
      ProceedHolds(pc, event.answer, good);
    } else {
      ReceptionHolds(pc, event, good);
    }
  }

  /** The unit has the frame's bytes, its keyframe flag and its time stamp. */
  predicate IsFrame(u: Unit, f: Frame) {
    u.bytes == f.payload && u.keyframe == f.keyframe && u.ptsMicros == f.ptsMicros && u.origin == f.origin
  }

  /** The unit is the very frame that arrived when its origin says. */
  predicate IsItsFrame(u: Unit, frames: seq<Frame>) {
    u.origin.arrival < |frames| && IsFrame(u, frames[u.origin.arrival])
  }

  ghost function MadeFrom(frames: seq<Frame>): iset<Unit> {
    iset u: Unit | IsItsFrame(u, frames)
  }

  /** The video frames that arrive in a run, in order. */
  function Arrivals(events: seq<Event>): seq<Frame> {
    if events == [] then []
    else (if events[0].Video? then [events[0].frame] else []) + Arrivals(events[1..])
  }

  /** What has arrived by now, for a frame that arrives next. */
  function Seen(frames: seq<Frame>, event: Event): seq<Frame> {
    if event.Video? then frames + [event.frame] else frames
  }

  lemma FrameMakesUnit(pc: Pc, event: Event, frames: seq<Frame>)
    requires Enabled(pc, event) && pc.arrivals == |frames|
    ensures MadeFrom(frames) <= MadeFrom(Seen(frames, event)) && Next(pc, event).arrivals == |Seen(frames, event)|
    ensures Admissible(pc, event).Some? ==> Admissible(pc, event).value in MadeFrom(Seen(frames, event))
  {
  }

  lemma HoldsMore(pc: Pc, good: iset<Unit>, more: iset<Unit>)
    requires SessionHolds(pc, good) && good <= more
    ensures SessionHolds(pc, more)
  {
  }

  lemma ArrivalsAfter(frames: seq<Frame>, events: seq<Event>)
    requires events != []
    ensures Seen(frames, events[0]) + Arrivals(events[1..]) == frames + Arrivals(events)
  {
    var first: seq<Frame> := if events[0].Video? then [events[0].frame] else [];
    assert Seen(frames, events[0]) == frames + first;
    Reassociate(frames, first, Arrivals(events[1..]));
  }

  lemma {:induction false} RunShows(pc: Pc, events: seq<Event>, frames: seq<Frame>)
    requires Possible(pc, events) && pc.arrivals == |frames| && SessionHolds(pc, MadeFrom(frames))
    ensures SessionHolds(After(pc, events), MadeFrom(frames + Arrivals(events)))
    decreases events
  {
    if events == [] {
      assert frames + [] == frames;
    } else {
      FrameMakesUnit(pc, events[0], frames);
      HoldsMore(pc, MadeFrom(frames), MadeFrom(Seen(frames, events[0])));
      StepHolds(pc, events[0], MadeFrom(Seen(frames, events[0])));
      RunShows(Next(pc, events[0]), events[1..], Seen(frames, events[0]));
      ArrivalsAfter(frames, events);
    }
  }

  /**
   * Over any run, each unit in the queue and each unit the consumer was given has the bytes, the
   * keyframe flag and the time stamp of the frame that arrived when the unit's origin says.
   */
  lemma UnitsAreTheirFrames(initial: StreamConfig, limits: Limits, attached: bool, events: seq<Event>)
    requires Possible(Fresh(initial, limits, attached), events)
    ensures var pc := After(Fresh(initial, limits, attached), events);
            && (forall q :: q in pc.session.queue ==> IsItsFrame(q.unit, Arrivals(events)))
            && (forall c :: c in pc.calls && c.Consume? ==> IsItsFrame(c.unit, Arrivals(events)))
  {
    RunShows(Fresh(initial, limits, attached), events, []);
    assert [] + Arrivals(events) == Arrivals(events);
  }

  // ---------------------------------------------------------------------------
  // What becomes of one frame

  /** Trusted, streaming, and in no change of format: video frames are let through to the queue. */
  predicate TakesVideo(s: Session) {
    s.trusted && s.phase == Streaming && s.pending == None && !s.resetting
  }

  /** There is room for so many bytes more. */
  predicate HasRoom(s: Session, limits: Limits, n: nat) {
    |s.queue| < limits.units && QueueBytes(s.queue) + n <= limits.bytes
  }

  /** Nobody comes between the two sections of handleVideo. */
  function HandledVideo(pc: Pc, f: Frame, ok: bool): Pc {
    var arrived := Next(pc, Event.Video(f, ok));
    if arrived.rx.Opened? then Proceeded(arrived, true) else arrived
  }

  /** An acceptable frame that fits is queued last, as it is, under the format committed to. */
  lemma FrameIsQueued(pc: Pc, f: Frame) returns (q: Queued)
    requires PcOk(pc) && pc.rx == Waiting && TakesVideo(pc.session)
    requires HasRoom(pc.session, pc.limits, |f.payload|) && (f.keyframe || !pc.session.waiting)
    ensures var t := HandledVideo(pc, f, true);
            && t.session.queue == pc.session.queue + [q] && IsFrame(q.unit, f)
            && q.unit.codec == pc.session.config.codec && q.unit.generation == pc.session.streamGeneration
            && !t.session.waiting && t.rx == Draining && t.calls == pc.calls && t.attached == pc.attached
  {
    q := HandledVideo(pc, f, true).session.queue[|pc.session.queue|];
  }

  /** Until a keyframe comes, anything else is passed over. */
  lemma FrameIsPassedOver(pc: Pc, f: Frame)
    requires PcOk(pc) && pc.rx == Waiting && TakesVideo(pc.session) && pc.session.waiting && !f.keyframe
    ensures HandledVideo(pc, f, true) == pc.(arrivals := pc.arrivals + 1)
  {
  }

  /** Without room, or when it is not what it says it is, a frame costs the queue and a keyframe is awaited. */
  lemma FrameFlushes(pc: Pc, f: Frame, ok: bool)
    requires PcOk(pc) && pc.rx == Waiting && TakesVideo(pc.session)
    requires ok ==> !HasRoom(pc.session, pc.limits, |f.payload|) && (f.keyframe || !pc.session.waiting)
    ensures var t := HandledVideo(pc, f, ok);
            && t.session.queue == [] && t.session.waiting && t.session.queueBytes == 0 && t.rx == Waiting
            && t.session.phase == Streaming && t.session.config == pc.session.config && t.calls == pc.calls
  {
  }

  /** Untrusted, not streaming or in a change of format, nothing happens to it at all. */
  lemma FrameIsDropped(pc: Pc, f: Frame, ok: bool)
    requires PcOk(pc) && pc.rx == Waiting && !TakesVideo(pc.session)
    ensures HandledVideo(pc, f, ok) == pc.(arrivals := pc.arrivals + 1)
  {
  }

  /** A keyframe that finds the queue empty and the consumer willing is handed over at once. */
  lemma KeyframeIsConsumed(pc: Pc, f: Frame) returns (t: Pc, u: Unit)
    requires PcOk(pc) && pc.rx == Waiting && TakesVideo(pc.session) && pc.attached && pc.session.queue == []
    requires HasRoom(pc.session, pc.limits, |f.payload|) && f.keyframe
    ensures t == Proceeded(Proceeded(HandledVideo(pc, f, true), true), true)
    ensures IsFrame(u, f) && u.codec == pc.session.config.codec && u.generation == pc.session.streamGeneration
    ensures t.calls == pc.calls + [Consume(u)]
  {
    var q := FrameIsQueued(pc, f);
    u := q.unit;
    t := Proceeded(Proceeded(HandledVideo(pc, f, true), true), true);
  }
}
