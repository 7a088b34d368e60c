/** PC and phone over two FIFO channels: trust, the start of the stream, and live format changes. */
module Protocol {
  import opened Bytes
  import opened AnnexB
  import opened Session
  import opened Backend
  import opened Wrappers
  import P = Phone

  /** Not in the program: what the PC's setting said when hello was judged, and when it was answered. */
  datatype Consent = Consent(granted: bool, offered: bool)

  datatype System = System(
    pc: Pc, phone: P.Phone, toPc: seq<P.PhoneMessage>, toPhone: seq<P.PcMessage>, consent: Consent)

  /** The PC has accepted the connection, the phone has sent its hello. */
  function Opening(initial: StreamConfig, limits: Limits, attached: bool, allows: bool): System {
    System(Backend.Next(Fresh(initial, limits, attached), Connected(initial, true)),
           P.NewPhone(allows), [P.SayHello(allows)], [], Consent(false, false))
  }

  datatype Step =
    | PcTakes(standing: bool, reported: bool, acceptable: bool)   // the PC's trust setting, read twice
    | PcProceeds(answer: bool)
    | PcAsks(config: StreamConfig, delivered: bool)
    | PcGivesUp
    | PcMisc
    | PhoneTakes
    | PhoneResumes(task: nat, outcome: P.Outcome)
    | PhoneEncodes(payload: seq<Byte>, keyframe: bool, pts: nat, source: StreamConfig, room: bool)
    | PhoneTells
    | PhoneQuits

  predicate CanStep(s: System, step: Step) {
    match step
    case PcTakes(_, _, _) => s.toPc != [] && s.pc.rx == Waiting
    case PcProceeds(_) => s.pc.rx != Waiting
    case PcAsks(_, _) => true
    case PcGivesUp => true
    case PcMisc => true
    case PhoneTakes => s.toPhone != []
    case PhoneResumes(i, _) => i < |s.phone.tasks|
    case PhoneEncodes(_, _, _, source, _) => P.MayArrive(s.phone, source)
    case PhoneTells => true
    case PhoneQuits => true
  }

  /** What the PC's receiving thread makes of a message. */
  function EventFor(pc: Pc, m: P.PhoneMessage, standing: bool, acceptable: bool): Event {
    match m
    case SayHello(allow) => Control(HelloMessage(Hello("", allow), standing && allow))
    case Info => Control(Other)
    case StreamStart => Control(Backend.StreamStart)
    case FormatAck(g) => Control(Backend.FormatAck(g))
    case FormatReject(g) => Control(Backend.FormatReject(g))
    case Video(payload, keyframe, pts, source) =>
      Event.Video(Frame(payload, keyframe, pts, Origin(pc.arrivals, source)), acceptable)
  }

  /** What the PC answers while it handles a message. */
  function Answers(before: Session, after: Session, m: P.PhoneMessage, reported: bool): seq<P.PcMessage> {
    if m.SayHello? && before.phase == AwaitingHello then
      [P.ServerInfo(reported)] + (if after.phase == Phase.Ready then [P.PcMessage.Ready(after.config)] else [])
    else []
  }

  function Sends(p: P.Phone, sent: seq<P.PhoneMessage>): seq<P.PhoneMessage> {
    if p.ended then [] else sent
  }

  function Stepped(s: System, step: Step): System
    requires CanStep(s, step)
  {
    match step
    case PcTakes(standing, reported, acceptable) =>
      var m := s.toPc[0];
      var pc := Backend.Next(s.pc, EventFor(s.pc, m, standing, acceptable));
      s.(pc := pc, toPc := s.toPc[1..], toPhone := s.toPhone + Answers(s.pc.session, pc.session, m, reported),
         consent := if s.pc.session.phase == AwaitingHello then Consent(standing, reported) else s.consent)
    case PcProceeds(answer) => s.(pc := Proceeded(s.pc, answer))
    case PcAsks(config, delivered) =>
      var r := FormatOutcome(s.pc.session, config, delivered);
      s.(pc := Backend.Next(s.pc, Event.SetFormat(config, delivered)),
         toPhone := s.toPhone + Request(r, config))
    case PcGivesUp => s.(pc := Backend.Next(s.pc, GiveUp))
    case PcMisc => s.(toPhone := s.toPhone + [P.Misc])
    case PhoneTakes => PhoneDoes(s.(toPhone := s.toPhone[1..]), P.Handle(s.phone, s.toPhone[0]))
    case PhoneResumes(i, outcome) => PhoneDoes(s, P.Resume(s.phone, i, outcome))
    case PhoneEncodes(payload, keyframe, pts, source, room) =>
      var unit := P.Video(payload, keyframe, pts, source);
      s.(toPc := s.toPc + Sends(s.phone, P.SendVideo(s.phone, unit, room)))
    case PhoneTells => s.(toPc := s.toPc + Sends(s.phone, [P.Info]))
    case PhoneQuits => s.(phone := P.End(s.phone))
  }

  function PhoneDoes(s: System, r: P.Result): System {
    s.(phone := r.phone, toPc := s.toPc + Sends(s.phone, r.sent))
  }

  // ---------------------------------------------------------------------------
  // What the messages in flight will do to the PC

  /** What of the session decides how the PC takes a message. */
  datatype View = View(streaming: bool, config: StreamConfig, pending: Option<(StreamConfig, nat)>)

  function ViewOf(s: Session): View {
    View(s.phase == Streaming, s.config,
         if s.pending.Some? then Some((s.pending.value, s.pendingGeneration)) else None)
  }

  /** The next view, or None if the PC would find fault or queue a frame of another format. */
  function Foresee(v: View, m: P.PhoneMessage): Option<View> {
    match m
    case SayHello(_) => None
    case Info => Some(v)
    case StreamStart => if !v.streaming && v.pending == None then Some(v.(streaming := true)) else None
    case FormatAck(g) =>
      if v.streaming && v.pending.Some? && v.pending.value.1 == g
      then Some(v.(config := v.pending.value.0, pending := None)) else None
    case FormatReject(g) =>
      if v.streaming && v.pending.Some? && v.pending.value.1 == g then Some(v.(pending := None)) else None
    case Video(_, _, _, source) =>
      if v.streaming && (v.pending.Some? || source == v.config) then Some(v) else None
  }

  function Replay(v: View, msgs: seq<P.PhoneMessage>): Option<View>
    decreases msgs
  {
    if msgs == [] then Some(v)
    else
      var next := Foresee(v, msgs[0]);
      if next == None then None else Replay(next.value, msgs[1..])
  }

  lemma {:induction false} ReplayAppend(v: View, msgs: seq<P.PhoneMessage>, more: seq<P.PhoneMessage>)
    requires Replay(v, msgs).Some?
    ensures Replay(v, msgs + more) == Replay(Replay(v, msgs).value, more)
    decreases msgs
  {
    if msgs == [] {
      assert msgs + more == more;
    } else {
      assert (msgs + more)[1..] == msgs[1..] + more;
      ReplayAppend(Foresee(v, msgs[0]).value, msgs[1..], more);
    }
  }

  /** With no request out, no reply is in flight; so a request can be made at any moment. */
  lemma {:induction false} RequestAnytime(v: View, msgs: seq<P.PhoneMessage>, config: StreamConfig, g: nat)
    requires Replay(v, msgs).Some? && v.streaming && v.pending == None
    ensures Replay(v, msgs) == Some(v)
    ensures var asked := v.(pending := Some((config, g))); Replay(asked, msgs) == Some(asked)
    decreases msgs
  {
    if msgs != [] {
      RequestAnytime(v, msgs[1..], config, g);
    }
  }

  /** Before the stream starts the phone only tells; replaying that changes nothing. */
  lemma {:induction false} TellingChangesNothing(v: View, msgs: seq<P.PhoneMessage>)
    requires forall m :: m in msgs ==> m.Info?
    ensures Replay(v, msgs) == Some(v)
    decreases msgs
  {
    if msgs != [] {
      assert msgs[0] in msgs;
      TellingChangesNothing(v, msgs[1..]);
    }
  }

  // ---------------------------------------------------------------------------
  // What the phone knows of it

  /** The messages to the phone that matter here, in order. */
  function Orders(msgs: seq<P.PcMessage>): seq<P.PcMessage> {
    if msgs == [] then []
    else (if msgs[0].Misc? then [] else [msgs[0]]) + Orders(msgs[1..])
  }

  lemma {:induction false} OrdersAppend(a: seq<P.PcMessage>, b: seq<P.PcMessage>)
    ensures Orders(a + b) == Orders(a) + Orders(b)
  {
    if a == [] {
      assert a + b == b;
    } else {
      assert (a + b)[1..] == a[1..] + b;
      OrdersAppend(a[1..], b);
    }
  }

  /** The phone against the view the PC will have once it has taken everything in flight. */
  predicate Agree(v: View, p: P.Phone, orders: seq<P.PcMessage>) {
    if !v.streaming then v.pending == None && p.suspended && AgreeStarting(v, p, orders)
    else if v.pending == None then orders == [] && p.tasks == [] && Runs(v, p)
    else AgreeChanging(v, p, orders, v.pending.value.0, v.pending.value.1)
  }

  predicate Runs(v: View, p: P.Phone) {
    p.negotiated && p.current == Some(v.config) && !p.suspended && p.encoder == Some(v.config)
  }

  predicate AgreeStarting(v: View, p: P.Phone, orders: seq<P.PcMessage>) {
    if orders != [] then
      && p.tasks == []
      && orders[|orders| - 1] == P.PcMessage.Ready(v.config)
      && (|orders| == 1 || (|orders| == 2 && orders[0].ServerInfo?))
    else
      && |p.tasks| == 1 && p.tasks[0].Start? && p.negotiated
      && p.tasks[0].config == v.config && p.tasks[0].generation == p.streamGeneration
      && (p.tasks[0].progress == P.PreparingCamera || p.tasks[0].progress == P.StartingActivity ==>
            p.encoder == Some(v.config))
      && (p.tasks[0].progress == P.StartingActivity ==> p.current == Some(v.config))
  }

  predicate AgreeChanging(v: View, p: P.Phone, orders: seq<P.PcMessage>, config: StreamConfig, g: nat) {
    && ValidConfig(config)
    && if orders != [] then
         orders == [P.SetFormat(config, g)] && p.tasks == [] && Runs(v, p) && p.lastFormatGeneration < g
       else
         && |p.tasks| == 1 && p.tasks[0].Change? && p.suspended && p.negotiated
         && p.tasks[0].config == config && p.tasks[0].formatGeneration == g
         && p.tasks[0].taskGeneration == p.streamGeneration && p.current == Some(v.config)
         && (p.tasks[0].stage != P.ChangeQueued ==> p.tasks[0].previous == Some(v.config))
         && (p.tasks[0].stage == P.PreparingNew ==> p.encoder == Some(config))
         && (p.tasks[0].stage == P.PreparingOld ==> p.encoder == Some(v.config))
  }

  predicate Idle(p: P.Phone) {
    p.ended || (p.suspended && p.tasks == [])
  }

  /** Hello, then nothing but telling. */
  predicate Greeting(p: P.Phone, toPc: seq<P.PhoneMessage>, orders: seq<P.PcMessage>) {
    && toPc != [] && toPc[0] == P.SayHello(p.allows)
    && (forall m :: m in toPc[1..] ==> m.Info?)
    && Idle(p) && orders == [] && p.lastFormatGeneration == 0 && !p.peerAllows
  }

  predicate NotTrusted(p: P.Phone, toPc: seq<P.PhoneMessage>, orders: seq<P.PcMessage>) {
    && (forall m :: m in toPc ==> m.Info?)
    && Idle(p) && (forall m :: m in orders ==> m.ServerInfo?)
  }

  predicate Trusted(s: Session, p: P.Phone, toPc: seq<P.PhoneMessage>, orders: seq<P.PcMessage>) {
    var v := Replay(ViewOf(s), toPc);
    && p.allows && p.lastFormatGeneration < s.nextGeneration
    && v.Some? && (p.ended || Agree(v.value, p, orders))
  }

  /** What both ends and the messages in flight between them keep to. */
  predicate TalkOk(s: Session, p: P.Phone, toPc: seq<P.PhoneMessage>, orders: seq<P.PcMessage>) {
    && (s.phase == AwaitingHello ==> Greeting(p, toPc, orders))
    && (s.phase == AwaitingTrust ==> NotTrusted(p, toPc, orders))
    && (Live(s) ==> Trusted(s, p, toPc, orders))
    && s.phase != Phase.Disconnected
    && (p.negotiated ==> p.allows && p.peerAllows)
  }

  predicate Live(s: Session) {
    s.phase == Phase.Ready || s.phase == Streaming
  }

  // ---- What both devices allow

  /** The phone acts on what the PC told it, and the PC on what the phone told it. */
  predicate ConsentOk(phase: Phase, p: P.Phone, orders: seq<P.PcMessage>, c: Consent) {
    && (phase == Phase.Ready || phase == Streaming ==> c.granted && p.allows)
    && (p.negotiated ==> p.allows && p.peerAllows) && (p.peerAllows ==> c.offered)
    && (forall i :: 0 <= i < |orders| && orders[i].ServerInfo? ==> i == 0 && orders[i].allowUnauthenticated == c.offered)
    && (Acts(p) ==> p.negotiated && (orders != [] ==> !orders[0].ServerInfo?))
  }

  /** Is the phone connected, and capturing or sending or about to? */
  predicate Acts(p: P.Phone) {
    !p.ended && (!p.suspended || p.tasks != [])
  }

  // ---- Frames inside the PC

  /** Everything the PC holds was encoded under the configuration it has committed to. */
  predicate SourcesOk(pc: Pc) {
    var c := pc.session.config;
    && (forall q :: q in pc.session.queue ==> q.unit.origin.source == c)
    && (pc.rx.Opened? ==> pc.rx.frame.origin.source == c)
    && (pc.rx.Consuming? || pc.rx.Consumed? ==> pc.rx.queued.unit.origin.source == c)
    && CallSourcesOk(pc.calls)
  }

  predicate CallSourcesOk(calls: seq<Call>) {
    forall i :: 0 <= i < |calls| && calls[i].Consume? ==>
      var r := LastReset(calls[..i]); r.Some? && calls[i].unit.origin.source == r.value.config
  }

  predicate SystemOk(s: System) {
    && PcOk(s.pc) && SourcesOk(s.pc)
    && TalkOk(s.pc.session, s.phone, s.toPc, Orders(s.toPhone))
    && ConsentOk(s.pc.session.phase, s.phone, Orders(s.toPhone), s.consent)
  }

  // ---------------------------------------------------------------------------
  // The PC's steps

  /** A session that can be foreseen to take a message takes it so. */
  lemma TakesAsForeseen(pc: Pc, m: P.PhoneMessage, standing: bool, acceptable: bool)
    requires PcOk(pc) && pc.rx == Waiting && Live(pc.session)
    requires Foresee(ViewOf(pc.session), m).Some?
    ensures var t := Backend.Next(pc, EventFor(pc, m, standing, acceptable)).session;
            && Foresee(ViewOf(pc.session), m) == Some(ViewOf(t))
            && Live(t) && t.nextGeneration == pc.session.nextGeneration
  {
  }

  lemma TakeKeepsPc(pc: Pc, m: P.PhoneMessage, standing: bool, acceptable: bool)
    requires PcOk(pc) && pc.rx == Waiting
    ensures PcOk(Backend.Next(pc, EventFor(pc, m, standing, acceptable)))
  {
    match EventFor(pc, m, standing, acceptable)
    case Control(c) => ControlKeeps(pc, c);
    case Video(f, ok) => VideoKeeps(pc, f, ok);
  }

  lemma TakeKeepsSources(pc: Pc, m: P.PhoneMessage, standing: bool, acceptable: bool)
    requires PcOk(pc) && pc.rx == Waiting && SourcesOk(pc)
    requires pc.session.phase == Streaming ==> Foresee(ViewOf(pc.session), m).Some?
    ensures SourcesOk(Backend.Next(pc, EventFor(pc, m, standing, acceptable)))
  {
  }

  lemma HelloKeepsTalk(s: Session, p: P.Phone, toPc: seq<P.PhoneMessage>, trusted: bool, reported: bool)
    requires s.phase == AwaitingHello && s.pending == None && TalkOk(s, p, toPc, [])
    requires 0 < s.nextGeneration && (trusted ==> p.allows)
    ensures var t := Welcome(s, Hello("", p.allows), trusted);
            TalkOk(t, p, toPc[1..],
                   if trusted then [P.ServerInfo(reported), P.PcMessage.Ready(s.config)]
                   else [P.ServerInfo(reported)])
  {
    TellingChangesNothing(ViewOf(Welcome(s, Hello("", p.allows), trusted)), toPc[1..]);
  }

  lemma MessageKeepsTalk(s: Session, t: Session, p: P.Phone, toPc: seq<P.PhoneMessage>, orders: seq<P.PcMessage>)
    requires Live(s) && TalkOk(s, p, toPc, orders) && toPc != []
    requires Live(t) && t.nextGeneration == s.nextGeneration && Foresee(ViewOf(s), toPc[0]) == Some(ViewOf(t))
    ensures TalkOk(t, p, toPc[1..], orders)
  {
  }

  lemma OrdersOfAnswers(trusted: bool, reported: bool, config: StreamConfig)
    ensures var info, ready := P.ServerInfo(reported), P.PcMessage.Ready(config);
            Orders([info] + (if trusted then [ready] else [])) == if trusted then [info, ready] else [info]
  {
    var info, ready := P.ServerInfo(reported), P.PcMessage.Ready(config);
    assert Orders([info]) == [info] + Orders([]);
    assert [info, ready][1..] == [ready] && Orders([ready]) == [ready] + Orders([]);
    assert [info] + [ready] == [info, ready];
  }

  lemma PcTakesKeeps(s: System, standing: bool, reported: bool, acceptable: bool)
    requires SystemOk(s) && s.toPc != [] && s.pc.rx == Waiting
    ensures SystemOk(Stepped(s, PcTakes(standing, reported, acceptable)))
  {
    var m := s.toPc[0];
    var pc := Backend.Next(s.pc, EventFor(s.pc, m, standing, acceptable));
    TakeKeepsPc(s.pc, m, standing, acceptable);
    TakeKeepsSources(s.pc, m, standing, acceptable);
    var answers := Answers(s.pc.session, pc.session, m, reported);
    OrdersAppend(s.toPhone, answers);
    TakenTalk(s.pc, s.phone, s.toPc, Orders(s.toPhone), standing, reported, acceptable);
    TakenConsent(s.pc, s.phone, s.toPc, Orders(s.toPhone), s.consent, standing, reported, acceptable);
  }

  lemma TakenConsent(pc: Pc, p: P.Phone, toPc: seq<P.PhoneMessage>, orders: seq<P.PcMessage>, c: Consent,
                     standing: bool, reported: bool, acceptable: bool)
    requires PcOk(pc) && pc.rx == Waiting && toPc != [] && TalkOk(pc.session, p, toPc, orders)
    requires ConsentOk(pc.session.phase, p, orders, c)
    ensures var t := Backend.Next(pc, EventFor(pc, toPc[0], standing, acceptable)).session;
            ConsentOk(t.phase, p, orders + Orders(Answers(pc.session, t, toPc[0], reported)),
                      if pc.session.phase == AwaitingHello then Consent(standing, reported) else c)
  {
    var s, m := pc.session, toPc[0];
    var t := Backend.Next(pc, EventFor(pc, m, standing, acceptable)).session;
    if s.phase == AwaitingHello {
      OrdersOfAnswers(standing && p.allows, reported, s.config);
    } else {
      assert orders + Orders([]) == orders;
      PhaseAfter(pc, m, standing, acceptable);
    }
  }

  /** No message of this phone but its hello makes a session ready. */
  lemma PhaseAfter(pc: Pc, m: P.PhoneMessage, standing: bool, acceptable: bool)
    requires pc.rx == Waiting && pc.session.phase != AwaitingHello
    ensures var t := Backend.Next(pc, EventFor(pc, m, standing, acceptable)).session;
            Live(t) ==> Live(pc.session)
  {
  }

  lemma TakenTalk(pc: Pc, p: P.Phone, toPc: seq<P.PhoneMessage>, orders: seq<P.PcMessage>,
                  standing: bool, reported: bool, acceptable: bool)
    requires PcOk(pc) && pc.rx == Waiting && toPc != [] && TalkOk(pc.session, p, toPc, orders)
    ensures var t := Backend.Next(pc, EventFor(pc, toPc[0], standing, acceptable)).session;
            TalkOk(t, p, toPc[1..], orders + Orders(Answers(pc.session, t, toPc[0], reported)))
  {
    var s, m := pc.session, toPc[0];
    var t := Backend.Next(pc, EventFor(pc, m, standing, acceptable)).session;
    if s.phase == AwaitingHello {
      var trusted := standing && p.allows;
      HelloKeepsTalk(s, p, toPc, trusted, reported);
      OrdersOfAnswers(trusted, reported, s.config);
    } else {
      assert orders + Orders([]) == orders;
      if Live(s) {
        TakesAsForeseen(pc, m, standing, acceptable);
        MessageKeepsTalk(s, t, p, toPc, orders);
      } else {
        UntrustedTalk(pc, p, toPc, orders, standing, acceptable);
      }
    }
  }

  lemma UntrustedTalk(pc: Pc, p: P.Phone, toPc: seq<P.PhoneMessage>, orders: seq<P.PcMessage>,
                      standing: bool, acceptable: bool)
    requires PcOk(pc) && pc.rx == Waiting && toPc != [] && TalkOk(pc.session, p, toPc, orders)
    requires !Live(pc.session) && pc.session.phase != AwaitingHello
    ensures var t := Backend.Next(pc, EventFor(pc, toPc[0], standing, acceptable)).session;
            TalkOk(t, p, toPc[1..], orders)
  {
    assert toPc[0] in toPc;
  }

  lemma OneMoreSource(calls: seq<Call>, c: Call)
    requires CallSourcesOk(calls)
    requires c.Consume? ==>
      var r := LastReset(calls); r.Some? && c.unit.origin.source == r.value.config
    ensures CallSourcesOk(calls + [c])
  {
    var all := calls + [c];
    assert all[..|calls|] == calls;
    forall i | 0 <= i < |all| && all[i].Consume?
      ensures var r := LastReset(all[..i]); r.Some? && all[i].unit.origin.source == r.value.config
    {
      if i < |calls| {
        assert all[..i] == calls[..i] && calls[i].Consume?;
      }
    }
  }

  lemma ProceedKeepsSources(pc: Pc, answer: bool)
    requires PcOk(pc) && SourcesOk(pc) && pc.rx != Waiting
    ensures SourcesOk(Proceeded(pc, answer))
  {
    match pc.rx
    case Consuming(queued) => OneMoreSource(pc.calls, Consume(queued.unit));
    case Resetting(config, generation, called) => OneMoreSource(pc.calls, Reset(config, generation));
    case _ =>
  }

  predicate LooksAlike(s: Session, t: Session) {
    && t.phase == s.phase && t.config == s.config && t.pending == s.pending
    && t.pendingGeneration == s.pendingGeneration && t.nextGeneration == s.nextGeneration
  }

  lemma QueueStepsLookAlike(s: Session, limits: Limits, f: Frame, codec: Codec, generation: nat, token: nat)
    ensures LooksAlike(s, Enqueue(s, limits, f, codec, generation)) && LooksAlike(s, Pop(s, token))
  {
  }

  /** The loops inside the PC do not show on the wire. */
  lemma ProceedKeepsView(pc: Pc, answer: bool)
    ensures LooksAlike(pc.session, Proceeded(pc, answer).session)
  {
    match pc.rx
    case Opened(f, codec, generation) =>
      QueueStepsLookAlike(pc.session, pc.limits, f, codec, generation, 0);
    case Consumed(queued) =>
      QueueStepsLookAlike(pc.session, pc.limits, Frame([], false, 0, Origin(0, pc.session.config)), H264, 0,
                          queued.token);
    case _ =>
  }

  lemma SameViewSameTalk(s: Session, t: Session, p: P.Phone, toPc: seq<P.PhoneMessage>, orders: seq<P.PcMessage>)
    requires TalkOk(s, p, toPc, orders) && LooksAlike(s, t)
    ensures TalkOk(t, p, toPc, orders)
  {
  }

  lemma PcProceedsKeeps(s: System, answer: bool)
    requires SystemOk(s) && s.pc.rx != Waiting
    ensures SystemOk(Stepped(s, PcProceeds(answer)))
  {
    ProceedKeeps(s.pc, answer);
    ProceedKeepsSources(s.pc, answer);
    ProceedKeepsView(s.pc, answer);
    SameViewSameTalk(s.pc.session, Proceeded(s.pc, answer).session, s.phone, s.toPc, Orders(s.toPhone));
    assert Proceeded(s.pc, answer).session.phase == s.pc.session.phase;
  }

  lemma AskKeepsTalk(s: Session, p: P.Phone, toPc: seq<P.PhoneMessage>, orders: seq<P.PcMessage>,
                     config: StreamConfig, delivered: bool)
    requires TalkOk(s, p, toPc, orders)
    ensures var r := FormatOutcome(s, config, delivered);
            TalkOk(BeginFormat(s, config, delivered), p, toPc, orders + Request(r, config))
  {
    var r := FormatOutcome(s, config, delivered);
    assert orders + [] == orders;
    if r.Sent? {
      RequestAnytime(ViewOf(s), toPc, config, r.generation);
    }
  }

  lemma AskKeepsSources(pc: Pc, config: StreamConfig, delivered: bool)
    requires SourcesOk(pc)
    ensures SourcesOk(pc.(session := BeginFormat(pc.session, config, delivered)))
  {
  }

  function Request(r: FormatResult, config: StreamConfig): seq<P.PcMessage> {
    if r.Sent? then [P.SetFormat(config, r.generation)] else []
  }

  lemma OrdersOfRequest(toPhone: seq<P.PcMessage>, r: FormatResult, config: StreamConfig)
    ensures Orders(toPhone + Request(r, config)) == Orders(toPhone) + Request(r, config)
  {
    OrdersAppend(toPhone, Request(r, config));
    if r.Sent? {
      assert Orders(Request(r, config)) == Request(r, config) + Orders(Request(r, config)[1..]);
    }
  }

  lemma PcAsksKeeps(s: System, config: StreamConfig, delivered: bool)
    requires SystemOk(s)
    ensures SystemOk(Stepped(s, PcAsks(config, delivered)))
  {
    SetFormatKeeps(s.pc, config, delivered);
    AskKeepsSources(s.pc, config, delivered);
    AskKeepsTalk(s.pc.session, s.phone, s.toPc, Orders(s.toPhone), config, delivered);
    OrdersOfRequest(s.toPhone, FormatOutcome(s.pc.session, config, delivered), config);
  }

  lemma PcGivesUpKeeps(s: System)
    requires SystemOk(s)
    ensures SystemOk(Stepped(s, PcGivesUp))
  {
    GiveUpKeeps(s.pc);
  }

  lemma PcMiscKeeps(s: System)
    requires SystemOk(s)
    ensures SystemOk(Stepped(s, PcMisc))
  {
    OrdersAppend(s.toPhone, [P.Misc]);
    assert Orders([P.Misc]) == [] + Orders([P.Misc][1..]);
  }

  // ---------------------------------------------------------------------------
  // The phone's steps

  /** Messages a running or starting phone adds, against what they will do to the PC. */
  lemma SentKeepsTalk(s: Session, p: P.Phone, q: P.Phone, toPc: seq<P.PhoneMessage>, sent: seq<P.PhoneMessage>,
                      orders: seq<P.PcMessage>, left: seq<P.PcMessage>)
    requires TalkOk(s, p, toPc, orders) && Live(s)
    requires var v := Replay(ViewOf(s), toPc).value;
             Replay(v, sent).Some? && (q.ended || Agree(Replay(v, sent).value, q, left))
    requires q.allows == p.allows && q.lastFormatGeneration < s.nextGeneration
    requires q.negotiated ==> q.allows && q.peerAllows
    ensures TalkOk(s, q, toPc + sent, left)
  {
    ReplayAppend(ViewOf(s), toPc, sent);
  }

  lemma TellKeepsTalk(s: Session, p: P.Phone, toPc: seq<P.PhoneMessage>, orders: seq<P.PcMessage>)
    requires TalkOk(s, p, toPc, orders)
    ensures TalkOk(s, p, toPc + [P.Info], orders)
  {
    if Live(s) {
      var v := Replay(ViewOf(s), toPc).value;
      assert Replay(v, [P.Info]) == Replay(v, [P.Info][1..]);
      SentKeepsTalk(s, p, p, toPc, [P.Info], orders, orders);
    } else if s.phase == AwaitingHello {
      assert (toPc + [P.Info])[1..] == toPc[1..] + [P.Info];
    }
  }

  lemma VideoKeepsTalk(s: Session, p: P.Phone, toPc: seq<P.PhoneMessage>, orders: seq<P.PcMessage>, unit: P.PhoneMessage)
    requires TalkOk(s, p, toPc, orders) && unit.Video? && P.MayArrive(p, unit.source)
    requires !p.ended && !p.suspended
    ensures TalkOk(s, p, toPc + [unit], orders)
  {
    if Live(s) {
      var v := Replay(ViewOf(s), toPc).value;
      assert Replay(v, [unit][1..]) == Some(v);
      SentKeepsTalk(s, p, p, toPc, [unit], orders, orders);
    }
  }

  lemma {:induction false} OrdersOfHead(msgs: seq<P.PcMessage>)
    requires msgs != []
    ensures msgs[0].Misc? ==> Orders(msgs[1..]) == Orders(msgs)
    ensures !msgs[0].Misc? ==> Orders(msgs) != [] && Orders(msgs)[0] == msgs[0] && Orders(msgs[1..]) == Orders(msgs)[1..]
  {
  }

  /** No message makes a request; so one that is still open was open from the start. */
  lemma {:induction false} PendingStays(v: View, msgs: seq<P.PhoneMessage>)
    requires Replay(v, msgs).Some? && Replay(v, msgs).value.pending.Some?
    ensures Replay(v, msgs).value.pending == v.pending
    decreases msgs
  {
    if msgs != [] {
      PendingStays(Foresee(v, msgs[0]).value, msgs[1..]);
    }
  }

  predicate Numbered(s: Session) {
    s.pending.Some? ==> s.pendingGeneration < s.nextGeneration
  }

  /** The phone takes the first order. */
  lemma OrderKeepsTalk(s: Session, p: P.Phone, toPc: seq<P.PhoneMessage>, orders: seq<P.PcMessage>)
    requires TalkOk(s, p, toPc, orders) && orders != []
    requires s.phase != AwaitingHello && !orders[0].Misc? && Numbered(s)
    ensures var r := P.Handle(p, orders[0]); TalkOk(s, r.phone, toPc + Sends(p, r.sent), orders[1..])
  {
    var r := P.Handle(p, orders[0]);
    assert toPc + [] == toPc;
    if Live(s) && !p.ended {
      var v := Replay(ViewOf(s), toPc).value;
      if orders[0].SetFormat? && v.streaming && v.pending.Some? {
        FormatOrderKeepsTalk(s, p, toPc, orders);
      }
    }
  }

  lemma FormatOrderKeepsTalk(s: Session, p: P.Phone, toPc: seq<P.PhoneMessage>, orders: seq<P.PcMessage>)
    requires Live(s) && !p.ended && TalkOk(s, p, toPc, orders) && orders != [] && orders[0].SetFormat?
    requires Replay(ViewOf(s), toPc).value.streaming && Replay(ViewOf(s), toPc).value.pending.Some?
    requires Numbered(s)
    ensures var r := P.Handle(p, orders[0]); TalkOk(s, r.phone, toPc + r.sent, orders[1..])
  {
    var v := Replay(ViewOf(s), toPc).value;
    var m := orders[0];
    PendingStays(ViewOf(s), toPc);
    P.ValidityAgrees(m.config);
    assert orders[1..] == [] && toPc + [] == toPc;
  }

  lemma PhoneTakesKeeps(s: System)
    requires SystemOk(s) && s.toPhone != []
    ensures SystemOk(Stepped(s, PhoneTakes))
  {
    var orders := Orders(s.toPhone);
    OrdersOfHead(s.toPhone);
    HandleKeepsTalk(s.pc.session, s.phone, s.toPc, s.toPhone[0], orders, Orders(s.toPhone[1..]));
    HandleKeepsConsent(s.pc.session.phase, s.phone, s.toPhone[0], orders, Orders(s.toPhone[1..]), s.consent);
  }

  lemma HandleKeepsConsent(phase: Phase, p: P.Phone, m: P.PcMessage, orders: seq<P.PcMessage>,
                           left: seq<P.PcMessage>, c: Consent)
    requires ConsentOk(phase, p, orders, c)
    requires if m.Misc? then left == orders else orders != [] && orders[0] == m && left == orders[1..]
    ensures ConsentOk(phase, P.Handle(p, m).phone, left, c)
  {
    if !m.Misc? {
      assert forall i :: 0 <= i < |left| ==> left[i] == orders[i + 1];
    }
  }

  lemma ResumeKeepsConsent(phase: Phase, p: P.Phone, i: nat, outcome: P.Outcome, orders: seq<P.PcMessage>, c: Consent)
    requires ConsentOk(phase, p, orders, c) && i < |p.tasks|
    ensures ConsentOk(phase, P.Resume(p, i, outcome).phone, orders, c)
  {
    MoveKeepsFlags(p, i, P.MoveOf(p, p.tasks[i], outcome));
  }

  lemma HandleKeepsTalk(s: Session, p: P.Phone, toPc: seq<P.PhoneMessage>, m: P.PcMessage,
                        orders: seq<P.PcMessage>, left: seq<P.PcMessage>)
    requires TalkOk(s, p, toPc, orders) && Numbered(s)
    requires if m.Misc? then left == orders else orders != [] && orders[0] == m && left == orders[1..]
    ensures var r := P.Handle(p, m); TalkOk(s, r.phone, toPc + Sends(p, r.sent), left)
  {
    if m.Misc? {
      assert toPc + [] == toPc;
    } else {
      OrderKeepsTalk(s, p, toPc, orders);
    }
  }

  lemma QuitKeepsTalk(s: Session, p: P.Phone, toPc: seq<P.PhoneMessage>, orders: seq<P.PcMessage>)
    requires TalkOk(s, p, toPc, orders)
    ensures TalkOk(s, P.End(p), toPc, orders)
  {
  }

  /** A phone whose transport is gone may run on; nobody hears of it. */
  lemma EndedKeepsTalk(s: Session, p: P.Phone, toPc: seq<P.PhoneMessage>, orders: seq<P.PcMessage>, q: P.Phone)
    requires TalkOk(s, p, toPc, orders) && p.ended && SameFlags(p, q)
    ensures TalkOk(s, q, toPc, orders)
  {
  }

  lemma StartKeepsTalk(s: Session, p: P.Phone, toPc: seq<P.PhoneMessage>, orders: seq<P.PcMessage>,
                       i: nat, outcome: P.Outcome)
    requires TalkOk(s, p, toPc, orders) && !p.ended && i < |p.tasks| && p.tasks[i].Start? && Live(s)
    ensures var r := P.Resume(p, i, outcome); TalkOk(s, r.phone, toPc + r.sent, orders)
  {
    var v := Replay(ViewOf(s), toPc).value;
    var r := P.Resume(p, i, outcome);
    if r.sent == [] {
      assert toPc + [] == toPc;
    } else {
      if p.tasks[i].progress == P.PreparingCamera {
        TellingChangesNothing(v, r.sent);
      } else {
        StreamStartsThen(v, r.sent);
      }
      StartAgrees(v, p, orders, i, outcome);
      SentKeepsTalk(s, p, r.phone, toPc, r.sent, orders, orders);
    }
  }

  lemma StreamStartsThen(v: View, sent: seq<P.PhoneMessage>)
    requires !v.streaming && v.pending == None && sent == [P.StreamStart, P.Info, P.Info, P.Info]
    ensures Replay(v, sent) == Some(v.(streaming := true))
  {
    assert sent[1..] == [P.Info, P.Info, P.Info];
    TellingChangesNothing(v.(streaming := true), sent[1..]);
  }

  /** What the start task sends leaves the phone in agreement with what the PC will make of it. */
  lemma StartAgrees(v: View, p: P.Phone, orders: seq<P.PcMessage>, i: nat, outcome: P.Outcome)
    requires Agree(v, p, orders) && i < |p.tasks| && p.tasks[i].Start?
    requires P.Resume(p, i, outcome).sent != []
    ensures !v.streaming && v.pending == None
    ensures var starts := p.tasks[i].progress == P.StartingActivity;
            Agree(if starts then v.(streaming := true) else v, P.Resume(p, i, outcome).phone, orders)
  {
  }

  lemma TellThenReply(v: View, m: P.PhoneMessage)
    ensures Replay(v, [P.Info, m]) == Foresee(v, m)
  {
    var msgs := [P.Info, m];
    assert msgs[1..] == [m] && [m][1..] == [];
    assert Replay(v, msgs) == Replay(v, [m]);
    if Foresee(v, m).Some? {
      assert Replay(Foresee(v, m).value, []) == Foresee(v, m);
    }
  }

  lemma ChangeKeepsTalk(s: Session, p: P.Phone, toPc: seq<P.PhoneMessage>, orders: seq<P.PcMessage>,
                        i: nat, outcome: P.Outcome)
    requires TalkOk(s, p, toPc, orders) && !p.ended && i < |p.tasks| && p.tasks[i].Change? && Live(s)
    ensures var r := P.Resume(p, i, outcome); TalkOk(s, r.phone, toPc + r.sent, orders)
  {
    var v := Replay(ViewOf(s), toPc).value;
    var r := P.Resume(p, i, outcome);
    assert toPc + [] == toPc;
    if r.sent != [] {
      TellThenReply(v, r.sent[1]);
      SentKeepsTalk(s, p, r.phone, toPc, r.sent, orders, orders);
    }
  }

  predicate SameFlags(p: P.Phone, q: P.Phone) {
    && q.allows == p.allows && q.negotiated == p.negotiated && q.peerAllows == p.peerAllows
    && q.lastFormatGeneration == p.lastFormatGeneration && (p.ended ==> q.ended)
  }

  lemma MoveKeepsFlags(p: P.Phone, i: nat, m: P.Move)
    requires i < |p.tasks|
    ensures SameFlags(p, P.Moved(p, i, m).phone)
  {
  }

  /** With the PC done, the phone's tasks run on; before it is trusted, there are none. */
  lemma ResumeKeepsTalk(s: Session, p: P.Phone, toPc: seq<P.PhoneMessage>, orders: seq<P.PcMessage>,
                        i: nat, outcome: P.Outcome)
    requires TalkOk(s, p, toPc, orders) && i < |p.tasks|
    ensures var r := P.Resume(p, i, outcome); TalkOk(s, r.phone, toPc + Sends(p, r.sent), orders)
  {
    assert toPc + [] == toPc;
    MoveKeepsFlags(p, i, P.MoveOf(p, p.tasks[i], outcome));
    if p.ended {
      EndedKeepsTalk(s, p, toPc, orders, P.Resume(p, i, outcome).phone);
    } else if Live(s) {
      match p.tasks[i]
      case Start(_, _, _) => StartKeepsTalk(s, p, toPc, orders, i, outcome);
      case Change(_, _, _, _, _) => ChangeKeepsTalk(s, p, toPc, orders, i, outcome);
    }
  }

  lemma PhoneResumesKeeps(s: System, i: nat, outcome: P.Outcome)
    requires SystemOk(s) && i < |s.phone.tasks|
    ensures SystemOk(Stepped(s, PhoneResumes(i, outcome)))
  {
    ResumeKeepsTalk(s.pc.session, s.phone, s.toPc, Orders(s.toPhone), i, outcome);
    ResumeKeepsConsent(s.pc.session.phase, s.phone, i, outcome, Orders(s.toPhone), s.consent);
  }

  lemma StepKeeps(s: System, step: Step)
    requires SystemOk(s) && CanStep(s, step)
    ensures SystemOk(Stepped(s, step))
  {
    var orders := Orders(s.toPhone);
    assert s.toPc + [] == s.toPc;
    match step
    case PcTakes(standing, reported, acceptable) => PcTakesKeeps(s, standing, reported, acceptable);
    case PcProceeds(answer) => PcProceedsKeeps(s, answer);
    case PcAsks(config, delivered) => PcAsksKeeps(s, config, delivered);
    case PcGivesUp => PcGivesUpKeeps(s);
    case PcMisc => PcMiscKeeps(s);
    case PhoneTakes => PhoneTakesKeeps(s);
    case PhoneResumes(i, outcome) => PhoneResumesKeeps(s, i, outcome);
    case PhoneEncodes(payload, keyframe, pts, source, room) =>
      if !s.phone.ended && !s.phone.suspended {
        VideoKeepsTalk(s.pc.session, s.phone, s.toPc, orders, P.Video(payload, keyframe, pts, source));
      }
    case PhoneTells => TellKeepsTalk(s.pc.session, s.phone, s.toPc, orders);
    case PhoneQuits => QuitKeepsTalk(s.pc.session, s.phone, s.toPc, orders);
  }

  // ---------------------------------------------------------------------------
  // Runs

  predicate Possible(s: System, steps: seq<Step>)
    decreases steps
  {
    steps == [] || (CanStep(s, steps[0]) && Possible(Stepped(s, steps[0]), steps[1..]))
  }

  function After(s: System, steps: seq<Step>): System
    requires Possible(s, steps)
    decreases steps
  {
    if steps == [] then s else After(Stepped(s, steps[0]), steps[1..])
  }

  lemma {:induction false} RunKeeps(s: System, steps: seq<Step>)
    requires SystemOk(s) && Possible(s, steps)
    ensures SystemOk(After(s, steps))
    decreases steps
  {
    if steps == [] {
    } else {
      StepKeeps(s, steps[0]);
      RunKeeps(Stepped(s, steps[0]), steps[1..]);
    }
  }

  /** A state that PC and phone can get to on one connection. */
  ghost predicate Reachable(s: System) {
    exists initial, limits, attached, allows, steps ::
      ValidConfig(initial) && Possible(Opening(initial, limits, attached, allows), steps)
      && s == After(Opening(initial, limits, attached, allows), steps)
  }

  lemma ReachableIsOk(s: System)
    requires Reachable(s)
    ensures SystemOk(s)
  {
    var initial, limits, attached, allows, steps :|
      ValidConfig(initial) && Possible(Opening(initial, limits, attached, allows), steps)
      && s == After(Opening(initial, limits, attached, allows), steps);
    OpeningIsOk(initial, limits, attached, allows);
    RunKeeps(Opening(initial, limits, attached, allows), steps);
  }

  lemma OpeningIsOk(initial: StreamConfig, limits: Limits, attached: bool, allows: bool)
    requires ValidConfig(initial)
    ensures SystemOk(Opening(initial, limits, attached, allows))
  {
    ConnectKeeps(Fresh(initial, limits, attached), initial, true);
    assert Orders([]) == [];
  }

  /**
   * Generation agreement: every access unit the PC has queued, is queueing or is handing over was
   * encoded by the phone under the very configuration committed for its generation. A frame of the
   * old format that was in flight during a change is never tagged with the new generation.
   */
  lemma QueuedUnitsAgree(s: System, q: Queued)
    requires Reachable(s) && q in s.pc.session.queue
    ensures q.unit.generation == s.pc.session.streamGeneration
    ensures q.unit.origin.source == s.pc.session.config && q.unit.codec == q.unit.origin.source.codec
  {
    ReachableIsOk(s);
  }

  /** ... and the consumer was told of that configuration and generation before it got the unit. */
  lemma ConsumedUnitsAgree(s: System, i: nat)
    requires Reachable(s) && i < |s.pc.calls| && s.pc.calls[i].Consume?
    ensures var r := LastReset(s.pc.calls[..i]);
            && r.Some? && r.value.config == s.pc.calls[i].unit.origin.source
            && r.value.generation == s.pc.calls[i].unit.generation
  {
    ReachableIsOk(s);
  }

  /** The PC finds no fault with a conforming phone: no reply, start or hello of it is unmatched. */
  lemma NoFaultIsFound(s: System, standing: bool, reported: bool, acceptable: bool)
    requires Reachable(s) && CanStep(s, PcTakes(standing, reported, acceptable))
    requires s.pc.session.phase != Phase.Failed
    ensures Stepped(s, PcTakes(standing, reported, acceptable)).pc.session.phase != Phase.Failed
  {
    ReachableIsOk(s);
    if Live(s.pc.session) {
      TakesAsForeseen(s.pc, s.toPc[0], standing, acceptable);
    } else {
      assert s.toPc[0] in s.toPc;
    }
  }

  /** No ack and no reject from a conforming phone is ever unmatched. */
  lemma RepliesMatch(s: System)
    requires Reachable(s) && s.toPc != [] && Live(s.pc.session) && s.pc.rx == Waiting
    ensures s.toPc[0].FormatAck? || s.toPc[0].FormatReject? ==>
              Matches(s.pc.session, s.toPc[0].generation)
  {
    ReachableIsOk(s);
  }

  /**
   * Nothing streams unless both devices allow it: a session gets ready only if the PC's setting and
   * the phone's say so, and a connected phone captures or sends only if its own setting says so and
   * the PC reported that its does. Neither can talk the other into it alone.
   */
  lemma StreamingNeedsBothEnds(s: System)
    requires Reachable(s)
    ensures Live(s.pc.session) ==> s.consent.granted && s.phone.allows
    ensures Acts(s.phone) ==> s.phone.allows && s.consent.offered
  {
    ReachableIsOk(s);
  }
}
