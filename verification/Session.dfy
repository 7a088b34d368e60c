/**
 * The PC's session: the state behind one mutex, and what each section of code that holds the
 * mutex does to it. The format protocol and the media path are built from these sections.
 */
module Session {
  import opened Bytes
  import opened AnnexB
  import opened Wrappers

  // ---------------------------------------------------------------------------
  // Stream configurations

  datatype StreamConfig = StreamConfig(codec: Codec, width: nat, height: nat, fps: nat, bitrate: nat)

  const MAX_DIMENSION := 4096
  const MAX_PIXELS := 3840 * 2160
  const MIN_BITRATE := 64000
  const MAX_BITRATE := 100000000

  predicate ValidConfig(c: StreamConfig) {
    && c.width != 0 && c.height != 0
    && c.width % 2 == 0 && c.height % 2 == 0
    && c.width <= MAX_DIMENSION && c.height <= MAX_DIMENSION
    && c.width * c.height <= MAX_PIXELS
    && 1 <= c.fps <= 120
    && MIN_BITRATE <= c.bitrate <= MAX_BITRATE
  }

  // ---------------------------------------------------------------------------
  // Video

  /** Not in the program: which frame to arrive this is, and what the phone encoded it under. */
  datatype Origin = Origin(arrival: nat, source: StreamConfig)

  /** An authenticated frame of the video channel. */
  datatype Frame = Frame(payload: seq<Byte>, keyframe: bool, ptsMicros: nat, origin: Origin)

  /** An access unit on its way to the consumer. */
  datatype Unit = Unit(bytes: seq<Byte>, codec: Codec, keyframe: bool, ptsMicros: nat,
                       generation: nat, origin: Origin)

  datatype Queued = Queued(token: nat, unit: Unit)

  datatype Limits = Limits(units: nat, bytes: nat)

  function QueueBytes(queue: seq<Queued>): nat {
    if queue == [] then 0 else |queue[0].unit.bytes| + QueueBytes(queue[1..])
  }

  function Units(queue: seq<Queued>): (r: seq<Unit>)
    ensures |r| == |queue|
  {
    if queue == [] then [] else [queue[0].unit] + Units(queue[1..])
  }

  lemma {:induction false} UnitsAppend(queue: seq<Queued>, q: Queued)
    ensures Units(queue + [q]) == Units(queue) + [q.unit]
  {
    if queue == [] {
      assert Units([q]) == [q.unit] + Units([]);
    } else {
      UnitsAppend(queue[1..], q);
      assert (queue + [q])[1..] == queue[1..] + [q];
    }
  }

  /** The bitstream is what the frame says it is, and a keyframe can be decoded from there. */
  ghost predicate Acceptable(f: Frame, codec: Codec) {
    && |f.payload| >= 4
    && (exists n :: IsNal(f.payload, codec, n))
    && (exists n :: IsNal(f.payload, codec, n) && IsVideoSlice(codec, n.nalType))
    && (f.keyframe <==> exists n :: IsNal(f.payload, codec, n) && IsKeyframeSlice(codec, n.nalType))
    && (f.keyframe ==> SelfContained(Nals(f.payload, codec), codec))
  }

  // ---------------------------------------------------------------------------
  // The state

  datatype Phase = Disconnected | AwaitingHello | AwaitingTrust | Ready | Streaming | Failed

  datatype Hello = Hello(deviceId: string, allowUnauthenticated: bool)

  datatype Session = Session(
    phase: Phase, trusted: bool, hello: Option<Hello>,
    config: StreamConfig, streamGeneration: nat,
    pending: Option<StreamConfig>, pendingGeneration: nat, nextGeneration: nat,
    waiting: bool, queue: seq<Queued>, queueDepth: nat, queueBytes: nat, nextToken: nat,
    draining: bool, resetting: bool)

  function ResetQueue(s: Session): Session {
    s.(queue := [], queueDepth := 0, queueBytes := 0, waiting := true)
  }

  // ---- Connection and trust

  function Connect(s: Session, initial: StreamConfig, serviceIdValid: bool): Session {
    Session(if serviceIdValid && ValidConfig(initial) then AwaitingHello else Failed,
            false, None, initial, 0, None, 0, 1, true, [], 0, 0, 1, false, false)
  }

  function Welcome(s: Session, hello: Hello, trusted: bool): Session {
    s.(hello := Some(hello), trusted := trusted, phase := if trusted then Ready else AwaitingTrust)
  }

  function Authenticate(s: Session): Session {
    s.(trusted := true, phase := Ready)
  }

  function Fail(s: Session): Session {
    s.(phase := Failed)
  }

  function Disconnect(s: Session): Session {
    ResetQueue(s.(phase := Disconnected, trusted := false, hello := None, pending := None,
                  pendingGeneration := 0, streamGeneration := 0, resetting := false))
  }

  // ---- Streaming and formats

  predicate MayStart(s: Session) {
    s.phase == Ready && s.pending == None && !s.resetting
  }

  function StartStream(s: Session): Session {
    s.(phase := Streaming, resetting := true)
  }

  function EndReset(s: Session): Session {
    s.(resetting := false)
  }

  predicate Matches(s: Session, generation: nat) {
    s.pending.Some? && s.pendingGeneration == generation && !s.resetting
  }

  function CommitFormat(s: Session, generation: nat): Session
    requires Matches(s, generation)
  {
    ResetQueue(s).(config := s.pending.value, pending := None, pendingGeneration := 0,
                   streamGeneration := generation, resetting := true)
  }

  function RejectFormat(s: Session): Session {
    ResetQueue(s).(pending := None, pendingGeneration := 0)
  }

  datatype FormatResult = InvalidArgument | NotReady | Busy | SendFailed | Sent(generation: nat)

  /** sendFormat; `delivered` is whether the connection took the message. */
  function FormatOutcome(s: Session, config: StreamConfig, delivered: bool): FormatResult {
    if !ValidConfig(config) then InvalidArgument
    else if !s.trusted || s.phase != Streaming then NotReady
    else if s.pending.Some? || s.resetting then Busy
    else if !delivered then SendFailed
    else Sent(s.nextGeneration)
  }

  function BeginFormat(s: Session, config: StreamConfig, delivered: bool): Session {
    match FormatOutcome(s, config, delivered)
    case InvalidArgument => s
    case NotReady => s
    case Busy => s
    case SendFailed => ResetQueue(s).(nextGeneration := s.nextGeneration + 1, pendingGeneration := 0)
    case Sent(g) => ResetQueue(s).(nextGeneration := g + 1, pending := Some(config), pendingGeneration := g)
  }

  // ---- Video

  datatype Gate = Unauthenticated | OutOfState | Open(codec: Codec, generation: nat)

  /** What handleVideo sees when it first holds the mutex. */
  function VideoGate(s: Session): Gate {
    if !s.trusted then Unauthenticated
    else if s.phase != Streaming || s.pending.Some? || s.resetting then OutOfState
    else Open(s.config.codec, s.streamGeneration)
  }

  function UnitOf(f: Frame, codec: Codec, generation: nat): Unit {
    Unit(f.payload, codec, f.keyframe, f.ptsMicros, generation, f.origin)
  }

  datatype Admission = Skipped | Overflowed | Admitted

  function Admit(s: Session, limits: Limits, f: Frame): Admission {
    if s.waiting && !f.keyframe then Skipped
    else if |s.queue| >= limits.units || s.queueBytes + |f.payload| > limits.bytes then Overflowed
    else Admitted
  }

  /** What handleVideo does when it holds the mutex again. */
  function Enqueue(s: Session, limits: Limits, f: Frame, codec: Codec, generation: nat): Session {
    match Admit(s, limits, f)
    case Skipped => s
    case Overflowed => ResetQueue(s)
    case Admitted =>
      s.(waiting := s.waiting && !f.keyframe,
         queue := s.queue + [Queued(s.nextToken, UnitOf(f, codec, generation))],
         queueDepth := |s.queue| + 1, queueBytes := s.queueBytes + |f.payload|,
         nextToken := s.nextToken + 1)
  }

  // ---- Draining

  predicate MayDrain(s: Session, attached: bool) {
    s.queue != [] && attached && !s.resetting
  }

  /** Removes exactly the unit just consumed, never the front of a newer queue. */
  function Pop(s: Session, token: nat): Session {
    if s.queue != [] && s.queue[0].token == token
    then
      var n := |s.queue[0].unit.bytes|;
      s.(queue := s.queue[1..], queueDepth := |s.queue| - 1,
         queueBytes := if n <= s.queueBytes then s.queueBytes - n else 0)
    else s.(queueDepth := |s.queue|)
  }

  // ---------------------------------------------------------------------------
  // What every section keeps

  predicate QueueOk(s: Session, limits: Limits) {
    && s.queueDepth == |s.queue| <= limits.units
    && s.queueBytes == QueueBytes(s.queue) <= limits.bytes
    && (s.waiting ==> s.queue == [])
    && (forall i, j :: 0 <= i < j < |s.queue| ==> s.queue[i].token < s.queue[j].token)
    && (forall q :: q in s.queue ==> q.token < s.nextToken)
    && (forall q :: q in s.queue ==>
          q.unit.generation == s.streamGeneration && q.unit.codec == s.config.codec)
  }

  /** The reachable states of a session. */
  predicate SessionOk(s: Session, limits: Limits) {
    && (s.phase == Ready || s.phase == Streaming ==> s.trusted && s.hello.Some?)
    && (s.trusted ==> s.hello.Some?)
    && (s.phase == AwaitingTrust ==> s.hello.Some? && !s.trusted)
    && (s.pending.Some? <==> s.pendingGeneration != 0)
    && (s.pending.Some? ==>
          s.streamGeneration < s.pendingGeneration < s.nextGeneration && ValidConfig(s.pending.value))
    && s.streamGeneration < s.nextGeneration
    && (s.phase == AwaitingHello || s.phase == AwaitingTrust || s.phase == Ready ==>
          s.pending == None && s.streamGeneration == 0 && s.queue == [] && s.waiting)
    && (s.phase == Disconnected ==> NobodyIsThere(s))
    && QueueOk(s, limits)
  }

  /** Nothing is left of a peer, and nothing of its stream. */
  predicate NobodyIsThere(s: Session) {
    && !s.trusted && s.hello == None && s.pending == None && s.streamGeneration == 0
    && s.queue == [] && s.waiting && !s.resetting
  }

  lemma {:induction false} BytesOfAppend(queue: seq<Queued>, q: Queued)
    ensures QueueBytes(queue + [q]) == QueueBytes(queue) + |q.unit.bytes|
  {
    if queue == [] {
      assert QueueBytes([q]) == |q.unit.bytes| + QueueBytes([]);
    } else {
      BytesOfAppend(queue[1..], q);
      assert (queue + [q])[1..] == queue[1..] + [q];
    }
  }

  lemma AppendKeepsQueue(s: Session, limits: Limits, u: Unit)
    requires QueueOk(s, limits) && |s.queue| < limits.units && s.queueBytes + |u.bytes| <= limits.bytes
    requires u.generation == s.streamGeneration && u.codec == s.config.codec && (s.waiting ==> u.keyframe)
    ensures var q := s.queue + [Queued(s.nextToken, u)];
            QueueOk(s.(waiting := s.waiting && !u.keyframe, queue := q, queueDepth := |q|,
                       queueBytes := s.queueBytes + |u.bytes|, nextToken := s.nextToken + 1), limits)
  {
    BytesOfAppend(s.queue, Queued(s.nextToken, u));
  }

  lemma EnqueueKeeps(s: Session, limits: Limits, f: Frame)
    requires SessionOk(s, limits) && (s.phase == Streaming || s.phase == Failed)
    ensures SessionOk(Enqueue(s, limits, f, s.config.codec, s.streamGeneration), limits)
  {
    if Admit(s, limits, f) == Admitted {
      AppendKeepsQueue(s, limits, UnitOf(f, s.config.codec, s.streamGeneration));
    }
  }

  lemma PopKeeps(s: Session, limits: Limits, token: nat)
    requires SessionOk(s, limits)
    ensures SessionOk(Pop(s, token), limits)
    ensures s.queue != [] && s.queue[0].token == token ==> Pop(s, token).queue == s.queue[1..]
  {
  }

  lemma FormatSectionsKeep(s: Session, limits: Limits, generation: nat, config: StreamConfig, delivered: bool)
    requires SessionOk(s, limits)
    ensures Matches(s, generation) ==> SessionOk(CommitFormat(s, generation), limits)
    ensures SessionOk(RejectFormat(s), limits)
    ensures SessionOk(BeginFormat(s, config, delivered), limits)
  {
  }

  /** A request goes out exactly when it is valid, the stream runs, and no change is under way. */
  lemma RequestIff(s: Session, config: StreamConfig, delivered: bool)
    ensures FormatOutcome(s, config, delivered).Sent? <==>
              && ValidConfig(config) && s.trusted && s.phase == Streaming && s.pending == None && !s.resetting
              && delivered
    ensures FormatOutcome(s, config, delivered).Sent? ==>
              BeginFormat(s, config, delivered).pending == Some(config)
              && BeginFormat(s, config, delivered).pendingGeneration == s.nextGeneration
  {
  }

  /** One that does not go out leaves no request open and the format as it was; its number is not used again. */
  lemma UnsentRequestLeaves(s: Session, config: StreamConfig, delivered: bool)
    requires !FormatOutcome(s, config, delivered).Sent?
    ensures var t := BeginFormat(s, config, delivered);
            && t.pending == s.pending && t.config == s.config && t.streamGeneration == s.streamGeneration
            && t.phase == s.phase && t.nextGeneration >= s.nextGeneration
            && (FormatOutcome(s, config, delivered).SendFailed? ==>
                  t.nextGeneration > s.nextGeneration && t.queue == [] && t.waiting)
            && (!FormatOutcome(s, config, delivered).SendFailed? ==> t == s)
  {
  }

  lemma LifecycleSectionsKeep(s: Session, limits: Limits, initial: StreamConfig, idValid: bool)
    requires SessionOk(s, limits)
    ensures SessionOk(Connect(s, initial, idValid), limits)
    ensures SessionOk(Disconnect(s), limits) && SessionOk(Fail(s), limits) && SessionOk(EndReset(s), limits)
    ensures SessionOk(ResetQueue(s), limits)
    ensures MayStart(s) ==> SessionOk(StartStream(s), limits)
  {
    ConnectionSectionsKeep(s, limits, initial, idValid);
  }

  lemma ConnectionSectionsKeep(s: Session, limits: Limits, initial: StreamConfig, idValid: bool)
    requires SessionOk(s, limits)
    ensures SessionOk(Connect(s, initial, idValid), limits) && SessionOk(Disconnect(s), limits)
  {
  }

  lemma TrustSectionsKeep(s: Session, limits: Limits, hello: Hello, trusted: bool)
    requires SessionOk(s, limits)
    ensures s.phase == AwaitingHello ==> SessionOk(Welcome(s, hello, trusted), limits)
    ensures s.phase == AwaitingTrust ==> SessionOk(Authenticate(s), limits)
  {
  }
}
