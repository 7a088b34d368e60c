/**
 * The phone's side of a session: the main actor handles messages and runs its tasks, which give
 * up the actor at every await. One connection, from its hello on.
 */
module Phone {
  import opened Bytes
  import opened Session
  import opened Wrappers

  datatype PcMessage =
    | ServerInfo(allowUnauthenticated: bool)
    | Ready(config: StreamConfig)
    | SetFormat(config: StreamConfig, generation: nat)
    | Misc

  datatype PhoneMessage =
    | SayHello(allowUnauthenticated: bool)
    | Info                                     // caps, camera_state, telemetry
    | StreamStart
    | FormatAck(generation: nat)
    | FormatReject(generation: nat)
    | Video(payload: seq<Byte>, keyframe: bool, ptsMicros: nat, source: StreamConfig)

  /** Where a task will resume. */
  datatype Task =
    | Start(config: StreamConfig, generation: nat, progress: StartStage)
    | Change(config: StreamConfig, taskGeneration: nat, formatGeneration: nat,
             previous: Option<StreamConfig>, stage: ChangeStage)

  datatype StartStage = StartQueued | PreparingCamera | StartingActivity | StartFailed
  datatype ChangeStage = ChangeQueued | StoppingCamera | PreparingNew | PreparingOld | ChangeFailed

  /** What the encoder and the camera made of the request. */
  datatype Outcome = Works | FailsButOldWorks | Fails

  /** `encoder` is the configuration of the live encoder session; `ended` a cancelled transport. */
  datatype Phone = Phone(
    allows: bool, peerAllows: bool, negotiated: bool, ended: bool,
    suspended: bool, streamGeneration: nat, lastFormatGeneration: nat,
    current: Option<StreamConfig>, encoder: Option<StreamConfig>, tasks: seq<Task>)

  function NewPhone(allows: bool): Phone {
    Phone(allows, false, false, false, true, 0, 0, None, None, [])
  }

  /** The phone's own check of a configuration, with the quotient it uses. */
  predicate Validated(c: StreamConfig) {
    && c.width > 0 && c.height > 0
    && c.width <= MAX_DIMENSION && c.height <= MAX_DIMENSION
    && c.width % 2 == 0 && c.height % 2 == 0
    && c.width <= MAX_PIXELS / c.height
    && 1 <= c.fps <= 120
    && MIN_BITRATE <= c.bitrate <= MAX_BITRATE
  }

  /** Both ends accept the same configurations. */
  lemma ValidityAgrees(c: StreamConfig)
    ensures Validated(c) <==> ValidConfig(c)
  {
    if c.height > 0 {
      QuotientBound(c.width, c.height, MAX_PIXELS);
    }
  }

  lemma QuotientBound(w: nat, h: nat, m: nat)
    requires h > 0
    ensures w <= m / h <==> w * h <= m
  {
    var q := m / h;
    assert m == q * h + m % h;
    if w <= q {
      assert w * h <= q * h;
    } else {
      assert w * h >= (q + 1) * h;
    }
  }

  datatype Result = Result(phone: Phone, sent: seq<PhoneMessage>)

  function Quiet(p: Phone): Result { Result(p, []) }

  /** The transport is cancelled: whatever would be sent or arrive from now on goes nowhere. */
  function End(p: Phone): Phone { p.(ended := true) }

  // ---------------------------------------------------------------------------
  // Messages

  function Handle(p: Phone, m: PcMessage): Result {
    if p.ended then Quiet(p)
    else match m
      case ServerInfo(allow) => Quiet(p.(peerAllows := allow, negotiated := p.allows && allow))
      case Ready(config) =>
        if !p.negotiated || !Validated(config) then Quiet(End(p)) else Quiet(OnReady(p, config))
      case SetFormat(config, generation) => if !p.negotiated then Quiet(p) else OnSetFormat(p, config, generation)
      case Misc => Quiet(p)
  }

  function OnReady(p: Phone, config: StreamConfig): Phone {
    var generation := p.streamGeneration + 1;
    p.(streamGeneration := generation, lastFormatGeneration := 0, suspended := true,
       tasks := p.tasks + [Start(config, generation, StartQueued)])
  }

  function OnSetFormat(p: Phone, config: StreamConfig, generation: nat): Result {
    if generation <= p.lastFormatGeneration then Quiet(p)
    else
      var noted := p.(lastFormatGeneration := generation);
      if !Validated(config) then Result(noted, [FormatReject(generation)])
      else
        var task := p.streamGeneration + 1;
        Quiet(noted.(streamGeneration := task, suspended := true,
                     tasks := p.tasks + [Change(config, task, generation, None, ChangeQueued)]))
  }

  // ---------------------------------------------------------------------------
  // Tasks

  /** What a task does before its next await: `next` is where it resumes, if it does. */
  datatype Move = Move(encoder: Option<StreamConfig>, current: Option<StreamConfig>, suspended: bool,
                       ended: bool, next: Option<Task>, sent: seq<PhoneMessage>)

  function Awaits(p: Phone, t: Task): Move { Move(p.encoder, p.current, p.suspended, false, Some(t), []) }
  function Returns(p: Phone): Move { Move(p.encoder, p.current, p.suspended, false, None, []) }

  /** After the camera has stopped for good: no configuration, and the connection is given up. */
  function GivesUp(p: Phone): Move { Returns(p).(ended := true, current := None) }

  /** Task i has the actor again and runs to its next await. */
  function Resume(p: Phone, i: nat, outcome: Outcome): Result
    requires i < |p.tasks|
  {
    Moved(p, i, MoveOf(p, p.tasks[i], outcome))
  }

  function MoveOf(p: Phone, t: Task, outcome: Outcome): Move {
    if t.Start? then StartMove(p, t, outcome) else ChangeMove(p, t, outcome)
  }

  function Moved(p: Phone, i: nat, m: Move): Result
    requires i < |p.tasks|
  {
    var tasks := p.tasks[..i] + (if m.next.Some? then [m.next.value] else []) + p.tasks[i + 1..];
    Result(Phone(p.allows, p.peerAllows, p.negotiated, p.ended || m.ended, m.suspended, p.streamGeneration,
                 p.lastFormatGeneration, m.current, m.encoder, tasks),
           m.sent)
  }

  /** startStreaming. */
  function StartMove(p: Phone, t: Task, outcome: Outcome): Move
    requires t.Start?
  {
    var current := t.generation == p.streamGeneration;
    match t.progress
    case StartQueued =>
      if !current then Returns(p)
      else if outcome == Works then Awaits(p, t.(progress := PreparingCamera)).(encoder := Some(t.config))
      else Awaits(p, t.(progress := StartFailed)).(encoder := None)
    case PreparingCamera =>
      if outcome == Works then
        if !current then Returns(p)
        else Awaits(p, t.(progress := StartingActivity)).(current := Some(t.config), sent := [Info, Info])
      else if !current then Returns(p).(encoder := None)
      else Awaits(p, t.(progress := StartFailed)).(encoder := None)
    case StartingActivity =>
      Returns(p).(suspended := false, sent := [PhoneMessage.StreamStart, Info, Info, Info])
    case StartFailed => GivesUp(p)
  }

  /** reconfigure. */
  function ChangeMove(p: Phone, t: Task, outcome: Outcome): Move
    requires t.Change?
  {
    var current := t.taskGeneration == p.streamGeneration;
    match t.stage
    case ChangeQueued =>
      if !current then Returns(p) else Awaits(p, t.(stage := StoppingCamera, previous := p.current))
    case StoppingCamera =>
      if !current then Returns(p)
      else if outcome == Works then Awaits(p, t.(stage := PreparingNew)).(encoder := Some(t.config))
      else Restore(p, t, outcome)
    case PreparingNew =>
      if outcome == Works then
        if !current then Returns(p)
        else Returns(p).(current := Some(t.config), suspended := false,
                         sent := [Info, FormatAck(t.formatGeneration)])
      else if !current then Returns(p).(encoder := None)
      else Restore(p, t, outcome)
    case PreparingOld =>
      if outcome != Works then Awaits(p, t.(stage := ChangeFailed))
      else if !current then Returns(p)
      else Returns(p).(current := t.previous, suspended := false,
                       sent := [Info, FormatReject(t.formatGeneration)])
    case ChangeFailed => GivesUp(p)
  }

  /** The new format cannot be had: back to the one before, if there was one and it still works. */
  function Restore(p: Phone, t: Task, outcome: Outcome): Move
    requires t.Change?
  {
    if outcome == FailsButOldWorks && t.previous.Some?
    then Awaits(p, t.(stage := PreparingOld)).(encoder := t.previous)
    else Awaits(p, t.(stage := ChangeFailed)).(encoder := None)
  }

  // ---------------------------------------------------------------------------
  // Video

  /** sendVideo; the transport may drop a frame that its budget has no room for. */
  function SendVideo(p: Phone, unit: PhoneMessage, room: bool): seq<PhoneMessage> {
    if p.suspended || !room then [] else [unit]
  }

  /**
   * An access unit reaching the main actor was encoded by the live session, or the actor has
   * suspended video and not yet resumed it.
   */
  predicate MayArrive(p: Phone, source: StreamConfig) {
    p.encoder == Some(source) || p.suspended
  }
}
