/**
 * The controller as the program has it: one object whose handlers update its fields. Each method
 * is one section under the mutex, or a handler that nothing interrupts; what the sections keep is
 * proved of the functions of Session that the methods equal.
 */
module Controller {
  import opened Bytes
  import opened AnnexB
  import opened Session
  import opened Wrappers

  class SessionController {
    const initialStream: StreamConfig
    const limits: Limits
    const attached: bool
    var phase: Phase
    var trusted: bool
    var hello: Option<Hello>
    var config: StreamConfig
    var streamGeneration: nat
    var pending: Option<StreamConfig>
    var pendingGeneration: nat
    var nextGeneration: nat
    var waiting: bool
    var queue: seq<Queued>
    var queueDepth: nat
    var queueBytes: nat
    var nextToken: nat
    var draining: bool
    var resetting: bool

    ghost function Model(): Session
      reads this
    {
      Session(phase, trusted, hello, config, streamGeneration, pending, pendingGeneration, nextGeneration,
              waiting, queue, queueDepth, queueBytes, nextToken, draining, resetting)
    }

    constructor (initial: StreamConfig, bounds: Limits, hasConsumer: bool)
      ensures initialStream == initial && limits == bounds && attached == hasConsumer
      ensures phase == Disconnected && !trusted && pending == None && queue == []
    {
      initialStream, limits, attached := initial, bounds, hasConsumer;
      phase, trusted, hello := Disconnected, false, None;
      config, streamGeneration := initial, 0;
      pending, pendingGeneration, nextGeneration := None, 0, 1;
      waiting, queue, queueDepth, queueBytes, nextToken := true, [], 0, 0, 1;
      draining, resetting := false, false;
    }

    method ResetQueueLocked()
      modifies this`queue, this`queueDepth, this`queueBytes, this`waiting
      ensures Model() == ResetQueue(old(Model()))
    {
      queue := [];
      queueDepth := 0;
      queueBytes := 0;
      waiting := true;
    }

    /** No format but the initial one, no numbering begun. */
    method StartNumbering()
      modifies this`config, this`streamGeneration, this`pending, this`pendingGeneration
      modifies this`nextGeneration, this`nextToken
      ensures config == initialStream && streamGeneration == 0 && pending == None
      ensures pendingGeneration == 0 && nextGeneration == 1 && nextToken == 1
    {
      pending := None;
      nextGeneration := 1;
      nextToken := 1;
      streamGeneration := 0;
      pendingGeneration := 0;
      config := initialStream;
    }

    method OnConnected(serviceIdValid: bool)
      modifies this
      ensures Model() == Connect(old(Model()), initialStream, serviceIdValid)
    {
      ResetQueueLocked();
      StartNumbering();
      trusted, hello, draining, resetting := false, None, false, false;
      phase := if serviceIdValid && ValidConfig(initialStream) then AwaitingHello else Failed;
    }

    method OnDisconnected()
      modifies this
      ensures Model() == Disconnect(old(Model()))
    {
      ResetQueueLocked();
      phase := Disconnected;
      trusted := false;
      hello := None;
      pending := None;
      pendingGeneration := 0;
      streamGeneration := 0;
      resetting := false;
    }

    method ProtocolFailure()
      modifies this`phase
      ensures Model() == Fail(old(Model()))
    {
      phase := Failed;
    }

    method HandleHello(peer: Hello, isTrusted: bool)
      requires phase == AwaitingHello
      modifies this
      ensures Model() == Welcome(old(Model()), peer, isTrusted)
    {
      hello := Some(peer);
      trusted := isTrusted;
      phase := if isTrusted then Ready else AwaitingTrust;
    }

    method HandleAuthenticated()
      requires phase == AwaitingTrust
      modifies this
      ensures Model() == Authenticate(old(Model()))
    {
      trusted := true;
      phase := Ready;
    }

    /** stream_start up to the consumer's reset; `ok` is false when it comes at the wrong time. */
    method BeginStream() returns (ok: bool, told: StreamConfig, generation: nat)
      modifies this
      ensures ok == MayStart(old(Model()))
      ensures Model() == if ok then StartStream(old(Model())) else old(Model())
      ensures ok ==> told == config && generation == streamGeneration
    {
      ok := phase == Ready && pending == None && !resetting;
      told, generation := config, streamGeneration;
      if ok {
        phase := Streaming;
        resetting := true;
      }
    }

    method ResetDone()
      modifies this`resetting
      ensures Model() == EndReset(old(Model()))
    {
      resetting := false;
    }

    /** format_ack up to the consumer's reset. */
    method HandleFormatAck(generation: nat) returns (matches: bool, applied: StreamConfig)
      modifies this
      ensures matches == Matches(old(Model()), generation)
      ensures matches ==> Model() == CommitFormat(old(Model()), generation)
      ensures matches ==> old(pending) == Some(applied)
      ensures !matches ==> Model() == old(Model())
    {
      matches := pending.Some? && pendingGeneration == generation && !resetting;
      applied := initialStream;
      if matches {
        applied := pending.value;
        ResetQueueLocked();
        config := applied;
        pending := None;
        streamGeneration := generation;
        pendingGeneration := 0;
        waiting := true;
        resetting := true;
      }
    }

    method HandleFormatReject(generation: nat) returns (matches: bool)
      modifies this
      ensures matches == Matches(old(Model()), generation)
      ensures Model() == if matches then RejectFormat(old(Model())) else old(Model())
    {
      matches := pending.Some? && pendingGeneration == generation && !resetting;
      if matches {
        ResetQueueLocked();
        pending := None;
        pendingGeneration := 0;
        waiting := true;
      }
    }

    /** `delivered` is whether the connection takes the message. */
    method SendFormat(wanted: StreamConfig, delivered: bool) returns (result: FormatResult)
      modifies this
      ensures result == FormatOutcome(old(Model()), wanted, delivered)
      ensures Model() == BeginFormat(old(Model()), wanted, delivered)
    {
      if !ValidConfig(wanted) { return InvalidArgument; }
      if !trusted || phase != Streaming { return NotReady; }
      if pending.Some? || resetting { return Busy; }
      var generation := nextGeneration;
      nextGeneration := nextGeneration + 1;
      pending := Some(wanted);
      pendingGeneration := generation;
      ResetQueueLocked();
      if !delivered {
        pending := None;
        pendingGeneration := 0;
        return SendFailed;
      }
      return Sent(generation);
    }

    /** The second section of handleVideo. */
    method AdmitUnit(f: Frame, codec: Codec, generation: nat) returns (admission: Admission)
      modifies this
      ensures admission == Admit(old(Model()), limits, f)
      ensures Model() == Enqueue(old(Model()), limits, f, codec, generation)
      ensures admission == Admitted ==>
        queue == old(queue)
          + [Queued(old(nextToken), Unit(f.payload, codec, f.keyframe, f.ptsMicros, generation, f.origin))]
    {
      if waiting && !f.keyframe { return Skipped; }
      if f.keyframe { waiting := false; }
      if |queue| >= limits.units || queueBytes + |f.payload| > limits.bytes {
        ResetQueueLocked();
        return Overflowed;
      }
      queue := queue + [Queued(nextToken, UnitOf(f, codec, generation))];
      nextToken := nextToken + 1;
      queueDepth := |queue|;
      queueBytes := queueBytes + |f.payload|;
      return Admitted;
    }

    /** One video frame, when no other thread comes between the two sections. */
    method HandleVideo(f: Frame) returns (handling: Handling)
      modifies this
      ensures match VideoGate(old(Model()))
              case Open(codec, generation) =>
                if Acceptable(f, codec)
                then && Model() == Enqueue(old(Model()), limits, f, codec, generation)
                     && handling == Taken(Admit(old(Model()), limits, f))
                else Model() == ResetQueue(old(Model())) && handling == Invalid
              case _ => Model() == old(Model()) && handling == Dropped
      ensures handling == Taken(Admitted) ==>
        queue == old(queue) + [Queued(old(nextToken), Unit(f.payload, old(config.codec), f.keyframe, f.ptsMicros,
                                                           old(streamGeneration), f.origin))]
    {
      var streaming := phase == Streaming;
      var transition := pending.Some? || resetting;
      if !trusted || !streaming || transition { return Dropped; }
      var codec, generation := config.codec, streamGeneration;
      var ok := InspectFrame(f, codec);
      if !ok {
        ResetQueueLocked();
        return Invalid;
      }
      var admission := AdmitUnit(f, codec, generation);
      return Taken(admission);
    }

    /** Offers the queue to the consumer, whose successive answers are given, until it is busy. */
    method DrainQueue(answers: seq<bool>) returns (handed: seq<Unit>)
      requires queueBytes == QueueBytes(queue) && queueDepth == |queue|
      modifies this`draining, this`queue, this`queueDepth, this`queueBytes
      ensures old(draining) || !attached || resetting ==> handed == [] && queue == old(queue)
      ensures var n := |handed|;
              && n <= |old(queue)| && handed == Units(old(queue)[..n]) && queue == old(queue)[n..]
              && (!old(draining) && attached && !resetting ==> n == Accepted(old(queue), answers))
      ensures queueBytes == QueueBytes(queue) && queueDepth == |queue| && draining == old(draining)
    {
      handed := [];
      if draining { return; }
      draining := true;
      ghost var was := old(queue);
      while queue != [] && attached && !resetting
        invariant |handed| <= |was| && queue == was[|handed|..]
        invariant handed == Units(was[..|handed|]) && |handed| <= |answers|
        invariant !attached || resetting ==> handed == []
        invariant Accepted(was, answers) == |handed| + Accepted(queue, answers[|handed|..])
        invariant queueBytes == QueueBytes(queue) && queueDepth == |queue|
        decreases |queue|
      {
        var front := queue[0];
        var n := |handed|;
        if n == |answers| || !answers[n] { break; }
        handed := handed + [front.unit];
        UnitsAppend(was[..n], front);
        assert was[..n + 1] == was[..n] + [front];
        assert answers[n..][1..] == answers[n + 1..];
        if queue != [] && queue[0].token == front.token {
          queueBytes := queueBytes - |front.unit.bytes|;
          queue := queue[1..];
        }
        queueDepth := |queue|;
      }
      draining := false;
    }
  }

  method InspectFrame(f: Frame, codec: Codec) returns (ok: bool)
    ensures ok <==> Acceptable(f, codec)
  {
    var report := Inspect(f.payload, codec);
    var flagMatches := f.keyframe == report.hasKeyframeSlice;
    ok := !(!report.isAnnexB || !report.hasVideoSlice || !flagMatches
            || (f.keyframe && !report.isSelfContainedKeyframe));
  }

  datatype Handling = Dropped | Invalid | Taken(admission: Admission)

  /** How many units a consumer takes that gives these answers and is busy afterwards. */
  function Accepted(queue: seq<Queued>, answers: seq<bool>): (n: nat)
    ensures n <= |queue|
  {
    if queue == [] || answers == [] || !answers[0] then 0 else 1 + Accepted(queue[1..], answers[1..])
  }
}
