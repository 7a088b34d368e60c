/** The phone's model object: callbacks and tasks that update its fields on the main actor. */
module PhoneApp {
  import opened Bytes
  import opened Session
  import opened P = Phone
  import opened Wrappers

  class AppModel {
    const allows: bool
    var peerAllows: bool
    var negotiated: bool
    var ended: bool
    var videoSuspended: bool
    var streamGeneration: nat
    var lastFormatGeneration: nat
    var currentConfiguration: Option<StreamConfig>
    var encoder: Option<StreamConfig>
    var tasks: seq<Task>

    function Model(): Phone
      reads this
    {
      P.Phone.Phone(allows, peerAllows, negotiated, ended, videoSuspended, streamGeneration, lastFormatGeneration,
                  currentConfiguration, encoder, tasks)
    }

    constructor (allowsUnauthenticated: bool)
      ensures Model() == NewPhone(allowsUnauthenticated)
    {
      allows, peerAllows, negotiated, ended, videoSuspended := allowsUnauthenticated, false, false, false, true;
      streamGeneration, lastFormatGeneration, currentConfiguration, encoder, tasks := 0, 0, None, None, [];
    }

    /** Both halves, or nothing. */
    method OnServerInfo(peer: bool)
      requires !ended
      modifies this`peerAllows, this`negotiated
      ensures Model() == Handle(old(Model()), ServerInfo(peer)).phone
    {
      peerAllows := peer;
      negotiated := allows && peerAllows;
    }

    method OnReadyMessage(config: StreamConfig)
      requires !ended
      modifies this
      ensures Model() == Handle(old(Model()), PcMessage.Ready(config)).phone
    {
      if !negotiated || !Validated(config) {
        ended := true;
        return;
      }
      streamGeneration := streamGeneration + 1;
      lastFormatGeneration := 0;
      videoSuspended := true;
      tasks := tasks + [Start(config, streamGeneration, StartQueued)];
    }

    method OnSetFormat(config: StreamConfig, generation: nat) returns (sent: seq<PhoneMessage>)
      requires !ended && negotiated
      modifies this`lastFormatGeneration, this`streamGeneration, this`videoSuspended, this`tasks
      ensures Result(Model(), sent) == Handle(old(Model()), SetFormat(config, generation))
    {
      if generation <= lastFormatGeneration { return []; }
      lastFormatGeneration := generation;
      if !Validated(config) { return [FormatReject(generation)]; }
      streamGeneration := streamGeneration + 1;
      videoSuspended := true;
      tasks := tasks + [Change(config, streamGeneration, generation, None, ChangeQueued)];
      return [];
    }

    /** What a task does between two awaits. */
    method Settle(i: nat, move: Move) returns (sent: seq<PhoneMessage>)
      requires i < |tasks|
      modifies this`encoder, this`currentConfiguration, this`videoSuspended, this`ended, this`tasks
      ensures Result(Model(), sent) == Moved(old(Model()), i, move)
    {
      encoder := move.encoder;
      currentConfiguration := move.current;
      videoSuspended := move.suspended;
      if move.ended { ended := true; }
      tasks := tasks[..i] + (if move.next.Some? then [move.next.value] else []) + tasks[i + 1..];
      sent := move.sent;
    }

    /** startStreaming, from one of its awaits to the next. */
    method ResumeStreaming(i: nat, outcome: Outcome) returns (sent: seq<PhoneMessage>)
      requires i < |tasks| && tasks[i].Start?
      modifies this
      ensures Result(Model(), sent) == Resume(old(Model()), i, outcome)
    {
      var t := tasks[i];
      var move := Move(encoder, currentConfiguration, videoSuspended, false, None, []);
      var current := t.generation == streamGeneration;
      match t.progress {
        case StartQueued =>
          if current {
            if outcome == Works {
              move := move.(encoder := Some(t.config), next := Some(t.(progress := PreparingCamera)));
            } else {
              move := move.(encoder := None, next := Some(t.(progress := StartFailed)));
            }
          }
        case PreparingCamera =>
          if outcome != Works {
            move := move.(encoder := None);
            if current { move := move.(next := Some(t.(progress := StartFailed))); }
          } else if current {
            move := move.(current := Some(t.config), sent := [Info, Info],
                          next := Some(t.(progress := StartingActivity)));
          }
        case StartingActivity =>
          move := move.(suspended := false, sent := [PhoneMessage.StreamStart, Info, Info, Info]);
        case StartFailed =>
          move := move.(current := None, ended := true);
      }
      sent := Settle(i, move);
    }

    /** reconfigure, from one of its awaits to the next. */
    method ResumeReconfigure(i: nat, outcome: Outcome) returns (sent: seq<PhoneMessage>)
      requires i < |tasks| && tasks[i].Change?
      modifies this
      ensures Result(Model(), sent) == Resume(old(Model()), i, outcome)
    {
      var t := tasks[i];
      var move := Move(encoder, currentConfiguration, videoSuspended, false, None, []);
      var current := t.taskGeneration == streamGeneration;
      var failed := false;
      match t.stage {
        case ChangeQueued =>
          if current { move := move.(next := Some(t.(stage := StoppingCamera, previous := currentConfiguration))); }
        case StoppingCamera =>
          if current {
            if outcome == Works {
              move := move.(encoder := Some(t.config), next := Some(t.(stage := PreparingNew)));
            } else {
              failed := true;
            }
          }
        case PreparingNew =>
          if outcome != Works {
            move := move.(encoder := None);
            failed := current;
          } else if current {
            move := move.(current := Some(t.config), suspended := false,
                          sent := [Info, FormatAck(t.formatGeneration)]);
          }
        case PreparingOld =>
          if outcome != Works {
            move := move.(next := Some(t.(stage := ChangeFailed)));
          } else if current {
            move := move.(current := t.previous, suspended := false,
                          sent := [Info, FormatReject(t.formatGeneration)]);
          }
        case ChangeFailed =>
          move := move.(current := None, ended := true);
      }
      if failed {
        move := move.(encoder := None);
        if t.previous.Some? && outcome == FailsButOldWorks {
          move := move.(encoder := t.previous, next := Some(t.(stage := PreparingOld)));
        } else {
          move := move.(next := Some(t.(stage := ChangeFailed)));
        }
      }
      sent := Settle(i, move);
    }

    /** sendVideo, into a transport that has room or not. */
    method SendVideo(unit: PhoneMessage, room: bool) returns (sent: seq<PhoneMessage>)
      ensures sent == P.SendVideo(Model(), unit, room)
    {
      if videoSuspended || !room { return []; }
      return [unit];
    }
  }
}
