/** What becomes of the phone's orders, from the message that brings one to the last await. */
module PhonePromises {
  import opened Bytes
  import opened Session
  import opened Phone
  import opened Wrappers

  // ---------------------------------------------------------------------------
  // An order that nothing else disturbs

  /** Connected, allowed by both ends, and with nothing left to do. */
  predicate AtRest(p: Phone) {
    !p.ended && p.negotiated && p.tasks == []
  }

  /** Camera and encoder run in this configuration, and every unit the transport has room for goes out. */
  ghost predicate Sends(p: Phone, c: StreamConfig) {
    && !p.ended && !p.suspended && p.encoder == Some(c) && p.current == Some(c)
    && forall unit :: SendVideo(p, unit, true) == [unit]
  }

  /** No unit goes out. */
  ghost predicate Silent(p: Phone) {
    forall unit, room :: SendVideo(p, unit, room) == []
  }

  /** Message m leaves one task, and no unit goes out any more. */
  ghost predicate Begins(p: Phone, m: PcMessage, q: Phone) {
    Handle(p, m) == Result(q, []) && |q.tasks| == 1 && !q.ended && Silent(q)
  }

  /** Its one task goes on to its next await; still no unit goes out. */
  ghost predicate GoesOn(p: Phone, outcome: Outcome, sent: seq<PhoneMessage>, q: Phone) {
    |p.tasks| == 1 && Resume(p, 0, outcome) == Result(q, sent) && |q.tasks| == 1 && !q.ended && Silent(q)
  }

  /** Its one task is done. */
  predicate Completes(p: Phone, outcome: Outcome, sent: seq<PhoneMessage>, q: Phone) {
    |p.tasks| == 1 && Resume(p, 0, outcome) == Result(q, sent) && q.tasks == []
  }

  /** The order to start, when camera and encoder work: announced, started, sending. */
  lemma StartSucceeds(p: Phone, c: StreamConfig, any: Outcome) returns (q0: Phone, q1: Phone, q2: Phone, q: Phone)
    requires AtRest(p) && ValidConfig(c)
    ensures Begins(p, PcMessage.Ready(c), q0)
    ensures GoesOn(q0, Works, [], q1) && GoesOn(q1, Works, [Info, Info], q2)
    ensures Completes(q2, any, [StreamStart, Info, Info, Info], q) && Sends(q, c)
    ensures q.lastFormatGeneration == 0
  {
    ValidityAgrees(c);
    q0 := Handle(p, PcMessage.Ready(c)).phone;
    q1 := Resume(q0, 0, Works).phone;
    q2 := Resume(q1, 0, Works).phone;
    q := Resume(q2, 0, any).phone;
  }

  /** When the encoder refuses, nothing is announced and the connection is given up. */
  lemma StartFailsAtOnce(p: Phone, c: StreamConfig, bad: Outcome, any: Outcome)
    returns (q0: Phone, q1: Phone, q: Phone)
    requires AtRest(p) && ValidConfig(c) && bad != Works
    ensures Begins(p, PcMessage.Ready(c), q0) && GoesOn(q0, bad, [], q1)
    ensures Completes(q1, any, [], q) && q.ended && q.encoder == None && q.current == None
  {
    ValidityAgrees(c);
    q0 := Handle(p, PcMessage.Ready(c)).phone;
    q1 := Resume(q0, 0, bad).phone;
    q := Resume(q1, 0, any).phone;
  }

  /** The same when the encoder takes it and the camera refuses. */
  lemma StartFailsLater(p: Phone, c: StreamConfig, bad: Outcome, any: Outcome)
    returns (q0: Phone, q1: Phone, q2: Phone, q: Phone)
    requires AtRest(p) && ValidConfig(c) && bad != Works
    ensures Begins(p, PcMessage.Ready(c), q0) && GoesOn(q0, Works, [], q1) && GoesOn(q1, bad, [], q2)
    ensures Completes(q2, any, [], q) && q.ended && q.encoder == None && q.current == None
  {
    ValidityAgrees(c);
    q0 := Handle(p, PcMessage.Ready(c)).phone;
    q1 := Resume(q0, 0, Works).phone;
    q2 := Resume(q1, 0, bad).phone;
    q := Resume(q2, 0, any).phone;
  }

  /** Until the camera has stopped for the change; what is to be restored has been noted. */
  lemma ChangeBegins(p: Phone, c: StreamConfig, g: nat, any: Outcome) returns (q0: Phone, q1: Phone)
    requires AtRest(p) && ValidConfig(c) && p.lastFormatGeneration < g
    ensures Begins(p, SetFormat(c, g), q0) && GoesOn(q0, any, [], q1)
    ensures q1 == p.(streamGeneration := p.streamGeneration + 1, lastFormatGeneration := g, suspended := true,
                     tasks := [Change(c, p.streamGeneration + 1, g, p.current, StoppingCamera)])
  {
    ValidityAgrees(c);
    q0 := Handle(p, SetFormat(c, g)).phone;
    q1 := Resume(q0, 0, any).phone;
  }

  /** The order to change the format, when the new one works: acknowledged, and sending in it. */
  lemma ChangeSucceeds(p: Phone, c: StreamConfig, g: nat, any: Outcome)
    returns (q0: Phone, q1: Phone, q2: Phone, q: Phone)
    requires AtRest(p) && ValidConfig(c) && p.lastFormatGeneration < g
    ensures Begins(p, SetFormat(c, g), q0) && GoesOn(q0, any, [], q1) && GoesOn(q1, Works, [], q2)
    ensures Completes(q2, Works, [Info, FormatAck(g)], q) && Sends(q, c)
    ensures q.lastFormatGeneration == g
  {
    q0, q1 := ChangeBegins(p, c, g, any);
    q2 := Resume(q1, 0, Works).phone;
    q := Resume(q2, 0, Works).phone;
  }

  /**
   * When the encoder or the camera refuses the new format and the old one still works: rejected,
   * and sending in the old one again.
   */
  lemma ChangeIsUndone(p: Phone, before: StreamConfig, c: StreamConfig, g: nat, encoderTakesIt: bool, any: Outcome)
    returns (q0: Phone, q1: Phone, q2: Phone, q3: Phone, q: Phone)
    requires AtRest(p) && p.current == Some(before) && ValidConfig(c) && p.lastFormatGeneration < g
    ensures Begins(p, SetFormat(c, g), q0) && GoesOn(q0, any, [], q1)
    ensures if encoderTakesIt then GoesOn(q1, Works, [], q2) && GoesOn(q2, FailsButOldWorks, [], q3)
            else GoesOn(q1, FailsButOldWorks, [], q3)
    ensures Completes(q3, Works, [Info, FormatReject(g)], q) && Sends(q, before)
    ensures q.lastFormatGeneration == g
  {
    q0, q1 := ChangeBegins(p, c, g, any);
    q2 := Resume(q1, 0, Works).phone;
    q3 := if encoderTakesIt then Resume(q2, 0, FailsButOldWorks).phone else Resume(q1, 0, FailsButOldWorks).phone;
    q := Resume(q3, 0, Works).phone;
  }

  /** When neither can be had, no reply is sent and the connection is given up. */
  lemma ChangeFails(p: Phone, c: StreamConfig, g: nat, oldEncoderWorks: bool, any: Outcome, last: Outcome)
    returns (q0: Phone, q1: Phone, q2: Phone, q3: Phone, q: Phone)
    requires AtRest(p) && p.current.Some? && ValidConfig(c) && p.lastFormatGeneration < g && any != Works
    ensures Begins(p, SetFormat(c, g), q0) && GoesOn(q0, any, [], q1)
    ensures if oldEncoderWorks then GoesOn(q1, FailsButOldWorks, [], q2) && GoesOn(q2, any, [], q3)
            else GoesOn(q1, Fails, [], q3)
    ensures Completes(q3, last, [], q) && q.ended && q.current == None
  {
    q0, q1 := ChangeBegins(p, c, g, any);
    q2 := Resume(q1, 0, FailsButOldWorks).phone;
    q3 := if oldEncoderWorks then Resume(q2, 0, any).phone else Resume(q1, 0, Fails).phone;
    q := Resume(q3, 0, last).phone;
  }

  /** An order that no phone could follow is rejected at once, and the stream goes on as it was. */
  lemma InvalidFormatIsRejected(p: Phone, c: StreamConfig, g: nat)
    requires !p.ended && p.negotiated && !ValidConfig(c) && p.lastFormatGeneration < g
    ensures Handle(p, SetFormat(c, g)) == Result(p.(lastFormatGeneration := g), [FormatReject(g)])
  {
    ValidityAgrees(c);
  }

  /** A start that either end has not allowed, or that cannot be followed, ends the connection. */
  lemma StartIsRefused(p: Phone, c: StreamConfig)
    requires !p.ended && (!p.negotiated || !ValidConfig(c))
    ensures Handle(p, PcMessage.Ready(c)) == Result(p.(ended := true), [])
  {
    ValidityAgrees(c);
  }

  /** A change that has been ordered before, or that comes before both ends allow video, does nothing. */
  lemma ChangeIsIgnored(p: Phone, c: StreamConfig, g: nat)
    requires p.ended || !p.negotiated || g <= p.lastFormatGeneration
    ensures Handle(p, SetFormat(c, g)) == Result(p, [])
  {
  }

  /** Video is allowed when both ends said so, the PC in the last thing it said about it. */
  lemma BothMustAllow(p: Phone, allow: bool)
    requires !p.ended
    ensures Handle(p, ServerInfo(allow)) == Result(p.(peerAllows := allow, negotiated := p.allows && allow), [])
  {
  }

  // ---------------------------------------------------------------------------
  // Whatever the PC asks for, and whenever

  datatype Step = Takes(message: PcMessage) | Resumes(task: nat, outcome: Outcome) | Quits

  predicate CanStep(p: Phone, step: Step) {
    step.Resumes? ==> step.task < |p.tasks|
  }

  function Next(p: Phone, step: Step): Phone
    requires CanStep(p, step)
  {
    match step
    case Takes(m) => Handle(p, m).phone
    case Resumes(i, outcome) => Resume(p, i, outcome).phone
    case Quits => End(p)
  }

  predicate Possible(p: Phone, steps: seq<Step>)
    decreases steps
  {
    steps == [] || (CanStep(p, steps[0]) && Possible(Next(p, steps[0]), steps[1..]))
  }

  function After(p: Phone, steps: seq<Step>): Phone
    requires Possible(p, steps)
    decreases steps
  {
    if steps == [] then p else After(Next(p, steps[0]), steps[1..])
  }

  function GenerationOf(t: Task): nat {
    if t.Start? then t.generation else t.taskGeneration
  }

  /** Some task is that of the newest order. */
  predicate HasNewest(p: Phone) {
    exists i :: 0 <= i < |p.tasks| && GenerationOf(p.tasks[i]) == p.streamGeneration
  }

  /** Suspended means not started yet, or that the newest order is being worked on. */
  predicate NotStuck(p: Phone) {
    p.ended || !p.suspended || p.streamGeneration == 0 || HasNewest(p)
  }

  lemma TakesKeeps(p: Phone, m: PcMessage)
    requires NotStuck(p)
    ensures NotStuck(Handle(p, m).phone)
  {
    var q := Handle(p, m).phone;
    if q.tasks != p.tasks {
      assert GenerationOf(q.tasks[|p.tasks|]) == q.streamGeneration;
    } else if HasNewest(p) && q.streamGeneration == p.streamGeneration {
      var i :| 0 <= i < |p.tasks| && GenerationOf(p.tasks[i]) == p.streamGeneration;
      assert GenerationOf(q.tasks[i]) == q.streamGeneration;
    }
  }

  /** The newest order's task does not stop until video goes out again or the connection is given up. */
  lemma NewestGoesOn(p: Phone, t: Task, outcome: Outcome)
    requires GenerationOf(t) == p.streamGeneration
    ensures var m := MoveOf(p, t, outcome);
            m.ended || !m.suspended || (m.next.Some? && GenerationOf(m.next.value) == p.streamGeneration)
  {
  }

  /** A task that is past its last look at the newest order. */
  predicate PastTheGuard(t: Task) {
    if t.Start? then t.progress == StartingActivity || t.progress == StartFailed else t.stage == ChangeFailed
  }

  /**
   * A task whose order has been superseded says nothing, resumes nothing and gives nothing up; it stops,
   * unless it has to put the camera away first. So no reply is sent to any order but the newest.
   */
  lemma SupersededTaskIsSilent(p: Phone, t: Task, outcome: Outcome)
    requires GenerationOf(t) != p.streamGeneration && !PastTheGuard(t)
    ensures var m := MoveOf(p, t, outcome);
            && m.sent == [] && m.suspended == p.suspended && m.current == p.current && !m.ended
            && (m.next.Some? ==> t.Change? && t.stage == PreparingOld && outcome != Works)
  {
  }

  lemma OthersGoOn(p: Phone, t: Task, outcome: Outcome)
    ensures MoveOf(p, t, outcome).suspended ==> p.suspended
    ensures var m := MoveOf(p, t, outcome); m.next.Some? ==> GenerationOf(m.next.value) == GenerationOf(t)
  {
  }

  lemma ResumesKeeps(p: Phone, i: nat, outcome: Outcome)
    requires NotStuck(p) && i < |p.tasks|
    ensures NotStuck(Resume(p, i, outcome).phone)
  {
    var m, q := MoveOf(p, p.tasks[i], outcome), Resume(p, i, outcome).phone;
    OthersGoOn(p, p.tasks[i], outcome);
    if !q.ended && q.suspended && HasNewest(p) {
      var j :| 0 <= j < |p.tasks| && GenerationOf(p.tasks[j]) == p.streamGeneration;
      if j == i {
        NewestGoesOn(p, p.tasks[i], outcome);
        assert q.tasks[i] == m.next.value;
      } else {
        var k := if j < i then j else if m.next.Some? then j else j - 1;
        assert q.tasks[k] == p.tasks[j];
      }
    }
  }

  /**
   * Over every run of the phone, whatever orders come in whatever order, and whatever the camera and
   * the encoder make of them: while it is connected and has been told to stream, its video is
   * suspended only as long as the newest order is being worked on.
   */
  lemma {:induction false} NeverStuck(p: Phone, steps: seq<Step>)
    requires NotStuck(p) && Possible(p, steps)
    ensures NotStuck(After(p, steps))
    decreases steps
  {
    if steps == [] {
    } else {
      match steps[0] {
        case Takes(m) => TakesKeeps(p, m);
        case Resumes(i, outcome) => ResumesKeeps(p, i, outcome);
        case Quits =>
      }
      NeverStuck(Next(p, steps[0]), steps[1..]);
    }
  }

  /** With no task left, a phone that has been told to stream and is connected sends. */
  lemma DoneMeansSending(allows: bool, steps: seq<Step>, unit: PhoneMessage)
    requires Possible(NewPhone(allows), steps)
    requires var p := After(NewPhone(allows), steps); !p.ended && p.streamGeneration > 0 && p.tasks == []
    ensures SendVideo(After(NewPhone(allows), steps), unit, true) == [unit]
  {
    NeverStuck(NewPhone(allows), steps);
  }

  // ---- One order at a time

  /** All tasks are of different orders, oldest first. */
  predicate Ranked(p: Phone) {
    && (forall i :: 0 <= i < |p.tasks| ==> GenerationOf(p.tasks[i]) <= p.streamGeneration)
    && forall i, j :: 0 <= i < j < |p.tasks| ==> GenerationOf(p.tasks[i]) < GenerationOf(p.tasks[j])
  }

  lemma TakesKeepsRank(p: Phone, m: PcMessage)
    requires Ranked(p)
    ensures Ranked(Handle(p, m).phone)
    ensures var q := Handle(p, m).phone;
            q.tasks == p.tasks || (|q.tasks| == |p.tasks| + 1 && q.streamGeneration > p.streamGeneration)
  {
  }

  lemma ResumesKeepsRank(p: Phone, i: nat, outcome: Outcome)
    requires Ranked(p) && i < |p.tasks|
    ensures Ranked(Resume(p, i, outcome).phone)
  {
    var m, q := MoveOf(p, p.tasks[i], outcome), Resume(p, i, outcome).phone;
    OthersGoOn(p, p.tasks[i], outcome);
    var shift := if m.next.Some? then 0 else 1;
    forall j | 0 <= j < |q.tasks|
      ensures GenerationOf(q.tasks[j]) == GenerationOf(p.tasks[if j < i then j else j + shift])
    {
    }
  }

  lemma {:induction false} RunKeepsRank(p: Phone, steps: seq<Step>)
    requires Ranked(p) && Possible(p, steps)
    ensures Ranked(After(p, steps))
    decreases steps
  {
    if steps != [] {
      match steps[0] {
        case Takes(m) => TakesKeepsRank(p, m);
        case Resumes(i, outcome) => ResumesKeepsRank(p, i, outcome);
        case Quits =>
      }
      RunKeepsRank(Next(p, steps[0]), steps[1..]);
    }
  }

  /** In every run at most one task, the one queued last, is that of the newest order. */
  lemma OneNewestTask(allows: bool, steps: seq<Step>, i: nat)
    requires Possible(NewPhone(allows), steps)
    ensures var p := After(NewPhone(allows), steps);
            i < |p.tasks| && GenerationOf(p.tasks[i]) == p.streamGeneration ==> i == |p.tasks| - 1
  {
    RunKeepsRank(NewPhone(allows), steps);
    var p := After(NewPhone(allows), steps);
    if i < |p.tasks| - 1 {
      assert GenerationOf(p.tasks[i]) < GenerationOf(p.tasks[|p.tasks| - 1]);
    }
  }

  /** A start or a change that the phone follows supersedes whatever it was still at. */
  lemma NewOrderSupersedes(allows: bool, steps: seq<Step>, m: PcMessage, t: Task)
    requires Possible(NewPhone(allows), steps) && t in After(NewPhone(allows), steps).tasks
    requires var p := After(NewPhone(allows), steps); Handle(p, m).phone.tasks != p.tasks
    ensures var p := After(NewPhone(allows), steps);
            t in Handle(p, m).phone.tasks && GenerationOf(t) < Handle(p, m).phone.streamGeneration
  {
    RunKeepsRank(NewPhone(allows), steps);
    TakesKeepsRank(After(NewPhone(allows), steps), m);
  }
}
