/** What PC and phone get done together: the stream starts, and a change of format comes to its end. */
module ProtocolPromises {
  import opened Bytes
  import opened AnnexB
  import opened Session
  import opened Protocol
  import opened Wrappers
  import Backend
  import P = Phone
  import A = PhonePromises

  // ---------------------------------------------------------------------------
  // A streaming phone sends

  lemma {:induction false} StreamingStays(v: View, msgs: seq<P.PhoneMessage>)
    requires Replay(v, msgs).Some? && v.streaming
    ensures Replay(v, msgs).value.streaming
    decreases msgs
  {
    if msgs != [] {
      StreamingStays(Foresee(v, msgs[0]).value, msgs[1..]);
    }
  }

  /**
   * In every run: a connected phone that the PC streams from and that has no task left captures and
   * encodes in the configuration that the PC will have committed to, and what it encodes goes out.
   */
  lemma StreamingPhoneSends(s: System, unit: P.PhoneMessage)
    requires Reachable(s) && s.pc.session.phase == Streaming && !s.phone.ended && s.phone.tasks == []
    ensures var v := Replay(ViewOf(s.pc.session), s.toPc);
            v.Some? && s.phone.encoder == s.phone.current == Some(v.value.config)
    ensures P.SendVideo(s.phone, unit, true) == [unit]
  {
    ReachableIsOk(s);
    StreamingStays(ViewOf(s.pc.session), s.toPc);
  }

  // ---------------------------------------------------------------------------
  // Runs that come to their end

  lemma {:induction false} OneMore(s: System, steps: seq<Step>, t: System, step: Step)
    returns (more: seq<Step>, u: System)
    requires Possible(s, steps) && After(s, steps) == t && CanStep(t, step)
    ensures more == steps + [step] && u == Stepped(t, step) && Possible(s, more) && After(s, more) == u
    decreases steps
  {
    more, u := steps + [step], Stepped(t, step);
    if steps == [] {
      assert Possible(u, []) && more[1..] == [];
    } else {
      var rest, v := OneMore(Stepped(s, steps[0]), steps[1..], t, step);
      assert more[1..] == rest;
    }
  }

  /** A state of s's run, and the steps that lead to it. */
  predicate Leads(s: System, steps: seq<Step>, t: System) {
    Possible(s, steps) && After(s, steps) == t
  }

  lemma Extend(s: System, step: Step)
    requires Reachable(s) && CanStep(s, step)
    ensures Reachable(Stepped(s, step))
  {
    var initial, limits, attached, allows, steps :|
      ValidConfig(initial) && Possible(Opening(initial, limits, attached, allows), steps)
      && s == After(Opening(initial, limits, attached, allows), steps);
    var more, u := OneMore(Opening(initial, limits, attached, allows), steps, s, step);
  }

  lemma Take(s: System, steps: seq<Step>, t: System, step: Step) returns (more: seq<Step>, u: System)
    requires Leads(s, steps, t) && Reachable(t) && CanStep(t, step)
    ensures more == steps + [step] && u == Stepped(t, step) && Leads(s, more, u) && Reachable(u)
  {
    more, u := OneMore(s, steps, t, step);
    Extend(t, step);
  }

  /** Streaming, with nothing under way at either end or between them. */
  ghost predicate AtRest(s: System) {
    && Reachable(s) && s.toPc == [] && s.toPhone == [] && s.pc.rx == Backend.Waiting
    && s.pc.session.phase == Streaming && s.pc.session.pending == None && !s.phone.ended
  }

  /** What the two ends are like then. */
  lemma AtRestMeans(s: System)
    requires AtRest(s)
    ensures A.AtRest(s.phone) && A.Sends(s.phone, s.pc.session.config)
    ensures s.pc.session.trusted && !s.pc.session.resetting && s.pc.session.nextGeneration > 0
    ensures s.phone.lastFormatGeneration < s.pc.session.nextGeneration
  {
    ReachableIsOk(s);
    assert Orders([]) == [];
  }

  /** The request is on its way. */
  lemma Asks(s: System, config: StreamConfig) returns (steps: seq<Step>, t: System)
    requires AtRest(s) && ValidConfig(config)
    ensures steps == [PcAsks(config, true)] && Leads(s, steps, t) && Reachable(t)
    ensures var g := s.pc.session.nextGeneration;
            && t.toPhone == [P.SetFormat(config, g)] && t.toPc == [] && t.phone == s.phone
            && t.pc == s.pc.(session := ResetQueue(s.pc.session).(
                 nextGeneration := g + 1, pending := Some(config), pendingGeneration := g))
  {
    AtRestMeans(s);
    steps, t := Take(s, [], s, PcAsks(config, true));
    assert s.toPhone + [P.SetFormat(config, s.pc.session.nextGeneration)]
        == [P.SetFormat(config, s.pc.session.nextGeneration)];
  }

  /** The phone's only task has the actor once. */
  lemma Resumes(s: System, steps: seq<Step>, t: System, outcome: P.Outcome, sent: seq<P.PhoneMessage>, q: P.Phone)
    returns (more: seq<Step>, u: System)
    requires Leads(s, steps, t) && Reachable(t) && !t.phone.ended
    requires |t.phone.tasks| == 1 && P.Resume(t.phone, 0, outcome) == P.Result(q, sent)
    ensures more == steps + [PhoneResumes(0, outcome)] && Leads(s, more, u) && Reachable(u)
    ensures u == t.(phone := q, toPc := if t.toPc == [] then sent else t.toPc + sent)
  {
    more, u := Take(s, steps, t, PhoneResumes(0, outcome));
    assert [] + sent == sent;
  }

  /** The phone takes the only message there is for it. */
  lemma Hears(s: System, steps: seq<Step>, t: System, q: P.Phone) returns (more: seq<Step>, u: System)
    requires Leads(s, steps, t) && Reachable(t) && |t.toPhone| == 1
    requires P.Handle(t.phone, t.toPhone[0]) == P.Result(q, [])
    ensures more == steps + [PhoneTakes] && Leads(s, more, u) && Reachable(u)
    ensures u == t.(phone := q, toPhone := [])
  {
    more, u := Take(s, steps, t, PhoneTakes);
    assert t.toPhone[1..] == [] && t.toPc + [] == t.toPc;
  }

  lemma Two<T>(s: seq<T>, a: T, b: T)
    ensures s + [a] + [b] == s + [a, b]
  {
  }

  lemma Four<T>(s: seq<T>, a: T, b: T, c: T, d: T)
    ensures s + [a] + [b] + [c] + [d] == s + [a, b, c, d]
  {
  }

  function FollowsWell(any: P.Outcome): seq<Step> {
    [PhoneTakes, PhoneResumes(0, any), PhoneResumes(0, P.Works), PhoneResumes(0, P.Works)]
  }

  lemma PhoneChanges(s: System, steps: seq<Step>, t: System, config: StreamConfig, g: nat, any: P.Outcome)
    returns (more: seq<Step>, u: System)
    requires Leads(s, steps, t) && Reachable(t) && A.AtRest(t.phone) && t.phone.lastFormatGeneration < g
    requires t.toPhone == [P.SetFormat(config, g)] && t.toPc == [] && ValidConfig(config)
    ensures more == steps + FollowsWell(any) && Leads(s, more, u) && Reachable(u)
    ensures u.pc == t.pc && u.toPhone == [] && u.toPc == [P.Info, P.FormatAck(g)]
    ensures A.Sends(u.phone, config)
  {
    var q0, q1, q2, q := A.ChangeSucceeds(t.phone, config, g, any);
    more, u := Hears(s, steps, t, q0);
    more, u := Resumes(s, more, u, any, [], q1);
    more, u := Resumes(s, more, u, P.Works, [], q2);
    more, u := Resumes(s, more, u, P.Works, [P.Info, P.FormatAck(g)], q);
    Four(steps, PhoneTakes, PhoneResumes(0, any), PhoneResumes(0, P.Works), PhoneResumes(0, P.Works));
  }

  /** The PC takes what is no more than news. */
  lemma HearsNews(s: System, steps: seq<Step>, t: System) returns (more: seq<Step>, u: System)
    requires Leads(s, steps, t) && Reachable(t) && t.toPc != [] && t.toPc[0] == P.Info
    requires t.pc.rx == Backend.Waiting && Live(t.pc.session) && t.pc.session.trusted
    ensures more == steps + [PcTakes(false, false, false)] && Leads(s, more, u) && Reachable(u)
    ensures u == t.(toPc := t.toPc[1..])
  {
    more, u := Take(s, steps, t, PcTakes(false, false, false));
    assert t.toPhone + [] == t.toPhone;
  }

  const HEARS_REPLY := [PcTakes(false, false, false), PcTakes(false, false, false)]
  const TELLS_CONSUMER := [PcProceeds(true), PcProceeds(true)]

  lemma AckIsTaken(pc: Backend.Pc, config: StreamConfig, g: nat)
    requires pc.session.phase == Streaming && pc.session.trusted
    requires pc.session.pending == Some(config) && pc.session.pendingGeneration == g && !pc.session.resetting
    ensures Backend.Next(pc, EventFor(pc, P.FormatAck(g), false, false))
         == pc.(rx := Backend.Resetting(config, g, false), session :=
              ResetQueue(pc.session).(config := config, pending := None, pendingGeneration := 0,
                                      streamGeneration := g, resetting := true))
  {
  }

  lemma RejectIsTaken(pc: Backend.Pc, g: nat)
    requires pc.session.phase == Streaming && pc.session.trusted
    requires pc.session.pending.Some? && pc.session.pendingGeneration == g && !pc.session.resetting
    ensures Backend.Next(pc, EventFor(pc, P.FormatReject(g), false, false))
         == pc.(session := ResetQueue(pc.session).(pending := None, pendingGeneration := 0))
  {
  }

  /** A message other than hello changes nothing but the PC. */
  lemma PcTakesIs(s: System, steps: seq<Step>, t: System, m: P.PhoneMessage, pc: Backend.Pc)
    returns (more: seq<Step>, u: System)
    requires Leads(s, steps, t) && Reachable(t) && t.toPc == [m] && !m.SayHello?
    requires t.pc.rx == Backend.Waiting && t.pc.session.phase == Streaming
    requires pc == Backend.Next(t.pc, EventFor(t.pc, m, false, false))
    ensures more == steps + [PcTakes(false, false, false)] && Leads(s, more, u) && Reachable(u)
    ensures u == t.(toPc := [], pc := pc)
  {
    more, u := Take(s, steps, t, PcTakes(false, false, false));
    assert t.toPhone + [] == t.toPhone && t.toPc[1..] == [];
  }

  /** The PC commits to the format it asked for. */
  lemma HearsAck(s: System, steps: seq<Step>, t: System, config: StreamConfig, g: nat)
    returns (more: seq<Step>, u: System)
    requires Leads(s, steps, t) && Reachable(t) && t.toPc == [P.FormatAck(g)]
    requires t.pc.rx == Backend.Waiting && t.pc.session.phase == Streaming && t.pc.session.trusted
    requires t.pc.session.pending == Some(config) && t.pc.session.pendingGeneration == g && !t.pc.session.resetting
    ensures more == steps + [PcTakes(false, false, false)] && Leads(s, more, u) && Reachable(u)
    ensures u == t.(toPc := [], pc := t.pc.(rx := Backend.Resetting(config, g, false), session :=
              ResetQueue(t.pc.session).(config := config, pending := None, pendingGeneration := 0,
                                        streamGeneration := g, resetting := true)))
  {
    AckIsTaken(t.pc, config, g);
    more, u := PcTakesIs(s, steps, t, P.FormatAck(g), Backend.Next(t.pc, EventFor(t.pc, P.FormatAck(g), false, false)));
  }

  /** The consumer is told, and the reset ends. */
  lemma TellsConsumer(s: System, steps: seq<Step>, t: System, config: StreamConfig, g: nat)
    returns (more: seq<Step>, u: System)
    requires Leads(s, steps, t) && Reachable(t) && t.pc.rx == Backend.Resetting(config, g, false)
    ensures more == steps + TELLS_CONSUMER && Leads(s, more, u) && Reachable(u)
    ensures u == t.(pc := t.pc.(rx := Backend.Waiting, session := t.pc.session.(resetting := false),
                                calls := if t.pc.attached then t.pc.calls + [Backend.Reset(config, g)]
                                         else t.pc.calls))
  {
    more, u := Take(s, steps, t, PcProceeds(true));
    more, u := Take(s, more, u, PcProceeds(true));
    Two(steps, PcProceeds(true), PcProceeds(true));
  }

  lemma PcCommits(s: System, steps: seq<Step>, t: System, config: StreamConfig, g: nat)
    returns (more: seq<Step>, u: System)
    requires Leads(s, steps, t) && Reachable(t) && t.toPc == [P.Info, P.FormatAck(g)]
    requires t.pc.rx == Backend.Waiting && t.pc.session.phase == Streaming && t.pc.session.trusted
    requires t.pc.session.pending == Some(config) && t.pc.session.pendingGeneration == g && !t.pc.session.resetting
    ensures more == steps + HEARS_REPLY + TELLS_CONSUMER && Leads(s, more, u) && Reachable(u)
    ensures u.phone == t.phone && u.toPhone == t.toPhone && u.toPc == [] && u.pc.rx == Backend.Waiting
    ensures u.pc.session == ResetQueue(t.pc.session).(
              config := config, pending := None, pendingGeneration := 0, streamGeneration := g)
    ensures u.pc.attached == t.pc.attached
    ensures t.pc.attached ==> u.pc.calls == t.pc.calls + [Backend.Reset(config, g)]
  {
    more, u := HearsNews(s, steps, t);
    more, u := HearsAck(s, more, u, config, g);
    Two(steps, PcTakes(false, false, false), PcTakes(false, false, false));
    more, u := TellsConsumer(s, more, u, config, g);
  }

  /**
   * A change of format comes to its end: asked for from rest, followed by a phone whose camera and
   * encoder work, and heard by the PC, it leaves both ends at rest again in the new format, the
   * consumer told of it, and the phone's video going out.
   */
  lemma FormatChangeCompletes(s: System, config: StreamConfig, any: P.Outcome) returns (steps: seq<Step>, t: System)
    requires AtRest(s) && ValidConfig(config)
    ensures steps == [PcAsks(config, true)] + FollowsWell(any) + HEARS_REPLY + TELLS_CONSUMER
    ensures Leads(s, steps, t) && AtRest(t) && A.Sends(t.phone, config)
    ensures t.pc.session.config == config && t.pc.session.streamGeneration == s.pc.session.nextGeneration
    ensures t.pc.attached ==> t.pc.calls == s.pc.calls + [Backend.Reset(config, s.pc.session.nextGeneration)]
  {
    var g := s.pc.session.nextGeneration;
    AtRestMeans(s);
    steps, t := Asks(s, config);
    steps, t := PhoneChanges(s, steps, t, config, g, any);
    steps, t := PcCommits(s, steps, t, config, g);
  }

  // ---- The same when the new format cannot be had

  function FollowsBadly(encoderTakesIt: bool, any: P.Outcome): seq<Step> {
    if encoderTakesIt
    then [PhoneTakes, PhoneResumes(0, any), PhoneResumes(0, P.Works), PhoneResumes(0, P.FailsButOldWorks),
          PhoneResumes(0, P.Works)]
    else [PhoneTakes, PhoneResumes(0, any), PhoneResumes(0, P.FailsButOldWorks), PhoneResumes(0, P.Works)]
  }

  lemma Five<T>(s: seq<T>, a: T, b: T, c: T, d: T, e: T)
    ensures s + [a] + [b] + [c] + [d] + [e] == s + [a, b, c, d, e]
  {
  }

  lemma PhoneGoesBack(s: System, steps: seq<Step>, t: System, config: StreamConfig, g: nat, encoderTakesIt: bool,
                      any: P.Outcome)
    returns (more: seq<Step>, u: System)
    requires Leads(s, steps, t) && Reachable(t) && A.AtRest(t.phone) && t.phone.lastFormatGeneration < g
    requires t.phone.current.Some?
    requires t.toPhone == [P.SetFormat(config, g)] && t.toPc == [] && ValidConfig(config)
    ensures more == steps + FollowsBadly(encoderTakesIt, any) && Leads(s, more, u) && Reachable(u)
    ensures u.pc == t.pc && u.toPhone == [] && u.toPc == [P.Info, P.FormatReject(g)]
    ensures A.Sends(u.phone, t.phone.current.value)
  {
    var bad := P.FailsButOldWorks;
    var q0, q1, q2, q3, q := A.ChangeIsUndone(t.phone, t.phone.current.value, config, g, encoderTakesIt, any);
    more, u := Hears(s, steps, t, q0);
    more, u := Resumes(s, more, u, any, [], q1);
    if encoderTakesIt {
      more, u := Resumes(s, more, u, P.Works, [], q2);
      Five(steps, PhoneTakes, PhoneResumes(0, any), PhoneResumes(0, P.Works), PhoneResumes(0, bad),
           PhoneResumes(0, P.Works));
    } else {
      Four(steps, PhoneTakes, PhoneResumes(0, any), PhoneResumes(0, bad), PhoneResumes(0, P.Works));
    }
    more, u := Resumes(s, more, u, bad, [], q3);
    more, u := Resumes(s, more, u, P.Works, [P.Info, P.FormatReject(g)], q);
  }

  lemma HearsReject(s: System, steps: seq<Step>, t: System, g: nat) returns (more: seq<Step>, u: System)
    requires Leads(s, steps, t) && Reachable(t) && t.toPc == [P.FormatReject(g)]
    requires t.pc.rx == Backend.Waiting && t.pc.session.phase == Streaming && t.pc.session.trusted
    requires t.pc.session.pending.Some? && t.pc.session.pendingGeneration == g && !t.pc.session.resetting
    ensures more == steps + [PcTakes(false, false, false)] && Leads(s, more, u) && Reachable(u)
    ensures u == t.(toPc := [], pc := t.pc.(session :=
              ResetQueue(t.pc.session).(pending := None, pendingGeneration := 0)))
  {
    RejectIsTaken(t.pc, g);
    more, u := PcTakesIs(s, steps, t, P.FormatReject(g),
                         Backend.Next(t.pc, EventFor(t.pc, P.FormatReject(g), false, false)));
  }

  /**
   * When the phone cannot have the new format but still has the old one, both ends come to rest in
   * the old one, the consumer hears nothing, and the phone's video goes out again.
   */
  lemma FormatChangeIsUndone(s: System, config: StreamConfig, encoderTakesIt: bool, any: P.Outcome)
    returns (steps: seq<Step>, t: System)
    requires AtRest(s) && ValidConfig(config)
    ensures steps == [PcAsks(config, true)] + FollowsBadly(encoderTakesIt, any) + HEARS_REPLY
    ensures Leads(s, steps, t) && AtRest(t) && A.Sends(t.phone, s.pc.session.config)
    ensures t.pc.session.config == s.pc.session.config && t.pc.calls == s.pc.calls
    ensures t.pc.session.streamGeneration == s.pc.session.streamGeneration
  {
    var g := s.pc.session.nextGeneration;
    AtRestMeans(s);
    steps, t := Asks(s, config);
    ghost var before := steps + FollowsBadly(encoderTakesIt, any);
    steps, t := PhoneGoesBack(s, steps, t, config, g, encoderTakesIt, any);
    steps, t := HearsNews(s, steps, t);
    steps, t := HearsReject(s, steps, t, g);
    Two(before, PcTakes(false, false, false), PcTakes(false, false, false));
  }

  // ---- The stream starts

  /** The PC judges the hello of a phone that allows it, and its own setting allows it too. */
  lemma Greets(initial: StreamConfig, limits: Limits, attached: bool) returns (steps: seq<Step>, t: System)
    requires ValidConfig(initial)
    ensures steps == [PcTakes(true, true, false)] && Leads(Opening(initial, limits, attached, true), steps, t)
    ensures Reachable(t) && t.phone == P.NewPhone(true) && t.toPc == []
    ensures t.toPhone == [P.ServerInfo(true), P.PcMessage.Ready(initial)]
    ensures t.pc.rx == Backend.Waiting && t.pc.attached == attached && t.pc.calls == []
    ensures t.pc.session == Welcome(Connect(t.pc.session, initial, true), Hello("", true), true)
  {
    var s := Opening(initial, limits, attached, true);
    assert Possible(s, []) && After(s, []) == s;
    steps, t := Take(s, [], s, PcTakes(true, true, false));
    assert [] + [P.ServerInfo(true), P.PcMessage.Ready(initial)] == [P.ServerInfo(true), P.PcMessage.Ready(initial)];
  }

  lemma Three<T>(s: seq<T>, a: T, b: T, c: T)
    ensures s + [a] + [b] + [c] == s + [a, b, c]
  {
  }

  /** The phone hears that the PC allows it as well. */
  lemma Agrees(s: System, steps: seq<Step>, t: System, m: P.PcMessage) returns (more: seq<Step>, u: System)
    requires Leads(s, steps, t) && Reachable(t) && t.phone == P.NewPhone(true)
    requires t.toPhone == [P.ServerInfo(true), m]
    ensures more == steps + [PhoneTakes] && Leads(s, more, u) && Reachable(u)
    ensures u == t.(phone := P.NewPhone(true).(peerAllows := true, negotiated := true), toPhone := [m])
  {
    more, u := Take(s, steps, t, PhoneTakes);
    assert t.toPhone[1..] == [m] && t.toPc + [] == t.toPc;
  }

  function StartsWell(any: P.Outcome): seq<Step> {
    [PhoneTakes, PhoneResumes(0, P.Works), PhoneResumes(0, P.Works), PhoneResumes(0, any)]
  }

  const ANNOUNCEMENT := [P.Info, P.Info, P.StreamStart, P.Info, P.Info, P.Info]

  lemma AnnouncedInTwo()
    ensures [P.Info, P.Info] + [P.StreamStart, P.Info, P.Info, P.Info] == ANNOUNCEMENT
  {
  }

  lemma PhoneStarts(s: System, steps: seq<Step>, t: System, config: StreamConfig, any: P.Outcome)
    returns (more: seq<Step>, u: System)
    requires Leads(s, steps, t) && Reachable(t) && A.AtRest(t.phone) && ValidConfig(config)
    requires t.toPhone == [P.PcMessage.Ready(config)] && t.toPc == []
    ensures more == steps + StartsWell(any) && Leads(s, more, u) && Reachable(u)
    ensures u.pc == t.pc && u.toPhone == [] && u.toPc == ANNOUNCEMENT && A.Sends(u.phone, config)
  {
    var q0, q1, q2, q := A.StartSucceeds(t.phone, config, any);
    more, u := Hears(s, steps, t, q0);
    more, u := Resumes(s, more, u, P.Works, [], q1);
    more, u := Resumes(s, more, u, P.Works, [P.Info, P.Info], q2);
    more, u := Resumes(s, more, u, any, [P.StreamStart, P.Info, P.Info, P.Info], q);
    Four(steps, PhoneTakes, PhoneResumes(0, P.Works), PhoneResumes(0, P.Works), PhoneResumes(0, any));
    AnnouncedInTwo();
  }

  const HEARS_THREE := [PcTakes(false, false, false), PcTakes(false, false, false), PcTakes(false, false, false)]

  lemma HearsStart(s: System, steps: seq<Step>, t: System) returns (more: seq<Step>, u: System)
    requires Leads(s, steps, t) && Reachable(t) && t.toPc != [] && t.toPc[0] == P.StreamStart
    requires t.pc.rx == Backend.Waiting && MayStart(t.pc.session) && t.pc.session.trusted
    ensures more == steps + [PcTakes(false, false, false)] && Leads(s, more, u) && Reachable(u)
    ensures u == t.(toPc := t.toPc[1..], pc := t.pc.(session := StartStream(t.pc.session), rx :=
              Backend.Resetting(t.pc.session.config, t.pc.session.streamGeneration, false)))
  {
    more, u := Take(s, steps, t, PcTakes(false, false, false));
    assert t.toPhone + [] == t.toPhone;
  }

  lemma PcStarts(s: System, steps: seq<Step>, t: System) returns (more: seq<Step>, u: System)
    requires Leads(s, steps, t) && Reachable(t) && t.toPc == ANNOUNCEMENT
    requires t.pc.rx == Backend.Waiting && MayStart(t.pc.session) && t.pc.session.trusted
    ensures more == steps + HEARS_THREE && Leads(s, more, u) && Reachable(u)
    ensures u == t.(toPc := [P.Info, P.Info, P.Info], pc := t.pc.(session := StartStream(t.pc.session), rx :=
              Backend.Resetting(t.pc.session.config, t.pc.session.streamGeneration, false)))
  {
    more, u := HearsNews(s, steps, t);
    more, u := HearsNews(s, more, u);
    more, u := HearsStart(s, more, u);
    Three(steps, PcTakes(false, false, false), PcTakes(false, false, false), PcTakes(false, false, false));
    assert ANNOUNCEMENT[1..][1..][1..] == [P.Info, P.Info, P.Info];
  }

  lemma HearsRest(s: System, steps: seq<Step>, t: System) returns (more: seq<Step>, u: System)
    requires Leads(s, steps, t) && Reachable(t) && t.toPc == [P.Info, P.Info, P.Info]
    requires t.pc.rx == Backend.Waiting && Live(t.pc.session) && t.pc.session.trusted
    ensures more == steps + HEARS_THREE && Leads(s, more, u) && Reachable(u) && u == t.(toPc := [])
  {
    more, u := HearsNews(s, steps, t);
    more, u := HearsNews(s, more, u);
    more, u := HearsNews(s, more, u);
    Three(steps, PcTakes(false, false, false), PcTakes(false, false, false), PcTakes(false, false, false));
    assert [P.Info, P.Info, P.Info][1..][1..][1..] == [];
  }

  /**
   * Where both settings allow it, the stream starts: from the connection on, with a phone whose
   * camera and encoder work, both ends come to rest in the configuration that the PC began with, the
   * consumer told of it, and the phone's video going out.
   */
  lemma StreamStarts(initial: StreamConfig, limits: Limits, attached: bool, any: P.Outcome)
    returns (steps: seq<Step>, t: System)
    requires ValidConfig(initial)
    ensures steps == [PcTakes(true, true, false)] + [PhoneTakes] + StartsWell(any) + HEARS_THREE + TELLS_CONSUMER
                     + HEARS_THREE
    ensures Leads(Opening(initial, limits, attached, true), steps, t) && AtRest(t) && A.Sends(t.phone, initial)
    ensures t.pc.session.config == initial && t.pc.session.streamGeneration == 0
    ensures t.pc.calls == if attached then [Backend.Reset(initial, 0)] else []
  {
    var s := Opening(initial, limits, attached, true);
    steps, t := Greets(initial, limits, attached);
    steps, t := Agrees(s, steps, t, P.PcMessage.Ready(initial));
    steps, t := PhoneStarts(s, steps, t, initial, any);
    steps, t := PcStarts(s, steps, t);
    steps, t := TellsConsumer(s, steps, t, initial, 0);
    steps, t := HearsRest(s, steps, t);
  }

  // ---------------------------------------------------------------------------
  // A unit at the PC is a frame that the phone encoded

  /** The unit says what the phone's encoder said in this step. */
  predicate Encodes(step: Step, u: Unit) {
    && step.PhoneEncodes? && u.bytes == step.payload && u.keyframe == step.keyframe
    && u.ptsMicros == step.pts && u.origin.source == step.source
  }

  /** One of these steps did. */
  predicate WasEncoded(steps: seq<Step>, u: Unit) {
    exists i :: 0 <= i < |steps| && Encodes(steps[i], u)
  }

  ghost function EncodedIn(steps: seq<Step>): iset<Unit> {
    iset u: Unit | WasEncoded(steps, u)
  }

  ghost predicate VideoFrom(m: P.PhoneMessage, good: iset<Unit>) {
    m.Video? ==> forall u: Unit ::
      u.bytes == m.payload && u.keyframe == m.keyframe && u.ptsMicros == m.ptsMicros && u.origin.source == m.source
      ==> u in good
  }

  ghost predicate Holds(s: System, good: iset<Unit>) {
    Backend.SessionHolds(s.pc, good) && forall m :: m in s.toPc ==> VideoFrom(m, good)
  }

  ghost predicate MayEncode(step: Step, good: iset<Unit>) {
    forall u: Unit :: Encodes(step, u) ==> u in good
  }

  lemma TakesHolds(s: System, standing: bool, reported: bool, acceptable: bool, good: iset<Unit>)
    requires Holds(s, good) && s.toPc != [] && s.pc.rx == Backend.Waiting
    ensures Holds(Stepped(s, PcTakes(standing, reported, acceptable)), good)
  {
    var m := s.toPc[0];
    assert m in s.toPc;
    Backend.StepHolds(s.pc, EventFor(s.pc, m, standing, acceptable), good);
  }

  lemma AsksHolds(s: System, config: StreamConfig, delivered: bool, good: iset<Unit>)
    requires Holds(s, good)
    ensures Holds(Stepped(s, PcAsks(config, delivered)), good)
  {
  }

  /** What the phone says when it hears or has done something is no video. */
  lemma AnswersHold(p: P.Phone, m: P.PcMessage, good: iset<Unit>)
    ensures forall sent :: sent in P.Handle(p, m).sent ==> VideoFrom(sent, good)
  {
  }

  lemma ReportsHold(p: P.Phone, t: P.Task, outcome: P.Outcome, good: iset<Unit>)
    ensures forall sent :: sent in P.MoveOf(p, t, outcome).sent ==> VideoFrom(sent, good)
  {
  }

  lemma StepHolds(s: System, step: Step, good: iset<Unit>)
    requires CanStep(s, step) && Holds(s, good) && MayEncode(step, good)
    ensures Holds(Stepped(s, step), good)
  {
    match step
    case PcTakes(standing, reported, acceptable) => TakesHolds(s, standing, reported, acceptable, good);
    case PcProceeds(answer) => Backend.ProceedHolds(s.pc, answer, good);
    case PcAsks(config, delivered) => AsksHolds(s, config, delivered, good);
    case PhoneTakes => AnswersHold(s.phone, s.toPhone[0], good);
    case PhoneResumes(i, outcome) => ReportsHold(s.phone, s.phone.tasks[i], outcome, good);
    case PhoneEncodes(payload, keyframe, pts, source, room) => EncodesHolds(s, step, good);
    case _ =>
  }

  lemma EncodesHolds(s: System, step: Step, good: iset<Unit>)
    requires step.PhoneEncodes? && CanStep(s, step) && Holds(s, good) && MayEncode(step, good)
    ensures Holds(Stepped(s, step), good)
  {
    var unit := P.Video(step.payload, step.keyframe, step.pts, step.source);
    forall u: Unit | u.bytes == unit.payload && u.keyframe == unit.keyframe && u.ptsMicros == unit.ptsMicros
                     && u.origin.source == unit.source
      ensures u in good
    {
      assert Encodes(step, u);
    }
    assert VideoFrom(unit, good);
  }

  lemma {:induction false} RunHolds(s: System, steps: seq<Step>, good: iset<Unit>)
    requires Possible(s, steps) && Holds(s, good) && forall i :: 0 <= i < |steps| ==> MayEncode(steps[i], good)
    ensures Holds(After(s, steps), good)
    decreases steps
  {
    if steps != [] {
      StepHolds(s, steps[0], good);
      RunHolds(Stepped(s, steps[0]), steps[1..], good);
    }
  }

  /**
   * Over any run of both ends, every unit in the PC's queue and every unit its consumer was given is
   * one that the phone's encoder delivered: the same bytes, keyframe flag and time stamp, encoded
   * under the configuration that the unit's origin names.
   */
  lemma UnitsWereEncoded(initial: StreamConfig, limits: Limits, attached: bool, allows: bool, steps: seq<Step>)
    requires Possible(Opening(initial, limits, attached, allows), steps)
    ensures var pc := After(Opening(initial, limits, attached, allows), steps).pc;
            && (forall q :: q in pc.session.queue ==> WasEncoded(steps, q.unit))
            && (forall c :: c in pc.calls && c.Consume? ==> WasEncoded(steps, c.unit))
  {
    var good := EncodedIn(steps);
    forall i | 0 <= i < |steps| ensures MayEncode(steps[i], good) {
    }
    RunHolds(Opening(initial, limits, attached, allows), steps, good);
  }
}
