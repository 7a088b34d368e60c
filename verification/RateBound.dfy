/** The rate that the attempt policy enforces over whole runs, although it forgets. */
module RateBound {
  import opened RateLimiter
  import opened Wrappers

  /**
   * A policy in use, with what it does not keep: every attempt ever begun, and the ids of those
   * whose charge a success took back.
   */
  datatype Run = Run(policy: Policy, clock: int, begun: set<Attempt>, refunded: set<nat>)

  datatype Step =
    | Query(peer: string, now: int)
    | Begin(peer: string, now: int)
    | Finish(id: nat, succeeded: bool, now: int)

  function Start(clock: int): Run {
    Run(NEW_POLICY, clock, {}, {})
  }

  predicate Refunds(p: Policy, c: Config, id: nat, succeeded: bool, now: int) {
    succeeded && Find(Pruned(p, c, now).attempts, id) < |Pruned(p, c, now).attempts|
  }

  function Next(r: Run, c: Config, step: Step): Run {
    match step
    case Query(peer, now) => r.(policy := AfterQuery(r.policy, c, peer, now), clock := now)
    case Begin(peer, now) =>
      Run(AfterBegin(r.policy, c, peer, now), now,
          if Begins(r.policy, c, peer, now) then r.begun + {Attempt(r.policy.nextId, peer, now)} else r.begun,
          r.refunded)
    case Finish(id, succeeded, now) =>
      Run(AfterFinish(r.policy, c, id, succeeded, now), now, r.begun,
          if Refunds(r.policy, c, id, succeeded, now) then r.refunded + {id} else r.refunded)
  }

  /** The clock is steady: it never goes back. */
  predicate Possible(r: Run, c: Config, steps: seq<Step>)
    decreases steps
  {
    steps == [] || (r.clock <= steps[0].now && Possible(Next(r, c, steps[0]), c, steps[1..]))
  }

  function After(r: Run, c: Config, steps: seq<Step>): Run
    decreases steps
  {
    if steps == [] then r else After(Next(r, c, steps[0]), c, steps[1..])
  }

  /** How long an attempt is sure to be remembered: no longer than either window. */
  function Memory(c: Config): nat {
    if c.cooldown < c.failureWindow then c.cooldown else c.failureWindow
  }

  // ---------------------------------------------------------------------------
  // Filters

  lemma {:induction false} NotOfMembers(s: seq<Attempt>, gone: set<string>, a: Attempt)
    ensures a in NotOf(s, gone) <==> a in s && a.peer !in gone
  {
    if s != [] {
      NotOfMembers(s[..|s| - 1], gone, a);
      assert s == s[..|s| - 1] + [s[|s| - 1]];
    }
  }

  lemma {:induction false} SinceMembers(s: seq<Attempt>, cutoff: int, a: Attempt)
    ensures a in Since(s, cutoff) <==> a in s && a.started >= cutoff
  {
    if s != [] {
      SinceMembers(s[..|s| - 1], cutoff, a);
      assert s == s[..|s| - 1] + [s[|s| - 1]];
    }
  }

  lemma {:induction false} CountAppend(s: seq<Attempt>, a: Attempt, peer: string)
    ensures PeerAttempts(s + [a], peer) == PeerAttempts(s, peer) + (if a.peer == peer then 1 else 0)
  {
    assert (s + [a])[..|s|] == s;
  }

  lemma {:induction false} CountConcat(s: seq<Attempt>, t: seq<Attempt>, peer: string)
    ensures PeerAttempts(s + t, peer) == PeerAttempts(s, peer) + PeerAttempts(t, peer)
  {
    if t == [] {
      assert s + t == s;
    } else {
      CountConcat(s, t[..|t| - 1], peer);
      assert (s + t)[..|s + t| - 1] == s + t[..|t| - 1];
    }
  }

  lemma {:induction false} NotOfCounts(s: seq<Attempt>, gone: set<string>, peer: string)
    ensures |NotOf(s, gone)| <= |s| && PeerAttempts(NotOf(s, gone), peer) <= PeerAttempts(s, peer)
  {
    if s != [] {
      var front := NotOf(s[..|s| - 1], gone);
      NotOfCounts(s[..|s| - 1], gone, peer);
      CountAppend(front, s[|s| - 1], peer);
      assert front + [] == front;
    }
  }

  lemma {:induction false} SinceCounts(s: seq<Attempt>, cutoff: int, peer: string)
    ensures |Since(s, cutoff)| <= |s| && PeerAttempts(Since(s, cutoff), peer) <= PeerAttempts(s, peer)
  {
    if s != [] {
      var front := Since(s[..|s| - 1], cutoff);
      SinceCounts(s[..|s| - 1], cutoff, peer);
      CountAppend(front, s[|s| - 1], peer);
      assert front + [] == front;
    }
  }

  /** No more different attempts of a peer are listed than there are entries of it. */
  lemma {:induction false} DistinctAtMost(s: seq<Attempt>, peer: string)
    ensures |set a | a in s| <= |s|
    ensures |set a | a in s && a.peer == peer| <= PeerAttempts(s, peer)
  {
    if s != [] {
      var front, last := s[..|s| - 1], s[|s| - 1];
      DistinctAtMost(front, peer);
      assert s == front + [last];
      assert (set a | a in s) == (set a | a in front) + {last};
      if last.peer == peer {
        assert (set a | a in s && a.peer == peer) == (set a | a in front && a.peer == peer) + {last};
      } else {
        assert (set a | a in s && a.peer == peer) == (set a | a in front && a.peer == peer);
      }
    }
  }

  // ---------------------------------------------------------------------------
  // What every operation keeps

  predicate Bounded(p: Policy, c: Config) {
    && |p.attempts| <= c.maxGlobal
    && (forall a :: a in p.attempts ==> PeerAttempts(p.attempts, a.peer) <= c.maxPerSource)
  }

  /** Whoever is blocked tried last at least a cooldown before the block ends. */
  predicate BlocksOk(p: Policy, c: Config) {
    && (p.globalBlockedUntil.Some? ==>
          forall a :: a in p.attempts ==> a.started + c.cooldown <= p.globalBlockedUntil.value)
    && (forall a :: a in p.attempts && a.peer in p.peerBlockedUntil ==>
          a.started + c.cooldown <= p.peerBlockedUntil[a.peer])
  }

  /** Nothing recent that was not taken back has been forgotten. */
  predicate Remembers(p: Policy, c: Config, begun: set<Attempt>, refunded: set<nat>, now: int) {
    forall a :: a in begun && a.id !in refunded && now - a.started < Memory(c) ==> a in p.attempts
  }

  predicate RunOk(r: Run, c: Config) {
    && Bounded(r.policy, c) && BlocksOk(r.policy, c)
    && Remembers(r.policy, c, r.begun, r.refunded, r.clock)
    && (forall a :: a in r.policy.attempts ==> a in r.begun)
    && (forall a :: a in r.begun ==> a.id < r.policy.nextId && a.started <= r.clock)
  }

  lemma PrunedMembers(p: Policy, c: Config, now: int, a: Attempt)
    requires !(p.globalBlockedUntil.Some? && p.globalBlockedUntil.value <= now)
    ensures a in Pruned(p, c, now).attempts <==>
              a in p.attempts && a.peer !in Over(p, now) && a.started >= now - c.failureWindow
  {
    NotOfMembers(p.attempts, Over(p, now), a);
    SinceMembers(NotOf(p.attempts, Over(p, now)), now - c.failureWindow, a);
  }

  lemma PrunedCounts(p: Policy, c: Config, now: int, peer: string)
    ensures |Pruned(p, c, now).attempts| <= |p.attempts|
    ensures PeerAttempts(Pruned(p, c, now).attempts, peer) <= PeerAttempts(p.attempts, peer)
  {
    FilteredCounts(p.attempts, Over(p, now), now - c.failureWindow, peer);
  }

  lemma FilteredCounts(s: seq<Attempt>, gone: set<string>, cutoff: int, peer: string)
    ensures |Since(NotOf(s, gone), cutoff)| <= |s|
    ensures PeerAttempts(Since(NotOf(s, gone), cutoff), peer) <= PeerAttempts(s, peer)
  {
    NotOfCounts(s, gone, peer);
    SinceCounts(NotOf(s, gone), cutoff, peer);
  }

  /** Pruning forgets only what is old enough, whichever of the three rules forgets it. */
  lemma PruneKeeps(p: Policy, c: Config, begun: set<Attempt>, refunded: set<nat>, clock: int, now: int)
    requires Bounded(p, c) && BlocksOk(p, c) && Remembers(p, c, begun, refunded, clock) && clock <= now
    ensures Bounded(Pruned(p, c, now), c) && BlocksOk(Pruned(p, c, now), c)
    ensures Remembers(Pruned(p, c, now), c, begun, refunded, now)
    ensures forall a :: a in Pruned(p, c, now).attempts ==> a in p.attempts
  {
    var q := Pruned(p, c, now);
    if !(p.globalBlockedUntil.Some? && p.globalBlockedUntil.value <= now) {
      forall a ensures a in q.attempts <==>
          a in p.attempts && a.peer !in Over(p, now) && a.started >= now - c.failureWindow
      {
        PrunedMembers(p, c, now, a);
      }
      PrunedCounts(p, c, now, "");
      forall a | a in q.attempts ensures PeerAttempts(q.attempts, a.peer) <= c.maxPerSource {
        PrunedCounts(p, c, now, a.peer);
      }
    }
  }

  lemma ChargeKeeps(p: Policy, c: Config, begun: set<Attempt>, refunded: set<nat>, peer: string, now: int)
    requires Bounded(p, c) && BlocksOk(p, c) && Remembers(p, c, begun, refunded, now) && Open(p, c, peer)
    requires forall a :: a in p.attempts ==> a in begun && a.started <= now
    ensures var q := Charged(p, c, peer, now);
            && Bounded(q, c) && BlocksOk(q, c)
            && Remembers(q, c, begun + {Attempt(p.nextId, peer, now)}, refunded, now)
  {
    var a := Attempt(p.nextId, peer, now);
    var q := Charged(p, c, peer, now);
    forall b | b in q.attempts ensures PeerAttempts(q.attempts, b.peer) <= c.maxPerSource {
      CountAppend(p.attempts, a, b.peer);
    }
  }

  lemma WithoutCounts(s: seq<Attempt>, i: nat, peer: string)
    requires i < |s|
    ensures PeerAttempts(s[..i] + s[i + 1..], peer) <= PeerAttempts(s, peer)
  {
    assert s == (s[..i] + [s[i]]) + s[i + 1..];
    CountConcat(s[..i] + [s[i]], s[i + 1..], peer);
    CountConcat(s[..i], s[i + 1..], peer);
    CountAppend(s[..i], s[i], peer);
  }

  lemma WithoutMembers(s: seq<Attempt>, i: nat, a: Attempt)
    requires i < |s|
    ensures a in s[..i] + s[i + 1..] ==> a in s
    ensures a in s && a != s[i] ==> a in s[..i] + s[i + 1..]
  {
    assert s == s[..i] + [s[i]] + s[i + 1..];
  }

  lemma RefundKeeps(p: Policy, c: Config, begun: set<Attempt>, refunded: set<nat>, i: nat, now: int)
    requires Bounded(p, c) && BlocksOk(p, c) && Remembers(p, c, begun, refunded, now) && i < |p.attempts|
    ensures var q := Refund(p, c, i);
            && Bounded(q, c) && BlocksOk(q, c)
            && Remembers(q, c, begun, refunded + {p.attempts[i].id}, now)
            && forall a :: a in q.attempts ==> a in p.attempts
  {
    var q := Refund(p, c, i);
    forall a ensures a in q.attempts ==> a in p.attempts && PeerAttempts(q.attempts, a.peer) <= c.maxPerSource {
      WithoutMembers(p.attempts, i, a);
      WithoutCounts(p.attempts, i, a.peer);
    }
    forall a | a in begun && a.id !in refunded + {p.attempts[i].id} && now - a.started < Memory(c)
      ensures a in q.attempts
    {
      WithoutMembers(p.attempts, i, a);
    }
  }

  lemma BeginKeeps(r: Run, c: Config, peer: string, now: int)
    requires RunOk(r, c) && r.clock <= now
    ensures RunOk(Next(r, c, Begin(peer, now)), c)
  {
    PruneKeeps(r.policy, c, r.begun, r.refunded, r.clock, now);
    if Begins(r.policy, c, peer, now) {
      ChargeKeeps(Pruned(r.policy, c, now), c, r.begun, r.refunded, peer, now);
    }
  }

  lemma FinishKeeps(r: Run, c: Config, id: nat, succeeded: bool, now: int)
    requires RunOk(r, c) && r.clock <= now
    ensures RunOk(Next(r, c, Finish(id, succeeded, now)), c)
  {
    var p := Pruned(r.policy, c, now);
    PruneKeeps(r.policy, c, r.begun, r.refunded, r.clock, now);
    if Refunds(r.policy, c, id, succeeded, now) {
      RefundKeeps(p, c, r.begun, r.refunded, Find(p.attempts, id), now);
    }
  }

  lemma StepKeeps(r: Run, c: Config, step: Step)
    requires RunOk(r, c) && r.clock <= step.now
    ensures RunOk(Next(r, c, step), c)
  {
    match step
    case Query(peer, now) => PruneKeeps(r.policy, c, r.begun, r.refunded, r.clock, now);
    case Begin(peer, now) => BeginKeeps(r, c, peer, now);
    case Finish(id, succeeded, now) => FinishKeeps(r, c, id, succeeded, now);
  }

  lemma {:induction false} RunKeeps(r: Run, c: Config, steps: seq<Step>)
    requires RunOk(r, c) && Possible(r, c, steps)
    ensures RunOk(After(r, c, steps), c)
    decreases steps
  {
    if steps == [] {
    } else {
      StepKeeps(r, c, steps[0]);
      RunKeeps(Next(r, c, steps[0]), c, steps[1..]);
    }
  }

  // ---------------------------------------------------------------------------
  // The bound

  /** The attempts of the last `span` that no success has taken back. */
  function Recent(r: Run, span: nat): set<Attempt> {
    set a | a in r.begun && a.id !in r.refunded && r.clock - a.started < span
  }

  function RecentOf(r: Run, span: nat, peer: string): set<Attempt> {
    set a | a in r.begun && a.id !in r.refunded && r.clock - a.started < span && a.peer == peer
  }

  lemma SubsetAtMost(s: set<Attempt>, t: set<Attempt>)
    requires s <= t
    ensures |s| <= |t|
  {
    assert t == s + (t - s);
  }

  /**
   * Over any run under a steady clock, the attempts begun within the shorter of cooldown and
   * failure window and not taken back by a success are at most maxGlobal in all, and at most
   * maxPerSource from any peer, although three rules erase history.
   */
  lemma RateIsBounded(c: Config, clock: int, steps: seq<Step>, peer: string)
    requires Possible(Start(clock), c, steps)
    ensures |Recent(After(Start(clock), c, steps), Memory(c))| <= c.maxGlobal
    ensures |RecentOf(After(Start(clock), c, steps), Memory(c), peer)| <= c.maxPerSource
  {
    var r := After(Start(clock), c, steps);
    RunKeeps(Start(clock), c, steps);
    var attempts := r.policy.attempts;
    DistinctAtMost(attempts, peer);
    SubsetAtMost(Recent(r, Memory(c)), set a | a in attempts);
    var theirs := set a | a in attempts && a.peer == peer;
    SubsetAtMost(RecentOf(r, Memory(c), peer), theirs);
    if theirs != {} {
      var a :| a in theirs;
    }
  }

  /**
   * The span cannot be made longer: as soon as a global cooldown is over its history is gone, so a
   * limit of one attempt lets two begin within a failure window that is longer than the cooldown.
   */
  lemma NoLongerSpan(c: Config, peer: string)
    requires c.maxPerSource == c.maxGlobal == 1 && c.cooldown < c.failureWindow && peer != ""
    ensures LetsTwoBegin(Start(0), c, [Begin(peer, 0), Begin(peer, c.cooldown)], Memory(c) + 1)
  {
    TwoBegin(Start(0), c, peer, Begin(peer, 0), Begin(peer, c.cooldown));
  }

  /** A run at whose end two attempts are within the span although the limit is lower. */
  predicate LetsTwoBegin(r: Run, c: Config, steps: seq<Step>, span: nat) {
    Possible(r, c, steps) && |Recent(After(r, c, steps), span)| == 2 > c.maxGlobal
  }

  lemma TwoBegin(r: Run, c: Config, peer: string, first: Step, second: Step)
    requires r == Start(0) && c.maxPerSource == c.maxGlobal == 1 && c.cooldown < c.failureWindow && peer != ""
    requires first == Begin(peer, 0) && second == Begin(peer, c.cooldown)
    ensures LetsTwoBegin(r, c, [first, second], Memory(c) + 1)
  {
    var begun := FirstBegins(r, c, first);
    var again := SecondBegins(c, second, begun);
    TwoSteps(r, c, first, second, begun, again);
    BothAreRecent(again, first.peer, second.peer, c.cooldown, Memory(c) + 1);
  }

  lemma TwoSteps(r: Run, c: Config, first: Step, second: Step, begun: Run, again: Run)
    requires r.clock <= first.now <= second.now && begun.clock == first.now
    requires begun == Next(r, c, first) && again == Next(begun, c, second)
    ensures Possible(r, c, [first, second]) && After(r, c, [first, second]) == again
  {
    assert [first, second][1..] == [second] && [second][1..] == [];
    assert Possible(begun, c, [second]) && After(begun, c, [second]) == After(again, c, []);
  }

  lemma BothAreRecent(r: Run, peer: string, other: string, cooldown: nat, span: nat)
    requires r.begun == {Attempt(1, peer, 0)} + {Attempt(2, other, cooldown)}
    requires r.refunded == {} && r.clock == cooldown && span == cooldown + 1
    ensures |Recent(r, span)| == 2
  {
    assert Recent(r, span) == r.begun;
  }

  lemma FirstBegins(start: Run, c: Config, first: Step) returns (r: Run)
    requires start == Start(0) && c.maxPerSource == c.maxGlobal == 1
    requires first.Begin? && first.peer != "" && first.now == 0
    ensures r == Next(start, c, first) && r.clock == 0
    ensures r.begun == {Attempt(1, first.peer, 0)} && r.refunded == {}
    ensures r.policy.nextId == 2 && r.policy.globalBlockedUntil == Some(c.cooldown as int)
  {
    r := Next(start, c, first);
    CountAppend([], Attempt(1, first.peer, 0), first.peer);
  }

  /** The moment the global cooldown is over there is no history left to stop a second attempt. */
  lemma SecondBegins(c: Config, second: Step, first: Run) returns (r: Run)
    requires c.maxPerSource == c.maxGlobal == 1 && first.policy.nextId == 2
    requires second.Begin? && second.peer != "" && second.now == c.cooldown
    requires first.policy.globalBlockedUntil == Some(c.cooldown as int)
    ensures r == Next(first, c, second) && r.clock == c.cooldown && r.refunded == first.refunded
    ensures r.begun == first.begun + {Attempt(2, second.peer, c.cooldown)}
  {
    r := Next(first, c, second);
    assert Pruned(first.policy, c, c.cooldown) == NEW_POLICY.(nextId := 2);
  }

  // ---------------------------------------------------------------------------
  // A success undoes its attempt

  lemma NotOfAppend(s: seq<Attempt>, a: Attempt, gone: set<string>)
    requires a.peer !in gone
    ensures NotOf(s + [a], gone) == NotOf(s, gone) + [a]
  {
    assert (s + [a])[..|s|] == s;
  }

  lemma SinceAppend(s: seq<Attempt>, a: Attempt, cutoff: int)
    requires a.started >= cutoff
    ensures Since(s + [a], cutoff) == Since(s, cutoff) + [a]
  {
    assert (s + [a])[..|s|] == s;
  }

  lemma {:induction false} FindLast(s: seq<Attempt>, a: Attempt)
    requires forall b :: b in s ==> b.id != a.id
    ensures Find(s + [a], a.id) == |s|
  {
    if s != [] {
      assert (s + [a])[1..] == s[1..] + [a];
      FindLast(s[1..], a);
    }
  }

  lemma NothingElseEnds(open: Policy, c: Config, peer: string, now: int, t: int)
    requires Open(open, c, peer) && t < now + c.cooldown
    ensures Over(Charged(open, c, peer, now), t) == Over(open, t) && peer !in Over(open, t)
  {
  }

  lemma BlocksLater(blocked: map<string, int>, charged: map<string, int>, peer: string, until: int, gone: set<string>)
    requires peer !in blocked && (charged == blocked || charged == blocked[peer := until])
    ensures (charged - gone) - {peer} == blocked - gone
  {
  }

  /** What the charge of an attempt has become by the time it is finished. */
  lemma ChargeLater(open: Policy, c: Config, peer: string, now: int, t: int) returns (later: Policy)
    requires Open(open, c, peer) && now <= t < now + c.cooldown && t - c.failureWindow <= now
    ensures later == Pruned(Charged(open, c, peer, now), c, t)
    ensures later.attempts == Pruned(open, c, t).attempts + [Attempt(open.nextId, peer, now)]
    ensures later.peerBlockedUntil - {peer} == Pruned(open, c, t).peerBlockedUntil
    ensures later.nextId == open.nextId + 1
  {
    var a, q := Attempt(open.nextId, peer, now), Charged(open, c, peer, now);
    var gone := Over(open, t);
    later := Pruned(q, c, t);
    NothingElseEnds(open, c, peer, now, t);
    NotOfAppend(open.attempts, a, gone);
    SinceAppend(NotOf(open.attempts, gone), a, t - c.failureWindow);
    BlocksLater(open.peerBlockedUntil, q.peerBlockedUntil, peer, now + c.cooldown, gone);
  }

  lemma RefundLast(open: Policy, c: Config, later: Policy, front: seq<Attempt>, a: Attempt)
    requires later.attempts == front + [a] && (forall b :: b in front ==> b.id != a.id)
    requires PeerAttempts(front, a.peer) < c.maxPerSource && |front| < c.maxGlobal
    ensures Find(later.attempts, a.id) == |front|
    ensures Refund(later, c, |front|)
         == Policy(front, later.peerBlockedUntil - {a.peer}, None, later.nextId)
  {
    FindLast(front, a);
    assert later.attempts[..|front|] + later.attempts[|front| + 1..] == front;
  }

  lemma RefundUndoesCharge(p: Policy, c: Config, peer: string, now: int, t: int)
    requires Begins(p, c, peer, now) && forall a :: a in p.attempts ==> a.id < p.nextId
    requires now <= t < now + c.cooldown && t - c.failureWindow <= now
    ensures AfterFinish(AfterBegin(p, c, peer, now), c, p.nextId, true, t)
         == Pruned(Pruned(p, c, now), c, t).(nextId := p.nextId + 1)
  {
    var open := Pruned(p, c, now);
    var later := ChargeLater(open, c, peer, now, t);
    var front, a := Pruned(open, c, t).attempts, Attempt(p.nextId, peer, now);
    PrunedCounts(open, c, t, peer);
    forall b | b in front ensures b.id != a.id {
      PrunedMembers(open, c, t, b);
      PrunedMembers(p, c, now, b);
    }
    RefundLast(open, c, later, front, a);
  }

  /**
   * After any run: an attempt that succeeds before its cooldown is over, and within the window, leaves
   * no trace but its number. Its charge, and every cooldown that it alone started, is as if it had
   * never begun.
   */
  lemma SuccessUndoesAttempt(c: Config, clock: int, steps: seq<Step>, peer: string, now: int, t: int)
    requires Possible(Start(clock), c, steps) && Begins(After(Start(clock), c, steps).policy, c, peer, now)
    requires now <= t < now + c.cooldown && t - c.failureWindow <= now
    ensures var p := After(Start(clock), c, steps).policy;
            AfterFinish(AfterBegin(p, c, peer, now), c, p.nextId, true, t)
              == Pruned(Pruned(p, c, now), c, t).(nextId := p.nextId + 1)
  {
    RunKeeps(Start(clock), c, steps);
    RefundUndoesCharge(After(Start(clock), c, steps).policy, c, peer, now, t);
  }

  // ---------------------------------------------------------------------------
  // Blocks hold, and blocks end

  /** Without a name, or under a policy that allows nobody, nothing is tried and nothing is noted. */
  lemma NamelessIsRefused(p: Policy, c: Config, peer: string, now: int)
    requires peer == "" || c.maxPerSource == 0 || c.maxGlobal == 0
    ensures !Begins(p, c, peer, now) && AfterBegin(p, c, peer, now) == p && AfterQuery(p, c, peer, now) == p
  {
  }

  /** The attempt that reaches a peer's limit shuts the peer out until its cooldown is over. */
  lemma PeerIsShutOut(p: Policy, c: Config, peer: string, now: int, t: int)
    requires Begins(p, c, peer, now) && now <= t < now + c.cooldown
    requires PeerAttempts(Pruned(p, c, now).attempts, peer) + 1 >= c.maxPerSource
    ensures !Admits(AfterBegin(p, c, peer, now), c, peer, t)
  {
    CountAppend(Pruned(p, c, now).attempts, Attempt(p.nextId, peer, now), peer);
  }

  /** The one that reaches the limit for all shuts everybody out. */
  lemma AllAreShutOut(p: Policy, c: Config, peer: string, other: string, now: int, t: int)
    requires Begins(p, c, peer, now) && now <= t < now + c.cooldown
    requires |Pruned(p, c, now).attempts| + 1 >= c.maxGlobal
    ensures !Admits(AfterBegin(p, c, peer, now), c, other, t)
  {
  }

  /** No block lasts longer than a cooldown from now. */
  predicate BlocksEnd(p: Policy, c: Config, clock: int) {
    && (p.globalBlockedUntil.Some? ==> p.globalBlockedUntil.value <= clock + c.cooldown)
    && (forall peer :: peer in p.peerBlockedUntil ==> p.peerBlockedUntil[peer] <= clock + c.cooldown)
  }

  lemma PruneKeepsEnds(p: Policy, c: Config, clock: int, now: int)
    requires BlocksEnd(p, c, clock) && clock <= now
    ensures BlocksEnd(Pruned(p, c, now), c, now)
  {
  }

  lemma BeginKeepsEnds(p: Policy, c: Config, clock: int, peer: string, now: int)
    requires BlocksEnd(p, c, clock) && clock <= now
    ensures BlocksEnd(AfterQuery(p, c, peer, now), c, now) && BlocksEnd(AfterBegin(p, c, peer, now), c, now)
  {
    PruneKeepsEnds(p, c, clock, now);
  }

  lemma FinishKeepsEnds(p: Policy, c: Config, clock: int, id: nat, succeeded: bool, now: int)
    requires BlocksEnd(p, c, clock) && clock <= now
    ensures BlocksEnd(AfterFinish(p, c, id, succeeded, now), c, now)
  {
    PruneKeepsEnds(p, c, clock, now);
  }

  lemma StepKeepsEnds(r: Run, c: Config, step: Step)
    requires BlocksEnd(r.policy, c, r.clock) && r.clock <= step.now
    ensures BlocksEnd(Next(r, c, step).policy, c, step.now) && Next(r, c, step).clock == step.now
  {
    match step
    case Query(peer, now) => BeginKeepsEnds(r.policy, c, r.clock, peer, now);
    case Begin(peer, now) => BeginKeepsEnds(r.policy, c, r.clock, peer, now);
    case Finish(id, succeeded, now) => FinishKeepsEnds(r.policy, c, r.clock, id, succeeded, now);
  }

  lemma {:induction false} RunKeepsEnds(r: Run, c: Config, steps: seq<Step>)
    requires BlocksEnd(r.policy, c, r.clock) && Possible(r, c, steps)
    ensures BlocksEnd(After(r, c, steps).policy, c, After(r, c, steps).clock)
    decreases steps
  {
    if steps != [] {
      StepKeepsEnds(r, c, steps[0]);
      RunKeepsEnds(Next(r, c, steps[0]), c, steps[1..]);
    }
  }

  lemma {:induction false} NothingSince(s: seq<Attempt>, cutoff: int)
    requires forall a :: a in s ==> a.started < cutoff
    ensures Since(s, cutoff) == []
  {
    if s != [] {
      NothingSince(s[..|s| - 1], cutoff);
    }
  }

  lemma AllAreOver(p: Policy, c: Config, clock: int, t: int)
    requires BlocksEnd(p, c, clock) && t >= clock + c.cooldown
    ensures Over(p, t) == p.peerBlockedUntil.Keys
  {
  }

  lemma QuietLeavesNothing(p: Policy, c: Config, clock: int, t: int)
    requires BlocksEnd(p, c, clock) && forall a :: a in p.attempts ==> a.started <= clock
    requires t >= clock + c.cooldown && t > clock + c.failureWindow
    ensures Pruned(p, c, t) == NEW_POLICY.(nextId := p.nextId)
  {
    AllAreOver(p, c, clock, t);
    var left := NotOf(p.attempts, Over(p, t));
    forall a | a in left ensures a.started < t - c.failureWindow {
      NotOfMembers(p.attempts, Over(p, t), a);
    }
    NothingSince(left, t - c.failureWindow);
    assert p.peerBlockedUntil - p.peerBlockedUntil.Keys == map[];
  }

  /**
   * Nobody is shut out for ever: whatever has been tried and has failed, once nothing has happened for
   * a cooldown and for the window, every peer may try again.
   */
  lemma QuietOpensToAll(c: Config, clock: int, steps: seq<Step>, peer: string, t: int)
    requires Possible(Start(clock), c, steps) && peer != "" && c.maxPerSource > 0 && c.maxGlobal > 0
    requires var last := After(Start(clock), c, steps).clock; t >= last + c.cooldown && t > last + c.failureWindow
    ensures Admits(After(Start(clock), c, steps).policy, c, peer, t)
  {
    RunKeeps(Start(clock), c, steps);
    RunKeepsEnds(Start(clock), c, steps);
    var r := After(Start(clock), c, steps);
    QuietLeavesNothing(r.policy, c, r.clock, t);
  }
}
