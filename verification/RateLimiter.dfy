/**
 * The attempt policy: a sliding window of charges, with a cooldown per peer and a global one that
 * both erase history when they end.
 */
module RateLimiter {
  import opened Wrappers

  datatype Config = Config(maxPerSource: nat, maxGlobal: nat, failureWindow: nat, cooldown: nat)

  datatype Attempt = Attempt(id: nat, peer: string, started: int)

  const LAST_ID := 0xFFFF_FFFF_FFFF_FFFF

  datatype Policy = Policy(attempts: seq<Attempt>, peerBlockedUntil: map<string, int>,
                           globalBlockedUntil: Option<int>, nextId: nat)

  const NEW_POLICY := Policy([], map[], None, 1)

  // ---------------------------------------------------------------------------
  // What each operation does

  /** The attempts of other peers, in order. */
  function NotOf(attempts: seq<Attempt>, gone: set<string>): seq<Attempt> {
    if attempts == [] then []
    else
      var a := attempts[|attempts| - 1];
      NotOf(attempts[..|attempts| - 1], gone) + (if a.peer in gone then [] else [a])
  }

  /** The attempts started at the cutoff or later, in order. */
  function Since(attempts: seq<Attempt>, cutoff: int): seq<Attempt> {
    if attempts == [] then []
    else
      var a := attempts[|attempts| - 1];
      Since(attempts[..|attempts| - 1], cutoff) + (if a.started < cutoff then [] else [a])
  }

  function PeerAttempts(attempts: seq<Attempt>, peer: string): nat {
    if attempts == [] then 0
    else
      PeerAttempts(attempts[..|attempts| - 1], peer) + (if attempts[|attempts| - 1].peer == peer then 1 else 0)
  }

  function Over(p: Policy, now: int): set<string> {
    set peer | peer in p.peerBlockedUntil && p.peerBlockedUntil[peer] <= now
  }

  function Pruned(p: Policy, c: Config, now: int): Policy {
    if p.globalBlockedUntil.Some? && p.globalBlockedUntil.value <= now then NEW_POLICY.(nextId := p.nextId)
    else p.(attempts := Since(NotOf(p.attempts, Over(p, now)), now - c.failureWindow),
            peerBlockedUntil := p.peerBlockedUntil - Over(p, now))
  }

  predicate Configured(c: Config, peer: string) {
    peer != "" && c.maxPerSource != 0 && c.maxGlobal != 0
  }

  /** Whether a pruned policy lets a peer try. */
  predicate Open(p: Policy, c: Config, peer: string) {
    && p.globalBlockedUntil == None && peer !in p.peerBlockedUntil
    && |p.attempts| < c.maxGlobal && PeerAttempts(p.attempts, peer) < c.maxPerSource
  }

  function AfterQuery(p: Policy, c: Config, peer: string, now: int): Policy {
    if Configured(c, peer) then Pruned(p, c, now) else p
  }

  predicate Admits(p: Policy, c: Config, peer: string, now: int) {
    Configured(c, peer) && Open(Pruned(p, c, now), c, peer)
  }

  predicate Begins(p: Policy, c: Config, peer: string, now: int) {
    Admits(p, c, peer, now) && p.nextId != LAST_ID
  }

  function Charged(p: Policy, c: Config, peer: string, now: int): Policy {
    var attempts := p.attempts + [Attempt(p.nextId, peer, now)];
    Policy(attempts,
           if PeerAttempts(attempts, peer) >= c.maxPerSource
           then p.peerBlockedUntil[peer := now + c.cooldown] else p.peerBlockedUntil,
           if |attempts| >= c.maxGlobal then Some(now + c.cooldown) else p.globalBlockedUntil,
           p.nextId + 1)
  }

  function AfterBegin(p: Policy, c: Config, peer: string, now: int): Policy {
    var pruned := AfterQuery(p, c, peer, now);
    if Begins(p, c, peer, now) then Charged(pruned, c, peer, now) else pruned
  }

  /** Where the charge with this id is, or the length. */
  function Find(attempts: seq<Attempt>, id: nat): (i: nat)
    ensures i <= |attempts| && (i < |attempts| ==> attempts[i].id == id)
    ensures forall j :: 0 <= j < i ==> attempts[j].id != id
  {
    if attempts == [] || attempts[0].id == id then 0
    else
      var i := Find(attempts[1..], id);
      assert forall j :: 0 < j < i + 1 ==> attempts[j] == attempts[1..][j - 1];
      i + 1
  }

  function Refund(p: Policy, c: Config, i: nat): Policy
    requires i < |p.attempts|
  {
    var peer := p.attempts[i].peer;
    var attempts := p.attempts[..i] + p.attempts[i + 1..];
    p.(attempts := attempts,
       peerBlockedUntil := if PeerAttempts(attempts, peer) < c.maxPerSource
                           then p.peerBlockedUntil - {peer} else p.peerBlockedUntil,
       globalBlockedUntil := if |attempts| < c.maxGlobal then None else p.globalBlockedUntil)
  }

  function AfterFinish(p: Policy, c: Config, id: nat, succeeded: bool, now: int): Policy {
    var pruned := Pruned(p, c, now);
    var i := Find(pruned.attempts, id);
    if i == |pruned.attempts| || !succeeded then pruned else Refund(pruned, c, i)
  }

  // ---------------------------------------------------------------------------
  // The policy as the program has it

  class AttemptPolicy {
    const config: Config
    var attempts: seq<Attempt>
    var peerBlockedUntil: map<string, int>
    var globalBlockedUntil: Option<int>
    var nextAttemptId: nat

    ghost function Model(): Policy
      reads this
    {
      Policy(attempts, peerBlockedUntil, globalBlockedUntil, nextAttemptId)
    }

    constructor (c: Config)
      ensures Model() == NEW_POLICY && config == c
    {
      config, attempts, peerBlockedUntil, globalBlockedUntil, nextAttemptId := c, [], map[], None, 1;
    }

    method CountPeer(peer: string) returns (n: nat)
      ensures n == PeerAttempts(attempts, peer)
    {
      n := 0;
      for i := 0 to |attempts|
        invariant n == PeerAttempts(attempts[..i], peer)
      {
        assert attempts[..i + 1][..i] == attempts[..i];
        if attempts[i].peer == peer { n := n + 1; }
      }
      assert attempts[..|attempts|] == attempts;
    }

    method ErasePeer(peer: string)
      modifies this`attempts
      ensures attempts == NotOf(old(attempts), {peer})
    {
      var kept: seq<Attempt> := [];
      for i := 0 to |attempts|
        invariant attempts == old(attempts)
        invariant kept == NotOf(attempts[..i], {peer})
      {
        assert attempts[..i + 1][..i] == attempts[..i];
        if attempts[i].peer != peer { kept := kept + [attempts[i]]; }
      }
      assert attempts[..|attempts|] == attempts;
      attempts := kept;
    }

    method EraseBefore(cutoff: int)
      modifies this`attempts
      ensures attempts == Since(old(attempts), cutoff)
    {
      var kept: seq<Attempt> := [];
      for i := 0 to |attempts|
        invariant attempts == old(attempts)
        invariant kept == Since(attempts[..i], cutoff)
      {
        assert attempts[..i + 1][..i] == attempts[..i];
        if attempts[i].started >= cutoff { kept := kept + [attempts[i]]; }
      }
      assert attempts[..|attempts|] == attempts;
      attempts := kept;
    }

    method EndCooldown(peer: string)
      modifies this`attempts, this`peerBlockedUntil
      ensures attempts == NotOf(old(attempts), {peer})
      ensures peerBlockedUntil == old(peerBlockedUntil) - {peer}
    {
      ErasePeer(peer);
      peerBlockedUntil := peerBlockedUntil - {peer};
    }

    /** The peers' cooldowns that are over, in whatever order the table yields them. */
    method EndCooldowns(now: int)
      modifies this`attempts, this`peerBlockedUntil
      ensures attempts == NotOf(old(attempts), Over(old(Model()), now))
      ensures peerBlockedUntil == old(peerBlockedUntil) - Over(old(Model()), now)
    {
      ghost var was := old(Model());
      ghost var over := Over(was, now);
      ghost var done: set<string> := {};
      var left := peerBlockedUntil.Keys;
      NotOfNone(attempts);
      while left != {}
        invariant left !! done && done <= over <= left + done && left <= was.peerBlockedUntil.Keys
        invariant attempts == NotOf(was.attempts, done)
        invariant peerBlockedUntil == was.peerBlockedUntil - done
        decreases |left|
      {
        var peer :| peer in left;
        left := left - {peer};
        if peerBlockedUntil[peer] <= now {
          EndCooldown(peer);
          NotOfTwice(was.attempts, done, {peer});
          MinusTwice(was.peerBlockedUntil, done, {peer});
          done := done + {peer};
        }
      }
      assert done == over;
    }

    method Prune(now: int)
      modifies this`attempts, this`peerBlockedUntil, this`globalBlockedUntil
      ensures Model() == Pruned(old(Model()), config, now)
    {
      if globalBlockedUntil.Some? && globalBlockedUntil.value <= now {
        attempts := [];
        peerBlockedUntil := map[];
        globalBlockedUntil := None;
        return;
      }
      EndCooldowns(now);
      EraseBefore(now - config.failureWindow);
    }

    method Allowed(peer: string, now: int) returns (ok: bool)
      modifies this`attempts, this`peerBlockedUntil, this`globalBlockedUntil
      ensures ok == Admits(old(Model()), config, peer, now)
      ensures Model() == AfterQuery(old(Model()), config, peer, now)
    {
      if peer == "" || config.maxPerSource == 0 || config.maxGlobal == 0 { return false; }
      Prune(now);
      if globalBlockedUntil.Some? || peer in peerBlockedUntil { return false; }
      var n := CountPeer(peer);
      ok := |attempts| < config.maxGlobal && n < config.maxPerSource;
    }

    /** The new attempt's id, or None for RateLimited. */
    method BeginAttempt(peer: string, now: int) returns (id: Option<nat>)
      modifies this
      ensures Model() == AfterBegin(old(Model()), config, peer, now)
      ensures id == if Begins(old(Model()), config, peer, now) then Some(old(nextAttemptId)) else None
    {
      var ok := Allowed(peer, now);
      if !ok || nextAttemptId == LAST_ID { return None; }
      id := Some(nextAttemptId);
      nextAttemptId := nextAttemptId + 1;
      attempts := attempts + [Attempt(id.value, peer, now)];
      var n := CountPeer(peer);
      if n >= config.maxPerSource { peerBlockedUntil := peerBlockedUntil[peer := now + config.cooldown]; }
      if |attempts| >= config.maxGlobal { globalBlockedUntil := Some(now + config.cooldown); }
    }

    method FinishAttempt(id: nat, succeeded: bool, now: int)
      modifies this`attempts, this`peerBlockedUntil, this`globalBlockedUntil
      ensures Model() == AfterFinish(old(Model()), config, id, succeeded, now)
    {
      Prune(now);
      var i := Find(attempts, id);
      if i == |attempts| || !succeeded { return; }
      RefundAt(i);
    }

    /** Takes charge i back, with the cooldowns that it alone had started. */
    method RefundAt(i: nat)
      requires i < |attempts|
      modifies this`attempts, this`peerBlockedUntil, this`globalBlockedUntil
      ensures Model() == Refund(old(Model()), config, i)
    {
      var peer := attempts[i].peer;
      attempts := attempts[..i] + attempts[i + 1..];
      var n := CountPeer(peer);
      if n < config.maxPerSource { peerBlockedUntil := peerBlockedUntil - {peer}; }
      if |attempts| < config.maxGlobal { globalBlockedUntil := None; }
    }
  }

  lemma MinusTwice(table: map<string, int>, first: set<string>, next: set<string>)
    ensures (table - first) - next == table - (first + next)
  {
  }

  lemma {:induction false} NotOfNone(attempts: seq<Attempt>)
    ensures NotOf(attempts, {}) == attempts
  {
    if attempts != [] {
      NotOfNone(attempts[..|attempts| - 1]);
      assert attempts == attempts[..|attempts| - 1] + [attempts[|attempts| - 1]];
    }
  }

  lemma {:induction false} NotOfTwice(attempts: seq<Attempt>, first: set<string>, next: set<string>)
    ensures NotOf(NotOf(attempts, first), next) == NotOf(attempts, first + next)
  {
    if attempts != [] {
      var front, a := attempts[..|attempts| - 1], attempts[|attempts| - 1];
      NotOfTwice(front, first, next);
      if a.peer in first {
        assert NotOf(attempts, first) == NotOf(front, first);
      } else {
        var kept := NotOf(front, first) + [a];
        assert NotOf(attempts, first) == kept && kept[..|kept| - 1] == NotOf(front, first);
      }
    }
  }
}
