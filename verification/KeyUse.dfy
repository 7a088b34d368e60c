/** Which key seals what, over a whole session of two ends: no key meets the same nonce twice. */
module KeyUse {
  import opened Bytes
  import opened Envelope
  import opened Protector
  import Delivery

  // ---------------------------------------------------------------------------
  // The keys of each channel

  /**
   * The client sends under the keys from A to B and the server under those from B to A, video under
   * the video keys, statistics under the statistics keys whether they are encrypted or only
   * authenticated, control under the control keys; each receives under what the other sends under.
   */
  lemma KeysByChannel(p: SessionProtector, role: Role, keys: SessionKeys)
    requires p.Holds(role, keys)
    ensures p.MediaKeys(1, true) == if role == Client then keys.videoAtoB else keys.videoBtoA
    ensures p.MediaKeys(1, false) == if role == Client then keys.videoBtoA else keys.videoAtoB
    ensures p.MediaKeys(3, true) == if role == Client then keys.statsAtoB else keys.statsBtoA
    ensures p.MediaKeys(3, false) == if role == Client then keys.statsBtoA else keys.statsAtoB
    ensures p.AuthenticatedKeys(0, true) == if role == Client then keys.controlAtoB else keys.controlBtoA
    ensures p.AuthenticatedKeys(0, false) == if role == Client then keys.controlBtoA else keys.controlAtoB
    ensures p.AuthenticatedKeys(3, true) == if role == Client then keys.statsAtoB else keys.statsBtoA
    ensures p.AuthenticatedKeys(3, false) == if role == Client then keys.statsBtoA else keys.statsAtoB
  {
  }

  // ---------------------------------------------------------------------------
  // Both ends of a session

  datatype Pair = Pair(client: SessionProtector, server: SessionProtector)

  function EndOf(pair: Pair, role: Role): SessionProtector {
    if role == Client then pair.client else pair.server
  }

  /** The ends were made from the same session keys, whose nonce prefixes are of one length. */
  ghost predicate Paired(pair: Pair, keys: SessionKeys) {
    && pair.client.Holds(Client, keys) && pair.server.Holds(Server, keys)
    && pair.client.Valid() && pair.server.Valid()
    && |keys.videoAtoB.noncePrefix| == |keys.videoBtoA.noncePrefix|
    && |keys.statsAtoB.noncePrefix| == |keys.statsBtoA.noncePrefix| == |keys.videoAtoB.noncePrefix|
  }

  /** Video and statistics have keys of their own in both directions. */
  predicate Separate(keys: SessionKeys) {
    && keys.videoAtoB != keys.videoBtoA && keys.statsAtoB != keys.statsBtoA
    && keys.videoAtoB != keys.statsAtoB && keys.videoAtoB != keys.statsBtoA
    && keys.videoBtoA != keys.statsAtoB && keys.videoBtoA != keys.statsBtoA
  }

  /** One record sealed: who sealed it, as which number of which channel, under what. */
  datatype Seal = Seal(role: Role, channel: Byte, sequence: nat, key: Key, nonce: seq<Byte>, payload: seq<Byte>)

  /** The media counters of both ends, as protectMedia has them; `seals` lists what has been sealed and is not in the program. */
  datatype State = State(client: seq<Counter>, server: seq<Counter>, seals: seq<Seal>)

  /** protectMedia at one of the ends, for any channel and any record. */
  datatype Step = Send(role: Role, channel: Byte, flags: Byte, pts: nat, plain: seq<Byte>, expired: bool)

  predicate Sized(s: State) {
    |s.client| == 0x100 && |s.server| == 0x100
  }

  function CounterOf(s: State, role: Role, channel: Byte): Counter
    requires Sized(s)
  {
    if role == Client then s.client[channel] else s.server[channel]
  }

  function Start(): State {
    State(seq(0x100, _ => NEW_COUNTER), seq(0x100, _ => NEW_COUNTER), [])
  }

  function Sent(pair: Pair, s: State, step: Step): Result<Protected>
    requires Sized(s)
  {
    var p := EndOf(pair, step.role);
    ProtectMedia(p.prim, p.MediaKeys(step.channel, true), CounterOf(s, step.role, step.channel), step.channel,
                 step.flags, step.pts, step.plain, step.expired)
  }

  function SealOf(pair: Pair, step: Step, sequence: nat, payload: seq<Byte>): Seal {
    var keys := EndOf(pair, step.role).MediaKeys(step.channel, true);
    Seal(step.role, step.channel, sequence, keys.key, MediaNonce(keys.noncePrefix, sequence), payload)
  }

  function Next(pair: Pair, s: State, step: Step): (t: State)
    requires Sized(s)
    ensures Sized(t)
  {
    match Sent(pair, s, step)
    case Err(_) => s
    case Ok(protected) =>
      var c := CounterOf(s, step.role, step.channel);
      var seals := s.seals + [SealOf(pair, step, c.next, protected.payload)];
      if step.role == Client then State(s.client[step.channel := Advance(c)], s.server, seals)
      else State(s.client, s.server[step.channel := Advance(c)], seals)
  }

  function After(pair: Pair, s: State, steps: seq<Step>): (t: State)
    requires Sized(s)
    ensures Sized(t)
    decreases steps
  {
    if steps == [] then s else After(pair, Next(pair, s, steps[0]), steps[1..])
  }

  // ---- What every send keeps

  predicate CounterOk(c: Counter) {
    c.next < MAXIMUM_RECORDS && (c.exhausted ==> c.next == MAXIMUM_RECORDS - 1)
  }

  /** The counter has given this number out. */
  predicate GivenOut(c: Counter, sequence: nat) {
    if c.exhausted then sequence < MAXIMUM_RECORDS else sequence < c.next
  }

  ghost predicate SealOk(pair: Pair, s: State, e: Seal)
    requires Sized(s)
  {
    && SealedUnder(EndOf(pair, e.role).prim, e)
    && (e.channel == 1 || e.channel == 3) && e.sequence < MAXIMUM_RECORDS
    && GivenOut(CounterOf(s, e.role, e.channel), e.sequence)
    && var keys := EndOf(pair, e.role).MediaKeys(e.channel, true);
       e.key == keys.key && e.nonce == MediaNonce(keys.noncePrefix, e.sequence)
  }

  /** The record's bytes on the wire are its number and what this key made under this nonce. */
  ghost predicate SealedUnder(prim: Primitives, e: Seal) {
    exists aad, plain :: Sealing(prim, e, aad, plain)
  }

  predicate Sealing(prim: Primitives, e: Seal, aad: seq<Byte>, plain: seq<Byte>) {
    var s := prim.seal(e.key, e.nonce, aad, plain);
    e.payload == BigEndian(e.sequence, 8) + s.ciphertext + s.tag
  }

  /** The seal differs in its channel, its direction or its number. */
  predicate Apart(e: Seal, f: Seal) {
    e.role != f.role || e.channel != f.channel || e.sequence != f.sequence
  }

  ghost predicate StateOk(pair: Pair, s: State) {
    && Sized(s) && (forall role, channel: Byte :: CounterOk(CounterOf(s, role, channel)))
    && (forall i :: 0 <= i < |s.seals| ==> SealOk(pair, s, s.seals[i]))
    && (forall i, j :: 0 <= i < j < |s.seals| ==> Apart(s.seals[i], s.seals[j]))
  }

  lemma AdvanceGivesOut(c: Counter, sequence: nat)
    requires CounterOk(c) && !c.exhausted
    ensures CounterOk(Advance(c)) && GivenOut(Advance(c), c.next) && !GivenOut(c, c.next)
    ensures GivenOut(c, sequence) ==> GivenOut(Advance(c), sequence)
  {
  }

  lemma CountersAfter(pair: Pair, s: State, step: Step, role: Role, channel: Byte)
    requires Sized(s) && Sent(pair, s, step).Ok?
    ensures CounterOf(Next(pair, s, step), role, channel)
         == if role == step.role && channel == step.channel then Advance(CounterOf(s, role, channel))
            else CounterOf(s, role, channel)
  {
  }

  lemma SentIsSealed(pair: Pair, s: State, step: Step)
    requires Sized(s) && Sent(pair, s, step).Ok?
    ensures var c := CounterOf(s, step.role, step.channel);
            SealedUnder(EndOf(pair, step.role).prim, SealOf(pair, step, c.next, Sent(pair, s, step).value.payload))
  {
    var c := CounterOf(s, step.role, step.channel);
    var e := SealOf(pair, step, c.next, Sent(pair, s, step).value.payload);
    var size := SEQUENCE_BYTES + |step.plain| + MEDIA_TAG_BYTES;
    var aad := AuthData(size, step.channel, WithFlag(step.flags), step.pts, c.next, MEDIA_DOMAIN);
    assert Sealing(EndOf(pair, step.role).prim, e, aad, step.plain);
  }

  lemma SendKeeps(pair: Pair, s: State, step: Step)
    requires StateOk(pair, s)
    ensures StateOk(pair, Next(pair, s, step))
  {
    if Sent(pair, s, step).Ok? {
      var t, c := Next(pair, s, step), CounterOf(s, step.role, step.channel);
      SentIsSealed(pair, s, step);
      forall role, channel: Byte ensures CounterOk(CounterOf(t, role, channel)) {
        CountersAfter(pair, s, step, role, channel);
        AdvanceGivesOut(c, 0);
      }
      forall i | 0 <= i < |t.seals| ensures SealOk(pair, t, t.seals[i]) {
        CountersAfter(pair, s, step, t.seals[i].role, t.seals[i].channel);
        AdvanceGivesOut(c, t.seals[i].sequence);
        if i < |s.seals| {
          assert SealOk(pair, s, s.seals[i]);
        }
      }
      forall i | 0 <= i < |s.seals| ensures Apart(s.seals[i], t.seals[|s.seals|]) {
        assert SealOk(pair, s, s.seals[i]);
        AdvanceGivesOut(c, 0);
      }
    }
  }

  lemma {:induction false} RunKeeps(pair: Pair, s: State, steps: seq<Step>)
    requires StateOk(pair, s)
    ensures StateOk(pair, After(pair, s, steps))
    decreases steps
  {
    if steps != [] {
      SendKeeps(pair, s, steps[0]);
      RunKeeps(pair, Next(pair, s, steps[0]), steps[1..]);
    }
  }

  /** With keys of their own, seals apart never share key and nonce. */
  lemma ApartMeansFresh(pair: Pair, keys: SessionKeys, s: State, e: Seal, f: Seal)
    requires Paired(pair, keys) && Separate(keys) && Sized(s)
    requires SealOk(pair, s, e) && SealOk(pair, s, f) && Apart(e, f)
    ensures e.key != f.key || e.nonce != f.nonce
  {
    var a, b := EndOf(pair, e.role).MediaKeys(e.channel, true), EndOf(pair, f.role).MediaKeys(f.channel, true);
    KeysByChannel(pair.client, Client, keys);
    KeysByChannel(pair.server, Server, keys);
    if e.nonce == f.nonce {
      SameNonce(a.noncePrefix, e.sequence, b.noncePrefix, f.sequence);
    }
  }

  lemma SameNonce(a: seq<Byte>, i: nat, b: seq<Byte>, j: nat)
    requires |a| == |b| && i < MAXIMUM_RECORDS && j < MAXIMUM_RECORDS && MediaNonce(a, i) == MediaNonce(b, j)
    ensures a == b && i == j
  {
    assert a == MediaNonce(a, i)[..|a|] && b == MediaNonce(b, j)[..|b|];
    if i != j {
      Delivery.NoncesDiffer(a, i, j);
    }
  }

  /** Two records of the run were sealed under one key and one nonce. */
  ghost predicate Recurs(pair: Pair, steps: seq<Step>) {
    var seals := After(pair, Start(), steps).seals;
    exists i, j :: 0 <= i < j < |seals| && seals[i].key == seals[j].key && seals[i].nonce == seals[j].nonce
  }

  /** What a run has listed is what went out: each record under the key and the nonce listed for it. */
  lemma SealsAreListed(pair: Pair, steps: seq<Step>, i: nat)
    requires i < |After(pair, Start(), steps).seals|
    ensures var e := After(pair, Start(), steps).seals[i]; SealedUnder(EndOf(pair, e.role).prim, e)
  {
    RunKeeps(pair, Start(), steps);
    assert SealOk(pair, After(pair, Start(), steps), After(pair, Start(), steps).seals[i]);
  }

  /**
   * Over every run of sends, on whatever channels, at either end: when video and statistics have keys
   * of their own in both directions, no key ever seals two records under the same nonce.
   */
  lemma NoPairRecurs(pair: Pair, keys: SessionKeys, steps: seq<Step>)
    requires Paired(pair, keys) && Separate(keys)
    ensures !Recurs(pair, steps)
  {
    RunKeeps(pair, Start(), steps);
    var t := After(pair, Start(), steps);
    forall i, j | 0 <= i < j < |t.seals|
      ensures t.seals[i].key != t.seals[j].key || t.seals[i].nonce != t.seals[j].nonce
    {
      ApartMeansFresh(pair, keys, t, t.seals[i], t.seals[j]);
    }
  }

  // ---- And only then

  function Empty(role: Role, channel: Byte): Step {
    Send(role, channel, 0, 0, [], false)
  }

  lemma FirstOfItsLine(pair: Pair, s: State, role: Role, channel: Byte)
    requires Sized(s) && (channel == 1 || channel == 3) && CounterOf(s, role, channel) == NEW_COUNTER
    ensures Sent(pair, s, Empty(role, channel)).Ok?
    ensures var seals := Next(pair, s, Empty(role, channel)).seals;
            && |seals| == |s.seals| + 1 && seals[..|s.seals|] == s.seals
            && var keys := EndOf(pair, role).MediaKeys(channel, true);
               seals[|s.seals|].key == keys.key && seals[|s.seals|].nonce == MediaNonce(keys.noncePrefix, 0)
  {
  }

  /** Two lines that share their keys seal their first records alike. */
  lemma SharedKeysRecur(pair: Pair, role: Role, channel: Byte, role': Role, channel': Byte)
    requires (channel == 1 || channel == 3) && (channel' == 1 || channel' == 3)
    requires role != role' || channel != channel'
    requires EndOf(pair, role).MediaKeys(channel, true) == EndOf(pair, role').MediaKeys(channel', true)
    ensures Recurs(pair, [Empty(role, channel), Empty(role', channel')])
  {
    var first, second := Empty(role, channel), Empty(role', channel');
    FirstOfItsLine(pair, Start(), role, channel);
    var s := Next(pair, Start(), first);
    CountersAfter(pair, Start(), first, role', channel');
    FirstOfItsLine(pair, s, role', channel');
    var t := Next(pair, s, second);
    assert [first, second][1..] == [second] && [second][1..] == [];
    assert After(pair, s, [second]) == After(pair, t, []) == t;
    assert After(pair, Start(), [first, second]) == t;
    assert t.seals[0] == t.seals[..1][0];
  }

  /** No run repeats a key with a nonce exactly when video and statistics have keys of their own. */
  lemma NoPairRecursIff(pair: Pair, keys: SessionKeys)
    requires Paired(pair, keys)
    ensures Separate(keys) <==> forall steps :: !Recurs(pair, steps)
  {
    KeysByChannel(pair.client, Client, keys);
    KeysByChannel(pair.server, Server, keys);
    if Separate(keys) {
      forall steps ensures !Recurs(pair, steps) {
        NoPairRecurs(pair, keys, steps);
      }
    } else if keys.videoAtoB == keys.videoBtoA {
      SharedKeysRecur(pair, Client, 1, Server, 1);
    } else if keys.statsAtoB == keys.statsBtoA {
      SharedKeysRecur(pair, Client, 3, Server, 3);
    } else if keys.videoAtoB == keys.statsAtoB {
      SharedKeysRecur(pair, Client, 1, Client, 3);
    } else if keys.videoAtoB == keys.statsBtoA {
      SharedKeysRecur(pair, Client, 1, Server, 3);
    } else if keys.videoBtoA == keys.statsAtoB {
      SharedKeysRecur(pair, Server, 1, Client, 3);
    } else {
      SharedKeysRecur(pair, Server, 1, Server, 3);
    }
  }
}
