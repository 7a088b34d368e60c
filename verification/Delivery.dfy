/** What a channel delivers when the network may drop, repeat, reorder and alter envelopes. */
module Delivery {
  import opened Bytes
  import opened Envelope

  /** Authenticated only (control and statistics), or encrypted (video and statistics). */
  datatype Mode = Authenticated | Encrypted

  /** One direction of one channel; `key` belongs to it alone. */
  datatype Line = Line(prim: Primitives, keys: ChannelKeys, mode: Mode, channel: Byte)

  ghost predicate Usable(line: Line) {
    && Proper(line.prim)
    && if line.mode == Authenticated then line.channel == 0 || line.channel == 3
       else line.channel == 1 || line.channel == 3
  }

  /** What the sender was asked to protect, and where it stands in the wire header. */
  datatype Record = Record(flags: Byte, pts: nat, plain: seq<Byte>)

  /** A frame as the receiver gets it. */
  datatype Wired = Wired(flags: Byte, pts: nat, envelope: seq<Byte>)

  predicate Protectable(line: Line, r: Record) {
    && !HasFlag(r.flags) && r.pts < Limit(8)
    && |r.plain| <= if line.mode == Authenticated then MAXIMUM_CONTROL_PLAINTEXT
                    else MAXIMUM_WIRE_PAYLOAD - SEQUENCE_BYTES - MEDIA_TAG_BYTES
  }

  predicate SentOk(line: Line, sent: seq<Record>) {
    forall r :: r in sent ==> Protectable(line, r)
  }

  function WireOf(line: Line, r: Record, sequence: nat): Wired {
    if line.mode == Authenticated
    then Wired(r.flags, r.pts, ControlPayload(line.prim, line.keys, line.channel, r.flags, r.pts, sequence, r.plain))
    else Wired(WithFlag(r.flags), r.pts,
               MediaPayload(line.prim, line.keys, line.channel, WithFlag(r.flags), r.pts, sequence, r.plain))
  }

  function Protect(line: Line, c: Counter, r: Record, expired: bool): Result<Protected> {
    if line.mode == Authenticated
    then ProtectControl(line.prim, line.keys, c, line.channel, r.flags, r.pts, r.plain, expired)
    else ProtectMedia(line.prim, line.keys, c, line.channel, r.flags, r.pts, r.plain, expired)
  }

  function Unprotect(line: Line, c: Counter, w: Wired, expired: bool): Result<seq<Byte>> {
    if line.mode == Authenticated
    then UnprotectControl(line.prim, line.keys, c, line.channel, w.flags, w.pts, w.envelope, expired)
    else UnprotectMedia(line.prim, line.keys, c, line.channel, w.flags, w.pts, w.envelope, expired)
  }

  /** The record behind an envelope that was opened. */
  function Opened(line: Line, w: Wired, plain: seq<Byte>): Record {
    Record(if line.mode == Encrypted && HasFlag(w.flags) then w.flags - ENCRYPTED_FLAG else w.flags, w.pts, plain)
  }

  // ---------------------------------------------------------------------------
  // Ideal cryptography

  function SequenceOf(envelope: seq<Byte>): nat
    requires |envelope| >= SEQUENCE_BYTES
  {
    FromBigEndian(envelope[..8])
  }

  /** The bytes under an authenticated envelope's tag. */
  function TaggedBytes(line: Line, w: Wired): seq<Byte>
    requires |w.envelope| >= SEQUENCE_BYTES + CONTROL_TAG_BYTES
  {
    ControlAuth(|w.envelope|, line.channel, w.flags, w.pts, SequenceOf(w.envelope),
                w.envelope[SEQUENCE_BYTES..|w.envelope| - CONTROL_TAG_BYTES])
  }

  function TagOf(w: Wired): seq<Byte>
    requires |w.envelope| >= SEQUENCE_BYTES + CONTROL_TAG_BYTES
  {
    w.envelope[|w.envelope| - CONTROL_TAG_BYTES..]
  }

  function SealedOf(w: Wired): Sealed
    requires |w.envelope| >= SEQUENCE_BYTES + MEDIA_TAG_BYTES
  {
    Sealed(w.envelope[SEQUENCE_BYTES..|w.envelope| - MEDIA_TAG_BYTES], w.envelope[|w.envelope| - MEDIA_TAG_BYTES..])
  }

  function AadOf(line: Line, w: Wired): seq<Byte>
    requires |w.envelope| >= SEQUENCE_BYTES
  {
    AuthData(|w.envelope|, line.channel, w.flags, w.pts, SequenceOf(w.envelope), MEDIA_DOMAIN)
  }

  /** A tag that verifies was made by the sender, for the very same bytes. */
  ghost predicate NotForged(line: Line, sent: seq<Record>, w: Wired) {
    if line.mode == Authenticated then
      |w.envelope| >= SEQUENCE_BYTES + CONTROL_TAG_BYTES
      && line.prim.mac(line.keys.key, TaggedBytes(line, w)) == TagOf(w) ==>
        exists i :: 0 <= i < |sent| && TaggedBytes(line, w) == SentBytes(line, sent[i], i)
    else
      |w.envelope| >= SEQUENCE_BYTES + MEDIA_TAG_BYTES
      && line.prim.open(line.keys.key, MediaNonce(line.keys.noncePrefix, SequenceOf(w.envelope)),
                        AadOf(line, w), SealedOf(w)).Some? ==>
        exists i :: 0 <= i < |sent| && SameSeal(line, w, sent[i], i)
  }

  function SentBytes(line: Line, r: Record, i: nat): seq<Byte> {
    ControlAuth(SEQUENCE_BYTES + |r.plain| + CONTROL_TAG_BYTES, line.channel, r.flags, r.pts, i, r.plain)
  }

  function SentAad(line: Line, r: Record, i: nat): seq<Byte> {
    AuthData(SEQUENCE_BYTES + |r.plain| + MEDIA_TAG_BYTES, line.channel, WithFlag(r.flags), r.pts, i, MEDIA_DOMAIN)
  }

  predicate SameSeal(line: Line, w: Wired, r: Record, i: nat)
    requires |w.envelope| >= SEQUENCE_BYTES
  {
    && AadOf(line, w) == SentAad(line, r, i)
    && |w.envelope| >= SEQUENCE_BYTES + MEDIA_TAG_BYTES
    && SealedOf(w) == line.prim.seal(line.keys.key, MediaNonce(line.keys.noncePrefix, i), SentAad(line, r, i), r.plain)
  }

  // ---------------------------------------------------------------------------
  // An envelope is accepted exactly when it is the next one

  lemma EnvelopeParts(sequence: nat, plain: seq<Byte>, tag: seq<Byte>)
    requires sequence < Limit(8)
    ensures var e := BigEndian(sequence, 8) + plain + tag;
            && |e| == 8 + |plain| + |tag| && SequenceOf(e) == sequence
            && e[8..|e| - |tag|] == plain && e[|e| - |tag|..] == tag
  {
    var e := BigEndian(sequence, 8) + plain + tag;
    BigEndianRoundTrip(sequence, 8);
    assert e[..8] == BigEndian(sequence, 8);
  }

  lemma EnvelopeWhole(e: seq<Byte>, tagBytes: nat)
    requires |e| >= 8 + tagBytes
    ensures e == BigEndian(SequenceOf(e), 8) + e[8..|e| - tagBytes] + e[|e| - tagBytes..]
    ensures SequenceOf(e) < Limit(8)
  {
    FromBigEndianRoundTrip(e[..8]);
    assert e == e[..8] + e[8..|e| - tagBytes] + e[|e| - tagBytes..];
  }

  /** What was protected is recovered, by a receiver that expects it. */
  lemma GenuineIsAccepted(line: Line, r: Record, c: Counter)
    requires Usable(line) && Protectable(line, r) && !c.exhausted && c.next < MAXIMUM_RECORDS
    ensures Unprotect(line, c, WireOf(line, r, c.next), false) == Ok(r.plain)
    ensures Opened(line, WireOf(line, r, c.next), r.plain) == r
  {
    Limits();
    if line.mode == Authenticated {
      var size := SEQUENCE_BYTES + |r.plain| + CONTROL_TAG_BYTES;
      var tag := line.prim.mac(line.keys.key, SentBytes(line, r, c.next));
      EnvelopeParts(c.next, r.plain, tag);
    } else {
      var s := line.prim.seal(line.keys.key, MediaNonce(line.keys.noncePrefix, c.next), SentAad(line, r, c.next), r.plain);
      EnvelopeParts(c.next, s.ciphertext, s.tag);
    }
  }

  /** What has been checked by the time an authenticated envelope is accepted. */
  lemma ControlChecks(line: Line, c: Counter, w: Wired, plain: seq<Byte>)
    requires line.mode == Authenticated && Unprotect(line, c, w, false) == Ok(plain)
    ensures |w.envelope| == SEQUENCE_BYTES + |plain| + CONTROL_TAG_BYTES && SequenceOf(w.envelope) == c.next
    ensures plain == w.envelope[SEQUENCE_BYTES..|w.envelope| - CONTROL_TAG_BYTES]
    ensures TaggedBytes(line, w) == ControlAuth(|w.envelope|, line.channel, w.flags, w.pts, c.next, plain)
    ensures TagOf(w) == line.prim.mac(line.keys.key, TaggedBytes(line, w))
  {
  }

  /** The bytes under the tag are a record's only if everything said about them is that record's. */
  lemma TaggedRecord(line: Line, w: Wired, sequence: nat, plain: seq<Byte>, r: Record, i: nat)
    requires |w.envelope| < Limit(4) && |r.plain| + 0x100 < Limit(4) && w.pts < Limit(8) && r.pts < Limit(8)
    requires sequence < Limit(8) && i < Limit(8)
    requires ControlAuth(|w.envelope|, line.channel, w.flags, w.pts, sequence, plain) == SentBytes(line, r, i)
    ensures sequence == i && plain == r.plain && w.flags == r.flags && w.pts == r.pts
  {
    AuthDataInjective(|w.envelope|, line.channel, w.flags, w.pts, sequence,
                      SEQUENCE_BYTES + |r.plain| + CONTROL_TAG_BYTES, line.channel, r.flags,
                      r.pts, i, CONTROL_DOMAIN, plain, r.plain);
  }

  lemma ControlIsWhole(line: Line, c: Counter, w: Wired, plain: seq<Byte>)
    requires line.mode == Authenticated && Unprotect(line, c, w, false) == Ok(plain)
    ensures c.next < Limit(8)
    ensures w.envelope == ControlPayload(line.prim, line.keys, line.channel, w.flags, w.pts, c.next, plain)
  {
    ControlChecks(line, c, w, plain);
    EnvelopeWhole(w.envelope, CONTROL_TAG_BYTES);
  }

  lemma AcceptedControlIsNext(line: Line, sent: seq<Record>, c: Counter, w: Wired, plain: seq<Byte>)
    requires Usable(line) && line.mode == Authenticated && SentOk(line, sent)
    requires NotForged(line, sent, w) && w.pts < Limit(8) && |sent| <= MAXIMUM_RECORDS
    requires Unprotect(line, c, w, false) == Ok(plain)
    ensures c.next < |sent| && w == WireOf(line, sent[c.next], c.next) && plain == sent[c.next].plain
  {
    Limits();
    ControlChecks(line, c, w, plain);
    ControlIsWhole(line, c, w, plain);
    var i :| 0 <= i < |sent| && TaggedBytes(line, w) == SentBytes(line, sent[i], i);
    assert sent[i] in sent;
    TaggedRecord(line, w, c.next, plain, sent[i], i);
  }

  lemma AcceptedMediaIsNext(line: Line, sent: seq<Record>, c: Counter, w: Wired, plain: seq<Byte>)
    requires Usable(line) && line.mode == Encrypted && SentOk(line, sent)
    requires NotForged(line, sent, w) && w.pts < Limit(8) && |sent| <= MAXIMUM_RECORDS
    requires Unprotect(line, c, w, false) == Ok(plain)
    ensures c.next < |sent| && w == WireOf(line, sent[c.next], c.next) && plain == sent[c.next].plain
  {
    Limits();
    EnvelopeWhole(w.envelope, MEDIA_TAG_BYTES);
    var i :| 0 <= i < |sent| && SameSeal(line, w, sent[i], i);
    assert sent[i] in sent;
    assert AadOf(line, w) + [] == SentAad(line, sent[i], i) + [];
    AuthDataInjective(|w.envelope|, line.channel, w.flags, w.pts, c.next,
                      SEQUENCE_BYTES + |sent[i].plain| + MEDIA_TAG_BYTES, line.channel, WithFlag(sent[i].flags),
                      sent[i].pts, i, MEDIA_DOMAIN, [], []);
  }

  /**
   * An unexpired receiver accepts a frame exactly when it is, bit for bit, the one the peer made
   * of the record that is due; everything else is refused.
   */
  lemma AcceptedIffNext(line: Line, sent: seq<Record>, c: Counter, w: Wired)
    requires Usable(line) && SentOk(line, sent)
    requires NotForged(line, sent, w) && w.pts < Limit(8) && |sent| <= MAXIMUM_RECORDS && !c.exhausted
    requires c.next < MAXIMUM_RECORDS
    ensures Unprotect(line, c, w, false).Ok? <==> c.next < |sent| && w == WireOf(line, sent[c.next], c.next)
    ensures Unprotect(line, c, w, false).Ok? ==> Unprotect(line, c, w, false).value == sent[c.next].plain
  {
    var r := Unprotect(line, c, w, false);
    if r.Ok? {
      if line.mode == Authenticated { AcceptedControlIsNext(line, sent, c, w, r.value); }
      else { AcceptedMediaIsNext(line, sent, c, w, r.value); }
    }
    if c.next < |sent| && w == WireOf(line, sent[c.next], c.next) {
      GenuineIsAccepted(line, sent[c.next], c);
    }
  }

  // ---------------------------------------------------------------------------
  // Runs of one line

  /** `nonces` lists the nonces that the sender has sealed records under; it is not in the program. */
  datatype Ends = Ends(sent: seq<Record>, outgoing: Counter, accepted: seq<Record>, incoming: Counter,
                       nonces: seq<seq<Byte>>)

  const START := Ends([], NEW_COUNTER, [], NEW_COUNTER, [])

  datatype Step =
    | Send(record: Record, expired: bool)
    | Deliver(frame: Wired, expired: bool)

  function Next(line: Line, e: Ends, step: Step): Ends {
    match step
    case Send(r, expired) =>
      if Protect(line, e.outgoing, r, expired).Ok?
      then e.(sent := e.sent + [r], outgoing := Advance(e.outgoing),
              nonces := e.nonces + [MediaNonce(line.keys.noncePrefix, e.outgoing.next)])
      else e
    case Deliver(w, expired) =>
      match Unprotect(line, e.incoming, w, expired)
      case Ok(plain) => e.(accepted := e.accepted + [Opened(line, w, plain)], incoming := Advance(e.incoming))
      case Err(_) => e
  }

  /** Any frame at all may be delivered, in any order and any number of times, but no forged tag. */
  ghost predicate CanStep(line: Line, e: Ends, step: Step) {
    match step
    case Send(r, _) => r.pts < Limit(8)
    case Deliver(w, _) => w.pts < Limit(8) && NotForged(line, e.sent, w)
  }

  ghost predicate Possible(line: Line, e: Ends, steps: seq<Step>)
    decreases steps
  {
    steps == [] || (CanStep(line, e, steps[0]) && Possible(line, Next(line, e, steps[0]), steps[1..]))
  }

  function After(line: Line, e: Ends, steps: seq<Step>): Ends
    decreases steps
  {
    if steps == [] then e else After(line, Next(line, e, steps[0]), steps[1..])
  }

  predicate EndsOk(line: Line, e: Ends) {
    && SentOk(line, e.sent)
    && Numbered(e.outgoing, |e.sent|) && Numbered(e.incoming, |e.accepted|)
    && |e.accepted| <= |e.sent| && e.accepted == e.sent[..|e.accepted|]
    && |e.nonces| == |e.sent| && InSequence(line.keys.noncePrefix, e.nonces)
  }

  predicate InSequence(prefix: seq<Byte>, nonces: seq<seq<Byte>>) {
    forall i :: 0 <= i < |nonces| ==> nonces[i] == MediaNonce(prefix, i)
  }

  lemma OneMoreNonce(prefix: seq<Byte>, nonces: seq<seq<Byte>>, nonce: seq<Byte>)
    requires InSequence(prefix, nonces) && nonce == MediaNonce(prefix, |nonces|)
    ensures InSequence(prefix, nonces + [nonce])
  {
  }

  lemma OneMoreRecord(line: Line, sent: seq<Record>, r: Record)
    requires SentOk(line, sent) && Protectable(line, r)
    ensures SentOk(line, sent + [r])
  {
  }

  lemma ProtectChecks(line: Line, c: Counter, r: Record, expired: bool)
    requires r.pts < Limit(8) && Protect(line, c, r, expired).Ok?
    ensures Protectable(line, r) && !c.exhausted
  {
  }

  lemma AdvanceNumbers(c: Counter, n: nat)
    requires Numbered(c, n) && !c.exhausted
    ensures n == c.next && Numbered(Advance(c), n + 1)
  {
  }

  lemma SendKeeps(line: Line, e: Ends, r: Record, expired: bool)
    requires EndsOk(line, e) && r.pts < Limit(8)
    ensures EndsOk(line, Next(line, e, Send(r, expired)))
  {
    if Protect(line, e.outgoing, r, expired).Ok? {
      ProtectChecks(line, e.outgoing, r, expired);
      AdvanceNumbers(e.outgoing, |e.sent|);
      OneMoreRecord(line, e.sent, r);
      OneMoreNonce(line.keys.noncePrefix, e.nonces, MediaNonce(line.keys.noncePrefix, e.outgoing.next));
      var sent := e.sent + [r];
      assert sent[..|e.accepted|] == e.sent[..|e.accepted|];
    }
  }

  /** An accepted frame is the record that is due, and the count of accepted records moves on. */
  lemma AcceptanceIs(line: Line, e: Ends, w: Wired, expired: bool)
    requires Usable(line) && EndsOk(line, e) && CanStep(line, e, Deliver(w, expired))
    requires Unprotect(line, e.incoming, w, expired).Ok?
    ensures !e.incoming.exhausted && e.incoming.next == |e.accepted| < |e.sent|
    ensures Opened(line, w, Unprotect(line, e.incoming, w, expired).value) == e.sent[|e.accepted|]
  {
    var k := e.incoming.next;
    UnexpiredWhenAccepted(line, e.incoming, w, expired);
    AcceptedIffNext(line, e.sent, e.incoming, w);
    assert e.sent[k] in e.sent;
    GenuineIsAccepted(line, e.sent[k], e.incoming);
  }

  lemma UnexpiredWhenAccepted(line: Line, c: Counter, w: Wired, expired: bool)
    requires Unprotect(line, c, w, expired).Ok?
    ensures !expired && !c.exhausted
  {
  }

  lemma DeliverKeeps(line: Line, e: Ends, w: Wired, expired: bool)
    requires Usable(line) && EndsOk(line, e) && CanStep(line, e, Deliver(w, expired))
    ensures EndsOk(line, Next(line, e, Deliver(w, expired)))
  {
    if Unprotect(line, e.incoming, w, expired).Ok? {
      AcceptanceIs(line, e, w, expired);
      AdvanceNumbers(e.incoming, |e.accepted|);
      var k := |e.accepted|;
      assert e.sent[..k + 1] == e.sent[..k] + [e.sent[k]];
    }
  }

  lemma {:induction false} RunKeeps(line: Line, e: Ends, steps: seq<Step>)
    requires Usable(line) && EndsOk(line, e) && Possible(line, e, steps)
    ensures EndsOk(line, After(line, e, steps))
    decreases steps
  {
    if steps == [] {
    } else {
      match steps[0] {
        case Send(r, expired) => SendKeeps(line, e, r, expired);
        case Deliver(w, expired) => DeliverKeeps(line, e, w, expired);
      }
      RunKeeps(line, Next(line, e, steps[0]), steps[1..]);
    }
  }

  /**
   * In-order delivery: whatever the network drops, repeats, reorders or alters, what the receiver
   * has accepted is exactly the first records the peer protected, headers included, and no more
   * than 2^32 of them.
   */
  lemma AcceptedIsAPrefix(line: Line, steps: seq<Step>)
    requires Usable(line) && Possible(line, START, steps)
    ensures var e := After(line, START, steps);
            && |e.accepted| <= |e.sent| <= MAXIMUM_RECORDS && e.accepted == e.sent[..|e.accepted|]
  {
    RunKeeps(line, START, steps);
  }

  /** ... and the record that is due can still be had: nothing delivered in between has cost it. */
  lemma NextCanBeAccepted(line: Line, steps: seq<Step>)
    requires Usable(line) && Possible(line, START, steps)
    ensures var e := After(line, START, steps); var k := |e.accepted|;
            k < |e.sent| ==>
              Next(line, e, Deliver(WireOf(line, e.sent[k], k), false)).accepted == e.sent[..k + 1]
  {
    RunKeeps(line, START, steps);
    var e := After(line, START, steps);
    var k := |e.accepted|;
    if k < |e.sent| {
      assert e.sent[k] in e.sent;
      GenuineIsAccepted(line, e.sent[k], e.incoming);
      assert e.sent[..k + 1] == e.sent[..k] + [e.sent[k]];
    }
  }

  /** Once the session has expired neither end does anything more, whatever it is asked or handed. */
  lemma NothingAfterExpiry(line: Line, e: Ends, r: Record, w: Wired)
    ensures Next(line, e, Send(r, true)) == e && Next(line, e, Deliver(w, true)) == e
  {
  }

  /**
   * Before that, the sender takes exactly what is not marked as encrypted yet and fits, as long as
   * fewer than 2^32 records have gone out; what it takes is sent as the next one, headers included.
   */
  lemma SentIff(line: Line, steps: seq<Step>, r: Record)
    requires Usable(line) && Possible(line, START, steps) && r.pts < Limit(8)
    ensures var e := After(line, START, steps);
            Next(line, e, Send(r, false)).sent
              == if Protectable(line, r) && |e.sent| < MAXIMUM_RECORDS then e.sent + [r] else e.sent
  {
    RunKeeps(line, START, steps);
  }

  /** No two records of a channel are sealed under the same nonce. */
  lemma NoncesDiffer(prefix: seq<Byte>, i: nat, j: nat)
    requires i < MAXIMUM_RECORDS && j < MAXIMUM_RECORDS && i != j
    ensures MediaNonce(prefix, i) != MediaNonce(prefix, j)
  {
    Limits();
    if MediaNonce(prefix, i) == MediaNonce(prefix, j) {
      assert MediaNonce(prefix, i)[|prefix|..] == BigEndian(i, 8);
      assert MediaNonce(prefix, j)[|prefix|..] == BigEndian(j, 8);
      BigEndianInjective(i, j, 8);
    }
  }

  /**
   * No (key, nonce) pair is used twice: over any run, every record that a channel's sender sealed
   * was sealed under a nonce of its own, and the channel's key belongs to it alone.
   */
  lemma NoNonceRecurs(line: Line, steps: seq<Step>, i: nat, j: nat)
    requires Usable(line) && Possible(line, START, steps)
    ensures var e := After(line, START, steps);
            && |e.nonces| == |e.sent|
            && (i < j < |e.sent| ==> e.nonces[i] != e.nonces[j])
  {
    RunKeeps(line, START, steps);
    if i < j < |After(line, START, steps).sent| {
      NoncesDiffer(line.keys.noncePrefix, i, j);
    }
  }

  /** The sequence numbers, hence nonces, that a sender has used are its records' own positions. */
  lemma EachRecordItsOwnNumber(line: Line, steps: seq<Step>, r: Record)
    requires Usable(line) && Possible(line, START, steps)
    ensures var e := After(line, START, steps);
            Protect(line, e.outgoing, r, false).Ok? ==>
              && |e.sent| < MAXIMUM_RECORDS
              && Protect(line, e.outgoing, r, false).value.payload == WireOf(line, r, |e.sent|).envelope
  {
    RunKeeps(line, START, steps);
  }
}
