/** The protector as the program has it: sequence counters in arrays, envelopes built by appending. */
module Protector {
  import opened Bytes
  import opened Envelope
  import opened Wrappers

  datatype Role = Server | Client

  datatype SessionKeys = SessionKeys(
    controlAtoB: ChannelKeys, controlBtoA: ChannelKeys, videoAtoB: ChannelKeys, videoBtoA: ChannelKeys,
    statsAtoB: ChannelKeys, statsBtoA: ChannelKeys)

  class SessionProtector {
    const prim: Primitives
    const outgoingControl: ChannelKeys
    const incomingControl: ChannelKeys
    const outgoingVideo: ChannelKeys
    const incomingVideo: ChannelKeys
    const outgoingStats: ChannelKeys
    const incomingStats: ChannelKeys
    const outgoingControlSequence: array<Counter>
    const incomingControlSequence: array<Counter>
    const outgoingMediaSequence: array<Counter>
    const incomingMediaSequence: array<Counter>

    ghost predicate Valid() {
      && Proper(prim)
      && outgoingControlSequence.Length == 0x100 && incomingControlSequence.Length == 0x100
      && outgoingMediaSequence.Length == 0x100 && incomingMediaSequence.Length == 0x100
    }

    /** The keys this end uses: what one role sends under, the other receives under. */
    ghost predicate Holds(role: Role, keys: SessionKeys) {
      if role == Client then
        && outgoingControl == keys.controlAtoB && incomingControl == keys.controlBtoA
        && outgoingVideo == keys.videoAtoB && incomingVideo == keys.videoBtoA
        && outgoingStats == keys.statsAtoB && incomingStats == keys.statsBtoA
      else
        && outgoingControl == keys.controlBtoA && incomingControl == keys.controlAtoB
        && outgoingVideo == keys.videoBtoA && incomingVideo == keys.videoAtoB
        && outgoingStats == keys.statsBtoA && incomingStats == keys.statsAtoB
    }

    constructor (role: Role, keys: SessionKeys, primitives: Primitives)
      requires Proper(primitives)
      ensures Valid() && prim == primitives
      ensures fresh(outgoingControlSequence) && fresh(incomingControlSequence)
      ensures fresh(outgoingMediaSequence) && fresh(incomingMediaSequence)
      ensures forall i :: 0 <= i < 0x100 ==>
                outgoingControlSequence[i] == incomingControlSequence[i] == outgoingMediaSequence[i]
                == incomingMediaSequence[i] == NEW_COUNTER
      ensures Holds(role, keys)
    {
      prim := primitives;
      outgoingControl := if role == Client then keys.controlAtoB else keys.controlBtoA;
      incomingControl := if role == Client then keys.controlBtoA else keys.controlAtoB;
      outgoingVideo := if role == Client then keys.videoAtoB else keys.videoBtoA;
      incomingVideo := if role == Client then keys.videoBtoA else keys.videoAtoB;
      outgoingStats := if role == Client then keys.statsAtoB else keys.statsBtoA;
      incomingStats := if role == Client then keys.statsBtoA else keys.statsAtoB;
      outgoingControlSequence := new Counter[0x100](_ => NEW_COUNTER);
      incomingControlSequence := new Counter[0x100](_ => NEW_COUNTER);
      outgoingMediaSequence := new Counter[0x100](_ => NEW_COUNTER);
      incomingMediaSequence := new Counter[0x100](_ => NEW_COUNTER);
    }

    function AuthenticatedKeys(channel: Byte, outgoing: bool): ChannelKeys {
      if outgoing then if channel == 0 then outgoingControl else outgoingStats
      else if channel == 0 then incomingControl else incomingStats
    }

    function MediaKeys(channel: Byte, outgoing: bool): ChannelKeys {
      if outgoing then if channel == 1 then outgoingVideo else outgoingStats
      else if channel == 1 then incomingVideo else incomingStats
    }

    method ProtectControl(channel: Byte, flags: Byte, pts: nat, plain: seq<Byte>, expired: bool)
      returns (result: Result<Protected>)
      requires Valid()
      modifies outgoingControlSequence
      ensures var was := old(outgoingControlSequence[..]);
              && result == Envelope.ProtectControl(prim, AuthenticatedKeys(channel, true), was[channel], channel,
                                                   flags, pts, plain, expired)
              && outgoingControlSequence[..] == if result.Ok? then was[channel := Advance(was[channel])] else was
    {
      if (channel != 0 && channel != 3) || HasFlag(flags) || |plain| > MAXIMUM_CONTROL_PLAINTEXT {
        return Err(InvalidArgument);
      }
      if expired { return Err(Expired); }
      var counter := outgoingControlSequence[channel];
      if counter.exhausted { return Err(SequenceExhausted); }
      var sequence := counter.next;
      var size := SEQUENCE_BYTES + |plain| + CONTROL_TAG_BYTES;
      var authenticated := EnvelopeAuthenticationData(size, channel, flags, pts, sequence, CONTROL_DOMAIN);
      authenticated := authenticated + plain;
      var tag := prim.mac(AuthenticatedKeys(channel, true).key, authenticated);
      var payload := AppendBigEndian([], sequence, 8);
      assert payload == BigEndian(sequence, 8);
      payload := payload + plain;
      payload := payload + tag;
      outgoingControlSequence[channel] := Advance(counter);
      result := Ok(Protected(flags, payload));
    }

    method UnprotectControl(channel: Byte, flags: Byte, pts: nat, envelope: seq<Byte>, expired: bool)
      returns (result: Result<seq<Byte>>)
      requires Valid()
      modifies incomingControlSequence
      ensures var was := old(incomingControlSequence[..]);
              && result == Envelope.UnprotectControl(prim, AuthenticatedKeys(channel, false), was[channel], channel,
                                                     flags, pts, envelope, expired)
              && incomingControlSequence[..] == if result.Ok? then was[channel := Advance(was[channel])] else was
    {
      var size := |envelope|;
      if (channel != 0 && channel != 3) || HasFlag(flags) || size < SEQUENCE_BYTES + CONTROL_TAG_BYTES
         || size > MAXIMUM_CONTROL_PLAINTEXT + SEQUENCE_BYTES + CONTROL_TAG_BYTES
      {
        return Err(InvalidArgument);
      }
      if expired { return Err(Expired); }
      var counter := incomingControlSequence[channel];
      if counter.exhausted { return Err(SequenceExhausted); }
      var sequence := ReadBigEndian(envelope[..8]);
      if sequence != counter.next { return Err(SequenceMismatch); }
      var plain := envelope[SEQUENCE_BYTES..size - CONTROL_TAG_BYTES];
      var authenticated := EnvelopeAuthenticationData(size, channel, flags, pts, sequence, CONTROL_DOMAIN);
      authenticated := authenticated + plain;
      var expected := prim.mac(AuthenticatedKeys(channel, false).key, authenticated);
      if expected != envelope[size - CONTROL_TAG_BYTES..] { return Err(AuthenticationFailed); }
      incomingControlSequence[channel] := Advance(counter);
      result := Ok(plain);
    }

    method ProtectMedia(channel: Byte, flags: Byte, pts: nat, plain: seq<Byte>, expired: bool)
      returns (result: Result<Protected>)
      requires Valid()
      modifies outgoingMediaSequence
      ensures var was := old(outgoingMediaSequence[..]);
              && result == Envelope.ProtectMedia(prim, MediaKeys(channel, true), was[channel], channel,
                                                 flags, pts, plain, expired)
              && outgoingMediaSequence[..] == if result.Ok? then was[channel := Advance(was[channel])] else was
    {
      if (channel != 1 && channel != 3) || HasFlag(flags)
         || |plain| > MAXIMUM_WIRE_PAYLOAD - SEQUENCE_BYTES - MEDIA_TAG_BYTES
      {
        return Err(InvalidArgument);
      }
      if expired { return Err(Expired); }
      var counter := outgoingMediaSequence[channel];
      if counter.exhausted { return Err(SequenceExhausted); }
      var sequence := counter.next;
      var protectedFlags := WithFlag(flags);
      var size := SEQUENCE_BYTES + |plain| + MEDIA_TAG_BYTES;
      var aad := EnvelopeAuthenticationData(size, channel, protectedFlags, pts, sequence, MEDIA_DOMAIN);
      var keys := MediaKeys(channel, true);
      var nonce := AppendBigEndian(keys.noncePrefix, sequence, 8);
      var s := prim.seal(keys.key, nonce, aad, plain);
      var payload := AppendBigEndian([], sequence, 8);
      assert payload == BigEndian(sequence, 8);
      payload := payload + s.ciphertext;
      payload := payload + s.tag;
      outgoingMediaSequence[channel] := Advance(counter);
      result := Ok(Protected(protectedFlags, payload));
    }

    method UnprotectMedia(channel: Byte, flags: Byte, pts: nat, envelope: seq<Byte>, expired: bool)
      returns (result: Result<seq<Byte>>)
      requires Valid()
      modifies incomingMediaSequence
      ensures var was := old(incomingMediaSequence[..]);
              && result == Envelope.UnprotectMedia(prim, MediaKeys(channel, false), was[channel], channel,
                                                   flags, pts, envelope, expired)
              && incomingMediaSequence[..] == if result.Ok? then was[channel := Advance(was[channel])] else was
    {
      var size := |envelope|;
      if (channel != 1 && channel != 3) || !HasFlag(flags) || size < SEQUENCE_BYTES + MEDIA_TAG_BYTES
         || size > MAXIMUM_WIRE_PAYLOAD
      {
        return Err(InvalidArgument);
      }
      if expired { return Err(Expired); }
      var counter := incomingMediaSequence[channel];
      if counter.exhausted { return Err(SequenceExhausted); }
      var sequence := ReadBigEndian(envelope[..8]);
      if sequence != counter.next { return Err(SequenceMismatch); }
      var aad := EnvelopeAuthenticationData(size, channel, flags, pts, sequence, MEDIA_DOMAIN);
      var keys := MediaKeys(channel, false);
      var nonce := AppendBigEndian(keys.noncePrefix, sequence, 8);
      var s := Sealed(envelope[SEQUENCE_BYTES..size - MEDIA_TAG_BYTES], envelope[size - MEDIA_TAG_BYTES..]);
      var recovered := prim.open(keys.key, nonce, aad, s);
      if recovered == None { return Err(AuthenticationFailed); }
      incomingMediaSequence[channel] := Advance(counter);
      result := Ok(recovered.value);
    }
  }

  /** On every channel each end opens with the keys that the other protects with. */
  lemma PeersShareKeys(client: SessionProtector, server: SessionProtector, keys: SessionKeys, channel: Byte)
    requires client.Holds(Client, keys) && server.Holds(Server, keys)
    ensures client.AuthenticatedKeys(channel, true) == server.AuthenticatedKeys(channel, false)
    ensures server.AuthenticatedKeys(channel, true) == client.AuthenticatedKeys(channel, false)
    ensures client.MediaKeys(channel, true) == server.MediaKeys(channel, false)
    ensures server.MediaKeys(channel, true) == client.MediaKeys(channel, false)
  {
  }
}
