/**
 * The session envelope: every record of a channel carries its sequence number and a tag over the
 * wire header, the number and the payload. MAC and AEAD are parameters.
 */
module Envelope {
  import opened Bytes
  import opened Wrappers

  const ENCRYPTED_FLAG := 2
  const CONTROL_TAG_BYTES := 32
  const MEDIA_TAG_BYTES := 16
  const SEQUENCE_BYTES := 8
  const MAXIMUM_WIRE_PAYLOAD := 16 * 1024 * 1024
  const MAXIMUM_CONTROL_PLAINTEXT := 1024 * 1024
  const MAXIMUM_RECORDS := 0x1_0000_0000     // per channel and direction

  datatype Key = Key(bytes: seq<Byte>)
  datatype ChannelKeys = ChannelKeys(key: Key, noncePrefix: seq<Byte>)
  datatype Sealed = Sealed(ciphertext: seq<Byte>, tag: seq<Byte>)

  /** HMAC-SHA-256 and ChaCha20-Poly1305, of which only the shape of the results is used here. */
  datatype Primitives = Primitives(
    mac: (Key, seq<Byte>) -> seq<Byte>,
    seal: (Key, seq<Byte>, seq<Byte>, seq<Byte>) -> Sealed,
    open: (Key, seq<Byte>, seq<Byte>, Sealed) -> Option<seq<Byte>>)

  ghost predicate Proper(prim: Primitives) {
    && (forall k, data :: |prim.mac(k, data)| == CONTROL_TAG_BYTES)
    && (forall k, nonce, aad, plain ::
          var s := prim.seal(k, nonce, aad, plain);
          && |s.ciphertext| == |plain| && |s.tag| == MEDIA_TAG_BYTES
          && prim.open(k, nonce, aad, s) == Some(plain))
    && (forall k, nonce, aad, s ::
          var r := prim.open(k, nonce, aad, s); r.Some? ==> |r.value| == |s.ciphertext|)
  }

  // ---------------------------------------------------------------------------
  // What is authenticated

  const CONTROL_DOMAIN: seq<Byte> := Ascii("RemoteCam control envelope v1")
  const MEDIA_DOMAIN: seq<Byte> := Ascii("RemoteCam media envelope v1")

  /** The wire header as it will be sent, then the sequence, then what the tag is for. */
  function AuthData(size: nat, channel: Byte, flags: Byte, pts: nat, sequence: nat, domain: seq<Byte>): (r: seq<Byte>)
    ensures |r| == 24 + |domain|
  {
    BigEndian(size, 4) + [channel, flags, 0, 0] + BigEndian(pts, 8) + BigEndian(sequence, 8) + domain
  }

  method EnvelopeAuthenticationData(size: nat, channel: Byte, flags: Byte, pts: nat, sequence: nat,
                                    domain: seq<Byte>)
    returns (aad: seq<Byte>)
    ensures aad == AuthData(size, channel, flags, pts, sequence, domain)
  {
    aad := AppendBigEndian([], size, 4);
    aad := aad + [channel];
    aad := aad + [flags];
    aad := aad + [0];
    aad := aad + [0];
    aad := AppendBigEndian(aad, pts, 8);
    aad := AppendBigEndian(aad, sequence, 8);
    aad := aad + domain;
  }

  lemma BigEndianInjective(a: nat, b: nat, n: nat)
    requires a < Limit(n) && b < Limit(n) && BigEndian(a, n) == BigEndian(b, n)
    ensures a == b
  {
    BigEndianRoundTrip(a, n);
    BigEndianRoundTrip(b, n);
  }

  /** Nothing under the tag can be traded for anything else: the bytes determine every field. */
  lemma AuthDataInjective(size: nat, channel: Byte, flags: Byte, pts: nat, sequence: nat,
                          size': nat, channel': Byte, flags': Byte, pts': nat, sequence': nat,
                          domain: seq<Byte>, tail: seq<Byte>, tail': seq<Byte>)
    requires size < Limit(4) && size' < Limit(4) && pts < Limit(8) && pts' < Limit(8)
    requires sequence < Limit(8) && sequence' < Limit(8)
    requires AuthData(size, channel, flags, pts, sequence, domain) + tail
          == AuthData(size', channel', flags', pts', sequence', domain) + tail'
    ensures size == size' && channel == channel' && flags == flags' && pts == pts' && sequence == sequence'
    ensures tail == tail'
  {
    var a := AuthData(size, channel, flags, pts, sequence, domain) + tail;
    var b := AuthData(size', channel', flags', pts', sequence', domain) + tail';
    AuthDataParts(size, channel, flags, pts, sequence, domain, tail);
    AuthDataParts(size', channel', flags', pts', sequence', domain, tail');
    BigEndianInjective(size, size', 4);
    BigEndianInjective(pts, pts', 8);
    BigEndianInjective(sequence, sequence', 8);
    assert a[24 + |domain|..] == b[24 + |domain|..];
  }

  lemma AuthDataParts(size: nat, channel: Byte, flags: Byte, pts: nat, sequence: nat, domain: seq<Byte>, tail: seq<Byte>)
    ensures var a := AuthData(size, channel, flags, pts, sequence, domain) + tail;
            && a[..4] == BigEndian(size, 4) && a[4] == channel && a[5] == flags
            && a[8..16] == BigEndian(pts, 8) && a[16..24] == BigEndian(sequence, 8)
            && a[24 + |domain|..] == tail
  {
  }

  // ---------------------------------------------------------------------------
  // Sequence counters

  datatype Counter = Counter(next: nat, exhausted: bool)

  const NEW_COUNTER := Counter(0, false)

  function Advance(c: Counter): Counter {
    if c.next + 1 >= MAXIMUM_RECORDS then c.(exhausted := true) else c.(next := c.next + 1)
  }

  /** How many records a counter has numbered. */
  predicate Numbered(c: Counter, n: nat) {
    if c.exhausted then n == MAXIMUM_RECORDS && c.next == MAXIMUM_RECORDS - 1
    else n == c.next < MAXIMUM_RECORDS
  }

  // ---------------------------------------------------------------------------
  // Protecting and unprotecting

  datatype Error =
    | InvalidArgument | Expired | SequenceExhausted | SequenceMismatch | AuthenticationFailed

  datatype Result<T> = Ok(value: T) | Err(error: Error)

  datatype Protected = Protected(flags: Byte, payload: seq<Byte>)

  /** The flags with the encrypted bit set. */
  function WithFlag(flags: Byte): (r: Byte) {
    if HasFlag(flags) then flags else flags + ENCRYPTED_FLAG
  }

  predicate HasFlag(flags: Byte) {
    flags / ENCRYPTED_FLAG % 2 == 1
  }

  function ControlAuth(size: nat, channel: Byte, flags: Byte, pts: nat, sequence: nat, plain: seq<Byte>): seq<Byte> {
    AuthData(size, channel, flags, pts, sequence, CONTROL_DOMAIN) + plain
  }

  function ControlPayload(prim: Primitives, keys: ChannelKeys, channel: Byte, flags: Byte, pts: nat,
                          sequence: nat, plain: seq<Byte>): seq<Byte> {
    var size := SEQUENCE_BYTES + |plain| + CONTROL_TAG_BYTES;
    BigEndian(sequence, 8) + plain + prim.mac(keys.key, ControlAuth(size, channel, flags, pts, sequence, plain))
  }

  function ProtectControl(prim: Primitives, keys: ChannelKeys, c: Counter, channel: Byte, flags: Byte, pts: nat,
                          plain: seq<Byte>, expired: bool): Result<Protected> {
    if (channel != 0 && channel != 3) || HasFlag(flags) || |plain| > MAXIMUM_CONTROL_PLAINTEXT
    then Err(InvalidArgument)
    else if expired then Err(Expired)
    else if c.exhausted then Err(SequenceExhausted)
    else Ok(Protected(flags, ControlPayload(prim, keys, channel, flags, pts, c.next, plain)))
  }

  function UnprotectControl(prim: Primitives, keys: ChannelKeys, c: Counter, channel: Byte, flags: Byte, pts: nat,
                            envelope: seq<Byte>, expired: bool): Result<seq<Byte>> {
    var size := |envelope|;
    if (channel != 0 && channel != 3) || HasFlag(flags) || size < SEQUENCE_BYTES + CONTROL_TAG_BYTES
       || size > MAXIMUM_CONTROL_PLAINTEXT + SEQUENCE_BYTES + CONTROL_TAG_BYTES
    then Err(InvalidArgument)
    else if expired then Err(Expired)
    else if c.exhausted then Err(SequenceExhausted)
    else if FromBigEndian(envelope[..8]) != c.next then Err(SequenceMismatch)
    else
      var plain := envelope[SEQUENCE_BYTES..size - CONTROL_TAG_BYTES];
      if prim.mac(keys.key, ControlAuth(size, channel, flags, pts, c.next, plain)) != envelope[size - CONTROL_TAG_BYTES..]
      then Err(AuthenticationFailed)
      else Ok(plain)
  }

  function MediaNonce(prefix: seq<Byte>, sequence: nat): seq<Byte> {
    prefix + BigEndian(sequence, 8)
  }

  function MediaPayload(prim: Primitives, keys: ChannelKeys, channel: Byte, flags: Byte, pts: nat,
                        sequence: nat, plain: seq<Byte>): seq<Byte> {
    var size := SEQUENCE_BYTES + |plain| + MEDIA_TAG_BYTES;
    var aad := AuthData(size, channel, flags, pts, sequence, MEDIA_DOMAIN);
    var s := prim.seal(keys.key, MediaNonce(keys.noncePrefix, sequence), aad, plain);
    BigEndian(sequence, 8) + s.ciphertext + s.tag
  }

  function ProtectMedia(prim: Primitives, keys: ChannelKeys, c: Counter, channel: Byte, flags: Byte, pts: nat,
                        plain: seq<Byte>, expired: bool): Result<Protected> {
    if (channel != 1 && channel != 3) || HasFlag(flags)
       || |plain| > MAXIMUM_WIRE_PAYLOAD - SEQUENCE_BYTES - MEDIA_TAG_BYTES
    then Err(InvalidArgument)
    else if expired then Err(Expired)
    else if c.exhausted then Err(SequenceExhausted)
    else Ok(Protected(WithFlag(flags), MediaPayload(prim, keys, channel, WithFlag(flags), pts, c.next, plain)))
  }

  function UnprotectMedia(prim: Primitives, keys: ChannelKeys, c: Counter, channel: Byte, flags: Byte, pts: nat,
                          envelope: seq<Byte>, expired: bool): Result<seq<Byte>> {
    var size := |envelope|;
    if (channel != 1 && channel != 3) || !HasFlag(flags) || size < SEQUENCE_BYTES + MEDIA_TAG_BYTES
       || size > MAXIMUM_WIRE_PAYLOAD
    then Err(InvalidArgument)
    else if expired then Err(Expired)
    else if c.exhausted then Err(SequenceExhausted)
    else if FromBigEndian(envelope[..8]) != c.next then Err(SequenceMismatch)
    else
      var aad := AuthData(size, channel, flags, pts, c.next, MEDIA_DOMAIN);
      var s := Sealed(envelope[SEQUENCE_BYTES..size - MEDIA_TAG_BYTES], envelope[size - MEDIA_TAG_BYTES..]);
      match prim.open(keys.key, MediaNonce(keys.noncePrefix, c.next), aad, s)
      case None => Err(AuthenticationFailed)
      case Some(plain) => Ok(plain)
  }
}
