/** The pieces of meshlink-core the node relies on. The packet header is laid out as the parity vectors show;
    hashing, signatures, sealing and the token and payload formats stay uninterpreted. */
module Core {
  import opened Wire

  const TTL_OFFSET := 68
  const SPRAY_OFFSET := 69
  const HEADER_SIZE := 75
  const SIGNATURE_SIZE := 64
  const MIN_PACKET := 131
  const MAX_PACKET := 460
  const BROADCAST_ZONE := 0xFFFF
  const LOCATION: Byte := 0x02
  const ATTESTATION_PRESENT: Byte := 0x06

  datatype Message = Message(msgId: Bytes, senderKey: Bytes, ttl: Byte, zone: nat, msgType: Byte, payload: Bytes)

  function Word(raw: Bytes, at: nat): nat
    requires at + 2 <= |raw|
  {
    256 * (raw[at] as int) + raw[at + 1] as int
  }

  /** `parse_packet`; None is the ValueError. */
  function Parse(raw: Bytes): Option<Message> {
    if !(MIN_PACKET <= |raw| <= MAX_PACKET) then None
    else
      var n := Word(raw, 73);
      if |raw| != HEADER_SIZE + n + SIGNATURE_SIZE then None
      else Some(Message(raw[..16], raw[16..48], raw[TTL_OFFSET], Word(raw, 70), raw[72], raw[75..75 + n]))
  }

  /** The bytes the sender signs: everything but ttl, spray_L and the signature itself. */
  function SignedRegion(raw: Bytes): Bytes
    requires Parse(raw).Some?
  {
    raw[..TTL_OFFSET] + raw[SPRAY_OFFSET + 1..|raw| - SIGNATURE_SIZE]
  }

  // ------------------------------------------------------------- what the layout means

  predicate IsHopByte(k: int) {
    k == TTL_OFFSET || k == SPRAY_OFFSET
  }

  /** A packet laid out field by field: id, sender, 20 bytes the node does not look at, the two hop bytes, zone, type
      and payload length, payload and signature. */
  function LayOut(m: Message, skipped: Bytes, spray: Byte, signature: Bytes): Bytes
    requires m.zone < 0x10000 && |m.payload| < 0x10000
  {
    m.msgId + m.senderKey + skipped + [m.ttl, spray, m.zone / 256, m.zone % 256, m.msgType,
                                       |m.payload| / 256, |m.payload| % 256] + m.payload + signature
  }

  /** Parsing finds every field again, for every packet within the size limits. */
  lemma LaidOutParses(m: Message, skipped: Bytes, spray: Byte, signature: Bytes)
    requires |m.msgId| == 16 && |m.senderKey| == 32 && |skipped| == 20 && |signature| == SIGNATURE_SIZE
    requires m.zone < 0x10000 && |m.payload| < 0x10000
    ensures Parse(LayOut(m, skipped, spray, signature)) ==
            if MIN_PACKET <= HEADER_SIZE + |m.payload| + SIGNATURE_SIZE <= MAX_PACKET then Some(m) else None
  {
    var raw := LayOut(m, skipped, spray, signature);
    assert raw[..16] == m.msgId;
    assert raw[16..48] == m.senderKey;
    assert raw[68] == m.ttl && raw[70] == m.zone / 256 && raw[71] == m.zone % 256 && raw[72] == m.msgType;
    assert raw[73] == |m.payload| / 256 && raw[74] == |m.payload| % 256;
    assert Word(raw, 70) == m.zone && Word(raw, 73) == |m.payload|;
    assert raw[75..75 + |m.payload|] == m.payload;
  }

  /** What parses was laid out so. */
  lemma ParsedWasLaidOut(raw: Bytes)
    requires Parse(raw).Some?
    ensures var m := Parse(raw).value;
            && |m.msgId| == 16 && |m.senderKey| == 32 && m.zone < 0x10000 && |m.payload| < 0x10000
            && raw == LayOut(m, raw[48..68], raw[SPRAY_OFFSET], raw[|raw| - SIGNATURE_SIZE..])
  {
    var m := Parse(raw).value;
    var n := |m.payload|;
    assert n == Word(raw, 73) && 75 + n == |raw| - SIGNATURE_SIZE;
    assert raw == raw[..16] + raw[16..48] + raw[48..68] + raw[68..75] + raw[75..75 + n] + raw[75 + n..];
    assert raw[68..75] == [raw[68], raw[69], raw[70], raw[71], raw[72], raw[73], raw[74]];
    assert m.zone / 256 == raw[70] as int && m.zone % 256 == raw[71] as int;
    assert n / 256 == raw[73] as int && n % 256 == raw[74] as int;
  }

  /** The signed region covers every byte but the hop bytes and the signature, and leaves those free. */
  lemma SignedRegionCovers(raw: Bytes, raw': Bytes)
    requires Parse(raw).Some? && Parse(raw').Some? && |raw| == |raw'|
    ensures SignedRegion(raw) == SignedRegion(raw') <==>
            forall k :: 0 <= k < |raw| - SIGNATURE_SIZE && !IsHopByte(k) ==> raw[k] == raw'[k]
  {
    var a, b := SignedRegion(raw), SignedRegion(raw');
    forall k | 0 <= k < |raw| - SIGNATURE_SIZE && !IsHopByte(k)
      ensures a[if k < TTL_OFFSET then k else k - 2] == raw[k] && b[if k < TTL_OFFSET then k else k - 2] == raw'[k]
    {
    }
    if forall k :: 0 <= k < |raw| - SIGNATURE_SIZE && !IsHopByte(k) ==> raw[k] == raw'[k] {
      forall i | 0 <= i < |a| ensures a[i] == b[i] {
        var k := if i < TTL_OFFSET then i else i + 2;
        assert !IsHopByte(k);
      }
    }
  }

  // ------------------------------------------------------------------- tokens and answers

  datatype Token = Token(issuer: Bytes, grantee: Bytes, issuedAt: int, nonce: Bytes)

  datatype RevocationKey = RevocationKey(issuer: Bytes, grantee: Bytes, issuedAt: int, nonce: Bytes)

  function KeyOf(t: Token): RevocationKey {
    RevocationKey(t.issuer, t.grantee, t.issuedAt, t.nonce)
  }

  /** A revocation key names one grant, and its issuer. */
  lemma KeyNamesGrant(t: Token, t': Token)
    ensures KeyOf(t) == KeyOf(t') <==> t == t'
    ensures KeyOf(t).issuer == t.issuer && KeyOf(t).grantee == t.grantee
  {
  }

  datatype Fix = Fix(lat: int, lon: int, accuracy: int)

  /** What a node signs and sends of its own: the header fields it chooses, and the payload. */
  datatype Envelope = Envelope(ttl: Byte, spray: Byte, zone: nat, msgType: Byte, payload: Bytes)

  /** A LOCATION_RESPONSE before sealing. */
  datatype Answer = Answer(target: Bytes, fix: Fix, age: int, zone: nat)

  /** Any hash, any signature scheme, any payload formats. `verify` takes the raw token, the issuer's key, the
      grantee's key and the time. */
  datatype Crypto = Crypto(
    pubkeyId: Bytes -> Bytes,
    verify: (Bytes, Bytes, Bytes, int) -> bool,
    parseToken: Bytes -> Option<Token>,
    decodeBeacon: Bytes -> Option<Fix>,
    decodeQuery: Bytes -> Option<Bytes>,
    decodeRevoke: Bytes -> Option<RevocationKey>,
    seal: (Answer, Bytes, Bytes) -> Bytes,
    sign: Envelope -> Bytes,
    queryType: Byte,
    responseType: Byte,
    revokeType: Byte)

  function TypeOf(raw: Bytes): Option<Byte> {
    match Parse(raw)
    case None => None
    case Some(m) => Some(m.msgType)
  }

  /** `sign` builds a packet of the type asked for, and a LOCATION_RESPONSE is neither a beacon nor a token
      presentation. */
  ghost predicate SignsResponses(c: Crypto) {
    && c.responseType != LOCATION && c.responseType != ATTESTATION_PRESENT
    && forall e :: TypeOf(c.sign(e)) == Some(e.msgType)
  }
}
