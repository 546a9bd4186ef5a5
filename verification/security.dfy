/** Keys, nonces and associated data. The primitives themselves are parameters. */
module Security {
  import opened Bytes
  import opened Frame

  datatype Label = TrafficLR | TrafficRL | Address | SetupLR | SetupRL | Confirm

  /** The cryptographic primitives. On air: key derivation, authenticated encryption, hourly address and digest.
      In pairing: public keys, key agreement, signatures, transcript hash, root derivation, proof digest and MAC. */
  datatype Crypto = Crypto(derive: (bytes32, Label) -> bytes32,
                           hour: (bytes32, u32) -> bytes32,
                           seal: (bytes32, bytes, bytes, bytes) -> bytes,
                           open: (bytes32, bytes, bytes, bytes) -> Option<bytes>,
                           addr: (bytes32, bytes8, u32) -> u32,
                           digest: bytes -> bytes,
                           pub: bytes32 -> bytes32,
                           dh: (bytes32, bytes32) -> bytes32,
                           edPub: bytes32 -> bytes32,
                           sign: (bytes32, bytes) -> bytes64,
                           verify: (bytes32, bytes, bytes64) -> bool,
                           transcript: (bytes, bytes) -> bytes32,
                           root: (bytes32, bytes32) -> bytes32,
                           sha: bytes -> bytes32,
                           mac: (bytes32, bytes) -> bytes32)

  const ROLE_L: byte := 0
  const ROLE_R: byte := 1

  function Opposite(role: byte): byte { if role == ROLE_L then ROLE_R else ROLE_L }

  /** The key under which the end `role` of a generation sends in hour `epoch`. */
  function SendKey(cr: Crypto, root: bytes32, role: byte, epoch: u32): bytes32 {
    cr.hour(cr.derive(root, if role == ROLE_L then TrafficLR else TrafficRL), epoch)
  }

  const DOMAIN_FRAME: bytes := [0x4C, 0x4D, 0x45, 0x53, 0x48, 0x2D, 0x66, 0x72, 0x61, 0x6D, 0x65, 0x2D, 0x76, 0x31]

  /** Deterministic nonce: epoch, then sequence. */
  function Nonce(epoch: u32, sequence: u64): bytes { Be32(epoch) + Be64(sequence) }

  /** Associated data: every header field but the hop count, plus the body length. */
  function FrameAad(h: Header, bodyLen: byte): bytes {
    DOMAIN_FRAME + ([h.version, h.flags] + Be32(h.dst) + Be32(h.src) + Be32(h.packetId)
                    + Be32(h.epoch) + Be64(h.sequence) + [bodyLen])
  }

  lemma NonceInjective(e: u32, s: u64, e': u32, s': u64)
    ensures Nonce(e, s) == Nonce(e', s') ==> e == e' && s == s'
  {
    hide Be32, Be64;
    var a, b := Nonce(e, s), Nonce(e', s');
    assert a[..4] == Be32(e) && b[..4] == Be32(e') && a[4..] == Be64(s) && b[4..] == Be64(s');
    Be32Injective(e, e');
    Be64Injective(s, s');
  }

  /** Relays may change the hop count and nothing else. */
  lemma AadBindsHeader(h: Header, n: byte, h': Header, n': byte)
    ensures FrameAad(h, n) == FrameAad(h', n') <==> h.(hops := 0) == h'.(hops := 0) && n == n'
  {
    hide Be32, Be64;
    var a, b := FrameAad(h, n), FrameAad(h', n');
    if a == b {
      assert a[14] == h.version && a[15] == h.flags && a[40] == n && b[14] == h'.version && b[15] == h'.flags && b[40] == n';
      assert a[16..20] == Be32(h.dst) && b[16..20] == Be32(h'.dst);
      assert a[20..24] == Be32(h.src) && b[20..24] == Be32(h'.src);
      assert a[24..28] == Be32(h.packetId) && b[24..28] == Be32(h'.packetId);
      assert a[28..32] == Be32(h.epoch) && b[28..32] == Be32(h'.epoch);
      assert a[32..40] == Be64(h.sequence) && b[32..40] == Be64(h'.sequence);
      Be32Injective(h.dst, h'.dst);
      Be32Injective(h.src, h'.src);
      Be32Injective(h.packetId, h'.packetId);
      Be32Injective(h.epoch, h'.epoch);
      Be64Injective(h.sequence, h'.sequence);
    }
  }
}
