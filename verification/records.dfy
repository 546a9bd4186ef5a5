/** The three pairing records and the order of the two ends. */
module Records {
  import opened Bytes
  import opened Security
  import opened Base64Url

  const OFFER_VERSION: byte := 1
  const RECORD_OFFER: byte := 1
  const RECORD_PROOF: byte := 2
  const RECORD_CONFIRM: byte := 3

  type payload = s: bytes | |s| == 97 witness Zeros(97)

  datatype Offer = Offer(edPub: bytes32, ephPub: bytes32, challenge: bytes32)
  datatype Proof = Proof(t: bytes32, role: byte, ct: bytes24, sig: bytes64)
  datatype Confirmation = Confirmation(t: bytes32, role: byte, mac: bytes32)

  /** A pairing attempt in RAM. */
  datatype PairAttempt = PairAttempt(ownOffer: payload, ephPriv: bytes32, peerOffer: Option<payload>, peerIdentity: Option<bytes8>,
                                     transcript: Option<bytes32>, ownRole: byte, ownProof: Option<bytes>, peerProof: Option<bytes>,
                                     ownConfirm: Option<bytes>, start: u64, slot: nat, replace: bool)

  function EncodePayload(o: Offer): payload { [OFFER_VERSION] + o.edPub + o.ephPub + o.challenge }

  function DecodePayload(b: bytes): Result<Offer, PairError> {
    if |b| != 97 then Err(BadLength)
    else if b[0] != OFFER_VERSION then Err(BadVersion)
    else Ok(Offer(b[1..33], b[33..65], b[65..97]))
  }

  function EncodeOffer(o: Offer): bytes { [RECORD_OFFER] + EncodePayload(o) }

  function DecodeOffer(r: bytes): Result<Offer, PairError> {
    if |r| != 98 then Err(BadLength) else if r[0] != RECORD_OFFER then Err(BadType) else DecodePayload(r[1..])
  }

  function EncodeProof(p: Proof): Result<bytes, PairError> {
    if p.role > 1 then Err(BadRole) else Ok([RECORD_PROOF] + p.t + [p.role] + p.ct + p.sig)
  }

  function DecodeProof(r: bytes): Result<Proof, PairError> {
    if |r| != 122 then Err(BadLength)
    else if r[0] != RECORD_PROOF then Err(BadType)
    else if r[33] > 1 then Err(BadRole)
    else Ok(Proof(r[1..33], r[33], r[34..58], r[58..122]))
  }

  function EncodeConfirmation(c: Confirmation): Result<bytes, PairError> {
    if c.role > 1 then Err(BadRole) else Ok([RECORD_CONFIRM] + c.t + [c.role] + c.mac)
  }

  function DecodeConfirmation(r: bytes): Result<Confirmation, PairError> {
    if |r| != 66 then Err(BadLength)
    else if r[0] != RECORD_CONFIRM then Err(BadType)
    else if r[33] > 1 then Err(BadRole)
    else Ok(Confirmation(r[1..33], r[33], r[34..66]))
  }

  // ---- the record codecs are bijections onto what is accepted ----

  lemma OfferRoundTrip(o: Offer)
    ensures DecodeOffer(EncodeOffer(o)) == Ok(o) && DecodePayload(EncodePayload(o)) == Ok(o)
  {
    var p, r := EncodePayload(o), EncodeOffer(o);
    assert p[1..33] == o.edPub && p[33..65] == o.ephPub && p[65..97] == o.challenge;
    assert r[1..] == p;
  }

  lemma AcceptedPayload(b: bytes)
    requires DecodePayload(b).Ok?
    ensures EncodePayload(DecodePayload(b).value) == b
  {
    assert b == [b[0]] + b[1..33] + b[33..65] + b[65..97];
  }

  lemma AcceptedOffer(r: bytes)
    requires DecodeOffer(r).Ok?
    ensures EncodeOffer(DecodeOffer(r).value) == r && EncodePayload(DecodeOffer(r).value) == r[1..]
  {
    AcceptedPayload(r[1..]);
    assert r == [r[0]] + r[1..];
  }

  /** A proof survives its record exactly when its role is one of the two. */
  lemma ProofRoundTrip(p: Proof)
    ensures EncodeProof(p).Ok? <==> p.role <= 1
    ensures EncodeProof(p).Ok? ==> DecodeProof(EncodeProof(p).value) == Ok(p)
  {
    if p.role <= 1 {
      var r := EncodeProof(p).value;
      assert r[1..33] == p.t && r[33] == p.role && r[34..58] == p.ct && r[58..122] == p.sig;
    }
  }

  lemma AcceptedProof(r: bytes)
    requires DecodeProof(r).Ok?
    ensures EncodeProof(DecodeProof(r).value) == Ok(r)
  {
    assert r == [r[0]] + r[1..33] + [r[33]] + r[34..58] + r[58..122];
  }

  lemma ConfirmationRoundTrip(c: Confirmation)
    ensures EncodeConfirmation(c).Ok? <==> c.role <= 1
    ensures EncodeConfirmation(c).Ok? ==> DecodeConfirmation(EncodeConfirmation(c).value) == Ok(c)
  {
    if c.role <= 1 {
      var r := EncodeConfirmation(c).value;
      assert r[1..33] == c.t && r[33] == c.role && r[34..66] == c.mac;
    }
  }

  lemma AcceptedConfirmation(r: bytes)
    requires DecodeConfirmation(r).Ok?
    ensures EncodeConfirmation(DecodeConfirmation(r).value) == Ok(r)
  {
    assert r == [r[0]] + r[1..33] + [r[33]] + r[34..66];
  }

  // ---- order of the two ends ----

  /** Lexicographic order on keys. */
  predicate Less(a: bytes, b: bytes) {
    b != [] && (a == [] || a[0] < b[0] || (a[0] == b[0] && Less(a[1..], b[1..])))
  }

  lemma {:induction false} OneIsLess(a: bytes, b: bytes)
    ensures a != b ==> Less(a, b) != Less(b, a)
    ensures a == b ==> !Less(a, b)
  {
    if a != [] && b != [] {
      OneIsLess(a[1..], b[1..]);
      assert a == [a[0]] + a[1..] && b == [b[0]] + b[1..];
    }
  }

  function RoleFor(own: bytes32, peer: bytes32): byte { if Less(own, peer) then ROLE_L else ROLE_R }

  /** The payload with the smaller signing key comes first. */
  function Ordered(a: payload, b: payload): (payload, payload) {
    if Less(a[1..33], b[1..33]) || a[1..33] == b[1..33] then (a, b) else (b, a)
  }

  /** Both ends order the offers alike and take opposite roles. */
  lemma EndsAgree(a: payload, b: payload)
    requires a[1..33] != b[1..33]
    ensures Ordered(a, b) == Ordered(b, a) && RoleFor(a[1..33], b[1..33]) == Opposite(RoleFor(b[1..33], a[1..33]))
  {
    OneIsLess(a[1..33], b[1..33]);
  }
}
