/** The in-person pairing ceremony of two boards. */
module Ceremony {
  import opened Bytes
  import opened Security
  import opened Persist
  import opened Engine
  import opened Records

  const EXPIRY_SECS: nat := 600
  const DOMAIN_PROOF: bytes := [0x4C, 0x4D, 0x45, 0x53, 0x48, 0x2D, 0x70, 0x72, 0x6F, 0x6F, 0x66, 0x2D, 0x76, 0x31]
  const DOMAIN_CONFIRM: bytes := [0x4C, 0x4D, 0x45, 0x53, 0x48, 0x2D, 0x63, 0x6F, 0x6E, 0x66, 0x69, 0x72, 0x6D, 0x2D, 0x76, 0x31]

  /** A backwards clock counts as not expired. */
  predicate Expired(start: u64, now: u64) { now >= start + EXPIRY_SECS }

  function Guard(s: State): Option<EngineError> {
    if CheckUsable(s).Some? then CheckUsable(s) else if s.radioOn then Some(RadioMustBeOff) else None
  }

  function FreeSlot(cs: Contacts, i: nat): Option<nat>
    requires i <= MAX_CONTACTS
    decreases MAX_CONTACTS - i
  {
    if i == MAX_CONTACTS then None else if !cs[i].present then Some(i) else FreeSlot(cs, i + 1)
  }

  predicate KnownPeer(cs: Contacts, edPeer: bytes32) { exists i :: 0 <= i < MAX_CONTACTS && cs[i].present && cs[i].edPeer == edPeer }

  function NewAttempt(cr: Crypto, b: State, ephPriv: bytes32, ephPub: bytes32, challenge: bytes32, slot: nat): PairAttempt {
    PairAttempt(EncodePayload(Offer(cr.edPub(b.signPriv), ephPub, challenge)), ephPriv, None, None, None, ROLE_L, None, None, None,
                b.monoS, slot, false)
  }

  function PairOffer(cr: Crypto, b: State, ephPriv: bytes32, ephPub: bytes32, challenge: bytes32): Step<Result<bytes, EngineError>> {
    if Guard(b).Some? then Step(b, Err(Guard(b).value))
    else if b.attempt.Some? && !Expired(b.attempt.value.start, b.monoS) then Step(b, Ok([RECORD_OFFER] + b.attempt.value.ownOffer))
    else if !b.signSet then Step(b, Err(Unprovisioned))
    else if ephPub == Zeros(32) then Step(b, Err(BadRequest))
    else
      match FreeSlot(b.contacts, 0)
      case None => Step(b, Err(NoSlot))
      case Some(slot) =>
        var a := NewAttempt(cr, b, ephPriv, ephPub, challenge, slot);
        Step(b.(attempt := Some(a)), Ok([RECORD_OFFER] + a.ownOffer))
  }

  /** The transcript hash of two offers, whichever end computes it. */
  function Transcript(cr: Crypto, own: payload, peer: payload): bytes32 {
    var o := Ordered(own, peer);
    cr.transcript(o.0, o.1)
  }

  /** The attempt after importing the peer's offer. */
  function WithOffer(cr: Crypto, cs: Contacts, a: PairAttempt, record: bytes, replace: bool): Result<PairAttempt, EngineError> {
    match DecodeOffer(record)
    case Err(_) => Err(BadRequest)
    case Ok(offer) =>
      match DecodePayload(a.ownOffer)
      case Err(_) => Err(StorageFault)
      case Ok(own) =>
        if own.edPub == offer.edPub || KnownPeer(cs, offer.edPub) then Err(BadRequest)
        else if !replace && FreeSlot(cs, 0).None? then Err(NoSlot)
        else
          var peer := EncodePayload(offer);
          Ok(a.(peerOffer := Some(peer), transcript := Some(Transcript(cr, a.ownOffer, peer)),
                ownRole := RoleFor(own.edPub, offer.edPub),
                slot := if replace then a.slot else FreeSlot(cs, 0).value, replace := replace))
  }

  /** Root of the generation; an all-zero agreement is refused. */
  function PairRoot(cr: Crypto, a: PairAttempt, t: bytes32): Result<bytes32, EngineError> {
    if a.peerOffer.None? || DecodePayload(a.peerOffer.value).Err? then Err(BadRequest)
    else
      var dh := cr.dh(a.ephPriv, DecodePayload(a.peerOffer.value).value.ephPub);
      if dh == Zeros(32) then Err(BadRequest) else Ok(cr.root(dh, t))
  }

  function SetupKey(cr: Crypto, root: bytes32, role: byte): bytes32 {
    cr.derive(root, if role == ROLE_L then SetupLR else SetupRL)
  }

  function ProofAad(t: bytes32, role: byte): bytes { t + [role] }

  function ProofMessage(t: bytes32, role: byte, ct: bytes): bytes { DOMAIN_PROOF + t + [role] + ct }

  /** Common entry of the exports: the attempt must exist, be fresh and have imported an offer. */
  function Ready(b: State): Option<EngineError> {
    if Guard(b).Some? then Guard(b)
    else if b.attempt.None? then Some(PairingAbsent)
    else if Expired(b.attempt.value.start, b.monoS) then Some(PairingExpired)
    else if b.attempt.value.transcript.None? then Some(BadRequest)
    else None
  }

  /** Our proof, made once and then repeated. */
  function MadeProof(cr: Crypto, s: State, a: PairAttempt, t: bytes32): Result<bytes, EngineError> {
    if a.ownProof.Some? then Ok(a.ownProof.value)
    else
      match PairRoot(cr, a, t)
      case Err(e) => Err(e)
      case Ok(root) =>
        if !s.uidSet then Err(Unprovisioned)
        else
          var ct := cr.seal(SetupKey(cr, root, a.ownRole), Zeros(12), ProofAad(t, a.ownRole), s.uid);
          if |ct| != 24 then Err(StorageFault)
          else
            match EncodeProof(Proof(t, a.ownRole, ct, cr.sign(s.signPriv, ProofMessage(t, a.ownRole, ct))))
            case Err(_) => Err(BadRequest)
            case Ok(rec) => Ok(rec)
  }

  function PairProof(cr: Crypto, b: State): Step<Result<bytes, EngineError>> {
    if Ready(b).Some? then Step(b, Err(Ready(b).value))
    else
      var a := b.attempt.value;
      match MadeProof(cr, b, a, a.transcript.value)
      case Err(e) => Step(b, Err(e))
      case Ok(rec) => Step(b.(attempt := Some(a.(ownProof := Some(rec)))), Ok(rec))
  }

  /** The identity sealed in a proof, under the setup key of the end that made it. */
  function OpenProof(cr: Crypto, a: PairAttempt, t: bytes32, role: byte, ct: bytes24): Result<bytes8, EngineError> {
    match PairRoot(cr, a, t)
    case Err(e) => Err(e)
    case Ok(root) =>
      var pt := cr.open(SetupKey(cr, root, role), Zeros(12), ProofAad(t, role), ct);
      if pt.None? || |pt.value| != 8 then Err(BadRequest) else Ok(pt.value)
  }

  /** The attempt after importing the peer's proof. */
  function WithProof(cr: Crypto, a: PairAttempt, record: bytes): Result<PairAttempt, EngineError> {
    match DecodeProof(record)
    case Err(_) => Err(BadRequest)
    case Ok(p) =>
      if a.transcript != Some(p.t) || p.role == a.ownRole then Err(BadRequest)
      else if a.peerOffer.None? || DecodePayload(a.peerOffer.value).Err? then Err(BadRequest)
      else if !cr.verify(DecodePayload(a.peerOffer.value).value.edPub, ProofMessage(p.t, p.role, p.ct), p.sig) then Err(BadRequest)
      else
        match OpenProof(cr, a, p.t, p.role, p.ct)
        case Err(e) => Err(e)
        case Ok(id) => Ok(a.(peerProof := Some(record), peerIdentity := Some(id)))
  }

  /** Digest of both proofs, the one of end L first. */
  function ProofsDigest(cr: Crypto, role: byte, own: bytes, peer: bytes): bytes32 {
    cr.sha(if role == ROLE_L then own + peer else peer + own)
  }

  function ConfirmMac(cr: Crypto, root: bytes32, t: bytes32, role: byte, digest: bytes32): bytes32 {
    cr.mac(cr.derive(root, Confirm), DOMAIN_CONFIRM + t + [role] + digest)
  }

  /** Our confirmation, made once and then repeated. */
  function MadeConfirm(cr: Crypto, a: PairAttempt, t: bytes32): Result<bytes, EngineError> {
    if a.peerProof.None? then Err(BadRequest)
    else if a.ownConfirm.Some? then Ok(a.ownConfirm.value)
    else if a.ownProof.None? then Err(BadRequest)
    else
      match PairRoot(cr, a, t)
      case Err(e) => Err(e)
      case Ok(root) =>
        var mac := ConfirmMac(cr, root, t, a.ownRole, ProofsDigest(cr, a.ownRole, a.ownProof.value, a.peerProof.value));
        match EncodeConfirmation(Confirmation(t, a.ownRole, mac))
        case Err(_) => Err(BadRequest)
        case Ok(rec) => Ok(rec)
  }

  function PairConfirm(cr: Crypto, b: State): Step<Result<bytes, EngineError>> {
    if Ready(b).Some? then Step(b, Err(Ready(b).value))
    else
      var a := b.attempt.value;
      match MadeConfirm(cr, a, a.transcript.value)
      case Err(e) => Step(b, Err(e))
      case Ok(rec) => Step(b.(attempt := Some(a.(ownConfirm := Some(rec)))), Ok(rec))
  }

  /** What a confirmation proves: the root shared with the peer, and the peer's identity. */
  function Confirmed(cr: Crypto, a: PairAttempt, record: bytes): Result<(bytes32, bytes8), EngineError> {
    match DecodeConfirmation(record)
    case Err(_) => Err(BadRequest)
    case Ok(c) =>
      if a.transcript != Some(c.t) || c.role == a.ownRole || a.ownProof.None? || a.peerProof.None? then Err(BadRequest)
      else
        var t := c.t;
        match PairRoot(cr, a, t)
        case Err(e) => Err(e)
        case Ok(root) =>
          if c.mac != ConfirmMac(cr, root, t, c.role, ProofsDigest(cr, a.ownRole, a.ownProof.value, a.peerProof.value)) then Err(BadRequest)
          else if a.peerIdentity.None? || DecodeProof(a.peerProof.value).Err? then Err(BadRequest)
          else
            match OpenProof(cr, a, t, c.role, DecodeProof(a.peerProof.value).value.ct)
            case Err(_) => Err(BadRequest)
            case Ok(id) => if Some(id) != a.peerIdentity then Err(BadRequest) else Ok((root, id))
  }

  /** The signing key in the peer's offer. */
  function PeerEd(a: PairAttempt): bytes32 {
    if a.peerOffer.Some? && DecodePayload(a.peerOffer.value).Ok? then DecodePayload(a.peerOffer.value).value.edPub else Zeros(32)
  }

  /** Activates the contact; the snapshot is staged, and the attempt lives on until its commit. */
  function ImportConfirm(cr: Crypto, b: State, record: bytes): Step<Result<nat, EngineError>>
    requires b.attempt.Some?
  {
    var a := b.attempt.value;
    match Confirmed(cr, a, record)
    case Err(e) => Step(b, Err(e))
    case Ok(c) =>
      var r := Activate(b, a.slot, PeerEd(a), c.1, c.0, a.ownRole);
      if r.result.Some? then Step(b, Err(r.result.value)) else Step(r.state, Ok(a.slot))
  }

  /** The attempt is replaced or the import refused. */
  function Settle(b: State, r: Result<PairAttempt, EngineError>): Step<Result<Option<nat>, EngineError>> {
    match r
    case Err(e) => Step(b, Err(e))
    case Ok(a) => Step(b.(attempt := Some(a)), Ok(None))
  }

  /** `pair_import_sas`: a confirmation needs the spoken comparison of transcripts. */
  function Import(cr: Crypto, b: State, record: bytes, replace: bool, sasMatch: bool): Step<Result<Option<nat>, EngineError>> {
    if Guard(b).Some? then Step(b, Err(Guard(b).value))
    else if b.attempt.None? then Step(b, Err(PairingAbsent))
    else if Expired(b.attempt.value.start, b.monoS) then Step(b, Err(PairingExpired))
    else if record == [] then Step(b, Err(BadRequest))
    else if record[0] == RECORD_CONFIRM && !sasMatch then Step(b, Err(SasMismatch))
    else if record[0] == RECORD_OFFER then Settle(b, WithOffer(cr, b.contacts, b.attempt.value, record, replace))
    else if record[0] == RECORD_PROOF then Settle(b, WithProof(cr, b.attempt.value, record))
    else if record[0] == RECORD_CONFIRM then
      var r := ImportConfirm(cr, b, record);
      Step(r.state, if r.result.Ok? then Ok(Some(r.result.value)) else Err(r.result.error))
    else Step(b, Err(BadRequest))
  }

  // ---- what an attempt keeps ----

  /** Key agreement is symmetric. */
  ghost predicate Symmetric(cr: Crypto) { forall a: bytes32, b: bytes32 :: cr.dh(a, cr.pub(b)) == cr.dh(b, cr.pub(a)) }

  /** What an attempt holds once an offer has been imported. */
  predicate Settled(cr: Crypto, a: PairAttempt) {
    && DecodePayload(a.ownOffer).Ok? && a.peerOffer.Some? && DecodePayload(a.peerOffer.value).Ok?
    && var (own, peer) := (DecodePayload(a.ownOffer).value, DecodePayload(a.peerOffer.value).value);
       && own.edPub != peer.edPub && own.ephPub == cr.pub(a.ephPriv)
       && a.transcript == Some(Transcript(cr, a.ownOffer, a.peerOffer.value))
       && a.ownRole == RoleFor(own.edPub, peer.edPub)
  }

  /** Nothing imported yet, or settled. */
  predicate AttemptOk(cr: Crypto, a: PairAttempt) {
    && DecodePayload(a.ownOffer).Ok? && DecodePayload(a.ownOffer).value.ephPub == cr.pub(a.ephPriv)
    && if a.peerOffer.None? then a.transcript.None? else Settled(cr, a)
  }

  /** An offer changes the attempt alone, and only to one that has imported nothing yet. */
  lemma OfferedOk(cr: Crypto, b: State, ephPriv: bytes32, challenge: bytes32)
    ensures var t := PairOffer(cr, b, ephPriv, cr.pub(ephPriv), challenge).state;
            t == b || exists slot: nat :: t == b.(attempt := Some(NewAttempt(cr, b, ephPriv, cr.pub(ephPriv), challenge, slot)))
  {
    hide FreeSlot, NewAttempt, Guard;
  }

  lemma NewAttemptOk(cr: Crypto, b: State, ephPriv: bytes32, challenge: bytes32, slot: nat)
    ensures var a := NewAttempt(cr, b, ephPriv, cr.pub(ephPriv), challenge, slot);
            AttemptOk(cr, a) && a.peerOffer.None? && a.ownOffer == EncodePayload(OfferOf(cr, b, ephPriv, challenge))
  {
    OfferRoundTrip(Offer(cr.edPub(b.signPriv), cr.pub(ephPriv), challenge));
    hide EncodePayload, DecodePayload;
  }

  /** Importing an offer leaves an attempt whose transcript and role fit both offers, for a peer no slot knows. */
  lemma WithOfferOk(cr: Crypto, cs: Contacts, a: PairAttempt, record: bytes, replace: bool)
    requires AttemptOk(cr, a) && WithOffer(cr, cs, a, record, replace).Ok?
    ensures var c := WithOffer(cr, cs, a, record, replace).value;
            && Settled(cr, c) && c.ownOffer == a.ownOffer && !KnownPeer(cs, PeerEd(c)) && c.ownProof == a.ownProof
  {
    OfferRoundTrip(DecodeOffer(record).value);
    hide FreeSlot, KnownPeer, EncodePayload, DecodePayload, DecodeOffer, Transcript, RoleFor;
  }

  /** The terms of a pairing: both offers, the transcript, the role and the slot. */
  predicate SameTerms(a: PairAttempt, c: PairAttempt) {
    c.ownOffer == a.ownOffer && c.ephPriv == a.ephPriv && c.peerOffer == a.peerOffer && c.transcript == a.transcript
    && c.ownRole == a.ownRole && c.slot == a.slot && c.start == a.start
  }

  /** The exports change no more than the record they repeat. */
  lemma ExportsKeepTerms(cr: Crypto, b: State)
    requires b.attempt.Some?
    ensures exists p :: PairProof(cr, b).state == b.(attempt := Some(b.attempt.value.(ownProof := p)))
    ensures exists p :: PairConfirm(cr, b).state == b.(attempt := Some(b.attempt.value.(ownConfirm := p)))
  {
    hide MadeProof, MadeConfirm, Guard, Ready;
    SameAttempt(b, b.attempt.value.ownProof, b.attempt.value.ownConfirm);
  }

  lemma SameAttempt(b: State, p: Option<bytes>, q: Option<bytes>)
    requires b.attempt.Some? && b.attempt.value.ownProof == p && b.attempt.value.ownConfirm == q
    ensures b == b.(attempt := Some(b.attempt.value.(ownProof := p))) == b.(attempt := Some(b.attempt.value.(ownConfirm := q)))
  {}

  /** What importing anything but an offer can do. */
  lemma ImportByKind(cr: Crypto, b: State, record: bytes, replace: bool, sasMatch: bool)
    requires record == [] || record[0] != RECORD_OFFER
    ensures var t := Import(cr, b, record, replace, sasMatch).state;
            || t == b
            || (b.attempt.Some? && t == Settle(b, WithProof(cr, b.attempt.value, record)).state)
            || (&& b.attempt.Some? && t == ImportConfirm(cr, b, record).state
                && sasMatch && Guard(b).None? && !Expired(b.attempt.value.start, b.monoS) && record != [] && record[0] == RECORD_CONFIRM)
  {
    hide Guard, WithOffer, WithProof, ImportConfirm, Expired;
  }

  /** Only an offer can change the terms of an attempt. */
  lemma OnlyOffersChangeTerms(cr: Crypto, b: State, record: bytes, replace: bool, sasMatch: bool)
    requires b.attempt.Some? && record != [] && record[0] != RECORD_OFFER
    ensures var t := Import(cr, b, record, replace, sasMatch).state; t.attempt.Some? && SameTerms(b.attempt.value, t.attempt.value)
  {
    hide Guard, WithOffer, WithProof, ImportConfirm, SameTerms, Import, Expired;
    ImportByKind(cr, b, record, replace, sasMatch);
    SameTermsSelf(b.attempt.value);
    if WithProof(cr, b.attempt.value, record).Ok? { WithProofTerms(cr, b.attempt.value, record); }
    ConfirmKeepsAttempt(cr, b, record);
  }

  /** No import changes anything but the attempt, unless it is a good confirmation with the spoken comparison made, in
      time and with the radio off. */
  lemma ActivationNeedsComparison(cr: Crypto, b: State, record: bytes, replace: bool, sasMatch: bool)
    ensures var t := Import(cr, b, record, replace, sasMatch).state;
            t != b.(attempt := t.attempt) ==>
              && sasMatch && Guard(b).None? && b.attempt.Some? && !Expired(b.attempt.value.start, b.monoS)
              && record != [] && record[0] == RECORD_CONFIRM && Confirmed(cr, b.attempt.value, record).Ok?
  {
    hide Guard, WithOffer, WithProof, Import, Expired, Confirmed, Activate;
    if record != [] && record[0] == RECORD_OFFER {
      OfferImport(cr, b, record, replace, sasMatch);
    } else {
      ImportByKind(cr, b, record, replace, sasMatch);
    }
  }

  lemma OfferImport(cr: Crypto, b: State, record: bytes, replace: bool, sasMatch: bool)
    requires record != [] && record[0] == RECORD_OFFER
    ensures var t := Import(cr, b, record, replace, sasMatch).state; t == b.(attempt := t.attempt)
  {
    hide Guard, WithOffer, WithProof, ImportConfirm, Expired, Settle;
    if b.attempt.Some? { SettleKeeps(b, WithOffer(cr, b.contacts, b.attempt.value, record, replace)); }
  }

  lemma SettleKeeps(b: State, r: Result<PairAttempt, EngineError>)
    ensures Settle(b, r).state == b.(attempt := Settle(b, r).state.attempt)
  {}

  lemma SameTermsSelf(a: PairAttempt)
    ensures SameTerms(a, a)
  {}

  lemma WithProofTerms(cr: Crypto, a: PairAttempt, record: bytes)
    requires WithProof(cr, a, record).Ok?
    ensures SameTerms(a, WithProof(cr, a, record).value)
  {
    hide DecodeProof, DecodePayload, OpenProof, ProofMessage;
  }

  lemma ConfirmKeepsAttempt(cr: Crypto, b: State, record: bytes)
    requires b.attempt.Some?
    ensures var r := ImportConfirm(cr, b, record); r.state.attempt == b.attempt && (r.result.Err? ==> r.state == b)
  {
    hide Confirmed, Stage, NewContact, EpochOf, DecodePayload;
  }

  // ---- agreement ----

  /** Each holds the other's offer. */
  predicate Crossed(a: PairAttempt, b: PairAttempt) { a.peerOffer == Some(b.ownOffer) && b.peerOffer == Some(a.ownOffer) }

  /** Two attempts that hold each other's offers agree on the transcript, on the root and on all keys, with opposite roles. */
  lemma AttemptsAgree(cr: Crypto, a: PairAttempt, b: PairAttempt)
    requires Symmetric(cr) && Settled(cr, a) && Settled(cr, b) && Crossed(a, b)
    ensures a.transcript == b.transcript && a.transcript.Some? && a.ownRole == Opposite(b.ownRole) && a.ownRole != b.ownRole
    ensures PairRoot(cr, a, a.transcript.value) == PairRoot(cr, b, b.transcript.value)
  {
    EndsAgree(a.ownOffer, b.ownOffer);
    hide Less, Transcript;
    assert Transcript(cr, a.ownOffer, b.ownOffer) == Transcript(cr, b.ownOffer, a.ownOffer) by { TranscriptSymmetric(cr, a.ownOffer, b.ownOffer); }
    var x, y := DecodePayload(a.ownOffer).value, DecodePayload(b.ownOffer).value;
    assert cr.dh(a.ephPriv, y.ephPub) == cr.dh(b.ephPriv, x.ephPub);
  }

  lemma TranscriptSymmetric(cr: Crypto, p: payload, q: payload)
    requires Ordered(p, q) == Ordered(q, p)
    ensures Transcript(cr, p, q) == Transcript(cr, q, p)
  {}

  /** If both ends activate on crossed offers, what one sends the other can open, in both directions and in every hour. */
  lemma ActivatedEndsAgree(cr: Crypto, a: State, b: State, toA: bytes, toB: bytes, e: u32)
    requires Symmetric(cr) && a.attempt.Some? && b.attempt.Some?
    requires Settled(cr, a.attempt.value) && Settled(cr, b.attempt.value) && Crossed(a.attempt.value, b.attempt.value)
    requires ImportConfirm(cr, a, toA).result.Ok? && ImportConfirm(cr, b, toB).result.Ok?
    ensures var (ra, rb) := (ImportConfirm(cr, a, toA), ImportConfirm(cr, b, toB));
            && ra.result.value < MAX_CONTACTS && rb.result.value < MAX_CONTACTS
            && var (ca, cb) := (ra.state.contacts[ra.result.value], rb.state.contacts[rb.result.value]);
               && ca.present && cb.present && ca.root == cb.root && ca.role == Opposite(cb.role)
               && OutgoingKey(cr, ca, e) == IncomingKey(cr, cb, e)
               && OutgoingKey(cr, cb, e) == IncomingKey(cr, ca, e)
  {
    hide Symmetric, Settled, Crossed, ImportConfirm, PairRoot;
    AttemptsAgree(cr, a.attempt.value, b.attempt.value);
    Activated(cr, a, toA);
    Activated(cr, b, toB);
  }

  /** What activation does: a new contact in the slot of the attempt, under the root of its terms. */
  lemma Activated(cr: Crypto, b: State, record: bytes)
    requires b.attempt.Some? && ImportConfirm(cr, b, record).result.Ok?
    ensures var (a, r) := (b.attempt.value, ImportConfirm(cr, b, record));
            && r.result.value == a.slot < MAX_CONTACTS && a.peerIdentity.Some? && a.transcript.Some?
            && PairRoot(cr, a, a.transcript.value).Ok?
            && var root := PairRoot(cr, a, a.transcript.value).value;
               && r.state == Activate(b, a.slot, PeerEd(a), a.peerIdentity.value, root, a.ownRole).state
               && Activate(b, a.slot, PeerEd(a), a.peerIdentity.value, root, a.ownRole).result.None?
               && r.state.contacts == b.contacts[a.slot := NewContact(PeerEd(a), a.peerIdentity.value, root, a.ownRole, EpochOf(b))]
  {
    ConfirmedMeans(cr, b.attempt.value, record);
    hide Confirmed, PairRoot, PeerEd, Stage, EpochOf, NewContact;
  }

  lemma ConfirmedMeans(cr: Crypto, a: PairAttempt, record: bytes)
    requires Confirmed(cr, a, record).Ok?
    ensures a.transcript.Some? && a.peerIdentity.Some?
    ensures PairRoot(cr, a, a.transcript.value) == Ok(Confirmed(cr, a, record).value.0) && Confirmed(cr, a, record).value.1 == a.peerIdentity.value
  {
    hide PairRoot, OpenProof, DecodeProof, DecodeConfirmation, ConfirmMac, ProofsDigest;
  }

  // ---- an honest ceremony succeeds ----

  /** Sealing adds the tag, and what is sealed opens again. */
  ghost predicate Sound(cr: Crypto) {
    forall k, n, a, p :: |cr.seal(k, n, a, p)| == |p| + 16 && cr.open(k, n, a, cr.seal(k, n, a, p)) == Some(p)
  }

  /** Sealing is sound, signatures verify, key agreement is symmetric. */
  ghost predicate Correct(cr: Crypto) { Symmetric(cr) && Sound(cr) && forall k, m :: cr.verify(cr.edPub(k), m, cr.sign(k, m)) }

  /** A provisioned board, radio off, with a free slot and no attempt running. */
  predicate Willing(b: State) {
    b.attempt.None? && Guard(b).None? && b.signSet && b.uidSet && FreeSlot(b.contacts, 0).Some?
  }

  lemma {:induction false} FreeSlotInRange(cs: Contacts, i: nat)
    requires i <= MAX_CONTACTS
    ensures FreeSlot(cs, i).Some? ==> i <= FreeSlot(cs, i).value < MAX_CONTACTS && !cs[FreeSlot(cs, i).value].present
    decreases MAX_CONTACTS - i
  {
    if i < MAX_CONTACTS { FreeSlotInRange(cs, i + 1); }
  }

  function OfferOf(cr: Crypto, s: State, ephPriv: bytes32, challenge: bytes32): Offer {
    Offer(cr.edPub(s.signPriv), cr.pub(ephPriv), challenge)
  }

  /** The attempt of board `s` after offering and importing `peer`. */
  predicate Introduced(cr: Crypto, s: State, a: PairAttempt, ephPriv: bytes32, challenge: bytes32, peer: Offer) {
    && Settled(cr, a) && a.ephPriv == ephPriv && a.ownOffer == EncodePayload(OfferOf(cr, s, ephPriv, challenge))
    && a.peerOffer == Some(EncodePayload(peer)) && DecodePayload(EncodePayload(peer)) == Ok(peer)
    && a.start == s.monoS && FreeSlot(s.contacts, 0) == Some(a.slot) && a.slot < MAX_CONTACTS
    && a.ownProof.None? && a.peerProof.None? && a.ownConfirm.None?
  }

  lemma IntroducedBy(cr: Crypto, b: State, ephPriv: bytes32, challenge: bytes32, peer: Offer)
    requires Willing(b) && cr.pub(ephPriv) != Zeros(32) && cr.edPub(b.signPriv) != peer.edPub && !KnownPeer(b.contacts, peer.edPub)
    ensures var o := PairOffer(cr, b, ephPriv, cr.pub(ephPriv), challenge);
            && o.result == Ok(EncodeOffer(OfferOf(cr, b, ephPriv, challenge))) && o.state.attempt.Some?
            && o.state == b.(attempt := o.state.attempt) && o.state.attempt.value.start == b.monoS
            && var r := WithOffer(cr, b.contacts, o.state.attempt.value, EncodeOffer(peer), false);
               r.Ok? && Introduced(cr, b, r.value, ephPriv, challenge, peer)
  {
    OfferRoundTrip(OfferOf(cr, b, ephPriv, challenge));
    OfferRoundTrip(peer);
    FreeSlotInRange(b.contacts, 0);
    var p := EncodePayload(OfferOf(cr, b, ephPriv, challenge));
    assert EncodeOffer(OfferOf(cr, b, ephPriv, challenge)) == [RECORD_OFFER] + p;
    hide FreeSlot, KnownPeer, EncodePayload, DecodePayload, EncodeOffer, DecodeOffer, Transcript, RoleFor, Zeros, Guard;
  }

  /** The proof that an introduced board makes. */
  function ProofOf(cr: Crypto, s: State, a: PairAttempt, root: bytes32): Proof
    requires a.transcript.Some? && |cr.seal(SetupKey(cr, root, a.ownRole), Zeros(12), ProofAad(a.transcript.value, a.ownRole), s.uid)| == 24
  {
    var t := a.transcript.value;
    var ct := cr.seal(SetupKey(cr, root, a.ownRole), Zeros(12), ProofAad(t, a.ownRole), s.uid);
    Proof(t, a.ownRole, ct, cr.sign(s.signPriv, ProofMessage(t, a.ownRole, ct)))
  }

  lemma ProofMade(cr: Crypto, s: State, a: PairAttempt, root: bytes32)
    requires Correct(cr) && s.uidSet && a.ownProof.None? && a.ownRole <= 1 && a.transcript.Some?
    requires PairRoot(cr, a, a.transcript.value) == Ok(root)
    ensures |cr.seal(SetupKey(cr, root, a.ownRole), Zeros(12), ProofAad(a.transcript.value, a.ownRole), s.uid)| == 24
    ensures var r := MadeProof(cr, s, a, a.transcript.value); r.Ok? && DecodeProof(r.value) == Ok(ProofOf(cr, s, a, root))
  {
    hide PairRoot, EncodeProof, DecodeProof, SetupKey, ProofAad, ProofMessage, Zeros, Symmetric;
    ProofRoundTrip(ProofOf(cr, s, a, root));
  }

  /** A proof by the other end, sealed under the same root, reveals that end's identity. */
  lemma ProofTaken(cr: Crypto, a: PairAttempt, record: bytes, peer: State, b: PairAttempt, root: bytes32)
    requires Correct(cr) && b.transcript.Some?
    requires |cr.seal(SetupKey(cr, root, b.ownRole), Zeros(12), ProofAad(b.transcript.value, b.ownRole), peer.uid)| == 24
    requires DecodeProof(record) == Ok(ProofOf(cr, peer, b, root))
    requires a.transcript == b.transcript && a.ownRole != b.ownRole && a.peerOffer.Some? && DecodePayload(a.peerOffer.value).Ok?
    requires DecodePayload(a.peerOffer.value).value.edPub == cr.edPub(peer.signPriv)
    requires PairRoot(cr, a, b.transcript.value) == Ok(root)
    ensures WithProof(cr, a, record) == Ok(a.(peerProof := Some(record), peerIdentity := Some(peer.uid)))
  {
    hide PairRoot, DecodeProof, DecodePayload, SetupKey, ProofAad, ProofMessage, Zeros, Symmetric;
  }

  lemma ConfirmMade(cr: Crypto, a: PairAttempt, root: bytes32)
    requires a.transcript.Some? && a.ownRole <= 1 && a.ownProof.Some? && a.peerProof.Some? && a.ownConfirm.None?
    requires PairRoot(cr, a, a.transcript.value) == Ok(root)
    ensures var (t, r) := (a.transcript.value, MadeConfirm(cr, a, a.transcript.value));
            r.Ok? && DecodeConfirmation(r.value) ==
                     Ok(Confirmation(t, a.ownRole, ConfirmMac(cr, root, t, a.ownRole, ProofsDigest(cr, a.ownRole, a.ownProof.value, a.peerProof.value))))
  {
    hide PairRoot, EncodeConfirmation, DecodeConfirmation, ConfirmMac, ProofsDigest;
    var t := a.transcript.value;
    ConfirmationRoundTrip(Confirmation(t, a.ownRole, ConfirmMac(cr, root, t, a.ownRole, ProofsDigest(cr, a.ownRole, a.ownProof.value, a.peerProof.value))));
  }

  lemma ConfirmTaken(cr: Crypto, a: PairAttempt, record: bytes, peer: State, b: PairAttempt, root: bytes32)
    requires Correct(cr) && b.transcript.Some?
    requires |cr.seal(SetupKey(cr, root, b.ownRole), Zeros(12), ProofAad(b.transcript.value, b.ownRole), peer.uid)| == 24
    requires a.transcript == b.transcript && a.ownRole != b.ownRole && a.ownProof.Some? && a.peerProof.Some?
    requires PairRoot(cr, a, a.transcript.value) == Ok(root) && a.peerIdentity == Some(peer.uid)
    requires DecodeProof(a.peerProof.value) == Ok(ProofOf(cr, peer, b, root))
    requires DecodeConfirmation(record) ==
             Ok(Confirmation(a.transcript.value, b.ownRole,
                             ConfirmMac(cr, root, a.transcript.value, b.ownRole, ProofsDigest(cr, a.ownRole, a.ownProof.value, a.peerProof.value))))
    ensures Confirmed(cr, a, record) == Ok((root, peer.uid))
  {
    hide PairRoot, DecodeProof, DecodeConfirmation, SetupKey, ProofAad, ProofMessage, Zeros, Symmetric, ConfirmMac, ProofsDigest;
  }

  /** What one board hands over. */
  datatype Papers = Papers(offer: bytes, proof: bytes, confirmation: bytes)

  /** The six calls of one board succeed on the papers of the other and export its own. */
  predicate Side(cr: Crypto, s: State, ephPriv: bytes32, challenge: bytes32, theirs: Papers, own: Papers, fin: State, slot: nat) {
    var r1 := PairOffer(cr, s, ephPriv, cr.pub(ephPriv), challenge);
    var r2 := Import(cr, r1.state, theirs.offer, false, false);
    var r3 := PairProof(cr, r2.state);
    var r4 := Import(cr, r3.state, theirs.proof, false, false);
    var r5 := PairConfirm(cr, r4.state);
    && r1.result == Ok(own.offer) && r2.result == Ok(None) && r3.result == Ok(own.proof) && r4.result == Ok(None)
    && r5.result == Ok(own.confirmation) && Import(cr, r5.state, theirs.confirmation, false, true) == Step(fin, Ok(Some(slot)))
  }

  /** The attempt of one board through the ceremony. */
  predicate Passed(cr: Crypto, s: State, a: PairAttempt, theirs: Papers, own: Papers, root: bytes32, peerUid: bytes8) {
    && a.transcript.Some? && a.peerOffer.Some?
    && MadeProof(cr, s, a, a.transcript.value) == Ok(own.proof)
    && var b := a.(ownProof := Some(own.proof));
       && WithProof(cr, b, theirs.proof) == Ok(b.(peerProof := Some(theirs.proof), peerIdentity := Some(peerUid)))
       && var c := b.(peerProof := Some(theirs.proof), peerIdentity := Some(peerUid));
          && MadeConfirm(cr, c, a.transcript.value) == Ok(own.confirmation)
          && Confirmed(cr, c.(ownConfirm := Some(own.confirmation)), theirs.confirmation) == Ok((root, peerUid))
  }

  predicate Typed(p: Papers) {
    p.offer != [] && p.offer[0] == RECORD_OFFER && p.proof != [] && p.proof[0] == RECORD_PROOF
    && p.confirmation != [] && p.confirmation[0] == RECORD_CONFIRM
  }

  /** The calls follow the attempt. */
  lemma SideOf(cr: Crypto, s: State, ephPriv: bytes32, challenge: bytes32, theirs: Papers, own: Papers, root: bytes32, peerUid: bytes8, a: PairAttempt)
    requires Willing(s) && Typed(theirs) && own.offer == EncodeOffer(OfferOf(cr, s, ephPriv, challenge))
    requires var o := PairOffer(cr, s, ephPriv, cr.pub(ephPriv), challenge);
             && o.result == Ok(own.offer) && o.state.attempt.Some? && o.state == s.(attempt := o.state.attempt)
             && o.state.attempt.value.start == s.monoS
             && WithOffer(cr, s.contacts, o.state.attempt.value, theirs.offer, false) == Ok(a)
    requires a.start == s.monoS && a.slot < MAX_CONTACTS && a.ownProof.None? && Passed(cr, s, a, theirs, own, root, peerUid)
    ensures var fin := Activate(s.(attempt := Some(Final(a, theirs, own, peerUid))), a.slot, PeerEd(a), peerUid, root, a.ownRole).state;
            Side(cr, s, ephPriv, challenge, theirs, own, fin, a.slot)
  {
    hide PairOffer, WithOffer, MadeProof, WithProof, MadeConfirm, Confirmed, Guard, PeerEd, FreeSlot, EncodeOffer, Import, PairProof,
      PairConfirm, Activate;
    var b := a.(ownProof := Some(own.proof));
    var c := b.(peerProof := Some(theirs.proof), peerIdentity := Some(peerUid));
    var d := Final(a, theirs, own, peerUid);
    assert d == c.(ownConfirm := Some(own.confirmation));
    var s1 := PairOffer(cr, s, ephPriv, cr.pub(ephPriv), challenge).state;
    OfferCall(cr, s1, s, theirs.offer, a);
    AttemptSwapped(s, s1, a);
    GuardSame(s, s.(attempt := Some(a)));
    ProofCall(cr, s, a, own.proof);
    RecordCalls(cr, s, b, c, theirs.proof, own.confirmation);
    GuardSame(s, s.(attempt := Some(d)));
    PeerEdSame(a, d);
    ConfirmCall(cr, s.(attempt := Some(d)), theirs.confirmation, root, peerUid);
  }

  lemma AttemptSwapped(s: State, t: State, a: PairAttempt)
    requires t == s.(attempt := t.attempt)
    ensures t.(attempt := Some(a)) == s.(attempt := Some(a))
  {}

  lemma OfferCall(cr: Crypto, t: State, s: State, record: bytes, a: PairAttempt)
    requires Guard(s).None? && t == s.(attempt := t.attempt) && t.attempt.Some? && t.attempt.value.start == s.monoS
    requires record != [] && record[0] == RECORD_OFFER && WithOffer(cr, s.contacts, t.attempt.value, record, false) == Ok(a)
    ensures Import(cr, t, record, false, false) == Step(t.(attempt := Some(a)), Ok(None))
  {
    hide Guard, WithOffer;
    GuardSame(s, t);
  }

  lemma RecordCalls(cr: Crypto, s: State, b: PairAttempt, c: PairAttempt, proof: bytes, confirmation: bytes)
    requires Guard(s).None? && b.start == c.start == s.monoS && c.transcript.Some?
    requires proof != [] && proof[0] == RECORD_PROOF && WithProof(cr, b, proof) == Ok(c)
    requires MadeConfirm(cr, c, c.transcript.value) == Ok(confirmation)
    ensures Import(cr, s.(attempt := Some(b)), proof, false, false) == Step(s.(attempt := Some(c)), Ok(None))
    ensures PairConfirm(cr, s.(attempt := Some(c))) == Step(s.(attempt := Some(c.(ownConfirm := Some(confirmation)))), Ok(confirmation))
  {
    hide Guard, WithProof, MadeConfirm, PairConfirm, Import;
    GuardSame(s, s.(attempt := Some(b)));
    GuardSame(s, s.(attempt := Some(c)));
    ProofImport(cr, s.(attempt := Some(b)), c, proof);
    ConfirmExport(cr, s.(attempt := Some(c)), confirmation);
    AttemptSwapped(s, s.(attempt := Some(b)), c);
    AttemptSwapped(s, s.(attempt := Some(c)), c.(ownConfirm := Some(confirmation)));
  }

  lemma ProofImport(cr: Crypto, s: State, c: PairAttempt, proof: bytes)
    requires Guard(s).None? && s.attempt.Some? && s.attempt.value.start == s.monoS
    requires proof != [] && proof[0] == RECORD_PROOF && WithProof(cr, s.attempt.value, proof) == Ok(c)
    ensures Import(cr, s, proof, false, false) == Step(s.(attempt := Some(c)), Ok(None))
  {
    hide Guard, WithProof;
  }

  lemma ConfirmExport(cr: Crypto, s: State, confirmation: bytes)
    requires Guard(s).None? && s.attempt.Some? && s.attempt.value.start == s.monoS && s.attempt.value.transcript.Some?
    requires MadeConfirm(cr, s.attempt.value, s.attempt.value.transcript.value) == Ok(confirmation)
    ensures PairConfirm(cr, s) == Step(s.(attempt := Some(s.attempt.value.(ownConfirm := Some(confirmation)))), Ok(confirmation))
  {
    hide Guard, MadeConfirm;
  }

  function Final(a: PairAttempt, theirs: Papers, own: Papers, peerUid: bytes8): PairAttempt {
    a.(ownProof := Some(own.proof), peerProof := Some(theirs.proof), peerIdentity := Some(peerUid), ownConfirm := Some(own.confirmation))
  }

  lemma PeerEdSame(a: PairAttempt, d: PairAttempt)
    requires d.peerOffer == a.peerOffer
    ensures PeerEd(d) == PeerEd(a)
  {}

  lemma ProofCall(cr: Crypto, s: State, a: PairAttempt, rec: bytes)
    requires Guard(s.(attempt := Some(a))).None? && a.start == s.monoS && a.transcript.Some? && MadeProof(cr, s, a, a.transcript.value) == Ok(rec)
    ensures PairProof(cr, s.(attempt := Some(a))) == Step(s.(attempt := Some(a.(ownProof := Some(rec)))), Ok(rec))
  {
    hide Guard, MadeProof, Expired;
    var t := s.(attempt := Some(a));
    FreshlyStarted(s);
    assert Ready(t).None? && t.(attempt := Some(a.(ownProof := Some(rec)))) == s.(attempt := Some(a.(ownProof := Some(rec))));
    SameProof(cr, s, t, a);
  }

  lemma FreshlyStarted(s: State)
    ensures !Expired(s.monoS, s.monoS)
  {}

  /** A proof depends on the board, not on the attempt that it happens to hold. */
  lemma SameProof(cr: Crypto, s: State, t: State, a: PairAttempt)
    requires t.uidSet == s.uidSet && t.uid == s.uid && t.signPriv == s.signPriv && a.transcript.Some?
    ensures MadeProof(cr, t, a, a.transcript.value) == MadeProof(cr, s, a, a.transcript.value)
  {
    hide PairRoot, SetupKey, ProofAad, ProofMessage, EncodeProof, Zeros;
  }

  lemma ConfirmCall(cr: Crypto, s: State, record: bytes, root: bytes32, peerUid: bytes8)
    requires Guard(s).None? && s.attempt.Some? && s.attempt.value.start == s.monoS && s.attempt.value.slot < MAX_CONTACTS
    requires record != [] && record[0] == RECORD_CONFIRM && Confirmed(cr, s.attempt.value, record) == Ok((root, peerUid))
    ensures var a := s.attempt.value;
            Import(cr, s, record, false, true) == Step(Activate(s, a.slot, PeerEd(a), peerUid, root, a.ownRole).state, Ok(Some(a.slot)))
  {
    hide Guard, Confirmed, PeerEd, NewContact, EpochOf, Stage;
  }

  lemma GuardSame(s: State, t: State)
    requires t == s.(attempt := t.attempt)
    ensures Guard(t) == Guard(s)
  {}

  // ---- both sides ----

  /** Contacts that are the two ends of one generation: keys meet in every hour, identities and addresses too. */
  predicate Ends(c: Contact, a: bytes8, d: Contact, b: bytes8) {
    && c.present && d.present && c.root == d.root && c.role <= 1 && d.role <= 1 && c.role != d.role
    && c.peerIdentity == b && d.peerIdentity == a
  }

  lemma EndsMeet(cr: Crypto, c: Contact, a: bytes8, d: Contact, b: bytes8, e: u32)
    requires Ends(c, a, d, b)
    ensures OutgoingKey(cr, c, e) == IncomingKey(cr, d, e) && OutgoingKey(cr, d, e) == IncomingKey(cr, c, e)
    ensures PeerAddress(cr, c, e) == OwnAddress(cr, b, d, e) && OwnAddress(cr, a, c, e) == PeerAddress(cr, d, e)
  {}

  /** Both introduced: the proofs and confirmations that they make pass at the other end. */
  lemma BothPass(cr: Crypto, s: State, a: PairAttempt, r: State, b: PairAttempt, root: bytes32) returns (pa: Papers, pb: Papers)
    requires Correct(cr) && s.uidSet && r.uidSet && Settled(cr, a) && Settled(cr, b) && Crossed(a, b)
    requires DecodePayload(a.ownOffer).value.edPub == cr.edPub(s.signPriv) && DecodePayload(b.ownOffer).value.edPub == cr.edPub(r.signPriv)
    requires a.ownProof.None? && b.ownProof.None? && a.ownConfirm.None? && b.ownConfirm.None?
    requires PairRoot(cr, a, a.transcript.value) == Ok(root)
    ensures Passed(cr, s, a, pb, pa, root, r.uid) && Passed(cr, r, b, pa, pb, root, s.uid)
    ensures pa.offer == [RECORD_OFFER] + a.ownOffer && pb.offer == [RECORD_OFFER] + b.ownOffer && Typed(pa) && Typed(pb)
  {
    hide PairRoot, DecodeProof, DecodeConfirmation, SetupKey, ProofAad, ProofMessage, Zeros, ConfirmMac, MadeProof, WithProof, MadeConfirm,
      Confirmed, ProofOf, Symmetric;
    AttemptsAgree(cr, a, b);
    RolesKnown(cr, a);
    RolesKnown(cr, b);
    ProofMade(cr, s, a, root);
    ProofMade(cr, r, b, root);
    var t := a.transcript.value;
    var pp, qp := MadeProof(cr, s, a, t).value, MadeProof(cr, r, b, t).value;
    var a1, b1 := a.(ownProof := Some(pp)), b.(ownProof := Some(qp));
    SameRoot(cr, a, a1);
    SameRoot(cr, b, b1);
    ProofTaken(cr, a1, qp, r, b, root);
    ProofTaken(cr, b1, pp, s, a, root);
    var a2, b2 := a1.(peerProof := Some(qp), peerIdentity := Some(r.uid)), b1.(peerProof := Some(pp), peerIdentity := Some(s.uid));
    SameRoot(cr, a, a2);
    SameRoot(cr, b, b2);
    ConfirmMade(cr, a2, root);
    ConfirmMade(cr, b2, root);
    var pc, qc := MadeConfirm(cr, a2, t).value, MadeConfirm(cr, b2, t).value;
    var a3, b3 := a2.(ownConfirm := Some(pc)), b2.(ownConfirm := Some(qc));
    SameRoot(cr, a, a3);
    SameRoot(cr, b, b3);
    SameDigest(cr, a.ownRole, pp, qp);
    ConfirmTaken(cr, a3, qc, r, b, root);
    ConfirmTaken(cr, b3, pc, s, a, root);
    pa, pb := Papers([RECORD_OFFER] + a.ownOffer, pp, pc), Papers([RECORD_OFFER] + b.ownOffer, qp, qc);
    ProofType(pp);
    ProofType(qp);
    ConfirmationType(pc);
    ConfirmationType(qc);
  }

  lemma RolesKnown(cr: Crypto, a: PairAttempt)
    requires Settled(cr, a)
    ensures a.ownRole <= 1
  {}

  lemma SameRoot(cr: Crypto, a: PairAttempt, c: PairAttempt)
    requires c.peerOffer == a.peerOffer && c.ephPriv == a.ephPriv
    ensures forall t :: PairRoot(cr, c, t) == PairRoot(cr, a, t)
  {}

  lemma SameDigest(cr: Crypto, role: byte, p: bytes, q: bytes)
    requires role <= 1
    ensures ProofsDigest(cr, role, p, q) == ProofsDigest(cr, Opposite(role), q, p)
  {}

  lemma ProofType(r: bytes)
    requires DecodeProof(r).Ok?
    ensures r != [] && r[0] == RECORD_PROOF
  {}

  lemma ConfirmationType(r: bytes)
    requires DecodeConfirmation(r).Ok?
    ensures r != [] && r[0] == RECORD_CONFIRM
  {}

  /** Two willing boards with different signing keys that exchange their papers both activate, as the two ends of
      one generation that know each other's identities. */
  lemma CeremonyCompletes(cr: Crypto, a: State, b: State, ea: bytes32, eb: bytes32, ca: bytes32, cb: bytes32)
    returns (pa: Papers, pb: Papers, fa: State, fb: State, i: nat, j: nat)
    requires Correct(cr) && Willing(a) && Willing(b)
    requires cr.pub(ea) != Zeros(32) && cr.pub(eb) != Zeros(32) && cr.dh(ea, cr.pub(eb)) != Zeros(32)
    requires cr.edPub(a.signPriv) != cr.edPub(b.signPriv)
    requires !KnownPeer(a.contacts, cr.edPub(b.signPriv)) && !KnownPeer(b.contacts, cr.edPub(a.signPriv))
    ensures Side(cr, a, ea, ca, pb, pa, fa, i) && Side(cr, b, eb, cb, pa, pb, fb, j)
    ensures i < MAX_CONTACTS && j < MAX_CONTACTS && Ends(fa.contacts[i], a.uid, fb.contacts[j], b.uid)
    ensures ActivatedBy(cr, a, fa, i, pb.confirmation) && ActivatedBy(cr, b, fb, j, pa.confirmation)
  {
    hide PairRoot, DecodePayload, EncodePayload, EncodeOffer, KnownPeer, PairOffer, WithOffer, Side, Passed, Guard, FreeSlot, PeerEd, Zeros,
      Activate, Final, ActivatedBy;
    var oa, ob := OfferOf(cr, a, ea, ca), OfferOf(cr, b, eb, cb);
    IntroducedBy(cr, a, ea, ca, ob);
    IntroducedBy(cr, b, eb, cb, oa);
    var x := WithOffer(cr, a.contacts, PairOffer(cr, a, ea, cr.pub(ea), ca).state.attempt.value, EncodeOffer(ob), false).value;
    var y := WithOffer(cr, b.contacts, PairOffer(cr, b, eb, cr.pub(eb), cb).state.attempt.value, EncodeOffer(oa), false).value;
    OfferRoundTrip(oa);
    OfferRoundTrip(ob);
    RootExists(cr, x, eb, ob);
    AttemptsAgree(cr, x, y);
    var root := PairRoot(cr, x, x.transcript.value).value;
    pa, pb := BothPass(cr, a, x, b, y, root);
    OfferRecord(oa);
    OfferRecord(ob);
    SideOf(cr, a, ea, ca, pb, pa, root, b.uid, x);
    SideOf(cr, b, eb, cb, pa, pb, root, a.uid, y);
    fa := Activate(a.(attempt := Some(Final(x, pb, pa, b.uid))), x.slot, PeerEd(x), b.uid, root, x.ownRole).state;
    fb := Activate(b.(attempt := Some(Final(y, pa, pb, a.uid))), y.slot, PeerEd(y), a.uid, root, y.ownRole).state;
    i, j := x.slot, y.slot;
    RolesKnown(cr, x);
    RolesKnown(cr, y);
    FinalActivates(cr, a, x, pb, pa, root, b.uid);
    FinalActivates(cr, b, y, pa, pb, root, a.uid);
    NewEnds(PeerEd(x), a.uid, x.ownRole, EpochOf(a), PeerEd(y), b.uid, y.ownRole, EpochOf(b), root);
  }

  /** The state at the end: one new contact, its snapshot staged, and the attempt still able to confirm. */
  predicate ActivatedBy(cr: Crypto, s: State, fin: State, slot: nat, record: bytes) {
    && fin.attempt.Some? && FreeSlot(s.contacts, 0) == Some(slot) && slot < MAX_CONTACTS
    && var (a, c) := (fin.attempt.value, fin.contacts[slot]);
       && a.slot == slot && a.start == s.monoS && a.ownRole <= 1 && Confirmed(cr, a, record) == Ok((c.root, c.peerIdentity))
       && c == NewContact(PeerEd(a), c.peerIdentity, c.root, a.ownRole, EpochOf(s))
       && fin == Stage(s.(attempt := fin.attempt, contacts := s.contacts[slot := c]), PairActivate(slot))
  }

  lemma FinalActivates(cr: Crypto, s: State, a: PairAttempt, theirs: Papers, own: Papers, root: bytes32, peerUid: bytes8)
    requires Passed(cr, s, a, theirs, own, root, peerUid) && FreeSlot(s.contacts, 0) == Some(a.slot) && a.slot < MAX_CONTACTS
    requires a.start == s.monoS && a.ownRole <= 1
    ensures var fin := Activate(s.(attempt := Some(Final(a, theirs, own, peerUid))), a.slot, PeerEd(a), peerUid, root, a.ownRole).state;
            && ActivatedBy(cr, s, fin, a.slot, theirs.confirmation)
            && fin.contacts[a.slot] == NewContact(PeerEd(a), peerUid, root, a.ownRole, EpochOf(s))
  {
    hide MadeProof, WithProof, MadeConfirm, Confirmed, PeerEd, FreeSlot, Passed, EpochOf, NewContact, Stage;
    var d := Final(a, theirs, own, peerUid);
    PeerEdSame(a, d);
    SameHour(s, s.(attempt := Some(d)));
    FinalConfirms(cr, s, a, theirs, own, root, peerUid);
    NewContactHolds(PeerEd(a), peerUid, root, a.ownRole, EpochOf(s));
  }

  lemma FinalConfirms(cr: Crypto, s: State, a: PairAttempt, theirs: Papers, own: Papers, root: bytes32, peerUid: bytes8)
    requires Passed(cr, s, a, theirs, own, root, peerUid)
    ensures Confirmed(cr, Final(a, theirs, own, peerUid), theirs.confirmation) == Ok((root, peerUid))
  {
  }

  lemma NewContactHolds(ed: bytes32, uid: bytes8, root: bytes32, role: byte, hour: u32)
    ensures NewContact(ed, uid, root, role, hour).root == root && NewContact(ed, uid, root, role, hour).peerIdentity == uid
  {}

  lemma SameHour(s: State, t: State)
    requires t.timeValid == s.timeValid && t.unixSeconds == s.unixSeconds
    ensures EpochOf(t) == EpochOf(s)
  {}

  lemma NewEnds(edA: bytes32, a: bytes8, roleA: byte, hourA: u32, edB: bytes32, b: bytes8, roleB: byte, hourB: u32, root: bytes32)
    requires roleA <= 1 && roleB <= 1 && roleA != roleB
    ensures Ends(NewContact(edA, b, root, roleA, hourA), a, NewContact(edB, a, root, roleB, hourB), b)
  {}

  lemma OfferRecord(o: Offer)
    ensures EncodeOffer(o) == [RECORD_OFFER] + EncodePayload(o)
  {
    hide EncodePayload;
  }

  lemma RootExists(cr: Crypto, x: PairAttempt, eb: bytes32, ob: Offer)
    requires Settled(cr, x) && x.peerOffer == Some(EncodePayload(ob)) && DecodePayload(EncodePayload(ob)) == Ok(ob)
    requires ob.ephPub == cr.pub(eb) && cr.dh(x.ephPriv, cr.pub(eb)) != Zeros(32)
    ensures PairRoot(cr, x, x.transcript.value).Ok?
  {
    hide EncodePayload, DecodePayload, Zeros, Transcript, RoleFor;
  }
}
