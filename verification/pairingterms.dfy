/** A second offer imported into one attempt: the proof made on the first terms is exported again, and then nobody can
    finish the ceremony. */
module PairingTerms {
  import opened Bytes
  import opened Security
  import opened Persist
  import opened Engine
  import opened Records
  import opened Ceremony

  // ---- how it comes about ----

  /** What an export makes is a proof on the terms of the moment. */
  lemma MadeOnTerms(cr: Crypto, s: State, a: PairAttempt)
    requires a.ownProof.None? && a.transcript.Some? && MadeProof(cr, s, a, a.transcript.value).Ok?
    ensures var p := DecodeProof(MadeProof(cr, s, a, a.transcript.value).value); p.Ok? && p.value.t == a.transcript.value && p.value.role == a.ownRole
    ensures a.peerOffer.Some? && PairRoot(cr, a, a.transcript.value).Ok? && s.uidSet
  {
    hide SetupKey, ProofAad, ProofMessage, Zeros, EncodeProof, DecodeProof, DecodePayload;
    var t := a.transcript.value;
    var root := PairRoot(cr, a, t).value;
    var ct := cr.seal(SetupKey(cr, root, a.ownRole), Zeros(12), ProofAad(t, a.ownRole), s.uid);
    ProofRoundTrip(Proof(t, a.ownRole, ct, cr.sign(s.signPriv, ProofMessage(t, a.ownRole, ct))));
  }

  /** Exporting a proof, importing another offer, exporting again: the terms are those of the new offer, and the proof is
      still the one made on the old terms. */
  lemma ReimportKeepsProof(cr: Crypto, b: State, record: bytes, replace: bool, sasMatch: bool)
    requires b.attempt.Some? && AttemptOk(cr, b.attempt.value) && b.attempt.value.ownProof.None? && PairProof(cr, b).result.Ok?
    requires record != [] && record[0] == RECORD_OFFER && Import(cr, PairProof(cr, b).state, record, replace, sasMatch).result.Ok?
    ensures var (a, p, t) := (b.attempt.value, PairProof(cr, b).result.value, Import(cr, PairProof(cr, b).state, record, replace, sasMatch).state);
            && PairProof(cr, t) == Step(t, Ok(p))
            && t.attempt.Some? && Settled(cr, t.attempt.value) && t.attempt.value.ownOffer == a.ownOffer && t.attempt.value.ephPriv == a.ephPriv
            && DecodeOffer(record).Ok? && t.attempt.value.peerOffer == Some(EncodePayload(DecodeOffer(record).value))
            && a.transcript.Some? && DecodeProof(p).Ok? && DecodeProof(p).value.t == a.transcript.value
  {
    hide Guard, MadeProof, Expired, DecodeProof, WithOffer, Settled, DecodeOffer, AttemptOk;
    var a := b.attempt.value;
    var p := PairProof(cr, b).result.value;
    MadeOnTerms(cr, b, a);
    var a1 := a.(ownProof := Some(p));
    assert PairProof(cr, b).state.attempt == Some(a1);
    SameAttemptOk(cr, a, a1);
    ImportsOffer(cr, PairProof(cr, b).state, record, replace, sasMatch);
    var c := WithOffer(cr, b.contacts, a1, record, replace).value;
    TakesOffer(cr, b.contacts, a1, record, replace);
    WithOfferOk(cr, b.contacts, a1, record, replace);
    GuardSame(PairProof(cr, b).state, Import(cr, PairProof(cr, b).state, record, replace, sasMatch).state);
    ExportsAgain(cr, Import(cr, PairProof(cr, b).state, record, replace, sasMatch).state, p);
  }

  lemma SameAttemptOk(cr: Crypto, a: PairAttempt, c: PairAttempt)
    requires AttemptOk(cr, a) && c == a.(ownProof := c.ownProof)
    ensures AttemptOk(cr, c)
  {
    hide RoleFor, Transcript, DecodePayload;
  }

  lemma ImportsOffer(cr: Crypto, b: State, record: bytes, replace: bool, sasMatch: bool)
    requires b.attempt.Some? && record != [] && record[0] == RECORD_OFFER && Import(cr, b, record, replace, sasMatch).result.Ok?
    ensures Guard(b).None? && !Expired(b.attempt.value.start, b.monoS)
    ensures var r := WithOffer(cr, b.contacts, b.attempt.value, record, replace);
            r.Ok? && Import(cr, b, record, replace, sasMatch).state == b.(attempt := Some(r.value))
  {
    hide Guard, WithOffer, Expired;
  }

  /** What importing an offer changes of an attempt. */
  lemma TakesOffer(cr: Crypto, cs: Contacts, a: PairAttempt, record: bytes, replace: bool)
    requires WithOffer(cr, cs, a, record, replace).Ok?
    ensures var c := WithOffer(cr, cs, a, record, replace).value;
            && DecodeOffer(record).Ok? && c.peerOffer == Some(EncodePayload(DecodeOffer(record).value))
            && c.transcript == Some(Transcript(cr, a.ownOffer, c.peerOffer.value))
            && c == a.(peerOffer := c.peerOffer, transcript := c.transcript, ownRole := c.ownRole, slot := c.slot, replace := c.replace)
  {
    hide DecodeOffer, EncodePayload, DecodePayload, KnownPeer, FreeSlot, Transcript, RoleFor;
  }

  lemma ExportsAgain(cr: Crypto, s: State, p: bytes)
    requires Guard(s).None? && s.attempt.Some? && !Expired(s.attempt.value.start, s.monoS) && s.attempt.value.transcript.Some?
    requires s.attempt.value.ownProof == Some(p)
    ensures PairProof(cr, s) == Step(s, Ok(p))
  {
    hide Guard, Expired, MadeProof;
    MadeBefore(cr, s, s.attempt.value, p);
    SameAttempt(s, Some(p), s.attempt.value.ownConfirm);
  }

  lemma MadeBefore(cr: Crypto, s: State, a: PairAttempt, p: bytes)
    requires a.ownProof == Some(p)
    ensures forall t :: MadeProof(cr, s, a, t) == Ok(p)
  {}

  // ---- who can use it ----

  /** A proof made on the terms of `a` and exported again on those of `b`: a sound peer across from `b` accepts it exactly
      when the two have the same peer offer, that is, when the proof carries the transcript of the current terms. */
  lemma ReexportAcceptedIff(cr: Crypto, s: State, a: PairAttempt, b: PairAttempt, c: PairAttempt, p: bytes)
    requires Correct(cr) && Settled(cr, a) && a.ownProof.None? && MadeProof(cr, s, a, a.transcript.value) == Ok(p)
    requires DecodePayload(a.ownOffer).value.edPub == cr.edPub(s.signPriv)
    requires Settled(cr, b) && b.ownOffer == a.ownOffer && b.ephPriv == a.ephPriv && Settled(cr, c) && Crossed(b, c)
    requires a.transcript == b.transcript ==> Ordered(a.ownOffer, a.peerOffer.value) == Ordered(b.ownOffer, b.peerOffer.value)
    ensures DecodeProof(p).Ok?
    ensures WithProof(cr, c, p).Ok? <==> DecodeProof(p).value.t == b.transcript.value
    ensures WithProof(cr, c, p).Ok? <==> a.peerOffer == b.peerOffer
  {
    hide MadeProof, WithProof, DecodeProof, PairRoot, Transcript, SetupKey, ProofAad, ProofMessage, Zeros, DecodePayload, RoleFor, Symmetric, Ordered;
    MadeOnTerms(cr, s, a);
    AttemptsAgree(cr, b, c);
    if DecodeProof(p).value.t == b.transcript.value {
      SamePeer(a.ownOffer, a.peerOffer.value, b.peerOffer.value);
      assert a.ownRole == b.ownRole;
      var root := PairRoot(cr, a, a.transcript.value).value;
      SameRoot(cr, a, b);
      RolesKnown(cr, a);
      ProofMade(cr, s, a, root);
      ProofTaken(cr, c, p, s, a, root);
    } else {
      OtherTermsRefused(cr, c, p);
    }
  }

  lemma SamePeer(own: payload, p: payload, q: payload)
    requires Ordered(own, p) == Ordered(own, q)
    ensures p == q
  {
    hide Less;
  }

  lemma OtherTermsRefused(cr: Crypto, c: PairAttempt, p: bytes)
    requires DecodeProof(p).Ok? && c.transcript != Some(DecodeProof(p).value.t)
    ensures WithProof(cr, c, p) == Err(BadRequest)
  {
    hide DecodeProof;
  }

  // ---- the ceremony cannot finish ----

  /** Two boards and what each has handed over. */
  datatype Table = Table(a: State, b: State, fromA: set<bytes>, fromB: set<bytes>)

  /** A board exports its proof or its confirmation, or imports something that the other has handed over. */
  datatype Call = ExportA(proof: bool) | ExportB(proof: bool) | ImportA(record: bytes, replace: bool, sasMatch: bool)
    | ImportB(record: bytes, replace: bool, sasMatch: bool)

  function Export(cr: Crypto, s: State, proof: bool): Step<Result<bytes, EngineError>> {
    if proof then PairProof(cr, s) else PairConfirm(cr, s)
  }

  function Handed(r: Result<bytes, EngineError>): set<bytes> { if r.Ok? then {r.value} else {} }

  predicate Honest(t: Table, c: Call) {
    match c
    case ImportA(record, _, _) => record in t.fromB
    case ImportB(record, _, _) => record in t.fromA
    case _ => true
  }

  function Next(cr: Crypto, t: Table, c: Call): Table {
    match c
    case ExportA(proof) => var r := Export(cr, t.a, proof); t.(a := r.state, fromA := t.fromA + Handed(r.result))
    case ExportB(proof) => var r := Export(cr, t.b, proof); t.(b := r.state, fromB := t.fromB + Handed(r.result))
    case ImportA(record, replace, sasMatch) => t.(a := Import(cr, t.a, record, replace, sasMatch).state)
    case ImportB(record, replace, sasMatch) => t.(b := Import(cr, t.b, record, replace, sasMatch).state)
  }

  function Calls(cr: Crypto, t: Table, cs: seq<Call>): Table {
    if cs == [] then t else Next(cr, Calls(cr, t, cs[..|cs| - 1]), cs[|cs| - 1])
  }

  predicate AllHonest(cr: Crypto, t: Table, cs: seq<Call>) {
    cs == [] || (AllHonest(cr, t, cs[..|cs| - 1]) && Honest(Calls(cr, t, cs[..|cs| - 1]), cs[|cs| - 1]))
  }

  predicate IsConfirmation(r: bytes) { r != [] && r[0] == RECORD_CONFIRM }
  predicate IsProof(r: bytes) { r != [] && r[0] == RECORD_PROOF }

  /** This end holds these two offers, and its transcript is theirs. */
  predicate OnTerms(cr: Crypto, s: State, own: payload, peer: payload) {
    && s.attempt.Some?
    && var a := s.attempt.value;
       a.ownOffer == own && a.peerOffer == Some(peer) && a.transcript == Some(Transcript(cr, own, peer))
  }

  /** End A holds proof `p` of other terms; end B has no proof from A, so it has no confirmation either. */
  predicate Stuck(cr: Crypto, t: Table, own: payload, peer: payload, p: bytes) {
    && OnTerms(cr, t.a, own, peer) && OnTerms(cr, t.b, peer, own)
    && Transcript(cr, own, peer) == Transcript(cr, peer, own)
    && DecodeProof(p).Ok? && DecodeProof(p).value.t != Transcript(cr, own, peer)
    && t.a.attempt.value.ownProof == Some(p)
    && (t.a.attempt.value.ownConfirm.Some? ==> IsConfirmation(t.a.attempt.value.ownConfirm.value))
    && t.b.attempt.value.peerProof.None? && t.b.attempt.value.ownConfirm.None?
    && (t.b.attempt.value.ownProof.Some? ==> IsProof(t.b.attempt.value.ownProof.value))
    && (forall r :: r in t.fromA ==> r == [RECORD_OFFER] + own || r == p || IsConfirmation(r))
    && (forall r :: r in t.fromB ==> r == [RECORD_OFFER] + peer || IsProof(r))
  }

  /** The terms of an attempt stay as they are. */
  predicate TermsSame(a: PairAttempt, c: PairAttempt) { c.ownOffer == a.ownOffer && c.peerOffer == a.peerOffer && c.transcript == a.transcript }

  predicate PapersSame(a: PairAttempt, c: PairAttempt) { c.ownProof == a.ownProof && c.peerProof == a.peerProof && c.ownConfirm == a.ownConfirm }

  /** The offer of the other end is refused, or leaves terms and papers as they are; no contact comes of it. */
  lemma TakesTheSame(cr: Crypto, s: State, own: payload, peer: payload, replace: bool, sasMatch: bool)
    requires OnTerms(cr, s, own, peer)
    ensures var t := Import(cr, s, [RECORD_OFFER] + peer, replace, sasMatch).state;
            t.contacts == s.contacts && t.attempt.Some? && TermsSame(s.attempt.value, t.attempt.value) && PapersSame(s.attempt.value, t.attempt.value)
  {
    hide Import, WithOffer, Transcript;
    var record := [RECORD_OFFER] + peer;
    assert record[1..] == peer;
    OfferedState(cr, s, record, replace, sasMatch);
    if WithOffer(cr, s.contacts, s.attempt.value, record, replace).Ok? {
      TakesOffer(cr, s.contacts, s.attempt.value, record, replace);
      AcceptedOffer(record);
    }
  }

  lemma OfferedState(cr: Crypto, s: State, record: bytes, replace: bool, sasMatch: bool)
    requires s.attempt.Some? && record != [] && record[0] == RECORD_OFFER
    ensures var (t, r) := (Import(cr, s, record, replace, sasMatch).state, WithOffer(cr, s.contacts, s.attempt.value, record, replace));
            t.contacts == s.contacts && (t.attempt == s.attempt || (r.Ok? && t.attempt == Some(r.value)))
  {
    hide Guard, Expired, WithOffer;
  }

  /** A proof changes no more than what is held of the peer. */
  lemma TakesProof(cr: Crypto, s: State, record: bytes, replace: bool, sasMatch: bool)
    requires s.attempt.Some? && IsProof(record)
    ensures var t := Import(cr, s, record, replace, sasMatch).state;
            && t.contacts == s.contacts && t.attempt.Some?
            && var (a, c) := (s.attempt.value, t.attempt.value);
               && TermsSame(a, c) && c.ownProof == a.ownProof && c.ownConfirm == a.ownConfirm
               && (WithProof(cr, a, record).Err? ==> c.peerProof == a.peerProof)
  {
    hide Import, WithProof;
    ImportsProof(cr, s, record, replace, sasMatch);
    ProofSets(cr, s.attempt.value, record);
  }

  lemma ImportsProof(cr: Crypto, s: State, record: bytes, replace: bool, sasMatch: bool)
    requires s.attempt.Some? && IsProof(record)
    ensures var (t, r) := (Import(cr, s, record, replace, sasMatch).state, WithProof(cr, s.attempt.value, record));
            t.contacts == s.contacts && (t.attempt == s.attempt || (r.Ok? && t.attempt == Some(r.value)))
  {
    hide Guard, Expired, WithProof;
  }

  lemma ProofSets(cr: Crypto, a: PairAttempt, record: bytes)
    ensures var r := WithProof(cr, a, record); r.Ok? ==> TermsSame(a, r.value) && r.value.ownProof == a.ownProof && r.value.ownConfirm == a.ownConfirm
  {
    hide DecodeProof, OpenProof, DecodePayload, ProofMessage;
  }

  /** Without a proof from the peer a confirmation is refused. */
  lemma ConfirmRefused(cr: Crypto, s: State, record: bytes, replace: bool, sasMatch: bool)
    requires s.attempt.Some? && s.attempt.value.peerProof.None? && IsConfirmation(record)
    ensures Import(cr, s, record, replace, sasMatch).state == s
  {
    hide Guard, Expired, DecodeConfirmation;
  }

  /** End A hands over its old proof, or a confirmation. */
  lemma ExportsA(cr: Crypto, s: State, proof: bool, p: bytes)
    requires s.attempt.Some? && s.attempt.value.ownProof == Some(p)
    requires s.attempt.value.ownConfirm.Some? ==> IsConfirmation(s.attempt.value.ownConfirm.value)
    ensures var r := Export(cr, s, proof);
            && r.state.contacts == s.contacts && r.state.attempt.Some?
            && var (a, c) := (s.attempt.value, r.state.attempt.value);
               && TermsSame(a, c) && c.ownProof == a.ownProof && (c.ownConfirm.Some? ==> IsConfirmation(c.ownConfirm.value))
               && (r.result.Ok? ==> r.result.value == p || IsConfirmation(r.result.value))
  {
    hide PairProof, PairConfirm, IsConfirmation;
    if proof { ProofAgain(cr, s, p); } else { ConfirmStored(cr, s); }
  }

  lemma ProofAgain(cr: Crypto, s: State, p: bytes)
    requires s.attempt.Some? && s.attempt.value.ownProof == Some(p)
    ensures PairProof(cr, s).state == s && (PairProof(cr, s).result.Ok? ==> PairProof(cr, s).result.value == p)
  {
    hide Ready, MadeProof;
    if Ready(s).None? { ReadyHasTerms(s); }
    MadeBefore(cr, s, s.attempt.value, p);
    SameAttempt(s, Some(p), s.attempt.value.ownConfirm);
  }

  lemma NoConfirm(cr: Crypto, a: PairAttempt, t: bytes32)
    ensures a.peerProof.None? ==> MadeConfirm(cr, a, t).Err?
  {
    hide PairRoot, ConfirmMac, ProofsDigest;
  }

  lemma ReadyHasTerms(s: State)
    requires Ready(s).None?
    ensures s.attempt.Some? && s.attempt.value.transcript.Some?
  {}

  lemma ConfirmTyped(cr: Crypto, a: PairAttempt, t: bytes32)
    requires a.ownConfirm.Some? ==> IsConfirmation(a.ownConfirm.value)
    ensures MadeConfirm(cr, a, t).Ok? ==> IsConfirmation(MadeConfirm(cr, a, t).value)
  {
    hide PairRoot, ConfirmMac, ProofsDigest;
  }

  lemma ProofTyped(cr: Crypto, s: State, a: PairAttempt, t: bytes32)
    requires a.ownProof.Some? ==> IsProof(a.ownProof.value)
    ensures MadeProof(cr, s, a, t).Ok? ==> IsProof(MadeProof(cr, s, a, t).value)
  {
    hide PairRoot, SetupKey, ProofAad, ProofMessage;
  }

  /** End B hands over proofs only. */
  lemma ExportsB(cr: Crypto, s: State, proof: bool)
    requires s.attempt.Some? && s.attempt.value.peerProof.None?
    requires s.attempt.value.ownProof.Some? ==> IsProof(s.attempt.value.ownProof.value)
    ensures var r := Export(cr, s, proof);
            && r.state.contacts == s.contacts && r.state.attempt.Some?
            && var (a, c) := (s.attempt.value, r.state.attempt.value);
               && TermsSame(a, c) && c.peerProof == a.peerProof && c.ownConfirm == a.ownConfirm
               && (c.ownProof.Some? ==> IsProof(c.ownProof.value)) && (r.result.Ok? ==> IsProof(r.result.value))
  {
    hide PairProof, PairConfirm, IsProof;
    if proof { ProofStored(cr, s); } else { NoneToConfirm(cr, s); }
  }

  lemma NoneToConfirm(cr: Crypto, s: State)
    requires s.attempt.Some? && s.attempt.value.peerProof.None?
    ensures PairConfirm(cr, s).state == s && PairConfirm(cr, s).result.Err?
  {
    hide Ready, MadeConfirm;
    if Ready(s).None? {
      ReadyHasTerms(s);
      NoConfirm(cr, s.attempt.value, s.attempt.value.transcript.value);
    }
  }

  /** What was exported is what the attempt holds. */
  lemma ProofStored(cr: Crypto, s: State)
    requires s.attempt.Some? && (s.attempt.value.ownProof.Some? ==> IsProof(s.attempt.value.ownProof.value))
    ensures var r := PairProof(cr, s);
            if r.result.Err? then r.state == s
            else IsProof(r.result.value) && r.state.contacts == s.contacts
                 && r.state.attempt == Some(s.attempt.value.(ownProof := Some(r.result.value)))
  {
    hide Ready, MadeProof, IsProof;
    if Ready(s).None? {
      ReadyHasTerms(s);
      ProofTyped(cr, s, s.attempt.value, s.attempt.value.transcript.value);
    }
  }

  lemma ConfirmStored(cr: Crypto, s: State)
    requires s.attempt.Some? && (s.attempt.value.ownConfirm.Some? ==> IsConfirmation(s.attempt.value.ownConfirm.value))
    ensures var r := PairConfirm(cr, s);
            if r.result.Err? then r.state == s
            else IsConfirmation(r.result.value) && r.state.contacts == s.contacts
                 && r.state.attempt == Some(s.attempt.value.(ownConfirm := Some(r.result.value)))
  {
    hide Ready, MadeConfirm, IsConfirmation;
    if Ready(s).None? {
      ReadyHasTerms(s);
      ConfirmTyped(cr, s.attempt.value, s.attempt.value.transcript.value);
    }
  }

  /** No honest call gets the two boards any further. */
  lemma StaysStuck(cr: Crypto, t: Table, c: Call, own: payload, peer: payload, p: bytes)
    requires Stuck(cr, t, own, peer, p) && Honest(t, c)
    ensures Stuck(cr, Next(cr, t, c), own, peer, p)
    ensures Next(cr, t, c).a.contacts == t.a.contacts && Next(cr, t, c).b.contacts == t.b.contacts
  {
    hide Import, Export, Transcript, DecodeProof, WithProof;
    match c
    case ExportA(proof) => ExportsA(cr, t.a, proof, p);
    case ExportB(proof) => ExportsB(cr, t.b, proof);
    case ImportA(record, replace, sasMatch) =>
      if record == [RECORD_OFFER] + peer {
        TakesTheSame(cr, t.a, own, peer, replace, sasMatch);
      } else {
        TakesProof(cr, t.a, record, replace, sasMatch);
      }
    case ImportB(record, replace, sasMatch) =>
      if record == [RECORD_OFFER] + own {
        TakesTheSame(cr, t.b, peer, own, replace, sasMatch);
      } else if record == p {
        OtherTermsRefused(cr, t.b.attempt.value, p);
        ProofType(p);
        TakesProof(cr, t.b, p, replace, sasMatch);
      } else {
        ConfirmRefused(cr, t.b, record, replace, sasMatch);
      }
  }

  /** Once an attempt holds a proof of other terms, neither it nor its peer ever activates, whatever the two exchange, until
      one of them makes a new offer. */
  lemma {:induction false} StaleProofNeverActivates(cr: Crypto, t: Table, cs: seq<Call>, own: payload, peer: payload, p: bytes)
    requires Stuck(cr, t, own, peer, p) && AllHonest(cr, t, cs)
    ensures Stuck(cr, Calls(cr, t, cs), own, peer, p)
    ensures Calls(cr, t, cs).a.contacts == t.a.contacts && Calls(cr, t, cs).b.contacts == t.b.contacts
  {
    hide Stuck, Next, Honest;
    if cs != [] {
      var before := cs[..|cs| - 1];
      StaleProofNeverActivates(cr, t, before, own, peer, p);
      StaysStuck(cr, Calls(cr, t, before), cs[|cs| - 1], own, peer, p);
    }
  }

  /** Exporting a proof, importing another offer and meeting its maker gets stuck, unless the transcripts coincide. */
  lemma ReimportGetsStuck(cr: Crypto, b: State, record: bytes, replace: bool, sasMatch: bool, other: State)
    requires b.attempt.Some? && AttemptOk(cr, b.attempt.value) && b.attempt.value.ownProof.None? && b.attempt.value.ownConfirm.None?
    requires PairProof(cr, b).result.Ok? && record != [] && record[0] == RECORD_OFFER
    requires Import(cr, PairProof(cr, b).state, record, replace, sasMatch).result.Ok?
    requires other.attempt.Some? && Settled(cr, other.attempt.value)
    requires other.attempt.value.ownProof.None? && other.attempt.value.peerProof.None? && other.attempt.value.ownConfirm.None?
    requires [RECORD_OFFER] + other.attempt.value.ownOffer == record && other.attempt.value.peerOffer == Some(b.attempt.value.ownOffer)
    requires other.attempt.value.transcript != b.attempt.value.transcript
    ensures var (p, s) := (PairProof(cr, b).result.value, Import(cr, PairProof(cr, b).state, record, replace, sasMatch).state);
            var (own, peer) := (b.attempt.value.ownOffer, other.attempt.value.ownOffer);
            Stuck(cr, Table(s, other, {[RECORD_OFFER] + own, p}, {record}), own, peer, p)
  {
    hide Import, PairProof, Transcript, DecodeProof, DecodeOffer, EncodePayload, DecodePayload, RoleFor, Less;
    ReimportKeepsProof(cr, b, record, replace, sasMatch);
    var own, peer := b.attempt.value.ownOffer, other.attempt.value.ownOffer;
    assert record[1..] == peer;
    AcceptedOffer(record);
    var s := Import(cr, PairProof(cr, b).state, record, replace, sasMatch).state;
    KeepsConfirm(cr, b, record, replace, sasMatch);
    DifferentKeys(cr, other.attempt.value);
    EndsAgree(own, peer);
    TranscriptSymmetric(cr, own, peer);
  }

  lemma DifferentKeys(cr: Crypto, a: PairAttempt)
    requires Settled(cr, a)
    ensures a.ownOffer[1..33] != a.peerOffer.value[1..33]
  {
    hide RoleFor, Transcript;
  }

  lemma KeepsConfirm(cr: Crypto, b: State, record: bytes, replace: bool, sasMatch: bool)
    requires b.attempt.Some? && b.attempt.value.ownConfirm.None? && PairProof(cr, b).result.Ok?
    requires record != [] && record[0] == RECORD_OFFER && Import(cr, PairProof(cr, b).state, record, replace, sasMatch).result.Ok?
    ensures var t := Import(cr, PairProof(cr, b).state, record, replace, sasMatch).state;
            t.attempt.Some? && t.attempt.value.ownConfirm.None? && t.attempt.value.ownProof == Some(PairProof(cr, b).result.value)
  {
    hide Import, MadeProof, Ready, WithOffer;
    ImportsOffer(cr, PairProof(cr, b).state, record, replace, sasMatch);
    TakesOffer(cr, b.contacts, PairProof(cr, b).state.attempt.value, record, replace);
  }
}
