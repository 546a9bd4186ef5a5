/** Pairing on a node: whatever is imported, no root that has been in use comes back to life. */
module NodePairing {
  import opened Bytes
  import opened Security
  import opened Persist
  import opened Engine
  import opened ContactLog
  import opened Node
  import opened NodeKeeps
  import Records
  import Ceremony

  /** The signing key in an offer. */
  function EdOf(p: Records.payload): bytes32 { p[1..33] }

  predicate Behind(m: Made, c: Contact) { m.root == c.root && m.role == c.role && EdOf(m.peer) == c.edPeer }

  predicate HasMade(c: Contact, made: set<Made>) { exists m :: m in made && Behind(m, c) }

  /** Every slot in use comes from an activation. */
  predicate SlotsMade(cs: Contacts, made: set<Made>) { forall i :: 0 <= i < MAX_CONTACTS && cs[i].present ==> HasMade(cs[i], made) }

  /** An activation comes from an offer of ours and an offer under another key. */
  predicate MadeFits(l: Logs, m: Made) {
    && (m.root, m.role) in l.used && m.own in l.offered && EdOf(m.own) != EdOf(m.peer)
    && m.role == Records.RoleFor(EdOf(m.own), EdOf(m.peer))
  }

  predicate UsedMade(p: (bytes32, byte), made: set<Made>) { exists m :: m in made && m.root == p.0 && m.role == p.1 }

  /** Every generation comes from activations, and all of them from the same two offers. */
  predicate MadeOk(l: Logs) {
    && (forall m :: m in l.made ==> MadeFits(l, m))
    && (forall p :: p in l.used ==> UsedMade(p, l.made))
    && (forall m, x :: m in l.made && x in l.made && m.root == x.root ==> m.own == x.own && m.peer == x.peer)
  }

  /** Only the slot of the attempt may hold its peer. */
  predicate PeerInSlot(s: State, a: Records.PairAttempt) {
    a.peerOffer.Some? ==>
      forall i :: 0 <= i < MAX_CONTACTS && s.contacts[i].present && s.contacts[i].edPeer == Ceremony.PeerEd(a) ==> i == a.slot
  }

  predicate AttemptInv(cr: Crypto, s: State, l: Logs) {
    s.attempt.Some? ==>
      var a := s.attempt.value;
      && Ceremony.AttemptOk(cr, a) && a.ownOffer in l.offered
      && (forall m :: m in l.made ==> m.peer != a.ownOffer)
      && (!s.fault ==> PeerInSlot(s, a))
  }

  predicate PairInv(cr: Crypto, n: Node) {
    && MadeOk(n.logs) && SlotsMade(n.ram.contacts, n.logs.made)
    && (n.durable.Some? ==> SlotsMade(n.durable.value.contacts, n.logs.made))
    && (n.usb.Some? ==> SlotsMade(n.usb.value.contacts, n.logs.made))
    && AttemptInv(cr, n.ram, n.logs)
  }

  ghost predicate FullInv(cr: Crypto, n: Node) { Inv(cr, n) && PairInv(cr, n) }

  // ---- what an import does ----

  lemma ImportCases(cr: Crypto, s: State, record: bytes, replace: bool, sasMatch: bool)
    ensures var t := Ceremony.Import(cr, s, record, replace, sasMatch).state;
            var m := Activation(cr, s, record, replace, sasMatch);
            || (t == s && m.None?)
            || (&& s.attempt.Some? && m.None?
                && Ceremony.WithOffer(cr, s.contacts, s.attempt.value, record, replace).Ok?
                && t == s.(attempt := Some(Ceremony.WithOffer(cr, s.contacts, s.attempt.value, record, replace).value)))
            || (&& s.attempt.Some? && m.None? && Ceremony.WithProof(cr, s.attempt.value, record).Ok?
                && t == s.(attempt := Some(Ceremony.WithProof(cr, s.attempt.value, record).value)))
            || (&& s.attempt.Some? && m.Some? && sasMatch && Ceremony.Guard(s).None?
                && Ceremony.ImportConfirm(cr, s, record).result.Ok? && t == Ceremony.ImportConfirm(cr, s, record).state)
  {
    hide Ceremony.Guard, Ceremony.WithOffer, Ceremony.WithProof, Ceremony.ImportConfirm, Ceremony.PairRoot, Activate,
      NewContact, Ceremony.PeerEd;
    if s.attempt.Some? {
      Ceremony.ConfirmKeepsAttempt(cr, s, record);
      if Ceremony.ImportConfirm(cr, s, record).result.Ok? {
        Ceremony.Activated(cr, s, record);
        RootMeans(cr, s.attempt.value);
      }
    }
  }

  lemma RootMeans(cr: Crypto, a: Records.PairAttempt)
    requires a.transcript.Some? && Ceremony.PairRoot(cr, a, a.transcript.value).Ok?
    ensures a.peerOffer.Some?
  {}

  lemma GuardMeans(s: State)
    requires Ceremony.Guard(s).None?
    ensures !s.fault && !s.radioOn
  {}

  /** The activation that a good confirmation makes. */
  lemma ActivationIs(cr: Crypto, s: State, record: bytes, replace: bool, sasMatch: bool)
    requires s.attempt.Some? && Ceremony.ImportConfirm(cr, s, record).result.Ok?
    requires Ceremony.Import(cr, s, record, replace, sasMatch).state == Ceremony.ImportConfirm(cr, s, record).state
    requires Activation(cr, s, record, replace, sasMatch).Some?
    ensures var (a, m) := (s.attempt.value, Activation(cr, s, record, replace, sasMatch).value);
            && a.slot < MAX_CONTACTS && a.peerOffer.Some? && a.peerIdentity.Some?
            && m == Made(m.root, a.ownRole, a.ownOffer, a.peerOffer.value)
            && var t := Ceremony.Import(cr, s, record, replace, sasMatch).state;
               && t == Activate(s, a.slot, Ceremony.PeerEd(a), a.peerIdentity.value, m.root, a.ownRole).state
               && t.contacts == s.contacts[a.slot := NewContact(Ceremony.PeerEd(a), a.peerIdentity.value, m.root, a.ownRole, EpochOf(s))]
  {
    Ceremony.Activated(cr, s, record);
    hide Ceremony.ImportConfirm, Ceremony.Import, Ceremony.PairRoot, Ceremony.PeerEd, NewContact, EpochOf, Activate;
  }

  // ---- an activation never brings back a root that has been in use ----

  lemma FreshRoot(l: Logs, root: bytes32)
    requires LogInv(l) && MadeOk(l) && forall m :: m in l.made ==> m.root != root
    ensures NothingUnder(l, root) && forall p :: p in l.used ==> p.0 != root
  {
    hide MadeFits, AcksAccepted, SequencesUnique, DeliveredOnce;
    forall p | p in l.used ensures p.0 != root { assert UsedMade(p, l.made); }
  }

  /** An earlier activation of this root was made by this very attempt, from the same peer. */
  lemma SameOffers(l: Logs, m: Made)
    requires RootSeparate(l, m) && forall x :: x in l.made ==> x.peer != m.own
    ensures forall x :: x in l.made && x.root == m.root ==> x.own == m.own && x.peer == m.peer
  {
    hide Records.Less;
  }

  predicate Alive(cr: Crypto, s: State, l: Logs) { s.attempt.Some? && !s.fault && AttemptInv(cr, s, l) }

  /** The attempt `a` of `s` would activate `m`. */
  predicate Activates(s: State, m: Made) {
    s.attempt.Some? && var a := s.attempt.value; a.peerOffer.Some? && m.own == a.ownOffer && m.peer == a.peerOffer.value && m.role == a.ownRole
  }

  /** Unless it is an earlier activation once more, the root is unused. */
  lemma ActivationIsNew(cr: Crypto, s: State, l: Logs, m: Made)
    requires Alive(cr, s, l) && LogInv(l) && MadeOk(l) && RootSeparate(l, m) && Activates(s, m)
    ensures forall x :: x in l.made && x.root == m.root ==> x == m
    ensures m !in l.made ==> NothingUnder(l, m.root)
  {
    var a := s.attempt.value;
    PeerEdIs(cr, a);
    hide LogInv, Ceremony.AttemptOk, Ceremony.PeerEd, NothingUnder, RootSeparate, PeerInSlot;
    SameOffers(l, m);
    forall x | x in l.made && x.root == m.root ensures x == m { assert MadeFits(l, x); }
    if m !in l.made { FreshRoot(l, m.root); }
  }

  /** No other slot holds the root. */
  lemma OtherSlots(cr: Crypto, s: State, l: Logs, m: Made)
    requires Alive(cr, s, l) && SlotsMade(s.contacts, l.made) && RootSeparate(l, m) && Activates(s, m)
    ensures forall i :: 0 <= i < MAX_CONTACTS && i != s.attempt.value.slot && s.contacts[i].present ==> s.contacts[i].root != m.root
  {
    var a := s.attempt.value;
    PeerEdIs(cr, a);
    hide Ceremony.AttemptOk, Ceremony.PeerEd, RootSeparate;
    SameOffers(l, m);
    forall i | 0 <= i < MAX_CONTACTS && i != a.slot && s.contacts[i].present ensures s.contacts[i].root != m.root {
      assert HasMade(s.contacts[i], l.made);
      var x :| x in l.made && Behind(x, s.contacts[i]);
    }
  }

  lemma PeerEdIs(cr: Crypto, a: Records.PairAttempt)
    requires Ceremony.AttemptOk(cr, a) && a.peerOffer.Some?
    ensures Ceremony.PeerEd(a) == EdOf(a.peerOffer.value) && EdOf(a.ownOffer) != EdOf(a.peerOffer.value)
    ensures a.ownRole == Records.RoleFor(EdOf(a.ownOffer), EdOf(a.peerOffer.value)) <= 1
  {
    hide Records.Less, Ceremony.Transcript;
  }

  lemma LogsWithActivation(l: Logs, m: Made)
    requires LogInv(l) && MadeOk(l) && m.role <= 1 && MadeFits(Activated(l, Some(m)), m)
    requires forall x :: x in l.made && x.root == m.root ==> x.own == m.own && x.peer == m.peer
    ensures LogInv(Activated(l, Some(m))) && MadeOk(Activated(l, Some(m)))
  {
    hide AcceptedAt, AckBody, Records.RoleFor;
    var l' := Activated(l, Some(m));
    forall p | p in l'.used ensures UsedMade(p, l'.made) {
      if p in l.used {
        assert UsedMade(p, l.made);
        var x :| x in l.made && x.root == p.0 && x.role == p.1;
        assert x in l'.made;
      } else {
        assert m in l'.made;
      }
    }
    forall p | p in l.used && p.0 == m.root ensures p.1 == m.role { assert UsedMade(p, l.made); }
  }

  // ---- what the other operations leave alone ----

  /** The activations and offers of the log are the same. */
  predicate SamePairings(l: Logs, l': Logs) { l'.made == l.made && l'.offered == l.offered && l'.used == l.used }

  lemma SlotsStillMade(cs: Contacts, ds: Contacts, made: set<Made>)
    requires SlotsMade(cs, made) && SlotsKept(cs, ds)
    ensures SlotsMade(ds, made)
  {
    forall i | 0 <= i < MAX_CONTACTS && ds[i].present ensures HasMade(ds[i], made) {
      assert HasMade(cs[i], made);
      var m :| m in made && Behind(m, cs[i]);
      assert Behind(m, ds[i]);
    }
  }

  lemma AttemptStill(cr: Crypto, s: State, t: State, l: Logs, l': Logs)
    requires AttemptInv(cr, s, l) && OpKeeps(s, t) && SamePairings(l, l')
    ensures AttemptInv(cr, t, l')
  {
    hide Ceremony.AttemptOk, Ceremony.PeerEd;
  }

  lemma KeptPairInv(cr: Crypto, n: Node, m: Node)
    requires PairInv(cr, n) && OpKeeps(n.ram, m.ram) && SamePairings(n.logs, m.logs) && m.durable == n.durable && m.usb == n.usb
    ensures PairInv(cr, m)
  {
    hide AttemptInv, OpKeeps, HasMade;
    AttemptStill(cr, n.ram, m.ram, n.logs, m.logs);
    hide SlotsMade;
    KeptSlots(n.ram, m.ram);
    SlotsStillMade(n.ram.contacts, m.ram.contacts, n.logs.made);
  }

  lemma KeptSlots(s: State, t: State)
    requires OpKeeps(s, t)
    ensures SlotsKept(s.contacts, t.contacts)
  {}

  /** Operations between commits. */
  lemma RamPair(cr: Crypto, n: Node, a: Action)
    requires PairInv(cr, n) && Quiet(n) && RamOnly(a)
    ensures PairInv(cr, Apply(cr, n, a))
  {
    hide Apply, PairInv, OpKeeps, CalmState;
    RamGentle(cr, n, a);
    KeptPairInv(cr, n, Apply(cr, n, a));
  }

  lemma EmitPair(cr: Crypto, n: Node)
    requires PairInv(cr, n)
    ensures PairInv(cr, Apply(cr, n, Action.SendEmit))
  {
    hide PairInv, OpKeeps, OpSame, Engine.SendEmit, PendingRec;
    SendKeeps(cr, n.ram, 0, [], 0);
    SameIsKept(n.ram, Apply(cr, n, Action.SendEmit).ram);
    KeptPairInv(cr, n, Apply(cr, n, Action.SendEmit));
  }

  lemma RetryPair(cr: Crypto, n: Node)
    requires PairInv(cr, n)
    ensures PairInv(cr, Apply(cr, n, RetryEcho))
  {
    hide PairInv, Engine.SendRetryEcho, PendingRec;
    SameKeeps(n.ram);
    KeptPairInv(cr, n, Apply(cr, n, RetryEcho));
  }

  lemma SameKeeps(s: State)
    ensures OpKeeps(s, s)
  {}

  lemma BeginPair(cr: Crypto, n: Node, contactId: byte, text: bytes, packetId: u32)
    requires PairInv(cr, n)
    ensures PairInv(cr, Apply(cr, n, Action.SendBegin(contactId, text, packetId)))
  {
    hide PairInv, OpKeeps, OpSame, Engine.SendBegin;
    SendKeeps(cr, n.ram, contactId, text, packetId);
    KeptPairInv(cr, n, Apply(cr, n, Action.SendBegin(contactId, text, packetId)));
  }

  lemma FramePair(cr: Crypto, n: Node, f: bytes, now: u64, packetId: u32)
    requires PairInv(cr, n)
    ensures PairInv(cr, Apply(cr, n, Action.OnFrame(f, now, packetId)))
  {
    hide PairInv, OpKeeps, OpSame, Engine.OnFrame, HeldAfter;
    FrameKeeps(cr, n.ram, f, now, packetId);
    SameIsKept(n.ram, Apply(cr, n, Action.OnFrame(f, now, packetId)).ram);
    KeptPairInv(cr, n, Apply(cr, n, Action.OnFrame(f, now, packetId)));
  }

  // ---- commits and power cuts ----

  lemma CommittedSlotsKept(s: State)
    ensures SlotsKept(s.contacts, StagedContacts(s))
  {}

  lemma CommitPair(cr: Crypto, n: Node, o: Outcome)
    requires FullInv(cr, n)
    ensures PairInv(cr, DoCommit(n, o))
  {
    hide Inv, AttemptInv, SlotsMade, StagedContacts, MadeOk, CommitOk, DiscardStaged, MarkFault;
    if CommitBytes(n).Some? {
      CommittedSlotsKept(n.ram);
      SlotsStillMade(n.ram.contacts, StagedContacts(n.ram), n.logs.made);
      if n.usb.None? { ScratchSlots(cr, n); }
      CommittedAttempt(cr, n, o);
      CommittedLogs(n, o);
    }
  }

  lemma CommittedLogs(n: Node, o: Outcome)
    requires CommitBytes(n).Some?
    ensures var m := DoCommit(n, o);
            && SamePairings(n.logs, m.logs) && (MadeOk(n.logs) ==> MadeOk(m.logs))
            && m.ram.contacts in {n.ram.contacts, StagedContacts(n.ram)} && m.durable in {n.durable, CommitBytes(n)} && m.usb.None?
  {}

  lemma ScratchSlots(cr: Crypto, n: Node)
    requires Inv(cr, n) && n.ram.dirty
    ensures n.ram.scratch.contacts == StagedContacts(n.ram)
  {
    hide LogInv, DurableInv, Safe, PendingRec;
  }

  lemma CommittedAttempt(cr: Crypto, n: Node, o: Outcome)
    requires AttemptInv(cr, n.ram, n.logs) && CommitBytes(n).Some?
    ensures AttemptInv(cr, DoCommit(n, o).ram, DoCommit(n, o).logs)
  {
    hide Ceremony.AttemptOk, Ceremony.PeerEd, StagedContacts;
    CommittedSlotsKept(n.ram);
  }

  lemma CrashPair(cr: Crypto, n: Node, radioAvailable: bool)
    requires PairInv(cr, n)
    ensures PairInv(cr, Apply(cr, n, Crash(radioAvailable)))
  {
    hide HasMade;
    if n.durable.Some? {
      RestoredKept(n.durable.value.contacts);
      SlotsStillMade(n.durable.value.contacts, RestoreContacts(n.durable.value.contacts), n.logs.made);
    }
    hide MadeOk, RestoreContacts;
  }

  lemma RestoredKept(cs: Contacts)
    ensures SlotsKept(cs, RestoreContacts(cs))
  {
    hide RestoreWindows;
  }

  // ---- pairing ----

  /** The attempt changes in nothing but the records it repeats, or takes up a peer that no slot knows. */
  lemma AttemptSwap(cr: Crypto, s: State, c: Records.PairAttempt, l: Logs)
    requires s.attempt.Some? && AttemptInv(cr, s, l) && Ceremony.AttemptOk(cr, c) && c.ownOffer == s.attempt.value.ownOffer
    requires Ceremony.SameTerms(s.attempt.value, c) || (c.peerOffer.Some? && !Ceremony.KnownPeer(s.contacts, Ceremony.PeerEd(c)))
    ensures AttemptInv(cr, s.(attempt := Some(c)), l)
  {
    hide Ceremony.AttemptOk, MadeFits, NothingUnder;
  }

  lemma TermsOk(cr: Crypto, a: Records.PairAttempt, c: Records.PairAttempt)
    requires Ceremony.AttemptOk(cr, a) && Ceremony.SameTerms(a, c)
    ensures Ceremony.AttemptOk(cr, c)
  {
    hide Records.RoleFor, Ceremony.Transcript;
  }

  lemma ExportPair(cr: Crypto, n: Node)
    requires PairInv(cr, n)
    ensures PairInv(cr, Apply(cr, n, Action.PairProof)) && PairInv(cr, Apply(cr, n, Action.PairConfirm))
  {
    hide Ceremony.PairProof, Ceremony.PairConfirm, AttemptInv, MadeOk, SlotsMade;
    ExportsOnlyAttempt(cr, n.ram);
    ExportAttempts(cr, n.ram, n.logs);
  }

  lemma ExportAttempts(cr: Crypto, s: State, l: Logs)
    requires AttemptInv(cr, s, l)
    ensures AttemptInv(cr, Ceremony.PairProof(cr, s).state, l) && AttemptInv(cr, Ceremony.PairConfirm(cr, s).state, l)
  {
    hide Ceremony.PairProof, Ceremony.PairConfirm, Ceremony.AttemptOk, PeerInSlot, Ceremony.Ready;
    if Ceremony.Ready(s).Some? {
      NotReady(cr, s);
    } else {
      ReadyMeans(s);
      Ceremony.ExportsKeepTerms(cr, s);
      var a := s.attempt.value;
      var p :| Ceremony.PairProof(cr, s).state == s.(attempt := Some(a.(ownProof := p)));
      var q :| Ceremony.PairConfirm(cr, s).state == s.(attempt := Some(a.(ownConfirm := q)));
      TermsOk(cr, a, a.(ownProof := p));
      TermsOk(cr, a, a.(ownConfirm := q));
      AttemptSwap(cr, s, a.(ownProof := p), l);
      AttemptSwap(cr, s, a.(ownConfirm := q), l);
    }
  }

  lemma MoreOffers(l: Logs, p: Records.payload)
    requires MadeOk(l)
    ensures MadeOk(l.(offered := l.offered + {p}))
  {
    hide Records.RoleFor;
  }

  lemma OfferPair(cr: Crypto, n: Node, ephPriv: bytes32, challenge: bytes32)
    requires PairInv(cr, n) && FreshOffer(n.logs, OwnOffer(cr, n.ram, ephPriv, challenge))
    ensures PairInv(cr, Apply(cr, n, Action.PairOffer(ephPriv, challenge)))
  {
    hide Ceremony.PairOffer, AttemptInv, MadeOk, SlotsMade, OwnOffer, FreshOffer;
    OfferOnlyAttempt(cr, n.ram, ephPriv, challenge);
    MoreOffers(n.logs, OwnOffer(cr, n.ram, ephPriv, challenge));
    OfferAttempt(cr, n.ram, ephPriv, challenge, n.logs);
  }

  lemma OfferAttempt(cr: Crypto, s: State, ephPriv: bytes32, challenge: bytes32, l: Logs)
    requires AttemptInv(cr, s, l) && MadeOk(l) && FreshOffer(l, OwnOffer(cr, s, ephPriv, challenge))
    ensures AttemptInv(cr, Ceremony.PairOffer(cr, s, ephPriv, cr.pub(ephPriv), challenge).state,
                       l.(offered := l.offered + {OwnOffer(cr, s, ephPriv, challenge)}))
  {
    hide Ceremony.PairOffer, Ceremony.NewAttempt, Records.RoleFor, Ceremony.AttemptOk, Records.EncodePayload;
    Ceremony.OfferedOk(cr, s, ephPriv, challenge);
    var t := Ceremony.PairOffer(cr, s, ephPriv, cr.pub(ephPriv), challenge).state;
    if t != s {
      var slot: nat :| t == s.(attempt := Some(Ceremony.NewAttempt(cr, s, ephPriv, cr.pub(ephPriv), challenge, slot)));
      Ceremony.NewAttemptOk(cr, s, ephPriv, challenge, slot);
    }
  }

  /** What makes a confirmed import safe, and what it leaves behind. */
  lemma ActivationFacts(cr: Crypto, n: Node, record: bytes, replace: bool, m: Made)
    requires FullInv(cr, n) && Quiet(n) && Activation(cr, n.ram, record, replace, true) == Some(m) && RootSeparate(n.logs, m)
    requires n.ram.attempt.Some? && Ceremony.Guard(n.ram).None?
    requires Ceremony.ImportConfirm(cr, n.ram, record).result.Ok?
    requires Ceremony.Import(cr, n.ram, record, replace, true).state == Ceremony.ImportConfirm(cr, n.ram, record).state
    ensures var a := n.ram.attempt.value;
            && a.slot < MAX_CONTACTS && a.peerIdentity.Some? && a.peerOffer.Some? && m.role <= 1
            && Ceremony.Import(cr, n.ram, record, replace, true).state
               == Activate(n.ram, a.slot, Ceremony.PeerEd(a), a.peerIdentity.value, m.root, m.role).state
            && Ceremony.Import(cr, n.ram, record, replace, true).state.contacts
               == n.ram.contacts[a.slot := NewContact(Ceremony.PeerEd(a), a.peerIdentity.value, m.root, m.role, EpochOf(n.ram))]
            && m.own == a.ownOffer && m.peer == a.peerOffer.value && Ceremony.PeerEd(a) == EdOf(m.peer)
            && (forall i :: 0 <= i < MAX_CONTACTS && i != a.slot && n.ram.contacts[i].present ==> n.ram.contacts[i].root != m.root)
    ensures m !in n.logs.made ==> Untouched(n.logs, m.root, EpochOf(n.ram))
    ensures LogInv(Activated(n.logs, Some(m))) && MadeOk(Activated(n.logs, Some(m)))
    ensures !n.ram.fault && !n.ram.radioOn
  {
    hide RamInv, DurableInv, PendingRec, LogInv, Ceremony.Import, Ceremony.ImportConfirm, NewContact, EpochOf, Activate, Activation, MadeOk,
      SlotsMade, PeerInSlot, Ceremony.AttemptOk, Ceremony.PeerEd, RootSeparate, Ceremony.Guard, Records.RoleFor;
    var a := n.ram.attempt.value;
    GuardMeans(n.ram);
    ActivationIs(cr, n.ram, record, replace, true);
    PeerEdIs(cr, a);
    ActivationIsNew(cr, n.ram, n.logs, m);
    OtherSlots(cr, n.ram, n.logs, m);
    if m !in n.logs.made { NothingIsUntouched(n.logs, m.root, EpochOf(n.ram)); }
    LogsWithActivation(n.logs, m);
  }

  lemma ImportPair(cr: Crypto, n: Node, record: bytes, replace: bool, sasMatch: bool)
    requires FullInv(cr, n) && Quiet(n) && Lucky(cr, n, Action.PairImport(record, replace, sasMatch))
    ensures PairInv(cr, Apply(cr, n, Action.PairImport(record, replace, sasMatch)))
  {
    hide Inv, Ceremony.Import, Ceremony.ImportConfirm, Activation, Ceremony.WithOffer, Ceremony.WithProof, AttemptInv, MadeOk, SlotsMade,
      Ceremony.Guard, RootSeparate;
    ImportCases(cr, n.ram, record, replace, sasMatch);
    var m := Activation(cr, n.ram, record, replace, sasMatch);
    if m.None? {
      ImportAttempt(cr, n.ram, record, replace, sasMatch, n.logs);
    } else {
      ActivationPair(cr, n, record, replace, m.value);
    }
  }

  lemma ImportAttempt(cr: Crypto, s: State, record: bytes, replace: bool, sasMatch: bool, l: Logs)
    requires AttemptInv(cr, s, l) && Activation(cr, s, record, replace, sasMatch).None?
    ensures var t := Ceremony.Import(cr, s, record, replace, sasMatch).state; AttemptInv(cr, t, l) && t == s.(attempt := t.attempt)
  {
    hide Ceremony.Import, Ceremony.ImportConfirm, Activation, Ceremony.WithOffer, Ceremony.WithProof, Ceremony.AttemptOk, PeerInSlot,
      Ceremony.KnownPeer, Ceremony.Guard, Ceremony.Settled;
    ImportCases(cr, s, record, replace, sasMatch);
    if s.attempt.Some? {
      var a := s.attempt.value;
      if Ceremony.WithOffer(cr, s.contacts, a, record, replace).Ok? {
        var c := Ceremony.WithOffer(cr, s.contacts, a, record, replace).value;
        Ceremony.WithOfferOk(cr, s.contacts, a, record, replace);
        SettledOk(cr, c);
        AttemptSwap(cr, s, c, l);
      }
      if Ceremony.WithProof(cr, a, record).Ok? {
        Ceremony.WithProofTerms(cr, a, record);
        TermsOk(cr, a, Ceremony.WithProof(cr, a, record).value);
        AttemptSwap(cr, s, Ceremony.WithProof(cr, a, record).value, l);
      }
    }
  }

  lemma SettledOk(cr: Crypto, c: Records.PairAttempt)
    requires Ceremony.Settled(cr, c)
    ensures Ceremony.AttemptOk(cr, c) && c.peerOffer.Some?
  {
    hide Records.RoleFor, Ceremony.Transcript;
  }

  lemma ActivationPair(cr: Crypto, n: Node, record: bytes, replace: bool, m: Made)
    requires FullInv(cr, n) && Quiet(n) && Activation(cr, n.ram, record, replace, true) == Some(m) && RootSeparate(n.logs, m)
    requires n.ram.attempt.Some? && Ceremony.Guard(n.ram).None?
    requires Ceremony.ImportConfirm(cr, n.ram, record).result.Ok?
    requires Ceremony.Import(cr, n.ram, record, replace, true).state == Ceremony.ImportConfirm(cr, n.ram, record).state
    ensures PairInv(cr, Apply(cr, n, Action.PairImport(record, replace, true)))
  {
    hide Inv, Ceremony.Import, Ceremony.ImportConfirm, Activation, Ceremony.Guard, RootSeparate, MadeOk, SlotsMade, AttemptInv, NewContact,
      EpochOf, Activate, Ceremony.PeerEd;
    ActivationFacts(cr, n, record, replace, m);
    var a := n.ram.attempt.value;
    var c := NewContact(Ceremony.PeerEd(a), a.peerIdentity.value, m.root, m.role, EpochOf(n.ram));
    NewSlotMade(n.ram.contacts, a.slot, c, n.logs, m) by { NewContactIs(Ceremony.PeerEd(a), a.peerIdentity.value, m.root, m.role, EpochOf(n.ram)); }
    if n.durable.Some? { MoreMade(n.durable.value.contacts, n.logs.made, m); }
    if n.usb.Some? { MoreMade(n.usb.value.contacts, n.logs.made, m); }
    ActivatedAttempt(cr, n.ram, a.peerIdentity.value, n.logs, m);
  }

  lemma NewContactIs(ed: bytes32, id: bytes8, root: bytes32, role: byte, epoch: u32)
    ensures var c := NewContact(ed, id, root, role, epoch); c.present && c.root == root && c.role == role && c.edPeer == ed && c.peerIdentity == id
  {}

  lemma MoreMade(cs: Contacts, made: set<Made>, m: Made)
    requires SlotsMade(cs, made)
    ensures SlotsMade(cs, made + {m})
  {
    forall i | 0 <= i < MAX_CONTACTS && cs[i].present ensures HasMade(cs[i], made + {m}) {
      assert HasMade(cs[i], made);
      var x :| x in made && Behind(x, cs[i]);
      assert x in made + {m};
    }
  }

  lemma NewSlotMade(cs: Contacts, slot: nat, c: Contact, l: Logs, m: Made)
    requires SlotsMade(cs, l.made) && slot < MAX_CONTACTS && Behind(m, c)
    ensures SlotsMade(cs[slot := c], l.made + {m})
  {
    MoreMade(cs, l.made, m);
    assert HasMade(c, l.made + {m}) by { assert m in l.made + {m}; }
  }

  lemma ActivatedAttempt(cr: Crypto, s: State, id: bytes8, l: Logs, m: Made)
    requires Alive(cr, s, l) && s.attempt.value.slot < MAX_CONTACTS && s.attempt.value.peerOffer.Some?
    requires m.own == s.attempt.value.ownOffer && m.peer == s.attempt.value.peerOffer.value
    ensures var a := s.attempt.value;
            AttemptInv(cr, Activate(s, a.slot, Ceremony.PeerEd(a), id, m.root, m.role).state, Activated(l, Some(m)))
  {
    hide Ceremony.AttemptOk, Ceremony.PeerEd, NewContact, EpochOf;
    var a := s.attempt.value;
    PeerEdIs(cr, a);
    StageFault(s.(contacts := s.contacts[a.slot := NewContact(Ceremony.PeerEd(a), id, m.root, m.role, EpochOf(s))]), PairActivate(a.slot));
    hide Stage;
  }

  // ---- every step ----

  lemma PairStep(cr: Crypto, n: Node, a: Action)
    requires FullInv(cr, n) && Allowed(cr, n, a)
    ensures PairInv(cr, Apply(cr, n, a))
  {
    hide FullInv, PairInv, RevivesNothing, Lucky;
    FullParts(cr, n);
    match a
    case PairOffer(ephPriv, challenge) =>
      LuckyOffer(cr, n, ephPriv, challenge);
      OfferPair(cr, n, ephPriv, challenge);
    case PairImport(record, replace, sasMatch) => ImportPair(cr, n, record, replace, sasMatch);
    case PairProof => ExportPair(cr, n);
    case PairConfirm => ExportPair(cr, n);
    case SendBegin(contactId, text, packetId) => BeginPair(cr, n, contactId, text, packetId);
    case SendEmit => EmitPair(cr, n);
    case RetryEcho => RetryPair(cr, n);
    case SendComplete => IdlePair(cr, n, a);
    case OnFrame(f, now, packetId) => FramePair(cr, n, f, now, packetId);
    case Commit(o) => CommitPair(cr, n, o);
    case Crash(radioAvailable) => CrashPair(cr, n, radioAvailable);
    case ForgetInflight => IdlePair(cr, n, a);
    case StageUsb => StageUsbPair(cr, n);
    case _ => RamPair(cr, n, a);
  }

  lemma FullParts(cr: Crypto, n: Node)
    requires FullInv(cr, n)
    ensures Inv(cr, n) && PairInv(cr, n)
  {
    hide Inv, PairInv;
  }

  lemma LuckyOffer(cr: Crypto, n: Node, ephPriv: bytes32, challenge: bytes32)
    requires Lucky(cr, n, Action.PairOffer(ephPriv, challenge))
    ensures FreshOffer(n.logs, OwnOffer(cr, n.ram, ephPriv, challenge))
  {
    hide FreshOffer, OwnOffer;
  }

  lemma IdlePair(cr: Crypto, n: Node, a: Action)
    requires PairInv(cr, n) && (a.SendComplete? || a.ForgetInflight?)
    ensures PairInv(cr, Apply(cr, n, a))
  {
    hide PairInv;
    SameKeeps(n.ram);
    KeptPairInv(cr, n, Apply(cr, n, a));
  }

  lemma StageUsbPair(cr: Crypto, n: Node)
    requires FullInv(cr, n) && Quiet(n)
    ensures PairInv(cr, Apply(cr, n, StageUsb))
  {
    hide Inv, AttemptInv, SlotsMade, MadeOk;
    if n.ram.dirty {
      ScratchSlots(cr, n);
      QuietStaged(n.ram);
    }
  }

  lemma QuietStaged(s: State)
    requires !(s.staged.Some? && s.staged.value.TxReserve?)
    ensures StagedContacts(s) == s.contacts
  {}

  lemma BlankPair(cr: Crypto, radioAvailable: bool)
    ensures PairInv(cr, Blank(radioAvailable))
  {}
}
