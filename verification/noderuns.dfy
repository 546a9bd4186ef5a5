/** Every disciplined run of a node keeps the invariant: its main guarantees. */
module NodeRuns {
  import opened Bytes
  import opened Frame
  import opened Security
  import opened Persist
  import Relay
  import opened Engine
  import opened ContactLog
  import opened Node
  import opened NodeSteps
  import opened NodeFrames
  import opened NodeKeeps
  import opened NodePairing
  import Ceremony
  import Records

  // ---- logs that shrink or repeat ----

  lemma SafeWeaken(cs: Contacts, l: Logs, l': Logs)
    requires Safe(cs, l)
    requires forall r :: r in l'.air ==> r in l.air
    requires l.accepted == l'.accepted && l.used <= l'.used
    ensures Safe(cs, l')
  {
    hide ContactSafe;
    forall i | 0 <= i < MAX_CONTACTS ensures ContactSafe(cs[i], l') { Weaken(cs[i], l, l'); }
  }

  /** Some of the frames and texts held back may get lost in a power cut. */
  lemma PartlyReleased(l: Logs, h: Held, radioTook: bool, hostTook: bool)
    requires LogInv(Release(l, h))
    ensures LogInv(l.(air := Append(l.air, h.rec, radioTook), delivered := Append(l.delivered, h.taken, hostTook),
                      accepted := AddTaken(l.accepted, h.taken, true)))
  {
    hide AckBody, AcceptedAt;
    var f := Release(l, h);
    var p := l.(air := Append(l.air, h.rec, radioTook), delivered := Append(l.delivered, h.taken, hostTook),
                accepted := AddTaken(l.accepted, h.taken, true));
    assert forall r :: r in p.air ==> r in f.air;
    assert forall d :: d in p.delivered ==> d in f.delivered;
    assert forall i :: 0 <= i < |p.delivered| ==> p.delivered[i] == f.delivered[i];
  }

  // ---- commit ----

  /** The staged reservation takes effect. */
  lemma CommittedSafe(s: State, l: Logs)
    requires Safe(s.contacts, l) && SnapshotSynced(s)
    ensures Safe(StagedContacts(s), l)
  {
    if s.staged.Some? && s.staged.value.TxReserve? {
      var slot, c := s.staged.value.slot, s.contacts[s.staged.value.slot];
      var c' := c.(txReserved := s.staged.value.newReserved);
      assert ContactSafe(c, l);
      Bookkeeping(c, c', l);
      SameSlot(s.contacts, slot, c', l);
    }
  }

  /** What a commit writes can be restored, and restoring it is safe. */
  lemma RestorableSafe(cs: Contacts, l: Logs)
    requires Safe(cs, l) && Reserved(cs)
    ensures forall i :: 0 <= i < MAX_CONTACTS ==> ContactOk(cs[i])
    ensures Safe(RestoreContacts(cs), l)
  {
    forall i | 0 <= i < MAX_CONTACTS
      ensures ContactOk(cs[i]) && ContactSafe(RestoreContact(cs[i]), l)
              && RestoreContact(cs[i]).present == cs[i].present && RestoreContact(cs[i]).root == cs[i].root
    {
      assert ContactSafe(cs[i], l);
      Restored(cs[i], l);
    }
    hide ContactSafe, RestoreContact;
  }

  lemma ScratchDurable(s: State, l: Logs)
    requires Safe(s.contacts, l) && SnapshotSynced(s) && Reserved(StagedContacts(s)) && s.dirty
    ensures Safe(StagedContacts(s), l) && DurableInv(s.scratch, l)
  {
    CommittedSafe(s, l);
    hide Safe, StagedContacts, ContactOk, RestoreContacts;
    RestorableSafe(StagedContacts(s), l);
  }

  lemma DurableWeaken(v: View, l: Logs, l': Logs)
    requires DurableInv(v, l)
    requires forall r :: r in l'.air ==> r in l.air
    requires l.accepted == l'.accepted && l.used <= l'.used
    ensures DurableInv(v, l')
  {
    SafeWeaken(RestoreContacts(v.contacts), l, l');
  }

  lemma CommittedSlots(s: State)
    requires SnapshotSynced(s)
    ensures var t := CommitOk(s);
            && (forall i :: 0 <= i < MAX_CONTACTS ==> SameIdentity(s.contacts[i], t.contacts[i]))
            && (TimeSynced(s) ==> TimeSynced(t)) && StagedContacts(t) == StagedContacts(s) == t.contacts && SnapshotSynced(t)
  {
    assert AnchorsAt(s.contacts, EpochOf(s)) ==> AnchorsAt(CommitOk(s).contacts, EpochOf(s));
  }

  /** Committing: the reservation takes effect in RAM, and everything held back may go out. */
  lemma CommittedRam(cr: Crypto, s: State, l: Logs, l': Logs)
    requires RamInv(cr, s, l) && s.dirty
    requires forall r :: r in l'.air ==> r in l.air
    requires l.accepted == l'.accepted && l.used <= l'.used
    ensures RamInv(cr, CommitOk(s), l') && DurableInv(s.scratch, l') && PendingKept(cr, s, CommitOk(s))
  {
    hide Safe, DurableInv, PendingRec, StagedContacts, TimeSynced, Reserved;
    var t := CommitOk(s);
    ScratchDurable(s, l);
    DurableWeaken(s.scratch, l, l');
    CommittedSlots(s);
    SafeWeaken(t.contacts, l, l');
    SamePending(cr, s, t, l.air);
    FewerPending(cr, t, l.air, l'.air);
    hide PendingOk, SnapshotSynced;
  }

  lemma FewerPending(cr: Crypto, s: State, air: seq<Rec>, fewer: seq<Rec>)
    requires PendingOk(cr, s, air) && forall r :: r in fewer ==> r in air
    ensures PendingOk(cr, s, fewer)
  {}

  lemma CommitDone(cr: Crypto, n: Node, radioTook: bool, hostTook: bool)
    requires Inv(cr, n) && CommitInOrder(n, Done(radioTook, hostTook)) && CommitBytes(n).Some?
    ensures Inv(cr, DoCommit(n, Done(radioTook, hostTook)))
  {
    var m := DoCommit(n, Done(radioTook, hostTook));
    hide PendingRec, Safe, LogInv, CommitOk, DurableInv, Covers;
    ReleasedByLatest(n, radioTook, hostTook);
    PartlyReleased(n.logs, n.held, radioTook, hostTook);
    CommittedRam(cr, n.ram, Plus(n), m.logs);
    if !BytesLatest(n) { StaleCovers(n.usb.value, n.logs, n.held, radioTook, hostTook); }
    hide RamInv;
    assert Plus(m) == m.logs;
  }

  /** A commit in order makes durable every text that it releases. */
  lemma ReleasedByLatest(n: Node, radioTook: bool, hostTook: bool)
    requires CommitInOrder(n, Done(radioTook, hostTook)) && CommitBytes(n).Some? && (n.usb.Some? ==> n.ram.dirty)
    ensures DoCommit(n, Done(radioTook, hostTook)).logs ==
            n.logs.(air := Append(n.logs.air, n.held.rec, radioTook), delivered := Append(n.logs.delivered, n.held.taken, hostTook),
                    accepted := AddTaken(n.logs.accepted, n.held.taken, true))
    ensures BytesLatest(n) ==> CommitBytes(n).value == n.ram.scratch
  {
    hide CommitOk;
  }

  /** A slot stays safe when one more frame goes out below its reservation. */
  lemma FrameBelow(c: Contact, l: Logs, r: Rec)
    requires ContactSafe(RestoreContact(c), l) && ContactOk(c)
    requires c.present && c.root == r.root ==> r.header.sequence < c.txReserved
    ensures ContactSafe(RestoreContact(c), l.(air := l.air + [r]))
  {}

  /** Older bytes that cover what is released stay safe to restore. */
  lemma StaleCovers(v: View, l: Logs, h: Held, radioTook: bool, hostTook: bool)
    requires DurableInv(v, l) && Covers(v, h, radioTook)
    ensures DurableInv(v, l.(air := Append(l.air, h.rec, radioTook), delivered := Append(l.delivered, h.taken, hostTook),
                             accepted := AddTaken(l.accepted, h.taken, true)))
  {
    hide ContactSafe, RestoreContact, ContactOk;
    if radioTook && h.rec.Some? {
      forall i | 0 <= i < MAX_CONTACTS ensures ContactSafe(RestoreContacts(v.contacts)[i], l.(air := l.air + [h.rec.value])) {
        assert RestoreContacts(v.contacts)[i] == RestoreContact(v.contacts[i]);
        FrameBelow(v.contacts[i], l, h.rec.value);
      }
    }
  }

  lemma CommitFailed(cr: Crypto, n: Node, written: bool)
    requires Inv(cr, n) && CommitBytes(n).Some?
    ensures Inv(cr, DoCommit(n, Failed(written)))
  {
    var m := DoCommit(n, Failed(written));
    hide PendingRec, Safe, LogInv, DurableInv;
    if written && BytesLatest(n) {
      PartlyReleased(n.logs, n.held, false, false);
      CommittedRam(cr, n.ram, Plus(n), m.logs);
    }
    hide RamInv;
    assert Plus(m) == m.logs;
    assert RamInv(cr, m.ram, m.logs) by { HaltedInv(cr, n.ram, m.logs); }
  }

  lemma HaltedInv(cr: Crypto, s: State, l: Logs)
    ensures RamInv(cr, MarkFault(DiscardStaged(s)), l)
  {}

  // ---- power cut ----

  lemma BootInv(cr: Crypto, durable: Option<View>, radioAvailable: bool, l: Logs)
    requires durable.Some? ==> DurableInv(durable.value, l)
    ensures RamInv(cr, Boot(durable, radioAvailable), l)
  {
    hide ContactSafe;
    var s := Boot(durable, radioAvailable);
    assert StagedContacts(s) == s.contacts;
    NoContactSafe(l);
    assert Safe(s.contacts, l);
    forall i | 0 <= i < MAX_CONTACTS ensures s.contacts[i].txNext <= s.contacts[i].txReserved {}
  }

  lemma CrashStep(cr: Crypto, n: Node, radioAvailable: bool)
    requires Inv(cr, n)
    ensures Inv(cr, Apply(cr, n, Crash(radioAvailable)))
  {
    hide RamInv, LogInv, DurableInv, PendingRec;
    var m := Apply(cr, n, Crash(radioAvailable));
    BootInv(cr, n.durable, radioAvailable, n.logs);
    assert Plus(m) == m.logs == n.logs;
    assert m.ram.pendingSend.None?;
  }

  // ---- steps between commits ----

  lemma QuietStep(cr: Crypto, n: Node, t: State)
    requires Inv(cr, n) && Quiet(n) && Follows(cr, n.ram, t, n.logs)
    ensures Inv(cr, n.(ram := t))
  {
    hide RamInv, LogInv, DurableInv, PendingRec;
    assert Plus(n) == n.logs && Plus(n.(ram := t)) == n.logs;
  }

  lemma RetryStep(cr: Crypto, n: Node)
    requires Inv(cr, n) && Quiet(n) && n.inflight
    ensures Inv(cr, Apply(cr, n, RetryEcho))
  {
    hide Engine.SendRetryEcho, PendingRec;
    var m := Apply(cr, n, RetryEcho);
    assert Plus(n) == n.logs && Plus(m) == m.logs;
    if SendRetryEcho(cr, n.ram).Ok? {
      RetryHasPending(cr, n.ram);
      RepeatedAir(cr, n.ram, n.logs, PendingRec(cr, n.ram).value);
      hide RamInv, LogInv, DurableInv;
      if n.durable.Some? { DurableWeaken(n.durable.value, n.logs, m.logs); }
    }
  }

  lemma RetryHasPending(cr: Crypto, s: State)
    requires SendRetryEcho(cr, s).Ok?
    ensures s.pendingSend.Some?
  {}

  /** Sending a frame once more changes nothing that is said about the log. */
  lemma RepeatedAir(cr: Crypto, s: State, l: Logs, r: Rec)
    requires RamInv(cr, s, l) && LogInv(l) && r in l.air
    ensures RamInv(cr, s, l.(air := l.air + [r])) && LogInv(l.(air := l.air + [r]))
  {
    hide PendingRec, AckBody, AcceptedAt, Safe, TimeSynced, SnapshotSynced, Reserved;
    var l' := l.(air := l.air + [r]);
    assert forall q :: q in l'.air <==> q in l.air;
    if !s.fault {
      SafeWeaken(s.contacts, l, l');
      FewerPending(cr, s, l.air, l'.air);
      hide PendingOk;
    }
  }

  // ---- pairing ----

  /** A change of the attempt, or of the offers made, is no concern of the invariant. */
  lemma AttemptOnly(cr: Crypto, s: State, t: State, l: Logs)
    requires RamInv(cr, s, l) && t == s.(attempt := t.attempt)
    ensures Follows(cr, s, t, l)
  {
    hide Safe;
    assert StagedContacts(t) == StagedContacts(s);
    if !s.fault { SamePending(cr, s, t, l.air); }
    hide PendingOk;
  }

  lemma OffersNoConcern(cr: Crypto, n: Node, t: State, offered: set<Records.payload>)
    requires Inv(cr, n) && Quiet(n) && Follows(cr, n.ram, t, n.logs)
    ensures Inv(cr, n.(ram := t, logs := n.logs.(offered := offered)))
  {
    hide PendingRec, Follows, AcceptedAt, AckBody;
    var m, l := n.(ram := t), n.logs.(offered := offered);
    QuietStep(cr, n, t);
    assert Plus(m) == m.logs;
    RamForgetsOffers(cr, t, m.logs, l);
    if n.durable.Some? { DurableWeaken(n.durable.value, m.logs, l); }
    hide RamInv, DurableInv, Safe;
    assert Plus(m.(logs := l)) == l;
  }

  lemma RamForgetsOffers(cr: Crypto, s: State, l: Logs, l': Logs)
    requires RamInv(cr, s, l) && l' == l.(offered := l'.offered)
    ensures RamInv(cr, s, l')
  {
    hide Safe;
    if !s.fault { SafeWeaken(s.contacts, l, l'); }
  }

  lemma OfferInv(cr: Crypto, n: Node, ephPriv: bytes32, challenge: bytes32)
    requires Inv(cr, n) && Quiet(n)
    ensures Inv(cr, Apply(cr, n, Action.PairOffer(ephPriv, challenge)))
  {
    hide Inv, RamInv, Follows, Ceremony.PairOffer, OwnOffer;
    assert RamInv(cr, n.ram, n.logs) by { QuietRam(cr, n); }
    OfferOnlyAttempt(cr, n.ram, ephPriv, challenge);
    var t := Ceremony.PairOffer(cr, n.ram, ephPriv, cr.pub(ephPriv), challenge).state;
    AttemptOnly(cr, n.ram, t, n.logs);
    OffersNoConcern(cr, n, t, n.logs.offered + {OwnOffer(cr, n.ram, ephPriv, challenge)});
  }

  lemma QuietRam(cr: Crypto, n: Node)
    requires Inv(cr, n) && Quiet(n)
    ensures RamInv(cr, n.ram, n.logs) && LogInv(n.logs)
  {
    hide RamInv, LogInv, DurableInv, PendingRec;
    assert Plus(n) == n.logs;
  }

  lemma ExportInv(cr: Crypto, n: Node)
    requires Inv(cr, n) && Quiet(n)
    ensures Inv(cr, Apply(cr, n, Action.PairProof)) && Inv(cr, Apply(cr, n, Action.PairConfirm))
  {
    hide Inv, RamInv, Follows, Ceremony.PairProof, Ceremony.PairConfirm;
    QuietRam(cr, n);
    ExportsOnlyAttempt(cr, n.ram);
    AttemptOnly(cr, n.ram, Ceremony.PairProof(cr, n.ram).state, n.logs);
    AttemptOnly(cr, n.ram, Ceremony.PairConfirm(cr, n.ram).state, n.logs);
    QuietStep(cr, n, Ceremony.PairProof(cr, n.ram).state);
    QuietStep(cr, n, Ceremony.PairConfirm(cr, n.ram).state);
  }

  lemma ActivateInv(cr: Crypto, n: Node, record: bytes, replace: bool, m: Made)
    requires FullInv(cr, n) && Quiet(n) && Activation(cr, n.ram, record, replace, true) == Some(m) && RootSeparate(n.logs, m)
    requires m in n.logs.made ==> Untouched(n.logs, m.root, EpochOf(n.ram))
    requires n.ram.attempt.Some? && Ceremony.Guard(n.ram).None? && Ceremony.ImportConfirm(cr, n.ram, record).result.Ok?
    requires Ceremony.Import(cr, n.ram, record, replace, true).state == Ceremony.ImportConfirm(cr, n.ram, record).state
    ensures Inv(cr, Apply(cr, n, Action.PairImport(record, replace, true)))
  {
    hide RamInv, LogInv, PendingRec, DurableInv, Activate, Ceremony.Import, Ceremony.ImportConfirm, Activation, PairInv, Ceremony.Guard,
      Ceremony.PeerEd, RootSeparate, MadeOk, NewContact, EpochOf;
    ActivationFacts(cr, n, record, replace, m);
    var a, l' := n.ram.attempt.value, Activated(n.logs, Some(m));
    var n' := Apply(cr, n, Action.PairImport(record, replace, true));
    assert Plus(n) == n.logs && Plus(n') == n'.logs == l';
    ActivateStep(cr, n.ram, a.slot, Ceremony.PeerEd(a), a.peerIdentity.value, m.root, m.role, n.logs, l');
    if n.durable.Some? { DurableWeaken(n.durable.value, n.logs, l'); }
    if n.usb.Some? { DurableWeaken(n.usb.value, n.logs, l'); }
  }

  lemma ImportInv(cr: Crypto, n: Node, record: bytes, replace: bool, sasMatch: bool)
    requires FullInv(cr, n) && Quiet(n) && Lucky(cr, n, Action.PairImport(record, replace, sasMatch))
    requires RevivesNothing(cr, n, Action.PairImport(record, replace, sasMatch))
    ensures Inv(cr, Apply(cr, n, Action.PairImport(record, replace, sasMatch)))
  {
    hide Inv, RamInv, Follows, Ceremony.Import, Ceremony.ImportConfirm, Activation, PairInv, Ceremony.Guard, RootSeparate, Ceremony.WithOffer,
      Ceremony.WithProof;
    ImportCases(cr, n.ram, record, replace, sasMatch);
    var m := Activation(cr, n.ram, record, replace, sasMatch);
    if m.Some? {
      ActivateInv(cr, n, record, replace, m.value);
    } else {
      QuietRam(cr, n);
      var t := Ceremony.Import(cr, n.ram, record, replace, sasMatch).state;
      AttemptOnly(cr, n.ram, t, n.logs);
      QuietStep(cr, n, t);
    }
  }

  lemma SendBeginInv(cr: Crypto, n: Node, contactId: byte, text: bytes, packetId: u32)
    requires Inv(cr, n) && Quiet(n) && n.ram.radioOn && !n.inflight
    ensures Inv(cr, Apply(cr, n, Action.SendBegin(contactId, text, packetId)))
  {
    hide RamInv, LogInv, DurableInv, PendingRec, Engine.SendBegin;
    SendBeginStep(cr, n.ram, contactId, text, packetId, n.logs);
    assert Plus(n) == n.logs && Plus(Apply(cr, n, Action.SendBegin(contactId, text, packetId))) == n.logs;
  }

  lemma SendEmitInv(cr: Crypto, n: Node)
    requires Inv(cr, n) && Quiet(n)
    ensures Inv(cr, Apply(cr, n, Action.SendEmit))
  {
    hide RamInv, LogInv, DurableInv, PendingRec, Engine.SendEmit;
    SendEmitStep(cr, n.ram, n.logs);
    assert Plus(n) == n.logs;
    EmitKeepsPending(cr, n.ram);
  }

  lemma EmitKeepsPending(cr: Crypto, s: State)
    ensures Engine.SendEmit(cr, s).state.pendingSend == s.pendingSend
  {
    hide SealFrame, PendingFrame;
  }

  lemma OnFrameInv(cr: Crypto, n: Node, f: bytes, now: u64, packetId: u32)
    requires Inv(cr, n) && Quiet(n)
    ensures Inv(cr, Apply(cr, n, Action.OnFrame(f, now, packetId)))
  {
    hide RamInv, LogInv, DurableInv, PendingRec, Engine.OnFrame, HeldAfter;
    assert Plus(n) == n.logs;
    OnFrameStep(cr, n.ram, f, now, packetId, n.logs);
    TakenPresent(cr, n.ram, f, now, packetId);
  }

  lemma CommitInv(cr: Crypto, n: Node, o: Outcome)
    requires Inv(cr, n) && CommitInOrder(n, o)
    ensures Inv(cr, DoCommit(n, o))
  {
    hide Inv, CommitInOrder;
    if CommitBytes(n).Some? {
      match o
      case Done(radioTook, hostTook) => CommitDone(cr, n, radioTook, hostTook);
      case Failed(written) => CommitFailed(cr, n, written);
    }
  }

  lemma RamFollows(cr: Crypto, n: Node, a: Action, l: Logs)
    requires RamInv(cr, n.ram, l) && InTurn(n, a) && RamOnly(a)
    ensures Apply(cr, n, a) == n.(ram := Apply(cr, n, a).ram) && Follows(cr, n.ram, Apply(cr, n, a).ram, l)
  {
    hide RamInv, Follows, Engine.SetIdentity, DoProvision, Engine.SetTime, Engine.AdvanceTime, Engine.SetRadio, Engine.DeleteContact,
      Engine.SetBlocked, Engine.ArmNextBoot, Engine.ConsumeBootArm, Engine.NoteOrigin, Stage;
    var s := n.ram;
    match a
    case SetIdentity(uid) => SetIdentityStep(cr, s, uid, l);
    case Provision(boardLabel, key) => ProvisionStep(cr, s, boardLabel, key, l);
    case SetTime(seconds, confirmed) => SetTimeStep(cr, s, seconds, confirmed, l);
    case AdvanceTime(now) => AdvanceTimeStep(cr, s, now, l);
    case SetRadio(enabled) => SetRadioStep(cr, s, enabled, l);
    case ArmNextBoot => ArmStep(cr, s, l);
    case ConsumeBootArm => ArmStep(cr, s, l);
    case DeleteContact(contactId) => DeleteStep(cr, s, contactId, l);
    case SetBlocked(contactId, blocked) => SetBlockedStep(cr, s, contactId, blocked, l);
    case NoteOrigin(f, now) => NoteStep(cr, s, f, now, l);
  }

  lemma ArmStep(cr: Crypto, s: State, l: Logs)
    requires RamInv(cr, s, l) && NoReserve(s)
    ensures Follows(cr, s, Engine.ArmNextBoot(s).state, l) && Follows(cr, s, Engine.ConsumeBootArm(s).state, l)
  {
    hide RamInv, Follows, Stage;
    Unchanged(cr, s, l);
    if !s.fault {
      FlagStep(cr, s, true, l);
      FlagStep(cr, s, false, l);
    }
  }

  lemma NoteStep(cr: Crypto, s: State, f: bytes, now: u64, l: Logs)
    requires RamInv(cr, s, l)
    ensures Follows(cr, s, Engine.NoteOrigin(cr, s, f, now), l)
  {
    hide RamInv, Follows, Engine.NoteOrigin;
    NoteOnlyCache(cr, s, f, now);
    RelayStep(cr, s, Engine.NoteOrigin(cr, s, f, now), l);
  }

  lemma NoteOnlyCache(cr: Crypto, s: State, f: bytes, now: u64)
    ensures var t := Engine.NoteOrigin(cr, s, f, now); t == s.(relay := t.relay)
  {
    NoteIs(cr, s, f, now);
    hide Engine.NoteOrigin;
  }

  lemma NoteIs(cr: Crypto, s: State, f: bytes, now: u64)
    ensures exists r :: Engine.NoteOrigin(cr, s, f, now) == s.(relay := r)
  {
    assert Frame.Decode(f).Ok? ==> |f| >= 30;
    hide Relay.Noted, Relay.Immutable, Frame.Decode;
    if Frame.Decode(f).Err? {
      assert Engine.NoteOrigin(cr, s, f, now) == s.(relay := s.relay);
    } else {
      assert Engine.NoteOrigin(cr, s, f, now) == s.(relay := Relay.Noted(s.relay, cr.digest(Relay.Immutable(f)), now).entries);
    }
  }

  lemma RamStep(cr: Crypto, n: Node, a: Action)
    requires Inv(cr, n) && InTurn(n, a) && RamOnly(a)
    ensures Inv(cr, Apply(cr, n, a))
  {
    assert Plus(n) == n.logs && RamInv(cr, n.ram, n.logs);
    hide Inv, RamInv, Follows, Apply;
    RamFollows(cr, n, a, n.logs);
    QuietStep(cr, n, Apply(cr, n, a).ram);
  }

  lemma ApplyInv(cr: Crypto, n: Node, a: Action)
    requires FullInv(cr, n) && Allowed(cr, n, a)
    ensures Inv(cr, Apply(cr, n, a))
  {
    hide PairInv, Lucky, Inv, Apply, FullInv, RevivesNothing, CommitInOrder;
    FullParts(cr, n);
    match a
    case PairOffer(ephPriv, challenge) => OfferInv(cr, n, ephPriv, challenge);
    case PairImport(record, replace, sasMatch) => ImportInv(cr, n, record, replace, sasMatch);
    case PairProof => ExportInv(cr, n);
    case PairConfirm => ExportInv(cr, n);
    case SendBegin(contactId, text, packetId) => SendBeginInv(cr, n, contactId, text, packetId);
    case SendEmit => SendEmitInv(cr, n);
    case RetryEcho => RetryStep(cr, n);
    case SendComplete => CompleteInv(cr, n);
    case OnFrame(f, now, packetId) => OnFrameInv(cr, n, f, now, packetId);
    case Commit(o) =>
      CommitInv(cr, n, o);
      CommitApplied(cr, n, o);
    case Crash(radioAvailable) => CrashStep(cr, n, radioAvailable);
    case ForgetInflight => IdleInv(cr, n);
    case StageUsb => StageUsbInv(cr, n);
    case _ => RamStep(cr, n, a);
  }

  lemma CommitApplied(cr: Crypto, n: Node, o: Outcome)
    ensures Apply(cr, n, Commit(o)) == DoCommit(n, o)
  {
    hide DoCommit;
  }

  lemma IdleInv(cr: Crypto, n: Node)
    requires Inv(cr, n)
    ensures Inv(cr, Apply(cr, n, ForgetInflight))
  {
    hide RamInv, LogInv, DurableInv, PendingRec;
    assert Plus(n.(inflight := false)) == Plus(n);
  }

  lemma StageUsbInv(cr: Crypto, n: Node)
    requires Inv(cr, n) && Quiet(n)
    ensures Inv(cr, Apply(cr, n, StageUsb))
  {
    hide LogInv, DurableInv, PendingRec, Safe, PendingOk, TimeSynced;
    assert Plus(n) == Plus(Apply(cr, n, StageUsb)) == n.logs;
    if n.ram.dirty { ScratchDurable(n.ram, n.logs); }
    hide RamInv, SnapshotSynced;
  }

  /** One allowed action keeps everything. */
  lemma Kept(cr: Crypto, n: Node, a: Action)
    requires FullInv(cr, n) && Allowed(cr, n, a)
    ensures FullInv(cr, Apply(cr, n, a))
  {
    hide Inv, PairInv, Apply;
    ApplyInv(cr, n, a);
    PairStep(cr, n, a);
  }

  lemma CompleteInv(cr: Crypto, n: Node)
    requires Inv(cr, n) && Quiet(n)
    ensures Inv(cr, Apply(cr, n, Action.SendComplete))
  {
    hide RamInv, LogInv, DurableInv, PendingRec;
    assert Plus(n) == n.logs;
    CompleteStep(cr, n.ram, n.logs);
  }

  lemma BlankInv(cr: Crypto, radioAvailable: bool)
    ensures Inv(cr, Blank(radioAvailable))
  {
    hide ContactSafe;
    var n := Blank(radioAvailable);
    NoContactSafe(Plus(n));
    assert StagedContacts(n.ram) == n.ram.contacts;
  }

  /** Every state a disciplined run can reach satisfies the invariant. */
  lemma {:induction false} RunInv(cr: Crypto, radioAvailable: bool, actions: seq<Action>)
    requires Disciplined(cr, Blank(radioAvailable), actions)
    ensures FullInv(cr, Run(cr, Blank(radioAvailable), actions))
  {
    hide Inv, PairInv, Apply, Allowed;
    if actions == [] {
      BlankInv(cr, radioAvailable);
      BlankPair(cr, radioAvailable);
    } else {
      var before := actions[..|actions| - 1];
      RunInv(cr, radioAvailable, before);
      Kept(cr, Run(cr, Blank(radioAvailable), before), actions[|actions| - 1]);
    }
  }
}
