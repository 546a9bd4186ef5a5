/** Nothing staged over an activation: then no confirmation ever revives a root. */
module PairingOnce {
  import opened Bytes
  import opened Security
  import opened Persist
  import opened Engine
  import opened ContactLog
  import opened Node
  import opened NodeKeeps
  import opened NodePairing
  import opened NodeRuns
  import Records
  import Ceremony

  /** A run that stages nothing over an activation; what it imports again is not restricted. */
  predicate Orderly(cr: Crypto, n: Node, a: Action) { InTurn(n, a) && Lucky(cr, n, a) && KeepsActivation(cr, n, a) }

  predicate OrderlyRun(cr: Crypto, n: Node, actions: seq<Action>) {
    actions == [] ||
    (OrderlyRun(cr, n, actions[..|actions| - 1]) && Orderly(cr, Run(cr, n, actions[..|actions| - 1]), actions[|actions| - 1]))
  }

  /** Activations of the living attempt wait for their commit, and nothing has happened under their roots. */
  predicate StillUnused(s: State, l: Logs) {
    s.attempt.Some? && !s.fault ==>
      forall m :: m in l.made && m.own == s.attempt.value.ownOffer ==> ActivationStaged(s) && NothingUnder(l, m.root)
  }

  /** Nothing new is sent or accepted. */
  predicate NoMore(l: Logs, l': Logs) { (forall r :: r in l'.air ==> r in l.air) && (forall a :: a in l'.accepted ==> a in l.accepted) }

  /** While an activation waits for its commit it stays staged, and nothing is sent or accepted. */
  predicate ActivationWaits(s: State, t: State, l: Logs, l': Logs) {
    s.attempt.Some? && !s.fault && ActivationStaged(s) ==> ActivationStaged(t) && NoMore(l, l')
  }

  lemma ActivationDirty(cr: Crypto, n: Node)
    requires Inv(cr, n) && !n.ram.fault && ActivationStaged(n.ram)
    ensures n.ram.dirty
  {
    hide LogInv, DurableInv, Safe, PendingRec;
  }

  lemma DirtyRefuses(cr: Crypto, s: State)
    requires s.dirty
    ensures Engine.SendEmit(cr, s) == Step(s, Err(Busy))
  {}

  lemma RetryMeansPending(cr: Crypto, s: State)
    requires SendRetryEcho(cr, s).Ok?
    ensures s.pendingSend.Some?
  {}

  /** The same attempt, the same activations. */
  lemma UnusedStill(s: State, t: State, l: Logs, l': Logs)
    requires StillUnused(s, l) && SamePairings(l, l') && ActivationWaits(s, t, l, l') && (t.fault || t.fault == s.fault)
    requires t.attempt.Some? ==> s.attempt.Some? && t.attempt.value.ownOffer == s.attempt.value.ownOffer
    ensures StillUnused(t, l')
  {}

  lemma UnusedKept(n: Node, m: Node)
    requires StillUnused(n.ram, Plus(n)) && OpKeeps(n.ram, m.ram) && SamePairings(n.logs, m.logs)
    requires ActivationWaits(n.ram, m.ram, Plus(n), Plus(m))
    ensures StillUnused(m.ram, Plus(m))
  {
    hide ActivationWaits, SlotsKept;
    assert SamePairings(n.logs, Plus(n)) && SamePairings(m.logs, Plus(m));
    UnusedStill(n.ram, m.ram, Plus(n), Plus(m));
  }

  lemma RamUnused(cr: Crypto, n: Node, a: Action)
    requires StillUnused(n.ram, Plus(n)) && Quiet(n) && KeepsActivation(cr, n, a) && RamOnly(a)
    ensures StillUnused(Apply(cr, n, a).ram, Plus(Apply(cr, n, a)))
  {
    hide Apply, StillUnused, OpKeeps, CalmState;
    RamGentle(cr, n, a);
    UnusedKept(n, Apply(cr, n, a));
  }

  lemma BeginUnused(cr: Crypto, n: Node, a: Action)
    requires StillUnused(n.ram, Plus(n)) && KeepsActivation(cr, n, a) && a.SendBegin?
    ensures StillUnused(Apply(cr, n, a).ram, Plus(Apply(cr, n, a)))
  {
    hide StillUnused, OpKeeps, OpSame, Engine.SendBegin;
    SendKeeps(cr, n.ram, a.contactId, a.text, a.packetId);
    UnusedKept(n, Apply(cr, n, a));
  }

  /** A dirty engine emits nothing. */
  lemma EmitUnused(cr: Crypto, n: Node)
    requires Inv(cr, n) && Quiet(n) && StillUnused(n.ram, Plus(n))
    ensures StillUnused(Apply(cr, n, Action.SendEmit).ram, Plus(Apply(cr, n, Action.SendEmit)))
  {
    hide Inv, StillUnused, OpKeeps, OpSame, Engine.SendEmit, PendingRec;
    SendKeeps(cr, n.ram, 0, [], 0);
    SameIsKept(n.ram, Apply(cr, n, Action.SendEmit).ram);
    if !n.ram.fault && ActivationStaged(n.ram) {
      ActivationDirty(cr, n);
      DirtyRefuses(cr, n.ram);
    }
    UnusedKept(n, Apply(cr, n, Action.SendEmit));
  }

  lemma RetryUnused(cr: Crypto, n: Node)
    requires Inv(cr, n) && Quiet(n) && n.inflight && StillUnused(n.ram, Plus(n))
    ensures StillUnused(Apply(cr, n, RetryEcho).ram, Plus(Apply(cr, n, RetryEcho)))
  {
    hide StillUnused, LogInv, RamInv, DurableInv, Engine.SendRetryEcho, PendingRec;
    SameKeeps(n.ram);
    if SendRetryEcho(cr, n.ram).Ok? { RetryMeansPending(cr, n.ram); }
    UnusedKept(n, Apply(cr, n, RetryEcho));
  }

  lemma FrameUnused(cr: Crypto, n: Node, f: bytes, now: u64, packetId: u32)
    requires StillUnused(n.ram, Plus(n)) && Quiet(n) && KeepsActivation(cr, n, Action.OnFrame(f, now, packetId))
    ensures var m := Apply(cr, n, Action.OnFrame(f, now, packetId)); StillUnused(m.ram, Plus(m))
  {
    hide StillUnused, OpKeeps, OpSame, Engine.OnFrame, AckRec;
    FrameKeeps(cr, n.ram, f, now, packetId);
    SameIsKept(n.ram, Apply(cr, n, Action.OnFrame(f, now, packetId)).ram);
    UnusedKept(n, Apply(cr, n, Action.OnFrame(f, now, packetId)));
  }

  lemma CommitUnused(n: Node, o: Outcome)
    requires StillUnused(n.ram, Plus(n))
    ensures StillUnused(DoCommit(n, o).ram, Plus(DoCommit(n, o)))
  {
    hide StagedContacts;
  }

  lemma OfferUnused(cr: Crypto, n: Node, ephPriv: bytes32, challenge: bytes32)
    requires StillUnused(n.ram, n.logs) && MadeOk(n.logs) && FreshOffer(n.logs, OwnOffer(cr, n.ram, ephPriv, challenge))
    ensures StillUnused(Ceremony.PairOffer(cr, n.ram, ephPriv, cr.pub(ephPriv), challenge).state, n.logs)
  {
    hide Ceremony.PairOffer, Ceremony.NewAttempt, Records.RoleFor, Records.EncodePayload;
    Ceremony.OfferedOk(cr, n.ram, ephPriv, challenge);
    var t := Ceremony.PairOffer(cr, n.ram, ephPriv, cr.pub(ephPriv), challenge).state;
    if t != n.ram {
      var slot: nat :| t == n.ram.(attempt := Some(Ceremony.NewAttempt(cr, n.ram, ephPriv, cr.pub(ephPriv), challenge, slot)));
      Ceremony.NewAttemptOk(cr, n.ram, ephPriv, challenge, slot);
    }
  }

  lemma SwapUnused(s: State, t: State, l: Logs)
    requires StillUnused(s, l) && t == s.(attempt := t.attempt)
    requires t.attempt.Some? ==> s.attempt.Some? && t.attempt.value.ownOffer == s.attempt.value.ownOffer
    ensures StillUnused(t, l)
  {}

  lemma ExportUnused(cr: Crypto, s: State, l: Logs)
    requires StillUnused(s, l)
    ensures StillUnused(Ceremony.PairProof(cr, s).state, l) && StillUnused(Ceremony.PairConfirm(cr, s).state, l)
  {
    hide Ceremony.PairProof, Ceremony.PairConfirm, Ceremony.Ready, StillUnused;
    if Ceremony.Ready(s).Some? {
      NotReady(cr, s);
    } else {
      ReadyMeans(s);
      Ceremony.ExportsKeepTerms(cr, s);
      SwapUnused(s, Ceremony.PairProof(cr, s).state, l);
      SwapUnused(s, Ceremony.PairConfirm(cr, s).state, l);
    }
  }

  lemma OfferKept(cr: Crypto, s: State, record: bytes, replace: bool)
    requires s.attempt.Some?
    ensures var r := Ceremony.WithOffer(cr, s.contacts, s.attempt.value, record, replace);
            r.Ok? ==> r.value.ownOffer == s.attempt.value.ownOffer
    ensures var r := Ceremony.WithProof(cr, s.attempt.value, record); r.Ok? ==> r.value.ownOffer == s.attempt.value.ownOffer
  {
    hide Records.DecodePayload, Records.DecodeOffer, Records.EncodePayload, Records.RoleFor, Ceremony.Transcript, Ceremony.KnownPeer,
      Ceremony.FreeSlot, Ceremony.OpenProof, Ceremony.ProofMessage, Records.DecodeProof;
  }

  lemma ImportUnused(cr: Crypto, n: Node, record: bytes, replace: bool, sasMatch: bool)
    requires FullInv(cr, n) && Quiet(n) && StillUnused(n.ram, n.logs) && Lucky(cr, n, Action.PairImport(record, replace, sasMatch))
    ensures RevivesNothing(cr, n, Action.PairImport(record, replace, sasMatch))
    ensures StillUnused(Ceremony.Import(cr, n.ram, record, replace, sasMatch).state,
                        Activated(n.logs, Activation(cr, n.ram, record, replace, sasMatch)))
  {
    hide Inv, PairInv, Ceremony.Import, Ceremony.ImportConfirm, Activation, Ceremony.WithOffer, Ceremony.WithProof, Ceremony.Guard, StillUnused,
      RootSeparate, Untouched, NothingUnder;
    ImportCases(cr, n.ram, record, replace, sasMatch);
    var m := Activation(cr, n.ram, record, replace, sasMatch);
    if m.None? {
      if n.ram.attempt.Some? { OfferKept(cr, n.ram, record, replace); }
      SwapUnused(n.ram, Ceremony.Import(cr, n.ram, record, replace, sasMatch).state, n.logs);
    } else {
      ActivationUnused(cr, n, record, replace, m.value);
    }
  }

  lemma ActivationUnused(cr: Crypto, n: Node, record: bytes, replace: bool, m: Made)
    requires FullInv(cr, n) && Quiet(n) && StillUnused(n.ram, n.logs)
    requires Activation(cr, n.ram, record, replace, true) == Some(m) && RootSeparate(n.logs, m)
    requires n.ram.attempt.Some? && Ceremony.Guard(n.ram).None? && Ceremony.ImportConfirm(cr, n.ram, record).result.Ok?
    requires Ceremony.Import(cr, n.ram, record, replace, true).state == Ceremony.ImportConfirm(cr, n.ram, record).state
    ensures m in n.logs.made ==> Untouched(n.logs, m.root, EpochOf(n.ram))
    ensures StillUnused(Ceremony.Import(cr, n.ram, record, replace, true).state, Activated(n.logs, Some(m)))
  {
    hide RamInv, DurableInv, PendingRec, Ceremony.Import, Ceremony.ImportConfirm, Activation, Ceremony.Guard, RootSeparate, MadeOk, SlotsMade,
      AttemptInv, NewContact, EpochOf, Activate, Ceremony.PeerEd, Untouched, NothingUnder;
    ActivationFacts(cr, n, record, replace, m);
    FullParts(cr, n);
    ActivationIs(cr, n.ram, record, replace, true);
    ActivationIsNew(cr, n.ram, n.logs, m) by { AliveNow(cr, n); }
    if m in n.logs.made { NothingIsUntouched(n.logs, m.root, EpochOf(n.ram)); }
    var a := n.ram.attempt.value;
    ActivatedState(n.ram, a.slot, Ceremony.PeerEd(a), a.peerIdentity.value, m.root, m.role);
    NothingStill(n.logs, m);
  }

  lemma NothingStill(l: Logs, m: Made)
    ensures forall root :: NothingUnder(l, root) ==> NothingUnder(Activated(l, Some(m)), root)
  {}

  lemma AliveNow(cr: Crypto, n: Node)
    requires PairInv(cr, n) && n.ram.attempt.Some? && !n.ram.fault
    ensures Alive(cr, n.ram, n.logs)
  {
    hide AttemptInv, MadeOk, SlotsMade;
  }

  lemma ActivatedState(s: State, slot: nat, ed: bytes32, id: bytes8, root: bytes32, role: byte)
    requires slot < MAX_CONTACTS
    ensures var t := Activate(s, slot, ed, id, root, role).state; t.attempt == s.attempt && t.fault == s.fault && ActivationStaged(t)
  {
    hide NewContact, EpochOf;
  }

  lemma IdleUnused(cr: Crypto, n: Node, a: Action)
    requires StillUnused(n.ram, Plus(n)) && (a.SendComplete? || a.ForgetInflight? || a.StageUsb?)
    ensures StillUnused(Apply(cr, n, a).ram, Plus(Apply(cr, n, a)))
  {
    hide StillUnused;
    SameKeeps(n.ram);
    UnusedKept(n, Apply(cr, n, a));
  }

  lemma CrashUnused(cr: Crypto, n: Node, radioAvailable: bool)
    ensures var m := Apply(cr, n, Crash(radioAvailable)); StillUnused(m.ram, Plus(m))
  {
    hide RestoreContacts;
  }

  lemma PairUnused(cr: Crypto, n: Node, a: Action)
    requires FullInv(cr, n) && Quiet(n) && StillUnused(n.ram, n.logs) && Pairs(a) && Lucky(cr, n, a)
    ensures RevivesNothing(cr, n, a) && StillUnused(Apply(cr, n, a).ram, Apply(cr, n, a).logs) && Apply(cr, n, a).held == NOTHING_HELD
  {
    hide Inv, PairInv, Ceremony.PairOffer, Ceremony.Import, Ceremony.PairProof, Ceremony.PairConfirm, StillUnused, FreshOffer, Activation,
      OwnOffer, Untouched, RootSeparate;
    match a
    case PairOffer(ephPriv, challenge) =>
      MadeParts(cr, n);
      OfferUnused(cr, n, ephPriv, challenge);
      MoreOffersUnused(Apply(cr, n, a).ram, n.logs, Apply(cr, n, a).logs);
    case PairImport(record, replace, sasMatch) => ImportUnused(cr, n, record, replace, sasMatch);
    case PairProof => ExportUnused(cr, n.ram, n.logs);
    case PairConfirm => ExportUnused(cr, n.ram, n.logs);
  }

  lemma MoreOffersUnused(s: State, l: Logs, l': Logs)
    requires StillUnused(s, l) && l' == l.(offered := l'.offered)
    ensures StillUnused(s, l')
  {}

  lemma MadeParts(cr: Crypto, n: Node)
    requires PairInv(cr, n)
    ensures MadeOk(n.logs)
  {}

  lemma QuietPlus(n: Node)
    requires n.held == NOTHING_HELD
    ensures Plus(n) == n.logs
  {}

  /** One orderly action revives nothing, and leaves the attempt unused. */
  lemma OrderlyStep(cr: Crypto, n: Node, a: Action)
    requires FullInv(cr, n) && StillUnused(n.ram, Plus(n)) && Orderly(cr, n, a)
    ensures Allowed(cr, n, a) && StillUnused(Apply(cr, n, a).ram, Plus(Apply(cr, n, a)))
  {
    hide FullInv, Inv, PairInv, StillUnused, KeepsActivation, Lucky, RevivesNothing, CommitInOrder, Apply, Plus;
    FullParts(cr, n);
    if Pairs(a) {
      QuietPlus(n);
      PairUnused(cr, n, a);
      QuietPlus(Apply(cr, n, a));
      return;
    }
    RevivesOnlyByImport(cr, n, a);
    match a
    case SendBegin(_, _, _) => BeginUnused(cr, n, a);
    case SendEmit => EmitUnused(cr, n);
    case RetryEcho => RetryUnused(cr, n);
    case SendComplete => IdleUnused(cr, n, a);
    case OnFrame(f, now, packetId) => FrameUnused(cr, n, f, now, packetId);
    case Commit(o) =>
      CommitApplied(cr, n, o);
      CommitUnused(n, o);
    case Crash(radioAvailable) => CrashUnused(cr, n, radioAvailable);
    case ForgetInflight => IdleUnused(cr, n, a);
    case StageUsb => IdleUnused(cr, n, a);
    case _ => RamUnused(cr, n, a);
  }

  lemma RevivesOnlyByImport(cr: Crypto, n: Node, a: Action)
    requires !a.PairImport?
    ensures RevivesNothing(cr, n, a)
  {}

  lemma BlankUnused(radioAvailable: bool)
    ensures StillUnused(Blank(radioAvailable).ram, Plus(Blank(radioAvailable)))
  {}

  /** Runs that stage nothing over an activation are disciplined: importing a confirmation again is then never the
      second use of a root. */
  lemma {:induction false} KeepingSuffices(cr: Crypto, radioAvailable: bool, actions: seq<Action>)
    requires OrderlyRun(cr, Blank(radioAvailable), actions)
    ensures Disciplined(cr, Blank(radioAvailable), actions)
    ensures var n := Run(cr, Blank(radioAvailable), actions); StillUnused(n.ram, Plus(n))
  {
    hide Apply, Orderly, Allowed, StillUnused, Plus;
    if actions == [] {
      BlankUnused(radioAvailable);
    } else {
      var before := actions[..|actions| - 1];
      KeepingSuffices(cr, radioAvailable, before);
      RunInv(cr, radioAvailable, before);
      OrderlyStep(cr, Run(cr, Blank(radioAvailable), before), actions[|actions| - 1]);
    }
  }
}
