/** What goes wrong without the discipline: commits of older bytes that do not cover what they release. */
module StaleCommit {
  import opened Bytes
  import opened Frame
  import opened Security
  import opened Persist
  import opened Clock
  import opened Engine
  import opened ContactLog
  import opened Node
  import opened NodeKeeps
  import Ceremony
  import NodePairing
  import Records
  import Replay
  import Utf8

  // ---- what a commit of older bytes opens again ----

  /** Held text `t` is committed with the bytes `v` of the USB side. After a restart its number can be taken anew exactly
      when the slot of that generation in `v` does not cover it: the hour is still to come for that slot, or it is
      retained and the number is above or unmarked in its window. */
  lemma StaleCommitReopensIff(cr: Crypto, n: Node, v: View, t: Taken, i: nat, radioTook: bool, hostTook: bool, next: bool)
    requires n.usb == Some(v) && n.held.taken == Some(t) && i < MAX_CONTACTS
    requires v.contacts[i].present && v.contacts[i].root == t.root && ShapeOk(v.contacts[i])
    ensures var k := Apply(cr, DoCommit(n, Done(radioTook, hostTook)), Crash(next));
            var c := v.contacts[i];
            && (hostTook ==> t in k.logs.delivered) && k.ram.contacts[i].present && ShapeOk(k.ram.contacts[i])
            && (CanTake(k.ram.contacts[i], t.epoch, t.sequence) <==>
                t.epoch > Succ(c.anchor) || (t.epoch in c.winEpochs && !Replay.Covered(WindowFor(c, t.epoch), t.sequence)))
  {
    hide CanTake, Replay.Covered, Apply, DoCommit;
    StaleRestart(cr, n, v, radioTook, hostTook, next);
    var k, c := Apply(cr, DoCommit(n, Done(radioTook, hostTook)), Crash(next)), v.contacts[i];
    var d := k.ram.contacts[i];
    RestoresWindows(c);
    assert d == RestoreContact(c);
    SpentIffNeverTaken(d, t.epoch, t.sequence);
    hide RestoreContact;
  }

  /** The restart finds what the commit wrote. */
  lemma StaleRestart(cr: Crypto, n: Node, v: View, radioTook: bool, hostTook: bool, next: bool)
    requires n.usb == Some(v) && n.held.taken.Some?
    ensures var k := Apply(cr, DoCommit(n, Done(radioTook, hostTook)), Crash(next));
            k.ram.contacts == RestoreContacts(v.contacts) && (hostTook ==> n.held.taken.value in k.logs.delivered)
  {
    hide CommitOk, RestoreContacts;
  }

  lemma RestoresWindows(c: Contact)
    requires c.present && ShapeOk(c)
    ensures var d := RestoreContact(c);
            d.present && ShapeOk(d) && d.anchor == c.anchor && d.winEpochs == c.winEpochs && d.winData == c.winData && d.root == c.root
  {}

  // ---- example primitives and boards ----

  function Fill(b: byte): (s: bytes)
    ensures |s| == 32 && s[0] == b
  {
    seq(32, i => b)
  }

  /** Sound primitives that hide nothing. */
  const TOY: Crypto :=
    Crypto((root, l) => root, (k, e) => k, (k, n, a, p) => p + Zeros(16),
           (k, n, a, b) => if |b| < 16 then None else Some(b[..|b| - 16]), (k, id, e) => 7, b => b,
           k => k, (a, b) => Fill(1), k => k, (k, m) => Zeros(64), (k, m, s) => true, (a, b) => Zeros(32), (d, t) => Zeros(32),
           b => Zeros(32), (k, m) => Zeros(32))

  lemma ToyIsCorrect()
    ensures Ceremony.Correct(TOY)
  {
    assert Ceremony.Symmetric(TOY);
    forall k, n, a, p ensures |TOY.seal(k, n, a, p)| == |p| + 16 && TOY.open(k, n, a, TOY.seal(k, n, a, p)) == Some(p) {
      assert (p + Zeros(16))[..|p|] == p;
    }
  }

  const UID_A: bytes8 := Zeros(8)

  const SECONDS: u64 := 360_000

  // ---- runs that keep all of the discipline but one part ----

  datatype Exemption = Nothing | StaleCommits | Revivals

  /** The discipline of a node, or the discipline without the one part that is exempt. */
  predicate AllowedBut(e: Exemption, n: Node, a: Action) {
    match e
    case Nothing => Allowed(TOY, n, a)
    case StaleCommits => a.Commit? || Allowed(TOY, n, a)
    case Revivals => InTurn(n, a) && Lucky(TOY, n, a)
  }

  predicate DisciplinedBut(e: Exemption, n: Node, actions: seq<Action>) {
    actions == [] ||
    (&& DisciplinedBut(e, n, actions[..|actions| - 1])
     && AllowedBut(e, Run(TOY, n, actions[..|actions| - 1]), actions[|actions| - 1]))
  }

  /** Some run from a blank board leads to `n`. */
  ghost predicate Reaches(e: Exemption, n: Node) {
    exists actions :: DisciplinedBut(e, Blank(true), actions) && Run(TOY, Blank(true), actions) == n
  }

  lemma Begins(e: Exemption)
    ensures Reaches(e, Blank(true))
  {
    assert DisciplinedBut(e, Blank(true), []) && Run(TOY, Blank(true), []) == Blank(true);
  }

  lemma Goes(e: Exemption, n: Node, a: Action)
    requires Reaches(e, n) && AllowedBut(e, n, a)
    ensures Reaches(e, Apply(TOY, n, a))
  {
    hide Apply, AllowedBut;
    var actions :| DisciplinedBut(e, Blank(true), actions) && Run(TOY, Blank(true), actions) == n;
    assert (actions + [a])[..|actions|] == actions;
    assert DisciplinedBut(e, Blank(true), actions + [a]) && Run(TOY, Blank(true), actions + [a]) == Apply(TOY, n, a);
  }

  const OK: Outcome := Done(true, true)

  /** An operation and its commit, with nothing left on the USB side. */
  function Done2(n: Node, a: Action): Node { Apply(TOY, Apply(TOY, n, a), Commit(OK)) }

  /** What a commit leaves of the state, nothing being held back. */
  lemma GoesAndCommits(e: Exemption, n: Node, a: Action)
    requires Reaches(e, n) && Quiet(n) && n.usb.None? && RamOnly(a) && AllowedBut(e, n, a) && Apply(TOY, n, a).ram.dirty
    ensures Reaches(e, Done2(n, a))
    ensures var m := Done2(n, a);
            m == n.(ram := CommitOk(Apply(TOY, n, a).ram), durable := m.durable) && m.durable == Some(Apply(TOY, n, a).ram.scratch)
  {
    hide AllowedBut, OpKeeps, CalmState;
    RamGentle(TOY, n, a);
    hide Reaches;
    Goes(e, n, a);
    CommitGoes(e, Apply(TOY, n, a));
    Goes(e, Apply(TOY, n, a), Commit(OK));
    hide Apply;
    CommitsQuiet(Apply(TOY, n, a));
  }

  lemma CommitGoes(e: Exemption, n: Node)
    requires n.usb.None?
    ensures AllowedBut(e, n, Commit(OK))
  {
    hide DoCommit;
  }

  lemma CommitsQuiet(n: Node)
    requires n.held == NOTHING_HELD && n.usb.None? && n.ram.dirty
    ensures Apply(TOY, n, Commit(OK)) == n.(ram := CommitOk(n.ram), durable := Some(n.ram.scratch))
  {
    hide CommitOk;
  }

  /** What staging and committing leave of a state. */
  function Settled(s: State, op: StagedOp): State { s.(staged := None, dirty := false, scratch := Stage(s, op).scratch) }

  lemma CommittedPlain(s: State, op: StagedOp)
    requires !op.TxReserve? && !op.PairActivate?
    ensures CommitOk(Stage(s, op)) == Settled(s, op)
  {}

  lemma CommittedActivation(s: State, slot: nat)
    ensures CommitOk(Stage(s, PairActivate(slot))) == Settled(s.(attempt := None), PairActivate(slot))
  {}

  // ---- a board with one contact ----

  function OneContact(c: Contact): Contacts { seq(MAX_CONTACTS, i => if i == 0 then c else NO_CONTACT) }

  lemma OneOf(c: Contact)
    ensures Fresh(true).contacts[0 := c] == OneContact(c) && OneContact(c)[0] == c
    ensures forall d :: OneContact(c)[0 := d] == OneContact(d)
  {
    forall d ensures OneContact(c)[0 := d] == OneContact(d) { }
  }

  /** At rest: nothing staged, held, pending or in flight, and one contact. */
  predicate Rest(n: Node, c: Contact) {
    && Quiet(n) && n.usb.None? && !n.inflight
    && n.ram.provisioned && !n.ram.fault && n.ram.radioAvailable && !n.ram.dirty && n.ram.staged.None? && n.ram.pendingSend.None?
    && n.ram.contacts == OneContact(c) && n.ram.persistedTxEpoch <= 100 && n.ram.monoS == 0
  }

  /** A contact as pairing makes it, anchored at `hour`. */
  predicate Newcomer(c: Contact, hour: u32) { c == NewContact(c.edPeer, c.peerIdentity, c.root, c.role, hour) }

  /** Nothing stands against an operation that only changes RAM. */
  lemma FreeToAct(e: Exemption, n: Node, a: Action)
    requires Quiet(n) && n.ram.pendingSend.None? && !n.ram.fault && RamOnly(a)
    ensures AllowedBut(e, n, a)
  {
    hide Apply;
  }

  lemma Arms(e: Exemption, n: Node, c: Contact)
    requires Reaches(e, n) && Rest(n, c)
    ensures var m := Apply(TOY, n, Action.ArmNextBoot);
            && Reaches(e, m) && m == n.(ram := m.ram) && m.ram == Stage(n.ram.(armedNextBoot := true), Plain)
  {
    hide Reaches, AllowedBut;
    FreeToAct(e, n, Action.ArmNextBoot);
    Goes(e, n, Action.ArmNextBoot);
    ArmIs(n);
  }

  lemma ArmIs(n: Node)
    requires n.ram.provisioned && !n.ram.fault && n.ram.radioAvailable
    ensures Apply(TOY, n, Action.ArmNextBoot) == n.(ram := Stage(n.ram.(armedNextBoot := true), Plain))
  {
    hide Stage;
  }

  // ---- the clock ----

  lemma {:induction false} FloorAtMost(cs: Contacts, base: u32, n: nat, e: u32)
    requires n <= MAX_CONTACTS && base <= e && forall i :: 0 <= i < n && cs[i].present ==> cs[i].anchor <= e
    ensures Floor(cs, base, n) <= e
  {
    if n > 0 { FloorAtMost(cs, base, n - 1, e); }
  }

  lemma NewcomerAdvances(c: Contact, hour: u32)
    requires Newcomer(c, hour) && hour <= 100
    ensures c.present && c.anchor == hour && AdvanceContacts(OneContact(c), 100) == OneContact(AdvanceContact(c, 100))
    ensures Newcomer(AdvanceContact(c, 100), 100) && AdvanceContact(c, 100) == c.(anchor := 100, winEpochs := Slots(100))
  {
    var d := AdvanceContact(c, 100);
    assert MoveAll(c.winData, c.winEpochs, Slots(100)) == c.winData && MoveAll(c.winAck, c.winEpochs, Slots(100)) == c.winAck;
    assert AdvanceContact(NO_CONTACT, 100) == NO_CONTACT;
    hide AdvanceContact;
    assert AdvanceContacts(OneContact(c), 100) == OneContact(d);
  }

  const CLOCK: Action := Action.SetTime(SECONDS, true)

  /** Setting the time anchors the contact at hour 100. */
  lemma SetsTime(e: Exemption, n: Node, c: Contact, hour: u32)
    requires Reaches(e, n) && Rest(n, c) && Newcomer(c, hour) && hour <= 100
    ensures var (m, d) := (Done2(n, CLOCK), c.(anchor := 100, winEpochs := Slots(100)));
            && Reaches(e, m) && Rest(m, d) && Newcomer(d, 100) && OnTime(m.ram) && m.logs == n.logs && m.ram.attempt == n.ram.attempt
            && m.ram.radioOn == n.ram.radioOn
  {
    hide Reaches, AllowedBut, Apply, Stage, Newcomer;
    NewcomerAdvances(c, hour);
    FloorAtMost(n.ram.contacts, n.ram.persistedTxEpoch, MAX_CONTACTS, 100);
    TimeIs(n);
    FreeToAct(e, n, CLOCK);
    var t := n.ram.(contacts := AdvanceContacts(n.ram.contacts, 100), unixSeconds := SECONDS, timeValid := true, utcMonoS := n.ram.monoS);
    StagesDirty(t, Time(SECONDS));
    GoesAndCommits(e, n, CLOCK);
    CommittedPlain(t, Time(SECONDS));
  }

  predicate OnTime(s: State) { s.timeValid && s.unixSeconds == SECONDS }

  lemma StagesDirty(s: State, op: StagedOp)
    ensures Stage(s, op).dirty
  {}

  lemma TimeIs(n: Node)
    requires !n.ram.fault && Floor(n.ram.contacts, n.ram.persistedTxEpoch, MAX_CONTACTS) <= 100
    ensures Apply(TOY, n, CLOCK) ==
            n.(ram := Stage(n.ram.(contacts := AdvanceContacts(n.ram.contacts, 100), unixSeconds := SECONDS, timeValid := true,
                                   utcMonoS := n.ram.monoS), Time(SECONDS)))
  {
    assert EpochOfUnix(SECONDS) == Some(100);
    hide Floor, AdvanceContacts, Stage;
  }

  // ---- pairing ----

  const ID: Action := Action.SetIdentity(UID_A)

  lemma Boots(e: Exemption)
    ensures var n := Done2(Blank(true), ID);
            Reaches(e, n) && n.ram == Settled(Fresh(true).(uidSet := true), Plain) && n == Blank(true).(ram := n.ram, durable := n.durable)
  {
    hide Reaches, AllowedBut, Stage;
    Begins(e);
    FreeToAct(e, Blank(true), ID);
    IdIs();
    StagesDirty(Fresh(true).(uidSet := true), Plain);
    CommittedPlain(Fresh(true).(uidSet := true), Plain);
    hide Apply;
    GoesAndCommits(e, Blank(true), ID);
  }

  lemma IdIs()
    ensures Apply(TOY, Blank(true), ID) == Blank(true).(ram := Stage(Fresh(true).(uidSet := true), Plain))
  {
    hide Stage;
    assert Fresh(true).(uid := UID_A, uidSet := true) == Fresh(true).(uidSet := true);
  }

  function PROVISION(): Action { Action.Provision(1, Fill(1)) }

  /** The example board before pairing. */
  function Board(): Node { Done2(Done2(Blank(true), ID), PROVISION()) }

  function Labelled(s: State): State { s.(boardLabel := 1, signPriv := Fill(1), signSet := true, provisioned := true) }

  lemma Provisions(e: Exemption)
    ensures Reaches(e, Board()) && Quiet(Board()) && Board() == Blank(true).(ram := Board().ram, durable := Board().durable)
    ensures var s := Board().ram;
            s == Labelled(Fresh(true)).(uidSet := true, scratch := s.scratch)
  {
    hide Reaches, AllowedBut, Stage, Labelled, Fresh;
    Boots(e);
    var n := Done2(Blank(true), ID);
    BootedState(n.ram);
    FreeToAct(e, n, PROVISION());
    ProvisionIs(n);
    StagesDirty(Labelled(n.ram), StagedOp.Provision);
    CommittedPlain(Labelled(n.ram), StagedOp.Provision);
    hide Apply;
    GoesAndCommits(e, n, PROVISION());
    ProvisionedState(n.ram);
  }

  lemma BootedState(s: State)
    requires s == Settled(Fresh(true).(uidSet := true), Plain)
    ensures !s.fault && !s.provisioned && s.pendingSend.None? && s.staged.None? && !s.dirty
  {}

  lemma ProvisionIs(n: Node)
    requires !n.ram.fault && !n.ram.provisioned
    ensures Apply(TOY, n, PROVISION()) == n.(ram := Stage(Labelled(n.ram), StagedOp.Provision))
  {
    hide Stage;
  }

  lemma ProvisionedState(s: State)
    requires s == Settled(Fresh(true).(uidSet := true), Plain)
    ensures var t := Settled(Labelled(s), StagedOp.Provision); t == Labelled(Fresh(true)).(uidSet := true, scratch := t.scratch)
  {}

  lemma PairGoes(e: Exemption, n: Node, a: Action)
    requires Reaches(e, n) && Quiet(n) && Pairs(a) && Lucky(TOY, n, a) && (e == Revivals || RevivesNothing(TOY, n, a))
    ensures var m := Apply(TOY, n, a);
            && Reaches(e, m) && m == n.(ram := PairRam(TOY, n.ram, a), logs := m.logs)
            && m.logs == n.logs.(used := m.logs.used, made := m.logs.made, offered := m.logs.offered)
  {
    hide Reaches, AllowedBut, Lucky;
    PairApply(TOY, n, a);
    PairLogs(n, a);
    assert AllowedBut(e, n, a) by { LuckyPairs(e, n, a); }
    hide Apply;
    Goes(e, n, a);
  }

  lemma PairLogs(n: Node, a: Action)
    requires Pairs(a)
    ensures var m := Apply(TOY, n, a); m.logs == n.logs.(used := m.logs.used, made := m.logs.made, offered := m.logs.offered)
  {
    hide Ceremony.PairOffer, Ceremony.Import, Ceremony.PairProof, Ceremony.PairConfirm, Activation, OwnOffer;
  }

  lemma LuckyPairs(e: Exemption, n: Node, a: Action)
    requires Quiet(n) && Pairs(a) && Lucky(TOY, n, a) && (e == Revivals || RevivesNothing(TOY, n, a))
    ensures AllowedBut(e, n, a)
  {
    hide Apply, Lucky;
  }

  /** Before an activation: what pairing has changed so far. */
  predicate Pairing(n: Node) {
    && Quiet(n) && n.usb.None? && n.held == NOTHING_HELD && !n.inflight
    && n.ram == Board().ram.(attempt := n.ram.attempt)
    && n.logs == Blank(true).logs.(offered := n.logs.offered)
  }

  lemma Continues(e: Exemption, n: Node, a: Action)
    requires Reaches(e, n) && Pairing(n) && Pairs(a) && Lucky(TOY, n, a)
    requires var t := PairRam(TOY, n.ram, a); t == n.ram.(attempt := t.attempt)
    requires a.PairImport? ==> Activation(TOY, n.ram, a.record, a.replace, a.sasMatch).None?
    ensures Reaches(e, Apply(TOY, n, a)) && Pairing(Apply(TOY, n, a)) && Apply(TOY, n, a).ram == PairRam(TOY, n.ram, a)
  {
    hide Reaches, Lucky, Board, Fresh, PairRam;
    PairGoes(e, n, a);
    MadeOnlyByImports(n, a);
    hide Apply;
  }

  lemma MadeOnlyByImports(n: Node, a: Action)
    requires Pairs(a) && (a.PairImport? ==> Activation(TOY, n.ram, a.record, a.replace, a.sasMatch).None?)
    ensures var l := Apply(TOY, n, a).logs; l == n.logs.(offered := l.offered)
  {
    hide Ceremony.PairOffer, Ceremony.Import, Ceremony.PairProof, Ceremony.PairConfirm, Activation, OwnOffer;
  }

  /** An import that activates nothing changes the attempt alone. */
  lemma ImportsQuietly(s: State, record: bytes, sasMatch: bool)
    requires Ceremony.Import(TOY, s, record, false, sasMatch).result == Ok(None)
    ensures var t := Ceremony.Import(TOY, s, record, false, sasMatch).state; t == s.(attempt := t.attempt)
    ensures Activation(TOY, s, record, false, sasMatch).None?
  {
    hide Ceremony.Import, Ceremony.ImportConfirm, Ceremony.WithOffer, Ceremony.WithProof, Ceremony.Guard, Activation;
    QuietMakesNothing(s, record, sasMatch);
    NodePairing.ImportCases(TOY, s, record, false, sasMatch);
  }

  lemma QuietMakesNothing(s: State, record: bytes, sasMatch: bool)
    requires Ceremony.Import(TOY, s, record, false, sasMatch).result == Ok(None)
    ensures Activation(TOY, s, record, false, sasMatch).None?
  {
    hide Ceremony.Import, Ceremony.PairRoot;
  }

  function Other(): State { Labelled(Fresh(true)).(uidSet := true, signPriv := Fill(2)) }

  lemma BothWilling()
    ensures Ceremony.Willing(Board().ram) && Ceremony.Willing(Other())
    ensures TOY.pub(Fill(3)) != Zeros(32) && TOY.pub(Fill(4)) != Zeros(32) && TOY.dh(Fill(3), TOY.pub(Fill(4))) != Zeros(32)
    ensures TOY.edPub(Board().ram.signPriv) != TOY.edPub(Other().signPriv)
    ensures !Ceremony.KnownPeer(Board().ram.contacts, TOY.edPub(Other().signPriv))
    ensures !Ceremony.KnownPeer(Other().contacts, TOY.edPub(Board().ram.signPriv))
    ensures Ceremony.FreeSlot(Board().ram.contacts, 0) == Some(0) && Board().ram.monoS == 0 && !Board().ram.timeValid
    ensures Board().ram.contacts == Fresh(true).contacts
  {
    Provisions(Nothing);
    hide Board, Reaches;
    assert Fill(3)[0] != Zeros(32)[0] && Fill(4)[0] != Zeros(32)[0] && Fill(1)[0] != Zeros(32)[0] && Fill(1)[0] != Fill(2)[0];
  }

  /** The board has imported the confirmation; its activation waits for the commit. */
  predicate Activating(n: Node, att: Records.PairAttempt, c: Contact, record: bytes) {
    && n.usb.None? && n.held == NOTHING_HELD && !n.inflight
    && n.ram == Stage(Board().ram.(attempt := Some(att), contacts := OneContact(c)), PairActivate(0))
    && Newcomer(c, 0) && Repeatable(att, c, record)
    && n.logs == Blank(true).logs.(offered := n.logs.offered, used := n.logs.used, made := n.logs.made)
    && att.peerOffer.Some? && n.logs.made == {Made(c.root, att.ownRole, att.ownOffer, att.peerOffer.value)}
  }

  /** The attempt confirms this contact when it gets this record. */
  predicate Repeatable(att: Records.PairAttempt, c: Contact, record: bytes) {
    && att.slot == 0 && att.start == 0 && att.ownRole == c.role <= 1 && Ceremony.PeerEd(att) == c.edPeer
    && record != [] && record[0] == Records.RECORD_CONFIRM
    && Ceremony.Confirmed(TOY, att, record) == Ok((c.root, c.peerIdentity))
  }

  lemma PairsUp(e: Exemption) returns (n: Node, att: Records.PairAttempt, c: Contact, record: bytes)
    ensures Reaches(e, n) && Activating(n, att, c, record)
  {
    hide Reaches, Board, Other, Fresh, Ceremony.PairOffer, Ceremony.Import, Ceremony.PairProof, Ceremony.PairConfirm, Activation, OwnOffer,
      Ceremony.Correct, Ceremony.Willing, Ceremony.ActivatedBy, Activating, Apply, Ceremony.KnownPeer, Ceremony.FreeSlot, Zeros;
    ToyIsCorrect();
    BothWilling();
    Provisions(e);
    var s := Board().ram;
    var pa, pb, fa, fb, i, j := Ceremony.CeremonyCompletes(TOY, s, Other(), Fill(3), Fill(4), Fill(5), Fill(6));
    n := Exchanges(e, pb, pa, fa, i);
    AttemptIs(s, fa, i, pb.confirmation);
    att, c, record := fa.attempt.value, fa.contacts[0], pb.confirmation;
    n := Confirms(e, n, fa, att, c, record);
  }

  lemma AttemptIs(s: State, fa: State, i: nat, record: bytes)
    requires Ceremony.ActivatedBy(TOY, s, fa, i, record) && Ceremony.FreeSlot(s.contacts, 0) == Some(0) && s.monoS == 0 && !s.timeValid
    requires s.contacts == Fresh(true).contacts
    ensures i == 0 && fa.attempt.Some?
    ensures var (att, c) := (fa.attempt.value, fa.contacts[0]);
            && fa == Stage(s.(attempt := Some(att), contacts := OneContact(c)), PairActivate(0))
            && Newcomer(c, 0) && Repeatable(att, c, record)
  {
    hide Ceremony.FreeSlot, Ceremony.Confirmed, Ceremony.PeerEd, Stage;
    OneOf(fa.contacts[i]);
    ConfirmedIsConfirmation(fa.attempt.value, record);
    NodePairing.NewContactIs(Ceremony.PeerEd(fa.attempt.value), fa.contacts[i].peerIdentity, fa.contacts[i].root, fa.attempt.value.ownRole, 0);
  }

  lemma ConfirmedIsConfirmation(a: Records.PairAttempt, record: bytes)
    requires Ceremony.Confirmed(TOY, a, record).Ok?
    ensures record != [] && record[0] == Records.RECORD_CONFIRM
  {
    hide Ceremony.PairRoot, Ceremony.OpenProof, Records.DecodeProof, Ceremony.ConfirmMac, Ceremony.ProofsDigest;
  }

  /** The five calls before the confirmation. */
  lemma Exchanges(e: Exemption, theirs: Ceremony.Papers, own: Ceremony.Papers, fin: State, slot: nat) returns (n: Node)
    requires Ceremony.Side(TOY, Board().ram, Fill(3), Fill(5), theirs, own, fin, slot)
    ensures Reaches(e, n) && Pairing(n)
    ensures Ceremony.Import(TOY, n.ram, theirs.confirmation, false, true) == Step(fin, Ok(Some(slot)))
  {
    hide Reaches, Board, Fresh, Ceremony.PairOffer, Ceremony.Import, Ceremony.PairProof, Ceremony.PairConfirm, Activation, OwnOffer, Apply,
      Pairing;
    Provisions(e);
    n := Board();
    BoardPairs();
    OfferOnlyAttempt(TOY, n.ram, Fill(3), Fill(5));
    OfferLucky(n);
    Continues(e, n, Action.PairOffer(Fill(3), Fill(5)));
    n := Apply(TOY, n, Action.PairOffer(Fill(3), Fill(5)));
    ImportsQuietly(n.ram, theirs.offer, false);
    Continues(e, n, Action.PairImport(theirs.offer, false, false));
    n := Apply(TOY, n, Action.PairImport(theirs.offer, false, false));
    ExportsOnlyAttempt(TOY, n.ram);
    Continues(e, n, Action.PairProof);
    n := Apply(TOY, n, Action.PairProof);
    ImportsQuietly(n.ram, theirs.proof, false);
    Continues(e, n, Action.PairImport(theirs.proof, false, false));
    n := Apply(TOY, n, Action.PairImport(theirs.proof, false, false));
    ExportsOnlyAttempt(TOY, n.ram);
    Continues(e, n, Action.PairConfirm);
    n := Apply(TOY, n, Action.PairConfirm);
  }

  lemma BoardPairs()
    ensures Pairing(Board())
  {
    Provisions(Nothing);
    hide Board, Reaches;
  }

  lemma OfferLucky(n: Node)
    requires Pairing(n) && n.logs.offered == {}
    ensures Lucky(TOY, n, Action.PairOffer(Fill(3), Fill(5)))
  {
    hide Board, OwnOffer;
  }

  /** The confirmation activates the contact. */
  lemma Confirms(e: Exemption, n: Node, fin: State, att: Records.PairAttempt, c: Contact, record: bytes) returns (m: Node)
    requires Reaches(e, n) && Pairing(n) && Ceremony.Import(TOY, n.ram, record, false, true) == Step(fin, Ok(Some(0)))
    requires fin == Stage(Board().ram.(attempt := Some(att), contacts := OneContact(c)), PairActivate(0))
    requires Newcomer(c, 0) && Repeatable(att, c, record)
    ensures Reaches(e, m) && Activating(m, att, c, record)
  {
    hide Reaches, Board, Fresh, Ceremony.Import, Activation, Apply, Newcomer, Repeatable, Stage;
    var a := Action.PairImport(record, false, true);
    FirstImportLucky(n, record);
    ActivationNow(n.ram, fin, att, c, record);
    PairGoes(e, n, a);
    ImportLogs(n, record, Made(c.root, att.ownRole, att.ownOffer, att.peerOffer.value));
    m := Apply(TOY, n, a);
  }

  lemma FirstImportLucky(n: Node, record: bytes)
    requires Pairing(n)
    ensures Lucky(TOY, n, Action.PairImport(record, false, true))
  {
    hide Board, Activation;
  }

  lemma ImportLogs(n: Node, record: bytes, m: Made)
    requires Activation(TOY, n.ram, record, false, true) == Some(m)
    ensures var l := Apply(TOY, n, Action.PairImport(record, false, true)).logs;
            l == n.logs.(used := l.used, made := n.logs.made + {m})
  {
    hide Ceremony.Import, Activation;
  }

  /** The activation belongs to the contact that appears. */
  lemma ActivationNow(s: State, fin: State, att: Records.PairAttempt, c: Contact, record: bytes)
    requires Ceremony.Import(TOY, s, record, false, true) == Step(fin, Ok(Some(0)))
    requires fin.attempt == Some(att) && fin.contacts[0] == c && Repeatable(att, c, record)
    ensures att.peerOffer.Some?
    ensures Activation(TOY, s, record, false, true) == Some(Made(c.root, att.ownRole, att.ownOffer, att.peerOffer.value))
  {
    hide Ceremony.Import, Ceremony.ImportConfirm, Ceremony.WithOffer, Ceremony.WithProof, Ceremony.Guard, Ceremony.Confirmed, Ceremony.PeerEd;
    KeptByConfirmation(s, record);
    Ceremony.ConfirmedMeans(TOY, att, record);
    NodePairing.RootMeans(TOY, att);
    hide Ceremony.PairRoot;
  }

  lemma KeptByConfirmation(s: State, record: bytes)
    requires Ceremony.Import(TOY, s, record, false, true).result.Ok? && Ceremony.Import(TOY, s, record, false, true).result.value.Some?
    ensures s.attempt.Some? && Ceremony.Import(TOY, s, record, false, true).state.attempt == s.attempt
  {
    hide Ceremony.ImportConfirm, Ceremony.WithOffer, Ceremony.WithProof, Ceremony.Guard;
    if s.attempt.Some? { Ceremony.ConfirmKeepsAttempt(TOY, s, record); }
  }

  /** Committed at once, the activation ends its attempt. */
  lemma PairedAndOnTime(e: Exemption) returns (n: Node, c: Contact)
    ensures Reaches(e, n) && Rest(n, c) && Newcomer(c, 100) && OnTime(n.ram) && n.ram.attempt.None? && n.logs.delivered == []
  {
    hide Reaches, Apply, AllowedBut, Activating, Newcomer;
    var m, att, d, record := PairsUp(e);
    ActivationCommitted(m, att, d, record);
    CommitGoes(e, m);
    Goes(e, m, Commit(OK));
    n := Apply(TOY, m, Commit(OK));
    SetsTime(e, n, d, 0);
    c := d.(anchor := 100, winEpochs := Slots(100));
    n := Done2(n, CLOCK);
  }

  lemma ActivationCommitted(n: Node, att: Records.PairAttempt, c: Contact, record: bytes)
    requires Activating(n, att, c, record)
    ensures n.usb.None?
    ensures var m := Apply(TOY, n, Commit(OK));
            Rest(m, c) && Newcomer(c, 0) && m.ram.attempt.None? && m.logs == n.logs && !m.ram.timeValid && !m.ram.radioOn && m.logs.delivered == []
  {
    Provisions(Nothing);
    hide Reaches, Board, Newcomer, Repeatable, OneContact;
    var s := Board().ram.(attempt := Some(att), contacts := OneContact(c));
    StagesDirty(s, PairActivate(0));
    hide Stage;
    CommittedActivation(s, 0);
    CommitsQuiet(n);
    hide Apply;
  }

  // ---- delivery ----

  const HEADER: Header := Header(VERSION_SECURE, FLAG_WANT_ACK, 7, 7, 1, 1, 100, 5)

  function TheBody(): bytes { DataBody([65]) + Zeros(16) }

  function TheFrame(): bytes { Encoded(HEADER, TheBody()) }

  function DELIVERY(): Action { Action.OnFrame(TheFrame(), 0, 9) }

  function TextOf(c: Contact): Taken { Taken(c.root, c.role, 100, 5, 1, [65]) }

  lemma FrameDecodes()
    ensures Frame.Decode(TheFrame()) == Ok(Decoded(HEADER, TheBody())) && |TheBody()| == 18
  {
    hide Frame.Decode, Encoded;
    Frame.DecodeEncoded(HEADER, TheBody());
  }

  lemma OpensAtFirst(s: State, c: Contact)
    requires s.contacts == OneContact(c) && Newcomer(c, 100) && |TheBody()| == 18
    ensures TrySlot(TOY, s.uid, s.contacts[0], HEADER, TheBody()) == Opened(DataBody([65]))
    ensures FirstOpened(TOY, s, HEADER, TheBody(), 0) == Some(0)
  {
    assert TheBody()[..2] == DataBody([65]);
    assert DataBody([65])[1..] == [65];
    assert Utf8.Valid([65]);
    assert Slots(100)[1] == 100;
    NodePairing.NewContactIs(c.edPeer, c.peerIdentity, c.root, c.role, 100);
  }

  lemma TakesData(s: State, c: Contact)
    requires s.contacts == OneContact(c) && Newcomer(c, 100)
    ensures HEADER.epoch in s.contacts[0].winEpochs && !c.blocked
    ensures var r := OnData(TOY, s, 0, HEADER, DataBody([65]), 9);
            r.state.dirty && r.result.kind == Deliver(1, 1) && r.result.event == Some(Received(1, 100, 5, [65]))
  {
    assert Slots(100)[1] == 100;
    assert DataBody([65])[1..] == [65];
    var i := WindowIndex(s.contacts[0], 100);
    assert s.contacts[0].winData[i] == Replay.EMPTY;
    hide BuildAck, Position;
    var w := Replay.Offer(Replay.EMPTY, 5).window;
    var t := s.(contacts := s.contacts[0 := s.contacts[0].(winData := s.contacts[0].winData[i := w])]);
    StagesDirty(t, RxAccept);
    hide Stage;
    StaysDirty(Stage(t, RxAccept));
  }

  lemma StaysDirty(s: State)
    requires s.dirty
    ensures BuildAck(TOY, s, 0, HEADER, 9).state.dirty
  {
    hide AckFrame, Consume, EpochOf;
  }

  /** A ready board opens the frame and holds the text back for its commit. */
  lemma HoldsText(n: Node, c: Contact)
    requires n.ram.provisioned && !n.ram.fault && OnTime(n.ram) && n.ram.contacts == OneContact(c) && Newcomer(c, 100)
    ensures var m := Apply(TOY, n, DELIVERY());
            m.held.taken == Some(TextOf(c)) && m.ram.dirty && m.usb == n.usb && m.logs == n.logs && m.durable == n.durable
  {
    FrameDecodes();
    OpensAtFirst(n.ram, c);
    TakesData(n.ram, c);
    OpensInFrame(n.ram, c);
    hide Frame.Decode, TheFrame, TrySlot, OnData, Engine.OnFrame, TheBody, Apply, OneContact, Newcomer, HeldAfter;
    OneOf(c);
    HeldIs(n.ram, c, OnData(TOY, n.ram, 0, HEADER, DataBody([65]), 9).result);
    FrameApplied(n);
  }

  lemma HeldIs(s: State, c: Contact, r: Reaction)
    requires Frame.Decode(TheFrame()) == Ok(Decoded(HEADER, TheBody())) && s.contacts[0] == c
    requires r.kind == Deliver(1, 1) && r.event == Some(Received(1, 100, 5, [65]))
    ensures HeldAfter(TOY, s, TheFrame(), 9, r).taken == Some(TextOf(c))
  {
    hide Frame.Decode, TheFrame, TheBody, AckRec;
  }

  lemma FrameApplied(n: Node)
    ensures var (m, r) := (Apply(TOY, n, DELIVERY()), Engine.OnFrame(TOY, n.ram, TheFrame(), 0, 9));
            m == n.(ram := r.state, held := HeldAfter(TOY, n.ram, TheFrame(), 9, r.result))
  {
    hide TheFrame, Engine.OnFrame, HeldAfter;
  }

  lemma OpensInFrame(s: State, c: Contact)
    requires s.provisioned && !s.fault && OnTime(s) && s.contacts[0] == c && !c.blocked && 100 in c.winEpochs && |TheBody()| == 18
    requires Frame.Decode(TheFrame()) == Ok(Decoded(HEADER, TheBody()))
    requires TrySlot(TOY, s.uid, s.contacts[0], HEADER, TheBody()) == Opened(DataBody([65]))
    requires FirstOpened(TOY, s, HEADER, TheBody(), 0) == Some(0)
    ensures Engine.OnFrame(TOY, s, TheFrame(), 0, 9) == OnData(TOY, s, 0, HEADER, DataBody([65]), 9)
  {
    assert EpochOfUnix(SECONDS) == Some(100);
    hide Frame.Decode, TheFrame, TheBody, TrySlot, OnData, FirstOpened;
  }

  /** The text goes to the host, and what is committed is whatever the USB side holds. */
  lemma DeliversAndCommits(e: Exemption, n: Node, c: Contact)
    requires Reaches(e, n) && Quiet(n) && (n.usb.None? || e == StaleCommits)
    requires n.ram.provisioned && !n.ram.fault && OnTime(n.ram) && n.ram.contacts == OneContact(c) && Newcomer(c, 100)
    ensures var m := Apply(TOY, Apply(TOY, n, DELIVERY()), Commit(OK));
            && Reaches(e, m) && m.logs.delivered == n.logs.delivered + [TextOf(c)] && (n.usb.Some? ==> m.durable == n.usb)
  {
    hide Reaches, Newcomer;
    HoldsText(n, c);
    FrameFree(e, n);
    Goes(e, n, DELIVERY());
    CommitFree(e, Apply(TOY, n, DELIVERY()));
    Goes(e, Apply(TOY, n, DELIVERY()), Commit(OK));
    CommitReleases(Apply(TOY, n, DELIVERY()), TextOf(c));
    hide Apply;
  }

  lemma FrameFree(e: Exemption, n: Node)
    requires Quiet(n)
    ensures AllowedBut(e, n, DELIVERY())
  {
    hide Apply, TheFrame;
  }

  lemma CommitFree(e: Exemption, n: Node)
    requires n.usb.None? || e == StaleCommits
    ensures AllowedBut(e, n, Commit(OK))
  {
    hide DoCommit;
  }

  lemma CommitReleases(n: Node, t: Taken)
    requires n.ram.dirty && n.held.taken == Some(t)
    ensures var m := Apply(TOY, n, Commit(OK));
            m.logs.delivered == n.logs.delivered + [t] && (n.usb.Some? ==> m.durable == n.usb)
  {
    hide Engine.CommitOk;
  }

  lemma {:induction false} NothingExempt(n: Node, actions: seq<Action>)
    requires DisciplinedBut(Nothing, n, actions)
    ensures Disciplined(TOY, n, actions)
  {
    hide Apply, Allowed;
    if actions != [] { NothingExempt(n, actions[..|actions| - 1]); }
  }

  /** A disciplined run pairs, sets the time and delivers a text: the discipline can be met. */
  lemma OrderlyRunDelivers() returns (actions: seq<Action>, t: Taken)
    ensures Disciplined(TOY, Blank(true), actions) && Run(TOY, Blank(true), actions).logs.delivered == [t]
  {
    hide Apply, Quiet, Run, Newcomer, OneContact, DisciplinedBut, Disciplined;
    var n, c := PairedAndOnTime(Nothing);
    DeliversAndCommits(Nothing, n, c);
    var m := Apply(TOY, Apply(TOY, n, DELIVERY()), Commit(OK));
    actions :| DisciplinedBut(Nothing, Blank(true), actions) && Run(TOY, Blank(true), actions) == m;
    NothingExempt(Blank(true), actions);
    t := TextOf(c);
  }

  // ---- older bytes, and the text comes twice ----

  lemma StagesOnUsb(e: Exemption, n: Node, c: Contact) returns (m: Node)
    requires Reaches(e, n) && Rest(n, c) && OnTime(n.ram)
    ensures Reaches(e, m) && Quiet(m) && m.logs == n.logs
    ensures m.ram.provisioned && !m.ram.fault && OnTime(m.ram) && m.ram.contacts == OneContact(c)
    ensures m.usb.Some? && var v := m.usb.value; v.provisioned && v.persistedTxEpoch <= 100 && v.contacts == OneContact(c)
  {
    hide Reaches, OneContact;
    Arms(e, n, c);
    m := Apply(TOY, n, Action.ArmNextBoot);
    Goes(e, m, StageUsb) by { UsbFree(e, m); }
    m := Apply(TOY, m, StageUsb);
  }

  lemma UsbFree(e: Exemption, n: Node)
    requires Quiet(n)
    ensures AllowedBut(e, n, StageUsb)
  {}

  lemma RestartsFrom(e: Exemption, n: Node, v: View, c: Contact)
    requires Reaches(e, n) && n.durable == Some(v) && v.provisioned && v.persistedTxEpoch <= 100 && v.contacts == OneContact(c)
    requires Newcomer(c, 100)
    ensures var m := Apply(TOY, n, Crash(true)); Reaches(e, m) && Rest(m, c) && m.logs == n.logs
  {
    assert AllowedBut(e, n, Crash(true)) by { CrashFree(e, n); }
    RestoresOne(c);
    hide Reaches, OneContact, Newcomer, RestoreContacts, AllowedBut;
    Goes(e, n, Crash(true));
  }

  lemma CrashFree(e: Exemption, n: Node)
    ensures AllowedBut(e, n, Crash(true))
  {
    hide Boot;
  }

  lemma RestoresOne(c: Contact)
    requires Newcomer(c, 100)
    ensures RestoreContacts(OneContact(c)) == OneContact(c)
  {
    assert RestoreContact(c) == c;
    assert RestoreContact(NO_CONTACT) == NO_CONTACT;
    hide RestoreContact;
  }

  /** A run that keeps the whole discipline except that one commit writes older bytes releases a text twice. */
  lemma StaleBytesDeliverTwice() returns (actions: seq<Action>, t: Taken)
    ensures DisciplinedBut(StaleCommits, Blank(true), actions)
    ensures Run(TOY, Blank(true), actions).logs.delivered == [t, t]
  {
    hide Apply, Quiet, Run, Newcomer, DisciplinedBut, OneContact;
    var n, c := PairedAndOnTime(StaleCommits);
    var m := StagesOnUsb(StaleCommits, n, c);
    DeliversAndCommits(StaleCommits, m, c);
    var k := Apply(TOY, Apply(TOY, m, DELIVERY()), Commit(OK));
    RestartsFrom(StaleCommits, k, m.usb.value, c);
    k := Apply(TOY, k, Crash(true));
    SetsTime(StaleCommits, k, c, 100);
    k := Done2(k, CLOCK);
    SameAnchor(c);
    DeliversAndCommits(StaleCommits, k, c);
    k := Apply(TOY, Apply(TOY, k, DELIVERY()), Commit(OK));
    actions :| DisciplinedBut(StaleCommits, Blank(true), actions) && Run(TOY, Blank(true), actions) == k;
    t := TextOf(c);
  }

  lemma SameAnchor(c: Contact)
    requires Newcomer(c, 100)
    ensures c.(anchor := 100, winEpochs := Slots(100)) == c
  {}
}
