/** What a node guarantees over every disciplined run, through power cuts and failed commits. */
module Guarantees {
  import opened Bytes
  import opened Frame
  import opened Security
  import opened Persist
  import opened Clock
  import opened Engine
  import opened ContactLog
  import opened Node
  import opened NodeRuns
  import opened NodePairing
  import opened PairingOnce
  import opened NodeSteps
  import Ceremony
  import NodeKeeps
  import Records
  import Replay

  /** Two frames on air under one direction key and nonce are one and the same frame: a retry. */
  lemma NonceUsedOnce(cr: Crypto, radioAvailable: bool, actions: seq<Action>, q: Rec, r: Rec)
    requires Disciplined(cr, Blank(radioAvailable), actions)
    requires q in Run(cr, Blank(radioAvailable), actions).logs.air && r in Run(cr, Blank(radioAvailable), actions).logs.air
    requires q.root == r.root && Nonce(q.header.epoch, q.header.sequence) == Nonce(r.header.epoch, r.header.sequence)
    ensures q == r
  {
    hide PairInv, RamInv, DurableInv;
    RunInv(cr, radioAvailable, actions);
    NonceInjective(q.header.epoch, q.header.sequence, r.header.epoch, r.header.sequence);
  }

  /** Every number on air lies below the counter in RAM and below the reservation in flash, so a restart skips it. */
  lemma OnAirBelowCounters(cr: Crypto, radioAvailable: bool, actions: seq<Action>, r: Rec, i: nat)
    requires Disciplined(cr, Blank(radioAvailable), actions) && i < MAX_CONTACTS
    requires r in Run(cr, Blank(radioAvailable), actions).logs.air
    ensures var n := Run(cr, Blank(radioAvailable), actions);
            && (!n.ram.fault && n.ram.contacts[i].present && n.ram.contacts[i].root == r.root ==>
                  r.header.sequence < n.ram.contacts[i].txNext)
            && (n.durable.Some? ==>
                  var c := n.durable.value.contacts[i];
                  c.present && c.root == r.root ==> r.header.sequence < c.txReserved)
  {
    hide Inv, PairInv;
    RunInv(cr, radioAvailable, actions);
    BelowCounters(cr, Run(cr, Blank(radioAvailable), actions), r, i);
  }

  lemma BelowCounters(cr: Crypto, n: Node, r: Rec, i: nat)
    requires Inv(cr, n) && i < MAX_CONTACTS && r in n.logs.air
    ensures !n.ram.fault && n.ram.contacts[i].present && n.ram.contacts[i].root == r.root ==> r.header.sequence < n.ram.contacts[i].txNext
    ensures n.durable.Some? ==>
              var c := n.durable.value.contacts[i];
              c.present && c.root == r.root ==> r.header.sequence < c.txReserved
  {
    hide LogInv, PendingOk, TimeSynced, SnapshotSynced;
    if !n.ram.fault { assert ContactSafe(n.ram.contacts[i], Plus(n)); }
    if n.durable.Some? {
      assert ContactSafe(RestoreContacts(n.durable.value.contacts)[i], n.logs);
      assert ContactOk(n.durable.value.contacts[i]);
    }
  }

  /** No text is released to the host twice. */
  lemma DeliveredAtMostOnce(cr: Crypto, radioAvailable: bool, actions: seq<Action>, i: nat, j: nat)
    requires Disciplined(cr, Blank(radioAvailable), actions)
    requires i < j < |Run(cr, Blank(radioAvailable), actions).logs.delivered|
    ensures var d := Run(cr, Blank(radioAvailable), actions).logs.delivered;
            d[i].root != d[j].root || d[i].epoch != d[j].epoch || d[i].sequence != d[j].sequence
  {
    hide PairInv, RamInv, DurableInv;
    RunInv(cr, radioAvailable, actions);
  }

  /** No slot of this generation takes number `s` of hour `e`, now or at any hour to come. */
  ghost predicate Refused(cs: Contacts, root: bytes32, e: u32, s: u64) {
    forall i :: 0 <= i < MAX_CONTACTS && cs[i].present && cs[i].root == root ==> ShapeOk(cs[i]) && !CanTake(cs[i], e, s)
  }

  /** RAM refuses the number, and so does what any restart makes of flash. */
  ghost predicate RefusedForGood(n: Node, root: bytes32, e: u32, s: u64) {
    && (!n.ram.fault ==> Refused(n.ram.contacts, root, e, s))
    && (n.durable.Some? ==> Refused(RestoreContacts(n.durable.value.contacts), root, e, s))
  }

  lemma SpentRefused(cs: Contacts, l: Logs, a: Taken)
    requires Safe(cs, l) && a in l.accepted
    ensures Refused(cs, a.root, a.epoch, a.sequence)
  {
    hide Spent, CanTake, LogsOk;
    forall i | 0 <= i < MAX_CONTACTS && cs[i].present && cs[i].root == a.root ensures ShapeOk(cs[i]) && !CanTake(cs[i], a.epoch, a.sequence) {
      assert ContactSafe(cs[i], l);
      SpentIffNeverTaken(cs[i], a.epoch, a.sequence);
    }
  }

  /** In every reachable state whatever was accepted is refused for good, in RAM and after any restart. */
  lemma AcceptedStaysRefused(cr: Crypto, n: Node, a: Taken)
    requires Inv(cr, n) && a in n.logs.accepted
    ensures RefusedForGood(n, a.root, a.epoch, a.sequence)
  {
    hide Safe, Refused, LogInv, PendingOk, TimeSynced, SnapshotSynced;
    assert a in Plus(n).accepted;
    if !n.ram.fault { SpentRefused(n.ram.contacts, Plus(n), a); }
    if n.durable.Some? { SpentRefused(RestoreContacts(n.durable.value.contacts), n.logs, a); }
  }

  /** An ACK on air answers a number that RAM and flash refuse for good. */
  lemma AckMeansAccepted(cr: Crypto, radioAvailable: bool, actions: seq<Action>, r: Rec) returns (a: Taken)
    requires Disciplined(cr, Blank(radioAvailable), actions)
    requires r in Run(cr, Blank(radioAvailable), actions).logs.air && !IsData(r)
    ensures a in Run(cr, Blank(radioAvailable), actions).logs.accepted && a.root == r.root
    ensures exists p: u32 :: r.plaintext == AckBody(a.epoch, a.sequence, p)
    ensures RefusedForGood(Run(cr, Blank(radioAvailable), actions), r.root, a.epoch, a.sequence)
  {
    hide AckBody, RefusedForGood, Inv, PairInv, Run, Disciplined;
    RunInv(cr, radioAvailable, actions);
    a := AnsweredBy(cr, Run(cr, Blank(radioAvailable), actions), r);
    AcceptedStaysRefused(cr, Run(cr, Blank(radioAvailable), actions), a);
  }

  lemma AnsweredBy(cr: Crypto, n: Node, r: Rec) returns (a: Taken)
    requires Inv(cr, n) && r in n.logs.air && !IsData(r)
    ensures a in n.logs.accepted && a.root == r.root
    ensures exists p: u32 :: r.plaintext == AckBody(a.epoch, a.sequence, p)
  {
    hide AckBody, RamInv, DurableInv, PendingRec;
    var e: u32, s: u64, p: u32 :| r.plaintext == AckBody(e, s, p) && AcceptedAt(n.logs.accepted, r.root, e, s);
    a :| a in n.logs.accepted && a.root == r.root && a.epoch == e && a.sequence == s;
  }

  /** A commit that releases a text leaves flash with a slot of its generation, and that slot refuses the number. */
  lemma AcceptanceReachesFlash(cr: Crypto, n: Node, radioTook: bool, hostTook: bool)
    requires Inv(cr, n) && CommitInOrder(n, Done(radioTook, hostTook)) && n.held.taken.Some?
    ensures var (m, t) := (DoCommit(n, Done(radioTook, hostTook)), n.held.taken.value);
            && t in m.logs.accepted && m.durable.Some? && RootPresent(RestoreContacts(m.durable.value.contacts), t.root)
            && RefusedForGood(m, t.root, t.epoch, t.sequence)
  {
    hide RefusedForGood, LogInv, DurableInv, Safe, RestoreContacts, StagedContacts, CommitOk;
    CommitInv(cr, n, Done(radioTook, hostTook));
    ScratchSlots(cr, n);
    var (m, t) := (DoCommit(n, Done(radioTook, hostTook)), n.held.taken.value);
    RootWritten(n.ram, t.root);
    AcceptedStaysRefused(cr, m, t);
  }

  lemma RootWritten(s: State, root: bytes32)
    requires RootPresent(s.contacts, root)
    ensures RootPresent(RestoreContacts(StagedContacts(s)), root)
  {
    hide RestoreWindows;
    var i :| 0 <= i < MAX_CONTACTS && s.contacts[i].present && s.contacts[i].root == root;
    var c := RestoreContacts(StagedContacts(s))[i];
    assert c.present && c.root == root;
  }

  // ---- a confirmation imported twice ----

  /** The operations that stage a snapshot of their own, when the engine takes them. */
  predicate Restages(s: State, a: Action) {
    match a
    case SetIdentity(uid) => !(s.uidSet && s.uid == uid)
    case Provision(boardLabel, signPriv) => DoProvision(s, boardLabel, signPriv).result.None?
    case SetTime(seconds, confirmed) => Engine.SetTime(s, seconds, confirmed).result.Ok?
    case AdvanceTime(now) => NodeKeeps.EntersHour(s, now) && Engine.AdvanceTime(s, now).result.None?
    case SetRadio(enabled) => Engine.SetRadio(s, enabled).result.None?
    case ArmNextBoot => Engine.ArmNextBoot(s).result.None?
    case ConsumeBootArm => !s.fault && s.armedNextBoot
    case DeleteContact(contactId) => Engine.DeleteContact(s, contactId).result.None?
    case SetBlocked(contactId, blocked) => Engine.SetBlocked(s, contactId, blocked).result.Ok?
    case SendBegin(contactId, text, packetId) => Engine.SendBegin(s, contactId, text, packetId).result.Ok?
    case _ => false
  }

  /** The commit of an activation ends the attempt unless one of these operations was taken in between: the time set or
      entering another hour, the radio switched, arming, an identity, a deletion, a block bit or a begun send. */
  lemma AttemptEndsIff(cr: Crypto, n: Node, a: Action, radioTook: bool, hostTook: bool)
    requires Inv(cr, n) && n.ram.attempt.Some? && !n.ram.fault && ActivationStaged(n.ram) && Quiet(n)
    requires NodeKeeps.RamOnly(a) || a.SendBegin?
    ensures DoCommit(Apply(cr, n, a), Done(radioTook, hostTook)).ram.attempt == if Restages(n.ram, a) then n.ram.attempt else None
  {
    hide Inv, Apply, Restages, Quiet;
    var m := Apply(cr, n, a);
    ActivationDirty(cr, n);
    OpAttempt(cr, n, a);
    RestagesIff(cr, n, a);
    hide ActivationStaged;
    CommitEnds(m, radioTook, hostTook);
  }

  lemma OpAttempt(cr: Crypto, n: Node, a: Action)
    requires Quiet(n) && (NodeKeeps.RamOnly(a) || a.SendBegin?)
    ensures var m := Apply(cr, n, a); m == n.(ram := m.ram) && m.ram.attempt == n.ram.attempt
  {
    if a.SendBegin? {
      NodeKeeps.SendKeeps(cr, n.ram, a.contactId, a.text, a.packetId);
      hide Engine.SendBegin;
    } else {
      NodeKeeps.RamGentle(cr, n, a);
      hide Apply;
    }
  }

  lemma CommitEnds(n: Node, radioTook: bool, hostTook: bool)
    requires n.ram.dirty && n.ram.attempt.Some?
    ensures DoCommit(n, Done(radioTook, hostTook)).ram.attempt == if ActivationStaged(n.ram) then None else n.ram.attempt
  {
    hide StagedContacts;
  }

  /** Exactly these operations replace the staged activation. */
  lemma RestagesIff(cr: Crypto, n: Node, a: Action)
    requires !n.ram.fault && n.ram.dirty && ActivationStaged(n.ram) && (NodeKeeps.RamOnly(a) || a.SendBegin?)
    ensures var t := Apply(cr, n, a).ram; t.dirty && (ActivationStaged(t) <==> !Restages(n.ram, a))
  {
    hide Apply, Restages, ActivationStaged, NodeKeeps.RamOnly;
    AppliedIs(cr, n, a);
    StagesAnew(cr, n.ram, a);
  }

  lemma AppliedIs(cr: Crypto, n: Node, a: Action)
    requires NodeKeeps.RamOnly(a) || a.SendBegin?
    ensures Apply(cr, n, a).ram == Applied(cr, n.ram, a)
  {
    hide Engine.SetTime, Engine.AdvanceTime, Engine.NoteOrigin, Engine.SendBegin, Engine.SetIdentity, DoProvision, Engine.SetRadio,
      Engine.ArmNextBoot, Engine.ConsumeBootArm, Engine.DeleteContact, Engine.SetBlocked;
  }

  lemma StagesAnew(cr: Crypto, s: State, a: Action)
    requires !s.fault && s.dirty && ActivationStaged(s) && (NodeKeeps.RamOnly(a) || a.SendBegin?)
    ensures var t := Applied(cr, s, a); t.dirty && (ActivationStaged(t) <==> !Restages(s, a))
  {
    hide Applied, Restages, ActivationStaged;
    match a
    case AdvanceTime(now) => TickStages(cr, s, a);
    case SetTime(_, _) => SomeStages(cr, s, a);
    case NoteOrigin(_, _) => SomeStages(cr, s, a);
    case SendBegin(_, _, _) => SomeStages(cr, s, a);
    case _ => PlainStages(cr, s, a);
  }

  lemma TickStages(cr: Crypto, s: State, a: Action)
    requires s.dirty && ActivationStaged(s) && a.AdvanceTime?
    ensures var t := Applied(cr, s, a); t.dirty && (ActivationStaged(t) <==> !Restages(s, a))
  {
    if NodeKeeps.EntersHour(s, a.now) { NodeKeeps.TickRotates(s, a.now); } else { NodeKeeps.TickWithinHour(s, a.now); }
    hide Engine.AdvanceTime, NodeKeeps.EntersHour;
  }

  lemma SomeStages(cr: Crypto, s: State, a: Action)
    requires s.dirty && ActivationStaged(s) && (a.SetTime? || a.NoteOrigin? || a.SendBegin?)
    ensures var t := Applied(cr, s, a); t.dirty && (ActivationStaged(t) <==> !Restages(s, a))
  {
    match a
    case SetTime(seconds, confirmed) => TimeStages(s, seconds, confirmed);
    case NoteOrigin(f, now) => NoteOnlyCache(cr, s, f, now);
    case SendBegin(contactId, text, packetId) => BeginStages(s, contactId, text, packetId);
    hide Engine.SetTime, Engine.NoteOrigin, Engine.SendBegin;
  }

  lemma TimeStages(s: State, seconds: u64, confirmed: bool)
    ensures var r := Engine.SetTime(s, seconds, confirmed); if r.result.Ok? then r.state.dirty && !ActivationStaged(r.state) else r.state == s
  {
    hide Floor, AdvanceContacts;
  }

  lemma BeginStages(s: State, contactId: byte, text: bytes, packetId: u32)
    ensures var r := Engine.SendBegin(s, contactId, text, packetId); if r.result.Ok? then r.state.dirty && !ActivationStaged(r.state) else r.state == s
  {
    hide EpochOf, TextOk;
  }

  lemma StagesOver(s: State, op: StagedOp)
    requires !op.PairActivate?
    ensures Stage(s, op).dirty && !ActivationStaged(Stage(s, op))
  {}

  lemma PlainStages(cr: Crypto, s: State, a: Action)
    requires !s.fault && s.dirty && ActivationStaged(s)
    requires a.SetIdentity? || a.Provision? || a.SetRadio? || a.ArmNextBoot? || a.ConsumeBootArm? || a.DeleteContact? || a.SetBlocked?
    ensures Applied(cr, s, a).dirty && (ActivationStaged(Applied(cr, s, a)) <==> !Restages(s, a))
  {
    hide Stage;
    forall u: State, op: StagedOp | !op.PairActivate? ensures Stage(u, op).dirty && !ActivationStaged(Stage(u, op)) { StagesOver(u, op); }
    hide ActivationStaged;
  }

  function Applied(cr: Crypto, s: State, a: Action): State {
    match a
    case SetTime(seconds, confirmed) => Engine.SetTime(s, seconds, confirmed).state
    case AdvanceTime(now) => Engine.AdvanceTime(s, now).state
    case NoteOrigin(f, now) => Engine.NoteOrigin(cr, s, f, now)
    case SendBegin(contactId, text, packetId) => Engine.SendBegin(s, contactId, text, packetId).state
    case SetIdentity(uid) => Engine.SetIdentity(s, uid)
    case Provision(boardLabel, signPriv) => DoProvision(s, boardLabel, signPriv).state
    case SetRadio(enabled) => Engine.SetRadio(s, enabled).state
    case ArmNextBoot => Engine.ArmNextBoot(s).state
    case ConsumeBootArm => Engine.ConsumeBootArm(s).state
    case DeleteContact(contactId) => Engine.DeleteContact(s, contactId).state
    case SetBlocked(contactId, blocked) => Engine.SetBlocked(s, contactId, blocked).state
    case _ => s
  }

  /** A confirmation can be imported again while its attempt lives: the root starts over at number 0. The node invariant
      survives exactly when nothing was sent under that root and nothing accepted that could come back. */
  lemma ReactivationSafeIff(cr: Crypto, n: Node, record: bytes, replace: bool, sasMatch: bool, m: Made)
    requires FullInv(cr, n) && Quiet(n) && Activation(cr, n.ram, record, replace, sasMatch) == Some(m) && RootSeparate(n.logs, m)
    requires m in n.logs.made
    ensures n.ram.attempt.Some? && n.ram.attempt.value.slot < MAX_CONTACTS
    ensures var c := Apply(cr, n, Action.PairImport(record, replace, sasMatch)).ram.contacts[n.ram.attempt.value.slot];
            c.present && c.root == m.root && c.txNext == 0
    ensures Inv(cr, Apply(cr, n, Action.PairImport(record, replace, sasMatch))) <==> Untouched(n.logs, m.root, EpochOf(n.ram))
  {
    hide Inv, PairInv, Activation, Untouched, RootSeparate, EpochOf;
    var n' := Apply(cr, n, Action.PairImport(record, replace, sasMatch));
    RevivedSlot(cr, n, record, replace, sasMatch, m);
    if Untouched(n.logs, m.root, EpochOf(n.ram)) {
      ImportInv(cr, n, record, replace, sasMatch);
    } else if Inv(cr, n') {
      RevivalUnsafe(cr, n, record, replace, sasMatch, m, n'.ram);
      InvRam(cr, n');
    }
  }

  lemma InvRam(cr: Crypto, n: Node)
    requires Inv(cr, n) && n.held == NOTHING_HELD
    ensures RamInv(cr, n.ram, n.logs)
  {
    hide RamInv, LogInv, DurableInv, PendingRec;
    assert Plus(n) == n.logs;
  }

  /** What the second activation leaves: a new contact of the old root, and the logs as they were. */
  lemma RevivedSlot(cr: Crypto, n: Node, record: bytes, replace: bool, sasMatch: bool, m: Made)
    requires FullInv(cr, n) && Quiet(n) && Activation(cr, n.ram, record, replace, sasMatch) == Some(m) && RootSeparate(n.logs, m)
    requires m in n.logs.made
    ensures n.ram.attempt.Some? && var a := n.ram.attempt.value;
            && a.slot < MAX_CONTACTS && a.peerIdentity.Some?
            && var n' := Apply(cr, n, Action.PairImport(record, replace, sasMatch));
               && n'.ram.contacts[a.slot] == NewContact(Ceremony.PeerEd(a), a.peerIdentity.value, m.root, m.role, EpochOf(n.ram))
               && n'.ram.contacts[a.slot].present && n'.ram.contacts[a.slot].root == m.root && n'.ram.contacts[a.slot].txNext == 0
               && n'.logs == n.logs && n'.held == NOTHING_HELD && !n'.ram.fault
  {
    hide Inv, PairInv, Activate, Ceremony.Import, Ceremony.ImportConfirm, Activation, Ceremony.Guard, Ceremony.PeerEd, MadeOk, NewContact,
      EpochOf, RootSeparate, Untouched, MadeFits;
    ImportCases(cr, n.ram, record, replace, sasMatch);
    FullParts(cr, n);
    ActivationFacts(cr, n, record, replace, m);
    var a := n.ram.attempt.value;
    NewContactIs(Ceremony.PeerEd(a), a.peerIdentity.value, m.root, m.role, EpochOf(n.ram));
    StartsAtZero(Ceremony.PeerEd(a), a.peerIdentity.value, m.root, m.role, EpochOf(n.ram));
    MadeParts(cr, n);
    KnownActivation(n.logs, m);
    ActivateHealthy(n.ram, a.slot, Ceremony.PeerEd(a), a.peerIdentity.value, m.root, m.role);
  }

  lemma MadeParts(cr: Crypto, n: Node)
    requires PairInv(cr, n)
    ensures MadeOk(n.logs)
  {}

  /** A revived root that is not untouched breaks the invariant of RAM, whatever happens to the rest. */
  lemma RevivalUnsafe(cr: Crypto, n: Node, record: bytes, replace: bool, sasMatch: bool, m: Made, t: State)
    requires FullInv(cr, n) && Quiet(n) && Activation(cr, n.ram, record, replace, sasMatch) == Some(m) && RootSeparate(n.logs, m)
    requires m in n.logs.made && !Untouched(n.logs, m.root, EpochOf(n.ram))
    requires t == Apply(cr, n, Action.PairImport(record, replace, sasMatch)).ram
    ensures !RamInv(cr, t, n.logs)
  {
    hide FullInv, RamInv, Activation, Untouched, RootSeparate, EpochOf, Apply, NewContact, Ceremony.PeerEd;
    RevivedSlot(cr, n, record, replace, sasMatch, m);
    if RamInv(cr, t, n.logs) {
      var a := n.ram.attempt.value;
      SlotSafe(cr, t, a.slot, n.logs);
      SafeMeansUntouched(Ceremony.PeerEd(a), a.peerIdentity.value, m.root, m.role, EpochOf(n.ram), n.logs);
    }
  }

  /** No number has been taken in. */
  predicate WindowsEmpty(c: Contact) { forall k :: 0 <= k < 3 ==> c.winData[k].empty }

  /** What the slot shows of it, while it holds the root at the current hour: with number 0 next and empty windows the
      root is untouched, with a marked number it is not. */
  lemma UntouchedShows(cr: Crypto, n: Node, i: nat)
    requires Inv(cr, n) && Quiet(n) && !n.ram.fault && i < MAX_CONTACTS && n.ram.contacts[i].present
    requires n.ram.contacts[i].anchor == EpochOf(n.ram)
    ensures var c := n.ram.contacts[i];
            && (c.txNext == 0 && WindowsEmpty(c) ==> Untouched(n.logs, c.root, EpochOf(n.ram)))
            && (forall e: u32, s: u64 :: e in c.winEpochs && Replay.Marked(WindowFor(c, e), s) ==> !Untouched(n.logs, c.root, EpochOf(n.ram)))
  {
    hide Inv, Untouched, EpochOf;
    QuietRam(cr, n);
    SlotSafe(cr, n.ram, i, n.logs);
    SlotShows(n.ram.contacts[i], n.logs);
  }

  lemma SlotShows(c: Contact, l: Logs)
    requires ContactSafe(c, l) && c.present
    ensures c.txNext == 0 && WindowsEmpty(c) ==> Untouched(l, c.root, c.anchor)
    ensures forall e: u32, s: u64 :: e in c.winEpochs && Replay.Marked(WindowFor(c, e), s) ==> !Untouched(l, c.root, c.anchor)
  {
    if c.txNext == 0 && WindowsEmpty(c) {
      forall a | a in l.accepted && a.root == c.root ensures a.epoch <= Succ(c.anchor) && a.epoch !in Slots(c.anchor) {
        assert Spent(c, a.epoch, a.sequence);
      }
    }
    forall e: u32, s: u64 | e in c.winEpochs && Replay.Marked(WindowFor(c, e), s) ensures !Untouched(l, c.root, c.anchor) {
      assert AcceptedAt(l.accepted, c.root, e, s);
    }
  }

  lemma StartsAtZero(ed: bytes32, id: bytes8, root: bytes32, role: byte, epoch: u32)
    ensures NewContact(ed, id, root, role, epoch).txNext == 0
  {}

  lemma ActivateHealthy(s: State, slot: nat, ed: bytes32, id: bytes8, root: bytes32, role: byte)
    ensures Activate(s, slot, ed, id, root, role).state.fault == s.fault
  {
    hide NewContact, EpochOf;
  }

  lemma SlotSafe(cr: Crypto, s: State, slot: nat, l: Logs)
    requires RamInv(cr, s, l) && !s.fault && slot < MAX_CONTACTS
    ensures ContactSafe(s.contacts[slot], l)
  {
    hide ContactSafe, PendingOk;
  }

  lemma KnownActivation(l: Logs, m: Made)
    requires MadeOk(l) && m in l.made
    ensures Activated(l, Some(m)) == l && (m.root, m.role) in l.used && m.role <= 1
  {
    assert MadeFits(l, m);
    hide Records.Less;
  }

  lemma SafeMeansUntouched(ed: bytes32, id: bytes8, root: bytes32, role: byte, hour: u32, l: Logs)
    requires ContactSafe(NewContact(ed, id, root, role, hour), l)
    ensures Untouched(l, root, hour)
  {
    var c := NewContact(ed, id, root, role, hour);
    forall a | a in l.accepted && a.root == root ensures a.epoch <= Succ(hour) && a.epoch !in Slots(hour) {
      assert Spent(c, a.epoch, a.sequence);
    }
  }

  // ---- snapshots ----

  /** A restored slot is the slot that was staged, resumed after its reserved block. */
  predicate Resumed(c: Contact, restored: Contact) {
    restored == if c.present then c.(txNext := c.txReserved) else NO_CONTACT
  }

  /** The identity and the slots survive; time, radio and the pending send do not. */
  predicate SameAfterRestart(s: State, t: State) {
    && !t.timeValid && !t.radioOn && t.pendingSend.None? && t.attempt.None?
    && t.provisioned == s.provisioned && t.armedNextBoot == s.armedNextBoot && t.boardLabel == s.boardLabel
    && t.uid == s.uid && t.uidSet == s.uidSet && t.persistedTxEpoch == s.persistedTxEpoch
    && t.signPriv == s.signPriv && t.signSet == s.signSet
    && forall i :: 0 <= i < MAX_CONTACTS ==> Resumed(StagedContacts(s)[i], t.contacts[i])
  }

  /** Every staged snapshot decodes, and restoring it gives back the identity and all slots. */
  lemma SnapshotRestores(cr: Crypto, radioAvailable: bool, actions: seq<Action>, next: bool)
    requires Disciplined(cr, Blank(radioAvailable), actions)
    requires Run(cr, Blank(radioAvailable), actions).ram.dirty
    ensures var s := Run(cr, Blank(radioAvailable), actions).ram;
            var r := RestoreBytes(Fresh(next), Encode(s.scratch));
            r.result.None? && SameAfterRestart(s, r.state)
  {
    hide Inv, PairInv, Run, Disciplined, Encode, Persist.Decode;
    RunInv(cr, radioAvailable, actions);
    ScratchRestores(cr, Run(cr, Blank(radioAvailable), actions), next);
  }

  lemma ScratchRestores(cr: Crypto, n: Node, next: bool)
    requires Inv(cr, n) && n.ram.dirty
    ensures var s := n.ram;
            var r := RestoreBytes(Fresh(next), Encode(s.scratch));
            r.result.None? && SameAfterRestart(s, r.state)
  {
    hide LogInv, PendingRec;
    ScratchDurable(n.ram, Plus(n));
    Persist.DecodeEncoded(n.ram.scratch);
    hide Encode, Persist.Decode, Safe, RestoreContacts, StagedContacts, Fresh, DurableInv;
    ResumedFrom(StagedContacts(n.ram), Plus(n));
  }

  lemma ResumedFrom(cs: Contacts, l: Logs)
    requires Safe(cs, l) && Reserved(cs)
    ensures forall i :: 0 <= i < MAX_CONTACTS ==> Resumed(cs[i], RestoreContacts(cs)[i])
  {
    forall i | 0 <= i < MAX_CONTACTS ensures Resumed(cs[i], RestoreContacts(cs)[i]) {
      assert ContactSafe(cs[i], l);
      Restored(cs[i], l);
    }
  }

  /** Restarting never finds a record it cannot read: booting is restoring the encoded bytes. */
  lemma BootRestoresBytes(cr: Crypto, radioAvailable: bool, actions: seq<Action>, next: bool)
    requires Disciplined(cr, Blank(radioAvailable), actions)
    ensures var durable := Run(cr, Blank(radioAvailable), actions).durable;
            durable.Some? ==> RestoreBytes(Fresh(next), Encode(durable.value)) == Step(Boot(durable, next), None)
  {
    RunInv(cr, radioAvailable, actions);
    var durable := Run(cr, Blank(radioAvailable), actions).durable;
    hide Run, Disciplined, LogInv;
    if durable.Some? { Persist.DecodeEncoded(durable.value); }
  }

  // ---- hours ----

  /** While time is trusted, the hours on air that are accepted are exactly those every slot keeps windows for. */
  lemma AcceptedHoursRetained(cr: Crypto, radioAvailable: bool, actions: seq<Action>, i: nat, e: u32)
    requires Disciplined(cr, Blank(radioAvailable), actions) && i < MAX_CONTACTS
    ensures var s := Run(cr, Blank(radioAvailable), actions).ram;
            !s.fault && s.timeValid && s.contacts[i].present ==>
              (InAcceptWindow(e, EpochOf(s)) <==> e in s.contacts[i].winEpochs)
  {
    RunInv(cr, radioAvailable, actions);
    var s, l := Run(cr, Blank(radioAvailable), actions).ram, Plus(Run(cr, Blank(radioAvailable), actions));
    hide Run, Disciplined, LogInv;
    AcceptedIffRetained(e, EpochOf(s));
    if !s.fault { assert ContactSafe(s.contacts[i], l); }
  }

  /** The windows of hour `e`, data and ACK. */
  function WindowsAt(c: Contact, e: u32): Option<(Replay.Window, Replay.Window)> {
    match Position(c.winEpochs, e) case None => None case Some(i) => Some((c.winData[i], c.winAck[i]))
  }

  /** Setting the time refuses and changes nothing, or moves every slot in use to the new hour together: an hour
      retained before and after keeps exactly its windows, a new hour starts empty, a retired hour stays retired. */
  lemma HourRotation(s: State, seconds: u64, confirmed: bool, i: nat, e: u32)
    requires i < MAX_CONTACTS && ShapeOk(s.contacts[i])
    ensures var r := Engine.SetTime(s, seconds, confirmed);
            var (c, d) := (s.contacts[i], r.state.contacts[i]);
            && (r.result.Err? ==> r.state == s)
            && (r.result.Ok? && !c.present ==> d == c)
            && (r.result.Ok? && c.present ==>
                  && c.anchor <= r.result.value && d.anchor == r.result.value && d.winEpochs == Slots(d.anchor)
                  && (e in c.winEpochs && e in d.winEpochs ==> WindowsAt(d, e) == WindowsAt(c, e))
                  && (e !in c.winEpochs && e in d.winEpochs ==> WindowsAt(d, e) == Some((Replay.EMPTY, Replay.EMPTY)))
                  && (e <= Succ(c.anchor) && e !in c.winEpochs ==> e !in d.winEpochs))
  {
    var r, c := Engine.SetTime(s, seconds, confirmed), s.contacts[i];
    if r.result.Ok? && c.present {
      FloorBounds(s.contacts, s.persistedTxEpoch, MAX_CONTACTS);
      WindowsMove(c, r.result.value, e);
      if e <= Succ(c.anchor) && e !in c.winEpochs { RetiredStaysRetired(e, c.anchor, r.result.value); }
    }
    hide Floor, AdvanceContact, Stage, ShapeOk, Position;
  }

  lemma WindowsMove(c: Contact, epoch: u32, e: u32)
    requires c.present
    ensures var d := AdvanceContact(c, epoch);
            e in d.winEpochs ==> WindowsAt(d, e) == if e in c.winEpochs then WindowsAt(c, e) else Some((Replay.EMPTY, Replay.EMPTY))
  {}

  // ---- staging twice ----

  /** Staging anything else over a snapshot gives a readable record exactly when no used number depends on the
      reservation that the first staging carried. */
  lemma SecondStagingReadableIff(cr: Crypto, s: State, l: Logs)
    requires RamInv(cr, s, l) && !s.fault
    ensures Persist.Decode(Encode(Stage(s, Plain).scratch)).Ok? <==> Reserved(s.contacts)
  {
    hide Encode, Persist.Decode, Safe, TimeSynced, PendingOk, ContactOk;
    var v := Stage(s, Plain).scratch;
    assert v.contacts == s.contacts && v.boardLabel == s.boardLabel;
    Persist.DecodeEncoded(v);
    StorableIff(s.contacts, l);
  }

  lemma StorableIff(cs: Contacts, l: Logs)
    requires Safe(cs, l)
    ensures forall i :: 0 <= i < MAX_CONTACTS ==> (ContactOk(cs[i]) <==> cs[i].txNext <= cs[i].txReserved)
  {
    forall i | 0 <= i < MAX_CONTACTS ensures ContactOk(cs[i]) <==> cs[i].txNext <= cs[i].txReserved { assert ContactSafe(cs[i], l); }
  }

  /** So a second staging after an ACK that opened a new block makes the record unreadable. */
  lemma SecondStagingLosesReservation(cr: Crypto, s: State, slot: nat, h: Header, packetId: u32)
    requires slot < MAX_CONTACTS && s.contacts[slot].txNext == s.contacts[slot].txReserved
    requires BuildAck(cr, s, slot, h, packetId).result.Some?
    ensures Persist.Decode(Encode(Stage(BuildAck(cr, s, slot, h, packetId).state, Plain).scratch)) == Err(BadVersion)
  {
    hide Encode, Persist.Decode, AckFrame, EpochOf;
    var t := BuildAck(cr, s, slot, h, packetId).state;
    assert t.contacts[slot].txNext > t.contacts[slot].txReserved;
    var v := Stage(t, Plain).scratch;
    assert v.contacts == t.contacts;
    assert !ContactOk(v.contacts[slot]);
    Persist.DecodeEncoded(v);
  }
}
