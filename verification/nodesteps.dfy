/** Every engine operation keeps the invariant of the node. */
module NodeSteps {
  import opened Bytes
  import opened Frame
  import opened Security
  import opened Persist
  import opened Clock
  import opened Engine
  import opened ContactLog
  import opened Node

  /** The part of the invariant that does not speak about the staged snapshot. */
  ghost predicate BaseInv(cr: Crypto, s: State, l: Logs) { CoreInv(cr, s, l) && Reserved(s.contacts) }

  ghost predicate CoreInv(cr: Crypto, s: State, l: Logs) {
    !s.fault && Safe(s.contacts, l) && s.boardLabel <= 3 && TimeSynced(s) && PendingOk(cr, s, l.air)
  }

  predicate NoReserve(s: State) { !(s.staged.Some? && s.staged.value.TxReserve?) }

  /** What every operation other than `SendBegin` leaves of a pending send: all of it or nothing. */
  predicate PendingKept(cr: Crypto, s: State, t: State) {
    t.pendingSend.Some? ==> t.pendingSend == s.pendingSend && PendingRec(cr, t) == PendingRec(cr, s)
  }

  ghost predicate Follows(cr: Crypto, s: State, t: State, l: Logs) {
    RamInv(cr, t, l) && (s.dirty ==> t.dirty) && PendingKept(cr, s, t)
  }

  lemma QuietBase(cr: Crypto, s: State, l: Logs)
    requires RamInv(cr, s, l) && NoReserve(s) && !s.fault
    ensures BaseInv(cr, s, l)
  {
    assert StagedContacts(s) == s.contacts;
  }

  function OpContacts(cs: Contacts, op: StagedOp): Contacts {
    if op.TxReserve? then WithReserve(cs, op.slot, op.newReserved) else cs
  }

  lemma StageInv(cr: Crypto, s: State, op: StagedOp, l: Logs)
    requires CoreInv(cr, s, l) && Reserved(OpContacts(s.contacts, op)) && OpOk(s.contacts, op)
    ensures RamInv(cr, Stage(s, op), l) && PendingKept(cr, s, Stage(s, op))
  {
    var t := Stage(s, op);
    assert StagedContacts(t) == OpContacts(s.contacts, op);
    SamePending(cr, s, t, l.air);
  }

  /** The pending send survives changes that leave the identity of its slot alone. */
  predicate SameIdentity(c: Contact, d: Contact) {
    c.present == d.present && c.root == d.root && c.role == d.role && c.peerIdentity == d.peerIdentity && c.txNext <= d.txNext
  }

  lemma DataRecSame(cr: Crypto, uid: bytes8, c: Contact, d: Contact, ps: PendingSend, text: bytes)
    requires SameIdentity(c, d) && |text| <= MAX_TEXT_LEN
    ensures DataRec(cr, uid, c, ps, text) == DataRec(cr, uid, d, ps, text)
  {}

  lemma SamePending(cr: Crypto, s: State, t: State, air: seq<Rec>)
    requires PendingOk(cr, s, air)
    requires t.pendingSend == s.pendingSend && t.pendingText == s.pendingText && t.uid == s.uid
    requires s.pendingSend.Some? ==> t.radioOn
    requires s.pendingSend.Some? ==>
               SameIdentity(s.contacts[s.pendingSend.value.contactId - 1], t.contacts[s.pendingSend.value.contactId - 1])
    ensures PendingOk(cr, t, air) && PendingKept(cr, s, t)
  {
    if s.pendingSend.Some? {
      var ps := s.pendingSend.value;
      DataRecSame(cr, s.uid, s.contacts[ps.contactId - 1], t.contacts[ps.contactId - 1], ps, s.pendingText);
      hide DataRec;
      assert PendingRec(cr, s) == PendingRec(cr, t);
    }
  }

  lemma SafeUpdate(cs: Contacts, slot: nat, c: Contact, l: Logs, l': Logs, root: bytes32)
    requires Safe(cs, l) && slot < MAX_CONTACTS && ContactSafe(c, l') && (c.present ==> c.root == root)
    requires forall r :: r in l'.air ==> r in l.air || r.root == root
    requires forall a :: a in l'.accepted ==> a in l.accepted || a.root == root
    requires l.accepted <= l'.accepted && l.used <= l'.used
    requires forall i :: 0 <= i < MAX_CONTACTS && i != slot && cs[i].present ==> cs[i].root != root
    ensures Safe(cs[slot := c], l')
  {
    hide ContactSafe;
    forall i | 0 <= i < MAX_CONTACTS && i != slot ensures ContactSafe(cs[i], l') {
      OtherRoot(cs[i], l, l', root);
    }
  }

  /** Replaces one slot by a version of the same generation. */
  lemma SameSlot(cs: Contacts, slot: nat, c: Contact, l: Logs)
    requires Safe(cs, l) && slot < MAX_CONTACTS && ContactSafe(c, l) && cs[slot].present && c.root == cs[slot].root
    ensures Safe(cs[slot := c], l)
  {
    SafeUpdate(cs, slot, c, l, l, c.root);
  }

  /** The common shape: change the state, then stage. */
  lemma StagedStep(cr: Crypto, s: State, t: State, op: StagedOp, l: Logs)
    requires BaseInv(cr, t, l) && !op.TxReserve? && PendingKept(cr, s, t)
    ensures Follows(cr, s, Stage(t, op), l)
  {
    StageInv(cr, t, op, l);
    SamePending(cr, t, Stage(t, op), l.air);
  }

  lemma Unchanged(cr: Crypto, s: State, l: Logs)
    requires RamInv(cr, s, l)
    ensures Follows(cr, s, s, l)
  {}

  // ---- flags, identity, contacts ----

  lemma SetIdentityStep(cr: Crypto, s: State, uid: bytes8, l: Logs)
    requires RamInv(cr, s, l) && NoReserve(s) && !s.fault && s.pendingSend.None?
    ensures Follows(cr, s, Engine.SetIdentity(s, uid), l)
  {
    QuietBase(cr, s, l);
    StagedStep(cr, s, s.(uid := uid, uidSet := true), Plain, l);
  }

  lemma ProvisionStep(cr: Crypto, s: State, boardLabel: byte, key: bytes32, l: Logs)
    requires RamInv(cr, s, l) && NoReserve(s)
    ensures Follows(cr, s, DoProvision(s, boardLabel, key).state, l)
  {
    hide Safe;
    if s.fault { return; }
    QuietBase(cr, s, l);
    if DoProvision(s, boardLabel, key).result.None? {
      var t := s.(boardLabel := boardLabel, signPriv := key, signSet := true, provisioned := true);
      SamePending(cr, s, t, l.air);
      StagedStep(cr, s, t, StagedOp.Provision, l);
    }
  }

  lemma RadioOn(cr: Crypto, s: State, l: Logs)
    requires BaseInv(cr, s, l)
    ensures Follows(cr, s, Stage(s.(radioOn := true), Plain), l)
  {
    hide Safe, PendingRec;
    var t := s.(radioOn := true);
    SamePending(cr, s, t, l.air);
    hide PendingOk;
    StagedStep(cr, s, t, Plain, l);
  }

  lemma RadioOff(cr: Crypto, s: State, l: Logs)
    requires BaseInv(cr, s, l)
    ensures Follows(cr, s, Stage(s.(radioOn := false, pendingSend := None, armedNextBoot := false), Plain), l)
  {
    hide Safe, PendingRec;
    StagedStep(cr, s, s.(radioOn := false, pendingSend := None, armedNextBoot := false), Plain, l);
  }

  lemma SetRadioStep(cr: Crypto, s: State, enabled: bool, l: Logs)
    requires RamInv(cr, s, l) && NoReserve(s)
    ensures Follows(cr, s, Engine.SetRadio(s, enabled).state, l)
  {
    hide RamInv, Follows, Stage;
    Unchanged(cr, s, l);
    if s.fault { return; }
    QuietBase(cr, s, l);
    RadioOn(cr, s, l);
    RadioOff(cr, s, l);
  }

  lemma FlagStep(cr: Crypto, s: State, armed: bool, l: Logs)
    requires RamInv(cr, s, l) && NoReserve(s) && !s.fault
    ensures Follows(cr, s, Stage(s.(armedNextBoot := armed), Plain), l)
  {
    hide Safe;
    QuietBase(cr, s, l);
    var t := s.(armedNextBoot := armed);
    SamePending(cr, s, t, l.air);
    StagedStep(cr, s, t, Plain, l);
  }

  lemma ActivateStep(cr: Crypto, s: State, slot: nat, ed: bytes32, id: bytes8, root: bytes32, role: byte, l: Logs, l': Logs)
    requires RamInv(cr, s, l) && NoReserve(s) && !s.fault && Untouched(l, root, EpochOf(s))
    requires slot < MAX_CONTACTS && role <= 1 && !s.radioOn
    requires forall i :: 0 <= i < MAX_CONTACTS && i != slot && s.contacts[i].present ==> s.contacts[i].root != root
    requires l' == l.(used := l'.used, made := l'.made) && l'.used == l.used + {(root, role)}
    ensures Follows(cr, s, Engine.Activate(s, slot, ed, id, root, role).state, l')
  {
    QuietBase(cr, s, l);
    var c := NewContact(ed, id, root, role, EpochOf(s));
    NewContactSafe(ed, id, root, role, EpochOf(s), l');
    SafeUpdate(s.contacts, slot, c, l, l', root);
    hide Safe;
    StagedStep(cr, s, s.(contacts := s.contacts[slot := c]), PairActivate(slot), l');
  }

  /** The common shape of operations that change slots only. */
  lemma ContactsStep(cr: Crypto, s: State, cs: Contacts, op: StagedOp, l: Logs)
    requires BaseInv(cr, s, l) && !op.TxReserve?
    requires Safe(cs, l) && Reserved(cs) && (s.timeValid ==> AnchorsAt(cs, EpochOf(s)))
    requires s.pendingSend.Some? ==>
               SameIdentity(s.contacts[s.pendingSend.value.contactId - 1], cs[s.pendingSend.value.contactId - 1])
    ensures Follows(cr, s, Stage(s.(contacts := cs), op), l)
  {
    hide Safe, PendingRec, Reserved, AnchorsAt;
    var t := s.(contacts := cs);
    SamePending(cr, s, t, l.air);
    hide PendingOk;
    StagedStep(cr, s, t, op, l);
  }

  lemma DropPending(cr: Crypto, s: State, l: Logs)
    requires BaseInv(cr, s, l)
    ensures BaseInv(cr, s.(pendingSend := None), l)
  {}

  lemma DeleteSlot(cr: Crypto, s: State, slot: nat, l: Logs)
    requires BaseInv(cr, s, l) && slot < MAX_CONTACTS && s.contacts[slot].present
    requires s.pendingSend.Some? ==> s.pendingSend.value.contactId != slot + 1
    ensures Follows(cr, s, Stage(s.(contacts := s.contacts[slot := NO_CONTACT]), Plain), l)
  {
    hide ContactSafe;
    NoContactSafe(l);
    SafeUpdate(s.contacts, slot, NO_CONTACT, l, l, s.contacts[slot].root);
    hide Safe, PendingRec;
    ContactsStep(cr, s, s.contacts[slot := NO_CONTACT], Plain, l);
  }

  lemma DeleteIs(s: State, contactId: byte)
    ensures var r := Engine.DeleteContact(s, contactId);
            if r.result.None? then
              && 1 <= contactId <= MAX_CONTACTS && s.contacts[contactId - 1].present && !s.fault
              && var u := DropPendingOf(s, contactId);
                 r.state == Stage(u.(contacts := u.contacts[contactId - 1 := NO_CONTACT]), Plain)
            else r.state == s
  {
    hide Stage, DropPendingOf;
    if 1 <= contactId <= MAX_CONTACTS { DropCommutes(s, s.contacts[contactId - 1 := NO_CONTACT], contactId); }
  }

  lemma DropCommutes(s: State, cs: Contacts, contactId: byte)
    ensures DropPendingOf(s.(contacts := cs), contactId) == DropPendingOf(s, contactId).(contacts := cs)
    ensures DropPendingOf(s, contactId).contacts == s.contacts
  {
    hide KeptPending;
  }

  lemma DeleteStep(cr: Crypto, s: State, contactId: byte, l: Logs)
    requires RamInv(cr, s, l) && NoReserve(s)
    ensures Follows(cr, s, Engine.DeleteContact(s, contactId).state, l)
  {
    hide RamInv, BaseInv, Follows, Engine.DeleteContact;
    Unchanged(cr, s, l);
    DeleteIs(s, contactId);
    if s.fault { return; }
    QuietBase(cr, s, l);
    if Engine.DeleteContact(s, contactId).result.None? {
      var u := DropPendingOf(s, contactId);
      DropPending(cr, s, l);
      DeleteSlot(cr, u, contactId - 1, l);
      FollowsDropped(cr, s, u, Engine.DeleteContact(s, contactId).state, l);
    }
  }

  lemma SetBlockedStep(cr: Crypto, s: State, contactId: byte, blocked: bool, l: Logs)
    requires RamInv(cr, s, l) && NoReserve(s)
    ensures Follows(cr, s, Engine.SetBlocked(s, contactId, blocked).state, l)
  {
    hide RamInv, BaseInv, PendingRec, Follows;
    Unchanged(cr, s, l);
    if s.fault { return; }
    QuietBase(cr, s, l);
    if Engine.SetBlocked(s, contactId, blocked).result.Ok? {
      BlockSlot(cr, s, contactId - 1, blocked, l);
      var t := Stage(s.(contacts := s.contacts[contactId - 1 := s.contacts[contactId - 1].(blocked := blocked)]), Plain);
      FollowsCompleted(cr, s, t, l);
    }
  }

  lemma BlockSlot(cr: Crypto, s: State, slot: nat, blocked: bool, l: Logs)
    requires BaseInv(cr, s, l) && slot < MAX_CONTACTS && s.contacts[slot].present
    ensures Follows(cr, s, Stage(s.(contacts := s.contacts[slot := s.contacts[slot].(blocked := blocked)]), Plain), l)
  {
    hide ContactSafe;
    var c := s.contacts[slot].(blocked := blocked);
    Bookkeeping(s.contacts[slot], c, l);
    SameSlot(s.contacts, slot, c, l);
    hide Safe, PendingRec;
    ContactsStep(cr, s, s.contacts[slot := c], Plain, l);
  }

  lemma FollowsDropped(cr: Crypto, s: State, u: State, t: State, l: Logs)
    requires (u == s || u == s.(pendingSend := None)) && Follows(cr, u, t, l)
    ensures Follows(cr, s, t, l)
  {
    hide RamInv, PendingRec;
  }

  lemma FollowsCompleted(cr: Crypto, s: State, t: State, l: Logs)
    requires Follows(cr, s, t, l)
    ensures Follows(cr, s, Engine.SendComplete(t), l)
  {
    CompleteStep(cr, t, l);
  }

  lemma CompleteStep(cr: Crypto, s: State, l: Logs)
    requires RamInv(cr, s, l)
    ensures Follows(cr, s, Engine.SendComplete(s), l)
  {
    assert StagedContacts(Engine.SendComplete(s)) == StagedContacts(s);
  }

  lemma RelayStep(cr: Crypto, s: State, t: State, l: Logs)
    requires RamInv(cr, s, l)
    requires t == s.(relay := t.relay, authFailures := t.authFailures, replayDrops := t.replayDrops)
    ensures Follows(cr, s, t, l)
  {
    assert StagedContacts(t) == StagedContacts(s);
    SamePending(cr, s, t, l.air);
  }

  // ---- time ----

  lemma {:induction false} FloorBounds(cs: Contacts, base: u32, n: nat)
    requires n <= MAX_CONTACTS
    ensures base <= Floor(cs, base, n) && forall i :: 0 <= i < n && cs[i].present ==> cs[i].anchor <= Floor(cs, base, n)
  {
    if n > 0 { FloorBounds(cs, base, n - 1); }
  }

  lemma AdvanceSafe(cs: Contacts, epoch: u32, l: Logs)
    requires Safe(cs, l) && forall i :: 0 <= i < MAX_CONTACTS && cs[i].present ==> cs[i].anchor <= epoch
    ensures Safe(AdvanceContacts(cs, epoch), l)
    ensures AnchorsAt(AdvanceContacts(cs, epoch), epoch)
    ensures Reserved(cs) ==> Reserved(AdvanceContacts(cs, epoch))
  {
    hide ContactSafe;
    forall i | 0 <= i < MAX_CONTACTS ensures ContactSafe(AdvanceContact(cs[i], epoch), l) {
      Advanced(cs[i], epoch, l);
    }
  }

  lemma SetTimeStep(cr: Crypto, s: State, seconds: u64, confirmed: bool, l: Logs)
    requires RamInv(cr, s, l) && NoReserve(s)
    ensures Follows(cr, s, Engine.SetTime(s, seconds, confirmed).state, l)
  {
    if s.fault { return; }
    QuietBase(cr, s, l);
    SamePending(cr, s, s, l.air);
    var r := Engine.SetTime(s, seconds, confirmed);
    if r.result.Ok? {
      hide RamInv, PendingRec;
      FloorBounds(s.contacts, s.persistedTxEpoch, MAX_CONTACTS);
      NewHour(cr, s, seconds, r.result.value, l);
    }
  }

  lemma NewHour(cr: Crypto, s: State, seconds: u64, epoch: u32, l: Logs)
    requires BaseInv(cr, s, l) && EpochOfUnix(seconds) == Some(epoch)
    requires forall i :: 0 <= i < MAX_CONTACTS && s.contacts[i].present ==> s.contacts[i].anchor <= epoch
    ensures var t := s.(contacts := AdvanceContacts(s.contacts, epoch), unixSeconds := seconds, timeValid := true, utcMonoS := s.monoS);
            Follows(cr, s, Stage(t, Time(seconds)), l)
  {
    hide ContactSafe;
    AdvanceSafe(s.contacts, epoch, l);
    hide Safe, PendingRec;
    var t := s.(contacts := AdvanceContacts(s.contacts, epoch), unixSeconds := seconds, timeValid := true, utcMonoS := s.monoS);
    forall i | 0 <= i < MAX_CONTACTS ensures SameIdentity(s.contacts[i], t.contacts[i]) {}
    hide AdvanceContacts, Reserved, AnchorsAt, EpochOfUnix;
    SamePending(cr, s, t, l.air);
    hide PendingOk;
    StagedStep(cr, s, t, Time(seconds), l);
  }

  lemma ClockStep(cr: Crypto, s: State, t: State, l: Logs)
    requires RamInv(cr, s, l)
    requires t == s.(monoS := t.monoS, unixSeconds := t.unixSeconds, timeValid := t.timeValid, utcMonoS := t.utcMonoS)
    requires t.timeValid ==> s.timeValid && EpochOfUnix(t.unixSeconds) == Some(EpochOf(s)) == EpochOfUnix(s.unixSeconds)
    ensures Follows(cr, s, t, l)
  {
    hide Safe, PendingRec;
    assert StagedContacts(t) == StagedContacts(s);
    if !s.fault { SamePending(cr, s, t, l.air); }
    hide PendingOk;
  }

  lemma FollowsLater(cr: Crypto, s: State, t: State, u: State, l: Logs)
    requires Follows(cr, s, t, l) && Follows(cr, t, u, l)
    ensures Follows(cr, s, u, l)
  {
    hide RamInv, PendingRec;
  }

  lemma AdvanceTimeStep(cr: Crypto, s: State, now: u64, l: Logs)
    requires RamInv(cr, s, l) && NoReserve(s)
    ensures Follows(cr, s, Engine.AdvanceTime(s, now).state, l)
  {
    hide RamInv, Follows, Engine.SetTime, EpochOfUnix, EpochOf;
    Unchanged(cr, s, l);
    if s.fault { return; }
    TrustedHour(cr, s, l);
    var t := s.(monoS := now);
    ClockStep(cr, s, t, l);
    ClockStep(cr, s, t.(timeValid := false), l);
    if t.timeValid && now >= t.utcMonoS && t.unixSeconds + (now - t.utcMonoS) < U64 {
      var next: u64 := t.unixSeconds + (now - t.utcMonoS);
      assert EpochOf(t) == EpochOf(s) by { SameClock(s, t); }
      if EpochOfUnix(next) == Some(EpochOf(t)) {
        ClockStep(cr, s, t.(unixSeconds := next, utcMonoS := now), l);
      } else {
        NextHour(cr, s, t, next, l);
      }
    }
  }

  lemma SameClock(s: State, t: State)
    requires t.timeValid == s.timeValid && t.unixSeconds == s.unixSeconds
    ensures EpochOf(t) == EpochOf(s)
  {}

  lemma NextHour(cr: Crypto, s: State, t: State, next: u64, l: Logs)
    requires Follows(cr, s, t, l) && NoReserve(t)
    ensures Follows(cr, s, Engine.SetTime(t, next, false).state, l)
  {
    SetTimeStep(cr, t, next, false, l);
    hide RamInv, Engine.SetTime;
    FollowsLater(cr, s, t, Engine.SetTime(t, next, false).state, l);
  }

  lemma TrustedHour(cr: Crypto, s: State, l: Logs)
    requires RamInv(cr, s, l)
    ensures !s.fault && s.timeValid ==> EpochOfUnix(s.unixSeconds) == Some(EpochOf(s))
  {}
}
