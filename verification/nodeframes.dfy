/** Sending and receiving keep the invariant, counting what is held back as released. */
module NodeFrames {
  import opened Bytes
  import opened Frame
  import opened Security
  import opened Persist
  import opened Clock
  import opened Replay
  import opened Engine
  import opened ContactLog
  import opened Node
  import opened NodeSteps

  // ---- log growth ----

  lemma LogWithFrame(l: Logs, r: Rec)
    requires LogInv(l) && (r.root, r.role) in l.used
    requires forall q :: q in l.air && q.root == r.root ==> q.header.sequence != r.header.sequence
    requires !IsData(r) ==> exists e: u32, s: u64, p: u32 :: r.plaintext == AckBody(e, s, p) && AcceptedAt(l.accepted, r.root, e, s)
    ensures LogInv(l.(air := l.air + [r]))
  {
    hide AckBody, AcceptedAt;
  }

  lemma LogWithText(l: Logs, t: Taken)
    requires LogInv(l) && (t.root, t.role) in l.used
    requires forall a :: a in l.accepted && a.root == t.root ==> a.epoch != t.epoch || a.sequence != t.sequence
    ensures LogInv(l.(delivered := l.delivered + [t], accepted := l.accepted + {t}))
  {
    hide AckBody;
    var l' := l.(delivered := l.delivered + [t], accepted := l.accepted + {t});
    assert forall root, e: u32, s: u64 :: AcceptedAt(l.accepted, root, e, s) ==> AcceptedAt(l'.accepted, root, e, s);
    hide AcceptedAt;
    forall i, j | 0 <= i < j < |l'.delivered|
      ensures var d := l'.delivered; d[i].root != d[j].root || d[i].epoch != d[j].epoch || d[i].sequence != d[j].sequence
    {
      if j == |l.delivered| { assert l'.delivered[i] in l.delivered; }
    }
  }

  // ---- numbers ----

  lemma ReserveCovers(cs: Contacts, slot: nat, otherwise: StagedOp, epochMax: u32)
    requires Reserved(cs) && slot < MAX_CONTACTS && CanReserve(cs[slot]) && !otherwise.TxReserve?
    ensures var c := cs[slot];
            var op := ReserveOp(c, slot, otherwise);
            && c.txNext + 1 < U64
            && Reserved(OpContacts(cs, op))
            && Reserved(OpContacts(cs[slot := c.(txNext := c.txNext + 1, txEpochMax := epochMax)], op))
  {
    var c := cs[slot];
    var op := ReserveOp(c, slot, otherwise);
    var c' := c.(txNext := c.txNext + 1, txEpochMax := epochMax);
    if op.TxReserve? {
      assert WithReserve(cs, slot, op.newReserved) == cs[slot := c.(txReserved := op.newReserved)];
      assert WithReserve(cs[slot := c'], slot, op.newReserved) == cs[slot := c'.(txReserved := op.newReserved)];
    }
  }

  /** A frame of `slot` that takes number `txNext` and is released together with the staged snapshot. */
  lemma EmitStep(cr: Crypto, s: State, slot: nat, epoch: u32, op: StagedOp, r: Rec, l: Logs)
    requires CoreInv(cr, s, l) && slot < MAX_CONTACTS && s.contacts[slot].present && s.contacts[slot].txNext + 1 < U64
    requires Reserved(OpContacts(Consume(s, slot, epoch).contacts, op)) && OpOk(s.contacts, op)
    requires r.root == s.contacts[slot].root && r.header.sequence == s.contacts[slot].txNext
    requires IsData(r) && s.pendingSend.Some? ==> Some(r) == PendingRec(cr, s)
    ensures var t := Stage(Consume(s, slot, epoch), op);
            RamInv(cr, t, l.(air := l.air + [r])) && PendingKept(cr, s, t)
    ensures forall q :: q in l.air && q.root == r.root ==> q.header.sequence != r.header.sequence
  {
    hide OpContacts, PendingRec, CoreInv, Consume;
    NumberTaken(cr, s, slot, epoch, r, l);
    StageInv(cr, Consume(s, slot, epoch), op, l.(air := l.air + [r]));
  }

  lemma NumberTaken(cr: Crypto, s: State, slot: nat, epoch: u32, r: Rec, l: Logs)
    requires CoreInv(cr, s, l) && slot < MAX_CONTACTS && s.contacts[slot].present && s.contacts[slot].txNext + 1 < U64
    requires r.root == s.contacts[slot].root && r.header.sequence == s.contacts[slot].txNext
    requires IsData(r) && s.pendingSend.Some? ==> Some(r) == PendingRec(cr, s)
    ensures var t := Consume(s, slot, epoch);
            CoreInv(cr, t, l.(air := l.air + [r])) && PendingKept(cr, s, t) && t.contacts[slot].present
            && (forall i :: 0 <= i < MAX_CONTACTS ==> t.contacts[i].present == s.contacts[i].present)
    ensures forall q :: q in l.air && q.root == r.root ==> q.header.sequence != r.header.sequence
  {
    hide ContactSafe, PendingRec;
    var t, l' := Consume(s, slot, epoch), l.(air := l.air + [r]);
    UseNumber(s.contacts[slot], t.contacts[slot], l, r);
    SafeUpdate(s.contacts, slot, t.contacts[slot], l, l', r.root);
    hide Safe;
    SamePending(cr, s, t, l.air);
  }

  // ---- sending ----

  lemma StagePending(s: State, op: StagedOp, text: bytes, ps: PendingSend)
    ensures Stage(s.(pendingText := text, pendingSend := Some(ps)), op) == Stage(s, op).(pendingText := text, pendingSend := Some(ps))
  {}

  lemma SendBeginStep(cr: Crypto, s: State, contactId: byte, text: bytes, packetId: u32, l: Logs)
    requires RamInv(cr, s, l) && NoReserve(s) && s.radioOn
    ensures var t := Engine.SendBegin(s, contactId, text, packetId).state; RamInv(cr, t, l) && (s.dirty ==> t.dirty)
  {
    if s.fault { return; }
    var r := Engine.SendBegin(s, contactId, text, packetId);
    if r.result.Ok? {
      QuietBase(cr, s, l);
      var slot := contactId - 1;
      var c, u := s.contacts[slot], s.(pendingText := text, pendingSend := Some(r.result.value));
      assert SlotOf(u, contactId) == Ok(slot);
      assert PendingOk(cr, u, l.air) by { assert ContactSafe(c, l); }
      hide Safe, PendingOk, SnapshotSynced;
      ReserveCovers(s.contacts, slot, Plain, 0);
      StageInv(cr, u, ReserveOp(c, slot, Plain), l);
      StagePending(s, ReserveOp(c, slot, Plain), text, r.result.value);
    }
  }

  lemma SendEmitStep(cr: Crypto, s: State, l: Logs)
    requires RamInv(cr, s, l) && NoReserve(s) && LogInv(l)
    ensures var r := Engine.SendEmit(cr, s);
            var h := Held(if r.result.Ok? then PendingRec(cr, s) else None, None);
            && RamInv(cr, r.state, Release(l, h)) && LogInv(Release(l, h)) && PendingKept(cr, s, r.state)
            && (s.dirty ==> r.state.dirty) && (h != NOTHING_HELD ==> r.state.dirty)
  {
    hide Safe, RamInv, LogInv, PendingRec, Engine.SendEmit, Consume;
    Unchanged(cr, s, l);
    var r := Engine.SendEmit(cr, s);
    if r.result.Ok? {
      EmitIs(cr, s);
      PendingMeansHealthy(cr, s, l);
      QuietBase(cr, s, l);
      var slot := s.pendingSend.value.contactId - 1;
      var rec := PendingRec(cr, s).value;
      SlotInUse(s.contacts, slot, l);
      UseReserved(s, slot, s.pendingSend.value.epoch);
      EmitStep(cr, s, slot, s.pendingSend.value.epoch, Plain, rec, l);
      LogWithFrame(l, rec);
    } else {
      EmitRefused(cr, s);
    }
  }

  lemma EmitRefused(cr: Crypto, s: State)
    ensures Engine.SendEmit(cr, s).result.Err? ==> Engine.SendEmit(cr, s).state == s
  {
    hide PendingFrame;
  }

  /** What `SendEmit` does when it does anything. */
  lemma EmitIs(cr: Crypto, s: State)
    requires Engine.SendEmit(cr, s).result.Ok?
    ensures s.pendingSend.Some? && SlotOf(s, s.pendingSend.value.contactId).Ok?
    ensures var (slot: nat, ps) := (s.pendingSend.value.contactId - 1, s.pendingSend.value);
            && s.contacts[slot].txNext == ps.sequence < s.contacts[slot].txReserved
            && Engine.SendEmit(cr, s).state == Stage(Consume(s, slot, ps.epoch), Plain)
            && PendingRec(cr, s).Some?
            && var rec := PendingRec(cr, s).value;
               rec.root == s.contacts[slot].root && rec.role == s.contacts[slot].role && rec.header.sequence == ps.sequence && IsData(rec)
  {
    hide SealFrame, Stage;
  }

  lemma PendingMeansHealthy(cr: Crypto, s: State, l: Logs)
    requires RamInv(cr, s, l) && s.pendingSend.Some?
    ensures !s.fault
  {}

  lemma SlotInUse(cs: Contacts, slot: nat, l: Logs)
    requires Safe(cs, l) && slot < MAX_CONTACTS && cs[slot].present
    ensures (cs[slot].root, cs[slot].role) in l.used
  {
    assert ContactSafe(cs[slot], l);
  }

  lemma UseReserved(s: State, slot: nat, epoch: u32)
    requires Reserved(s.contacts) && slot < MAX_CONTACTS && s.contacts[slot].txNext < s.contacts[slot].txReserved
    ensures Reserved(Consume(s, slot, epoch).contacts)
  {}

  // ---- receiving ----

  /** What is held back with an ACK of `h`. */
  function AckHeld(cr: Crypto, s: State, slot: nat, h: Header, packetId: u32, built: bool): Option<Rec>
    requires slot < MAX_CONTACTS
  {
    if built then AckRec(cr, s.uid, s.contacts[slot], EpochOf(s), h, packetId) else None
  }

  lemma StageKeeps(s: State, op: StagedOp)
    ensures var t := Stage(s, op);
            t.timeValid == s.timeValid && t.contacts == s.contacts && t.uid == s.uid && EpochOf(t) == EpochOf(s)
  {}

  lemma Restage(s: State, a: StagedOp, b: StagedOp)
    ensures Stage(Stage(s, a), b) == Stage(s, b)
  {
    StageForgets(Stage(s, a), s, b);
  }

  /** Staging replaces whatever was staged. */
  lemma StageForgets(p: State, q: State, b: StagedOp)
    requires p == q.(staged := p.staged, scratch := p.scratch, dirty := p.dirty)
    ensures Stage(p, b) == Stage(q, b)
  {}

  lemma RestageConsumed(s: State, a: StagedOp, b: StagedOp, slot: nat, epoch: u32)
    requires slot < MAX_CONTACTS && s.contacts[slot].txNext + 1 < U64
    ensures Stage(Consume(Stage(s, a), slot, epoch), b) == Stage(Consume(s, slot, epoch), b)
  {
    hide ViewOf;
    StageForgets(Consume(Stage(s, a), slot, epoch), Consume(s, slot, epoch), b);
  }

  /** `BuildAck` stages up to twice; only the last staging shows. */
  lemma BuildAckIs(cr: Crypto, s: State, op: StagedOp, slot: nat, h: Header, packetId: u32)
    requires slot < MAX_CONTACTS
    ensures var (c, e) := (s.contacts[slot], EpochOf(s));
            BuildAck(cr, Stage(s, op), slot, h, packetId) ==
            if !s.timeValid || !CanReserve(c) then Step(Stage(s, op), None)
            else
              match AckFrame(cr, s.uid, c, e, h, packetId)
              case None => Step(Stage(s, ReserveOp(c, slot, RxAccept)), None)
              case Some(f) =>
                Step(Stage(Consume(s, slot, e), ReserveOp(c, slot, RxAccept)), Some(Outgoing(f, Some(slot + 1), true, false)))
  {
    var x, e := Stage(s, op), EpochOf(s);
    StageKeeps(s, op);
    if s.timeValid && CanReserve(s.contacts[slot]) {
      var op' := ReserveOp(s.contacts[slot], slot, RxAccept);
      StageKeeps(x, op');
      Restage(s, op, op');
      assert CanReserve(x.contacts[slot]);
      RestageConsumed(s, op, op', slot, e);
      RestageConsumed(x, op', op', slot, e);
    }
    hide AckFrame, EpochOf, Stage, Consume, CanReserve, ReserveOp;
  }

  lemma AckRecFields(cr: Crypto, uid: bytes8, c: Contact, epoch: u32, h: Header, packetId: u32)
    ensures AckFrame(cr, uid, c, epoch, h, packetId).Some? <==> AckRec(cr, uid, c, epoch, h, packetId).Some?
    ensures var r := AckRec(cr, uid, c, epoch, h, packetId);
            r.Some? ==> r.value.root == c.root && r.value.role == c.role && r.value.header.sequence == c.txNext
                        && !IsData(r.value) && r.value.plaintext == AckBody(h.epoch, h.sequence, h.packetId)
                        && Some(r.value.frame) == AckFrame(cr, uid, c, epoch, h, packetId)
  {
    hide SealFrame;
  }

  /** The ACK is built: its number is used up, and it becomes a frame of the log. */
  lemma AckEmitted(cr: Crypto, s: State, slot: nat, h: Header, packetId: u32, l: Logs)
    requires BaseInv(cr, s, l) && LogInv(l) && slot < MAX_CONTACTS && s.contacts[slot].present
    requires AcceptedAt(l.accepted, s.contacts[slot].root, h.epoch, h.sequence)
    requires CanReserve(s.contacts[slot]) && AckFrame(cr, s.uid, s.contacts[slot], EpochOf(s), h, packetId).Some?
    ensures AckRec(cr, s.uid, s.contacts[slot], EpochOf(s), h, packetId).Some?
    ensures var (c, e) := (s.contacts[slot], EpochOf(s));
            var (t, r) := (Stage(Consume(s, slot, e), ReserveOp(c, slot, RxAccept)), AckRec(cr, s.uid, c, e, h, packetId).value);
            && RamInv(cr, t, l.(air := l.air + [r])) && LogInv(l.(air := l.air + [r])) && PendingKept(cr, s, t)
            && t.dirty && !IsData(r)
  {
    var c, e := s.contacts[slot], EpochOf(s);
    assert (c.root, c.role) in l.used by { assert ContactSafe(c, l); }
    hide AckFrame, AckRec, AckBody, AcceptedAt, Safe, PendingOk, PendingRec, LogInv, RamInv, EpochOf;
    ReserveCovers(s.contacts, slot, RxAccept, Max(c.txEpochMax, e));
    AckRecFields(cr, s.uid, c, e, h, packetId);
    var rec := AckRec(cr, s.uid, c, e, h, packetId).value;
    EmitStep(cr, s, slot, e, ReserveOp(c, slot, RxAccept), rec, l);
    LogWithFrame(l, rec);
  }

  lemma BuildAckStep(cr: Crypto, s: State, op: StagedOp, slot: nat, h: Header, packetId: u32, l: Logs)
    requires BaseInv(cr, s, l) && LogInv(l) && slot < MAX_CONTACTS && s.contacts[slot].present && !op.TxReserve?
    requires AcceptedAt(l.accepted, s.contacts[slot].root, h.epoch, h.sequence)
    ensures var r := BuildAck(cr, Stage(s, op), slot, h, packetId);
            var held := Held(AckHeld(cr, s, slot, h, packetId, r.result.Some?), None);
            && RamInv(cr, r.state, Release(l, held)) && LogInv(Release(l, held)) && PendingKept(cr, s, r.state)
            && r.state.dirty && (held.rec.Some? ==> !IsData(held.rec.value))
  {
    var c := s.contacts[slot];
    BuildAckIs(cr, s, op, slot, h, packetId);
    StageInv(cr, s, op, l);
    hide BuildAck, AckFrame, AckRec, AcceptedAt, CoreInv, PendingRec, LogInv, RamInv, EpochOf, Consume, ReserveOp;
    if s.timeValid && CanReserve(c) {
      ReserveCovers(s.contacts, slot, RxAccept, 0);
      StageInv(cr, s, ReserveOp(c, slot, RxAccept), l);
      if AckFrame(cr, s.uid, c, EpochOf(s), h, packetId).Some? { AckEmitted(cr, s, slot, h, packetId, l); }
    }
  }

  /** What `OnData` holds back. */
  function DataHeld(cr: Crypto, s: State, slot: nat, h: Header, pt: bytes, packetId: u32, r: Reaction): Held
    requires slot < MAX_CONTACTS && |pt| >= 1
  {
    var c := s.contacts[slot];
    Held(AckHeld(cr, s, slot, h, packetId, r.out.Some?),
         if r.kind.Deliver? then Some(Taken(c.root, c.role, h.epoch, h.sequence, h.packetId, pt[1..])) else None)
  }

  ghost predicate FrameTaken(cr: Crypto, s: State, t: State, h: Held, l: Logs) {
    && RamInv(cr, t, Release(l, h)) && LogInv(Release(l, h)) && PendingKept(cr, s, t)
    && (s.dirty ==> t.dirty) && (h != NOTHING_HELD ==> t.dirty) && (h.rec.Some? ==> !IsData(h.rec.value))
  }

  /** A new text goes into its slot. */
  lemma DataAccepted(cr: Crypto, s: State, slot: nat, t: Taken, l: Logs)
    requires BaseInv(cr, s, l) && LogInv(l) && slot < MAX_CONTACTS && s.contacts[slot].present
    requires t.root == s.contacts[slot].root && t.role == s.contacts[slot].role && t.epoch in s.contacts[slot].winEpochs
    requires Offer(WindowFor(s.contacts[slot], t.epoch), t.sequence).verdict == Accepted
    ensures var c := s.contacts[slot];
            var s' := s.(contacts := s.contacts[slot := WithData(c, t.epoch, Offer(WindowFor(c, t.epoch), t.sequence).window)]);
            var l' := l.(delivered := l.delivered + [t], accepted := l.accepted + {t});
            BaseInv(cr, s', l') && LogInv(l') && AcceptedAt(l'.accepted, c.root, t.epoch, t.sequence) && PendingKept(cr, s, s')
  {
    hide Offer, LogInv, AcceptedAt, PendingRec;
    var c := s.contacts[slot];
    var c' := WithData(c, t.epoch, Offer(WindowFor(c, t.epoch), t.sequence).window);
    var l' := l.(delivered := l.delivered + [t], accepted := l.accepted + {t});
    assert (c.root, c.role) in l.used by { assert ContactSafe(c, l); }
    AcceptData(c, l, t);
    hide ContactSafe;
    SafeUpdate(s.contacts, slot, c', l, l', c.root);
    hide Safe;
    var s' := s.(contacts := s.contacts[slot := c']);
    SamePending(cr, s, s', l.air);
    LogWithText(l, t);
    AcceptedNow(l.accepted, t);
  }

  lemma AcceptedNow(a: set<Taken>, t: Taken)
    ensures AcceptedAt(a + {t}, t.root, t.epoch, t.sequence)
  {
    assert t in a + {t};
  }

  lemma MarkedAccepted(cs: Contacts, slot: nat, e: u32, s: u64, l: Logs)
    requires Safe(cs, l) && slot < MAX_CONTACTS && cs[slot].present && e in cs[slot].winEpochs && Marked(WindowFor(cs[slot], e), s)
    ensures AcceptedAt(l.accepted, cs[slot].root, e, s)
  {
    assert ContactSafe(cs[slot], l);
  }

  /** Counters and the relay cache are no part of the invariant. */
  lemma CountersBase(cr: Crypto, s: State, t: State, l: Logs)
    requires BaseInv(cr, s, l)
    requires t == s.(relay := t.relay, authFailures := t.authFailures, replayDrops := t.replayDrops)
    ensures BaseInv(cr, t, l) && PendingKept(cr, s, t)
  {
    hide Safe;
    SamePending(cr, s, t, l.air);
  }

  /** An ACK does not depend on the windows of its slot. */
  lemma AckRecSame(cr: Crypto, uid: bytes8, c: Contact, d: Contact, epoch: u32, h: Header, packetId: u32)
    requires d == c.(winData := d.winData)
    ensures AckRec(cr, uid, c, epoch, h, packetId) == AckRec(cr, uid, d, epoch, h, packetId)
  {}

  lemma OnNewText(cr: Crypto, s: State, slot: nat, h: Header, pt: bytes, packetId: u32, l: Logs)
    requires BaseInv(cr, s, l) && LogInv(l) && slot < MAX_CONTACTS && s.contacts[slot].present
    requires h.epoch in s.contacts[slot].winEpochs && 1 <= |pt| <= 1 + MAX_TEXT_LEN
    requires Offer(WindowFor(s.contacts[slot], h.epoch), h.sequence).verdict == Accepted
    ensures var r := OnData(cr, s, slot, h, pt, packetId);
            FrameTaken(cr, s, r.state, DataHeld(cr, s, slot, h, pt, packetId, r.result), l)
  {
    hide Offer, BaseInv, RamInv, LogInv, BuildAck, AckRec, PendingRec, AcceptedAt, EpochOfUnix, Position;
    var c := s.contacts[slot];
    var c' := WithData(c, h.epoch, Offer(WindowFor(c, h.epoch), h.sequence).window);
    var t := Taken(c.root, c.role, h.epoch, h.sequence, h.packetId, pt[1..]);
    var s', l' := s.(contacts := s.contacts[slot := c']), l.(delivered := l.delivered + [t], accepted := l.accepted + {t});
    DataAccepted(cr, s, slot, t, l);
    BuildAckStep(cr, s', RxAccept, slot, h, packetId, l');
    AckRecSame(cr, s.uid, c, c', EpochOf(s), h, packetId);
    var a := BuildAck(cr, Stage(s', RxAccept), slot, h, packetId);
    assert OnData(cr, s, slot, h, pt, packetId).state == a.state;
    var rec := AckHeld(cr, s, slot, h, packetId, a.result.Some?);
    assert Release(l, Held(rec, Some(t))) == Release(l', Held(rec, None));
  }

  lemma OnKnownText(cr: Crypto, s: State, slot: nat, h: Header, pt: bytes, packetId: u32, l: Logs)
    requires BaseInv(cr, s, l) && LogInv(l) && slot < MAX_CONTACTS && s.contacts[slot].present
    requires h.epoch in s.contacts[slot].winEpochs && 1 <= |pt| <= 1 + MAX_TEXT_LEN
    requires Offer(WindowFor(s.contacts[slot], h.epoch), h.sequence).verdict == Duplicate
    ensures var r := OnData(cr, s, slot, h, pt, packetId);
            FrameTaken(cr, s, r.state, DataHeld(cr, s, slot, h, pt, packetId, r.result), l)
  {
    AcceptedIffUncovered(WindowFor(s.contacts[slot], h.epoch), h.sequence);
    MarkedAccepted(s.contacts, slot, h.epoch, h.sequence, l);
    hide Offer, BaseInv, RamInv, LogInv, BuildAck, AckRec, PendingRec, AcceptedAt, Marked, EpochOfUnix, Position;
    var s' := s.(replayDrops := SatInc(s.replayDrops));
    CountersBase(cr, s, s', l);
    BuildAckStep(cr, s', Plain, slot, h, packetId, l);
  }

  lemma OnDataStep(cr: Crypto, s: State, slot: nat, h: Header, pt: bytes, packetId: u32, l: Logs)
    requires BaseInv(cr, s, l) && LogInv(l) && RamInv(cr, s, l)
    requires slot < MAX_CONTACTS && s.contacts[slot].present && h.epoch in s.contacts[slot].winEpochs
    requires 1 <= |pt| <= 1 + MAX_TEXT_LEN
    ensures var r := OnData(cr, s, slot, h, pt, packetId);
            FrameTaken(cr, s, r.state, DataHeld(cr, s, slot, h, pt, packetId, r.result), l)
  {
    hide Offer, BaseInv, RamInv, LogInv, BuildAck, AckRec, PendingRec;
    match Offer(WindowFor(s.contacts[slot], h.epoch), h.sequence).verdict
    case Accepted => OnNewText(cr, s, slot, h, pt, packetId, l);
    case Duplicate => OnKnownText(cr, s, slot, h, pt, packetId, l);
    case Stale => RelayStep(cr, s, s.(replayDrops := SatInc(s.replayDrops)), l);
  }

  lemma AckWindowMoved(cr: Crypto, s: State, slot: nat, i: nat, w: Window, l: Logs)
    requires BaseInv(cr, s, l) && slot < MAX_CONTACTS && s.contacts[slot].present && i < 3 && Storable(w)
    ensures var c := s.contacts[slot];
            Follows(cr, s, Stage(s.(contacts := s.contacts[slot := c.(winAck := c.winAck[i := w])]), RxAccept), l)
  {
    var c := s.contacts[slot];
    var c' := c.(winAck := c.winAck[i := w]);
    WindowForAfterAck(c, i, w, l);
    hide ContactSafe;
    SameSlot(s.contacts, slot, c', l);
    hide Safe, PendingRec;
    ContactsStep(cr, s, s.contacts[slot := c'], RxAccept, l);
  }

  lemma AckWindowStorable(cs: Contacts, slot: nat, i: nat, l: Logs, s: u64)
    requires Safe(cs, l) && slot < MAX_CONTACTS && cs[slot].present && i < 3
    requires Offer(cs[slot].winAck[i], s).verdict == Accepted
    ensures Storable(Offer(cs[slot].winAck[i], s).window)
  {
    assert ContactSafe(cs[slot], l);
    OfferCovers(cs[slot].winAck[i], s, s);
  }

  lemma OnAckStep(cr: Crypto, s: State, slot: nat, h: Header, pt: bytes, l: Logs)
    requires BaseInv(cr, s, l) && LogInv(l) && RamInv(cr, s, l)
    requires slot < MAX_CONTACTS && s.contacts[slot].present && h.epoch in s.contacts[slot].winEpochs && |pt| == 17
    ensures FrameTaken(cr, s, OnAck(s, slot, h, pt).state, NOTHING_HELD, l)
    ensures !OnAck(s, slot, h, pt).result.kind.Deliver? && !OnAck(s, slot, h, pt).result.kind.ReAck?
  {
    var i := WindowIndex(s.contacts[slot], h.epoch);
    var o := Offer(s.contacts[slot].winAck[i], h.sequence);
    if o.verdict == Accepted {
      AckWindowStorable(s.contacts, slot, i, l, h.sequence);
      hide BaseInv, RamInv, LogInv, Offer, PendingRec, Position, FromBe32, FromBe64;
      AckWindowMoved(cr, s, slot, i, o.window, l);
    } else {
      hide BaseInv, RamInv, LogInv, Offer, PendingRec, Position, FromBe32, FromBe64;
      RelayStep(cr, s, s.(replayDrops := SatInc(s.replayDrops)), l);
    }
  }

  lemma OpenedStep(cr: Crypto, s: State, slot: nat, f: bytes, h: Header, pt: bytes, packetId: u32, l: Logs)
    requires BaseInv(cr, s, l) && LogInv(l) && RamInv(cr, s, l) && slot < MAX_CONTACTS && s.contacts[slot].present
    requires Frame.Decode(f).Ok? && Frame.Decode(f).value.header == h
    requires h.epoch in s.contacts[slot].winEpochs && BodyOk(h.flags, pt)
    ensures var r := OnOpened(cr, s, slot, h, pt, packetId);
            FrameTaken(cr, s, r.state, HeldAfter(cr, s, f, packetId, r.result), l)
  {
    hide Frame.Decode, BaseInv, RamInv, LogInv, OnAck, AckRec, BuildAck, Offer, FrameTaken;
    if pt[0] == BODY_DATA {
      OnDataStep(cr, s, slot, h, pt, packetId, l);
    } else {
      OnAckStep(cr, s, slot, h, pt, l);
    }
  }

  lemma TransitStep(cr: Crypto, s: State, f: bytes, h: Header, now: u64, failures: u32, l: Logs)
    requires RamInv(cr, s, l) && LogInv(l) && |f| >= 30
    ensures var r := Transit(cr, s.(authFailures := failures), f, h, now);
            FrameTaken(cr, s, r.state, NOTHING_HELD, l) && !r.result.kind.Deliver? && !r.result.kind.ReAck?
  {
    hide RamInv, LogInv, PendingRec, Transit;
    TransitFields(cr, s.(authFailures := failures), f, h, now);
    RelayStep(cr, s, Transit(cr, s.(authFailures := failures), f, h, now).state, l);
  }

  lemma TransitFields(cr: Crypto, s: State, f: bytes, h: Header, now: u64)
    requires |f| >= 30
    ensures var r := Transit(cr, s, f, h, now);
            r.state == s.(relay := r.state.relay) && (r.result.kind.Forward? || r.result.kind.Ignore?)
  {}

  lemma NothingHeld(cr: Crypto, s: State, f: bytes, packetId: u32, r: Reaction)
    requires !r.kind.Deliver? && !r.kind.ReAck?
    ensures HeldAfter(cr, s, f, packetId, r) == NOTHING_HELD
  {}

  lemma IgnoredStep(cr: Crypto, s: State, l: Logs)
    requires RamInv(cr, s, l) && LogInv(l)
    ensures FrameTaken(cr, s, s, NOTHING_HELD, l)
  {
    Unchanged(cr, s, l);
    hide RamInv, LogInv, PendingRec;
  }

  /** A frame is ignored, passed on as opaque transit, or opened by one present slot. */
  predicate FrameCase(cr: Crypto, s: State, f: bytes, now: u64, packetId: u32, slot: nat, pt: bytes)
    requires Frame.Decode(f).Ok?
  {
    var h, body, r := Frame.Decode(f).value.header, Frame.Decode(f).value.body, Engine.OnFrame(cr, s, f, now, packetId);
    || r == Step(s, NOTHING)
    || r == Transit(cr, s, f, h, now)
    || r == Transit(cr, s.(authFailures := SatInc(s.authFailures)), f, h, now)
    || (&& Listening(s) && slot < MAX_CONTACTS && s.contacts[slot].present
        && |body| <= MAX_BODY_LEN && OpenBody(cr, IncomingKey(cr, s.contacts[slot], h.epoch), h, body) == Some(pt)
        && h.epoch in s.contacts[slot].winEpochs && BodyOk(h.flags, pt)
        && r == OnOpened(cr, s, slot, h, pt, packetId))
  }

  lemma OnFrameCases(cr: Crypto, s: State, f: bytes, now: u64, packetId: u32) returns (slot: nat, pt: bytes)
    requires Frame.Decode(f).Ok?
    ensures FrameCase(cr, s, f, now, packetId, slot, pt)
  {
    var h, body := Frame.Decode(f).value.header, Frame.Decode(f).value.body;
    slot, pt := 0, [];
    hide OnOpened, Transit, InAcceptWindow, EpochOf, TrySlot, FirstOpened;
    var o := FirstOpened(cr, s, h, body, 0);
    if o.Some? {
      slot := o.value;
      OpenedFacts(cr, s.uid, s.contacts[slot], h, body);
      pt := TrySlot(cr, s.uid, s.contacts[slot], h, body).plaintext;
    }
  }

  lemma UndecodableIgnored(cr: Crypto, s: State, f: bytes, now: u64, packetId: u32)
    requires Frame.Decode(f).Err?
    ensures Engine.OnFrame(cr, s, f, now, packetId) == Step(s, NOTHING)
  {}

  lemma OnFrameStep(cr: Crypto, s: State, f: bytes, now: u64, packetId: u32, l: Logs)
    requires RamInv(cr, s, l) && LogInv(l) && NoReserve(s)
    ensures var r := Engine.OnFrame(cr, s, f, now, packetId);
            FrameTaken(cr, s, r.state, HeldAfter(cr, s, f, packetId, r.result), l)
  {
    hide RamInv, LogInv, FrameTaken, HeldAfter, OnOpened, Transit, Frame.Decode, Engine.OnFrame, BodyOk;
    IgnoredStep(cr, s, l);
    NothingHeld(cr, s, f, packetId, NOTHING);
    if Frame.Decode(f).Err? {
      UndecodableIgnored(cr, s, f, now, packetId);
    } else {
      var slot, pt := OnFrameCases(cr, s, f, now, packetId);
      OnFrameCaseStep(cr, s, f, now, packetId, l, slot, pt);
    }
  }

  lemma OnFrameCaseStep(cr: Crypto, s: State, f: bytes, now: u64, packetId: u32, l: Logs, slot: nat, pt: bytes)
    requires RamInv(cr, s, l) && LogInv(l) && NoReserve(s) && Frame.Decode(f).Ok?
    requires FrameCase(cr, s, f, now, packetId, slot, pt)
    ensures var r := Engine.OnFrame(cr, s, f, now, packetId);
            FrameTaken(cr, s, r.state, HeldAfter(cr, s, f, packetId, r.result), l)
  {
    hide RamInv, LogInv, FrameTaken, HeldAfter, OnOpened, Transit, Engine.OnFrame, BodyOk;
    var r := Engine.OnFrame(cr, s, f, now, packetId);
    var h := Frame.Decode(f).value.header;
    hide Frame.Decode;
    if r == Step(s, NOTHING) {
      IgnoredStep(cr, s, l);
      NothingHeld(cr, s, f, packetId, r.result);
    } else if r == Transit(cr, s, f, h, now) {
      TransitStep(cr, s, f, h, now, s.authFailures, l);
      NothingHeld(cr, s, f, packetId, r.result);
    } else if r == Transit(cr, s.(authFailures := SatInc(s.authFailures)), f, h, now) {
      TransitStep(cr, s, f, h, now, SatInc(s.authFailures), l);
      NothingHeld(cr, s, f, packetId, r.result);
    } else {
      QuietBase(cr, s, l);
      OpenedStep(cr, s, slot, f, h, pt, packetId, l);
    }
  }

  lemma OpenedFacts(cr: Crypto, uid: bytes8, c: Contact, h: Header, body: bytes)
    requires |body| <= MAX_BODY_LEN && TrySlot(cr, uid, c, h, body).Opened?
    ensures c.present && h.epoch in c.winEpochs && BodyOk(h.flags, TrySlot(cr, uid, c, h, body).plaintext)
    ensures OpenBody(cr, IncomingKey(cr, c, h.epoch), h, body) == Some(TrySlot(cr, uid, c, h, body).plaintext)
  {}

  lemma OpenedNeverForwards(cr: Crypto, s: State, slot: nat, h: Header, pt: bytes, packetId: u32)
    requires slot < MAX_CONTACTS && h.epoch in s.contacts[slot].winEpochs && BodyOk(h.flags, pt)
    ensures !OnOpened(cr, s, slot, h, pt, packetId).result.kind.Forward?
  {
    hide BuildAck, Offer;
  }

  lemma EmitHoldsData(cr: Crypto, s: State)
    ensures PendingRec(cr, s).Some? ==> IsData(PendingRec(cr, s).value)
  {
    hide SealFrame;
  }
}
