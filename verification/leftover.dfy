/** Bytes of operations answered at once stay on the USB side. Which later commits of them are harmless, exactly. */
module Leftover {
  import opened Bytes
  import opened Powers
  import opened Security
  import opened Persist
  import opened Clock
  import opened Engine
  import opened ContactLog
  import opened Node
  import opened NodeFrames
  import opened NodeKeeps
  import opened NodePairing
  import opened NodeRuns
  import opened Guarantees
  import opened Runtime
  import opened RuntimeFlow
  import opened RuntimeSteps
  import Ceremony
  import Replay
  import Frame

  /** An activation waits for the commit that ends its attempt. */
  predicate ActivationPending(s: State) { s.attempt.Some? && ActivationStaged(s) }

  /** The operations answered at once that change what a restart needs. */
  predicate Stages(cr: Crypto, s: State, op: Action) {
    op.ArmNextBoot? || op.Provision? || (op.PairImport? && Activation(cr, s, op.record, op.replace, op.sasMatch).Some?)
  }

  /** An operation answered at once writes nothing to flash; what it stages waits on the USB side. */
  lemma InlineLeavesBytes(cr: Crypto, r: Rt, op: Action)
    requires RtInv(cr, r) && Enabled(cr, r, UsbInline(op)) && InlineTaken(cr, r.node.ram, op)
    ensures var m := Handle(cr, r, UsbInline(op)).node;
            && m.durable == r.node.durable && m.usb == PendingPersist(m.ram)
            && (Stages(cr, r.node.ram, op) ==> m.usb == Some(m.ram.scratch))
  {
    hide RtInv, Enabled, InlineTaken, Stages, Inv, FullInv, NodeOk, Flow, Traced, Quiet;
    var t := Handle(cr, r, UsbInline(op));
    InlineHere(cr, r, op);
    HandleInv(cr, r, UsbInline(op));
    InvParts(cr, t);
    UsbDirty(cr, t.node);
    InlineWrites(cr, r.node, op);
    if Stages(cr, r.node.ram, op) { StagesDirty(cr, r.node, op); }
    hide Apply;
  }

  lemma InlineHere(cr: Crypto, r: Rt, op: Action)
    requires Enabled(cr, r, UsbInline(op))
    ensures Inline(op)
  {
    hide RevivesNothing, Lucky;
  }

  lemma InlineWrites(cr: Crypto, n: Node, op: Action)
    requires Inline(op)
    ensures var (m, u) := (Apply(cr, n, op), Apply(cr, Apply(cr, n, op), StageUsb));
            u.durable == n.durable && u.ram == m.ram && (m.ram.dirty ==> u.usb == Some(m.ram.scratch))
  {
    hide Engine.ArmNextBoot, DoProvision;
    if Pairs(op) {
      PairApply(cr, n, op);
    }
  }

  lemma StagesDirty(cr: Crypto, n: Node, op: Action)
    requires Inline(op) && InlineTaken(cr, n.ram, op) && Stages(cr, n.ram, op)
    ensures Apply(cr, n, op).ram.dirty
  {
    if op.PairImport? {
      PairApply(cr, n, op);
      ActivationStages(cr, n.ram, op.record, op.replace, op.sasMatch);
      hide Apply, Activation;
    } else {
      ArmStages(n.ram, if op.Provision? then op.boardLabel else 0, if op.Provision? then op.signPriv else n.ram.signPriv);
      hide Engine.ArmNextBoot, DoProvision;
    }
  }

  lemma ActivationStages(cr: Crypto, s: State, record: bytes, replace: bool, sasMatch: bool)
    requires Activation(cr, s, record, replace, sasMatch).Some?
    ensures Ceremony.Import(cr, s, record, replace, sasMatch).state.dirty
  {
    hide Activation, Ceremony.Import, Ceremony.ImportConfirm, Ceremony.PairRoot, Ceremony.PeerEd, Activate, Ceremony.WithOffer, Ceremony.WithProof,
      Ceremony.Guard;
    ImportCases(cr, s, record, replace, sasMatch);
    ActivationMeans(cr, s, record, replace, sasMatch);
    Ceremony.Activated(cr, s, record);
    var a := s.attempt.value;
    ActivateDirty(s, a.slot, Ceremony.PeerEd(a), a.peerIdentity.value, Ceremony.PairRoot(cr, a, a.transcript.value).value, a.ownRole);
  }

  lemma ActivationMeans(cr: Crypto, s: State, record: bytes, replace: bool, sasMatch: bool)
    requires Activation(cr, s, record, replace, sasMatch).Some?
    ensures s.attempt.Some?
  {
    hide Ceremony.Import, Ceremony.PairRoot;
  }

  // ---- ticks ----

  /** A tick brings leftover bytes to flash, whichever hour it enters; within the hour these are the latest, and an
      activation among them has ended its attempt. */
  lemma TickFlushes(cr: Crypto, r: Rt, now: u64, radioTook: bool, hostTook: bool)
    requires RtInv(cr, r) && Engine.AdvanceTime(r.node.ram, now).result.None?
    ensures var m := Handle(cr, r, Clock(now, Done(radioTook, hostTook))).node;
            && m.usb.None? && !m.ram.dirty && !ActivationPending(m.ram)
            && (r.node.usb.Some? ==> m.durable == r.node.usb)
            && (!EntersHour(r.node.ram, now) ==> m.durable == if r.node.ram.dirty then Some(r.node.ram.scratch) else r.node.durable)
  {
    hide RtInv, Inv, FullInv, OnClock, Engine.AdvanceTime, EntersHour, NodeOk, Traced, Flow, Quiet, ActivationPending;
    InvParts(cr, r);
    TickWrites(cr, r, now, radioTook, hostTook);
  }

  lemma TickWrites(cr: Crypto, r: Rt, now: u64, radioTook: bool, hostTook: bool)
    requires Traced(cr, r) && Quiet(r.node) && BytesLatest(r.node) && Engine.AdvanceTime(r.node.ram, now).result.None?
    ensures var m := OnClock(cr, r, now, Done(radioTook, hostTook)).node;
            && m.usb.None? && !m.ram.dirty && !ActivationPending(m.ram)
            && (r.node.usb.Some? ==> m.durable == r.node.usb)
            && (!EntersHour(r.node.ram, now) ==> m.durable == if r.node.ram.dirty then Some(r.node.ram.scratch) else r.node.durable)
  {
    var a := Action.AdvanceTime(now);
    var t := Act(cr, r, a);
    hide Traced, Quiet, Allowed, Inv, FullInv, Engine.AdvanceTime, EntersHour, FailClosed, Apply, ActivationPending;
    QuietTurn(cr, r.node, a);
    ActTraced(cr, r, a);
    TracedInv(cr, t);
    TracedInv(cr, r);
    TickOnlyRam(cr, r.node, now);
    DirtyMeansStaged(cr, t.node);
    UsbDirty(cr, t.node);
    UsbDirty(cr, r.node);
    if !EntersHour(r.node.ram, now) { TickWithinHour(r.node.ram, now); }
    if t.node.ram.dirty { CommitWrites(cr, t.node, radioTook, hostTook); } else { NotPending(t.node.ram); }
  }

  lemma NotPending(s: State)
    requires s.staged.None?
    ensures !ActivationPending(s)
  {}

  lemma TickOnlyRam(cr: Crypto, n: Node, now: u64)
    ensures Apply(cr, n, Action.AdvanceTime(now)) == n.(ram := Engine.AdvanceTime(n.ram, now).state)
  {
    hide Engine.AdvanceTime;
  }

  lemma CommitWrites(cr: Crypto, n: Node, radioTook: bool, hostTook: bool)
    requires n.ram.dirty
    ensures var m := Apply(cr, n, Commit(Done(radioTook, hostTook)));
            m.usb.None? && !m.ram.dirty && !ActivationPending(m.ram) && m.durable == CommitBytes(n) && CommitBytes(n).Some?
  {
    hide CommitOk, ActivationPending, Apply;
    CommitApplied(cr, n, Done(radioTook, hostTook));
    CommittedState(n.ram);
  }

  lemma CommittedState(s: State)
    ensures var t := CommitOk(s); !t.dirty && !ActivationPending(t)
  {
    hide StagedContacts;
  }

  lemma DirtyMeansStaged(cr: Crypto, n: Node)
    requires Inv(cr, n)
    ensures n.ram.dirty <==> n.ram.staged.Some?
  {
    hide LogInv, DurableInv, Safe, PendingRec;
  }

  // ---- receptions ----

  /** The staged snapshot of a quiet node shows its slots. */
  lemma QuietScratch(cr: Crypto, n: Node)
    requires Inv(cr, n) && Quiet(n) && n.ram.dirty
    ensures !n.ram.fault && n.ram.scratch.contacts == n.ram.contacts && Reserved(n.ram.contacts) && Safe(n.ram.contacts, n.logs)
  {
    hide LogInv, DurableInv, Safe, PendingRec, Reserved;
    assert Plus(n) == n.logs;
  }

  /** With bytes left over, a reception may not take in a new text, nor send an ACK whose number opens a new block. */
  predicate ReceptionSafe(cr: Crypto, n: Node, f: bytes, now: u64, packetId: u32, o: Outcome) {
    n.usb.Some? && o.Done? ==>
      var e := Engine.OnFrame(cr, n.ram, f, now, packetId).result;
      && !e.kind.Deliver?
      && (e.kind.ReAck? && e.out.Some? && o.radioTook ==>
            && 1 <= e.kind.contactId <= MAX_CONTACTS
            && var c := n.ram.contacts[e.kind.contactId - 1]; c.txNext < c.txReserved)
  }

  /** A reception that is answered, or that completes the send, changes a window or a counter. */
  predicate Answers(r: Reaction) { r.kind.Deliver? || r.kind.Ack? || (r.kind.ReAck? && r.out.Some?) }

  /** The ACK that is sent again: of the slot that opened the frame, with its next number. */
  lemma AgainIs(cr: Crypto, s: State, f: bytes, now: u64, packetId: u32)
    requires var e := Engine.OnFrame(cr, s, f, now, packetId).result; e.kind.ReAck? && e.out.Some?
    ensures var e := Engine.OnFrame(cr, s, f, now, packetId).result;
            && 1 <= e.kind.contactId <= MAX_CONTACTS
            && var (c, h) := (s.contacts[e.kind.contactId - 1], HeldAfter(cr, s, f, packetId, e));
               c.present && !s.fault && h.rec.Some? && h.taken.None? && h.rec.value.root == c.root && h.rec.value.header.sequence == c.txNext
  {
    hide Frame.Decode, OnOpened, Transit, Engine.OnFrame, AckRec;
    if Frame.Decode(f).Err? {
      UndecodableIgnored(cr, s, f, now, packetId);
    } else {
      var slot, pt := OnFrameCases(cr, s, f, now, packetId);
      AnswerOpened(cr, s, f, now, packetId, slot, pt);
      var h := Frame.Decode(f).value.header;
      AgainOpened(cr, s, slot, h, pt, packetId);
      AckIsNoData(cr, s.uid, s.contacts[slot], EpochOf(s), h, packetId);
    }
  }

  lemma AgainOpened(cr: Crypto, s: State, slot: nat, h: Frame.Header, pt: bytes, packetId: u32)
    requires slot < MAX_CONTACTS && h.epoch in s.contacts[slot].winEpochs && Frame.BodyOk(h.flags, pt)
    requires var r := OnOpened(cr, s, slot, h, pt, packetId).result; r.kind.ReAck? && r.out.Some?
    ensures OnOpened(cr, s, slot, h, pt, packetId).result.kind.contactId == slot + 1
    ensures AckRec(cr, s.uid, s.contacts[slot], EpochOf(s), h, packetId).Some?
  {
    hide OnData, OnAck;
    if pt[0] == Frame.BODY_DATA { AgainData(cr, s, slot, h, pt, packetId); } else { AckKind(s, slot, h, pt); }
  }

  lemma AckKind(s: State, slot: nat, h: Frame.Header, pt: bytes)
    requires slot < MAX_CONTACTS && h.epoch in s.contacts[slot].winEpochs && |pt| == 17
    ensures var k := OnAck(s, slot, h, pt).result.kind; !k.ReAck? && !k.Deliver?
  {
    hide Replay.Offer, Stage, Position, FromBe32, FromBe64;
  }

  lemma AgainData(cr: Crypto, s: State, slot: nat, h: Frame.Header, pt: bytes, packetId: u32)
    requires slot < MAX_CONTACTS && h.epoch in s.contacts[slot].winEpochs && 1 <= |pt| <= 1 + Frame.MAX_TEXT_LEN
    requires var r := OnData(cr, s, slot, h, pt, packetId).result; r.kind.ReAck? && r.out.Some?
    ensures OnData(cr, s, slot, h, pt, packetId).result.kind.contactId == slot + 1
    ensures AckRec(cr, s.uid, s.contacts[slot], EpochOf(s), h, packetId).Some?
  {
    hide Replay.Offer, BuildAck, Stage, Position, SealFrame, AckBody, AckHeader;
    var u := s.(replayDrops := SatInc(s.replayDrops));
    BuildAckIs(cr, u, Plain, slot, h, packetId);
    SameHour(s, u);
    hide EpochOf;
  }

  lemma SameHour(s: State, t: State)
    requires t == s.(replayDrops := t.replayDrops)
    ensures EpochOf(t) == EpochOf(s)
  {}

  lemma FrameOnlyRam(cr: Crypto, n: Node, f: bytes, now: u64, packetId: u32)
    ensures var (m, r) := (Apply(cr, n, Action.OnFrame(f, now, packetId)), Engine.OnFrame(cr, n.ram, f, now, packetId));
            m == n.(ram := r.state, held := HeldAfter(cr, n.ram, f, packetId, r.result))
  {
    hide Engine.OnFrame, HeldAfter;
  }

  lemma HeldMeans(cr: Crypto, s: State, f: bytes, packetId: u32, r: Reaction)
    ensures var h := HeldAfter(cr, s, f, packetId, r);
            (h.taken.Some? ==> r.kind.Deliver?) && (h.rec.Some? ==> r.out.Some? && (r.kind.Deliver? || r.kind.ReAck?))
  {
    hide Frame.Decode, AckRec, EpochOf;
  }

  /** A safe reception commits in order. */
  lemma SafeInOrder(cr: Crypto, n: Node, f: bytes, now: u64, packetId: u32, o: Outcome)
    requires Inv(cr, n) && Quiet(n) && BytesLatest(n) && ReceptionSafe(cr, n, f, now, packetId, o)
    ensures CommitInOrder(Apply(cr, n, Action.OnFrame(f, now, packetId)), o)
  {
    hide Inv, Quiet, Engine.OnFrame, HeldAfter, Apply;
    var e := Engine.OnFrame(cr, n.ram, f, now, packetId).result;
    FrameOnlyRam(cr, n, f, now, packetId);
    HeldMeans(cr, n.ram, f, packetId, e);
    if n.usb.Some? && o.Done? {
      UsbDirty(cr, n);
      QuietScratch(cr, n);
      if e.kind.ReAck? && e.out.Some? && o.radioTook {
        AgainIs(cr, n.ram, f, now, packetId);
        OneSlot(n.ram.contacts, n.logs, e.kind.contactId - 1);
      }
    }
  }

  lemma OneSlot(cs: Contacts, l: Logs, slot: nat)
    requires Safe(cs, l) && slot < MAX_CONTACTS && cs[slot].present
    ensures forall i :: 0 <= i < MAX_CONTACTS && cs[i].present && cs[i].root == cs[slot].root ==> i == slot
  {
    hide ContactSafe;
  }

  // ---- an ACK that opens a new block ----

  /** What the older bytes and the log say after such a commit. */
  lemma NumberBeyond(cr: Crypto, n: Node, f: bytes, now: u64, packetId: u32, hostTook: bool) returns (rec: Rec)
    requires Inv(cr, n) && Quiet(n) && BytesLatest(n) && n.usb.Some?
    requires var e := Engine.OnFrame(cr, n.ram, f, now, packetId).result; e.kind.ReAck? && e.out.Some?
    ensures var e := Engine.OnFrame(cr, n.ram, f, now, packetId).result;
            && 1 <= e.kind.contactId <= MAX_CONTACTS
            && var (i, k) := (e.kind.contactId - 1, DoCommit(Apply(cr, n, Action.OnFrame(f, now, packetId)), Done(true, hostTook)));
               && rec in k.logs.air && k.durable == n.usb && n.usb.value.contacts == n.ram.contacts && n.ram.contacts[i].present
               && rec.root == n.ram.contacts[i].root && rec.header.sequence == n.ram.contacts[i].txNext <= n.ram.contacts[i].txReserved
  {
    hide Inv, Quiet, Engine.OnFrame, HeldAfter, Apply, CommitOk, Safe;
    FrameOnlyRam(cr, n, f, now, packetId);
    UsbDirty(cr, n);
    QuietScratch(cr, n);
    AgainIs(cr, n.ram, f, now, packetId);
    rec := HeldAfter(cr, n.ram, f, packetId, Engine.OnFrame(cr, n.ram, f, now, packetId).result).rec.value;
  }

  /** Such a commit and a restart: the next number of the slot is one that is already on air. */
  lemma NumberComesBack(cr: Crypto, n: Node, f: bytes, now: u64, packetId: u32, hostTook: bool, next: bool) returns (rec: Rec)
    requires Inv(cr, n) && Quiet(n) && BytesLatest(n) && n.usb.Some?
    requires var e := Engine.OnFrame(cr, n.ram, f, now, packetId).result;
             e.kind.ReAck? && e.out.Some? && 1 <= e.kind.contactId <= MAX_CONTACTS
             && n.ram.contacts[e.kind.contactId - 1].txNext >= n.ram.contacts[e.kind.contactId - 1].txReserved
    ensures var i := Engine.OnFrame(cr, n.ram, f, now, packetId).result.kind.contactId - 1;
            var k := Apply(cr, DoCommit(Apply(cr, n, Action.OnFrame(f, now, packetId)), Done(true, hostTook)), Crash(next));
            rec in k.logs.air && k.ram.contacts[i].present && rec.root == k.ram.contacts[i].root && rec.header.sequence == k.ram.contacts[i].txNext
  {
    hide Inv, Quiet, Engine.OnFrame, DoCommit, RestoreWindows;
    rec := NumberBeyond(cr, n, f, now, packetId, hostTook);
    var m := Apply(cr, n, Action.OnFrame(f, now, packetId));
    Restarts(cr, DoCommit(m, Done(true, hostTook)), next);
    hide Apply;
  }

  lemma Restarts(cr: Crypto, n: Node, next: bool)
    requires n.durable.Some?
    ensures var k := Apply(cr, n, Crash(next)); k.logs == n.logs && k.ram.contacts == RestoreContacts(n.durable.value.contacts)
  {
    hide RestoreContacts;
  }

  // ---- a new text ----

  /** The snapshot differs from the state before at some slot. */
  predicate Shows(s: State, t: State) { t.dirty && t.scratch.contacts != s.contacts }

  lemma AnswerShows(cr: Crypto, n: Node, f: bytes, now: u64, packetId: u32)
    requires Inv(cr, n) && Answers(Engine.OnFrame(cr, n.ram, f, now, packetId).result)
    ensures !n.ram.fault && Shows(n.ram, Engine.OnFrame(cr, n.ram, f, now, packetId).state)
  {
    hide Inv, Frame.Decode, OnOpened, Transit, Engine.OnFrame, Shows;
    var s := n.ram;
    if Frame.Decode(f).Err? {
      UndecodableIgnored(cr, s, f, now, packetId);
    } else {
      var slot, pt := OnFrameCases(cr, s, f, now, packetId);
      AnswerOpened(cr, s, f, now, packetId, slot, pt);
      WindowsAreStorable(cr, n, slot);
      OpenedShows(cr, s, slot, Frame.Decode(f).value.header, pt, packetId);
    }
  }

  lemma AnswerOpened(cr: Crypto, s: State, f: bytes, now: u64, packetId: u32, slot: nat, pt: bytes)
    requires Frame.Decode(f).Ok? && FrameCase(cr, s, f, now, packetId, slot, pt)
    requires Answers(Engine.OnFrame(cr, s, f, now, packetId).result)
    ensures var h := Frame.Decode(f).value.header;
            && slot < MAX_CONTACTS && s.contacts[slot].present && h.epoch in s.contacts[slot].winEpochs && Frame.BodyOk(h.flags, pt) && !s.fault
            && Engine.OnFrame(cr, s, f, now, packetId) == OnOpened(cr, s, slot, h, pt, packetId)
  {
    var h := Frame.Decode(f).value.header;
    TransitFields(cr, s, f, h, now);
    TransitFields(cr, s.(authFailures := SatInc(s.authFailures)), f, h, now);
    hide Frame.Decode, Transit, Engine.OnFrame, OnOpened;
  }

  lemma WindowsAreStorable(cr: Crypto, n: Node, slot: nat)
    requires Inv(cr, n) && !n.ram.fault && slot < MAX_CONTACTS && n.ram.contacts[slot].present
    ensures WindowsStorable(n.ram.contacts[slot].winData) && WindowsStorable(n.ram.contacts[slot].winAck)
  {
    hide LogInv, DurableInv, PendingRec, PendingOk;
    assert ContactSafe(n.ram.contacts[slot], Plus(n));
  }

  lemma OpenedShows(cr: Crypto, s: State, slot: nat, h: Frame.Header, pt: bytes, packetId: u32)
    requires slot < MAX_CONTACTS && h.epoch in s.contacts[slot].winEpochs && Frame.BodyOk(h.flags, pt)
    requires WindowsStorable(s.contacts[slot].winData) && WindowsStorable(s.contacts[slot].winAck)
    requires Answers(OnOpened(cr, s, slot, h, pt, packetId).result)
    ensures Shows(s, OnOpened(cr, s, slot, h, pt, packetId).state)
  {
    hide OnData, OnAck, Shows;
    if pt[0] == Frame.BODY_DATA { DataShows(cr, s, slot, h, pt, packetId); } else { AckShows(s, slot, h, pt); }
  }

  /** What a snapshot shows of a slot besides its reservation. */
  lemma ScratchSlot(x: State, op: StagedOp, slot: nat)
    requires slot < MAX_CONTACTS
    ensures var (t, c) := (Stage(x, op), x.contacts[slot]);
            var d := t.scratch.contacts[slot];
            t.dirty && d.winData == c.winData && d.winAck == c.winAck && d.txNext == c.txNext
  {}

  lemma WindowChanges(w: Replay.Window, s: u64)
    requires Replay.Storable(w) && Replay.Offer(w, s).verdict == Replay.Accepted
    ensures Replay.Offer(w, s).window != w
  {
    Replay.AcceptedIffUncovered(w, s);
    Replay.OfferCovers(w, s, s);
    hide Replay.Offer, Replay.Covered;
  }

  lemma DataShows(cr: Crypto, s: State, slot: nat, h: Frame.Header, pt: bytes, packetId: u32)
    requires slot < MAX_CONTACTS && h.epoch in s.contacts[slot].winEpochs && 1 <= |pt| <= 1 + Frame.MAX_TEXT_LEN
    requires WindowsStorable(s.contacts[slot].winData) && Answers(OnData(cr, s, slot, h, pt, packetId).result)
    ensures Shows(s, OnData(cr, s, slot, h, pt, packetId).state)
  {
    hide Replay.Offer, BuildAck, Stage, Position, Shows;
    if Replay.Offer(WindowFor(s.contacts[slot], h.epoch), h.sequence).verdict == Replay.Accepted {
      NewTextShows(cr, s, slot, h, pt, packetId);
    } else {
      KnownTextShows(cr, s, slot, h, pt, packetId);
    }
  }

  lemma NewTextShows(cr: Crypto, s: State, slot: nat, h: Frame.Header, pt: bytes, packetId: u32)
    requires slot < MAX_CONTACTS && h.epoch in s.contacts[slot].winEpochs && 1 <= |pt| <= 1 + Frame.MAX_TEXT_LEN
    requires WindowsStorable(s.contacts[slot].winData)
    requires Replay.Offer(WindowFor(s.contacts[slot], h.epoch), h.sequence).verdict == Replay.Accepted
    ensures Shows(s, OnData(cr, s, slot, h, pt, packetId).state)
  {
    hide Replay.Offer, BuildAck, Stage, Position, WindowsStorable;
    var c := s.contacts[slot];
    var i := WindowIndex(c, h.epoch);
    var w := Replay.Offer(c.winData[i], h.sequence).window;
    WindowStorable(c.winData, i);
    WindowChanges(c.winData[i], h.sequence);
    var t := s.(contacts := s.contacts[slot := c.(winData := c.winData[i := w])]);
    BuiltShows(cr, t, RxAccept, slot, h, packetId);
    assert c.winData[i := w][i] != c.winData[i];
  }

  lemma WindowStorable(w: Windows, i: nat)
    requires WindowsStorable(w) && i < 3
    ensures Replay.Storable(w[i])
  {}

  lemma KnownTextShows(cr: Crypto, s: State, slot: nat, h: Frame.Header, pt: bytes, packetId: u32)
    requires slot < MAX_CONTACTS && h.epoch in s.contacts[slot].winEpochs && 1 <= |pt| <= 1 + Frame.MAX_TEXT_LEN
    requires Replay.Offer(WindowFor(s.contacts[slot], h.epoch), h.sequence).verdict != Replay.Accepted
    requires Answers(OnData(cr, s, slot, h, pt, packetId).result)
    ensures Shows(s, OnData(cr, s, slot, h, pt, packetId).state)
  {
    hide Replay.Offer, BuildAck, Stage, Position;
    var t := s.(replayDrops := SatInc(s.replayDrops));
    BuiltShows(cr, t, Plain, slot, h, packetId);
  }

  /** An ACK takes a number; the windows are shown as they are. */
  lemma BuiltShows(cr: Crypto, s: State, op: StagedOp, slot: nat, h: Frame.Header, packetId: u32)
    requires slot < MAX_CONTACTS
    ensures var r := BuildAck(cr, Stage(s, op), slot, h, packetId);
            var (c, d) := (s.contacts[slot], r.state.scratch.contacts[slot]);
            r.state.dirty && d.winData == c.winData && (r.result.Some? ==> d.txNext == c.txNext + 1)
  {
    hide Stage, BuildAck, AckFrame, EpochOf, CanReserve;
    BuildAckIs(cr, s, op, slot, h, packetId);
    ScratchSlot(s, op, slot);
    var c, e := s.contacts[slot], EpochOf(s);
    if CanReserve(c) {
      ReserveFits(c);
      ScratchSlot(s, ReserveOp(c, slot, RxAccept), slot);
      ScratchSlot(Consume(s, slot, e), ReserveOp(c, slot, RxAccept), slot);
    }
  }

  lemma AckShows(s: State, slot: nat, h: Frame.Header, pt: bytes)
    requires slot < MAX_CONTACTS && h.epoch in s.contacts[slot].winEpochs && |pt| == 17
    requires WindowsStorable(s.contacts[slot].winAck) && Answers(OnAck(s, slot, h, pt).result)
    ensures Shows(s, OnAck(s, slot, h, pt).state)
  {
    hide Replay.Offer, Stage, Position, FromBe32, FromBe64;
    var c := s.contacts[slot];
    var i := WindowIndex(c, h.epoch);
    var w := Replay.Offer(c.winAck[i], h.sequence);
    WindowChanges(c.winAck[i], h.sequence);
    ScratchSlot(s.(contacts := s.contacts[slot := c.(winAck := c.winAck[i := w.window])]), RxAccept, slot);
    assert c.winAck[i := w.window][i] != c.winAck[i];
  }

  /** A delivered text: its number was open and is marked afterwards, and the snapshot shows the difference. */
  lemma NewTextMarked(cr: Crypto, n: Node, f: bytes, now: u64, packetId: u32) returns (slot: nat, h: Frame.Header)
    requires Inv(cr, n) && Engine.OnFrame(cr, n.ram, f, now, packetId).result.kind.Deliver?
    ensures slot < MAX_CONTACTS && !n.ram.fault
    ensures var (c, t) := (n.ram.contacts[slot], Engine.OnFrame(cr, n.ram, f, now, packetId).state);
            && c.present && h.epoch in c.winEpochs && Replay.Offer(WindowFor(c, h.epoch), h.sequence).verdict == Replay.Accepted
            && MarkedAt(t.contacts[slot], c.root, h) && !t.fault && Shows(n.ram, t)
  {
    hide Inv, Frame.Decode, OnOpened, Transit, Engine.OnFrame, Shows, MarkedAt, Replay.Offer;
    if Frame.Decode(f).Err? {
      UndecodableIgnored(cr, n.ram, f, now, packetId);
    } else {
      var pt;
      slot, pt := OnFrameCases(cr, n.ram, f, now, packetId);
      AnswerOpened(cr, n.ram, f, now, packetId, slot, pt);
      h := Frame.Decode(f).value.header;
      AnswerShows(cr, n, f, now, packetId);
      TextMarked(cr, n.ram, slot, h, pt, packetId);
    }
  }

  /** The number is marked in the window of its hour. */
  predicate MarkedAt(c: Contact, root: bytes32, h: Frame.Header) {
    c.present && c.root == root && h.epoch in c.winEpochs && Replay.Marked(WindowFor(c, h.epoch), h.sequence)
  }

  lemma TextMarked(cr: Crypto, s: State, slot: nat, h: Frame.Header, pt: bytes, packetId: u32)
    requires slot < MAX_CONTACTS && s.contacts[slot].present && h.epoch in s.contacts[slot].winEpochs && Frame.BodyOk(h.flags, pt)
    requires OnOpened(cr, s, slot, h, pt, packetId).result.kind.Deliver?
    ensures Replay.Offer(WindowFor(s.contacts[slot], h.epoch), h.sequence).verdict == Replay.Accepted
    ensures var t := OnOpened(cr, s, slot, h, pt, packetId).state; MarkedAt(t.contacts[slot], s.contacts[slot].root, h) && t.fault == s.fault
  {
    hide OnData, OnAck, Replay.Offer, MarkedAt;
    if pt[0] == Frame.BODY_DATA { DataMarked(cr, s, slot, h, pt, packetId); } else { AckKind(s, slot, h, pt); }
  }

  lemma DataMarked(cr: Crypto, s: State, slot: nat, h: Frame.Header, pt: bytes, packetId: u32)
    requires slot < MAX_CONTACTS && s.contacts[slot].present && h.epoch in s.contacts[slot].winEpochs && 1 <= |pt| <= 1 + Frame.MAX_TEXT_LEN
    requires OnData(cr, s, slot, h, pt, packetId).result.kind.Deliver?
    ensures Replay.Offer(WindowFor(s.contacts[slot], h.epoch), h.sequence).verdict == Replay.Accepted
    ensures var t := OnData(cr, s, slot, h, pt, packetId).state; MarkedAt(t.contacts[slot], s.contacts[slot].root, h) && t.fault == s.fault
  {
    hide Replay.Offer, BuildAck, Stage, Position, Replay.Marked;
    var c := s.contacts[slot];
    var i := WindowIndex(c, h.epoch);
    var w := Replay.Offer(c.winData[i], h.sequence).window;
    var t := s.(contacts := s.contacts[slot := c.(winData := c.winData[i := w])]);
    OfferMarks(c.winData[i], h.sequence);
    AckKeepsWindows(cr, t, RxAccept, slot, h, packetId);
  }

  lemma OfferMarks(w: Replay.Window, q: u64)
    requires Replay.Offer(w, q).verdict == Replay.Accepted
    ensures Replay.Marked(Replay.Offer(w, q).window, q)
  {
    OneBit(0);
    if !w.empty && q > w.highest && q - w.highest < Replay.WIDTH {
      Replay.ShiftInBit(w.bitmap, q - w.highest, 0);
    } else if !w.empty && q <= w.highest {
      Replay.SetAtBit(w.bitmap, w.highest - q, w.highest - q);
    }
    hide Replay.ShiftIn, Replay.SetAt, Bit;
  }

  lemma AckKeepsWindows(cr: Crypto, s: State, op: StagedOp, slot: nat, h: Frame.Header, packetId: u32)
    requires slot < MAX_CONTACTS
    ensures var (t, c) := (BuildAck(cr, Stage(s, op), slot, h, packetId).state, s.contacts[slot]);
            var d := t.contacts[slot];
            && t.fault == s.fault && d.present == c.present && d.root == c.root && d.winEpochs == c.winEpochs && d.winData == c.winData
  {
    hide Stage, BuildAck, AckFrame, EpochOf, CanReserve;
    BuildAckIs(cr, s, op, slot, h, packetId);
    StageFault(s, op);
    var c, e := s.contacts[slot], EpochOf(s);
    if CanReserve(c) {
      ReserveFits(c);
      StageFault(s, ReserveOp(c, slot, RxAccept));
      StageFault(Consume(s, slot, e), ReserveOp(c, slot, RxAccept));
    }
  }

  /** An open number has not been accepted. */
  lemma OpenMeansNew(cr: Crypto, n: Node, slot: nat, h: Frame.Header)
    requires Inv(cr, n) && Quiet(n) && !n.ram.fault && slot < MAX_CONTACTS && n.ram.contacts[slot].present
    requires h.epoch in n.ram.contacts[slot].winEpochs
    requires Replay.Offer(WindowFor(n.ram.contacts[slot], h.epoch), h.sequence).verdict == Replay.Accepted
    ensures !AcceptedAt(n.logs.accepted, n.ram.contacts[slot].root, h.epoch, h.sequence)
  {
    hide Inv, Replay.Offer;
    var c := n.ram.contacts[slot];
    QuietRam(cr, n);
    SlotSafe(cr, n.ram, slot, n.logs);
    AcceptData(c, n.logs, Taken(c.root, 0, h.epoch, h.sequence, 0, []));
  }

  /** Under the invariant, what a window marks is accepted. */
  lemma MarkedMeansAccepted(cr: Crypto, n: Node, slot: nat, root: bytes32, h: Frame.Header)
    requires Inv(cr, n) && n.held == NOTHING_HELD && !n.ram.fault && slot < MAX_CONTACTS && MarkedAt(n.ram.contacts[slot], root, h)
    ensures AcceptedAt(n.logs.accepted, root, h.epoch, h.sequence)
  {
    hide Inv, AcceptedAt, Replay.Marked;
    InvRam(cr, n);
    SlotSafe(cr, n.ram, slot, n.logs);
  }

  /** After the commit of other bytes the windows stand, and nothing more is accepted. */
  lemma StaleCommitted(n: Node, radioTook: bool, hostTook: bool, slot: nat, root: bytes32, h: Frame.Header)
    requires n.usb.Some? && n.usb.value != n.ram.scratch && slot < MAX_CONTACTS && MarkedAt(n.ram.contacts[slot], root, h)
    ensures var k := DoCommit(n, Done(radioTook, hostTook));
            k.logs.accepted == n.logs.accepted && MarkedAt(k.ram.contacts[slot], root, h) && k.ram.fault == n.ram.fault && k.held == NOTHING_HELD
  {
    hide Replay.Marked;
  }

  // ---- the exact condition ----

  /** What the handler does after its commit changes neither slots nor logs nor flash. */
  predicate SameEssence(n: Node, m: Node) {
    && m.ram.contacts == n.ram.contacts && m.ram.fault == n.ram.fault && m.logs == n.logs && m.durable == n.durable && m.held == n.held
  }

  lemma AckOutEssence(cr: Crypto, r: Rt, frame: bytes, nowMs: u64)
    ensures SameEssence(r.node, AckOut(cr, r, frame, nowMs).node)
  {
    hide SyncPolicy, Engine.NoteOrigin;
    NoteOnlyCache(cr, r.node.ram, frame, nowMs);
    RuntimeBooks.SyncIs(r);
  }

  /** After a commit that goes through, a delivery or a repeated ACK leaves what the commit left. */
  lemma AnsweredNode(cr: Crypto, r: Rt, f: bytes, now: u64, packetId: u32, word: u32, o: Outcome)
    requires o.Done? && r.node.usb.Some?
    requires var k := Engine.OnFrame(cr, r.node.ram, f, now, packetId).result.kind; k.Deliver? || k.ReAck?
    ensures SameEssence(DoCommit(Apply(cr, r.node, Action.OnFrame(f, now, packetId)), o), OnRx(cr, r, f, now, packetId, word, o).node)
  {
    hide Engine.OnFrame, AckOut, DoCommit, Apply;
    var e := Engine.OnFrame(cr, r.node.ram, f, now, packetId).result;
    var t := Act(cr, r, Action.OnFrame(f, now, packetId));
    FrameOnlyRam(cr, r.node, f, now, packetId);
    CommitApplied(cr, t.node, o);
    var c := CommitRt(cr, t, o);
    if e.out.Some? { AckOutEssence(cr, c.rt, e.out.value.frame, now); }
  }

  /** A reception that is not safe breaks the invariant. */
  lemma UnsafeBreaks(cr: Crypto, r: Rt, f: bytes, now: u64, packetId: u32, word: u32, o: Outcome)
    requires Inv(cr, r.node) && Quiet(r.node) && BytesLatest(r.node) && !ReceptionSafe(cr, r.node, f, now, packetId, o)
    ensures !Inv(cr, OnRx(cr, r, f, now, packetId, word, o).node)
  {
    hide Inv, Quiet, Engine.OnFrame, HeldAfter, Apply, DoCommit, OnRx, Shows, MarkedAt, Replay.Offer;
    var n, e := r.node, Engine.OnFrame(cr, r.node.ram, f, now, packetId).result;
    var m, z := Apply(cr, n, Action.OnFrame(f, now, packetId)), OnRx(cr, r, f, now, packetId, word, o).node;
    AnsweredNode(cr, r, f, now, packetId, word, o);
    if Inv(cr, z) {
      if e.kind.Deliver? {
        DeliveryBreaks(cr, n, f, now, packetId, o.radioTook, o.hostTook, z);
      } else {
        AgainIs(cr, n.ram, f, now, packetId);
        var rec := NumberBeyond(cr, n, f, now, packetId, o.hostTook);
        BelowCounters(cr, z, rec, e.kind.contactId - 1);
      }
    }
  }

  lemma DeliveryBreaks(cr: Crypto, n: Node, f: bytes, now: u64, packetId: u32, radioTook: bool, hostTook: bool, z: Node)
    requires Inv(cr, n) && Quiet(n) && BytesLatest(n) && n.usb.Some?
    requires Engine.OnFrame(cr, n.ram, f, now, packetId).result.kind.Deliver?
    requires SameEssence(DoCommit(Apply(cr, n, Action.OnFrame(f, now, packetId)), Done(radioTook, hostTook)), z)
    ensures !Inv(cr, z)
  {
    hide Inv, Quiet, Engine.OnFrame, HeldAfter, Apply, DoCommit, MarkedAt, Replay.Offer, AcceptedAt;
    var m := Apply(cr, n, Action.OnFrame(f, now, packetId));
    FrameOnlyRam(cr, n, f, now, packetId);
    UsbDirty(cr, n);
    QuietScratch(cr, n);
    var slot, h := NewTextMarked(cr, n, f, now, packetId);
    var root := n.ram.contacts[slot].root;
    StaleCommitted(m, radioTook, hostTook, slot, root, h);
    OpenMeansNew(cr, n, slot, h);
    if Inv(cr, z) { MarkedMeansAccepted(cr, z, slot, root, h); }
  }

  /** With bytes left over, a reception keeps the node invariant exactly when it takes in no new text and sends no ACK
      that opens a new block; without them it always does. */
  lemma ReceptionKeepsInvIff(cr: Crypto, r: Rt, f: bytes, now: u64, packetId: u32, word: u32, o: Outcome)
    requires RtInv(cr, r)
    ensures Inv(cr, Handle(cr, r, Rx(f, now, packetId, word, o)).node) <==> ReceptionSafe(cr, r.node, f, now, packetId, o)
    ensures Enabled(cr, r, Rx(f, now, packetId, word, o)) <==> ReceptionSafe(cr, r.node, f, now, packetId, o)
  {
    hide RtInv, Inv, FullInv, NodeOk, Flow, Traced, Quiet, BytesLatest, ReceptionSafe, Apply, OnRx, CommitInOrder;
    InvParts(cr, r);
    var e := Rx(f, now, packetId, word, o);
    if ReceptionSafe(cr, r.node, f, now, packetId, o) { SafeInOrder(cr, r.node, f, now, packetId, o); }
    if Enabled(cr, r, e) {
      HandleInv(cr, r, e);
      InvParts(cr, Handle(cr, r, e));
    }
    if !ReceptionSafe(cr, r.node, f, now, packetId, o) { UnsafeBreaks(cr, r, f, now, packetId, word, o); }
  }

  /** A confirmation that revives a root in use breaks the invariant. */
  lemma RevivalBreaks(cr: Crypto, r: Rt, op: Action)
    requires RtInv(cr, r) && Inline(op) && Lucky(cr, r.node, op) && !RevivesNothing(cr, r.node, op)
    ensures !Inv(cr, OnUsbInline(cr, r, op).node)
  {
    hide RtInv, Inv, FullInv, NodeOk, Flow, Traced, BytesLatest, Apply, InlineTaken, Activation, Untouched, RootSeparate, RamInv, EpochOf;
    InvParts(cr, r);
    var n, m := r.node, Activation(cr, r.node.ram, op.record, op.replace, op.sasMatch).value;
    RevivedSlot(cr, n, op.record, op.replace, op.sasMatch, m);
    var t, z := Apply(cr, n, op), OnUsbInline(cr, r, op).node;
    RevivalUnsafe(cr, n, op.record, op.replace, op.sasMatch, m, t.ram);
    StagedUsbSame(cr, t);
    if Inv(cr, z) { InvRam(cr, z); }
  }

  lemma StagedUsbSame(cr: Crypto, n: Node)
    ensures var m := Apply(cr, n, StageUsb); m == n.(usb := m.usb)
  {}

  /** The node invariant survives an event exactly when the event is in order: the discipline excludes nothing harmless. */
  lemma InvSurvivesIff(cr: Crypto, r: Rt, e: Event)
    requires RtInv(cr, r) && CanHappen(r, e) && (e.UsbInline? ==> Lucky(cr, r.node, e.op))
    ensures Enabled(cr, r, e) <==> Inv(cr, Handle(cr, r, e).node)
  {
    hide RtInv, Inv, FullInv, NodeOk, Flow, Traced, Quiet, BytesLatest, Lucky, RevivesNothing, CommitInOrder, Apply, Handle, ReceptionSafe;
    if Enabled(cr, r, e) {
      HandleInv(cr, r, e);
      InvParts(cr, Handle(cr, r, e));
    } else {
      match e
      case Rx(f, now, packetId, word, o) => ReceptionKeepsInvIff(cr, r, f, now, packetId, word, o);
      case UsbInline(op) =>
        RevivalBreaks(cr, r, op);
        HandlesInline(cr, r, op);
      case _ =>
    }
  }

  lemma HandlesInline(cr: Crypto, r: Rt, op: Action)
    ensures Handle(cr, r, UsbInline(op)) == OnUsbInline(cr, r, op)
  {
    hide OnUsbInline;
  }
}
