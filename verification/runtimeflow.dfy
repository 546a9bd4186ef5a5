/** What every event keeps of the runtime's state, whatever bytes it commits: nothing is held back between handlers, a
    send pending in the engine is the one in flight, and the cached policy is the radio's. */
module RuntimeFlow {
  import opened Bytes
  import opened Security
  import opened Persist
  import opened Engine
  import opened ContactLog
  import opened Node
  import opened NodeSteps
  import opened NodeFrames
  import opened NodeKeeps
  import opened NodePairing
  import opened Policy
  import opened Transmit
  import opened Runtime
  import opened RuntimeBooks
  import Ceremony
  import Clock
  import Frame
  import Replay
  import NodeRuns

  // ---- engine operations ----

  /** What a single engine operation leaves alone. */
  predicate Calm(n: Node, m: Node) {
    && m.inflight == n.inflight && m.held == n.held && m.usb == n.usb && m.ram.pendingText == n.ram.pendingText
    && (m.ram.pendingSend.Some? ==> m.ram.pendingSend == n.ram.pendingSend)
    && NoReserve(m.ram) && (PendingOn(n.ram) ==> PendingOn(m.ram))
  }

  lemma OpCalm(cr: Crypto, n: Node, a: Action)
    requires Quiet(n) && (RamOnly(a) || Pairs(a))
    ensures Calm(n, Apply(cr, n, a)) && Quiet(Apply(cr, n, a))
  {
    if RamOnly(a) {
      hide Apply, OpKeeps;
      RamGentle(cr, n, a);
    } else {
      PairCalm(cr, n, a);
    }
  }

  lemma PairCalm(cr: Crypto, n: Node, a: Action)
    requires Quiet(n) && Pairs(a)
    ensures Calm(n, Apply(cr, n, a))
  {
    hide Ceremony.PairOffer, Ceremony.Import, Ceremony.PairProof, Ceremony.PairConfirm, Apply;
    PairApply(cr, n, a);
    match a
    case PairOffer(ephPriv, challenge) => OfferOnlyAttempt(cr, n.ram, ephPriv, challenge);
    case PairImport(record, replace, sasMatch) => ImportCalm(cr, n.ram, record, replace, sasMatch);
    case _ => ExportsOnlyAttempt(cr, n.ram);
  }

  lemma ImportCalm(cr: Crypto, s: State, record: bytes, replace: bool, sasMatch: bool)
    requires NoReserve(s)
    ensures CalmState(s, Ceremony.Import(cr, s, record, replace, sasMatch).state)
  {
    hide Ceremony.Import, Ceremony.ImportConfirm, Ceremony.WithOffer, Ceremony.WithProof, Ceremony.Guard, Activation, Activate, Ceremony.PeerEd,
      Ceremony.PairRoot, NewContact, EpochOf;
    ImportCases(cr, s, record, replace, sasMatch);
    if s.attempt.Some? && Ceremony.ImportConfirm(cr, s, record).result.Ok? {
      Ceremony.Activated(cr, s, record);
      var a := s.attempt.value;
      ActivateCalm(s, a.slot, Ceremony.PeerEd(a), a.peerIdentity.value, Ceremony.PairRoot(cr, a, a.transcript.value).value, a.ownRole);
    }
  }

  lemma ActivateCalm(s: State, slot: nat, ed: bytes32, id: bytes8, root: bytes32, role: byte)
    requires NoReserve(s)
    ensures CalmState(s, Activate(s, slot, ed, id, root, role).state)
  {
    StageFault(s.(contacts := if slot < MAX_CONTACTS then s.contacts[slot := NewContact(ed, id, root, role, EpochOf(s))] else s.contacts),
               PairActivate(slot));
    hide Stage, NewContact, EpochOf;
  }

  lemma Committing(n: Node, o: Outcome)
    requires CommitBytes(n).Some?
    ensures var m := DoCommit(n, o);
            && Quiet(m) && m.usb.None? && BytesLatest(m) && m.ram.pendingText == n.ram.pendingText
            && m.ram.radioOn == n.ram.radioOn
            && (o.Done? ==> m.ram.pendingSend == n.ram.pendingSend
                            && m.inflight == (n.inflight || (o.radioTook && n.held.rec.Some? && IsData(n.held.rec.value))))
            && (o.Failed? ==> m.ram.pendingSend.None? && !m.inflight)
  {
    hide StagedContacts;
  }

  lemma BeginEffect(s: State, contactId: byte, text: bytes, packetId: u32)
    ensures var r := Engine.SendBegin(s, contactId, text, packetId);
            if r.result.Ok? then
              && r.state.dirty && r.state.pendingSend == Some(r.result.value) && r.result.value.contactId == contactId
              && r.state.pendingText == text && r.state.radioOn == s.radioOn
            else r.state == s
  {
    hide Stage, EpochOf;
  }

  lemma EmitEffect(cr: Crypto, s: State)
    requires Engine.SendEmit(cr, s).result.Ok?
    ensures var t := Engine.SendEmit(cr, s).state;
            t.dirty && t.pendingSend == s.pendingSend && t.pendingText == s.pendingText && t.radioOn == s.radioOn
    ensures PendingRec(cr, s).Some? && IsData(PendingRec(cr, s).value)
  {
    EmitIs(cr, s);
    NodeRuns.EmitKeepsPending(cr, s);
    EmitHoldsData(cr, s);
    SendKeeps(cr, s, 0, [], 0);
    hide SlotsSame, Engine.SendEmit;
  }

  // ---- receptions ----

  /** An ACK held back is no DATA frame. */
  lemma AckIsNoData(cr: Crypto, uid: bytes8, c: Contact, epoch: u32, h: Frame.Header, packetId: u32)
    ensures var r := AckRec(cr, uid, c, epoch, h, packetId);
            r.Some? ==> !IsData(r.value) && r.value.root == c.root && r.value.header.sequence == c.txNext
  {
    hide SealFrame, AckBody;
  }

  lemma HeldNoData(cr: Crypto, s: State, f: bytes, packetId: u32, r: Reaction)
    ensures var h := HeldAfter(cr, s, f, packetId, r);
            (h.rec.Some? ==> !IsData(h.rec.value)) && (!r.kind.Deliver? && !r.kind.ReAck? ==> h == NOTHING_HELD)
  {
    if Frame.Decode(f).Ok? && (r.kind.Deliver? || r.kind.ReAck?) && 1 <= r.kind.contactId <= MAX_CONTACTS {
      AckIsNoData(cr, s.uid, s.contacts[r.kind.contactId - 1], EpochOf(s), Frame.Decode(f).value.header, packetId);
    }
    hide Frame.Decode, AckRec, EpochOf;
  }

  /** A reception that delivers or answers leaves a snapshot to commit; any other stages no reservation. */
  predicate StagesWhatItHolds(r: Step<Reaction>) {
    if r.result.kind.Deliver? || r.result.kind.ReAck? then r.state.dirty else NoReserve(r.state)
  }

  lemma AckBuilt(cr: Crypto, s: State, op: StagedOp, slot: nat, h: Frame.Header, packetId: u32)
    requires slot < MAX_CONTACTS
    ensures BuildAck(cr, Stage(s, op), slot, h, packetId).state.dirty
  {
    BuildAckIs(cr, s, op, slot, h, packetId);
    hide Stage, BuildAck, AckFrame, Consume, EpochOf, CanReserve;
  }

  lemma OpenedStages(cr: Crypto, s: State, slot: nat, h: Frame.Header, pt: bytes, packetId: u32)
    requires slot < MAX_CONTACTS && h.epoch in s.contacts[slot].winEpochs && Frame.BodyOk(h.flags, pt) && NoReserve(s)
    ensures StagesWhatItHolds(OnOpened(cr, s, slot, h, pt, packetId))
  {
    hide OnData, OnAck;
    if pt[0] == Frame.BODY_DATA { DataStages(cr, s, slot, h, pt, packetId); } else { AckStages(s, slot, h, pt); }
  }

  lemma DataStages(cr: Crypto, s: State, slot: nat, h: Frame.Header, pt: bytes, packetId: u32)
    requires slot < MAX_CONTACTS && h.epoch in s.contacts[slot].winEpochs && 1 <= |pt| <= 1 + Frame.MAX_TEXT_LEN && NoReserve(s)
    ensures StagesWhatItHolds(OnData(cr, s, slot, h, pt, packetId))
  {
    hide BuildAck, Replay.Offer, Stage, Clock.Position;
    var c := s.contacts[slot];
    var i := WindowIndex(c, h.epoch);
    var w := Replay.Offer(c.winData[i], h.sequence).window;
    AckBuilt(cr, s.(contacts := s.contacts[slot := c.(winData := c.winData[i := w])]), RxAccept, slot, h, packetId);
    AckBuilt(cr, s.(replayDrops := SatInc(s.replayDrops)), Plain, slot, h, packetId);
  }

  lemma AckStages(s: State, slot: nat, h: Frame.Header, pt: bytes)
    requires slot < MAX_CONTACTS && h.epoch in s.contacts[slot].winEpochs && |pt| == 17 && NoReserve(s)
    ensures StagesWhatItHolds(OnAck(s, slot, h, pt))
  {
    hide Replay.Offer, Stage, Clock.Position, FromBe32, FromBe64;
  }

  lemma FrameStages(cr: Crypto, s: State, f: bytes, now: u64, packetId: u32)
    requires NoReserve(s)
    ensures StagesWhatItHolds(Engine.OnFrame(cr, s, f, now, packetId))
  {
    hide Frame.Decode, OnOpened, Transit, Engine.OnFrame;
    if Frame.Decode(f).Err? {
      UndecodableIgnored(cr, s, f, now, packetId);
    } else {
      var slot, pt := OnFrameCases(cr, s, f, now, packetId);
      CaseStages(cr, s, f, now, packetId, slot, pt);
    }
  }

  lemma CaseStages(cr: Crypto, s: State, f: bytes, now: u64, packetId: u32, slot: nat, pt: bytes)
    requires NoReserve(s) && Frame.Decode(f).Ok? && FrameCase(cr, s, f, now, packetId, slot, pt)
    ensures StagesWhatItHolds(Engine.OnFrame(cr, s, f, now, packetId))
  {
    var h := Frame.Decode(f).value.header;
    TransitFields(cr, s, f, h, now);
    TransitFields(cr, s.(authFailures := SatInc(s.authFailures)), f, h, now);
    hide Frame.Decode, OnOpened, Transit, Engine.OnFrame;
    if slot < MAX_CONTACTS && h.epoch in s.contacts[slot].winEpochs && Frame.BodyOk(h.flags, pt) {
      OpenedStages(cr, s, slot, h, pt, packetId);
    }
  }

  lemma FrameFlow(cr: Crypto, n: Node, f: bytes, now: u64, packetId: u32)
    requires Quiet(n) && PendingOn(n.ram)
    ensures var (m, k) := (Apply(cr, n, Action.OnFrame(f, now, packetId)), Engine.OnFrame(cr, n.ram, f, now, packetId).result.kind);
            && m == n.(ram := m.ram, held := m.held) && PendingOn(m.ram)
            && m.ram.pendingText == n.ram.pendingText && (m.ram.pendingSend.Some? ==> m.ram.pendingSend == n.ram.pendingSend)
            && (m.held.rec.Some? ==> !IsData(m.held.rec.value))
            && (if k.Deliver? || k.ReAck? then m.ram.dirty else Quiet(m))
  {
    hide HeldAfter, Engine.OnFrame, SlotsSame;
    FrameKeeps(cr, n.ram, f, now, packetId);
    FrameStages(cr, n.ram, f, now, packetId);
    HeldNoData(cr, n.ram, f, packetId, Engine.OnFrame(cr, n.ram, f, now, packetId).result);
  }

  // ---- pieces of handlers ----

  lemma CacheSynced(r: Rt)
    requires CacheTrue(r)
    ensures CacheTrue(SyncPolicy(r))
    ensures var t := SyncPolicy(r); t == r.(policy := t.policy, lastPolicy := t.lastPolicy)
  {
    hide PolicyOf;
  }

  lemma CompletedNode(cr: Crypto, n: Node)
    requires Quiet(n)
    ensures var m := Apply(cr, n, Action.SendComplete); Quiet(m) && m.ram.pendingSend.None? && !m.inflight && m.usb == n.usb
  {}

  lemma FinishFlow(cr: Crypto, r: Rt, id: u64, a: Reply)
    requires Quiet(r.node) && CacheTrue(r)
    ensures Flow(Finish(cr, r, id, a))
  {
    hide Quiet, Apply;
    CompletedNode(cr, r.node);
  }

  lemma FailFlow(cr: Crypto, r: Rt)
    requires Quiet(r.node) && (r.send.None? ==> r.node.ram.pendingSend.None? && !r.node.inflight)
    ensures Flow(FailClosed(cr, r))
  {
    hide Quiet, Apply, PolicyOf, Finish;
    var off := Call(false, PolicyOf(r.node.ram).blocked);
    var t := r.(policy := r.policy + [off], lastPolicy := Some(off), nextCmd := NextCmd(r.nextCmd), forward := None);
    if r.send.Some? { FinishFlow(cr, t, r.send.value.replyId, Refused(StorageCode)); }
  }

  /** The flow in the middle of a handler that keeps the send in flight. */
  predicate MidFlow(r: Rt) {
    && CacheTrue(r) && PendingInFlight(r) && PendingOn(r.node.ram) && (CommitBytes(r.node).None? ==> Quiet(r.node))
    && (r.node.held.rec.Some? ==> !IsData(r.node.held.rec.value))
  }

  lemma FlowIsMid(r: Rt)
    requires Flow(r)
    ensures MidFlow(r)
  {}

  /** A commit that goes through releases what is held back; one that fails ends the send. */
  lemma CommitNode(cr: Crypto, r: Rt, o: Outcome)
    requires CommitBytes(r.node).None? ==> Quiet(r.node)
    ensures var c := CommitRt(cr, r, o);
            if c.ok then
              && Quiet(c.rt.node) && c.rt == r.(node := c.rt.node, acts := c.rt.acts)
              && c.rt.node.ram.pendingSend == r.node.ram.pendingSend && c.rt.node.ram.pendingText == r.node.ram.pendingText
              && c.rt.node.ram.radioOn == r.node.ram.radioOn
              && c.rt.node.inflight == (r.node.inflight || (CommitBytes(r.node).Some? && o.Done? && o.radioTook && r.node.held.rec.Some?
                                                            && IsData(r.node.held.rec.value)))
            else
              Flow(c.rt)
  {
    hide DoCommit, FailClosed, CommitBytes, BytesLatest;
    if CommitBytes(r.node).Some? {
      Committing(r.node, o);
      if o.Failed? { FailFlow(cr, Act(cr, r, Commit(o))); }
    }
  }

  lemma CommitFlow(cr: Crypto, r: Rt, o: Outcome)
    requires MidFlow(r)
    ensures var c := CommitRt(cr, r, o); Flow(c.rt) && (c.ok ==> c.rt == r.(node := c.rt.node, acts := c.rt.acts))
  {
    hide CommitRt, CommitBytes, Quiet, IsData;
    CommitNode(cr, r, o);
  }

  // ---- sending ----

  /** The engine's pending send, if any, is request `q`. */
  predicate IsRequest(n: Node, q: Request) {
    n.ram.pendingSend.Some? ==> n.ram.pendingSend.value.contactId == q.contactId && n.ram.pendingText == q.text
  }

  lemma QueueFlow(cr: Crypto, r: Rt, q: Request, took: bool, now: nat)
    requires Quiet(r.node) && CacheTrue(r) && PendingOn(r.node.ram) && r.node.inflight == took && IsRequest(r.node, q) && q in r.asked
    requires r.send.None?
    ensures Flow(QueueFirst(cr, r, q.id, q.contactId, took, now))
  {
    hide Quiet, SyncPolicy, Finish;
    CacheSynced(r);
    var t := SyncPolicy(r);
    var u := t.(nextCmd := NextCmd(t.nextCmd));
    FinishFlow(cr, u, q.id, Refused(BusyCode));
  }

  /** A committed state: nothing in flight yet, the request not yet answered. */
  predicate Idle(r: Rt) { Quiet(r.node) && r.send.None? && !r.node.inflight && CacheTrue(r) && PendingOn(r.node.ram) }

  /** The emission holds back the frame of the request. */
  lemma EmitHeld(cr: Crypto, n: Node)
    requires Quiet(n) && Engine.SendEmit(cr, n.ram).result.Ok?
    ensures var m := Apply(cr, n, Action.SendEmit);
            && m == n.(ram := m.ram, held := m.held) && CommitBytes(m).Some? && m.held.rec.Some? && IsData(m.held.rec.value)
            && m.ram.pendingSend == n.ram.pendingSend && m.ram.pendingText == n.ram.pendingText && m.ram.radioOn == n.ram.radioOn
  {
    EmitEffect(cr, n.ram);
    hide Engine.SendEmit, PendingRec;
  }

  lemma EmitFlow(cr: Crypto, r: Rt, q: Request, second: Outcome, now: nat)
    requires Idle(r) && r.node.ram.pendingSend.Some? && IsRequest(r.node, q) && q in r.asked
    ensures Flow(Emit(cr, r, q.id, q.contactId, second, now))
  {
    hide Apply, CommitRt, QueueFirst, Finish, Engine.SendEmit, Quiet, CommitBytes, IsData;
    var e := Engine.SendEmit(cr, r.node.ram).result;
    if e.Err? {
      FinishFlow(cr, r, q.id, Refused(EngineCode(e.error)));
    } else {
      var m := Act(cr, r, Action.SendEmit);
      EmitHeld(cr, r.node);
      CommitNode(cr, m, second);
      CommitEnds(cr, m, second);
      var c := CommitRt(cr, m, second);
      if c.ok { QueueFlow(cr, c.rt, q, second.Done? && second.radioTook, now); }
    }
  }

  lemma CommitEnds(cr: Crypto, r: Rt, o: Outcome)
    requires CommitBytes(r.node).Some?
    ensures CommitRt(cr, r, o).ok <==> o.Done?
  {
    hide FailClosed, Apply;
  }

  lemma BeginHeld(cr: Crypto, n: Node, contactId: byte, text: bytes, packetId: u32)
    requires Quiet(n) && Engine.SendBegin(n.ram, contactId, text, packetId).result.Ok?
    ensures var m := Apply(cr, n, Action.SendBegin(contactId, text, packetId));
            && m == n.(ram := m.ram) && CommitBytes(m).Some? && m.ram.dirty && m.held == NOTHING_HELD
            && m.ram.pendingSend.Some? && m.ram.pendingSend.value.contactId == contactId && m.ram.pendingText == text
            && m.ram.radioOn == n.ram.radioOn
  {
    BeginEffect(n.ram, contactId, text, packetId);
    hide Engine.SendBegin;
  }

  lemma SendPrepFlow(cr: Crypto, r: Rt, q: Request, packetId: u32, first: Outcome, second: Outcome, now: nat)
    requires Flow(r)
    ensures Flow(OnSendPrep(cr, r, q, packetId, first, second, now))
  {
    hide Apply, CommitRt, Emit, Engine.SendBegin, Quiet, CommitBytes;
    var s, t := Requested(r, q), OnSendPrep(cr, r, q, packetId, first, second, now);
    if Begins(r, q, packetId) {
      var m := Act(cr, s, Action.SendBegin(q.contactId, q.text, packetId));
      BeginHeld(cr, r.node, q.contactId, q.text, packetId);
      CommitNode(cr, m, first);
      var c := CommitRt(cr, m, first);
      if c.ok { EmitFlow(cr, c.rt, q, second, now); }
    }
  }

  // ---- other events ----

  lemma TxDoneFlow(cr: Crypto, r: Rt, cmdId: u64, result: Result<(), TxFault>, now: nat)
    requires Flow(r)
    ensures Flow(OnTxDone(cr, r, cmdId, result, now))
  {
    hide Finish, SlotOf, Quiet;
    if r.send.Some? {
      forall a ensures Flow(Finish(cr, r, r.send.value.replyId, a)) { FinishFlow(cr, r, r.send.value.replyId, a); }
    }
  }

  lemma PollSendFlow(cr: Crypto, r: Rt, now: nat, queued: bool)
    requires Flow(r)
    ensures Flow(PollSend(cr, r, now, queued))
  {
    hide Finish, SyncPolicy, SendRetryEcho, Apply, Quiet;
    CacheSynced(r);
    var t := SyncPolicy(r);
    var u := t.(nextCmd := NextCmd(t.nextCmd));
    RetryKeeps(cr, r.node);
    if r.send.Some? {
      forall a ensures Flow(Finish(cr, r, r.send.value.replyId, a)) && Flow(Finish(cr, u, r.send.value.replyId, a)) {
        FinishFlow(cr, r, r.send.value.replyId, a);
        FinishFlow(cr, u, r.send.value.replyId, a);
      }
    }
  }

  lemma RetryKeeps(cr: Crypto, n: Node)
    ensures var m := Apply(cr, n, RetryEcho); m == n.(logs := m.logs) && (Quiet(n) ==> Quiet(m)) && (BytesLatest(n) ==> BytesLatest(m))
  {
    hide SendRetryEcho, PendingRec;
  }

  lemma PollForwardFlow(r: Rt, now: nat, queued: bool)
    requires Flow(r)
    ensures Flow(PollForward(r, now, queued))
  {
    hide SyncPolicy, Quiet;
    CacheSynced(r);
  }

  lemma PollFlow(cr: Crypto, r: Rt, now: nat, queued: bool, relayQueued: bool)
    requires Flow(r)
    ensures Flow(OnPoll(cr, r, now, queued, relayQueued))
  {
    hide Flow, PollSend, PollForward;
    PollSendFlow(cr, r, now, queued);
    PollForwardFlow(PollSend(cr, r, now, queued), now, relayQueued);
  }

  /** An operation between commits keeps the send in flight. */
  lemma OpFlow(cr: Crypto, r: Rt, a: Action)
    requires Flow(r) && (RamOnly(a) || Pairs(a))
    ensures Flow(Act(cr, r, a))
  {
    hide Apply;
    OpCalm(cr, r.node, a);
  }

  lemma ClockFlow(cr: Crypto, r: Rt, nowS: u64, o: Outcome)
    requires Flow(r)
    ensures Flow(OnClock(cr, r, nowS, o))
  {
    hide Flow, Apply, CommitRt, FailClosed, Engine.AdvanceTime;
    var t := Act(cr, r, Action.AdvanceTime(nowS));
    OpFlow(cr, r, Action.AdvanceTime(nowS));
    FlowIsMid(t);
    CommitFlow(cr, t, o);
    FlowFails(cr, t);
  }

  lemma FlowFails(cr: Crypto, r: Rt)
    requires Flow(r)
    ensures Flow(FailClosed(cr, r))
  {
    hide FailClosed, Quiet;
    FailFlow(cr, r);
  }

  lemma TakenIsRam(s: State, op: Action)
    requires UsbTaken(s, op)
    ensures RamOnly(op) && !op.SetIdentity?
  {}

  lemma StageUsbFlow(cr: Crypto, r: Rt)
    requires Flow(r)
    ensures Flow(Act(cr, r, StageUsb))
  {}

  lemma SyncFlow(r: Rt)
    requires Flow(r)
    ensures Flow(SyncPolicy(r))
  {
    hide SyncPolicy, Quiet;
    CacheSynced(r);
  }

  lemma FlowFinishes(cr: Crypto, r: Rt, id: u64, a: Reply)
    requires Flow(r)
    ensures Flow(Finish(cr, r, id, a))
  {
    hide Finish, Quiet;
    FinishFlow(cr, r, id, a);
  }

  lemma UsbCommittedFlow(cr: Crypto, r: Rt, op: Action, o: Outcome)
    requires Flow(r)
    ensures Flow(OnUsbCommitted(cr, r, op, o))
  {
    hide Flow, Apply, CommitRt, SyncPolicy, Finish, UsbTaken;
    if UsbTaken(r.node.ram, op) {
      TakenIsRam(r.node.ram, op);
      OpFlow(cr, r, op);
      var u := Act(cr, r, op);
      StageUsbFlow(cr, u);
      var m := Act(cr, u, StageUsb);
      FlowIsMid(m);
      CommitFlow(cr, m, o);
      var c := CommitRt(cr, m, o);
      SyncFlow(c.rt);
      var t := SyncPolicy(c.rt);
      if t.send.Some? { FlowFinishes(cr, t, t.send.value.replyId, Refused(BusyCode)); }
    }
  }

  lemma UsbInlineFlow(cr: Crypto, r: Rt, op: Action)
    requires Flow(r) && Inline(op)
    ensures Flow(OnUsbInline(cr, r, op))
  {
    hide Flow, Apply, InlineTaken;
    OpFlow(cr, r, op);
    StageUsbFlow(cr, Act(cr, r, op));
  }

  lemma RxFlow(cr: Crypto, r: Rt, frame: bytes, nowMs: u64, ackPacketId: u32, word: u32, o: Outcome)
    requires Flow(r)
    ensures Flow(OnRx(cr, r, frame, nowMs, ackPacketId, word, o))
  {
    hide Flow, Apply, CommitRt, Finish, AckOut, Schedule, Engine.OnFrame;
    var e := Engine.OnFrame(cr, r.node.ram, frame, nowMs, ackPacketId).result;
    var t := Act(cr, r, Action.OnFrame(frame, nowMs, ackPacketId));
    FrameMid(cr, r, frame, nowMs, ackPacketId);
    CommitFlow(cr, t, o);
    var c := CommitRt(cr, t, o);
    if e.out.Some? {
      if e.kind.Forward? { ScheduleFlow(t, e.out.value.frame, nowMs, word); }
      AckOutFlow(cr, c.rt, e.out.value.frame, nowMs);
    }
    if c.rt.send.Some? { FlowFinishes(cr, c.rt, c.rt.send.value.replyId, Acknowledged); }
  }

  lemma FrameMid(cr: Crypto, r: Rt, f: bytes, now: u64, packetId: u32)
    requires Flow(r)
    ensures var (t, k) := (Act(cr, r, Action.OnFrame(f, now, packetId)), Engine.OnFrame(cr, r.node.ram, f, now, packetId).result.kind);
            MidFlow(t) && (!k.Deliver? && !k.ReAck? ==> Flow(t))
  {
    hide Apply, Engine.OnFrame, IsData;
    FrameFlow(cr, r.node, f, now, packetId);
  }

  lemma ScheduleFlow(r: Rt, frame: bytes, nowMs: u64, word: u32)
    requires Flow(r)
    ensures Flow(Schedule(r, frame, nowMs, word))
  {
    hide Quiet;
  }

  lemma AckOutFlow(cr: Crypto, r: Rt, frame: bytes, nowMs: u64)
    requires Flow(r)
    ensures Flow(AckOut(cr, r, frame, nowMs))
  {
    hide SyncPolicy, Apply, Quiet;
    SyncFlow(r);
    SyncIs(r);
    var u := SyncPolicy(r);
    OpFlow(cr, u.(nextCmd := NextCmd(u.nextCmd)), Action.NoteOrigin(frame, nowMs));
  }

  lemma StopFlow(cr: Crypto, r: Rt)
    requires Flow(r) && !r.node.ram.radioOn
    ensures Flow(OnRadioStopped(cr, r))
  {}

  lemma RestartFlow(cr: Crypto, r: Rt, radioAvailable: bool, uid: bytes8)
    ensures Flow(OnRestart(cr, r, radioAvailable, uid))
  {
    var n := Apply(cr, r.node, Crash(radioAvailable));
    BootsQuiet(cr, r.node, radioAvailable, uid);
    hide Apply;
  }

  lemma BootsQuiet(cr: Crypto, n: Node, radioAvailable: bool, uid: bytes8)
    ensures var m := Apply(cr, Apply(cr, n, Crash(radioAvailable)), Action.SetIdentity(uid));
            Quiet(m) && BytesLatest(m) && m.ram.pendingSend.None? && !m.inflight && m.usb.None?
  {
    hide RestoreContacts;
  }

  /** Every event that can happen keeps the flow. */
  lemma FlowStep(cr: Crypto, r: Rt, e: Event)
    requires Flow(r) && CanHappen(r, e)
    ensures Flow(Handle(cr, r, e))
  {
    hide Flow, OnSendPrep, OnTxDone, OnRx, OnPoll, OnClock, FailClosed, OnUsbCommitted, OnUsbInline, OnRadioStopped, OnRestart;
    match e
    case SendPrep(id, contactId, text, packetId, first, second, now) =>
      SendPrepFlow(cr, r, Request(id, contactId, text), packetId, first, second, now);
    case TxDone(cmdId, result, now) => TxDoneFlow(cr, r, cmdId, result, now);
    case Rx(frame, nowMs, ackPacketId, word, o) => RxFlow(cr, r, frame, nowMs, ackPacketId, word, o);
    case Poll(now, queued, relayQueued) => PollFlow(cr, r, now, queued, relayQueued);
    case Clock(nowS, o) => ClockFlow(cr, r, nowS, o);
    case RadioFault => FlowFails(cr, r);
    case UsbCommitted(op, o) => UsbCommittedFlow(cr, r, op, o);
    case UsbInline(op) => UsbInlineFlow(cr, r, op);
    case RadioStopped => StopFlow(cr, r);
    case Restart(radioAvailable, uid) => RestartFlow(cr, r, radioAvailable, uid);
  }

  lemma StartFlow(radioAvailable: bool, uid: bytes8)
    ensures Flow(Start(radioAvailable, uid)) && BytesLatest(Start(radioAvailable, uid).node)
  {}
}
