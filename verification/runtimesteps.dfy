/** Every event in order keeps the discipline of the node. */
module RuntimeSteps {
  import opened Bytes
  import opened Security
  import opened Persist
  import opened Engine
  import opened Node
  import opened NodeFrames
  import opened NodeKeeps
  import opened NodePairing
  import opened NodeRuns
  import opened Policy
  import opened Transmit
  import opened Runtime
  import opened RuntimeBooks
  import opened RuntimeFlow
  import Ceremony
  import Frame

  // ---- the node of the runtime ----

  /** Between handlers the node has kept its discipline, holds nothing back, and any bytes left over are the latest. */
  predicate NodeOk(cr: Crypto, r: Rt) { Traced(cr, r) && Quiet(r.node) && BytesLatest(r.node) }

  lemma TracedInv(cr: Crypto, r: Rt)
    requires Traced(cr, r)
    ensures FullInv(cr, r.node) && Inv(cr, r.node)
  {
    hide Inv, PairInv, Run, Disciplined;
    RunInv(cr, r.origin, r.acts);
  }

  lemma RunOneMore(cr: Crypto, n: Node, acts: seq<Action>, a: Action)
    ensures Run(cr, n, acts + [a]) == Apply(cr, Run(cr, n, acts), a)
  {
    hide Apply;
    assert (acts + [a])[..|acts|] == acts;
  }

  lemma DisciplinedOneMore(cr: Crypto, n: Node, acts: seq<Action>, a: Action)
    requires Disciplined(cr, n, acts) && Allowed(cr, Run(cr, n, acts), a)
    ensures Disciplined(cr, n, acts + [a])
  {
    hide Allowed, Run;
    assert (acts + [a])[..|acts|] == acts;
  }

  lemma ActTraced(cr: Crypto, r: Rt, a: Action)
    requires Traced(cr, r) && Allowed(cr, r.node, a)
    ensures Traced(cr, Act(cr, r, a))
  {
    hide Apply, Allowed, Run, Disciplined;
    RunOneMore(cr, Blank(r.origin), r.acts, a);
    DisciplinedOneMore(cr, Blank(r.origin), r.acts, a);
  }

  lemma TracedSame(cr: Crypto, r: Rt, t: Rt)
    requires Traced(cr, r) && t.node == r.node && t.origin == r.origin && t.acts == r.acts
    ensures Traced(cr, t)
  {
    hide Run, Disciplined;
  }

  /** Nothing else of the runtime concerns its node. */
  lemma OkSame(cr: Crypto, r: Rt, t: Rt)
    requires NodeOk(cr, r) && t.node == r.node && t.origin == r.origin && t.acts == r.acts
    ensures NodeOk(cr, t)
  {
    hide Traced, Quiet, BytesLatest;
    TracedSame(cr, r, t);
  }

  // ---- pieces of handlers ----

  lemma CompleteAllowed(cr: Crypto, n: Node)
    requires Quiet(n)
    ensures Allowed(cr, n, Action.SendComplete)
    ensures BytesLatest(n) ==> BytesLatest(Apply(cr, n, Action.SendComplete))
  {}

  lemma FinishOk(cr: Crypto, r: Rt, id: u64, a: Reply)
    requires NodeOk(cr, r)
    ensures NodeOk(cr, Finish(cr, r, id, a))
  {
    hide Traced, Quiet, BytesLatest, Apply, Allowed;
    TracedSame(cr, r, r.(send := None));
    CompleteAllowed(cr, r.node);
    CompletedNode(cr, r.node);
    var t := Act(cr, r.(send := None), Action.SendComplete);
    ActTraced(cr, r.(send := None), Action.SendComplete);
    OkSame(cr, t, Finish(cr, r, id, a));
  }

  lemma FailOk(cr: Crypto, r: Rt)
    requires NodeOk(cr, r)
    ensures NodeOk(cr, FailClosed(cr, r))
  {
    hide NodeOk, Finish, PolicyOf;
    var off := Call(false, PolicyOf(r.node.ram).blocked);
    var t := r.(policy := r.policy + [off], lastPolicy := Some(off), nextCmd := NextCmd(r.nextCmd), forward := None);
    OkSame(cr, r, t);
    if r.send.Some? { FinishOk(cr, t, r.send.value.replyId, Refused(StorageCode)); }
  }

  /** Where nothing is held back, a commit of any bytes is in order. */
  lemma NothingReleased(n: Node, o: Outcome)
    requires n.held == NOTHING_HELD
    ensures CommitInOrder(n, o)
  {}

  /** Ready for a commit. */
  predicate MidOk(cr: Crypto, r: Rt, o: Outcome) {
    Traced(cr, r) && CommitInOrder(r.node, o) && (CommitBytes(r.node).None? ==> Quiet(r.node))
  }

  lemma CommitAllowed(cr: Crypto, n: Node, o: Outcome)
    requires CommitInOrder(n, o)
    ensures Allowed(cr, n, Commit(o))
  {
    hide CommitInOrder;
  }

  lemma NothingToWrite(n: Node)
    requires CommitBytes(n).None?
    ensures BytesLatest(n) && n.usb.None?
  {}

  lemma CommitsOk(cr: Crypto, r: Rt, o: Outcome)
    requires MidOk(cr, r, o)
    ensures var c := CommitRt(cr, r, o); NodeOk(cr, c.rt) && (c.ok ==> c.rt.node.usb.None?)
  {
    hide Traced, DoCommit, FailClosed, BytesLatest, CommitBytes, CommitInOrder, Quiet;
    if CommitBytes(r.node).Some? {
      CommitAllowed(cr, r.node, o);
      ActTraced(cr, r, Commit(o));
      Committing(r.node, o);
      FailOk(cr, Act(cr, r, Commit(o)));
    } else {
      NothingToWrite(r.node);
    }
  }

  lemma QueueOk(cr: Crypto, r: Rt, id: u64, contactId: byte, took: bool, now: nat)
    requires NodeOk(cr, r)
    ensures NodeOk(cr, QueueFirst(cr, r, id, contactId, took, now))
  {
    hide NodeOk, SyncPolicy, Finish;
    SyncIs(r);
    var t := SyncPolicy(r);
    var u := t.(nextCmd := NextCmd(t.nextCmd));
    OkSame(cr, r, u);
    FinishOk(cr, u, id, Refused(BusyCode));
    if took { OkSame(cr, u, QueueFirst(cr, r, id, contactId, took, now)); }
  }

  // ---- sending ----

  lemma EmitAllowed(cr: Crypto, n: Node)
    requires Quiet(n)
    ensures Allowed(cr, n, Action.SendEmit)
  {}

  lemma NoUsbLatest(n: Node)
    requires n.usb.None?
    ensures BytesLatest(n)
  {}

  lemma LatestInOrder(n: Node, o: Outcome)
    requires BytesLatest(n)
    ensures CommitInOrder(n, o)
  {}

  lemma EmitOk(cr: Crypto, r: Rt, id: u64, contactId: byte, second: Outcome, now: nat)
    requires NodeOk(cr, r) && r.node.usb.None?
    ensures NodeOk(cr, Emit(cr, r, id, contactId, second, now))
  {
    hide Traced, Apply, Allowed, CommitRt, QueueFirst, Finish, Engine.SendEmit, Quiet, BytesLatest, CommitBytes, CommitInOrder;
    var e := Engine.SendEmit(cr, r.node.ram).result;
    if e.Err? {
      FinishOk(cr, r, id, Refused(EngineCode(e.error)));
    } else {
      var m := Act(cr, r, Action.SendEmit);
      EmitAllowed(cr, r.node);
      ActTraced(cr, r, Action.SendEmit);
      EmitHeld(cr, r.node);
      NoUsbLatest(m.node);
      LatestInOrder(m.node, second);
      CommitsOk(cr, m, second);
      var c := CommitRt(cr, m, second);
      QueueOk(cr, c.rt, id, contactId, second.Done? && second.radioTook, now);
      OkSame(cr, c.rt, Answer(c.rt, id, Refused(StorageCode)));
    }
  }

  lemma BeginAllowed(cr: Crypto, n: Node, contactId: byte, text: bytes, packetId: u32)
    requires Quiet(n) && n.ram.radioOn && !n.inflight
    ensures Allowed(cr, n, Action.SendBegin(contactId, text, packetId))
  {}

  lemma SendPrepOk(cr: Crypto, r: Rt, q: Request, packetId: u32, first: Outcome, second: Outcome, now: nat)
    requires NodeOk(cr, r) && Flow(r)
    ensures NodeOk(cr, OnSendPrep(cr, r, q, packetId, first, second, now))
  {
    hide Traced, Apply, Allowed, CommitRt, Emit, Engine.SendBegin, Quiet, BytesLatest, CommitBytes, CommitInOrder;
    var s, t := Requested(r, q), OnSendPrep(cr, r, q, packetId, first, second, now);
    OkSame(cr, r, s);
    if !Begins(r, q, packetId) {
      OkSame(cr, r, t);
    } else {
      var a := Action.SendBegin(q.contactId, q.text, packetId);
      var m := Act(cr, s, a);
      BeginAllowed(cr, r.node, q.contactId, q.text, packetId);
      ActTraced(cr, s, a);
      BeginHeld(cr, r.node, q.contactId, q.text, packetId);
      NothingReleased(m.node, first);
      CommitsOk(cr, m, first);
      var c := CommitRt(cr, m, first);
      OkSame(cr, c.rt, Answer(c.rt, q.id, Refused(StorageCode)));
      if c.ok { EmitOk(cr, c.rt, q.id, q.contactId, second, now); }
    }
  }

  // ---- other events ----

  lemma TxDoneOk(cr: Crypto, r: Rt, cmdId: u64, result: Result<(), TxFault>, now: nat)
    requires NodeOk(cr, r)
    ensures NodeOk(cr, OnTxDone(cr, r, cmdId, result, now))
  {
    hide NodeOk, Finish, SlotOf;
    if r.send.Some? && r.send.value.cmdId == cmdId && result.Err? {
      forall a ensures NodeOk(cr, Finish(cr, r, r.send.value.replyId, a)) { FinishOk(cr, r, r.send.value.replyId, a); }
    } else {
      OkSame(cr, r, OnTxDone(cr, r, cmdId, result, now));
    }
  }

  lemma RetryAllowed(cr: Crypto, n: Node)
    requires Quiet(n) && n.inflight
    ensures Allowed(cr, n, RetryEcho)
  {}

  lemma PollSendOk(cr: Crypto, r: Rt, now: nat, queued: bool)
    requires NodeOk(cr, r) && Flow(r)
    ensures NodeOk(cr, PollSend(cr, r, now, queued))
  {
    hide Traced, Quiet, BytesLatest, Finish, SyncPolicy, SendRetryEcho, Apply, Allowed;
    if r.send.Some? {
      SyncIs(r);
      var t := SyncPolicy(r);
      var u := t.(nextCmd := NextCmd(t.nextCmd));
      OkSame(cr, r, u);
      forall a ensures NodeOk(cr, Finish(cr, r, r.send.value.replyId, a)) && NodeOk(cr, Finish(cr, u, r.send.value.replyId, a)) {
        FinishOk(cr, r, r.send.value.replyId, a);
        FinishOk(cr, u, r.send.value.replyId, a);
      }
      var s := r.send.value;
      var v := u.(send := Some(InFlight(s.replyId, s.contactId, s.txCount + 1, now + ACK_WAIT_MS, t.nextCmd)), queued := u.queued + multiset{s.replyId});
      OkSame(cr, r, v);
      RetryAllowed(cr, r.node);
      ActTraced(cr, v, RetryEcho);
      RetryKeeps(cr, r.node);
    }
  }

  lemma PollOk(cr: Crypto, r: Rt, now: nat, queued: bool, relayQueued: bool)
    requires NodeOk(cr, r) && Flow(r)
    ensures NodeOk(cr, OnPoll(cr, r, now, queued, relayQueued))
  {
    hide NodeOk, Flow, PollSend, SyncPolicy;
    PollSendOk(cr, r, now, queued);
    var t := PollSend(cr, r, now, queued);
    SyncIs(t);
    OkSame(cr, t, PollForward(t, now, relayQueued));
  }

  lemma UsbDirty(cr: Crypto, n: Node)
    requires Inv(cr, n)
    ensures n.usb.Some? ==> n.ram.dirty
  {
    hide LogInv, DurableInv, RamInv, PendingRec;
  }

  lemma QuietTurn(cr: Crypto, n: Node, a: Action)
    requires Quiet(n) && (a.OnFrame? || a.StageUsb? || a.NoteOrigin? || (RamOnly(a) && !a.SetIdentity?))
    ensures Allowed(cr, n, a)
  {
    hide Quiet;
  }

  /** A refused tick stages nothing. */
  lemma TickLatest(cr: Crypto, n: Node, now: u64)
    requires BytesLatest(n) && Engine.AdvanceTime(n.ram, now).result.Some?
    ensures BytesLatest(Apply(cr, n, Action.AdvanceTime(now)))
  {
    if EntersHour(n.ram, now) { TickRotates(n.ram, now); } else { TickWithinHour(n.ram, now); }
    hide Engine.AdvanceTime, EntersHour;
  }

  lemma ClockOk(cr: Crypto, r: Rt, nowS: u64, o: Outcome)
    requires NodeOk(cr, r)
    ensures NodeOk(cr, OnClock(cr, r, nowS, o))
  {
    hide Traced, Quiet, BytesLatest, Apply, Allowed, CommitRt, FailClosed, Engine.AdvanceTime, CommitInOrder, CommitBytes, Inv, FullInv, Calm;
    var a := Action.AdvanceTime(nowS);
    var t := Act(cr, r, a);
    QuietTurn(cr, r.node, a);
    ActTraced(cr, r, a);
    OpCalm(cr, r.node, a);
    CalmHolds(r.node, t.node);
    if Engine.AdvanceTime(r.node.ram, nowS).result.Some? {
      TickLatest(cr, r.node, nowS);
      FailOk(cr, t);
    } else if PendingPersist(t.node.ram).Some? {
      NothingReleased(t.node, o);
      CommitsOk(cr, t, o);
    } else {
      TracedInv(cr, t);
      UsbDirty(cr, t.node);
      NoUsbLatest(t.node);
    }
  }

  lemma CalmHolds(n: Node, m: Node)
    requires Quiet(n) && Calm(n, m)
    ensures m.held == NOTHING_HELD && m.usb == n.usb && m.inflight == n.inflight
  {}

  lemma TakenIsDirty(s: State, op: Action)
    requires UsbTaken(s, op)
    ensures match op
            case SetTime(seconds, confirmed) => Engine.SetTime(s, seconds, confirmed).state.dirty
            case SetBlocked(contactId, blocked) => Engine.SetBlocked(s, contactId, blocked).state.dirty
            case DeleteContact(contactId) => Engine.DeleteContact(s, contactId).state.dirty
            case SetRadio(enabled) => Engine.SetRadio(s, enabled).state.dirty
            case _ => false
  {
    hide Stage, Floor, AdvanceContacts;
  }

  lemma TakenDirty(cr: Crypto, n: Node, op: Action)
    requires UsbTaken(n.ram, op)
    ensures Apply(cr, n, op).ram.dirty && RamOnly(op) && !op.SetIdentity?
  {
    TakenIsDirty(n.ram, op);
    hide Engine.SetTime, Engine.SetBlocked, Engine.DeleteContact, Engine.SetRadio;
  }

  /** Staging for the USB side makes its bytes the latest. */
  lemma StageUsbOk(cr: Crypto, r: Rt)
    requires Traced(cr, r) && Quiet(r.node) && (BytesLatest(r.node) || r.node.ram.dirty)
    ensures NodeOk(cr, Act(cr, r, StageUsb))
  {
    hide Traced;
    ActTraced(cr, r, StageUsb);
  }

  lemma UsbCommittedOk(cr: Crypto, r: Rt, op: Action, o: Outcome)
    requires NodeOk(cr, r)
    ensures NodeOk(cr, OnUsbCommitted(cr, r, op, o))
  {
    hide Traced, Quiet, BytesLatest, Apply, Allowed, CommitRt, SyncPolicy, Finish, UsbTaken, CommitInOrder, CommitBytes, Calm;
    if UsbTaken(r.node.ram, op) {
      TakenDirty(cr, r.node, op);
      QuietTurn(cr, r.node, op);
      ActTraced(cr, r, op);
      OpCalm(cr, r.node, op);
      var u := Act(cr, r, op);
      StageUsbOk(cr, u);
      var m := Act(cr, u, StageUsb);
      LatestInOrder(m.node, o);
      CommitsOk(cr, m, o);
      var c := CommitRt(cr, m, o);
      SyncIs(c.rt);
      var t := SyncPolicy(c.rt);
      OkSame(cr, c.rt, t);
      if t.send.Some? { FinishOk(cr, t, t.send.value.replyId, Refused(BusyCode)); }
    }
  }

  /** It stages, or leaves the staged snapshot alone; a refusal changes nothing. */
  lemma InlineStages(cr: Crypto, n: Node, op: Action)
    requires Inline(op) && BytesLatest(n)
    ensures BytesLatest(Apply(cr, n, op)) || Apply(cr, n, op).ram.dirty
    ensures !InlineTaken(cr, n.ram, op) ==> BytesLatest(Apply(cr, n, op))
  {
    if op.ArmNextBoot? || op.Provision? {
      ArmStages(n.ram, if op.Provision? then op.boardLabel else 0, if op.Provision? then op.signPriv else n.ram.signPriv);
      hide Engine.ArmNextBoot, DoProvision;
    } else {
      PairStages(cr, n, op);
    }
  }

  lemma ArmStages(s: State, lab: byte, key: bytes32)
    ensures var r := Engine.ArmNextBoot(s); if r.result.None? then r.state.dirty else r.state == s
    ensures var r := DoProvision(s, lab, key); if r.result.None? then r.state.dirty else r.state == s
  {
    hide Stage;
  }

  lemma PairStages(cr: Crypto, n: Node, op: Action)
    requires Pairs(op) && BytesLatest(n)
    ensures BytesLatest(Apply(cr, n, op)) || Apply(cr, n, op).ram.dirty
    ensures !InlineTaken(cr, n.ram, op) ==> BytesLatest(Apply(cr, n, op))
  {
    hide Ceremony.PairOffer, Ceremony.Import, Ceremony.PairProof, Ceremony.PairConfirm, Apply;
    PairApply(cr, n, op);
    match op
    case PairOffer(ephPriv, challenge) => OfferOnlyAttempt(cr, n.ram, ephPriv, challenge);
    case PairImport(record, replace, sasMatch) => ImportStages(cr, n.ram, record, replace, sasMatch);
    case _ => ExportsOnlyAttempt(cr, n.ram);
  }

  lemma ImportStages(cr: Crypto, s: State, record: bytes, replace: bool, sasMatch: bool)
    ensures var r := Ceremony.Import(cr, s, record, replace, sasMatch);
            (r.state == s.(attempt := r.state.attempt)) || (r.state.dirty && r.result.Ok?)
  {
    hide Ceremony.Import, Ceremony.ImportConfirm, Ceremony.WithOffer, Ceremony.WithProof, Ceremony.Guard, Activate, Ceremony.PeerEd,
      Ceremony.PairRoot, Activation;
    ImportRefused(cr, s, record, replace, sasMatch);
    ImportCases(cr, s, record, replace, sasMatch);
    if s.attempt.Some? && Ceremony.ImportConfirm(cr, s, record).result.Ok? {
      Ceremony.Activated(cr, s, record);
      var a := s.attempt.value;
      ActivateDirty(s, a.slot, Ceremony.PeerEd(a), a.peerIdentity.value, Ceremony.PairRoot(cr, a, a.transcript.value).value, a.ownRole);
    }
  }

  lemma ImportRefused(cr: Crypto, s: State, record: bytes, replace: bool, sasMatch: bool)
    ensures var r := Ceremony.Import(cr, s, record, replace, sasMatch); r.result.Err? ==> r.state == s
  {
    hide Ceremony.ImportConfirm, Ceremony.WithOffer, Ceremony.WithProof, Ceremony.Guard;
    if s.attempt.Some? { Ceremony.ConfirmKeepsAttempt(cr, s, record); }
  }

  lemma ActivateDirty(s: State, slot: nat, ed: bytes32, id: bytes8, root: bytes32, role: byte)
    requires slot < MAX_CONTACTS
    ensures Activate(s, slot, ed, id, root, role).state.dirty
  {
    hide NewContact, EpochOf;
  }

  lemma InlineAllowed(cr: Crypto, n: Node, op: Action)
    requires Quiet(n) && Inline(op) && RevivesNothing(cr, n, op) && Lucky(cr, n, op)
    ensures Allowed(cr, n, op)
  {
    hide Quiet, RevivesNothing, Lucky;
  }

  lemma UsbInlineOk(cr: Crypto, r: Rt, op: Action)
    requires NodeOk(cr, r) && Inline(op) && RevivesNothing(cr, r.node, op) && Lucky(cr, r.node, op)
    ensures NodeOk(cr, OnUsbInline(cr, r, op))
  {
    hide Traced, Quiet, BytesLatest, Apply, Allowed, RevivesNothing, Lucky, InlineTaken;
    InlineAllowed(cr, r.node, op);
    ActTraced(cr, r, op);
    OpCalm(cr, r.node, op);
    InlineStages(cr, r.node, op);
    if InlineTaken(cr, r.node.ram, op) { StageUsbOk(cr, Act(cr, r, op)); }
  }

  /** Opaque transit stages nothing. */
  lemma ForwardLatest(cr: Crypto, s: State, f: bytes, now: u64, packetId: u32)
    requires Engine.OnFrame(cr, s, f, now, packetId).result.kind.Forward?
    ensures var t := Engine.OnFrame(cr, s, f, now, packetId).state; t.dirty == s.dirty && t.scratch == s.scratch
  {
    hide Frame.Decode, OnOpened, Transit, Engine.OnFrame;
    if Frame.Decode(f).Err? {
      UndecodableIgnored(cr, s, f, now, packetId);
    } else {
      var slot, pt := OnFrameCases(cr, s, f, now, packetId);
      ForwardCaseLatest(cr, s, f, now, packetId, slot, pt);
    }
  }

  lemma ForwardCaseLatest(cr: Crypto, s: State, f: bytes, now: u64, packetId: u32, slot: nat, pt: bytes)
    requires Frame.Decode(f).Ok? && FrameCase(cr, s, f, now, packetId, slot, pt)
    requires Engine.OnFrame(cr, s, f, now, packetId).result.kind.Forward?
    ensures var t := Engine.OnFrame(cr, s, f, now, packetId).state; t.dirty == s.dirty && t.scratch == s.scratch
  {
    var h := Frame.Decode(f).value.header;
    TransitFields(cr, s, f, h, now);
    TransitFields(cr, s.(authFailures := SatInc(s.authFailures)), f, h, now);
    hide Frame.Decode, Transit, Engine.OnFrame;
    if slot < Persist.MAX_CONTACTS && h.epoch in s.contacts[slot].winEpochs && Frame.BodyOk(h.flags, pt) {
      OpenedNeverForwards(cr, s, slot, h, pt, packetId);
    }
  }

  lemma ForwardOk(cr: Crypto, n: Node, f: bytes, now: u64, packetId: u32)
    requires BytesLatest(n) && Engine.OnFrame(cr, n.ram, f, now, packetId).result.kind.Forward?
    ensures BytesLatest(Apply(cr, n, Action.OnFrame(f, now, packetId)))
  {
    ForwardLatest(cr, n.ram, f, now, packetId);
    hide Engine.OnFrame, HeldAfter;
  }

  lemma RxOk(cr: Crypto, r: Rt, frame: bytes, nowMs: u64, ackPacketId: u32, word: u32, o: Outcome)
    requires NodeOk(cr, r) && Flow(r) && CommitInOrder(Apply(cr, r.node, Action.OnFrame(frame, nowMs, ackPacketId)), o)
    ensures NodeOk(cr, OnRx(cr, r, frame, nowMs, ackPacketId, word, o))
  {
    hide Traced, Quiet, BytesLatest, Apply, Allowed, CommitRt, Finish, AckOut, Engine.OnFrame, CommitInOrder, CommitBytes, Inv, FullInv, MidFlow,
      Flow;
    var a := Action.OnFrame(frame, nowMs, ackPacketId);
    var e := Engine.OnFrame(cr, r.node.ram, frame, nowMs, ackPacketId).result;
    var t := Act(cr, r, a);
    QuietTurn(cr, r.node, a);
    ActTraced(cr, r, a);
    FrameMid(cr, r, frame, nowMs, ackPacketId);
    MidIsReady(t);
    CommitsOk(cr, t, o);
    var c := CommitRt(cr, t, o);
    match e.kind
    case Forward =>
      ForwardOk(cr, r.node, frame, nowMs, ackPacketId);
      FlowIsQuiet(t);
      if e.out.Some? { OkSame(cr, t, Schedule(t, e.out.value.frame, nowMs, word)); }
    case Ignore =>
      if PendingPersist(t.node.ram).None? {
        TracedInv(cr, t);
        UsbDirty(cr, t.node);
        NoUsbLatest(t.node);
        FlowIsQuiet(t);
      }
    case Ack(contactId) => if c.rt.send.Some? { FinishOk(cr, c.rt, c.rt.send.value.replyId, Acknowledged); }
    case _ => if e.out.Some? { AckOutOk(cr, c.rt, e.out.value.frame, nowMs); }
  }

  lemma MidIsReady(r: Rt)
    requires MidFlow(r)
    ensures CommitBytes(r.node).None? ==> Quiet(r.node)
  {}

  lemma FlowIsQuiet(r: Rt)
    requires Flow(r)
    ensures Quiet(r.node)
  {}

  lemma NoteLatest(cr: Crypto, n: Node, frame: bytes, nowMs: u64)
    requires Quiet(n) && BytesLatest(n)
    ensures var m := Apply(cr, n, Action.NoteOrigin(frame, nowMs)); Quiet(m) && BytesLatest(m)
  {
    NoteOnlyCache(cr, n.ram, frame, nowMs);
    hide Engine.NoteOrigin;
  }

  lemma AckOutOk(cr: Crypto, r: Rt, frame: bytes, nowMs: u64)
    requires NodeOk(cr, r)
    ensures NodeOk(cr, AckOut(cr, r, frame, nowMs))
  {
    hide Traced, Quiet, BytesLatest, Apply, Allowed, SyncPolicy;
    SyncIs(r);
    var u := SyncPolicy(r);
    var v := u.(nextCmd := NextCmd(u.nextCmd));
    OkSame(cr, r, v);
    QuietTurn(cr, r.node, Action.NoteOrigin(frame, nowMs));
    ActTraced(cr, v, Action.NoteOrigin(frame, nowMs));
    NoteLatest(cr, r.node, frame, nowMs);
  }

  lemma Forgets(cr: Crypto, n: Node)
    ensures var m := Apply(cr, n, ForgetInflight); m == n.(inflight := false) && (Quiet(n) ==> Quiet(m)) && (BytesLatest(n) ==> BytesLatest(m))
    ensures Allowed(cr, n, ForgetInflight)
  {}

  lemma RadioStoppedOk(cr: Crypto, r: Rt)
    requires NodeOk(cr, r)
    ensures NodeOk(cr, OnRadioStopped(cr, r))
  {
    hide Traced, Quiet, BytesLatest, Apply, Allowed;
    var u := r.(send := None, forward := None, dropped := r.dropped + SendId(r.send));
    TracedSame(cr, r, u);
    Forgets(cr, u.node);
    ActTraced(cr, u, ForgetInflight);
  }

  /** Powering up: nothing is in flight, and the chip id may have to be stored again. */
  lemma BootAllowed(cr: Crypto, n: Node, radioAvailable: bool, uid: bytes8)
    requires n.ram == Boot(n.durable, radioAvailable) && n.usb.None? && n.held == NOTHING_HELD && !n.inflight
    ensures Allowed(cr, n, Action.SetIdentity(uid))
  {
    hide RestoreContacts;
  }

  lemma CrashAllowed(cr: Crypto, n: Node, radioAvailable: bool)
    ensures Allowed(cr, n, Crash(radioAvailable))
  {}

  lemma RestartOk(cr: Crypto, r: Rt, radioAvailable: bool, uid: bytes8)
    requires NodeOk(cr, r)
    ensures NodeOk(cr, OnRestart(cr, r, radioAvailable, uid))
  {
    hide Traced, Boot, Engine.SetIdentity, Quiet, BytesLatest, Allowed;
    var u := r.(send := None, forward := None, dropped := r.dropped + SendId(r.send), nextCmd := 1, policy := [], lastPolicy := None);
    TracedSame(cr, r, u);
    CrashAllowed(cr, u.node, radioAvailable);
    ActTraced(cr, u, Crash(radioAvailable));
    var v := Act(cr, u, Crash(radioAvailable));
    BootAllowed(cr, v.node, radioAvailable, uid);
    ActTraced(cr, v, Action.SetIdentity(uid));
    BootsQuiet(cr, r.node, radioAvailable, uid);
  }

  /** Every event in order keeps the discipline of the node. */
  lemma NodeStep(cr: Crypto, r: Rt, e: Event)
    requires NodeOk(cr, r) && Flow(r) && Enabled(cr, r, e)
    ensures NodeOk(cr, Handle(cr, r, e))
  {
    hide NodeOk, Flow, OnSendPrep, OnTxDone, OnRx, OnPoll, OnClock, FailClosed, OnUsbCommitted, OnUsbInline, OnRadioStopped, OnRestart,
      CommitInOrder, RevivesNothing, Lucky, Apply;
    match e
    case SendPrep(id, contactId, text, packetId, first, second, now) =>
      SendPrepOk(cr, r, Request(id, contactId, text), packetId, first, second, now);
    case TxDone(cmdId, result, now) => TxDoneOk(cr, r, cmdId, result, now);
    case Rx(frame, nowMs, ackPacketId, word, o) => RxOk(cr, r, frame, nowMs, ackPacketId, word, o);
    case Poll(now, queued, relayQueued) => PollOk(cr, r, now, queued, relayQueued);
    case Clock(nowS, o) => ClockOk(cr, r, nowS, o);
    case RadioFault => FailOk(cr, r);
    case UsbCommitted(op, o) => UsbCommittedOk(cr, r, op, o);
    case UsbInline(op) => UsbInlineOk(cr, r, op);
    case RadioStopped => RadioStoppedOk(cr, r);
    case Restart(radioAvailable, uid) => RestartOk(cr, r, radioAvailable, uid);
  }

  lemma InvParts(cr: Crypto, r: Rt)
    requires RtInv(cr, r)
    ensures NodeOk(cr, r) && Flow(r) && Traced(cr, r) && FullInv(cr, r.node) && Inv(cr, r.node) && Quiet(r.node) && BytesLatest(r.node)
  {
    hide Traced, BytesLatest, PendingInFlight, CacheTrue, FullInv, Inv;
    TracedInv(cr, r);
  }

  lemma PartsInv(cr: Crypto, r: Rt)
    requires NodeOk(cr, r) && Flow(r)
    ensures RtInv(cr, r)
  {
    hide Traced, BytesLatest, Flow;
  }

  /** Every event in order keeps the runtime's invariant. */
  lemma HandleInv(cr: Crypto, r: Rt, e: Event)
    requires RtInv(cr, r) && Enabled(cr, r, e)
    ensures RtInv(cr, Handle(cr, r, e))
  {
    hide RtInv, Handle, NodeOk, Flow, FullInv, Inv, Traced, Quiet, BytesLatest;
    InvParts(cr, r);
    NodeStep(cr, r, e);
    FlowStep(cr, r, e) by { hide CanHappen, CommitInOrder, RevivesNothing, Lucky, Apply; }
    PartsInv(cr, Handle(cr, r, e));
  }

  lemma FirstTraced(cr: Crypto, r: Rt, a: Action)
    requires r.acts == [a] && r.node == Apply(cr, Blank(r.origin), a) && Allowed(cr, Blank(r.origin), a)
    ensures Traced(cr, r)
  {
    hide Apply, Allowed;
    var n := Blank(r.origin);
    assert [] + [a] == [a];
    assert Run(cr, n, []) == n && Disciplined(cr, n, []);
    RunOneMore(cr, n, [], a);
    DisciplinedOneMore(cr, n, [], a);
  }

  lemma StartInv(cr: Crypto, radioAvailable: bool, uid: bytes8)
    ensures RtInv(cr, Start(radioAvailable, uid))
  {
    hide Traced, Engine.SetIdentity, Fresh, Flow, BytesLatest, Allowed;
    var t := Start(radioAvailable, uid);
    BootAllowed(cr, Blank(radioAvailable), radioAvailable, uid);
    FirstTraced(cr, t, Action.SetIdentity(uid));
    StartFlow(radioAvailable, uid);
  }
}
