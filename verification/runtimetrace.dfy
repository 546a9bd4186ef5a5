/** Every event of the runtime is a sequence of actions of its node; it is in order exactly when they all are. */
module RuntimeTrace {
  import opened Bytes
  import opened Security
  import opened Engine
  import opened Node
  import opened NodePairing
  import opened Transmit
  import opened Runtime
  import opened RuntimeFlow
  import opened RuntimeSteps

  // ---- every event is a sequence of actions of its node ----

  /** Neither opens a frame nor makes or imports an offer. */
  predicate Inner(a: Action) { !a.OnFrame? && !a.PairOffer? && !a.PairImport? }

  /** From `r` to `t` the node has taken inner actions only. */
  predicate Extends(r: Rt, t: Rt) {
    t.origin == r.origin && r.acts <= t.acts && forall i :: |r.acts| <= i < |t.acts| ==> Inner(t.acts[i])
  }

  lemma ExtendsTwice(r: Rt, s: Rt, t: Rt)
    requires Extends(r, s) && Extends(s, t)
    ensures Extends(r, t)
  {}

  lemma SameExtends(r: Rt, t: Rt)
    requires t.origin == r.origin && t.acts == r.acts
    ensures Extends(r, t)
  {}

  lemma ActExtends(cr: Crypto, r: Rt, a: Action)
    requires Inner(a)
    ensures Extends(r, Act(cr, r, a))
  {
    hide Apply;
  }

  lemma FinishExtends(cr: Crypto, r: Rt, id: u64, a: Reply)
    ensures Extends(r, Finish(cr, r, id, a))
  {
    hide Apply;
  }

  lemma FailExtends(cr: Crypto, r: Rt)
    ensures Extends(r, FailClosed(cr, r))
  {
    hide Apply, PolicyOf;
  }

  lemma CommitExtends(cr: Crypto, r: Rt, o: Outcome)
    ensures Extends(r, CommitRt(cr, r, o).rt)
  {
    hide Extends, FailClosed, CommitBytes, Apply;
    SameExtends(r, r);
    ActExtends(cr, r, Commit(o));
    FailExtends(cr, Act(cr, r, Commit(o)));
    ExtendsTwice(r, Act(cr, r, Commit(o)), FailClosed(cr, Act(cr, r, Commit(o))));
  }

  lemma SyncExtends(r: Rt)
    ensures var t := SyncPolicy(r); t.origin == r.origin && t.acts == r.acts && t.send == r.send
  {
    hide PolicyOf;
  }

  lemma QueueExtends(cr: Crypto, r: Rt, id: u64, contactId: byte, took: bool, now: nat)
    ensures Extends(r, QueueFirst(cr, r, id, contactId, took, now))
  {
    hide Apply, SyncPolicy;
    SyncExtends(r);
  }

  lemma EmitExtends(cr: Crypto, r: Rt, id: u64, contactId: byte, second: Outcome, now: nat)
    ensures Extends(r, Emit(cr, r, id, contactId, second, now))
  {
    hide Apply, Extends, CommitRt, QueueFirst, Finish, Engine.SendEmit;
    var e := Engine.SendEmit(cr, r.node.ram).result;
    if e.Err? {
      FinishExtends(cr, r, id, Refused(EngineCode(e.error)));
    } else {
      var m := Act(cr, r, Action.SendEmit);
      ActExtends(cr, r, Action.SendEmit);
      CommitExtends(cr, m, second);
      var c := CommitRt(cr, m, second).rt;
      ExtendsTwice(r, m, c);
      QueueExtends(cr, c, id, contactId, second.Done? && second.radioTook, now);
      SameExtends(c, Answer(c, id, Refused(StorageCode)));
      ExtendsTwice(r, c, Emit(cr, r, id, contactId, second, now));
    }
  }

  lemma SendPrepExtends(cr: Crypto, r: Rt, q: Request, packetId: u32, first: Outcome, second: Outcome, now: nat)
    ensures Extends(r, OnSendPrep(cr, r, q, packetId, first, second, now))
  {
    hide Apply, Extends, CommitRt, Emit, Engine.SendBegin;
    var s, t := Requested(r, q), OnSendPrep(cr, r, q, packetId, first, second, now);
    SameExtends(r, s);
    if !Begins(r, q, packetId) {
      SameExtends(r, t);
    } else {
      var m := Act(cr, s, Action.SendBegin(q.contactId, q.text, packetId));
      ActExtends(cr, s, Action.SendBegin(q.contactId, q.text, packetId));
      ExtendsTwice(r, s, m);
      CommitExtends(cr, m, first);
      var c := CommitRt(cr, m, first).rt;
      ExtendsTwice(r, m, c);
      SameExtends(c, Answer(c, q.id, Refused(StorageCode)));
      EmitExtends(cr, c, q.id, q.contactId, second, now);
      ExtendsTwice(r, c, t);
    }
  }

  lemma TxDoneExtends(cr: Crypto, r: Rt, cmdId: u64, result: Result<(), TxFault>, now: nat)
    ensures Extends(r, OnTxDone(cr, r, cmdId, result, now))
  {
    hide Extends, Finish, SlotOf;
    if r.send.Some? && r.send.value.cmdId == cmdId && result.Err? {
      forall a ensures Extends(r, Finish(cr, r, r.send.value.replyId, a)) { FinishExtends(cr, r, r.send.value.replyId, a); }
    } else {
      SameExtends(r, OnTxDone(cr, r, cmdId, result, now));
    }
  }

  lemma PollExtends(cr: Crypto, r: Rt, now: nat, queued: bool, relayQueued: bool)
    ensures Extends(r, OnPoll(cr, r, now, queued, relayQueued))
  {
    hide PollSend, PollForward, Extends;
    PollSendExtends(cr, r, now, queued);
    PollForwardExtends(PollSend(cr, r, now, queued), now, relayQueued);
    ExtendsTwice(r, PollSend(cr, r, now, queued), OnPoll(cr, r, now, queued, relayQueued));
  }

  lemma PollSendExtends(cr: Crypto, r: Rt, now: nat, queued: bool)
    ensures Extends(r, PollSend(cr, r, now, queued))
  {
    hide Apply, SyncPolicy, SendRetryEcho, Finish, Extends;
    SyncExtends(r);
    var t := SyncPolicy(r);
    var u := t.(nextCmd := NextCmd(t.nextCmd));
    SameExtends(r, r);
    SameExtends(r, u);
    if r.send.Some? {
      var s := r.send.value;
      forall a ensures Extends(r, Finish(cr, r, s.replyId, a)) && Extends(r, Finish(cr, u, s.replyId, a)) {
        FinishExtends(cr, r, s.replyId, a);
        FinishExtends(cr, u, s.replyId, a);
        ExtendsTwice(r, u, Finish(cr, u, s.replyId, a));
      }
      var v := u.(send := Some(InFlight(s.replyId, s.contactId, s.txCount + 1, now + ACK_WAIT_MS, t.nextCmd)), queued := u.queued + multiset{s.replyId});
      SameExtends(r, v);
      ActExtends(cr, v, RetryEcho);
      ExtendsTwice(r, v, Act(cr, v, RetryEcho));
    }
  }

  lemma PollForwardExtends(r: Rt, now: nat, queued: bool)
    ensures Extends(r, PollForward(r, now, queued))
  {
    hide SyncPolicy;
    SyncExtends(r);
  }

  lemma ClockExtends(cr: Crypto, r: Rt, nowS: u64, o: Outcome)
    ensures Extends(r, OnClock(cr, r, nowS, o))
  {
    hide Apply, CommitRt, FailClosed, Engine.AdvanceTime, Extends;
    var m := Act(cr, r, Action.AdvanceTime(nowS));
    ActExtends(cr, r, Action.AdvanceTime(nowS));
    FailExtends(cr, m);
    CommitExtends(cr, m, o);
    ExtendsTwice(r, m, FailClosed(cr, m));
    ExtendsTwice(r, m, CommitRt(cr, m, o).rt);
  }

  lemma UsbExtends(cr: Crypto, r: Rt, op: Action, o: Outcome)
    ensures Extends(r, OnUsbCommitted(cr, r, op, o))
  {
    hide Apply, OnUsbCommitted, UsbTaken, Extends;
    if UsbTaken(r.node.ram, op) {
      TakenInner(r.node.ram, op);
      ActExtends(cr, r, op);
      UsbAfter(cr, r, op, o);
      ExtendsTwice(r, Act(cr, r, op), OnUsbCommitted(cr, r, op, o));
    } else {
      NotTaken(cr, r, op, o);
      SameExtends(r, r);
    }
  }

  lemma NotTaken(cr: Crypto, r: Rt, op: Action, o: Outcome)
    requires !UsbTaken(r.node.ram, op)
    ensures OnUsbCommitted(cr, r, op, o) == r
  {
    hide UsbTaken;
  }

  lemma UsbAfter(cr: Crypto, r: Rt, op: Action, o: Outcome)
    requires UsbTaken(r.node.ram, op)
    ensures Extends(Act(cr, r, op), OnUsbCommitted(cr, r, op, o))
  {
    hide Apply, CommitRt, SyncPolicy, UsbTaken, Extends, Finish;
    var u := Act(cr, r, op);
    var m := Act(cr, u, StageUsb);
    ActExtends(cr, u, StageUsb);
    var c := CommitRt(cr, m, o).rt;
    CommitExtends(cr, m, o);
    ExtendsTwice(u, m, c);
    var t := SyncPolicy(c);
    SyncExtends(c);
    SameExtends(c, t);
    ExtendsTwice(u, c, t);
    if t.send.Some? {
      FinishExtends(cr, t, t.send.value.replyId, Refused(BusyCode));
      ExtendsTwice(u, t, Finish(cr, t, t.send.value.replyId, Refused(BusyCode)));
    }
  }

  lemma TakenInner(s: State, op: Action)
    requires UsbTaken(s, op)
    ensures Inner(op)
  {
    hide Engine.SetTime, Engine.SetBlocked, Engine.DeleteContact, Engine.SetRadio;
  }

  lemma InlineExtends(cr: Crypto, r: Rt, op: Action)
    ensures Extends(Act(cr, r, op), OnUsbInline(cr, r, op))
  {
    hide Apply, InlineTaken;
  }

  lemma RxExtends(cr: Crypto, r: Rt, frame: bytes, nowMs: u64, ackPacketId: u32, word: u32, o: Outcome)
    ensures Extends(Act(cr, r, Action.OnFrame(frame, nowMs, ackPacketId)), OnRx(cr, r, frame, nowMs, ackPacketId, word, o))
  {
    hide Apply, CommitRt, AckOut, Engine.OnFrame, Extends, Finish;
    var m := Act(cr, r, Action.OnFrame(frame, nowMs, ackPacketId));
    var e := Engine.OnFrame(cr, r.node.ram, frame, nowMs, ackPacketId).result;
    SameExtends(m, m);
    CommitExtends(cr, m, o);
    var c := CommitRt(cr, m, o).rt;
    if e.out.Some? {
      SameExtends(m, Schedule(m, e.out.value.frame, nowMs, word));
      AckOutExtends(cr, c, e.out.value.frame, nowMs);
      ExtendsTwice(m, c, AckOut(cr, c, e.out.value.frame, nowMs));
    }
    if c.send.Some? {
      FinishExtends(cr, c, c.send.value.replyId, Acknowledged);
      ExtendsTwice(m, c, Finish(cr, c, c.send.value.replyId, Acknowledged));
    }
  }

  lemma AckOutExtends(cr: Crypto, r: Rt, frame: bytes, nowMs: u64)
    ensures Extends(r, AckOut(cr, r, frame, nowMs))
  {
    hide Apply, SyncPolicy;
    SyncExtends(r);
  }

  lemma StopExtends(cr: Crypto, r: Rt, radioAvailable: bool, uid: bytes8)
    ensures Extends(r, OnRadioStopped(cr, r)) && Extends(r, OnRestart(cr, r, radioAvailable, uid))
  {
    hide Apply;
  }

  /** The one action of an event that the network or randomness has a part in. */
  function FirstAct(e: Event): Option<Action> {
    match e
    case Rx(frame, nowMs, ackPacketId, _, _) => Some(Action.OnFrame(frame, nowMs, ackPacketId))
    case UsbInline(op) => Some(op)
    case _ => None
  }

  function AfterFirst(cr: Crypto, r: Rt, e: Event): Rt { if FirstAct(e).Some? then Act(cr, r, FirstAct(e).value) else r }

  lemma HandleExtends(cr: Crypto, r: Rt, e: Event)
    ensures Extends(AfterFirst(cr, r, e), Handle(cr, r, e))
  {
    hide OnSendPrep, OnTxDone, OnPoll, OnClock, OnUsbCommitted, OnUsbInline, FailClosed, OnRx, OnRadioStopped, OnRestart, Extends, Apply;
    match e
    case SendPrep(id, contactId, text, packetId, first, second, now) =>
      SendPrepExtends(cr, r, Request(id, contactId, text), packetId, first, second, now);
    case TxDone(cmdId, result, now) => TxDoneExtends(cr, r, cmdId, result, now);
    case Rx(frame, nowMs, ackPacketId, word, o) => RxExtends(cr, r, frame, nowMs, ackPacketId, word, o);
    case Poll(now, queued, relayQueued) => PollExtends(cr, r, now, queued, relayQueued);
    case Clock(nowS, o) => ClockExtends(cr, r, nowS, o);
    case RadioFault => FailExtends(cr, r);
    case UsbCommitted(op, o) => UsbExtends(cr, r, op, o);
    case UsbInline(op) => InlineExtends(cr, r, op);
    case RadioStopped => StopExtends(cr, r, false, Zeros(8));
    case Restart(radioAvailable, uid) => StopExtends(cr, r, radioAvailable, uid);
  }

  // ---- the actions of a disciplined node, one by one ----

  lemma {:induction false} DisciplinedAt(cr: Crypto, n: Node, acts: seq<Action>, i: nat)
    requires Disciplined(cr, n, acts) && i < |acts|
    ensures Disciplined(cr, n, acts[..i]) && Allowed(cr, Run(cr, n, acts[..i]), acts[i])
    ensures Run(cr, n, acts[..i + 1]) == Apply(cr, Run(cr, n, acts[..i]), acts[i])
    decreases |acts|
  {
    hide Apply, Allowed;
    var init := acts[..|acts| - 1];
    if i < |acts| - 1 {
      DisciplinedAt(cr, n, init, i);
      assert init[..i] == acts[..i] && init[..i + 1] == acts[..i + 1];
    } else {
      assert acts[..i + 1] == acts && acts[..i] == init;
    }
  }

  // ---- in order, exactly ----

  /** The next action of a disciplined run was allowed. */
  lemma NextAllowed(cr: Crypto, r: Rt, t: Rt, a: Action)
    requires Traced(cr, r) && t.origin == r.origin && r.acts + [a] <= t.acts && Disciplined(cr, Blank(t.origin), t.acts)
    ensures Allowed(cr, r.node, a)
  {
    hide Run, Disciplined, Allowed;
    var i := |r.acts|;
    DisciplinedAt(cr, Blank(t.origin), t.acts, i);
    assert (r.acts + [a])[i] == a && t.acts[..i] == r.acts;
  }

  lemma AllowedMeans(cr: Crypto, n: Node, a: Action)
    requires Allowed(cr, n, a)
    ensures RevivesNothing(cr, n, a) && Lucky(cr, n, a) && (a.Commit? ==> CommitInOrder(n, a.outcome))
  {
    hide RevivesNothing, Lucky, CommitInOrder;
  }

  lemma CommitPrefix(cr: Crypto, m: Rt, o: Outcome)
    requires CommitBytes(m.node).Some?
    ensures var t := CommitRt(cr, m, o).rt; t.origin == m.origin && m.acts + [Commit(o)] <= t.acts
  {
    hide FailClosed, Apply, CommitBytes;
    FailExtends(cr, Act(cr, m, Commit(o)));
  }

  lemma ExtendsPrefix(cr: Crypto, r: Rt, a: Action, t: Rt)
    requires Extends(Act(cr, r, a), t)
    ensures t.origin == r.origin && r.acts + [a] <= t.acts
  {
    hide Apply;
  }

  lemma RxAfterCommit(cr: Crypto, r: Rt, f: bytes, nowMs: u64, packetId: u32, word: u32, o: Outcome)
    requires var e := Engine.OnFrame(cr, r.node.ram, f, nowMs, packetId).result;
             !e.kind.Forward? && (e.kind.Ignore? ==> PendingPersist(Act(cr, r, Action.OnFrame(f, nowMs, packetId)).node.ram).Some?)
    ensures Extends(CommitRt(cr, Act(cr, r, Action.OnFrame(f, nowMs, packetId)), o).rt, OnRx(cr, r, f, nowMs, packetId, word, o))
  {
    hide Apply, CommitRt, AckOut, Engine.OnFrame, Extends, Finish;
    var c := CommitRt(cr, Act(cr, r, Action.OnFrame(f, nowMs, packetId)), o).rt;
    var e := Engine.OnFrame(cr, r.node.ram, f, nowMs, packetId).result;
    SameExtends(c, c);
    if e.out.Some? { AckOutExtends(cr, c, e.out.value.frame, nowMs); }
    if c.send.Some? { FinishExtends(cr, c, c.send.value.replyId, Acknowledged); }
  }

  /** The commit after a reception was in order, or had nothing to release. */
  lemma RxExactly(cr: Crypto, r: Rt, f: bytes, nowMs: u64, packetId: u32, word: u32, o: Outcome)
    requires RtInv(cr, r)
    requires var t := OnRx(cr, r, f, nowMs, packetId, word, o); Disciplined(cr, Blank(t.origin), t.acts)
    ensures CommitInOrder(Apply(cr, r.node, Action.OnFrame(f, nowMs, packetId)), o)
  {
    hide RtInv, Traced, Disciplined, Apply, Allowed, CommitRt, AckOut, Finish, Engine.OnFrame, Extends, CommitBytes, Flow, Inv, FullInv, NodeOk,
      Quiet, BytesLatest, CommitInOrder, MidFlow;
    var a, t := Action.OnFrame(f, nowMs, packetId), OnRx(cr, r, f, nowMs, packetId, word, o);
    InvParts(cr, r);
    var m := Act(cr, r, a);
    var e := Engine.OnFrame(cr, r.node.ram, f, nowMs, packetId).result;
    FrameMid(cr, r, f, nowMs, packetId);
    if CommitBytes(m.node).None? {
      NothingToWrite(m.node);
      LatestInOrder(m.node, o);
    } else if e.kind.Forward? || (e.kind.Ignore? && PendingPersist(m.node.ram).None?) {
      FlowHolds(m);
      NothingReleased(m.node, o);
    } else {
      RxAfterCommit(cr, r, f, nowMs, packetId, word, o);
      QuietTurn(cr, r.node, a);
      ActTraced(cr, r, a);
      CommitPrefix(cr, m, o);
      ExtendsMore(m, Commit(o), CommitRt(cr, m, o).rt, t);
      NextAllowed(cr, m, t, Commit(o));
      AllowedMeans(cr, m.node, Commit(o));
    }
  }

  lemma FlowHolds(r: Rt)
    requires Flow(r)
    ensures r.node.held == NOTHING_HELD
  {}

  lemma ExtendsMore(m: Rt, a: Action, c: Rt, t: Rt)
    requires c.origin == m.origin && m.acts + [a] <= c.acts && Extends(c, t)
    ensures t.origin == m.origin && m.acts + [a] <= t.acts
  {}

  lemma InlineExactly(cr: Crypto, r: Rt, op: Action)
    requires RtInv(cr, r)
    requires var t := OnUsbInline(cr, r, op); Disciplined(cr, Blank(t.origin), t.acts)
    ensures RevivesNothing(cr, r.node, op) && Lucky(cr, r.node, op)
  {
    hide RtInv, Traced, Disciplined, Apply, Allowed, InlineTaken, RevivesNothing, Lucky, Extends, Inv, FullInv, NodeOk, Flow;
    InvParts(cr, r);
    InlineExtends(cr, r, op);
    ExtendsPrefix(cr, r, op, OnUsbInline(cr, r, op));
    NextAllowed(cr, r, OnUsbInline(cr, r, op), op);
    AllowedMeans(cr, r.node, op);
  }

  /** An event that can happen is in order exactly when every engine operation and commit in it keeps the discipline. */
  lemma EnabledExactly(cr: Crypto, r: Rt, e: Event)
    requires RtInv(cr, r) && CanHappen(r, e)
    ensures Enabled(cr, r, e) <==> Disciplined(cr, Blank(r.origin), Handle(cr, r, e).acts)
  {
    hide RtInv, Handle, Disciplined, Extends, CanHappen, CommitInOrder, RevivesNothing, Lucky, Traced, Inv, FullInv, NodeOk, Flow;
    var t := Handle(cr, r, e);
    SameOrigin(cr, r, e);
    if Enabled(cr, r, e) {
      HandleInv(cr, r, e);
      InvParts(cr, t);
      TracedMeans(cr, t);
    } else if Disciplined(cr, Blank(r.origin), t.acts) {
      InOrderBack(cr, r, e);
    }
  }

  lemma TracedMeans(cr: Crypto, r: Rt)
    requires Traced(cr, r)
    ensures Disciplined(cr, Blank(r.origin), r.acts)
  {
    hide Disciplined, Run;
  }

  lemma InOrderBack(cr: Crypto, r: Rt, e: Event)
    requires RtInv(cr, r) && CanHappen(r, e) && Disciplined(cr, Blank(r.origin), Handle(cr, r, e).acts)
    ensures Enabled(cr, r, e)
  {
    hide RtInv, Disciplined, CanHappen, CommitInOrder, RevivesNothing, Lucky, OnRx, OnUsbInline;
    SameOrigin(cr, r, e);
    match e
    case Rx(frame, nowMs, ackPacketId, word, o) => RxExactly(cr, r, frame, nowMs, ackPacketId, word, o);
    case UsbInline(op) => InlineExactly(cr, r, op);
    case _ =>
  }

  lemma SameOrigin(cr: Crypto, r: Rt, e: Event)
    ensures Handle(cr, r, e).origin == r.origin
  {
    hide Handle, Apply;
    HandleExtends(cr, r, e);
  }
}
