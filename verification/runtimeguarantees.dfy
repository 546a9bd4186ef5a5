/** What the runtime promises the host over every run of events. */
module RuntimeGuarantees {
  import opened Bytes
  import opened Powers
  import opened Security
  import opened Persist
  import opened Engine
  import opened Node
  import opened NodePairing
  import opened Policy
  import opened Transmit
  import opened Runtime
  import opened RuntimeBooks
  import opened RuntimeFlow
  import opened RuntimeSteps

  function RtRun(cr: Crypto, r: Rt, es: seq<Event>): Rt {
    if es == [] then r else Handle(cr, RtRun(cr, r, es[..|es| - 1]), es[|es| - 1])
  }

  // ---- over every run of events whatsoever ----

  lemma {:induction false} RunBooks(cr: Crypto, r: Rt, es: seq<Event>)
    requires Books(r)
    ensures Books(RtRun(cr, r, es))
  {
    hide Books, Handle;
    if es != [] {
      RunBooks(cr, r, es[..|es| - 1]);
      BooksStep(cr, RtRun(cr, r, es[..|es| - 1]), es[|es| - 1]);
    }
  }

  lemma ReachedBooks(cr: Crypto, radioAvailable: bool, uid: bytes8, es: seq<Event>)
    ensures Books(RtRun(cr, Start(radioAvailable, uid), es))
  {
    hide Books, RtRun, Start;
    StartBooks(radioAvailable, uid);
    RunBooks(cr, Start(radioAvailable, uid), es);
  }

  /** Every send request is answered exactly once, or dropped once, or is the one in flight. */
  lemma EveryRequestAccounted(cr: Crypto, radioAvailable: bool, uid: bytes8, es: seq<Event>)
    ensures var r := RtRun(cr, Start(radioAvailable, uid), es);
            r.requests == Ids(r.replies) + r.dropped + SendId(r.send)
  {
    hide RtRun, Start, Ids;
    ReachedBooks(cr, radioAvailable, uid, es);
  }

  /** Every relayed frame was scheduled, and is relayed no more often than it was scheduled. */
  lemma RelayedOnlyAsScheduled(cr: Crypto, radioAvailable: bool, uid: bytes8, es: seq<Event>, f: bytes)
    ensures var r := RtRun(cr, Start(radioAvailable, uid), es); r.relayed[f] + Waiting(r.forward)[f] <= r.scheduled[f]
  {
    hide RtRun, Start, Waiting;
    ReachedBooks(cr, radioAvailable, uid, es);
    var r := RtRun(cr, Start(radioAvailable, uid), es);
    assert (r.relayed + Waiting(r.forward))[f] <= r.scheduled[f];
  }

  /** A request made once is transmitted at most three times. */
  lemma AtMostThreeTransmissions(cr: Crypto, radioAvailable: bool, uid: bytes8, es: seq<Event>, id: u64)
    requires RtRun(cr, Start(radioAvailable, uid), es).requests[id] == 1
    ensures RtRun(cr, Start(radioAvailable, uid), es).queued[id] <= MAX_TX
  {
    hide RtRun, Start, Ids;
    ReachedBooks(cr, radioAvailable, uid, es);
    var r := RtRun(cr, Start(radioAvailable, uid), es);
    assert r.requests[id] == Ids(r.replies)[id] + r.dropped[id] + SendId(r.send)[id];
  }

  // ---- over every run of events that can happen ----

  predicate RtPossible(cr: Crypto, r: Rt, es: seq<Event>) {
    es == [] || (RtPossible(cr, r, es[..|es| - 1]) && CanHappen(RtRun(cr, r, es[..|es| - 1]), es[|es| - 1]))
  }

  lemma {:induction false} RunFlow(cr: Crypto, r: Rt, es: seq<Event>)
    requires Flow(r) && RtPossible(cr, r, es)
    ensures Flow(RtRun(cr, r, es))
  {
    hide Flow, Handle, CanHappen;
    if es != [] {
      RunFlow(cr, r, es[..|es| - 1]);
      FlowStep(cr, RtRun(cr, r, es[..|es| - 1]), es[|es| - 1]);
    }
  }

  lemma ReachedFlow(cr: Crypto, radioAvailable: bool, uid: bytes8, es: seq<Event>)
    requires RtPossible(cr, Start(radioAvailable, uid), es)
    ensures Flow(RtRun(cr, Start(radioAvailable, uid), es))
  {
    hide Flow, RtRun, RtPossible, Start;
    StartFlow(radioAvailable, uid);
    RunFlow(cr, Start(radioAvailable, uid), es);
  }

  /** Between handlers a send pending in the engine is the one in flight, and its text is what the host asked for under
      the id that is to be answered. */
  lemma PendingIsInFlight(cr: Crypto, radioAvailable: bool, uid: bytes8, es: seq<Event>)
    requires RtPossible(cr, Start(radioAvailable, uid), es)
    ensures var r := RtRun(cr, Start(radioAvailable, uid), es);
            r.node.ram.pendingSend.Some? ==>
              r.send.Some? && Request(r.send.value.replyId, r.node.ram.pendingSend.value.contactId, r.node.ram.pendingText) in r.asked
  {
    hide RtRun, RtPossible, Start, Quiet, CacheTrue;
    ReachedFlow(cr, radioAvailable, uid, es);
  }

  // ---- over every run of events in order ----

  predicate RtEnabled(cr: Crypto, r: Rt, es: seq<Event>) {
    es == [] || (RtEnabled(cr, r, es[..|es| - 1]) && Enabled(cr, RtRun(cr, r, es[..|es| - 1]), es[|es| - 1]))
  }

  lemma {:induction false} RtRunInv(cr: Crypto, r: Rt, es: seq<Event>)
    requires RtInv(cr, r) && RtEnabled(cr, r, es)
    ensures RtInv(cr, RtRun(cr, r, es))
  {
    hide RtInv, Handle, Enabled;
    if es != [] {
      var before := es[..|es| - 1];
      RtRunInv(cr, r, before);
      HandleInv(cr, RtRun(cr, r, before), es[|es| - 1]);
    }
  }

  lemma Reached(cr: Crypto, radioAvailable: bool, uid: bytes8, es: seq<Event>)
    requires RtEnabled(cr, Start(radioAvailable, uid), es)
    ensures RtInv(cr, RtRun(cr, Start(radioAvailable, uid), es))
  {
    hide RtInv, RtRun, RtEnabled, Start;
    StartInv(cr, radioAvailable, uid);
    RtRunInv(cr, Start(radioAvailable, uid), es);
  }

  /** Events of the runtime keep everything that a node guarantees. */
  lemma RuntimeKeepsNodeInvariant(cr: Crypto, radioAvailable: bool, uid: bytes8, es: seq<Event>)
    requires RtEnabled(cr, Start(radioAvailable, uid), es)
    ensures var n := RtRun(cr, Start(radioAvailable, uid), es).node;
            FullInv(cr, n) && SequencesUnique(n.logs.air) && DeliveredOnce(n.logs.delivered) && AcksAccepted(n.logs)
  {
    hide Traced, RtRun, RtEnabled, Start, Flow, BytesLatest, PairInv;
    Reached(cr, radioAvailable, uid, es);
    TracedInv(cr, RtRun(cr, Start(radioAvailable, uid), es));
    hide RamInv, DurableInv, PendingRec;
  }

  // ---- what the pieces of the handlers report ----

  /** From `r` to `t` no request was dropped and no acknowledgement was reported. */
  predicate Plain(r: Rt, t: Rt) {
    && t.dropped == r.dropped && r.replies <= t.replies
    && forall k :: |r.replies| <= k < |t.replies| ==> t.replies[k].1 != Acknowledged
  }

  lemma PlainTwice(r: Rt, s: Rt, t: Rt)
    requires Plain(r, s) && Plain(s, t)
    ensures Plain(r, t)
  {}

  lemma FinishPlain(cr: Crypto, r: Rt, id: u64, a: Reply)
    requires a != Acknowledged
    ensures Plain(r, Finish(cr, r, id, a)) && Plain(r, Answer(r, id, a))
  {
    hide Apply;
  }

  lemma SyncPlain(r: Rt)
    ensures var t := SyncPolicy(r); Plain(r, t) && t.send == r.send && t == r.(policy := t.policy, lastPolicy := t.lastPolicy)
  {
    hide PolicyOf;
  }

  lemma CommitPlain(cr: Crypto, r: Rt, o: Outcome)
    ensures Plain(r, CommitRt(cr, r, o).rt) && Plain(r, FailClosed(cr, r))
  {
    hide Apply, PolicyOf;
  }

  lemma EmitPlain(cr: Crypto, r: Rt, id: u64, contactId: byte, second: Outcome, now: nat)
    ensures Plain(r, Emit(cr, r, id, contactId, second, now))
  {
    hide Apply, CommitRt, Engine.SendEmit, SyncPolicy, Finish, Plain, QueueFirst;
    var e := Engine.SendEmit(cr, r.node.ram).result;
    if e.Err? {
      FinishPlain(cr, r, id, Refused(EngineCode(e.error)));
    } else {
      var m := Act(cr, r, Action.SendEmit);
      ActPlain(cr, r, Action.SendEmit);
      var c := CommitRt(cr, m, second);
      CommitPlain(cr, m, second);
      PlainTwice(r, m, c.rt);
      FinishPlain(cr, c.rt, id, Refused(StorageCode));
      QueuePlain(cr, c.rt, id, contactId, second.Done? && second.radioTook, now);
      PlainTwice(r, c.rt, Emit(cr, r, id, contactId, second, now));
    }
  }

  lemma ActPlain(cr: Crypto, r: Rt, a: Action)
    ensures Plain(r, Act(cr, r, a))
  {
    hide Apply;
  }

  lemma QueuePlain(cr: Crypto, r: Rt, id: u64, contactId: byte, took: bool, now: nat)
    ensures Plain(r, QueueFirst(cr, r, id, contactId, took, now))
  {
    hide Apply, SyncPolicy;
    SyncPlain(r);
  }

  lemma SendPrepPlain(cr: Crypto, r: Rt, q: Request, packetId: u32, first: Outcome, second: Outcome, now: nat)
    ensures Plain(r, OnSendPrep(cr, r, q, packetId, first, second, now))
  {
    hide Apply, CommitRt, Engine.SendBegin, Emit, Plain;
    var s, t := Requested(r, q), OnSendPrep(cr, r, q, packetId, first, second, now);
    RequestedPlain(r, q);
    if !Begins(r, q, packetId) {
      FinishPlain(cr, s, q.id, t.replies[|r.replies|].1);
    } else {
      var m := Act(cr, s, Action.SendBegin(q.contactId, q.text, packetId));
      ActPlain(cr, s, Action.SendBegin(q.contactId, q.text, packetId));
      PlainTwice(r, s, m);
      CommitPlain(cr, m, first);
      var c := CommitRt(cr, m, first);
      PlainTwice(r, m, c.rt);
      FinishPlain(cr, c.rt, q.id, Refused(StorageCode));
      EmitPlain(cr, c.rt, q.id, q.contactId, second, now);
      PlainTwice(r, c.rt, t);
    }
    PlainTwice(r, s, Answer(s, q.id, Refused(BusyCode))) by { FinishPlain(cr, s, q.id, Refused(BusyCode)); }
    if !Begins(r, q, packetId) { PlainTwice(r, s, t); }
  }

  lemma RequestedPlain(r: Rt, q: Request)
    ensures Plain(r, Requested(r, q))
  {}

  lemma TxDonePlain(cr: Crypto, r: Rt, cmdId: u64, result: Result<(), TxFault>, now: nat)
    ensures Plain(r, OnTxDone(cr, r, cmdId, result, now))
  {
    hide Apply, SlotOf;
  }

  lemma PollPlain(cr: Crypto, r: Rt, now: nat, queued: bool, relayQueued: bool)
    ensures Plain(r, OnPoll(cr, r, now, queued, relayQueued))
  {
    hide PollSend, PollForward, Plain;
    PollSendPlain(cr, r, now, queued);
    PollForwardPlain(PollSend(cr, r, now, queued), now, relayQueued);
    PlainTwice(r, PollSend(cr, r, now, queued), OnPoll(cr, r, now, queued, relayQueued));
  }

  lemma PollSendPlain(cr: Crypto, r: Rt, now: nat, queued: bool)
    ensures Plain(r, PollSend(cr, r, now, queued))
  {
    hide Apply, SyncPolicy, SendRetryEcho, Finish, Plain;
    SyncPlain(r);
    PlainSelf(r);
    var t := SyncPolicy(r);
    var u := t.(nextCmd := NextCmd(t.nextCmd));
    SameReplies(r, u);
    if r.send.Some? {
      var s := r.send.value;
      forall a | a != Acknowledged ensures Plain(r, Finish(cr, r, s.replyId, a)) && Plain(r, Finish(cr, u, s.replyId, a)) {
        FinishPlain(cr, r, s.replyId, a);
        FinishPlain(cr, u, s.replyId, a);
        PlainTwice(r, u, Finish(cr, u, s.replyId, a));
      }
      SameReplies(r, PollSend(cr, r, now, queued));
    }
  }

  lemma SameReplies(r: Rt, t: Rt)
    ensures t.dropped == r.dropped && t.replies == r.replies ==> Plain(r, t)
  {}

  lemma PollForwardPlain(r: Rt, now: nat, queued: bool)
    ensures Plain(r, PollForward(r, now, queued)) && PollForward(r, now, queued).send == r.send
  {
    hide SyncPolicy;
    SyncPlain(r);
  }

  lemma ClockPlain(cr: Crypto, r: Rt, nowS: u64, o: Outcome)
    ensures Plain(r, OnClock(cr, r, nowS, o))
  {
    hide Apply, CommitRt, FailClosed, Engine.AdvanceTime, Plain;
    var t := Act(cr, r, Action.AdvanceTime(nowS));
    ActPlain(cr, r, Action.AdvanceTime(nowS));
    CommitPlain(cr, t, o);
    PlainTwice(r, t, CommitRt(cr, t, o).rt);
    PlainTwice(r, t, FailClosed(cr, t));
  }

  lemma UsbPlain(cr: Crypto, r: Rt, op: Action, o: Outcome)
    ensures Plain(r, OnUsbCommitted(cr, r, op, o)) && Plain(r, OnUsbInline(cr, r, op))
  {
    hide Apply, CommitRt, SyncPolicy, UsbTaken, InlineTaken, Plain, Finish;
    var u := Act(cr, r, op);
    var m := Act(cr, u, StageUsb);
    ActPlain(cr, r, op);
    ActPlain(cr, u, StageUsb);
    PlainTwice(r, u, m);
    var c := CommitRt(cr, m, o).rt;
    CommitPlain(cr, m, o);
    PlainTwice(r, m, c);
    var t := SyncPolicy(c);
    SyncPlain(c);
    PlainTwice(r, c, t);
    PlainSelf(r);
    if t.send.Some? {
      FinishPlain(cr, t, t.send.value.replyId, Refused(BusyCode));
      PlainTwice(r, t, Finish(cr, t, t.send.value.replyId, Refused(BusyCode)));
    }
  }

  lemma PlainSelf(r: Rt)
    ensures Plain(r, r)
  {}

  lemma RxPlain(cr: Crypto, r: Rt, frame: bytes, nowMs: u64, ackPacketId: u32, word: u32, o: Outcome)
    ensures var t := OnRx(cr, r, frame, nowMs, ackPacketId, word, o);
            && t.dropped == r.dropped
            && (!Engine.OnFrame(cr, r.node.ram, frame, nowMs, ackPacketId).result.kind.Ack? ==> Plain(r, t))
  {
    hide Apply, CommitRt, Engine.OnFrame, AckOut, Finish;
    var m := Act(cr, r, Action.OnFrame(frame, nowMs, ackPacketId));
    ActPlain(cr, r, Action.OnFrame(frame, nowMs, ackPacketId));
    CommitPlain(cr, m, o);
    var c := CommitRt(cr, m, o).rt;
    PlainTwice(r, m, c);
    var e := Engine.OnFrame(cr, r.node.ram, frame, nowMs, ackPacketId).result;
    if e.out.Some? { AckOutPlain(cr, c, e.out.value.frame, nowMs); }
    if c.send.Some? { FinishDropsNone(cr, c, c.send.value.replyId); }
  }

  lemma AckOutPlain(cr: Crypto, r: Rt, frame: bytes, nowMs: u64)
    ensures Plain(r, AckOut(cr, r, frame, nowMs))
  {
    hide Apply, SyncPolicy;
    SyncPlain(r);
  }

  lemma FinishDropsNone(cr: Crypto, r: Rt, id: u64)
    ensures Finish(cr, r, id, Acknowledged).dropped == r.dropped
  {
    hide Apply;
  }

  /** Every event but a reception, a radio stop and a restart. */
  lemma OthersPlain(cr: Crypto, r: Rt, e: Event)
    requires !e.RadioStopped? && !e.Restart? && !e.Rx?
    ensures Plain(r, Handle(cr, r, e))
  {
    hide OnSendPrep, OnTxDone, OnPoll, OnClock, OnUsbCommitted, OnUsbInline, FailClosed, Plain;
    match e
    case SendPrep(id, contactId, text, packetId, first, second, now) =>
      SendPrepPlain(cr, r, Request(id, contactId, text), packetId, first, second, now);
    case TxDone(cmdId, result, now) => TxDonePlain(cr, r, cmdId, result, now);
    case Poll(now, queued, relayQueued) => PollPlain(cr, r, now, queued, relayQueued);
    case Clock(nowS, o) => ClockPlain(cr, r, nowS, o);
    case RadioFault => CommitPlain(cr, r, Failed(false));
    case UsbCommitted(op, o) => UsbPlain(cr, r, op, o);
    case UsbInline(op) => UsbPlain(cr, r, op, Failed(false));
  }

  /** Only switching the radio off or a restart drops a request. */
  lemma OnlyRadioOffDrops(cr: Crypto, r: Rt, e: Event)
    requires !e.RadioStopped? && !e.Restart?
    ensures Handle(cr, r, e).dropped == r.dropped
  {
    match e
    case Rx(frame, nowMs, ackPacketId, word, o) =>
      RxPlain(cr, r, frame, nowMs, ackPacketId, word, o);
      hide OnRx, Engine.OnFrame;
    case _ =>
      OthersPlain(cr, r, e);
      hide Handle;
  }

  /** The event reports reply `a` to request `id`. */
  predicate Reports(cr: Crypto, r: Rt, e: Event, id: u64, a: Reply) {
    var t := Handle(cr, r, e);
    exists i :: |r.replies| <= i < |t.replies| && t.replies[i] == (id, a)
  }

  /** The host is told ACKNOWLEDGED only when the engine matched an ACK, and under the id of the send in flight. */
  lemma AcknowledgedMeansAck(cr: Crypto, r: Rt, e: Event, id: u64)
    requires Reports(cr, r, e, id, Acknowledged)
    ensures e.Rx? && Engine.OnFrame(cr, r.node.ram, e.frame, e.nowMs, e.ackPacketId).result.kind.Ack?
    ensures r.send.Some? && r.send.value.replyId == id
  {
    hide OnSendPrep, OnTxDone, OnPoll, OnClock, OnUsbCommitted, OnUsbInline, FailClosed, OnRx, Engine.OnFrame, Apply;
    match e
    case Rx(frame, nowMs, ackPacketId, word, o) =>
      RxPlain(cr, r, frame, nowMs, ackPacketId, word, o);
      RxAnswersSend(cr, r, frame, nowMs, ackPacketId, word, o, id);
    case RadioStopped =>
    case Restart(_, _) =>
    case _ => OthersPlain(cr, r, e);
  }

  lemma RxAnswersSend(cr: Crypto, r: Rt, frame: bytes, nowMs: u64, ackPacketId: u32, word: u32, o: Outcome, id: u64)
    requires Engine.OnFrame(cr, r.node.ram, frame, nowMs, ackPacketId).result.kind.Ack?
    requires var t := OnRx(cr, r, frame, nowMs, ackPacketId, word, o);
             exists i :: |r.replies| <= i < |t.replies| && t.replies[i] == (id, Acknowledged)
    ensures r.send.Some? && r.send.value.replyId == id
  {
    hide Apply, CommitRt, Engine.OnFrame;
    var m := Act(cr, r, Action.OnFrame(frame, nowMs, ackPacketId));
    CommitPlain(cr, m, o);
    CommitKeepsOrEnds(cr, m, o);
  }

  // ---- termination ----

  /** Deadlines that can still pass for the send in flight. */
  function Remaining(r: Rt): nat { if r.send.Some? && r.send.value.txCount <= MAX_TX then 1 + MAX_TX - r.send.value.txCount else 0 }

  /** A poll that finds the deadline passed. */
  predicate Due(r: Rt, e: Event) { e.Poll? && r.send.Some? && e.now >= r.send.value.deadline }

  /** The send in flight stands as it is, or is over. */
  predicate Stands(r: Rt, t: Rt) { t.send.Some? ==> t.send == r.send }

  lemma FinishEnds(cr: Crypto, r: Rt, id: u64, a: Reply)
    ensures Finish(cr, r, id, a).send.None?
  {
    hide Apply;
  }

  lemma CommitStands(cr: Crypto, r: Rt, m: Rt, o: Outcome)
    requires m.send == r.send
    ensures Stands(r, CommitRt(cr, m, o).rt) && Stands(r, SyncPolicy(CommitRt(cr, m, o).rt)) && Stands(r, FailClosed(cr, m))
  {
    CommitKeepsOrEnds(cr, m, o);
    SyncPlain(CommitRt(cr, m, o).rt);
    hide CommitRt, SyncPolicy, FailClosed;
  }

  lemma ClockStands(cr: Crypto, r: Rt, nowS: u64, o: Outcome)
    ensures Stands(r, OnClock(cr, r, nowS, o))
  {
    hide CommitRt, FailClosed, Apply, Engine.AdvanceTime;
    CommitStands(cr, r, Act(cr, r, Action.AdvanceTime(nowS)), o);
  }

  lemma UsbStands(cr: Crypto, r: Rt, op: Action, o: Outcome)
    ensures Stands(r, OnUsbCommitted(cr, r, op, o)) && Stands(r, OnUsbInline(cr, r, op))
  {
    hide CommitRt, SyncPolicy, Apply, UsbTaken, InlineTaken, Finish;
    var m := Act(cr, Act(cr, r, op), StageUsb);
    CommitStands(cr, r, m, o);
    var t := SyncPolicy(CommitRt(cr, m, o).rt);
    if t.send.Some? { FinishEnds(cr, t, t.send.value.replyId, Refused(BusyCode)); }
  }

  lemma RxStands(cr: Crypto, r: Rt, frame: bytes, nowMs: u64, ackPacketId: u32, word: u32, o: Outcome)
    ensures Stands(r, OnRx(cr, r, frame, nowMs, ackPacketId, word, o))
  {
    hide CommitRt, SyncPolicy, Apply, Engine.OnFrame, Finish;
    var m := Act(cr, r, Action.OnFrame(frame, nowMs, ackPacketId));
    CommitStands(cr, r, m, o);
    var c := CommitRt(cr, m, o).rt;
    if c.send.Some? { FinishEnds(cr, c, c.send.value.replyId, Acknowledged); }
  }

  /** A completion of the send's own command: the event that moves its deadline. */
  predicate Completion(r: Rt, e: Event) { e.TxDone? && r.send.Some? && r.send.value.cmdId == e.cmdId && e.result.Ok? }

  lemma TxDoneStands(cr: Crypto, r: Rt, e: Event)
    requires e.TxDone?
    ensures if Completion(r, e) then Handle(cr, r, e).send == Some(r.send.value.(deadline := e.now + ACK_WAIT_MS))
            else Stands(r, Handle(cr, r, e))
  {
    hide Apply, SlotOf;
  }

  /** What an event other than a request does to the send in flight. */
  lemma SendAfter(cr: Crypto, r: Rt, e: Event)
    requires !e.SendPrep? && !Due(r, e) && !Completion(r, e)
    ensures Stands(r, Handle(cr, r, e))
  {
    hide OnRx, OnClock, OnUsbCommitted, OnUsbInline, FailClosed, PollForward, Apply, OnTxDone;
    match e
    case TxDone(cmdId, result, now) => TxDoneStands(cr, r, e);
    case Rx(frame, nowMs, ackPacketId, word, o) => RxStands(cr, r, frame, nowMs, ackPacketId, word, o);
    case Poll(now, queued, relayQueued) => PollForwardPlain(PollSend(cr, r, now, queued), now, relayQueued);
    case Clock(nowS, o) => ClockStands(cr, r, nowS, o);
    case RadioFault => CommitStands(cr, r, r, Failed(false));
    case UsbCommitted(op, o) => UsbStands(cr, r, op, o);
    case UsbInline(op) => UsbStands(cr, r, op, Failed(false));
    case RadioStopped =>
    case Restart(_, _) =>
  }

  /** A poll at or after the deadline sends again with the next count, or ends the send. */
  lemma PollDue(cr: Crypto, r: Rt, e: Event)
    requires Due(r, e)
    ensures var t := Handle(cr, r, e);
            t.send.Some? ==> t.send.value.txCount == r.send.value.txCount + 1 <= MAX_TX && t.send.value.deadline == e.now + ACK_WAIT_MS
  {
    hide Apply, SyncPolicy, SendRetryEcho, PollForward;
    SyncPlain(r);
    PollForwardPlain(PollSend(cr, r, e.now, e.queued), e.now, e.relayQueued);
  }

  lemma RemainingFalls(cr: Crypto, r: Rt, e: Event)
    requires CountOk(r.send) && !e.SendPrep?
    ensures CountOk(Handle(cr, r, e).send)
    ensures Remaining(Handle(cr, r, e)) <= Remaining(r) - if Due(r, e) then 1 else 0
  {
    hide Handle;
    if Due(r, e) {
      PollDue(cr, r, e);
    } else if Completion(r, e) {
      TxDoneStands(cr, r, e);
    } else {
      SendAfter(cr, r, e);
    }
  }

  lemma CommitKeepsOrEnds(cr: Crypto, r: Rt, o: Outcome)
    ensures var c := CommitRt(cr, r, o); if c.ok then c.rt.send == r.send else c.rt.send.None?
    ensures FailClosed(cr, r).send.None?
  {
    hide Apply, PolicyOf;
  }

  function DuePolls(cr: Crypto, r: Rt, es: seq<Event>): nat {
    if es == [] then 0
    else DuePolls(cr, r, es[..|es| - 1]) + if Due(RtRun(cr, r, es[..|es| - 1]), es[|es| - 1]) then 1 else 0
  }

  /** Without a new request, the deadline passes at most as often as transmissions remain: the send then ends. */
  lemma {:induction false} DeadlinesEndTheSend(cr: Crypto, r: Rt, es: seq<Event>)
    requires CountOk(r.send) && forall e :: e in es ==> !e.SendPrep?
    ensures CountOk(RtRun(cr, r, es).send) && Remaining(RtRun(cr, r, es)) + DuePolls(cr, r, es) <= Remaining(r) <= MAX_TX
    ensures DuePolls(cr, r, es) == Remaining(r) ==> RtRun(cr, r, es).send.None?
  {
    hide Handle;
    if es != [] {
      var before := es[..|es| - 1];
      DeadlinesEndTheSend(cr, r, before);
      RemainingFalls(cr, RtRun(cr, r, before), es[|es| - 1]);
    }
  }

  // ---- and in time ----

  /** When the latest transmission was queued; the first one at `q`. */
  function QueuedAt(cr: Crypto, r: Rt, q: nat, es: seq<Event>): nat {
    if es == [] then q
    else
      var last := es[|es| - 1];
      if Due(RtRun(cr, r, es[..|es| - 1]), last) then last.now else QueuedAt(cr, r, q, es[..|es| - 1])
  }

  /** A command completes within `d` ms of being queued, and a passed deadline is polled within `p` ms. */
  predicate InTime(r: Rt, q: nat, e: Event, d: nat, p: nat) {
    (Completion(r, e) ==> e.now <= q + d) && (Due(r, e) ==> e.now <= r.send.value.deadline + p)
  }

  predicate Paced(cr: Crypto, r: Rt, q: nat, es: seq<Event>, d: nat, p: nat) {
    es == [] ||
    (var init := es[..|es| - 1];
     Paced(cr, r, q, init, d, p) && InTime(RtRun(cr, r, init), QueuedAt(cr, r, q, init), es[|es| - 1], d, p))
  }

  /** One transmission: the command, the wait for the ACK and the poll. */
  function Round(d: nat, p: nat): nat { d + ACK_WAIT_MS + p }

  /** The latest transmission was queued in time for its number, and its deadline follows. */
  predicate Timely(r: Rt, q0: nat, q: nat, d: nat, p: nat) {
    r.send.Some? ==>
      var c := r.send.value.txCount;
      && 1 <= c <= MAX_TX && r.send.value.deadline <= q + d + ACK_WAIT_MS
      && q <= q0 + (if c == 1 then 0 else if c == 2 then Round(d, p) else 2 * Round(d, p))
  }

  lemma {:induction false} StaysTimely(cr: Crypto, r: Rt, q: nat, es: seq<Event>, d: nat, p: nat)
    requires Timely(r, q, q, d, p) && Paced(cr, r, q, es, d, p) && forall e :: e in es ==> !e.SendPrep?
    ensures Timely(RtRun(cr, r, es), q, QueuedAt(cr, r, q, es), d, p)
  {
    hide Handle;
    if es != [] {
      var init, e := es[..|es| - 1], es[|es| - 1];
      StaysTimely(cr, r, q, init, d, p);
      var m := RtRun(cr, r, init);
      if Due(m, e) {
        PollDue(cr, m, e);
      } else if Completion(m, e) {
        TxDoneStands(cr, m, e);
      } else {
        SendAfter(cr, m, e);
      }
    }
  }

  /** A send whose commands complete within `d` ms, polled at least every `p` ms, is over by the first poll from three
      rounds after its first transmission on. */
  lemma SendEndsInTime(cr: Crypto, r: Rt, q: nat, es: seq<Event>, now: nat, queued: bool, relayQueued: bool, d: nat, p: nat)
    requires r.send.Some? && r.send.value.txCount == 1 && r.send.value.deadline == q + ACK_WAIT_MS
    requires Paced(cr, r, q, es + [Poll(now, queued, relayQueued)], d, p) && forall e :: e in es ==> !e.SendPrep?
    requires now >= q + 3 * Round(d, p)
    ensures RtRun(cr, r, es + [Poll(now, queued, relayQueued)]).send.None?
  {
    hide Handle, Paced;
    var last := Poll(now, queued, relayQueued);
    assert (es + [last])[..|es|] == es;
    PacedParts(cr, r, q, es, last, d, p);
    StaysTimely(cr, r, q, es, d, p);
    var m := RtRun(cr, r, es);
    if m.send.Some? {
      assert Due(m, last);
      PollDue(cr, m, last);
    } else {
      NoCompletion(m, last);
      SendAfter(cr, m, last);
    }
  }

  lemma NoCompletion(r: Rt, e: Event)
    requires e.Poll?
    ensures !Completion(r, e)
  {}

  lemma PacedParts(cr: Crypto, r: Rt, q: nat, es: seq<Event>, last: Event, d: nat, p: nat)
    requires Paced(cr, r, q, es + [last], d, p)
    ensures Paced(cr, r, q, es, d, p) && InTime(RtRun(cr, r, es), QueuedAt(cr, r, q, es), last, d, p)
  {
    hide Handle;
    assert (es + [last])[..|es|] == es;
  }

  /** Deleting any contact ends the send in flight, also when it goes to another contact. */
  lemma DeletionEndsAnySend(cr: Crypto, r: Rt, contactId: byte, radioTook: bool, hostTook: bool)
    requires r.send.Some? && UsbTaken(r.node.ram, DeleteContact(contactId))
    ensures var t := Handle(cr, r, UsbCommitted(DeleteContact(contactId), Done(radioTook, hostTook)));
            && t.send.None? && t.node.ram.pendingSend.None?
            && t.replies == r.replies + [(r.send.value.replyId, Refused(BusyCode))]
  {
    hide UsbTaken, SyncPolicy, Apply, CommitRt, CommitBytes;
    var m := Act(cr, Act(cr, r, DeleteContact(contactId)), StageUsb);
    DeletedStaged(cr, r.node, contactId);
    CommitRecords(cr, m, Done(radioTook, hostTook));
    CommitEnds(cr, m, Done(radioTook, hostTook));
    var c := CommitRt(cr, m, Done(radioTook, hostTook)).rt;
    SyncIs(c);
    CompletedEmpty(cr, SyncPolicy(c).node);
  }

  lemma DeletedStaged(cr: Crypto, n: Node, contactId: byte)
    requires UsbTaken(n.ram, DeleteContact(contactId))
    ensures CommitBytes(Apply(cr, Apply(cr, n, DeleteContact(contactId)), StageUsb)).Some?
  {
    TakenIsDirty(n.ram, DeleteContact(contactId));
    hide Engine.DeleteContact;
  }

  lemma CompletedEmpty(cr: Crypto, n: Node)
    ensures Apply(cr, n, Action.SendComplete).ram.pendingSend.None?
  {}

  // ---- policy ----

  lemma {:induction false} MaskBits(cs: Contacts, n: nat, i: nat)
    requires n <= MAX_CONTACTS
    ensures Bit(BlockedMask(cs, n), i) == (i < n && cs[i].present && cs[i].blocked)
  {
    if n == 0 {
      DropZero(i);
    } else {
      MaskBits(cs, n - 1, i);
      MaskFits(cs, n - 1);
      if cs[n - 1].present && cs[n - 1].blocked { AddTopBit(BlockedMask(cs, n - 1), n - 1, i); }
    }
  }

  lemma {:induction false} AddTopBit(a: nat, m: nat, i: nat)
    requires a < Pow2(m)
    ensures Bit(a + Pow2(m), i) == (Bit(a, i) || i == m)
  {
    if i == 0 {
      assert m > 0 ==> Pow2(m) % 2 == 0;
    } else if m == 0 {
      DropZero(i);
      OneBit(i);
    } else {
      AddTopBit(a / 2, m - 1, i - 1);
      assert (a + Pow2(m)) / 2 == a / 2 + Pow2(m - 1);
    }
  }

  /** When a token is minted the radio's policy is the engine's: enabled as it is, blocked exactly as its contacts are. */
  lemma MintedUnderEnginePolicy(cr: Crypto, radioAvailable: bool, uid: bytes8, es: seq<Event>, i: nat)
    requires RtPossible(cr, Start(radioAvailable, uid), es) && i < MAX_CONTACTS
    ensures var r := RtRun(cr, Start(radioAvailable, uid), es);
            var (p, s) := (After(SyncPolicy(r).policy), r.node.ram);
            p.enabled == s.radioOn && Bit(p.blocked, i) == (s.contacts[i].present && s.contacts[i].blocked)
  {
    hide RtRun, RtPossible, Start, Quiet, PendingInFlight, Changed, Bit;
    ReachedFlow(cr, radioAvailable, uid, es);
    var r := RtRun(cr, Start(radioAvailable, uid), es);
    CacheSynced(r);
    MaskBits(r.node.ram.contacts, MAX_CONTACTS, i);
    var p := SyncPolicy(r).policy;
    assert |p| > 0 && p[|p| - 1] == PolicyOf(r.node.ram);
    LastCallRules(p);
  }

  lemma LastCallRules(h: seq<Call>)
    requires |h| > 0
    ensures After(h).enabled == h[|h| - 1].enabled && After(h).blocked == h[|h| - 1].blocked
  {}
}
