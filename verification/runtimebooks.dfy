/** The books of the runtime, kept by every event whatever the state of its node: requests, transmissions, relays. */
module RuntimeBooks {
  import opened Bytes
  import opened Security
  import opened Engine
  import opened Node
  import opened Transmit
  import opened Runtime

  // ---- books ----

  predicate CountOk(s: Option<InFlight>) { s.Some? ==> 1 <= s.value.txCount <= MAX_TX }

  ghost predicate Books(r: Rt) { Accounted(r) && TxBounded(r) && RelayBounded(r) && CountOk(r.send) }

  /** No frame was scheduled or relayed; a waiting one may be given up. */
  predicate SameRelay(r: Rt, t: Rt) { t.scheduled == r.scheduled && t.relayed == r.relayed && Waiting(t.forward) <= Waiting(r.forward) }

  predicate SameBooks(r: Rt, t: Rt) {
    t.requests == r.requests && t.replies == r.replies && t.dropped == r.dropped && t.queued == r.queued && SameRelay(r, t)
    && SendId(t.send) == SendId(r.send) && (t.send.Some? ==> t.send.value.txCount == r.send.value.txCount)
  }

  lemma IdsAppend(s: seq<(u64, Reply)>, x: (u64, Reply))
    ensures Ids(s + [x]) == Ids(s) + multiset{x.0}
  {
    assert (s + [x])[..|s|] == s;
  }

  lemma BooksFinished(r: Rt, t: Rt, a: Reply)
    requires Books(r) && r.send.Some? && t.send.None? && SameRelay(r, t)
    requires t.requests == r.requests && t.dropped == r.dropped && t.queued == r.queued
    requires t.replies == r.replies + [(r.send.value.replyId, a)]
    ensures Books(t)
  {
    IdsAppend(r.replies, (r.send.value.replyId, a));
  }

  lemma BooksAnswered(r: Rt, t: Rt, id: u64, a: Reply)
    requires Books(r) && t.send == r.send && t.dropped == r.dropped && t.queued == r.queued && SameRelay(r, t)
    requires t.requests == r.requests + multiset{id} && t.replies == r.replies + [(id, a)]
    ensures Books(t)
  {
    IdsAppend(r.replies, (id, a));
    hide Ids, Waiting;
    assert Accounted(t) by { hide TxBounded, RelayBounded; }
    assert RelayBounded(t) by { hide TxBounded, Accounted; }
    hide Accounted, RelayBounded;
    forall x: u64
      ensures t.queued[x] <= MAX_TX * (Ids(t.replies)[x] + t.dropped[x])
                             + if t.send.Some? && t.send.value.replyId == x then t.send.value.txCount else 0
    {
      assert Ids(t.replies)[x] >= Ids(r.replies)[x];
    }
  }

  lemma BooksQueued(r: Rt, t: Rt, s: InFlight)
    requires Books(r) && r.send.None? && t.send == Some(s) && s.txCount == 1 && SameRelay(r, t)
    requires t.requests == r.requests + multiset{s.replyId} && t.replies == r.replies && t.dropped == r.dropped
    requires t.queued == r.queued + multiset{s.replyId}
    ensures Books(t)
  {}

  lemma BooksRetried(r: Rt, t: Rt)
    requires Books(r) && r.send.Some? && r.send.value.txCount < MAX_TX && t.send.Some? && SameRelay(r, t)
    requires t.send.value.replyId == r.send.value.replyId && t.send.value.txCount == r.send.value.txCount + 1
    requires t.requests == r.requests && t.replies == r.replies && t.dropped == r.dropped
    requires t.queued == r.queued + multiset{r.send.value.replyId}
    ensures Books(t)
  {}

  lemma BooksDropped(r: Rt, t: Rt)
    requires Books(r) && t.send.None? && t.dropped == r.dropped + SendId(r.send) && SameRelay(r, t)
    requires t.requests == r.requests && t.replies == r.replies && t.queued == r.queued
    ensures Books(t)
  {}

  lemma BooksSame(r: Rt, t: Rt)
    requires Books(r) && SameBooks(r, t)
    ensures Books(t)
  {}

  // ---- pieces of handlers ----

  /** Nothing but replies, and what ends with the send in flight. */
  predicate SameRecords(r: Rt, t: Rt) {
    t.requests == r.requests && t.asked == r.asked && t.dropped == r.dropped && t.queued == r.queued && SameRelay(r, t)
  }

  /** The send in flight, if any, is answered with STORAGE_FAULT. */
  predicate Faulted(r: Rt, t: Rt) {
    && t.send.None? && SameRecords(r, t)
    && t.replies == if r.send.None? then r.replies else r.replies + [(r.send.value.replyId, Refused(StorageCode))]
  }

  lemma FailRecords(cr: Crypto, r: Rt)
    ensures Faulted(r, FailClosed(cr, r))
  {
    hide Apply, PolicyOf;
  }

  /** A commit changes the node alone, or fails and ends the send in flight. */
  lemma CommitRecords(cr: Crypto, r: Rt, o: Outcome)
    ensures var c := CommitRt(cr, r, o); if c.ok then c.rt == r.(node := c.rt.node, acts := c.rt.acts) else Faulted(r, c.rt)
  {
    hide Apply, FailClosed, CommitBytes, Waiting;
    FailRecords(cr, Act(cr, r, Commit(o)));
  }

  lemma FaultedBooks(r0: Rt, r: Rt, t: Rt)
    requires Books(r0) && SameBooks(r0, r) && Faulted(r, t)
    ensures Books(t)
  {
    hide Books, Waiting;
    BooksSame(r0, r);
    if r.send.Some? { BooksFinished(r, t, Refused(StorageCode)); } else { BooksSame(r, t); }
  }

  lemma CommitBooks(cr: Crypto, r0: Rt, r: Rt, o: Outcome)
    requires Books(r0) && SameBooks(r0, r)
    ensures var c := CommitRt(cr, r, o); Books(c.rt) && (c.ok ==> SameBooks(r0, c.rt))
  {
    hide Books, CommitRt, Faulted, Waiting;
    CommitRecords(cr, r, o);
    var c := CommitRt(cr, r, o);
    if c.ok { BooksSame(r0, c.rt); } else { FaultedBooks(r0, r, c.rt); }
  }

  lemma FinishBooks(cr: Crypto, r0: Rt, r: Rt, a: Reply)
    requires Books(r0) && SameBooks(r0, r) && r.send.Some?
    ensures Books(Finish(cr, r, r.send.value.replyId, a))
  {
    hide Books, Waiting, Apply;
    BooksSame(r0, r);
    BooksFinished(r, Finish(cr, r, r.send.value.replyId, a), a);
  }

  lemma SyncIs(r: Rt)
    ensures var t := SyncPolicy(r); t == r.(policy := t.policy, lastPolicy := t.lastPolicy)
  {
    hide PolicyOf;
  }

  // ---- sending ----

  /** Books before the request of `q`: once it is answered or queued they are in order again. */
  predicate Pending(r0: Rt, r: Rt, q: Request) {
    r.requests == r0.requests + multiset{q.id} && r.replies == r0.replies && r.dropped == r0.dropped && r.queued == r0.queued
    && SameRelay(r0, r)
  }

  lemma QueueFirstBooks(cr: Crypto, r0: Rt, r: Rt, q: Request, took: bool, now: nat)
    requires Books(r0) && r0.send.None? && r.send.None? && Pending(r0, r, q)
    ensures Books(QueueFirst(cr, r, q.id, q.contactId, took, now))
  {
    hide Books, SyncPolicy, Apply, Waiting;
    SyncIs(r);
    var t := QueueFirst(cr, r, q.id, q.contactId, took, now);
    if took { BooksQueued(r0, t, t.send.value); } else { BooksAnswered(r0, t, q.id, Refused(BusyCode)); }
  }

  /** The request is answered and nothing is in flight. */
  lemma AnsweredBooks(r0: Rt, r: Rt, q: Request, a: Reply)
    requires Books(r0) && r0.send.None? && r.send.None? && Pending(r0, r, q)
    ensures Books(Answer(r, q.id, a))
  {
    hide Books, Waiting;
    BooksAnswered(r0, Answer(r, q.id, a), q.id, a);
  }

  lemma EmitBooks(cr: Crypto, r0: Rt, r: Rt, q: Request, second: Outcome, now: nat)
    requires Books(r0) && r0.send.None? && r.send.None? && Pending(r0, r, q)
    ensures Books(Emit(cr, r, q.id, q.contactId, second, now))
  {
    hide Books, CommitRt, QueueFirst, Apply, Waiting, Engine.SendEmit;
    var e := Engine.SendEmit(cr, r.node.ram).result;
    if e.Err? {
      AnsweredBooks(r0, Act(cr, r.(send := None), Action.SendComplete), q, Refused(EngineCode(e.error)));
    } else {
      var m := Act(cr, r, Action.SendEmit);
      CommitRecords(cr, m, second);
      var c := CommitRt(cr, m, second);
      if c.ok {
        QueueFirstBooks(cr, r0, c.rt, q, second.Done? && second.radioTook, now);
      } else {
        AnsweredBooks(r0, c.rt, q, Refused(StorageCode));
      }
    }
  }

  lemma SendPrepBooks(cr: Crypto, r: Rt, q: Request, packetId: u32, first: Outcome, second: Outcome, now: nat)
    requires Books(r)
    ensures Books(OnSendPrep(cr, r, q, packetId, first, second, now))
  {
    hide Books, CommitRt, Emit, Apply, Waiting, Engine.SendBegin;
    var s, t := Requested(r, q), OnSendPrep(cr, r, q, packetId, first, second, now);
    if !Begins(r, q, packetId) {
      assert t == Answer(s, q.id, t.replies[|r.replies|].1);
      BooksAnswered(r, t, q.id, t.replies[|r.replies|].1);
    } else {
      var m := Act(cr, s, Action.SendBegin(q.contactId, q.text, packetId));
      CommitRecords(cr, m, first);
      var c := CommitRt(cr, m, first);
      if c.ok { EmitBooks(cr, r, c.rt, q, second, now); } else { AnsweredBooks(r, c.rt, q, Refused(StorageCode)); }
    }
  }

  // ---- other events ----

  lemma TxDoneBooks(cr: Crypto, r: Rt, cmdId: u64, result: Result<(), TxFault>, now: nat)
    requires Books(r)
    ensures Books(OnTxDone(cr, r, cmdId, result, now))
  {
    hide Books, Finish, SlotOf;
    var t := OnTxDone(cr, r, cmdId, result, now);
    if r.send.Some? && r.send.value.cmdId == cmdId && result.Err? {
      SameSelf(r);
      forall a ensures Books(Finish(cr, r, r.send.value.replyId, a)) { FinishBooks(cr, r, r, a); }
    } else {
      BooksSame(r, t);
    }
  }

  lemma SameSelf(r: Rt)
    ensures SameBooks(r, r)
  {}

  lemma PollSendBooks(cr: Crypto, r: Rt, now: nat, queued: bool)
    requires Books(r)
    ensures Books(PollSend(cr, r, now, queued))
  {
    hide Books, Finish, SyncPolicy, SendRetryEcho, Apply, Waiting;
    if r.send.Some? && now >= r.send.value.deadline {
      SyncIs(r);
      var t := SyncPolicy(r);
      var u := t.(nextCmd := NextCmd(t.nextCmd));
      forall a ensures Books(Finish(cr, r, r.send.value.replyId, a)) && Books(Finish(cr, u, u.send.value.replyId, a)) {
        FinishBooks(cr, r, r, a);
        FinishBooks(cr, r, u, a);
      }
      if r.send.value.txCount < MAX_TX && SendRetryEcho(cr, r.node.ram).Ok? && queued { BooksRetried(r, PollSend(cr, r, now, queued)); }
    }
  }

  lemma PollForwardBooks(r: Rt, now: nat, queued: bool)
    requires Books(r)
    ensures Books(PollForward(r, now, queued))
  {
    hide SyncPolicy;
    SyncIs(r);
    var t := PollForward(r, now, queued);
    SendBooksSame(r, t);
    hide Accounted, TxBounded;
  }

  lemma SendBooksSame(r: Rt, t: Rt)
    requires Accounted(r) && TxBounded(r)
    requires t.requests == r.requests && t.replies == r.replies && t.dropped == r.dropped && t.send == r.send && t.queued == r.queued
    ensures Accounted(t) && TxBounded(t)
  {}

  lemma ClockBooks(cr: Crypto, r: Rt, nowS: u64, o: Outcome)
    requires Books(r)
    ensures Books(OnClock(cr, r, nowS, o))
  {
    hide Books, CommitRt, FailClosed, Apply, Engine.AdvanceTime, Faulted;
    var t := Act(cr, r, Action.AdvanceTime(nowS));
    CommitBooks(cr, r, t, o);
    FailRecords(cr, t);
    FaultedBooks(r, t, FailClosed(cr, t));
    BooksSame(r, t);
  }

  lemma UsbCommittedBooks(cr: Crypto, r: Rt, op: Action, o: Outcome)
    requires Books(r)
    ensures Books(OnUsbCommitted(cr, r, op, o))
  {
    hide Books, CommitRt, SyncPolicy, Finish, Apply, UsbTaken;
    var m := Act(cr, Act(cr, r, op), StageUsb);
    CommitBooks(cr, r, m, o);
    var c := CommitRt(cr, m, o);
    SyncIs(c.rt);
    var t := SyncPolicy(c.rt);
    if c.ok {
      BooksSame(r, t);
      if t.send.Some? { FinishBooks(cr, r, t, Refused(BusyCode)); }
    }
  }

  lemma UsbInlineBooks(cr: Crypto, r: Rt, op: Action)
    requires Books(r)
    ensures Books(OnUsbInline(cr, r, op))
  {
    hide Books, Apply, InlineTaken, Waiting;
    InlineSame(cr, r, op);
    BooksSame(r, OnUsbInline(cr, r, op));
  }

  lemma InlineSame(cr: Crypto, r: Rt, op: Action)
    ensures var t := OnUsbInline(cr, r, op); t == r.(node := t.node, acts := t.acts)
  {
    hide Apply, InlineTaken;
  }

  lemma RxBooks(cr: Crypto, r: Rt, frame: bytes, nowMs: u64, ackPacketId: u32, word: u32, o: Outcome)
    requires Books(r)
    ensures Books(OnRx(cr, r, frame, nowMs, ackPacketId, word, o))
  {
    hide Books, CommitRt, Finish, Apply, AckOut, Schedule, Engine.OnFrame, Waiting;
    var e := Engine.OnFrame(cr, r.node.ram, frame, nowMs, ackPacketId).result;
    var t := Act(cr, r, Action.OnFrame(frame, nowMs, ackPacketId));
    BooksSame(r, t);
    CommitBooks(cr, r, t, o);
    var c := CommitRt(cr, t, o);
    if e.out.Some? {
      ScheduleBooks(t, e.out.value.frame, nowMs, word);
      AckOutBooks(cr, c.rt, e.out.value.frame, nowMs);
    }
    if c.ok && c.rt.send.Some? { FinishBooks(cr, r, c.rt, Acknowledged); }
  }

  lemma ScheduleBooks(r: Rt, frame: bytes, nowMs: u64, word: u32)
    requires Books(r)
    ensures Books(Schedule(r, frame, nowMs, word))
  {
    SendBooksSame(r, Schedule(r, frame, nowMs, word));
    hide Accounted, TxBounded;
  }

  lemma AckOutBooks(cr: Crypto, r: Rt, frame: bytes, nowMs: u64)
    requires Books(r)
    ensures Books(AckOut(cr, r, frame, nowMs))
  {
    hide Books, SyncPolicy, Apply, Waiting;
    SyncIs(r);
    BooksSame(r, AckOut(cr, r, frame, nowMs));
  }

  lemma WaitingNone(f: Option<PendingForward>)
    ensures Waiting(None) <= Waiting(f)
  {}

  lemma StopBooks(cr: Crypto, r: Rt, radioAvailable: bool, uid: bytes8)
    requires Books(r)
    ensures Books(OnRadioStopped(cr, r)) && Books(OnRestart(cr, r, radioAvailable, uid))
  {
    hide Books, Apply, Waiting;
    WaitingNone(r.forward);
    BooksDropped(r, OnRadioStopped(cr, r));
    BooksDropped(r, OnRestart(cr, r, radioAvailable, uid));
  }

  /** Every event whatsoever keeps the books. */
  lemma BooksStep(cr: Crypto, r: Rt, e: Event)
    requires Books(r)
    ensures Books(Handle(cr, r, e))
  {
    hide Books, OnSendPrep, OnTxDone, OnRx, OnPoll, OnClock, FailClosed, OnUsbCommitted, OnUsbInline, OnRadioStopped, OnRestart;
    match e
    case SendPrep(id, contactId, text, packetId, first, second, now) =>
      SendPrepBooks(cr, r, Request(id, contactId, text), packetId, first, second, now);
    case TxDone(cmdId, result, now) => TxDoneBooks(cr, r, cmdId, result, now);
    case Rx(frame, nowMs, ackPacketId, word, o) => RxBooks(cr, r, frame, nowMs, ackPacketId, word, o);
    case Poll(now, queued, relayQueued) => PollBooks(cr, r, now, queued, relayQueued);
    case Clock(nowS, o) => ClockBooks(cr, r, nowS, o);
    case RadioFault => RadioFaultBooks(cr, r);
    case UsbCommitted(op, o) => UsbCommittedBooks(cr, r, op, o);
    case UsbInline(op) => UsbInlineBooks(cr, r, op);
    case RadioStopped => StopBooks(cr, r, false, Zeros(8));
    case Restart(radioAvailable, uid) => StopBooks(cr, r, radioAvailable, uid);
  }

  lemma PollBooks(cr: Crypto, r: Rt, now: nat, queued: bool, relayQueued: bool)
    requires Books(r)
    ensures Books(OnPoll(cr, r, now, queued, relayQueued))
  {
    hide Books, PollSend, PollForward;
    PollSendBooks(cr, r, now, queued);
    PollForwardBooks(PollSend(cr, r, now, queued), now, relayQueued);
  }

  lemma RadioFaultBooks(cr: Crypto, r: Rt)
    requires Books(r)
    ensures Books(FailClosed(cr, r))
  {
    hide Books, FailClosed, Faulted;
    FailRecords(cr, r);
    SameSelf(r);
    FaultedBooks(r, r, FailClosed(cr, r));
  }

  lemma StartBooks(radioAvailable: bool, uid: bytes8)
    ensures Books(Start(radioAvailable, uid))
  {
    hide Engine.SetIdentity, Fresh;
  }
}
