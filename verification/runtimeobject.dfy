/** The runtime object: its fields are taken and put back by the handlers. */
module RuntimeObject {
  import opened Bytes
  import opened Powers
  import opened Security
  import opened Persist
  import opened Engine
  import opened Node
  import opened Policy
  import opened Transmit
  import opened Runtime

  class SendRuntime {
    const cr: Crypto
    var node: Node
    var send: Option<InFlight>
    var forward: Option<PendingForward>
    var nextCmd: u64
    var lastPolicy: Option<Call>
    ghost var policy: seq<Call>
    ghost var requests: multiset<u64>
    ghost var asked: set<Request>
    ghost var replies: seq<(u64, Reply)>
    ghost var dropped: multiset<u64>
    ghost var queued: multiset<u64>
    ghost var scheduled: multiset<bytes>
    ghost var relayed: multiset<bytes>
    ghost var origin: bool
    ghost var acts: seq<Action>

    ghost function Value(): Rt
      reads this
    {
      Rt(node, send, forward, nextCmd, lastPolicy, policy, requests, asked, replies, dropped, queued, scheduled, relayed, origin, acts)
    }

    constructor (cr: Crypto, radioAvailable: bool, uid: bytes8)
      ensures Value() == Start(radioAvailable, uid)
    {
      this.cr := cr;
      node := Blank(radioAvailable).(ram := Engine.SetIdentity(Fresh(radioAvailable), uid));
      send, forward, nextCmd, lastPolicy := None, None, 1, None;
      policy, requests, asked, replies, dropped, queued := [], multiset{}, {}, [], multiset{}, multiset{};
      scheduled, relayed, origin, acts := multiset{}, multiset{}, radioAvailable, [Action.SetIdentity(uid)];
    }

    /** One operation of the engine. */
    method Do(a: Action)
      modifies this`node, this`acts
      ensures Value() == Act(cr, old(Value()), a)
    {
      hide Apply;
      node, acts := Apply(cr, node, a), acts + [a];
    }

    method AllocCmd() returns (id: u64)
      modifies this`nextCmd
      ensures id == old(nextCmd) && Value() == old(Value()).(nextCmd := NextCmd(old(nextCmd)))
    {
      id := nextCmd;
      nextCmd := NextCmd(nextCmd);
    }

    /** The bits of distinct slots never meet: setting one is adding it. */
    method BlockedBits() returns (mask: nat)
      ensures mask == BlockedMask(node.ram.contacts, MAX_CONTACTS)
    {
      mask := 0;
      for i := 0 to MAX_CONTACTS
        invariant mask == BlockedMask(node.ram.contacts, i)
      {
        if node.ram.contacts[i].present && node.ram.contacts[i].blocked { mask := mask + Pow2(i); }
      }
    }

    method SyncGate()
      modifies this`lastPolicy, this`policy
      ensures Value() == SyncPolicy(old(Value()))
    {
      hide BlockedMask, Pow2;
      var mask := BlockedBits();
      MaskFits(node.ram.contacts, MAX_CONTACTS);
      var cur := Call(node.ram.radioOn, mask);
      if lastPolicy != Some(cur) {
        policy := policy + [cur];
        lastPolicy := Some(cur);
      }
    }

    method Say(id: u64, a: Reply)
      modifies this`replies
      ensures Value() == Answer(old(Value()), id, a)
    {
      replies := replies + [(id, a)];
    }

    /** `send_complete`, and the reply of the send taken out. */
    method Conclude(id: u64, a: Reply)
      modifies this`send, this`node, this`acts, this`replies
      ensures Value() == Finish(cr, old(Value()), id, a)
    {
      hide Apply;
      send := None;
      Do(Action.SendComplete);
      Say(id, a);
    }

    method CloseGate()
      modifies this`policy, this`lastPolicy, this`nextCmd, this`forward
      ensures var (r, off) := (old(Value()), Call(false, PolicyOf(old(Value()).node.ram).blocked));
              Value() == r.(policy := r.policy + [off], lastPolicy := Some(off), nextCmd := NextCmd(r.nextCmd), forward := None)
    {
      hide BlockedMask, Pow2;
      var mask := BlockedBits();
      MaskFits(node.ram.contacts, MAX_CONTACTS);
      var off := Call(false, mask);
      policy, lastPolicy, forward := policy + [off], Some(off), None;
      var _ := AllocCmd();
    }

    method FailRadioClosed()
      modifies this
      ensures Value() == FailClosed(cr, old(Value()))
    {
      hide Apply, PolicyOf, Finish;
      CloseGate();
      if send.Some? { Conclude(send.value.replyId, Refused(StorageCode)); }
    }

    method CommitStaged(o: Outcome) returns (ok: bool)
      modifies this
      ensures Committed(Value(), ok) == CommitRt(cr, old(Value()), o)
    {
      hide Apply, FailClosed;
      if CommitBytes(node).None? { return true; }
      Do(Commit(o));
      if o.Done? { return true; }
      FailRadioClosed();
      return false;
    }

    method QueueTx(id: u64, contactId: byte, took: bool, now: nat)
      modifies this
      ensures Value() == QueueFirst(cr, old(Value()), id, contactId, took, now)
    {
      hide Apply, SyncPolicy;
      SyncGate();
      var cmd := AllocCmd();
      if took {
        send := Some(InFlight(id, contactId, 1, now + ACK_WAIT_MS, cmd));
        queued := queued + multiset{id};
      } else {
        Conclude(id, Refused(BusyCode));
      }
    }

    method NoteRequest(q: Request)
      modifies this`requests, this`asked
      ensures Value() == Requested(old(Value()), q)
    {
      requests, asked := requests + multiset{q.id}, asked + {q};
    }

    method DriveSendPrep(id: u64, contactId: byte, text: bytes, packetId: u32, first: Outcome, second: Outcome, now: nat)
      modifies this
      ensures Value() == OnSendPrep(cr, old(Value()), Request(id, contactId, text), packetId, first, second, now)
    {
      hide Apply, Emit, CommitRt, Engine.SendBegin;
      NoteRequest(Request(id, contactId, text));
      if !node.ram.radioOn {
        Say(id, Refused(UnavailableCode));
        return;
      }
      if send.Some? {
        Say(id, Refused(BusyCode));
        return;
      }
      var b := Engine.SendBegin(node.ram, contactId, text, packetId).result;
      if b.Err? {
        Say(id, Refused(EngineCode(b.error)));
        return;
      }
      Do(Action.SendBegin(contactId, text, packetId));
      CommitAndEmit(id, contactId, first, second, now);
    }

    method CommitAndEmit(id: u64, contactId: byte, first: Outcome, second: Outcome, now: nat)
      modifies this
      ensures var c := CommitRt(cr, old(Value()), first);
              Value() == if c.ok then Emit(cr, c.rt, id, contactId, second, now) else Answer(c.rt, id, Refused(StorageCode))
    {
      hide Apply, Emit, CommitRt;
      var ok := CommitStaged(first);
      if ok { EmitAndQueue(id, contactId, second, now); } else { Say(id, Refused(StorageCode)); }
    }

    method EmitAndQueue(id: u64, contactId: byte, second: Outcome, now: nat)
      modifies this
      ensures Value() == Emit(cr, old(Value()), id, contactId, second, now)
    {
      hide Apply, Finish, CommitRt, QueueFirst, Engine.SendEmit;
      var e := Engine.SendEmit(cr, node.ram).result;
      if e.Err? {
        Conclude(id, Refused(EngineCode(e.error)));
        return;
      }
      Do(Action.SendEmit);
      var ok := CommitStaged(second);
      if ok { QueueTx(id, contactId, second.Done? && second.radioTook, now); } else { Say(id, Refused(StorageCode)); }
    }

    method TxCompleted(cmdId: u64, result: Result<(), TxFault>, now: nat)
      modifies this
      ensures Value() == OnTxDone(cr, old(Value()), cmdId, result, now)
    {
      hide Finish;
      if send.None? || send.value.cmdId != cmdId {
        if forward.Some? && forward.value.cmdId == Some(cmdId) { forward := None; }
        return;
      }
      var s := send.value;
      match result
      case Ok(_) => send := Some(s.(deadline := now + ACK_WAIT_MS));
      case Err(ChannelBusy) => Conclude(s.replyId, Refused(ChannelBusyCode));
      case Err(Cancelled) =>
        var blocked := SlotOf(node.ram, s.contactId).Ok? && node.ram.contacts[s.contactId - 1].blocked;
        Conclude(s.replyId, Refused(if blocked then BlockedCode else BusyCode));
      case Err(Radio) => Conclude(s.replyId, Refused(RadioCode));
    }

    method ScheduleForward(frame: bytes, nowMs: u64, word: u32)
      modifies this`forward, this`scheduled
      ensures Value() == Schedule(old(Value()), frame, nowMs, word)
    {
      var delay := RELAY_DELAY_MIN_MS + word % (RELAY_DELAY_MAX_MS - RELAY_DELAY_MIN_MS + 1);
      forward, scheduled := Some(PendingForward(frame, nowMs + delay, None)), scheduled + multiset{frame};
    }

    method SendAckFrame(frame: bytes, nowMs: u64)
      modifies this
      ensures Value() == AckOut(cr, old(Value()), frame, nowMs)
    {
      hide Apply, SyncPolicy;
      SyncGate();
      var _ := AllocCmd();
      Do(Action.NoteOrigin(frame, nowMs));
    }

    method FrameReceived(frame: bytes, nowMs: u64, ackPacketId: u32, word: u32, o: Outcome)
      modifies this
      ensures Value() == OnRx(cr, old(Value()), frame, nowMs, ackPacketId, word, o)
    {
      hide Apply, Finish, CommitRt, AckOut, Schedule, Engine.OnFrame;
      var e := Engine.OnFrame(cr, node.ram, frame, nowMs, ackPacketId).result;
      Do(Action.OnFrame(frame, nowMs, ackPacketId));
      match e.kind
      case Forward =>
        if e.out.Some? { ScheduleForward(e.out.value.frame, nowMs, word); }
      case Ignore =>
        if PendingPersist(node.ram).Some? { var _ := CommitStaged(o); }
      case Ack(contactId) =>
        var ok := CommitStaged(o);
        if ok && send.Some? && send.value.contactId == contactId { Conclude(send.value.replyId, Acknowledged); }
      case _ =>
        var ok := CommitStaged(o);
        if ok && e.out.Some? { SendAckFrame(e.out.value.frame, nowMs); }
    }

    method PollTimeouts(now: nat, took: bool, relayTook: bool)
      modifies this
      ensures Value() == OnPoll(cr, old(Value()), now, took, relayTook)
    {
      hide PollSend, PollForward;
      RetryOrGiveUp(now, took);
      RelayWhenDue(now, relayTook);
    }

    method RetryOrGiveUp(now: nat, took: bool)
      modifies this
      ensures Value() == PollSend(cr, old(Value()), now, took)
    {
      hide Apply, Finish, SyncPolicy, Engine.SendRetryEcho;
      if send.None? || now < send.value.deadline { return; }
      var s := send.value;
      if s.txCount >= MAX_TX {
        Conclude(s.replyId, Unconfirmed);
        return;
      }
      var e := Engine.SendRetryEcho(cr, node.ram);
      if e.Err? {
        Conclude(s.replyId, Refused(EngineCode(e.error)));
        return;
      }
      SyncGate();
      var cmd := AllocCmd();
      if took {
        send := Some(InFlight(s.replyId, s.contactId, s.txCount + 1, now + ACK_WAIT_MS, cmd));
        queued := queued + multiset{s.replyId};
        Do(RetryEcho);
      } else {
        Conclude(s.replyId, Refused(BusyCode));
      }
    }

    method RelayWhenDue(now: nat, took: bool)
      modifies this
      ensures Value() == PollForward(old(Value()), now, took)
    {
      hide SyncPolicy;
      if forward.None? || forward.value.cmdId.Some? || now < forward.value.at { return; }
      var f := forward.value;
      SyncGate();
      SyncKeepsForward(old(Value()));
      var cmd := AllocCmd();
      if took { forward, relayed := Some(f.(cmdId := Some(cmd))), relayed + multiset{f.frame}; }
    }

    method AdvanceClock(nowS: u64, o: Outcome)
      modifies this
      ensures Value() == OnClock(cr, old(Value()), nowS, o)
    {
      hide Apply, FailClosed, CommitRt, Engine.AdvanceTime;
      var e := Engine.AdvanceTime(node.ram, nowS).result;
      Do(Action.AdvanceTime(nowS));
      if e.Some? {
        FailRadioClosed();
      } else if PendingPersist(node.ram).Some? {
        var _ := CommitStaged(o);
      }
    }
  }

  lemma SyncKeepsForward(r: Rt)
    ensures var t := SyncPolicy(r); t.forward == r.forward && t.relayed == r.relayed && t.nextCmd == r.nextCmd
  {
    hide PolicyOf;
  }
}
