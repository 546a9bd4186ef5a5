/** The runtime around a node: one send in flight, at most three transmissions, one terminal reply. */
module Runtime {
  import opened Bytes
  import opened Powers
  import opened Security
  import opened Persist
  import opened Engine
  import opened Node
  import opened Policy
  import opened Transmit
  import Ceremony

  const MAX_TX: nat := 3
  const ACK_WAIT_MS: nat := 12_000
  const RELAY_DELAY_MIN_MS: nat := 100
  const RELAY_DELAY_MAX_MS: nat := 300

  datatype InFlight = InFlight(replyId: u64, contactId: byte, txCount: nat, deadline: nat, cmdId: u64)

  /** A relay forward that waits for its listen delay, or has been queued as command `cmdId`. */
  datatype PendingForward = PendingForward(frame: bytes, at: nat, cmdId: Option<u64>)

  datatype Code = BusyCode | ChannelBusyCode | BlockedCode | StorageCode | UnavailableCode | RadioCode | EngineCode(error: EngineError)

  /** Terminal reply of a send request. */
  datatype Reply = Acknowledged | Unconfirmed | Refused(code: Code)

  /** What the host asked to be sent. */
  datatype Request = Request(id: u64, contactId: byte, text: bytes)

  /** The runtime. For the record it also keeps the policy calls made, the requests, replies and drops, what was queued
      to the radio, the frames scheduled for relay, and every action of its node since the board left the factory. */
  datatype Rt = Rt(node: Node, send: Option<InFlight>, forward: Option<PendingForward>, nextCmd: u64, lastPolicy: Option<Call>,
                   policy: seq<Call>, requests: multiset<u64>, asked: set<Request>, replies: seq<(u64, Reply)>,
                   dropped: multiset<u64>, queued: multiset<u64>, scheduled: multiset<bytes>, relayed: multiset<bytes>,
                   origin: bool, acts: seq<Action>)

  /** What the handlers react to. `queued` says whether the bounded command queue took the frame. */
  datatype Event =
    | SendPrep(replyId: u64, contactId: byte, text: bytes, packetId: u32, first: Outcome, second: Outcome, now: nat)
    | TxDone(cmdId: u64, result: Result<(), TxFault>, now: nat)
    | Rx(frame: bytes, nowMs: u64, ackPacketId: u32, word: u32, outcome: Outcome)
    | Poll(now: nat, queued: bool, relayQueued: bool)
    | Clock(nowS: u64, outcome: Outcome)
    | RadioFault
    | UsbCommitted(op: Action, outcome: Outcome)
    | UsbInline(op: Action)
    | RadioStopped
    | Restart(radioAvailable: bool, uid: bytes8)

  /** The board powers up for the first time and learns its chip id. */
  function Start(radioAvailable: bool, uid: bytes8): Rt {
    Rt(Blank(radioAvailable).(ram := Engine.SetIdentity(Fresh(radioAvailable), uid)), None, None, 1, None, [], multiset{}, {}, [], multiset{}, multiset{}, multiset{},
       multiset{}, radioAvailable, [Action.SetIdentity(uid)])
  }

  /** One action of the node. */
  function Act(cr: Crypto, r: Rt, a: Action): Rt { r.(node := Apply(cr, r.node, a), acts := r.acts + [a]) }

  // ---- policy ----

  /** The blocked bits of the first `n` slots. */
  function BlockedMask(cs: Contacts, n: nat): nat
    requires n <= MAX_CONTACTS
  {
    if n == 0 then 0 else BlockedMask(cs, n - 1) + if cs[n - 1].present && cs[n - 1].blocked then Pow2(n - 1) else 0
  }

  function PolicyOf(s: State): Call {
    MaskFits(s.contacts, MAX_CONTACTS);
    Call(s.radioOn, BlockedMask(s.contacts, MAX_CONTACTS))
  }

  lemma {:induction false} MaskFits(cs: Contacts, n: nat)
    requires n <= MAX_CONTACTS
    ensures BlockedMask(cs, n) < Pow2(n) <= 0x1_0000
  {
    if n > 0 { MaskFits(cs, n - 1); }
    Pow2Of16();
    PowerGrows(n, 16);
  }

  lemma {:induction false} PowerGrows(m: nat, n: nat)
    requires m <= n
    ensures Pow2(m) <= Pow2(n)
  {
    if m < n { PowerGrows(m, n - 1); }
  }

  function SyncPolicy(r: Rt): Rt {
    var cur := PolicyOf(r.node.ram);
    if r.lastPolicy == Some(cur) then r else r.(policy := r.policy + [cur], lastPolicy := Some(cur))
  }

  function NextCmd(n: u64): u64 { if n + 1 == U64 then 1 else n + 1 }

  // ---- pieces of handlers ----

  function Answer(r: Rt, id: u64, a: Reply): Rt { r.(replies := r.replies + [(id, a)]) }

  /** `send_complete` and the reply of the send that was taken out. */
  function Finish(cr: Crypto, r: Rt, id: u64, a: Reply): Rt { Answer(Act(cr, r.(send := None), Action.SendComplete), id, a) }

  /** `fail_radio_closed` */
  function FailClosed(cr: Crypto, r: Rt): Rt {
    var off := Call(false, PolicyOf(r.node.ram).blocked);
    var t := r.(policy := r.policy + [off], lastPolicy := Some(off), nextCmd := NextCmd(r.nextCmd), forward := None);
    if r.send.None? then t else Finish(cr, t, r.send.value.replyId, Refused(StorageCode))
  }

  datatype Committed = Committed(rt: Rt, ok: bool)

  /** `commit`: nothing to write counts as success; a failed write faults the engine and closes the radio. */
  function CommitRt(cr: Crypto, r: Rt, o: Outcome): Committed {
    if CommitBytes(r.node).None? then Committed(r, true)
    else if o.Done? then Committed(Act(cr, r, Commit(o)), true)
    else Committed(FailClosed(cr, Act(cr, r, Commit(o))), false)
  }

  /** The frame of a fresh send has been committed: queue it or give up. */
  function QueueFirst(cr: Crypto, r: Rt, id: u64, contactId: byte, took: bool, now: nat): Rt {
    var t := SyncPolicy(r);
    var u := t.(nextCmd := NextCmd(t.nextCmd));
    if took then
      u.(send := Some(InFlight(id, contactId, 1, now + ACK_WAIT_MS, t.nextCmd)), queued := u.queued + multiset{id})
    else Finish(cr, u, id, Refused(BusyCode))
  }

  function Requested(r: Rt, q: Request): Rt { r.(requests := r.requests + multiset{q.id}, asked := r.asked + {q}) }

  function Emit(cr: Crypto, r: Rt, id: u64, contactId: byte, second: Outcome, now: nat): Rt {
    var e := Engine.SendEmit(cr, r.node.ram).result;
    if e.Err? then Finish(cr, r, id, Refused(EngineCode(e.error)))
    else
      var c := CommitRt(cr, Act(cr, r, Action.SendEmit), second);
      if !c.ok then Answer(c.rt, id, Refused(StorageCode))
      else QueueFirst(cr, c.rt, id, contactId, second.Done? && second.radioTook, now)
  }

  function OnSendPrep(cr: Crypto, r0: Rt, q: Request, packetId: u32, first: Outcome, second: Outcome, now: nat): Rt {
    var r := Requested(r0, q);
    if !r.node.ram.radioOn then Answer(r, q.id, Refused(UnavailableCode))
    else if r.send.Some? then Answer(r, q.id, Refused(BusyCode))
    else
      var b := Engine.SendBegin(r.node.ram, q.contactId, q.text, packetId).result;
      if b.Err? then Answer(r, q.id, Refused(EngineCode(b.error)))
      else
        var c := CommitRt(cr, Act(cr, r, Action.SendBegin(q.contactId, q.text, packetId)), first);
        if !c.ok then Answer(c.rt, q.id, Refused(StorageCode)) else Emit(cr, c.rt, q.id, q.contactId, second, now)
  }

  /** A completion that is not the send's own may be the relay forward's. */
  function ForwardDone(r: Rt, cmdId: u64): Rt {
    if r.forward.Some? && r.forward.value.cmdId == Some(cmdId) then r.(forward := None) else r
  }

  function OnTxDone(cr: Crypto, r: Rt, cmdId: u64, result: Result<(), TxFault>, now: nat): Rt {
    if r.send.None? || r.send.value.cmdId != cmdId then ForwardDone(r, cmdId)
    else
      var s := r.send.value;
      match result
      case Ok(_) => r.(send := Some(s.(deadline := now + ACK_WAIT_MS)))
      case Err(ChannelBusy) => Finish(cr, r, s.replyId, Refused(ChannelBusyCode))
      case Err(Cancelled) =>
        var blocked := SlotOf(r.node.ram, s.contactId).Ok? && r.node.ram.contacts[s.contactId - 1].blocked;
        Finish(cr, r, s.replyId, Refused(if blocked then BlockedCode else BusyCode))
      case Err(Radio) => Finish(cr, r, s.replyId, Refused(RadioCode))
  }

  /** The newest forward takes the one slot, after 100 to 300 ms of listening. */
  function Schedule(r: Rt, frame: bytes, nowMs: u64, word: u32): Rt {
    var delay := RELAY_DELAY_MIN_MS + word % (RELAY_DELAY_MAX_MS - RELAY_DELAY_MIN_MS + 1);
    r.(forward := Some(PendingForward(frame, nowMs + delay, None)), scheduled := r.scheduled + multiset{frame})
  }

  function OnRx(cr: Crypto, r: Rt, frame: bytes, nowMs: u64, ackPacketId: u32, word: u32, o: Outcome): Rt {
    var e := Engine.OnFrame(cr, r.node.ram, frame, nowMs, ackPacketId).result;
    var t := Act(cr, r, Action.OnFrame(frame, nowMs, ackPacketId));
    match e.kind
    case Forward => if e.out.Some? then Schedule(t, e.out.value.frame, nowMs, word) else t
    case Ignore => if PendingPersist(t.node.ram).Some? then CommitRt(cr, t, o).rt else t
    case Ack(contactId) =>
      var c := CommitRt(cr, t, o);
      if c.ok && c.rt.send.Some? && c.rt.send.value.contactId == contactId then
        Finish(cr, c.rt, c.rt.send.value.replyId, Acknowledged)
      else c.rt
    case _ =>
      var c := CommitRt(cr, t, o);
      if !c.ok || e.out.None? then c.rt else AckOut(cr, c.rt, e.out.value.frame, nowMs)
  }

  /** `send_ack_frame` */
  function AckOut(cr: Crypto, r: Rt, frame: bytes, nowMs: u64): Rt {
    var u := SyncPolicy(r);
    Act(cr, u.(nextCmd := NextCmd(u.nextCmd)), Action.NoteOrigin(frame, nowMs))
  }

  /** First half of `poll_timeouts`: the send in flight. */
  function PollSend(cr: Crypto, r: Rt, now: nat, queued: bool): Rt {
    if r.send.None? || now < r.send.value.deadline then r
    else
      var s := r.send.value;
      if s.txCount >= MAX_TX then Finish(cr, r, s.replyId, Unconfirmed)
      else
        var e := SendRetryEcho(cr, r.node.ram);
        if e.Err? then Finish(cr, r, s.replyId, Refused(EngineCode(e.error)))
        else
          var t := SyncPolicy(r);
          var u := t.(nextCmd := NextCmd(t.nextCmd));
          if queued then
            Act(cr, u.(send := Some(InFlight(s.replyId, s.contactId, s.txCount + 1, now + ACK_WAIT_MS, t.nextCmd)),
                       queued := u.queued + multiset{s.replyId}), RetryEcho)
          else Finish(cr, u, s.replyId, Refused(BusyCode))
  }

  /** Second half: the relay forward; a full queue keeps it for the next poll. */
  function PollForward(r: Rt, now: nat, queued: bool): Rt {
    if r.forward.None? || r.forward.value.cmdId.Some? || now < r.forward.value.at then r
    else
      var t := SyncPolicy(r);
      var u := t.(nextCmd := NextCmd(t.nextCmd));
      if queued then
        u.(forward := Some(u.forward.value.(cmdId := Some(t.nextCmd))), relayed := u.relayed + multiset{u.forward.value.frame})
      else u
  }

  function OnPoll(cr: Crypto, r: Rt, now: nat, queued: bool, relayQueued: bool): Rt {
    PollForward(PollSend(cr, r, now, queued), now, relayQueued)
  }

  function OnClock(cr: Crypto, r: Rt, nowS: u64, o: Outcome): Rt {
    var e := Engine.AdvanceTime(r.node.ram, nowS).result;
    var t := Act(cr, r, Action.AdvanceTime(nowS));
    if e.Some? then FailClosed(cr, t) else if PendingPersist(t.node.ram).Some? then CommitRt(cr, t, o).rt else t
  }

  /** Whether the engine takes a USB operation that is then committed. */
  predicate UsbTaken(s: State, op: Action) {
    match op
    case SetTime(seconds, confirmed) => Engine.SetTime(s, seconds, confirmed).result.Ok?
    case SetBlocked(contactId, blocked) => Engine.SetBlocked(s, contactId, blocked).result.Ok?
    case DeleteContact(contactId) => Engine.DeleteContact(s, contactId).result.None?
    case SetRadio(enabled) => Engine.SetRadio(s, enabled).result.None?
    case _ => false
  }

  function OnUsbCommitted(cr: Crypto, r: Rt, op: Action, o: Outcome): Rt {
    if !UsbTaken(r.node.ram, op) then r
    else
      var c := CommitRt(cr, Act(cr, Act(cr, r, op), StageUsb), o);
      if !c.ok || op.SetTime? then c.rt
      else
        var t := SyncPolicy(c.rt);
        if op.DeleteContact? && t.send.Some? then Finish(cr, t, t.send.value.replyId, Refused(BusyCode)) else t
  }

  /** USB operations that are answered at once. */
  predicate Inline(op: Action) {
    op.ArmNextBoot? || op.Provision? || op.PairOffer? || op.PairImport? || op.PairProof? || op.PairConfirm?
  }

  predicate InlineTaken(cr: Crypto, s: State, op: Action) {
    match op
    case ArmNextBoot => Engine.ArmNextBoot(s).result.None?
    case Provision(boardLabel, signPriv) => DoProvision(s, boardLabel, signPriv).result.None?
    case PairOffer(ephPriv, challenge) => Ceremony.PairOffer(cr, s, ephPriv, cr.pub(ephPriv), challenge).result.Ok?
    case PairImport(record, replace, sasMatch) => Ceremony.Import(cr, s, record, replace, sasMatch).result.Ok?
    case PairProof => Ceremony.PairProof(cr, s).result.Ok?
    case PairConfirm => Ceremony.PairConfirm(cr, s).result.Ok?
    case _ => false
  }

  /** An operation answered at once leaves its bytes staged on the USB side. */
  function OnUsbInline(cr: Crypto, r: Rt, op: Action): Rt {
    var t := Act(cr, r, op);
    if InlineTaken(cr, r.node.ram, op) then Act(cr, t, StageUsb) else t
  }

  function SendId(s: Option<InFlight>): multiset<u64> { if s.Some? then multiset{s.value.replyId} else multiset{} }

  /** The radio has stopped: a send in flight is dropped without a reply. */
  function OnRadioStopped(cr: Crypto, r: Rt): Rt {
    Act(cr, r.(send := None, forward := None, dropped := r.dropped + SendId(r.send)), ForgetInflight)
  }

  function OnRestart(cr: Crypto, r: Rt, radioAvailable: bool, uid: bytes8): Rt {
    var t := r.(send := None, forward := None, dropped := r.dropped + SendId(r.send), nextCmd := 1, policy := [], lastPolicy := None);
    Act(cr, Act(cr, t, Crash(radioAvailable)), Action.SetIdentity(uid))
  }

  function Handle(cr: Crypto, r: Rt, e: Event): Rt {
    match e
    case SendPrep(id, contactId, text, packetId, first, second, now) =>
      OnSendPrep(cr, r, Request(id, contactId, text), packetId, first, second, now)
    case TxDone(cmdId, result, now) => OnTxDone(cr, r, cmdId, result, now)
    case Rx(frame, nowMs, ackPacketId, word, o) => OnRx(cr, r, frame, nowMs, ackPacketId, word, o)
    case Poll(now, queued, relayQueued) => OnPoll(cr, r, now, queued, relayQueued)
    case Clock(nowS, o) => OnClock(cr, r, nowS, o)
    case RadioFault => FailClosed(cr, r)
    case UsbCommitted(op, o) => OnUsbCommitted(cr, r, op, o)
    case UsbInline(op) => OnUsbInline(cr, r, op)
    case RadioStopped => OnRadioStopped(cr, r)
    case Restart(radioAvailable, uid) => OnRestart(cr, r, radioAvailable, uid)
  }

  // ---- when an event is in order ----

  /** What can happen: the radio stops once it is off, and only certain operations are answered at once. */
  predicate CanHappen(r: Rt, e: Event) {
    match e
    case UsbInline(op) => Inline(op)
    case RadioStopped => !r.node.ram.radioOn
    case _ => true
  }

  /** The send request gets as far as the engine, which begins it. */
  predicate Begins(r: Rt, q: Request, packetId: u32) {
    r.node.ram.radioOn && r.send.None? && Engine.SendBegin(r.node.ram, q.contactId, q.text, packetId).result.Ok?
  }

  /** A commit in the handler releases nothing that older bytes of the USB side do not cover, which only a reception
      could do, and no confirmation revives a root in use. */
  predicate Enabled(cr: Crypto, r: Rt, e: Event) {
    CanHappen(r, e) &&
    match e
    case Rx(frame, nowMs, ackPacketId, _, o) => CommitInOrder(Apply(cr, r.node, Action.OnFrame(frame, nowMs, ackPacketId)), o)
    case UsbInline(op) => RevivesNothing(cr, r.node, op) && Lucky(cr, r.node, op)
    case _ => true
  }

  // ---- invariant ----

  function Ids(replies: seq<(u64, Reply)>): multiset<u64> {
    if replies == [] then multiset{} else Ids(replies[..|replies| - 1]) + multiset{replies[|replies| - 1].0}
  }

  /** Every request has been answered once, dropped once, or is in flight. */
  predicate Accounted(r: Rt) { r.requests == Ids(r.replies) + r.dropped + SendId(r.send) }

  /** No request has had more than three transmissions. */
  ghost predicate TxBounded(r: Rt) {
    forall id: u64 :: r.queued[id] <= MAX_TX * (Ids(r.replies)[id] + r.dropped[id])
                                      + if r.send.Some? && r.send.value.replyId == id then r.send.value.txCount else 0
  }

  function Waiting(f: Option<PendingForward>): multiset<bytes> {
    if f.Some? && f.value.cmdId.None? then multiset{f.value.frame} else multiset{}
  }

  /** Every frame relayed was scheduled, and no more often than it was scheduled. */
  predicate RelayBounded(r: Rt) { r.relayed + Waiting(r.forward) <= r.scheduled }

  /** The cached policy is the one the radio has. */
  predicate CacheTrue(r: Rt) { r.lastPolicy.Some? ==> |r.policy| > 0 && r.policy[|r.policy| - 1] == r.lastPolicy.value }

  /** The engine's pending send is the one asked for under `id`. */
  predicate AskedFor(r: Rt, id: u64) {
    r.node.ram.pendingSend.Some? ==> Request(id, r.node.ram.pendingSend.value.contactId, r.node.ram.pendingText) in r.asked
  }

  /** Between handlers a pending send of the engine is the send in flight, and its text is what the host asked for. */
  predicate PendingInFlight(r: Rt) {
    && (r.send.Some? <==> r.node.inflight)
    && (r.node.ram.pendingSend.Some? ==> r.send.Some? && r.send.value.contactId == r.node.ram.pendingSend.value.contactId)
    && (r.send.Some? ==> 1 <= r.send.value.txCount <= MAX_TX && AskedFor(r, r.send.value.replyId))
  }

  /** Between handlers nothing is held back, and only a radio that is on has a send pending. */
  predicate Flow(r: Rt) {
    Quiet(r.node) && PendingInFlight(r) && CacheTrue(r) && (r.node.ram.pendingSend.Some? ==> r.node.ram.radioOn)
  }

  /** The node is where its actions have brought it, and all of them kept the discipline. */
  predicate Traced(cr: Crypto, r: Rt) {
    Disciplined(cr, Blank(r.origin), r.acts) && r.node == Run(cr, Blank(r.origin), r.acts)
  }

  /** Between handlers any bytes left over are the latest. */
  predicate RtInv(cr: Crypto, r: Rt) { Traced(cr, r) && BytesLatest(r.node) && Flow(r) }
}
