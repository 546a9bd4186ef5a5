/** The secure node engine as transitions on its whole state. */
module Engine {
  import opened Bytes
  import opened Frame
  import opened Security
  import opened Persist
  import opened Clock
  import opened Replay
  import Relay
  import Records
  import Utf8

  const SEQ_RESERVE_BLOCK: nat := 32

  datatype EngineError =
    | BadRequest | Unprovisioned | StorageFault | TimeUnset | TimeRollback | Busy | ContactBlocked
    | RadioMustBeOff | RadioUnavailable | NoSlot | TimeJumpNeedsConfirm | PairingAbsent | PairingExpired | SasMismatch

  datatype PendingSend = PendingSend(contactId: byte, epoch: u32, sequence: u64, packetId: u32)

  datatype BlockOutcome = Blocked | Unblocked | CancelledSend(pending: PendingSend)

  datatype Kind = Deliver(contactId: byte, textLen: byte) | ReAck(contactId: byte) | Ack(contactId: byte) | Forward | Ignore

  datatype Outgoing = Outgoing(frame: bytes, contactId: Option<byte>, isAck: bool, isRetryEcho: bool)

  datatype NodeEvent =
    | Received(contactId: byte, epoch: u32, sequence: u64, text: bytes)
    | SendAcked(contactId: byte, epoch: u32, sequence: u64, packetId: u32)

  datatype StagedOp =
    | Plain | Provision | Time(seconds: u64) | PairActivate(slot: nat) | TxReserve(slot: nat, newReserved: u64) | RxAccept

  type RelayEntries = s: seq<Relay.Entry<bytes>> | |s| == Relay.SIZE
    witness seq(Relay.SIZE, i => Relay.Entry([], 0, false))

  datatype State = State(
    provisioned: bool, boardLabel: byte, uid: bytes8, uidSet: bool,
    unixSeconds: u64, timeValid: bool, persistedTxEpoch: u32,
    radioOn: bool, armedNextBoot: bool, radioAvailable: bool,
    signPriv: bytes32, signSet: bool,
    contacts: Contacts,
    pendingSend: Option<PendingSend>, pendingText: bytes,
    relay: RelayEntries,
    fault: bool,
    staged: Option<StagedOp>, scratch: View, dirty: bool,
    monoS: u64, utcMonoS: u64,
    authFailures: u32, replayDrops: u32,
    attempt: Option<Records.PairAttempt>)

  datatype Step<+T> = Step(state: State, result: T)

  const NO_VIEW: View :=
    View(false, false, 0, Zeros(8), false, 0, 0, Zeros(32), false, seq(MAX_CONTACTS, i => NO_CONTACT))

  function Fresh(radioAvailable: bool): State {
    State(false, 0, Zeros(8), false, 0, false, 0, false, false, radioAvailable, Zeros(32), false,
          seq(MAX_CONTACTS, i => NO_CONTACT), None, [], seq(Relay.SIZE, i => Relay.Entry([], 0, false)),
          false, None, NO_VIEW, false, 0, 0, 0, 0, None)
  }

  function SatInc(n: u32): u32 { if n == U32_MAX then n else n + 1 }

  // ---- staging, committing and restoring ----

  function WithReserve(cs: Contacts, slot: nat, newReserved: u64): Contacts {
    if slot < MAX_CONTACTS then cs[slot := cs[slot].(txReserved := newReserved)] else cs
  }

  /** The slots as a snapshot shows them: a staged reservation counts as made. */
  function StagedContacts(s: State): Contacts {
    match s.staged
    case Some(TxReserve(slot, newReserved)) => WithReserve(s.contacts, slot, newReserved)
    case _ => s.contacts
  }

  function ViewOf(s: State): View {
    View(s.provisioned, s.armedNextBoot, s.boardLabel, s.uid, s.uidSet, s.unixSeconds, s.persistedTxEpoch,
         s.signPriv, s.signSet, StagedContacts(s))
  }

  function Stage(s: State, op: StagedOp): (t: State)
    ensures t.contacts == s.contacts && t.pendingSend == s.pendingSend && t.radioOn == s.radioOn
    ensures t.attempt == s.attempt && t.staged == Some(op) && t.dirty
  {
    var t := s.(staged := Some(op));
    t.(scratch := ViewOf(t), dirty := true)
  }

  function PendingPersist(s: State): Option<View> { if s.dirty then Some(s.scratch) else None }

  /** An activation is staged: its commit ends the pairing attempt. */
  predicate ActivationStaged(s: State) { s.staged.Some? && s.staged.value.PairActivate? }

  function CommitOk(s: State): State {
    s.(contacts := StagedContacts(s), staged := None, dirty := false, attempt := if ActivationStaged(s) then None else s.attempt)
  }

  function DiscardStaged(s: State): State { s.(staged := None, dirty := false, pendingSend := None) }

  function MarkFault(s: State): State { s.(fault := true) }

  /** A restored slot resumes after the whole reserved block. */
  function RestoreContact(c: Contact): Contact {
    if !c.present then NO_CONTACT
    else
      var skipTo := Max(c.txReserved, c.txNext);
      c.(txNext := skipTo, txReserved := skipTo,
         winData := RestoreWindows(c.winData), winAck := RestoreWindows(c.winAck))
  }

  function RestoreWindows(w: Windows): Windows {
    [Restore(w[0].highest, w[0].bitmap, w[0].empty),
     Restore(w[1].highest, w[1].bitmap, w[1].empty),
     Restore(w[2].highest, w[2].bitmap, w[2].empty)]
  }

  function RestoreContacts(cs: Contacts): Contacts {
    seq(MAX_CONTACTS, i requires 0 <= i < MAX_CONTACTS => RestoreContact(cs[i]))
  }

  function RestoreView(s: State, v: View): State {
    s.(provisioned := v.provisioned, boardLabel := v.boardLabel, uid := v.uid, uidSet := v.uidSet,
       unixSeconds := v.unixSeconds, timeValid := false, persistedTxEpoch := v.persistedTxEpoch, radioOn := false,
       armedNextBoot := v.armedNextBoot, signPriv := v.signPriv, signSet := v.signSet,
       contacts := RestoreContacts(v.contacts), pendingSend := None, staged := None, dirty := false,
       attempt := None)
  }

  function RestoreBytes(s: State, b: bytes): Step<Option<EngineError>> {
    match Persist.Decode(b)
    case Err(_) => Step(s, Some(StorageFault))
    case Ok(v) => Step(RestoreView(s, v), None)
  }

  // ---- identity, provisioning, radio flags ----

  function CheckUsable(s: State): Option<EngineError> {
    if s.fault then Some(StorageFault) else if !s.provisioned then Some(Unprovisioned) else None
  }

  function SetIdentity(s: State, uid: bytes8): State {
    if s.uidSet && s.uid == uid then s else Stage(s.(uid := uid, uidSet := true), Plain)
  }

  function DoProvision(s: State, boardLabel: byte, signPriv: bytes32): Step<Option<EngineError>> {
    if s.fault then Step(s, Some(StorageFault))
    else if s.provisioned then Step(s, Some(Busy))
    else if boardLabel == 0 || boardLabel > 3 then Step(s, Some(BadRequest))
    else Step(Stage(s.(boardLabel := boardLabel, signPriv := signPriv, signSet := true, provisioned := true), Provision), None)
  }

  function SetRadio(s: State, enabled: bool): Step<Option<EngineError>> {
    if s.fault then Step(s, Some(StorageFault))
    else if enabled && !s.radioAvailable then Step(s, Some(RadioUnavailable))
    else if enabled then Step(Stage(s.(radioOn := true), Plain), None)
    else Step(Stage(s.(radioOn := false, pendingSend := None, armedNextBoot := false), Plain), None)
  }

  function ArmNextBoot(s: State): Step<Option<EngineError>> {
    match CheckUsable(s)
    case Some(e) => Step(s, Some(e))
    case None =>
      if !s.radioAvailable then Step(s, Some(RadioUnavailable))
      else Step(Stage(s.(armedNextBoot := true), Plain), None)
  }

  function ConsumeBootArm(s: State): Step<Result<bool, EngineError>> {
    if s.fault then Step(s, Err(StorageFault))
    else
      var t := if s.armedNextBoot then Stage(s.(armedNextBoot := false), Plain) else s;
      Step(t, Ok(s.armedNextBoot && s.radioAvailable))
  }

  // ---- trusted time ----

  function EpochOf(s: State): u32 {
    if s.timeValid then
      match EpochOfUnix(s.unixSeconds) case Some(e) => e case None => 0
    else 0
  }

  /** The highest hour already used: transmit epoch and every present anchor among the first `n` slots. */
  function Floor(cs: Contacts, base: u32, n: nat): u32
    requires n <= MAX_CONTACTS
  {
    if n == 0 then base
    else
      var f := Floor(cs, base, n - 1);
      if cs[n - 1].present then Max(f, cs[n - 1].anchor) else f
  }

  /** A window moves with its hour; an hour not retained before starts empty. */
  function Moved(w: Windows, hours: Epochs, e: u32): Window {
    match Position(hours, e) case Some(i) => w[i] case None => EMPTY
  }

  function MoveAll(w: Windows, hours: Epochs, to: Epochs): Windows {
    [Moved(w, hours, to[0]), Moved(w, hours, to[1]), Moved(w, hours, to[2])]
  }

  function AdvanceContact(c: Contact, epoch: u32): Contact {
    if !c.present then c
    else
      c.(anchor := epoch, winEpochs := Slots(epoch),
         winData := MoveAll(c.winData, c.winEpochs, Slots(epoch)),
         winAck := MoveAll(c.winAck, c.winEpochs, Slots(epoch)))
  }

  function AdvanceContacts(cs: Contacts, epoch: u32): Contacts {
    seq(MAX_CONTACTS, i requires 0 <= i < MAX_CONTACTS => AdvanceContact(cs[i], epoch))
  }

  function SetTime(s: State, seconds: u64, confirmed: bool): Step<Result<u32, EngineError>> {
    if s.fault then Step(s, Err(StorageFault))
    else
      match EpochOfUnix(seconds)
      case None => Step(s, Err(BadRequest))
      case Some(epoch) =>
        if epoch < Floor(s.contacts, s.persistedTxEpoch, MAX_CONTACTS) then Step(s, Err(TimeRollback))
        else if !confirmed && s.timeValid && epoch > Succ(EpochOf(s)) then Step(s, Err(TimeJumpNeedsConfirm))
        else
          var t := s.(contacts := AdvanceContacts(s.contacts, epoch), unixSeconds := seconds, timeValid := true,
                      utcMonoS := s.monoS);
          Step(Stage(t, Time(seconds)), Ok(epoch))
  }

  function AdvanceTime(s: State, now: u64): Step<Option<EngineError>> {
    if s.fault then Step(s, Some(StorageFault))
    else
      var t := s.(monoS := now);
      if !t.timeValid then Step(t, None)
      else if now < t.utcMonoS then Step(t.(timeValid := false), Some(TimeRollback))
      else
        var next := t.unixSeconds + (now - t.utcMonoS);
        if next >= U64 || EpochOfUnix(next).None? then Step(t.(timeValid := false), Some(BadRequest))
        else if EpochOfUnix(next) != Some(EpochOf(t)) then
          var r := SetTime(t, next, false);
          Step(r.state, if r.result.Err? then Some(r.result.error) else None)
        else Step(t.(unixSeconds := next, utcMonoS := now), None)
  }

  // ---- contacts ----

  function SlotOf(s: State, contactId: byte): Result<nat, EngineError> {
    if contactId < 1 || contactId > MAX_CONTACTS then Err(BadRequest)
    else if !s.contacts[contactId - 1].present then Err(BadRequest)
    else Ok(contactId - 1)
  }

  function NewContact(edPeer: bytes32, peerId: bytes8, root: bytes32, role: byte, epoch: u32): Contact {
    NO_CONTACT.(present := true, edPeer := edPeer, peerIdentity := peerId, root := root, role := role,
                anchor := epoch, winEpochs := Slots(epoch))
  }

  /** Last step of the pairing ceremony. */
  function Activate(s: State, slot: nat, edPeer: bytes32, peerId: bytes8, root: bytes32, role: byte): Step<Option<EngineError>> {
    if slot >= MAX_CONTACTS then Step(s, Some(NoSlot))
    else
      var c := NewContact(edPeer, peerId, root, role, EpochOf(s));
      Step(Stage(s.(contacts := s.contacts[slot := c]), PairActivate(slot)), None)
  }

  function KeptPending(p: Option<PendingSend>, contactId: byte): Option<PendingSend> {
    if p.Some? && p.value.contactId == contactId then None else p
  }

  function DropPendingOf(s: State, contactId: byte): State {
    s.(pendingSend := KeptPending(s.pendingSend, contactId))
  }

  function DeleteContact(s: State, contactId: byte): Step<Option<EngineError>> {
    match CheckUsable(s)
    case Some(e) => Step(s, Some(e))
    case None =>
      match SlotOf(s, contactId)
      case Err(e) => Step(s, Some(e))
      case Ok(slot) => Step(Stage(DropPendingOf(s.(contacts := s.contacts[slot := NO_CONTACT]), contactId), Plain), None)
  }

  function SetBlocked(s: State, contactId: byte, blocked: bool): Step<Result<BlockOutcome, EngineError>> {
    match CheckUsable(s)
    case Some(e) => Step(s, Err(e))
    case None =>
      match SlotOf(s, contactId)
      case Err(e) => Step(s, Err(e))
      case Ok(slot) =>
        var t := Stage(s.(contacts := s.contacts[slot := s.contacts[slot].(blocked := blocked)]), Plain);
        if blocked && s.pendingSend.Some? && s.pendingSend.value.contactId == contactId then
          Step(t.(pendingSend := None), Ok(CancelledSend(s.pendingSend.value)))
        else Step(t, Ok(if blocked then Blocked else Unblocked))
  }

  // ---- keys and frames of one contact ----

  function OutgoingKey(cr: Crypto, c: Contact, epoch: u32): bytes32 {
    SendKey(cr, c.root, c.role, epoch)
  }

  function IncomingKey(cr: Crypto, c: Contact, epoch: u32): bytes32 {
    SendKey(cr, c.root, Opposite(c.role), epoch)
  }

  function OwnAddress(cr: Crypto, uid: bytes8, c: Contact, epoch: u32): u32 { cr.addr(cr.derive(c.root, Address), uid, epoch) }

  function PeerAddress(cr: Crypto, c: Contact, epoch: u32): u32 { cr.addr(cr.derive(c.root, Address), c.peerIdentity, epoch) }

  function DataHeader(cr: Crypto, uid: bytes8, c: Contact, epoch: u32, sequence: u64, packetId: u32): Header {
    Header(VERSION_SECURE, FLAG_WANT_ACK, PeerAddress(cr, c, epoch), OwnAddress(cr, uid, c, epoch), packetId, 1, epoch, sequence)
  }

  function AckHeader(cr: Crypto, uid: bytes8, c: Contact, epoch: u32, sequence: u64, packetId: u32): Header {
    Header(VERSION_SECURE, 0, PeerAddress(cr, c, epoch), OwnAddress(cr, uid, c, epoch), packetId, 1, epoch, sequence)
  }

  function DataBody(text: bytes): bytes { [BODY_DATA] + text }

  function AckBody(epoch: u32, sequence: u64, packetId: u32): (b: bytes)
    ensures |b| == 17
  {
    [BODY_ACK] + Be32(epoch) + Be64(sequence) + Be32(packetId)
  }

  /** Seals `pt` under the contact's outgoing key and encodes the frame; `None` when it does not fit. */
  function SealFrame(cr: Crypto, c: Contact, h: Header, pt: bytes): Option<bytes>
    requires |pt| <= 1 + MAX_TEXT_LEN
  {
    var body := cr.seal(OutgoingKey(cr, c, h.epoch), Nonce(h.epoch, h.sequence), FrameAad(h, |pt| + TAG_LEN), pt);
    if |body| > MAX_BODY_LEN then None else Some(Encoded(h, body))
  }

  // ---- sending ----

  predicate TextOk(text: bytes) { 1 <= |text| <= MAX_TEXT_LEN && Utf8.Valid(text) }

  function SendBegin(s: State, contactId: byte, text: bytes, packetId: u32): Step<Result<PendingSend, EngineError>> {
    if CheckUsable(s).Some? then Step(s, Err(CheckUsable(s).value))
    else if !s.timeValid then Step(s, Err(TimeUnset))
    else
      match SlotOf(s, contactId)
      case Err(e) => Step(s, Err(e))
      case Ok(slot) =>
        var c := s.contacts[slot];
        if c.blocked then Step(s, Err(ContactBlocked))
        else if s.pendingSend.Some? then Step(s, Err(Busy))
        else if !TextOk(text) then Step(s, Err(BadRequest))
        else if EpochOf(s) < c.txEpochMax then Step(s, Err(TimeRollback))
        else if !CanReserve(c) then Step(s, Err(StorageFault))
        else
          var ps := PendingSend(contactId, EpochOf(s), c.txNext, packetId);
          var t := Stage(s, ReserveOp(c, slot, Plain));
          Step(t.(pendingText := text, pendingSend := Some(ps)), Ok(ps))
  }

  /** One more sequence number of `slot` is used up, at `epoch`. */
  function Consume(s: State, slot: nat, epoch: u32): State
    requires slot < MAX_CONTACTS && s.contacts[slot].txNext + 1 < U64
  {
    var c := s.contacts[slot];
    s.(contacts := s.contacts[slot := c.(txNext := c.txNext + 1, txEpochMax := Max(c.txEpochMax, epoch))],
       persistedTxEpoch := Max(s.persistedTxEpoch, epoch))
  }

  function PendingFrame(cr: Crypto, s: State, ps: PendingSend, slot: nat): Option<bytes>
    requires slot < MAX_CONTACTS
  {
    if |s.pendingText| > MAX_TEXT_LEN then None
    else
      var c := s.contacts[slot];
      SealFrame(cr, c, DataHeader(cr, s.uid, c, ps.epoch, ps.sequence, ps.packetId), DataBody(s.pendingText))
  }

  function SendEmit(cr: Crypto, s: State): Step<Result<Outgoing, EngineError>> {
    if s.dirty then Step(s, Err(Busy))
    else if s.pendingSend.None? then Step(s, Err(BadRequest))
    else
      var ps := s.pendingSend.value;
      match SlotOf(s, ps.contactId)
      case Err(e) => Step(s, Err(e))
      case Ok(slot) =>
        var c := s.contacts[slot];
        if c.txNext != ps.sequence || ps.sequence >= c.txReserved then Step(s, Err(StorageFault))
        else if ps.epoch < c.txEpochMax then Step(s, Err(TimeRollback))
        else
          match PendingFrame(cr, s, ps, slot)
          case None => Step(s, Err(BadRequest))
          case Some(f) => Step(Stage(Consume(s, slot, ps.epoch), Plain), Ok(Outgoing(f, Some(ps.contactId), false, false)))
  }

  function SendRetryEcho(cr: Crypto, s: State): Result<Outgoing, EngineError> {
    if s.pendingSend.None? then Err(BadRequest)
    else
      var ps := s.pendingSend.value;
      match SlotOf(s, ps.contactId)
      case Err(e) => Err(e)
      case Ok(slot) =>
        match PendingFrame(cr, s, ps, slot)
        case None => Err(BadRequest)
        case Some(f) => Ok(Outgoing(f, Some(ps.contactId), false, true))
  }

  function SendComplete(s: State): State { s.(pendingSend := None) }

  // ---- receiving ----

  /** `decrypt_data` into the 161-byte plaintext buffer. */
  function OpenBody(cr: Crypto, key: bytes32, h: Header, body: bytes): Option<bytes>
    requires |body| <= MAX_BODY_LEN
  {
    if |body| < TAG_LEN || |body| - TAG_LEN > 1 + MAX_TEXT_LEN then None
    else cr.open(key, Nonce(h.epoch, h.sequence), FrameAad(h, |body|), body)
  }

  datatype Attempt = Skip | BadTag | Opened(plaintext: bytes)

  /** Authentication of a frame against one slot. */
  function TrySlot(cr: Crypto, uid: bytes8, c: Contact, h: Header, body: bytes): Attempt
    requires |body| <= MAX_BODY_LEN
  {
    if !c.present || h.epoch !in c.winEpochs then Skip
    else if h.dst != OwnAddress(cr, uid, c, h.epoch) || h.src != PeerAddress(cr, c, h.epoch) then Skip
    else
      match OpenBody(cr, IncomingKey(cr, c, h.epoch), h, body)
      case None => BadTag
      case Some(pt) => if BodyOk(h.flags, pt) then Opened(pt) else Skip
  }

  /** The first slot from `i` on that authenticates the frame. */
  function FirstOpened(cr: Crypto, s: State, h: Header, body: bytes, i: nat): (r: Option<nat>)
    requires |body| <= MAX_BODY_LEN && i <= MAX_CONTACTS
    ensures r.Some? ==> i <= r.value < MAX_CONTACTS && TrySlot(cr, s.uid, s.contacts[r.value], h, body).Opened?
    decreases MAX_CONTACTS - i
  {
    if i == MAX_CONTACTS then None
    else if TrySlot(cr, s.uid, s.contacts[i], h, body).Opened? then Some(i)
    else FirstOpened(cr, s, h, body, i + 1)
  }

  predicate AnyBadTag(cr: Crypto, s: State, h: Header, body: bytes, n: nat)
    requires |body| <= MAX_BODY_LEN && n <= MAX_CONTACTS
  {
    n > 0 && (AnyBadTag(cr, s, h, body, n - 1) || TrySlot(cr, s.uid, s.contacts[n - 1], h, body).BadTag?)
  }

  datatype Reaction = Reaction(kind: Kind, out: Option<Outgoing>, event: Option<NodeEvent>)

  const NOTHING: Reaction := Reaction(Ignore, None, None)

  /** Opaque transit: at most one forward of a frame not seen lately. */
  function Transit(cr: Crypto, s: State, f: bytes, h: Header, now: u64): Step<Reaction>
    requires |f| >= 30
  {
    var o := Relay.Noted(s.relay, cr.digest(Relay.Immutable(f)), now);
    var t := s.(relay := o.entries);
    if o.observed == Relay.Duplicate || !Relay.ShouldForward(h.hops, false, false) then Step(t, NOTHING)
    else Step(t, Reaction(Forward, Some(Outgoing(Relay.Rewritten(f), None, false, false)), None))
  }

  /** Marks a frame of our own so that its echo is not forwarded. */
  function NoteOrigin(cr: Crypto, s: State, f: bytes, now: u64): State {
    if Frame.Decode(f).Err? then s else s.(relay := Relay.Noted(s.relay, cr.digest(Relay.Immutable(f)), now).entries)
  }

  /** Whether a sequence number of `c` is at hand or a new block can still be reserved. */
  predicate CanReserve(c: Contact) { c.txNext < c.txReserved || c.txNext + SEQ_RESERVE_BLOCK < U64 }

  /** What has to be staged before the next number of `c` may be used. */
  function ReserveOp(c: Contact, slot: nat, otherwise: StagedOp): StagedOp
    requires CanReserve(c)
  {
    if c.txNext >= c.txReserved then TxReserve(slot, c.txNext + SEQ_RESERVE_BLOCK) else otherwise
  }

  function AckFrame(cr: Crypto, uid: bytes8, c: Contact, epoch: u32, h: Header, packetId: u32): Option<bytes> {
    SealFrame(cr, c, AckHeader(cr, uid, c, epoch, c.txNext, packetId), AckBody(h.epoch, h.sequence, h.packetId))
  }

  /** A fresh ACK of DATA `h` under the current epoch; its number is consumed in the snapshot that is staged. */
  function BuildAck(cr: Crypto, s: State, slot: nat, h: Header, packetId: u32): Step<Option<Outgoing>>
    requires slot < MAX_CONTACTS
  {
    var c := s.contacts[slot];
    if !s.timeValid || !CanReserve(c) then Step(s, None)
    else
      var op := ReserveOp(c, slot, RxAccept);
      var t := Stage(s, op);
      match AckFrame(cr, s.uid, c, EpochOf(s), h, packetId)
      case None => Step(t, None)
      case Some(f) => Step(Stage(Consume(t, slot, EpochOf(s)), op), Some(Outgoing(f, Some(slot + 1), true, false)))
  }

  function WindowIndex(c: Contact, e: u32): nat
    requires e in c.winEpochs
  {
    Position(c.winEpochs, e).value
  }

  function OnData(cr: Crypto, s: State, slot: nat, h: Header, pt: bytes, ackPacketId: u32): Step<Reaction>
    requires slot < MAX_CONTACTS && h.epoch in s.contacts[slot].winEpochs && 1 <= |pt| <= 1 + MAX_TEXT_LEN
  {
    var c := s.contacts[slot];
    var i := WindowIndex(c, h.epoch);
    var o := Offer(c.winData[i], h.sequence);
    match o.verdict
    case Accepted =>
      var t := Stage(s.(contacts := s.contacts[slot := c.(winData := c.winData[i := o.window])]), RxAccept);
      var a := BuildAck(cr, t, slot, h, ackPacketId);
      Step(a.state, Reaction(Deliver(slot + 1, |pt| - 1), a.result, Some(Received(slot + 1, h.epoch, h.sequence, pt[1..]))))
    case Duplicate =>
      var a := BuildAck(cr, Stage(s.(replayDrops := SatInc(s.replayDrops)), Plain), slot, h, ackPacketId);
      Step(a.state, Reaction(ReAck(slot + 1), a.result, None))
    case Stale => Step(s.(replayDrops := SatInc(s.replayDrops)), NOTHING)
  }

  function OnAck(s: State, slot: nat, h: Header, pt: bytes): Step<Reaction>
    requires slot < MAX_CONTACTS && h.epoch in s.contacts[slot].winEpochs && |pt| == 17
  {
    var c := s.contacts[slot];
    var i := WindowIndex(c, h.epoch);
    var o := Offer(c.winAck[i], h.sequence);
    if o.verdict != Accepted then Step(s.(replayDrops := SatInc(s.replayDrops)), NOTHING)
    else
      var t := Stage(s.(contacts := s.contacts[slot := c.(winAck := c.winAck[i := o.window])]), RxAccept);
      var (epoch, sequence, packetId) := (FromBe32(pt[1..5]), FromBe64(pt[5..13]), FromBe32(pt[13..17]));
      if s.pendingSend == Some(PendingSend(slot + 1, epoch, sequence, packetId)) then
        Step(t, Reaction(Ack(slot + 1), None, Some(SendAcked(slot + 1, epoch, sequence, packetId))))
      else Step(t, NOTHING)
  }

  /** Only a provisioned, healthy node with trusted time tries to authenticate. */
  predicate Listening(s: State) { s.provisioned && !s.fault && s.timeValid }

  function OnOpened(cr: Crypto, s: State, slot: nat, h: Header, pt: bytes, ackPacketId: u32): Step<Reaction>
    requires slot < MAX_CONTACTS && h.epoch in s.contacts[slot].winEpochs && BodyOk(h.flags, pt)
  {
    if pt[0] == BODY_DATA then OnData(cr, s, slot, h, pt, ackPacketId) else OnAck(s, slot, h, pt)
  }

  function OnFrame(cr: Crypto, s: State, f: bytes, now: u64, ackPacketId: u32): Step<Reaction> {
    match Frame.Decode(f)
    case Err(_) => Step(s, NOTHING)
    case Ok(d) =>
      var h := d.header;
      if h.version != VERSION_SECURE then Step(s, NOTHING)
      else if !Listening(s) || !InAcceptWindow(h.epoch, EpochOf(s)) then Transit(cr, s, f, h, now)
      else
        match FirstOpened(cr, s, h, d.body, 0)
        case None =>
          var t := if AnyBadTag(cr, s, h, d.body, MAX_CONTACTS) then s.(authFailures := SatInc(s.authFailures)) else s;
          Transit(cr, t, f, h, now)
        case Some(slot) =>
          var pt := TrySlot(cr, s.uid, s.contacts[slot], h, d.body).plaintext;
          if s.contacts[slot].blocked then Step(s, NOTHING) else OnOpened(cr, s, slot, h, pt, ackPacketId)
  }
}
