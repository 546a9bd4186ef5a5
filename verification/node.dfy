/** One node over time: RAM state, flash, the frame and text a step holds back until its commit, and ghost logs. */
module Node {
  import opened Bytes
  import opened Frame
  import opened Security
  import opened Persist
  import opened Clock
  import opened Replay
  import opened Engine
  import opened ContactLog
  import Records
  import Ceremony

  /** What a step has prepared and may release only after its snapshot is durable. */
  datatype Held = Held(rec: Option<Rec>, taken: Option<Taken>)

  const NOTHING_HELD: Held := Held(None, None)

  datatype Node = Node(ram: State, durable: Option<View>, usb: Option<View>, held: Held, inflight: bool, logs: Logs)

  /** How a commit ends. `Done` also says whether the radio queue took the frame and the host got the text
      (a power cut may come in between); `Failed` whether flash holds the new record all the same. */
  datatype Outcome = Done(radioTook: bool, hostTook: bool) | Failed(written: bool)

  datatype Action =
    | SetIdentity(uid: bytes8)
    | Provision(boardLabel: byte, signPriv: bytes32)
    | SetTime(seconds: u64, confirmed: bool)
    | AdvanceTime(now: u64)
    | SetRadio(enabled: bool)
    | ArmNextBoot
    | ConsumeBootArm
    | PairOffer(ephPriv: bytes32, challenge: bytes32)
    | PairImport(record: bytes, replace: bool, sasMatch: bool)
    | PairProof
    | PairConfirm
    | DeleteContact(contactId: byte)
    | SetBlocked(contactId: byte, blocked: bool)
    | SendBegin(contactId: byte, text: bytes, packetId: u32)
    | SendEmit
    | RetryEcho
    | SendComplete
    | ForgetInflight
    | OnFrame(frame: bytes, now: u64, ackPacketId: u32)
    | NoteOrigin(frame: bytes, now: u64)
    | StageUsb
    | Commit(outcome: Outcome)
    | Crash(radioAvailable: bool)

  // ---- records of the frames the engine builds ----

  function MakeRec(cr: Crypto, c: Contact, h: Header, pt: bytes): Option<Rec>
    requires |pt| <= 1 + MAX_TEXT_LEN
  {
    match SealFrame(cr, c, h, pt)
    case None => None
    case Some(f) => Some(Rec(c.root, c.role, h, pt, f))
  }

  function DataRec(cr: Crypto, uid: bytes8, c: Contact, ps: PendingSend, text: bytes): Option<Rec>
    requires |text| <= MAX_TEXT_LEN
  {
    MakeRec(cr, c, DataHeader(cr, uid, c, ps.epoch, ps.sequence, ps.packetId), DataBody(text))
  }

  function AckRec(cr: Crypto, uid: bytes8, c: Contact, epoch: u32, h: Header, packetId: u32): Option<Rec> {
    MakeRec(cr, c, AckHeader(cr, uid, c, epoch, c.txNext, packetId), AckBody(h.epoch, h.sequence, h.packetId))
  }

  /** The record of the pending send. */
  function PendingRec(cr: Crypto, s: State): Option<Rec> {
    if s.pendingSend.None? || |s.pendingText| > MAX_TEXT_LEN then None
    else
      match SlotOf(s, s.pendingSend.value.contactId)
      case Err(_) => None
      case Ok(slot) => DataRec(cr, s.uid, s.contacts[slot], s.pendingSend.value, s.pendingText)
  }

  /** What `OnFrame` holds back in state `s`. */
  function HeldAfter(cr: Crypto, s: State, f: bytes, ackPacketId: u32, r: Reaction): Held {
    if Frame.Decode(f).Err? || (!r.kind.Deliver? && !r.kind.ReAck?) || r.kind.contactId < 1 || r.kind.contactId > MAX_CONTACTS then NOTHING_HELD
    else
      var d := Frame.Decode(f).value;
      var c := s.contacts[r.kind.contactId - 1];
      Held(if r.out.Some? then AckRec(cr, s.uid, c, EpochOf(s), d.header, ackPacketId) else None,
           if r.kind.Deliver? && r.event.Some? && r.event.value.Received? then
             Some(Taken(c.root, c.role, d.header.epoch, d.header.sequence, d.header.packetId, r.event.value.text))
           else None)
  }

  // ---- steps ----

  /** `Runtime::commit`: bytes staged by the USB side win over the engine's own. */
  function CommitBytes(n: Node): Option<View> { if n.usb.Some? then n.usb else PendingPersist(n.ram) }

  function Append<T>(s: seq<T>, x: Option<T>, yes: bool): seq<T> { if yes && x.Some? then s + [x.value] else s }

  function AddTaken(s: set<Taken>, x: Option<Taken>, yes: bool): set<Taken> { if yes && x.Some? then s + {x.value} else s }

  function DoCommit(n: Node, o: Outcome): Node {
    match CommitBytes(n)
    case None => n
    case Some(bytes) =>
      var latest := bytes == n.ram.scratch;
      match o
      case Done(radioTook, hostTook) =>
        n.(ram := CommitOk(n.ram), durable := Some(bytes), usb := None, held := NOTHING_HELD,
           inflight := n.inflight || (radioTook && n.held.rec.Some? && IsData(n.held.rec.value)),
           logs := n.logs.(air := Append(n.logs.air, n.held.rec, radioTook),
                           delivered := Append(n.logs.delivered, n.held.taken, hostTook),
                           accepted := AddTaken(n.logs.accepted, n.held.taken, latest)))
      case Failed(written) =>
        n.(ram := MarkFault(DiscardStaged(n.ram)), durable := if written then Some(bytes) else n.durable, usb := None,
           held := NOTHING_HELD, inflight := false,
           logs := n.logs.(accepted := AddTaken(n.logs.accepted, n.held.taken, written && latest)))
  }

  function Boot(durable: Option<View>, radioAvailable: bool): State {
    match durable
    case None => Fresh(radioAvailable)
    case Some(v) => RestoreView(Fresh(radioAvailable), v)
  }

  /** The activation that importing `record` makes, if it makes one. */
  function Activation(cr: Crypto, s: State, record: bytes, replace: bool, sasMatch: bool): Option<Made> {
    var r := Ceremony.Import(cr, s, record, replace, sasMatch).result;
    if r.Err? || r.value.None? || s.attempt.None? || s.attempt.value.peerOffer.None? || s.attempt.value.transcript.None? then None
    else
      var a := s.attempt.value;
      match Ceremony.PairRoot(cr, a, a.transcript.value)
      case Err(_) => None
      case Ok(root) => Some(Made(root, a.ownRole, a.ownOffer, a.peerOffer.value))
  }

  /** Logs after an activation. */
  function Activated(l: Logs, m: Option<Made>): Logs {
    match m case None => l case Some(x) => l.(used := l.used + {(x.root, x.role)}, made := l.made + {x})
  }

  /** The offer that `PairOffer` would make. */
  function OwnOffer(cr: Crypto, s: State, ephPriv: bytes32, challenge: bytes32): Records.payload {
    Records.EncodePayload(Ceremony.OfferOf(cr, s, ephPriv, challenge))
  }

  function Apply(cr: Crypto, n: Node, a: Action): Node {
    var s := n.ram;
    match a
    case SetIdentity(uid) => n.(ram := Engine.SetIdentity(s, uid))
    case Provision(boardLabel, signPriv) => n.(ram := DoProvision(s, boardLabel, signPriv).state)
    case SetTime(seconds, confirmed) => n.(ram := Engine.SetTime(s, seconds, confirmed).state)
    case AdvanceTime(now) => n.(ram := Engine.AdvanceTime(s, now).state)
    case SetRadio(enabled) => n.(ram := Engine.SetRadio(s, enabled).state)
    case ArmNextBoot => n.(ram := Engine.ArmNextBoot(s).state)
    case ConsumeBootArm => n.(ram := Engine.ConsumeBootArm(s).state)
    case PairOffer(ephPriv, challenge) =>
      n.(ram := Ceremony.PairOffer(cr, s, ephPriv, cr.pub(ephPriv), challenge).state,
         logs := n.logs.(offered := n.logs.offered + {OwnOffer(cr, s, ephPriv, challenge)}))
    case PairImport(record, replace, sasMatch) =>
      n.(ram := Ceremony.Import(cr, s, record, replace, sasMatch).state,
         logs := Activated(n.logs, Activation(cr, s, record, replace, sasMatch)))
    case PairProof => n.(ram := Ceremony.PairProof(cr, s).state)
    case PairConfirm => n.(ram := Ceremony.PairConfirm(cr, s).state)
    case DeleteContact(contactId) => n.(ram := Engine.DeleteContact(s, contactId).state)
    case SetBlocked(contactId, blocked) => n.(ram := Engine.SetBlocked(s, contactId, blocked).state)
    case SendBegin(contactId, text, packetId) => n.(ram := Engine.SendBegin(s, contactId, text, packetId).state)
    case SendEmit =>
      var r := Engine.SendEmit(cr, s);
      n.(ram := r.state, held := Held(if r.result.Ok? then PendingRec(cr, s) else None, None))
    case RetryEcho =>
      if SendRetryEcho(cr, s).Ok? then n.(logs := n.logs.(air := Append(n.logs.air, PendingRec(cr, s), true))) else n
    case SendComplete => n.(ram := Engine.SendComplete(s), inflight := false)
    case ForgetInflight => n.(inflight := false)
    case OnFrame(f, now, ackPacketId) =>
      var r := Engine.OnFrame(cr, s, f, now, ackPacketId);
      n.(ram := r.state, held := HeldAfter(cr, s, f, ackPacketId, r.result))
    case NoteOrigin(f, now) => n.(ram := Engine.NoteOrigin(cr, s, f, now))
    case StageUsb => if s.dirty then n.(usb := Some(s.scratch)) else n
    case Commit(o) => DoCommit(n, o)
    case Crash(radioAvailable) =>
      n.(ram := Boot(n.durable, radioAvailable), usb := None, held := NOTHING_HELD, inflight := false)
  }

  // ---- the discipline of the runtime ----

  /** No reservation and no frame or text is waiting for a commit. */
  predicate Quiet(n: Node) { n.held == NOTHING_HELD && !(n.ram.staged.Some? && n.ram.staged.value.TxReserve?) }

  /** The bytes a commit would write are the engine's latest snapshot. */
  predicate BytesLatest(n: Node) { n.usb.None? || n.usb == PendingPersist(n.ram) }

  /** Bytes `v` cover what a commit releases: no text, and no frame beyond the reservation that they show. */
  predicate Covers(v: View, h: Held, radioTook: bool) {
    && h.taken.None?
    && (radioTook && h.rec.Some? ==>
          forall i :: 0 <= i < MAX_CONTACTS && v.contacts[i].present && v.contacts[i].root == h.rec.value.root ==>
                        h.rec.value.header.sequence < v.contacts[i].txReserved)
  }

  /** A commit writes the latest bytes, or releases nothing that the older ones do not cover. */
  predicate CommitInOrder(n: Node, o: Outcome) { BytesLatest(n) || o.Failed? || Covers(n.usb.value, n.held, o.radioTook) }

  /** No confirmation is imported again once its root is in use. */
  predicate RevivesNothing(cr: Crypto, n: Node, a: Action) {
    match a
    case PairImport(record, replace, sasMatch) =>
      var m := Activation(cr, n.ram, record, replace, sasMatch);
      m.Some? && m.value in n.logs.made ==> Untouched(n.logs, m.value.root, EpochOf(n.ram))
    case _ => true
  }

  /** Nothing else is staged over an activation that waits for its commit. */
  predicate KeepsActivation(cr: Crypto, n: Node, a: Action) {
    n.ram.attempt.Some? && ActivationStaged(n.ram) ==> a.Commit? || a.Crash? || ActivationStaged(Apply(cr, n, a).ram)
  }

  /** A fresh offer: never made by us, never imported by us. */
  predicate FreshOffer(l: Logs, p: Records.payload) { p !in l.offered && forall m :: m in l.made ==> m.peer != p }

  /** Equal roots come from equal pairs of offers. */
  predicate RootSeparate(l: Logs, m: Made) {
    forall x :: x in l.made && x.root == m.root ==> Records.Ordered(x.own, x.peer) == Records.Ordered(m.own, m.peer)
  }

  /** What randomness and key derivation give: fresh offers, and no two pairs of offers with one root. */
  predicate Lucky(cr: Crypto, n: Node, a: Action) {
    match a
    case PairOffer(ephPriv, challenge) => FreshOffer(n.logs, OwnOffer(cr, n.ram, ephPriv, challenge))
    case PairImport(record, replace, sasMatch) =>
      var m := Activation(cr, n.ram, record, replace, sasMatch);
      m.Some? ==> RootSeparate(n.logs, m.value)
    case _ => true
  }

  /** What the runtime keeps to between operations. */
  predicate InTurn(n: Node, a: Action) {
    match a
    case Crash(_) => true
    case ForgetInflight => true
    case Commit(o) => CommitInOrder(n, o)
    case SetIdentity(_) => Quiet(n) && n.ram.pendingSend.None? && !n.ram.fault
    case SendBegin(_, _, _) => Quiet(n) && n.ram.radioOn && !n.inflight
    case RetryEcho => Quiet(n) && n.inflight
    case _ => Quiet(n)
  }

  predicate Allowed(cr: Crypto, n: Node, a: Action) { InTurn(n, a) && RevivesNothing(cr, n, a) && Lucky(cr, n, a) }

  function Run(cr: Crypto, n: Node, actions: seq<Action>): Node {
    if actions == [] then n else Apply(cr, Run(cr, n, actions[..|actions| - 1]), actions[|actions| - 1])
  }

  predicate Disciplined(cr: Crypto, n: Node, actions: seq<Action>) {
    actions == [] ||
    (Disciplined(cr, n, actions[..|actions| - 1]) && Allowed(cr, Run(cr, n, actions[..|actions| - 1]), actions[|actions| - 1]))
  }

  /** A board out of the box: blank flash, no pairing ever made. */
  function Blank(radioAvailable: bool): Node {
    Node(Fresh(radioAvailable), None, None, NOTHING_HELD, false, Logs([], [], {}, {}, {}, {}))
  }

  // ---- invariant ----

  /** The logs once everything in `h` is released. */
  function Release(l: Logs, h: Held): Logs {
    l.(air := Append(l.air, h.rec, true), delivered := Append(l.delivered, h.taken, true),
       accepted := AddTaken(l.accepted, h.taken, true))
  }

  function Plus(n: Node): Logs { Release(n.logs, n.held) }

  /** Only a slot in use has numbers reserved. */
  predicate OpOk(cs: Contacts, op: StagedOp) { op.TxReserve? ==> op.slot < MAX_CONTACTS && cs[op.slot].present }

  /** The snapshot waiting for a commit shows the state as it is, but for the seconds within the hour. */
  predicate SnapshotSynced(s: State) {
    && (s.dirty <==> s.staged.Some?)
    && s.boardLabel <= 3
    && (s.staged.Some? ==> OpOk(s.contacts, s.staged.value))
    && (s.dirty ==> s.scratch == ViewOf(s).(unixSeconds := s.scratch.unixSeconds))
    && (s.dirty && s.timeValid ==> EpochOfUnix(s.scratch.unixSeconds) == EpochOfUnix(s.unixSeconds))
  }

  /** Every number handed out so far lies inside a reservation that is made or staged. */
  predicate Reserved(cs: Contacts) { forall i :: 0 <= i < MAX_CONTACTS ==> cs[i].txNext <= cs[i].txReserved }

  /** While time is trusted, every anchor stands at the current hour. */
  predicate AnchorsAt(cs: Contacts, epoch: u32) { forall i :: 0 <= i < MAX_CONTACTS && cs[i].present ==> cs[i].anchor == epoch }

  predicate TimeSynced(s: State) {
    s.timeValid ==> EpochOfUnix(s.unixSeconds).Some? && AnchorsAt(s.contacts, EpochOf(s))
  }

  /** Any DATA frame with the number of the pending send is the frame of the pending send. */
  predicate PendingOk(cr: Crypto, s: State, air: seq<Rec>) {
    s.pendingSend.Some? ==>
      var ps := s.pendingSend.value;
      && s.radioOn && |s.pendingText| <= MAX_TEXT_LEN && SlotOf(s, ps.contactId).Ok?
      && var c := s.contacts[ps.contactId - 1];
         && ps.sequence <= c.txNext
         && (forall r :: r in air && IsData(r) && r.root == c.root && r.header.sequence == ps.sequence ==> Some(r) == PendingRec(cr, s))
  }

  /** The same number under the same root is the same frame. */
  predicate SequencesUnique(air: seq<Rec>) {
    forall q, r :: q in air && r in air && q.root == r.root && q.header.sequence == r.header.sequence ==> q == r
  }

  predicate DeliveredOnce(d: seq<Taken>) {
    forall i, j :: 0 <= i < j < |d| ==> d[i].root != d[j].root || d[i].epoch != d[j].epoch || d[i].sequence != d[j].sequence
  }

  /** An ACK on air answers a text that is durably accepted. */
  ghost predicate AcksAccepted(l: Logs) {
    forall r :: r in l.air && !IsData(r) ==>
      exists e: u32, s: u64, p: u32 :: r.plaintext == AckBody(e, s, p) && AcceptedAt(l.accepted, r.root, e, s)
  }

  /** A faulted engine stages and sends nothing any more; its slots are not trusted. */
  predicate Halted(s: State) { !s.dirty && s.staged.None? && s.pendingSend.None? }

  ghost predicate RamInv(cr: Crypto, s: State, l: Logs) {
    if s.fault then Halted(s)
    else
      && Safe(s.contacts, l)
      && SnapshotSynced(s)
      && Reserved(StagedContacts(s))
      && TimeSynced(s)
      && PendingOk(cr, s, l.air)
  }

  ghost predicate LogInv(l: Logs) {
    LogsOk(l) && SequencesUnique(l.air) && DeliveredOnce(l.delivered) && AcksAccepted(l)
  }

  /** The stored record can be restored, and restoring it is safe. */
  ghost predicate DurableInv(v: View, l: Logs) { ViewOk(v) && Safe(RestoreContacts(v.contacts), l) }

  /** Some slot in use has this root. */
  predicate RootPresent(cs: Contacts, root: bytes32) { exists i :: 0 <= i < MAX_CONTACTS && cs[i].present && cs[i].root == root }

  ghost predicate Inv(cr: Crypto, n: Node) {
    && LogInv(n.logs) && LogInv(Plus(n))
    && RamInv(cr, n.ram, Plus(n))
    && (n.durable.Some? ==> DurableInv(n.durable.value, n.logs))
    && (n.held != NOTHING_HELD ==> n.ram.dirty)
    && (n.usb.Some? ==> n.ram.dirty && DurableInv(n.usb.value, n.logs))
    && (n.held.taken.Some? ==> RootPresent(n.ram.contacts, n.held.taken.value.root))
    && (n.held.rec.Some? && IsData(n.held.rec.value) && n.ram.pendingSend.Some? ==> n.held.rec == PendingRec(cr, n.ram))
    && (n.inflight && n.ram.pendingSend.Some? ==> PendingRec(cr, n.ram).Some? && PendingRec(cr, n.ram).value in n.logs.air)
  }
}
