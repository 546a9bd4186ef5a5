/** What single engine operations leave alone: the pairing attempt, who is in which slot, the pending send. */
module NodeKeeps {
  import opened Bytes
  import opened Frame
  import opened Security
  import opened Persist
  import opened Clock
  import opened Engine
  import opened ContactLog
  import opened Node
  import opened NodeSteps
  import opened NodeFrames
  import Replay
  import Ceremony
  import Relay

  /** A slot in use afterwards was in use before, for the same peer and generation. */
  predicate SlotsKept(cs: Contacts, ds: Contacts) {
    forall i :: 0 <= i < MAX_CONTACTS && ds[i].present ==>
                  cs[i].present && ds[i].root == cs[i].root && ds[i].role == cs[i].role && ds[i].edPeer == cs[i].edPeer
  }

  predicate OpKeeps(s: State, t: State) { t.attempt == s.attempt && t.fault == s.fault && SlotsKept(s.contacts, t.contacts) }

  /** Every slot keeps its peer and generation. */
  predicate SlotsSame(cs: Contacts, ds: Contacts) {
    forall i :: 0 <= i < MAX_CONTACTS ==>
                  ds[i].present == cs[i].present && ds[i].root == cs[i].root && ds[i].role == cs[i].role && ds[i].edPeer == cs[i].edPeer
  }

  predicate OpSame(s: State, t: State) {
    && t.attempt == s.attempt && t.fault == s.fault && t.radioOn == s.radioOn && t.pendingText == s.pendingText
    && SlotsSame(s.contacts, t.contacts)
  }

  lemma SameIsKept(s: State, t: State)
    requires OpSame(s, t)
    ensures OpKeeps(s, t)
  {}

  /** Only a radio that is on has a send pending. */
  predicate PendingOn(s: State) { s.pendingSend.Some? ==> s.radioOn }

  /** No reservation is staged, a send pending afterwards was pending before, with the same text. */
  predicate CalmState(s: State, t: State) {
    && NoReserve(t) && t.pendingText == s.pendingText && (t.pendingSend.Some? ==> t.pendingSend == s.pendingSend)
    && (PendingOn(s) ==> PendingOn(t))
  }

  predicate Gentle(s: State, t: State) { CalmState(s, t) && OpKeeps(s, t) }

  /** Operations between commits that neither send, receive nor pair. */
  predicate RamOnly(a: Action) {
    a.SetIdentity? || a.Provision? || a.SetTime? || a.AdvanceTime? || a.SetRadio? || a.ArmNextBoot? || a.ConsumeBootArm?
    || a.DeleteContact? || a.SetBlocked? || a.NoteOrigin?
  }

  predicate Pairs(a: Action) { a.PairOffer? || a.PairImport? || a.PairProof? || a.PairConfirm? }

  // ---- operations between commits ----

  lemma StageFault(s: State, op: StagedOp)
    ensures Stage(s, op).fault == s.fault && Stage(s, op).pendingText == s.pendingText
  {}

  lemma AdvanceKept(cs: Contacts, epoch: u32)
    ensures SlotsKept(cs, AdvanceContacts(cs, epoch))
  {
    forall i | 0 <= i < MAX_CONTACTS && cs[i].present ensures AdvanceContact(cs[i], epoch).edPeer == cs[i].edPeer { }
    forall i | 0 <= i < MAX_CONTACTS && cs[i].present { AdvancedFields(cs[i], epoch); }
    hide Moved;
  }

  lemma SetTimeGentle(s: State, seconds: u64, confirmed: bool)
    requires NoReserve(s)
    ensures var t := Engine.SetTime(s, seconds, confirmed).state; Gentle(s, t) && t.pendingSend == s.pendingSend
  {
    hide Floor, AdvanceContacts, Stage;
    var r := Engine.SetTime(s, seconds, confirmed);
    if r.result.Ok? {
      AdvanceKept(s.contacts, r.result.value);
      StageFault(s.(contacts := AdvanceContacts(s.contacts, r.result.value), unixSeconds := seconds, timeValid := true, utcMonoS := s.monoS),
                 Time(seconds));
    }
  }

  lemma AdvanceTimeGentle(s: State, now: u64)
    requires NoReserve(s)
    ensures var t := Engine.AdvanceTime(s, now).state; Gentle(s, t) && t.pendingSend == s.pendingSend
  {
    hide Engine.SetTime, Engine.AdvanceTime, EntersHour;
    if EntersHour(s, now) {
      TickIs(s, now);
      SetTimeGentle(s.(monoS := now), s.unixSeconds + (now - s.utcMonoS), false);
    } else {
      TickWithinHour(s, now);
    }
  }

  lemma TickIs(s: State, now: u64)
    requires EntersHour(s, now)
    ensures now >= s.utcMonoS && s.unixSeconds + (now - s.utcMonoS) < U64
    ensures Engine.AdvanceTime(s, now).state == Engine.SetTime(s.(monoS := now), s.unixSeconds + (now - s.utcMonoS), false).state
  {
    hide EpochOfUnix, EpochOf, Engine.SetTime;
    SameClock(s, s.(monoS := now));
  }

  lemma FlagsGentle(s: State, uid: bytes8, lab: byte, key: bytes32)
    requires NoReserve(s)
    ensures Gentle(s, Engine.SetIdentity(s, uid)) && Gentle(s, DoProvision(s, lab, key).state)
  {
    StageFault(s.(uid := uid, uidSet := true), Plain);
    StageFault(s.(boardLabel := lab, signPriv := key, signSet := true, provisioned := true), StagedOp.Provision);
    hide Stage;
  }

  lemma RadioGentle(s: State, enabled: bool)
    requires NoReserve(s)
    ensures Gentle(s, Engine.SetRadio(s, enabled).state) && Gentle(s, Engine.ArmNextBoot(s).state)
    ensures Gentle(s, Engine.ConsumeBootArm(s).state)
  {
    StageFault(s.(radioOn := true), Plain);
    StageFault(s.(radioOn := false, pendingSend := None, armedNextBoot := false), Plain);
    StageFault(s.(armedNextBoot := true), Plain);
    StageFault(s.(armedNextBoot := false), Plain);
    hide Stage;
  }

  lemma DeleteGentle(s: State, contactId: byte)
    requires NoReserve(s)
    ensures Gentle(s, Engine.DeleteContact(s, contactId).state)
  {
    hide Engine.DeleteContact, Stage;
    DeleteIs(s, contactId);
    if Engine.DeleteContact(s, contactId).result.None? {
      var u := DropPendingOf(s, contactId);
      StageFault(u.(contacts := u.contacts[contactId - 1 := NO_CONTACT]), Plain);
    }
  }

  lemma BlockGentle(s: State, contactId: byte, blocked: bool)
    requires NoReserve(s)
    ensures Gentle(s, Engine.SetBlocked(s, contactId, blocked).state)
  {
    hide Stage, Gentle, Engine.SetBlocked;
    BlockIs(s, contactId, blocked);
    if Engine.SetBlocked(s, contactId, blocked).result.Ok? {
      BlockedKeeps(s, contactId - 1, blocked);
      DroppedGentle(s, BlockStaged(s, contactId - 1, blocked));
    } else {
      SameGentle(s);
    }
  }

  /** The snapshot with the block bit. */
  function BlockStaged(s: State, slot: nat, blocked: bool): State
    requires slot < MAX_CONTACTS
  {
    Stage(s.(contacts := s.contacts[slot := s.contacts[slot].(blocked := blocked)]), Plain)
  }

  lemma BlockIs(s: State, contactId: byte, blocked: bool)
    ensures var r := Engine.SetBlocked(s, contactId, blocked);
            if r.result.Err? then r.state == s
            else
              && 1 <= contactId <= MAX_CONTACTS
              && (r.state == BlockStaged(s, contactId - 1, blocked) || r.state == BlockStaged(s, contactId - 1, blocked).(pendingSend := None))
  {
    hide Stage;
  }

  lemma BlockedKeeps(s: State, slot: nat, blocked: bool)
    requires NoReserve(s) && slot < MAX_CONTACTS
    ensures Gentle(s, BlockStaged(s, slot, blocked))
  {
    var t := s.(contacts := s.contacts[slot := s.contacts[slot].(blocked := blocked)]);
    StageFault(t, Plain);
    assert SlotsKept(s.contacts, t.contacts);
    hide Stage, SlotsKept;
  }

  lemma DroppedGentle(s: State, t: State)
    requires Gentle(s, t)
    ensures Gentle(s, t.(pendingSend := None))
  {
    hide SlotsKept;
  }

  lemma SameGentle(s: State)
    requires NoReserve(s)
    ensures Gentle(s, s)
  {}

  lemma NoteGentle(cr: Crypto, s: State, f: bytes, now: u64)
    requires NoReserve(s)
    ensures Gentle(s, Engine.NoteOrigin(cr, s, f, now)) && Engine.NoteOrigin(cr, s, f, now).staged == s.staged
  {
    hide Relay.Noted, Relay.Immutable, Frame.Decode;
  }

  lemma RamGentle(cr: Crypto, n: Node, a: Action)
    requires NoReserve(n.ram) && RamOnly(a)
    ensures var m := Apply(cr, n, a); m == n.(ram := m.ram) && Gentle(n.ram, m.ram)
  {
    hide Engine.SetTime, Engine.AdvanceTime, Engine.SetIdentity, DoProvision, Engine.SetRadio, Engine.ArmNextBoot,
      Engine.ConsumeBootArm, Engine.DeleteContact, Engine.SetBlocked, Engine.NoteOrigin, Gentle;
    var s := n.ram;
    match a
    case SetTime(seconds, confirmed) => SetTimeGentle(s, seconds, confirmed);
    case AdvanceTime(now) => AdvanceTimeGentle(s, now);
    case SetIdentity(uid) => FlagsGentle(s, uid, 0, s.signPriv);
    case Provision(lab, key) => FlagsGentle(s, s.uid, lab, key);
    case SetRadio(enabled) => RadioGentle(s, enabled);
    case ArmNextBoot => RadioGentle(s, false);
    case ConsumeBootArm => RadioGentle(s, false);
    case DeleteContact(contactId) => DeleteGentle(s, contactId);
    case SetBlocked(contactId, blocked) => BlockGentle(s, contactId, blocked);
    case NoteOrigin(f, now) => NoteGentle(cr, s, f, now);
  }

  // ---- the clock ----

  /** The tick enters another hour: `set_time` is called from `advance_time`. */
  predicate EntersHour(s: State, now: u64) {
    && !s.fault && s.timeValid && now >= s.utcMonoS && s.unixSeconds + (now - s.utcMonoS) < U64
    && EpochOfUnix(s.unixSeconds + (now - s.utcMonoS)).Some?
    && EpochOfUnix(s.unixSeconds + (now - s.utcMonoS)) != Some(EpochOf(s))
  }

  lemma TickWithinHour(s: State, now: u64)
    requires !EntersHour(s, now)
    ensures var t := Engine.AdvanceTime(s, now).state;
            t == s.(monoS := t.monoS, unixSeconds := t.unixSeconds, timeValid := t.timeValid, utcMonoS := t.utcMonoS)
  {
    hide EpochOfUnix, EpochOf, Engine.SetTime;
    SameClock(s, s.(monoS := now));
  }

  lemma TickRotates(s: State, now: u64)
    requires EntersHour(s, now)
    ensures var r := Engine.AdvanceTime(s, now);
            if r.result.Some? then r.state == s.(monoS := now)
            else r.state.dirty && r.state.scratch.unixSeconds == s.unixSeconds + (now - s.utcMonoS) && !ActivationStaged(r.state)
  {
    hide EpochOfUnix, EpochOf, Engine.SetTime;
    SameClock(s, s.(monoS := now));
    SetTimeStages(s.(monoS := now), s.unixSeconds + (now - s.utcMonoS));
  }

  lemma SetTimeStages(s: State, seconds: u64)
    ensures var r := Engine.SetTime(s, seconds, false);
            if r.result.Err? then r.state == s else r.state.dirty && r.state.scratch.unixSeconds == seconds && !ActivationStaged(r.state)
  {
    hide EpochOfUnix, EpochOf, AdvanceContacts, Floor, StagedContacts;
  }

  // ---- sending ----

  lemma StagedKeeps(s: State, op: StagedOp)
    ensures OpSame(s, Stage(s, op)) && (ActivationStaged(Stage(s, op)) <==> op.PairActivate?)
  {
    StageFault(s, op);
  }

  lemma ConsumeKeeps(s: State, slot: nat, epoch: u32)
    requires slot < MAX_CONTACTS && s.contacts[slot].txNext + 1 < U64
    ensures OpSame(s, Consume(s, slot, epoch)) && Consume(s, slot, epoch).pendingSend == s.pendingSend
  {}

  lemma KeepsLater(s: State, t: State, u: State)
    requires OpSame(s, t) && OpSame(t, u)
    ensures OpSame(s, u)
  {}

  lemma SendKeeps(cr: Crypto, s: State, contactId: byte, text: bytes, packetId: u32)
    ensures OpKeeps(s, Engine.SendBegin(s, contactId, text, packetId).state) && OpSame(s, Engine.SendEmit(cr, s).state)
    ensures OpSame(s, Engine.SendComplete(s))
    ensures s.dirty ==> Engine.SendEmit(cr, s).state == s
  {
    BeginKeeps(s, contactId, text, packetId);
    EmitRefused(cr, s);
    hide Stage, Consume, SealFrame, PendingFrame, Engine.SendBegin;
    if Engine.SendEmit(cr, s).result.Ok? {
      EmitIs(cr, s);
      var ps := s.pendingSend.value;
      hide Engine.SendEmit;
      ConsumeKeeps(s, ps.contactId - 1, ps.epoch);
      StagedKeeps(Consume(s, ps.contactId - 1, ps.epoch), Plain);
      KeepsLater(s, Consume(s, ps.contactId - 1, ps.epoch), Stage(Consume(s, ps.contactId - 1, ps.epoch), Plain));
    }
  }

  lemma BeginKeeps(s: State, contactId: byte, text: bytes, packetId: u32)
    ensures OpKeeps(s, Engine.SendBegin(s, contactId, text, packetId).state)
  {
    hide Stage, EpochOf, CanReserve, ReserveOp, TextOk;
    if 1 <= contactId <= MAX_CONTACTS && CanReserve(s.contacts[contactId - 1]) {
      StagedKeeps(s, ReserveOp(s.contacts[contactId - 1], contactId - 1, Plain));
    }
  }

  // ---- receiving ----

  /** What receiving leaves alone; a reception that answers stages no activation. */
  predicate FrameKept(s: State, r: Step<Reaction>) {
    && OpSame(s, r.state) && (r.state.pendingSend.Some? ==> r.state.pendingSend == s.pendingSend)
    && (r.result.kind.Deliver? || r.result.kind.ReAck? ==> !ActivationStaged(r.state))
  }

  lemma AckKeeps(cr: Crypto, s: State, op: StagedOp, slot: nat, h: Header, packetId: u32)
    requires slot < MAX_CONTACTS && !op.PairActivate?
    ensures var t := BuildAck(cr, Stage(s, op), slot, h, packetId).state;
            OpSame(s, t) && t.pendingSend == s.pendingSend && !ActivationStaged(t)
  {
    hide Stage, BuildAck, AckFrame, Consume, EpochOf, CanReserve, OpSame, ActivationStaged;
    BuildAckIs(cr, s, op, slot, h, packetId);
    StagedKeeps(s, op);
    var c, e := s.contacts[slot], EpochOf(s);
    if CanReserve(c) {
      var op' := ReserveOp(c, slot, RxAccept);
      StagedKeeps(s, op');
      ReserveFits(c);
      ConsumeKeeps(s, slot, e);
      StagedKeeps(Consume(s, slot, e), op');
      KeepsLater(s, Consume(s, slot, e), Stage(Consume(s, slot, e), op'));
    }
  }

  lemma ReserveFits(c: Contact)
    requires CanReserve(c)
    ensures c.txNext + 1 < U64
  {}

  lemma DataKeeps(cr: Crypto, s: State, slot: nat, h: Header, pt: bytes, packetId: u32)
    requires slot < MAX_CONTACTS && h.epoch in s.contacts[slot].winEpochs && 1 <= |pt| <= 1 + MAX_TEXT_LEN
    ensures FrameKept(s, OnData(cr, s, slot, h, pt, packetId))
  {
    hide BuildAck, Replay.Offer, Stage, FrameKept, Position;
    match Replay.Offer(WindowFor(s.contacts[slot], h.epoch), h.sequence).verdict
    case Accepted => NewTextKeeps(cr, s, slot, h, pt, packetId);
    case Duplicate => KnownTextKeeps(cr, s, slot, h, pt, packetId);
    case Stale =>
      WindowKeeps(s, s.(replayDrops := SatInc(s.replayDrops)), slot);
      IgnoredKept(s, s.(replayDrops := SatInc(s.replayDrops)));
  }

  lemma IgnoredKept(s: State, t: State)
    requires OpSame(s, t) && t.pendingSend == s.pendingSend
    ensures FrameKept(s, Step(t, NOTHING))
  {}

  lemma NewTextKeeps(cr: Crypto, s: State, slot: nat, h: Header, pt: bytes, packetId: u32)
    requires slot < MAX_CONTACTS && h.epoch in s.contacts[slot].winEpochs && 1 <= |pt| <= 1 + MAX_TEXT_LEN
    requires Replay.Offer(WindowFor(s.contacts[slot], h.epoch), h.sequence).verdict == Replay.Accepted
    ensures FrameKept(s, OnData(cr, s, slot, h, pt, packetId))
  {
    hide BuildAck, Replay.Offer, Stage, OpSame, ActivationStaged, Position;
    var c := s.contacts[slot];
    var i := WindowIndex(c, h.epoch);
    var w := Replay.Offer(c.winData[i], h.sequence).window;
    var t := s.(contacts := s.contacts[slot := c.(winData := c.winData[i := w])]);
    WindowKeeps(s, t, slot);
    AckKeeps(cr, t, RxAccept, slot, h, packetId);
    KeepsLater(s, t, BuildAck(cr, Stage(t, RxAccept), slot, h, packetId).state);
  }

  lemma KnownTextKeeps(cr: Crypto, s: State, slot: nat, h: Header, pt: bytes, packetId: u32)
    requires slot < MAX_CONTACTS && h.epoch in s.contacts[slot].winEpochs && 1 <= |pt| <= 1 + MAX_TEXT_LEN
    requires Replay.Offer(WindowFor(s.contacts[slot], h.epoch), h.sequence).verdict == Replay.Duplicate
    ensures FrameKept(s, OnData(cr, s, slot, h, pt, packetId))
  {
    hide BuildAck, Replay.Offer, Stage, OpSame, ActivationStaged, Position;
    var u := s.(replayDrops := SatInc(s.replayDrops));
    WindowKeeps(s, u, slot);
    AckKeeps(cr, u, Plain, slot, h, packetId);
    KeepsLater(s, u, BuildAck(cr, Stage(u, Plain), slot, h, packetId).state);
  }

  /** Only the windows of one slot, or counters, or the relay cache. */
  lemma WindowKeeps(s: State, t: State, slot: nat)
    requires slot < MAX_CONTACTS
    requires t == s.(contacts := t.contacts, relay := t.relay, replayDrops := t.replayDrops, authFailures := t.authFailures)
    requires t.contacts == s.contacts[slot := s.contacts[slot].(winData := t.contacts[slot].winData, winAck := t.contacts[slot].winAck)]
    ensures OpSame(s, t) && t.pendingSend == s.pendingSend
  {}

  lemma AckInKeeps(s: State, slot: nat, h: Header, pt: bytes)
    requires slot < MAX_CONTACTS && h.epoch in s.contacts[slot].winEpochs && |pt| == 17
    ensures FrameKept(s, OnAck(s, slot, h, pt))
  {
    hide Replay.Offer, Stage, OpSame, Position, FromBe32, FromBe64;
    var c := s.contacts[slot];
    var i := WindowIndex(c, h.epoch);
    AckWindowKeeps(s, slot, i, Replay.Offer(c.winAck[i], h.sequence).window);
    WindowKeeps(s, s.(replayDrops := SatInc(s.replayDrops)), slot);
  }

  lemma AckWindowKeeps(s: State, slot: nat, i: nat, w: Replay.Window)
    requires slot < MAX_CONTACTS && i < 3
    ensures var c := s.contacts[slot];
            var t := Stage(s.(contacts := s.contacts[slot := c.(winAck := c.winAck[i := w])]), RxAccept);
            OpSame(s, t) && t.pendingSend == s.pendingSend
  {
    hide Stage, OpSame;
    var c := s.contacts[slot];
    var t := s.(contacts := s.contacts[slot := c.(winAck := c.winAck[i := w])]);
    WindowKeeps(s, t, slot);
    StagedKeeps(t, RxAccept);
    KeepsLater(s, t, Stage(t, RxAccept));
  }

  lemma FrameKeeps(cr: Crypto, s: State, f: bytes, now: u64, packetId: u32)
    ensures FrameKept(s, Engine.OnFrame(cr, s, f, now, packetId))
  {
    hide Frame.Decode, OnOpened, Transit, Engine.OnFrame, FrameKept;
    SameKept(s);
    if Frame.Decode(f).Err? {
      UndecodableIgnored(cr, s, f, now, packetId);
    } else {
      var slot, pt := OnFrameCases(cr, s, f, now, packetId);
      CaseKeeps(cr, s, f, now, packetId, slot, pt);
    }
  }

  lemma SameKept(s: State)
    ensures FrameKept(s, Step(s, NOTHING))
  {}

  lemma CaseKeeps(cr: Crypto, s: State, f: bytes, now: u64, packetId: u32, slot: nat, pt: bytes)
    requires Frame.Decode(f).Ok? && FrameCase(cr, s, f, now, packetId, slot, pt)
    ensures FrameKept(s, Engine.OnFrame(cr, s, f, now, packetId))
  {
    var h := Frame.Decode(f).value.header;
    hide Frame.Decode, OnOpened, Transit, Engine.OnFrame, FrameKept;
    SameKept(s);
    TransitKeeps(cr, s, s.authFailures, f, h, now);
    TransitKeeps(cr, s, SatInc(s.authFailures), f, h, now);
    if slot < MAX_CONTACTS && h.epoch in s.contacts[slot].winEpochs && BodyOk(h.flags, pt) { OpenedKeeps(cr, s, slot, h, pt, packetId); }
  }

  lemma TransitKeeps(cr: Crypto, s: State, failures: u32, f: bytes, h: Header, now: u64)
    requires |f| >= 30
    ensures FrameKept(s, Transit(cr, s.(authFailures := failures), f, h, now))
  {
    hide Transit;
    TransitFields(cr, s.(authFailures := failures), f, h, now);
  }

  lemma OpenedKeeps(cr: Crypto, s: State, slot: nat, h: Header, pt: bytes, packetId: u32)
    requires slot < MAX_CONTACTS && h.epoch in s.contacts[slot].winEpochs && BodyOk(h.flags, pt)
    ensures FrameKept(s, OnOpened(cr, s, slot, h, pt, packetId))
  {
    hide OnData, OnAck, FrameKept;
    if pt[0] == BODY_DATA { DataKeeps(cr, s, slot, h, pt, packetId); } else { AckInKeeps(s, slot, h, pt); }
  }

  /** A text held back belongs to a slot in use. */
  lemma TakenPresent(cr: Crypto, s: State, f: bytes, now: u64, packetId: u32)
    ensures var r := Engine.OnFrame(cr, s, f, now, packetId);
            var h := HeldAfter(cr, s, f, packetId, r.result);
            h.taken.Some? ==> RootPresent(r.state.contacts, h.taken.value.root)
  {
    hide Frame.Decode, OnOpened, Transit, Engine.OnFrame, AckRec;
    var r := Engine.OnFrame(cr, s, f, now, packetId);
    FrameKeeps(cr, s, f, now, packetId);
    if HeldAfter(cr, s, f, packetId, r.result).taken.Some? {
      var slot, pt := OnFrameCases(cr, s, f, now, packetId);
      DeliveredSlot(cr, s, f, now, packetId, slot, pt);
      assert r.state.contacts[slot].present;
    }
  }

  lemma DeliveredSlot(cr: Crypto, s: State, f: bytes, now: u64, packetId: u32, slot: nat, pt: bytes)
    requires Frame.Decode(f).Ok? && FrameCase(cr, s, f, now, packetId, slot, pt)
    requires Engine.OnFrame(cr, s, f, now, packetId).result.kind.Deliver?
    ensures slot < MAX_CONTACTS && s.contacts[slot].present && Engine.OnFrame(cr, s, f, now, packetId).result.kind.contactId == slot + 1
  {
    var h := Frame.Decode(f).value.header;
    TransitFields(cr, s, f, h, now);
    TransitFields(cr, s.(authFailures := SatInc(s.authFailures)), f, h, now);
    hide Frame.Decode, Transit, Engine.OnFrame, BodyOk, OnOpened;
    OpenedAt(cr, s, slot, h, pt, packetId);
  }

  lemma OpenedAt(cr: Crypto, s: State, slot: nat, h: Header, pt: bytes, packetId: u32)
    requires slot < MAX_CONTACTS && h.epoch in s.contacts[slot].winEpochs && BodyOk(h.flags, pt)
    ensures var k := OnOpened(cr, s, slot, h, pt, packetId).result.kind; k.Deliver? ==> k.contactId == slot + 1
  {
    hide BuildAck, Replay.Offer;
  }

  // ---- pairing ----

  function PairRam(cr: Crypto, s: State, a: Action): State
    requires Pairs(a)
  {
    match a
    case PairOffer(ephPriv, challenge) => Ceremony.PairOffer(cr, s, ephPriv, cr.pub(ephPriv), challenge).state
    case PairImport(record, replace, sasMatch) => Ceremony.Import(cr, s, record, replace, sasMatch).state
    case PairProof => Ceremony.PairProof(cr, s).state
    case PairConfirm => Ceremony.PairConfirm(cr, s).state
  }

  lemma PairApply(cr: Crypto, n: Node, a: Action)
    requires Pairs(a)
    ensures var m := Apply(cr, n, a); m == n.(ram := m.ram, logs := m.logs) && m.ram == PairRam(cr, n.ram, a)
  {
    hide Ceremony.PairOffer, Ceremony.Import, Ceremony.PairProof, Ceremony.PairConfirm, Activation, OwnOffer;
  }

  /** Exports and offers change the attempt alone. */
  lemma ExportsOnlyAttempt(cr: Crypto, s: State)
    ensures var t := Ceremony.PairProof(cr, s).state; t == s.(attempt := t.attempt)
    ensures var t := Ceremony.PairConfirm(cr, s).state; t == s.(attempt := t.attempt)
  {
    hide Ceremony.PairProof, Ceremony.PairConfirm, Ceremony.Ready;
    if Ceremony.Ready(s).Some? { NotReady(cr, s); } else { ReadyMeans(s); Ceremony.ExportsKeepTerms(cr, s); }
  }

  lemma NotReady(cr: Crypto, s: State)
    requires Ceremony.Ready(s).Some?
    ensures Ceremony.PairProof(cr, s).state == s && Ceremony.PairConfirm(cr, s).state == s
  {
    hide Ceremony.MadeProof, Ceremony.MadeConfirm, Ceremony.Ready;
  }

  lemma ReadyMeans(s: State)
    requires Ceremony.Ready(s).None?
    ensures s.attempt.Some? && !s.fault && !s.radioOn
  {}

  lemma OfferOnlyAttempt(cr: Crypto, s: State, ephPriv: bytes32, challenge: bytes32)
    ensures var t := Ceremony.PairOffer(cr, s, ephPriv, cr.pub(ephPriv), challenge).state; t == s.(attempt := t.attempt)
  {
    Ceremony.OfferedOk(cr, s, ephPriv, challenge);
    hide Ceremony.PairOffer, Ceremony.NewAttempt;
  }
}
