/** The happy path: a begun send can be emitted, its frame opens at the peer, and the peer's ACK completes the send. */
module Delivery {
  import opened Bytes
  import opened Frame
  import opened Security
  import opened Persist
  import opened Clock
  import opened Engine
  import opened ContactLog
  import opened Node
  import opened NodeFrames
  import opened Ceremony
  import Replay
  import Utf8

  /** A frame sealed at one end decodes and opens at the other, for any hour that end retains. */
  lemma SealedFrameOpens(cr: Crypto, c: Contact, a: bytes8, d: Contact, b: bytes8, h: Header, pt: bytes)
    requires Sound(cr) && Ends(c, a, d, b) && h.epoch in d.winEpochs
    requires h.version == VERSION_SECURE && h.hops <= 1 && h.flags <= 1 && BodyOk(h.flags, pt)
    requires h.dst == PeerAddress(cr, c, h.epoch) && h.src == OwnAddress(cr, a, c, h.epoch)
    ensures |pt| <= 1 + MAX_TEXT_LEN && SealFrame(cr, c, h, pt).Some?
    ensures var f := SealFrame(cr, c, h, pt).value;
            && Frame.Decode(f).Ok? && Frame.Decode(f).value.header == h && |Frame.Decode(f).value.body| <= MAX_BODY_LEN
            && TrySlot(cr, b, d, h, Frame.Decode(f).value.body) == Opened(pt)
  {
    hide Frame.Decode, Encoded, Nonce, FrameAad, SendKey, BodyOk;
    assert |pt| <= 1 + MAX_TEXT_LEN by { ShortBody(h.flags, pt); }
    var aad := FrameAad(h, |pt| + TAG_LEN);
    var body := cr.seal(OutgoingKey(cr, c, h.epoch), Nonce(h.epoch, h.sequence), aad, pt);
    EndsMeet(cr, c, a, d, b, h.epoch);
    Frame.DecodeEncoded(h, body);
  }

  lemma ShortBody(flags: byte, pt: bytes)
    requires BodyOk(flags, pt)
    ensures 1 <= |pt| <= 1 + MAX_TEXT_LEN
  {}

  /** A begun send whose reservation is committed is emitted: the number is still at hand and reserved. */
  lemma BegunSendEmits(cr: Crypto, s: State, contactId: byte, text: bytes, packetId: u32)
    requires Sound(cr) && Engine.SendBegin(s, contactId, text, packetId).result.Ok?
    ensures Engine.SendEmit(cr, Engine.CommitOk(Engine.SendBegin(s, contactId, text, packetId).state)).result.Ok?
  {
    hide Engine.SendBegin, Engine.CommitOk, Engine.SendEmit, Sound;
    BegunState(s, contactId, text, packetId);
    ReadyToEmit(cr, Engine.CommitOk(Engine.SendBegin(s, contactId, text, packetId).state));
  }

  lemma ReadyToEmit(cr: Crypto, u: State)
    requires Sound(cr) && !u.dirty && u.pendingSend.Some? && |u.pendingText| <= MAX_TEXT_LEN
    requires var ps := u.pendingSend.value;
             && SlotOf(u, ps.contactId) == Ok(ps.contactId - 1)
             && var c := u.contacts[ps.contactId - 1]; ps.sequence == c.txNext < c.txReserved && ps.epoch >= c.txEpochMax
    ensures Engine.SendEmit(cr, u).result.Ok?
  {
    hide SealFrame, Stage, Sound;
    var ps, c := u.pendingSend.value, u.contacts[u.pendingSend.value.contactId - 1];
    FitsFrame(cr, c, DataHeader(cr, u.uid, c, ps.epoch, ps.sequence, ps.packetId), DataBody(u.pendingText));
  }

  lemma FitsFrame(cr: Crypto, c: Contact, h: Header, pt: bytes)
    requires Sound(cr) && |pt| <= 1 + MAX_TEXT_LEN
    ensures SealFrame(cr, c, h, pt).Some?
  {
    hide Encoded;
  }

  /** After the commit: the pending send stands, its number is next and lies inside the reservation. */
  lemma BegunState(s: State, contactId: byte, text: bytes, packetId: u32)
    requires Engine.SendBegin(s, contactId, text, packetId).result.Ok?
    ensures var u := Engine.CommitOk(Engine.SendBegin(s, contactId, text, packetId).state);
            && !u.dirty && SlotOf(u, contactId) == Ok(contactId - 1) && u.pendingText == text && |text| <= MAX_TEXT_LEN
            && u.pendingSend == Some(Engine.SendBegin(s, contactId, text, packetId).result.value)
            && Engine.SendBegin(s, contactId, text, packetId).state.pendingSend == u.pendingSend
            && var (c, ps) := (u.contacts[contactId - 1], u.pendingSend.value);
               && ps.contactId == contactId && ps.sequence == c.txNext < c.txReserved && ps.epoch >= c.txEpochMax && ps.packetId == packetId
  {
    hide Stage, EpochOf, Utf8.Valid, StagedContacts, Engine.CommitOk;
    var t := Engine.SendBegin(s, contactId, text, packetId).state;
    CommitReserves(t, s.contacts[contactId - 1], contactId - 1);
  }

  /** What a commit makes of the slot whose number was asked for. */
  lemma CommitReserves(t: State, c: Contact, slot: nat)
    requires slot < MAX_CONTACTS && t.contacts[slot] == c && CanReserve(c) && t.staged == Some(ReserveOp(c, slot, Plain))
    ensures var u := Engine.CommitOk(t);
            && !u.dirty && u.pendingSend == t.pendingSend && u.pendingText == t.pendingText
            && var d := u.contacts[slot]; d == c.(txReserved := d.txReserved) && d.txNext < d.txReserved
  {}

  // ---- one exchange ----

  /** The DATA frame of `a`'s pending send opens at `b`. */
  lemma DataOpens(cr: Crypto, c: Contact, a: bytes8, d: Contact, b: bytes8, ps: PendingSend, text: bytes)
    requires Sound(cr) && Ends(c, a, d, b) && ps.epoch in d.winEpochs && TextOk(text)
    ensures var h := DataHeader(cr, a, c, ps.epoch, ps.sequence, ps.packetId);
            var f := SealFrame(cr, c, h, DataBody(text));
            && f.Some? && Frame.Decode(f.value).Ok? && Frame.Decode(f.value).value.header == h
            && |Frame.Decode(f.value).value.body| <= MAX_BODY_LEN
            && TrySlot(cr, b, d, h, Frame.Decode(f.value).value.body) == Opened(DataBody(text))
  {
    var h := DataHeader(cr, a, c, ps.epoch, ps.sequence, ps.packetId);
    assert DataBody(text)[1..] == text;
    assert BodyOk(h.flags, DataBody(text));
    hide Frame.Decode, SealFrame, TrySlot, BodyOk;
    SealedFrameOpens(cr, c, a, d, b, h, DataBody(text));
  }

  // ---- the receive path, from the frame to the reaction ----

  /** `b` listens, takes frames of this hour, and slot `j` is the first that opens the frame. */
  predicate Hears(cr: Crypto, b: State, j: nat, f: bytes) {
    && Listening(b) && j < MAX_CONTACTS && !b.contacts[j].blocked
    && Frame.Decode(f).Ok?
    && var d := Frame.Decode(f).value;
       && |d.body| <= MAX_BODY_LEN && d.header.version == VERSION_SECURE && InAcceptWindow(d.header.epoch, EpochOf(b))
       && forall m :: 0 <= m < j ==> !TrySlot(cr, b.uid, b.contacts[m], d.header, d.body).Opened?
  }

  lemma {:induction false} FirstIs(cr: Crypto, b: State, h: Header, body: bytes, j: nat, i: nat)
    requires |body| <= MAX_BODY_LEN && i <= j < MAX_CONTACTS && TrySlot(cr, b.uid, b.contacts[j], h, body).Opened?
    requires forall m :: i <= m < j ==> !TrySlot(cr, b.uid, b.contacts[m], h, body).Opened?
    ensures FirstOpened(cr, b, h, body, i) == Some(j)
    decreases j - i
  {
    hide TrySlot;
    if i < j { FirstIs(cr, b, h, body, j, i + 1); }
  }

  /** A frame that is heard and opened goes to its slot. */
  lemma HeardFrame(cr: Crypto, b: State, j: nat, f: bytes, pt: bytes, now: u64, packetId: u32)
    requires Hears(cr, b, j, f)
    requires var d := Frame.Decode(f).value; TrySlot(cr, b.uid, b.contacts[j], d.header, d.body) == Opened(pt)
    ensures var h := Frame.Decode(f).value.header;
            && h.epoch in b.contacts[j].winEpochs && BodyOk(h.flags, pt)
            && Engine.OnFrame(cr, b, f, now, packetId) == OnOpened(cr, b, j, h, pt, packetId)
  {
    hide TrySlot, OnOpened, Frame.Decode, BodyOk, EpochOf, InAcceptWindow;
    var d := Frame.Decode(f).value;
    OpenedFacts(cr, b.uid, b.contacts[j], d.header, d.body);
    FirstIs(cr, b, d.header, d.body, j, 0);
    hide FirstOpened;
  }

  // ---- one exchange ----

  /** What the receiver needs to take a text as new and to answer it. */
  predicate TakesNew(b: State, j: nat, ps: PendingSend) {
    && j < MAX_CONTACTS && b.timeValid && CanReserve(b.contacts[j]) && ps.epoch in b.contacts[j].winEpochs
    && !Replay.Covered(WindowFor(b.contacts[j], ps.epoch), ps.sequence)
  }

  /** The frame of a pending send, heard at the other end: the text is delivered as sent, with an ACK to go back. */
  lemma TextArrives(cr: Crypto, a: State, i: nat, b: State, j: nat, ps: PendingSend, f: bytes, now: u64, packetId: u32)
    requires Sound(cr) && i < MAX_CONTACTS && TakesNew(b, j, ps) && Ends(a.contacts[i], a.uid, b.contacts[j], b.uid)
    requires TextOk(a.pendingText) && PendingFrame(cr, a, ps, i) == Some(f) && Hears(cr, b, j, f)
    ensures var (h, r) := (DataHeader(cr, a.uid, a.contacts[i], ps.epoch, ps.sequence, ps.packetId), Engine.OnFrame(cr, b, f, now, packetId));
            && r == OnData(cr, b, j, h, DataBody(a.pendingText), packetId)
            && r.result.kind == Deliver(j + 1, |a.pendingText|)
            && r.result.event == Some(Received(j + 1, ps.epoch, ps.sequence, a.pendingText))
            && AckFrame(cr, b.uid, b.contacts[j], EpochOf(b), h, packetId).Some?
            && r.result.out == Some(Outgoing(AckFrame(cr, b.uid, b.contacts[j], EpochOf(b), h, packetId).value, Some(j + 1), true, false))
  {
    hide Replay.Covered, Replay.Offer, Frame.Decode, BuildAck, TrySlot, AckFrame, SealFrame, EpochOf, Sound, Ends, OnData, Engine.OnFrame, TextOk,
      Hears;
    var (c, text) := (a.contacts[i], a.pendingText);
    var h := DataHeader(cr, a.uid, c, ps.epoch, ps.sequence, ps.packetId);
    TextFits(text);
    DataOpens(cr, c, a.uid, b.contacts[j], b.uid, ps, text);
    HeardFrame(cr, b, j, f, DataBody(text), now, packetId);
    TextIsNew(cr, b, j, h, text, packetId);
    AckIsBuilt(cr, b, j, h, text, packetId);
    AckFits(cr, b, j, h, packetId);
  }

  lemma TextFits(text: bytes)
    requires TextOk(text)
    ensures 1 <= |text| <= MAX_TEXT_LEN
  {}

  lemma AckFits(cr: Crypto, b: State, j: nat, h: Header, packetId: u32)
    requires Sound(cr) && j < MAX_CONTACTS
    ensures AckFrame(cr, b.uid, b.contacts[j], EpochOf(b), h, packetId).Some?
  {
    hide SealFrame, EpochOf, Sound;
    var c := b.contacts[j];
    FitsFrame(cr, c, AckHeader(cr, b.uid, c, EpochOf(b), c.txNext, packetId), AckBody(h.epoch, h.sequence, h.packetId));
  }

  /** The verdict and the event. */
  lemma TextIsNew(cr: Crypto, b: State, j: nat, h: Header, text: bytes, packetId: u32)
    requires j < MAX_CONTACTS && h.epoch in b.contacts[j].winEpochs && TextOk(text)
    requires !Replay.Covered(WindowFor(b.contacts[j], h.epoch), h.sequence)
    ensures var r := OnData(cr, b, j, h, DataBody(text), packetId).result;
            r.kind == Deliver(j + 1, |text|) && r.event == Some(Received(j + 1, h.epoch, h.sequence, text))
  {
    Replay.AcceptedIffUncovered(WindowFor(b.contacts[j], h.epoch), h.sequence);
    assert DataBody(text)[1..] == text;
    hide Replay.Offer, Replay.Covered, BuildAck, Stage, Position;
  }

  /** The ACK that goes back. */
  lemma AckIsBuilt(cr: Crypto, b: State, j: nat, h: Header, text: bytes, packetId: u32)
    requires j < MAX_CONTACTS && h.epoch in b.contacts[j].winEpochs && TextOk(text)
    requires !Replay.Covered(WindowFor(b.contacts[j], h.epoch), h.sequence)
    requires b.timeValid && CanReserve(b.contacts[j])
    ensures var r := OnData(cr, b, j, h, DataBody(text), packetId).result;
            var f := AckFrame(cr, b.uid, b.contacts[j], EpochOf(b), h, packetId);
            if f.Some? then r.out == Some(Outgoing(f.value, Some(j + 1), true, false)) else r.out.None?
  {
    var c := b.contacts[j];
    Replay.AcceptedIffUncovered(WindowFor(c, h.epoch), h.sequence);
    hide Replay.Offer, Replay.Covered, BuildAck, EpochOf, AckFrame, Position, Stage, CanReserve, TextOk;
    var i := WindowIndex(c, h.epoch);
    var c' := c.(winData := c.winData[i := Replay.Offer(c.winData[i], h.sequence).window]);
    var t := b.(contacts := b.contacts[j := c']);
    AckOfMarked(cr, t, b, j, c', h, packetId);
  }

  /** Marking a number changes nothing about the ACK. */
  lemma AckOfMarked(cr: Crypto, t: State, b: State, j: nat, c': Contact, h: Header, packetId: u32)
    requires j < MAX_CONTACTS && c' == b.contacts[j].(winData := c'.winData) && t == b.(contacts := b.contacts[j := c'])
    requires b.timeValid && CanReserve(b.contacts[j])
    ensures var r := BuildAck(cr, Stage(t, RxAccept), j, h, packetId).result;
            var f := AckFrame(cr, b.uid, b.contacts[j], EpochOf(b), h, packetId);
            if f.Some? then r == Some(Outgoing(f.value, Some(j + 1), true, false)) else r.None?
  {
    hide BuildAck, AckFrame, Stage, EpochOf;
    BuildAckIs(cr, t, RxAccept, j, h, packetId);
    AckIgnoresWindows(cr, b.uid, b.contacts[j], c', EpochOf(b), h, packetId);
    SameHour(b, t);
  }

  lemma AckIgnoresWindows(cr: Crypto, uid: bytes8, c: Contact, d: Contact, epoch: u32, h: Header, packetId: u32)
    requires d == c.(winData := d.winData)
    ensures AckFrame(cr, uid, c, epoch, h, packetId) == AckFrame(cr, uid, d, epoch, h, packetId)
  {}

  lemma AckOpens(cr: Crypto, a: State, i: nat, b: State, j: nat, h: Header, packetId: u32)
    requires Sound(cr) && i < MAX_CONTACTS && j < MAX_CONTACTS && Ends(a.contacts[i], a.uid, b.contacts[j], b.uid)
    requires EpochOf(b) in a.contacts[i].winEpochs
    ensures var f := AckFrame(cr, b.uid, b.contacts[j], EpochOf(b), h, packetId);
            && f.Some? && Frame.Decode(f.value).Ok?
            && var d := Frame.Decode(f.value).value;
               && d.header.epoch == EpochOf(b) && d.header.sequence == b.contacts[j].txNext && |d.body| <= MAX_BODY_LEN
               && TrySlot(cr, a.uid, a.contacts[i], d.header, d.body) == Opened(AckBody(h.epoch, h.sequence, h.packetId))
  {
    var c := b.contacts[j];
    var k := AckHeader(cr, b.uid, c, EpochOf(b), c.txNext, packetId);
    assert BodyOk(k.flags, AckBody(h.epoch, h.sequence, h.packetId));
    hide Frame.Decode, SealFrame, TrySlot, BodyOk, AckBody, EpochOf, Sound;
    SealedFrameOpens(cr, c, b.uid, a.contacts[i], a.uid, k, AckBody(h.epoch, h.sequence, h.packetId));
  }

  lemma AckCompletes(a: State, i: nat, h: Header, ps: PendingSend)
    requires i < MAX_CONTACTS && h.epoch in a.contacts[i].winEpochs && a.pendingSend == Some(ps) && ps.contactId == i + 1
    requires var w := a.contacts[i]; !Replay.Covered(w.winAck[WindowIndex(w, h.epoch)], h.sequence)
    ensures var r := OnAck(a, i, h, AckBody(ps.epoch, ps.sequence, ps.packetId)).result;
            r.kind == Ack(i + 1) && r.event == Some(SendAcked(i + 1, ps.epoch, ps.sequence, ps.packetId))
  {
    var c := a.contacts[i];
    Replay.AcceptedIffUncovered(c.winAck[WindowIndex(c, h.epoch)], h.sequence);
    AckFields(ps.epoch, ps.sequence, ps.packetId);
    hide Replay.Offer, Replay.Covered, AckBody, FromBe32, FromBe64, Position;
  }

  lemma AckFields(e: u32, s: u64, p: u32)
    ensures var b := AckBody(e, s, p); FromBe32(b[1..5]) == e && FromBe64(b[5..13]) == s && FromBe32(b[13..17]) == p
  {
    hide Be32, Be64, FromBe32, FromBe64;
    var b := AckBody(e, s, p);
    assert b[1..5] == Be32(e) && b[5..13] == Be64(s) && b[13..17] == Be32(p);
    Be32Inverse(e);
    Be64Inverse(s);
    Be32Inverse(p);
  }

  /** The ACK of the pending send, heard back at the sender, completes exactly that send. */
  lemma AckArrives(cr: Crypto, a: State, i: nat, b: State, j: nat, ps: PendingSend, f: bytes, now: u64, packetId: u32, other: u32)
    requires Sound(cr) && i < MAX_CONTACTS && j < MAX_CONTACTS && Ends(a.contacts[i], a.uid, b.contacts[j], b.uid)
    requires a.pendingSend == Some(ps) && ps.contactId == i + 1 && EpochOf(b) in a.contacts[i].winEpochs
    requires var w := a.contacts[i]; !Replay.Covered(w.winAck[WindowIndex(w, EpochOf(b))], b.contacts[j].txNext)
    requires var h := DataHeader(cr, a.uid, a.contacts[i], ps.epoch, ps.sequence, ps.packetId);
             AckFrame(cr, b.uid, b.contacts[j], EpochOf(b), h, packetId) == Some(f)
    requires Hears(cr, a, i, f)
    ensures var r := Engine.OnFrame(cr, a, f, now, other).result;
            r.kind == Ack(i + 1) && r.event == Some(SendAcked(i + 1, ps.epoch, ps.sequence, ps.packetId))
  {
    hide Replay.Covered, Frame.Decode, TrySlot, AckFrame, SealFrame, OnAck, EpochOf, Sound, Ends, AckBody, Engine.OnFrame, Hears;
    var h := DataHeader(cr, a.uid, a.contacts[i], ps.epoch, ps.sequence, ps.packetId);
    AckOpens(cr, a, i, b, j, h, packetId);
    HeardFrame(cr, a, i, f, AckBody(ps.epoch, ps.sequence, ps.packetId), now, other);
    AckIsNoData(ps);
    AckCompletes(a, i, Frame.Decode(f).value.header, ps);
  }

  lemma AckIsNoData(ps: PendingSend)
    ensures AckBody(ps.epoch, ps.sequence, ps.packetId)[0] != BODY_DATA
  {}

  /** From emission to completion. A send is emitted and committed; its frame is heard at the other end, where the text
      is new: it is delivered as sent. The ACK, heard back at the sender, completes exactly that send. */
  lemma ExchangeCompletes(cr: Crypto, u: State, i: nat, b: State, j: nat, nowB: u64, nowA: u64, packetId: u32, other: u32)
    requires Sound(cr) && i < MAX_CONTACTS && j < MAX_CONTACTS
    requires Engine.SendEmit(cr, u).result.Ok? && u.pendingSend.Some? && u.pendingSend.value.contactId == i + 1
    requires TextOk(u.pendingText) && Ends(u.contacts[i], u.uid, b.contacts[j], b.uid) && TakesNew(b, j, u.pendingSend.value)
    requires var a := Engine.CommitOk(Engine.SendEmit(cr, u).state);
             && Hears(cr, b, j, Engine.SendEmit(cr, u).result.value.frame)
             && EpochOf(b) in a.contacts[i].winEpochs
             && !Replay.Covered(a.contacts[i].winAck[WindowIndex(a.contacts[i], EpochOf(b))], b.contacts[j].txNext)
             && var out := Engine.OnFrame(cr, b, Engine.SendEmit(cr, u).result.value.frame, nowB, packetId).result.out;
                out.Some? ==> Hears(cr, a, i, out.value.frame)
    ensures var (a, ps) := (Engine.CommitOk(Engine.SendEmit(cr, u).state), u.pendingSend.value);
            var rb := Engine.OnFrame(cr, b, Engine.SendEmit(cr, u).result.value.frame, nowB, packetId).result;
            && rb.event == Some(Received(j + 1, ps.epoch, ps.sequence, u.pendingText)) && rb.out.Some?
            && var ra := Engine.OnFrame(cr, a, rb.out.value.frame, nowA, other).result;
               ra.kind == Ack(i + 1) && ra.event == Some(SendAcked(i + 1, ps.epoch, ps.sequence, ps.packetId))
  {
    hide Engine.SendEmit, Engine.CommitOk, Engine.OnFrame, Hears, Ends, TakesNew, TextOk, Sound, EpochOf, Replay.Covered, AckFrame, PendingFrame,
      OnData;
    var a, ps, f := Engine.CommitOk(Engine.SendEmit(cr, u).state), u.pendingSend.value, Engine.SendEmit(cr, u).result.value.frame;
    EmittedSends(cr, u, i);
    TextArrives(cr, a, i, b, j, ps, f, nowB, packetId);
    var h := DataHeader(cr, a.uid, a.contacts[i], ps.epoch, ps.sequence, ps.packetId);
    AckArrives(cr, a, i, b, j, ps, AckFrame(cr, b.uid, b.contacts[j], EpochOf(b), h, packetId).value, nowA, packetId, other);
  }

  /** After the commit the pending send stands, and its frame is the one emitted. */
  lemma EmittedSends(cr: Crypto, u: State, i: nat)
    requires i < MAX_CONTACTS && Engine.SendEmit(cr, u).result.Ok? && u.pendingSend.Some? && u.pendingSend.value.contactId == i + 1
    ensures var a := Engine.CommitOk(Engine.SendEmit(cr, u).state);
            && a.pendingSend == u.pendingSend && a.pendingText == u.pendingText && a.uid == u.uid
            && PendingFrame(cr, a, u.pendingSend.value, i) == Some(Engine.SendEmit(cr, u).result.value.frame)
            && (forall d, b :: Ends(u.contacts[i], u.uid, d, b) ==> Ends(a.contacts[i], a.uid, d, b))
  {
    EmitIs(cr, u);
    EmitsPending(cr, u, i);
    hide Engine.SendEmit, PendingFrame;
    var ps := u.pendingSend.value;
    var v := Consume(u, i, ps.epoch);
    CommittedStage(v);
    PendingFrameSame(cr, u, Engine.CommitOk(Stage(v, Plain)), ps, i);
  }

  lemma EmitsPending(cr: Crypto, u: State, i: nat)
    requires i < MAX_CONTACTS && Engine.SendEmit(cr, u).result.Ok? && u.pendingSend.Some? && u.pendingSend.value.contactId == i + 1
    ensures PendingFrame(cr, u, u.pendingSend.value, i) == Some(Engine.SendEmit(cr, u).result.value.frame)
  {
    hide PendingFrame, Stage, Consume;
  }

  lemma CommittedStage(v: State)
    ensures var a := Engine.CommitOk(Stage(v, Plain));
            a.contacts == v.contacts && a.pendingSend == v.pendingSend && a.pendingText == v.pendingText && a.uid == v.uid
  {}

  lemma PendingFrameSame(cr: Crypto, u: State, a: State, ps: PendingSend, i: nat)
    requires i < MAX_CONTACTS && a.pendingText == u.pendingText && a.uid == u.uid
    requires var (c, d) := (u.contacts[i], a.contacts[i]); d == c.(txNext := d.txNext, txEpochMax := d.txEpochMax)
    ensures PendingFrame(cr, a, ps, i) == PendingFrame(cr, u, ps, i)
  {}

  // ---- cancelling ----

  /** Deleting or blocking a contact ends exactly the send that goes to it, and touches no other slot. */
  lemma CancelsExactlyItsSend(s: State, contactId: byte, i: nat)
    requires i < MAX_CONTACTS && i + 1 != contactId
    ensures var r := Engine.DeleteContact(s, contactId);
            r.result.None? ==> r.state.contacts[i] == s.contacts[i] && r.state.pendingSend == KeptPending(s.pendingSend, contactId)
    ensures var r := Engine.SetBlocked(s, contactId, true);
            r.result.Ok? ==> r.state.contacts[i] == s.contacts[i] && r.state.pendingSend == KeptPending(s.pendingSend, contactId)
                             && (r.result.value.CancelledSend? <==> r.state.pendingSend != s.pendingSend)
  {
    hide Stage;
  }
}
