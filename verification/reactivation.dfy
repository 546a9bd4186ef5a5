/** Another operation staged over an activation leaves the pairing attempt alive; importing the confirmation again then
    repeats nonces: a concrete run. */
module Reactivation {
  import opened Bytes
  import opened Security
  import opened Persist
  import opened Clock
  import opened Engine
  import opened ContactLog
  import opened Node
  import opened NodeFrames
  import opened StaleCommit
  import Ceremony
  import Delivery
  import NodePairing
  import Records
  import Utf8

  const E: Exemption := Revivals

  // ---- the radio switch ----

  /** Switching the radio; off also ends the pending send. */
  lemma Switches(n: Node, on: bool)
    requires Reaches(E, n) && Quiet(n) && n.usb.None? && !n.ram.fault && n.ram.radioAvailable
    ensures var (m, s) := (Done2(n, Action.SetRadio(on)), n.ram);
            && Reaches(E, m) && m == n.(ram := m.ram, durable := m.durable)
            && m.ram == Settled(if on then s.(radioOn := true) else s.(radioOn := false, pendingSend := None, armedNextBoot := false), Plain)
  {
    hide Reaches, AllowedBut, Stage, Settled;
    var t := if on then n.ram.(radioOn := true) else n.ram.(radioOn := false, pendingSend := None, armedNextBoot := false);
    SwitchFree(n, on);
    SwitchIs(n, on);
    StagesDirty(t, Plain);
    CommittedPlain(t, Plain);
    hide Apply;
    GoesAndCommits(E, n, Action.SetRadio(on));
  }

  lemma SwitchFree(n: Node, on: bool)
    requires Quiet(n)
    ensures AllowedBut(E, n, Action.SetRadio(on))
  {}

  lemma SwitchIs(n: Node, on: bool)
    requires !n.ram.fault && n.ram.radioAvailable
    ensures Apply(TOY, n, Action.SetRadio(on)) ==
            n.(ram := Stage(if on then n.ram.(radioOn := true) else n.ram.(radioOn := false, pendingSend := None, armedNextBoot := false), Plain))
  {
    hide Stage;
  }

  // ---- one send ----

  /** A slot that has used no number yet. */
  predicate Unused(c: Contact) { c.present && !c.blocked && c.txNext == 0 == c.txReserved && c.txEpochMax <= 100 }

  /** At rest, on time, with the radio on. */
  predicate OnAirReady(n: Node, c: Contact) { Rest(n, c) && OnTime(n.ram) && n.ram.radioOn && Unused(c) }

  function Ps(): PendingSend { PendingSend(1, 100, 0, 9) }

  /** The state after `send_begin` and its commit. */
  function Begun(s: State, c: Contact, text: bytes): State {
    s.(contacts := OneContact(c.(txReserved := 32)), pendingText := text, pendingSend := Some(Ps()), scratch := Begin(s, text).scratch)
  }

  function Begin(s: State, text: bytes): State { Engine.SendBegin(s, 1, text, 9).state }

  lemma BeginsSend(s: State, c: Contact, text: bytes)
    requires s.provisioned && !s.fault && OnTime(s) && s.contacts == OneContact(c) && Unused(c) && s.pendingSend.None? && TextOk(text)
    requires s.staged.None? && !s.dirty
    ensures Engine.SendBegin(s, 1, text, 9).result == Ok(Ps()) && CommitOk(Begin(s, text)) == Begun(s, c, text) && Begin(s, text).dirty
  {
    assert EpochOfUnix(SECONDS) == Some(100);
    OneOf(c);
    hide OneContact, Utf8.Valid;
    assert WithReserve(s.contacts, 0, 32) == s.contacts[0 := c.(txReserved := 32)];
  }

  /** The state after `send_emit` and its commit. */
  function Emitted(u: State, c: Contact): State {
    var d := c.(txNext := 1, txReserved := 32, txEpochMax := 100);
    u.(contacts := OneContact(d), persistedTxEpoch := 100, scratch := Engine.SendEmit(TOY, u).state.scratch)
  }

  lemma EmitsSend(s: State, c: Contact, text: bytes)
    requires s.contacts == OneContact(c) && Unused(c) && s.persistedTxEpoch <= 100 && !s.dirty && s.staged.None? && TextOk(text)
    requires Engine.SendEmit(TOY, Begun(s, c, text)).result.Ok?
    ensures var u := Begun(s, c, text);
            CommitOk(Engine.SendEmit(TOY, u).state) == Emitted(u, c) && Engine.SendEmit(TOY, u).state.dirty
  {
    var u := Begun(s, c, text);
    EmitIs(TOY, u);
    var d := c.(txReserved := 32);
    OneOf(d);
    hide Engine.SendEmit, OneContact;
    assert SlotOf(u, 1) == Ok(0);
    var v := Consume(u, 0, 100);
    assert v.contacts == OneContact(d.(txNext := 1, txEpochMax := 100));
    StagesDirty(v, Plain);
    CommittedPlain(v, Plain);
  }

  /** The frame of the send: number 0 of hour 100, with this text. */
  predicate FirstFrame(r: Rec, c: Contact, text: bytes) {
    r.root == c.root && r.role == c.role && r.header.epoch == 100 && r.header.sequence == 0 && r.plaintext == DataBody(text) && IsData(r)
  }

  lemma PendingFirst(u: State, c: Contact, text: bytes)
    requires u.pendingSend == Some(Ps()) && u.pendingText == text && TextOk(text) && u.contacts == OneContact(c) && c.present
    requires PendingRec(TOY, u).Some?
    ensures FirstFrame(PendingRec(TOY, u).value, c, text)
  {
    hide SealFrame;
    OneOf(c);
    assert SlotOf(u, 1) == Ok(0);
  }

  lemma SendsOne(n: Node, c: Contact, text: bytes) returns (m: Node, r: Rec)
    requires Reaches(E, n) && OnAirReady(n, c) && TextOk(text)
    ensures Reaches(E, m) && FirstFrame(r, c, text) && m.logs == n.logs.(air := n.logs.air + [r])
    ensures m == n.(ram := m.ram, durable := m.durable, logs := m.logs, inflight := true)
    ensures m.ram == Emitted(Begun(n.ram, c, text), c)
  {
    hide Reaches, Engine.SendBegin, Engine.SendEmit, OneContact, Begun, Emitted, TextOk;
    var s, u := n.ram, Begun(n.ram, c, text);
    BeginsSend(s, c, text);
    var n1 := BeginsAtNode(n, c, text);
    ToyIsCorrect();
    Delivery.BegunSendEmits(TOY, s, 1, text, 9);
    EmitsSend(s, c, text);
    BegunFields(s, c, text);
    m, r := EmitsAtNode(n1, c.(txReserved := 32), text);
  }

  lemma BegunFields(s: State, c: Contact, text: bytes)
    requires !s.dirty && s.staged.None?
    ensures var u := Begun(s, c, text);
            && u.pendingSend == Some(Ps()) && u.pendingText == text && u.contacts == OneContact(c.(txReserved := 32))
            && !u.dirty && u.staged.None?
  {
    hide OneContact, Begin;
  }

  lemma BeginsAtNode(n: Node, c: Contact, text: bytes) returns (m: Node)
    requires Reaches(E, n) && OnAirReady(n, c) && CommitOk(Begin(n.ram, text)) == Begun(n.ram, c, text) && Begin(n.ram, text).dirty
    ensures Reaches(E, m) && m == n.(ram := Begun(n.ram, c, text), durable := m.durable)
  {
    hide Reaches, AllowedBut, Begun, OneContact;
    var a := Action.SendBegin(1, text, 9);
    BeginFree(n, c, a);
    Goes(E, n, a);
    BeginIs(n, text);
    hide Apply, Engine.SendBegin, Begin;
    CommitGoes(E, Apply(TOY, n, a));
    Goes(E, Apply(TOY, n, a), Commit(OK));
    CommitsQuiet(Apply(TOY, n, a));
    m := Apply(TOY, Apply(TOY, n, a), Commit(OK));
  }

  lemma BeginFree(n: Node, c: Contact, a: Action)
    requires OnAirReady(n, c) && a.SendBegin?
    ensures AllowedBut(E, n, a)
  {
    hide OneContact;
  }

  lemma BeginIs(n: Node, text: bytes)
    ensures Apply(TOY, n, Action.SendBegin(1, text, 9)) == n.(ram := Begin(n.ram, text))
  {
    hide Engine.SendBegin;
  }

  lemma EmitsAtNode(n: Node, d: Contact, text: bytes) returns (m: Node, r: Rec)
    requires Reaches(E, n) && Quiet(n) && n.usb.None? && n.ram.contacts == OneContact(d) && d.present && TextOk(text)
    requires n.ram.pendingSend == Some(Ps()) && n.ram.pendingText == text
    requires Engine.SendEmit(TOY, n.ram).result.Ok? && Engine.SendEmit(TOY, n.ram).state.dirty
    ensures Reaches(E, m) && FirstFrame(r, d, text) && m.logs == n.logs.(air := n.logs.air + [r])
    ensures m == n.(ram := CommitOk(Engine.SendEmit(TOY, n.ram).state), durable := m.durable, logs := m.logs, inflight := true)
  {
    hide Reaches, AllowedBut, OneContact, TextOk, Engine.SendEmit, PendingRec;
    EmitFree(n);
    Goes(E, n, Action.SendEmit);
    EmitsRec(n);
    PendingFirst(n.ram, d, text);
    var k := Apply(TOY, n, Action.SendEmit);
    r := PendingRec(TOY, n.ram).value;
    hide Apply;
    CommitGoes(E, k);
    Goes(E, k, Commit(OK));
    CommitSends(k, r);
    m := Apply(TOY, k, Commit(OK));
  }

  lemma EmitFree(n: Node)
    requires Quiet(n)
    ensures AllowedBut(E, n, Action.SendEmit)
  {}

  lemma EmitsRec(n: Node)
    requires Engine.SendEmit(TOY, n.ram).result.Ok?
    ensures PendingRec(TOY, n.ram).Some?
    ensures Apply(TOY, n, Action.SendEmit) == n.(ram := Engine.SendEmit(TOY, n.ram).state, held := Held(PendingRec(TOY, n.ram), None))
  {
    EmitIs(TOY, n.ram);
    hide Engine.SendEmit, PendingRec;
  }

  lemma CommitSends(n: Node, r: Rec)
    requires n.held == Held(Some(r), None) && n.usb.None? && n.ram.dirty && IsData(r)
    ensures Apply(TOY, n, Commit(OK)) ==
            n.(ram := CommitOk(n.ram), durable := Some(n.ram.scratch), held := NOTHING_HELD, inflight := true,
               logs := n.logs.(air := n.logs.air + [r]))
  {
    hide CommitOk;
  }

  // ---- the confirmation comes again ----

  /** The radio goes off and the send is forgotten. */
  lemma Hushes(n: Node, c: Contact, text: bytes, sent: Node) returns (m: Node)
    requires Reaches(E, sent) && OnAirReady(n, c) && sent == n.(ram := sent.ram, durable := sent.durable, logs := sent.logs, inflight := true)
    requires sent.ram == Emitted(Begun(n.ram, c, text), c)
    ensures var d := c.(txNext := 1, txReserved := 32, txEpochMax := 100);
            && Reaches(E, m) && Rest(m, d) && OnTime(m.ram) && !m.ram.radioOn && m.logs == sent.logs && m.ram.attempt == n.ram.attempt
  {
    hide Reaches, OneContact, Begin, Engine.SendEmit, Stage;
    Switches(sent, false);
    var k := Done2(sent, Action.SetRadio(false));
    Goes(E, k, ForgetInflight) by { ForgetFree(k); }
    ForgetIs(k);
    m := Apply(TOY, k, ForgetInflight);
  }

  lemma ForgetFree(n: Node)
    ensures AllowedBut(E, n, ForgetInflight)
  {}

  lemma ForgetIs(n: Node)
    ensures Apply(TOY, n, ForgetInflight) == n.(inflight := false)
  {}

  /** What the logs know of the one activation. */
  predicate OneMade(l: Logs, att: Records.PairAttempt, c: Contact) {
    att.peerOffer.Some? && l.made == {Made(c.root, att.ownRole, att.ownOffer, att.peerOffer.value)}
  }

  lemma Reimports(n: Node, d: Contact, att: Records.PairAttempt, record: bytes) returns (m: Node, c: Contact)
    requires Reaches(E, n) && Rest(n, d) && OnTime(n.ram) && !n.ram.radioOn && n.ram.attempt == Some(att) && Repeatable(att, d, record)
    requires OneMade(n.logs, att, d)
    ensures Reaches(E, m) && Rest(m, c) && OnTime(m.ram) && !m.ram.radioOn && Newcomer(c, 100) && c.root == d.root && m.logs.air == n.logs.air
  {
    hide Reaches, OneContact, Apply, AllowedBut, Ceremony.Import, Ceremony.Confirmed, Activation, Stage, NewContact, Ceremony.PeerEd;
    c := NewContact(d.edPeer, d.peerIdentity, d.root, d.role, 100);
    NodePairing.NewContactIs(d.edPeer, d.peerIdentity, d.root, d.role, 100);
    var a := Action.PairImport(record, false, true);
    ImportsAgain(n, d, att, record);
    SecondImportLucky(n, d, att, record);
    RestHolds(n, d);
    PairGoes(E, n, a);
    ImportLogs(n, record, Made(d.root, att.ownRole, att.ownOffer, att.peerOffer.value));
    var k := Apply(TOY, n, a);
    var s := n.ram.(contacts := OneContact(c));
    StagesDirty(s, PairActivate(0));
    CommittedActivation(s, 0);
    CommitGoes(E, k);
    Goes(E, k, Commit(OK));
    CommitsQuiet(k);
    m := Apply(TOY, k, Commit(OK));
  }

  lemma RestHolds(n: Node, d: Contact)
    requires Rest(n, d)
    ensures n.held == NOTHING_HELD
  {
    hide OneContact;
  }

  /** The confirmation is still good, and activates the same root in the same slot. */
  lemma ImportsAgain(n: Node, d: Contact, att: Records.PairAttempt, record: bytes)
    requires Rest(n, d) && OnTime(n.ram) && !n.ram.radioOn && n.ram.attempt == Some(att) && Repeatable(att, d, record)
    requires OneMade(n.logs, att, d)
    ensures var c := NewContact(d.edPeer, d.peerIdentity, d.root, d.role, 100);
            Ceremony.Import(TOY, n.ram, record, false, true) ==
            Step(Stage(n.ram.(contacts := OneContact(c)), PairActivate(0)), Ok(Some(0)))
    ensures Activation(TOY, n.ram, record, false, true) == Some(Made(d.root, att.ownRole, att.ownOffer, att.peerOffer.value))
  {
    hide OneContact, Ceremony.Import, Ceremony.Confirmed, Activation, Stage, NewContact, Ceremony.PeerEd;
    assert EpochOfUnix(SECONDS) == Some(100);
    OneOf(d);
    Ceremony.ConfirmCall(TOY, n.ram, record, d.root, d.peerIdentity);
    var c := NewContact(d.edPeer, d.peerIdentity, d.root, d.role, 100);
    var fin := Stage(n.ram.(contacts := OneContact(c)), PairActivate(0));
    StaysRepeatable(att, d, c, record);
    OneOf(c);
    ActivationNow(n.ram, fin, att, c, record);
  }

  lemma StaysRepeatable(att: Records.PairAttempt, d: Contact, c: Contact, record: bytes)
    requires Repeatable(att, d, record) && c == NewContact(d.edPeer, d.peerIdentity, d.root, d.role, 100)
    ensures Repeatable(att, c, record) && c.root == d.root
  {
    hide Ceremony.Confirmed, Ceremony.PeerEd;
    NodePairing.NewContactIs(d.edPeer, d.peerIdentity, d.root, d.role, 100);
    assert c.peerIdentity == d.peerIdentity;
  }

  lemma SecondImportLucky(n: Node, d: Contact, att: Records.PairAttempt, record: bytes)
    requires OneMade(n.logs, att, d)
    requires Activation(TOY, n.ram, record, false, true) == Some(Made(d.root, att.ownRole, att.ownOffer, att.peerOffer.value))
    ensures Lucky(TOY, n, Action.PairImport(record, false, true))
  {
    hide Activation, Records.Ordered;
  }

  // ---- the run ----

  /** Arming is staged over the activation and committed in its place: the attempt lives on. */
  lemma ArmedOver() returns (n: Node, att: Records.PairAttempt, c: Contact, record: bytes)
    ensures Reaches(E, n) && Rest(n, c) && Newcomer(c, 0) && n.ram.attempt == Some(att) && Repeatable(att, c, record) && OneMade(n.logs, att, c)
    ensures n.logs.air == [] && !n.ram.radioOn
  {
    hide Reaches, Activating, Newcomer, Repeatable, OneContact;
    var m: Node;
    m, att, c, record := PairsUp(E);
    ActivatingFacts(m, att, c, record);
    hide Board;
    var s := Board().ram.(attempt := Some(att), contacts := OneContact(c));
    ArmFree(m);
    ArmIs(m);
    StagesDirty(m.ram.(armedNextBoot := true), Plain);
    hide Apply, AllowedBut;
    GoesAndCommits(E, m, Action.ArmNextBoot);
    n := Done2(m, Action.ArmNextBoot);
    CommittedPlain(m.ram.(armedNextBoot := true), Plain);
  }

  lemma ArmFree(n: Node)
    requires Quiet(n)
    ensures AllowedBut(E, n, Action.ArmNextBoot)
  {}

  lemma ActivatingFacts(n: Node, att: Records.PairAttempt, c: Contact, record: bytes)
    requires Activating(n, att, c, record)
    ensures Quiet(n) && n.usb.None? && !n.inflight && Newcomer(c, 0) && Repeatable(att, c, record) && OneMade(n.logs, att, c) && n.logs.air == []
    ensures var s := n.ram;
            && s.provisioned && !s.fault && s.radioAvailable && s.pendingSend.None? && s.contacts == OneContact(c) && s.persistedTxEpoch <= 100
            && s.monoS == 0 && s.attempt == Some(att) && !s.radioOn
  {
    Provisions(Nothing);
    hide Reaches, Board, Newcomer, Repeatable, OneContact, ViewOf;
  }

  lemma AnchorKeeps(att: Records.PairAttempt, c: Contact, d: Contact, record: bytes)
    requires Repeatable(att, c, record) && d == c.(anchor := d.anchor, winEpochs := d.winEpochs, txNext := d.txNext, txReserved := d.txReserved,
                                                 txEpochMax := d.txEpochMax)
    ensures Repeatable(att, d, record) && d.root == c.root
  {
    hide Ceremony.Confirmed, Ceremony.PeerEd;
  }

  lemma NewcomerUnused(c: Contact)
    requires Newcomer(c, 100)
    ensures Unused(c)
  {}

  lemma TextsOk()
    ensures TextOk([65]) && TextOk([66])
  {
    assert Utf8.Valid([65]) && Utf8.Valid([66]);
  }

  /** Arming is staged over the activation, and its confirmation is imported again once a text has gone out. All else in
      this run is disciplined: two different frames under one root and nonce. */
  lemma ReactivationRepeatsNonce() returns (actions: seq<Action>, q: Rec, r: Rec)
    ensures DisciplinedBut(Revivals, Blank(true), actions)
    ensures var air := Run(TOY, Blank(true), actions).logs.air; q in air && r in air
    ensures q.root == r.root && Nonce(q.header.epoch, q.header.sequence) == Nonce(r.header.epoch, r.header.sequence)
    ensures q.plaintext == DataBody([65]) && r.plaintext == DataBody([66])
  {
    hide Apply, Quiet, Run, Newcomer, DisciplinedBut, OneContact, Repeatable, Emitted, Begun, TextOk, OnAirReady;
    TextsOk();
    var n, att, c, record := ArmedOver();
    SetsTime(E, n, c, 0);
    var d := c.(anchor := 100, winEpochs := Slots(100));
    AnchorKeeps(att, c, d, record);
    n := Done2(n, CLOCK);
    var n2, q2 := GoesOnAir(n, d, [65]);
    var m := Hushes(Done2(n, Action.SetRadio(true)), d, [65], n2);
    var d2 := d.(txNext := 1, txReserved := 32, txEpochMax := 100);
    AnchorKeeps(att, d, d2, record);
    var k, c2 := Reimports(m, d2, att, record);
    var k2, r2 := GoesOnAir(k, c2, [66]);
    q, r := q2, r2;
    actions :| DisciplinedBut(E, Blank(true), actions) && Run(TOY, Blank(true), actions) == k2;
  }

  /** The radio goes on, and one text goes out. */
  lemma GoesOnAir(n: Node, c: Contact, text: bytes) returns (m: Node, r: Rec)
    requires Reaches(E, n) && Rest(n, c) && OnTime(n.ram) && Newcomer(c, 100) && TextOk(text)
    ensures var k := Done2(n, Action.SetRadio(true));
            && OnAirReady(k, c) && k.ram.attempt == n.ram.attempt
            && Reaches(E, m) && FirstFrame(r, c, text) && m.logs == n.logs.(air := n.logs.air + [r])
            && m == k.(ram := m.ram, durable := m.durable, logs := m.logs, inflight := true)
            && m.ram == Emitted(Begun(k.ram, c, text), c)
  {
    hide Reaches, Newcomer, OneContact, Emitted, Begun, TextOk, Stage;
    NewcomerUnused(c);
    Switches(n, true);
    m, r := SendsOne(Done2(n, Action.SetRadio(true)), c, text);
  }
}
