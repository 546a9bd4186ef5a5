/** What one contact slot guarantees about the frames sent and the texts accepted under its root. */
module ContactLog {
  import opened Bytes
  import opened Frame
  import opened Persist
  import opened Clock
  import opened Replay
  import opened Engine
  import Records

  /** A frame sealed by this node: contact generation (its root), our role, header, plaintext and wire bytes. */
  datatype Rec = Rec(root: bytes32, role: byte, header: Header, plaintext: bytes, frame: bytes)

  /** A text taken in by this node. */
  datatype Taken = Taken(root: bytes32, role: byte, epoch: u32, sequence: u64, packetId: u32, text: bytes)

  /** An activation: the root and our role, and the two offers they come from. */
  datatype Made = Made(root: bytes32, role: byte, own: Records.payload, peer: Records.payload)

  /** Frames handed to the radio, texts released to the host, texts durably accepted, every (root, role) ever
      activated, the activations themselves, and every offer of our own. */
  datatype Logs = Logs(air: seq<Rec>, delivered: seq<Taken>, accepted: set<Taken>, used: set<(bytes32, byte)>,
                       made: set<Made>, offered: set<Records.payload>)

  predicate IsData(r: Rec) { r.header.flags == FLAG_WANT_ACK }

  /** The window of hour `e`. */
  function WindowFor(c: Contact, e: u32): Window
    requires e in c.winEpochs
  {
    c.winData[WindowIndex(c, e)]
  }

  /** (e, s) will never again be accepted as new. */
  predicate Spent(c: Contact, e: u32, s: u64) {
    e <= Succ(c.anchor) && (e in c.winEpochs ==> Covered(WindowFor(c, e), s))
  }

  predicate ShapeOk(c: Contact) {
    if c.present then
      && c.role <= 1 && c.winEpochs == Slots(c.anchor)
      && WindowsStorable(c.winData) && WindowsStorable(c.winAck)
    else c == NO_CONTACT
  }

  predicate AirBelow(c: Contact, air: seq<Rec>) {
    forall r :: r in air && r.root == c.root ==> r.header.sequence < c.txNext
  }

  /** What was durably accepted stays accepted: this slot will not take it again. */
  predicate AcceptedSpent(c: Contact, accepted: set<Taken>) {
    forall a :: a in accepted && a.root == c.root ==> Spent(c, a.epoch, a.sequence)
  }

  predicate AcceptedAt(accepted: set<Taken>, root: bytes32, e: u32, s: u64) {
    exists a :: a in accepted && a.root == root && a.epoch == e && a.sequence == s
  }

  ghost predicate MarksAccepted(c: Contact, accepted: set<Taken>) {
    forall e: u32, s: u64 :: e in c.winEpochs && Marked(WindowFor(c, e), s) ==> AcceptedAt(accepted, c.root, e, s)
  }

  ghost predicate ContactSafe(c: Contact, l: Logs) {
    && ShapeOk(c)
    && (c.present ==>
          && (c.root, c.role) in l.used
          && AirBelow(c, l.air)
          && AcceptedSpent(c, l.accepted)
          && MarksAccepted(c, l.accepted))
  }

  predicate RootsDistinct(cs: Contacts) {
    forall i, j :: 0 <= i < j < MAX_CONTACTS && cs[i].present && cs[j].present ==> cs[i].root != cs[j].root
  }

  ghost predicate Safe(cs: Contacts, l: Logs) {
    RootsDistinct(cs) && forall i :: 0 <= i < MAX_CONTACTS ==> ContactSafe(cs[i], l)
  }

  /** Every log entry belongs to an activated (root, role), a root has one role here, and what was released to the
      host is durably accepted. */
  predicate LogsOk(l: Logs) {
    && (forall r :: r in l.air ==> (r.root, r.role) in l.used)
    && (forall d :: d in l.delivered ==> d in l.accepted)
    && (forall a :: a in l.accepted ==> (a.root, a.role) in l.used)
    && (forall p :: p in l.used ==> p.1 <= 1)
    && (forall p, q :: p in l.used && q in l.used && p.0 == q.0 ==> p == q)
  }

  // ---- slot transitions ----

  /** The air log may forget frames. */
  lemma Weaken(c: Contact, l: Logs, l': Logs)
    requires ContactSafe(c, l)
    requires forall r :: r in l'.air ==> r in l.air
    requires l.accepted == l'.accepted && l.used <= l'.used
    ensures ContactSafe(c, l')
  {
    if c.present {
      forall e: u32, s: u64 | e in c.winEpochs && Marked(WindowFor(c, e), s) ensures AcceptedAt(l'.accepted, c.root, e, s) {
        assert AcceptedAt(l.accepted, c.root, e, s);
      }
    }
  }

  lemma NoContactSafe(l: Logs)
    ensures ContactSafe(NO_CONTACT, l)
  {}

  /** Entries under another root do not concern this slot. */
  lemma OtherRoot(c: Contact, l: Logs, l': Logs, root: bytes32)
    requires ContactSafe(c, l) && (c.present ==> c.root != root)
    requires forall r :: r in l'.air ==> r in l.air || r.root == root
    requires forall a :: a in l'.accepted ==> a in l.accepted || a.root == root
    requires l.accepted <= l'.accepted && l.used <= l'.used
    ensures ContactSafe(c, l')
  {
    if c.present {
      forall e: u32, s: u64 | e in c.winEpochs && Marked(WindowFor(c, e), s) ensures AcceptedAt(l'.accepted, c.root, e, s) {
        assert AcceptedAt(l.accepted, c.root, e, s);
      }
    }
  }

  /** Blocking and transmit bookkeeping: a slot that differs in nothing the logs are about. */
  lemma Bookkeeping(c: Contact, c': Contact, l: Logs)
    requires ContactSafe(c, l) && c.present
    requires c' == c.(blocked := c'.blocked, txNext := c'.txNext, txReserved := c'.txReserved, txEpochMax := c'.txEpochMax)
    requires c.txNext <= c'.txNext
    ensures ContactSafe(c', l)
  {
    assert forall e :: e in c.winEpochs ==> WindowFor(c', e) == WindowFor(c, e);
    forall a | a in l.accepted && a.root == c'.root ensures Spent(c', a.epoch, a.sequence) {
      assert Spent(c, a.epoch, a.sequence);
    }
  }

  lemma MovedFor(c: Contact, epoch: u32, e: u32)
    requires c.present && c.anchor <= epoch && ShapeOk(c)
    ensures var c' := AdvanceContact(c, epoch);
            && ShapeOk(c')
            && (e in c'.winEpochs ==> WindowFor(c', e) == if e in c.winEpochs then WindowFor(c, e) else EMPTY)
  {
    hide Offer, Covered, Marked;
    var c', to := AdvanceContact(c, epoch), Slots(epoch);
    assert forall x :: Storable(Moved(c.winData, c.winEpochs, x)) && Storable(Moved(c.winAck, c.winEpochs, x)) by { hide Slots; }
    if e in to {
      var i := Position(to, e).value;
      assert c'.winData[i] == Moved(c.winData, c.winEpochs, e);
    }
  }

  /** Moving the anchor forward keeps every window of a retained hour and never reopens a retired one. */
  lemma Advanced(c: Contact, epoch: u32, l: Logs)
    requires ContactSafe(c, l) && (c.present ==> c.anchor <= epoch)
    ensures ContactSafe(AdvanceContact(c, epoch), l)
  {
    if c.present {
      hide AdvanceContact;
      var c' := AdvanceContact(c, epoch);
      AdvancedFields(c, epoch);
      MovedFor(c, epoch, 0);
      forall a | a in l.accepted && a.root == c'.root ensures Spent(c', a.epoch, a.sequence) {
        assert Spent(c, a.epoch, a.sequence);
        MovedFor(c, epoch, a.epoch);
        if a.epoch !in Slots(c.anchor) { RetiredStaysRetired(a.epoch, c.anchor, epoch); }
      }
      forall e: u32, s: u64 | e in c'.winEpochs && Marked(WindowFor(c', e), s) ensures AcceptedAt(l.accepted, c'.root, e, s) {
        MovedFor(c, epoch, e);
        assert e in c.winEpochs && Marked(WindowFor(c, e), s);
      }
    }
  }

  lemma AdvancedFields(c: Contact, epoch: u32)
    requires c.present
    ensures var c' := AdvanceContact(c, epoch);
            && c'.present && c'.anchor == epoch && c'.winEpochs == Slots(epoch) && c'.root == c.root && c'.role == c.role
            && c'.txNext == c.txNext && c'.txReserved == c.txReserved
  {}

  /** No frame was sent and no text accepted under `root`. */
  predicate NothingUnder(l: Logs, root: bytes32) {
    (forall r :: r in l.air ==> r.root != root) && (forall a :: a in l.accepted ==> a.root != root)
  }

  /** Nothing was sent under `root`, and what was accepted under it belongs to hours left behind for good at `hour`. */
  predicate Untouched(l: Logs, root: bytes32, hour: u32) {
    && (forall r :: r in l.air ==> r.root != root)
    && (forall a :: a in l.accepted && a.root == root ==> a.epoch <= Succ(hour) && a.epoch !in Slots(hour))
  }

  lemma NothingIsUntouched(l: Logs, root: bytes32, hour: u32)
    requires NothingUnder(l, root)
    ensures Untouched(l, root, hour)
  {}

  /** A generation that is untouched starts safely. */
  lemma NewContactSafe(edPeer: bytes32, peerId: bytes8, root: bytes32, role: byte, epoch: u32, l: Logs)
    requires Untouched(l, root, epoch) && role <= 1 && (root, role) in l.used
    ensures ContactSafe(NewContact(edPeer, peerId, root, role, epoch), l)
  {
    var c := NewContact(edPeer, peerId, root, role, epoch);
    forall e: u32, s: u64 | e in c.winEpochs ensures !Marked(WindowFor(c, e), s) {}
  }

  function WithData(c: Contact, e: u32, w: Window): Contact
    requires e in c.winEpochs
  {
    c.(winData := c.winData[WindowIndex(c, e) := w])
  }

  /** Accepting (e, s): it was not accepted before, and afterwards it is spent and accounted for. */
  lemma AcceptData(c: Contact, l: Logs, t: Taken)
    requires ContactSafe(c, l) && c.present && t.epoch in c.winEpochs && t.root == c.root
    requires Offer(WindowFor(c, t.epoch), t.sequence).verdict == Accepted
    ensures forall a :: a in l.accepted && a.root == c.root ==> a.epoch != t.epoch || a.sequence != t.sequence
    ensures var c' := WithData(c, t.epoch, Offer(WindowFor(c, t.epoch), t.sequence).window);
            ContactSafe(c', l.(delivered := l.delivered + [t], accepted := l.accepted + {t}))
  {
    var w := WindowFor(c, t.epoch);
    var w' := Offer(w, t.sequence).window;
    var c' := WithData(c, t.epoch, w');
    AcceptedIffUncovered(w, t.sequence);
    StorableFor(c, t.epoch);
    hide Offer, Covered, Marked;
    assert forall e :: e in c.winEpochs ==> WindowFor(c', e) == if e == t.epoch then w' else WindowFor(c, e);
    OfferCovers(w, t.sequence, t.sequence);
    var accepted := l.accepted + {t};
    forall a | a in accepted && a.root == c'.root ensures Spent(c', a.epoch, a.sequence) {
      InSlots(t.epoch, c.anchor);
      if a in l.accepted {
        assert Spent(c, a.epoch, a.sequence);
        if a.epoch == t.epoch { OfferCovers(w, t.sequence, a.sequence); }
      }
    }
    forall e: u32, s: u64 | e in c'.winEpochs && Marked(WindowFor(c', e), s) ensures AcceptedAt(accepted, c'.root, e, s) {
      if e == t.epoch { OfferCovers(w, t.sequence, s); }
      if e == t.epoch && s == t.sequence {
        assert t in accepted;
      } else {
        assert AcceptedAt(l.accepted, c.root, e, s);
      }
    }
    forall a | a in l.accepted && a.root == c.root ensures a.epoch != t.epoch || a.sequence != t.sequence {
      assert Spent(c, a.epoch, a.sequence);
    }
  }

  lemma StorableFor(c: Contact, e: u32)
    requires ShapeOk(c) && c.present && e in c.winEpochs
    ensures Storable(WindowFor(c, e))
  {}

  lemma WindowForAfterAck(c: Contact, i: nat, w: Window, l: Logs)
    requires ContactSafe(c, l) && c.present && i < 3 && Storable(w)
    ensures ContactSafe(c.(winAck := c.winAck[i := w]), l)
  {
    var c' := c.(winAck := c.winAck[i := w]);
    hide Covered, Marked;
    assert forall e :: e in c.winEpochs ==> WindowFor(c', e) == WindowFor(c, e);
    forall a | a in l.accepted && a.root == c'.root ensures Spent(c', a.epoch, a.sequence) {
      assert Spent(c, a.epoch, a.sequence);
    }
  }

  /** Using number `txNext` for one more frame. */
  lemma UseNumber(c: Contact, c': Contact, l: Logs, r: Rec)
    requires ContactSafe(c, l) && c.present && r.root == c.root && r.header.sequence == c.txNext && c.txNext + 1 < U64
    requires c' == c.(txNext := c.txNext + 1, txEpochMax := c'.txEpochMax)
    ensures ContactSafe(c', l.(air := l.air + [r]))
    ensures forall q :: q in l.air && q.root == r.root ==> q.header.sequence != r.header.sequence
  {
    Bookkeeping(c, c', l);
  }

  /** Restoring a stored slot: nothing but the counters may differ, and they only skip forward. */
  lemma Restored(c: Contact, l: Logs)
    requires ContactSafe(c, l)
    ensures ContactSafe(RestoreContact(c), l)
    ensures c.present ==> RestoreContact(c) == c.(txNext := Max(c.txReserved, c.txNext), txReserved := Max(c.txReserved, c.txNext))
    ensures !c.present ==> RestoreContact(c) == c
  {
    if c.present {
      assert RestoreWindows(c.winData) == c.winData && RestoreWindows(c.winAck) == c.winAck;
      var n := Max(c.txReserved, c.txNext);
      Bookkeeping(c, c.(txNext := n, txReserved := n), l);
    }
  }

  // ---- what "spent" means ----

  /** At some trusted hour from now on, number `s` of hour `e` would be taken as new. */
  ghost predicate CanTake(c: Contact, e: u32, s: u64)
    requires c.present && ShapeOk(c)
  {
    exists hour: u32 :: c.anchor <= hour && TakesAt(c, hour, e, s)
  }

  /** Once the anchor stands at `hour`, number `s` of hour `e` is taken as new. */
  predicate TakesAt(c: Contact, hour: u32, e: u32, s: u64) {
    var d := AdvanceContact(c, hour);
    e in d.winEpochs && Offer(WindowFor(d, e), s).verdict == Accepted
  }

  /** Spent numbers are exactly those that no hour to come will take again. */
  lemma SpentIffNeverTaken(c: Contact, e: u32, s: u64)
    requires c.present && ShapeOk(c)
    ensures Spent(c, e, s) <==> !CanTake(c, e, s)
  {
    hide Offer, Covered, AdvanceContact;
    if Spent(c, e, s) {
      forall hour: u32 | c.anchor <= hour ensures !TakesAt(c, hour, e, s) { SpentStays(c, hour, e, s); }
    } else {
      TakenAtOnce(c, e, s);
    }
  }

  lemma SpentStays(c: Contact, hour: u32, e: u32, s: u64)
    requires c.present && ShapeOk(c) && c.anchor <= hour && Spent(c, e, s)
    ensures !TakesAt(c, hour, e, s)
  {
    hide Offer, Covered, AdvanceContact;
    MovedFor(c, hour, e);
    AdvancedFields(c, hour);
    if e in AdvanceContact(c, hour).winEpochs {
      if e !in c.winEpochs { RetiredStaysRetired(e, c.anchor, hour); }
      AcceptedIffUncovered(WindowFor(AdvanceContact(c, hour), e), s);
    }
  }

  /** What is not spent is taken at the current anchor, or at its own hour when that is still to come. */
  lemma TakenAtOnce(c: Contact, e: u32, s: u64)
    requires c.present && ShapeOk(c) && !Spent(c, e, s)
    ensures CanTake(c, e, s)
  {
    hide Offer, Covered, AdvanceContact;
    var hour := if e in c.winEpochs then c.anchor else e;
    InSlots(e, c.anchor);
    InSlots(e, hour);
    MovedFor(c, hour, e);
    AdvancedFields(c, hour);
    AcceptedIffUncovered(WindowFor(AdvanceContact(c, hour), e), s);
    EmptyCoversNothing(s);
    assert TakesAt(c, hour, e, s);
  }

  lemma EmptyCoversNothing(s: u64)
    ensures !Covered(EMPTY, s)
  {}
}
