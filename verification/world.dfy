/** Many nodes over a network that loses, repeats, reorders and alters frames at will.
    The primitives are ideal: what opens was sealed by a node and sent. */
module World {
  import opened Bytes
  import opened Frame
  import opened Security
  import opened Persist
  import Replay
  import Crc
  import opened Engine
  import opened ContactLog
  import opened Node
  import opened NodeFrames
  import opened NodeRuns
  import opened NodePairing
  import Guarantees
  import Records

  type World = seq<Node>

  /** `r` has been sent by some node. */
  predicate OnAir(w: World, r: Rec) { exists k :: 0 <= k < |w| && r in w[k].logs.air }

  predicate Used(w: World, root: bytes32, role: byte) { exists k :: 0 <= k < |w| && (root, role) in w[k].logs.used }

  /** Key derivation does not collide on the roots in use. */
  ghost predicate KeysSeparate(cr: Crypto, w: World) {
    forall root: bytes32, role: byte, e: u32, root': bytes32, role': byte, e': u32 ::
      && role <= 1 && role' <= 1
      && (Used(w, root, role) || Used(w, root, Opposite(role)))
      && (Used(w, root', role') || Used(w, root', Opposite(role')))
      && SendKey(cr, root, role, e) == SendKey(cr, root', role', e')
      ==> root == root' && role == role' && e == e'
  }

  /** `r` was sealed under this key, nonce and associated data, and holds `pt`. */
  predicate SealedAs(cr: Crypto, r: Rec, key: bytes32, nonce: bytes, aad: bytes, pt: bytes) {
    && SendKey(cr, r.root, r.role, r.header.epoch) == key
    && Nonce(r.header.epoch, r.header.sequence) == nonce
    && |r.plaintext| <= 1 + MAX_TEXT_LEN && FrameAad(r.header, |r.plaintext| + TAG_LEN) == aad
    && r.plaintext == pt
  }

  /** Unforgeability: whatever a slot of `s` opens in frame `f` was sealed by a node and is on air. */
  ghost predicate Unforged(cr: Crypto, w: World, s: State, f: bytes) {
    Frame.Decode(f).Ok? ==>
      var d := Frame.Decode(f).value;
      var h := d.header;
      forall i :: 0 <= i < MAX_CONTACTS && s.contacts[i].present && |d.body| <= MAX_BODY_LEN ==>
        var key := IncomingKey(cr, s.contacts[i], h.epoch);
        var o := OpenBody(cr, key, h, d.body);
        o.Some? ==> exists r :: OnAir(w, r) && SealedAs(cr, r, key, Nonce(h.epoch, h.sequence), FrameAad(h, |d.body|), o.value)
  }

  /** No node has made this offer. */
  predicate OfferUnknown(w: World, p: Records.payload) { forall j :: 0 <= j < |w| ==> p !in w[j].logs.offered }

  /** Equal roots, at whichever nodes, come from equal pairs of offers. */
  predicate RootSeparateAll(w: World, m: Made) { forall j :: 0 <= j < |w| ==> RootSeparate(w[j].logs, m) }

  /** What primitives and randomness give when node `k` acts: what it opens is unforged, its offer and its root are its own. */
  ghost predicate Ideal(cr: Crypto, w: World, k: nat, a: Action)
    requires k < |w|
  {
    match a
    case OnFrame(f, _, _) => KeysSeparate(cr, w) && Unforged(cr, w, w[k].ram, f)
    case PairOffer(ephPriv, challenge) => OfferUnknown(w, OwnOffer(cr, w[k].ram, ephPriv, challenge))
    case PairImport(record, replace, sasMatch) =>
      var m := Activation(cr, w[k].ram, record, replace, sasMatch);
      m.Some? ==> RootSeparateAll(w, m.value)
    case _ => true
  }

  ghost predicate WorldAllowed(cr: Crypto, w: World, k: nat, a: Action) { k < |w| && Allowed(cr, w[k], a) && Ideal(cr, w, k, a) }

  function WorldRun(cr: Crypto, w: World, steps: seq<(nat, Action)>): World {
    if steps == [] then w
    else
      var before, last := WorldRun(cr, w, steps[..|steps| - 1]), steps[|steps| - 1];
      if last.0 < |before| then before[last.0 := Apply(cr, before[last.0], last.1)] else before
  }

  ghost predicate WorldDisciplined(cr: Crypto, w: World, steps: seq<(nat, Action)>) {
    steps == [] ||
    (&& WorldDisciplined(cr, w, steps[..|steps| - 1])
     && WorldAllowed(cr, WorldRun(cr, w, steps[..|steps| - 1]), steps[|steps| - 1].0, steps[|steps| - 1].1))
  }

  // ---- invariant ----

  /** DATA number (e, s) with packet id `p` and text body `pt` was sent under (root, role). */
  ghost predicate Sent(w: World, root: bytes32, role: byte, e: u32, s: u64, p: u32, pt: bytes) {
    exists d :: OnAir(w, d) && IsData(d) && d.root == root && d.role == role && d.plaintext == pt
                && d.header.epoch == e && d.header.sequence == s && d.header.packetId == p
  }

  /** What a node took in, its peer had sent. */
  ghost predicate TakenSent(w: World, a: Taken) {
    Sent(w, a.root, Opposite(a.role), a.epoch, a.sequence, a.packetId, DataBody(a.text))
  }

  /** What a node acknowledges, its peer had sent. */
  ghost predicate AckedSent(w: World, r: Rec) {
    exists e: u32, s: u64, p: u32, pt: bytes :: r.plaintext == AckBody(e, s, p) && Sent(w, r.root, Opposite(r.role), e, s, p, pt)
  }

  ghost predicate NodeClaims(w: World, n: Node) {
    && (forall a :: a in n.logs.accepted || n.held.taken == Some(a) ==> TakenSent(w, a))
    && (forall r :: (r in n.logs.air || n.held.rec == Some(r)) && !IsData(r) ==> AckedSent(w, r))
  }

  /** Every offer was made by one node. */
  predicate OffersDistinct(w: World) {
    forall j, k, p :: 0 <= j < k < |w| && p in w[j].logs.offered ==> p !in w[k].logs.offered
  }

  predicate RootsSeparate(w: World) {
    forall j, k, x, y :: 0 <= j < |w| && 0 <= k < |w| && x in w[j].logs.made && y in w[k].logs.made && x.root == y.root
                         ==> Records.Ordered(x.own, x.peer) == Records.Ordered(y.own, y.peer)
  }

  ghost predicate WorldInv(cr: Crypto, w: World) {
    && OffersDistinct(w) && RootsSeparate(w)
    && forall k :: 0 <= k < |w| ==> FullInv(cr, w[k]) && NodeClaims(w, w[k])
  }

  /** A generation has one node at each end. */
  predicate EndsDistinct(w: World) {
    forall j, k, p :: 0 <= j < k < |w| && p in w[j].logs.used ==> p !in w[k].logs.used
  }

  lemma OneNodePerEnd(cr: Crypto, w: World)
    requires WorldInv(cr, w)
    ensures EndsDistinct(w)
  {
    hide Inv, NodeClaims, FullInv, RootsSeparate;
    forall j, k, p | 0 <= j < k < |w| && p in w[j].logs.used ensures p !in w[k].logs.used {
      if p in w[k].logs.used {
        var own := OneEnd(cr, w, j, k, p);
      }
    }
  }

  lemma PairParts(cr: Crypto, n: Node)
    requires FullInv(cr, n)
    ensures MadeOk(n.logs)
  {
    hide Inv, MadeOk;
  }

  /** Two activations of one end come from the same own offer. */
  lemma OneEnd(cr: Crypto, w: World, j: nat, k: nat, p: (bytes32, byte)) returns (own: Records.payload)
    requires WorldInv(cr, w) && j < |w| && k < |w| && p in w[j].logs.used && p in w[k].logs.used
    ensures own in w[j].logs.offered && own in w[k].logs.offered
  {
    hide Inv, NodeClaims, FullInv;
    PairParts(cr, w[j]);
    PairParts(cr, w[k]);
    assert UsedMade(p, w[j].logs.made) && UsedMade(p, w[k].logs.made);
    var x :| x in w[j].logs.made && x.root == p.0 && x.role == p.1;
    var y :| y in w[k].logs.made && y.root == p.0 && y.role == p.1;
    assert MadeFits(w[j].logs, x) && MadeFits(w[k].logs, y);
    hide Records.RoleFor, MadeOk;
    SameOrCrossed(x.own, x.peer, y.own, y.peer);
    Records.EndsAgree(x.own, x.peer);
    own := x.own;
  }

  lemma SameOrCrossed(a: Records.payload, b: Records.payload, c: Records.payload, d: Records.payload)
    requires Records.Ordered(a, b) == Records.Ordered(c, d)
    ensures (a == c && b == d) || (a == d && b == c)
  {
    hide Records.Less;
  }

  // ---- what one step changes ----

  /** A step adds to the logs no more than what was held back, and forgets nothing. */
  predicate LogsStep(n: Node, m: Node) {
    && (forall r :: r in n.logs.air ==> r in m.logs.air)
    && (forall r :: r in m.logs.air ==> r in n.logs.air || n.held.rec == Some(r))
    && n.logs.accepted <= m.logs.accepted
    && (forall a :: a in m.logs.accepted ==> a in n.logs.accepted || n.held.taken == Some(a))
  }

  /** What an action adds to the pairings of a node. */
  function OfferedBy(cr: Crypto, n: Node, a: Action): set<Records.payload> {
    if a.PairOffer? then {OwnOffer(cr, n.ram, a.ephPriv, a.challenge)} else {}
  }

  function MadeBy(cr: Crypto, n: Node, a: Action): Option<Made> {
    if a.PairImport? then Activation(cr, n.ram, a.record, a.replace, a.sasMatch) else None
  }

  lemma PairingsGrow(cr: Crypto, n: Node, a: Action)
    ensures var l := Apply(cr, n, a).logs;
            && l.offered == n.logs.offered + OfferedBy(cr, n, a)
            && l.made == Activated(n.logs, MadeBy(cr, n, a)).made
  {
    hide HeldAfter, PendingRec, OwnOffer, Activation, Engine.SendRetryEcho;
  }

  lemma LogsGrow(cr: Crypto, n: Node, a: Action)
    requires Inv(cr, n) && InTurn(n, a)
    ensures LogsStep(n, Apply(cr, n, a))
    ensures !a.SendEmit? && !a.OnFrame? ==> Apply(cr, n, a).held in {n.held, NOTHING_HELD}
  {
    hide RamInv, LogInv, DurableInv, PendingRec, HeldAfter, Engine.SetIdentity, DoProvision, Engine.SetTime, Engine.AdvanceTime,
      Engine.SetRadio, Engine.ArmNextBoot, Engine.ConsumeBootArm, Engine.DeleteContact, Engine.SetBlocked, OwnOffer, Activation,
      Engine.SendBegin, Engine.SendEmit, Engine.SendRetryEcho, Engine.OnFrame, Engine.NoteOrigin, Boot, CommitOk, DiscardStaged, Quiet;
    if a.RetryEcho? && SendRetryEcho(cr, n.ram).Ok? {
      RetryHasPending(cr, n.ram);
    }
  }

  lemma SentStill(w: World, v: World, root: bytes32, role: byte, e: u32, s: u64, p: u32, pt: bytes)
    requires Sent(w, root, role, e, s, p, pt) && forall r :: OnAir(w, r) ==> OnAir(v, r)
    ensures Sent(v, root, role, e, s, p, pt)
  {}

  lemma ClaimsStill(w: World, v: World, n: Node)
    requires NodeClaims(w, n) && forall r :: OnAir(w, r) ==> OnAir(v, r)
    ensures NodeClaims(v, n)
  {
    hide AckBody, DataBody;
    forall a | a in n.logs.accepted || n.held.taken == Some(a) ensures TakenSent(v, a) {
      SentStill(w, v, a.root, Opposite(a.role), a.epoch, a.sequence, a.packetId, DataBody(a.text));
    }
    forall r | (r in n.logs.air || n.held.rec == Some(r)) && !IsData(r) ensures AckedSent(v, r) {
      var e: u32, s: u64, p: u32, pt: bytes :| r.plaintext == AckBody(e, s, p) && Sent(w, r.root, Opposite(r.role), e, s, p, pt);
      SentStill(w, v, r.root, Opposite(r.role), e, s, p, pt);
    }
  }

  lemma AirGrows(w: World, k: nat, m: Node)
    requires k < |w| && LogsStep(w[k], m)
    ensures forall r :: OnAir(w, r) ==> OnAir(w[k := m], r)
  {
    forall r | OnAir(w, r) ensures OnAir(w[k := m], r) {
      var j :| 0 <= j < |w| && r in w[j].logs.air;
      assert r in w[k := m][j].logs.air;
    }
  }

  // ---- receiving ----

  lemma SlotUsed(cr: Crypto, w: World, k: nat, slot: nat)
    requires WorldInv(cr, w) && k < |w| && !w[k].ram.fault && slot < MAX_CONTACTS && w[k].ram.contacts[slot].present
    ensures var c := w[k].ram.contacts[slot]; c.role <= 1 && (c.root, c.role) in w[k].logs.used && Used(w, c.root, c.role)
  {
    hide NodeClaims, PendingOk, TimeSynced, SnapshotSynced, PairInv, OffersDistinct, RootsSeparate;
    var n := w[k];
    assert FullInv(cr, n);
    assert ContactSafe(n.ram.contacts[slot], Plus(n));
  }

  lemma AirUsed(cr: Crypto, w: World, k: nat, r: Rec)
    requires WorldInv(cr, w) && k < |w| && r in w[k].logs.air
    ensures r.role <= 1 && (r.root, r.role) in w[k].logs.used && Used(w, r.root, r.role)
  {
    hide NodeClaims, RamInv, PairInv, OffersDistinct, RootsSeparate;
    assert FullInv(cr, w[k]);
  }

  /** What a slot opens, the other end of its generation has sent with this very header, hop count aside. */
  lemma Authentic(cr: Crypto, w: World, k: nat, f: bytes, slot: nat, pt: bytes) returns (r: Rec)
    requires WorldInv(cr, w) && KeysSeparate(cr, w) && k < |w| && Unforged(cr, w, w[k].ram, f)
    requires !w[k].ram.fault && slot < MAX_CONTACTS && w[k].ram.contacts[slot].present && Frame.Decode(f).Ok?
    requires var d := Frame.Decode(f).value;
             |d.body| <= MAX_BODY_LEN && OpenBody(cr, IncomingKey(cr, w[k].ram.contacts[slot], d.header.epoch), d.header, d.body) == Some(pt)
    ensures var (c, h) := (w[k].ram.contacts[slot], Frame.Decode(f).value.header);
            OnAir(w, r) && r.root == c.root && r.role == Opposite(c.role) && r.plaintext == pt && r.header.(hops := 0) == h.(hops := 0)
  {
    hide WorldInv, Frame.Decode, OpenBody, SendKey, Used, Nonce, FrameAad, Unforged, KeysSeparate;
    var c, h, body := w[k].ram.contacts[slot], Frame.Decode(f).value.header, Frame.Decode(f).value.body;
    r := SealedRec(cr, w, w[k].ram, f, slot, pt);
    SlotUsed(cr, w, k, slot);
    var j :| 0 <= j < |w| && r in w[j].logs.air;
    AirUsed(cr, w, j, r);
    AadBindsHeader(r.header, |r.plaintext| + TAG_LEN, h, |body|);
    SameEnd(cr, w, r.root, r.role, r.header.epoch, c.root, Opposite(c.role), h.epoch);
  }

  lemma SealedRec(cr: Crypto, w: World, s: State, f: bytes, slot: nat, pt: bytes) returns (r: Rec)
    requires Unforged(cr, w, s, f) && Frame.Decode(f).Ok? && slot < MAX_CONTACTS && s.contacts[slot].present
    requires var d := Frame.Decode(f).value;
             |d.body| <= MAX_BODY_LEN && OpenBody(cr, IncomingKey(cr, s.contacts[slot], d.header.epoch), d.header, d.body) == Some(pt)
    ensures var (c, h, body) := (s.contacts[slot], Frame.Decode(f).value.header, Frame.Decode(f).value.body);
            OnAir(w, r) && SealedAs(cr, r, IncomingKey(cr, c, h.epoch), Nonce(h.epoch, h.sequence), FrameAad(h, |body|), pt)
  {
    hide Frame.Decode, OpenBody, SealedAs, OnAir, IncomingKey, Nonce, FrameAad;
    var c, h, body := s.contacts[slot], Frame.Decode(f).value.header, Frame.Decode(f).value.body;
    r :| OnAir(w, r) && SealedAs(cr, r, IncomingKey(cr, c, h.epoch), Nonce(h.epoch, h.sequence), FrameAad(h, |body|), pt);
  }

  lemma SameEnd(cr: Crypto, w: World, root: bytes32, role: byte, e: u32, root': bytes32, role': byte, e': u32)
    requires KeysSeparate(cr, w) && role <= 1 && role' <= 1
    requires Used(w, root, role) && Used(w, root', Opposite(role')) && SendKey(cr, root, role, e) == SendKey(cr, root', role', e')
    ensures root == root' && role == role' && e == e'
  {
    hide SendKey, Used;
  }

  /** What a node holds back after opening DATA: that text, and an ACK of exactly that header. */
  lemma HeldOfOpened(cr: Crypto, s: State, f: bytes, slot: nat, pt: bytes, packetId: u32)
    requires Frame.Decode(f).Ok? && slot < MAX_CONTACTS
    requires var h := Frame.Decode(f).value.header; h.epoch in s.contacts[slot].winEpochs && BodyOk(h.flags, pt)
    ensures var (c, h) := (s.contacts[slot], Frame.Decode(f).value.header);
            var held := HeldAfter(cr, s, f, packetId, OnOpened(cr, s, slot, h, pt, packetId).result);
            && (held.taken.Some? ==> held.taken.value == Taken(c.root, c.role, h.epoch, h.sequence, h.packetId, pt[1..]))
            && (held.rec.Some? ==> held.rec.value.root == c.root && held.rec.value.role == c.role
                                   && held.rec.value.plaintext == AckBody(h.epoch, h.sequence, h.packetId))
            && (held != NOTHING_HELD ==> pt[0] == BODY_DATA)
  {
    hide Frame.Decode, BuildAck, Replay.Offer, SealFrame, AckBody;
  }

  lemma FrameClaims(cr: Crypto, w: World, k: nat, f: bytes, now: u64, packetId: u32)
    requires WorldInv(cr, w) && WorldAllowed(cr, w, k, Action.OnFrame(f, now, packetId))
    ensures var held := HeldAfter(cr, w[k].ram, f, packetId, Engine.OnFrame(cr, w[k].ram, f, now, packetId).result);
            && (held.taken.Some? ==> TakenSent(w, held.taken.value))
            && (held.rec.Some? && !IsData(held.rec.value) ==> AckedSent(w, held.rec.value))
  {
    hide WorldInv, HeldAfter, OnOpened, Transit, Frame.Decode, Engine.OnFrame, OpenBody, Unforged, KeysSeparate;
    var s := w[k].ram;
    var r := Engine.OnFrame(cr, s, f, now, packetId).result;
    if !r.kind.Deliver? && !r.kind.ReAck? {
      NothingHeld(cr, s, f, packetId, r);
    } else if Frame.Decode(f).Err? {
      UndecodableIgnored(cr, s, f, now, packetId);
    } else {
      var slot, pt := OnFrameCases(cr, s, f, now, packetId);
      OpenedClaims(cr, w, k, f, now, packetId, slot, pt);
    }
  }

  lemma OpenedCase(cr: Crypto, s: State, f: bytes, now: u64, packetId: u32, slot: nat, pt: bytes)
    requires Frame.Decode(f).Ok? && FrameCase(cr, s, f, now, packetId, slot, pt)
    requires var kind := Engine.OnFrame(cr, s, f, now, packetId).result.kind; !kind.Forward? && !kind.Ignore?
    ensures var (h, body) := (Frame.Decode(f).value.header, Frame.Decode(f).value.body);
            && Listening(s) && slot < MAX_CONTACTS && s.contacts[slot].present
            && |body| <= MAX_BODY_LEN && OpenBody(cr, IncomingKey(cr, s.contacts[slot], h.epoch), h, body) == Some(pt)
            && h.epoch in s.contacts[slot].winEpochs && BodyOk(h.flags, pt)
            && Engine.OnFrame(cr, s, f, now, packetId) == OnOpened(cr, s, slot, h, pt, packetId)
  {
    hide Engine.OnFrame, OnOpened, Transit, Crc.Sum, ReadHeader;
    var h := Frame.Decode(f).value.header;
    TransitFields(cr, s, f, h, now);
    TransitFields(cr, s.(authFailures := SatInc(s.authFailures)), f, h, now);
  }

  lemma OpenedClaims(cr: Crypto, w: World, k: nat, f: bytes, now: u64, packetId: u32, slot: nat, pt: bytes)
    requires WorldInv(cr, w) && WorldAllowed(cr, w, k, Action.OnFrame(f, now, packetId)) && Frame.Decode(f).Ok?
    requires FrameCase(cr, w[k].ram, f, now, packetId, slot, pt)
    requires var kind := Engine.OnFrame(cr, w[k].ram, f, now, packetId).result.kind; kind.Deliver? || kind.ReAck?
    ensures var held := HeldAfter(cr, w[k].ram, f, packetId, Engine.OnFrame(cr, w[k].ram, f, now, packetId).result);
            && (held.taken.Some? ==> TakenSent(w, held.taken.value))
            && (held.rec.Some? ==> AckedSent(w, held.rec.value))
  {
    hide FrameCase, WorldInv, HeldAfter, OnOpened, Transit, Frame.Decode, Engine.OnFrame, OpenBody, Unforged, KeysSeparate, AckBody;
    var s, h := w[k].ram, Frame.Decode(f).value.header;
    OpenedCase(cr, s, f, now, packetId, slot, pt);
    var r := Authentic(cr, w, k, f, slot, pt);
    HeldOfOpened(cr, s, f, slot, pt, packetId);
    if pt[0] == BODY_DATA {
      assert DataBody(pt[1..]) == pt;
      var c := s.contacts[slot];
      assert Sent(w, c.root, Opposite(c.role), h.epoch, h.sequence, h.packetId, pt) by {
        assert IsData(r) && r.header.epoch == h.epoch && r.header.sequence == h.sequence && r.header.packetId == h.packetId;
      }
    }
  }

  // ---- every run ----

  /** The parts of the invariant at one node. */
  lemma NodeAt(cr: Crypto, w: World, k: nat)
    requires WorldInv(cr, w) && k < |w|
    ensures FullInv(cr, w[k]) && Inv(cr, w[k]) && NodeClaims(w, w[k])
  {
    hide Inv, PairInv, NodeClaims, OffersDistinct, RootsSeparate;
  }

  lemma AllowedAt(cr: Crypto, w: World, k: nat, a: Action)
    requires WorldAllowed(cr, w, k, a)
    ensures k < |w| && Allowed(cr, w[k], a) && InTurn(w[k], a)
    ensures a.OnFrame? ==> KeysSeparate(cr, w) && Unforged(cr, w, w[k].ram, a.frame)
    ensures a.PairOffer? ==> OfferUnknown(w, OwnOffer(cr, w[k].ram, a.ephPriv, a.challenge))
    ensures a.PairImport? ==> var m := Activation(cr, w[k].ram, a.record, a.replace, a.sasMatch); m.Some? ==> RootSeparateAll(w, m.value)
  {
    hide KeysSeparate, Unforged, InTurn, RevivesNothing, Lucky, OwnOffer, Activation, OfferUnknown, RootSeparateAll;
  }

  lemma HeldClaims(cr: Crypto, w: World, k: nat, a: Action)
    requires WorldInv(cr, w) && WorldAllowed(cr, w, k, a)
    ensures var held := Apply(cr, w[k], a).held;
            && (held.taken.Some? ==> TakenSent(w, held.taken.value))
            && (held.rec.Some? && !IsData(held.rec.value) ==> AckedSent(w, held.rec.value))
  {
    hide Inv, FullInv, WorldInv, WorldAllowed, TakenSent, AckedSent, HeldAfter, PendingRec, Engine.OnFrame, Engine.SendEmit, Unforged,
      KeysSeparate, IsData, Allowed, InTurn;
    AllowedAt(cr, w, k, a);
    match a
    case OnFrame(f, now, packetId) => FrameClaims(cr, w, k, f, now, packetId);
    case SendEmit => EmitHoldsData(cr, w[k].ram);
    case _ =>
      NodeAt(cr, w, k);
      LogsGrow(cr, w[k], a);
      hide Apply;
  }

  lemma NodeStepClaims(cr: Crypto, w: World, k: nat, a: Action)
    requires WorldInv(cr, w) && WorldAllowed(cr, w, k, a)
    ensures NodeClaims(w, Apply(cr, w[k], a))
  {
    hide Inv, FullInv, WorldInv, WorldAllowed, TakenSent, AckedSent, Apply, Allowed, InTurn, Unforged, KeysSeparate, IsData;
    AllowedAt(cr, w, k, a);
    NodeAt(cr, w, k);
    LogsGrow(cr, w[k], a);
    HeldClaims(cr, w, k, a);
  }

  lemma OffersStayDistinct(cr: Crypto, w: World, k: nat, a: Action)
    requires OffersDistinct(w) && WorldAllowed(cr, w, k, a)
    ensures OffersDistinct(w[k := Apply(cr, w[k], a)])
  {
    hide Apply, WorldAllowed, OwnOffer;
    AllowedAt(cr, w, k, a);
    PairingsGrow(cr, w[k], a);
    var v := w[k := Apply(cr, w[k], a)];
    forall i, j, p | 0 <= i < j < |v| && p in v[i].logs.offered ensures p !in v[j].logs.offered {
      assert p in w[i].logs.offered ==> p !in w[j].logs.offered;
      assert (i != k ==> v[i] == w[i]) && (j != k ==> v[j] == w[j]);
    }
  }

  lemma RootsStaySeparate(cr: Crypto, w: World, k: nat, a: Action)
    requires RootsSeparate(w) && WorldAllowed(cr, w, k, a)
    ensures RootsSeparate(w[k := Apply(cr, w[k], a)])
  {
    hide Apply, WorldAllowed, Activation, Records.Ordered;
    AllowedAt(cr, w, k, a);
    PairingsGrow(cr, w[k], a);
    var v := w[k := Apply(cr, w[k], a)];
    var m := MadeBy(cr, w[k], a);
    forall i, j, x, y | 0 <= i < |v| && 0 <= j < |v| && x in v[i].logs.made && y in v[j].logs.made && x.root == y.root
      ensures Records.Ordered(x.own, x.peer) == Records.Ordered(y.own, y.peer)
    {
      assert (i != k ==> v[i] == w[i]) && (j != k ==> v[j] == w[j]);
      assert Some(x) == m || x in w[i].logs.made;
      assert Some(y) == m || y in w[j].logs.made;
    }
  }

  lemma WorldStep(cr: Crypto, w: World, k: nat, a: Action)
    requires WorldInv(cr, w) && WorldAllowed(cr, w, k, a)
    ensures WorldInv(cr, w[k := Apply(cr, w[k], a)])
  {
    hide FullInv, Inv, NodeClaims, OffersDistinct, RootsSeparate, Apply, WorldAllowed;
    AllowedAt(cr, w, k, a);
    var v := w[k := Apply(cr, w[k], a)];
    NodeAt(cr, w, k);
    LogsGrow(cr, w[k], a);
    Kept(cr, w[k], a);
    NodeStepClaims(cr, w, k, a);
    AirGrows(w, k, v[k]);
    OffersStayDistinct(cr, w, k, a);
    RootsStaySeparate(cr, w, k, a);
    forall j | 0 <= j < |v| ensures FullInv(cr, v[j]) && NodeClaims(v, v[j]) {
      assert j != k ==> v[j] == w[j];
      ClaimsStill(w, v, v[j]);
    }
  }

  predicate AllBlank(w: World) { forall k :: 0 <= k < |w| ==> w[k] in {Blank(false), Blank(true)} }

  lemma {:induction false} WorldRunInv(cr: Crypto, w: World, steps: seq<(nat, Action)>)
    requires AllBlank(w) && WorldDisciplined(cr, w, steps)
    ensures WorldInv(cr, WorldRun(cr, w, steps))
  {
    hide Apply, WorldAllowed, WorldInv;
    if steps == [] {
      BlankWorld(cr, w);
    } else {
      var before, last := steps[..|steps| - 1], steps[|steps| - 1];
      WorldRunInv(cr, w, before);
      WorldIndex(cr, WorldRun(cr, w, before), last.0, last.1);
      WorldStep(cr, WorldRun(cr, w, before), last.0, last.1);
    }
  }

  lemma WorldIndex(cr: Crypto, w: World, k: nat, a: Action)
    requires WorldAllowed(cr, w, k, a)
    ensures k < |w|
  {}

  lemma BlankWorld(cr: Crypto, w: World)
    requires AllBlank(w)
    ensures WorldInv(cr, w)
  {
    hide Inv, PairInv, Fresh;
    forall k | 0 <= k < |w| ensures FullInv(cr, w[k]) {
      BlankInv(cr, false);
      BlankInv(cr, true);
      BlankPair(cr, false);
      BlankPair(cr, true);
    }
  }

  // ---- acknowledgements ----

  /** The two ends of a generation are one node each. */
  lemma SameNode(w: World, i: nat, j: nat, p: (bytes32, byte))
    requires EndsDistinct(w) && i < |w| && j < |w| && p in w[i].logs.used && p in w[j].logs.used
    ensures i == j
  {}

  lemma AckBodyInjective(e: u32, s: u64, p: u32, e': u32, s': u64, p': u32)
    requires AckBody(e, s, p) == AckBody(e', s', p')
    ensures e == e' && s == s' && p == p'
  {
    hide Be32, Be64;
    var a, b := AckBody(e, s, p), AckBody(e', s', p');
    assert a[1..5] == Be32(e) && b[1..5] == Be32(e') && a[5..13] == Be64(s) && b[5..13] == Be64(s')
        && a[13..17] == Be32(p) && b[13..17] == Be32(p');
    Be32Injective(e, e');
    Be64Injective(s, s');
    Be32Injective(p, p');
  }

  lemma AckMatches(cr: Crypto, s: State, slot: nat, h: Header, pt: bytes, packetId: u32)
    requires slot < MAX_CONTACTS && h.epoch in s.contacts[slot].winEpochs && BodyOk(h.flags, pt)
    requires OnOpened(cr, s, slot, h, pt, packetId).result.kind.Ack?
    ensures s.pendingSend.Some? && s.pendingSend.value.contactId == slot + 1 && h.flags != FLAG_WANT_ACK
    ensures var ps := s.pendingSend.value; pt == AckBody(ps.epoch, ps.sequence, ps.packetId)
  {
    hide BuildAck, Replay.Offer, Be32, Be64, FromBe32, FromBe64;
    FromBe32Inverse(pt[1..5]);
    FromBe64Inverse(pt[5..13]);
    FromBe32Inverse(pt[13..17]);
    assert pt == [pt[0]] + pt[1..5] + pt[5..13] + pt[13..17];
  }

  /** A DATA frame on air with the number of the pending send carries the pending text. */
  lemma PendingSent(cr: Crypto, w: World, k: nat, d: Rec, slot: nat)
    requires WorldInv(cr, w) && k < |w| && !w[k].ram.fault && w[k].ram.pendingSend.Some? && OnAir(w, d) && IsData(d)
    requires slot < MAX_CONTACTS && w[k].ram.pendingSend.value.contactId == slot + 1 && w[k].ram.contacts[slot].present
    requires var c := w[k].ram.contacts[slot]; d.root == c.root && d.role == c.role
    requires d.header.sequence == w[k].ram.pendingSend.value.sequence
    ensures d in w[k].logs.air && d.plaintext == DataBody(w[k].ram.pendingText)
    ensures d.header.packetId == w[k].ram.pendingSend.value.packetId
  {
    hide NodeClaims, FullInv, LogInv, DataBody, SealFrame, OffersDistinct, RootsSeparate, EndsDistinct;
    var i :| 0 <= i < |w| && d in w[i].logs.air;
    AirUsed(cr, w, i, d);
    SlotUsed(cr, w, k, slot);
    OneNodePerEnd(cr, w);
    SameNode(w, i, k, (d.root, d.role));
    NodeAt(cr, w, k);
    hide WorldInv, OnAir;
    PendingHere(cr, w[k]);
    PendingIs(cr, w[k].ram, Plus(w[k]).air, d, slot);
  }

  lemma PendingHere(cr: Crypto, n: Node)
    requires Inv(cr, n) && !n.ram.fault
    ensures PendingOk(cr, n.ram, Plus(n).air) && forall d :: d in n.logs.air ==> d in Plus(n).air
  {
    hide LogInv, DurableInv, Safe, PendingOk, TimeSynced, SnapshotSynced, PendingRec;
  }

  /** DATA with the number of the pending send is the pending send. */
  lemma PendingIs(cr: Crypto, s: State, air: seq<Rec>, d: Rec, slot: nat)
    requires PendingOk(cr, s, air) && s.pendingSend.Some? && slot < MAX_CONTACTS && s.pendingSend.value.contactId == slot + 1
    requires d in air && IsData(d) && d.root == s.contacts[slot].root && d.header.sequence == s.pendingSend.value.sequence
    ensures d.plaintext == DataBody(s.pendingText) && d.header.packetId == s.pendingSend.value.packetId
  {
    hide SealFrame, DataBody;
  }

  lemma AcceptedBehindAck(cr: Crypto, w: World, j: nat, r: Rec, e: u32, s: u64, p: u32) returns (a: Taken)
    requires WorldInv(cr, w) && j < |w| && r in w[j].logs.air && !IsData(r) && r.plaintext == AckBody(e, s, p)
    ensures a in w[j].logs.accepted && a.root == r.root && a.role == r.role && a.epoch == e && a.sequence == s
    ensures TakenSent(w, a)
  {
    hide WorldInv, FullInv, RamInv, DurableInv, AckBody, TakenSent;
    NodeAt(cr, w, j);
    var l := w[j].logs;
    assert AckedSent(w, r);
    var e1: u32, s1: u64, p1: u32, pt1: bytes :| r.plaintext == AckBody(e1, s1, p1) && Sent(w, r.root, Opposite(r.role), e1, s1, p1, pt1);
    AckBodyInjective(e, s, p, e1, s1, p1);
    var e2: u32, s2: u64, p2: u32 :| r.plaintext == AckBody(e2, s2, p2) && AcceptedAt(l.accepted, r.root, e2, s2);
    AckBodyInjective(e, s, p, e2, s2, p2);
    a :| a in l.accepted && a.root == r.root && a.epoch == e && a.sequence == s;
  }

  /** What an acknowledged send means: the other end, node `j`, has accepted exactly the pending text under exactly
      that hour, number and packet id, and neither its RAM nor what any restart makes of its flash takes it again. */
  ghost predicate AcceptedByPeer(w: World, k: nat, j: nat, a: Taken) {
    && k < |w| && w[k].ram.pendingSend.Some? && 1 <= w[k].ram.pendingSend.value.contactId <= MAX_CONTACTS
    && var (s, ps) := (w[k].ram, w[k].ram.pendingSend.value);
       var c := s.contacts[ps.contactId - 1];
       && j < |w| && a in w[j].logs.accepted && a.root == c.root && a.role == Opposite(c.role)
       && a.epoch == ps.epoch && a.sequence == ps.sequence && a.packetId == ps.packetId && a.text == s.pendingText
       && Guarantees.RefusedForGood(w[j], a.root, a.epoch, a.sequence)
  }

  lemma AckSoundHere(cr: Crypto, w: World, k: nat, f: bytes, now: u64, packetId: u32) returns (j: nat, a: Taken)
    requires WorldInv(cr, w) && WorldAllowed(cr, w, k, Action.OnFrame(f, now, packetId))
    requires Engine.OnFrame(cr, w[k].ram, f, now, packetId).result.kind.Ack?
    ensures AcceptedByPeer(w, k, j, a)
  {
    hide WorldInv, WorldAllowed, Engine.OnFrame, Frame.Decode, OnOpened, Unforged, KeysSeparate, OpenBody, AckBody,
      Guarantees.RefusedForGood, Inv, FullInv, Allowed, InTurn;
    AllowedAt(cr, w, k, Action.OnFrame(f, now, packetId));
    var s := w[k].ram;
    if Frame.Decode(f).Err? { UndecodableIgnored(cr, s, f, now, packetId); }
    var h := Frame.Decode(f).value.header;
    var slot, pt := OnFrameCases(cr, s, f, now, packetId);
    OpenedCase(cr, s, f, now, packetId, slot, pt);
    AckMatches(cr, s, slot, h, pt, packetId);
    var r := Authentic(cr, w, k, f, slot, pt);
    j :| 0 <= j < |w| && r in w[j].logs.air;
    var c, ps := s.contacts[slot], s.pendingSend.value;
    a := AcceptedBehindAck(cr, w, j, r, ps.epoch, ps.sequence, ps.packetId);
    SlotUsed(cr, w, k, slot);
    SameText(cr, w, k, slot, a);
    NodeAt(cr, w, j);
    Guarantees.AcceptedStaysRefused(cr, w[j], a);
  }

  /** In every reachable world, an ACK that matches a node's pending send means acceptance by the peer. */
  lemma AckSound(cr: Crypto, w0: World, steps: seq<(nat, Action)>, k: nat, f: bytes, now: u64, packetId: u32)
    returns (j: nat, a: Taken)
    requires AllBlank(w0) && WorldDisciplined(cr, w0, steps)
    requires WorldAllowed(cr, WorldRun(cr, w0, steps), k, Action.OnFrame(f, now, packetId))
    requires Engine.OnFrame(cr, WorldRun(cr, w0, steps)[k].ram, f, now, packetId).result.kind.Ack?
    ensures AcceptedByPeer(WorldRun(cr, w0, steps), k, j, a)
  {
    hide WorldInv, WorldAllowed, Engine.OnFrame, AcceptedByPeer, WorldRun, WorldDisciplined;
    WorldRunInv(cr, w0, steps);
    j, a := AckSoundHere(cr, WorldRun(cr, w0, steps), k, f, now, packetId);
  }

  lemma SameText(cr: Crypto, w: World, k: nat, slot: nat, a: Taken)
    requires WorldInv(cr, w) && k < |w| && !w[k].ram.fault && w[k].ram.pendingSend.Some? && TakenSent(w, a)
    requires slot < MAX_CONTACTS && w[k].ram.pendingSend.value.contactId == slot + 1 && w[k].ram.contacts[slot].present
    requires var c := w[k].ram.contacts[slot]; a.root == c.root && Opposite(a.role) == c.role
    requires a.sequence == w[k].ram.pendingSend.value.sequence
    ensures a.text == w[k].ram.pendingText && a.packetId == w[k].ram.pendingSend.value.packetId
  {
    hide WorldInv;
    var d :| OnAir(w, d) && IsData(d) && d.root == a.root && d.role == Opposite(a.role) && d.plaintext == DataBody(a.text)
             && d.header.epoch == a.epoch && d.header.sequence == a.sequence && d.header.packetId == a.packetId;
    PendingSent(cr, w, k, d, slot);
    assert DataBody(a.text)[1..] == a.text && DataBody(w[k].ram.pendingText)[1..] == w[k].ram.pendingText;
  }
}
