/** Many boards with their runtimes on one network: what ACKNOWLEDGED means, end to end. */
module RuntimeWorld {
  import opened Bytes
  import opened Security
  import opened Engine
  import opened ContactLog
  import opened Node
  import opened NodePairing
  import opened Runtime
  import opened RuntimeSteps
  import opened RuntimeGuarantees
  import opened RuntimeTrace
  import opened World

  // ---- boards on a network ----

  type Boards = seq<Rt>

  function Nodes(b: Boards): World { seq(|b|, i requires 0 <= i < |b| => b[i].node) }

  /** An event at board `k` in order, with what primitives and randomness give. */
  ghost predicate BoardAllowed(cr: Crypto, b: Boards, k: nat, e: Event) {
    k < |b| && Enabled(cr, b[k], e) && (FirstAct(e).Some? ==> Ideal(cr, Nodes(b), k, FirstAct(e).value))
  }

  function BoardRun(cr: Crypto, b: Boards, steps: seq<(nat, Event)>): Boards {
    if steps == [] then b
    else
      var before, last := BoardRun(cr, b, steps[..|steps| - 1]), steps[|steps| - 1];
      if last.0 < |before| then before[last.0 := Handle(cr, before[last.0], last.1)] else before
  }

  ghost predicate BoardsDisciplined(cr: Crypto, b: Boards, steps: seq<(nat, Event)>) {
    steps == [] ||
    (&& BoardsDisciplined(cr, b, steps[..|steps| - 1])
     && BoardAllowed(cr, BoardRun(cr, b, steps[..|steps| - 1]), steps[|steps| - 1].0, steps[|steps| - 1].1))
  }

  ghost predicate BoardsInv(cr: Crypto, b: Boards) { WorldInv(cr, Nodes(b)) && forall k :: 0 <= k < |b| ==> RtInv(cr, b[k]) }

  // ---- steps ----

  /** Inner actions of a disciplined node keep the world's invariant. */
  lemma {:induction false} InnerRun(cr: Crypto, w: World, k: nat, n0: Node, acts: seq<Action>, i: nat)
    requires WorldInv(cr, w) && k < |w| && Disciplined(cr, n0, acts) && i <= |acts| && w[k] == Run(cr, n0, acts[..i])
    requires forall j :: i <= j < |acts| ==> Inner(acts[j])
    ensures WorldInv(cr, w[k := Run(cr, n0, acts)])
    decreases |acts| - i
  {
    hide WorldInv, Apply, Allowed, Run, Disciplined;
    if i == |acts| {
      assert acts[..i] == acts && w[k := w[k]] == w;
    } else {
      DisciplinedAt(cr, n0, acts, i);
      InnerAllowed(cr, w, k, acts[i]);
      WorldStep(cr, w, k, acts[i]);
      var v := w[k := Apply(cr, w[k], acts[i])];
      InnerRun(cr, v, k, n0, acts, i + 1);
      assert v[k := Run(cr, n0, acts)] == w[k := Run(cr, n0, acts)];
    }
  }

  lemma InnerAllowed(cr: Crypto, w: World, k: nat, a: Action)
    requires k < |w| && Allowed(cr, w[k], a) && Inner(a)
    ensures WorldAllowed(cr, w, k, a)
  {
    hide Allowed;
  }

  lemma FirstAllowed(cr: Crypto, r: Rt, e: Event)
    requires RtInv(cr, r) && Enabled(cr, r, e) && FirstAct(e).Some?
    ensures Allowed(cr, r.node, FirstAct(e).value)
  {
    hide Traced, CacheTrue, PendingInFlight, Apply, FreshOffer, RootSeparate, Activation, OwnOffer, Untouched, CommitInOrder;
  }

  /** One event at one board keeps every board's invariant and the world's. */
  lemma BoardStep(cr: Crypto, b: Boards, k: nat, e: Event)
    requires BoardsInv(cr, b) && BoardAllowed(cr, b, k, e)
    ensures BoardsInv(cr, b[k := Handle(cr, b[k], e)])
  {
    hide WorldInv, RtInv, Handle, Enabled, Ideal;
    var r, t := b[k], Handle(cr, b[k], e);
    HandleInv(cr, r, e);
    BoardTraced(cr, t);
    HandleExtends(cr, r, e);
    NodesAfter(cr, b, k, e);
    var c := b[k := t];
    assert Nodes(c) == Nodes(b)[k := t.node];
    forall i | 0 <= i < |c| ensures RtInv(cr, c[i]) {
      assert i != k ==> c[i] == b[i];
    }
  }

  lemma BoardTraced(cr: Crypto, r: Rt)
    requires RtInv(cr, r)
    ensures Traced(cr, r)
  {
    hide Traced, Flow, BytesLatest;
  }

  lemma NodesAfter(cr: Crypto, b: Boards, k: nat, e: Event)
    requires BoardsInv(cr, b) && BoardAllowed(cr, b, k, e) && Traced(cr, Handle(cr, b[k], e))
    ensures WorldInv(cr, Nodes(b)[k := Handle(cr, b[k], e).node])
  {
    hide WorldInv, RtInv, Handle, Enabled, Ideal, Apply, Allowed, Run, Disciplined, Inner;
    var r, t := b[k], Handle(cr, b[k], e);
    BoardTraced(cr, r);
    HandleExtends(cr, r, e);
    var m := AfterFirst(cr, r, e);
    var w := Nodes(b);
    var v := w[k := m.node];
    if FirstAct(e).Some? {
      FirstAllowed(cr, r, e);
      AllowedHere(cr, w, k, FirstAct(e).value);
      WorldStep(cr, w, k, FirstAct(e).value);
      ActTraced(cr, r, FirstAct(e).value);
    } else {
      assert v == w;
    }
    assert t.acts[..|m.acts|] == m.acts;
    InnerRun(cr, v, k, Blank(r.origin), t.acts, |m.acts|);
    assert v[k := t.node] == w[k := t.node];
  }

  lemma AllowedHere(cr: Crypto, w: World, k: nat, a: Action)
    requires k < |w| && Allowed(cr, w[k], a) && Ideal(cr, w, k, a)
    ensures WorldAllowed(cr, w, k, a)
  {
    hide Allowed, Ideal;
  }

  // ---- every run ----

  /** Powered up for the first time. */
  ghost predicate Started(r: Rt) { exists available: bool, uid: bytes8 :: r == Start(available, uid) }

  ghost predicate AllStarted(b: Boards) { forall k :: 0 <= k < |b| ==> Started(b[k]) }

  lemma StartedBoard(cr: Crypto, r: Rt)
    requires Started(r)
    ensures RtInv(cr, r) && FullInv(cr, r.node) && r.node.logs == Blank(true).logs && r.node.held == NOTHING_HELD
  {
    hide RtInv, Start, FullInv, Blank;
    var available: bool, uid: bytes8 :| r == Start(available, uid);
    StartInv(cr, available, uid);
    BoardTraced(cr, r);
    TracedInv(cr, r);
    StartsBlank(available, uid);
  }

  lemma StartedInv(cr: Crypto, b: Boards)
    requires AllStarted(b)
    ensures BoardsInv(cr, b)
  {
    hide RtInv, Started, FullInv;
    var w := Nodes(b);
    forall k | 0 <= k < |b| ensures RtInv(cr, b[k]) && FullInv(cr, w[k]) && w[k].logs == Blank(true).logs && w[k].held == NOTHING_HELD {
      StartedBoard(cr, b[k]);
    }
    assert forall k :: 0 <= k < |w| ==> NodeClaims(w, w[k]) by { hide TakenSent, AckedSent; }
    hide NodeClaims;
  }

  lemma StartsBlank(available: bool, uid: bytes8)
    ensures var n := Start(available, uid).node; n.logs == Blank(true).logs && n.held == NOTHING_HELD
  {
    hide Engine.SetIdentity, Fresh;
  }

  lemma {:induction false} BoardRunInv(cr: Crypto, b: Boards, steps: seq<(nat, Event)>)
    requires AllStarted(b) && BoardsDisciplined(cr, b, steps)
    ensures BoardsInv(cr, BoardRun(cr, b, steps))
  {
    hide BoardsInv, Handle, AllStarted, BoardAllowed;
    if steps == [] {
      StartedInv(cr, b);
    } else {
      var before, last := steps[..|steps| - 1], steps[|steps| - 1];
      BoardRunInv(cr, b, before);
      BoardIndex(cr, BoardRun(cr, b, before), last.0, last.1);
      BoardStep(cr, BoardRun(cr, b, before), last.0, last.1);
    }
  }

  lemma BoardIndex(cr: Crypto, b: Boards, k: nat, e: Event)
    requires BoardAllowed(cr, b, k, e)
    ensures k < |b|
  {}

  // ---- acknowledgements, end to end ----

  /** The peer's board has accepted exactly the text that the host of board `k` asked for under `id`, and refuses that
      number for good. */
  ghost predicate Delivered(b: Boards, k: nat, id: u64, j: nat, a: Taken) {
    && AcceptedByPeer(Nodes(b), k, j, a) && k < |b|
    && Request(id, b[k].node.ram.pendingSend.value.contactId, a.text) in b[k].asked
  }

  /** In every reachable world of boards: when a host is told ACKNOWLEDGED for a request, the text of that request is
      accepted by the peer for good. */
  lemma AcknowledgedMeansAccepted(cr: Crypto, b0: Boards, steps: seq<(nat, Event)>, k: nat, e: Event, id: u64)
    returns (j: nat, a: Taken)
    requires AllStarted(b0) && BoardsDisciplined(cr, b0, steps) && BoardAllowed(cr, BoardRun(cr, b0, steps), k, e)
    requires Reports(cr, BoardRun(cr, b0, steps)[k], e, id, Acknowledged)
    ensures Delivered(BoardRun(cr, b0, steps), k, id, j, a)
  {
    hide BoardsInv, BoardAllowed, Reports, Delivered, BoardRun, BoardsDisciplined;
    BoardRunInv(cr, b0, steps);
    j, a := AcknowledgedHere(cr, BoardRun(cr, b0, steps), k, e, id);
  }

  lemma AcknowledgedHere(cr: Crypto, b: Boards, k: nat, e: Event, id: u64) returns (j: nat, a: Taken)
    requires BoardsInv(cr, b) && BoardAllowed(cr, b, k, e) && Reports(cr, b[k], e, id, Acknowledged)
    ensures Delivered(b, k, id, j, a)
  {
    hide Reports, WorldInv, RtInv, Enabled, Ideal, Engine.OnFrame, AcceptedByPeer;
    var r, w := b[k], Nodes(b);
    AcknowledgedMeansAck(cr, r, e, id);
    FirstAllowed(cr, r, e);
    AllowedHere(cr, w, k, FirstAct(e).value);
    j, a := AckSoundHere(cr, w, k, e.frame, e.nowMs, e.ackPacketId);
    AskedText(cr, w, k, j, a, r);
  }

  lemma AskedText(cr: Crypto, w: World, k: nat, j: nat, a: Taken, r: Rt)
    requires AcceptedByPeer(w, k, j, a) && RtInv(cr, r) && w[k] == r.node && r.send.Some?
    ensures r.node.ram.pendingSend.Some?
    ensures Request(r.send.value.replyId, r.node.ram.pendingSend.value.contactId, a.text) in r.asked
  {
    hide Traced, CacheTrue, Quiet, BytesLatest;
  }
}
