/** Managed flooding over whole runs: what the cache suppresses, and why forwarding dies out. */
module Flood {
  import opened Bytes
  import opened Frame
  import opened Security
  import opened Persist
  import opened Engine
  import opened Relay
  import NodeFrames
  import Crc

  // ---- the cache over a run of sightings ----

  /** The cache and its history after the sightings (key, time) in order. */
  datatype Tracked<!K> = Tracked(entries: seq<Entry<K>>, history: History<K>)

  ghost function Track<K(!new)>(zero: K, run: seq<(K, u64)>): (t: Tracked<K>)
    ensures |t.entries| == SIZE
  {
    if run == [] then Tracked(seq(SIZE, i => Entry(zero, 0, false)), History(map[], {}))
    else
      var before, s := Track(zero, run[..|run| - 1]), run[|run| - 1];
      var o := Noted(before.entries, s.0, s.1);
      Tracked(o.entries, Recorded(before.history, s.0, s.1, o.observed))
  }

  predicate Ordered<K>(run: seq<(K, u64)>) { forall i, j :: 0 <= i < j < |run| ==> run[i].1 <= run[j].1 }

  function LastTime<K>(run: seq<(K, u64)>): u64 { if run == [] then 0 else run[|run| - 1].1 }

  lemma {:induction false} TrackRefines<K(!new)>(zero: K, run: seq<(K, u64)>)
    requires Ordered(run)
    ensures Refines(Track(zero, run).entries, Track(zero, run).history, LastTime(run))
  {
    if run != [] {
      var b, s := run[..|run| - 1], run[|run| - 1];
      TrackRefines(zero, b);
      hide Refines, Noted;
      ObserveRefines(Track(zero, b).entries, Track(zero, b).history, s.0, LastTime(b), s.1);
    }
  }

  /** The expiry of a key comes from a sighting of it. */
  lemma {:induction false} StoredAt<K(!new)>(zero: K, run: seq<(K, u64)>, key: K) returns (i: nat)
    requires key in Track(zero, run).history.last
    ensures i < |run| && run[i].0 == key && Track(zero, run).history.last[key] == Expiry(run[i].1)
  {
    var b, s := run[..|run| - 1], run[|run| - 1];
    var before := Track(zero, b);
    hide Noted;
    if s.0 == key && Noted(before.entries, s.0, s.1).observed == New { i := |run| - 1; } else { i := StoredAt(zero, b, key); }
  }

  /** A frame is suppressed only within 8000 ms of a sighting that let it through. */
  lemma {:induction false} SuppressedOnlyWhenRecent<K(!new)>(zero: K, run: seq<(K, u64)>, key: K, now: u64)
    requires Ordered(run) && LastTime(run) <= now && Noted(Track(zero, run).entries, key, now).observed == Duplicate
    ensures exists i :: 0 <= i < |run| && run[i].0 == key && run[i].1 <= now < run[i].1 + TTL_MS
  {
    TrackRefines(zero, run);
    hide Refines, Noted, Track;
    ObserveRefines(Track(zero, run).entries, Track(zero, run).history, key, LastTime(run), now);
    var i := StoredAt(zero, run, key);
    assert run[i].1 <= LastTime(run);
  }

  /** A key let through again was never stored, had expired, or 64 other keys at least as young were stored. */
  lemma {:induction false} LetThroughAgainOnlyWhen<K(!new)>(zero: K, run: seq<(K, u64)>, key: K, now: u64)
    requires Ordered(run) && LastTime(run) <= now && Noted(Track(zero, run).entries, key, now).observed == New
    ensures var h := Track(zero, run).history;
            key !in h.last || h.last[key] <= now || |Others(h, key, h.last[key])| >= SIZE
  {
    TrackRefines(zero, run);
    hide Refines, Noted, Track;
    ObserveRefines(Track(zero, run).entries, Track(zero, run).history, key, LastTime(run), now);
  }

  // ---- how often one key is let through ----

  /** Sighting `i` of the run is let through. */
  ghost predicate LetThrough<K(!new)>(zero: K, run: seq<(K, u64)>, i: nat)
    requires i < |run|
  {
    Noted(Track(zero, run[..i]).entries, run[i].0, run[i].1).observed == New
  }

  /** Other keys sighted from time `from` on. */
  ghost function OthersSeen<K>(run: seq<(K, u64)>, key: K, from: u64): set<K> { set s | s in run && s.0 != key && s.1 >= from :: s.0 }

  /** A key let through at sighting `i` is remembered from then on, at least for its lifetime. */
  lemma {:induction false} Remembered<K(!new)>(zero: K, run: seq<(K, u64)>, i: nat, m: nat)
    requires Ordered(run) && i < m <= |run| && LetThrough(zero, run, i)
    ensures var h := Track(zero, run[..m]).history; run[i].0 in h.last && h.last[run[i].0] >= Expiry(run[i].1)
    decreases m
  {
    hide Noted;
    var b := run[..m - 1];
    assert run[..m][..m - 1] == b && run[..m][m - 1] == run[m - 1];
    if i < m - 1 { Remembered(zero, run, i, m - 1); }
  }

  /** Everything ever stored was sighted. */
  lemma {:induction false} StoresSeen<K(!new)>(zero: K, run: seq<(K, u64)>, p: (K, u64)) returns (i: nat)
    requires p in Track(zero, run).history.stores
    ensures i < |run| && run[i].0 == p.0 && Expiry(run[i].1) == p.1
  {
    hide Noted;
    var b, s := run[..|run| - 1], run[|run| - 1];
    if p in Track(zero, b).history.stores { i := StoresSeen(zero, b, p); } else { i := |run| - 1; }
  }

  /** Within the lifetime of an entry its key is let through again only after 64 other keys have been sighted. */
  lemma {:induction false} OncePerLifetime<K(!new)>(zero: K, run: seq<(K, u64)>, i: nat, j: nat)
    requires Ordered(run) && i < j < |run| && run[i].0 == run[j].0 && LetThrough(zero, run, i) && LetThrough(zero, run, j)
    requires run[j].1 < run[i].1 + TTL_MS < U64
    ensures |OthersSeen(run, run[i].0, run[i].1)| >= SIZE
  {
    var b, key := run[..j], run[i].0;
    Remembered(zero, run, i, j);
    LetThroughAgainOnlyWhen(zero, b, key, run[j].1);
    var h := Track(zero, b).history;
    hide Noted, Track;
    var seen, others := OthersSeen(run, key, run[i].1), Others(h, key, h.last[key]);
    forall k | k in others ensures k in seen {
      var p :| p in h.stores && p.0 == k && p.0 != key && p.1 >= h.last[key];
      var m := StoresSeen(zero, b, p);
      assert run[m] == b[m] && run[m] in run;
    }
    SubsetSize(others, seen);
  }

  /** How often `key` is let through from `from` on, within one lifetime. */
  ghost function Passes<K(!new)>(zero: K, run: seq<(K, u64)>, key: K, from: u64, n: nat): nat
    requires n <= |run|
  {
    if n == 0 then 0
    else
      Passes(zero, run, key, from, n - 1)
      + if run[n - 1].0 == key && from <= run[n - 1].1 < from + TTL_MS && LetThrough(zero, run, n - 1) then 1 else 0
  }

  lemma {:induction false} PassedAt<K(!new)>(zero: K, run: seq<(K, u64)>, key: K, from: u64, n: nat) returns (i: nat)
    requires n <= |run| && Passes(zero, run, key, from, n) > 0
    ensures i < n && run[i].0 == key && from <= run[i].1 < from + TTL_MS && LetThrough(zero, run, i)
  {
    hide LetThrough;
    if run[n - 1].0 == key && from <= run[n - 1].1 < from + TTL_MS && LetThrough(zero, run, n - 1) {
      i := n - 1;
    } else {
      i := PassedAt(zero, run, key, from, n - 1);
    }
  }

  /** A node that sights fewer than 64 other frames lets one frame through at most once in its lifetime. */
  lemma {:induction false} PassesOnce<K(!new)>(zero: K, run: seq<(K, u64)>, key: K, from: u64, n: nat)
    requires Ordered(run) && n <= |run| && from + 2 * TTL_MS < U64 && |OthersSeen(run, key, from)| < SIZE
    ensures Passes(zero, run, key, from, n) <= 1
  {
    hide LetThrough;
    if n > 0 {
      PassesOnce(zero, run, key, from, n - 1);
      if Passes(zero, run, key, from, n) > 1 {
        var i := PassedAt(zero, run, key, from, n - 1);
        OncePerLifetime(zero, run, i, n - 1);
        SubsetSize(OthersSeen(run, key, run[i].1), OthersSeen(run, key, from));
      }
    }
  }

  ghost function PassesOfAll<K(!new)>(zero: K, runs: seq<seq<(K, u64)>>, key: K, from: u64): nat {
    if runs == [] then 0
    else PassesOfAll(zero, runs[..|runs| - 1], key, from) + Passes(zero, runs[|runs| - 1], key, from, |runs[|runs| - 1]|)
  }

  /** One frame sets off at most as many forwards within its lifetime as there are nodes. */
  lemma {:induction false} FloodBounded<K(!new)>(zero: K, runs: seq<seq<(K, u64)>>, key: K, from: u64)
    requires from + 2 * TTL_MS < U64
    requires forall run :: run in runs ==> Ordered(run) && |OthersSeen(run, key, from)| < SIZE
    ensures PassesOfAll(zero, runs, key, from) <= |runs|
  {
    hide Passes, Ordered;
    if runs != [] {
      FloodBounded(zero, runs[..|runs| - 1], key, from);
      var last := runs[|runs| - 1];
      PassesOnce(zero, last, key, from, |last|);
    }
  }

  // ---- forwarding ----

  /** What a node hears: its state then, the frame, the time and the packet id it would use for an ACK. */
  datatype Heard = Heard(state: State, frame: bytes, now: u64, ackPacketId: u32)

  predicate Forwards(cr: Crypto, r: Heard) { Engine.OnFrame(cr, r.state, r.frame, r.now, r.ackPacketId).result.kind.Forward? }

  function HopsOf(f: bytes): nat { if Frame.Decode(f).Ok? then Frame.Decode(f).value.header.hops else 0 }

  /** A node forwards only a frame with a hop left, and sends the same header and body with the hop spent. */
  lemma ForwardSpendsTheHop(cr: Crypto, r: Heard)
    requires Forwards(cr, r)
    ensures HopsOf(r.frame) == 1 && |r.frame| >= 30
    ensures var (d, o) := (Frame.Decode(r.frame).value, Engine.OnFrame(cr, r.state, r.frame, r.now, r.ackPacketId).result.out);
            && o.Some? && o.value.frame == Rewritten(r.frame)
            && Frame.Decode(o.value.frame) == Ok(Decoded(d.header.(hops := 0), d.body)) && HopsOf(o.value.frame) == 0
            && cr.digest(Immutable(o.value.frame)) == cr.digest(Immutable(r.frame))
  {
    hide Engine.OnFrame, Rewritten, Encoded, Immutable;
    var (s, f) := (r.state, r.frame);
    if Frame.Decode(f).Err? { NodeFrames.UndecodableIgnored(cr, s, f, r.now, r.ackPacketId); }
    var slot, pt := NodeFrames.OnFrameCases(cr, s, f, r.now, r.ackPacketId);
    ForwardCase(cr, r, slot, pt);
    ForwardIsTransparent(f);
  }

  lemma ForwardCase(cr: Crypto, r: Heard, slot: nat, pt: bytes)
    requires Forwards(cr, r) && Frame.Decode(r.frame).Ok?
    requires NodeFrames.FrameCase(cr, r.state, r.frame, r.now, r.ackPacketId, slot, pt)
    ensures |r.frame| >= 30 && Frame.Decode(r.frame).value.header.hops == 1
    ensures var o := Engine.OnFrame(cr, r.state, r.frame, r.now, r.ackPacketId).result.out; o.Some? && o.value.frame == Rewritten(r.frame)
  {
    hide Engine.OnFrame, Rewritten, Crc.Sum, ReadHeader, OnOpened, Noted;
    var h := Frame.Decode(r.frame).value.header;
    if slot < MAX_CONTACTS && h.epoch in r.state.contacts[slot].winEpochs && BodyOk(h.flags, pt) {
      NodeFrames.OpenedNeverForwards(cr, r.state, slot, h, pt, r.ackPacketId);
    }
  }

  /** A forward is a sighting let through: the engine's cache follows the run of sightings, and it forwards only what the
      cache has not seen. */
  lemma ForwardIsLetThrough(cr: Crypto, r: Heard, run: seq<(bytes, u64)>)
    requires Forwards(cr, r) && r.state.relay == Track([], run).entries && |r.frame| >= 30
    ensures var s := (cr.digest(Immutable(r.frame)), r.now);
            && LetThrough([], run + [s], |run|)
            && Engine.OnFrame(cr, r.state, r.frame, r.now, r.ackPacketId).state.relay == Track([], run + [s]).entries
  {
    hide Engine.OnFrame, Noted, Immutable, Track, LetThrough, Frame.Decode;
    TrackGrows([], run, (cr.digest(Immutable(r.frame)), r.now));
    if Frame.Decode(r.frame).Err? { NodeFrames.UndecodableIgnored(cr, r.state, r.frame, r.now, r.ackPacketId); }
    var slot, pt := NodeFrames.OnFrameCases(cr, r.state, r.frame, r.now, r.ackPacketId);
    ForwardNotes(cr, r, slot, pt);
  }

  lemma {:induction false} TrackGrows<K(!new)>(zero: K, run: seq<(K, u64)>, s: (K, u64))
    ensures var o := Noted(Track(zero, run).entries, s.0, s.1);
            Track(zero, run + [s]).entries == o.entries && (LetThrough(zero, run + [s], |run|) <==> o.observed == New)
  {
    hide Noted;
    assert (run + [s])[..|run|] == run;
  }

  lemma ForwardNotes(cr: Crypto, r: Heard, slot: nat, pt: bytes)
    requires Forwards(cr, r) && Frame.Decode(r.frame).Ok? && |r.frame| >= 30
    requires NodeFrames.FrameCase(cr, r.state, r.frame, r.now, r.ackPacketId, slot, pt)
    ensures var o := Noted(r.state.relay, cr.digest(Immutable(r.frame)), r.now);
            o.observed == New && Engine.OnFrame(cr, r.state, r.frame, r.now, r.ackPacketId).state.relay == o.entries
  {
    hide Engine.OnFrame, Transit, Frame.Decode, OnOpened, Noted, Immutable;
    var h := Frame.Decode(r.frame).value.header;
    TransitNotes(cr, r.state, r.frame, h, r.now);
    TransitNotes(cr, r.state.(authFailures := SatInc(r.state.authFailures)), r.frame, h, r.now);
    if slot < MAX_CONTACTS && h.epoch in r.state.contacts[slot].winEpochs && BodyOk(h.flags, pt) {
      NodeFrames.OpenedNeverForwards(cr, r.state, slot, h, pt, r.ackPacketId);
    }
  }

  lemma TransitNotes(cr: Crypto, s: State, f: bytes, h: Header, now: u64)
    requires |f| >= 30
    ensures var (o, r) := (Noted(s.relay, cr.digest(Immutable(f)), now), Transit(cr, s, f, h, now));
            r.result.kind.Forward? ==> o.observed == New && r.state.relay == o.entries
  {
    hide Noted, Immutable, Rewritten;
  }

  /** No node forwards a frame that has been forwarded already. */
  lemma ForwardedOnce(cr: Crypto, r: Heard, later: Heard)
    requires Forwards(cr, r)
    requires later.frame == Engine.OnFrame(cr, r.state, r.frame, r.now, r.ackPacketId).result.out.value.frame
    ensures !Forwards(cr, later)
  {
    ForwardSpendsTheHop(cr, r);
    hide Forwards, Engine.OnFrame, Frame.Decode;
    if Forwards(cr, later) { ForwardSpendsTheHop(cr, later); }
  }

  function Forwarded(cr: Crypto, rs: seq<Heard>): nat {
    if rs == [] then 0 else Forwarded(cr, rs[..|rs| - 1]) + if Forwards(cr, rs[|rs| - 1]) then 1 else 0
  }

  /** Receptions of frames that nobody has forwarded yet. */
  function Unspent(rs: seq<Heard>): nat {
    if rs == [] then 0 else Unspent(rs[..|rs| - 1]) + if HopsOf(rs[|rs| - 1].frame) == 1 then 1 else 0
  }

  /** Whatever the nodes and their states, forwards are bounded by the receptions of frames with a hop left. */
  lemma {:induction false} ForwardsBounded(cr: Crypto, rs: seq<Heard>)
    ensures Forwarded(cr, rs) <= Unspent(rs)
  {
    hide Forwards, HopsOf;
    if rs != [] {
      ForwardsBounded(cr, rs[..|rs| - 1]);
      if Forwards(cr, rs[|rs| - 1]) { ForwardSpendsTheHop(cr, rs[|rs| - 1]); }
    }
  }

  /** The receiver treats a relayed frame as it would have treated the original. */
  lemma RelayedOpensAlike(cr: Crypto, uid: bytes8, c: Contact, h: Header, body: bytes)
    requires |body| <= MAX_BODY_LEN
    ensures TrySlot(cr, uid, c, h.(hops := 0), body) == TrySlot(cr, uid, c, h, body)
  {
    AadBindsHeader(h, |body|, h.(hops := 0), |body|);
    hide FrameAad, Nonce;
  }
}
