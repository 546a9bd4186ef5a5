/** Managed flooding: the 64-entry suppression cache and hop-rewriting forwarding. */
module Relay {
  import opened Bytes
  import opened Frame
  import Crc

  const SIZE: nat := 64
  const TTL_MS: nat := 8_000

  datatype Observed = New | Duplicate

  datatype Entry<K> = Entry(key: K, expires: u64, occupied: bool)

  datatype Outcome<K> = Outcome(entries: seq<Entry<K>>, observed: Observed)

  /** `now_ms.saturating_add(RELAY_CACHE_TTL_MS)` */
  function Expiry(now: u64): u64 { if now + TTL_MS < U64 then now + TTL_MS else U64 - 1 }

  predicate Live<K>(e: Entry<K>, now: u64) { e.occupied && now < e.expires }

  /** The first pass from slot `i` on: expired slots are freed until a live equal key ends the pass. */
  function Scan<K(==)>(es: seq<Entry<K>>, key: K, now: u64, i: nat): (r: Outcome<K>)
    requires i <= |es|
    ensures |r.entries| == |es|
    decreases |es| - i
  {
    if i == |es| then Outcome(es, New)
    else if es[i].occupied && now >= es[i].expires then
      Scan(es[i := es[i].(occupied := false)], key, now, i + 1)
    else if es[i].occupied && es[i].key == key then Outcome(es, Duplicate)
    else Scan(es, key, now, i + 1)
  }

  /** Slot to overwrite: the first free one, else the first with the least expiry. */
  function Victim<K>(es: seq<Entry<K>>, i: nat, best: nat, bestExpires: u64): nat
    requires i <= |es|
    decreases |es| - i
  {
    if i == |es| then best
    else if !es[i].occupied then i
    else if es[i].expires < bestExpires then Victim(es, i + 1, i, es[i].expires)
    else Victim(es, i + 1, best, bestExpires)
  }

  lemma {:induction false} VictimInRange<K>(es: seq<Entry<K>>, i: nat, best: nat, bestExpires: u64)
    requires i <= |es| && best < |es|
    ensures Victim(es, i, best, bestExpires) < |es|
    decreases |es| - i
  {
    if i < |es| && es[i].occupied {
      if es[i].expires < bestExpires { VictimInRange(es, i + 1, i, es[i].expires); }
      else { VictimInRange(es, i + 1, best, bestExpires); }
    }
  }

  function Noted<K(==)>(es: seq<Entry<K>>, key: K, now: u64): (r: Outcome<K>)
    requires |es| == SIZE
    ensures |r.entries| == SIZE
  {
    var s := Scan(es, key, now, 0);
    if s.observed == Duplicate then s
    else
      VictimInRange(s.entries, 0, 0, U64 - 1);
      Outcome(s.entries[Victim(s.entries, 0, 0, U64 - 1) := Entry(key, Expiry(now), true)], New)
  }

  class RelayCache<K(==)> {
    const entries: array<Entry<K>>

    constructor (zero: K)
      ensures fresh(entries) && entries.Length == SIZE
      ensures forall i :: 0 <= i < SIZE ==> entries[i] == Entry(zero, 0, false)
    {
      entries := new Entry<K>[SIZE](i => Entry(zero, 0, false));
    }

    method Observe(key: K, now: u64) returns (r: Observed)
      requires entries.Length == SIZE
      modifies entries
      ensures Outcome(entries[..], r) == Noted(old(entries[..]), key, now)
    {
      ghost var before := entries[..];
      for i := 0 to SIZE
        invariant Scan(before, key, now, 0) == Scan(entries[..], key, now, i)
      {
        var e := entries[i];
        if !e.occupied { continue; }
        if now >= e.expires {
          entries[i] := e.(occupied := false);
          continue;
        }
        if e.key == key { return Duplicate; }
      }
      var victim: nat, least: u64 := 0, U64 - 1;
      var free: Option<nat> := None;
      for i := 0 to SIZE
        invariant victim < SIZE && free.None?
        invariant Victim(entries[..], 0, 0, U64 - 1) == Victim(entries[..], i, victim, least)
      {
        var e := entries[i];
        if !e.occupied {
          free := Some(i);
          break;
        }
        if e.expires < least { least, victim := e.expires, i; }
      }
      var slot := if free.Some? then free.value else victim;
      entries[slot] := Entry(key, Expiry(now), true);
      return New;
    }
  }

  // ---- refinement of a map from keys to expiries ----

  /** `last` holds the expiry each key was last stored with, `stores` every (key, expiry) ever stored. */
  datatype History<!K> = History(last: map<K, u64>, stores: set<(K, u64)>)

  ghost function Others<K>(h: History<K>, key: K, expires: u64): set<K> {
    set p | p in h.stores && p.0 != key && p.1 >= expires :: p.0
  }

  ghost predicate Holds<K(!new)>(es: seq<Entry<K>>, key: K) {
    exists i :: 0 <= i < |es| && es[i].occupied && es[i].key == key
  }

  predicate Distinct<K(==)>(es: seq<Entry<K>>) {
    forall i, j :: 0 <= i < j < |es| && es[i].occupied && es[j].occupied ==> es[i].key != es[j].key
  }

  ghost predicate Refines<K(!new)>(es: seq<Entry<K>>, h: History<K>, now: u64) {
    && |es| == SIZE
    && Distinct(es)
    && (forall i :: 0 <= i < SIZE && es[i].occupied ==> es[i].key in h.last && h.last[es[i].key] == es[i].expires)
    && (forall k :: k in h.last ==> (k, h.last[k]) in h.stores)
    && (forall p :: p in h.stores ==> p.1 <= Expiry(now))
    && (forall k :: k in h.last && now < h.last[k] && !Holds(es, k) ==> |Others(h, k, h.last[k])| >= SIZE)
  }

  ghost function Recorded<K>(h: History<K>, key: K, now: u64, o: Observed): History<K> {
    if o == Duplicate then h
    else History(h.last[key := Expiry(now)], h.stores + {(key, Expiry(now))})
  }

  lemma {:induction false} ScanFrees<K>(es: seq<Entry<K>>, key: K, now: u64, i: nat)
    requires i <= |es|
    ensures var s := Scan(es, key, now, i);
            && (forall j :: 0 <= j < |es| ==> s.entries[j] == es[j] ||
                                              (es[j].occupied && now >= es[j].expires && s.entries[j] == es[j].(occupied := false)))
            && (s.observed == New ==> forall j :: i <= j < |es| && s.entries[j].occupied ==> Live(s.entries[j], now) && es[j].key != key)
            && (s.observed == Duplicate ==> exists j :: i <= j < |es| && s.entries[j] == es[j] && Live(es[j], now) && es[j].key == key)
            && (forall j :: 0 <= j < i ==> s.entries[j] == es[j])
    decreases |es| - i
  {
    if i < |es| {
      if es[i].occupied && now >= es[i].expires {
        ScanFrees(es[i := es[i].(occupied := false)], key, now, i + 1);
      } else if es[i].occupied && es[i].key == key {
      } else {
        ScanFrees(es, key, now, i + 1);
      }
    }
  }

  lemma {:induction false} VictimIsOldest<K>(es: seq<Entry<K>>, i: nat, best: nat, bestExpires: u64)
    requires i <= |es| && best < |es|
    requires forall j :: 0 <= j < i ==> es[j].occupied && es[j].expires >= bestExpires
    requires bestExpires == U64 - 1 || (es[best].occupied && es[best].expires == bestExpires)
    ensures var v := Victim(es, i, best, bestExpires);
            v < |es| && (es[v].occupied ==> forall j :: 0 <= j < |es| ==> es[j].occupied && es[j].expires >= es[v].expires)
    decreases |es| - i
  {
    if i < |es| && es[i].occupied {
      if es[i].expires < bestExpires { VictimIsOldest(es, i + 1, i, es[i].expires); }
      else { VictimIsOldest(es, i + 1, best, bestExpires); }
    }
  }

  /** The keys of the first `n` entries. */
  ghost function Keys<K>(es: seq<Entry<K>>, n: nat): set<K>
    requires n <= |es|
  {
    if n == 0 then {} else Keys(es, n - 1) + {es[n - 1].key}
  }

  lemma {:induction false} KeysDistinct<K>(es: seq<Entry<K>>, n: nat)
    requires n <= |es| && Distinct(es) && forall i :: 0 <= i < n ==> es[i].occupied
    ensures |Keys(es, n)| == n
    ensures forall k :: k in Keys(es, n) <==> exists i :: 0 <= i < n && es[i].key == k
  {
    if n > 0 { KeysDistinct(es, n - 1); }
  }

  /** A full cache that loses `v` to a new key leaves 64 other keys at least as young as `v`. */
  lemma {:induction false} EvictionNeeds64<K(!new)>(es: seq<Entry<K>>, h: History<K>, v: nat, key: K, now: u64)
    requires Refines(es, h, now) && v < SIZE && !Holds(es, key)
    requires forall i :: 0 <= i < SIZE ==> es[i].occupied && es[i].expires >= es[v].expires && now < es[i].expires
    ensures |Others(Recorded(h, key, now, New), es[v].key, es[v].expires)| >= SIZE
  {
    var h', k := Recorded(h, key, now, New), es[v].key;
    KeysDistinct(es, SIZE);
    var young := Keys(es, SIZE) - {k} + {key};
    assert key !in Keys(es, SIZE);
    assert |young| == SIZE;
    forall x | x in young ensures x in Others(h', k, es[v].expires) { YoungerStored(es, h, v, key, now, x); }
    SubsetSize(young, Others(h', k, es[v].expires));
  }

  /** The new key, and every other key of the cache, counts. */
  lemma YoungerStored<K(!new)>(es: seq<Entry<K>>, h: History<K>, v: nat, key: K, now: u64, x: K)
    requires Refines(es, h, now) && v < SIZE && !Holds(es, key)
    requires forall i :: 0 <= i < SIZE ==> es[i].occupied && es[i].expires >= es[v].expires && now < es[i].expires
    requires x in Keys(es, SIZE) - {es[v].key} + {key}
    ensures x in Others(Recorded(h, key, now, New), es[v].key, es[v].expires)
  {
    var h', k := Recorded(h, key, now, New), es[v].key;
    KeysDistinct(es, SIZE);
    if x == key {
      assert (k, es[v].expires) in h.stores && (key, Expiry(now)) in h'.stores;
    } else {
      var i :| 0 <= i < SIZE && es[i].key == x;
      assert (x, es[i].expires) in h'.stores;
    }
  }

  lemma {:induction false} SubsetSize<T>(a: set<T>, b: set<T>)
    requires a <= b
    ensures |a| <= |b|
  {
    assert b == a + (b - a);
  }

  lemma {:induction false} OthersGrow<K(!new)>(h: History<K>, h': History<K>, k: K, e: u64)
    requires h.stores <= h'.stores
    ensures |Others(h, k, e)| <= |Others(h', k, e)|
  {
    SubsetSize(Others(h, k, e), Others(h', k, e));
  }

  lemma {:induction false} ScanRefines<K(!new)>(es: seq<Entry<K>>, h: History<K>, key: K, before: u64, now: u64)
    requires Refines(es, h, before) && before <= now
    ensures Refines(Scan(es, key, now, 0).entries, h, now)
  {
    ScanFrees(es, key, now, 0);
    var s := Scan(es, key, now, 0).entries;
    forall k | k in h.last && now < h.last[k] && Holds(es, k) ensures Holds(s, k) {
      var i :| 0 <= i < |es| && es[i].occupied && es[i].key == k;
      assert s[i] == es[i];
    }
  }

  /** One observation, at any later time: a duplicate is a key whose last storing has not expired, and it moves no
      expiry; a key is new when it was never stored, has expired, or at least 64 other keys at least as young
      were stored. */
  lemma {:induction false} ObserveRefines<K(!new)>(es: seq<Entry<K>>, h: History<K>, key: K, before: u64, now: u64)
    requires Refines(es, h, before) && before <= now
    ensures var o := Noted(es, key, now);
            && Refines(o.entries, Recorded(h, key, now, o.observed), now)
            && (o.observed == Duplicate ==> key in h.last && now < h.last[key])
            && (o.observed == New ==> key !in h.last || h.last[key] <= now || |Others(h, key, h.last[key])| >= SIZE)
  {
    ScanFrees(es, key, now, 0);
    ScanRefines(es, h, key, before, now);
    var s := Scan(es, key, now, 0);
    if s.observed == New {
      assert !Holds(s.entries, key);
      InsertRefines(s.entries, h, key, now);
    }
  }

  lemma {:induction false} InsertRefines<K(!new)>(es: seq<Entry<K>>, h: History<K>, key: K, now: u64)
    requires Refines(es, h, now) && !Holds(es, key)
    requires forall i :: 0 <= i < SIZE && es[i].occupied ==> now < es[i].expires
    ensures var v := Victim(es, 0, 0, U64 - 1);
            v < SIZE && Refines(es[v := Entry(key, Expiry(now), true)], Recorded(h, key, now, New), now)
  {
    VictimIsOldest(es, 0, 0, U64 - 1);
    var v, h' := Victim(es, 0, 0, U64 - 1), Recorded(h, key, now, New);
    var es' := es[v := Entry(key, Expiry(now), true)];
    assert es'[v].occupied && es'[v].key == key;
    forall i | 0 <= i < SIZE && es[i].occupied ensures es[i].key != key { assert !Holds(es, key); }
    forall k | k in h.last && now < h.last[k] && k != key
      ensures Holds(es', k) || |Others(h', k, h.last[k])| >= SIZE
    {
      if Holds(es, k) {
        var i :| 0 <= i < SIZE && es[i].occupied && es[i].key == k;
        if i == v { EvictionNeeds64(es, h, v, key, now); } else { assert es'[i] == es[i]; }
      } else {
        OthersGrow(h, h', k, h.last[k]);
      }
    }
  }

  // ---- forwarding ----

  predicate ShouldForward(hops: byte, isLocalEcho: bool, isLocallyDelivered: bool) {
    hops == 1 && !isLocalEcho && !isLocallyDelivered
  }

  /** The frame with hop byte zero and a fresh checksum. */
  function Rewritten(f: bytes): (g: bytes)
    requires |f| >= 30
    ensures |g| == |f|
  {
    var p := f[..14] + [0] + f[15..|f| - 2];
    p + Be16(Crc.Sum(p))
  }

  method PrepareForward(f: bytes, out: array<byte>) returns (r: Result<nat, Reject>)
    modifies out
    ensures match Decode(f)
            case Err(e) => r == Err(e)
            case Ok(d) => if d.header.hops != 1 then r == Err(BadHops)
                          else if out.Length < |f| then r == Err(TooLong)
                          else r == Ok(|f|)
    ensures r.Err? ==> out[..] == old(out[..])
    ensures r.Ok? ==> out[..|f|] == Rewritten(f)
    ensures r.Ok? ==> forall j :: |f| <= j < out.Length ==> out[j] == old(out[j])
  {
    var d := Decode(f);
    if d.Err? { return Err(d.error); }
    if d.value.header.hops != 1 { return Err(BadHops); }
    if out.Length < |f| { return Err(TooLong); }
    var n := |f|;
    var p := Put(out, 0, f);
    out[14] := 0;
    assert out[..n - 2] == f[..14] + [0] + f[15..n - 2];
    var crc := Crc.Crc16(out[..n - 2]);
    p := Put(out, n - 2, Be16(crc));
    return Ok(n);
  }

  /** What the cache key is a digest of: everything but the hop byte and the checksum. */
  function Immutable(f: bytes): bytes
    requires |f| >= 30
  {
    f[..14] + f[15..|f| - 2]
  }

  /** A forwarded frame is the encoding of the same header and body with the hop count spent; it keeps the
      digest input of the original and is never forwarded again. */
  lemma ForwardIsTransparent(f: bytes)
    requires Decode(f).Ok? && Decode(f).value.header.hops == 1
    ensures var d := Decode(f).value;
            && |d.body| <= MAX_BODY_LEN
            && Rewritten(f) == Encoded(d.header.(hops := 0), d.body)
            && Decode(Rewritten(f)) == Ok(Decoded(d.header.(hops := 0), d.body))
            && Immutable(Rewritten(f)) == Immutable(f)
  {
    var d := Decode(f).value;
    var h, h' := d.header, d.header.(hops := 0);
    EncodeDecoded(f);
    var p, p' := Payload(h, d.body), Payload(h', d.body);
    HopByte(h, |d.body|, d.body);
    assert f[..|f| - 2] == p;
    assert f[..14] == p[..14] && f[15..|f| - 2] == p[15..];
    assert Rewritten(f) == Encoded(h', d.body);
    assert Rewritten(f)[..|f| - 2] == p';
    assert Rewritten(f)[..14] == p'[..14] && Rewritten(f)[15..|f| - 2] == p'[15..];
    DecodeEncoded(h', d.body);
  }

  lemma HopByte(h: Header, n: byte, body: bytes)
    ensures var (p, p') := (HeaderBytes(h, n) + body, HeaderBytes(h.(hops := 0), n) + body);
            p' == p[..14] + [0] + p[15..]
  {
    hide Be32, Be64;
    var p, p' := HeaderBytes(h, n) + body, HeaderBytes(h.(hops := 0), n) + body;
    var a := [h.version, h.flags] + Be32(h.dst) + Be32(h.src) + Be32(h.packetId);
    var b := Be32(h.epoch) + Be64(h.sequence) + [n] + body;
    assert p == a + [h.hops] + b && p' == a + [0] + b;
  }
}
