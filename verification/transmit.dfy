/** The single transmit routine: gate checks, channel activity detection with backoff, trigger. */
module Transmit {
  import opened Bytes
  import opened Powers
  import opened Policy

  const CAD_MAX_ATTEMPTS: nat := 5
  const BACKOFF_CAP_MS: nat := 800
  const RADIO_BUF_LEN: nat := 255

  datatype Cad = Clear | Busy | Broken

  datatype TxFault = Cancelled | ChannelBusy | Radio

  /** What the routine meets: the outcome of its n-th gate check, of its n-th CAD, and of the driver calls. */
  datatype Air = Air(gate: nat -> bool, cad: nat -> Cad, modulation: bool, prepared: bool, completed: bool)

  function Clamp(x: nat, lo: nat, hi: nat): nat
    requires lo <= hi
  {
    if x < lo then lo else if x > hi then hi else x
  }

  /** Wait after the n-th busy attempt: the jitter doubled each time, capped. */
  function Backoff(jitter: u64, n: nat): nat {
    var b := Clamp(jitter, 20, 100) * Pow2(n);
    if b < BACKOFF_CAP_MS then b else BACKOFF_CAP_MS
  }

  function Backoffs(jitter: u64, n: nat): seq<nat> {
    if n == 0 then [] else Backoffs(jitter, n - 1) + [Backoff(jitter, n - 1)]
  }

  /** The channel was busy on the first `n` attempts, the gate open before each of them. */
  predicate BusyFor(air: Air, n: nat) { forall j :: 0 <= j < n ==> air.cad(j) == Busy && air.gate(1 + j) }

  /** Attempt `a` finds the channel clear, and every gate check up to the one after it passes. */
  predicate ClearAt(air: Air, a: nat) {
    a < CAD_MAX_ATTEMPTS && air.gate(0) && BusyFor(air, a) && air.gate(1 + a) && air.cad(a) == Clear && air.gate(2 + a)
  }

  /** The gate is found shut before attempt `n`, or right after that attempt found the channel clear. */
  predicate ShutAt(air: Air, n: nat) {
    n < CAD_MAX_ATTEMPTS && BusyFor(air, n) && (!air.gate(1 + n) || (air.cad(n) == Clear && !air.gate(2 + n)))
  }

  predicate Sendable(air: Air, len: nat) { air.gate(0) && 1 <= len <= RADIO_BUF_LEN && air.modulation }

  method DoTx(len: nat, jitter: u64, air: Air) returns (r: Result<(), TxFault>, triggered: bool, waits: seq<nat>)
    ensures triggered <==> Sendable(air, len) && air.prepared && exists a: nat :: ClearAt(air, a)
    ensures r.Ok? <==> triggered && air.completed
    ensures r == Err(ChannelBusy) <==> Sendable(air, len) && BusyFor(air, CAD_MAX_ATTEMPTS)
    ensures r == Err(Cancelled) <==>
            || !air.gate(0) || len == 0 || len > RADIO_BUF_LEN
            || (air.modulation && exists n: nat :: ShutAt(air, n))
    ensures r == Err(Cancelled) ==> !triggered
    ensures triggered && r.Err? ==> r.error == Radio
    ensures triggered ==> forall a: nat :: ClearAt(air, a) ==> waits == Backoffs(jitter, a)
    ensures exists n: nat :: n < CAD_MAX_ATTEMPTS && waits == Backoffs(jitter, n) && (n > 0 ==> BusyFor(air, n))
  {
    waits, triggered := [], false;
    assert waits == Backoffs(jitter, 0);
    if !air.gate(0) { return Err(Cancelled), false, waits; }
    if len == 0 || len > RADIO_BUF_LEN { return Err(Cancelled), false, waits; }
    if !air.modulation { return Err(Radio), false, waits; }
    var backoff := Clamp(jitter, 20, 100);
    var attempt := 0;
    while attempt < CAD_MAX_ATTEMPTS
      invariant attempt < CAD_MAX_ATTEMPTS && BusyFor(air, attempt)
      invariant backoff == Backoff(jitter, attempt) && waits == Backoffs(jitter, attempt)
      decreases CAD_MAX_ATTEMPTS - attempt
    {
      if !air.gate(1 + attempt) {
        OnlyClear(air, attempt);
        assert ShutAt(air, attempt);
        return Err(Cancelled), false, waits;
      }
      match air.cad(attempt)
      case Clear => break;
      case Busy =>
        OneMoreBusy(air, attempt);
        if attempt + 1 >= CAD_MAX_ATTEMPTS {
          OnlyClear(air, attempt);
          NeverShut(air, attempt + 1);
          return Err(ChannelBusy), false, waits;
        }
        waits := waits + [backoff];
        Doubled(jitter, attempt);
        backoff := if backoff * 2 < BACKOFF_CAP_MS then backoff * 2 else BACKOFF_CAP_MS;
        attempt := attempt + 1;
      case Broken =>
        OnlyClear(air, attempt);
        NeverShut(air, attempt);
        return Err(Radio), false, waits;
    }
    OnlyClear(air, attempt);
    if !air.gate(2 + attempt) {
      assert ShutAt(air, attempt);
      return Err(Cancelled), false, waits;
    }
    NeverShut(air, attempt);
    assert ClearAt(air, attempt);
    if !air.prepared { return Err(Radio), false, waits; }
    return if air.completed then Ok(()) else Err(Radio), true, waits;
  }

  /** After `n` busy attempts only attempt `n` can be the clear one, or a later one if this is busy too. */
  lemma OnlyClear(air: Air, n: nat)
    requires BusyFor(air, n) && !(air.gate(1 + n) && air.cad(n) == Busy && n + 1 < CAD_MAX_ATTEMPTS)
    ensures forall a: nat :: ClearAt(air, a) ==> a == n
    ensures BusyFor(air, CAD_MAX_ATTEMPTS) && n < CAD_MAX_ATTEMPTS ==> n + 1 == CAD_MAX_ATTEMPTS && air.gate(1 + n) && air.cad(n) == Busy
  {
    forall a: nat | ClearAt(air, a) ensures a == n { NotBefore(air, n, a); }
    BusyBefore(air, CAD_MAX_ATTEMPTS, n);
  }

  /** Busy attempts up to `n`, and nothing shut there: the gate was never found shut. */
  lemma NeverShut(air: Air, n: nat)
    requires BusyFor(air, n)
    requires n < CAD_MAX_ATTEMPTS ==> air.gate(1 + n) && air.cad(n) != Busy && (air.cad(n) == Clear ==> air.gate(2 + n))
    ensures forall m: nat :: !ShutAt(air, m)
  {
    forall m: nat ensures !ShutAt(air, m) { NotShut(air, n, m); }
  }

  lemma NotShut(air: Air, n: nat, m: nat)
    requires BusyFor(air, n)
    requires n < CAD_MAX_ATTEMPTS ==> air.gate(1 + n) && air.cad(n) != Busy && (air.cad(n) == Clear ==> air.gate(2 + n))
    ensures !ShutAt(air, m)
  {
    BusyBefore(air, n, m);
    BusyBefore(air, m, n);
  }

  lemma BusyBefore(air: Air, n: nat, j: nat)
    ensures BusyFor(air, n) && j < n ==> air.cad(j) == Busy && air.gate(1 + j)
  {}

  lemma NotBefore(air: Air, n: nat, a: nat)
    requires BusyFor(air, n) && ClearAt(air, a)
    ensures n <= a < CAD_MAX_ATTEMPTS && (n < a ==> air.cad(n) == Busy && air.gate(1 + n))
  {}

  lemma OneMoreBusy(air: Air, n: nat)
    requires BusyFor(air, n) && air.cad(n) == Busy && air.gate(1 + n)
    ensures BusyFor(air, n + 1)
  {}

  lemma Doubled(jitter: u64, n: nat)
    ensures Backoff(jitter, n + 1) == var b := Backoff(jitter, n) * 2; if b < BACKOFF_CAP_MS then b else BACKOFF_CAP_MS
  {
    var c := Clamp(jitter, 20, 100);
    assert c * Pow2(n + 1) == 2 * (c * Pow2(n));
  }

  // ---- the gate against the policy history ----

  /** Check `n` of the routine sees the first `seen(n)` policy calls of `h`, the token being minted after `m` of them. */
  ghost predicate Gated(air: Air, h: seq<Call>, m: nat, contact: Option<byte>, seen: nat -> nat) {
    forall n :: m <= seen(n) <= |h|
                && (air.gate(n) ==> Valid(After(h[..seen(n)]), contact, Mint(After(h[..m]), contact)))
  }

  /** Every trigger follows a clear CAD of the same call and a check at which the policy had allowed this contact
      without interruption since the token was minted. */
  lemma TriggerAllowed(air: Air, a: nat, h: seq<Call>, m: nat, contact: Option<byte>, seen: nat -> nat)
    requires |h| < m + U32 && m <= |h| && Gated(air, h, m, contact, seen) && ClearAt(air, a)
    ensures air.cad(a) == Clear && m <= seen(a + 2) <= |h| && AllowedSince(h[..seen(a + 2)], m, contact)
  {
    hide After, Mint, Valid, AllowedSince;
    var g := h[..seen(a + 2)];
    assert g[..m] == h[..m];
    TokenMeansAllowedSince(g, m, contact);
  }
}
