/** The transmit gate: policy generations and the tokens they outdate. */
module Policy {
  import opened Bytes
  import opened Powers
  import opened Persist

  type Generations = s: seq<u32> | |s| == MAX_CONTACTS witness seq(MAX_CONTACTS, i => 0)

  datatype PolicyState = PolicyState(enabled: bool, blocked: u32, allGen: u32, contactGen: Generations)

  datatype Token = Token(all: u32, contactGen: u32, contact: Option<byte>)

  /** One `set_policy` call. */
  datatype Call = Call(enabled: bool, blocked: u32)

  function Initial(): PolicyState { PolicyState(false, 0, 0, seq(MAX_CONTACTS, i => 0)) }

  function Next(g: u32): u32 { (g + 1) % U32 }

  function ContactIndex(contact: byte): Option<nat> {
    if 1 <= contact <= MAX_CONTACTS then Some(contact - 1) else None
  }

  function Mint(p: PolicyState, contact: Option<byte>): Token {
    var known := contact.Some? && ContactIndex(contact.value).Some?;
    Token(p.allGen, if known then p.contactGen[ContactIndex(contact.value).value] else 0, contact)
  }

  function GenAfter(p: PolicyState, blocked: u32, i: nat): u32
    requires i < MAX_CONTACTS
  {
    if Bit(p.blocked, i) != Bit(blocked, i) then Next(p.contactGen[i]) else p.contactGen[i]
  }

  function Changed(p: PolicyState, c: Call): PolicyState {
    PolicyState(c.enabled, c.blocked, if p.enabled != c.enabled then Next(p.allGen) else p.allGen,
                seq(MAX_CONTACTS, i requires 0 <= i < MAX_CONTACTS => GenAfter(p, c.blocked, i)))
  }

  predicate Valid(p: PolicyState, contact: Option<byte>, t: Token) {
    && p.enabled && t.all == p.allGen && t.contact == contact
    && (contact.Some? ==>
          && ContactIndex(contact.value).Some?
          && !Bit(p.blocked, ContactIndex(contact.value).value)
          && t.contactGen == p.contactGen[ContactIndex(contact.value).value])
  }

  /** The locked policy cell. */
  class PolicyGate {
    var enabled: bool
    var blocked: u32
    var allGen: u32
    const contactGen: array<u32>

    ghost function Value(): PolicyState
      requires contactGen.Length == MAX_CONTACTS
      reads this, contactGen
    {
      PolicyState(enabled, blocked, allGen, contactGen[..])
    }

    constructor ()
      ensures contactGen.Length == MAX_CONTACTS && fresh(contactGen) && Value() == Initial()
    {
      enabled, blocked, allGen := false, 0, 0;
      contactGen := new u32[MAX_CONTACTS](i => 0);
      new;
      assert contactGen[..] == Initial().contactGen;
    }

    method TxToken(contact: Option<byte>) returns (t: Token)
      requires contactGen.Length == MAX_CONTACTS
      ensures t == Mint(Value(), contact)
    {
      var gen: u32 := 0;
      if contact.Some? {
        var i := ContactIndex(contact.value);
        if i.Some? { gen := contactGen[i.value]; }
      }
      return Token(allGen, gen, contact);
    }

    method SetPolicy(on: bool, mask: u32)
      requires contactGen.Length == MAX_CONTACTS
      modifies this, contactGen
      ensures Value() == Changed(old(Value()), Call(on, mask))
    {
      if enabled != on { allGen := Next(allGen); }
      var i := 0;
      while i < MAX_CONTACTS
        modifies contactGen
        invariant 0 <= i <= MAX_CONTACTS
        invariant forall j :: 0 <= j < i ==>
                    contactGen[j] == if Bit(blocked, j) != Bit(mask, j) then Next(old(contactGen[j])) else old(contactGen[j])
        invariant forall j :: i <= j < MAX_CONTACTS ==> contactGen[j] == old(contactGen[j])
      {
        if Bit(blocked, i) != Bit(mask, i) { contactGen[i] := Next(contactGen[i]); }
        i := i + 1;
      }
      enabled, blocked := on, mask;
      assert contactGen[..] == Changed(old(Value()), Call(on, mask)).contactGen;
    }

    method TokenValid(contact: Option<byte>, t: Token) returns (ok: bool)
      requires contactGen.Length == MAX_CONTACTS
      ensures ok == Valid(Value(), contact, t)
    {
      if !enabled || t.all != allGen || t.contact != contact { return false; }
      if contact.None? { return true; }
      var i := ContactIndex(contact.value);
      if i.None? || Bit(blocked, i.value) { return false; }
      return t.contactGen == contactGen[i.value];
    }
  }

  // ---- histories ----

  function After(h: seq<Call>): PolicyState {
    if h == [] then Initial() else Changed(After(h[..|h| - 1]), h[|h| - 1])
  }

  predicate EnabledAfter(h: seq<Call>, n: nat)
    requires n <= |h|
  {
    n > 0 && h[n - 1].enabled
  }

  predicate BlockedAfter(h: seq<Call>, n: nat, i: nat)
    requires n <= |h|
  {
    n > 0 && Bit(h[n - 1].blocked, i)
  }

  /** Enable edges among calls m..n. */
  function Edges(h: seq<Call>, m: nat, n: nat): nat
    requires m <= n <= |h|
  {
    if m == n then 0
    else Edges(h, m, n - 1) + if EnabledAfter(h, n - 1) != EnabledAfter(h, n) then 1 else 0
  }

  /** Changes of block bit `i` among calls m..n. */
  function Flips(h: seq<Call>, m: nat, n: nat, i: nat): nat
    requires m <= n <= |h|
  {
    if m == n then 0
    else Flips(h, m, n - 1, i) + if BlockedAfter(h, n - 1, i) != BlockedAfter(h, n, i) then 1 else 0
  }

  lemma {:induction false} ZeroBit(i: nat)
    ensures !Bit(0, i)
  {
    if i > 0 { ZeroBit(i - 1); }
  }

  lemma AfterFields(h: seq<Call>)
    ensures var p := After(h);
            p.enabled == EnabledAfter(h, |h|) && forall i :: 0 <= i < MAX_CONTACTS ==> Bit(p.blocked, i) == BlockedAfter(h, |h|, i)
  {
    forall i | 0 <= i < MAX_CONTACTS ensures !Bit(0, i) { ZeroBit(i); }
  }

  lemma {:induction false} Prefixed(h: seq<Call>, k: nat, m: nat, n: nat, i: nat)
    requires m <= n <= k <= |h|
    ensures Edges(h[..k], m, n) == Edges(h, m, n) && Flips(h[..k], m, n, i) == Flips(h, m, n, i)
  {
    if m < n { Prefixed(h, k, m, n - 1, i); }
  }

  lemma NextCounts(g: u32, n: nat, more: bool)
    ensures (if more then Next((g + n) % U32) else (g + n) % U32) == (g + n + if more then 1 else 0) % U32
  {}

  lemma LastCall(h: seq<Call>, i: nat)
    requires |h| > 0 && i < MAX_CONTACTS
    ensures var (k, p, q) := (|h| - 1, After(h[..|h| - 1]), After(h));
            && q.allGen == (if EnabledAfter(h, k) != EnabledAfter(h, k + 1) then Next(p.allGen) else p.allGen)
            && q.contactGen[i] == if BlockedAfter(h, k, i) != BlockedAfter(h, k + 1, i) then Next(p.contactGen[i]) else p.contactGen[i]
  {
    hide Next, Bit;
    AfterFields(h[..|h| - 1]);
  }

  /** Generations count edges and flips modulo 2^32. */
  lemma {:induction false} GenerationsCount(h: seq<Call>, m: nat, i: nat)
    requires m <= |h| && i < MAX_CONTACTS
    ensures After(h).allGen == (After(h[..m]).allGen + Edges(h, m, |h|)) % U32
    ensures After(h).contactGen[i] == (After(h[..m]).contactGen[i] + Flips(h, m, |h|, i)) % U32
  {
    hide After, EnabledAfter, BlockedAfter, Bit, Next;
    if m == |h| {
      assert h[..m] == h;
    } else {
      var k := |h| - 1;
      GenerationsCount(h[..k], m, i);
      assert h[..k][..m] == h[..m];
      Prefixed(h, k, m, k, i);
      LastCall(h, i);
      var p := After(h[..m]);
      NextCounts(p.allGen, Edges(h, m, k), EnabledAfter(h, k) != EnabledAfter(h, k + 1));
      NextCounts(p.contactGen[i], Flips(h, m, k, i), BlockedAfter(h, k, i) != BlockedAfter(h, k + 1, i));
    }
  }

  /** A token is honoured exactly when transmission is enabled, no enable edge (modulo the counter) came since it
      was minted, and for a contact its bit is clear and has not flipped (modulo the counter) since. */
  lemma TokenValidIff(h: seq<Call>, m: nat, contact: Option<byte>)
    requires m <= |h|
    ensures Valid(After(h), contact, Mint(After(h[..m]), contact)) <==>
            && EnabledAfter(h, |h|) && Edges(h, m, |h|) % U32 == 0
            && (contact.Some? ==>
                  && ContactIndex(contact.value).Some?
                  && !BlockedAfter(h, |h|, ContactIndex(contact.value).value)
                  && Flips(h, m, |h|, ContactIndex(contact.value).value) % U32 == 0)
  {
    hide After, Edges, Flips, Bit;
    AfterFields(h);
    GenerationsCount(h, m, 0);
    SameMod(After(h[..m]).allGen, Edges(h, m, |h|));
    if contact.Some? && ContactIndex(contact.value).Some? {
      var i := ContactIndex(contact.value).value;
      GenerationsCount(h, m, i);
      SameMod(After(h[..m]).contactGen[i], Flips(h, m, |h|, i));
    }
  }

  lemma SameMod(g: u32, n: nat)
    ensures g == (g + n) % U32 <==> n % U32 == 0
  {}

  /** Transmission was enabled, and the contact not blocked, after every call from the `m`-th on. */
  predicate AllowedSince(h: seq<Call>, m: nat, contact: Option<byte>)
    requires m <= |h|
  {
    && (forall k :: m <= k <= |h| ==> EnabledAfter(h, k))
    && (contact.Some? ==>
          && ContactIndex(contact.value).Some?
          && forall k :: m <= k <= |h| ==> !BlockedAfter(h, k, ContactIndex(contact.value).value))
  }

  lemma {:induction false} NoEdges(h: seq<Call>, m: nat, n: nat)
    requires m <= n <= |h|
    ensures Edges(h, m, n) <= n - m
    ensures Edges(h, m, n) == 0 <==> forall k :: m <= k <= n ==> EnabledAfter(h, k) == EnabledAfter(h, n)
  {
    if m < n { NoEdges(h, m, n - 1); }
  }

  lemma {:induction false} NoFlips(h: seq<Call>, m: nat, n: nat, i: nat)
    requires m <= n <= |h|
    ensures Flips(h, m, n, i) <= n - m
    ensures Flips(h, m, n, i) == 0 <==> forall k :: m <= k <= n ==> BlockedAfter(h, k, i) == BlockedAfter(h, n, i)
  {
    if m < n { NoFlips(h, m, n - 1, i); }
  }

  /** With fewer than 2^32 policy calls since minting: a token is honoured exactly when the policy has allowed its
      contact without interruption ever since. */
  lemma TokenMeansAllowedSince(h: seq<Call>, m: nat, contact: Option<byte>)
    requires m <= |h| < m + U32
    ensures Valid(After(h), contact, Mint(After(h[..m]), contact)) <==> AllowedSince(h, m, contact)
  {
    hide After, Edges, Flips, EnabledAfter, BlockedAfter, Mint, Valid;
    TokenValidIff(h, m, contact);
    NoEdges(h, m, |h|);
    if contact.Some? && ContactIndex(contact.value).Some? { NoFlips(h, m, |h|, ContactIndex(contact.value).value); }
  }

  // ---- why the bound is needed ----

  /** Switched on, then off and on again `n` times. */
  function Toggled(n: nat): (h: seq<Call>)
    ensures |h| == n + 1
  {
    if n == 0 then [Call(true, 0)] else Toggled(n - 1) + [Call(n % 2 == 0, 0)]
  }

  lemma {:induction false} ToggledEdges(n: nat)
    ensures Edges(Toggled(n), 1, n + 1) == n && EnabledAfter(Toggled(n), n + 1) == (n % 2 == 0)
  {
    if n > 0 {
      ToggledEdges(n - 1);
      var h := Toggled(n);
      assert h[..n] == Toggled(n - 1);
      Prefixed(h, n, 1, n, 0);
    }
  }

  /** After exactly 2^32 edges the counter is back where it was, and a token from before is honoured although
      transmission had been off in between. */
  lemma WrapRevivesToken()
    ensures var h := Toggled(U32); Valid(After(h), None, Mint(After(h[..1]), None)) && !AllowedSince(h, 1, None)
  {
    var h := Toggled(U32);
    ToggledEdges(U32);
    TokenValidIff(h, 1, None);
    NoEdges(h, 1, |h|);
  }
}
