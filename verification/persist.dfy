/** The durable node record: a fixed-size, versioned, big-endian snapshot. */
module Persist {
  import opened Bytes
  import opened Clock
  import opened Replay

  const MAGIC: bytes := [0x4C, 0x4D, 0x53, 0x48] // "LMSH"
  const VERSION: byte := 3
  const MAX_CONTACTS: nat := 16
  const HEADER_BYTES: nat := 61
  const CONTACT_BYTES: nat := 213
  const V2_LEN: nat := HEADER_BYTES + 2 * CONTACT_BYTES
  const LEN: nat := HEADER_BYTES + MAX_CONTACTS * CONTACT_BYTES

  type Windows = s: seq<Window> | |s| == 3 witness [EMPTY, EMPTY, EMPTY]

  const NO_WINDOWS: Windows := [EMPTY, EMPTY, EMPTY]

  datatype Contact = Contact(present: bool, blocked: bool, edPeer: bytes32, peerIdentity: bytes8, root: bytes32,
                             role: byte, txNext: u64, txReserved: u64, txEpochMax: u32, anchor: u32,
                             winEpochs: Epochs, winData: Windows, winAck: Windows)

  const NO_CONTACT: Contact :=
    Contact(false, false, Zeros(32), Zeros(8), Zeros(32), 0, 0, 0, 0, 0, [0, 0, 0], NO_WINDOWS, NO_WINDOWS)

  type Contacts = s: seq<Contact> | |s| == MAX_CONTACTS witness seq(MAX_CONTACTS, i => NO_CONTACT)

  datatype View = View(provisioned: bool, armedNextBoot: bool, boardLabel: byte, uid: bytes8, uidSet: bool,
                       unixSeconds: u64, persistedTxEpoch: u32, signPriv: bytes32, signSet: bool,
                       contacts: Contacts)

  datatype PersistError = BadLength | BadMagic | BadVersion

  // ---- encoding ----

  function EncodeWindow(w: Window): (s: bytes)
    ensures |s| == 17
  {
    Be64(w.highest) + Be64(w.bitmap) + [B2N(w.empty)]
  }

  function EncodeWindows(w: Windows): (s: bytes)
    ensures |s| == 51
  {
    EncodeWindow(w[0]) + EncodeWindow(w[1]) + EncodeWindow(w[2])
  }

  function EncodeEpochs(e: Epochs): (s: bytes)
    ensures |s| == 12
  {
    Be32(e[0]) + Be32(e[1]) + Be32(e[2])
  }

  function EncodePeer(c: Contact): (s: bytes)
    ensures |s| == 75
  {
    [B2N(c.present), B2N(c.blocked)] + c.edPeer + c.peerIdentity + c.root + [c.role]
  }

  function EncodeCounters(c: Contact): (s: bytes)
    ensures |s| == 24
  {
    Be64(c.txNext) + Be64(c.txReserved) + Be32(c.txEpochMax) + Be32(c.anchor)
  }

  function EncodeContact(c: Contact): (s: bytes)
    ensures |s| == CONTACT_BYTES
  {
    EncodePeer(c) + EncodeCounters(c) + EncodeEpochs(c.winEpochs) + EncodeWindows(c.winData) + EncodeWindows(c.winAck)
  }

  function EncodeContacts(cs: seq<Contact>): (s: bytes)
    ensures |s| == |cs| * CONTACT_BYTES
  {
    if cs == [] then [] else EncodeContacts(cs[..|cs| - 1]) + EncodeContact(cs[|cs| - 1])
  }

  function EncodeHeader(v: View): (s: bytes)
    ensures |s| == HEADER_BYTES
  {
    EncodeIdentity(v) + Be64(v.unixSeconds) + Be32(v.persistedTxEpoch) + [B2N(v.signSet)] + v.signPriv
  }

  function EncodeIdentity(v: View): (s: bytes)
    ensures |s| == 16
  {
    MAGIC + [VERSION, B2N(v.provisioned) + 2 * B2N(v.armedNextBoot), v.boardLabel] + v.uid + [B2N(v.uidSet)]
  }

  function Encode(v: View): (s: bytes)
    ensures |s| == LEN
  {
    EncodeHeader(v) + EncodeContacts(v.contacts)
  }

  method PutWindows(out: array<byte>, pos: nat, w: Windows) returns (p: nat)
    requires pos + 51 <= out.Length
    modifies out
    ensures p == pos + 51
    ensures out[..p] == old(out[..pos]) + EncodeWindows(w)
  {
    hide EncodeWindow;
    p := pos;
    for i := 0 to 3
      invariant p == pos + 17 * i
      invariant out[..p] == old(out[..pos]) + WindowsPrefix(w, i)
    {
      p := PutWindow(out, p, w[i]);
    }
    WindowsPrefixes(w);
  }

  method PutWindow(out: array<byte>, pos: nat, w: Window) returns (p: nat)
    requires pos + 17 <= out.Length
    modifies out
    ensures p == pos + 17
    ensures out[..p] == old(out[..pos]) + EncodeWindow(w)
  {
    hide Be64;
    p := Put(out, pos, Be64(w.highest));
    p := Put(out, p, Be64(w.bitmap));
    p := Put(out, p, [B2N(w.empty)]);
  }

  function WindowsPrefix(w: Windows, n: nat): (s: bytes)
    requires n <= 3
    ensures |s| == 17 * n
  {
    if n == 0 then [] else WindowsPrefix(w, n - 1) + EncodeWindow(w[n - 1])
  }

  lemma WindowsPrefixes(w: Windows)
    ensures WindowsPrefix(w, 3) == EncodeWindows(w)
  {
    hide EncodeWindow;
    assert WindowsPrefix(w, 1) == EncodeWindow(w[0]);
  }

  method PutPeer(out: array<byte>, pos: nat, c: Contact) returns (p: nat)
    requires pos + 75 <= out.Length
    modifies out
    ensures p == pos + 75
    ensures out[..p] == old(out[..pos]) + EncodePeer(c)
  {
    p := Put(out, pos, [B2N(c.present)]);
    p := Put(out, p, [B2N(c.blocked)]);
    p := Put(out, p, c.edPeer);
    p := Put(out, p, c.peerIdentity);
    p := Put(out, p, c.root);
    p := Put(out, p, [c.role]);
  }

  method PutCounters(out: array<byte>, pos: nat, c: Contact) returns (p: nat)
    requires pos + 36 <= out.Length
    modifies out
    ensures p == pos + 36
    ensures out[..p] == old(out[..pos]) + (EncodeCounters(c) + EncodeEpochs(c.winEpochs))
  {
    hide Be64, Be32;
    p := Put(out, pos, Be64(c.txNext));
    p := Put(out, p, Be64(c.txReserved));
    p := Put(out, p, Be32(c.txEpochMax));
    p := Put(out, p, Be32(c.anchor));
    assert out[..p] == old(out[..pos]) + EncodeCounters(c);
    ghost var prefix := out[..p];
    for i := 0 to 3
      invariant p == pos + 24 + 4 * i
      invariant out[..p] == prefix + EpochsPrefix(c.winEpochs, i)
    {
      p := Put(out, p, Be32(c.winEpochs[i]));
    }
    EpochsPrefixes(c.winEpochs);
  }

  function EpochsPrefix(e: Epochs, n: nat): (s: bytes)
    requires n <= 3
    ensures |s| == 4 * n
  {
    if n == 0 then [] else EpochsPrefix(e, n - 1) + Be32(e[n - 1])
  }

  lemma EpochsPrefixes(e: Epochs)
    ensures EpochsPrefix(e, 3) == EncodeEpochs(e)
  {
    hide Be32;
    assert EpochsPrefix(e, 1) == Be32(e[0]);
  }

  method PutContact(out: array<byte>, pos: nat, c: Contact) returns (p: nat)
    requires pos + CONTACT_BYTES <= out.Length
    modifies out
    ensures p == pos + CONTACT_BYTES
    ensures out[..p] == old(out[..pos]) + EncodeContact(c)
  {
    hide EncodePeer, EncodeCounters, EncodeEpochs, EncodeWindows;
    p := PutPeer(out, pos, c);
    p := PutCounters(out, p, c);
    p := PutWindows(out, p, c.winData);
    p := PutWindows(out, p, c.winAck);
  }

  method EncodeInto(v: View, out: array<byte>) returns (p: nat)
    requires out.Length >= LEN
    modifies out
    ensures p == LEN && out[..p] == Encode(v)
  {
    hide EncodeContact;
    p := PutHeader(v, out);
    hide EncodeHeader;
    for i := 0 to MAX_CONTACTS
      invariant p == HEADER_BYTES + i * CONTACT_BYTES
      invariant out[..p] == EncodeHeader(v) + EncodeContacts(v.contacts[..i])
    {
      p := PutContact(out, p, v.contacts[i]);
      assert v.contacts[..i + 1][..i] == v.contacts[..i];
    }
    assert v.contacts[..MAX_CONTACTS] == v.contacts;
  }

  method PutIdentity(v: View, out: array<byte>) returns (p: nat)
    requires out.Length >= HEADER_BYTES
    modifies out
    ensures p == |EncodeIdentity(v)| && out[..p] == EncodeIdentity(v)
  {
    p := Put(out, 0, MAGIC);
    p := Put(out, p, [VERSION]);
    p := Put(out, p, [B2N(v.provisioned) + 2 * B2N(v.armedNextBoot)]);
    p := Put(out, p, [v.boardLabel]);
    p := Put(out, p, v.uid);
    p := Put(out, p, [B2N(v.uidSet)]);
  }

  method PutHeader(v: View, out: array<byte>) returns (p: nat)
    requires out.Length >= HEADER_BYTES
    modifies out
    ensures p == HEADER_BYTES && out[..p] == EncodeHeader(v)
  {
    hide EncodeIdentity;
    p := PutIdentity(v, out);
    p := Put(out, p, Be64(v.unixSeconds));
    p := Put(out, p, Be32(v.persistedTxEpoch));
    p := Put(out, p, [B2N(v.signSet)]);
    p := Put(out, p, v.signPriv);
  }

  // ---- decoding ----

  function DecodeWindow(s: bytes): Window
    requires |s| == 17
  {
    Window(FromBe64(s[..8]), FromBe64(s[8..16]), s[16] != 0)
  }

  function DecodeWindows(s: bytes): Windows
    requires |s| == 51
  {
    [DecodeWindow(s[..17]), DecodeWindow(s[17..34]), DecodeWindow(s[34..])]
  }

  function DecodeEpochs(s: bytes): Epochs
    requires |s| == 12
  {
    [FromBe32(s[..4]), FromBe32(s[4..8]), FromBe32(s[8..])]
  }

  predicate WindowsStorable(w: Windows) { Storable(w[0]) && Storable(w[1]) && Storable(w[2]) }

  function ReadContact(s: bytes): Contact
    requires |s| == CONTACT_BYTES
  {
    var (peer, n) := (s[..75], s[75..99]);
    Contact(peer[0] != 0, peer[1] != 0, peer[2..34], peer[34..42], peer[42..74], peer[74],
            FromBe64(n[..8]), FromBe64(n[8..16]), FromBe32(n[16..20]), FromBe32(n[20..]),
            DecodeEpochs(s[99..111]), DecodeWindows(s[111..162]), DecodeWindows(s[162..]))
  }

  /** What the decoder demands of one slot; a free slot keeps no identity, counter or anchor. */
  predicate ContactOk(c: Contact) {
    && c.role <= 1
    && c.txNext <= c.txReserved
    && WindowsStorable(c.winData)
    && WindowsStorable(c.winAck)
    && (!c.present ==>
          && !c.blocked && c.edPeer == Zeros(32) && c.peerIdentity == Zeros(8) && c.root == Zeros(32)
          && c.txNext == 0 && c.txReserved == 0 && c.txEpochMax == 0 && c.anchor == 0)
  }

  predicate ViewOk(v: View) {
    v.boardLabel <= 3 && forall i :: 0 <= i < MAX_CONTACTS ==> ContactOk(v.contacts[i])
  }

  /** The stored slots in order, or `None` as soon as one is malformed. */
  function DecodeContacts(s: bytes, n: nat): (r: Option<seq<Contact>>)
    requires |s| == n * CONTACT_BYTES
    ensures r.Some? ==> |r.value| == n
  {
    if n == 0 then Some([])
    else
      var k := (n - 1) * CONTACT_BYTES;
      match DecodeContacts(s[..k], n - 1)
      case None => None
      case Some(cs) =>
        var c := ReadContact(s[k..]);
        if ContactOk(c) then Some(cs + [c]) else None
  }

  function Unused(n: nat): (s: seq<Contact>)
    ensures |s| == n && forall i :: 0 <= i < n ==> s[i] == NO_CONTACT
  {
    seq(n, i => NO_CONTACT)
  }

  predicate FlagsOk(ver: byte, flags: byte) { flags <= if ver == 1 then 1 else 3 }

  function ReadView(b: bytes, cs: Contacts): View
    requires |b| >= HEADER_BYTES
  {
    View(b[5] % 2 == 1, b[5] / 2 == 1, b[6], b[7..15], b[15] != 0, FromBe64(b[16..24]), FromBe32(b[24..28]),
         b[29..61], b[28] != 0, cs)
  }

  function Decode(b: bytes): Result<View, PersistError> {
    if |b| != LEN && |b| != V2_LEN then Err(BadLength)
    else if b[..4] != MAGIC then Err(BadMagic)
    else if (|b| == LEN) != (b[4] == VERSION) || (b[4] != 1 && b[4] != 2 && b[4] != VERSION) then Err(BadVersion)
    else if !FlagsOk(b[4], b[5]) || b[6] > 3 then Err(BadVersion)
    else
      var slots := if |b| == LEN then MAX_CONTACTS else 2;
      match DecodeContacts(b[HEADER_BYTES..], slots)
      case None => Err(BadVersion)
      case Some(cs) =>
        Ok(ReadView(b, cs + Unused(MAX_CONTACTS - slots)))
  }

  /** Re-encodes any accepted record as a current one. */
  function Migrate(b: bytes): Result<bytes, PersistError> {
    match Decode(b)
    case Err(e) => Err(e)
    case Ok(v) => Ok(Encode(v))
  }

  method GetWindows(b: bytes, pos: nat) returns (r: Option<Windows>, p: nat)
    requires pos + 51 <= |b|
    ensures var w := DecodeWindows(b[pos..pos + 51]);
            r == if WindowsStorable(w) then Some(w) else None
    ensures r.Some? ==> p == pos + 51
  {
    hide FromBe64;
    p := pos;
    var ws: seq<Window> := [];
    ghost var s := b[pos..pos + 51];
    for i := 0 to 3
      invariant p == pos + 17 * i
      invariant |ws| == i && forall j :: 0 <= j < i ==> ws[j] == DecodeWindows(s)[j] && Storable(ws[j])
    {
      var h := FromBe64(b[p..p + 8]);
      var m := FromBe64(b[p + 8..p + 16]);
      var e := b[p + 16] != 0;
      WindowAt(b, pos, i);
      if e && (h != 0 || m != 0) { return None, p; }
      if !e && m == 0 { return None, p; }
      ws := ws + [Window(h, m, e)];
      p := p + 17;
    }
    assert ws == DecodeWindows(s);
    return Some(ws), p;
  }

  lemma WindowAt(b: bytes, pos: nat, i: nat)
    requires pos + 51 <= |b| && i < 3
    ensures var p := pos + 17 * i;
            DecodeWindows(b[pos..pos + 51])[i] == Window(FromBe64(b[p..p + 8]), FromBe64(b[p + 8..p + 16]), b[p + 16] != 0)
  {
    hide FromBe64;
    var s, p := b[pos..pos + 51], pos + 17 * i;
    SubSlice(b, pos, pos + 51, 17 * i, 17 * i + 17);
    assert s[..17] == s[0..17] && s[34..] == s[34..51];
    SubSlice(b, p, p + 17, 0, 8);
    SubSlice(b, p, p + 17, 8, 16);
  }

  method GetContact(b: bytes, pos: nat) returns (r: Option<Contact>, p: nat)
    requires pos + CONTACT_BYTES <= |b|
    ensures var c := ReadContact(b[pos..pos + CONTACT_BYTES]);
            r == if ContactOk(c) then Some(c) else None
    ensures r.Some? ==> p == pos + CONTACT_BYTES
  {
    hide FromBe64, FromBe32, DecodeWindows;
    FieldsAt(b, pos);
    p := pos;
    var c := NO_CONTACT.(present := b[p] != 0, blocked := b[p + 1] != 0, edPeer := b[p + 2..p + 34],
                         peerIdentity := b[p + 34..p + 42], root := b[p + 42..p + 74], role := b[p + 74]);
    p := p + 75;
    if c.role > 1 { return None, p; }
    c := c.(txNext := FromBe64(b[p..p + 8]), txReserved := FromBe64(b[p + 8..p + 16]));
    p := p + 16;
    if c.txReserved < c.txNext { return None, p; }
    c := c.(txEpochMax := FromBe32(b[p..p + 4]), anchor := FromBe32(b[p + 4..p + 8]));
    p := p + 8;
    c := c.(winEpochs := [FromBe32(b[p..p + 4]), FromBe32(b[p + 4..p + 8]), FromBe32(b[p + 8..p + 12])]);
    p := p + 12;
    var wd, p1 := GetWindows(b, p);
    if wd.None? { return None, p; }
    var wa, p2 := GetWindows(b, p1);
    if wa.None? { return None, p; }
    c := c.(winData := wd.value, winAck := wa.value);
    if !c.present && (c.blocked || c.edPeer != Zeros(32) || c.peerIdentity != Zeros(8) || c.root != Zeros(32)
                      || c.txNext != 0 || c.txReserved != 0 || c.txEpochMax != 0 || c.anchor != 0)
    {
      return None, p2;
    }
    return Some(c), p2;
  }

  /** Where each field of the slot at `pos` lies. */
  lemma FieldsAt(b: bytes, pos: nat)
    requires pos + CONTACT_BYTES <= |b|
    ensures ReadContact(b[pos..pos + CONTACT_BYTES]) ==
            Contact(b[pos] != 0, b[pos + 1] != 0, b[pos + 2..pos + 34], b[pos + 34..pos + 42], b[pos + 42..pos + 74],
                    b[pos + 74], FromBe64(b[pos + 75..pos + 83]), FromBe64(b[pos + 83..pos + 91]),
                    FromBe32(b[pos + 91..pos + 95]), FromBe32(b[pos + 95..pos + 99]),
                    [FromBe32(b[pos + 99..pos + 103]), FromBe32(b[pos + 103..pos + 107]), FromBe32(b[pos + 107..pos + 111])],
                    DecodeWindows(b[pos + 111..pos + 162]), DecodeWindows(b[pos + 162..pos + 213]))
  {
    hide FromBe64, FromBe32, DecodeWindows;
    var s := b[pos..pos + CONTACT_BYTES];
    SubSlice(b, pos, pos + CONTACT_BYTES, 0, 75);
    SubSlice(b, pos, pos + CONTACT_BYTES, 75, 99);
    SubSlice(b, pos, pos + CONTACT_BYTES, 99, 111);
    SubSlice(b, pos, pos + CONTACT_BYTES, 111, 162);
    SubSlice(b, pos, pos + CONTACT_BYTES, 162, 213);
    assert s[..75] == b[pos..pos + 75] && s[162..] == b[pos + 162..pos + 213];
    SubSlice(b, pos, pos + 75, 2, 34);
    SubSlice(b, pos, pos + 75, 34, 42);
    SubSlice(b, pos, pos + 75, 42, 74);
    SubSlice(b, pos + 75, pos + 99, 0, 8);
    SubSlice(b, pos + 75, pos + 99, 8, 16);
    SubSlice(b, pos + 75, pos + 99, 16, 20);
    SubSlice(b, pos + 75, pos + 99, 20, 24);
    SubSlice(b, pos + 99, pos + 111, 0, 4);
    SubSlice(b, pos + 99, pos + 111, 4, 8);
    SubSlice(b, pos + 99, pos + 111, 8, 12);
  }

  method GetContacts(b: bytes, slots: nat) returns (r: Option<Contacts>)
    requires slots <= MAX_CONTACTS && |b| == HEADER_BYTES + slots * CONTACT_BYTES
    ensures var cs := DecodeContacts(b[HEADER_BYTES..], slots);
            r == if cs.None? then None else Some(cs.value + Unused(MAX_CONTACTS - slots))
  {
    hide ReadContact, ContactOk;
    var p := HEADER_BYTES;
    var contacts: array<Contact> := new Contact[MAX_CONTACTS](i => NO_CONTACT);
    ghost var tail := b[HEADER_BYTES..];
    for i := 0 to slots
      invariant p == HEADER_BYTES + i * CONTACT_BYTES
      invariant DecodeContacts(tail[..i * CONTACT_BYTES], i) == Some(contacts[..i])
      invariant contacts[i..] == Unused(MAX_CONTACTS - i)
    {
      var c, next := GetContact(b, p);
      OneMoreContact(b, slots, i);
      if c.None? {
        PrefixMalformed(tail, slots, i + 1);
        return None;
      }
      contacts[i] := c.value;
      assert contacts[..i + 1] == contacts[..i] + [c.value];
      p := next;
    }
    assert tail[..slots * CONTACT_BYTES] == tail;
    assert contacts[..] == contacts[..slots] + contacts[slots..];
    return Some(contacts[..]);
  }

  lemma OneMoreContact(b: bytes, slots: nat, i: nat)
    requires i < slots && |b| == HEADER_BYTES + slots * CONTACT_BYTES
    ensures var (tail, k, p) := (b[HEADER_BYTES..], i * CONTACT_BYTES, HEADER_BYTES + i * CONTACT_BYTES);
            var c := ReadContact(b[p..p + CONTACT_BYTES]);
            DecodeContacts(tail[..k + CONTACT_BYTES], i + 1) ==
            match DecodeContacts(tail[..k], i)
              case None => None
              case Some(cs) => if ContactOk(c) then Some(cs + [c]) else None
  {
    hide ReadContact, ContactOk;
    var tail, k, p := b[HEADER_BYTES..], i * CONTACT_BYTES, HEADER_BYTES + i * CONTACT_BYTES;
    var upTo := tail[..k + CONTACT_BYTES];
    SubSlice(b, HEADER_BYTES, |b|, k, k + CONTACT_BYTES);
    assert upTo[k..] == tail[k..k + CONTACT_BYTES];
    assert upTo[..k] == tail[..k] && upTo[k..] == b[p..p + CONTACT_BYTES];
  }

  method DecodeView(b: bytes) returns (r: Result<View, PersistError>)
    ensures r == Decode(b)
  {
    hide DecodeContacts, ReadView;
    var slots;
    if |b| == LEN { slots := MAX_CONTACTS; }
    else if |b| == V2_LEN { slots := 2; }
    else { return Err(BadLength); }
    if b[..4] != MAGIC { return Err(BadMagic); }
    var ver := b[4];
    if (|b| == LEN) != (ver == VERSION) || (ver != 1 && ver != 2 && ver != VERSION) { return Err(BadVersion); }
    if !FlagsOk(ver, b[5]) { return Err(BadVersion); }
    if b[6] > 3 { return Err(BadVersion); }
    var cs := GetContacts(b, slots);
    if cs.None? { return Err(BadVersion); }
    return Ok(ReadView(b, cs.value));
  }

  lemma {:induction false} PrefixMalformed(s: bytes, n: nat, m: nat)
    requires |s| == n * CONTACT_BYTES && m <= n
    requires DecodeContacts(s[..m * CONTACT_BYTES], m).None?
    ensures DecodeContacts(s, n).None?
  {
    hide ReadContact, ContactOk;
    if m < n {
      var k := (n - 1) * CONTACT_BYTES;
      assert s[..k][..m * CONTACT_BYTES] == s[..m * CONTACT_BYTES];
      PrefixMalformed(s[..k], n - 1, m);
    } else {
      assert s[..m * CONTACT_BYTES] == s;
    }
  }

  // ---- round trips ----

  lemma WindowRoundTrip(w: Window)
    ensures DecodeWindow(EncodeWindow(w)) == w
  {
    hide Be64, FromBe64;
    var s := EncodeWindow(w);
    assert s[..8] == Be64(w.highest) && s[8..16] == Be64(w.bitmap);
    Be64Inverse(w.highest);
    Be64Inverse(w.bitmap);
  }

  lemma WindowsRoundTrip(w: Windows)
    ensures DecodeWindows(EncodeWindows(w)) == w
  {
    hide EncodeWindow, DecodeWindow;
    var s := EncodeWindows(w);
    assert s[..17] == EncodeWindow(w[0]) && s[17..34] == EncodeWindow(w[1]) && s[34..] == EncodeWindow(w[2]);
    WindowRoundTrip(w[0]);
    WindowRoundTrip(w[1]);
    WindowRoundTrip(w[2]);
  }

  lemma EpochsRoundTrip(e: Epochs)
    ensures DecodeEpochs(EncodeEpochs(e)) == e
  {
    hide Be32, FromBe32;
    var s := EncodeEpochs(e);
    assert s[..4] == Be32(e[0]) && s[4..8] == Be32(e[1]) && s[8..] == Be32(e[2]);
    Be32Inverse(e[0]);
    Be32Inverse(e[1]);
    Be32Inverse(e[2]);
  }

  lemma CountersRoundTrip(c: Contact)
    ensures var n := EncodeCounters(c);
            && FromBe64(n[..8]) == c.txNext && FromBe64(n[8..16]) == c.txReserved
            && FromBe32(n[16..20]) == c.txEpochMax && FromBe32(n[20..]) == c.anchor
  {
    hide Be32, FromBe32, Be64, FromBe64;
    var n := EncodeCounters(c);
    assert n[..8] == Be64(c.txNext) && n[8..16] == Be64(c.txReserved);
    assert n[16..20] == Be32(c.txEpochMax) && n[20..] == Be32(c.anchor);
    Be64Inverse(c.txNext);
    Be64Inverse(c.txReserved);
    Be32Inverse(c.txEpochMax);
    Be32Inverse(c.anchor);
  }

  lemma PeerRoundTrip(c: Contact)
    ensures var p := EncodePeer(c);
            && p[0] == B2N(c.present) && p[1] == B2N(c.blocked) && p[2..34] == c.edPeer
            && p[34..42] == c.peerIdentity && p[42..74] == c.root && p[74] == c.role
  {}

  lemma ContactRoundTrip(c: Contact)
    ensures ReadContact(EncodeContact(c)) == c
  {
    hide EncodePeer, EncodeCounters, EncodeEpochs, EncodeWindows, DecodeEpochs, DecodeWindows, FromBe32, FromBe64;
    var s := EncodeContact(c);
    assert s[..75] == EncodePeer(c) && s[75..99] == EncodeCounters(c) && s[99..111] == EncodeEpochs(c.winEpochs);
    assert s[111..162] == EncodeWindows(c.winData) && s[162..] == EncodeWindows(c.winAck);
    PeerRoundTrip(c);
    CountersRoundTrip(c);
    EpochsRoundTrip(c.winEpochs);
    WindowsRoundTrip(c.winData);
    WindowsRoundTrip(c.winAck);
  }

  lemma {:induction false} ContactsRoundTrip(cs: seq<Contact>)
    ensures var r := DecodeContacts(EncodeContacts(cs), |cs|);
            r == if forall i :: 0 <= i < |cs| ==> ContactOk(cs[i]) then Some(cs) else None
  {
    hide EncodeContact, ReadContact, ContactOk;
    if cs != [] {
      var n := |cs| - 1;
      var s := EncodeContacts(cs);
      assert s[..n * CONTACT_BYTES] == EncodeContacts(cs[..n]) && s[n * CONTACT_BYTES..] == EncodeContact(cs[n]);
      ContactsRoundTrip(cs[..n]);
      ContactRoundTrip(cs[n]);
      assert cs == cs[..n] + [cs[n]];
    }
  }

  /** A snapshot is read back unchanged exactly when it is well formed; otherwise it is refused. */
  lemma DecodeEncoded(v: View)
    ensures Decode(Encode(v)) == if ViewOk(v) then Ok(v) else Err(BadVersion)
  {
    hide EncodeHeader, EncodeContacts, FromBe64, FromBe32, ContactOk, DecodeContacts;
    var b := Encode(v);
    var h := EncodeHeader(v);
    assert b[..HEADER_BYTES] == h && b[HEADER_BYTES..] == EncodeContacts(v.contacts);
    HeaderRoundTrip(v);
    HeaderSlices(h, b);
    ContactsRoundTrip(v.contacts);
    assert v.contacts + Unused(0) == v.contacts;
  }

  lemma HeaderRoundTrip(v: View)
    ensures var h := EncodeHeader(v);
            && h[..4] == MAGIC && h[4] == VERSION && h[5] == B2N(v.provisioned) + 2 * B2N(v.armedNextBoot)
            && h[6] == v.boardLabel && h[7..15] == v.uid && h[15] == B2N(v.uidSet)
            && FromBe64(h[16..24]) == v.unixSeconds && FromBe32(h[24..28]) == v.persistedTxEpoch
            && h[28] == B2N(v.signSet) && h[29..61] == v.signPriv
  {
    hide Be32, FromBe32, Be64, FromBe64;
    var h, id := EncodeHeader(v), EncodeIdentity(v);
    assert h[..16] == id && id[..4] == MAGIC && id[7..15] == v.uid;
    assert h[..4] == id[..4] && h[7..15] == id[7..15];
    assert h[16..24] == Be64(v.unixSeconds) && h[24..28] == Be32(v.persistedTxEpoch);
    Be64Inverse(v.unixSeconds);
    Be32Inverse(v.persistedTxEpoch);
  }

  lemma HeaderSlices(h: bytes, b: bytes)
    requires |h| == HEADER_BYTES && h <= b
    ensures b[..4] == h[..4] && b[7..15] == h[7..15] && b[16..24] == h[16..24] && b[24..28] == h[24..28]
    ensures b[29..61] == h[29..61]
  {}

  lemma {:induction false} DecodedContactsOk(s: bytes, n: nat)
    requires |s| == n * CONTACT_BYTES && DecodeContacts(s, n).Some?
    ensures forall i :: 0 <= i < n ==> ContactOk(DecodeContacts(s, n).value[i])
  {
    hide ReadContact, ContactOk;
    if n > 0 { DecodedContactsOk(s[..(n - 1) * CONTACT_BYTES], n - 1); }
  }

  lemma NoContactOk()
    ensures ContactOk(NO_CONTACT)
  {}

  lemma DecodedIsOk(b: bytes)
    requires Decode(b).Ok?
    ensures ViewOk(Decode(b).value)
  {
    hide ContactOk, FromBe64, FromBe32;
    var slots := if |b| == LEN then MAX_CONTACTS else 2;
    DecodedContactsOk(b[HEADER_BYTES..], slots);
    NoContactOk();
  }

  /** Migration accepts what the decoder accepts, keeps the contents, always ends in a decodable current
      record, and changes nothing the second time. */
  lemma MigrationPreserves(b: bytes)
    ensures Migrate(b).Ok? <==> Decode(b).Ok?
    ensures Migrate(b).Ok? ==>
              var m := Migrate(b).value;
              |m| == LEN && m[4] == VERSION && Decode(m) == Decode(b) && Migrate(m) == Ok(m)
  {
    if Decode(b).Ok? {
      DecodedIsOk(b);
      var v := Decode(b).value;
      DecodeEncoded(v);
      assert Encode(v)[4] == EncodeHeader(v)[4];
    }
  }
}
