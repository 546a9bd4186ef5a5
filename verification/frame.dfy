/** The compact frame codec: 28 header bytes, body, CRC-16, all big-endian. */
module Frame {
  import opened Bytes
  import Crc
  import Utf8

  const HEADER_LEN: nat := 28
  const CRC_LEN: nat := 2
  const MAX_FRAME_LEN: nat := 255
  const MAX_BODY_LEN: nat := MAX_FRAME_LEN - HEADER_LEN - CRC_LEN
  const MAX_TEXT_LEN: nat := 160
  const TAG_LEN: nat := 16

  const VERSION_PLAINTEXT_LAB: byte := 0
  const VERSION_SECURE: byte := 1
  const FLAG_WANT_ACK: byte := 1
  const BODY_DATA: byte := 1
  const BODY_ACK: byte := 2

  datatype Header = Header(version: byte, flags: byte, dst: u32, src: u32, packetId: u32,
                           hops: byte, epoch: u32, sequence: u64)

  datatype Reject = TooShort | TooLong | LengthMismatch | BadCrc | UnknownVersion | BadFlags | BadHops | BadBody

  datatype Decoded = Decoded(header: Header, body: bytes)

  // ---- wire form ----

  function AddressBytes(h: Header): (s: bytes)
    ensures |s| == 14
  {
    [h.version, h.flags] + Be32(h.dst) + Be32(h.src) + Be32(h.packetId)
  }

  /** The header as written on the wire, `bodyLen` standing at offset 27. */
  function HeaderBytes(h: Header, bodyLen: byte): (s: bytes)
    ensures |s| == HEADER_LEN
  {
    AddressBytes(h) + [h.hops] + Be32(h.epoch) + Be64(h.sequence) + [bodyLen]
  }

  function Payload(h: Header, body: bytes): (s: bytes)
    requires |body| <= MAX_BODY_LEN
    ensures |s| == HEADER_LEN + |body|
  {
    HeaderBytes(h, |body|) + body
  }

  function Encoded(h: Header, body: bytes): (s: bytes)
    requires |body| <= MAX_BODY_LEN
    ensures |s| == HEADER_LEN + |body| + CRC_LEN
  {
    Payload(h, body) + Be16(Crc.Sum(Payload(h, body)))
  }

  /** Reads back every field but the body length. */
  function ReadHeader(s: bytes): Header
    requires |s| >= HEADER_LEN
  {
    Header(s[0], s[1], FromBe32(s[2..6]), FromBe32(s[6..10]), FromBe32(s[10..14]), s[14],
           FromBe32(s[15..19]), FromBe64(s[19..27]))
  }

  /** Plaintext body shape and its agreement with the flags. */
  predicate BodyOk(flags: byte, body: bytes) {
    body != [] &&
    if body[0] == BODY_DATA && flags == FLAG_WANT_ACK then
      1 <= |body| - 1 <= MAX_TEXT_LEN && Utf8.Valid(body[1..])
    else
      body[0] == BODY_ACK && flags == 0 && |body| == 17
  }

  function Decode(frame: bytes): Result<Decoded, Reject> {
    if |frame| < HEADER_LEN + CRC_LEN then Err(TooShort)
    else if |frame| > MAX_FRAME_LEN then Err(TooLong)
    else if frame[0] != VERSION_PLAINTEXT_LAB && frame[0] != VERSION_SECURE then Err(UnknownVersion)
    else if frame[1] > 1 then Err(BadFlags)
    else if frame[14] > 1 then Err(BadHops)
    else if HEADER_LEN + frame[27] as int + CRC_LEN != |frame| then Err(LengthMismatch)
    else
      var bodyEnd := |frame| - CRC_LEN;
      if Crc.Sum(frame[..bodyEnd]) != FromBe16(frame[bodyEnd..]) then Err(BadCrc)
      else
        var h := ReadHeader(frame);
        var body := frame[HEADER_LEN..bodyEnd];
        if h.version == VERSION_PLAINTEXT_LAB && !BodyOk(h.flags, body) then Err(BadBody)
        else Ok(Decoded(h, body))
  }

  /** What the decoder demands of the fields themselves. */
  predicate FieldsOk(h: Header, body: bytes) {
    && (h.version == VERSION_PLAINTEXT_LAB || h.version == VERSION_SECURE)
    && h.flags <= 1
    && h.hops <= 1
    && (h.version == VERSION_PLAINTEXT_LAB ==> BodyOk(h.flags, body))
  }

  // ---- encoders over caller-supplied buffers ----

  method PutAddress(h: Header, out: array<byte>) returns (p: nat)
    requires out.Length >= 14
    modifies out
    ensures p == 14 && out[..p] == AddressBytes(h)
    ensures forall j :: p <= j < out.Length ==> out[j] == old(out[j])
  {
    p := Put(out, 0, [h.version, h.flags]);
    p := Put(out, p, Be32(h.dst));
    p := Put(out, p, Be32(h.src));
    p := Put(out, p, Be32(h.packetId));
  }

  method EncodeHeader(h: Header, out: array<byte>) returns (r: Result<nat, Reject>)
    modifies out
    ensures r.Err? <==> out.Length < HEADER_LEN
    ensures r.Err? ==> r.error == TooShort && out[..] == old(out[..])
    ensures r.Ok? ==> r.value == HEADER_LEN && out[..HEADER_LEN] == HeaderBytes(h, 0)
    ensures forall j :: HEADER_LEN <= j < out.Length ==> out[j] == old(out[j])
  {
    if out.Length < HEADER_LEN { return Err(TooShort); }
    hide AddressBytes;
    var p := PutAddress(h, out);
    p := Put(out, p, [h.hops]);
    p := Put(out, p, Be32(h.epoch));
    p := Put(out, p, Be64(h.sequence));
    p := Put(out, p, [0]);
    return Ok(HEADER_LEN);
  }

  method EncodeFrame(h: Header, body: bytes, out: array<byte>) returns (r: Result<nat, Reject>)
    modifies out
    ensures r.Err? <==> |body| > MAX_BODY_LEN || out.Length < HEADER_LEN + |body| + CRC_LEN
    ensures r.Err? ==> r.error == TooLong && out[..] == old(out[..])
    ensures r.Ok? ==> r.value == |Encoded(h, body)| && out[..r.value] == Encoded(h, body)
    ensures r.Ok? ==> forall j :: r.value <= j < out.Length ==> out[j] == old(out[j])
  {
    var total := HEADER_LEN + |body| + CRC_LEN;
    if total > MAX_FRAME_LEN || out.Length < total { return Err(TooLong); }
    var _ := EncodeHeader(h, out);
    out[27] := |body|;
    assert out[..HEADER_LEN] == HeaderBytes(h, |body|);
    var p := Put(out, HEADER_LEN, body);
    var crc := Crc.Crc16(out[..p]);
    p := Put(out, p, Be16(crc));
    return Ok(total);
  }

  // ---- the codec is a bijection between field values and accepted frames ----

  lemma ReadHeaderInverse(h: Header, n: byte, tail: bytes)
    ensures ReadHeader(HeaderBytes(h, n) + tail) == h
    ensures (HeaderBytes(h, n) + tail)[27] == n
  {
    var s := HeaderBytes(h, n) + tail;
    assert s[..14] == AddressBytes(h);
    assert s[2..6] == Be32(h.dst) && s[6..10] == Be32(h.src) && s[10..14] == Be32(h.packetId);
    assert s[15..19] == Be32(h.epoch) && s[19..27] == Be64(h.sequence);
    Be32Inverse(h.dst);
    Be32Inverse(h.src);
    Be32Inverse(h.packetId);
    Be32Inverse(h.epoch);
    Be64Inverse(h.sequence);
  }

  lemma HeaderBytesInverse(s: bytes)
    requires |s| >= HEADER_LEN
    ensures HeaderBytes(ReadHeader(s), s[27]) == s[..HEADER_LEN]
  {
    FromBe32Inverse(s[2..6]);
    FromBe32Inverse(s[6..10]);
    FromBe32Inverse(s[10..14]);
    FromBe32Inverse(s[15..19]);
    FromBe64Inverse(s[19..27]);
    assert AddressBytes(ReadHeader(s)) == s[..14];
    hide AddressBytes, Be32, Be64, FromBe32, FromBe64;
    assert s[..HEADER_LEN]
        == s[..14] + [s[14]] + s[15..19] + s[19..27] + [s[27]];
  }

  /** Decoding an encoded frame gives the fields back exactly when they meet the decoder's limits. */
  lemma DecodeEncoded(h: Header, body: bytes)
    requires |body| <= MAX_BODY_LEN
    ensures Decode(Encoded(h, body)) == Ok(Decoded(h, body)) <==> FieldsOk(h, body)
  {
    var f, p := Encoded(h, body), Payload(h, body);
    var end := |f| - CRC_LEN;
    assert f[..end] == p && f[end..] == Be16(Crc.Sum(p)) && f[HEADER_LEN..end] == body;
    assert f == HeaderBytes(h, |body|) + (body + Be16(Crc.Sum(p)));
    ReadHeaderInverse(h, |body|, body + Be16(Crc.Sum(p)));
  }

  /** Every accepted frame is the encoding of what it decodes to: no second spelling. */
  lemma EncodeDecoded(f: bytes)
    requires Decode(f).Ok?
    ensures var d := Decode(f).value;
            |d.body| <= MAX_BODY_LEN && FieldsOk(d.header, d.body) && Encoded(d.header, d.body) == f
  {
    var d, end := Decode(f).value, |f| - CRC_LEN;
    assert d.header.version == f[0] && d.header.flags == f[1] && d.header.hops == f[14];
    hide ReadHeader, HeaderBytes, BodyOk, Crc.Sum, FromBe16, Be16;
    FromBe16Inverse(f[end..]);
    HeaderBytesInverse(f);
    assert f[..end] == f[..HEADER_LEN] + f[HEADER_LEN..end];
    assert Payload(d.header, d.body) == f[..end];
    assert f == f[..end] + f[end..];
  }

  // ---- damaged frames ----

  /** `g` differs from `f` at most at positions `i` and `i + 1`. */
  predicate DiffersAt(f: bytes, g: bytes, i: nat) {
    |f| == |g| && f != g && forall j :: 0 <= j < |f| && j != i && j != i + 1 ==> f[j] == g[j]
  }

  lemma SplitAround(s: bytes, i: nat, w: nat)
    requires i + w <= |s|
    ensures s == s[..i] + s[i..i + w] + s[i + w..]
  {}

  /** A damaged pair inside the checksummed part changes the computed checksum. */
  lemma DamagedPayload(p: bytes, q: bytes, i: nat)
    requires DiffersAt(p, q, i) && i < |p|
    ensures Crc.Sum(p) != Crc.Sum(q)
  {
    if i + 1 < |p| {
      SplitAround(p, i, 2);
      SplitAround(q, i, 2);
      assert p[..i] == q[..i] && p[i + 2..] == q[i + 2..];
      assert p[i..i + 2] == [p[i], p[i + 1]] && q[i..i + 2] == [q[i], q[i + 1]];
      Crc.DetectsAdjacentPair(p[..i], p[i], p[i + 1], q[i], q[i + 1], p[i + 2..]);
    } else {
      SplitAround(p, i, 1);
      SplitAround(q, i, 1);
      assert p[..i] == q[..i] && p[i + 1..] == q[i + 1..] == [];
      assert p[i..i + 1] == [p[i]] && q[i..i + 1] == [q[i]];
      Crc.DetectsSingleByte(p[..i], p[i], q[i], []);
    }
  }

  /** Damage that straddles the end of the payload and the first checksum byte is seen in the second. */
  lemma DamagedBoundary(p: bytes, q: bytes, i: nat)
    requires DiffersAt(p, q, i) && i + 1 == |p|
    ensures Crc.Sum(p) % 256 != Crc.Sum(q) % 256
  {
    assert p == p[..i] + [p[i]] && q == p[..i] + [q[i]];
    if Crc.Sum(p) % 256 == Crc.Sum(q) % 256 { Crc.LastByteReachesLowHalf(p[..i], p[i], q[i]); }
  }

  /** No two strings `p ++ checksum(p)` differ in one byte or in two neighbouring ones. */
  lemma ChecksumDistance(p: bytes, a1: byte, a2: byte, q: bytes, b1: byte, b2: byte, i: nat)
    requires Crc.Sum(p) == a1 as int * 256 + a2 as int
    requires Crc.Sum(q) == b1 as int * 256 + b2 as int
    ensures !DiffersAt(p + [a1, a2], q + [b1, b2], i)
  {
    hide Crc.Sum;
    var f, g, end := p + [a1, a2], q + [b1, b2], |p|;
    if DiffersAt(f, g, i) {
      assert forall j :: 0 <= j < end ==> p[j] == f[j] && q[j] == g[j];
      if p == q {
        assert false;
      } else if i + 1 == end {
        assert a2 == f[end + 1] == g[end + 1] == b2;
        DamagedBoundary(p, q, i);
        assert false;
      } else {
        assert i < end;
        assert a1 == f[end] == g[end] == b1 && a2 == f[end + 1] == g[end + 1] == b2;
        DamagedPayload(p, q, i);
        assert false;
      }
    }
  }

  lemma SplitAccepted(f: bytes) returns (p: bytes, c1: byte, c2: byte)
    requires Decode(f).Ok?
    ensures f == p + [c1, c2] && Crc.Sum(p) == c1 as int * 256 + c2 as int
  {
    p, c1, c2 := f[..|f| - 2], f[|f| - 2], f[|f| - 1];
    assert f[|f| - 2..] == [c1, c2];
  }

  /** Changing any one byte, or any two neighbouring bytes, of an accepted frame makes it rejected. */
  lemma DamagedFrameRejected(f: bytes, g: bytes, i: nat)
    requires Decode(f).Ok? && DiffersAt(f, g, i)
    ensures Decode(g).Err?
  {
    if Decode(g).Ok? {
      var p, a1, a2 := SplitAccepted(f);
      var q, b1, b2 := SplitAccepted(g);
      ChecksumDistance(p, a1, a2, q, b1, b2, i);
    }
  }
}
