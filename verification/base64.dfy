/** Base64url without padding (RFC 4648, sections 3.5 and 5) and the `LMESH1:` text transport. */
module Base64Url {
  import opened Bytes
  import opened Powers

  datatype PairError = BadType | BadLength | BadPrefix | BadCharset | BadVersion | BadRole | SelfPairing | BufferTooSmall

  /** `LMESH1:` */
  const PREFIX: bytes := [0x4C, 0x4D, 0x45, 0x53, 0x48, 0x31, 0x3A]

  type digit = d: int | 0 <= d < 64

  /** `A-Z a-z 0-9 - _` */
  function Char(d: digit): byte {
    if d < 26 then 65 + d else if d < 52 then 97 + (d - 26) else if d < 62 then 48 + (d - 52) else if d == 62 then 45 else 95
  }

  function Digit(c: byte): Option<digit> {
    if 65 <= c <= 90 then Some(c - 65)
    else if 97 <= c <= 122 then Some(c - 97 + 26)
    else if 48 <= c <= 57 then Some(c - 48 + 52)
    else if c == 45 then Some(62)
    else if c == 95 then Some(63)
    else None
  }

  lemma DigitOfChar(d: digit)
    ensures Digit(Char(d)) == Some(d)
  {}

  lemma CharOfDigit(c: byte)
    ensures Digit(c).Some? ==> Char(Digit(c).value) == c
  {}

  /** `(n * 4 + 2) / 3` */
  function EncodedLen(n: nat): nat { (n * 4 + 2) / 3 }

  // ---- groups ----

  /** Three bytes as four digits. */
  function Quad(x: byte, y: byte, z: byte): (q: bytes)
    ensures |q| == 4
  {
    [Char(x / 4), Char(x % 4 * 16 + y / 16), Char(y % 16 * 4 + z / 64), Char(z % 64)]
  }

  function Unquad(a: digit, b: digit, c: digit, d: digit): bytes {
    [a * 4 + b / 16, b % 16 * 16 + c / 4, c % 4 * 64 + d]
  }

  lemma UnquadQuad(x: byte, y: byte, z: byte)
    ensures Unquad(x / 4, x % 4 * 16 + y / 16, y % 16 * 4 + z / 64, z % 64) == [x, y, z]
  {}

  lemma QuadUnquad(a: digit, b: digit, c: digit, d: digit)
    ensures var s := Unquad(a, b, c, d); Quad(s[0], s[1], s[2]) == [Char(a), Char(b), Char(c), Char(d)]
  {
    hide Char;
    HighDigits(a, b);
    MidDigits(b, c);
    LowDigits(c, d);
  }

  lemma HighDigits(a: digit, b: digit)
    ensures (a * 4 + b / 16) / 4 == a && (a * 4 + b / 16) % 4 == b / 16
  {}

  lemma MidDigits(b: digit, c: digit)
    ensures (b % 16 * 16 + c / 4) / 16 == b % 16 && (b % 16 * 16 + c / 4) % 16 == c / 4 && b / 16 * 16 + b % 16 == b
  {}

  lemma LowDigits(c: digit, d: digit)
    ensures (c % 4 * 64 + d) / 64 == c % 4 && (c % 4 * 64 + d) % 64 == d && c / 4 * 4 + c % 4 == c
  {}

  // ---- whole texts ----

  function Encode(s: bytes): bytes {
    if |s| >= 3 then Quad(s[0], s[1], s[2]) + Encode(s[3..])
    else if |s| == 2 then [Char(s[0] / 4), Char(s[0] % 4 * 16 + s[1] / 16), Char(s[1] % 16 * 4)]
    else if |s| == 1 then [Char(s[0] / 4), Char(s[0] % 4 * 16)]
    else []
  }

  predicate AllDigits(t: bytes) { forall i :: 0 <= i < |t| ==> Digit(t[i]).Some? }

  /** A text of digits, without a lone digit at the end and without stray low bits in the last one, gives its bytes. */
  function Decode(t: bytes): Result<bytes, PairError> {
    if |t| >= 4 then
      if !AllDigits(t[..4]) then Err(if |t| % 4 == 1 then BadLength else BadCharset)
      else
        match Decode(t[4..])
        case Err(e) => Err(e)
        case Ok(rest) => Ok(Unquad(Digit(t[0]).value, Digit(t[1]).value, Digit(t[2]).value, Digit(t[3]).value) + rest)
    else if |t| == 0 then Ok([])
    else if |t| == 1 then Err(BadLength)
    else if !AllDigits(t) then Err(BadCharset)
    else
      var a, b := Digit(t[0]).value, Digit(t[1]).value;
      if |t| == 2 then if b % 16 != 0 then Err(BadCharset) else Ok([a * 4 + b / 16])
      else
        var c := Digit(t[2]).value;
        if c % 4 != 0 then Err(BadCharset) else Ok([a * 4 + b / 16, b % 16 * 16 + c / 4])
  }

  lemma {:induction false} LoneDigitRefused(t: bytes)
    requires |t| % 4 == 1
    ensures Decode(t) == Err(BadLength)
  {
    if |t| >= 4 { LoneDigitRefused(t[4..]); }
  }

  lemma {:induction false} EncodeLen(s: bytes)
    ensures |Encode(s)| == EncodedLen(|s|)
  {
    if |s| >= 3 { EncodeLen(s[3..]); }
  }

  /** Bytes produced by a text of `n` digits. */
  function DecodedLen(n: nat): nat { n / 4 * 3 + if n % 4 == 2 then 1 else if n % 4 == 3 then 2 else 0 }

  lemma {:induction false} DecodeLen(t: bytes)
    ensures Decode(t).Ok? ==> |Decode(t).value| == DecodedLen(|t|)
  {
    if |t| >= 4 { DecodeLen(t[4..]); }
  }

  lemma DecodeStep(t: bytes)
    requires |t| >= 4 && AllDigits(t[..4]) && Decode(t[4..]).Ok?
    ensures Decode(t) == Ok(Unquad(Digit(t[0]).value, Digit(t[1]).value, Digit(t[2]).value, Digit(t[3]).value) + Decode(t[4..]).value)
  {
    hide Digit, Unquad;
  }

  lemma EncodeStep(s: bytes)
    requires |s| >= 3
    ensures Encode(s) == Quad(s[0], s[1], s[2]) + Encode(s[3..])
  {
    hide Quad;
  }

  lemma GroupDecodes(s: bytes)
    requires |s| >= 3 && Decode(Encode(s[3..])) == Ok(s[3..])
    ensures Decode(Encode(s)) == Ok(s)
  {
    hide Char, Digit, Quad, Unquad, Encode, Decode, AllDigits;
    var t, q := Encode(s), Quad(s[0], s[1], s[2]);
    EncodeStep(s);
    QuadDigits(s[0], s[1], s[2]);
    UnquadQuad(s[0], s[1], s[2]);
    assert t[..4] == q && t[4..] == Encode(s[3..]);
    assert t[0] == q[0] && t[1] == q[1] && t[2] == q[2] && t[3] == q[3];
    DecodeStep(t);
    assert s == [s[0], s[1], s[2]] + s[3..];
  }

  lemma OneDecodes(s: bytes)
    requires |s| == 1
    ensures Decode(Encode(s)) == Ok(s)
  {
    hide Char, Digit;
    var x: digit, y: digit := s[0] / 4, s[0] % 4 * 16;
    DigitOfChar(x);
    DigitOfChar(y);
    HalvesOfByte(s[0]);
    var t := Encode(s);
    assert t == [Char(x), Char(y)];
    assert AllDigits(t) by { forall i | 0 <= i < |t| ensures Digit(t[i]).Some? {} }
    assert s == [s[0]];
  }

  lemma HalvesOfByte(b: byte)
    ensures b / 4 * 4 + (b % 4 * 16) / 16 == b && (b % 4 * 16) % 16 == 0
  {}

  lemma EncodeTwo(s: bytes)
    requires |s| == 2
    ensures Encode(s) == Quad(s[0], s[1], 0)[..3]
  {
    hide Char;
  }

  lemma TwoDecode(s: bytes)
    requires |s| == 2
    ensures Decode(Encode(s)) == Ok(s)
  {
    hide Char, Digit, Quad, Encode, Decode, AllDigits;
    QuadDigits(s[0], s[1], 0);
    EncodeTwo(s);
    PairDecodes(s);
  }

  /** Decoding undoes encoding, for bytes of any length. */
  lemma {:induction false} DecodeEncoded(s: bytes)
    ensures Decode(Encode(s)) == Ok(s)
  {
    hide Char, Digit, Quad, Unquad;
    if |s| >= 3 {
      DecodeEncoded(s[3..]);
      GroupDecodes(s);
    } else if |s| == 2 {
      TwoDecode(s);
    } else if |s| == 1 {
      OneDecodes(s);
    }
  }

  lemma QuadDigits(x: byte, y: byte, z: byte)
    ensures var q := Quad(x, y, z);
            && AllDigits(q) && Digit(q[0]) == Some(x / 4) && Digit(q[1]) == Some(x % 4 * 16 + y / 16)
            && Digit(q[2]) == Some(y % 16 * 4 + z / 64) && Digit(q[3]) == Some(z % 64)
  {
    DigitOfChar(x / 4);
    DigitOfChar(x % 4 * 16 + y / 16);
    DigitOfChar(y % 16 * 4 + z / 64);
    DigitOfChar(z % 64);
  }

  lemma PairDecodes(s: bytes)
    requires |s| == 2 && Encode(s) == Quad(s[0], s[1], 0)[..3]
    requires var q := Quad(s[0], s[1], 0);
             AllDigits(q) && Digit(q[0]) == Some(s[0] / 4) && Digit(q[1]) == Some(s[0] % 4 * 16 + s[1] / 16)
             && Digit(q[2]) == Some(s[1] % 16 * 4)
    ensures Decode(Encode(s)) == Ok(s)
  {
    hide Quad, Digit, Encode;
    var t := Encode(s);
    assert |t| == 3;
    assert t[0] == Quad(s[0], s[1], 0)[0] && t[1] == Quad(s[0], s[1], 0)[1] && t[2] == Quad(s[0], s[1], 0)[2];
    assert AllDigits(t);
    assert s == [s[0], s[1]];
  }

  /** Every accepted text is the encoding of its bytes: there is no second spelling. */
  lemma {:induction false} EncodeDecoded(t: bytes)
    requires Decode(t).Ok?
    ensures Encode(Decode(t).value) == t
  {
    hide Char, Digit, Quad, Unquad;
    if |t| >= 4 {
      var a, b, c, d := Digit(t[0]).value, Digit(t[1]).value, Digit(t[2]).value, Digit(t[3]).value;
      EncodeDecoded(t[4..]);
      QuadUnquad(a, b, c, d);
      UnquadLen(a, b, c, d);
      CharsOf(t[..4]);
      var s := Decode(t).value;
      assert s[3..] == Decode(t[4..]).value && s[..3] == Unquad(a, b, c, d);
      assert t == t[..4] + t[4..] && t[..4] == [t[0], t[1], t[2], t[3]];
    } else if |t| == 3 {
      CharsOf(t);
      var a, b, c := Digit(t[0]).value, Digit(t[1]).value, Digit(t[2]).value;
      HighDigits(a, b);
      MidDigits(b, c);
      assert t == [t[0], t[1], t[2]];
    } else if |t| == 2 {
      CharsOf(t);
      var a, b := Digit(t[0]).value, Digit(t[1]).value;
      HighDigits(a, b);
      assert t == [t[0], t[1]];
    }
  }

  lemma UnquadLen(a: digit, b: digit, c: digit, d: digit)
    ensures |Unquad(a, b, c, d)| == 3
  {}

  lemma CharsOf(t: bytes)
    requires AllDigits(t)
    ensures forall i :: 0 <= i < |t| ==> Char(Digit(t[i]).value) == t[i]
  {
    forall i | 0 <= i < |t| ensures Char(Digit(t[i]).value) == t[i] { CharOfDigit(t[i]); }
  }

  // ---- the loops over caller-supplied buffers ----

  lemma GroupBits(x: byte, y: byte, z: byte)
    ensures var n := x as int * 65536 + y as int * 256 + z as int;
            && n / 262144 % 64 == x / 4 && n / 4096 % 64 == x % 4 * 16 + y / 16
            && n / 64 % 64 == y % 16 * 4 + z / 64 && n % 64 == z % 64
  {
    var n: nat := x as int * 65536 + y as int * 256 + z as int;
    DivUnique(n, 262144, x / 4, x % 4 * 65536 + y as int * 256 + z as int);
    DivUnique(x / 4, 64, 0, x / 4);
    DivUnique(n, 4096, x as int * 16 + y / 16, y % 16 * 256 + z as int);
    DivUnique(x as int * 16 + y / 16, 64, x / 4, x % 4 * 16 + y / 16);
    DivUnique(n, 64, x as int * 1024 + y as int * 4 + z / 64, z % 64);
    DivUnique(x as int * 1024 + y as int * 4 + z / 64, 64, x as int * 16 + y / 16, y % 16 * 4 + z / 64);
  }

  lemma GroupBytes(a: digit, b: digit, c: digit, d: digit)
    ensures var n := a as int * 262144 + b as int * 4096 + c as int * 64 + d as int;
            [n / 65536 % 256, n / 256 % 256, n % 256] == Unquad(a, b, c, d)
  {
    var n := a as int * 262144 + b as int * 4096 + c as int * 64 + d as int;
    var x, y, z := a * 4 + b / 16, b % 16 * 16 + c / 4, c % 4 * 64 + d;
    assert n == x * 65536 + y * 256 + z;
    DivUnique(n, 65536, x, y * 256 + z);
    DivUnique(n, 256, x * 256 + y, z);
    DivUnique(x * 256 + y, 256, x, y);
    DivUnique(x, 256, 0, x);
  }

  lemma Regroup(p: bytes, g: bytes, e: bytes, whole: bytes)
    requires p + (g + e) == whole
    ensures (p + g) + e == whole
  {
    assert (p + g) + e == p + (g + e);
  }

  /** All whole groups of three bytes. */
  method EncodeGroups(input: bytes, out: array<byte>, at: nat) returns (ip: nat, op: nat)
    requires at + |Encode(input)| <= out.Length
    modifies out
    ensures ip <= |input| < ip + 3 && at <= op && op + |Encode(input[ip..])| <= out.Length
    ensures out[..op] + Encode(input[ip..]) == old(out[..at]) + Encode(input)
    ensures forall j :: op <= j < out.Length ==> out[j] == old(out[j])
  {
    hide Char, Encode;
    ip, op := 0, at;
    assert input[0..] == input;
    while ip + 3 <= |input|
      invariant 0 <= ip <= |input| && at <= op && op + |Encode(input[ip..])| <= out.Length
      invariant out[..op] + Encode(input[ip..]) == old(out[..at]) + Encode(input)
      invariant forall j :: op <= j < out.Length ==> out[j] == old(out[j])
    {
      var n := input[ip] as int * 65536 + input[ip + 1] as int * 256 + input[ip + 2] as int;
      OneGroup(input, ip);
      ghost var before := out[..op];
      var group: bytes := [Char(n / 262144 % 64), Char(n / 4096 % 64), Char(n / 64 % 64), Char(n % 64)];
      Regroup(before, group, Encode(input[ip + 3..]), old(out[..at]) + Encode(input));
      op := Put(out, op, group);
      ip := ip + 3;
    }
  }

  /** Encodes `input` to `out[at..]`. */
  method EncodeInto(input: bytes, out: array<byte>, at: nat) returns (r: Result<nat, PairError>)
    requires at <= out.Length
    modifies out
    ensures r == if out.Length - at < EncodedLen(|input|) then Err(BufferTooSmall) else Ok(EncodedLen(|input|))
    ensures r.Err? ==> out[..] == old(out[..])
    ensures r.Ok? ==> out[..at + r.value] == old(out[..at]) + Encode(input)
    ensures r.Ok? ==> forall j :: at + r.value <= j < out.Length ==> out[j] == old(out[j])
  {
    hide Char, Encode, EncodedLen;
    if out.Length - at < EncodedLen(|input|) { return Err(BufferTooSmall); }
    EncodeLen(input);
    var ip, op := EncodeGroups(input, out, at);
    LastGroup(input, ip);
    var left := |input| - ip;
    if left == 1 {
      var n := input[ip] as int * 65536;
      op := Put(out, op, [Char(n / 262144 % 64), Char(n / 4096 % 64)]);
    } else if left == 2 {
      var n := input[ip] as int * 65536 + input[ip + 1] as int * 256;
      op := Put(out, op, [Char(n / 262144 % 64), Char(n / 4096 % 64), Char(n / 64 % 64)]);
    }
    assert |out[..op]| == at + |Encode(input)|;
    return Ok(op - at);
  }

  lemma OneGroup(s: bytes, i: nat)
    requires i + 3 <= |s|
    ensures var n := s[i] as int * 65536 + s[i + 1] as int * 256 + s[i + 2] as int;
            Encode(s[i..]) == [Char(n / 262144 % 64), Char(n / 4096 % 64), Char(n / 64 % 64), Char(n % 64)] + Encode(s[i + 3..])
  {
    hide Char;
    GroupBits(s[i], s[i + 1], s[i + 2]);
    assert s[i..][3..] == s[i + 3..];
  }

  lemma LastGroup(s: bytes, i: nat)
    requires i <= |s| < i + 3
    ensures |s| == i ==> Encode(s[i..]) == []
    ensures |s| == i + 1 ==> var n := s[i] as int * 65536; Encode(s[i..]) == [Char(n / 262144 % 64), Char(n / 4096 % 64)]
    ensures |s| == i + 2 ==> var n := s[i] as int * 65536 + s[i + 1] as int * 256;
                             Encode(s[i..]) == [Char(n / 262144 % 64), Char(n / 4096 % 64), Char(n / 64 % 64)]
  {
    hide Char;
    if |s| == i + 1 { GroupBits(s[i], 0, 0); }
    if |s| == i + 2 { GroupBits(s[i], s[i + 1], 0); }
  }

  function Then(p: bytes, r: Result<bytes, PairError>): Result<bytes, PairError> {
    match r case Ok(v) => Ok(p + v) case Err(e) => Err(e)
  }

  lemma NextQuad(t: bytes, i: nat)
    requires i + 4 <= |t| && (|t| - i) % 4 != 1
    ensures var g := t[i..i + 4];
            Decode(t[i..]) ==
            if !AllDigits(g) then Err(BadCharset)
            else Then(Unquad(Digit(g[0]).value, Digit(g[1]).value, Digit(g[2]).value, Digit(g[3]).value), Decode(t[i + 4..]))
  {
    hide Digit;
    assert t[i..][..4] == t[i..i + 4] && t[i..][4..] == t[i + 4..];
  }

  lemma ThenTwice(p: bytes, q: bytes, r: Result<bytes, PairError>)
    ensures Then(p, Then(q, r)) == Then(p + q, r)
  {
    if r.Ok? { assert p + (q + r.value) == (p + q) + r.value; }
  }

  /** Four digits are the 24 bits of three bytes. */
  method PutQuad(out: array<byte>, pos: nat, a: digit, b: digit, c: digit, d: digit) returns (next: nat)
    requires pos + 3 <= out.Length
    modifies out
    ensures next == pos + 3 && out[..next] == old(out[..pos]) + Unquad(a, b, c, d)
  {
    hide Unquad;
    GroupBytes(a, b, c, d);
    var n := a as int * 262144 + b as int * 4096 + c as int * 64 + d as int;
    next := Put(out, pos, [n / 65536 % 256, n / 256 % 256, n % 256]);
  }

  method DecodeQuads(t: bytes, out: array<byte>) returns (r: Result<(nat, nat), PairError>)
    requires |t| % 4 != 1 && out.Length >= DecodedLen(|t|)
    modifies out
    ensures r.Err? ==> r.error == BadCharset && Decode(t) == Err(BadCharset)
    ensures r.Ok? ==> var (ip, op) := r.value;
                      && ip <= |t| < ip + 4 && op + DecodedLen(|t| - ip) == DecodedLen(|t|) && op <= out.Length
                      && (|t| - ip) % 4 == |t| % 4 && Decode(t) == Then(out[..op], Decode(t[ip..]))
  {
    hide Digit, Decode, Unquad, DecodedLen, Then;
    var ip: nat, op: nat := 0, 0;
    assert t[0..] == t && Then(out[..0], Decode(t)) == Decode(t) by { EmptyFirst(Decode(t)); assert out[..0] == []; }
    while ip + 4 <= |t|
      invariant 0 <= ip <= |t| && (|t| - ip) % 4 == |t| % 4
      invariant op <= out.Length && op + DecodedLen(|t| - ip) == DecodedLen(|t|)
      invariant Decode(t) == Then(out[..op], Decode(t[ip..]))
    {
      NextQuad(t, ip);
      var a, b, c, d := Digit(t[ip]), Digit(t[ip + 1]), Digit(t[ip + 2]), Digit(t[ip + 3]);
      if a.None? || b.None? || c.None? || d.None? {
        SomeBad(t[ip..ip + 4]);
        TailThen(out[..op], Decode(t[ip..]));
        return Err(BadCharset);
      }
      AllGood(t[ip..ip + 4]);
      UnquadLen(a.value, b.value, c.value, d.value);
      DecodedLenStep(|t| - ip);
      ThenTwice(out[..op], Unquad(a.value, b.value, c.value, d.value), Decode(t[ip + 4..]));
      op := PutQuad(out, op, a.value, b.value, c.value, d.value);
      ip := ip + 4;
    }
    return Ok((ip, op));
  }

  lemma DecodedLenStep(n: nat)
    requires n >= 4
    ensures DecodedLen(n) == 3 + DecodedLen(n - 4)
  {}

  lemma EmptyFirst(r: Result<bytes, PairError>)
    ensures Then([], r) == r
  {
    if r.Ok? { assert [] + r.value == r.value; }
  }

  lemma SomeBad(g: bytes)
    requires |g| == 4 && (Digit(g[0]).None? || Digit(g[1]).None? || Digit(g[2]).None? || Digit(g[3]).None?)
    ensures !AllDigits(g)
  {
    hide Digit;
  }

  lemma AllGood(g: bytes)
    requires |g| == 4 && Digit(g[0]).Some? && Digit(g[1]).Some? && Digit(g[2]).Some? && Digit(g[3]).Some?
    ensures AllDigits(g)
  {
    hide Digit;
  }

  method DecodeInto(t: bytes, out: array<byte>) returns (r: Result<nat, PairError>)
    modifies out
    ensures r == if |t| % 4 == 1 then Err(BadLength)
                 else if out.Length < DecodedLen(|t|) then Err(BufferTooSmall)
                 else if Decode(t).Err? then Err(BadCharset)
                 else Ok(DecodedLen(|t|))
    ensures r.Ok? ==> Decode(t) == Ok(out[..r.value])
  {
    hide Digit, Decode, Then, DecodedLen;
    if |t| % 4 == 1 { return Err(BadLength); }
    if out.Length < DecodedLen(|t|) { return Err(BufferTooSmall); }
    DecodeLen(t);
    var q := DecodeQuads(t, out);
    if q.Err? { return Err(q.error); }
    var (ip, op) := q.value;
    var tail := LastDigits(t, ip);
    TailRoom(|t| - ip);
    TailThen(out[..op], Decode(t[ip..]));
    if tail.Err? { return Err(tail.error); }
    op := Put(out, op, tail.value);
    return Ok(op);
  }

  lemma TailRoom(n: nat)
    requires n < 4
    ensures DecodedLen(n) == if n == 2 then 1 else if n == 3 then 2 else 0
  {}

  lemma TailThen(p: bytes, r: Result<bytes, PairError>)
    ensures Then(p, r).Ok? <==> r.Ok?
    ensures if r.Ok? then Then(p, r).value == p + r.value else Then(p, r) == r
  {}

  /** The digits after the last whole group, with the low bits of the last one checked. */
  method LastDigits(t: bytes, ip: nat) returns (r: Result<bytes, PairError>)
    requires ip <= |t| < ip + 4 && (|t| - ip) % 4 != 1
    ensures r == Decode(t[ip..])
    ensures r.Ok? ==> |r.value| == if |t| - ip == 2 then 1 else if |t| - ip == 3 then 2 else 0
    ensures r.Err? ==> r.error == BadCharset
  {
    hide Digit;
    var left := |t| - ip;
    if left == 0 { return Ok([]); }
    ghost var rest := t[ip..];
    var a, b := Digit(t[ip]), Digit(t[ip + 1]);
    assert rest[0] == t[ip] && rest[1] == t[ip + 1];
    if a.None? || b.None? { return Err(BadCharset); }
    var x: byte := a.value as int * 4 + b.value / 16;
    if left == 2 {
      if b.value % 16 != 0 { return Err(BadCharset); }
      return Ok([x]);
    }
    var c := Digit(t[ip + 2]);
    assert rest[2] == t[ip + 2];
    if c.None? || c.value % 4 != 0 { return Err(BadCharset); }
    var y: byte := b.value as int % 16 * 16 + c.value / 4 % 16;
    return Ok([x, y]);
  }

  // ---- text transport ----

  function TransportEncode(record: bytes): Result<bytes, PairError> {
    if record == [] then Err(BadLength) else Ok(PREFIX + Encode(record))
  }

  predicate HasPrefix(text: bytes) { |text| >= |PREFIX| && text[..|PREFIX|] == PREFIX }

  function TransportDecode(text: bytes): Result<bytes, PairError> {
    if !HasPrefix(text) then Err(BadPrefix)
    else if |text| == |PREFIX| then Err(BadLength)
    else Decode(text[|PREFIX|..])
  }

  method TransportEncodeInto(record: bytes, out: array<byte>) returns (r: Result<nat, PairError>)
    modifies out
    ensures r.Ok? <==> record != [] && out.Length >= |PREFIX| + EncodedLen(|record|)
    ensures r.Ok? ==> r.value <= out.Length && TransportEncode(record) == Ok(out[..r.value])
    ensures r.Err? ==> r.error == (if record == [] then BadLength else BufferTooSmall) && out[..] == old(out[..])
  {
    if record == [] { return Err(BadLength); }
    if out.Length < |PREFIX| + EncodedLen(|record|) { return Err(BufferTooSmall); }
    var p := Put(out, 0, PREFIX);
    assert out[..p] == PREFIX;
    var n := EncodeInto(record, out, p);
    return Ok(p + n.value);
  }

  /** The refusals in order: prefix, length, room, then characters and stray bits. */
  method TransportDecodeInto(text: bytes, out: array<byte>) returns (r: Result<nat, PairError>)
    modifies out
    ensures r == if !HasPrefix(text) then Err(BadPrefix)
                 else if |text| == |PREFIX| || (|text| - |PREFIX|) % 4 == 1 then Err(BadLength)
                 else if out.Length < DecodedLen(|text| - |PREFIX|) then Err(BufferTooSmall)
                 else if TransportDecode(text).Err? then Err(BadCharset)
                 else Ok(DecodedLen(|text| - |PREFIX|))
    ensures r.Ok? ==> TransportDecode(text) == Ok(out[..r.value])
  {
    hide Decode, DecodedLen;
    if |text| < |PREFIX| || text[..|PREFIX|] != PREFIX { return Err(BadPrefix); }
    var body := text[|PREFIX|..];
    if body == [] { return Err(BadLength); }
    r := DecodeInto(body, out);
  }

  lemma {:induction false} ErrorIs(t: bytes)
    ensures Decode(t).Err? ==> Decode(t).error == if |t| % 4 == 1 then BadLength else BadCharset
  {
    hide AllDigits;
    if |t| >= 4 { ErrorIs(t[4..]); }
  }

  /** The transport is a bijection between nonempty records and accepted texts. */
  lemma TransportRoundTrip(record: bytes)
    requires record != []
    ensures TransportEncode(record).Ok? && TransportDecode(TransportEncode(record).value) == Ok(record)
  {
    hide Encode, Decode;
    var t := TransportEncode(record).value;
    assert t[..|PREFIX|] == PREFIX && t[|PREFIX|..] == Encode(record);
    EncodeLen(record);
    DecodeEncoded(record);
  }

  lemma AcceptedTextIsCanonical(text: bytes)
    requires TransportDecode(text).Ok?
    ensures TransportDecode(text).value != [] && TransportEncode(TransportDecode(text).value) == Ok(text)
  {
    hide Encode, Decode;
    var body := text[|PREFIX|..];
    EncodeDecoded(body);
    DecodeLen(body);
    ErrorIs(body);
    LoneDigit(body);
    assert text == PREFIX + body;
  }

  lemma LoneDigit(t: bytes)
    requires Decode(t).Ok?
    ensures |t| % 4 != 1
  {
    if |t| % 4 == 1 { LoneDigitRefused(t); }
  }
}
