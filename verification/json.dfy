/** JSON text as the USB side prints it, and a reader for it after section 7 of RFC 8259. */
module Json {
  import opened Bytes
  import opened Utf8

  const QUOTE: byte := 0x22
  const BACKSLASH: byte := 0x5C

  // ---- printing a string ----

  function HexDigit(n: nat): byte
    requires n < 16
  {
    if n < 10 then 0x30 + n else 0x61 + (n - 10)
  }

  /** How a byte that does not start a multi-byte character is printed. */
  function EscapeByte(b: byte): bytes {
    if b == QUOTE then [BACKSLASH, QUOTE]
    else if b == BACKSLASH then [BACKSLASH, BACKSLASH]
    else if b == 0x0A then [BACKSLASH, 0x6E]
    else if b == 0x0D then [BACKSLASH, 0x72]
    else if b == 0x09 then [BACKSLASH, 0x74]
    else if b == 0x08 then [BACKSLASH, 0x62]
    else if b == 0x0C then [BACKSLASH, 0x66]
    else if 0x20 <= b <= 0x7E then [b]
    else [BACKSLASH, 0x75, 0x30, 0x30, HexDigit(b / 16), HexDigit(b % 16)]
  }

  predicate Lead(b: byte) { 0xC2 <= b <= 0xF4 }

  /** The next piece of text and how many input bytes it stands for; `None` when a character is cut off. */
  function Piece(s: bytes): Option<(bytes, nat)>
    requires s != []
  {
    if Lead(s[0]) then if |s| < LeadLength(s[0]) then None else Some((s[..LeadLength(s[0])], LeadLength(s[0])))
    else Some((EscapeByte(s[0]), 1))
  }

  function Escape(s: bytes): Option<bytes>
    decreases |s|
  {
    if s == [] then Some([])
    else
      match Piece(s)
      case None => None
      case Some(p) =>
        match Escape(s[p.1..])
        case None => None
        case Some(rest) => Some(p.0 + rest)
  }

  function Quoted(s: bytes): Option<bytes> {
    match Escape(s) case None => None case Some(t) => Some([QUOTE] + t + [QUOTE])
  }

  // ---- reading a string ----

  function HexValue(b: byte): Option<nat> {
    if 0x30 <= b <= 0x39 then Some(b - 0x30)
    else if 0x61 <= b <= 0x66 then Some(b - 0x61 + 10)
    else if 0x41 <= b <= 0x46 then Some(b - 0x41 + 10)
    else None
  }

  /** UTF-8 form of a code point of the basic plane that is no surrogate. */
  function CodePoint(v: nat): Option<bytes>
    requires v < 0x1_0000
  {
    if v < 0x80 then Some([v])
    else if v < 0x800 then Some([0xC0 + v / 64, 0x80 + v % 64])
    else if 0xD800 <= v < 0xE000 then None
    else Some([0xE0 + v / 4096, 0x80 + v / 64 % 64, 0x80 + v % 64])
  }

  /** One escape sequence after its backslash: its bytes and its length. */
  function ReadEscape(t: bytes): Option<(bytes, nat)>
    requires t != []
  {
    if t[0] == QUOTE || t[0] == BACKSLASH || t[0] == 0x2F then Some(([t[0]], 1))
    else if t[0] == 0x62 then Some(([0x08], 1))
    else if t[0] == 0x66 then Some(([0x0C], 1))
    else if t[0] == 0x6E then Some(([0x0A], 1))
    else if t[0] == 0x72 then Some(([0x0D], 1))
    else if t[0] == 0x74 then Some(([0x09], 1))
    else if t[0] == 0x75 && |t| >= 5 then
      var a, b, c, d := HexValue(t[1]), HexValue(t[2]), HexValue(t[3]), HexValue(t[4]);
      if a.None? || b.None? || c.None? || d.None? || a.value * 4096 + b.value * 256 + c.value * 16 + d.value >= 0x1_0000 then None
      else
        match CodePoint(a.value * 4096 + b.value * 256 + c.value * 16 + d.value)
        case None => None
        case Some(u) => Some((u, 5))
    else None
  }

  /** The contents of a string up to its closing quote, and the text after it. */
  function ReadContents(t: bytes): Option<(bytes, bytes)>
    decreases |t|
  {
    if t == [] then None
    else if t[0] == QUOTE then Some(([], t[1..]))
    else if t[0] < 0x20 then None
    else if t[0] == BACKSLASH then
      if |t| < 2 then None
      else
        match ReadEscape(t[1..])
        case None => None
        case Some(e) => Prepend(e.0, ReadContents(t[1 + e.1..]))
    else Prepend([t[0]], ReadContents(t[1..]))
  }

  function Prepend(p: bytes, r: Option<(bytes, bytes)>): Option<(bytes, bytes)> {
    match r case None => None case Some(x) => Some((p + x.0, x.1))
  }

  function ReadString(t: bytes): Option<(bytes, bytes)> {
    if t == [] || t[0] != QUOTE then None else ReadContents(t[1..])
  }

  // ---- reading undoes printing ----

  lemma HexOfDigit(n: nat)
    requires n < 16
    ensures HexValue(HexDigit(n)) == Some(n)
  {}

  /** A printed ASCII byte is read back as itself. */
  lemma ReadsByte(b: byte, rest: bytes)
    requires b < 0x80
    ensures ReadContents(EscapeByte(b) + rest) == Prepend([b], ReadContents(rest))
  {
    var e := EscapeByte(b);
    var t := e + rest;
    if e[0] == BACKSLASH {
      if |e| == 6 {
        HexOfDigit(b / 16);
        HexOfDigit(b % 16);
        assert t[1] == 0x75 && t[2] == 0x30 && t[3] == 0x30 && t[4] == HexDigit(b / 16) && t[5] == HexDigit(b % 16);
        assert HexValue(0x30) == Some(0);
        assert t[6..] == rest;
      } else {
        assert t[2..] == rest;
      }
    } else {
      assert t[1..] == rest;
    }
  }

  /** Bytes above the ASCII range are read as they stand. */
  lemma {:induction false} ReadsPlain(p: bytes, rest: bytes)
    requires forall i :: 0 <= i < |p| ==> p[i] >= 0x80
    ensures ReadContents(p + rest) == Prepend(p, ReadContents(rest))
  {
    if p == [] {
      assert p + rest == rest;
      PrependNothing(ReadContents(rest));
    } else {
      ReadsPlain(p[1..], rest);
      assert (p + rest)[1..] == p[1..] + rest;
      PrependTwice([p[0]], p[1..], ReadContents(rest));
      assert [p[0]] + p[1..] == p;
    }
  }

  lemma PrependNothing(r: Option<(bytes, bytes)>)
    ensures Prepend([], r) == r
  {
    if r.Some? { assert [] + r.value.0 == r.value.0; }
  }

  lemma PrependTwice(p: bytes, q: bytes, r: Option<(bytes, bytes)>)
    ensures Prepend(p, Prepend(q, r)) == Prepend(p + q, r)
  {
    if r.Some? { assert p + (q + r.value.0) == (p + q) + r.value.0; }
  }

  /** For every valid UTF-8 text, reading the printed contents gives the text back, whatever follows. */
  lemma {:induction false} ContentsRoundTrip(s: bytes, rest: bytes)
    requires Valid(s)
    ensures Escape(s).Some? && ReadContents(Escape(s).value + [QUOTE] + rest) == Some((s, rest))
    decreases |s|
  {
    hide Valid, Escape, Piece, FirstChar, EscapeByte, ReadContents;
    if s == [] {
      NothingPrinted(rest);
    } else {
      FirstIsValid(s);
      var n := FirstChar(s);
      var tail := s[n..];
      ContentsRoundTrip(tail, rest);
      FirstPiece(s);
      EscapeStep(s);
      var p, q := Piece(s).value.0, Escape(tail).value + [QUOTE] + rest;
      assert (p + Escape(tail).value) + [QUOTE] + rest == p + q;
      if n == 1 { ReadsByte(s[0], q); } else { ReadsPlain(s[..n], q); }
      assert s[..n] + tail == s;
    }
  }

  lemma NothingPrinted(rest: bytes)
    ensures Escape([]) == Some([]) && ReadContents([] + [QUOTE] + rest) == Some(([], rest))
  {
    assert [] + [QUOTE] + rest == [QUOTE] + rest && ([QUOTE] + rest)[1..] == rest;
  }

  lemma FirstIsValid(s: bytes)
    requires s != [] && Valid(s)
    ensures FirstChar(s) > 0 && Valid(s[FirstChar(s)..])
  {}

  lemma EscapeStep(s: bytes)
    requires s != [] && Piece(s).Some? && Piece(s).value.1 <= |s| && Escape(s[Piece(s).value.1..]).Some?
    ensures Escape(s) == Some(Piece(s).value.0 + Escape(s[Piece(s).value.1..]).value)
  {
    hide Piece;
  }

  /** What is printed first stands for exactly the first character. */
  lemma FirstPiece(s: bytes)
    requires s != [] && FirstChar(s) > 0
    ensures var n := FirstChar(s);
            && Piece(s) == Some((if n == 1 then EscapeByte(s[0]) else s[..n], n))
            && (n == 1 ==> s[0] < 0x80 && s[..n] == [s[0]])
            && (n > 1 ==> forall i :: 0 <= i < n ==> s[..n][i] >= 0x80)
  {
    hide EscapeByte;
  }

  lemma StringRoundTrip(s: bytes, rest: bytes)
    requires Valid(s)
    ensures Quoted(s).Some? && ReadString(Quoted(s).value + rest) == Some((s, rest))
  {
    hide Escape, ReadContents, Valid;
    ContentsRoundTrip(s, rest);
    var t := Escape(s).value + [QUOTE] + rest;
    assert Quoted(s).value + rest == [QUOTE] + t;
    assert ([QUOTE] + t)[1..] == t;
  }

  lemma QuotesValid(s: bytes)
    requires Valid(s)
    ensures Quoted(s).Some?
  {
    StringRoundTrip(s, []);
  }

  lemma {:induction false} EscapeLength(s: bytes)
    ensures Escape(s).Some? ==> |Escape(s).value| <= 6 * |s|
    decreases |s|
  {
    if s != [] && Piece(s).Some? { EscapeLength(s[Piece(s).value.1..]); }
  }

  // ---- numbers ----

  function Decimal(v: nat): bytes {
    if v < 10 then [0x30 + v] else Decimal(v / 10) + [0x30 + v % 10]
  }

  function Pow10(n: nat): nat { if n == 0 then 1 else 10 * Pow10(n - 1) }

  /** Reads digits as far as they go. */
  function ReadDigits(t: bytes, acc: nat): (nat, bytes)
    decreases |t|
  {
    if t != [] && 0x30 <= t[0] <= 0x39 then ReadDigits(t[1..], acc * 10 + (t[0] - 0x30)) else (acc, t)
  }

  lemma {:induction false} DecimalReads(v: nat, rest: bytes)
    ensures ReadDigits(Decimal(v) + rest, 0) == ReadDigits(rest, v)
  {
    var d: byte := 0x30 + v % 10;
    if v < 10 {
      assert ([d] + rest)[1..] == rest;
    } else {
      DecimalReads(v / 10, [d] + rest);
      assert Decimal(v) + rest == Decimal(v / 10) + ([d] + rest);
      assert ([d] + rest)[1..] == rest;
    }
  }

  lemma {:induction false} DecimalLength(v: nat, k: nat)
    requires k > 0 && v < Pow10(k)
    ensures 1 <= |Decimal(v)| <= k
  {
    if v >= 10 { DecimalLength(v / 10, k - 1); }
  }

  lemma Pow10Of()
    ensures Pow10(3) == 1000 && Pow10(10) == 10_000_000_000 && Pow10(20) == 100_000_000_000_000_000_000
  {
    assert Pow10(5) == 100_000;
    assert Pow10(10) == 10_000_000_000;
    assert Pow10(15) == 1_000_000_000_000_000;
  }

  // ---- the `received` event ----

  const REPLY_LEN: nat := 4096

  function Ascii(s: string): (b: bytes)
    ensures |b| == |s|
  {
    seq(|s|, i requires 0 <= i < |s| => (s[i] as int) % 256)
  }

  const EVENT: string := "{\"event\":\"received\",\"contact_id\":"
  const EPOCH: string := ",\"epoch\":"
  const SEQUENCE: string := ",\"sequence\":"
  const TEXT: string := ",\"text\":"

  function Head(contactId: byte, epoch: u32, sequence: u64): bytes {
    (Ascii(EVENT) + Decimal(contactId)) + (Ascii(EPOCH) + Decimal(epoch)) + (Ascii(SEQUENCE) + Decimal(sequence))
  }

  function Received(contactId: byte, epoch: u32, sequence: u64, text: bytes): Option<bytes> {
    if !Valid(text) || Quoted(text).None? then None
    else Some(Head(contactId, epoch, sequence) + (Ascii(TEXT) + Quoted(text).value + Ascii("}")))
  }

  /** A number after a literal, and what follows it. */
  function ReadField(t: bytes, literal: bytes): Option<(nat, bytes)> {
    if literal <= t then Some(ReadDigits(t[|literal|..], 0)) else None
  }

  function ReadReceived(t: bytes): Option<(nat, nat, nat, bytes)> {
    var a := ReadField(t, Ascii(EVENT));
    if a.None? then None
    else
      var b := ReadField(a.value.1, Ascii(EPOCH));
      if b.None? then None
      else
        var c := ReadField(b.value.1, Ascii(SEQUENCE));
        if c.None? || !(Ascii(TEXT) <= c.value.1) then None
        else
          match ReadString(c.value.1[|Ascii(TEXT)|..])
          case None => None
          case Some(x) => if x.1 == Ascii("}") then Some((a.value.0, b.value.0, c.value.0, x.0)) else None
  }

  /** A number is read up to a character that is no digit. */
  lemma FieldReads(literal: bytes, v: nat, rest: bytes)
    requires rest != [] && !(0x30 <= rest[0] <= 0x39)
    ensures ReadField(literal + (Decimal(v) + rest), literal) == Some((v, rest))
  {
    DecimalReads(v, rest);
    assert (literal + (Decimal(v) + rest))[|literal|..] == Decimal(v) + rest;
  }

  lemma Commas()
    ensures Ascii(EPOCH)[0] == 0x2C && Ascii(SEQUENCE)[0] == 0x2C && Ascii(TEXT)[0] == 0x2C
  {}

  /** The host reads back exactly what was delivered. */
  lemma ReceivedRoundTrip(contactId: byte, epoch: u32, sequence: u64, text: bytes)
    requires Valid(text)
    ensures var e := Received(contactId, epoch, sequence, text);
            e.Some? && ReadReceived(e.value) == Some((contactId as int, epoch as int, sequence as int, text))
  {
    hide Ascii, Decimal, Quoted, Valid, ReadField, ReadString;
    StringRoundTrip(text, Ascii("}"));
    Commas();
    var (l1, l2, l3, l4) := (Ascii(EVENT), Ascii(EPOCH), Ascii(SEQUENCE), Ascii(TEXT));
    var d := l4 + (Quoted(text).value + Ascii("}"));
    var c := l3 + (Decimal(sequence) + d);
    var b := l2 + (Decimal(epoch) + c);
    FieldReads(l3, sequence, d);
    FieldReads(l2, epoch, c);
    FieldReads(l1, contactId, b);
    assert d[|l4|..] == Quoted(text).value + Ascii("}");
    Assembled(l1, Decimal(contactId), l2, Decimal(epoch), l3, Decimal(sequence), l4, Quoted(text).value, Ascii("}"));
  }

  lemma Assembled(a: bytes, b: bytes, c: bytes, d: bytes, e: bytes, f: bytes, g: bytes, h: bytes, i: bytes)
    ensures (a + b) + (c + d) + (e + f) + (g + h + i) == a + (b + (c + (d + (e + (f + (g + (h + i)))))))
  {
    var x, y, z := a + b, c + d, e + f;
    assert x + y + z + (g + h + i) == x + (y + (z + (g + (h + i))));
    assert z + (g + (h + i)) == e + (f + (g + (h + i)));
    assert y + (z + (g + (h + i))) == c + (d + (z + (g + (h + i))));
    assert x + (y + (z + (g + (h + i)))) == a + (b + (y + (z + (g + (h + i)))));
  }

  /** Every event for a text that can be delivered fits the reply buffer. */
  lemma ReceivedFits(contactId: byte, epoch: u32, sequence: u64, text: bytes)
    requires Valid(text) && |text| <= 160
    ensures Received(contactId, epoch, sequence, text).Some? && |Received(contactId, epoch, sequence, text).value| <= REPLY_LEN
  {
    StringRoundTrip(text, []);
    EscapeLength(text);
    Pow10Of();
    DecimalLength(contactId, 3);
    DecimalLength(epoch, 10);
    DecimalLength(sequence, 20);
  }

  // ---- the writer over a fixed buffer ----

  class JsonWriter {
    const buf: array<byte>
    var len: nat

    ghost predicate Valid()
      reads this
    {
      len <= buf.Length
    }

    ghost function Text(): bytes
      requires Valid()
      reads this, buf
    {
      buf[..len]
    }

    constructor (out: array<byte>)
      ensures Valid() && buf == out && Text() == []
    {
      buf, len := out, 0;
    }

    /** Appends when there is room; otherwise nothing changes. */
    method Raw(b: bytes) returns (ok: bool)
      requires Valid()
      modifies this, buf
      ensures Valid() && ok == (|old(Text())| + |b| <= buf.Length)
      ensures Text() == if ok then old(Text()) + b else old(Text())
    {
      if len + |b| > buf.Length { return false; }
      len := Put(buf, len, b);
      return true;
    }

    method Num(v: u64) returns (ok: bool)
      requires Valid()
      modifies this, buf
      ensures Valid() && ok == (|old(Text())| + |Decimal(v)| <= buf.Length)
      ensures Text() == if ok then old(Text()) + Decimal(v) else old(Text())
    {
      var digits := Digits(v);
      ok := Raw(digits);
    }

    /** A literal and a number. */
    method Field(literal: bytes, v: u64) returns (ok: bool)
      requires Valid()
      modifies this, buf
      ensures Valid() && ok == (|old(Text())| + |literal + Decimal(v)| <= buf.Length)
      ensures ok ==> Text() == old(Text()) + (literal + Decimal(v))
    {
      hide Decimal;
      ok := Raw(literal);
      if ok { ok := Num(v); }
    }

    /** Prints the contents of a JSON string; fails when they do not fit or a character is cut off. */
    method Contents(s: bytes) returns (ok: bool)
      requires Valid()
      modifies this, buf
      ensures Valid() && ok == (Escape(s).Some? && |old(Text())| + |Escape(s).value| <= buf.Length)
      ensures ok ==> Text() == old(Text()) + Escape(s).value
    {
      hide Escape, Piece, EscapeByte;
      ghost var start := Text();
      var i := 0;
      ghost var done: bytes := [];
      assert s[0..] == s;
      EmptyDone(Escape(s));
      while i < |s|
        invariant 0 <= i <= |s| && Valid() && Text() == start + done
        invariant Escape(s) == Behind(done, Escape(s[i..]))
      {
        PieceLength(s[i..]);
        EscapeUnfolds(s[i..]);
        var p := Piece(s[i..]);
        if p.None? { return false; }
        BehindTwice(done, p.value.0, Escape(s[i..][p.value.1..]));
        assert s[i..][p.value.1..] == s[i + p.value.1..];
        ok := Raw(p.value.0);
        if !ok { return; }
        done := done + p.value.0;
        i := i + p.value.1;
      }
      NothingLeft(s[i..]);
      ok := true;
    }

    /** Prints `s` as a JSON string. */
    method QuotedEscaped(s: bytes) returns (ok: bool)
      requires Valid()
      modifies this, buf
      ensures Valid() && ok == (Quoted(s).Some? && |old(Text())| + |Quoted(s).value| <= buf.Length)
      ensures ok ==> Text() == old(Text()) + Quoted(s).value
    {
      hide Escape;
      ok := Raw([QUOTE]);
      if ok { ok := Contents(s); }
      if ok { ok := Raw([QUOTE]); }
    }

    method Start(contactId: byte, epoch: u32, sequence: u64) returns (ok: bool)
      requires Valid()
      modifies this, buf
      ensures Valid() && ok == (|old(Text())| + |Head(contactId, epoch, sequence)| <= buf.Length)
      ensures ok ==> Text() == old(Text()) + Head(contactId, epoch, sequence)
    {
      hide Ascii, Decimal;
      ok := Field(Ascii(EVENT), contactId);
      if ok { ok := Field(Ascii(EPOCH), epoch); }
      if ok { ok := Field(Ascii(SEQUENCE), sequence); }
    }

    method Value(text: bytes) returns (ok: bool)
      requires Valid() && Quoted(text).Some?
      modifies this, buf
      ensures Valid() && ok == (|old(Text())| + |Ascii(TEXT) + Quoted(text).value + Ascii("}")| <= buf.Length)
      ensures ok ==> Text() == old(Text()) + (Ascii(TEXT) + Quoted(text).value + Ascii("}"))
    {
      hide Ascii, Quoted;
      ok := Raw(Ascii(TEXT));
      if ok { ok := QuotedEscaped(text); }
      if ok { ok := Raw(Ascii("}")); }
    }
  }

  lemma LastDigit(n: nat)
    requires n > 0
    ensures Decimal(n) == (if n / 10 > 0 then Decimal(n / 10) else []) + [0x30 + n % 10]
  {}

  /** The digits of a number, last one first into a 20-byte scratch. */
  method Digits(v: u64) returns (d: bytes)
    ensures d == Decimal(v)
  {
    var tmp := new byte[20](i => 0);
    var n: nat, i: nat := v, 20;
    Pow10Of();
    if n == 0 {
      i := i - 1;
      tmp[i] := 0x30;
    } else {
      while n > 0
        invariant i <= 20 && n < Pow10(i)
        invariant Decimal(v) == (if n > 0 then Decimal(n) else []) + tmp[i..]
      {
        ghost var written := tmp[i..];
        var d: byte := 0x30 + n % 10;
        LastDigit(n);
        i := i - 1;
        tmp[i] := d;
        assert tmp[i..] == [d] + written;
        n := n / 10;
      }
    }
    d := tmp[i..];
  }

  /** Renders the event into `out`; `None` when the text is not UTF-8 or there is no room. */
  method ReplyReceived(contactId: byte, epoch: u32, sequence: u64, text: bytes, out: array<byte>) returns (n: Option<nat>)
    modifies out
    ensures n.Some? <==> Received(contactId, epoch, sequence, text).Some? && |Received(contactId, epoch, sequence, text).value| <= out.Length
    ensures n.Some? ==> n.value <= out.Length && Some(out[..n.value]) == Received(contactId, epoch, sequence, text)
  {
    hide Ascii, Decimal, Quoted, Valid;
    hide Head;
    var w := new JsonWriter(out);
    var ok := w.Start(contactId, epoch, sequence);
    if !ok || !Valid(text) { return None; }
    assert w.Text() == Head(contactId, epoch, sequence);
    QuotesValid(text);
    ok := w.Value(text);
    return if ok then Some(w.len) else None;
  }

  /** `t` printed before whatever follows. */
  function Behind(t: bytes, rest: Option<bytes>): Option<bytes> { if rest.None? then None else Some(t + rest.value) }

  lemma EmptyDone(r: Option<bytes>)
    ensures Behind([], r) == r
  {
    if r.Some? { assert [] + r.value == r.value; }
  }

  lemma BehindTwice(a: bytes, b: bytes, r: Option<bytes>)
    ensures Behind(a, Behind(b, r)) == Behind(a + b, r)
  {
    if r.Some? { assert a + (b + r.value) == (a + b) + r.value; }
  }

  lemma EscapeUnfolds(s: bytes)
    requires s != []
    ensures Escape(s) == if Piece(s).None? then None else Behind(Piece(s).value.0, Escape(s[Piece(s).value.1..]))
  {
    hide Piece;
    PieceLength(s);
  }

  lemma PieceLength(s: bytes)
    requires s != []
    ensures Piece(s).Some? ==> 1 <= Piece(s).value.1 <= |s|
  {
    hide EscapeByte;
  }

  lemma NothingLeft(s: bytes)
    requires s == []
    ensures Escape(s) == Some([])
  {}
}
