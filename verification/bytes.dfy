/** Byte strings, fixed-width unsigned integers and their big-endian form. */
module Bytes {
  type byte = x: int | 0 <= x < 256
  type bytes = seq<byte>

  const U16: int := 0x1_0000
  const U32: int := 0x1_0000_0000
  const U64: int := 0x1_0000_0000_0000_0000
  const U32_MAX: int := U32 - 1

  type u16 = x: int | 0 <= x < U16
  type u32 = x: int | 0 <= x < U32
  type u64 = x: int | 0 <= x < U64

  datatype Option<+T> = None | Some(value: T)
  datatype Result<+T, +E> = Ok(value: T) | Err(error: E)

  function Max(a: int, b: int): int { if a < b then b else a }

  /** `u32::saturating_sub(1)` and `u32::saturating_add(1)`. */
  function Pred(e: u32): u32 { if e == 0 then 0 else e - 1 }
  function Succ(e: u32): u32 { if e == U32_MAX then e else e + 1 }

  /** The array `[0; n]`. */
  function Zeros(n: nat): (s: bytes)
    ensures |s| == n && forall i :: 0 <= i < n ==> s[i] == 0
  {
    seq(n, i => 0)
  }

  type bytes8 = s: bytes | |s| == 8 witness Zeros(8)
  type bytes24 = s: bytes | |s| == 24 witness Zeros(24)
  type bytes32 = s: bytes | |s| == 32 witness Zeros(32)
  type bytes64 = s: bytes | |s| == 64 witness Zeros(64)

  function B2N(b: bool): byte { if b then 1 else 0 }

  lemma {:induction false} SubSlice<T>(s: seq<T>, i: nat, j: nat, k: nat, l: nat)
    requires i <= j <= |s| && k <= l <= j - i
    ensures s[i..j][k..l] == s[i + k..i + l]
  {
    var a, b := s[i..j][k..l], s[i + k..i + l];
    assert forall x :: 0 <= x < l - k ==> a[x] == s[i..j][k + x] == s[i + k + x] == b[x];
  }

  // ---- to_be_bytes / from_be_bytes ----

  function Be16(v: u16): (s: bytes)
    ensures |s| == 2
  {
    [v / 256, v % 256]
  }

  function FromBe16(s: bytes): u16
    requires |s| == 2
  {
    (s[0] as int) * 256 + s[1] as int
  }

  function Be32(v: u32): (s: bytes)
    ensures |s| == 4
  {
    Be16(v / U16) + Be16(v % U16)
  }

  function FromBe32(s: bytes): u32
    requires |s| == 4
  {
    (FromBe16(s[..2]) as int) * U16 + FromBe16(s[2..]) as int
  }

  function Be64(v: u64): (s: bytes)
    ensures |s| == 8
  {
    Be32(v / U32) + Be32(v % U32)
  }

  function FromBe64(s: bytes): u64
    requires |s| == 8
  {
    (FromBe32(s[..4]) as int) * U32 + FromBe32(s[4..]) as int
  }

  lemma FromBe16Inverse(s: bytes)
    requires |s| == 2
    ensures Be16(FromBe16(s)) == s
  {}

  lemma Be32Inverse(v: u32)
    ensures FromBe32(Be32(v)) == v
  {
    assert Be32(v)[..2] == Be16(v / U16) && Be32(v)[2..] == Be16(v % U16);
  }

  lemma FromBe32Inverse(s: bytes)
    requires |s| == 4
    ensures Be32(FromBe32(s)) == s
  {
    FromBe16Inverse(s[..2]);
    FromBe16Inverse(s[2..]);
    hide Be16, FromBe16;
    assert FromBe32(s) / U16 == FromBe16(s[..2]) && FromBe32(s) % U16 == FromBe16(s[2..]);
    assert s == s[..2] + s[2..];
  }

  lemma Be64Inverse(v: u64)
    ensures FromBe64(Be64(v)) == v
  {
    Be32Inverse(v / U32);
    Be32Inverse(v % U32);
    assert Be64(v)[..4] == Be32(v / U32) && Be64(v)[4..] == Be32(v % U32);
  }

  lemma FromBe64Inverse(s: bytes)
    requires |s| == 8
    ensures Be64(FromBe64(s)) == s
  {
    FromBe32Inverse(s[..4]);
    FromBe32Inverse(s[4..]);
    assert s == s[..4] + s[4..];
  }

  lemma Be32Injective(v: u32, w: u32)
    ensures Be32(v) == Be32(w) ==> v == w
  {
    Be32Inverse(v);
    Be32Inverse(w);
  }

  lemma Be64Injective(v: u64, w: u64)
    ensures Be64(v) == Be64(w) ==> v == w
  {
    Be64Inverse(v);
    Be64Inverse(w);
  }

  /** Copies `src` to `out[pos..]` and returns the advanced cursor. */
  method Put(out: array<byte>, pos: nat, src: bytes) returns (next: nat)
    requires pos + |src| <= out.Length
    modifies out
    ensures next == pos + |src|
    ensures out[..next] == old(out[..pos]) + src
    ensures forall j :: next <= j < out.Length ==> out[j] == old(out[j])
  {
    for i := 0 to |src|
      invariant out[..pos + i] == old(out[..pos]) + src[..i]
      invariant forall j :: pos + i <= j < out.Length ==> out[j] == old(out[j])
    {
      out[pos + i] := src[i];
      assert out[..pos + i + 1] == out[..pos + i] + [src[i]];
    }
    next := pos + |src|;
  }
}
