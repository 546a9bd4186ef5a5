/** UTF-8 well-formedness, as `core::str::from_utf8` decides it (section 4 of RFC 3629). */
module Utf8 {
  import opened Bytes

  predicate Continuation(b: byte) { 0x80 <= b <= 0xBF }

  /** Length of the well-formed character that `s` starts with, or 0 when there is none. */
  function FirstChar(s: bytes): (n: nat)
    ensures n <= |s| && n <= 4
    ensures n == 1 <==> s != [] && s[0] < 0x80
    ensures n > 1 ==> forall i :: 1 <= i < n ==> Continuation(s[i])
    ensures n > 1 ==> 0xC2 <= s[0] <= 0xF4 && n == LeadLength(s[0])
  {
    if s == [] then 0
    else if s[0] < 0x80 then 1
    else if 0xC2 <= s[0] <= 0xDF then
      if |s| >= 2 && Continuation(s[1]) then 2 else 0
    else if 0xE0 <= s[0] <= 0xEF then
      if && |s| >= 3 && Continuation(s[1]) && Continuation(s[2])
         && (s[0] == 0xE0 ==> s[1] >= 0xA0)
         && (s[0] == 0xED ==> s[1] <= 0x9F)
      then 3 else 0
    else if 0xF0 <= s[0] <= 0xF4 then
      if && |s| >= 4 && Continuation(s[1]) && Continuation(s[2]) && Continuation(s[3])
         && (s[0] == 0xF0 ==> s[1] >= 0x90)
         && (s[0] == 0xF4 ==> s[1] <= 0x8F)
      then 4 else 0
    else 0
  }

  /** The sequence length a lead byte announces. */
  function LeadLength(b: byte): nat { if b >= 0xF0 then 4 else if b >= 0xE0 then 3 else 2 }

  predicate Valid(s: bytes)
    decreases |s|
  {
    s == [] || (FirstChar(s) > 0 && Valid(s[FirstChar(s)..]))
  }
}
