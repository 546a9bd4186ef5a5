/** Hour epochs, the accept window of one hour either side, and the anchor that retires old hours. */
module Clock {
  import opened Bytes

  const SECS_PER_HOUR: nat := 3600

  function EpochOfUnix(seconds: u64): Option<u32> {
    if seconds / SECS_PER_HOUR < U32 then Some(seconds / SECS_PER_HOUR) else None
  }

  /** Current or adjacent hour; `checked_add` never wraps. */
  predicate InAcceptWindow(rx: u32, local: u32) {
    || rx == local
    || (rx < U32_MAX && rx + 1 == local)
    || (local < U32_MAX && local + 1 == rx)
  }

  type Epochs = s: seq<u32> | |s| == 3 witness [0, 0, 0]

  /** The three retained hours of an anchor. */
  function Slots(anchor: u32): Epochs { [Pred(anchor), anchor, Succ(anchor)] }

  /** Index of the first occurrence, as `iter().position`. */
  function Position(s: Epochs, e: u32): (r: Option<nat>)
    ensures r.Some? <==> e in s
    ensures r.Some? ==> r.value < 3 && s[r.value] == e
  {
    if s[0] == e then Some(0) else if s[1] == e then Some(1) else if s[2] == e then Some(2) else None
  }

  datatype AnchorError = Rollback

  /** The retained hours of `to` that are not retained at `from`, each once, in slot order. */
  function NewSlots(from: u32, to: u32, n: nat): seq<u32>
    requires n <= 3
  {
    if n == 0 then []
    else
      var init, s := NewSlots(from, to, n - 1), Slots(to)[n - 1];
      if s !in Slots(from) && s !in init then init + [s] else init
  }

  class AnchorHours {
    var anchor: u32

    constructor (a: u32)
      ensures anchor == a
    {
      anchor := a;
    }

    method TrustedAdvance(newHour: u32) returns (r: Result<seq<u32>, AnchorError>)
      modifies this
      ensures r.Err? <==> newHour < old(anchor)
      ensures anchor == if r.Err? then old(anchor) else newHour
      ensures r.Ok? ==> r.value == NewSlots(old(anchor), newHour, 3)
    {
      if newHour < anchor { return Err(Rollback); }
      var before, after := Slots(anchor), Slots(newHour);
      var init: seq<u32> := [];
      for i := 0 to 3
        invariant init == NewSlots(anchor, newHour, i)
      {
        if after[i] !in before && after[i] !in init { init := init + [after[i]]; }
      }
      anchor := newHour;
      return Ok(init);
    }
  }

  // ---- properties ----

  /** Exactly the retained hours are accepted, at both ends of the hour range too. */
  lemma AcceptedIffRetained(rx: u32, anchor: u32)
    ensures InAcceptWindow(rx, anchor) <==> rx in Slots(anchor)
  {
    assert Slots(anchor)[0] == Pred(anchor) && Slots(anchor)[1] == anchor && Slots(anchor)[2] == Succ(anchor);
  }

  lemma InSlots(e: u32, a: u32)
    ensures e in Slots(a) <==> e == Pred(a) || e == a || e == Succ(a)
  {
    assert Slots(a)[0] == Pred(a) && Slots(a)[1] == a && Slots(a)[2] == Succ(a);
  }

  /** An hour that the anchor has left behind is never retained again. */
  lemma RetiredStaysRetired(e: u32, a: u32, b: u32)
    requires a <= b && e <= Succ(a) && e !in Slots(a)
    ensures e !in Slots(b) && e <= Succ(b)
  {
    InSlots(e, a);
    InSlots(e, b);
  }

  /** `TrustedAdvance` reports exactly the hours whose windows start empty, without repetition. */
  lemma NewSlotsExact(from: u32, to: u32, e: u32)
    ensures e in NewSlots(from, to, 3) <==> e in Slots(to) && e !in Slots(from)
    ensures forall i, j :: 0 <= i < j < |NewSlots(from, to, 3)| ==> NewSlots(from, to, 3)[i] != NewSlots(from, to, 3)[j]
  {
    InSlots(e, to);
    assert Slots(to)[0] == Pred(to) && Slots(to)[1] == to && Slots(to)[2] == Succ(to);
    var s1, s2 := NewSlots(from, to, 1), NewSlots(from, to, 2);
    assert NewSlots(from, to, 0) == [] && [] + [Pred(to)] == [Pred(to)];
    assert s1 == if Pred(to) !in Slots(from) then [Pred(to)] else [];
    assert s2 == if to !in Slots(from) && to !in s1 then s1 + [to] else s1;
  }
}
