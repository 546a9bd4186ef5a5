/** The 64-entry replay window: highest sequence plus a bitmap of the ones just below it. */
module Replay {
  import opened Bytes
  import opened Powers

  const WIDTH: nat := 64

  datatype Verdict = Accepted | Duplicate | Stale

  datatype Window = Window(highest: u64, bitmap: u64, empty: bool)

  const EMPTY: Window := Window(0, 0, true)

  datatype Offered = Offered(window: Window, verdict: Verdict)

  // ---- u64 bit operations ----

  function ShiftIn(bitmap: u64, shift: nat): u64
  {
    Pow2Of64();
    KeepBound(Up(bitmap, shift), WIDTH);
    OrBound(Keep(Up(bitmap, shift), WIDTH), 1, WIDTH);
    Or(Keep(Up(bitmap, shift), WIDTH), 1)
  }

  function OneAt(back: nat): u64
    requires back < WIDTH
  {
    Pow2Of64();
    UpBound(back, WIDTH);
    Up(1, back)
  }

  function SetAt(bitmap: u64, back: nat): u64
    requires back < WIDTH
  {
    Pow2Of64();
    OrBound(bitmap, OneAt(back), WIDTH);
    Or(bitmap, OneAt(back))
  }

  /** What `accept` does to a window. */
  function Offer(w: Window, seqNo: u64): Offered {
    if w.empty then Offered(Window(seqNo, 1, false), Accepted)
    else if seqNo > w.highest then
      var shift := seqNo - w.highest;
      Offered(Window(seqNo, if shift >= WIDTH then 1 else ShiftIn(w.bitmap, shift), false), Accepted)
    else
      var back := w.highest - seqNo;
      if back >= WIDTH then Offered(w, Stale)
      else if And(w.bitmap, OneAt(back)) != 0 then Offered(w, Duplicate)
      else Offered(w.(bitmap := SetAt(w.bitmap, back)), Accepted)
  }

  /** Rebuilds a window from a stored triple; an inconsistent triple becomes empty. */
  function Restore(highest: u64, bitmap: u64, empty: bool): Window {
    if empty || bitmap == 0 then EMPTY else Window(highest, bitmap, false)
  }

  class ReplayWindow {
    var highest: u64
    var bitmap: u64
    var empty: bool

    constructor ()
      ensures Value() == EMPTY
    {
      highest, bitmap, empty := 0, 0, true;
    }

    constructor Stored(h: u64, b: u64, e: bool)
      ensures Value() == Restore(h, b, e)
    {
      if e || b == 0 {
        highest, bitmap, empty := 0, 0, true;
      } else {
        highest, bitmap, empty := h, b, false;
      }
    }

    function Value(): Window
      reads this
    {
      Window(highest, bitmap, empty)
    }

    method Accept(seqNo: u64) returns (v: Verdict)
      modifies this
      ensures Offered(Value(), v) == Offer(old(Value()), seqNo)
    {
      if empty {
        empty := false;
        highest := seqNo;
        bitmap := 1;
        return Accepted;
      }
      if seqNo > highest {
        var shift := seqNo - highest;
        bitmap := if shift >= WIDTH then 1 else ShiftIn(bitmap, shift);
        highest := seqNo;
        return Accepted;
      }
      var back := highest - seqNo;
      if back >= WIDTH { return Stale; }
      if And(bitmap, OneAt(back)) != 0 { return Duplicate; }
      bitmap := SetAt(bitmap, back);
      return Accepted;
    }
  }

  // ---- reading a window ----

  /** `s` is marked in the bitmap. */
  predicate Marked(w: Window, s: u64) {
    !w.empty && s <= w.highest && w.highest - s < WIDTH && Bit(w.bitmap, w.highest - s)
  }

  /** `s` can no longer be accepted. */
  predicate Covered(w: Window, s: u64) {
    !w.empty && s <= w.highest && (w.highest - s >= WIDTH || Bit(w.bitmap, w.highest - s))
  }

  /** The triples that a stored record may hold and that `Restore` gives back unchanged. */
  predicate Storable(w: Window) {
    if w.empty then w.highest == 0 && w.bitmap == 0 else w.bitmap != 0
  }

  lemma RestoreStored(w: Window)
    ensures Restore(w.highest, w.bitmap, w.empty) == w <==> Storable(w)
  {}

  lemma ShiftInBit(bitmap: u64, shift: nat, k: nat)
    requires k < WIDTH
    ensures Bit(ShiftIn(bitmap, shift), k) <==> k == 0 || (k >= shift && Bit(bitmap, k - shift))
  {
    OrBit(Keep(Up(bitmap, shift), WIDTH), 1, k);
    KeepBit(Up(bitmap, shift), WIDTH, k);
    UpBit(bitmap, shift, k);
    OneBit(k);
  }

  lemma SetAtBit(bitmap: u64, back: nat, k: nat)
    requires back < WIDTH && k < WIDTH
    ensures Bit(SetAt(bitmap, back), k) <==> k == back || Bit(bitmap, k)
  {
    OrBit(bitmap, OneAt(back), k);
    UpBit(1, back, k);
    if k >= back { OneBit(k - back); }
  }

  lemma BitMeansNonzero(n: nat, k: nat)
    requires Bit(n, k)
    ensures n != 0
  {
    if n == 0 { DropZero(k); }
  }

  // ---- single offers ----

  lemma AcceptedIffUncovered(w: Window, s: u64)
    ensures Offer(w, s).verdict == Accepted <==> !Covered(w, s)
    ensures Offer(w, s).verdict == Duplicate <==> Marked(w, s)
    ensures Offer(w, s).verdict != Accepted ==> Offer(w, s).window == w
  {
    if !w.empty && s <= w.highest && w.highest - s < WIDTH {
      AndTestsBit(w.bitmap, w.highest - s);
    }
  }

  /** An accepted number is covered afterwards, nothing is ever uncovered again, and the only new mark is its own. */
  lemma OfferCovers(w: Window, s: u64, t: u64)
    requires Storable(w)
    ensures var o := Offer(w, s);
            && Storable(o.window)
            && Covered(o.window, s)
            && (Covered(w, t) ==> Covered(o.window, t))
            && (Marked(o.window, t) ==> Marked(w, t) || t == s)
  {
    AcceptedIffUncovered(w, s);
    var o := Offer(w, s).window;
    OneBit(0);
    if w.empty {
      if t <= s && s - t < WIDTH { OneBit(s - t); }
    } else if s > w.highest {
      var shift := s - w.highest;
      if shift < WIDTH {
        ShiftInBit(w.bitmap, shift, 0);
        BitMeansNonzero(o.bitmap, 0);
      }
      if t <= s && s - t < WIDTH {
        if shift >= WIDTH { OneBit(s - t); } else { ShiftInBit(w.bitmap, shift, s - t); }
      }
    } else if Offer(w, s).verdict == Accepted {
      SetAtBit(w.bitmap, w.highest - s, w.highest - s);
      BitMeansNonzero(o.bitmap, w.highest - s);
      if t <= w.highest && w.highest - t < WIDTH { SetAtBit(w.bitmap, w.highest - s, w.highest - t); }
    }
  }

  // ---- refinement of the set of accepted numbers ----

  /** The window seen as a plain set: reject what lies 64 or more below a member, or is a member. */
  ghost function SetVerdict(a: set<u64>, s: u64): Verdict {
    if exists h :: h in a && s + WIDTH <= h then Stale
    else if s in a then Duplicate
    else Accepted
  }

  ghost predicate Represents(w: Window, a: set<u64>) {
    if w.empty then a == {} && w == EMPTY
    else
      && w.highest in a
      && (forall x :: x in a ==> x <= w.highest)
      && (forall x: u64 :: x <= w.highest && w.highest - x < WIDTH ==> (Bit(w.bitmap, w.highest - x) <==> x in a))
      && (forall k :: w.highest < k < WIDTH ==> !Bit(w.bitmap, k))
  }

  lemma OfferRefines(w: Window, a: set<u64>, s: u64)
    requires Represents(w, a)
    ensures Offer(w, s).verdict == SetVerdict(a, s)
    ensures Represents(Offer(w, s).window, if SetVerdict(a, s) == Accepted then a + {s} else a)
  {
    AcceptedIffUncovered(w, s);
    var o := Offer(w, s).window;
    var b := a + {s};
    if w.empty {
      forall x: u64 | x <= s && s - x < WIDTH ensures Bit(1, s - x) <==> x in b { OneBit(s - x); }
      forall k | s < k < WIDTH ensures !Bit(1, k) { OneBit(k); }
    } else if s > w.highest {
      var shift := s - w.highest;
      forall x: u64 | x <= s && s - x < WIDTH ensures Bit(o.bitmap, s - x) <==> x in b {
        if shift >= WIDTH { OneBit(s - x); } else { ShiftInBit(w.bitmap, shift, s - x); }
      }
      forall k | s < k < WIDTH ensures !Bit(o.bitmap, k) { ShiftInBit(w.bitmap, shift, k); }
    } else if Offer(w, s).verdict == Accepted {
      assert o.bitmap == SetAt(w.bitmap, w.highest - s) && o.highest == w.highest;
      forall x: u64 | x <= w.highest && w.highest - x < WIDTH
        ensures Bit(o.bitmap, w.highest - x) <==> x in b
      {
        SetAtBit(w.bitmap, w.highest - s, w.highest - x);
      }
      forall k | w.highest < k < WIDTH ensures !Bit(o.bitmap, k) {
        SetAtBit(w.bitmap, w.highest - s, k);
      }
      assert Represents(o, b);
    }
  }

  function Run(calls: seq<u64>): Window {
    if calls == [] then EMPTY else Offer(Run(calls[..|calls| - 1]), calls[|calls| - 1]).window
  }

  ghost function AcceptedBy(calls: seq<u64>): set<u64> {
    if calls == [] then {}
    else
      var a, s := AcceptedBy(calls[..|calls| - 1]), calls[|calls| - 1];
      if SetVerdict(a, s) == Accepted then a + {s} else a
  }

  /** After any sequence of calls the bitmap is exactly membership of the last 64 numbers, so every
      verdict is the one the set gives; in particular no number is accepted twice. */
  lemma {:induction false} WindowRefinesSet(calls: seq<u64>, s: u64)
    ensures Represents(Run(calls), AcceptedBy(calls))
    ensures Offer(Run(calls), s).verdict == SetVerdict(AcceptedBy(calls), s)
    ensures s in AcceptedBy(calls) ==> Offer(Run(calls), s).verdict != Accepted
  {
    if calls != [] {
      var n := |calls| - 1;
      WindowRefinesSet(calls[..n], calls[n]);
      OfferRefines(Run(calls[..n]), AcceptedBy(calls[..n]), calls[n]);
    }
    OfferRefines(Run(calls), AcceptedBy(calls), s);
  }
}
