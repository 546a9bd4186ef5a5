/** Powers of two and binary digits of naturals. */
module Powers {
  function Pow2(n: nat): (p: nat)
    ensures p > 0
  {
    if n == 0 then 1 else 2 * Pow2(n - 1)
  }

  lemma Pow2Of16()
    ensures Pow2(8) == 256 && Pow2(15) == 0x8000 && Pow2(16) == 0x1_0000
  {
    assert Pow2(4) == 16;
    assert Pow2(8) == 256;
    assert Pow2(12) == 0x1000;
  }

  lemma Pow2Of64()
    ensures Pow2(64) == 0x1_0000_0000_0000_0000
  {
    Pow2Of16();
    assert Pow2(20) == 0x10_0000;
    assert Pow2(24) == 0x100_0000;
    assert Pow2(28) == 0x1000_0000;
    assert Pow2(32) == 0x1_0000_0000;
    assert Pow2(36) == 0x10_0000_0000;
    assert Pow2(40) == 0x100_0000_0000;
    assert Pow2(44) == 0x1000_0000_0000;
    assert Pow2(48) == 0x1_0000_0000_0000;
    assert Pow2(52) == 0x10_0000_0000_0000;
    assert Pow2(56) == 0x100_0000_0000_0000;
    assert Pow2(60) == 0x1000_0000_0000_0000;
  }

  lemma DivPow2(n: nat, m: nat)
    requires m > 0
    ensures n / Pow2(m) == (n / 2) / Pow2(m - 1)
  {
    var p := Pow2(m - 1);
    var q, r := (n / 2) / p, (n / 2) % p;
    assert n / 2 == q * p + r;
    assert n == 2 * p * q + (2 * r + n % 2);
    DivUnique(n, 2 * p, q, 2 * r + n % 2);
  }

  lemma ModPow2(n: nat, m: nat)
    requires m > 0
    ensures n % Pow2(m) == n % 2 + 2 * ((n / 2) % Pow2(m - 1))
  {
    var p := Pow2(m - 1);
    var q, r := (n / 2) / p, (n / 2) % p;
    assert n / 2 == q * p + r;
    assert n == 2 * p * q + (2 * r + n % 2);
    DivUnique(n, 2 * p, q, 2 * r + n % 2);
  }

  /** `n` without its `m` low digits, those `m` digits, and `n` followed by `m` zeros. */
  function Drop(n: nat, m: nat): nat { if m == 0 then n else Drop(n / 2, m - 1) }
  function Keep(n: nat, m: nat): nat { if m == 0 then 0 else n % 2 + 2 * Keep(n / 2, m - 1) }
  function Up(n: nat, m: nat): nat { if m == 0 then n else 2 * Up(n, m - 1) }

  lemma {:induction false} DropIsDiv(n: nat, m: nat)
    ensures Drop(n, m) == n / Pow2(m)
  {
    if m > 0 {
      DivPow2(n, m);
      DropIsDiv(n / 2, m - 1);
    }
  }

  lemma {:induction false} KeepIsMod(n: nat, m: nat)
    ensures Keep(n, m) == n % Pow2(m)
  {
    if m > 0 {
      ModPow2(n, m);
      KeepIsMod(n / 2, m - 1);
    }
  }

  lemma DivUnique(n: nat, d: nat, q: nat, r: nat)
    requires d > 0 && r < d && n == d * q + r
    ensures n / d == q && n % d == r
  {
    var q', r' := n / d, n % d;
    assert d * (q' - q) == r - r' && d * (q - q') == r' - r;
    if q < q' {
      MulGe(d, q' - q);
    } else if q' < q {
      MulGe(d, q - q');
    }
  }

  lemma MulGe(d: nat, k: nat)
    requires k > 0
    ensures d * k >= d
  {
    assert d * k == d * (k - 1) + d;
  }

  // ---- binary digits ----

  predicate Bit(n: nat, k: nat) { Drop(n, k) % 2 == 1 }

  function Or(a: nat, b: nat): nat
    decreases a + b
  {
    if a == 0 && b == 0 then 0 else Max2(a % 2, b % 2) + 2 * Or(a / 2, b / 2)
  }

  function And(a: nat, b: nat): nat
    decreases a + b
  {
    if a == 0 || b == 0 then 0 else (a % 2) * (b % 2) + 2 * And(a / 2, b / 2)
  }

  function Max2(a: nat, b: nat): nat { if a < b then b else a }

  lemma {:induction false} DropZero(k: nat)
    ensures Drop(0, k) == 0
  {
    if k > 0 { DropZero(k - 1); }
  }

  lemma {:induction false} OrBit(a: nat, b: nat, k: nat)
    ensures Bit(Or(a, b), k) <==> Bit(a, k) || Bit(b, k)
    decreases k
  {
    if a == 0 && b == 0 {
      DropZero(k);
    } else if k > 0 {
      OrBit(a / 2, b / 2, k - 1);
    }
  }

  lemma {:induction false} UpBit(n: nat, s: nat, k: nat)
    ensures Bit(Up(n, s), k) <==> k >= s && Bit(n, k - s)
  {
    if s > 0 && k > 0 { UpBit(n, s - 1, k - 1); }
  }

  lemma {:induction false} KeepBit(n: nat, m: nat, k: nat)
    ensures Bit(Keep(n, m), k) <==> k < m && Bit(n, k)
  {
    if m == 0 {
      DropZero(k);
    } else if k > 0 {
      KeepBit(n / 2, m - 1, k - 1);
    }
  }

  lemma {:induction false} OneBit(k: nat)
    ensures Bit(1, k) <==> k == 0
  {
    if k > 0 { DropZero(k - 1); }
  }

  /** `a & (1 << s) != 0` tests digit `s`. */
  lemma {:induction false} AndTestsBit(a: nat, s: nat)
    ensures And(a, Up(1, s)) != 0 <==> Bit(a, s)
  {
    if a == 0 {
      DropZero(s);
    } else if s > 0 {
      AndTestsBit(a / 2, s - 1);
    } else {
      assert And(a / 2, 0) == 0;
    }
  }

  lemma {:induction false} KeepBound(n: nat, m: nat)
    ensures Keep(n, m) < Pow2(m)
  {
    if m > 0 { KeepBound(n / 2, m - 1); }
  }

  lemma {:induction false} OrBound(a: nat, b: nat, m: nat)
    requires a < Pow2(m) && b < Pow2(m)
    ensures Or(a, b) < Pow2(m)
  {
    if m > 0 && (a > 0 || b > 0) { OrBound(a / 2, b / 2, m - 1); }
  }

  lemma {:induction false} UpBound(s: nat, m: nat)
    requires s < m
    ensures 0 < Up(1, s) < Pow2(m)
  {
    if s > 0 { UpBound(s - 1, m - 1); }
  }
}
