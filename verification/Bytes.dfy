/** Bytes and the little-endian integer codec that `BinaryPrimitives` provides. */
module Bytes {
  type byte = x: int | 0 <= x < 0x100
  type ushort = x: int | 0 <= x < 0x1_0000
  type int32 = x: int | -0x8000_0000 <= x < 0x8000_0000
  type int64 = x: int | -0x8000_0000_0000_0000 <= x < 0x8000_0000_0000_0000

  datatype Option<+T> = None | Some(value: T)

  function Pow256(n: nat): (p: int)
    ensures p > 0
  {
    if n == 0 then 1 else 0x100 * Pow256(n - 1)
  }

  /** The `n` low-order base-256 digits of `v`, least significant first. */
  function Le(v: nat, n: nat): (s: seq<byte>)
    ensures |s| == n
  {
    if n == 0 then [] else [v % 0x100] + Le(v / 0x100, n - 1)
  }

  function UnLe(s: seq<byte>): (v: nat)
    ensures v < Pow256(|s|)
  {
    if s == [] then 0 else s[0] + 0x100 * UnLe(s[1..])
  }

  /** Reading back gives the value reduced to the width written. */
  lemma {:induction false} UnLeOfLe(v: nat, n: nat)
    requires v < Pow256(n)
    ensures UnLe(Le(v, n)) == v
  {
    if n > 0 {
      UnLeOfLe(v / 0x100, n - 1);
      assert Le(v, n)[1..] == Le(v / 0x100, n - 1);
    }
  }

  lemma {:induction false} LeOfUnLe(s: seq<byte>)
    ensures Le(UnLe(s), |s|) == s
  {
    if s != [] {
      LeOfUnLe(s[1..]);
      assert UnLe(s) % 0x100 == s[0] && UnLe(s) / 0x100 == UnLe(s[1..]);
    }
  }

  /** The value kept by the low half of a two's complement write. */
  lemma {:induction false} UnLePrefix(v: nat, n: nat, m: nat)
    requires m <= n
    ensures UnLe(Le(v, n)[..m]) == v % Pow256(m)
  {
    if m > 0 {
      UnLePrefix(v / 0x100, n - 1, m - 1);
      var s := Le(v, n);
      assert s[..m][1..] == Le(v / 0x100, n - 1)[..m - 1];
      DivModStep(v, Pow256(m - 1));
    }
  }

  /** The digit at a place, least significant first. */
  lemma {:induction false} LeAt(v: nat, n: nat, k: nat)
    requires k < n
    ensures Le(v, n)[k] == v / Pow256(k) % 0x100
  {
    if k > 0 {
      LeAt(v / 0x100, n - 1, k - 1);
      assert Le(v, n)[k] == Le(v / 0x100, n - 1)[k - 1];
      DivDiv(v, Pow256(k - 1));
    } else {
      assert v / 1 == v;
    }
  }

  lemma {:induction false} DivDiv(v: nat, p: nat)
    requires p > 0
    ensures v / 0x100 / p == v / (0x100 * p)
  {
    var q, r := v / 0x100 / p, v / 0x100 % p;
    var t := 0x100 * r + v % 0x100;
    assert v == 0x100 * (p * q + r) + v % 0x100;
    assert 0x100 * (p * q) == 0x100 * p * q;
    DivUnique(v, 0x100 * p, q, t);
  }

  lemma {:induction false} DivUnique(v: int, m: nat, q: int, r: int)
    requires v == m * q + r && 0 <= r < m
    ensures v / m == q
  {
    ModUnique(v, m, q, r);
    var d := q - v / m;
    assert m * d == 0 by {
      assert m * d == m * q - m * (v / m);
    }
    if d != 0 {
      MulNonzero(m, d);
    }
  }

  lemma {:induction false} MulNonzero(m: nat, d: int)
    requires m > 0 && d != 0
    ensures m * d != 0
  {
    if d > 0 {
      MulAtLeast(m, d);
    } else {
      MulAtLeast(m, -d);
    }
  }

  lemma {:induction false} DivModStep(v: nat, p: nat)
    requires p > 0
    ensures v % (0x100 * p) == v % 0x100 + 0x100 * ((v / 0x100) % p)
  {
    var q, r := v / 0x100, v % 0x100;
    var a, b := q / p, q % p;
    assert v == 0x100 * p * a + (0x100 * b + r) by {
      assert q == p * a + b;
      assert 0x100 * q == 0x100 * (p * a) + 0x100 * b;
      assert 0x100 * (p * a) == 0x100 * p * a;
    }
    ModUnique(v, 0x100 * p, a, 0x100 * b + r);
  }

  lemma {:induction false} MulAtLeast(m: nat, d: nat)
    requires d >= 1
    ensures m * d >= m
  {
  }

  lemma {:induction false} ModUnique(v: int, m: nat, q: int, r: int)
    requires v == m * q + r && 0 <= r < m
    ensures v % m == r
  {
    var d := q - v / m;
    assert m * d == v % m - r by {
      assert m * d == m * q - m * (v / m);
    }
    if d >= 1 {
      MulAtLeast(m, d);
    } else if d <= -1 {
      MulAtLeast(m, -d);
    }
  }

  /** Two's complement in `n` bytes. */
  function Signed(u: nat, n: nat): int
  {
    if 2 * u < Pow256(n) then u else u - Pow256(n)
  }

  function Unsigned(v: int, n: nat): (u: nat)
    requires -Pow256(n) <= 2 * v < Pow256(n)
    ensures u < Pow256(n)
  {
    if v < 0 then v + Pow256(n) else v
  }

  lemma {:induction false} UnsignedIsMod(v: int, n: nat)
    requires -Pow256(n) <= 2 * v < Pow256(n)
    ensures Unsigned(v, n) == v % Pow256(n)
  {
    ModUnique(v, Pow256(n), if v < 0 then -1 else 0, Unsigned(v, n));
  }

  function WriteInt(v: int, n: nat): (s: seq<byte>)
    requires -Pow256(n) <= 2 * v < Pow256(n)
    ensures |s| == n
  {
    Le(Unsigned(v, n), n)
  }

  function ReadInt(s: seq<byte>): int
  {
    Signed(UnLe(s), |s|)
  }

  lemma {:induction false} ReadIntOfWriteInt(v: int, n: nat)
    requires -Pow256(n) <= 2 * v < Pow256(n)
    ensures ReadInt(WriteInt(v, n)) == v
  {
    UnLeOfLe(Unsigned(v, n), n);
  }

  lemma {:induction false} WriteIntOfReadInt(s: seq<byte>)
    ensures -Pow256(|s|) <= 2 * ReadInt(s) < Pow256(|s|)
    ensures WriteInt(ReadInt(s), |s|) == s
  {
    LeOfUnLe(s);
    if s == [] {
      assert Pow256(0) == 1;
    } else {
      var half := 0x80 * Pow256(|s| - 1);
      assert Pow256(|s|) == 2 * half;
    }
    assert Unsigned(ReadInt(s), |s|) == UnLe(s);
  }

  lemma {:induction false} Widths()
    ensures Pow256(2) == 0x1_0000
    ensures Pow256(4) == 0x1_0000_0000
    ensures Pow256(8) == 0x1_0000_0000_0000_0000
  {
    assert Pow256(1) == 0x100;
    assert Pow256(3) == 0x100_0000;
    assert Pow256(5) == 0x100_0000_0000;
    assert Pow256(6) == 0x1_0000_0000_0000;
    assert Pow256(7) == 0x100_0000_0000_0000;
  }
}
