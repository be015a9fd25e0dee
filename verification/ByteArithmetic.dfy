/** Bytes, and the arithmetic of carries and remainders that big-endian numbers need. */
module ByteArithmetic {
  type Byte = bv8
  type Bytes = seq<Byte>

  /** The byte that stands for `n`. */
  function ByteOf(n: nat): Byte
    requires n < 256
  {
    if n == 0 then 0 else ByteOf(n - 1) + 1
  }

  lemma {:induction false} ByteRoundTrip(n: nat)
    requires n < 256
    ensures ByteOf(n) as int == n
  {
    if n == 0 {
    } else {
      ByteRoundTrip(n - 1);
      IncByte(ByteOf(n - 1));
    }
  }

  lemma SameByte(a: Byte, b: Byte)
    requires a as int == b as int
    ensures a == b
  {
  }

  lemma IncByte(b: Byte)
    requires b != 255
    ensures (b + 1) as int == b as int + 1
  {
  }

  lemma XorTwice(a: Byte, b: Byte)
    ensures (a ^ b) ^ b == a
  {
  }

  lemma LastDigit(u: int, x: int, v: int, y: int)
    requires 0 <= x < 256 && 0 <= y < 256 && 256 * u + x == 256 * v + y
    ensures u == v && x == y
  {
  }

  lemma BigMultiple(m: int, x: int)
    requires m > 0 && x != 0
    ensures m * x >= m || m * x <= -m
  {
    if x >= 1 {
      assert m * (x - 1) >= 0;
    } else {
      assert m * (-x - 1) >= 0;
    }
  }

  lemma Remainders(m: int, d: int, r: int, e: int, q: int)
    requires m > 0 && 0 <= r < m && 0 <= q < m && m * d + r == m * e + q
    ensures r == q
  {
    assert m * (d - e) == m * d - m * e;
    if d != e {
      BigMultiple(m, d - e);
    }
  }

  lemma DivModUnique(n: int, m: int, d: int, r: int)
    requires m > 0 && 0 <= r < m && n == m * d + r
    ensures n % m == r
  {
    Remainders(m, d, r, n / m, n % m);
  }

  lemma ModStep(n: nat, p: nat)
    requires p > 0
    ensures n % (256 * p) == 256 * (n / 256 % p) + n % 256
  {
    var q := n / 256;
    assert n == 256 * q + n % 256;
    var d := q / p;
    assert q == p * d + q % p;
    assert n == (256 * p) * d + (256 * (q % p) + n % 256) by {
      assert 256 * (p * d) == (256 * p) * d;
    }
    DivModUnique(n, 256 * p, d, 256 * (q % p) + n % 256);
  }

  lemma ShiftByte(x: nat, p: nat, y: nat, z: nat)
    ensures 256 * (x * p + y) + z == x * (256 * p) + (256 * y + z)
  {
  }

  lemma CarryMod(h: nat, p: nat)
    requires p > 0
    ensures (256 * h + 255 + 1) % (256 * p) == 256 * ((h + 1) % p)
  {
    ModStep(256 * (h + 1), p);
  }

  lemma AddOneMod(n: nat, p: nat)
    requires p > 0
    ensures (n % p + 1) % p == (n + 1) % p
  {
    var d, r := n / p, n % p;
    assert n == p * d + r;
    if r + 1 < p {
      DivModUnique(n + 1, p, d, r + 1);
      DivModUnique(r + 1, p, 0, r + 1);
    } else {
      assert n + 1 == p * (d + 1) + 0;
      DivModUnique(n + 1, p, d + 1, 0);
      DivModUnique(r + 1, p, 1, 0);
    }
  }
}
