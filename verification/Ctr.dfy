/**
 * Counter mode over a 16-byte block cipher (infra/reset/truen_reset_service.py:336-352), as in section 6.5 of
 * NIST SP 800-38A. The block cipher itself is a parameter.
 */
module Ctr {
  import opened ByteArithmetic

  type Block = b: Bytes | |b| == 16 witness seq(16, _ => 0)
  type Cipher = Block -> Block

  const BLOCK_SIZE := 16

  /** "fprintf(" */
  const NONCE: Bytes := [0x66, 0x70, 0x72, 0x69, 0x6e, 0x74, 0x66, 0x28]

  const TWO_TO_64: nat := 0x1_0000_0000_0000_0000

  // ----- Big-endian numbers -------------------------------------------------------------------------

  function Pow256(k: nat): (r: nat)
    ensures r > 0
  {
    if k == 0 then 1 else 256 * Pow256(k - 1)
  }

  /** The number a byte string stands for, most significant byte first. */
  function Value(s: Bytes): nat {
    if s == [] then 0 else 256 * Value(s[..|s| - 1]) + s[|s| - 1] as int
  }

  /** The last `len` bytes of `n`. */
  function BigEndian(n: nat, len: nat): (s: Bytes)
    ensures |s| == len
  {
    if len == 0 then [] else BigEndian(n / 256, len - 1) + [ByteOf(n % 256)]
  }

  /** The value of a byte string fits its length. */
  lemma {:induction false} ValueFits(s: Bytes)
    ensures Value(s) < Pow256(|s|)
  {
    if s == [] {
    } else {
      ValueFits(s[..|s| - 1]);
    }
  }

  /** Two byte strings of one length that stand for the same number are the same. */
  lemma {:induction false} ValueDecides(a: Bytes, b: Bytes)
    requires |a| == |b| && Value(a) == Value(b)
    ensures a == b
  {
    if a == [] {
    } else {
      var m := |a| - 1;
      LastDigit(Value(a[..m]), a[m] as int, Value(b[..m]), b[m] as int);
      ValueDecides(a[..m], b[..m]);
      SameByte(a[m], b[m]);
      assert a == a[..m] + [a[m]] && b == b[..m] + [b[m]];
    }
  }

  /** `BigEndian` keeps a number modulo 256 to the length. */
  lemma {:induction false} BigEndianValue(n: nat, len: nat)
    ensures Value(BigEndian(n, len)) == n % Pow256(len)
  {
    if len == 0 {
    } else {
      BigEndianValue(n / 256, len - 1);
      ByteRoundTrip(n % 256);
      ModStep(n, Pow256(len - 1));
      var s := BigEndian(n, len);
      assert s[..|s| - 1] == BigEndian(n / 256, len - 1);
    }
  }

  lemma {:induction false} ValueConcat(a: Bytes, b: Bytes)
    ensures Value(a + b) == Value(a) * Pow256(|b|) + Value(b)
  {
    if b == [] {
      assert a + b == a;
    } else {
      var m := |b| - 1;
      ValueConcat(a, b[..m]);
      assert (a + b)[..|a + b| - 1] == a + b[..m];
      assert Value(a + b) == 256 * Value(a + b[..m]) + b[m] as int;
      ShiftByte(Value(a), Pow256(m), Value(b[..m]), b[m] as int);
    }
  }

  lemma Pow256At8()
    ensures Pow256(8) == TWO_TO_64 && Pow256(16) == TWO_TO_64 * TWO_TO_64
  {
    assert Pow256(4) == 0x1_0000_0000;
    assert Pow256(8) == TWO_TO_64;
    assert Pow256(12) == 0x1_0000_0000 * TWO_TO_64;
  }

  // ----- The counter --------------------------------------------------------------------------------

  /** One more, with carry from the last byte on, and wrap-around. */
  function Inc(s: Bytes): (r: Bytes)
    ensures |r| == |s|
  {
    if s == [] then []
    else if s[|s| - 1] == 255 then Inc(s[..|s| - 1]) + [0]
    else s[..|s| - 1] + [s[|s| - 1] + 1]
  }

  /** Each counter step adds one to the big-endian number, modulo 256 to its length. */
  lemma {:induction false} IncAddsOne(s: Bytes)
    ensures Value(Inc(s)) == (Value(s) + 1) % Pow256(|s|)
  {
    hide Inc;
    if s == [] {
      IncNothing();
    } else if s[|s| - 1] == 255 {
      IncAddsOne(s[..|s| - 1]);
      IncCarries(s);
    } else {
      IncLast(s);
    }
  }

  lemma IncNothing()
    ensures Value(Inc([])) == 0 && Pow256(0) == 1
  {
  }

  lemma IncCarries(s: Bytes)
    requires s != [] && s[|s| - 1] == 255
    requires var high := s[..|s| - 1]; Value(Inc(high)) == (Value(high) + 1) % Pow256(|high|)
    ensures Value(Inc(s)) == (Value(s) + 1) % Pow256(|s|)
  {
    var high := s[..|s| - 1];
    assert Inc(s)[..|s| - 1] == Inc(high);
    CarryMod(Value(high), Pow256(|high|));
  }

  lemma IncLast(s: Bytes)
    requires s != [] && s[|s| - 1] != 255
    ensures Value(Inc(s)) == (Value(s) + 1) % Pow256(|s|)
  {
    hide Value, Inc, Pow256;
    var m := |s| - 1;
    IncLastDigit(s);
    PowNext(m);
    ValueFits(s[..m]);
    SmallRest(Value(s[..m]), s[m] as int, Pow256(m));
  }

  lemma IncLastDigit(s: Bytes)
    requires s != [] && s[|s| - 1] != 255
    ensures var m := |s| - 1;
            Value(Inc(s)) == Value(s) + 1 && Value(s) == 256 * Value(s[..m]) + s[m] as int && s[m] as int < 255
  {
    var m := |s| - 1;
    assert Inc(s)[..m] == s[..m];
    IncByte(s[m]);
  }

  lemma PowNext(m: nat)
    ensures Pow256(m + 1) == 256 * Pow256(m)
  {
  }

  lemma SmallRest(h: nat, b: nat, p: nat)
    requires h < p && b < 255
    ensures 256 * h + b + 1 == (256 * h + b + 1) % (256 * p)
  {
    DivModUnique(256 * h + b + 1, 256 * p, 0, 256 * h + b + 1);
  }

  lemma {:induction false} IncAt(s: Bytes, t: Bytes, i: nat)
    requires i < |s| == |t| && t[..i] == s[..i] && t[i] == s[i] + 1
    requires forall k :: i < k < |s| ==> s[k] == 255 && t[k] == 0
    requires s[i] != 255
    ensures t == Inc(s)
  {
    var m := |s| - 1;
    if i == m {
      assert t == s[..m] + [s[m] + 1];
    } else {
      IncAt(s[..m], t[..m], i);
      assert t == t[..m] + [0];
    }
  }

  lemma {:induction false} IncWraps(s: Bytes, t: Bytes)
    requires |s| == |t| && forall k :: 0 <= k < |s| ==> s[k] == 255 && t[k] == 0
    ensures t == Inc(s)
  {
    if s == [] {
    } else {
      var m := |s| - 1;
      IncWraps(s[..m], t[..m]);
      assert t == t[..m] + [0];
    }
  }

  /** `_inc_counter_be_16` */
  method IncCounter(counter: array<Byte>)
    requires counter.Length == BLOCK_SIZE
    modifies counter
    ensures counter[..] == Inc(old(counter[..]))
  {
    ghost var was := counter[..];
    var i := 15;
    while i >= 0
      invariant -1 <= i <= 15
      invariant counter[..i + 1] == was[..i + 1]
      invariant forall k :: i < k < 16 ==> was[k] == 255 && counter[k] == 0
    {
      assert counter[i] == was[i] by {
        assert counter[..i + 1][i] == was[..i + 1][i];
      }
      counter[i] := counter[i] + 1;
      assert counter[..i] == was[..i] by {
        assert forall k :: 0 <= k < i ==> counter[k] == was[..i + 1][k];
      }
      if counter[i] != 0 {
        IncAt(was, counter[..], i);
        return;
      }
      i := i - 1;
    }
    IncWraps(was, counter[..]);
  }

  // ----- The mode -----------------------------------------------------------------------------------

  /** The `j`-th counter block: the nonce times two to the 64th, plus `j`, modulo two to the 128th. */
  function CounterBlock(j: nat): Block {
    BigEndian(Value(NONCE) * TWO_TO_64 + j, BLOCK_SIZE)
  }

  /** That is the nonce followed by the block number, in any message of up to two to the 68th bytes. */
  lemma CounterIsNonceAndIndex(j: nat)
    requires j < TWO_TO_64
    ensures CounterBlock(j) == NONCE + BigEndian(j, 8)
  {
    hide Value, Pow256, BigEndian;
    var b := NONCE + BigEndian(j, 8);
    Pow256At8();
    ValueConcat(NONCE, BigEndian(j, 8));
    BigEndianValue(j, 8);
    BigEndianValue(Value(NONCE) * TWO_TO_64 + j, BLOCK_SIZE);
    ValueFits(b);
    ValueDecides(b, CounterBlock(j));
  }

  lemma CounterStep(j: nat)
    ensures Inc(CounterBlock(j)) == CounterBlock(j + 1)
  {
    hide Pow256, BigEndian, Value, Inc;
    var n := Value(NONCE) * TWO_TO_64 + j;
    var p := Pow256(BLOCK_SIZE);
    BigEndianValue(n, BLOCK_SIZE);
    BigEndianValue(n + 1, BLOCK_SIZE);
    IncAddsOne(CounterBlock(j));
    assert (n % p + 1) % p == (n + 1) % p by {
      AddOneMod(n, p);
    }
    ValueDecides(Inc(CounterBlock(j)), CounterBlock(j + 1));
  }

  /** Byte `k` of the key stream. */
  function KeyByte(cipher: Cipher, k: nat): Byte {
    cipher(CounterBlock(k / BLOCK_SIZE))[k % BLOCK_SIZE]
  }

  lemma KeyByteAt(cipher: Cipher, j: nat, i: nat)
    requires i < BLOCK_SIZE
    ensures KeyByte(cipher, BLOCK_SIZE * j + i) == cipher(CounterBlock(j))[i]
  {
    hide CounterBlock;
  }

  /** Counter mode: every byte is combined with its byte of the key stream. */
  function Crypt(cipher: Cipher, data: Bytes): (out: Bytes)
    ensures |out| == |data|
  {
    seq(|data|, k requires 0 <= k < |data| => data[k] ^ KeyByte(cipher, k))
  }

  /** Byte `k` is combined with byte `k % 16` of the encrypted nonce and number of its block. */
  lemma CryptAt(cipher: Cipher, data: Bytes, k: nat)
    requires k < |data| && k / 16 < 0x1_0000_0000_0000_0000
    ensures var counter: Block := [0x66, 0x70, 0x72, 0x69, 0x6e, 0x74, 0x66, 0x28] + BigEndian(k / 16, 8);
            Crypt(cipher, data)[k] == data[k] ^ cipher(counter)[k % 16]
  {
    hide CounterBlock, BigEndian;
    CounterIsNonceAndIndex(k / 16);
  }

  /** For any length, the transform is its own inverse. */
  lemma CryptIsInvolution(cipher: Cipher, data: Bytes)
    ensures Crypt(cipher, Crypt(cipher, data)) == data
  {
    hide KeyByte;
    var out := Crypt(cipher, data);
    forall k | 0 <= k < |data| ensures Crypt(cipher, out)[k] == data[k] {
      XorTwice(data[k], KeyByte(cipher, k));
    }
  }

  /** It commutes with taking prefixes, so a prefix can be decrypted on its own. */
  lemma CryptOfPrefix(cipher: Cipher, data: Bytes, n: nat)
    requires n <= |data|
    ensures Crypt(cipher, data[..n]) == Crypt(cipher, data)[..n]
  {
    hide KeyByte;
  }

  lemma FirstCounter()
    ensures NONCE + seq(8, _ => 0) == CounterBlock(0)
  {
    CounterIsNonceAndIndex(0);
    var z: Bytes := seq(8, _ => 0);
    BigEndianValue(0, 8);
    ZeroValue(8);
    ValueDecides(z, BigEndian(0, 8));
  }

  lemma {:induction false} ZeroValue(n: nat)
    ensures Value(seq(n, _ => 0)) == 0
  {
    if n == 0 {
    } else {
      var z: Bytes := seq(n, _ => 0);
      assert z[..n - 1] == seq(n - 1, _ => 0);
      ZeroValue(n - 1);
    }
  }

  /** `aes_ctr_xcrypt` */
  method XCrypt(cipher: Cipher, data: Bytes) returns (result: Bytes)
    ensures result == Crypt(cipher, data)
  {
    hide CounterBlock, Inc, KeyByte;
    FirstCounter();
    ghost var start: Bytes := NONCE + seq(8, _ => 0);
    var counter := new Byte[16](i requires 0 <= i < 16 => if i < 8 then NONCE[i] else 0);
    assert counter[..] == start;
    var out := new Byte[|data|];
    ghost var j := 0;
    var off := 0;
    while off < |data|
      invariant off == 16 * j && counter[..] == CounterBlock(j)
      invariant forall k :: 0 <= k < off && k < |data| ==> out[k] == data[k] ^ KeyByte(cipher, k)
    {
      var ks := cipher(counter[..]);
      var blk := if off + 16 <= |data| then data[off..off + 16] else data[off..];
      for i := 0 to |blk|
        invariant counter[..] == CounterBlock(j)
        invariant forall k :: 0 <= k < off + i ==> out[k] == data[k] ^ KeyByte(cipher, k)
      {
        KeyByteAt(cipher, j, i);
        out[off + i] := blk[i] ^ ks[i];
      }
      IncCounter(counter);
      CounterStep(j);
      off, j := off + 16, j + 1;
    }
    result := out[..];
  }
}
