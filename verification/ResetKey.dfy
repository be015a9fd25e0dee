/** The reset key and the frame that carries it (infra/reset/truen_reset_service.py:355-376, 424-430). */
module ResetKey {
  import opened ByteArithmetic
  import opened Ctr

  const TWO_TO_24: nat := 0x100_0000
  const TWO_TO_32: nat := 0x1_0000_0000
  const MULTIPLIER: nat := 214013
  const INCREMENT: nat := 2531011

  const SEED_SIZE := 32
  const MAC_SIZE := 6
  const KEPT := 26
  const MARK: Byte := 0xFE
  const MASK: Byte := 0x5A

  /** "34 52 34 87 04 05" */
  const WRITE_HEADER: Bytes := [0x34, 0x52, 0x34, 0x87, 0x04, 0x05]

  // ----- The pseudo-random bytes --------------------------------------------------------------------

  function Next(state: nat): nat {
    (state * MULTIPLIER + INCREMENT) % TWO_TO_32
  }

  /** The generator's state after `i` steps. */
  function StateAfter(seed: int, i: nat): nat {
    if i == 0 then seed % TWO_TO_32 else Next(StateAfter(seed, i - 1))
  }

  /** Bits 16 to 23 of a state. */
  function OutputByte(state: nat): Byte {
    ByteOf(state / 0x1_0000 % 0x8000 % 0x100)
  }

  function RandByte(seed: int, i: nat): Byte {
    OutputByte(StateAfter(seed, i + 1))
  }

  /** The states of the Microsoft C generator: the seed, and then 214013 times the last one plus 2531011, in 32 bits. */
  ghost predicate GeneratorStates(seed: int, states: seq<nat>) {
    && states != [] && states[0] == seed % 0x1_0000_0000
    && forall i :: 0 < i < |states| ==> states[i] == (states[i - 1] * 214013 + 2531011) % 0x1_0000_0000
  }

  /** The bytes are bits 16 to 23 of the states after the first. */
  ghost predicate BytesOfStates(states: seq<nat>, out: Bytes) {
    |states| == |out| + 1 && forall i :: 0 <= i < |out| ==> out[i] as int == states[i + 1] / 65536 % 256
  }

  /** `msvcrt_rand_bytes`; `states` are the states that the generator goes through. */
  method RandBytes(seedTime: int, n: nat) returns (out: Bytes, ghost states: seq<nat>)
    ensures |out| == n && GeneratorStates(seedTime, states) && BytesOfStates(states, out)
    ensures forall i :: 0 <= i < n ==> out[i] == RandByte(seedTime, i)
  {
    hide OutputByte, ByteOf;
    var state := seedTime % TWO_TO_32;
    out, states := [], [state];
    for i := 0 to n
      invariant |states| == i + 1 && state == StateAfter(seedTime, i) == states[i]
      invariant |out| == i && GeneratorStates(seedTime, states) && BytesOfStates(states, out)
      invariant forall k :: 0 <= k < i ==> out[k] == RandByte(seedTime, k)
    {
      state := (state * MULTIPLIER + INCREMENT) % TWO_TO_32;
      assert state == StateAfter(seedTime, i + 1);
      OutputBits(state);
      out, states := out + [OutputByte(state)], states + [state];
    }
  }

  lemma OutputBits(state: nat)
    ensures OutputByte(state) as int == state / 65536 % 256
  {
    LowByte(state / 0x1_0000);
    ByteRoundTrip(state / 0x1_0000 % 0x8000 % 0x100);
  }

  lemma StatesOfSeedOne(states: seq<nat>)
    requires GeneratorStates(1, states) && |states| == 6
    ensures states == [1, 2745024, 3357800067, 415139642, 3884216597, 3403800452]
  {
    assert (1 * 214013 + 2531011) % 0x1_0000_0000 == 2745024;
    assert (2745024 * 214013 + 2531011) % 0x1_0000_0000 == 3357800067;
    assert (3357800067 * 214013 + 2531011) % 0x1_0000_0000 == 415139642;
    assert (415139642 * 214013 + 2531011) % 0x1_0000_0000 == 3884216597;
    assert (3884216597 * 214013 + 2531011) % 0x1_0000_0000 == 3403800452;
    hide GeneratorStates;
    FirstState(1, states);
    NextState(1, states, 1, 2745024);
    NextState(1, states, 2, 3357800067);
    NextState(1, states, 3, 415139642);
    NextState(1, states, 4, 3884216597);
    NextState(1, states, 5, 3403800452);
  }

  lemma FirstState(seed: int, states: seq<nat>)
    requires GeneratorStates(seed, states)
    ensures states != [] && states[0] == seed % 0x1_0000_0000
  {
  }

  lemma NextState(seed: int, states: seq<nat>, i: nat, next: nat)
    requires GeneratorStates(seed, states) && 0 < i < |states|
    requires next == (states[i - 1] * 214013 + 2531011) % 0x1_0000_0000
    ensures states[i] == next
  {
  }

  /** For the seed 1 the generator gives these bytes. */
  lemma BytesOfSeedOne(states: seq<nat>, out: Bytes)
    requires GeneratorStates(1, states) && BytesOfStates(states, out) && |out| == 5
    ensures out == [41, 35, 190, 132, 225]
  {
    StatesOfSeedOne(states);
    assert out[0] as int == 41 && out[1] as int == 35 && out[2] as int == 190;
    assert out[3] as int == 132 && out[4] as int == 225;
    SameByte(out[0], 41);
    SameByte(out[1], 35);
    SameByte(out[2], 190);
    SameByte(out[3], 132);
    SameByte(out[4], 225);
  }

  lemma NextLow(a: nat, b: nat)
    requires a % TWO_TO_24 == b % TWO_TO_24
    ensures Next(a) % TWO_TO_24 == Next(b) % TWO_TO_24
  {
    var x, y, r := a / TWO_TO_24, b / TWO_TO_24, a % TWO_TO_24;
    assert a == TWO_TO_24 * x + r && b == TWO_TO_24 * y + r;
    var m, n := a * MULTIPLIER + INCREMENT, b * MULTIPLIER + INCREMENT;
    assert m - n == TWO_TO_24 * ((x - y) * MULTIPLIER);
    assert m % TWO_TO_32 == m - TWO_TO_32 * (m / TWO_TO_32);
    assert n % TWO_TO_32 == n - TWO_TO_32 * (n / TWO_TO_32);
    assert Next(a) - Next(b) == TWO_TO_24 * ((x - y) * MULTIPLIER - 256 * (m / TWO_TO_32) + 256 * (n / TWO_TO_32));
  }

  lemma OutputLow(a: nat, b: nat)
    requires a % TWO_TO_24 == b % TWO_TO_24
    ensures OutputByte(a) == OutputByte(b)
  {
    OutputIsLow(a);
    OutputIsLow(b);
  }

  lemma OutputIsLow(a: nat)
    ensures a / 0x1_0000 % 0x8000 % 0x100 == a % TWO_TO_24 / 0x1_0000
  {
    var q, r := a / TWO_TO_24, a % TWO_TO_24;
    var u := r / 0x1_0000;
    assert a == 0x1_0000 * (0x100 * q + u) + r % 0x1_0000;
    assert a / 0x1_0000 == 0x100 * q + u;
    LowByte(0x100 * q + u);
    DivModUnique(0x100 * q + u, 0x100, q, u);
  }

  lemma LowByte(n: nat)
    ensures n % 0x8000 % 0x100 == n % 0x100
  {
    var d, r := n / 0x8000, n % 0x8000;
    DivModUnique(n, 0x100, 0x80 * d + r / 0x100, r % 0x100);
  }

  lemma SeedLow(a: int)
    ensures a % TWO_TO_32 % TWO_TO_24 == a % TWO_TO_24
  {
    var q, r := a / TWO_TO_32, a % TWO_TO_32;
    DivModUnique(a, TWO_TO_24, 256 * q + r / TWO_TO_24, r % TWO_TO_24);
  }

  lemma {:induction false} StateLow(a: int, b: int, i: nat)
    requires a % TWO_TO_24 == b % TWO_TO_24
    ensures StateAfter(a, i) % TWO_TO_24 == StateAfter(b, i) % TWO_TO_24
  {
    hide Next;
    if i == 0 {
      SeedLow(a);
      SeedLow(b);
    } else {
      StateLow(a, b, i - 1);
      NextLow(StateAfter(a, i - 1), StateAfter(b, i - 1));
    }
  }

  /** The bytes depend on the seed modulo 2 to the 24th only. */
  lemma SameBytesModulo24(a: int, b: int, i: nat)
    requires a % TWO_TO_24 == b % TWO_TO_24
    ensures RandByte(a, i) == RandByte(b, i)
  {
    hide OutputByte, StateAfter;
    StateLow(a, b, i + 1);
    OutputLow(StateAfter(a, i + 1), StateAfter(b, i + 1));
  }

  // ----- The key ------------------------------------------------------------------------------------

  /** What the reset key carries: the kept bytes of the device's seed, a mark, and five generated bytes. */
  function Payload(seed1: Bytes, seedTime: int): (p: Bytes)
    requires |seed1| == SEED_SIZE
    ensures |p| == SEED_SIZE
  {
    seed1[..KEPT] + [MARK] + seq(5, i requires 0 <= i < 5 => RandByte(seedTime, i))
  }

  function Masked(data: Bytes): (m: Bytes)
    ensures |m| == |data|
  {
    seq(|data|, i requires 0 <= i < |data| => data[i] ^ MASK)
  }

  /** What the key must carry for the states of the generator: 26 bytes of the seed, 0xFE, and five bytes. */
  ghost predicate CarriesKey(seed1: Bytes, states: seq<nat>, p: Bytes) {
    && |seed1| == |p| == 32 && |states| == 6 && p[..26] == seed1[..26] && p[26] == 0xFE
    && forall i :: 27 <= i < 32 ==> p[i] as int == states[i - 26] / 65536 % 256
  }

  lemma PayloadCarries(seed1: Bytes, seedTime: int, states: seq<nat>, rand: Bytes)
    requires |seed1| == SEED_SIZE && BytesOfStates(states, rand) && |rand| == 5
    requires forall i :: 0 <= i < 5 ==> rand[i] == RandByte(seedTime, i)
    ensures CarriesKey(seed1, states, Payload(seed1, seedTime))
  {
    hide RandByte;
    forall i | 27 <= i < 32 ensures Payload(seed1, seedTime)[i] as int == states[i - 26] / 65536 % 256 {
      assert Payload(seed1, seedTime)[i] == rand[i - 27];
    }
  }

  /** `seed_postprocess`: what the key carries, every byte xored with 0x5A. */
  method SeedPostprocess(seed1: Bytes, seedTime: int) returns (seed2: Bytes, ghost states: seq<nat>)
    requires |seed1| == SEED_SIZE
    ensures seed2 == Masked(Payload(seed1, seedTime))
    ensures GeneratorStates(seedTime, states) && CarriesKey(seed1, states, Payload(seed1, seedTime))
    ensures |seed2| == 32 && forall i :: 0 <= i < 32 ==> seed2[i] == Payload(seed1, seedTime)[i] ^ 0x5A
  {
    hide RandByte, GeneratorStates, BytesOfStates, CarriesKey;
    var b := new Byte[32](i requires 0 <= i < 32 => seed1[i]);
    b[0x1A] := 0xFE;
    var rand;
    rand, states := RandBytes(seedTime, 5);
    PayloadCarries(seed1, seedTime, states, rand);
    for i := 0 to 5
      invariant forall k :: 0 <= k < 26 ==> b[k] == seed1[k]
      invariant b[26] == 0xFE
      invariant forall k :: 0 <= k < i ==> b[0x1B + k] == rand[k]
    {
      b[0x1B + i] := rand[i];
    }
    ghost var plain := b[..];
    assert plain == Payload(seed1, seedTime) by {
      forall k | 0 <= k < 32 ensures plain[k] == Payload(seed1, seedTime)[k] {
        if k > 26 {
          assert b[0x1B + (k - 27)] == rand[k - 27];
        }
      }
    }
    for i := 0 to 32
      invariant forall k :: 0 <= k < i ==> b[k] == plain[k] ^ MASK
      invariant forall k :: i <= k < 32 ==> b[k] == plain[k]
    {
      b[i] := b[i] ^ 0x5A;
    }
    seed2 := b[..];
  }

  /** `resetkey_from_seed1` */
  method ResetKeyFromSeed1(cipher: Cipher, seed1: Bytes, seedTime: int)
    returns (key: Bytes, ghost states: seq<nat>)
    requires |seed1| == SEED_SIZE
    ensures key == Crypt(cipher, Masked(Payload(seed1, seedTime)))
    ensures GeneratorStates(seedTime, states) && CarriesKey(seed1, states, Payload(seed1, seedTime))
  {
    var seed2;
    seed2, states := SeedPostprocess(seed1, seedTime);
    key := XCrypt(cipher, seed2);
  }

  // ----- The write frame ----------------------------------------------------------------------------

  /** `build_write_req64` */
  method BuildWriteReq64(mac6: Bytes, resetBin: Bytes) returns (frame: Bytes)
    requires |mac6| == MAC_SIZE && |resetBin| >= SEED_SIZE
    ensures |frame| == 64 && frame[..6] == [0x34, 0x52, 0x34, 0x87, 0x04, 0x05]
    ensures forall i :: 6 <= i < 20 || 30 <= i < 32 ==> frame[i] == 0
    ensures frame[20..24] == [0x28, 0, 0, 0]
    ensures frame[24..30] == mac6 && frame[32..] == resetBin[..32]
  {
    var b := new Byte[64](i requires 0 <= i < 64 => if i < 6 then WRITE_HEADER[i] else 0);
    b[0x14] := 0x28;
    for i := 0 to 6
      invariant forall k :: 0 <= k < i ==> b[0x18 + k] == mac6[k]
      invariant forall k :: 0 <= k < 24 ==> b[k] == if k < 6 then WRITE_HEADER[k] else if k == 20 then 0x28 else 0
      invariant forall k :: 30 <= k < 64 ==> b[k] == 0
    {
      b[0x18 + i] := mac6[i];
    }
    for i := 0 to 32
      invariant forall k :: 0 <= k < i ==> b[0x20 + k] == resetBin[k]
      invariant forall k :: 0 <= k < 6 ==> b[0x18 + k] == mac6[k]
      invariant forall k :: 0 <= k < 24 ==> b[k] == if k < 6 then WRITE_HEADER[k] else if k == 20 then 0x28 else 0
      invariant forall k :: 30 <= k < 32 ==> b[k] == 0
    {
      b[0x20 + i] := resetBin[i];
    }
    frame := b[..];
    assert frame[32..] == resetBin[..32] by {
      forall k | 0 <= k < 32 ensures frame[32..][k] == resetBin[..32][k] {
        assert b[0x20 + k] == resetBin[k];
      }
    }
    assert frame[24..30] == mac6 by {
      forall k | 0 <= k < 6 ensures frame[24..30][k] == mac6[k] {
        assert b[0x18 + k] == mac6[k];
      }
    }
  }

  /**
   * The reset-key round trip: decrypting the key field of a frame and lifting the mask gives back the seed's
   * kept bytes, the mark and the generated bytes, whatever the cipher.
   */
  lemma KeyFieldRoundTrip(cipher: Cipher, seed1: Bytes, seedTime: int, frame: Bytes)
    requires |seed1| == SEED_SIZE && |frame| == 64
    requires frame[32..] == Crypt(cipher, Masked(Payload(seed1, seedTime)))[..32]
    ensures Masked(Crypt(cipher, frame[32..])) == Payload(seed1, seedTime)
    ensures Masked(Crypt(cipher, frame[32..]))[..KEPT] == seed1[..KEPT]
  {
    hide Crypt, Payload;
    var p := Payload(seed1, seedTime);
    assert Crypt(cipher, Masked(p))[..32] == Crypt(cipher, Masked(p));
    CryptIsInvolution(cipher, Masked(p));
    forall i | 0 <= i < |p| ensures Masked(Masked(p))[i] == p[i] {
      XorTwice(p[i], MASK);
    }
    assert Masked(Masked(p)) == p;
    PayloadKeeps(seed1, seedTime);
  }

  lemma PayloadKeeps(seed1: Bytes, seedTime: int)
    requires |seed1| == SEED_SIZE
    ensures Payload(seed1, seedTime)[..KEPT] == seed1[..KEPT]
  {
    hide RandByte;
  }

  /**
   * One round of the sweep: the frame for a seed time, and what the device reads from it when it decrypts the key
   * and xors every byte with 0x5A.
   */
  method WriteRequest(cipher: Cipher, mac6: Bytes, seed1: Bytes, seedTime: int)
    returns (frame: Bytes, ghost states: seq<nat>)
    requires |mac6| == MAC_SIZE && |seed1| == SEED_SIZE
    ensures |frame| == 64 && frame[..6] == [0x34, 0x52, 0x34, 0x87, 0x04, 0x05] && frame[24..30] == mac6
    ensures GeneratorStates(seedTime, states)
    ensures var key := Crypt(cipher, frame[32..]);
            |key| == 32 && CarriesKey(seed1, states, seq(32, i requires 0 <= i < 32 => key[i] ^ 0x5A))
  {
    hide Crypt, Payload, GeneratorStates, CarriesKey;
    var key;
    key, states := ResetKeyFromSeed1(cipher, seed1, seedTime);
    frame := BuildWriteReq64(mac6, key);
    ghost var lifted := Crypt(cipher, frame[32..]);
    assert Masked(lifted) == seq(32, i requires 0 <= i < 32 => lifted[i] ^ 0x5A);
    KeyFieldRoundTrip(cipher, seed1, seedTime, frame);
  }
}
