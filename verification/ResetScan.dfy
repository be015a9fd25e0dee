/** Which packets a scan accepts (infra/reset/truen_reset_service.py:383-408, 563-590, 650-690, 754-806). */
module ResetScan {
  import opened ByteArithmetic
  import opened Ctr
  import opened ResetKey
  import opened Tasks

  const WINDOW := 32

  /** "23 68 54 10" */
  const RESPONSE: Bytes := [0x23, 0x68, 0x54, 0x10]

  /** The window at `off` decrypts to something that begins with the MAC. */
  predicate Hit(cipher: Cipher, pkt: Bytes, mac: Bytes, off: int) {
    && 0 <= off && off + WINDOW <= |pkt| && |mac| == MAC_SIZE
    && Crypt(cipher, pkt[off..off + WINDOW])[..MAC_SIZE] == mac
  }

  /** The packet holds the MAC, combined with the start of the key stream, at `off`, and 32 bytes from there on. */
  predicate MaskedMac(cipher: Cipher, pkt: Bytes, mac: Bytes, off: int) {
    0 <= off && off + 32 <= |pkt| && pkt[off..off + 6] == Crypt(cipher, mac)
  }

  /** The two are the same, so a scan need not decrypt whole windows. */
  lemma HitIffMasked(cipher: Cipher, pkt: Bytes, mac: Bytes, off: int)
    requires |mac| == 6
    ensures Hit(cipher, pkt, mac, off) <==> MaskedMac(cipher, pkt, mac, off)
  {
    hide Crypt;
    if 0 <= off && off + WINDOW <= |pkt| {
      var w := pkt[off..off + WINDOW];
      CryptOfPrefix(cipher, w, MAC_SIZE);
      assert w[..MAC_SIZE] == pkt[off..off + MAC_SIZE];
      CryptIsInvolution(cipher, pkt[off..off + MAC_SIZE]);
      CryptIsInvolution(cipher, mac);
    }
  }

  function Stride(step: int): (s: nat)
    ensures s >= 1 && (step >= 1 ==> s == step)
  {
    if step < 1 then 1 else step
  }

  /** The first hit at or after `from`, going up in strides. */
  function FirstHit(cipher: Cipher, pkt: Bytes, mac: Bytes, from: nat, step: int): Option<nat>
    decreases |pkt| - from
  {
    if from + WINDOW > |pkt| then None
    else if Hit(cipher, pkt, mac, from) then Some(from)
    else FirstHit(cipher, pkt, mac, from + Stride(step), step)
  }

  /** `brute_find_devkey_in_pkt` */
  method BruteFind(cipher: Cipher, pkt: Bytes, mac: Bytes, step: int) returns (off: Option<nat>)
    requires |mac| == MAC_SIZE
    ensures off == FirstHit(cipher, pkt, mac, 0, step)
  {
    hide Crypt;
    var n := |pkt|;
    if n < WINDOW {
      return None;
    }
    var stride := Stride(step);
    var at := 0;
    while at < n - WINDOW + 1
      invariant FirstHit(cipher, pkt, mac, 0, step) == FirstHit(cipher, pkt, mac, at, step)
      decreases n - at
    {
      var seed1 := XCrypt(cipher, pkt[at..at + WINDOW]);
      if seed1[..MAC_SIZE] == mac {
        return Some(at);
      }
      at := at + stride;
    }
    off := None;
  }

  /** It is the least hit among the multiples of the stride, and there is one whenever any of them hits. */
  lemma {:induction false} FirstHitIsLeast(cipher: Cipher, pkt: Bytes, mac: Bytes, i: nat, step: int)
    ensures match FirstHit(cipher, pkt, mac, i * Stride(step), step)
            case Some(off) =>
              && Hit(cipher, pkt, mac, off)
              && (exists k: nat :: k >= i && off == k * Stride(step))
              && forall k: nat :: i <= k && k * Stride(step) < off ==> !Hit(cipher, pkt, mac, k * Stride(step))
            case None =>
              forall k: nat :: i <= k ==> !Hit(cipher, pkt, mac, k * Stride(step))
    decreases |pkt| - i * Stride(step)
  {
    hide Crypt;
    var s := Stride(step);
    var from := i * s;
    if from + WINDOW > |pkt| {
      forall k: nat | i <= k ensures !Hit(cipher, pkt, mac, k * s) {
        assert k * s >= i * s by { MulMono(i, k, s); }
      }
    } else if Hit(cipher, pkt, mac, from) {
      forall k: nat | i <= k ensures k * s >= from {
        MulMono(i, k, s);
      }
    } else {
      assert (i + 1) * s == from + s;
      FirstHitIsLeast(cipher, pkt, mac, i + 1, step);
    }
  }

  lemma MulMono(i: nat, k: nat, s: nat)
    requires i <= k
    ensures i * s <= k * s
  {
  }

  // ----- Fixed places -------------------------------------------------------------------------------

  /** `pick_devkey_candidates`: the window at 32 and the last window, where the packet has them, without repeats. */
  method PickCandidates(pkt: Bytes) returns (places: seq<nat>)
    ensures places == FixedPlaces(|pkt|)
    ensures forall i :: 0 <= i < |places| ==> places[i] + WINDOW <= |pkt|
  {
    var out: seq<nat> := [];
    if |pkt| >= 64 {
      out := out + [32];
    }
    if |pkt| >= 32 {
      out := out + [|pkt| - 32];
    }
    places := [];
    var seen: set<nat> := {};
    for i := 0 to |out|
      invariant forall k :: k in seen <==> k in out[..i]
      invariant places == if i == 2 && out[0] == out[1] then out[..1] else out[..i]
    {
      if out[i] !in seen {
        places := places + [out[i]];
        seen := seen + {out[i]};
      }
    }
  }

  function FixedPlaces(n: nat): seq<nat> {
    if n < 32 then [] else if n < 64 then [n - 32] else if n == 64 then [32] else [32, n - 32]
  }

  /** The first fixed place that hits. */
  function FixedHit(cipher: Cipher, pkt: Bytes, mac: Bytes, places: seq<nat>): Option<nat> {
    if places == [] then None
    else if Hit(cipher, pkt, mac, places[0]) then Some(places[0])
    else FixedHit(cipher, pkt, mac, places[1..])
  }

  method FindFixed(cipher: Cipher, pkt: Bytes, mac: Bytes) returns (off: Option<nat>)
    requires |mac| == MAC_SIZE
    ensures off == FixedHit(cipher, pkt, mac, FixedPlaces(|pkt|))
  {
    hide Crypt, FixedPlaces;
    var places := PickCandidates(pkt);
    for i := 0 to |places|
      invariant FixedHit(cipher, pkt, mac, places) == FixedHit(cipher, pkt, mac, places[i..])
    {
      var seed1 := XCrypt(cipher, pkt[places[i]..places[i] + WINDOW]);
      assert places[i..][1..] == places[i + 1..];
      if seed1[..MAC_SIZE] == mac {
        return Some(places[i]);
      }
    }
    off := None;
  }

  // ----- The decisions on one packet ----------------------------------------------------------------

  predicate IsResponse(pkt: Bytes) {
    |pkt| >= 64 && pkt[..4] == RESPONSE
  }

  /** What `scan_for_target` makes of a packet: where it finds the target. */
  function PlainScan(cipher: Cipher, pkt: Bytes, mac: Bytes, step: int): Option<nat> {
    var brute := FirstHit(cipher, pkt, mac, 0, step);
    var fixed := FixedHit(cipher, pkt, mac, FixedPlaces(|pkt|));
    if !IsResponse(pkt) then None
    else if |pkt| >= 96 && brute.Some? then brute
    else if fixed.Some? then fixed
    else brute
  }

  /** What `scan_for_target_with_hint` makes of it, when `marker` is the MAC read after a marker, if any. */
  function HintScan(cipher: Cipher, pkt: Bytes, mac: Bytes, step: int, marker: Option<Bytes>): Option<nat> {
    var brute := FirstHit(cipher, pkt, mac, 0, step);
    var fixed := FixedHit(cipher, pkt, mac, FixedPlaces(|pkt|));
    if !IsResponse(pkt) then None
    else if |pkt| >= 96 && marker == Some(mac) && brute.Some? then brute
    else if fixed.Some? then fixed
    else brute
  }

  method ScanForTarget(cipher: Cipher, pkt: Bytes, mac: Bytes, step: int) returns (off: Option<nat>)
    requires |mac| == MAC_SIZE
    ensures off == PlainScan(cipher, pkt, mac, step)
  {
    hide Crypt, FirstHit, FixedHit, FixedPlaces;
    if |pkt| < 64 || pkt[..4] != RESPONSE {
      return None;
    }
    if |pkt| >= 96 {
      off := BruteFind(cipher, pkt, mac, step);
      if off.Some? {
        return;
      }
    }
    off := FindFixed(cipher, pkt, mac);
    if off.Some? {
      return;
    }
    off := BruteFind(cipher, pkt, mac, step);
  }

  method ScanForTargetWithHint(cipher: Cipher, pkt: Bytes, mac: Bytes, step: int, marker: Option<Bytes>)
    returns (off: Option<nat>)
    requires |mac| == MAC_SIZE
    ensures off == HintScan(cipher, pkt, mac, step, marker)
  {
    hide Crypt, FirstHit, FixedHit, FixedPlaces;
    if |pkt| < 64 || pkt[..4] != RESPONSE {
      return None;
    }
    if |pkt| >= 96 && marker.Some? && marker.value == mac {
      off := BruteFind(cipher, pkt, marker.value, step);
      if off.Some? {
        return;
      }
    }
    off := FindFixed(cipher, pkt, mac);
    if off.Some? {
      return;
    }
    off := BruteFind(cipher, pkt, mac, step);
  }

  /** An offset the scans look at. */
  ghost predicate Tried(n: nat, step: int, off: int) {
    (exists k: nat :: off == k * Stride(step)) || off == 32 || off == n - 32
  }

  ghost predicate HasHit(cipher: Cipher, pkt: Bytes, mac: Bytes, step: int) {
    exists off: int :: Tried(|pkt|, step, off) && Hit(cipher, pkt, mac, off)
  }

  lemma BruteCases(cipher: Cipher, pkt: Bytes, mac: Bytes, step: int)
    ensures match FirstHit(cipher, pkt, mac, 0, step)
            case Some(off) => Hit(cipher, pkt, mac, off) && exists k: nat :: off == k * Stride(step)
            case None => forall k: nat :: !Hit(cipher, pkt, mac, k * Stride(step))
  {
    hide Hit;
    FirstHitIsLeast(cipher, pkt, mac, 0, step);
  }

  lemma FixedCases(cipher: Cipher, pkt: Bytes, mac: Bytes)
    requires |pkt| >= 64
    ensures match FixedHit(cipher, pkt, mac, FixedPlaces(|pkt|))
            case Some(off) => Hit(cipher, pkt, mac, off) && (off == 32 || off == |pkt| - WINDOW)
            case None => !Hit(cipher, pkt, mac, 32) && !Hit(cipher, pkt, mac, |pkt| - WINDOW)
  {
    hide Hit;
    var last := |pkt| - WINDOW;
    assert [last][1..] == [] && [32][1..] == [] && [32, last][1..] == [last];
    assert FixedHit(cipher, pkt, mac, [last]) == if Hit(cipher, pkt, mac, last) then Some(last) else None;
  }

  /**
   * Both scans accept the same packets, for every stride and whatever marker is read: the responses with a hit
   * at a tried offset; and what they report is a hit.
   */
  lemma ScansAcceptTheSame(cipher: Cipher, pkt: Bytes, mac: Bytes, step: int, marker: Option<Bytes>)
    ensures var response := |pkt| >= 64 && pkt[..4] == [0x23, 0x68, 0x54, 0x10];
            && (PlainScan(cipher, pkt, mac, step).Some? <==> response && HasHit(cipher, pkt, mac, step))
            && (HintScan(cipher, pkt, mac, step, marker).Some? <==> response && HasHit(cipher, pkt, mac, step))
    ensures forall off :: PlainScan(cipher, pkt, mac, step) == Some(off) ==> Hit(cipher, pkt, mac, off)
    ensures forall off :: HintScan(cipher, pkt, mac, step, marker) == Some(off) ==> Hit(cipher, pkt, mac, off)
  {
    hide Hit, FirstHit, FixedHit, FixedPlaces;
    if IsResponse(pkt) {
      BruteCases(cipher, pkt, mac, step);
      FixedCases(cipher, pkt, mac);
      var brute := FirstHit(cipher, pkt, mac, 0, step);
      var fixed := FixedHit(cipher, pkt, mac, FixedPlaces(|pkt|));
      if brute.Some? {
        assert Tried(|pkt|, step, brute.value);
      }
      if fixed.Some? {
        assert Tried(|pkt|, step, fixed.value);
      }
    }
  }

  /** With a stride of one, a response is accepted when the MAC stands masked anywhere a window can begin. */
  lemma StrideOneAcceptsAnyWindow(cipher: Cipher, pkt: Bytes, mac: Bytes, marker: Option<Bytes>)
    requires IsResponse(pkt) && |mac| == MAC_SIZE
    ensures PlainScan(cipher, pkt, mac, 1).Some? <==> exists off :: MaskedMac(cipher, pkt, mac, off)
    ensures HintScan(cipher, pkt, mac, 1, marker).Some? <==> exists off :: MaskedMac(cipher, pkt, mac, off)
  {
    hide PlainScan, HintScan, Hit, MaskedMac;
    ScansAcceptTheSame(cipher, pkt, mac, 1, marker);
    if HasHit(cipher, pkt, mac, 1) {
      var off: int :| Tried(|pkt|, 1, off) && Hit(cipher, pkt, mac, off);
      HitIffMasked(cipher, pkt, mac, off);
    }
    if off: int :| MaskedMac(cipher, pkt, mac, off) {
      HitIffMasked(cipher, pkt, mac, off);
      HitInRange(cipher, pkt, mac, off);
      assert off == off * Stride(1);
      assert Tried(|pkt|, 1, off);
    }
  }

  lemma HitInRange(cipher: Cipher, pkt: Bytes, mac: Bytes, off: int)
    requires Hit(cipher, pkt, mac, off)
    ensures 0 <= off && off + WINDOW <= |pkt|
  {
  }

  /** On a long packet the plain scan reports the least hit in strides, wherever the fixed places hit. */
  lemma LongPacketsReportTheLeastHit(cipher: Cipher, pkt: Bytes, mac: Bytes, step: int, k: nat)
    requires IsResponse(pkt) && |pkt| >= 96 && Hit(cipher, pkt, mac, k * Stride(step))
    ensures PlainScan(cipher, pkt, mac, step).Some?
    ensures PlainScan(cipher, pkt, mac, step).value <= k * Stride(step)
    ensures exists i: nat :: PlainScan(cipher, pkt, mac, step).value == i * Stride(step)
  {
    hide Hit, FirstHit, FixedHit, FixedPlaces;
    FirstHitIsLeast(cipher, pkt, mac, 0, step);
  }

  /** On a short one both scans report a fixed place first, the window at 32 before the last. */
  lemma ShortPacketsReportFixedPlaces(cipher: Cipher, pkt: Bytes, mac: Bytes, step: int, marker: Option<Bytes>)
    requires IsResponse(pkt) && |pkt| < 96
    ensures Hit(cipher, pkt, mac, 32) ==> PlainScan(cipher, pkt, mac, step) == Some(32)
    ensures !Hit(cipher, pkt, mac, 32) && Hit(cipher, pkt, mac, |pkt| - WINDOW) ==>
              PlainScan(cipher, pkt, mac, step) == Some(|pkt| - WINDOW)
    ensures HintScan(cipher, pkt, mac, step, marker) == PlainScan(cipher, pkt, mac, step)
  {
    hide Hit, FirstHit;
    var last := |pkt| - WINDOW;
    assert [32][1..] == [] && [32, last][1..] == [last];
    assert FixedHit(cipher, pkt, mac, [last]) == if Hit(cipher, pkt, mac, last) then Some(last) else None;
  }

  /** The `k`-th offset in strides hits. */
  predicate StrideHit(cipher: Cipher, pkt: Bytes, mac: Bytes, step: int, k: nat) {
    Hit(cipher, pkt, mac, k * Stride(step))
  }

  /** The fixed place that is tried first among those that hit: 32, else the last window. */
  predicate FirstFixed(cipher: Cipher, pkt: Bytes, mac: Bytes, off: int) {
    && Hit(cipher, pkt, mac, off)
    && (off == 32 || (off == |pkt| - WINDOW && !Hit(cipher, pkt, mac, 32)))
  }

  /** The first fixed hit `off` is passed over by the strides, or comes after a stride that hits. */
  predicate Missed(cipher: Cipher, pkt: Bytes, mac: Bytes, step: int, off: int, k: nat) {
    && FirstFixed(cipher, pkt, mac, off) && StrideHit(cipher, pkt, mac, step, k)
    && (k * Stride(step) < off || off % Stride(step) != 0)
  }

  lemma DivIsMultiple(off: nat, s: nat)
    requires s > 0 && off % s == 0
    ensures off / s * s == off
  {
  }

  lemma MultipleHasNoRest(k: nat, s: nat)
    requires s > 0
    ensures k * s % s == 0
  {
    DivModUnique(k * s, s, k, 0);
  }

  /** The least stride hit is the first fixed hit exactly when that one is not missed. */
  lemma LeastIsFixedIff(cipher: Cipher, pkt: Bytes, mac: Bytes, step: int, least: nat, off: nat)
    requires FirstHit(cipher, pkt, mac, 0, step) == Some(least) && FirstFixed(cipher, pkt, mac, off)
    ensures least != off <==> exists k: nat :: Missed(cipher, pkt, mac, step, off, k)
  {
    hide Hit, FirstHit;
    FirstHitIsLeast(cipher, pkt, mac, 0, step);
    var s := Stride(step);
    var i: nat :| least == i * s;
    assert StrideHit(cipher, pkt, mac, step, i);
    MultipleHasNoRest(i, s);
    if least != off && off % s == 0 {
      DivIsMultiple(off, s);
      assert off / s * s == off;
    }
    if least != off {
      assert Missed(cipher, pkt, mac, step, off, i);
    }
    if k: nat :| Missed(cipher, pkt, mac, step, off, k) {
      assert Hit(cipher, pkt, mac, k * s);
    }
  }

  lemma FixedIsFirst(cipher: Cipher, pkt: Bytes, mac: Bytes)
    requires |pkt| >= 64
    ensures match FixedHit(cipher, pkt, mac, FixedPlaces(|pkt|))
            case Some(off) => FirstFixed(cipher, pkt, mac, off)
            case None => forall off :: !FirstFixed(cipher, pkt, mac, off)
  {
    hide Hit;
    FixedCases(cipher, pkt, mac);
    var last := |pkt| - WINDOW;
    assert [32, last][1..] == [last];
  }

  lemma OneFirstFixed(cipher: Cipher, pkt: Bytes, mac: Bytes, a: int, b: int)
    requires FirstFixed(cipher, pkt, mac, a) && FirstFixed(cipher, pkt, mac, b)
    ensures a == b
  {
    hide Hit;
  }

  /**
   * The two scans report different windows if and only if the packet is long, its marker does not name the
   * target, a fixed place hits, and the strides hit too but pass that place over or hit before it.
   */
  lemma ScansReportDifferentlyIff(cipher: Cipher, pkt: Bytes, mac: Bytes, step: int, marker: Option<Bytes>)
    ensures PlainScan(cipher, pkt, mac, step) != HintScan(cipher, pkt, mac, step, marker)
            <==> IsResponse(pkt) && |pkt| >= 96 && marker != Some(mac)
                 && exists off: int, k: nat :: Missed(cipher, pkt, mac, step, off, k)
  {
    hide Hit, FirstHit, FixedHit, FixedPlaces, FirstFixed;
    if IsResponse(pkt) {
      FixedIsFirst(cipher, pkt, mac);
      BruteCases(cipher, pkt, mac, step);
      var brute := FirstHit(cipher, pkt, mac, 0, step);
      var fixed := FixedHit(cipher, pkt, mac, FixedPlaces(|pkt|));
      if brute.Some? && fixed.Some? {
        LeastIsFixedIff(cipher, pkt, mac, step, brute.value, fixed.value);
      }
      if off: int, k: nat :| Missed(cipher, pkt, mac, step, off, k) {
        assert StrideHit(cipher, pkt, mac, step, k);
        if fixed.Some? {
          OneFirstFixed(cipher, pkt, mac, off, fixed.value);
        }
      }
    }
  }

  /** Such packets exist: all bytes after the signature zero, under a cipher that encrypts to zeros. */
  lemma ScansCanReportDifferently()
    ensures var pkt := RESPONSE + seq(92, _ => 0);
            var mac: Bytes := seq(6, _ => 0);
            var cipher: Cipher := _ => seq(16, _ => 0);
            PlainScan(cipher, pkt, mac, 1) == Some(4) && HintScan(cipher, pkt, mac, 1, None) == Some(32)
  {
    var pkt: Bytes := RESPONSE + seq(92, _ => 0);
    var mac: Bytes := seq(6, _ => 0);
    var cipher: Cipher := _ => seq(16, _ => 0);
    ZeroCipher(cipher, mac);
    assert Crypt(cipher, mac) == mac;
    HitIffMasked(cipher, pkt, mac, 4);
    HitIffMasked(cipher, pkt, mac, 32);
    forall off | 0 <= off < 4 ensures !Hit(cipher, pkt, mac, off) {
      HitIffMasked(cipher, pkt, mac, off);
      assert pkt[3] == 0x10 && pkt[off..off + MAC_SIZE][3 - off] == pkt[3];
    }
    assert FirstHit(cipher, pkt, mac, 4, 1) == Some(4);
    assert FirstHit(cipher, pkt, mac, 2, 1) == Some(4);
    assert FirstHit(cipher, pkt, mac, 0, 1) == Some(4);
  }

  lemma ZeroCipher(cipher: Cipher, data: Bytes)
    requires forall b: Block :: cipher(b) == seq(16, _ => 0)
    ensures Crypt(cipher, data) == data
  {
    forall k | 0 <= k < |data| ensures Crypt(cipher, data)[k] == data[k] {
      assert KeyByte(cipher, k) == 0;
    }
  }

  // ----- Several targets at once --------------------------------------------------------------------

  datatype BatchHit = BatchHit(mac: Bytes, off: nat)

  /** A target that has not been found before. */
  predicate Open(targets: seq<Bytes>, found: set<Bytes>, mac: Bytes) {
    mac in targets && mac !in found
  }

  /** At a fixed place, which is 32 if any open target is there. */
  ghost predicate AtFixedPlace(cipher: Cipher, pkt: Bytes, targets: seq<Bytes>, found: set<Bytes>, h: BatchHit) {
    && Hit(cipher, pkt, h.mac, h.off)
    && (h.off == 32
        || (h.off == |pkt| - 32 && forall m :: Open(targets, found, m) ==> !Hit(cipher, pkt, m, 32)))
  }

  /** The first open target, in the order of the list, that the strides find, and where they find it first. */
  ghost predicate FirstInStrides(cipher: Cipher, pkt: Bytes, targets: seq<Bytes>, found: set<Bytes>, step: int,
                                 h: BatchHit)
  {
    exists i :: 0 <= i < |targets| && targets[i] == h.mac && FirstHit(cipher, pkt, h.mac, 0, step) == Some(h.off)
                && forall k :: 0 <= k < i && targets[k] !in found ==>
                     FirstHit(cipher, pkt, targets[k], 0, step).None?
  }

  /**
   * Which hit is reported: on a long packet that names an open target, that one where the strides find it; else one
   * at a fixed place; else the first in the strides.
   */
  ghost predicate Preferred(cipher: Cipher, pkt: Bytes, targets: seq<Bytes>, found: set<Bytes>, step: int,
                            marker: Option<Bytes>, h: BatchHit)
  {
    if |pkt| >= 96 && marker.Some? && Open(targets, found, marker.value)
       && FirstHit(cipher, pkt, marker.value, 0, step).Some?
    then h.mac == marker.value && FirstHit(cipher, pkt, marker.value, 0, step) == Some(h.off)
    else
      || AtFixedPlace(cipher, pkt, targets, found, h)
      || (&& (forall m :: Open(targets, found, m) ==> !Hit(cipher, pkt, m, 32) && !Hit(cipher, pkt, m, |pkt| - 32))
          && FirstInStrides(cipher, pkt, targets, found, step, h))
  }

  /** The per-packet decision of `scan_targets_batch`; `found` are the targets that have a hit already. */
  method ScanBatch(cipher: Cipher, pkt: Bytes, targets: seq<Bytes>, found: set<Bytes>, step: int,
                   marker: Option<Bytes>) returns (hit: Option<BatchHit>)
    requires forall m :: m in targets ==> |m| == MAC_SIZE
    ensures hit.Some? ==> Open(targets, found, hit.value.mac) && Hit(cipher, pkt, hit.value.mac, hit.value.off)
    ensures hit.Some? <==> IsResponse(pkt) && exists m :: Open(targets, found, m) && HasHit(cipher, pkt, m, step)
    ensures hit.Some? ==> Preferred(cipher, pkt, targets, found, step, marker, hit.value)
  {
    hide Crypt, Hit, FirstHit, FixedHit, HasHit, AtFixedPlace;
    if |pkt| < 64 || pkt[..4] != RESPONSE {
      return None;
    }
    if |pkt| >= 96 && marker.Some? && Open(targets, found, marker.value) {
      var brute := BruteFind(cipher, pkt, marker.value, step);
      if brute.Some? {
        BruteIsHit(cipher, pkt, marker.value, step);
        return Some(BatchHit(marker.value, brute.value));
      }
    }
    hit := FixedBatch(cipher, pkt, targets, found, step);
    if hit.Some? {
      return;
    }
    for i := 0 to |targets|
      invariant forall k :: 0 <= k < i && targets[k] !in found ==> !HasHit(cipher, pkt, targets[k], step)
      invariant forall k :: 0 <= k < i && targets[k] !in found ==> FirstHit(cipher, pkt, targets[k], 0, step).None?
    {
      if targets[i] !in found {
        var brute := BruteFind(cipher, pkt, targets[i], step);
        if brute.Some? {
          BruteIsHit(cipher, pkt, targets[i], step);
          return Some(BatchHit(targets[i], brute.value));
        }
        NoHit(cipher, pkt, targets[i], step);
      }
    }
    hit := None;
  }

  lemma BruteIsHit(cipher: Cipher, pkt: Bytes, mac: Bytes, step: int)
    requires FirstHit(cipher, pkt, mac, 0, step).Some?
    ensures Hit(cipher, pkt, mac, FirstHit(cipher, pkt, mac, 0, step).value) && HasHit(cipher, pkt, mac, step)
  {
    hide Hit;
    BruteCases(cipher, pkt, mac, step);
    assert Tried(|pkt|, step, FirstHit(cipher, pkt, mac, 0, step).value);
  }

  lemma NoHit(cipher: Cipher, pkt: Bytes, mac: Bytes, step: int)
    requires FirstHit(cipher, pkt, mac, 0, step).None?
    requires !Hit(cipher, pkt, mac, 32) && !Hit(cipher, pkt, mac, |pkt| - WINDOW)
    ensures !HasHit(cipher, pkt, mac, step)
  {
    hide Hit;
    BruteCases(cipher, pkt, mac, step);
  }

  /** The loop of `scan_targets_batch` over the fixed places. */
  method FixedBatch(cipher: Cipher, pkt: Bytes, targets: seq<Bytes>, found: set<Bytes>, step: int)
    returns (hit: Option<BatchHit>)
    requires |pkt| >= 64 && forall m :: m in targets ==> |m| == MAC_SIZE
    ensures hit.Some? ==>
              && Open(targets, found, hit.value.mac)
              && Hit(cipher, pkt, hit.value.mac, hit.value.off)
              && HasHit(cipher, pkt, hit.value.mac, step)
              && AtFixedPlace(cipher, pkt, targets, found, hit.value)
    ensures hit.None? ==> forall m :: Open(targets, found, m) ==>
              !Hit(cipher, pkt, m, 32) && !Hit(cipher, pkt, m, |pkt| - WINDOW)
  {
    hide Crypt;
    var places := PickCandidates(pkt);
    for i := 0 to |places|
      invariant forall k, m :: 0 <= k < i && Open(targets, found, m) ==> !Hit(cipher, pkt, m, places[k])
    {
      var seed1 := XCrypt(cipher, pkt[places[i]..places[i] + WINDOW]);
      var mac := seed1[..MAC_SIZE];
      if mac in targets && mac !in found {
        assert Tried(|pkt|, step, places[i]) && Hit(cipher, pkt, mac, places[i]);
        assert places[0] == 32;
        return Some(BatchHit(mac, places[i]));
      }
    }
    hit := None;
    assert 32 == places[0] && |pkt| - WINDOW == places[|places| - 1];
  }
}
