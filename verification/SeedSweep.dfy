/** The order in which a reset tries seed times (infra/reset/truen_reset_service.py:890-926). */
module SeedSweep {
  import opened Tasks

  function Abs(d: int): nat {
    if d < 0 then -d else d
  }

  /** The `k`-th offset: 0, -1, 1, -2, 2, ... */
  function OffsetAt(k: nat): int {
    if k % 2 == 1 then -((k + 1) / 2) else k / 2
  }

  predicate Within(sweep: int, d: int) {
    Abs(d) <= sweep
  }

  /** How many offsets a sweep has. */
  function Size(sweep: int): nat {
    if sweep < 0 then 1 else 2 * sweep + 1
  }

  method SeedOffsets(sweep: int) returns (offsets: seq<int>)
    ensures |offsets| == if sweep < 0 then 1 else 2 * sweep + 1
    ensures forall k :: 0 <= k < |offsets| ==>
              offsets[k] == OffsetAt(k) == if k % 2 == 1 then -((k + 1) / 2) else k / 2
  {
    offsets := [0];
    var i := 1;
    while i < sweep + 1
      invariant 1 <= i && (i <= sweep + 1 || i == 1)
      invariant |offsets| == 2 * i - 1
      invariant forall k :: 0 <= k < |offsets| ==> offsets[k] == OffsetAt(k)
    {
      offsets := offsets + [-i];
      offsets := offsets + [i];
      i := i + 1;
    }
  }

  /** Where an offset comes in the order. */
  function PlaceOf(d: int): nat {
    if d < 0 then -2 * d - 1 else 2 * d
  }

  /** The sweep visits every offset from `-sweep` to `sweep`, each exactly once, nearest first. */
  lemma SweepVisitsOnce(sweep: nat, d: int)
    ensures Within(sweep, d) <==> PlaceOf(d) < Size(sweep)
    ensures forall k: nat :: OffsetAt(k) == d <==> k == PlaceOf(d)
    ensures Abs(OffsetAt(PlaceOf(d))) <= Abs(OffsetAt(PlaceOf(d) + 1))
  {
    forall k: nat ensures OffsetAt(k) == d <==> k == PlaceOf(d) {
      if k % 2 == 1 {
        assert k == 2 * ((k + 1) / 2) - 1;
      } else {
        assert k == 2 * (k / 2);
      }
    }
  }

  /** Of two offsets that are as near, the earlier time comes first; and the sweep begins with none. */
  lemma EarlierTimeFirst(d: nat)
    ensures OffsetAt(0) == 0 && OffsetAt(2 * d + 1) == -(d + 1) && OffsetAt(2 * d + 2) == d + 1
  {
  }

  lemma EarlierIsNearer(i: nat, k: nat)
    requires i <= k
    ensures Abs(OffsetAt(i)) <= Abs(OffsetAt(k))
  {
  }

  /**
   * The sweep itself. `stopped` and `acknowledged` say whether a stop is requested, and whether an acknowledgement
   * arrives in time, after the given offsets have been tried. The sweep ends with the offset whose write is the
   * first to be acknowledged, after every nearer one; without one, it was stopped or has tried everything.
   */
  method Sweep(sweep: nat, stopped: seq<int> -> bool, acknowledged: seq<int> -> bool)
    returns (seen: Option<int>, tried: seq<int>)
    ensures |tried| <= Size(sweep) && forall k :: 0 <= k < |tried| ==> tried[k] == OffsetAt(k)
    ensures forall k :: 0 <= k < |tried| ==> !stopped(tried[..k])
    ensures forall k :: 0 < k < |tried| ==> !acknowledged(tried[..k])
    ensures seen.Some? <==> tried != [] && acknowledged(tried)
    ensures seen.Some? ==>
              && seen.value == tried[|tried| - 1]
              && forall d :: Within(sweep, d) && Abs(d) < Abs(seen.value) ==> d in tried
    ensures seen.None? ==> stopped(tried) || forall d :: Within(sweep, d) ==> d in tried
  {
    var offsets := SeedOffsets(sweep);
    tried := [];
    for i := 0 to |offsets|
      invariant tried == offsets[..i]
      invariant forall k :: 0 <= k < i ==> !stopped(tried[..k])
      invariant forall k :: 0 < k <= i ==> !acknowledged(tried[..k])
    {
      assert tried[..i] == tried;
      if stopped(tried) {
        return None, tried;
      }
      ghost var before := tried;
      tried := tried + [offsets[i]];
      assert forall k :: 0 <= k <= i ==> tried[..k] == before[..k];
      assert tried[..i + 1] == tried;
      if acknowledged(tried) {
        NearerCameBefore(tried);
        return Some(offsets[i]), tried;
      }
    }
    forall d | Within(sweep, d) ensures d in tried {
      SweepVisitsOnce(sweep, d);
      assert tried[PlaceOf(d)] == d;
    }
    assert tried[..|tried|] == tried;
    seen := None;
  }

  lemma NearerCameBefore(tried: seq<int>)
    requires tried != [] && forall k :: 0 <= k < |tried| ==> tried[k] == OffsetAt(k)
    ensures forall d :: Abs(d) < Abs(tried[|tried| - 1]) ==> d in tried
  {
    forall d | Abs(d) < Abs(tried[|tried| - 1]) ensures d in tried {
      SweepVisitsOnce(Abs(d), d);
      if PlaceOf(d) < |tried| {
        assert tried[PlaceOf(d)] == d;
      } else {
        EarlierIsNearer(|tried| - 1, PlaceOf(d));
      }
    }
  }
}
