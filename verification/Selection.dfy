/**
 * Why a dispatch selects what it selects (application/core/task_scheduler.py:83-181), said of the fields of tasks
 * and devices alone.
 */
module Selection {
  import opened Tasks
  import opened Dispatch

  /** The place of a lane: controls first, then connects, then the rest. */
  function Rank(l: TaskLane): nat {
    match l
    case ControlLane => 0
    case ConnectLane => 1
    case InfoLane => 2
    case PollHotLane => 3
    case PollWarmLane => 4
    case FirmwareLane => 5
    case UdpAdminLane => 6
  }

  ghost predicate ConnectQueued(lanes: Lanes, ip: Ip) {
    exists l: TaskLane, i: nat ::
      i < |lanes[l]| && lanes[l][i].task.deviceIp == ip && lanes[l][i].task.command == Connect
  }

  /**
   * The task may start: its device has an actor, which is idle, and nothing in flight; and unless the task connects,
   * a known device without session and connection has no CONNECT waiting in any lane.
   */
  ghost predicate MayStart(lanes: Lanes, submitted: set<Ip>, devs: Devices, t: TaskSpec) {
    && t.deviceIp != "" && t.deviceIp in devs && t.deviceIp !in submitted && !devs[t.deviceIp].busy
    && (t.command == Connect || !devs[t.deviceIp].known || devs[t.deviceIp].session || devs[t.deviceIp].connected
        || !ConnectQueued(lanes, t.deviceIp))
  }

  lemma PendingIsQueued(lanes: Lanes, ip: Ip)
    ensures PendingConnect(lanes, ip) <==> ConnectQueued(lanes, ip)
  {
    if l: TaskLane :| LaneHasConnect(lanes[l], ip) {
      var i := ConnectAt(lanes[l], ip);
    }
    if l: TaskLane, i: nat :|
      i < |lanes[l]| && lanes[l][i].task.deviceIp == ip && lanes[l][i].task.command == Connect
    {
      ConnectFound(lanes[l], ip, i);
    }
  }

  lemma {:induction false} ConnectAt(q: seq<Item>, ip: Ip) returns (i: nat)
    requires LaneHasConnect(q, ip)
    ensures i < |q| && q[i].task.deviceIp == ip && q[i].task.command == Connect
  {
    if ConnectFor(ip, q[0].task) {
      i := 0;
    } else {
      i := ConnectAt(q[1..], ip);
      i := i + 1;
    }
  }

  lemma {:induction false} ConnectFound(q: seq<Item>, ip: Ip, i: nat)
    requires i < |q| && q[i].task.deviceIp == ip && q[i].task.command == Connect
    ensures LaneHasConnect(q, ip)
  {
    if i == 0 {
    } else {
      ConnectFound(q[1..], ip, i - 1);
    }
  }

  /** The two readings of the rule agree. */
  lemma MayStartIff(lanes: Lanes, submitted: set<Ip>, devs: Devices, t: TaskSpec)
    ensures MayStart(lanes, submitted, devs, t) <==> Dispatchable(lanes, submitted, devs, t)
  {
    PendingIsQueued(lanes, t.deviceIp);
  }

  /** So many connects and other tasks are among the selected ones. */
  ghost predicate BelowLimit(selected: seq<Item>, lim: Limits, l: TaskLane) {
    var connects := |FromLane(selected, ConnectLane)|;
    if l == ConnectLane then connects < lim.connect else |selected| - connects < lim.other
  }

  /** The lane has nothing to offer: it is at its limit, empty, or headed by a live task that may not start. */
  ghost predicate HasNothing(p: Pass, devs: Devices, lim: Limits, l: TaskLane) {
    var q := p.sched.lanes[l];
    || !BelowLimit(p.selected, lim, l)
    || q == []
    || (q[0].task.deviceIp != "" && q[0].task.deviceIp in devs
        && !MayStart(p.sched.lanes, p.sched.submitted, devs, q[0].task))
  }

  /** The item is the first of its lane that has a device with an actor. */
  ghost predicate FirstLive(q: seq<Item>, devs: Devices, x: Item) {
    && x.task.deviceIp != "" && x.task.deviceIp in devs
    && exists n: nat :: n < |q| && q[n] == x
                        && forall i :: 0 <= i < n ==> q[i].task.deviceIp == "" || q[i].task.deviceIp !in devs
  }

  /** In the pass state `p` of a dispatch from `s`, `x` is the next to be selected. */
  ghost predicate IsNext(s: Sched, devs: Devices, lim: Limits, p: Pass, x: Item) {
    && PassLaws(s, p, devs, lim)
    && FirstLive(p.sched.lanes[x.task.lane], devs, x) && BelowLimit(p.selected, lim, x.task.lane)
    && MayStart(p.sched.lanes, p.sched.submitted, devs, x.task)
    && forall l: TaskLane :: Rank(l) < Rank(x.task.lane) ==> HasNothing(p, devs, lim, l)
  }

  lemma ExhaustedHasNothing(s: Sched, p: Pass, devs: Devices, lim: Limits, l: TaskLane)
    requires PassLaws(s, p, devs, lim)
    ensures Exhausted(p, devs, lim, l) <==> HasNothing(p, devs, lim, l)
  {
    hide LaneLaws, FreshPicks, IpsOf, FromLane;
    if p.sched.lanes[l] != [] {
      MayStartIff(p.sched.lanes, p.sched.submitted, devs, p.sched.lanes[l][0].task);
    }
  }

  lemma {:induction false} DropFinds(devs: Devices, q: seq<Item>)
    requires DropDead(devs, q) != []
    ensures FirstLive(q, devs, DropDead(devs, q)[0])
  {
    if !Dead(devs, q[0].task) {
      assert q[0] == DropDead(devs, q)[0];
    } else {
      DropFinds(devs, q[1..]);
      var n: nat :|
        n < |q[1..]| && q[1..][n] == DropDead(devs, q)[0]
        && forall i :: 0 <= i < n ==> q[1..][i].task.deviceIp == "" || q[1..][i].task.deviceIp !in devs;
      forall i | 0 <= i < n + 1 ensures Dead(devs, q[i].task) {
        assert i > 0 ==> q[i] == q[1..][i - 1];
      }
      assert q[n + 1] == DropDead(devs, q)[0];
    }
  }

  /** A lane that yields an item yields the next one, when the lanes before it have nothing. */
  lemma TryYieldsNext(s: Sched, p: Pass, devs: Devices, lim: Limits, lane: TaskLane)
    requires WellLaned(s.lanes) && PassLaws(s, p, devs, lim) && TryLane(p, devs, lim, lane).1
    requires forall l: TaskLane :: Rank(l) < Rank(lane) ==> Exhausted(p, devs, lim, l)
    ensures var r := TryLane(p, devs, lim, lane).0;
            |r.selected| == |p.selected| + 1 && r.selected[..|p.selected|] == p.selected
            && IsNext(s, devs, lim, p, r.selected[|p.selected|])
  {
    hide PassLaws, WellLaned, Blocked, DropDead, HasNothing, MayStart, FirstLive, Exhausted, Dead, TryLane, IsTail;
    hide Dispatchable, FromLane;
    var q := DropDead(devs, p.sched.lanes[lane]);
    YieldsHead(p, devs, lim, lane);
    var x := q[0];
    DropIsTail(devs, p.sched.lanes[lane]);
    LanesAreTails(s, p, devs, lim, lane);
    TailTrans(q, p.sched.lanes[lane], s.lanes[lane]);
    HeadLane(s.lanes, lane, q);
    DropFinds(devs, p.sched.lanes[lane]);
    CountsAre(s, p, devs, lim);
    MayStartIff(Put(p.sched.lanes, lane, q), p.sched.submitted, devs, x.task);
    DropKeepsMayStart(p.sched.lanes, devs, lane, p.sched.submitted, x.task);
    MayStartIff(p.sched.lanes, p.sched.submitted, devs, x.task);
    forall l: TaskLane | Rank(l) < Rank(lane) ensures HasNothing(p, devs, lim, l) {
      ExhaustedHasNothing(s, p, devs, lim, l);
    }
  }

  lemma YieldsHead(p: Pass, devs: Devices, lim: Limits, lane: TaskLane)
    requires TryLane(p, devs, lim, lane).1
    ensures var q := DropDead(devs, p.sched.lanes[lane]);
            && !AtLimit(p, lim, lane) && q != []
            && Dispatchable(Put(p.sched.lanes, lane, q), p.sched.submitted, devs, q[0].task)
            && TryLane(p, devs, lim, lane).0.selected == p.selected + [q[0]]
  {
    hide Dispatchable, DropDead;
  }

  lemma LanesAreTails(s: Sched, p: Pass, devs: Devices, lim: Limits, lane: TaskLane)
    requires PassLaws(s, p, devs, lim)
    ensures IsTail(p.sched.lanes[lane], s.lanes[lane])
  {
    assert LaneLaw(devs, s.lanes[lane], p.sched.lanes[lane], FromLane(p.selected, lane));
  }

  lemma CountsAre(s: Sched, p: Pass, devs: Devices, lim: Limits)
    requires PassLaws(s, p, devs, lim)
    ensures p.connects == |FromLane(p.selected, ConnectLane)|
    ensures p.connects + p.others == |p.selected|
  {
  }

  lemma DropKeepsMayStart(lanes: Lanes, devs: Devices, lane: TaskLane, submitted: set<Ip>, t: TaskSpec)
    requires Dispatchable(Put(lanes, lane, DropDead(devs, lanes[lane])), submitted, devs, t)
    ensures Dispatchable(lanes, submitted, devs, t)
  {
    hide Blocked;
    DropKeepsBlocks(lanes, devs, lane, t);
  }

  /** One scan of the lanes from the `k`-th on selects the next item, or nothing. */
  lemma {:induction false} ScanYieldsNext(s: Sched, p: Pass, devs: Devices, lim: Limits, k: nat) returns (q: Pass)
    requires WellLaned(s.lanes) && PassLaws(s, p, devs, lim) && k <= |LANE_ORDER|
    requires ScanLanes(p, devs, lim, LANE_ORDER[k..]).1
    requires forall l: TaskLane :: Rank(l) < k ==> Exhausted(p, devs, lim, l)
    ensures var r := ScanLanes(p, devs, lim, LANE_ORDER[k..]).0;
            && |r.selected| == |p.selected| + 1 && r.selected[..|p.selected|] == p.selected == q.selected
            && IsNext(s, devs, lim, q, r.selected[|p.selected|])
    decreases |LANE_ORDER| - k
  {
    hide PassLaws, TryLane, WellLaned, Size, Exhausted, IsNext, ScanLanes;
    ScanAt(p, devs, lim, k);
    var lane := LANE_ORDER[k];
    assert Rank(lane) == k;
    if TryLane(p, devs, lim, lane).1 {
      q := p;
      TryYieldsNext(s, p, devs, lim, lane);
    } else {
      TryExhausts(p, devs, lim, lane);
      TryKeepsLaws(s, p, devs, lim, lane);
      forall l: TaskLane | Rank(l) == k ensures l == lane {
        OneRank(l, lane);
      }
      q := ScanYieldsNext(s, TryLane(p, devs, lim, lane).0, devs, lim, k + 1);
    }
  }

  lemma ScanAt(p: Pass, devs: Devices, lim: Limits, k: nat)
    requires k <= |LANE_ORDER|
    ensures k == |LANE_ORDER| ==> !ScanLanes(p, devs, lim, LANE_ORDER[k..]).1
    ensures k < |LANE_ORDER| ==>
              var (r, got) := TryLane(p, devs, lim, LANE_ORDER[k]);
              ScanLanes(p, devs, lim, LANE_ORDER[k..])
              == if got then (r, true) else ScanLanes(r, devs, lim, LANE_ORDER[k + 1..])
  {
    hide TryLane, Size;
    if k < |LANE_ORDER| {
      assert LANE_ORDER[k..][0] == LANE_ORDER[k] && LANE_ORDER[k..][1..] == LANE_ORDER[k + 1..];
    }
  }

  lemma OneRank(a: TaskLane, b: TaskLane)
    requires Rank(a) == Rank(b)
    ensures a == b
  {
  }

  lemma {:induction false} RoundsYieldNext(s: Sched, p: Pass, devs: Devices, lim: Limits, i: nat) returns (q: Pass)
    requires WellLaned(s.lanes) && PassLaws(s, p, devs, lim)
    requires |p.selected| <= i < |Rounds(p, devs, lim).selected|
    ensures p.selected <= Rounds(p, devs, lim).selected
    ensures q.selected == Rounds(p, devs, lim).selected[..i]
    ensures IsNext(s, devs, lim, q, Rounds(p, devs, lim).selected[i])
    decreases Size(p.sched.lanes)
  {
    hide PassLaws, WellLaned, ScanLanes, IsNext, Size;
    RoundsAre(p, devs, lim);
    var (r, picked) := ScanLanes(p, devs, lim, LANE_ORDER);
    assert LANE_ORDER[0..] == LANE_ORDER;
    var first := ScanYieldsNext(s, p, devs, lim, 0);
    ScanKeepsLaws(s, p, devs, lim, LANE_ORDER);
    RoundsExtend(r, devs, lim);
    if i == |p.selected| {
      q := first;
    } else {
      q := RoundsYieldNext(s, r, devs, lim, i);
    }
  }

  lemma RoundsAre(p: Pass, devs: Devices, lim: Limits)
    ensures var (r, picked) := ScanLanes(p, devs, lim, LANE_ORDER);
            && Rounds(p, devs, lim) == (if picked then Rounds(r, devs, lim) else r)
            && (picked ==> Size(r.sched.lanes) < Size(p.sched.lanes))
            && (!picked ==> r.selected == p.selected)
  {
    hide Size;
    var (r, picked) := ScanLanes(p, devs, lim, LANE_ORDER);
    if !picked {
      ScanSelectsNothing(p, devs, lim, LANE_ORDER);
    }
  }

  lemma {:induction false} ScanSelectsNothing(p: Pass, devs: Devices, lim: Limits, order: seq<TaskLane>)
    requires !ScanLanes(p, devs, lim, order).1
    ensures ScanLanes(p, devs, lim, order).0.selected == p.selected
    decreases |order|
  {
    hide Size, PopReady;
    if order == [] {
    } else {
      ScanSelectsNothing(TryLane(p, devs, lim, order[0]).0, devs, lim, order[1..]);
    }
  }

  lemma {:induction false} ScanExtends(p: Pass, devs: Devices, lim: Limits, order: seq<TaskLane>)
    ensures p.selected <= ScanLanes(p, devs, lim, order).0.selected
    decreases |order|
  {
    hide Size, PopReady;
    if order == [] {
    } else {
      var (r, got) := TryLane(p, devs, lim, order[0]);
      if !got {
        ScanExtends(r, devs, lim, order[1..]);
      }
    }
  }

  lemma {:induction false} RoundsExtend(p: Pass, devs: Devices, lim: Limits)
    ensures p.selected <= Rounds(p, devs, lim).selected
    decreases Size(p.sched.lanes)
  {
    hide Size, ScanLanes;
    RoundsAre(p, devs, lim);
    var (r, picked) := ScanLanes(p, devs, lim, LANE_ORDER);
    ScanExtends(p, devs, lim, LANE_ORDER);
    if !picked {
    } else {
      RoundsExtend(r, devs, lim);
    }
  }

  /**
   * Every item that a dispatch selects was, when it was selected, the first live one of its lane, below its limit,
   * and allowed to start, while every lane before its own had nothing to offer. So a control comes before a poll.
   */
  lemma SelectedIsNext(s: Sched, devs: Devices, lim: Limits, i: nat) returns (p: Pass)
    requires WellLaned(s.lanes) && i < |DispatchReady(s, devs, lim).selected|
    ensures p.selected == DispatchReady(s, devs, lim).selected[..i]
    ensures IsNext(s, devs, lim, p, DispatchReady(s, devs, lim).selected[i])
  {
    hide IsNext, DispatchReady, PassLaws, WellLaned, Rounds, Size;
    Beginning(s, devs, lim);
    p := RoundsYieldNext(s, Pass(s, [], 0, 0), devs, lim, i);
  }

  lemma Beginning(s: Sched, devs: Devices, lim: Limits)
    ensures PassLaws(s, Pass(s, [], 0, 0), devs, lim)
    ensures DispatchReady(s, devs, lim) == Rounds(Pass(s, [], 0, 0), devs, lim)
  {
    hide Rounds, Size;
  }

  /** And it stops only when no lane has anything to offer. */
  lemma NothingIsNext(s: Sched, devs: Devices, lim: Limits, l: TaskLane)
    requires WellLaned(s.lanes)
    ensures HasNothing(DispatchReady(s, devs, lim), devs, lim, l)
  {
    hide HasNothing, PassLaws, Exhausted, WellLaned;
    DispatchLaws(s, devs, lim);
    DispatchMaximal(s, devs, lim, l);
    ExhaustedHasNothing(s, DispatchReady(s, devs, lim), devs, lim, l);
  }
}
