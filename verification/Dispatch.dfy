/**
 * Selection of tasks over sorted lanes: the specification of the scheduler
 * (application/core/task_scheduler.py) and its laws.
 */
module Dispatch {
  import opened Tasks

  /** What the registry and the actor of a device answer; devices without an actor have no entry. */
  datatype Device = Device(busy: bool, session: bool, connected: bool, known: bool)

  type Devices = map<Ip, Device>

  /** A task that the scheduler drops: no device, or the device has no actor. */
  predicate Dead(devs: Devices, t: TaskSpec) {
    t.deviceIp == "" || t.deviceIp !in devs
  }

  predicate ConnectFor(ip: Ip, t: TaskSpec) {
    t.deviceIp == ip && t.command.Connect?
  }

  predicate LaneHasConnect(q: seq<Item>, ip: Ip) {
    q != [] && (ConnectFor(ip, q[0].task) || LaneHasConnect(q[1..], ip))
  }

  ghost predicate PendingConnect(lanes: Lanes, ip: Ip) {
    exists l: TaskLane :: LaneHasConnect(lanes[l], ip)
  }

  /** The connect prerequisite: a task of a session-less device waits for a queued CONNECT. */
  ghost predicate Blocked(lanes: Lanes, devs: Devices, t: TaskSpec) {
    && !t.command.Connect?
    && t.deviceIp != ""
    && t.deviceIp in devs
    && devs[t.deviceIp].known
    && !devs[t.deviceIp].session
    && !devs[t.deviceIp].connected
    && PendingConnect(lanes, t.deviceIp)
  }

  ghost predicate Dispatchable(lanes: Lanes, submitted: set<Ip>, devs: Devices, t: TaskSpec) {
    && !Dead(devs, t)
    && t.deviceIp !in submitted
    && !Blocked(lanes, devs, t)
    && !devs[t.deviceIp].busy
  }

  /** The lane without the dead tasks at its front. */
  function DropDead(devs: Devices, q: seq<Item>): (r: seq<Item>)
    ensures |r| <= |q|
    ensures r != [] ==> !Dead(devs, r[0].task)
  {
    if q != [] && Dead(devs, q[0].task) then DropDead(devs, q[1..]) else q
  }

  function Put(lanes: Lanes, l: TaskLane, q: seq<Item>): (r: Lanes)
    ensures r[l] == q
    ensures forall k: TaskLane :: k != l ==> r[k] == lanes[k]
  {
    lanes[l := q]
  }

  datatype Sched = Sched(lanes: Lanes, submitted: set<Ip>)

  /** `_pop_next_ready_task_for_lane`. */
  ghost function PopReady(s: Sched, devs: Devices, lane: TaskLane): (r: (Sched, Option<Item>)) {
    var q := DropDead(devs, s.lanes[lane]);
    var lanes := Put(s.lanes, lane, q);
    if q == [] || !Dispatchable(lanes, s.submitted, devs, q[0].task) then
      (Sched(lanes, s.submitted), None)
    else
      (Sched(Put(s.lanes, lane, q[1..]), s.submitted + {q[0].task.deviceIp}), Some(q[0]))
  }

  /** State of one `dispatch_ready_tasks` call. */
  datatype Pass = Pass(sched: Sched, selected: seq<Item>, connects: nat, others: nat)

  datatype Limits = Limits(connect: int, other: int)

  predicate AtLimit(p: Pass, lim: Limits, lane: TaskLane) {
    if lane.ConnectLane? then p.connects >= lim.connect else p.others >= lim.other
  }

  ghost function Take(p: Pass, sched: Sched, x: Item, lane: TaskLane): Pass {
    Pass(sched, p.selected + [x],
         if lane.ConnectLane? then p.connects + 1 else p.connects,
         if lane.ConnectLane? then p.others else p.others + 1)
  }

  /** One lane of the inner `for`; true when it yields a task. */
  ghost function TryLane(p: Pass, devs: Devices, lim: Limits, lane: TaskLane): (r: (Pass, bool))
    ensures |r.0.selected| == |p.selected| + if r.1 then 1 else 0
    ensures Size(r.0.sched.lanes) + |r.0.selected| <= Size(p.sched.lanes) + |p.selected|
  {
    if AtLimit(p, lim, lane) then (p, false)
    else
      var (sched, got) := PopReady(p.sched, devs, lane);
      if got.None? then (p.(sched := sched), false) else (Take(p, sched, got.value, lane), true)
  }

  /** One round of the inner `for` over the lanes in `order`: stops at the first one that yields a task. */
  ghost function ScanLanes(p: Pass, devs: Devices, lim: Limits, order: seq<TaskLane>): (r: (Pass, bool))
    ensures |r.0.selected| == |p.selected| + if r.1 then 1 else 0
    ensures Size(r.0.sched.lanes) + |r.0.selected| <= Size(p.sched.lanes) + |p.selected|
    decreases |order|, |p.selected|
  {
    if order == [] then (p, false)
    else
      var (q, got) := TryLane(p, devs, lim, order[0]);
      if got then (q, true) else ScanLanes(q, devs, lim, order[1..])
  }

  /** The outer `while True`. */
  ghost function Rounds(p: Pass, devs: Devices, lim: Limits): (r: Pass)
    ensures |r.selected| >= |p.selected|
    ensures Size(r.sched.lanes) + |r.selected| <= Size(p.sched.lanes) + |p.selected|
    decreases Size(p.sched.lanes)
  {
    var (q, picked) := ScanLanes(p, devs, lim, LANE_ORDER);
    if picked then Rounds(q, devs, lim) else q
  }

  /** `dispatch_ready_tasks`. */
  ghost function DispatchReady(s: Sched, devs: Devices, lim: Limits): (r: Pass)
    ensures Size(r.sched.lanes) + |r.selected| <= Size(s.lanes)
  {
    Rounds(Pass(s, [], 0, 0), devs, lim)
  }

  ghost function Size(lanes: Lanes): nat {
    |lanes[ControlLane]| + |lanes[ConnectLane]| + |lanes[InfoLane]| + |lanes[PollHotLane]|
    + |lanes[PollWarmLane]| + |lanes[FirmwareLane]| + |lanes[UdpAdminLane]|
  }

  // ----- Suffixes ---------------------------------------------------------------------------

  ghost predicate IsTail(a: seq<Item>, b: seq<Item>) {
    a == b || (b != [] && IsTail(a, b[1..]))
  }

  /** Every lane of `a` is a suffix of the same lane of `b`. */
  ghost predicate LaneTails(a: Lanes, b: Lanes) {
    forall l: TaskLane :: IsTail(a[l], b[l])
  }

  lemma {:induction false} TailIndex(a: seq<Item>, b: seq<Item>)
    requires IsTail(a, b)
    ensures |a| <= |b|
    ensures forall x :: x in a ==> x in b
    ensures |a| < |b| ==> IsTail(a, b[1..])
  {
    if a == b {
    } else {
      TailIndex(a, b[1..]);
    }
  }

  lemma {:induction false} TailTrans(a: seq<Item>, b: seq<Item>, c: seq<Item>)
    requires IsTail(a, b) && IsTail(b, c)
    ensures IsTail(a, c)
  {
    if b == c {
    } else {
      TailTrans(a, b, c[1..]);
    }
  }

  lemma TailRest(q: seq<Item>, b: seq<Item>)
    requires IsTail(q, b) && q != []
    ensures IsTail(q[1..], b)
  {
    assert IsTail(q[1..], q[1..]);
    assert IsTail(q[1..], q);
    TailTrans(q[1..], q, b);
  }

  lemma {:induction false} DropIsTail(devs: Devices, q: seq<Item>)
    ensures IsTail(DropDead(devs, q), q)
  {
    if q == [] || !Dead(devs, q[0].task) {
    } else {
      DropIsTail(devs, q[1..]);
    }
  }

  lemma TailsCompose(a: Lanes, b: Lanes, c: Lanes)
    requires LaneTails(a, b) && LaneTails(b, c)
    ensures LaneTails(a, c)
  {
    forall l: TaskLane ensures IsTail(a[l], c[l]) {
      TailTrans(a[l], b[l], c[l]);
    }
  }

  lemma {:induction false} TailKeepsConnect(a: seq<Item>, b: seq<Item>, ip: Ip)
    requires IsTail(a, b) && LaneHasConnect(a, ip)
    ensures LaneHasConnect(b, ip)
  {
    if a == b {
    } else {
      TailKeepsConnect(a, b[1..], ip);
    }
  }

  lemma TailsKeepConnects(a: Lanes, b: Lanes, ip: Ip)
    requires LaneTails(a, b) && PendingConnect(a, ip)
    ensures PendingConnect(b, ip)
  {
    var l: TaskLane :| LaneHasConnect(a[l], ip);
    TailKeepsConnect(a[l], b[l], ip);
  }

  lemma {:induction false} DropKeepsConnect(devs: Devices, q: seq<Item>, ip: Ip)
    requires ip != "" && ip in devs
    ensures LaneHasConnect(DropDead(devs, q), ip) == LaneHasConnect(q, ip)
  {
    if q == [] || !Dead(devs, q[0].task) {
    } else {
      DropKeepsConnect(devs, q[1..], ip);
    }
  }

  /** Dropping dead tasks neither blocks nor unblocks a live one. */
  lemma DropKeepsBlocks(lanes: Lanes, devs: Devices, lane: TaskLane, t: TaskSpec)
    requires !Dead(devs, t)
    ensures Blocked(Put(lanes, lane, DropDead(devs, lanes[lane])), devs, t) == Blocked(lanes, devs, t)
  {
    var after := Put(lanes, lane, DropDead(devs, lanes[lane]));
    DropKeepsConnect(devs, lanes[lane], t.deviceIp);
    forall l: TaskLane ensures LaneHasConnect(after[l], t.deviceIp) == LaneHasConnect(lanes[l], t.deviceIp) {
    }
  }

  // ----- Laws of one dispatch -----------------------------------------------------------------

  /** The live tasks of a lane, in order. */
  function LiveOf(devs: Devices, q: seq<Item>): seq<Item> {
    if q == [] then []
    else (if Dead(devs, q[0].task) then [] else [q[0]]) + LiveOf(devs, q[1..])
  }

  /** Those of the first `n` selected items that came from lane `l`, in order. */
  function FromLaneUpTo(selected: seq<Item>, l: TaskLane, n: nat): seq<Item>
    requires n <= |selected|
  {
    if n == 0 then []
    else FromLaneUpTo(selected, l, n - 1) + if selected[n - 1].task.lane == l then [selected[n - 1]] else []
  }

  function FromLane(selected: seq<Item>, l: TaskLane): seq<Item> {
    FromLaneUpTo(selected, l, |selected|)
  }

  function IpsUpTo(selected: seq<Item>, n: nat): set<Ip>
    requires n <= |selected|
  {
    if n == 0 then {} else IpsUpTo(selected, n - 1) + {selected[n - 1].task.deviceIp}
  }

  function IpsOf(selected: seq<Item>): set<Ip> {
    IpsUpTo(selected, |selected|)
  }

  /** Every task sits in the lane it names. */
  ghost predicate WellLaned(lanes: Lanes) {
    forall l: TaskLane, x :: x in lanes[l] ==> x.task.lane == l
  }

  lemma WellLanedInsert(lanes: Lanes, x: Item)
    requires WellLaned(lanes)
    ensures WellLaned(Put(lanes, x.task.lane, Insert(lanes[x.task.lane], x)))
  {
    hide Insert;
    var s := lanes[x.task.lane];
    forall y | y in Insert(s, x) ensures y == x || y in s {
      assert y in multiset(Insert(s, x));
      assert y == x || y in multiset(s);
    }
  }

  /** A lane lost a prefix; its live tasks were exactly the selected ones, then the live tasks still there. */
  ghost predicate LaneLaw(devs: Devices, before: seq<Item>, after: seq<Item>, taken: seq<Item>) {
    && IsTail(after, before)
    && LiveOf(devs, before) == taken + LiveOf(devs, after)
  }

  ghost predicate LaneLaws(devs: Devices, before: Lanes, after: Lanes, selected: seq<Item>) {
    forall l: TaskLane :: LaneLaw(devs, before[l], after[l], FromLane(selected, l))
  }

  /** A live task of an idle device that had nothing in flight. */
  ghost predicate Free(s0: Sched, devs: Devices, t: TaskSpec) {
    !Dead(devs, t) && t.deviceIp !in s0.submitted && !devs[t.deviceIp].busy
  }

  ghost predicate DistinctIps(selected: seq<Item>) {
    forall i, j :: 0 <= i < j < |selected| ==> selected[i].task.deviceIp != selected[j].task.deviceIp
  }

  /** The selected tasks were free and are of distinct devices. */
  ghost predicate FreshPicks(s0: Sched, devs: Devices, selected: seq<Item>) {
    && (forall i :: 0 <= i < |selected| ==> Free(s0, devs, selected[i].task))
    && DistinctIps(selected)
  }

  ghost predicate CountLaws(p: Pass, lim: Limits) {
    && p.connects == |FromLane(p.selected, ConnectLane)|
    && p.connects + p.others == |p.selected|
    && (p.connects == 0 || p.connects <= lim.connect)
    && (p.others == 0 || p.others <= lim.other)
  }

  /** What a pass has done so far, compared with the state it started from. */
  ghost predicate PassLaws(s0: Sched, p: Pass, devs: Devices, lim: Limits) {
    && LaneLaws(devs, s0.lanes, p.sched.lanes, p.selected)
    && FreshPicks(s0, devs, p.selected)
    && p.sched.submitted == s0.submitted + IpsOf(p.selected)
    && CountLaws(p, lim)
  }

  lemma {:induction false} DropKeepsLive(devs: Devices, q: seq<Item>)
    ensures LiveOf(devs, DropDead(devs, q)) == LiveOf(devs, q)
  {
    if q == [] || !Dead(devs, q[0].task) {
    } else {
      DropKeepsLive(devs, q[1..]);
    }
  }

  lemma DropLane(devs: Devices, b: seq<Item>, a: seq<Item>, taken: seq<Item>)
    requires LaneLaw(devs, b, a, taken)
    ensures LaneLaw(devs, b, DropDead(devs, a), taken)
  {
    DropIsTail(devs, a);
    TailTrans(DropDead(devs, a), a, b);
    DropKeepsLive(devs, a);
  }

  lemma TakeLane(devs: Devices, b: seq<Item>, a: seq<Item>, taken: seq<Item>)
    requires LaneLaw(devs, b, a, taken) && a != [] && !Dead(devs, a[0].task)
    ensures LaneLaw(devs, b, a[1..], taken + [a[0]])
  {
    TailRest(a, b);
    assert taken + ([a[0]] + LiveOf(devs, a[1..])) == (taken + [a[0]]) + LiveOf(devs, a[1..]);
  }

  lemma {:induction false} AppendPrefix(selected: seq<Item>, x: Item, l: TaskLane, n: nat)
    requires n <= |selected|
    ensures FromLaneUpTo(selected + [x], l, n) == FromLaneUpTo(selected, l, n)
    ensures IpsUpTo(selected + [x], n) == IpsUpTo(selected, n)
  {
    if n == 0 {
    } else {
      AppendPrefix(selected, x, l, n - 1);
    }
  }

  lemma SelectedAppend(selected: seq<Item>, x: Item, l: TaskLane)
    ensures FromLane(selected + [x], l) == FromLane(selected, l) + if x.task.lane == l then [x] else []
    ensures IpsOf(selected + [x]) == IpsOf(selected) + {x.task.deviceIp}
  {
    AppendPrefix(selected, x, l, |selected|);
  }

  lemma {:induction false} IpsHas(selected: seq<Item>, i: nat, n: nat)
    requires i < n <= |selected|
    ensures selected[i].task.deviceIp in IpsUpTo(selected, n)
  {
    if i == n - 1 {
    } else {
      IpsHas(selected, i, n - 1);
    }
  }

  lemma DistinctAppend(selected: seq<Item>, x: Item)
    requires DistinctIps(selected) && x.task.deviceIp !in IpsOf(selected)
    ensures DistinctIps(selected + [x])
  {
    forall i | 0 <= i < |selected| ensures selected[i].task.deviceIp != x.task.deviceIp {
      IpsHas(selected, i, |selected|);
    }
  }

  lemma DropKeepsLaneLaws(devs: Devices, b: Lanes, a: Lanes, selected: seq<Item>, lane: TaskLane)
    requires LaneLaws(devs, b, a, selected)
    ensures LaneLaws(devs, b, Put(a, lane, DropDead(devs, a[lane])), selected)
  {
    DropLane(devs, b[lane], a[lane], FromLane(selected, lane));
  }

  lemma TakeKeepsLaneLaws(devs: Devices, b: Lanes, a: Lanes, selected: seq<Item>, lane: TaskLane)
    requires LaneLaws(devs, b, a, selected) && a[lane] != []
    requires !Dead(devs, a[lane][0].task) && a[lane][0].task.lane == lane
    ensures LaneLaws(devs, b, Put(a, lane, a[lane][1..]), selected + [a[lane][0]])
  {
    var x := a[lane][0];
    TakeLane(devs, b[lane], a[lane], FromLane(selected, lane));
    var r := Put(a, lane, a[lane][1..]);
    forall l: TaskLane ensures LaneLaw(devs, b[l], r[l], FromLane(selected + [x], l)) {
      SelectedAppend(selected, x, l);
      assert LaneLaw(devs, b[l], a[l], FromLane(selected, l));
      if l != lane {
        assert FromLane(selected + [x], l) == FromLane(selected, l);
      }
    }
  }

  lemma TakeKeepsPicks(s0: Sched, devs: Devices, selected: seq<Item>, submitted: set<Ip>, x: Item)
    requires FreshPicks(s0, devs, selected)
    requires submitted == s0.submitted + IpsOf(selected)
    requires !Dead(devs, x.task) && x.task.deviceIp !in submitted && !devs[x.task.deviceIp].busy
    ensures FreshPicks(s0, devs, selected + [x])
    ensures submitted + {x.task.deviceIp} == s0.submitted + IpsOf(selected + [x])
  {
    SelectedAppend(selected, x, x.task.lane);
    DistinctAppend(selected, x);
  }

  lemma HeadLane(b: Lanes, lane: TaskLane, q: seq<Item>)
    requires WellLaned(b) && IsTail(q, b[lane]) && q != []
    ensures q[0].task.lane == lane
  {
    TailIndex(q, b[lane]);
    assert q[0] in b[lane];
  }

  lemma PutTwice(lanes: Lanes, lane: TaskLane, q: seq<Item>, r: seq<Item>)
    ensures Put(Put(lanes, lane, q), lane, r) == Put(lanes, lane, r)
  {
  }

  lemma TakeKeepsLaws(s0: Sched, p: Pass, devs: Devices, lim: Limits, lane: TaskLane, q: seq<Item>)
    requires WellLaned(s0.lanes) && PassLaws(s0, p, devs, lim) && !AtLimit(p, lim, lane)
    requires q == DropDead(devs, p.sched.lanes[lane]) && q != []
    requires q[0].task.deviceIp !in p.sched.submitted && !devs[q[0].task.deviceIp].busy
    ensures var sched := Sched(Put(p.sched.lanes, lane, q[1..]), p.sched.submitted + {q[0].task.deviceIp});
            PassLaws(s0, Take(p, sched, q[0], lane), devs, lim)
  {
    var dropped := Put(p.sched.lanes, lane, q);
    DropKeepsLaneLaws(devs, s0.lanes, p.sched.lanes, p.selected, lane);
    HeadLane(s0.lanes, lane, q);
    TakeKeepsLaneLaws(devs, s0.lanes, dropped, p.selected, lane);
    PutTwice(p.sched.lanes, lane, q, q[1..]);
    TakeKeepsPicks(s0, devs, p.selected, p.sched.submitted, q[0]);
    SelectedAppend(p.selected, q[0], ConnectLane);
  }

  lemma DropKeepsLaws(s0: Sched, p: Pass, devs: Devices, lim: Limits, lane: TaskLane)
    requires PassLaws(s0, p, devs, lim)
    ensures var q := DropDead(devs, p.sched.lanes[lane]);
            PassLaws(s0, p.(sched := Sched(Put(p.sched.lanes, lane, q), p.sched.submitted)), devs, lim)
  {
    hide LaneLaws, FreshPicks, DropDead;
    DropKeepsLaneLaws(devs, s0.lanes, p.sched.lanes, p.selected, lane);
  }

  lemma PopKeepsLaws(s0: Sched, p: Pass, devs: Devices, lim: Limits, lane: TaskLane)
    requires WellLaned(s0.lanes) && PassLaws(s0, p, devs, lim) && !AtLimit(p, lim, lane)
    ensures var (sched, got) := PopReady(p.sched, devs, lane);
            PassLaws(s0, if got.None? then p.(sched := sched) else Take(p, sched, got.value, lane), devs, lim)
  {
    hide PassLaws, WellLaned, Blocked, DropDead, AtLimit, Take;
    var q := DropDead(devs, p.sched.lanes[lane]);
    DropKeepsLaws(s0, p, devs, lim, lane);
    if PopReady(p.sched, devs, lane).1.Some? {
      TakeKeepsLaws(s0, p, devs, lim, lane, q);
    }
  }

  lemma TryKeepsLaws(s0: Sched, p: Pass, devs: Devices, lim: Limits, lane: TaskLane)
    requires WellLaned(s0.lanes) && PassLaws(s0, p, devs, lim)
    ensures PassLaws(s0, TryLane(p, devs, lim, lane).0, devs, lim)
  {
    hide PassLaws, WellLaned, PopReady, AtLimit, Take, Size;
    if !AtLimit(p, lim, lane) {
      PopKeepsLaws(s0, p, devs, lim, lane);
    }
  }

  lemma {:induction false} ScanKeepsLaws(s0: Sched, p: Pass, devs: Devices, lim: Limits, order: seq<TaskLane>)
    requires WellLaned(s0.lanes) && PassLaws(s0, p, devs, lim)
    ensures PassLaws(s0, ScanLanes(p, devs, lim, order).0, devs, lim)
    decreases |order|
  {
    hide PassLaws, TryLane, WellLaned, Size;
    if order == [] {
    } else {
      var (q, got) := TryLane(p, devs, lim, order[0]);
      TryKeepsLaws(s0, p, devs, lim, order[0]);
      if !got {
        ScanKeepsLaws(s0, q, devs, lim, order[1..]);
      }
    }
  }

  lemma {:induction false} RoundsKeepLaws(s0: Sched, p: Pass, devs: Devices, lim: Limits)
    requires WellLaned(s0.lanes) && PassLaws(s0, p, devs, lim)
    ensures PassLaws(s0, Rounds(p, devs, lim), devs, lim)
    decreases Size(p.sched.lanes)
  {
    var (q, picked) := ScanLanes(p, devs, lim, LANE_ORDER);
    ScanKeepsLaws(s0, p, devs, lim, LANE_ORDER);
    if !picked {
    } else {
      RoundsKeepLaws(s0, q, devs, lim);
    }
  }

  /** Laws of `dispatch_ready_tasks`: see PassLaws. */
  lemma DispatchLaws(s: Sched, devs: Devices, lim: Limits)
    requires WellLaned(s.lanes)
    ensures PassLaws(s, DispatchReady(s, devs, lim), devs, lim)
  {
    RoundsKeepLaws(s, Pass(s, [], 0, 0), devs, lim);
  }

  lemma {:induction false} FromLaneHas(selected: seq<Item>, i: nat, n: nat)
    requires i < n <= |selected|
    ensures selected[i] in FromLaneUpTo(selected, selected[i].task.lane, n)
  {
    if i == n - 1 {
    } else {
      FromLaneHas(selected, i, n - 1);
    }
  }

  lemma {:induction false} TailLive(devs: Devices, a: seq<Item>, b: seq<Item>)
    requires IsTail(a, b)
    ensures |LiveOf(devs, a)| <= |LiveOf(devs, b)|
  {
    if a == b {
    } else {
      TailLive(devs, a, b[1..]);
    }
  }

  lemma {:induction false} TakenSortFirst(devs: Devices, b: seq<Item>, a: seq<Item>, taken: seq<Item>, x: Item, y: Item)
    requires LaneLaw(devs, b, a, taken) && Sorted(b)
    requires x in taken && y in a
    ensures Less(x, y)
    decreases |b|
  {
    assert |LiveOf(devs, b)| == |taken| + |LiveOf(devs, a)|;
    if a == b {
    } else {
      TailIndex(a, b[1..]);
      TailLive(devs, a, b[1..]);
      if Dead(devs, b[0].task) {
        TakenSortFirst(devs, b[1..], a, taken, x, y);
      } else {
        assert LiveOf(devs, b) == [b[0]] + LiveOf(devs, b[1..]);
        assert taken[0] == (taken + LiveOf(devs, a))[0] == b[0];
        assert LiveOf(devs, b[1..]) == LiveOf(devs, b)[1..] == taken[1..] + LiveOf(devs, a);
        if x in taken[1..] {
          TakenSortFirst(devs, b[1..], a, taken[1..], x, y);
        } else {
          assert x == b[0] && y in b[1..];
        }
      }
    }
  }

  /** Nothing left in a lane has a higher priority than a task taken from it, or the same and came earlier. */
  lemma TakenBeforeLeft(s: Sched, devs: Devices, lim: Limits, i: nat, y: Item)
    requires WellLaned(s.lanes) && (forall l: TaskLane :: Sorted(s.lanes[l]))
    requires i < |DispatchReady(s, devs, lim).selected|
    requires var p := DispatchReady(s, devs, lim); y in p.sched.lanes[p.selected[i].task.lane]
    ensures var x := DispatchReady(s, devs, lim).selected[i];
            x.priority > y.priority || (x.priority == y.priority && x.sequence < y.sequence)
  {
    DispatchLaws(s, devs, lim);
    var p := DispatchReady(s, devs, lim);
    var l := p.selected[i].task.lane;
    FromLaneHas(p.selected, i, |p.selected|);
    TakenSortFirst(devs, s.lanes[l], p.sched.lanes[l], FromLane(p.selected, l), p.selected[i], y);
  }

  lemma {:induction false} LiveKeepsOrder(devs: Devices, q: seq<Item>)
    requires Sorted(q)
    ensures Sorted(LiveOf(devs, q))
    ensures forall x :: x in LiveOf(devs, q) ==> x in q
  {
    hide Sorted, Dead;
    if q == [] {
      NothingSorted();
    } else {
      SortedTail(q);
      LiveKeepsOrder(devs, q[1..]);
      assert forall x :: x in q[1..] ==> x in q;
      if !Dead(devs, q[0].task) {
        SortedCons(q[0], LiveOf(devs, q[1..]));
      } else {
        assert LiveOf(devs, q) == LiveOf(devs, q[1..]);
      }
    }
  }

  /** Two items selected from one lane are in the lane's own list in the same order. */
  lemma {:induction false} FromLanePair(selected: seq<Item>, i: nat, j: nat, l: TaskLane, n: nat)
    returns (a: nat, b: nat)
    requires i < j < n <= |selected| && selected[i].task.lane == selected[j].task.lane == l
    ensures a < b < |FromLaneUpTo(selected, l, n)|
    ensures FromLaneUpTo(selected, l, n)[a] == selected[i] && FromLaneUpTo(selected, l, n)[b] == selected[j]
  {
    if j == n - 1 {
      FromLaneHas(selected, i, n - 1);
      a :| 0 <= a < |FromLaneUpTo(selected, l, n - 1)| && FromLaneUpTo(selected, l, n - 1)[a] == selected[i];
      b := |FromLaneUpTo(selected, l, n - 1)|;
    } else {
      a, b := FromLanePair(selected, i, j, l, n - 1);
    }
  }

  /** What is taken from one lane is taken by priority, and first come first served. */
  lemma TakenInOrder(s: Sched, devs: Devices, lim: Limits, i: nat, j: nat)
    requires WellLaned(s.lanes) && (forall l: TaskLane :: Sorted(s.lanes[l]))
    requires i < j < |DispatchReady(s, devs, lim).selected|
    requires var p := DispatchReady(s, devs, lim); p.selected[i].task.lane == p.selected[j].task.lane
    ensures var x, y := DispatchReady(s, devs, lim).selected[i], DispatchReady(s, devs, lim).selected[j];
            x.priority > y.priority || (x.priority == y.priority && x.sequence < y.sequence)
  {
    hide DispatchReady, FreshPicks, CountLaws, WellLaned;
    DispatchLaws(s, devs, lim);
    var p := DispatchReady(s, devs, lim);
    var l := p.selected[i].task.lane;
    LiveKeepsOrder(devs, s.lanes[l]);
    var a, b := FromLanePair(p.selected, i, j, l, |p.selected|);
    var taken, live := FromLane(p.selected, l), LiveOf(devs, s.lanes[l]);
    assert LaneLaw(devs, s.lanes[l], p.sched.lanes[l], taken);
    assert live[a] == taken[a] && live[b] == taken[b];
  }

  // ----- A dispatch is maximal ----------------------------------------------------------------

  /** The lane is exhausted for this pass: empty, at its limit, or with a live head that must wait. */
  ghost predicate Exhausted(p: Pass, devs: Devices, lim: Limits, lane: TaskLane) {
    || AtLimit(p, lim, lane)
    || p.sched.lanes[lane] == []
    || (&& !Dead(devs, p.sched.lanes[lane][0].task)
        && !Dispatchable(p.sched.lanes, p.sched.submitted, devs, p.sched.lanes[lane][0].task))
  }

  /** A lane that yields nothing is exhausted, and trying it leaves exhausted lanes exhausted. */
  lemma TryExhausts(p: Pass, devs: Devices, lim: Limits, lane: TaskLane)
    requires !TryLane(p, devs, lim, lane).1
    ensures var r := TryLane(p, devs, lim, lane).0;
            && Exhausted(r, devs, lim, lane)
            && r == p.(sched := r.sched) && r.sched.submitted == p.sched.submitted
            && forall l: TaskLane :: Exhausted(p, devs, lim, l) ==> Exhausted(r, devs, lim, l)
  {
    var r := TryLane(p, devs, lim, lane).0;
    if !AtLimit(p, lim, lane) {
      forall l: TaskLane | Exhausted(p, devs, lim, l) ensures Exhausted(r, devs, lim, l) {
        if l != lane && p.sched.lanes[l] != [] && !AtLimit(p, lim, l) {
          DropKeepsBlocks(p.sched.lanes, devs, lane, p.sched.lanes[l][0].task);
        }
      }
    }
  }

  lemma {:induction false} ScanExhausts(p: Pass, devs: Devices, lim: Limits, order: seq<TaskLane>)
    requires !ScanLanes(p, devs, lim, order).1
    requires forall l: TaskLane :: l !in order ==> Exhausted(p, devs, lim, l)
    ensures var r := ScanLanes(p, devs, lim, order).0;
            && (forall l: TaskLane :: Exhausted(r, devs, lim, l))
            && r == p.(sched := r.sched) && r.sched.submitted == p.sched.submitted
    decreases |order|
  {
    hide Exhausted, TryLane, Size;
    if order == [] {
    } else {
      assert order == [order[0]] + order[1..];
      TryExhausts(p, devs, lim, order[0]);
      ScanExhausts(TryLane(p, devs, lim, order[0]).0, devs, lim, order[1..]);
    }
  }

  lemma {:induction false} RoundsExhaust(p: Pass, devs: Devices, lim: Limits, lane: TaskLane)
    ensures Exhausted(Rounds(p, devs, lim), devs, lim, lane)
    decreases Size(p.sched.lanes)
  {
    var (q, picked) := ScanLanes(p, devs, lim, LANE_ORDER);
    if picked {
      RoundsExhaust(q, devs, lim, lane);
    } else {
      forall l: TaskLane ensures l in LANE_ORDER {
        var k := EveryLaneIsOrdered(l);
      }
      ScanExhausts(p, devs, lim, LANE_ORDER);
    }
  }

  /** On return every lane is empty, at its limit or headed by a live task that must wait. */
  lemma DispatchMaximal(s: Sched, devs: Devices, lim: Limits, lane: TaskLane)
    ensures Exhausted(DispatchReady(s, devs, lim), devs, lim, lane)
  {
    RoundsExhaust(Pass(s, [], 0, 0), devs, lim, lane);
  }
}
