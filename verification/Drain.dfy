/**
 * `run_until_idle` (application/core/task_scheduler.py): when does it empty every lane?
 * Head-of-line blocking and the connect prerequisite can hold a lane for ever; the obstacle
 * is a knot, and there is no other.
 */
module Drain {
  import opened Tasks
  import opened Dispatch

  const ONE_EACH := Limits(1, 1)

  /** `run_until_idle` with `steps` already counted: dispatch, release what was selected, repeat. */
  ghost function RunUntilIdle(s: Sched, devs: Devices, steps: int, maxSteps: int): (r: (Sched, int))
    ensures r.1 >= steps
    decreases Size(s.lanes)
  {
    if steps >= maxSteps then (s, steps)
    else
      var p := DispatchReady(s, devs, ONE_EACH);
      if p.selected == [] then (p.sched, steps)
      else
        RunUntilIdle(Sched(p.sched.lanes, p.sched.submitted - IpsOf(p.selected)), devs,
                     steps + |p.selected|, maxSteps)
  }

  ghost predicate AllEmpty(lanes: Lanes) {
    forall l: TaskLane :: lanes[l] == []
  }

  /** Something is queued, and every non-empty lane is headed by a live task that must wait. */
  ghost predicate Stuck(s: Sched, devs: Devices) {
    && !AllEmpty(s.lanes)
    && forall l: TaskLane :: s.lanes[l] != [] ==>
         var t := s.lanes[l][0].task;
         !Dead(devs, t) && !Dispatchable(s.lanes, s.submitted, devs, t)
  }

  /** Some choice of a suffix of every lane is stuck on its own. */
  ghost predicate HasKnot(s: Sched, devs: Devices) {
    exists sub: Lanes :: LaneTails(sub, s.lanes) && Stuck(Sched(sub, s.submitted), devs)
  }

  ghost function LiveTotal(devs: Devices, lanes: Lanes): nat {
    |LiveOf(devs, lanes[ControlLane])| + |LiveOf(devs, lanes[ConnectLane])|
    + |LiveOf(devs, lanes[InfoLane])| + |LiveOf(devs, lanes[PollHotLane])|
    + |LiveOf(devs, lanes[PollWarmLane])| + |LiveOf(devs, lanes[FirmwareLane])|
    + |LiveOf(devs, lanes[UdpAdminLane])|
  }

  // ----- Every task is counted once -------------------------------------------------------------

  ghost function LaneCounts(selected: seq<Item>, n: nat): nat
    requires n <= |selected|
  {
    |FromLaneUpTo(selected, ControlLane, n)| + |FromLaneUpTo(selected, ConnectLane, n)|
    + |FromLaneUpTo(selected, InfoLane, n)| + |FromLaneUpTo(selected, PollHotLane, n)|
    + |FromLaneUpTo(selected, PollWarmLane, n)| + |FromLaneUpTo(selected, FirmwareLane, n)|
    + |FromLaneUpTo(selected, UdpAdminLane, n)|
  }

  lemma LaneCountStep(selected: seq<Item>, l: TaskLane, n: nat)
    requires 0 < n <= |selected|
    ensures |FromLaneUpTo(selected, l, n)|
            == |FromLaneUpTo(selected, l, n - 1)| + if selected[n - 1].task.lane == l then 1 else 0
  {
  }

  lemma {:induction false} LaneCountsAddUp(selected: seq<Item>, n: nat)
    requires n <= |selected|
    ensures LaneCounts(selected, n) == n
  {
    if n == 0 {
    } else {
      LaneCountsAddUp(selected, n - 1);
      hide FromLaneUpTo;
      LaneCountStep(selected, ControlLane, n);
      LaneCountStep(selected, ConnectLane, n);
      LaneCountStep(selected, InfoLane, n);
      LaneCountStep(selected, PollHotLane, n);
      LaneCountStep(selected, PollWarmLane, n);
      LaneCountStep(selected, FirmwareLane, n);
      LaneCountStep(selected, UdpAdminLane, n);
    }
  }

  lemma LaneSizes(devs: Devices, before: Lanes, after: Lanes, selected: seq<Item>, l: TaskLane)
    requires LaneLaws(devs, before, after, selected)
    ensures |LiveOf(devs, before[l])| == |FromLane(selected, l)| + |LiveOf(devs, after[l])|
  {
    assert LaneLaw(devs, before[l], after[l], FromLane(selected, l));
  }

  lemma LiveSplit(devs: Devices, before: Lanes, after: Lanes, selected: seq<Item>)
    requires LaneLaws(devs, before, after, selected)
    ensures LiveTotal(devs, before) == |selected| + LiveTotal(devs, after)
  {
    LaneCountsAddUp(selected, |selected|);
    LaneSizes(devs, before, after, selected, ControlLane);
    LaneSizes(devs, before, after, selected, ConnectLane);
    LaneSizes(devs, before, after, selected, InfoLane);
    LaneSizes(devs, before, after, selected, PollHotLane);
    LaneSizes(devs, before, after, selected, PollWarmLane);
    LaneSizes(devs, before, after, selected, FirmwareLane);
    LaneSizes(devs, before, after, selected, UdpAdminLane);
  }

  lemma {:induction false} PickedWereFree(s: Sched, devs: Devices, selected: seq<Item>, n: nat)
    requires FreshPicks(s, devs, selected) && n <= |selected|
    ensures IpsUpTo(selected, n) !! s.submitted
  {
    if n == 0 {
    } else {
      PickedWereFree(s, devs, selected, n - 1);
    }
  }

  /** What one iteration of the loop leaves behind. */
  lemma OneIteration(s: Sched, devs: Devices)
    requires WellLaned(s.lanes)
    ensures var p := DispatchReady(s, devs, ONE_EACH);
            && p.sched.submitted - IpsOf(p.selected) == s.submitted
            && LaneTails(p.sched.lanes, s.lanes)
            && WellLaned(p.sched.lanes)
  {
    var p := DispatchReady(s, devs, ONE_EACH);
    DispatchLaws(s, devs, ONE_EACH);
    PickedWereFree(s, devs, p.selected, |p.selected|);
    forall l: TaskLane ensures IsTail(p.sched.lanes[l], s.lanes[l]) {
      assert LaneLaw(devs, s.lanes[l], p.sched.lanes[l], FromLane(p.selected, l));
    }
    TailsKeepLanes(p.sched.lanes, s.lanes);
  }

  lemma OneIterationCounts(s: Sched, devs: Devices)
    requires WellLaned(s.lanes)
    ensures var p := DispatchReady(s, devs, ONE_EACH);
            LiveTotal(devs, s.lanes) == |p.selected| + LiveTotal(devs, p.sched.lanes)
  {
    hide DispatchReady, LiveTotal;
    var p := DispatchReady(s, devs, ONE_EACH);
    DispatchLaws(s, devs, ONE_EACH);
    LiveSplit(devs, s.lanes, p.sched.lanes, p.selected);
  }

  lemma TailsKeepLanes(a: Lanes, b: Lanes)
    requires LaneTails(a, b) && WellLaned(b)
    ensures WellLaned(a)
  {
    forall l: TaskLane, x | x in a[l] ensures x.task.lane == l {
      TailIndex(a[l], b[l]);
    }
  }

  /** The returned number counts exactly the live tasks that left the lanes. */
  lemma {:induction false} RunCounts(s: Sched, devs: Devices, steps: int, maxSteps: int)
    requires WellLaned(s.lanes)
    ensures var (f, n) := RunUntilIdle(s, devs, steps, maxSteps);
            n - steps == LiveTotal(devs, s.lanes) - LiveTotal(devs, f.lanes)
    decreases Size(s.lanes)
  {
    hide DispatchReady, LiveTotal, WellLaned, LaneTails;
    if steps == maxSteps {
    } else {
      var p := DispatchReady(s, devs, ONE_EACH);
      OneIteration(s, devs);
      OneIterationCounts(s, devs);
      if p.selected != [] {
        RunCounts(Sched(p.sched.lanes, s.submitted), devs, steps + |p.selected|, maxSteps);
      }
    }
  }

  /** Each dispatch takes at most one CONNECT and one other task, so the number exceeds the bound by one at most. */
  lemma {:induction false} RunIsBounded(s: Sched, devs: Devices, steps: int, maxSteps: int)
    requires WellLaned(s.lanes)
    ensures var n := RunUntilIdle(s, devs, steps, maxSteps).1;
            if steps < maxSteps then n <= maxSteps + 1 else n == steps
    decreases Size(s.lanes)
  {
    hide DispatchReady, WellLaned, LaneTails;
    if steps < maxSteps {
      var p := DispatchReady(s, devs, ONE_EACH);
      OneIteration(s, devs);
      DispatchIsSmall(s, devs);
      if p.selected != [] {
        RunIsBounded(Sched(p.sched.lanes, s.submitted), devs, steps + |p.selected|, maxSteps);
      }
    }
  }

  lemma DispatchIsSmall(s: Sched, devs: Devices)
    requires WellLaned(s.lanes)
    ensures |DispatchReady(s, devs, ONE_EACH).selected| <= 2
  {
    hide DispatchReady, LaneLaws, FreshPicks, WellLaned;
    DispatchLaws(s, devs, ONE_EACH);
  }

  // ----- Knots survive, and nothing else does ---------------------------------------------------

  lemma {:induction false} EmptyIsTail(q: seq<Item>)
    ensures IsTail([], q)
  {
    if q == [] {
    } else {
      EmptyIsTail(q[1..]);
    }
  }

  lemma {:induction false} DropStopsAtLive(devs: Devices, a: seq<Item>, q: seq<Item>)
    requires IsTail(a, q)
    requires a != [] ==> !Dead(devs, a[0].task)
    ensures IsTail(a, DropDead(devs, q))
  {
    if a == [] {
      EmptyIsTail(DropDead(devs, q));
    } else if a != q && Dead(devs, q[0].task) {
      DropStopsAtLive(devs, a, q[1..]);
    }
  }

  /** A head that waits in a suffix configuration waits in the whole one. */
  lemma WaitsInWhole(sub: Lanes, lanes: Lanes, held: set<Ip>, submitted: set<Ip>, devs: Devices, t: TaskSpec)
    requires LaneTails(sub, lanes) && held <= submitted
    requires !Dead(devs, t) && !Dispatchable(sub, held, devs, t)
    ensures !Dispatchable(lanes, submitted, devs, t)
  {
    if PendingConnect(sub, t.deviceIp) {
      TailsKeepConnects(sub, lanes, t.deviceIp);
    }
  }

  lemma KnotHead(sub: Lanes, held: set<Ip>, devs: Devices, lane: TaskLane)
    requires Stuck(Sched(sub, held), devs) && sub[lane] != []
    ensures !Dead(devs, sub[lane][0].task) && !Dispatchable(sub, held, devs, sub[lane][0].task)
  {
  }

  lemma DropTails(sub: Lanes, lanes: Lanes, lane: TaskLane, q: seq<Item>)
    requires LaneTails(sub, lanes) && IsTail(sub[lane], q)
    ensures LaneTails(sub, Put(lanes, lane, q))
  {
  }

  lemma PoppedLane(s: Sched, devs: Devices, lane: TaskLane)
    ensures var q := DropDead(devs, s.lanes[lane]);
            var taken := q != [] && Dispatchable(Put(s.lanes, lane, q), s.submitted, devs, q[0].task);
            PopReady(s, devs, lane).0.lanes[lane] == if taken then q[1..] else q
  {
    hide Dispatchable, DropDead;
  }

  /** The head of a knot's suffix stays at the head of its lane, and is not taken from there. */
  lemma PopKeepsKnot(sub: Lanes, held: set<Ip>, s: Sched, devs: Devices, lane: TaskLane)
    requires LaneTails(sub, s.lanes) && held <= s.submitted
    requires Stuck(Sched(sub, held), devs)
    ensures IsTail(sub[lane], PopReady(s, devs, lane).0.lanes[lane])
  {
    hide Dispatchable, Stuck, DropDead, Dead, PopReady;
    PoppedLane(s, devs, lane);
    var q := DropDead(devs, s.lanes[lane]);
    if sub[lane] == [] {
      EmptyIsTail(q);
      EmptyIsTail(q[if q == [] then 0 else 1..]);
    } else {
      KnotHead(sub, held, devs, lane);
      DropStopsAtLive(devs, sub[lane], s.lanes[lane]);
      DropTails(sub, s.lanes, lane, q);
      if sub[lane] == q {
        WaitsInWhole(sub, Put(s.lanes, lane, q), held, s.submitted, devs, sub[lane][0].task);
      }
    }
  }

  lemma PopTouchesOneLane(s: Sched, devs: Devices, lane: TaskLane, l: TaskLane)
    ensures l != lane ==> PopReady(s, devs, lane).0.lanes[l] == s.lanes[l]
    ensures s.submitted <= PopReady(s, devs, lane).0.submitted
  {
    hide Dispatchable, DropDead;
  }

  lemma TryKeepsKnot(sub: Lanes, held: set<Ip>, p: Pass, devs: Devices, lim: Limits, lane: TaskLane)
    requires LaneTails(sub, p.sched.lanes) && held <= p.sched.submitted
    requires Stuck(Sched(sub, held), devs)
    ensures var r := TryLane(p, devs, lim, lane).0;
            LaneTails(sub, r.sched.lanes) && held <= r.sched.submitted
  {
    hide PopReady, Stuck, IsTail;
    PopKeepsKnot(sub, held, p.sched, devs, lane);
    forall l: TaskLane ensures l != lane ==> PopReady(p.sched, devs, lane).0.lanes[l] == p.sched.lanes[l] {
      PopTouchesOneLane(p.sched, devs, lane, l);
    }
    PopTouchesOneLane(p.sched, devs, lane, lane);
  }

  lemma {:induction false} ScanKeepsKnot(sub: Lanes, held: set<Ip>, p: Pass, devs: Devices, lim: Limits,
                                         order: seq<TaskLane>)
    requires LaneTails(sub, p.sched.lanes) && held <= p.sched.submitted
    requires Stuck(Sched(sub, held), devs)
    ensures var r := ScanLanes(p, devs, lim, order).0;
            LaneTails(sub, r.sched.lanes) && held <= r.sched.submitted
    decreases |order|
  {
    hide Stuck, TryLane, LaneTails, Size;
    if order == [] {
    } else {
      TryKeepsKnot(sub, held, p, devs, lim, order[0]);
      var (q, got) := TryLane(p, devs, lim, order[0]);
      if !got {
        ScanKeepsKnot(sub, held, q, devs, lim, order[1..]);
      }
    }
  }

  /** No dispatch, whatever its limits, takes a task out of a knot. */
  lemma {:induction false} RoundsKeepKnot(sub: Lanes, held: set<Ip>, p: Pass, devs: Devices, lim: Limits)
    requires LaneTails(sub, p.sched.lanes) && held <= p.sched.submitted
    requires Stuck(Sched(sub, held), devs)
    ensures LaneTails(sub, Rounds(p, devs, lim).sched.lanes)
    decreases Size(p.sched.lanes)
  {
    ScanKeepsKnot(sub, held, p, devs, lim, LANE_ORDER);
    var (q, picked) := ScanLanes(p, devs, lim, LANE_ORDER);
    if !picked {
    } else {
      RoundsKeepKnot(sub, held, q, devs, lim);
    }
  }

  lemma DispatchKeepsKnot(sub: Lanes, s: Sched, devs: Devices, lim: Limits)
    requires LaneTails(sub, s.lanes) && Stuck(Sched(sub, s.submitted), devs)
    ensures LaneTails(sub, DispatchReady(s, devs, lim).sched.lanes)
  {
    RoundsKeepKnot(sub, s.submitted, Pass(s, [], 0, 0), devs, lim);
  }

  lemma {:induction false} RunKeepsKnot(sub: Lanes, s: Sched, devs: Devices, steps: int, maxSteps: int)
    requires WellLaned(s.lanes) && LaneTails(sub, s.lanes)
    requires Stuck(Sched(sub, s.submitted), devs)
    ensures LaneTails(sub, RunUntilIdle(s, devs, steps, maxSteps).0.lanes)
    decreases Size(s.lanes)
  {
    hide DispatchReady, Stuck, IsTail, LaneTails, WellLaned;
    if steps == maxSteps {
    } else {
      OneIteration(s, devs);
      var p := DispatchReady(s, devs, ONE_EACH);
      DispatchKeepsKnot(sub, s, devs, ONE_EACH);
      if p.selected != [] {
        RunKeepsKnot(sub, Sched(p.sched.lanes, s.submitted), devs, steps + |p.selected|, maxSteps);
      }
    }
  }

  lemma PickNothing(s: Sched, devs: Devices, lim: Limits)
    requires DispatchReady(s, devs, lim).selected == [] && WellLaned(s.lanes)
    ensures var p := DispatchReady(s, devs, lim);
            p.sched.submitted == s.submitted && p.connects == 0 && p.others == 0
  {
    hide DispatchReady, LaneLaws, FreshPicks;
    DispatchLaws(s, devs, lim);
  }

  lemma ExhaustedIsStuck(p: Pass, devs: Devices, lim: Limits)
    requires lim.connect >= 1 && lim.other >= 1 && p.connects == 0 && p.others == 0
    requires forall l: TaskLane :: Exhausted(p, devs, lim, l)
    ensures AllEmpty(p.sched.lanes) || Stuck(p.sched, devs)
  {
    hide Dispatchable;
    forall l: TaskLane | p.sched.lanes[l] != []
      ensures !Dead(devs, p.sched.lanes[l][0].task)
      ensures !Dispatchable(p.sched.lanes, p.sched.submitted, devs, p.sched.lanes[l][0].task)
    {
      assert Exhausted(p, devs, lim, l);
    }
  }

  /** A dispatch that selects nothing leaves the lanes empty or stuck. */
  lemma IdleMeansStuck(s: Sched, devs: Devices, lim: Limits)
    requires lim.connect >= 1 && lim.other >= 1
    requires DispatchReady(s, devs, lim).selected == [] && WellLaned(s.lanes)
    ensures var p := DispatchReady(s, devs, lim);
            p.sched.submitted == s.submitted && (AllEmpty(p.sched.lanes) || Stuck(p.sched, devs))
  {
    hide DispatchReady, Exhausted, Stuck;
    PickNothing(s, devs, lim);
    var p := DispatchReady(s, devs, lim);
    forall l: TaskLane ensures Exhausted(p, devs, lim, l) {
      DispatchMaximal(s, devs, lim, l);
    }
    ExhaustedIsStuck(p, devs, lim);
  }

  lemma {:induction false} RunEndsEmptyOrStuck(s: Sched, devs: Devices, steps: int, maxSteps: int)
    requires WellLaned(s.lanes)
    requires RunUntilIdle(s, devs, steps, maxSteps).1 < maxSteps
    ensures var f := RunUntilIdle(s, devs, steps, maxSteps).0;
            && LaneTails(f.lanes, s.lanes) && f.submitted == s.submitted
            && (AllEmpty(f.lanes) || Stuck(f, devs))
    decreases Size(s.lanes)
  {
    hide DispatchReady, Stuck, LaneTails, WellLaned, AllEmpty;
    OneIteration(s, devs);
    var p := DispatchReady(s, devs, ONE_EACH);
    if p.selected == [] {
      IdleMeansStuck(s, devs, ONE_EACH);
    } else {
      var next := Sched(p.sched.lanes, s.submitted);
      RunEndsEmptyOrStuck(next, devs, steps + |p.selected|, maxSteps);
      TailsCompose(RunUntilIdle(next, devs, steps + |p.selected|, maxSteps).0.lanes, next.lanes, s.lanes);
    }
  }

  /** `run_until_idle`, when it stops by itself, has emptied every lane if and only if there was no knot. */
  lemma DrainsIffNoKnot(s: Sched, devs: Devices, maxSteps: int)
    requires WellLaned(s.lanes)
    requires RunUntilIdle(s, devs, 0, maxSteps).1 < maxSteps
    ensures AllEmpty(RunUntilIdle(s, devs, 0, maxSteps).0.lanes) <==> !HasKnot(s, devs)
  {
    var f := RunUntilIdle(s, devs, 0, maxSteps).0;
    RunEndsEmptyOrStuck(s, devs, 0, maxSteps);
    if HasKnot(s, devs) {
      var sub: Lanes :| LaneTails(sub, s.lanes) && Stuck(Sched(sub, s.submitted), devs);
      RunKeepsKnot(sub, s, devs, 0, maxSteps);
      forall l: TaskLane | sub[l] != [] ensures f.lanes[l] != [] {
        TailIndex(sub[l], f.lanes[l]);
      }
    }
    if !AllEmpty(f.lanes) {
      assert Stuck(Sched(f.lanes, s.submitted), devs);
    }
  }

  // ----- Queues built by CommandFactory have no knot ----------------------------------------------

  /** CONNECT commands in the CONNECT lane, nothing else there (application/core/command_factory.py). */
  ghost predicate FactoryLanes(lanes: Lanes) {
    forall l: TaskLane, x :: x in lanes[l] ==> (x.task.command.Connect? <==> l == ConnectLane)
  }

  ghost predicate AllIdle(devs: Devices) {
    forall ip :: ip in devs ==> !devs[ip].busy
  }

  lemma {:induction false} ConnectIsQueued(q: seq<Item>, ip: Ip) returns (x: Item)
    requires LaneHasConnect(q, ip)
    ensures x in q && ConnectFor(ip, x.task)
  {
    if ConnectFor(ip, q[0].task) {
      x := q[0];
    } else {
      x := ConnectIsQueued(q[1..], ip);
    }
  }

  lemma FactoryNeverBlocked(lanes: Lanes, devs: Devices, t: TaskSpec)
    requires FactoryLanes(lanes) && Blocked(lanes, devs, t)
    ensures lanes[ConnectLane] != []
  {
    var c: TaskLane :| LaneHasConnect(lanes[c], t.deviceIp);
    var y := ConnectIsQueued(lanes[c], t.deviceIp);
  }

  lemma FactoryNeverStuck(s: Sched, devs: Devices)
    requires FactoryLanes(s.lanes) && s.submitted == {} && AllIdle(devs)
    ensures !Stuck(s, devs)
  {
    hide Blocked, FactoryLanes;
    if Stuck(s, devs) {
      var l: TaskLane :| s.lanes[l] != [];
      FactoryNeverBlocked(s.lanes, devs, s.lanes[l][0].task);
      ConnectHeadIsFree(s, devs);
    }
  }

  lemma ConnectHeadIsFree(s: Sched, devs: Devices)
    requires FactoryLanes(s.lanes) && s.lanes[ConnectLane] != []
    ensures !Blocked(s.lanes, devs, s.lanes[ConnectLane][0].task)
  {
    assert s.lanes[ConnectLane][0] in s.lanes[ConnectLane];
  }

  lemma TailsKeepFactory(a: Lanes, b: Lanes)
    requires LaneTails(a, b) && FactoryLanes(b)
    ensures FactoryLanes(a)
  {
    forall l: TaskLane, x | x in a[l] ensures x.task.command.Connect? <==> l == ConnectLane {
      TailIndex(a[l], b[l]);
    }
  }

  lemma FactoryHasNoKnot(s: Sched, devs: Devices)
    requires FactoryLanes(s.lanes) && s.submitted == {} && AllIdle(devs)
    ensures !HasKnot(s, devs)
  {
    forall sub: Lanes | LaneTails(sub, s.lanes) ensures !Stuck(Sched(sub, s.submitted), devs) {
      TailsKeepFactory(sub, s.lanes);
      FactoryNeverStuck(Sched(sub, {}), devs);
    }
  }

  lemma EmptyHasNoLive(devs: Devices, lanes: Lanes)
    requires AllEmpty(lanes)
    ensures LiveTotal(devs, lanes) == 0
  {
  }

  /**
   * From idle actors and an empty submitted set, factory-built queues are drained: every lane
   * ends empty and the number returned is the number of queued tasks whose device has an actor.
   */
  lemma FactoryDrains(s: Sched, devs: Devices, maxSteps: int)
    requires WellLaned(s.lanes) && FactoryLanes(s.lanes) && s.submitted == {} && AllIdle(devs)
    requires RunUntilIdle(s, devs, 0, maxSteps).1 < maxSteps
    ensures var (f, n) := RunUntilIdle(s, devs, 0, maxSteps);
            AllEmpty(f.lanes) && n == LiveTotal(devs, s.lanes)
  {
    DrainsIffNoKnot(s, devs, maxSteps);
    FactoryHasNoKnot(s, devs);
    RunCounts(s, devs, 0, maxSteps);
    EmptyHasNoLive(devs, RunUntilIdle(s, devs, 0, maxSteps).0.lanes);
  }

  /** A bound above the number of live tasks is never reached. */
  lemma EnoughSteps(s: Sched, devs: Devices, maxSteps: int)
    requires WellLaned(s.lanes) && LiveTotal(devs, s.lanes) < maxSteps
    ensures RunUntilIdle(s, devs, 0, maxSteps).1 < maxSteps
  {
    RunCounts(s, devs, 0, maxSteps);
  }

  // ----- Keeping CONNECT in its lane is not enough ------------------------------------------------

  const CAMERA: Ip := "192.168.10.100"

  /** An INFO_LOAD of high priority placed in the CONNECT lane, ahead of the CONNECT it waits for. */
  function MisplacedInfo(): Lanes {
    var info := TaskSpec("info-1", CAMERA, InfoLoad, ConnectLane, 100, None);
    var connect := TaskSpec("connect-1", CAMERA, Connect, ConnectLane, 50, None);
    EMPTY_LANES[ConnectLane := [Item(100, 1, info), Item(50, 2, connect)]]
  }

  /** CONNECT is only in the CONNECT lane, yet the drain returns 0 and leaves two live tasks. */
  lemma MisplacedInfoIsNeverRun(maxSteps: int)
    requires maxSteps > 0
    ensures var devs: Devices := map[CAMERA := Device(false, false, false, true)];
            var s := Sched(MisplacedInfo(), {});
            var (f, n) := RunUntilIdle(s, devs, 0, maxSteps);
            && (forall l: TaskLane, x :: x in s.lanes[l] && x.task.command.Connect? ==> l == ConnectLane)
            && n == 0 && |f.lanes[ConnectLane]| == 2
  {
    hide DispatchReady, LiveTotal, RunUntilIdle;
    var devs: Devices := map[CAMERA := Device(false, false, false, true)];
    var s := Sched(MisplacedInfo(), {});
    MisplacedInfoIsStuck();
    RunKeepsKnot(s.lanes, s, devs, 0, maxSteps);
    var f := RunUntilIdle(s, devs, 0, maxSteps).0;
    forall l: TaskLane ensures f.lanes[l] == s.lanes[l] {
      RunShrinks(s, devs, 0, maxSteps, l);
      TailIndex(s.lanes[l], f.lanes[l]);
      TailsEqual(s.lanes[l], f.lanes[l]);
    }
    assert f.lanes == s.lanes;
    RunCounts(s, devs, 0, maxSteps);
  }

  lemma MisplacedInfoIsStuck()
    ensures Stuck(Sched(MisplacedInfo(), {}), map[CAMERA := Device(false, false, false, true)])
    ensures WellLaned(MisplacedInfo()) && LaneTails(MisplacedInfo(), MisplacedInfo())
  {
    var q := MisplacedInfo()[ConnectLane];
    assert LaneHasConnect(q[1..], CAMERA);
    assert LaneHasConnect(q, CAMERA);
  }

  lemma TailsEqual(a: seq<Item>, b: seq<Item>)
    requires IsTail(a, b) && |a| == |b|
    ensures a == b
  {
    if a == b {
    } else {
      TailIndex(a, b[1..]);
    }
  }

  /** A run only ever shortens a lane, from the front. */
  lemma {:induction false} RunShrinks(s: Sched, devs: Devices, steps: int, maxSteps: int, l: TaskLane)
    requires WellLaned(s.lanes)
    ensures |RunUntilIdle(s, devs, steps, maxSteps).0.lanes[l]| <= |s.lanes[l]|
    decreases Size(s.lanes)
  {
    hide DispatchReady, WellLaned;
    if steps == maxSteps {
    } else {
      OneIteration(s, devs);
      var p := DispatchReady(s, devs, ONE_EACH);
      TailIndex(p.sched.lanes[l], s.lanes[l]);
      if p.selected != [] {
        RunShrinks(Sched(p.sched.lanes, s.submitted), devs, steps + |p.selected|, maxSteps, l);
      }
    }
  }
}
