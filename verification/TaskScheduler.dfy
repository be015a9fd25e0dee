/** `TaskScheduler` (application/core/task_scheduler.py): heaps that refine the sorted lanes of Dispatch. */
module TaskScheduler {
  import opened Tasks
  import opened LaneHeap
  import opened Dispatch
  import opened Selection
  import Drain

  /** The heap `h` stores the sorted lane `s`; its sequence numbers have all been handed out. */
  ghost predicate Stores(h: seq<Item>, s: seq<Item>, nextSequence: nat) {
    && IsHeap(h)
    && Sorted(s)
    && multiset(h) == multiset(s)
    && forall x :: x in s ==> x.sequence < nextSequence
  }

  lemma {:induction false} LaneHasConnectAt(s: seq<Item>, ip: Ip)
    ensures LaneHasConnect(s, ip) <==> exists x :: x in s && ConnectFor(ip, x.task)
  {
    if s == [] {
    } else {
      LaneHasConnectAt(s[1..], ip);
      assert s == [s[0]] + s[1..];
    }
  }

  lemma HeapHasConnect(h: seq<Item>, s: seq<Item>, n: nat, ip: Ip)
    requires Stores(h, s, n)
    ensures LaneHasConnect(s, ip) <==> exists i :: 0 <= i < |h| && ConnectFor(ip, h[i].task)
  {
    LaneHasConnectAt(s, ip);
    if x :| x in s && ConnectFor(ip, x.task) {
      assert x in multiset(h);
    }
    forall i | 0 <= i < |h| && ConnectFor(ip, h[i].task) ensures LaneHasConnect(s, ip) {
      assert h[i] in multiset(s);
    }
  }

  lemma StoresPush(h: seq<Item>, s: seq<Item>, x: Item, r: seq<Item>)
    requires Stores(h, s, x.sequence)
    requires IsHeap(r) && multiset(r) == multiset(h) + multiset{x}
    ensures Stores(r, Insert(s, x), x.sequence + 1)
  {
    forall i | 0 <= i < |s| ensures s[i].sequence != x.sequence {
      assert s[i] in s;
    }
    InsertSorted(s, x);
    forall y | y in Insert(s, x) ensures y.sequence < x.sequence + 1 {
      assert y in multiset(Insert(s, x));
      assert y == x || y in multiset(s);
    }
  }

  lemma StoresMore(h: seq<Item>, s: seq<Item>, n: nat)
    requires Stores(h, s, n)
    ensures Stores(h, s, n + 1)
  {
  }

  lemma StoresHead(h: seq<Item>, s: seq<Item>, n: nat)
    requires Stores(h, s, n)
    ensures |h| == |s|
    ensures h != [] ==> h[0] == s[0]
  {
    RootIsHead(h, s);
  }

  lemma StoresPop(h: seq<Item>, s: seq<Item>, r: seq<Item>, n: nat)
    requires Stores(h, s, n) && h != []
    requires IsHeap(r) && multiset(h) == multiset{h[0]} + multiset(r)
    ensures s != [] && h[0] == s[0] && Stores(r, s[1..], n)
  {
    RootIsHead(h, s);
    TailItems(s);
  }

  lemma StoresIsHeap(h: seq<Item>, s: seq<Item>, n: nat)
    requires Stores(h, s, n)
    ensures IsHeap(h)
  {
  }

  lemma WellLanedPop(lanes: Lanes, l: TaskLane)
    requires WellLaned(lanes) && lanes[l] != []
    ensures WellLaned(Put(lanes, l, lanes[l][1..]))
  {
    forall y | y in lanes[l][1..] ensures y in lanes[l] {
    }
  }

  lemma DropDeadHead(devs: Devices, q: seq<Item>)
    ensures DropDead(devs, q) == if q != [] && Dead(devs, q[0].task) then DropDead(devs, q[1..]) else q
  {
  }

  lemma PutSame(lanes: Lanes, lane: TaskLane)
    ensures Put(lanes, lane, lanes[lane]) == lanes
  {
  }

  lemma DeadHead(devs: Devices, q: seq<Item>)
    ensures q != [] ==> (Dead(devs, q[0].task) <==> q[0].task.deviceIp == "" || q[0].task.deviceIp !in devs)
  {
  }

  lemma SkipDead(devs: Devices, lanes: Lanes, lane: TaskLane, q: seq<Item>)
    requires q != [] && Dead(devs, q[0].task)
    ensures DropDead(devs, q[1..]) == DropDead(devs, q)
    ensures Put(Put(lanes, lane, q), lane, q[1..]) == Put(lanes, lane, q[1..])
  {
    hide Put;
    DropDeadHead(devs, q);
    PutTwice(lanes, lane, q, q[1..]);
  }

  lemma PopReadyCases(s: Sched, devs: Devices, lane: TaskLane, q: seq<Item>)
    requires q == DropDead(devs, s.lanes[lane])
    ensures var lanes := Put(s.lanes, lane, q);
            PopReady(s, devs, lane)
            == if q == [] || !Dispatchable(lanes, s.submitted, devs, q[0].task) then (Sched(lanes, s.submitted), None)
               else (Sched(Put(s.lanes, lane, q[1..]), s.submitted + {q[0].task.deviceIp}), Some(q[0]))
  {
  }

  lemma ScanCases(p: Pass, devs: Devices, lim: Limits, order: seq<TaskLane>)
    ensures order == [] ==> ScanLanes(p, devs, lim, order) == (p, false)
    ensures order != [] && AtLimit(p, lim, order[0]) ==>
              ScanLanes(p, devs, lim, order) == ScanLanes(p, devs, lim, order[1..])
    ensures order != [] && !AtLimit(p, lim, order[0]) ==>
              var (sched, got) := PopReady(p.sched, devs, order[0]);
              ScanLanes(p, devs, lim, order)
              == if got.None? then ScanLanes(p.(sched := sched), devs, lim, order[1..])
                 else (Take(p, sched, got.value, order[0]), true)
  {
    hide PopReady, Take, AtLimit;
  }

  lemma RoundsCases(p: Pass, devs: Devices, lim: Limits)
    ensures var (q, picked) := ScanLanes(p, devs, lim, LANE_ORDER);
            Rounds(p, devs, lim) == if picked then Rounds(q, devs, lim) else q
  {
    hide ScanLanes;
  }

  lemma NoTasks()
    ensures TasksOf([]) == []
  {
  }

  lemma TasksAppend(items: seq<Item>, x: Item)
    ensures TasksOf(items + [x]) == TasksOf(items) + [x.task]
  {
  }

  lemma {:induction false} IpsOfTasks(items: seq<Item>, n: nat)
    requires n < |items|
    ensures IpsUpTo(items, n + 1) == IpsUpTo(items, n) + {TasksOf(items)[n].deviceIp}
  {
  }

  /** Every heap stores its sorted lane. */
  ghost predicate AllStored(queues: Lanes, lanes: Lanes, next: nat) {
    forall l: TaskLane :: Stores(queues[l], lanes[l], next)
  }

  lemma StoredAt(queues: Lanes, lanes: Lanes, next: nat, lane: TaskLane)
    requires AllStored(queues, lanes, next)
    ensures Stores(queues[lane], lanes[lane], next)
  {
  }

  lemma StoredPut(queues: Lanes, lanes: Lanes, next: nat, next': nat, lane: TaskLane, q: seq<Item>, s: seq<Item>)
    requires AllStored(queues, lanes, next) && Stores(q, s, next') && next <= next' <= next + 1
    ensures AllStored(Put(queues, lane, q), Put(lanes, lane, s), next')
  {
    hide Stores;
    forall l: TaskLane ensures Stores(Put(queues, lane, q)[l], Put(lanes, lane, s)[l], next') {
      StoresMore(queues[l], lanes[l], next);
    }
  }

  lemma NothingReleased(items: seq<Item>)
    ensures IpsUpTo(items, 0) == {}
  {
  }

  lemma NoIps(items: seq<Item>)
    requires TasksOf(items) == []
    ensures IpsOf(items) == {}
  {
  }

  /** An item has the number of its `enqueue` call, counted from one, and the priority of its task. */
  ghost predicate Numbered(enqueued: seq<TaskSpec>, x: Item) {
    && 1 <= x.sequence <= |enqueued| && enqueued[x.sequence - 1] == x.task
    && x.priority == x.task.priority
  }

  ghost predicate AllNumbered(enqueued: seq<TaskSpec>, lanes: Lanes) {
    forall l: TaskLane, x :: x in lanes[l] ==> Numbered(enqueued, x)
  }

  lemma NumberedPut(enqueued: seq<TaskSpec>, lanes: Lanes, l: TaskLane, q: seq<Item>)
    requires AllNumbered(enqueued, lanes) && forall x :: x in q ==> x in lanes[l]
    ensures AllNumbered(enqueued, Put(lanes, l, q))
  {
    hide Numbered;
  }

  lemma NumberedInsert(enqueued: seq<TaskSpec>, lanes: Lanes, x: Item)
    requires AllNumbered(enqueued, lanes) && x.sequence == |enqueued| + 1 && x.priority == x.task.priority
    ensures var l := x.task.lane; AllNumbered(enqueued + [x.task], Put(lanes, l, Insert(lanes[l], x)))
  {
    hide Insert, Put;
    var l := x.task.lane;
    forall k: TaskLane, y | y in Put(lanes, l, Insert(lanes[l], x))[k] ensures Numbered(enqueued + [x.task], y) {
      if k == l {
        assert y in multiset(Insert(lanes[l], x));
        assert y == x || y in multiset(lanes[l]);
      }
      if y != x {
        assert Numbered(enqueued, y);
      }
    }
  }

  /** Of two calls of `enqueue`, the one with `a` came first. */
  ghost predicate CameBefore(enqueued: seq<TaskSpec>, a: TaskSpec, b: TaskSpec) {
    exists i, j :: 0 <= i < j < |enqueued| && enqueued[i] == a && enqueued[j] == b
  }

  /** Of one lane, tasks of higher priority come first, and among equals those that were enqueued first. */
  ghost predicate InTurn(enqueued: seq<TaskSpec>, tasks: seq<TaskSpec>) {
    forall i, j :: 0 <= i < j < |tasks| && tasks[i].lane == tasks[j].lane ==>
      tasks[i].priority > tasks[j].priority
      || (tasks[i].priority == tasks[j].priority && CameBefore(enqueued, tasks[i], tasks[j]))
  }

  lemma TakenInTurn(enqueued: seq<TaskSpec>, s: Sched, devs: Devices, lim: Limits)
    requires WellLaned(s.lanes) && AllNumbered(enqueued, s.lanes) && forall l: TaskLane :: Sorted(s.lanes[l])
    ensures InTurn(enqueued, TasksOf(DispatchReady(s, devs, lim).selected))
  {
    hide DispatchReady, Sorted, WellLaned, AllNumbered;
    var selected := DispatchReady(s, devs, lim).selected;
    forall i, j | 0 <= i < j < |selected| && selected[i].task.lane == selected[j].task.lane
      ensures selected[i].task.priority > selected[j].task.priority
              || (selected[i].task.priority == selected[j].task.priority
                  && CameBefore(enqueued, selected[i].task, selected[j].task))
    {
      TakenInOrder(s, devs, lim, i, j);
      SelectedIsNumbered(enqueued, s, devs, lim, i);
      SelectedIsNumbered(enqueued, s, devs, lim, j);
      var x, y := selected[i], selected[j];
      assert x.sequence < y.sequence ==>
          enqueued[x.sequence - 1] == x.task && enqueued[y.sequence - 1] == y.task;
    }
  }

  lemma SelectedIsNumbered(enqueued: seq<TaskSpec>, s: Sched, devs: Devices, lim: Limits, i: nat)
    requires WellLaned(s.lanes) && AllNumbered(enqueued, s.lanes) && i < |DispatchReady(s, devs, lim).selected|
    ensures Numbered(enqueued, DispatchReady(s, devs, lim).selected[i])
  {
    hide DispatchReady, WellLaned, PassLaws, MayStart, HasNothing, BelowLimit;
    var p := SelectedIsNext(s, devs, lim, i);
    var x := DispatchReady(s, devs, lim).selected[i];
    var l := x.task.lane;
    LanesAreTails(s, p, devs, lim, l);
    TailIndex(p.sched.lanes[l], s.lanes[l]);
    assert x in p.sched.lanes[l];
  }

  class Scheduler {
    var queues: Lanes
    var nextSequence: nat
    var submitted: set<Ip>
    ghost var lanes: Lanes
    ghost var enqueued: seq<TaskSpec>

    ghost predicate Valid()
      reads this
    {
      && AllStored(queues, lanes, nextSequence)
      && WellLaned(lanes)
      && "" !in submitted
      && nextSequence == |enqueued| + 1 && AllNumbered(enqueued, lanes)
    }

    ghost function State(): Sched
      reads this
    {
      Sched(lanes, submitted)
    }

    constructor ()
      ensures Valid()
      ensures State() == Sched(EMPTY_LANES, {}) && nextSequence == 1 && enqueued == []
    {
      queues, nextSequence, submitted := EMPTY_LANES, 1, {};
      lanes, enqueued := EMPTY_LANES, [];
    }

    /** `enqueue`. */
    method Enqueue(task: TaskSpec)
      requires Valid()
      modifies this
      ensures Valid()
      ensures nextSequence == old(nextSequence) + 1 && enqueued == old(enqueued) + [task]
      ensures var x := Item(task.priority, old(nextSequence), task);
              State() == Sched(Put(old(lanes), task.lane, Insert(old(lanes)[task.lane], x)), old(submitted))
    {
      hide Stores, WellLaned, Insert, IsHeap, Put, AllNumbered, AllStored;
      var x := Item(task.priority, nextSequence, task);
      StoredAt(queues, lanes, nextSequence, task.lane);
      StoresIsHeap(queues[task.lane], lanes[task.lane], nextSequence);
      var q := HeapPush(queues[task.lane], x);
      StoresPush(queues[task.lane], lanes[task.lane], x, q);
      WellLanedInsert(lanes, x);
      StoredPut(queues, lanes, nextSequence, nextSequence + 1, task.lane, q, Insert(lanes[task.lane], x));
      NumberedInsert(enqueued, lanes, x);
      nextSequence, queues := nextSequence + 1, Put(queues, task.lane, q);
      lanes, enqueued := Put(lanes, task.lane, Insert(lanes[task.lane], x)), enqueued + [task];
    }

    /** `mark_task_finished`. */
    method MarkTaskFinished(deviceIp: Ip)
      requires Valid()
      modifies this`submitted
      ensures Valid()
      ensures submitted == old(submitted) - {deviceIp}
    {
      if deviceIp != "" {
        submitted := submitted - {deviceIp};
      }
    }

    /** `_has_pending_connect_for_device`. */
    method HasPendingConnectForDevice(deviceIp: Ip) returns (found: bool)
      requires Valid()
      ensures found <==> PendingConnect(lanes, deviceIp)
      ensures found <==> ConnectQueued(lanes, deviceIp)
    {
      hide Stores, WellLaned, LaneHasConnect, ConnectQueued;
      PendingIsQueued(lanes, deviceIp);
      for k := 0 to |LANE_ORDER|
        invariant forall j :: 0 <= j < k ==> !LaneHasConnect(lanes[LANE_ORDER[j]], deviceIp)
      {
        var queue := queues[LANE_ORDER[k]];
        HeapHasConnect(queue, lanes[LANE_ORDER[k]], nextSequence, deviceIp);
        for i := 0 to |queue|
          invariant forall j :: 0 <= j < i ==> !ConnectFor(deviceIp, queue[j].task)
        {
          if ConnectFor(deviceIp, queue[i].task) {
            return true;
          }
        }
      }
      forall l: TaskLane ensures !LaneHasConnect(lanes[l], deviceIp) {
        var k := EveryLaneIsOrdered(l);
      }
      return false;
    }

    /** `_is_blocked_by_connect_prerequisite`. */
    method IsBlockedByConnectPrerequisite(devs: Devices, task: TaskSpec) returns (blocked: bool)
      requires Valid()
      ensures blocked <==> Blocked(lanes, devs, task)
      ensures blocked <==>
                && task.command != Connect && task.deviceIp != "" && task.deviceIp in devs
                && devs[task.deviceIp].known && !devs[task.deviceIp].session && !devs[task.deviceIp].connected
                && ConnectQueued(lanes, task.deviceIp)
    {
      hide ConnectQueued;
      if task.command.Connect? || task.deviceIp == "" || task.deviceIp !in devs {
        return false;
      }
      var device := devs[task.deviceIp];
      if !device.known || device.session || device.connected {
        return false;
      }
      blocked := HasPendingConnectForDevice(task.deviceIp);
    }

    /** `heappop` on the queue of a lane. */
    method DropHead(lane: TaskLane) returns (x: Item)
      requires Valid() && queues[lane] != []
      modifies this`queues, this`lanes
      ensures Valid() && HeadAgrees(lane)
      ensures old(lanes)[lane] != [] && x == old(lanes)[lane][0] == old(queues)[lane][0]
      ensures lanes == Put(old(lanes), lane, old(lanes)[lane][1..])
    {
      hide Stores, WellLaned, IsHeap, Put, AllNumbered;
      assert Stores(queues[lane], lanes[lane], nextSequence);
      StoresIsHeap(queues[lane], lanes[lane], nextSequence);
      var r;
      x, r := HeapPop(queues[lane]);
      StoresPop(queues[lane], lanes[lane], r, nextSequence);
      WellLanedPop(lanes, lane);
      NumberedPut(enqueued, lanes, lane, lanes[lane][1..]);
      StoresHead(r, lanes[lane][1..], nextSequence);
      StoredPut(queues, lanes, nextSequence, nextSequence, lane, r, lanes[lane][1..]);
      queues := Put(queues, lane, r);
      lanes := Put(lanes, lane, lanes[lane][1..]);
    }

    /** The heap and the sorted lane show the same head. */
    ghost predicate HeadAgrees(lane: TaskLane)
      reads this
    {
      && |queues[lane]| == |lanes[lane]|
      && (queues[lane] != [] ==> queues[lane][0] == lanes[lane][0])
    }

    lemma HeadOf(lane: TaskLane)
      requires Valid()
      ensures HeadAgrees(lane)
    {
      hide Stores, WellLaned;
      assert Stores(queues[lane], lanes[lane], nextSequence);
      StoresHead(queues[lane], lanes[lane], nextSequence);
    }

    method MarkTaskSubmitted(deviceIp: Ip)
      requires Valid()
      modifies this`submitted
      ensures Valid()
      ensures submitted == if deviceIp == "" then old(submitted) else old(submitted) + {deviceIp}
    {
      if deviceIp != "" {
        submitted := submitted + {deviceIp};
      }
    }

    /** The part of `_pop_next_ready_task_for_lane` that keeps looping: dead tasks leave the queue. */
    method DropDeadTasks(devs: Devices, lane: TaskLane)
      requires Valid()
      modifies this`queues, this`lanes
      ensures Valid()
      ensures lanes == Put(old(lanes), lane, DropDead(devs, old(lanes)[lane]))
      ensures HeadAgrees(lane)
    {
      hide Valid, DropDead, Put, Dead;
      ghost var lanes0, q := lanes, lanes[lane];
      PutSame(lanes, lane);
      HeadOf(lane);
      while queues[lane] != [] && (queues[lane][0].task.deviceIp == "" || queues[lane][0].task.deviceIp !in devs)
        invariant Valid() && HeadAgrees(lane)
        invariant lanes == Put(lanes0, lane, q) && DropDead(devs, q) == DropDead(devs, lanes0[lane])
        decreases |q|
      {
        DeadHead(devs, q);
        SkipDead(devs, lanes0, lane, q);
        var _ := DropHead(lane);
        q := q[1..];
      }
      DeadHead(devs, q);
      DropDeadHead(devs, q);
    }

    /** `_pop_next_ready_task_for_lane`. */
    method PopNextReadyTaskForLane(devs: Devices, lane: TaskLane) returns (task: Option<TaskSpec>)
      requires Valid()
      modifies this`queues, this`lanes, this`submitted
      ensures Valid()
      ensures State() == PopReady(old(State()), devs, lane).0
      ensures var got := PopReady(old(State()), devs, lane).1;
              task == if got.None? then None else Some(got.value.task)
    {
      hide Valid, Blocked, PopReady, DropDead, Put;
      ghost var s0 := State();
      DropDeadTasks(devs, lane);
      ghost var q := lanes[lane];
      DropDeadHead(devs, s0.lanes[lane]);
      PopReadyCases(s0, devs, lane, q);
      if queues[lane] == [] {
        return None;
      }
      var head := queues[lane][0].task;
      if head.deviceIp in submitted {
        return None;
      }
      var blocked := IsBlockedByConnectPrerequisite(devs, head);
      if blocked || devs[head.deviceIp].busy {
        return None;
      }
      PutTwice(s0.lanes, lane, q, q[1..]);
      var _ := DropHead(lane);
      MarkTaskSubmitted(head.deviceIp);
      return Some(head);
    }

    /** The inner `for` of `dispatch_ready_tasks`: the first lane that is not at its limit and yields a task. */
    method PickOne(order: seq<TaskLane>, devs: Devices, lim: Limits, connectCount: nat, otherCount: nat, ghost p: Pass)
      returns (picked: Option<(TaskLane, TaskSpec)>, ghost p': Pass)
      requires Valid() && p.sched == State() && connectCount == p.connects && otherCount == p.others
      modifies this`queues, this`lanes, this`submitted
      ensures Valid() && p'.sched == State() && (p', picked.Some?) == ScanLanes(p, devs, lim, order)
      ensures picked.None? ==> p' == p.(sched := p'.sched)
      ensures picked.Some? ==>
                var (lane, task) := picked.value;
                && |p'.selected| == |p.selected| + 1 && p'.selected[..|p.selected|] == p.selected
                && task == p'.selected[|p.selected|].task
                && p'.connects == p.connects + (if lane.ConnectLane? then 1 else 0)
                && p'.others == p.others + (if lane.ConnectLane? then 0 else 1)
    {
      hide Valid, Size, PopReady, ScanLanes;
      p' := p;
      for k := 0 to |order|
        invariant Valid() && p'.sched == State() && p' == p.(sched := p'.sched)
        invariant ScanLanes(p', devs, lim, order[k..]) == ScanLanes(p, devs, lim, order)
      {
        var lane := order[k];
        ScanCases(p', devs, lim, order[k..]);
        assert order[k..][1..] == order[k + 1..];
        if if lane.ConnectLane? then connectCount >= lim.connect else otherCount >= lim.other {
          continue;
        }
        ghost var got := PopReady(p'.sched, devs, lane).1;
        var task := PopNextReadyTaskForLane(devs, lane);
        if task.None? {
          p' := p'.(sched := State());
          continue;
        }
        p' := Take(p', State(), got.value, lane);
        return Some((lane, task.value)), p';
      }
      ScanCases(p', devs, lim, []);
      assert order[|order|..] == [];
      picked := None;
    }

    /** `dispatch_ready_tasks`: the greedy selection over the sorted lanes. */
    method DispatchReadyTasks(devs: Devices, connectLimit: int, otherLimit: int) returns (selected: seq<TaskSpec>)
      requires Valid()
      modifies this`queues, this`lanes, this`submitted
      ensures Valid()
      ensures State() == DispatchReady(old(State()), devs, Limits(connectLimit, otherLimit)).sched
      ensures selected == TasksOf(DispatchReady(old(State()), devs, Limits(connectLimit, otherLimit)).selected)
      ensures InTurn(enqueued, selected)
    {
      hide Valid, Size, TasksOf, PopReady, ScanLanes, Rounds, InTurn, DispatchReady;
      Turns(devs, Limits(connectLimit, otherLimit));
      DispatchIsRounds(State(), devs, Limits(connectLimit, otherLimit));
      var lim := Limits(connectLimit, otherLimit);
      ghost var p := Pass(State(), [], 0, 0);
      selected := [];
      NoTasks();
      var connectCount, otherCount := 0, 0;
      while true
        invariant Valid() && p.sched == State() && selected == TasksOf(p.selected)
        invariant connectCount == p.connects && otherCount == p.others
        invariant Rounds(p, devs, lim) == DispatchReady(old(State()), devs, lim)
        decreases Size(p.sched.lanes)
      {
        RoundsCases(p, devs, lim);
        ghost var before := p.selected;
        var picked;
        picked, p := PickOne(LANE_ORDER, devs, lim, connectCount, otherCount, p);
        if picked.None? {
          break;
        }
        var (lane, task) := picked.value;
        assert p.selected == before + [p.selected[|before|]];
        TasksAppend(before, p.selected[|before|]);
        selected := selected + [task];
        if lane.ConnectLane? {
          connectCount := connectCount + 1;
        } else {
          otherCount := otherCount + 1;
        }
      }
    }

    lemma Turns(devs: Devices, lim: Limits)
      requires Valid()
      ensures InTurn(enqueued, TasksOf(DispatchReady(State(), devs, lim).selected))
    {
      hide WellLaned, AllNumbered, InTurn, DispatchReady, TasksOf;
      forall l: TaskLane ensures Sorted(lanes[l]) {
        assert Stores(queues[l], lanes[l], nextSequence);
      }
      TakenInTurn(enqueued, State(), devs, lim);
    }

    lemma DispatchIsRounds(s: Sched, devs: Devices, lim: Limits)
      ensures DispatchReady(s, devs, lim) == Rounds(Pass(s, [], 0, 0), devs, lim)
    {
      hide Rounds, Size;
    }

    /** The release loop of `run_until_idle`. */
    method ReleaseAll(tasks: seq<TaskSpec>, ghost p: Pass)
      requires Valid() && State() == p.sched && tasks == TasksOf(p.selected)
      modifies this`submitted
      ensures Valid() && State() == Sched(p.sched.lanes, p.sched.submitted - IpsOf(p.selected))
    {
      hide Valid, TasksOf, IpsUpTo;
      NothingReleased(p.selected);
      for i := 0 to |tasks|
        invariant Valid() && lanes == p.sched.lanes
        invariant submitted == p.sched.submitted - IpsUpTo(p.selected, i)
      {
        IpsOfTasks(p.selected, i);
        MarkTaskFinished(tasks[i].deviceIp);
      }
    }

    lemma Bounded(devs: Devices, maxSteps: int)
      requires Valid()
      ensures var n := Drain.RunUntilIdle(State(), devs, 0, maxSteps).1;
              if maxSteps > 0 then n <= maxSteps + 1 else n == 0
    {
      hide WellLaned, AllStored, AllNumbered;
      Drain.RunIsBounded(State(), devs, 0, maxSteps);
    }

    /** `run_until_idle`. */
    method RunUntilIdle(devs: Devices, maxSteps: int) returns (steps: int)
      requires Valid()
      modifies this`queues, this`lanes, this`submitted
      ensures Valid()
      ensures (State(), steps) == Drain.RunUntilIdle(old(State()), devs, 0, maxSteps)
      ensures if maxSteps > 0 then steps <= maxSteps + 1 else steps == 0
    {
      hide DispatchReady, Size, Valid, Put, TasksOf, IpsOf;
      Bounded(devs, maxSteps);
      steps := 0;
      while steps < maxSteps
        invariant Valid()
        invariant Drain.RunUntilIdle(State(), devs, steps, maxSteps)
                  == Drain.RunUntilIdle(old(State()), devs, 0, maxSteps)
        decreases Size(lanes)
      {
        ghost var p := DispatchReady(State(), devs, Limits(1, 1));
        var tasks := DispatchReadyTasks(devs, 1, 1);
        if tasks == [] {
          NoIps(p.selected);
          break;
        }
        ReleaseAll(tasks, p);
        steps := steps + |tasks|;
      }
    }
  }
}
