/**
 * `AppSupervisor` (application/core/app_supervisor.py): its methods carry out steps of the runtime
 * protocol. Executors are outside: submitting puts the task into the protocol's pool.
 */
module AppSupervisor {
  import opened Tasks
  import opened Text
  import opened Counting
  import opened Distinct
  import opened Dispatch
  import opened Runtime
  import opened RuntimeLaws
  import TaskScheduler

  const CONNECT_LIMIT := 8
  const OTHER_LIMIT := 4

  lemma {:induction false} ReachesPicks(es: seq<Event>, s: State, lanes: seq<TaskLane>, devs: Devices)
    returns (es': seq<Event>)
    requires Reaches(es, s)
    ensures Reaches(es', PickAll(s, lanes, devs)) && es <= es'
    decreases |lanes|
  {
    hide Reaches, Pick;
    if lanes == [] {
      es' := es;
    } else {
      ReachesStep(es, s, Picked(lanes[0], devs));
      es' := ReachesPicks(es + [Picked(lanes[0], devs)], Pick(s, lanes[0], devs), lanes[1..], devs);
    }
  }

  /** Picking only changes the lanes, what is selected and what is lost. */
  lemma {:induction false} PickAllFrame(s: State, lanes: seq<TaskLane>, devs: Devices)
    ensures var r := PickAll(s, lanes, devs);
            r == s.(sched := r.sched, selected := r.selected, lost := r.lost)
    decreases |lanes|
  {
    hide PopReady, DroppedBy;
    if lanes == [] {
    } else {
      PickAllFrame(Pick(s, lanes[0], devs), lanes[1..], devs);
    }
  }

  lemma {:induction false} DroppedAreDead(devs: Devices, q: seq<Item>)
    ensures forall i :: 0 <= i < |DroppedBy(devs, q)| ==> Dead(devs, DroppedBy(devs, q)[i])
  {
    if q == [] || !Dead(devs, q[0].task) {
    } else {
      DroppedAreDead(devs, q[1..]);
    }
  }

  /** What picks lose are dead tasks. */
  lemma {:induction false} PickAllDrops(s: State, lanes: seq<TaskLane>, devs: Devices) returns (dropped: seq<TaskSpec>)
    ensures PickAll(s, lanes, devs).lost == s.lost + dropped
    ensures forall i :: 0 <= i < |dropped| ==> Dead(devs, dropped[i])
    decreases |lanes|
  {
    hide PopReady, Dead, DroppedBy;
    dropped := [];
    if lanes == [] {
    } else {
      DroppedAreDead(devs, s.sched.lanes[lanes[0]]);
      var rest := PickAllDrops(Pick(s, lanes[0], devs), lanes[1..], devs);
      dropped := DroppedBy(devs, s.sched.lanes[lanes[0]]) + rest;
    }
  }

  /** The tasks whose mark is `ok`, in order. */
  ghost function Chosen(tasks: seq<TaskSpec>, taken: seq<bool>, ok: bool): seq<TaskSpec>
    requires |tasks| == |taken|
  {
    if tasks == [] then []
    else
      var n := |tasks| - 1;
      Chosen(tasks[..n], taken[..n], ok) + if taken[n] == ok then [tasks[n]] else []
  }

  ghost function IpSet(tasks: seq<TaskSpec>): set<Ip> {
    set t | t in tasks :: t.deviceIp
  }

  lemma ChosenNext(tasks: seq<TaskSpec>, taken: seq<bool>, t: TaskSpec, ok: bool)
    requires |tasks| == |taken|
    ensures Chosen(tasks + [t], taken + [ok], ok) == Chosen(tasks, taken, ok) + [t]
    ensures Chosen(tasks + [t], taken + [ok], !ok) == Chosen(tasks, taken, !ok)
    ensures IpSet(Chosen(tasks, taken, ok) + [t]) == IpSet(Chosen(tasks, taken, ok)) + {t.deviceIp}
  {
    assert (tasks + [t])[..|tasks|] == tasks && (taken + [ok])[..|tasks|] == taken;
  }

  /** From `s` to `r`, the tasks marked in `taken` entered the pool, and the others were released and lost. */
  ghost predicate HandedOver(s: State, r: State, tasks: seq<TaskSpec>, taken: seq<bool>) {
    && |taken| == |tasks|
    && r.pool == s.pool + Chosen(tasks, taken, true)
    && r.lost == s.lost + Chosen(tasks, taken, false)
    && r.sched == Sched(s.sched.lanes, s.sched.submitted - IpSet(Chosen(tasks, taken, false)))
  }

  /** The first tasks, those that `taken` marks, have been handed over; the others are still selected. */
  ghost predicate HandedOverTo(s: State, r: State, tasks: seq<TaskSpec>, taken: seq<bool>) {
    |taken| <= |tasks| && r.selected == tasks[|taken|..] && HandedOver(s, r, tasks[..|taken|], taken)
  }

  lemma HandOverStart(s: State)
    ensures HandedOverTo(s, s, s.selected, [])
  {
    assert s.selected[..0] == [];
  }

  lemma HandOverOne(s: State, p: State, r: State, tasks: seq<TaskSpec>, taken: seq<bool>, ok: bool)
    requires HandedOverTo(s, p, tasks, taken) && |taken| < |tasks| && r.selected == p.selected[1..]
    requires var t := tasks[|taken|];
             && r.pool == (if ok then p.pool + [t] else p.pool)
             && r.lost == (if ok then p.lost else p.lost + [t])
             && r.sched == (if ok then p.sched else Sched(p.sched.lanes, p.sched.submitted - {t.deviceIp}))
    ensures HandedOverTo(s, r, tasks, taken + [ok])
  {
    hide Chosen, IpSet;
    var n := |taken|;
    assert tasks[..n + 1] == tasks[..n] + [tasks[n]];
    ChosenNext(tasks[..n], taken, tasks[n], ok);
  }

  lemma HandOverEnd(s: State, r: State, tasks: seq<TaskSpec>, taken: seq<bool>)
    requires HandedOverTo(s, r, tasks, taken) && |taken| == |tasks|
    ensures HandedOver(s, r, tasks, taken) && r.selected == []
  {
    assert tasks[..|tasks|] == tasks;
  }

  lemma NextOf(s: State, r: State, tasks: seq<TaskSpec>, taken: seq<bool>)
    requires HandedOverTo(s, r, tasks, taken) && |taken| < |tasks|
    ensures r.selected != [] && r.selected[0] == tasks[|taken|]
  {
  }

  function ConnectTask(ip: Ip, id: BatchId): TaskSpec {
    TaskSpec("connect", ip, Connect, ConnectLane, 50, Some(id))
  }

  function ConnectTasks(ips: seq<Ip>, id: BatchId): (ts: seq<TaskSpec>)
    ensures |ts| == |ips|
    ensures forall i :: 0 <= i < |ips| ==> ts[i] == ConnectTask(ips[i], id)
  {
    seq(|ips|, i requires 0 <= i < |ips| => ConnectTask(ips[i], id))
  }

  class Supervisor {
    const scheduler: TaskScheduler.Scheduler
    var completionQueue: seq<Completion>
    var connectBatches: map<BatchId, Batch>
    var nextBatch: nat
    var connectExecutor: bool
    var defaultExecutor: bool

    /** The fields of this object and of its scheduler are those of protocol state `s`. */
    ghost predicate Mirrors(s: State)
      reads this, scheduler
    {
      && scheduler.Valid()
      && scheduler.State() == s.sched
      && scheduler.nextSequence == s.nextSequence
      && completionQueue == s.done
      && connectBatches == s.batches
      && nextBatch == |s.started|
    }

    constructor ()
      ensures Mirrors(INIT) && fresh(scheduler)
    {
      scheduler := new TaskScheduler.Scheduler();
      completionQueue, connectBatches, nextBatch := [], map[], 0;
      connectExecutor, defaultExecutor := false, false;
    }

    ghost predicate SameExecutors(connect: bool, other: bool)
      reads this
    {
      connectExecutor == connect && defaultExecutor == other
    }

    /** The executor that a task goes to is there. */
    predicate HasExecutor(t: TaskSpec)
      reads this
    {
      if t.command.Connect? then connectExecutor else defaultExecutor
    }

    /** `start` makes the executors. */
    method Start()
      modifies this`connectExecutor, this`defaultExecutor
      ensures forall t :: HasExecutor(t)
    {
      connectExecutor, defaultExecutor := true, true;
    }

    /** `stop` gives them up. */
    method Stop()
      modifies this`connectExecutor, this`defaultExecutor
      ensures forall t :: !HasExecutor(t)
    {
      connectExecutor, defaultExecutor := false, false;
    }

    /** The tasks taken are those whose executor was there and accepted them. */
    ghost predicate Taken(tasks: seq<TaskSpec>, accepts: nat -> bool, taken: seq<bool>)
      reads this
    {
      && |taken| <= |tasks|
      && forall i: nat :: i < |taken| ==>
           (taken[i] <==> accepts(i) && if tasks[i].command == Connect then connectExecutor else defaultExecutor)
    }

    /** `enqueue_connect_batch`, with no other thread in between: the batch is stored, then each task enqueued. */
    method EnqueueConnectBatch(ips: seq<Ip>, autoInfo: bool, ghost es: seq<Event>, ghost s: State)
      returns (id: BatchId, ghost es': seq<Event>, ghost s': State)
      requires Mirrors(s) && Reaches(es, s) && s.incoming == []
      modifies this, scheduler
      ensures Mirrors(s') && Reaches(es', s') && es <= es' && s'.incoming == []
      ensures id == old(nextBatch) && nextBatch == id + 1
      ensures connectBatches == old(connectBatches)[id := Batch(|ips|, [], [], autoInfo)]
      ensures es' == es + [BatchOpened(ConnectTasks(ips, id), autoInfo)] + seq(|ips|, _ => IncomingEnqueued(0))
      ensures s' == PushAll(OpenBatch(s, ConnectTasks(ips, id), autoInfo).(incoming := []), ConnectTasks(ips, id))
      ensures s'.accepted == s.accepted + ConnectTasks(ips, id)
      ensures forall i :: 0 <= i < |ips| ==>
                s'.accepted[|s.accepted| + i] == TaskSpec("connect", ips[i], Connect, ConnectLane, 50, Some(id))
    {
      hide Reaches, Push, PushAll, ConnectTasks, TaskScheduler.Scheduler.Valid;
      id := nextBatch;
      ghost var ts := ConnectTasks(ips, id);
      ReachesStep(es, s, BatchOpened(ts, autoInfo));
      es', s' := es + [BatchOpened(ts, autoInfo)], OpenBatch(s, ts, autoInfo);
      connectBatches := connectBatches[id := Batch(|ips|, [], [], autoInfo)];
      nextBatch := nextBatch + 1;
      es', s' := EnqueueRequests(ips, id, es', s');
      PushAllFrame(OpenBatch(s, ts, autoInfo).(incoming := []), ts);
    }

    /** The loop of `enqueue_connect_batch`. */
    method EnqueueRequests(ips: seq<Ip>, id: BatchId, ghost es: seq<Event>, ghost s: State)
      returns (ghost es': seq<Event>, ghost s': State)
      requires Mirrors(s) && Reaches(es, s) && s.incoming == ConnectTasks(ips, id)
      modifies scheduler
      ensures Mirrors(s') && Reaches(es', s') && es' == es + seq(|ips|, _ => IncomingEnqueued(0))
      ensures s' == PushAll(s.(incoming := []), ConnectTasks(ips, id))
    {
      hide Reaches, Push, PushAll, Mirrors;
      ghost var ts := ConnectTasks(ips, id);
      es', s' := es, s;
      for i := 0 to |ips|
        invariant Mirrors(s') && Reaches(es', s') && es' == es + seq(i, _ => IncomingEnqueued(0))
        invariant s'.incoming == ts[i..]
        invariant PushAll(s'.(incoming := []), ts[i..]) == PushAll(s.(incoming := []), ts)
      {
        es', s' := EnqueueRequest(ips, i, id, es', s');
      }
      PushNothing(s'.(incoming := []));
    }

    /** One request of `enqueue_connect_batch`. */
    method EnqueueRequest(ips: seq<Ip>, i: nat, id: BatchId, ghost es: seq<Event>, ghost s: State)
      returns (ghost es': seq<Event>, ghost s': State)
      requires i < |ips| && Mirrors(s) && Reaches(es, s) && s.incoming == ConnectTasks(ips, id)[i..]
      modifies scheduler
      ensures Mirrors(s') && Reaches(es', s') && es' == es + [IncomingEnqueued(0)]
      ensures s'.incoming == ConnectTasks(ips, id)[i + 1..]
      ensures PushAll(s'.(incoming := []), s'.incoming) == PushAll(s.(incoming := []), s.incoming)
    {
      hide Reaches, Mirrors, Push, EnqueueIncoming;
      ghost var ts := ConnectTasks(ips, id);
      IncomingStep(es, s, ts, i);
      EnqueueOne(ConnectTask(ips[i], id), s);
      MirrorsSame(Push(s, ts[i]), EnqueueIncoming(s, 0));
      es', s' := es + [IncomingEnqueued(0)], EnqueueIncoming(s, 0);
      PushFirst(s, s', ts[i]);
    }

    lemma PushFirst(s: State, r: State, t: TaskSpec)
      requires s.incoming != [] && s.incoming[0] == t && r == Push(s, t).(incoming := s.incoming[1..])
      ensures PushAll(r.(incoming := []), r.incoming) == PushAll(s.(incoming := []), s.incoming)
    {
      hide Insert, Put;
      assert r.(incoming := []) == Push(s.(incoming := []), t);
    }

    lemma PushNothing(s: State)
      ensures PushAll(s, []) == s
    {
    }

    /** `scheduler.enqueue`, seen from the protocol. */
    method EnqueueOne(t: TaskSpec, ghost s: State)
      requires Mirrors(s)
      modifies scheduler
      ensures Mirrors(Push(s, t))
    {
      hide TaskScheduler.Scheduler.Valid, Insert, Put;
      PushIs(s, t);
      scheduler.Enqueue(t);
    }

    /** `scheduler.mark_task_finished`, seen from the protocol. */
    method FinishOne(ip: Ip, ghost s: State)
      requires Mirrors(s)
      modifies scheduler
      ensures Mirrors(s.(sched := Release(s.sched, ip)))
    {
      hide TaskScheduler.Scheduler.Valid;
      scheduler.MarkTaskFinished(ip);
    }

    lemma MirrorsSame(s: State, r: State)
      requires Mirrors(s)
      requires r.sched == s.sched && r.nextSequence == s.nextSequence && r.done == s.done
      requires r.batches == s.batches && |r.started| == |s.started|
      ensures Mirrors(r)
    {
      hide TaskScheduler.Scheduler.Valid;
    }

    lemma IncomingStep(es: seq<Event>, s: State, ts: seq<TaskSpec>, i: nat)
      requires Reaches(es, s) && i < |ts| && s.incoming == ts[i..]
      ensures Reaches(es + [IncomingEnqueued(0)], EnqueueIncoming(s, 0))
      ensures s.incoming[0] == ts[i] && EnqueueIncoming(s, 0).incoming == ts[i + 1..]
      ensures EnqueueIncoming(s, 0) == Push(s, ts[i]).(incoming := ts[i + 1..])
      ensures Push(s, ts[i]).accepted == s.accepted
    {
      hide Reaches, Push;
      ReachesStep(es, s, IncomingEnqueued(0));
      PushIs(s, s.incoming[0]);
      assert Without(s.incoming, 0) == ts[i + 1..];
    }

    lemma PushIs(s: State, t: TaskSpec)
      ensures var r := Push(s, t);
              && r == s.(sched := r.sched, nextSequence := s.nextSequence + 1)
              && r.sched == Sched(Put(s.sched.lanes, t.lane,
                                      Insert(s.sched.lanes[t.lane], Item(t.priority, s.nextSequence, t))),
                                  s.sched.submitted)
    {
    }

    /** `enqueue_info_load` and `enqueue_status_poll` for each device, in order. */
    method EnqueueFollowUps(ips: seq<Ip>, connected: set<Ip>, ghost s: State)
      requires Mirrors(s)
      modifies scheduler
      ensures Mirrors(PushAll(s, FollowUps(ips, connected)))
    {
      hide Push, PushAll, Mirrors, FollowUps;
      ghost var r := s;
      for i := 0 to |ips|
        invariant Mirrors(r)
        invariant PushAll(r, FollowUps(ips[i..], connected)) == PushAll(s, FollowUps(ips, connected))
      {
        FollowUpsNext(r, ips[i..], connected);
        assert ips[i..][1..] == ips[i + 1..];
        if ips[i] in connected {
          EnqueueOne(InfoTask(ips[i]), r);
          r := Push(r, InfoTask(ips[i]));
          EnqueueOne(HotPollTask(ips[i]), r);
          r := Push(r, HotPollTask(ips[i]));
        }
      }
      FollowUpsEnd(r, connected);
      assert ips[|ips|..] == [];
    }

    lemma FollowUpsNext(s: State, ips: seq<Ip>, connected: set<Ip>)
      requires ips != []
      ensures PushAll(s, FollowUps(ips, connected))
              == PushAll(if ips[0] in connected then Push(Push(s, InfoTask(ips[0])), HotPollTask(ips[0])) else s,
                         FollowUps(ips[1..], connected))
    {
      hide Push;
      var rest := FollowUps(ips[1..], connected);
      if ips[0] in connected {
        var ts := [InfoTask(ips[0]), HotPollTask(ips[0])] + rest;
        assert ts[1..] == [HotPollTask(ips[0])] + rest;
        assert ts[1..][1..] == rest;
      } else {
        assert [] + rest == rest;
      }
    }

    lemma FollowUpsEnd(s: State, connected: set<Ip>)
      ensures PushAll(s, FollowUps([], connected)) == s
    {
    }

    /** `_handle_connect_completion`; `connected` holds the devices that are connected with a session. */
    method HandleConnectCompletion(task: TaskSpec, ok: bool, connected: set<Ip>, ghost s: State)
      requires Mirrors(s)
      modifies this, scheduler
      ensures Mirrors(CloseConnect(s, task, ok, connected))
      ensures task.batch.None? || Strip(task.deviceIp) == "" || task.batch.value !in old(connectBatches) ==>
                connectBatches == old(connectBatches)
      ensures task.batch.Some? && Strip(task.deviceIp) != "" && task.batch.value in old(connectBatches) ==>
                var o := old(connectBatches)[task.batch.value];
                connectBatches ==
                if o.remaining < 2 then old(connectBatches) - {task.batch.value}
                else old(connectBatches)[task.batch.value :=
                       Batch(o.remaining - 1,
                             if ok then o.success + [Strip(task.deviceIp)] else o.success,
                             if ok then o.failed else o.failed + [Strip(task.deviceIp)],
                             o.autoInfo)]
      ensures completionQueue == old(completionQueue) && SameExecutors(old(connectExecutor), old(defaultExecutor))
    {
      hide Strip, FirstOccurrences, FollowUps, PushAll;
      if task.batch.None? {
        return;
      }
      var ip := Strip(task.deviceIp);
      if ip == "" {
        return;
      }
      var id := task.batch.value;
      if id !in connectBatches {
        return;
      }
      var state := connectBatches[id];
      var remaining := if state.remaining > 0 then state.remaining - 1 else state.remaining;
      state := Batch(remaining,
                     if ok then state.success + [ip] else state.success,
                     if ok then state.failed else state.failed + [ip],
                     state.autoInfo);
      if state.remaining > 0 {
        connectBatches := connectBatches[id := state];
        return;
      }
      connectBatches := connectBatches - {id};
      ghost var follow := if state.autoInfo then FollowUps(FirstOccurrences(state.success), connected) else [];
      ghost var r := s.(batches := s.batches - {id},
                        finished := s.finished + [Finished(id, state.success, state.failed)],
                        accepted := s.accepted + follow);
      if state.autoInfo {
        EnqueueFollowUps(FirstOccurrences(state.success), connected, r);
      } else {
        PushNothing(r);
      }
    }

    /** One iteration of `_drain_completion_queue`. */
    method DrainOne(connected: set<Ip>, ghost es: seq<Event>, ghost s: State)
      returns (ghost es': seq<Event>, ghost s': State)
      requires Mirrors(s) && Reaches(es, s) && completionQueue != []
      modifies this, scheduler
      ensures Mirrors(s') && Reaches(es', s') && s'.selected == s.selected
      ensures completionQueue == old(completionQueue)[1..] && SameExecutors(old(connectExecutor), old(defaultExecutor))
      ensures es' == es + [Drained(connected)]
    {
      hide Reaches, CloseConnect, Strip, TaskScheduler.Scheduler.Valid;
      ReachesStep(es, s, Drained(connected));
      es', s' := es + [Drained(connected)], Runtime.Drain(s, connected);
      DrainKeepsDone(s, connected);
      var c := completionQueue[0];
      FinishOne(c.task.deviceIp, s);
      completionQueue := completionQueue[1..];
      ghost var q := s.(done := s.done[1..], sched := Release(s.sched, c.task.deviceIp));
      if c.task.command.Connect? {
        ghost var lost := c.task.batch.Some? && Strip(c.task.deviceIp) == "";
        HandleConnectCompletion(c.task, c.ok, connected, if lost then q else q.(drained := q.drained + [c.task]));
      }
    }

    /**
     * `_drain_completion_queue`: one Drained step for every queued completion, in order. `connected` tells which
     * devices are connected with a session when the `i`-th completion is drained.
     */
    method DrainCompletionQueue(connected: nat -> set<Ip>, ghost es: seq<Event>, ghost s: State)
      returns (ghost es': seq<Event>, ghost s': State)
      requires Mirrors(s) && Reaches(es, s)
      modifies this, scheduler
      ensures Mirrors(s') && Reaches(es', s') && completionQueue == [] && s'.selected == s.selected
      ensures es <= es' && |es'| == |es| + |old(completionQueue)|
      ensures forall i :: |es| <= i < |es'| ==> es'[i] == Drained(connected(i - |es|))
      ensures SameExecutors(old(connectExecutor), old(defaultExecutor))
    {
      hide Reaches, Mirrors;
      es', s' := es, s;
      var drained := 0;
      while completionQueue != []
        invariant Mirrors(s') && Reaches(es', s') && s'.selected == s.selected
        invariant es <= es' && |es'| + |completionQueue| == |es| + |old(completionQueue)|
        invariant drained == |es'| - |es|
        invariant forall i :: |es| <= i < |es'| ==> es'[i] == Drained(connected(i - |es|))
        invariant SameExecutors(old(connectExecutor), old(defaultExecutor))
        decreases |completionQueue|
      {
        es', s' := DrainOne(connected(drained), es', s');
        drained := drained + 1;
      }
    }

    lemma CloseKeepsDone(s: State, t: TaskSpec, ok: bool, connected: set<Ip>)
      ensures var r := CloseConnect(s, t, ok, connected); r.done == s.done && r.selected == s.selected
    {
      hide Strip, FirstOccurrences, FollowUps, PushAll;
      if t.batch.Some? && t.batch.value in s.batches {
        var b := Tally(s.batches[t.batch.value], Strip(t.deviceIp), ok);
        var follow := if b.autoInfo then FollowUps(FirstOccurrences(b.success), connected) else [];
        var r := s.(batches := s.batches - {t.batch.value},
                    finished := s.finished + [Finished(t.batch.value, b.success, b.failed)],
                    accepted := s.accepted + follow);
        PushAllFrame(r, follow);
      }
    }

    lemma DrainKeepsDone(s: State, connected: set<Ip>)
      requires s.done != []
      ensures var r := Runtime.Drain(s, connected); r.done == s.done[1..] && r.selected == s.selected
    {
      hide CloseConnect, Strip;
      var c := s.done[0];
      var r := s.(done := s.done[1..], sched := Release(s.sched, c.task.deviceIp));
      CloseKeepsDone(r, c.task, c.ok, connected);
      CloseKeepsDone(r.(drained := s.drained + [c.task]), c.task, c.ok, connected);
    }

    /** `_submit_task`: fails without its executor, and when the executor refuses. */
    method SubmitTask(task: TaskSpec, accepts: bool) returns (ok: bool)
      ensures ok <==> accepts && if task.command == Connect then connectExecutor else defaultExecutor
    {
      if !HasExecutor(task) {
        return false;
      }
      ok := accepts;
    }

    /**
     * The submit loop of `_scheduler_loop`: each task is handed to its executor or, when that fails, released
     * and given up. `accepts` tells whether its executor accepts the `i`-th task, `taken` which were taken.
     */
    method SubmitAll(tasks: seq<TaskSpec>, accepts: nat -> bool, ghost es: seq<Event>, ghost s: State)
      returns (dispatchedAny: bool, ghost taken: seq<bool>, ghost es': seq<Event>, ghost s': State)
      requires Mirrors(s) && Reaches(es, s) && s.selected == tasks
      modifies scheduler
      ensures Mirrors(s') && Reaches(es', s') && es <= es' && s'.selected == []
      ensures HandedOver(s, s', tasks, taken)
      ensures Taken(tasks, accepts, taken) && (dispatchedAny <==> true in taken)
    {
      hide Reaches, Mirrors, HandedOver, HandedOverTo, Taken;
      dispatchedAny, taken := false, [];
      es', s' := es, s;
      HandOverStart(s);
      ExecutorsStart(tasks, accepts);
      for i := 0 to |tasks|
        invariant Mirrors(s') && Reaches(es', s') && es <= es'
        invariant |taken| == i && Taken(tasks, accepts, taken) && (dispatchedAny <==> true in taken)
        invariant HandedOverTo(s, s', tasks, taken)
      {
        NextOf(s, s', tasks, taken);
        ghost var p := s';
        var ok;
        ok, es', s' := SubmitOne(tasks[i], accepts(i), es', s');
        HandOverOne(s, p, s', tasks, taken, ok);
        ExecutorsNext(tasks, accepts, taken, ok);
        dispatchedAny := dispatchedAny || ok;
        taken := taken + [ok];
      }
      HandOverEnd(s, s', tasks, taken);
    }

    lemma ExecutorsStart(tasks: seq<TaskSpec>, accepts: nat -> bool)
      ensures Taken(tasks, accepts, [])
    {
    }

    lemma ExecutorsNext(tasks: seq<TaskSpec>, accepts: nat -> bool, taken: seq<bool>, ok: bool)
      requires |taken| < |tasks| && Taken(tasks, accepts, taken)
      requires ok <==> accepts(|taken|) && HasExecutor(tasks[|taken|])
      ensures Taken(tasks, accepts, taken + [ok])
    {
    }

    /** One task of the submit loop. */
    method SubmitOne(task: TaskSpec, accepts: bool, ghost es: seq<Event>, ghost s: State)
      returns (ok: bool, ghost es': seq<Event>, ghost s': State)
      requires Mirrors(s) && Reaches(es, s) && s.selected != [] && s.selected[0] == task
      modifies scheduler
      ensures Mirrors(s') && Reaches(es', s') && es' == es + [Submitted(ok)] && s'.selected == s.selected[1..]
      ensures ok <==> accepts && HasExecutor(task)
      ensures s'.pool == (if ok then s.pool + [task] else s.pool)
      ensures s'.lost == (if ok then s.lost else s.lost + [task])
      ensures s'.sched == (if ok then s.sched else Sched(s.sched.lanes, s.sched.submitted - {task.deviceIp}))
    {
      hide Reaches, Mirrors, Submit;
      ok := SubmitTask(task, accepts);
      ReachesStep(es, s, Submitted(ok));
      SubmitIs(s, ok);
      es', s' := es + [Submitted(ok)], Submit(s, ok);
      if ok {
        MirrorsSame(s, s');
      } else {
        FinishOne(task.deviceIp, s);
        MirrorsSame(s.(sched := Release(s.sched, task.deviceIp)), s');
      }
    }

    lemma SubmitIs(s: State, ok: bool)
      requires s.selected != []
      ensures var r, t := Submit(s, ok), s.selected[0];
              r == s.(selected := s.selected[1..],
                      pool := if ok then s.pool + [t] else s.pool,
                      lost := if ok then s.lost else s.lost + [t],
                      sched := if ok then s.sched else Release(s.sched, t.deviceIp))
    {
    }

    /**
     * One iteration of `_scheduler_loop` up to the wait. It drains, which leads to `mid`; then what a dispatch
     * selects there goes to the executors that take it, and only the rest, and dead tasks it dropped, are lost.
     */
    method SchedulerPass(devs: Devices, connected: nat -> set<Ip>, accepts: nat -> bool, ghost es: seq<Event>,
                         ghost s: State)
      returns (dispatchedAny: bool, ghost taken: seq<bool>, ghost mid: State, ghost dropped: seq<TaskSpec>,
               ghost es': seq<Event>, ghost s': State)
      requires Mirrors(s) && Reaches(es, s) && s.selected == []
      modifies this, scheduler
      ensures Mirrors(s') && Reaches(es', s') && s'.selected == [] && completionQueue == []
      ensures SameExecutors(old(connectExecutor), old(defaultExecutor))
      ensures |es| + |old(completionQueue)| <= |es'| && es <= es'
      ensures Reaches(es'[..|es| + |old(completionQueue)|], mid)
      ensures forall i :: |es| <= i < |es| + |old(completionQueue)| ==> es'[i] == Drained(connected(i - |es|))
      ensures var tasks := TasksOf(DispatchReady(mid.sched, devs, Limits(8, 4)).selected);
              && |taken| == |tasks| && (dispatchedAny <==> true in taken) && Taken(tasks, accepts, taken)
              && s'.pool == mid.pool + Chosen(tasks, taken, true)
              && s'.lost == mid.lost + dropped + Chosen(tasks, taken, false)
              && forall i :: 0 <= i < |dropped| ==> Dead(devs, dropped[i])
    {
      hide Reaches, DispatchReady, PickAll, Mirrors, Dead, Taken;
      ghost var es1;
      es1, mid := DrainCompletionQueue(connected, es, s);
      var tasks;
      tasks, dropped, es', s' := DispatchOnto(devs, es1, mid);
      dispatchedAny, taken, es', s' := SubmitAll(tasks, accepts, es', s');
      assert es'[..|es1|] == es1;
    }

    /** The dispatch of `_scheduler_loop`, as picks of the protocol. */
    method DispatchOnto(devs: Devices, ghost es: seq<Event>, ghost s: State)
      returns (tasks: seq<TaskSpec>, ghost dropped: seq<TaskSpec>, ghost es': seq<Event>, ghost s': State)
      requires Mirrors(s) && Reaches(es, s) && s.selected == []
      modifies scheduler
      ensures Mirrors(s') && Reaches(es', s') && es <= es' && s'.selected == tasks && s'.pool == s.pool
      ensures s'.lost == s.lost + dropped && forall i :: 0 <= i < |dropped| ==> Dead(devs, dropped[i])
      ensures var p := DispatchReady(s.sched, devs, Limits(CONNECT_LIMIT, OTHER_LIMIT));
              tasks == TasksOf(p.selected) && s'.sched == p.sched
    {
      hide Reaches, DispatchReady, PickAll, TasksOf, TaskScheduler.Scheduler.Valid;
      ghost var lanes := DispatchIsPicks(s, devs, Limits(CONNECT_LIMIT, OTHER_LIMIT));
      es' := ReachesPicks(es, s, lanes, devs);
      s' := PickAll(s, lanes, devs);
      PickAllFrame(s, lanes, devs);
      dropped := PickAllDrops(s, lanes, devs);
      tasks := scheduler.DispatchReadyTasks(devs, CONNECT_LIMIT, OTHER_LIMIT);
    }
  }
}
