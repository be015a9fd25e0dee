/** How each step of the runtime moves tasks between queues, workers and history. */
module RuntimeFlow {
  import opened Tasks
  import opened Text
  import opened Counting
  import opened Distinct
  import opened Dispatch
  import opened Runtime

  // ----- Lanes ------------------------------------------------------------------------------------

  lemma {:induction false} InsertCount(tag: Tag, q: seq<Item>, x: Item)
    ensures Count(ItemHas(tag), Insert(q, x)) == Count(ItemHas(tag), q) + One(tag, x.task)
  {
    if q == [] || Less(x, q[0]) {
      assert ([x] + q)[1..] == q;
    } else {
      InsertCount(tag, q[1..], x);
      assert ([q[0]] + Insert(q[1..], x))[1..] == Insert(q[1..], x);
    }
  }

  lemma InLanePut(tag: Tag, lanes: Lanes, l: TaskLane, q: seq<Item>, k: TaskLane)
    ensures InLane(tag, Put(lanes, l, q), k) == if k == l then Count(ItemHas(tag), q) else InLane(tag, lanes, k)
  {
    hide Count, Put;
  }

  lemma QueuedPut(tag: Tag, lanes: Lanes, l: TaskLane, q: seq<Item>)
    ensures Queued(tag, Put(lanes, l, q)) == Queued(tag, lanes) - InLane(tag, lanes, l) + Count(ItemHas(tag), q)
  {
    hide Count, Put, InLane;
    InLanePut(tag, lanes, l, q, ControlLane);
    InLanePut(tag, lanes, l, q, ConnectLane);
    InLanePut(tag, lanes, l, q, InfoLane);
    InLanePut(tag, lanes, l, q, PollHotLane);
    InLanePut(tag, lanes, l, q, PollWarmLane);
    InLanePut(tag, lanes, l, q, FirmwareLane);
    InLanePut(tag, lanes, l, q, UdpAdminLane);
  }

  lemma {:induction false} DroppedCount(tag: Tag, devs: Devices, q: seq<Item>)
    ensures Count(ItemHas(tag), q) == Count(TaskHas(tag), DroppedBy(devs, q)) + Count(ItemHas(tag), DropDead(devs, q))
  {
    if q == [] || !Dead(devs, q[0].task) {
    } else {
      DroppedCount(tag, devs, q[1..]);
      var d := DroppedBy(devs, q[1..]);
      assert ([q[0].task] + d)[1..] == d;
    }
  }

  lemma PushFlow(tag: Tag, s: State, t: TaskSpec)
    ensures var r := Push(s, t);
            && Queued(tag, r.sched.lanes) == Queued(tag, s.sched.lanes) + One(tag, t)
            && r == s.(sched := r.sched, nextSequence := r.nextSequence)
            && r.sched.submitted == s.sched.submitted
  {
    hide Queued, Count, Insert;
    var x := Item(t.priority, s.nextSequence, t);
    QueuedPut(tag, s.sched.lanes, t.lane, Insert(s.sched.lanes[t.lane], x));
    InsertCount(tag, s.sched.lanes[t.lane], x);
  }

  lemma {:induction false} PushAllFlow(tag: Tag, s: State, ts: seq<TaskSpec>)
    ensures var r := PushAll(s, ts);
            && Queued(tag, r.sched.lanes) == Queued(tag, s.sched.lanes) + Count(TaskHas(tag), ts)
            && r == s.(sched := r.sched, nextSequence := r.nextSequence)
            && r.sched.submitted == s.sched.submitted
    decreases |ts|
  {
    hide Queued, Push;
    if ts == [] {
    } else {
      PushFlow(tag, s, ts[0]);
      PushAllFlow(tag, Push(s, ts[0]), ts[1..]);
    }
  }

  // ----- Conservation -------------------------------------------------------------------------------

  /** Accepted tasks are exactly those still somewhere, lost or drained, for every way of counting. */
  ghost predicate Balanced(s: State) {
    forall tag: Tag :: Seen(tag, s) == Unfinished(tag, s) + Gone(tag, s)
  }

  lemma EnqueueFlow(tag: Tag, s: State, t: TaskSpec)
    requires Seen(tag, s) == Unfinished(tag, s) + Gone(tag, s)
    ensures var r := EnqueueTask(s, t);
            Seen(tag, r) == Unfinished(tag, r) + Gone(tag, r) && InFlight(tag, r) == InFlight(tag, s)
  {
    hide Queued, Push, Count;
    PushFlow(tag, s, t);
    CountAppend(TaskHas(tag), s.accepted, t);
  }

  lemma OpenFlow(tag: Tag, s: State, ts: seq<TaskSpec>, autoInfo: bool)
    requires Seen(tag, s) == Unfinished(tag, s) + Gone(tag, s)
    ensures var r := OpenBatch(s, ts, autoInfo);
            Seen(tag, r) == Unfinished(tag, r) + Gone(tag, r) && InFlight(tag, r) == InFlight(tag, s)
  {
    hide Queued, Count;
    CountConcat(TaskHas(tag), s.accepted, ts);
    CountConcat(TaskHas(tag), s.incoming, ts);
  }

  lemma IncomingFlow(tag: Tag, s: State, i: nat)
    requires i < |s.incoming|
    ensures var r := EnqueueIncoming(s, i);
            && Seen(tag, r) == Seen(tag, s) && Unfinished(tag, r) == Unfinished(tag, s)
            && Gone(tag, r) == Gone(tag, s) && InFlight(tag, r) == InFlight(tag, s)
  {
    hide Queued, Push, Count, Without;
    PushFlow(tag, s, s.incoming[i]);
    CountWithout(TaskHas(tag), s.incoming, i);
  }

  lemma PopFlow(tag: Tag, sched: Sched, devs: Devices, lane: TaskLane)
    ensures var (r, got) := PopReady(sched, devs, lane);
            Queued(tag, sched.lanes)
            == Queued(tag, r.lanes) + Count(TaskHas(tag), DroppedBy(devs, sched.lanes[lane]))
               + if got.None? then 0 else One(tag, got.value.task)
  {
    hide Queued, DropDead, Dispatchable, DroppedBy;
    var q := DropDead(devs, sched.lanes[lane]);
    DroppedCount(tag, devs, sched.lanes[lane]);
    QueuedPut(tag, sched.lanes, lane, q);
    if q != [] {
      QueuedPut(tag, sched.lanes, lane, q[1..]);
    }
  }

  lemma PickFlow(tag: Tag, s: State, lane: TaskLane, devs: Devices)
    ensures var r, got := Pick(s, lane, devs), PopReady(s.sched, devs, lane).1;
            && Seen(tag, r) == Seen(tag, s) && Unfinished(tag, r) == Unfinished(tag, s) && Gone(tag, r) == Gone(tag, s)
            && InFlight(tag, r) == InFlight(tag, s) + if got.None? then 0 else One(tag, got.value.task)
  {
    hide Queued, PopReady, Count, DroppedBy;
    PopFlow(tag, s.sched, devs, lane);
    CountConcat(TaskHas(tag), s.lost, DroppedBy(devs, s.sched.lanes[lane]));
    var got := PopReady(s.sched, devs, lane).1;
    if got.Some? {
      CountAppend(TaskHas(tag), s.selected, got.value.task);
    }
  }

  lemma SubmitFlow(tag: Tag, s: State, ok: bool)
    requires s.selected != []
    ensures var r := Submit(s, ok);
            && Seen(tag, r) == Seen(tag, s) && Unfinished(tag, r) == Unfinished(tag, s) && Gone(tag, r) == Gone(tag, s)
            && InFlight(tag, r) + (if ok then 0 else One(tag, s.selected[0])) == InFlight(tag, s)
  {
    hide Queued, Count;
    assert s.selected == [s.selected[0]] + s.selected[1..];
    CountConcat(TaskHas(tag), [s.selected[0]], s.selected[1..]);
    CountAppend(TaskHas(tag), [], s.selected[0]);
    NoCount(TaskHas(tag));
    CountAppend(TaskHas(tag), s.pool, s.selected[0]);
    CountAppend(TaskHas(tag), s.lost, s.selected[0]);
  }

  lemma NoCount<T>(has: T -> bool)
    ensures Count(has, []) == 0
    ensures forall x: T :: [] + [x] == [x]
  {
  }

  lemma StartFlow(tag: Tag, s: State, i: nat)
    requires i < |s.pool|
    ensures SamePlaces(tag, s, StartWorker(s, i))
  {
    hide Queued, Count, Without;
    CountWithout(TaskHas(tag), s.pool, i);
    CountAppend(WorkerHas(tag), s.workers, Worker(s.pool[i], Starting));
  }

  lemma ReportFlow(tag: Tag, s: State, i: nat)
    requires i < |s.workers| && s.workers[i].phase.Ended?
    ensures SamePlaces(tag, s, Report(s, i))
  {
    hide Queued, Count, Without;
    CountWithout(WorkerHas(tag), s.workers, i);
    CountAppend(CompletionHas(tag), s.done, Completion(s.workers[i].task, s.workers[i].phase.ok));
  }

  /** Nothing entered or left the runtime, and nothing was dispatched or given up. */
  ghost predicate SamePlaces(tag: Tag, s: State, r: State) {
    && Seen(tag, r) == Seen(tag, s) && Unfinished(tag, r) == Unfinished(tag, s)
    && Gone(tag, r) == Gone(tag, s) && InFlight(tag, r) == InFlight(tag, s)
  }

  lemma PhaseFlow(tag: Tag, s: State, r: State, i: nat, ph: Phase)
    requires i < |s.workers| && r.workers == s.workers[i := s.workers[i].(phase := ph)]
    requires r == s.(workers := r.workers, actors := r.actors, busyErrors := r.busyErrors)
    ensures SamePlaces(tag, s, r)
  {
    hide Queued, Count;
    CountUpdate(WorkerHas(tag), s.workers, i, s.workers[i].(phase := ph));
  }

  lemma EnterFlow(tag: Tag, s: State, i: nat)
    requires InPhase(s, i, false)
    ensures SamePlaces(tag, s, Enter(s, i))
  {
    hide SamePlaces;
    var r := Enter(s, i);
    PhaseFlow(tag, s, r, i, r.workers[i].phase);
  }

  lemma LeaveFlow(tag: Tag, s: State, i: nat, ok: bool)
    requires InPhase(s, i, true)
    ensures SamePlaces(tag, s, Leave(s, i, ok))
  {
    hide SamePlaces;
    var r := Leave(s, i, ok);
    PhaseFlow(tag, s, r, i, r.workers[i].phase);
  }

  lemma LookupFlow(tag: Tag, s: State, i: nat)
    requires i < |s.workers| && s.workers[i].phase.Starting?
    ensures SamePlaces(tag, s, Lookup(s, i))
  {
    hide SamePlaces;
    var r := Lookup(s, i);
    PhaseFlow(tag, s, r, i, r.workers[i].phase);
  }

  lemma DeviceFlow(tag: Tag, s: State, r: State)
    requires r == s.(actors := r.actors, registry := r.registry, snapshots := r.snapshots)
    ensures SamePlaces(tag, s, r)
  {
    hide Queued, Count;
  }

  /** A step of a worker, of the executors that start it, or of the window. */
  predicate WorkerSide(e: Event) {
    e.WorkerStarted? || e.LookedUp? || e.Entered? || e.Left? || e.Reported?
    || e.DeviceAdded? || e.DeviceRemoved? || e.Disconnected? || e.HoldCleared? || e.StaleSnapshotWritten?
  }

  /** Such a step leaves the lanes, the books and the history alone. */
  lemma WorkerSideFrame(s: State, e: Event)
    requires Enabled(s, e) && WorkerSide(e)
    ensures var r := Apply(s, e);
            r == s.(pool := r.pool, workers := r.workers, done := r.done, actors := r.actors,
                    registry := r.registry, snapshots := r.snapshots, busyErrors := r.busyErrors)
  {
  }

  /** Steps that only change devices, actors or the phase of one worker leave every task where it is. */
  lemma LocalFlow(tag: Tag, s: State, e: Event)
    requires Enabled(s, e)
    requires e.LookedUp? || e.Entered? || e.Left? || e.DeviceAdded? || e.DeviceRemoved? || e.Disconnected?
             || e.HoldCleared? || e.StaleSnapshotWritten?
    ensures SamePlaces(tag, s, Apply(s, e))
  {
    hide SamePlaces, Lookup, Enter, Leave;
    match e
    case LookedUp(i) => LookupFlow(tag, s, i);
    case Entered(i) => EnterFlow(tag, s, i);
    case Left(i, ok) => LeaveFlow(tag, s, i, ok);
    case DeviceAdded(ip) => DeviceFlow(tag, s, AddDevice(s, ip));
    case DeviceRemoved(ip) => DeviceFlow(tag, s, RemoveDevice(s, ip));
    case Disconnected(ip) => DeviceFlow(tag, s, SetHold(s, s.registry[ip], true));
    case HoldCleared(i) => DeviceFlow(tag, s, SetHold(s, s.workers[i].phase.actor, false));
    case StaleSnapshotWritten(i) =>
      DeviceFlow(tag, s, s.(snapshots := s.snapshots + {s.workers[i].task.deviceIp}));
  }

  /** A change of history and lanes only. */
  lemma HistoryFlow(tag: Tag, s: State, r: State)
    requires r == s.(sched := r.sched, nextSequence := r.nextSequence, batches := r.batches, finished := r.finished,
                     accepted := r.accepted, lost := r.lost)
    ensures Unfinished(tag, r) - Unfinished(tag, s)
            == Queued(tag, r.sched.lanes) - Queued(tag, s.sched.lanes)
               + Count(TaskHas(tag), r.lost) - Count(TaskHas(tag), s.lost)
    ensures Gone(tag, r) == Gone(tag, s) && InFlight(tag, r) == InFlight(tag, s)
  {
    hide Queued, Count;
  }

  /** A closed batch: what it queues again is accepted again. */
  lemma FollowFlow(tag: Tag, s: State, mid: State, follow: seq<TaskSpec>)
    requires mid == s.(batches := mid.batches, finished := mid.finished, accepted := s.accepted + follow)
    ensures var r := PushAll(mid, follow);
            && Seen(tag, r) - Seen(tag, s) == Unfinished(tag, r) - Unfinished(tag, s)
            && Gone(tag, r) == Gone(tag, s) && InFlight(tag, r) == InFlight(tag, s)
            && r.sched.submitted == s.sched.submitted
  {
    hide Queued, Count, PushAll, Unfinished, Gone, InFlight;
    CountConcat(TaskHas(tag), s.accepted, follow);
    PushAllFlow(tag, mid, follow);
    HistoryFlow(tag, s, PushAll(mid, follow));
  }

  lemma CloseFlow(tag: Tag, s: State, t: TaskSpec, ok: bool, connected: set<Ip>)
    ensures var r := CloseConnect(s, t, ok, connected);
            && Seen(tag, r) - Seen(tag, s)
               == Unfinished(tag, r) - Unfinished(tag, s)
                  - (if t.batch.Some? && Strip(t.deviceIp) == "" then One(tag, t) else 0)
            && Gone(tag, r) == Gone(tag, s) && InFlight(tag, r) == InFlight(tag, s)
            && r.sched.submitted == s.sched.submitted
  {
    hide Queued, Count, Strip, FirstOccurrences, FollowUps, PushAll, Tally, Unfinished, Gone, InFlight;
    var r := CloseConnect(s, t, ok, connected);
    if t.batch.Some? && Strip(t.deviceIp) == "" {
      CountAppend(TaskHas(tag), s.lost, t);
      HistoryFlow(tag, s, r);
    } else if t.batch.Some? && t.batch.value in s.batches {
      var b := Tally(s.batches[t.batch.value], Strip(t.deviceIp), ok);
      if b.remaining > 0 {
        HistoryFlow(tag, s, r);
      } else {
        var follow := if b.autoInfo then FollowUps(FirstOccurrences(b.success), connected) else [];
        var mid := s.(batches := s.batches - {t.batch.value},
                      finished := s.finished + [Finished(t.batch.value, b.success, b.failed)],
                      accepted := s.accepted + follow);
        FollowFlow(tag, s, mid, follow);
      }
    }
  }

  /** Taking a completion from the queue, before its batch is looked at. */
  lemma TakeDoneFlow(tag: Tag, s: State, drained: seq<TaskSpec>)
    requires s.done != []
    ensures var c := s.done[0];
            var r := s.(done := s.done[1..], sched := Release(s.sched, c.task.deviceIp), drained := drained);
            && Seen(tag, r) == Seen(tag, s)
            && Unfinished(tag, r) + One(tag, c.task) == Unfinished(tag, s)
            && InFlight(tag, r) + One(tag, c.task) == InFlight(tag, s)
  {
    hide Queued, Count;
    var c := s.done[0];
    assert s.done == [c] + s.done[1..];
    CountConcat(CompletionHas(tag), [c], s.done[1..]);
    CountAppend(CompletionHas(tag), [], c);
    NoCount(CompletionHas(tag));
  }

  lemma DrainFlow(tag: Tag, s: State, connected: set<Ip>)
    requires s.done != []
    ensures var r := Drain(s, connected);
            && Seen(tag, r) - Seen(tag, s) == Unfinished(tag, r) - Unfinished(tag, s) + Gone(tag, r) - Gone(tag, s)
            && InFlight(tag, r) + One(tag, s.done[0].task) == InFlight(tag, s)
            && r.sched.submitted == s.sched.submitted - {s.done[0].task.deviceIp}
  {
    hide Count, Strip, CloseConnect, Unfinished, InFlight, Seen;
    var c := s.done[0];
    var blank := c.task.command.Connect? && c.task.batch.Some? && Strip(c.task.deviceIp) == "";
    var drained := if blank then s.drained else s.drained + [c.task];
    var r := s.(done := s.done[1..], sched := Release(s.sched, c.task.deviceIp), drained := drained);
    CountAppend(TaskHas(tag), s.drained, c.task);
    TakeDoneFlow(tag, s, drained);
    if c.task.command.Connect? {
      CloseFlow(tag, r, c.task, c.ok, connected);
    }
  }

  /** Every step keeps the balance of accepted tasks. */
  lemma StepKeepsBalance(tag: Tag, s: State, e: Event)
    requires Enabled(s, e) && Seen(tag, s) == Unfinished(tag, s) + Gone(tag, s)
    ensures var r := Apply(s, e); Seen(tag, r) == Unfinished(tag, r) + Gone(tag, r)
  {
    hide Seen, Unfinished, Gone, InFlight;
    match e
    case Enqueued(t) => EnqueueFlow(tag, s, t);
    case BatchOpened(ts, autoInfo) => OpenFlow(tag, s, ts, autoInfo);
    case IncomingEnqueued(i) => IncomingFlow(tag, s, i);
    case Picked(lane, devs) => PickFlow(tag, s, lane, devs);
    case Submitted(ok) => SubmitFlow(tag, s, ok);
    case WorkerStarted(i) => StartFlow(tag, s, i);
    case Reported(i) => ReportFlow(tag, s, i);
    case Drained(connected) => DrainFlow(tag, s, connected);
    case _ => LocalFlow(tag, s, e);
  }
}
