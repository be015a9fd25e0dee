/** What every run of the task runtime keeps: single flight, idle actors, conservation, batch accounting. */
module RuntimeLaws {
  import opened Tasks
  import opened Text
  import opened Counting
  import opened Distinct
  import opened Dispatch
  import opened Runtime
  import opened RuntimeFlow
  import Drain

  // ----- Single flight --------------------------------------------------------------------------

  /** At most one task of a device is dispatched and not drained, exactly when the device is marked submitted. */
  ghost predicate OneFlight(s: State) {
    && "" !in s.sched.submitted
    && forall ip: Ip :: InFlight(OfDevice(ip), s) == if ip in s.sched.submitted then 1 else 0
  }

  lemma PickMarks(s: Sched, devs: Devices, lane: TaskLane)
    ensures var (r, got) := PopReady(s, devs, lane);
            if got.None? then r.submitted == s.submitted
            else && got.value.task.deviceIp != "" && got.value.task.deviceIp !in s.submitted
                 && r.submitted == s.submitted + {got.value.task.deviceIp}
  {
    hide Blocked, DropDead;
  }

  lemma PickKeepsOneFlight(s: State, lane: TaskLane, devs: Devices)
    requires OneFlight(s)
    ensures OneFlight(Pick(s, lane, devs))
  {
    hide InFlight, PopReady;
    PickMarks(s.sched, devs, lane);
    forall ip: Ip ensures InFlight(OfDevice(ip), Pick(s, lane, devs))
                          == if ip in Pick(s, lane, devs).sched.submitted then 1 else 0 {
      PickFlow(OfDevice(ip), s, lane, devs);
    }
  }

  lemma SubmitKeepsOneFlight(s: State, ok: bool)
    requires OneFlight(s) && s.selected != []
    ensures OneFlight(Submit(s, ok))
  {
    hide InFlight;
    forall ip: Ip ensures InFlight(OfDevice(ip), Submit(s, ok))
                          == if ip in Submit(s, ok).sched.submitted then 1 else 0 {
      SubmitFlow(OfDevice(ip), s, ok);
    }
  }

  lemma DrainKeepsOneFlight(s: State, connected: set<Ip>)
    requires OneFlight(s) && s.done != []
    ensures OneFlight(Runtime.Drain(s, connected))
  {
    hide InFlight, Runtime.Drain;
    var r := Runtime.Drain(s, connected);
    DrainFlow(OfDevice(""), s, connected);
    forall ip: Ip ensures InFlight(OfDevice(ip), r) == if ip in r.sched.submitted then 1 else 0 {
      DrainFlow(OfDevice(ip), s, connected);
    }
  }

  lemma SameFlights(s: State, r: State)
    requires OneFlight(s) && r.sched.submitted == s.sched.submitted
    requires forall ip: Ip :: InFlight(OfDevice(ip), r) == InFlight(OfDevice(ip), s)
    ensures OneFlight(r)
  {
    hide InFlight;
  }

  lemma StepKeepsOneFlight(s: State, e: Event)
    requires OneFlight(s) && Enabled(s, e)
    ensures OneFlight(Apply(s, e))
  {
    hide OneFlight, InFlight, Unfinished, Seen, Gone, Pick, Submit, Runtime.Drain, PushAll;
    match e
    case Picked(lane, devs) => PickKeepsOneFlight(s, lane, devs);
    case Submitted(ok) => SubmitKeepsOneFlight(s, ok);
    case Drained(connected) => DrainKeepsOneFlight(s, connected);
    case Enqueued(t) =>
      forall ip: Ip ensures InFlight(OfDevice(ip), Apply(s, e)) == InFlight(OfDevice(ip), s) {
        PushFlow(OfDevice(ip), s, t);
        QueueOnly(OfDevice(ip), s, Apply(s, e));
      }
      SameFlights(s, Apply(s, e));
    case BatchOpened(ts, autoInfo) =>
      forall ip: Ip ensures InFlight(OfDevice(ip), Apply(s, e)) == InFlight(OfDevice(ip), s) {
        QueueOnly(OfDevice(ip), s, Apply(s, e));
      }
      SameFlights(s, Apply(s, e));
    case IncomingEnqueued(i) =>
      forall ip: Ip ensures InFlight(OfDevice(ip), Apply(s, e)) == InFlight(OfDevice(ip), s) {
        IncomingFlow(OfDevice(ip), s, i);
      }
      SameFlights(s, Apply(s, e));
    case WorkerStarted(i) =>
      forall ip: Ip ensures InFlight(OfDevice(ip), Apply(s, e)) == InFlight(OfDevice(ip), s) {
        StartFlow(OfDevice(ip), s, i);
      }
      SameFlights(s, Apply(s, e));
    case Reported(i) =>
      forall ip: Ip ensures InFlight(OfDevice(ip), Apply(s, e)) == InFlight(OfDevice(ip), s) {
        ReportFlow(OfDevice(ip), s, i);
      }
      SameFlights(s, Apply(s, e));
    case _ =>
      LocalKeepsOneFlight(s, e);
  }

  lemma QueueOnly(tag: Tag, s: State, r: State)
    requires r.selected == s.selected && r.pool == s.pool && r.workers == s.workers && r.done == s.done
    ensures InFlight(tag, r) == InFlight(tag, s)
  {
  }

  lemma LocalKeepsOneFlight(s: State, e: Event)
    requires OneFlight(s) && Enabled(s, e)
    requires e.LookedUp? || e.Entered? || e.Left? || e.DeviceAdded? || e.DeviceRemoved? || e.Disconnected?
             || e.HoldCleared? || e.StaleSnapshotWritten?
    ensures OneFlight(Apply(s, e))
  {
    hide OneFlight, InFlight, Unfinished, Seen, Gone, Apply, Enabled;
    WorkerSideFrame(s, e);
    forall ip: Ip ensures InFlight(OfDevice(ip), Apply(s, e)) == InFlight(OfDevice(ip), s) {
      LocalFlow(OfDevice(ip), s, e);
    }
    SameFlights(s, Apply(s, e));
  }

  lemma WorkersOfDistinctDevices(s: State, i: nat, j: nat)
    requires OneFlight(s) && i < j < |s.workers|
    ensures s.workers[i].task.deviceIp != s.workers[j].task.deviceIp
  {
    var tag := OfDevice(s.workers[i].task.deviceIp);
    assert InFlight(tag, s) <= 1;
    if s.workers[j].task.deviceIp == s.workers[i].task.deviceIp {
      CountTwo(WorkerHas(tag), s.workers, i, j);
    }
  }

  // ----- Actors ---------------------------------------------------------------------------------

  /** The device of an actor that a worker holds is the device of its task. */
  ghost predicate Holds(s: State, w: Worker) {
    w.phase.Captured? || w.phase.Running? ==>
      w.phase.actor < |s.actors| && s.actors[w.phase.actor].ip == w.task.deviceIp
  }

  ghost predicate Registered(s: State, ip: Ip)
    requires ip in s.registry
  {
    && s.registry[ip] < |s.actors|
    && s.actors[s.registry[ip]].ip == ip
    && ip in s.snapshots
    && (s.actors[s.registry[ip]].busy ==> exists w :: w in s.workers && w.phase == Running(s.registry[ip]))
  }

  /** A registered actor is busy only while a worker runs on it; an actor about to begin a task is idle. */
  ghost predicate ActorsOk(s: State) {
    && (forall ip :: ip in s.registry ==> Registered(s, ip))
    && (forall w :: w in s.workers ==> Holds(s, w))
    && (forall w :: w in s.workers && w.phase.Captured? ==> !s.actors[w.phase.actor].busy)
    && s.busyErrors == 0
  }

  lemma IdleWithoutWorker(s: State, ip: Ip)
    requires ActorsOk(s) && ip in s.registry
    requires forall w :: w in s.workers && w.task.deviceIp == ip ==> !w.phase.Running?
    ensures !s.actors[s.registry[ip]].busy
  {
    assert Registered(s, ip);
    forall w | w in s.workers && w.phase == Running(s.registry[ip]) ensures w.task.deviceIp == ip {
      assert Holds(s, w);
    }
  }

  lemma OnlyWorkerOf(s: State, i: nat, w: Worker)
    requires OneFlight(s) && i < |s.workers| && w in s.workers
    requires w.task.deviceIp == s.workers[i].task.deviceIp
    ensures w == s.workers[i]
  {
    var j :| 0 <= j < |s.workers| && s.workers[j] == w;
    if j < i {
      WorkersOfDistinctDevices(s, j, i);
    } else if i < j {
      WorkersOfDistinctDevices(s, i, j);
    }
  }

  /** After replacing worker `i`, every worker is the new one or an old one of another device. */
  lemma AfterUpdate(s: State, i: nat, x: Worker)
    requires OneFlight(s) && i < |s.workers| && x.task == s.workers[i].task
    ensures forall w :: w in s.workers[i := x] ==>
              w == x || (w in s.workers && w.task.deviceIp != x.task.deviceIp)
    ensures forall w :: w in s.workers && w != s.workers[i] ==> w in s.workers[i := x]
    ensures x in s.workers[i := x]
  {
    var ws := s.workers[i := x];
    assert ws[i] == x;
    forall w | w in ws ensures w == x || (w in s.workers && w.task.deviceIp != x.task.deviceIp) {
      var j :| 0 <= j < |ws| && ws[j] == w;
      if j < i {
        WorkersOfDistinctDevices(s, j, i);
      } else if i < j {
        WorkersOfDistinctDevices(s, i, j);
      }
    }
    forall w | w in s.workers && w != s.workers[i] ensures w in ws {
      var j :| 0 <= j < |s.workers| && s.workers[j] == w;
      assert ws[j] == w;
    }
  }

  lemma LookupKeepsActors(s: State, i: nat)
    requires OneFlight(s) && ActorsOk(s) && i < |s.workers| && s.workers[i].phase.Starting?
    ensures ActorsOk(Lookup(s, i))
  {
    hide OneFlight;
    var r := Lookup(s, i);
    var ip := s.workers[i].task.deviceIp;
    AfterUpdate(s, i, r.workers[i]);
    if ip in s.registry {
      forall w | w in s.workers && w.task.deviceIp == ip ensures !w.phase.Running? {
        OnlyWorkerOf(s, i, w);
      }
      IdleWithoutWorker(s, ip);
      assert Registered(s, ip);
    }
    forall k | k in r.registry ensures Registered(r, k) {
      assert Registered(s, k);
    }
    forall w | w in r.workers ensures Holds(r, w) {
      assert w in s.workers ==> Holds(s, w);
    }
  }

  lemma EnterKeepsActors(s: State, i: nat)
    requires OneFlight(s) && ActorsOk(s) && InPhase(s, i, false)
    ensures ActorsOk(Enter(s, i))
  {
    hide OneFlight, Enter, Registered, Holds;
    var r := Enter(s, i);
    EnterMeetsIdle(s, i);
    forall k | k in r.registry ensures Registered(r, k) {
      EnterKeepsRegistered(s, i, k);
    }
    forall w | w in r.workers
      ensures Holds(r, w) && (w.phase.Captured? ==> w.phase.actor < |r.actors| && !r.actors[w.phase.actor].busy)
    {
      EnterKeepsHolder(s, i, w);
    }
  }

  lemma EnterMeetsIdle(s: State, i: nat)
    requires ActorsOk(s) && InPhase(s, i, false)
    ensures Enter(s, i).busyErrors == 0 && Enter(s, i).registry == s.registry
  {
    assert s.workers[i] in s.workers;
  }

  lemma EnterKeepsRegistered(s: State, i: nat, k: Ip)
    requires OneFlight(s) && ActorsOk(s) && InPhase(s, i, false) && k in s.registry
    ensures Enter(s, i).registry == s.registry && Registered(Enter(s, i), k)
  {
    hide OneFlight;
    assert s.workers[i] in s.workers && Holds(s, s.workers[i]);
    assert Registered(s, k);
    AfterUpdate(s, i, Enter(s, i).workers[i]);
  }

  lemma EnterKeepsHolder(s: State, i: nat, w: Worker)
    requires OneFlight(s) && ActorsOk(s) && InPhase(s, i, false) && w in Enter(s, i).workers
    ensures var r := Enter(s, i);
            && Holds(r, w)
            && (w.phase.Captured? ==> w.phase.actor < |r.actors| && !r.actors[w.phase.actor].busy)
  {
    hide OneFlight, Registered, Enter;
    assert s.workers[i] in s.workers && Holds(s, s.workers[i]);
    EnterShape(s, i);
    AfterUpdate(s, i, Enter(s, i).workers[i]);
    assert w in s.workers ==> Holds(s, w);
  }

  /** Entering changes the worker's phase and at most the worker's own actor. */
  lemma EnterShape(s: State, i: nat)
    requires InPhase(s, i, false)
    ensures var r, x, a := Enter(s, i), s.workers[i], s.workers[i].phase.actor;
            && |r.workers| == |s.workers| && r.workers == s.workers[i := Worker(x.task, r.workers[i].phase)]
            && (r.workers[i].phase.Ended? || r.workers[i].phase == Running(a))
            && |r.actors| == |s.actors| && r.actors[a].ip == s.actors[a].ip
            && forall k :: 0 <= k < |s.actors| && k != a ==> r.actors[k] == s.actors[k]
  {
  }

  lemma LeaveKeepsActors(s: State, i: nat, ok: bool)
    requires OneFlight(s) && ActorsOk(s) && InPhase(s, i, true)
    ensures ActorsOk(Leave(s, i, ok))
  {
    hide OneFlight;
    var r := Leave(s, i, ok);
    assert s.workers[i] in s.workers && Holds(s, s.workers[i]);
    AfterUpdate(s, i, r.workers[i]);
    forall k | k in r.registry ensures Registered(r, k) {
      assert Registered(s, k);
    }
    forall w | w in r.workers ensures Holds(r, w) {
      assert w in s.workers ==> Holds(s, w);
    }
  }

  lemma ReportKeepsActors(s: State, i: nat)
    requires ActorsOk(s) && i < |s.workers| && s.workers[i].phase.Ended?
    ensures ActorsOk(Report(s, i))
  {
    var r := Report(s, i);
    forall w | w in s.workers && w.phase.Running? ensures w in r.workers {
      var j :| 0 <= j < |s.workers| && s.workers[j] == w;
      assert r.workers[if j < i then j else j - 1] == w;
    }
    forall k | k in r.registry ensures Registered(r, k) {
      assert Registered(s, k);
    }
    forall w | w in r.workers ensures w in s.workers && Holds(r, w) {
      assert w in s.workers;
      assert Holds(s, w);
    }
  }

  lemma StartKeepsActors(s: State, i: nat)
    requires ActorsOk(s) && i < |s.pool|
    ensures ActorsOk(StartWorker(s, i))
  {
    var r := StartWorker(s, i);
    forall k | k in r.registry ensures Registered(r, k) {
      assert Registered(s, k);
    }
    forall w | w in r.workers ensures Holds(r, w) && (w.phase.Captured? ==> w in s.workers) {
      assert w in s.workers ==> Holds(s, w);
    }
  }

  /** Steps that leave workers alone and never set a busy flag. */
  lemma DevicesKeepActors(s: State, r: State)
    requires ActorsOk(s) && r.workers == s.workers && r.busyErrors == s.busyErrors
    requires |s.actors| <= |r.actors|
    requires forall a :: 0 <= a < |s.actors| ==>
               r.actors[a].ip == s.actors[a].ip && r.actors[a].busy == s.actors[a].busy
    requires forall ip :: ip in r.registry ==>
               ip in r.snapshots
               && (if ip in s.registry then r.registry[ip] == s.registry[ip]
                   else r.registry[ip] < |r.actors| && r.actors[r.registry[ip]] == Actor(ip, false, false))
    ensures ActorsOk(r)
  {
    forall k | k in r.registry ensures Registered(r, k) {
      assert k in s.registry ==> Registered(s, k);
    }
    forall w | w in r.workers ensures Holds(r, w) {
      assert Holds(s, w);
    }
  }

  lemma DeviceStepKeepsActors(s: State, e: Event)
    requires ActorsOk(s) && Enabled(s, e)
    requires e.DeviceAdded? || e.DeviceRemoved? || e.Disconnected? || e.HoldCleared? || e.StaleSnapshotWritten?
    ensures ActorsOk(Apply(s, e))
  {
    forall k | k in s.registry ensures Registered(s, k) {
    }
    DevicesKeepActors(s, Apply(s, e));
  }

  lemma {:induction false} PushAllFrame(s: State, ts: seq<TaskSpec>)
    ensures var r := PushAll(s, ts); r == s.(sched := r.sched, nextSequence := r.nextSequence)
    decreases |ts|
  {
    if ts == [] {
    } else {
      PushAllFrame(Push(s, ts[0]), ts[1..]);
    }
  }

  lemma DrainFrame(s: State, connected: set<Ip>)
    requires s.done != []
    ensures var r := Runtime.Drain(s, connected);
            && r.workers == s.workers && r.actors == s.actors && r.registry == s.registry
            && r.snapshots == s.snapshots && r.busyErrors == s.busyErrors && r.started == s.started
            && r.done == s.done[1..]
  {
    hide Strip, FirstOccurrences, FollowUps, PushAll;
    var c := s.done[0];
    if c.task.command.Connect? && c.task.batch.Some? && c.task.batch.value in s.batches {
      var b := Tally(s.batches[c.task.batch.value], Strip(c.task.deviceIp), c.ok);
      var follow := if b.autoInfo then FollowUps(FirstOccurrences(b.success), connected) else [];
      var r := s.(done := s.done[1..], sched := Release(s.sched, c.task.deviceIp), drained := s.drained + [c.task],
                  batches := s.batches - {c.task.batch.value},
                  finished := s.finished + [Finished(c.task.batch.value, b.success, b.failed)],
                  accepted := s.accepted + follow);
      PushAllFrame(r, follow);
    }
  }

  lemma StepKeepsActors(s: State, e: Event)
    requires OneFlight(s) && ActorsOk(s) && Enabled(s, e)
    ensures ActorsOk(Apply(s, e))
  {
    hide OneFlight, Lookup, Enter, Leave, Report, StartWorker, Runtime.Drain;
    match e
    case LookedUp(i) => LookupKeepsActors(s, i);
    case Entered(i) => EnterKeepsActors(s, i);
    case Left(i, ok) => LeaveKeepsActors(s, i, ok);
    case Reported(i) => ReportKeepsActors(s, i);
    case WorkerStarted(i) => StartKeepsActors(s, i);
    case DeviceAdded(_) => DeviceStepKeepsActors(s, e);
    case DeviceRemoved(_) => DeviceStepKeepsActors(s, e);
    case Disconnected(_) => DeviceStepKeepsActors(s, e);
    case HoldCleared(_) => DeviceStepKeepsActors(s, e);
    case StaleSnapshotWritten(_) => DeviceStepKeepsActors(s, e);
    case Drained(connected) =>
      DrainFrame(s, connected);
      SameActors(s, Apply(s, e));
    case Enqueued(_) => SameActors(s, Apply(s, e));
    case BatchOpened(_, _) => SameActors(s, Apply(s, e));
    case IncomingEnqueued(_) => SameActors(s, Apply(s, e));
    case Picked(_, _) => SameActors(s, Apply(s, e));
    case Submitted(_) => SameActors(s, Apply(s, e));
  }

  lemma SameActors(s: State, r: State)
    requires ActorsOk(s)
    requires r.workers == s.workers && r.actors == s.actors && r.registry == s.registry
    requires r.snapshots == s.snapshots && r.busyErrors == s.busyErrors
    ensures ActorsOk(r)
  {
    forall k | k in r.registry ensures Registered(r, k) {
      assert Registered(s, k);
    }
    forall w | w in r.workers ensures Holds(r, w) {
      assert Holds(s, w);
    }
  }

  // ----- Connect batches --------------------------------------------------------------------------

  ghost predicate BatchOk(s: State, b: BatchId)
    requires b in s.batches
  {
    var x := s.batches[b];
    && b < |s.started|
    && x.remaining >= 0
    && x.remaining + |x.success| + |x.failed| == s.started[b]
    && (s.started[b] > 0 ==> x.remaining > 0)
    && Seen(OfBatch(b), s) == Gone(OfBatch(b), s) + x.remaining
  }

  /** A batch is stored or, once, finished; a finished one has every task tallied. */
  ghost predicate BatchesOk(s: State) {
    && (forall b :: b in s.batches ==> BatchOk(s, b))
    && (forall b: BatchId :: b !in s.batches ==> Seen(OfBatch(b), s) == Gone(OfBatch(b), s))
    && (forall b: BatchId :: b >= |s.started| ==> Seen(OfBatch(b), s) == 0)
    && Seen(StrayBatch, s) == 0
  }

  ghost predicate FinishedOk(s: State) {
    && (forall i :: 0 <= i < |s.finished| ==>
          var f := s.finished[i];
          && f.id < |s.started| && f.id !in s.batches
          && |f.success| + |f.failed| == s.started[f.id] && s.started[f.id] > 0)
    && (forall i, j :: 0 <= i < j < |s.finished| ==> s.finished[i].id != s.finished[j].id)
    && (forall b :: b in s.batches ==> b < |s.started|)
    && (forall b :: 0 <= b < |s.started| && b !in s.batches ==>
          exists i :: 0 <= i < |s.finished| && s.finished[i].id == b)
  }

  lemma SameBooks(s: State, r: State)
    requires BatchesOk(s) && FinishedOk(s)
    requires r.batches == s.batches && r.started == s.started && r.finished == s.finished
    requires r.accepted == s.accepted && r.drained == s.drained
    ensures BatchesOk(r) && FinishedOk(r)
  {
    hide Count;
    forall b | b in r.batches ensures BatchOk(r, b) {
      assert BatchOk(s, b);
    }
    forall b: BatchId ensures Gone(OfBatch(b), r) == Gone(OfBatch(b), s) {
    }
    forall tag: Tag ensures Seen(tag, r) == Seen(tag, s) {
    }
  }

  /** Accepting tasks that belong to no batch, or draining them, leaves every account as it was. */
  lemma UntaggedBooks(s: State, r: State, more: seq<TaskSpec>, gone: seq<TaskSpec>)
    requires BatchesOk(s) && FinishedOk(s)
    requires r.batches == s.batches && r.started == s.started && r.finished == s.finished
    requires r.accepted == s.accepted + more && r.drained == s.drained + gone
    requires forall i :: 0 <= i < |more| ==> more[i].batch.None?
    requires forall i :: 0 <= i < |gone| ==> gone[i].batch.None?
    ensures BatchesOk(r) && FinishedOk(r)
  {
    hide Count;
    forall b: BatchId
      ensures Seen(OfBatch(b), r) == Seen(OfBatch(b), s) && Gone(OfBatch(b), r) == Gone(OfBatch(b), s)
    {
      UntaggedCount(OfBatch(b), more);
      UntaggedCount(OfBatch(b), gone);
      CountConcat(TaskHas(OfBatch(b)), s.accepted, more);
      CountConcat(TaskHas(OfBatch(b)), s.drained, gone);
    }
    UntaggedCount(StrayBatch, more);
    CountConcat(TaskHas(StrayBatch), s.accepted, more);
    forall b | b in r.batches ensures BatchOk(r, b) {
      assert BatchOk(s, b);
    }
  }

  lemma {:induction false} UntaggedCount(tag: Tag, ts: seq<TaskSpec>)
    requires tag.OfBatch? || tag.StrayBatch?
    requires forall i :: 0 <= i < |ts| ==> ts[i].batch.None?
    ensures Count(TaskHas(tag), ts) == 0
  {
    if ts == [] {
    } else {
      UntaggedCount(tag, ts[1..]);
    }
  }

  lemma {:induction false} NewBatchCount(tag: Tag, ts: seq<TaskSpec>, id: BatchId)
    requires tag.OfBatch? || tag.StrayBatch?
    requires forall i :: 0 <= i < |ts| ==> ts[i].command.Connect? && ts[i].batch == Some(id)
    ensures Count(TaskHas(tag), ts) == if tag == OfBatch(id) then |ts| else 0
  {
    if ts == [] {
    } else {
      NewBatchCount(tag, ts[1..], id);
    }
  }

  lemma OpenKeepsBooks(s: State, ts: seq<TaskSpec>, autoInfo: bool)
    requires BatchesOk(s) && FinishedOk(s)
    requires Enabled(s, BatchOpened(ts, autoInfo))
    ensures BatchesOk(OpenBatch(s, ts, autoInfo)) && FinishedOk(OpenBatch(s, ts, autoInfo))
  {
    hide Count;
    var id := |s.started|;
    var r := OpenBatch(s, ts, autoInfo);
    forall b: BatchId ensures Seen(OfBatch(b), r) == Seen(OfBatch(b), s) + if b == id then |ts| else 0 {
      NewBatchCount(OfBatch(b), ts, id);
      CountConcat(TaskHas(OfBatch(b)), s.accepted, ts);
    }
    NewBatchCount(StrayBatch, ts, id);
    CountConcat(TaskHas(StrayBatch), s.accepted, ts);
    forall b: BatchId ensures Gone(OfBatch(b), r) == Gone(OfBatch(b), s) {
    }
    forall b | b in r.batches ensures BatchOk(r, b) {
      assert b != id ==> BatchOk(s, b);
    }
    forall b | 0 <= b < |r.started| && b !in r.batches
      ensures exists i :: 0 <= i < |r.finished| && r.finished[i].id == b
    {
      assert b < |s.started| && b !in s.batches;
    }
  }

  /** The task at the head of the completion queue is unfinished under each of its tags. */
  lemma HeadIsUnfinished(s: State, tag: Tag)
    requires s.done != [] && Tagged(tag, s.done[0].task)
    ensures Unfinished(tag, s) >= 1
  {
    CountOne(CompletionHas(tag), s.done, 0);
  }

  lemma HeadBatch(s: State)
    requires Balanced(s) && BatchesOk(s) && s.done != [] && s.done[0].task.batch.Some?
    ensures s.done[0].task.command.Connect?
    ensures var id := s.done[0].task.batch.value;
            id in s.batches && s.batches[id].remaining > 0
  {
    hide Seen, Unfinished, Gone;
    var t := s.done[0].task;
    assert Seen(OfBatch(t.batch.value), s)
        == Unfinished(OfBatch(t.batch.value), s) + Gone(OfBatch(t.batch.value), s);
    HeadIsUnfinished(s, OfBatch(t.batch.value));
    assert t.batch.value in s.batches ==> BatchOk(s, t.batch.value);
    assert Seen(StrayBatch, s) == Unfinished(StrayBatch, s) + Gone(StrayBatch, s);
    if !t.command.Connect? {
      HeadIsUnfinished(s, StrayBatch);
    }
  }

  /** One task of batch `id` is tallied; the batch stays stored or moves to the finished ones. */
  lemma TallyKeepsBooks(s: State, r: State, t: TaskSpec, ok: bool, ip: Ip)
    requires BatchesOk(s) && FinishedOk(s)
    requires t.batch.Some? && t.batch.value in s.batches && s.batches[t.batch.value].remaining > 0
    requires r.started == s.started && r.accepted == s.accepted && r.drained == s.drained + [t]
    requires var id := t.batch.value; var b := Tally(s.batches[id], ip, ok);
             if b.remaining > 0 then r.batches == s.batches[id := b] && r.finished == s.finished
             else r.batches == s.batches - {id} && r.finished == s.finished + [Finished(id, b.success, b.failed)]
    ensures BatchesOk(r) && FinishedOk(r)
  {
    hide Count;
    var id := t.batch.value;
    forall b: BatchId
      ensures Seen(OfBatch(b), r) == Seen(OfBatch(b), s)
      ensures Gone(OfBatch(b), r) == Gone(OfBatch(b), s) + if b == id then 1 else 0
    {
      CountAppend(TaskHas(OfBatch(b)), s.drained, t);
    }
    assert Seen(StrayBatch, r) == Seen(StrayBatch, s);
    assert BatchOk(s, id);
    forall b | b in r.batches ensures BatchOk(r, b) {
      assert BatchOk(s, b);
    }
    TallyKeepsFinished(s, r, id);
  }

  lemma TallyKeepsFinished(s: State, r: State, id: BatchId)
    requires FinishedOk(s) && id in s.batches && BatchOk(s, id) && s.batches[id].remaining > 0
    requires r.started == s.started
    requires (r.batches.Keys == s.batches.Keys && r.finished == s.finished)
          || (r.batches.Keys == s.batches.Keys - {id} && |r.finished| == |s.finished| + 1
              && r.finished == s.finished + [r.finished[|s.finished|]]
              && r.finished[|s.finished|].id == id
              && |r.finished[|s.finished|].success| + |r.finished[|s.finished|].failed| == s.started[id])
    ensures FinishedOk(r)
  {
    hide Seen, Gone;
    forall b | 0 <= b < |r.started| && b !in r.batches
      ensures exists i :: 0 <= i < |r.finished| && r.finished[i].id == b
    {
      if b !in s.batches {
        var i :| 0 <= i < |s.finished| && s.finished[i].id == b;
        assert r.finished[i].id == b;
      } else {
        assert b == id && r.finished[|s.finished|].id == b;
      }
    }
  }

  lemma {:induction false} FollowUpsUntagged(ips: seq<Ip>, connected: set<Ip>, i: nat)
    requires i < |FollowUps(ips, connected)|
    ensures FollowUps(ips, connected)[i].batch.None?
  {
    if ips == [] {
    } else {
      var n := if ips[0] in connected then 2 else 0;
      if i >= n {
        FollowUpsUntagged(ips[1..], connected, i - n);
      }
    }
  }

  lemma CloseKeepsBooks(s: State, t: TaskSpec, ok: bool, connected: set<Ip>)
    requires BatchesOk(s) && FinishedOk(s)
    requires t.batch.Some? && Strip(t.deviceIp) != ""
    requires t.batch.value in s.batches && s.batches[t.batch.value].remaining > 0
    ensures var r := CloseConnect(s.(drained := s.drained + [t]), t, ok, connected);
            BatchesOk(r) && FinishedOk(r)
  {
    hide BatchesOk, FinishedOk, Strip, FirstOccurrences, FollowUps, PushAll, Count;
    var id := t.batch.value;
    var b := Tally(s.batches[id], Strip(t.deviceIp), ok);
    var s1 := s.(drained := s.drained + [t]);
    if b.remaining > 0 {
      TallyKeepsBooks(s, CloseConnect(s1, t, ok, connected), t, ok, Strip(t.deviceIp));
    } else {
      var mid := s1.(batches := s.batches - {id}, finished := s.finished + [Finished(id, b.success, b.failed)]);
      TallyKeepsBooks(s, mid, t, ok, Strip(t.deviceIp));
      var follow := if b.autoInfo then FollowUps(FirstOccurrences(b.success), connected) else [];
      forall i | 0 <= i < |follow| ensures follow[i].batch.None? {
        FollowUpsUntagged(FirstOccurrences(b.success), connected, i);
      }
      PushAllFrame(mid.(accepted := s.accepted + follow), follow);
      UntaggedBooks(mid, PushAll(mid.(accepted := s.accepted + follow), follow), follow, []);
    }
  }

  lemma DrainKeepsBooks(s: State, connected: set<Ip>)
    requires Balanced(s) && BatchesOk(s) && FinishedOk(s) && s.done != []
    ensures BatchesOk(Runtime.Drain(s, connected)) && FinishedOk(Runtime.Drain(s, connected))
  {
    hide BatchesOk, FinishedOk, Balanced, Strip;
    var c := s.done[0];
    var r0 := s.(done := s.done[1..], sched := Release(s.sched, c.task.deviceIp));
    SameBooks(s, r0);
    if c.task.batch.None? {
      UntaggedBooks(r0, r0.(drained := s.drained + [c.task]), [], [c.task]);
    } else {
      HeadBatch(s);
      if Strip(c.task.deviceIp) == "" {
        SameBooks(r0, r0.(lost := s.lost + [c.task]));
      } else {
        CloseKeepsBooks(r0, c.task, c.ok, connected);
      }
    }
  }

  /** No other step touches batches, accepted or drained tasks. */
  lemma OtherStepsLeaveBooks(s: State, e: Event)
    requires Enabled(s, e) && !e.Drained? && !e.BatchOpened? && !e.Enqueued?
    ensures var r := Apply(s, e);
            && r.batches == s.batches && r.started == s.started && r.finished == s.finished
            && r.accepted == s.accepted && r.drained == s.drained
  {
    hide Apply, Enabled;
    if WorkerSide(e) {
      WorkerSideFrame(s, e);
    } else {
      QueueSideLeavesBooks(s, e);
    }
  }

  lemma QueueSideLeavesBooks(s: State, e: Event)
    requires Enabled(s, e) && (e.IncomingEnqueued? || e.Picked? || e.Submitted?)
    ensures var r := Apply(s, e);
            && r.batches == s.batches && r.started == s.started && r.finished == s.finished
            && r.accepted == s.accepted && r.drained == s.drained
  {
    hide PopReady, DroppedBy, Insert, Put, Without;
  }

  lemma StepKeepsBooks(s: State, e: Event)
    requires Balanced(s) && BatchesOk(s) && FinishedOk(s) && Enabled(s, e)
    ensures BatchesOk(Apply(s, e)) && FinishedOk(Apply(s, e))
  {
    hide BatchesOk, FinishedOk, Balanced, Runtime.Drain;
    match e
    case Drained(connected) => DrainKeepsBooks(s, connected);
    case BatchOpened(ts, autoInfo) => OpenKeepsBooks(s, ts, autoInfo);
    case Enqueued(t) => UntaggedBooks(s, EnqueueTask(s, t), [t], []);
    case _ => OtherKeepsBooks(s, e);
  }

  lemma OtherKeepsBooks(s: State, e: Event)
    requires BatchesOk(s) && FinishedOk(s)
    requires Enabled(s, e) && !e.Drained? && !e.BatchOpened? && !e.Enqueued?
    ensures BatchesOk(Apply(s, e)) && FinishedOk(Apply(s, e))
  {
    hide BatchesOk, FinishedOk, Apply;
    OtherStepsLeaveBooks(s, e);
    SameBooks(s, Apply(s, e));
  }

  // ----- Runs -------------------------------------------------------------------------------------

  ghost predicate Inv(s: State) {
    Balanced(s) && OneFlight(s) && ActorsOk(s) && BatchesOk(s) && FinishedOk(s)
  }

  lemma InitInv()
    ensures Inv(INIT)
  {
  }

  lemma StepKeepsInv(s: State, e: Event)
    requires Inv(s) && Enabled(s, e)
    ensures Inv(Apply(s, e))
  {
    hide OneFlight, ActorsOk, BatchesOk, FinishedOk, Apply, Seen, Unfinished, Gone;
    forall tag: Tag ensures Seen(tag, Apply(s, e)) == Unfinished(tag, Apply(s, e)) + Gone(tag, Apply(s, e)) {
      StepKeepsBalance(tag, s, e);
    }
    StepKeepsOneFlight(s, e);
    StepKeepsActors(s, e);
    StepKeepsBooks(s, e);
  }

  /** Every reachable state of the runtime satisfies all of the invariants. */
  lemma {:induction false} ReachableInv(es: seq<Event>, s: State)
    requires Reaches(es, s)
    ensures Inv(s)
  {
    hide Inv, Apply, Enabled, Reaches;
    if es == [] {
      ReachesNothing(s);
      InitInv();
    } else {
      var n := |es| - 1;
      var r := ReachesLast(es, s);
      ReachableInv(es[..n], r);
      StepKeepsInv(r, es[n]);
    }
  }

  /** Single flight: in every run, a device never has two tasks between dispatch and drain. */
  lemma SingleFlight(es: seq<Event>, s: State, ip: Ip)
    requires Reaches(es, s)
    ensures InFlight(OfDevice(ip), s) == if ip in s.sched.submitted then 1 else 0
  {
    hide InFlight;
    ReachableInv(es, s);
  }

  /** `begin_task` never finds its actor busy. */
  lemma NeverBusy(es: seq<Event>, s: State)
    requires Reaches(es, s)
    ensures s.busyErrors == 0
    ensures forall i :: 0 <= i < |s.workers| && s.workers[i].phase.Captured? ==>
              s.workers[i].phase.actor < |s.actors| && !s.actors[s.workers[i].phase.actor].busy
  {
    ReachableInv(es, s);
    forall i | 0 <= i < |s.workers| && s.workers[i].phase.Captured?
      ensures s.workers[i].phase.actor < |s.actors| && !s.actors[s.workers[i].phase.actor].busy
    {
      assert s.workers[i] in s.workers && Holds(s, s.workers[i]);
    }
  }

  /** No task is duplicated or vanishes: each accepted task is in exactly one place, lost or drained. */
  lemma NothingVanishes(es: seq<Event>, s: State, t: TaskSpec)
    requires Reaches(es, s)
    ensures Count(TaskHas(Exactly(t)), s.accepted)
            == Unfinished(Exactly(t), s) + Count(TaskHas(Exactly(t)), s.drained)
  {
    ReachableInv(es, s);
    assert Seen(Exactly(t), s) == Unfinished(Exactly(t), s) + Gone(Exactly(t), s);
  }

  /** While a batch is stored its counters add up to its size, and `remaining` counts its unfinished tasks. */
  lemma BatchAccounting(es: seq<Event>, s: State, b: BatchId)
    requires Reaches(es, s) && b in s.batches
    ensures b < |s.started|
    ensures s.batches[b].remaining + |s.batches[b].success| + |s.batches[b].failed| == s.started[b]
    ensures s.batches[b].remaining == Unfinished(OfBatch(b), s)
  {
    hide Seen, Unfinished, Gone;
    ReachableInv(es, s);
    assert BatchOk(s, b);
    assert Seen(OfBatch(b), s) == Unfinished(OfBatch(b), s) + Gone(OfBatch(b), s);
  }

  /**
   * The finishing branch has fired at most once for every batch. It has fired for a non-empty batch
   * if and only if no task of the batch is still on its way and none was lost; an empty batch never finishes.
   */
  lemma FinishesExactlyOnce(es: seq<Event>, s: State, b: BatchId)
    requires Reaches(es, s) && b < |s.started|
    ensures forall i, j :: 0 <= i < j < |s.finished| ==> s.finished[i].id != s.finished[j].id
    ensures (exists i :: 0 <= i < |s.finished| && s.finished[i].id == b)
            <==> s.started[b] > 0 && Unfinished(OfBatch(b), s) == 0
    ensures forall i :: 0 <= i < |s.finished| && s.finished[i].id == b ==>
              |s.finished[i].success| + |s.finished[i].failed| == s.started[b]
  {
    hide Seen, Unfinished, Gone;
    ReachableInv(es, s);
    assert Seen(OfBatch(b), s) == Unfinished(OfBatch(b), s) + Gone(OfBatch(b), s);
    assert b in s.batches ==> BatchOk(s, b);
  }

  // ----- No deadlock ------------------------------------------------------------------------------

  lemma {:induction false} PushAllWellLaned(s: State, ts: seq<TaskSpec>)
    requires WellLaned(s.sched.lanes)
    ensures WellLaned(PushAll(s, ts).sched.lanes)
    decreases |ts|
  {
    if ts == [] {
    } else {
      WellLanedInsert(s.sched.lanes, Item(ts[0].priority, s.nextSequence, ts[0]));
      PushAllWellLaned(Push(s, ts[0]), ts[1..]);
    }
  }

  lemma DrainWellLaned(s: State, connected: set<Ip>)
    requires s.done != [] && WellLaned(s.sched.lanes)
    ensures WellLaned(Runtime.Drain(s, connected).sched.lanes)
  {
    hide Strip, FirstOccurrences, FollowUps, PushAll, WellLaned;
    var c := s.done[0];
    if c.task.command.Connect? && c.task.batch.Some? && c.task.batch.value in s.batches {
      var b := Tally(s.batches[c.task.batch.value], Strip(c.task.deviceIp), c.ok);
      var follow := if b.autoInfo then FollowUps(FirstOccurrences(b.success), connected) else [];
      var r := s.(done := s.done[1..], sched := Release(s.sched, c.task.deviceIp), drained := s.drained + [c.task],
                  batches := s.batches - {c.task.batch.value},
                  finished := s.finished + [Finished(c.task.batch.value, b.success, b.failed)],
                  accepted := s.accepted + follow);
      PushAllWellLaned(r, follow);
    }
  }

  lemma PopWellLaned(s: Sched, devs: Devices, lane: TaskLane)
    requires WellLaned(s.lanes)
    ensures WellLaned(PopReady(s, devs, lane).0.lanes)
  {
    hide PopReady, DropDead, WellLaned;
    var q := DropDead(devs, s.lanes[lane]);
    DropIsTail(devs, s.lanes[lane]);
    TailIndex(q, s.lanes[lane]);
    PopLanes(s, devs, lane);
    TailWellLaned(s.lanes, lane, q);
  }

  lemma PopLanes(s: Sched, devs: Devices, lane: TaskLane)
    ensures var q, lanes := DropDead(devs, s.lanes[lane]), PopReady(s, devs, lane).0.lanes;
            lanes == Put(s.lanes, lane, q) || (q != [] && lanes == Put(s.lanes, lane, q[1..]))
  {
    hide Dispatchable, DropDead;
  }

  lemma TailWellLaned(lanes: Lanes, l: TaskLane, q: seq<Item>)
    requires WellLaned(lanes) && forall x :: x in q ==> x in lanes[l]
    ensures WellLaned(Put(lanes, l, q))
    ensures q != [] ==> WellLaned(Put(lanes, l, q[1..]))
  {
  }

  lemma StepWellLaned(s: State, e: Event)
    requires WellLaned(s.sched.lanes) && Enabled(s, e)
    ensures WellLaned(Apply(s, e).sched.lanes)
  {
    hide WellLaned, Apply, Enabled;
    if WorkerSide(e) {
      WorkerSideFrame(s, e);
    } else {
      QueueStepWellLaned(s, e);
    }
  }

  lemma QueueStepWellLaned(s: State, e: Event)
    requires WellLaned(s.sched.lanes) && Enabled(s, e) && !WorkerSide(e)
    ensures WellLaned(Apply(s, e).sched.lanes)
  {
    hide WellLaned, PopReady, DroppedBy, Insert, Put, Without, Runtime.Drain;
    match e
    case Drained(connected) => DrainWellLaned(s, connected);
    case Picked(lane, devs) => PopWellLaned(s.sched, devs, lane);
    case Enqueued(t) => WellLanedInsert(s.sched.lanes, Item(t.priority, s.nextSequence, t));
    case IncomingEnqueued(i) =>
      WellLanedInsert(s.sched.lanes, Item(s.incoming[i].priority, s.nextSequence, s.incoming[i]));
    case _ =>
  }

  lemma {:induction false} ReachableWellLaned(es: seq<Event>, s: State)
    requires Reaches(es, s)
    ensures WellLaned(s.sched.lanes)
  {
    hide Apply, Enabled, Reaches, WellLaned;
    if es == [] {
      ReachesNothing(s);
      EmptyWellLaned();
    } else {
      var n := |es| - 1;
      var r := ReachesLast(es, s);
      ReachableWellLaned(es[..n], r);
      StepWellLaned(r, es[n]);
    }
  }

  lemma EmptyWellLaned()
    ensures WellLaned(EMPTY_LANES)
  {
  }

  ghost predicate Quiet(s: State) {
    s.selected == [] && s.pool == [] && s.workers == [] && s.done == []
  }

  /** What the registry answers in state `s`; sessions and snapshots may say anything. */
  ghost predicate Answers(devs: Devices, s: State) {
    && devs.Keys == s.registry.Keys
    && forall ip :: ip in devs ==> s.registry[ip] < |s.actors| && devs[ip].busy == s.actors[s.registry[ip]].busy
  }

  /** With nothing in flight no device is marked submitted and every registered actor is idle. */
  lemma QuietIsIdle(es: seq<Event>, s: State)
    requires Reaches(es, s) && Quiet(s)
    ensures s.sched.submitted == {}
    ensures forall ip :: ip in s.registry ==>
              s.registry[ip] < |s.actors| && !s.actors[s.registry[ip]].busy
  {
    hide Balanced, BatchesOk, FinishedOk;
    ReachableInv(es, s);
    forall ip: Ip ensures InFlight(OfDevice(ip), s) == 0 {
    }
    forall ip | ip in s.registry ensures s.registry[ip] < |s.actors| && !s.actors[s.registry[ip]].busy {
      assert Registered(s, ip);
      IdleWithoutWorker(s, ip);
    }
  }

  /**
   * The runtime does not deadlock: once nothing is in flight, a dispatch over factory-built queues
   * selects a task unless every queued task belonged to a removed device, and then the lanes are empty.
   */
  lemma QuietRuntimeMovesOn(es: seq<Event>, s: State, devs: Devices, lim: Limits)
    requires Reaches(es, s) && Quiet(s) && Answers(devs, s)
    requires Drain.FactoryLanes(s.sched.lanes) && lim.connect >= 1 && lim.other >= 1
    requires DispatchReady(s.sched, devs, lim).selected == []
    ensures Drain.AllEmpty(DispatchReady(s.sched, devs, lim).sched.lanes)
    ensures Drain.LiveTotal(devs, s.sched.lanes) == 0
  {
    hide DispatchReady, Drain.LiveTotal, Drain.Stuck, Drain.FactoryLanes, Drain.AllEmpty, WellLaned;
    QuietIsIdle(es, s);
    ReachableWellLaned(es, s);
    var p := DispatchReady(s.sched, devs, lim);
    Drain.IdleMeansStuck(s.sched, devs, lim);
    DispatchTails(s.sched, devs, lim);
    Drain.TailsKeepFactory(p.sched.lanes, s.sched.lanes);
    Drain.FactoryNeverStuck(p.sched, devs);
    Drain.EmptyHasNoLive(devs, p.sched.lanes);
    DispatchLaws(s.sched, devs, lim);
    Drain.LiveSplit(devs, s.sched.lanes, p.sched.lanes, p.selected);
  }

  lemma DispatchTails(s: Sched, devs: Devices, lim: Limits)
    requires WellLaned(s.lanes)
    ensures LaneTails(DispatchReady(s, devs, lim).sched.lanes, s.lanes)
  {
    hide DispatchReady, IsTail, LiveOf;
    var p := DispatchReady(s, devs, lim);
    DispatchLaws(s, devs, lim);
    forall l: TaskLane ensures IsTail(p.sched.lanes[l], s.lanes[l]) {
      assert LaneLaw(devs, s.lanes[l], p.sched.lanes[l], FromLane(p.selected, l));
    }
  }

  // ----- A dispatch is a sequence of picks ----------------------------------------------------------

  /** Picks of the given lanes, one after the other. */
  ghost function PickAll(s: State, lanes: seq<TaskLane>, devs: Devices): State
    decreases |lanes|
  {
    if lanes == [] then s else PickAll(Pick(s, lanes[0], devs), lanes[1..], devs)
  }

  lemma {:induction false} PickAllConcat(s: State, a: seq<TaskLane>, b: seq<TaskLane>, devs: Devices)
    ensures PickAll(s, a + b, devs) == PickAll(PickAll(s, a, devs), b, devs)
    decreases |a|
  {
    hide Pick;
    if a == [] {
      assert a + b == b;
    } else {
      assert (a + b)[1..] == a[1..] + b;
      PickAllConcat(Pick(s, a[0], devs), a[1..], b, devs);
    }
  }

  /** The protocol state agrees with a dispatch in progress that started when `selected` held `base`. */
  ghost predicate Follows(s: State, p: Pass, base: seq<TaskSpec>) {
    s.sched == p.sched && s.selected == base + TasksOf(p.selected)
  }

  lemma {:induction false} ScanIsPicks(s: State, p: Pass, base: seq<TaskSpec>, devs: Devices, lim: Limits,
                                       order: seq<TaskLane>) returns (lanes: seq<TaskLane>)
    requires Follows(s, p, base)
    ensures Follows(PickAll(s, lanes, devs), ScanLanes(p, devs, lim, order).0, base)
    decreases |order|
  {
    hide PopReady, DroppedBy, Size, TasksOf, ScanLanes;
    lanes := [];
    ScanLanesStep(p, devs, lim, order);
    if order == [] {
    } else {
      var lane := order[0];
      var q := TryLane(p, devs, lim, lane).0;
      if AtLimit(p, lim, lane) {
        lanes := ScanIsPicks(s, p, base, devs, lim, order[1..]);
      } else {
        var r := Pick(s, lane, devs);
        var got := PopReady(p.sched, devs, lane).1;
        if got.None? {
          var rest := ScanIsPicks(r, q, base, devs, lim, order[1..]);
          lanes := [lane] + rest;
        } else {
          TasksOfAppend(p.selected, got.value, base);
          lanes := [lane];
        }
      }
    }
  }

  lemma ScanLanesStep(p: Pass, devs: Devices, lim: Limits, order: seq<TaskLane>)
    ensures ScanLanes(p, devs, lim, order)
            == if order == [] then (p, false)
               else if TryLane(p, devs, lim, order[0]).1 then TryLane(p, devs, lim, order[0])
               else ScanLanes(TryLane(p, devs, lim, order[0]).0, devs, lim, order[1..])
  {
    hide TryLane;
  }

  lemma TasksOfAppend(items: seq<Item>, x: Item, base: seq<TaskSpec>)
    ensures base + TasksOf(items + [x]) == base + TasksOf(items) + [x.task]
  {
  }

  lemma {:induction false} RoundsArePicks(s: State, p: Pass, base: seq<TaskSpec>, devs: Devices, lim: Limits)
    returns (lanes: seq<TaskLane>)
    requires Follows(s, p, base)
    ensures Follows(PickAll(s, lanes, devs), Rounds(p, devs, lim), base)
    decreases Size(p.sched.lanes)
  {
    hide PickAll, ScanLanes, Follows;
    lanes := ScanIsPicks(s, p, base, devs, lim, LANE_ORDER);
    var (q, picked) := ScanLanes(p, devs, lim, LANE_ORDER);
    if !picked {
    } else {
      var rest := RoundsArePicks(PickAll(s, lanes, devs), q, base, devs, lim);
      PickAllConcat(s, lanes, rest, devs);
      lanes := lanes + rest;
    }
  }

  /** `dispatch_ready_tasks` does to the runtime what some sequence of picks does. */
  lemma DispatchIsPicks(s: State, devs: Devices, lim: Limits) returns (lanes: seq<TaskLane>)
    ensures var p := DispatchReady(s.sched, devs, lim);
            && PickAll(s, lanes, devs).sched == p.sched
            && PickAll(s, lanes, devs).selected == s.selected + TasksOf(p.selected)
  {
    hide PickAll, Rounds;
    lanes := RoundsArePicks(s, Pass(s.sched, [], 0, 0), s.selected, devs, lim);
  }
}
