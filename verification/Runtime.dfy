/**
 * The task runtime as a protocol: callers enqueue, the scheduler thread picks, submits and drains,
 * workers run tasks on device actors, and devices come and go
 * (application/core/app_supervisor.py, application/core/device_actor.py).
 */
module Runtime {
  import opened Tasks
  import opened Text
  import opened Counting
  import opened Distinct
  import opened Dispatch

  datatype Completion = Completion(task: TaskSpec, ok: bool)

  /** Where a worker stands inside `_run_task`; actors are named by their index. */
  datatype Phase = Starting | Captured(actor: nat) | Running(actor: nat) | Ended(ok: bool)

  datatype Worker = Worker(task: TaskSpec, phase: Phase)

  /** The fields of `DeviceActor` that decide whether a task may begin. */
  datatype Actor = Actor(ip: Ip, busy: bool, hold: bool)

  datatype Batch = Batch(remaining: int, success: seq<Ip>, failed: seq<Ip>, autoInfo: bool)

  datatype Finished = Finished(id: BatchId, success: seq<Ip>, failed: seq<Ip>)

  /**
   * `incoming`: tasks of `enqueue_connect_batch` that are announced but not yet enqueued.
   * `pool`: accepted by an executor. `started`, `finished`, `accepted`, `drained`, `lost` and
   * `busyErrors` are history; `started[b]` is the size of batch `b`.
   */
  datatype State = State(
    incoming: seq<TaskSpec>,
    sched: Sched,
    nextSequence: nat,
    selected: seq<TaskSpec>,
    pool: seq<TaskSpec>,
    workers: seq<Worker>,
    done: seq<Completion>,
    actors: seq<Actor>,
    registry: map<Ip, nat>,
    snapshots: set<Ip>,
    batches: map<BatchId, Batch>,
    started: seq<nat>,
    finished: seq<Finished>,
    accepted: seq<TaskSpec>,
    drained: seq<TaskSpec>,
    lost: seq<TaskSpec>,
    busyErrors: nat)

  const INIT := State([], Sched(EMPTY_LANES, {}), 1, [], [], [], [], [], map[], {}, map[], [], [], [], [], [], 0)

  // ----- Scheduler and queues -------------------------------------------------------------------

  /** `TaskScheduler.enqueue`. */
  function Push(s: State, t: TaskSpec): State {
    s.(sched := Sched(Put(s.sched.lanes, t.lane, Insert(s.sched.lanes[t.lane], Item(t.priority, s.nextSequence, t))),
                      s.sched.submitted),
       nextSequence := s.nextSequence + 1)
  }

  function PushAll(s: State, ts: seq<TaskSpec>): State
    decreases |ts|
  {
    if ts == [] then s else PushAll(Push(s, ts[0]), ts[1..])
  }

  function EnqueueTask(s: State, t: TaskSpec): State {
    Push(s, t).(accepted := s.accepted + [t])
  }

  /** `enqueue_connect_batch` up to its loop: the batch is stored before any task is enqueued. */
  function OpenBatch(s: State, ts: seq<TaskSpec>, autoInfo: bool): State {
    s.(batches := s.batches[|s.started| := Batch(|ts|, [], [], autoInfo)],
       started := s.started + [|ts|],
       incoming := s.incoming + ts,
       accepted := s.accepted + ts)
  }

  function EnqueueIncoming(s: State, i: nat): State
    requires i < |s.incoming|
  {
    Push(s, s.incoming[i]).(incoming := Without(s.incoming, i))
  }

  function DroppedBy(devs: Devices, q: seq<Item>): seq<TaskSpec> {
    if q != [] && Dead(devs, q[0].task) then [q[0].task] + DroppedBy(devs, q[1..]) else []
  }

  /** One `_pop_next_ready_task_for_lane` of the scheduler thread; `devs` is what the registry answers. */
  ghost function Pick(s: State, lane: TaskLane, devs: Devices): State {
    var (sched, got) := PopReady(s.sched, devs, lane);
    s.(sched := sched,
       selected := if got.None? then s.selected else s.selected + [got.value.task],
       lost := s.lost + DroppedBy(devs, s.sched.lanes[lane]))
  }

  function Release(sched: Sched, ip: Ip): Sched {
    Sched(sched.lanes, sched.submitted - {ip})
  }

  /** `_submit_task`, or its failure as handled by `_scheduler_loop`. */
  function Submit(s: State, ok: bool): State
    requires s.selected != []
  {
    var t := s.selected[0];
    if ok then s.(selected := s.selected[1..], pool := s.pool + [t])
    else s.(selected := s.selected[1..], sched := Release(s.sched, t.deviceIp), lost := s.lost + [t])
  }

  // ----- Workers and devices --------------------------------------------------------------------

  function SetPhase(s: State, i: nat, ph: Phase): State
    requires i < |s.workers|
  {
    s.(workers := s.workers[i := s.workers[i].(phase := ph)])
  }

  function SetBusy(s: State, a: nat, busy: bool): State
    requires a < |s.actors|
  {
    s.(actors := s.actors[a := s.actors[a].(busy := busy)])
  }

  function SetHold(s: State, a: nat, hold: bool): State
    requires a < |s.actors|
  {
    s.(actors := s.actors[a := s.actors[a].(hold := hold)])
  }

  function StartWorker(s: State, i: nat): State
    requires i < |s.pool|
  {
    s.(pool := Without(s.pool, i), workers := s.workers + [Worker(s.pool[i], Starting)])
  }

  /** `_run_task` looks the actor up. */
  function Lookup(s: State, i: nat): State
    requires i < |s.workers| && s.workers[i].phase.Starting?
  {
    var ip := s.workers[i].task.deviceIp;
    SetPhase(s, i, if ip == "" || ip !in s.registry then Ended(false) else Captured(s.registry[ip]))
  }

  /** `execute_task` up to the end of `begin_task`. */
  function Enter(s: State, i: nat): State
    requires i < |s.workers| && s.workers[i].phase.Captured? && s.workers[i].phase.actor < |s.actors|
  {
    var a := s.workers[i].phase.actor;
    var t := s.workers[i].task;
    if s.actors[a].hold && !t.command.Connect? then SetPhase(s, i, Ended(true))
    else if s.actors[a].busy then SetPhase(s, i, Ended(false)).(busyErrors := s.busyErrors + 1)
    else if t.deviceIp !in s.snapshots then SetPhase(SetBusy(s, a, true), i, Ended(false))
    else SetPhase(SetBusy(s, a, true), i, Running(a))
  }

  /** The handler returned or raised; `finish_task` needs the snapshot to clear the actor. */
  function Leave(s: State, i: nat, ok: bool): State
    requires i < |s.workers| && s.workers[i].phase.Running? && s.workers[i].phase.actor < |s.actors|
  {
    if s.workers[i].task.deviceIp in s.snapshots then
      SetPhase(SetBusy(s, s.workers[i].phase.actor, false), i, Ended(ok))
    else SetPhase(s, i, Ended(false))
  }

  /** The `finally` of `_run_task`. */
  function Report(s: State, i: nat): State
    requires i < |s.workers| && s.workers[i].phase.Ended?
  {
    s.(workers := Without(s.workers, i),
       done := s.done + [Completion(s.workers[i].task, s.workers[i].phase.ok)])
  }

  function AddDevice(s: State, ip: Ip): State {
    var t := s.(snapshots := s.snapshots + {ip});
    if ip in s.registry then t
    else t.(actors := s.actors + [Actor(ip, false, false)], registry := s.registry[ip := |s.actors|])
  }

  function RemoveDevice(s: State, ip: Ip): State {
    var t := if ip in s.registry && s.registry[ip] < |s.actors| then SetHold(s, s.registry[ip], true) else s;
    t.(registry := s.registry - {ip}, snapshots := s.snapshots - {ip})
  }

  // ----- Completions ----------------------------------------------------------------------------

  function InfoTask(ip: Ip): TaskSpec {
    TaskSpec("info", ip, InfoLoad, InfoLane, 40, None)
  }

  function HotPollTask(ip: Ip): TaskSpec {
    TaskSpec("poll", ip, StatusPoll, PollHotLane, 20, None)
  }

  /** The reloads queued after a batch for each device in `ips` that is connected with a session. */
  function FollowUps(ips: seq<Ip>, connected: set<Ip>): seq<TaskSpec> {
    if ips == [] then []
    else (if ips[0] in connected then [InfoTask(ips[0]), HotPollTask(ips[0])] else [])
         + FollowUps(ips[1..], connected)
  }

  function Tally(b: Batch, ip: Ip, ok: bool): Batch {
    Batch(if b.remaining > 0 then b.remaining - 1 else b.remaining,
          if ok then b.success + [ip] else b.success,
          if ok then b.failed else b.failed + [ip],
          b.autoInfo)
  }

  /** `_handle_connect_completion`. */
  function CloseConnect(s: State, t: TaskSpec, ok: bool, connected: set<Ip>): State {
    var ip := Strip(t.deviceIp);
    if t.batch.None? then s
    else if ip == "" then s.(lost := s.lost + [t])
    else if t.batch.value !in s.batches then s
    else
      var b := Tally(s.batches[t.batch.value], ip, ok);
      if b.remaining > 0 then s.(batches := s.batches[t.batch.value := b])
      else
        var r := s.(batches := s.batches - {t.batch.value},
                    finished := s.finished + [Finished(t.batch.value, b.success, b.failed)]);
        var follow := if b.autoInfo then FollowUps(FirstOccurrences(b.success), connected) else [];
        PushAll(r.(accepted := r.accepted + follow), follow)
  }

  /** One iteration of `_drain_completion_queue`. */
  function Drain(s: State, connected: set<Ip>): State
    requires s.done != []
  {
    var c := s.done[0];
    var r := s.(done := s.done[1..], sched := Release(s.sched, c.task.deviceIp));
    if !c.task.command.Connect? then r.(drained := s.drained + [c.task])
    else if c.task.batch.Some? && Strip(c.task.deviceIp) == "" then CloseConnect(r, c.task, c.ok, connected)
    else CloseConnect(r.(drained := s.drained + [c.task]), c.task, c.ok, connected)
  }

  // ----- Runs -----------------------------------------------------------------------------------

  datatype Event =
    | Enqueued(task: TaskSpec)
    | BatchOpened(tasks: seq<TaskSpec>, autoInfo: bool)
    | IncomingEnqueued(index: nat)
    | Picked(lane: TaskLane, devs: Devices)
    | Submitted(ok: bool)
    | WorkerStarted(index: nat)
    | LookedUp(index: nat)
    | Entered(index: nat)
    | Left(index: nat, result: bool)
    | Reported(index: nat)
    | Drained(connected: set<Ip>)
    | DeviceAdded(ip: Ip)
    | DeviceRemoved(ip: Ip)
    | Disconnected(ip: Ip)
    | HoldCleared(index: nat)
    | StaleSnapshotWritten(index: nat)

  predicate InPhase(s: State, i: nat, running: bool) {
    && i < |s.workers|
    && (if running then s.workers[i].phase.Running? else s.workers[i].phase.Captured?)
    && s.workers[i].phase.actor < |s.actors|
  }

  predicate Enabled(s: State, e: Event) {
    match e
    case Enqueued(t) => t.batch.None?
    case BatchOpened(ts, _) =>
      forall i :: 0 <= i < |ts| ==>
        ts[i].command.Connect? && ts[i].lane.ConnectLane? && ts[i].batch == Some(|s.started|)
    case IncomingEnqueued(i) => i < |s.incoming|
    case Picked(_, _) => true
    case Submitted(_) => s.selected != []
    case WorkerStarted(i) => i < |s.pool|
    case LookedUp(i) => i < |s.workers| && s.workers[i].phase.Starting?
    case Entered(i) => InPhase(s, i, false)
    case Left(i, _) => InPhase(s, i, true)
    case Reported(i) => i < |s.workers| && s.workers[i].phase.Ended?
    case Drained(_) => s.done != []
    case DeviceAdded(_) => true
    case DeviceRemoved(_) => true
    case Disconnected(ip) => ip in s.registry && s.registry[ip] < |s.actors|
    case HoldCleared(i) => InPhase(s, i, true) && s.workers[i].task.command.Connect?
    case StaleSnapshotWritten(i) => InPhase(s, i, true)
  }

  ghost function Apply(s: State, e: Event): State
    requires Enabled(s, e)
  {
    match e
    case Enqueued(t) => EnqueueTask(s, t)
    case BatchOpened(ts, autoInfo) => OpenBatch(s, ts, autoInfo)
    case IncomingEnqueued(i) => EnqueueIncoming(s, i)
    case Picked(lane, devs) => Pick(s, lane, devs)
    case Submitted(ok) => Submit(s, ok)
    case WorkerStarted(i) => StartWorker(s, i)
    case LookedUp(i) => Lookup(s, i)
    case Entered(i) => Enter(s, i)
    case Left(i, ok) => Leave(s, i, ok)
    case Reported(i) => Report(s, i)
    case Drained(connected) => Drain(s, connected)
    case DeviceAdded(ip) => AddDevice(s, ip)
    case DeviceRemoved(ip) => RemoveDevice(s, ip)
    case Disconnected(ip) => SetHold(s, s.registry[ip], true)
    case HoldCleared(i) => SetHold(s, s.workers[i].phase.actor, false)
    case StaleSnapshotWritten(i) => s.(snapshots := s.snapshots + {s.workers[i].task.deviceIp})
  }

  /** The `i`-th event is possible in the `i`-th state and leads to the next one. */
  ghost predicate StepAt(states: seq<State>, es: seq<Event>, i: nat)
    requires |states| == |es| + 1 && i < |es|
  {
    Enabled(states[i], es[i]) && states[i + 1] == Apply(states[i], es[i])
  }

  ghost predicate IsTrace(states: seq<State>, es: seq<Event>) {
    && |states| == |es| + 1 && states[0] == INIT
    && forall i: nat :: i < |es| ==> StepAt(states, es, i)
  }

  /** `es` is a run from the empty runtime, and it ends in `s`. */
  ghost predicate Reaches(es: seq<Event>, s: State) {
    exists states: seq<State> :: IsTrace(states, es) && states[|es|] == s
  }

  lemma ReachesNothing(s: State)
    ensures Reaches([], s) <==> s == INIT
  {
    hide Apply, Enabled;
    assert IsTrace([INIT], []);
  }

  /** A run goes on with any event that is possible in its last state. */
  lemma ReachesStep(es: seq<Event>, s: State, e: Event)
    requires Reaches(es, s) && Enabled(s, e)
    ensures Reaches(es + [e], Apply(s, e))
  {
    hide Apply, Enabled;
    var states: seq<State> :| IsTrace(states, es) && states[|es|] == s;
    var more := states + [Apply(s, e)];
    forall i: nat | i < |es + [e]| ensures StepAt(more, es + [e], i) {
      if i < |es| {
        assert StepAt(states, es, i);
      }
    }
    assert IsTrace(more, es + [e]);
  }

  /** The last step of a run. */
  lemma ReachesLast(es: seq<Event>, s: State) returns (r: State)
    requires Reaches(es, s) && es != []
    ensures var n := |es| - 1; Reaches(es[..n], r) && Enabled(r, es[n]) && s == Apply(r, es[n])
  {
    hide Apply, Enabled;
    var n := |es| - 1;
    var states: seq<State> :| IsTrace(states, es) && states[|es|] == s;
    r := states[n];
    assert StepAt(states, es, n);
    var past, before := states[..n + 1], es[..n];
    forall i: nat | i < n ensures StepAt(past, before, i) {
      assert StepAt(states, es, i);
    }
    assert IsTrace(past, before);
  }

  // ----- Where tasks are ------------------------------------------------------------------------

  /** The ways tasks are counted below. */
  datatype Tag = OfDevice(ip: Ip) | OfBatch(id: BatchId) | StrayBatch | Exactly(task: TaskSpec)

  predicate Tagged(tag: Tag, t: TaskSpec) {
    match tag
    case OfDevice(ip) => t.deviceIp == ip
    case OfBatch(id) => t.batch == Some(id)
    case StrayBatch => t.batch.Some? && !t.command.Connect?
    case Exactly(u) => t == u
  }

  function TaskHas(tag: Tag): TaskSpec -> bool { (t: TaskSpec) => Tagged(tag, t) }

  function ItemHas(tag: Tag): Item -> bool { (x: Item) => Tagged(tag, x.task) }

  function WorkerHas(tag: Tag): Worker -> bool { (w: Worker) => Tagged(tag, w.task) }

  function CompletionHas(tag: Tag): Completion -> bool { (c: Completion) => Tagged(tag, c.task) }

  function One(tag: Tag, t: TaskSpec): nat { if Tagged(tag, t) then 1 else 0 }

  function InLane(tag: Tag, lanes: Lanes, l: TaskLane): nat { Count(ItemHas(tag), lanes[l]) }

  function Queued(tag: Tag, lanes: Lanes): nat {
    InLane(tag, lanes, ControlLane) + InLane(tag, lanes, ConnectLane) + InLane(tag, lanes, InfoLane)
    + InLane(tag, lanes, PollHotLane) + InLane(tag, lanes, PollWarmLane) + InLane(tag, lanes, FirmwareLane)
    + InLane(tag, lanes, UdpAdminLane)
  }

  /** Dispatched but not yet drained: selected, in an executor, in a worker or in the completion queue. */
  function InFlight(tag: Tag, s: State): nat {
    Count(TaskHas(tag), s.selected) + Count(TaskHas(tag), s.pool)
    + Count(WorkerHas(tag), s.workers) + Count(CompletionHas(tag), s.done)
  }

  function Unfinished(tag: Tag, s: State): nat {
    Count(TaskHas(tag), s.incoming) + Queued(tag, s.sched.lanes) + InFlight(tag, s) + Count(TaskHas(tag), s.lost)
  }

  function Seen(tag: Tag, s: State): nat { Count(TaskHas(tag), s.accepted) }

  function Gone(tag: Tag, s: State): nat { Count(TaskHas(tag), s.drained) }
}
