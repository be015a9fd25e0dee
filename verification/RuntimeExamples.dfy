/** Runs of the task runtime after which a connect batch never finishes. */
module RuntimeExamples {
  import opened Tasks
  import opened Text
  import opened Counting
  import opened Dispatch
  import opened Runtime
  import opened RuntimeLaws
  import opened RuntimeHistory
  import Drain

  // ----- Runs in which the registry answers truly ---------------------------------------------------

  ghost predicate HonestAt(states: seq<State>, es: seq<Event>, i: nat)
    requires |states| == |es| + 1 && i < |es|
  {
    es[i].Picked? ==> Answers(es[i].devs, states[i])
  }

  /** A run in which every pick sees the actors that the registry holds at that moment. */
  ghost predicate Honestly(es: seq<Event>, s: State) {
    exists states: seq<State> ::
      && IsTrace(states, es) && states[|es|] == s
      && forall i: nat :: i < |es| ==> HonestAt(states, es, i)
  }

  lemma HonestStart()
    ensures Honestly([], INIT)
  {
    hide Apply, Enabled;
    assert IsTrace([INIT], []);
  }

  lemma HonestStep(es: seq<Event>, s: State, e: Event) returns (es': seq<Event>)
    requires Honestly(es, s) && Enabled(s, e) && (e.Picked? ==> Answers(e.devs, s))
    ensures es' == es + [e] && Honestly(es', Apply(s, e))
  {
    hide Apply, Enabled, Answers;
    es' := es + [e];
    var states: seq<State> :|
      IsTrace(states, es) && states[|es|] == s && forall i: nat :: i < |es| ==> HonestAt(states, es, i);
    var more := states + [Apply(s, e)];
    forall i: nat | i < |es'| ensures StepAt(more, es', i) && HonestAt(more, es', i) {
      if i < |es| {
        assert StepAt(states, es, i) && HonestAt(states, es, i);
      }
    }
    assert IsTrace(more, es');
  }

  lemma HonestReaches(es: seq<Event>, s: State)
    requires Honestly(es, s)
    ensures Reaches(es, s)
  {
    hide Apply, Enabled, Answers;
  }

  /** Batch 0 is stored, and nothing of it is left to run. */
  ghost predicate Hangs(es: seq<Event>, s: State) {
    Honestly(es, s) && 0 in s.batches && Quiet(s) && s.incoming == [] && AtRest(s, 0) && Doomed(s, 0)
  }

  /** It hangs for ever. */
  lemma HangsForEver(es: seq<Event>, s: State, more: seq<Event>, r: State)
    requires Hangs(es, s) && Reaches(es + more, r)
    ensures 0 in r.batches && !HasFinished(r, 0)
  {
    hide Reaches, Honestly, AtRest, Doomed;
    HonestReaches(es, s);
    DoomedForever(es, more, s, r, 0);
  }

  // ----- An empty batch -------------------------------------------------------------------------------

  lemma EmptyBatchHangs() returns (es: seq<Event>, s: State)
    ensures Hangs(es, s) && es == [BatchOpened([], true)]
  {
    hide Honestly;
    HonestStart();
    es := HonestStep([], INIT, BatchOpened([], true));
    s := OpenBatch(INIT, [], true);
  }

  // ----- A batch of one -------------------------------------------------------------------------------

  function ConnectOf(ip: Ip): TaskSpec {
    TaskSpec("connect", ip, Connect, ConnectLane, 50, Some(0))
  }

  function Fresh(ip: Ip): State {
    INIT.(snapshots := {ip}, actors := [Actor(ip, false, false)], registry := map[ip := 0],
          batches := map[0 := Batch(1, [], [], true)], started := [1], accepted := [ConnectOf(ip)])
  }

  function ItemOf(ip: Ip): Item {
    Item(50, 1, ConnectOf(ip))
  }

  /** The only task of batch 0 is queued, and its device is registered. */
  function OneQueued(ip: Ip): State {
    Fresh(ip).(sched := Sched(Put(EMPTY_LANES, ConnectLane, [ItemOf(ip)]), {}), nextSequence := 2)
  }

  lemma QueueOne(ip: Ip) returns (es: seq<Event>)
    ensures Honestly(es, OneQueued(ip))
    ensures es == [DeviceAdded(ip), BatchOpened([ConnectOf(ip)], true), IncomingEnqueued(0)]
  {
    hide Honestly;
    HonestStart();
    es := HonestStep([], INIT, DeviceAdded(ip));
    var s := AddDevice(INIT, ip);
    es := HonestStep(es, s, BatchOpened([ConnectOf(ip)], true));
    s := OpenBatch(s, [ConnectOf(ip)], true);
    assert s == Fresh(ip).(incoming := [ConnectOf(ip)]);
    es := HonestStep(es, s, IncomingEnqueued(0));
    s := EnqueueIncoming(s, 0);
    assert Insert(EMPTY_LANES[ConnectLane], ItemOf(ip)) == [ItemOf(ip)];
    assert Without([ConnectOf(ip)], 0) == [];
  }

  lemma EmptyLanes(tag: Tag)
    ensures Queued(tag, EMPTY_LANES) == 0
  {
  }

  lemma PutBack(q: seq<Item>)
    ensures Put(Put(EMPTY_LANES, ConnectLane, q), ConnectLane, []) == EMPTY_LANES
  {
  }

  lemma OneLost(s: State, t: TaskSpec)
    requires s.lost == [t] && t.batch == Some(0) && |s.started| > 0
    ensures Doomed(s, 0)
  {
    CountOne(TaskHas(OfBatch(0)), s.lost, 0);
  }

  // ----- The device is removed while its task is queued -----------------------------------------------

  lemma RemovedWhileQueued() returns (es: seq<Event>, s: State)
    ensures Hangs(es, s)
    ensures es == [DeviceAdded(Drain.CAMERA), BatchOpened([ConnectOf(Drain.CAMERA)], true), IncomingEnqueued(0),
                   DeviceRemoved(Drain.CAMERA), Picked(ConnectLane, map[])]
  {
    hide Honestly, AtRest, Doomed;
    es := QueueOne(Drain.CAMERA);
    var q := OneQueued(Drain.CAMERA);
    es := HonestStep(es, q, DeviceRemoved(Drain.CAMERA));
    var r := RemoveDevice(q, Drain.CAMERA);
    var devs: Devices := map[];
    assert r.registry == map[];
    es := HonestStep(es, r, Picked(ConnectLane, devs));
    s := Pick(r, ConnectLane, devs);
    assert [ItemOf(Drain.CAMERA)][1..] == [];
    assert DropDead(devs, [ItemOf(Drain.CAMERA)]) == [];
    assert DroppedBy(devs, [ItemOf(Drain.CAMERA)]) == [ConnectOf(Drain.CAMERA)];
    PutBack([ItemOf(Drain.CAMERA)]);
    assert s.sched == Sched(EMPTY_LANES, {}) && s.lost == [ConnectOf(Drain.CAMERA)];
    NothingLeft(s);
    OneLost(s, ConnectOf(Drain.CAMERA));
  }

  lemma NothingLeft(s: State)
    requires s.sched.lanes == EMPTY_LANES && s.incoming == [] && Quiet(s)
    ensures AtRest(s, 0)
  {
    EmptyLanes(OfBatch(0));
  }

  // ----- The task is picked ----------------------------------------------------------------------------

  /** The task of batch 0 has been picked, with its device idle. */
  function OnePicked(ip: Ip): State {
    Fresh(ip).(sched := Sched(EMPTY_LANES, {ip}), nextSequence := 2, selected := [ConnectOf(ip)])
  }

  lemma PickOne(ip: Ip) returns (es: seq<Event>)
    requires ip != ""
    ensures Honestly(es, OnePicked(ip))
  {
    hide Honestly;
    es := QueueOne(ip);
    var q := OneQueued(ip);
    var devs: Devices := map[ip := Device(false, false, false, true)];
    es := HonestStep(es, q, Picked(ConnectLane, devs));
    assert [ItemOf(ip)][1..] == [];
    assert DropDead(devs, [ItemOf(ip)]) == [ItemOf(ip)] && DroppedBy(devs, [ItemOf(ip)]) == [];
    PutBack([ItemOf(ip)]);
    assert Put(q.sched.lanes, ConnectLane, [ItemOf(ip)]) == q.sched.lanes;
    assert Pick(q, ConnectLane, devs) == OnePicked(ip);
  }

  // ----- Its submission is refused ----------------------------------------------------------------------

  lemma RefusedSubmission() returns (es: seq<Event>, s: State)
    ensures Hangs(es, s) && es[|es| - 1] == Submitted(false)
  {
    hide Honestly, AtRest, Doomed;
    es := PickOne(Drain.CAMERA);
    es := HonestStep(es, OnePicked(Drain.CAMERA), Submitted(false));
    s := Submit(OnePicked(Drain.CAMERA), false);
    assert [ConnectOf(Drain.CAMERA)][1..] == [];
    NothingLeft(s);
    OneLost(s, ConnectOf(Drain.CAMERA));
  }

  // ----- Its address is blank ---------------------------------------------------------------------------

  const BLANK: Ip := " "

  /** The task of batch 0 is in a worker. */
  function OneRunning(ip: Ip, phase: Phase): State {
    OnePicked(ip).(selected := [], workers := [Worker(ConnectOf(ip), phase)])
  }

  lemma RunOne(ip: Ip) returns (es: seq<Event>)
    requires ip != ""
    ensures Honestly(es, OneRunning(ip, Captured(0)))
  {
    hide Honestly;
    es := PickOne(ip);
    es := HonestStep(es, OnePicked(ip), Submitted(true));
    var s := Submit(OnePicked(ip), true);
    assert [ConnectOf(ip)][1..] == [];
    assert s == OnePicked(ip).(selected := [], pool := [ConnectOf(ip)]);
    es := HonestStep(es, s, WorkerStarted(0));
    s := StartWorker(s, 0);
    assert Without([ConnectOf(ip)], 0) == [];
    assert s == OneRunning(ip, Starting);
    es := HonestStep(es, s, LookedUp(0));
    assert Lookup(s, 0).workers == [Worker(ConnectOf(ip), Captured(0))];
    assert Lookup(s, 0) == OneRunning(ip, Captured(0));
  }

  /** The connect succeeds, and its completion is queued. */
  lemma CompleteOne(ip: Ip) returns (es: seq<Event>)
    requires ip != ""
    ensures Honestly(es, OnePicked(ip).(selected := [], done := [Completion(ConnectOf(ip), true)]))
  {
    hide Honestly;
    es := RunOne(ip);
    EnterOne(ip);
    es := HonestStep(es, OneRunning(ip, Captured(0)), Entered(0));
    LeaveOne(ip);
    es := HonestStep(es, OneEntered(ip), Left(0, true));
    ReportOne(ip);
    es := HonestStep(es, OneRunning(ip, Ended(true)), Reported(0));
  }

  function OneEntered(ip: Ip): State {
    OneRunning(ip, Running(0)).(actors := [Actor(ip, true, false)])
  }

  lemma EnterOne(ip: Ip)
    ensures Enter(OneRunning(ip, Captured(0)), 0) == OneEntered(ip)
  {
  }

  lemma LeaveOne(ip: Ip)
    ensures Leave(OneEntered(ip), 0, true) == OneRunning(ip, Ended(true))
  {
  }

  lemma ReportOne(ip: Ip)
    ensures Report(OneRunning(ip, Ended(true)), 0)
            == OnePicked(ip).(selected := [], done := [Completion(ConnectOf(ip), true)])
  {
    assert Without([Worker(ConnectOf(ip), Ended(true))], 0) == [];
  }

  lemma BlankAddress() returns (es: seq<Event>, s: State)
    ensures Hangs(es, s) && es[|es| - 1].Drained?
  {
    hide Honestly, AtRest, Doomed;
    es := CompleteOne(BLANK);
    var r := OnePicked(BLANK).(selected := [], done := [Completion(ConnectOf(BLANK), true)]);
    es := HonestStep(es, r, Drained({}));
    s := Runtime.Drain(r, {});
    assert Strip(BLANK) == "" by {
      assert BLANK[1..] == "";
    }
    assert r.done[1..] == [];
    assert s == r.(done := [], sched := Sched(EMPTY_LANES, {}), lost := [ConnectOf(BLANK)]);
    NothingLeft(s);
    OneLost(s, ConnectOf(BLANK));
  }
}
