/** What runs of the task runtime never take back: losses, and the shape of what was accepted. */
module RuntimeHistory {
  import opened Tasks
  import opened Text
  import opened Counting
  import opened Distinct
  import opened Dispatch
  import opened Runtime
  import opened RuntimeFlow
  import opened RuntimeLaws
  import Drain

  // ----- Steps only add to the history --------------------------------------------------------------

  /** `CommandFactory` puts CONNECT, and nothing else, into the CONNECT lane. */
  predicate FactoryTask(t: TaskSpec) {
    t.command.Connect? <==> t.lane.ConnectLane?
  }

  predicate AllFactory(ts: seq<TaskSpec>) {
    forall i :: 0 <= i < |ts| ==> FactoryTask(ts[i])
  }

  /** The later state has lost, opened and accepted all that the earlier one had, and more factory tasks. */
  ghost predicate Grows(s: State, r: State) {
    s.lost <= r.lost && s.started <= r.started && s.accepted <= r.accepted
  }

  lemma {:induction false} FollowUpsAreFactory(ips: seq<Ip>, connected: set<Ip>)
    ensures AllFactory(FollowUps(ips, connected))
  {
    if ips == [] {
    } else {
      FollowUpsAreFactory(ips[1..], connected);
    }
  }

  lemma DrainGrows(s: State, connected: set<Ip>)
    requires s.done != []
    ensures var r := Runtime.Drain(s, connected);
            Grows(s, r) && AllFactory(r.accepted[|s.accepted|..])
  {
    hide Strip, FirstOccurrences, FollowUps, PushAll, FactoryTask;
    var c := s.done[0];
    if c.task.command.Connect? && c.task.batch.Some? && c.task.batch.value in s.batches {
      var b := Tally(s.batches[c.task.batch.value], Strip(c.task.deviceIp), c.ok);
      var follow := if b.autoInfo then FollowUps(FirstOccurrences(b.success), connected) else [];
      var r := s.(done := s.done[1..], sched := Release(s.sched, c.task.deviceIp), drained := s.drained + [c.task],
                  batches := s.batches - {c.task.batch.value},
                  finished := s.finished + [Finished(c.task.batch.value, b.success, b.failed)],
                  accepted := s.accepted + follow);
      PushAllFrame(r, follow);
      FollowUpsAreFactory(FirstOccurrences(b.success), connected);
      assert (s.accepted + follow)[|s.accepted|..] == follow;
    }
  }

  lemma StepGrows(s: State, e: Event)
    requires Enabled(s, e)
    ensures Grows(s, Apply(s, e))
    ensures !e.Enqueued? ==> AllFactory(Apply(s, e).accepted[|s.accepted|..])
    ensures e.Enqueued? ==> Apply(s, e).accepted == s.accepted + [e.task]
  {
    hide Apply, Enabled;
    if WorkerSide(e) {
      WorkerSideFrame(s, e);
    } else {
      QueueStepGrows(s, e);
    }
  }

  lemma QueueStepGrows(s: State, e: Event)
    requires Enabled(s, e) && !WorkerSide(e)
    ensures Grows(s, Apply(s, e))
    ensures !e.Enqueued? ==> AllFactory(Apply(s, e).accepted[|s.accepted|..])
    ensures e.Enqueued? ==> Apply(s, e).accepted == s.accepted + [e.task]
  {
    hide PopReady, DroppedBy, Insert, Put, Without, Runtime.Drain;
    if e.Drained? {
      DrainGrows(s, e.connected);
    } else if e.BatchOpened? {
      assert (s.accepted + e.tasks)[|s.accepted|..] == e.tasks;
    }
  }

  lemma {:induction false} ReachesUnique(es: seq<Event>, s: State, r: State)
    requires Reaches(es, s) && Reaches(es, r)
    ensures s == r
  {
    hide Apply, Enabled, Reaches;
    if es == [] {
      ReachesNothing(s);
      ReachesNothing(r);
    } else {
      var p := ReachesLast(es, s);
      var q := ReachesLast(es, r);
      ReachesUnique(es[..|es| - 1], p, q);
    }
  }

  /** A run that goes on: its last state is later than the one it went on from. */
  lemma {:induction false} LaterGrows(es: seq<Event>, more: seq<Event>, s: State, r: State)
    requires Reaches(es, s) && Reaches(es + more, r)
    ensures Grows(s, r)
    decreases |more|
  {
    hide Apply, Enabled, Reaches;
    if more == [] {
      assert es + more == es;
      ReachesUnique(es, s, r);
    } else {
      var n := |more| - 1;
      var p := ReachesLast(es + more, r);
      assert (es + more)[..|es + more| - 1] == es + more[..n];
      LaterGrows(es, more[..n], s, p);
      StepGrows(p, (es + more)[|es + more| - 1]);
    }
  }

  // ----- Batches that never finish --------------------------------------------------------------------

  /** The batch is empty, or one of its tasks was lost. */
  ghost predicate Doomed(s: State, b: BatchId) {
    b < |s.started| && (s.started[b] == 0 || Count(TaskHas(OfBatch(b)), s.lost) > 0)
  }

  ghost predicate HasFinished(s: State, b: BatchId) {
    exists i :: 0 <= i < |s.finished| && s.finished[i].id == b
  }

  /** A doomed batch stays stored, unfinished, whatever happens afterwards. */
  lemma DoomedForever(es: seq<Event>, more: seq<Event>, s: State, r: State, b: BatchId)
    requires Reaches(es, s) && Reaches(es + more, r) && Doomed(s, b)
    ensures Doomed(r, b) && b in r.batches && !HasFinished(r, b)
  {
    hide Reaches, TaskHas, Count, InFlight;
    LaterGrows(es, more, s, r);
    assert r.lost == s.lost + r.lost[|s.lost|..];
    CountConcat(TaskHas(OfBatch(b)), s.lost, r.lost[|s.lost|..]);
    FinishesExactlyOnce(es + more, r, b);
    StoredOrFinished(es + more, r, b);
  }

  lemma StoredOrFinished(es: seq<Event>, s: State, b: BatchId)
    requires Reaches(es, s) && b < |s.started|
    ensures b in s.batches <==> !HasFinished(s, b)
  {
    hide Reaches, Balanced, OneFlight, ActorsOk, BatchesOk;
    ReachableInv(es, s);
  }

  /** The batch has no task that could still run. */
  ghost predicate AtRest(s: State, b: BatchId) {
    && Count(TaskHas(OfBatch(b)), s.incoming) == 0 && Queued(OfBatch(b), s.sched.lanes) == 0
    && InFlight(OfBatch(b), s) == 0
  }

  /** And no other batch hangs: with nothing of it left to run, a batch is unfinished if and only if it is doomed. */
  lemma HangsIffDoomed(es: seq<Event>, s: State, b: BatchId)
    requires Reaches(es, s) && b < |s.started| && AtRest(s, b)
    ensures b in s.batches <==> Doomed(s, b)
  {
    hide Reaches, TaskHas, Queued, InFlight;
    FinishesExactlyOnce(es, s, b);
    StoredOrFinished(es, s, b);
  }

  // ----- Factory runs do not deadlock -----------------------------------------------------------------

  /** Every task enqueued one by one has the factory's shape. */
  ghost predicate FactoryRun(es: seq<Event>) {
    forall i :: 0 <= i < |es| && es[i].Enqueued? ==> FactoryTask(es[i].task)
  }

  lemma {:induction false} AcceptedAreFactory(es: seq<Event>, s: State)
    requires Reaches(es, s) && FactoryRun(es)
    ensures AllFactory(s.accepted)
  {
    hide Apply, Enabled, Reaches, FactoryTask;
    if es == [] {
      ReachesNothing(s);
    } else {
      var n := |es| - 1;
      var p := ReachesLast(es, s);
      AcceptedAreFactory(es[..n], p);
      StepGrows(p, es[n]);
      assert s.accepted == p.accepted + s.accepted[|p.accepted|..];
    }
  }

  lemma QueuedIsAccepted(es: seq<Event>, s: State, l: TaskLane, x: Item)
    requires Reaches(es, s) && x in s.sched.lanes[l]
    ensures x.task in s.accepted
  {
    hide Reaches, InFlight;
    var tag := Exactly(x.task);
    NothingVanishes(es, s, x.task);
    var i :| 0 <= i < |s.sched.lanes[l]| && s.sched.lanes[l][i] == x;
    CountOne(ItemHas(tag), s.sched.lanes[l], i);
    InLaneQueued(tag, s.sched.lanes, l);
    if x.task !in s.accepted {
      CountNothing(TaskHas(tag), s.accepted);
    }
  }

  lemma InLaneQueued(tag: Tag, lanes: Lanes, l: TaskLane)
    ensures Count(ItemHas(tag), lanes[l]) <= Queued(tag, lanes)
  {
    hide Count;
  }

  /** So every lane of a factory run is as the factory fills it. */
  lemma FactoryRunLanes(es: seq<Event>, s: State)
    requires Reaches(es, s) && FactoryRun(es)
    ensures Drain.FactoryLanes(s.sched.lanes)
  {
    hide Reaches, FactoryRun;
    AcceptedAreFactory(es, s);
    ReachableWellLaned(es, s);
    forall l: TaskLane, x | x in s.sched.lanes[l] ensures x.task.command.Connect? <==> l == ConnectLane {
      QueuedIsAccepted(es, s, l, x);
      assert FactoryTask(x.task);
    }
  }

  /**
   * No deadlock, over runs: when nothing is in flight, a dispatch that selects nothing has emptied every lane,
   * and no task of a registered device was queued.
   */
  lemma FactoryRunsDoNotDeadlock(es: seq<Event>, s: State, devs: Devices, lim: Limits)
    requires Reaches(es, s) && FactoryRun(es) && Quiet(s) && Answers(devs, s)
    requires lim.connect >= 1 && lim.other >= 1 && DispatchReady(s.sched, devs, lim).selected == []
    ensures Drain.AllEmpty(DispatchReady(s.sched, devs, lim).sched.lanes)
    ensures Drain.LiveTotal(devs, s.sched.lanes) == 0
  {
    hide Reaches, FactoryRun, DispatchReady, Drain.LiveTotal, Drain.FactoryLanes, Drain.AllEmpty;
    FactoryRunLanes(es, s);
    QuietRuntimeMovesOn(es, s, devs, lim);
  }
}
