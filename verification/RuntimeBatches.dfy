/** What a connect batch reports: which of its devices succeeded, which failed, and the reloads that follow. */
module RuntimeBatches {
  import opened Tasks
  import opened Text
  import opened Counting
  import opened Distinct
  import opened Dispatch
  import opened Runtime
  import opened RuntimeFlow
  import opened RuntimeLaws

  // ----- Which completions a batch has drained ----------------------------------------------------

  /** The address, stripped, of the task of batch `b` that event `e` drains with outcome `ok`, if there is one. */
  function EndedBy(s: State, e: Event, b: BatchId, ok: bool): seq<Ip> {
    if && e.Drained? && s.done != []
       && s.done[0].task.batch == Some(b) && s.done[0].ok == ok && Strip(s.done[0].task.deviceIp) != ""
    then [Strip(s.done[0].task.deviceIp)]
    else []
  }

  /** The devices of batch `b` whose completions the first `k` steps drained with outcome `ok`, in that order. */
  function Ends(states: seq<State>, es: seq<Event>, b: BatchId, ok: bool, k: nat): seq<Ip>
    requires |states| == |es| + 1 && k <= |es|
  {
    if k == 0 then [] else Ends(states, es, b, ok, k - 1) + EndedBy(states[k - 1], es[k - 1], b, ok)
  }

  // ----- What one step does to the lists ----------------------------------------------------------

  /** Batch `b` after a step: its lists grew by what the step drained. */
  ghost predicate ListsGrow(s: State, e: Event, r: State, b: BatchId)
    requires b in s.batches && b in r.batches
  {
    && r.batches[b].success == s.batches[b].success + EndedBy(s, e, b, true)
    && r.batches[b].failed == s.batches[b].failed + EndedBy(s, e, b, false)
    && r.batches[b].autoInfo == s.batches[b].autoInfo
  }

  /** The step finished a batch: it leaves the stored ones with the lists it had and what the step drained. */
  ghost predicate Finishes(s: State, e: Event, r: State) {
    && |r.finished| == |s.finished| + 1
    && var f := r.finished[|s.finished|];
    && r.finished == s.finished + [f]
    && f.id in s.batches && r.batches.Keys == s.batches.Keys - {f.id}
    && f.success == s.batches[f.id].success + EndedBy(s, e, f.id, true)
    && f.failed == s.batches[f.id].failed + EndedBy(s, e, f.id, false)
  }

  /** What a step does to the books: it opens batch `|s.started|`, finishes one, or keeps those stored. */
  ghost predicate Moves(s: State, e: Event, r: State) {
    && (forall b :: b in s.batches && b in r.batches ==> ListsGrow(s, e, r, b))
    && (if e.BatchOpened? then
          && r.started == s.started + [|e.tasks|] && r.finished == s.finished
          && r.batches == s.batches[|s.started| := Batch(|e.tasks|, [], [], e.autoInfo)]
        else
          && r.started == s.started
          && (Finishes(s, e, r) || (r.finished == s.finished && r.batches.Keys == s.batches.Keys)))
    && (forall b: BatchId, ok: bool :: b !in s.batches ==> EndedBy(s, e, b, ok) == [])
  }

  lemma StepMoves(s: State, e: Event)
    requires Inv(s) && Enabled(s, e)
    ensures Moves(s, e, Apply(s, e))
  {
    hide Inv, Moves, Apply, Enabled;
    if e.Drained? {
      DrainMoves(s, e);
    } else if e.BatchOpened? {
      OpenMoves(s, e);
    } else if e.Enqueued? {
      EnqueueMoves(s, e);
    } else {
      OtherStepsLeaveBooks(s, e);
      StillMoves(s, e, Apply(s, e));
    }
  }

  lemma StillMoves(s: State, e: Event, r: State)
    requires !e.Drained? && !e.BatchOpened?
    requires r.batches == s.batches && r.started == s.started && r.finished == s.finished
    ensures Moves(s, e, r)
  {
  }

  lemma OpenMoves(s: State, e: Event)
    requires Inv(s) && Enabled(s, e) && e.BatchOpened?
    ensures Moves(s, e, Apply(s, e))
  {
    hide Balanced, OneFlight, ActorsOk, BatchesOk;
    assert |s.started| !in s.batches;
  }

  lemma EnqueueMoves(s: State, e: Event)
    requires Enabled(s, e) && e.Enqueued?
    ensures Moves(s, e, Apply(s, e))
  {
    hide Moves, Insert, Put;
    StillMoves(s, e, Apply(s, e));
  }

  /** A completion without a batch, or with a blank address, leaves the books alone. */
  lemma DrainMoves(s: State, e: Event)
    requires Inv(s) && Enabled(s, e) && e.Drained?
    ensures Moves(s, e, Apply(s, e))
  {
    hide OneFlight, ActorsOk, FinishedOk, Strip, FollowUps, PushAll, FirstOccurrences, Balanced, BatchesOk;
    var c := s.done[0];
    if c.task.batch.Some? {
      HeadBatch(s);
      if Strip(c.task.deviceIp) != "" {
        CloseMoves(s, e.connected);
      }
    }
  }

  lemma CloseMoves(s: State, connected: set<Ip>)
    requires s.done != [] && s.done[0].task.command.Connect? && s.done[0].task.batch.Some?
    requires Strip(s.done[0].task.deviceIp) != ""
    requires s.done[0].task.batch.value in s.batches && s.batches[s.done[0].task.batch.value].remaining > 0
    ensures Moves(s, Drained(connected), Runtime.Drain(s, connected))
  {
    hide Strip, FollowUps, PushAll, FirstOccurrences, Runtime.Drain, Following;
    DrainFollows(s, connected);
    var id, r := s.done[0].task.batch.value, Runtime.Drain(s, connected);
    assert r.batches.Keys == s.batches.Keys || r.batches.Keys == s.batches.Keys - {id};
    forall b | b in s.batches && b in r.batches ensures ListsGrow(s, Drained(connected), r, b) {
    }
  }

  /** The tasks a finishing completion queues. */
  function Following(s: State, connected: set<Ip>): seq<TaskSpec>
    requires s.done != [] && s.done[0].task.batch.Some? && s.done[0].task.batch.value in s.batches
  {
    var b := Tally(s.batches[s.done[0].task.batch.value], Strip(s.done[0].task.deviceIp), s.done[0].ok);
    if b.remaining <= 0 && b.autoInfo then FollowUps(FirstOccurrences(b.success), connected) else []
  }

  /** Draining the completion of a batch is releasing its device, updating the books and queueing the reloads. */
  lemma DrainFollows(s: State, connected: set<Ip>)
    requires s.done != [] && s.done[0].task.command.Connect? && s.done[0].task.batch.Some?
    requires Strip(s.done[0].task.deviceIp) != "" && s.done[0].task.batch.value in s.batches
    ensures var r, id := Runtime.Drain(s, connected), s.done[0].task.batch.value;
            var b := Tally(s.batches[id], Strip(s.done[0].task.deviceIp), s.done[0].ok);
            var more := Following(s, connected);
            && r.batches == (if b.remaining > 0 then s.batches[id := b] else s.batches - {id})
            && r.finished == (if b.remaining > 0 then s.finished
                              else s.finished + [Finished(id, b.success, b.failed)])
            && r.started == s.started && r.accepted == s.accepted + more
            && (exists q: State :: q.sched.lanes == s.sched.lanes && q.nextSequence == s.nextSequence
                                   && r == PushAll(q, more))
  {
    hide Strip, FollowUps, PushAll, FirstOccurrences;
    var c := s.done[0];
    var id, more := c.task.batch.value, Following(s, connected);
    var b := Tally(s.batches[id], Strip(c.task.deviceIp), c.ok);
    var q := s.(done := s.done[1..], sched := Release(s.sched, c.task.deviceIp), drained := s.drained + [c.task],
                batches := if b.remaining > 0 then s.batches[id := b] else s.batches - {id},
                finished := if b.remaining > 0 then s.finished
                            else s.finished + [Finished(id, b.success, b.failed)],
                accepted := s.accepted + more);
    NothingToPush(q);
    PushAllFrame(q, more);
    assert Runtime.Drain(s, connected) == PushAll(q, more);
  }

  // ----- The lists of a batch over a run ----------------------------------------------------------

  /** In the `k`-th state, batch `b` lists exactly what the steps so far have drained of it. */
  ghost predicate ListsTell(states: seq<State>, es: seq<Event>, b: BatchId, k: nat)
    requires |states| == |es| + 1 && k <= |es|
  {
    var s := states[k];
    && (b in s.batches ==>
          s.batches[b].success == Ends(states, es, b, true, k) && s.batches[b].failed == Ends(states, es, b, false, k))
    && (forall f :: f in s.finished && f.id == b ==>
          f.success == Ends(states, es, b, true, k) && f.failed == Ends(states, es, b, false, k))
    && (b >= |s.started| ==> Ends(states, es, b, true, k) == [] && Ends(states, es, b, false, k) == [])
  }

  lemma PrefixReaches(states: seq<State>, es: seq<Event>, k: nat)
    requires IsTrace(states, es) && k <= |es|
    ensures Reaches(es[..k], states[k])
  {
    hide Apply, Enabled;
    var past, before := states[..k + 1], es[..k];
    forall i: nat | i < k ensures StepAt(past, before, i) {
      assert StepAt(states, es, i);
    }
    assert IsTrace(past, before);
  }

  /** The books that an invariant state keeps of its batches. */
  lemma BooksOf(s: State)
    requires Inv(s)
    ensures forall b :: b in s.batches ==> b < |s.started|
    ensures forall f :: f in s.finished ==> f.id < |s.started| && f.id !in s.batches
  {
    hide Balanced, OneFlight, ActorsOk, BatchesOk;
  }

  lemma MovesKeepLists(states: seq<State>, es: seq<Event>, b: BatchId, k: nat)
    requires |states| == |es| + 1 && k < |es|
    requires Moves(states[k], es[k], states[k + 1])
    requires forall i :: i in states[k].batches ==> i < |states[k].started|
    requires forall f :: f in states[k].finished ==> f.id < |states[k].started| && f.id !in states[k].batches
    requires ListsTell(states, es, b, k)
    ensures ListsTell(states, es, b, k + 1)
  {
    hide EndedBy, Strip;
    var s, e, r := states[k], es[k], states[k + 1];
    assert b !in s.batches ==> EndedBy(s, e, b, true) == [] && EndedBy(s, e, b, false) == [];
    if b in s.batches && b in r.batches {
      assert ListsGrow(s, e, r, b);
    }
  }

  lemma {:induction false} ListsAlong(states: seq<State>, es: seq<Event>, b: BatchId, k: nat)
    requires IsTrace(states, es) && k <= |es|
    ensures ListsTell(states, es, b, k)
  {
    hide Inv, Moves, Apply, Enabled, Reaches, EndedBy;
    if k == 0 {
    } else {
      ListsAlong(states, es, b, k - 1);
      PrefixReaches(states, es, k - 1);
      ReachableInv(es[..k - 1], states[k - 1]);
      BooksOf(states[k - 1]);
      assert StepAt(states, es, k - 1);
      StepMoves(states[k - 1], es[k - 1]);
      MovesKeepLists(states, es, b, k - 1);
    }
  }

  /**
   * In every run the success list of a batch, stored or finished, holds the stripped addresses of its
   * drained completions that were ok, in the order they were drained, and the failed list the others.
   */
  lemma ListsAreCompletions(states: seq<State>, es: seq<Event>, b: BatchId)
    requires IsTrace(states, es)
    ensures var s := states[|es|];
            && (b in s.batches ==>
                  && s.batches[b].success == Ends(states, es, b, true, |es|)
                  && s.batches[b].failed == Ends(states, es, b, false, |es|))
            && (forall f :: f in s.finished && f.id == b ==>
                  && f.success == Ends(states, es, b, true, |es|)
                  && f.failed == Ends(states, es, b, false, |es|))
  {
    hide Apply, Enabled;
    ListsAlong(states, es, b, |es|);
  }

  // ----- The reloads that follow ------------------------------------------------------------------

  /**
   * `more` reloads each device of `ips` that is in `connected`, once, in the order of first occurrence:
   * an INFO_LOAD of priority 40 and a hot poll of priority 20. `at` holds their places in `ips`.
   */
  ghost predicate Reloads(more: seq<TaskSpec>, ips: seq<Ip>, connected: set<Ip>, at: seq<nat>) {
    && |more| == 2 * |at|
    && (forall i :: 0 <= i < |at| ==>
          && at[i] < |ips| && ips[at[i]] in connected && ips[at[i]] !in ips[..at[i]]
          && more[2 * i] == TaskSpec("info", ips[at[i]], InfoLoad, InfoLane, 40, None)
          && more[2 * i + 1] == TaskSpec("poll", ips[at[i]], StatusPoll, PollHotLane, 20, None))
    && (forall i, j :: 0 <= i < j < |at| ==> at[i] < at[j])
    && (forall n: nat :: n < |ips| && ips[n] in connected && ips[n] !in ips[..n] ==> n in at)
  }

  lemma {:induction false} FollowUpsAppend(ips: seq<Ip>, ip: Ip, connected: set<Ip>)
    ensures FollowUps(ips + [ip], connected)
            == FollowUps(ips, connected) + if ip in connected then [InfoTask(ip), HotPollTask(ip)] else []
  {
    if ips == [] {
      assert FollowUps([ip], connected)
          == (if ip in connected then [InfoTask(ip), HotPollTask(ip)] else []) + FollowUps([], connected);
    } else {
      assert (ips + [ip])[1..] == ips[1..] + [ip];
      FollowUpsAppend(ips[1..], ip, connected);
    }
  }

  lemma {:induction false} FollowUpsReload(ips: seq<Ip>, connected: set<Ip>) returns (at: seq<nat>)
    ensures Reloads(FollowUps(FirstOccurrences(ips), connected), ips, connected, at)
  {
    hide FollowUps, Reloads;
    if ips == [] {
      at := [];
      NoReloads(connected);
    } else {
      var n := |ips| - 1;
      var before := FirstOccurrences(ips[..n]);
      at := FollowUpsReload(ips[..n], connected);
      FirstOccurrencesAreTheItems(ips[..n]);
      FollowUpsAppend(before, ips[n], connected);
      if ips[n] !in before && ips[n] in connected {
        OneMoreReload(FollowUps(before, connected), ips, connected, at);
        at := at + [n];
      } else {
        SameReloads(FollowUps(before, connected), ips, connected, at);
        assert FollowUps(before, connected) + [] == FollowUps(before, connected);
      }
    }
  }

  lemma NoReloads(connected: set<Ip>)
    ensures Reloads(FollowUps(FirstOccurrences<Ip>([]), connected), [], connected, [])
  {
  }

  lemma OneMoreReload(more: seq<TaskSpec>, ips: seq<Ip>, connected: set<Ip>, at: seq<nat>)
    requires ips != [] && Reloads(more, ips[..|ips| - 1], connected, at)
    requires ips[|ips| - 1] in connected && ips[|ips| - 1] !in ips[..|ips| - 1]
    ensures Reloads(more + [InfoTask(ips[|ips| - 1]), HotPollTask(ips[|ips| - 1])], ips, connected, at + [|ips| - 1])
  {
    var n := |ips| - 1;
    forall i: nat | i <= n ensures ips[..n][..i] == ips[..i] {
    }
    forall i: nat | i < n && ips[i] in connected && ips[i] !in ips[..i] ensures i in at + [n] {
      assert ips[..n][i] == ips[i] && ips[..n][..i] == ips[..i];
    }
    assert (at + [n])[|at|] == n;
  }

  lemma SameReloads(more: seq<TaskSpec>, ips: seq<Ip>, connected: set<Ip>, at: seq<nat>)
    requires ips != [] && Reloads(more, ips[..|ips| - 1], connected, at)
    requires ips[|ips| - 1] !in connected || ips[|ips| - 1] in ips[..|ips| - 1]
    ensures Reloads(more, ips, connected, at)
  {
    var n := |ips| - 1;
    forall i: nat | i <= n ensures ips[..n][..i] == ips[..i] {
    }
    forall i: nat | i < |ips| && ips[i] in connected && ips[i] !in ips[..i] ensures i in at {
      assert i != n;
      assert ips[..n][i] == ips[i] && ips[..n][..i] == ips[..i];
    }
  }

  // ----- They are queued in order -------------------------------------------------------------------

  /** The tasks stand in their lanes, numbered in order from `first`. */
  ghost predicate Numbered(s: State, ts: seq<TaskSpec>, first: nat) {
    forall i :: 0 <= i < |ts| ==> Item(ts[i].priority, first + i, ts[i]) in s.sched.lanes[ts[i].lane]
  }

  lemma {:induction false} InsertHolds(q: seq<Item>, x: Item, y: Item)
    ensures y in Insert(q, x) <==> y == x || y in q
  {
    if q == [] || Less(x, q[0]) {
    } else {
      InsertHolds(q[1..], x, y);
      assert q == [q[0]] + q[1..];
    }
  }

  lemma PushHolds(s: State, t: TaskSpec, y: Item, l: TaskLane)
    requires y in s.sched.lanes[l] || (y == Item(t.priority, s.nextSequence, t) && l == t.lane)
    ensures y in Push(s, t).sched.lanes[l]
  {
    hide Insert;
    InsertHolds(s.sched.lanes[t.lane], Item(t.priority, s.nextSequence, t), y);
  }

  lemma {:induction false} PushAllHolds(s: State, ts: seq<TaskSpec>, y: Item, l: TaskLane)
    requires y in s.sched.lanes[l]
    ensures y in PushAll(s, ts).sched.lanes[l]
    decreases |ts|
  {
    hide Push;
    if ts == [] {
    } else {
      PushHolds(s, ts[0], y, l);
      PushAllHolds(Push(s, ts[0]), ts[1..], y, l);
    }
  }

  lemma PushAllStep(s: State, ts: seq<TaskSpec>)
    requires ts != []
    ensures PushAll(s, ts) == PushAll(Push(s, ts[0]), ts[1..])
    ensures Push(s, ts[0]).nextSequence == s.nextSequence + 1
    ensures Item(ts[0].priority, s.nextSequence, ts[0]) in Push(s, ts[0]).sched.lanes[ts[0].lane]
  {
    hide Insert;
    PushHolds(s, ts[0], Item(ts[0].priority, s.nextSequence, ts[0]), ts[0].lane);
  }

  lemma {:induction false} PushAllNumbers(s: State, ts: seq<TaskSpec>)
    ensures Numbered(PushAll(s, ts), ts, s.nextSequence)
    ensures PushAll(s, ts).nextSequence == s.nextSequence + |ts|
    decreases |ts|
  {
    hide Push, Numbered, PushAll;
    if ts == [] {
      NothingToPush(s);
    } else {
      var x := Item(ts[0].priority, s.nextSequence, ts[0]);
      PushAllStep(s, ts);
      PushAllHolds(Push(s, ts[0]), ts[1..], x, ts[0].lane);
      PushAllNumbers(Push(s, ts[0]), ts[1..]);
      OneMoreNumbered(PushAll(s, ts), ts, s.nextSequence);
    }
  }

  lemma NothingToPush(s: State)
    ensures PushAll(s, []) == s && Numbered(s, [], s.nextSequence)
  {
  }

  lemma OneMoreNumbered(s: State, ts: seq<TaskSpec>, first: nat)
    requires ts != [] && Item(ts[0].priority, first, ts[0]) in s.sched.lanes[ts[0].lane]
    requires Numbered(s, ts[1..], first + 1)
    ensures Numbered(s, ts, first)
  {
    forall i | 0 <= i < |ts| ensures Item(ts[i].priority, first + i, ts[i]) in s.sched.lanes[ts[i].lane] {
      if i > 0 {
        assert ts[1..][i - 1] == ts[i];
        assert Item(ts[1..][i - 1].priority, first + 1 + (i - 1), ts[1..][i - 1])
            in s.sched.lanes[ts[1..][i - 1].lane];
      }
    }
  }

  // ----- What a finished batch queues ---------------------------------------------------------------

  /** While a batch is stored it keeps the choice it was opened with. */
  lemma {:induction false} ChoiceOf(states: seq<State>, es: seq<Event>, b: BatchId, k: nat) returns (j: nat)
    requires IsTrace(states, es) && k <= |es| && b in states[k].batches
    ensures j < k && es[j].BatchOpened? && |states[j].started| == b && states[k].batches[b].autoInfo == es[j].autoInfo
  {
    hide Inv, Apply, Enabled, Reaches, EndedBy, Strip;
    if k == 0 {
      assert false;
    } else {
      PrefixReaches(states, es, k - 1);
      ReachableInv(es[..k - 1], states[k - 1]);
      assert StepAt(states, es, k - 1);
      StepMoves(states[k - 1], es[k - 1]);
      if b in states[k - 1].batches {
        j := ChoiceOf(states, es, b, k - 1);
        assert ListsGrow(states[k - 1], es[k - 1], states[k], b);
      } else {
        j := k - 1;
      }
    }
  }

  /** The later state has accepted `more`, which stands in its lanes in order. */
  ghost predicate Queues(s: State, r: State, more: seq<TaskSpec>) {
    && r.accepted == s.accepted + more
    && Numbered(r, more, s.nextSequence) && r.nextSequence == s.nextSequence + |more|
  }

  /** What is queued when the last finished batch of `r` had, or had not, asked for reloads. */
  ghost predicate Follows(r: State, more: seq<TaskSpec>, autoInfo: bool, connected: set<Ip>, at: seq<nat>) {
    && r.finished != []
    && if autoInfo then Reloads(more, r.finished[|r.finished| - 1].success, connected, at) else more == []
  }

  /** Draining accepts nothing new unless it finishes a batch whose stored choice asks for reloads. */
  lemma DrainQueues(s: State, connected: set<Ip>) returns (more: seq<TaskSpec>, at: seq<nat>)
    requires Inv(s) && s.done != []
    ensures var r := Runtime.Drain(s, connected);
            && Queues(s, r, more)
            && (r.finished == s.finished ==> more == [])
            && (r.finished != s.finished ==>
                  && Finishes(s, Drained(connected), r)
                  && Follows(r, more, s.batches[r.finished[|s.finished|].id].autoInfo, connected, at))
  {
    hide Balanced, OneFlight, ActorsOk, BatchesOk, FinishedOk, Runtime.Drain, Strip, Queues;
    more, at := [], [];
    if s.done[0].task.batch.Some? && Strip(s.done[0].task.deviceIp) != "" {
      HeadBatch(s);
      more, at := CloseQueues(s, connected);
    } else {
      NothingQueued(s, connected);
    }
  }

  lemma CloseQueues(s: State, connected: set<Ip>) returns (more: seq<TaskSpec>, at: seq<nat>)
    requires s.done != [] && s.done[0].task.command.Connect? && s.done[0].task.batch.Some?
    requires Strip(s.done[0].task.deviceIp) != ""
    requires s.done[0].task.batch.value in s.batches && s.batches[s.done[0].task.batch.value].remaining > 0
    ensures var r := Runtime.Drain(s, connected);
            && Queues(s, r, more)
            && (r.finished == s.finished ==> more == [])
            && (r.finished != s.finished ==>
                  && Finishes(s, Drained(connected), r)
                  && Follows(r, more, s.batches[r.finished[|s.finished|].id].autoInfo, connected, at))
  {
    hide Runtime.Drain, Strip, FollowUps, FirstOccurrences, PushAll, Reloads, Numbered;
    DrainFollows(s, connected);
    var r := Runtime.Drain(s, connected);
    more := Following(s, connected);
    var q: State :| q.sched.lanes == s.sched.lanes && q.nextSequence == s.nextSequence && r == PushAll(q, more);
    PushAllNumbers(q, more);
    at := [];
    if r.finished != s.finished {
      at := FollowUpsReload(r.finished[|s.finished|].success, connected);
    }
  }

  lemma NothingQueued(s: State, connected: set<Ip>)
    requires Inv(s) && s.done != []
    requires s.done[0].task.batch.None? || Strip(s.done[0].task.deviceIp) == ""
    ensures var r := Runtime.Drain(s, connected);
            Queues(s, r, []) && r.finished == s.finished
  {
    hide Balanced, OneFlight, ActorsOk, BatchesOk, FinishedOk, Strip, FollowUps, FirstOccurrences, PushAll;
    if s.done[0].task.batch.Some? {
      HeadBatch(s);
    }
  }

  /**
   * A drained completion that finishes a batch queues the reloads of its distinct successes that are
   * connected with a session, if the batch was opened with that choice; every other one queues nothing.
   */
  lemma FinishQueuesReloads(states: seq<State>, es: seq<Event>, k: nat)
    returns (more: seq<TaskSpec>, at: seq<nat>, first: nat)
    requires IsTrace(states, es) && k < |es| && es[k].Drained?
    ensures Queues(states[k], states[k + 1], more)
    ensures states[k + 1].finished == states[k].finished ==> more == []
    ensures states[k + 1].finished != states[k].finished ==>
              && first < k && es[first].BatchOpened?
              && Follows(states[k + 1], more, es[first].autoInfo, es[k].connected, at)
              && var f := states[k + 1].finished[|states[k + 1].finished| - 1];
              && states[k + 1].finished == states[k].finished + [f] && f.id == |states[first].started|
              && f.success == Ends(states, es, f.id, true, k + 1)
  {
    hide Inv, Apply, Enabled, Reaches, EndedBy, Strip, Ends, Follows, Queues, Runtime.Drain;
    PrefixReaches(states, es, k);
    ReachableInv(es[..k], states[k]);
    assert StepAt(states, es, k);
    AppliesDrain(states[k], es[k]);
    more, at := DrainQueues(states[k], es[k].connected);
    first := 0;
    if states[k + 1].finished != states[k].finished {
      var f := states[k + 1].finished[|states[k].finished|];
      first := ChoiceOf(states, es, f.id, k);
      ListsAlong(states, es, f.id, k + 1);
      assert f in states[k + 1].finished;
    }
  }

  lemma AppliesDrain(s: State, e: Event)
    requires Enabled(s, e) && e.Drained?
    ensures s.done != [] && Apply(s, e) == Runtime.Drain(s, e.connected)
  {
    hide Runtime.Drain;
  }

  // ----- An outcome is that of a task that was run --------------------------------------------------

  /**
   * Event `e` ends task `t`. A registered device is needed to run; a held one skips all but a CONNECT,
   * and the skip counts as ok; a handler's answer counts unless the device's snapshot is gone.
   */
  predicate Outcome(s: State, e: Event, t: TaskSpec, ok: bool) {
    match e
    case LookedUp(i) =>
      i < |s.workers| && s.workers[i].task == t && !ok && (t.deviceIp == "" || t.deviceIp !in s.registry)
    case Entered(i) =>
      && InPhase(s, i, false) && s.workers[i].task == t
      && var a := s.actors[s.workers[i].phase.actor];
         if ok then a.hold && t.command != Connect
         else (t.command == Connect || !a.hold) && (a.busy || t.deviceIp !in s.snapshots)
    case Left(i, result) =>
      InPhase(s, i, true) && s.workers[i].task == t && ok == (result && t.deviceIp in s.snapshots)
    case _ => false
  }

  /** A worker that has ended was ended by this step or before it; a completion is reported as it ended. */
  ghost predicate OutcomesMove(s: State, e: Event, r: State) {
    && (forall w :: w in r.workers && w.phase.Ended? ==> w in s.workers || Outcome(s, e, w.task, w.phase.ok))
    && (forall c :: c in r.done ==> c in s.done || Worker(c.task, Ended(c.ok)) in s.workers)
  }

  lemma StepOutcomes(s: State, e: Event)
    requires Enabled(s, e)
    ensures OutcomesMove(s, e, Apply(s, e))
  {
    hide OutcomesMove, Lookup, Enter, Leave, Report, StartWorker, Runtime.Drain, Push, Pick, Submit, SetHold;
    hide AddDevice, RemoveDevice, Without;
    match e
    case LookedUp(i) => OneEnds(s, e, i);
    case Entered(i) => OneEnds(s, e, i);
    case Left(i, _) => OneEnds(s, e, i);
    case Reported(i) => ReportOutcomes(s, i);
    case WorkerStarted(i) => StartOutcomes(s, i);
    case Drained(connected) =>
      DrainFrame(s, connected);
      SameOutcomes(s, e, Apply(s, e));
    case _ =>
      QuietOutcomes(s, e);
  }

  lemma SameOutcomes(s: State, e: Event, r: State)
    requires r.workers == s.workers && forall c :: c in r.done ==> c in s.done
    ensures OutcomesMove(s, e, r)
  {
  }

  lemma QuietOutcomes(s: State, e: Event)
    requires Enabled(s, e) && !e.LookedUp? && !e.Entered? && !e.Left? && !e.Reported?
    requires !e.WorkerStarted? && !e.Drained?
    ensures OutcomesMove(s, e, Apply(s, e))
  {
    hide OutcomesMove, Insert, Put, PopReady, DroppedBy, Without;
    SameOutcomes(s, e, Apply(s, e));
  }

  lemma OneEnds(s: State, e: Event, i: nat)
    requires Enabled(s, e) && (e == LookedUp(i) || e == Entered(i) || (e.Left? && e.index == i))
    ensures OutcomesMove(s, e, Apply(s, e))
  {
    hide OutcomesMove;
    var r := Apply(s, e);
    assert r.workers[i].phase.Ended? ==> Outcome(s, e, r.workers[i].task, r.workers[i].phase.ok);
    OneChanges(s, e, r, i);
  }

  lemma OneChanges(s: State, e: Event, r: State, i: nat)
    requires i < |s.workers| && |r.workers| == |s.workers| && r.workers == s.workers[i := r.workers[i]]
    requires r.done == s.done
    requires r.workers[i].phase.Ended? ==> Outcome(s, e, r.workers[i].task, r.workers[i].phase.ok)
    ensures OutcomesMove(s, e, r)
  {
    hide Outcome;
    forall w | w in r.workers && w != r.workers[i] ensures w in s.workers {
      var j :| 0 <= j < |r.workers| && r.workers[j] == w;
      assert s.workers[j] == w;
    }
  }

  lemma ReportOutcomes(s: State, i: nat)
    requires i < |s.workers| && s.workers[i].phase.Ended?
    ensures OutcomesMove(s, Reported(i), Report(s, i))
  {
    assert s.workers[i] == Worker(s.workers[i].task, Ended(s.workers[i].phase.ok));
  }

  lemma StartOutcomes(s: State, i: nat)
    requires i < |s.pool|
    ensures OutcomesMove(s, WorkerStarted(i), StartWorker(s, i))
  {
    hide Without;
  }

  /** Some step before the `k`-th ended task `t` with outcome `ok`. */
  ghost predicate WasEnded(states: seq<State>, es: seq<Event>, k: nat, t: TaskSpec, ok: bool)
    requires |states| == |es| + 1 && k <= |es|
  {
    exists j: nat :: j < k && Outcome(states[j], es[j], t, ok)
  }

  ghost predicate OutcomesTell(states: seq<State>, es: seq<Event>, k: nat)
    requires |states| == |es| + 1 && k <= |es|
  {
    && (forall w :: w in states[k].workers && w.phase.Ended? ==> WasEnded(states, es, k, w.task, w.phase.ok))
    && (forall c :: c in states[k].done ==> WasEnded(states, es, k, c.task, c.ok))
  }

  lemma EndedStays(states: seq<State>, es: seq<Event>, k: nat, t: TaskSpec, ok: bool)
    requires |states| == |es| + 1 && k < |es|
    requires WasEnded(states, es, k, t, ok) || Outcome(states[k], es[k], t, ok)
    ensures WasEnded(states, es, k + 1, t, ok)
  {
    hide Outcome;
  }

  lemma OutcomesStep(states: seq<State>, es: seq<Event>, k: nat)
    requires |states| == |es| + 1 && k < |es| && OutcomesTell(states, es, k)
    requires OutcomesMove(states[k], es[k], states[k + 1])
    ensures OutcomesTell(states, es, k + 1)
  {
    hide Outcome, WasEnded;
    forall w | w in states[k + 1].workers && w.phase.Ended? ensures WasEnded(states, es, k + 1, w.task, w.phase.ok) {
      EndedStays(states, es, k, w.task, w.phase.ok);
    }
    forall c | c in states[k + 1].done ensures WasEnded(states, es, k + 1, c.task, c.ok) {
      EndedStays(states, es, k, c.task, c.ok);
    }
  }

  lemma {:induction false} OutcomesAlong(states: seq<State>, es: seq<Event>, k: nat)
    requires IsTrace(states, es) && k <= |es|
    ensures OutcomesTell(states, es, k)
  {
    hide Apply, Enabled, OutcomesMove, Outcome;
    if k == 0 {
    } else {
      OutcomesAlong(states, es, k - 1);
      assert StepAt(states, es, k - 1);
      StepOutcomes(states[k - 1], es[k - 1]);
      OutcomesStep(states, es, k - 1);
    }
  }

  /** Every device a batch lists was the target of a CONNECT of that batch which ended with that outcome. */
  lemma {:induction false} ListedDevicesRan(states: seq<State>, es: seq<Event>, b: BatchId, ok: bool, k: nat, n: nat)
    returns (j: nat, t: TaskSpec)
    requires IsTrace(states, es) && k <= |es| && n < |Ends(states, es, b, ok, k)|
    ensures t.command == Connect && t.batch == Some(b) && Strip(t.deviceIp) == Ends(states, es, b, ok, k)[n]
    ensures j < k && Outcome(states[j], es[j], t, ok)
    ensures ok ==> es[j].Left? && es[j].result
  {
    hide Inv, Apply, Enabled, Reaches, Strip, OutcomesTell;
    assert k > 0;
    if n < |Ends(states, es, b, ok, k - 1)| {
      j, t := ListedDevicesRan(states, es, b, ok, k - 1, n);
    } else {
      var s := states[k - 1];
      PrefixReaches(states, es, k - 1);
      ReachableInv(es[..k - 1], s);
      DrainedIsConnect(s);
      OutcomesAlong(states, es, k - 1);
      DrainedWasEnded(states, es, k - 1);
      t := s.done[0].task;
      j :| j < k - 1 && Outcome(states[j], es[j], t, ok);
    }
  }

  lemma DrainedIsConnect(s: State)
    requires Inv(s) && s.done != [] && s.done[0].task.batch.Some?
    ensures s.done[0].task.command.Connect?
  {
    hide Balanced, OneFlight, ActorsOk, BatchesOk, FinishedOk;
    HeadBatch(s);
  }

  lemma DrainedWasEnded(states: seq<State>, es: seq<Event>, k: nat)
    requires |states| == |es| + 1 && k <= |es| && OutcomesTell(states, es, k) && states[k].done != []
    ensures WasEnded(states, es, k, states[k].done[0].task, states[k].done[0].ok)
  {
    hide WasEnded;
    assert states[k].done[0] in states[k].done;
  }
}
