/** What every run of the firmware batch engine keeps. */
module FirmwareLaws {
  import opened Counting
  import opened Firmware

  // ----- One job ----------------------------------------------------------------------------------

  /** Due and deadline times of a job that waits for its device, from the time its upload was collected. */
  ghost predicate Scheduled(j: Job) {
    && j.uploadedAt >= 0.0
    && j.deadline == j.uploadedAt + RECONNECT_TIMEOUT
    && j.nextDue >= j.uploadedAt + RECONNECT_INTERVAL * (j.attempts + 1) as real
  }

  ghost predicate JobOk(j: Job) {
    && j.attempts <= MAX_RECONNECT_ATTEMPTS
    && match j.state
       case Queued => j.future.NoFuture? && !j.disconnect && j.attempts == 0
       case UploadPending => j.future.NoFuture? && !j.disconnect && j.attempts == 0
       case Uploading => !j.future.NoFuture? && !j.disconnect && j.attempts == 0
       case Rebooting => j.future.NoFuture? && j.attempts == 0 && Scheduled(j)
       case Reconnecting => j.future.NoFuture? && j.attempts > 0 && Scheduled(j)
       case Success => j.future.NoFuture? && j.disconnect
       case Failed => j.future.NoFuture? || j.future.UploadError?
  }

  ghost predicate JobsOk(s: State) {
    && s.clock >= 0.0
    && (s.phase.Probing? ==> s.phase.now <= s.clock)
    && forall id :: 0 <= id < |s.jobs| ==> JobOk(s.jobs[id]) && s.jobs[id].uploadedAt <= s.clock
  }

  /** The attempt about to be made is at most the 36th, and leaves the next one due in time. */
  lemma ProbeInTime(j: Job, now: real, ok: bool, after: real)
    requires JobOk(j) && Waiting(j) && !PastDeadline(j, now) && !NotYetDue(j, now) && now <= after
    ensures j.uploadedAt + 5.0 * (j.attempts + 1) as real <= now
    ensures now <= j.uploadedAt + 180.0
    ensures j.attempts + 1 <= 36
    ensures JobOk(Probe(j, ok, after))
  {
    assert j.deadline != 0.0 && j.nextDue != 0.0;
    assert (j.attempts + 2) as real == (j.attempts + 1) as real + 1.0;
    assert RECONNECT_INTERVAL * (j.attempts + 1) as real <= RECONNECT_TIMEOUT;
    assert (j.attempts + 1) as real <= 36.0;
  }

  lemma StepKeepsJobs(n: nat, s: State, e: Event)
    requires JobsOk(s) && Enabled(n, s, e)
    ensures JobsOk(Apply(n, s, e))
  {
    hide CanStart, InBatch, JobsOf, FailedTargets, Count;
    var r := Apply(n, s, e);
    if e.Probed? {
      ProbeInTime(s.jobs[e.id], s.phase.now, e.ok, e.after);
    }
    forall id | 0 <= id < |r.jobs| ensures JobOk(r.jobs[id]) {
      assert id < |s.jobs| ==> JobOk(s.jobs[id]);
    }
  }

  // ----- Upload slots -------------------------------------------------------------------------------

  /** Uploads the collect pass has left running, or has yet to look at and that are running. */
  function IsHeld(): Job -> bool {
    (j: Job) => if j.checked then j.state.Uploading? else j.future.Unfinished?
  }

  /** With `n` slots: unfinished uploads, and jobs shown as uploading, in each phase of the loop. */
  ghost predicate SlotsOk(n: nat, s: State) {
    && Active(s) <= n
    && UploadingCount(s) <= 2 * n
    && match s.phase
       case Promoting => UploadingCount(s) <= n
       case Submitting(free) => Active(s) + free <= n && UploadingCount(s) + free <= 2 * n
       case Collecting => Count(IsHeld(), s.jobs) <= n
       case Probing(_) => UploadingCount(s) <= n
  }

  lemma SetCounts(s: State, id: JobId, j: Job)
    requires id < |s.jobs|
    ensures Active(Set(s, id, j))
            == Active(s) - (if s.jobs[id].future.Unfinished? then 1 else 0) + (if j.future.Unfinished? then 1 else 0)
    ensures UploadingCount(Set(s, id, j))
            == UploadingCount(s) - (if s.jobs[id].state.Uploading? then 1 else 0)
               + (if j.state.Uploading? then 1 else 0)
    ensures Count(IsHeld(), Set(s, id, j).jobs)
            == Count(IsHeld(), s.jobs) - (if IsHeld()(s.jobs[id]) then 1 else 0) + (if IsHeld()(j) then 1 else 0)
  {
    hide Count;
    CountSet(IsUnfinished(), s.jobs, id, j);
    CountSet(IsUploading(), s.jobs, id, j);
    CountSet(IsHeld(), s.jobs, id, j);
  }

  lemma {:induction false} NewJobsCount(ts: seq<Target>, i: nat)
    requires i <= |ts|
    ensures Count(IsUnfinished(), NewJobs(ts)[i..]) == 0
    ensures Count(IsUploading(), NewJobs(ts)[i..]) == 0
    ensures Count(IsHeld(), NewJobs(ts)[i..]) == 0
    decreases |ts| - i
  {
    if i == |ts| {
    } else {
      NewJobsCount(ts, i + 1);
      assert NewJobs(ts)[i..][1..] == NewJobs(ts)[i + 1..];
    }
  }

  lemma CreateKeepsSlots(n: nat, s: State, ts: seq<Target>, retry: bool)
    requires SlotsOk(n, s)
    ensures SlotsOk(n, Create(s, ts, retry))
  {
    hide Count;
    NewJobsCount(ts, 0);
    assert NewJobs(ts)[0..] == NewJobs(ts);
    CountConcat(IsUnfinished(), s.jobs, NewJobs(ts));
    CountConcat(IsUploading(), s.jobs, NewJobs(ts));
    CountConcat(IsHeld(), s.jobs, NewJobs(ts));
  }

  lemma CollectBegunKeepsSlots(n: nat, s: State)
    requires SlotsOk(n, s) && Enabled(n, s, CollectBegun)
    ensures SlotsOk(n, Apply(n, s, CollectBegun))
  {
    var js := Unchecked(s.jobs);
    CountLess(IsHeld(), IsUnfinished(), js, s.jobs);
    CountLess(IsUnfinished(), IsUnfinished(), js, s.jobs);
    CountLess(IsUploading(), IsUploading(), js, s.jobs);
  }

  lemma ProbingBegunKeepsSlots(n: nat, s: State, at: real)
    requires SlotsOk(n, s) && JobsOk(s) && Enabled(n, s, ProbingBegun(at))
    ensures SlotsOk(n, Apply(n, s, ProbingBegun(at)))
  {
    forall id | 0 <= id < |s.jobs| && IsUploading()(s.jobs[id]) ensures IsHeld()(s.jobs[id]) {
      assert JobOk(s.jobs[id]);
    }
    CountLess(IsUploading(), IsHeld(), s.jobs, s.jobs);
  }

  lemma StepKeepsSlots(n: nat, s: State, e: Event)
    requires SlotsOk(n, s) && JobsOk(s) && Enabled(n, s, e)
    ensures SlotsOk(n, Apply(n, s, e))
  {
    hide CanStart, InBatch, JobsOf, FailedTargets, Count, Create;
    match e
    case BatchStarted(ts) => CreateKeepsSlots(n, s, ts, false);
    case RetryStarted => CreateKeepsSlots(n, s, FailedTargets(JobsOf(s, s.batches[|s.batches| - 1])), true);
    case SubmitBegun(_) =>
    case CollectBegun => CollectBegunKeepsSlots(n, s);
    case ProbingBegun(at) => ProbingBegunKeepsSlots(n, s, at);
    case LoopAgain =>
    case Promoted(id) => JobStepKeepsSlots(n, s, e, id);
    case UploadSubmitted(id) => JobStepKeepsSlots(n, s, e, id);
    case UploadFinished(id, _) => JobStepKeepsSlots(n, s, e, id);
    case StillUploading(id) => JobStepKeepsSlots(n, s, e, id);
    case UploadCollected(id, _) => JobStepKeepsSlots(n, s, e, id);
    case UploadFailed(id) => JobStepKeepsSlots(n, s, e, id);
    case TimedOut(id) => JobStepKeepsSlots(n, s, e, id);
    case Probed(id, _, _, _) => JobStepKeepsSlots(n, s, e, id);
  }

  lemma JobStepKeepsSlots(n: nat, s: State, e: Event, id: JobId)
    requires SlotsOk(n, s) && JobsOk(s) && Enabled(n, s, e) && id < |s.jobs|
    requires e.Promoted? || e.UploadSubmitted? || e.UploadFinished? || e.StillUploading? || e.UploadCollected?
             || e.UploadFailed? || e.TimedOut? || e.Probed?
    requires e.id == id
    ensures SlotsOk(n, Apply(n, s, e))
  {
    hide CanStart, InBatch, Count;
    var j := Apply(n, s, e).jobs[id];
    assert JobOk(s.jobs[id]);
    SetCounts(s, id, j);
    assert Apply(n, s, e).jobs == Set(s, id, j).jobs;
  }

  // ----- Batches --------------------------------------------------------------------------------------

  /** Where the block of batch `i` has to end. */
  function EndOf(s: State, i: nat): nat
    requires i < |s.batches|
  {
    if i + 1 < |s.batches| then s.batches[i + 1].first else |s.jobs|
  }

  /** Batches are consecutive, non-empty blocks of jobs. */
  ghost predicate Tiled(s: State) {
    && (s.batches == [] ==> s.jobs == [])
    && forall i: nat :: i < |s.batches| ==>
         s.batches[i].size > 0 && s.batches[i].first + s.batches[i].size == EndOf(s, i)
  }

  /** Only the last batch has jobs that still move. */
  ghost predicate Settled(s: State) {
    forall id :: 0 <= id < |s.jobs| && !Current(s, id) ==> Terminal(s.jobs[id])
  }

  ghost predicate BlocksOk(s: State) {
    Tiled(s) && Settled(s)
  }

  /** A retry batch has the failed targets of the batch before it, in order. */
  ghost predicate RetriesOk(s: State) {
    forall i :: 0 <= i < |s.batches| && s.batches[i].retry ==>
      i > 0 && TargetsOf(JobsOf(s, s.batches[i])) == FailedTargets(JobsOf(s, s.batches[i - 1]))
  }

  lemma BlockEnd(s: State, i: nat)
    requires Tiled(s) && i < |s.batches|
    ensures s.batches[i].size > 0 && s.batches[i].first + s.batches[i].size == EndOf(s, i)
  {
    hide EndOf;
  }

  lemma {:induction false} BlocksFit(s: State, i: nat)
    requires Tiled(s) && i < |s.batches|
    ensures s.batches[i].first + s.batches[i].size <= |s.jobs|
    ensures forall k :: i < k < |s.batches| ==> s.batches[i].first + s.batches[i].size <= s.batches[k].first
    decreases |s.batches| - i
  {
    hide Tiled;
    BlockEnd(s, i);
    if i + 1 == |s.batches| {
    } else {
      BlocksFit(s, i + 1);
    }
  }

  lemma CreateKeepsBlocks(s: State, ts: seq<Target>, retry: bool)
    requires BlocksOk(s) && CanStart(s) && ts != []
    ensures BlocksOk(Create(s, ts, retry))
  {
    var r := Create(s, ts, retry);
    assert Tiled(r) by {
      hide CanStart, Settled, Current;
      forall i: nat | i < |r.batches|
        ensures r.batches[i].size > 0 && r.batches[i].first + r.batches[i].size == EndOf(r, i)
      {
        if i < |s.batches| {
          BlockEnd(s, i);
        }
      }
    }
    assert Settled(r) by {
      forall id | 0 <= id < |r.jobs| && !Current(r, id) ensures Terminal(r.jobs[id]) {
        assert id < |s.jobs|;
        assert r.jobs[id] == s.jobs[id];
      }
    }
  }

  /** A step that changes jobs only, and never a terminal one, keeps the blocks. */
  lemma MovesKeepBlocks(s: State, r: State)
    requires BlocksOk(s) && r.batches == s.batches && |r.jobs| == |s.jobs|
    requires forall id :: 0 <= id < |s.jobs| && Terminal(s.jobs[id]) ==> r.jobs[id].state == s.jobs[id].state
    ensures BlocksOk(r)
  {
    hide InBatch;
    forall id | 0 <= id < |r.jobs| && !Current(r, id) ensures Terminal(r.jobs[id]) {
      assert !Current(s, id);
    }
  }

  /** Terminal jobs never change their state again, and no job ever changes its target. */
  lemma TerminalStays(n: nat, s: State, e: Event, id: JobId)
    requires JobsOk(s) && Enabled(n, s, e) && id < |s.jobs|
    ensures var r := Apply(n, s, e);
            && id < |r.jobs| && r.jobs[id].target == s.jobs[id].target
            && (Terminal(s.jobs[id]) ==> r.jobs[id].state == s.jobs[id].state)
  {
    hide CanStart, InBatch, JobsOf, FailedTargets, Count;
    assert JobOk(s.jobs[id]);
  }

  lemma StepKeepsBlocks(n: nat, s: State, e: Event)
    requires BlocksOk(s) && JobsOk(s) && Enabled(n, s, e)
    ensures BlocksOk(Apply(n, s, e))
  {
    hide BlocksOk, JobsOk, CanStart, Current, JobsOf, FailedTargets, Create;
    match e
    case BatchStarted(ts) => CreateKeepsBlocks(s, ts, false);
    case RetryStarted => CreateKeepsBlocks(s, FailedTargets(JobsOf(s, s.batches[|s.batches| - 1])), true);
    case _ =>
      OtherStepsMoveJobs(n, s, e);
      forall id | 0 <= id < |s.jobs| && Terminal(s.jobs[id])
        ensures Apply(n, s, e).jobs[id].state == s.jobs[id].state
      {
        TerminalStays(n, s, e, id);
      }
      MovesKeepBlocks(s, Apply(n, s, e));
  }

  lemma OtherStepsMoveJobs(n: nat, s: State, e: Event)
    requires Enabled(n, s, e) && !e.BatchStarted? && !e.RetryStarted?
    ensures Apply(n, s, e).batches == s.batches && |Apply(n, s, e).jobs| == |s.jobs|
  {
    hide CanStart, InBatch, JobsOf, FailedTargets, Count;
  }

  ghost predicate AllTerminal(js: seq<Job>) {
    forall i :: 0 <= i < |js| ==> Terminal(js[i])
  }

  /** Jobs with the same targets, and the same states where those are terminal. */
  ghost predicate SameOutcome(a: seq<Job>, b: seq<Job>) {
    |a| == |b| && forall i :: 0 <= i < |a| ==>
      a[i].target == b[i].target && (Terminal(a[i]) ==> b[i].state == a[i].state)
  }

  lemma {:induction false} SameTargets(a: seq<Job>, b: seq<Job>)
    requires SameOutcome(a, b)
    ensures TargetsOf(a) == TargetsOf(b)
    ensures AllTerminal(a) ==> FailedTargets(a) == FailedTargets(b) && SuccessTargets(a) == SuccessTargets(b)
  {
    if a == [] {
    } else {
      SameTargets(a[1..], b[1..]);
    }
  }

  lemma {:induction false} NewTargets(ts: seq<Target>, i: nat)
    requires i <= |ts|
    ensures TargetsOf(NewJobs(ts)[i..]) == ts[i..]
    decreases |ts| - i
  {
    if i == |ts| {
    } else {
      NewTargets(ts, i + 1);
      assert NewJobs(ts)[i..][1..] == NewJobs(ts)[i + 1..];
      assert ts[i..] == [ts[i]] + ts[i + 1..];
    }
  }

  /** The jobs of an earlier batch are terminal. */
  lemma EarlierIsTerminal(s: State, i: nat)
    requires BlocksOk(s) && i + 1 < |s.batches|
    ensures AllTerminal(JobsOf(s, s.batches[i]))
  {
    hide Tiled;
    BlocksFit(s, i);
    var js := JobsOf(s, s.batches[i]);
    forall k | 0 <= k < |js| ensures Terminal(js[k]) {
      assert !Current(s, s.batches[i].first + k);
    }
  }

  /** Old batches keep their targets, and batches before the last keep their failures, across a step. */
  lemma OldBatchesKeep(n: nat, s: State, e: Event, i: nat)
    requires BlocksOk(s) && JobsOk(s) && Enabled(n, s, e) && i < |s.batches|
    ensures var r := Apply(n, s, e);
            && i < |r.batches| && r.batches[i] == s.batches[i]
            && TargetsOf(JobsOf(r, s.batches[i])) == TargetsOf(JobsOf(s, s.batches[i]))
            && (i + 1 < |s.batches| || AllTerminal(JobsOf(s, s.batches[i])) ==>
                  FailedTargets(JobsOf(r, s.batches[i])) == FailedTargets(JobsOf(s, s.batches[i]))
                  && SuccessTargets(JobsOf(r, s.batches[i])) == SuccessTargets(JobsOf(s, s.batches[i])))
  {
    hide Tiled, Settled, JobsOk, CanStart, Current, TargetsOf, FailedTargets, SuccessTargets, Apply;
    var r := Apply(n, s, e);
    var b := s.batches[i];
    BlocksFit(s, i);
    StepGrows(n, s, e);
    assert SameOutcome(JobsOf(s, b), JobsOf(r, b)) by {
      forall k | 0 <= k < b.size
        ensures JobsOf(s, b)[k].target == JobsOf(r, b)[k].target
        ensures Terminal(JobsOf(s, b)[k]) ==> JobsOf(r, b)[k].state == JobsOf(s, b)[k].state
      {
        TerminalStays(n, s, e, b.first + k);
      }
    }
    SameTargets(JobsOf(s, b), JobsOf(r, b));
    if i + 1 < |s.batches| {
      EarlierIsTerminal(s, i);
    }
  }

  lemma StepGrows(n: nat, s: State, e: Event)
    requires Enabled(n, s, e)
    ensures var r := Apply(n, s, e); |s.jobs| <= |r.jobs| && s.batches <= r.batches
  {
    hide CanStart, InBatch, JobsOf, FailedTargets, Count;
  }

  lemma StepKeepsRetries(n: nat, s: State, e: Event)
    requires BlocksOk(s) && JobsOk(s) && RetriesOk(s) && Enabled(n, s, e)
    ensures RetriesOk(Apply(n, s, e))
  {
    hide BlocksOk, JobsOk, Current, JobsOf, TargetsOf, FailedTargets, SuccessTargets, Apply;
    var r := Apply(n, s, e);
    StepGrows(n, s, e);
    if e.BatchStarted? || e.RetryStarted? {
      LastBatchTargets(n, s, e);
    } else {
      OtherStepsMoveJobs(n, s, e);
    }
    forall i | 0 <= i < |r.batches| && r.batches[i].retry
      ensures i > 0 && TargetsOf(JobsOf(r, r.batches[i])) == FailedTargets(JobsOf(r, r.batches[i - 1]))
    {
      if i < |s.batches| {
        OldBatchesKeep(n, s, e, i);
        if i > 0 {
          OldBatchesKeep(n, s, e, i - 1);
        }
      } else {
        OldBatchesKeep(n, s, e, |s.batches| - 1);
      }
    }
  }

  /** A new batch holds the requested targets; the batch before a retry is terminal. */
  lemma LastBatchTargets(n: nat, s: State, e: Event)
    requires BlocksOk(s) && Enabled(n, s, e) && (e.BatchStarted? || e.RetryStarted?)
    ensures var r := Apply(n, s, e);
            && |r.batches| == |s.batches| + 1
            && r.batches[|s.batches|].retry == e.RetryStarted?
            && (e.RetryStarted? ==>
                  && s.batches != []
                  && TargetsOf(JobsOf(r, r.batches[|s.batches|]))
                     == FailedTargets(JobsOf(s, s.batches[|s.batches| - 1]))
                  && AllTerminal(JobsOf(s, s.batches[|s.batches| - 1])))
  {
    hide FailedTargets, TargetsOf, Count;
    var r := Apply(n, s, e);
    var b := r.batches[|s.batches|];
    if e.RetryStarted? {
      var ts := FailedTargets(JobsOf(s, s.batches[|s.batches| - 1]));
      NewTargets(ts, 0);
      assert JobsOf(r, b) == NewJobs(ts)[0..];
      assert ts[0..] == ts;
      BlocksFit(s, |s.batches| - 1);
      var c := s.batches[|s.batches| - 1];
      var js := JobsOf(s, c);
      forall k | 0 <= k < |js| ensures Terminal(js[k]) {
        assert Current(s, c.first + k);
      }
    }
  }
}
