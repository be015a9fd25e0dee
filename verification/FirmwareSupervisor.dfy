/**
 * The firmware batch supervisor and its job registry, as the fields the passes update in place
 * (application/firmware/firmware_batch_supervisor.py, application/firmware/firmware_job_registry.py). The
 * ghost field `run` records what happened; every method extends it by steps of the protocol in `Firmware`.
 */
module FirmwareSupervisor {
  import opened Counting
  import opened Firmware
  import opened FirmwareLaws
  import opened FirmwareRuns
  import opened FirmwareRecords

  class FirmwareBatchSupervisor {
    const parallelism: nat
    const answers: (JobId, nat) -> bool
    var jobs: map<JobId, Record>
    var jobIdsByBatch: seq<seq<JobId>>
    var runtime: map<JobId, Slot>
    var created: nat
    var clock: real
    ghost var run: Run

    /** The protocol's view of this object. */
    ghost function Now(): State
      reads this
    {
      if run.states == [] then INIT else run.Last()
    }

    ghost predicate Mirrors(s: State)
      reads this
    {
      ShowsAll(jobs, runtime, s.jobs) && ShowsBatches(jobIdsByBatch, s.batches)
      && created == |s.jobs| && clock == s.clock
    }

    ghost predicate Valid()
      reads this
    {
      parallelism >= 1 && IsRun(parallelism, run) && run.states != [] && Mirrors(Now())
    }

    /** `answers` tells whether the device of a job answers its `k`-th probe, counting from zero, with a version. */
    constructor (parallelismDefault: int, parallelismMax: int, answers: (JobId, nat) -> bool)
      ensures this.answers == answers
      ensures Valid() && run.events == [] && parallelism >= 1
      ensures 1 <= parallelismDefault <= parallelismMax ==> parallelism == parallelismDefault
      ensures 1 <= parallelismMax < parallelismDefault ==> parallelism == parallelismMax
      ensures parallelismDefault < 1 || parallelismMax < 1 ==> parallelism == 1
    {
      var least := if parallelismDefault < parallelismMax then parallelismDefault else parallelismMax;
      this.answers := answers;
      parallelism := if least < 1 then 1 else least;
      jobs, jobIdsByBatch, runtime, created, clock := map[], [], map[], 0, 0.0;
      run := Run([INIT], []);
    }

    /** The ids of the current batch. */
    function CurrentIds(): seq<JobId>
      reads this
    {
      if jobIdsByBatch == [] then [] else jobIdsByBatch[|jobIdsByBatch| - 1]
    }

    /** `list_jobs` for the current batch. */
    function ListJobs(): seq<Record>
      reads this
    {
      Lookup(jobs, CurrentIds())
    }

    /** The list has the current batch's records in id order. */
    lemma Listed()
      requires Valid()
      ensures var s := Now();
              var list := ListJobs();
              && (s.batches == [] ==> list == [])
              && (s.batches != [] ==>
                    var b := s.batches[|s.batches| - 1];
                    && |list| == b.size && b.first + b.size == |s.jobs|
                    && forall i: nat :: i < |list| ==>
                         b.first + i in jobs && list[i] == jobs[b.first + i] && list[i].jobId == b.first + i)
    {
      hide IsRun, JobsOk, SlotsOk, RetriesOk, Tiled, Settled, Enabled, Apply;
      RunShape(parallelism, run);
      RunInv(parallelism, run, |run.states| - 1);
      var s := Now();
      if s.batches != [] {
        var b := s.batches[|s.batches| - 1];
        BlockEnd(s, |s.batches| - 1);
        LookupAll(jobs, Ids(b));
      }
    }

    /** One more step of the protocol has happened. */
    ghost method Take(e: Event)
      requires IsRun(parallelism, run) && run.states != [] && Enabled(parallelism, run.Last(), e)
      modifies `run
      ensures IsRun(parallelism, run) && run.states != [] && run.Last() == Apply(parallelism, old(run.Last()), e)
      ensures run.events == old(run.events) + [e] && run.states == old(run.states) + [run.Last()]
    {
      hide Enabled, Apply;
      RunExtends(parallelism, run, e);
      run := run.Then(parallelism, e);
    }

    /** A registry record and its runtime entry show the protocol's job. */
    lemma ShownAt(id: JobId)
      requires Valid() && id in jobs
      ensures id < |Now().jobs| && Shows(jobs[id], SlotOf(runtime, id), id, Now().jobs[id])
    {
      hide IsRun, Shows;
    }

    /** `update_job` at time `now`, for a step that leaves the runtime entry alone. */
    method UpdateJob(rec: Record, now: real, ghost e: Event)
      requires Valid() && rec.jobId in jobs && Enabled(parallelism, Now(), e)
      requires var s := Now();
               var r := Apply(parallelism, s, e);
               && rec.jobId < |s.jobs| && |r.jobs| == |s.jobs| && r.batches == s.batches && r.clock == now
               && r.jobs == s.jobs[rec.jobId := r.jobs[rec.jobId]]
               && Shows(rec, SlotOf(runtime, rec.jobId), rec.jobId, r.jobs[rec.jobId])
      modifies `jobs, `clock, `run
      ensures Valid() && Continues(old(run), run)
      ensures Now() == Apply(parallelism, old(Now()), e)
      ensures jobs == old(jobs)[rec.jobId := rec]
    {
      hide IsRun, Enabled, Apply, Shows;
      ghost var s := Now();
      var id := rec.jobId;
      ShowsUpdate(jobs, runtime, s.jobs, id, rec, SlotOf(runtime, id), Apply(parallelism, s, e).jobs[id]);
      Take(e);
      jobs := jobs[id := rec];
      clock := now;
    }

    /** A step that changes a record and its runtime entry. */
    method UpdateJobAndEntry(rec: Record, slot: Slot, now: real, ghost e: Event)
      requires Valid() && rec.jobId in jobs && Enabled(parallelism, Now(), e)
      requires var s := Now();
               var r := Apply(parallelism, s, e);
               && rec.jobId < |s.jobs| && |r.jobs| == |s.jobs| && r.batches == s.batches && r.clock == now
               && r.jobs == s.jobs[rec.jobId := r.jobs[rec.jobId]]
               && Shows(rec, slot, rec.jobId, r.jobs[rec.jobId])
      modifies `jobs, `runtime, `clock, `run
      ensures Valid() && Continues(old(run), run)
      ensures Now() == Apply(parallelism, old(Now()), e)
      ensures jobs == old(jobs)[rec.jobId := rec] && runtime == old(runtime)[rec.jobId := slot]
    {
      hide IsRun, Enabled, Apply, Shows;
      ghost var s := Now();
      var id := rec.jobId;
      ShowsUpdate(jobs, runtime, s.jobs, id, rec, slot, Apply(parallelism, s, e).jobs[id]);
      Take(e);
      jobs := jobs[id := rec];
      runtime := runtime[id := slot];
      clock := now;
    }

    /** Reads the clock, which never goes back. */
    method ReadClock() returns (now: real)
      ensures now >= clock
    {
      now := *;
      if now < clock {
        now := clock;
      }
    }

    /** Any number of running uploads finish, each with any outcome. */
    method WorkersRun()
      requires Valid()
      modifies `runtime, `run
      ensures Valid() && Continues(old(run), run)
      ensures WorkersOnly(old(Now()), Now())
      ensures forall id: JobId :: FutureStep(SlotOf(old(runtime), id).future, SlotOf(runtime, id).future)
      ensures forall id: JobId :: SlotOf(old(runtime), id).disconnect == SlotOf(runtime, id).disconnect
    {
      hide IsRun, ShowsAll, ShowsBatches;
      var steps: nat := *;
      var i := 0;
      while i < steps
        invariant Valid() && Continues(old(run), run)
        invariant WorkersOnly(old(Now()), Now())
        invariant forall id: JobId :: FutureStep(SlotOf(old(runtime), id).future, SlotOf(runtime, id).future)
        invariant forall id: JobId :: SlotOf(old(runtime), id).disconnect == SlotOf(runtime, id).disconnect
      {
        var id: nat := *;
        var result: Future := *;
        if id in runtime && runtime[id].future.Unfinished? && (result.Uploaded? || result.UploadError?) {
          FinishUpload(id, result);
        }
        i := i + 1;
      }
    }

    method FinishUpload(id: JobId, result: Future)
      requires Valid() && id in runtime && runtime[id].future.Unfinished? && (result.Uploaded? || result.UploadError?)
      modifies `runtime, `run
      ensures Valid() && Continues(old(run), run)
      ensures id < |old(Now()).jobs| && old(Now()).jobs[id].future.Unfinished?
      ensures Now() == Set(old(Now()), id, old(Now()).jobs[id].(future := result))
      ensures runtime == old(runtime)[id := old(runtime)[id].(future := result)]
    {
      hide IsRun;
      var s := Now();
      ShowsUpdate(jobs, runtime, s.jobs, id, jobs[id], runtime[id].(future := result), s.jobs[id].(future := result));
      Take(UploadFinished(id, result));
      runtime := runtime[id := runtime[id].(future := result)];
      assert jobs == jobs[id := jobs[id]];
    }

    /** `can_start_batch`: all jobs of the current batch are terminal, and it has some. */
    method CanStartBatch() returns (free: bool)
      requires Valid()
      ensures free <==> CanStart(Now())
    {
      hide IsRun, Lookup, ListJobs, Ids;
      Listed();
      var list := ListJobs();
      if jobIdsByBatch == [] {
        return true;
      }
      free := |list| > 0;
      for i := 0 to |list|
        invariant free <==> |list| > 0 && forall k :: 0 <= k < i ==> list[k].state.Success? || list[k].state.Failed?
      {
        free := free && (list[i].state.Success? || list[i].state.Failed?);
      }
      CurrentStates(list, free);
    }

    lemma CurrentStates(list: seq<Record>, free: bool)
      requires Valid() && list == ListJobs() && jobIdsByBatch != []
      requires free <==> |list| > 0 && forall k :: 0 <= k < |list| ==> list[k].state.Success? || list[k].state.Failed?
      ensures free <==> CanStart(Now())
    {
      hide IsRun, Lookup, ListJobs;
      Listed();
      var s := Now();
      var b := s.batches[|s.batches| - 1];
      if free {
        forall id: nat | id < |s.jobs| && Current(s, id) ensures Terminal(s.jobs[id]) {
          assert list[id - b.first] == jobs[id];
        }
      } else if |list| > 0 {
        var k: nat :| k < |list| && !(list[k].state.Success? || list[k].state.Failed?);
        assert Current(s, b.first + k) && !Terminal(s.jobs[b.first + k]);
      }
    }

    /** The loop of `create_batch` over its targets. */
    method AddJobs(targets: seq<Target>, ghost js: seq<Job>) returns (ids: seq<JobId>)
      requires ShowsAll(jobs, runtime, js) && created == |js|
      modifies `jobs, `created
      ensures ShowsAll(jobs, runtime, js + NewJobs(targets)) && created == |js| + |targets|
      ensures |ids| == |targets| && forall i :: 0 <= i < |ids| ==> ids[i] == |js| + i
    {
      hide ShowsAll;
      ids := [];
      assert js + NewJobs(targets[..0]) == js;
      for i := 0 to |targets|
        invariant created == |js| + i
        invariant ShowsAll(jobs, runtime, js + NewJobs(targets[..i]))
        invariant |ids| == i && forall k :: 0 <= k < i ==> ids[k] == |js| + k
      {
        ghost var shown := js + NewJobs(targets[..i]);
        assert shown + [NewJob(targets[i])] == js + NewJobs(targets[..i + 1]);
        ShowsNew(jobs, runtime, shown, targets[i]);
        jobs := jobs[created := NewRecord(created, targets[i])];
        ids := ids + [created];
        created := created + 1;
      }
      assert targets[..|targets|] == targets;
    }

    /** `create_batch`: new jobs, queued, in the order of the targets; the new batch is the current one. */
    method CreateBatch(targets: seq<Target>, ghost e: Event)
      requires Valid() && Enabled(parallelism, Now(), e) && (e.BatchStarted? || e.RetryStarted?)
      requires Apply(parallelism, Now(), e) == Create(Now(), targets, e.RetryStarted?)
      modifies `jobs, `jobIdsByBatch, `created, `run
      ensures Valid() && Continues(old(run), run)
      ensures Now() == Create(old(Now()), targets, e.RetryStarted?)
    {
      hide IsRun, ShowsAll, Enabled, Apply;
      ghost var s := Now();
      var ids := AddJobs(targets, s.jobs);
      assert ids == Ids(Batch(|s.jobs|, |targets|, e.RetryStarted?));
      jobIdsByBatch := jobIdsByBatch + [ids];
      Take(e);
    }

    /** `start_batch`; the firmware file is the caller's business but for its presence. */
    method StartBatch(targets: seq<Target>, fileFound: bool) returns (result: StartResult)
      requires Valid()
      modifies `jobs, `jobIdsByBatch, `created, `run
      ensures Valid() && Continues(old(run), run)
      ensures result == if targets == [] then EmptyTargets
                        else if !fileFound then FileNotFound
                        else if !CanStart(old(Now())) then Busy
                        else Started
      ensures result.Started? ==> Now() == Create(old(Now()), targets, false)
      ensures !result.Started? ==> Now() == old(Now())
    {
      hide IsRun, ShowsAll, ShowsBatches, CanStart;
      if targets == [] {
        return EmptyTargets;
      }
      if !fileFound {
        return FileNotFound;
      }
      var free := CanStartBatch();
      if !free {
        return Busy;
      }
      CreateBatch(targets, BatchStarted(targets));
      result := Started;
    }

    /** `retry_failed_only` */
    method RetryFailedOnly(fileFound: bool) returns (result: StartResult)
      requires Valid()
      modifies `jobs, `jobIdsByBatch, `created, `run
      ensures Valid() && Continues(old(run), run)
      ensures result == if !fileFound then FileNotFound
                        else if !CanStart(old(Now())) then Busy
                        else if CurrentFailures(old(Now())) == [] then NothingFailed
                        else Started
      ensures result.Started? ==> Now() == Create(old(Now()), CurrentFailures(old(Now())), true)
      ensures !result.Started? ==> Now() == old(Now())
    {
      hide IsRun, ShowsAll, ShowsBatches, CanStart;
      if !fileFound {
        return FileNotFound;
      }
      var free := CanStartBatch();
      if !free {
        return Busy;
      }
      var failed := Faileds(ListJobs());
      ListedFailures();
      if failed == [] {
        return NothingFailed;
      }
      CreateBatch(Targets(failed), RetryStarted);
      result := Started;
    }

    lemma ListedFailures()
      requires Valid()
      ensures Targets(Faileds(ListJobs())) == CurrentFailures(Now())
      ensures Faileds(ListJobs()) == [] <==> CurrentFailures(Now()) == []
    {
      hide IsRun, Lookup, ListJobs, Ids, CurrentIds;
      Listed();
      var s := Now();
      if s.batches != [] {
        SameFailures(ListJobs(), JobsOf(s, s.batches[|s.batches| - 1]));
      }
    }

    /** `_promote_queued_jobs`: every queued job of the current batch becomes ready for upload, nothing else moves. */
    method PromoteQueuedJobs() returns (progressed: bool)
      requires Valid() && Now().phase.Promoting?
      modifies `jobs, `runtime, `clock, `run
      ensures Valid() && Continues(old(run), run) && Now().phase.Promoting? && SamePass(old(Now()), Now())
      ensures jobs.Keys == old(jobs).Keys
      ensures forall id :: id in jobs ==> jobs[id] == Promotion(Current(old(Now()), id), old(jobs)[id])
      ensures !progressed ==> jobs == old(jobs)
    {
      hide IsRun, ShowsAll, ShowsBatches;
      progressed := false;
      Listed();
      var list := ListJobs();
      ghost var s := Now();
      ghost var first := if s.batches == [] then 0 else s.batches[|s.batches| - 1].first;
      for i := 0 to |list|
        invariant Valid() && Continues(old(run), run) && Now().phase.Promoting? && SamePass(s, Now())
        invariant jobs.Keys == old(jobs).Keys
        invariant forall id :: id in jobs ==> jobs[id] == Promotion(first <= id < first + i, old(jobs)[id])
        invariant !progressed ==> jobs == old(jobs)
      {
        WorkersRun();
        if list[i].state.Queued? {
          Promote(list[i]);
          progressed := true;
        }
      }
    }

    method Promote(rec: Record)
      requires Valid() && Now().phase.Promoting? && rec.jobId in jobs && jobs[rec.jobId] == rec && rec.state.Queued?
      requires Current(Now(), rec.jobId)
      modifies `jobs, `clock, `run
      ensures Valid() && Continues(old(run), run) && Now().phase.Promoting? && SamePass(old(Now()), Now())
      ensures jobs == old(jobs)[rec.jobId := rec.(state := UploadPending)]
    {
      hide IsRun, ShowsAll, ShowsBatches, Current, CanStart, JobsOf, FailedTargets;
      ShownAt(rec.jobId);
      UpdateJob(rec.(state := UploadPending), clock, Promoted(rec.jobId));
    }

    /** `_active_upload_count`, while uploads go on finishing. */
    method ActiveUploadCount() returns (count: nat)
      requires Valid()
      modifies `runtime, `run
      ensures Valid() && Continues(old(run), run) && WorkersOnly(old(Now()), Now())
      ensures Active(Now()) <= count <= Active(old(Now()))
    {
      hide IsRun, ShowsAll, ShowsBatches, Count;
      count := 0;
      ghost var s := Now();
      CountNone(s.jobs);
      for i := 0 to created
        invariant Valid() && Continues(old(run), run) && WorkersOnly(s, Now())
        invariant Count(IsUnfinished(), Now().jobs[..i]) <= count <= Count(IsUnfinished(), s.jobs[..i])
      {
        ghost var before := Now();
        WorkersRun();
        WorkersCount(before, Now(), i);
        EntryOf(i);
        CountAppend(IsUnfinished(), Now().jobs[..i], Now().jobs[i]);
        CountAppend(IsUnfinished(), s.jobs[..i], s.jobs[i]);
        assert Now().jobs[..i + 1] == Now().jobs[..i] + [Now().jobs[i]];
        assert s.jobs[..i + 1] == s.jobs[..i] + [s.jobs[i]];
        if i in runtime && runtime[i].future.Unfinished? {
          count := count + 1;
        }
      }
      assert Now().jobs[..created] == Now().jobs && s.jobs[..created] == s.jobs;
    }

    lemma CountNone(js: seq<Job>)
      ensures Count(IsUnfinished(), js[..0]) == 0
    {
    }

    lemma EntryOf(id: JobId)
      requires Valid() && id < created
      ensures id < |Now().jobs| && id in jobs && SlotOf(runtime, id).future == Now().jobs[id].future
      ensures SlotOf(runtime, id).disconnect == Now().jobs[id].disconnect
    {
      hide IsRun;
    }

    /**
     * `_submit_uploads`: the first pending jobs of the current batch, as many as there are free slots, start
     * uploading; nothing else moves.
     */
    method SubmitUploads() returns (progressed: bool, free: int, ghost begun: Run)
      requires Valid() && Now().phase.Promoting?
      modifies `jobs, `runtime, `clock, `run
      ensures Valid() && Continues(old(run), run) && Now().phase.Submitting? && SamePass(old(Now()), Now())
      ensures parallelism - Active(old(Now())) <= free <= parallelism
      ensures NoneUploading(old(jobs)) ==> free == parallelism
      ensures Continues(old(run), begun) && BeginsWith(begun, run, SubmitBegun(free))
      ensures Recorded(old(jobs), begun.Last().jobs)
      ensures jobs.Keys == old(jobs).Keys
      ensures var picked := Picked(old(ListJobs()), free);
              && (forall id :: id in jobs ==> jobs[id] == Submission(Among(picked, |picked|, id), old(jobs)[id]))
              && (progressed <==> picked != [])
      ensures forall id :: id in jobs && !old(jobs)[id].state.UploadPending? ==> jobs[id] == old(jobs)[id]
      ensures !progressed ==> jobs == old(jobs)
    {
      hide Valid, Among, Listing, Ascending, Picked, ListJobs, WorkerStep, Count, NoneUploading, Continues;
      hide Recorded, WorkersOnly, SamePass;
      Begun();
      if NoneUploading(jobs) {
        NothingActive();
      }
      ListedAreCurrent();
      var list := ListJobs();
      ghost var s := Now();
      var active := ActiveUploadCount();
      free := parallelism - active;
      WorkersKeepRecords(jobs, s, Now());
      WorkersKeepJobs(s, Now());
      begun := run;
      ghost var u := Now();
      Begun();
      BeginSubmitting(free);
      ghost var t, begunRun := Now(), run;
      SamePassTwice(s, u, t);
      var picked := Picked(list, free);
      PickedReady(jobs, s, t, list, free);
      PickedArePending(jobs, t, picked);
      SubmitPicked(picked, free);
      Begun();
      BeginsStays(begun, begunRun, run, SubmitBegun(free));
      ContinuesOn(old(run), begun, run);
      SamePassTwice(s, t, Now());
      progressed := picked != [];
    }

    ghost method BeginSubmitting(free: int)
      requires Valid() && Now().phase.Promoting? && free <= parallelism - Active(Now())
      modifies `run
      ensures Valid() && BeginsWith(old(run), run, SubmitBegun(free)) && Continues(old(run), run)
      ensures Now() == old(Now()).(phase := Submitting(free)) && SamePass(old(Now()), Now())
    {
      hide IsRun, ShowsAll, ShowsBatches, Count;
      RunShape(parallelism, run);
      Take(SubmitBegun(free));
    }

    method SubmitPicked(picked: seq<Record>, ghost free: int)
      requires Valid() && Now().phase == Submitting(free) && (picked == [] || |picked| <= free)
      requires Listing(jobs, Now(), picked) && Ascending(picked)
      requires forall i :: 0 <= i < |picked| ==> picked[i].state.UploadPending?
      modifies `jobs, `runtime, `clock, `run
      ensures Valid() && Continues(old(run), run) && Now().phase.Submitting? && SamePass(old(Now()), Now())
      ensures jobs.Keys == old(jobs).Keys
      ensures forall id :: id in jobs ==> jobs[id] == Submission(Among(picked, |picked|, id), old(jobs)[id])
      ensures picked == [] ==> jobs == old(jobs)
    {
      hide Valid, Among, Current;
      AmongNone(picked);
      ghost var s := Now();
      for i := 0 to |picked|
        invariant Valid() && Continues(old(run), run) && SamePass(s, Now())
        invariant Now().phase == Submitting(free - i)
        invariant jobs.Keys == old(jobs).Keys
        invariant forall id :: id in jobs ==> jobs[id] == Submission(Among(picked, i, id), old(jobs)[id])
        invariant i == 0 ==> jobs == old(jobs)
      {
        AmongNext(picked, i);
        WorkersRun();
        CurrentSame(s, Now(), picked[i].jobId);
        SubmitUpload(picked[i]);
      }
    }

    lemma ListedAreCurrent()
      requires Valid()
      ensures Ascending(ListJobs())
      ensures Listing(jobs, Now(), ListJobs())
      ensures forall id :: id in jobs ==> (Among(ListJobs(), |ListJobs()|, id) <==> Current(Now(), id))
    {
      hide IsRun, ShowsBatches, ListJobs;
      Listed();
      var s := Now();
      var list := ListJobs();
      forall id | id in jobs && Current(s, id) ensures Among(list, |list|, id) {
        assert list[id - s.batches[|s.batches| - 1].first].jobId == id;
      }
    }

    lemma SameBatches(a: State, b: State, c: State)
      requires SameJobs(a, b) && SameJobs(a, c)
      ensures forall id :: Current(a, id) == Current(b, id) == Current(c, id)
    {
    }

    lemma CurrentSame(a: State, b: State, id: JobId)
      requires SameJobs(a, b)
      ensures Current(a, id) <==> Current(b, id)
    {
    }

    method SubmitUpload(rec: Record)
      requires Valid() && Now().phase.Submitting? && Now().phase.free > 0 && Current(Now(), rec.jobId)
      requires rec.jobId in jobs && jobs[rec.jobId] == rec && rec.state.UploadPending?
      modifies `jobs, `runtime, `clock, `run
      ensures Valid() && Continues(old(run), run) && SamePass(old(Now()), Now())
      ensures Now().phase == Submitting(old(Now()).phase.free - 1)
      ensures jobs == old(jobs)[rec.jobId := rec.(state := Uploading)]
    {
      hide IsRun, ShowsAll, ShowsBatches, Current, CanStart, JobsOf, FailedTargets;
      ShownAt(rec.jobId);
      PendingHasNoFuture(rec.jobId);
      var slot := SlotOf(runtime, rec.jobId);
      UpdateJobAndEntry(rec.(state := Uploading), slot.(future := Unfinished), clock, UploadSubmitted(rec.jobId));
    }

    /** So the guard against a second upload of a pending job never fires. */
    lemma PendingHasNoFuture(id: JobId)
      requires Valid() && id < |Now().jobs| && Now().jobs[id].state.UploadPending?
      ensures Now().jobs[id].future.NoFuture?
    {
      hide IsRun, SlotsOk, BlocksOk, RetriesOk;
      RunShape(parallelism, run);
      RunInv(parallelism, run, |run.states| - 1);
      assert JobOk(Now().jobs[id]);
    }

    ghost method BeginCollecting()
      requires Valid() && Now().phase.Submitting?
      modifies `run
      ensures Valid() && BeginsWith(old(run), run, CollectBegun)
      ensures Now() == old(Now()).(phase := Collecting, jobs := Unchecked(old(Now()).jobs))
    {
      hide IsRun, ShowsAll, ShowsBatches;
      RunShape(parallelism, run);
      ShowsUnchecked(jobs, runtime, Now().jobs, Unchecked(Now().jobs));
      Take(CollectBegun);
    }

    /** `_collect_upload_results` looks at every upload that has been submitted. */
    method CollectUploadResults() returns (progressed: bool)
      requires Valid() && Now().phase.Submitting?
      modifies `jobs, `runtime, `clock, `run
      ensures Valid() && Continues(old(run), run) && Now().phase.Collecting? && SamePass(old(Now()), Now())
      ensures BeginsWith(old(run), run, CollectBegun)
      ensures AllSeen(Now()) && UploadingCount(Now()) <= parallelism
      ensures jobs.Keys == old(jobs).Keys
      ensures forall id :: id in jobs ==>
                Collection(old(clock), SlotOf(old(runtime), id).future, old(jobs)[id], jobs[id])
      ensures !progressed ==> jobs == old(jobs)
    {
      hide Valid, Collection, CollectedTo, FutureStep, BeginsWith, Recorded, ShowsAll;
      progressed := false;
      CollectedStart(clock, jobs, runtime);
      ghost var s := Now();
      BeginCollecting();
      ghost var begun := run;
      for i := 0 to created
        invariant Valid() && Continues(begun, run) && Now().phase.Collecting? && SamePass(s, Now())
        invariant SeenTo(Now(), i) && old(clock) <= clock
        invariant CollectedTo(old(clock), old(jobs), old(runtime), jobs, runtime, i)
        invariant !progressed ==> jobs == old(jobs)
      {
        ghost var runtime0 := runtime;
        WorkersRun();
        CollectedWhileWorking(old(clock), old(jobs), old(runtime), jobs, runtime0, i, runtime);
        EntryOf(i);
        ghost var jobs1, runtime1, clock1 := jobs, runtime, clock;
        var moved := CollectUpload(i);
        CollectedStep(old(clock), clock1, old(jobs), old(runtime), jobs1, runtime1, i, jobs, runtime);
        progressed := progressed || moved;
      }
      EveryJobHasAnId();
      SeenAll();
      CollectedEnd(old(clock), old(jobs), old(runtime), jobs, runtime, created);
      Begun();
      BeginsStays(old(run), begun, run, CollectBegun);
    }

    lemma EveryJobHasAnId()
      requires Valid()
      ensures forall id :: id in jobs ==> id < created
    {
      hide IsRun;
    }

    /** After a full collect pass no more jobs are shown as uploading than there are slots. */
    lemma SeenAll()
      requires Valid() && Now().phase.Collecting? && SeenTo(Now(), created)
      ensures AllSeen(Now()) && UploadingCount(Now()) <= parallelism
    {
      hide IsRun, BlocksOk, RetriesOk, Count;
      RunShape(parallelism, run);
      RunInv(parallelism, run, |run.states| - 1);
      var s := Now();
      forall id | 0 <= id < |s.jobs| && IsUploading()(s.jobs[id]) ensures IsHeld()(s.jobs[id]) {
        assert JobOk(s.jobs[id]);
      }
      CountLess(IsUploading(), IsHeld(), s.jobs, s.jobs);
    }

    method CollectUpload(id: JobId) returns (moved: bool)
      requires Valid() && Now().phase.Collecting? && id < created && id in jobs
      modifies `jobs, `runtime, `clock, `run
      ensures Valid() && Continues(old(run), run) && Now().phase.Collecting? && SamePass(old(Now()), Now())
      ensures old(clock) <= clock && jobs.Keys == old(jobs).Keys
      ensures forall k :: k in jobs && k != id ==>
                jobs[k] == old(jobs)[k] && SlotOf(runtime, k) == SlotOf(old(runtime), k)
      ensures Collection(old(clock), SlotOf(old(runtime), id).future, old(jobs)[id], jobs[id])
      ensures !moved ==> jobs == old(jobs)
      ensures forall k: nat :: k < |Now().jobs| && k != id ==> Now().jobs[k] == old(Now()).jobs[k]
      ensures id < |Now().jobs| ==> Now().jobs[id].future.NoFuture? || Now().jobs[id].checked
    {
      hide IsRun, ShowsAll, ShowsBatches, Current, CanStart, JobsOf, FailedTargets;
      EntryOf(id);
      ShownAt(id);
      moved := false;
      if id in runtime {
        match runtime[id].future {
          case NoFuture =>
          case Unfinished => LookAt(id);
          case Uploaded(disconnect) =>
            var now := ReadClock();
            var rec := jobs[id].(state := Rebooting, attempts := 0, deadline := now + RECONNECT_TIMEOUT,
                                 nextDue := now + RECONNECT_INTERVAL);
            UpdateJobAndEntry(rec, Slot(NoFuture, disconnect), now, UploadCollected(id, now));
            moved := true;
          case UploadError =>
            UpdateJob(jobs[id].(state := Failed), clock, UploadFailed(id));
            moved := true;
        }
      }
    }

    ghost method LookAt(id: JobId)
      requires Valid() && Now().phase.Collecting? && id < |Now().jobs| && Now().jobs[id].future.Unfinished?
      modifies `run
      ensures Valid() && Continues(old(run), run) && Now() == Set(old(Now()), id, old(Now()).jobs[id].(checked := true))
    {
      hide IsRun, ShowsBatches;
      ShowsUnchecked(jobs, runtime, Now().jobs, Now().jobs[id := Now().jobs[id].(checked := true)]);
      Take(StillUploading(id));
    }

    ghost method BeginProbing(now: real)
      requires Valid() && Now().phase.Collecting? && AllSeen(Now()) && now >= clock
      modifies `run
      ensures IsRun(parallelism, run) && run.states != [] && BeginsWith(old(run), run, ProbingBegun(now))
      ensures run.Last() == old(Now()).(phase := Probing(now), clock := now)
    {
      hide IsRun, ShowsAll, ShowsBatches;
      RunShape(parallelism, run);
      Take(ProbingBegun(now));
    }

    ghost method EndPass()
      requires Valid() && Now().phase.Probing?
      modifies `run
      ensures Valid() && Continues(old(run), run)
      ensures Now() == old(Now()).(phase := Promoting, rounds := old(Now()).rounds + 1)
      ensures run.events == old(run.events) + [LoopAgain]
    {
      hide IsRun, ShowsAll, ShowsBatches;
      Take(LoopAgain);
    }

    /** The clock is read once for the whole pass. */
    method StartProbing() returns (now: real)
      requires Valid() && Now().phase.Collecting? && AllSeen(Now())
      modifies `clock, `run
      ensures Valid() && BeginsWith(old(run), run, ProbingBegun(now)) && now >= old(clock)
      ensures Now() == old(Now()).(phase := Probing(now), clock := now)
    {
      hide IsRun, ShowsAll, ShowsBatches;
      now := ReadClock();
      BeginProbing(now);
      clock := now;
    }

    /**
     * `_process_reconnect_jobs`: a job that waits for its device past its deadline fails, one that is due is
     * probed, and nothing else moves.
     */
    method ProcessReconnectJobs() returns (progressed: bool, now: real)
      requires Valid() && Now().phase.Collecting? && AllSeen(Now())
      modifies `jobs, `runtime, `clock, `run
      ensures Valid() && Continues(old(run), run) && Now().phase.Promoting? && SameJobs(old(Now()), Now())
      ensures Now().rounds == old(Now()).rounds + 1
      ensures BeginsWith(old(run), run, ProbingBegun(now))
      ensures |run.events| > |old(run.events)| + 1 && run.events[|run.events| - 1] == LoopAgain
      ensures now >= old(clock) && jobs.Keys == old(jobs).Keys
      ensures forall id :: id in jobs ==> Reconnection(Current(old(Now()), id), now, old(jobs)[id], jobs[id])
      ensures forall id :: id in jobs && Current(old(Now()), id) ==>
                Answered(answers, SlotOf(old(runtime), id).disconnect, now, old(jobs)[id], jobs[id])
      ensures !progressed ==> jobs == old(jobs)
    {
      hide Valid, Reconnection, Current, Among, ReconnectedTo, Ascending, Recorded, ShowsAll, Answered, AnsweredTo;
      hide FutureStep, SlotOf;
      progressed := false;
      ghost var s := Now();
      ListedAreCurrent();
      now := StartProbing();
      ghost var begun := run;
      var list := ListJobs();
      ReconnectedNone(now, list, jobs);
      AnsweredNone(answers, now, list, jobs, runtime);
      for i := 0 to |list|
        invariant Valid() && Continues(begun, run) && SamePass(s, Now())
        invariant Now().phase == Probing(now)
        invariant ReconnectedTo(now, list, i, old(jobs), jobs)
        invariant AnsweredTo(answers, now, list, i, old(jobs), old(runtime), jobs, runtime)
        invariant !progressed ==> jobs == old(jobs)
      {
        ghost var runtime0 := runtime;
        WorkersRun();
        AnsweredWhileWorking(answers, now, list, i, old(jobs), old(runtime), jobs, runtime0, runtime);
        CurrentSame(s, Now(), list[i].jobId);
        NextIsUntouched(now, list, i, old(jobs), jobs);
        ghost var before, runtime1 := jobs, runtime;
        var moved := Reconnect(list[i], now);
        ReconnectedStep(now, list, i, old(jobs), before, jobs);
        AnsweredStep(answers, now, list, i, old(jobs), old(runtime), before, runtime1, jobs, runtime);
        progressed := progressed || moved;
      }
      EndPass();
      ReconnectedAll(now, list, s, old(jobs), jobs);
      AnsweredAll(answers, now, list, s, old(jobs), old(runtime), jobs, runtime);
      Begun();
      BeginsStays(old(run), begun, run, ProbingBegun(now));
    }

    method Reconnect(rec: Record, now: real) returns (moved: bool)
      requires Valid() && Now().phase == Probing(now) && Current(Now(), rec.jobId)
      requires rec.jobId in jobs && jobs[rec.jobId] == rec
      modifies `jobs, `runtime, `clock, `run
      ensures Valid() && Continues(old(run), run) && SamePass(old(Now()), Now())
      ensures Now().phase == Probing(now) && jobs.Keys == old(jobs).Keys
      ensures forall k :: k in jobs && k != rec.jobId ==> jobs[k] == old(jobs)[k]
      ensures Reconnection(true, now, rec, jobs[rec.jobId])
      ensures Answered(answers, SlotOf(old(runtime), rec.jobId).disconnect, now, rec, jobs[rec.jobId])
      ensures forall k :: k in jobs && k != rec.jobId ==> SlotOf(runtime, k) == SlotOf(old(runtime), k)
      ensures !moved ==> jobs == old(jobs)
    {
      hide IsRun, ShowsAll, ShowsBatches, Current;
      ShownAt(rec.jobId);
      moved := false;
      if !rec.state.Rebooting? && !rec.state.Reconnecting? {
        return;
      }
      if rec.deadline != 0.0 && now > rec.deadline {
        UpdateJob(rec.(state := Failed), clock, TimedOut(rec.jobId));
        return true;
      }
      if rec.nextDue != 0.0 && now < rec.nextDue {
        return;
      }
      ProbeDevice(rec, now);
      moved := true;
    }

    method ProbeDevice(rec: Record, ghost now: real)
      requires Valid() && Now().phase == Probing(now) && Current(Now(), rec.jobId)
      requires rec.jobId in jobs && jobs[rec.jobId] == rec && (rec.state.Rebooting? || rec.state.Reconnecting?)
      requires !(rec.deadline != 0.0 && now > rec.deadline) && !(rec.nextDue != 0.0 && now < rec.nextDue)
      modifies `jobs, `runtime, `clock, `run
      ensures Valid() && Continues(old(run), run) && SamePass(old(Now()), Now())
      ensures Now().phase == Probing(now) && jobs.Keys == old(jobs).Keys
      ensures forall k :: k in jobs && k != rec.jobId ==> jobs[k] == old(jobs)[k]
      ensures Reconnection(true, now, rec, jobs[rec.jobId])
      ensures jobs[rec.jobId].state.Success? <==>
                answers(rec.jobId, rec.attempts) && SlotOf(old(runtime), rec.jobId).disconnect
      ensures forall k :: k in jobs && k != rec.jobId ==> SlotOf(runtime, k) == SlotOf(old(runtime), k)
    {
      hide IsRun, ShowsAll, ShowsBatches, Current, Enabled, Apply;
      ShownAt(rec.jobId);
      PassTimeIsPast(now);
      var at := ReadClock();
      var ok := answers(rec.jobId, rec.attempts);
      var after: real := *;
      if after < at {
        after := at;
      }
      var slot := SlotOf(runtime, rec.jobId);
      var next := rec.(state := Reconnecting, attempts := rec.attempts + 1, nextDue := after + RECONNECT_INTERVAL);
      if ok {
        if slot.disconnect {
          next := rec.(state := Success);
        }
      } else {
        slot := slot.(disconnect := true);
      }
      ProbedIs(rec.jobId, ok, at, after);
      UpdateJobAndEntry(next, slot, after, Probed(rec.jobId, ok, at, after));
    }

    lemma ProbedIs(id: JobId, ok: bool, at: real, after: real)
      requires Now().phase.Probing? && Current(Now(), id) && Now().clock <= at <= after
      requires Waiting(Now().jobs[id]) && !PastDeadline(Now().jobs[id], Now().phase.now)
      requires !NotYetDue(Now().jobs[id], Now().phase.now)
      ensures Enabled(parallelism, Now(), Probed(id, ok, at, after))
      ensures Apply(parallelism, Now(), Probed(id, ok, at, after))
           == Now().(jobs := Now().jobs[id := Probe(Now().jobs[id], ok, after)], clock := after)
    {
      hide InBatch;
    }

    lemma PassTimeIsPast(now: real)
      requires Valid() && Now().phase == Probing(now)
      ensures now <= clock
    {
      hide SlotsOk, BlocksOk, RetriesOk, IsRun, ShowsAll, ShowsBatches;
      RunShape(parallelism, run);
      RunInv(parallelism, run, |run.states| - 1);
    }

    /**
     * One round of `_loop`: a run of the protocol that ends where the next round begins, and the four passes one
     * after the other. Afterwards no job of the current batch is queued, and a job that was waiting past its
     * deadline when the round began has failed.
     */
    method Round() returns (progressed: bool, ghost p: Passes, ghost m: Mark)
      requires Valid() && Now().phase.Promoting?
      modifies `jobs, `runtime, `clock, `run
      ensures Valid() && Continues(old(run), run) && Now().phase.Promoting? && SameJobs(old(Now()), Now())
      ensures jobs.Keys == old(jobs).Keys == p.promoted.Keys == p.submitted.Keys == p.collected.Keys
      ensures RoundAt(run, |old(run.events)|, m, p) && m.end == |run.events| - 1
      ensures Now().rounds == old(Now()).rounds + 1
      ensures old(clock) <= p.since <= p.now && p.free <= parallelism
      ensures forall id :: id in jobs ==> RoundStep(old(Now()), CurrentIds(), p, old(jobs)[id], id, jobs[id])
      ensures forall id :: id in jobs && Current(Now(), id) ==>
                && !jobs[id].state.Queued? && ProbedWhenDue(p.collected[id], p.now, jobs[id])
                && (old(jobs)[id].state.Queued? ==> p.promoted[id] == old(jobs)[id].(state := UploadPending))
      ensures forall id :: id in jobs && Current(Now(), id) && Overdue(old(jobs)[id], p.now) ==>
                jobs[id] == old(jobs)[id].(state := Failed)
      ensures NoneUploading(p.promoted) ==> p.free == parallelism
      ensures UploadingCount(Now()) <= parallelism
      ensures !progressed ==> jobs == old(jobs)
    {
      hide Valid, Promotion, Among, Submission, Collection, Reconnection, AllSeen, Current, Picked, Lookup, Count;
      hide Overdue, SlotOf, Continues, UploadingCount, Fits, NoneUploading, BeginsWith, RoundAt, Recorded, ShowsAll;
      hide RoundStep, SameJobs, SamePass, UploadsStep, Awaiting, ProbedWhenDue, Answered;
      ghost var s := Now();
      var uploads;
      ghost var begun;
      uploads, p, begun := UploadPasses();
      ghost var atCollection, submittedRun := Now(), run;
      Begun();
      EntriesFit();
      var collected := CollectUploadResults();
      p := p.(collected := jobs);
      Begun();
      DeadlinesAhead();
      ghost var atProbing, collectedRun := Now(), run;
      SamePassTwice(s, atCollection, atProbing);
      ContinuesOn(old(run), submittedRun, run);
      ClockFrom(submittedRun);
      var probed, now := ProcessReconnectJobs();
      p := p.(now := now);
      ContinuesOn(old(run), collectedRun, run);
      SameJobsTwice(s, atProbing, Now());
      SlotsNow();
      progressed := uploads || collected || probed;
      SameBatches(s, atProbing, Now());
      RoundIs(s, atProbing, Now(), CurrentIds(), p, old(jobs), jobs);
      RoundIsAt(old(run), begun, submittedRun, collectedRun, run, p);
      m := Mark(|begun.events|, |submittedRun.events|, |collectedRun.events|, |run.events| - 1);
    }

    /** The promotion and the submission pass of a round; `begun` is the run when the second of them begins. */
    method UploadPasses() returns (progressed: bool, ghost p: Passes, ghost begun: Run)
      requires Valid() && Now().phase.Promoting?
      modifies `jobs, `runtime, `clock, `run
      ensures Valid() && Continues(old(run), run) && Now().phase.Submitting? && SamePass(old(Now()), Now())
      ensures Shaped(old(run)) && Continues(old(run), begun) && BeginsWith(begun, run, SubmitBegun(p.free))
      ensures Recorded(p.promoted, begun.Last().jobs)
      ensures jobs.Keys == old(jobs).Keys == p.promoted.Keys && p.submitted == jobs
      ensures p.entries == runtime && old(clock) <= clock == p.since && p.free <= parallelism
      ensures forall id :: id in jobs ==>
                UploadsStep(old(Now()), CurrentIds(), p.promoted, p.free, p.submitted, old(jobs)[id], id)
      ensures NoneUploading(p.promoted) ==> p.free == parallelism
      ensures !progressed ==> jobs == old(jobs)
    {
      hide Valid, Promotion, Among, Submission, Current, Picked, Lookup, Active, Continues, NoneUploading;
      hide BeginsWith, Recorded, ShowsAll, SamePass;
      ghost var s := Now();
      Begun();
      var promoted := PromoteQueuedJobs();
      p := Passes(jobs, map[], map[], 0, map[], 0.0, 0.0);
      ghost var atSubmission, promotedRun := Now(), run;
      var submitted, free;
      submitted, free, begun := SubmitUploads();
      p := p.(submitted := jobs, free := free, entries := runtime, since := clock);
      ContinuesOn(old(run), promotedRun, begun);
      ContinuesOn(old(run), promotedRun, run);
      SamePassTwice(s, atSubmission, Now());
      Begun();
      ClockFrom(old(run));
      progressed := promoted || submitted;
    }

    lemma Begun()
      requires Valid()
      ensures Shaped(run) && run.states != [] && Now() == run.Last() && run.Last().clock == clock
      ensures ShowsAll(jobs, runtime, Now().jobs) && Recorded(jobs, Now().jobs)
    {
      hide IsRun, ShowsAll, ShowsBatches, Recorded;
      RunShape(parallelism, run);
      ShownIsRecorded(jobs, runtime, Now().jobs);
    }

    lemma BeginsStays(a: Run, b: Run, c: Run, e: Event)
      requires BeginsWith(a, b, e) && Continues(b, c) && Shaped(c)
      ensures BeginsWith(a, c, e) && Continues(a, c)
    {
    }

    lemma WorkersKeepJobs(a: State, b: State)
      requires WorkersOnly(a, b)
      ensures SamePass(a, b) && a.phase == b.phase
    {
    }

    lemma SlotsNow()
      requires Valid() && Now().phase.Promoting?
      ensures UploadingCount(Now()) <= parallelism
    {
      hide ShowsAll, ShowsBatches;
      RunShape(parallelism, run);
      UploadSlots(parallelism, run, |run.states| - 1);
    }

    /** Time has not run backwards since an earlier point of the run. */
    lemma ClockFrom(earlier: Run)
      requires Valid() && Continues(earlier, run) && earlier.states != []
      ensures earlier.Last().clock <= clock
    {
      hide ShowsAll, ShowsBatches;
      RunShape(parallelism, run);
      ClockGrows(parallelism, run, |earlier.states| - 1, |run.states| - 1);
    }

    lemma ContinuesOn(a: Run, b: Run, c: Run)
      requires Continues(a, b) && Continues(b, c)
      ensures Continues(a, c) && (a.states != [] ==> b.states != [])
    {
    }

    lemma EntriesFit()
      requires Valid()
      ensures forall id :: id in jobs ==> Fits(jobs[id].state, SlotOf(runtime, id).future)
    {
      hide IsRun, ShowsBatches, SlotsOk, BlocksOk, RetriesOk;
      RunShape(parallelism, run);
      RunInv(parallelism, run, |run.states| - 1);
      forall id | id in jobs ensures Fits(jobs[id].state, SlotOf(runtime, id).future) {
        assert JobOk(Now().jobs[id]);
      }
    }

    /** No deadline lies further ahead than the time allowed. */
    lemma DeadlinesAhead()
      requires Valid()
      ensures forall id :: id in jobs && Awaiting(jobs[id]) ==> 0.0 < jobs[id].deadline <= clock + 180.0
    {
      hide IsRun, ShowsBatches, SlotsOk, BlocksOk, RetriesOk;
      RunShape(parallelism, run);
      RunInv(parallelism, run, |run.states| - 1);
      forall id | id in jobs && Awaiting(jobs[id]) ensures 0.0 < jobs[id].deadline <= clock + 180.0 {
        assert JobOk(Now().jobs[id]);
      }
    }

    lemma NothingActive()
      requires Valid() && NoneUploading(jobs)
      ensures Active(Now()) == 0
    {
      hide IsRun, ShowsBatches, SlotsOk, BlocksOk, RetriesOk, Count;
      RunShape(parallelism, run);
      RunInv(parallelism, run, |run.states| - 1);
      forall id: nat | id < |Now().jobs| ensures !IsUnfinished()(Now().jobs[id]) {
        assert JobOk(Now().jobs[id]) && id in jobs;
      }
      CountNothing(IsUnfinished(), Now().jobs);
    }

    /**
     * `_loop`, for any number of rounds: the run grows by just as many rounds, one after the other. A batch ends:
     * after twice as many rounds as it has jobs that begin to collect when no upload runs, and a last round that
     * begins to probe more than the reconnect time after the one before, every job is terminal and the next batch
     * can start.
     */
    method Loop(rounds: nat) returns (ghost ms: seq<Mark>, ghost ps: seq<Passes>)
      requires Valid() && Now().phase.Promoting?
      modifies `jobs, `runtime, `clock, `run
      ensures Valid() && Continues(old(run), run) && Now().phase.Promoting? && SameJobs(old(Now()), Now())
      ensures |ms| == rounds && RoundsAt(run, |old(run.events)|, ms, ps)
      ensures Now().rounds == old(Now()).rounds + rounds
      ensures rounds >= 2 && Count(NoUploadRuns(run), ms[..rounds - 1]) >= 2 * |CurrentIds()|
              && ProbingTime(run, ms[rounds - 1]) > ProbingTime(run, ms[rounds - 2]) + 180.0 ==>
                (forall id :: id in jobs ==> Ended(jobs[id])) && CanStart(Now())
    {
      hide Valid, BroughtOn, Count, Finishing, Ended, LateAfter, SameJobs, CurrentIds, CanStart, Continues, RoundsAt;
      hide NoUploadRuns, ProbingTime;
      ms, ps := [], [];
      SetOut();
      Begun();
      NoRounds(run);
      ghost var s := Now();
      SameJobsTwice(s, s, s);
      ContinuesItself(run);
      ghost var over := false;
      var i := 0;
      while i < rounds
        invariant Valid() && Continues(old(run), run) && Now().phase.Promoting? && SameJobs(s, Now())
        invariant i <= rounds && |ms| == |ps| == i && BroughtOn(ps, |CurrentIds()|, jobs, created)
        invariant RoundsAt(run, |old(run.events)|, ms, ps) && Now().rounds == s.rounds + i
        invariant over ==> (forall id :: id in jobs ==> Ended(jobs[id])) && CanStart(Now())
        invariant i >= 1 && Count(Finishing(), ps[..i - 1]) >= 2 * |CurrentIds()| && LateAfter(ps[..i - 1], ps[i - 1])
                  ==> over
      {
        ghost var t, before, r := Now(), ps, run;
        ghost var m, p := RoundOfLoop(ps);
        SameJobsTwice(s, t, Now());
        ContinuesOn(old(run), r, run);
        OneMoreRound(r, run, |old(run.events)|, ms, ps, m, p);
        ms, ps := ms + [m], ps + [p];
        assert ps[..i] == before;
        over := Count(Finishing(), before) >= 2 * |CurrentIds()| && LateAfter(before, p);
        if over {
          AllEndedCanStart();
        }
        i := i + 1;
      }
      if rounds >= 2 {
        LateIs(ps[..rounds - 1], ps[rounds - 1]);
        RoundsTell(run, |old(run.events)|, ms, ps, rounds - 1);
      }
    }

    /** One round of the loop, after the rounds `ps`. */
    method RoundOfLoop(ghost ps: seq<Passes>) returns (ghost m: Mark, ghost p: Passes)
      requires Valid() && Now().phase.Promoting? && BroughtOn(ps, |CurrentIds()|, jobs, created)
      modifies `jobs, `runtime, `clock, `run
      ensures Valid() && Continues(old(run), run) && Now().phase.Promoting? && SameJobs(old(Now()), Now())
      ensures RoundAt(run, |old(run.events)|, m, p) && m.end == |run.events| - 1
      ensures Now().rounds == old(Now()).rounds + 1
      ensures BroughtOn(ps + [p], |CurrentIds()|, jobs, created)
      ensures Count(Finishing(), ps) >= 2 * |CurrentIds()| && LateAfter(ps, p) ==>
                forall id :: id in jobs ==> Ended(jobs[id])
    {
      hide Valid, BroughtOn, Count, Finishing, Ended, LateAfter, SameJobs, RoundStep, NoneUploading, Overdue;
      hide Continues, UploadingCount, Current, RoundAt;
      Stragglers();
      ghost var t, jobs0 := Now(), jobs;
      var progressed;
      progressed, p, m := Round();
      RoundBringsOn(t, CurrentIds(), ps, p, jobs0, jobs, created);
    }

    lemma ContinuesItself(r: Run)
      ensures Continues(r, r)
    {
    }

    lemma LateIs(ps: seq<Passes>, p: Passes)
      ensures LateAfter(ps, p) <==> ps != [] && p.now > ps[|ps| - 1].now + 180.0
    {
    }

    lemma SamePassTwice(a: State, b: State, c: State)
      ensures SamePass(a, b) ==> SameJobs(a, b) && a.rounds == b.rounds
      ensures SamePass(a, a) && (SamePass(a, b) && SamePass(b, c) ==> SamePass(a, c) && SameJobs(a, c))
      ensures SamePass(a, c) ==> SameJobs(a, c) && a.rounds == c.rounds
    {
    }

    lemma SameJobsTwice(a: State, b: State, c: State)
      ensures SameJobs(a, a) && (SameJobs(a, b) && SameJobs(b, c) ==> SameJobs(a, c))
    {
    }

    /** Only jobs of the current batch, whose ids are listed, have not ended. */
    lemma Stragglers()
      requires Valid()
      ensures parallelism >= 1
      ensures forall id :: id in jobs ==>
                && id < created && jobs[id].jobId == id && (!Current(Now(), id) ==> Ended(jobs[id]))
                && (Current(Now(), id) <==> id in CurrentIds())
      ensures |CurrentIds()| <= created
      ensures forall id :: id in jobs && id < created - |CurrentIds()| ==> !Current(Now(), id)
    {
      hide IsRun, JobsOk, SlotsOk, RetriesOk, Tiled;
      RunShape(parallelism, run);
      RunInv(parallelism, run, |run.states| - 1);
      var s := Now();
      if s.batches != [] {
        BlockEnd(s, |s.batches| - 1);
        var b := s.batches[|s.batches| - 1];
        forall id: nat | InBatch(b, id) ensures id in Ids(b) {
          assert Ids(b)[id - b.first] == id;
        }
      }
    }

    lemma SetOut()
      requires Valid()
      ensures BroughtOn([], |CurrentIds()|, jobs, created)
    {
      hide Valid, Weight, Current, CurrentIds;
      Stragglers();
      WeightBound(jobs, created - |CurrentIds()|, created);
    }

    lemma AllEndedCanStart()
      requires Valid() && forall id :: id in jobs ==> Ended(jobs[id])
      ensures CanStart(Now())
    {
      hide IsRun, JobsOk, SlotsOk, RetriesOk, Settled;
      RunShape(parallelism, run);
      RunInv(parallelism, run, |run.states| - 1);
    }
  }
}
