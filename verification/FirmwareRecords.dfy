/**
 * Registry records and `_runtime` entries, and what the passes of one round and the rounds of a batch make of them
 * (application/firmware/firmware_batch_supervisor.py:178-354, application/firmware/firmware_job_registry.py).
 */
module FirmwareRecords {
  import opened Counting
  import opened Firmware
  import opened FirmwareLaws

  /** A registry job. */
  datatype Record = Record(
    jobId: JobId,
    target: Target,
    state: JobState,
    attempts: nat,
    deadline: real,
    nextDue: real)

  /** A `_runtime` entry. */
  datatype Slot = Slot(future: Future, disconnect: bool)

  datatype StartResult = Started | EmptyTargets | FileNotFound | Busy | NothingFailed

  const IDLE_SLOT := Slot(NoFuture, false)

  /** The entry of a job; one that is missing reads as idle. */
  function SlotOf(runtime: map<JobId, Slot>, id: JobId): Slot {
    if id in runtime then runtime[id] else IDLE_SLOT
  }

  function NewRecord(id: JobId, t: Target): Record {
    Record(id, t, Queued, 0, 0.0, 0.0)
  }

  ghost predicate Shows(rec: Record, slot: Slot, id: JobId, j: Job) {
    && rec == Record(id, j.target, j.state, j.attempts, j.deadline, j.nextDue)
    && slot == Slot(j.future, j.disconnect)
  }

  /** The registry and the runtime entries show the jobs `js`. */
  ghost predicate ShowsAll(jobs: map<JobId, Record>, runtime: map<JobId, Slot>, js: seq<Job>) {
    && (forall id: nat :: id in jobs <==> id < |js|)
    && (forall id: nat :: id in runtime ==> id < |js|)
    && (forall id: nat :: id < |js| ==> Shows(jobs[id], SlotOf(runtime, id), id, js[id]))
  }

  /** The ids of a batch, in order. */
  function Ids(b: Batch): (ids: seq<JobId>)
    ensures |ids| == b.size && forall i :: 0 <= i < b.size ==> ids[i] == b.first + i
  {
    seq(b.size, i requires 0 <= i < b.size => b.first + i)
  }

  ghost predicate ShowsBatches(idsByBatch: seq<seq<JobId>>, bs: seq<Batch>) {
    |idsByBatch| == |bs| && forall i: nat :: i < |bs| ==> idsByBatch[i] == Ids(bs[i])
  }

  /** `[jobs[id] for id in ids if id in jobs]` */
  function Lookup(jobs: map<JobId, Record>, ids: seq<JobId>): seq<Record> {
    if ids == [] then []
    else (if ids[0] in jobs then [jobs[ids[0]]] else []) + Lookup(jobs, ids[1..])
  }

  lemma {:induction false} LookupAll(jobs: map<JobId, Record>, ids: seq<JobId>)
    requires forall i :: 0 <= i < |ids| ==> ids[i] in jobs
    ensures |Lookup(jobs, ids)| == |ids|
    ensures forall i :: 0 <= i < |ids| ==> Lookup(jobs, ids)[i] == jobs[ids[i]]
  {
    if ids == [] {
    } else {
      LookupAll(jobs, ids[1..]);
    }
  }

  /** A changed job is shown once its record and entry are replaced. */
  lemma ShowsUpdate(jobs: map<JobId, Record>, runtime: map<JobId, Slot>, js: seq<Job>, id: JobId, rec: Record,
                    slot: Slot, j: Job)
    requires ShowsAll(jobs, runtime, js) && id < |js| && Shows(rec, slot, id, j)
    ensures ShowsAll(jobs[id := rec], runtime[id := slot], js[id := j])
    ensures slot == SlotOf(runtime, id) ==> ShowsAll(jobs[id := rec], runtime, js[id := j])
  {
    hide Shows;
  }

  /** New records for the targets from the `k`-th on. */
  lemma ShowsNew(jobs: map<JobId, Record>, runtime: map<JobId, Slot>, js: seq<Job>, t: Target)
    requires ShowsAll(jobs, runtime, js)
    ensures ShowsAll(jobs[|js| := NewRecord(|js|, t)], runtime, js + [NewJob(t)])
  {
  }

  function Pendings(list: seq<Record>): seq<Record> {
    if list == [] then []
    else (if list[0].state.UploadPending? then [list[0]] else []) + Pendings(list[1..])
  }

  function Faileds(list: seq<Record>): seq<Record> {
    if list == [] then []
    else (if list[0].state.Failed? then [list[0]] else []) + Faileds(list[1..])
  }

  function Targets(list: seq<Record>): seq<Target> {
    if list == [] then [] else [list[0].target] + Targets(list[1..])
  }

  /** What workers may do to a job: finish its upload. */
  ghost predicate WorkerStep(before: Job, after: Job) {
    after == before
    || (before.future.Unfinished? && (after.future.Uploaded? || after.future.UploadError?)
        && after == before.(future := after.future))
  }

  ghost predicate FutureStep(before: Future, after: Future) {
    after == before || (before.Unfinished? && (after.Uploaded? || after.UploadError?))
  }

  ghost predicate WorkersOnly(a: State, b: State) {
    && a.phase == b.phase && a.batches == b.batches && a.clock == b.clock && a.rounds == b.rounds
    && |a.jobs| == |b.jobs|
    && forall id: nat :: id < |a.jobs| ==> WorkerStep(a.jobs[id], b.jobs[id])
  }

  lemma WorkersCount(a: State, b: State, k: nat)
    requires WorkersOnly(a, b) && k <= |a.jobs|
    ensures Count(IsUnfinished(), b.jobs[..k]) <= Count(IsUnfinished(), a.jobs[..k])
  {
    CountLess(IsUnfinished(), IsUnfinished(), b.jobs[..k], a.jobs[..k]);
  }

  /** The pending jobs that `free` slots take. */
  function Picked(list: seq<Record>, free: int): seq<Record> {
    var pending := Pendings(list);
    if free <= 0 then [] else if free < |pending| then pending[..free] else pending
  }

  /** Job `id` is one of the first `k` picked. */
  ghost predicate Among(picked: seq<Record>, k: nat, id: JobId) {
    exists m: nat :: m < k && m < |picked| && picked[m].jobId == id
  }

  ghost predicate Ascending(list: seq<Record>) {
    forall i, k :: 0 <= i < k < |list| ==> list[i].jobId < list[k].jobId
  }

  /** Records as they are in the registry, of jobs of the current batch. */
  ghost predicate Listing(jobs: map<JobId, Record>, s: State, list: seq<Record>) {
    forall i :: 0 <= i < |list| ==>
      list[i].jobId in jobs && jobs[list[i].jobId] == list[i] && Current(s, list[i].jobId)
  }

  lemma {:induction false} PendingsAscend(list: seq<Record>, least: JobId)
    requires Ascending(list) && (forall i :: 0 <= i < |list| ==> list[i].jobId >= least)
    ensures Ascending(Pendings(list))
    ensures forall i :: 0 <= i < |Pendings(list)| ==> Pendings(list)[i].jobId >= least
  {
    if list == [] {
    } else {
      PendingsAscend(list[1..], list[0].jobId + 1);
    }
  }

  lemma {:induction false} PendingsListed(jobs: map<JobId, Record>, s: State, list: seq<Record>)
    requires Listing(jobs, s, list)
    ensures Listing(jobs, s, Pendings(list))
    ensures forall i :: 0 <= i < |Pendings(list)| ==> Pendings(list)[i].state.UploadPending?
  {
    hide Current;
    if list == [] {
    } else {
      PendingsListed(jobs, s, list[1..]);
    }
  }

  lemma PickedReady(jobs: map<JobId, Record>, a: State, b: State, list: seq<Record>, free: int)
    requires Ascending(list) && Listing(jobs, a, list) && SamePass(a, b)
    ensures var picked := Picked(list, free);
            && Ascending(picked) && Listing(jobs, b, picked)
            && (picked == [] || |picked| <= free)
            && forall i :: 0 <= i < |picked| ==> picked[i].state.UploadPending?
  {
    PendingsAscend(list, 0);
    PendingsListed(jobs, a, list);
  }

  function IsPending(): Record -> bool {
    (rec: Record) => rec.state.UploadPending?
  }

  /** As many pending jobs are picked as there are free slots, and those listed first. */
  lemma PickedAreFirst(list: seq<Record>, free: int)
    requires Ascending(list)
    ensures var n := Count(IsPending(), list);
            |Picked(list, free)| == if free <= 0 then 0 else if free < n then free else n
    ensures forall a, b :: a in list && a.state.UploadPending? && b in Picked(list, free) && a.jobId < b.jobId ==>
              a in Picked(list, free)
  {
    hide Count, Pendings, Ascending;
    PendingsCount(list);
    PendingsFrom(list);
    var pending, picked := Pendings(list), Picked(list, free);
    forall a, b | a in list && a.state.UploadPending? && b in picked && a.jobId < b.jobId ensures a in picked {
      PendingsHave(list, a);
      StartHasEarlier(pending, |picked|, a, b);
    }
  }

  lemma PendingsFrom(list: seq<Record>)
    requires Ascending(list)
    ensures Ascending(Pendings(list))
  {
    PendingsAscend(list, 0);
  }

  lemma StartHasEarlier(pending: seq<Record>, n: nat, a: Record, b: Record)
    requires Ascending(pending) && n <= |pending| && a in pending && b in pending[..n] && a.jobId < b.jobId
    ensures a in pending[..n]
  {
    var i :| 0 <= i < |pending| && pending[i] == a;
    var k :| 0 <= k < n && pending[..n][k] == b;
    assert i < k;
    assert pending[..n][i] == a;
  }

  lemma {:induction false} PendingsCount(list: seq<Record>)
    ensures |Pendings(list)| == Count(IsPending(), list)
  {
    if list == [] {
    } else {
      PendingsCount(list[1..]);
    }
  }

  lemma PickedArePending(jobs: map<JobId, Record>, s: State, picked: seq<Record>)
    requires Listing(jobs, s, picked) && forall i :: 0 <= i < |picked| ==> picked[i].state.UploadPending?
    ensures forall id :: id in jobs && Among(picked, |picked|, id) ==> jobs[id].state.UploadPending?
  {
  }

  /** What the submission pass makes of a record. */
  function Submission(picked: bool, rec: Record): Record {
    if picked then rec.(state := Uploading) else rec
  }

  /** The later run continues the earlier one. */
  ghost predicate Continues(earlier: Run, later: Run) {
    earlier.events <= later.events && earlier.states <= later.states
  }

  /** A run has one state more than it has events. */
  ghost predicate Shaped(r: Run) {
    |r.states| == |r.events| + 1
  }

  /** The later run continues the earlier one, and `e` is what happens first. */
  ghost predicate BeginsWith(earlier: Run, later: Run, e: Event) {
    Shaped(earlier) && Shaped(later) && Continues(earlier, later)
    && |earlier.events| < |later.events| && later.events[|earlier.events|] == e
  }

  /** The registry has exactly the records of the jobs `js`. */
  ghost predicate Recorded(jobs: map<JobId, Record>, js: seq<Job>) {
    && (forall id: nat :: id in jobs <==> id < |js|)
    && forall id: nat :: id < |js| ==>
         jobs[id] == Record(id, js[id].target, js[id].state, js[id].attempts, js[id].deadline, js[id].nextDue)
  }

  lemma ShownIsRecorded(jobs: map<JobId, Record>, runtime: map<JobId, Slot>, js: seq<Job>)
    requires ShowsAll(jobs, runtime, js)
    ensures Recorded(jobs, js)
  {
  }

  lemma WorkersKeepRecords(jobs: map<JobId, Record>, a: State, b: State)
    requires Recorded(jobs, a.jobs) && WorkersOnly(a, b)
    ensures Recorded(jobs, b.jobs)
  {
  }

  /** What the promotion pass makes of a record. */
  function Promotion(listed: bool, rec: Record): Record {
    if listed && rec.state.Queued? then rec.(state := UploadPending) else rec
  }

  /** The record of a job whose upload was collected at or after `since`. */
  ghost predicate Rebooted(since: real, before: Record, after: Record) {
    && after == before.(state := Rebooting, attempts := 0, deadline := after.deadline, nextDue := after.nextDue)
    && after.deadline >= since + 180.0
    && after.nextDue == after.deadline - 180.0 + 5.0
  }

  /** What the collect pass, begun at `since`, makes of a record whose future was `future` when it began. */
  ghost predicate Collection(since: real, future: Future, before: Record, after: Record) {
    match future
    case NoFuture => after == before
    case Unfinished => after == before || after == before.(state := Failed) || Rebooted(since, before, after)
    case UploadError => after == before.(state := Failed)
    case Uploaded(_) => Rebooted(since, before, after)
  }

  /** The collect pass, begun at `since` with `jobs0` and `runtime0`, has dealt with the jobs before `k`. */
  ghost predicate CollectedTo(since: real, jobs0: map<JobId, Record>, runtime0: map<JobId, Slot>,
                              jobs: map<JobId, Record>, runtime: map<JobId, Slot>, k: nat) {
    && jobs.Keys == jobs0.Keys
    && (forall id :: id in jobs && id < k ==> Collection(since, SlotOf(runtime0, id).future, jobs0[id], jobs[id]))
    && (forall id :: id in jobs && id >= k ==>
          jobs[id] == jobs0[id] && FutureStep(SlotOf(runtime0, id).future, SlotOf(runtime, id).future))
  }

  lemma CollectedStep(since: real, clock: real, jobs0: map<JobId, Record>, runtime0: map<JobId, Slot>,
                      jobs: map<JobId, Record>, runtime: map<JobId, Slot>, k: nat,
                      jobs': map<JobId, Record>, runtime': map<JobId, Slot>)
    requires CollectedTo(since, jobs0, runtime0, jobs, runtime, k) && since <= clock && k in jobs
    requires jobs'.Keys == jobs.Keys
    requires forall id :: id in jobs && id != k ==> jobs'[id] == jobs[id] && SlotOf(runtime', id) == SlotOf(runtime, id)
    requires Collection(clock, SlotOf(runtime, k).future, jobs[k], jobs'[k])
    ensures CollectedTo(since, jobs0, runtime0, jobs', runtime', k + 1)
  {
    hide FutureStep, Collection;
    CollectionFrom(since, clock, SlotOf(runtime0, k).future, SlotOf(runtime, k).future, jobs[k], jobs'[k]);
  }

  lemma CollectedStart(since: real, jobs: map<JobId, Record>, runtime: map<JobId, Slot>)
    ensures CollectedTo(since, jobs, runtime, jobs, runtime, 0)
  {
  }

  lemma CollectedEnd(since: real, jobs0: map<JobId, Record>, runtime0: map<JobId, Slot>,
                     jobs: map<JobId, Record>, runtime: map<JobId, Slot>, k: nat)
    requires CollectedTo(since, jobs0, runtime0, jobs, runtime, k) && forall id :: id in jobs ==> id < k
    ensures jobs.Keys == jobs0.Keys
    ensures forall id :: id in jobs ==> Collection(since, SlotOf(runtime0, id).future, jobs0[id], jobs[id])
  {
    hide Collection;
  }

  lemma CollectedWhileWorking(since: real, jobs0: map<JobId, Record>, runtime0: map<JobId, Slot>,
                              jobs: map<JobId, Record>, runtime: map<JobId, Slot>, k: nat, runtime': map<JobId, Slot>)
    requires CollectedTo(since, jobs0, runtime0, jobs, runtime, k)
    requires forall id: JobId :: FutureStep(SlotOf(runtime, id).future, SlotOf(runtime', id).future)
    ensures CollectedTo(since, jobs0, runtime0, jobs, runtime', k)
  {
    hide Collection;
  }

  lemma CollectionFrom(since: real, clock: real, before: Future, after: Future, a: Record, b: Record)
    requires since <= clock && FutureStep(before, after) && Collection(clock, after, a, b)
    ensures Collection(since, before, a, b)
  {
  }

  /** What a reconnect pass at time `now` makes of a record; a probe that fails counts one more attempt. */
  ghost predicate Reconnection(listed: bool, now: real, before: Record, after: Record) {
    if !listed || !(before.state.Rebooting? || before.state.Reconnecting?) then after == before
    else if before.deadline != 0.0 && now > before.deadline then after == before.(state := Failed)
    else if before.nextDue != 0.0 && now < before.nextDue then after == before
    else || after == before.(state := Success)
         || (after == before.(state := Reconnecting, attempts := before.attempts + 1, nextDue := after.nextDue)
             && after.nextDue >= now + 5.0)
  }

  /** The reconnect pass has dealt with the first `k` listed jobs. */
  ghost predicate ReconnectedTo(now: real, list: seq<Record>, k: nat, jobs0: map<JobId, Record>,
                                jobs: map<JobId, Record>) {
    && jobs.Keys == jobs0.Keys
    && forall id :: id in jobs ==>
         if Among(list, k, id) then Reconnection(true, now, jobs0[id], jobs[id]) else jobs[id] == jobs0[id]
  }

  lemma ReconnectedNone(now: real, list: seq<Record>, jobs: map<JobId, Record>)
    ensures ReconnectedTo(now, list, 0, jobs, jobs)
  {
    AmongNone(list);
  }

  lemma ReconnectedStep(now: real, list: seq<Record>, k: nat, jobs0: map<JobId, Record>, jobs: map<JobId, Record>,
                        jobs': map<JobId, Record>)
    requires ReconnectedTo(now, list, k, jobs0, jobs) && k < |list| && Ascending(list)
    requires list[k].jobId in jobs && jobs'.Keys == jobs.Keys
    requires forall id :: id in jobs && id != list[k].jobId ==> jobs'[id] == jobs[id]
    requires Reconnection(true, now, jobs[list[k].jobId], jobs'[list[k].jobId])
    ensures ReconnectedTo(now, list, k + 1, jobs0, jobs')
  {
    hide Among, Reconnection;
    AmongNext(list, k);
  }

  lemma NextIsUntouched(now: real, list: seq<Record>, k: nat, jobs0: map<JobId, Record>, jobs: map<JobId, Record>)
    requires ReconnectedTo(now, list, k, jobs0, jobs) && k < |list| && Ascending(list)
    requires list[k].jobId in jobs0 && jobs0[list[k].jobId] == list[k]
    ensures list[k].jobId in jobs && jobs[list[k].jobId] == list[k]
  {
    hide Among, Reconnection;
    AmongNext(list, k);
  }

  lemma ReconnectedAll(now: real, list: seq<Record>, s: State, jobs0: map<JobId, Record>, jobs: map<JobId, Record>)
    requires ReconnectedTo(now, list, |list|, jobs0, jobs)
    requires forall id :: id in jobs0 ==> (Among(list, |list|, id) <==> Current(s, id))
    ensures jobs.Keys == jobs0.Keys
    ensures forall id :: id in jobs ==> Reconnection(Current(s, id), now, jobs0[id], jobs[id])
  {
    hide Among, Current;
  }

  /** A job that is probed succeeds if and only if its device answers, and was seen down before. */
  ghost predicate Answered(answers: (JobId, nat) -> bool, down: bool, now: real, before: Record, after: Record) {
    && (before.state.Rebooting? || before.state.Reconnecting?)
    && !(before.deadline != 0.0 && now > before.deadline) && !(before.nextDue != 0.0 && now < before.nextDue)
    ==> (after.state.Success? <==> answers(before.jobId, before.attempts) && down)
  }

  /** The answers have decided the first `k` listed jobs, and the entries of the others are as down as before. */
  ghost predicate AnsweredTo(answers: (JobId, nat) -> bool, now: real, list: seq<Record>, k: nat,
                             jobs0: map<JobId, Record>, runtime0: map<JobId, Slot>,
                             jobs: map<JobId, Record>, runtime: map<JobId, Slot>)
  {
    && jobs.Keys == jobs0.Keys
    && forall id :: id in jobs ==>
         if Among(list, k, id) then Answered(answers, SlotOf(runtime0, id).disconnect, now, jobs0[id], jobs[id])
         else SlotOf(runtime, id).disconnect == SlotOf(runtime0, id).disconnect
  }

  lemma AnsweredNone(answers: (JobId, nat) -> bool, now: real, list: seq<Record>, jobs: map<JobId, Record>,
                     runtime: map<JobId, Slot>)
    ensures AnsweredTo(answers, now, list, 0, jobs, runtime, jobs, runtime)
  {
    AmongNone(list);
  }

  lemma AnsweredWhileWorking(answers: (JobId, nat) -> bool, now: real, list: seq<Record>, k: nat,
                             jobs0: map<JobId, Record>, runtime0: map<JobId, Slot>,
                             jobs: map<JobId, Record>, runtime: map<JobId, Slot>, runtime': map<JobId, Slot>)
    requires AnsweredTo(answers, now, list, k, jobs0, runtime0, jobs, runtime)
    requires forall id: JobId :: SlotOf(runtime, id).disconnect == SlotOf(runtime', id).disconnect
    ensures AnsweredTo(answers, now, list, k, jobs0, runtime0, jobs, runtime')
  {
    hide Answered, Among, SlotOf;
  }

  lemma AnsweredStep(answers: (JobId, nat) -> bool, now: real, list: seq<Record>, k: nat,
                     jobs0: map<JobId, Record>, runtime0: map<JobId, Slot>, jobs: map<JobId, Record>,
                     runtime: map<JobId, Slot>, jobs': map<JobId, Record>, runtime': map<JobId, Slot>)
    requires AnsweredTo(answers, now, list, k, jobs0, runtime0, jobs, runtime) && k < |list| && Ascending(list)
    requires list[k].jobId in jobs && jobs'.Keys == jobs.Keys && jobs0[list[k].jobId] == list[k]
    requires forall id :: id in jobs && id != list[k].jobId ==>
               jobs'[id] == jobs[id] && SlotOf(runtime', id) == SlotOf(runtime, id)
    requires Answered(answers, SlotOf(runtime, list[k].jobId).disconnect, now, list[k], jobs'[list[k].jobId])
    ensures AnsweredTo(answers, now, list, k + 1, jobs0, runtime0, jobs', runtime')
  {
    hide Among, Answered, SlotOf;
    AmongNext(list, k);
  }

  lemma AnsweredAll(answers: (JobId, nat) -> bool, now: real, list: seq<Record>, s: State,
                    jobs0: map<JobId, Record>, runtime0: map<JobId, Slot>,
                    jobs: map<JobId, Record>, runtime: map<JobId, Slot>)
    requires AnsweredTo(answers, now, list, |list|, jobs0, runtime0, jobs, runtime)
    requires forall id :: id in jobs0 ==> (Among(list, |list|, id) <==> Current(s, id))
    ensures forall id :: id in jobs && Current(s, id) ==>
              Answered(answers, SlotOf(runtime0, id).disconnect, now, jobs0[id], jobs[id])
  {
    hide Among, Current, Answered;
  }

  lemma AmongNone(picked: seq<Record>)
    ensures forall id: JobId :: !Among(picked, 0, id)
  {
  }

  lemma AmongNext(picked: seq<Record>, i: nat)
    requires i < |picked| && Ascending(picked)
    ensures !Among(picked, i, picked[i].jobId)
    ensures forall id: JobId :: Among(picked, i + 1, id) <==> Among(picked, i, id) || id == picked[i].jobId
  {
    assert Among(picked, i + 1, picked[i].jobId) by {
      assert picked[i].jobId == picked[i].jobId;
    }
  }

  /** The collect pass has looked at every upload. */
  ghost predicate AllSeen(s: State) {
    forall id: nat :: id < |s.jobs| ==> s.jobs[id].future.NoFuture? || s.jobs[id].checked
  }

  ghost predicate SeenTo(s: State, k: nat) {
    forall id: nat :: id < |s.jobs| && id < k ==> s.jobs[id].future.NoFuture? || s.jobs[id].checked
  }

  lemma ShowsUnchecked(jobs: map<JobId, Record>, runtime: map<JobId, Slot>, a: seq<Job>, b: seq<Job>)
    requires ShowsAll(jobs, runtime, a) && |a| == |b|
    requires forall id: nat :: id < |a| ==> b[id] == a[id].(checked := b[id].checked)
    ensures ShowsAll(jobs, runtime, b)
  {
  }

  ghost predicate SameJobs(a: State, b: State) {
    |a.jobs| == |b.jobs| && a.batches == b.batches
  }

  /** And the round is still the same. */
  ghost predicate SamePass(a: State, b: State) {
    SameJobs(a, b) && a.rounds == b.rounds
  }

  /** The failed targets of the current batch. */
  function CurrentFailures(s: State): seq<Target> {
    if s.batches == [] then [] else FailedTargets(JobsOf(s, s.batches[|s.batches| - 1]))
  }

  lemma {:induction false} SameFailures(list: seq<Record>, js: seq<Job>)
    requires |list| == |js|
    requires forall i :: 0 <= i < |js| ==> list[i].target == js[i].target && list[i].state == js[i].state
    ensures Targets(Faileds(list)) == FailedTargets(js)
    ensures Faileds(list) == [] <==> FailedTargets(js) == []
  {
    if list == [] {
    } else {
      SameFailures(list[1..], js[1..]);
      if list[0].state.Failed? {
        assert Faileds(list)[1..] == Faileds(list[1..]);
      } else {
        assert Faileds(list) == Faileds(list[1..]);
        assert FailedTargets(js) == FailedTargets(js[1..]);
      }
    }
  }

  /**
   * The records after the promotion, the submission and the collect pass of one round, the free slots and the
   * entries that the passes saw, and the times at which the collect and the reconnect pass began.
   */
  datatype Passes = Passes(
    promoted: map<JobId, Record>,
    submitted: map<JobId, Record>,
    collected: map<JobId, Record>,
    free: int,
    entries: map<JobId, Slot>,
    since: real,
    now: real)

  /** Where in a run the passes of a round begin, and where the round ends. */
  datatype Mark = Mark(submit: nat, collect: nat, probe: nat, end: nat)

  /** The events from `begin` to the end of `m` are a round, and its passes began with what `p` says. */
  ghost predicate RoundAt(r: Run, begin: nat, m: Mark, p: Passes) {
    && Shaped(r) && begin <= m.submit < m.collect < m.probe < m.end < |r.events|
    && r.events[m.submit] == SubmitBegun(p.free) && Recorded(p.promoted, r.states[m.submit].jobs)
    && r.events[m.collect] == CollectBegun && ShowsAll(p.submitted, p.entries, r.states[m.collect].jobs)
    && r.states[m.collect].clock == p.since
    && r.events[m.probe] == ProbingBegun(p.now) && Recorded(p.collected, r.states[m.probe].jobs)
    && r.events[m.end] == LoopAgain && r.states[m.end + 1].rounds == r.states[begin].rounds + 1
  }

  lemma RoundIsAt(r0: Run, r1: Run, r2: Run, r3: Run, r4: Run, p: Passes)
    requires Shaped(r0) && Continues(r0, r1) && BeginsWith(r1, r2, SubmitBegun(p.free))
    requires BeginsWith(r2, r3, CollectBegun) && BeginsWith(r3, r4, ProbingBegun(p.now))
    requires |r4.events| > |r3.events| + 1 && r4.events[|r4.events| - 1] == LoopAgain
    requires Recorded(p.promoted, r1.Last().jobs) && ShowsAll(p.submitted, p.entries, r2.Last().jobs)
    requires r2.Last().clock == p.since && Recorded(p.collected, r3.Last().jobs)
    requires r4.Last().rounds == r0.Last().rounds + 1
    ensures RoundAt(r4, |r0.events|, Mark(|r1.events|, |r2.events|, |r3.events|, |r4.events| - 1), p)
  {
    hide Recorded, ShowsAll;
  }

  lemma RoundStaysAt(r: Run, later: Run, begin: nat, m: Mark, p: Passes)
    requires RoundAt(r, begin, m, p) && Continues(r, later) && Shaped(later)
    ensures RoundAt(later, begin, m, p)
  {
    hide Recorded, ShowsAll;
  }

  /** What the first two passes of a round that began in `s` with the record `before` make of job `id`. */
  ghost predicate UploadsStep(s: State, ids: seq<JobId>, promoted: map<JobId, Record>, free: int,
                              submitted: map<JobId, Record>, before: Record, id: JobId)
    requires id in promoted && id in submitted
  {
    var picked := Picked(Lookup(promoted, ids), free);
    && promoted[id] == Promotion(Current(s, id), before)
    && submitted[id] == Submission(Among(picked, |picked|, id), promoted[id])
    && (!promoted[id].state.UploadPending? ==> submitted[id] == promoted[id])
  }

  /** What one round that began in `s` with the records `before` makes of job `id`, listing the jobs `ids`. */
  ghost predicate RoundStep(s: State, ids: seq<JobId>, p: Passes, before: Record, id: JobId, after: Record)
    requires id in p.promoted && id in p.submitted && id in p.collected
  {
    && UploadsStep(s, ids, p.promoted, p.free, p.submitted, before, id)
    && Fits(p.submitted[id].state, SlotOf(p.entries, id).future)
    && Collection(p.since, SlotOf(p.entries, id).future, p.submitted[id], p.collected[id])
    && (Awaiting(p.collected[id]) ==> 0.0 < p.collected[id].deadline <= p.now + 180.0)
    && Reconnection(Current(s, id), p.now, p.collected[id], after)
  }

  /** The futures that go with a state. */
  predicate Fits(state: JobState, future: Future) {
    match state
    case Uploading => !future.NoFuture?
    case Failed => future.NoFuture? || future.UploadError?
    case _ => future.NoFuture?
  }

  predicate NoneUploading(jobs: map<JobId, Record>) {
    forall id :: id in jobs ==> !jobs[id].state.Uploading?
  }

  predicate Awaiting(rec: Record) {
    rec.state.Rebooting? || rec.state.Reconnecting?
  }

  predicate Ended(rec: Record) {
    rec.state.Success? || rec.state.Failed?
  }

  /** The job is waiting for its device past its deadline. */
  predicate Overdue(rec: Record, at: real) {
    Awaiting(rec) && rec.deadline != 0.0 && at > rec.deadline
  }

  lemma RoundMovesOn(s: State, ids: seq<JobId>, p: Passes, before: Record, id: JobId, after: Record)
    requires id in p.promoted && id in p.submitted && id in p.collected
    requires RoundStep(s, ids, p, before, id, after) && Current(s, id)
    ensures !after.state.Queued?
    ensures Overdue(before, p.now) ==> after == before.(state := Failed)
    ensures before.state.Queued? ==> p.promoted[id] == before.(state := UploadPending)
    ensures ProbedWhenDue(p.collected[id], p.now, after)
  {
    hide Current, Among, Picked, Lookup;
  }

  /** A job that waits for its device and is neither overdue nor early at time `at` is probed; one too early is not. */
  ghost predicate ProbedWhenDue(rec: Record, at: real, after: Record) {
    (rec.state.Rebooting? || rec.state.Reconnecting?) && 0.0 <= at <= rec.deadline ==>
      if at < rec.nextDue then after == rec
      else after.state.Success? || (after.state.Reconnecting? && after.attempts == rec.attempts + 1)
  }

  lemma RoundIs(s: State, t: State, u: State, ids: seq<JobId>, p: Passes,
                before: map<JobId, Record>, after: map<JobId, Record>)
    requires after.Keys == before.Keys == p.promoted.Keys == p.submitted.Keys == p.collected.Keys
    requires forall id :: Current(s, id) == Current(t, id) == Current(u, id)
    requires forall id :: id in after ==>
               UploadsStep(s, ids, p.promoted, p.free, p.submitted, before[id], id)
    requires forall id :: id in after ==> Fits(p.submitted[id].state, SlotOf(p.entries, id).future)
    requires forall id :: id in after ==>
               Collection(p.since, SlotOf(p.entries, id).future, p.submitted[id], p.collected[id])
    requires forall id :: id in after && Awaiting(p.collected[id]) ==>
               0.0 < p.collected[id].deadline <= p.now + 180.0
    requires forall id :: id in after ==> Reconnection(Current(t, id), p.now, p.collected[id], after[id])
    ensures forall id :: id in after ==> RoundStep(s, ids, p, before[id], id, after[id])
    ensures forall id :: id in after && Current(u, id) ==> !after[id].state.Queued?
    ensures forall id :: id in after && Current(u, id) && Overdue(before[id], p.now) ==>
              after[id] == before[id].(state := Failed)
    ensures forall id :: id in after && Current(u, id) ==>
              && (before[id].state.Queued? ==> p.promoted[id] == before[id].(state := UploadPending))
              && ProbedWhenDue(p.collected[id], p.now, after[id])
  {
    hide UploadsStep, Collection, Reconnection, Current, Overdue, SlotOf, Fits, ProbedWhenDue;
    forall id | id in after
      ensures RoundStep(s, ids, p, before[id], id, after[id])
      ensures Current(u, id) ==> !after[id].state.Queued?
      ensures Current(u, id) && Overdue(before[id], p.now) ==> after[id] == before[id].(state := Failed)
      ensures Current(u, id) && before[id].state.Queued? ==> p.promoted[id] == before[id].(state := UploadPending)
      ensures Current(u, id) ==> ProbedWhenDue(p.collected[id], p.now, after[id])
    {
      if Current(u, id) {
        RoundMovesOn(s, ids, p, before[id], id, after[id]);
      }
    }
  }

  // ----- A batch ends -------------------------------------------------------------------------------

  /** How much a job still has to do before it waits for its device. */
  function WeightOf(state: JobState): nat {
    if state.Queued? || state.UploadPending? then 2 else if state.Uploading? then 1 else 0
  }

  ghost function Weight(jobs: map<JobId, Record>, n: nat): nat {
    if n == 0 then 0
    else Weight(jobs, n - 1) + if n - 1 in jobs then WeightOf(jobs[n - 1].state) else 0
  }

  lemma {:induction false} WeightLess(a: map<JobId, Record>, b: map<JobId, Record>, n: nat)
    requires a.Keys == b.Keys && forall id :: id in a ==> WeightOf(b[id].state) <= WeightOf(a[id].state)
    ensures Weight(b, n) <= Weight(a, n)
    ensures forall id :: id in a && id < n && WeightOf(b[id].state) < WeightOf(a[id].state) ==>
              Weight(b, n) < Weight(a, n)
  {
    hide WeightOf;
    if n == 0 {
    } else {
      WeightLess(a, b, n - 1);
    }
  }

  lemma {:induction false} WeightBound(jobs: map<JobId, Record>, first: nat, n: nat)
    requires forall id :: id in jobs && id < first ==> WeightOf(jobs[id].state) == 0
    ensures Weight(jobs, n) <= if n <= first then 0 else 2 * (n - first)
  {
    if n == 0 {
    } else {
      WeightBound(jobs, first, n - 1);
    }
  }

  lemma {:induction false} WeightZero(jobs: map<JobId, Record>, n: nat, id: JobId)
    requires id in jobs && id < n && Weight(jobs, n) == 0
    ensures WeightOf(jobs[id].state) == 0
  {
    if id == n - 1 {
    } else {
      WeightZero(jobs, n - 1, id);
    }
  }

  lemma {:induction false} WeightSome(jobs: map<JobId, Record>, n: nat) returns (id: JobId)
    requires Weight(jobs, n) > 0
    ensures id in jobs && id < n && WeightOf(jobs[id].state) > 0
  {
    if n - 1 in jobs && WeightOf(jobs[n - 1].state) > 0 {
      id := n - 1;
    } else {
      id := WeightSome(jobs, n - 1);
    }
  }

  /** Every upload had finished when the round began to collect. */
  ghost predicate AllFinished(p: Passes) {
    forall id :: id in p.submitted ==> !SlotOf(p.entries, id).future.Unfinished?
  }

  ghost function Finishing(): Passes -> bool {
    (p: Passes) => AllFinished(p)
  }

  /** What a round does to a job, whether it belongs to the current batch or had ended before. */
  lemma RoundEffect(s: State, ids: seq<JobId>, p: Passes, before: Record, id: JobId, after: Record)
    requires id in p.promoted && id in p.submitted && id in p.collected
    requires RoundStep(s, ids, p, before, id, after) && (!Current(s, id) ==> Ended(before))
    ensures WeightOf(after.state) <= WeightOf(before.state)
    ensures Ended(before) ==> Ended(after)
    ensures Awaiting(after) ==> 0.0 < after.deadline <= p.now + 180.0
    ensures !SlotOf(p.entries, id).future.Unfinished? && p.submitted[id].state.Uploading? ==> WeightOf(after.state) == 0
    ensures before.state.Uploading? ==> p.submitted[id].state.Uploading?
    ensures Current(s, id) && WeightOf(before.state) == 2 ==> p.promoted[id].state.UploadPending?
    ensures !before.state.Uploading? ==> !p.promoted[id].state.Uploading?
  {
    hide Current, Among, Picked, Lookup;
  }

  lemma {:induction false} PendingsHave(list: seq<Record>, rec: Record)
    requires rec in list && rec.state.UploadPending?
    ensures rec in Pendings(list)
  {
    if rec == list[0] {
    } else {
      PendingsHave(list[1..], rec);
    }
  }

  lemma {:induction false} PendingsOnly(list: seq<Record>, rec: Record)
    requires rec in Pendings(list)
    ensures rec in list && rec.state.UploadPending?
  {
    if rec == list[0] && rec.state.UploadPending? {
    } else {
      PendingsOnly(list[1..], rec);
    }
  }

  lemma {:induction false} LookupHas(jobs: map<JobId, Record>, ids: seq<JobId>, rec: Record)
    requires forall id :: id in jobs ==> jobs[id].jobId == id
    ensures rec in Lookup(jobs, ids) <==> rec.jobId in ids && rec.jobId in jobs && jobs[rec.jobId] == rec
  {
    if ids == [] {
    } else {
      LookupHas(jobs, ids[1..], rec);
    }
  }

  /** With a free slot, some pending job is picked. */
  lemma SomeoneIsPicked(jobs: map<JobId, Record>, ids: seq<JobId>, free: int, id: JobId) returns (first: JobId)
    requires forall k :: k in jobs ==> jobs[k].jobId == k
    requires free >= 1 && id in ids && id in jobs && jobs[id].state.UploadPending?
    ensures first in jobs && jobs[first].state.UploadPending?
    ensures var picked := Picked(Lookup(jobs, ids), free); Among(picked, |picked|, first)
  {
    hide Lookup, Pendings;
    var list := Lookup(jobs, ids);
    LookupHas(jobs, ids, jobs[id]);
    PendingsHave(list, jobs[id]);
    var picked := Picked(list, free);
    assert picked[0] == Pendings(list)[0];
    PendingsOnly(list, picked[0]);
    LookupHas(jobs, ids, picked[0]);
    first := picked[0].jobId;
  }

  /** A round over finished uploads has less to do afterwards. */
  lemma FinishedRoundAdvances(s: State, ids: seq<JobId>, p: Passes, before: map<JobId, Record>,
                             after: map<JobId, Record>, n: nat)
    requires after.Keys == before.Keys == p.promoted.Keys == p.submitted.Keys == p.collected.Keys
    requires forall id :: id in after ==> RoundStep(s, ids, p, before[id], id, after[id])
    requires forall id :: id in before ==> before[id].jobId == id && (!Current(s, id) ==> Ended(before[id]))
    requires forall id :: id in before && Current(s, id) ==> id in ids
    requires AllFinished(p) && Weight(before, n) > 0 && (NoneUploading(p.promoted) ==> p.free >= 1)
    ensures exists id :: id in before && WeightOf(after[id].state) < WeightOf(before[id].state)
  {
    hide RoundStep, Current, SlotOf, Picked, Lookup, Among, Weight;
    forall id | id in before
      ensures before[id].state.Uploading? ==> WeightOf(after[id].state) < WeightOf(before[id].state)
      ensures !before[id].state.Uploading? ==> !p.promoted[id].state.Uploading?
    {
      RoundEffect(s, ids, p, before[id], id, after[id]);
    }
    if forall id :: id in before ==> !before[id].state.Uploading? {
      var id := WeightSome(before, n);
      RoundEffect(s, ids, p, before[id], id, after[id]);
      forall k | k in p.promoted ensures p.promoted[k].jobId == k {
        PromotedKeepsId(s, ids, p, before[k], k, after[k]);
      }
      var first := SomeoneIsPicked(p.promoted, ids, p.free, id);
      PickedUploads(s, ids, p, before[first], first, after[first]);
      RoundEffect(s, ids, p, before[first], first, after[first]);
    }
  }

  lemma PromotedKeepsId(s: State, ids: seq<JobId>, p: Passes, before: Record, id: JobId, after: Record)
    requires id in p.promoted && id in p.submitted && id in p.collected
    requires RoundStep(s, ids, p, before, id, after)
    ensures p.promoted[id].jobId == before.jobId
  {
    hide Current, Picked, Lookup, Among, Collection, Reconnection;
  }

  lemma PickedUploads(s: State, ids: seq<JobId>, p: Passes, before: Record, id: JobId, after: Record)
    requires id in p.promoted && id in p.submitted && id in p.collected
    requires RoundStep(s, ids, p, before, id, after) && p.promoted[id].state.UploadPending?
    requires var picked := Picked(Lookup(p.promoted, ids), p.free); Among(picked, |picked|, id)
    ensures p.submitted[id].state.Uploading? && WeightOf(before.state) == 2
  {
    hide Current, Picked, Lookup, Among, Collection, Reconnection;
  }

  /** The rounds so far have brought the batch of `size` jobs on: what is left to do, and no deadline is far ahead. */
  ghost predicate BroughtOn(ps: seq<Passes>, size: nat, jobs: map<JobId, Record>, n: nat) {
    && (Weight(jobs, n) == 0 || Weight(jobs, n) + Count(Finishing(), ps) <= 2 * size)
    && (ps != [] ==>
          forall id :: id in jobs && Awaiting(jobs[id]) ==>
            0.0 < jobs[id].deadline <= ps[|ps| - 1].now + 180.0)
  }

  /** The last round began to probe after every deadline that the rounds before it can have set. */
  ghost predicate LateAfter(ps: seq<Passes>, p: Passes) {
    ps != [] && p.now > ps[|ps| - 1].now + 180.0
  }

  /** Where the `i`-th of the rounds `ms` begins, the first of them at `from`. */
  ghost function BeginOf(from: nat, ms: seq<Mark>, i: nat): nat
    requires i <= |ms|
  {
    if i == 0 then from else ms[i - 1].end + 1
  }

  ghost predicate IthRound(r: Run, from: nat, ms: seq<Mark>, ps: seq<Passes>, i: nat)
    requires i < |ms| == |ps|
  {
    RoundAt(r, BeginOf(from, ms, i), ms[i], ps[i])
  }

  /** From event `from` on, the run is the rounds `ms`, one after the other, and their passes began with `ps`. */
  ghost predicate RoundsAt(r: Run, from: nat, ms: seq<Mark>, ps: seq<Passes>) {
    && Shaped(r) && |ms| == |ps| && BeginOf(from, ms, |ms|) == |r.events|
    && forall i: nat :: i < |ms| ==> IthRound(r, from, ms, ps, i)
  }

  lemma NoRounds(r: Run)
    requires Shaped(r)
    ensures RoundsAt(r, |r.events|, [], [])
  {
  }

  lemma OneMoreRound(r: Run, later: Run, from: nat, ms: seq<Mark>, ps: seq<Passes>, m: Mark, p: Passes)
    requires RoundsAt(r, from, ms, ps) && Continues(r, later)
    requires RoundAt(later, |r.events|, m, p) && m.end == |later.events| - 1
    ensures RoundsAt(later, from, ms + [m], ps + [p])
  {
    hide RoundAt, Continues;
    RoundIsShaped(later, |r.events|, m, p);
    var more, done := ms + [m], ps + [p];
    forall i: nat | i < |more| ensures IthRound(later, from, more, done, i) {
      if i < |ms| {
        assert IthRound(r, from, ms, ps, i);
        RoundStaysAt(r, later, BeginOf(from, ms, i), ms[i], ps[i]);
      }
    }
  }

  lemma RoundIsShaped(r: Run, begin: nat, m: Mark, p: Passes)
    requires RoundAt(r, begin, m, p)
    ensures Shaped(r)
  {
  }

  /** No upload is running when the collect pass of the round begins. */
  ghost function NoUploadRuns(r: Run): Mark -> bool {
    (m: Mark) => m.collect < |r.states| && Active(r.states[m.collect]) == 0
  }

  /** When the reconnect pass of the round begins. */
  ghost function ProbingTime(r: Run, m: Mark): real {
    if m.probe < |r.events| && r.events[m.probe].ProbingBegun? then r.events[m.probe].at else 0.0
  }

  lemma PassesTell(r: Run, begin: nat, m: Mark, p: Passes)
    requires RoundAt(r, begin, m, p)
    ensures AllFinished(p) <==> NoUploadRuns(r)(m)
    ensures p.now == ProbingTime(r, m)
  {
    hide Recorded, Count;
    var js := r.states[m.collect].jobs;
    if AllFinished(p) {
      forall i | 0 <= i < |js| ensures !IsUnfinished()(js[i]) {
        assert Shows(p.submitted[i], SlotOf(p.entries, i), i, js[i]);
      }
      CountNothing(IsUnfinished(), js);
    } else {
      var id :| id in p.submitted && SlotOf(p.entries, id).future.Unfinished?;
      assert Shows(p.submitted[id], SlotOf(p.entries, id), id, js[id]);
      CountOne(IsUnfinished(), js, id);
    }
  }

  /** So what a sequence of rounds comes to can be read off the run. */
  lemma RoundsTell(r: Run, from: nat, ms: seq<Mark>, ps: seq<Passes>, n: nat)
    requires RoundsAt(r, from, ms, ps) && n <= |ms|
    ensures Count(Finishing(), ps[..n]) == Count(NoUploadRuns(r), ms[..n])
    ensures forall i: nat :: i < |ms| ==> ps[i].now == ProbingTime(r, ms[i])
  {
    hide RoundAt, AllFinished, NoUploadRuns, ProbingTime, Count;
    forall i: nat | i < |ms| ensures AllFinished(ps[i]) <==> NoUploadRuns(r)(ms[i])
      ensures ps[i].now == ProbingTime(r, ms[i])
    {
      assert IthRound(r, from, ms, ps, i);
      PassesTell(r, BeginOf(from, ms, i), ms[i], ps[i]);
    }
    CountLess(Finishing(), NoUploadRuns(r), ps[..n], ms[..n]);
    CountLess(NoUploadRuns(r), Finishing(), ms[..n], ps[..n]);
  }

  lemma RoundBringsOn(s: State, ids: seq<JobId>, ps: seq<Passes>, p: Passes, before: map<JobId, Record>,
                      after: map<JobId, Record>, n: nat)
    requires after.Keys == before.Keys == p.promoted.Keys == p.submitted.Keys == p.collected.Keys
    requires forall id :: id in after ==> RoundStep(s, ids, p, before[id], id, after[id])
    requires forall id :: id in before ==> id < n && before[id].jobId == id && (!Current(s, id) ==> Ended(before[id]))
    requires forall id :: id in before && Current(s, id) ==> id in ids
    requires NoneUploading(p.promoted) ==> p.free >= 1
    requires BroughtOn(ps, |ids|, before, n)
    ensures BroughtOn(ps + [p], |ids|, after, n)
    ensures Count(Finishing(), ps) >= 2 * |ids| && LateAfter(ps, p) ==> forall id :: id in after ==> Ended(after[id])
  {
    hide RoundStep, Current, Weight, Count, AllFinished, Overdue, Ended, Awaiting, NoneUploading, WeightOf;
    CountAppend(Finishing(), ps, p);
    forall id | id in after
      ensures WeightOf(after[id].state) <= WeightOf(before[id].state)
      ensures Awaiting(after[id]) ==> 0.0 < after[id].deadline <= p.now + 180.0
    {
      RoundEffect(s, ids, p, before[id], id, after[id]);
    }
    WeightLess(before, after, n);
    if AllFinished(p) && Weight(before, n) > 0 {
      FinishedRoundAdvances(s, ids, p, before, after, n);
    }
    if Count(Finishing(), ps) >= 2 * |ids| && LateAfter(ps, p) {
      forall id | id in after ensures Ended(after[id]) {
        WeightZero(before, n, id);
        LateRoundEnds(s, ids, p, before[id], id, after[id]);
      }
    }
  }

  lemma LateRoundEnds(s: State, ids: seq<JobId>, p: Passes, before: Record, id: JobId, after: Record)
    requires id in p.promoted && id in p.submitted && id in p.collected
    requires RoundStep(s, ids, p, before, id, after) && (!Current(s, id) ==> Ended(before))
    requires WeightOf(before.state) == 0 && (Awaiting(before) ==> 0.0 < before.deadline < p.now)
    ensures Ended(after)
  {
    hide Current, RoundStep;
    if Awaiting(before) {
      RoundMovesOn(s, ids, p, before, id, after);
    } else {
      RoundEffect(s, ids, p, before, id, after);
    }
  }
}
