/**
 * The firmware batch engine as a timed protocol (application/firmware/firmware_batch_supervisor.py,
 * application/firmware/firmware_job_registry.py). One supervisor thread runs its four passes over and
 * over; upload workers finish at any time; the user starts and retries batches. Times are in seconds.
 */
module Firmware {
  import opened Counting

  const RECONNECT_INTERVAL := 5.0
  const RECONNECT_TIMEOUT := 180.0
  const MAX_RECONNECT_ATTEMPTS := 36

  datatype Target = Target(ip: string, port: nat)

  datatype JobState = Queued | UploadPending | Uploading | Rebooting | Reconnecting | Success | Failed

  /** The upload's future: none, unfinished, finished with `disconnect_observed`, or finished with an error. */
  datatype Future = NoFuture | Unfinished | Uploaded(disconnect: bool) | UploadError

  type JobId = nat

  /**
   * A registry job together with its `_runtime` entry; a missing entry reads as no future and no
   * disconnect. `uploadedAt` (when the upload was collected) and `checked` (looked at by the collect
   * pass under way) are history.
   */
  datatype Job = Job(
    target: Target,
    state: JobState,
    attempts: nat,
    deadline: real,
    nextDue: real,
    future: Future,
    disconnect: bool,
    uploadedAt: real,
    checked: bool)

  /** A batch is a block of consecutive job ids; `retry` tells how it was created. */
  datatype Batch = Batch(first: JobId, size: nat, retry: bool)

  /** Which pass of `_loop` the supervisor thread is in. */
  datatype Phase = Promoting | Submitting(free: int) | Collecting | Probing(now: real)

  /** `rounds` is history: how many rounds of `_loop` have ended. */
  datatype State = State(jobs: seq<Job>, batches: seq<Batch>, phase: Phase, clock: real, rounds: nat)

  const INIT := State([], [], Promoting, 0.0, 0)

  function NewJob(t: Target): Job {
    Job(t, Queued, 0, 0.0, 0.0, NoFuture, false, 0.0, false)
  }

  function NewJobs(ts: seq<Target>): (js: seq<Job>)
    ensures |js| == |ts|
    ensures forall i :: 0 <= i < |ts| ==> js[i] == NewJob(ts[i])
  {
    seq(|ts|, i requires 0 <= i < |ts| => NewJob(ts[i]))
  }

  predicate Terminal(j: Job) {
    j.state.Success? || j.state.Failed?
  }

  predicate Waiting(j: Job) {
    j.state.Rebooting? || j.state.Reconnecting?
  }

  predicate InBatch(b: Batch, id: JobId) {
    b.first <= id < b.first + b.size
  }

  /** `list_jobs` lists the jobs of the batch created last. */
  predicate Current(s: State, id: JobId) {
    id < |s.jobs| && s.batches != [] && InBatch(s.batches[|s.batches| - 1], id)
  }

  /** `can_start_batch`: there is no batch, or the current one is non-empty and terminal. */
  predicate CanStart(s: State) {
    s.batches == []
    || (s.batches[|s.batches| - 1].size > 0
        && forall id :: 0 <= id < |s.jobs| && Current(s, id) ==> Terminal(s.jobs[id]))
  }

  function FailedTargets(js: seq<Job>): seq<Target> {
    if js == [] then []
    else (if js[0].state.Failed? then [js[0].target] else []) + FailedTargets(js[1..])
  }

  function SuccessTargets(js: seq<Job>): seq<Target> {
    if js == [] then []
    else (if js[0].state.Success? then [js[0].target] else []) + SuccessTargets(js[1..])
  }

  function TargetsOf(js: seq<Job>): seq<Target> {
    if js == [] then [] else [js[0].target] + TargetsOf(js[1..])
  }

  /** The jobs of a batch; none when the block does not fit. */
  function JobsOf(s: State, b: Batch): seq<Job> {
    if b.first + b.size <= |s.jobs| then s.jobs[b.first..b.first + b.size] else []
  }

  function IsUnfinished(): Job -> bool { (j: Job) => j.future.Unfinished? }

  function IsUploading(): Job -> bool { (j: Job) => j.state.Uploading? }

  /** `_active_upload_count`. */
  function Active(s: State): nat {
    Count(IsUnfinished(), s.jobs)
  }

  function UploadingCount(s: State): nat {
    Count(IsUploading(), s.jobs)
  }

  function Set(s: State, id: JobId, j: Job): State
    requires id < |s.jobs|
  {
    s.(jobs := s.jobs[id := j])
  }

  function Create(s: State, ts: seq<Target>, retry: bool): State {
    s.(jobs := s.jobs + NewJobs(ts), batches := s.batches + [Batch(|s.jobs|, |ts|, retry)])
  }

  /** The effect of a collected upload at time `now`. */
  function Collect(j: Job, now: real): Job
    requires j.future.Uploaded?
  {
    j.(state := Rebooting, attempts := 0, deadline := now + RECONNECT_TIMEOUT, nextDue := now + RECONNECT_INTERVAL,
       future := NoFuture, disconnect := j.future.disconnect, uploadedAt := now, checked := true)
  }

  /** The effect of a reconnect probe that returns at time `after`. */
  function Probe(j: Job, ok: bool, after: real): Job {
    if ok && j.disconnect then j.(state := Success)
    else j.(state := Reconnecting, attempts := j.attempts + 1, nextDue := after + RECONNECT_INTERVAL,
            disconnect := j.disconnect || !ok)
  }

  datatype Event =
    | BatchStarted(targets: seq<Target>)
    | RetryStarted
    | Promoted(id: JobId)
    | SubmitBegun(free: int)
    | UploadSubmitted(id: JobId)
    | UploadFinished(id: JobId, result: Future)
    | CollectBegun
    | StillUploading(id: JobId)
    | UploadCollected(id: JobId, at: real)
    | UploadFailed(id: JobId)
    | ProbingBegun(at: real)
    | TimedOut(id: JobId)
    | Probed(id: JobId, ok: bool, at: real, after: real)
    | LoopAgain

  predicate PastDeadline(j: Job, now: real) {
    j.deadline != 0.0 && now > j.deadline
  }

  predicate NotYetDue(j: Job, now: real) {
    j.nextDue != 0.0 && now < j.nextDue
  }

  /**
   * `parallelism` is `_upload_parallelism`. Uploads finish while the free slots are counted, so the count may
   * be short of the slots that are free in the end.
   */
  predicate Enabled(parallelism: nat, s: State, e: Event) {
    match e
    case BatchStarted(ts) => ts != [] && CanStart(s)
    case RetryStarted => s.batches != [] && CanStart(s) && FailedTargets(JobsOf(s, s.batches[|s.batches| - 1])) != []
    case Promoted(id) => s.phase.Promoting? && Current(s, id) && s.jobs[id].state.Queued?
    case SubmitBegun(free) => s.phase.Promoting? && free <= parallelism - Active(s)
    case UploadSubmitted(id) =>
      s.phase.Submitting? && s.phase.free > 0 && Current(s, id)
      && s.jobs[id].state.UploadPending? && s.jobs[id].future.NoFuture?
    case UploadFinished(id, result) =>
      id < |s.jobs| && s.jobs[id].future.Unfinished? && (result.Uploaded? || result.UploadError?)
    case CollectBegun => s.phase.Submitting?
    case StillUploading(id) => s.phase.Collecting? && id < |s.jobs| && s.jobs[id].future.Unfinished?
    case UploadCollected(id, at) =>
      s.phase.Collecting? && id < |s.jobs| && s.jobs[id].future.Uploaded? && at >= s.clock
    case UploadFailed(id) => s.phase.Collecting? && id < |s.jobs| && s.jobs[id].future.UploadError?
    case ProbingBegun(at) =>
      s.phase.Collecting? && at >= s.clock
      && forall id :: 0 <= id < |s.jobs| ==> s.jobs[id].future.NoFuture? || s.jobs[id].checked
    case TimedOut(id) =>
      s.phase.Probing? && Current(s, id) && Waiting(s.jobs[id]) && PastDeadline(s.jobs[id], s.phase.now)
    case Probed(id, ok, at, after) =>
      s.phase.Probing? && Current(s, id) && Waiting(s.jobs[id]) && !PastDeadline(s.jobs[id], s.phase.now)
      && !NotYetDue(s.jobs[id], s.phase.now) && s.clock <= at <= after
    case LoopAgain => s.phase.Probing?
  }

  function Apply(parallelism: nat, s: State, e: Event): State
    requires Enabled(parallelism, s, e)
  {
    match e
    case BatchStarted(ts) => Create(s, ts, false)
    case RetryStarted => Create(s, FailedTargets(JobsOf(s, s.batches[|s.batches| - 1])), true)
    case Promoted(id) => Set(s, id, s.jobs[id].(state := UploadPending))
    case SubmitBegun(free) => s.(phase := Submitting(free))
    case UploadSubmitted(id) =>
      Set(s, id, s.jobs[id].(state := Uploading, future := Unfinished)).(phase := Submitting(s.phase.free - 1))
    case UploadFinished(id, result) => Set(s, id, s.jobs[id].(future := result))
    case CollectBegun => s.(phase := Collecting, jobs := Unchecked(s.jobs))
    case StillUploading(id) => Set(s, id, s.jobs[id].(checked := true))
    case UploadCollected(id, at) => Set(s, id, Collect(s.jobs[id], at)).(clock := at)
    case UploadFailed(id) => Set(s, id, s.jobs[id].(state := Failed, checked := true))
    case ProbingBegun(at) => s.(phase := Probing(at), clock := at)
    case TimedOut(id) => Set(s, id, s.jobs[id].(state := Failed))
    case Probed(id, ok, at, after) => Set(s, id, Probe(s.jobs[id], ok, after)).(clock := after)
    case LoopAgain => s.(phase := Promoting, rounds := s.rounds + 1)
  }

  function Unchecked(js: seq<Job>): (r: seq<Job>)
    ensures |r| == |js|
    ensures forall i :: 0 <= i < |js| ==> r[i] == js[i].(checked := false)
  {
    seq(|js|, i requires 0 <= i < |js| => js[i].(checked := false))
  }

  /** A run: its states and the events between them. */
  datatype Run = Run(states: seq<State>, events: seq<Event>) {
    function Last(): State
      requires states != []
    {
      states[|states| - 1]
    }

    function Then(parallelism: nat, e: Event): Run
      requires states != [] && Enabled(parallelism, Last(), e)
    {
      Run(states + [Apply(parallelism, Last(), e)], events + [e])
    }
  }

  /** The `i`-th event is possible in the `i`-th state and leads to the next one. */
  ghost predicate StepAt(parallelism: nat, r: Run, i: nat)
    requires |r.states| == |r.events| + 1 && i < |r.events|
  {
    Enabled(parallelism, r.states[i], r.events[i]) && r.states[i + 1] == Apply(parallelism, r.states[i], r.events[i])
  }

  ghost predicate IsRun(parallelism: nat, r: Run) {
    && |r.states| == |r.events| + 1
    && r.states[0] == INIT
    && forall i: nat :: i < |r.events| ==> StepAt(parallelism, r, i)
  }

  /** A run goes on with any event that is possible in its last state. */
  lemma RunExtends(parallelism: nat, r: Run, e: Event)
    requires IsRun(parallelism, r) && r.states != [] && Enabled(parallelism, r.Last(), e)
    ensures IsRun(parallelism, r.Then(parallelism, e))
    ensures r.Then(parallelism, e).states != [] && r.Then(parallelism, e).Last() == Apply(parallelism, r.Last(), e)
  {
    hide Enabled, Apply;
    var x := r.Then(parallelism, e);
    forall i: nat | i < |x.events| ensures StepAt(parallelism, x, i) {
      if i < |r.events| {
        assert StepAt(parallelism, r, i);
      }
    }
  }

  lemma RunShape(parallelism: nat, r: Run)
    requires IsRun(parallelism, r)
    ensures |r.states| == |r.events| + 1 && r.states[0] == INIT
  {
  }
}
