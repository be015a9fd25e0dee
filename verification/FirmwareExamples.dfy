/** Runs of the firmware batch engine that show which bounds are tight and which do not hold. */
module FirmwareExamples {
  import opened Counting
  import opened Firmware
  import opened FirmwareRuns
  import opened FirmwareRetries

  const A := Target("a", 80)
  const B := Target("b", 80)
  const BOTH := [Batch(0, 2, false)]

  lemma CountPair<T>(has: T -> bool, x: T, y: T)
    ensures Count(has, [x, y]) == (if has(x) then 1 else 0) + if has(y) then 1 else 0
  {
    assert [y][1..] == [];
    assert Count(has, [y]) == if has(y) then 1 else 0;
    assert [x, y][1..] == [y];
  }

  /** A state of a two-job batch. */
  function Pair(a: Job, b: Job, phase: Phase, clock: real): State {
    State([a, b], BOTH, phase, clock, 0)
  }

  function Pending(t: Target): Job { NewJob(t).(state := UploadPending) }

  function Running(t: Target): Job { Pending(t).(state := Uploading, future := Unfinished) }

  function Done(t: Target): Job { Running(t).(future := Uploaded(true)) }

  function Rebooted(t: Target): Job { Collect(Done(t), 0.0) }

  lemma Extend(n: nat, r: Run, e: Event, s: State) returns (x: Run)
    requires IsRun(n, r) && r.states != [] && Enabled(n, r.Last(), e) && Apply(n, r.Last(), e) == s
    ensures IsRun(n, x) && x.events == r.events + [e] && x.states == r.states + [s] && x.Last() == s
  {
    RunExtends(n, r, e);
    x := r.Then(n, e);
  }

  lemma Start(n: nat)
    ensures IsRun(n, Run([INIT], []))
  {
  }

  /** Both jobs of a fresh batch are ready to be uploaded. */
  lemma BothPending(n: nat, t: Target, u: Target) returns (r: Run)
    ensures IsRun(n, r) && r.states != []
    ensures r.Last() == Pair(Pending(t), Pending(u), Submitting(n), 0.0)
  {
    hide IsRun, Count;
    var a, b := NewJob(t), NewJob(u);
    r := Run([INIT], []);
    Start(n);
    assert NewJobs([t, u]) == [a, b];
    r := Extend(n, r, BatchStarted([t, u]), Pair(a, b, Promoting, 0.0));
    assert [a, b][0 := Pending(t)] == [Pending(t), b];
    r := Extend(n, r, Promoted(0), Pair(Pending(t), b, Promoting, 0.0));
    assert [Pending(t), b][1 := Pending(u)] == [Pending(t), Pending(u)];
    r := Extend(n, r, Promoted(1), Pair(Pending(t), Pending(u), Promoting, 0.0));
    CountPair(IsUnfinished(), Pending(t), Pending(u));
    r := Extend(n, r, SubmitBegun(n), Pair(Pending(t), Pending(u), Submitting(n), 0.0));
  }

  /** One upload runs on the only slot, and the collect pass has looked at it before it finished. */
  lemma OneMissedUpload() returns (r: Run)
    ensures IsRun(1, r) && r.states != []
    ensures r.Last() == Pair(Done(A).(checked := true), Pending(B), Collecting, 0.0)
  {
    hide IsRun, Count;
    r := BothPending(1, A, B);
    var a, b := Running(A), Pending(B);
    assert [Pending(A), b][0 := a] == [a, b];
    r := Extend(1, r, UploadSubmitted(0), Pair(a, b, Submitting(0), 0.0));
    assert Unchecked([a, b]) == [a, b];
    r := Extend(1, r, CollectBegun, Pair(a, b, Collecting, 0.0));
    var a2 := a.(checked := true);
    assert [a, b][0 := a2] == [a2, b];
    r := Extend(1, r, StillUploading(0), Pair(a2, b, Collecting, 0.0));
    var a3 := a2.(future := Uploaded(true));
    assert [a2, b][0 := a3] == [a3, b];
    r := Extend(1, r, UploadFinished(0, Uploaded(true)), Pair(a3, b, Collecting, 0.0));
  }

  /** With one upload slot two jobs can be shown as uploading, so the bound of twice the slots is reached. */
  lemma TwoUploadingOnOneSlot() returns (r: Run)
    ensures IsRun(1, r) && r.states != [] && UploadingCount(r.Last()) == 2
  {
    hide IsRun, Count;
    r := OneMissedUpload();
    var a, b := Done(A).(checked := true), Pending(B);
    r := Extend(1, r, ProbingBegun(0.0), Pair(a, b, Probing(0.0), 0.0));
    r := Extend(1, r, LoopAgain, Pair(a, b, Promoting, 0.0).(rounds := 1));
    CountPair(IsUnfinished(), a, b);
    r := Extend(1, r, SubmitBegun(1), Pair(a, b, Submitting(1), 0.0).(rounds := 1));
    assert [a, b][1 := Running(B)] == [a, Running(B)];
    r := Extend(1, r, UploadSubmitted(1), Pair(a, Running(B), Submitting(0), 0.0).(rounds := 1));
    CountPair(IsUploading(), a, Running(B));
  }

  /** Both uploads run on two slots. */
  lemma BothRunning(t: Target, u: Target) returns (r: Run)
    ensures IsRun(2, r) && r.states != []
    ensures r.Last() == Pair(Running(t), Running(u), Collecting, 0.0)
  {
    hide IsRun, Count;
    r := BothPending(2, t, u);
    assert [Pending(t), Pending(u)][0 := Running(t)] == [Running(t), Pending(u)];
    r := Extend(2, r, UploadSubmitted(0), Pair(Running(t), Pending(u), Submitting(1), 0.0));
    assert [Running(t), Pending(u)][1 := Running(u)] == [Running(t), Running(u)];
    r := Extend(2, r, UploadSubmitted(1), Pair(Running(t), Running(u), Submitting(0), 0.0));
    assert Unchecked([Running(t), Running(u)]) == [Running(t), Running(u)];
    r := Extend(2, r, CollectBegun, Pair(Running(t), Running(u), Collecting, 0.0));
  }

  /** Both uploads have been collected at time zero. */
  lemma BothCollected() returns (r: Run)
    ensures IsRun(2, r) && r.states != []
    ensures r.Last() == Pair(Rebooted(A), Rebooted(B), Collecting, 0.0)
  {
    hide IsRun, Count;
    r := BothRunning(A, B);
    var a, b := Done(A), Done(B);
    assert [Running(A), Running(B)][0 := a] == [a, Running(B)];
    r := Extend(2, r, UploadFinished(0, Uploaded(true)), Pair(a, Running(B), Collecting, 0.0));
    assert [a, Running(B)][1 := b] == [a, b];
    r := Extend(2, r, UploadFinished(1, Uploaded(true)), Pair(a, b, Collecting, 0.0));
    assert [a, b][0 := Rebooted(A)] == [Rebooted(A), b];
    r := Extend(2, r, UploadCollected(0, 0.0), Pair(Rebooted(A), b, Collecting, 0.0));
    assert [Rebooted(A), b][1 := Rebooted(B)] == [Rebooted(A), Rebooted(B)];
    r := Extend(2, r, UploadCollected(1, 0.0), Pair(Rebooted(A), Rebooted(B), Collecting, 0.0));
  }

  /**
   * The bound of 180 seconds holds for the time a pass reads once, not for the moment a probe starts: the
   * probe of an earlier job in the same pass can take the later one past its deadline.
   */
  lemma ProbeCanStartAfterDeadline() returns (r: Run)
    ensures IsRun(2, r) && |r.events| > 0 && |r.states| == |r.events| + 1
    ensures var k := |r.events| - 1;
            ProbedAt(r, k, 1) && |r.states[k].jobs| == 2 && r.events[k].at > r.states[k].jobs[1].deadline
  {
    hide IsRun, Count;
    r := BothCollected();
    var a, b := Rebooted(A), Rebooted(B);
    r := Extend(2, r, ProbingBegun(180.0), Pair(a, b, Probing(180.0), 180.0));
    var a2 := Probe(a, false, 182.0);
    assert [a, b][0 := a2] == [a2, b];
    r := Extend(2, r, Probed(0, false, 180.0, 182.0), Pair(a2, b, Probing(180.0), 182.0));
    var b2 := Probe(b, false, 183.0);
    assert [a2, b][1 := b2] == [a2, b2];
    r := Extend(2, r, Probed(1, false, 182.0, 183.0), Pair(a2, b2, Probing(180.0), 183.0));
    RunShape(2, r);
  }

  // ----- The same target twice ----------------------------------------------------------------------

  function Succeeded(t: Target): Job { Rebooted(t).(state := Success) }

  function Broken(t: Target): Job { Running(t).(future := UploadError, state := Firmware.Failed, checked := true) }

  /** Of two jobs for one target, one has succeeded and the upload of the other has failed. */
  lemma OneOfTwoSucceeded() returns (r: Run)
    ensures IsRun(2, r) && r.states != []
    ensures r.Last() == Pair(Succeeded(A), Broken(A), Promoting, 5.0).(rounds := 1)
  {
    hide IsRun, Count;
    r := OneOfTwoCollected();
    var a, b := Rebooted(A), Broken(A);
    r := Extend(2, r, ProbingBegun(5.0), Pair(a, b, Probing(5.0), 5.0));
    assert [a, b][0 := Succeeded(A)] == [Succeeded(A), b];
    r := Extend(2, r, Probed(0, true, 5.0, 5.0), Pair(Succeeded(A), b, Probing(5.0), 5.0));
    r := Extend(2, r, LoopAgain, Pair(Succeeded(A), b, Promoting, 5.0).(rounds := 1));
  }

  lemma OneOfTwoCollected() returns (r: Run)
    ensures IsRun(2, r) && r.states != []
    ensures r.Last() == Pair(Rebooted(A), Broken(A), Collecting, 0.0)
  {
    hide IsRun, Count;
    r := BothRunning(A, A);
    var a, b := Done(A), Running(A).(future := UploadError);
    assert [Running(A), Running(A)][0 := a] == [a, Running(A)];
    r := Extend(2, r, UploadFinished(0, Uploaded(true)), Pair(a, Running(A), Collecting, 0.0));
    assert [a, Running(A)][1 := b] == [a, b];
    r := Extend(2, r, UploadFinished(1, UploadError), Pair(a, b, Collecting, 0.0));
    assert [a, b][0 := Rebooted(A)] == [Rebooted(A), b];
    r := Extend(2, r, UploadCollected(0, 0.0), Pair(Rebooted(A), b, Collecting, 0.0));
    assert [Rebooted(A), b][1 := Broken(A)] == [Rebooted(A), Broken(A)];
    r := Extend(2, r, UploadFailed(1), Pair(Rebooted(A), Broken(A), Collecting, 0.0));
  }

  const RETRIED := [Batch(0, 2, false), Batch(2, 1, true)]

  /** The two jobs, and the job that retries the second. */
  function Triple(c: Job, phase: Phase): State {
    State([Succeeded(A), Broken(A), c], RETRIED, phase, 5.0, 1)
  }

  lemma PairFailures()
    ensures var s := Pair(Succeeded(A), Broken(A), Promoting, 5.0).(rounds := 1);
            FailedTargets(JobsOf(s, BOTH[0])) == [A] && CanStart(s)
    ensures SuccessTargets(JobsOf(Triple(Pending(A), Submitting(2)), RETRIED[0])) == [A]
  {
    var s := Pair(Succeeded(A), Broken(A), Promoting, 5.0).(rounds := 1);
    var pair := [Succeeded(A), Broken(A)];
    assert JobsOf(s, BOTH[0]) == pair;
    assert JobsOf(Triple(Pending(A), Submitting(2)), RETRIED[0]) == pair;
    assert pair[1..] == [Broken(A)] && [Broken(A)][1..] == [];
    assert FailedTargets([]) == [] && SuccessTargets([]) == [];
    assert FailedTargets([Broken(A)]) == [A] + FailedTargets([]);
    assert SuccessTargets([Broken(A)]) == [] + SuccessTargets([]);
  }

  /** The failed job has been retried, and the retry is ready to be uploaded. */
  lemma RetryBegun() returns (r: Run)
    ensures IsRun(2, r) && r.states != [] && r.Last() == Triple(NewJob(A), Promoting)
  {
    hide IsRun, Count;
    r := OneOfTwoSucceeded();
    PairFailures();
    assert NewJobs([A]) == [NewJob(A)];
    r := Extend(2, r, RetryStarted, Triple(NewJob(A), Promoting));
  }

  lemma RetryPending() returns (r: Run)
    ensures IsRun(2, r) && r.states != [] && r.Last() == Triple(Pending(A), Submitting(2))
  {
    hide IsRun, Count;
    r := RetryBegun();
    var c := NewJob(A);
    assert Triple(c, Promoting).jobs[2 := Pending(A)] == Triple(Pending(A), Promoting).jobs;
    r := Extend(2, r, Promoted(2), Triple(Pending(A), Promoting));
    NoneActive(Triple(Pending(A), Promoting));
    r := Extend(2, r, SubmitBegun(2), Triple(Pending(A), Submitting(2)));
  }

  lemma NoneActive(s: State)
    requires forall i :: 0 <= i < |s.jobs| ==> !s.jobs[i].future.Unfinished?
    ensures Active(s) == 0
  {
    CountNothing(IsUnfinished(), s.jobs);
  }

  /** A target that was asked for twice is uploaded to again after it has succeeded. */
  lemma SameTargetTwiceIsUploadedAgain() returns (r: Run)
    ensures IsRun(2, r) && |r.events| > 0 && |r.states| == |r.events| + 1
    ensures var k := |r.events| - 1;
            var s := r.states[k];
            && r.events[k] == UploadSubmitted(2) && |s.jobs| == 3 && |s.batches| == 2 && Chain(s, 0, 1)
            && FirmwareRetries.Succeeded(s, 0, 1, s.jobs[2].target)
  {
    hide IsRun, Count;
    r := RetryPending();
    var s := r.Last();
    PairFailures();
    assert A in SuccessTargets(JobsOf(s, s.batches[0]));
    assert s.jobs[2 := Running(A)] == Triple(Running(A), Submitting(1)).jobs;
    r := Extend(2, r, UploadSubmitted(2), Triple(Running(A), Submitting(1)));
    RunShape(2, r);
  }
}
