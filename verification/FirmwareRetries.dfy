/** Retrying failed firmware jobs loses no target and never uploads to a succeeded one again. */
module FirmwareRetries {
  import opened Firmware
  import opened FirmwareLaws
  import opened FirmwareRuns

  /** Batch `a` was started afresh or retried; every later one up to `b` retries the one before it. */
  ghost predicate Chain(s: State, a: nat, b: nat) {
    a <= b < |s.batches| && forall i :: a < i <= b ==> s.batches[i].retry
  }

  /** The targets that succeeded in the batches from `a` up to, but not including, `b`. */
  ghost function Successes(s: State, a: nat, b: nat): multiset<Target>
    requires a <= b <= |s.batches|
  {
    if a == b then multiset{}
    else Successes(s, a, b - 1) + multiset(SuccessTargets(JobsOf(s, s.batches[b - 1])))
  }

  ghost function Requested(s: State, b: nat): multiset<Target>
    requires b < |s.batches|
  {
    multiset(TargetsOf(JobsOf(s, s.batches[b])))
  }

  lemma {:induction false} TerminalJobsSplit(js: seq<Job>)
    requires AllTerminal(js)
    ensures multiset(TargetsOf(js)) == multiset(SuccessTargets(js)) + multiset(FailedTargets(js))
  {
    if js == [] {
    } else {
      TerminalJobsSplit(js[1..]);
    }
  }

  /** Along a chain of retries: what was asked for is what succeeded before plus what the last batch tries. */
  lemma {:induction false} ChainConserves(s: State, a: nat, b: nat)
    requires BlocksOk(s) && RetriesOk(s) && Chain(s, a, b)
    ensures Requested(s, a) == Successes(s, a, b) + Requested(s, b)
    decreases b
  {
    hide BlocksOk, JobsOf, TargetsOf, SuccessTargets, FailedTargets;
    if a == b {
    } else {
      ChainConserves(s, a, b - 1);
      EarlierIsTerminal(s, b - 1);
      TerminalJobsSplit(JobsOf(s, s.batches[b - 1]));
      assert s.batches[b].retry;
    }
  }

  /**
   * Retry-chain conservation, in every state of every run: once the last batch of a chain is terminal, the
   * targets first asked for are exactly all successes along the chain and the failures of the last batch.
   */
  lemma RetryConservation(n: nat, r: Run, i: nat, a: nat, b: nat)
    requires IsRun(n, r) && i < |r.states| && Chain(r.states[i], a, b)
    ensures Requested(r.states[i], a) == Successes(r.states[i], a, b) + Requested(r.states[i], b)
    ensures AllTerminal(JobsOf(r.states[i], r.states[i].batches[b])) ==>
              Requested(r.states[i], a)
              == Successes(r.states[i], a, b + 1) + multiset(FailedTargets(JobsOf(r.states[i], r.states[i].batches[b])))
  {
    hide JobsOk, SlotsOk, BlocksOk, RetriesOk, JobsOf, TargetsOf, SuccessTargets, FailedTargets, IsRun;
    var s := r.states[i];
    RunInv(n, r, i);
    ChainConserves(s, a, b);
    if AllTerminal(JobsOf(s, s.batches[b])) {
      TerminalJobsSplit(JobsOf(s, s.batches[b]));
    }
  }

  lemma {:induction false} SuccessesGrow(s: State, a: nat, c: nat, b: nat)
    requires a <= c < b <= |s.batches|
    ensures multiset(SuccessTargets(JobsOf(s, s.batches[c]))) <= Successes(s, a, b)
    decreases b
  {
    hide JobsOf, SuccessTargets;
    if c + 1 == b {
    } else {
      SuccessesGrow(s, a, c, b - 1);
    }
  }

  lemma {:induction false} TargetListed(js: seq<Job>, k: nat)
    requires k < |js|
    ensures js[k].target in TargetsOf(js)
  {
    if k == 0 {
    } else {
      TargetListed(js[1..], k - 1);
    }
  }

  /** Every job outside the batch created last is SUCCESS or FAILED. */
  lemma OldJobsAreTerminal(n: nat, r: Run, i: nat, id: JobId)
    requires IsRun(n, r) && i < |r.states| && id < |r.states[i].jobs| && !Current(r.states[i], id)
    ensures Terminal(r.states[i].jobs[id])
  {
    hide JobsOk, SlotsOk, RetriesOk, IsRun, Current;
    RunInv(n, r, i);
  }

  /** Target `t` has succeeded in one of the batches from `a` up to, but not including, `b`. */
  ghost predicate Succeeded(s: State, a: nat, b: nat, t: Target)
    requires b <= |s.batches|
  {
    exists c :: a <= c < b && t in SuccessTargets(JobsOf(s, s.batches[c]))
  }

  lemma {:induction false} SuccessesAreSucceeded(s: State, a: nat, b: nat, t: Target)
    requires a <= b <= |s.batches|
    ensures t in Successes(s, a, b) <==> Succeeded(s, a, b, t)
    decreases b
  {
    hide JobsOf, SuccessTargets;
    if a == b {
    } else {
      SuccessesAreSucceeded(s, a, b - 1, t);
      var last := SuccessTargets(JobsOf(s, s.batches[b - 1]));
      assert t in multiset(last) <==> t in last;
      assert Succeeded(s, a, b, t) <==> Succeeded(s, a, b - 1, t) || t in last;
    }
  }

  /**
   * An upload goes to a target that has already succeeded in its chain of retries if and only if that target
   * was asked for more often at first than in this batch.
   */
  lemma UploadAfterSuccessIff(n: nat, r: Run, i: nat, id: JobId, a: nat)
    requires IsRun(n, r) && i < |r.events| && r.events[i] == UploadSubmitted(id)
    requires r.states[i].batches != [] && Chain(r.states[i], a, |r.states[i].batches| - 1)
    ensures var s := r.states[i];
            var b := |s.batches| - 1;
            && id < |s.jobs| && s.jobs[id].target in Requested(s, b)
            && (Succeeded(s, a, b, s.jobs[id].target)
                <==> Requested(s, a)[s.jobs[id].target] > Requested(s, b)[s.jobs[id].target])
  {
    hide JobsOk, SlotsOk, BlocksOk, RetriesOk, Requested, Successes, Succeeded, StepAt;
    var s := r.states[i];
    var b := |s.batches| - 1;
    SubmittedIsRequested(n, r, i, id);
    RunInv(n, r, i);
    ChainConserves(s, a, b);
    var t := s.jobs[id].target;
    SuccessesAreSucceeded(s, a, b, t);
    assert Requested(s, a)[t] == Successes(s, a, b)[t] + Requested(s, b)[t];
  }

  /** So when the targets first asked for are distinct, none that has succeeded is ever uploaded to again. */
  lemma NoUploadAfterSuccess(n: nat, r: Run, i: nat, id: JobId, a: nat)
    requires IsRun(n, r) && i < |r.events| && r.events[i] == UploadSubmitted(id)
    requires r.states[i].batches != [] && Chain(r.states[i], a, |r.states[i].batches| - 1)
    requires forall t :: t in Requested(r.states[i], a) ==> Requested(r.states[i], a)[t] <= 1
    ensures var s := r.states[i];
            id < |s.jobs| && !Succeeded(s, a, |s.batches| - 1, s.jobs[id].target)
  {
    hide Requested, Succeeded, StepAt;
    UploadAfterSuccessIff(n, r, i, id, a);
  }

  /** An upload is only ever submitted for a job of the last batch. */
  lemma SubmittedIsRequested(n: nat, r: Run, i: nat, id: JobId)
    requires IsRun(n, r) && i < |r.events| && r.events[i] == UploadSubmitted(id)
    ensures var s := r.states[i];
            id < |s.jobs| && s.batches != [] && s.jobs[id].target in Requested(s, |s.batches| - 1)
  {
    hide JobsOk, SlotsOk, RetriesOk, TargetsOf, Tiled, Settled;
    assert StepAt(n, r, i);
    var s := r.states[i];
    var b := s.batches[|s.batches| - 1];
    RunInv(n, r, i);
    BlocksFit(s, |s.batches| - 1);
    var js := JobsOf(s, b);
    assert js[id - b.first] == s.jobs[id];
    TargetListed(js, id - b.first);
  }
}
