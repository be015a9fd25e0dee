/** Safety of the firmware batch engine over whole runs. */
module FirmwareRuns {
  import opened Counting
  import opened Firmware
  import opened FirmwareLaws

  ghost predicate Inv(n: nat, s: State) {
    JobsOk(s) && SlotsOk(n, s) && BlocksOk(s) && RetriesOk(s)
  }

  /** Every state of every run keeps the invariant. */
  lemma {:induction false} RunInv(n: nat, r: Run, i: nat)
    requires IsRun(n, r) && i < |r.states|
    ensures Inv(n, r.states[i])
  {
    hide JobsOk, SlotsOk, BlocksOk, RetriesOk, Enabled, Apply, Count;
    if i == 0 {
      InitInv(n);
    } else {
      RunInv(n, r, i - 1);
      assert StepAt(n, r, i - 1);
      StepInv(n, r.states[i - 1], r.events[i - 1]);
    }
  }

  lemma InitInv(n: nat)
    ensures Inv(n, INIT)
  {
  }

  lemma StepInv(n: nat, s: State, e: Event)
    requires Inv(n, s) && Enabled(n, s, e)
    ensures Inv(n, Apply(n, s, e))
  {
    hide JobsOk, SlotsOk, BlocksOk, RetriesOk, Enabled, Apply;
    StepKeepsJobs(n, s, e);
    StepKeepsSlots(n, s, e);
    StepKeepsBlocks(n, s, e);
    StepKeepsRetries(n, s, e);
  }

  // ----- Upload slots -------------------------------------------------------------------------------

  /**
   * With `n` slots at most `n` uploads are unfinished and at most `2 * n` jobs are shown as uploading at any
   * moment, and at most `n` from the end of a collect pass until uploads are submitted again.
   */
  lemma UploadSlots(n: nat, r: Run, i: nat)
    requires IsRun(n, r) && i < |r.states|
    ensures Active(r.states[i]) <= n
    ensures UploadingCount(r.states[i]) <= 2 * n
    ensures r.states[i].phase.Probing? || r.states[i].phase.Promoting? ==> UploadingCount(r.states[i]) <= n
  {
    hide JobsOk, BlocksOk, RetriesOk, IsRun;
    RunInv(n, r, i);
  }

  function IsLoopAgain(): Event -> bool { (e: Event) => e.LoopAgain? }

  /** A state tells how often the loop has begun again. */
  lemma {:induction false} RoundsAreCounted(n: nat, r: Run, i: nat)
    requires IsRun(n, r) && i < |r.states|
    ensures r.states[i].rounds == Count(IsLoopAgain(), r.events[..i])
  {
    hide Enabled, Apply, IsLoopAgain, Count;
    if i == 0 {
      CountNothing(IsLoopAgain(), []);
      assert r.events[..0] == [];
    } else {
      RoundsAreCounted(n, r, i - 1);
      assert StepAt(n, r, i - 1);
      StepRounds(n, r.states[i - 1], r.events[i - 1]);
      CountAppend(IsLoopAgain(), r.events[..i - 1], r.events[i - 1]);
      assert r.events[..i] == r.events[..i - 1] + [r.events[i - 1]];
    }
  }

  lemma StepRounds(n: nat, s: State, e: Event)
    requires Enabled(n, s, e)
    ensures Apply(n, s, e).rounds == s.rounds + if IsLoopAgain()(e) then 1 else 0
  {
    hide CanStart, Current, JobsOf, FailedTargets;
  }

  lemma StepClock(n: nat, s: State, e: Event)
    requires Enabled(n, s, e)
    ensures s.clock <= Apply(n, s, e).clock
  {
    hide CanStart, Current, JobsOf, FailedTargets;
  }

  lemma {:induction false} ClockGrows(n: nat, r: Run, i: nat, k: nat)
    requires IsRun(n, r) && i <= k < |r.states|
    ensures r.states[i].clock <= r.states[k].clock
    decreases k
  {
    if i == k {
    } else {
      ClockGrows(n, r, i, k - 1);
      assert StepAt(n, r, k - 1);
      StepClock(n, r.states[k - 1], r.events[k - 1]);
    }
  }

  // ----- Progress -----------------------------------------------------------------------------------

  const MOST_CHANGES := 40

  /** How far a job has come. */
  function Rank(j: Job): nat {
    match j.state
    case Queued => 0
    case UploadPending => 1
    case Uploading => 2
    case Rebooting => 3
    case Reconnecting => 3 + j.attempts
    case Success => MOST_CHANGES
    case Failed => MOST_CHANGES
  }

  predicate SameStage(a: Job, b: Job) {
    a.state == b.state && a.attempts == b.attempts
  }

  /** No step moves a job back, and one that changes its state or attempt number moves it forward. */
  lemma StepAdvances(n: nat, s: State, e: Event, id: JobId)
    requires JobsOk(s) && Enabled(n, s, e) && id < |s.jobs|
    ensures var r := Apply(n, s, e);
            && id < |r.jobs| && Rank(s.jobs[id]) <= Rank(r.jobs[id]) <= MOST_CHANGES
            && (!SameStage(s.jobs[id], r.jobs[id]) ==> Rank(s.jobs[id]) < Rank(r.jobs[id]))
  {
    hide CanStart, InBatch, JobsOf, FailedTargets, Count;
    StepKeepsJobs(n, s, e);
    assert JobOk(s.jobs[id]) && JobOk(Apply(n, s, e).jobs[id]);
  }

  lemma RunAdvances(n: nat, r: Run, i: nat, id: JobId)
    requires IsRun(n, r) && i < |r.events| && id < |r.states[i].jobs|
    ensures id < |r.states[i + 1].jobs|
    ensures Rank(r.states[i].jobs[id]) <= Rank(r.states[i + 1].jobs[id]) <= MOST_CHANGES
    ensures !SameStage(r.states[i].jobs[id], r.states[i + 1].jobs[id]) ==>
              Rank(r.states[i].jobs[id]) < Rank(r.states[i + 1].jobs[id])
  {
    hide JobsOk, SlotsOk, BlocksOk, RetriesOk, Enabled, Apply, Rank;
    RunInv(n, r, i);
    assert StepAt(n, r, i);
    StepAdvances(n, r.states[i], r.events[i], id);
  }

  lemma {:induction false} RankGrows(n: nat, r: Run, i: nat, k: nat, id: JobId)
    requires IsRun(n, r) && i <= k < |r.states| && id < |r.states[i].jobs|
    ensures id < |r.states[k].jobs| && Rank(r.states[i].jobs[id]) <= Rank(r.states[k].jobs[id])
    decreases k
  {
    hide Rank, StepAt;
    if i == k {
    } else {
      RankGrows(n, r, i, k - 1, id);
      RunAdvances(n, r, k - 1, id);
    }
  }

  /** How often the state or the attempt number of job `id` changes in the first `k` steps. */
  ghost function Changes(r: Run, k: nat, id: JobId): nat
    requires k < |r.states|
  {
    if k == 0 then 0
    else Changes(r, k - 1, id)
         + if id < |r.states[k - 1].jobs| && id < |r.states[k].jobs|
              && !SameStage(r.states[k - 1].jobs[id], r.states[k].jobs[id]) then 1 else 0
  }

  /** A job changes at most 40 times, whatever the run. */
  lemma {:induction false} FewChanges(n: nat, r: Run, k: nat, id: JobId)
    requires IsRun(n, r) && k < |r.states|
    ensures Changes(r, k, id) <= if id < |r.states[k].jobs| then Rank(r.states[k].jobs[id]) else 0
    ensures Changes(r, k, id) <= 40
  {
    hide Rank, StepAt, SameStage;
    if k == 0 {
    } else {
      FewChanges(n, r, k - 1, id);
      if id < |r.states[k - 1].jobs| {
        RunAdvances(n, r, k - 1, id);
      }
    }
    RankIsBounded(n, r, k, id);
  }

  lemma RankIsBounded(n: nat, r: Run, k: nat, id: JobId)
    requires IsRun(n, r) && k < |r.states|
    ensures id < |r.states[k].jobs| ==> Rank(r.states[k].jobs[id]) <= MOST_CHANGES
  {
    hide SlotsOk, BlocksOk, RetriesOk, IsRun;
    RunInv(n, r, k);
    assert id < |r.states[k].jobs| ==> JobOk(r.states[k].jobs[id]);
  }

  /** SUCCESS and FAILED are final: the job is in the same state ever after. */
  lemma {:induction false} TerminalForever(n: nat, r: Run, i: nat, k: nat, id: JobId)
    requires IsRun(n, r) && i <= k < |r.states| && id < |r.states[i].jobs| && Terminal(r.states[i].jobs[id])
    ensures id < |r.states[k].jobs| && r.states[k].jobs[id].state == r.states[i].jobs[id].state
    decreases k
  {
    hide JobsOk, SlotsOk, BlocksOk, RetriesOk, Enabled, Apply;
    if i == k {
    } else {
      TerminalForever(n, r, i, k - 1, id);
      RunInv(n, r, k - 1);
      assert StepAt(n, r, k - 1);
      TerminalStays(n, r.states[k - 1], r.events[k - 1], id);
    }
  }

  /** Each job's upload is submitted at most once. */
  lemma SubmittedOnce(n: nat, r: Run, i: nat, k: nat, id: JobId)
    requires IsRun(n, r) && i < |r.events| && k < |r.events|
    requires r.events[i] == UploadSubmitted(id) && r.events[k] == UploadSubmitted(id)
    ensures i == k
  {
    if i < k {
      SubmitLeavesPending(n, r, i, id);
      SubmitLeavesPending(n, r, k, id);
      RankGrows(n, r, i + 1, k, id);
    } else if k < i {
      SubmitLeavesPending(n, r, i, id);
      SubmitLeavesPending(n, r, k, id);
      RankGrows(n, r, k + 1, i, id);
    }
  }

  lemma SubmitLeavesPending(n: nat, r: Run, i: nat, id: JobId)
    requires IsRun(n, r) && i < |r.events| && r.events[i] == UploadSubmitted(id)
    ensures id < |r.states[i].jobs| && Rank(r.states[i].jobs[id]) == 1
    ensures id < |r.states[i + 1].jobs| && Rank(r.states[i + 1].jobs[id]) == 2
  {
    assert StepAt(n, r, i);
  }

  // ----- Reconnecting -------------------------------------------------------------------------------

  /** Step `i` probes job `id`. */
  ghost predicate ProbedAt(r: Run, i: nat, id: JobId)
    requires i < |r.events|
  {
    r.events[i].Probed? && r.events[i].id == id
  }

  /** Step `i` collects the upload of job `id`. */
  ghost predicate CollectedAt(r: Run, i: nat, id: JobId)
    requires i < |r.events|
  {
    r.events[i].UploadCollected? && r.events[i].id == id
  }

  /** Step `i` shows the device of job `id` gone: the upload broke off, or a version read failed. */
  ghost predicate WentDown(r: Run, i: nat, id: JobId)
    requires |r.states| == |r.events| + 1 && i < |r.events|
  {
    || (CollectedAt(r, i, id) && id < |r.states[i].jobs| && r.states[i].jobs[id].future == Uploaded(true))
    || (ProbedAt(r, i, id) && !r.events[i].ok)
  }

  /** Step `i` reads the version of the device of job `id`. */
  ghost predicate CameBack(r: Run, i: nat, id: JobId)
    requires i < |r.events|
  {
    ProbedAt(r, i, id) && r.events[i].ok
  }

  ghost function Probes(r: Run, k: nat, id: JobId): nat
    requires k <= |r.events|
  {
    if k == 0 then 0 else Probes(r, k - 1, id) + if ProbedAt(r, k - 1, id) then 1 else 0
  }

  /** Before its upload is collected, a job (or an id not yet given out) has seen no collection and no probe. */
  ghost predicate Early(s: State, id: JobId) {
    id >= |s.jobs| || Rank(s.jobs[id]) < 3
  }

  ghost predicate CollectedOnceAt(r: Run, i: nat, id: JobId, at: real) {
    exists c: nat :: c < i && c < |r.events| && CollectedAt(r, c, id) && r.events[c].at == at
  }

  ghost predicate HasGoneDown(r: Run, i: nat, id: JobId)
    requires |r.states| == |r.events| + 1
  {
    exists d: nat :: d < i && d < |r.events| && WentDown(r, d, id)
  }

  ghost predicate CameBackAfterDown(r: Run, i: nat, id: JobId)
    requires |r.states| == |r.events| + 1
  {
    exists p: nat :: p < i && p < |r.events| && CameBack(r, p, id) && HasGoneDown(r, p, id)
  }

  /** What job `id` carries of the run up to step `i`. */
  ghost predicate Remembers(r: Run, i: nat, id: JobId)
    requires |r.states| == |r.events| + 1 && i < |r.states|
  {
    && (Early(r.states[i], id) ==> Probes(r, i, id) == 0 && !HasGoneDown(r, i, id))
    && (id < |r.states[i].jobs| ==>
          var j := r.states[i].jobs[id];
          && (Waiting(j) ==>
                && Probes(r, i, id) == j.attempts
                && CollectedOnceAt(r, i, id, j.uploadedAt)
                && (j.disconnect <==> HasGoneDown(r, i, id)))
          && (j.state.Success? ==> CameBackAfterDown(r, i, id)))
  }

  /** A step that neither collects nor probes the job. */
  lemma OtherStep(n: nat, s: State, e: Event, id: JobId)
    requires JobsOk(s) && Enabled(n, s, e)
    requires !(e.UploadCollected? && e.id == id) && !(e.Probed? && e.id == id)
    ensures var r := Apply(n, s, e);
            && (Early(r, id) ==> Early(s, id))
            && (id < |r.jobs| && (Waiting(r.jobs[id]) || r.jobs[id].state.Success?) ==>
                  && id < |s.jobs|
                  && s.jobs[id].state == r.jobs[id].state
                  && s.jobs[id].attempts == r.jobs[id].attempts
                  && s.jobs[id].disconnect == r.jobs[id].disconnect
                  && s.jobs[id].uploadedAt == r.jobs[id].uploadedAt)
  {
    hide CanStart, InBatch, JobsOf, FailedTargets, Count;
    assert id < |s.jobs| ==> JobOk(s.jobs[id]);
  }

  lemma HistoryGrows(r: Run, i: nat, id: JobId, at: real)
    requires |r.states| == |r.events| + 1 && i < |r.events|
    ensures CollectedOnceAt(r, i, id, at) ==> CollectedOnceAt(r, i + 1, id, at)
    ensures HasGoneDown(r, i + 1, id) <==> HasGoneDown(r, i, id) || WentDown(r, i, id)
    ensures CameBackAfterDown(r, i, id) ==> CameBackAfterDown(r, i + 1, id)
  {
    hide WentDown, CameBack, CollectedAt;
  }

  lemma OtherRemembers(n: nat, r: Run, i: nat, id: JobId)
    requires IsRun(n, r) && i < |r.events| && JobsOk(r.states[i]) && Remembers(r, i, id)
    requires !CollectedAt(r, i, id) && !ProbedAt(r, i, id)
    ensures Remembers(r, i + 1, id)
  {
    hide JobsOk, Enabled, Apply, Early, HasGoneDown, CollectedOnceAt, CameBackAfterDown;
    assert StepAt(n, r, i);
    OtherStep(n, r.states[i], r.events[i], id);
    assert !WentDown(r, i, id);
    HistoryGrows(r, i, id, if id < |r.states[i].jobs| then r.states[i].jobs[id].uploadedAt else 0.0);
  }

  lemma CollectRemembers(n: nat, r: Run, i: nat, id: JobId)
    requires IsRun(n, r) && i < |r.events| && JobsOk(r.states[i]) && Remembers(r, i, id)
    requires CollectedAt(r, i, id)
    ensures Remembers(r, i + 1, id)
  {
    hide HasGoneDown, CameBackAfterDown;
    assert StepAt(n, r, i);
    var s := r.states[i];
    assert JobOk(s.jobs[id]);
    assert Early(s, id);
    HistoryGrows(r, i, id, r.events[i].at);
    assert CollectedAt(r, i, id) && r.events[i].at == r.states[i + 1].jobs[id].uploadedAt;
  }

  lemma ProbeRemembers(n: nat, r: Run, i: nat, id: JobId)
    requires IsRun(n, r) && i < |r.events| && JobsOk(r.states[i]) && Remembers(r, i, id)
    requires ProbedAt(r, i, id)
    ensures Remembers(r, i + 1, id)
  {
    hide HasGoneDown, CollectedOnceAt;
    assert StepAt(n, r, i);
    var s := r.states[i];
    assert JobOk(s.jobs[id]);
    HistoryGrows(r, i, id, s.jobs[id].uploadedAt);
    if r.states[i + 1].jobs[id].state.Success? {
      assert CameBack(r, i, id) && HasGoneDown(r, i, id);
    }
  }

  lemma {:induction false} RunRemembers(n: nat, r: Run, i: nat, id: JobId)
    requires IsRun(n, r) && i < |r.states|
    ensures Remembers(r, i, id)
  {
    hide JobsOk, StepAt;
    if i == 0 {
    } else {
      RunRemembers(n, r, i - 1, id);
      RunInv(n, r, i - 1);
      if CollectedAt(r, i - 1, id) {
        CollectRemembers(n, r, i - 1, id);
      } else if ProbedAt(r, i - 1, id) {
        ProbeRemembers(n, r, i - 1, id);
      } else {
        OtherRemembers(n, r, i - 1, id);
      }
    }
  }

  /**
   * SUCCESS means the device went down and came back: the version was read at some step `p`, and before it
   * the upload broke off or a version read failed.
   */
  lemma SuccessWentDownAndCameBack(n: nat, r: Run, i: nat, id: JobId)
    requires IsRun(n, r) && i < |r.states| && id < |r.states[i].jobs| && r.states[i].jobs[id].state.Success?
    ensures exists d: nat, p: nat :: d < p < i && WentDown(r, d, id) && CameBack(r, p, id)
  {
    hide WentDown, CameBack, StepAt;
    RunRemembers(n, r, i, id);
    var p: nat :| p < i && p < |r.events| && CameBack(r, p, id) && HasGoneDown(r, p, id);
    var d: nat :| d < p && d < |r.events| && WentDown(r, d, id);
    assert WentDown(r, d, id) && CameBack(r, p, id);
  }

  /** And exactly then: a version read succeeds the job if and only if the device was seen down before it. */
  lemma VersionReadSucceedsIffDown(n: nat, r: Run, i: nat, id: JobId)
    requires IsRun(n, r) && i < |r.events| && CameBack(r, i, id)
    ensures id < |r.states[i + 1].jobs|
    ensures r.states[i + 1].jobs[id].state.Success? <==> HasGoneDown(r, i, id)
  {
    hide HasGoneDown, CollectedOnceAt, CameBackAfterDown;
    assert StepAt(n, r, i);
    RunRemembers(n, r, i, id);
  }

  /**
   * The reconnect bound, from time alone. The `k`-th probe of a job is decided on at a time at least `5 * k`
   * and at most 180 seconds after its upload was collected, so there are at most 36 probes.
   */
  lemma ReconnectBound(n: nat, r: Run, i: nat, id: JobId)
    requires IsRun(n, r) && i < |r.events| && ProbedAt(r, i, id)
    ensures var k := Probes(r, i, id) + 1;
            && k <= 36
            && r.states[i].phase.Probing?
            && exists up: real :: CollectedOnceAt(r, i, id, up)
                 && up + 5.0 * k as real <= r.states[i].phase.now <= up + 180.0
                 && up + 5.0 * k as real <= r.events[i].at
  {
    hide HasGoneDown, CollectedOnceAt, CameBackAfterDown, Early, SlotsOk, BlocksOk, RetriesOk;
    assert StepAt(n, r, i);
    RunRemembers(n, r, i, id);
    RunInv(n, r, i);
    var s := r.states[i];
    var j := s.jobs[id];
    assert JobOk(j);
    ProbeInTime(j, s.phase.now, r.events[i].ok, r.events[i].after);
    assert CollectedOnceAt(r, i, id, j.uploadedAt);
  }

  /** A job is given up, with its device not back, only more than 180 seconds after its upload was collected. */
  lemma TimedOutIsLate(n: nat, r: Run, i: nat, id: JobId)
    requires IsRun(n, r) && i < |r.events| && r.events[i] == TimedOut(id)
    ensures r.states[i].phase.Probing?
    ensures exists up: real :: CollectedOnceAt(r, i, id, up) && r.states[i].phase.now > up + 180.0
    ensures id < |r.states[i + 1].jobs| && r.states[i + 1].jobs[id].state.Failed?
  {
    hide HasGoneDown, CollectedOnceAt, CameBackAfterDown, Early, SlotsOk, BlocksOk, RetriesOk;
    assert StepAt(n, r, i);
    RunRemembers(n, r, i, id);
    RunInv(n, r, i);
    var j := r.states[i].jobs[id];
    assert JobOk(j);
    assert CollectedOnceAt(r, i, id, j.uploadedAt);
  }

  /** No run probes a job more than 36 times, though no counter is ever compared with 36. */
  lemma {:induction false} FewProbes(n: nat, r: Run, k: nat, id: JobId)
    requires IsRun(n, r) && k <= |r.events|
    ensures Probes(r, k, id) <= 36
  {
    hide ProbedAt, StepAt;
    if k == 0 {
    } else {
      FewProbes(n, r, k - 1, id);
      if ProbedAt(r, k - 1, id) {
        ReconnectBound(n, r, k - 1, id);
      }
    }
  }

  // ----- Probes that start late ---------------------------------------------------------------------

  /** Step `k` is a probe of the reconnect pass under way at step `i`, and it ended after `time`. */
  ghost predicate EndedAfter(r: Run, k: nat, i: nat, time: real)
    requires i <= |r.events|
  {
    && k < i && r.events[k].Probed? && r.events[k].after > time
    && forall j :: k < j < i ==> !r.events[j].ProbingBegun?
  }

  ghost predicate EarlierProbeEndedAfter(r: Run, i: nat, time: real)
    requires i <= |r.events|
  {
    exists k: nat :: EndedAfter(r, k, i, time)
  }

  lemma EndedAfterStep(r: Run, i: nat, time: real)
    requires i < |r.events|
    ensures EarlierProbeEndedAfter(r, i + 1, time) <==>
              !r.events[i].ProbingBegun?
              && (EarlierProbeEndedAfter(r, i, time) || (r.events[i].Probed? && r.events[i].after > time))
  {
    if r.events[i].Probed? && r.events[i].after > time {
      assert EndedAfter(r, i, i + 1, time);
    }
    if !r.events[i].ProbingBegun? && EarlierProbeEndedAfter(r, i, time) {
      var k: nat :| EndedAfter(r, k, i, time);
      assert EndedAfter(r, k, i + 1, time);
    }
    if EarlierProbeEndedAfter(r, i + 1, time) {
      var k: nat :| EndedAfter(r, k, i + 1, time);
      assert k < i ==> EndedAfter(r, k, i, time) && !r.events[i].ProbingBegun?;
    }
  }

  /** In the reconnect pass only a probe moves the clock, and never back. */
  lemma PassStep(n: nat, s: State, e: Event)
    requires JobsOk(s) && Enabled(n, s, e) && Apply(n, s, e).phase.Probing?
    ensures var t := Apply(n, s, e);
            if e.ProbingBegun? then t.clock == t.phase.now
            else s.phase == t.phase && if e.Probed? then t.clock == e.after >= s.clock else t.clock == s.clock
  {
    hide CanStart, InBatch, JobsOf, FailedTargets, Count;
  }

  /** Once the time of the pass is not past `time`, the clock is if and only if a probe of the pass ended past it. */
  lemma {:induction false} PassClock(n: nat, r: Run, i: nat, time: real)
    requires IsRun(n, r) && i < |r.states| && r.states[i].phase.Probing? && r.states[i].phase.now <= time
    ensures r.states[i].clock > time <==> EarlierProbeEndedAfter(r, i, time)
  {
    hide JobsOk, SlotsOk, BlocksOk, RetriesOk, Enabled, Apply, EarlierProbeEndedAfter;
    if i == 0 {
    } else {
      RunInv(n, r, i - 1);
      assert StepAt(n, r, i - 1);
      PassStep(n, r.states[i - 1], r.events[i - 1]);
      EndedAfterStep(r, i - 1, time);
      if !r.events[i - 1].ProbingBegun? {
        PassClock(n, r, i - 1, time);
      }
    }
  }

  /**
   * When a probe starts after its job's deadline. The pass has reached the job too late if and only if an
   * earlier probe of the same pass ended after the deadline; so a probe that begins as soon as it is reached is
   * late exactly then, and one that is reached in time is late only by a pause across the deadline.
   */
  lemma LateProbeIff(n: nat, r: Run, i: nat, id: JobId)
    requires IsRun(n, r) && i < |r.events| && ProbedAt(r, i, id)
    ensures id < |r.states[i].jobs|
    ensures var s, at, deadline := r.states[i], r.events[i].at, r.states[i].jobs[id].deadline;
            && (s.clock > deadline <==> EarlierProbeEndedAfter(r, i, deadline))
            && (at == s.clock ==> (at > deadline <==> EarlierProbeEndedAfter(r, i, deadline)))
            && (at > deadline <==> EarlierProbeEndedAfter(r, i, deadline) || s.clock <= deadline < at)
  {
    hide SlotsOk, BlocksOk, RetriesOk, EarlierProbeEndedAfter;
    assert StepAt(n, r, i);
    RunInv(n, r, i);
    assert JobOk(r.states[i].jobs[id]);
    PassClock(n, r, i, r.states[i].jobs[id].deadline);
  }
}
