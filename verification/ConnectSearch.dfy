/**
 * The connection search: the combinations in order, and what is reported
 * (application/services/connect_service.py:617-747).
 */
module ConnectSearch {
  import opened Distinct
  import opened Tasks
  import opened Text
  import opened ConnectPlan
  import opened ConnectLog
  import opened ConnectAttempt

  // ----- The whole search ---------------------------------------------------------------------------

  /** `to_phase1_response` of an attempt; the Security 3.0 branch; or nothing was found to try. */
  datatype Response = Attempted(result: AttemptResult) | SecurityThree(ok: bool) | NothingTried

  predicate IsMiss(r: AttemptResult) {
    r.Refused? && Misses(r.error)
  }

  /** The first failure that is not a transport miss. */
  function FirstFailure(results: seq<AttemptResult>): Option<AttemptResult> {
    if results == [] then None
    else if !IsMiss(results[0]) then Some(results[0])
    else FirstFailure(results[1..])
  }

  lemma {:induction false} FirstFailureAppend(results: seq<AttemptResult>, r: AttemptResult)
    ensures FirstFailure(results + [r]) ==
            if FirstFailure(results).Some? then FirstFailure(results) else if IsMiss(r) then None else Some(r)
  {
    if results == [] {
    } else {
      assert (results + [r])[1..] == results[1..] + [r];
      FirstFailureAppend(results[1..], r);
    }
  }

  /** It is what its name says. */
  lemma {:induction false} FirstFailureIsFirst(results: seq<AttemptResult>)
    ensures match FirstFailure(results)
            case None => forall i :: 0 <= i < |results| ==> IsMiss(results[i])
            case Some(r) =>
              exists i :: 0 <= i < |results| && results[i] == r && !IsMiss(r)
                          && forall k :: 0 <= k < i ==> IsMiss(results[k])
  {
    hide IsMiss;
    if results == [] {
    } else {
      FirstFailureIsFirst(results[1..]);
      if IsMiss(results[0]) && FirstFailure(results[1..]).Some? {
        var r := FirstFailure(results[1..]).value;
        var i :| 0 <= i < |results[1..]| && results[1..][i] == r && !IsMiss(r)
                 && forall k :: 0 <= k < i ==> IsMiss(results[1..][k]);
        forall k | 0 <= k < i + 1 ensures IsMiss(results[k]) {
          assert k > 0 ==> results[1..][k - 1] == results[k];
        }
        assert results[i + 1] == r;
      }
    }
  }

  /**
   * What a search that connected nowhere reports of its attempts, the first `direct` of them (one or none) on the
   * probed combination: the first failure of the fallback that is no transport miss; if all are, the failure on the
   * probed combination, or else the last one.
   */
  ghost predicate Reported(results: seq<AttemptResult>, direct: nat, r: AttemptResult) {
    if forall i :: direct <= i < |results| ==> IsMiss(results[i]) then
      results != [] && r == if direct > 0 then results[0] else results[|results| - 1]
    else
      exists i :: direct <= i < |results| && results[i] == r && !IsMiss(r)
                  && forall k :: direct <= k < i ==> IsMiss(results[k])
  }

  /** Every exchange was made as the user, on a combination that was tried. */
  ghost predicate OnTried(wire: Wire, user: string)
    reads wire
  {
    forall i :: 0 <= i < |wire.log| ==>
      wire.log[i].request.access.user == user && wire.log[i].request.access.combo in wire.tried
  }

  function ComboAt(log: Log, i: nat): Combo
    requires i < |log|
  {
    log[i].request.access.combo
  }

  /** Where the exchanges of attempt `a` begin. */
  function StartOf(ends: seq<nat>, a: nat): nat
    requires a <= |ends|
  {
    if a == 0 then 0 else ends[a - 1]
  }

  ghost predicate AllOn(log: Log, from: nat, to: nat, combo: Combo) {
    from <= to <= |log| && forall i: nat :: from <= i < to ==> ComboAt(log, i) == combo
  }

  /** The log falls into one block of exchanges for each combination tried, in the order of trying. */
  ghost predicate InBlocks(tried: seq<Combo>, ends: seq<nat>, log: Log) {
    && |ends| == |tried| && StartOf(ends, |ends|) == |log|
    && forall a: nat :: a < |tried| ==> AllOn(log, StartOf(ends, a), ends[a], tried[a])
  }

  lemma NoBlocks()
    ensures InBlocks([], [], [])
  {
  }

  lemma NextBlock(tried: seq<Combo>, ends: seq<nat>, log0: Log, log: Log, combo: Combo, user: string)
    requires InBlocks(tried, ends, log0) && log0 <= log && Stays(Access(combo, user, ""), |log0|, log)
    ensures InBlocks(tried + [combo], ends + [|log|], log)
  {
    var more, lens := tried + [combo], ends + [|log|];
    forall a: nat | a < |more| ensures AllOn(log, StartOf(lens, a), lens[a], more[a]) {
      if a < |tried| {
        assert AllOn(log0, StartOf(ends, a), ends[a], tried[a]);
        AllOnLonger(log0, log, StartOf(ends, a), ends[a], tried[a]);
      } else {
        assert StartOf(lens, a) == |log0|;
      }
    }
  }

  lemma BlocksEnd(tried: seq<Combo>, ends: seq<nat>, log: Log)
    requires InBlocks(tried, ends, log)
    ensures StartOf(ends, |ends|) == |log|
  {
  }

  lemma MissesAre(r: AttemptResult)
    ensures r.Refused? ==> (IsTransportMiss(r.error) <==> IsMiss(r))
  {
  }

  lemma AllOnLonger(log0: Log, log: Log, from: nat, to: nat, combo: Combo)
    requires AllOn(log0, from, to, combo) && log0 <= log
    ensures AllOn(log, from, to, combo)
  {
    forall i: nat | from <= i < to ensures ComboAt(log, i) == combo {
      assert log[i] == log0[i] && ComboAt(log0, i) == combo;
    }
  }

  /** The attempt that an exchange belongs to. */
  lemma {:induction false} BlockOf(ends: seq<nat>, n: nat, i: nat) returns (a: nat)
    requires n <= |ends| && i < StartOf(ends, n)
    ensures a < n && StartOf(ends, a) <= i < ends[a]
  {
    if i >= StartOf(ends, n - 1) {
      a := n - 1;
    } else {
      a := BlockOf(ends, n - 1, i);
    }
  }

  /** Between two requests on one combination there is none on another. */
  ghost predicate Contiguous(log: Log) {
    forall i: nat, j: nat, k: nat ::
      i <= j <= k < |log| && ComboAt(log, i) == ComboAt(log, k) ==> ComboAt(log, j) == ComboAt(log, i)
  }

  /** So when no combination is tried twice, the camera never sees one again after another. */
  lemma BlocksAreContiguous(tried: seq<Combo>, ends: seq<nat>, log: Log)
    requires InBlocks(tried, ends, log) && NoRepeats(tried)
    ensures Contiguous(log)
  {
    forall i: nat, j: nat, k: nat | i <= j <= k < |log| && ComboAt(log, i) == ComboAt(log, k)
      ensures ComboAt(log, j) == ComboAt(log, i)
    {
      SameBlock(tried, ends, log, i, j, k);
    }
  }

  lemma SameBlock(tried: seq<Combo>, ends: seq<nat>, log: Log, i: nat, j: nat, k: nat)
    requires InBlocks(tried, ends, log) && NoRepeats(tried)
    requires i <= j <= k < |log| && ComboAt(log, i) == ComboAt(log, k)
    ensures ComboAt(log, j) == ComboAt(log, i)
  {
    hide ComboAt;
    var a := BlockOf(ends, |ends|, i);
    var c := BlockOf(ends, |ends|, k);
    assert AllOn(log, StartOf(ends, a), ends[a], tried[a]) && AllOn(log, StartOf(ends, c), ends[c], tried[c]);
    assert tried[a] == tried[c];
    assert a == c;
  }

  /** Every attempt has ended as its own exchanges decide. */
  ghost predicate AllDecided(p: Policy, candidates: seq<string>, tried: seq<Combo>, ends: seq<nat>, log: Log,
                             parse: (string, string) -> string, results: seq<AttemptResult>)
  {
    && |ends| == |results| == |tried|
    && forall a: nat :: a < |ends| ==>
         && StartOf(ends, a) <= ends[a] <= |log|
         && Decided(p, StartOf(ends, a), log[..ends[a]], tried[a], candidates, parse, results[a])
  }

  lemma DecidedUnshown(p: Policy, before: nat, log: Log, combo: Combo, candidates: seq<string>,
                       parse: (string, string) -> string, r: AttemptResult, i: nat)
    requires Decided(p, before, log, combo, candidates, parse, r)
    requires r.Refused? && NoChange(before, log) && i >= before
    ensures !Shows(log, i, parse)
  {
    hide Chosen, AllGoOn, Tested, FirstDefaultIsChanged, NoChangeAfterFull, Denied, NoChange;
  }

  lemma NextDecided(p: Policy, candidates: seq<string>, tried: seq<Combo>, ends: seq<nat>, log0: Log, log: Log,
                    parse: (string, string) -> string, results: seq<AttemptResult>, combo: Combo, r: AttemptResult)
    requires AllDecided(p, candidates, tried, ends, log0, parse, results)
    requires StartOf(ends, |ends|) == |log0| && log0 <= log
    requires Decided(p, |log0|, log, combo, candidates, parse, r)
    ensures AllDecided(p, candidates, tried + [combo], ends + [|log|], log, parse, results + [r])
  {
    hide Decided;
    var lens, all, on := ends + [|log|], results + [r], tried + [combo];
    forall a: nat | a < |lens|
      ensures StartOf(lens, a) <= lens[a] <= |log|
              && Decided(p, StartOf(lens, a), log[..lens[a]], on[a], candidates, parse, all[a])
    {
      assert a < |ends| ==> StartOf(lens, a) == StartOf(ends, a);
      if a < |ends| {
        assert log[..lens[a]] == log0[..ends[a]];
      } else {
        assert log[..|log|] == log;
      }
    }
  }

  /** The exchanges of a refused combination on which no password was changed show no version. */
  ghost predicate RefusedIsUnshown(log: Log, parse: (string, string) -> string, tried: seq<Combo>,
                                   results: seq<AttemptResult>)
  {
    forall i: nat, a: nat ::
      a < |tried| && a < |results| && results[a].Refused? && Shows(log, i, parse) && ComboAt(log, i) == tried[a]
      ==> ChangedOn(log, tried[a])
  }

  ghost predicate ChangedOn(log: Log, combo: Combo) {
    exists j :: 0 <= j < |log| && log[j].request.ModPass? && ComboAt(log, j) == combo
  }

  /** The first report of a default password on a combination is followed by a request to change it there. */
  ghost predicate DefaultIsChanged(p: Policy, log: Log) {
    forall i: nat :: i < |log| && ReportsDefault(log[i], log[i].request.access) && FirstReport(log, i)
      ==> AsksChange(i, log, log[i].request.access, p.target)
  }

  ghost predicate FirstReport(log: Log, i: nat)
    requires i < |log|
  {
    forall k :: 0 <= k < i && ReportsDefault(log[k], log[k].request.access) ==> ComboAt(log, k) != ComboAt(log, i)
  }

  /** Once the essentials were read in full on a combination, no password is changed there any more. */
  ghost predicate FullIsFinal(log: Log) {
    forall i: nat, j: nat :: i + 2 < j < |log| && Full(log, i) && log[j].request.ModPass? ==>
      ComboAt(log, i) != ComboAt(log, j)
  }

  /** Exchanges on the same combination belong to the same attempt. */
  lemma BlockWith(tried: seq<Combo>, ends: seq<nat>, log: Log, i: nat, j: nat) returns (a: nat)
    requires InBlocks(tried, ends, log) && NoRepeats(tried)
    requires i < |log| && j < |log| && ComboAt(log, i) == ComboAt(log, j)
    ensures a < |tried| && StartOf(ends, a) <= i < ends[a] <= |log| && StartOf(ends, a) <= j < ends[a]
    ensures tried[a] == ComboAt(log, i)
  {
    hide ComboAt;
    a := BlockOf(ends, |ends|, i);
    var c := BlockOf(ends, |ends|, j);
    assert AllOn(log, StartOf(ends, a), ends[a], tried[a]) && AllOn(log, StartOf(ends, c), ends[c], tried[c]);
    assert tried[a] == tried[c];
    assert a == c;
  }

  lemma BlocksUnshown(p: Policy, candidates: seq<string>, tried: seq<Combo>, ends: seq<nat>, log: Log,
                       parse: (string, string) -> string, results: seq<AttemptResult>)
    requires InBlocks(tried, ends, log) && NoRepeats(tried)
    requires AllDecided(p, candidates, tried, ends, log, parse, results)
    ensures RefusedIsUnshown(log, parse, tried, results)
  {
    hide InBlocks, NoRepeats, AllDecided, ChangedOn;
    forall i: nat, a: nat
      | a < |tried| && a < |results| && results[a].Refused? && Shows(log, i, parse) && ComboAt(log, i) == tried[a]
      ensures ChangedOn(log, tried[a])
    {
      BlockUnshown(p, candidates, tried, ends, log, parse, results, i, a);
    }
  }

  lemma BlockUnshown(p: Policy, candidates: seq<string>, tried: seq<Combo>, ends: seq<nat>, log: Log,
                     parse: (string, string) -> string, results: seq<AttemptResult>, i: nat, a: nat)
    requires InBlocks(tried, ends, log) && NoRepeats(tried)
    requires AllDecided(p, candidates, tried, ends, log, parse, results)
    requires a < |tried| && results[a].Refused? && Shows(log, i, parse) && ComboAt(log, i) == tried[a]
    ensures ChangedOn(log, tried[a])
  {
    hide InBlocks, NoRepeats, Decided, Shows, ComboAt;
    ShowsOnOne(log, i, parse);
    var c := BlockWith(tried, ends, log, i, i + 2);
    SamePlace(tried, a, c);
    var mine := log[..ends[a]];
    ShowsWithin(log, ends[a], i, parse);
    if NoChange(StartOf(ends, a), mine) {
      DecidedUnshown(p, StartOf(ends, a), mine, tried[a], candidates, parse, results[a], i);
      assert false;
    }
    var j :| StartOf(ends, a) <= j < |mine| && mine[j].request.ModPass?;
    OnCombo(tried, ends, log, a, j);
    assert log[j] == mine[j];
  }

  lemma ShowsOnOne(log: Log, i: nat, parse: (string, string) -> string)
    requires Shows(log, i, parse)
    ensures i + 2 < |log| && ComboAt(log, i) == ComboAt(log, i + 2)
  {
  }

  lemma DecidedKeeps(p: Policy, before: nat, log: Log, combo: Combo, candidates: seq<string>,
                     parse: (string, string) -> string, r: AttemptResult)
    requires Decided(p, before, log, combo, candidates, parse, r)
    ensures NoChangeAfterFull(before, log) && (p.recovery ==> FirstDefaultIsChanged(p, before, log))
  {
    hide Thorough, NoFull, FirstDefaultIsChanged, NoChangeAfterFull, Denied, NoChange;
  }

  lemma SamePlace(tried: seq<Combo>, a: nat, c: nat)
    requires NoRepeats(tried) && a < |tried| && c < |tried| && tried[a] == tried[c]
    ensures a == c
  {
  }

  lemma OnCombo(tried: seq<Combo>, ends: seq<nat>, log: Log, a: nat, j: nat)
    requires InBlocks(tried, ends, log) && a < |tried| && StartOf(ends, a) <= j < ends[a]
    ensures j < |log| && ComboAt(log, j) == tried[a]
  {
    assert AllOn(log, StartOf(ends, a), ends[a], tried[a]);
  }

  lemma ShowsWithin(log: Log, n: nat, i: nat, parse: (string, string) -> string)
    requires n <= |log| && i + 2 < n
    ensures Full(log, i) == Full(log[..n], i) && Shows(log, i, parse) == Shows(log[..n], i, parse)
  {
    assert log[..n][i] == log[i] && log[..n][i + 1] == log[i + 1] && log[..n][i + 2] == log[i + 2];
  }

  lemma BlocksAreChanged(p: Policy, candidates: seq<string>, tried: seq<Combo>, ends: seq<nat>, log: Log,
                          parse: (string, string) -> string, results: seq<AttemptResult>)
    requires InBlocks(tried, ends, log) && NoRepeats(tried) && p.recovery
    requires AllDecided(p, candidates, tried, ends, log, parse, results)
    ensures DefaultIsChanged(p, log)
  {
    hide InBlocks, NoRepeats, NoChangeAfterFull, Decided, ReportsDefault;
    forall i: nat | i < |log| && ReportsDefault(log[i], log[i].request.access) && FirstReport(log, i)
      ensures AsksChange(i, log, log[i].request.access, p.target)
    {
      var a := BlockWith(tried, ends, log, i, i);
      var mine := log[..ends[a]];
      DecidedKeeps(p, StartOf(ends, a), mine, tried[a], candidates, parse, results[a]);
      assert mine[i] == log[i];
      forall k | StartOf(ends, a) <= k < i ensures !ReportsDefault(mine[k], mine[k].request.access) {
        OnCombo(tried, ends, log, a, k);
        assert mine[k] == log[k];
      }
      assert NoDefault(StartOf(ends, a), i, mine);
      AsksLonger(i, mine, log, log[i].request.access, p.target);
    }
  }

  lemma BlocksAreFinal(p: Policy, candidates: seq<string>, tried: seq<Combo>, ends: seq<nat>, log: Log,
                        parse: (string, string) -> string, results: seq<AttemptResult>)
    requires InBlocks(tried, ends, log) && NoRepeats(tried)
    requires AllDecided(p, candidates, tried, ends, log, parse, results)
    ensures FullIsFinal(log)
  {
    hide InBlocks, NoRepeats, FirstDefaultIsChanged, Full, Decided;
    forall i: nat, j: nat | i + 2 < j < |log| && Full(log, i) && log[j].request.ModPass?
      ensures ComboAt(log, i) != ComboAt(log, j)
    {
      if ComboAt(log, i) == ComboAt(log, j) {
        var a := BlockWith(tried, ends, log, i, j);
        assert log[..ends[a]][j] == log[j];
        ShowsWithin(log, ends[a], i, parse);
        DecidedKeeps(p, StartOf(ends, a), log[..ends[a]], tried[a], candidates, parse, results[a]);
        assert false;
      }
    }
  }

  /** What the search keeps as it goes. */
  ghost predicate Kept(wire: Wire, p: Policy, candidates: seq<string>)
    reads wire
  {
    && AllPermitted(p, wire.log) && |wire.tried| == |wire.results|
    && OnTried(wire, p.user) && InBlocks(wire.tried, wire.ends, wire.log)
    && AllDecided(p, candidates, wire.tried, wire.ends, wire.log, wire.parse, wire.results)
    && (p.recovery ==> forall c :: c in candidates ==> c in FACTORY_PASSWORDS)
  }

  /** The flavour reported: the probe's after the direct attempt, else the one of the root. */
  ghost predicate RightFlavor(wire: Wire, probe: Option<Probed>, r: AttemptResult)
    reads wire
  {
    r.Connected? ==>
      if probe.Some? && |wire.tried| == 1 then
        r.flavor == probe.value.flavor || (probe.value.flavor == "" && r.flavor == "legacy")
      else
        r.flavor == if r.combo.root == "/httpapx/" then "tta" else "legacy"
  }

  /**
   * A connection is reported when the wire's log ends with the reads that show it, and an exception is raised when
   * the last request ended in one.
   */
  ghost predicate Shown(wire: Wire, p: Policy, r: AttemptResult)
    reads wire
  {
    && (r.Connected? ==>
          && r.user == p.user
          && EndsInEssentials(wire.log, Access(r.combo, r.user, r.password), r.version, wire.parse)
          && wire.tried != [] && wire.tried[|wire.tried| - 1] == r.combo
          && (if r.recovered then p.recovery && r.password == p.target else r.version != ""))
    && (r.Raised? ==> wire.log != [] && wire.log[|wire.log| - 1].reply == Crash)
  }

  /** An attempt that was not refused is the last one, and a connection was made with one of the passwords. */
  ghost predicate Ends(wire: Wire, candidates: seq<string>, r: AttemptResult)
    reads wire
  {
    !r.Refused? ==>
      && wire.results != [] && wire.results[|wire.results| - 1] == r
      && (r.Connected? && !r.recovered ==> r.password in candidates)
  }

  /** What the loops hold of the attempts since `results0`: the first real failure, and else the last miss. */
  ghost predicate Tallied(wire: Wire, results0: seq<AttemptResult>, best: Option<AttemptResult>,
                          last: Option<AttemptResult>)
    reads wire
  {
    && results0 <= wire.results
    && var ours := wire.results[|results0|..];
       && best == FirstFailure(ours)
       && (forall i :: 0 <= i < |ours| ==> ours[i].Refused?)
       && (best.None? ==> last == if ours == [] then None else Some(ours[|ours| - 1]))
  }

  lemma TalliedNext(results0: seq<AttemptResult>, results: seq<AttemptResult>, r: AttemptResult)
    requires results0 <= results
    ensures results0 <= results + [r]
    ensures (results + [r])[|results0|..] == results[|results0|..] + [r]
    ensures FirstFailure((results + [r])[|results0|..]) ==
            if FirstFailure(results[|results0|..]).Some? then FirstFailure(results[|results0|..])
            else if IsMiss(r) then None else Some(r)
  {
    assert (results + [r])[|results0|..] == results[|results0|..] + [r];
    FirstFailureAppend(results[|results0|..], r);
  }

  /** One attempt of the fallback, and what is held of it. */
  method TryOne(wire: Wire, combo: Combo, flavor: string, candidates: seq<string>, user: string, target: string,
                recovery: bool, best0: Option<AttemptResult>, last0: Option<AttemptResult>,
                ghost results0: seq<AttemptResult>)
    returns (found: Option<AttemptResult>, best: Option<AttemptResult>, last: Option<AttemptResult>)
    requires Kept(wire, Policy(user, recovery, target), candidates) && Tallied(wire, results0, best0, last0)
    modifies wire
    ensures Kept(wire, Policy(user, recovery, target), candidates)
    ensures wire.tried == old(wire.tried) + [combo]
    ensures found.Some? ==> !found.value.Refused? && Shown(wire, Policy(user, recovery, target), found.value)
    ensures found.Some? ==> Ends(wire, candidates, found.value)
    ensures found.Some? && found.value.Connected? ==> found.value.flavor == flavor && found.value.combo == combo
    ensures found.None? ==> Tallied(wire, results0, best, last)
  {
    hide EndsInEssentials, AllPermitted, FirstFailure, InBlocks, AllDecided, Decided, Misses;
    found, best, last := None, best0, last0;
    ghost var before := wire.results;
    var result := AttemptCandidateCombo(wire, combo, flavor, candidates, user, target, recovery);
    NextBlock(old(wire.tried), old(wire.ends), old(wire.log), wire.log, combo, user);
    BlocksEnd(old(wire.tried), old(wire.ends), old(wire.log));
    NextDecided(Policy(user, recovery, target), candidates, old(wire.tried), old(wire.ends), old(wire.log), wire.log,
                wire.parse, before, combo, result);
    MissesAre(result);
    TalliedNext(results0, before, result);
    if !result.Refused? {
      found := Some(result);
      return;
    }
    if !IsTransportMiss(result.error) {
      if best.None? {
        best := Some(result);
      }
    } else {
      last := Some(result);
    }
  }

  /** The innermost of the three loops of lines 691-727: one base and root, every auth scheme. */
  method TryAuths(wire: Wire, base: string, root: string, auths: seq<string>, skip: Option<Combo>,
                  candidates: seq<string>, user: string, target: string, recovery: bool,
                  best0: Option<AttemptResult>, last0: Option<AttemptResult>, ghost results0: seq<AttemptResult>)
    returns (found: Option<AttemptResult>, best: Option<AttemptResult>, last: Option<AttemptResult>)
    requires Kept(wire, Policy(user, recovery, target), candidates) && Tallied(wire, results0, best0, last0)
    modifies wire
    ensures Kept(wire, Policy(user, recovery, target), candidates)
    ensures wire.tried <= old(wire.tried) + AuthRow(base, root, auths, skip)
    ensures found.Some? ==> !found.value.Refused? && Shown(wire, Policy(user, recovery, target), found.value)
    ensures found.Some? ==> Ends(wire, candidates, found.value)
    ensures found.Some? ==> |wire.tried| > |old(wire.tried)|
    ensures found.Some? && found.value.Connected? ==> found.value.flavor == FlavorOf(found.value.combo.root)
    ensures found.None? ==> wire.tried == old(wire.tried) + AuthRow(base, root, auths, skip)
                            && Tallied(wire, results0, best, last)
  {
    hide Kept, Tallied, Shown, Ends;
    ghost var p := Policy(user, recovery, target);
    found, best, last := None, best0, last0;
    var flavor := FlavorOf(root);
    for i := 0 to |auths|
      invariant Kept(wire, p, candidates) && found.None? && Tallied(wire, results0, best, last)
      invariant wire.tried + AuthRow(base, root, auths[i..], skip) == old(wire.tried) + AuthRow(base, root, auths, skip)
      invariant |wire.tried| >= |old(wire.tried)|
    {
      var combo := Combo(base, root, auths[i]);
      ghost var tried, rest := wire.tried, AuthRow(base, root, auths[i + 1..], skip);
      assert auths[i..][1..] == auths[i + 1..];
      if skip != Some(combo) {
        assert AuthRow(base, root, auths[i..], skip) == [combo] + rest;
        assert tried + ([combo] + rest) == (tried + [combo]) + rest;
        found, best, last := TryOne(wire, combo, flavor, candidates, user, target, recovery, best, last, results0);
        if found.Some? {
          return;
        }
      }
    }
  }

  /** The middle loop: one base, every root. */
  method TryRoots(wire: Wire, base: string, roots: seq<string>, auths: seq<string>, skip: Option<Combo>,
                  candidates: seq<string>, user: string, target: string, recovery: bool,
                  best0: Option<AttemptResult>, last0: Option<AttemptResult>, ghost results0: seq<AttemptResult>)
    returns (found: Option<AttemptResult>, best: Option<AttemptResult>, last: Option<AttemptResult>)
    requires Kept(wire, Policy(user, recovery, target), candidates) && Tallied(wire, results0, best0, last0)
    modifies wire
    ensures Kept(wire, Policy(user, recovery, target), candidates)
    ensures wire.tried <= old(wire.tried) + RootRows(base, roots, auths, skip)
    ensures found.Some? ==> !found.value.Refused? && Shown(wire, Policy(user, recovery, target), found.value)
    ensures found.Some? ==> Ends(wire, candidates, found.value)
    ensures found.Some? ==> |wire.tried| > |old(wire.tried)|
    ensures found.Some? && found.value.Connected? ==> found.value.flavor == FlavorOf(found.value.combo.root)
    ensures found.None? ==> wire.tried == old(wire.tried) + RootRows(base, roots, auths, skip)
                            && Tallied(wire, results0, best, last)
  {
    hide Kept, Tallied, Shown, Ends, AuthRow;
    ghost var p := Policy(user, recovery, target);
    found, best, last := None, best0, last0;
    for i := 0 to |roots|
      invariant Kept(wire, p, candidates) && found.None? && Tallied(wire, results0, best, last)
      invariant wire.tried + RootRows(base, roots[i..], auths, skip)
                == old(wire.tried) + RootRows(base, roots, auths, skip)
      invariant |wire.tried| >= |old(wire.tried)|
    {
      assert roots[i..][1..] == roots[i + 1..];
      ghost var tried := wire.tried;
      ghost var row, rest := AuthRow(base, roots[i], auths, skip), RootRows(base, roots[i + 1..], auths, skip);
      assert RootRows(base, roots[i..], auths, skip) == row + rest;
      assert tried + (row + rest) == (tried + row) + rest;
      found, best, last := TryAuths(wire, base, roots[i], auths, skip, candidates, user, target, recovery,
                                    best, last, results0);
      if found.Some? {
        return;
      }
    }
  }

  /** The outer loop: every base. The search stops at the first combination that is not refused. */
  method Fallback(wire: Wire, bases: seq<string>, roots: seq<string>, auths: seq<string>, skip: Option<Combo>,
                  candidates: seq<string>, user: string, target: string, recovery: bool)
    returns (found: Option<AttemptResult>, best: Option<AttemptResult>, last: Option<AttemptResult>)
    requires Kept(wire, Policy(user, recovery, target), candidates)
    modifies wire
    ensures Kept(wire, Policy(user, recovery, target), candidates)
    ensures wire.tried <= old(wire.tried) + BaseRows(bases, roots, auths, skip)
    ensures found.Some? ==> !found.value.Refused? && Shown(wire, Policy(user, recovery, target), found.value)
    ensures found.Some? ==> Ends(wire, candidates, found.value)
    ensures found.Some? ==> |wire.tried| > |old(wire.tried)|
    ensures found.Some? && found.value.Connected? ==> found.value.flavor == FlavorOf(found.value.combo.root)
    ensures found.None? ==> wire.tried == old(wire.tried) + BaseRows(bases, roots, auths, skip)
                            && Tallied(wire, old(wire.results), best, last)
  {
    hide Kept, Shown, Ends, RootRows;
    ghost var p := Policy(user, recovery, target);
    ghost var results0 := wire.results;
    found, best, last := None, None, None;
    for i := 0 to |bases|
      invariant Kept(wire, p, candidates) && found.None? && Tallied(wire, results0, best, last)
      invariant wire.tried + BaseRows(bases[i..], roots, auths, skip)
             == old(wire.tried) + BaseRows(bases, roots, auths, skip)
      invariant |wire.tried| >= |old(wire.tried)|
    {
      assert bases[i..][1..] == bases[i + 1..];
      ghost var tried := wire.tried;
      ghost var rows, rest := RootRows(bases[i], roots, auths, skip), BaseRows(bases[i + 1..], roots, auths, skip);
      assert BaseRows(bases[i..], roots, auths, skip) == rows + rest;
      assert tried + (rows + rest) == (tried + rows) + rest;
      found, best, last := TryRoots(wire, bases[i], roots, auths, skip, candidates, user, target, recovery,
                                    best, last, results0);
      if found.Some? {
        return;
      }
    }
  }

  datatype Phase1Request = Phase1Request(ip: string, port: int, user: string, password: string, target: string)

  /** `_resolve_target_password` */
  function TargetOf(request: Phase1Request, settings: Settings): string {
    if Strip(request.target) != "" then Strip(request.target)
    else if settings.defaultPassword != "" then settings.defaultPassword
    else "123"
  }

  /** How a search ends that connects nowhere: after a real failure on the probed combination, or the whole plan. */
  ghost predicate InVain(wire: Wire, plan: seq<Combo>, probe: Option<Probed>, response: Response)
    reads wire
  {
    && response.Attempted? && wire.results != []
    && (forall a :: 0 <= a < |wire.results| ==> wire.results[a].Refused?)
    && if probe.Some? && !IsMiss(wire.results[0])
       then wire.tried == [probe.value.combo] && response.result == wire.results[0]
       else wire.tried == plan && Reported(wire.results, if probe.Some? then 1 else 0, response.result)
  }

  /** What a search is told by its camera, it acts upon: combination by combination. */
  ghost predicate Conclusive(wire: Wire, p: Policy)
    reads wire
  {
    && RefusedIsUnshown(wire.log, wire.parse, wire.tried, wire.results)
    && (p.recovery ==> DefaultIsChanged(p, wire.log))
    && FullIsFinal(wire.log)
  }

  /**
   * `run_phase1` on a fresh wire. `probe` is what the probe found, if anything; `securityThree` is how the
   * bootstrap of a Security 3.0 camera ends. Every attempt ends as its own exchanges decide; a connection that is
   * reported has been shown by the last exchanges, and one that was shown is reported; no combination is tried twice;
   * a password is only changed when a factory password was entered and the camera has reported a default password; a
   * search in vain has tried its whole plan and reports its first failure that is not a transport miss.
   */
  method RunPhase1(wire: Wire, request: Phase1Request, settings: Settings, probe: Option<Probed>, securityThree: bool)
    returns (response: Response, ghost p: Policy, ghost candidates: seq<string>)
    requires wire.log == [] && wire.tried == [] && wire.results == [] && wire.ends == []
    modifies wire
    ensures response.SecurityThree? <==> probe.Some? && probe.value.flavor == "security3"
    ensures response.SecurityThree? ==> wire.log == [] && response.ok == securityThree
    ensures !response.SecurityThree? ==> response.Attempted?
    ensures p.user == request.user
    ensures p.recovery <==> Strip(request.password) == "1234" || Strip(request.password) == "admin"
    ensures p.target == if Strip(request.target) != "" then Strip(request.target)
                        else if settings.defaultPassword != "" then settings.defaultPassword
                        else "123"
    ensures MayTry(request.password, settings, candidates)
    ensures AllPermitted(p, wire.log) && OnTried(wire, p.user)
    ensures AllDecided(p, candidates, wire.tried, wire.ends, wire.log, wire.parse, wire.results)
    ensures Conclusive(wire, p)
    ensures response.Attempted? ==> Shown(wire, p, response.result) && Ends(wire, candidates, response.result)
    ensures response.Attempted? ==> RightFlavor(wire, probe, response.result)
    ensures wire.tried <= Plan(request.ip, request.port, probe) && NoRepeats(wire.tried)
    ensures InBlocks(wire.tried, wire.ends, wire.log) && Contiguous(wire.log)
    ensures response.Attempted? && response.result.Refused? ==>
              InVain(wire, Plan(request.ip, request.port, probe), probe, response)
  {
    hide EndsInEssentials, FallbackPlan, AllPermitted, FirstFailure, Misses, InBlocks, Conclusive, Decided;
    hide Contiguous, NoRepeats, Strip, MayTry, AllDecided;
    var target := TargetOf(request, settings);
    var passwords, recovery := CandidatePasswords(request.password, settings);
    candidates := passwords;
    p := Policy(request.user, recovery, target);
    NothingYet(p);
    NoBlocks();
    PlanHasNoRepeats(request.ip, request.port, probe);
    NothingDecided(p, candidates, wire.parse);
    var direct: Option<AttemptResult> := None;
    if probe.Some? {
      if probe.value.flavor == "security3" {
        Ordered(wire, p, candidates, Plan(request.ip, request.port, probe));
        response := SecurityThree(securityThree);
        return;
      }
      var result := AttemptCandidateCombo(wire, probe.value.combo, OrElse(probe.value.flavor, "legacy"), passwords,
                                          request.user, target, recovery);
      NextBlock([], [], [], wire.log, probe.value.combo, request.user);
      NextDecided(p, candidates, [], [], [], wire.log, wire.parse, [], probe.value.combo, result);
      assert [] + [probe.value.combo] == [probe.value.combo] && [] + [result] == [result];
      Ordered(wire, p, candidates, Plan(request.ip, request.port, probe));
      MissesAre(result);
      if !result.Refused? || !IsTransportMiss(result.error) {
        response := Attempted(result);
        return;
      }
      direct := Some(result);
    }
    response := SearchOn(wire, request, probe, direct, passwords, target, recovery);
    Ordered(wire, p, candidates, Plan(request.ip, request.port, probe));
  }

  lemma Ordered(wire: Wire, p: Policy, candidates: seq<string>, plan: seq<Combo>)
    requires InBlocks(wire.tried, wire.ends, wire.log) && wire.tried <= plan && NoRepeats(plan)
    requires AllDecided(p, candidates, wire.tried, wire.ends, wire.log, wire.parse, wire.results)
    ensures NoRepeats(wire.tried) && Contiguous(wire.log) && Conclusive(wire, p)
  {
    hide InBlocks, Contiguous, AllDecided, RefusedIsUnshown, DefaultIsChanged, FullIsFinal, NoRepeats;
    NoRepeatsPrefix(wire.tried, plan);
    BlocksAreContiguous(wire.tried, wire.ends, wire.log);
    BlocksUnshown(p, candidates, wire.tried, wire.ends, wire.log, wire.parse, wire.results);
    if p.recovery {
      BlocksAreChanged(p, candidates, wire.tried, wire.ends, wire.log, wire.parse, wire.results);
    }
    BlocksAreFinal(p, candidates, wire.tried, wire.ends, wire.log, wire.parse, wire.results);
  }

  lemma NothingDecided(p: Policy, candidates: seq<string>, parse: (string, string) -> string)
    ensures AllDecided(p, candidates, [], [], [], parse, [])
  {
  }

  /** The second half of `run_phase1`: the fallback, and what is reported after it. */
  method SearchOn(wire: Wire, request: Phase1Request, probe: Option<Probed>, direct: Option<AttemptResult>,
                  candidates: seq<string>, target: string, recovery: bool) returns (response: Response)
    requires Kept(wire, Policy(request.user, recovery, target), candidates)
    requires direct.Some? == probe.Some? && (direct.Some? ==> IsMiss(direct.value))
    requires wire.tried == (if probe.Some? then [probe.value.combo] else [])
    requires wire.results == (if direct.Some? then [direct.value] else [])
    modifies wire
    ensures AllPermitted(Policy(request.user, recovery, target), wire.log) && OnTried(wire, request.user)
    ensures InBlocks(wire.tried, wire.ends, wire.log)
    ensures AllDecided(Policy(request.user, recovery, target), candidates, wire.tried, wire.ends, wire.log, wire.parse,
                       wire.results)
    ensures response.Attempted? && Ends(wire, candidates, response.result)
    ensures Shown(wire, Policy(request.user, recovery, target), response.result)
    ensures RightFlavor(wire, probe, response.result)
    ensures wire.tried <= Plan(request.ip, request.port, probe)
    ensures response.result.Refused? ==> InVain(wire, Plan(request.ip, request.port, probe), probe, response)
  {
    hide AllPermitted, BaseRows, BaseCandidates, RootCandidates, Uniques, Misses, EndsInEssentials, InBlocks;
    hide AllDecided;
    ghost var results0 := wire.results;
    if probe.None? {
      PlanIsNotEmpty(request.ip, request.port);
    }
    var bases := BaseCandidates(request.ip, request.port);
    var roots := RootCandidates(if probe.Some? then probe.value.combo.root else "");
    var auths := UniqueKeepOrder([if probe.Some? then probe.value.combo.auth else "", "digest", "basic", "none"]);
    var found, best, last := Fallback(wire, bases, roots, auths, Skip(probe), candidates, request.user, target,
                                      recovery);
    if found.Some? {
      return Attempted(found.value);
    }
    FirstFailureIsFirst(wire.results[|results0|..]);
    assert results0 == [] ==> wire.results[|results0|..] == wire.results;
    if best.Some? {
      return Attempted(best.value);
    }
    if direct.Some? {
      return Attempted(direct.value);
    }
    response := Attempted(last.value);
  }
}
