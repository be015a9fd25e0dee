/**
 * One combination: reading the essentials, changing the password, and the passwords in order
 * (application/services/connect_service.py:165-604).
 */
module ConnectAttempt {
  import opened Counting
  import opened Tasks
  import opened Text
  import opened ConnectPlan
  import opened ConnectLog

  const PASSWORD_TEST_KEY := "ETC_MIN_PASSWORD_LEN"
  const ESSENTIAL_KEYS: seq<string> := ["SYS_VERSION", "SYS_MODELNAME", "SYS_BOARDID"]

  predicate IsTransportMiss(e: AppError) {
    e.kind == "ssl" || e.kind == "timeout" || e.kind == "network" || e.transportText
  }

  predicate IsDefaultPasswordState(e: AppError) {
    e.defaultStateText
  }

  /** A read of one parameter. */
  method Ask(wire: Wire, access: Access, key: string, ghost p: Policy) returns (reply: Reply)
    requires AllPermitted(p, wire.log)
    modifies wire`log
    ensures wire.log == old(wire.log) + [Exchange(Read(access, key), reply)] && AllPermitted(p, wire.log)
  {
    hide AllPermitted, Licensed;
    reply := wire.Send(Read(access, key));
    PermittedMore(p, old(wire.log), Exchange(Read(access, key), reply));
  }

  /** A request to change the password. */
  method Change(wire: Wire, access: Access, target: string, ghost p: Policy) returns (reply: Reply)
    requires AllPermitted(p, wire.log) && Licensed(p, wire.log, |wire.log|, ModPass(access, target))
    modifies wire`log
    ensures wire.log == old(wire.log) + [Exchange(ModPass(access, target), reply)] && AllPermitted(p, wire.log)
  {
    hide AllPermitted, Licensed;
    reply := wire.Send(ModPass(access, target));
    PermittedMore(p, old(wire.log), Exchange(ModPass(access, target), reply));
  }

  // ----- Reading and changing -----------------------------------------------------------------------

  /** `_read_essentials`; gives the version, stripped. */
  method ReadEssentials(wire: Wire, access: Access, ghost p: Policy) returns (r: Outcome<string>)
    requires AllPermitted(p, wire.log)
    modifies wire`log
    ensures AllPermitted(p, wire.log) && old(wire.log) <= wire.log
    ensures Stays(access, |old(wire.log)|, wire.log)
    ensures |wire.log| > |old(wire.log)| && AllBodies(|old(wire.log)|, |wire.log| - 1, wire.log)
    ensures match r
            case Failed(e) => wire.log[|wire.log| - 1].reply == Error(e)
            case Broken => wire.log[|wire.log| - 1].reply == Crash
            case Done(_) => wire.log[|wire.log| - 1].reply.Body?
    ensures ReadsKeys(access, ["SYS_VERSION", "SYS_MODELNAME", "SYS_BOARDID"], wire.log[|old(wire.log)|..])
    ensures r.Done? ==> |wire.log| == |old(wire.log)| + 3 && EndsInEssentials(wire.log, access, r.value, wire.parse)
    ensures !r.Done? ==> NoFull(|old(wire.log)|, |wire.log|, wire.log)
  {
    hide AllPermitted;
    var version := Ask(wire, access, ESSENTIAL_KEYS[0], p);
    if !version.Body? {
      return if version.Error? then Failed(version.error) else Broken;
    }
    var model := Ask(wire, access, ESSENTIAL_KEYS[1], p);
    if !model.Body? {
      return if model.Error? then Failed(model.error) else Broken;
    }
    var board := Ask(wire, access, ESSENTIAL_KEYS[2], p);
    if !board.Body? {
      return if board.Error? then Failed(board.error) else Broken;
    }
    r := Done(Strip(wire.parse(version.text, ESSENTIAL_KEYS[0])));
  }

  /**
   * `_verify_after_password_change`: tests the new password up to eight times, and reads the essentials after a test
   * that succeeds. A failure comes after the eighth test and is the last error.
   */
  method VerifyAfterPasswordChange(wire: Wire, access: Access, ghost p: Policy) returns (r: Outcome<string>)
    requires AllPermitted(p, wire.log)
    modifies wire`log
    ensures AllPermitted(p, wire.log) && old(wire.log) <= wire.log
    ensures Stays(access, |old(wire.log)|, wire.log)
    ensures Verified(access, |old(wire.log)|, wire.log, r)
    ensures r.Done? ==> |wire.log| >= |old(wire.log)| + 4 && EndsInEssentials(wire.log, access, r.value, wire.parse)
    ensures Begins(wire.log, |old(wire.log)|) && NoChange(|old(wire.log)|, wire.log)
    ensures !r.Done? ==> NoFull(|old(wire.log)|, |wire.log|, wire.log)
  {
    hide EndsInEssentials, Verifies, Count, IsTest, AllPermitted, Stays, Begins, NoFull, NoChange;
    NothingFull(|wire.log|, wire.log);
    NothingBegun(wire.log);
    StaysPut(access, wire.log);
    r := Failed(AppError("auth", false, false));
    NothingVerified(access);
    ghost var made: Log := [];
    for i := 0 to 8
      invariant AllPermitted(p, wire.log) && wire.log == old(wire.log) + made
      invariant Stays(access, |old(wire.log)|, wire.log)
      invariant Verifies(access, i, made)
      invariant NoFull(|old(wire.log)|, |wire.log|, wire.log) && Begins(wire.log, |old(wire.log)|)
      invariant r.Failed? && (i > 0 ==> made != [] && made[|made| - 1].reply == Error(r.error))
    {
      ghost var before := wire.log;
      r := VerifyOnce(wire, access, p);
      StaysLonger(access, |old(wire.log)|, before, wire.log);
      BegunBefore(before, wire.log, |old(wire.log)|);
      if !r.Done? {
        NoFullLonger(|old(wire.log)|, before, wire.log, |wire.log|);
      }
      VerifiesMore(access, i, 1, made, wire.log[|before|..]);
      made := made + wire.log[|before|..];
      assert wire.log == old(wire.log) + made;
      if !r.Failed? {
        break;
      }
    }
    assert wire.log[|old(wire.log)|..] == made;
    TestsAre(access, made);
    VerifiesReads(access, old(wire.log), wire.log);
  }

  /** One test of the password, and a read of the essentials after a test that succeeds. */
  method VerifyOnce(wire: Wire, access: Access, ghost p: Policy) returns (r: Outcome<string>)
    requires AllPermitted(p, wire.log)
    modifies wire`log
    ensures AllPermitted(p, wire.log) && old(wire.log) <= wire.log && |wire.log| > |old(wire.log)|
    ensures Stays(access, |old(wire.log)|, wire.log)
    ensures Verifies(access, 1, wire.log[|old(wire.log)|..])
    ensures Begins(wire.log, |old(wire.log)|)
    ensures !r.Done? ==> NoFull(|old(wire.log)|, |wire.log|, wire.log)
    ensures r.Done? ==> |wire.log| >= |old(wire.log)| + 4 && EndsInEssentials(wire.log, access, r.value, wire.parse)
    ensures r.Failed? ==> wire.log[|wire.log| - 1].reply == Error(r.error)
    ensures r.Broken? ==> wire.log[|wire.log| - 1].reply == Crash
  {
    hide EndsInEssentials, Verifies, ReadsKeys, Count, IsTest, AllPermitted, NoFull;
    NothingFull(|wire.log|, wire.log);
    var reply := Ask(wire, access, PASSWORD_TEST_KEY, p);
    var test := Exchange(Read(access, PASSWORD_TEST_KEY), reply);
    NothingVerified(access);
    TestOnce(access, 0, [], test);
    assert [] + [test] == [test] && wire.log[|old(wire.log)|..] == [test];
    NothingFull(|old(wire.log)|, wire.log);
    if !reply.Body? {
      return if reply.Error? then Failed(reply.error) else Broken;
    }
    ghost var tested := wire.log;
    r := ReadEssentials(wire, access, p);
    BeginsWithVersion(access, tested, wire.log);
    if !r.Done? {
      NoFullLonger(|old(wire.log)|, tested, wire.log, |wire.log|);
    }
    EssentialsTestNothing(access, 1, [test], wire.log[|tested|..]);
    assert wire.log[|old(wire.log)|..] == [test] + wire.log[|tested|..];
  }

  lemma NothingBegun(log: Log)
    ensures Begins(log, |log|)
  {
  }

  lemma BegunBefore(log0: Log, log: Log, before: nat)
    requires log0 <= log && before <= |log0| && Begins(log0, before) && Begins(log, |log0|)
    ensures Begins(log, before)
  {
  }

  lemma BeginsWithVersion(access: Access, log0: Log, log: Log)
    requires log0 <= log && |log| > |log0|
    requires ReadsKeys(access, ["SYS_VERSION", "SYS_MODELNAME", "SYS_BOARDID"], log[|log0|..])
    ensures Begins(log, |log0|)
  {
    assert log[|log0|] == log[|log0|..][0];
    assert "SYS_VERSION"[4] != "SYS_MODELNAME"[4] && "SYS_VERSION"[4] != "SYS_BOARDID"[4];
  }

  lemma VerifiesReads(access: Access, log0: Log, log: Log)
    requires log0 <= log && exists n :: Verifies(access, n, log[|log0|..])
    ensures NoChange(|log0|, log)
  {
    hide Count;
    assert forall i :: |log0| <= i < |log| ==> log[i] == log[|log0|..][i - |log0|];
  }

  lemma StaysLonger(access: Access, before: nat, log0: Log, log: Log)
    requires before <= |log0| && log0 <= log && Stays(access, before, log0) && Stays(access, |log0|, log)
    ensures Stays(access, before, log)
  {
  }

  lemma TestsAre(access: Access, made: Log)
    ensures forall n :: Verifies(access, n, made) ==> Count(IsTest(), made) == n
  {
  }

  lemma VerifiesMore(access: Access, m: nat, n: nat, made: Log, more: Log)
    requires Verifies(access, m, made) && Verifies(access, n, more)
    ensures Verifies(access, m + n, made + more)
  {
    hide Count;
    CountConcat(IsTest(), made, more);
  }

  lemma NothingVerified(access: Access)
    ensures Verifies(access, 0, [])
  {
  }

  function Lower(c: char): char {
    if 'A' <= c <= 'Z' then (c as int + 32) as char else c
  }

  /** `not body or body.lower().startswith("ok")` */
  predicate Accepted(body: string) {
    body == "" || (|body| >= 2 && Lower(body[0]) == 'o' && Lower(body[1]) == 'k')
  }

  /** The camera says that it offers a public key. */
  ghost predicate OffersKey(x: Exchange) {
    x.reply.Body? && Contains(x.reply.text, "SYS_PUBLIC_KEY_CRYPTO=1")
  }

  /** The exchanges from the `n`-th on ask for the camera's key, and give one that encrypts. */
  ghost predicate GivesKey(log: Log, n: nat, access: Access, usableKey: string -> bool) {
    && |log| >= n + 2 && log[n].request == Read(access, "SYS_PUBLIC_KEY_CRYPTO") && OffersKey(log[n])
    && ReadsWell(log[n + 1], access, "SYS_PUBLIC_KEY") && usableKey(log[n + 1].reply.text)
  }

  lemma KeyStays(log0: Log, log: Log, n: nat, access: Access, usableKey: string -> bool)
    requires log0 <= log && |log0| > n
    ensures |log0| >= n + 2 || !OffersKey(log0[n]) ==>
              GivesKey(log, n, access, usableKey) == GivesKey(log0, n, access, usableKey)
  {
    assert log[n] == log0[n] && (|log0| >= n + 2 ==> log[n + 1] == log0[n + 1]);
  }

  /** The source's test is the one of the log. */
  lemma AcceptedIs(text: string)
    ensures Accepted(Strip(text)) <==> AcceptsChange(text)
  {
    hide Strip;
  }

  /** Whether the camera offers a usable RSA key; it is asked for only where the camera says so. */
  method FindRsaKey(wire: Wire, access: Access, ghost p: Policy) returns (usable: bool)
    requires AllPermitted(p, wire.log)
    modifies wire`log
    ensures AllPermitted(p, wire.log) && old(wire.log) <= wire.log && |wire.log| > |old(wire.log)|
    ensures Stays(access, |old(wire.log)|, wire.log) && NoChange(|old(wire.log)|, wire.log)
    ensures wire.log[|old(wire.log)|].request == Read(access, "SYS_PUBLIC_KEY_CRYPTO")
    ensures |wire.log| == |old(wire.log)| + if OffersKey(wire.log[|old(wire.log)|]) then 2 else 1
    ensures |wire.log| > |old(wire.log)| + 1 ==> wire.log[|wire.log| - 1].request == Read(access, "SYS_PUBLIC_KEY")
    ensures usable <==> GivesKey(wire.log, |old(wire.log)|, access, wire.usableKey)
    ensures Begins(wire.log, |old(wire.log)|) && NoFull(|old(wire.log)|, |wire.log|, wire.log)
  {
    hide AllPermitted, Contains;
    var crypto := Ask(wire, access, "SYS_PUBLIC_KEY_CRYPTO", p);
    assert "SYS_PUBLIC_KEY_CRYPTO"[4] != "SYS_MODELNAME"[4] && "SYS_PUBLIC_KEY_CRYPTO"[4] != "SYS_BOARDID"[4];
    if !crypto.Body? || !Contains(crypto.text, "SYS_PUBLIC_KEY_CRYPTO=1") {
      return false;
    }
    var key := Ask(wire, access, "SYS_PUBLIC_KEY", p);
    usable := key.Body? && wire.usableKey(key.text);
  }

  /** What changing the password to the target leaves behind, on success and on failure. */
  ghost predicate Changes(log0: Log, log: Log, access: Access, target: string, r: Outcome<string>,
                          parse: (string, string) -> string)
  {
    && log0 <= log && |log| > |log0| && Stays(access, |log0|, log)
    && Begins(log, |log0|) && NoChangeAfterFull(|log0|, log)
    && (r.Done? ==> && |log| >= |log0| + 4 && EndsInEssentials(log, access.(password := target), r.value, parse)
                    && ChangeAccepted(|log0|, log, access, target))
    && (!r.Done? ==> NoFull(|log0|, |log|, log))
  }

  /** The camera has accepted the password change to the target, after the first `before` exchanges. */
  ghost predicate ChangeAccepted(before: nat, log: Log, access: Access, target: string) {
    exists j :: before <= j < |log| && log[j].request == ModPass(access, target)
                && log[j].reply.Body? && AcceptsChange(log[j].reply.text)
  }

  /** A password change to the target has been asked for, as `access`, after the first `before` exchanges. */
  ghost predicate AsksChange(before: nat, log: Log, access: Access, target: string) {
    exists j :: before <= j < |log| && log[j].request == ModPass(access, target)
  }

  lemma AsksLonger(before: nat, log0: Log, log: Log, access: Access, target: string)
    requires log0 <= log && AsksChange(before, log0, access, target)
    ensures AsksChange(before, log, access, target)
  {
    var j :| before <= j < |log0| && log0[j].request == ModPass(access, target);
    assert log[j] == log0[j];
  }

  lemma AsksEarlier(before: nat, later: nat, log: Log, access: Access, target: string)
    requires before <= later && AsksChange(later, log, access, target)
    ensures AsksChange(before, log, access, target)
  {
  }

  /** One change request, and what follows it: nothing, or the reads that verify the new password. */
  lemma ChangedThen(log0: Log, mid: Log, log: Log, access: Access, target: string, r: Outcome<string>,
                    parse: (string, string) -> string)
    requires |mid| == |log0| + 1 && mid == log0 + [mid[|log0|]] && mid[|log0|].request == ModPass(access, target)
    requires mid <= log && Stays(access, |mid|, log) && Begins(log, |mid|) && NoChange(|mid|, log)
    requires r.Done? ==> && |log| >= |mid| + 4 && EndsInEssentials(log, access.(password := target), r.value, parse)
                         && mid[|log0|].reply.Body? && AcceptsChange(mid[|log0|].reply.text)
    requires !r.Done? ==> NoFull(|mid|, |log|, log)
    ensures Changes(log0, log, access, target, r, parse) && AsksChange(|log0|, log, access, target)
  {
    hide EndsInEssentials, Full, AcceptsChange;
    assert log[|log0|] == mid[|log0|];
    assert NoChangeAfterFull(|log0|, mid);
    FullThenReads(|log0|, mid, log);
    NothingFull(|log0|, mid);
    if !r.Done? {
      NoFullLonger(|log0|, mid, log, |log|);
    }
  }

  lemma ChangesAfter(log0: Log, mid: Log, log: Log, access: Access, target: string, r: Outcome<string>,
                     parse: (string, string) -> string)
    requires log0 <= mid && Stays(access, |log0|, mid) && Begins(mid, |log0|) && NoFull(|log0|, |mid|, mid)
    requires Changes(mid, log, access, target, r, parse)
    ensures Changes(log0, log, access, target, r, parse)
  {
    hide EndsInEssentials, Full, NoChangeAfterFull, NoFull, Begins, AcceptsChange;
    StaysLonger(access, |log0|, mid, log);
    BegunBefore(mid, log, |log0|);
    ReadsThenFull(|log0|, mid, log);
    if !r.Done? {
      NoFullLonger(|log0|, mid, log, |log|);
    }
  }

  /**
   * `change_password_if_needed`: first by RSA where the camera offers it, then, if that fails in any way, by the
   * TENC encoding. Success means that the new password has been read with.
   */
  method ChangePassword(wire: Wire, access: Access, target: string, ghost p: Policy) returns (r: Outcome<string>)
    requires AllPermitted(p, wire.log) && Licensed(p, wire.log, |wire.log|, ModPass(access, target))
    modifies wire`log
    ensures AllPermitted(p, wire.log) && Changes(old(wire.log), wire.log, access, target, r, wire.parse)
    ensures AsksChange(|old(wire.log)|, wire.log, access, target)
    ensures r.Failed? ==> Denied(wire.log, r.error)
    ensures r.Broken? ==> wire.log[|wire.log| - 1].reply == Crash
    ensures |wire.log| > |old(wire.log)| && wire.log[|old(wire.log)|].request == Read(access, "SYS_PUBLIC_KEY_CRYPTO")
    ensures KeyIsUsed(wire.log, |old(wire.log)|, access, target, wire.usableKey)
  {
    hide EndsInEssentials, AllPermitted, Licensed, NoChangeAfterFull, NoFull, Begins, Stays, AsksChange, Denied;
    hide GivesKey, OffersKey, ChangeAccepted;
    ghost var asked := wire.log;
    r := ChangeByRsa(wire, access, target, p);
    if r.Done? {
      return;
    }
    ghost var tried := wire.log;
    KeyTakesTwo(tried, |asked|, access, wire.usableKey);
    LicensedLonger(p, asked, wire.log, |asked|, |wire.log|, ModPass(access, target));
    r := ChangeByTenc(wire, access, target, p);
    KeyStays(tried, wire.log, |asked|, access, wire.usableKey);
    ChangesAfter(asked, tried, wire.log, access, target, r, wire.parse);
    AsksEarlier(|asked|, |tried|, wire.log, access, target);
  }

  method ChangeByRsa(wire: Wire, access: Access, target: string, ghost p: Policy) returns (r: Outcome<string>)
    requires AllPermitted(p, wire.log) && Licensed(p, wire.log, |wire.log|, ModPass(access, target))
    modifies wire`log
    ensures AllPermitted(p, wire.log) && Changes(old(wire.log), wire.log, access, target, r, wire.parse)
    ensures r.Done? ==> AsksChange(|old(wire.log)|, wire.log, access, target)
    ensures |wire.log| > |old(wire.log)| && wire.log[|old(wire.log)|].request == Read(access, "SYS_PUBLIC_KEY_CRYPTO")
    ensures |wire.log| >= |old(wire.log)| + 2 || !OffersKey(wire.log[|old(wire.log)|])
    ensures KeyIsUsed(wire.log, |old(wire.log)|, access, target, wire.usableKey)
    ensures r.Done? ==> GivesKey(wire.log, |old(wire.log)|, access, wire.usableKey)
  {
    hide EndsInEssentials, Verified, AllPermitted, Licensed, NoChange, Accepted, Strip, NoFull, Begins, Stays;
    hide NoChangeAfterFull, AsksChange, GivesKey, OffersKey, AcceptsChange, ChangeAccepted;
    ghost var asked := wire.log;
    r := Broken;
    var usable := FindRsaKey(wire, access, p);
    ghost var found := wire.log;
    OnlyReads(|asked|, found);
    KeyStays(found, found, |asked|, access, wire.usableKey);
    KeyTakesTwo(found, |asked|, access, wire.usableKey);
    if usable {
      LicensedLonger(p, asked, wire.log, |asked|, |wire.log|, ModPass(access, target));
      var reply := Change(wire, access, target, p);
      ghost var changed := wire.log;
      NothingAfter(access, changed);
      if reply.Body? {
        AcceptedIs(reply.text);
      }
      if reply.Body? && Accepted(Strip(reply.text)) {
        r := VerifyAfterPasswordChange(wire, access.(password := target), p);
        SameStay(access, target, |changed|, wire.log);
      }
      KeyStays(found, wire.log, |asked|, access, wire.usableKey);
      assert wire.log[|found|] == changed[|found|];
      ChangedThen(found, changed, wire.log, access, target, r, wire.parse);
      ChangesAfter(asked, found, wire.log, access, target, r, wire.parse);
      AsksEarlier(|asked|, |found|, wire.log, access, target);
    }
  }

  lemma KeyTakesTwo(log: Log, n: nat, access: Access, usableKey: string -> bool)
    ensures GivesKey(log, n, access, usableKey) ==> |log| >= n + 2 && OffersKey(log[n])
  {
  }

  /** A key that the camera gives is used at once to change the password. */
  ghost predicate KeyIsUsed(log: Log, n: nat, access: Access, target: string, usableKey: string -> bool) {
    GivesKey(log, n, access, usableKey) ==> |log| > n + 2 && log[n + 2].request == ModPass(access, target)
  }

  lemma NothingAfter(access: Access, log: Log)
    ensures Stays(access, |log|, log) && Begins(log, |log|) && NoChange(|log|, log) && NoFull(|log|, |log|, log)
  {
  }

  lemma SameStay(access: Access, target: string, before: nat, log: Log)
    requires Stays(access.(password := target), before, log)
    ensures Stays(access, before, log)
  {
  }

  /** `change_password_if_needed` after RSA; a rejected change carries the body, whose text may look like any error. */
  method ChangeByTenc(wire: Wire, access: Access, target: string, ghost p: Policy) returns (r: Outcome<string>)
    requires AllPermitted(p, wire.log) && Licensed(p, wire.log, |wire.log|, ModPass(access, target))
    modifies wire`log
    ensures AllPermitted(p, wire.log) && Changes(old(wire.log), wire.log, access, target, r, wire.parse)
    ensures AsksChange(|old(wire.log)|, wire.log, access, target)
    ensures r.Failed? ==> Denied(wire.log, r.error)
    ensures r.Broken? ==> wire.log[|wire.log| - 1].reply == Crash
  {
    hide EndsInEssentials, AllPermitted, Licensed, NoChange, Strip, NoFull, Begins, Stays, NoChangeAfterFull, Accepted;
    hide AsksChange, AcceptsChange, ChangeAccepted;
    ghost var asked := wire.log;
    var reply := Change(wire, access, target, p);
    ghost var changed := wire.log;
    NothingAfter(access, changed);
    if reply.Body? {
      AcceptedIs(reply.text);
    }
    if !reply.Body? {
      r := if reply.Error? then Failed(reply.error) else Broken;
    } else if !Accepted(Strip(reply.text)) {
      var looksLost, looksDefault: bool := *, *;
      r := Failed(AppError("http", looksLost, looksDefault));
    } else {
      r := VerifyAfterPasswordChange(wire, access.(password := target), p);
      SameStay(access, target, |changed|, wire.log);
    }
    ChangedThen(asked, changed, wire.log, access, target, r, wire.parse);
  }

  /** `try_recover_password` for one candidate: any other exception becomes a network error. */
  method TryRecover(wire: Wire, access: Access, target: string, ghost p: Policy) returns (r: Outcome<string>)
    requires AllPermitted(p, wire.log) && Licensed(p, wire.log, |wire.log|, ModPass(access, target))
    modifies wire`log
    ensures AllPermitted(p, wire.log) && Changes(old(wire.log), wire.log, access, target, r, wire.parse)
    ensures AsksChange(|old(wire.log)|, wire.log, access, target)
    ensures !r.Broken? && (r.Failed? ==> Denied(wire.log, r.error))
  {
    hide EndsInEssentials, AllPermitted, Licensed, NoChangeAfterFull, NoFull, AsksChange, ChangeAccepted;
    r := ChangePassword(wire, access, target, p);
    if r.Broken? {
      r := Failed(AppError("network", false, false));
    }
  }

  // ----- One combination ----------------------------------------------------------------------------

  /** What an attempt on `combo` may report, given the log it leaves. */
  ghost predicate Truthful(combo: Combo, flavor: string, p: Policy, candidates: seq<string>, before: Log, log: Log,
                           parse: (string, string) -> string, r: AttemptResult) {
    match r
    case Connected(c, f, version, user, password, recovered) =>
      && c == combo && f == flavor && user == p.user && |log| >= |before| + 3
      && EndsInEssentials(log, Access(combo, user, password), version, parse)
      && (if recovered then p.recovery && password == p.target else password in candidates && version != "")
    case Refused(c, f, user, _) => c == combo && f == flavor && user == p.user
    case Raised => |log| > |before| && log[|log| - 1].reply == Crash
  }

  /** The first report of a default password is followed by a request to change it. */
  ghost predicate FirstDefaultIsChanged(p: Policy, before: nat, log: Log) {
    forall i: nat :: before <= i < |log| && ReportsDefault(log[i], log[i].request.access) && NoDefault(before, i, log)
      ==> AsksChange(i, log, log[i].request.access, p.target)
  }

  /**
   * What decides how an attempt ends. Without a change of password, it connects at the first full read of the
   * essentials or is refused thoroughly; with one, it connects or is refused as the change was.
   */
  ghost predicate Decided(p: Policy, before: nat, log: Log, combo: Combo, candidates: seq<string>,
                          parse: (string, string) -> string, r: AttemptResult)
  {
    && NoChangeAfterFull(before, log)
    && (p.recovery ==> FirstDefaultIsChanged(p, before, log))
    && (r.Connected? ==> r.recovered == !NoChange(before, log))
    && (r.Connected? && !r.recovered ==> NoFull(before, |log| - 3, log))
    && (r.Connected? && r.recovered ==>
          exists a: Access :: a.combo == combo && a.user == p.user && ChangedAndRead(before, log, a, p.target))
    && (r.Refused? ==> if NoChange(before, log) then Thorough(before, log, combo, p.user, candidates, r.error, parse)
                       else Denied(log, r.error))
  }

  /** `_attempt_candidate_combo`: the passwords in order, on one combination. */
  method AttemptCandidateCombo(wire: Wire, combo: Combo, flavor: string, candidates: seq<string>, user: string,
                               target: string, recovery: bool) returns (r: AttemptResult)
    requires AllPermitted(Policy(user, recovery, target), wire.log)
    requires recovery ==> forall c :: c in candidates ==> c in FACTORY_PASSWORDS
    modifies wire
    ensures AllPermitted(Policy(user, recovery, target), wire.log) && old(wire.log) <= wire.log
    ensures Stays(Access(combo, user, ""), |old(wire.log)|, wire.log)
    ensures Decided(Policy(user, recovery, target), |old(wire.log)|, wire.log, combo, candidates, wire.parse, r)
    ensures !recovery ==> NoChange(|old(wire.log)|, wire.log)
    ensures Truthful(combo, flavor, Policy(user, recovery, target), candidates, old(wire.log), wire.log, wire.parse, r)
    ensures wire.tried == old(wire.tried) + [combo] && wire.results == old(wire.results) + [r]
    ensures wire.ends == old(wire.ends) + [|wire.log|]
  {
    hide Decided, Truthful;
    r := TryPasswords(wire, combo, flavor, candidates, user, target, recovery);
    wire.Record(combo, r);
  }

  /** What one password comes to: the error of the test read, or the outcome of reading the essentials. */
  datatype TestResult = Untestable(error: AppError) | Readable(essentials: Outcome<string>) | Exploded

  /** The requests for one password: the test read and, if it succeeds, the essentials. */
  method TestPassword(wire: Wire, access: Access, ghost p: Policy) returns (r: TestResult)
    requires AllPermitted(p, wire.log)
    modifies wire`log
    ensures AllPermitted(p, wire.log) && old(wire.log) <= wire.log && |wire.log| > |old(wire.log)|
    ensures Stays(access, |old(wire.log)|, wire.log) && Tested(|old(wire.log)|, wire.log, access)
    ensures AllBodies(|old(wire.log)|, |wire.log| - 1, wire.log)
    ensures NoChange(|old(wire.log)|, wire.log) && Begins(wire.log, |old(wire.log)|)
    ensures match r
            case Exploded => wire.log[|wire.log| - 1].reply == Crash
            case Untestable(e) => wire.log[|wire.log| - 1].reply == Error(e)
            case Readable(Failed(e)) => wire.log[|wire.log| - 1].reply == Error(e)
            case Readable(Broken) => wire.log[|wire.log| - 1].reply == Crash
            case Readable(Done(version)) =>
              && wire.log[|wire.log| - 1].reply.Body? && |wire.log| == |old(wire.log)| + 4
              && EndsInEssentials(wire.log, access, version, wire.parse)
    ensures ReportsDefault(wire.log[|wire.log| - 1], access)
            <==> r.Readable? && r.essentials.Failed? && r.essentials.error.defaultStateText
    ensures wire.log[|wire.log| - 1].request.access == access
    ensures NoFull(|old(wire.log)|, |wire.log| - 3, wire.log)
    ensures !(r.Readable? && r.essentials.Done?) ==> NoFull(|old(wire.log)|, |wire.log|, wire.log)
  {
    hide EndsInEssentials, AllPermitted, ReadsKeys, NoFull;
    ghost var n := |wire.log|;
    var reply := Ask(wire, access, PASSWORD_TEST_KEY, p);
    assert wire.log[n].request == Read(access, "ETC_MIN_PASSWORD_LEN");
    TestIsNoEssential();
    NothingFull(n, wire.log);
    NoFullShorter(n, wire.log);
    if reply.Crash? {
      return Exploded;
    }
    if reply.Error? {
      return Untestable(reply.error);
    }
    ghost var tested := wire.log;
    var essentials := ReadEssentials(wire, access, p);
    EssentialsOnly(access, tested, wire.log);
    assert wire.log[n] == tested[n];
    if essentials.Done? {
      NotFullBefore(n, wire.log);
    } else {
      NoFullLonger(n, tested, wire.log, |wire.log|);
      NoFullShorter(n, wire.log);
    }
    r := Readable(essentials);
  }

  lemma TestIsNoEssential()
    ensures "ETC_MIN_PASSWORD_LEN" !in ["SYS_VERSION", "SYS_MODELNAME", "SYS_BOARDID"]
  {
    assert "ETC_MIN_PASSWORD_LEN"[0] == 'E' && "SYS_VERSION"[0] == 'S' && "SYS_MODELNAME"[0] == 'S'
        && "SYS_BOARDID"[0] == 'S';
  }

  lemma NotFullBefore(n: nat, log: Log)
    requires |log| == n + 4 && log[n].request.Read? && log[n].request.key == "ETC_MIN_PASSWORD_LEN"
    ensures NoFull(n, |log| - 3, log)
  {
    TestIsNoEssential();
  }

  lemma EssentialsOnly(access: Access, log0: Log, log: Log)
    requires log0 <= log && |log| > |log0|
    requires ReadsKeys(access, ["SYS_VERSION", "SYS_MODELNAME", "SYS_BOARDID"], log[|log0|..])
    ensures NoChange(|log0|, log) && Begins(log, |log0|)
    ensures var x := log[|log| - 1];
            && x.request.Read? && x.request.access == access
            && x.request.key in ["SYS_VERSION", "SYS_MODELNAME", "SYS_BOARDID"]
  {
    var made, keys := log[|log0|..], ["SYS_VERSION", "SYS_MODELNAME", "SYS_BOARDID"];
    assert forall i :: |log0| <= i < |log| ==> log[i] == made[i - |log0|];
    assert keys[|made| - 1] in keys;
    BeginsWithVersion(access, log0, log);
  }

  /** What holds between two passwords of an attempt that goes on. */
  ghost predicate GoingOn(p: Policy, before: nat, log: Log, combo: Combo, tested: seq<string>, best: Option<AppError>) {
    && NoChange(before, log) && AllGoOn(before, |log|, log) && NoFull(before, |log|, log)
    && (p.recovery ==> NoDefault(before, |log|, log))
    && LastRefusal(before, log, best) && (tested == [] ==> |log| <= before)
    && (best.None? ==> tested == [])
    && forall k :: 0 <= k < |tested| ==> Tested(before, log, Access(combo, p.user, tested[k]))
  }

  /** None of the exchanges from `before` up to `after` reports a default password. */
  ghost predicate NoDefault(before: nat, after: int, log: Log) {
    forall i :: before <= i < after && i < |log| ==> !ReportsDefault(log[i], log[i].request.access)
  }

  /** After one more password that was tested without a full read. */
  ghost predicate OneMore(p: Policy, before: nat, log: Log, combo: Combo, tested: seq<string>, best: Option<AppError>) {
    && NoChange(before, log) && AllGoOn(before, |log| - 1, log)
    && (p.recovery ==> NoDefault(before, |log| - 1, log))
    && LastRefusal(before, log, best)
    && forall k :: 0 <= k < |tested| ==> Tested(before, log, Access(combo, p.user, tested[k]))
  }

  lemma TestedOneMore(p: Policy, before: nat, log0: Log, log: Log, combo: Combo, tested: seq<string>, password: string,
                      best: Option<AppError>)
    requires before <= |log0| < |log| && log0 <= log && GoingOn(p, before, log0, combo, tested, best)
    requires AllBodies(|log0|, |log| - 1, log) && Tested(|log0|, log, Access(combo, p.user, password))
    requires NoChange(|log0|, log)
    ensures var x := log[|log| - 1].reply;
            OneMore(p, before, log, combo, tested + [password], if Refuses(x) then Some(x.error) else best)
  {
    hide NoFull, LastRefusal, Tested, AllGoOn;
    BodiesGoOn(|log0|, |log| - 1, log);
    GoOnLonger(before, log0, log, |log| - 1);
    LastRefusalNext(before, log0, log, best);
    TestedLonger(before, log0, log, combo, p.user, tested, |tested|);
    TestedEarlier(before, |log0|, log, Access(combo, p.user, password));
  }

  lemma NothingSaid(p: Policy, log: Log, combo: Combo)
    ensures GoingOn(p, |log|, log, combo, [], None)
  {
  }

  lemma NoneToChange(p: Policy, before: nat, log: Log)
    requires NoDefault(before, |log|, log)
    ensures FirstDefaultIsChanged(p, before, log)
  {
  }

  lemma FirstIsChanged(p: Policy, before: nat, log0: Log, log: Log)
    requires before < |log0| && log0 <= log
    requires NoDefault(before, |log0| - 1, log0) && ReportsDefault(log0[|log0| - 1], log0[|log0| - 1].request.access)
    requires AsksChange(|log0|, log, log0[|log0| - 1].request.access, p.target)
    ensures FirstDefaultIsChanged(p, before, log) && !NoChange(before, log)
  {
    hide ReportsDefault;
    var last := |log0| - 1;
    assert log[last] == log0[last];
    forall i: nat
      | before <= i < |log| && ReportsDefault(log[i], log[i].request.access) && NoDefault(before, i, log)
      ensures AsksChange(i, log, log[i].request.access, p.target)
    {
      assert i < |log0| ==> log[i] == log0[i];
      assert i == last;
      AsksEarlier(i, |log0|, log, log[last].request.access, p.target);
    }
  }

  /** The attempt was broken off by a transport miss, with error `e`. */
  ghost predicate BrokenOff(p: Policy, before: nat, log: Log, best: Option<AppError>, e: AppError) {
    && NoChange(before, log) && AllGoOn(before, |log| - 1, log) && NoFull(before, |log|, log)
    && (p.recovery ==> NoDefault(before, |log|, log))
    && LastRefusal(before, log, best) && Misses(e) && before < |log|
    && (log[|log| - 1].reply == Error(e) || (log[|log| - 1].reply == Crash && e.kind == "network"))
  }

  /** The essentials were read in full, with a blank version. */
  lemma BlankIsThorough(p: Policy, before: nat, log: Log, combo: Combo, tested: seq<string>, candidates: seq<string>,
                        best: Option<AppError>, access: Access, e: AppError, parse: (string, string) -> string)
    requires OneMore(p, before, log, combo, tested, best) && NoFull(before, |log| - 3, log) && |log| >= before + 3
    requires EndsInEssentials(log, access, "", parse) && e.kind == "parse"
    ensures Thorough(before, log, combo, p.user, candidates, e, parse)
  {
    hide Full;
  }

  lemma BrokenOffIsThorough(p: Policy, before: nat, log: Log, combo: Combo, candidates: seq<string>,
                            best: Option<AppError>, e: AppError, parse: (string, string) -> string)
    requires BrokenOff(p, before, log, best, e)
    ensures Thorough(before, log, combo, p.user, candidates, if best.Some? then best.value else e, parse)
  {
    hide Full, LastRefusal, Misses;
    assert Chosen(before, log, if best.Some? then best.value else e);
  }

  lemma AllTestedIsThorough(p: Policy, before: nat, log: Log, combo: Combo, candidates: seq<string>,
                            best: Option<AppError>, e: AppError, parse: (string, string) -> string)
    requires GoingOn(p, before, log, combo, candidates, best)
    requires if best.Some? then e == best.value else e.kind == "auth"
    ensures Thorough(before, log, combo, p.user, candidates, e, parse)
  {
    hide Full, LastRefusal, Misses;
    assert Chosen(before, log, e);
  }

  /** An attempt that has changed no password and reported no default one. */
  lemma UnchangedIsDecided(p: Policy, before: nat, log: Log, combo: Combo, candidates: seq<string>,
                           parse: (string, string) -> string, r: AttemptResult)
    requires NoChange(before, log) && (p.recovery ==> NoDefault(before, |log|, log))
    requires r.Connected? ==> !r.recovered && NoFull(before, |log| - 3, log)
    requires r.Refused? ==> Thorough(before, log, combo, p.user, candidates, r.error, parse)
    ensures Decided(p, before, log, combo, candidates, parse, r)
  {
    hide Thorough, NoFull, NoDefault, FirstDefaultIsChanged, NoChangeAfterFull, Denied;
    OnlyReads(before, log);
    if p.recovery {
      NoneToChange(p, before, log);
    }
  }

  /** An attempt that went on, met a default password, and came back from changing it. */
  lemma RecoveredIsDecided(p: Policy, before: nat, log0: Log, log: Log, combo: Combo, candidates: seq<string>,
                           parse: (string, string) -> string, r: AttemptResult)
    requires before < |log0| && log0 <= log && Begins(log, |log0|) && NoChangeAfterFull(|log0|, log)
    requires NoFull(before, |log0|, log0) && NoDefault(before, |log0| - 1, log0)
    requires ReportsDefault(log0[|log0| - 1], log0[|log0| - 1].request.access)
    requires AsksChange(|log0|, log, log0[|log0| - 1].request.access, p.target)
    requires (r.Connected? ==> r.recovered) && (r.Refused? ==> Denied(log, r.error))
    requires var a := log0[|log0| - 1].request.access;
             && a.combo == combo && a.user == p.user && (r.Connected? ==> ChangedAndRead(|log0|, log, a, p.target))
    ensures Decided(p, before, log, combo, candidates, parse, r)
  {
    hide Thorough, NoFull, NoDefault, FirstDefaultIsChanged, NoChangeAfterFull, Denied, NoChange, ReportsDefault;
    hide AsksChange, Begins, AcceptsChange, Full;
    FirstIsChanged(p, before, log0, log);
    if r.Connected? {
      ChangedEarlier(before, |log0|, log, log0[|log0| - 1].request.access, p.target);
    }
    ReadsThenFull(before, log0, log);
  }

  lemma ChangedEarlier(before: nat, later: nat, log: Log, access: Access, target: string)
    requires before <= later && ChangedAndRead(later, log, access, target)
    ensures ChangedAndRead(before, log, access, target)
  {
    hide AcceptsChange, Full;
  }

  lemma GoesOnWith(p: Policy, before: nat, log: Log, combo: Combo, tested: seq<string>, best: Option<AppError>)
    requires OneMore(p, before, log, combo, tested, best) && before < |log| && NoFull(before, |log|, log)
    requires tested != [] && best.Some? && Refuses(log[|log| - 1].reply)
    requires p.recovery ==> NoDefault(before, |log|, log)
    ensures GoingOn(p, before, log, combo, tested, best)
  {
    hide NoFull, LastRefusal, Misses, Tested;
    LastDecides(before, log);
  }

  lemma LastDecides(before: nat, log: Log)
    requires before < |log| && AllGoOn(before, |log| - 1, log)
    ensures AllGoOn(before, |log|, log) <==> log[|log| - 1].reply.Body? || Refuses(log[|log| - 1].reply)
  {
  }

  lemma TestedEarlier(before: nat, from: nat, log: Log, access: Access)
    requires before <= from && Tested(from, log, access)
    ensures Tested(before, log, access)
  {
  }

  lemma LastReports(before: nat, log: Log)
    requires before < |log| && NoDefault(before, |log| - 1, log)
    ensures NoDefault(before, |log|, log) <==> !ReportsDefault(log[|log| - 1], log[|log| - 1].request.access)
  {
  }

  method TryPasswords(wire: Wire, combo: Combo, flavor: string, candidates: seq<string>, user: string,
                      target: string, recovery: bool) returns (r: AttemptResult)
    requires AllPermitted(Policy(user, recovery, target), wire.log)
    requires recovery ==> forall c :: c in candidates ==> c in FACTORY_PASSWORDS
    modifies wire`log
    ensures AllPermitted(Policy(user, recovery, target), wire.log) && old(wire.log) <= wire.log
    ensures Stays(Access(combo, user, ""), |old(wire.log)|, wire.log)
    ensures Decided(Policy(user, recovery, target), |old(wire.log)|, wire.log, combo, candidates, wire.parse, r)
    ensures !recovery ==> NoChange(|old(wire.log)|, wire.log)
    ensures Truthful(combo, flavor, Policy(user, recovery, target), candidates, old(wire.log), wire.log, wire.parse, r)
  {
    hide EndsInEssentials, AllPermitted, AllGoOn, Tested, NoFull, NoDefault, LastRefusal, Decided, Begins, Thorough;
    hide NoChange, NoChangeAfterFull, ReportsDefault, AsksChange, Denied, AllBodies, Stays, OneMore, ChangedAndRead;
    ghost var p := Policy(user, recovery, target);
    ghost var before := |wire.log|;
    var bestNonTransport: Option<AppError> := None;
    var lastTransport: Option<AppError> := None;
    NothingSaid(p, wire.log, combo);
    NothingAfter(Access(combo, user, ""), wire.log);
    if !recovery {
      NoRecoveryNoChangeEver(p);
    }
    for i := 0 to |candidates|
      invariant AllPermitted(p, wire.log) && old(wire.log) <= wire.log
      invariant Stays(Access(combo, user, ""), before, wire.log)
      invariant lastTransport.None? && GoingOn(p, before, wire.log, combo, candidates[..i], bestNonTransport)
    {
      var access := Access(combo, user, candidates[i]);
      ghost var log0 := wire.log;
      assert candidates[..i + 1] == candidates[..i] + [candidates[i]];
      var result := TestPassword(wire, access, p);
      ghost var log1, last := wire.log, wire.log[|wire.log| - 1].reply;
      ghost var best := if Refuses(last) then Some(last.error) else bestNonTransport;
      AfterTest(p, before, log0, log1, combo, candidates[..i], candidates[i], bestNonTransport);
      var error;
      match result {
        case Exploded =>
          r := Raised;
          NotReported(p, before, log1, combo, candidates[..i + 1], best);
          UnchangedIsDecided(p, before, wire.log, combo, candidates, wire.parse, r);
          return;
        case Untestable(e) => error := e;
        case Readable(essentials) =>
          if essentials.Done? {
            NotReported(p, before, log1, combo, candidates[..i + 1], best);
            if essentials.value != "" {
              r := Connected(combo, flavor, essentials.value, user, candidates[i], false);
            } else {
              var looksLost, looksDefault: bool := *, *;
              r := Refused(combo, flavor, user, AppError("parse", looksLost, looksDefault));
              BlankIsThorough(p, before, log1, combo, candidates[..i + 1], candidates, best, access, r.error,
                              wire.parse);
            }
            UnchangedIsDecided(p, before, wire.log, combo, candidates, wire.parse, r);
            return;
          }
          if essentials.Failed? && recovery && IsDefaultPasswordState(essentials.error) {
            LicensedNow(p, log1, access);
            var recovered := Recover(wire, access, target, p);
            SameStay(Access(combo, user, ""), candidates[i], |log1|, wire.log);
            StaysLonger(Access(combo, user, ""), before, log1, wire.log);
            r := match recovered
                 case Done(version) => Connected(combo, flavor, version, user, target, true)
                 case Failed(e) => Refused(combo, flavor, user, e)
                 case Broken => Raised;
            RecoveredIsDecided(p, before, log1, wire.log, combo, candidates, wire.parse, r);
            return;
          }
          error := if essentials.Failed? then essentials.error else AppError("network", false, false);
      }
      NotReported(p, before, log1, combo, candidates[..i + 1], best);
      if IsTransportMiss(error) {
        lastTransport := Some(error);
        break;
      }
      bestNonTransport := Some(error);
      GoesOnWith(p, before, log1, combo, candidates[..i + 1], bestNonTransport);
    }
    var error := if bestNonTransport.Some? then bestNonTransport.value
                 else if lastTransport.Some? then lastTransport.value
                 else AppError("auth", false, false);
    r := Refused(combo, flavor, user, error);
    if lastTransport.Some? {
      BrokenOffIsThorough(p, before, wire.log, combo, candidates, bestNonTransport, lastTransport.value, wire.parse);
    } else {
      assert candidates[..|candidates|] == candidates;
      AllTestedIsThorough(p, before, wire.log, combo, candidates, bestNonTransport, error, wire.parse);
    }
    UnchangedIsDecided(p, before, wire.log, combo, candidates, wire.parse, r);
  }

  /** What testing one more password leaves. */
  lemma AfterTest(p: Policy, before: nat, log0: Log, log: Log, combo: Combo, tested: seq<string>, password: string,
                  best: Option<AppError>)
    requires before <= |log0| < |log| && log0 <= log && GoingOn(p, before, log0, combo, tested, best)
    requires AllBodies(|log0|, |log| - 1, log) && Tested(|log0|, log, Access(combo, p.user, password))
    requires NoChange(|log0|, log) && Begins(log, |log0|) && NoFull(|log0|, |log| - 3, log)
    requires Stays(Access(combo, p.user, ""), before, log0) && Stays(Access(combo, p.user, password), |log0|, log)
    ensures var x := log[|log| - 1].reply;
            OneMore(p, before, log, combo, tested + [password], if Refuses(x) then Some(x.error) else best)
    ensures p.recovery ==> NoDefault(before, |log| - 1, log)
    ensures NoFull(before, |log| - 3, log) && (NoFull(|log0|, |log|, log) ==> NoFull(before, |log|, log))
    ensures Stays(Access(combo, p.user, ""), before, log)
  {
    hide NoFull, LastRefusal, Tested, AllGoOn, AllBodies, Begins, NoChange, Misses, NoDefault;
    TestedOneMore(p, before, log0, log, combo, tested, password, best);
    NoFullLonger(before, log0, log, |log| - 3);
    if NoFull(|log0|, |log|, log) {
      NoFullLonger(before, log0, log, |log|);
    }
  }

  /** The last exchange reports no default password, or recovery is not allowed. */
  lemma NotReported(p: Policy, before: nat, log: Log, combo: Combo, tested: seq<string>, best: Option<AppError>)
    requires OneMore(p, before, log, combo, tested, best) && before < |log|
    requires p.recovery ==> !ReportsDefault(log[|log| - 1], log[|log| - 1].request.access)
    ensures NoChange(before, log) && AllGoOn(before, |log| - 1, log) && LastRefusal(before, log, best)
    ensures p.recovery ==> NoDefault(before, |log|, log)
  {
    hide ReportsDefault, LastRefusal, AllGoOn, NoChange, Tested;
    if p.recovery {
      LastReports(before, log);
    }
  }

  lemma LicensedNow(p: Policy, log: Log, access: Access)
    requires log != [] && ReportsDefault(log[|log| - 1], access)
    requires p.recovery && access.user == p.user && access.password in FACTORY_PASSWORDS
    ensures Licensed(p, log, |log|, ModPass(access, p.target))
  {
    hide ReportsDefault;
  }

  /** The change was accepted, and before the last four exchanges the essentials were read with the new password. */
  ghost predicate ChangedAndRead(before: nat, log: Log, access: Access, target: string) {
    && ChangeAccepted(before, log, access, target)
    && exists i: nat :: before <= i && i + 3 <= |log| - 4 && Full(log, i)
                        && log[i].request.access == access.(password := target)
  }

  lemma ReadOnceMore(before: nat, log0: Log, log: Log, access: Access, target: string, version: string,
                     parse: (string, string) -> string)
    requires log0 <= log && |log| >= |log0| + 4 && |log0| >= before + 3
    requires ChangeAccepted(before, log0, access, target)
    requires EndsInEssentials(log0, access.(password := target), version, parse)
    ensures ChangedAndRead(before, log, access, target)
  {
    hide AcceptsChange;
    var j :| before <= j < |log0| && log0[j].request == ModPass(access, target)
             && log0[j].reply.Body? && AcceptsChange(log0[j].reply.text);
    assert log[j] == log0[j];
    var i := |log0| - 3;
    assert log[i] == log0[i] && log[i + 1] == log0[i + 1] && log[i + 2] == log0[i + 2];
    assert Full(log, i);
  }

  /** The recovery of lines 500-535: change the password, then read the essentials once more. */
  method Recover(wire: Wire, access: Access, target: string, ghost p: Policy) returns (r: Outcome<string>)
    requires AllPermitted(p, wire.log) && Licensed(p, wire.log, |wire.log|, ModPass(access, target))
    modifies wire`log
    ensures AllPermitted(p, wire.log) && old(wire.log) <= wire.log
    ensures Stays(access, |old(wire.log)|, wire.log) && AsksChange(|old(wire.log)|, wire.log, access, target)
    ensures Begins(wire.log, |old(wire.log)|) && NoChangeAfterFull(|old(wire.log)|, wire.log)
    ensures r.Done? ==> |wire.log| >= |old(wire.log)| + 4
                        && EndsInEssentials(wire.log, access.(password := target), r.value, wire.parse)
                        && ChangedAndRead(|old(wire.log)|, wire.log, access, target)
    ensures r.Failed? ==> Denied(wire.log, r.error)
    ensures r.Broken? ==> wire.log[|wire.log| - 1].reply == Crash
  {
    hide EndsInEssentials, AllPermitted, Licensed, AsksChange, Begins, NoChangeAfterFull, NoFull, Stays, NoChange;
    hide ChangeAccepted, ChangedAndRead;
    ghost var asked := wire.log;
    var changed := TryRecover(wire, access, target, p);
    if !changed.Done? {
      return changed;
    }
    ghost var done := wire.log;
    r := VerifyAfterPasswordChange(wire, access.(password := target), p);
    SameStay(access, target, |done|, wire.log);
    StaysLonger(access, |asked|, done, wire.log);
    BegunBefore(done, wire.log, |asked|);
    FullThenReads(|asked|, done, wire.log);
    AsksLonger(|asked|, done, wire.log, access, target);
    if r.Done? {
      ReadOnceMore(|asked|, done, wire.log, access, target, changed.value, wire.parse);
    }
  }
}
