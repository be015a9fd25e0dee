/**
 * The line to the camera, and what is said about its log: every request of a connection search goes through a `Wire`
 * (application/services/connect_service.py:165-545).
 */
module ConnectLog {
  import opened Counting
  import opened Tasks
  import opened Text
  import opened ConnectPlan

  /** An error, with what the text and status tests of lines 176-188 and 195-217 make of it. */
  datatype AppError = AppError(kind: string, transportText: bool, defaultStateText: bool)

  /** Where and as whom a request is made. */
  datatype Access = Access(combo: Combo, user: string, password: string)

  datatype Request = Read(access: Access, key: string) | ModPass(access: Access, newPassword: string)

  /** A body, an error the client reports, or any other exception. */
  datatype Reply = Body(text: string) | Error(error: AppError) | Crash

  datatype Exchange = Exchange(request: Request, reply: Reply)

  type Log = seq<Exchange>

  /** The outcome of one combination. */
  datatype AttemptResult =
    | Connected(combo: Combo, flavor: string, version: string, user: string, password: string, recovered: bool)
    | Refused(combo: Combo, flavor: string, user: string, error: AppError)
    | Raised

  datatype Outcome<T> = Done(value: T) | Failed(error: AppError) | Broken

  /**
   * The line to the camera, which may answer a request in any way that depends on all the exchanges before it. `parse`
   * finds a parameter in a body, and `usableKey` tells whether a body holds a public key that encrypts. `tried` and
   * `results` record the combinations attempted and how they went, `ends` how long the log was after each.
   */
  class Wire {
    const parse: (string, string) -> string
    const usableKey: string -> bool
    const camera: (Log, Request) -> Reply
    var log: Log
    ghost var tried: seq<Combo>
    ghost var results: seq<AttemptResult>
    ghost var ends: seq<nat>

    constructor (parse: (string, string) -> string, usableKey: string -> bool, camera: (Log, Request) -> Reply)
      ensures this.parse == parse && this.usableKey == usableKey && this.camera == camera
      ensures log == [] && tried == [] && results == [] && ends == []
    {
      this.parse, this.usableKey, this.camera := parse, usableKey, camera;
      log, tried, results, ends := [], [], [], [];
    }

    method Send(request: Request) returns (reply: Reply)
      modifies `log
      ensures log == old(log) + [Exchange(request, reply)] && reply == camera(old(log), request)
    {
      reply := camera(log, request);
      log := log + [Exchange(request, reply)];
    }

    ghost method Record(combo: Combo, result: AttemptResult)
      modifies `tried, `results, `ends
      ensures tried == old(tried) + [combo] && results == old(results) + [result] && ends == old(ends) + [|log|]
    {
      tried, results, ends := tried + [combo], results + [result], ends + [|log|];
    }
  }

  // ----- What is said about logs --------------------------------------------------------------------

  /** The exchange reads an essential parameter, successfully. */
  ghost predicate ReadsWell(x: Exchange, access: Access, key: string) {
    x.request == Read(access, key) && x.reply.Body?
  }

  /** The three essential parameters are read, successfully, by the exchanges from the `i`-th on. */
  ghost predicate Full(log: Log, i: nat) {
    && i + 2 < |log| && log[i].request.Read?
    && ReadsWell(log[i], log[i].request.access, "SYS_VERSION")
    && ReadsWell(log[i + 1], log[i].request.access, "SYS_MODELNAME")
    && ReadsWell(log[i + 2], log[i].request.access, "SYS_BOARDID")
  }

  /** They are, and the version is not blank. */
  ghost predicate Shows(log: Log, i: nat, parse: (string, string) -> string) {
    Full(log, i) && Strip(parse(log[i].reply.text, "SYS_VERSION")) != ""
  }

  /** The log ends with the three essential parameters read, successfully, and the first one shows the version. */
  ghost predicate EndsInEssentials(log: Log, access: Access, version: string, parse: (string, string) -> string) {
    && |log| >= 3 && Full(log, |log| - 3) && log[|log| - 3].request.access == access
    && version == Strip(parse(log[|log| - 3].reply.text, "SYS_VERSION"))
  }

  /** None of the exchanges from `before` up to `after` begins a full read of the essentials. */
  ghost predicate NoFull(before: nat, after: int, log: Log) {
    forall i: nat :: before <= i < after ==> !Full(log, i)
  }

  /** The first exchange after `n` cannot go on with a read of the essentials begun before it. */
  ghost predicate Begins(log: Log, n: nat) {
    |log| > n && log[n].request.Read? ==> log[n].request.key != "SYS_MODELNAME" && log[n].request.key != "SYS_BOARDID"
  }

  /** Once the essentials are read in full, no password is changed any more. */
  ghost predicate NoChangeAfterFull(before: nat, log: Log) {
    forall i: nat, j: nat :: before <= i && i + 2 < j < |log| && Full(log, i) ==> !log[j].request.ModPass?
  }

  lemma NoFullLonger(before: nat, log0: Log, log: Log, after: int)
    requires before <= |log0| && log0 <= log && Begins(log, |log0|)
    requires NoFull(before, |log0|, log0) && NoFull(|log0|, after, log)
    ensures NoFull(before, after, log)
  {
    forall i: nat | before <= i < after && i < |log0| ensures !Full(log, i) {
      assert !Full(log0, i);
      assert log[i] == log0[i];
      if i + 2 < |log0| {
        assert log[i + 1] == log0[i + 1] && log[i + 2] == log0[i + 2];
      }
    }
  }

  lemma NoFullShorter(before: nat, log: Log)
    requires NoFull(before, |log|, log)
    ensures NoFull(before, |log| - 3, log)
  {
  }

  lemma NothingFull(before: nat, log: Log)
    requires |log| < before + 3
    ensures NoFull(before, |log|, log)
  {
  }

  /** Nothing was changed after a full read in the part before, and in the part after nothing was changed at all. */
  lemma FullThenReads(before: nat, log0: Log, log: Log)
    requires before <= |log0| && log0 <= log && NoChangeAfterFull(before, log0) && NoChange(|log0|, log)
    ensures NoChangeAfterFull(before, log)
  {
    forall i: nat, j: nat | before <= i && i + 2 < j < |log| && Full(log, i) ensures !log[j].request.ModPass? {
      if j < |log0| {
        assert log0[i] == log[i] && log0[i + 1] == log[i + 1] && log0[i + 2] == log[i + 2] && log0[j] == log[j];
        assert Full(log0, i);
      }
    }
  }

  /** Nothing was read in full in the part before, and nothing changed after a full read in the part after. */
  lemma ReadsThenFull(before: nat, log0: Log, log: Log)
    requires before <= |log0| && log0 <= log && Begins(log, |log0|)
    requires NoFull(before, |log0|, log0) && NoChangeAfterFull(|log0|, log)
    ensures NoChangeAfterFull(before, log)
  {
    forall i: nat, j: nat | before <= i && i + 2 < j < |log| && Full(log, i) ensures !log[j].request.ModPass? {
      if i < |log0| {
        assert NoFull(|log0|, |log0|, log);
        NoFullLonger(before, log0, log, |log0|);
      }
    }
  }

  lemma OnlyReads(before: nat, log: Log)
    requires NoChange(before, log)
    ensures NoChangeAfterFull(before, log)
  {
  }

  /** Who may change which password to what. */
  datatype Policy = Policy(user: string, recovery: bool, target: string)

  /** The camera has reported a default password when asked for an essential parameter. */
  ghost predicate ReportsDefault(x: Exchange, access: Access) {
    && x.request.Read? && x.request.access == access
    && x.request.key in ["SYS_VERSION", "SYS_MODELNAME", "SYS_BOARDID"]
    && x.reply.Error? && x.reply.error.defaultStateText
  }

  /**
   * The request changes a factory password to the target, which is allowed, and the camera has reported a default
   * password to the same user, with the same password and combination, in one of the first `n` exchanges.
   */
  ghost predicate Licensed(p: Policy, log: Log, n: nat, request: Request)
    requires request.ModPass?
  {
    && p.recovery && request.access.user == p.user && request.newPassword == p.target
    && (request.access.password == "1234" || request.access.password == "admin")
    && exists k: nat :: k < n && k < |log| && ReportsDefault(log[k], request.access)
  }

  /** Every password change was licensed by the exchanges before it. */
  ghost predicate AllPermitted(p: Policy, log: Log) {
    forall i: nat :: i < |log| && log[i].request.ModPass? ==> Licensed(p, log, i, log[i].request)
  }

  lemma LicensedLonger(p: Policy, log0: Log, log: Log, n: nat, m: nat, request: Request)
    requires request.ModPass? && log0 <= log && n <= m && Licensed(p, log0, n, request)
    ensures Licensed(p, log, m, request)
  {
    var k: nat :| k < n && k < |log0| && ReportsDefault(log0[k], request.access);
    assert log[k] == log0[k];
  }

  lemma PermittedMore(p: Policy, log: Log, x: Exchange)
    requires AllPermitted(p, log) && (x.request.ModPass? ==> Licensed(p, log, |log|, x.request))
    ensures AllPermitted(p, log + [x])
  {
    hide Licensed;
    var more := log + [x];
    forall i: nat | i < |more| && more[i].request.ModPass? ensures Licensed(p, more, i, more[i].request) {
      LicensedLonger(p, log, more, i, i, more[i].request);
    }
  }

  /** No password change after the first `before` exchanges. */
  ghost predicate NoChange(before: nat, log: Log) {
    forall i :: before <= i < |log| ==> !log[i].request.ModPass?
  }

  lemma ChangeMade(before: nat, log: Log)
    requires before < |log| && log[|log| - 1].request.ModPass?
    ensures !NoChange(before, log)
  {
  }

  lemma ChangeStays(before: nat, log0: Log, log: Log)
    requires !NoChange(before, log0) && log0 <= log
    ensures !NoChange(before, log)
  {
  }

  lemma ChangedLater(before: nat, later: nat, log: Log)
    requires before <= later && !NoChange(later, log)
    ensures !NoChange(before, log)
  {
  }

  lemma NothingYet(p: Policy)
    ensures AllPermitted(p, [])
  {
  }

  /** Without recovery nothing is ever changed. */
  lemma NoRecoveryNoChangeEver(p: Policy)
    requires !p.recovery
    ensures forall log, before: nat :: AllPermitted(p, log) ==> NoChange(before, log)
  {
  }

  /** Every exchange after the first `before` was made on the combination, as the user, of `access`. */
  ghost predicate Stays(access: Access, before: nat, log: Log) {
    forall i :: before <= i < |log| ==>
      log[i].request.access.combo == access.combo && log[i].request.access.user == access.user
  }

  /** An error that says the camera was not reached. */
  predicate Misses(e: AppError) {
    e.kind == "ssl" || e.kind == "timeout" || e.kind == "network" || e.transportText
  }

  /** The camera was reached and has refused the request. */
  predicate Refuses(reply: Reply) {
    reply.Error? && !Misses(reply.error)
  }

  ghost predicate AllBodies(before: nat, after: int, log: Log) {
    forall i :: before <= i < after && i < |log| ==> log[i].reply.Body?
  }

  /** Answers after which an attempt goes on: a body, or an error that is not a transport miss. */
  ghost predicate AllGoOn(before: nat, after: int, log: Log) {
    forall i :: before <= i < after && i < |log| ==> log[i].reply.Body? || Refuses(log[i].reply)
  }

  /** The password has been tested in an exchange after the first `before`. */
  ghost predicate Tested(before: nat, log: Log, access: Access) {
    exists i :: before <= i < |log| && log[i].request == Read(access, "ETC_MIN_PASSWORD_LEN")
  }

  /** The last refusal in the exchanges after the first `before`, if there is one. */
  ghost predicate LastRefusal(before: nat, log: Log, best: Option<AppError>) {
    if best.None? then forall i :: before <= i < |log| ==> !Refuses(log[i].reply)
    else exists i :: before <= i < |log| && Refuses(log[i].reply) && log[i].reply == Error(best.value)
                     && forall k :: i < k < |log| ==> !Refuses(log[k].reply)
  }

  /** The error of an attempt that got through its passwords: the last refusal, else what the last exchange met. */
  ghost predicate Chosen(before: nat, log: Log, error: AppError) {
    exists best :: LastRefusal(before, log, best)
      && if best.Some? then error == best.value
         else if |log| <= before then error.kind == "auth"
         else match log[|log| - 1].reply
              case Error(e) => error == e
              case Crash => error.kind == "network"
              case Body(_) => false
  }

  /**
   * How an attempt that changes no password is refused. Either its last exchanges read a blank version, or the
   * essentials were never read in full; then only its last exchange can be a transport miss, and without one every
   * password was tested.
   */
  ghost predicate Thorough(before: nat, log: Log, combo: Combo, user: string, candidates: seq<string>,
                           error: AppError, parse: (string, string) -> string)
  {
    && AllGoOn(before, |log| - 1, log)
    && if |log| >= before + 3 && Full(log, |log| - 3) then
         && error.kind == "parse" && NoFull(before, |log| - 3, log)
         && Strip(parse(log[|log| - 3].reply.text, "SYS_VERSION")) == ""
       else
         && NoFull(before, |log|, log) && Chosen(before, log, error)
         && (AllGoOn(before, |log|, log) ==>
               forall k :: 0 <= k < |candidates| ==> Tested(before, log, Access(combo, user, candidates[k])))
  }

  /** The body accepts a change of password: it is blank or begins with OK. */
  predicate AcceptsChange(text: string) {
    var body := Strip(text);
    body == "" || (|body| >= 2 && body[0] in "oO" && body[1] in "kK")
  }

  /** Why a password change failed: an error, any other exception, or a body that does not accept the change. */
  ghost predicate Denied(log: Log, error: AppError) {
    && log != []
    && var x := log[|log| - 1];
       match x.reply
       case Error(e) => error == e
       case Crash => error.kind == "network"
       case Body(text) => x.request.ModPass? && error.kind == "http" && !AcceptsChange(text)
  }

  lemma LastRefusalNext(before: nat, log0: Log, log: Log, best: Option<AppError>)
    requires before <= |log0| < |log| && log0 <= log && LastRefusal(before, log0, best)
    requires AllBodies(|log0|, |log| - 1, log)
    ensures var x := log[|log| - 1].reply;
            LastRefusal(before, log, if Refuses(x) then Some(x.error) else best)
  {
    hide Misses;
    if !Refuses(log[|log| - 1].reply) && best.Some? {
      var i :| before <= i < |log0| && Refuses(log0[i].reply) && log0[i].reply == Error(best.value)
               && forall k :: i < k < |log0| ==> !Refuses(log0[k].reply);
      assert log[i] == log0[i];
      forall k | i < k < |log| ensures !Refuses(log[k].reply) {
        assert k < |log0| ==> log[k] == log0[k];
      }
    }
  }

  lemma BodiesGoOn(before: nat, after: int, log: Log)
    requires AllBodies(before, after, log)
    ensures AllGoOn(before, after, log)
  {
  }

  lemma GoOnLonger(before: nat, log0: Log, log: Log, after: int)
    requires before <= |log0| && log0 <= log
    requires AllGoOn(before, |log0|, log0) && AllGoOn(|log0|, after, log)
    ensures AllGoOn(before, after, log)
  {
    forall i | before <= i < after && i < |log| ensures log[i].reply.Body? || Refuses(log[i].reply) {
      if i < |log0| {
        assert log[i] == log0[i];
      }
    }
  }

  lemma TestedLonger(before: nat, log0: Log, log: Log, combo: Combo, user: string, candidates: seq<string>, n: nat)
    requires log0 <= log && n <= |candidates|
    requires forall k :: 0 <= k < n ==> Tested(before, log0, Access(combo, user, candidates[k]))
    ensures forall k :: 0 <= k < n ==> Tested(before, log, Access(combo, user, candidates[k]))
  {
    forall k | 0 <= k < n ensures Tested(before, log, Access(combo, user, candidates[k])) {
      var a := Access(combo, user, candidates[k]);
      var i :| before <= i < |log0| && log0[i].request == Read(a, "ETC_MIN_PASSWORD_LEN");
      assert log[i] == log0[i];
    }
  }

  /** The exchanges read the keys in order, as far as they go. */
  ghost predicate ReadsKeys(access: Access, keys: seq<string>, made: Log) {
    |made| <= |keys| && forall i :: 0 <= i < |made| ==> made[i].request == Read(access, keys[i])
  }

  /** The exchange tests a password. */
  function IsTest(): Exchange -> bool {
    (x: Exchange) => x.request.Read? && x.request.key == "ETC_MIN_PASSWORD_LEN"
  }

  /** The exchanges test the password of `access` `tests` times, and only read. */
  ghost predicate Verifies(access: Access, tests: nat, made: Log) {
    Count(IsTest(), made) == tests
    && forall i :: 0 <= i < |made| ==> made[i].request.Read? && made[i].request.access == access
  }

  /**
   * The exchanges after the first `before` test the password of `access` one to eight times and only read; a failure
   * comes after eight tests and is the last error, and any other exception is the last reply.
   */
  ghost predicate Verified(access: Access, before: nat, log: Log, r: Outcome<string>) {
    && before < |log|
    && var tests := Count(IsTest(), log[before..]);
    && 1 <= tests <= 8 && Verifies(access, tests, log[before..])
    && (r.Failed? ==> tests == 8 && log[|log| - 1].reply == Error(r.error))
    && (r.Broken? ==> log[|log| - 1].reply == Crash)
  }

  lemma StaysPut(access: Access, log: Log)
    ensures Stays(access, |log|, log)
  {
  }

  lemma TestOnce(access: Access, tests: nat, made: Log, x: Exchange)
    requires Verifies(access, tests, made) && x.request == Read(access, "ETC_MIN_PASSWORD_LEN")
    ensures Verifies(access, tests + 1, made + [x])
  {
    hide Count;
    CountAppend(IsTest(), made, x);
  }

  lemma EssentialsTestNothing(access: Access, tests: nat, made: Log, more: Log)
    requires Verifies(access, tests, made)
    requires ReadsKeys(access, ["SYS_VERSION", "SYS_MODELNAME", "SYS_BOARDID"], more)
    ensures Verifies(access, tests, made + more)
  {
    hide Count;
    CountConcat(IsTest(), made, more);
    forall i | 0 <= i < |more| ensures !IsTest()(more[i]) {
      var keys := ["SYS_VERSION", "SYS_MODELNAME", "SYS_BOARDID"];
      assert more[i].request.key == keys[i];
      assert keys[i][0] == 'S' && "ETC_MIN_PASSWORD_LEN"[0] == 'E';
    }
    CountNothing(IsTest(), more);
  }
}
