/**
 * The state of one device as several threads write it (application/core/device_actor.py:71-105, 129-158,
 * 192-238, 271-303, 315-361; application/core/device_registry.py:58-103). Every writer reads the stored snapshot,
 * changes its copy, and stores the copy; these steps of different threads may interleave.
 */
module DeviceState {
  import opened Tasks

  datatype Status = Discovered | Connecting | Ready | Backoff | AuthFailed | Disconnected | FwLocked | Removed

  /** The two fields of a stored snapshot that must agree. */
  datatype Snapshot = Snapshot(state: Status, connected: bool)

  /** What a writer does to its copy. */
  datatype Change =
    | Keep                    // task bookkeeping, selection, focus, probe data
    | Connect                 // a successful connect, which has just lifted the disconnect hold
    | Loaded                  // info or status was read, and the hold was found clear
    | Controlled              // a control command went through, and the hold was found clear
    | Disconnect              // the user's disconnect, which has just set the hold
    | RowDown                 // the window's own disconnect of a row without an actor
    | OnError(kind: string)   // a task failed

  type Thread = nat

  /**
   * A thread between its first step and its store. `overtaken` is history: a disconnect has been stored since
   * the thread's first step.
   */
  datatype Writer = Writer(change: Change, copy: Option<Snapshot>, overtaken: bool)

  /**
   * `settled` and `broken` are history: since the hold was set a disconnect has been stored, and since then an
   * overtaken writer has stored a connected snapshot.
   */
  datatype State = State(stored: Snapshot, hold: bool, settled: bool, broken: bool, writers: map<Thread, Writer>)

  const INIT := State(Snapshot(Discovered, false), false, false, false, map[])

  /** The kinds of error that take a device off line. */
  const CONNECTION_ERRORS := ["auth", "timeout", "network", "http", "disconnect"]

  function ErrorState(kind: string, state: Status): Status {
    if kind == "auth" then AuthFailed
    else if kind in CONNECTION_ERRORS then Disconnected
    else state
  }

  function Changed(c: Change, s: Snapshot): Snapshot {
    match c
    case Keep => s
    case Controlled => s
    case Connect => Snapshot(Ready, true)
    case Loaded => Snapshot(Ready, true)
    case Disconnect => Snapshot(Disconnected, false)
    case RowDown => Snapshot(Disconnected, false)
    case OnError(kind) => var n := ErrorState(kind, s.state); Snapshot(n, n == Ready)
  }

  datatype Event = Start(t: Thread, change: Change) | Read(t: Thread) | Store(t: Thread) | Abort(t: Thread)

  predicate Guarded(c: Change) {
    c.Loaded? || c.Controlled?
  }

  predicate Enabled(s: State, e: Event) {
    match e
    case Start(t, c) => t !in s.writers && (Guarded(c) ==> !s.hold)
    case Read(t) => t in s.writers && s.writers[t].copy.None?
    case Store(t) => t in s.writers && s.writers[t].copy.Some?
    // the session of a successful connect cannot be built
    case Abort(t) => t in s.writers && s.writers[t].change.Connect? && s.writers[t].copy.None?
  }

  function Overtake(ws: map<Thread, Writer>): map<Thread, Writer> {
    map t | t in ws :: ws[t].(overtaken := true)
  }

  /** What the store of thread `t` writes. */
  function Written(s: State, t: Thread): Snapshot
    requires Enabled(s, Store(t))
  {
    Changed(s.writers[t].change, s.writers[t].copy.value)
  }

  function Apply(s: State, e: Event): State
    requires Enabled(s, e)
  {
    match e
    case Start(t, c) =>
      s.(writers := s.writers[t := Writer(c, None, false)],
         hold := if c.Connect? then false else if c.Disconnect? then true else s.hold,
         settled := s.settled && !c.Connect?)
    case Read(t) => s.(writers := s.writers[t := s.writers[t].(copy := Some(s.stored))])
    case Store(t) =>
      if s.writers[t].change.Disconnect? then
        State(Written(s, t), s.hold, s.hold, false, Overtake(s.writers - {t}))
      else
        s.(stored := Written(s, t), writers := s.writers - {t},
           broken := s.broken || (s.hold && s.settled && s.writers[t].overtaken && Written(s, t).connected))
    case Abort(t) => s.(writers := s.writers - {t})
  }

  ghost predicate Reaches(es: seq<Event>, s: State) {
    if es == [] then s == INIT
    else
      var n := |es| - 1;
      exists p :: Reaches(es[..n], p) && Enabled(p, es[n]) && s == Apply(p, es[n])
  }

  // ----- The pairing --------------------------------------------------------------------------------

  predicate Paired(s: Snapshot) {
    s.connected <==> s.state == Ready
  }

  ghost predicate AllPaired(s: State) {
    Paired(s.stored) && forall t :: t in s.writers && s.writers[t].copy.Some? ==> Paired(s.writers[t].copy.value)
  }

  lemma ChangedIsPaired(c: Change, s: Snapshot)
    requires Paired(s)
    ensures Paired(Changed(c, s))
  {
  }

  lemma StepKeepsPaired(s: State, e: Event)
    requires AllPaired(s) && Enabled(s, e)
    ensures AllPaired(Apply(s, e))
  {
    if e.Store? {
      ChangedIsPaired(s.writers[e.t].change, s.writers[e.t].copy.value);
    }
  }

  /** However the writers interleave, every snapshot ever stored is connected exactly when its state is READY. */
  lemma {:induction false} EverySnapshotIsPaired(es: seq<Event>, s: State)
    requires Reaches(es, s)
    ensures AllPaired(s)
  {
    hide Apply, Enabled;
    if es == [] {
    } else {
      var n := |es| - 1;
      var p :| Reaches(es[..n], p) && Enabled(p, es[n]) && s == Apply(p, es[n]);
      EverySnapshotIsPaired(es[..n], p);
      StepKeepsPaired(p, es[n]);
    }
  }

  /** What each kind of writer leaves, made from the copy it read. */
  lemma StoreLeaves(s: State, t: Thread)
    requires Enabled(s, Store(t))
    ensures var read, after := s.writers[t].copy.value, Apply(s, Store(t)).stored;
            match s.writers[t].change
            case Connect => after.state == Ready && after.connected
            case Loaded => after.state == Ready && after.connected
            case Disconnect => after.state == Disconnected && !after.connected
            case RowDown => after.state == Disconnected && !after.connected
            case OnError("auth") => after.state == AuthFailed && !after.connected
            case OnError(kind) =>
              if kind in {"timeout", "network", "http", "disconnect"} then
                after.state == Disconnected && !after.connected
              else after.state == read.state && after.connected == (read.state == Ready)
            case _ => after == read
  {
  }

  // ----- The hold -----------------------------------------------------------------------------------

  /** A writer that has not been overtaken cannot bring the connection back. */
  predicate Harmless(w: Writer) {
    w.overtaken || (!w.change.Connect? && !w.change.Loaded? && (w.copy.Some? ==> !w.copy.value.connected))
  }

  ghost predicate HoldOk(s: State) {
    && (s.settled ==> s.hold)
    && (s.hold && s.settled && !s.broken ==>
          !s.stored.connected && forall t :: t in s.writers ==> Harmless(s.writers[t]))
  }

  lemma StepKeepsHold(s: State, e: Event)
    requires HoldOk(s) && AllPaired(s) && Enabled(s, e)
    ensures HoldOk(Apply(s, e))
  {
    if e.Store? {
      ChangedIsPaired(s.writers[e.t].change, s.writers[e.t].copy.value);
    }
  }

  lemma {:induction false} ReachableHold(es: seq<Event>, s: State)
    requires Reaches(es, s)
    ensures HoldOk(s) && AllPaired(s)
  {
    hide Apply, Enabled, HoldOk, AllPaired;
    if es == [] {
      InitHold();
    } else {
      var n := |es| - 1;
      var p :| Reaches(es[..n], p) && Enabled(p, es[n]) && s == Apply(p, es[n]);
      ReachableHold(es[..n], p);
      StepKeepsHold(p, es[n]);
      StepKeepsPaired(p, es[n]);
    }
  }

  lemma InitHold()
    ensures HoldOk(INIT) && AllPaired(INIT)
  {
  }

  /** A held device whose disconnect has been stored is not connected, as long as no overtaken writer broke that. */
  lemma HeldIsNotConnected(es: seq<Event>, s: State)
    requires Reaches(es, s) && s.hold && s.settled && !s.broken
    ensures !s.stored.connected
  {
    hide Reaches;
    ReachableHold(es, s);
  }

  /**
   * A writer, of whom a disconnect was stored since its first step, that brings the connection back: it has connected
   * or loaded, or it read a connected snapshot and neither disconnects nor reports an error of the connection.
   */
  predicate BringsBack(w: Writer) {
    && w.overtaken && w.copy.Some?
    && match w.change
       case Connect => true
       case Loaded => true
       case Keep => w.copy.value.connected
       case Controlled => w.copy.value.connected
       case OnError(kind) => kind !in CONNECTION_ERRORS && w.copy.value.connected
       case Disconnect => false
       case RowDown => false
  }

  /**
   * And exactly such a writer breaks it: the next step leaves a held device connected if and only if it is the
   * store of a writer that brings the connection back.
   */
  lemma OnlyOvertakenStoresReconnect(es: seq<Event>, s: State, e: Event)
    requires Reaches(es, s) && s.hold && s.settled && !s.broken && Enabled(s, e)
    requires Apply(s, e).hold && Apply(s, e).settled
    ensures Apply(s, e).stored.connected <==> e.Store? && BringsBack(s.writers[e.t])
  {
    hide Reaches;
    ReachableHold(es, s);
    StepKeepsHold(s, e);
    if e.Store? {
      assert Harmless(s.writers[e.t]);
      ConnectedAfter(s.writers[e.t].change, s.writers[e.t].copy.value);
    }
  }

  /** An error keeps READY, and with it the connection, unless it is one of the connection. */
  lemma ConnectedAfter(c: Change, s: Snapshot)
    requires Paired(s)
    ensures Changed(c, s).connected
            <==> c.Connect? || c.Loaded?
                 || (s.connected && (c.Keep? || c.Controlled? || (c.OnError? && c.kind !in CONNECTION_ERRORS)))
  {
  }

  /** The update of the snapshot is one step: a thread begins only when no other is under way. */
  ghost predicate OneAtATime(es: seq<Event>, s: State) {
    if es == [] then s == INIT
    else
      var n := |es| - 1;
      exists p ::
        && OneAtATime(es[..n], p) && Enabled(p, es[n]) && s == Apply(p, es[n])
        && (es[n].Start? ==> p.writers == map[])
  }

  ghost predicate Alone(s: State) {
    && !s.broken && (s.hold && s.writers == map[] ==> s.settled)
    && (forall t, u :: t in s.writers && u in s.writers ==> t == u)
    && forall t :: t in s.writers ==>
         !s.writers[t].overtaken && (s.hold && !s.settled ==> s.writers[t].change.Disconnect?)
  }

  lemma AloneStep(s: State, e: Event)
    requires Alone(s) && HoldOk(s) && Enabled(s, e) && (e.Start? ==> s.writers == map[])
    ensures Alone(Apply(s, e))
  {
    var r := Apply(s, e);
    if !e.Start? {
      forall t | t in s.writers ensures t == e.t {
      }
      if !e.Read? {
        assert r.writers == map[];
      }
    }
  }

  /** Then a held device at rest is never connected, until a later connect lifts the hold. */
  lemma {:induction false} AtomicUpdatesRespectTheHold(es: seq<Event>, s: State)
    requires OneAtATime(es, s)
    ensures Alone(s) && HoldOk(s) && AllPaired(s)
    ensures s.hold && s.writers == map[] ==> !s.stored.connected
  {
    hide Apply, Enabled, AllPaired;
    if es == [] {
      InitHold();
    } else {
      var n := |es| - 1;
      var p :| OneAtATime(es[..n], p) && Enabled(p, es[n]) && s == Apply(p, es[n])
               && (es[n].Start? ==> p.writers == map[]);
      AtomicUpdatesRespectTheHold(es[..n], p);
      StepKeepsHold(p, es[n]);
      StepKeepsPaired(p, es[n]);
      AloneStep(p, es[n]);
    }
  }

  lemma Step(es: seq<Event>, s: State, e: Event) returns (r: State)
    requires Reaches(es, s) && Enabled(s, e)
    ensures Reaches(es + [e], r) && r == Apply(s, e)
  {
    r := Apply(s, e);
    assert (es + [e])[..|es + [e]| - 1] == es;
  }

  /**
   * Without that, the hold can be lost: a status poll reads the snapshot, the user disconnects, and the poll
   * stores its copy; the device is then held and connected.
   */
  lemma LostDisconnect() returns (es: seq<Event>, s: State)
    ensures Reaches(es, s) && s.hold && s.settled && s.stored.connected && s.writers == map[]
  {
    hide Reaches;
    es, s := [], INIT;
    assert Reaches([], INIT) by { Nothing(); }
    s := Step(es, s, Start(1, Loaded));
    es := es + [Start(1, Loaded)];
    s := Step(es, s, Read(1));
    es := es + [Read(1)];
    s := Step(es, s, Start(2, Disconnect));
    es := es + [Start(2, Disconnect)];
    s := Step(es, s, Read(2));
    es := es + [Read(2)];
    s := Step(es, s, Store(2));
    es := es + [Store(2)];
    s := Step(es, s, Store(1));
    es := es + [Store(1)];
  }

  lemma Nothing()
    ensures Reaches([], INIT)
  {
  }
}
