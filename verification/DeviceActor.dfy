/**
 * One device's actor (application/core/device_actor.py:61-303, 364-402) with the registry it shares with the
 * window. Other threads run between its steps: the window may disconnect the device, remove it and add it again,
 * and the rest of the runtime goes on. What the actor does is a run of the protocol in `Runtime`.
 */
module DeviceActor {
  import opened Tasks
  import D = DeviceState
  import R = Runtime
  import RuntimeLaws

  /** Where and how the camera is reached; a session needs all three parts. */
  datatype Address = Address(base: string, root: string, auth: string)

  datatype CommandState = CommandState(task: Option<string>, inflight: bool, lastResult: string, errorKind: string)

  /** A device snapshot, as far as the actor's decisions depend on it. */
  datatype Record = Record(link: D.Snapshot, address: Address, infoLoaded: bool, command: CommandState)

  /** Normal return, an `AppError`, or a `KeyError` because the device is gone. */
  datatype Outcome = Done | Rejected(kind: string) | Missing

  /** What the camera comes to answer: an error, or for a connect where it can be reached. */
  datatype Answer = Answer(error: Option<string>, address: Address)

  const FRESH := Record(D.Snapshot(D.Discovered, false), Address("", "", ""), false, CommandState(None, false, "", ""))

  /** What an error of some kind makes of the state and the connection. */
  predicate LinkAfter(kind: string, before: D.Snapshot, after: D.Snapshot) {
    if kind == "auth" then after == D.Snapshot(D.AuthFailed, false)
    else if kind == "timeout" || kind == "network" || kind == "http" || kind == "disconnect" then
      after == D.Snapshot(D.Disconnected, false)
    else after == before
  }

  /** How the worker leaves after a handler came to `handled`, when the device is still there. */
  function Left(handled: Outcome): Outcome {
    if handled.Missing? then Rejected("runtime") else handled
  }

  predicate Complete(a: Address) {
    a.base != "" && a.root != "" && a.auth != ""
  }

  /** A state of the runtime, the run that led there, and which of its workers and actors this is about. */
  datatype World = World(events: seq<R.Event>, state: R.State, worker: nat, actor: nat) {

    ghost predicate Fits(ip: Ip) {
      worker < |state.workers| && actor < |state.actors| && state.workers[worker].task.deviceIp == ip
    }

    ghost predicate InCharge(ip: Ip) {
      ip in state.registry && state.registry[ip] == actor
    }

    ghost function Me(): R.Actor
      requires actor < |state.actors|
    {
      state.actors[actor]
    }

    ghost function Worker(): R.Worker
      requires worker < |state.workers|
    {
      state.workers[worker]
    }

    ghost function Then(e: R.Event): World
      requires R.Enabled(state, e)
    {
      World(events + [e], R.Apply(state, e), worker, actor)
    }
  }

  /** The later world goes on from the earlier one, with the same actor. */
  ghost predicate Follows(w: World, v: World) {
    w.events <= v.events && w.actor == v.actor && (R.Reaches(w.events, w.state) ==> R.Reaches(v.events, v.state))
  }

  lemma ThenFollows(w: World, e: R.Event)
    requires R.Enabled(w.state, e)
    ensures Follows(w, w.Then(e))
  {
    hide R.Reaches, R.Enabled, R.Apply;
    if R.Reaches(w.events, w.state) {
      R.ReachesStep(w.events, w.state, e);
    }
  }

  /** Everything that concerns the actor, its worker and its device is the same. */
  ghost predicate SameView(w: World, v: World, ip: Ip) {
    && w.Fits(ip) && v.Fits(ip) && w.Worker() == v.Worker() && w.actor == v.actor && w.Me() == v.Me()
    && (ip in w.state.registry <==> ip in v.state.registry) && (w.InCharge(ip) <==> v.InCharge(ip))
    && (ip in w.state.snapshots <==> ip in v.state.snapshots)
  }

  /** Where a worker is after a step: the completion of an earlier one moves it up. */
  function IndexAfter(e: R.Event, i: nat): nat {
    if e.Reported? && e.index < i then i - 1 else i
  }

  /** The rest of the runtime goes on with those of the events `more` that do not concern the actor. */
  ghost function Elsewhere(w: World, ip: Ip, more: seq<R.Event>): (v: World)
    requires w.Fits(ip)
    ensures SameView(w, v, ip)
    decreases |more|
  {
    if more == [] then w
    else if !R.Enabled(w.state, more[0]) then Elsewhere(w, ip, more[1..])
    else
      var v := w.Then(more[0]).(worker := IndexAfter(more[0], w.worker));
      if SameView(w, v, ip) then Elsewhere(v, ip, more[1..]) else Elsewhere(w, ip, more[1..])
  }

  lemma {:induction false} ElsewhereFollows(w: World, ip: Ip, more: seq<R.Event>)
    requires w.Fits(ip)
    ensures Follows(w, Elsewhere(w, ip, more))
    decreases |more|
  {
    hide R.Reaches, R.Enabled, R.Apply, SameView;
    if more == [] {
    } else {
      if R.Enabled(w.state, more[0]) {
        ThenFollows(w, more[0]);
        var v := w.Then(more[0]).(worker := IndexAfter(more[0], w.worker));
        if SameView(w, v, ip) {
          SameViewFits(w, v, ip);
          ElsewhereFollows(v, ip, more[1..]);
        } else {
          ElsewhereFollows(w, ip, more[1..]);
        }
      } else {
        ElsewhereFollows(w, ip, more[1..]);
      }
    }
  }

  lemma SameViewFits(w: World, v: World, ip: Ip)
    requires SameView(w, v, ip)
    ensures v.Fits(ip) && w.actor == v.actor
  {
  }

  class Registry {
    var snapshots: map<Ip, Record>
    var actors: map<Ip, Actor>

    constructor ()
      ensures snapshots == map[] && actors == map[]
    {
      snapshots, actors := map[], map[];
    }
  }

  class Actor {
    const ip: Ip
    const registry: Registry
    var session: Option<Address>
    var currentTask: Option<string>
    var disconnectHold: bool

    /** An actor may find a snapshot that an earlier one has left. */
    constructor (ip: Ip, registry: Registry)
      requires ip in registry.snapshots ==> D.Paired(registry.snapshots[ip].link)
      ensures this.ip == ip && this.registry == registry && Valid()
      ensures session == None && currentTask == None && !disconnectHold
    {
      this.ip, this.registry := ip, registry;
      session, currentTask, disconnectHold := None, None, false;
    }

    predicate Present()
      reads this, registry
    {
      ip in registry.snapshots
    }

    function Mine(): Record
      requires Present()
      reads this, registry
    {
      registry.snapshots[ip]
    }

    /** This is the actor that the registry holds for the device. */
    ghost predicate Registered()
      reads this, registry
    {
      ip in registry.actors && registry.actors[ip] == this
    }

    /** A stored snapshot is connected exactly when READY, and never while the disconnect is held. */
    ghost predicate Valid()
      reads this, registry
    {
      Present() ==> D.Paired(Mine().link) && (disconnectHold ==> !Mine().link.connected)
    }

    /** The snapshot shows no task when the actor has none. */
    ghost predicate Tidy()
      reads this, registry
    {
      Present() && currentTask.None? ==> !Mine().command.inflight && Mine().command.task.None?
    }

    /** The runtime's view of this actor. */
    ghost predicate Mirrors(w: World)
      reads this, registry
    {
      && w.Fits(ip) && w.Me() == R.Actor(ip, currentTask.Some?, disconnectHold)
      && (ip in w.state.snapshots <==> Present())
      && (ip in w.state.registry <==> ip in registry.actors) && (w.InCharge(ip) <==> Registered())
    }

    lemma SameViewMirrors(w: World, v: World)
      requires Mirrors(w) && SameView(w, v, ip)
      ensures Mirrors(v)
    {
    }

    // ----- Sessions -----------------------------------------------------------------------------------

    /** A handler that asks for a session now would get one. */
    ghost predicate CanServe()
      reads this, registry
    {
      && !disconnectHold
      && (session.Some?
          || (Present() && Mine().address.base != "" && Mine().address.root != "" && Mine().address.auth != ""))
    }

    /** What the scheduler asks: true exactly when `RequireSession` would succeed. */
    method HasSession() returns (has: bool)
      ensures has <==> CanServe()
    {
      if disconnectHold {
        return false;
      }
      if session.Some? {
        return true;
      }
      if ip !in registry.snapshots {
        return false;
      }
      has := Complete(registry.snapshots[ip].address);
    }

    /** `_require_session` */
    method RequireSession() returns (out: Outcome)
      modifies this`session
      ensures out.Done? <==> old(CanServe())
      ensures out.Done? ==> session == if old(session).Some? then old(session) else Some(Mine().address)
      ensures CanServe() <==> old(CanServe())
      ensures old(!CanServe()) ==> out == old(Unserved()) && session == old(session)
    {
      if disconnectHold {
        return Rejected("disconnect");
      }
      if session.None? {
        if ip !in registry.snapshots {
          return Missing;
        }
        if !Complete(registry.snapshots[ip].address) {
          return Rejected("state");
        }
        session := Some(registry.snapshots[ip].address);
      }
      out := Done;
    }

    method Disconnect() returns (out: Outcome)
      requires Valid()
      modifies this`session, this`disconnectHold, registry`snapshots
      ensures Valid() && disconnectHold && session == None && !CanServe()
      ensures registry.snapshots.Keys == old(registry.snapshots.Keys)
      ensures out == if Present() then Done else Missing
      ensures Present() ==> Mine().link == D.Snapshot(D.Disconnected, false) && Mine().address == old(Mine()).address
      ensures Present() && currentTask.Some? ==>
                && Mine().command.task == old(Mine()).command.task
                && Mine().command.inflight == old(Mine()).command.inflight
      ensures old(Tidy()) ==> Tidy()
    {
      disconnectHold := true;
      session := None;
      if ip !in registry.snapshots {
        return Missing;
      }
      var snapshot := registry.snapshots[ip];
      var command := snapshot.command.(errorKind := "");
      if currentTask.None? {
        command := command.(task := None, inflight := false);
      }
      Store(snapshot.(link := D.Changed(D.Disconnect, snapshot.link), command := command));
      out := Done;
    }

    method Store(record: Record)
      modifies registry`snapshots
      ensures registry.snapshots == old(registry.snapshots)[ip := record]
    {
      registry.snapshots := registry.snapshots[ip := record];
    }

    // ----- The other threads --------------------------------------------------------------------------

    /** The window disconnects the device, through the actor that the registry holds. */
    method WindowDisconnects(ghost w: World) returns (ghost v: World)
      requires Valid() && Mirrors(w) && ip in registry.actors
      modifies this`session, this`disconnectHold, registry`snapshots
      ensures Valid() && Mirrors(v) && Follows(w, v) && v.Worker() == w.Worker()
      ensures old(disconnectHold) ==> disconnectHold
      ensures Registered() ==> disconnectHold
      ensures registry.snapshots.Keys == old(registry.snapshots.Keys) && registry.actors == old(registry.actors)
    {
      ghost var others := ip in w.state.registry && w.state.registry[ip] < |w.state.actors|;
      if registry.actors[ip] == this {
        v := w.Then(R.Disconnected(ip));
        ThenFollows(w, R.Disconnected(ip));
        var _ := Disconnect();
      } else {
        v := w;
        if others {
          v := w.Then(R.Disconnected(ip));
          ThenFollows(w, R.Disconnected(ip));
        }
        if ip in registry.snapshots {
          Store(registry.snapshots[ip].(link := D.Snapshot(D.Disconnected, false)));
        }
      }
    }

    /** The window removes the device: it is disconnected, and its snapshot and its actor go. */
    method WindowRemoves(ghost w: World) returns (ghost v: World)
      requires Valid() && Mirrors(w)
      modifies this`session, this`disconnectHold, registry
      ensures Valid() && Mirrors(v) && Follows(w, v) && v.Worker() == w.Worker()
      ensures (old(disconnectHold) ==> disconnectHold) && !Registered() && !Present()
    {
      v := w.Then(R.DeviceRemoved(ip));
      ThenFollows(w, R.DeviceRemoved(ip));
      if ip in registry.actors && registry.actors[ip] == this {
        var _ := Disconnect();
      }
      registry.snapshots := registry.snapshots - {ip};
      registry.actors := registry.actors - {ip};
    }

    /** The window adds the device: a snapshot and an actor are made where they are missing. */
    method WindowAdds(ghost w: World) returns (ghost v: World)
      requires Valid() && Mirrors(w)
      modifies registry
      ensures Valid() && Mirrors(v) && Follows(w, v) && v.Worker() == w.Worker()
      ensures Registered() <==> old(Registered())
      ensures old(Present()) ==> registry.snapshots == old(registry.snapshots)
    {
      v := w.Then(R.DeviceAdded(ip));
      ThenFollows(w, R.DeviceAdded(ip));
      if ip !in registry.snapshots {
        registry.snapshots := registry.snapshots[ip := FRESH];
      }
      if ip !in registry.actors {
        var actor := new Actor(ip, registry);
        registry.actors := registry.actors[ip := actor];
      }
    }

    /** Any number of steps of the window, and any steps of the runtime that do not concern this actor. */
    method OtherThreads(ghost w: World) returns (ghost v: World)
      requires Valid() && Mirrors(w)
      modifies this`session, this`disconnectHold, registry
      ensures Valid() && Mirrors(v) && Follows(w, v) && v.Worker() == w.Worker()
      ensures old(disconnectHold) ==> disconnectHold
      ensures Registered() ==> old(Registered())
      ensures Registered() && !disconnectHold && old(Present()) ==>
                Present() && session == old(session) && Mine() == old(Mine())
    {
      hide Valid, R.Reaches, R.Enabled, R.Apply, Follows;
      FollowsItself(w);
      v := w;
      var steps: nat := *;
      while steps > 0
        invariant Valid() && Mirrors(v) && Follows(w, v) && v.Worker() == w.Worker()
        invariant old(disconnectHold) ==> disconnectHold
        invariant Registered() ==> old(Registered())
        invariant Registered() && !disconnectHold && old(Present()) ==>
                    Present() && session == old(session) && Mine() == old(Mine())
      {
        ghost var u := v;
        v := OtherStep(v);
        FollowsOn(w, u, v);
        steps := steps - 1;
      }
    }

    /** Some steps of the runtime, and then one of the window. */
    method OtherStep(ghost w: World) returns (ghost v: World)
      requires Valid() && Mirrors(w)
      modifies this`session, this`disconnectHold, registry
      ensures Valid() && Mirrors(v) && Follows(w, v) && v.Worker() == w.Worker()
      ensures old(disconnectHold) ==> disconnectHold
      ensures Registered() ==> old(Registered())
      ensures Registered() && !disconnectHold && old(Present()) ==>
                Present() && session == old(session) && Mine() == old(Mine())
    {
      hide Valid, R.Reaches, R.Enabled, R.Apply, Follows;
      ghost var more: seq<R.Event> := *;
      ghost var u := Elsewhere(w, ip, more);
      ElsewhereFollows(w, ip, more);
      SameViewMirrors(w, u);
      v := u;
      var choice: nat := *;
      if choice == 0 {
        if ip in registry.actors {
          v := WindowDisconnects(u);
        }
      } else if choice == 1 {
        v := WindowRemoves(u);
      } else {
        v := WindowAdds(u);
      }
      FollowsItself(u);
      FollowsOn(w, u, v);
    }

    // ----- Tasks --------------------------------------------------------------------------------------

    method BeginTask(task: TaskSpec) returns (out: Outcome)
      requires Valid()
      modifies this`currentTask, registry`snapshots
      ensures Valid() && (old(Tidy()) ==> Tidy())
      ensures registry.snapshots.Keys == old(registry.snapshots.Keys)
      ensures !out.Done? ==> registry.snapshots == old(registry.snapshots)
      ensures old(currentTask.Some?) ==>
                && out == Rejected("busy") && currentTask == old(currentTask)
                && registry.snapshots == old(registry.snapshots)
      ensures old(currentTask.None?) ==>
                && currentTask == Some(task.taskId) && out == (if old(Present()) then Done else Missing)
                && (Present() ==>
                      Mine().command == old(Mine()).command.(task := Some(task.taskId), inflight := true)
                      && Mine() == old(Mine()).(command := Mine().command))
    {
      if currentTask.Some? {
        return Rejected("busy");
      }
      currentTask := Some(task.taskId);
      if ip !in registry.snapshots {
        return Missing;
      }
      var snapshot := registry.snapshots[ip];
      Store(snapshot.(command := snapshot.command.(task := Some(task.taskId), inflight := true)));
      out := Done;
    }

    method FinishTask(errorKind: string, failed: bool) returns (out: Outcome)
      requires Valid()
      modifies this`currentTask, registry`snapshots
      ensures Valid() && registry.snapshots.Keys == old(registry.snapshots.Keys)
      ensures out == if old(Present()) then Done else Missing
      ensures Present() ==>
                && currentTask == None && Tidy()
                && Mine()
                   == old(Mine()).(command := CommandState(None, false, if failed then "error" else "ok", errorKind))
      ensures !Present() ==> currentTask == old(currentTask)
    {
      if ip !in registry.snapshots {
        return Missing;
      }
      var snapshot := registry.snapshots[ip];
      Store(snapshot.(command := CommandState(None, false, if failed then "error" else "ok", errorKind)));
      currentTask := None;
      out := Done;
    }

    method ApplyErrorState(kind: string) returns (out: Outcome)
      requires Valid()
      modifies registry`snapshots
      ensures Valid() && registry.snapshots.Keys == old(registry.snapshots.Keys)
      ensures out == if old(Present()) then Done else Missing
      ensures Present() ==>
                LinkAfter(kind, old(Mine()).link, Mine().link) && Mine() == old(Mine()).(link := Mine().link)
    {
      if ip !in registry.snapshots {
        return Missing;
      }
      var snapshot := registry.snapshots[ip];
      Store(snapshot.(link := D.Changed(D.OnError(kind), snapshot.link)));
      out := Done;
    }

    /** The worker runs this task on this actor. */
    ghost predicate Runs(w: World, task: TaskSpec)
      reads this, registry
    {
      Mirrors(w) && w.Worker() == R.Worker(task, R.Running(w.actor)) && currentTask.Some?
    }

    /** A connect that succeeded lifts the hold. */
    method LiftHold(task: TaskSpec, ghost w: World) returns (ghost v: World)
      requires Valid() && Runs(w, task) && task.command.Connect?
      modifies this`disconnectHold
      ensures Valid() && Runs(v, task) && Follows(w, v) && !disconnectHold
      ensures R.Enabled(w.state, R.HoldCleared(w.worker)) && v == w.Then(R.HoldCleared(w.worker))
    {
      hide R.Reaches;
      ThenFollows(w, R.HoldCleared(w.worker));
      v := w.Then(R.HoldCleared(w.worker));
      disconnectHold := false;
    }

    /** `_handle_connect`, when the connection search comes to `answer`. */
    method HandleConnect(task: TaskSpec, answer: Answer, ghost w: World) returns (out: Outcome, ghost v: World)
      requires Valid() && Runs(w, task) && task.command.Connect?
      modifies this`session, this`disconnectHold, registry
      ensures Valid() && Runs(v, task) && Follows(w, v)
      ensures answer.error.Some? ==> out == Rejected(answer.error.value)
      ensures answer.error.Some? && old(disconnectHold) ==> disconnectHold
      ensures answer.error.None? ==> !disconnectHold
      ensures var a := answer.address;
              answer.error.None? && (a.base == "" || a.root == "" || a.auth == "") ==> out == Rejected("param")
      ensures var a := answer.address; answer.error.None? && a.base != "" && a.root != "" && a.auth != "" ==>
                && session == Some(answer.address) && out == (if Present() then Done else Missing)
                && (Present() ==> && Mine().link == D.Snapshot(D.Ready, true) && !Mine().infoLoaded
                                  && Mine().address == answer.address)
    {
      hide R.Reaches, R.Enabled, R.Apply;
      v := OtherThreads(w);
      if answer.error.Some? {
        return Rejected(answer.error.value), v;
      }
      v := LiftHold(task, v);
      if !Complete(answer.address) {
        return Rejected("param"), v;
      }
      session := Some(answer.address);
      if ip !in registry.snapshots {
        return Missing, v;
      }
      var snapshot := registry.snapshots[ip];
      Store(snapshot.(link := D.Changed(D.Connect, snapshot.link), address := answer.address, infoLoaded := false));
      out := Done;
    }

    /** What a handler without a session raises. */
    ghost function Unserved(): Outcome
      reads this, registry
    {
      if disconnectHold then Rejected("disconnect") else if Present() then Rejected("state") else Missing
    }

    /**
     * The other three handlers, when the camera comes to `answer`: they store what they read unless the device has
     * been disconnected meanwhile. While the actor stays registered nothing else has changed the snapshot.
     */
    method HandleOther(task: TaskSpec, answer: Answer, ghost w: World) returns (out: Outcome, ghost v: World)
      requires Valid() && Runs(w, task) && !task.command.Connect?
      modifies this`session, this`disconnectHold, registry
      ensures Valid() && Runs(v, task) && Follows(w, v) && (old(disconnectHold) ==> disconnectHold)
      ensures task.command !in {InfoLoad, StatusPoll, Control} ==>
                out == Rejected("param") && registry.snapshots == old(registry.snapshots)
      ensures task.command in {InfoLoad, StatusPoll, Control} && old(!CanServe()) ==>
                out == old(Unserved()) && registry.snapshots == old(registry.snapshots)
      ensures task.command in {InfoLoad, StatusPoll, Control} && old(CanServe()) ==>
                out == if answer.error.Some? then Rejected(answer.error.value)
                       else if disconnectHold || Present() then Done else Missing
      ensures out.Done? && !disconnectHold && (task.command.InfoLoad? || task.command.StatusPoll?) ==>
                Mine().link == D.Snapshot(D.Ready, true)
      ensures out.Done? && !disconnectHold && task.command.InfoLoad? ==> Mine().infoLoaded
      ensures out.Done? && !disconnectHold && task.command.Control? ==>
                Mine().command.lastResult == "ok" && Mine().command.errorKind == ""
      ensures out.Done? && !disconnectHold && Registered() && old(Present()) ==>
                && session.Some? && Mine().address == old(Mine()).address
                && (!task.command.InfoLoad? ==> Mine().infoLoaded == old(Mine()).infoLoaded)
                && (task.command.Control? ==> Mine().link == old(Mine()).link)
                && (!task.command.Control? ==> Mine().command == old(Mine()).command)
      ensures !out.Done? && !disconnectHold && Registered() && old(Present()) ==>
                Present() && Mine() == old(Mine())
    {
      hide R.Reaches, R.Enabled, R.Apply, Follows;
      FollowsItself(w);
      v := w;
      if !task.command.InfoLoad? && !task.command.StatusPoll? && !task.command.Control? {
        return Rejected("param"), v;
      }
      out := RequireSession();
      if !out.Done? {
        return;
      }
      v := OtherThreads(v);
      FollowsOn(w, v, v);
      if answer.error.Some? {
        return Rejected(answer.error.value), v;
      }
      if disconnectHold {
        return Done, v;
      }
      if ip !in registry.snapshots {
        return Missing, v;
      }
      var snapshot := registry.snapshots[ip];
      if task.command.InfoLoad? {
        Store(snapshot.(link := D.Changed(D.Loaded, snapshot.link), infoLoaded := true));
      } else if task.command.StatusPoll? {
        Store(snapshot.(link := D.Changed(D.Loaded, snapshot.link)));
      } else {
        Store(snapshot.(command := snapshot.command.(lastResult := "ok", errorKind := "")));
      }
    }

    /** The hold check of `execute_task` and `begin_task`: the worker enters the actor. */
    method Enter(task: TaskSpec, ghost w: World) returns (runs: bool, out: Outcome, ghost v: World)
      requires Valid() && Mirrors(w) && w.Worker() == R.Worker(task, R.Captured(w.actor))
      modifies this`currentTask, registry`snapshots
      ensures Valid() && Mirrors(v) && Follows(w, v) && (old(Tidy()) ==> Tidy())
      ensures v == w.Then(R.Entered(w.worker))
      ensures runs ==>
                && Runs(v, task) && currentTask == Some(task.taskId) && Present()
                && Mine().command == old(Mine()).command.(task := Some(task.taskId), inflight := true)
                && Mine() == old(Mine()).(command := Mine().command)
      ensures runs <==> !(disconnectHold && !task.command.Connect?) && old(currentTask.None?) && old(Present())
      ensures !runs ==>
                && v.Worker() == R.Worker(task, R.Ended(out.Done?)) && registry.snapshots == old(registry.snapshots)
                && out == (if disconnectHold && !task.command.Connect? then Done
                           else if old(currentTask.Some?) then Rejected("busy") else Missing)
                && currentTask == if out.Missing? then Some(task.taskId) else old(currentTask)
    {
      hide R.Reaches;
      ThenFollows(w, R.Entered(w.worker));
      v := w.Then(R.Entered(w.worker));
      if disconnectHold && !task.command.Connect? {
        return false, Done, v;
      }
      out := BeginTask(task);
      runs := out.Done?;
    }

    /** `finish_task` after a handler that returned, or the error path of `execute_task`: the worker leaves. */
    method Leave(task: TaskSpec, handled: Outcome, ghost w: World) returns (out: Outcome, ghost v: World)
      requires Valid() && Runs(w, task)
      modifies this`currentTask, registry`snapshots
      ensures Valid() && Mirrors(v) && Follows(w, v) && v.Worker() == R.Worker(task, R.Ended(out.Done?))
      ensures Present() <==> old(Present())
      ensures if out.Missing? then !Present() && currentTask == old(currentTask)
              else
                && currentTask == None && Present() && Tidy() && out == Left(handled)
                && Mine().command == (if out.Done? then CommandState(None, false, "ok", "")
                                      else CommandState(None, false, "error", out.kind))
                && LinkAfter(if out.Done? then "" else out.kind, old(Mine()).link, Mine().link)
                && Mine() == old(Mine()).(command := Mine().command, link := Mine().link)
    {
      hide R.Reaches;
      ThenFollows(w, R.Left(w.worker, handled.Done?));
      v := w.Then(R.Left(w.worker, handled.Done?));
      if handled.Done? {
        var finished := FinishTask("", false);
        if finished.Done? {
          return Done, v;
        }
      }
      var kind := if handled.Rejected? then handled.kind else "runtime";
      var applied := ApplyErrorState(kind);
      if applied.Missing? {
        return Missing, v;
      }
      var finished := FinishTask(kind, true);
      out := if finished.Missing? then Missing else Rejected(kind);
    }

    /**
     * What the handler comes to when the camera comes to `answer`: the source's own error, or the camera's, or, when
     * the device has gone meanwhile, a missing snapshot.
     */
    ghost predicate ComesTo(task: TaskSpec, answer: Answer, served: bool, handled: Outcome) {
      if task.command.Connect? || (task.command in {InfoLoad, StatusPoll, Control} && served) then
        if answer.error.Some? then handled == Rejected(answer.error.value)
        else if task.command.Connect? && !Complete(answer.address) then handled == Rejected("param")
        else handled.Done? || handled.Missing?
      else handled == Rejected(if task.command in {InfoLoad, StatusPoll, Control} then "state" else "param")
    }

    /** What the task leaves in the snapshot when nobody else has touched the device since `before`. */
    ghost predicate Leaves(task: TaskSpec, answer: Answer, before: Record, out: Outcome, after: Record) {
      if out.Done? then
        match task.command
        case Connect => after.link == D.Snapshot(D.Ready, true) && !after.infoLoaded && after.address == answer.address
        case InfoLoad => after.link == D.Snapshot(D.Ready, true) && after.infoLoaded && after.address == before.address
        case StatusPoll =>
          && after.link == D.Snapshot(D.Ready, true)
          && after.infoLoaded == before.infoLoaded && after.address == before.address
        case _ => after.link == before.link && after.infoLoaded == before.infoLoaded && after.address == before.address
      else
        out.Rejected? && !task.command.Connect? ==>
          && LinkAfter(out.kind, before.link, after.link)
          && after.infoLoaded == before.infoLoaded && after.address == before.address
    }

    /** The task has run: how the worker leaves, and what the snapshot shows. */
    ghost predicate HasRun(handled: Outcome, out: Outcome)
      reads this, registry
    {
      if out.Missing? then !Present() && currentTask.Some?
      else
        && currentTask == None && Present() && Tidy() && out == Left(handled)
        && Mine().command == (if out.Done? then CommandState(None, false, "ok", "")
                              else CommandState(None, false, "error", out.kind))
        && (out.Rejected? && out.kind == "auth" ==> Mine().link == D.Snapshot(D.AuthFailed, false))
        && (out.Rejected? && out.kind in ["timeout", "network", "http", "disconnect"] ==>
              Mine().link == D.Snapshot(D.Disconnected, false))
    }

    /**
     * `execute_task`, as a worker calls it that has looked the actor up: the worker enters the actor and leaves it,
     * by steps of the runtime protocol. A held device runs connects only, and a busy actor nothing, which in a
     * run of the runtime never happens. After any other task the actor is idle again, and the snapshot shows how the
     * handler ended, unless the device was gone when it was needed: then this actor stays busy for good.
     */
    method ExecuteTask(task: TaskSpec, answer: Answer, ghost w: World)
      returns (out: Outcome, ghost handled: Outcome, ghost v: World)
      requires Valid() && Mirrors(w) && w.Worker() == R.Worker(task, R.Captured(w.actor))
      modifies this, registry
      ensures Valid() && Mirrors(v) && Follows(w, v) && v.Worker() == R.Worker(task, R.Ended(out.Done?))
      ensures R.Reaches(w.events, w.state) ==> old(currentTask.None?)
      ensures !task.command.Connect? && old(disconnectHold) ==>
                && disconnectHold && out == Done && currentTask == old(currentTask)
                && registry.snapshots == old(registry.snapshots)
      ensures (task.command.Connect? || !old(disconnectHold)) && old(currentTask.Some?) ==>
                && out == Rejected("busy") && currentTask == old(currentTask) && session == old(session)
                && disconnectHold == old(disconnectHold) && registry.snapshots == old(registry.snapshots)
      ensures (task.command.Connect? || !old(disconnectHold)) && old(currentTask.None?) ==>
                if !old(Present()) then out == Missing && currentTask == Some(task.taskId)
                else
                  && ComesTo(task, answer, old(CanServe()), handled) && HasRun(handled, out)
                  && (Registered() && !disconnectHold && Present() ==>
                        Leaves(task, answer, old(Mine()), out, Mine()))
    {
      hide R.Reaches, Valid, ComesTo, HasRun, Leaves, Follows;
      NeverEnteredBusy(w);
      var runs;
      runs, out, v := Enter(task, w);
      handled := out;
      if runs {
        ghost var u, before := v, Mine();
        out, handled, v := RunTask(task, answer, v);
        FollowsOn(w, u, v);
        SameBefore(task, answer, old(Mine()), before, out, if Present() then Mine() else before);
      }
    }

    /** The handler, and how the worker leaves. */
    method RunTask(task: TaskSpec, answer: Answer, ghost w: World)
      returns (out: Outcome, ghost handled: Outcome, ghost v: World)
      requires Valid() && Runs(w, task) && Present() && (disconnectHold ==> task.command.Connect?)
      modifies this, registry
      ensures Valid() && Mirrors(v) && Follows(w, v) && v.Worker() == R.Worker(task, R.Ended(out.Done?))
      ensures ComesTo(task, answer, old(CanServe()), handled) && HasRun(handled, out)
      ensures Registered() && !disconnectHold && Present() ==> Leaves(task, answer, old(Mine()), out, Mine())
    {
      hide R.Reaches, R.Enabled, R.Apply, Valid, Follows, Runs, HasRun;
      var result;
      if task.command.Connect? {
        result, v := HandleConnect(task, answer, w);
      } else {
        result, v := HandleOther(task, answer, w);
      }
      handled := result;
      ghost var u := v;
      out, v := Conclude(task, result, v);
      FollowsOn(w, u, v);
    }

    /** After the handler other threads run, and then the worker leaves. */
    method Conclude(task: TaskSpec, handled: Outcome, ghost w: World) returns (out: Outcome, ghost v: World)
      requires Valid() && Runs(w, task)
      modifies this, registry
      ensures Valid() && Mirrors(v) && Follows(w, v) && v.Worker() == R.Worker(task, R.Ended(out.Done?))
      ensures HasRun(handled, out)
      ensures (old(disconnectHold) ==> disconnectHold) && (Registered() ==> old(Registered()))
      ensures !out.Missing? ==> out == Left(handled)
      ensures Registered() && !disconnectHold && Present() && old(Present()) && !out.Missing? ==>
                && LinkAfter(if out.Done? then "" else out.kind, old(Mine()).link, Mine().link)
                && Mine().infoLoaded == old(Mine()).infoLoaded && Mine().address == old(Mine()).address
    {
      hide R.Reaches, R.Enabled, R.Apply, Valid, Follows;
      v := OtherThreads(w);
      ghost var t := v;
      FollowsOn(w, t, t);
      out, v := Leave(task, handled, v);
      FollowsOn(w, t, v);
    }

    lemma FollowsItself(w: World)
      ensures Follows(w, w)
    {
    }

    lemma FollowsOn(a: World, b: World, c: World)
      ensures Follows(a, b) && Follows(b, c) ==> Follows(a, c)
      ensures Follows(a, b) ==> a.actor == b.actor
      ensures Follows(b, c) ==> b.actor == c.actor
    {
    }

    lemma SameBefore(task: TaskSpec, answer: Answer, a: Record, b: Record, out: Outcome, after: Record)
      requires b == a.(command := b.command)
      ensures Leaves(task, answer, a, out, after) <==> Leaves(task, answer, b, out, after)
    {
    }

    lemma NeverEnteredBusy(w: World)
      requires Mirrors(w) && w.Worker().phase == R.Captured(w.actor)
      ensures R.Reaches(w.events, w.state) ==> currentTask.None?
    {
      hide R.Reaches;
      if R.Reaches(w.events, w.state) {
        RuntimeLaws.NeverBusy(w.events, w.state);
      }
    }
  }
}
