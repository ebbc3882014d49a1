/** The host agent that owns local model processes: requests interleave wherever the agent's
    mutex is not held. */
module HostAgent {
  import opened Basics

  datatype RunState = StartingUp | Ready | Draining | Stopped

  /** The agent's map and the processes it ever started, numbered in order.  `exited` is
      the operating system's view; `reaped` is what the agent sees, once `Wait` returned.
      `signalled` processes were interrupted, or killed when that failed. */
  datatype World = World(models: map<string, nat>, owner: seq<string>, states: seq<RunState>,
                         exited: set<nat>, reaped: set<nat>, signalled: set<nat>)

  const NoProcesses := World(map[], [], [], {}, {}, {})

  // ----- critical sections -----

  predicate Running(w: World, model: string) {
    model in w.models && w.models[model] !in w.reaped
  }

  /** The end of EnsureModel's first section: the command has started. */
  function Started(w: World, model: string): World {
    w.(models := w.models[model := |w.owner|], owner := w.owner + [model], states := w.states + [StartingUp])
  }

  function SetState(w: World, p: nat, state: RunState): World {
    if p < |w.states| then w.(states := w.states[p := state]) else w
  }

  /** After a successful probe: mark `p` ready if it is still the one tracked. */
  function Confirmed(w: World, model: string, p: nat): World {
    if model in w.models && w.models[model] == p then SetState(w, p, Ready) else w
  }

  function Drained(w: World, model: string): World {
    if model in w.models then SetState(w, w.models[model], Draining) else w
  }

  /** `stopOwned` */
  function StoppedOwned(w: World, model: string): World {
    if model !in w.models then w
    else
      var p := w.models[model];
      w.(models := w.models - {model}, signalled := if p in w.reaped then w.signalled else w.signalled + {p})
  }

  /** What a status request reports. */
  function Reported(w: World, model: string): RunState {
    if model !in w.models || w.models[model] in w.reaped || w.models[model] >= |w.states| then Stopped
    else w.states[w.models[model]]
  }

  /** What each section makes a status request report, for its own model and for every other. */
  lemma SectionsAreReported(w: World, model: string, other: string)
    requires NoOrphan(w)
    ensures !Running(w, model) ==> Reported(w, model) == Stopped
    ensures Reported(StoppedOwned(w, model), model) == Stopped
    ensures Running(w, model) ==>
              Reported(Drained(w, model), model) == Draining &&
              Reported(Confirmed(w, model, w.models[model]), model) == Ready
    ensures forall p: nat :: model !in w.models || w.models[model] != p ==> Confirmed(w, model, p) == w
    ensures |w.owner| !in w.reaped ==> Reported(Started(w, model), model) == StartingUp
    ensures other != model ==>
              Reported(StoppedOwned(w, model), other) == Reported(w, other) &&
              Reported(Drained(w, model), other) == Reported(w, other) &&
              Reported(Started(w, model), other) == Reported(w, other) &&
              forall p: nat :: Reported(Confirmed(w, model, p), other) == Reported(w, other)
  {
    if other != model && other in w.models && model in w.models {
      assert w.owner[w.models[other]] == other && w.owner[w.models[model]] == model;
    }
  }

  /** The agent, its sections as methods. */
  class Agent {
    var models: map<string, nat>
    var owner: seq<string>
    var states: seq<RunState>
    var exited: set<nat>
    var reaped: set<nat>
    var signalled: set<nat>

    function Now(): World
      reads this
    {
      World(models, owner, states, exited, reaped, signalled)
    }

    ghost predicate Valid()
      reads this
    {
      NoOrphan(Now())
    }

    constructor ()
      ensures Valid() && Now() == NoProcesses
    {
      models, owner, states, exited, reaped, signalled := map[], [], [], {}, {}, {};
    }

    /** EnsureModel up to its first unlock: the process to probe, or the one it started, or
        neither because the port answers already or the start failed. */
    method Ensure(model: string, portReady: bool, startFails: bool) returns (probe: Option<nat>, started: Option<nat>)
      requires Valid()
      modifies this
      ensures Valid()
      ensures probe == if Running(old(Now()), model) then Some(old(models)[model]) else None
      ensures started == if Running(old(Now()), model) || portReady || startFails then None else Some(|old(owner)|)
      ensures Now() == if started.Some? then Started(old(Now()), model) else old(Now())
    {
      probe, started := None, None;
      if model in models && models[model] !in reaped {
        probe := Some(models[model]);
        return;
      }
      if portReady || startFails { return; }
      StartKeeps(Now(), model);
      started := Some(|owner|);
      models := models[model := |owner|];
      owner := owner + [model];
      states := states + [StartingUp];
    }

    /** The section after a probe or a poll found the endpoint ready. */
    method Confirm(model: string, p: nat) returns (same: bool)
      requires Valid()
      modifies this`states
      ensures Valid() && Now() == Confirmed(old(Now()), model, p)
      ensures same <==> model in models && models[model] == p
    {
      ghost var before := Now();
      same := model in models && models[model] == p;
      if same && p < |states| {
        states := states[p := Ready];
      }
      StatesOnly(before, Now());
    }

    method Drain(model: string)
      requires Valid()
      modifies this`states
      ensures Valid() && Now() == Drained(old(Now()), model)
    {
      ghost var before := Now();
      if model in models && models[model] < |states| {
        states := states[models[model] := Draining];
      }
      StatesOnly(before, Now());
    }

    /** GetModelStatus: a process that was reaped is reported, and noted, as stopped. */
    method Status(model: string) returns (state: RunState)
      requires Valid()
      modifies this`states
      ensures Valid()
      ensures Now() == if model in models && models[model] in reaped then SetState(old(Now()), models[model], Stopped)
                       else old(Now())
      ensures state == Reported(old(Now()), model)
    {
      if model !in models { return Stopped; }
      ghost var before := Now();
      if models[model] in reaped {
        states := states[models[model] := Stopped];
      }
      StatesOnly(before, Now());
      return states[models[model]];
    }

    method StopOwned(model: string)
      requires Valid()
      modifies this
      ensures Valid() && Now() == StoppedOwned(old(Now()), model)
    {
      StopKeeps(Now(), model);
      if model in models {
        var p := models[model];
        models := models - {model};
        if p !in reaped {
          signalled := signalled + {p};
        }
      }
    }

    /** StopAll with no other request in between: the models tracked at its snapshot, in
        whatever order the map gives them, are stopped one by one, and none is left. */
    method StopAll()
      requires Valid()
      modifies this
      ensures Valid() && models == map[]
    {
      var ids: seq<string> := [];
      var rest := models.Keys;
      while rest != {}
        invariant rest <= models.Keys && models == old(models) && Valid()
        invariant forall m :: m in models ==> m in ids || m in rest
        decreases |rest|
      {
        var m :| m in rest;
        ids := ids + [m];
        rest := rest - {m};
      }
      StopEach(ids);
      assert forall m :: m !in models;
    }

    /** Stop a list of models, one section each, as StopAll does after its snapshot. */
    method StopEach(ids: seq<string>)
      requires Valid()
      modifies this
      ensures Valid() && forall m :: m in ids ==> m !in models
      ensures forall m :: m in old(models) && m !in ids ==> m in models && models[m] == old(models)[m]
      ensures models.Keys <= old(models).Keys
    {
      var i := 0;
      while i < |ids|
        invariant 0 <= i <= |ids| && Valid() && models.Keys <= old(models).Keys
        invariant forall m :: m in ids[..i] ==> m !in models
        invariant forall m :: m in old(models) && m !in ids[..i] ==> m in models && models[m] == old(models)[m]
      {
        StopOwned(ids[i]);
        i := i + 1;
      }
    }
  }

  // ----- ownership -----

  predicate Gone(w: World, p: nat) {
    p in w.exited || p in w.signalled
  }

  predicate Tracked(w: World, p: nat) {
    p < |w.owner| && w.owner[p] in w.models && w.models[w.owner[p]] == p
  }

  /** Every process ever started is tracked, under its own model, or has exited, or has been
      signalled. */
  ghost predicate NoOrphan(w: World) {
    |w.states| == |w.owner| && w.reaped <= w.exited &&
    (forall m :: m in w.models ==> w.models[m] < |w.owner| && w.owner[w.models[m]] == m) &&
    (forall p: nat :: p < |w.owner| ==> Tracked(w, p) || Gone(w, p)) &&
    (forall p :: p in w.exited || p in w.signalled ==> p < |w.owner|)
  }

  /** So at most one process per model is neither gone nor told to go. */
  lemma OneServing(w: World, p: nat, q: nat)
    requires NoOrphan(w) && p < |w.owner| && q < |w.owner| && w.owner[p] == w.owner[q]
    requires !Gone(w, p) && !Gone(w, q)
    ensures p == q
  {
    assert Tracked(w, p) && Tracked(w, q);
  }

  lemma StatesOnly(w: World, w': World)
    requires NoOrphan(w) && w' == w.(states := w'.states) && |w'.states| == |w.states|
    ensures NoOrphan(w')
  {
    assert forall p: nat :: Tracked(w', p) == Tracked(w, p) && Gone(w', p) == Gone(w, p);
  }

  lemma StartKeeps(w: World, model: string)
    requires NoOrphan(w) && !Running(w, model)
    ensures NoOrphan(Started(w, model))
  {
    var w' := Started(w, model);
    forall p: nat | p < |w'.owner| ensures Tracked(w', p) || Gone(w', p) {
      if p < |w.owner| { assert Tracked(w, p) || Gone(w, p); }
    }
  }

  lemma StopKeeps(w: World, model: string)
    requires NoOrphan(w)
    ensures NoOrphan(StoppedOwned(w, model))
  {
    var w' := StoppedOwned(w, model);
    forall p: nat | p < |w'.owner| ensures Tracked(w', p) || Gone(w', p) {
      assert Tracked(w, p) || Gone(w, p);
    }
  }

  /** A stop signals the model's tracked process if that was not reaped, and no other. */
  lemma SignalledIff(w: World, model: string, p: nat)
    requires NoOrphan(w) && p < |w.owner|
    ensures p in StoppedOwned(w, model).signalled <==>
              p in w.signalled || (Tracked(w, p) && w.owner[p] == model && p !in w.reaped)
  {
  }

  // ----- requests -----

  /** Where a request stands between its critical sections. */
  datatype Request =
    | Ensuring(model: string)
    | Probing(model: string, process: nat)
    | Waiting(model: string, process: nat)
    | TimedOut(model: string, process: nat)
    | StoppingAll(ids: seq<string>, targets: set<nat>)
    | Done

  datatype System = System(world: World, requests: map<nat, Request>)

  datatype Step =
    | Arrive(id: nat, model: string)
    | StartEnsure(id: nat, portReady: bool, startFails: bool)
    | ProbeAnswered(id: nat, ready: bool)
    | PollAnswered(id: nat)
    | PollTimedOut(id: nat)
    | PollCancelled(id: nat)
    | StopAfterTimeout(id: nat)
    | DrainModel(model: string)
    | StopModel(model: string)
    | ArriveStopAll(id: nat, ids: seq<string>)
    | StopNext(id: nat)
    | Exit(process: nat)
    | Reap(process: nat)

  function At(s: System, id: nat, request: Request, w: World): System {
    System(w, s.requests[id := request])
  }

  function RequestOf(s: System, id: nat): Request {
    if id in s.requests then s.requests[id] else Done
  }

  /** Every step is one critical section, or something outside the agent. */
  function Next(s: System, step: Step): Option<System> {
    var w := s.world;
    match step
    case Arrive(id, model) => if RequestOf(s, id) != Done then None else Some(At(s, id, Ensuring(model), w))
    case StartEnsure(id, portReady, startFails) =>
      (match RequestOf(s, id)
       case Ensuring(model) =>
         if Running(w, model) then Some(At(s, id, Probing(model, w.models[model]), w))
         else if portReady || startFails then Some(At(s, id, Done, w))
         else Some(At(s, id, Waiting(model, |w.owner|), Started(w, model)))
       case _ => None)
    case ProbeAnswered(id, ready) =>
      (match RequestOf(s, id)
       case Probing(model, p) => Some(At(s, id, Done, if ready then Confirmed(w, model, p) else w))
       case _ => None)
    case PollAnswered(id) =>
      (match RequestOf(s, id)
       case Waiting(model, p) => Some(At(s, id, Done, Confirmed(w, model, p)))
       case _ => None)
    case PollTimedOut(id) =>
      (match RequestOf(s, id)
       case Waiting(model, p) => Some(At(s, id, TimedOut(model, p), w))
       case _ => None)
    case PollCancelled(id) =>
      (match RequestOf(s, id)
       case Waiting(model, p) => Some(At(s, id, Done, w))
       case _ => None)
    case StopAfterTimeout(id) =>
      (match RequestOf(s, id)
       case TimedOut(model, p) => Some(At(s, id, Done, StoppedOwned(w, model)))
       case _ => None)
    case DrainModel(model) => Some(s.(world := Drained(w, model)))
    case StopModel(model) => Some(s.(world := StoppedOwned(w, model)))
    // the snapshot is the tracked models, in whatever order the map gives them
    case ArriveStopAll(id, ids) =>
      if RequestOf(s, id) != Done || (exists m :: m in w.models && m !in ids) then None
      else Some(At(s, id, StoppingAll(ids, set m | m in w.models :: w.models[m]), w))
    case StopNext(id) =>
      (match RequestOf(s, id)
       case StoppingAll(ids, targets) =>
         if ids == [] then Some(At(s, id, Done, w))
         else Some(At(s, id, StoppingAll(ids[1..], targets), StoppedOwned(w, ids[0])))
       case _ => None)
    case Exit(p) => if p >= |w.owner| then None else Some(s.(world := w.(exited := w.exited + {p})))
    case Reap(p) => if p !in w.exited then None else Some(s.(world := w.(reaped := w.reaped + {p})))
  }

  /** StopAll still has every process of its snapshot that is not gone before it. */
  ghost predicate RequestOk(w: World, r: Request) {
    match r
    case StoppingAll(ids, targets) =>
      forall p :: p in targets ==> p < |w.owner| && (Gone(w, p) || w.owner[p] in ids)
    case Waiting(model, p) => p < |w.owner| && w.owner[p] == model
    case TimedOut(model, p) => p < |w.owner| && w.owner[p] == model
    case _ => true
  }

  ghost predicate SystemOk(s: System) {
    NoOrphan(s.world) && forall id :: id in s.requests ==> RequestOk(s.world, s.requests[id])
  }

  /** Processes are never forgotten, nor their ends. */
  predicate Later(a: World, b: World) {
    a.owner <= b.owner && a.exited <= b.exited && a.signalled <= b.signalled
  }

  lemma StoppedIsGone(w: World, model: string, p: nat)
    requires NoOrphan(w) && p < |w.owner| && w.owner[p] == model
    ensures Gone(StoppedOwned(w, model), p)
  {
    assert Tracked(w, p) || Gone(w, p);
  }

  lemma StepKeepsOk(s: System, step: Step)
    requires SystemOk(s) && Next(s, step).Some?
    ensures SystemOk(Next(s, step).value) && Later(s.world, Next(s, step).value.world)
  {
    var w, s' := s.world, Next(s, step).value;
    WorldKept(s, step);
    forall id | id in s'.requests ensures RequestOk(s'.world, s'.requests[id]) {
      if id in s.requests { assert RequestOk(w, s.requests[id]); }
      if step == StopNext(id) && RequestOf(s, id).ids != [] { SnapshotShrinks(s, id); }
    }
  }

  lemma SnapshotShrinks(s: System, id: nat)
    requires SystemOk(s) && RequestOf(s, id).StoppingAll? && RequestOf(s, id).ids != []
    ensures var s' := Next(s, StopNext(id)).value; RequestOk(s'.world, s'.requests[id])
  {
    var ids, targets := RequestOf(s, id).ids, RequestOf(s, id).targets;
    var w' := StoppedOwned(s.world, ids[0]);
    assert RequestOk(s.world, s.requests[id]);
    forall p | p in targets ensures Gone(w', p) || w'.owner[p] in ids[1..] {
      if s.world.owner[p] == ids[0] { StoppedIsGone(s.world, ids[0], p); }
    }
  }

  lemma WorldKept(s: System, step: Step)
    requires NoOrphan(s.world) && Next(s, step).Some?
    ensures NoOrphan(Next(s, step).value.world) && Later(s.world, Next(s, step).value.world)
  {
    var w, w' := s.world, Next(s, step).value.world;
    match step {
      case StartEnsure(id, _, _) =>
        if RequestOf(s, id).Ensuring? && !Running(w, RequestOf(s, id).model) { StartKeeps(w, RequestOf(s, id).model); }
      case StopAfterTimeout(id) => StopKeeps(w, RequestOf(s, id).model);
      case StopModel(model) => StopKeeps(w, model);
      case StopNext(id) =>
        if RequestOf(s, id).ids != [] { StopKeeps(w, RequestOf(s, id).ids[0]); }
      case _ =>
        forall p: nat | p < |w'.owner| ensures Tracked(w', p) || Gone(w', p) {
          assert Tracked(w, p) || Gone(w, p);
        }
    }
  }

  ghost predicate IsRun(run: seq<System>, steps: seq<Step>) {
    |run| == |steps| + 1 && run[0] == System(NoProcesses, map[]) &&
    forall i {:trigger Next(run[i], steps[i])} :: 0 <= i < |steps| ==> Next(run[i], steps[i]) == Some(run[i + 1])
  }

  lemma {:induction false} RunIsOk(run: seq<System>, steps: seq<Step>, i: nat)
    requires IsRun(run, steps) && i < |run|
    ensures SystemOk(run[i])
  {
    if i > 0 {
      RunIsOk(run, steps, i - 1);
      assert Next(run[i - 1], steps[i - 1]) == Some(run[i - 1 + 1]);
      StepKeepsOk(run[i - 1], steps[i - 1]);
    }
  }

  /** Over every interleaving of EnsureModel, Drain, Stop and StopAll, no process is left
      running untracked and unsignalled, and each model has at most one that is. */
  lemma NoProcessOrphaned(run: seq<System>, steps: seq<Step>, p: nat)
    requires IsRun(run, steps) && p < |run[|steps|].world.owner|
    ensures var w := run[|steps|].world;
            (Tracked(w, p) || Gone(w, p)) &&
            forall q: nat :: q < |w.owner| && w.owner[q] == w.owner[p] && !Gone(w, p) && !Gone(w, q) ==> q == p
  {
    RunIsOk(run, steps, |steps|);
    var w := run[|steps|].world;
    forall q: nat | q < |w.owner| && w.owner[q] == w.owner[p] && !Gone(w, p) && !Gone(w, q) ensures q == p {
      OneServing(w, p, q);
    }
  }

  /** When StopAll is through its snapshot, every process that was tracked when it took it
      has exited or been signalled, whatever was started or stopped meanwhile. */
  lemma StopAllStopsSnapshot(run: seq<System>, steps: seq<Step>, id: nat, p: nat)
    requires IsRun(run, steps) && id in run[|steps|].requests
    requires run[|steps|].requests[id].StoppingAll? && run[|steps|].requests[id].ids == []
    requires p in run[|steps|].requests[id].targets
    ensures Gone(run[|steps|].world, p)
  {
    RunIsOk(run, steps, |steps|);
    assert RequestOk(run[|steps|].world, run[|steps|].requests[id]);
  }

  // ----- how long a process stays tracked -----

  /** The steps after which a tracked process of `model` is not tracked any more: a stop of
      that model, or a later start of it. */
  predicate Displaces(s: System, step: Step, model: string) {
    match step
    case StopModel(stopped) => stopped == model
    case StopNext(id) => RequestOf(s, id).StoppingAll? && RequestOf(s, id).ids != [] && RequestOf(s, id).ids[0] == model
    case StopAfterTimeout(id) => RequestOf(s, id).TimedOut? && RequestOf(s, id).model == model
    case StartEnsure(id, portReady, startFails) =>
      RequestOf(s, id) == Ensuring(model) && !Running(s.world, model) && !portReady && !startFails
    case _ => false
  }

  lemma TrackedStep(s: System, step: Step, s': System, p: nat)
    requires p < |s.world.owner| && Next(s, step) == Some(s')
    ensures p < |s'.world.owner| && s'.world.owner[p] == s.world.owner[p]
    ensures Tracked(s'.world, p) <==> Tracked(s.world, p) && !Displaces(s, step, s.world.owner[p])
  {
  }

  /** A process that is tracked stays so until the first step that displaces it, and is never
      tracked again. */
  lemma {:induction false} TrackedUntilDisplaced(run: seq<System>, steps: seq<Step>, k: nat, n: nat, p: nat)
    requires IsRun(run, steps) && k <= n < |run| && p < |run[k].world.owner|
    ensures p < |run[n].world.owner| && run[n].world.owner[p] == run[k].world.owner[p]
    ensures Tracked(run[n].world, p) <==>
              Tracked(run[k].world, p) &&
              forall j :: k <= j < n ==> !Displaces(run[j], steps[j], run[k].world.owner[p])
    decreases n
  {
    if k < n {
      TrackedUntilDisplaced(run, steps, k, n - 1, p);
      assert Next(run[n - 1], steps[n - 1]) == Some(run[n - 1 + 1]);
      TrackedStep(run[n - 1], steps[n - 1], run[n], p);
    }
  }

  /** Step `k` starts process `p` for `model`. */
  predicate StartsAt(run: seq<System>, steps: seq<Step>, k: nat, p: nat, model: string)
    requires k < |steps| && |run| == |steps| + 1
  {
    steps[k].StartEnsure? && p == |run[k].world.owner| && p < |run[k + 1].world.owner| &&
    RequestOf(run[k + 1], steps[k].id) == Waiting(model, p)
  }

  /** A timed-out EnsureModel stops whatever process its model has by then.  It stops the one
      it started, if and only if between the start and the timeout no other stop and no later
      start of that model came in between. */
  lemma TimeoutStopsOwnIff(run: seq<System>, steps: seq<Step>, k: nat, n: nat, p: nat, model: string)
    requires IsRun(run, steps) && k < n < |steps| && StartsAt(run, steps, k, p, model)
    requires steps[n].StopAfterTimeout? && RequestOf(run[n], steps[n].id) == TimedOut(model, p)
    ensures Tracked(run[n].world, p) && !Tracked(run[n + 1].world, p) <==>
              forall j :: k < j < n ==> !Displaces(run[j], steps[j], model)
    ensures Tracked(run[n].world, p) ==> p in run[n].world.reaped || p in run[n + 1].world.signalled
  {
    assert Next(run[k], steps[k]) == Some(run[k + 1]);
    assert Tracked(run[k + 1].world, p) && run[k + 1].world.owner[p] == model;
    TrackedUntilDisplaced(run, steps, k + 1, n, p);
    assert Next(run[n], steps[n]) == Some(run[n + 1]);
    TrackedStep(run[n], steps[n], run[n + 1], p);
  }

  /** Go on with a run by one more step. */
  lemma Go(run: seq<System>, steps: seq<Step>, step: Step) returns (run': seq<System>, steps': seq<Step>, s': System)
    requires IsRun(run, steps) && Next(run[|steps|], step).Some?
    ensures IsRun(run', steps') && s' == Next(run[|steps|], step).value
    ensures |steps'| == |steps| + 1 && run'[|steps'|] == s' && run'[|steps|] == run[|steps|] && steps'[|steps|] == step
  {
    s' := Next(run[|steps|], step).value;
    run', steps' := run + [s'], steps + [step];
    forall i | 0 <= i < |steps'| ensures Next(run'[i], steps'[i]) == Some(run'[i + 1]) {
      if i < |steps| { assert Next(run[i], steps[i]) == Some(run[i + 1]); }
    }
  }

  /** And another one otherwise: a second start can fall to the first one's timeout. */
  lemma TimeoutStopsAnother(model: string)
    ensures exists run: seq<System>, steps: seq<Step> ::
              IsRun(run, steps) && |steps| > 0 && steps[|steps| - 1] == StopAfterTimeout(0) &&
              RequestOf(run[|steps| - 1], 0) == TimedOut(model, 0) &&
              Tracked(run[|steps| - 1].world, 1) && !Tracked(run[|steps|].world, 1)
  {
    var run, steps, s := StartedAndStopped(model);
    run, steps, s := StartedAgain(run, steps, s, model);
    run, steps, s := Go(run, steps, PollTimedOut(0));
    assert RequestOf(s, 0) == TimedOut(model, 0) && Tracked(s.world, 1);
    run, steps, s := Go(run, steps, StopAfterTimeout(0));
    assert !Tracked(s.world, 1);
  }

  lemma StartedAndStopped(model: string) returns (run: seq<System>, steps: seq<Step>, s: System)
    ensures IsRun(run, steps) && run[|steps|] == s
    ensures RequestOf(s, 0) == Waiting(model, 0) && RequestOf(s, 1) == Done
    ensures s.world.models == map[] && s.world.owner == [model]
  {
    run, steps, s := [System(NoProcesses, map[])], [], System(NoProcesses, map[]);
    run, steps, s := Go(run, steps, Arrive(0, model));
    run, steps, s := Go(run, steps, StartEnsure(0, false, false));
    assert RequestOf(s, 0) == Waiting(model, 0) && s.world == Started(NoProcesses, model);
    run, steps, s := Go(run, steps, StopModel(model));
  }

  lemma StartedAgain(run: seq<System>, steps: seq<Step>, s: System, model: string)
      returns (run': seq<System>, steps': seq<Step>, s': System)
    requires IsRun(run, steps) && run[|steps|] == s
    requires RequestOf(s, 0) == Waiting(model, 0) && RequestOf(s, 1) == Done
    requires s.world.models == map[] && s.world.owner == [model]
    ensures IsRun(run', steps') && run'[|steps'|] == s'
    ensures RequestOf(s', 0) == Waiting(model, 0)
    ensures s'.world.models == map[model := 1] && s'.world.owner == [model, model]
  {
    run', steps', s' := Go(run, steps, Arrive(1, model));
    assert RequestOf(s', 1) == Ensuring(model) && s'.world == s.world;
    run', steps', s' := Go(run', steps', StartEnsure(1, false, false));
  }
}
