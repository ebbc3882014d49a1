/** Building runs step by step, under guards: what a run must respect about one entry.  The
    pieces of a job's life from its admission to its terminal event. */
module ProtocolRuns {
  import opened Basics
  import opened QuotaBook
  import opened Protocol

  /** Nothing but one engine and one request changed, and no time passed. */
  ghost predicate Untouched(a: State, b: State, e: nat, request: nat) {
    b.fronts == a.fronts && (forall f :: f != e ==> PcOf(b, f) == PcOf(a, f)) &&
    b.store.quota.now == a.store.quota.now && b.store.stream == a.store.stream &&
    b.store.cursor == a.store.cursor && b.store.pending == a.store.pending && b.store.acked == a.store.acked &&
    b.store.deliveries == a.store.deliveries &&
    (forall r: nat :: r != request ==> Log(b.store, r) == Log(a.store, r)) &&
    (forall r :: r != request ==> LeaseLive(b.store, r) == LeaseLive(a.store, r)) &&
    (forall r :: r != request ==> StatusOf(b.store, r) == StatusOf(a.store, r))
  }

  lemma MoveUntouched(cfg: Config, s: State, e: nat, step: Step)
    requires PcOf(s, e) != Idle && !PcOf(s, e).Acking? && Next(cfg, s, EngineStep(e, step)).Some?
    ensures Untouched(s, Next(cfg, s, EngineStep(e, step)).value, e, PcOf(s, e).job.request)
  {
    var move := Moved(cfg, s.store, e, PcOf(s, e), step).value;
    assert move.command != Pass ==> !move.command.HandOut? && !move.command.AddJob?;
  }

  // ----- guards -----

  /** An engine that was handed an entry and has not yet appended its terminal event. */
  predicate Serves(pc: Pc, entry: nat) {
    pc != Idle && !pc.Marking? && !pc.Acking? && pc.entry == entry
  }

  /** InTime: the job is never found past its deadline.  Alone: its entry is handed out only
      while no engine serves it.  Noticed: once its terminal event is in the log, an engine
      that looks at the status finds it completed. */
  datatype Guard = InTime | Alone | Noticed

  const AllGuards: set<Guard> := {InTime, Alone, Noticed}

  lemma EveryGuard(g: Guard)
    ensures g in AllGuards
  {
    assert g == InTime || g == Alone || g == Noticed;
  }

  predicate HandsOut(s: State, step: Step, entry: nat) {
    (step == Deliver && s.store.cursor == entry) || step == Reclaim(entry)
  }

  ghost predicate Kept(g: Guard, s: State, a: Action, entry: nat) {
    a.EngineStep? ==>
      var pc := PcOf(s, a.engine);
      match g
      case InTime => pc.Starting? && pc.entry == entry && a.step == Advance ==> !PastDeadline(s.store, pc.job)
      case Alone => HandsOut(s, a.step, entry) ==> forall e :: !Serves(PcOf(s, e), entry)
      case Noticed =>
        pc.Inspecting? && pc.entry == entry && a.step == Advance && HasTerminal(s.store, pc.job.request) ==>
          ShowsCompleted(s.store, pc.job.request)
  }

  /** A path that keeps these guards about `entry`. */
  ghost predicate Guarded(run: seq<State>, actions: seq<Action>, entry: nat, gs: set<Guard>) {
    |run| == |actions| + 1 &&
    forall i, g :: 0 <= i < |actions| && g in gs ==> Kept(g, run[i], actions[i], entry)
  }

  // ----- growing a run -----

  datatype Trace = Trace(run: seq<State>, actions: seq<Action>)

  function Last(t: Trace): State
    requires t.run != []
  {
    t.run[|t.run| - 1]
  }

  /** A run that respects the guards about entry 0 and ends in `s`. */
  ghost predicate Leads(cfg: Config, gs: set<Guard>, t: Trace, s: State) {
    IsRun(cfg, t.run, t.actions) && Guarded(t.run, t.actions, 0, gs) && Last(t) == s
  }

  lemma StartsOff(cfg: Config, gs: set<Guard>) returns (t: Trace)
    ensures Leads(cfg, gs, t, Initial)
  {
    t := Trace([Initial], []);
  }

  lemma LeadsReachable(cfg: Config, gs: set<Guard>, t: Trace, s: State)
    requires Leads(cfg, gs, t, s)
    ensures Reachable(cfg, s)
  {
    assert IsRun(cfg, t.run, t.actions) && t.run[|t.actions|] == s;
  }

  lemma Go(cfg: Config, gs: set<Guard>, t: Trace, s: State, a: Action) returns (t': Trace, s': State)
    requires Leads(cfg, gs, t, s) && Next(cfg, s, a).Some?
    requires forall g :: g in gs ==> Kept(g, s, a, 0)
    ensures s' == Next(cfg, s, a).value && Leads(cfg, gs, t', s')
  {
    s' := Next(cfg, s, a).value;
    t' := Trace(t.run + [s'], t.actions + [a]);
    PathGoesOn(cfg, t.run, t.actions, a, s');
    forall i, g | 0 <= i < |t'.actions| && g in gs ensures Kept(g, t'.run[i], t'.actions[i], 0) {
      if i < |t.actions| { assert Kept(g, t.run[i], t.actions[i], 0); }
    }
  }

  lemma PathGoesOn(cfg: Config, run: seq<State>, actions: seq<Action>, a: Action, s': State)
    requires IsPath(cfg, run, actions) && Next(cfg, run[|actions|], a) == Some(s')
    ensures IsPath(cfg, run + [s'], actions + [a])
  {
    var run', actions' := run + [s'], actions + [a];
    forall i | 0 <= i < |actions'| ensures Next(cfg, run'[i], actions'[i]) == Some(run'[i + 1]) {
      if i < |actions| { assert Next(cfg, run[i], actions[i]) == Some(run[i + 1]); }
    }
  }

  /** A step of engine `e` in the middle of its job, which no guard is about. */
  lemma Proceeds(cfg: Config, gs: set<Guard>, t: Trace, s: State, e: nat, step: Step) returns (t': Trace, s': State)
    requires Leads(cfg, gs, t, s) && PcOf(s, e) != Idle && !PcOf(s, e).Acking?
    requires !PcOf(s, e).Starting? && !PcOf(s, e).Inspecting?
    requires Moved(cfg, s.store, e, PcOf(s, e), step).Some?
    ensures Leads(cfg, gs, t', s') && Untouched(s, s', e, PcOf(s, e).job.request)
    ensures var move := Moved(cfg, s.store, e, PcOf(s, e), step).value;
            PcOf(s', e) == move.pc && s'.store == Exec(cfg, s.store, move.command)
  {
    var a := EngineStep(e, step);
    assert Next(cfg, s, a).Some?;
    assert forall g :: g in gs ==> Kept(g, s, a, 0) by { InsideIsFree(cfg, s, e, step); }
    MoveUntouched(cfg, s, e, step);
    t', s' := Go(cfg, gs, t, s, a);
  }

  lemma InsideIsFree(cfg: Config, s: State, e: nat, step: Step)
    requires PcOf(s, e) != Idle && !PcOf(s, e).Starting? && !PcOf(s, e).Inspecting?
    requires Moved(cfg, s.store, e, PcOf(s, e), step).Some?
    ensures forall g :: Kept(g, s, EngineStep(e, step), 0)
  {
    assert step != Deliver && !step.Reclaim?;
  }

  // ----- a job's life -----

  /** The tokens the example request reserves. */
  const Reservation: nat := 9

  /** Admitted, dispatched with or without the reply, and delivered to engine 0. */
  lemma Delivered(cfg: Config, gs: set<Guard>, timeout: nat, reported: bool) returns (t: Trace, s: State)
    ensures Leads(cfg, gs, t, s)
    ensures var job := Job(0, 0, timeout);
            PcOf(s, 0) == Starting(0, job) && (forall e :: e != 0 ==> PcOf(s, e) == Idle) && s.store.stream == [job] &&
            s.fronts == [if reported then Queueing(job) else CallingOff(job)]
    ensures s.store.quota.now == 0 && s.store.logs == map[] && s.store.leases == map[] && s.store.statuses == map[]
    ensures s.store.pending == map[0 := 0] && Deliveries(s.store, 0) == 1 && s.store.attempts == 0
    ensures s.store.quota.book == [Entry(Bucket("key", 0), 0, Reservation, 0, Reserved)]
  {
    t := StartsOff(cfg, gs);
    var admit;
    admit, s := AdmitFirst(cfg, Initial, Bucket("key", 0), Reservation, Each(Reservation), timeout);
    t, s := Go(cfg, gs, t, Initial, admit);
    t, s := Dispatched(cfg, gs, t, s, reported);
    t, s := FirstDelivery(cfg, gs, t, s);
  }

  lemma Dispatched(cfg: Config, gs: set<Guard>, t: Trace, s: State, reported: bool) returns (t': Trace, s': State)
    requires Leads(cfg, gs, t, s) && |s.fronts| == 1 && s.fronts[0].Dispatching? && s.store.stream == []
    ensures Leads(cfg, gs, t', s')
    ensures var job := s.fronts[0].job;
            s' == s.(store := s.store.(stream := [job]),
                     fronts := [if reported then Queueing(job) else CallingOff(job)])
  {
    var job := s.fronts[0].job;
    t', s' := Go(cfg, gs, t, s, Dispatch(0, reported));
    assert s.fronts[0 := if reported then Queueing(job) else CallingOff(job)]
        == [if reported then Queueing(job) else CallingOff(job)];
    assert [] + [job] == [job];
  }

  lemma FirstDelivery(cfg: Config, gs: set<Guard>, t: Trace, s: State) returns (t': Trace, s': State)
    requires Leads(cfg, gs, t, s) && s.engines == map[] && |s.store.stream| == 1 && s.store.cursor == 0
    requires s.store.pending == map[] && s.store.deliveries == map[]
    ensures Leads(cfg, gs, t', s')
    ensures s'.fronts == s.fronts && s'.engines == map[0 := Starting(0, s.store.stream[0])]
    ensures s'.store.pending == map[0 := s.store.quota.now] && Deliveries(s'.store, 0) == 1
    ensures s'.store == s.store.(pending := s'.store.pending, deliveries := s'.store.deliveries, cursor := 1)
  {
    t', s' := Go(cfg, gs, t, s, EngineStep(0, Deliver));
  }

  /** The two looks at a job that is in time and not completed. */
  lemma LooksAt(cfg: Config, gs: set<Guard>, t: Trace, s: State, e: nat, job: Job) returns (t': Trace, s': State)
    requires Leads(cfg, gs, t, s) && PcOf(s, e) == Starting(0, job) && job.request == 0
    requires !PastDeadline(s.store, job) && !ShowsCompleted(s.store, 0)
    requires Noticed in gs ==> !HasTerminal(s.store, 0)
    ensures Leads(cfg, gs, t', s') && PcOf(s', e) == Acquiring(0, job)
    ensures Untouched(s, s', e, 0) && s'.store == s.store
  {
    MoveUntouched(cfg, s, e, Advance);
    t', s' := Go(cfg, gs, t, s, EngineStep(e, Advance));
    assert PcOf(s', e) == Inspecting(0, job) && s'.store == s.store;
    MoveUntouched(cfg, s', e, Advance);
    t', s' := Go(cfg, gs, t', s', EngineStep(e, Advance));
  }

  /** An engine takes the lease and opens its attempt. */
  lemma Opens(cfg: Config, gs: set<Guard>, t: Trace, s: State, e: nat, job: Job) returns (t': Trace, s': State)
    requires Leads(cfg, gs, t, s) && PcOf(s, e) == Acquiring(0, job) && job.request == 0 && !LeaseLive(s.store, 0)
    ensures Leads(cfg, gs, t', s') && Untouched(s, s', e, 0)
    ensures PcOf(s', e) == Working(0, job, s.store.attempts, Streaming, Replying(s.store.quota.now + cfg.reply, 0))
    ensures Log(s'.store, 0) == Log(s.store, 0) + [Event(Attempt(s.store.attempts), Started)]
    ensures 0 in s'.store.leases && s'.store.leases[0] == Lease(s.store.attempts, s.store.quota.now + cfg.lease)
    ensures s'.store.attempts == s.store.attempts + 1 && !ShowsCompleted(s'.store, 0) && s'.store.quota == s.store.quota
  {
    t', s' := Proceeds(cfg, gs, t, s, e, Advance);
    t', s' := Begins(cfg, gs, t', s', e);
  }

  lemma Begins(cfg: Config, gs: set<Guard>, t: Trace, s: State, e: nat) returns (t': Trace, s': State)
    requires Leads(cfg, gs, t, s) && PcOf(s, e).Working? && PcOf(s, e).stage == Fresh && PcOf(s, e).job.request == 0
    ensures Leads(cfg, gs, t', s') && Untouched(s, s', e, 0)
    ensures var pc := PcOf(s, e);
            PcOf(s', e) == pc.(stage := Streaming) &&
            Log(s'.store, 0) == Log(s.store, 0) + [Event(Attempt(pc.attempt), Started)]
    ensures s'.store == s.store.(logs := s'.store.logs, statuses := s'.store.statuses) && !ShowsCompleted(s'.store, 0)
  {
    t', s' := Proceeds(cfg, gs, t, s, e, Begin);
    t', s' := Proceeds(cfg, gs, t', s', e, Note);
  }

  /** A token of a streaming attempt, appended and noted. */
  lemma Emits(cfg: Config, gs: set<Guard>, t: Trace, s: State, e: nat, text: string, cumulative: nat)
      returns (t': Trace, s': State)
    requires Leads(cfg, gs, t, s) && PcOf(s, e).Working? && PcOf(s, e).stage == Streaming && PcOf(s, e).job.request == 0
    ensures Leads(cfg, gs, t', s') && Untouched(s, s', e, 0) && PcOf(s', e) == PcOf(s, e)
    ensures Log(s'.store, 0) == Log(s.store, 0) + [Event(Attempt(PcOf(s, e).attempt), Token(text, cumulative))]
    ensures s'.store == s.store.(logs := s'.store.logs, statuses := s'.store.statuses)
    ensures 0 < cfg.activeTtl ==> StatusOf(s'.store, 0).Some? && StatusOf(s'.store, 0).value.phase == Running
  {
    t', s' := Proceeds(cfg, gs, t, s, e, Emit(text, cumulative));
    t', s' := Proceeds(cfg, gs, t', s', e, Note);
  }

  /** An engine that was handed entry 0 looks at it and opens its attempt. */
  lemma Attempts(cfg: Config, gs: set<Guard>, t: Trace, s: State, e: nat, job: Job) returns (t': Trace, s': State)
    requires Leads(cfg, gs, t, s) && PcOf(s, e) == Starting(0, job) && job.request == 0
    requires !PastDeadline(s.store, job) && !ShowsCompleted(s.store, 0) && !LeaseLive(s.store, 0)
    requires Noticed in gs ==> !HasTerminal(s.store, 0)
    ensures Leads(cfg, gs, t', s') && Untouched(s, s', e, 0)
    ensures PcOf(s', e) == Working(0, job, s.store.attempts, Streaming, Replying(s.store.quota.now + cfg.reply, 0))
    ensures Log(s'.store, 0) == Log(s.store, 0) + [Event(Attempt(s.store.attempts), Started)]
    ensures 0 in s'.store.leases && s'.store.leases[0] == Lease(s.store.attempts, s.store.quota.now + cfg.lease)
    ensures s'.store.attempts == s.store.attempts + 1 && !ShowsCompleted(s'.store, 0) && s'.store.quota == s.store.quota
  {
    t', s' := LooksAt(cfg, gs, t, s, e, job);
    t', s' := Opens(cfg, gs, t', s', e, job);
  }

  /** An attempt ends, its lease is released, and its engine stands before the settlement. */
  lemma Releases(cfg: Config, gs: set<Guard>, t: Trace, s: State, e: nat, ending: Ending) returns (t': Trace, s': State)
    requires Leads(cfg, gs, t, s) && PcOf(s, e).Working? && PcOf(s, e).job.request == 0
    requires PcOf(s, e).stage == Streaming && PcOf(s, e).beat.Replying?
    requires LeaseLive(s.store, 0) ==> LeaseOwned(s.store, 0, PcOf(s, e).attempt)
    ensures Leads(cfg, gs, t', s') && Untouched(s, s', e, 0)
    ensures var pc := PcOf(s, e); PcOf(s', e) == Settling(pc.entry, pc.job, pc.attempt, ending)
    ensures !LeaseLive(s'.store, 0) && s'.store == s.store.(leases := s'.store.leases)
  {
    t', s' := Proceeds(cfg, gs, t, s, e, Finish(ending));
    t', s' := Proceeds(cfg, gs, t', s', e, Doze);
    t', s' := Proceeds(cfg, gs, t', s', e, Stop);
    t', s' := Proceeds(cfg, gs, t', s', e, Advance);
  }

  /** It settles and appends its terminal event. */
  lemma Concludes(cfg: Config, gs: set<Guard>, t: Trace, s: State, e: nat) returns (t': Trace, s': State)
    requires Leads(cfg, gs, t, s) && PcOf(s, e).Settling? && PcOf(s, e).job.request == 0
    ensures Leads(cfg, gs, t', s') && Untouched(s, s', e, 0)
    ensures var pc := PcOf(s, e);
            PcOf(s', e) == Marking(pc.entry, pc.job, Attempt(pc.attempt), |Log(s.store, 0)|) &&
            Log(s'.store, 0) == Log(s.store, 0) + [Event(Attempt(pc.attempt), TerminalBody(pc.ending))] &&
            s'.store.quota == QuotaBook.Do(s.store.quota, Reconcile(pc.job.reservation, Generated(pc.ending)))
    ensures s'.store.leases == s.store.leases && s'.store.statuses == s.store.statuses
  {
    t', s' := Proceeds(cfg, gs, t, s, e, Advance);
    t', s' := Proceeds(cfg, gs, t', s', e, Advance);
  }

  /** It marks the request completed. */
  lemma Marks(cfg: Config, gs: set<Guard>, t: Trace, s: State, e: nat) returns (t': Trace, s': State)
    requires Leads(cfg, gs, t, s) && PcOf(s, e).Marking? && PcOf(s, e).job.request == 0 && 0 < cfg.retention
    ensures Leads(cfg, gs, t', s') && Untouched(s, s', e, 0) && PcOf(s', e).Acking?
    ensures ShowsCompleted(s'.store, 0) && s'.store == s.store.(statuses := s'.store.statuses)
  {
    t', s' := Proceeds(cfg, gs, t, s, e, Advance);
  }

  /** An engine that finds its job past the deadline fails it. */
  lemma FailsLate(cfg: Config, gs: set<Guard>, t: Trace, s: State, e: nat, job: Job) returns (t': Trace, s': State)
    requires Leads(cfg, gs, t, s) && PcOf(s, e) == Starting(0, job) && job.request == 0
    requires PastDeadline(s.store, job) && InTime !in gs
    ensures Leads(cfg, gs, t', s') && Untouched(s, s', e, 0)
    ensures PcOf(s', e) == Marking(0, job, Engine(e), |Log(s.store, 0)|)
    ensures Log(s'.store, 0) == Log(s.store, 0) + [DeadlineEvent(e)]
  {
    MoveUntouched(cfg, s, e, Advance);
    t', s' := Go(cfg, gs, t, s, EngineStep(e, Advance));
    assert PcOf(s', e) == Withdrawing(0, job) && s'.store == s.store;
    t', s' := Proceeds(cfg, gs, t', s', e, Advance);
    t', s' := Proceeds(cfg, gs, t', s', e, Advance);
  }

  /** Time passes until entry 0 is stale, and idle engine `e` reclaims it. */
  lemma Reclaims(cfg: Config, gs: set<Guard>, t: Trace, s: State, e: nat, ms: nat) returns (t': Trace, s': State)
    requires Leads(cfg, gs, t, s) && PcOf(s, e) == Idle && |s.store.stream| > 0
    requires 0 in s.store.pending && s.store.pending[0] + cfg.reclaimIdle <= s.store.quota.now + ms
    requires Alone in gs ==> forall f :: !Serves(PcOf(s, f), 0)
    ensures Leads(cfg, gs, t', s') && s'.fronts == s.fronts && PcOf(s', e) == Starting(0, s.store.stream[0])
    ensures forall f :: f != e ==> PcOf(s', f) == PcOf(s, f)
    ensures s'.store.quota == s.store.quota.(now := s.store.quota.now + ms) && s'.store.stream == s.store.stream
    ensures Deliveries(s'.store, 0) == Deliveries(s.store, 0) + 1
    ensures s'.store.logs == s.store.logs && s'.store.leases == s.store.leases
    ensures s'.store.statuses == s.store.statuses && s'.store.attempts == s.store.attempts
  {
    t', s' := Waits(cfg, gs, t, s, ms);
    assert forall f :: PcOf(s', f) == PcOf(s, f);
    t', s' := TakesOver(cfg, gs, t', s', e);
  }

  lemma TakesOver(cfg: Config, gs: set<Guard>, t: Trace, s: State, e: nat) returns (t': Trace, s': State)
    requires Leads(cfg, gs, t, s) && PcOf(s, e) == Idle && |s.store.stream| > 0 && Idled(cfg, s.store, 0)
    requires Alone in gs ==> forall f :: !Serves(PcOf(s, f), 0)
    ensures Leads(cfg, gs, t', s')
    ensures s' == s.(store := s'.store, engines := s.engines[e := Starting(0, s.store.stream[0])])
    ensures s'.store == Exec(cfg, s.store, HandOut(0)) && Deliveries(s'.store, 0) == Deliveries(s.store, 0) + 1
  {
    t', s' := Go(cfg, gs, t, s, EngineStep(e, Reclaim(0)));
  }

  lemma Waits(cfg: Config, gs: set<Guard>, t: Trace, s: State, ms: nat) returns (t': Trace, s': State)
    requires Leads(cfg, gs, t, s)
    ensures Leads(cfg, gs, t', s')
    ensures s' == s.(store := s.store.(quota := s.store.quota.(now := s.store.quota.now + ms)))
  {
    t', s' := Go(cfg, gs, t, s, Action.Tick(ms));
  }

  lemma Crashes(cfg: Config, gs: set<Guard>, t: Trace, s: State, e: nat) returns (t': Trace, s': State)
    requires Leads(cfg, gs, t, s) && PcOf(s, e) != Idle
    ensures Leads(cfg, gs, t', s') && s' == s.(engines := s.engines[e := Idle])
  {
    t', s' := Go(cfg, gs, t, s, EngineStep(e, Crash));
  }
}
