/** How many terminal events a request can get. */
module ProtocolTerminals {
  import opened Basics
  import opened QuotaBook
  import opened Protocol
  import opened ProtocolSafety
  import opened ProtocolRuns

  function Terminals(log: seq<Event>): nat {
    if log == [] then 0
    else Terminals(log[..|log| - 1]) + if IsTerminal(log[|log| - 1]) then 1 else 0
  }

  lemma TerminalsAppend(log: seq<Event>, e: Event)
    ensures Terminals(log + [e]) == Terminals(log) + if IsTerminal(e) then 1 else 0
  {
    assert (log + [e])[..|log|] == log;
  }

  function Servers(s: State, entry: nat): set<nat> {
    set e | e in s.engines && Serves(s.engines[e], entry)
  }

  /** The terminal events a job has, and those its engines may still append, are at most
      as many as its deliveries. */
  ghost predicate Accounted(s: State) {
    forall i :: 0 <= i < |s.store.stream| ==>
      |Servers(s, i)| + Terminals(Log(s.store, s.store.stream[i].request)) <= Deliveries(s.store, i)
  }

  lemma OneMore(rest: set<nat>, e: nat, with: bool)
    requires e !in rest
    ensures |if with then rest + {e} else rest| == |rest| + if with then 1 else 0
  {
  }

  lemma ServersOf(s: State, e: nat, pc: Pc, v: Store, entry: nat)
    ensures |Servers(s.(store := v, engines := s.engines[e := pc]), entry)| ==
              |Servers(s, entry)| + (if Serves(pc, entry) then 1 else 0) - (if Serves(PcOf(s, e), entry) then 1 else 0)
  {
    var s' := s.(store := v, engines := s.engines[e := pc]);
    var rest := Servers(s, entry) - {e};
    assert Servers(s', entry) == if Serves(pc, entry) then rest + {e} else rest;
    assert Servers(s, entry) == if Serves(PcOf(s, e), entry) then rest + {e} else rest;
    OneMore(rest, e, Serves(pc, entry));
    OneMore(rest, e, Serves(PcOf(s, e), entry));
  }

  /** One job's account, seen from one engine. */
  function Owed(v: Store, pc: Pc, i: nat): int
    requires i < |v.stream|
  {
    (if Serves(pc, i) then 1 else 0) + Terminals(Log(v, v.stream[i].request)) - Deliveries(v, i)
  }

  lemma AppendCounts(cfg: Config, v: Store, request: nat, event: Event, r: nat)
    ensures Terminals(Log(Exec(cfg, v, Append(request, event)), r)) ==
              Terminals(Log(v, r)) + if r == request && IsTerminal(event) then 1 else 0
  {
    TerminalsAppend(Log(v, request), event);
  }

  lemma AppendOwes(cfg: Config, v: Store, pc: Pc, pc': Pc, event: Event, i: nat)
    requires JobsDistinct(v) && PcOk(v, pc) && pc != Idle && i < |v.stream|
    requires IsTerminal(event) ==> Serves(pc, pc.entry) && pc'.Marking?
    requires Serves(pc', i) ==> Serves(pc, i)
    ensures var v' := Exec(cfg, v, Append(pc.job.request, event));
            v'.stream == v.stream && Owed(v', pc', i) <= Owed(v, pc, i)
  {
    var v', r := Exec(cfg, v, Append(pc.job.request, event)), v.stream[i].request;
    AppendCounts(cfg, v, pc.job.request, event, r);
    OwnEntry(v, pc, i);
    OwedAfter(v, v', pc, pc', i, if r == pc.job.request && IsTerminal(event) then 1 else 0);
  }

  lemma OwedAfter(v: Store, v': Store, pc: Pc, pc': Pc, i: nat, more: nat)
    requires i < |v.stream| && v'.stream == v.stream && Deliveries(v', i) == Deliveries(v, i)
    requires Terminals(Log(v', v.stream[i].request)) == Terminals(Log(v, v.stream[i].request)) + more
    requires more == 0 || (more == 1 && Serves(pc, i) && !Serves(pc', i))
    requires Serves(pc', i) ==> Serves(pc, i)
    ensures Owed(v', pc', i) <= Owed(v, pc, i)
  {
  }

  lemma OwnEntry(v: Store, pc: Pc, i: nat)
    requires JobsDistinct(v) && PcOk(v, pc) && pc != Idle && i < |v.stream|
    ensures v.stream[i].request == pc.job.request ==> pc.entry == i
  {
    assert pc.job == v.stream[pc.entry];
  }

  /** A command that hands nothing out and appends nothing owes nothing more. */
  lemma QuietOwes(cfg: Config, v: Store, pc: Pc, pc': Pc, c: Command, i: nat)
    requires !c.Append? && !c.HandOut? && !c.AddJob? && i < |v.stream|
    requires Serves(pc', i) ==> Serves(pc, i)
    ensures var v' := Exec(cfg, v, c); v'.stream == v.stream && Owed(v', pc', i) <= Owed(v, pc, i)
  {
  }

  /** What a step inside a job may issue, and where it leads. */
  ghost predicate InsideJob(pc: Pc, move: Move) {
    pc != Idle && !move.command.HandOut? && !move.command.AddJob? &&
    (forall i :: Serves(move.pc, i) ==> Serves(pc, i)) &&
    (move.command.Append? ==>
       move.command.request == pc.job.request &&
       (IsTerminal(move.command.event) ==> Serves(pc, pc.entry) && move.pc.Marking?))
  }

  lemma AdvanceInside(cfg: Config, v: Store, e: nat, pc: Pc)
    requires Advanced(cfg, v, e, pc).Some?
    ensures InsideJob(pc, Advanced(cfg, v, e, pc).value)
  {
  }

  lemma WorkInside(cfg: Config, v: Store, pc: Pc, step: Step)
    requires pc.Working? && Worked(cfg, v, pc, step).Some?
    ensures InsideJob(pc, Worked(cfg, v, pc, step).value)
  {
  }

  lemma MoveOwes(cfg: Config, v: Store, pc: Pc, move: Move, i: nat)
    requires JobsDistinct(v) && PcOk(v, pc) && i < |v.stream| && InsideJob(pc, move)
    ensures var v' := Exec(cfg, v, move.command); v'.stream == v.stream && Owed(v', move.pc, i) <= Owed(v, pc, i)
  {
    if move.command.Append? {
      AppendOwes(cfg, v, pc, move.pc, move.command.event, i);
    } else {
      QuietOwes(cfg, v, pc, move.pc, move.command, i);
    }
  }

  lemma EngineOwes(cfg: Config, v: Store, e: nat, pc: Pc, step: Step, i: nat)
    requires StoreSafe(v) && PcOk(v, pc) && i < |v.stream| && Moved(cfg, v, e, pc, step).Some?
    ensures var move := Moved(cfg, v, e, pc, step).value;
            var v' := Exec(cfg, v, move.command);
            v'.stream == v.stream && Owed(v', move.pc, i) <= Owed(v, pc, i)
  {
    match step
    case Advance =>
      AdvanceInside(cfg, v, e, pc);
      MoveOwes(cfg, v, pc, Advanced(cfg, v, e, pc).value, i);
    case Deliver =>
    case Reclaim(_) =>
    case Crash =>
    case _ =>
      WorkInside(cfg, v, pc, step);
      MoveOwes(cfg, v, pc, Worked(cfg, v, pc, step).value, i);
  }

  lemma AccountedStep(cfg: Config, s: State, a: Action)
    requires Safe(s) && Accounted(s) && Next(cfg, s, a).Some?
    ensures Accounted(Next(cfg, s, a).value)
  {
    var s' := Next(cfg, s, a).value;
    forall i | 0 <= i < |s'.store.stream|
      ensures |Servers(s', i)| + Terminals(Log(s'.store, s'.store.stream[i].request)) <= Deliveries(s'.store, i)
    {
      if a.EngineStep? { EngineAccount(cfg, s, a.engine, a.step, i); } else { FrontAccount(cfg, s, a, i); }
    }
  }

  lemma EngineAccount(cfg: Config, s: State, e: nat, step: Step, i: nat)
    requires Safe(s) && Accounted(s) && Next(cfg, s, EngineStep(e, step)).Some?
    requires i < |Next(cfg, s, EngineStep(e, step)).value.store.stream|
    ensures var s' := Next(cfg, s, EngineStep(e, step)).value;
            |Servers(s', i)| + Terminals(Log(s'.store, s'.store.stream[i].request)) <= Deliveries(s'.store, i)
  {
    var pc := PcOf(s, e);
    var move := Moved(cfg, s.store, e, pc, step).value;
    var v' := Exec(cfg, s.store, move.command);
    var s' := s.(store := v', engines := s.engines[e := move.pc]);
    assert Next(cfg, s, EngineStep(e, step)) == Some(s');
    OnlyDispatchAdds(cfg, s, EngineStep(e, step));
    StreamKept(cfg, s.store, move.command);
    AccountMoves(cfg, s, e, step, i);
  }

  lemma AccountMoves(cfg: Config, s: State, e: nat, step: Step, i: nat)
    requires Safe(s) && Accounted(s) && i < |s.store.stream| && Moved(cfg, s.store, e, PcOf(s, e), step).Some?
    ensures var move := Moved(cfg, s.store, e, PcOf(s, e), step).value;
            var v' := Exec(cfg, s.store, move.command);
            v'.stream == s.store.stream &&
            |Servers(s.(store := v', engines := s.engines[e := move.pc]), i)| +
              Terminals(Log(v', v'.stream[i].request)) <= Deliveries(v', i)
  {
    var move := Moved(cfg, s.store, e, PcOf(s, e), step).value;
    assert PcOk(s.store, PcOf(s, e));
    EngineOwes(cfg, s.store, e, PcOf(s, e), step, i);
    ServersOf(s, e, move.pc, Exec(cfg, s.store, move.command), i);
  }

  lemma FrontAccount(cfg: Config, s: State, a: Action, i: nat)
    requires Safe(s) && Accounted(s) && Next(cfg, s, a).Some? && !a.EngineStep?
    requires i < |Next(cfg, s, a).value.store.stream|
    ensures var s' := Next(cfg, s, a).value;
            |Servers(s', i)| + Terminals(Log(s'.store, s'.store.stream[i].request)) <= Deliveries(s'.store, i)
  {
    var s' := Next(cfg, s, a).value;
    assert s'.engines == s.engines && s'.store.logs == s.store.logs && s'.store.deliveries == s.store.deliveries;
    assert Servers(s', i) == Servers(s, i);
    if i == |s.store.stream| {
      assert !Published(s.store, s'.store.stream[i].request);
      assert Log(s.store, s'.store.stream[i].request) == [];
      assert forall e :: e in s.engines ==> PcOk(s.store, s.engines[e]);
      assert Servers(s, i) == {};
    } else {
      assert s'.store.stream[i] == s.store.stream[i];
    }
  }

  lemma {:induction false} RunIsAccounted(cfg: Config, run: seq<State>, actions: seq<Action>, i: nat)
    requires IsRun(cfg, run, actions) && i < |run|
    ensures Accounted(run[i])
  {
    if i > 0 {
      RunIsAccounted(cfg, run, actions, i - 1);
      RunIsSafe(cfg, run, actions, i - 1);
      assert Next(cfg, run[i - 1], actions[i - 1]) == Some(run[i - 1 + 1]);
      AccountedStep(cfg, run[i - 1], actions[i - 1]);
    }
  }

  /** A job gets at most one terminal event for each time it was delivered; so one that
      was never redelivered gets at most one. */
  lemma TerminalsWithinDeliveries(cfg: Config, s: State, entry: nat)
    requires Reachable(cfg, s) && entry < |s.store.stream|
    ensures Terminals(Log(s.store, s.store.stream[entry].request)) <= Deliveries(s.store, entry)
  {
    var run, actions :| IsRun(cfg, run, actions) && run[|actions|] == s;
    RunIsAccounted(cfg, run, actions, |actions|);
  }

  // ----- what the code does not keep -----

  /** `At most one terminal event` is not kept: the deadline branch publishes without
      looking at the status and without the lease, so a job handed to a second engine
      while the first stalls is failed twice. */
  lemma FailedTwice(cfg: Config) returns (s: State)
    ensures Reachable(cfg, s) && |s.store.stream| == 1 && s.store.stream[0].request == 0
    ensures Deliveries(s.store, 0) == 2 && Terminals(Log(s.store, 0)) == 2
  {
    var job, gs: set<Guard> := Job(0, 0, 1), {};
    var t;
    t, s := Delivered(cfg, gs, 1, true);
    t, s := Reclaims(cfg, gs, t, s, 1, cfg.reclaimIdle + 2);
    assert PastDeadline(s.store, job) && Log(s.store, 0) == [];
    t, s := FailsLate(cfg, gs, t, s, 0, job);
    t, s := FailsLate(cfg, gs, t, s, 1, job);
    TwoTerminals([], DeadlineEvent(0), DeadlineEvent(1));
    LeadsReachable(cfg, gs, t, s);
  }

  lemma TwoTerminals(log: seq<Event>, x: Event, y: Event)
    requires IsTerminal(x) && IsTerminal(y)
    ensures Terminals(log + [x] + [y]) == Terminals(log) + 2
  {
    TerminalsAppend(log, x);
    TerminalsAppend(log + [x], y);
  }

  /** Exactly when a request is sure of at most one terminal event: when its entry was
      handed out at most once. */
  lemma OnceIffDeliveredOnce(cfg: Config, n: nat)
    ensures (forall s, i | Reachable(cfg, s) && 0 <= i < |s.store.stream| && Deliveries(s.store, i) <= n ::
               Terminals(Log(s.store, s.store.stream[i].request)) <= 1)
            <==> n <= 1
  {
    if n <= 1 {
      forall s, i | Reachable(cfg, s) && 0 <= i < |s.store.stream| && Deliveries(s.store, i) <= n
        ensures Terminals(Log(s.store, s.store.stream[i].request)) <= 1
      {
        TerminalsWithinDeliveries(cfg, s, i);
      }
    } else {
      var s := FailedTwice(cfg);
      assert Deliveries(s.store, 0) <= n && Terminals(Log(s.store, s.store.stream[0].request)) == 2;
    }
  }
}
