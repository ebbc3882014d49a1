/** When a request is sure of a single terminal event: what each guard on redelivery is
    needed for, and that the three together are enough. */
module SingleTerminal {
  import opened Basics
  import opened QuotaBook
  import opened Protocol
  import opened ProtocolSafety
  import opened ProtocolRuns
  import opened ProtocolTerminals

  lemma {:induction false} TerminalsPositive(log: seq<Event>)
    ensures Terminals(log) > 0 <==> exists e :: e in log && IsTerminal(e)
  {
    if log != [] {
      var n := |log| - 1;
      TerminalsPositive(log[..n]);
      assert log == log[..n] + [log[n]];
    }
  }

  /** An engine at work on entry `i` is not failing it as late, and is still before its
      attempt if the terminal event is there. */
  ghost predicate InOrder(v: Store, pc: Pc, i: nat) {
    Serves(pc, i) ==>
      !pc.Withdrawing? && !pc.Expiring? &&
      (HasTerminal(v, pc.job.request) ==> pc.Starting? || pc.Inspecting?)
  }

  ghost predicate AllInOrder(v: Store, engines: map<nat, Pc>, i: nat) {
    forall e :: e in engines ==> InOrder(v, engines[e], i)
  }

  ghost predicate OneServer(engines: map<nat, Pc>, i: nat) {
    forall e, f :: e in engines && f in engines && Serves(engines[e], i) && Serves(engines[f], i) ==> e == f
  }

  ghost predicate OneTerminal(v: Store, i: nat) {
    i < |v.stream| ==> Terminals(Log(v, v.stream[i].request)) <= 1
  }

  ghost predicate OneAtATime(s: State, i: nat) {
    AllInOrder(s.store, s.engines, i) && OneServer(s.engines, i) && OneTerminal(s.store, i)
  }

  // ----- steps of the engine at work -----

  lemma AdvanceInOrder(cfg: Config, v: Store, e: nat, pc: Pc, i: nat)
    requires Advanced(cfg, v, e, pc).Some? && InOrder(v, pc, i)
    requires pc.Starting? && pc.entry == i ==> !PastDeadline(v, pc.job)
    requires pc.Inspecting? && pc.entry == i && HasTerminal(v, pc.job.request) ==> ShowsCompleted(v, pc.job.request)
    ensures var move := Advanced(cfg, v, e, pc).value;
            InOrder(v, move.pc, i) && (Serves(move.pc, i) ==> Serves(pc, i) && move.pc.job == pc.job) &&
            (move.command.Append? && Serves(pc, i) ==> !HasTerminal(v, pc.job.request) && !Serves(move.pc, i))
  {
  }

  lemma WorkInOrder(cfg: Config, v: Store, pc: Pc, step: Step, i: nat)
    requires pc.Working? && Worked(cfg, v, pc, step).Some? && InOrder(v, pc, i)
    ensures var move := Worked(cfg, v, pc, step).value;
            InOrder(v, move.pc, i) && (Serves(move.pc, i) ==> Serves(pc, i) && move.pc.job == pc.job) &&
            (move.command.Append? ==> !IsTerminal(move.command.event) && move.command.request == pc.job.request)
  {
  }

  /** What a step of engine `e` does to entry `i`, seen from before it. */
  ghost predicate Orderly(v: Store, pc: Pc, move: Move, i: nat) {
    InOrder(v, move.pc, i) && !move.command.AddJob? &&
    (Serves(move.pc, i) ==> Serves(pc, i) || move.pc.Starting?) &&
    (move.command.Append? ==> pc != Idle && move.command.request == pc.job.request) &&
    (move.command.Append? && IsTerminal(move.command.event) ==>
       Serves(pc, pc.entry) && (pc.entry == i ==> !HasTerminal(v, pc.job.request)) && !Serves(move.pc, i))
  }

  lemma MoveIsOrderly(cfg: Config, s: State, e: nat, step: Step, i: nat)
    requires Moved(cfg, s.store, e, PcOf(s, e), step).Some? && InOrder(s.store, PcOf(s, e), i)
    requires forall g :: Kept(g, s, EngineStep(e, step), i)
    ensures Orderly(s.store, PcOf(s, e), Moved(cfg, s.store, e, PcOf(s, e), step).value, i)
  {
    var v, pc := s.store, PcOf(s, e);
    match step
    case Advance =>
      assert Kept(InTime, s, EngineStep(e, step), i) && Kept(Noticed, s, EngineStep(e, step), i);
      AdvanceInOrder(cfg, v, e, pc, i);
      AdvanceInside(cfg, v, e, pc);
    case Deliver =>
    case Reclaim(_) =>
    case Crash =>
    case _ =>
      WorkInOrder(cfg, v, pc, step, i);
      WorkInside(cfg, v, pc, step);
  }

  /** Only a step that hands the entry out makes a new engine serve it. */
  lemma NewServer(cfg: Config, s: State, e: nat, step: Step, i: nat)
    requires Moved(cfg, s.store, e, PcOf(s, e), step).Some?
    requires Kept(Alone, s, EngineStep(e, step), i)
    ensures var pc' := Moved(cfg, s.store, e, PcOf(s, e), step).value.pc;
            Serves(pc', i) && !Serves(PcOf(s, e), i) ==> forall f :: !Serves(PcOf(s, f), i)
  {
    var pc := PcOf(s, e);
    match step
    case Advance => AdvanceInside(cfg, s.store, e, pc);
    case Deliver => assert Serves(Moved(cfg, s.store, e, pc, step).value.pc, i) ==> HandsOut(s, step, i);
    case Reclaim(_) => assert Serves(Moved(cfg, s.store, e, pc, step).value.pc, i) ==> HandsOut(s, step, i);
    case Crash =>
    case _ => WorkInside(cfg, s.store, pc, step);
  }

  // ----- the invariant -----

  lemma EngineKeepsOrder(cfg: Config, s: State, e: nat, step: Step, s': State, i: nat)
    requires JobsDistinct(s.store) && forall f :: f in s.engines ==> PcOk(s.store, s.engines[f])
    requires OneAtATime(s, i) && Next(cfg, s, EngineStep(e, step)) == Some(s')
    requires forall g :: Kept(g, s, EngineStep(e, step), i)
    ensures OneAtATime(s', i)
  {
    var pc := PcOf(s, e);
    var move := Moved(cfg, s.store, e, pc, step).value;
    assert InOrder(s.store, pc, i) by { if e in s.engines { assert InOrder(s.store, s.engines[e], i); } }
    MoveIsOrderly(cfg, s, e, step, i);
    assert OneServer(s.engines[e := move.pc], i) by {
      assert Kept(Alone, s, EngineStep(e, step), i);
      NewServer(cfg, s, e, step, i);
      StillOneServer(s, e, move.pc, i);
    }
    var v', engines' := Exec(cfg, s.store, move.command), s.engines[e := move.pc];
    assert s'.store == v' && s'.engines == engines';
    if move.command.Append? {
      AppendKeepsOrder(cfg, s, e, move, i);
    } else {
      QuietKeepsOrder(cfg, s, e, move, i);
    }
    assert AllInOrder(v', engines', i) && OneServer(engines', i) && OneTerminal(v', i);
  }

  lemma StillOneServer(s: State, e: nat, pc': Pc, i: nat)
    requires OneServer(s.engines, i)
    requires Serves(pc', i) && !Serves(PcOf(s, e), i) ==> forall f :: !Serves(PcOf(s, f), i)
    ensures OneServer(s.engines[e := pc'], i)
  {
    var engines := s.engines[e := pc'];
    forall f, g | f in engines && g in engines && Serves(engines[f], i) && Serves(engines[g], i) ensures f == g {
      if Serves(PcOf(s, e), i) {
        assert e in s.engines;
      } else {
        assert !Serves(pc', i) || (!Serves(PcOf(s, f), i) && !Serves(PcOf(s, g), i));
      }
    }
  }

  lemma QuietKeepsOrder(cfg: Config, s: State, e: nat, move: Move, i: nat)
    requires AllInOrder(s.store, s.engines, i) && OneTerminal(s.store, i)
    requires Orderly(s.store, PcOf(s, e), move, i) && !move.command.Append?
    ensures var v' := Exec(cfg, s.store, move.command);
            AllInOrder(v', s.engines[e := move.pc], i) && OneTerminal(v', i)
  {
    var v' := Exec(cfg, s.store, move.command);
    assert v'.logs == s.store.logs && v'.stream == s.store.stream by { QuietStore(cfg, s.store, move.command); }
    StillInOrder(s, v', e, move.pc, i);
  }

  lemma QuietStore(cfg: Config, v: Store, c: Command)
    requires !c.Append? && !c.AddJob?
    ensures Exec(cfg, v, c).logs == v.logs && Exec(cfg, v, c).stream == v.stream
  {
  }

  lemma StillInOrder(s: State, v': Store, e: nat, pc': Pc, i: nat)
    requires AllInOrder(s.store, s.engines, i) && InOrder(s.store, pc', i) && v'.logs == s.store.logs
    ensures AllInOrder(v', s.engines[e := pc'], i)
  {
    SameLogs(s.store, v');
    var engines := s.engines[e := pc'];
    forall f | f in engines ensures InOrder(v', engines[f], i) {
      if f != e { assert InOrder(s.store, s.engines[f], i); }
    }
  }

  lemma AppendKeepsOrder(cfg: Config, s: State, e: nat, move: Move, i: nat)
    requires JobsDistinct(s.store) && forall f :: f in s.engines ==> PcOk(s.store, s.engines[f])
    requires OneAtATime(s, i) && Orderly(s.store, PcOf(s, e), move, i) && move.command.Append?
    ensures var v' := Exec(cfg, s.store, move.command);
            AllInOrder(v', s.engines[e := move.pc], i) && OneTerminal(v', i)
  {
    var v, pc, event := s.store, PcOf(s, e), move.command.event;
    var v' := Exec(cfg, v, move.command);
    assert v'.stream == v.stream;
    if i < |v.stream| {
      OwnEntry(v, pc, i);
      assert OneTerminal(v', i) by {
        AppendCounts(cfg, v, pc.job.request, event, v.stream[i].request);
        TerminalsPositive(Log(v, v.stream[i].request));
      }
    }
    var engines := s.engines[e := move.pc];
    forall f | f in engines ensures InOrder(v', engines[f], i) {
      OthersInOrder(cfg, s, e, move, i, f);
    }
  }

  lemma OthersInOrder(cfg: Config, s: State, e: nat, move: Move, i: nat, f: nat)
    requires JobsDistinct(s.store) && forall f :: f in s.engines ==> PcOk(s.store, s.engines[f])
    requires AllInOrder(s.store, s.engines, i) && OneServer(s.engines, i)
    requires Orderly(s.store, PcOf(s, e), move, i) && move.command.Append? && f in s.engines[e := move.pc]
    ensures InOrder(Exec(cfg, s.store, move.command), s.engines[e := move.pc][f], i)
  {
    var pc := PcOf(s, e);
    var pc' := s.engines[e := move.pc][f];
    if Serves(pc', i) {
      TerminalAfterAppend(cfg, s.store, pc.job.request, move.command.event, pc'.job.request);
      if f != e {
        assert InOrder(s.store, pc', i) && PcOk(s.store, pc') && PcOk(s.store, pc);
        OwnEntry(s.store, pc, i);
      }
    }
  }

  lemma FrontKeepsOrder(cfg: Config, s: State, a: Action, s': State, i: nat)
    requires OneAtATime(s, i) && !a.EngineStep? && Next(cfg, s, a) == Some(s')
    requires LogsKnown(s.store) && CommandOk(s.store, Issued(cfg, s, a))
    ensures OneAtATime(s', i)
  {
    assert s'.engines == s.engines && s'.store.logs == s.store.logs;
    assert s'.store == Exec(cfg, s.store, Issued(cfg, s, a));
    forall e | e in s.engines ensures InOrder(s'.store, s.engines[e], i) {
      assert InOrder(s.store, s.engines[e], i);
      SameLogs(s.store, s'.store);
    }
    StillOneTerminal(cfg, s.store, Issued(cfg, s, a), i);
  }

  lemma StillOneTerminal(cfg: Config, v: Store, c: Command, i: nat)
    requires LogsKnown(v) && CommandOk(v, c) && OneTerminal(v, i) && !c.Append?
    ensures OneTerminal(Exec(cfg, v, c), i)
  {
    var v' := Exec(cfg, v, c);
    assert v'.logs == v.logs;
    if i < |v.stream| {
      assert v'.stream[i] == v.stream[i];
    } else if i < |v'.stream| {
      assert !Published(v, v'.stream[i].request);
      assert Log(v, v'.stream[i].request) == [];
    }
  }

  lemma {:induction false} RunKeepsOrder(cfg: Config, run: seq<State>, actions: seq<Action>, n: nat, i: nat)
    requires IsRun(cfg, run, actions) && Guarded(run, actions, i, AllGuards) && n < |run|
    ensures OneAtATime(run[n], i)
  {
    if n > 0 {
      RunKeepsOrder(cfg, run, actions, n - 1, i);
      RunIsSafe(cfg, run, actions, n - 1);
      NextKeepsOrder(cfg, run, actions, n - 1, i);
    }
  }

  lemma NextKeepsOrder(cfg: Config, run: seq<State>, actions: seq<Action>, k: nat, i: nat)
    requires IsPath(cfg, run, actions) && Guarded(run, actions, i, AllGuards) && k < |actions|
    requires Safe(run[k]) && OneAtATime(run[k], i)
    ensures OneAtATime(run[k + 1], i)
  {
    var s, a, s' := run[k], actions[k], run[k + 1];
    assert Next(cfg, run[k], actions[k]) == Some(run[k + 1]);
    forall g ensures Kept(g, s, a, i) {
      EveryGuard(g);
    }
    if a.EngineStep? {
      EngineKeepsOrder(cfg, s, a.engine, a.step, s', i);
    } else {
      FrontKeepsOrder(cfg, s, a, s', i);
    }
  }

  /** The three guards together are enough. */
  lemma GuardedIsOnce(cfg: Config, run: seq<State>, actions: seq<Action>, i: nat)
    requires IsRun(cfg, run, actions) && Guarded(run, actions, i, AllGuards)
    requires i < |run[|actions|].store.stream|
    ensures var v := run[|actions|].store; Terminals(Log(v, v.stream[i].request)) <= 1
  {
    RunKeepsOrder(cfg, run, actions, |actions|, i);
  }

  // ----- each of them is needed -----

  /** A job that was completed in time, by an engine that crashed before noting it. */
  lemma CompletedOnce(cfg: Config, gs: set<Guard>, timeout: nat) returns (t: Trace, s: State)
    ensures Leads(cfg, gs, t, s) && s.store.stream == [Job(0, 0, timeout)]
    ensures (forall e :: PcOf(s, e) == Idle) && !LeaseLive(s.store, 0) && !ShowsCompleted(s.store, 0)
    ensures s.store.quota.now == 0 && s.store.pending == map[0 := 0] && Terminals(Log(s.store, 0)) == 1
  {
    var log, ending := [Event(Attempt(0), Started)], Succeeded(0, 0, "stop");
    t, s := SettlesFirst(cfg, gs, timeout, ending);
    t, s := Concludes(cfg, gs, t, s, 0);
    assert Terminals(Log(s.store, 0)) == 1 by { OneCounted(log, Event(Attempt(0), TerminalBody(ending))); }
    var before := s;
    t, s := Crashes(cfg, gs, t, s, 0);
    assert forall e :: e != 0 ==> PcOf(s, e) == PcOf(before, e);
  }

  /** The first attempt, up to its settlement. */
  lemma SettlesFirst(cfg: Config, gs: set<Guard>, timeout: nat, ending: Ending) returns (t: Trace, s: State)
    ensures Leads(cfg, gs, t, s) && s.store.stream == [Job(0, 0, timeout)]
    ensures PcOf(s, 0) == Settling(0, Job(0, 0, timeout), 0, ending)
    ensures (forall e :: e != 0 ==> PcOf(s, e) == Idle) && !LeaseLive(s.store, 0) && !ShowsCompleted(s.store, 0)
    ensures s.store.quota.now == 0 && s.store.pending == map[0 := 0]
    ensures Log(s.store, 0) == [Event(Attempt(0), Started)] && s.store.attempts == 1
  {
    t, s := Delivered(cfg, gs, timeout, true);
    t, s := Attempts(cfg, gs, t, s, 0, Job(0, 0, timeout));
    t, s := Releases(cfg, gs, t, s, 0, ending);
  }

  lemma OneCounted(log: seq<Event>, x: Event)
    requires |log| == 1 && !IsTerminal(log[0]) && IsTerminal(x)
    ensures Terminals(log + [x]) == 1
  {
    TerminalsAppend(log, x);
    assert log == [] + [log[0]];
    TerminalsAppend([], log[0]);
  }

  /** Without Alone: the first engine stalls between its release and its settlement, a second
      one takes the entry over, and both publish a completion, all in time. */
  lemma CompletedTwice(cfg: Config) returns (t: Trace, s: State)
    ensures Leads(cfg, AllGuards - {Alone}, t, s) && s.store.stream == [Job(0, 0, cfg.reclaimIdle + 1)]
    ensures Log(s.store, 0) == [Event(Attempt(0), Started), Event(Attempt(1), Started),
                                Event(Attempt(1), Completed(0, 0, "stop")), Event(Attempt(0), Completed(0, 0, "stop"))]
    ensures Terminals(Log(s.store, 0)) == 2 && !PastDeadline(s.store, s.store.stream[0])
  {
    var gs, job, ending := AllGuards - {Alone}, Job(0, 0, cfg.reclaimIdle + 1), Succeeded(0, 0, "stop");
    t, s := BothOpened(cfg, gs, job, ending);
    var log := [Event(Attempt(0), Started), Event(Attempt(1), Started)];
    var x, y := Event(Attempt(1), TerminalBody(ending)), Event(Attempt(0), TerminalBody(ending));
    t, s := Releases(cfg, gs, t, s, 1, ending);
    t, s := Concludes(cfg, gs, t, s, 1);
    assert Log(s.store, 0) == log + [x];
    t, s := Concludes(cfg, gs, t, s, 0);
    assert Log(s.store, 0) == log + [x] + [y];
    NoneCounted(log);
    TwoTerminals(log, x, y);
  }

  /** One attempt stands before its settlement, another has begun. */
  lemma BothOpened(cfg: Config, gs: set<Guard>, job: Job, ending: Ending) returns (t: Trace, s: State)
    requires job == Job(0, 0, cfg.reclaimIdle + 1) && Alone !in gs
    ensures Leads(cfg, gs, t, s) && s.store.stream == [job] && !PastDeadline(s.store, job)
    ensures PcOf(s, 0) == Settling(0, job, 0, ending)
    ensures PcOf(s, 1) == Working(0, job, 1, Streaming, Replying(s.store.quota.now + cfg.reply, 0))
    ensures LeaseLive(s.store, 0) ==> LeaseOwned(s.store, 0, 1)
    ensures Log(s.store, 0) == [Event(Attempt(0), Started), Event(Attempt(1), Started)]
  {
    t, s := SettlesFirst(cfg, gs, cfg.reclaimIdle + 1, ending);
    TerminalsPositive([Event(Attempt(0), Started)]);
    t, s := Reclaims(cfg, gs, t, s, 1, cfg.reclaimIdle);
    t, s := Attempts(cfg, gs, t, s, 1, job);
  }

  lemma NoneCounted(log: seq<Event>)
    requires |log| == 2 && !IsTerminal(log[0]) && !IsTerminal(log[1])
    ensures Terminals(log) == 0
  {
    assert log == [] + [log[0]] + [log[1]];
    TerminalsAppend([], log[0]);
    TerminalsAppend([] + [log[0]], log[1]);
  }

  /** Without Noticed: an engine that crashed right after publishing left no status, so the
      next one generates again. */
  lemma CompletedAgain(cfg: Config) returns (t: Trace, s: State)
    ensures Leads(cfg, AllGuards - {Noticed}, t, s) && |s.store.stream| == 1 && s.store.stream[0].request == 0
    ensures Terminals(Log(s.store, 0)) == 2
  {
    var gs := AllGuards - {Noticed};
    t, s := CompletedOnce(cfg, gs, cfg.reclaimIdle + 1);
    t, s := Reclaims(cfg, gs, t, s, 1, cfg.reclaimIdle);
    var log, attempt := Log(s.store, 0), s.store.attempts;
    t, s := Attempts(cfg, gs, t, s, 1, Job(0, 0, cfg.reclaimIdle + 1));
    TerminalsAppend(log, Event(Attempt(attempt), Started));
    log := Log(s.store, 0);
    t, s := Releases(cfg, gs, t, s, 1, Succeeded(0, 0, "stop"));
    t, s := Concludes(cfg, gs, t, s, 1);
    TerminalsAppend(log, Event(Attempt(attempt), Completed(0, 0, "stop")));
  }

  /** Without InTime: the same, but the second engine finds the job late and fails it. */
  lemma CompletedThenFailed(cfg: Config) returns (t: Trace, s: State)
    ensures Leads(cfg, AllGuards - {InTime}, t, s) && |s.store.stream| == 1 && s.store.stream[0].request == 0
    ensures Terminals(Log(s.store, 0)) == 2
  {
    var gs := AllGuards - {InTime};
    t, s := CompletedOnce(cfg, gs, 1);
    t, s := Reclaims(cfg, gs, t, s, 1, cfg.reclaimIdle + 2);
    TerminalsAppend(Log(s.store, 0), DeadlineEvent(1));
    t, s := FailsLate(cfg, gs, t, s, 1, Job(0, 0, 1));
  }

  /** Every run that keeps the guards `gs` about an entry appends at most one terminal event
      for it, exactly when `gs` is all three. */
  lemma OnceIffGuarded(cfg: Config, gs: set<Guard>)
    ensures (forall run: seq<State>, actions: seq<Action>, i: nat |
               IsRun(cfg, run, actions) && Guarded(run, actions, i, gs) && i < |run[|actions|].store.stream| ::
               Terminals(Log(run[|actions|].store, run[|actions|].store.stream[i].request)) <= 1)
            <==> gs == AllGuards
  {
    if gs == AllGuards {
      forall run: seq<State>, actions: seq<Action>, i: nat |
        IsRun(cfg, run, actions) && Guarded(run, actions, i, gs) && i < |run[|actions|].store.stream|
        ensures Terminals(Log(run[|actions|].store, run[|actions|].store.stream[i].request)) <= 1
      {
        GuardedIsOnce(cfg, run, actions, i);
      }
    } else {
      var t, s := TwiceWithout(cfg, gs);
      assert IsRun(cfg, t.run, t.actions) && Guarded(t.run, t.actions, 0, gs) && t.run[|t.actions|] == s;
    }
  }

  lemma TwiceWithout(cfg: Config, gs: set<Guard>) returns (t: Trace, s: State)
    requires gs != AllGuards
    ensures Leads(cfg, gs, t, s) && |s.store.stream| > 0 && Terminals(Log(s.store, s.store.stream[0].request)) == 2
  {
    if InTime !in gs {
      t, s := CompletedThenFailed(cfg);
      FewerGuards(cfg, gs, InTime, t, s);
    } else if Alone !in gs {
      t, s := CompletedTwice(cfg);
      FewerGuards(cfg, gs, Alone, t, s);
    } else {
      assert Noticed !in gs by {
        if Noticed in gs {
          forall g ensures g in gs <==> g in AllGuards { EveryGuard(g); }
        }
      }
      t, s := CompletedAgain(cfg);
      FewerGuards(cfg, gs, Noticed, t, s);
    }
  }

  lemma FewerGuards(cfg: Config, gs: set<Guard>, missing: Guard, t: Trace, s: State)
    requires Leads(cfg, AllGuards - {missing}, t, s) && missing !in gs
    ensures Leads(cfg, gs, t, s)
  {
    forall i, g | 0 <= i < |t.actions| && g in gs ensures Kept(g, t.run[i], t.actions[i], 0) {
      EveryGuard(g);
      assert g in AllGuards - {missing};
    }
  }
}
