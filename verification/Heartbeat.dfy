/** When the heartbeat is fast enough: a bound on its period that holds the lease, and
    the proof that no larger period does. */
module Heartbeat {
  import opened Basics
  import opened QuotaBook
  import opened Protocol
  import opened LeaseBlocks

  /** The longest time between two tries in a row: the reply to one, the sleep, and the
      way to the broker of the next. */
  function Cycle(cfg: Config): nat {
    cfg.reply + cfg.heartbeat + cfg.send
  }

  predicate FastEnough(cfg: Config, misses: nat) {
    (misses + 1) * Cycle(cfg) < cfg.lease
  }

  /** An attempt on time: each leg of its lease commands within its bound, sleeps not
      overslept, and no more than `k` renewals missed in a row. */
  predicate OnTime(now: nat, pc: Pc, k: nat) {
    match pc
    case Working(_, _, _, _, beat) =>
      (match beat
       case Replying(due, misses) => now <= due && misses <= k
       case Sleeping(until, misses) => now <= until && misses <= k
       case Sending(due, misses) => now <= due && misses <= k
       case Lost => true)
    case Releasing(_, _, _, _, due) => now <= due
    case _ => true
  }

  ghost predicate Punctual(s: State, k: nat) {
    forall e :: e in s.engines ==> OnTime(s.store.quota.now, s.engines[e], k)
  }

  /** How long the lease lasts beyond what the heartbeat is waiting for. */
  predicate Covered(cfg: Config, v: Store, pc: Pc) {
    Relies(pc) ==>
      pc.job.request in v.leases && v.leases[pc.job.request].owner == pc.attempt &&
      var expiry := v.leases[pc.job.request].expiry;
      match pc
      case Working(_, _, _, _, beat) =>
        (match beat
         case Replying(due, misses) => expiry + cfg.reply + misses * Cycle(cfg) >= due + cfg.lease
         case Sleeping(until, misses) =>
           expiry + cfg.reply + cfg.heartbeat + misses * Cycle(cfg) >= until + cfg.lease
         case Sending(due, misses) => expiry + (misses + 1) * Cycle(cfg) >= due + cfg.lease
         case Lost => false)
      case Releasing(_, _, _, _, due) => due < expiry
      case _ => true
  }

  ghost predicate AllCovered(cfg: Config, s: State) {
    AttemptsDistinct(s) && forall e :: e in s.engines ==> Covered(cfg, s.store, s.engines[e])
  }

  lemma MissesGrow(m: nat, k: nat, c: nat)
    requires m <= k
    ensures m * c <= k * c && (m + 1) * c == m * c + c
  {
  }

  lemma CoveredHolds(cfg: Config, v: Store, pc: Pc, k: nat)
    requires FastEnough(cfg, k) && Covered(cfg, v, pc) && OnTime(v.quota.now, pc, k)
    ensures HoldsLease(v, pc)
  {
    if pc.Working? && !pc.beat.Lost? {
      MissesGrow(pc.beat.misses, k, Cycle(cfg));
      MissesGrow(k, k, Cycle(cfg));
    }
  }

  /** An attempt's own step keeps it covered. */
  lemma OwnStep(cfg: Config, v: Store, e: nat, pc: Pc, step: Step, k: nat)
    requires FastEnough(cfg, k) && Covered(cfg, v, pc) && OnTime(v.quota.now, pc, k)
    requires Moved(cfg, v, e, pc, step).Some?
    ensures var move := Moved(cfg, v, e, pc, step).value; Covered(cfg, Exec(cfg, v, move.command), move.pc)
  {
    CoveredHolds(cfg, v, pc, k);
    if pc.Working? && !pc.beat.Lost? {
      MissesGrow(pc.beat.misses, k, Cycle(cfg));
      MissesGrow(k, k, Cycle(cfg));
      WorkingStep(cfg, v, e, pc, step, k);
    }
  }

  lemma WorkingStep(cfg: Config, v: Store, e: nat, pc: Pc, step: Step, k: nat)
    requires FastEnough(cfg, k) && Covered(cfg, v, pc) && OnTime(v.quota.now, pc, k)
    requires pc.Working? && !pc.beat.Lost? && LeaseOwned(v, pc.job.request, pc.attempt)
    requires Moved(cfg, v, e, pc, step).Some?
    requires (pc.beat.misses + 1) * Cycle(cfg) == pc.beat.misses * Cycle(cfg) + Cycle(cfg)
    requires (pc.beat.misses + 1) * Cycle(cfg) < cfg.lease
    ensures var move := Moved(cfg, v, e, pc, step).value; Covered(cfg, Exec(cfg, v, move.command), move.pc)
  {
  }

  /** Another engine's step leaves a lease that is live and not its own alone. */
  lemma OthersStep(cfg: Config, v: Store, e: nat, pc: Pc, step: Step, other: Pc)
    requires Moved(cfg, v, e, pc, step).Some?
    requires Relies(other) && LeaseOwned(v, other.job.request, other.attempt)
    requires Relies(pc) ==> pc.attempt != other.attempt
    ensures var v' := Exec(cfg, v, Moved(cfg, v, e, pc, step).value.command);
            other.job.request in v'.leases && v'.leases[other.job.request] == v.leases[other.job.request]
  {
  }

  lemma CoverStep(cfg: Config, s: State, a: Action, k: nat)
    requires FastEnough(cfg, k) && AllCovered(cfg, s) && Punctual(s, k) && Next(cfg, s, a).Some?
    ensures AllCovered(cfg, Next(cfg, s, a).value)
  {
    var v, s' := s.store, Next(cfg, s, a).value;
    DistinctStep(cfg, s, a);
    if a.EngineStep? {
      OwnStep(cfg, v, a.engine, PcOf(s, a.engine), a.step, k);
    } else {
      FrontsLeaveEngines(cfg, s, a);
    }
    forall e | e in s'.engines ensures Covered(cfg, s'.store, s'.engines[e]) {
      if !(a.EngineStep? && a.engine == e) && Relies(s.engines[e]) {
        CoveredHolds(cfg, v, s.engines[e], k);
        if a.EngineStep? { OthersStep(cfg, v, a.engine, PcOf(s, a.engine), a.step, s.engines[e]); }
      }
    }
  }

  lemma {:induction false} RunIsCovered(cfg: Config, run: seq<State>, actions: seq<Action>, k: nat, i: nat)
    requires FastEnough(cfg, k) && IsRun(cfg, run, actions) && i < |run|
    requires forall j :: 0 <= j < i ==> Punctual(run[j], k)
    ensures AllCovered(cfg, run[i])
  {
    if i > 0 {
      RunIsCovered(cfg, run, actions, k, i - 1);
      assert Next(cfg, run[i - 1], actions[i - 1]) == Some(run[i - 1 + 1]);
      CoverStep(cfg, run[i - 1], actions[i - 1], k);
    }
  }

  ghost predicate PunctualRun(cfg: Config, run: seq<State>, actions: seq<Action>, k: nat) {
    IsRun(cfg, run, actions) && forall i :: 0 <= i < |run| ==> Punctual(run[i], k)
  }

  /** The heartbeat bound: an attempt that misses at most `k` renewals in a row never
      loses its lease, in punctual runs of any length. */
  lemma LeaseIsKept(cfg: Config, run: seq<State>, actions: seq<Action>, k: nat)
    requires FastEnough(cfg, k) && PunctualRun(cfg, run, actions, k)
    ensures forall i :: 0 <= i < |run| ==> LeaseHeld(run[i])
  {
    forall i | 0 <= i < |run| ensures LeaseHeld(run[i]) {
      RunIsCovered(cfg, run, actions, k, i);
      assert Punctual(run[i], k);
      forall e | e in run[i].engines ensures HoldsLease(run[i].store, run[i].engines[e]) {
        CoveredHolds(cfg, run[i].store, run[i].engines[e], k);
      }
    }
  }

  /** With a 60 s lease and a heartbeat every 20 s, as shipped, one missed renewal in a row is
      survived as long as a command's two legs take less than 10 s together, and then the logs
      are in blocks. */
  lemma DefaultsKeepBlocks(cfg: Config, run: seq<State>, actions: seq<Action>, request: nat)
    requires cfg.lease == 60_000 && cfg.heartbeat == 20_000 && cfg.send + cfg.reply < 10_000
    requires PunctualRun(cfg, run, actions, 1)
    ensures Blocks(Work(Log(run[|actions|].store, request)))
  {
    LeaseIsKept(cfg, run, actions, 1);
    LogsInBlocks(cfg, run, actions, request);
  }

  // ----- the bound is sharp -----

  /** Go on with a punctual run by one more action. */
  lemma Extend(cfg: Config, run: seq<State>, actions: seq<Action>, k: nat, a: Action)
      returns (run': seq<State>, actions': seq<Action>, s': State)
    requires PunctualRun(cfg, run, actions, k)
    requires Next(cfg, run[|actions|], a).Some? && Punctual(Next(cfg, run[|actions|], a).value, k)
    ensures s' == Next(cfg, run[|actions|], a).value
    ensures PunctualRun(cfg, run', actions', k) && run'[|actions'|] == s'
  {
    s' := Next(cfg, run[|actions|], a).value;
    run', actions' := run + [s'], actions + [a];
    forall i | 0 <= i < |actions'| ensures Next(cfg, run'[i], actions'[i]) == Some(run'[i + 1]) {
      if i < |actions| { assert Next(cfg, run[i], actions[i]) == Some(run[i + 1]); }
    }
  }

  /** One engine, at work on request 0. */
  predicate OnlyWorker(s: State, pc: Pc) {
    s.engines == map[0 := pc] && pc.Working? && pc.stage == Fresh && pc.job.request == 0 &&
    0 in s.store.leases && s.store.leases[0].owner == pc.attempt
  }

  /** A punctual run in which the only engine has just taken its lease. */
  lemma LeaseTaken(cfg: Config, k: nat) returns (run: seq<State>, actions: seq<Action>, s: State, pc: Pc)
    ensures PunctualRun(cfg, run, actions, k) && run[|actions|] == s
    ensures OnlyWorker(s, pc) && pc.beat == Replying(s.store.quota.now + cfg.reply, 0)
    ensures s.store.leases[0].expiry == s.store.quota.now + cfg.lease
  {
    run, actions := [Initial], [];
    var admit, s1 := AdmitFirst(cfg, Initial, Bucket("key", 0), 0, Each(1), 0);
    run, actions, s := Extend(cfg, run, actions, k, admit);
    s := DispatchFirst(cfg, s1);
    run, actions, s := Extend(cfg, run, actions, k, Dispatch(0, true));
    run, actions, s, pc := LeaseTakenFrom(cfg, k, run, actions, s, Job(0, 0, 0));
  }

  /** The only engine takes the only job, up to its lease. */
  lemma LeaseTakenFrom(cfg: Config, k: nat, run: seq<State>, actions: seq<Action>, s: State, job: Job)
      returns (run': seq<State>, actions': seq<Action>, s': State, pc: Pc)
    requires PunctualRun(cfg, run, actions, k) && run[|actions|] == s
    requires s.engines == map[] && s.store.stream == [job] && s.store.cursor == 0
    requires job.request == 0 && job.deadline == 0
    requires s.store.leases == map[] && s.store.statuses == map[]
    ensures PunctualRun(cfg, run', actions', k) && run'[|actions'|] == s'
    ensures OnlyWorker(s', pc) && pc.beat == Replying(s'.store.quota.now + cfg.reply, 0)
    ensures s'.store.leases[0].expiry == s'.store.quota.now + cfg.lease
  {
    run', actions', s' := Extend(cfg, run, actions, k, EngineStep(0, Deliver));
    assert s'.engines == map[0 := Starting(0, job)];
    run', actions', s' := Extend(cfg, run', actions', k, EngineStep(0, Advance));
    assert s'.engines == map[0 := Inspecting(0, job)];
    run', actions', s' := Extend(cfg, run', actions', k, EngineStep(0, Advance));
    assert s'.engines == map[0 := Acquiring(0, job)];
    run', actions', s' := Extend(cfg, run', actions', k, EngineStep(0, Advance));
    pc := s'.engines[0];
  }

  /** A whole cycle in which every leg takes as long as it may. */
  lemma SlowCycle(cfg: Config, k: nat, run: seq<State>, actions: seq<Action>, s: State, pc: Pc)
      returns (run': seq<State>, actions': seq<Action>, s': State, pc': Pc)
    requires PunctualRun(cfg, run, actions, k) && run[|actions|] == s && OnlyWorker(s, pc)
    requires pc.beat.Replying? && pc.beat.misses <= k && pc.beat.due == s.store.quota.now + cfg.reply
    ensures PunctualRun(cfg, run', actions', k) && run'[|actions'|] == s' && OnlyWorker(s', pc')
    ensures s'.store.leases == s.store.leases && s'.store.quota.now == s.store.quota.now + Cycle(cfg)
    ensures pc' == pc.(beat := Sending(s'.store.quota.now, pc.beat.misses))
  {
    run', actions', s' := Extend(cfg, run, actions, k, Action.Tick(cfg.reply));
    run', actions', s' := Extend(cfg, run', actions', k, EngineStep(0, Doze));
    assert s'.engines == map[0 := pc.(beat := Sleeping(s'.store.quota.now + cfg.heartbeat, pc.beat.misses))];
    run', actions', s' := Extend(cfg, run', actions', k, Action.Tick(cfg.heartbeat));
    run', actions', s' := Extend(cfg, run', actions', k, EngineStep(0, Wake));
    pc' := pc.(beat := Sending(s'.store.quota.now + cfg.send, pc.beat.misses));
    assert s'.engines == map[0 := pc'];
    run', actions', s' := Extend(cfg, run', actions', k, Action.Tick(cfg.send));
  }

  /** From there, miss every renewal left to be missed. */
  lemma {:induction false} MissTheRest(cfg: Config, k: nat, run: seq<State>, actions: seq<Action>, s: State, pc: Pc)
      returns (run': seq<State>, actions': seq<Action>, s': State)
    requires PunctualRun(cfg, run, actions, k) && run[|actions|] == s && OnlyWorker(s, pc)
    requires pc.beat.Replying? && pc.beat.misses <= k && pc.beat.due == s.store.quota.now + cfg.reply
    ensures PunctualRun(cfg, run', actions', k) && run'[|actions'|] == s'
    ensures 0 in s'.engines && s'.engines[0].Working? && s'.engines[0].job.request == 0
    ensures s'.store.leases == s.store.leases
    ensures s'.store.quota.now == s.store.quota.now + (k + 1 - pc.beat.misses) * Cycle(cfg)
    decreases k - pc.beat.misses
  {
    var pc';
    run', actions', s', pc' := SlowCycle(cfg, k, run, actions, s, pc);
    if pc.beat.misses < k {
      run', actions', s' := Extend(cfg, run', actions', k, EngineStep(0, Renew(Dropped)));
      pc' := pc.(beat := Replying(s'.store.quota.now + cfg.reply, pc.beat.misses + 1));
      assert s'.engines == map[0 := pc'];
      run', actions', s' := MissTheRest(cfg, k, run', actions', s', pc');
      assert (k + 1 - pc.beat.misses) * Cycle(cfg) == Cycle(cfg) + (k - pc.beat.misses) * Cycle(cfg);
    }
  }

  /** The bound is exact: every punctual run keeps its leases if and only if `k` + 1
      cycles are shorter than the lease. */
  lemma KeptIffFastEnough(cfg: Config, k: nat)
    ensures FastEnough(cfg, k) <==>
              forall run, actions :: PunctualRun(cfg, run, actions, k) ==> LeaseHeld(run[|actions|])
  {
    if FastEnough(cfg, k) {
      forall run, actions | PunctualRun(cfg, run, actions, k) ensures LeaseHeld(run[|actions|]) {
        LeaseIsKept(cfg, run, actions, k);
      }
    } else {
      var run, actions, s, pc := LeaseTaken(cfg, k);
      run, actions, s := MissTheRest(cfg, k, run, actions, s, pc);
      assert !HoldsLease(s.store, s.engines[0]);
      assert PunctualRun(cfg, run, actions, k) && !LeaseHeld(run[|actions|]);
    }
  }
}
