/** What the lease is for: while no attempt loses its lease before it releases it, the
    attempts of a request take turns in the request's result log. */
module LeaseBlocks {
  import opened Basics
  import opened Protocol

  // ----- who holds what -----

  /** From the acquisition to the release an attempt relies on its lease. */
  predicate Relies(pc: Pc) {
    pc.Working? || pc.Releasing?
  }

  predicate HoldsLease(v: Store, pc: Pc) {
    Relies(pc) ==> LeaseOwned(v, pc.job.request, pc.attempt)
  }

  /** No attempt has lost its lease between acquiring and releasing it. */
  ghost predicate LeaseHeld(s: State) {
    forall e :: e in s.engines ==> HoldsLease(s.store, s.engines[e])
  }

  /** Attempt ids are fresh: below the count of ids drawn, and no two engines share one. */
  ghost predicate AttemptsDistinct(s: State) {
    (forall e :: e in s.engines && Relies(s.engines[e]) ==> s.engines[e].attempt < s.store.attempts) &&
    (forall e, f :: e in s.engines && f in s.engines && e != f && Relies(s.engines[e]) && Relies(s.engines[f])
       ==> s.engines[e].attempt != s.engines[f].attempt)
  }

  /** An attempt keeps its id and its job; one that begins takes a lease under a fresh id. */
  predicate AttemptKept(v: Store, pc: Pc, move: Move) {
    Relies(move.pc) ==>
      if Relies(pc) then move.pc.attempt == pc.attempt && move.pc.job == pc.job && pc.Working?
      else move.pc.attempt == v.attempts && move.command == TakeLease(move.pc.job.request) &&
           !LeaseLive(v, move.pc.job.request)
  }

  lemma AdvanceKeepsAttempt(cfg: Config, v: Store, e: nat, pc: Pc)
    requires Advanced(cfg, v, e, pc).Some?
    ensures AttemptKept(v, pc, Advanced(cfg, v, e, pc).value)
  {
  }

  lemma WorkKeepsAttempt(cfg: Config, v: Store, pc: Pc, step: Step)
    requires pc.Working? && Worked(cfg, v, pc, step).Some?
    ensures AttemptKept(v, pc, Worked(cfg, v, pc, step).value)
  {
  }

  lemma MoveKeepsAttempt(cfg: Config, v: Store, e: nat, pc: Pc, step: Step)
    requires Moved(cfg, v, e, pc, step).Some?
    ensures var move := Moved(cfg, v, e, pc, step).value;
            AttemptKept(v, pc, move) && v.attempts <= Exec(cfg, v, move.command).attempts &&
            (move.command.TakeLease? ==> v.attempts < Exec(cfg, v, move.command).attempts)
  {
    match step
    case Advance => AdvanceKeepsAttempt(cfg, v, e, pc);
    case Deliver =>
    case Reclaim(_) =>
    case Crash =>
    case _ => WorkKeepsAttempt(cfg, v, pc, step);
  }

  lemma FrontsLeaveEngines(cfg: Config, s: State, a: Action)
    requires Next(cfg, s, a).Some? && !a.EngineStep?
    ensures Next(cfg, s, a).value.engines == s.engines
    ensures var v, v' := s.store, Next(cfg, s, a).value.store;
            v'.attempts == v.attempts && v'.logs == v.logs && v'.leases == v.leases
    ensures Next(cfg, s, a).value.store.quota.now >= s.store.quota.now
    ensures !a.Tick? ==> Next(cfg, s, a).value.store.quota.now == s.store.quota.now
  {
  }

  lemma DistinctStep(cfg: Config, s: State, a: Action)
    requires AttemptsDistinct(s) && Next(cfg, s, a).Some?
    ensures AttemptsDistinct(Next(cfg, s, a).value)
  {
    if a.EngineStep? {
      MoveKeepsAttempt(cfg, s.store, a.engine, PcOf(s, a.engine), a.step);
    } else {
      FrontsLeaveEngines(cfg, s, a);
    }
  }

  // ----- blocks -----

  /** The log without its terminal events. */
  function Work(log: seq<Event>): (w: seq<Event>)
    ensures forall e :: e in w ==> e in log && !IsTerminal(e)
  {
    if log == [] then []
    else
      var last := log[|log| - 1];
      Work(log[..|log| - 1]) + if IsTerminal(last) then [] else [last]
  }

  lemma WorkAppend(log: seq<Event>, e: Event)
    ensures Work(log + [e]) == Work(log) + if IsTerminal(e) then [] else [e]
  {
    assert (log + [e])[..|log|] == log;
  }

  predicate Follows(w: seq<Event>, i: nat)
    requires i < |w|
  {
    if w[i].body.Started? then forall j :: 0 <= j < i ==> w[j].author != w[i].author
    else i > 0 && w[i - 1].author == w[i].author
  }

  /** One block per attempt: an attempt's first event is its AttemptStarted, and every
      token directly follows an event of its own attempt. */
  ghost predicate Blocks(w: seq<Event>) {
    forall i :: 0 <= i < |w| ==> Follows(w, i)
  }

  /** In blocks, the events of an attempt are contiguous and open with its only
      AttemptStarted. */
  lemma {:induction false} BlocksAreContiguous(w: seq<Event>, i: nat, j: nat, k: nat)
    requires Blocks(w) && i <= j <= k < |w| && w[i].author == w[k].author
    ensures w[j].author == w[k].author
    ensures w[j].body.Started? ==> j == i
    decreases k
  {
    if i < k {
      assert Follows(w, k);
      assert !w[k].body.Started?;
      if j < k { BlocksAreContiguous(w, i, j, k - 1); }
    }
  }

  ghost predicate LogInBlocks(v: Store, request: nat) {
    Blocks(Work(Log(v, request))) &&
    (forall e :: e in Work(Log(v, request)) ==> e.author.Attempt? && e.author.id < v.attempts)
  }

  /** Where an attempt stands in its request's log. */
  ghost predicate Placed(v: Store, pc: Pc) {
    pc.Working? ==>
      var w := Work(Log(v, pc.job.request));
      match pc.stage
      case Fresh => forall e :: e in w ==> e.author != Attempt(pc.attempt)
      case Stopping(_) => true
      case _ => w != [] && w[|w| - 1].author == Attempt(pc.attempt)
  }

  ghost predicate TakingTurns(s: State) {
    AttemptsDistinct(s) &&
    (forall r: nat :: LogInBlocks(s.store, r)) &&
    (forall e :: e in s.engines ==> Placed(s.store, s.engines[e]))
  }

  lemma BlocksAppend(w: seq<Event>, e: Event)
    requires Blocks(w) && Follows(w + [e], |w|)
    ensures Blocks(w + [e])
  {
    forall i | 0 <= i < |w + [e]| ensures Follows(w + [e], i) {
      if i < |w| { assert Follows(w, i); }
    }
  }

  /** A token, or the opening event, of a working attempt. */
  lemma WorkStep(cfg: Config, v: Store, pc: Pc, e: Event)
    requires pc.Working? && Placed(v, pc) && pc.attempt < v.attempts
    requires forall r: nat :: LogInBlocks(v, r)
    requires e.author == Attempt(pc.attempt)
    requires (pc.stage == Fresh && e.body.Started?) || (pc.stage == Streaming && e.body.Token?)
    ensures var v' := Exec(cfg, v, Append(pc.job.request, e));
            (forall r: nat :: LogInBlocks(v', r)) && Placed(v', pc.(stage := Noting))
  {
    var v' := Exec(cfg, v, Append(pc.job.request, e));
    WorkAppended(cfg, v, pc.job.request, e);
    WorkInBlocks(v, v', pc, e);
    forall r: nat ensures LogInBlocks(v', r) {
      if r != pc.job.request { SameLogInBlocks(v, v', r); }
    }
  }

  lemma SameLogInBlocks(v: Store, v': Store, r: nat)
    requires LogInBlocks(v, r) && Log(v', r) == Log(v, r) && v.attempts <= v'.attempts
    ensures LogInBlocks(v', r)
  {
  }

  lemma WorkInBlocks(v: Store, v': Store, pc: Pc, e: Event)
    requires pc.Working? && Placed(v, pc) && pc.attempt < v.attempts && LogInBlocks(v, pc.job.request)
    requires e.author == Attempt(pc.attempt)
    requires (pc.stage == Fresh && e.body.Started?) || (pc.stage == Streaming && e.body.Token?)
    requires Work(Log(v', pc.job.request)) == Work(Log(v, pc.job.request)) + [e] && v'.attempts == v.attempts
    ensures LogInBlocks(v', pc.job.request) && Placed(v', pc.(stage := Noting))
  {
    NextInTurn(Work(Log(v, pc.job.request)), e, v.attempts);
  }

  lemma WorkAppended(cfg: Config, v: Store, request: nat, e: Event)
    requires !IsTerminal(e)
    ensures Work(Log(Exec(cfg, v, Append(request, e)), request)) == Work(Log(v, request)) + [e]
  {
    WorkAppend(Log(v, request), e);
  }

  lemma NextInTurn(w: seq<Event>, e: Event, attempts: nat)
    requires Blocks(w) && forall x :: x in w ==> x.author.Attempt? && x.author.id < attempts
    requires e.author.Attempt? && e.author.id < attempts
    requires if e.body.Started? then forall x :: x in w ==> x.author != e.author
             else w != [] && w[|w| - 1].author == e.author
    ensures Blocks(w + [e]) && forall x :: x in w + [e] ==> x.author.Attempt? && x.author.id < attempts
  {
    assert Follows(w + [e], |w|);
    BlocksAppend(w, e);
  }

  /** Everything else leaves the work in the logs as it is. */
  lemma OtherStep(cfg: Config, v: Store, c: Command)
    requires forall r: nat :: LogInBlocks(v, r)
    requires c.Append? ==> IsTerminal(c.event)
    ensures forall r: nat :: Work(Log(Exec(cfg, v, c), r)) == Work(Log(v, r))
    ensures forall r: nat :: LogInBlocks(Exec(cfg, v, c), r)
  {
    var v' := Exec(cfg, v, c);
    forall r: nat ensures Work(Log(v', r)) == Work(Log(v, r)) {
      if c.Append? && c.request == r { WorkAppend(Log(v, r), c.event); } else { assert Log(v', r) == Log(v, r); }
    }
    assert v.attempts <= v'.attempts;
    forall r: nat ensures LogInBlocks(v', r) { assert LogInBlocks(v, r); }
  }

  /** The event a working attempt appends. */
  function WorkEvent(pc: Pc, step: Step): Event
    requires pc.Working?
  {
    Event(Attempt(pc.attempt), if step.Emit? then Token(step.text, step.cumulative) else Started)
  }

  lemma AppendsWork(cfg: Config, v: Store, e: nat, pc: Pc, step: Step)
    requires Moved(cfg, v, e, pc, step).Some?
    ensures var move := Moved(cfg, v, e, pc, step).value;
            if step.Begin? || step.Emit?
            then pc.Working? && (pc.stage == if step.Begin? then Fresh else Streaming) &&
                 move == Move(Append(pc.job.request, WorkEvent(pc, step)), pc.(stage := Noting))
            else move.command.Append? ==> IsTerminal(move.command.event)
  {
  }

  lemma PlaceAfterOtherStep(cfg: Config, v: Store, e: nat, pc: Pc, step: Step)
    requires Moved(cfg, v, e, pc, step).Some? && !step.Begin? && !step.Emit?
    requires (forall r: nat :: LogInBlocks(v, r)) && Placed(v, pc)
    ensures var move := Moved(cfg, v, e, pc, step).value; Placed(Exec(cfg, v, move.command), move.pc)
  {
    var move := Moved(cfg, v, e, pc, step).value;
    AppendsWork(cfg, v, e, pc, step);
    OtherStep(cfg, v, move.command);
    MoveKeepsAttempt(cfg, v, e, pc, step);
    if move.pc.Working? && move.pc.stage == Fresh && !pc.Working? {
      assert LogInBlocks(v, move.pc.job.request);
    }
  }

  /** A working attempt is alone on its request, because it owns the lease. */
  lemma AloneOnRequest(s: State, e: nat, f: nat)
    requires LeaseHeld(s) && AttemptsDistinct(s) && e in s.engines && f in s.engines && e != f
    requires Relies(s.engines[e]) && Relies(s.engines[f])
    ensures s.engines[e].job.request != s.engines[f].job.request
  {
    assert HoldsLease(s.store, s.engines[e]) && HoldsLease(s.store, s.engines[f]);
  }

  lemma TurnsStep(cfg: Config, s: State, a: Action)
    requires TakingTurns(s) && LeaseHeld(s) && Next(cfg, s, a).Some?
    ensures TakingTurns(Next(cfg, s, a).value)
  {
    DistinctStep(cfg, s, a);
    if a.EngineStep? {
      EngineTurn(cfg, s, a.engine, a.step);
    } else {
      FrontsLeaveEngines(cfg, s, a);
      var v, v' := s.store, Next(cfg, s, a).value.store;
      assert forall r: nat :: Log(v', r) == Log(v, r);
      forall r: nat ensures LogInBlocks(v', r) { assert LogInBlocks(v, r); }
    }
  }

  lemma EngineTurn(cfg: Config, s: State, e: nat, step: Step)
    requires TakingTurns(s) && LeaseHeld(s) && Next(cfg, s, EngineStep(e, step)).Some?
    ensures var s' := Next(cfg, s, EngineStep(e, step)).value;
            (forall r: nat :: LogInBlocks(s'.store, r)) &&
            (forall f :: f in s'.engines ==> Placed(s'.store, s'.engines[f]))
  {
    if step.Begin? || step.Emit? {
      WorkTurn(cfg, s, e, step);
    } else {
      OtherTurn(cfg, s, e, step);
    }
  }

  lemma WorkTurn(cfg: Config, s: State, e: nat, step: Step)
    requires TakingTurns(s) && LeaseHeld(s) && Next(cfg, s, EngineStep(e, step)).Some? && (step.Begin? || step.Emit?)
    ensures var s' := Next(cfg, s, EngineStep(e, step)).value;
            (forall r: nat :: LogInBlocks(s'.store, r)) &&
            (forall f :: f in s'.engines ==> Placed(s'.store, s'.engines[f]))
  {
    var v, pc := s.store, PcOf(s, e);
    var s' := Next(cfg, s, EngineStep(e, step)).value;
    AppendsWork(cfg, v, e, pc, step);
    WorkStep(cfg, v, pc, WorkEvent(pc, step));
    forall f | f in s'.engines && f != e ensures Placed(s'.store, s'.engines[f]) {
      assert Placed(v, s.engines[f]);
      if s.engines[f].Working? {
        AloneOnRequest(s, e, f);
        assert Log(s'.store, s.engines[f].job.request) == Log(v, s.engines[f].job.request);
        StillPlaced(v, s'.store, s.engines[f]);
      }
    }
  }

  lemma StillPlaced(v: Store, v': Store, pc: Pc)
    requires Placed(v, pc)
    requires pc.Working? ==> Work(Log(v', pc.job.request)) == Work(Log(v, pc.job.request))
    ensures Placed(v', pc)
  {
  }

  lemma OtherTurn(cfg: Config, s: State, e: nat, step: Step)
    requires TakingTurns(s) && Next(cfg, s, EngineStep(e, step)).Some? && !step.Begin? && !step.Emit?
    ensures var s' := Next(cfg, s, EngineStep(e, step)).value;
            (forall r: nat :: LogInBlocks(s'.store, r)) &&
            (forall f :: f in s'.engines ==> Placed(s'.store, s'.engines[f]))
  {
    var v, pc := s.store, PcOf(s, e);
    var s' := Next(cfg, s, EngineStep(e, step)).value;
    AppendsWork(cfg, v, e, pc, step);
    PlaceAfterOtherStep(cfg, v, e, pc, step);
    OtherStep(cfg, v, Moved(cfg, v, e, pc, step).value.command);
    forall f | f in s'.engines && f != e ensures Placed(s'.store, s'.engines[f]) {
      assert Placed(v, s.engines[f]);
      StillPlaced(v, s'.store, s.engines[f]);
    }
  }

  lemma NextTakesTurns(cfg: Config, s: State, a: Action, s': State)
    requires TakingTurns(s) && LeaseHeld(s) && Next(cfg, s, a) == Some(s')
    ensures TakingTurns(s')
  {
    TurnsStep(cfg, s, a);
  }

  lemma {:induction false} RunTakesTurns(cfg: Config, run: seq<State>, actions: seq<Action>, i: nat)
    requires IsRun(cfg, run, actions) && i < |run|
    requires forall j :: 0 <= j < i ==> LeaseHeld(run[j])
    ensures TakingTurns(run[i])
  {
    if i > 0 {
      RunTakesTurns(cfg, run, actions, i - 1);
      NextTakesTurns(cfg, run[i - 1], actions[i - 1], run[i - 1 + 1]);
    }
  }

  /** Lease exclusion serialises the log: in every run in which no attempt loses its
      lease, the AttemptStarted and Token events of every request form one contiguous
      block per attempt, whatever crashes, is reclaimed, or ends out of turn. */
  lemma LogsInBlocks(cfg: Config, run: seq<State>, actions: seq<Action>, request: nat)
    requires IsRun(cfg, run, actions)
    requires forall j :: 0 <= j < |actions| ==> LeaseHeld(run[j])
    ensures Blocks(Work(Log(run[|actions|].store, request)))
  {
    RunTakesTurns(cfg, run, actions, |actions|);
    assert LogInBlocks(run[|actions|].store, request);
  }

  // ----- after the release -----

  /** A lease belongs to the request its owner works on. */
  ghost predicate LeasesMatch(s: State) {
    AttemptsDistinct(s) &&
    (forall r :: r in s.store.leases ==> s.store.leases[r].owner < s.store.attempts) &&
    (forall r, e | r in s.store.leases && e in s.engines && Relies(s.engines[e]) ::
       s.store.leases[r].owner == s.engines[e].attempt ==> s.engines[e].job.request == r)
  }

  /** An attempt id no engine works under and no live lease carries. */
  ghost predicate Retired(s: State, attempt: nat) {
    attempt < s.store.attempts &&
    (forall e :: e in s.engines && Relies(s.engines[e]) ==> s.engines[e].attempt != attempt) &&
    (forall r :: !LeaseOwned(s.store, r, attempt))
  }

  /** A lease that is there after a step was there before it, was extended by its owner,
      or was taken under a fresh id. */
  predicate LeaseExplained(v: Store, pc: Pc, move: Move, r: nat, lease: Lease) {
    (r in v.leases && lease == v.leases[r]) ||
    (pc.Working? && r == pc.job.request && lease.owner == pc.attempt && LeaseOwned(v, r, pc.attempt)) ||
    (Relies(move.pc) && !Relies(pc) && r == move.pc.job.request && lease.owner == v.attempts)
  }

  lemma LeaseOrigin(cfg: Config, v: Store, e: nat, pc: Pc, step: Step, r: nat)
    requires Moved(cfg, v, e, pc, step).Some?
    requires r in Exec(cfg, v, Moved(cfg, v, e, pc, step).value.command).leases
    ensures var move := Moved(cfg, v, e, pc, step).value;
            LeaseExplained(v, pc, move, r, Exec(cfg, v, move.command).leases[r])
  {
    match step
    case Advance => AdvancedLease(cfg, v, e, pc, r);
    case Deliver =>
    case Reclaim(_) =>
    case Crash =>
    case _ => WorkedLease(cfg, v, pc, step, r);
  }

  lemma AdvancedLease(cfg: Config, v: Store, e: nat, pc: Pc, r: nat)
    requires Advanced(cfg, v, e, pc).Some? && r in Exec(cfg, v, Advanced(cfg, v, e, pc).value.command).leases
    ensures var move := Advanced(cfg, v, e, pc).value;
            LeaseExplained(v, pc, move, r, Exec(cfg, v, move.command).leases[r])
  {
  }

  lemma WorkedLease(cfg: Config, v: Store, pc: Pc, step: Step, r: nat)
    requires pc.Working? && Worked(cfg, v, pc, step).Some?
    requires r in Exec(cfg, v, Worked(cfg, v, pc, step).value.command).leases
    ensures var move := Worked(cfg, v, pc, step).value;
            LeaseExplained(v, pc, move, r, Exec(cfg, v, move.command).leases[r])
  {
  }

  lemma LeasesMatchStep(cfg: Config, s: State, a: Action)
    requires LeasesMatch(s) && Next(cfg, s, a).Some?
    ensures LeasesMatch(Next(cfg, s, a).value)
  {
    var s' := Next(cfg, s, a).value;
    DistinctStep(cfg, s, a);
    if a.EngineStep? {
      var pc := PcOf(s, a.engine);
      MoveKeepsAttempt(cfg, s.store, a.engine, pc, a.step);
      forall r | r in s'.store.leases
        ensures s'.store.leases[r].owner < s'.store.attempts
        ensures forall f | f in s'.engines && Relies(s'.engines[f]) ::
                  s'.store.leases[r].owner == s'.engines[f].attempt ==> s'.engines[f].job.request == r
      {
        LeaseOrigin(cfg, s.store, a.engine, pc, a.step, r);
      }
    } else {
      FrontsLeaveEngines(cfg, s, a);
    }
  }

  lemma RetiredStep(cfg: Config, s: State, a: Action, attempt: nat)
    requires Retired(s, attempt) && Next(cfg, s, a).Some?
    ensures Retired(Next(cfg, s, a).value, attempt)
  {
    var s' := Next(cfg, s, a).value;
    if a.EngineStep? {
      var pc := PcOf(s, a.engine);
      MoveKeepsAttempt(cfg, s.store, a.engine, pc, a.step);
      ClockKept(cfg, s.store, a.engine, pc, a.step);
      forall r ensures !LeaseOwned(s'.store, r, attempt) {
        assert !LeaseOwned(s.store, r, attempt);
        if r in s'.store.leases { LeaseOrigin(cfg, s.store, a.engine, pc, a.step, r); }
      }
    } else {
      FrontsLeaveEngines(cfg, s, a);
      forall r ensures !LeaseOwned(s'.store, r, attempt) {
        assert !LeaseOwned(s.store, r, attempt);
      }
    }
  }

  lemma ClockKept(cfg: Config, v: Store, e: nat, pc: Pc, step: Step)
    requires Moved(cfg, v, e, pc, step).Some?
    ensures Exec(cfg, v, Moved(cfg, v, e, pc, step).value.command).quota.now == v.quota.now
  {
  }

  lemma NextLeasesMatch(cfg: Config, s: State, a: Action, s': State)
    requires LeasesMatch(s) && Next(cfg, s, a) == Some(s')
    ensures LeasesMatch(s')
  {
    LeasesMatchStep(cfg, s, a);
  }

  lemma {:induction false} RunLeasesMatch(cfg: Config, run: seq<State>, actions: seq<Action>, i: nat)
    requires IsRun(cfg, run, actions) && i < |run|
    ensures LeasesMatch(run[i])
  {
    if i > 0 {
      RunLeasesMatch(cfg, run, actions, i - 1);
      NextLeasesMatch(cfg, run[i - 1], actions[i - 1], run[i - 1 + 1]);
    }
  }

  /** Because the heartbeat is awaited before the release, a released lease is not
      renewed: from the release on, its owner never owns a lease again. */
  lemma {:induction false} NoRenewalAfterRelease(cfg: Config, run: seq<State>, actions: seq<Action>,
                                                 e: nat, i: nat, j: nat)
    requires IsRun(cfg, run, actions) && i < j < |run|
    requires actions[i] == EngineStep(e, Advance) && PcOf(run[i], e).Releasing?
    ensures Retired(run[j], PcOf(run[i], e).attempt)
    decreases j
  {
    assert Next(cfg, run[j - 1], actions[j - 1]) == Some(run[j - 1 + 1]);
    if j == i + 1 {
      RunLeasesMatch(cfg, run, actions, i);
    } else {
      NoRenewalAfterRelease(cfg, run, actions, e, i, j - 1);
      RetiredStep(cfg, run[j - 1], actions[j - 1], PcOf(run[i], e).attempt);
    }
  }
}
