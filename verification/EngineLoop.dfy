/** The engine program itself, run alone: `run_job` and the consume loop, as methods over
    a system that records the run they make.  Other processes stand still meanwhile. */
module EngineLoop {
  import opened Basics
  import opened QuotaBook
  import opened Protocol
  import opened ProtocolSafety
  import opened ProtocolRuns

  datatype Disposition = Acknowledged | Pending

  /** What the model runtime produces for a job: token texts, then its usage or an error. */
  datatype RuntimeOutcome = RuntimeOutcome(texts: seq<string>, ending: Ending)

  class System {
    const cfg: Config
    var state: State
    ghost var run: seq<State>
    ghost var actions: seq<Action>

    ghost predicate Valid()
      reads this
    {
      IsRun(cfg, run, actions) && run[|actions|] == state
    }

    /** Take over in any reachable state. */
    constructor (cfg: Config, state: State, ghost run: seq<State>, ghost actions: seq<Action>)
      requires IsRun(cfg, run, actions) && run[|actions|] == state
      ensures Valid() && this.cfg == cfg && this.state == state
    {
      this.cfg, this.state, this.run, this.actions := cfg, state, run, actions;
    }

    /** One action of the protocol. */
    method Act(a: Action)
      requires Valid() && Next(cfg, state, a).Some?
      modifies this
      ensures Valid() && state == Next(cfg, old(state), a).value
    {
      ghost var before, done := run, actions;
      state := Next(cfg, state, a).value;
      run, actions := run + [state], actions + [a];
      forall i | 0 <= i < |actions| ensures Next(cfg, run[i], actions[i]) == Some(run[i + 1]) {
        if i < |done| { assert Next(cfg, before[i], done[i]) == Some(before[i + 1]); }
      }
    }

    /** A step of engine `e` inside a job: its move, and nothing else. */
    method Do(e: nat, step: Step)
      requires Valid() && PcOf(state, e) != Idle && !PcOf(state, e).Acking?
      requires Moved(cfg, state.store, e, PcOf(state, e), step).Some?
      modifies this
      ensures Valid() && Untouched(old(state), state, e, old(PcOf(state, e)).job.request)
      ensures var move := Moved(cfg, old(state).store, e, PcOf(old(state), e), step).value;
              PcOf(state, e) == move.pc && state.store == Exec(cfg, old(state).store, move.command)
    {
      MoveUntouched(cfg, state, e, step);
      Act(EngineStep(e, step));
    }

    /** The deadline branch of `run_job`: cancel, publish the failure, mark it. */
    method FailExpired(e: nat)
      requires Valid() && PcOf(state, e).Withdrawing?
      modifies this
      ensures Valid()
      ensures var Withdrawing(entry, job) := old(PcOf(state, e));
              PcOf(state, e) == Acking(entry, job) && Untouched(old(state), state, e, job.request) &&
              Log(state.store, job.request) == Log(old(state).store, job.request) +
                [Event(Engine(e), Failed("deadline_exceeded", "generation deadline exceeded"))] &&
              state.store.quota == QuotaBook.Do(old(state).store.quota, Cancel(job.reservation))
    {
      Do(e, Advance);
      Do(e, Advance);
      Do(e, Advance);
    }

    /** `execute_attempt`: open the attempt, publish every token, note each one.  A runtime
        that fails may fail before the first token or after any. */
    method ExecuteAttempt(e: nat, outcome: RuntimeOutcome)
      requires Valid() && PcOf(state, e).Working? && PcOf(state, e).stage == Fresh
      modifies this
      ensures Valid()
      ensures var pc := old(PcOf(state, e));
              PcOf(state, e) == pc.(stage := Stopping(outcome.ending)) &&
              Untouched(old(state), state, e, pc.job.request) &&
              state.store.leases == old(state).store.leases && state.store.quota == old(state).store.quota &&
              Log(state.store, pc.job.request) == Log(old(state).store, pc.job.request)
                + [Event(Attempt(pc.attempt), Started)] + Tokens(Attempt(pc.attempt), outcome.texts)
    {
      ghost var was, pc, author := state, PcOf(state, e), Attempt(PcOf(state, e).attempt);
      ghost var log := Log(was.store, pc.job.request) + [Event(author, Started)];
      Publish(e, Begin, Event(author, Started));
      assert log + Tokens(author, outcome.texts[..0]) == log;
      var index := 0;
      while index < |outcome.texts|
        invariant 0 <= index <= |outcome.texts|
        invariant Valid() && PcOf(state, e) == pc.(stage := Streaming) && Untouched(was, state, e, pc.job.request)
        invariant state.store.leases == was.store.leases && state.store.quota == was.store.quota
        invariant Log(state.store, pc.job.request) == log + Tokens(author, outcome.texts[..index])
      {
        MoreTokens(log, author, outcome.texts, index);
        Publish(e, Emit(outcome.texts[index], index + 1), Event(author, Token(outcome.texts[index], index + 1)));
        index := index + 1;
      }
      assert outcome.texts[..index] == outcome.texts;
      Do(e, Finish(outcome.ending));
    }

    /** `publish_result` of an event that is not terminal: append it, note the status. */
    method Publish(e: nat, step: Step, ghost event: Event)
      requires Valid() && PcOf(state, e).Working?
      requires Worked(cfg, state.store, PcOf(state, e), step)
            == Some(Move(Append(PcOf(state, e).job.request, event), PcOf(state, e).(stage := Noting)))
      modifies this
      ensures Valid()
      ensures var pc := old(PcOf(state, e));
              PcOf(state, e) == pc.(stage := Streaming) && Untouched(old(state), state, e, pc.job.request) &&
              state.store.leases == old(state).store.leases && state.store.quota == old(state).store.quota &&
              Log(state.store, pc.job.request) == Log(old(state).store, pc.job.request) + [event]
    {
      assert step.Begin? || step.Emit?;
      Do(e, step);
      Do(e, Note);
    }

    /** After the attempt: let the heartbeat finish what it is at, stop it, release the lease
        if it is still owned, settle, conclude, mark.  `how` is the fate of a renewal that was
        on its way. */
    method CloseAttempt(e: nat, how: Renewal)
      requires Valid() && PcOf(state, e).Working? && PcOf(state, e).stage.Stopping?
      modifies this
      ensures Valid()
      ensures var pc, v := old(PcOf(state, e)), old(state).store;
              PcOf(state, e) == Acking(pc.entry, pc.job) && Untouched(old(state), state, e, pc.job.request) &&
              (LeaseLive(state.store, pc.job.request) <==>
                 LeaseLive(v, pc.job.request) && !LeaseOwned(v, pc.job.request, pc.attempt)) &&
              state.store.quota ==
                QuotaBook.Do(v.quota, Reconcile(pc.job.reservation, Generated(pc.stage.ending))) &&
              Log(state.store, pc.job.request) ==
                Log(v, pc.job.request) + [Event(Attempt(pc.attempt), TerminalBody(pc.stage.ending))]
      ensures var pc := old(PcOf(state, e)); SettledWith(old(state).store, state.store, pc.job, pc.stage.ending)
    {
      ghost var pc := PcOf(state, e);
      StopHeartbeat(e, how);
      Do(e, Advance);
      assert PcOf(state, e) == Settling(pc.entry, pc.job, pc.attempt, pc.stage.ending);
      ConcludeAttempt(e);
    }

    /** The heartbeat ends at its next sleep, or has ended when it found the lease lost. */
    method StopHeartbeat(e: nat, how: Renewal)
      requires Valid() && PcOf(state, e).Working? && PcOf(state, e).stage.Stopping?
      modifies this
      ensures Valid()
      ensures var pc, v := old(PcOf(state, e)), old(state).store;
              PcOf(state, e).Releasing? && Untouched(old(state), state, e, pc.job.request) &&
              PcOf(state, e) == Releasing(pc.entry, pc.job, pc.attempt, pc.stage.ending, PcOf(state, e).due) &&
              state.store == v.(leases := state.store.leases) &&
              (LeaseLive(v, pc.job.request) && !LeaseOwned(v, pc.job.request, pc.attempt) ==> state.store == v) &&
              (!LeaseLive(v, pc.job.request) ==> !LeaseLive(state.store, pc.job.request)) &&
              (LeaseLive(state.store, pc.job.request) && LeaseOwned(v, pc.job.request, pc.attempt) ==>
                 LeaseOwned(state.store, pc.job.request, pc.attempt))
    {
      if PcOf(state, e).beat.Sending? {
        Do(e, Renew(how));
      }
      if PcOf(state, e).beat.Replying? {
        Do(e, Doze);
      }
      Do(e, Stop);
    }

    method ConcludeAttempt(e: nat)
      requires Valid() && PcOf(state, e).Settling?
      modifies this
      ensures Valid()
      ensures var Settling(entry, job, attempt, ending) := old(PcOf(state, e));
              PcOf(state, e) == Acking(entry, job) && Untouched(old(state), state, e, job.request) &&
              state.store.leases == old(state).store.leases &&
              state.store.quota ==
                QuotaBook.Do(old(state).store.quota, Reconcile(job.reservation, Generated(ending))) &&
              Log(state.store, job.request) ==
                Log(old(state).store, job.request) + [Event(Attempt(attempt), TerminalBody(ending))]
    {
      Do(e, Advance);
      Do(e, Advance);
      Do(e, Advance);
    }

    /** The leased part of `run_job`. */
    method AttemptJob(e: nat, outcome: RuntimeOutcome)
      requires Valid() && PcOf(state, e).Acquiring? && cfg.lease > 0
      requires !LeaseLive(state.store, PcOf(state, e).job.request)
      modifies this
      ensures Valid()
      ensures var Acquiring(entry, job) := old(PcOf(state, e));
              PcOf(state, e) == Acking(entry, job) && Untouched(old(state), state, e, job.request) &&
              state.store.quota ==
                QuotaBook.Do(old(state).store.quota, Reconcile(job.reservation, Generated(outcome.ending))) &&
              Log(state.store, job.request) ==
                Log(old(state).store, job.request) + AttemptEvents(old(state).store.attempts, outcome)
    {
      ghost var log, author := Log(state.store, PcOf(state, e).job.request), Attempt(state.store.attempts);
      Do(e, Advance);
      ExecuteAttempt(e, outcome);
      CloseAttempt(e, Replied);
      ghost var events := [Event(author, Started)] + Tokens(author, outcome.texts);
      assert log + [Event(author, Started)] + Tokens(author, outcome.texts) == log + events;
      assert (log + events) + [Event(author, TerminalBody(outcome.ending))]
          == log + (events + [Event(author, TerminalBody(outcome.ending))]);
    }

    /** `run_job`.  A job is left pending exactly when it is on time, not completed, and
        another attempt's lease is live; otherwise it gets its terminal event here, or has
        one already, and is to be acknowledged. */
    method RunJob(e: nat, outcome: RuntimeOutcome) returns (disposition: Disposition)
      requires Valid() && PcOf(state, e).Starting? && cfg.lease > 0
      modifies this
      ensures Valid()
      ensures var Starting(entry, job) := old(PcOf(state, e));
              Untouched(old(state), state, e, job.request) &&
              PcOf(state, e) == (if disposition == Acknowledged then Acking(entry, job) else Idle) &&
              (disposition == Acknowledged <==> Acknowledges(old(state).store, job)) &&
              Log(state.store, job.request) ==
                Log(old(state).store, job.request) + JobEvents(old(state).store, e, job, outcome) &&
              state.store.quota == JobLedger(old(state).store, job, outcome)
      ensures var job := old(PcOf(state, e)).job;
              RunsAttempt(old(state).store, job) ==> SettledWith(old(state).store, state.store, job, outcome.ending)
    {
      Do(e, Advance);
      if PcOf(state, e).Withdrawing? {
        FailExpired(e);
        return Acknowledged;
      }
      Do(e, Advance);
      if PcOf(state, e).Acking? {
        return Acknowledged;
      }
      if LeaseLive(state.store, PcOf(state, e).job.request) {
        Do(e, Advance);
        return Pending;
      }
      AttemptJob(e, outcome);
      return Acknowledged;
    }
  }

  /** When `run_job` gets as far as an attempt, if nobody interferes. */
  predicate RunsAttempt(v: Store, job: Job) {
    !PastDeadline(v, job) && !ShowsCompleted(v, job.request) && !LeaseLive(v, job.request)
  }

  /** An open reservation was settled with the attempt's generated tokens, or none if it failed,
      and the last event of the log reports the same. */
  ghost predicate SettledWith(v: Store, v': Store, job: Job, ending: Ending) {
    var log := Log(v', job.request);
    log != [] &&
    match ending
    case Succeeded(prompt, generated, finish) =>
      log[|log| - 1].body == Completed(prompt, generated, finish) &&
      (QuotaBook.Open(v.quota, job.reservation) ==>
         |v'.quota.book| == |v.quota.book| && v'.quota.book[job.reservation].outcome == Reconciled(generated))
    case Errored(message) =>
      log[|log| - 1].body == Failed("backend_error", message) &&
      (QuotaBook.Open(v.quota, job.reservation) ==>
         |v'.quota.book| == |v.quota.book| && v'.quota.book[job.reservation].outcome == Reconciled(0))
  }

  /** When `run_job` ends in an acknowledgement, if nobody interferes. */
  predicate Acknowledges(v: Store, job: Job) {
    PastDeadline(v, job) || ShowsCompleted(v, job.request) || !LeaseLive(v, job.request)
  }

  /** What it appends to the result log. */
  function JobEvents(v: Store, e: nat, job: Job, outcome: RuntimeOutcome): seq<Event> {
    if PastDeadline(v, job) then [DeadlineEvent(e)]
    else if ShowsCompleted(v, job.request) || LeaseLive(v, job.request) then []
    else AttemptEvents(v.attempts, outcome)
  }

  function AttemptEvents(attempt: nat, outcome: RuntimeOutcome): seq<Event> {
    [Event(Attempt(attempt), Started)] + Tokens(Attempt(attempt), outcome.texts) +
    [Event(Attempt(attempt), TerminalBody(outcome.ending))]
  }

  /** How it settles the reservation. */
  function JobLedger(v: Store, job: Job, outcome: RuntimeOutcome): Quota {
    if PastDeadline(v, job) then Do(v.quota, Cancel(job.reservation))
    else if ShowsCompleted(v, job.request) || LeaseLive(v, job.request) then v.quota
    else Do(v.quota, Reconcile(job.reservation, Generated(outcome.ending)))
  }

  /** The token events of a stream of texts, counted from 1. */
  function Tokens(author: Author, texts: seq<string>): seq<Event> {
    if texts == [] then []
    else
      var n := |texts| - 1;
      Tokens(author, texts[..n]) + [Event(author, Token(texts[n], n + 1))]
  }

  /** One token event for each text, in order, with counts 1, 2 and so on. */
  lemma {:induction false} TokensAre(author: Author, texts: seq<string>, i: nat)
    requires i < |texts|
    ensures |Tokens(author, texts)| == |texts| && Tokens(author, texts)[i] == Event(author, Token(texts[i], i + 1))
  {
    var n := |texts| - 1;
    if i < n {
      TokensAre(author, texts[..n], i);
    } else if n > 0 {
      TokensAre(author, texts[..n], 0);
    }
  }

  lemma MoreTokens(log: seq<Event>, author: Author, texts: seq<string>, index: nat)
    requires index < |texts|
    ensures log + Tokens(author, texts[..index + 1])
         == (log + Tokens(author, texts[..index])) + [Event(author, Token(texts[index], index + 1))]
  {
    assert texts[..index + 1][..index] == texts[..index];
  }

  // ----- draining -----

  /** Engine `e` is free; every pending entry has idled long enough to be reclaimed; and every
      unacknowledged job is past its deadline or not held back by a live lease. */
  ghost predicate Drainable(cfg: Config, s: State, e: nat) {
    PcOf(s, e) == Idle &&
    (forall i :: i in s.store.pending ==> Idled(cfg, s.store, i)) &&
    (forall i :: 0 <= i < |s.store.stream| && i !in s.store.acked ==> Unhindered(s.store, s.store.stream[i]))
  }

  predicate Unhindered(v: Store, job: Job) {
    PastDeadline(v, job) || !LeaseLive(v, job.request)
  }

  lemma {:induction false} SmallestPending(m: map<nat, nat>) returns (least: nat)
    requires m != map[]
    ensures least in m && forall i :: i in m ==> least <= i
    decreases |m|
  {
    var any :| any in m;
    var rest := m - {any};
    if rest == map[] {
      least := any;
      assert forall i :: i in m ==> i == any || i in rest;
    } else {
      var below := SmallestPending(rest);
      least := if below < any then below else any;
      assert forall i :: i in m ==> i == any || i in rest;
    }
  }

  /** Undelivered and pending entries. */
  function Remaining(v: Store): int {
    |v.stream| - v.cursor + |v.pending|
  }

  /** One pass of the consume loop: next or else reclaim, run, acknowledge.  It takes one
      entry off the undelivered and pending ones. */
  method OnePass(system: System, e: nat, runtime: nat -> RuntimeOutcome)
    requires system.Valid() && system.cfg.lease > 0 && Drainable(system.cfg, system.state, e)
    requires system.state.store.cursor < |system.state.store.stream| || system.state.store.pending != map[]
    modifies system
    ensures system.Valid() && Drainable(system.cfg, system.state, e)
    ensures system.state.store.stream == old(system.state).store.stream
    ensures Remaining(system.state.store) == Remaining(old(system.state).store) - 1
    ensures exists entry :: entry !in old(system.state).store.acked &&
              system.state.store.acked == old(system.state).store.acked + {entry}
  {
    SystemIsSafe(system);
    ghost var before := system.state;
    var entry := TakeEntry(system, e);
    ghost var handed := system.state;
    HandedIsAcknowledged(system.cfg, before, handed, e, entry);
    var disposition := system.RunJob(e, runtime(entry));
    ghost var ran := system.state;
    AcknowledgeEntry(system, e);
    StillDrainable(system.cfg, before, handed, ran, system.state, e, entry);
    OneLess(system.cfg, before, handed, ran, system.state, e, entry);
  }

  /** `next`, and `reclaim_stale` when there is nothing new. */
  method TakeEntry(system: System, e: nat) returns (entry: nat)
    requires system.Valid() && Drainable(system.cfg, system.state, e) && Partitioned(system.state.store)
    requires system.state.store.cursor < |system.state.store.stream| || system.state.store.pending != map[]
    modifies system
    ensures system.Valid() && Handed(system.cfg, old(system.state), system.state, e, entry)
  {
    if system.state.store.cursor < |system.state.store.stream| {
      entry := system.state.store.cursor;
      system.Act(EngineStep(e, Deliver));
    } else {
      ghost var least := SmallestPending(system.state.store.pending);
      entry :| entry in system.state.store.pending && forall i :: i in system.state.store.pending ==> entry <= i;
      assert entry < system.state.store.cursor;
      system.Act(EngineStep(e, Reclaim(entry)));
    }
  }

  method AcknowledgeEntry(system: System, e: nat)
    requires system.Valid() && PcOf(system.state, e).Acking?
    modifies system
    ensures system.Valid() && PcOf(system.state, e) == Idle
    ensures system.state.store ==
              Exec(system.cfg, old(system.state).store, Protocol.Acknowledge(old(PcOf(system.state, e)).entry))
  {
    system.Act(EngineStep(e, Advance));
  }

  /** The engine's loop, run until nothing is left, with any pause before each pass.  It ends,
      having acknowledged every entry ever published, each with its terminal event and its
      reservation settled. */
  method Drain(system: System, e: nat, runtime: nat -> RuntimeOutcome, pauses: nat -> nat)
    requires system.Valid() && system.cfg.lease > 0 && Drainable(system.cfg, system.state, e)
    modifies system
    ensures system.Valid() && system.state.store.stream == old(system.state).store.stream
    ensures system.state.store.pending == map[]
    ensures forall i :: 0 <= i < |system.state.store.stream| ==>
              i in system.state.store.acked && HasTerminal(system.state.store, system.state.store.stream[i].request) &&
              Settled(system.state.store, system.state.store.stream[i].reservation)
  {
    SystemIsSafe(system);
    var passes := 0;
    while system.state.store.cursor < |system.state.store.stream| || system.state.store.pending != map[]
      invariant system.Valid() && Drainable(system.cfg, system.state, e)
      invariant system.state.store.cursor <= |system.state.store.stream|
      invariant system.state.store.stream == old(system.state).store.stream
      decreases Remaining(system.state.store)
    {
      DrainableLater(system.cfg, system.state, e, pauses(passes));
      system.Act(Action.Tick(pauses(passes)));
      OnePass(system, e, runtime);
      SystemIsSafe(system);
      passes := passes + 1;
    }
    SystemIsSafe(system);
    forall i | 0 <= i < |system.state.store.stream| ensures i in system.state.store.acked {
      assert i in system.state.store.pending || i in system.state.store.acked;
    }
  }

  /** Waiting does not hurt. */
  lemma DrainableLater(cfg: Config, s: State, e: nat, ms: nat)
    requires Drainable(cfg, s, e)
    ensures Next(cfg, s, Action.Tick(ms)).Some?
    ensures var s' := Next(cfg, s, Action.Tick(ms)).value;
            Drainable(cfg, s', e) &&
            s'.store == s.store.(quota := s.store.quota.(now := s.store.quota.now + ms))
  {
    var s' := Next(cfg, s, Action.Tick(ms)).value;
    forall i | i in s'.store.pending ensures Idled(cfg, s'.store, i) {
      assert Idled(cfg, s.store, i);
    }
    forall i | 0 <= i < |s'.store.stream| && i !in s'.store.acked ensures Unhindered(s'.store, s'.store.stream[i]) {
      assert Unhindered(s.store, s.store.stream[i]);
    }
  }

  lemma SystemIsSafe(system: System)
    requires system.Valid()
    ensures Safe(system.state)
  {
    RunIsSafe(system.cfg, system.run, system.actions, |system.actions|);
  }

  /** Entry `entry` of `before` is handed to engine `e`. */
  ghost predicate Handed(cfg: Config, before: State, handed: State, e: nat, entry: nat) {
    entry < |before.store.stream| && (entry == before.store.cursor || entry in before.store.pending) &&
    handed.store == Exec(cfg, before.store, HandOut(entry)) &&
    PcOf(handed, e) == Starting(entry, before.store.stream[entry])
  }

  ghost predicate PassedOver(cfg: Config, before: State, handed: State, ran: State, after: State, e: nat, entry: nat) {
    Handed(cfg, before, handed, e, entry) &&
    Untouched(handed, ran, e, before.store.stream[entry].request) &&
    after.store == Exec(cfg, ran.store, Protocol.Acknowledge(entry)) && PcOf(after, e) == Idle
  }

  lemma HandedIsAcknowledged(cfg: Config, before: State, handed: State, e: nat, entry: nat)
    requires Partitioned(before.store) && JobsDistinct(before.store)
    requires Drainable(cfg, before, e) && Handed(cfg, before, handed, e, entry)
    ensures entry !in before.store.acked && Acknowledges(handed.store, before.store.stream[entry])
  {
    assert Partitioned(before.store);
    assert Unhindered(before.store, before.store.stream[entry]);
  }

  /** The other entries stay as ready as they were. */
  lemma StillDrainable(cfg: Config, before: State, handed: State, ran: State, after: State, e: nat, entry: nat)
    requires Partitioned(before.store) && JobsDistinct(before.store)
    requires Drainable(cfg, before, e) && PassedOver(cfg, before, handed, ran, after, e, entry)
    ensures Drainable(cfg, after, e)
  {
    forall i | 0 <= i < |after.store.stream| && i !in after.store.acked
      ensures Unhindered(after.store, after.store.stream[i])
    {
      assert i != entry && i !in before.store.acked;
      OtherStillReady(cfg, before, handed, ran, after, e, entry, i);
    }
    forall i | i in after.store.pending ensures Idled(cfg, after.store, i) {
      assert Idled(cfg, before.store, i);
    }
  }

  lemma OtherStillReady(cfg: Config, before: State, handed: State, ran: State, after: State, e: nat, entry: nat, i: nat)
    requires Partitioned(before.store) && JobsDistinct(before.store)
    requires PassedOver(cfg, before, handed, ran, after, e, entry)
    requires i < |before.store.stream| && i != entry && Unhindered(before.store, before.store.stream[i])
    ensures Unhindered(after.store, before.store.stream[i])
  {
    var r := before.store.stream[i].request;
    assert r != before.store.stream[entry].request;
    assert LeaseLive(ran.store, r) == LeaseLive(before.store, r);
  }

  lemma OneLess(cfg: Config, before: State, handed: State, ran: State, after: State, e: nat, entry: nat)
    requires Partitioned(before.store) && JobsDistinct(before.store) && entry !in before.store.acked
    requires PassedOver(cfg, before, handed, ran, after, e, entry)
    ensures after.store.stream == before.store.stream && after.store.acked == before.store.acked + {entry}
    ensures Remaining(after.store) == Remaining(before.store) - 1
  {
    HandAndTake(before.store.pending, entry, before.store.quota.now);
    assert after.store.pending == before.store.pending[entry := before.store.quota.now] - {entry};
    if entry == before.store.cursor {
      assert entry !in before.store.pending;
    }
  }

  lemma HandAndTake(m: map<nat, nat>, k: nat, x: nat)
    ensures |m[k := x] - {k}| == if k in m then |m| - 1 else |m|
  {
    var rest := m[k := x] - {k};
    assert rest.Keys == m.Keys - {k};
    assert |rest| == |rest.Keys| && |m| == |m.Keys|;
  }

  /** From any reachable state it is enough that engine `e` is restarted and that time
      passes: leases run out and entries idle. */
  lemma WaitingMakesDrainable(cfg: Config, s: State, e: nat) returns (s1: State, s2: State, ms: nat)
    ensures Next(cfg, s, EngineStep(e, Crash)) == Some(s1) && Next(cfg, s1, Action.Tick(ms)) == Some(s2)
    ensures Drainable(cfg, s2, e) && s2.store.stream == s.store.stream
  {
    s1 := Next(cfg, s, EngineStep(e, Crash)).value;
    var idle := LatestOf(s.store.pending);
    var expiries := map r | r in s.store.leases :: s.store.leases[r].expiry;
    var lease := LatestOf(expiries);
    ms := idle + cfg.reclaimIdle + lease;
    s2 := Next(cfg, s1, Action.Tick(ms)).value;
    forall r | r in s.store.leases ensures s.store.leases[r].expiry <= lease {
      assert expiries[r] <= lease;
    }
  }

  lemma {:induction false} LatestOf(m: map<nat, nat>) returns (latest: nat)
    ensures forall i :: i in m ==> m[i] <= latest
    decreases |m|
  {
    latest := 0;
    if m != map[] {
      var any :| any in m;
      var rest := LatestOf(m - {any});
      latest := if rest < m[any] then m[any] else rest;
      assert forall i :: i in m ==> i == any || (i in m - {any} && (m - {any})[i] == m[i]);
    }
  }
}
