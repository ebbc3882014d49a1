/** What a request of the protocol ends up being charged. */
module ProtocolCharges {
  import opened Basics
  import opened QuotaBook
  import opened Protocol
  import opened ProtocolSafety
  import opened ProtocolRuns

  /** Every request has a reservation of its own, under the same number. */
  ghost predicate OwnReservations(s: State) {
    |s.store.quota.book| == |s.fronts| &&
    (forall r :: 0 <= r < |s.fronts| ==> s.fronts[r].job.request == r && s.fronts[r].job.reservation == r) &&
    (forall i :: 0 <= i < |s.store.stream| ==> s.store.stream[i].reservation == s.store.stream[i].request)
  }

  /** The two cancellations: by the frontend of request `r`, whose dispatch failed or went
      unanswered, and by an engine that found the job past its deadline. */
  predicate Cancels(s: State, a: Action, r: nat) {
    match a
    case CallOff(request) => request == r && r < |s.fronts| && s.fronts[r].CallingOff?
    case EngineStep(e, step) => step == Advance && PcOf(s, e).Withdrawing? && PcOf(s, e).job.request == r
    case _ => false
  }

  /** What an attempt's ending counts as generated: its own count, or nothing if it failed. */
  predicate Counts(ending: Ending, tokens: nat) {
    match ending
    case Succeeded(_, generated, _) => tokens == generated
    case Errored(_) => tokens == 0
  }

  /** A step that settles request `r` as `outcome`, if the reservation is open: a cancellation,
      or the settlement of an attempt. */
  predicate SettlesAs(s: State, a: Action, r: nat, outcome: Outcome) {
    match outcome
    case Reserved => false
    case Cancelled => Cancels(s, a, r)
    case Reconciled(tokens) =>
      a.EngineStep? && a.step == Advance && PcOf(s, a.engine).Settling? && PcOf(s, a.engine).job.request == r &&
      Counts(PcOf(s, a.engine).ending, tokens)
  }

  function SettlementOf(r: nat, outcome: Outcome): Op
    requires outcome != Reserved
  {
    if outcome == Cancelled then Cancel(r) else Reconcile(r, outcome.actual)
  }

  lemma ReservationsStayOwn(cfg: Config, s: State, a: Action, s': State)
    requires OwnReservations(s) && Next(cfg, s, a) == Some(s')
    ensures OwnReservations(s')
  {
    var c := Issued(cfg, s, a);
    assert s'.store == Exec(cfg, s.store, c);
    if a.Admit? {
      BookGrows(s.store.quota, c.op);
    } else if a.Dispatch? {
      assert c == AddJob(s.fronts[a.request].job);
    } else {
      OnlyDispatchAdds(cfg, s, a);
      StreamKept(cfg, s.store, c);
      OnlyAdmitReserves(cfg, s, a);
    }
  }

  lemma OnlyAdmitReserves(cfg: Config, s: State, a: Action)
    requires Next(cfg, s, a).Some? && !a.Admit?
    ensures |Next(cfg, s, a).value.store.quota.book| == |s.store.quota.book|
    ensures |Next(cfg, s, a).value.fronts| == |s.fronts|
  {
    var c := Issued(cfg, s, a);
    assert c.Ledger? ==> !c.op.Reserve? by { NoneReserves(cfg, s, a); }
    QuotaAfter(cfg, s.store, c);
    if c.Ledger? { BookGrows(s.store.quota, c.op); }
    FrontsCounted(cfg, s, a);
  }

  lemma NoneReserves(cfg: Config, s: State, a: Action)
    requires Next(cfg, s, a).Some? && !a.Admit?
    ensures var c := Issued(cfg, s, a); c.Ledger? ==> !c.op.Reserve?
  {
  }

  lemma FrontsCounted(cfg: Config, s: State, a: Action)
    requires Next(cfg, s, a).Some? && !a.Admit?
    ensures |Next(cfg, s, a).value.fronts| == |s.fronts|
  {
  }

  /** Which command settles reservation `r` like that. */
  lemma IssuedSettles(cfg: Config, s: State, a: Action, r: nat, outcome: Outcome)
    requires OwnReservations(s) && Next(cfg, s, a).Some? && outcome != Reserved
    requires forall e :: e in s.engines ==> PcOk(s.store, s.engines[e])
    ensures Issued(cfg, s, a) == Ledger(SettlementOf(r, outcome)) <==> SettlesAs(s, a, r, outcome)
  {
    if a.EngineStep? && PcOf(s, a.engine) != Idle {
      assert PcOk(s.store, PcOf(s, a.engine));
      assert s.store.stream[PcOf(s, a.engine).entry] == PcOf(s, a.engine).job;
      EngineSettles(cfg, s.store, a.engine, PcOf(s, a.engine), a.step, r, outcome);
    }
  }

  lemma EngineSettles(cfg: Config, v: Store, e: nat, pc: Pc, step: Step, r: nat, outcome: Outcome)
    requires Moved(cfg, v, e, pc, step).Some? && pc != Idle && pc.job.reservation == pc.job.request
    requires outcome != Reserved
    ensures Moved(cfg, v, e, pc, step).value.command == Ledger(SettlementOf(r, outcome)) <==>
              step == Advance && pc.job.request == r &&
              if outcome == Cancelled then pc.Withdrawing? else pc.Settling? && Counts(pc.ending, outcome.actual)
  {
  }

  lemma OutcomeStep(cfg: Config, s: State, a: Action, s': State, r: nat, outcome: Outcome)
    requires OwnReservations(s) && Next(cfg, s, a) == Some(s') && r < |s'.store.quota.book| && outcome != Reserved
    requires forall e :: e in s.engines ==> PcOk(s.store, s.engines[e])
    ensures s'.store.quota.book[r].outcome == outcome <==>
              (SettlesAs(s, a, r, outcome) && Open(s.store.quota, r)) ||
              (r < |s.store.quota.book| && s.store.quota.book[r].outcome == outcome)
  {
    var c, q := Issued(cfg, s, a), s.store.quota;
    assert c == Ledger(SettlementOf(r, outcome)) <==> SettlesAs(s, a, r, outcome) by {
      IssuedSettles(cfg, s, a, r, outcome);
    }
    assert s'.store.quota == if c.Ledger? then Do(q, c.op) else q by {
      assert s'.store == Exec(cfg, s.store, c);
      QuotaAfter(cfg, s.store, c);
    }
    if c.Ledger? { OpSettles(q, c.op, r, outcome); }
  }

  lemma QuotaAfter(cfg: Config, v: Store, c: Command)
    ensures Exec(cfg, v, c).quota == if c.Ledger? then Do(v.quota, c.op) else v.quota
  {
  }

  lemma OpSettles(q: Quota, op: Op, r: nat, outcome: Outcome)
    requires r < |Do(q, op).book| && outcome != Reserved
    ensures Do(q, op).book[r].outcome == outcome <==>
              (op == SettlementOf(r, outcome) && Open(q, r)) || (r < |q.book| && q.book[r].outcome == outcome)
  {
    BookGrows(q, op);
    if r == |q.book| { assert op.Reserve?; }
  }

  lemma {:induction false} RunReservations(cfg: Config, run: seq<State>, actions: seq<Action>, n: nat)
    requires IsRun(cfg, run, actions) && n < |run|
    ensures OwnReservations(run[n])
  {
    if n > 0 {
      RunReservations(cfg, run, actions, n - 1);
      assert Next(cfg, run[n - 1], actions[n - 1]) == Some(run[n - 1 + 1]);
      ReservationsStayOwn(cfg, run[n - 1], actions[n - 1], run[n]);
    }
  }

  lemma {:induction false} OutcomeIff(cfg: Config, run: seq<State>, actions: seq<Action>, n: nat, r: nat,
                                      outcome: Outcome)
    requires IsRun(cfg, run, actions) && n < |run| && r < |run[n].store.quota.book| && outcome != Reserved
    ensures run[n].store.quota.book[r].outcome == outcome <==>
              exists k :: 0 <= k < n && SettlesAs(run[k], actions[k], r, outcome) && Open(run[k].store.quota, r)
  {
    if n > 0 {
      RunIsSafe(cfg, run, actions, n - 1);
      RunReservations(cfg, run, actions, n - 1);
      NextOutcome(cfg, run, actions, n - 1, r, outcome);
      if r < |run[n - 1].store.quota.book| {
        OutcomeIff(cfg, run, actions, n - 1, r, outcome);
      } else {
        NeverBefore(cfg, run, actions, n - 1, r);
      }
    }
  }

  lemma NextOutcome(cfg: Config, run: seq<State>, actions: seq<Action>, k: nat, r: nat, outcome: Outcome)
    requires IsPath(cfg, run, actions) && k < |actions| && Safe(run[k]) && OwnReservations(run[k])
    requires r < |run[k + 1].store.quota.book| && outcome != Reserved
    ensures run[k + 1].store.quota.book[r].outcome == outcome <==>
              (SettlesAs(run[k], actions[k], r, outcome) && Open(run[k].store.quota, r)) ||
              (r < |run[k].store.quota.book| && run[k].store.quota.book[r].outcome == outcome)
  {
    assert Next(cfg, run[k], actions[k]) == Some(run[k + 1]);
    OutcomeStep(cfg, run[k], actions[k], run[k + 1], r, outcome);
  }

  /** A reservation that is not made yet is not open. */
  lemma NeverBefore(cfg: Config, run: seq<State>, actions: seq<Action>, n: nat, r: nat)
    requires IsPath(cfg, run, actions) && n < |run| && r >= |run[n].store.quota.book|
    ensures forall k :: 0 <= k < n ==> !Open(run[k].store.quota, r)
  {
    forall k | 0 <= k < n ensures !Open(run[k].store.quota, r) {
      NothingIsTakenBack(cfg, run, actions, k, n);
    }
  }

  /** Completed or not, a request is charged nothing if and only if a cancellation, by its own
      frontend or by an engine that found it late, came before its settlement and before its
      record expired. */
  lemma UnchargedIff(cfg: Config, run: seq<State>, actions: seq<Action>, r: nat)
    requires IsRun(cfg, run, actions) && r < |run[|actions|].store.quota.book|
    ensures Cost(run[|actions|].store.quota.book[r]) == Zero <==>
              exists k :: 0 <= k < |actions| && Cancels(run[k], actions[k], r) && Open(run[k].store.quota, r)
  {
    OutcomeIff(cfg, run, actions, |actions|, r, Cancelled);
    if Cost(run[|actions|].store.quota.book[r]) == Zero {
      var k :| 0 <= k < |actions| && SettlesAs(run[k], actions[k], r, Cancelled) && Open(run[k].store.quota, r);
      assert Cancels(run[k], actions[k], r);
    } else {
      forall k | 0 <= k < |actions| && Cancels(run[k], actions[k], r) ensures !Open(run[k].store.quota, r) {
        assert SettlesAs(run[k], actions[k], r, Cancelled);
      }
    }
  }

  /** A request is settled at `tokens` generated if and only if an engine settled it so while its
      reservation was open: with the count of an attempt that succeeded, or 0 for one that
      failed. */
  lemma SettledAtIff(cfg: Config, run: seq<State>, actions: seq<Action>, r: nat, tokens: nat)
    requires IsRun(cfg, run, actions) && r < |run[|actions|].store.quota.book|
    ensures run[|actions|].store.quota.book[r].outcome == Reconciled(tokens) <==>
              exists k :: 0 <= k < |actions| && SettlesAs(run[k], actions[k], r, Reconciled(tokens)) &&
                Open(run[k].store.quota, r)
  {
    OutcomeIff(cfg, run, actions, |actions|, r, Reconciled(tokens));
  }

  // ----- one settlement, and what is published after it -----

  /** An engine that settles an attempt that succeeded and finds the reservation open: from then
      on, in every run, the request is charged its prompt and the attempt's generated tokens, as
      far as it had reserved them; after an attempt that failed, no generated tokens. */
  lemma ChargedAsCounted(cfg: Config, run: seq<State>, actions: seq<Action>, k: nat, n: nat, e: nat)
    requires IsRun(cfg, run, actions) && k < n < |run| && actions[k] == EngineStep(e, Advance)
    requires PcOf(run[k], e).Settling? && Open(run[k].store.quota, PcOf(run[k], e).job.request)
    ensures var pc := PcOf(run[k], e);
            var r := pc.job.request;
            r < |run[n].store.quota.book| &&
            var entry := run[k].store.quota.book[r];
            Cost(run[n].store.quota.book[r]) ==
              match pc.ending
              case Succeeded(_, generated, _) => Charge(1, entry.prompt, Min(entry.generated, generated))
              case Errored(_) => Charge(1, entry.prompt, 0)
  {
    var pc := PcOf(run[k], e);
    var r, tokens := pc.job.request, if pc.ending.Succeeded? then pc.ending.generated else 0;
    NothingIsTakenBack(cfg, run, actions, k, n);
    assert SettlesAs(run[k], actions[k], r, Reconciled(tokens));
    OutcomeIff(cfg, run, actions, n, r, Reconciled(tokens));
    SameReservation(cfg, run, actions, k, n, r);
  }

  /** What a reservation reserved is never changed. */
  lemma {:induction false} SameReservation(cfg: Config, run: seq<State>, actions: seq<Action>, k: nat, n: nat, r: nat)
    requires IsPath(cfg, run, actions) && k <= n < |run| && r < |run[k].store.quota.book|
    ensures r < |run[n].store.quota.book|
    ensures var was, e := run[k].store.quota.book[r], run[n].store.quota.book[r]; e == was.(outcome := e.outcome)
    decreases n - k
  {
    if k < n {
      SameReservation(cfg, run, actions, k, n - 1, r);
      NextReservation(cfg, run, actions, n - 1, r);
    }
  }

  lemma NextReservation(cfg: Config, run: seq<State>, actions: seq<Action>, k: nat, r: nat)
    requires IsPath(cfg, run, actions) && k < |actions| && r < |run[k].store.quota.book|
    ensures r < |run[k + 1].store.quota.book|
    ensures var was, e := run[k].store.quota.book[r], run[k + 1].store.quota.book[r]; e == was.(outcome := e.outcome)
  {
    assert Next(cfg, run[k], actions[k]) == Some(run[k + 1]);
    var c := Issued(cfg, run[k], actions[k]);
    QuotaAfter(cfg, run[k].store, c);
    if c.Ledger? { BookGrows(run[k].store.quota, c.op); }
  }

  /** The same engine's next step, however much later, publishes the very count it settled: the
      completion event of that attempt, or its failure. */
  lemma PublishedAsCounted(cfg: Config, run: seq<State>, actions: seq<Action>, k: nat, n: nat, e: nat)
    requires IsRun(cfg, run, actions) && k < n < |actions|
    requires actions[k] == actions[n] == EngineStep(e, Advance) && PcOf(run[k], e).Settling?
    requires forall j :: k < j < n ==> !(actions[j].EngineStep? && actions[j].engine == e)
    ensures var pc := PcOf(run[k], e);
            var r := pc.job.request;
            Log(run[n + 1].store, r) == Log(run[n].store, r) + [Event(Attempt(pc.attempt),
              match pc.ending
              case Succeeded(prompt, generated, finish) => Completed(prompt, generated, finish)
              case Errored(message) => Failed("backend_error", message))]
  {
    assert Next(cfg, run[k], actions[k]) == Some(run[k + 1]);
    assert PcOf(run[k + 1], e).Concluding?;
    StandsStill(cfg, run, actions, k + 1, n, e);
    assert Next(cfg, run[n], actions[n]) == Some(run[n + 1]);
  }

  lemma {:induction false} StandsStill(cfg: Config, run: seq<State>, actions: seq<Action>, k: nat, n: nat, e: nat)
    requires IsPath(cfg, run, actions) && k <= n < |run|
    requires forall j :: k <= j < n ==> !(actions[j].EngineStep? && actions[j].engine == e)
    ensures PcOf(run[n], e) == PcOf(run[k], e)
    decreases n - k
  {
    if k < n {
      StandsStill(cfg, run, actions, k, n - 1, e);
      assert Next(cfg, run[n - 1], actions[n - 1]) == Some(run[n - 1 + 1]);
      OthersStand(cfg, run[n - 1], actions[n - 1], e);
    }
  }

  lemma OthersStand(cfg: Config, s: State, a: Action, e: nat)
    requires Next(cfg, s, a).Some? && !(a.EngineStep? && a.engine == e)
    ensures PcOf(Next(cfg, s, a).value, e) == PcOf(s, e)
  {
  }

  /** A publication that fails, or whose reply is lost at either of its two commands, leaves its
      frontend before a cancellation; one that is answered leaves it without one. */
  lemma UnansweredIsCalledOff(cfg: Config, s: State, r: nat, reported: bool)
    requires r < |s.fronts|
    ensures s.fronts[r].Dispatching? || s.fronts[r].Queueing? ==>
              Next(cfg, s, FailDispatch(r)).Some? &&
              Next(cfg, s, FailDispatch(r)).value == s.(fronts := s.fronts[r := CallingOff(s.fronts[r].job)])
    ensures s.fronts[r].Dispatching? ==>
              Next(cfg, s, Dispatch(r, reported)).Some? &&
              var s', job := Next(cfg, s, Dispatch(r, reported)).value, s.fronts[r].job;
              s'.store.stream == s.store.stream + [job] &&
              s'.fronts[r] == if reported then Queueing(job) else CallingOff(job)
    ensures s.fronts[r].Queueing? ==>
              Next(cfg, s, Queue(r, reported)).Some? &&
              var s', job := Next(cfg, s, Queue(r, reported)).value, s.fronts[r].job;
              s'.fronts[r] == if reported then Answered(job) else CallingOff(job)
  {
  }

  // ----- a heard and punctual request is charged -----

  lemma {:induction false} NeverWithdrawing(cfg: Config, run: seq<State>, actions: seq<Action>, n: nat, i: nat, e: nat)
    requires IsRun(cfg, run, actions) && Guarded(run, actions, i, {InTime}) && n < |run|
    ensures PcOf(run[n], e).Withdrawing? ==> PcOf(run[n], e).entry != i
  {
    if n > 0 {
      NeverWithdrawing(cfg, run, actions, n - 1, i, e);
      assert Next(cfg, run[n - 1], actions[n - 1]) == Some(run[n - 1 + 1]);
      assert InTime in {InTime} && Kept(InTime, run[n - 1], actions[n - 1], i);
      NotWithdrawing(cfg, run[n - 1], actions[n - 1], run[n], i, e);
    }
  }

  lemma NotWithdrawing(cfg: Config, s: State, a: Action, s': State, i: nat, e: nat)
    requires Next(cfg, s, a) == Some(s') && Kept(InTime, s, a, i)
    requires PcOf(s, e).Withdrawing? ==> PcOf(s, e).entry != i
    ensures PcOf(s', e).Withdrawing? ==> PcOf(s', e).entry != i
  {
    if a.EngineStep? && a.engine == e && PcOf(s', e).Withdrawing? {
      BeginsWithdrawing(cfg, s.store, e, PcOf(s, e), a.step);
    }
  }

  lemma BeginsWithdrawing(cfg: Config, v: Store, e: nat, pc: Pc, step: Step)
    requires Moved(cfg, v, e, pc, step).Some? && Moved(cfg, v, e, pc, step).value.pc.Withdrawing?
    ensures pc.Starting? && step == Advance && PastDeadline(v, pc.job)
    ensures Moved(cfg, v, e, pc, step).value.pc.entry == pc.entry
  {
  }

  /** A job that is never found past its deadline, and whose frontend never calls it off, is
      charged for its request and its prompt, and for no more tokens than it reserved. */
  lemma ChargedIfHeard(cfg: Config, run: seq<State>, actions: seq<Action>, i: nat)
    requires IsRun(cfg, run, actions) && Guarded(run, actions, i, {InTime}) && i < |run[|actions|].store.stream|
    requires forall k :: 0 <= k < |actions| ==>
               actions[k] != CallOff(run[|actions|].store.stream[i].request)
    ensures var v := run[|actions|].store;
            var r := v.stream[i].request;
            r < |v.quota.book| && Cost(v.quota.book[r]).requests == 1 &&
            Cost(v.quota.book[r]).prompt == v.quota.book[r].prompt &&
            Cost(v.quota.book[r]).generated <= v.quota.book[r].generated
  {
    RunIsSafe(cfg, run, actions, |actions|);
    RunReservations(cfg, run, actions, |actions|);
    var r := run[|actions|].store.stream[i].request;
    forall k | 0 <= k < |actions| ensures !Cancels(run[k], actions[k], r) {
      assert actions[k] != CallOff(r);
      if actions[k].EngineStep? && Cancels(run[k], actions[k], r) {
        RunIsSafe(cfg, run, actions, k);
        NeverWithdrawing(cfg, run, actions, k, i, actions[k].engine);
        NothingIsTakenBack(cfg, run, actions, k, |actions|);
        SameEntry(run[k], run[|actions|], PcOf(run[k], actions[k].engine), i);
      }
    }
    UnchargedIff(cfg, run, actions, r);
  }

  /** The job an engine works on is still the entry it was handed. */
  lemma SameEntry(s: State, later: State, pc: Pc, i: nat)
    requires pc != Idle && PcOk(s.store, pc) && Grows(s.store, later.store) && JobsDistinct(later.store)
    requires i < |later.store.stream| && later.store.stream[i].request == pc.job.request
    ensures pc.entry == i
  {
    assert later.store.stream[pc.entry] == pc.job;
  }

  // ----- and it happens -----

  /** A dispatch whose reply is lost is called off, while the job runs and is completed: it is
      charged nothing. */
  lemma CompletedUncharged(cfg: Config) returns (s: State)
    ensures Reachable(cfg, s) && |s.store.quota.book| == 1 && Cost(s.store.quota.book[0]) == Zero
    ensures exists author :: Log(s.store, 0) == [Event(author, Started), Event(author, Completed(0, 1, "stop"))]
  {
    var gs: set<Guard> := {};
    var t;
    t, s := Delivered(cfg, gs, 1, false);
    var q := s.store.quota;
    t, s := Attempts(cfg, gs, t, s, 0, Job(0, 0, 1));
    t, s := CallsOff(cfg, gs, t, s, Job(0, 0, 1));
    t, s := Releases(cfg, gs, t, s, 0, Succeeded(0, 1, "stop"));
    t, s := Concludes(cfg, gs, t, s, 0);
    LeadsReachable(cfg, gs, t, s);
  }

  lemma CallsOff(cfg: Config, gs: set<Guard>, t: Trace, s: State, job: Job) returns (t': Trace, s': State)
    requires Leads(cfg, gs, t, s) && s.fronts == [CallingOff(job)] && job.request == 0 && job.reservation == 0
    requires |s.store.quota.book| == 1 && Open(s.store.quota, 0)
    ensures Leads(cfg, gs, t', s') && s'.engines == s.engines && s'.store == s.store.(quota := s'.store.quota)
    ensures s'.store.quota.now == s.store.quota.now && |s'.store.quota.book| == 1
    ensures s'.store.quota.book[0].outcome == Cancelled
  {
    t', s' := Go(cfg, gs, t, s, CallOff(0));
  }

  /** The charge is that of the first settlement, not of the completion that is published: an
      engine that crashes between the two leaves its count charged, and the next attempt
      publishes its own. */
  lemma ChargedByTheFirst(cfg: Config) returns (s: State)
    ensures Reachable(cfg, s) && |s.store.quota.book| == 1
    ensures Cost(s.store.quota.book[0]) == Charge(1, 0, 1)
    ensures Log(s.store, 0) == [Event(Attempt(0), Started), Event(Attempt(1), Started),
                                Event(Attempt(1), Completed(0, 2, "stop"))]
  {
    var gs: set<Guard> := {};
    var job := Job(0, 0, cfg.reclaimIdle + 1);
    var t;
    t, s := SettledAndCrashed(cfg, gs, job);
    var book := s.store.quota.book;
    t, s := Reclaims(cfg, gs, t, s, 1, cfg.reclaimIdle);
    t, s := Attempts(cfg, gs, t, s, 1, job);
    t, s := Releases(cfg, gs, t, s, 1, Succeeded(0, 2, "stop"));
    assert s.store.quota.book == book;
    t, s := Concludes(cfg, gs, t, s, 1);
    LeadsReachable(cfg, gs, t, s);
  }

  lemma SettledAndCrashed(cfg: Config, gs: set<Guard>, job: Job) returns (t: Trace, s: State)
    requires gs == {} && job == Job(0, 0, cfg.reclaimIdle + 1)
    ensures Leads(cfg, gs, t, s) && s.store.stream == [job] && (forall e :: PcOf(s, e) == Idle)
    ensures !LeaseLive(s.store, 0) && !ShowsCompleted(s.store, 0) && s.store.attempts == 1
    ensures s.store.quota.now == 0 && s.store.pending == map[0 := 0]
    ensures Log(s.store, 0) == [Event(Attempt(0), Started)]
    ensures s.store.quota.book == [Entry(Bucket("key", 0), 0, Reservation, 0, Reconciled(1))]
  {
    t, s := Delivered(cfg, gs, cfg.reclaimIdle + 1, true);
    t, s := Attempts(cfg, gs, t, s, 0, job);
    t, s := Releases(cfg, gs, t, s, 0, Succeeded(0, 1, "stop"));
    t, s := Proceeds(cfg, gs, t, s, 0, Advance);
    assert forall e :: e != 0 ==> PcOf(s, e) == Idle;
    var before := s;
    t, s := Crashes(cfg, gs, t, s, 0);
    assert forall e :: e != 0 ==> PcOf(s, e) == PcOf(before, e);
  }
}
