/** Safety of the job protocol: what holds in every state of every run, with any number
    of engines and frontends, crashes, lost replies, redeliveries and lost leases. */
module ProtocolSafety {
  import opened Basics
  import opened QuotaBook
  import opened Protocol

  // ----- the invariant -----

  /** No entry is lost or held twice: each is undelivered, pending, or acknowledged. */
  ghost predicate Partitioned(v: Store) {
    v.cursor <= |v.stream| && v.pending.Keys !! v.acked &&
    (forall i: nat :: i in v.pending || i in v.acked <==> i < v.cursor)
  }

  ghost predicate JobsDistinct(v: Store) {
    (forall i, j :: 0 <= i < j < |v.stream| ==> v.stream[i].request != v.stream[j].request) &&
    (forall i :: 0 <= i < |v.stream| ==> v.stream[i].reservation < |v.quota.book|)
  }

  predicate Published(v: Store, request: nat) {
    exists i :: 0 <= i < |v.stream| && v.stream[i].request == request
  }

  /** Results are only published for dispatched jobs. */
  ghost predicate LogsKnown(v: Store) {
    forall r: nat :: Log(v, r) != [] ==> Published(v, r)
  }

  /** An acknowledged job has had a terminal event appended to its result log. */
  ghost predicate AckedHaveTerminal(v: Store) {
    forall i :: i in v.acked && i < |v.stream| ==> HasTerminal(v, v.stream[i].request)
  }

  /** A job with a terminal event has a reservation that is settled or has expired. */
  ghost predicate TerminalsAreSettled(v: Store) {
    forall i :: 0 <= i < |v.stream| && HasTerminal(v, v.stream[i].request) ==> Settled(v, v.stream[i].reservation)
  }

  ghost predicate CompletedHaveTerminal(v: Store) {
    forall r :: r in v.statuses && v.statuses[r].phase == Finished ==> HasTerminal(v, r)
  }

  ghost predicate StoreSafe(v: Store) {
    Partitioned(v) && JobsDistinct(v) && LogsKnown(v) &&
    AckedHaveTerminal(v) && TerminalsAreSettled(v) && CompletedHaveTerminal(v)
  }

  /** What an engine may rely on at each of its steps. */
  ghost predicate PcOk(v: Store, pc: Pc) {
    pc != Idle ==>
      pc.entry < v.cursor && pc.entry < |v.stream| && v.stream[pc.entry] == pc.job &&
      (pc.Expiring? || pc.Concluding? ==> Settled(v, pc.job.reservation)) &&
      (pc.Marking? || pc.Acking? ==> HasTerminal(v, pc.job.request))
  }

  /** A front still to dispatch its job has it nowhere in the stream. */
  ghost predicate FrontsOk(s: State) {
    (forall r :: 0 <= r < |s.fronts| ==>
       s.fronts[r].job.request == r && s.fronts[r].job.reservation < |s.store.quota.book| &&
       (s.fronts[r].Dispatching? ==> !Published(s.store, r))) &&
    (forall i :: 0 <= i < |s.store.stream| ==> s.store.stream[i].request < |s.fronts|)
  }

  ghost predicate Safe(s: State) {
    StoreSafe(s.store) && FrontsOk(s) && (forall e :: e in s.engines ==> PcOk(s.store, s.engines[e]))
  }

  // ----- what never goes back -----

  /** The store only grows: time, the stream, every result log, the settled reservations. */
  ghost predicate Grows(a: Store, b: Store) {
    a.quota.now <= b.quota.now && |a.quota.book| <= |b.quota.book| &&
    a.stream <= b.stream && a.cursor <= b.cursor && a.acked <= b.acked &&
    (forall r: nat :: Log(a, r) <= Log(b, r)) &&
    (forall id: nat :: Settled(a, id) ==> Settled(b, id))
  }

  lemma CommandGrows(cfg: Config, v: Store, c: Command)
    ensures Grows(v, Exec(cfg, v, c))
  {
    if c.Ledger? { LedgerGrows(v, Exec(cfg, v, c), c.op); }
  }

  lemma LedgerGrows(v: Store, v': Store, op: Op)
    requires v'.quota == Do(v.quota, op)
    ensures v.quota.now <= v'.quota.now && |v.quota.book| <= |v'.quota.book|
    ensures forall id: nat :: Settled(v, id) ==> Settled(v', id)
  {
  }

  lemma TerminalStays(a: Store, b: Store, request: nat)
    requires Log(a, request) <= Log(b, request) && HasTerminal(a, request)
    ensures HasTerminal(b, request)
  {
    var e :| e in Log(a, request) && IsTerminal(e);
    var i :| 0 <= i < |Log(a, request)| && Log(a, request)[i] == e;
    assert Log(b, request)[i] == e;
  }

  lemma PcStays(a: Store, b: Store, pc: Pc)
    requires Grows(a, b) && PcOk(a, pc)
    ensures PcOk(b, pc)
  {
    if pc.Marking? || pc.Acking? { TerminalStays(a, b, pc.job.request); }
  }

  // ----- commands -----

  /** What each command must be given for the store to stay safe. */
  ghost predicate CommandOk(v: Store, c: Command) {
    match c
    case AddJob(job) => !Published(v, job.request) && job.reservation < |v.quota.book|
    case HandOut(entry) => entry < |v.stream| && entry <= v.cursor && entry !in v.acked
    case Append(request, e) =>
      exists i :: 0 <= i < |v.stream| && v.stream[i].request == request &&
                  (IsTerminal(e) ==> Settled(v, v.stream[i].reservation))
    case NoteResult(request, _, terminal) => terminal.Some? ==> HasTerminal(v, request)
    case Acknowledge(entry) => entry < |v.stream| && HasTerminal(v, v.stream[entry].request)
    case _ => true
  }

  lemma SameLogs(v: Store, v': Store)
    requires v'.logs == v.logs
    ensures forall r: nat :: Log(v', r) == Log(v, r)
    ensures forall r :: HasTerminal(v', r) == HasTerminal(v, r)
  {
    assert forall r: nat :: Log(v', r) == Log(v, r);
  }

  lemma TerminalAfterAppend(cfg: Config, v: Store, request: nat, e: Event, r: nat)
    ensures HasTerminal(Exec(cfg, v, Append(request, e)), r) <==>
              HasTerminal(v, r) || (r == request && IsTerminal(e))
  {
    var v' := Exec(cfg, v, Append(request, e));
    if HasTerminal(v, r) { TerminalStays(v, v', r); }
    if r == request && IsTerminal(e) { assert e in Log(v', r); }
    if HasTerminal(v', r) {
      var t :| t in Log(v', r) && IsTerminal(t);
      assert t in Log(v, r) || (r == request && t == e);
    }
  }

  lemma AppendKeepsSafe(cfg: Config, v: Store, request: nat, e: Event)
    requires StoreSafe(v) && CommandOk(v, Append(request, e))
    ensures StoreSafe(Exec(cfg, v, Append(request, e)))
    ensures IsTerminal(e) ==> HasTerminal(Exec(cfg, v, Append(request, e)), request)
  {
    var v' := Exec(cfg, v, Append(request, e));
    assert forall r: nat :: r != request ==> Log(v', r) == Log(v, r);
    forall r: nat ensures HasTerminal(v', r) <==> HasTerminal(v, r) || (r == request && IsTerminal(e)) {
      TerminalAfterAppend(cfg, v, request, e, r);
    }
    TerminalsStaySettled(v, v', request, e);
    assert LogsKnown(v') by { KnownAfterAppend(v, v', request); }
  }

  lemma TerminalsStaySettled(v: Store, v': Store, request: nat, e: Event)
    requires JobsDistinct(v) && TerminalsAreSettled(v) && CommandOk(v, Append(request, e))
    requires v'.stream == v.stream && v'.quota == v.quota
    requires forall r: nat :: HasTerminal(v', r) <==> HasTerminal(v, r) || (r == request && IsTerminal(e))
    ensures TerminalsAreSettled(v')
  {
    forall i | 0 <= i < |v'.stream| && HasTerminal(v', v'.stream[i].request)
      ensures Settled(v', v'.stream[i].reservation)
    {
      if !HasTerminal(v, v.stream[i].request) {
        var j :| 0 <= j < |v.stream| && v.stream[j].request == request && Settled(v, v.stream[j].reservation);
        assert i == j;
      }
    }
  }

  lemma KnownAfterAppend(v: Store, v': Store, request: nat)
    requires LogsKnown(v) && Published(v, request) && v'.stream == v.stream
    requires forall r: nat :: r != request ==> Log(v', r) == Log(v, r)
    ensures LogsKnown(v')
  {
    forall r: nat | Log(v', r) != [] ensures Published(v', r) {
      assert Published(v, r);
    }
  }

  lemma AddJobKeepsSafe(cfg: Config, v: Store, job: Job)
    requires StoreSafe(v) && CommandOk(v, AddJob(job))
    ensures StoreSafe(Exec(cfg, v, AddJob(job)))
  {
    var v' := Exec(cfg, v, AddJob(job));
    SameLogs(v, v');
    forall r: nat | Log(v', r) != [] ensures Published(v', r) {
      var i :| 0 <= i < |v.stream| && v.stream[i].request == r;
      assert v'.stream[i].request == r;
    }
    assert Log(v, job.request) == [];
  }

  lemma LedgerKeepsSafe(cfg: Config, v: Store, op: Op)
    requires StoreSafe(v)
    ensures StoreSafe(Exec(cfg, v, Ledger(op)))
  {
    var v' := Exec(cfg, v, Ledger(op));
    SameLogs(v, v');
    LedgerGrows(v, v', op);
  }

  lemma HandOutKeepsSafe(cfg: Config, v: Store, entry: nat)
    requires StoreSafe(v) && CommandOk(v, HandOut(entry))
    ensures StoreSafe(Exec(cfg, v, HandOut(entry)))
  {
    SameLogs(v, Exec(cfg, v, HandOut(entry)));
  }

  lemma AcknowledgeKeepsSafe(cfg: Config, v: Store, entry: nat)
    requires StoreSafe(v) && CommandOk(v, Acknowledge(entry))
    ensures StoreSafe(Exec(cfg, v, Acknowledge(entry)))
  {
    SameLogs(v, Exec(cfg, v, Acknowledge(entry)));
  }

  /** Status hashes and leases. */
  lemma NoteKeepsSafe(cfg: Config, v: Store, c: Command)
    requires StoreSafe(v) && CommandOk(v, c)
    requires !c.Append? && !c.AddJob? && !c.Ledger? && !c.HandOut? && !c.Acknowledge?
    ensures StoreSafe(Exec(cfg, v, c))
  {
    SameLogs(v, Exec(cfg, v, c));
  }

  lemma CommandKeepsSafe(cfg: Config, v: Store, c: Command)
    requires StoreSafe(v) && CommandOk(v, c)
    ensures StoreSafe(Exec(cfg, v, c))
  {
    match c
    case Append(request, e) => AppendKeepsSafe(cfg, v, request, e);
    case AddJob(job) => AddJobKeepsSafe(cfg, v, job);
    case Ledger(op) => LedgerKeepsSafe(cfg, v, op);
    case HandOut(entry) => HandOutKeepsSafe(cfg, v, entry);
    case Acknowledge(entry) => AcknowledgeKeepsSafe(cfg, v, entry);
    case _ => NoteKeepsSafe(cfg, v, c);
  }

  // ----- engines and fronts -----

  /** The steps of `run_job`: where a terminal event is appended the reservation is
      settled, and where an entry is acknowledged the terminal event is there. */
  lemma AdvanceIsOk(cfg: Config, v: Store, e: nat, pc: Pc)
    requires StoreSafe(v) && PcOk(v, pc) && Advanced(cfg, v, e, pc).Some?
    ensures var move := Advanced(cfg, v, e, pc).value;
            CommandOk(v, move.command) && PcOk(Exec(cfg, v, move.command), move.pc)
  {
    match pc
    case Expiring(_, _) => EndIsOk(cfg, v, e, pc);
    case Concluding(_, _, _, _) => EndIsOk(cfg, v, e, pc);
    case Withdrawing(_, _) => SettleIsOk(cfg, v, e, pc);
    case Settling(_, _, _, _) => SettleIsOk(cfg, v, e, pc);
    case _ => QuietIsOk(cfg, v, e, pc);
  }

  lemma EndIsOk(cfg: Config, v: Store, e: nat, pc: Pc)
    requires StoreSafe(v) && PcOk(v, pc) && (pc.Expiring? || pc.Concluding?)
    ensures var move := Advanced(cfg, v, e, pc).value;
            CommandOk(v, move.command) && PcOk(Exec(cfg, v, move.command), move.pc)
  {
    var event :=
      if pc.Expiring? then DeadlineEvent(e) else Event(Attempt(pc.attempt), TerminalBody(pc.ending));
    assert IsTerminal(event) && Advanced(cfg, v, e, pc).value.command == Append(pc.job.request, event);
    AppendIsOk(cfg, v, pc, event);
  }

  lemma SettleIsOk(cfg: Config, v: Store, e: nat, pc: Pc)
    requires StoreSafe(v) && PcOk(v, pc) && (pc.Withdrawing? || pc.Settling?)
    ensures var move := Advanced(cfg, v, e, pc).value;
            CommandOk(v, move.command) && PcOk(Exec(cfg, v, move.command), move.pc)
  {
    var id := pc.job.reservation;
    var outcome := if pc.Withdrawing? then Cancelled else Reconciled(Generated(pc.ending));
    SettledNow(v.quota, id, outcome);
    var v' := Exec(cfg, v, Advanced(cfg, v, e, pc).value.command);
    assert v' == v.(quota := Settle(v.quota, id, outcome));
  }

  lemma QuietIsOk(cfg: Config, v: Store, e: nat, pc: Pc)
    requires StoreSafe(v) && PcOk(v, pc) && Advanced(cfg, v, e, pc).Some?
    requires !pc.Expiring? && !pc.Concluding? && !pc.Withdrawing? && !pc.Settling?
    ensures var move := Advanced(cfg, v, e, pc).value;
            CommandOk(v, move.command) && PcOk(Exec(cfg, v, move.command), move.pc)
  {
    SameLogs(v, Exec(cfg, v, Advanced(cfg, v, e, pc).value.command));
  }

  lemma AppendIsOk(cfg: Config, v: Store, pc: Pc, e: Event)
    requires StoreSafe(v) && PcOk(v, pc) && pc != Idle
    requires IsTerminal(e) ==> Settled(v, pc.job.reservation)
    ensures CommandOk(v, Append(pc.job.request, e))
    ensures IsTerminal(e) ==> HasTerminal(Exec(cfg, v, Append(pc.job.request, e)), pc.job.request)
  {
    assert v.stream[pc.entry] == pc.job;
    AppendKeepsSafe(cfg, v, pc.job.request, e);
  }

  lemma WorkIsOk(cfg: Config, v: Store, pc: Pc, step: Step)
    requires StoreSafe(v) && PcOk(v, pc) && pc.Working? && Worked(cfg, v, pc, step).Some?
    ensures var move := Worked(cfg, v, pc, step).value;
            CommandOk(v, move.command) && PcOk(Exec(cfg, v, move.command), move.pc)
  {
    if step.Begin? {
      AppendIsOk(cfg, v, pc, Event(Attempt(pc.attempt), Started));
    } else if step.Emit? {
      AppendIsOk(cfg, v, pc, Event(Attempt(pc.attempt), Token(step.text, step.cumulative)));
    } else {
      BeatIsOk(cfg, v, pc, step);
    }
  }

  lemma BeatIsOk(cfg: Config, v: Store, pc: Pc, step: Step)
    requires PcOk(v, pc) && pc.Working? && Worked(cfg, v, pc, step).Some? && !step.Begin? && !step.Emit?
    ensures var move := Worked(cfg, v, pc, step).value;
            CommandOk(v, move.command) && PcOk(Exec(cfg, v, move.command), move.pc)
  {
    var move := Worked(cfg, v, pc, step).value;
    assert move.pc.Working? || move.pc.Releasing?;
    assert move.command.NoteResult? ==> move.command.terminal == None;
  }

  lemma EngineMoveIsOk(cfg: Config, v: Store, e: nat, pc: Pc, step: Step)
    requires StoreSafe(v) && PcOk(v, pc) && Moved(cfg, v, e, pc, step).Some?
    ensures var move := Moved(cfg, v, e, pc, step).value;
            CommandOk(v, move.command) && PcOk(Exec(cfg, v, move.command), move.pc)
  {
    match step
    case Advance => AdvanceIsOk(cfg, v, e, pc);
    case Deliver =>
    case Reclaim(_) =>
    case Crash =>
    case _ => WorkIsOk(cfg, v, pc, step);
  }

  lemma StepIsSafe(cfg: Config, s: State, a: Action)
    requires Safe(s) && Next(cfg, s, a).Some?
    ensures Safe(Next(cfg, s, a).value)
    ensures Grows(s.store, Next(cfg, s, a).value.store)
  {
    var v, s' := s.store, Next(cfg, s, a).value;
    var command := Issued(cfg, s, a);
    CommandGrows(cfg, v, command);
    if a.EngineStep? {
      EngineMoveIsOk(cfg, v, a.engine, PcOf(s, a.engine), a.step);
    }
    CommandKeepsSafe(cfg, v, command);
    FrontsStayOk(cfg, s, a);
    forall e | e in s'.engines ensures PcOk(s'.store, s'.engines[e]) {
      if !(a.EngineStep? && a.engine == e) { PcStays(v, s'.store, s.engines[e]); }
    }
  }

  /** The command a step issues. */
  function Issued(cfg: Config, s: State, a: Action): (c: Command)
    requires Next(cfg, s, a).Some?
    ensures Next(cfg, s, a).value.store == Exec(cfg, s.store, c)
  {
    match a
    case Tick(ms) => Ledger(QuotaBook.Tick(ms))
    case Admit(bucket, prompt, generated, limits, _) => Ledger(Reserve(bucket, prompt, generated, limits))
    case EngineStep(e, step) => Moved(cfg, s.store, e, PcOf(s, e), step).value.command
    case Dispatch(request, _) => Fronted(s.fronts[request], a).value.0
    case Queue(request, _) => Fronted(s.fronts[request], a).value.0
    case FailDispatch(request) => Fronted(s.fronts[request], a).value.0
    case CallOff(request) => Fronted(s.fronts[request], a).value.0
  }

  lemma FrontsStayOk(cfg: Config, s: State, a: Action)
    requires FrontsOk(s) && Next(cfg, s, a).Some?
    ensures FrontsOk(Next(cfg, s, a).value)
  {
    var s' := Next(cfg, s, a).value;
    CommandGrows(cfg, s.store, Issued(cfg, s, a));
    if a.Dispatch? {
      DispatchKeepsFronts(cfg, s, a);
    } else {
      OnlyDispatchAdds(cfg, s, a);
      StreamKept(cfg, s.store, Issued(cfg, s, a));
      forall r | 0 <= r < |s'.fronts| && s'.fronts[r].Dispatching? ensures !Published(s'.store, r) {
        assert !Published(s.store, r);
      }
    }
  }

  lemma OnlyDispatchAdds(cfg: Config, s: State, a: Action)
    requires Next(cfg, s, a).Some? && !a.Dispatch?
    ensures !Issued(cfg, s, a).AddJob?
  {
  }

  lemma StreamKept(cfg: Config, v: Store, c: Command)
    requires !c.AddJob?
    ensures Exec(cfg, v, c).stream == v.stream
    ensures forall r :: Published(Exec(cfg, v, c), r) == Published(v, r)
  {
    assert Exec(cfg, v, c).stream == v.stream;
  }

  lemma DispatchKeepsFronts(cfg: Config, s: State, a: Action)
    requires FrontsOk(s) && Next(cfg, s, a).Some? && a.Dispatch?
    ensures FrontsOk(Next(cfg, s, a).value)
  {
    var s' := Next(cfg, s, a).value;
    forall r | 0 <= r < |s'.fronts| && s'.fronts[r].Dispatching? ensures !Published(s'.store, r) {
      assert !Published(s.store, r);
    }
  }

  lemma {:induction false} RunIsSafe(cfg: Config, run: seq<State>, actions: seq<Action>, i: nat)
    requires IsRun(cfg, run, actions) && i < |run|
    ensures Safe(run[i])
  {
    if i > 0 {
      RunIsSafe(cfg, run, actions, i - 1);
      assert Next(cfg, run[i - 1], actions[i - 1]) == Some(run[i - 1 + 1]);
      StepIsSafe(cfg, run[i - 1], actions[i - 1]);
    }
  }

  // ----- results -----

  /** In every reachable state: an acknowledged job has had a terminal event appended; a
      job with a terminal event holds no open reservation; status `completed` implies a
      terminal event; every published entry is in exactly one of undelivered, pending and
      acknowledged. */
  lemma ReachableIsSafe(cfg: Config, s: State)
    requires Reachable(cfg, s)
    ensures var v := s.store;
            AckedHaveTerminal(v) && TerminalsAreSettled(v) && CompletedHaveTerminal(v) && Partitioned(v)
    ensures Safe(s)
  {
    var run, actions :| IsRun(cfg, run, actions) && run[|actions|] == s;
    RunIsSafe(cfg, run, actions, |actions|);
  }

  /** A settled reservation, a published event and an acknowledgement are for good. */
  lemma {:induction false} NothingIsTakenBack(cfg: Config, run: seq<State>, actions: seq<Action>, i: nat, j: nat)
    requires IsPath(cfg, run, actions) && i <= j < |run|
    ensures Grows(run[i].store, run[j].store)
    decreases j - i
  {
    if i < j {
      NothingIsTakenBack(cfg, run, actions, i, j - 1);
      PathGrows(cfg, run, actions, j - 1);
      GrowsTransitive(run[i].store, run[j - 1].store, run[j].store);
    }
  }

  lemma PathGrows(cfg: Config, run: seq<State>, actions: seq<Action>, k: nat)
    requires IsPath(cfg, run, actions) && k < |actions|
    ensures Grows(run[k].store, run[k + 1].store)
  {
    assert Next(cfg, run[k], actions[k]) == Some(run[k + 1]);
    CommandGrows(cfg, run[k].store, Issued(cfg, run[k], actions[k]));
  }

  lemma GrowsTransitive(a: Store, b: Store, c: Store)
    requires Grows(a, b) && Grows(b, c)
    ensures Grows(a, c)
  {
    forall r: nat ensures Log(a, r) <= Log(c, r) {
      assert Log(a, r) <= Log(b, r) && Log(b, r) <= Log(c, r);
    }
  }
}
