/** When a request's status stays `completed`, and the two ways it is taken away. */
module ProtocolStatus {
  import opened Basics
  import opened QuotaBook
  import opened Protocol
  import opened ProtocolSafety
  import opened ProtocolRuns

  /** An engine that may still note a result of request `r` that is not terminal. */
  predicate AtWork(pc: Pc, r: nat) {
    pc != Idle && pc.job.request == r && (pc.Acquiring? || (pc.Working? && !pc.stage.Stopping?))
  }

  /** Nobody is left to touch the status of `r`: its frontend is done with queueing, no engine
      is at work on it. */
  ghost predicate Quiet(s: State, r: nat) {
    r < |s.fronts| && (s.fronts[r].CallingOff? || s.fronts[r].Answered?) &&
    forall e :: e in s.engines ==> !AtWork(s.engines[e], r)
  }

  predicate StatusLive(s: State, r: nat) {
    StatusOf(s.store, r).Some?
  }

  // ----- quiet requests stay completed -----

  lemma AdvanceStaysDone(cfg: Config, v: Store, e: nat, pc: Pc, r: nat)
    requires ShowsCompleted(v, r) && !AtWork(pc, r) && Advanced(cfg, v, e, pc).Some?
    ensures var move := Advanced(cfg, v, e, pc).value;
            !AtWork(move.pc, r) && !(move.command.NoteQueued? && move.command.request == r) &&
            (move.command.NoteResult? && move.command.request == r ==> move.command.terminal.Some?)
  {
  }

  lemma WorkStaysDone(cfg: Config, v: Store, pc: Pc, step: Step, r: nat)
    requires pc.Working? && !AtWork(pc, r) && Worked(cfg, v, pc, step).Some?
    ensures var move := Worked(cfg, v, pc, step).value;
            !AtWork(move.pc, r) && !(move.command.NoteQueued? && move.command.request == r) &&
            !(move.command.NoteResult? && move.command.request == r)
  {
  }

  lemma EngineStaysDone(cfg: Config, v: Store, e: nat, pc: Pc, step: Step, r: nat)
    requires ShowsCompleted(v, r) && !AtWork(pc, r) && Moved(cfg, v, e, pc, step).Some?
    ensures var move := Moved(cfg, v, e, pc, step).value;
            !AtWork(move.pc, r) && !(move.command.NoteQueued? && move.command.request == r) &&
            (move.command.NoteResult? && move.command.request == r ==> move.command.terminal.Some?)
  {
    match step
    case Advance => AdvanceStaysDone(cfg, v, e, pc, r);
    case Deliver =>
    case Reclaim(_) =>
    case Crash =>
    case _ => WorkStaysDone(cfg, v, pc, step, r);
  }

  lemma FrontStaysDone(cfg: Config, s: State, a: Action, r: nat)
    requires FrontsOk(s) && Quiet(s, r) && !a.EngineStep? && Next(cfg, s, a).Some?
    ensures var c, s' := Issued(cfg, s, a), Next(cfg, s, a).value;
            Quiet(s', r) && !(c.NoteQueued? && c.request == r) && !c.NoteResult?
  {
  }

  lemma StatusAfter(cfg: Config, v: Store, c: Command, r: nat)
    requires ShowsCompleted(v, r) && StatusOf(Exec(cfg, v, c), r).Some?
    requires !(c.NoteQueued? && c.request == r)
    requires c.NoteResult? && c.request == r ==> c.terminal.Some?
    ensures ShowsCompleted(Exec(cfg, v, c), r)
  {
  }

  lemma StepStaysDone(cfg: Config, s: State, a: Action, s': State, r: nat)
    requires FrontsOk(s) && Quiet(s, r) && ShowsCompleted(s.store, r)
    requires Next(cfg, s, a) == Some(s') && StatusLive(s', r)
    ensures Quiet(s', r) && ShowsCompleted(s'.store, r)
  {
    var c := Issued(cfg, s, a);
    assert s'.store == Exec(cfg, s.store, c);
    if a.EngineStep? {
      EngineStaysDone(cfg, s.store, a.engine, PcOf(s, a.engine), a.step, r);
    } else {
      FrontStaysDone(cfg, s, a, r);
    }
    StatusAfter(cfg, s.store, c, r);
  }

  lemma {:induction false} StaysCompleted(cfg: Config, run: seq<State>, actions: seq<Action>, r: nat, i: nat)
    requires IsPath(cfg, run, actions) && i < |run| && Safe(run[0])
    requires Quiet(run[0], r) && ShowsCompleted(run[0].store, r)
    requires forall j :: 0 <= j <= i ==> StatusLive(run[j], r)
    ensures Safe(run[i]) && Quiet(run[i], r) && ShowsCompleted(run[i].store, r)
  {
    if i > 0 {
      StaysCompleted(cfg, run, actions, r, i - 1);
      NextStaysDone(cfg, run, actions, r, i - 1);
    }
  }

  lemma NextStaysDone(cfg: Config, run: seq<State>, actions: seq<Action>, r: nat, k: nat)
    requires IsPath(cfg, run, actions) && k < |actions| && StatusLive(run[k + 1], r)
    requires Safe(run[k]) && Quiet(run[k], r) && ShowsCompleted(run[k].store, r)
    ensures Safe(run[k + 1]) && Quiet(run[k + 1], r) && ShowsCompleted(run[k + 1].store, r)
  {
    assert Next(cfg, run[k], actions[k]) == Some(run[k + 1]);
    StepStaysDone(cfg, run[k], actions[k], run[k + 1], r);
    StepIsSafe(cfg, run[k], actions[k]);
  }

  // ----- and the others do not -----

  /** A path from `s` on which no time passes and the status of `r` stays live. */
  ghost predicate Briefly(cfg: Config, s: State, run: seq<State>, actions: seq<Action>, s': State, r: nat) {
    IsPath(cfg, run, actions) && run[0] == s && run[|actions|] == s' &&
    forall j :: 0 <= j < |run| ==> StatusLive(run[j], r) && run[j].store.quota.now == s.store.quota.now
  }

  lemma Further(cfg: Config, s: State, run: seq<State>, actions: seq<Action>, now: State, r: nat, a: Action)
      returns (run': seq<State>, actions': seq<Action>, s': State)
    requires Briefly(cfg, s, run, actions, now, r) && Next(cfg, now, a).Some? && !a.Tick?
    requires StatusLive(Next(cfg, now, a).value, r)
    ensures s' == Next(cfg, now, a).value && Briefly(cfg, s, run', actions', s', r)
  {
    s' := Next(cfg, now, a).value;
    run', actions' := run + [s'], actions + [a];
    PathGoesOn(cfg, run, actions, a, s');
    ClockStands(cfg, now, a);
    forall j | 0 <= j < |run'|
      ensures StatusLive(run'[j], r) && run'[j].store.quota.now == s.store.quota.now
    {
      if j < |run| { assert StatusLive(run[j], r); }
    }
  }

  lemma ClockStands(cfg: Config, s: State, a: Action)
    requires Next(cfg, s, a).Some? && !a.Tick?
    ensures Next(cfg, s, a).value.store.quota.now == s.store.quota.now
  {
    var c := Issued(cfg, s, a);
    assert c.Ledger? ==> !c.op.Tick? by { OnlyTickTicks(cfg, s, a); }
    assert Next(cfg, s, a).value.store == Exec(cfg, s.store, c);
  }

  lemma OnlyTickTicks(cfg: Config, s: State, a: Action)
    requires Next(cfg, s, a).Some? && !a.Tick?
    ensures Issued(cfg, s, a).Ledger? ==> !Issued(cfg, s, a).op.Tick?
  {
  }

  /** Such a path, after which `r` is not completed any more. */
  ghost predicate Reopened(cfg: Config, s: State, run: seq<State>, actions: seq<Action>, r: nat) {
    |run| == |actions| + 1 && Briefly(cfg, s, run, actions, run[|actions|], r) &&
    !ShowsCompleted(run[|actions|].store, r)
  }

  /** The frontend notes `queued` late. */
  lemma QueueReopens(cfg: Config, s: State, r: nat) returns (run: seq<State>, actions: seq<Action>)
    requires ShowsCompleted(s.store, r) && 0 < cfg.activeTtl
    requires r < |s.fronts| && s.fronts[r].Queueing? && s.fronts[r].job.request == r
    ensures Reopened(cfg, s, run, actions, r)
  {
    var s';
    run, actions, s' := Further(cfg, s, [s], [], s, r, Queue(r, true));
  }

  lemma NoteReopens(cfg: Config, s: State, run: seq<State>, actions: seq<Action>, now: State, r: nat, e: nat)
      returns (run': seq<State>, actions': seq<Action>)
    requires Briefly(cfg, s, run, actions, now, r) && 0 < cfg.activeTtl
    requires PcOf(now, e).Working? && PcOf(now, e).stage == Noting && PcOf(now, e).job.request == r
    ensures Reopened(cfg, s, run', actions', r)
  {
    var s';
    run', actions', s' := Further(cfg, s, run, actions, now, r, EngineStep(e, Note));
  }

  /** An attempt notes its start or its next token late. */
  lemma WorkReopens(cfg: Config, s: State, run: seq<State>, actions: seq<Action>, now: State, r: nat, e: nat)
      returns (run': seq<State>, actions': seq<Action>)
    requires Briefly(cfg, s, run, actions, now, r) && 0 < cfg.activeTtl
    requires PcOf(now, e).Working? && !PcOf(now, e).stage.Stopping? && PcOf(now, e).job.request == r
    ensures Reopened(cfg, s, run', actions', r)
  {
    var stage := PcOf(now, e).stage;
    run', actions' := run, actions;
    var next := now;
    if stage != Noting {
      run', actions', next := Further(cfg, s, run, actions, now, r,
                                      EngineStep(e, if stage == Fresh then Begin else Emit("", 0)));
    }
    run', actions' := NoteReopens(cfg, s, run', actions', next, r, e);
  }

  lemma EngineReopens(cfg: Config, s: State, r: nat, e: nat) returns (run: seq<State>, actions: seq<Action>)
    requires ShowsCompleted(s.store, r) && 0 < cfg.activeTtl && AtWork(PcOf(s, e), r)
    requires PcOf(s, e).Acquiring? ==> !LeaseLive(s.store, r)
    ensures Reopened(cfg, s, run, actions, r)
  {
    var now := s;
    run, actions := [s], [];
    if PcOf(s, e).Acquiring? {
      run, actions, now := Further(cfg, s, run, actions, s, r, EngineStep(e, Advance));
    }
    run, actions := WorkReopens(cfg, s, run, actions, now, r, e);
  }

  /** A completed request has a front that dispatched its job. */
  lemma CompletedHasFront(s: State, r: nat)
    requires Safe(s) && ShowsCompleted(s.store, r)
    ensures r < |s.fronts| && !s.fronts[r].Dispatching? && s.fronts[r].job.request == r
  {
    assert HasTerminal(s.store, r);
    assert Log(s.store, r) != [];
    assert Published(s.store, r);
  }

  /** In a reachable state that shows `r` completed, and in which no engine waits for a live
      lease on it: every continuation shows `r` completed for as long as its status lives, if
      and only if the frontend is done with queueing and no engine is about to start, or in
      the middle of, an attempt. */
  lemma CompletedUnlessReopened(cfg: Config, s: State, r: nat)
    requires Reachable(cfg, s) && ShowsCompleted(s.store, r) && 0 < cfg.activeTtl
    requires forall e :: e in s.engines && s.engines[e].Acquiring? && s.engines[e].job.request == r ==>
               !LeaseLive(s.store, r)
    ensures (forall run: seq<State>, actions: seq<Action> |
               IsPath(cfg, run, actions) && run[0] == s && (forall j :: 0 <= j < |run| ==> StatusLive(run[j], r)) ::
               ShowsCompleted(run[|actions|].store, r))
            <==> Quiet(s, r)
  {
    ReachableIsSafe(cfg, s);
    if Quiet(s, r) {
      forall run: seq<State>, actions: seq<Action> |
        IsPath(cfg, run, actions) && run[0] == s && (forall j :: 0 <= j < |run| ==> StatusLive(run[j], r))
        ensures ShowsCompleted(run[|actions|].store, r)
      {
        StaysCompleted(cfg, run, actions, r, |actions|);
      }
    } else {
      CompletedHasFront(s, r);
      var run, actions;
      if s.fronts[r].Queueing? {
        run, actions := QueueReopens(cfg, s, r);
      } else {
        var e :| e in s.engines && AtWork(s.engines[e], r);
        run, actions := EngineReopens(cfg, s, r, e);
      }
      assert IsPath(cfg, run, actions) && !ShowsCompleted(run[|actions|].store, r);
    }
  }

  // ----- both happen -----

  /** The engine can be done before the frontend notes that the job is queued. */
  lemma CompletedThenQueued(cfg: Config)
    requires 0 < cfg.retention && 0 < cfg.activeTtl
    ensures exists s, a :: Reachable(cfg, s) && ShowsCompleted(s.store, 0) && Next(cfg, s, a).Some? &&
              StatusOf(Next(cfg, s, a).value.store, 0).Some? &&
              StatusOf(Next(cfg, s, a).value.store, 0).value.phase == Queued
  {
    var job, gs: set<Guard> := Job(0, 0, cfg.reclaimIdle + 1), {};
    var t, s := Delivered(cfg, gs, cfg.reclaimIdle + 1, true);
    t, s := Attempts(cfg, gs, t, s, 0, job);
    t, s := Releases(cfg, gs, t, s, 0, Succeeded(0, 0, "stop"));
    t, s := Concludes(cfg, gs, t, s, 0);
    t, s := Marks(cfg, gs, t, s, 0);
    LateQueued(cfg, s, job);
    LeadsReachable(cfg, gs, t, s);
  }

  lemma LateQueued(cfg: Config, s: State, job: Job)
    requires 0 < cfg.activeTtl && s.fronts == [Queueing(job)] && job.request == 0
    ensures var s' := Next(cfg, s, Queue(0, true));
            s'.Some? && StatusOf(s'.value.store, 0).Some? && StatusOf(s'.value.store, 0).value.phase == Queued
  {
  }

  /** And an attempt that lost its lease goes on to note `running` after another one has
      completed the request. */
  lemma CompletedThenRunning(cfg: Config)
    requires 0 < cfg.retention && 0 < cfg.activeTtl
    ensures exists s, e :: Reachable(cfg, s) && ShowsCompleted(s.store, 0) && PcOf(s, e).Working? &&
              Next(cfg, s, EngineStep(e, Note)).Some? &&
              StatusOf(Next(cfg, s, EngineStep(e, Note)).value.store, 0).Some? &&
              StatusOf(Next(cfg, s, EngineStep(e, Note)).value.store, 0).value.phase == Running
  {
    var gs: set<Guard> := {};
    var t, s := CompletedMeanwhile(cfg, gs);
    t, s := Proceeds(cfg, gs, t, s, 0, Emit("late", 1));
    assert ShowsCompleted(s.store, 0);
    LateRunning(cfg, s, 0);
    LeadsReachable(cfg, gs, t, s);
  }

  lemma LateRunning(cfg: Config, s: State, e: nat)
    requires 0 < cfg.activeTtl && PcOf(s, e).Working? && PcOf(s, e).stage == Noting && PcOf(s, e).job.request == 0
    ensures var s' := Next(cfg, s, EngineStep(e, Note));
            s'.Some? && StatusOf(s'.value.store, 0).Some? && StatusOf(s'.value.store, 0).value.phase == Running
  {
  }

  /** Engine 0 is still at work under a lease it has lost; engine 1 has completed the job. */
  lemma CompletedMeanwhile(cfg: Config, gs: set<Guard>) returns (t: Trace, s: State)
    requires gs == {} && 0 < cfg.retention
    ensures Leads(cfg, gs, t, s) && ShowsCompleted(s.store, 0)
    ensures PcOf(s, 0).Working? && PcOf(s, 0).stage == Streaming && PcOf(s, 0).job.request == 0
  {
    var ms := cfg.lease + cfg.reclaimIdle;
    t, s := Delivered(cfg, gs, ms + 1, true);
    t, s := Attempts(cfg, gs, t, s, 0, Job(0, 0, ms + 1));
    t, s := Reclaims(cfg, gs, t, s, 1, ms);
    t, s := Attempts(cfg, gs, t, s, 1, Job(0, 0, ms + 1));
    t, s := Releases(cfg, gs, t, s, 1, Succeeded(0, 0, "stop"));
    t, s := Concludes(cfg, gs, t, s, 1);
    t, s := Marks(cfg, gs, t, s, 1);
  }

  // ----- what a status names -----

  predicate Wrote(v: Store, r: nat, author: Author) {
    exists i :: 0 <= i < |Log(v, r)| && Log(v, r)[i].author == author
  }

  predicate IsEnd(v: Store, r: nat, event: nat) {
    event < |Log(v, r)| && IsTerminal(Log(v, r)[event])
  }

  /** What a status names is in the request's log: its attempt wrote there, its terminal event is
      one; and a completed one names its terminal event. */
  ghost predicate NamesEvents(v: Store, r: nat, status: Status) {
    (status.attempt.Some? ==> Wrote(v, r, status.attempt.value)) &&
    (status.terminal.Some? ==> IsEnd(v, r, status.terminal.value)) &&
    (status.phase == Finished ==> status.terminal.Some?)
  }

  ghost predicate StatusesNameEvents(v: Store) {
    forall r :: r in v.statuses ==> NamesEvents(v, r, v.statuses[r])
  }

  /** What an engine is about to note. */
  ghost predicate NotesEvents(v: Store, pc: Pc) {
    (pc.Marking? ==> IsEnd(v, pc.job.request, pc.event) && Log(v, pc.job.request)[pc.event].author == pc.author) &&
    (pc.Working? && pc.stage == Noting ==> Wrote(v, pc.job.request, Attempt(pc.attempt)))
  }

  ghost predicate AllNoteEvents(s: State) {
    forall e :: e in s.engines ==> NotesEvents(s.store, s.engines[e])
  }

  lemma StillWrote(v: Store, v': Store, r: nat, author: Author)
    requires Log(v, r) <= Log(v', r) && Wrote(v, r, author)
    ensures Wrote(v', r, author)
  {
    var i :| 0 <= i < |Log(v, r)| && Log(v, r)[i].author == author;
    assert Log(v', r)[i] == Log(v, r)[i];
  }

  lemma StillNames(v: Store, v': Store, r: nat, status: Status)
    requires Log(v, r) <= Log(v', r) && NamesEvents(v, r, status)
    ensures NamesEvents(v', r, status)
  {
    if status.attempt.Some? { StillWrote(v, v', r, status.attempt.value); }
  }

  lemma StillNotes(v: Store, v': Store, pc: Pc)
    requires Grows(v, v') && NotesEvents(v, pc)
    ensures NotesEvents(v', pc)
  {
    if pc.Working? && pc.stage == Noting { StillWrote(v, v', pc.job.request, Attempt(pc.attempt)); }
  }

  lemma AppendIsNoted(cfg: Config, v: Store, r: nat, event: Event)
    ensures var v' := Exec(cfg, v, Append(r, event));
            Wrote(v', r, event.author) && |Log(v, r)| < |Log(v', r)| && Log(v', r)[|Log(v, r)|] == event
  {
    assert Log(Exec(cfg, v, Append(r, event)), r)[|Log(v, r)|] == event;
  }

  /** A note names what it is given. */
  lemma NoteNames(cfg: Config, v: Store, r: nat, author: Author, terminal: Option<nat>)
    requires StatusesNameEvents(v) && Wrote(v, r, author) && (terminal.Some? ==> IsEnd(v, r, terminal.value))
    ensures var v' := Exec(cfg, v, NoteResult(r, author, terminal));
            v'.logs == v.logs && r in v'.statuses && NamesEvents(v', r, v'.statuses[r]) &&
            v'.statuses[r].attempt == Some(author) && (terminal.Some? ==> v'.statuses[r].terminal == terminal)
  {
    var v' := Exec(cfg, v, NoteResult(r, author, terminal));
    assert Log(v', r) == Log(v, r);
    if StatusOf(v, r).Some? {
      assert NamesEvents(v, r, v.statuses[r]);
    }
  }

  lemma QueuedNames(cfg: Config, v: Store, r: nat)
    requires StatusesNameEvents(v)
    ensures var v' := Exec(cfg, v, NoteQueued(r));
            v'.logs == v.logs && r in v'.statuses && NamesEvents(v', r, v'.statuses[r])
  {
    var v' := Exec(cfg, v, NoteQueued(r));
    assert Log(v', r) == Log(v, r);
    if StatusOf(v, r).Some? {
      assert NamesEvents(v, r, v.statuses[r]);
    }
  }

  lemma EngineNames(cfg: Config, v: Store, e: nat, pc: Pc, step: Step)
    requires NotesEvents(v, pc) && Moved(cfg, v, e, pc, step).Some?
    ensures var move := Moved(cfg, v, e, pc, step).value;
            (move.command.NoteResult? ==>
               Wrote(v, move.command.request, move.command.author) &&
               (move.command.terminal.Some? ==> IsEnd(v, move.command.request, move.command.terminal.value))) &&
            NotesEvents(Exec(cfg, v, move.command), move.pc)
  {
    var move := Moved(cfg, v, e, pc, step).value;
    if move.command.Append? {
      AppendIsNoted(cfg, v, move.command.request, move.command.event);
      AppendsThere(cfg, v, e, pc, step);
    } else {
      NotesThere(cfg, v, e, pc, step);
    }
  }

  lemma AppendsThere(cfg: Config, v: Store, e: nat, pc: Pc, step: Step)
    requires Moved(cfg, v, e, pc, step).Some? && Moved(cfg, v, e, pc, step).value.command.Append?
    ensures var Move(c, pc') := Moved(cfg, v, e, pc, step).value;
            (pc'.Marking? ==> pc'.job.request == c.request && pc'.author == c.event.author &&
                              pc'.event == |Log(v, c.request)| && IsTerminal(c.event)) &&
            (pc'.Working? ==> pc'.job.request == c.request && c.event.author == Attempt(pc'.attempt))
  {
  }

  lemma NotesThere(cfg: Config, v: Store, e: nat, pc: Pc, step: Step)
    requires NotesEvents(v, pc) && Moved(cfg, v, e, pc, step).Some?
    requires !Moved(cfg, v, e, pc, step).value.command.Append?
    ensures var move := Moved(cfg, v, e, pc, step).value;
            (move.command.NoteResult? ==>
               Wrote(v, move.command.request, move.command.author) &&
               (move.command.terminal.Some? ==> IsEnd(v, move.command.request, move.command.terminal.value))) &&
            NotesEvents(Exec(cfg, v, move.command), move.pc)
  {
    var move := Moved(cfg, v, e, pc, step).value;
    var v', pc' := Exec(cfg, v, move.command), move.pc;
    assert v'.logs == v.logs && !pc'.Marking?;
    if pc'.Working? && pc'.stage == Noting {
      assert pc.Working? && pc.stage == Noting && pc'.job == pc.job && pc'.attempt == pc.attempt;
      StillWrote(v, v', pc.job.request, Attempt(pc.attempt));
    }
  }

  lemma StatusStep(cfg: Config, s: State, a: Action, s': State)
    requires StatusesNameEvents(s.store) && AllNoteEvents(s) && Next(cfg, s, a) == Some(s')
    ensures StatusesNameEvents(s'.store) && AllNoteEvents(s')
  {
    var v, v', c := s.store, s'.store, Issued(cfg, s, a);
    assert v' == Exec(cfg, v, c);
    CommandGrows(cfg, v, c);
    if a.EngineStep? {
      assert NotesEvents(v, PcOf(s, a.engine));
      EngineNames(cfg, v, a.engine, PcOf(s, a.engine), a.step);
    } else {
      assert !c.NoteResult?;
    }
    forall e | e in s'.engines ensures NotesEvents(v', s'.engines[e]) {
      if !(a.EngineStep? && a.engine == e) { StillNotes(v, v', s.engines[e]); }
    }
    forall r | r in v'.statuses ensures NamesEvents(v', r, v'.statuses[r]) {
      CommandNames(cfg, v, c, r);
    }
  }

  lemma CommandNames(cfg: Config, v: Store, c: Command, r: nat)
    requires StatusesNameEvents(v) && r in Exec(cfg, v, c).statuses
    requires c.NoteResult? ==>
               Wrote(v, c.request, c.author) && (c.terminal.Some? ==> IsEnd(v, c.request, c.terminal.value))
    ensures NamesEvents(Exec(cfg, v, c), r, Exec(cfg, v, c).statuses[r])
  {
    CommandGrows(cfg, v, c);
    if c.NoteResult? && c.request == r {
      NoteNames(cfg, v, r, c.author, c.terminal);
    } else if c.NoteQueued? && c.request == r {
      QueuedNames(cfg, v, r);
    } else {
      assert r in v.statuses && Exec(cfg, v, c).statuses[r] == v.statuses[r];
      StillNames(v, Exec(cfg, v, c), r, v.statuses[r]);
    }
  }

  lemma {:induction false} RunNamesEvents(cfg: Config, run: seq<State>, actions: seq<Action>, n: nat)
    requires IsRun(cfg, run, actions) && n < |run|
    ensures StatusesNameEvents(run[n].store) && AllNoteEvents(run[n])
  {
    if n > 0 {
      RunNamesEvents(cfg, run, actions, n - 1);
      assert Next(cfg, run[n - 1], actions[n - 1]) == Some(run[n - 1 + 1]);
      StatusStep(cfg, run[n - 1], actions[n - 1], run[n]);
    }
  }

  /** In every reachable state a status names an attempt that wrote to the request's log and a
      terminal event that is one; and a completed status names its terminal event. */
  lemma StatusNamesItsEvents(cfg: Config, s: State, r: nat)
    requires Reachable(cfg, s) && r in s.store.statuses
    ensures NamesEvents(s.store, r, s.store.statuses[r])
  {
    var run, actions :| IsRun(cfg, run, actions) && run[|actions|] == s;
    RunNamesEvents(cfg, run, actions, |actions|);
  }
}
