/** The job protocol: frontends, engines and their heartbeats around one broker, as a
    state machine with one action per broker command.  Every `await` of `run_job` is a
    place where an engine can be overtaken, fail or crash. */
module Protocol {
  import opened Basics
  import opened QuotaBook

  // ----- what the broker holds -----

  /** A generation job, as published: `deadline` 0 means none. */
  datatype Job = Job(request: nat, reservation: nat, deadline: nat)

  /** Events carry the id of the attempt that produced them; a job that is found past its
      deadline is failed in the name of the engine. */
  datatype Author = Attempt(id: nat) | Engine(id: nat)
  datatype Body =
    | Started
    | Token(text: string, cumulative: nat)
    | Completed(prompt: nat, generated: nat, finish: string)
    | Failed(code: string, message: string)
  datatype Event = Event(author: Author, body: Body)

  datatype Phase = Queued | Running | Finished
  datatype Status = Status(phase: Phase, attempt: Option<Author>, terminal: Option<nat>, expiry: nat)
  datatype Lease = Lease(owner: nat, expiry: nat)

  /** `logs` and `deliveries` are kept for ever: what was appended and how often an entry
      was handed out.  The pending list has the time of the last delivery.  `attempts`
      counts the attempt ids drawn, each a fresh UUID. */
  datatype Store = Store(
    quota: Quota,
    stream: seq<Job>, cursor: nat, pending: map<nat, nat>, acked: set<nat>, deliveries: map<nat, nat>,
    logs: map<nat, seq<Event>>, statuses: map<nat, Status>, leases: map<nat, Lease>, attempts: nat)

  /** Durations in milliseconds.  `send` and `reply` bound the two legs of one lease
      command; only timed runs are held to them. */
  datatype Config = Config(lease: nat, heartbeat: nat, send: nat, reply: nat, reclaimIdle: nat,
                           activeTtl: nat, retention: nat)

  // ----- where the processes are -----

  datatype Ending = Succeeded(prompt: nat, generated: nat, finish: string) | Errored(message: string)

  /** The heartbeat task of an attempt: waiting for the reply to its last command, asleep,
      on the way with a renewal, or gone because the lease was lost.  `misses` counts the
      renewals that failed in a row. */
  datatype Beat =
    | Replying(due: nat, misses: nat)
    | Sleeping(until: nat, misses: nat)
    | Sending(due: nat, misses: nat)
    | Lost

  datatype Stage = Fresh | Noting | Streaming | Stopping(ending: Ending)

  datatype Pc =
    | Idle
    | Starting(entry: nat, job: Job)
    | Withdrawing(entry: nat, job: Job)
    | Expiring(entry: nat, job: Job)
    | Inspecting(entry: nat, job: Job)
    | Acquiring(entry: nat, job: Job)
    | Working(entry: nat, job: Job, attempt: nat, stage: Stage, beat: Beat)
    | Releasing(entry: nat, job: Job, attempt: nat, ending: Ending, due: nat)
    | Settling(entry: nat, job: Job, attempt: nat, ending: Ending)
    | Concluding(entry: nat, job: Job, attempt: nat, ending: Ending)
    | Marking(entry: nat, job: Job, author: Author, event: nat)
    | Acking(entry: nat, job: Job)

  /** One `admit_and_dispatch` that got its reservation; the request id is its position. */
  datatype Front = Dispatching(job: Job) | Queueing(job: Job) | CallingOff(job: Job) | Answered(job: Job)

  datatype State = State(store: Store, engines: map<nat, Pc>, fronts: seq<Front>)

  /** Nothing published yet; the clock, the cursor and the count of attempts at `n`. */
  function Blank(n: nat): State {
    State(Store(Quota(n, []), [], n, map[], {}, map[], map[], map[], map[], n), map[], [])
  }

  const Initial := Blank(0)

  /** How a renewal went: answered, done with the reply lost, or not done at all. */
  datatype Renewal = Replied | ReplyLost | Dropped

  datatype Action =
    | Tick(ms: nat)
    | Admit(bucket: Bucket, prompt: nat, generated: nat, limits: Charge, timeout: nat)
    | Dispatch(request: nat, reported: bool)
    | Queue(request: nat, reported: bool)
    | FailDispatch(request: nat)
    | CallOff(request: nat)
    | EngineStep(engine: nat, step: Step)

  /** `Advance` is every step of `run_job` that leaves no choice. */
  datatype Step =
    | Deliver
    | Reclaim(entry: nat)
    | Advance
    | Begin
    | Note
    | Emit(text: string, cumulative: nat)
    | Finish(ending: Ending)
    | Doze
    | Wake
    | Renew(how: Renewal)
    | Stop
    | Crash

  /** The broker commands and scripts, each atomic. */
  datatype Command =
    | Pass
    | Ledger(op: Op)
    | AddJob(job: Job)
    | NoteQueued(request: nat)
    | HandOut(entry: nat)
    | Append(request: nat, event: Event)
    | NoteResult(request: nat, author: Author, terminal: Option<nat>)
    | TakeLease(request: nat)
    | ExtendLease(request: nat, owner: nat)
    | DropLease(request: nat, owner: nat)
    | Acknowledge(entry: nat)

  // ----- reading the store -----

  function Log(v: Store, request: nat): seq<Event> {
    if request in v.logs then v.logs[request] else []
  }

  predicate IsTerminal(e: Event) {
    e.body.Completed? || e.body.Failed?
  }

  predicate HasTerminal(v: Store, request: nat) {
    exists e :: e in Log(v, request) && IsTerminal(e)
  }

  /** A reservation that was reconciled or cancelled, or whose record has expired. */
  predicate Settled(v: Store, reservation: nat) {
    reservation < |v.quota.book| && !QuotaBook.Open(v.quota, reservation)
  }

  predicate LeaseLive(v: Store, request: nat) {
    request in v.leases && v.quota.now < v.leases[request].expiry
  }

  predicate LeaseOwned(v: Store, request: nat, owner: nat) {
    LeaseLive(v, request) && v.leases[request].owner == owner
  }

  function StatusOf(v: Store, request: nat): Option<Status> {
    if request in v.statuses && v.quota.now < v.statuses[request].expiry then Some(v.statuses[request]) else None
  }

  predicate ShowsCompleted(v: Store, request: nat) {
    StatusOf(v, request).Some? && StatusOf(v, request).value.phase == Finished
  }

  predicate Idled(cfg: Config, v: Store, entry: nat) {
    entry in v.pending && v.pending[entry] + cfg.reclaimIdle <= v.quota.now
  }

  predicate PastDeadline(v: Store, job: Job) {
    job.deadline > 0 && v.quota.now > job.deadline
  }

  function Deliveries(v: Store, entry: nat): nat {
    if entry in v.deliveries then v.deliveries[entry] else 0
  }

  // ----- commands -----

  function Exec(cfg: Config, v: Store, c: Command): Store {
    var now := v.quota.now;
    match c
    case Pass => v
    case Ledger(op) => v.(quota := Do(v.quota, op))
    case AddJob(job) => v.(stream := v.stream + [job])
    case NoteQueued(request) =>
      var was := StatusOf(v, request);
      v.(statuses := v.statuses[request :=
        Status(Queued, if was.Some? then was.value.attempt else None, if was.Some? then was.value.terminal else None,
               now + cfg.activeTtl)])
    case HandOut(entry) =>
      v.(pending := v.pending[entry := now], deliveries := v.deliveries[entry := Deliveries(v, entry) + 1],
         cursor := if entry < v.cursor then v.cursor else entry + 1)
    case Append(request, event) => v.(logs := v.logs[request := Log(v, request) + [event]])
    // a terminal event makes the state `completed`, any other one `running`
    case NoteResult(request, author, terminal) =>
      var was := StatusOf(v, request);
      v.(statuses := v.statuses[request :=
        Status(if terminal.Some? then Finished else Running, Some(author),
               if terminal.Some? then terminal else if was.Some? then was.value.terminal else None,
               now + if terminal.Some? then cfg.retention else cfg.activeTtl)])
    case TakeLease(request) =>
      v.(leases := if LeaseLive(v, request) then v.leases else v.leases[request := Lease(v.attempts, now + cfg.lease)],
         attempts := v.attempts + 1)
    case ExtendLease(request, owner) =>
      if LeaseOwned(v, request, owner) then v.(leases := v.leases[request := Lease(owner, now + cfg.lease)]) else v
    case DropLease(request, owner) =>
      if LeaseOwned(v, request, owner) then v.(leases := v.leases - {request}) else v
    case Acknowledge(entry) =>
      if entry in v.pending then v.(pending := v.pending - {entry}, acked := v.acked + {entry}) else v
  }

  // ----- engines -----

  /** One step of an engine: the command it issues and where it stands after it. */
  datatype Move = Move(command: Command, pc: Pc)

  function TerminalBody(ending: Ending): Body {
    match ending
    case Succeeded(prompt, generated, finish) => Completed(prompt, generated, finish)
    case Errored(message) => Failed("backend_error", message)
  }

  /** What a settlement reports as generated: nothing, when the attempt failed. */
  function Generated(ending: Ending): nat {
    if ending.Succeeded? then ending.generated else 0
  }

  function DeadlineEvent(engine: nat): Event {
    Event(Engine(engine), Failed("deadline_exceeded", "generation deadline exceeded"))
  }

  function Advanced(cfg: Config, v: Store, e: nat, pc: Pc): Option<Move> {
    match pc
    case Starting(entry, job) =>
      Some(Move(Pass, if PastDeadline(v, job) then Withdrawing(entry, job) else Inspecting(entry, job)))
    case Withdrawing(entry, job) => Some(Move(Ledger(Cancel(job.reservation)), Expiring(entry, job)))
    case Expiring(entry, job) =>
      Some(Move(Append(job.request, DeadlineEvent(e)), Marking(entry, job, Engine(e), |Log(v, job.request)|)))
    case Inspecting(entry, job) =>
      Some(Move(Pass, if ShowsCompleted(v, job.request) then Acking(entry, job) else Acquiring(entry, job)))
    case Acquiring(entry, job) =>
      Some(Move(TakeLease(job.request),
                if LeaseLive(v, job.request) then Idle
                else Working(entry, job, v.attempts, Fresh, Replying(v.quota.now + cfg.reply, 0))))
    case Releasing(entry, job, attempt, ending, _) =>
      Some(Move(DropLease(job.request, attempt), Settling(entry, job, attempt, ending)))
    case Settling(entry, job, attempt, ending) =>
      Some(Move(Ledger(Reconcile(job.reservation, Generated(ending))), Concluding(entry, job, attempt, ending)))
    case Concluding(entry, job, attempt, ending) =>
      Some(Move(Append(job.request, Event(Attempt(attempt), TerminalBody(ending))),
                Marking(entry, job, Attempt(attempt), |Log(v, job.request)|)))
    case Marking(entry, job, author, event) =>
      Some(Move(NoteResult(job.request, author, Some(event)), Acking(entry, job)))
    case Acking(entry, _) => Some(Move(Acknowledge(entry), Idle))
    case Idle => None
    case Working(_, _, _, _, _) => None
  }

  /** The steps of an attempt that took the lease: `execute_attempt` and its heartbeat. */
  function Worked(cfg: Config, v: Store, pc: Pc, step: Step): Option<Move>
    requires pc.Working?
  {
    var Working(entry, job, attempt, stage, beat) := pc;
    var now := v.quota.now;
    match step
    case Begin =>
      if stage != Fresh then None
      else Some(Move(Append(job.request, Event(Attempt(attempt), Started)), pc.(stage := Noting)))
    case Emit(text, cumulative) =>
      if stage != Streaming then None
      else Some(Move(Append(job.request, Event(Attempt(attempt), Token(text, cumulative))), pc.(stage := Noting)))
    case Note =>
      if stage != Noting then None
      else Some(Move(NoteResult(job.request, Attempt(attempt), None), pc.(stage := Streaming)))
    case Finish(ending) =>
      if stage.Stopping? || (ending.Succeeded? && stage != Streaming) then None
      else Some(Move(Pass, pc.(stage := Stopping(ending))))
    case Doze =>
      if !beat.Replying? then None
      else Some(Move(Pass, pc.(beat := Sleeping(now + cfg.heartbeat, beat.misses))))
    case Wake =>
      if !beat.Sleeping? || now < beat.until then None
      else Some(Move(Pass, pc.(beat := Sending(now + cfg.send, beat.misses))))
    case Renew(how) =>
      if !beat.Sending? then None
      else
        var command := if how == Dropped then Pass else ExtendLease(job.request, attempt);
        Some(Move(command, pc.(beat :=
          if how != Replied then Replying(now + cfg.reply, beat.misses + 1)
          else if LeaseOwned(v, job.request, attempt) then Replying(now + cfg.reply, 0)
          else Lost)))
    case Stop =>
      if !stage.Stopping? || !(beat.Sleeping? || beat.Lost?) then None
      else Some(Move(Pass, Releasing(entry, job, attempt, stage.ending, now + cfg.send)))
    case _ => None
  }

  function Moved(cfg: Config, v: Store, e: nat, pc: Pc, step: Step): Option<Move> {
    match step
    case Crash => Some(Move(Pass, Idle))
    case Deliver =>
      if pc != Idle || v.cursor >= |v.stream| then None
      else Some(Move(HandOut(v.cursor), Starting(v.cursor, v.stream[v.cursor])))
    case Reclaim(entry) =>
      if pc != Idle || !Idled(cfg, v, entry) || entry >= |v.stream| then None
      else Some(Move(HandOut(entry), Starting(entry, v.stream[entry])))
    case Advance => Advanced(cfg, v, e, pc)
    case _ => if pc.Working? then Worked(cfg, v, pc, step) else None
  }

  // ----- the whole system -----

  function PcOf(s: State, engine: nat): Pc {
    if engine in s.engines then s.engines[engine] else Idle
  }

  /** A front's step: its command and what becomes of it.  `reported` false is a command
      that took effect and whose reply was lost. */
  function Fronted(front: Front, a: Action): Option<(Command, Front)> {
    match (a, front)
    case (Dispatch(_, reported), Dispatching(job)) =>
      Some((AddJob(job), if reported then Queueing(job) else CallingOff(job)))
    case (Queue(_, reported), Queueing(job)) =>
      Some((NoteQueued(job.request), if reported then Answered(job) else CallingOff(job)))
    case (FailDispatch(_), Dispatching(job)) => Some((Pass, CallingOff(job)))
    case (FailDispatch(_), Queueing(job)) => Some((Pass, CallingOff(job)))
    case (CallOff(_), CallingOff(job)) => Some((Ledger(Cancel(job.reservation)), Answered(job)))
    case _ => None
  }

  function FrontNext(cfg: Config, s: State, request: nat, a: Action): Option<State> {
    if request >= |s.fronts| then None
    else
      match Fronted(s.fronts[request], a)
      case None => None
      case Some((command, front)) =>
        Some(s.(store := Exec(cfg, s.store, command), fronts := s.fronts[request := front]))
  }

  function Next(cfg: Config, s: State, a: Action): Option<State> {
    var q := s.store.quota;
    match a
    case Tick(ms) => Some(s.(store := Exec(cfg, s.store, Ledger(QuotaBook.Tick(ms)))))
    case Admit(bucket, prompt, generated, limits, timeout) =>
      if ReserveReply(q, bucket, prompt, generated, limits).Refused? then None
      else Some(s.(store := Exec(cfg, s.store, Ledger(Reserve(bucket, prompt, generated, limits))),
                   fronts := s.fronts + [Dispatching(Job(|s.fronts|, |q.book|, q.now + timeout))]))
    case Dispatch(request, _) => FrontNext(cfg, s, request, a)
    case Queue(request, _) => FrontNext(cfg, s, request, a)
    case FailDispatch(request) => FrontNext(cfg, s, request, a)
    case CallOff(request) => FrontNext(cfg, s, request, a)
    case EngineStep(e, step) =>
      match Moved(cfg, s.store, e, PcOf(s, e), step)
      case None => None
      case Some(move) => Some(s.(store := Exec(cfg, s.store, move.command), engines := s.engines[e := move.pc]))
  }

  /** A path lists the states passed through; a run is one from the initial state. */
  ghost predicate IsPath(cfg: Config, run: seq<State>, actions: seq<Action>) {
    |run| == |actions| + 1 &&
    forall i {:trigger Next(cfg, run[i], actions[i])} :: 0 <= i < |actions| ==>
      Next(cfg, run[i], actions[i]) == Some(run[i + 1])
  }

  ghost predicate IsRun(cfg: Config, run: seq<State>, actions: seq<Action>) {
    IsPath(cfg, run, actions) && run[0] == Initial
  }

  ghost predicate Reachable(cfg: Config, s: State) {
    exists run, actions :: IsRun(cfg, run, actions) && run[|actions|] == s
  }

  // ----- the first request -----

  lemma AdmitFirst(cfg: Config, s: State, bucket: Bucket, generated: nat, limits: Charge, timeout: nat)
      returns (admit: Action, s': State)
    requires s.store.quota.book == [] && s.fronts == [] && Within(Charge(1, 0, generated), limits)
    ensures Next(cfg, s, admit) == Some(s')
    ensures s'.store == s.store.(quota := s'.store.quota) && s'.store.quota.now == s.store.quota.now
    ensures s'.store.quota.book == [Entry(bucket, 0, generated, s.store.quota.now, Reserved)]
    ensures s'.engines == s.engines && s'.fronts == [Dispatching(Job(0, 0, s.store.quota.now + timeout))]
  {
    admit := Admit(bucket, 0, generated, limits, timeout);
    FirstIsAdmitted(s.store.quota, bucket, 0, generated, limits);
    s' := Next(cfg, s, admit).value;
  }

  lemma DispatchFirst(cfg: Config, s: State) returns (s': State)
    requires |s.fronts| == 1 && s.fronts[0].Dispatching? && s.store.stream == []
    ensures Next(cfg, s, Dispatch(0, true)) == Some(s')
    ensures s' == s.(store := s.store.(stream := [s.fronts[0].job]), fronts := [Queueing(s.fronts[0].job)])
  {
    s' := s.(store := s.store.(stream := [s.fronts[0].job]), fronts := [Queueing(s.fronts[0].job)]);
    assert s.fronts[0 := Queueing(s.fronts[0].job)] == s'.fronts;
    assert Exec(cfg, s.store, AddJob(s.fronts[0].job)) == s'.store;
  }
}
