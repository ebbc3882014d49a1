/** How long things last in the protocol: a lease, a status, and the time an entry must have
    been pending before it is taken over. */
module ProtocolTiming {
  import opened Basics
  import opened QuotaBook
  import opened Protocol
  import opened ProtocolSafety
  import opened ProtocolRuns
  import opened LeaseBlocks

  function Later(cfg: Config, s: State, ms: nat): State {
    Next(cfg, s, Action.Tick(ms)).value
  }

  // ----- leases -----

  /** No lease reaches further than a lease length from now. */
  ghost predicate LeasesBounded(cfg: Config, v: Store) {
    forall r :: r in v.leases ==> v.leases[r].expiry <= v.quota.now + cfg.lease
  }

  lemma LeaseWritten(cfg: Config, v: Store, c: Command, r: nat)
    requires r in Exec(cfg, v, c).leases
    ensures (r in v.leases && Exec(cfg, v, c).leases[r] == v.leases[r]) ||
            Exec(cfg, v, c).leases[r].expiry == v.quota.now + cfg.lease
  {
  }

  lemma {:induction false} RunLeasesBounded(cfg: Config, run: seq<State>, actions: seq<Action>, n: nat)
    requires IsRun(cfg, run, actions) && n < |run|
    ensures LeasesBounded(cfg, run[n].store)
  {
    if n > 0 {
      RunLeasesBounded(cfg, run, actions, n - 1);
      NextLeasesBounded(cfg, run, actions, n - 1);
    }
  }

  lemma NextLeasesBounded(cfg: Config, run: seq<State>, actions: seq<Action>, k: nat)
    requires IsPath(cfg, run, actions) && k < |actions| && LeasesBounded(cfg, run[k].store)
    ensures LeasesBounded(cfg, run[k + 1].store)
  {
    assert Next(cfg, run[k], actions[k]) == Some(run[k + 1]);
    var v, c := run[k].store, Issued(cfg, run[k], actions[k]);
    CommandGrows(cfg, v, c);
    var v' := run[k + 1].store;
    assert v' == Exec(cfg, v, c);
    forall r | r in v'.leases ensures v'.leases[r].expiry <= v'.quota.now + cfg.lease {
      LeaseWritten(cfg, v, c, r);
    }
  }

  /** In every reachable state, no request is leased for longer than a lease length from now. */
  lemma LeasedAtMost(cfg: Config, s: State, r: nat)
    requires Reachable(cfg, s) && r in s.store.leases
    ensures s.store.leases[r].expiry <= s.store.quota.now + cfg.lease
  {
    var run, actions :| IsRun(cfg, run, actions) && run[|actions|] == s;
    RunLeasesBounded(cfg, run, actions, |actions|);
  }

  /** A lease that is taken lives for exactly a lease length. */
  lemma LeaseTakenFor(cfg: Config, s: State, e: nat, ms: nat)
    requires PcOf(s, e).Acquiring? && !LeaseLive(s.store, PcOf(s, e).job.request)
    ensures Next(cfg, s, EngineStep(e, Advance)).Some?
    ensures var s', r := Next(cfg, s, EngineStep(e, Advance)).value, PcOf(s, e).job.request;
            PcOf(s', e).Working? && r in s'.store.leases && s'.store.leases[r].owner == PcOf(s', e).attempt &&
            (LeaseLive(Later(cfg, s', ms).store, r) <==> ms < cfg.lease)
  {
  }

  /** A renewal by its owner makes it live for exactly a lease length from then, and ends the
      count of missed ones when it is answered; one that does not arrive changes nothing. */
  lemma LeaseRenewedFor(cfg: Config, s: State, e: nat, how: Renewal, ms: nat)
    requires PcOf(s, e).Working? && PcOf(s, e).beat.Sending?
    requires LeaseOwned(s.store, PcOf(s, e).job.request, PcOf(s, e).attempt)
    ensures Next(cfg, s, EngineStep(e, Renew(how))).Some?
    ensures var s', pc := Next(cfg, s, EngineStep(e, Renew(how))).value, PcOf(s, e);
            if how == Dropped then s'.store == s.store
            else LeaseOwned(Later(cfg, s', ms).store, pc.job.request, pc.attempt) <==> ms < cfg.lease
    ensures var s', beat := Next(cfg, s, EngineStep(e, Renew(how))).value, PcOf(s, e).beat;
            PcOf(s', e) == PcOf(s, e).(beat :=
              Replying(s.store.quota.now + cfg.reply, if how == Replied then 0 else beat.misses + 1))
  {
  }

  /** No engine relies on a lease under this attempt any more. */
  ghost predicate OwnerGone(s: State, attempt: nat) {
    attempt < s.store.attempts && forall e :: e in s.engines && Relies(s.engines[e]) ==> s.engines[e].attempt != attempt
  }

  lemma OrphanStep(cfg: Config, s: State, a: Action, s': State, r: nat, attempt: nat)
    requires OwnerGone(s, attempt) && Next(cfg, s, a) == Some(s')
    ensures OwnerGone(s', attempt)
    ensures r in s'.store.leases && s'.store.leases[r].owner == attempt ==>
              r in s.store.leases && s'.store.leases[r] == s.store.leases[r]
  {
    if a.EngineStep? {
      MoveKeepsAttempt(cfg, s.store, a.engine, PcOf(s, a.engine), a.step);
      if r in s'.store.leases { LeaseOrigin(cfg, s.store, a.engine, PcOf(s, a.engine), a.step, r); }
    } else {
      FrontsLeaveEngines(cfg, s, a);
    }
  }

  lemma {:induction false} OrphanLeaseStays(cfg: Config, run: seq<State>, actions: seq<Action>, i: nat, n: nat,
                                            r: nat, attempt: nat)
    requires IsPath(cfg, run, actions) && i <= n < |run| && OwnerGone(run[i], attempt)
    ensures OwnerGone(run[n], attempt)
    ensures r in run[n].store.leases && run[n].store.leases[r].owner == attempt ==>
              r in run[i].store.leases && run[n].store.leases[r] == run[i].store.leases[r]
    decreases n - i
  {
    if i < n {
      OrphanLeaseStays(cfg, run, actions, i, n - 1, r, attempt);
      assert Next(cfg, run[n - 1], actions[n - 1]) == Some(run[n - 1 + 1]);
      OrphanStep(cfg, run[n - 1], actions[n - 1], run[n], r, attempt);
    }
  }

  /** An owner that is gone, by a crash say, blocks a takeover for no longer than a lease length:
      after that its lease is dead, whatever happened meanwhile. */
  lemma BlockedAtMost(cfg: Config, run: seq<State>, actions: seq<Action>, i: nat, n: nat, r: nat, attempt: nat)
    requires IsRun(cfg, run, actions) && i <= n < |run| && OwnerGone(run[i], attempt)
    requires run[n].store.quota.now >= run[i].store.quota.now + cfg.lease
    ensures !LeaseOwned(run[n].store, r, attempt)
  {
    OrphanLeaseStays(cfg, run, actions, i, n, r, attempt);
    RunLeasesBounded(cfg, run, actions, i);
  }

  // ----- pending entries -----

  predicate HandsOutAt(s: State, a: Action, entry: nat) {
    a.EngineStep? && HandsOut(s, a.step, entry)
  }

  lemma PendingStep(cfg: Config, s: State, a: Action, s': State, entry: nat)
    requires Next(cfg, s, a) == Some(s') && entry in s'.store.pending
    ensures if HandsOutAt(s, a, entry) then s'.store.pending[entry] == s.store.quota.now
            else entry in s.store.pending && s'.store.pending[entry] == s.store.pending[entry]
  {
    var c := Issued(cfg, s, a);
    assert c == HandOut(entry) <==> HandsOutAt(s, a, entry) by { IssuedHandsOut(cfg, s, a, entry); }
    assert s'.store == Exec(cfg, s.store, c);
    PendingAfter(cfg, s.store, c, entry);
  }

  lemma PendingAfter(cfg: Config, v: Store, c: Command, entry: nat)
    requires entry in Exec(cfg, v, c).pending
    ensures if c == HandOut(entry) then Exec(cfg, v, c).pending[entry] == v.quota.now
            else entry in v.pending && Exec(cfg, v, c).pending[entry] == v.pending[entry]
  {
  }

  lemma IssuedHandsOut(cfg: Config, s: State, a: Action, entry: nat)
    requires Next(cfg, s, a).Some?
    ensures Issued(cfg, s, a) == HandOut(entry) <==> HandsOutAt(s, a, entry)
  {
    if a.EngineStep? { HandedByStep(cfg, s, a.engine, a.step, entry); }
  }

  lemma HandedByStep(cfg: Config, s: State, e: nat, step: Step, entry: nat)
    requires Moved(cfg, s.store, e, PcOf(s, e), step).Some?
    ensures Moved(cfg, s.store, e, PcOf(s, e), step).value.command == HandOut(entry) <==> HandsOut(s, step, entry)
  {
  }

  /** Step `j` was the last one before `n` to hand `entry` out. */
  ghost predicate LastHandOut(run: seq<State>, actions: seq<Action>, j: nat, n: nat, entry: nat)
    requires n <= |actions| < |run|
  {
    j < n && HandsOutAt(run[j], actions[j], entry) && forall m :: j < m < n ==> !HandsOutAt(run[m], actions[m], entry)
  }

  lemma {:induction false} PendingSince(cfg: Config, run: seq<State>, actions: seq<Action>, n: nat, entry: nat)
      returns (j: nat)
    requires IsRun(cfg, run, actions) && n < |run| && entry in run[n].store.pending
    ensures LastHandOut(run, actions, j, n, entry) && run[n].store.pending[entry] == run[j].store.quota.now
  {
    assert Next(cfg, run[n - 1], actions[n - 1]) == Some(run[n - 1 + 1]);
    PendingStep(cfg, run[n - 1], actions[n - 1], run[n], entry);
    if HandsOutAt(run[n - 1], actions[n - 1], entry) {
      j := n - 1;
    } else {
      j := PendingSince(cfg, run, actions, n - 1, entry);
    }
  }

  /** An entry is only ever taken over when it was handed out at least the idle time ago, by
      whichever delivery was its last. */
  lemma TakenOverStale(cfg: Config, run: seq<State>, actions: seq<Action>, n: nat, entry: nat) returns (j: nat)
    requires IsRun(cfg, run, actions) && n < |actions| && actions[n].EngineStep? && actions[n].step == Reclaim(entry)
    ensures LastHandOut(run, actions, j, n, entry)
    ensures run[j].store.quota.now + cfg.reclaimIdle <= run[n].store.quota.now
  {
    assert Next(cfg, run[n], actions[n]) == Some(run[n + 1]);
    j := PendingSince(cfg, run, actions, n, entry);
  }

  /** And an idle engine may take it over from exactly that time on. */
  lemma StaleAfter(cfg: Config, s: State, e: nat, entry: nat, ms: nat)
    requires entry in s.store.pending && s.store.pending[entry] == s.store.quota.now && entry < |s.store.stream|
    requires PcOf(s, e) == Idle
    ensures Next(cfg, Later(cfg, s, ms), EngineStep(e, Reclaim(entry))).Some? <==> cfg.reclaimIdle <= ms
  {
  }

  /** A job is found late exactly from the first millisecond after its deadline; one without a
      deadline never is. */
  lemma LateAfter(cfg: Config, s: State, e: nat)
    requires PcOf(s, e).Starting?
    ensures Next(cfg, s, EngineStep(e, Advance)).Some?
    ensures var deadline := PcOf(s, e).job.deadline;
            PcOf(Next(cfg, s, EngineStep(e, Advance)).value, e).Withdrawing? <==>
              0 < deadline && deadline + 1 <= s.store.quota.now
  {
  }

  // ----- statuses -----

  /** A request that is marked completed shows so for exactly the retention time, and names the
      event that ended it and that event's author. */
  lemma CompletedFor(cfg: Config, s: State, e: nat, ms: nat)
    requires PcOf(s, e).Marking?
    ensures Next(cfg, s, EngineStep(e, Advance)).Some?
    ensures var pc, s' := PcOf(s, e), Later(cfg, Next(cfg, s, EngineStep(e, Advance)).value, ms);
            var r := pc.job.request;
            (ShowsCompleted(s'.store, r) <==> ms < cfg.retention) &&
            (ms < cfg.retention ==>
               AttemptOf(s'.store, r) == Some(pc.author) && TerminalOf(s'.store, r) == Some(pc.event))
  {
  }

  predicate Shows(v: Store, r: nat, phase: Phase) {
    StatusOf(v, r).Some? && StatusOf(v, r).value.phase == phase
  }

  /** What a live status named before. */
  function TerminalOf(v: Store, r: nat): Option<nat> {
    if StatusOf(v, r).Some? then StatusOf(v, r).value.terminal else None
  }

  function AttemptOf(v: Store, r: nat): Option<Author> {
    if StatusOf(v, r).Some? then StatusOf(v, r).value.attempt else None
  }

  /** One that is noted as running shows so for exactly the active time, and names its attempt and
      the terminal event it named before, if it did. */
  lemma RunningFor(cfg: Config, s: State, e: nat, ms: nat)
    requires PcOf(s, e).Working? && PcOf(s, e).stage == Noting
    ensures Next(cfg, s, EngineStep(e, Note)).Some?
    ensures var pc, s' := PcOf(s, e), Later(cfg, Next(cfg, s, EngineStep(e, Note)).value, ms);
            var r := pc.job.request;
            (Shows(s'.store, r, Running) <==> ms < cfg.activeTtl) &&
            (ms < cfg.activeTtl ==>
               AttemptOf(s'.store, r) == Some(Attempt(pc.attempt)) && TerminalOf(s'.store, r) == TerminalOf(s.store, r))
  {
  }

  /** So does one that is noted as queued; it names what it named before. */
  lemma QueuedFor(cfg: Config, s: State, r: nat, reported: bool, ms: nat)
    requires r < |s.fronts| && s.fronts[r].Queueing? && s.fronts[r].job.request == r
    ensures Next(cfg, s, Queue(r, reported)).Some?
    ensures var s' := Later(cfg, Next(cfg, s, Queue(r, reported)).value, ms);
            (Shows(s'.store, r, Queued) <==> ms < cfg.activeTtl) &&
            (ms < cfg.activeTtl ==>
               AttemptOf(s'.store, r) == AttemptOf(s.store, r) && TerminalOf(s'.store, r) == TerminalOf(s.store, r))
  {
  }
}
