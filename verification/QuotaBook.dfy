/** The reference meaning of the quota ledger.

    The broker keeps three expiring counters per key and minute, and one expiring
    record per reservation.  Here the same ledger is one list, the book, with an
    entry for every reservation ever admitted: what a counter holds, and whether it
    is still there, is *computed* from the book and the clock.  QuotaScripts proves
    that the three scripts keep the expiring keys equal to what the book says. */
module QuotaBook {
  import opened Basics

  /** The 120 s expiry every quota key gets, in milliseconds. */
  const TTL: nat := 120_000
  const MINUTE: nat := 60_000

  datatype Charge = Charge(requests: nat, prompt: nat, generated: nat)
  datatype Bucket = Bucket(apiKey: string, minute: nat)
  datatype Outcome = Reserved | Reconciled(actual: nat) | Cancelled
  datatype Entry = Entry(bucket: Bucket, prompt: nat, generated: nat, madeAt: nat, outcome: Outcome)
  datatype QuotaKind = Requests | PromptTokens | GeneratedTokens
  datatype Reply = Admitted(id: nat, left: Charge) | Refused(kind: QuotaKind)

  /** Reservation ids are fresh, so an entry's position serves as its id. */
  datatype Quota = Quota(now: nat, book: seq<Entry>)

  /** The same amount of each kind. */
  function Each(n: nat): Charge {
    Charge(n, n, n)
  }

  const Zero := Each(0)

  function Plus(a: Charge, b: Charge): Charge {
    Charge(a.requests + b.requests, a.prompt + b.prompt, a.generated + b.generated)
  }

  predicate Within(a: Charge, limits: Charge) {
    a.requests <= limits.requests && a.prompt <= limits.prompt && a.generated <= limits.generated
  }

  /** What one reservation is charged, by what became of it. */
  function Cost(e: Entry): Charge {
    match e.outcome
    case Reserved => Charge(1, e.prompt, e.generated)
    case Reconciled(actual) => Charge(1, e.prompt, Min(e.generated, actual))
    case Cancelled => Zero
  }

  /** The charge held by the live counters of bucket `b` at time `horizon`: walk the
      reservations back from the newest one and stop at the first gap of TTL, where
      the counters had expired and were started again from nothing. */
  function Usage(book: seq<Entry>, b: Bucket, horizon: nat): Charge {
    if book == [] then Zero
    else
      var last := book[|book| - 1];
      var rest := book[..|book| - 1];
      if last.bucket != b then Usage(rest, b, horizon)
      else if last.madeAt + TTL <= horizon then Zero
      else Plus(Cost(last), Usage(rest, b, last.madeAt))
  }

  /** The charge of every reservation ever made in `b`, expired or not. */
  function Total(book: seq<Entry>, b: Bucket): Charge {
    if book == [] then Zero
    else
      var last := book[|book| - 1];
      var rest := Total(book[..|book| - 1], b);
      if last.bucket == b then Plus(Cost(last), rest) else rest
  }

  /** When the newest (oldest) reservation of `b` was made. */
  function LastAt(book: seq<Entry>, b: Bucket): Option<nat> {
    if book == [] then None
    else if book[|book| - 1].bucket == b then Some(book[|book| - 1].madeAt)
    else LastAt(book[..|book| - 1], b)
  }

  function FirstAt(book: seq<Entry>, b: Bucket): Option<nat> {
    if book == [] then None
    else
      var rest := FirstAt(book[..|book| - 1], b);
      if rest == None && book[|book| - 1].bucket == b then Some(book[|book| - 1].madeAt) else rest
  }

  /** A reservation that the scripts still find, and find unsettled. */
  predicate Open(q: Quota, id: nat) {
    id < |q.book| && q.book[id].outcome == Reserved && q.now < q.book[id].madeAt + TTL
  }

  predicate WellTimed(q: Quota) {
    (forall i, j :: 0 <= i < j < |q.book| ==> q.book[i].madeAt <= q.book[j].madeAt) &&
    (forall i :: 0 <= i < |q.book| ==> q.book[i].madeAt <= q.now)
  }

  /** The operations of the ledger. */
  datatype Op =
    | Reserve(bucket: Bucket, prompt: nat, generated: nat, limits: Charge)
    | Reconcile(id: nat, actual: nat)
    | Cancel(id: nat)
    | Tick(ms: nat)

  /** The three limits are tried in this order. */
  function Refusal(used: Charge, prompt: nat, generated: nat, limits: Charge): Option<QuotaKind> {
    if used.requests + 1 > limits.requests then Some(Requests)
    else if used.prompt + prompt > limits.prompt then Some(PromptTokens)
    else if used.generated + generated > limits.generated then Some(GeneratedTokens)
    else None
  }

  function ReserveReply(q: Quota, bucket: Bucket, prompt: nat, generated: nat, limits: Charge): Reply {
    var used := Usage(q.book, bucket, q.now);
    match Refusal(used, prompt, generated, limits)
    case Some(kind) => Refused(kind)
    case None =>
      Admitted(|q.book|, Charge(limits.requests - used.requests - 1,
                                limits.prompt - used.prompt - prompt,
                                limits.generated - used.generated - generated))
  }

  function Settle(q: Quota, id: nat, outcome: Outcome): Quota {
    if Open(q, id) then q.(book := q.book[id := q.book[id].(outcome := outcome)]) else q
  }

  function Refund(q: Quota, id: nat, actual: nat): nat {
    if Open(q, id) then Monus(q.book[id].generated, actual) else 0
  }

  function Do(q: Quota, op: Op): Quota {
    match op
    case Reserve(bucket, prompt, generated, limits) =>
      if ReserveReply(q, bucket, prompt, generated, limits).Admitted?
      then q.(book := q.book + [Entry(bucket, prompt, generated, q.now, Reserved)])
      else q
    case Reconcile(id, actual) => Settle(q, id, Reconciled(actual))
    case Cancel(id) => Settle(q, id, Cancelled)
    case Tick(ms) => q.(now := q.now + ms)
  }

  function Run(q: Quota, ops: seq<Op>): Quota
    decreases |ops|
  {
    if ops == [] then q else Run(Do(q, ops[0]), ops[1..])
  }

  const Empty := Quota(0, [])

  // ----- single steps -----

  lemma UsageAppend(book: seq<Entry>, e: Entry, b: Bucket, horizon: nat)
    ensures Usage(book + [e], b, horizon)
         == if e.bucket != b then Usage(book, b, horizon)
            else if e.madeAt + TTL <= horizon then Zero
            else Plus(Cost(e), Usage(book, b, e.madeAt))
  {
    assert (book + [e])[..|book|] == book;
  }

  lemma TotalAppend(book: seq<Entry>, e: Entry, b: Bucket)
    ensures Total(book + [e], b) == if e.bucket == b then Plus(Cost(e), Total(book, b)) else Total(book, b)
  {
    assert (book + [e])[..|book|] == book;
  }

  lemma DatesAppend(book: seq<Entry>, e: Entry, b: Bucket)
    ensures LastAt(book + [e], b) == if e.bucket == b then Some(e.madeAt) else LastAt(book, b)
    ensures FirstAt(book + [e], b)
         == if FirstAt(book, b) == None && e.bucket == b then Some(e.madeAt) else FirstAt(book, b)
  {
    assert (book + [e])[..|book|] == book;
  }

  lemma StepKeepsTime(q: Quota, op: Op)
    requires WellTimed(q)
    ensures WellTimed(Do(q, op))
  {
  }

  /** A live counter reads the same until its expiry, and nothing after it. */
  lemma UsageByTheClock(book: seq<Entry>, b: Bucket, now: nat)
    ensures LastAt(book, b) == None ==> Usage(book, b, now) == Zero && Total(book, b) == Zero
    ensures LastAt(book, b).Some? && LastAt(book, b).value + TTL <= now ==> Usage(book, b, now) == Zero
    ensures forall later :: now <= later && LastAt(book, b).Some? && later < LastAt(book, b).value + TTL
              ==> Usage(book, b, later) == Usage(book, b, now)
  {
  }

  /** Settling entry `id` while its record lives moves exactly the difference in its
      cost: the walk back from `horizon` always reaches it. */
  lemma {:induction false} UsageAfterSettle(q: Quota, horizon: nat, id: nat, outcome: Outcome, b: Bucket)
    requires WellTimed(q.(now := horizon)) && id < |q.book| && horizon < q.book[id].madeAt + TTL
    ensures var e := q.book[id];
            var book' := q.book[id := e.(outcome := outcome)];
            if b != e.bucket then Usage(book', b, horizon) == Usage(q.book, b, horizon)
            else Plus(Usage(book', b, horizon), Cost(e)) ==
                 Plus(Usage(q.book, b, horizon), Cost(e.(outcome := outcome)))
    decreases |q.book|
  {
    var e := q.book[id];
    var e' := e.(outcome := outcome);
    var n := |q.book| - 1;
    var last, rest := q.book[n], q.book[..n];
    SettleParts(q.book, id, e');
    if id < n {
      UsageAfterSettle(Quota(q.now, rest), if last.bucket == b then last.madeAt else horizon, id, outcome, b);
    }
  }

  lemma SettleParts(book: seq<Entry>, id: nat, e: Entry)
    requires id < |book|
    ensures var n, book' := |book| - 1, book[id := e];
            book'[n] == (if id == n then e else book[n]) &&
            book'[..n] == if id == n then book[..n] else book[..n][id := e]
  {
  }

  lemma {:induction false} TotalAfterSettle(book: seq<Entry>, id: nat, outcome: Outcome, b: Bucket)
    requires id < |book|
    ensures var e := book[id];
            var book' := book[id := e.(outcome := outcome)];
            if b != e.bucket then Total(book', b) == Total(book, b)
            else Plus(Total(book', b), Cost(e)) == Plus(Total(book, b), Cost(e.(outcome := outcome)))
  {
    SettleParts(book, id, book[id].(outcome := outcome));
    if id < |book| - 1 { TotalAfterSettle(book[..|book| - 1], id, outcome, b); }
  }

  lemma {:induction false} DatesAfterSettle(book: seq<Entry>, id: nat, outcome: Outcome, b: Bucket)
    requires id < |book|
    ensures var book' := book[id := book[id].(outcome := outcome)];
            LastAt(book', b) == LastAt(book, b) && FirstAt(book', b) == FirstAt(book, b)
  {
    SettleParts(book, id, book[id].(outcome := outcome));
    if id < |book| - 1 { DatesAfterSettle(book[..|book| - 1], id, outcome, b); }
  }

  /** Where the walk back from `horizon` stops: the position right after the last reservation
      of `b` that had expired, or 0.  The first reservation of `b` from there on, if there is
      one, created the counters as they stand (GapBeforeSince). */
  function Since(book: seq<Entry>, b: Bucket, horizon: nat): (i: nat)
    ensures i <= |book|
  {
    if book == [] then 0
    else
      var last := book[|book| - 1];
      if last.bucket != b then Since(book[..|book| - 1], b, horizon)
      else if last.madeAt + TTL <= horizon then |book|
      else Since(book[..|book| - 1], b, last.madeAt)
  }

  /** Conservation: the counters hold the sum of the charges of all reservations made
      since they were created. */
  lemma {:induction false} UsageIsChargeSince(book: seq<Entry>, b: Bucket, horizon: nat)
    ensures Usage(book, b, horizon) == Total(book[Since(book, b, horizon)..], b)
  {
    if book != [] {
      var n := |book| - 1;
      var last, rest := book[n], book[..n];
      var h := if last.bucket == b then last.madeAt else horizon;
      var cut := Since(book, b, horizon);
      if cut <= n {
        UsageIsChargeSince(rest, b, h);
        assert book[cut..][..n - cut] == rest[cut..];
        assert book[cut..][|book[cut..]| - 1] == last;
      }
    }
  }

  /** Reservation `i` of `b` had expired before anything that was still to come. */
  predicate ExpiredBefore(book: seq<Entry>, b: Bucket, horizon: nat, i: nat, cut: nat)
    requires i < |book|
  {
    book[i].madeAt + TTL <= horizon &&
    forall j :: cut <= j < |book| && book[j].bucket == b ==> book[i].madeAt + TTL <= book[j].madeAt
  }

  /** Reservation `i` of `b` had not expired when the next one was made, or has not yet. */
  predicate StillCounted(book: seq<Entry>, b: Bucket, horizon: nat, i: nat)
    requires i < |book|
  {
    horizon < book[i].madeAt + TTL ||
    exists j :: i < j < |book| && book[j].bucket == b && book[j].madeAt < book[i].madeAt + TTL
  }

  /** What the cut is, without the walk: every reservation of `b` before it had expired before
      the next one was made; from it on none ever has. */
  ghost predicate GapAt(book: seq<Entry>, b: Bucket, horizon: nat, cut: nat) {
    (forall i :: 0 <= i < |book| && i < cut && book[i].bucket == b ==> ExpiredBefore(book, b, horizon, i, cut)) &&
    (forall i :: cut <= i < |book| && book[i].bucket == b ==> StillCounted(book, b, horizon, i))
  }

  lemma {:induction false} GapBeforeSince(book: seq<Entry>, b: Bucket, horizon: nat)
    requires WellTimed(Quota(horizon, book))
    ensures GapAt(book, b, horizon, Since(book, b, horizon))
  {
    if book != [] {
      var n := |book| - 1;
      var last, rest := book[n], book[..n];
      if last.bucket != b {
        GapBeforeSince(rest, b, horizon);
        GapWithOther(book, b, horizon, Since(rest, b, horizon));
      } else if horizon < last.madeAt + TTL {
        GapBeforeSince(rest, b, last.madeAt);
        GapWithLast(book, b, horizon, Since(rest, b, last.madeAt));
      }
    }
  }

  /** And nothing else is: any two such cuts count the same reservations. */
  lemma {:induction false} GapIsUnique(book: seq<Entry>, b: Bucket, horizon: nat, c: nat, d: nat, i: nat)
    requires GapAt(book, b, horizon, c) && GapAt(book, b, horizon, d) && i < |book| && book[i].bucket == b
    ensures i >= c <==> i >= d
    decreases |book| - i
  {
    var low, high := Min(c, d), if c < d then d else c;
    if low <= i < high {
      assert StillCounted(book, b, horizon, i) && ExpiredBefore(book, b, horizon, i, high);
      var j :| i < j < |book| && book[j].bucket == b && book[j].madeAt < book[i].madeAt + TTL;
      GapIsUnique(book, b, horizon, c, d, j);
    }
  }

  lemma GapWithOther(book: seq<Entry>, b: Bucket, horizon: nat, cut: nat)
    requires book != [] && cut < |book| && book[|book| - 1].bucket != b
    requires GapAt(book[..|book| - 1], b, horizon, cut)
    ensures GapAt(book, b, horizon, cut)
  {
    var rest := book[..|book| - 1];
    forall i | 0 <= i < |book| && book[i].bucket == b
      ensures if i < cut then ExpiredBefore(book, b, horizon, i, cut) else StillCounted(book, b, horizon, i)
    {
      assert rest[i] == book[i];
      if i < cut {
        assert ExpiredBefore(rest, b, horizon, i, cut);
      } else {
        CountedInPrefix(book, b, horizon, i);
      }
    }
  }

  lemma CountedInPrefix(book: seq<Entry>, b: Bucket, horizon: nat, i: nat)
    requires i < |book| - 1 && StillCounted(book[..|book| - 1], b, horizon, i)
    ensures StillCounted(book, b, horizon, i)
  {
    var rest := book[..|book| - 1];
    if !(horizon < rest[i].madeAt + TTL) {
      var j :| i < j < |rest| && rest[j].bucket == b && rest[j].madeAt < rest[i].madeAt + TTL;
      assert book[j] == rest[j];
    }
  }

  lemma GapWithLast(book: seq<Entry>, b: Bucket, horizon: nat, cut: nat)
    requires book != [] && cut < |book| && book[|book| - 1].bucket == b
    requires book[|book| - 1].madeAt <= horizon < book[|book| - 1].madeAt + TTL
    requires GapAt(book[..|book| - 1], b, book[|book| - 1].madeAt, cut)
    ensures GapAt(book, b, horizon, cut)
  {
    var n := |book| - 1;
    var last, rest := book[n], book[..n];
    forall i | 0 <= i < |book| && book[i].bucket == b
      ensures if i < cut then ExpiredBefore(book, b, horizon, i, cut) else StillCounted(book, b, horizon, i)
    {
      if i < cut {
        assert ExpiredBefore(rest, b, last.madeAt, i, cut);
        forall j | cut <= j < |book| && book[j].bucket == b ensures book[i].madeAt + TTL <= book[j].madeAt {
          if j < n { assert rest[j] == book[j]; }
        }
      } else if i < n {
        assert rest[i] == book[i] && StillCounted(rest, b, last.madeAt, i);
        CountedBeforeLast(book, b, horizon, i);
      }
    }
  }

  lemma CountedBeforeLast(book: seq<Entry>, b: Bucket, horizon: nat, i: nat)
    requires i < |book| - 1 && book[|book| - 1].bucket == b
    requires StillCounted(book[..|book| - 1], b, book[|book| - 1].madeAt, i)
    ensures StillCounted(book, b, horizon, i)
  {
    var n := |book| - 1;
    if book[n].madeAt < book[i].madeAt + TTL {
      assert book[n].bucket == b;
    } else {
      CountedInPrefix(book, b, book[n].madeAt, i);
    }
  }

  lemma {:induction false} RunKeepsTime(q: Quota, ops: seq<Op>)
    requires WellTimed(q)
    ensures WellTimed(Run(q, ops))
    decreases |ops|
  {
    if ops != [] {
      StepKeepsTime(q, ops[0]);
      RunKeepsTime(Do(q, ops[0]), ops[1..]);
    }
  }

  // ----- results over whole runs -----

  /** In every state of every run, what the live counters of a bucket hold is the charge of
      its reservations since the last gap of 120 s, in which the counters had expired. */
  lemma ChargedSinceLastGap(ops: seq<Op>, b: Bucket)
    ensures var q := Run(Empty, ops);
            var cut := Since(q.book, b, q.now);
            GapAt(q.book, b, q.now, cut) && Usage(q.book, b, q.now) == Total(q.book[cut..], b)
  {
    var q := Run(Empty, ops);
    RunKeepsTime(Empty, ops);
    GapBeforeSince(q.book, b, q.now);
    UsageIsChargeSince(q.book, b, q.now);
  }

  /** The numbers returned on admission are the limits minus the counters as the
      script leaves them, so no remainder is ever negative. */
  lemma RemaindersAreExact(q: Quota, op: Op)
    requires op.Reserve?
    ensures var reply := ReserveReply(q, op.bucket, op.prompt, op.generated, op.limits);
            reply.Admitted? ==>
              Plus(reply.left, Usage(Do(q, op).book, op.bucket, q.now)) == op.limits
    ensures var reply := ReserveReply(q, op.bucket, op.prompt, op.generated, op.limits);
            reply.Admitted? <==>
              Within(Plus(Usage(q.book, op.bucket, q.now), Charge(1, op.prompt, op.generated)), op.limits)
  {
    var b, book := op.bucket, q.book;
    var e := Entry(b, op.prompt, op.generated, q.now, Reserved);
    var before, after := Usage(book, b, q.now), Usage(book + [e], b, q.now);
    assert after == Plus(Charge(1, op.prompt, op.generated), before) by {
      UsageAppend(book, e, b, q.now);
    }
  }

  /** A refusal names the first of requests, prompt tokens and generated tokens that does not
      suffice. */
  lemma RefusalIsFirst(used: Charge, prompt: nat, generated: nat, limits: Charge)
    ensures match Refusal(used, prompt, generated, limits)
            case None => Within(Plus(used, Charge(1, prompt, generated)), limits)
            case Some(Requests) => limits.requests <= used.requests
            case Some(PromptTokens) => used.requests < limits.requests && limits.prompt < used.prompt + prompt
            case Some(GeneratedTokens) =>
              used.requests < limits.requests && used.prompt + prompt <= limits.prompt &&
              limits.generated < used.generated + generated
  {
  }

  lemma FirstIsAdmitted(q: Quota, bucket: Bucket, prompt: nat, generated: nat, limits: Charge)
    requires q.book == [] && Within(Charge(1, prompt, generated), limits)
    ensures ReserveReply(q, bucket, prompt, generated, limits).Admitted?
    ensures Do(q, Reserve(bucket, prompt, generated, limits))
         == q.(book := [Entry(bucket, prompt, generated, q.now, Reserved)])
  {
    assert Usage(q.book, bucket, q.now) == Zero;
  }

  /** What one operation does to the book. */
  lemma BookGrows(q: Quota, op: Op)
    ensures |Do(q, op).book| == |q.book| + if op.Reserve? && Do(q, op) != q then 1 else 0
    ensures forall id :: 0 <= id < |q.book| ==>
              Do(q, op).book[id] == if Open(q, id) && op == Cancel(id) then q.book[id].(outcome := Cancelled)
                                    else if Open(q, id) && op.Reconcile? && op.id == id
                                    then q.book[id].(outcome := Reconciled(op.actual)) else q.book[id]
  {
  }

  /** However many attempts and frontends try, a reservation is settled once: what
      it was settled as is never changed, and what it reserved is never changed. */
  lemma {:induction false} SettledOnce(q: Quota, ops: seq<Op>, id: nat)
    requires id < |q.book|
    ensures var q' := Run(q, ops);
            |q.book| <= |q'.book| && q.now <= q'.now &&
            q'.book[id] == q.book[id].(outcome := q'.book[id].outcome) &&
            (!Open(q, id) ==> !Open(q', id) && q'.book[id] == q.book[id])
    decreases |ops|
  {
    if ops != [] {
      SettledOnce(Do(q, ops[0]), ops[1..], id);
    }
  }

  predicate Settles(op: Op, id: nat) {
    op == Cancel(id) || (op.Reconcile? && op.id == id)
  }

  /** Operations that do not settle a reservation leave it as it is. */
  lemma {:induction false} LeftAlone(q: Quota, ops: seq<Op>, id: nat)
    requires id < |q.book| && forall k :: 0 <= k < |ops| ==> !Settles(ops[k], id)
    ensures id < |Run(q, ops).book| && Run(q, ops).book[id] == q.book[id] && q.now <= Run(q, ops).now
    decreases |ops|
  {
    if ops != [] {
      BookGrows(q, ops[0]);
      assert !Settles(ops[0], id);
      LeftAlone(Do(q, ops[0]), ops[1..], id);
    }
  }

  lemma SettledNow(q: Quota, id: nat, outcome: Outcome)
    requires id < |q.book| && outcome != Reserved
    ensures var q' := Settle(q, id, outcome); |q'.book| == |q.book| && !Open(q', id)
  {
  }

  /** A settlement has an effect exactly when the record is alive and still reserved;
      from the 120 s expiry on, the unused tokens are never given back. */
  lemma RefundIffOpen(q: Quota, id: nat, actual: nat)
    ensures Refund(q, id, actual) > 0 <==> Open(q, id) && actual < q.book[id].generated
    ensures Do(q, Reconcile(id, actual)) == q <==> !Open(q, id)
    ensures Do(q, Cancel(id)) == q <==> !Open(q, id)
  {
    if Open(q, id) {
      assert Do(q, Reconcile(id, actual)).book[id].outcome == Reconciled(actual);
      assert Do(q, Cancel(id)).book[id].outcome == Cancelled;
    }
  }
}
