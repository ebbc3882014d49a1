/** The rate limit: what the scripts promise about the charge of a minute, and how late they may
    run for it. */
module RateLimit {
  import opened Basics
  import opened QuotaBook

  /** Every reservation in bucket `b` uses `limits` and its script runs less than `within`
      after the first reservation of that bucket. */
  predicate Timely(q: Quota, ops: seq<Op>, b: Bucket, limits: Charge, within: nat)
    decreases |ops|
  {
    ops == [] ||
    (TimelyOp(q, ops[0], b, limits, within) && Timely(Do(q, ops[0]), ops[1..], b, limits, within))
  }

  predicate TimelyOp(q: Quota, op: Op, b: Bucket, limits: Charge, within: nat) {
    op.Reserve? && op.bucket == b ==>
      op.limits == limits && (FirstAt(q.book, b) == None || q.now < FirstAt(q.book, b).value + within)
  }

  /** No two reservations of `b` are TTL apart. */
  predicate Compact(book: seq<Entry>, b: Bucket) {
    forall i :: 0 <= i < |book| && book[i].bucket == b ==>
      FirstAt(book, b).Some? && FirstAt(book, b).value <= book[i].madeAt < FirstAt(book, b).value + TTL
  }

  lemma {:induction false} CompactUsageIsTotal(book: seq<Entry>, b: Bucket, start: nat, horizon: nat)
    requires forall i :: 0 <= i < |book| && book[i].bucket == b ==> start <= book[i].madeAt
    requires forall i :: 0 <= i < |book| && book[i].bucket == b ==> book[i].madeAt < start + TTL
    requires horizon < start + TTL
    ensures Usage(book, b, horizon) == Total(book, b)
  {
    if book != [] {
      var last := book[|book| - 1];
      CompactUsageIsTotal(book[..|book| - 1], b, start, if last.bucket == b then last.madeAt else horizon);
    }
  }

  predicate RateInvariant(q: Quota, b: Bucket, limits: Charge) {
    WellTimed(q) && Compact(q.book, b) && Within(Total(q.book, b), limits)
  }

  lemma TimelyUsageIsTotal(q: Quota, b: Bucket)
    requires WellTimed(q) && Compact(q.book, b)
    requires FirstAt(q.book, b) == None || q.now < FirstAt(q.book, b).value + TTL
    ensures Usage(q.book, b, q.now) == Total(q.book, b)
  {
    NoneIsNone(q.book, b);
    if FirstAt(q.book, b).Some? {
      CompactUsageIsTotal(q.book, b, FirstAt(q.book, b).value, q.now);
    } else {
      UsageByTheClock(q.book, b, q.now);
    }
  }

  lemma CompactAppend(q: Quota, e: Entry, b: Bucket)
    requires WellTimed(q) && Compact(q.book, b) && e.bucket == b && e.madeAt == q.now
    requires FirstAt(q.book, b) == None || q.now < FirstAt(q.book, b).value + TTL
    ensures Compact(q.book + [e], b)
  {
    DatesAppend(q.book, e, b);
    FirstIsThere(q.book, b);
    NoneIsNone(q.book, b);
  }

  lemma RateElsewhere(q: Quota, e: Entry, b: Bucket, limits: Charge)
    requires RateInvariant(q, b, limits) && e.bucket != b && e.madeAt == q.now
    ensures RateInvariant(q.(book := q.book + [e]), b, limits)
  {
    var book := q.book + [e];
    assert Total(book, b) == Total(q.book, b) && FirstAt(book, b) == FirstAt(q.book, b) by {
      TotalAppend(q.book, e, b);
      DatesAppend(q.book, e, b);
    }
    assert WellTimed(q.(book := book));
    assert Compact(book, b);
  }

  lemma RateSettle(q: Quota, id: nat, outcome: Outcome, b: Bucket, limits: Charge)
    requires RateInvariant(q, b, limits) && !outcome.Reserved?
    ensures RateInvariant(Settle(q, id, outcome), b, limits)
  {
    if Open(q, id) {
      TotalAfterSettle(q.book, id, outcome, b);
      DatesAfterSettle(q.book, id, outcome, b);
    }
  }

  /** An admitted reservation that comes in time. */
  lemma RateReserve(q: Quota, e: Entry, b: Bucket, limits: Charge)
    requires RateInvariant(q, b, limits) && e.bucket == b && e.madeAt == q.now
    requires FirstAt(q.book, b) == None || q.now < FirstAt(q.book, b).value + TTL
    requires Within(Plus(Cost(e), Usage(q.book, b, q.now)), limits)
    ensures RateInvariant(q.(book := q.book + [e]), b, limits)
  {
    var book := q.book + [e];
    assert Usage(q.book, b, q.now) == Total(q.book, b) by { TimelyUsageIsTotal(q, b); }
    assert Total(book, b) == Plus(Cost(e), Total(q.book, b)) by { TotalAppend(q.book, e, b); }
    assert Compact(book, b) by { CompactAppend(q, e, b); }
  }

  /** What an admission adds, and what it was admitted on. */
  lemma AdmittedWithin(q: Quota, op: Op)
    requires op.Reserve?
    ensures var e := Entry(op.bucket, op.prompt, op.generated, q.now, Reserved);
            Do(q, op) == q ||
            (Do(q, op) == q.(book := q.book + [e]) &&
             Within(Plus(Cost(e), Usage(q.book, op.bucket, q.now)), op.limits))
  {
    RefusalIsFirst(Usage(q.book, op.bucket, q.now), op.prompt, op.generated, op.limits);
  }

  lemma RateStep(q: Quota, op: Op, b: Bucket, limits: Charge)
    requires RateInvariant(q, b, limits) && TimelyOp(q, op, b, limits, TTL)
    ensures RateInvariant(Do(q, op), b, limits)
  {
    match op
    case Reserve(bucket, prompt, generated, _) =>
      var e := Entry(bucket, prompt, generated, q.now, Reserved);
      AdmittedWithin(q, op);
      if Do(q, op) != q {
        if bucket == b { RateReserve(q, e, b, limits); } else { RateElsewhere(q, e, b, limits); }
      }
    case Reconcile(id, actual) => RateSettle(q, id, Reconciled(actual), b, limits);
    case Cancel(id) => RateSettle(q, id, Cancelled, b, limits);
    case Tick(_) =>
  }

  lemma FirstIsThere(book: seq<Entry>, b: Bucket)
    ensures FirstAt(book, b).Some? ==>
              exists i :: 0 <= i < |book| && book[i].bucket == b && book[i].madeAt == FirstAt(book, b).value
  {
    if book != [] {
      var n := |book| - 1;
      FirstIsThere(book[..n], b);
      if FirstAt(book[..n], b).Some? {
        var i :| 0 <= i < n && book[..n][i].bucket == b && book[..n][i].madeAt == FirstAt(book, b).value;
        assert book[i].bucket == b;
      }
    }
  }

  lemma NoneIsNone(book: seq<Entry>, b: Bucket)
    ensures FirstAt(book, b) == None <==> forall i :: 0 <= i < |book| ==> book[i].bucket != b
    ensures FirstAt(book, b) == None <==> LastAt(book, b) == None
  {
  }

  lemma {:induction false} RateInvariantHolds(q: Quota, ops: seq<Op>, b: Bucket, limits: Charge, within: nat)
    requires RateInvariant(q, b, limits) && Timely(q, ops, b, limits, within) && within <= TTL
    ensures RateInvariant(Run(q, ops), b, limits)
    decreases |ops|
  {
    if ops != [] {
      RateStep(q, ops[0], b, limits);
      RateInvariantHolds(Do(q, ops[0]), ops[1..], b, limits, within);
    }
  }

  /** The rate limit: the net charge of every reservation ever made in a minute stays
      within all three limits, in every state of every timely run. */
  lemma ChargeWithinLimits(ops: seq<Op>, b: Bucket, limits: Charge)
    requires Timely(Empty, ops, b, limits, TTL)
    ensures Within(Total(Run(Empty, ops).book, b), limits)
  {
    RateInvariantHolds(Empty, ops, b, limits, TTL);
  }

  /** With one clock for frontends and broker, it is enough that a script runs at most
      a minute after the minute it charges has ended. */
  predicate Prompt(q: Quota, ops: seq<Op>, b: Bucket, limits: Charge)
    decreases |ops|
  {
    ops == [] ||
    (PromptOp(q, ops[0], b, limits) && Prompt(Do(q, ops[0]), ops[1..], b, limits))
  }

  predicate PromptOp(q: Quota, op: Op, b: Bucket, limits: Charge) {
    op.Reserve? && op.bucket == b ==>
      op.limits == limits && b.minute * MINUTE <= q.now < b.minute * MINUTE + 2 * MINUTE
  }

  lemma {:induction false} PromptIsTimely(q: Quota, ops: seq<Op>, b: Bucket, limits: Charge)
    requires Prompt(q, ops, b, limits)
    requires FirstAt(q.book, b).Some? ==> b.minute * MINUTE <= FirstAt(q.book, b).value
    ensures Timely(q, ops, b, limits, TTL)
    decreases |ops|
  {
    if ops != [] {
      var op := ops[0];
      match op {
        case Reserve(bucket, prompt, generated, _) =>
          DatesAppend(q.book, Entry(bucket, prompt, generated, q.now, Reserved), b);
        case Reconcile(id, actual) =>
          if Open(q, id) { DatesAfterSettle(q.book, id, Reconciled(actual), b); }
        case Cancel(id) =>
          if Open(q, id) { DatesAfterSettle(q.book, id, Cancelled, b); }
        case Tick(_) =>
      }
      PromptIsTimely(Do(q, op), ops[1..], b, limits);
    }
  }

  /** The bound is exact: the limit holds in all runs whose scripts come within some time
      of the first one if and only if that time is no longer than the counters live. */
  lemma LimitKeptIff(within: nat)
    ensures (forall ops, b, limits | Timely(Empty, ops, b, limits, within) ::
               Within(Total(Run(Empty, ops).book, b), limits))
            <==> within <= TTL
  {
    if within <= TTL {
      forall ops, b, limits | Timely(Empty, ops, b, limits, within)
        ensures Within(Total(Run(Empty, ops).book, b), limits)
      {
        RateInvariantHolds(Empty, ops, b, limits, within);
      }
    } else {
      var b, one := Bucket("key", 0), Each(1);
      var ops := Overshoot(within, b, one);
    }
  }

  lemma Overshoot(within: nat, b: Bucket, one: Charge) returns (ops: seq<Op>)
    requires within > TTL && one.requests == 1
    ensures Timely(Empty, ops, b, one, within) && !Within(Total(Run(Empty, ops).book, b), one)
  {
    var op, wait := Reserve(b, 0, 0, one), Tick(TTL);
    ops := [op, wait, op];
    RunOfThree(Empty, op, wait, op, b, one, within);
    assert FirstAt(Empty.book, b) == None;
    LateScriptOvershoots(b, one, op);
  }

  /** A counter that expired between two reservations of one bucket starts again from
      nothing. */
  lemma LateScriptOvershoots(b: Bucket, one: Charge, op: Op)
    requires one.requests == 1 && op == Reserve(b, 0, 0, one)
    ensures var q := Do(Do(Empty, op), Tick(TTL));
            q.now == TTL && FirstAt(q.book, b) == Some(0) && Total(Do(q, op).book, b).requests == 2
  {
    var e0, e1 := Entry(b, 0, 0, 0, Reserved), Entry(b, 0, 0, TTL, Reserved);
    FirstIsAdmitted(Empty, b, 0, 0, one);
    assert Do(Empty, op) == Quota(0, [e0]);
    assert LastAt([e0], b) == Some(0) && FirstAt([e0], b) == Some(0);
    assert Usage([e0], b, TTL) == Zero by { UsageByTheClock([e0], b, TTL); }
    assert Do(Quota(TTL, [e0]), op) == Quota(TTL, [e0] + [e1]);
    TwoCharged(e0, e1, b);
  }

  lemma TwoCharged(e0: Entry, e1: Entry, b: Bucket)
    requires e0.bucket == e1.bucket == b && e0.outcome == e1.outcome == Reserved
    ensures Total([e0] + [e1], b).requests == 2
  {
    TotalAppend([e0], e1, b);
    TotalAppend([], e0, b);
    assert [] + [e0] == [e0];
  }

  lemma RunOfThree(q: Quota, x: Op, y: Op, z: Op, b: Bucket, limits: Charge, within: nat)
    ensures Run(q, [x, y, z]) == Do(Do(Do(q, x), y), z)
    ensures Timely(q, [x, y, z], b, limits, within) ==
              (TimelyOp(q, x, b, limits, within) && TimelyOp(Do(q, x), y, b, limits, within) &&
               TimelyOp(Do(Do(q, x), y), z, b, limits, within))
  {
    var q1, q2 := Do(q, x), Do(Do(q, x), y);
    assert [x, y, z][1..] == [y, z] && [y, z][1..] == [z] && [z][1..] == [];
    assert Run(q, [x, y, z]) == Run(q1, [y, z]) && Run(q1, [y, z]) == Run(q2, [z]);
    assert Run(q2, [z]) == Run(Do(q2, z), []);
    assert Timely(q, [x, y, z], b, limits, within) ==
           (TimelyOp(q, x, b, limits, within) && Timely(q1, [y, z], b, limits, within));
    assert Timely(q2, [z], b, limits, within) == TimelyOp(q2, z, b, limits, within);
    assert Timely(q1, [y, z], b, limits, within) ==
           (TimelyOp(q1, y, b, limits, within) && Timely(q2, [z], b, limits, within));
  }
}
