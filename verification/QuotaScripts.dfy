/** The three quota scripts as they run inside the broker, on expiring keys, and the
    proof that they refine the book of QuotaBook. */
module QuotaScripts {
  import opened Basics
  import opened QuotaBook

  datatype CounterKey = CounterKey(bucket: Bucket, kind: QuotaKind)

  /** A counter: `INCRBY` on a missing key makes one without an expiry. */
  datatype Cell = Cell(value: int, expiry: Option<nat>)

  /** The hash of one reservation. */
  datatype Record = Record(status: Outcome, bucket: Bucket, prompt: nat, generated: nat, expiry: Option<nat>)

  predicate Live(expiry: Option<nat>, now: nat) {
    expiry == None || now < expiry.value
  }

  function Pick(c: Charge, kind: QuotaKind): nat {
    match kind
    case Requests => c.requests
    case PromptTokens => c.prompt
    case GeneratedTokens => c.generated
  }

  /** What the broker shows of a counter or of a record: nothing once it has expired. */
  function Seen(counters: map<CounterKey, Cell>, now: nat, key: CounterKey): Option<Cell> {
    if key in counters && Live(counters[key].expiry, now) then Some(counters[key]) else None
  }

  function SeenRecord(records: map<nat, Record>, now: nat, id: nat): Option<Record> {
    if id in records && Live(records[id].expiry, now) then Some(records[id]) else None
  }

  /** What the book says it should show. */
  function Due(q: Quota, key: CounterKey): Option<Cell> {
    match LastAt(q.book, key.bucket)
    case None => None
    case Some(at) =>
      if at + TTL <= q.now then None
      else Some(Cell(Pick(Usage(q.book, key.bucket, q.now), key.kind), Some(at + TTL)))
  }

  function DueRecord(q: Quota, id: nat): Option<Record> {
    if id < |q.book| && q.now < q.book[id].madeAt + TTL
    then Some(Record(q.book[id].outcome, q.book[id].bucket, q.book[id].prompt, q.book[id].generated,
                     Some(q.book[id].madeAt + TTL)))
    else None
  }

  ghost predicate Refines(counters: map<CounterKey, Cell>, records: map<nat, Record>, q: Quota) {
    WellTimed(q) &&
    (forall key: CounterKey :: Seen(counters, q.now, key) == Due(q, key)) &&
    (forall id: nat :: SeenRecord(records, q.now, id) == DueRecord(q, id))
  }

  /** The TTL order: while a reservation record lives, all three of its counters live,
      at least as long as the record does, and hold at least what it is charged.  So no
      refund recreates an expired counter or takes one below zero. */
  lemma RecordOutlivedByCounters(counters: map<CounterKey, Cell>, records: map<nat, Record>, q: Quota,
                                 id: nat, kind: QuotaKind)
    requires Refines(counters, records, q) && SeenRecord(records, q.now, id).Some?
    ensures var record := SeenRecord(records, q.now, id).value;
            var cell := Seen(counters, q.now, CounterKey(record.bucket, kind));
            cell.Some? && cell.value.expiry.Some? && record.expiry.Some? &&
            record.expiry.value <= cell.value.expiry.value &&
            Pick(Cost(q.book[id]), kind) <= cell.value.value
  {
    assert DueRecord(q, id) == SeenRecord(records, q.now, id);
    var b := q.book[id].bucket;
    LastIsLast(q, id);
    UsageCovers(q, id, q.now);
    assert Seen(counters, q.now, CounterKey(b, kind)) == Due(q, CounterKey(b, kind));
  }

  lemma {:induction false} LastIsLast(q: Quota, id: nat)
    requires WellTimed(q) && id < |q.book|
    ensures LastAt(q.book, q.book[id].bucket).Some?
    ensures q.book[id].madeAt <= LastAt(q.book, q.book[id].bucket).value <= q.now
    decreases |q.book|
  {
    var n := |q.book| - 1;
    if q.book[n].bucket != q.book[id].bucket {
      LastIsLast(q.(book := q.book[..n]), id);
    }
  }

  lemma {:induction false} UsageCovers(q: Quota, id: nat, horizon: nat)
    requires WellTimed(q.(now := horizon)) && id < |q.book| && horizon < q.book[id].madeAt + TTL
    ensures Within(Cost(q.book[id]), Usage(q.book, q.book[id].bucket, horizon))
    decreases |q.book|
  {
    var n := |q.book| - 1;
    if id < n {
      var last := q.book[n];
      UsageCovers(q.(book := q.book[..n]), id, if last.bucket == q.book[id].bucket then last.madeAt else horizon);
    }
  }

  /** Time passing expires on both sides alike. */
  lemma RefinesLater(counters: map<CounterKey, Cell>, records: map<nat, Record>, q: Quota, later: nat)
    requires Refines(counters, records, q) && q.now <= later
    ensures Refines(counters, records, q.(now := later))
  {
    forall key: CounterKey ensures Seen(counters, later, key) == Due(q.(now := later), key) {
      assert Seen(counters, q.now, key) == Due(q, key);
      UsageByTheClock(q.book, key.bucket, q.now);
      LastNotLate(q, key.bucket);
    }
    forall id: nat ensures SeenRecord(records, later, id) == DueRecord(q.(now := later), id) {
      assert SeenRecord(records, q.now, id) == DueRecord(q, id);
    }
  }

  lemma {:induction false} LastNotLate(q: Quota, b: Bucket)
    requires WellTimed(q)
    ensures LastAt(q.book, b).Some? ==> LastAt(q.book, b).value <= q.now
    decreases |q.book|
  {
    if q.book != [] {
      LastNotLate(q.(book := q.book[..|q.book| - 1]), b);
    }
  }

  /** The keys a successful reservation leaves behind. */
  lemma RefinesReserve(counters: map<CounterKey, Cell>, records: map<nat, Record>, q: Quota, e: Entry,
                       counters': map<CounterKey, Cell>, records': map<nat, Record>)
    requires Refines(counters, records, q)
    requires e.madeAt == q.now && e.outcome == Reserved
    requires var used := Usage(q.book, e.bucket, q.now);
             var expiry := Some(q.now + TTL);
             counters' == counters[CounterKey(e.bucket, Requests) := Cell(used.requests + 1, expiry)]
                                  [CounterKey(e.bucket, PromptTokens) := Cell(used.prompt + e.prompt, expiry)]
                                  [CounterKey(e.bucket, GeneratedTokens) := Cell(used.generated + e.generated, expiry)]
    requires records' == records[|q.book| := Record(Reserved, e.bucket, e.prompt, e.generated, Some(q.now + TTL))]
    ensures Refines(counters', records', q.(book := q.book + [e]))
  {
    var q' := q.(book := q.book + [e]);
    forall key: CounterKey ensures Seen(counters', q.now, key) == Due(q', key) {
      UsageAppend(q.book, e, key.bucket, q.now);
      DatesAppend(q.book, e, key.bucket);
      assert Seen(counters, q.now, key) == Due(q, key);
    }
    forall id: nat ensures SeenRecord(records', q.now, id) == DueRecord(q', id) {
      assert SeenRecord(records, q.now, id) == DueRecord(q, id);
    }
  }

  /** The keys a settlement leaves behind. */
  lemma RefinesSettle(counters: map<CounterKey, Cell>, records: map<nat, Record>, q: Quota,
                      id: nat, outcome: Outcome, counters': map<CounterKey, Cell>, records': map<nat, Record>)
    requires Refines(counters, records, q) && Open(q, id)
    requires id in records && records' == records[id := records[id].(status := outcome)]
    requires var before := Cost(q.book[id]);
             var after := Cost(q.book[id].(outcome := outcome));
             counters'.Keys == counters.Keys &&
             (forall key :: key in counters' ==>
                counters'[key] == if key.bucket != q.book[id].bucket then counters[key]
                                  else Cell(counters[key].value - Pick(before, key.kind) + Pick(after, key.kind),
                                            counters[key].expiry))
    ensures Refines(counters', records', Settle(q, id, outcome))
  {
    var q' := Settle(q, id, outcome);
    forall key: CounterKey ensures Seen(counters', q.now, key) == Due(q', key) {
      assert Seen(counters, q.now, key) == Due(q, key);
      UsageAfterSettle(q, q.now, id, outcome, key.bucket);
      DatesAfterSettle(q.book, id, outcome, key.bucket);
    }
    forall j: nat ensures SeenRecord(records', q.now, j) == DueRecord(q', j) {
      assert SeenRecord(records, q.now, j) == DueRecord(q, j);
      assert SeenRecord(records, q.now, id) == DueRecord(q, id);
    }
  }

  /** The broker's keys for quota, changed one command at a time by the scripts. */
  class KeySpace {
    var now: nat
    var counters: map<CounterKey, Cell>
    var records: map<nat, Record>
    var issued: nat
    ghost var book: seq<Entry>

    ghost predicate Valid()
      reads this
    {
      issued == |book| && Refines(counters, records, Ledger())
    }

    ghost function Ledger(): Quota
      reads this
    {
      Quota(now, book)
    }

    constructor ()
      ensures Valid() && Ledger() == Empty
    {
      now, counters, records, issued, book := 0, map[], map[], 0, [];
    }

    // ----- commands -----

    /** `tonumber(GET key or '0')` */
    function Get(key: CounterKey): int
      reads this
    {
      var seen := Seen(counters, now, key);
      if seen.Some? then seen.value.value else 0
    }

    /** `INCRBY`, which `INCR`, `DECR` and `DECRBY` are cases of */
    method IncrBy(key: CounterKey, delta: int)
      modifies this`counters
      ensures counters == old(counters)[key := Cell(old(Get(key)) + delta,
                var seen := old(Seen(counters, now, key)); if seen.Some? then seen.value.expiry else None)]
    {
      var seen := Seen(counters, now, key);
      counters := counters[key := Cell(Get(key) + delta, if seen.Some? then seen.value.expiry else None)];
    }

    /** `EXPIRE` on a counter */
    method Expire(key: CounterKey, ttl: nat)
      modifies this`counters
      ensures counters == if Seen(old(counters), now, key).Some?
                          then old(counters)[key := old(counters)[key].(expiry := Some(now + ttl))]
                          else old(counters)
    {
      if Seen(counters, now, key).Some? {
        counters := counters[key := counters[key].(expiry := Some(now + ttl))];
      }
    }

    /** The script's three increments and then its three expiries */
    method AddAndExpire(bucket: Bucket, prompt: nat, generated: nat)
      modifies this`counters
      ensures var expiry := Some(now + TTL);
              var requests := old(Get(CounterKey(bucket, Requests)));
              var used := old(Get(CounterKey(bucket, PromptTokens)));
              var reserved := old(Get(CounterKey(bucket, GeneratedTokens)));
              counters == old(counters)[CounterKey(bucket, Requests) := Cell(requests + 1, expiry)]
                                       [CounterKey(bucket, PromptTokens) := Cell(used + prompt, expiry)]
                                       [CounterKey(bucket, GeneratedTokens) := Cell(reserved + generated, expiry)]
    {
      IncrBy(CounterKey(bucket, Requests), 1);
      IncrBy(CounterKey(bucket, PromptTokens), prompt);
      IncrBy(CounterKey(bucket, GeneratedTokens), generated);
      Expire(CounterKey(bucket, Requests), TTL);
      Expire(CounterKey(bucket, PromptTokens), TTL);
      Expire(CounterKey(bucket, GeneratedTokens), TTL);
    }

    // ----- scripts -----

    /** RESERVE_QUOTA_LUA, under a fresh reservation id */
    method Reserve(bucket: Bucket, prompt: nat, generated: nat, limits: Charge) returns (reply: Reply)
      requires Valid()
      modifies this
      ensures Valid() && now == old(now)
      ensures reply == ReserveReply(old(Ledger()), bucket, prompt, generated, limits)
      ensures Ledger() == Do(old(Ledger()), QuotaBook.Reserve(bucket, prompt, generated, limits))
    {
      var usedRequests := Get(CounterKey(bucket, Requests));
      var usedPrompt := Get(CounterKey(bucket, PromptTokens));
      var usedGenerated := Get(CounterKey(bucket, GeneratedTokens));
      ghost var used := Usage(book, bucket, now);
      assert usedRequests == used.requests && usedPrompt == used.prompt && usedGenerated == used.generated by {
        ReadsUsage(bucket);
      }
      if usedRequests + 1 > limits.requests { return Refused(Requests); }
      if usedPrompt + prompt > limits.prompt { return Refused(PromptTokens); }
      if usedGenerated + generated > limits.generated { return Refused(GeneratedTokens); }
      AddAndExpire(bucket, prompt, generated);
      var id := issued;
      records := records[id := Record(Reserved, bucket, prompt, generated, None)];
      records := records[id := records[id].(expiry := Some(now + TTL))];
      issued := issued + 1;
      ghost var e := Entry(bucket, prompt, generated, now, Reserved);
      assert Refines(counters, records, Quota(now, book + [e])) by {
        RefinesReserve(old(counters), old(records), old(Ledger()), e, counters, records);
      }
      book := book + [e];
      return Admitted(id, Charge(limits.requests - usedRequests - 1, limits.prompt - usedPrompt - prompt,
                                 limits.generated - usedGenerated - generated));
    }

    /** RECONCILE_QUOTA_LUA */
    method Reconcile(id: nat, actual: nat) returns (refund: nat)
      requires Valid()
      modifies this
      ensures Valid() && now == old(now)
      ensures refund == Refund(old(Ledger()), id, actual)
      ensures Ledger() == Do(old(Ledger()), QuotaBook.Reconcile(id, actual))
    {
      var seen := SeenRecord(records, now, id);
      assert seen == DueRecord(Ledger(), id);
      if seen == None || seen.value.status != Reserved { return 0; }
      refund := if seen.value.generated < actual then 0 else seen.value.generated - actual;
      CountersLive(id);
      if refund > 0 {
        IncrBy(CounterKey(seen.value.bucket, GeneratedTokens), 0 - refund);
      }
      records := records[id := records[id].(status := Reconciled(actual))];
      RefinesSettle(old(counters), old(records), old(Ledger()), id, Reconciled(actual), counters, records);
      book := Settle(Ledger(), id, Reconciled(actual)).book;
    }

    /** CANCEL_QUOTA_LUA */
    method Cancel(id: nat) returns (cancelled: bool)
      requires Valid()
      modifies this
      ensures Valid() && now == old(now)
      ensures cancelled == Open(old(Ledger()), id)
      ensures Ledger() == Do(old(Ledger()), QuotaBook.Cancel(id))
    {
      var seen := SeenRecord(records, now, id);
      assert seen == DueRecord(Ledger(), id);
      if seen == None || seen.value.status != Reserved { return false; }
      CountersLive(id);
      var bucket := seen.value.bucket;
      IncrBy(CounterKey(bucket, Requests), -1);
      IncrBy(CounterKey(bucket, PromptTokens), 0 - seen.value.prompt);
      IncrBy(CounterKey(bucket, GeneratedTokens), 0 - seen.value.generated);
      records := records[id := records[id].(status := Cancelled)];
      RefinesSettle(old(counters), old(records), old(Ledger()), id, Cancelled, counters, records);
      book := Settle(Ledger(), id, Cancelled).book;
      return true;
    }

    /** Time passes, and keys expire. */
    method Tick(ms: nat)
      requires Valid()
      modifies this`now
      ensures Valid() && Ledger() == Do(old(Ledger()), QuotaBook.Tick(ms))
    {
      RefinesLater(counters, records, Ledger(), now + ms);
      now := now + ms;
    }

    // ----- what the scripts read -----

    lemma ReadsUsage(bucket: Bucket)
      requires Valid()
      ensures forall kind: QuotaKind ::
                Get(CounterKey(bucket, kind)) == Pick(Usage(book, bucket, now), kind)
    {
      forall kind: QuotaKind
        ensures Get(CounterKey(bucket, kind)) == Pick(Usage(book, bucket, now), kind)
      {
        assert Seen(counters, now, CounterKey(bucket, kind)) == Due(Ledger(), CounterKey(bucket, kind));
        UsageByTheClock(book, bucket, now);
      }
    }

    lemma CountersLive(id: nat)
      requires Valid() && SeenRecord(records, now, id).Some?
      ensures forall kind: QuotaKind ::
                Seen(counters, now, CounterKey(SeenRecord(records, now, id).value.bucket, kind)).Some?
    {
      forall kind: QuotaKind
        ensures Seen(counters, now, CounterKey(SeenRecord(records, now, id).value.bucket, kind)).Some?
      {
        RecordOutlivedByCounters(counters, records, Ledger(), id, kind);
      }
    }
  }

  /** A sequence of scripts and waits. */
  method Perform(keys: KeySpace, ops: seq<Op>)
    requires keys.Valid()
    modifies keys
    ensures keys.Valid() && keys.Ledger() == Run(old(keys.Ledger()), ops)
  {
    for i := 0 to |ops|
      invariant keys.Valid() && Run(keys.Ledger(), ops[i..]) == Run(old(keys.Ledger()), ops)
    {
      assert ops[i..][0] == ops[i] && ops[i..][1..] == ops[i + 1..];
      match ops[i] {
        case Reserve(bucket, prompt, generated, limits) =>
          var reply := keys.Reserve(bucket, prompt, generated, limits);
        case Reconcile(id, actual) =>
          var refund := keys.Reconcile(id, actual);
        case Cancel(id) =>
          var cancelled := keys.Cancel(id);
        case Tick(ms) =>
          keys.Tick(ms);
      }
    }
  }
}
