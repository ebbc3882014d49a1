/** Reading a request's result log: the resumable subscription, the streaming reader and
    the unary collector. */
module ResultReaders {
  import opened Sequences
  import opened Basics
  import opened Protocol
  import opened LeaseBlocks
  import opened ProtocolRuns

  // ----- the log and its cursor -----

  /** Stream ids, ordered by milliseconds and then by sequence number. */
  datatype Id = Id(ms: nat, number: nat)
  datatype LogEntry = LogEntry(id: Id, event: Event)

  const Start := Id(0, 0)

  predicate Before(a: Id, b: Id) {
    a.ms < b.ms || (a.ms == b.ms && a.number < b.number)
  }

  ghost predicate Increasing(log: seq<LogEntry>) {
    forall i, j :: 0 <= i < j < |log| ==> Before(log[i].id, log[j].id)
  }

  /** Where the entries strictly after a cursor begin; the cursor need not be an id of the
      log. */
  function From(log: seq<LogEntry>, cursor: Id): (n: nat)
    ensures n <= |log|
    ensures forall i :: 0 <= i < n ==> !Before(cursor, log[i].id)
    ensures n < |log| ==> Before(cursor, log[n].id)
  {
    FirstAfter(log, cursor, 0)
  }

  function FirstAfter(log: seq<LogEntry>, cursor: Id, at: nat): (n: nat)
    requires at <= |log|
    ensures at <= n <= |log|
    ensures forall i :: at <= i < n ==> !Before(cursor, log[i].id)
    ensures n < |log| ==> Before(cursor, log[n].id)
    decreases |log| - at
  {
    if at == |log| || Before(cursor, log[at].id) then at else FirstAfter(log, cursor, at + 1)
  }

  /** Everything from there on is later, because ids increase. */
  lemma FromSplits(log: seq<LogEntry>, cursor: Id, i: nat)
    requires Increasing(log) && i < |log|
    ensures i >= From(log, cursor) <==> Before(cursor, log[i].id)
  {
    var n := From(log, cursor);
    if n < i { assert Before(log[n].id, log[i].id); }
  }

  /** A cursor moved to an entry stands right after it. */
  lemma FromEntry(log: seq<LogEntry>, i: nat)
    requires Increasing(log) && i < |log|
    ensures From(log, log[i].id) == i + 1
  {
    FromSplits(log, log[i].id, i);
    if i + 1 < |log| {
      assert Before(log[i].id, log[i + 1].id);
      FromSplits(log, log[i].id, i + 1);
    }
  }

  /** Appending does not change where a cursor with something after it stands. */
  lemma FromPrefix(log: seq<LogEntry>, longer: seq<LogEntry>, cursor: Id)
    requires Increasing(longer) && log <= longer && From(log, cursor) < |log|
    ensures From(longer, cursor) == From(log, cursor)
  {
    var n := From(log, cursor);
    assert longer[n] == log[n];
    FromSplits(longer, cursor, n);
    if n > 0 {
      assert longer[n - 1] == log[n - 1];
      FromSplits(longer, cursor, n - 1);
    }
  }

  // ----- the subscription -----

  /** One XREAD: answered from the log as it was then, or an error, after which the
      subscription may or may not get a new connection. */
  datatype Try = Reply(log: seq<LogEntry>) | Error(reconnects: bool)
  datatype Read = Got(entry: LogEntry) | Nothing | Broken

  /** `next`: up to four tries. */
  function NextRead(cursor: Id, tries: seq<Try>): Read {
    if tries == [] then Broken
    else match tries[0]
      case Reply(log) => if From(log, cursor) == |log| then Nothing else Got(log[From(log, cursor)])
      case Error(reconnects) => if reconnects then NextRead(cursor, tries[1..]) else Broken
  }

  /** The first `i` tries failed, each with a new connection to go on with. */
  predicate Retried(tries: seq<Try>, i: nat) {
    i <= |tries| && forall j :: 0 <= j < i ==> tries[j] == Error(true)
  }

  predicate IsFirstAfter(log: seq<LogEntry>, cursor: Id, k: nat) {
    k < |log| && Before(cursor, log[k].id) && forall m :: 0 <= m < k ==> !Before(cursor, log[m].id)
  }

  predicate NoneAfter(log: seq<LogEntry>, cursor: Id) {
    forall k :: 0 <= k < |log| ==> !Before(cursor, log[k].id)
  }

  lemma FromIsFirst(log: seq<LogEntry>, cursor: Id)
    ensures forall k: nat :: IsFirstAfter(log, cursor, k) ==> From(log, cursor) == k
    ensures NoneAfter(log, cursor) ==> From(log, cursor) == |log|
  {
  }

  /** What one call returns, by its first try that is not such an error: the first entry after
      the cursor if the reply has one, nothing if it has none; and a failure if there is no
      reply. */
  lemma {:induction false} AnsweredByFirstReply(cursor: Id, tries: seq<Try>, i: nat)
    requires Retried(tries, i)
    ensures i < |tries| && tries[i].Reply? && NoneAfter(tries[i].log, cursor) ==> NextRead(cursor, tries) == Nothing
    ensures i < |tries| && tries[i].Reply? ==>
              forall k: nat :: IsFirstAfter(tries[i].log, cursor, k) ==> NextRead(cursor, tries) == Got(tries[i].log[k])
    ensures i == |tries| || tries[i] == Error(false) ==> NextRead(cursor, tries) == Broken
    decreases i
  {
    PastRetries(cursor, tries, i);
    if i < |tries| && tries[i].Reply? { FromIsFirst(tries[i].log, cursor); }
  }

  lemma {:induction false} PastRetries(cursor: Id, tries: seq<Try>, i: nat)
    requires Retried(tries, i)
    ensures NextRead(cursor, tries) == NextRead(cursor, tries[i..])
    decreases i
  {
    if i > 0 {
      PastRetries(cursor, tries[1..], i - 1);
      assert tries[0] == Error(true) && tries[1..][i - 1..] == tries[i..];
    } else {
      assert tries[0..] == tries;
    }
  }

  /** A call fails exactly when no try is answered before one that cannot go on. */
  lemma {:induction false} BrokenIff(cursor: Id, tries: seq<Try>)
    ensures NextRead(cursor, tries) == Broken <==>
              forall i :: 0 <= i < |tries| && Retried(tries, i) ==> !tries[i].Reply?
  {
    var i := 0;
    while i < |tries| && tries[i] == Error(true)
      invariant Retried(tries, i)
    {
      i := i + 1;
    }
    AnsweredByFirstReply(cursor, tries, i);
    if i < |tries| && tries[i].Reply? {
      var n := From(tries[i].log, cursor);
      assert if n < |tries[i].log| then IsFirstAfter(tries[i].log, cursor, n) else NoneAfter(tries[i].log, cursor);
    }
  }

  class ResultSubscription {
    var lastEventId: Id

    constructor (after: Option<Id>)
      ensures lastEventId == if after.Some? then after.value else Start
    {
      lastEventId := if after.Some? then after.value else Start;
    }

    /** The cursor moves exactly when an entry is returned, to that entry. */
    method Next(tries: seq<Try>) returns (r: Read)
      requires |tries| == 4
      modifies this
      ensures r == NextRead(old(lastEventId), tries)
      ensures lastEventId == if r.Got? then r.entry.id else old(lastEventId)
    {
      var attempt := 0;
      while attempt < 4
        invariant 0 <= attempt <= 4 && lastEventId == old(lastEventId)
        invariant NextRead(lastEventId, tries) == NextRead(lastEventId, tries[attempt..])
      {
        match tries[attempt] {
          case Reply(log) =>
            var position := From(log, lastEventId);
            if position == |log| { return Nothing; }
            lastEventId := log[position].id;
            return Got(log[position]);
          case Error(reconnects) =>
            if attempt == 3 { return Broken; }
            if !reconnects { return Broken; }
        }
        attempt := attempt + 1;
      }
      return Broken;
    }
  }

  /** Four tries for a call, each answered from some state of a log that is only appended to
      and ends up as `log`. */
  predicate Answers(tries: seq<Try>, log: seq<LogEntry>) {
    |tries| == 4 && forall j :: 0 <= j < |tries| && tries[j].Reply? ==> tries[j].log <= log
  }

  /** The environment of a reader. */
  ghost predicate Environment(calls: seq<seq<Try>>, log: seq<LogEntry>) {
    Increasing(log) && forall i :: 0 <= i < |calls| ==> Answers(calls[i], log)
  }

  /** One call yields nothing, or the very next entry of the final log. */
  lemma {:induction false} ReadsNext(cursor: Id, tries: seq<Try>, log: seq<LogEntry>)
    requires Increasing(log)
    requires forall j :: 0 <= j < |tries| && tries[j].Reply? ==> tries[j].log <= log
    ensures var r, n := NextRead(cursor, tries), From(log, cursor);
            r.Got? ==> n < |log| && r.entry == log[n] && From(log, r.entry.id) == n + 1
  {
    if tries != [] {
      match tries[0]
      case Reply(seen) =>
        if From(seen, cursor) < |seen| {
          FromPrefix(seen, log, cursor);
          FromEntry(log, From(log, cursor));
        }
      case Error(reconnects) =>
        if reconnects { ReadsNext(cursor, tries[1..], log); }
    }
  }

  // ----- the streaming reader -----

  /** What a client is sent: `delta` and the event's id and attempt. */
  datatype Shown = Shown(id: Id, author: Author, delta: string, generated: nat, finish: string, prompt: nat,
                         terminal: bool)

  function Show(entry: LogEntry): seq<Shown> {
    match entry.event.body
    case Started => []
    case Token(text, cumulative) => [Shown(entry.id, entry.event.author, text, cumulative, "", 0, false)]
    case Completed(prompt, generated, finish) =>
      [Shown(entry.id, entry.event.author, "", generated, finish, prompt, true)]
    case Failed(code, message) => [Shown(entry.id, entry.event.author, message, 0, code, 0, true)]
  }

  function ShowAll(entries: seq<LogEntry>): seq<Shown> {
    if entries == [] then [] else ShowAll(entries[..|entries| - 1]) + Show(entries[|entries| - 1])
  }

  /** Where the first terminal event at or after position `from` is. */
  function FirstEnd(log: seq<LogEntry>, from: nat): (n: nat)
    requires from <= |log|
    ensures from <= n <= |log|
    ensures forall i :: from <= i < n ==> !IsTerminal(log[i].event)
    ensures n < |log| ==> IsTerminal(log[n].event)
    decreases |log| - from
  {
    if from == |log| || IsTerminal(log[from].event) then from else FirstEnd(log, from + 1)
  }

  /** The entries after a cursor through the first terminal one. */
  function Through(log: seq<LogEntry>, cursor: Id): seq<LogEntry> {
    var from := From(log, cursor);
    log[from..Min(FirstEnd(log, from) + 1, |log|)]
  }

  predicate HasEnd(log: seq<LogEntry>, cursor: Id) {
    FirstEnd(log, From(log, cursor)) < |log|
  }

  /** A reader that started at `start` has read `seen` entries, none of them terminal. */
  predicate Standing(log: seq<LogEntry>, start: Id, seen: nat, cursor: Id) {
    var from, t := From(log, start), Through(log, start);
    from + seen <= FirstEnd(log, from) && From(log, cursor) == from + seen && seen <= |t| &&
    cursor == if seen == 0 then start else t[seen - 1].id
  }

  lemma ThroughAt(log: seq<LogEntry>, start: Id, n: nat)
    requires From(log, start) + n <= FirstEnd(log, From(log, start)) && From(log, start) + n < |log|
    ensures var from, t := From(log, start), Through(log, start);
            n < |t| && t[n] == log[from + n] &&
            (IsTerminal(t[n].event) ==> HasEnd(log, start) && |t| == n + 1) &&
            (!IsTerminal(t[n].event) ==> from + n + 1 <= FirstEnd(log, from))
  {
  }

  /** One read from there: nothing, or the next entry. */
  method Pull(subscription: ResultSubscription, tries: seq<Try>, ghost log: seq<LogEntry>, ghost start: Id,
              ghost seen: nat)
      returns (r: Read)
    requires Increasing(log) && Answers(tries, log) && Standing(log, start, seen, subscription.lastEventId)
    modifies subscription
    ensures r == NextRead(old(subscription.lastEventId), tries)
    ensures !r.Got? ==> subscription.lastEventId == old(subscription.lastEventId)
    ensures r.Got? ==>
              var t := Through(log, start);
              seen < |t| && r.entry == t[seen] && subscription.lastEventId == t[seen].id &&
              if IsTerminal(r.entry.event) then HasEnd(log, start) && |t| == seen + 1
              else Standing(log, start, seen + 1, subscription.lastEventId)
  {
    ReadsNext(subscription.lastEventId, tries, log);
    r := subscription.Next(tries);
    if r.Got? { ThroughAt(log, start, seen); }
  }

  datatype StreamEnd = Ended | TimedOut | ReadFailed | Disconnected

  /** How a reader that reads until a terminal event, a timeout or a failure comes to its end. */
  function EndOf(cursor: Id, calls: seq<seq<Try>>): StreamEnd
    decreases |calls|
  {
    if calls == [] then Disconnected
    else match NextRead(cursor, calls[0])
      case Nothing => TimedOut
      case Broken => ReadFailed
      case Got(entry) => if IsTerminal(entry.event) then Ended else EndOf(entry.id, calls[1..])
  }

  lemma EndAfter(cursor: Id, calls: seq<seq<Try>>, i: nat)
    requires i < |calls|
    ensures EndOf(cursor, calls[i..]) ==
              match NextRead(cursor, calls[i])
              case Nothing => TimedOut
              case Broken => ReadFailed
              case Got(entry) => if IsTerminal(entry.event) then Ended else EndOf(entry.id, calls[i + 1..])
  {
    assert calls[i..][0] == calls[i] && calls[i..][1..] == calls[i + 1..];
  }

  /** A call that is answered from a log of at least `n` entries. */
  ghost predicate Brings(tries: seq<Try>, n: nat) {
    exists i :: 0 <= i < |tries| && Retried(tries, i) && tries[i].Reply? && |tries[i].log| >= n
  }

  /** Such a call delivers the next entry. */
  lemma Delivers(cursor: Id, tries: seq<Try>, log: seq<LogEntry>)
    requires Increasing(log) && Answers(tries, log)
    requires From(log, cursor) < |log| && Brings(tries, From(log, cursor) + 1)
    ensures NextRead(cursor, tries) == Got(log[From(log, cursor)])
  {
    var n := From(log, cursor);
    var i :| 0 <= i < |tries| && Retried(tries, i) && tries[i].Reply? && |tries[i].log| >= n + 1;
    var seen := tries[i].log;
    assert seen <= log && seen[n] == log[n];
    assert forall m :: 0 <= m < n ==> seen[m] == log[m];
    assert IsFirstAfter(seen, cursor, n);
    AnsweredByFirstReply(cursor, tries, i);
  }

  /** Every read finds the entry it is waiting for, and there are reads enough. */
  ghost predicate Served(cursor: Id, calls: seq<seq<Try>>, log: seq<LogEntry>) {
    HasEnd(log, cursor) && |calls| >= |Through(log, cursor)| &&
    forall i :: 0 <= i < |Through(log, cursor)| ==> Brings(calls[i], From(log, cursor) + i + 1)
  }

  /** A reader that is served gets to the end: StreamGeneration and CollectGeneration, which both
      come to the end that EndOf names. */
  lemma {:induction false} ServedToTheEnd(cursor: Id, calls: seq<seq<Try>>, log: seq<LogEntry>)
    requires Environment(calls, log) && Served(cursor, calls, log)
    ensures EndOf(cursor, calls) == Ended
    decreases |calls|
  {
    var n := From(log, cursor);
    assert Brings(calls[0], n + 0 + 1) && Answers(calls[0], log);
    Delivers(cursor, calls[0], log);
    if !IsTerminal(log[n].event) {
      StillServed(cursor, calls, log);
      assert forall i :: 0 <= i < |calls[1..]| ==> Answers(calls[1..][i], log);
      ServedToTheEnd(log[n].id, calls[1..], log);
    }
  }

  lemma StillServed(cursor: Id, calls: seq<seq<Try>>, log: seq<LogEntry>)
    requires Environment(calls, log) && Served(cursor, calls, log) && !IsTerminal(log[From(log, cursor)].event)
    ensures |calls| > 0 && Served(log[From(log, cursor)].id, calls[1..], log)
  {
    var n := From(log, cursor);
    FromEntry(log, n);
    FirstEndFurther(log, n, n + 1);
    RestOfThrough(log, n, 0);
    forall i | 0 <= i < |Through(log, log[n].id)| ensures Brings(calls[1..][i], n + 1 + i + 1) {
      assert Brings(calls[i + 1], n + (i + 1) + 1);
    }
  }

  /** `stream_generation`, for as many reads as the client stays for: what it has sent is
      what the log has after the cursor, in order, with nothing left out but the
      AttemptStarted events; it ends with the first terminal event, and nowhere before
      unless a read times out or fails. */
  method StreamGeneration(subscription: ResultSubscription, calls: seq<seq<Try>>, ghost log: seq<LogEntry>)
      returns (shown: seq<Shown>, ending: StreamEnd, ghost seen: nat)
    requires Environment(calls, log)
    modifies subscription
    ensures var t := Through(log, old(subscription.lastEventId));
            seen <= |t| && shown == ShowAll(t[..seen]) &&
            ending == EndOf(old(subscription.lastEventId), calls) &&
            (ending == Ended <==> HasEnd(log, old(subscription.lastEventId)) && seen == |t|) &&
            subscription.lastEventId == if seen == 0 then old(subscription.lastEventId) else t[seen - 1].id
  {
    ghost var start := subscription.lastEventId;
    ghost var t := Through(log, start);
    shown, seen := [], 0;
    var i := 0;
    while i < |calls|
      invariant 0 <= i <= |calls| && Standing(log, start, seen, subscription.lastEventId)
      invariant shown == ShowAll(t[..seen])
      invariant EndOf(subscription.lastEventId, calls[i..]) == EndOf(start, calls)
    {
      EndAfter(subscription.lastEventId, calls, i);
      NotYet(log, start, seen, subscription.lastEventId);
      var read := Pull(subscription, calls[i], log, start, seen);
      if read == Nothing { return shown, TimedOut, seen; }
      if read == Broken { return shown, ReadFailed, seen; }
      OneMore(t, seen);
      ShowAllAppend(t[..seen], read.entry);
      shown := shown + Show(read.entry);
      seen := seen + 1;
      if IsTerminal(read.entry.event) { return shown, Ended, seen; }
      i := i + 1;
    }
    NotYet(log, start, seen, subscription.lastEventId);
    return shown, Disconnected, seen;
  }

  lemma NotYet(log: seq<LogEntry>, start: Id, seen: nat, cursor: Id)
    requires Standing(log, start, seen, cursor)
    ensures HasEnd(log, start) ==> seen < |Through(log, start)|
  {
  }

  /** Determinism: once the log holds a terminal event, every reader from one cursor that
      reads to the end sees the same entries, whatever is appended later. */
  lemma ThroughIsFixed(log: seq<LogEntry>, longer: seq<LogEntry>, cursor: Id)
    requires Increasing(longer) && log <= longer && HasEnd(log, cursor)
    ensures Through(longer, cursor) == Through(log, cursor) && HasEnd(longer, cursor)
  {
    FromPrefix(log, longer, cursor);
    FirstEndOfPrefix(log, longer, From(log, cursor));
  }

  lemma {:induction false} FirstEndOfPrefix(log: seq<LogEntry>, longer: seq<LogEntry>, from: nat)
    requires log <= longer && from <= |log| && FirstEnd(log, from) < |log|
    ensures FirstEnd(longer, from) == FirstEnd(log, from)
    decreases |log| - from
  {
    assert longer[from] == log[from];
    if !IsTerminal(log[from].event) { FirstEndOfPrefix(log, longer, from + 1); }
  }

  /** Resuming: a client that disconnects after any event that is not terminal, and comes
      back with that event's id, is sent in total what an undisturbed client is sent. */
  lemma ResumeCompletes(log: seq<LogEntry>, cursor: Id, n: nat)
    requires Increasing(log) && From(log, cursor) + n < FirstEnd(log, From(log, cursor))
    ensures var t := Through(log, cursor);
            ShowAll(t) == ShowAll(t[..n + 1]) + ShowAll(Through(log, t[n].id))
  {
    ThroughInTwo(log, cursor, n);
    ShowAllConcat(Through(log, cursor)[..n + 1], Through(log, Through(log, cursor)[n].id));
  }

  lemma ThroughInTwo(log: seq<LogEntry>, cursor: Id, n: nat)
    requires Increasing(log) && From(log, cursor) + n < FirstEnd(log, From(log, cursor))
    ensures var t := Through(log, cursor);
            n < |t| && t == t[..n + 1] + Through(log, t[n].id)
  {
    var from := From(log, cursor);
    var end := Min(FirstEnd(log, from) + 1, |log|);
    RestOfThrough(log, from, n);
    CutInTwo(log, from, n, end);
  }

  lemma CutInTwo(log: seq<LogEntry>, from: nat, n: nat, end: nat)
    requires from + n < end <= |log|
    ensures var t := log[from..end]; t[n] == log[from + n] && t == t[..n + 1] + log[from + n + 1..end]
  {
  }

  lemma RestOfThrough(log: seq<LogEntry>, from: nat, n: nat)
    requires Increasing(log) && from + n < |log| && from + n < FirstEnd(log, from)
    ensures Through(log, log[from + n].id) == log[from + n + 1..Min(FirstEnd(log, from) + 1, |log|)]
  {
    FromEntry(log, from + n);
    FirstEndFurther(log, from, from + n + 1);
  }

  lemma {:induction false} FirstEndFurther(log: seq<LogEntry>, from: nat, later: nat)
    requires from <= later <= |log| && later <= FirstEnd(log, from)
    ensures FirstEnd(log, later) == FirstEnd(log, from)
    decreases later - from
  {
    if from < later { FirstEndFurther(log, from + 1, later); }
  }

  /** Every event but the AttemptStarted ones is sent, in its place, with its own id and
      attempt; a failure with its message and its code. */
  lemma EveryEventIsSent(entries: seq<LogEntry>, i: nat)
    requires i < |entries|
    ensures var j, n := |ShowAll(entries[..i])|, |ShowAll(entries[..i + 1])|;
            n == j + (if entries[i].event.body.Started? then 0 else 1) &&
            ShowAll(entries[..i + 1]) <= ShowAll(entries) &&
            (n > j ==>
               var s := ShowAll(entries)[j];
               s.id == entries[i].id && s.author == entries[i].event.author &&
               match entries[i].event.body
               case Started => true
               case Token(text, cumulative) => !s.terminal && s.delta == text && s.generated == cumulative
               case Completed(prompt, generated, finish) =>
                 s.terminal && s.delta == "" && s.generated == generated && s.finish == finish && s.prompt == prompt
               case Failed(code, message) => s.terminal && s.delta == message && s.finish == code && s.generated == 0)
  {
    OneMore(entries, i);
    ShowAllAppend(entries[..i], entries[i]);
    ShowAllConcat(entries[..i + 1], entries[i + 1..]);
    assert entries[..i + 1] + entries[i + 1..] == entries;
  }

  lemma ShowAllAppend(entries: seq<LogEntry>, entry: LogEntry)
    ensures ShowAll(entries + [entry]) == ShowAll(entries) + Show(entry)
  {
    assert (entries + [entry])[..|entries|] == entries;
  }

  lemma ShowAllConcat(a: seq<LogEntry>, b: seq<LogEntry>)
    ensures ShowAll(a + b) == ShowAll(a) + ShowAll(b)
  {
    ShowAllConcatUpTo(a, b, |b|);
    assert b[..|b|] == b;
  }

  lemma {:induction false} ShowAllConcatUpTo(a: seq<LogEntry>, b: seq<LogEntry>, n: nat)
    requires n <= |b|
    ensures ShowAll(a + b[..n]) == ShowAll(a) + ShowAll(b[..n])
  {
    if n == 0 {
      assert a + b[..n] == a;
    } else {
      ShowAllConcatUpTo(a, b, n - 1);
      ShowAllOneMore(a, b, n - 1);
    }
  }

  lemma ShowAllOneMore(a: seq<LogEntry>, b: seq<LogEntry>, n: nat)
    requires n < |b|
    requires ShowAll(a + b[..n]) == ShowAll(a) + ShowAll(b[..n])
    ensures ShowAll(a + b[..n + 1]) == ShowAll(a) + ShowAll(b[..n + 1])
  {
    OneMore(b, n);
    ShowAllAppend(b[..n], b[n]);
    ShowAllAppend(a + b[..n], b[n]);
    Regrouped(a, b[..n], [b[n]]);
    Regrouped(ShowAll(a), ShowAll(b[..n]), Show(b[n]));
  }

  // ----- the unary collector -----

  datatype Collected =
    | Complete(text: string, generated: nat, finish: string)
    | GenerationFailed(message: string)
    | CollectTimedOut
    | CollectBroken
    | StillWaiting

  function Events(entries: seq<LogEntry>): seq<Event> {
    seq(|entries|, i requires 0 <= i < |entries| => entries[i].event)
  }

  /** The attempt of the last AttemptStarted. */
  function Current(events: seq<Event>): Option<Author> {
    if events == [] then None
    else if events[|events| - 1].body.Started? then Some(events[|events| - 1].author)
    else Current(events[..|events| - 1])
  }

  /** Does this event make the collector drop the text it has? */
  predicate Drops(events: seq<Event>, e: Event) {
    e.body.Started? && Current(events).Some? && Current(events).value != e.author
  }

  /** The text the collector has after these events. */
  function CollectText(events: seq<Event>): string {
    if events == [] then ""
    else
      var rest, e := events[..|events| - 1], events[|events| - 1];
      if Drops(rest, e) then "" else CollectText(rest) + if e.body.Token? then e.body.text else ""
  }

  function Verdict(entries: seq<LogEntry>): Collected
    requires entries != [] && IsTerminal(entries[|entries| - 1].event)
  {
    match entries[|entries| - 1].event.body
    case Completed(_, generated, finish) => Complete(CollectText(Events(entries[..|entries| - 1])), generated, finish)
    case Failed(_, message) => GenerationFailed(message)
  }

  lemma CollectStep(events: seq<Event>, e: Event)
    ensures Current(events + [e]) == if e.body.Started? then Some(e.author) else Current(events)
    ensures CollectText(events + [e]) ==
              if Drops(events, e) then "" else CollectText(events) + if e.body.Token? then e.body.text else ""
  {
    assert (events + [e])[..|events|] == events;
  }

  lemma EventsOneMore(t: seq<LogEntry>, n: nat)
    requires n < |t|
    ensures Events(t[..n + 1]) == Events(t[..n]) + [t[n].event]
  {
  }

  /** `collect_generation`: a timeout or a failed read before the terminal event is reported as
      such; otherwise it answers by the first terminal event of the log. */
  method CollectGeneration(subscription: ResultSubscription, calls: seq<seq<Try>>, ghost log: seq<LogEntry>)
      returns (r: Collected)
    requires Environment(calls, log)
    modifies subscription
    ensures match EndOf(old(subscription.lastEventId), calls)
            case Ended =>
              HasEnd(log, old(subscription.lastEventId)) && r == Verdict(Through(log, old(subscription.lastEventId)))
            case TimedOut => r == CollectTimedOut
            case ReadFailed => r == CollectBroken
            case Disconnected => r == StillWaiting
  {
    var text := "";
    var currentAttempt: Option<Author> := None;
    ghost var start, seen := subscription.lastEventId, 0;
    ghost var t := Through(log, start);
    var i := 0;
    while i < |calls|
      invariant 0 <= i <= |calls| && Standing(log, start, seen, subscription.lastEventId)
      invariant text == CollectText(Events(t[..seen])) && currentAttempt == Current(Events(t[..seen]))
      invariant EndOf(subscription.lastEventId, calls[i..]) == EndOf(start, calls)
    {
      EndAfter(subscription.lastEventId, calls, i);
      var read := Pull(subscription, calls[i], log, start, seen);
      if read == Nothing { return CollectTimedOut; }
      if read == Broken { return CollectBroken; }
      var event := read.entry.event;
      if IsTerminal(event) {
        return if event.body.Completed? then Complete(text, event.body.generated, event.body.finish)
               else GenerationFailed(event.body.message);
      }
      EventsOneMore(t, seen);
      CollectStep(Events(t[..seen]), event);
      match event.body {
        case Started =>
          if currentAttempt.Some? && currentAttempt.value != event.author {
            text := "";
          }
          currentAttempt := Some(event.author);
        case Token(delta, _) =>
          text := text + delta;
        case _ =>
      }
      seen := seen + 1;
      i := i + 1;
    }
    return StillWaiting;
  }

  // ----- the two readers compared -----

  /** The deltas a streaming client gets with one attempt's id, put together. */
  function AttemptText(events: seq<Event>, author: Author): string {
    if events == [] then ""
    else
      var e := events[|events| - 1];
      AttemptText(events[..|events| - 1], author) + if e.body.Token? && e.author == author then e.body.text else ""
  }

  function DeltasOf(shown: seq<Shown>, author: Author): string {
    if shown == [] then ""
    else
      var s := shown[|shown| - 1];
      DeltasOf(shown[..|shown| - 1], author) + if !s.terminal && s.author == author then s.delta else ""
  }

  lemma {:induction false} DeltasAreAttemptText(entries: seq<LogEntry>, author: Author)
    ensures DeltasOf(ShowAll(entries), author) == AttemptText(Events(entries), author)
  {
    if entries != [] {
      var n := |entries| - 1;
      DeltasAreAttemptText(entries[..n], author);
      assert Events(entries)[..n] == Events(entries[..n]);
      DeltasOfShow(ShowAll(entries[..n]), entries[n], author);
    }
  }

  lemma DeltasOfShow(shown: seq<Shown>, entry: LogEntry, author: Author)
    ensures DeltasOf(shown + Show(entry), author) ==
              DeltasOf(shown, author) +
              if entry.event.body.Token? && entry.event.author == author then entry.event.body.text else ""
  {
    if Show(entry) == [] {
      assert shown + Show(entry) == shown;
    } else {
      assert (shown + Show(entry))[..|shown|] == shown;
    }
  }

  lemma BlocksPrefix(w: seq<Event>, n: nat)
    requires Blocks(w) && n <= |w|
    ensures Blocks(w[..n])
  {
    forall i | 0 <= i < n ensures Follows(w[..n], i) {
      assert Follows(w, i);
    }
  }

  /** In blocks, the collector holds exactly the text of the attempt at the end. */
  lemma {:induction false} CollectsLastBlock(events: seq<Event>)
    requires Blocks(events) && forall e :: e in events ==> !IsTerminal(e)
    ensures events == [] ==> CollectText(events) == ""
    ensures events != [] ==> Current(events) == Some(events[|events| - 1].author)
    ensures events != [] ==> CollectText(events) == AttemptText(events, events[|events| - 1].author)
    ensures forall author :: (forall e :: e in events ==> e.author != author) ==> AttemptText(events, author) == ""
  {
    if events != [] {
      var n := |events| - 1;
      BlocksPrefix(events, n);
      CollectsLastBlock(events[..n]);
      assert Follows(events, n);
      forall author | forall e :: e in events ==> e.author != author ensures AttemptText(events, author) == "" {
        assert forall e :: e in events[..n] ==> e in events;
      }
      if events[n].body.Started? {
        assert forall e :: e in events[..n] ==> e.author != events[n].author;
        if n > 0 { assert events[..n][n - 1].author != events[n].author; }
      } else {
        assert events[..n][n - 1].author == events[n].author;
      }
    }
  }

  /** Unary refines streaming: when attempts do not overlap and the completion is of the
      last started one, the collected text is what streaming sends under that attempt's
      id, with the text of earlier attempts discarded, and the last message sent has the
      same count and finish reason. */
  lemma UnaryIsStreaming(before: seq<LogEntry>, last: LogEntry)
    requires last.event.body.Completed? && FirstEnd(before, 0) == |before|
    requires Blocks(Events(before))
    requires before != [] ==> last.event.author == before[|before| - 1].event.author
    ensures var shown := ShowAll(before + [last]);
            Verdict(before + [last]) ==
              Complete(DeltasOf(shown, last.event.author), shown[|shown| - 1].generated, shown[|shown| - 1].finish)
  {
    var author, shown := last.event.author, ShowAll(before + [last]);
    assert CollectText(Events(before)) == AttemptText(Events(before), author) by { CollectsLastBlock(Events(before)); }
    assert DeltasOf(ShowAll(before), author) == AttemptText(Events(before), author) by {
      DeltasAreAttemptText(before, author);
    }
    assert shown == ShowAll(before) + Show(last) by { ShowAllAppend(before, last); }
    assert DeltasOf(shown, author) == DeltasOf(ShowAll(before), author) by {
      DeltasOfShow(ShowAll(before), last, author);
    }
    assert shown[|shown| - 1] == Show(last)[0];
    VerdictOfLast(before, last);
  }

  /** A failure is told the same way by both. */
  lemma FailureIsStreamed(before: seq<LogEntry>, last: LogEntry)
    requires last.event.body.Failed?
    ensures var shown := ShowAll(before + [last]);
            shown != [] && shown[|shown| - 1].terminal &&
            Verdict(before + [last]) == GenerationFailed(shown[|shown| - 1].delta)
  {
    ShowAllAppend(before, last);
  }

  lemma VerdictOfLast(before: seq<LogEntry>, last: LogEntry)
    requires last.event.body.Completed?
    ensures Verdict(before + [last])
         == Complete(CollectText(Events(before)), last.event.body.generated, last.event.body.finish)
  {
    assert (before + [last])[..|before|] == before;
  }

  /** And leased runs give such logs: in a run in which no lease is lost, the part of a
      result log before its first terminal event is in blocks. */
  lemma LeasedLogsAreInBlocks(cfg: Config, run: seq<State>, actions: seq<Action>, request: nat, n: nat)
    requires IsRun(cfg, run, actions) && forall j :: 0 <= j < |actions| ==> LeaseHeld(run[j])
    requires var log := Log(run[|actions|].store, request); n <= |log| && forall i :: 0 <= i < n ==> !IsTerminal(log[i])
    ensures Blocks(Log(run[|actions|].store, request)[..n])
  {
    var log := Log(run[|actions|].store, request);
    LogsInBlocks(cfg, run, actions, request);
    WorkOfPrefix(log, n);
    BlocksPrefix(Work(log), n);
    assert Work(log)[..n] == log[..n];
  }

  lemma WorkOfPrefix(log: seq<Event>, n: nat)
    requires n <= |log| && forall i :: 0 <= i < n ==> !IsTerminal(log[i])
    ensures log[..n] <= Work(log)
  {
    AllWork(log, n);
    WorkGrows(log, n, |log|);
    assert log[..|log|] == log;
  }

  lemma WorkOneMore(log: seq<Event>, n: nat)
    requires n < |log|
    ensures Work(log[..n + 1]) == Work(log[..n]) + if IsTerminal(log[n]) then [] else [log[n]]
    ensures log[..n + 1] == log[..n] + [log[n]]
  {
    OneMore(log, n);
    WorkAppend(log[..n], log[n]);
  }

  lemma {:induction false} AllWork(log: seq<Event>, n: nat)
    requires n <= |log| && forall i :: 0 <= i < n ==> !IsTerminal(log[i])
    ensures Work(log[..n]) == log[..n]
  {
    if n > 0 {
      AllWork(log, n - 1);
      WorkOneMore(log, n - 1);
    }
  }

  lemma {:induction false} WorkGrows(log: seq<Event>, n: nat, m: nat)
    requires n <= m <= |log|
    ensures Work(log[..n]) <= Work(log[..m])
    decreases m
  {
    if n < m {
      WorkGrows(log, n, m - 1);
      assert Work(log[..m - 1]) <= Work(log[..m]) by { WorkOneMore(log, m - 1); }
    }
  }

  // ----- exactly when they agree -----

  /** From where on the collector has kept the tokens. */
  function KeptFrom(events: seq<Event>): (n: nat)
    ensures n <= |events|
  {
    if events == [] then 0
    else
      var rest, e := events[..|events| - 1], events[|events| - 1];
      if Drops(rest, e) then |events| else KeptFrom(rest)
  }

  /** The collector kept the tokens of `author`, all of them, and no others. */
  predicate KeepsExactly(events: seq<Event>, author: Author) {
    forall i :: 0 <= i < |events| && events[i].body.Token? ==> (i >= KeptFrom(events) <==> events[i].author == author)
  }

  /** The same events with other token texts. */
  function Retold(events: seq<Event>, texts: seq<string>): (r: seq<Event>)
    requires |texts| == |events|
    ensures |r| == |events|
  {
    seq(|events|, i requires 0 <= i < |events| =>
      if events[i].body.Token? then events[i].(body := Token(texts[i], events[i].body.cumulative)) else events[i])
  }

  lemma {:induction false} RetoldKeeps(events: seq<Event>, texts: seq<string>)
    requires |texts| == |events|
    ensures Current(Retold(events, texts)) == Current(events) && KeptFrom(Retold(events, texts)) == KeptFrom(events)
  {
    if events != [] {
      var n := |events| - 1;
      assert Retold(events, texts)[..n] == Retold(events[..n], texts[..n]);
      RetoldKeeps(events[..n], texts[..n]);
    }
  }

  /** Where the collector and the attempt's stream keep the same tokens they tell the same. */
  lemma {:induction false} SameTokensSameText(events: seq<Event>, author: Author, from: nat)
    requires from <= |events|
    requires forall i :: 0 <= i < |events| && events[i].body.Token? ==> (i >= from <==> events[i].author == author)
    requires KeptFrom(events) == from
    ensures CollectText(events) == AttemptText(events, author)
  {
    TextSince(events);
    TextOfThose(events, author, from);
  }

  function AllText(events: seq<Event>, from: nat): string {
    if |events| <= from then ""
    else
      var e := events[|events| - 1];
      AllText(events[..|events| - 1], from) + if e.body.Token? then e.body.text else ""
  }

  lemma {:induction false} TextSince(events: seq<Event>)
    ensures CollectText(events) == AllText(events, KeptFrom(events))
  {
    if events != [] { TextSince(events[..|events| - 1]); }
  }

  lemma {:induction false} TextOfThose(events: seq<Event>, author: Author, from: nat)
    requires forall i :: 0 <= i < |events| && events[i].body.Token? ==> (i >= from <==> events[i].author == author)
    ensures AllText(events, from) == AttemptText(events, author)
  {
    if events != [] {
      TextOfThose(events[..|events| - 1], author, from);
      if |events| <= from { assert AllText(events[..|events| - 1], from) == ""; }
    }
  }

  /** All texts empty but one: the one that is kept is told. */
  lemma {:induction false} OneText(events: seq<Event>, author: Author, from: nat, k: nat)
    requires k < |events| && events[k].body.Token? && events[k].body.text == "x"
    requires forall i :: 0 <= i < |events| && i != k && events[i].body.Token? ==> events[i].body.text == ""
    ensures AllText(events, from) == if k >= from then "x" else ""
    ensures AttemptText(events, author) == if events[k].author == author then "x" else ""
  {
    var n := |events| - 1;
    var all, attempt := AllText(events[..n], from), AttemptText(events[..n], author);
    if k < n {
      OneText(events[..n], author, from, k);
      assert all + "" == all && attempt + "" == attempt;
    } else {
      assert all == "" && attempt == "" by { NoText(events[..n], author, from); }
    }
  }

  lemma {:induction false} NoText(events: seq<Event>, author: Author, from: nat)
    requires forall i :: 0 <= i < |events| && events[i].body.Token? ==> events[i].body.text == ""
    ensures AllText(events, from) == "" && AttemptText(events, author) == ""
  {
    if events != [] { NoText(events[..|events| - 1], author, from); }
  }

  /** The collector and the stream of `author` agree, whatever the token texts, exactly
      when the tokens kept are the tokens of `author`. */
  lemma AgreeIff(events: seq<Event>, author: Author)
    ensures (forall texts :: |texts| == |events| ==>
               CollectText(Retold(events, texts)) == AttemptText(Retold(events, texts), author))
            <==> KeepsExactly(events, author)
  {
    if KeepsExactly(events, author) {
      forall texts | |texts| == |events|
        ensures CollectText(Retold(events, texts)) == AttemptText(Retold(events, texts), author)
      {
        RetoldKeeps(events, texts);
        SameTokensSameText(Retold(events, texts), author, KeptFrom(events));
      }
    } else {
      var k :| 0 <= k < |events| && events[k].body.Token? && !(k >= KeptFrom(events) <==> events[k].author == author);
      var texts := seq(|events|, i => if i == k then "x" else "");
      RetoldKeeps(events, texts);
      TextSince(Retold(events, texts));
      OneText(Retold(events, texts), author, KeptFrom(events), k);
      assert CollectText(Retold(events, texts)) != AttemptText(Retold(events, texts), author);
    }
  }

  /** Attempt `b` has started before the last token of `a`. */
  function Overlapping(a: Author, b: Author): seq<Event> {
    [Event(a, Started), Event(b, Started), Event(a, Token("x", 1)), Event(b, Token("y", 1))]
  }

  /** It does not when attempts overlap: a token of the first attempt after the second one
      has started stays in the collected text. */
  lemma OverlapIsMixed(a: Author, b: Author)
    requires a != b
    ensures CollectText(Overlapping(a, b)) == "xy" && AttemptText(Overlapping(a, b), b) == "y"
  {
    var sa, sb, ta, tb := Event(a, Started), Event(b, Started), Event(a, Token("x", 1)), Event(b, Token("y", 1));
    assert Overlapping(a, b) == [sa, sb, ta] + [tb] && [sa, sb, ta] == [sa, sb] + [ta] && [sa, sb] == [sa] + [sb];
    CollectStep([sa], sb);
    CollectStep([sa, sb], ta);
    CollectStep([sa, sb, ta], tb);
    AttemptStep([sa, sb, ta], tb, b);
    AttemptStep([sa, sb], ta, b);
    AttemptStep([sa], sb, b);
  }

  /** And they do overlap once a lease is lost: a run whose first engine stalls past its lease
      and then goes on, while a second one completes the request. */
  lemma OverlapHappens(cfg: Config) returns (s: State)
    ensures Reachable(cfg, s)
    ensures Log(s.store, 0) == Overlapping(Attempt(0), Attempt(1)) + [Event(Attempt(1), Completed(0, 1, "stop"))]
    ensures CollectText(Log(s.store, 0)[..4]) == "xy" && AttemptText(Log(s.store, 0)[..4], Attempt(1)) == "y"
  {
    var gs: set<Guard> := {};
    var t;
    t, s := BothStream(cfg, gs);
    t, s := Emits(cfg, gs, t, s, 0, "x", 1);
    t, s := Emits(cfg, gs, t, s, 1, "y", 1);
    var log := Log(s.store, 0);
    assert log == Overlapping(Attempt(0), Attempt(1));
    t, s := Releases(cfg, gs, t, s, 1, Succeeded(0, 1, "stop"));
    t, s := Concludes(cfg, gs, t, s, 1);
    assert Log(s.store, 0)[..4] == log;
    OverlapIsMixed(Attempt(0), Attempt(1));
    LeadsReachable(cfg, gs, t, s);
  }

  /** Two attempts streaming at once. */
  lemma BothStream(cfg: Config, gs: set<Guard>) returns (t: Trace, s: State)
    requires gs == {}
    ensures Leads(cfg, gs, t, s) && Log(s.store, 0) == [Event(Attempt(0), Started), Event(Attempt(1), Started)]
    ensures forall e :: e == 0 || e == 1 ==>
              PcOf(s, e).Working? && PcOf(s, e).attempt == e && PcOf(s, e).stage == Streaming &&
              PcOf(s, e).beat.Replying? && PcOf(s, e).job.request == 0
    ensures LeaseLive(s.store, 0) ==> LeaseOwned(s.store, 0, 1)
  {
    var ms := cfg.lease + cfg.reclaimIdle;
    t, s := Delivered(cfg, gs, ms + 1, true);
    t, s := Attempts(cfg, gs, t, s, 0, Job(0, 0, ms + 1));
    t, s := Reclaims(cfg, gs, t, s, 1, ms);
    t, s := Attempts(cfg, gs, t, s, 1, Job(0, 0, ms + 1));
  }

  lemma AttemptStep(events: seq<Event>, e: Event, author: Author)
    ensures AttemptText(events + [e], author) ==
              AttemptText(events, author) + if e.body.Token? && e.author == author then e.body.text else ""
  {
    assert (events + [e])[..|events|] == events;
  }
}
