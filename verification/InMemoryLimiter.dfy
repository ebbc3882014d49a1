/** The in-process quota limiter: one window of counters per API key, reset in place when
    a call carries another minute, and a table of reservations behind a second lock. */
module InMemoryLimiter {
  import opened Basics
  import opened QuotaBook

  newtype u64 = x: int | 0 <= x < 0x1_0000_0000_0000_0000

  // ----- the limiter's history, on values -----

  /** `Refunding` is a reconciliation between its two locks: the reservation is removed,
      the counters are not yet lowered. */
  datatype Phase = Held | Refunding(actual: nat) | Settled(actual: nat)

  /** One granted reservation, and the number of the window it was charged to. */
  datatype Slot = Slot(apiKey: string, serial: nat, prompt: nat, reserved: nat, phase: Phase)

  /** `serial` counts the key's resets; `late` says a reservation of an older window was
      refunded into this one. */
  datatype Window = Window(minute: nat, serial: nat, late: bool, used: Charge)

  datatype Memory = Memory(windows: map<string, Window>, slots: seq<Slot>)

  datatype Answer =
    | Granted(id: nat, left: Charge)
    | Denied(kind: QuotaKind, remaining: nat, requested: nat)

  datatype Taken = NotFound | Took(refund: nat)

  function Opened(minute: nat, serial: nat): Window {
    Window(minute, serial, false, Zero)
  }

  function WindowOf(m: Memory, apiKey: string): Window {
    if apiKey in m.windows then m.windows[apiKey] else Opened(0, 0)
  }

  function Rolled(w: Window, minute: nat): Window {
    if w.minute != minute then Opened(minute, w.serial + 1) else w
  }

  function Decide(used: Charge, id: nat, prompt: nat, generated: nat, limits: Charge): Answer {
    if Monus(limits.requests, used.requests) < 1 then Denied(Requests, Monus(limits.requests, used.requests), 1)
    else if Monus(limits.prompt, used.prompt) < prompt then
      Denied(PromptTokens, Monus(limits.prompt, used.prompt), prompt)
    else if Monus(limits.generated, used.generated) < generated then
      Denied(GeneratedTokens, Monus(limits.generated, used.generated), generated)
    else
      var after := Plus(used, Charge(1, prompt, generated));
      Granted(id, Charge(Monus(limits.requests, after.requests), Monus(limits.prompt, after.prompt),
                         Monus(limits.generated, after.generated)))
  }

  /** What an answer tells the caller: what is left completes the counters to the limits, before
      the call for a refusal, which names the first quota that does not suffice and what was
      asked of it, and after it for a grant. */
  lemma AnswerSays(used: Charge, id: nat, prompt: nat, generated: nat, limits: Charge)
    requires Within(used, limits)
    ensures match Decide(used, id, prompt, generated, limits)
            case Granted(granted, left) =>
              granted == id && Plus(left, Plus(used, Charge(1, prompt, generated))) == limits
            case Denied(Requests, remaining, requested) =>
              requested == 1 && used.requests + remaining == limits.requests && remaining == 0
            case Denied(PromptTokens, remaining, requested) =>
              requested == prompt && used.prompt + remaining == limits.prompt && remaining < prompt &&
              used.requests < limits.requests
            case Denied(GeneratedTokens, remaining, requested) =>
              requested == generated && used.generated + remaining == limits.generated && remaining < generated &&
              used.requests < limits.requests && used.prompt + prompt <= limits.prompt
  {
  }

  /** `reserve`, one step: it takes the second lock while it holds the first. */
  function ReserveIn(m: Memory, apiKey: string, prompt: nat, generated: nat, minute: nat, limits: Charge)
      : (Memory, Answer)
  {
    var w := Rolled(WindowOf(m, apiKey), minute);
    var answer := Decide(w.used, |m.slots|, prompt, generated, limits);
    if answer.Granted?
    then (Memory(m.windows[apiKey := w.(used := Plus(w.used, Charge(1, prompt, generated)))],
                 m.slots + [Slot(apiKey, w.serial, prompt, generated, Held)]), answer)
    else (m.(windows := m.windows[apiKey := w]), answer)
  }

  /** A call that carries another minute than the key's window, earlier or later, starts from
      nothing; one that carries the same minute adds to what is there. */
  lemma StartsFromNothing(m: Memory, apiKey: string, prompt: nat, generated: nat, minute: nat, limits: Charge)
    ensures var (m', answer) := ReserveIn(m, apiKey, prompt, generated, minute, limits);
            var was := WindowOf(m, apiKey);
            apiKey in m'.windows &&
            var base := if was.minute == minute then was.used else Each(0);
            m'.windows[apiKey].minute == minute &&
            m'.windows[apiKey].used == (if answer.Granted? then Plus(base, Charge(1, prompt, generated)) else base) &&
            (apiKey !in m.windows ==> was.used == Each(0)) &&
            forall other | other != apiKey ::
              (other in m'.windows <==> other in m.windows) &&
              (other in m.windows ==> m'.windows[other] == m.windows[other])
  {
  }

  predicate IsHeld(m: Memory, id: nat) {
    id < |m.slots| && m.slots[id].phase == Held
  }

  /** `reconcile` up to its first lock's release. */
  function Take(m: Memory, id: nat, actual: nat): (Memory, Taken) {
    if !IsHeld(m, id) then (m, NotFound)
    else
      var refund := Monus(m.slots[id].reserved, actual);
      var phase := if refund == 0 then Settled(actual) else Refunding(actual);
      (m.(slots := m.slots[id := m.slots[id].(phase := phase)]), Took(refund))
  }

  /** The rest of `reconcile`, under the other lock. */
  function GiveBack(m: Memory, id: nat): Memory
    requires id < |m.slots| && m.slots[id].phase.Refunding?
  {
    var slot := m.slots[id];
    var refund := Monus(slot.reserved, slot.phase.actual);
    var slots := m.slots[id := slot.(phase := Settled(slot.phase.actual))];
    if slot.apiKey !in m.windows then m.(slots := slots)
    else
      var w := m.windows[slot.apiKey];
      Memory(m.windows[slot.apiKey := w.(late := w.late || slot.serial != w.serial,
                                         used := w.used.(generated := Monus(w.used.generated, refund)))], slots)
  }

  /** `reconcile` with nothing in between, and `cancel`. */
  function ReconcileIn(m: Memory, id: nat, actual: nat): (Memory, Taken) {
    var (m', taken) := Take(m, id, actual);
    if taken.Took? && taken.refund > 0 then (GiveBack(m', id), taken) else (m', taken)
  }

  // ----- across windows -----

  /** What the book charges to one window: requests, prompt tokens, generated tokens net
      of refunds, and the refunds still between the two locks. */
  datatype Tally = Tally(requests: nat, prompt: nat, net: nat, inFlight: nat)

  function TallyEach(n: nat): Tally {
    Tally(n, n, n, n)
  }

  const NoCharges := TallyEach(0)

  function Net(s: Slot): nat {
    if s.phase == Held then s.reserved else Min(s.reserved, s.phase.actual)
  }

  function InFlight(s: Slot): nat {
    if s.phase.Refunding? then Monus(s.reserved, s.phase.actual) else 0
  }

  function TallyOf(slots: seq<Slot>, apiKey: string, serial: nat): Tally {
    if slots == [] then NoCharges
    else
      var s := slots[|slots| - 1];
      var t := TallyOf(slots[..|slots| - 1], apiKey, serial);
      if s.apiKey != apiKey || s.serial != serial then t
      else Tally(t.requests + 1, t.prompt + s.prompt, t.net + Net(s), t.inFlight + InFlight(s))
  }

  lemma TallyAppend(slots: seq<Slot>, s: Slot, apiKey: string, serial: nat)
    ensures var t := TallyOf(slots, apiKey, serial);
            TallyOf(slots + [s], apiKey, serial) ==
              if s.apiKey != apiKey || s.serial != serial then t
              else Tally(t.requests + 1, t.prompt + s.prompt, t.net + Net(s), t.inFlight + InFlight(s))
  {
    assert (slots + [s])[..|slots|] == slots;
  }

  lemma {:induction false} TallyUpdate(slots: seq<Slot>, id: nat, phase: Phase, apiKey: string, serial: nat)
    requires id < |slots|
    ensures var s := slots[id];
            var s' := s.(phase := phase);
            var t := TallyOf(slots, apiKey, serial);
            var t' := TallyOf(slots[id := s'], apiKey, serial);
            if s.apiKey != apiKey || s.serial != serial then t' == t
            else t'.requests == t.requests && t'.prompt == t.prompt &&
                 t'.net + Net(s) == t.net + Net(s') && t'.inFlight + InFlight(s) == t.inFlight + InFlight(s')
  {
    var n := |slots| - 1;
    if id == n {
      assert slots[id := slots[id].(phase := phase)][..n] == slots[..n];
    } else {
      assert slots[id := slots[id].(phase := phase)][..n] == slots[..n][id := slots[id].(phase := phase)];
      TallyUpdate(slots[..n], id, phase, apiKey, serial);
    }
  }

  lemma {:induction false} TallyOfNewSerial(slots: seq<Slot>, apiKey: string, serial: nat)
    requires forall i :: 0 <= i < |slots| && slots[i].apiKey == apiKey ==> slots[i].serial < serial
    ensures TallyOf(slots, apiKey, serial) == NoCharges
  {
    if slots != [] {
      TallyOfNewSerial(slots[..|slots| - 1], apiKey, serial);
    }
  }

  /** A window that agrees with its tally: within the limits, requests and prompt tokens
      exactly those of its reservations, generated tokens never above what they are
      charged plus the refunds in flight, and exactly that unless a refund came late. */
  predicate Agrees(w: Window, t: Tally, limits: Charge) {
    Within(w.used, limits) &&
    w.used.requests == t.requests && w.used.prompt == t.prompt &&
    w.used.generated <= t.net + t.inFlight &&
    (!w.late ==> w.used.generated == t.net + t.inFlight)
  }

  predicate NoneNewer(m: Memory, apiKey: string) {
    forall i :: 0 <= i < |m.slots| && m.slots[i].apiKey == apiKey ==>
      apiKey in m.windows && m.slots[i].serial <= WindowOf(m, apiKey).serial
  }

  predicate WindowOk(m: Memory, apiKey: string, limits: Charge) {
    var w := WindowOf(m, apiKey);
    Agrees(w, TallyOf(m.slots, apiKey, w.serial), limits) && NoneNewer(m, apiKey)
  }

  ghost predicate MemoryOk(m: Memory, limits: Charge) {
    forall apiKey: string :: WindowOk(m, apiKey, limits)
  }

  lemma ReserveKeepsOk(m: Memory, apiKey: string, prompt: nat, generated: nat, minute: nat, limits: Charge)
    requires MemoryOk(m, limits)
    ensures MemoryOk(ReserveIn(m, apiKey, prompt, generated, minute, limits).0, limits)
  {
    forall k: string ensures WindowOk(ReserveIn(m, apiKey, prompt, generated, minute, limits).0, k, limits) {
      assert WindowOk(m, k, limits);
      if k == apiKey {
        ReservedWindowOk(m, apiKey, prompt, generated, minute, limits);
      } else {
        OtherWindowOk(m, apiKey, prompt, generated, minute, limits, k);
      }
    }
  }

  lemma ReservedWindowOk(m: Memory, apiKey: string, prompt: nat, generated: nat, minute: nat, limits: Charge)
    requires WindowOk(m, apiKey, limits)
    ensures WindowOk(ReserveIn(m, apiKey, prompt, generated, minute, limits).0, apiKey, limits)
  {
    var w := Rolled(WindowOf(m, apiKey), minute);
    RolledAgrees(m, apiKey, minute, limits);
    if Decide(w.used, |m.slots|, prompt, generated, limits).Granted? {
      var slots := m.slots + [Slot(apiKey, w.serial, prompt, generated, Held)];
      var t := TallyOf(slots, apiKey, w.serial);
      assert Agrees(w.(used := Plus(w.used, Charge(1, prompt, generated))), t, limits) by {
        GrantAgrees(m.slots, apiKey, w, prompt, generated, limits);
      }
    }
  }

  lemma RolledAgrees(m: Memory, apiKey: string, minute: nat, limits: Charge)
    requires WindowOk(m, apiKey, limits)
    ensures var w := Rolled(WindowOf(m, apiKey), minute); Agrees(w, TallyOf(m.slots, apiKey, w.serial), limits)
  {
    var w := Rolled(WindowOf(m, apiKey), minute);
    if w != WindowOf(m, apiKey) { TallyOfNewSerial(m.slots, apiKey, w.serial); }
  }

  lemma GrantAgrees(slots: seq<Slot>, apiKey: string, w: Window, prompt: nat, generated: nat, limits: Charge)
    requires Agrees(w, TallyOf(slots, apiKey, w.serial), limits)
    requires Within(Plus(w.used, Charge(1, prompt, generated)), limits)
    ensures var s := Slot(apiKey, w.serial, prompt, generated, Held);
            Agrees(w.(used := Plus(w.used, Charge(1, prompt, generated))),
                   TallyOf(slots + [s], apiKey, w.serial), limits)
  {
    AgreesOneMore(w, TallyOf(slots, apiKey, w.serial), prompt, generated, limits);
    TallyAppend(slots, Slot(apiKey, w.serial, prompt, generated, Held), apiKey, w.serial);
  }

  lemma AgreesOneMore(w: Window, t: Tally, prompt: nat, generated: nat, limits: Charge)
    requires Agrees(w, t, limits) && Within(Plus(w.used, Charge(1, prompt, generated)), limits)
    ensures Agrees(w.(used := Plus(w.used, Charge(1, prompt, generated))),
                   Tally(t.requests + 1, t.prompt + prompt, t.net + generated, t.inFlight), limits)
  {
  }

  lemma OtherWindowOk(m: Memory, apiKey: string, prompt: nat, generated: nat, minute: nat, limits: Charge, k: string)
    requires WindowOk(m, k, limits) && k != apiKey
    ensures WindowOk(ReserveIn(m, apiKey, prompt, generated, minute, limits).0, k, limits)
  {
    var serial := WindowOf(m, k).serial;
    var s := Slot(apiKey, Rolled(WindowOf(m, apiKey), minute).serial, prompt, generated, Held);
    assert TallyOf(m.slots + [s], k, serial) == TallyOf(m.slots, k, serial) by {
      TallyAppend(m.slots, s, k, serial);
    }
  }

  lemma TakeKeepsOk(m: Memory, id: nat, actual: nat, limits: Charge)
    requires MemoryOk(m, limits)
    ensures MemoryOk(Take(m, id, actual).0, limits)
  {
    if IsHeld(m, id) {
      var m' := Take(m, id, actual).0;
      forall k: string ensures WindowOk(m', k, limits) {
        assert WindowOk(m, k, limits);
        TallyUpdate(m.slots, id, m'.slots[id].phase, k, WindowOf(m, k).serial);
      }
    }
  }

  lemma GiveBackKeepsOk(m: Memory, id: nat, limits: Charge)
    requires MemoryOk(m, limits) && id < |m.slots| && m.slots[id].phase.Refunding?
    ensures MemoryOk(GiveBack(m, id), limits)
  {
    var m' := GiveBack(m, id);
    assert WindowOk(m, m.slots[id].apiKey, limits);
    forall k: string ensures WindowOk(m', k, limits) {
      assert WindowOk(m, k, limits);
      TallyUpdate(m.slots, id, m'.slots[id].phase, k, WindowOf(m, k).serial);
    }
  }

  /** The limiter's atomic steps, in any order and for any minutes. */
  datatype Step =
    | ReserveStep(apiKey: string, prompt: nat, generated: nat, minute: nat)
    | TakeStep(id: nat, actual: nat)
    | GiveBackStep(id: nat)

  function Apply(m: Memory, step: Step, limits: Charge): Memory {
    match step
    case ReserveStep(apiKey, prompt, generated, minute) => ReserveIn(m, apiKey, prompt, generated, minute, limits).0
    case TakeStep(id, actual) => Take(m, id, actual).0
    case GiveBackStep(id) => if id < |m.slots| && m.slots[id].phase.Refunding? then GiveBack(m, id) else m
  }

  function Play(m: Memory, steps: seq<Step>, limits: Charge): Memory {
    if steps == [] then m else Apply(Play(m, steps[..|steps| - 1], limits), steps[|steps| - 1], limits)
  }

  /** Over every interleaving of the two-lock reconciliations with reservations and minute
      changes, every key's window stays as WindowOk says. */
  lemma {:induction false} WindowsStayOk(steps: seq<Step>, limits: Charge)
    ensures MemoryOk(Play(Memory(map[], []), steps, limits), limits)
  {
    if steps != [] {
      var m := Play(Memory(map[], []), steps[..|steps| - 1], limits);
      WindowsStayOk(steps[..|steps| - 1], limits);
      match steps[|steps| - 1]
      case ReserveStep(apiKey, prompt, generated, minute) =>
        ReserveKeepsOk(m, apiKey, prompt, generated, minute, limits);
      case TakeStep(id, actual) => TakeKeepsOk(m, id, actual, limits);
      case GiveBackStep(id) =>
        if id < |m.slots| && m.slots[id].phase.Refunding? { GiveBackKeepsOk(m, id, limits); }
    }
  }

  // ----- the broker's ledger and this limiter, side by side in one minute -----

  datatype Call =
    | ReserveCall(apiKey: string, prompt: nat, generated: nat)
    | ReconcileCall(id: nat, actual: nat)
    | Wait(ms: nat)

  /** What a caller learns: a grant and what is left, which quota refused, or a refund. */
  datatype Verdict = Grant(id: nat, left: Charge) | Refusing(kind: QuotaKind) | Refunded(tokens: nat) | Waited

  function MemoryCall(m: Memory, call: Call, minute: nat, limits: Charge): (Memory, Verdict) {
    match call
    case ReserveCall(apiKey, prompt, generated) =>
      var (m', answer) := ReserveIn(m, apiKey, prompt, generated, minute, limits);
      (m', if answer.Granted? then Grant(answer.id, answer.left) else Refusing(answer.kind))
    case ReconcileCall(id, actual) =>
      var (m', taken) := ReconcileIn(m, id, actual);
      (m', Refunded(if taken.Took? then taken.refund else 0))
    case Wait(_) => (m, Waited)
  }

  function LedgerCall(q: Quota, call: Call, minute: nat, limits: Charge): (Quota, Verdict) {
    match call
    case ReserveCall(apiKey, prompt, generated) =>
      var reply := ReserveReply(q, Bucket(apiKey, minute), prompt, generated, limits);
      (Do(q, QuotaBook.Reserve(Bucket(apiKey, minute), prompt, generated, limits)),
       if reply.Admitted? then Grant(reply.id, reply.left) else Refusing(reply.kind))
    case ReconcileCall(id, actual) => (Do(q, QuotaBook.Reconcile(id, actual)), Refunded(Refund(q, id, actual)))
    case Wait(ms) => (Do(q, Tick(ms)), Waited)
  }

  function MemoryVerdicts(m: Memory, calls: seq<Call>, minute: nat, limits: Charge): seq<Verdict>
    decreases |calls|
  {
    if calls == [] then []
    else
      var (m', v) := MemoryCall(m, calls[0], minute, limits);
      [v] + MemoryVerdicts(m', calls[1..], minute, limits)
  }

  function LedgerVerdicts(q: Quota, calls: seq<Call>, minute: nat, limits: Charge): seq<Verdict>
    decreases |calls|
  {
    if calls == [] then []
    else
      var (q', v) := LedgerCall(q, calls[0], minute, limits);
      [v] + LedgerVerdicts(q', calls[1..], minute, limits)
  }

  function After(q: Quota, calls: seq<Call>, minute: nat, limits: Charge): Quota
    decreases |calls|
  {
    if calls == [] then q else After(LedgerCall(q, calls[0], minute, limits).0, calls[1..], minute, limits)
  }

  function MemoryAfter(m: Memory, calls: seq<Call>, minute: nat, limits: Charge): Memory
    decreases |calls|
  {
    if calls == [] then m else MemoryAfter(MemoryCall(m, calls[0], minute, limits).0, calls[1..], minute, limits)
  }

  predicate InMinute(now: nat, minute: nat) {
    minute * MINUTE <= now < (minute + 1) * MINUTE
  }

  function UsedIn(m: Memory, apiKey: string, minute: nat): Charge {
    Rolled(WindowOf(m, apiKey), minute).used
  }

  /** The same reservation on both sides. */
  predicate SameSlot(s: Slot, e: Entry, minute: nat) {
    e.bucket == Bucket(s.apiKey, minute) && e.prompt == s.prompt && e.generated == s.reserved &&
    minute * MINUTE <= e.madeAt &&
    match s.phase
    case Held => e.outcome == Reserved
    case Settled(actual) => e.outcome == Reconciled(actual)
    case Refunding(_) => false
  }

  predicate SlotsMatch(m: Memory, q: Quota, minute: nat) {
    |m.slots| == |q.book| &&
    (forall i :: 0 <= i < |m.slots| ==> SameSlot(m.slots[i], q.book[i], minute)) &&
    (forall i :: 0 <= i < |m.slots| ==>
       m.slots[i].apiKey in m.windows && m.windows[m.slots[i].apiKey].minute == minute)
  }

  /** The same counters on both sides, and within the limits. */
  predicate CounterMatches(m: Memory, q: Quota, minute: nat, limits: Charge, apiKey: string) {
    UsedIn(m, apiKey, minute) == Usage(q.book, Bucket(apiKey, minute), q.now) &&
    Within(UsedIn(m, apiKey, minute), limits)
  }

  ghost predicate Simulates(m: Memory, q: Quota, minute: nat, limits: Charge) {
    WellTimed(q) && InMinute(q.now, minute) && SlotsMatch(m, q, minute) &&
    forall apiKey: string :: CounterMatches(m, q, minute, limits, apiKey)
  }

  lemma DecideLikeTheScript(used: Charge, id: nat, prompt: nat, generated: nat, limits: Charge)
    requires Within(used, limits)
    ensures match Refusal(used, prompt, generated, limits)
            case Some(kind) =>
              Decide(used, id, prompt, generated, limits).Denied? &&
              Decide(used, id, prompt, generated, limits).kind == kind
            case None => Decide(used, id, prompt, generated, limits) == Granted(id,
              Charge(limits.requests - used.requests - 1, limits.prompt - used.prompt - prompt,
                     limits.generated - used.generated - generated))
  {
  }

  lemma ReserveSimulates(m: Memory, q: Quota, apiKey: string, prompt: nat, generated: nat, minute: nat, limits: Charge)
    requires Simulates(m, q, minute, limits)
    ensures var call := ReserveCall(apiKey, prompt, generated);
            MemoryCall(m, call, minute, limits).1 == LedgerCall(q, call, minute, limits).1 &&
            Simulates(MemoryCall(m, call, minute, limits).0, LedgerCall(q, call, minute, limits).0, minute, limits)
  {
    var used := UsedIn(m, apiKey, minute);
    assert CounterMatches(m, q, minute, limits, apiKey);
    DecideLikeTheScript(used, |m.slots|, prompt, generated, limits);
    if Refusal(used, prompt, generated, limits) == None {
      GrantSimulates(m, q, apiKey, prompt, generated, minute, limits);
    } else {
      DenySimulates(m, q, apiKey, minute, limits);
    }
  }

  lemma DenySimulates(m: Memory, q: Quota, apiKey: string, minute: nat, limits: Charge)
    requires Simulates(m, q, minute, limits)
    ensures Simulates(m.(windows := m.windows[apiKey := Rolled(WindowOf(m, apiKey), minute)]), q, minute, limits)
  {
    var m' := m.(windows := m.windows[apiKey := Rolled(WindowOf(m, apiKey), minute)]);
    forall k: string ensures CounterMatches(m', q, minute, limits, k) {
      assert CounterMatches(m, q, minute, limits, k);
    }
  }

  /** What a granted reservation leaves in memory, and what it adds to the book. */
  function GrantedIn(m: Memory, apiKey: string, prompt: nat, generated: nat, minute: nat): Memory {
    var w := Rolled(WindowOf(m, apiKey), minute);
    Memory(m.windows[apiKey := w.(used := Plus(w.used, Charge(1, prompt, generated)))],
           m.slots + [Slot(apiKey, w.serial, prompt, generated, Held)])
  }

  function GrantedEntry(q: Quota, apiKey: string, prompt: nat, generated: nat, minute: nat): Entry {
    Entry(Bucket(apiKey, minute), prompt, generated, q.now, Reserved)
  }

  lemma GrantSimulates(m: Memory, q: Quota, apiKey: string, prompt: nat, generated: nat, minute: nat, limits: Charge)
    requires Simulates(m, q, minute, limits)
    requires Within(Plus(UsedIn(m, apiKey, minute), Charge(1, prompt, generated)), limits)
    ensures var q' := q.(book := q.book + [GrantedEntry(q, apiKey, prompt, generated, minute)]);
            Simulates(GrantedIn(m, apiKey, prompt, generated, minute), q', minute, limits)
  {
    var q' := q.(book := q.book + [GrantedEntry(q, apiKey, prompt, generated, minute)]);
    var m' := GrantedIn(m, apiKey, prompt, generated, minute);
    GrantMatchesSlots(m, q, apiKey, prompt, generated, minute);
    forall k: string ensures CounterMatches(m', q', minute, limits, k) {
      assert CounterMatches(m, q, minute, limits, k);
      GrantUses(m, apiKey, prompt, generated, minute, k);
      GrantUsage(q, apiKey, prompt, generated, minute, k);
    }
  }

  lemma GrantMatchesSlots(m: Memory, q: Quota, apiKey: string, prompt: nat, generated: nat, minute: nat)
    requires WellTimed(q) && InMinute(q.now, minute) && SlotsMatch(m, q, minute)
    ensures var q' := q.(book := q.book + [GrantedEntry(q, apiKey, prompt, generated, minute)]);
            WellTimed(q') && SlotsMatch(GrantedIn(m, apiKey, prompt, generated, minute), q', minute)
  {
  }

  lemma GrantUses(m: Memory, apiKey: string, prompt: nat, generated: nat, minute: nat, k: string)
    ensures UsedIn(GrantedIn(m, apiKey, prompt, generated, minute), k, minute) ==
              if k == apiKey then Plus(Charge(1, prompt, generated), UsedIn(m, k, minute)) else UsedIn(m, k, minute)
  {
  }

  lemma GrantUsage(q: Quota, apiKey: string, prompt: nat, generated: nat, minute: nat, k: string)
    ensures var before := Usage(q.book, Bucket(k, minute), q.now);
            Usage(q.book + [GrantedEntry(q, apiKey, prompt, generated, minute)], Bucket(k, minute), q.now) ==
              if k == apiKey then Plus(Charge(1, prompt, generated), before) else before
  {
    var e := GrantedEntry(q, apiKey, prompt, generated, minute);
    var before, after := Usage(q.book, Bucket(k, minute), q.now), Usage(q.book + [e], Bucket(k, minute), q.now);
    assert after == if k == apiKey then Plus(Charge(1, prompt, generated), before) else before by {
      UsageAppend(q.book, e, Bucket(k, minute), q.now);
    }
  }

  lemma ReconcileSimulates(m: Memory, q: Quota, id: nat, actual: nat, minute: nat, limits: Charge)
    requires Simulates(m, q, minute, limits)
    ensures var call := ReconcileCall(id, actual);
            MemoryCall(m, call, minute, limits).1 == LedgerCall(q, call, minute, limits).1 &&
            Simulates(MemoryCall(m, call, minute, limits).0, LedgerCall(q, call, minute, limits).0, minute, limits)
    ensures Take(m, id, actual).1 == NotFound <==> !Open(q, id)
  {
    assert id < |q.book| ==> SameSlot(m.slots[id], q.book[id], minute);
    assert Open(q, id) == IsHeld(m, id);
    if IsHeld(m, id) {
      var m', q' := ReconcileIn(m, id, actual).0, Do(q, QuotaBook.Reconcile(id, actual));
      ReconcileMatchesSlots(m, q, id, actual, minute);
      forall k: string ensures CounterMatches(m', q', minute, limits, k) {
        assert CounterMatches(m, q, minute, limits, k);
        ReconcileMatchesCounter(m, q, id, actual, minute, limits, k);
      }
    }
  }

  lemma ReconcileMatchesSlots(m: Memory, q: Quota, id: nat, actual: nat, minute: nat)
    requires WellTimed(q) && SlotsMatch(m, q, minute) && IsHeld(m, id) && Open(q, id)
    ensures var q' := Do(q, QuotaBook.Reconcile(id, actual));
            WellTimed(q') && SlotsMatch(ReconcileIn(m, id, actual).0, q', minute)
  {
  }

  lemma ReconcileMatchesCounter(m: Memory, q: Quota, id: nat, actual: nat, minute: nat, limits: Charge, k: string)
    requires WellTimed(q) && IsHeld(m, id) && Open(q, id) && SameSlot(m.slots[id], q.book[id], minute)
    requires m.slots[id].apiKey in m.windows && m.windows[m.slots[id].apiKey].minute == minute
    requires CounterMatches(m, q, minute, limits, k)
    ensures CounterMatches(ReconcileIn(m, id, actual).0, Do(q, QuotaBook.Reconcile(id, actual)), minute, limits, k)
  {
    var e := q.book[id];
    var e' := e.(outcome := Reconciled(actual));
    var before, after := Usage(q.book, Bucket(k, minute), q.now), Usage(q.book[id := e'], Bucket(k, minute), q.now);
    assert if e.bucket != Bucket(k, minute) then after == before
           else Plus(after, Cost(e)) == Plus(before, Cost(e')) by {
      UsageAfterSettle(q, q.now, id, Reconciled(actual), Bucket(k, minute));
    }
  }

  lemma WaitSimulates(m: Memory, q: Quota, ms: nat, minute: nat, limits: Charge)
    requires Simulates(m, q, minute, limits) && InMinute(q.now + ms, minute)
    ensures Simulates(m, Do(q, Tick(ms)), minute, limits)
  {
    forall k: string ensures CounterMatches(m, Do(q, Tick(ms)), minute, limits, k) {
      var b := Bucket(k, minute);
      assert CounterMatches(m, q, minute, limits, k);
      UsageByTheClock(q.book, b, q.now);
      UsageByTheClock(q.book, b, q.now + ms);
      LastIsRecent(m, q, k, minute);
    }
  }

  lemma {:induction false} LastIsRecent(m: Memory, q: Quota, apiKey: string, minute: nat)
    requires forall i :: 0 <= i < |q.book| ==> minute * MINUTE <= q.book[i].madeAt
    ensures LastAt(q.book, Bucket(apiKey, minute)).Some? ==>
              minute * MINUTE <= LastAt(q.book, Bucket(apiKey, minute)).value
    decreases |q.book|
  {
    if q.book != [] {
      LastIsRecent(m, q.(book := q.book[..|q.book| - 1]), apiKey, minute);
    }
  }

  /** From any two states that agree, and within one minute, the two implementations answer
      any calls alike and still agree. */
  lemma {:induction false} SameVerdicts(m: Memory, q: Quota, calls: seq<Call>, minute: nat, limits: Charge)
    requires Simulates(m, q, minute, limits) && InMinute(After(q, calls, minute, limits).now, minute)
    ensures MemoryVerdicts(m, calls, minute, limits) == LedgerVerdicts(q, calls, minute, limits)
    ensures Simulates(MemoryAfter(m, calls, minute, limits), After(q, calls, minute, limits), minute, limits)
    decreases |calls|
  {
    if calls != [] {
      var q' := LedgerCall(q, calls[0], minute, limits).0;
      TimeGoesOn(q', calls[1..], minute, limits);
      match calls[0] {
        case ReserveCall(apiKey, prompt, generated) =>
          ReserveSimulates(m, q, apiKey, prompt, generated, minute, limits);
        case ReconcileCall(id, actual) => ReconcileSimulates(m, q, id, actual, minute, limits);
        case Wait(ms) => WaitSimulates(m, q, ms, minute, limits);
      }
      SameVerdicts(MemoryCall(m, calls[0], minute, limits).0, q', calls[1..], minute, limits);
    }
  }

  lemma {:induction false} TimeGoesOn(q: Quota, calls: seq<Call>, minute: nat, limits: Charge)
    ensures q.now <= After(q, calls, minute, limits).now
    decreases |calls|
  {
    if calls != [] {
      TimeGoesOn(LedgerCall(q, calls[0], minute, limits).0, calls[1..], minute, limits);
    }
  }

  lemma BothStartEmpty(now: nat, minute: nat, limits: Charge)
    requires InMinute(now, minute)
    ensures Simulates(Memory(map[], []), Quota(now, []), minute, limits)
  {
  }

  /** Started empty, and within one minute, over any calls to reserve and reconcile the two
      implementations grant and refuse the same requests for the same reason, report the same
      remainders and refunds, and hold the same counters at the end. */
  lemma SameFromTheStart(calls: seq<Call>, now: nat, minute: nat, limits: Charge)
    requires InMinute(now, minute) && InMinute(After(Quota(now, []), calls, minute, limits).now, minute)
    ensures var m, q := Memory(map[], []), Quota(now, []);
            var m', q' := MemoryAfter(m, calls, minute, limits), After(q, calls, minute, limits);
            MemoryVerdicts(m, calls, minute, limits) == LedgerVerdicts(q, calls, minute, limits) &&
            forall apiKey: string :: UsedIn(m', apiKey, minute) == Usage(q'.book, Bucket(apiKey, minute), q'.now)
  {
    var m, q := Memory(map[], []), Quota(now, []);
    BothStartEmpty(now, minute, limits);
    SameVerdicts(m, q, calls, minute, limits);
    var m', q' := MemoryAfter(m, calls, minute, limits), After(q, calls, minute, limits);
    forall apiKey: string ensures UsedIn(m', apiKey, minute) == Usage(q'.book, Bucket(apiKey, minute), q'.now) {
      assert CounterMatches(m', q', minute, limits, apiKey);
    }
  }

  /** Cancelling is where they part: the ledger gives back the whole reservation, this
      limiter only its generated tokens, so one request and the prompt tokens stay. */
  lemma CancelDiffers(m: Memory, q: Quota, id: nat, minute: nat, limits: Charge, apiKey: string)
    requires Simulates(m, q, minute, limits) && IsHeld(m, id)
    ensures var m', q' := ReconcileIn(m, id, 0).0, Do(q, Cancel(id));
            var kept := if apiKey == m.slots[id].apiKey then Charge(1, m.slots[id].prompt, 0) else Zero;
            UsedIn(m', apiKey, minute) == Plus(Usage(q'.book, Bucket(apiKey, minute), q'.now), kept)
  {
    WholeRefund(m, id, minute, apiKey);
    assert CounterMatches(m, q, minute, limits, apiKey);
    HeldIsOpen(m, q, id, minute, limits, apiKey);
  }

  lemma HeldIsOpen(m: Memory, q: Quota, id: nat, minute: nat, limits: Charge, apiKey: string)
    requires Simulates(m, q, minute, limits) && IsHeld(m, id)
    ensures Open(q, id)
    ensures var s, b := m.slots[id], Bucket(apiKey, minute);
            Usage(q.book, b, q.now) == Plus(Usage(Do(q, Cancel(id)).book, b, q.now),
                                            if s.apiKey == apiKey then Charge(1, s.prompt, s.reserved) else Zero)
  {
    assert SameSlot(m.slots[id], q.book[id], minute);
    assert Open(q, id);
    CancelGivesAllBack(q, id, Bucket(apiKey, minute));
  }

  lemma CancelGivesAllBack(q: Quota, id: nat, b: Bucket)
    requires WellTimed(q) && Open(q, id)
    ensures Usage(q.book, b, q.now) ==
              Plus(Usage(Do(q, Cancel(id)).book, b, q.now), if q.book[id].bucket == b then Cost(q.book[id]) else Zero)
  {
    var e := q.book[id];
    var before, after := Usage(q.book, b, q.now), Usage(q.book[id := e.(outcome := Cancelled)], b, q.now);
    assert if b != e.bucket then after == before else Plus(after, Cost(e)) == Plus(before, Zero) by {
      UsageAfterSettle(q, q.now, id, Cancelled, b);
    }
    assert Do(q, Cancel(id)).book == q.book[id := e.(outcome := Cancelled)];
    assert Plus(before, Zero) == before && Plus(after, Zero) == after;
  }

  lemma WholeRefund(m: Memory, id: nat, minute: nat, apiKey: string)
    requires IsHeld(m, id) && m.slots[id].apiKey in m.windows && m.windows[m.slots[id].apiKey].minute == minute
    ensures var used := UsedIn(m, apiKey, minute);
            UsedIn(ReconcileIn(m, id, 0).0, apiKey, minute) ==
              if apiKey == m.slots[id].apiKey then used.(generated := Monus(used.generated, m.slots[id].reserved))
              else used
  {
  }

  // ----- the limiter itself -----

  datatype Limits = Limits(requests: u64, prompt: u64, generated: u64)
  datatype WindowCounters = WindowCounters(minute: u64, requests: u64, prompt: u64, generated: u64)
  datatype Reservation = Reservation(apiKey: string, prompt: u64, reserved: u64)
  datatype Reserved64 = Ok(id: nat, left: Limits) | Exceeded(kind: QuotaKind, remaining: u64, requested: u64)
  datatype Pending = Missing | Nothing | ToRefund(apiKey: string, refund: u64)

  function SaturatingSub(a: u64, b: u64): (r: u64)
    ensures r as nat == Monus(a as nat, b as nat)
  {
    if a < b then 0 else a - b
  }

  function Reset(minute: u64): WindowCounters {
    WindowCounters(minute, 0, 0, 0)
  }

  function Wide(l: Limits): Charge {
    Charge(l.requests as nat, l.prompt as nat, l.generated as nat)
  }

  function Used(c: WindowCounters): Charge {
    Charge(c.requests as nat, c.prompt as nat, c.generated as nat)
  }

  predicate ShowsWindows(state: map<string, WindowCounters>, windows: map<string, Window>) {
    state.Keys == windows.Keys &&
    forall k :: k in state ==> state[k].minute as nat == windows[k].minute && Used(state[k]) == windows[k].used
  }

  ghost predicate HoldsSlots(reservations: map<nat, Reservation>, m: Memory) {
    (forall id: nat :: id in reservations <==> IsHeld(m, id)) &&
    (forall id :: id in reservations ==>
       reservations[id].apiKey == m.slots[id].apiKey &&
       reservations[id].prompt as nat == m.slots[id].prompt &&
       reservations[id].reserved as nat == m.slots[id].reserved)
  }

  lemma HoldsOneMore(reservations: map<nat, Reservation>, m: Memory, m': Memory, r: Reservation, serial: nat)
    requires HoldsSlots(reservations, m)
    requires m'.slots == m.slots + [Slot(r.apiKey, serial, r.prompt as nat, r.reserved as nat, Held)]
    ensures HoldsSlots(reservations[|m.slots| := r], m')
  {
  }

  /** `state` and `reservations`, with 64-bit counters.  That every addition fits is part
      of what is verified here. */
  class Limiter {
    const limits: Limits
    var state: map<string, WindowCounters>
    var reservations: map<nat, Reservation>
    var issued: nat
    ghost var memory: Memory

    ghost predicate Valid()
      reads this
    {
      MemoryOk(memory, Wide(limits)) && issued == |memory.slots| &&
      ShowsWindows(state, memory.windows) && HoldsSlots(reservations, memory)
    }

    constructor (limits: Limits)
      ensures Valid() && memory == Memory(map[], []) && this.limits == limits
    {
      this.limits := limits;
      state, reservations, issued, memory := map[], map[], 0, Memory(map[], []);
    }

    method ReserveTokens(apiKey: string, prompt: u64, generated: u64, minute: u64) returns (r: Reserved64)
      requires Valid()
      modifies this
      ensures Valid()
      ensures var (after, answer) :=
                ReserveIn(old(memory), apiKey, prompt as nat, generated as nat, minute as nat, Wide(limits));
              memory == after &&
              match r
              case Ok(id, left) => answer == Granted(id, Wide(left))
              case Exceeded(kind, remaining, requested) => answer == Denied(kind, remaining as nat, requested as nat)
    {
      ghost var after := ReserveIn(memory, apiKey, prompt as nat, generated as nat, minute as nat, Wide(limits)).0;
      assert MemoryOk(after, Wide(limits)) by {
        ReserveKeepsOk(memory, apiKey, prompt as nat, generated as nat, minute as nat, Wide(limits));
      }
      var counters := if apiKey in state then state[apiKey] else Reset(0);
      assert Within(Used(counters), Wide(limits)) by { assert WindowOk(memory, apiKey, Wide(limits)); }
      if counters.minute != minute {
        counters := Reset(minute);
      }
      r, counters := Admit(counters, prompt, generated, issued);
      memory := after;
      state := state[apiKey := counters];
      if r.Ok? {
        HoldsOneMore(reservations, old(memory), memory, Reservation(apiKey, prompt, generated),
                     memory.windows[apiKey].serial);
        reservations := reservations[issued := Reservation(apiKey, prompt, generated)];
        issued := issued + 1;
      }
    }

    /** The three checks and the three additions of `reserve`, on one key's counters. */
    method Admit(was: WindowCounters, prompt: u64, generated: u64, id: nat)
        returns (r: Reserved64, counters: WindowCounters)
      requires Within(Used(was), Wide(limits))
      ensures var answer := Decide(Used(was), id, prompt as nat, generated as nat, Wide(limits));
              match r
              case Ok(i, left) => answer == Granted(i, Wide(left)) && counters.minute == was.minute &&
                Used(counters) == Plus(Used(was), Charge(1, prompt as nat, generated as nat))
              case Exceeded(kind, remaining, requested) =>
                answer == Denied(kind, remaining as nat, requested as nat) && counters == was
    {
      counters := was;
      var remainingRequests := SaturatingSub(limits.requests, counters.requests);
      if remainingRequests < 1 {
        return Exceeded(Requests, remainingRequests, 1), counters;
      }
      var remainingPrompt := SaturatingSub(limits.prompt, counters.prompt);
      if remainingPrompt < prompt {
        return Exceeded(PromptTokens, remainingPrompt, prompt), counters;
      }
      var remainingGenerated := SaturatingSub(limits.generated, counters.generated);
      if remainingGenerated < generated {
        return Exceeded(GeneratedTokens, remainingGenerated, generated), counters;
      }
      counters := WindowCounters(was.minute, was.requests + 1, was.prompt + prompt, was.generated + generated);
      return Ok(id, Limits(SaturatingSub(limits.requests, counters.requests),
                           SaturatingSub(limits.prompt, counters.prompt),
                           SaturatingSub(limits.generated, counters.generated))), counters;
    }

    /** The first half of `reconcile`: remove the reservation and work out the refund. */
    method TakeReservation(id: nat, actual: u64) returns (pending: Pending)
      requires Valid()
      modifies this
      ensures Valid()
      ensures var (after, taken) := Take(old(memory), id, actual as nat);
              memory == after &&
              match pending
              case Missing => taken == NotFound
              case Nothing => taken == Took(0)
              case ToRefund(apiKey, refund) =>
                taken == Took(refund as nat) && refund > 0 && IsHeld(old(memory), id) &&
                memory.slots[id].phase == Refunding(actual as nat) && apiKey == memory.slots[id].apiKey
    {
      TakeKeepsOk(memory, id, actual as nat, Wide(limits));
      if id !in reservations {
        return Missing;
      }
      var reservation := reservations[id];
      memory := Take(memory, id, actual as nat).0;
      reservations := reservations - {id};
      var refund := SaturatingSub(reservation.reserved, actual);
      if refund == 0 {
        return Nothing;
      }
      return ToRefund(reservation.apiKey, refund);
    }

    /** The second half, possibly much later. */
    method RefundTokens(ghost id: nat, apiKey: string, refund: u64)
      requires Valid()
      requires id < |memory.slots| && memory.slots[id].phase.Refunding? && memory.slots[id].apiKey == apiKey
      requires Monus(memory.slots[id].reserved, memory.slots[id].phase.actual) == refund as nat
      modifies this
      ensures Valid() && memory == GiveBack(old(memory), id)
    {
      GiveBackKeepsOk(memory, id, Wide(limits));
      memory := GiveBack(memory, id);
      if apiKey in state {
        var counters := state[apiKey];
        state := state[apiKey := counters.(generated := SaturatingSub(counters.generated, refund))];
      }
    }
  }
}
