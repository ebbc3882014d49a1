/** From an admitted request to its final charge: the frontend's admission, and a
    generation on the synthetic backend. */
module Admission {
  import opened Basics
  import opened QuotaBook
  import opened QuotaScripts
  import opened Text
  import opened TokenBudget

  datatype GenerateRequest = GenerateRequest(model: string, messages: seq<Message>, prompt: string, maxTokens: nat)
  datatype Served = Served(id: string, budget: Model)

  /** What is sent to the engine. */
  datatype Dispatched = Dispatched(reservation: nat, promptTokens: nat, maxTokens: nat,
                                   messages: seq<Message>, prompt: string)
  datatype Admitted =
    | Accepted(job: Dispatched)
    | BadRequest
    | UnknownModel
    | OverQuota(kind: QuotaKind)
    | DispatchFailed

  /** `request_prompt`: messages win over a plain prompt, and one of them is required. */
  function RequestPrompt(request: GenerateRequest): Option<Prompt> {
    if request.messages != [] then Some(Chat(request.messages))
    else if request.prompt == "" then None
    else Some(Plain(request.prompt))
  }

  /** What `decide_budget` is asked. */
  function BudgetOf(request: GenerateRequest, served: Served, prompt: Prompt): Request {
    Request(prompt, if request.maxTokens > 0 then Some(request.maxTokens) else None, StrictReject, served.budget)
  }

  predicate KnownModel(request: GenerateRequest, served: Served) {
    request.model == "" || request.model == served.id
  }

  /** The prompt and the output asked for fit the model. */
  predicate Fits(request: GenerateRequest, served: Served) {
    RequestPrompt(request).Some? && served.budget.contextLimit > 0 && served.budget.maxOutputTokens > 0 &&
    var prompt := RequestPrompt(request).value;
    CountPrompt(prompt) + Requested(BudgetOf(request, served, prompt)) <= served.budget.contextLimit
  }

  /** The reservation that is asked for. */
  function AskedOf(request: GenerateRequest, served: Served, bucket: Bucket, limits: Charge): Op
    requires RequestPrompt(request).Some?
  {
    var prompt := RequestPrompt(request).value;
    Reserve(bucket, CountPrompt(prompt), Requested(BudgetOf(request, served, prompt)), limits)
  }

  function ReplyTo(q: Quota, op: Op): Reply
    requires op.Reserve?
  {
    ReserveReply(q, op.bucket, op.prompt, op.generated, op.limits)
  }

  /** `admit_and_dispatch` after authentication, in its order: budget, reserve, publish, and
      cancel when publishing fails.  `published` says how the publication went. */
  method Admit(keys: KeySpace, bucket: Bucket, request: GenerateRequest, served: Served, limits: Charge,
               published: bool)
      returns (r: Admitted)
    requires keys.Valid()
    modifies keys
    ensures keys.Valid() && keys.now == old(keys.now)
    ensures r.UnknownModel? <==> RequestPrompt(request).Some? && !KnownModel(request, served)
    ensures r.BadRequest? <==>
              RequestPrompt(request) == None || (KnownModel(request, served) && !Fits(request, served))
    ensures Fits(request, served) && KnownModel(request, served) ==>
              var asked := AskedOf(request, served, bucket, limits);
              var reply := ReplyTo(old(keys.Ledger()), asked);
              (r.OverQuota? <==> reply.Refused?) && (r.OverQuota? ==> r.kind == reply.kind) &&
              (r.DispatchFailed? <==> reply.Admitted? && !published) &&
              (r.Accepted? <==> reply.Admitted? && published) &&
              (r.Accepted? ==>
                 r.job == Dispatched(|old(keys.book)|, asked.prompt, asked.generated,
                                     request.messages, request.prompt) &&
                 keys.Ledger() == Do(old(keys.Ledger()), asked)) &&
              (r.DispatchFailed? ==>
                 keys.book == old(keys.book) + [Entry(bucket, asked.prompt, asked.generated, keys.now, Cancelled)])
    ensures r.BadRequest? || r.UnknownModel? || r.OverQuota? ==> keys.Ledger() == old(keys.Ledger())
    ensures r.Accepted? ==>
              r.job.promptTokens + r.job.maxTokens <= served.budget.contextLimit &&
              r.job.maxTokens <= served.budget.maxOutputTokens &&
              (request.maxTokens > 0 ==> r.job.maxTokens <= request.maxTokens) &&
              r.job.reservation < |keys.book| &&
              keys.book[r.job.reservation] ==
                Entry(bucket, r.job.promptTokens, r.job.maxTokens, keys.now, Reserved)
  {
    if RequestPrompt(request) == None {
      return BadRequest;
    }
    if request.model != "" && request.model != served.id {
      return UnknownModel;
    }
    var budget := Decide(BudgetOf(request, served, RequestPrompt(request).value));
    if !budget.Ok? || !budget.decision.admitted {
      return BadRequest;
    }
    var prompt, maxTokens := budget.decision.promptTokens, budget.decision.admittedMaxTokens;
    var reply := keys.Reserve(bucket, prompt, maxTokens, limits);
    if reply.Refused? {
      return OverQuota(reply.kind);
    }
    if !published {
      CancelNewest(old(keys.Ledger()), Entry(bucket, prompt, maxTokens, keys.now, Reserved));
      var cancelled := keys.Cancel(reply.id);
      return DispatchFailed;
    }
    return Accepted(Dispatched(reply.id, prompt, maxTokens, request.messages, request.prompt));
  }

  lemma CancelNewest(q: Quota, e: Entry)
    requires e.outcome == Reserved && e.madeAt == q.now
    ensures Do(q.(book := q.book + [e]), Cancel(|q.book|)).book == q.book + [e.(outcome := Cancelled)]
  {
  }

  /** A reservation cancelled on the spot charges nothing.  But it has renewed the counters'
      expiry: from then on they read what they read now, for another 120 s. */
  lemma CancelUndoesReserve(q: Quota, gone: Entry, b: Bucket, later: nat)
    requires WellTimed(q) && q.now <= later && gone.outcome == Cancelled && gone.madeAt == q.now
    ensures Total(q.book + [gone], b) == Total(q.book, b)
    ensures Usage(q.book + [gone], b, later) ==
              if b != gone.bucket then Usage(q.book, b, later)
              else if later < q.now + TTL then Usage(q.book, b, q.now) else Zero
    ensures Usage(q.book + [gone], b, q.now) == Usage(q.book, b, q.now)
  {
    NothingCharged(q.book, gone, b, later);
    NothingCharged(q.book, gone, b, q.now);
    assert Total(q.book + [gone], b) == if gone.bucket == b then Plus(Zero, Total(q.book, b)) else Total(q.book, b) by {
      TotalAppend(q.book, gone, b);
    }
  }

  lemma NothingCharged(book: seq<Entry>, gone: Entry, b: Bucket, horizon: nat)
    requires gone.outcome == Cancelled
    ensures Usage(book + [gone], b, horizon) ==
              if b != gone.bucket then Usage(book, b, horizon)
              else if horizon < gone.madeAt + TTL then Usage(book, b, gone.madeAt) else Zero
  {
    var before, after := Usage(book, b, gone.madeAt), Usage(book + [gone], b, horizon);
    assert b == gone.bucket ==> after == if gone.madeAt + TTL <= horizon then Zero else Plus(Zero, before) by {
      UsageAppend(book, gone, b, horizon);
    }
    assert b != gone.bucket ==> after == Usage(book, b, horizon) by { UsageAppend(book, gone, b, horizon); }
  }

  /** So the cancelled reservation can be noticed later on, exactly in a bucket whose counters
      held something, between their old expiry and the new one. */
  lemma ProlongedIff(q: Quota, gone: Entry, later: nat)
    requires WellTimed(q) && q.now <= later && gone.outcome == Cancelled && gone.madeAt == q.now
    ensures Usage(q.book + [gone], gone.bucket, later) != Usage(q.book, gone.bucket, later) <==>
              Usage(q.book, gone.bucket, q.now) != Zero &&
              LastAt(q.book, gone.bucket).Some? && LastAt(q.book, gone.bucket).value + TTL <= later < q.now + TTL
  {
    NothingCharged(q.book, gone, gone.bucket, later);
    UsageByTheClock(q.book, gone.bucket, q.now);
    UsageByTheClock(q.book, gone.bucket, later);
    LastNotLate(q, gone.bucket);
  }

  // ----- the synthetic backend -----

  datatype Chunk = Chunk(text: string, cumulative: nat)

  /** `extract_prompt` */
  function ExtractPrompt(job: Dispatched): string {
    if job.messages != [] then Joined(job.messages) else job.prompt
  }

  function Joined(messages: seq<Message>): string {
    if messages == [] then ""
    else if |messages| == 1 then messages[0].content
    else messages[0].content + "\n" + Joined(messages[1..])
  }

  /** Contents are joined in order, with a line break between any two. */
  lemma {:induction false} JoinedInTwo(a: seq<Message>, b: seq<Message>)
    requires a != [] && b != []
    ensures Joined(a + b) == Joined(a) + "\n" + Joined(b)
    ensures |a| == 1 ==> Joined(a) == a[0].content
  {
    assert (a + b)[1..] == a[1..] + b;
    if |a| > 1 {
      JoinedInTwo(a[1..], b);
      Apart(a[0].content + "\n", Joined(a[1..]), "\n" + Joined(b));
      Apart(Joined(a[1..]), "\n", Joined(b));
      Apart(Joined(a), "\n", Joined(b));
    } else {
      assert a[1..] + b == b;
    }
  }

  lemma Apart(a: string, b: string, c: string)
    ensures a + (b + c) == a + b + c
  {
  }

  /** The prompt the engine reads is the one that was counted: the messages if there are any, and
      the plain prompt only without them. */
  lemma EngineReadsWhatWasCounted(request: GenerateRequest, job: Dispatched)
    requires job.messages == request.messages && job.prompt == request.prompt
    ensures RequestPrompt(request) == None <==> request.messages == [] && request.prompt == ""
    ensures match RequestPrompt(request)
            case None => true
            case Some(Chat(messages)) => messages == request.messages && ExtractPrompt(job) == Joined(messages)
            case Some(Plain(text)) => request.messages == [] && text == request.prompt && ExtractPrompt(job) == text
  {
  }

  const Lead := "Generated response for: "

  /** The words the synthetic backend has to say. */
  function SyntheticWords(job: Dispatched): seq<string> {
    Words(Lead + ExtractPrompt(job))
  }

  /** `stream_synthetic`: the words of a fixed sentence and the prompt, each with the count
      so far, at most `maxTokens` of them. */
  method StreamSynthetic(job: Dispatched) returns (chunks: seq<Chunk>, generated: nat)
    ensures |chunks| == generated == Min(|SyntheticWords(job)|, job.maxTokens)
    ensures forall i :: 0 <= i < |chunks| ==> chunks[i] == Chunk(SyntheticWords(job)[i] + " ", i + 1)
  {
    var all := SyntheticWords(job);
    var words := all[..Min(|all|, job.maxTokens)];
    assert forall i :: 0 <= i < |words| ==> words[i] == all[i];
    chunks := [];
    for index := 0 to |words|
      invariant |chunks| == index
      invariant forall i :: 0 <= i < index ==> chunks[i] == Chunk(words[i] + " ", i + 1)
    {
      chunks := chunks + [Chunk(words[index] + " ", index + 1)];
    }
    generated := |words|;
  }

  /** A request from admission to settlement, with whatever else happens to the ledger in
      between: what was published never exceeds what was reserved, and the final charge is
      exactly what was published if the settlement finds the record alive, or nothing was left
      to refund. */
  method Generate(keys: KeySpace, bucket: Bucket, request: GenerateRequest, served: Served, limits: Charge,
                  others: seq<Op>)
      returns (r: Admitted, chunks: seq<Chunk>)
    requires keys.Valid() && forall k :: 0 <= k < |others| ==> !Settles(others[k], |keys.book|)
    modifies keys
    ensures keys.Valid()
    ensures r.Accepted? ==>
              |chunks| <= r.job.maxTokens && r.job.promptTokens + |chunks| <= served.budget.contextLimit &&
              r.job.reservation < |keys.book| &&
              (keys.now < old(keys.now) + TTL || |chunks| == r.job.maxTokens <==>
                 Cost(keys.book[r.job.reservation]) == Charge(1, r.job.promptTokens, |chunks|))
    ensures !r.Accepted? ==> chunks == []
  {
    chunks := [];
    r := Admit(keys, bucket, request, served, limits, true);
    if r.Accepted? {
      ghost var reserved := keys.Ledger();
      var generated: nat;
      Perform(keys, others);
      chunks, generated := StreamSynthetic(r.job);
      var refund := keys.Reconcile(r.job.reservation, generated);
      FinalCharge(reserved, r.job.reservation, others, generated);
    }
  }

  /** What a reservation is charged after its settlement, if nobody settled it before. */
  lemma FinalCharge(q: Quota, id: nat, others: seq<Op>, actual: nat)
    requires id < |q.book| && q.book[id].outcome == Reserved
    requires forall k :: 0 <= k < |others| ==> !Settles(others[k], id)
    ensures var e, q' := q.book[id], Do(Run(q, others), Reconcile(id, actual));
            id < |q'.book| && q'.now == Run(q, others).now &&
            Cost(q'.book[id]) ==
              Charge(1, e.prompt, if q'.now < e.madeAt + TTL then Min(e.generated, actual) else e.generated)
  {
    LeftAlone(q, others, id);
  }
}
