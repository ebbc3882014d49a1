/** Token counting and the three admission policies. */
module TokenBudget {
  import opened Basics
  import opened Text

  datatype Message = Message(role: string, content: string)
  datatype Prompt = Plain(text: string) | Chat(messages: seq<Message>)
  datatype Model = Model(contextLimit: nat, defaultMaxTokens: nat, maxOutputTokens: nat)
  datatype Policy = StrictReject | TruncateOldest | ReserveOutputFirst
  datatype Request = Request(prompt: Prompt, requestedMaxTokens: Option<nat>, policy: Policy, model: Model)
  datatype Reason =
    | Fits
    | OutputReserved
    | AfterTruncating(messages: nat)
    | OverContext(prompt: nat, requested: nat, limit: nat)
    | OverPromptBudget(prompt: nat, budget: nat)
    | OverEvenWhenEmpty
  datatype Decision = Decision(admitted: bool, reason: Reason, promptTokens: nat, requestedMaxTokens: nat,
                               admittedMaxTokens: nat, available: nat, truncated: nat, prompt: Prompt)
  datatype Decided = Ok(decision: Decision) | InvalidContextLimit | InvalidMaxOutputTokens

  function Max(a: nat, b: nat): nat {
    if a < b then b else a
  }

  /** `ApproxTokenCounter`: words, or a quarter of the characters rounded up, at least 1 */
  function CountText(text: string): (tokens: nat)
    ensures 1 <= tokens && |Words(text)| <= tokens && |text| <= 4 * tokens
  {
    Max(Max(|Words(text)|, (|text| + 3) / 4), 1)
  }

  function CountMessages(messages: seq<Message>): nat {
    if messages == [] then 0
    else CountText(messages[0].role) + CountText(messages[0].content) + 4 + CountMessages(messages[1..])
  }

  function CountPrompt(prompt: Prompt): (tokens: nat)
    ensures 1 <= tokens
  {
    match prompt
    case Plain(text) => CountText(text)
    case Chat(messages) => CountMessages(messages) + 2
  }

  /** The count of a text is the least number that is at least 1, at least its words, and at least
      a quarter of its characters. */
  lemma CountIsLeast(text: string, n: nat)
    ensures 1 <= CountText(text) && |Words(text)| <= CountText(text) && |text| <= 4 * CountText(text)
    ensures 1 <= n && |Words(text)| <= n && |text| <= 4 * n ==> CountText(text) <= n
  {
  }

  /** Messages count one by one, each its role, its content and 4; a chat counts 2 more, and a
      plain prompt what its text counts. */
  lemma {:induction false} MessagesAddUp(a: seq<Message>, b: seq<Message>, m: Message, text: string)
    ensures CountMessages(a + b) == CountMessages(a) + CountMessages(b)
    ensures CountMessages([m]) == CountText(m.role) + CountText(m.content) + 4
    ensures CountPrompt(Chat(a)) == CountMessages(a) + 2 && CountPrompt(Chat([])) == 2
    ensures CountPrompt(Plain(text)) == CountText(text)
    decreases |a|
  {
    assert [m][1..] == [];
    if a == [] {
      assert a + b == b;
    } else {
      assert (a + b)[1..] == a[1..] + b;
      MessagesAddUp(a[1..], b, m, text);
    }
  }

  function DecisionOf(admitted: bool, reason: Reason, prompt: Prompt, truncated: nat, requested: nat, model: Model)
      : Decision
  {
    Decision(admitted, reason, CountPrompt(prompt), requested, if admitted then requested else 0,
             Monus(model.contextLimit, CountPrompt(prompt)), truncated, prompt)
  }

  function Strict(prompt: Prompt, requested: nat, model: Model): Decision {
    var tokens := CountPrompt(prompt);
    var admitted := tokens + requested <= model.contextLimit;
    DecisionOf(admitted, if admitted then Fits else OverContext(tokens, requested, model.contextLimit),
               prompt, 0, requested, model)
  }

  function OutputFirst(prompt: Prompt, requested: nat, model: Model): Decision {
    var budget := Monus(model.contextLimit, requested);
    var admitted := CountPrompt(prompt) <= budget;
    DecisionOf(admitted, if admitted then OutputReserved else OverPromptBudget(CountPrompt(prompt), budget),
               prompt, 0, requested, model)
  }

  predicate Fitting(messages: seq<Message>, requested: nat, limit: nat) {
    CountPrompt(Chat(messages)) + requested <= limit
  }

  /** `k` is the fewest oldest messages to drop: what is left fits, or nothing is left,
      and every longer suffix exceeds the limit. */
  predicate FewestDropped(messages: seq<Message>, k: nat, requested: nat, limit: nat) {
    k <= |messages| &&
    (k < |messages| ==> Fitting(messages[k..], requested, limit)) &&
    (forall j :: 0 <= j < k ==> !Fitting(messages[j..], requested, limit))
  }

  /** `truncate_oldest` on a chat */
  method Truncate(messages: seq<Message>, requested: nat, model: Model) returns (d: Decision)
    ensures FewestDropped(messages, d.truncated, requested, model.contextLimit)
    ensures d.prompt == Chat(messages[d.truncated..])
    ensures d == DecisionOf(d.admitted, d.reason, d.prompt, d.truncated, requested, model)
    ensures d.admitted == Fitting(messages[d.truncated..], requested, model.contextLimit)
    ensures d.admitted <==> 2 + requested <= model.contextLimit
    ensures d.truncated == 0 <==> messages == [] || Strict(Chat(messages), requested, model).admitted
    ensures d.reason == if !d.admitted then OverEvenWhenEmpty
                        else if d.truncated > 0 then AfterTruncating(d.truncated) else Fits
  {
    var left := messages;
    var truncated := 0;
    while left != [] && CountPrompt(Chat(left)) + requested > model.contextLimit
      invariant truncated <= |messages| && left == messages[truncated..]
      invariant forall j :: 0 <= j < truncated ==> !Fitting(messages[j..], requested, model.contextLimit)
      decreases |left|
    {
      left := left[1..];
      truncated := truncated + 1;
    }
    var prompt := Chat(left);
    var admitted := CountPrompt(prompt) + requested <= model.contextLimit;
    var reason :=
      if admitted && truncated > 0 then AfterTruncating(truncated)
      else if admitted then Fits else OverEvenWhenEmpty;
    assert messages[0..] == messages;
    d := DecisionOf(admitted, reason, prompt, truncated, requested, model);
  }

  /** Only one number of dropped messages fits that description. */
  lemma FewestIsUnique(messages: seq<Message>, k: nat, j: nat, requested: nat, limit: nat)
    requires FewestDropped(messages, k, requested, limit) && FewestDropped(messages, j, requested, limit)
    ensures k == j
  {
  }

  /** Truncating what was already truncated drops nothing more. */
  lemma TruncatedOnce(messages: seq<Message>, k: nat, requested: nat, limit: nat)
    requires FewestDropped(messages, k, requested, limit)
    ensures FewestDropped(messages[k..], 0, requested, limit)
  {
    if k < |messages| {
      assert messages[k..][0..] == messages[k..];
    }
  }

  /** A model with more room drops no more messages. */
  lemma MoreRoomDropsFewer(messages: seq<Message>, k: nat, j: nat, requested: nat, small: nat, large: nat)
    requires small <= large
    requires FewestDropped(messages, k, requested, small) && FewestDropped(messages, j, requested, large)
    ensures j <= k
  {
    if k < |messages| {
      assert Fitting(messages[k..], requested, large);
    }
  }

  /** With any token counter the two strict policies agree exactly when the prompt counts
      for something or the output alone fits. */
  lemma PoliciesAgreeIff(prompt: nat, requested: nat, limit: nat)
    ensures (prompt + requested <= limit <==> prompt <= Monus(limit, requested)) <==> prompt >= 1 || requested <= limit
  {
  }

  /** This counter never counts a prompt as nothing, so they agree on every request. */
  lemma StrictIsOutputFirst(prompt: Prompt, requested: nat, model: Model)
    ensures var strict := Strict(prompt, requested, model);
            strict == OutputFirst(prompt, requested, model).(reason := strict.reason)
  {
    PoliciesAgreeIff(CountPrompt(prompt), requested, model.contextLimit);
  }

  /** What `decide_budget` asks of the model: the request's bound, or the model's default,
      within the model's maximum. */
  function Requested(request: Request): nat {
    Min(if request.requestedMaxTokens.Some? then request.requestedMaxTokens.value else request.model.defaultMaxTokens,
        request.model.maxOutputTokens)
  }

  /** It is the greatest number within the model's maximum and the request's bound, or the
      model's default where the request has none. */
  lemma RequestedIsGreatest(request: Request, n: nat)
    ensures var bound := request.requestedMaxTokens;
            var most := request.model.maxOutputTokens;
            Requested(request) <= most &&
            (bound.Some? ==> Requested(request) <= bound.value) &&
            (bound == None ==> Requested(request) <= request.model.defaultMaxTokens) &&
            (n <= most && n <= (if bound.Some? then bound.value else request.model.defaultMaxTokens) ==>
               n <= Requested(request))
  {
  }

  /** `decide_budget` */
  method Decide(request: Request) returns (r: Decided)
    ensures r.InvalidContextLimit? <==> request.model.contextLimit == 0
    ensures r.InvalidMaxOutputTokens? <==> request.model.contextLimit > 0 && request.model.maxOutputTokens == 0
    ensures r.Ok? ==>
              var d := r.decision;
              d.requestedMaxTokens == Requested(request) && d.admittedMaxTokens <= request.model.maxOutputTokens &&
              (d.admitted <==> d.promptTokens + d.requestedMaxTokens <= request.model.contextLimit) &&
              d.admittedMaxTokens == (if d.admitted then d.requestedMaxTokens else 0) &&
              d.promptTokens == CountPrompt(d.prompt) &&
              d.available == Monus(request.model.contextLimit, d.promptTokens) &&
              if request.policy == TruncateOldest && request.prompt.Chat?
              then FewestDropped(request.prompt.messages, d.truncated, Requested(request),
                                 request.model.contextLimit) &&
                   d.prompt == Chat(request.prompt.messages[d.truncated..])
              else d.prompt == request.prompt && d.truncated == 0
    ensures r.Ok? ==>
              var d, limit := r.decision, request.model.contextLimit;
              d.reason ==
                match request.policy
                case StrictReject =>
                  if d.admitted then Fits else OverContext(d.promptTokens, d.requestedMaxTokens, limit)
                case ReserveOutputFirst =>
                  if d.admitted then OutputReserved
                  else OverPromptBudget(d.promptTokens, Monus(limit, d.requestedMaxTokens))
                case TruncateOldest =>
                  if d.admitted then if d.truncated > 0 then AfterTruncating(d.truncated) else Fits
                  else if request.prompt.Chat? then OverEvenWhenEmpty
                  else OverContext(d.promptTokens, d.requestedMaxTokens, limit)
  {
    if request.model.contextLimit == 0 { return InvalidContextLimit; }
    if request.model.maxOutputTokens == 0 { return InvalidMaxOutputTokens; }
    var requested := Requested(request);
    match request.policy {
      case StrictReject => return Ok(Strict(request.prompt, requested, request.model));
      case ReserveOutputFirst =>
        StrictIsOutputFirst(request.prompt, requested, request.model);
        return Ok(OutputFirst(request.prompt, requested, request.model));
      case TruncateOldest =>
        if request.prompt.Plain? { return Ok(Strict(request.prompt, requested, request.model)); }
        var d := Truncate(request.prompt.messages, requested, request.model);
        return Ok(d);
    }
  }
}
