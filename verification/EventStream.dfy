/** Reading a model's server-sent events: chunks into lines, lines into published tokens
    and usage. */
module EventStream {
  import opened Sequences
  import opened Basics
  import opened Text

  /** What the JSON of one event says; `completion` is a reported token count. */
  datatype ModelEvent = ModelEvent(prompt: Option<nat>, completion: Option<nat>, finish: Option<string>, text: string)
  datatype Usage = Usage(prompt: nat, generated: nat, finish: string)
  datatype Published = Published(text: string, cumulative: nat)

  /** The attempt so far; `failed` once a line does not parse. */
  datatype Progress = Progress(usage: Usage, tokens: seq<Published>, failed: bool)

  const Fresh := Progress(Usage(0, 0, ""), [], false)

  /** `estimate_tokens(text).max(1)` for a text, nothing for none */
  function Weight(text: string): nat {
    if text == "" then 0 else if Words(text) == [] then 1 else |Words(text)|
  }

  /** The least count that is at least the words, and at least 1 for a text. */
  lemma WeightIsLeast(text: string, n: nat)
    ensures |Words(text)| <= Weight(text) && (text != "" ==> 1 <= Weight(text))
    ensures |Words(text)| <= n && (text != "" ==> 1 <= n) ==> Weight(text) <= n
  {
  }

  function Accept(p: Progress, e: ModelEvent): Progress {
    var reported := if e.completion.Some? then e.completion.value else p.usage.generated;
    var usage := Usage(if e.prompt.Some? then e.prompt.value else p.usage.prompt, reported + Weight(e.text),
                       if e.finish.Some? then e.finish.value else p.usage.finish);
    p.(usage := usage, tokens := p.tokens + if e.text == "" then [] else [Published(e.text, usage.generated)])
  }

  const Prefix := "data:"

  /** The data of a line without its newline, if it carries an event. */
  function DataOf(raw: string): Option<string> {
    var line := TrimReturns(raw);
    if |line| < |Prefix| || line[..|Prefix|] != Prefix then None
    else
      var data := Trim(line[|Prefix|..]);
      if data == "[DONE]" || data == "" then None else Some(data)
  }

  /** What a line with an event looks like: the prefix, and the data among white space. */
  predicate Frames(raw: string, a: string, data: string, b: string) {
    raw == Prefix + a + data + b && AllSpace(a) && AllSpace(b) && Trimmed(data) && data != "" && data != "[DONE]"
  }

  /** Exactly such lines carry an event, and it is that data. */
  lemma DataIff(raw: string, data: string)
    ensures DataOf(raw) == Some(data) <==> exists a, b :: Frames(raw, a, data, b)
  {
    if DataOf(raw) == Some(data) {
      var ends := ReturnsParts(raw);
      var line := TrimReturns(raw);
      var a, b := TrimParts(line[|Prefix|..]);
      assert line == Prefix + line[|Prefix|..];
      assert raw == Prefix + a + data + (b + ends);
      assert Frames(raw, a, data, b + ends);
    }
    forall a, b | Frames(raw, a, data, b) ensures DataOf(raw) == Some(data) {
      DataOfFrame(raw, a, data, b);
    }
  }

  lemma DataOfFrame(raw: string, a: string, data: string, b: string)
    requires Frames(raw, a, data, b)
    ensures DataOf(raw) == Some(data)
  {
    var ends := ReturnsParts(raw);
    var line, front := TrimReturns(raw), Prefix + a + data;
    ReturnsAreBehind(raw, front, ends);
    var b' := line[|front|..];
    assert line == front + b' && raw == line + ends;
    assert AllSpace(b') by {
      forall i | 0 <= i < |b'| ensures IsSpace(b'[i]) { assert b'[i] == raw[|front| + i] == b[i]; }
    }
    assert line[..|Prefix|] == Prefix && line[|Prefix|..] == a + data + b';
    TrimOf(a, data, b');
  }

  /** The carriage returns at the end are all behind the data. */
  lemma ReturnsAreBehind(raw: string, front: string, ends: string)
    requires raw == TrimReturns(raw) + ends && AllSpace(ends)
    requires |front| <= |raw| && raw[..|front|] == front && front != "" && !IsSpace(front[|front| - 1])
    ensures |front| <= |TrimReturns(raw)| && TrimReturns(raw)[..|front|] == front
  {
    var line := TrimReturns(raw);
    assert raw[|front| - 1] == front[|front| - 1];
    assert forall i :: |line| <= i < |raw| ==> raw[i] == ends[i - |line|];
    assert |front| - 1 < |line|;
    assert line[..|front|] == raw[..|front|];
  }

  function TakeLine(p: Progress, raw: string, parse: string -> Option<ModelEvent>): Progress {
    match DataOf(raw)
    case None => p
    case Some(data) =>
      match parse(data)
      case None => p.(failed := true)
      case Some(e) => Accept(p, e)
  }

  function TakeLines(p: Progress, lines: seq<string>, parse: string -> Option<ModelEvent>): Progress
    decreases |lines|
  {
    if lines == [] || p.failed then p else TakeLines(TakeLine(p, lines[0], parse), lines[1..], parse)
  }

  // ----- lines -----

  /** The position of the first newline, or the length. */
  function FindNewline(s: string): (n: nat)
    ensures n <= |s| && (forall i :: 0 <= i < n ==> s[i] != '\n') && (n < |s| ==> s[n] == '\n')
  {
    NewlineFrom(s, 0)
  }

  function NewlineFrom(s: string, from: nat): (n: nat)
    requires from <= |s|
    ensures from <= n <= |s| && (forall i :: from <= i < n ==> s[i] != '\n') && (n < |s| ==> s[n] == '\n')
    decreases |s| - from
  {
    if from == |s| || s[from] == '\n' then from else NewlineFrom(s, from + 1)
  }

  /** The newline-terminated lines of a text, and what follows the last newline. */
  function Lines(s: string): seq<string>
    decreases |s|
  {
    var n := FindNewline(s);
    if n == |s| then [] else [s[..n]] + Lines(s[n + 1..])
  }

  function Tail(s: string): string
    decreases |s|
  {
    var n := FindNewline(s);
    if n == |s| then s else Tail(s[n + 1..])
  }

  lemma FindOnly(s: string, n: nat)
    requires n <= |s| && (forall i :: 0 <= i < n ==> s[i] != '\n') && (n < |s| ==> s[n] == '\n')
    ensures FindNewline(s) == n
  {
  }

  lemma FirstLine(a: string, b: string)
    requires FindNewline(a) < |a|
    ensures var n := FindNewline(a);
            Lines(a + b) == [a[..n]] + Lines(a[n + 1..] + b) && Tail(a + b) == Tail(a[n + 1..] + b)
  {
    var n := FindNewline(a);
    FindOnly(a + b, n);
    assert (a + b)[..n] == a[..n] && (a + b)[n + 1..] == a[n + 1..] + b;
  }

  lemma {:induction false} LinesInTwo(a: string, b: string)
    ensures Lines(a + b) == Lines(a) + Lines(Tail(a) + b)
    ensures Tail(a + b) == Tail(Tail(a) + b)
    decreases |a|
  {
    var n := FindNewline(a);
    if n == |a| {
      assert Lines(a) == [] && Tail(a) == a;
      assert [] + Lines(a + b) == Lines(a + b);
    } else {
      FirstLine(a, b);
      OwnFirstLine(a);
      LinesInTwo(a[n + 1..], b);
      Regrouped([a[..n]], Lines(a[n + 1..]), Lines(Tail(a) + b));
    }
  }

  lemma OwnFirstLine(a: string)
    requires FindNewline(a) < |a|
    ensures var n := FindNewline(a); Lines(a) == [a[..n]] + Lines(a[n + 1..]) && Tail(a) == Tail(a[n + 1..])
  {
  }

  lemma {:induction false} TakeInTwo(p: Progress, a: seq<string>, b: seq<string>, parse: string -> Option<ModelEvent>)
    ensures TakeLines(p, a + b, parse) == TakeLines(TakeLines(p, a, parse), b, parse)
    decreases |a|
  {
    if a == [] {
      assert a + b == b;
    } else if !p.failed {
      assert (a + b)[1..] == a[1..] + b;
      TakeInTwo(TakeLine(p, a[0], parse), a[1..], b, parse);
    }
  }

  // ----- the reader -----

  datatype Streamed = Ok(usage: Usage) | Failed

  /** `stream_openai_compatible`: published tokens and usage depend on the text of the whole
      stream, not on where it was cut into chunks; text after the last newline is not
      looked at.  `broken` is an error instead of a further chunk. */
  method StreamChunks(chunks: seq<string>, broken: bool, parse: string -> Option<ModelEvent>, promptEstimate: nat)
      returns (r: Streamed, tokens: seq<Published>)
    ensures var whole := TakeLines(Fresh, Lines(Joined(chunks)), parse);
            tokens == whole.tokens && (r.Failed? <==> broken || whole.failed) &&
            (r.Ok? ==>
               r.usage == if whole.usage.prompt == 0 then whole.usage.(prompt := promptEstimate) else whole.usage)
  {
    var buffer, progress := "", Fresh;
    var i := 0;
    while i < |chunks| && !progress.failed
      invariant 0 <= i <= |chunks|
      invariant progress == TakeLines(Fresh, Lines(Joined(chunks[..i])), parse)
      invariant !progress.failed ==> buffer == Tail(Joined(chunks[..i]))
    {
      JoinedOneMore(chunks, i);
      LinesInTwo(Joined(chunks[..i]), chunks[i]);
      TakeInTwo(Fresh, Lines(Joined(chunks[..i])), Lines(buffer + chunks[i]), parse);
      buffer, progress := DrainLines(buffer + chunks[i], progress, parse);
      i := i + 1;
    }
    tokens := progress.tokens;
    if progress.failed {
      FailureStays(chunks, i, |chunks|, parse);
      assert chunks[..|chunks|] == chunks;
      return Failed, tokens;
    }
    assert chunks[..i] == chunks;
    if broken {
      return Failed, tokens;
    }
    var usage := progress.usage;
    if usage.prompt == 0 {
      usage := usage.(prompt := promptEstimate);
    }
    return Ok(usage), tokens;
  }

  /** The inner loop: as long as there is a newline, drain a line and take it. */
  method DrainLines(text: string, was: Progress, parse: string -> Option<ModelEvent>)
      returns (buffer: string, progress: Progress)
    requires !was.failed
    ensures progress == TakeLines(was, Lines(text), parse)
    ensures !progress.failed ==> buffer == Tail(text)
  {
    buffer, progress := text, was;
    var newline := FindNewline(buffer);
    while newline < |buffer|
      invariant newline == FindNewline(buffer) && !progress.failed
      invariant TakeLines(progress, Lines(buffer), parse) == TakeLines(was, Lines(text), parse)
      invariant Tail(buffer) == Tail(text)
      decreases |buffer|
    {
      var line := buffer[..newline];
      ghost var lines := Lines(buffer);
      assert lines[0] == line && lines[1..] == Lines(buffer[newline + 1..]);
      buffer := buffer[newline + 1..];
      progress := TakeLine(progress, line, parse);
      if progress.failed { return; }
      newline := FindNewline(buffer);
    }
  }

  lemma {:induction false} FailureStays(chunks: seq<string>, i: nat, j: nat, parse: string -> Option<ModelEvent>)
    requires i <= j <= |chunks| && TakeLines(Fresh, Lines(Joined(chunks[..i])), parse).failed
    ensures TakeLines(Fresh, Lines(Joined(chunks[..j])), parse) == TakeLines(Fresh, Lines(Joined(chunks[..i])), parse)
    decreases j
  {
    if i < j {
      var early, whole := Joined(chunks[..j - 1]), Joined(chunks[..j]);
      assert whole == early + chunks[j - 1] by { JoinedOneMore(chunks, j - 1); }
      FailureStays(chunks, i, j - 1, parse);
      FailedBefore(early, chunks[j - 1], whole, parse);
    }
  }

  lemma FailedBefore(early: string, more: string, whole: string, parse: string -> Option<ModelEvent>)
    requires whole == early + more && TakeLines(Fresh, Lines(early), parse).failed
    ensures TakeLines(Fresh, Lines(whole), parse) == TakeLines(Fresh, Lines(early), parse)
  {
    LinesInTwo(early, more);
    TakeInTwo(Fresh, Lines(early), Lines(Tail(early) + more), parse);
  }

  /** A line that does not parse ends it: what was published before it stays published. */
  lemma FailsThere(lines: seq<string>, k: nat, parse: string -> Option<ModelEvent>)
    requires k < |lines| && !TakeLines(Fresh, lines[..k], parse).failed
    requires DataOf(lines[k]).Some? && parse(DataOf(lines[k]).value) == None
    ensures TakeLines(Fresh, lines, parse) == TakeLines(Fresh, lines[..k], parse).(failed := true)
  {
    var p := TakeLines(Fresh, lines[..k], parse);
    assert lines == lines[..k] + lines[k..];
    TakeInTwo(Fresh, lines[..k], lines[k..], parse);
    assert lines[k..][0] == lines[k];
    assert TakeLines(p, lines[k..], parse) == TakeLines(TakeLine(p, lines[k], parse), lines[k..][1..], parse);
  }

  /** The lines, each with its newline, and the tail are the text. */
  function Rejoined(lines: seq<string>): string {
    if lines == [] then "" else lines[0] + "\n" + Rejoined(lines[1..])
  }

  lemma {:induction false} LinesAreTheText(s: string)
    ensures Rejoined(Lines(s)) + Tail(s) == s
    decreases |s|
  {
    var n := FindNewline(s);
    if n < |s| {
      var line, more := s[..n], s[n + 1..];
      LinesAreTheText(more);
      var rest := Rejoined(Lines(more));
      assert Lines(s) == [line] + Lines(more) && Tail(s) == Tail(more) by { OwnFirstLine(s); }
      assert Rejoined(Lines(s)) == line + "\n" + rest by { RejoinedFirst(line, Lines(more)); }
      Regrouped(line + "\n", rest, Tail(more));
      NewlineAt(s, n);
    } else {
      assert Lines(s) == [] && Tail(s) == s;
      assert Rejoined([]) == "";
    }
  }

  lemma NewlineAt(s: string, n: nat)
    requires n < |s| && s[n] == '\n'
    ensures s == s[..n] + "\n" + s[n + 1..]
  {
  }

  lemma {:induction false} LinesHaveNoNewline(s: string)
    ensures '\n' !in Tail(s)
    ensures forall k :: 0 <= k < |Lines(s)| ==> '\n' !in Lines(s)[k]
    decreases |s|
  {
    var n := FindNewline(s);
    if n < |s| {
      LinesHaveNoNewline(s[n + 1..]);
      OwnFirstLine(s);
    }
  }

  lemma RejoinedFirst(line: string, lines: seq<string>)
    ensures Rejoined([line] + lines) == line + "\n" + Rejoined(lines)
  {
    assert ([line] + lines)[1..] == lines;
  }

  // ----- the count -----

  function AcceptAll(events: seq<ModelEvent>): Progress {
    if events == [] then Fresh else Accept(AcceptAll(events[..|events| - 1]), events[|events| - 1])
  }

  /** The events that the lines carry, if all of them parse. */
  function EventsOf(lines: seq<string>, parse: string -> Option<ModelEvent>): seq<ModelEvent> {
    if lines == [] then []
    else
      var rest := EventsOf(lines[..|lines| - 1], parse);
      match DataOf(lines[|lines| - 1])
      case None => rest
      case Some(data) => if parse(data).Some? then rest + [parse(data).value] else rest
  }

  lemma {:induction false} LinesAreEvents(lines: seq<string>, parse: string -> Option<ModelEvent>)
    requires !TakeLines(Fresh, lines, parse).failed
    ensures TakeLines(Fresh, lines, parse) == AcceptAll(EventsOf(lines, parse))
    decreases |lines|
  {
    if lines != [] {
      var n := |lines| - 1;
      assert lines == lines[..n] + [lines[n]];
      TakeInTwo(Fresh, lines[..n], [lines[n]], parse);
      LinesAreEvents(lines[..n], parse);
      var rest := EventsOf(lines[..n], parse);
      var p := TakeLines(Fresh, lines[..n], parse);
      assert [lines[n]][1..] == [];
      assert TakeLines(p, [lines[n]], parse) == TakeLine(p, lines[n], parse);
      var all := EventsOf(lines, parse);
      if all != rest { assert all[..|all| - 1] == rest; }
    }
  }

  /** The last event that reports a count, or none. */
  function LastReport(events: seq<ModelEvent>): (n: Option<nat>)
    ensures n.Some? ==> n.value < |events| && events[n.value].completion.Some?
    ensures n.Some? ==> forall i :: n.value < i < |events| ==> events[i].completion == None
    ensures n == None ==> forall i :: 0 <= i < |events| ==> events[i].completion == None
  {
    if events == [] then None
    else if events[|events| - 1].completion.Some? then Some(|events| - 1)
    else LastReport(events[..|events| - 1])
  }

  function WeightFrom(events: seq<ModelEvent>, from: nat): nat {
    if |events| <= from then 0 else WeightFrom(events[..|events| - 1], from) + Weight(events[|events| - 1].text)
  }

  /** The count after some events: the last reported one, or 0, plus the weight of the texts in
      that event and the later ones. */
  function CountOf(events: seq<ModelEvent>): nat {
    var report := LastReport(events);
    if report.Some? then events[report.value].completion.value + WeightFrom(events, report.value)
    else WeightFrom(events, 0)
  }

  /** The count settled at the end is the last reported one, or 0, plus the weight of the
      texts in that event and the later ones. */
  lemma {:induction false} CountIsLastReportAndLater(events: seq<ModelEvent>)
    ensures AcceptAll(events).usage.generated == CountOf(events)
  {
    if events != [] {
      var n := |events| - 1;
      CountIsLastReportAndLater(events[..n]);
      if events[n].completion.Some? { assert WeightFrom(events[..n], n) == 0; }
    }
  }

  lemma OneMoreAccepted(events: seq<ModelEvent>, i: nat)
    requires i < |events|
    ensures AcceptAll(events[..i + 1]) == Accept(AcceptAll(events[..i]), events[i])
  {
    assert events[..i + 1][..i] == events[..i];
  }

  lemma {:induction false} TokensStay(events: seq<ModelEvent>, i: nat, j: nat)
    requires i <= j <= |events|
    ensures AcceptAll(events[..i]).tokens <= AcceptAll(events[..j]).tokens
    decreases j
  {
    if i < j {
      TokensStay(events, i, j - 1);
      var before, after := AcceptAll(events[..j - 1]), AcceptAll(events[..j]);
      assert after == Accept(before, events[j - 1]) by { OneMoreAccepted(events, j - 1); }
      assert before.tokens <= after.tokens;
    }
  }

  /** What is published: for each event in turn its text, if it has one, with the count of the
      events through that one; and nothing else. */
  lemma TextsArePublished(events: seq<ModelEvent>, i: nat)
    requires i < |events|
    ensures AcceptAll([]).tokens == [] && AcceptAll(events[..|events|]) == AcceptAll(events)
    ensures var j, n := |AcceptAll(events[..i]).tokens|, |AcceptAll(events[..i + 1]).tokens|;
            AcceptAll(events[..i + 1]).tokens <= AcceptAll(events).tokens &&
            if events[i].text == "" then n == j
            else n == j + 1 && AcceptAll(events).tokens[j] == Published(events[i].text, CountOf(events[..i + 1]))
  {
    assert events[..|events|] == events;
    OneMoreAccepted(events, i);
    TokensStay(events, i + 1, |events|);
    CountIsLastReportAndLater(events[..i + 1]);
  }

  /** The finish reason and the prompt count are the last reported ones, or none. */
  lemma {:induction false} LastReportedUsage(events: seq<ModelEvent>, i: nat)
    ensures (forall k :: 0 <= k < |events| ==> events[k].finish == None) ==> AcceptAll(events).usage.finish == ""
    ensures i < |events| && events[i].finish.Some? && (forall k :: i < k < |events| ==> events[k].finish == None) ==>
              AcceptAll(events).usage.finish == events[i].finish.value
    ensures (forall k :: 0 <= k < |events| ==> events[k].prompt == None) ==> AcceptAll(events).usage.prompt == 0
    ensures i < |events| && events[i].prompt.Some? && (forall k :: i < k < |events| ==> events[k].prompt == None) ==>
              AcceptAll(events).usage.prompt == events[i].prompt.value
  {
    if events != [] { LastReportedUsage(events[..|events| - 1], i); }
  }
}
