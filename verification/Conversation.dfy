/** The conversation a model saw can be rebuilt from the stored step rows alone. */
module Conversation {
  import opened Wrappers
  import opened Chat
  import opened Trace
  import opened Runtime
  import opened RunLaws

  /** Messages so far, and tool calls the last response still waits for. */
  datatype Talk = Talk(messages: seq<ChatMessage>, pending: seq<ToolCall>)

  /** The content of a tool message, from its stored row: the stored result, or the error as JSON. */
  function ContentOf(errorJson: Option<string> -> string, record: StepRecord): string {
    if record.output.Some? && record.output.value.Result? then record.output.value.content
    else errorJson(record.error)
  }

  predicate Answers(record: StepRecord, call: ToolCall) {
    record.kind.ToolUse? && record.toolName == Some(call.name) && record.input == Arguments(call.arguments)
  }

  /** One row read; None when the rows make no conversation. */
  function Read(errorJson: Option<string> -> string, talk: Option<Talk>, row: StepRow): Option<Talk> {
    if talk.None? then None
    else if IsLlm(row) then
      if talk.value.pending != [] || row.record.input != Messages(talk.value.messages) then None
      else if row.record.output.Some? && row.record.output.value.Response? then
        var r := row.record.output.value.response;
        Some(Talk(talk.value.messages + [r.message], r.toolCalls))
      else talk
    else if talk.value.pending == [] || !Answers(row.record, talk.value.pending[0]) then None
    else
      var call := talk.value.pending[0];
      Some(Talk(talk.value.messages + [ToolMessage(call, ContentOf(errorJson, row.record))], talk.value.pending[1..]))
  }

  function ReadFrom(errorJson: Option<string> -> string, talk: Option<Talk>, rows: seq<StepRow>): Option<Talk> {
    if rows == [] then talk
    else Read(errorJson, ReadFrom(errorJson, talk, rows[..|rows| - 1]), rows[|rows| - 1])
  }

  function ReadAll(errorJson: Option<string> -> string, opening: seq<ChatMessage>, rows: seq<StepRow>): Option<Talk> {
    ReadFrom(errorJson, Some(Talk(opening, [])), rows)
  }

  lemma {:induction false} ReadConcat(errorJson: Option<string> -> string, talk: Option<Talk>, a: seq<StepRow>,
                                      b: seq<StepRow>)
    ensures ReadFrom(errorJson, talk, a + b) == ReadFrom(errorJson, ReadFrom(errorJson, talk, a), b)
  {
    if b == [] {
      assert a + b == a;
    } else {
      var n := |b| - 1;
      ReadConcat(errorJson, talk, a, b[..n]);
      assert (a + b)[..|a + b| - 1] == a + b[..n];
    }
  }

  lemma ReadOne(errorJson: Option<string> -> string, talk: Option<Talk>, row: StepRow)
    ensures ReadFrom(errorJson, talk, [row]) == Read(errorJson, talk, row)
  {
    assert [row][..0] == [];
    assert ReadFrom(errorJson, talk, [row][..0]) == talk;
  }

  /** Once the rows make no conversation, more rows do not mend it. */
  lemma {:induction false} NoneStays(errorJson: Option<string> -> string, rows: seq<StepRow>)
    ensures ReadFrom(errorJson, None, rows) == None
  {
    if rows != [] {
      NoneStays(errorJson, rows[..|rows| - 1]);
    }
  }

  /** Tools are registered under their own names. */
  ghost predicate Keyed(world: World) {
    forall name | name in world.tools :: world.tools[name].name == name
  }

  /** The tool messages that rows say answer calls. */
  function Said(errorJson: Option<string> -> string, calls: seq<ToolCall>, rows: seq<StepRow>): seq<ChatMessage>
    requires |calls| == |rows|
  {
    if calls == [] then []
    else
      var n := |calls| - 1;
      Said(errorJson, calls[..n], rows[..n]) + [ToolMessage(calls[n], ContentOf(errorJson, rows[n].record))]
  }

  lemma SaidOneMore(errorJson: Option<string> -> string, calls: seq<ToolCall>, rows: seq<StepRow>, n: nat)
    requires n < |calls| && n < |rows|
    ensures Said(errorJson, calls[..n + 1], rows[..n + 1])
         == Said(errorJson, calls[..n], rows[..n]) + [ToolMessage(calls[n], ContentOf(errorJson, rows[n].record))]
  {
    assert calls[..n + 1][..n] == calls[..n] && rows[..n + 1][..n] == rows[..n];
  }

  /** The talk once the first n calls have been answered by rows. */
  function Answering(errorJson: Option<string> -> string, said: seq<ChatMessage>, calls: seq<ToolCall>,
                     rows: seq<StepRow>): Talk
    requires |rows| <= |calls|
  {
    Talk(said + Said(errorJson, calls[..|rows|], rows), calls[|rows|..])
  }

  lemma AnswerOneMore(errorJson: Option<string> -> string, said: seq<ChatMessage>, calls: seq<ToolCall>,
                      rows: seq<StepRow>)
    requires rows != [] && |rows| <= |calls| && !IsLlm(rows[|rows| - 1])
    ensures Read(errorJson, Some(Answering(errorJson, said, calls, rows[..|rows| - 1])), rows[|rows| - 1])
         == if Answers(rows[|rows| - 1].record, calls[|rows| - 1])
            then Some(Answering(errorJson, said, calls, rows)) else None
  {
    var n := |rows| - 1;
    SaidOneMore(errorJson, calls, rows, n);
    assert rows[..n + 1] == rows;
    assert calls[n..][0] == calls[n] && calls[n..][1..] == calls[n + 1..];
    var earlier := Said(errorJson, calls[..n], rows[..n]);
    var reply := ToolMessage(calls[n], ContentOf(errorJson, rows[n].record));
    assert said + (earlier + [reply]) == said + earlier + [reply];
  }

  predicate AnswerInOrder(calls: seq<ToolCall>, rows: seq<StepRow>) {
    |rows| <= |calls| && forall x | 0 <= x < |rows| :: Answers(rows[x].record, calls[x])
  }

  lemma OneMoreInOrder(calls: seq<ToolCall>, rows: seq<StepRow>)
    requires rows != []
    ensures var n := |rows| - 1;
            AnswerInOrder(calls, rows) <==>
              AnswerInOrder(calls, rows[..n]) && n < |calls| && Answers(rows[n].record, calls[n])
  {
  }

  /** Tool rows read on from a talk exactly when they answer its pending calls one by one. */
  lemma {:induction false} ToolRowsRead(errorJson: Option<string> -> string, said: seq<ChatMessage>,
                                        calls: seq<ToolCall>, rows: seq<StepRow>)
    requires forall x | 0 <= x < |rows| :: !IsLlm(rows[x])
    ensures ReadFrom(errorJson, Some(Talk(said, calls)), rows)
         == if AnswerInOrder(calls, rows) then Some(Answering(errorJson, said, calls, rows)) else None
  {
    if rows == [] {
      assert said + Said(errorJson, calls[..0], rows) == said && calls[0..] == calls;
    } else {
      var n := |rows| - 1;
      ToolRowsRead(errorJson, said, calls, rows[..n]);
      OneMoreInOrder(calls, rows);
      if n < |calls| {
        AnswerOneMore(errorJson, said, calls, rows);
      }
    }
  }

  lemma StoredContentIsSaidContent(s: Session, k: nat, j: nat, call: ToolCall)
    ensures ContentOf(s.world.errorJson, ToolRow(s, k, j, call).record) == ToolOutcome(s, k, j, call).content
  {
    var run := ToolOutcome(s, k, j, call);
    assert run.error.Some? && run.error.value != "" ==> run.content == s.world.errorJson(run.error);
  }

  /** The rows a run stores for its tool calls answer them, and give back what the run told the model. */
  lemma {:induction false} ToolRowsAnswer(s: Session, k: nat, calls: seq<ToolCall>)
    requires Keyed(s.world)
    ensures |ToolRows(s, k, calls)| == |calls|
    ensures forall x | 0 <= x < |calls| :: Answers(ToolRows(s, k, calls)[x].record, calls[x])
    ensures Said(s.world.errorJson, calls, ToolRows(s, k, calls)) == ToolReplies(s, k, calls)
  {
    if calls != [] {
      var n := |calls| - 1;
      ToolRowsAnswer(s, k, calls[..n]);
      StoredContentIsSaidContent(s, k, n, calls[n]);
      assert ToolRows(s, k, calls)[..n] == ToolRows(s, k, calls[..n]);
      assert Answers(ToolRow(s, k, n, calls[n]).record, calls[n]);
    }
  }

  ghost predicate Faithful(s: Session, opening: seq<ChatMessage>, p: Progress) {
    ReadAll(s.world.errorJson, opening, p.log) == Some(Talk(p.messages, []))
  }

  lemma RowReadable(s: Session, opening: seq<ChatMessage>, p: Progress, row: StepRow)
    requires Faithful(s, opening, p)
    ensures ReadAll(s.world.errorJson, opening, p.log + [row])
        == Read(s.world.errorJson, Some(Talk(p.messages, [])), row)
  {
    ReadConcat(s.world.errorJson, Some(Talk(opening, [])), p.log, [row]);
    ReadOne(s.world.errorJson, Some(Talk(p.messages, [])), row);
  }

  lemma RepliesComplete(s: Session, k: nat, said: seq<ChatMessage>, calls: seq<ToolCall>)
    requires Keyed(s.world)
    ensures ReadFrom(s.world.errorJson, Some(Talk(said, calls)), ToolRows(s, k, calls))
         == Some(Talk(said + ToolReplies(s, k, calls), []))
  {
    ToolRowsAnswer(s, k, calls);
    ToolRowsListed(s, k, calls);
    ToolRowsRead(s.world.errorJson, said, calls, ToolRows(s, k, calls));
    assert calls[..|calls|] == calls && calls[|calls|..] == [];
  }

  lemma {:induction false} ResponseIsReadable(s: Session, opening: seq<ChatMessage>, k: nat, p: Progress,
                                              r: ChatResponse)
    requires Keyed(s.world) && Faithful(s, opening, p)
    ensures ReadAll(s.world.errorJson, opening, Billed(s, k, p, r).log)
        == Some(Talk(p.messages + [r.message], r.toolCalls))
    ensures Faithful(s, opening, AfterTools(s, k, Billed(s, k, p, r), r))
  {
    RowReadable(s, opening, p, ResponseRow(s, k, p.messages, r));
    RepliesComplete(s, k, p.messages + [r.message], r.toolCalls);
    ReadConcat(s.world.errorJson, Some(Talk(opening, [])), Billed(s, k, p, r).log, ToolRows(s, k, r.toolCalls));
  }

  lemma HeadsAreFaithful(s: Session, opening: seq<ChatMessage>, k: nat) returns (p: Progress)
    requires Keyed(s.world) && HeadAt(s, opening, k).Some?
    ensures HeadAt(s, opening, k) == Some(p) && Faithful(s, opening, p)
  {
    var inv := (i: nat, q: Progress) => Faithful(s, opening, q);
    forall i: nat, q: Progress, r: ChatResponse | inv(i, q) && GoesOn(s, i, q, r)
      ensures inv(i + 1, Continued(s, i, q, r))
    {
      ResponseIsReadable(s, opening, i, q, r);
    }
    p := HeadInduction(s, opening, k, inv);
  }

  /** Reading a run's rows from first to last succeeds: the messages recorded at every LLM call are
      the ones the rows before it add up to. */
  lemma RunIsReadable(s: Session, systemPrompt: string, text: string)
    requires Keyed(s.world)
    ensures var opening := Opening(systemPrompt, text);
            ReadAll(s.world.errorJson, opening, RunFrom(s, 0, Start(opening)).0.log).Some?
  {
    var opening := Opening(systemPrompt, text);
    var n := EndsSomewhere(s, opening, 0);
    var p := HeadsAreFaithful(s, opening, n);
    if n < s.config.maxSteps {
      EndingIsReadable(s, opening, n, p);
    }
  }

  lemma EndingIsReadable(s: Session, opening: seq<ChatMessage>, k: nat, p: Progress)
    requires Keyed(s.world) && Faithful(s, opening, p) && Iterate(s, k, p).Stop?
    ensures ReadAll(s.world.errorJson, opening, Iterate(s, k, p).progress.log).Some?
  {
    match s.world.replies(k)
    case Escaped(_) =>
    case ProviderFailure(message) => RowReadable(s, opening, p, FailureRow(s, k, p.messages, message));
    case Reply(r) => ResponseIsReadable(s, opening, k, p, r);
  }

  // ---------- From one LLM call to the next ----------

  predicate IsResponse(row: StepRow) {
    IsLlm(row) && row.record.output.Some? && row.record.output.value.Response?
  }

  lemma ReadableParts(errorJson: Option<string> -> string, talk: Option<Talk>, a: seq<StepRow>, b: seq<StepRow>)
    requires ReadFrom(errorJson, talk, a + b).Some?
    ensures ReadFrom(errorJson, talk, a).Some?
    ensures ReadFrom(errorJson, ReadFrom(errorJson, talk, a), b).Some?
  {
    ReadConcat(errorJson, talk, a, b);
    if ReadFrom(errorJson, talk, a).None? {
      NoneStays(errorJson, b);
    }
  }

  lemma TakeApart(rows: seq<StepRow>, i: nat, j: nat)
    requires i < j < |rows|
    ensures rows == rows[..i] + ([rows[i]] + (rows[i + 1..j] + ([rows[j]] + rows[j + 1..])))
  {
    assert rows[i + 1..] == rows[i + 1..j] + ([rows[j]] + rows[j + 1..]);
    assert rows[i..] == [rows[i]] + rows[i + 1..];
    assert rows == rows[..i] + rows[i..];
  }

  /** The messages recorded at one LLM call are those of the previous call, then the assistant's
      message, then one tool message per requested call, in order, with the call's id and name and the
      content its stored row gives; there is exactly one row per call in between. */
  lemma {:induction false} NextPromptFromRows(errorJson: Option<string> -> string, opening: seq<ChatMessage>,
                                              rows: seq<StepRow>, i: nat, j: nat)
    requires ReadAll(errorJson, opening, rows).Some?
    requires i < j < |rows| && IsResponse(rows[i]) && IsLlm(rows[j]) && forall x | i < x < j :: !IsLlm(rows[x])
    ensures var r := rows[i].record.output.value.response;
            && j == i + 1 + |r.toolCalls|
            && rows[i].record.input.Messages?
            && rows[j].record.input
               == Messages(rows[i].record.input.messages + [r.message] + Said(errorJson, r.toolCalls, rows[i + 1..j]))
            && (forall x | 0 <= x < |r.toolCalls| :: Answers(rows[i + 1 + x].record, r.toolCalls[x]))
  {
    var start := Some(Talk(opening, []));
    var before, between := rows[..i], rows[i + 1..j];
    TakeApart(rows, i, j);
    ReadableParts(errorJson, start, before, [rows[i]] + (between + ([rows[j]] + rows[j + 1..])));
    BlockRead(errorJson, ReadFrom(errorJson, start, before), rows[i], between, rows[j], rows[j + 1..]);
    assert forall x | 0 <= x < |between| :: between[x] == rows[i + 1 + x];
  }

  lemma BlockRead(errorJson: Option<string> -> string, talk: Option<Talk>, first: StepRow, between: seq<StepRow>,
                  next: StepRow, rest: seq<StepRow>)
    requires talk.Some? && ReadFrom(errorJson, talk, [first] + (between + ([next] + rest))).Some?
    requires IsResponse(first) && IsLlm(next) && forall x | 0 <= x < |between| :: !IsLlm(between[x])
    ensures var r := first.record.output.value.response;
            && |between| == |r.toolCalls|
            && first.record.input.Messages?
            && next.record.input
                == Messages(first.record.input.messages + [r.message] + Said(errorJson, r.toolCalls, between))
            && (forall x | 0 <= x < |r.toolCalls| :: Answers(between[x].record, r.toolCalls[x]))
  {
    var r := first.record.output.value.response;
    var said := talk.value.messages + [r.message];
    ReadableParts(errorJson, talk, [first], between + ([next] + rest));
    ReadOne(errorJson, talk, first);
    ReadableParts(errorJson, Some(Talk(said, r.toolCalls)), between, [next] + rest);
    ToolRowsRead(errorJson, said, r.toolCalls, between);
    var after := ReadFrom(errorJson, Some(Talk(said, r.toolCalls)), between);
    ReadableParts(errorJson, after, [next], rest);
    ReadOne(errorJson, after, next);
    assert r.toolCalls[..|r.toolCalls|] == r.toolCalls;
  }

  /** Only the last LLM call of a run can lack a response. */
  ghost predicate Answered(rows: seq<StepRow>) {
    forall i | 0 <= i < |rows| && IsLlm(rows[i]) :: IsResponse(rows[i])
  }

  lemma HeadsAreAnswered(s: Session, opening: seq<ChatMessage>, k: nat)
    requires HeadAt(s, opening, k).Some?
    ensures Answered(HeadAt(s, opening, k).value.log)
  {
    var inv := (i: nat, p: Progress) => Answered(p.log);
    forall i: nat, p: Progress, r: ChatResponse | inv(i, p) && GoesOn(s, i, p, r)
      ensures inv(i + 1, Continued(s, i, p, r))
    {
      ToolRowsListed(s, i, r.toolCalls);
      AnsweredJoin(Billed(s, i, p, r).log, ToolRows(s, i, r.toolCalls));
    }
    var p := HeadInduction(s, opening, k, inv);
  }

  lemma AnsweredJoin(a: seq<StepRow>, b: seq<StepRow>)
    requires Answered(a) && Answered(b)
    ensures Answered(a + b)
  {
  }

  lemma LaterCallMeansResponse(s: Session, opening: seq<ChatMessage>, i: nat, j: nat)
    requires var log := RunFrom(s, 0, Start(opening)).0.log;
             i < j < |log| && IsLlm(log[i]) && IsLlm(log[j])
    ensures IsResponse(RunFrom(s, 0, Start(opening)).0.log[i])
  {
    var n := EndsSomewhere(s, opening, 0);
    var p := HeadAt(s, opening, n).value;
    HeadsAreAnswered(s, opening, n);
    assert n < s.config.maxSteps ==> |Iterate(s, n, p).progress.log| <= |p.log| + 1;
  }

  /** In every run the first LLM call records the opening messages, and every later one the messages
      that the stored rows before it determine. */
  lemma ConversationIsRecoverable(s: Session, systemPrompt: string, text: string, i: nat, j: nat)
    requires Keyed(s.world)
    requires var log := RunFrom(s, 0, Start(Opening(systemPrompt, text))).0.log;
             i < j < |log| && IsLlm(log[i]) && IsLlm(log[j]) && forall x | i < x < j :: !IsLlm(log[x])
    ensures var log := RunFrom(s, 0, Start(Opening(systemPrompt, text))).0.log;
            && log[0].record.input == Messages(Opening(systemPrompt, text))
            && IsResponse(log[i]) && log[i].record.input.Messages?
            && var r := log[i].record.output.value.response;
            && j == i + 1 + |r.toolCalls|
            && log[j].record.input == Messages(
                 log[i].record.input.messages + [r.message] + Said(s.world.errorJson, r.toolCalls, log[i + 1..j]))
            && (forall x | 0 <= x < |r.toolCalls| :: Answers(log[i + 1 + x].record, r.toolCalls[x]))
  {
    var opening := Opening(systemPrompt, text);
    var log := RunFrom(s, 0, Start(opening)).0.log;
    RunIsReadable(s, systemPrompt, text);
    LaterCallMeansResponse(s, opening, i, j);
    NextPromptFromRows(s.world.errorJson, opening, log, i, j);
    assert log == [log[0]] + log[1..];
    ReadableParts(s.world.errorJson, Some(Talk(opening, [])), [log[0]], log[1..]);
    ReadOne(s.world.errorJson, Some(Talk(opening, [])), log[0]);
  }
}
