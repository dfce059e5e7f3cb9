/** What a run sends, answers and leaves behind, said of the world it meets: the guardrails' verdicts, the
    provider's responses and the tools' attempts. */
module Outcomes {
  import opened Wrappers
  import opened Chat
  import opened Trace
  import opened Cost
  import opened Audit
  import opened Runtime
  import opened RunLaws

  // ---------- What the model is sent ----------

  /** The text that goes to the model for a message: what the request verdict allows, or the message itself
      when there are no guardrails. */
  predicate LetThrough(guardrails: Option<Guardrails>, message: string, text: string) {
    match guardrails
    case None => text == message
    case Some(g) => g.request(message).Allowed? && text == g.request(message).text
  }

  predicate BeginsWith(opening: seq<ChatMessage>, p: Progress) {
    if p.log == [] then p.messages == opening else p.log[0].record.input == Messages(opening)
  }

  lemma HeadsBegin(s: Session, opening: seq<ChatMessage>, k: nat)
    requires HeadAt(s, opening, k).Some?
    ensures BeginsWith(opening, HeadAt(s, opening, k).value)
  {
    var inv := (i: nat, q: Progress) => BeginsWith(opening, q);
    forall i: nat, q: Progress, r: ChatResponse | inv(i, q) && GoesOn(s, i, q, r)
      ensures inv(i + 1, Continued(s, i, q, r))
    {
    }
    var p := HeadInduction(s, opening, k, inv);
  }

  lemma IterationBegins(s: Session, opening: seq<ChatMessage>, k: nat, p: Progress)
    requires BeginsWith(opening, p)
    ensures Iterate(s, k, p).progress.log != [] ==> Iterate(s, k, p).progress.log[0].record.input == Messages(opening)
  {
  }

  /** The first prompt of a run that made any call is the system prompt and the screened user message; the
      unscreened message is sent only when there are no guardrails. The run is the one that
      ConversationIsRecoverable speaks of for this text, which covers every later prompt. */
  lemma FirstPrompt(s: Session, systemPrompt: string, userMessage: string) returns (text: string)
    requires Conduct(s, systemPrompt, userMessage).0.log != []
    ensures LetThrough(s.guardrails, userMessage, text)
    ensures Conduct(s, systemPrompt, userMessage).0.log[0].record.input
         == Messages([ChatMessage(System, systemPrompt, None, None), ChatMessage(User, text, None, None)])
    ensures Conduct(s, systemPrompt, userMessage) == RunFrom(s, 0, Start(Opening(systemPrompt, text)))
  {
    text := ScreenRequest(s, userMessage).text;
    var opening := Opening(systemPrompt, text);
    var n := EndsSomewhere(s, opening, 0);
    HeadsBegin(s, opening, n);
    if n < s.config.maxSteps {
      IterationBegins(s, opening, n, HeadAt(s, opening, n).value);
    }
  }

  // ---------- How a run ends ----------

  /** The last row is the response the provider gave at its iteration, and it asks for no tools. */
  ghost predicate LastAnswer(s: Session, log: seq<StepRow>, r: ChatResponse) {
    && log != [] && IsLlm(log[|log| - 1])
    && log[|log| - 1].record.output == Some(Response(r)) && r.toolCalls == []
    && s.world.replies(log[|log| - 1].stepIndex) == Reply(r)
  }

  /** The response verdict on the last answer. */
  predicate ScreenedAs(guardrails: Option<Guardrails>, content: string, verdict: Screened) {
    match guardrails
    case None => verdict == Allowed(content, [])
    case Some(g) => verdict == g.response(content)
  }

  ghost predicate RefusedAtOnce(s: Session, userMessage: string, p: Progress, exit: Exit) {
    && s.guardrails.Some? && s.guardrails.value.request(userMessage).Blocked?
    && p == Progress([], [], [], 0, 0)
    && exit == Finished(BlockedByGuardrail, None, Some(s.guardrails.value.request(userMessage).reason), 0, [])
  }

  /** Why a run that was not refused at once ended as it did. */
  ghost predicate Justified(s: Session, p: Progress, exit: Exit) {
    match exit
    case Raised(message) => s.world.replies(LlmRows(p.log)) == Escaped(message)
    case Finished(status, output, error, stepCount, hits) =>
      match status
      case Running => false
      case Completed =>
        exists r, text ::
          && LastAnswer(s, p.log, r) && ScreenedAs(s.guardrails, r.message.content, Allowed(text, hits))
          && output == Some(text) && error == None && stepCount == LlmRows(p.log)
      case BlockedByGuardrail =>
        exists r, reason ::
          && LastAnswer(s, p.log, r) && ScreenedAs(s.guardrails, r.message.content, Blocked(reason, hits))
          && output == None && error == Some(reason) && stepCount == LlmRows(p.log)
      case Failed =>
        && p.log != [] && var last := p.log[|p.log| - 1];
        && IsLlm(last) && last.record.output == None && error.Some? && last.record.error == error
        && s.world.replies(last.stepIndex) == ProviderFailure(error.value)
        && output == None && hits == [] && stepCount == LlmRows(p.log)
      case BudgetExceeded =>
        && p.log != [] && IsLlm(p.log[|p.log| - 1]) && Spent(p) > s.config.tokenBudget
        && output == None && error == Some("token budget exceeded") && hits == [] && stepCount == LlmRows(p.log)
      case MaxStepsExceeded =>
        && LlmRows(p.log) == (if s.config.maxSteps < 0 then 0 else s.config.maxSteps) && stepCount == s.config.maxSteps
        && output == None && error == Some("max steps exceeded") && hits == []
  }

  lemma StopIsJustified(s: Session, k: nat, p: Progress)
    requires Iterate(s, k, p).Stop? && LlmRows(p.log) == k
    ensures Justified(s, Iterate(s, k, p).progress, Iterate(s, k, p).exit)
  {
    match s.world.replies(k)
    case Escaped(_) =>
    case ProviderFailure(message) => RowCounted(p.log, FailureRow(s, k, p.messages, message));
    case Reply(r) =>
      RowCounted(p.log, ResponseRow(s, k, p.messages, r));
      if Spent(Billed(s, k, p, r)) <= s.config.tokenBudget {
        AnswerIsJustified(s, k, p, r);
      }
  }

  lemma AnswerIsJustified(s: Session, k: nat, p: Progress, r: ChatResponse)
    requires s.world.replies(k) == Reply(r) && LlmRows(Billed(s, k, p, r).log) == k + 1
    requires r.toolCalls == [] && Spent(Billed(s, k, p, r)) <= s.config.tokenBudget
    ensures Justified(s, Billed(s, k, p, r), AnswerExit(s, k, r.message.content))
  {
    var log := Billed(s, k, p, r).log;
    assert LastAnswer(s, log, r);
    match ScreenResponse(s, r.message.content)
    case Allowed(text, hits) => assert ScreenedAs(s.guardrails, r.message.content, Allowed(text, hits));
    case Blocked(reason, hits) => assert ScreenedAs(s.guardrails, r.message.content, Blocked(reason, hits));
  }

  /** Every run is refused at once by the request verdict, or ends for a reason its status names: completed
      with exactly the text the response verdict allows for the last response, blocked with that verdict's
      reason, failed with the provider's error, over budget, or at the step limit. */
  lemma HowRunsEnd(s: Session, systemPrompt: string, userMessage: string)
    ensures var (p, exit) := Conduct(s, systemPrompt, userMessage);
            if s.guardrails.Some? && s.guardrails.value.request(userMessage).Blocked?
            then RefusedAtOnce(s, userMessage, p, exit)
            else Justified(s, p, exit)
  {
    if ScreenRequest(s, userMessage).Allowed? {
      var opening := Opening(systemPrompt, ScreenRequest(s, userMessage).text);
      var n := EndsSomewhere(s, opening, 0);
      HeadsAreBalanced(s, opening, n);
      if n < s.config.maxSteps {
        StopIsJustified(s, n, HeadAt(s, opening, n).value);
      }
    }
  }

  // ---------- What an LLM call leaves ----------

  /** The row of an LLM call tells what the provider did at its iteration. */
  ghost predicate Tells(s: Session, row: StepRow) {
    if !IsLlm(row) then row.record.providerName == row.record.model == None
    else
      match s.world.replies(row.stepIndex)
      case Reply(r) =>
        && row.record.output == Some(Response(r)) && row.record.error == None && row.record.toolName == None
        && row.record.providerName == Some(r.providerName) && row.record.model == Some(r.model)
        && row.record.inputTokens == r.usage.inputTokens && row.record.outputTokens == r.usage.outputTokens
        && row.record.retryCount == 0
      case ProviderFailure(message) =>
        && row.record.output == None && row.record.error == Some(message)
        && row.record.inputTokens == row.record.outputTokens == 0
      case Escaped(_) => false
  }

  ghost predicate AllTell(s: Session, log: seq<StepRow>) {
    forall i | 0 <= i < |log| :: Tells(s, log[i])
  }

  lemma RoundTells(s: Session, k: nat, p: Progress, r: ChatResponse)
    requires AllTell(s, p.log) && s.world.replies(k) == Reply(r)
    ensures AllTell(s, Billed(s, k, p, r).log) && AllTell(s, Continued(s, k, p, r).log)
  {
    ToolRowsListed(s, k, r.toolCalls);
    assert Tells(s, ResponseRow(s, k, p.messages, r));
    assert forall j | 0 <= j < |r.toolCalls| :: Tells(s, ToolRow(s, k, j, r.toolCalls[j]));
  }

  /** Every row of every run tells what the provider or the tool at its iteration did. */
  lemma RowsTellReplies(s: Session, systemPrompt: string, userMessage: string)
    ensures AllTell(s, Conduct(s, systemPrompt, userMessage).0.log)
  {
    if ScreenRequest(s, userMessage).Allowed? {
      var opening := Opening(systemPrompt, ScreenRequest(s, userMessage).text);
      var n := EndsSomewhere(s, opening, 0);
      var inv := (i: nat, p: Progress) => AllTell(s, p.log);
      forall i: nat, p: Progress, r: ChatResponse | inv(i, p) && GoesOn(s, i, p, r)
        ensures inv(i + 1, Continued(s, i, p, r))
      {
        RoundTells(s, i, p, r);
      }
      var p := HeadInduction(s, opening, n, inv);
      if n < s.config.maxSteps {
        LastTells(s, n, p);
      }
    }
  }

  lemma LastTells(s: Session, k: nat, p: Progress)
    requires AllTell(s, p.log) && Iterate(s, k, p).Stop?
    ensures AllTell(s, Iterate(s, k, p).progress.log)
  {
    match s.world.replies(k)
    case Escaped(_) =>
    case ProviderFailure(message) => assert Tells(s, FailureRow(s, k, p.messages, message));
    case Reply(r) => RoundTells(s, k, p, r);
  }

  predicate HasResponse(row: StepRow) {
    IsLlm(row) && row.record.output.Some?
  }

  predicate ChargeFor(c: Charge, row: StepRow) {
    && row.record.providerName == Some(c.provider) && row.record.model == Some(c.model)
    && row.record.inputTokens == c.inputTokens && row.record.outputTokens == c.outputTokens
    && row.stepIndex == c.iteration
  }

  /** The i-th charge is for the i-th response in the log. */
  ghost predicate ChargedFor(charges: seq<Charge>, responses: seq<StepRow>) {
    |charges| == |responses| && forall i | 0 <= i < |charges| :: ChargeFor(charges[i], responses[i])
  }

  lemma ChargedOneMore(charges: seq<Charge>, responses: seq<StepRow>, c: Charge, row: StepRow)
    requires ChargedFor(charges, responses) && ChargeFor(c, row)
    ensures ChargedFor(charges + [c], responses + [row])
  {
  }

  ghost predicate Charges(p: Progress) {
    ChargedFor(p.charges, Filter(p.log, HasResponse))
  }

  lemma ToolsAskNothing(s: Session, k: nat, log: seq<StepRow>, calls: seq<ToolCall>)
    ensures Filter(log + ToolRows(s, k, calls), HasResponse) == Filter(log, HasResponse)
  {
    ToolRowsListed(s, k, calls);
    FilterConcat(log, ToolRows(s, k, calls), HasResponse);
    FilterNone(ToolRows(s, k, calls), HasResponse);
  }

  lemma BillCharges(s: Session, k: nat, p: Progress, r: ChatResponse)
    requires Charges(p)
    ensures Charges(Billed(s, k, p, r))
  {
    var row := ResponseRow(s, k, p.messages, r);
    var c := Charge(k, r.providerName, r.model, r.usage.inputTokens, r.usage.outputTokens);
    ChargedOneMore(p.charges, Filter(p.log, HasResponse), c, row);
    FilterOne(p.log, row);
  }

  lemma RoundCharges(s: Session, k: nat, p: Progress, r: ChatResponse)
    requires Charges(p)
    ensures Charges(Billed(s, k, p, r)) && Charges(Continued(s, k, p, r))
  {
    BillCharges(s, k, p, r);
    ToolsAskNothing(s, k, Billed(s, k, p, r).log, r.toolCalls);
  }

  lemma FilterOne(log: seq<StepRow>, row: StepRow)
    ensures Filter(log + [row], HasResponse) == Filter(log, HasResponse) + (if HasResponse(row) then [row] else [])
  {
    assert (log + [row])[..|log|] == log;
  }

  lemma StopCharges(s: Session, k: nat, p: Progress)
    requires Charges(p) && Iterate(s, k, p).Stop?
    ensures Charges(Iterate(s, k, p).progress)
  {
    match s.world.replies(k)
    case Escaped(_) =>
    case ProviderFailure(message) =>
      FilterOne(p.log, FailureRow(s, k, p.messages, message));
      assert Filter(p.log, HasResponse) + [] == Filter(p.log, HasResponse);
    case Reply(r) => RoundCharges(s, k, p, r);
  }

  lemma {:induction false} InvoiceAt(pricing: PricingTable, tenant: string, runId: nat, charges: seq<Charge>,
                                     clock: nat -> real, i: nat)
    requires i < |charges|
    ensures |Invoice(pricing, tenant, runId, charges, clock)| == |charges|
    ensures var c := charges[i];
            Invoice(pricing, tenant, runId, charges, clock)[i]
            == CostEntry(tenant, Some(runId), c.provider, c.model, c.inputTokens, c.outputTokens,
                         pricing.EstimateCost(c.provider, c.model, c.inputTokens, c.outputTokens), clock(c.iteration))
  {
    var n := |charges| - 1;
    if i < n {
      InvoiceAt(pricing, tenant, runId, charges[..n], clock, i);
    } else if n > 0 {
      InvoiceAt(pricing, tenant, runId, charges[..n], clock, 0);
    }
  }

  /** Every response is billed exactly once: the i-th cost row of a run is for the i-th response in its log, to
      the run and its tenant, with that response's provider, model and tokens and their price. */
  lemma ResponsesAreBilledOnce(s: Session, systemPrompt: string, userMessage: string, pricing: PricingTable,
                               tenant: string, clock: nat -> real, i: nat)
    ensures var p := Conduct(s, systemPrompt, userMessage).0;
            var responses, bills := Filter(p.log, HasResponse), Invoice(pricing, tenant, s.runId, p.charges, clock);
            && |bills| == |responses|
            && (i < |bills| ==>
                  var record := responses[i].record;
                  && bills[i].tenantId == tenant && bills[i].runId == Some(s.runId)
                  && record.providerName == Some(bills[i].providerName) && record.model == Some(bills[i].model)
                  && record.inputTokens == bills[i].inputTokens && record.outputTokens == bills[i].outputTokens
                  && bills[i].createdAt == clock(responses[i].stepIndex)
                  && bills[i].costUsd == pricing.EstimateCost(bills[i].providerName, bills[i].model,
                                                              bills[i].inputTokens, bills[i].outputTokens))
  {
    var p := Conduct(s, systemPrompt, userMessage).0;
    RunCharges(s, systemPrompt, userMessage);
    InvoiceCarriesTokens(pricing, tenant, s.runId, p.charges, clock);
    if i < |p.charges| {
      InvoiceAt(pricing, tenant, s.runId, p.charges, clock, i);
    }
  }

  lemma RunCharges(s: Session, systemPrompt: string, userMessage: string)
    ensures Charges(Conduct(s, systemPrompt, userMessage).0)
  {
    if ScreenRequest(s, userMessage).Allowed? {
      var opening := Opening(systemPrompt, ScreenRequest(s, userMessage).text);
      var n := EndsSomewhere(s, opening, 0);
      var inv := (i: nat, p: Progress) => Charges(p);
      forall i: nat, p: Progress, r: ChatResponse | inv(i, p) && GoesOn(s, i, p, r)
        ensures inv(i + 1, Continued(s, i, p, r))
      {
        RoundCharges(s, i, p, r);
      }
      var p := HeadInduction(s, opening, n, inv);
      if n < s.config.maxSteps {
        StopCharges(s, n, p);
      }
    }
  }

  // ---------- What a tool call leaves ----------

  /** A call of an unknown tool, or with arguments the tool rejects, is not made; the model is told why. */
  lemma CallNotMade(s: Session, k: nat, j: nat, call: ToolCall)
    requires call.name in s.world.tools ==> s.world.tools[call.name].rejection(call.arguments).Some?
    ensures var record, said := ToolRow(s, k, j, call).record, ToolOutcome(s, k, j, call).content;
            && record.error == Some(if call.name in s.world.tools
                                    then "invalid tool arguments: "
                                         + s.world.tools[call.name].rejection(call.arguments).value
                                    else "unknown tool: " + call.name)
            && record.output == None && record.retryCount == 0 && said == s.world.errorJson(record.error)
  {
    assert |"unknown tool: "| > 0 && |"invalid tool arguments: "| > 0;
  }

  predicate Accepts(s: Session, call: ToolCall) {
    call.name in s.world.tools && s.world.tools[call.name].rejection(call.arguments).None?
  }

  lemma FirstFinalIs(outcomes: nat -> AttemptOutcome, a: nat, limit: nat)
    requires a <= limit && (a < limit ==> Final(outcomes(a))) && forall b: nat | b < a :: !Final(outcomes(b))
    ensures FirstFinal(outcomes, 0, limit) == a
  {
  }

  /** The first attempt that returns, or fails for good, decides: its own result or message is what the model
      is told and what the row stores, with the number of attempts before it. */
  lemma CallSettled(s: Session, k: nat, j: nat, call: ToolCall, a: nat)
    requires Accepts(s, call) && a < s.config.retryMaxAttempts
    requires forall b: nat | b < a :: s.world.attempts(k, j)(b).TimedOut? || s.world.attempts(k, j)(b).Crashed?
    requires s.world.attempts(k, j)(a).Returned? || s.world.attempts(k, j)(a).ToolFailure?
    ensures var record, said := ToolRow(s, k, j, call).record, ToolOutcome(s, k, j, call).content;
            && record.retryCount == a
            && match s.world.attempts(k, j)(a)
               case Returned(json) => said == json && record.output == Some(Result(json)) && record.error == None
               case ToolFailure(message) =>
                 && said == s.world.errorJson(Some(message)) && record.error == Some(message)
                 && (record.output == None || message == "")
  {
    FirstFinalIs(s.world.attempts(k, j), a, AttemptLimit(s.config));
  }

  /** When every attempt times out or crashes, the last one's error is told and stored, and the row counts
      one retry too many. */
  lemma CallExhausted(s: Session, k: nat, j: nat, call: ToolCall)
    requires Accepts(s, call) && s.config.retryMaxAttempts > 0
    requires forall b: nat | b < s.config.retryMaxAttempts ::
               s.world.attempts(k, j)(b).TimedOut? || s.world.attempts(k, j)(b).Crashed?
    ensures var record, said := ToolRow(s, k, j, call).record, ToolOutcome(s, k, j, call).content;
            && record.retryCount == s.config.retryMaxAttempts && said == s.world.errorJson(record.error)
            && match s.world.attempts(k, j)(s.config.retryMaxAttempts - 1)
               case TimedOut => record.error == Some(s.world.tools[call.name].timeoutMessage)
               case Crashed(message) => record.error == Some(message)
               case _ => false
  {
    FirstFinalIs(s.world.attempts(k, j), s.config.retryMaxAttempts, AttemptLimit(s.config));
  }

  /** Each requested call is answered by one tool message with the call's own id and name, and the text its
      execution came to. */
  lemma {:induction false} RepliesListed(s: Session, k: nat, calls: seq<ToolCall>)
    ensures |ToolReplies(s, k, calls)| == |calls|
    ensures forall x | 0 <= x < |calls| ::
              ToolReplies(s, k, calls)[x]
              == ChatMessage(Tool, ToolOutcome(s, k, x, calls[x]).content, Some(calls[x].id), Some(calls[x].name))
  {
    if calls != [] {
      RepliesListed(s, k, calls[..|calls| - 1]);
    }
  }

  // ---------- What the caller gets, the row keeps and replay gives back ----------

  /** The result a caller gets agrees with the stored row, which also keeps what the run was started with. */
  lemma ResultMatchesRow(s: Session, systemPrompt: string, userMessage: string, tenant: string, agentName: string,
                         classification: string, tier: string, startedAt: real, endedAt: real)
    ensures var (p, exit) := Conduct(s, systemPrompt, userMessage);
            var start := NewRun(tenant, agentName, s.config.maxSteps, s.config.tokenBudget, classification, tier,
                                startedAt);
            var row := Closed(Tallied(start, p.log), exit, endedAt);
            && row.tenantId == tenant && row.agentName == agentName && row.dataClassification == classification
            && row.costTier == tier && row.createdAt == startedAt
            && row.maxSteps == s.config.maxSteps && row.tokenBudget == s.config.tokenBudget
            && (match OutcomeOf(s, p, exit)
                case RunRaised(message) =>
                  exit == Raised(message) && row.status == Running && row.completedAt == None
                case RunReturned(result) =>
                  && exit.Finished? && result.runId == s.runId
                  && result.status == exit.status == row.status
                  && result.finalOutput == exit.finalOutput == row.finalOutput
                  && row.error == exit.error && row.completedAt == Some(endedAt)
                  && result.totalInput == p.totalInput == row.totalInput
                  && result.totalOutput == p.totalOutput == row.totalOutput
                  && result.stepCount == exit.stepCount && row.stepCount == |p.log|)
  {
    var pricing := PricingTable(map[], ModelPricing(0.0, 0.0));
    var start := NewRun(tenant, agentName, s.config.maxSteps, s.config.tokenBudget, classification, tier, startedAt);
    LedgersAgreeAtEveryExit(s, systemPrompt, userMessage, start, pricing, tenant, (k: nat) => startedAt, endedAt);
  }

  function InputIn(records: seq<StepRecord>): nat {
    if records == [] then 0 else InputIn(records[..|records| - 1]) + records[|records| - 1].inputTokens
  }

  function OutputIn(records: seq<StepRecord>): nat {
    if records == [] then 0 else OutputIn(records[..|records| - 1]) + records[|records| - 1].outputTokens
  }

  lemma {:induction false} SameTokens(rows: seq<StepRow>, records: seq<StepRecord>)
    requires |rows| == |records| && forall i | 0 <= i < |rows| :: records[i] == rows[i].record
    ensures InputIn(records) == InputTokens(rows) && OutputIn(records) == OutputTokens(rows)
  {
    if rows != [] {
      SameTokens(rows[..|rows| - 1], records[..|records| - 1]);
    }
  }

  lemma {:induction false} TokensWithout(rows: seq<StepRow>, j: nat)
    requires j < |rows|
    ensures InputTokens(rows) == InputTokens(rows[..j] + rows[j + 1..]) + rows[j].record.inputTokens
    ensures OutputTokens(rows) == OutputTokens(rows[..j] + rows[j + 1..]) + rows[j].record.outputTokens
  {
    var n := |rows| - 1;
    if j < n {
      var shorter := rows[..n];
      TokensWithout(shorter, j);
      assert rows[..j] + rows[j + 1..] == shorter[..j] + shorter[j + 1..] + [rows[n]];
      RowAdded(shorter[..j] + shorter[j + 1..], rows[n]);
    } else {
      assert rows[..j] + rows[j + 1..] == rows[..n];
    }
  }

  lemma {:induction false} TokensPermuted(a: seq<StepRow>, b: seq<StepRow>)
    requires multiset(a) == multiset(b)
    ensures InputTokens(a) == InputTokens(b) && OutputTokens(a) == OutputTokens(b)
    decreases |a|
  {
    assert |a| == |multiset(a)| == |multiset(b)| == |b|;
    if a != [] {
      var n := |a| - 1;
      assert a[n] in multiset(b);
      var j :| 0 <= j < |b| && b[j] == a[n];
      WithoutLast(a);
      RowRemoved(b, j);
      TokensPermuted(a[..n], b[..j] + b[j + 1..]);
      TokensWithout(b, j);
    }
  }

  /** Replaying a finished run gives back the status, the output and the totals its caller was told, and each
      total is the sum over the replayed records, whatever order the database picks among ties. */
  lemma ReplayMatchesResult(s: Session, systemPrompt: string, userMessage: string, start: RunRow, endedAt: real,
                            db: Database, tenant: Option<string>, result: AgentRunResult, answer: ReplayedRun)
    requires var (p, exit) := Conduct(s, systemPrompt, userMessage);
             && OutcomeOf(s, p, exit) == RunReturned(result)
             && s.runId in db.runs && db.runs[s.runId] == Closed(Tallied(start, p.log), exit, endedAt)
             && StepsOf(db, s.runId) == p.log
    requires Replays(db, s.runId, tenant, Some(answer))
    ensures answer.runId == result.runId && answer.status == result.status && answer.finalOutput == result.finalOutput
    ensures answer.totalInput == result.totalInput == InputIn(answer.steps)
    ensures answer.totalOutput == result.totalOutput == OutputIn(answer.steps)
  {
    var (p, exit) := Conduct(s, systemPrompt, userMessage);
    var pricing := PricingTable(map[], ModelPricing(0.0, 0.0));
    LedgersAgreeAtEveryExit(s, systemPrompt, userMessage, start, pricing, "", (k: nat) => endedAt, endedAt);
    var rows := ReplayTellsTheRow(db, s.runId, tenant, answer);
    TokensPermuted(rows, p.log);
    SameTokens(rows, answer.steps);
  }

  // ---------- What the audit log keeps ----------

  /** The log grows by one entry per hit of the request verdict, then one per hit of the verdict on the final
      answer, each under the run and its tenant. */
  lemma HitsAreAudited(entries: seq<AuditEntry>, s: Session, tenant: string, userMessage: string, exit: Exit, i: nat)
    ensures var asked := if s.guardrails.Some? then s.guardrails.value.request(userMessage).hits else [];
            var told := if exit.Finished? then exit.hits else [];
            var after := AuditAfter(entries, s, tenant, userMessage, exit);
            && |after| == |entries| + |asked| + |told|
            && (i < |entries| ==> after[i] == entries[i])
            && (i < |asked| ==> after[|entries| + i] == GuardrailFired(tenant, s.runId, OnRequest, asked[i]))
            && (i < |told| ==>
                  after[|entries| + |asked| + i] == GuardrailFired(tenant, s.runId, OnResponse, told[i]))
  {
    EachHitOnce(tenant, s.runId, OnRequest, ScreenRequest(s, userMessage).hits);
    EachHitOnce(tenant, s.runId, OnResponse, if exit.Finished? then exit.hits else []);
  }
}
