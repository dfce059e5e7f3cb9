/** The agent runtime: the tool-calling loop, the tool retry loop, and what they leave in the trace
    and cost tables. Providers, tools and guardrails are oracles. */
module Runtime {
  import opened Wrappers
  import opened Chat
  import opened Trace
  import opened Cost
  import opened Audit

  datatype AgentConfig = AgentConfig(maxSteps: int, tokenBudget: int, retryMaxAttempts: int, backoffBase: real)

  /** What the router gives back at one iteration. Escaped is any exception that is no ProviderError:
      nothing in the loop catches it. */
  datatype RouteReply = Reply(response: ChatResponse) | ProviderFailure(message: string) | Escaped(message: string)

  /** One attempt at a tool: its result as JSON, a ToolExecutionError, a timeout, or any other exception. */
  datatype AttemptOutcome = Returned(json: string) | ToolFailure(message: string) | TimedOut | Crashed(message: string)

  /** rejection is the argument model's verdict: None accepts. */
  datatype RegisteredTool = RegisteredTool(name: string, timeoutMessage: string, rejection: string -> Option<string>)

  datatype Screened = Allowed(text: string, hits: seq<GuardrailHit>) | Blocked(reason: string, hits: seq<GuardrailHit>)

  datatype Guardrails = Guardrails(request: string -> Screened, response: string -> Screened)

  /** replies is indexed by iteration, attempts by iteration, position of the call and attempt;
      errorJson is json.dumps of an error object. */
  datatype World = World(
    replies: nat -> RouteReply, tools: map<string, RegisteredTool>,
    attempts: (nat, nat) -> (nat -> AttemptOutcome), errorJson: Option<string> -> string)

  // ---------- Tool execution ----------

  datatype ToolRun = ToolRun(content: string, error: Option<string>, retryCount: int)

  predicate Final(outcome: AttemptOutcome) {
    outcome.Returned? || outcome.ToolFailure?
  }

  function MessageOf(tool: RegisteredTool, outcome: AttemptOutcome): string {
    match outcome
    case TimedOut => tool.timeoutMessage
    case Crashed(message) => message
    case ToolFailure(message) => message
    case Returned(_) => ""
  }

  /** The first attempt below limit that is not retried, or limit. */
  function FirstFinal(outcomes: nat -> AttemptOutcome, from: nat, limit: nat): (a: nat)
    requires from <= limit
    ensures from <= a <= limit && (a < limit ==> Final(outcomes(a)))
    ensures forall b: nat | from <= b < a :: !Final(outcomes(b))
    decreases limit - from
  {
    if from == limit || Final(outcomes(from)) then from else FirstFinal(outcomes, from + 1, limit)
  }

  function AttemptLimit(cfg: AgentConfig): nat {
    if cfg.retryMaxAttempts < 0 then 0 else cfg.retryMaxAttempts
  }

  /** What an attempt that is not retried comes to. */
  function Settled(errorJson: Option<string> -> string, outcome: AttemptOutcome, attempt: nat): ToolRun
    requires Final(outcome)
  {
    if outcome.Returned? then ToolRun(outcome.json, None, attempt)
    else ToolRun(errorJson(Some(outcome.message)), Some(outcome.message), attempt)
  }

  /** What the attempts at an accepted call come to. */
  function Attempted(cfg: AgentConfig, errorJson: Option<string> -> string, tool: RegisteredTool,
                     outcomes: nat -> AttemptOutcome): ToolRun {
    var limit := AttemptLimit(cfg);
    var a := FirstFinal(outcomes, 0, limit);
    if a == limit then
      var last := if limit == 0 then None else Some(MessageOf(tool, outcomes(limit - 1)));
      ToolRun(errorJson(last), last, cfg.retryMaxAttempts)
    else Settled(errorJson, outcomes(a), a)
  }

  function RunTool(cfg: AgentConfig, errorJson: Option<string> -> string, tool: RegisteredTool,
                   arguments: string, outcomes: nat -> AttemptOutcome): ToolRun {
    match tool.rejection(arguments)
    case Some(why) =>
      var error := "invalid tool arguments: " + why;
      ToolRun(errorJson(Some(error)), Some(error), 0)
    case None => Attempted(cfg, errorJson, tool, outcomes)
  }

  function Pow2(n: nat): (p: nat)
    ensures p >= 1
  {
    if n == 0 then 1 else 2 * Pow2(n - 1)
  }

  /** The back-off after a failed attempt. */
  function Delay(base: real, attempt: nat): real {
    base * Pow2(attempt) as real
  }

  /** What r retries sleep in all: base * 2^i before retry i + 1. */
  function BackedOff(base: real, r: nat): real {
    if r == 0 then 0.0 else BackedOff(base, r - 1) + Delay(base, r - 1)
  }

  lemma {:induction false} BackedOffIsGeometric(base: real, r: nat)
    ensures BackedOff(base, r) == base * (Pow2(r) - 1) as real
  {
    if r > 0 {
      BackedOffIsGeometric(base, r - 1);
      var x: real := Pow2(r - 1) as real;
      assert base * (x - 1.0) + base * x == base * (2.0 * x - 1.0);
    }
  }

  /** One attempt: what it comes to, or the error to remember. */
  method Attempt(errorJson: Option<string> -> string, tool: RegisteredTool, outcome: AttemptOutcome, attempt: nat)
    returns (done: Option<ToolRun>, lastError: Option<string>)
    ensures if Final(outcome) then done == Some(Settled(errorJson, outcome, attempt))
            else done == None && lastError == Some(MessageOf(tool, outcome))
  {
    done, lastError := None, None;
    match outcome {
      case Returned(json) =>
        done := Some(ToolRun(json, None, attempt));
      case ToolFailure(message) =>
        done := Some(ToolRun(errorJson(Some(message)), Some(message), attempt));
      case TimedOut =>
        lastError := Some(tool.timeoutMessage);
      case Crashed(message) =>
        lastError := Some(message);
    }
  }

  /** The retry loop. calls is how often the tool was run, slept the total back-off: its effects outside. */
  method Retry(cfg: AgentConfig, errorJson: Option<string> -> string, tool: RegisteredTool,
               outcomes: nat -> AttemptOutcome)
    returns (run: ToolRun, calls: nat, slept: real)
    ensures run == Attempted(cfg, errorJson, tool, outcomes)
    ensures calls <= AttemptLimit(cfg)
    ensures slept == BackedOff(cfg.backoffBase, if calls == 0 then 0 else calls - 1)
    ensures forall a: nat | a + 1 < calls :: !Final(outcomes(a))
    ensures if calls > 0 && Final(outcomes(calls - 1)) then run.retryCount == calls - 1
            else calls == AttemptLimit(cfg) && run.retryCount == cfg.retryMaxAttempts
  {
    calls, slept := 0, 0.0;
    var lastError: Option<string> := None;
    var attempt := 0;
    while attempt < cfg.retryMaxAttempts
      invariant 0 <= attempt <= AttemptLimit(cfg) && calls == attempt
      invariant forall a: nat | a < attempt :: !Final(outcomes(a))
      invariant lastError == if attempt == 0 then None else Some(MessageOf(tool, outcomes(attempt - 1)))
      invariant slept == BackedOff(cfg.backoffBase, if 0 < attempt == AttemptLimit(cfg) then attempt - 1 else attempt)
    {
      calls := calls + 1;
      var done, error := Attempt(errorJson, tool, outcomes(attempt), attempt);
      if done.Some? {
        return done.value, calls, slept;
      }
      lastError := error;
      if attempt < cfg.retryMaxAttempts - 1 {
        slept := slept + Delay(cfg.backoffBase, attempt);
      }
      attempt := attempt + 1;
    }
    run := ToolRun(errorJson(lastError), lastError, cfg.retryMaxAttempts);
  }

  method ExecuteToolWithRetry(cfg: AgentConfig, errorJson: Option<string> -> string, tool: RegisteredTool,
                              arguments: string, outcomes: nat -> AttemptOutcome)
    returns (run: ToolRun, calls: nat, slept: real)
    ensures run == RunTool(cfg, errorJson, tool, arguments, outcomes)
    ensures calls <= AttemptLimit(cfg)
    ensures slept == BackedOff(cfg.backoffBase, if calls == 0 then 0 else calls - 1)
    ensures forall a: nat | a + 1 < calls :: !Final(outcomes(a))
    ensures tool.rejection(arguments).Some? ==> calls == 0 && run.retryCount == 0
    ensures calls > 0 && Final(outcomes(calls - 1)) ==> run.retryCount == calls - 1
    ensures tool.rejection(arguments).None? && (calls == 0 || !Final(outcomes(calls - 1))) ==>
              calls == AttemptLimit(cfg) && run.retryCount == cfg.retryMaxAttempts
  {
    var rejected := tool.rejection(arguments);
    if rejected.Some? {
      var error := "invalid tool arguments: " + rejected.value;
      return ToolRun(errorJson(Some(error)), Some(error), 0), 0, 0.0;
    }
    run, calls, slept := Retry(cfg, errorJson, tool, outcomes);
  }

  // ---------- One run, as a function of its world ----------

  datatype Session = Session(config: AgentConfig, world: World, guardrails: Option<Guardrails>, runId: nat)

  datatype Charge = Charge(iteration: nat, provider: string, model: string, inputTokens: nat, outputTokens: nat)

  /** The loop's variables, and what it has written: the step rows and the recorded charges. */
  datatype Progress = Progress(
    messages: seq<ChatMessage>, log: seq<StepRow>, charges: seq<Charge>, totalInput: nat, totalOutput: nat)

  /** hits are those of the screening of the final answer, if there was one. */
  datatype Exit =
    | Finished(status: RunStatus, finalOutput: Option<string>, error: Option<string>, stepCount: int,
               hits: seq<GuardrailHit>)
    | Raised(message: string)

  datatype TurnEnd = Next(progress: Progress) | Stop(progress: Progress, exit: Exit)

  function ToolOutcome(s: Session, k: nat, j: nat, call: ToolCall): ToolRun {
    if call.name in s.world.tools then
      RunTool(s.config, s.world.errorJson, s.world.tools[call.name], call.arguments, s.world.attempts(k, j))
    else
      var error := "unknown tool: " + call.name;
      ToolRun(s.world.errorJson(Some(error)), Some(error), 0)
  }

  /** An empty error text counts as no error when the output is stored. */
  function ToolRow(s: Session, k: nat, j: nat, call: ToolCall): StepRow {
    var run := ToolOutcome(s, k, j, call);
    StepRow(s.runId, k, StepRecord(
      ToolUse, Arguments(call.arguments),
      if run.error.Some? && run.error.value != "" then None else Some(Result(run.content)), run.error,
      None, None, Some(if call.name in s.world.tools then s.world.tools[call.name].name else call.name),
      0, 0, run.retryCount))
  }

  function ToolRows(s: Session, k: nat, calls: seq<ToolCall>): seq<StepRow> {
    if calls == [] then []
    else
      var n := |calls| - 1;
      ToolRows(s, k, calls[..n]) + [ToolRow(s, k, n, calls[n])]
  }

  function ToolReplies(s: Session, k: nat, calls: seq<ToolCall>): seq<ChatMessage> {
    if calls == [] then []
    else
      var n := |calls| - 1;
      ToolReplies(s, k, calls[..n]) + [ToolMessage(calls[n], ToolOutcome(s, k, n, calls[n]).content)]
  }

  function FailureRow(s: Session, k: nat, messages: seq<ChatMessage>, message: string): StepRow {
    StepRow(s.runId, k, StepRecord(LlmCall, Messages(messages), None, Some(message), None, None, None, 0, 0, 0))
  }

  function ResponseRow(s: Session, k: nat, messages: seq<ChatMessage>, r: ChatResponse): StepRow {
    StepRow(s.runId, k, StepRecord(LlmCall, Messages(messages), Some(Response(r)), None,
                                   Some(r.providerName), Some(r.model), None,
                                   r.usage.inputTokens, r.usage.outputTokens, 0))
  }

  function ScreenResponse(s: Session, text: string): Screened {
    if s.guardrails.Some? then s.guardrails.value.response(text) else Allowed(text, [])
  }

  /** The response is recorded and charged before anything is decided on it. */
  function Billed(s: Session, k: nat, p: Progress, r: ChatResponse): Progress {
    Progress(p.messages, p.log + [ResponseRow(s, k, p.messages, r)],
             p.charges + [Charge(k, r.providerName, r.model, r.usage.inputTokens, r.usage.outputTokens)],
             p.totalInput + r.usage.inputTokens, p.totalOutput + r.usage.outputTokens)
  }

  function AfterTools(s: Session, k: nat, p: Progress, r: ChatResponse): Progress {
    p.(messages := p.messages + [r.message] + ToolReplies(s, k, r.toolCalls),
       log := p.log + ToolRows(s, k, r.toolCalls))
  }

  function Iterate(s: Session, k: nat, p: Progress): TurnEnd {
    match s.world.replies(k)
    case Escaped(message) => Stop(p, Raised(message))
    case ProviderFailure(message) =>
      Stop(p.(log := p.log + [FailureRow(s, k, p.messages, message)]),
           Finished(RunStatus.Failed, None, Some(message), k + 1, []))
    case Reply(r) =>
      var q := Billed(s, k, p, r);
      if q.totalInput + q.totalOutput > s.config.tokenBudget then
        Stop(q, Finished(BudgetExceeded, None, Some("token budget exceeded"), k + 1, []))
      else if r.toolCalls != [] then
        Next(AfterTools(s, k, q, r))
      else Stop(q, AnswerExit(s, k, r.message.content))
  }

  function AnswerExit(s: Session, k: nat, content: string): (exit: Exit)
    ensures exit.Finished? && exit.stepCount == k + 1
  {
    match ScreenResponse(s, content)
    case Blocked(reason, hits) => Finished(BlockedByGuardrail, None, Some(reason), k + 1, hits)
    case Allowed(text, hits) => Finished(Completed, Some(text), None, k + 1, hits)
  }

  function RunFrom(s: Session, k: nat, p: Progress): (Progress, Exit)
    decreases s.config.maxSteps - k
  {
    if k >= s.config.maxSteps then
      (p, Finished(MaxStepsExceeded, None, Some("max steps exceeded"), s.config.maxSteps, []))
    else match Iterate(s, k, p)
      case Stop(q, exit) => (q, exit)
      case Next(q) => RunFrom(s, k + 1, q)
  }

  function Opening(systemPrompt: string, userMessage: string): seq<ChatMessage> {
    [Plain(System, systemPrompt), Plain(User, userMessage)]
  }

  function Start(messages: seq<ChatMessage>): Progress {
    Progress(messages, [], [], 0, 0)
  }

  function ScreenRequest(s: Session, text: string): Screened {
    if s.guardrails.Some? then s.guardrails.value.request(text) else Allowed(text, [])
  }

  function Conduct(s: Session, systemPrompt: string, userMessage: string): (Progress, Exit) {
    match ScreenRequest(s, userMessage)
    case Blocked(reason, _) => (Start([]), Finished(BlockedByGuardrail, None, Some(reason), 0, []))
    case Allowed(text, _) => RunFrom(s, 0, Start(Opening(systemPrompt, text)))
  }

  /** What the guardrails' hits on the final answer leave in the audit log. */
  function AuditedAtEnd(tenant: string, runId: nat, exit: Exit): seq<AuditEntry> {
    if exit.Finished? then HitEntries(tenant, runId, OnResponse, exit.hits) else []
  }

  /** The audit log after a run: its hits on the request, then those on its final answer. */
  function AuditAfter(entries: seq<AuditEntry>, s: Session, tenant: string, userMessage: string,
                      exit: Exit): seq<AuditEntry> {
    entries + HitEntries(tenant, s.runId, OnRequest, ScreenRequest(s, userMessage).hits)
            + AuditedAtEnd(tenant, s.runId, exit)
  }

  // ---------- The tables ----------

  function InputTokens(rows: seq<StepRow>): nat {
    if rows == [] then 0 else InputTokens(rows[..|rows| - 1]) + rows[|rows| - 1].record.inputTokens
  }

  function OutputTokens(rows: seq<StepRow>): nat {
    if rows == [] then 0 else OutputTokens(rows[..|rows| - 1]) + rows[|rows| - 1].record.outputTokens
  }

  function Tallied(run: RunRow, rows: seq<StepRow>): RunRow {
    run.(stepCount := |rows|, totalInput := InputTokens(rows), totalOutput := OutputTokens(rows))
  }

  function Closed(run: RunRow, exit: Exit, now: real): RunRow {
    match exit
    case Raised(_) => run
    case Finished(status, finalOutput, error, _, _) =>
      run.(status := status, finalOutput := finalOutput, error := error, completedAt := Some(now))
  }

  function Invoice(pricing: PricingTable, tenant: string, runId: nat, charges: seq<Charge>,
                   clock: nat -> real): seq<CostEntry> {
    if charges == [] then []
    else
      var c := charges[|charges| - 1];
      Invoice(pricing, tenant, runId, charges[..|charges| - 1], clock)
        + [CostEntry(tenant, Some(runId), c.provider, c.model, c.inputTokens, c.outputTokens,
                     pricing.EstimateCost(c.provider, c.model, c.inputTokens, c.outputTokens), clock(c.iteration))]
  }

  lemma RowAdded(rows: seq<StepRow>, row: StepRow)
    ensures InputTokens(rows + [row]) == InputTokens(rows) + row.record.inputTokens
    ensures OutputTokens(rows + [row]) == OutputTokens(rows) + row.record.outputTokens
  {
  }

  lemma ChargeAdded(pricing: PricingTable, tenant: string, runId: nat, charges: seq<Charge>, c: Charge,
                    clock: nat -> real)
    ensures Invoice(pricing, tenant, runId, charges + [c], clock)
         == Invoice(pricing, tenant, runId, charges, clock)
            + [CostEntry(tenant, Some(runId), c.provider, c.model, c.inputTokens, c.outputTokens,
                         pricing.EstimateCost(c.provider, c.model, c.inputTokens, c.outputTokens), clock(c.iteration))]
  {
  }

  lemma OneMoreCall(s: Session, k: nat, calls: seq<ToolCall>, j: nat, heard: seq<ChatMessage>, log: seq<StepRow>)
    requires j < |calls|
    ensures log + ToolRows(s, k, calls[..j + 1]) == log + ToolRows(s, k, calls[..j]) + [ToolRow(s, k, j, calls[j])]
    ensures heard + ToolReplies(s, k, calls[..j + 1])
         == heard + ToolReplies(s, k, calls[..j]) + [ToolMessage(calls[j], ToolOutcome(s, k, j, calls[j]).content)]
  {
    assert calls[..j + 1][..j] == calls[..j];
  }

  datatype AgentRunResult = AgentRunResult(
    runId: nat, status: RunStatus, finalOutput: Option<string>, totalInput: nat, totalOutput: nat, stepCount: int)

  datatype RunOutcome = RunReturned(result: AgentRunResult) | RunRaised(message: string)

  function OutcomeOf(s: Session, p: Progress, exit: Exit): RunOutcome {
    match exit
    case Raised(message) => RunRaised(message)
    case Finished(status, finalOutput, _, stepCount, _) =>
      RunReturned(AgentRunResult(s.runId, status, finalOutput, p.totalInput, p.totalOutput, stepCount))
  }

  class AgentRuntime {
    const trace: TraceStore
    const costs: CostTracker?
    const config: AgentConfig
    const guardrails: Option<Guardrails>
    const audit: AuditStore?

    constructor (trace: TraceStore, costs: CostTracker?, config: AgentConfig, guardrails: Option<Guardrails>,
                 audit: AuditStore?)
      ensures this.trace == trace && this.costs == costs && this.config == config && this.guardrails == guardrails
      ensures this.audit == audit
    {
      this.audit := audit;
      this.trace := trace;
      this.costs := costs;
      this.config := config;
      this.guardrails := guardrails;
    }

    /** The tables hold what they held before the run, plus the run's row and its log. */
    ghost predicate Holds(runs: map<nat, RunRow>, steps: seq<StepRow>, id: nat, run: RunRow, log: seq<StepRow>)
      reads trace
    {
      trace.runs == runs[id := Tallied(run, log)] && trace.steps == steps + log
    }

    method Write(row: StepRow, ghost runs: map<nat, RunRow>, ghost steps: seq<StepRow>, ghost run: RunRow,
                 ghost log: seq<StepRow>)
      requires Holds(runs, steps, row.runId, run, log)
      modifies trace
      ensures Holds(runs, steps, row.runId, run, log + [row])
    {
      trace.Record(row.runId, row.stepIndex, row.record);
      RowAdded(log, row);
    }

    /** One tool call: its content, and its row in the trace. */
    method CallTool(s: Session, k: nat, j: nat, call: ToolCall,
                    ghost runs: map<nat, RunRow>, ghost steps: seq<StepRow>, ghost run: RunRow, ghost log: seq<StepRow>)
      returns (content: string)
      requires s.config == config && Holds(runs, steps, s.runId, run, log)
      modifies trace
      ensures content == ToolOutcome(s, k, j, call).content
      ensures Holds(runs, steps, s.runId, run, log + [ToolRow(s, k, j, call)])
    {
      var done: ToolRun;
      var name := call.name;
      if call.name !in s.world.tools {
        var error := "unknown tool: " + call.name;
        done := ToolRun(s.world.errorJson(Some(error)), Some(error), 0);
      } else {
        var tool := s.world.tools[call.name];
        var tries, slept;
        done, tries, slept := ExecuteToolWithRetry(config, s.world.errorJson, tool, call.arguments,
                                                   s.world.attempts(k, j));
        name := tool.name;
      }
      var stored := if done.error.Some? && done.error.value != "" then None else Some(Result(done.content));
      Write(StepRow(s.runId, k, StepRecord(
              ToolUse, Arguments(call.arguments), stored, done.error, None, None, Some(name), 0, 0, done.retryCount)),
            runs, steps, run, log);
      content := done.content;
    }

    /** The loop over the tool calls of one response. */
    method CallTools(s: Session, k: nat, calls: seq<ToolCall>, heard: seq<ChatMessage>,
                     ghost runs: map<nat, RunRow>, ghost steps: seq<StepRow>, ghost run: RunRow,
                     ghost log: seq<StepRow>)
      returns (messages: seq<ChatMessage>)
      requires s.config == config && Holds(runs, steps, s.runId, run, log)
      modifies trace
      ensures messages == heard + ToolReplies(s, k, calls)
      ensures Holds(runs, steps, s.runId, run, log + ToolRows(s, k, calls))
    {
      messages := heard;
      assert log + ToolRows(s, k, calls[..0]) == log;
      for j := 0 to |calls|
        invariant messages == heard + ToolReplies(s, k, calls[..j])
        invariant Holds(runs, steps, s.runId, run, log + ToolRows(s, k, calls[..j]))
      {
        var content := CallTool(s, k, j, calls[j], runs, steps, run, log + ToolRows(s, k, calls[..j]));
        messages := messages + [ToolMessage(calls[j], content)];
        OneMoreCall(s, k, calls, j, heard, log);
      }
      assert calls[..|calls|] == calls;
    }

    method Bill(tenant: string, runId: nat, r: ChatResponse, k: nat, clock: nat -> real,
                  ghost rows: seq<CostEntry>, ghost charges: seq<Charge>)
      requires costs != null ==> costs.rows == rows + Invoice(costs.pricing, tenant, runId, charges, clock)
      modifies costs
      ensures costs != null ==> costs.rows == rows + Invoice(costs.pricing, tenant, runId, charges
                + [Charge(k, r.providerName, r.model, r.usage.inputTokens, r.usage.outputTokens)], clock)
    {
      if costs != null {
        var cost := costs.Record(tenant, r.providerName, r.model, r.usage.inputTokens, r.usage.outputTokens,
                                 Some(runId), clock(k));
        ChargeAdded(costs.pricing, tenant, runId, charges,
                    Charge(k, r.providerName, r.model, r.usage.inputTokens, r.usage.outputTokens), clock);
      }
    }

    method Close(id: nat, status: RunStatus, finalOutput: Option<string>, error: Option<string>, now: real,
                 ghost runs: map<nat, RunRow>, ghost steps: seq<StepRow>, ghost run: RunRow, ghost log: seq<StepRow>)
      requires Holds(runs, steps, id, run, log)
      modifies trace
      ensures trace.steps == steps + log
      ensures trace.runs == runs[id := Tallied(run, log).(status := status, finalOutput := finalOutput, error := error,
                                                         completedAt := Some(now))]
    {
      trace.Finish(id, status, finalOutput, error, now);
    }

    method AuditHits(tenant: string, runId: nat, stage: Stage, hits: seq<GuardrailHit>)
      modifies audit
      ensures audit != null ==> audit.entries == old(audit.entries) + HitEntries(tenant, runId, stage, hits)
    {
      if audit == null {
        return;
      }
      for i := 0 to |hits|
        invariant audit.entries == old(audit.entries) + HitEntries(tenant, runId, stage, hits[..i])
      {
        audit.Record(GuardrailFired(tenant, runId, stage, hits[i]));
        assert hits[..i + 1][..i] == hits[..i];
      }
      assert hits[..|hits|] == hits;
    }

    /** The request goes through the guardrails, if there are any, and their hits into the audit log. */
    method ScreenFirst(s: Session, tenant: string, userMessage: string) returns (pre: Screened)
      requires s.guardrails == guardrails
      modifies audit
      ensures pre == ScreenRequest(s, userMessage)
      ensures audit != null ==>
                audit.entries == old(audit.entries) + HitEntries(tenant, s.runId, OnRequest, pre.hits)
    {
      pre := Allowed(userMessage, []);
      if guardrails.Some? {
        pre := guardrails.value.request(userMessage);
        AuditHits(tenant, s.runId, OnRequest, pre.hits);
      }
    }

    /** id is the fresh run id; clock(k) is when iteration k's charge is recorded. */
    method Run(id: nat, tenant: string, agentName: string, systemPrompt: string, userMessage: string,
               classification: string, tier: string, world: World, startedAt: real, clock: nat -> real, endedAt: real)
      returns (outcome: RunOutcome)
      requires id !in trace.runs
      modifies trace, costs, audit
      ensures var s := Session(config, world, guardrails, id);
              var (p, exit) := Conduct(s, systemPrompt, userMessage);
              var run := NewRun(tenant, agentName, config.maxSteps, config.tokenBudget, classification, tier,
                                startedAt);
              && outcome == OutcomeOf(s, p, exit)
              && trace.steps == old(trace.steps) + p.log
              && trace.runs == old(trace.runs)[id := Closed(Tallied(run, p.log), exit, endedAt)]
              && (costs != null ==>
                  costs.rows == old(costs.rows) + Invoice(costs.pricing, tenant, id, p.charges, clock))
              && (audit != null ==> audit.entries == AuditAfter(old(audit.entries), s, tenant, userMessage, exit))
    {
      var s := Session(config, world, guardrails, id);
      ghost var runs, steps, rows := trace.runs, trace.steps, if costs == null then [] else costs.rows;
      ghost var run := NewRun(tenant, agentName, config.maxSteps, config.tokenBudget, classification, tier, startedAt);
      trace.Start(id, tenant, agentName, config.maxSteps, config.tokenBudget, classification, tier, startedAt);
      assert Tallied(run, []) == run;
      ghost var p, exit;
      outcome, p, exit := Proceed(s, tenant, systemPrompt, userMessage, clock, endedAt, runs, steps, rows, run);
    }

    /** The request is blocked: the run ends before its first iteration. */
    method Refuse(s: Session, tenant: string, systemPrompt: string, userMessage: string, reason: string,
                  clock: nat -> real, endedAt: real,
                  ghost runs: map<nat, RunRow>, ghost steps: seq<StepRow>, ghost rows: seq<CostEntry>,
                  ghost run: RunRow)
      returns (outcome: RunOutcome, ghost q: Progress, ghost exit: Exit)
      requires ScreenRequest(s, userMessage).Blocked? && ScreenRequest(s, userMessage).reason == reason
      requires Holds(runs, steps, s.runId, run, []) && (costs != null ==> costs.rows == rows)
      modifies trace
      ensures Conduct(s, systemPrompt, userMessage) == (q, exit)
      ensures outcome == OutcomeOf(s, q, exit) && AuditedAtEnd(tenant, s.runId, exit) == []
      ensures Leaves(s, tenant, Stop(q, exit), clock, endedAt, runs, steps, rows, run)
    {
      q, exit := Start([]), Finished(BlockedByGuardrail, None, Some(reason), 0, []);
      Close(s.runId, BlockedByGuardrail, None, Some(reason), endedAt, runs, steps, run, []);
      outcome := RunReturned(AgentRunResult(s.runId, BlockedByGuardrail, None, 0, 0, 0));
    }

    /** A run from its stored row on. */
    method Proceed(s: Session, tenant: string, systemPrompt: string, userMessage: string, clock: nat -> real,
                   endedAt: real,
                   ghost runs: map<nat, RunRow>, ghost steps: seq<StepRow>, ghost rows: seq<CostEntry>,
                   ghost run: RunRow)
      returns (outcome: RunOutcome, ghost q: Progress, ghost exit: Exit)
      requires s.config == config && s.guardrails == guardrails
      requires Holds(runs, steps, s.runId, run, []) && (costs != null ==> costs.rows == rows)
      modifies trace, costs, audit
      ensures Conduct(s, systemPrompt, userMessage) == (q, exit)
      ensures outcome == OutcomeOf(s, q, exit)
      ensures Leaves(s, tenant, Stop(q, exit), clock, endedAt, runs, steps, rows, run)
      ensures audit != null ==> audit.entries == AuditAfter(old(audit.entries), s, tenant, userMessage, exit)
    {
      var pre := ScreenFirst(s, tenant, userMessage);
      if pre.Blocked? {
        outcome, q, exit :=
          Refuse(s, tenant, systemPrompt, userMessage, pre.reason, clock, endedAt, runs, steps, rows, run);
      } else {
        outcome, q, exit :=
          Loop(s, tenant, Opening(systemPrompt, pre.text), clock, endedAt, runs, steps, rows, run);
      }
    }

    /** How a run ends on a response without tool calls. */
    method Answer(s: Session, tenant: string, k: nat, content: string, totalInput: nat, totalOutput: nat, endedAt: real,
                  ghost runs: map<nat, RunRow>, ghost steps: seq<StepRow>, ghost run: RunRow, ghost log: seq<StepRow>)
      returns (outcome: RunOutcome)
      requires s.guardrails == guardrails && Holds(runs, steps, s.runId, run, log)
      modifies trace, audit
      ensures trace.steps == steps + log
      ensures audit != null ==>
                audit.entries == old(audit.entries) + AuditedAtEnd(tenant, s.runId, AnswerExit(s, k, content))
      ensures trace.runs == runs[s.runId := Closed(Tallied(run, log), AnswerExit(s, k, content), endedAt)]
      ensures outcome == RunReturned(AgentRunResult(s.runId, AnswerExit(s, k, content).status,
                                                    AnswerExit(s, k, content).finalOutput, totalInput, totalOutput,
                                                    k + 1))
    {
      var text := content;
      if guardrails.Some? {
        var post := guardrails.value.response(text);
        AuditHits(tenant, s.runId, OnResponse, post.hits);
        if post.Blocked? {
          Close(s.runId, BlockedByGuardrail, None, Some(post.reason), endedAt, runs, steps, run, log);
          return RunReturned(AgentRunResult(s.runId, BlockedByGuardrail, None, totalInput, totalOutput, k + 1));
        }
        text := post.text;
      }
      Close(s.runId, Completed, Some(text), None, endedAt, runs, steps, run, log);
      outcome := RunReturned(AgentRunResult(s.runId, Completed, Some(text), totalInput, totalOutput, k + 1));
    }

    /** What an iteration leaves behind. */
    ghost predicate Leaves(s: Session, tenant: string, turn: TurnEnd, clock: nat -> real, endedAt: real,
                           runs: map<nat, RunRow>, steps: seq<StepRow>, rows: seq<CostEntry>, run: RunRow)
      reads trace, costs
    {
      && (costs != null ==> costs.rows == rows + Invoice(costs.pricing, tenant, s.runId, turn.progress.charges, clock))
      && trace.steps == steps + turn.progress.log
      && (turn.Next? ==> Holds(runs, steps, s.runId, run, turn.progress.log))
      && (turn.Stop? ==> trace.runs == runs[s.runId := Closed(Tallied(run, turn.progress.log), turn.exit, endedAt)])
    }

    /** What the loop does with a response: None goes on to the next iteration. */
    method Respond(s: Session, tenant: string, k: nat, heard: seq<ChatMessage>, r: ChatResponse, totalInput: nat,
                   totalOutput: nat, clock: nat -> real, endedAt: real,
                   ghost runs: map<nat, RunRow>, ghost steps: seq<StepRow>, ghost rows: seq<CostEntry>,
                   ghost run: RunRow, ghost p: Progress)
      returns (outcome: Option<RunOutcome>, messages: seq<ChatMessage>)
      requires s.config == config && s.guardrails == guardrails && s.world.replies(k) == Reply(r)
      requires p.messages == heard
      requires totalInput == Billed(s, k, p, r).totalInput && totalOutput == Billed(s, k, p, r).totalOutput
      requires Holds(runs, steps, s.runId, run, Billed(s, k, p, r).log)
      requires costs != null ==>
                 costs.rows == rows + Invoice(costs.pricing, tenant, s.runId, Billed(s, k, p, r).charges, clock)
      modifies trace, audit
      ensures var turn := Iterate(s, k, p);
              && Leaves(s, tenant, turn, clock, endedAt, runs, steps, rows, run)
              && (turn.Next? ==> outcome == None && messages == turn.progress.messages)
              && (turn.Stop? ==> outcome == Some(OutcomeOf(s, turn.progress, turn.exit)))
              && (audit != null ==> audit.entries == old(audit.entries)
                                     + (if turn.Stop? then AuditedAtEnd(tenant, s.runId, turn.exit) else []))
    {
      messages, outcome := heard, None;
      ghost var q := Billed(s, k, p, r);
      if totalInput + totalOutput > config.tokenBudget {
        Close(s.runId, BudgetExceeded, None, Some("token budget exceeded"), endedAt, runs, steps, run, q.log);
        outcome := Some(RunReturned(AgentRunResult(s.runId, BudgetExceeded, None, totalInput, totalOutput, k + 1)));
      } else if r.toolCalls == [] {
        var final := Answer(s, tenant, k, r.message.content, totalInput, totalOutput, endedAt, runs, steps, run, q.log);
        outcome := Some(final);
      } else {
        messages := CallTools(s, k, r.toolCalls, heard + [r.message], runs, steps, run, q.log);
      }
    }

    /** The body of the loop: None goes on to the next iteration. */
    method Turn(s: Session, tenant: string, k: nat, heard: seq<ChatMessage>, input: nat, output: nat,
                clock: nat -> real, endedAt: real,
                ghost runs: map<nat, RunRow>, ghost steps: seq<StepRow>, ghost rows: seq<CostEntry>,
                ghost run: RunRow, ghost p: Progress)
      returns (outcome: Option<RunOutcome>, messages: seq<ChatMessage>, totalInput: nat, totalOutput: nat)
      requires s.config == config && s.guardrails == guardrails
      requires p.messages == heard && p.totalInput == input && p.totalOutput == output
      requires Holds(runs, steps, s.runId, run, p.log)
      requires costs != null ==> costs.rows == rows + Invoice(costs.pricing, tenant, s.runId, p.charges, clock)
      modifies trace, costs, audit
      ensures var turn := Iterate(s, k, p);
              && Leaves(s, tenant, turn, clock, endedAt, runs, steps, rows, run)
              && totalInput == turn.progress.totalInput && totalOutput == turn.progress.totalOutput
              && (turn.Next? ==> outcome == None && messages == turn.progress.messages)
              && (turn.Stop? ==> outcome == Some(OutcomeOf(s, turn.progress, turn.exit)))
              && (audit != null ==> audit.entries == old(audit.entries)
                                     + (if turn.Stop? then AuditedAtEnd(tenant, s.runId, turn.exit) else []))
    {
      messages, totalInput, totalOutput, outcome := heard, input, output, None;
      var reply := s.world.replies(k);
      match reply {
        case Escaped(message) =>
          outcome := Some(RunRaised(message));
        case ProviderFailure(message) =>
          ghost var log := p.log + [FailureRow(s, k, heard, message)];
          Write(FailureRow(s, k, heard, message), runs, steps, run, p.log);
          Close(s.runId, RunStatus.Failed, None, Some(message), endedAt, runs, steps, run, log);
          outcome := Some(RunReturned(AgentRunResult(s.runId, RunStatus.Failed, None, input, output, k + 1)));
        case Reply(r) =>
          totalInput := input + r.usage.inputTokens;
          totalOutput := output + r.usage.outputTokens;
          Write(ResponseRow(s, k, heard, r), runs, steps, run, p.log);
          Bill(tenant, s.runId, r, k, clock, rows, p.charges);
          outcome, messages :=
            Respond(s, tenant, k, heard, r, totalInput, totalOutput, clock, endedAt, runs, steps, rows, run, p);
      }
    }

    /** One iteration as part of the whole run: the run goes on from q, or has ended as q and exit say. */
    method Advance(s: Session, tenant: string, k: nat, heard: seq<ChatMessage>, input: nat, output: nat,
                   clock: nat -> real, endedAt: real,
                   ghost runs: map<nat, RunRow>, ghost steps: seq<StepRow>, ghost rows: seq<CostEntry>,
                   ghost run: RunRow, ghost p: Progress)
      returns (outcome: Option<RunOutcome>, messages: seq<ChatMessage>, totalInput: nat, totalOutput: nat,
               ghost q: Progress, ghost exit: Exit)
      requires s.config == config && s.guardrails == guardrails && k < config.maxSteps
      requires p.messages == heard && p.totalInput == input && p.totalOutput == output
      requires Holds(runs, steps, s.runId, run, p.log)
      requires costs != null ==> costs.rows == rows + Invoice(costs.pricing, tenant, s.runId, p.charges, clock)
      modifies trace, costs, audit
      ensures outcome.None? ==>
                && RunFrom(s, k, p) == RunFrom(s, k + 1, q)
                && messages == q.messages && totalInput == q.totalInput && totalOutput == q.totalOutput
                && Leaves(s, tenant, Next(q), clock, endedAt, runs, steps, rows, run)
                && (audit != null ==> audit.entries == old(audit.entries))
      ensures outcome.Some? ==>
                && RunFrom(s, k, p) == (q, exit) && outcome.value == OutcomeOf(s, q, exit)
                && Leaves(s, tenant, Stop(q, exit), clock, endedAt, runs, steps, rows, run)
                && (audit != null ==> audit.entries == old(audit.entries) + AuditedAtEnd(tenant, s.runId, exit))
    {
      outcome, messages, totalInput, totalOutput :=
        Turn(s, tenant, k, heard, input, output, clock, endedAt, runs, steps, rows, run, p);
      RunUnfolds(s, k, p);
      ghost var turn := Iterate(s, k, p);
      q, exit := turn.progress, if turn.Stop? then turn.exit else Raised("");
    }

    method Loop(s: Session, tenant: string, opening: seq<ChatMessage>, clock: nat -> real, endedAt: real,
                ghost runs: map<nat, RunRow>, ghost steps: seq<StepRow>, ghost rows: seq<CostEntry>, ghost run: RunRow)
      returns (outcome: RunOutcome, ghost q: Progress, ghost exit: Exit)
      requires s.config == config && s.guardrails == guardrails
      requires Holds(runs, steps, s.runId, run, []) && (costs != null ==> costs.rows == rows)
      modifies trace, costs, audit
      ensures RunFrom(s, 0, Start(opening)) == (q, exit)
      ensures outcome == OutcomeOf(s, q, exit)
      ensures Leaves(s, tenant, Stop(q, exit), clock, endedAt, runs, steps, rows, run)
      ensures audit != null ==> audit.entries == old(audit.entries) + AuditedAtEnd(tenant, s.runId, exit)
    {
      var messages, totalInput, totalOutput := opening, 0, 0;
      ghost var p := Start(opening);
      var k := 0;
      while k < config.maxSteps
        invariant 0 <= k
        invariant p.messages == messages && p.totalInput == totalInput && p.totalOutput == totalOutput
        invariant RunFrom(s, k, p) == RunFrom(s, 0, Start(opening))
        invariant Holds(runs, steps, s.runId, run, p.log)
        invariant audit != null ==> audit.entries == old(audit.entries)
        invariant costs != null ==> costs.rows == rows + Invoice(costs.pricing, tenant, s.runId, p.charges, clock)
      {
        var stopped;
        stopped, messages, totalInput, totalOutput, q, exit :=
          Advance(s, tenant, k, messages, totalInput, totalOutput, clock, endedAt, runs, steps, rows, run, p);
        if stopped.Some? {
          return stopped.value, q, exit;
        }
        p := q;
        k := k + 1;
      }
      outcome, q, exit := Exhausted(s, tenant, k, totalInput, totalOutput, clock, endedAt, runs, steps, rows, run, p);
    }

    /** The loop has used up its steps. */
    method Exhausted(s: Session, tenant: string, k: nat, totalInput: nat, totalOutput: nat, clock: nat -> real,
                     endedAt: real,
                     ghost runs: map<nat, RunRow>, ghost steps: seq<StepRow>, ghost rows: seq<CostEntry>,
                     ghost run: RunRow, ghost p: Progress)
      returns (outcome: RunOutcome, ghost q: Progress, ghost exit: Exit)
      requires s.config == config && k >= config.maxSteps
      requires p.totalInput == totalInput && p.totalOutput == totalOutput
      requires Holds(runs, steps, s.runId, run, p.log)
      requires costs != null ==> costs.rows == rows + Invoice(costs.pricing, tenant, s.runId, p.charges, clock)
      modifies trace
      ensures RunFrom(s, k, p) == (q, exit)
      ensures outcome == OutcomeOf(s, q, exit) && AuditedAtEnd(tenant, s.runId, exit) == []
      ensures Leaves(s, tenant, Stop(q, exit), clock, endedAt, runs, steps, rows, run)
    {
      q, exit := p, Finished(MaxStepsExceeded, None, Some("max steps exceeded"), config.maxSteps, []);
      Close(s.runId, MaxStepsExceeded, None, Some("max steps exceeded"), endedAt, runs, steps, run, p.log);
      outcome := RunReturned(AgentRunResult(s.runId, MaxStepsExceeded, None, totalInput, totalOutput, config.maxSteps));
    }
  }

  lemma RunUnfolds(s: Session, k: nat, p: Progress)
    requires k < s.config.maxSteps
    ensures match Iterate(s, k, p)
            case Stop(q, exit) => RunFrom(s, k, p) == (q, exit)
            case Next(q) => RunFrom(s, k, p) == RunFrom(s, k + 1, q)
  {
  }
}
