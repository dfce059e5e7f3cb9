/** What every agent run keeps and what its ending means: the ledgers, the shape of the log, the token
    budget and the conversation. All are stated for every world, at every loop head and exit. */
module RunLaws {
  import opened Wrappers
  import opened Chat
  import opened Trace
  import opened Cost
  import opened Runtime

  // ---------- Loop heads and endings ----------

  /** The progress at the head of iteration k, if the run gets there. */
  function HeadAt(s: Session, opening: seq<ChatMessage>, k: nat): Option<Progress> {
    if k == 0 then Some(Start(opening))
    else match HeadAt(s, opening, k - 1)
      case None => None
      case Some(p) => if Iterate(s, k - 1, p).Next? then Some(Iterate(s, k - 1, p).progress) else None
  }

  /** A run goes on from iteration k only with a response that asks for tools, within the budget. */
  predicate GoesOn(s: Session, k: nat, p: Progress, r: ChatResponse) {
    && s.world.replies(k) == Reply(r) && r.toolCalls != []
    && Billed(s, k, p, r).totalInput + Billed(s, k, p, r).totalOutput <= s.config.tokenBudget
  }

  function Continued(s: Session, k: nat, p: Progress, r: ChatResponse): Progress {
    AfterTools(s, k, Billed(s, k, p, r), r)
  }

  lemma HeadStep(s: Session, opening: seq<ChatMessage>, k: nat) returns (p: Progress, r: ChatResponse)
    requires k > 0 && HeadAt(s, opening, k).Some?
    ensures HeadAt(s, opening, k - 1) == Some(p) && GoesOn(s, k - 1, p, r)
    ensures HeadAt(s, opening, k) == Some(Continued(s, k - 1, p, r))
  {
    p := HeadAt(s, opening, k - 1).value;
    r := s.world.replies(k - 1).response;
  }

  /** What holds at the start, and survives every round, holds at every head. */
  lemma {:induction false} HeadInduction(s: Session, opening: seq<ChatMessage>, k: nat, inv: (nat, Progress) -> bool)
    returns (p: Progress)
    requires HeadAt(s, opening, k).Some? && inv(0, Start(opening))
    requires forall i: nat, p: Progress, r: ChatResponse ::
               inv(i, p) && GoesOn(s, i, p, r) ==> inv(i + 1, Continued(s, i, p, r))
    ensures HeadAt(s, opening, k) == Some(p) && inv(k, p)
  {
    if k == 0 {
      p := Start(opening);
    } else {
      var before, r := HeadStep(s, opening, k);
      var same := HeadInduction(s, opening, k - 1, inv);
      p := Continued(s, k - 1, before, r);
    }
  }

  /** From one head to the next. */
  lemma OneRound(s: Session, opening: seq<ChatMessage>, k: nat, p: Progress) returns (q: Progress)
    requires HeadAt(s, opening, k) == Some(p) && k < s.config.maxSteps && Iterate(s, k, p).Next?
    ensures HeadAt(s, opening, k + 1) == Some(q) && RunFrom(s, k, p) == RunFrom(s, k + 1, q)
  {
    q := Iterate(s, k, p).progress;
    RunUnfolds(s, k, p);
  }

  predicate LeadsTo(s: Session, k: nat, p: Progress, whole: (Progress, Exit)) {
    k <= s.config.maxSteps ==> RunFrom(s, k, p) == whole
  }

  lemma RoundLeadsOn(s: Session, k: nat, p: Progress, r: ChatResponse, whole: (Progress, Exit))
    requires GoesOn(s, k, p, r) && LeadsTo(s, k, p, whole)
    ensures LeadsTo(s, k + 1, Continued(s, k, p, r), whole)
  {
    if k < s.config.maxSteps {
      RunUnfolds(s, k, p);
    }
  }

  /** Every head within the step limit is on the run's path: the run continues from it. */
  lemma {:induction false} RunPassesThrough(s: Session, opening: seq<ChatMessage>, k: nat) returns (p: Progress)
    requires HeadAt(s, opening, k).Some? && k <= s.config.maxSteps
    ensures HeadAt(s, opening, k) == Some(p) && RunFrom(s, 0, Start(opening)) == RunFrom(s, k, p)
  {
    var whole := RunFrom(s, 0, Start(opening));
    var inv := (i: nat, q: Progress) => LeadsTo(s, i, q, whole);
    forall i: nat, q: Progress, r: ChatResponse | inv(i, q) && GoesOn(s, i, q, r)
      ensures inv(i + 1, Continued(s, i, q, r))
    {
      RoundLeadsOn(s, i, q, r, whole);
    }
    p := HeadInduction(s, opening, k, inv);
  }

  /** A run ends at some loop head: the limit is reached there, or that iteration stops. */
  lemma {:induction false} EndsSomewhere(s: Session, opening: seq<ChatMessage>, k: nat) returns (n: nat)
    requires HeadAt(s, opening, k).Some? && (k == 0 || k <= s.config.maxSteps)
    ensures HeadAt(s, opening, n).Some? && (n == 0 || n <= s.config.maxSteps)
    ensures RunFrom(s, k, HeadAt(s, opening, k).value) == RunFrom(s, n, HeadAt(s, opening, n).value)
    ensures n >= s.config.maxSteps || Iterate(s, n, HeadAt(s, opening, n).value).Stop?
    decreases s.config.maxSteps - k
  {
    n := k;
    if k < s.config.maxSteps && Iterate(s, k, HeadAt(s, opening, k).value).Next? {
      var q := OneRound(s, opening, k, HeadAt(s, opening, k).value);
      n := EndsSomewhere(s, opening, k + 1);
    }
  }

  // ---------- The four ledgers ----------

  function LlmRows(rows: seq<StepRow>): nat {
    if rows == [] then 0 else LlmRows(rows[..|rows| - 1]) + (if IsLlm(rows[|rows| - 1]) then 1 else 0)
  }

  function BilledInput(rows: seq<CostEntry>): nat {
    if rows == [] then 0 else BilledInput(rows[..|rows| - 1]) + rows[|rows| - 1].inputTokens
  }

  function BilledOutput(rows: seq<CostEntry>): nat {
    if rows == [] then 0 else BilledOutput(rows[..|rows| - 1]) + rows[|rows| - 1].outputTokens
  }

  function ChargedInput(charges: seq<Charge>): nat {
    if charges == [] then 0 else ChargedInput(charges[..|charges| - 1]) + charges[|charges| - 1].inputTokens
  }

  function ChargedOutput(charges: seq<Charge>): nat {
    if charges == [] then 0 else ChargedOutput(charges[..|charges| - 1]) + charges[|charges| - 1].outputTokens
  }

  ghost predicate Balanced(p: Progress) {
    && p.totalInput == InputTokens(p.log) == ChargedInput(p.charges)
    && p.totalOutput == OutputTokens(p.log) == ChargedOutput(p.charges)
  }

  predicate FreeToolRow(row: StepRow) {
    !IsLlm(row) && row.record.inputTokens == 0 && row.record.outputTokens == 0
  }

  lemma {:induction false} ToolRowsListed(s: Session, k: nat, calls: seq<ToolCall>)
    ensures |ToolRows(s, k, calls)| == |calls|
    ensures forall j | 0 <= j < |calls| :: ToolRows(s, k, calls)[j] == ToolRow(s, k, j, calls[j])
    ensures forall j | 0 <= j < |calls| :: FreeToolRow(ToolRows(s, k, calls)[j])
  {
    if calls != [] {
      ToolRowsListed(s, k, calls[..|calls| - 1]);
    }
  }

  lemma {:induction false} FreeRowsAddNothing(log: seq<StepRow>, rows: seq<StepRow>)
    requires forall j | 0 <= j < |rows| :: FreeToolRow(rows[j])
    ensures InputTokens(log + rows) == InputTokens(log)
    ensures OutputTokens(log + rows) == OutputTokens(log)
    ensures LlmRows(log + rows) == LlmRows(log)
  {
    if rows == [] {
      assert log + rows == log;
    } else {
      var n := |rows| - 1;
      FreeRowsAddNothing(log, rows[..n]);
      RowAdded(log + rows[..n], rows[n]);
      RowCounted(log + rows[..n], rows[n]);
      assert log + rows == log + rows[..n] + [rows[n]];
    }
  }

  lemma RowCounted(rows: seq<StepRow>, row: StepRow)
    ensures LlmRows(rows + [row]) == LlmRows(rows) + (if IsLlm(row) then 1 else 0)
  {
  }

  lemma BillingKeepsBalance(s: Session, k: nat, p: Progress, r: ChatResponse)
    requires Balanced(p)
    ensures Balanced(Billed(s, k, p, r)) && LlmRows(Billed(s, k, p, r).log) == LlmRows(p.log) + 1
    ensures Balanced(AfterTools(s, k, Billed(s, k, p, r), r))
    ensures LlmRows(AfterTools(s, k, Billed(s, k, p, r), r).log) == LlmRows(p.log) + 1
  {
    var q := Billed(s, k, p, r);
    RowAdded(p.log, ResponseRow(s, k, p.messages, r));
    RowCounted(p.log, ResponseRow(s, k, p.messages, r));
    assert q.charges[..|q.charges| - 1] == p.charges;
    ToolRowsListed(s, k, r.toolCalls);
    FreeRowsAddNothing(q.log, ToolRows(s, k, r.toolCalls));
  }

  lemma FailureKeepsBalance(s: Session, k: nat, p: Progress, message: string)
    requires Balanced(p)
    ensures var q := p.(log := p.log + [FailureRow(s, k, p.messages, message)]);
            Balanced(q) && LlmRows(q.log) == LlmRows(p.log) + 1
  {
  }

  lemma IterationKeepsBalance(s: Session, k: nat, p: Progress)
    requires Balanced(p) && LlmRows(p.log) == k
    ensures Balanced(Iterate(s, k, p).progress)
    ensures LlmRows(Iterate(s, k, p).progress.log) ==
              if Iterate(s, k, p).Stop? && Iterate(s, k, p).exit.Raised? then k else k + 1
    ensures Iterate(s, k, p).Stop? && Iterate(s, k, p).exit.Finished? ==> Iterate(s, k, p).exit.stepCount == k + 1
  {
    match s.world.replies(k)
    case Escaped(_) =>
    case ProviderFailure(message) => FailureKeepsBalance(s, k, p, message);
    case Reply(r) => BillingKeepsBalance(s, k, p, r);
  }

  lemma HeadsAreBalanced(s: Session, opening: seq<ChatMessage>, k: nat)
    requires HeadAt(s, opening, k).Some?
    ensures Balanced(HeadAt(s, opening, k).value) && LlmRows(HeadAt(s, opening, k).value.log) == k
  {
    var inv := (i: nat, p: Progress) => Balanced(p) && LlmRows(p.log) == i;
    forall i: nat, p: Progress, r: ChatResponse | inv(i, p) && GoesOn(s, i, p, r)
      ensures inv(i + 1, Continued(s, i, p, r))
    {
      BillingKeepsBalance(s, i, p, r);
    }
    var p := HeadInduction(s, opening, k, inv);
  }

  lemma {:induction false} InvoiceCarriesTokens(
      pricing: PricingTable, tenant: string, runId: nat, charges: seq<Charge>, clock: nat -> real)
    ensures BilledInput(Invoice(pricing, tenant, runId, charges, clock)) == ChargedInput(charges)
    ensures BilledOutput(Invoice(pricing, tenant, runId, charges, clock)) == ChargedOutput(charges)
    ensures |Invoice(pricing, tenant, runId, charges, clock)| == |charges|
  {
    if charges != [] {
      InvoiceCarriesTokens(pricing, tenant, runId, charges[..|charges| - 1], clock);
      var rows := Invoice(pricing, tenant, runId, charges, clock);
      assert rows[..|rows| - 1] == Invoice(pricing, tenant, runId, charges[..|charges| - 1], clock);
    }
  }

  /** At every loop head the runtime's totals, the run row's, the step rows' and the cost rows' agree. */
  lemma LedgersAgreeAtEveryHead(s: Session, opening: seq<ChatMessage>, k: nat, run: RunRow,
                                pricing: PricingTable, tenant: string, clock: nat -> real)
    requires HeadAt(s, opening, k).Some?
    ensures var p := HeadAt(s, opening, k).value;
            var row, bills := Tallied(run, p.log), Invoice(pricing, tenant, s.runId, p.charges, clock);
            && p.totalInput == row.totalInput == InputTokens(p.log) == BilledInput(bills)
            && p.totalOutput == row.totalOutput == OutputTokens(p.log) == BilledOutput(bills)
            && row.stepCount == |p.log| && LlmRows(p.log) == k
  {
    HeadsAreBalanced(s, opening, k);
    InvoiceCarriesTokens(pricing, tenant, s.runId, HeadAt(s, opening, k).value.charges, clock);
  }

  /** They agree at every exit; the row's step count counts all steps, and the result's counts the LLM
      calls, except under a negative step limit, which the result reports back as its count. */
  lemma LedgersAgreeAtEveryExit(s: Session, systemPrompt: string, userMessage: string, run: RunRow,
                                pricing: PricingTable, tenant: string, clock: nat -> real, now: real)
    ensures var (p, exit) := Conduct(s, systemPrompt, userMessage);
            var row := Closed(Tallied(run, p.log), exit, now);
            var bills := Invoice(pricing, tenant, s.runId, p.charges, clock);
            && p.totalInput == row.totalInput == InputTokens(p.log) == BilledInput(bills)
            && p.totalOutput == row.totalOutput == OutputTokens(p.log) == BilledOutput(bills)
            && row.stepCount == |p.log|
            && (exit.Finished? ==> row.status == exit.status && row.finalOutput == exit.finalOutput)
            && (exit.Finished? ==> (exit.stepCount == LlmRows(p.log) <==>
                                    (s.config.maxSteps >= 0 || ScreenRequest(s, userMessage).Blocked?)))
  {
    var (p, exit) := Conduct(s, systemPrompt, userMessage);
    if ScreenRequest(s, userMessage).Allowed? {
      var opening := Opening(systemPrompt, ScreenRequest(s, userMessage).text);
      var n := EndsSomewhere(s, opening, 0);
      HeadsAreBalanced(s, opening, n);
      if n < s.config.maxSteps {
        IterationKeepsBalance(s, n, HeadAt(s, opening, n).value);
      }
    }
    InvoiceCarriesTokens(pricing, tenant, s.runId, p.charges, clock);
  }

  // ---------- The shape of the log ----------

  /** The log as it stands at the head of iteration k. */
  ghost predicate Shaped(s: Session, log: seq<StepRow>, k: nat) {
    && Iterations(log)
    && (forall i | 0 <= i < |log| :: log[i].runId == s.runId && log[i].stepIndex < k)
    && (k == 0 ==> log == [])
    && (k > 0 ==> log != [] && log[|log| - 1].stepIndex == k - 1)
    && (log != [] ==> log[0].stepIndex == 0)
  }

  lemma LlmRowExtends(s: Session, log: seq<StepRow>, k: nat, row: StepRow)
    requires Shaped(s, log, k) && IsLlm(row) && row.runId == s.runId && row.stepIndex == k
    ensures Shaped(s, log + [row], k + 1)
  {
  }

  lemma {:induction false} ToolRowsExtend(s: Session, log: seq<StepRow>, k: nat, calls: seq<ToolCall>)
    requires Shaped(s, log, k + 1)
    ensures Shaped(s, log + ToolRows(s, k, calls), k + 1)
  {
    if calls == [] {
      assert log + ToolRows(s, k, calls) == log;
    } else {
      var n := |calls| - 1;
      ToolRowsExtend(s, log, k, calls[..n]);
      assert log + ToolRows(s, k, calls) == log + ToolRows(s, k, calls[..n]) + [ToolRow(s, k, n, calls[n])];
    }
  }

  lemma ResponseKeepsShape(s: Session, log: seq<StepRow>, k: nat, row: StepRow, calls: seq<ToolCall>)
    requires Shaped(s, log, k) && IsLlm(row) && row.runId == s.runId && row.stepIndex == k
    ensures Shaped(s, log + [row], k + 1)
    ensures Shaped(s, log + [row] + ToolRows(s, k, calls), k + 1)
  {
    LlmRowExtends(s, log, k, row);
    ToolRowsExtend(s, log + [row], k, calls);
  }

  lemma IterationKeepsShape(s: Session, k: nat, p: Progress)
    requires Shaped(s, p.log, k)
    ensures Shaped(s, Iterate(s, k, p).progress.log,
                   if Iterate(s, k, p).Stop? && Iterate(s, k, p).exit.Raised? then k else k + 1)
  {
    match s.world.replies(k)
    case Escaped(_) =>
    case ProviderFailure(message) => LlmRowExtends(s, p.log, k, FailureRow(s, k, p.messages, message));
    case Reply(r) => ResponseKeepsShape(s, p.log, k, ResponseRow(s, k, p.messages, r), r.toolCalls);
  }

  lemma HeadsAreShaped(s: Session, opening: seq<ChatMessage>, k: nat) returns (log: seq<StepRow>)
    requires HeadAt(s, opening, k).Some?
    ensures HeadAt(s, opening, k).value.log == log && Shaped(s, log, k)
  {
    var inv := (i: nat, p: Progress) => Shaped(s, p.log, i);
    forall i: nat, p: Progress, r: ChatResponse | inv(i, p) && GoesOn(s, i, p, r)
      ensures inv(i + 1, Continued(s, i, p, r))
    {
      ResponseKeepsShape(s, p.log, i, ResponseRow(s, i, p.messages, r), r.toolCalls);
    }
    var p := HeadInduction(s, opening, k, inv);
    log := p.log;
  }

  /** Every run's log is a sequence of iterations, which is what replay relies on. */
  lemma LogIsIterations(s: Session, systemPrompt: string, userMessage: string)
    ensures var (p, exit) := Conduct(s, systemPrompt, userMessage);
            Iterations(p.log) && forall i | 0 <= i < |p.log| :: p.log[i].runId == s.runId
  {
    if ScreenRequest(s, userMessage).Allowed? {
      var opening := Opening(systemPrompt, ScreenRequest(s, userMessage).text);
      var n := EndsSomewhere(s, opening, 0);
      var log := HeadsAreShaped(s, opening, n);
      if n < s.config.maxSteps {
        IterationKeepsShape(s, n, HeadAt(s, opening, n).value);
      }
    }
  }

  /** A run with a fresh id finds exactly its own log under that id. */
  lemma StepsOfAFreshRun(runs: map<nat, RunRow>, steps: seq<StepRow>, id: nat, log: seq<StepRow>)
    requires forall row :: row in steps ==> row.runId != id
    requires forall i | 0 <= i < |log| :: log[i].runId == id
    ensures StepsOf(Database(runs, steps + log), id) == log
  {
    FilterConcat(steps, log, (row: StepRow) => row.runId == id);
    FilterNone(steps, (row: StepRow) => row.runId == id);
    FilterAll(log, (row: StepRow) => row.runId == id);
  }

  /** What replay gives back for a finished run, whatever order the database picks among ties: the
      run's LLM calls in the order they were made, and every step at a position of its iteration. */
  lemma ReplayOfARun(s: Session, systemPrompt: string, userMessage: string, db: Database, rows: seq<StepRow>)
    requires StepsOf(db, s.runId) == Conduct(s, systemPrompt, userMessage).0.log
    requires Orders(rows, StepsOf(db, s.runId))
    ensures var log := Conduct(s, systemPrompt, userMessage).0.log;
            && multiset(rows) == multiset(log) && |rows| == |log|
            && Filter(rows, IsLlm) == Filter(log, IsLlm)
            && (forall i | 0 <= i < |rows| :: rows[i].stepIndex == log[i].stepIndex)
            && (KeepsTies(rows, log) ==> rows == log)
  {
    LogIsIterations(s, systemPrompt, userMessage);
    ReplayKeepsIterations(rows, StepsOf(db, s.runId));
    if KeepsTies(rows, StepsOf(db, s.runId)) {
      StableReplayIsExact(rows, StepsOf(db, s.runId));
    }
  }

  // ---------- The token budget ----------

  function Spent(p: Progress): nat {
    p.totalInput + p.totalOutput
  }

  /** A negative budget allows as much as none. */
  function Allowance(tokenBudget: int): nat {
    if tokenBudget < 0 then 0 else tokenBudget
  }

  /** No LLM call is made once the total is above the budget, and none but the first under a negative one. */
  lemma HeadsAreWithinBudget(s: Session, opening: seq<ChatMessage>, k: nat)
    requires HeadAt(s, opening, k).Some?
    ensures Spent(HeadAt(s, opening, k).value) <= Allowance(s.config.tokenBudget)
    ensures k > 0 ==> Spent(HeadAt(s, opening, k).value) <= s.config.tokenBudget
    ensures k == 0 ==> HeadAt(s, opening, k).value.charges == []
  {
  }

  /** budget_exceeded exactly when something was charged and the total is above the budget, and then by no
      more than the tokens of the last row, a response; a final output exactly when completed. */
  ghost predicate BudgetKept(tokenBudget: int, p: Progress, exit: Exit) {
    && (exit.Finished? && exit.status == BudgetExceeded <==> p.charges != [] && Spent(p) > tokenBudget)
    && (exit.Finished? ==> (exit.finalOutput.Some? <==> exit.status == Completed))
    && (p.charges != [] && Spent(p) > tokenBudget ==> LastResponseCrossed(tokenBudget, p))
  }

  ghost predicate LastResponseCrossed(tokenBudget: int, p: Progress) {
    p.log != [] &&
    var last := p.log[|p.log| - 1];
    IsLlm(last) && Spent(p) - last.record.inputTokens - last.record.outputTokens <= Allowance(tokenBudget)
  }

  lemma StopKeepsBudget(s: Session, k: nat, p: Progress)
    requires Iterate(s, k, p).Stop? && Spent(p) <= Allowance(s.config.tokenBudget)
    requires p.charges != [] ==> Spent(p) <= s.config.tokenBudget
    ensures BudgetKept(s.config.tokenBudget, Iterate(s, k, p).progress, Iterate(s, k, p).exit)
  {
  }

  /** Every run ends in keeping with its token budget, negative ones included. */
  lemma BudgetIsExact(s: Session, systemPrompt: string, userMessage: string)
    ensures var (p, exit) := Conduct(s, systemPrompt, userMessage);
            BudgetKept(s.config.tokenBudget, p, exit)
  {
    if ScreenRequest(s, userMessage).Allowed? {
      var opening := Opening(systemPrompt, ScreenRequest(s, userMessage).text);
      var n := EndsSomewhere(s, opening, 0);
      HeadsAreWithinBudget(s, opening, n);
      if n < s.config.maxSteps {
        StopKeepsBudget(s, n, HeadAt(s, opening, n).value);
      }
    }
  }

  /** U bounds the tokens of any one response. */
  ghost predicate ResponsesWithin(world: World, u: nat) {
    forall k: nat | world.replies(k).Reply? :: world.replies(k).response.usage.Total() <= u
  }

  lemma OverspendIsOneResponse(s: Session, systemPrompt: string, userMessage: string, u: nat)
    requires ResponsesWithin(s.world, u)
    ensures Spent(Conduct(s, systemPrompt, userMessage).0) <= Allowance(s.config.tokenBudget) + u
  {
    if ScreenRequest(s, userMessage).Allowed? {
      var opening := Opening(systemPrompt, ScreenRequest(s, userMessage).text);
      var n := EndsSomewhere(s, opening, 0);
      HeadsAreWithinBudget(s, opening, n);
      assert s.world.replies(n).Reply? ==> s.world.replies(n).response.usage.Total() <= u;
    }
  }
}
