/** Admission of agent runs against the monthly budget, and how far a month can overrun it. */
module Admission {
  import opened Wrappers
  import opened Chat
  import opened Trace
  import opened Cost
  import opened Runtime
  import opened RunLaws
  import opened Audit
  import ApiKeys

  const SOFT_ALERT_THRESHOLD: real := 0.8
  const RETRY_MAX_ATTEMPTS: int := 3
  const BACKOFF_BASE: real := 0.5

  datatype Tenant = Tenant(guardrailPolicy: string, monthlyBudget: real)

  datatype AgentRunIn = AgentRunIn(
    agentName: string, systemPrompt: string, userMessage: string, dataClassification: string, costTier: string,
    maxSteps: int, tokenBudget: int)

  /** UnknownTenant is 404, BudgetExhausted 429; RunCrashed is an exception the route does not catch. */
  datatype HttpResult =
    | UnknownTenant
    | BudgetExhausted(spent: real, budget: real)
    | RunFinished(result: AgentRunResult)
    | RunCrashed(message: string)

  /** One request as the cost ledger sees it: who, the run it would start, when its budget is checked,
      when its iterations are charged, and when it is over. */
  datatype Request = Request(
    tenant: string, systemPrompt: string, userMessage: string, session: Session,
    admittedAt: real, clock: nat -> real, endedAt: real)

  predicate Stopped(tenant: Tenant, rows: seq<CostEntry>, name: string, monthStart: Calendar, now: real) {
    Check(SpentSince(rows, name, monthStart(now)), tenant.monthlyBudget, SOFT_ALERT_THRESHOLD) == HardStop
  }

  /** A tenant's requests are stopped exactly when it has a positive budget and has spent all of it this month:
      the soft alert stops nothing. */
  lemma StoppedExactly(tenant: Tenant, rows: seq<CostEntry>, name: string, monthStart: Calendar, now: real)
    ensures Stopped(tenant, rows, name, monthStart, now) <==>
              tenant.monthlyBudget > 0.0 && SpentSince(rows, name, monthStart(now)) >= tenant.monthlyBudget
  {
    HardStopExactly(SpentSince(rows, name, monthStart(now)), tenant.monthlyBudget, SOFT_ALERT_THRESHOLD);
  }

  function Bill(pricing: PricingTable, rq: Request): seq<CostEntry> {
    var charges := Conduct(rq.session, rq.systemPrompt, rq.userMessage).0.charges;
    Invoice(pricing, rq.tenant, rq.session.runId, charges, rq.clock)
  }

  /** The cost ledger after one request. */
  function Serve(tenants: map<string, Tenant>, pricing: PricingTable, monthStart: Calendar,
                 rows: seq<CostEntry>, rq: Request): seq<CostEntry> {
    if rq.tenant !in tenants || Stopped(tenants[rq.tenant], rows, rq.tenant, monthStart, rq.admittedAt) then rows
    else rows + Bill(pricing, rq)
  }

  /** guardrails gives the pipeline under a policy name; id is the fresh run id. */
  method RunAgent(tenants: map<string, Tenant>, name: string, actor: string, body: AgentRunIn,
                  trace: TraceStore, costs: CostTracker, audit: AuditStore, guardrails: string -> Guardrails,
                  world: World, monthStart: Calendar, id: nat, admittedAt: real, clock: nat -> real, endedAt: real)
    returns (response: HttpResult)
    requires id !in trace.runs
    modifies trace, costs, audit
    ensures name !in tenants ==>
              response == UnknownTenant && unchanged(trace) && unchanged(costs) && unchanged(audit)
    ensures response.BudgetExhausted? <==>
              && name in tenants && tenants[name].monthlyBudget > 0.0
              && SpentSince(old(costs.rows), name, monthStart(admittedAt)) >= tenants[name].monthlyBudget
    ensures response.BudgetExhausted? ==>
              && response == BudgetExhausted(SpentSince(old(costs.rows), name, monthStart(admittedAt)),
                                             tenants[name].monthlyBudget)
              && unchanged(trace) && unchanged(costs)
              && audit.entries == old(audit.entries) + [BudgetHardStop(name, actor)]
    ensures name in tenants && !response.BudgetExhausted? ==>
              var s := Session(AgentConfig(body.maxSteps, body.tokenBudget, RETRY_MAX_ATTEMPTS, BACKOFF_BASE),
                               world, Some(guardrails(tenants[name].guardrailPolicy)), id);
              var (p, exit) := Conduct(s, body.systemPrompt, body.userMessage);
              && trace.steps == old(trace.steps) + p.log
              && var run := NewRun(name, body.agentName, body.maxSteps, body.tokenBudget, body.dataClassification,
                                   body.costTier, admittedAt);
              && trace.runs == old(trace.runs)[id := Closed(Tallied(run, p.log), exit, endedAt)]
              && costs.rows == Serve(tenants, costs.pricing, monthStart, old(costs.rows),
                                     Request(name, body.systemPrompt, body.userMessage, s, admittedAt, clock, endedAt))
              && var audited := AuditAfter(old(audit.entries), s, name, body.userMessage, exit);
              match OutcomeOf(s, p, exit)
              case RunRaised(message) => response == RunCrashed(message) && audit.entries == audited
              case RunReturned(result) =>
                response == RunFinished(result)
                && audit.entries == audited + [AgentRunDone(name, actor, id, p.totalInput, p.totalOutput)]
  {
    if name !in tenants {
      return UnknownTenant;
    }
    var tenant := tenants[name];
    var spent := costs.MonthToDate(name, monthStart, admittedAt);
    var status := Check(spent, tenant.monthlyBudget, SOFT_ALERT_THRESHOLD);
    StoppedExactly(tenant, costs.rows, name, monthStart, admittedAt);
    if status == HardStop {
      audit.Record(BudgetHardStop(name, actor));
      return BudgetExhausted(spent, tenant.monthlyBudget);
    }
    var config := AgentConfig(body.maxSteps, body.tokenBudget, RETRY_MAX_ATTEMPTS, BACKOFF_BASE);
    var runtime := new AgentRuntime(trace, costs, config, Some(guardrails(tenant.guardrailPolicy)), audit);
    var outcome := runtime.Run(id, name, body.agentName, body.systemPrompt, body.userMessage,
                               body.dataClassification, body.costTier, world, admittedAt, clock, endedAt);
    if outcome.RunRaised? {
      return RunCrashed(outcome.message);
    }
    audit.Record(AgentRunDone(name, actor, outcome.result.runId, outcome.result.totalInput,
                              outcome.result.totalOutput));
    response := RunFinished(outcome.result);
  }

  // ---------- Who may read which run ----------

  /** The filter the read routes pass down: none for an admin, the principal's own tenant otherwise. */
  function TenantFilter(role: ApiKeys.Role, tenant: string): Option<string> {
    if role.Admin? then None else Some(tenant)
  }

  /** A developer or viewer gets a run's trace only for a run of its own tenant; another tenant's run
      answers like one that does not exist. An admin gets every run. */
  lemma ReadsAreConfined(db: Database, role: ApiKeys.Role, tenant: string, id: nat)
    ensures Replays(db, id, TenantFilter(role, tenant), None) <==>
              !(id in db.runs && (role.Admin? || db.runs[id].tenantId == tenant))
    ensures forall answer :: Replays(db, id, TenantFilter(role, tenant), Some(answer)) ==>
              id in db.runs && (role.Admin? || db.runs[id].tenantId == tenant) && answer.runId == id
  {
  }

  // ---------- How far a month can overrun ----------

  /** How many runs of the tenant may be open at once, the largest token budget a request asks for, and
      the most tokens of one response. */
  datatype Limits = Limits(runs: nat, tokenBudget: nat, response: nat)

  /** What happens to the ledger: a request of the tenant passes the budget check or not; an open run
      commits its charges, or is abandoned with them; other tenants add rows. */
  datatype Happening =
    | Admit(id: nat, request: Request)
    | Commit(id: nat)
    | Abandon(id: nat)
    | Others(rows: seq<CostEntry>)

  /** The committed ledger, and the tenant's open runs, whose charges no other request sees yet. */
  datatype Books = Books(ledger: seq<CostEntry>, open: map<nat, Request>)

  predicate Passes(tenants: map<string, Tenant>, monthStart: Calendar, rows: seq<CostEntry>, rq: Request) {
    rq.tenant in tenants && !Stopped(tenants[rq.tenant], rows, rq.tenant, monthStart, rq.admittedAt)
  }

  function Next(tenants: map<string, Tenant>, pricing: PricingTable, monthStart: Calendar, b: Books,
                e: Happening): Books {
    match e
    case Admit(id, rq) => if Passes(tenants, monthStart, b.ledger, rq) then b.(open := b.open[id := rq]) else b
    case Commit(id) => if id in b.open then Books(b.ledger + Bill(pricing, b.open[id]), b.open - {id}) else b
    case Abandon(id) => b.(open := b.open - {id})
    case Others(rows) => b.(ledger := b.ledger + rows)
  }

  function BooksAfter(tenants: map<string, Tenant>, pricing: PricingTable, monthStart: Calendar,
                      day: seq<Happening>): Books {
    if day == [] then Books([], map[])
    else Next(tenants, pricing, monthStart, BooksAfter(tenants, pricing, monthStart, day[..|day| - 1]), day[|day| - 1])
  }

  /** A request of the tenant within the limits; its charges are stamped by its end, possibly with a time
      before its admission. */
  ghost predicate Modest(rq: Request, name: string, limits: Limits) {
    && rq.tenant == name && rq.admittedAt <= rq.endedAt && (forall k: nat :: rq.clock(k) <= rq.endedAt)
    && rq.session.config.tokenBudget <= limits.tokenBudget && ResponsesWithin(rq.session.world, limits.response)
  }

  /** What may come next by the time end: an id is not used twice at once, and never more runs of the
      tenant are open than the limit. Other tenants are unconstrained. */
  ghost predicate CanFollow(tenants: map<string, Tenant>, monthStart: Calendar, name: string, b: Books, e: Happening,
                            limits: Limits, end: real)
  {
    match e
    case Admit(id, rq) =>
      && Modest(rq, name, limits) && rq.admittedAt <= end && id !in b.open
      && (Passes(tenants, monthStart, b.ledger, rq) ==> |b.open| < limits.runs)
    case Commit(id) => id in b.open && b.open[id].endedAt <= end
    case Abandon(id) => id in b.open
    case Others(rows) => forall row :: row in rows ==> row.tenantId != name
  }

  /** When it comes, if nothing is said about it, by the time end. */
  function Moment(b: Books, e: Happening, end: real): real {
    match e
    case Admit(_, rq) => rq.admittedAt
    case Commit(id) => if id in b.open then b.open[id].endedAt else end
    case Abandon(_) => end
    case Others(_) => end
  }

  /** A day that can happen, over by the time end; time does not go back. */
  ghost predicate CanHappen(tenants: map<string, Tenant>, pricing: PricingTable, monthStart: Calendar, name: string,
                            day: seq<Happening>, limits: Limits, end: real)
    decreases |day|
  {
    day == [] ||
    var earlier, e := day[..|day| - 1], day[|day| - 1];
    var b := BooksAfter(tenants, pricing, monthStart, earlier);
    CanFollow(tenants, monthStart, name, b, e, limits, end)
    && CanHappen(tenants, pricing, monthStart, name, earlier, limits, Moment(b, e, end))
  }

  /** The endpoint as one request alone sees it is the check followed at once by the commit. */
  lemma ServedAlone(tenants: map<string, Tenant>, pricing: PricingTable, monthStart: Calendar, b: Books, id: nat,
                    rq: Request)
    requires id !in b.open
    ensures var checked := Next(tenants, pricing, monthStart, b, Admit(id, rq));
            Next(tenants, pricing, monthStart, checked, Commit(id)) ==
            Books(Serve(tenants, pricing, monthStart, b.ledger, rq), b.open)
  {
    assert b.open[id := rq] - {id} == b.open;
    assert id !in b.open;
  }

  /** Tokens at a rate per thousand. */
  function Worth(rate: real, tokens: nat): real {
    rate * tokens as real / 1000.0
  }

  /** The worst bill of one run. */
  function Overrun(rate: real, limits: Limits): real {
    Worth(rate, limits.tokenBudget + limits.response)
  }

  lemma WorthGrows(rate: real, x: nat, y: nat)
    requires rate >= 0.0 && x <= y
    ensures 0.0 <= Worth(rate, x) <= Worth(rate, y)
  {
    assert rate * x as real <= rate * y as real;
  }

  lemma WorthAdds(rate: real, x: nat, y: nat)
    ensures Worth(rate, x + y) == Worth(rate, x) + Worth(rate, y)
  {
    assert rate * (x + y) as real == rate * x as real + rate * y as real;
  }

  lemma LastCharge(pricing: PricingTable, tenant: string, runId: nat, charges: seq<Charge>,
                   clock: nat -> real, rate: real, since: real)
    requires pricing.NoDearerThan(rate) && rate >= 0.0 && charges != []
    ensures var c := charges[|charges| - 1];
            SpentSince(Invoice(pricing, tenant, runId, charges, clock), tenant, since)
            <= SpentSince(Invoice(pricing, tenant, runId, charges[..|charges| - 1], clock), tenant, since)
               + Worth(rate, c.inputTokens + c.outputTokens)
  {
    var c, earlier := charges[|charges| - 1], charges[..|charges| - 1];
    var rows := Invoice(pricing, tenant, runId, charges, clock);
    assert rows[..|rows| - 1] == Invoice(pricing, tenant, runId, earlier, clock);
    pricing.CostBelowRate(c.provider, c.model, c.inputTokens, c.outputTokens, rate);
    WorthGrows(rate, 0, c.inputTokens + c.outputTokens);
  }

  lemma {:induction false} InvoiceCost(pricing: PricingTable, tenant: string, runId: nat, charges: seq<Charge>,
                                       clock: nat -> real, rate: real, since: real)
    requires pricing.NoDearerThan(rate) && rate >= 0.0
    ensures SpentSince(Invoice(pricing, tenant, runId, charges, clock), tenant, since)
         <= Worth(rate, ChargedInput(charges) + ChargedOutput(charges))
  {
    if charges != [] {
      var c, earlier := charges[|charges| - 1], charges[..|charges| - 1];
      InvoiceCost(pricing, tenant, runId, earlier, clock, rate, since);
      LastCharge(pricing, tenant, runId, charges, clock, rate, since);
      WorthAdds(rate, ChargedInput(earlier) + ChargedOutput(earlier), c.inputTokens + c.outputTokens);
    }
  }

  lemma ChargedIsSpent(s: Session, systemPrompt: string, userMessage: string)
    ensures var p := Conduct(s, systemPrompt, userMessage).0;
            ChargedInput(p.charges) == p.totalInput && ChargedOutput(p.charges) == p.totalOutput
  {
    if ScreenRequest(s, userMessage).Allowed? {
      var opening := Opening(systemPrompt, ScreenRequest(s, userMessage).text);
      var n := EndsSomewhere(s, opening, 0);
      HeadsAreBalanced(s, opening, n);
      if n < s.config.maxSteps {
        IterationKeepsBalance(s, n, HeadAt(s, opening, n).value);
      }
    }
  }

  /** One admitted run adds at most the dearest rate on its token budget plus one response. */
  lemma {:induction false} BillIsBounded(pricing: PricingTable, rq: Request, name: string, limits: Limits, rate: real,
                                         since: real)
    requires pricing.NoDearerThan(rate) && rate >= 0.0 && Modest(rq, name, limits)
    ensures SpentSince(Bill(pricing, rq), rq.tenant, since) <= Overrun(rate, limits)
  {
    var p := Conduct(rq.session, rq.systemPrompt, rq.userMessage).0;
    InvoiceCost(pricing, rq.tenant, rq.session.runId, p.charges, rq.clock, rate, since);
    TotalIsBounded(rq.session, rq.systemPrompt, rq.userMessage, limits);
    WorthGrows(rate, ChargedInput(p.charges) + ChargedOutput(p.charges), limits.tokenBudget + limits.response);
  }

  lemma TotalIsBounded(s: Session, systemPrompt: string, userMessage: string, limits: Limits)
    requires s.config.tokenBudget <= limits.tokenBudget && ResponsesWithin(s.world, limits.response)
    ensures var p := Conduct(s, systemPrompt, userMessage).0;
            ChargedInput(p.charges) + ChargedOutput(p.charges) <= limits.tokenBudget + limits.response
  {
    ChargedIsSpent(s, systemPrompt, userMessage);
    OverspendIsOneResponse(s, systemPrompt, userMessage, limits.response);
  }

  lemma {:induction false} BillTimes(pricing: PricingTable, tenant: string, runId: nat, charges: seq<Charge>,
                                     clock: nat -> real, end: real)
    requires forall k: nat :: clock(k) <= end
    ensures forall row :: row in Invoice(pricing, tenant, runId, charges, clock) ==> row.createdAt <= end
  {
    if charges != [] {
      BillTimes(pricing, tenant, runId, charges[..|charges| - 1], clock, end);
    }
  }

  /** The tenant's open runs are within the limits, and its committed charges lie in the past. */
  ghost predicate Settled(b: Books, name: string, limits: Limits, end: real) {
    && (forall id | id in b.open :: Modest(b.open[id], name, limits))
    && (forall row :: row in b.ledger && row.tenantId == name ==> row.createdAt <= end)
  }

  lemma CommitSettles(pricing: PricingTable, b: Books, name: string, limits: Limits, id: nat)
    requires id in b.open && Settled(b, name, limits, b.open[id].endedAt)
    ensures Settled(Books(b.ledger + Bill(pricing, b.open[id]), b.open - {id}), name, limits, b.open[id].endedAt)
  {
    var rq := b.open[id];
    assert Modest(rq, name, limits);
    BillTimes(pricing, rq.tenant, rq.session.runId, Conduct(rq.session, rq.systemPrompt, rq.userMessage).0.charges,
              rq.clock, rq.endedAt);
  }

  lemma NextSettles(tenants: map<string, Tenant>, pricing: PricingTable, monthStart: Calendar, name: string,
                    b: Books, e: Happening, limits: Limits, end: real)
    requires CanFollow(tenants, monthStart, name, b, e, limits, end) && Settled(b, name, limits, Moment(b, e, end))
    ensures Settled(Next(tenants, pricing, monthStart, b, e), name, limits, end)
  {
    if e.Commit? {
      CommitSettles(pricing, b, name, limits, e.id);
    }
  }

  lemma {:induction false} BooksSettle(tenants: map<string, Tenant>, pricing: PricingTable, monthStart: Calendar,
                                       name: string, day: seq<Happening>, limits: Limits, end: real)
    requires CanHappen(tenants, pricing, monthStart, name, day, limits, end)
    ensures Settled(BooksAfter(tenants, pricing, monthStart, day), name, limits, end)
    decreases |day|
  {
    if day != [] {
      var earlier, e := day[..|day| - 1], day[|day| - 1];
      var b := BooksAfter(tenants, pricing, monthStart, earlier);
      BooksSettle(tenants, pricing, monthStart, name, earlier, limits, Moment(b, e, end));
      NextSettles(tenants, pricing, monthStart, name, b, e, limits, end);
    }
  }

  /** Seen from a later moment, what a request that passed the check found is below the budget: either it
      is still the same month, or none of it counts any more. */
  lemma PassedBelowBudget(tenant: Tenant, rows: seq<CostEntry>, name: string, monthStart: Calendar, admittedAt: real,
                          now: real)
    requires IsCalendar(monthStart) && tenant.monthlyBudget > 0.0 && admittedAt <= now
    requires forall row :: row in rows && row.tenantId == name ==> row.createdAt <= admittedAt
    requires !Stopped(tenant, rows, name, monthStart, admittedAt)
    ensures SpentSince(rows, name, monthStart(now)) < tenant.monthlyBudget
  {
    if monthStart(now) <= admittedAt {
      assert monthStart(admittedAt) == monthStart(now);
      HardStopExactly(SpentSince(rows, name, monthStart(now)), tenant.monthlyBudget, SOFT_ALERT_THRESHOLD);
    } else {
      NothingRelevant(rows, name, monthStart(now));
    }
  }

  /** n times x. */
  function Copies(n: nat, x: real): real {
    if n == 0 then 0.0 else Copies(n - 1, x) + x
  }

  lemma {:induction false} CopiesGrow(a: nat, b: nat, x: real)
    requires a <= b && x >= 0.0
    ensures 0.0 <= Copies(a, x) <= Copies(b, x)
  {
    if a < b {
      CopiesGrow(a, b - 1, x);
    } else if b > 0 {
      CopiesGrow(a - 1, b - 1, x);
    }
  }

  lemma {:induction false} CopiesMultiply(n: nat, x: real)
    ensures Copies(n, x) == n as real * x
  {
    if n > 0 {
      CopiesMultiply(n - 1, x);
      assert n as real * x == (n - 1) as real * x + x;
    }
  }

  /** No run within the limits is billed more than overrun. */
  ghost predicate BillsAtMost(pricing: PricingTable, name: string, limits: Limits, overrun: real) {
    && overrun >= 0.0
    && forall rq, since :: Modest(rq, name, limits) ==> SpentSince(Bill(pricing, rq), name, since) <= overrun
  }

  /** What is committed this month, and what the open runs can still add at worst. */
  function Exposure(b: Books, name: string, since: real, overrun: real): real {
    SpentSince(b.ledger, name, since) + Copies(|b.open|, overrun)
  }

  lemma OpenOneMore(open: map<nat, Request>, id: nat, rq: Request)
    requires id !in open
    ensures |open[id := rq]| == |open| + 1
  {
    assert open[id := rq].Keys == open.Keys + {id};
    assert |open[id := rq]| == |open[id := rq].Keys| && |open| == |open.Keys|;
  }

  lemma OpenOneLess(open: map<nat, Request>, id: nat)
    requires id in open
    ensures |open| == |open - {id}| + 1
  {
    assert (open - {id}).Keys == open.Keys - {id};
    assert |open - {id}| == |(open - {id}).Keys| && |open| == |open.Keys|;
  }

  /** An admission: the check has just found the spend below the budget. */
  lemma AdmissionStep(tenants: map<string, Tenant>, monthStart: Calendar, b: Books, id: nat, rq: Request,
                      name: string, limits: Limits, overrun: real, now: real)
    requires IsCalendar(monthStart) && name in tenants && tenants[name].monthlyBudget > 0.0 && overrun >= 0.0
    requires rq.tenant == name && rq.admittedAt <= now && id !in b.open && |b.open| < limits.runs
    requires Settled(b, name, limits, rq.admittedAt) && Passes(tenants, monthStart, b.ledger, rq)
    ensures Exposure(b.(open := b.open[id := rq]), name, monthStart(now), overrun)
          < tenants[name].monthlyBudget + Copies(limits.runs, overrun)
  {
    PassedBelowBudget(tenants[name], b.ledger, name, monthStart, rq.admittedAt, now);
    OpenOneMore(b.open, id, rq);
    CopiesGrow(|b.open| + 1, limits.runs, overrun);
  }

  /** A commit adds no more than the open run was counted for. */
  lemma CommitStep(pricing: PricingTable, b: Books, id: nat, name: string, limits: Limits, overrun: real, since: real)
    requires BillsAtMost(pricing, name, limits, overrun)
    requires id in b.open && Modest(b.open[id], name, limits)
    ensures Exposure(Books(b.ledger + Bill(pricing, b.open[id]), b.open - {id}), name, since, overrun)
         <= Exposure(b, name, since, overrun)
  {
    SpentConcat(b.ledger, Bill(pricing, b.open[id]), name, since);
    OpenOneLess(b.open, id);
  }

  lemma AbandonStep(b: Books, id: nat, name: string, since: real, overrun: real)
    requires id in b.open && overrun >= 0.0
    ensures Exposure(b.(open := b.open - {id}), name, since, overrun) <= Exposure(b, name, since, overrun)
  {
    OpenOneLess(b.open, id);
  }

  lemma OthersStep(b: Books, rows: seq<CostEntry>, name: string, since: real, overrun: real)
    requires forall row :: row in rows ==> row.tenantId != name
    ensures Exposure(b.(ledger := b.ledger + rows), name, since, overrun) == Exposure(b, name, since, overrun)
  {
    SpentConcat(b.ledger, rows, name, since);
    NothingRelevant(rows, name, since);
  }

  /** No happening lifts the exposure over the bound. */
  lemma NextIsBounded(tenants: map<string, Tenant>, pricing: PricingTable, monthStart: Calendar, name: string,
                      b: Books, e: Happening, limits: Limits, overrun: real, end: real, now: real, bound: real)
    requires IsCalendar(monthStart) && name in tenants && tenants[name].monthlyBudget > 0.0
    requires BillsAtMost(pricing, name, limits, overrun) && end <= now
    requires bound == tenants[name].monthlyBudget + Copies(limits.runs, overrun)
    requires CanFollow(tenants, monthStart, name, b, e, limits, end) && Settled(b, name, limits, Moment(b, e, end))
    requires Exposure(b, name, monthStart(now), overrun) < bound
    ensures Exposure(Next(tenants, pricing, monthStart, b, e), name, monthStart(now), overrun) < bound
  {
    match e
    case Admit(id, rq) =>
      if Passes(tenants, monthStart, b.ledger, rq) {
        AdmissionStep(tenants, monthStart, b, id, rq, name, limits, overrun, now);
      }
    case Commit(id) => CommitStep(pricing, b, id, name, limits, overrun, monthStart(now));
    case Abandon(id) => AbandonStep(b, id, name, monthStart(now), overrun);
    case Others(rows) => OthersStep(b, rows, name, monthStart(now), overrun);
  }

  lemma {:induction false} ExposureIsBounded(
      tenants: map<string, Tenant>, pricing: PricingTable, monthStart: Calendar, name: string,
      day: seq<Happening>, limits: Limits, overrun: real, end: real, now: real, bound: real)
    requires IsCalendar(monthStart) && name in tenants && tenants[name].monthlyBudget > 0.0
    requires BillsAtMost(pricing, name, limits, overrun) && end <= now
    requires bound == tenants[name].monthlyBudget + Copies(limits.runs, overrun)
    requires CanHappen(tenants, pricing, monthStart, name, day, limits, end)
    ensures Exposure(BooksAfter(tenants, pricing, monthStart, day), name, monthStart(now), overrun) < bound
    decreases |day|
  {
    if day == [] {
      CopiesGrow(0, limits.runs, overrun);
    } else {
      var earlier, e := day[..|day| - 1], day[|day| - 1];
      var b := BooksAfter(tenants, pricing, monthStart, earlier);
      ExposureIsBounded(tenants, pricing, monthStart, name, earlier, limits, overrun, Moment(b, e, end), now, bound);
      BooksSettle(tenants, pricing, monthStart, name, earlier, limits, Moment(b, e, end));
      NextIsBounded(tenants, pricing, monthStart, name, b, e, limits, overrun, end, now, bound);
    }
  }

  /** With at most c runs of a tenant open at once, its spend in the current month is at every moment below
      its budget plus c runs' worst bills, across month ends too, whatever other tenants do. */
  lemma {:induction false} MonthlyOverrunIsBounded(
      tenants: map<string, Tenant>, pricing: PricingTable, monthStart: Calendar, name: string,
      day: seq<Happening>, limits: Limits, overrun: real, now: real)
    requires IsCalendar(monthStart) && name in tenants && tenants[name].monthlyBudget > 0.0
    requires BillsAtMost(pricing, name, limits, overrun)
    requires CanHappen(tenants, pricing, monthStart, name, day, limits, now)
    ensures SpentSince(BooksAfter(tenants, pricing, monthStart, day).ledger, name, monthStart(now))
          < tenants[name].monthlyBudget + Copies(limits.runs, overrun)
  {
    var bound := tenants[name].monthlyBudget + Copies(limits.runs, overrun);
    ExposureIsBounded(tenants, pricing, monthStart, name, day, limits, overrun, now, now, bound);
    CopiesGrow(0, |BooksAfter(tenants, pricing, monthStart, day).open|, overrun);
  }

  /** The worst bill of one run is the dearest rate on its token budget plus one response, and c of them
      are c times as much. */
  lemma OverrunCoversBills(pricing: PricingTable, name: string, limits: Limits, rate: real)
    requires pricing.NoDearerThan(rate) && rate >= 0.0
    ensures BillsAtMost(pricing, name, limits, Overrun(rate, limits))
    ensures Copies(limits.runs, Overrun(rate, limits)) == limits.runs as real * Overrun(rate, limits)
  {
    CopiesMultiply(limits.runs, Overrun(rate, limits));
    WorthGrows(rate, 0, limits.tokenBudget + limits.response);
    forall rq, since | Modest(rq, name, limits)
      ensures SpentSince(Bill(pricing, rq), name, since) <= Overrun(rate, limits)
    {
      BillIsBounded(pricing, rq, name, limits, rate, since);
    }
  }

  /** A budget of zero or less is no budget: every request of such a tenant runs. */
  lemma NonPositiveBudgetNeverStops(tenants: map<string, Tenant>, pricing: PricingTable, monthStart: Calendar,
                                    rows: seq<CostEntry>, rq: Request)
    requires rq.tenant in tenants && tenants[rq.tenant].monthlyBudget <= 0.0
    ensures Serve(tenants, pricing, monthStart, rows, rq) == rows + Bill(pricing, rq)
  {
  }
}
