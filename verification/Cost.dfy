/** Pricing, the cost ledger and the monthly budget check. Money is real. */
module Cost {
  import opened Wrappers

  datatype ModelPricing = ModelPricing(inputPer1k: real, outputPer1k: real)

  datatype PricingTable = PricingTable(providers: map<string, map<string, ModelPricing>>, fallback: ModelPricing) {
    function PriceFor(provider: string, model: string): ModelPricing {
      if provider in providers && model in providers[provider] then providers[provider][model] else fallback
    }

    function EstimateCost(provider: string, model: string, inputTokens: nat, outputTokens: nat): real {
      var price := PriceFor(provider, model);
      (inputTokens as real / 1000.0) * price.inputPer1k + (outputTokens as real / 1000.0) * price.outputPer1k
    }

    /** A thousand input tokens cost exactly the input price of the model, a thousand output tokens its output
        price; a model that is not listed under its provider has the fallback's prices. */
    lemma PriceOfAThousand(provider: string, model: string)
      ensures var listed := provider in providers && model in providers[provider];
              && EstimateCost(provider, model, 1000, 0)
                 == (if listed then providers[provider][model].inputPer1k else fallback.inputPer1k)
              && EstimateCost(provider, model, 0, 1000)
                 == (if listed then providers[provider][model].outputPer1k else fallback.outputPer1k)
    {
    }

    /** Costs add up: with PriceOfAThousand this fixes every estimate. */
    lemma EstimatesAdd(provider: string, model: string, input: nat, output: nat, moreInput: nat, moreOutput: nat)
      ensures EstimateCost(provider, model, input + moreInput, output + moreOutput)
           == EstimateCost(provider, model, input, output) + EstimateCost(provider, model, moreInput, moreOutput)
    {
      var price := PriceFor(provider, model);
      Share(input as real, moreInput as real, price.inputPer1k);
      Share(output as real, moreOutput as real, price.outputPer1k);
    }

    /** No price in the table, the fallback included, is above rate. */
    predicate NoDearerThan(rate: real) {
      && fallback.inputPer1k <= rate && fallback.outputPer1k <= rate
      && forall p, m | p in providers && m in providers[p] ::
           providers[p][m].inputPer1k <= rate && providers[p][m].outputPer1k <= rate
    }

    /** A call never costs more than all its tokens at the dearest rate. */
    lemma CostBelowRate(provider: string, model: string, inputTokens: nat, outputTokens: nat, rate: real)
      requires NoDearerThan(rate)
      ensures EstimateCost(provider, model, inputTokens, outputTokens)
          <= rate * (inputTokens + outputTokens) as real / 1000.0
    {
      var price := PriceFor(provider, model);
      assert price.inputPer1k <= rate && price.outputPer1k <= rate;
      Scale(inputTokens as real / 1000.0, price.inputPer1k, rate);
      Scale(outputTokens as real / 1000.0, price.outputPer1k, rate);
      AtOneRate(inputTokens as real, outputTokens as real, rate);
    }
  }

  lemma Scale(x: real, a: real, b: real)
    requires x >= 0.0 && a <= b
    ensures x * a <= x * b
  {
    assert x * b - x * a == x * (b - a);
  }

  lemma AtOneRate(x: real, y: real, rate: real)
    ensures x / 1000.0 * rate + y / 1000.0 * rate == rate * (x + y) / 1000.0
  {
  }

  lemma Share(x: real, y: real, price: real)
    ensures (x + y) / 1000.0 * price == x / 1000.0 * price + y / 1000.0 * price
  {
  }

  datatype CostEntry = CostEntry(
    tenantId: string, runId: Option<nat>, providerName: string, model: string,
    inputTokens: nat, outputTokens: nat, costUsd: real, createdAt: real)

  /** The tenant's recorded cost since a point in time. */
  function SpentSince(rows: seq<CostEntry>, tenant: string, since: real): real {
    if rows == [] then 0.0
    else
      var row := rows[|rows| - 1];
      SpentSince(rows[..|rows| - 1], tenant, since)
        + (if row.tenantId == tenant && row.createdAt >= since then row.costUsd else 0.0)
  }

  function TotalCost(rows: seq<CostEntry>): real {
    if rows == [] then 0.0 else TotalCost(rows[..|rows| - 1]) + rows[|rows| - 1].costUsd
  }

  function Relevant(rows: seq<CostEntry>, tenant: string, since: real): seq<CostEntry> {
    Filter(rows, (row: CostEntry) => row.tenantId == tenant && row.createdAt >= since)
  }

  lemma RelevantOneMore(rows: seq<CostEntry>, row: CostEntry, tenant: string, since: real)
    ensures Relevant(rows + [row], tenant, since)
         == Relevant(rows, tenant, since) + (if row.tenantId == tenant && row.createdAt >= since then [row] else [])
  {
    assert (rows + [row])[..|rows|] == rows;
  }

  lemma TotalOneMore(rows: seq<CostEntry>, row: CostEntry)
    ensures TotalCost(rows + [row]) == TotalCost(rows) + row.costUsd
  {
    assert (rows + [row])[..|rows|] == rows;
  }

  lemma RowCounts(rows: seq<CostEntry>, row: CostEntry, tenant: string, since: real)
    ensures TotalCost(Relevant(rows + [row], tenant, since))
         == TotalCost(Relevant(rows, tenant, since))
            + (if row.tenantId == tenant && row.createdAt >= since then row.costUsd else 0.0)
  {
    var kept := Relevant(rows, tenant, since);
    RelevantOneMore(rows, row, tenant, since);
    if row.tenantId == tenant && row.createdAt >= since {
      TotalOneMore(kept, row);
    } else {
      assert kept + [] == kept;
    }
  }

  /** What has been spent is the sum over exactly the tenant's own rows from then on. */
  lemma {:induction false} SpentIsFilteredSum(rows: seq<CostEntry>, tenant: string, since: real)
    ensures SpentSince(rows, tenant, since) == TotalCost(Relevant(rows, tenant, since))
  {
    if rows != [] {
      var before, row := rows[..|rows| - 1], rows[|rows| - 1];
      SpentIsFilteredSum(before, tenant, since);
      assert rows == before + [row];
      RowCounts(before, row, tenant, since);
    }
  }

  /** These are the tenant's rows from then on, each as often as it was recorded. */
  lemma RelevantExactly(rows: seq<CostEntry>, tenant: string, since: real, row: CostEntry)
    ensures multiset(Relevant(rows, tenant, since))[row]
         == if row.tenantId == tenant && row.createdAt >= since then multiset(rows)[row] else 0
  {
    FilterMultiset(rows, (row: CostEntry) => row.tenantId == tenant && row.createdAt >= since);
  }

  lemma {:induction false} SpentConcat(a: seq<CostEntry>, b: seq<CostEntry>, tenant: string, since: real)
    ensures SpentSince(a + b, tenant, since) == SpentSince(a, tenant, since) + SpentSince(b, tenant, since)
  {
    if b == [] {
      assert a + b == a;
    } else {
      assert (a + b)[..|a + b| - 1] == a + b[..|b| - 1];
      SpentConcat(a, b[..|b| - 1], tenant, since);
    }
  }

  lemma {:induction false} NothingRelevant(rows: seq<CostEntry>, tenant: string, since: real)
    requires forall row :: row in rows ==> row.tenantId != tenant || row.createdAt < since
    ensures SpentSince(rows, tenant, since) == 0.0
  {
    if rows != [] {
      assert rows[|rows| - 1] in rows;
      NothingRelevant(rows[..|rows| - 1], tenant, since);
    }
  }

  /** The start of the calendar month that contains a point in time. */
  type Calendar = real -> real

  ghost predicate IsCalendar(monthStart: Calendar) {
    && (forall t :: monthStart(t) <= t)
    && (forall t, u :: t <= u ==> monthStart(t) <= monthStart(u))
    && (forall t, u :: monthStart(t) <= u <= t ==> monthStart(u) == monthStart(t))
  }

  class CostTracker {
    const pricing: PricingTable
    var rows: seq<CostEntry>

    constructor (pricing: PricingTable)
      ensures this.pricing == pricing && rows == []
    {
      this.pricing := pricing;
      rows := [];
    }

    method Record(tenant: string, provider: string, model: string, inputTokens: nat, outputTokens: nat,
                  runId: Option<nat>, now: real) returns (cost: real)
      modifies this
      ensures cost == pricing.EstimateCost(provider, model, inputTokens, outputTokens)
      ensures rows == old(rows) + [CostEntry(tenant, runId, provider, model, inputTokens, outputTokens, cost, now)]
    {
      cost := pricing.EstimateCost(provider, model, inputTokens, outputTokens);
      rows := rows + [CostEntry(tenant, runId, provider, model, inputTokens, outputTokens, cost, now)];
    }

    function MonthToDate(tenant: string, monthStart: Calendar, asOf: real): real
      reads this
    {
      SpentSince(rows, tenant, monthStart(asOf))
    }
  }

  datatype BudgetStatus = Ok | SoftAlert | HardStop

  function PercentUsed(spent: real, budget: real): real {
    if budget > 0.0 then spent / budget else 0.0
  }

  function Check(spent: real, budget: real, softThreshold: real): BudgetStatus {
    var percent := PercentUsed(spent, budget);
    if percent >= 1.0 then HardStop
    else if percent >= softThreshold then SoftAlert
    else Ok
  }

  /** The hard stop comes exactly when a positive budget is used up; a budget of zero or less never
      stops anything. */
  lemma HardStopExactly(spent: real, budget: real, softThreshold: real)
    ensures Check(spent, budget, softThreshold) == HardStop <==> (budget > 0.0 && spent >= budget)
    ensures budget > 0.0 && softThreshold <= 1.0 ==>
              (Check(spent, budget, softThreshold) == Ok <==> spent < softThreshold * budget)
  {
    if budget > 0.0 {
      assert spent == spent / budget * budget;
      var percent := spent / budget;
      if percent >= 1.0 {
        assert percent * budget >= 1.0 * budget;
      } else {
        assert percent * budget < 1.0 * budget;
      }
      if percent >= softThreshold {
        assert percent * budget >= softThreshold * budget;
      } else {
        assert percent * budget < softThreshold * budget;
      }
    }
  }
}
