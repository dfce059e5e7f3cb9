/** The append-only audit log. */
module Audit {
  /** detail is what the guardrail matched, as JSON. */
  datatype GuardrailHit = GuardrailHit(rule: string, action: string, detail: string)

  datatype AuditEntry =
    | BudgetHardStop(tenant: string, actor: string)
    | AgentRunDone(tenant: string, actor: string, runId: nat, inputTokens: nat, outputTokens: nat)
    | GuardrailFired(tenant: string, runId: nat, stage: Stage, hit: GuardrailHit)

  /** The actions guardrail_request and guardrail_response. */
  datatype Stage = OnRequest | OnResponse

  /** One entry per hit, in order. */
  function HitEntries(tenant: string, runId: nat, stage: Stage, hits: seq<GuardrailHit>): seq<AuditEntry> {
    if hits == [] then []
    else HitEntries(tenant, runId, stage, hits[..|hits| - 1]) + [GuardrailFired(tenant, runId, stage, hits[|hits| - 1])]
  }

  lemma {:induction false} EachHitOnce(tenant: string, runId: nat, stage: Stage, hits: seq<GuardrailHit>)
    ensures |HitEntries(tenant, runId, stage, hits)| == |hits|
    ensures forall i | 0 <= i < |hits| ::
              HitEntries(tenant, runId, stage, hits)[i] == GuardrailFired(tenant, runId, stage, hits[i])
  {
    if hits != [] {
      EachHitOnce(tenant, runId, stage, hits[..|hits| - 1]);
    }
  }

  class AuditStore {
    var entries: seq<AuditEntry>

    method Record(entry: AuditEntry)
      modifies this
      ensures entries == old(entries) + [entry]
    {
      entries := entries + [entry];
    }
  }
}
