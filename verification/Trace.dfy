/** Persistence of agent runs and their steps, and what can be read back. Tables are a map and a
    sequence of rows; an ordered query may return any order that respects its key. */
module Trace {
  import opened Wrappers
  import opened Chat

  datatype StepKind = LlmCall | ToolUse

  datatype StepInput = Messages(messages: seq<ChatMessage>) | Arguments(arguments: string)

  datatype StepOutput = Response(response: ChatResponse) | Result(content: string)

  datatype StepRecord = StepRecord(
    kind: StepKind, input: StepInput, output: Option<StepOutput>, error: Option<string>,
    providerName: Option<string>, model: Option<string>, toolName: Option<string>,
    inputTokens: nat, outputTokens: nat, retryCount: int)

  datatype StepRow = StepRow(runId: nat, stepIndex: nat, record: StepRecord)

  datatype RunStatus = Running | Completed | Failed | BudgetExceeded | MaxStepsExceeded | BlockedByGuardrail

  datatype RunRow = RunRow(
    tenantId: string, agentName: string, status: RunStatus, maxSteps: int, tokenBudget: int,
    dataClassification: string, costTier: string, totalInput: nat, totalOutput: nat, stepCount: nat,
    finalOutput: Option<string>, error: Option<string>, createdAt: real, completedAt: Option<real>)

  datatype Database = Database(runs: map<nat, RunRow>, steps: seq<StepRow>)

  datatype ReplayedRun = ReplayedRun(
    runId: nat, status: RunStatus, finalOutput: Option<string>, totalInput: nat, totalOutput: nat,
    steps: seq<StepRecord>)

  // ---------- Writes ----------

  datatype Write =
    | StartRun(id: nat, row: RunRow)
    | RecordStep(id: nat, stepIndex: nat, record: StepRecord)
    | FinishRun(id: nat, status: RunStatus, finalOutput: Option<string>, error: Option<string>, now: real)

  function NewRun(tenantId: string, agentName: string, maxSteps: int, tokenBudget: int,
                  dataClassification: string, costTier: string, now: real): RunRow {
    RunRow(tenantId, agentName, Running, maxSteps, tokenBudget, dataClassification, costTier, 0, 0, 0, None, None,
           now, None)
  }

  /** New run ids are fresh; the other writes assert that the run exists. */
  predicate Possible(db: Database, w: Write) {
    if w.StartRun? then w.id !in db.runs else w.id in db.runs
  }

  function Apply(db: Database, w: Write): Database
    requires Possible(db, w)
  {
    match w
    case StartRun(id, row) => db.(runs := db.runs[id := row])
    case RecordStep(id, stepIndex, record) =>
      var run := db.runs[id];
      Database(db.runs[id := run.(stepCount := run.stepCount + 1,
                                  totalInput := run.totalInput + record.inputTokens,
                                  totalOutput := run.totalOutput + record.outputTokens)],
               db.steps + [StepRow(id, stepIndex, record)])
    case FinishRun(id, status, finalOutput, error, now) =>
      db.(runs := db.runs[id := db.runs[id].(status := status, finalOutput := finalOutput, error := error,
                                             completedAt := Some(now))])
  }

  class TraceStore {
    var runs: map<nat, RunRow>
    var steps: seq<StepRow>

    function Db(): Database
      reads this
    {
      Database(runs, steps)
    }

    constructor ()
      ensures Db() == Database(map[], [])
    {
      runs, steps := map[], [];
    }

    /** id is the fresh primary key, now the clock. */
    method Start(id: nat, tenantId: string, agentName: string, maxSteps: int, tokenBudget: int,
                 dataClassification: string, costTier: string, now: real)
      requires id !in runs
      modifies this
      ensures Db() == Apply(old(Db()), StartRun(id,
                NewRun(tenantId, agentName, maxSteps, tokenBudget, dataClassification, costTier, now)))
      ensures steps == old(steps) && runs.Keys == old(runs).Keys + {id} && runs == old(runs)[id := runs[id]]
      ensures var run := runs[id];
              && run.tenantId == tenantId && run.agentName == agentName && run.status == Running
              && run.maxSteps == maxSteps && run.tokenBudget == tokenBudget
              && run.dataClassification == dataClassification && run.costTier == costTier
              && run.stepCount == run.totalInput == run.totalOutput == 0
              && run.finalOutput == None && run.error == None && run.createdAt == now && run.completedAt == None
    {
      runs := runs[id := NewRun(tenantId, agentName, maxSteps, tokenBudget, dataClassification, costTier, now)];
    }

    method Record(id: nat, stepIndex: nat, record: StepRecord)
      requires id in runs
      modifies this
      ensures Db() == Apply(old(Db()), RecordStep(id, stepIndex, record))
      ensures steps == old(steps) + [StepRow(id, stepIndex, record)]
      ensures runs == old(runs)[id := old(runs[id]).(
                stepCount := old(runs[id].stepCount) + 1,
                totalInput := old(runs[id].totalInput) + record.inputTokens,
                totalOutput := old(runs[id].totalOutput) + record.outputTokens)]
    {
      steps := steps + [StepRow(id, stepIndex, record)];
      var run := runs[id];
      run := run.(stepCount := run.stepCount + 1);
      run := run.(totalInput := run.totalInput + record.inputTokens);
      run := run.(totalOutput := run.totalOutput + record.outputTokens);
      runs := runs[id := run];
    }

    method Finish(id: nat, status: RunStatus, finalOutput: Option<string>, error: Option<string>, now: real)
      requires id in runs
      modifies this
      ensures Db() == Apply(old(Db()), FinishRun(id, status, finalOutput, error, now))
      ensures steps == old(steps)
      ensures runs == old(runs)[id := old(runs[id]).(
                status := status, finalOutput := finalOutput, error := error, completedAt := Some(now))]
    {
      runs := runs[id := runs[id].(status := status, finalOutput := finalOutput, error := error,
                                   completedAt := Some(now))];
    }

    /** rows is what the database returns for the ordered query on the run's steps. */
    method Replay(id: nat, tenant: Option<string>, rows: seq<StepRow>) returns (result: Option<ReplayedRun>)
      requires Orders(rows, StepsOf(Db(), id))
      ensures Replays(Db(), id, tenant, result)
      ensures result == match GetRun(Db(), id, tenant)
                        case None => None
                        case Some(run) => Some(Rebuilt(id, run, rows))
    {
      var run := GetRun(Db(), id, tenant);
      if run.None? {
        return None;
      }
      var records := [];
      for i := 0 to |rows|
        invariant records == Records(rows[..i])
      {
        records := records + [rows[i].record];
        assert rows[..i + 1][..i] == rows[..i];
      }
      assert rows[..|rows|] == rows;
      result := Some(ReplayedRun(id, run.value.status, run.value.finalOutput,
                                 run.value.totalInput, run.value.totalOutput, records));
    }
  }

  // ---------- Reads ----------

  predicate Visible(run: RunRow, tenant: Option<string>) {
    tenant.Some? ==> run.tenantId == tenant.value
  }

  function GetRun(db: Database, id: nat, tenant: Option<string>): Option<RunRow> {
    if id in db.runs && Visible(db.runs[id], tenant) then Some(db.runs[id]) else None
  }

  function StepsOf(db: Database, id: nat): seq<StepRow> {
    Filter(db.steps, (row: StepRow) => row.runId == id)
  }

  /** rows is one of the orders a query for the given rows, ordered by step_index alone, may return. */
  ghost predicate Orders(rows: seq<StepRow>, recorded: seq<StepRow>) {
    multiset(rows) == multiset(recorded) && Ascending(rows)
  }

  ghost predicate Ascending(rows: seq<StepRow>) {
    forall i, j | 0 <= i < j < |rows| :: rows[i].stepIndex <= rows[j].stepIndex
  }

  function Records(rows: seq<StepRow>): seq<StepRecord> {
    if rows == [] then [] else Records(rows[..|rows| - 1]) + [rows[|rows| - 1].record]
  }

  function Rebuilt(id: nat, run: RunRow, rows: seq<StepRow>): ReplayedRun {
    ReplayedRun(id, run.status, run.finalOutput, run.totalInput, run.totalOutput, Records(rows))
  }

  /** result is a possible answer of replay; None is "no such run". */
  ghost predicate Replays(db: Database, id: nat, tenant: Option<string>, result: Option<ReplayedRun>) {
    match GetRun(db, id, tenant)
    case None => result.None?
    case Some(run) => exists rows :: Orders(rows, StepsOf(db, id)) && result == Some(Rebuilt(id, run, rows))
  }

  /** ids lists each visible run once, newest first. */
  ghost predicate Newest(db: Database, tenant: Option<string>, ids: seq<nat>) {
    && (forall i, j | 0 <= i < j < |ids| :: ids[i] != ids[j])
    && (forall id :: id in ids <==> id in db.runs && Visible(db.runs[id], tenant))
    && (forall i, j | 0 <= i < j < |ids| :: db.runs[ids[i]].createdAt >= db.runs[ids[j]].createdAt)
  }

  ghost predicate Lists(db: Database, tenant: Option<string>, limit: nat, ids: seq<nat>) {
    exists all :: Newest(db, tenant, all) && ids == if limit < |all| then all[..limit] else all
  }

  lemma {:induction false} RecordAt(rows: seq<StepRow>, i: nat)
    requires i < |rows|
    ensures |Records(rows)| == |rows| && Records(rows)[i] == rows[i].record
  {
    var n := |rows| - 1;
    if i < n {
      RecordAt(rows[..n], i);
    } else if n > 0 {
      RecordAt(rows[..n], 0);
    }
  }

  /** Whatever replay answers, it speaks of a stored run the caller may see: its status, its final output
      and each of its totals, and one record per stored step, in the order of some allowed ordering. */
  lemma ReplayTellsTheRow(db: Database, id: nat, tenant: Option<string>, answer: ReplayedRun)
    returns (rows: seq<StepRow>)
    requires Replays(db, id, tenant, Some(answer))
    ensures id in db.runs && (tenant.Some? ==> db.runs[id].tenantId == tenant.value)
    ensures answer.runId == id && answer.status == db.runs[id].status
    ensures answer.finalOutput == db.runs[id].finalOutput
    ensures answer.totalInput == db.runs[id].totalInput && answer.totalOutput == db.runs[id].totalOutput
    ensures Orders(rows, StepsOf(db, id)) && |answer.steps| == |rows|
    ensures forall i | 0 <= i < |rows| :: answer.steps[i] == rows[i].record
  {
    rows :| Orders(rows, StepsOf(db, id)) && Some(answer) == Some(Rebuilt(id, db.runs[id], rows));
    forall i | 0 <= i < |rows|
      ensures |Records(rows)| == |rows| && Records(rows)[i] == rows[i].record
    {
      RecordAt(rows, i);
    }
  }

  // ---------- Replay when step_index has ties ----------

  predicate IsLlm(row: StepRow) {
    row.record.kind.LlmCall?
  }

  /** How a run is recorded: each iteration is one LLM call followed by its tool calls, all with the
      iteration's index. */
  predicate Iterations(rows: seq<StepRow>) {
    && (rows != [] ==> IsLlm(rows[0]))
    && (forall i | 0 < i < |rows| ::
          rows[i].stepIndex == if IsLlm(rows[i]) then rows[i - 1].stepIndex + 1 else rows[i - 1].stepIndex)
  }

  lemma {:induction false} IterationsAscend(rows: seq<StepRow>, i: nat, j: nat)
    requires Iterations(rows) && i < j < |rows|
    ensures rows[i].stepIndex <= rows[j].stepIndex
    ensures IsLlm(rows[j]) ==> rows[i].stepIndex < rows[j].stepIndex
  {
    if i < j - 1 {
      IterationsAscend(rows, i, j - 1);
    }
  }

  lemma IterationsAscending(rows: seq<StepRow>)
    requires Iterations(rows)
    ensures Ascending(rows)
    ensures forall i, j | 0 <= i < j < |rows| && IsLlm(rows[j]) :: rows[i].stepIndex < rows[j].stepIndex
  {
    forall i, j | 0 <= i < j < |rows|
      ensures rows[i].stepIndex <= rows[j].stepIndex && (IsLlm(rows[j]) ==> rows[i].stepIndex < rows[j].stepIndex)
    {
      IterationsAscend(rows, i, j);
    }
  }

  lemma RowRemoved(b: seq<StepRow>, j: nat)
    requires j < |b|
    ensures multiset(b[..j] + b[j + 1..]) == multiset(b) - multiset{b[j]}
  {
    assert b == b[..j] + [b[j]] + b[j + 1..];
  }

  lemma StillAscending(b: seq<StepRow>, j: nat)
    requires j < |b| && Ascending(b)
    ensures Ascending(b[..j] + b[j + 1..])
  {
  }

  lemma RemovedAmongTies(b: seq<StepRow>, j: nat)
    requires j < |b| && Ascending(b) && b[|b| - 1].stepIndex == b[j].stepIndex
    ensures var rest := b[..j] + b[j + 1..];
            |rest| == |b| - 1 && forall i | 0 <= i < |rest| :: rest[i].stepIndex == b[i].stepIndex
  {
  }

  lemma WithoutLast(a: seq<StepRow>)
    requires a != []
    ensures multiset(a[..|a| - 1]) == multiset(a) - multiset{a[|a| - 1]}
  {
    assert a == a[..|a| - 1] + [a[|a| - 1]];
  }

  lemma LastRowOccurs(a: seq<StepRow>, b: seq<StepRow>) returns (j: nat)
    requires a != [] && multiset(a) == multiset(b) && Ascending(a) && Ascending(b)
    ensures |a| == |b| && j < |b| && b[j] == a[|a| - 1]
    ensures b[|b| - 1].stepIndex == b[j].stepIndex
    ensures multiset(a[..|a| - 1]) == multiset(b) - multiset{b[j]}
  {
    var n := |a| - 1;
    assert |a| == |multiset(a)| == |multiset(b)| == |b|;
    assert a[n] in multiset(b) && b[n] in multiset(a);
    j :| 0 <= j < |b| && b[j] == a[n];
    var i :| 0 <= i < |a| && a[i] == b[n];
    WithoutLast(a);
  }

  /** Two ascending arrangements of the same rows carry the same index at every position. */
  lemma {:induction false} SameIndexAtEachPosition(a: seq<StepRow>, b: seq<StepRow>)
    requires multiset(a) == multiset(b) && Ascending(a) && Ascending(b)
    ensures |a| == |b| && forall i | 0 <= i < |a| :: a[i].stepIndex == b[i].stepIndex
    decreases |a|
  {
    if a == [] {
      assert |multiset(a)| == |multiset(b)|;
    } else {
      var j := LastRowOccurs(a, b);
      RowRemoved(b, j);
      StillAscending(b, j);
      RemovedAmongTies(b, j);
      var shorter, rest := a[..|a| - 1], b[..j] + b[j + 1..];
      SameIndexAtEachPosition(shorter, rest);
      assert forall i | 0 <= i < |rest| :: shorter[i].stepIndex == rest[i].stepIndex == b[i].stepIndex;
    }
  }

  /** Whatever order the database picks among ties, replay keeps the LLM calls in recorded order
      and every row inside its own iteration's stretch of positions. */
  lemma ReplayKeepsIterations(rows: seq<StepRow>, recorded: seq<StepRow>)
    requires Iterations(recorded) && Orders(rows, recorded)
    ensures |rows| == |recorded|
    ensures forall i | 0 <= i < |rows| :: rows[i].stepIndex == recorded[i].stepIndex
    ensures Filter(rows, IsLlm) == Filter(recorded, IsLlm)
  {
    IterationsAscending(recorded);
    SameIndexAtEachPosition(rows, recorded);
    SameLlmRows(rows, recorded);
  }

  lemma SameLlmRows(rows: seq<StepRow>, recorded: seq<StepRow>)
    requires multiset(rows) == multiset(recorded) && Ascending(rows) && Ascending(recorded)
    requires forall i, j | 0 <= i < j < |recorded| && IsLlm(recorded[j]) ::
               recorded[i].stepIndex < recorded[j].stepIndex
    ensures Filter(rows, IsLlm) == Filter(recorded, IsLlm)
  {
    SameFiltered(rows, recorded);
    FilterAscends(rows);
    FilterAscends(recorded);
    StrictOrderIsUnique(Filter(rows, IsLlm), Filter(recorded, IsLlm));
  }

  lemma SameFiltered(a: seq<StepRow>, b: seq<StepRow>)
    requires multiset(a) == multiset(b)
    ensures multiset(Filter(a, IsLlm)) == multiset(Filter(b, IsLlm))
  {
    FilterMultiset(a, IsLlm);
    FilterMultiset(b, IsLlm);
  }

  ghost predicate StrictlyAscending(rows: seq<StepRow>) {
    forall i, j | 0 <= i < j < |rows| :: rows[i].stepIndex < rows[j].stepIndex
  }

  lemma {:induction false} FilterAscends(rows: seq<StepRow>)
    requires Ascending(rows)
    ensures Ascending(Filter(rows, IsLlm))
    ensures (forall i, j | 0 <= i < j < |rows| && IsLlm(rows[j]) :: rows[i].stepIndex < rows[j].stepIndex)
            ==> StrictlyAscending(Filter(rows, IsLlm))
  {
    if rows != [] {
      var before := Filter(rows[..|rows| - 1], IsLlm);
      FilterAscends(rows[..|rows| - 1]);
      FilterMembers(rows[..|rows| - 1], IsLlm);
      forall i | 0 <= i < |before|
        ensures before[i] in rows[..|rows| - 1]
      {
        assert before[i] in before;
      }
    }
  }

  lemma StrictOrderIsUnique(a: seq<StepRow>, b: seq<StepRow>)
    requires multiset(a) == multiset(b) && Ascending(a) && StrictlyAscending(b)
    ensures a == b
  {
    SameIndexAtEachPosition(a, b);
    forall i | 0 <= i < |a|
      ensures a[i] == b[i]
    {
      assert a[i] in multiset(a);
      assert a[i] in b;
    }
  }

  function Ties(rows: seq<StepRow>, k: nat): seq<StepRow> {
    Filter(rows, (row: StepRow) => row.stepIndex == k)
  }

  /** A sort that keeps ties in insertion order. */
  ghost predicate KeepsTies(rows: seq<StepRow>, recorded: seq<StepRow>) {
    forall k: nat :: Ties(rows, k) == Ties(recorded, k)
  }

  lemma {:induction false} SameTiesSameRows(a: seq<StepRow>, b: seq<StepRow>)
    requires |a| == |b| && KeepsTies(a, b)
    requires forall i | 0 <= i < |a| :: a[i].stepIndex == b[i].stepIndex
    ensures a == b
    decreases |a|
  {
    if a != [] {
      var n := |a| - 1;
      var k := a[n].stepIndex;
      assert Ties(a, k) == Ties(b, k) && a[n] == Ties(a, k)[|Ties(a, k)| - 1] == b[n];
      forall i: nat
        ensures Ties(a[..n], i) == Ties(b[..n], i)
      {
        assert Ties(a, i) == Ties(b, i);
        Shortened(a, i);
        Shortened(b, i);
      }
      SameTiesSameRows(a[..n], b[..n]);
      assert a == a[..n] + [a[n]] && b == b[..n] + [b[n]];
    }
  }

  lemma Shortened(rows: seq<StepRow>, k: nat)
    requires rows != []
    ensures var n := |rows| - 1;
            var ties := Ties(rows, k);
            if rows[n].stepIndex == k then ties != [] && Ties(rows[..n], k) == ties[..|ties| - 1]
            else Ties(rows[..n], k) == ties
  {
  }

  /** Under a stable sort replay returns exactly what was recorded. */
  lemma StableReplayIsExact(rows: seq<StepRow>, recorded: seq<StepRow>)
    requires Iterations(recorded) && Orders(rows, recorded) && KeepsTies(rows, recorded)
    ensures rows == recorded
  {
    IterationsAscending(recorded);
    SameIndexAtEachPosition(rows, recorded);
    SameTiesSameRows(rows, recorded);
  }

  /** A tool row may change places with the LLM row right before it, and the answer shows it. */
  lemma {:induction false} TieMayBeSwapped(recorded: seq<StepRow>, i: nat)
    requires Ascending(recorded) && 0 < i < |recorded| && recorded[i - 1].stepIndex == recorded[i].stepIndex
    requires recorded[i - 1].record != recorded[i].record
    ensures exists rows :: Orders(rows, recorded) && Records(rows) != Records(recorded)
  {
    var swapped := recorded[i - 1 := recorded[i]][i := recorded[i - 1]];
    assert multiset(swapped) == multiset(recorded);
    assert forall j | 0 <= j < |recorded| :: swapped[j].stepIndex == recorded[j].stepIndex;
    RecordAt(swapped, i);
    RecordAt(recorded, i);
    assert Orders(swapped, recorded) && Records(swapped) != Records(recorded);
  }

  /** What replay returns is what was recorded, for every order the database may pick, if and only if no
      iteration used a tool. */
  lemma ReplayExactIffNoTools(recorded: seq<StepRow>)
    requires Iterations(recorded)
    ensures (forall rows :: Orders(rows, recorded) ==> Records(rows) == Records(recorded))
            <==> (forall i | 0 <= i < |recorded| :: IsLlm(recorded[i]))
  {
    IterationsAscending(recorded);
    if forall i | 0 <= i < |recorded| :: IsLlm(recorded[i]) {
      forall rows | Orders(rows, recorded)
        ensures rows == recorded
      {
        StrictOrderIsUnique(rows, recorded);
      }
    } else {
      var i := 0;
      while IsLlm(recorded[i])
        invariant 0 <= i < |recorded|
        invariant forall j | 0 <= j < i :: IsLlm(recorded[j])
        decreases |recorded| - i
      {
        i := i + 1;
      }
      TieMayBeSwapped(recorded, i);
    }
  }

  // ---------- Tenant isolation of reads ----------

  function RunAll(db: Database, writes: seq<Write>): Database
    requires AllPossible(db, writes)
    decreases |writes|
  {
    if writes == [] then db else RunAll(Apply(db, writes[0]), writes[1..])
  }

  predicate AllPossible(db: Database, writes: seq<Write>)
    decreases |writes|
  {
    writes == [] || (Possible(db, writes[0]) && AllPossible(Apply(db, writes[0]), writes[1..]))
  }

  predicate Concerns(db: Database, w: Write, tenant: string)
    requires Possible(db, w)
  {
    if w.StartRun? then w.row.tenantId == tenant else db.runs[w.id].tenantId == tenant
  }

  /** None of the writes is on a run of the tenant. */
  predicate AllByOthers(db: Database, writes: seq<Write>, tenant: string)
    requires AllPossible(db, writes)
    decreases |writes|
  {
    writes == [] ||
    (!Concerns(db, writes[0], tenant) && AllByOthers(Apply(db, writes[0]), writes[1..], tenant))
  }

  /** The two databases hold the same runs of the tenant, with the same steps. */
  ghost predicate Agree(a: Database, b: Database, tenant: string) {
    && (forall id :: id in a.runs && a.runs[id].tenantId == tenant <==> id in b.runs && b.runs[id].tenantId == tenant)
    && (forall id :: id in a.runs && a.runs[id].tenantId == tenant ==>
        a.runs[id] == b.runs[id] && StepsOf(a, id) == StepsOf(b, id))
  }

  /** A tenant's reads give the same possible answers on databases that agree on its own data. */
  lemma OwnDataDecidesReads(a: Database, b: Database, tenant: string, id: nat, limit: nat)
    requires Agree(a, b, tenant)
    ensures GetRun(a, id, Some(tenant)) == GetRun(b, id, Some(tenant))
    ensures forall result :: Replays(a, id, Some(tenant), result) <==> Replays(b, id, Some(tenant), result)
    ensures forall ids :: Lists(a, Some(tenant), limit, ids) <==> Lists(b, Some(tenant), limit, ids)
  {
    forall ids
      ensures Newest(a, Some(tenant), ids) <==> Newest(b, Some(tenant), ids)
    {
      if Newest(a, Some(tenant), ids) {
        SameListing(a, b, tenant, ids);
      }
      if Newest(b, Some(tenant), ids) {
        SameListing(b, a, tenant, ids);
      }
    }
  }

  lemma SameListing(a: Database, b: Database, tenant: string, ids: seq<nat>)
    requires Agree(a, b, tenant) && Newest(a, Some(tenant), ids)
    ensures Newest(b, Some(tenant), ids)
  {
  }

  /** One more step row leaves the steps of other runs as they are. */
  lemma OtherRunsSteps(runs: map<nat, RunRow>, after: map<nat, RunRow>, steps: seq<StepRow>, row: StepRow, id: nat)
    requires row.runId != id
    ensures StepsOf(Database(after, steps + [row]), id) == StepsOf(Database(runs, steps), id)
  {
    assert (steps + [row])[..|steps + [row]| - 1] == steps;
  }

  lemma StartByAnother(db: Database, w: Write, tenant: string)
    requires Possible(db, w) && !Concerns(db, w, tenant) && w.StartRun?
    ensures Agree(db, Apply(db, w), tenant)
  {
    assert Apply(db, w).steps == db.steps;
  }

  lemma FinishByAnother(db: Database, w: Write, tenant: string)
    requires Possible(db, w) && !Concerns(db, w, tenant) && w.FinishRun?
    ensures Agree(db, Apply(db, w), tenant)
  {
    assert Apply(db, w).steps == db.steps;
  }

  lemma RecordByAnother(db: Database, w: Write, tenant: string)
    requires Possible(db, w) && !Concerns(db, w, tenant) && w.RecordStep?
    ensures Agree(db, Apply(db, w), tenant)
  {
    var after := Apply(db, w);
    var row := StepRow(w.id, w.stepIndex, w.record);
    assert after.steps == db.steps + [row];
    forall id | id in db.runs && db.runs[id].tenantId == tenant
      ensures StepsOf(after, id) == StepsOf(db, id)
    {
      OtherRunsSteps(db.runs, after.runs, db.steps, row, id);
    }
  }

  lemma OneWriteByAnother(db: Database, w: Write, tenant: string)
    requires Possible(db, w) && !Concerns(db, w, tenant)
    ensures Agree(db, Apply(db, w), tenant)
  {
    match w
    case StartRun(_, _) => StartByAnother(db, w, tenant);
    case RecordStep(_, _, _) => RecordByAnother(db, w, tenant);
    case FinishRun(_, _, _, _, _) => FinishByAnother(db, w, tenant);
  }

  lemma {:induction false} OthersLeaveOwnDataAlone(db: Database, writes: seq<Write>, tenant: string)
    requires AllPossible(db, writes) && AllByOthers(db, writes, tenant)
    ensures Agree(db, RunAll(db, writes), tenant)
    decreases |writes|
  {
    if writes != [] {
      OneWriteByAnother(db, writes[0], tenant);
      OthersLeaveOwnDataAlone(Apply(db, writes[0]), writes[1..], tenant);
      AgreementCarries(db, Apply(db, writes[0]), RunAll(db, writes), tenant);
    }
  }

  lemma AgreementCarries(a: Database, b: Database, c: Database, tenant: string)
    requires Agree(a, b, tenant) && Agree(b, c, tenant)
    ensures Agree(a, c, tenant)
  {
  }

  /** Whatever other tenants write, in any order, a tenant's reads do not change. */
  lemma OthersCannotBeSeen(db: Database, writes: seq<Write>, tenant: string, id: nat, limit: nat)
    requires AllPossible(db, writes) && AllByOthers(db, writes, tenant)
    ensures var after := RunAll(db, writes);
            && GetRun(after, id, Some(tenant)) == GetRun(db, id, Some(tenant))
            && (forall result :: Replays(after, id, Some(tenant), result) <==> Replays(db, id, Some(tenant), result))
            && (forall ids :: Lists(after, Some(tenant), limit, ids) <==> Lists(db, Some(tenant), limit, ids))
  {
    OthersLeaveOwnDataAlone(db, writes, tenant);
    OwnDataDecidesReads(db, RunAll(db, writes), tenant, id, limit);
  }

  function RunsOf(db: Database, tenant: string): set<nat> {
    set id | id in db.runs && db.runs[id].tenantId == tenant
  }

  /** list_runs is the first limit of the tenant's own runs, newest first: only its runs, none twice,
      none left out in favour of an older one. */
  lemma ListIsNewestOwnRuns(db: Database, tenant: string, limit: nat, ids: seq<nat>)
    requires Lists(db, Some(tenant), limit, ids)
    ensures |ids| == if limit < |RunsOf(db, tenant)| then limit else |RunsOf(db, tenant)|
    ensures forall i | 0 <= i < |ids| :: ids[i] in RunsOf(db, tenant)
    ensures forall i, j | 0 <= i < j < |ids| ::
              ids[i] != ids[j] && db.runs[ids[i]].createdAt >= db.runs[ids[j]].createdAt
    ensures forall i, id | 0 <= i < |ids| && id in RunsOf(db, tenant) && id !in ids ::
              db.runs[ids[i]].createdAt >= db.runs[id].createdAt
  {
    var all :| Newest(db, Some(tenant), all) && ids == if limit < |all| then all[..limit] else all;
    ListingIsComplete(db, tenant, all);
    assert forall i | 0 <= i < |ids| :: ids[i] == all[i];
    forall i, id | 0 <= i < |ids| && id in RunsOf(db, tenant) && id !in ids
      ensures db.runs[ids[i]].createdAt >= db.runs[id].createdAt
    {
      LeftOutIsOlder(db, tenant, ids, all, i, id);
    }
  }

  lemma LeftOutIsOlder(db: Database, tenant: string, ids: seq<nat>, all: seq<nat>, i: nat, id: nat)
    requires Newest(db, Some(tenant), all) && ids <= all && i < |ids| && id in all && id !in ids
    ensures ids[i] in db.runs && id in db.runs && db.runs[ids[i]].createdAt >= db.runs[id].createdAt
  {
    var j :| 0 <= j < |all| && all[j] == id;
    NotCutOff(ids, all, j);
    assert ids[i] == all[i] && all[i] in all;
  }

  lemma NotCutOff(ids: seq<nat>, all: seq<nat>, j: nat)
    requires ids <= all && j < |all| && all[j] !in ids
    ensures j >= |ids|
  {
  }

  lemma ListingIsComplete(db: Database, tenant: string, all: seq<nat>)
    requires Newest(db, Some(tenant), all)
    ensures |all| == |RunsOf(db, tenant)|
    ensures forall i | 0 <= i < |all| :: all[i] in RunsOf(db, tenant)
    ensures forall id | id in RunsOf(db, tenant) :: id in all
  {
    DistinctCount(all, RunsOf(db, tenant));
    assert forall i | 0 <= i < |all| :: all[i] in all;
  }

  lemma {:induction false} DistinctCount(ids: seq<nat>, s: set<nat>)
    requires forall i, j | 0 <= i < j < |ids| :: ids[i] != ids[j]
    requires forall id :: id in ids <==> id in s
    ensures |ids| == |s|
  {
    if ids == [] {
      assert s == {};
    } else {
      var n := |ids| - 1;
      forall id
        ensures id in ids[..n] <==> id in s - {ids[n]}
      {
        assert ids[n] in ids;
      }
      DistinctCount(ids[..n], s - {ids[n]});
      assert ids[n] in s;
    }
  }

  ghost predicate NewestFirst(runs: map<nat, RunRow>, ids: seq<nat>) {
    && (forall i | 0 <= i < |ids| :: ids[i] in runs)
    && (forall i, j | 0 <= i < j < |ids| :: runs[ids[i]].createdAt > runs[ids[j]].createdAt)
  }

  lemma {:induction false} OneOrderByDistinctTimes(runs: map<nat, RunRow>, a: seq<nat>, b: seq<nat>)
    requires NewestFirst(runs, a) && NewestFirst(runs, b) && |a| == |b|
    requires forall id :: id in a <==> id in b
    ensures a == b
    decreases |a|
  {
    if a != [] {
      var m, n := |a| - 1, |b| - 1;
      assert a[m] in a && b[n] in b;
      assert a[m] == b[n];
      forall id
        ensures id in a[..m] <==> id in b[..n]
      {
        assert id in a[..m] ==> id in a && id != a[m];
        assert id in b[..n] ==> id in b && id != b[n];
      }
      OneOrderByDistinctTimes(runs, a[..m], b[..n]);
      assert a == a[..m] + [a[m]] && b == b[..n] + [b[n]];
    }
  }

  /** With distinct creation times the answer is unique. */
  lemma ListIsDetermined(db: Database, tenant: string, limit: nat, a: seq<nat>, b: seq<nat>)
    requires Lists(db, Some(tenant), limit, a) && Lists(db, Some(tenant), limit, b)
    requires forall i, j | i in RunsOf(db, tenant) && j in RunsOf(db, tenant) && i != j ::
               db.runs[i].createdAt != db.runs[j].createdAt
    ensures a == b
  {
    var x :| Newest(db, Some(tenant), x) && a == if limit < |x| then x[..limit] else x;
    var y :| Newest(db, Some(tenant), y) && b == if limit < |y| then y[..limit] else y;
    ListingIsComplete(db, tenant, x);
    ListingIsComplete(db, tenant, y);
    StrictlyNewest(db, tenant, x);
    StrictlyNewest(db, tenant, y);
    OneOrderByDistinctTimes(db.runs, x, y);
  }

  lemma StrictlyNewest(db: Database, tenant: string, ids: seq<nat>)
    requires Newest(db, Some(tenant), ids)
    requires forall i, j | i in RunsOf(db, tenant) && j in RunsOf(db, tenant) && i != j ::
               db.runs[i].createdAt != db.runs[j].createdAt
    ensures NewestFirst(db.runs, ids)
  {
  }
}
