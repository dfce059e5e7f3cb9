/** The scripted provider of the evaluation gate, and what a run driven by it does. */
module Golden {
  import opened Wrappers
  import opened Chat
  import opened Trace
  import opened Runtime
  import opened RunLaws

  datatype GoldenToolCall = GoldenToolCall(tool: string, arguments: string)

  datatype EvalCase = EvalCase(id: string, goldenToolCalls: seq<GoldenToolCall>, goldenFinalText: string)

  function Decimal(n: nat): string {
    if n < 10 then [('0' as int + n) as char] else Decimal(n / 10) + Decimal(n % 10)
  }

  function ToolStep(call: GoldenToolCall, i: nat): ChatResponse {
    ChatResponse(Plain(Assistant, ""), [ToolCall("golden-" + Decimal(i), call.tool, call.arguments)],
                 Usage(20, 8), "golden", "golden-fixture")
  }

  function FinalStep(text: string): ChatResponse {
    ChatResponse(Plain(Assistant, text), [], Usage(10, 5), "golden", "golden-fixture")
  }

  /** The i-th answer of the script; past its end every call raises an AssertionError. */
  function ScriptedReply(c: EvalCase, i: nat): RouteReply {
    if i < |c.goldenToolCalls| then Reply(ToolStep(c.goldenToolCalls[i], i))
    else if i == |c.goldenToolCalls| then Reply(FinalStep(c.goldenFinalText))
    else Escaped("eval case " + c.id + ": provider called more times than the golden fixture script has steps for")
  }

  /** The number a decimal numeral stands for. */
  function Number(digits: string): nat
    requires forall i | 0 <= i < |digits| :: '0' <= digits[i] <= '9'
  {
    if digits == [] then 0
    else 10 * Number(digits[..|digits| - 1]) + (digits[|digits| - 1] as int - '0' as int)
  }

  /** Decimal writes n in decimal, so no two tool calls of a script share an id. */
  lemma {:induction false} DecimalIsRead(n: nat)
    ensures forall i | 0 <= i < |Decimal(n)| :: '0' <= Decimal(n)[i] <= '9'
    ensures Number(Decimal(n)) == n
  {
    if n >= 10 {
      DecimalIsRead(n / 10);
      var init, last := Decimal(n / 10), ('0' as int + n % 10) as char;
      assert Decimal(n % 10) == [last] && Decimal(n) == init + [last];
      assert (init + [last])[..|init|] == init;
    } else {
      assert Decimal(n)[..0] == [];
    }
  }

  method Script(c: EvalCase) returns (steps: seq<ChatResponse>)
    ensures |steps| == |c.goldenToolCalls| + 1
    ensures forall i | 0 <= i < |steps| :: Reply(steps[i]) == ScriptedReply(c, i)
    ensures forall i | 0 <= i < |c.goldenToolCalls| ::
              && steps[i].message == ChatMessage(Assistant, "", None, None) && steps[i].usage == Usage(20, 8)
              && steps[i].toolCalls == [ToolCall("golden-" + Decimal(i), c.goldenToolCalls[i].tool,
                                                 c.goldenToolCalls[i].arguments)]
    ensures var last := steps[|c.goldenToolCalls|];
            && last.message == ChatMessage(Assistant, c.goldenFinalText, None, None)
            && last.usage == Usage(10, 5) && last.toolCalls == []
  {
    steps := [];
    for i := 0 to |c.goldenToolCalls|
      invariant |steps| == i
      invariant forall j | 0 <= j < i :: Reply(steps[j]) == ScriptedReply(c, j)
    {
      steps := steps + [ToolStep(c.goldenToolCalls[i], i)];
    }
    steps := steps + [FinalStep(c.goldenFinalText)];
  }

  class GoldenScriptProvider {
    const evalCase: EvalCase
    var pending: seq<ChatResponse>
    var callCount: nat

    /** What is pending is the script's rest. */
    ghost predicate Valid()
      reads this
    {
      && |pending|
         == (if callCount <= |evalCase.goldenToolCalls| then |evalCase.goldenToolCalls| + 1 - callCount else 0)
      && forall i | 0 <= i < |pending| :: Reply(pending[i]) == ScriptedReply(evalCase, callCount + i)
    }

    constructor (evalCase: EvalCase)
      ensures Valid() && this.evalCase == evalCase && callCount == 0
    {
      this.evalCase := evalCase;
      callCount := 0;
      pending := [];
      new;
      pending := Script(evalCase);
    }

    method Chat() returns (reply: RouteReply)
      requires Valid()
      modifies this
      ensures Valid() && callCount == old(callCount) + 1
      ensures reply == ScriptedReply(evalCase, old(callCount))
    {
      callCount := callCount + 1;
      if pending == [] {
        return ScriptedReply(evalCase, callCount - 1);
      }
      reply := Reply(pending[0]);
      pending := pending[1..];
    }
  }

  // ---------- The run it drives ----------

  ghost predicate Drives(c: EvalCase, world: World) {
    forall i: nat :: world.replies(i) == ScriptedReply(c, i)
  }

  lemma GoldenRound(s: Session, c: EvalCase, k: nat, p: Progress)
    requires Drives(c, s.world) && Spent(p) == 28 * k
    ensures Iterate(s, k, p).Next? <==> k < |c.goldenToolCalls| && 28 * (k + 1) <= s.config.tokenBudget
    ensures Iterate(s, k, p).Next? ==> Spent(Iterate(s, k, p).progress) == 28 * (k + 1)
  {
    assert s.world.replies(k) == ScriptedReply(c, k);
  }

  /** Which heads there are, and what has been spent there. */
  ghost predicate GoldenHead(s: Session, opening: seq<ChatMessage>, c: EvalCase, k: nat) {
    && (HeadAt(s, opening, k).Some? <==> (k <= |c.goldenToolCalls| && 28 * k <= s.config.tokenBudget))
    && (HeadAt(s, opening, k).Some? ==> Spent(HeadAt(s, opening, k).value) == 28 * k)
  }

  lemma GoldenNext(s: Session, opening: seq<ChatMessage>, c: EvalCase, k: nat)
    requires Drives(c, s.world) && GoldenHead(s, opening, c, k)
    ensures GoldenHead(s, opening, c, k + 1)
  {
    if HeadAt(s, opening, k).Some? {
      GoldenRound(s, c, k, HeadAt(s, opening, k).value);
    }
  }

  lemma {:induction false} FromZeroUp(holds: nat -> bool, k: nat)
    requires holds(0) && forall i: nat :: holds(i) ==> holds(i + 1)
    ensures holds(k)
  {
    if k > 0 {
      FromZeroUp(holds, k - 1);
    }
  }

  lemma GoldenHeads(s: Session, opening: seq<ChatMessage>, c: EvalCase, k: nat)
    requires Drives(c, s.world) && s.config.tokenBudget >= 0
    ensures GoldenHead(s, opening, c, k)
  {
    var holds := (i: nat) => GoldenHead(s, opening, c, i);
    forall i: nat | holds(i)
      ensures holds(i + 1)
    {
      GoldenNext(s, opening, c, i);
    }
    FromZeroUp(holds, k);
  }

  lemma GoldenEnding(s: Session, opening: seq<ChatMessage>, c: EvalCase, n: nat)
    requires Drives(c, s.world) && s.config.tokenBudget >= 0 && HeadAt(s, opening, n).Some?
    requires ScreenResponse(s, c.goldenFinalText) == Allowed(c.goldenFinalText, [])
    requires Iterate(s, n, HeadAt(s, opening, n).value).Stop?
    ensures var exit := Iterate(s, n, HeadAt(s, opening, n).value).exit;
            if n == |c.goldenToolCalls| && 28 * n + 15 <= s.config.tokenBudget
            then exit == Finished(Completed, Some(c.goldenFinalText), None, n + 1, [])
            else exit.Finished? && exit.status == BudgetExceeded
                 && 28 * |c.goldenToolCalls| + 15 > s.config.tokenBudget
  {
    GoldenHeads(s, opening, c, n);
    assert s.world.replies(n) == ScriptedReply(c, n);
  }

  /** With nothing blocked, a run on a script of k tool calls never asks for more than the script
      has; it completes with the scripted text exactly when the step limit leaves room for the final
      answer and the budget covers the scripted usage; and when the budget does, it makes
      min(k + 1, limit) provider calls and otherwise ends at the step limit. */
  lemma GoldenRun(s: Session, opening: seq<ChatMessage>, c: EvalCase)
    requires Drives(c, s.world) && s.config.tokenBudget >= 0 && s.config.maxSteps >= 0
    requires ScreenResponse(s, c.goldenFinalText) == Allowed(c.goldenFinalText, [])
    ensures var (p, exit) := RunFrom(s, 0, Start(opening));
            var k, limit := |c.goldenToolCalls|, s.config.maxSteps;
            var covered := 28 * k + 15 <= s.config.tokenBudget;
            && exit.Finished? && LlmRows(p.log) <= k + 1
            && (exit.status == Completed && exit.finalOutput == Some(c.goldenFinalText) <==> k < limit && covered)
            && (covered ==> LlmRows(p.log) == if k < limit then k + 1 else limit)
            && (covered && limit <= k ==> exit.status == MaxStepsExceeded)
  {
    var k, limit := |c.goldenToolCalls|, s.config.maxSteps;
    var n := EndsSomewhere(s, opening, 0);
    GoldenHeads(s, opening, c, n);
    HeadsAreBalanced(s, opening, n);
    if n < limit {
      GoldenEnding(s, opening, c, n);
      IterationKeepsBalance(s, n, HeadAt(s, opening, n).value);
    }
  }

  /** The run asks for the golden tools with the golden arguments, in order: one LLM row and one tool row per
      scripted call. */
  ghost predicate PlaysScript(c: EvalCase, world: World, k: nat, log: seq<StepRow>) {
    && |log| == 2 * k && k <= |c.goldenToolCalls|
    && forall i | 0 <= i < k ::
         && IsLlm(log[2 * i]) && !IsLlm(log[2 * i + 1])
         && log[2 * i + 1].record.input == Arguments(c.goldenToolCalls[i].arguments)
         && log[2 * i + 1].record.toolName
            == Some(if c.goldenToolCalls[i].tool in world.tools then world.tools[c.goldenToolCalls[i].tool].name
                    else c.goldenToolCalls[i].tool)
  }

  lemma RoundPlays(s: Session, c: EvalCase, k: nat, p: Progress, r: ChatResponse)
    requires Drives(c, s.world) && PlaysScript(c, s.world, k, p.log) && GoesOn(s, k, p, r)
    ensures PlaysScript(c, s.world, k + 1, Continued(s, k, p, r).log)
  {
    assert s.world.replies(k) == ScriptedReply(c, k);
    assert r == ToolStep(c.goldenToolCalls[k], k);
    var call := r.toolCalls[0];
    assert r.toolCalls[..0] == [];
    assert ToolRows(s, k, r.toolCalls) == ToolRows(s, k, r.toolCalls[..0]) + [ToolRow(s, k, 0, call)];
    var log := Continued(s, k, p, r).log;
    assert log == p.log + [ResponseRow(s, k, p.messages, r)] + [ToolRow(s, k, 0, call)];
    forall i | 0 <= i < k
      ensures log[2 * i] == p.log[2 * i] && log[2 * i + 1] == p.log[2 * i + 1]
    {
    }
  }

  lemma GoldenRunPlaysScript(s: Session, opening: seq<ChatMessage>, c: EvalCase, k: nat)
    requires Drives(c, s.world) && HeadAt(s, opening, k).Some?
    ensures PlaysScript(c, s.world, k, HeadAt(s, opening, k).value.log)
  {
    var inv := (i: nat, p: Progress) => PlaysScript(c, s.world, i, p.log);
    forall i: nat, p: Progress, r: ChatResponse | inv(i, p) && GoesOn(s, i, p, r)
      ensures inv(i + 1, Continued(s, i, p, r))
    {
      RoundPlays(s, c, i, p, r);
    }
    var p := HeadInduction(s, opening, k, inv);
  }
}
