/** What a failing provider still costs, in any interleaving: calls during an outage, probes after a
    trip, and the provider that rejects every call. */
module Outages {
  import opened Wrappers
  import opened Chat
  import opened CircuitBreaker
  import opened Routing
  import opened Gateway
  import opened Failover

  // ---------- Calls and waiting tasks ----------

  predicate Awaits(task: Task, p: string) {
    task.phase.Waiting? && |task.slots| < |task.names| && task.names[|task.slots|] == p
  }

  /** The tasks awaiting a call to p. */
  function WaitingOn(tasks: map<nat, Task>, p: string): set<nat> {
    set id | id in tasks && Awaits(tasks[id], p)
  }

  lemma SizeWithout(s: set<nat>, id: nat)
    ensures |s| == |s - {id}| + (if id in s then 1 else 0)
  {
    assert id in s ==> s == s - {id} + {id};
    assert id !in s ==> s == s - {id};
  }

  lemma OthersStillWait(tasks: map<nat, Task>, id: nat, task: Task, p: string)
    ensures WaitingOn(tasks[id := task], p) - {id} == WaitingOn(tasks, p) - {id}
    ensures id in WaitingOn(tasks[id := task], p) <==> Awaits(task, p)
  {
  }

  lemma OneTaskMoves(tasks: map<nat, Task>, id: nat, task: Task, p: string)
    ensures |WaitingOn(tasks[id := task], p)|
         == |WaitingOn(tasks, p)| - (if id in tasks && Awaits(tasks[id], p) then 1 else 0)
                                  + (if Awaits(task, p) then 1 else 0)
  {
    OthersStillWait(tasks, id, task, p);
    SizeWithout(WaitingOn(tasks, p), id);
    SizeWithout(WaitingOn(tasks[id := task], p), id);
  }

  function CallsTo(calls: seq<Call>, p: string): nat {
    if calls == [] then 0
    else CallsTo(calls[..|calls| - 1], p) + (if calls[|calls| - 1].provider == p then 1 else 0)
  }

  lemma CallCounted(calls: seq<Call>, c: Call, p: string)
    ensures CallsTo(calls + [c], p) == CallsTo(calls, p) + (if c.provider == p then 1 else 0)
  {
    assert (calls + [c])[..|calls|] == calls;
  }

  /** The step asks the breaker about p. */
  predicate Asks(d: Deployment, g: Gateway, step: Step, p: string) {
    && step.Consult? && step.id in g.tasks && |g.tasks[step.id].slots| < |g.tasks[step.id].names|
    && g.tasks[step.id].names[|g.tasks[step.id].slots|] == p && p in d.registered
  }

  /** The step returns a call to p. */
  predicate Returns(g: Gateway, step: Step, p: string) {
    step.Settle? && step.id in g.tasks && Awaits(g.tasks[step.id], p)
  }

  /** What one step means to p: nothing; a call goes out; p is let through but not configured; p is
      refused; a call returns with a success, a transient error, or an authentication error. */
  datatype Effect = Nothing | LetOut | LetThrough | Kept | Healthy | Failing | Mute

  function EffectOn(d: Deployment, g: Gateway, step: Step, p: string): Effect {
    if Asks(d, g, step, p) then
      if !Asked(d.policy.breaker, Lookup(g.entries, p), step.at).0 then Kept
      else if p in d.policy.models then LetOut
      else LetThrough
    else if Returns(g, step, p) then
      match step.outcome
      case Success(_) => Healthy
      case AuthError => Mute
      case TransientError => Failing
    else Nothing
  }

  function Launched(effect: Effect): nat {
    if effect.LetOut? then 1 else 0
  }

  function Landed(effect: Effect): nat {
    if effect.Healthy? || effect.Failing? || effect.Mute? then 1 else 0
  }

  /** The event of p that a step adds to the history, if any. */
  ghost predicate Adds(w: seq<Event>, p: string, effect: Effect, step: Step) {
    match effect
    case LetOut => step.Consult? && w == [Admitted(p, step.at)]
    case LetThrough => step.Consult? && w == [Admitted(p, step.at)]
    case Kept => step.Consult? && w == [Refused(p, step.at)]
    case Healthy => w == [Succeeded(p)]
    case Failing => step.Settle? && w == [Failed(p, step.at)]
    case Nothing => |w| <= 1 && forall e :: e in w ==> e.provider != p
    case Mute => w == []
  }

  lemma AddedConsulting(d: Deployment, g: Gateway, step: Step, p: string)
    requires Enabled(g, step) && step.Consult?
    ensures Adds(Added(d, g, step), p, EffectOn(d, g, step, p), step)
  {
    var name := g.tasks[step.id].names[|g.tasks[step.id].slots|];
    ConsultedBreakers(d, g, step.id, step.at);
    assert name !in d.registered ==> Added(d, g, step) == [];
  }

  lemma AddedSettling(d: Deployment, g: Gateway, step: Step, p: string)
    requires Enabled(g, step) && step.Settle?
    ensures Adds(Added(d, g, step), p, EffectOn(d, g, step, p), step)
  {
    assert Added(d, g, step) == Aftermath(g.tasks[step.id].names[|g.tasks[step.id].slots|], step.outcome, step.at);
  }

  lemma WaitingAfter(d: Deployment, g: Gateway, step: Step, p: string)
    requires Enabled(g, step)
    ensures |WaitingOn(Apply(d, g, step).tasks, p)|
         == |WaitingOn(g.tasks, p)| + Launched(EffectOn(d, g, step, p)) - Landed(EffectOn(d, g, step, p))
  {
    OneTaskMoves(g.tasks, step.id, Apply(d, g, step).tasks[step.id], p);
  }

  lemma CallsAfter(d: Deployment, g: Gateway, step: Step, p: string)
    requires Enabled(g, step)
    ensures CallsTo(Apply(d, g, step).calls, p)
         == CallsTo(g.calls, p) + Launched(EffectOn(d, g, step, p))
  {
    if step.Consult? {
      var task := g.tasks[step.id];
      CallCounted(g.calls, Call(task.context, task.names[|task.slots|], step.at), p);
    }
  }

  /** What one step does to everything counted about p. */
  lemma StepMeans(d: Deployment, g: Gateway, step: Step, p: string)
    requires Enabled(g, step)
    ensures Apply(d, g, step).history == g.history + Added(d, g, step)
    ensures Adds(Added(d, g, step), p, EffectOn(d, g, step, p), step)
    ensures CallsTo(Apply(d, g, step).calls, p)
         == CallsTo(g.calls, p) + Launched(EffectOn(d, g, step, p))
    ensures |WaitingOn(Apply(d, g, step).tasks, p)|
         == |WaitingOn(g.tasks, p)| + Launched(EffectOn(d, g, step, p)) - Landed(EffectOn(d, g, step, p))
  {
    HistoryGrows(d, g, step);
    WaitingAfter(d, g, step, p);
    CallsAfter(d, g, step, p);
    match step
    case Begin(_, _) => assert Added(d, g, step) == [];
    case Consult(_, _) => AddedConsulting(d, g, step, p);
    case Settle(_, _, _) => AddedSettling(d, g, step, p);
  }

  /** An event or none, of another provider or none of p's. */
  lemma FiguresAfter(h: seq<Event>, w: seq<Event>, p: string, effect: Effect, step: Step)
    requires Adds(w, p, effect, step)
    ensures Admissions(h + w, p) == Admissions(h, p) + (if effect.LetOut? || effect.LetThrough? then 1 else 0)
    ensures Failures(h + w, p) == (if effect.Healthy? then 0 else Failures(h, p) + (if effect.Failing? then 1 else 0))
    ensures Probes(h + w, p) == (if effect.Healthy? || effect.Failing? then 0
                                 else Probes(h, p) + (if effect.LetOut? || effect.LetThrough? then 1 else 0))
    ensures LastFailure(h + w, p) == (if effect.Failing? then Some(w[0].at) else LastFailure(h, p))
  {
    if w == [] {
      assert h + w == h;
    } else {
      assert w == [w[0]] && w[0] in w;
      Unfold(h, w[0]);
    }
  }

  // ---------- Calls during an outage ----------

  /** Over the stretch w no call to p has succeeded, its calls are its admissions, and those in flight
      are the admissions that have not failed, the early ones counted. */
  ghost predicate Books(w: seq<Event>, p: string, calls: int, early: int, inFlight: int) {
    && Succeeded(p) !in w
    && Admissions(w, p) == calls
    && early + Admissions(w, p) == Failures(w, p) + inFlight
  }

  ghost predicate Booked(g0: Gateway, g: Gateway, p: string) {
    && |g0.history| <= |g.history|
    && Books(Since(g.history, |g0.history|), p, CallsTo(g.calls, p) - CallsTo(g0.calls, p),
             |WaitingOn(g0.tasks, p)|, |WaitingOn(g.tasks, p)|)
  }

  /** Nothing good and nothing silent comes back from p. */
  predicate StaysDown(effect: Effect) {
    !effect.Healthy? && !effect.Mute?
  }

  lemma BooksGrow(w: seq<Event>, more: seq<Event>, p: string, effect: Effect, step: Step,
                  calls: int, early: int, inFlight: int)
    requires Books(w, p, calls, early, inFlight) && Adds(more, p, effect, step)
    requires StaysDown(effect) && !effect.LetThrough?
    ensures Books(w + more, p, calls + Launched(effect), early, inFlight + Launched(effect) - Landed(effect))
  {
    FiguresAfter(w, more, p, effect, step);
  }

  lemma SinceGrows(d: Deployment, g: Gateway, step: Step, mark: nat)
    requires Enabled(g, step) && mark <= |g.history|
    ensures mark <= |Apply(d, g, step).history|
    ensures Since(Apply(d, g, step).history, mark) == Since(g.history, mark) + Added(d, g, step)
  {
    HistoryGrows(d, g, step);
  }

  lemma StepKeepsBooks(d: Deployment, g0: Gateway, g: Gateway, step: Step, p: string)
    requires Enabled(g, step) && Booked(g0, g, p) && p in d.policy.models
    requires StaysDown(EffectOn(d, g, step, p))
    ensures Booked(g0, Apply(d, g, step), p)
  {
    SinceGrows(d, g, step, |g0.history|);
    StepMeans(d, g, step, p);
    BooksGrow(Since(g.history, |g0.history|), Added(d, g, step), p, EffectOn(d, g, step, p), step,
              CallsTo(g.calls, p) - CallsTo(g0.calls, p), |WaitingOn(g0.tasks, p)|, |WaitingOn(g.tasks, p)|);
  }

  /** From step i on, every effect on p is of the kind. */
  ghost predicate Throughout(d: Deployment, states: seq<Gateway>, steps: seq<Step>, i: nat, p: string,
                             kind: Effect -> bool)
    requires |states| == |steps| + 1
  {
    forall j | i <= j < |steps| :: kind(EffectOn(d, states[j], steps[j], p))
  }

  lemma ThroughoutShorter(d: Deployment, states: seq<Gateway>, steps: seq<Step>, i: nat, p: string,
                          kind: Effect -> bool)
    requires |states| == |steps| + 1 && i < |steps| && Throughout(d, states, steps, i, p, kind)
    ensures var n := |steps| - 1;
            Throughout(d, states[..n + 1], steps[..n], i, p, kind) && kind(EffectOn(d, states[n], steps[n], p))
  {
    var n := |steps| - 1;
    forall j | i <= j < n
      ensures kind(EffectOn(d, states[..n + 1][j], steps[..n][j], p))
    {
      assert kind(EffectOn(d, states[j], steps[j], p));
    }
  }

  ghost predicate AtMostInFlight(states: seq<Gateway>, i: nat, p: string, m: nat) {
    forall j | i <= j < |states| :: |WaitingOn(states[j].tasks, p)| <= m
  }

  ghost predicate Between(steps: seq<Step>, i: nat, t0: real, t1: real) {
    forall j | i <= j < |steps| && !steps[j].Begin? :: t0 <= steps[j].at <= t1
  }

  lemma GrowsByOne(w: seq<Event>, more: seq<Event>, p: string, m: nat, early: nat, effect: Effect, step: Step,
                   t0: real, t1: real)
    requires InOutage(w, p, m, early) && Within(w, p, t0, t1)
    requires Adds(more, p, effect, step) && StaysDown(effect) && (!step.Begin? ==> t0 <= step.at <= t1)
    requires Failures(w + more, p) <= early + Admissions(w + more, p) <= Failures(w + more, p) + m
    ensures InOutage(w + more, p, m, early) && Within(w + more, p, t0, t1)
  {
    if more == [] {
      assert w + more == w;
    } else {
      assert more == [more[0]] && more[0] in more;
      OutageAppend(w, p, m, early, more[0]);
    }
  }

  lemma {:induction false} OutageInWindow(d: Deployment, states: seq<Gateway>, steps: seq<Step>, i: nat,
                                          p: string, m: nat, t0: real, t1: real)
    requires Interleaving(d, states, steps) && i <= |steps| && p in d.policy.models
    requires Throughout(d, states, steps, i, p, StaysDown) && AtMostInFlight(states, i, p, m)
        && Between(steps, i, t0, t1)
    ensures Booked(states[i], states[|steps|], p)
    ensures var w := Since(states[|steps|].history, |states[i].history|);
            InOutage(w, p, m, |WaitingOn(states[i].tasks, p)|) && Within(w, p, t0, t1)
  {
    var n := |steps| - 1;
    if i == |steps| {
      assert Since(states[i].history, |states[i].history|) == [];
    } else {
      Shorter(d, states, steps, n);
      ThroughoutShorter(d, states, steps, i, p, StaysDown);
      OutageInWindow(d, states[..n + 1], steps[..n], i, p, m, t0, t1);
      assert |WaitingOn(states[|steps|].tasks, p)| <= m;
      OneStepOfOutage(d, states[i], states[n], steps[n], p, m, t0, t1);
    }
  }

  lemma OneStepOfOutage(d: Deployment, g0: Gateway, g: Gateway, step: Step, p: string, m: nat, t0: real, t1: real)
    requires Enabled(g, step) && p in d.policy.models && Booked(g0, g, p)
    requires StaysDown(EffectOn(d, g, step, p)) && |WaitingOn(Apply(d, g, step).tasks, p)| <= m
    requires !step.Begin? ==> t0 <= step.at <= t1
    requires var w := Since(g.history, |g0.history|);
             InOutage(w, p, m, |WaitingOn(g0.tasks, p)|) && Within(w, p, t0, t1)
    ensures Booked(g0, Apply(d, g, step), p)
    ensures var w := Since(Apply(d, g, step).history, |g0.history|);
            InOutage(w, p, m, |WaitingOn(g0.tasks, p)|) && Within(w, p, t0, t1)
  {
    StepKeepsBooks(d, g0, g, step, p);
    SinceGrows(d, g, step, |g0.history|);
    StepMeans(d, g, step, p);
    GrowsByOne(Since(g.history, |g0.history|), Added(d, g, step), p, m, |WaitingOn(g0.tasks, p)|,
               EffectOn(d, g, step, p), step, t0, t1);
  }

  /** A name the policy has no model for is never called and never fails. */
  lemma {:induction false} UnconfiguredStaysOut(d: Deployment, states: seq<Gateway>, steps: seq<Step>, p: string)
    requires Interleaving(d, states, steps) && p !in d.policy.models
    ensures var g := states[|steps|];
            CallsTo(g.calls, p) == 0 && Failures(g.history, p) == 0 && |WaitingOn(g.tasks, p)| == 0
  {
    if steps == [] {
      assert WaitingOn(states[0].tasks, p) == {};
    } else {
      var n := |steps| - 1;
      Shorter(d, states, steps, n);
      UnconfiguredStaysOut(d, states[..n + 1], steps[..n], p);
      var g, step := states[n], steps[n];
      StepMeans(d, g, step, p);
      FiguresAfter(g.history, Added(d, g, step), p, EffectOn(d, g, step, p), step);
      assert Returns(g, step, p) ==> step.id in WaitingOn(g.tasks, p);
    }
  }

  /** From any point of any run on, a provider from which only transient errors come back is called at
      most N + m - 1 + m * floor((t1 - t0) / R) times in [t0, t1], by any number of tasks, if no more
      than m of its calls are ever in flight, those out at the start included. */
  lemma OutageCallsAreBounded(d: Deployment, states: seq<Gateway>, steps: seq<Step>, i: nat,
                              p: string, m: nat, t0: real, t1: real)
    requires Interleaving(d, states, steps) && i <= |steps| && d.policy.breaker.Valid()
    requires Throughout(d, states, steps, i, p, StaysDown) && AtMostInFlight(states, i, p, m)
    requires t0 <= t1 && Between(steps, i, t0, t1)
    ensures CallsTo(states[|steps|].calls, p) - CallsTo(states[i].calls, p)
         <= d.policy.breaker.threshold + m - 1 + m * ((t1 - t0) / d.policy.breaker.reset).Floor
  {
    var h, g := states[i].history, states[|steps|];
    if p in d.policy.models {
      OutageInWindow(d, states, steps, i, p, m, t0, t1);
      EveryStateIsSound(d, states, steps);
      HistoryIsKept(d, states, steps, i);
      assert g.history == h + Since(g.history, |h|);
      OutageCallBound(d.policy.breaker, h, Since(g.history, |h|), p, m, |WaitingOn(states[i].tasks, p)|, t0, t1);
    } else {
      Shorter(d, states, steps, i);
      UnconfiguredStaysOut(d, states, steps, p);
      UnconfiguredStaysOut(d, states[..i + 1], steps[..i], p);
      CeilingGrows(d.policy.breaker, m, t0, t1, t1);
    }
  }
}
