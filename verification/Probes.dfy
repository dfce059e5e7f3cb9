/** How many calls a tripped breaker lets through before it hears of one, and what a provider costs
    whose every call ends in an authentication error. */
module Probes {
  import opened Wrappers
  import opened Chat
  import opened CircuitBreaker
  import opened Routing
  import opened Gateway
  import opened Failover
  import opened Outages

  // ---------- When one probe is all ----------

  /** The step finds p's breaker half-open: what state_of shows just before it. */
  predicate AsksHalfOpen(d: Deployment, g: Gateway, step: Step, p: string) {
    Asks(d, g, step, p) && Lookup(g.entries, p).state == HalfOpen
  }

  lemma AskingAfter(cfg: Config, h: seq<Event>, w: seq<Event>, p: string, effect: Outages.Effect, step: Step)
    requires Adds(w, p, effect, step)
    ensures NeverAskedHalfOpen(cfg, h + w, p) <==>
              NeverAskedHalfOpen(cfg, h, p)
              && (effect.LetOut? || effect.LetThrough? || effect.Kept? ==> StateAfter(cfg, h, p) != HalfOpen)
  {
    if w == [] {
      assert h + w == h;
    } else {
      assert w == [w[0]] && w[0] in w;
      AskingGrows(cfg, h, w[0], p);
    }
  }

  lemma AskedStep(d: Deployment, g: Gateway, step: Step, p: string)
    requires Enabled(g, step) && Sound(d, g)
    ensures NeverAskedHalfOpen(d.policy.breaker, Apply(d, g, step).history, p) <==>
              NeverAskedHalfOpen(d.policy.breaker, g.history, p) && !AsksHalfOpen(d, g, step, p)
  {
    StepMeans(d, g, step, p);
    AskingAfter(d.policy.breaker, g.history, Added(d, g, step), p, EffectOn(d, g, step, p), step);
    assert Tracks(d.policy.breaker, Lookup(g.entries, p), g.history, p);
  }

  lemma {:induction false} AskedInRun(d: Deployment, states: seq<Gateway>, steps: seq<Step>, p: string)
    requires Interleaving(d, states, steps) && d.policy.breaker.Valid()
    ensures NeverAskedHalfOpen(d.policy.breaker, states[|steps|].history, p) <==>
              forall i | 0 <= i < |steps| :: !AsksHalfOpen(d, states[i], steps[i], p)
  {
    if steps != [] {
      var n := |steps| - 1;
      Shorter(d, states, steps, n);
      AskedInRun(d, states[..n + 1], steps[..n], p);
      EveryStateIsSound(d, states, steps);
      AskedStep(d, states[n], steps[n], p);
      AllButLast(d, states, steps, p);
    }
  }

  /** In every run: no more than one call to p goes through between any trip and the next verdict exactly
      when no task ever asks for p while its breaker is half-open. */
  lemma OneProbeInRun(d: Deployment, states: seq<Gateway>, steps: seq<Step>, p: string)
    requires Interleaving(d, states, steps) && d.policy.breaker.Valid()
    ensures OneProbe(d.policy.breaker, states[|steps|].history, p) <==>
              forall i | 0 <= i < |steps| :: !AsksHalfOpen(d, states[i], steps[i], p)
  {
    EveryStateIsSound(d, states, steps);
    OneProbeExactly(d.policy.breaker, states[|steps|].history, p);
    AskedInRun(d, states, steps, p);
  }

  lemma AllButLast(d: Deployment, states: seq<Gateway>, steps: seq<Step>, p: string)
    requires |states| == |steps| + 1 && steps != []
    ensures var n := |steps| - 1;
            (forall i | 0 <= i < |steps| :: !AsksHalfOpen(d, states[i], steps[i], p)) <==>
            (forall i | 0 <= i < n :: !AsksHalfOpen(d, states[..n + 1][i], steps[..n][i], p))
            && !AsksHalfOpen(d, states[n], steps[n], p)
  {
    var n := |steps| - 1;
    assert forall i | 0 <= i < n :: states[..n + 1][i] == states[i] && steps[..n][i] == steps[i];
  }

  /** overlap: p may be asked for while a call to it is in flight. mute: a call to p may come back with
      an authentication error. */
  predicate Permitted(d: Deployment, g: Gateway, step: Step, p: string, overlap: bool, mute: bool) {
    && (Asks(d, g, step, p) ==> overlap || |WaitingOn(g.tasks, p)| == 0)
    && (EffectOn(d, g, step, p).Mute? ==> mute)
  }

  ghost predicate AllPermitted(d: Deployment, states: seq<Gateway>, steps: seq<Step>, p: string, overlap: bool,
                               mute: bool) {
    |states| == |steps| + 1 && forall i | 0 <= i < |steps| :: Permitted(d, states[i], steps[i], p, overlap, mute)
  }

  lemma ShorterPermitted(d: Deployment, states: seq<Gateway>, steps: seq<Step>, n: nat, p: string, overlap: bool,
                         mute: bool)
    requires AllPermitted(d, states, steps, p, overlap, mute) && n <= |steps|
    ensures AllPermitted(d, states[..n + 1], steps[..n], p, overlap, mute)
  {
    forall i | 0 <= i < n
      ensures Permitted(d, states[..n + 1][i], steps[..n][i], p, overlap, mute)
    {
      assert Permitted(d, states[i], steps[i], p, overlap, mute);
    }
  }

  /** Without authentication errors, every call let through since the last verdict is still in flight. */
  lemma {:induction false} ProbesAreInFlight(d: Deployment, states: seq<Gateway>, steps: seq<Step>, p: string,
                                             overlap: bool)
    requires Interleaving(d, states, steps) && AllPermitted(d, states, steps, p, overlap, false)
    requires p in d.policy.models
    ensures Probes(states[|steps|].history, p) <= |WaitingOn(states[|steps|].tasks, p)|
  {
    if steps != [] {
      var n := |steps| - 1;
      Shorter(d, states, steps, n);
      ShorterPermitted(d, states, steps, n, p, overlap, false);
      ProbesAreInFlight(d, states[..n + 1], steps[..n], p, overlap);
      assert Permitted(d, states[n], steps[n], p, overlap, false);
      ProbeInFlight(d, states[n], steps[n], p);
    }
  }

  lemma ProbeInFlight(d: Deployment, g: Gateway, step: Step, p: string)
    requires Enabled(g, step) && p in d.policy.models && !EffectOn(d, g, step, p).Mute?
    requires Probes(g.history, p) <= |WaitingOn(g.tasks, p)|
    ensures Probes(Apply(d, g, step).history, p) <= |WaitingOn(Apply(d, g, step).tasks, p)|
  {
    StepMeans(d, g, step, p);
    FiguresAfter(g.history, Added(d, g, step), p, EffectOn(d, g, step, p), step);
  }

  /** Without overlap and without authentication errors one probe is all. */
  lemma OneProbeWithoutEither(d: Deployment, states: seq<Gateway>, steps: seq<Step>, p: string)
    requires Interleaving(d, states, steps) && d.policy.breaker.Valid()
    requires AllPermitted(d, states, steps, p, false, false)
    ensures OneProbe(d.policy.breaker, states[|steps|].history, p)
  {
    EveryStateIsSound(d, states, steps);
    forall i | 0 <= i < |steps|
      ensures !AsksHalfOpen(d, states[i], steps[i], p)
    {
      Shorter(d, states, steps, i);
      ShorterPermitted(d, states, steps, i, p, false, false);
      assert Permitted(d, states[i], steps[i], p, false, false);
      assert Tracks(d.policy.breaker, Lookup(states[i].entries, p), states[i].history, p);
      if p in d.policy.models {
        ProbesAreInFlight(d, states[..i + 1], steps[..i], p, false);
      } else {
        UnconfiguredStaysOut(d, states[..i + 1], steps[..i], p);
      }
    }
    OneProbeInRun(d, states, steps, p);
  }

  // ---------- Runs one can point at ----------

  predicate Quiet(g: Gateway) {
    forall id | id in g.tasks :: g.tasks[id].phase.Finished?
  }

  /** A run so far, with its last state at hand. */
  ghost predicate RunTo(d: Deployment, states: seq<Gateway>, steps: seq<Step>, p: string, overlap: bool, mute: bool,
                        g: Gateway) {
    && Interleaving(d, states, steps) && AllPermitted(d, states, steps, p, overlap, mute)
    && g == states[|steps|]
  }

  lemma GoOn(d: Deployment, states: seq<Gateway>, steps: seq<Step>, p: string, overlap: bool, mute: bool, g: Gateway,
             step: Step)
    requires RunTo(d, states, steps, p, overlap, mute, g)
    requires Enabled(g, step) && Permitted(d, g, step, p, overlap, mute)
    ensures RunTo(d, states + [Apply(d, g, step)], steps + [step], p, overlap, mute, Apply(d, g, step))
  {
    var longer, more := states + [Apply(d, g, step)], steps + [step];
    forall i | 0 <= i < |more|
      ensures Enabled(longer[i], more[i]) && longer[i + 1] == Apply(d, longer[i], more[i])
      ensures Permitted(d, longer[i], more[i], p, overlap, mute)
    {
      if i < |steps| {
        assert longer[i] == states[i] && longer[i + 1] == states[i + 1] && more[i] == steps[i];
        assert Permitted(d, states[i], steps[i], p, overlap, mute);
      } else {
        assert longer[i] == g && more[i] == step;
      }
    }
  }

  /** p is registered and configured, and requests of the context go to p only. */
  predicate Dedicated(d: Deployment, p: string, context: RoutingContext) {
    d.policy.breaker.Valid() && p in d.registered && p in d.policy.models && Slate(d.policy, context) == [p]
  }

  /** A request for p is ready to ask. */
  predicate AboutToAsk(g: Gateway, id: nat, p: string) {
    id in g.tasks && g.tasks[id].names == [p] && g.tasks[id].slots == [] && g.tasks[id].phase.Choosing?
  }

  lemma BeginsOne(d: Deployment, g: Gateway, id: nat, context: RoutingContext, p: string)
    requires Dedicated(d, p, context) && Enabled(g, Begin(id, context))
    ensures var after := Apply(d, g, Begin(id, context));
            && AboutToAsk(after, id, p) && after == g.(tasks := after.tasks)
            && after.tasks == g.tasks[id := after.tasks[id]]
  {
  }

  lemma AskGoesOut(d: Deployment, g: Gateway, id: nat, context: RoutingContext, p: string, at: real)
    requires Dedicated(d, p, context) && AboutToAsk(g, id, p) && g.now <= at
    requires Sound(d, g) && Admits(d.policy.breaker, g.history, p, at)
    ensures EffectOn(d, g, Consult(id, at), p) == LetOut
  {
    EntryDecides(d, g, p, at);
  }

  lemma AskedTask(d: Deployment, g: Gateway, id: nat, p: string, at: real)
    requires AboutToAsk(g, id, p) && g.now <= at && EffectOn(d, g, Consult(id, at), p) == LetOut
    ensures var after := Apply(d, g, Consult(id, at));
            && after.now == at && after.tasks == g.tasks[id := after.tasks[id]]
            && Awaits(after.tasks[id], p) && after.tasks[id].slots == [] && after.tasks[id].names == [p]
  {
  }

  lemma AsksOne(d: Deployment, g: Gateway, id: nat, context: RoutingContext, p: string, at: real)
    requires Dedicated(d, p, context) && AboutToAsk(g, id, p) && g.now <= at
    requires Sound(d, g) && Admits(d.policy.breaker, g.history, p, at)
    ensures var after := Apply(d, g, Consult(id, at));
            && after.history == g.history + [Admitted(p, at)] && after.now == at
            && EffectOn(d, g, Consult(id, at), p) == LetOut
            && after.tasks == g.tasks[id := after.tasks[id]]
            && Awaits(after.tasks[id], p) && |after.tasks[id].slots| == 0 && after.tasks[id].names == [p]
            && CallsTo(after.calls, p) == CallsTo(g.calls, p) + 1
  {
    AskGoesOut(d, g, id, context, p, at);
    AskedTask(d, g, id, p, at);
    StepMeans(d, g, Consult(id, at), p);
  }

  lemma ReturnsOne(d: Deployment, g: Gateway, id: nat, p: string, outcome: Outcome, at: real)
    requires id in g.tasks && Awaits(g.tasks[id], p) && g.tasks[id].slots == [] && g.tasks[id].names == [p]
        && g.now <= at
    ensures var after := Apply(d, g, Settle(id, outcome, at));
            && after.history == g.history + Aftermath(p, outcome, at) && after.now == at
            && after.tasks == g.tasks[id := after.tasks[id]] && after.tasks[id].phase.Finished?
            && after.calls == g.calls
  {
  }

  /** A request for p begins and asks, from a quiet gateway. */
  lemma Opens(d: Deployment, states: seq<Gateway>, steps: seq<Step>, g: Gateway, p: string, context: RoutingContext,
              at: real, mute: bool)
    returns (states': seq<Gateway>, steps': seq<Step>, g': Gateway)
    requires RunTo(d, states, steps, p, false, mute, g) && Quiet(g)
    requires Dedicated(d, p, context) && g.now <= at && Admits(d.policy.breaker, g.history, p, at)
    ensures RunTo(d, states', steps', p, false, mute, g') && g'.now == at
    ensures g'.history == g.history + [Admitted(p, at)] && CallsTo(g'.calls, p) == CallsTo(g.calls, p) + 1
    ensures 0 in g'.tasks && Awaits(g'.tasks[0], p) && g'.tasks[0].slots == [] && g'.tasks[0].names == [p]
    ensures forall id | id in g'.tasks && id != 0 :: g'.tasks[id].phase.Finished?
  {
    EveryStateIsSound(d, states, steps);
    assert WaitingOn(g.tasks, p) == {};
    BeginsOne(d, g, 0, context, p);
    GoOn(d, states, steps, p, false, mute, g, Begin(0, context));
    var begun := Apply(d, g, Begin(0, context));
    assert WaitingOn(begun.tasks, p) == {};
    AsksOne(d, begun, 0, context, p, at);
    GoOn(d, states + [begun], steps + [Begin(0, context)], p, false, mute, begun, Consult(0, at));
    g' := Apply(d, begun, Consult(0, at));
    states', steps' := states + [begun] + [g'], steps + [Begin(0, context)] + [Consult(0, at)];
  }

  /** One request for p, from a quiet gateway, all at one moment. */
  lemma Round(d: Deployment, states: seq<Gateway>, steps: seq<Step>, g: Gateway, p: string, context: RoutingContext,
              outcome: Outcome, at: real, mute: bool)
    returns (states': seq<Gateway>, steps': seq<Step>, g': Gateway)
    requires RunTo(d, states, steps, p, false, mute, g) && Quiet(g)
    requires Dedicated(d, p, context) && g.now <= at && Admits(d.policy.breaker, g.history, p, at)
    requires outcome.AuthError? ==> mute
    ensures RunTo(d, states', steps', p, false, mute, g') && Quiet(g') && g'.now == at
    ensures g'.history == g.history + [Admitted(p, at)] + Aftermath(p, outcome, at)
    ensures CallsTo(g'.calls, p) == CallsTo(g.calls, p) + 1
  {
    var before, soFar, out := Opens(d, states, steps, g, p, context, at, mute);
    ReturnsOne(d, out, 0, p, outcome, at);
    GoOn(d, before, soFar, p, false, mute, out, Settle(0, outcome, at));
    g' := Apply(d, out, Settle(0, outcome, at));
    states', steps' := before + [g'], soFar + [Settle(0, outcome, at)];
  }

  /** n requests for p at time 0, one after the other, all with the same bad end; p is not called more
      often than the threshold if its failures count. */
  lemma {:induction false} Rounds(d: Deployment, p: string, context: RoutingContext, outcome: Outcome, n: nat,
                                  mute: bool)
    returns (states: seq<Gateway>, steps: seq<Step>, g: Gateway)
    requires Dedicated(d, p, context) && !outcome.Success?
    requires if outcome.AuthError? then mute else n <= d.policy.breaker.threshold
    ensures RunTo(d, states, steps, p, false, mute, g) && Quiet(g) && g.now == 0.0
    ensures CallsTo(g.calls, p) == n && Failures(g.history, p) == (if outcome.AuthError? then 0 else n)
    ensures outcome.AuthError? ==> Probes(g.history, p) == n
    ensures outcome.TransientError? && n > 0 ==> LastFailure(g.history, p) == Some(0.0) && Probes(g.history, p) == 0
  {
    if n == 0 {
      g := Gateway(map[], [], 0.0, map[], []);
      states, steps := [g], [];
    } else {
      var before, soFar, g0 := Rounds(d, p, context, outcome, n - 1, mute);
      states, steps, g := Round(d, before, soFar, g0, p, context, outcome, 0.0, mute);
      RoundFigures(g0.history, p, outcome, 0.0);
    }
  }

  lemma RoundFigures(h: seq<Event>, p: string, outcome: Outcome, at: real)
    requires !outcome.Success?
    ensures var g := h + [Admitted(p, at)] + Aftermath(p, outcome, at);
            if outcome.AuthError? then Failures(g, p) == Failures(h, p) && Probes(g, p) == Probes(h, p) + 1
            else Failures(g, p) == Failures(h, p) + 1 && Probes(g, p) == 0 && LastFailure(g, p) == Some(at)
  {
    var asked := h + [Admitted(p, at)];
    Unfold(h, Admitted(p, at));
    Unfold(asked, Failed(p, at));
    assert asked + [] == asked;
  }

  // ---------- Two probes ----------

  /** The breaker's timeout has passed since the outage that tripped it, or was passed by one who asked. */
  ghost predicate DueAt(d: Deployment, g: Gateway, p: string, at: real) {
    Tripped(d.policy.breaker, g.history, p) && LastFailure(g.history, p) == Some(0.0) && at >= d.policy.breaker.reset
  }

  /** Two requests ask one after the other before the first call has come back: both go through, no
      authentication error needed. */
  lemma OverlapProbesTwice(d: Deployment, p: string, context: RoutingContext)
    returns (states: seq<Gateway>, steps: seq<Step>, g: Gateway)
    requires Dedicated(d, p, context)
    ensures RunTo(d, states, steps, p, true, false, g)
    ensures Tripped(d.policy.breaker, g.history, p) && Probes(g.history, p) == 2
  {
    var at := d.policy.breaker.reset;
    states, steps, g := Rounds(d, p, context, TransientError, d.policy.breaker.threshold, false);
    AllMore(d, states, steps, p, g);
    BeginsOne(d, g, 0, context, p);
    GoOn(d, states, steps, p, true, false, g, Begin(0, context));
    g := Apply(d, g, Begin(0, context));
    states, steps := states + [g], steps + [Begin(0, context)];
    assert 1 in g.tasks ==> g.tasks[1].phase.Finished?;
    BeginsOne(d, g, 1, context, p);
    GoOn(d, states, steps, p, true, false, g, Begin(1, context));
    g := Apply(d, g, Begin(1, context));
    states, steps := states + [g], steps + [Begin(1, context)];
    states, steps, g := AskDue(d, states, steps, g, p, context, 0, at);
    states, steps, g := AskDue(d, states, steps, g, p, context, 1, at);
  }

  lemma AllMore(d: Deployment, states: seq<Gateway>, steps: seq<Step>, p: string, g: Gateway)
    requires RunTo(d, states, steps, p, false, false, g)
    ensures RunTo(d, states, steps, p, true, false, g)
  {
    forall i | 0 <= i < |steps|
      ensures Permitted(d, states[i], steps[i], p, true, false)
    {
      assert Permitted(d, states[i], steps[i], p, false, false);
    }
  }

  lemma AskDue(d: Deployment, states: seq<Gateway>, steps: seq<Step>, g: Gateway, p: string, context: RoutingContext,
               id: nat, at: real)
    returns (states': seq<Gateway>, steps': seq<Step>, g': Gateway)
    requires RunTo(d, states, steps, p, true, false, g) && Dedicated(d, p, context)
    requires AboutToAsk(g, id, p) && g.now <= at && DueAt(d, g, p, at)
    ensures RunTo(d, states', steps', p, true, false, g') && g'.now == at
    ensures g'.tasks.Keys == g.tasks.Keys && forall x | x in g.tasks && x != id :: g'.tasks[x] == g.tasks[x]
    ensures Probes(g'.history, p) == Probes(g.history, p) + 1 && DueAt(d, g', p, at)
  {
    EveryStateIsSound(d, states, steps);
    AsksOne(d, g, id, context, p, at);
    GoOn(d, states, steps, p, true, false, g, Consult(id, at));
    g' := Apply(d, g, Consult(id, at));
    states', steps' := states + [g'], steps + [Consult(id, at)];
    Unfold(g.history, Admitted(p, at));
  }

  /** Two requests, the second after the first is over: an authentication error leaves no verdict, so
      both go through, no overlap needed. */
  lemma AuthErrorProbesTwice(d: Deployment, p: string, context: RoutingContext)
    returns (states: seq<Gateway>, steps: seq<Step>, g: Gateway)
    requires Dedicated(d, p, context)
    ensures RunTo(d, states, steps, p, false, true, g)
    ensures Tripped(d.policy.breaker, g.history, p) && Probes(g.history, p) == 2
  {
    states, steps, g := Rounds(d, p, context, TransientError, d.policy.breaker.threshold, true);
    states, steps, g := MuteRound(d, states, steps, g, p, context, d.policy.breaker.reset);
    states, steps, g := MuteRound(d, states, steps, g, p, context, d.policy.breaker.reset * 2.0);
  }

  lemma MuteRound(d: Deployment, states: seq<Gateway>, steps: seq<Step>, g: Gateway, p: string,
                  context: RoutingContext, at: real)
    returns (states': seq<Gateway>, steps': seq<Step>, g': Gateway)
    requires RunTo(d, states, steps, p, false, true, g) && Quiet(g) && Dedicated(d, p, context)
    requires g.now <= at && DueAt(d, g, p, at)
    ensures RunTo(d, states', steps', p, false, true, g') && Quiet(g') && g'.now == at
    ensures Probes(g'.history, p) == Probes(g.history, p) + 1 && DueAt(d, g', p, at)
  {
    states', steps', g' := Round(d, states, steps, g, p, context, AuthError, at, true);
    assert g'.history == g.history + [Admitted(p, at)];
    Unfold(g.history, Admitted(p, at));
  }

  /** In every run of the kind one probe is all. */
  ghost predicate OneProbeUnder(d: Deployment, p: string, overlap: bool, mute: bool) {
    forall states: seq<Gateway>, steps: seq<Step> ::
      Interleaving(d, states, steps) && AllPermitted(d, states, steps, p, overlap, mute) ==>
        OneProbe(d.policy.breaker, states[|steps|].history, p)
  }

  /** The documented single probe holds of all runs exactly when p is never asked for while a call to it
      is in flight and no call to it ends in an authentication error; either alone breaks it. */
  lemma OneProbeIffNeither(d: Deployment, p: string, context: RoutingContext, overlap: bool, mute: bool)
    requires Dedicated(d, p, context)
    ensures OneProbeUnder(d, p, overlap, mute) <==> !overlap && !mute
  {
    if !overlap && !mute {
      forall states: seq<Gateway>, steps: seq<Step> |
        Interleaving(d, states, steps) && AllPermitted(d, states, steps, p, false, false)
        ensures OneProbe(d.policy.breaker, states[|steps|].history, p)
      {
        OneProbeWithoutEither(d, states, steps, p);
      }
    } else {
      var states, steps, g;
      if overlap {
        states, steps, g := OverlapProbesTwice(d, p, context);
      } else {
        states, steps, g := AuthErrorProbesTwice(d, p, context);
      }
      Wider(d, states, steps, p, g, overlap, mute);
      assert g.history[..|g.history|] == g.history;
      assert !AtMostOne(d.policy.breaker, g.history[..|g.history|], p);
    }
  }

  lemma Wider(d: Deployment, states: seq<Gateway>, steps: seq<Step>, p: string, g: Gateway, overlap: bool, mute: bool)
    requires (overlap && RunTo(d, states, steps, p, true, false, g))
             || (mute && RunTo(d, states, steps, p, false, true, g))
    ensures RunTo(d, states, steps, p, overlap, mute, g)
  {
    forall i | 0 <= i < |steps|
      ensures Permitted(d, states[i], steps[i], p, overlap, mute)
    {
      assert Permitted(d, states[i], steps[i], p, true, false) || Permitted(d, states[i], steps[i], p, false, true);
    }
  }

  // ---------- A provider that rejects every call ----------

  predicate NotFailing(effect: Outages.Effect) {
    !effect.Failing?
  }

  /** How often p was asked for from step i on. */
  function AskCount(d: Deployment, states: seq<Gateway>, steps: seq<Step>, i: nat, p: string): nat
    requires |states| == |steps| + 1
    decreases |steps|
  {
    if |steps| <= i then 0
    else
      var n := |steps| - 1;
      AskCount(d, states[..n + 1], steps[..n], i, p) + (if Asks(d, states[n], steps[n], p) then 1 else 0)
  }

  lemma {:induction false} StaysUntripped(d: Deployment, states: seq<Gateway>, steps: seq<Step>, i: nat, p: string)
    requires Interleaving(d, states, steps) && i <= |steps|
    requires !Tripped(d.policy.breaker, states[i].history, p) && Throughout(d, states, steps, i, p, NotFailing)
    ensures !Tripped(d.policy.breaker, states[|steps|].history, p)
  {
    var n := |steps| - 1;
    if i <= n {
      Shorter(d, states, steps, n);
      ThroughoutShorter(d, states, steps, i, p, NotFailing);
      StaysUntripped(d, states[..n + 1], steps[..n], i, p);
      UntrippedStep(d, states[n], steps[n], p);
    }
  }

  lemma UntrippedStep(d: Deployment, g: Gateway, step: Step, p: string)
    requires Enabled(g, step) && !Tripped(d.policy.breaker, g.history, p) && NotFailing(EffectOn(d, g, step, p))
    ensures !Tripped(d.policy.breaker, Apply(d, g, step).history, p)
  {
    StepMeans(d, g, step, p);
    FiguresAfter(g.history, Added(d, g, step), p, EffectOn(d, g, step, p), step);
  }

  /** As long as no transient error comes back, a breaker that has not tripped never does: every request
      that reaches p calls it, however many there are and however they end. */
  lemma {:induction false} WithoutTransientErrorsEveryoneCalls(
      d: Deployment, states: seq<Gateway>, steps: seq<Step>, i: nat, p: string)
    requires Interleaving(d, states, steps) && i <= |steps| && d.policy.breaker.Valid() && p in d.policy.models
    requires !Tripped(d.policy.breaker, states[i].history, p) && Throughout(d, states, steps, i, p, NotFailing)
    ensures CallsTo(states[|steps|].calls, p) == CallsTo(states[i].calls, p) + AskCount(d, states, steps, i, p)
  {
    var n := |steps| - 1;
    if i <= n {
      Shorter(d, states, steps, n);
      ThroughoutShorter(d, states, steps, i, p, NotFailing);
      WithoutTransientErrorsEveryoneCalls(d, states[..n + 1], steps[..n], i, p);
      StaysUntripped(d, states[..n + 1], steps[..n], i, p);
      EveryStateIsSound(d, states, steps);
      AskerCalls(d, states[n], steps[n], p);
    }
  }

  lemma AskerCalls(d: Deployment, g: Gateway, step: Step, p: string)
    requires Enabled(g, step) && Sound(d, g) && d.policy.breaker.Valid() && p in d.policy.models
    requires !Tripped(d.policy.breaker, g.history, p)
    ensures CallsTo(Apply(d, g, step).calls, p) == CallsTo(g.calls, p) + (if Asks(d, g, step, p) then 1 else 0)
  {
    CallsAfter(d, g, step, p);
    if Asks(d, g, step, p) {
      EntryDecides(d, g, p, step.at);
    }
  }

  /** So the outage bound cannot extend to expired credentials: with every call ending in an
      authentication error, and never two in flight, there are runs with any number of calls in no time. */
  lemma RejectedCallsAreUnbounded(d: Deployment, p: string, context: RoutingContext, n: nat)
    returns (states: seq<Gateway>, steps: seq<Step>, g: Gateway)
    requires Dedicated(d, p, context)
    ensures RunTo(d, states, steps, p, false, true, g)
    ensures CallsTo(g.calls, p) == Probes(g.history, p) == n && g.now == 0.0
  {
    states, steps, g := Rounds(d, p, context, AuthError, n, true);
  }
}
