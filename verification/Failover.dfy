/** Failover and confinement of every request, whatever other requests are in flight. */
module Failover {
  import opened Wrappers
  import opened Chat
  import opened CircuitBreaker
  import opened Routing
  import opened Gateway

  // ---------- Every task is a request as Route works it through ----------

  /** The task's record is that of a request Route is working through, begun on the history begun and
      disturbed by what the others did. */
  ghost predicate Recorded(d: Deployment, begun: seq<Event>, task: Task) {
    && |task.slots| == |task.world| <= |task.names|
    && task.names == Slate(d.policy, task.context)
    && Proceeds(d.policy, d.registered, begun, task.names, task.slots, task.world)
  }

  /** The breakers' history up to the end of the task's last position, pieced together from its record. */
  function Seen(begun: seq<Event>, task: Task): seq<Event>
    requires |task.slots| == |task.world| <= |task.names|
  {
    HistoryAfter(begun, task.names, task.slots, task.world)
  }

  predicate Callable(d: Deployment, h: seq<Event>, name: string, asked: real) {
    name in d.registered && name in d.policy.models && Admits(d.policy.breaker, h, name, asked)
  }

  /** The task has another candidate to try. */
  predicate GoesOn(task: Task) {
    && |task.slots| < |task.names|
    && OnlyLastEnds(task.slots) && (task.slots == [] || FallsThrough(task.slots[|task.slots| - 1]))
  }

  predicate PhaseFits(task: Task) {
    if task.phase.Finished? then Ended(task.names, task.slots) else GoesOn(task)
  }

  /** How far the task's own doings reach: to its last position, or to the call it waits for. */
  ghost predicate Reaches(d: Deployment, begun: seq<Event>, task: Task, upTo: seq<Event>)
    requires |task.slots| == |task.world| <= |task.names|
  {
    if task.phase.Waiting? then
      && |task.slots| < |task.names|
      && var name, asked := task.names[|task.slots|], task.phase.asked;
      && Callable(d, Seen(begun, task) + task.phase.before, name, asked)
      && Seen(begun, task) + task.phase.before + [Admitted(name, asked)] == upTo
    else Seen(begun, task) == upTo
  }

  /** A task in good order when the breakers have seen h. */
  ghost predicate InOrder(d: Deployment, h: seq<Event>, task: Task) {
    && task.start <= task.mark <= |h|
    && Recorded(d, h[..task.start], task)
    && Reaches(d, h[..task.start], task, h[..task.mark])
    && PhaseFits(task)
  }

  /** What others do later does not change a task's record. */
  lemma StaysInOrder(d: Deployment, h: seq<Event>, more: seq<Event>, task: Task)
    requires InOrder(d, h, task)
    ensures InOrder(d, h + more, task)
  {
    assert (h + more)[..task.start] == h[..task.start];
    assert (h + more)[..task.mark] == h[..task.mark];
  }

  /** A longer world does not change what the slots so far are. */
  lemma {:induction false} WorldGrows(h: seq<Event>, names: seq<string>, slots: seq<Slot>, world: seq<Attempt>,
                                      a: Attempt)
    requires |slots| <= |names| && |slots| <= |world|
    ensures HistoryAfter(h, names, slots, world + [a]) == HistoryAfter(h, names, slots, world)
  {
    if slots != [] {
      WorldGrows(h, names, slots[..|slots| - 1], world, a);
    }
  }

  lemma ProceedsInLongerWorld(policy: RoutingPolicy, registered: set<string>, h: seq<Event>,
                              names: seq<string>, slots: seq<Slot>, world: seq<Attempt>, a: Attempt)
    requires |slots| <= |names| && |slots| <= |world|
    requires Proceeds(policy, registered, h, names, slots, world)
    ensures Proceeds(policy, registered, h, names, slots, world + [a])
  {
    forall i | 0 <= i < |slots|
      ensures Follows(policy, registered, h, names, slots[..i], world + [a], slots[i])
    {
      assert Follows(policy, registered, h, names, slots[..i], world, slots[i]);
      WorldGrows(h, names, slots[..i], world, a);
    }
  }

  lemma WorkedPhase(task: Task, slot: Slot, a: Attempt, mark: nat)
    requires GoesOn(task)
    ensures PhaseFits(Worked(task, slot, a, mark))
  {
  }

  /** The next position is worked through: what Route would do there is what the task did. */
  lemma WorkedRecord(d: Deployment, begun: seq<Event>, task: Task, slot: Slot, a: Attempt, mark: nat)
    requires Recorded(d, begun, task) && GoesOn(task)
    requires Follows(d.policy, d.registered, begun, task.names, task.slots, task.world + [a], slot)
    ensures var after := Worked(task, slot, a, mark);
            && Recorded(d, begun, after) && PhaseFits(after)
            && Seen(begun, after) == Seen(begun, task) + Footprint(task.names[|task.slots|], slot, a)
  {
    var world, after := task.world + [a], Worked(task, slot, a, mark);
    WorkedPhase(task, slot, a, mark);
    ProceedsInLongerWorld(d.policy, d.registered, begun, task.names, task.slots, task.world, a);
    Extended(d.policy, d.registered, begun, task.names, task.slots, world, slot);
    assert after.slots == task.slots + [slot] && after.world == world;
    WorldGrows(begun, task.names, task.slots, task.world, a);
  }

  /** The next slot, from the breakers' answer at the time. */
  lemma NextFollows(d: Deployment, begun: seq<Event>, task: Task, h: seq<Event>, a: Attempt)
    requires |task.slots| == |task.world| < |task.names| && Seen(begun, task) + a.before == h
    ensures var name := task.names[|task.slots|];
            Follows(d.policy, d.registered, begun, task.names, task.slots, task.world + [a],
                    Fate(d.policy, d.registered, name, Admits(d.policy.breaker, h, name, a.asked), a.outcome))
  {
    WorldGrows(begun, task.names, task.slots, task.world, a);
    assert (task.world + [a])[|task.slots|] == a;
  }

  lemma Whole(h: seq<Event>, mark: nat)
    requires mark <= |h|
    ensures h[..mark] + Since(h, mark) == h
  {
  }

  lemma TriedFootprint(h: seq<Event>, name: string, outcome: Outcome, a: Attempt)
    ensures h + Footprint(name, Tried(outcome), a)
         == h + a.before + [Admitted(name, a.asked)] + a.meanwhile + Aftermath(name, outcome, a.settled)
  {
  }

  lemma SkippedFootprint(h: seq<Event>, name: string, slot: Slot, a: Attempt)
    requires !slot.Tried?
    ensures h + Footprint(name, slot, a) == h + a.before + Stamp(name, slot, a.asked)
  {
  }

  /** A worked position leaves the task in order when its footprint brings it up to date. */
  lemma UpToDate(d: Deployment, h: seq<Event>, own: seq<Event>, task: Task)
    requires task.start <= |h| && task.mark == |h + own| && !task.phase.Waiting?
    requires Recorded(d, h[..task.start], task) && PhaseFits(task)
    requires Seen(h[..task.start], task) == h + own
    ensures InOrder(d, h + own, task)
  {
    assert (h + own)[..task.start] == h[..task.start];
    assert (h + own)[..task.mark] == h + own;
  }

  lemma ReturnInOrder(d: Deployment, h: seq<Event>, task: Task, outcome: Outcome, at: real)
    requires InOrder(d, h, task) && task.phase.Waiting?
    ensures var after := h + Aftermath(task.names[|task.slots|], outcome, at);
            var a := Attempt(task.phase.before, task.phase.asked, outcome, Since(h, task.mark), at);
            InOrder(d, after, Worked(task, Tried(outcome), a, |after|))
  {
    var name, begun := task.names[|task.slots|], h[..task.start];
    var a := Attempt(task.phase.before, task.phase.asked, outcome, Since(h, task.mark), at);
    var own := Aftermath(name, outcome, at);
    NextFollows(d, begun, task, Seen(begun, task) + a.before, a);
    WorkedRecord(d, begun, task, Tried(outcome), a, |h + own|);
    Whole(h, task.mark);
    TriedFootprint(Seen(begun, task), name, outcome, a);
    UpToDate(d, h, own, Worked(task, Tried(outcome), a, |h + own|));
  }

  lemma SkipInOrder(d: Deployment, h: seq<Event>, task: Task, slot: Slot, at: real)
    requires InOrder(d, h, task) && task.phase.Choosing? && !slot.Tried?
    requires slot == Fate(d.policy, d.registered, task.names[|task.slots|],
                          Admits(d.policy.breaker, h, task.names[|task.slots|], at), TransientError)
    ensures var after := h + Stamp(task.names[|task.slots|], slot, at);
            InOrder(d, after, Worked(task, slot, Attempt(Since(h, task.mark), at, TransientError, [], at), |after|))
  {
    var name, begun := task.names[|task.slots|], h[..task.start];
    var a := Attempt(Since(h, task.mark), at, TransientError, [], at);
    var own := Stamp(name, slot, at);
    Whole(h, task.mark);
    NextFollows(d, begun, task, h, a);
    WorkedRecord(d, begun, task, slot, a, |h + own|);
    SkippedFootprint(Seen(begun, task), name, slot, a);
    UpToDate(d, h, own, Worked(task, slot, a, |h + own|));
  }

  lemma CallInOrder(d: Deployment, h: seq<Event>, task: Task, name: string, at: real)
    requires InOrder(d, h, task) && task.phase.Choosing?
    requires name == task.names[|task.slots|] && Callable(d, h, name, at)
    ensures InOrder(d, h + [Admitted(name, at)],
                    task.(mark := |h| + 1, phase := Waiting(Since(h, task.mark), at)))
  {
    var after := h + [Admitted(name, at)];
    Whole(h, task.mark);
    assert after[..task.start] == h[..task.start] && after[..|h| + 1] == after;
  }

  lemma SettleInOrder(d: Deployment, g: Gateway, id: nat, outcome: Outcome, at: real)
    requires Enabled(g, Settle(id, outcome, at)) && InOrder(d, g.history, g.tasks[id])
    ensures InOrder(d, Settled(d, g, id, outcome, at).history, Settled(d, g, id, outcome, at).tasks[id])
  {
    ReturnInOrder(d, g.history, g.tasks[id], outcome, at);
  }

  lemma FateInOrder(d: Deployment, h: seq<Event>, task: Task, name: string, at: real, slot: Slot)
    requires InOrder(d, h, task) && task.phase.Choosing? && name == task.names[|task.slots|]
    requires slot == Fate(d.policy, d.registered, name, Admits(d.policy.breaker, h, name, at), TransientError)
    ensures var after := h + Stamp(name, slot, at);
            var before := Since(h, task.mark);
            InOrder(d, after, if slot.Tried? then task.(mark := |after|, phase := Waiting(before, at))
                              else Worked(task, slot, Attempt(before, at, TransientError, [], at), |after|))
  {
    if slot.Tried? {
      CallInOrder(d, h, task, name, at);
    } else {
      SkipInOrder(d, h, task, slot, at);
    }
  }

  lemma ConsultInOrder(d: Deployment, g: Gateway, id: nat, at: real)
    requires Enabled(g, Consult(id, at)) && InOrder(d, g.history, g.tasks[id])
    requires Sound(d, g) && d.policy.breaker.Valid()
    ensures InOrder(d, Consulted(d, g, id, at).history, Consulted(d, g, id, at).tasks[id])
  {
    var name := g.tasks[id].names[|g.tasks[id].slots|];
    EntryDecides(d, g, name, at);
    var admitted := Admits(d.policy.breaker, g.history, name, at);
    FateInOrder(d, g.history, g.tasks[id], name, at, Fate(d.policy, d.registered, name, admitted, TransientError));
  }

  lemma EntryDecides(d: Deployment, g: Gateway, name: string, at: real)
    requires Sound(d, g) && d.policy.breaker.Valid() && g.now <= at
    ensures Asked(d.policy.breaker, Lookup(g.entries, name), at).0 == Admits(d.policy.breaker, g.history, name, at)
  {
    LaterIsFine(g.history, g.now, at);
    AskedByHistory(d.policy.breaker, g.entries, g.history, name, at);
  }

  ghost predicate AllInOrder(d: Deployment, g: Gateway) {
    forall id | id in g.tasks :: InOrder(d, g.history, g.tasks[id])
  }

  /** The history after a step. */
  function Added(d: Deployment, g: Gateway, step: Step): seq<Event>
    requires Enabled(g, step)
  {
    Since(Apply(d, g, step).history, |g.history|)
  }

  lemma HistoryGrows(d: Deployment, g: Gateway, step: Step)
    requires Enabled(g, step)
    ensures Apply(d, g, step).history == g.history + Added(d, g, step)
    ensures |Added(d, g, step)| <= 1
    ensures Added(d, g, step) != [] && !Added(d, g, step)[0].Succeeded? ==>
              !step.Begin? && Added(d, g, step)[0].at == step.at
  {
    if step.Begin? {
      assert g.history[|g.history|..] == [];
    }
  }

  lemma OthersInOrder(d: Deployment, g: Gateway, step: Step, id: nat)
    requires Enabled(g, step) && id in g.tasks && id != step.id && InOrder(d, g.history, g.tasks[id])
    ensures var after := Apply(d, g, step);
            id in after.tasks && InOrder(d, after.history, after.tasks[id])
  {
    HistoryGrows(d, g, step);
    StaysInOrder(d, g.history, Added(d, g, step), g.tasks[id]);
  }

  lemma OwnInOrder(d: Deployment, g: Gateway, step: Step)
    requires Enabled(g, step) && Sound(d, g) && d.policy.breaker.Valid()
    requires step.id in g.tasks ==> InOrder(d, g.history, g.tasks[step.id])
    ensures var after := Apply(d, g, step);
            step.id in after.tasks && InOrder(d, after.history, after.tasks[step.id])
  {
    match step
    case Begin(_, _) => assert g.history[..|g.history|] == g.history;
    case Consult(id, at) => ConsultInOrder(d, g, id, at);
    case Settle(id, outcome, at) => SettleInOrder(d, g, id, outcome, at);
  }

  lemma StepInOrder(d: Deployment, g: Gateway, step: Step)
    requires Enabled(g, step) && AllInOrder(d, g) && Sound(d, g) && d.policy.breaker.Valid()
    ensures AllInOrder(d, Apply(d, g, step))
  {
    forall id | id in Apply(d, g, step).tasks
      ensures InOrder(d, Apply(d, g, step).history, Apply(d, g, step).tasks[id])
    {
      if id != step.id {
        OthersInOrder(d, g, step, id);
      } else {
        OwnInOrder(d, g, step);
      }
    }
  }

  /** In every interleaving, every task is a request as Route works it through. */
  lemma {:induction false} EveryTaskIsInOrder(d: Deployment, states: seq<Gateway>, steps: seq<Step>)
    requires Interleaving(d, states, steps) && d.policy.breaker.Valid()
    ensures AllInOrder(d, states[|steps|])
  {
    if steps != [] {
      var n := |steps| - 1;
      Shorter(d, states, steps, n);
      EveryTaskIsInOrder(d, states[..n + 1], steps[..n]);
      EveryStateIsSound(d, states, steps);
      StepInOrder(d, states[n], steps[n]);
    }
  }

  /** All that the breakers had seen when the task asked about its i-th candidate. */
  function Before(begun: seq<Event>, task: Task, i: nat): seq<Event>
    requires i < |task.slots| == |task.world| <= |task.names|
  {
    HistoryAfter(begun, task.names, task.slots[..i], task.world) + task.world[i].before
  }

  /** Failover in any interleaving: a finished task is a request Route could have worked through, its
      breakers' history included; it called exactly the positions whose name was registered, configured
      and admitted on all that any task had done by then; and it ended on its first success, at an
      authentication error, or with its slate used up. */
  lemma FailoverInAnyInterleaving(d: Deployment, states: seq<Gateway>, steps: seq<Step>, id: nat)
    requires Interleaving(d, states, steps) && d.policy.breaker.Valid()
    requires id in states[|steps|].tasks && states[|steps|].tasks[id].phase.Finished?
    ensures var h, task := states[|steps|].history, states[|steps|].tasks[id];
            && task.start <= task.mark <= |h| && task.names == Slate(d.policy, task.context)
            && Routed(d.policy, d.registered, h[..task.start], task.names, task.slots, task.world)
            && HistoryAfter(h[..task.start], task.names, task.slots, task.world) == h[..task.mark]
            && |task.slots| == |task.world|
            && (forall i | 0 <= i < |task.slots| ::
                  task.slots[i].Tried? <==>
                      Callable(d, Before(h[..task.start], task, i), task.names[i], task.world[i].asked))
    ensures var task := states[|steps|].tasks[id];
            && |task.slots| <= |task.names|
            && (forall i | 0 <= i < |task.slots| - 1 :: FallsThrough(task.slots[i]))
            && (forall response :: Verdict(task.names, task.slots) == Answered(response) <==>
                                   Tried(Success(response)) in task.slots)
            && (Verdict(task.names, task.slots).AuthFailed? <==> Tried(AuthError) in task.slots)
  {
    EveryTaskIsInOrder(d, states, steps);
    var h, task := states[|steps|].history, states[|steps|].tasks[id];
    assert InOrder(d, h, task);
    AnswerIsFirstSuccess(task.names, task.slots);
    forall i | 0 <= i < |task.slots|
      ensures task.slots[i].Tried? <==>
            Callable(d, Before(h[..task.start], task, i), task.names[i], task.world[i].asked)
    {
      CalledExactly(d.policy, d.registered, h[..task.start], task.names, task.slots, task.world, i);
    }
  }

  // ---------- A request that runs alone ----------

  predicate Undisturbed(world: seq<Attempt>) {
    forall i | 0 <= i < |world| :: world[i].before == [] && world[i].meanwhile == []
  }

  /** Nobody has touched the breakers but this task. */
  ghost predicate Alone(g: Gateway, id: nat, start: nat) {
    && id in g.tasks && g.tasks[id].start == start && g.tasks[id].mark == |g.history|
    && Undisturbed(g.tasks[id].world)
    && (g.tasks[id].phase.Waiting? ==> g.tasks[id].phase.before == [])
  }

  lemma StepAlone(d: Deployment, g: Gateway, step: Step, start: nat)
    requires Enabled(g, step) && !step.Begin? && Alone(g, step.id, start)
    ensures Alone(Apply(d, g, step), step.id, start)
  {
  }

  lemma {:induction false} StaysAlone(d: Deployment, states: seq<Gateway>, steps: seq<Step>, i: nat, id: nat)
    requires Interleaving(d, states, steps) && i < |steps| && steps[i].Begin? && steps[i].id == id
    requires forall j | i < j < |steps| :: !steps[j].Begin? && steps[j].id == id
    ensures Alone(states[|steps|], id, |states[i].history|)
  {
    var n := |steps| - 1;
    if i < n {
      Shorter(d, states, steps, n);
      StaysAlone(d, states[..n + 1], steps[..n], i, id);
      StepAlone(d, states[n], steps[n], |states[i].history|);
    }
  }

  lemma {:induction false} HistoryIsKept(d: Deployment, states: seq<Gateway>, steps: seq<Step>, i: nat)
    requires Interleaving(d, states, steps) && i <= |steps|
    ensures states[i].history <= states[|steps|].history
  {
    var n := |steps| - 1;
    if i <= n {
      Shorter(d, states, steps, n);
      HistoryIsKept(d, states[..n + 1], steps[..n], i);
      HistoryGrows(d, states[n], steps[n]);
    }
  }

  /** A request whose steps no other task interrupts is exactly one Route works through undisturbed from
      the breakers' history at its beginning, and it leaves exactly the history Route leaves. */
  lemma AloneIsRoute(d: Deployment, states: seq<Gateway>, steps: seq<Step>, i: nat, id: nat)
    requires Interleaving(d, states, steps) && d.policy.breaker.Valid()
    requires i < |steps| && steps[i].Begin? && steps[i].id == id
    requires forall j | i < j < |steps| :: !steps[j].Begin? && steps[j].id == id
    requires id in states[|steps|].tasks && states[|steps|].tasks[id].phase.Finished?
    ensures var h, task := states[i].history, states[|steps|].tasks[id];
            && Undisturbed(task.world)
            && Routed(d.policy, d.registered, h, task.names, task.slots, task.world)
            && states[|steps|].history == HistoryAfter(h, task.names, task.slots, task.world)
  {
    StaysAlone(d, states, steps, i, id);
    HistoryIsKept(d, states, steps, i);
    FailoverInAnyInterleaving(d, states, steps, id);
    var g := states[|steps|];
    assert g.history[..|states[i].history|] == states[i].history && g.history[..|g.history|] == g.history;
  }

  // ---------- Confinement ----------

  ghost predicate TasksOnSlate(d: Deployment, g: Gateway) {
    forall id | id in g.tasks :: g.tasks[id].names == Slate(d.policy, g.tasks[id].context)
  }

  ghost predicate CallsOnSlate(d: Deployment, g: Gateway) {
    forall c | c in g.calls :: c.provider in Slate(d.policy, c.context)
  }

  lemma StepStaysOnSlate(d: Deployment, g: Gateway, step: Step)
    requires Enabled(g, step) && TasksOnSlate(d, g) && CallsOnSlate(d, g)
    ensures TasksOnSlate(d, Apply(d, g, step)) && CallsOnSlate(d, Apply(d, g, step))
  {
    if step.Consult? {
      var task := g.tasks[step.id];
      assert task.names[|task.slots|] in task.names;
    }
  }

  lemma {:induction false} EveryCallIsOnItsSlate(d: Deployment, states: seq<Gateway>, steps: seq<Step>)
    requires Interleaving(d, states, steps)
    ensures TasksOnSlate(d, states[|steps|]) && CallsOnSlate(d, states[|steps|])
  {
    if steps != [] {
      var n := |steps| - 1;
      Shorter(d, states, steps, n);
      EveryCallIsOnItsSlate(d, states[..n + 1], steps[..n]);
      StepStaysOnSlate(d, states[n], steps[n]);
    }
  }

  /** In every interleaving, every provider called for a context is in the list of the first rule
      that matches it, or is the default when none does. */
  lemma EveryCallObeysFirstRule(d: Deployment, states: seq<Gateway>, steps: seq<Step>, c: Call)
    requires Interleaving(d, states, steps) && c in states[|steps|].calls
    ensures (exists i :: FirstMatch(d.policy.rules, c.context, i) && c.provider in d.policy.rules[i].allow)
            || ((forall i | 0 <= i < |d.policy.rules| :: !d.policy.rules[i].Matches(c.context))
                && c.provider == d.policy.defaultProvider)
  {
    EveryCallIsOnItsSlate(d, states, steps);
    assert c.provider in CandidatesFor(d.policy, c.context);
    FirstMatchDecides(d.policy, c.context);
  }

  /** Data of a confined classification only ever reaches the confining rule's providers: no rule
      after it, no breaker state and no other task can widen the choice. */
  lemma ConfinedDataStaysPut(d: Deployment, states: seq<Gateway>, steps: seq<Step>, k: nat, cls: string, c: Call)
    requires Interleaving(d, states, steps) && c in states[|steps|].calls
    requires k < |d.policy.rules| && Confines(d.policy.rules[k], cls)
    requires forall j | 0 <= j < k :: CannotMatchClass(d.policy.rules[j], cls)
    requires c.context.dataClassification == cls
    ensures c.provider in d.policy.rules[k].allow
  {
    EveryCallIsOnItsSlate(d, states, steps);
    EarliestRuleDecides(d.policy, k, cls, c.context);
  }
}
