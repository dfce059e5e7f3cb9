/** Many routed requests in flight at once, sharing one breaker registry. Tasks interleave only
    while a provider call is awaited; the steps here are at least as fine as that. */
module Gateway {
  import opened Wrappers
  import opened Chat
  import opened CircuitBreaker
  import opened Routing

  /** A waiting task remembers what others did before it asked, and when it asked. */
  datatype Phase = Choosing | Waiting(before: seq<Event>, asked: real) | Finished

  /** One route() call: its slate, the positions worked through and what the world did there; how long
      the breakers' history was when it began, and when it last touched them. */
  datatype Task = Task(
    context: RoutingContext, names: seq<string>, slots: seq<Slot>, world: seq<Attempt>,
    start: nat, mark: nat, phase: Phase)

  datatype Call = Call(context: RoutingContext, provider: string, at: real)

  /** entries are the registry's, and decide; history, world and calls only record. */
  datatype Gateway = Gateway(
    entries: map<string, Entry>, history: seq<Event>, now: real, tasks: map<nat, Task>, calls: seq<Call>)

  predicate Idle(g: Gateway) {
    g.entries == map[] && g.history == [] && g.tasks == map[] && g.calls == []
  }

  /** Begin: an agent run (or any other caller) routes a request. Consult: a task looks at its next
      candidate. Settle: the awaited provider call of a task comes back. */
  datatype Step =
    | Begin(id: nat, context: RoutingContext)
    | Consult(id: nat, at: real)
    | Settle(id: nat, outcome: Outcome, at: real)

  datatype Deployment = Deployment(policy: RoutingPolicy, registered: set<string>)

  predicate Enabled(g: Gateway, step: Step) {
    match step
    case Begin(id, _) => id !in g.tasks || g.tasks[id].phase.Finished?
    case Consult(id, at) =>
      id in g.tasks && g.tasks[id].phase.Choosing? && |g.tasks[id].slots| < |g.tasks[id].names| && g.now <= at
    case Settle(id, _, at) =>
      id in g.tasks && g.tasks[id].phase.Waiting? && |g.tasks[id].slots| < |g.tasks[id].names| && g.now <= at
  }

  function Since(h: seq<Event>, mark: nat): seq<Event> {
    if mark <= |h| then h[mark..] else []
  }

  function Started(d: Deployment, context: RoutingContext, start: nat): Task {
    var names := Slate(d.policy, context);
    Task(context, names, [], [], start, start, if names == [] then Finished else Choosing)
  }

  function Worked(task: Task, slot: Slot, a: Attempt, mark: nat): Task {
    task.(slots := task.slots + [slot], world := task.world + [a], mark := mark,
          phase := if |task.slots| + 1 == |task.names| || !FallsThrough(slot) then Finished else Choosing)
  }

  function Consulted(d: Deployment, g: Gateway, id: nat, at: real): Gateway
    requires Enabled(g, Consult(id, at))
  {
    var task := g.tasks[id];
    var name := task.names[|task.slots|];
    var before := Since(g.history, task.mark);
    var (admitted, entry) := Asked(d.policy.breaker, Lookup(g.entries, name), at);
    var slot := Fate(d.policy, d.registered, name, admitted, TransientError);
    var entries := if slot.Unregistered? then g.entries else g.entries[name := entry];
    var h := g.history + Stamp(name, slot, at);
    if slot.Tried? then
      Gateway(entries, h, at, g.tasks[id := task.(mark := |h|, phase := Waiting(before, at))],
              g.calls + [Call(task.context, name, at)])
    else
      Gateway(entries, h, at,
              g.tasks[id := Worked(task, slot, Attempt(before, at, TransientError, [], at), |h|)], g.calls)
  }

  function Settled(d: Deployment, g: Gateway, id: nat, outcome: Outcome, at: real): Gateway
    requires Enabled(g, Settle(id, outcome, at))
  {
    var task := g.tasks[id];
    var name := task.names[|task.slots|];
    var h := g.history + Aftermath(name, outcome, at);
    var a := Attempt(task.phase.before, task.phase.asked, outcome, Since(g.history, task.mark), at);
    g.(entries := match outcome
                  case Success(_) => g.entries[name := Healed(Lookup(g.entries, name))]
                  case AuthError => g.entries
                  case TransientError => g.entries[name := Hurt(d.policy.breaker, Lookup(g.entries, name), at)],
       history := h, now := at, tasks := g.tasks[id := Worked(task, Tried(outcome), a, |h|)])
  }

  function Apply(d: Deployment, g: Gateway, step: Step): Gateway
    requires Enabled(g, step)
  {
    match step
    case Begin(id, context) => g.(tasks := g.tasks[id := Started(d, context, |g.history|)])
    case Consult(id, at) => Consulted(d, g, id, at)
    case Settle(id, outcome, at) => Settled(d, g, id, outcome, at)
  }

  /** Every interleaving: the states some sequence of enabled steps passes through, last one last. */
  ghost predicate Interleaving(d: Deployment, states: seq<Gateway>, steps: seq<Step>) {
    && |states| == |steps| + 1
    && Idle(states[0])
    && forall i | 0 <= i < |steps| :: Enabled(states[i], steps[i]) && states[i + 1] == Apply(d, states[i], steps[i])
  }

  lemma Shorter(d: Deployment, states: seq<Gateway>, steps: seq<Step>, n: nat)
    requires Interleaving(d, states, steps) && n <= |steps|
    ensures Interleaving(d, states[..n + 1], steps[..n])
  {
  }

  // ---------- The entries follow the history ----------

  /** The registry's entries summarise a legal history. */
  ghost predicate Sound(d: Deployment, g: Gateway) {
    && Legal(d.policy.breaker, g.history) && NotBefore(g.history, g.now)
    && Summarises(d.policy.breaker, g.entries, g.history)
  }

  lemma LaterIsFine(h: seq<Event>, t: real, u: real)
    requires NotBefore(h, t) && t <= u
    ensures NotBefore(h, u)
  {
  }

  /** What a consultation does to the breakers. */
  lemma ConsultedBreakers(d: Deployment, g: Gateway, id: nat, at: real)
    requires Enabled(g, Consult(id, at))
    ensures var name, after := g.tasks[id].names[|g.tasks[id].slots|], Consulted(d, g, id, at);
            var (admitted, entry) := Asked(d.policy.breaker, Lookup(g.entries, name), at);
            && after.now == at
            && after.history == (if name in d.registered then g.history + [Answer(name, at, admitted)] else g.history)
            && after.entries == (if name in d.registered then g.entries[name := entry] else g.entries)
  {
  }

  lemma SoundWhenAsked(d: Deployment, g: Gateway, name: string, at: real, after: Gateway)
    requires Sound(d, g) && d.policy.breaker.Valid() && g.now <= at
    requires var (admitted, entry) := Asked(d.policy.breaker, Lookup(g.entries, name), at);
             && after.history == g.history + [Answer(name, at, admitted)]
             && after.entries == g.entries[name := entry] && after.now == at
    ensures Sound(d, after)
  {
    LaterIsFine(g.history, g.now, at);
    AskedByHistory(d.policy.breaker, g.entries, g.history, name, at);
    Unfold(g.history, Answer(name, at, Asked(d.policy.breaker, Lookup(g.entries, name), at).0));
  }

  lemma ConsultIsSound(d: Deployment, g: Gateway, id: nat, at: real)
    requires Enabled(g, Consult(id, at)) && Sound(d, g) && d.policy.breaker.Valid()
    ensures Sound(d, Consulted(d, g, id, at))
  {
    var name, after := g.tasks[id].names[|g.tasks[id].slots|], Consulted(d, g, id, at);
    ConsultedBreakers(d, g, id, at);
    if name in d.registered {
      SoundWhenAsked(d, g, name, at, after);
    } else {
      LaterIsFine(g.history, g.now, at);
    }
  }

  lemma SettleIsSound(d: Deployment, g: Gateway, id: nat, outcome: Outcome, at: real)
    requires Enabled(g, Settle(id, outcome, at)) && Sound(d, g) && d.policy.breaker.Valid()
    ensures Sound(d, Settled(d, g, id, outcome, at))
  {
    var name := g.tasks[id].names[|g.tasks[id].slots|];
    LaterIsFine(g.history, g.now, at);
    match outcome
    case Success(_) =>
      HealedByHistory(d.policy.breaker, g.entries, g.history, name);
      Unfold(g.history, Succeeded(name));
    case AuthError =>
      assert g.history + [] == g.history;
    case TransientError =>
      HurtByHistory(d.policy.breaker, g.entries, g.history, name, at);
      Unfold(g.history, Failed(name, at));
  }

  lemma StepIsSound(d: Deployment, g: Gateway, step: Step)
    requires Enabled(g, step) && Sound(d, g) && d.policy.breaker.Valid()
    ensures Sound(d, Apply(d, g, step))
  {
    match step
    case Begin(_, _) =>
    case Consult(id, at) => ConsultIsSound(d, g, id, at);
    case Settle(id, outcome, at) => SettleIsSound(d, g, id, outcome, at);
  }

  /** Whatever the interleaving, the shared entries stay the summary of what all tasks have done, and
      each decision any task gets from them is the one the admission rule gives on that history. */
  lemma {:induction false} EveryStateIsSound(d: Deployment, states: seq<Gateway>, steps: seq<Step>)
    requires Interleaving(d, states, steps) && d.policy.breaker.Valid()
    ensures forall i | 0 <= i < |states| :: Sound(d, states[i])
  {
    if steps != [] {
      var n := |steps| - 1;
      Shorter(d, states, steps, n);
      EveryStateIsSound(d, states[..n + 1], steps[..n]);
      assert Sound(d, states[..n + 1][n]);
      StepIsSound(d, states[n], steps[n]);
      forall i | 0 <= i < |states|
        ensures Sound(d, states[i])
      {
        assert i <= n ==> states[i] == states[..n + 1][i];
      }
    } else {
      assert forall p :: Tracks(d.policy.breaker, FRESH, [], p);
    }
  }
}
