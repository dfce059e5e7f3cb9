/** The policy router: which providers may serve a request, and failover among them. */
module Routing {
  import opened Wrappers
  import opened Chat
  import opened CircuitBreaker

  datatype RoutingContext = RoutingContext(tenantId: string, dataClassification: string, costTier: string) {
    function Dump(): map<string, string> {
      map["tenant_id" := tenantId, "data_classification" := dataClassification, "cost_tier" := costTier]
    }
  }

  datatype RoutingRule = RoutingRule(name: string, when: map<string, seq<string>>, allow: seq<string>) {
    /** A key that is no field of the context reads as a missing value, which no list contains. */
    predicate Matches(context: RoutingContext) {
      forall key | key in when :: key in context.Dump() && context.Dump()[key] in when[key]
    }
  }

  datatype RoutingPolicy = RoutingPolicy(
    defaultProvider: string, models: map<string, string>, rules: seq<RoutingRule>, maxAttempts: nat, breaker: Config)

  /** A field's value satisfies what a rule demands of the field, if it demands anything. */
  predicate Satisfies(rule: RoutingRule, field: string, value: string) {
    field in rule.when ==> value in rule.when[field]
  }

  /** A rule matches exactly when it speaks of the tenant, the data classification and the cost tier only,
      and each of the three the context has is in the list demanded of it. */
  lemma MatchesExactly(rule: RoutingRule, context: RoutingContext)
    ensures rule.Matches(context) <==>
              && rule.when.Keys <= {"tenant_id", "data_classification", "cost_tier"}
              && Satisfies(rule, "tenant_id", context.tenantId)
              && Satisfies(rule, "data_classification", context.dataClassification)
              && Satisfies(rule, "cost_tier", context.costTier)
  {
    assert "tenant_id"[0] != "data_classification"[0] && "tenant_id"[0] != "cost_tier"[0];
    assert "data_classification"[0] != "cost_tier"[0];
    if rule.Matches(context) {
      assert forall key | key in rule.when.Keys :: key in context.Dump();
    }
  }

  function CandidatesFor(policy: RoutingPolicy, context: RoutingContext): seq<string>
    decreases |policy.rules|
  {
    if policy.rules == [] then [policy.defaultProvider]
    else if policy.rules[0].Matches(context) then policy.rules[0].allow
    else CandidatesFor(policy.(rules := policy.rules[1..]), context)
  }

  predicate FirstMatch(rules: seq<RoutingRule>, context: RoutingContext, i: int) {
    && 0 <= i < |rules| && rules[i].Matches(context)
    && forall j | 0 <= j < i :: !rules[j].Matches(context)
  }

  /** The candidates are the first matching rule's list, or the default provider alone. */
  lemma {:induction false} FirstMatchDecides(policy: RoutingPolicy, context: RoutingContext)
    ensures (exists i ::
               FirstMatch(policy.rules, context, i) && CandidatesFor(policy, context) == policy.rules[i].allow)
            || ((forall i | 0 <= i < |policy.rules| :: !policy.rules[i].Matches(context))
                && CandidatesFor(policy, context) == [policy.defaultProvider])
    decreases |policy.rules|
  {
    if policy.rules != [] {
      if policy.rules[0].Matches(context) {
        assert FirstMatch(policy.rules, context, 0);
      } else {
        var rest := policy.(rules := policy.rules[1..]);
        FirstMatchDecides(rest, context);
        if i :| FirstMatch(rest.rules, context, i) && CandidatesFor(rest, context) == rest.rules[i].allow {
          assert FirstMatch(policy.rules, context, i + 1);
        } else {
          assert forall i | 1 <= i < |policy.rules| :: policy.rules[i] == rest.rules[i - 1];
        }
      }
    }
  }

  /** The list one route() call works through. */
  function Slate(policy: RoutingPolicy, context: RoutingContext): seq<string> {
    var names := CandidatesFor(policy, context);
    if policy.maxAttempts < |names| then names[..policy.maxAttempts] else names
  }

  /** The names the policy gives a context: the list of the first rule that matches it, or the default
      provider alone when none does. */
  ghost predicate Entitled(policy: RoutingPolicy, context: RoutingContext, names: seq<string>) {
    || (exists i :: FirstMatch(policy.rules, context, i) && names == policy.rules[i].allow)
    || ((forall i | 0 <= i < |policy.rules| :: !policy.rules[i].Matches(context)) && names == [policy.defaultProvider])
  }

  function Min(a: nat, b: nat): nat {
    if a < b then a else b
  }

  /** A request works through exactly the first max_attempts of the names it is given. */
  lemma SlateIsPrefix(policy: RoutingPolicy, context: RoutingContext, names: seq<string>)
    requires Entitled(policy, context, names)
    ensures |Slate(policy, context)| == Min(policy.maxAttempts, |names|)
    ensures Slate(policy, context) == names[..Min(policy.maxAttempts, |names|)]
  {
    FirstMatchDecides(policy, context);
    assert names == CandidatesFor(policy, context);
    assert names[..|names|] == names;
  }

  // ---------- One routed request ----------

  datatype Outcome = Success(response: ChatResponse) | AuthError | TransientError

  /** What happens at one position of the slate: nothing is registered under the name; the breaker
      refuses; the breaker admits but the policy has no model for the name (a KeyError); or the
      provider is called. */
  datatype Slot = Unregistered | CircuitOpen | Unconfigured | Tried(outcome: Outcome)

  datatype RouteResult =
    | Answered(response: ChatResponse)
    | AuthFailed(provider: string)
    | MissingModel(provider: string)
    | NoHealthyProvider
    | NoCandidates

  /** What the world does at one position: what other tasks do to the shared breakers before it, the
      breaker's clock reading, the provider's outcome, what others do while the call is awaited, and the
      clock reading after it. */
  datatype Attempt = Attempt(
    before: seq<Event>, asked: real, outcome: Outcome, meanwhile: seq<Event>, settled: real)

  /** The fate of a name, from the breaker's answer on. */
  function Fate(policy: RoutingPolicy, registered: set<string>, name: string, admitted: bool, outcome: Outcome): Slot {
    if name !in registered then Unregistered
    else if !admitted then CircuitOpen
    else if name !in policy.models then Unconfigured
    else Tried(outcome)
  }

  /** The fate of a name when the breakers had seen h by the end of the previous position. */
  function Judge(policy: RoutingPolicy, registered: set<string>, h: seq<Event>, name: string, a: Attempt): Slot {
    Fate(policy, registered, name, Admits(policy.breaker, h + a.before, name, a.asked), a.outcome)
  }

  /** What asking the breaker about a name leaves in its history. */
  function Stamp(name: string, slot: Slot, asked: real): seq<Event> {
    match slot
    case Unregistered => []
    case CircuitOpen => [Refused(name, asked)]
    case Unconfigured => [Admitted(name, asked)]
    case Tried(_) => [Admitted(name, asked)]
  }

  /** What a returned call does to the breaker. An authentication error leaves no verdict. */
  function Aftermath(name: string, outcome: Outcome, settled: real): seq<Event> {
    match outcome
    case Success(_) => [Succeeded(name)]
    case AuthError => []
    case TransientError => [Failed(name, settled)]
  }

  /** What the breakers see over one position, the other tasks included. */
  function Footprint(name: string, slot: Slot, a: Attempt): seq<Event> {
    var asked := a.before + Stamp(name, slot, a.asked);
    match slot
    case Tried(outcome) => asked + a.meanwhile + Aftermath(name, outcome, a.settled)
    case _ => asked
  }

  /** The breakers' history once the slots have been worked through, starting from h. */
  function HistoryAfter(h: seq<Event>, names: seq<string>, slots: seq<Slot>, world: seq<Attempt>): seq<Event>
    requires |slots| <= |names| && |slots| <= |world|
  {
    if slots == [] then h
    else
      var n := |slots| - 1;
      HistoryAfter(h, names, slots[..n], world) + Footprint(names[n], slots[n], world[n])
  }

  predicate FallsThrough(slot: Slot) {
    slot.Unregistered? || slot.CircuitOpen? || slot == Tried(TransientError)
  }

  /** The slot is what the world and the earlier slots make of the next position. */
  ghost predicate Follows(policy: RoutingPolicy, registered: set<string>, h: seq<Event>,
                          names: seq<string>, earlier: seq<Slot>, world: seq<Attempt>, slot: Slot)
    requires |earlier| < |names| && |earlier| < |world|
  {
    slot == Judge(policy, registered, HistoryAfter(h, names, earlier, world), names[|earlier|], world[|earlier|])
  }

  /** The slots are those of one request: each is judged against the history the earlier ones left,
      and only the last may end the request. */
  ghost predicate Proceeds(policy: RoutingPolicy, registered: set<string>, h: seq<Event>,
                           names: seq<string>, slots: seq<Slot>, world: seq<Attempt>)
    requires |slots| <= |names| && |slots| <= |world|
  {
    && (forall i | 0 <= i < |slots| :: Follows(policy, registered, h, names, slots[..i], world, slots[i]))
    && OnlyLastEnds(slots)
  }

  predicate OnlyLastEnds(slots: seq<Slot>) {
    forall i | 0 <= i < |slots| - 1 :: FallsThrough(slots[i])
  }

  /** Worked through to the end: the slate is used up, or the last slot ended the request. */
  predicate Ended(names: seq<string>, slots: seq<Slot>) {
    && OnlyLastEnds(slots)
    && (|slots| == |names| || (|slots| < |names| && slots != [] && !FallsThrough(slots[|slots| - 1])))
  }

  /** How a request ends on a slot that does not fall through. */
  function Ending(name: string, slot: Slot): RouteResult
    requires !FallsThrough(slot)
  {
    match slot
    case Unconfigured => MissingModel(name)
    case Tried(Success(response)) => Answered(response)
    case Tried(AuthError) => AuthFailed(name)
  }

  function Verdict(names: seq<string>, slots: seq<Slot>): RouteResult
    requires |slots| <= |names|
  {
    if names == [] then NoCandidates
    else if slots == [] || FallsThrough(slots[|slots| - 1]) then NoHealthyProvider
    else Ending(names[|slots| - 1], slots[|slots| - 1])
  }

  /** A finished request, as Route leaves it. */
  ghost predicate Routed(policy: RoutingPolicy, registered: set<string>, h: seq<Event>,
                         names: seq<string>, slots: seq<Slot>, world: seq<Attempt>)
  {
    && |slots| <= |names| && |slots| <= |world|
    && Proceeds(policy, registered, h, names, slots, world)
    && Ended(names, slots)
  }

  /** The clock does not go back, and the other tasks do to the breakers what they can do. */
  ghost predicate Feasible(policy: RoutingPolicy, registered: set<string>, h: seq<Event>, name: string, a: Attempt) {
    && Legal(policy.breaker, h + a.before) && NotBefore(h + a.before, a.asked)
    && (Judge(policy, registered, h, name, a).Tried? ==>
          var out := h + a.before + [Admitted(name, a.asked)];
          Legal(policy.breaker, out + a.meanwhile) && NotBefore(out + a.meanwhile, a.settled))
  }

  ghost predicate FeasibleNext(policy: RoutingPolicy, registered: set<string>, h: seq<Event>,
                               names: seq<string>, slots: seq<Slot>, world: seq<Attempt>)
    requires |slots| < |names| && |slots| < |world|
  {
    Feasible(policy, registered, HistoryAfter(h, names, slots, world), names[|slots|], world[|slots|])
  }

  /** The world is feasible at every position the request gets to. */
  ghost predicate Possible(policy: RoutingPolicy, registered: set<string>, h: seq<Event>,
                           names: seq<string>, world: seq<Attempt>)
    requires |world| == |names|
  {
    forall slots: seq<Slot> {:trigger FeasibleNext(policy, registered, h, names, slots, world)} ::
      |slots| < |names| && Proceeds(policy, registered, h, names, slots, world) &&
      (slots == [] || FallsThrough(slots[|slots| - 1])) ==>
        FeasibleNext(policy, registered, h, names, slots, world)
  }

  class ProviderRouter {
    const policy: RoutingPolicy
    const registered: set<string>
    const breakers: CircuitBreakerRegistry

    constructor (policy: RoutingPolicy, registered: set<string>, breakers: CircuitBreakerRegistry)
      ensures this.policy == policy && this.registered == registered && this.breakers == breakers
    {
      this.policy := policy;
      this.registered := registered;
      this.breakers := breakers;
    }

    /** The awaited provider call; other tasks run meanwhile. */
    method Chat(a: Attempt) returns (outcome: Outcome)
      requires breakers.Valid() && Legal(breakers.config, breakers.history + a.meanwhile)
      modifies breakers
      ensures breakers.Valid() && breakers.history == old(breakers.history) + a.meanwhile
      ensures outcome == a.outcome
    {
      breakers.Perform(a.meanwhile);
      outcome := a.outcome;
    }

    /** The call and what the loop does once it has come back. */
    method Try(name: string, a: Attempt) returns (slot: Slot)
      requires breakers.Valid() && Legal(breakers.config, breakers.history + a.meanwhile)
      requires NotBefore(breakers.history + a.meanwhile, a.settled)
      modifies breakers
      ensures breakers.Valid() && slot == Tried(a.outcome)
      ensures breakers.history == old(breakers.history) + a.meanwhile + Aftermath(name, a.outcome, a.settled)
    {
      var outcome := Chat(a);
      match outcome {
        case AuthError =>
        case TransientError =>
          breakers.OnFailure(name, a.settled);
        case Success(_) =>
          breakers.OnSuccess(name);
      }
      slot := Tried(outcome);
    }

    /** The body of the failover loop for one name, other tasks running where it waits. */
    method Consult(name: string, a: Attempt) returns (slot: Slot)
      requires breakers.Valid() && breakers.config == policy.breaker
      requires Feasible(policy, registered, breakers.history, name, a)
      modifies breakers
      ensures breakers.Valid()
      ensures slot == Judge(policy, registered, old(breakers.history), name, a)
      ensures breakers.history == old(breakers.history) + Footprint(name, slot, a)
    {
      breakers.Perform(a.before);
      if name !in registered {
        return Unregistered;
      }
      var admitted := breakers.BeforeCall(name, a.asked);
      if !admitted {
        return CircuitOpen;
      }
      if name !in policy.models {
        return Unconfigured;
      }
      slot := Try(name, a);
    }

    method TryNext(names: seq<string>, slots: seq<Slot>, world: seq<Attempt>, ghost h: seq<Event>) returns (slot: Slot)
      requires breakers.Valid() && breakers.config == policy.breaker
      requires |slots| < |names| == |world| && Possible(policy, registered, h, names, world)
      requires Proceeds(policy, registered, h, names, slots, world)
      requires slots == [] || FallsThrough(slots[|slots| - 1])
      requires breakers.history == HistoryAfter(h, names, slots, world)
      modifies breakers
      ensures breakers.Valid()
      ensures Proceeds(policy, registered, h, names, slots + [slot], world)
      ensures breakers.history == HistoryAfter(h, names, slots + [slot], world)
    {
      assert FeasibleNext(policy, registered, h, names, slots, world);
      slot := Consult(names[|slots|], world[|slots|]);
      Extended(policy, registered, h, names, slots, world, slot);
    }

    /** The failover loop over a slate; slots is what the spans and metrics record, one per position
        worked through. */
    method TryEach(names: seq<string>, world: seq<Attempt>) returns (result: RouteResult, slots: seq<Slot>)
      requires breakers.Valid() && breakers.config == policy.breaker
      requires |world| == |names| && Possible(policy, registered, breakers.history, names, world)
      modifies breakers
      ensures breakers.Valid()
      ensures Routed(policy, registered, old(breakers.history), names, slots, world)
      ensures breakers.history == HistoryAfter(old(breakers.history), names, slots, world)
      ensures result == Verdict(names, slots)
    {
      slots := [];
      if names == [] {
        return NoCandidates, slots;
      }
      ghost var h := breakers.history;
      for i := 0 to |names|
        invariant breakers.Valid()
        invariant |slots| == i
        invariant breakers.history == HistoryAfter(h, names, slots, world)
        invariant Proceeds(policy, registered, h, names, slots, world)
        invariant i > 0 ==> FallsThrough(slots[i - 1])
      {
        var slot := TryNext(names, slots, world, h);
        slots := slots + [slot];
        if !FallsThrough(slot) {
          return Ending(names[i], slot), slots;
        }
      }
      result := NoHealthyProvider;
    }

    /** One request, other tasks working on the same breakers all the while. */
    method Route(context: RoutingContext, world: seq<Attempt>) returns (result: RouteResult, slots: seq<Slot>)
      requires breakers.Valid() && breakers.config == policy.breaker
      requires |world| == |Slate(policy, context)|
      requires Possible(policy, registered, breakers.history, Slate(policy, context), world)
      modifies breakers
      ensures breakers.Valid()
      ensures Routed(policy, registered, old(breakers.history), Slate(policy, context), slots, world)
      ensures breakers.history == HistoryAfter(old(breakers.history), Slate(policy, context), slots, world)
      ensures result == Verdict(Slate(policy, context), slots)
      ensures forall names :: Entitled(policy, context, names) ==>
                var n := Min(policy.maxAttempts, |names|);
                && |world| == n
                && (result.NoHealthyProvider? <==>
                      n > 0 && |slots| == n && forall i | 0 <= i < n :: FallsThrough(slots[i]))
    {
      result, slots := TryEach(Slate(policy, context), world);
      forall names | Entitled(policy, context, names)
        ensures |Slate(policy, context)| == Min(policy.maxAttempts, |names|)
      {
        SlateIsPrefix(policy, context, names);
      }
      AnswerIsFirstSuccess(Slate(policy, context), slots);
    }
  }

  lemma Extended(policy: RoutingPolicy, registered: set<string>, h: seq<Event>,
                 names: seq<string>, slots: seq<Slot>, world: seq<Attempt>, slot: Slot)
    requires |slots| < |names| && |slots| < |world|
    requires Proceeds(policy, registered, h, names, slots, world)
    requires slots != [] ==> FallsThrough(slots[|slots| - 1])
    requires Follows(policy, registered, h, names, slots, world, slot)
    ensures Proceeds(policy, registered, h, names, slots + [slot], world)
    ensures HistoryAfter(h, names, slots + [slot], world)
         == HistoryAfter(h, names, slots, world) + Footprint(names[|slots|], slot, world[|slots|])
  {
    var longer := slots + [slot];
    assert longer[..|slots|] == slots;
    forall i | 0 <= i < |longer|
      ensures Follows(policy, registered, h, names, longer[..i], world, longer[i])
    {
      if i < |slots| {
        assert longer[..i] == slots[..i] && longer[i] == slots[i];
      }
    }
  }

  // ---------- What failover guarantees ----------

  /** A position is called exactly when the request gets that far and its name is registered,
      configured and admitted after all that the earlier positions did; and it is called once. */
  lemma CalledExactly(policy: RoutingPolicy, registered: set<string>, h: seq<Event>,
                      names: seq<string>, slots: seq<Slot>, world: seq<Attempt>, i: nat)
    requires Routed(policy, registered, h, names, slots, world)
    requires i < |slots|
    ensures slots[i].Tried? <==>
              (names[i] in registered && names[i] in policy.models
               && Admits(policy.breaker, HistoryAfter(h, names, slots[..i], world) + world[i].before,
                         names[i], world[i].asked))
    ensures slots[i].Tried? ==> slots[i].outcome == world[i].outcome
    ensures slots[i].Unregistered? <==> names[i] !in registered
    ensures slots[i].CircuitOpen? <==>
              names[i] in registered
              && !Admits(policy.breaker, HistoryAfter(h, names, slots[..i], world) + world[i].before,
                         names[i], world[i].asked)
  {
    assert Follows(policy, registered, h, names, slots[..i], world, slots[i]);
  }

  /** The answer is the first success on the slate: everything before the end was skipped or failed
      transiently, and an authentication error ends the request at once. */
  lemma AnswerIsFirstSuccess(names: seq<string>, slots: seq<Slot>)
    requires Ended(names, slots)
    ensures forall i | 0 <= i < |slots| - 1 :: FallsThrough(slots[i])
    ensures forall response :: Verdict(names, slots) == Answered(response) <==> Tried(Success(response)) in slots
    ensures Verdict(names, slots).AuthFailed? <==> Tried(AuthError) in slots
    ensures Verdict(names, slots).MissingModel? <==> Unconfigured in slots
    ensures forall p :: Verdict(names, slots) == AuthFailed(p) || Verdict(names, slots) == MissingModel(p) ==>
              slots != [] && p == names[|slots| - 1]
    ensures Verdict(names, slots) == NoCandidates <==> names == []
    ensures Verdict(names, slots).NoHealthyProvider? <==>
              (names != [] && |slots| == |names| && forall i | 0 <= i < |names| :: FallsThrough(slots[i]))
  {
    assert forall slot :: !FallsThrough(slot) ==> (slot in slots <==> slots != [] && slot == slots[|slots| - 1]);
  }

  /** Out of providers: each of the first max_attempts names of the first matching rule (or the default) was
      not registered, refused by its breaker on all that had been done by then, or called and failed
      transiently. */
  lemma ExhaustedMeansAll(policy: RoutingPolicy, registered: set<string>, h: seq<Event>, context: RoutingContext,
                          names: seq<string>, slots: seq<Slot>, world: seq<Attempt>, i: nat)
    requires Entitled(policy, context, names) && i < Min(policy.maxAttempts, |names|)
    requires Routed(policy, registered, h, Slate(policy, context), slots, world)
    requires Verdict(Slate(policy, context), slots).NoHealthyProvider?
    ensures i < |slots| == Min(policy.maxAttempts, |names|) == |Slate(policy, context)| <= |world|
    ensures var admitted := Admits(policy.breaker,
                                   HistoryAfter(h, Slate(policy, context), slots[..i], world) + world[i].before,
                                   names[i], world[i].asked);
            || names[i] !in registered
            || !admitted
            || (names[i] in policy.models && world[i].outcome == TransientError)
  {
    var slate := Slate(policy, context);
    SlateIsPrefix(policy, context, names);
    AnswerIsFirstSuccess(slate, slots);
    assert slate[i] == names[i] && FallsThrough(slots[i]);
    CalledExactly(policy, registered, h, slate, slots, world, i);
  }

  /** Sequences built by the same rule from what came before agree as far as both go. */
  lemma {:induction false} SameRuleSameStart<T>(a: seq<T>, b: seq<T>, next: seq<T> -> T, k: nat)
    requires k <= |a| && k <= |b|
    requires forall i | 0 <= i < k :: a[i] == next(a[..i]) && b[i] == next(b[..i])
    ensures a[..k] == b[..k]
  {
    if k > 0 {
      SameRuleSameStart(a, b, next, k - 1);
      assert a[..k] == a[..k - 1] + [a[k - 1]] && b[..k] == b[..k - 1] + [b[k - 1]];
    }
  }

  /** Nothing about the request is left open: the world fixes its slots. */
  lemma RequestIsDetermined(policy: RoutingPolicy, registered: set<string>, h: seq<Event>,
      names: seq<string>, a: seq<Slot>, b: seq<Slot>, world: seq<Attempt>)
    requires Routed(policy, registered, h, names, a, world) && Routed(policy, registered, h, names, b, world)
    ensures a == b
  {
    var next := (earlier: seq<Slot>) =>
      if |earlier| < |names| && |earlier| < |world|
      then Judge(policy, registered, HistoryAfter(h, names, earlier, world), names[|earlier|], world[|earlier|])
      else Unregistered;
    var k := if |a| <= |b| then |a| else |b|;
    forall i | 0 <= i < k
      ensures a[i] == next(a[..i]) && b[i] == next(b[..i])
    {
      assert Follows(policy, registered, h, names, a[..i], world, a[i]);
      assert Follows(policy, registered, h, names, b[..i], world, b[i]);
    }
    SameRuleSameStart(a, b, next, k);
    if k == |a| {
      NeitherGoesOn(names, a, b);
    } else {
      NeitherGoesOn(names, b, a);
    }
  }

  lemma NeitherGoesOn(names: seq<string>, a: seq<Slot>, b: seq<Slot>)
    requires |a| <= |b| <= |names| && a[..|a|] == b[..|a|]
    requires |a| < |names| ==> a != [] && !FallsThrough(a[|a| - 1])
    requires forall i | 0 <= i < |b| - 1 :: FallsThrough(b[i])
    ensures a == b
  {
    assert a == b[..|a|];
  }

  /** Events of other providers leave what the breakers know of q as it is. */
  lemma {:induction false} OthersOnly(h: seq<Event>, w: seq<Event>, q: string)
    requires forall e :: e in w ==> e.provider != q
    ensures SameFor(q, h + w, h)
  {
    if w == [] {
      assert h + w == h;
    } else {
      var before, e := w[..|w| - 1], w[|w| - 1];
      assert e in w && h + w == h + before + [e];
      OthersOnly(h, before, q);
      Elsewhere(h + before, e, q);
    }
  }

  /** Neither the request at this position nor the tasks beside it have to do with q. */
  predicate Spares(slot: Slot, name: string, a: Attempt, q: string) {
    && (name == q ==> slot.Unregistered?)
    && (forall e :: e in a.before ==> e.provider != q)
    && (forall e :: e in a.meanwhile ==> e.provider != q)
  }

  /** A request changes only the breakers of names it consulted. */
  lemma {:induction false} OtherBreakersUntouched(h: seq<Event>, names: seq<string>, slots: seq<Slot>,
                                                  world: seq<Attempt>, q: string)
    requires |slots| <= |names| && |slots| <= |world|
    requires forall i | 0 <= i < |slots| :: Spares(slots[i], names[i], world[i], q)
    ensures SameFor(q, HistoryAfter(h, names, slots, world), h)
  {
    if slots != [] {
      var n := |slots| - 1;
      OtherBreakersUntouched(h, names, slots[..n], world, q);
      assert Spares(slots[n], names[n], world[n], q);
      OthersOnly(HistoryAfter(h, names, slots[..n], world), Footprint(names[n], slots[n], world[n]), q);
    }
  }

  // ---------- Confinement by rule order ----------

  /** The rule speaks of the data classification only, and covers cls. */
  predicate Confines(rule: RoutingRule, cls: string) {
    rule.when.Keys == {"data_classification"} && cls in rule.when["data_classification"]
  }

  predicate CannotMatchClass(rule: RoutingRule, cls: string) {
    "data_classification" in rule.when && cls !in rule.when["data_classification"]
  }

  /** A confining rule that no matching rule precedes decides its classification, whatever rules
      follow it. */
  lemma {:induction false} EarliestRuleDecides(policy: RoutingPolicy, k: nat, cls: string, context: RoutingContext)
    requires k < |policy.rules| && Confines(policy.rules[k], cls)
    requires forall j | 0 <= j < k :: CannotMatchClass(policy.rules[j], cls)
    requires context.dataClassification == cls
    ensures CandidatesFor(policy, context) == policy.rules[k].allow
    decreases k
  {
    if k > 0 {
      assert !policy.rules[0].Matches(context) by {
        assert "data_classification" in policy.rules[0].when;
      }
      var rest := policy.(rules := policy.rules[1..]);
      forall j | 0 <= j < k - 1
        ensures CannotMatchClass(rest.rules[j], cls)
      {
        assert rest.rules[j] == policy.rules[j + 1];
      }
      EarliestRuleDecides(rest, k - 1, cls, context);
    } else {
      assert forall key | key in policy.rules[0].when :: key in policy.rules[0].when.Keys;
      assert policy.rules[0].Matches(context);
    }
  }
}
