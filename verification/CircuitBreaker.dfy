/** The per-provider circuit breaker. The registry mutates one entry per provider; what it is
    for is stated over the history of calls it has seen, of which the entries are a summary. */
module CircuitBreaker {
  import opened Wrappers

  datatype State = Closed | Open | HalfOpen

  datatype Entry = Entry(state: State, failures: nat, openedAt: real)

  const FRESH: Entry := Entry(Closed, 0, 0.0)

  /** The two settings. Nothing in the program rejects other values. */
  datatype Config = Config(threshold: int, reset: real) {
    predicate Valid() {
      threshold >= 1 && reset > 0.0
    }
  }

  /** One completed call of the registry, with the clock reading it made. */
  datatype Event =
    | Admitted(provider: string, at: real)
    | Refused(provider: string, at: real)
    | Failed(provider: string, at: real)
    | Succeeded(provider: string)

  // ---------- What a history says about one provider ----------

  /** Failures since the provider's last success. */
  function Failures(h: seq<Event>, p: string): nat {
    if h == [] then 0
    else
      var before, e := h[..|h| - 1], h[|h| - 1];
      if e.provider != p then Failures(before, p)
      else if e.Succeeded? then 0
      else Failures(before, p) + (if e.Failed? then 1 else 0)
  }

  function LastFailure(h: seq<Event>, p: string): Option<real> {
    if h == [] then None
    else
      var before, e := h[..|h| - 1], h[|h| - 1];
      if e.provider == p && e.Failed? then Some(e.at) else LastFailure(before, p)
  }

  /** Calls let through since the provider's last failure or success. */
  function Probes(h: seq<Event>, p: string): nat {
    if h == [] then 0
    else
      var before, e := h[..|h| - 1], h[|h| - 1];
      if e.provider != p || e.Refused? then Probes(before, p)
      else if e.Admitted? then Probes(before, p) + 1
      else 0
  }

  function Admissions(h: seq<Event>, p: string): nat {
    if h == [] then 0
    else
      var before, e := h[..|h| - 1], h[|h| - 1];
      Admissions(before, p) + (if e.provider == p && e.Admitted? then 1 else 0)
  }

  lemma Unfold(h: seq<Event>, e: Event)
    ensures (h + [e])[..|h + [e]| - 1] == h && (h + [e])[|h + [e]| - 1] == e
  {
  }

  /** What one event does to the figures of its provider. */
  lemma Effect(h: seq<Event>, e: Event)
    ensures var g, p := h + [e], e.provider;
            && Failures(g, p) == (if e.Succeeded? then 0 else if e.Failed? then Failures(h, p) + 1 else Failures(h, p))
            && Probes(g, p) == (if e.Refused? then Probes(h, p) else if e.Admitted? then Probes(h, p) + 1 else 0)
            && LastFailure(g, p) == (if e.Failed? then Some(e.at) else LastFailure(h, p))
            && Admissions(g, p) == Admissions(h, p) + (if e.Admitted? then 1 else 0)
  {
  }

  lemma LegalAppend(cfg: Config, h: seq<Event>, e: Event)
    requires Legal(cfg, h)
    requires !e.Succeeded? ==> NotBefore(h, e.at)
    requires e.Admitted? ==> Admits(cfg, h, e.provider, e.at)
    requires e.Refused? ==> !Admits(cfg, h, e.provider, e.at)
    ensures Legal(cfg, h + [e])
    ensures !e.Succeeded? ==> Latest(h + [e]) == Some(e.at)
  {
  }

  /** The last clock reading in the history. */
  function Latest(h: seq<Event>): Option<real> {
    if h == [] then None
    else if h[|h| - 1].Succeeded? then Latest(h[..|h| - 1])
    else Some(h[|h| - 1].at)
  }

  predicate NotBefore(h: seq<Event>, t: real) {
    Latest(h).Some? ==> Latest(h).value <= t
  }

  predicate Tripped(cfg: Config, h: seq<Event>, p: string) {
    Failures(h, p) >= cfg.threshold
  }

  /** The admission rule, on the history alone: fewer failures than the threshold since the last
      success, or the last failure at least the reset timeout ago. */
  predicate Admits(cfg: Config, h: seq<Event>, p: string, t: real) {
    !Tripped(cfg, h, p) || (LastFailure(h, p).Some? && t - LastFailure(h, p).value >= cfg.reset)
  }

  function StateAfter(cfg: Config, h: seq<Event>, p: string): State {
    if !Tripped(cfg, h, p) then Closed
    else if Probes(h, p) > 0 then HalfOpen
    else Open
  }

  /** A history some interleaving can produce: the clock never goes back, and a call is admitted
      exactly when the rule admits it. */
  ghost predicate Legal(cfg: Config, h: seq<Event>) {
    h == [] ||
    var before, e := h[..|h| - 1], h[|h| - 1];
    && Legal(cfg, before)
    && (!e.Succeeded? ==> NotBefore(before, e.at))
    && (e.Admitted? ==> Admits(cfg, before, e.provider, e.at))
    && (e.Refused? ==> !Admits(cfg, before, e.provider, e.at))
  }

  // ---------- The registry ----------

  /** The entry summarises the provider's part of the history. */
  ghost predicate Tracks(cfg: Config, e: Entry, h: seq<Event>, p: string) {
    && e.failures == Failures(h, p)
    && e.state == StateAfter(cfg, h, p)
    && (Tripped(cfg, h, p) ==> LastFailure(h, p) == Some(e.openedAt))
  }

  function Lookup(entries: map<string, Entry>, p: string): Entry {
    if p in entries then entries[p] else FRESH
  }

  ghost predicate Summarises(cfg: Config, entries: map<string, Entry>, h: seq<Event>) {
    forall p :: Tracks(cfg, Lookup(entries, p), h, p)
  }

  /** An event of one provider only concerns that provider's entry. */
  lemma StillSummarises(cfg: Config, entries: map<string, Entry>, h: seq<Event>, entry: Entry, e: Event)
    requires Summarises(cfg, entries, h)
    requires Tracks(cfg, entry, h + [e], e.provider)
    ensures Summarises(cfg, entries[e.provider := entry], h + [e])
  {
    Unfold(h, e);
    var after := entries[e.provider := entry];
    forall q
      ensures Tracks(cfg, Lookup(after, q), h + [e], q)
    {
      assert Tracks(cfg, Lookup(entries, q), h, q);
    }
  }

  /** before_call on one entry: whether it returns, and the entry it leaves. */
  function Asked(cfg: Config, entry: Entry, now: real): (bool, Entry) {
    if entry.state != Open then (true, entry)
    else if now - entry.openedAt >= cfg.reset then (true, entry.(state := HalfOpen))
    else (false, entry)
  }

  /** on_success on one entry. */
  function Healed(entry: Entry): Entry {
    entry.(state := Closed, failures := 0)
  }

  /** on_failure on one entry. */
  function Hurt(cfg: Config, entry: Entry, now: real): Entry {
    var counted := entry.(failures := entry.failures + 1);
    if entry.state == HalfOpen || counted.failures >= cfg.threshold then counted.(state := Open, openedAt := now)
    else counted
  }

  function Answer(p: string, now: real, admitted: bool): Event {
    if admitted then Admitted(p, now) else Refused(p, now)
  }

  /** Deciding by the entry is deciding by the history. */
  lemma AskedByHistory(cfg: Config, entries: map<string, Entry>, h: seq<Event>, p: string, now: real)
    requires cfg.Valid() && Legal(cfg, h) && Summarises(cfg, entries, h) && NotBefore(h, now)
    ensures Asked(cfg, Lookup(entries, p), now).0 == Admits(cfg, h, p, now)
    ensures var (admitted, entry) := Asked(cfg, Lookup(entries, p), now);
            && Legal(cfg, h + [Answer(p, now, admitted)])
            && Summarises(cfg, entries[p := entry], h + [Answer(p, now, admitted)])
  {
    var (admitted, entry) := Asked(cfg, Lookup(entries, p), now);
    assert Tracks(cfg, Lookup(entries, p), h, p);
    if StateAfter(cfg, h, p) == HalfOpen {
      HalfOpenOutlivesReset(cfg, h, p);
    }
    Effect(h, Answer(p, now, admitted));
    LegalAppend(cfg, h, Answer(p, now, admitted));
    StillSummarises(cfg, entries, h, entry, Answer(p, now, admitted));
  }

  lemma HealedByHistory(cfg: Config, entries: map<string, Entry>, h: seq<Event>, p: string)
    requires cfg.Valid() && Legal(cfg, h) && Summarises(cfg, entries, h)
    ensures Legal(cfg, h + [Succeeded(p)])
    ensures Summarises(cfg, entries[p := Healed(Lookup(entries, p))], h + [Succeeded(p)])
  {
    Effect(h, Succeeded(p));
    LegalAppend(cfg, h, Succeeded(p));
    StillSummarises(cfg, entries, h, Healed(Lookup(entries, p)), Succeeded(p));
  }

  lemma HurtByHistory(cfg: Config, entries: map<string, Entry>, h: seq<Event>, p: string, now: real)
    requires cfg.Valid() && Legal(cfg, h) && Summarises(cfg, entries, h) && NotBefore(h, now)
    ensures Legal(cfg, h + [Failed(p, now)])
    ensures Summarises(cfg, entries[p := Hurt(cfg, Lookup(entries, p), now)], h + [Failed(p, now)])
  {
    assert Tracks(cfg, Lookup(entries, p), h, p);
    Effect(h, Failed(p, now));
    LegalAppend(cfg, h, Failed(p, now));
    StillSummarises(cfg, entries, h, Hurt(cfg, Lookup(entries, p), now), Failed(p, now));
  }

  class CircuitBreakerRegistry {
    const config: Config
    var entries: map<string, Entry>
    ghost var history: seq<Event>

    ghost predicate Valid()
      reads this
    {
      config.Valid() && Legal(config, history) && Summarises(config, entries, history)
    }

    constructor (config: Config)
      requires config.Valid()
      ensures Valid() && this.config == config && history == []
    {
      this.config := config;
      entries := map[];
      history := [];
    }

    /** True stands for returning, false for raising CircuitOpenError. */
    method BeforeCall(p: string, now: real) returns (admitted: bool)
      requires Valid() && NotBefore(history, now)
      modifies this
      ensures Valid()
      ensures admitted == Admits(config, old(history), p, now)
      ensures history == old(history) + [Answer(p, now, admitted)]
      ensures entries == old(entries)[p := Asked(config, Lookup(old(entries), p), now).1]
    {
      AskedByHistory(config, entries, history, p, now);
      var entry := Lookup(entries, p);
      admitted := true;
      if entry.state == Open {
        if now - entry.openedAt >= config.reset {
          entry := entry.(state := HalfOpen);
        } else {
          admitted := false;
        }
      }
      assert (admitted, entry) == Asked(config, Lookup(entries, p), now);
      entries := entries[p := entry];
      history := history + [Answer(p, now, admitted)];
    }

    method OnSuccess(p: string)
      requires Valid()
      modifies this
      ensures Valid()
      ensures history == old(history) + [Succeeded(p)]
      ensures entries == old(entries)[p := Healed(Lookup(old(entries), p))]
    {
      HealedByHistory(config, entries, history, p);
      var entry := Lookup(entries, p);
      entry := entry.(state := Closed);
      entry := entry.(failures := 0);
      entries := entries[p := entry];
      history := history + [Succeeded(p)];
    }

    method OnFailure(p: string, now: real)
      requires Valid() && NotBefore(history, now)
      modifies this
      ensures Valid()
      ensures history == old(history) + [Failed(p, now)]
      ensures entries == old(entries)[p := Hurt(config, Lookup(old(entries), p), now)]
    {
      HurtByHistory(config, entries, history, p, now);
      var entry := Lookup(entries, p);
      entry := entry.(failures := entry.failures + 1);
      var tripped := entry.failures >= config.threshold;
      if entry.state == HalfOpen || tripped {
        entry := entry.(state := Open, openedAt := now);
      }
      entries := entries[p := entry];
      history := history + [Failed(p, now)];
    }

    /** Calls that other tasks make on the shared registry: any that can come next. */
    method Perform(events: seq<Event>)
      requires Valid() && Legal(config, history + events)
      modifies this
      ensures Valid()
      ensures history == old(history) + events
    {
      ghost var start := history;
      for i := 0 to |events|
        invariant Valid()
        invariant history == start + events[..i]
      {
        var e := events[i];
        NextIsLegal(config, start, events, i);
        assert start + events[..i] + [e] == start + events[..i + 1];
        match e {
          case Admitted(p, at) =>
            var admitted := BeforeCall(p, at);
          case Refused(p, at) =>
            var admitted := BeforeCall(p, at);
          case Succeeded(p) =>
            OnSuccess(p);
          case Failed(p, at) =>
            OnFailure(p, at);
        }
      }
      assert events[..|events|] == events;
    }

    method StateOf(p: string) returns (s: State)
      requires Valid()
      modifies this`entries
      ensures Valid()
      ensures s == StateAfter(config, history, p)
    {
      var entry := Lookup(entries, p);
      assert Tracks(config, entry, history, p);
      ghost var after := entries[p := entry];
      forall q
        ensures Tracks(config, Lookup(after, q), history, q)
      {
        assert Tracks(config, Lookup(entries, q), history, q);
      }
      entries := entries[p := entry];
      s := entry.state;
    }
  }

  // ---------- Facts about every legal history ----------

  /** A half-open breaker has already waited out its reset timeout, so it admits every call. */
  lemma {:induction false} HalfOpenOutlivesReset(cfg: Config, h: seq<Event>, p: string)
    requires cfg.Valid() && Legal(cfg, h)
    requires StateAfter(cfg, h, p) == HalfOpen
    ensures LastFailure(h, p).Some? && Latest(h).Some?
    ensures Latest(h).value - LastFailure(h, p).value >= cfg.reset
    ensures forall t :: NotBefore(h, t) ==> Admits(cfg, h, p, t)
  {
    var before, e := h[..|h| - 1], h[|h| - 1];
    if e.provider != p || e.Refused? || Probes(before, p) > 0 {
      HalfOpenOutlivesReset(cfg, before, p);
    }
  }

  /** Everything the breaker knows of q is the same in both histories. */
  ghost predicate SameFor(q: string, a: seq<Event>, b: seq<Event>) {
    Failures(a, q) == Failures(b, q) && LastFailure(a, q) == LastFailure(b, q) && Probes(a, q) == Probes(b, q)
  }

  function Own(h: seq<Event>, p: string): seq<Event> {
    Filter(h, (e: Event) => e.provider == p)
  }

  lemma Elsewhere(h: seq<Event>, e: Event, q: string)
    requires e.provider != q
    ensures SameFor(q, h + [e], h)
  {
  }

  lemma {:induction false} OwnEventsSuffice(h: seq<Event>, p: string)
    ensures SameFor(p, Own(h, p), h)
  {
    if h != [] {
      var before, e := h[..|h| - 1], h[|h| - 1];
      OwnEventsSuffice(before, p);
      assert h == before + [e];
      if e.provider == p {
        assert Own(h, p) == Own(before, p) + [e];
        Effect(Own(before, p), e);
        Effect(before, e);
      } else {
        assert Own(h, p) == Own(before, p);
        Elsewhere(before, e, p);
      }
    }
  }

  /** The decision on a provider and its state depend on that provider's own events only. */
  lemma OtherProvidersDoNotMatter(cfg: Config, h: seq<Event>, p: string, t: real)
    ensures Admits(cfg, Own(h, p), p, t) <==> Admits(cfg, h, p, t)
    ensures StateAfter(cfg, Own(h, p), p) == StateAfter(cfg, h, p)
  {
    OwnEventsSuffice(h, p);
  }

  lemma {:induction false} LegalPrefix(cfg: Config, h: seq<Event>, k: nat)
    requires Legal(cfg, h) && k <= |h|
    ensures Legal(cfg, h[..k])
  {
    if k < |h| {
      LegalPrefix(cfg, h[..|h| - 1], k);
      assert h[..|h| - 1][..k] == h[..k];
    } else {
      assert h[..k] == h;
    }
  }

  /** What legality says of the next event. */
  lemma NextIsLegal(cfg: Config, h: seq<Event>, w: seq<Event>, i: nat)
    requires Legal(cfg, h + w) && i < |w|
    ensures var before, e := h + w[..i], w[i];
            && (!e.Succeeded? ==> NotBefore(before, e.at))
            && (e.Admitted? ==> Admits(cfg, before, e.provider, e.at))
            && (e.Refused? ==> !Admits(cfg, before, e.provider, e.at))
  {
    LegalPrefix(cfg, h + w, |h| + i + 1);
    assert (h + w)[..|h| + i + 1] == h + w[..i] + [w[i]];
    Unfold(h + w[..i], w[i]);
  }

  lemma {:induction false} LatestIsLatest(cfg: Config, h: seq<Event>)
    requires Legal(cfg, h)
    ensures forall e :: e in h && !e.Succeeded? ==> Latest(h).Some? && e.at <= Latest(h).value
  {
    if h != [] {
      LatestIsLatest(cfg, h[..|h| - 1]);
      assert h == h[..|h| - 1] + [h[|h| - 1]];
    }
  }

  // ---------- How many calls a failing provider still receives ----------

  /** A stretch of history in which no call of p succeeds and at most m calls to p are in flight at
      any moment: early ones from before the stretch, and those admitted in it, less those that failed. */
  ghost predicate InOutage(w: seq<Event>, p: string, m: nat, early: nat) {
    && Succeeded(p) !in w
    && forall k | 0 <= k <= |w| ::
         Failures(w[..k], p) <= early + Admissions(w[..k], p) <= Failures(w[..k], p) + m
  }

  ghost predicate Within(h: seq<Event>, p: string, t0: real, t1: real) {
    forall e :: e in h && e.provider == p && !e.Succeeded? ==> t0 <= e.at <= t1
  }

  lemma OutagePrefix(w: seq<Event>, p: string, m: nat, early: nat, k: nat)
    requires InOutage(w, p, m, early) && k <= |w|
    ensures InOutage(w[..k], p, m, early)
  {
    forall j | 0 <= j <= k
      ensures Failures(w[..k][..j], p) <= early + Admissions(w[..k][..j], p) <= Failures(w[..k][..j], p) + m
    {
      assert w[..k][..j] == w[..j];
    }
  }

  lemma OutageWhole(w: seq<Event>, p: string, m: nat, early: nat)
    requires InOutage(w, p, m, early)
    ensures Failures(w, p) <= early + Admissions(w, p) <= Failures(w, p) + m
  {
    assert w[..|w|] == w;
  }

  /** A stretch without success adds its failures to those before it. */
  lemma {:induction false} FailuresAdd(h: seq<Event>, w: seq<Event>, p: string)
    requires Succeeded(p) !in w
    ensures Failures(h + w, p) == Failures(h, p) + Failures(w, p)
    ensures LastFailure(h + w, p) == if Failures(w, p) > 0 then LastFailure(w, p) else LastFailure(h, p)
  {
    if w == [] {
      assert h + w == h;
    } else {
      var before, e := w[..|w| - 1], w[|w| - 1];
      assert e in w && h + w == h + before + [e];
      FailuresAdd(h, before, p);
      Unfold(h + before, e);
    }
  }

  /** The position just after p's last failure; nothing since has changed the failure count. */
  lemma {:induction false} JustAfterLastFailure(h: seq<Event>, p: string) returns (k: nat)
    requires Failures(h, p) > 0 && Succeeded(p) !in h
    ensures 0 < k <= |h| && h[k - 1].provider == p && h[k - 1].Failed?
    ensures LastFailure(h, p) == Some(h[k - 1].at)
    ensures Failures(h[..k], p) == Failures(h, p)
  {
    var before, e := h[..|h| - 1], h[|h| - 1];
    if e.provider == p && e.Failed? {
      k := |h|;
      assert h[..k] == h;
    } else {
      assert e != Succeeded(p);
      k := JustAfterLastFailure(before, p);
      assert before[..k] == h[..k];
    }
  }

  function Ceiling(cfg: Config, m: nat, t0: real, t: real): int
    requires cfg.Valid()
  {
    cfg.threshold + m - 1 + m * ((t - t0) / cfg.reset).Floor
  }

  lemma CeilingGrows(cfg: Config, m: nat, t0: real, t: real, u: real)
    requires cfg.Valid() && t0 <= t <= u
    ensures cfg.threshold + m - 1 <= Ceiling(cfg, m, t0, t) <= Ceiling(cfg, m, t0, u)
    ensures u >= t + cfg.reset ==> Ceiling(cfg, m, t0, t) + m <= Ceiling(cfg, m, t0, u)
  {
    var a, b := (t - t0) / cfg.reset, (u - t0) / cfg.reset;
    DivisionGrows(0.0, t - t0, cfg.reset);
    DivisionGrows(t - t0, u - t0, cfg.reset);
    if u >= t + cfg.reset {
      DivisionGrows(t - t0 + cfg.reset, u - t0, cfg.reset);
      OneMore(t - t0, cfg.reset);
      assert b.Floor >= a.Floor + 1;
      Multiples(m, a.Floor + 1, b.Floor);
    }
    Multiples(m, 0, a.Floor);
    Multiples(m, a.Floor, b.Floor);
  }

  lemma DivisionGrows(x: real, y: real, r: real)
    requires x <= y && r > 0.0
    ensures x / r <= y / r
  {
    assert y / r - x / r == (y - x) / r;
  }

  lemma OneMore(x: real, r: real)
    requires r > 0.0
    ensures (x + r) / r == x / r + 1.0
  {
    assert (x + r) / r - x / r == r / r == 1.0;
  }

  lemma Multiples(m: nat, a: int, b: int)
    requires a <= b
    ensures m * a <= m * b
  {
  }

  /** A call let through while tripped comes a full timeout after the last failure of the stretch, and
      then at most m calls have been let through since that failure. */
  lemma ProbeAfterTrip(cfg: Config, h: seq<Event>, w: seq<Event>, p: string, m: nat, early: nat, at: real)
    returns (k: nat)
    requires cfg.Valid() && Legal(cfg, h + (w + [Admitted(p, at)])) && InOutage(w + [Admitted(p, at)], p, m, early)
    requires Tripped(cfg, h + w, p) && Failures(w, p) > 0
    ensures 0 < k <= |w| && w[k - 1].provider == p && w[k - 1].Failed?
    ensures w[k - 1].at + cfg.reset <= at
    ensures Admissions(w + [Admitted(p, at)], p) <= Admissions(w[..k], p) + m
  {
    var full := w + [Admitted(p, at)];
    assert h + full == h + w + [Admitted(p, at)];
    Unfold(h + w, Admitted(p, at));
    Unfold(w, Admitted(p, at));
    assert Succeeded(p) in w ==> Succeeded(p) in full;
    FailuresAdd(h, w, p);
    k := JustAfterLastFailure(w, p);
    OutageWhole(full, p, m, early);
    assert full[..k] == w[..k];
    assert Failures(full[..k], p) <= early + Admissions(full[..k], p);
  }

  lemma UpToLatest(cfg: Config, h: seq<Event>, w: seq<Event>, p: string, k: nat, t0: real, t1: real)
    requires Legal(cfg, h + w) && 0 < k <= |w| && w[k - 1].provider == p && w[k - 1].Failed?
    requires Within(w, p, t0, t1)
    ensures Legal(cfg, h + w[..k])
    ensures t0 <= w[k - 1].at <= t1 && Within(w[..k], p, t0, w[k - 1].at)
  {
    assert (h + w)[..|h| + k] == h + w[..k];
    LegalPrefix(cfg, h + w, |h| + k);
    LatestIsLatest(cfg, h + w[..k]);
    assert (h + w[..k])[|h| + k - 1] == w[k - 1] && w[k - 1] in w;
    forall e | e in w[..k] && e.provider == p && !e.Succeeded?
      ensures t0 <= e.at <= w[k - 1].at
    {
      assert e in w && e in h + w[..k];
    }
  }

  lemma {:induction false} CallsBelowCeiling(cfg: Config, h: seq<Event>, w: seq<Event>, p: string, m: nat,
                                             early: nat, t0: real, t1: real)
    requires cfg.Valid() && Legal(cfg, h + w) && InOutage(w, p, m, early)
    requires t0 <= t1 && Within(w, p, t0, t1)
    ensures Admissions(w, p) <= Ceiling(cfg, m, t0, t1)
    decreases |w|, 0
  {
    CeilingGrows(cfg, m, t0, t1, t1);
    if w != [] {
      var before, e := w[..|w| - 1], w[|w| - 1];
      assert w == before + [e] && h + w == h + before + [e];
      if e.provider != p || !e.Admitted? {
        OutagePrefix(w, p, m, early, |w| - 1);
        Unfold(h + before, e);
        CallsBelowCeiling(cfg, h, before, p, m, early, t0, t1);
      } else {
        LastCallBelowCeiling(cfg, h, before, e.at, p, m, early, t0, t1);
      }
    }
  }

  lemma {:induction false} LastCallBelowCeiling(cfg: Config, h: seq<Event>, w: seq<Event>, at: real, p: string, m: nat,
                                                early: nat, t0: real, t1: real)
    requires cfg.Valid() && Legal(cfg, h + (w + [Admitted(p, at)])) && InOutage(w + [Admitted(p, at)], p, m, early)
    requires t0 <= t1 && Within(w + [Admitted(p, at)], p, t0, t1)
    ensures Admissions(w + [Admitted(p, at)], p) <= Ceiling(cfg, m, t0, t1)
    decreases |w|, 1
  {
    var full := w + [Admitted(p, at)];
    Effect(w, Admitted(p, at));
    OutageWhole(full, p, m, early);
    CeilingGrows(cfg, m, t0, t1, t1);
    assert Succeeded(p) in w ==> Succeeded(p) in full;
    FailuresAdd(h, w, p);
    if Tripped(cfg, h + w, p) && Failures(w, p) > 0 {
      var k := ProbeAfterTrip(cfg, h, w, p, m, early, at);
      assert w[..k] == full[..k] && full[|w|] in full && full[k - 1] == w[k - 1];
      UpToLatest(cfg, h, full, p, k, t0, t1);
      OutagePrefix(full, p, m, early, k);
      CallsBelowCeiling(cfg, h, full[..k], p, m, early, t0, w[k - 1].at);
      CeilingGrows(cfg, m, t0, w[k - 1].at, t1);
    }
  }

  /** After any history, while no call of a provider succeeds and at most m are in flight, it receives
      at most N + m - 1 + m * floor((t1 - t0) / R) further calls in [t0, t1], in any interleaving. */
  lemma OutageCallBound(cfg: Config, h: seq<Event>, w: seq<Event>, p: string, m: nat, early: nat, t0: real, t1: real)
    requires cfg.Valid() && Legal(cfg, h + w) && InOutage(w, p, m, early)
    requires t0 <= t1 && Within(w, p, t0, t1)
    ensures Admissions(w, p) <= cfg.threshold + m - 1 + m * ((t1 - t0) / cfg.reset).Floor
  {
    CallsBelowCeiling(cfg, h, w, p, m, early, t0, t1);
  }

  // ---------- "One probe" ----------

  predicate Consults(e: Event, p: string) {
    e.provider == p && (e.Admitted? || e.Refused?)
  }

  predicate AtMostOne(cfg: Config, h: seq<Event>, p: string) {
    Tripped(cfg, h, p) ==> Probes(h, p) <= 1
  }

  /** After a trip, never more than one call is let through before the next verdict. */
  ghost predicate OneProbe(cfg: Config, h: seq<Event>, p: string) {
    forall k | 0 <= k <= |h| :: AtMostOne(cfg, h[..k], p)
  }

  predicate NotHalfOpen(cfg: Config, h: seq<Event>, e: Event, p: string) {
    Consults(e, p) ==> StateAfter(cfg, h, p) != HalfOpen
  }

  /** Nobody asks for p while its state is half-open. */
  ghost predicate NeverAskedHalfOpen(cfg: Config, h: seq<Event>, p: string) {
    forall k | 0 <= k < |h| :: NotHalfOpen(cfg, h[..k], h[k], p)
  }

  lemma OneProbeGrows(cfg: Config, h: seq<Event>, e: Event, p: string)
    ensures OneProbe(cfg, h + [e], p) <==> OneProbe(cfg, h, p) && AtMostOne(cfg, h + [e], p)
  {
    var g := h + [e];
    assert forall k | 0 <= k <= |h| :: g[..k] == h[..k];
    assert g[..|g|] == g;
    if OneProbe(cfg, g, p) {
      forall k | 0 <= k <= |h|
        ensures AtMostOne(cfg, h[..k], p)
      {
        assert AtMostOne(cfg, g[..k], p);
      }
    }
  }

  lemma AskingGrows(cfg: Config, h: seq<Event>, e: Event, p: string)
    ensures NeverAskedHalfOpen(cfg, h + [e], p) <==> NeverAskedHalfOpen(cfg, h, p) && NotHalfOpen(cfg, h, e, p)
  {
    var g := h + [e];
    assert forall k | 0 <= k < |h| :: g[..k] == h[..k] && g[k] == h[k];
    assert g[..|h|] == h && g[|h|] == e;
    if NeverAskedHalfOpen(cfg, g, p) {
      forall k | 0 <= k < |h|
        ensures NotHalfOpen(cfg, h[..k], h[k], p)
      {
        assert NotHalfOpen(cfg, g[..k], g[k], p);
      }
      assert NotHalfOpen(cfg, g[..|h|], g[|h|], p);
    }
  }

  /** A call let through after a trip follows another one exactly when it was asked for half-open. */
  lemma FurtherProbe(cfg: Config, h: seq<Event>, e: Event, p: string)
    requires cfg.Valid() && Legal(cfg, h + [e])
    ensures Tripped(cfg, h + [e], p) && Probes(h + [e], p) > 1 <==>
              (if Consults(e, p) then StateAfter(cfg, h, p) == HalfOpen
               else e.provider != p && Tripped(cfg, h, p) && Probes(h, p) > 1)
  {
    Unfold(h, e);
    if Consults(e, p) && StateAfter(cfg, h, p) == HalfOpen {
      HalfOpenOutlivesReset(cfg, h, p);
      assert NotBefore(h, e.at);
    }
  }

  /** In every legal history, successes and calls that never got a verdict included: at most one call
      goes through between a trip and the next verdict exactly when nobody asks while half-open. */
  lemma {:induction false} OneProbeExactly(cfg: Config, h: seq<Event>, p: string)
    requires cfg.Valid() && Legal(cfg, h)
    ensures OneProbe(cfg, h, p) <==> NeverAskedHalfOpen(cfg, h, p)
  {
    if h != [] {
      var before, e := h[..|h| - 1], h[|h| - 1];
      assert h == before + [e];
      OneProbeExactly(cfg, before, p);
      OneProbeGrows(cfg, before, e, p);
      AskingGrows(cfg, before, e, p);
      FurtherProbe(cfg, before, e, p);
      assert before[..|before|] == before;
    }
  }

  /** The j-th event let a call to p through, and p has had no verdict since. */
  predicate Unsettled(h: seq<Event>, j: int, p: string) {
    && 0 <= j < |h| && h[j].provider == p && h[j].Admitted?
    && forall k | j < k < |h| :: h[k].provider == p ==> h[k].Admitted? || h[k].Refused?
  }

  /** Half-open means: tripped, and some call let through still has no verdict. */
  lemma {:induction false} HalfOpenMeansUnsettled(cfg: Config, h: seq<Event>, p: string)
    ensures Probes(h, p) > 0 <==> exists j :: Unsettled(h, j, p)
    ensures StateAfter(cfg, h, p) == HalfOpen <==> Tripped(cfg, h, p) && exists j :: Unsettled(h, j, p)
  {
    if h != [] {
      var before, e := h[..|h| - 1], h[|h| - 1];
      HalfOpenMeansUnsettled(cfg, before, p);
      if e.provider == p && e.Admitted? {
        assert Unsettled(h, |h| - 1, p);
      } else if e.provider != p || e.Refused? {
        if j :| Unsettled(before, j, p) {
          assert Unsettled(h, j, p);
        }
        if j :| Unsettled(h, j, p) {
          assert Unsettled(before, j, p);
        }
      } else {
        assert forall j | 0 <= j < |h| - 1 :: !Unsettled(h, j, p);
      }
    }
  }

  // ---------- Worst cases ----------

  /** One more call to p goes out. */
  lemma GoesOut(cfg: Config, h: seq<Event>, p: string, m: nat, t: real)
    requires cfg.Valid() && Legal(cfg, h) && InOutage(h, p, m, 0) && NotBefore(h, t) && Admits(cfg, h, p, t)
    requires Admissions(h, p) < Failures(h, p) + m
    ensures var g := h + [Admitted(p, t)];
            && Legal(cfg, g) && InOutage(g, p, m, 0) && NotBefore(g, t)
            && Admissions(g, p) == Admissions(h, p) + 1 && Probes(g, p) == Probes(h, p) + 1
            && Failures(g, p) == Failures(h, p) && LastFailure(g, p) == LastFailure(h, p)
  {
    var e := Admitted(p, t);
    Effect(h, e);
    LegalAppend(cfg, h, e);
    assert h[..|h|] == h;
    OutageAppend(h, p, m, 0, e);
  }

  /** A call of p that is in flight fails. */
  lemma ComesBack(cfg: Config, h: seq<Event>, p: string, m: nat, t: real)
    requires cfg.Valid() && Legal(cfg, h) && InOutage(h, p, m, 0) && NotBefore(h, t)
    requires Failures(h, p) < Admissions(h, p)
    ensures var g := h + [Failed(p, t)];
            && Legal(cfg, g) && InOutage(g, p, m, 0) && NotBefore(g, t)
            && Admissions(g, p) == Admissions(h, p) && Probes(g, p) == 0
            && Failures(g, p) == Failures(h, p) + 1 && LastFailure(g, p) == Latest(g) == Some(t)
  {
    var e := Failed(p, t);
    Effect(h, e);
    LegalAppend(cfg, h, e);
    assert h[..|h|] == h;
    OutageAppend(h, p, m, 0, e);
  }

  /** n calls at time 0, one after the other, all failed. */
  lemma {:induction false} FailedCalls(cfg: Config, p: string, m: nat, n: nat) returns (h: seq<Event>)
    requires cfg.Valid() && m >= 1 && n <= cfg.threshold
    ensures Legal(cfg, h) && InOutage(h, p, m, 0) && NotBefore(h, 0.0) && Within(h, p, 0.0, 0.0)
    ensures Failures(h, p) == Admissions(h, p) == n
  {
    h := [];
    if n > 0 {
      var before := FailedCalls(cfg, p, m, n - 1);
      GoesOut(cfg, before, p, m, 0.0);
      ComesBack(cfg, before + [Admitted(p, 0.0)], p, m, 0.0);
      h := before + [Admitted(p, 0.0)] + [Failed(p, 0.0)];
    }
  }

  lemma OutageAppend(w: seq<Event>, p: string, m: nat, early: nat, e: Event)
    requires InOutage(w, p, m, early) && e != Succeeded(p)
    requires Failures(w + [e], p) <= early + Admissions(w + [e], p) <= Failures(w + [e], p) + m
    ensures InOutage(w + [e], p, m, early)
  {
    forall k | 0 <= k <= |w + [e]|
      ensures Failures((w + [e])[..k], p) <= early + Admissions((w + [e])[..k], p) <= Failures((w + [e])[..k], p) + m
    {
      if k <= |w| {
        assert (w + [e])[..k] == w[..k];
      } else {
        assert (w + [e])[..k] == w + [e];
      }
    }
  }

  // ---------- The call bound is attained ----------

  function Repeat(e: Event, n: nat): seq<Event> {
    if n == 0 then [] else Repeat(e, n - 1) + [e]
  }

  /** m calls let through together, all of which then fail. */
  function Volley(p: string, t: real, m: nat): seq<Event> {
    Repeat(Admitted(p, t), m) + Repeat(Failed(p, t), m)
  }

  /** A history ready for a volley at time t: no call in flight, the breaker about to admit. */
  ghost predicate Ready(cfg: Config, h: seq<Event>, p: string, m: nat, t: real) {
    && Legal(cfg, h) && InOutage(h, p, m, 0) && NotBefore(h, t)
    && Admissions(h, p) == Failures(h, p) && Admits(cfg, h, p, t)
  }

  lemma {:induction false} VolleyGoesOut(cfg: Config, h: seq<Event>, p: string, m: nat, t: real, n: nat)
    requires cfg.Valid() && Ready(cfg, h, p, m, t) && n <= m
    ensures var g := h + Repeat(Admitted(p, t), n);
            && Legal(cfg, g) && InOutage(g, p, m, 0) && NotBefore(g, t)
            && Admissions(g, p) == Admissions(h, p) + n
            && Failures(g, p) == Failures(h, p) && LastFailure(g, p) == LastFailure(h, p)
  {
    if n == 0 {
      assert h + Repeat(Admitted(p, t), 0) == h;
    } else {
      VolleyGoesOut(cfg, h, p, m, t, n - 1);
      var g := h + Repeat(Admitted(p, t), n - 1);
      GoesOut(cfg, g, p, m, t);
      assert h + Repeat(Admitted(p, t), n) == g + [Admitted(p, t)];
    }
  }

  lemma {:induction false} VolleyComesBack(cfg: Config, h: seq<Event>, p: string, m: nat, t: real, n: nat)
    requires cfg.Valid() && Legal(cfg, h) && InOutage(h, p, m, 0) && NotBefore(h, t)
    requires n <= m && Admissions(h, p) == Failures(h, p) + m
    ensures var g := h + Repeat(Failed(p, t), n);
            && Legal(cfg, g) && InOutage(g, p, m, 0) && NotBefore(g, t)
            && Admissions(g, p) == Admissions(h, p)
            && Failures(g, p) == Failures(h, p) + n
            && (n > 0 ==> LastFailure(g, p) == Latest(g) == Some(t))
  {
    if n == 0 {
      assert h + Repeat(Failed(p, t), 0) == h;
    } else {
      VolleyComesBack(cfg, h, p, m, t, n - 1);
      var g := h + Repeat(Failed(p, t), n - 1);
      ComesBack(cfg, g, p, m, t);
      assert h + Repeat(Failed(p, t), n) == g + [Failed(p, t)];
    }
  }

  /** k timeouts, added up one by one. */
  function Elapsed(cfg: Config, k: nat): real {
    if k == 0 then 0.0 else Elapsed(cfg, k - 1) + cfg.reset
  }

  lemma {:induction false} ElapsedIsMultiple(cfg: Config, k: nat)
    requires cfg.Valid()
    ensures Elapsed(cfg, k) == (k as real) * cfg.reset
    ensures ((k as real) * cfg.reset / cfg.reset).Floor == k
  {
    assert (k as real) * cfg.reset / cfg.reset == k as real;
    if k > 0 {
      ElapsedIsMultiple(cfg, k - 1);
      assert (k as real) == ((k - 1) as real) + 1.0;
    }
  }

  lemma VolleyTimes(h: seq<Event>, p: string, t: real, m: nat)
    requires 0.0 <= t && Within(h, p, 0.0, t)
    ensures Within(h + Volley(p, t, m), p, 0.0, t)
  {
    RepeatMembers(Admitted(p, t), m);
    RepeatMembers(Failed(p, t), m);
  }

  lemma VolleyEffect(cfg: Config, h: seq<Event>, p: string, m: nat, t: real)
    requires cfg.Valid() && m >= 1 && Ready(cfg, h, p, m, t)
    requires 0.0 <= t && Within(h, p, 0.0, t)
    ensures var g := h + Volley(p, t, m);
            && Legal(cfg, g) && InOutage(g, p, m, 0) && Within(g, p, 0.0, t)
            && Admissions(g, p) == Admissions(h, p) + m
            && Failures(g, p) == Failures(h, p) + m
            && LastFailure(g, p) == Latest(g) == Some(t)
  {
    VolleyGoesOut(cfg, h, p, m, t, m);
    VolleyComesBack(cfg, h + Repeat(Admitted(p, t), m), p, m, t, m);
    VolleyTimes(h, p, t, m);
    assert h + Volley(p, t, m) == h + Repeat(Admitted(p, t), m) + Repeat(Failed(p, t), m);
  }

  /** Between volleys: all calls have failed, the last of them at end. */
  ghost predicate Rests(cfg: Config, h: seq<Event>, p: string, m: nat, end: real, calls: nat) {
    && 0.0 <= end && Legal(cfg, h) && InOutage(h, p, m, 0) && Within(h, p, 0.0, end)
    && Admissions(h, p) == Failures(h, p) == calls
    && LastFailure(h, p) == Latest(h) == Some(end)
  }

  lemma NextVolley(cfg: Config, h: seq<Event>, p: string, m: nat, end: real, calls: nat)
    requires cfg.Valid() && m >= 1 && Rests(cfg, h, p, m, end, calls)
    ensures Rests(cfg, h + Volley(p, end + cfg.reset, m), p, m, end + cfg.reset, calls + m)
  {
    VolleyEffect(cfg, h, p, m, end + cfg.reset);
  }

  lemma FirstVolley(cfg: Config, p: string, m: nat) returns (h: seq<Event>)
    requires cfg.Valid() && m >= 1
    ensures Rests(cfg, h, p, m, 0.0, cfg.threshold - 1 + m)
  {
    var before := FailedCalls(cfg, p, m, cfg.threshold - 1);
    VolleyEffect(cfg, before, p, m, 0.0);
    h := before + Volley(p, 0.0, m);
  }

  /** One failure short of the threshold, then a full volley, then another volley every timeout. */
  lemma {:induction false} WorstOutage(cfg: Config, p: string, m: nat, k: nat) returns (h: seq<Event>)
    requires cfg.Valid() && m >= 1
    ensures Rests(cfg, h, p, m, Elapsed(cfg, k), cfg.threshold - 1 + Total(m, k + 1))
  {
    if k == 0 {
      h := FirstVolley(cfg, p, m);
    } else {
      var before := WorstOutage(cfg, p, m, k - 1);
      NextVolley(cfg, before, p, m, Elapsed(cfg, k - 1), cfg.threshold - 1 + Total(m, k));
      h := before + Volley(p, Elapsed(cfg, k - 1) + cfg.reset, m);
    }
  }

  function Total(m: nat, k: nat): nat {
    if k == 0 then 0 else Total(m, k - 1) + m
  }

  lemma {:induction false} TotalIsProduct(m: nat, k: nat)
    ensures Total(m, k) == m * k
  {
    if k > 0 {
      TotalIsProduct(m, k - 1);
    }
  }

  /** The bound cannot be lowered: for every number k of whole timeouts, the worst outage with m
      overlapping callers makes exactly N + m - 1 + m * k calls by time k * R. */
  lemma CallBoundIsAttained(cfg: Config, p: string, m: nat, k: nat) returns (h: seq<Event>)
    requires cfg.Valid() && m >= 1
    ensures var end := (k as real) * cfg.reset;
            && Legal(cfg, h) && InOutage(h, p, m, 0) && Within(h, p, 0.0, end)
            && Admissions(h, p) == cfg.threshold + m - 1 + m * k
            && (end / cfg.reset).Floor == k
  {
    h := WorstOutage(cfg, p, m, k);
    ElapsedIsMultiple(cfg, k);
    TotalIsProduct(m, k + 1);
  }

  lemma {:induction false} RepeatMembers(e: Event, n: nat)
    ensures forall x :: x in Repeat(e, n) ==> x == e
  {
    if n > 0 {
      RepeatMembers(e, n - 1);
    }
  }
}
