/**
  Runs of Plan and Release by any number of callers, in any order: slots are conserved, limits
  are kept, and ties are broken fairly.
 */
module RoutingRuns {
  import opened Wrappers
  import opened Routing
  import opened Scheduler

  datatype Slot = Slot(account: nat, released: bool)

  /** The scheduler's tables and every lease it ever granted. */
  datatype Book = Book(loads: Loads, cursors: map<nat, nat>, leases: map<nat, Slot>, next: nat)

  const START: Book := Book(map[], map[], map[], 0)

  datatype Event =
    | Plan(rows: seq<Loaded>, request: Request, now: nat)
    | Release(lease: nat)

  function CursorOf(b: Book, route: nat): nat {
    if route in b.cursors then b.cursors[route] else 0
  }

  /** The candidate that a plan would get now. */
  ghost function Planned(b: Book, e: Event): Option<Candidate>
    requires e.Plan?
  {
    Choice(b.loads, CursorOf(b, RouteOf(e.rows)), e.rows, e.request, e.now)
  }

  ghost function Granting(b: Book, route: nat, c: Candidate): Book {
    Book(Incremented(b.loads, c.account),
         b.cursors[route := (CursorOf(b, route) + 1) % CURSOR_RANGE],
         b.leases[b.next := Slot(c.account, false)],
         b.next + 1)
  }

  ghost function Step(b: Book, e: Event): Book {
    match e
    case Plan(rows, request, now) =>
      var choice := Planned(b, e);
      if choice.None? then b else Granting(b, RouteOf(rows), choice.value)
    case Release(lease) =>
      if lease in b.leases && !b.leases[lease].released
      then b.(loads := Decremented(b.loads, b.leases[lease].account),
              leases := b.leases[lease := b.leases[lease].(released := true)])
      else b
  }

  ghost function Run(b: Book, events: seq<Event>): Book
    decreases |events|
  {
    if events == [] then b else Run(Step(b, events[0]), events[1..])
  }

  // ---------- what is chosen ----------

  lemma {:induction false} EligibleIn(rows: seq<Loaded>, request: Request, now: int, c: Candidate)
    ensures c in EligibleOf(rows, request, now) <==> exists l <- rows :: Eligible(l, request, now) && l.candidate == c
  {
    if rows != [] {
      var init, last := rows[..|rows| - 1], rows[|rows| - 1];
      EligibleIn(init, request, now, c);
      hide Eligible;
      assert rows == init + [last];
      if Eligible(last, request, now) && last.candidate == c { assert last in rows; }
      if l :| l in init && Eligible(l, request, now) && l.candidate == c { assert l in rows; }
    }
  }

  /** The load of a candidate: its calls in flight as a fraction of its limit. */
  function LoadOf(loads: Loads, c: Candidate): real
    requires c.maxConcurrency > 0
  {
    InFlight(loads, c.account) as real / c.maxConcurrency as real
  }

  /** The cross-multiplication compares the fractions. */
  lemma LighterIffFraction(loads: Loads, c: Candidate, d: Candidate)
    requires c.maxConcurrency > 0 && d.maxConcurrency > 0
    ensures Lighter(loads, c, d) <==> LoadOf(loads, c) < LoadOf(loads, d)
  {
    FractionIff(InFlight(loads, c.account) as real, c.maxConcurrency as real,
                InFlight(loads, d.account) as real, d.maxConcurrency as real);
  }

  lemma FractionIff(p: real, q: real, r: real, s: real)
    requires q > 0.0 && s > 0.0
    ensures p * s < r * q <==> p / q < r / s
  {
    var x, y := p / q, r / s;
    assert p == x * q && r == y * s;
    assert p * s == x * (q * s) && r * q == y * (q * s);
    assert q * s > 0.0;
    if x < y { assert (y - x) * (q * s) > 0.0; } else { assert (x - y) * (q * s) >= 0.0; }
  }

  /** The candidate is usable and has a slot, no usable one with a slot has a better priority, and
      none of the same priority a lower load. */
  ghost predicate IsLeast(loads: Loads, rows: seq<Loaded>, request: Request, now: int, c: Candidate) {
    && (exists l <- rows :: Usable(l, request, now) && l.candidate == c)
    && 0 <= InFlight(loads, c.account) < c.maxConcurrency
    && forall l <- rows ::
         Usable(l, request, now) && 0 <= InFlight(loads, l.candidate.account) < l.candidate.maxConcurrency ==>
           && c.priority <= l.candidate.priority
           && (c.priority == l.candidate.priority ==> LoadOf(loads, c) <= LoadOf(loads, l.candidate))
  }

  /** A grant goes to a usable candidate with a slot, of the best priority among those and of the
      least load in that tier; a plan is refused exactly when nobody usable has a slot. */
  lemma GrantIsLeast(b: Book, e: Event)
    requires e.Plan? && Nonnegative(b.loads)
    ensures Planned(b, e).Some? ==> IsLeast(b.loads, e.rows, e.request, e.now, Planned(b, e).value)
    ensures Planned(b, e).None? <==>
      forall l <- e.rows :: Usable(l, e.request, e.now) ==>
        l.candidate.maxConcurrency <= InFlight(b.loads, l.candidate.account)
  {
    ChoiceIsBest(b, e);
    hide Usable;
    if Planned(b, e).Some? {
      var c, eligible := Planned(b, e).value, EligibleOf(e.rows, e.request, e.now);
      assert 0 <= InFlight(b.loads, c.account);
      forall l <- e.rows
        | Usable(l, e.request, e.now) && 0 <= InFlight(b.loads, l.candidate.account) < l.candidate.maxConcurrency
        ensures c.priority <= l.candidate.priority
        ensures c.priority == l.candidate.priority ==> LoadOf(b.loads, c) <= LoadOf(b.loads, l.candidate)
      {
        UsableIsEligible(e.rows, e.request, e.now, l);
        assert Free(b.loads, l.candidate);
        LighterIffFraction(b.loads, l.candidate, c);
      }
    }
  }

  lemma {:induction false} UsableIsEligible(rows: seq<Loaded>, request: Request, now: int, l: Loaded)
    requires l in rows && Usable(l, request, now)
    ensures l.candidate in EligibleOf(rows, request, now)
  {
    EligibleIn(rows, request, now, l.candidate);
    ReasonIff(l, request, now, UpstreamUnavailable);
    hide Usable, FilterReason;
  }

  lemma ChoiceIsBest(b: Book, e: Event)
    requires e.Plan? && Nonnegative(b.loads)
    ensures Planned(b, e).Some? ==>
      && Best(b.loads, EligibleOf(e.rows, e.request, e.now), Planned(b, e).value)
      && exists l <- e.rows :: Usable(l, e.request, e.now) && l.candidate == Planned(b, e).value
    ensures Planned(b, e).None? <==>
      forall l <- e.rows :: Usable(l, e.request, e.now) ==> !Free(b.loads, l.candidate)
  {
    forall l <- e.rows ensures Eligible(l, e.request, e.now) <==> Usable(l, e.request, e.now) {
      ReasonIff(l, e.request, e.now, UpstreamUnavailable);
    }
    var eligible := EligibleOf(e.rows, e.request, e.now);
    forall c: Candidate
      ensures c in eligible <==> exists l <- e.rows :: Eligible(l, e.request, e.now) && l.candidate == c
    {
      EligibleIn(e.rows, e.request, e.now, c);
    }
    if Planned(b, e).Some? {
      SelectIn(eligible, IsBest(b.loads, eligible), Planned(b, e).value);
      assert Free(b.loads, Planned(b, e).value);
    }
    NoneFreeIff(b.loads, eligible);
    hide Eligible, Usable, Best, Free;
    if Planned(b, e).None? {
      forall l <- e.rows ensures Usable(l, e.request, e.now) ==> !Free(b.loads, l.candidate) {
        if Usable(l, e.request, e.now) { assert l.candidate in eligible; }
      }
    }
  }

  lemma NoneFreeIff(loads: Loads, eligible: seq<Candidate>)
    requires Nonnegative(loads)
    ensures Available(loads, eligible) == [] <==> forall c <- eligible :: !Free(loads, c)
    ensures Available(loads, eligible) == [] <==> WithCapacity(loads, eligible) == []
  {
    var free := WithCapacity(loads, eligible);
    forall c <- eligible ensures c in free <==> Free(loads, c) { FreeIn(loads, eligible, c); }
    if free == [] {
      forall c <- eligible ensures !IsBest(loads, eligible)(c) { assert c !in free; }
      SelectNone(eligible, IsBest(loads, eligible));
    } else {
      assert free[0] in free;
      FreeIn(loads, eligible, free[0]);
      var priority := LeastOf(free);
      StagesFindTheBest(loads, eligible, priority);
    }
  }

  lemma {:induction false} LeastOf(list: seq<Candidate>) returns (least: int)
    requires list != []
    ensures IsMinPriority(list, least)
  {
    var init, last := list[..|list| - 1], list[|list| - 1];
    assert list == init + [last];
    assert last in list;
    least := last.priority;
    if init != [] {
      var other := LeastOf(init);
      if other < least {
        least := other;
        var c :| c in init && c.priority == other;
        assert c in list;
      }
    }
  }

  /** What the scheduler object decides is the step of the run: only what InFlight tells apart
      matters, so entries created with count 0 make no difference. */
  lemma DecisionIsStep(b: Book, states: Loads, e: Event, outcome: Outcome, x: Explanation)
    requires e.Plan? && SameLoads(states, b.loads) && Nonnegative(states)
    requires Decides(states, CursorOf(b, RouteOf(e.rows)), e.rows, e.request, e.now, outcome, x)
    ensures Planned(b, e) == if outcome.Granted? then Some(outcome.candidate) else None
    ensures |e.rows| - |x.filtered| == 0 <==> Planned(b, e).None?
  {
    var eligible := EligibleOf(e.rows, e.request, e.now);
    hide EligibleOf, Available, WithCapacity, TierOf, SmallestReset;
    SameAvailable(states, b.loads, eligible);
    NoneFreeIff(states, eligible);
    if outcome.Granted? { TierNotEmpty(states, eligible, outcome.candidate.priority); }
  }

  lemma TierNotEmpty(loads: Loads, eligible: seq<Candidate>, priority: int)
    requires IsMinPriority(WithCapacity(loads, eligible), priority)
    ensures TierOf(loads, eligible, priority) != []
  {
    var c :| c in WithCapacity(loads, eligible) && c.priority == priority;
    FreeIn(loads, eligible, c);
    TierIn(loads, eligible, priority, c);
  }

  // ---------- slots ----------

  /** The leases of an account that were granted and not yet released. */
  function Outstanding(b: Book, account: nat): set<nat> {
    set l | l in b.leases && b.leases[l].account == account && !b.leases[l].released
  }

  ghost predicate Balanced(b: Book, account: nat) {
    InFlight(b.loads, account) == |Outstanding(b, account)|
  }

  ghost predicate BookOk(b: Book) {
    && Nonnegative(b.loads)
    && (forall l <- b.leases :: l < b.next)
    && forall account: nat :: Balanced(b, account)
  }

  lemma GrantKeepsBook(b: Book, route: nat, c: Candidate)
    requires BookOk(b)
    ensures BookOk(Granting(b, route, c))
  {
    var b' := Granting(b, route, c);
    forall account: nat ensures Balanced(b', account) {
      assert Balanced(b, account);
      if account == c.account {
        assert Outstanding(b', account) == Outstanding(b, account) + {b.next};
      } else {
        assert Outstanding(b', account) == Outstanding(b, account);
      }
    }
  }

  lemma ReleaseKeepsBook(b: Book, lease: nat)
    requires BookOk(b)
    ensures BookOk(Step(b, Release(lease)))
    ensures lease in b.leases && !b.leases[lease].released ==> InFlight(b.loads, b.leases[lease].account) > 0
  {
    var b' := Step(b, Release(lease));
    if lease in b.leases && !b.leases[lease].released {
      var owner := b.leases[lease].account;
      assert Balanced(b, owner) && lease in Outstanding(b, owner);
      forall account: nat ensures Balanced(b', account) {
        assert Balanced(b, account);
        if account == owner {
          assert Outstanding(b', account) == Outstanding(b, account) - {lease};
        } else {
          assert Outstanding(b', account) == Outstanding(b, account);
        }
      }
    }
  }

  lemma StepKeepsBook(b: Book, e: Event)
    requires BookOk(b)
    ensures BookOk(Step(b, e))
  {
    hide BookOk, Granting;
    match e
    case Plan(rows, request, now) =>
      if Planned(b, e).Some? { GrantKeepsBook(b, RouteOf(rows), Planned(b, e).value); }
    case Release(lease) => ReleaseKeepsBook(b, lease);
  }

  lemma {:induction false} RunKeepsBook(b: Book, events: seq<Event>)
    requires BookOk(b)
    ensures BookOk(Run(b, events))
    decreases |events|
  {
    hide BookOk, Step;
    if events != [] {
      StepKeepsBook(b, events[0]);
      RunKeepsBook(Step(b, events[0]), events[1..]);
    }
  }

  lemma StartOk()
    ensures BookOk(START)
  {
    forall account: nat ensures Balanced(START, account) {
      assert Outstanding(START, account) == {};
    }
  }

  /** After any run the calls in flight of an account are its leases that were granted and not
      released; a first release finds a positive count and lowers it by one, and a repeated
      release changes nothing. */
  lemma {:induction false} SlotsAreConserved(events: seq<Event>, account: nat, lease: nat)
    ensures
      var b := Run(START, events);
      && InFlight(b.loads, account) == |Outstanding(b, account)|
      && (lease in b.leases && !b.leases[lease].released && b.leases[lease].account == account ==>
            && InFlight(b.loads, account) > 0
            && InFlight(Step(b, Release(lease)).loads, account) == InFlight(b.loads, account) - 1
            && Step(Step(b, Release(lease)), Release(lease)) == Step(b, Release(lease)))
  {
    StartOk();
    RunKeepsBook(START, events);
    var b := Run(START, events);
    assert Balanced(b, account);
    ReleaseKeepsBook(b, lease);
  }

  // ---------- limits ----------

  /** Every row that mentions an account has the same limit for it. */
  predicate ConstantLimits(events: seq<Event>, limits: map<nat, int>) {
    forall e <- events :: e.Plan? ==>
      forall l <- e.rows :: l.candidate.account in limits && l.candidate.maxConcurrency == limits[l.candidate.account]
  }

  ghost predicate WithinLimits(b: Book, limits: map<nat, int>) {
    forall account: nat :: InFlight(b.loads, account) > 0 ==>
      account in limits && InFlight(b.loads, account) <= limits[account]
  }

  lemma StepWithinLimits(b: Book, e: Event, limits: map<nat, int>)
    requires BookOk(b) && WithinLimits(b, limits) && ConstantLimits([e], limits)
    ensures WithinLimits(Step(b, e), limits)
  {
    var b' := Step(b, e);
    assert e in [e];
    if e.Plan? && Planned(b, e).Some? {
      ChoiceIsBest(b, e);
      var c := Planned(b, e).value;
      assert c.account in limits && InFlight(b.loads, c.account) < limits[c.account];
    }
    hide BookOk, Planned;
    forall account: nat | InFlight(b'.loads, account) > 0
      ensures account in limits && InFlight(b'.loads, account) <= limits[account]
    {
      assert InFlight(b.loads, account) > 0 ==> account in limits && InFlight(b.loads, account) <= limits[account];
    }
  }

  lemma {:induction false} RunWithinLimits(b: Book, events: seq<Event>, limits: map<nat, int>)
    requires BookOk(b) && WithinLimits(b, limits) && ConstantLimits(events, limits)
    ensures WithinLimits(Run(b, events), limits)
    decreases |events|
  {
    if events != [] {
      assert events[0] in events;
      forall e <- events[1..] ensures e in events {}
      StepKeepsBook(b, events[0]);
      StepWithinLimits(b, events[0], limits);
      hide BookOk, WithinLimits, Step;
      RunWithinLimits(Step(b, events[0]), events[1..], limits);
    }
  }

  /** While limits are constant, no account ever has more calls in flight than its limit. */
  lemma {:induction false} NeverAboveTheLimit(events: seq<Event>, limits: map<nat, int>, account: nat)
    requires ConstantLimits(events, limits) && account in limits && 0 <= limits[account]
    ensures InFlight(Run(START, events).loads, account) <= limits[account]
  {
    StartOk();
    RunWithinLimits(START, events, limits);
  }
}
