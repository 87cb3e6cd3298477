/**
  Fairness of the round-robin cursor: while the same n candidates stay tied on a route, k * n
  grants give each of them exactly k, whatever else happens in between.
 */
module RoundRobin {
  import opened Wrappers
  import opened Routing
  import opened Scheduler
  import opened RoutingRuns

  // ---------- rotations ----------

  lemma ModUnique(a: int, n: int, q: int, r: int)
    requires 0 < n && a == n * q + r && 0 <= r < n
    ensures a % n == r
  {
    var q', r' := a / n, a % n;
    assert n * (q - q') == r' - r;
    if q > q' { Product(n, q - q'); }
    if q < q' { Product(n, q' - q); }
  }

  lemma Product(n: int, d: int)
    requires 0 < n && 1 <= d
    ensures n <= n * d
  {
  }

  lemma ModShift(c: nat, i: nat, n: nat)
    requires 0 < n && i < n
    ensures (c + i) % n == if c % n + i < n then c % n + i else c % n + i - n
  {
    var q, r := c / n, c % n;
    assert c == n * q + r;
    if r + i < n { ModUnique(c + i, n, q, r + i); }
    else {
      assert n * (q + 1) == n * q + n;
      ModUnique(c + i, n, q + 1, r + i - n);
    }
  }

  /** `taken` reads `list` in turn, starting at the cursor. */
  ghost predicate InTurn<T>(list: seq<T>, cursor: nat, taken: seq<T>) {
    && (taken != [] ==> list != [])
    && forall i | 0 <= i < |taken| :: taken[i] == list[(cursor + i) % |list|]
  }

  lemma NoTurns<T>(list: seq<T>, cursor: nat)
    ensures InTurn(list, cursor, [])
  {
  }

  lemma TurnFirst<T>(list: seq<T>, cursor: nat, taken: seq<T>)
    requires list != [] && InTurn(list, cursor + 1, taken)
    ensures InTurn(list, cursor, [list[cursor % |list|]] + taken)
  {
    forall i | 0 <= i < |taken| ensures taken[i] == list[(cursor + (i + 1)) % |list|] {
      assert cursor + 1 + i == cursor + (i + 1);
    }
  }

  lemma OneRound<T>(list: seq<T>, cursor: nat, taken: seq<T>)
    requires list != [] && |taken| == |list| && InTurn(list, cursor, taken)
    ensures multiset(taken) == multiset(list)
  {
    var r := cursor % |list|;
    var rotated := list[r..] + list[..r];
    forall i | 0 <= i < |list| ensures taken[i] == rotated[i] { ModShift(cursor, i, |list|); }
    assert taken == rotated;
    assert list == list[..r] + list[r..];
  }

  /** What follows the first round is in turn too, one round later. */
  lemma AfterOneRound<T>(list: seq<T>, cursor: nat, taken: seq<T>)
    requires list != [] && InTurn(list, cursor, taken) && |list| <= |taken|
    ensures InTurn(list, cursor, taken[..|list|]) && InTurn(list, cursor + |list|, taken[|list|..])
  {
    var n, rest := |list|, taken[|list|..];
    forall i | 0 <= i < |rest| ensures rest[i] == list[(cursor + n + i) % n] {
      assert rest[i] == taken[n + i] && cursor + (n + i) == cursor + n + i;
    }
  }

  lemma OneLess(k: nat, n: nat)
    requires 0 < k
    ensures k * n == (k - 1) * n + n && n <= k * n && 0 <= (k - 1) * n
  {
  }

  lemma CountSplits<T>(taken: seq<T>, n: nat, x: T)
    requires n <= |taken|
    ensures multiset(taken)[x] == multiset(taken[..n])[x] + multiset(taken[n..])[x]
  {
    assert taken == taken[..n] + taken[n..];
  }

  lemma {:induction false} Rounds<T>(list: seq<T>, cursor: nat, taken: seq<T>, k: nat, x: T)
    requires list != [] && InTurn(list, cursor, taken) && |taken| == k * |list|
    ensures multiset(taken)[x] == k * multiset(list)[x]
    decreases k
  {
    if k == 0 {
      assert taken == [];
    } else {
      var n := |list|;
      OneLess(k, n);
      AfterOneRound(list, cursor, taken);
      hide InTurn;
      OneRound(list, cursor, taken[..n]);
      Rounds(list, cursor + n, taken[n..], k - 1, x);
      CountSplits(taken, n, x);
      OneLess(k, multiset(list)[x]);
    }
  }

  // ---------- grants on a route ----------

  ghost predicate GrantsOn(b: Book, e: Event, route: nat) {
    e.Plan? && RouteOf(e.rows) == route && Planned(b, e).Some?
  }

  /** The candidates granted on a route, in order. */
  ghost function Grants(b: Book, events: seq<Event>, route: nat): seq<Candidate>
    decreases |events|
  {
    if events == [] then []
    else
      var rest := Grants(Step(b, events[0]), events[1..], route);
      if GrantsOn(b, events[0], route) then [Planned(b, events[0]).value] + rest else rest
  }

  /** At every grant on the route, the tied candidates are those of `list`. */
  ghost predicate Tied(b: Book, events: seq<Event>, route: nat, list: seq<Candidate>)
    decreases |events|
  {
    events != [] ==>
      var e := events[0];
      && (GrantsOn(b, e, route) ==> Available(b.loads, EligibleOf(e.rows, e.request, e.now)) == list)
      && Tied(Step(b, e), events[1..], route, list)
  }

  /** Only a grant on the route moves its cursor. */
  lemma OnlyGrantsMoveTheCursor(b: Book, e: Event, route: nat)
    ensures CursorOf(Step(b, e), route) ==
            if GrantsOn(b, e, route) then (CursorOf(b, route) + 1) % CURSOR_RANGE else CursorOf(b, route)
  {
  }

  lemma TakesItsTurn(b: Book, e: Event, route: nat, list: seq<Candidate>)
    requires GrantsOn(b, e, route) && Available(b.loads, EligibleOf(e.rows, e.request, e.now)) == list
    ensures list != [] && Planned(b, e).value == list[CursorOf(b, route) % |list|]
  {
  }

  lemma {:induction false} GrantsInTurn(b: Book, events: seq<Event>, route: nat, list: seq<Candidate>)
    requires Tied(b, events, route, list)
    requires CursorOf(b, route) + |Grants(b, events, route)| <= CURSOR_RANGE
    ensures InTurn(list, CursorOf(b, route), Grants(b, events, route))
    decreases |events|
  {
    hide Step, Available, InTurn, GrantsOn, CursorOf;
    NoTurns(list, CursorOf(b, route));
    if events != [] {
      var e, next := events[0], Step(b, events[0]);
      OnlyGrantsMoveTheCursor(b, e, route);
      var rest := Grants(next, events[1..], route);
      if GrantsOn(b, e, route) {
        var c := CursorOf(b, route);
        if c + 1 < CURSOR_RANGE {
          GrantsInTurn(next, events[1..], route, list);
        } else {
          assert rest == [];
          NoTurns(list, c + 1);
        }
        TakesItsTurn(b, e, route, list);
        TurnFirst(list, c, rest);
      } else {
        GrantsInTurn(next, events[1..], route, list);
      }
    }
  }

  /** While the same n candidates are tied on a route and the 64-bit cursor does not wrap, k * n
      grants on the route give each candidate its k. Plans that are refused, other routes and
      releases do not count. */
  lemma {:induction false} EveryoneGetsTheirTurn(b: Book, events: seq<Event>, route: nat, list: seq<Candidate>,
                        k: nat, c: Candidate)
    requires Tied(b, events, route, list) && list != []
    requires |Grants(b, events, route)| == k * |list|
    requires CursorOf(b, route) + k * |list| <= CURSOR_RANGE
    ensures multiset(Grants(b, events, route))[c] == k * multiset(list)[c]
  {
    GrantsInTurn(b, events, route, list);
    Rounds(list, CursorOf(b, route), Grants(b, events, route), k, c);
  }

  /** From the start of the scheduler the grants on a route go round its tied candidates in route
      order, beginning with the first. */
  lemma {:induction false} GrantsGoRound(events: seq<Event>, route: nat, list: seq<Candidate>, i: nat)
    requires Tied(START, events, route, list)
    requires i < |Grants(START, events, route)| <= CURSOR_RANGE
    ensures list != [] && Grants(START, events, route)[i] == list[i % |list|]
  {
    GrantsInTurn(START, events, route, list);
  }

  /** A refused plan changes nothing at all, the cursor included. */
  lemma RefusedPlanChangesNothing(b: Book, e: Event)
    requires e.Plan? && Nonnegative(b.loads)
    ensures (forall l <- e.rows :: Eligible(l, e.request, e.now) ==> !Free(b.loads, l.candidate)) <==> Step(b, e) == b
  {
    ChoiceIsBest(b, e);
    hide Eligible, Free;
    if Planned(b, e).Some? {
      assert Step(b, e).next == b.next + 1;
    }
  }
}
