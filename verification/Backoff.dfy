/**
  The account_runtime rows: failure streaks, cooldowns by capped exponential backoff with full
  jitter, and quota resets. Instants and durations are nanoseconds, stored instants
  milliseconds.
 */
module Backoff {
  import opened Arithmetic
  import opened Wrappers

  /** Go's time.Duration, never negative here. */
  newtype Duration = x: int | 0 <= x <= 0x7fff_ffff_ffff_ffff

  const MILLISECOND: nat := 1_000_000
  const SECOND: nat := 1_000_000_000
  const MINUTE: nat := 60 * SECOND
  const HOUR: nat := 60 * MINUTE

  /** The cap of the jitter after `streak` failures in a row. */
  function CapOf(base: nat, maximum: nat, streak: nat): nat
    requires 1 <= streak
  {
    Min(base * Pow2(streak - 1), maximum)
  }

  /** More failures never shorten the cap. */
  lemma CapIsMonotone(base: nat, maximum: nat, s: nat, t: nat)
    requires 1 <= s <= t
    ensures CapOf(base, maximum, s) <= CapOf(base, maximum, t) <= maximum
  {
    PowGrows(s - 1, t - 1);
    Scale(base, Pow2(s - 1), Pow2(t - 1));
  }

  lemma Scale(k: nat, x: nat, y: nat)
    requires x <= y
    ensures k * x <= k * y
  {
  }

  lemma Doubling(base: nat, step: nat)
    ensures base * Pow2(step + 1) == 2 * (base * Pow2(step))
  {
  }

  /** The doubling loop: no value above the maximum, so no overflow, and the capped power of
      two in the end. */
  method BackoffCap(base: Duration, maximum: Duration, streak: nat) returns (cap: Duration)
    requires 0 < base <= maximum && 1 <= streak
    ensures cap as int == CapOf(base as nat, maximum as nat, streak)
  {
    cap := base;
    var step := 1;
    while step < streak && cap < maximum
      invariant 1 <= step <= streak && cap <= maximum
      invariant cap as int == base as int * Pow2(step - 1)
    {
      Doubling(base as nat, step - 1);
      CapIsMonotone(base as nat, maximum as nat, step + 1, streak);
      if cap > maximum / 2 {
        cap := maximum;
        return;
      }
      cap := cap * 2;
      step := step + 1;
    }
    if step < streak { CapIsMonotone(base as nat, maximum as nat, step, streak); }
  }

  /** Full jitter; without randomness half the cap. */
  function FullJitter(maximum: nat, random: Option<nat>): (j: nat)
    ensures maximum > 0 ==> j < maximum
    ensures maximum == 0 ==> j == 0
  {
    if maximum == 0 then 0
    else match random
         case None => maximum / 2
         case Some(r) => r % maximum
  }

  function Clamp(value: nat, minimum: nat, maximum: nat): nat {
    if value < minimum then minimum else if value > maximum then maximum else value
  }

  // ---------- the rows ----------

  datatype Runtime = Runtime(streak: nat, cooldownUntil: Option<nat>, quotaResetAt: Option<nat>)

  type Rows = map<nat, Runtime>

  const FRESH: Runtime := Runtime(0, None, None)

  function RowOf(rows: Rows, account: nat): Runtime {
    if account in rows then rows[account] else FRESH
  }

  datatype Failure = Failure(status: int, retryAfter: nat, network: bool)

  datatype Kind = Rejected | QuotaReset(after: nat) | Retry(base: Duration, maximum: Duration) | Ignored

  /** How RecordFailure classifies a failure. */
  function KindOf(f: Failure): Kind {
    if f.status == 401 then Rejected
    else if f.status == 429 && f.retryAfter > 0 then QuotaReset(Clamp(f.retryAfter, SECOND, 24 * HOUR))
    else if f.status == 429 then Retry(30_000_000_000, 900_000_000_000)
    else if f.network || f.status >= 500 then Retry(2_000_000_000, 120_000_000_000)
    else Ignored
  }

  datatype Event =
    | Succeeded(account: nat)
    | Activated(account: nat) // a validation or authorisation finished
    | Failed(account: nat, failure: Failure, now: nat, random: Option<nat>)

  function Millis(instant: nat): nat {
    instant / MILLISECOND
  }

  function CooldownAt(now: nat, cap: nat, random: Option<nat>): nat {
    Millis(now + FullJitter(cap, random))
  }

  function Next(rows: Rows, e: Event): Rows {
    match e
    case Succeeded(account) =>
      rows[account := Runtime(0, None, RowOf(rows, account).quotaResetAt)]
    case Activated(account) =>
      rows[account := FRESH]
    case Failed(account, failure, now, random) =>
      var row := RowOf(rows, account);
      var more := row.(streak := row.streak + 1);
      match KindOf(failure) {
        case Ignored => rows
        case Rejected => rows[account := more]
        case QuotaReset(after) => rows[account := more.(quotaResetAt := Some(Millis(now + after)))]
        case Retry(base, maximum) =>
          rows[account := more.(cooldownUntil :=
            Some(CooldownAt(now, CapOf(base as nat, maximum as nat, more.streak), random)))]
      }
  }

  /** One more failure and a cooldown: the jitter lies below the base doubled per earlier failure,
      at most the maximum; without randomness it is half of that. */
  predicate CoolsDown(row: Runtime, later: Runtime, now: nat, random: Option<nat>, base: nat, maximum: nat) {
    var doubled := base * Pow2(row.streak);
    var cap := if doubled <= maximum then doubled else maximum;
    && cap > 0
    && later.streak == row.streak + 1 && later.quotaResetAt == row.quotaResetAt
    && later.cooldownUntil
       == Some((now + match random case None => cap / 2 case Some(r) => r % cap) / 1_000_000)
  }

  /** The row of an account after an event, by status code. */
  predicate RuntimeFollows(row: Runtime, e: Event, later: Runtime) {
    match e
    case Succeeded(_) => later == Runtime(0, None, row.quotaResetAt)
    case Activated(_) => later == Runtime(0, None, None)
    case Failed(_, f, now, random) =>
      if f.status == 401 then later == Runtime(row.streak + 1, row.cooldownUntil, row.quotaResetAt)
      else if f.status == 429 && f.retryAfter > 0 then
        var delay := if f.retryAfter < 1_000_000_000 then 1_000_000_000
                     else if f.retryAfter > 86_400_000_000_000 then 86_400_000_000_000
                     else f.retryAfter;
        later == Runtime(row.streak + 1, row.cooldownUntil, Some((now + delay) / 1_000_000))
      else if f.status == 429 then CoolsDown(row, later, now, random, 30_000_000_000, 900_000_000_000)
      else if f.network || f.status >= 500 then CoolsDown(row, later, now, random, 2_000_000_000, 120_000_000_000)
      else later == row
  }

  /** Every event changes the row of its account as its status code says, and no other row. */
  lemma NextFollows(rows: Rows, e: Event)
    ensures RuntimeFollows(RowOf(rows, e.account), e, RowOf(Next(rows, e), e.account))
    ensures forall other: nat | other != e.account :: RowOf(Next(rows, e), other) == RowOf(rows, other)
  {
    if e.Failed? {
      var n := RowOf(rows, e.account).streak;
      Scale(30_000_000_000, 1, Pow2(n));
      Scale(2_000_000_000, 1, Pow2(n));
    }
  }

  function Run(rows: Rows, events: seq<Event>): Rows {
    if events == [] then rows else Next(Run(rows, events[..|events| - 1]), events[|events| - 1])
  }

  /** The failures of an account that were recorded since its last success or activation. */
  function FailuresSince(events: seq<Event>, account: nat): nat {
    if events == [] then 0
    else
      var before, e := FailuresSince(events[..|events| - 1], account), events[|events| - 1];
      if e.account != account then before
      else if e.Succeeded? || e.Activated? then 0
      else if KindOf(e.failure) == Ignored then before
      else before + 1
  }

  lemma {:induction false} StreakCountsFailures(events: seq<Event>, account: nat)
    ensures RowOf(Run(map[], events), account).streak == FailuresSince(events, account)
  {
    if events != [] { StreakCountsFailures(events[..|events| - 1], account); }
  }

  /** A failure that backs off sets a cooldown between now and the cap that belongs to the
      number of failures since the last success or activation, this one included. */
  lemma {:induction false} CooldownIsBounded(events: seq<Event>, e: Event)
    requires e.Failed? && KindOf(e.failure).Retry?
    ensures
      var kind := KindOf(e.failure);
      var n := FailuresSince(events, e.account) + 1;
      var cap := Min(kind.base as int * Pow2(n - 1), kind.maximum as int);
      var until := RowOf(Run(map[], events + [e]), e.account).cooldownUntil;
      until.Some? && Millis(e.now) <= until.value <= Millis(e.now + cap - 1)
  {
    StreakCountsFailures(events, e.account);
    assert (events + [e])[..|events|] == events;
    var kind := KindOf(e.failure);
    var n := FailuresSince(events, e.account) + 1;
    PowGrows(0, n - 1);
    Scale(kind.base as nat, 1, Pow2(n - 1));
    var j := FullJitter(CapOf(kind.base as nat, kind.maximum as nat, n), e.random);
    MillisGrow(e.now, e.now + j);
    MillisGrow(e.now + j, e.now + CapOf(kind.base as nat, kind.maximum as nat, n) - 1);
  }

  /** The same by status code: a rate limit without a time to wait cools down for at most 15
      minutes, a network or server error for at most two. */
  lemma {:induction false} CooldownByStatus(events: seq<Event>, e: Event)
    requires e.Failed? && e.failure.status != 401
    requires (e.failure.status == 429 && e.failure.retryAfter == 0) || e.failure.network || e.failure.status >= 500
    requires e.failure.status == 429 ==> e.failure.retryAfter == 0
    ensures
      var n := FailuresSince(events, e.account) + 1;
      var cap := if e.failure.status == 429 then Min(30_000_000_000 * Pow2(n - 1), 900_000_000_000)
                 else Min(2_000_000_000 * Pow2(n - 1), 120_000_000_000);
      var until := RowOf(Run(map[], events + [e]), e.account).cooldownUntil;
      until.Some? && Millis(e.now) <= until.value <= Millis(e.now + cap - 1)
  {
    hide Run, FailuresSince;
    CooldownIsBounded(events, e);
  }

  lemma MillisGrow(x: nat, y: nat)
    requires x <= y
    ensures Millis(x) <= Millis(y)
  {
  }

  // ---------- the table ----------

  class RuntimeTable {
    var rows: Rows

    constructor ()
      ensures rows == map[]
    {
      rows := map[];
    }

    method RecordSuccess(account: nat)
      modifies this
      ensures rows == Next(old(rows), Succeeded(account))
    {
      if account in rows {
        rows := rows[account := rows[account].(streak := 0, cooldownUntil := None)];
      } else {
        rows := rows[account := Runtime(0, None, None)];
      }
    }

    method RecordActivation(account: nat)
      modifies this
      ensures rows == Next(old(rows), Activated(account))
    {
      rows := rows[account := Runtime(0, None, None)];
    }

    /** One more failure; absent values keep what is stored. */
    method RecordRuntimeError(account: nat, cooldown: Option<nat>, quota: Option<nat>)
      modifies this
      ensures
        var row := RowOf(old(rows), account);
        rows == old(rows)[account := Runtime(row.streak + 1,
                                             if cooldown.Some? then cooldown else row.cooldownUntil,
                                             if quota.Some? then quota else row.quotaResetAt)]
    {
      if account !in rows {
        rows := rows[account := Runtime(1, cooldown, quota)];
      } else {
        var row := rows[account];
        rows := rows[account := Runtime(row.streak + 1,
                                        if cooldown.Some? then cooldown else row.cooldownUntil,
                                        if quota.Some? then quota else row.quotaResetAt)];
      }
    }

    method RecordBackoff(account: nat, base: Duration, maximum: Duration, now: nat, random: Option<nat>)
      requires 0 < base <= maximum
      modifies this
      ensures
        var row := RowOf(old(rows), account);
        var until := CooldownAt(now, CapOf(base as nat, maximum as nat, row.streak + 1), random);
        rows == old(rows)[account := Runtime(row.streak + 1, Some(until), row.quotaResetAt)]
    {
      RecordRuntimeError(account, None, None);
      var streak := rows[account].streak;
      var cap := BackoffCap(base, maximum, streak);
      var until := Millis(now + FullJitter(cap as nat, random));
      rows := rows[account := rows[account].(cooldownUntil := Some(until))];
    }

    method RecordFailure(account: nat, failure: Failure, now: nat, random: Option<nat>)
      modifies this
      ensures rows == Next(old(rows), Failed(account, failure, now, random))
      ensures RuntimeFollows(RowOf(old(rows), account), Failed(account, failure, now, random), RowOf(rows, account))
    {
      hide RuntimeFollows;
      NextFollows(rows, Failed(account, failure, now, random));
      if failure.status == 401 {
        RecordRuntimeError(account, None, None);
      } else if failure.status == 429 && failure.retryAfter > 0 {
        var delay := Clamp(failure.retryAfter, SECOND, 24 * HOUR);
        RecordRuntimeError(account, None, Some(Millis(now + delay)));
      } else if failure.status == 429 {
        RecordBackoff(account, 30_000_000_000, 900_000_000_000, now, random);
      } else if failure.network || failure.status >= 500 {
        RecordBackoff(account, 2_000_000_000, 120_000_000_000, now, random);
      }
    }
  }
}
