/**
  The scheduler object: Plan with its compactions of one shared buffer, and leases.
 */
module Scheduler {
  import opened Wrappers
  import opened Routing

  const CURSOR_RANGE: nat := 0x1_0000_0000_0000_0000

  datatype Code = ModelNotConfigured | By(reason: Reason)

  datatype Outcome = Granted(candidate: Candidate) | Refused(code: Code, retryAfter: int) | RowUnreadable

  datatype Explanation = Explanation(
    candidateCount: nat,
    filtered: multiset<Reason>, // how often each reason was counted
    selectedPriority: int,
    loadNumerator: int,
    loadDenominator: int)

  // ---------- refusals ----------

  /** The reason reported when every candidate is filtered, most urgent first. */
  function RefusalReason(filtered: multiset<Reason>): Reason {
    if NeedsReauth in filtered then NeedsReauth
    else if CapabilityNotSupported in filtered then CapabilityNotSupported
    else if QuotaLimited in filtered then QuotaLimited
    else if AllSaturated in filtered then AllSaturated
    else if AccountCooldown in filtered then AccountCooldown
    else if AccountDisabled in filtered then AccountDisabled
    else UpstreamUnavailable
  }

  /** Most urgent first. */
  const URGENCY: seq<Reason> :=
    [NeedsReauth, CapabilityNotSupported, QuotaLimited, AllSaturated, AccountCooldown, AccountDisabled]

  /** The reported reason is the most urgent one that was counted; an unavailable upstream is
      reported only when nothing else was counted. */
  lemma RefusalIsMostUrgent(filtered: multiset<Reason>)
    ensures
      || (exists i | 0 <= i < |URGENCY| ::
            && RefusalReason(filtered) == URGENCY[i] && URGENCY[i] in filtered
            && forall j | 0 <= j < i :: URGENCY[j] !in filtered)
      || (RefusalReason(filtered) == UpstreamUnavailable && forall j | 0 <= j < |URGENCY| :: URGENCY[j] !in filtered)
  {
    assert URGENCY[0] == NeedsReauth && URGENCY[1] == CapabilityNotSupported && URGENCY[2] == QuotaLimited;
    assert URGENCY[3] == AllSaturated && URGENCY[4] == AccountCooldown && URGENCY[5] == AccountDisabled;
  }

  function ResetOf(l: Loaded, reason: Reason): int {
    if reason == QuotaLimited && l.quotaResetAt.Some? then l.quotaResetAt.value
    else if reason == AccountCooldown && l.cooldownUntil.Some? then l.cooldownUntil.value
    else 0
  }

  predicate FilteredBy(l: Loaded, request: Request, now: int, reason: Reason) {
    FilterReason(l, request, now) == Some(reason)
  }

  /** `reset` is the smallest reset of the rows filtered for `reason`, or 0 if there is none. */
  ghost predicate SmallestReset(rows: seq<Loaded>, request: Request, now: int, reason: Reason, reset: int) {
    && (forall l <- rows :: FilteredBy(l, request, now, reason) ==> 0 < reset <= ResetOf(l, reason))
    && (reset != 0 ==> exists l <- rows :: FilteredBy(l, request, now, reason) && ResetOf(l, reason) == reset)
  }

  function EarlierPositive(current: int, candidate: int): int {
    if candidate <= 0 || (current > 0 && current <= candidate) then current else candidate
  }

  lemma ResetNext(rows: seq<Loaded>, l: Loaded, request: Request, now: nat, reason: Reason, reset: int)
    requires SmallestReset(rows, request, now, reason, reset) && 0 <= reset
    requires reason == QuotaLimited || reason == AccountCooldown
    ensures
      var next := if FilteredBy(l, request, now, reason) then EarlierPositive(reset, ResetOf(l, reason)) else reset;
      SmallestReset(rows + [l], request, now, reason, next) && 0 <= next
  {
    var next := if FilteredBy(l, request, now, reason) then EarlierPositive(reset, ResetOf(l, reason)) else reset;
    assert FilteredBy(l, request, now, reason) ==> ResetOf(l, reason) > now;
    forall k <- rows + [l] ensures FilteredBy(k, request, now, reason) ==> 0 < next <= ResetOf(k, reason) {
      assert k in rows || k == l;
    }
    if next != 0 {
      if next == reset {
        var k :| k in rows && FilteredBy(k, request, now, reason) && ResetOf(k, reason) == reset;
        assert k in rows + [l];
      } else {
        assert l in rows + [l];
      }
    }
  }

  /** How long a refused caller is told to wait. */
  ghost predicate RetryOk(rows: seq<Loaded>, request: Request, now: int, reason: Reason, retryAfter: int) {
    if reason == QuotaLimited || reason == AccountCooldown
    then retryAfter > 0 && SmallestReset(rows, request, now, reason, now + retryAfter)
    else retryAfter == 0
  }

  lemma NoResets(request: Request, now: int)
    ensures SmallestReset([], request, now, QuotaLimited, 0) && SmallestReset([], request, now, AccountCooldown, 0)
  {
  }

  lemma FilteredByReason(l: Loaded, request: Request, now: int, reason: Reason)
    ensures FilteredBy(l, request, now, reason) <==> FilterReason(l, request, now) == Some(reason)
  {
  }

  lemma {:induction false} NoRows(request: Request, now: int)
    ensures EligibleOf([], request, now) == [] && FilteredOf([], request, now) == multiset{}
  {
  }

  lemma {:induction false} RowNext(rows: seq<Loaded>, l: Loaded, request: Request, now: int)
    ensures
      var reason := FilterReason(l, request, now);
      && EligibleOf(rows + [l], request, now)
         == EligibleOf(rows, request, now) + (if reason.None? then [l.candidate] else [])
      && FilteredOf(rows + [l], request, now)
         == FilteredOf(rows, request, now) + (if reason.Some? then multiset{reason.value} else multiset{})
  {
    hide FilterReason;
    assert (rows + [l])[..|rows|] == rows;
  }

  // ---------- what Plan decides ----------

  /** The candidate that a plan grants, if any: the best ones take turns. */
  ghost function Choice(loads: Loads, cursor: nat, rows: seq<Loaded>, request: Request, now: int): Option<Candidate> {
    var available := Available(loads, EligibleOf(rows, request, now));
    if available == [] then None else Some(available[cursor % |available|])
  }

  /** Adding `n` occurrences of a reason. */
  function Counted(filtered: multiset<Reason>, reason: Reason, n: nat): (more: multiset<Reason>)
    ensures |more| == |filtered| + n
  {
    filtered[reason := filtered[reason] + n]
  }

  /** Two load tables that no reader can tell apart. */
  ghost predicate SameLoads(a: Loads, b: Loads) {
    forall account: nat :: InFlight(a, account) == InFlight(b, account)
  }

  lemma SameAvailable(a: Loads, b: Loads, list: seq<Candidate>)
    requires SameLoads(a, b)
    ensures Available(a, list) == Available(b, list)
  {
    SelectAgrees(list, IsBest(a, list), IsBest(b, list));
  }

  lemma {:induction false} SelectEmpty<T>(keep: T -> bool)
    ensures Select([], keep) == []
  {
  }

  lemma {:induction false} SelectLast<T>(s: seq<T>, keep: T -> bool)
    ensures Select(s[..|s|], keep) == Select(s, keep)
  {
    assert s[..|s|] == s;
  }

  /** The reasons after the locked part: one more AllSaturated per eligible candidate without a
      free slot, one more LowerPriority per free candidate outside the best tier. */
  function Explained(loads: Loads, eligible: seq<Candidate>, filtered: multiset<Reason>,
                     priority: int): multiset<Reason> {
    var free := WithCapacity(loads, eligible);
    Counted(Counted(filtered, AllSaturated, |eligible| - |free|), LowerPriority, |free| - |Tier(free, priority)|)
  }

  /** The size of the tier the choice was made from: the free candidates of the best priority. */
  ghost predicate TierSize(loads: Loads, eligible: seq<Candidate>, priority: int, size: int) {
    && IsMinPriority(WithCapacity(loads, eligible), priority)
    && size == |TierOf(loads, eligible, priority)|
  }

  ghost predicate Decides(loads: Loads, cursor: nat, rows: seq<Loaded>, request: Request, now: int,
                          outcome: Outcome, e: Explanation) {
    var eligible := EligibleOf(rows, request, now);
    && e.candidateCount == |rows|
    && match outcome
       case Granted(c) =>
         && Choice(loads, cursor, rows, request, now) == Some(c)
         && TierSize(loads, eligible, c.priority, |rows| - |e.filtered|)
         && e.filtered == Explained(loads, eligible, FilteredOf(rows, request, now), c.priority)
         && e.selectedPriority == c.priority
         && e.loadNumerator == InFlight(loads, c.account) && e.loadDenominator == c.maxConcurrency
       case Refused(code, retryAfter) =>
         && WithCapacity(loads, eligible) == [] && |e.filtered| == |rows|
         && e.filtered == Counted(FilteredOf(rows, request, now), AllSaturated, |eligible|)
         && (rows == [] <==> code == ModelNotConfigured)
         && match code {
              case ModelNotConfigured => retryAfter == 0
              case By(reason) =>
                if eligible == []
                then reason == RefusalReason(e.filtered) && RetryOk(rows, request, now, reason, retryAfter)
                else reason == AllSaturated && retryAfter == 0
            }
       case RowUnreadable => false
  }

  /** What the locked part decides on `eligible`, the rest of `count` rows being filtered. */
  ghost predicate Assigns(loads: Loads, cursor: nat, eligible: seq<Candidate>, filtered: multiset<Reason>, count: nat,
                          outcome: Outcome, e: Explanation) {
    var available := Available(loads, eligible);
    && e.candidateCount == count
    && match outcome
       case Granted(c) =>
         && available != [] && c == available[cursor % |available|]
         && TierSize(loads, eligible, c.priority, count - |e.filtered|)
         && e.filtered == Explained(loads, eligible, filtered, c.priority)
         && e.selectedPriority == c.priority
         && e.loadNumerator == InFlight(loads, c.account) && e.loadDenominator == c.maxConcurrency
       case Refused(code, retryAfter) =>
         && code == By(AllSaturated) && retryAfter == 0
         && WithCapacity(loads, eligible) == [] && |e.filtered| == count
         && e.filtered == Counted(filtered, AllSaturated, |eligible|)
       case RowUnreadable => false
  }

  // ---------- a refusal, from the rows alone ----------

  ghost predicate SomeBecause(rows: seq<Loaded>, request: Request, now: int, reason: Reason) {
    exists l <- rows :: Because(l, request, now, reason)
  }

  /** No candidate is usable, and this is the first of the reasons in their order of urgency. */
  ghost predicate MostUrgent(rows: seq<Loaded>, request: Request, now: int, reason: Reason) {
    match reason
    case NeedsReauth => SomeBecause(rows, request, now, NeedsReauth)
    case CapabilityNotSupported =>
      SomeBecause(rows, request, now, CapabilityNotSupported) && !SomeBecause(rows, request, now, NeedsReauth)
    case QuotaLimited =>
      && SomeBecause(rows, request, now, QuotaLimited)
      && !SomeBecause(rows, request, now, NeedsReauth) && !SomeBecause(rows, request, now, CapabilityNotSupported)
    case AccountCooldown =>
      && SomeBecause(rows, request, now, AccountCooldown)
      && !SomeBecause(rows, request, now, NeedsReauth) && !SomeBecause(rows, request, now, CapabilityNotSupported)
      && !SomeBecause(rows, request, now, QuotaLimited)
    case AccountDisabled =>
      && SomeBecause(rows, request, now, AccountDisabled)
      && !SomeBecause(rows, request, now, NeedsReauth) && !SomeBecause(rows, request, now, CapabilityNotSupported)
      && !SomeBecause(rows, request, now, QuotaLimited) && !SomeBecause(rows, request, now, AccountCooldown)
    case UpstreamUnavailable => forall l <- rows :: !Enabled(l)
    case AllSaturated => false
    case LowerPriority => false
  }

  /** The wait ends with the first quota or cooldown that ends; for other reasons there is none. */
  ghost predicate WaitsFor(rows: seq<Loaded>, request: Request, now: int, reason: Reason, retryAfter: int) {
    match reason
    case QuotaLimited =>
      && retryAfter > 0
      && (exists l <- rows :: Because(l, request, now, QuotaLimited) && l.quotaResetAt == Some(now + retryAfter))
      && forall l <- rows :: Because(l, request, now, QuotaLimited) ==> now + retryAfter <= l.quotaResetAt.value
    case AccountCooldown =>
      && retryAfter > 0
      && (exists l <- rows :: Because(l, request, now, AccountCooldown) && l.cooldownUntil == Some(now + retryAfter))
      && forall l <- rows :: Because(l, request, now, AccountCooldown) ==> now + retryAfter <= l.cooldownUntil.value
    case _ => retryAfter == 0
  }

  /** Why and for how long a plan over these rows is refused: there is none, or the usable ones
      have no slot, or no one is usable. */
  ghost predicate RefusesFor(rows: seq<Loaded>, request: Request, now: int, code: Code, retryAfter: int) {
    match code
    case ModelNotConfigured => rows == [] && retryAfter == 0
    case By(reason) =>
      && rows != []
      && if exists l <- rows :: Usable(l, request, now) then reason == AllSaturated && retryAfter == 0
         else MostUrgent(rows, request, now, reason) && WaitsFor(rows, request, now, reason, retryAfter)
  }

  lemma {:induction false} FilteredIff(rows: seq<Loaded>, request: Request, now: int, reason: Reason)
    ensures reason in FilteredOf(rows, request, now) <==> SomeBecause(rows, request, now, reason)
  {
    hide Because;
    FilterCounts(rows, request, now, reason);
    HowManyIff(rows, request, now, reason);
  }

  lemma {:induction false} UsableIff(rows: seq<Loaded>, request: Request, now: int)
    ensures EligibleOf(rows, request, now) == [] <==> forall l <- rows :: !Usable(l, request, now)
  {
    hide Usable;
    FilterCounts(rows, request, now, UpstreamUnavailable);
    if rows != [] {
      var init, last := rows[..|rows| - 1], rows[|rows| - 1];
      UsableIff(init, request, now);
      FilterCounts(init, request, now, UpstreamUnavailable);
      assert last in rows;
      forall l <- init ensures l in rows {}
      forall l <- rows ensures l in init || l == last {}
    }
  }

  /** A row that is not usable is so for a reason. */
  lemma SomeReason(l: Loaded, request: Request, now: int)
    requires !Usable(l, request, now)
    ensures
      || Because(l, request, now, UpstreamUnavailable) || Because(l, request, now, CapabilityNotSupported)
      || Because(l, request, now, NeedsReauth) || Because(l, request, now, AccountDisabled)
      || Because(l, request, now, QuotaLimited) || Because(l, request, now, AccountCooldown)
  {
    hide Enabled, Supports, HoldsCredential, QuotaRuns, CoolsDown;
  }

  lemma NeverSaturated(rows: seq<Loaded>, request: Request, now: int)
    ensures !SomeBecause(rows, request, now, AllSaturated)
    ensures forall l <- rows :: Because(l, request, now, UpstreamUnavailable) <==> !Enabled(l)
  {
    hide Enabled, Supports, HoldsCredential, QuotaRuns, CoolsDown;
  }

  lemma {:induction false} UrgencyFromRows(rows: seq<Loaded>, request: Request, now: int, filtered: multiset<Reason>)
    requires filtered == FilteredOf(rows, request, now) && forall l <- rows :: !Usable(l, request, now)
    ensures MostUrgent(rows, request, now, RefusalReason(filtered))
  {
    FilteredIff(rows, request, now, NeedsReauth);
    FilteredIff(rows, request, now, CapabilityNotSupported);
    FilteredIff(rows, request, now, QuotaLimited);
    FilteredIff(rows, request, now, AllSaturated);
    FilteredIff(rows, request, now, AccountCooldown);
    FilteredIff(rows, request, now, AccountDisabled);
    NeverSaturated(rows, request, now);
    hide FilteredOf, Because, Usable, Enabled;
    forall l <- rows
      ensures
        || Because(l, request, now, UpstreamUnavailable) || Because(l, request, now, CapabilityNotSupported)
        || Because(l, request, now, NeedsReauth) || Because(l, request, now, AccountDisabled)
        || Because(l, request, now, QuotaLimited) || Because(l, request, now, AccountCooldown)
    {
      SomeReason(l, request, now);
    }
  }

  lemma ResetIs(l: Loaded, request: Request, now: int)
    ensures FilteredBy(l, request, now, QuotaLimited) <==> Because(l, request, now, QuotaLimited)
    ensures FilteredBy(l, request, now, AccountCooldown) <==> Because(l, request, now, AccountCooldown)
    ensures Because(l, request, now, QuotaLimited) ==>
      l.quotaResetAt.Some? && ResetOf(l, QuotaLimited) == l.quotaResetAt.value
    ensures Because(l, request, now, AccountCooldown) ==>
      l.cooldownUntil.Some? && ResetOf(l, AccountCooldown) == l.cooldownUntil.value
  {
    ReasonIff(l, request, now, QuotaLimited);
    ReasonIff(l, request, now, AccountCooldown);
    hide FilterReason, Enabled, Supports, HoldsCredential;
  }

  lemma {:induction false} WaitFromRows(rows: seq<Loaded>, request: Request, now: int, reason: Reason, retryAfter: int)
    requires RetryOk(rows, request, now, reason, retryAfter) && 0 <= now
    ensures WaitsFor(rows, request, now, reason, retryAfter)
  {
    forall l <- rows
      ensures FilteredBy(l, request, now, QuotaLimited) <==> Because(l, request, now, QuotaLimited)
      ensures FilteredBy(l, request, now, AccountCooldown) <==> Because(l, request, now, AccountCooldown)
      ensures Because(l, request, now, QuotaLimited) ==>
        l.quotaResetAt.Some? && ResetOf(l, QuotaLimited) == l.quotaResetAt.value
      ensures Because(l, request, now, AccountCooldown) ==>
        l.cooldownUntil.Some? && ResetOf(l, AccountCooldown) == l.cooldownUntil.value
    {
      ResetIs(l, request, now);
    }
    hide Because, FilteredBy, ResetOf;
    if reason == QuotaLimited || reason == AccountCooldown {
      assert SmallestReset(rows, request, now, reason, now + retryAfter);
      var l :| l in rows && FilteredBy(l, request, now, reason) && ResetOf(l, reason) == now + retryAfter;
    }
  }

  /** Every refusal says what the rows say, and its counts are those of the rows. */
  lemma {:induction false} RefusalFromRows(loads: Loads, cursor: nat, rows: seq<Loaded>, request: Request, now: int,
                                           code: Code, retryAfter: int, e: Explanation)
    requires Decides(loads, cursor, rows, request, now, Refused(code, retryAfter), e) && 0 <= now
    ensures RefusesFor(rows, request, now, code, retryAfter)
    ensures forall reason | reason != AllSaturated :: e.filtered[reason] == HowMany(rows, request, now, reason)
    ensures e.filtered[AllSaturated] == |UsableOf(rows, request, now)|
  {
    hide FilterReason, Usable, Because, WithCapacity, MostUrgent, WaitsFor, RetryOk, RefusalReason;
    UsableIff(rows, request, now);
    NeverSaturated(rows, request, now);
    forall reason: Reason
      ensures FilteredOf(rows, request, now)[reason] == HowMany(rows, request, now, reason)
    {
      FilterCounts(rows, request, now, reason);
    }
    FilteredIff(rows, request, now, AllSaturated);
    FilterCounts(rows, request, now, AllSaturated);
    if rows != [] && EligibleOf(rows, request, now) == [] {
      assert e.filtered == FilteredOf(rows, request, now);
      UrgencyFromRows(rows, request, now, e.filtered);
      WaitFromRows(rows, request, now, code.reason, retryAfter);
    }
  }

  lemma {:induction false} GrantCounts(loads: Loads, cursor: nat, rows: seq<Loaded>, request: Request, now: int,
                                       c: Candidate, e: Explanation)
    requires Decides(loads, cursor, rows, request, now, Granted(c), e)
    ensures forall reason | reason != AllSaturated && reason != LowerPriority ::
      e.filtered[reason] == HowMany(rows, request, now, reason)
  {
    hide FilterReason, TierSize, Choice, Explained;
    forall reason | reason != AllSaturated && reason != LowerPriority
      ensures e.filtered[reason] == HowMany(rows, request, now, reason)
    {
      FilterCounts(rows, request, now, reason);
      ExplainsOthers(loads, EligibleOf(rows, request, now), FilteredOf(rows, request, now), c.priority, reason);
    }
  }

  /** The reasons that the locked part does not count. */
  lemma ExplainsOthers(loads: Loads, eligible: seq<Candidate>, filtered: multiset<Reason>, priority: int, reason: Reason)
    requires reason != AllSaturated && reason != LowerPriority
    ensures Explained(loads, eligible, filtered, priority)[reason] == filtered[reason]
  {
  }

  /** No candidate is eligible. */
  lemma {:induction false} NoneDecides(loads: Loads, cursor: nat, rows: seq<Loaded>, request: Request, now: nat, quotaAt: int,
                    cooldownAt: int)
    requires rows != [] && EligibleOf(rows, request, now) == []
    requires SmallestReset(rows, request, now, QuotaLimited, quotaAt)
    requires SmallestReset(rows, request, now, AccountCooldown, cooldownAt)
    ensures
      var filtered := FilteredOf(rows, request, now);
      var reason := RefusalReason(filtered);
      var retry := match reason
                   case QuotaLimited => if quotaAt > now then quotaAt - now else 0
                   case AccountCooldown => if cooldownAt > now then cooldownAt - now else 0
                   case _ => 0;
      Decides(loads, cursor, rows, request, now, Refused(By(reason), retry), Explanation(|rows|, filtered, 0, 0, 0))
  {
    hide FilterReason, SmallestReset, FilteredOf, RetryOk;
    FilteredSize(rows, request, now);
    NothingEligible(loads);
    RetryIsOk(rows, request, now, FilteredOf(rows, request, now), quotaAt, cooldownAt);
  }

  lemma {:induction false} NoRowDecides(loads: Loads, cursor: nat, request: Request, now: nat)
    ensures
      Decides(loads, cursor, [], request, now, Refused(ModelNotConfigured, 0),
              Explanation(0, FilteredOf([], request, now), 0, 0, 0))
  {
    NothingEligible(loads);
  }

  lemma {:induction false} AssignDecides(loads: Loads, cursor: nat, rows: seq<Loaded>, request: Request, now: nat, outcome: Outcome,
                      e: Explanation)
    requires EligibleOf(rows, request, now) != []
    requires Assigns(loads, cursor, EligibleOf(rows, request, now), FilteredOf(rows, request, now), |rows|, outcome, e)
    ensures Decides(loads, cursor, rows, request, now, outcome, e)
  {
    hide FilterReason, WithCapacity, TierSize, Explained, FilteredOf;
  }

  lemma {:induction false} DecisionFromRows(loads: Loads, cursor: nat, rows: seq<Loaded>, request: Request, now: int,
                                            outcome: Outcome, e: Explanation)
    requires Decides(loads, cursor, rows, request, now, outcome, e) && 0 <= now
    ensures outcome.Refused? ==> RefusesFor(rows, request, now, outcome.code, outcome.retryAfter)
    ensures forall reason | reason != AllSaturated && reason != LowerPriority ::
      e.filtered[reason] == HowMany(rows, request, now, reason)
  {
    hide Decides, RefusesFor;
    match outcome
    case Granted(c) => GrantCounts(loads, cursor, rows, request, now, c, e);
    case Refused(code, retryAfter) => RefusalFromRows(loads, cursor, rows, request, now, code, retryAfter, e);
    case RowUnreadable => NotUnreadable(loads, cursor, rows, request, now, e);
  }

  lemma NotUnreadable(loads: Loads, cursor: nat, rows: seq<Loaded>, request: Request, now: int, e: Explanation)
    ensures !Decides(loads, cursor, rows, request, now, RowUnreadable, e)
  {
  }

  // ---------- sizes ----------

  lemma {:induction false} FilteredSize(rows: seq<Loaded>, request: Request, now: int)
    ensures |FilteredOf(rows, request, now)| + |EligibleOf(rows, request, now)| == |rows|
  {
    if rows != [] { FilteredSize(rows[..|rows| - 1], request, now); }
  }

  lemma {:induction false} FilteredSome(rows: seq<Loaded>, request: Request, now: int, reason: Reason)
    requires reason in FilteredOf(rows, request, now)
    ensures exists l <- rows :: FilteredBy(l, request, now, reason)
  {
    var init, last := rows[..|rows| - 1], rows[|rows| - 1];
    if reason in FilteredOf(init, request, now) {
      FilteredSome(init, request, now, reason);
      var l :| l in init && FilteredBy(l, request, now, reason);
      assert l in rows;
    } else {
      assert FilteredBy(last, request, now, reason) && last in rows;
    }
  }

  // ---------- facts for Plan ----------

  /** All rows of a route query carry the same route. */
  function RouteOf(rows: seq<Loaded>): nat {
    if rows == [] then 0 else rows[|rows| - 1].candidate.route
  }

  function Incremented(loads: Loads, account: nat): Loads {
    loads[account := InFlight(loads, account) + 1]
  }

  function Decremented(loads: Loads, account: nat): Loads {
    if InFlight(loads, account) > 0 then loads[account := InFlight(loads, account) - 1] else loads
  }

  lemma SameChain(a: Loads, b: Loads, c: Loads)
    requires SameLoads(a, b) && SameLoads(b, c)
    ensures SameLoads(a, c)
  {
    forall account: nat ensures InFlight(a, account) == InFlight(c, account) {
      assert InFlight(a, account) == InFlight(b, account);
    }
  }

  lemma SlotTaken(now: Loads, before: Loads, loads: Loads, account: nat)
    requires SameLoads(now, before) && SameLoads(before, loads)
    ensures SameLoads(Incremented(now, account), Incremented(loads, account))
  {
    forall other: nat
      ensures InFlight(Incremented(now, account), other) == InFlight(Incremented(loads, account), other)
    {
      assert InFlight(now, other) == InFlight(before, other) == InFlight(loads, other);
    }
  }

  lemma NothingEligible(loads: Loads)
    ensures WithCapacity(loads, []) == []
  {
  }

  lemma {:induction false} RetryIsOk(rows: seq<Loaded>, request: Request, now: nat, filtered: multiset<Reason>,
                        quotaAt: int, cooldownAt: int)
    requires rows != [] && filtered == FilteredOf(rows, request, now)
    requires SmallestReset(rows, request, now, QuotaLimited, quotaAt)
    requires SmallestReset(rows, request, now, AccountCooldown, cooldownAt)
    ensures
      var reason := RefusalReason(filtered);
      && RetryOk(rows, request, now, reason,
                 if reason == QuotaLimited then (if quotaAt > now then quotaAt - now else 0)
                 else if reason == AccountCooldown then (if cooldownAt > now then cooldownAt - now else 0)
                 else 0)
  {
    var reason := RefusalReason(filtered);
    if reason == QuotaLimited || reason == AccountCooldown {
      FilteredSome(rows, request, now, reason);
      var reset := if reason == QuotaLimited then quotaAt else cooldownAt;
      assert 0 < reset;
      var l :| l in rows && FilteredBy(l, request, now, reason) && ResetOf(l, reason) == reset;
      assert reset > now;
      assert reset == now + (reset - now);
    }
  }

  lemma TierBounded(loads: Loads, eligible: seq<Candidate>, priority: int, tier: seq<Candidate>)
    requires Nonnegative(loads) && tier == TierOf(loads, eligible, priority)
    ensures Bounded(loads, tier)
  {
    forall c <- tier ensures Free(loads, c) { TierIn(loads, eligible, priority, c); }
  }

  lemma SameBounded(a: Loads, b: Loads, list: seq<Candidate>)
    requires SameLoads(a, b) && Bounded(b, list)
    ensures Bounded(a, list)
  {
  }

  lemma {:induction false} SameLightest(a: Loads, b: Loads, list: seq<Candidate>)
    requires SameLoads(a, b)
    ensures Select(list, IsLightest(a, list)) == Select(list, IsLightest(b, list))
  {
    SelectAgrees(list, IsLightest(a, list), IsLightest(b, list));
  }

  lemma ChosenPriority(loads: Loads, eligible: seq<Candidate>, priority: int, c: Candidate)
    requires IsMinPriority(WithCapacity(loads, eligible), priority) && c in Available(loads, eligible)
    ensures c.priority == priority
  {
    SelectIn(eligible, IsBest(loads, eligible), c);
    BestIff(loads, eligible, priority, c);
  }

  /** Without a free candidate. */
  lemma RefusalAssigns(loads: Loads, cursor: nat, eligible: seq<Candidate>, filtered: multiset<Reason>)
    requires WithCapacity(loads, eligible) == []
    ensures
      var count := |filtered| + |eligible|;
      Assigns(loads, cursor, eligible, filtered, count, Refused(By(AllSaturated), 0),
              Explanation(count, Counted(filtered, AllSaturated, |eligible|), 0, 0, 0))
  {
    hide Available, WithCapacity;
  }

  lemma GrantAssigns(loads: Loads, cursor: nat, eligible: seq<Candidate>, filtered: multiset<Reason>, c: Candidate)
    requires Available(loads, eligible) != [] && c == Available(loads, eligible)[cursor % |Available(loads, eligible)|]
    requires IsMinPriority(WithCapacity(loads, eligible), c.priority)
    requires |TierOf(loads, eligible, c.priority)| <= |WithCapacity(loads, eligible)| <= |eligible|
    ensures
      var count, free := |filtered| + |eligible|, |WithCapacity(loads, eligible)|;
      var counted := Counted(filtered, AllSaturated, |eligible| - free);
      Assigns(loads, cursor, eligible, filtered, count, Granted(c),
              Explanation(count, Counted(counted, LowerPriority, free - |TierOf(loads, eligible, c.priority)|),
                          c.priority, InFlight(loads, c.account), c.maxConcurrency))
  {
    hide Available, IsMinPriority, WithCapacity, Tier;
  }

  // ---------- the scan for the lightest ----------

  lemma SelectNothing(loads: Loads)
    ensures Select([], IsLightest(loads, [])) == []
  {
  }

  lemma LightestFirst(loads: Loads, tier: seq<Candidate>)
    requires tier != []
    ensures tier[0] in tier[..1] && Lightest(loads, tier[..1], tier[0])
    ensures Select(tier[..1], IsLightest(loads, tier[..1])) == [tier[0]]
  {
    assert tier[..1] == [tier[0]];
    assert [tier[0]][..0] == [];
  }

  /** A candidate as light as a lightest one is lightest, and all the lightest are equal. */
  lemma LightestSame(loads: Loads, list: seq<Candidate>, best: Candidate, c: Candidate)
    requires Bounded(loads, list) && best in list && c in list && Lightest(loads, list, best)
    ensures Lightest(loads, list, c) <==> !Lighter(loads, best, c)
  {
    if !Lighter(loads, best, c) {
      forall d <- list ensures !Lighter(loads, d, c) { LighterTransitive(loads, c, best, d); }
    }
  }

  lemma LightestNext(loads: Loads, tier: seq<Candidate>, i: nat, best: Candidate)
    requires i < |tier| && Bounded(loads, tier)
    requires best in tier[..i] && Lightest(loads, tier[..i], best)
    ensures
      var c, before, after := tier[i], tier[..i], tier[..i + 1];
      var kept := Select(before, IsLightest(loads, before));
      && c in after && best in after
      && (Lighter(loads, c, best) ==>
            Lightest(loads, after, c) && Select(after, IsLightest(loads, after)) == [c])
      && (!Lighter(loads, c, best) ==>
            && Lightest(loads, after, best)
            && Select(after, IsLightest(loads, after)) == if Lighter(loads, best, c) then kept else kept + [c])
  {
    var c, before, after := tier[i], tier[..i], tier[..i + 1];
    assert after == before + [c] && after[..i] == before;
    assert Bounded(loads, after);
    if Lighter(loads, c, best) {
      forall d <- after ensures !Lighter(loads, d, c) {
        assert d in before || d == c;
        if d in before { LighterTransitive(loads, c, best, d); }
      }
      forall d <- before ensures !IsLightest(loads, after)(d) {
        LightestSame(loads, before, best, d);
        if !Lighter(loads, best, d) { LighterThan(loads, c, best, d); }
      }
      SelectNone(before, IsLightest(loads, after));
    } else {
      assert Lightest(loads, after, best);
      forall d <- before ensures IsLightest(loads, after)(d) == IsLightest(loads, before)(d) {
        LightestSame(loads, before, best, d);
        LightestSame(loads, after, best, d);
      }
      SelectAgrees(before, IsLightest(loads, after), IsLightest(loads, before));
      LightestSame(loads, after, best, c);
    }
  }

  /** c < b <= d gives c < d. */
  lemma LighterThan(loads: Loads, c: Candidate, b: Candidate, d: Candidate)
    requires Bounded(loads, [c, b, d]) && Lighter(loads, c, b) && !Lighter(loads, d, b)
    ensures Lighter(loads, c, d)
  {
    assert c in [c, b, d] && b in [c, b, d] && d in [c, b, d];
    if !Lighter(loads, c, d) {
      FractionsChain(InFlight(loads, b.account), b.maxConcurrency, InFlight(loads, d.account), d.maxConcurrency,
                     InFlight(loads, c.account), c.maxConcurrency);
    }
  }

  lemma {:induction false} SelectNone<T>(s: seq<T>, keep: T -> bool)
    requires forall x <- s :: !keep(x)
    ensures Select(s, keep) == []
  {
    if s != [] { SelectNone(s[..|s| - 1], keep); }
  }

  // ---------- the object ----------

  class Service {
    var states: Loads
    var cursors: map<nat, nat>

    constructor ()
      ensures states == map[] && cursors == map[]
    {
      states, cursors := map[], map[];
    }

    /** The calls in flight, creating the account's entry when it is missing. */
    method StateLocked(account: nat) returns (inFlight: int)
      modifies this`states
      ensures inFlight == InFlight(old(states), account)
      ensures account in states && states == old(states)[account := inFlight]
      ensures SameLoads(states, old(states))
      ensures old(Nonnegative(states)) ==> Nonnegative(states)
    {
      if account !in states { states := states[account := 0]; }
      return states[account];
    }

    function Cursor(route: nat): nat
      reads this
    {
      if route in cursors then cursors[route] else 0
    }

    /** The loop over the route query: eligible candidates go to the buffer, the others are
        counted. A row that cannot be decoded ends it. */
    static method ReadRows(rows: seq<Loaded>, failsAt: Option<nat>, request: Request, now: nat,
                        buffer: array<Candidate>)
      returns (ok: bool, n: nat, filtered: multiset<Reason>, quotaAt: int, cooldownAt: int)
      requires buffer.Length == |rows|
      modifies buffer
      ensures ok <==> !(failsAt.Some? && failsAt.value < |rows|)
      ensures ok ==> n <= buffer.Length && buffer[..n] == EligibleOf(rows, request, now) == UsableOf(rows, request, now)
      ensures ok ==> filtered == FilteredOf(rows, request, now)
      ensures ok ==> forall reason: Reason :: filtered[reason] == HowMany(rows, request, now, reason)
      ensures ok ==> SmallestReset(rows, request, now, QuotaLimited, quotaAt)
      ensures ok ==> SmallestReset(rows, request, now, AccountCooldown, cooldownAt)
    {
      hide FilterReason, SmallestReset, ResetOf, FilteredBy, EligibleOf, FilteredOf, Eligible;
      n, filtered, quotaAt, cooldownAt := 0, multiset{}, 0, 0;
      NoResets(request, now);
      NoRows(request, now);
      for i := 0 to |rows|
        invariant n <= i && buffer[..n] == EligibleOf(rows[..i], request, now)
        invariant filtered == FilteredOf(rows[..i], request, now)
        invariant SmallestReset(rows[..i], request, now, QuotaLimited, quotaAt) && 0 <= quotaAt
        invariant SmallestReset(rows[..i], request, now, AccountCooldown, cooldownAt) && 0 <= cooldownAt
        invariant failsAt.Some? ==> i <= failsAt.value
      {
        if failsAt == Some(i) { return false, n, filtered, quotaAt, cooldownAt; }
        var l := rows[i];
        assert rows[..i + 1] == rows[..i] + [l];
        RowNext(rows[..i], l, request, now);
        ResetNext(rows[..i], l, request, now, QuotaLimited, quotaAt);
        ResetNext(rows[..i], l, request, now, AccountCooldown, cooldownAt);
        FilteredByReason(l, request, now, QuotaLimited);
        FilteredByReason(l, request, now, AccountCooldown);
        var reason := FilterReason(l, request, now);
        if reason.Some? {
          filtered := filtered + multiset{reason.value};
          match reason.value {
            case QuotaLimited => quotaAt := EarlierPositive(quotaAt, ResetOf(l, QuotaLimited));
            case AccountCooldown => cooldownAt := EarlierPositive(cooldownAt, ResetOf(l, AccountCooldown));
            case _ =>
          }
        } else {
          buffer[n] := l.candidate;
          n := n + 1;
        }
      }
      assert rows[..|rows|] == rows;
      forall reason: Reason ensures FilteredOf(rows, request, now)[reason] == HowMany(rows, request, now, reason) {
        FilterCounts(rows, request, now, reason);
      }
      FilterCounts(rows, request, now, NeedsReauth);
      return true, n, filtered, quotaAt, cooldownAt;
    }

    /** The first compaction: drop saturated candidates from the front of the buffer. */
    method KeepFree(buffer: array<Candidate>, n: nat) returns (w: nat)
      requires n <= buffer.Length
      modifies buffer, this`states
      ensures w <= n && buffer[..w] == WithCapacity(old(states), old(buffer[..n]))
      ensures SameLoads(states, old(states)) && (old(Nonnegative(states)) ==> Nonnegative(states))
    {
      hide Select;
      w := 0;
      SelectEmpty(IsFree(old(states)));
      for i := 0 to n
        invariant w <= i
        invariant buffer[..w] == WithCapacity(old(states), old(buffer[..n])[..i])
        invariant forall j | i <= j < n :: buffer[j] == old(buffer[j])
        invariant SameLoads(states, old(states)) && (old(Nonnegative(states)) ==> Nonnegative(states))
      {
        var c := buffer[i];
        assert c == old(buffer[..n])[i];
        SelectNext(old(buffer[..n]), IsFree(old(states)), i);
        var inFlight := StateLocked(c.account);
        assert inFlight == InFlight(old(states), c.account);
        if inFlight >= c.maxConcurrency { continue; }
        buffer[w] := c;
        w := w + 1;
      }
      SelectLast(old(buffer[..n]), IsFree(old(states)));
    }

    static method LeastPriority(buffer: array<Candidate>, n: nat) returns (least: int)
      requires 0 < n <= buffer.Length
      ensures IsMinPriority(buffer[..n], least)
    {
      least := buffer[0].priority;
      ghost var at := 0;
      for i := 1 to n
        invariant 0 <= at < i && buffer[at].priority == least
        invariant forall j | 0 <= j < i :: least <= buffer[j].priority
      {
        if buffer[i].priority < least {
          least := buffer[i].priority;
          at := i;
        }
      }
      assert buffer[..n][at] in buffer[..n];
    }

    /** The second compaction, over the same buffer: keep the best priority. */
    static method KeepTier(buffer: array<Candidate>, n: nat, priority: int) returns (w: nat)
      requires n <= buffer.Length
      modifies buffer
      ensures w <= n && buffer[..w] == Tier(old(buffer[..n]), priority)
    {
      hide Select;
      w := 0;
      SelectEmpty(HasPriority(priority));
      for i := 0 to n
        invariant w <= i
        invariant buffer[..w] == Tier(old(buffer[..n])[..i], priority)
        invariant forall j | i <= j < n :: buffer[j] == old(buffer[j])
      {
        var c := buffer[i];
        assert c == old(buffer[..n])[i];
        SelectNext(old(buffer[..n]), HasPriority(priority), i);
        if c.priority == priority {
          buffer[w] := c;
          w := w + 1;
        }
      }
      SelectLast(old(buffer[..n]), HasPriority(priority));
    }

    /** The scan for the lightest load by cross-multiplication. A lighter candidate restarts the
        list, an equally loaded one joins it. */
    method KeepLightest(buffer: array<Candidate>, n: nat) returns (available: seq<Candidate>)
      requires n <= buffer.Length && Bounded(states, buffer[..n])
      modifies this`states
      ensures available == Select(buffer[..n], IsLightest(old(states), buffer[..n]))
      ensures SameLoads(states, old(states)) && (old(Nonnegative(states)) ==> Nonnegative(states))
    {
      hide Select, IsLightest, Lightest, Bounded;
      SelectNothing(states);
      available := [];
      var numerator, denominator, haveBest := 0, 1, false;
      ghost var tier, loads := buffer[..n], states;
      assert tier[..0] == [];
      for i := 0 to n
        invariant available == Select(tier[..i], IsLightest(loads, tier[..i]))
        invariant haveBest <==> i > 0
        invariant haveBest ==> exists best <- tier[..i] ::
          numerator == InFlight(loads, best.account) && denominator == best.maxConcurrency && Lightest(loads, tier[..i], best)
        invariant SameLoads(states, loads) && (Nonnegative(loads) ==> Nonnegative(states))
      {
        var c := buffer[i];
        var inFlight := StateLocked(c.account);
        if haveBest {
          ghost var best :| best in tier[..i] && numerator == InFlight(loads, best.account)
            && denominator == best.maxConcurrency && Lightest(loads, tier[..i], best);
          LightestNext(loads, tier, i, best);
        } else {
          LightestFirst(loads, tier);
        }
        if !haveBest || inFlight * denominator < numerator * c.maxConcurrency {
          numerator, denominator, haveBest := inFlight, c.maxConcurrency, true;
          available := [c];
        } else if inFlight * denominator == numerator * c.maxConcurrency {
          available := available + [c];
        }
      }
      assert tier[..n] == tier;
    }

    /** Counts one more call for the account. */
    method TakeSlot(ghost loads: Loads, account: nat) returns (inFlight: int)
      requires SameLoads(states, loads) && Nonnegative(states)
      modifies this`states
      ensures inFlight == InFlight(loads, account)
      ensures SameLoads(states, Incremented(loads, account)) && Nonnegative(states)
    {
      inFlight := StateLocked(account);
      SlotTaken(states, old(states), loads, account);
      states := states[account := inFlight + 1];
    }

    /** The three stages over one buffer: `w` free candidates, `t` of them in the best tier, and
        the lightest of those. */
    method Narrow(buffer: array<Candidate>, n: nat) returns (w: nat, t: nat, priority: int, available: seq<Candidate>)
      requires n <= buffer.Length && Nonnegative(states)
      modifies this`states, buffer
      ensures w <= n && w == |WithCapacity(old(states), old(buffer[..n]))|
      ensures w > 0 ==>
        && IsMinPriority(WithCapacity(old(states), old(buffer[..n])), priority)
        && t == |TierOf(old(states), old(buffer[..n]), priority)| <= w
        && available == Available(old(states), old(buffer[..n])) && available != []
      ensures SameLoads(states, old(states)) && Nonnegative(states)
    {
      hide Available, IsMinPriority, WithCapacity, Tier, IsLightest, Select, Bounded, SameLoads, Nonnegative, Lighter, Free;
      ghost var loads, eligible := states, buffer[..n];
      w := KeepFree(buffer, n);
      t, priority, available := 0, 0, [];
      if w == 0 { return; }
      priority := LeastPriority(buffer, w);
      t := KeepTier(buffer, w, priority);
      ghost var tier, between := buffer[..t], states;
      TierBounded(loads, eligible, priority, tier);
      SameBounded(states, loads, tier);
      SameLightest(states, loads, tier);
      available := KeepLightest(buffer, t);
      SameChain(states, between, loads);
      StagesFindTheBest(loads, eligible, priority);
    }

    /** The locked part of Plan: drop the saturated, keep the best tier and its lightest, take
        turns. */
    method Assign(buffer: array<Candidate>, n: nat, count: nat, filtered: multiset<Reason>, route: nat)
      returns (lease: Lease?, e: Explanation, outcome: Outcome)
      requires n <= buffer.Length && |filtered| + n == count
      requires Nonnegative(states)
      modifies this, buffer
      ensures Nonnegative(states) && !outcome.RowUnreadable?
      ensures Assigns(old(states), old(Cursor(route)), old(buffer[..n]), filtered, count, outcome, e)
      ensures lease != null <==> outcome.Granted?
      ensures lease != null ==>
        && fresh(lease) && lease.service == this && lease.candidate == outcome.candidate && !lease.released
        && cursors == old(cursors)[route := (old(Cursor(route)) + 1) % CURSOR_RANGE]
        && SameLoads(states, Incremented(old(states), lease.candidate.account))
      ensures lease == null ==> cursors == old(cursors) && SameLoads(states, old(states))
    {
      hide Available, IsMinPriority, WithCapacity, TierOf, SameLoads, Nonnegative, Incremented, Counted, Assigns;
      ghost var loads, eligible := states, buffer[..n];
      var w, t, priority, available := Narrow(buffer, n);
      var counted := Counted(filtered, AllSaturated, n - w);
      e := Explanation(count, counted, 0, 0, 0);
      if w == 0 {
        RefusalAssigns(loads, Cursor(route), eligible, filtered);
        return null, e, Refused(By(AllSaturated), 0);
      }
      counted := Counted(counted, LowerPriority, w - t);
      var cursor := Cursor(route);
      var selected := available[cursor % |available|];
      ChosenPriority(loads, eligible, priority, selected);
      cursors := cursors[route := (cursor + 1) % CURSOR_RANGE];
      var inFlight := TakeSlot(loads, selected.account);
      e := Explanation(count, counted, selected.priority, inFlight, selected.maxConcurrency);
      GrantAssigns(loads, cursor, eligible, filtered, selected);
      lease := new Lease(selected, this);
      return lease, e, Granted(selected);
    }

    /** Plan: read and filter the route's rows, then assign a slot under the lock. */
    method Plan(rows: seq<Loaded>, failsAt: Option<nat>, request: Request, now: nat)
      returns (lease: Lease?, e: Explanation, outcome: Outcome)
      requires Nonnegative(states)
      modifies this
      ensures Nonnegative(states)
      ensures outcome.RowUnreadable? <==> failsAt.Some? && failsAt.value < |rows|
      ensures !outcome.RowUnreadable? ==>
        Decides(old(states), old(Cursor(RouteOf(rows))), rows, request, now, outcome, e)
      ensures outcome.Refused? ==> RefusesFor(rows, request, now, outcome.code, outcome.retryAfter)
      ensures !outcome.RowUnreadable? ==> forall reason | reason != AllSaturated && reason != LowerPriority ::
        e.filtered[reason] == HowMany(rows, request, now, reason)
      ensures lease != null <==> outcome.Granted?
      ensures lease != null ==>
        && fresh(lease) && lease.service == this && lease.candidate == outcome.candidate && !lease.released
        && cursors == old(cursors)[RouteOf(rows) := (old(Cursor(RouteOf(rows))) + 1) % CURSOR_RANGE]
        && SameLoads(states, Incremented(old(states), lease.candidate.account))
      ensures lease == null ==> cursors == old(cursors) && SameLoads(states, old(states))
    {
      hide FilterReason, SmallestReset, EligibleOf, FilteredOf, UsableOf, HowMany, RefusesFor, Decides, Assigns;
      ghost var loads, cursor := states, Cursor(RouteOf(rows));
      var buffer := new Candidate[|rows|];
      var ok, n, filtered, quotaAt, cooldownAt := ReadRows(rows, failsAt, request, now, buffer);
      e := Explanation(|rows|, filtered, 0, 0, 0);
      if !ok { return null, e, RowUnreadable; }
      FilteredSize(rows, request, now);
      if |rows| == 0 {
        assert rows == [];
        NoRowDecides(loads, cursor, request, now);
        DecisionFromRows(loads, cursor, rows, request, now, Refused(ModelNotConfigured, 0), e);
        return null, e, Refused(ModelNotConfigured, 0);
      }
      if n == 0 {
        var reason := RefusalReason(filtered);
        var retry := 0;
        match reason {
          case QuotaLimited => retry := if quotaAt > now then quotaAt - now else 0;
          case AccountCooldown => retry := if cooldownAt > now then cooldownAt - now else 0;
          case _ =>
        }
        NoneDecides(loads, cursor, rows, request, now, quotaAt, cooldownAt);
        DecisionFromRows(loads, cursor, rows, request, now, Refused(By(reason), retry), e);
        return null, e, Refused(By(reason), retry);
      }
      lease, e, outcome := Assign(buffer, n, |rows|, filtered, RouteOf(rows));
      AssignDecides(loads, cursor, rows, request, now, outcome, e);
      DecisionFromRows(loads, cursor, rows, request, now, outcome, e);
    }
  }

  class Lease {
    const candidate: Candidate
    const service: Service
    var released: bool

    constructor (candidate: Candidate, service: Service)
      ensures this.candidate == candidate && this.service == service && !released
    {
      this.candidate, this.service, released := candidate, service, false;
    }

    /** The first Release gives the slot back, unless the count is not positive; later ones do
        nothing. */
    method Release()
      modifies this, service`states
      ensures released
      ensures old(released) ==> service.states == old(service.states)
      ensures !old(released) ==>
        SameLoads(service.states, Decremented(old(service.states), candidate.account))
      ensures old(Nonnegative(service.states)) ==> Nonnegative(service.states)
    {
      if released { return; }
      released := true;
      var inFlight := service.StateLocked(candidate.account);
      if inFlight > 0 {
        service.states := service.states[candidate.account := inFlight - 1];
      }
    }
  }
}
