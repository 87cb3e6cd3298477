/**
  What the account scheduler decides: why a candidate is filtered, which of the rest are
  best, and which of those is next in turn.
 */
module Routing {
  import opened Wrappers
  import opened AccountTable

  datatype Candidate = Candidate(route: nat, account: nat, priority: int, maxConcurrency: int, oauth: bool, provider: string)

  /** A row of the route query. */
  datatype Loaded = Loaded(
    candidate: Candidate,
    routeEnabled: bool,
    candidateEnabled: bool,
    upstreamEnabled: bool,
    proxyEnabled: Option<bool>,
    status: AccountStatus,
    hasCredential: bool,
    credentialExpiry: Option<int>,
    protocols: set<string>,
    capabilities: set<string>,
    cooldownUntil: Option<int>,
    quotaResetAt: Option<int>)

  datatype Request = Request(protocol: string, capabilities: set<string>)

  datatype Reason =
    | UpstreamUnavailable
    | CapabilityNotSupported
    | NeedsReauth
    | AccountDisabled
    | QuotaLimited
    | AccountCooldown
    | AllSaturated
    | LowerPriority

  // ---------- filtering ----------

  predicate ProtocolMatches(values: set<string>, requested: string, provider: string) {
    requested in values || (requested == "openai" && provider == "xai" && "xai" in values)
  }

  predicate Later(t: Option<int>, now: int) {
    t.Some? && t.value > now
  }

  /** Why a row is no candidate, if it is none. */
  function FilterReason(l: Loaded, request: Request, now: int): Option<Reason> {
    if !l.routeEnabled || !l.candidateEnabled || !l.upstreamEnabled then Some(UpstreamUnavailable)
    else if l.proxyEnabled == Some(false) then Some(UpstreamUnavailable)
    else if !ProtocolMatches(l.protocols, request.protocol, l.candidate.provider)
            || !(request.capabilities <= l.capabilities)
    then Some(CapabilityNotSupported)
    else if l.status == ReauthRequired || l.status == Invalid then Some(NeedsReauth)
    else if l.status != Active then Some(AccountDisabled)
    else if !l.hasCredential then Some(NeedsReauth)
    else if l.credentialExpiry.Some? && l.credentialExpiry.value <= now && !l.candidate.oauth then Some(NeedsReauth)
    else if Later(l.quotaResetAt, now) then Some(QuotaLimited)
    else if Later(l.cooldownUntil, now) then Some(AccountCooldown)
    else None
  }

  predicate Eligible(l: Loaded, request: Request, now: int) {
    FilterReason(l, request, now).None?
  }

  /** The eligible candidates in route order. */
  function EligibleOf(rows: seq<Loaded>, request: Request, now: int): seq<Candidate> {
    if rows == [] then []
    else
      var init, last := EligibleOf(rows[..|rows| - 1], request, now), rows[|rows| - 1];
      if Eligible(last, request, now) then init + [last.candidate] else init
  }

  /** Who is filtered, by reason. */
  function FilteredOf(rows: seq<Loaded>, request: Request, now: int): multiset<Reason> {
    if rows == [] then multiset{}
    else
      var init, reason := FilteredOf(rows[..|rows| - 1], request, now), FilterReason(rows[|rows| - 1], request, now);
      if reason.Some? then init + multiset{reason.value} else init
  }

  // ---------- the conditions one by one ----------

  /** The route, the candidate, the upstream and the proxy, if there is one, are switched on. */
  predicate Enabled(l: Loaded) {
    && l.routeEnabled && l.candidateEnabled && l.upstreamEnabled
    && (l.proxyEnabled.Some? ==> l.proxyEnabled.value)
  }

  /** The candidate speaks the protocol, where an xAI upstream that speaks xAI also speaks OpenAI,
      and has every capability that is required. */
  predicate Supports(l: Loaded, request: Request) {
    && (if request.protocol == "openai" && l.candidate.provider == "xai"
        then "openai" in l.protocols || "xai" in l.protocols
        else request.protocol in l.protocols)
    && forall c <- request.capabilities :: c in l.capabilities
  }

  /** A credential is stored and has not expired; a refresh can still save an OAuth one. */
  predicate HoldsCredential(l: Loaded, now: int) {
    l.hasCredential && (l.candidate.oauth || (l.credentialExpiry.Some? ==> now < l.credentialExpiry.value))
  }

  predicate QuotaRuns(l: Loaded, now: int) {
    l.quotaResetAt.Some? && now < l.quotaResetAt.value
  }

  predicate CoolsDown(l: Loaded, now: int) {
    l.cooldownUntil.Some? && now < l.cooldownUntil.value
  }

  /** What a plan demands of a candidate, in no order. */
  predicate Usable(l: Loaded, request: Request, now: int) {
    && Enabled(l) && Supports(l, request) && l.status == Active && HoldsCredential(l, now)
    && !QuotaRuns(l, now) && !CoolsDown(l, now)
  }

  /** For which reason a candidate is not usable. */
  predicate Because(l: Loaded, request: Request, now: int, reason: Reason) {
    match reason
    case UpstreamUnavailable => !Enabled(l)
    case CapabilityNotSupported => Enabled(l) && !Supports(l, request)
    case NeedsReauth =>
      && Enabled(l) && Supports(l, request)
      && (l.status == ReauthRequired || l.status == Invalid || (l.status == Active && !HoldsCredential(l, now)))
    case AccountDisabled =>
      && Enabled(l) && Supports(l, request)
      && (l.status == Draft || l.status == Validating || l.status == Disabled)
    case QuotaLimited =>
      Enabled(l) && Supports(l, request) && l.status == Active && HoldsCredential(l, now) && QuotaRuns(l, now)
    case AccountCooldown =>
      && Enabled(l) && Supports(l, request) && l.status == Active && HoldsCredential(l, now)
      && !QuotaRuns(l, now) && CoolsDown(l, now)
    case AllSaturated => false
    case LowerPriority => false
  }

  /** The filter passes exactly the usable candidates, and names the reason of every other. */
  lemma ReasonIff(l: Loaded, request: Request, now: int, reason: Reason)
    ensures FilterReason(l, request, now) == Some(reason) <==> Because(l, request, now, reason)
    ensures Eligible(l, request, now) <==> Usable(l, request, now)
  {
  }

  /** The usable candidates in route order. */
  function UsableOf(rows: seq<Loaded>, request: Request, now: int): seq<Candidate> {
    if rows == [] then []
    else UsableOf(rows[..|rows| - 1], request, now)
         + if Usable(rows[|rows| - 1], request, now) then [rows[|rows| - 1].candidate] else []
  }

  /** How many candidates are not usable for the reason. */
  function HowMany(rows: seq<Loaded>, request: Request, now: int, reason: Reason): nat {
    if rows == [] then 0
    else HowMany(rows[..|rows| - 1], request, now, reason)
         + if Because(rows[|rows| - 1], request, now, reason) then 1 else 0
  }

  /** The filter over all rows: the usable ones in order, and a count for every reason. */
  lemma {:induction false} FilterCounts(rows: seq<Loaded>, request: Request, now: int, reason: Reason)
    ensures EligibleOf(rows, request, now) == UsableOf(rows, request, now)
    ensures FilteredOf(rows, request, now)[reason] == HowMany(rows, request, now, reason)
  {
    hide FilterReason, Usable, Because, Eligible;
    if rows != [] {
      FilterCounts(rows[..|rows| - 1], request, now, reason);
      var last := rows[|rows| - 1];
      ReasonIff(last, request, now, reason);
      var r := FilterReason(last, request, now);
      if r.Some? { ReasonIff(last, request, now, r.value); }
      EligibleHasNoReason(last, request, now);
    }
  }

  lemma EligibleHasNoReason(l: Loaded, request: Request, now: int)
    ensures Eligible(l, request, now) <==> FilterReason(l, request, now).None?
  {
  }

  lemma {:induction false} HowManyIff(rows: seq<Loaded>, request: Request, now: int, reason: Reason)
    ensures HowMany(rows, request, now, reason) > 0 <==> exists l <- rows :: Because(l, request, now, reason)
  {
    hide Because;
    if rows != [] {
      var init, last := rows[..|rows| - 1], rows[|rows| - 1];
      HowManyIff(init, request, now, reason);
      assert last in rows;
      if l :| l in rows && Because(l, request, now, reason) { assert l in init || l == last; }
      if l :| l in init && Because(l, request, now, reason) { assert l in rows; }
    }
  }

  // ---------- the best candidates ----------

  type Loads = map<nat, int>

  /** Calls in flight for an account. */
  function InFlight(loads: Loads, account: nat): int {
    if account in loads then loads[account] else 0
  }

  ghost predicate Nonnegative(loads: Loads) {
    forall account <- loads :: 0 <= loads[account]
  }

  predicate Free(loads: Loads, c: Candidate) {
    InFlight(loads, c.account) < c.maxConcurrency
  }

  /** The load of `c` as a fraction of its limit is below that of `d`. */
  predicate Lighter(loads: Loads, c: Candidate, d: Candidate) {
    InFlight(loads, c.account) * d.maxConcurrency < InFlight(loads, d.account) * c.maxConcurrency
  }

  /** A free candidate of the best priority among the free, with the least load there. */
  ghost predicate Best(loads: Loads, all: seq<Candidate>, c: Candidate) {
    && Free(loads, c)
    && forall d <- all ::
         Free(loads, d) ==>
           && c.priority <= d.priority
           && (c.priority == d.priority ==> !Lighter(loads, d, c))
  }

  function Select<T>(s: seq<T>, keep: T -> bool): (r: seq<T>)
    ensures |r| <= |s|
  {
    if s == [] then []
    else
      var init, last := Select(s[..|s| - 1], keep), s[|s| - 1];
      if keep(last) then init + [last] else init
  }

  lemma {:induction false} SelectIn<T>(s: seq<T>, keep: T -> bool, x: T)
    ensures x in Select(s, keep) <==> x in s && keep(x)
  {
    if s != [] {
      SelectIn(s[..|s| - 1], keep, x);
      assert s == s[..|s| - 1] + [s[|s| - 1]];
    }
  }

  lemma {:induction false} SelectAgrees<T>(s: seq<T>, p: T -> bool, q: T -> bool)
    requires forall x <- s :: p(x) == q(x)
    ensures Select(s, p) == Select(s, q)
  {
    if s != [] { SelectAgrees(s[..|s| - 1], p, q); }
  }

  lemma SelectNext<T>(s: seq<T>, keep: T -> bool, i: nat)
    requires i < |s|
    ensures Select(s[..i + 1], keep) == if keep(s[i]) then Select(s[..i], keep) + [s[i]] else Select(s[..i], keep)
  {
    assert s[..i + 1][..i] == s[..i];
  }

  function Both<T>(p: T -> bool, q: T -> bool): T -> bool {
    x => p(x) && q(x)
  }

  /** Selecting twice is selecting by both conditions. */
  lemma {:induction false} SelectTwice<T>(s: seq<T>, p: T -> bool, q: T -> bool)
    ensures Select(Select(s, p), q) == Select(s, Both(p, q))
  {
    if s != [] {
      var init, last := s[..|s| - 1], s[|s| - 1];
      SelectTwice(init, p, q);
      if p(last) {
        var t := Select(init, p);
        assert (t + [last])[..|t|] == t;
      }
    }
  }

  // ---------- the three stages ----------

  function IsFree(loads: Loads): Candidate -> bool {
    c => Free(loads, c)
  }

  function HasPriority(priority: int): Candidate -> bool {
    (c: Candidate) => c.priority == priority
  }

  ghost function IsLightest(loads: Loads, list: seq<Candidate>): Candidate -> bool {
    c => Lightest(loads, list, c)
  }

  ghost function IsBest(loads: Loads, all: seq<Candidate>): Candidate -> bool {
    c => Best(loads, all, c)
  }

  function WithCapacity(loads: Loads, list: seq<Candidate>): seq<Candidate> {
    Select(list, IsFree(loads))
  }

  ghost predicate IsMinPriority(list: seq<Candidate>, priority: int) {
    && (exists c <- list :: c.priority == priority)
    && (forall c <- list :: priority <= c.priority)
  }

  function Tier(list: seq<Candidate>, priority: int): seq<Candidate> {
    Select(list, HasPriority(priority))
  }

  ghost predicate Lightest(loads: Loads, list: seq<Candidate>, c: Candidate) {
    forall d <- list :: !Lighter(loads, d, c)
  }

  /** The candidates among which the cursor rotates: all the best, in route order. */
  ghost function Available(loads: Loads, eligible: seq<Candidate>): seq<Candidate> {
    Select(eligible, IsBest(loads, eligible))
  }

  /** Candidates within their limits have positive limits, so loads compare like fractions. */
  predicate Bounded(loads: Loads, list: seq<Candidate>) {
    forall c <- list :: 0 <= InFlight(loads, c.account) < c.maxConcurrency
  }

  lemma LighterTransitive(loads: Loads, a: Candidate, b: Candidate, c: Candidate)
    requires Bounded(loads, [a, b, c])
    ensures !Lighter(loads, b, a) && !Lighter(loads, c, b) ==> !Lighter(loads, c, a)
  {
    assert a in [a, b, c] && b in [a, b, c] && c in [a, b, c];
    if !Lighter(loads, b, a) && !Lighter(loads, c, b) {
      FractionsChain(InFlight(loads, a.account), a.maxConcurrency, InFlight(loads, b.account), b.maxConcurrency,
                     InFlight(loads, c.account), c.maxConcurrency);
    }
  }

  /** p/q <= r/s and r/s <= t/u give p/q <= t/u, without division. */
  lemma FractionsChain(p: int, q: int, r: int, s: int, t: int, u: int)
    requires 0 <= p < q && 0 <= r < s && 0 <= t < u
    requires p * s <= r * q && r * u <= t * s
    ensures p * u <= t * q
  {
    calc <= {
      (p * u) * s;
      { assert (p * u) * s == (p * s) * u; Monotone(p * s, r * q, u); }
      (r * q) * u;
      { assert (r * q) * u == (r * u) * q; Monotone(r * u, t * s, q); }
      (t * s) * q;
    }
    assert (t * s) * q == (t * q) * s;
    if p * u > t * q { Monotone(t * q + 1, p * u, s); }
  }

  lemma Monotone(x: int, y: int, z: int)
    requires x <= y && 0 <= z
    ensures x * z <= y * z
  {
  }

  /** Some candidate has the least load. */
  lemma {:induction false} LightestExists(loads: Loads, list: seq<Candidate>) returns (best: Candidate)
    requires list != [] && Bounded(loads, list)
    ensures best in list && Lightest(loads, list, best)
  {
    var init, last := list[..|list| - 1], list[|list| - 1];
    if init == [] {
      best := last;
    } else {
      assert forall c <- init :: c in list;
      best := LightestExists(loads, init);
      var earlier := best;
      if Lighter(loads, last, best) { best := last; }
      forall d <- list ensures !Lighter(loads, d, best) {
        assert d == last || d in init;
        assert last in list && earlier in list;
        if d != last { LighterTransitive(loads, best, earlier, d); }
      }
    }
  }

  function TierOf(loads: Loads, eligible: seq<Candidate>, priority: int): seq<Candidate> {
    Tier(WithCapacity(loads, eligible), priority)
  }

  lemma FreeIn(loads: Loads, eligible: seq<Candidate>, c: Candidate)
    ensures c in WithCapacity(loads, eligible) <==> c in eligible && Free(loads, c)
  {
    SelectIn(eligible, IsFree(loads), c);
  }

  lemma TierIn(loads: Loads, eligible: seq<Candidate>, priority: int, c: Candidate)
    ensures c in TierOf(loads, eligible, priority) <==> c in eligible && Free(loads, c) && c.priority == priority
  {
    FreeIn(loads, eligible, c);
    SelectIn(WithCapacity(loads, eligible), HasPriority(priority), c);
  }

  /** Being of the best tier and lightest there is being best. */
  lemma BestIff(loads: Loads, eligible: seq<Candidate>, priority: int, c: Candidate)
    requires IsMinPriority(WithCapacity(loads, eligible), priority) && c in eligible
    ensures
      Best(loads, eligible, c)
      <==> Free(loads, c) && c.priority == priority && Lightest(loads, TierOf(loads, eligible, priority), c)
  {
    var free, tier := WithCapacity(loads, eligible), TierOf(loads, eligible, priority);
    hide WithCapacity, TierOf, Tier, Free, Lighter;
    forall d: Candidate ensures d in free <==> d in eligible && Free(loads, d) { FreeIn(loads, eligible, d); }
    forall d: Candidate ensures d in tier <==> d in eligible && Free(loads, d) && d.priority == priority {
      TierIn(loads, eligible, priority, d);
    }
    var first :| first in free && first.priority == priority;
  }

  lemma StagesSelect(loads: Loads, eligible: seq<Candidate>, priority: int)
    requires IsMinPriority(WithCapacity(loads, eligible), priority)
    ensures
      var tier := TierOf(loads, eligible, priority);
      Select(tier, IsLightest(loads, tier)) == Available(loads, eligible)
  {
    var tier := TierOf(loads, eligible, priority);
    var both := Both(IsFree(loads), HasPriority(priority));
    SelectTwice(eligible, IsFree(loads), HasPriority(priority));
    SelectTwice(eligible, both, IsLightest(loads, tier));
    var all := Both(both, IsLightest(loads, tier));
    forall c <- eligible ensures all(c) == IsBest(loads, eligible)(c) { BestIff(loads, eligible, priority, c); }
    hide Best, Lightest, Free;
    SelectAgrees(eligible, all, IsBest(loads, eligible));
  }

  /** The three stages keep exactly the best candidates, in route order, and at least one. */
  lemma StagesFindTheBest(loads: Loads, eligible: seq<Candidate>, priority: int)
    requires Nonnegative(loads)
    requires IsMinPriority(WithCapacity(loads, eligible), priority)
    ensures
      var tier := TierOf(loads, eligible, priority);
      && Select(tier, IsLightest(loads, tier)) == Available(loads, eligible)
      && Available(loads, eligible) != []
  {
    var tier := TierOf(loads, eligible, priority);
    StagesSelect(loads, eligible, priority);
    var c :| c in WithCapacity(loads, eligible) && c.priority == priority;
    FreeIn(loads, eligible, c);
    TierIn(loads, eligible, priority, c);
    forall d <- tier ensures Free(loads, d) { TierIn(loads, eligible, priority, d); }
    hide Available, TierOf, WithCapacity, Lightest;
    var best := LightestExists(loads, tier);
    SelectIn(tier, IsLightest(loads, tier), best);
  }
}
