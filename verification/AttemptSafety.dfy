/**
  OAuth attempts: at most one live attempt per account, terminal states are final, and an
  attempt is consumed only together with the activation of an account row that has not
  changed since the attempt was created.
 */
module AttemptSafety {
  import opened Wrappers
  import opened AccountTable
  import opened Lifecycle
  import opened RowHistory

  predicate StatusFollows(x: AttemptStatus, y: AttemptStatus) {
    match x
    case Pending => true
    case Exchanging => y in {Exchanging, Consumed, Failed}
    case _ => y == x
  }

  predicate AttemptEvolves(x: Attempt, y: Attempt) {
    y.account == x.account && y.fingerprint == x.fingerprint && y.expires == x.expires && StatusFollows(x.status, y.status)
  }

  /** Attempts follow the state machine, may be deleted, and appear under fresh ids. */
  ghost predicate AttemptsEvolve(t: Tables, u: Tables) {
    && (forall n | n in t.attempts && n in u.attempts :: AttemptEvolves(t.attempts[n], u.attempts[n]))
    && (forall n <- u.attempts :: n in t.attempts || t.nextAttempt <= n)
  }

  /** The attempt's account row exists (foreign key), under the public id of the fingerprint. */
  ghost predicate Anchored(t: Tables, n: nat)
    requires n in t.attempts
  {
    var pub := t.attempts[n].fingerprint.account;
    && n < t.nextAttempt
    && pub in t.accounts
    && t.accounts[pub].id == t.attempts[n].account
    && t.attempts[n].fingerprint.version <= t.accounts[pub].version
  }

  ghost predicate AtMostOneLive(t: Tables) {
    forall a, b | a in t.attempts && b in t.attempts && t.attempts[a].account == t.attempts[b].account ::
      Live(t.attempts[a], t.clock) && Live(t.attempts[b], t.clock) ==> a == b
  }

  ghost predicate ClaimsOk(t: Tables, claims: multiset<nat>) {
    && (forall n: nat :: claims[n] <= 1)
    && (forall n: nat :: t.nextAttempt <= n ==> claims[n] == 0)
    && (forall n <- t.attempts :: t.attempts[n].status == Pending ==> claims[n] == 0)
    && (forall n <- t.attempts :: t.attempts[n].status in {Exchanging, Consumed} ==> claims[n] == 1)
  }

  predicate AttemptSeen(t: Tables, claim: Claim) {
    && claim.attempt < t.nextAttempt
    && (claim.attempt in t.attempts ==> t.attempts[claim.attempt].fingerprint == claim.fingerprint)
  }

  predicate CallOk(t: Tables, proc: Proc) {
    match proc
    case ClaimRead(claim) => AttemptSeen(t, claim)
    case ClaimChecked(claim, _) => AttemptSeen(t, claim)
    case Claimed(claim, _, _) => AttemptSeen(t, claim)
    case _ => true
  }

  ghost predicate TableInv(t: Tables, claims: multiset<nat>) {
    && (forall n <- t.attempts :: Anchored(t, n))
    && AtMostOneLive(t)
    && ClaimsOk(t, claims)
  }

  ghost predicate AttemptInv(s: State) {
    && TableInv(s.tables, s.log.claims)
    && (forall p <- s.procs :: CallOk(s.tables, s.procs[p]))
  }

  // ---------- the attempt table ----------

  /** Rewriting attempts so that none becomes live or starts exchanging. */
  lemma FewerLive(t: Tables, u: Tables, claims: multiset<nat>)
    requires TableInv(t, claims)
    requires u.accounts == t.accounts && u.nextAttempt == t.nextAttempt
    requires forall n <- u.attempts ::
      && n in t.attempts
      && AttemptEvolves(t.attempts[n], u.attempts[n])
      && (Live(u.attempts[n], u.clock) ==> Live(t.attempts[n], t.clock))
      && (u.attempts[n].status == Exchanging ==> t.attempts[n].status == Exchanging)
      && (u.attempts[n].status == Consumed ==> t.attempts[n].status in {Exchanging, Consumed})
    ensures TableInv(u, claims) && AttemptsEvolve(t, u)
  {
    forall n <- u.attempts ensures Anchored(u, n) {
      assert Anchored(t, n);
    }
  }

  /** Account rows move forward and none is deleted. */
  lemma RowsForward(t: Tables, u: Tables, claims: multiset<nat>)
    requires TableInv(t, claims) && TablesEvolve(t, u)
    requires u.attempts == t.attempts && u.nextAttempt == t.nextAttempt && u.clock == t.clock
    requires t.accounts.Keys <= u.accounts.Keys
    ensures TableInv(u, claims) && AttemptsEvolve(t, u)
  {
    forall n <- u.attempts ensures Anchored(u, n) {
      assert Anchored(t, n);
    }
  }

  lemma TakeOne(t: Tables, claims: multiset<nat>, n: nat, now: nat)
    requires TableInv(t, claims) && ClaimSelects(t.attempts, n, now)
    ensures
      var u := t.(attempts := ClaimAttempt(t.attempts, n, now));
      TableInv(u, claims + multiset{n}) && AttemptsEvolve(t, u)
  {
    var u := t.(attempts := ClaimAttempt(t.attempts, n, now));
    forall m <- u.attempts ensures Anchored(u, m) {
      assert Anchored(t, m);
    }
    assert Anchored(t, n);
  }

  lemma EvolveSame(t: Tables)
    ensures AttemptsEvolve(t, t)
  {
  }

  /** A new attempt for an account that has no live one. */
  lemma AddOne(t: Tables, claims: multiset<nat>, x: Attempt)
    requires TableInv(t, claims) && x.status == Pending
    requires x.fingerprint.account in t.accounts && t.accounts[x.fingerprint.account].id == x.account
    requires x.fingerprint.version <= t.accounts[x.fingerprint.account].version
    requires forall n <- t.attempts | t.attempts[n].account == x.account :: !Live(t.attempts[n], t.clock)
    ensures
      var u := t.(attempts := t.attempts[t.nextAttempt := x], nextAttempt := t.nextAttempt + 1);
      TableInv(u, claims) && AttemptsEvolve(t, u)
  {
    var u := t.(attempts := t.attempts[t.nextAttempt := x], nextAttempt := t.nextAttempt + 1);
    forall n <- u.attempts ensures Anchored(u, n) {
      if n in t.attempts { assert Anchored(t, n); }
    }
    forall n <- t.attempts ensures n < t.nextAttempt { assert Anchored(t, n); }
  }

  /** The first change removes nothing and adds nothing. */
  lemma EvolveTwice(t: Tables, m: Tables, u: Tables)
    requires m.attempts.Keys == t.attempts.Keys && m.nextAttempt == t.nextAttempt
    requires AttemptsEvolve(t, m) && AttemptsEvolve(m, u)
    ensures AttemptsEvolve(t, u)
  {
    forall n | n in t.attempts && n in u.attempts ensures AttemptEvolves(t.attempts[n], u.attempts[n]) {
      assert n in m.attempts;
      assert AttemptEvolves(t.attempts[n], m.attempts[n]) && AttemptEvolves(m.attempts[n], u.attempts[n]);
    }
  }

  lemma CancelPendingOne(t: Tables, claims: multiset<nat>, account: nat, now: nat)
    requires TableInv(t, claims) && now <= t.clock
    requires forall n <- t.attempts | t.attempts[n].account == account :: !Unexpired(t.attempts[n], now)
    ensures
      var m := t.(attempts := CancelPending(t.attempts, account));
      && TableInv(m, claims) && AttemptsEvolve(t, m)
      && forall n <- m.attempts | m.attempts[n].account == account :: !Live(m.attempts[n], m.clock)
  {
    FewerLive(t, t.(attempts := CancelPending(t.attempts, account)), claims);
  }

  /** Inserting an attempt cancels what was pending, and found nothing unexpired. */
  lemma InsertOne(t: Tables, claims: multiset<nat>, pub: nat, fingerprint: Fingerprint, now: nat)
    requires TableInv(t, claims) && now <= t.clock && fingerprint.account == pub
    ensures TableInv(InsertAttempt(t, pub, fingerprint, now), claims)
    ensures AttemptsEvolve(t, InsertAttempt(t, pub, fingerprint, now))
  {
    hide TableInv, Live, Unexpired, AttemptsEvolve;
    if InsertSelects(t, pub, fingerprint.version, now) {
      var account := t.accounts[pub].id;
      var m := t.(attempts := CancelPending(t.attempts, account));
      CancelPendingOne(t, claims, account, now);
      AddOne(m, claims, Attempt(account, fingerprint, Pending, now + ATTEMPT_TTL));
      EvolveTwice(t, m, InsertAttempt(t, pub, fingerprint, now));
    } else {
      EvolveSame(t);
    }
  }

  lemma DeleteOne(t: Tables, claims: multiset<nat>, pub: nat, expected: nat)
    requires TablesOk(t) && TableInv(t, claims)
    ensures TableInv(DeleteAccount(t, pub, expected), claims)
    ensures AttemptsEvolve(t, DeleteAccount(t, pub, expected))
  {
    var u := DeleteAccount(t, pub, expected);
    forall n <- u.attempts ensures Anchored(u, n) {
      assert Anchored(t, n);
    }
  }

  lemma CompleteOne(t: Tables, claims: multiset<nat>, n: nat, pub: nat, expected: nat, token: Credential)
    requires TablesOk(t) && TableInv(t, claims)
    ensures TableInv(CompleteAuthorization(t, n, pub, expected, token), claims)
    ensures AttemptsEvolve(t, CompleteAuthorization(t, n, pub, expected, token))
  {
    if CompleteSelects(t, n, pub, expected) {
      var u := CompleteAuthorization(t, n, pub, expected, token);
      var m := t.(attempts := u.attempts);
      FewerLive(t, m, claims);
      RowsForward(m, u, claims);
    }
  }

  // ---------- steps ----------

  ghost predicate AttemptKept(s: State, s': State) {
    AttemptInv(s') && AttemptsEvolve(s.tables, s'.tables)
  }

  /** Every call is where it was, or where the step may leave it. */
  lemma CallsStay(s: State, s': State)
    requires AttemptInv(s) && AttemptsEvolve(s.tables, s'.tables) && TableInv(s'.tables, s'.log.claims)
    requires s.tables.nextAttempt <= s'.tables.nextAttempt
    requires forall q <- s'.procs :: (q in s.procs && s'.procs[q] == s.procs[q]) || CallOk(s'.tables, s'.procs[q])
    ensures AttemptKept(s, s')
  {
  }

  lemma InsertKeeps(s: State, p: nat, now: nat)
    requires Inv(s) && AttemptInv(s)
    ensures AttemptKept(s, DoAttemptInsert(s, p, now))
  {
    if p in s.procs && s.procs[p].AttemptReady? && s.procs[p].loaded <= now <= s.tables.clock {
      assert ProcOk(s.tables, s.log, s.procs[p]);
      var r := s.procs[p];
      InsertOne(s.tables, s.log.claims, r.pub, r.fingerprint, now);
      hide AttemptInv, TableInv, AttemptsEvolve, Inv;
      CallsStay(s, DoAttemptInsert(s, p, now));
    }
  }

  lemma DeleteKeepsAttempts(s: State, pub: nat, expected: nat)
    requires Inv(s) && AttemptInv(s)
    ensures AttemptKept(s, DoDelete(s, pub, expected))
  {
    DeleteOne(s.tables, s.log.claims, pub, expected);
    hide TableInv, AttemptsEvolve, Inv;
    CallsStay(s, DoDelete(s, pub, expected));
  }

  predicate Ended(x: Attempt, y: Attempt) {
    || (y == x.(status := Cancelled) && x.status == Pending)
    || (y == x.(status := Failed) && x.status in {Pending, Exchanging})
  }

  /** Cancelling, failing, recovering and dropping attempts, and the passage of time. */
  lemma FewerKeeps(s: State, s': State)
    requires Inv(s) && AttemptInv(s)
    requires s'.log == s.log && s'.procs.Keys <= s.procs.Keys && (forall q <- s'.procs :: s'.procs[q] == s.procs[q])
    requires s'.tables == s.tables.(attempts := s'.tables.attempts, clock := s'.tables.clock)
    requires s.tables.clock <= s'.tables.clock
    requires forall n <- s'.tables.attempts ::
      && n in s.tables.attempts
      && (s'.tables.attempts[n] == s.tables.attempts[n]
          || Ended(s.tables.attempts[n], s'.tables.attempts[n]))
    ensures AttemptKept(s, s')
  {
    FewerLive(s.tables, s'.tables, s.log.claims);
    CallsStay(s, s');
  }

  lemma TakeMoves(s: State, p: nat)
    requires p in s.procs && s.procs[p].ClaimChecked?
    requires ClaimSelects(s.tables.attempts, s.procs[p].claim.attempt, s.procs[p].claim.now)
    ensures
      var n := s.procs[p].claim.attempt;
      var s' := DoClaimTake(s, p);
      && s'.tables == s.tables.(attempts := ClaimAttempt(s.tables.attempts, n, s.procs[p].claim.now))
      && s'.log.claims == s.log.claims + multiset{n}
      && s'.procs == s.procs[p := Claimed(s.procs[p].claim, s.procs[p].seen, Taken)]
  {
  }

  lemma TakeWins(s: State, p: nat)
    requires AttemptInv(s) && p in s.procs && s.procs[p].ClaimChecked?
    requires ClaimSelects(s.tables.attempts, s.procs[p].claim.attempt, s.procs[p].claim.now)
    ensures AttemptKept(s, DoClaimTake(s, p))
  {
    hide TableInv, AttemptsEvolve, AttemptKept, DoClaimTake;
    assert CallOk(s.tables, s.procs[p]);
    TakeOne(s.tables, s.log.claims, s.procs[p].claim.attempt, s.procs[p].claim.now);
    TakeMoves(s, p);
    hide AttemptInv;
    CallsStay(s, DoClaimTake(s, p));
  }

  lemma TakeKeeps(s: State, p: nat)
    requires Inv(s) && AttemptInv(s)
    ensures AttemptKept(s, DoClaimTake(s, p))
  {
    hide Inv, AttemptInv, DoClaimTake, AttemptKept;
    if && p in s.procs && s.procs[p].ClaimChecked?
       && ClaimSelects(s.tables.attempts, s.procs[p].claim.attempt, s.procs[p].claim.now) {
      TakeWins(s, p);
    } else {
      TakeFails(s, p);
      FewerKeeps(s, DoClaimTake(s, p));
    }
  }

  lemma TakeFails(s: State, p: nat)
    requires !(p in s.procs && s.procs[p].ClaimChecked?
               && ClaimSelects(s.tables.attempts, s.procs[p].claim.attempt, s.procs[p].claim.now))
    ensures DoClaimTake(s, p) == s || DoClaimTake(s, p) == End(s, p)
  {
  }

  lemma CompleteKeeps(s: State, p: nat)
    requires Inv(s) && AttemptInv(s)
    ensures AttemptKept(s, DoClaimComplete(s, p))
  {
    if p in s.procs && s.procs[p].Claimed? && s.procs[p].stage.Rechecked? {
      assert CallOk(s.tables, s.procs[p]);
      var c := s.procs[p];
      if CompleteSelects(s.tables, c.claim.attempt, c.claim.pub, c.claim.version) {
        CompleteOne(s.tables, s.log.claims, c.claim.attempt, c.claim.pub, c.claim.version, c.stage.token);
        hide AttemptInv, TableInv, AttemptsEvolve, Inv, AttemptKept, TablesOk, CompleteSelects;
        CallsStay(s, DoClaimComplete(s, p));
      } else {
        CallsStay(s, DoClaimComplete(s, p));
      }
    }
  }

  /** What all other events leave alone. */
  ghost predicate AttemptsAlone(s: State, s': State) {
    && s'.tables.attempts == s.tables.attempts && s'.tables.nextAttempt == s.tables.nextAttempt
    && s'.tables.clock == s.tables.clock && s'.log.claims == s.log.claims
    && s.tables.accounts.Keys <= s'.tables.accounts.Keys
    && (forall q <- s'.procs :: (q in s.procs && s'.procs[q] == s.procs[q]) || CallOk(s.tables, s'.procs[q]))
  }

  predicate WritesAttempts(e: Event) {
    || (e.Admin? && e.admin.Delete?)
    || (e.Authorize? && (e.authorize.Insert? || e.authorize.Cancel? || e.authorize.Take?
                         || e.authorize.Complete? || e.authorize.Close?))
    || (e.World? && (e.world.Tick? || e.world.CleanupAttempts? || e.world.InterruptedAttempts?))
  }

  lemma AdminAlone(s: State, e: AdminEvent)
    requires !e.Delete?
    ensures AttemptsAlone(s, AdminStep(s, e))
  {
  }

  lemma ValidateAlone(s: State, e: ValidateEvent)
    ensures AttemptsAlone(s, ValidateStep(s, e))
  {
    hide ValidateStep;
  }

  lemma RefreshAlone(s: State, e: RefreshEvent)
    ensures AttemptsAlone(s, RefreshStep(s, e))
  {
    hide RefreshStep;
  }

  lemma AuthorizeAlone(s: State, e: AttemptEvent)
    requires AttemptInv(s) && !WritesAttempts(Authorize(e))
    ensures AttemptsAlone(s, AttemptStep(s, e))
  {
    hide AttemptInv, AttemptStep;
    ClaimMoves(s, e);
  }

  /** A claim that moves on keeps the attempt it read. */
  lemma ClaimMoves(s: State, e: AttemptEvent)
    requires AttemptInv(s) && !WritesAttempts(Authorize(e))
    ensures AttemptStep(s, e).tables == s.tables && AttemptStep(s, e).log.claims == s.log.claims
    ensures e.p in AttemptStep(s, e).procs ==> CallOk(s.tables, AttemptStep(s, e).procs[e.p])
  {
    if e.p in s.procs { assert CallOk(s.tables, s.procs[e.p]); }
    if e.Select? && e.attempt in s.tables.attempts { assert Anchored(s.tables, e.attempt); }
    hide AttemptInv;
  }

  lemma WorldAlone(s: State, e: WorldEvent)
    requires !WritesAttempts(World(e))
    ensures AttemptsAlone(s, WorldStep(s, e))
  {
  }

  lemma OtherAlone(s: State, e: Event)
    requires AttemptInv(s) && !WritesAttempts(e)
    ensures AttemptsAlone(s, Step(s, e))
  {
    hide AttemptInv, AttemptsAlone, AdminStep, ValidateStep, RefreshStep, AttemptStep, WorldStep;
    match e
    case Admin(a) => AdminAlone(s, a);
    case Validate(v) => ValidateAlone(s, v);
    case Refresh(r) => RefreshAlone(s, r);
    case Authorize(a) => AuthorizeAlone(s, a);
    case World(w) => WorldAlone(s, w);
  }

  lemma OtherKeeps(s: State, e: Event)
    requires Inv(s) && AttemptInv(s) && !WritesAttempts(e)
    ensures AttemptKept(s, Step(s, e))
  {
    hide Step, Inv;
    StepKeeps(s, e);
    OtherAlone(s, e);
    RowsForward(s.tables, Step(s, e).tables, s.log.claims);
    CallsStay(s, Step(s, e));
  }

  lemma WriteKeeps(s: State, e: AttemptEvent)
    requires Inv(s) && AttemptInv(s) && WritesAttempts(Authorize(e))
    ensures AttemptKept(s, AttemptStep(s, e))
  {
    hide Inv, AttemptInv, AttemptKept, DoAttemptInsert, DoClaimTake, DoClaimComplete;
    match e
    case Insert(p, now) => InsertKeeps(s, p, now);
    case Take(p) => TakeKeeps(s, p);
    case Complete(p) => CompleteKeeps(s, p);
    case _ => FewerKeeps(s, AttemptStep(s, e));
  }

  lemma ClockKeeps(s: State, e: WorldEvent)
    requires Inv(s) && AttemptInv(s) && WritesAttempts(World(e))
    ensures AttemptKept(s, WorldStep(s, e))
  {
    hide Inv, AttemptInv, AttemptKept, RecordUnauthorized, RecoverValidations, DoAbandon, DoCrash;
    FewerKeeps(s, WorldStep(s, e));
  }

  lemma StepKeepsAttempts(s: State, e: Event)
    requires Inv(s) && AttemptInv(s)
    ensures AttemptKept(s, Step(s, e))
  {
    hide Inv, AttemptInv, AttemptKept;
    if !WritesAttempts(e) {
      OtherKeeps(s, e);
    } else {
      match e
      case Admin(Delete(pub, expected)) => DeleteKeepsAttempts(s, pub, expected);
      case Authorize(a) => WriteKeeps(s, a);
      case World(w) => ClockKeeps(s, w);
    }
  }

  // ---------- every run ----------

  lemma AttemptInit()
    ensures AttemptInv(INIT)
  {
  }

  lemma EvolveTransitive(t: Tables, u: Tables, v: Tables)
    requires AttemptsEvolve(t, u) && AttemptsEvolve(u, v) && t.nextAttempt <= u.nextAttempt
    requires forall n <- t.attempts :: n < t.nextAttempt
    ensures AttemptsEvolve(t, v)
  {
  }

  lemma {:induction false} AttemptRun(s: State, events: seq<Event>)
    requires Inv(s) && AttemptInv(s)
    ensures AttemptKept(s, Run(s, events))
    decreases |events|
  {
    if events != [] {
      var m := Step(s, events[0]);
      StepKeeps(s, events[0]);
      StepKeepsAttempts(s, events[0]);
      AttemptRun(m, events[1..]);
      forall n <- s.tables.attempts ensures n < s.tables.nextAttempt {
        assert Anchored(s.tables, n);
      }
      EvolveTransitive(s.tables, m.tables, Run(m, events[1..]).tables);
    }
  }

  ghost function LiveAttempts(t: Tables, account: nat): set<nat> {
    set n | n in t.attempts && t.attempts[n].account == account && Live(t.attempts[n], t.clock)
  }

  /** In every reachable state, restarts included, an account has at most one attempt that is
      pending or exchanging and unexpired. */
  lemma {:induction false} OneLiveAttempt(events: seq<Event>, account: nat)
    ensures |LiveAttempts(Run(INIT, events).tables, account)| <= 1
  {
    InitOk();
    AttemptInit();
    AttemptRun(INIT, events);
    var live := LiveAttempts(Run(INIT, events).tables, account);
    if live != {} {
      var n :| n in live;
      assert live == {n};
    }
  }

  /** Consumed, failed and cancelled attempts stay as they are until their row is deleted, and
      no attempt was ever claimed twice. */
  lemma {:induction false} TerminalIsFinal(before: seq<Event>, after: seq<Event>, n: nat)
    ensures
      var s := Run(INIT, before);
      var s' := Run(INIT, before + after);
      && s'.log.claims[n] <= 1
      && (n in s.tables.attempts && n in s'.tables.attempts && Terminal(s.tables.attempts[n]) ==>
            s'.tables.attempts[n] == s.tables.attempts[n])
  {
    InitOk();
    AttemptInit();
    RunAppend(INIT, before, after);
    RunKeeps(INIT, before);
    AttemptRun(INIT, before);
    AttemptRun(Run(INIT, before), after);
  }

  ghost predicate BecomesConsumed(s: State, s': State, n: nat) {
    && n in s'.tables.attempts && s'.tables.attempts[n].status == Consumed
    && (n in s.tables.attempts ==> s.tables.attempts[n].status != Consumed)
  }

  predicate IsComplete(e: Event) {
    e.Authorize? && e.authorize.Complete?
  }

  lemma WriteConsumesNothing(s: State, e: AttemptEvent, n: nat)
    requires WritesAttempts(Authorize(e)) && !e.Complete?
    ensures !BecomesConsumed(s, AttemptStep(s, e), n)
  {
  }

  lemma DeleteConsumesNothing(s: State, pub: nat, expected: nat, n: nat)
    ensures !BecomesConsumed(s, DoDelete(s, pub, expected), n)
  {
  }

  lemma WorldConsumesNothing(s: State, e: WorldEvent, n: nat)
    requires WritesAttempts(World(e))
    ensures !BecomesConsumed(s, WorldStep(s, e), n)
  {
  }

  lemma OnlyCompletionConsumes(s: State, e: Event, n: nat)
    requires AttemptInv(s) && !IsComplete(e)
    ensures !BecomesConsumed(s, Step(s, e), n)
  {
    hide AttemptInv;
    if !WritesAttempts(e) {
      OtherAlone(s, e);
      hide Step;
    } else {
      hide AttemptStep, WorldStep, DoDelete, BecomesConsumed;
      match e
      case Admin(Delete(pub, expected)) => DeleteConsumesNothing(s, pub, expected, n);
      case Authorize(a) => WriteConsumesNothing(s, a, n);
      case World(w) => WorldConsumesNothing(s, w, n);
    }
  }

  /** Call `p` is at its commit and holds the claim of attempt `n`, whose account row is still
      the row it claimed for. */
  ghost predicate CommitsOwnClaim(s: State, p: nat, n: nat) {
    && n in s.tables.attempts && s.log.claims[n] == 1
    && p in s.procs && s.procs[p].Claimed? && s.procs[p].stage.Rechecked?
    && s.procs[p].claim.attempt == n
    && s.procs[p].claim.pub == s.tables.attempts[n].fingerprint.account
    && AtVersion(s.tables.accounts, s.procs[p].claim.pub, s.tables.attempts[n].fingerprint.version)
    && s.tables.accounts[s.procs[p].claim.pub] == s.procs[p].seen
  }

  lemma CompletionConsumesItsClaim(s: State, p: nat, n: nat)
    requires BecomesConsumed(s, DoClaimComplete(s, p), n)
    ensures p in s.procs && s.procs[p].Claimed? && s.procs[p].stage.Rechecked? && s.procs[p].claim.attempt == n
    ensures CompleteSelects(s.tables, n, s.procs[p].claim.pub, s.procs[p].claim.version)
  {
  }

  lemma SelectedIsOwn(s: State, p: nat, n: nat)
    requires Inv(s) && AttemptInv(s)
    requires p in s.procs && s.procs[p].Claimed? && s.procs[p].stage.Rechecked? && s.procs[p].claim.attempt == n
    requires CompleteSelects(s.tables, n, s.procs[p].claim.pub, s.procs[p].claim.version)
    ensures CommitsOwnClaim(s, p, n)
  {
    assert ProcOk(s.tables, s.log, s.procs[p]) && CallOk(s.tables, s.procs[p]);
    assert ClaimsOk(s.tables, s.log.claims);
    CompleteSeesItsRow(s, p);
  }

  /** The row that the commit of call `p` leaves behind. */
  function Activated(seen: Account, token: Credential): Account {
    seen.(credential := Some(token), credentialVersion := seen.credentialVersion + 1, status := Active,
          version := seen.version + 1)
  }

  lemma CompletionActivates(s: State, p: nat, n: nat)
    requires CommitsOwnClaim(s, p, n) && CompleteSelects(s.tables, n, s.procs[p].claim.pub, s.procs[p].claim.version)
    ensures DoClaimComplete(s, p).tables.accounts
         == s.tables.accounts[s.procs[p].claim.pub := Activated(s.procs[p].seen, s.procs[p].stage.token)]
  {
  }

  /** An attempt becomes consumed in one step only: the commit of the one call that claimed it,
      which activates the account with that call's token, at the version of the fingerprint and
      on the very row that was claimed. */
  lemma ConsumedByActivation(s: State, e: Event, n: nat)
    requires Inv(s) && AttemptInv(s) && BecomesConsumed(s, Step(s, e), n)
    ensures IsComplete(e) && CommitsOwnClaim(s, e.authorize.p, n)
    ensures
      var call := s.procs[e.authorize.p];
      Step(s, e).tables.accounts == s.tables.accounts[call.claim.pub := Activated(call.seen, call.stage.token)]
  {
    hide Inv, AttemptInv, AdminStep, ValidateStep, RefreshStep, WorldStep, BecomesConsumed, DoClaimComplete;
    if !IsComplete(e) {
      OnlyCompletionConsumes(s, e, n);
    } else {
      CompletionConsumesItsClaim(s, e.authorize.p, n);
      SelectedIsOwn(s, e.authorize.p, n);
      CompletionActivates(s, e.authorize.p, n);
    }
  }

  /** From any point at which the attempt exists up to the step that consumes it, the account
      row does not change at all. */
  lemma {:induction false} RowUnchangedUntilConsumed(s: State, events: seq<Event>, e: Event, n: nat)
    requires Inv(s) && AttemptInv(s) && n in s.tables.attempts
    requires BecomesConsumed(Run(s, events), Step(Run(s, events), e), n)
    ensures
      var pub := s.tables.attempts[n].fingerprint.account;
      && pub in s.tables.accounts && pub in Run(s, events).tables.accounts
      && Run(s, events).tables.accounts[pub] == s.tables.accounts[pub]
      && s.tables.accounts[pub].version == s.tables.attempts[n].fingerprint.version
  {
    RunKeeps(s, events);
    AttemptRun(s, events);
    ConsumedByActivation(Run(s, events), e, n);
    assert Anchored(s.tables, n);
  }

  lemma {:induction false} ReachableAttempts(events: seq<Event>)
    ensures Inv(Run(INIT, events)) && AttemptInv(Run(INIT, events))
  {
    InitOk();
    AttemptInit();
    RunKeeps(INIT, events);
    AttemptRun(INIT, events);
  }

  /** In every run, what consumes an attempt is the commit that activates its account. */
  lemma {:induction false} ConsumptionIsActivation(events: seq<Event>, e: Event, n: nat)
    ensures
      var s := Run(INIT, events);
      BecomesConsumed(s, Step(s, e), n) ==>
        && IsComplete(e) && CommitsOwnClaim(s, e.authorize.p, n)
        && (var call := s.procs[e.authorize.p];
            Step(s, e).tables.accounts == s.tables.accounts[call.claim.pub := Activated(call.seen, call.stage.token)])
  {
    ReachableAttempts(events);
    var s := Run(INIT, events);
    hide Run, Step, Inv, AttemptInv, BecomesConsumed;
    if BecomesConsumed(s, Step(s, e), n) { ConsumedByActivation(s, e, n); }
  }

  /** In every run, from any point at which an attempt exists up to the step that consumes it,
      its account row is the one of the attempt's fingerprint and does not change at all. */
  lemma {:induction false} RowUnchangedInEveryRun(before: seq<Event>, after: seq<Event>, e: Event, n: nat)
    ensures
      var s := Run(INIT, before);
      var t := Run(INIT, before + after);
      n in s.tables.attempts && BecomesConsumed(t, Step(t, e), n) ==>
        var pub := s.tables.attempts[n].fingerprint.account;
        && pub in s.tables.accounts && pub in t.tables.accounts
        && t.tables.accounts[pub] == s.tables.accounts[pub]
        && s.tables.accounts[pub].version == s.tables.attempts[n].fingerprint.version
  {
    ReachableAttempts(before);
    RunAppend(INIT, before, after);
    var s, t := Run(INIT, before), Run(INIT, before + after);
    hide Run, Step, Inv, AttemptInv, BecomesConsumed;
    if n in s.tables.attempts && BecomesConsumed(t, Step(t, e), n) { RowUnchangedUntilConsumed(s, after, e, n); }
  }
}
