/**
  What every event writes to an OAuth attempt, when attempts come and go, and what a claim
  compares: the account version and the egress for which the attempt was made.
 */
module AttemptWrites {
  import opened Wrappers
  import opened AccountTable
  import opened Lifecycle
  import opened RowHistory
  import RowWrites

  // ---------- one attempt ----------

  /** Call `p` inserts an attempt: its account is as it was when loaded, and no exchange for it
      is unexpired. */
  predicate Inserts(s: State, p: nat, now: nat) {
    && p in s.procs && s.procs[p].AttemptReady? && s.procs[p].loaded <= now <= s.tables.clock
    && s.procs[p].pub in s.tables.accounts
    && var row := s.tables.accounts[s.procs[p].pub];
       && row.version == s.procs[p].fingerprint.version && row.auth == OAuth
       && forall n <- s.tables.attempts ::
            s.tables.attempts[n].account == row.id ==>
              !(s.tables.attempts[n].status == Exchanging && now < s.tables.attempts[n].expires)
  }

  /** Call `p` completes attempt `n`: the account is as it was when claimed and neither the
      attempt nor the account stands in the way. */
  predicate Finishes(s: State, p: nat, n: nat) {
    && p in s.procs && s.procs[p].Claimed? && s.procs[p].stage.Rechecked? && s.procs[p].claim.attempt == n
    && s.procs[p].claim.pub in s.tables.accounts && n in s.tables.attempts
    && var row, x := s.tables.accounts[s.procs[p].claim.pub], s.tables.attempts[n];
       && row.version == s.procs[p].claim.version && row.auth == OAuth && row.status != Disabled
       && x.account == row.id && x.status == Exchanging && s.tables.clock < x.expires
  }

  /** The status of attempt `n` after one event. */
  function StatusAfter(s: State, e: Event, n: nat): AttemptStatus
    requires n in s.tables.attempts
  {
    var x := s.tables.attempts[n];
    match e
    case Authorize(Insert(p, now)) =>
      if Inserts(s, p, now) && x.status == Pending && x.account == s.tables.accounts[s.procs[p].pub].id
      then Cancelled else x.status
    case Authorize(Cancel(m)) => if m == n && x.status == Pending then Cancelled else x.status
    case Authorize(Take(p)) =>
      if && p in s.procs && s.procs[p].ClaimChecked? && s.procs[p].claim.attempt == n
         && x.status == Pending && s.procs[p].claim.now < x.expires
      then Exchanging else x.status
    case Authorize(Complete(p)) => if Finishes(s, p, n) then Consumed else x.status
    case Authorize(Close(p)) =>
      if && p in s.procs && s.procs[p].Claimed? && s.procs[p].stage.Failing? && s.procs[p].claim.attempt == n
         && (x.status == Pending || x.status == Exchanging)
      then Failed else x.status
    case World(InterruptedAttempts) => if x.status == Exchanging then Failed else x.status
    case _ => x.status
  }

  /** The event removes the attempt: its account is deleted, or it has expired at a cleanup. */
  predicate Removes(s: State, e: Event, n: nat)
    requires n in s.tables.attempts
  {
    var x := s.tables.attempts[n];
    match e
    case Admin(Delete(pub, expected)) =>
      && pub in s.tables.accounts && s.tables.accounts[pub].version == expected
      && x.account == s.tables.accounts[pub].id
    case World(CleanupAttempts(now)) => now <= s.tables.clock && x.expires <= now
    case _ => false
  }

  ghost predicate Rewritten(s: State, e: Event, s': State) {
    && (forall n <- s.tables.attempts :: n != s.tables.nextAttempt ==>
          && (n in s'.tables.attempts <==> !Removes(s, e, n))
          && (n in s'.tables.attempts ==>
                s'.tables.attempts[n] == s.tables.attempts[n].(status := StatusAfter(s, e, n))))
    && (forall n <- s'.tables.attempts :: n !in s.tables.attempts ==> n == s.tables.nextAttempt)
  }

  lemma AdminRewrites(s: State, e: AdminEvent)
    ensures Rewritten(s, Admin(e), AdminStep(s, e))
  {
  }

  lemma InsertRewrites(s: State, p: nat, now: nat)
    ensures Rewritten(s, Authorize(Insert(p, now)), DoAttemptInsert(s, p, now))
  {
  }

  lemma CompleteRewrites(s: State, p: nat)
    ensures Rewritten(s, Authorize(Complete(p)), DoClaimComplete(s, p))
  {
  }

  lemma OtherAttemptRewrites(s: State, e: AttemptEvent)
    requires !e.Insert? && !e.Complete?
    ensures Rewritten(s, Authorize(e), AttemptStep(s, e))
  {
  }

  lemma AttemptRewrites(s: State, e: AttemptEvent)
    ensures Rewritten(s, Authorize(e), AttemptStep(s, e))
  {
    hide Rewritten, DoAttemptInsert, DoClaimComplete;
    match e
    case Insert(p, now) => InsertRewrites(s, p, now);
    case Complete(p) => CompleteRewrites(s, p);
    case _ => OtherAttemptRewrites(s, e);
  }

  lemma WorldRewrites(s: State, e: WorldEvent)
    ensures Rewritten(s, World(e), WorldStep(s, e))
  {
  }

  lemma OtherRewrites(s: State, e: Event)
    requires e.Validate? || e.Refresh?
    ensures Rewritten(s, e, Step(s, e))
  {
    hide ValidateStep, RefreshStep;
  }

  /** Every event leaves every attempt as said: only its status changes, and it goes only with
      its account or when it has expired. */
  lemma StepRewrites(s: State, e: Event)
    ensures Rewritten(s, e, Step(s, e))
  {
    hide Rewritten, AdminStep, ValidateStep, RefreshStep, AttemptStep, WorldStep;
    match e
    case Admin(a) => AdminRewrites(s, a);
    case Authorize(a) => AttemptRewrites(s, a);
    case World(w) => WorldRewrites(s, w);
    case _ => OtherRewrites(s, e);
  }

  /** A new attempt is pending for ten minutes and carries the fingerprint of its preparation;
      it appears exactly when nothing stands in the way. */
  lemma InsertsIff(s: State, p: nat, now: nat)
    requires s.tables.nextAttempt !in s.tables.attempts
    ensures
      var s' := Step(s, Authorize(Insert(p, now)));
      && (s.tables.nextAttempt in s'.tables.attempts <==> Inserts(s, p, now))
      && (Inserts(s, p, now) ==>
            s'.tables.attempts[s.tables.nextAttempt]
            == Attempt(s.tables.accounts[s.procs[p].pub].id, s.procs[p].fingerprint, Pending, now + 600_000))
  {
  }

  // ---------- what a claim compares ----------

  /** The account is the one the attempt was made for: same version, same upstream, and the
      versions of upstream and proxy behind it are the same. */
  predicate SameAsPrepared(t: Tables, claim: Claim, egress: Egress) {
    && RowWrites.Opens(t, claim.pub)
    && var row := t.accounts[claim.pub];
       && row.version == claim.version
       && claim.fingerprint.account == claim.pub && claim.fingerprint.version == row.version
       && claim.fingerprint.upstream == row.upstream && claim.fingerprint.egress == egress
  }

  /** Preparing an attempt records the account, its version, its upstream and the egress. */
  lemma PreparedFingerprint(s: State, p: nat, pub: nat, egress: Egress)
    requires p !in s.procs
    ensures
      var s' := Step(s, Authorize(Prepare(p, pub, egress)));
      && (p in s'.procs <==>
            && RowWrites.Opens(s.tables, pub) && s.tables.accounts[pub].auth == OAuth
            && (|| s.tables.accounts[pub].status == Draft || s.tables.accounts[pub].status == Invalid
                || s.tables.accounts[pub].status == ReauthRequired))
      && (p in s'.procs ==>
            && s'.procs[p].AttemptReady? && s'.procs[p].pub == pub
            && s'.procs[p].fingerprint.account == pub
            && s'.procs[p].fingerprint.version == s.tables.accounts[pub].version
            && s'.procs[p].fingerprint.upstream == s.tables.accounts[pub].upstream
            && s'.procs[p].fingerprint.egress == egress)
  {
  }

  /** A claim takes its fingerprint from the attempt and its version from the account. */
  lemma ClaimReads(s: State, p: nat, n: nat, pub: nat, now: nat)
    requires p !in s.procs
    ensures
      var s' := Step(s, Authorize(Select(p, n, pub, now)));
      && (p in s'.procs <==>
            && now <= s.tables.clock && n in s.tables.attempts && s.tables.attempts[n].status == Pending
            && now < s.tables.attempts[n].expires
            && pub in s.tables.accounts && s.tables.accounts[pub].id == s.tables.attempts[n].account)
      && (p in s'.procs ==>
            s'.procs[p] == ClaimRead(Claim(n, pub, s.tables.accounts[pub].version, s.tables.attempts[n].fingerprint, now)))
  {
  }

  /** Before the exchange and again before the completion, a claim goes on exactly when the
      account and its egress are as they were prepared. */
  lemma ChecksIff(s: State, p: nat, egress: Egress)
    requires p in s.procs
    ensures s.procs[p].ClaimRead? ==>
      var s' := Step(s, Authorize(Check(p, egress)));
      p in s'.procs <==> SameAsPrepared(s.tables, s.procs[p].claim, egress)
    ensures s.procs[p].Claimed? && s.procs[p].stage.Probed? ==>
      var s' := Step(s, Authorize(Recheck(p, egress)));
      && p in s'.procs && s'.procs[p].Claimed? && s'.procs[p].claim == s.procs[p].claim
      && s'.procs[p].stage
         == if SameAsPrepared(s.tables, s.procs[p].claim, egress) then Rechecked(s.procs[p].stage.token) else Failing
  {
  }

  /** Where a claim stands after one of its other events, if it still runs. */
  function ClaimAfter(s: State, e: AttemptEvent, call: Proc): Option<Proc>
    requires !e.Cancel?
  {
    match (e, call)
    case (Insert(_, now), AttemptReady(_, _, _, loaded)) => if loaded <= now <= s.tables.clock then None else Some(call)
    case (Take(_), ClaimChecked(claim, seen)) =>
      if && claim.attempt in s.tables.attempts && s.tables.attempts[claim.attempt].status == Pending
         && claim.now < s.tables.attempts[claim.attempt].expires
      then Some(Claimed(claim, seen, Taken)) else None
    case (Exchange(_), Claimed(claim, seen, Taken)) =>
      Some(Claimed(claim, seen, Granted(Token(claim.pub, s.log.nextSerial, None))))
    case (ProbeGrant(_), Claimed(claim, seen, Granted(token))) => Some(Claimed(claim, seen, Probed(token)))
    case (Drop(_), Claimed(claim, seen, _)) => Some(Claimed(claim, seen, Failing))
    case (Complete(_), Claimed(claim, seen, Rechecked(_))) =>
      if Finishes(s, e.p, claim.attempt) then None else Some(Claimed(claim, seen, Failing))
    case (Close(_), Claimed(_, _, Failing)) => None
    case _ => Some(call)
  }

  /** A claim is taken once its comparison has agreed, exchanged, probed, compared again and then
      completed, in this order; every way out passes through a close. */
  lemma ClaimMoves(s: State, e: AttemptEvent)
    requires !e.Cancel? && e.p in s.procs && !e.Check? && !e.Recheck?
    ensures RowWrites.CallOf(Step(s, Authorize(e)), e.p) == ClaimAfter(s, e, s.procs[e.p])
  {
  }

  // ---------- runs ----------

  /** At some step of the run the claim was compared with its account by `check`, and agreed. */
  ghost predicate Agreed(events: seq<Event>, claim: Claim, p: nat, again: bool) {
    exists k: nat, egress: Egress :: AgreedAt(events, claim, p, again, k, egress)
  }

  ghost predicate AgreedAt(events: seq<Event>, claim: Claim, p: nat, again: bool, k: nat, egress: Egress) {
    && k < |events|
    && events[k] == Authorize(if again then Recheck(p, egress) else Check(p, egress))
    && SameAsPrepared(Run(INIT, events[..k]).tables, claim, egress)
  }

  ghost predicate WasCompared(events: seq<Event>, p: nat, proc: Proc) {
    && (proc.ClaimChecked? || proc.Claimed? ==> Agreed(events, proc.claim, p, false))
    && (proc.Claimed? && proc.stage.Rechecked? ==> Agreed(events, proc.claim, p, true))
  }

  lemma AgreedLater(events: seq<Event>, e: Event, claim: Claim, p: nat, again: bool)
    requires Agreed(events, claim, p, again)
    ensures Agreed(events + [e], claim, p, again)
  {
    var k: nat, egress: Egress :| AgreedAt(events, claim, p, again, k, egress);
    hide SameAsPrepared, Run;
    assert (events + [e])[..k] == events[..k] && (events + [e])[k] == events[k];
    assert AgreedAt(events + [e], claim, p, again, k, egress);
  }

  lemma {:induction false} AgreesNow(events: seq<Event>, claim: Claim, p: nat, again: bool, egress: Egress)
    requires SameAsPrepared(Run(INIT, events).tables, claim, egress)
    ensures Agreed(events + [Authorize(if again then Recheck(p, egress) else Check(p, egress))], claim, p, again)
  {
    hide SameAsPrepared, Run;
    var e := Authorize(if again then Recheck(p, egress) else Check(p, egress));
    assert (events + [e])[..|events|] == events;
    assert AgreedAt(events + [e], claim, p, again, |events|, egress);
  }

  /** A call comes to its place as a claim from a comparison that agreed, or from where it was. */
  predicate Follows(s: State, e: Event, p: nat, proc: Proc) {
    && (proc.ClaimChecked? || proc.Claimed? ==>
          || (p in s.procs && (s.procs[p].ClaimChecked? || s.procs[p].Claimed?) && s.procs[p].claim == proc.claim)
          || (e.Authorize? && e.authorize.Check? && e.authorize.p == p
              && SameAsPrepared(s.tables, proc.claim, e.authorize.egress)))
    && (proc.Claimed? && proc.stage.Rechecked? ==>
          || (p in s.procs && s.procs[p] == proc)
          || (e.Authorize? && e.authorize.Recheck? && e.authorize.p == p
              && SameAsPrepared(s.tables, proc.claim, e.authorize.egress)))
  }

  lemma AttemptFollows(s: State, e: AttemptEvent, p: nat)
    requires p in AttemptStep(s, e).procs
    ensures Follows(s, Authorize(e), p, AttemptStep(s, e).procs[p])
  {
  }

  lemma WorldFollows(s: State, e: WorldEvent, p: nat)
    requires p in WorldStep(s, e).procs
    ensures p in s.procs && WorldStep(s, e).procs[p] == s.procs[p]
  {
  }

  lemma ClaimFollows(s: State, e: Event, p: nat)
    requires p in Step(s, e).procs
    ensures Follows(s, e, p, Step(s, e).procs[p])
  {
    hide AdminStep, ValidateStep, RefreshStep, AttemptStep, WorldStep, SameAsPrepared;
    match e
    case Authorize(a) => hide Follows; AttemptFollows(s, a, p);
    case World(w) => WorldFollows(s, w, p);
    case _ =>
  }

  /** No authorisation is completed unless the account and its egress were as prepared when they
      were compared before the exchange, and again after it. */
  lemma {:induction false} ClaimsWereCompared(events: seq<Event>, p: nat)
    ensures p in Run(INIT, events).procs ==> WasCompared(events, p, Run(INIT, events).procs[p])
  {
    if events != [] {
      var init, e := events[..|events| - 1], events[|events| - 1];
      assert events == init + [e];
      hide Step, SameAsPrepared, Agreed;
      RunExtend(INIT, init, e);
      var s := Run(INIT, init);
      ClaimsWereCompared(init, p);
      if p in Step(s, e).procs {
        var proc := Step(s, e).procs[p];
        ClaimFollows(s, e, p);
        assert Follows(s, e, p, proc);
        if proc.ClaimChecked? || proc.Claimed? {
          if e.Authorize? && e.authorize.Check? && e.authorize.p == p
             && SameAsPrepared(s.tables, proc.claim, e.authorize.egress) {
            AgreesNow(init, proc.claim, p, false, e.authorize.egress);
          } else {
            AgreedLater(init, e, proc.claim, p, false);
          }
          if proc.Claimed? && proc.stage.Rechecked? {
            if p in s.procs && s.procs[p] == proc {
              AgreedLater(init, e, proc.claim, p, true);
            } else {
              AgreesNow(init, proc.claim, p, true, e.authorize.egress);
            }
          }
        }
      }
    }
  }
}
