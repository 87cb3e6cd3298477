/**
  The history of an account's credential. As long as updates expect versions that were
  observed and no account is deleted under a running refresh, every write keeps the stored
  credential, rotates exactly the stored token, stores a newer fresh authorisation, or stores
  an administrator's key: a rotated refresh token is never overwritten by an older one.
 */
module CredentialHistory {
  import opened Wrappers
  import opened AccountTable
  import opened Lifecycle
  import opened RowHistory
  import opened SingleFlight

  /** At its credential version, row `source` still holds the grant's token. */
  predicate GrantCurrent(t: Tables, grant: Grant) {
    grant.source in t.accounts ==>
      && grant.credentialVersion <= t.accounts[grant.source].credentialVersion
      && (grant.credentialVersion == t.accounts[grant.source].credentialVersion ==>
            t.accounts[grant.source].credential == Some(grant.token))
  }

  predicate CallCurrent(t: Tables, proc: Proc) {
    match proc
    case UpdateReady(pub, _, seen, _) =>
      pub in t.accounts && t.accounts[pub].credentialVersion == seen.credentialVersion ==>
        t.accounts[pub].credential == seen.credential
    case Owner(_, _, phase) => HasGrant(phase) ==> GrantCurrent(t, phase.grant)
    case _ => true
  }

  ghost predicate CurrentInv(s: State) {
    forall p <- s.procs :: CallCurrent(s.tables, s.procs[p])
  }

  /** A credential version determines its credential. */
  ghost predicate VersionsDetermine(a: Accounts, b: Accounts) {
    forall pub | pub in a && pub in b ::
      a[pub].credentialVersion == b[pub].credentialVersion ==> a[pub].credential == b[pub].credential
  }

  // ---------- steps ----------

  lemma CallsCurrent(s: State, s': State)
    requires Inv(s) && CurrentInv(s) && TablesEvolve(s.tables, s'.tables)
    requires VersionsDetermine(s.tables.accounts, s'.tables.accounts)
    requires forall p <- s'.procs ::
      (p in s.procs && s'.procs[p] == s.procs[p]) || CallCurrent(s'.tables, s'.procs[p])
    ensures CurrentInv(s')
  {
    forall p <- s'.procs ensures CallCurrent(s'.tables, s'.procs[p]) {
      if p in s.procs && s'.procs[p] == s.procs[p] {
        assert CallCurrent(s.tables, s.procs[p]) && ProcOk(s.tables, s.log, s.procs[p]);
      }
    }
  }

  lemma UpdateDetermines(s: State, p: nat)
    requires Inv(s) && Observed(s, Admin(UpdateCommit(p)))
    ensures VersionsDetermine(s.tables.accounts, DoUpdateCommit(s, p).tables.accounts)
  {
    if p in s.procs && s.procs[p].UpdateReady? {
      assert ProcOk(s.tables, s.log, s.procs[p]);
    }
  }

  lemma AdminDetermines(s: State, e: AdminEvent)
    requires Inv(s) && Observed(s, Admin(e))
    ensures VersionsDetermine(s.tables.accounts, AdminStep(s, e).tables.accounts)
  {
    if e.UpdateCommit? {
      UpdateDetermines(s, e.p);
    }
    hide DoUpdateCommit, ProcsOk, RowsOk;
  }

  lemma ValidateDetermines(s: State, e: ValidateEvent)
    ensures VersionsDetermine(s.tables.accounts, ValidateStep(s, e).tables.accounts)
  {
  }

  lemma RefreshDetermines(s: State, e: RefreshEvent)
    ensures VersionsDetermine(s.tables.accounts, RefreshStep(s, e).tables.accounts)
  {
  }

  lemma AttemptDetermines(s: State, e: AttemptEvent)
    ensures VersionsDetermine(s.tables.accounts, AttemptStep(s, e).tables.accounts)
  {
  }

  lemma WorldDetermines(s: State, e: WorldEvent)
    ensures VersionsDetermine(s.tables.accounts, WorldStep(s, e).tables.accounts)
  {
  }

  lemma AdminCurrent(s: State, e: AdminEvent)
    requires Inv(s) && CurrentInv(s) && Observed(s, Admin(e))
    ensures CurrentInv(AdminStep(s, e))
  {
    var s' := AdminStep(s, e);
    AdminDetermines(s, e);
    AdminKeeps(s, e);
    assert e.UpdateRead? && e.p in s'.procs && e.p !in s.procs ==> CallCurrent(s'.tables, s'.procs[e.p]);
    hide AdminStep, Inv, TablesEvolve, VersionsDetermine;
    CallsCurrent(s, s');
  }

  lemma OtherCurrent(s: State, s': State, p: nat)
    requires Inv(s) && CurrentInv(s) && TablesEvolve(s.tables, s'.tables)
    requires VersionsDetermine(s.tables.accounts, s'.tables.accounts)
    requires MovesOne(s, s', p)
    requires s'.procs == s.procs || (p in s'.procs ==> CallCurrent(s'.tables, s'.procs[p]))
    ensures CurrentInv(s')
  {
    CallsCurrent(s, s');
  }

  lemma ReadCurrent(s: State, p: nat, source: nat)
    requires p in s.procs && s.procs[p].Owner? && !HasGrant(s.procs[p].phase)
    ensures RefreshStep(s, Read(p, source)) == DoRefreshRead(s, p, source)
    ensures DoRefreshRead(s, p, source).tables == s.tables
    ensures CallCurrent(s.tables, DoRefreshRead(s, p, source).procs[p])
  {
  }

  lemma GrantIsCurrent(s: State, p: nat)
    requires Inv(s) && CurrentInv(s) && p in s.procs && s.procs[p].Owner? && HasGrant(s.procs[p].phase)
    ensures GrantCurrent(s.tables, s.procs[p].phase.grant) && s.procs[p].phase.grant.source < s.tables.nextPub
  {
    assert CallCurrent(s.tables, s.procs[p]) && ProcOk(s.tables, s.log, s.procs[p]);
  }

  lemma CarriedCurrent(t: Tables, u: Tables, nextPub: nat, grant: Grant)
    requires GrantCurrent(t, grant) && AccountsEvolve(t.accounts, u.accounts, nextPub)
    requires grant.source < nextPub && VersionsDetermine(t.accounts, u.accounts)
    ensures GrantCurrent(u, grant)
  {
  }

  /** The new phase of a refreshing call holds a current grant. */
  lemma PhaseCurrent(s: State, e: RefreshEvent)
    requires Inv(s) && CurrentInv(s) && !EdgeEvent(e) && e.p in s.procs && s.procs[e.p].Owner?
    requires TablesEvolve(s.tables, RefreshStep(s, e).tables)
    requires VersionsDetermine(s.tables.accounts, RefreshStep(s, e).tables.accounts)
    ensures CallCurrent(RefreshStep(s, e).tables, RefreshStep(s, e).procs[e.p])
  {
    hide VersionsDetermine, Inv, CurrentInv, RefreshStep, GrantCurrent;
    if HasGrant(s.procs[e.p].phase) {
      GrantIsCurrent(s, e.p);
      CarriedCurrent(s.tables, RefreshStep(s, e).tables, s.tables.nextPub, s.procs[e.p].phase.grant);
    } else if e.Read? {
      ReadCurrent(s, e.p, e.source);
    } else {
      OnlyReadMakesGrants(s, e);
    }
  }

  lemma OnlyReadMakesGrants(s: State, e: RefreshEvent)
    requires !EdgeEvent(e) && !e.Read? && e.p in s.procs && s.procs[e.p].Owner? && !HasGrant(s.procs[e.p].phase)
    ensures !HasGrant(RefreshStep(s, e).procs[e.p].phase)
  {
  }

  lemma RefreshCurrent(s: State, e: RefreshEvent)
    requires Inv(s) && CurrentInv(s)
    ensures CurrentInv(RefreshStep(s, e))
  {
    hide RefreshStep, Inv, TablesEvolve, VersionsDetermine, CurrentInv;
    RefreshDetermines(s, e);
    RefreshKeeps(s, e);
    if !EdgeEvent(e) && e.p in s.procs && s.procs[e.p].Owner? { PhaseCurrent(s, e); }
    OtherCurrent(s, RefreshStep(s, e), e.p);
  }

  lemma StepKeepsCurrent(s: State, e: Event)
    requires Inv(s) && CurrentInv(s) && Observed(s, e)
    ensures CurrentInv(Step(s, e))
    ensures VersionsDetermine(s.tables.accounts, Step(s, e).tables.accounts)
  {
    hide Inv, TablesEvolve, VersionsDetermine, CurrentInv;
    hide AdminStep, ValidateStep, RefreshStep, AttemptStep, WorldStep;
    StepKeeps(s, e);
    match e
    case Admin(a) => AdminDetermines(s, a); AdminCurrent(s, a);
    case Validate(v) => ValidateDetermines(s, v); OtherCurrent(s, ValidateStep(s, v), v.p);
    case Refresh(r) => RefreshDetermines(s, r); RefreshCurrent(s, r);
    case Authorize(a) => AttemptDetermines(s, a); OtherCurrent(s, AttemptStep(s, a), AttemptCall(a));
    case World(w) => WorldDetermines(s, w); WorldCurrent(s, w);
  }

  lemma WorldCurrent(s: State, e: WorldEvent)
    requires Inv(s) && CurrentInv(s)
    ensures CurrentInv(WorldStep(s, e))
  {
    hide Inv, TablesEvolve, VersionsDetermine, CurrentInv, RecoverValidations, RecordUnauthorized;
    WorldDetermines(s, e);
    WorldKeeps(s, e);
    if e.Crash? {
      NoCalls(DoCrash(s));
    } else {
      OtherCurrent(s, WorldStep(s, e), if e.Abandon? then e.p else 0);
    }
  }

  lemma NoCalls(s: State)
    requires s.procs == map[]
    ensures CurrentInv(s)
  {
  }
}
