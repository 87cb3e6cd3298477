/**
  When an update that guesses its expected version still is linear: a token is stored at most
  once, so in runs whose earlier updates expected versions they had read, the credential
  version tells whether what the update read is still stored.
 */
module StaleUpdates {
  import opened Wrappers
  import opened AccountTable
  import opened Lifecycle
  import opened RowHistory
  import opened CredentialHistory
  import opened LinearHistory

  // ---------- a token is stored at most once ----------

  function Serial(credential: Option<Credential>): Option<nat> {
    if credential.Some? && credential.value.Token? then Some(credential.value.serial) else None
  }

  /** The token that a call has been given and has not stored yet. */
  function Held(proc: Proc): Option<nat> {
    match proc
    case Owner(_, _, Exchanged(_, rotated)) => Serial(Some(rotated))
    case Claimed(_, _, Granted(token)) => Serial(Some(token))
    case Claimed(_, _, Probed(token)) => Serial(Some(token))
    case Claimed(_, _, Rechecked(token)) => Serial(Some(token))
    case _ => None
  }

  /** What an update has read and would write back. */
  function ReadBy(proc: Proc): Option<nat> {
    if proc.UpdateReady? then Serial(proc.seen.credential) else None
  }

  /** No row and no update in flight has the token. */
  ghost predicate Unstored(s: State, serial: nat) {
    && (forall pub <- s.tables.accounts :: Serial(s.tables.accounts[pub].credential) != Some(serial))
    && (forall p <- s.procs :: ReadBy(s.procs[p]) != Some(serial))
  }

  /** The token that call `p` holds is its own. */
  ghost predicate HeldOk(s: State, p: nat)
    requires p in s.procs
  {
    Held(s.procs[p]).Some? ==>
      && Held(s.procs[p]).value < s.log.nextSerial
      && Unstored(s, Held(s.procs[p]).value)
      && forall q <- s.procs :: q != p ==> Held(s.procs[q]) != Held(s.procs[p])
  }

  ghost predicate HeldInv(s: State) {
    forall p <- s.procs :: HeldOk(s, p)
  }

  /** No token appears in a row or with an update, except the one that is written. */
  ghost predicate StoresOnly(s: State, s': State, written: Option<nat>) {
    forall x: nat | Unstored(s, x) && Some(x) != written :: Unstored(s', x)
  }

  /** Calls hold what they held, or nothing. */
  ghost predicate HoldsLess(s: State, s': State) {
    forall p <- s'.procs :: Held(s'.procs[p]).None? || (p in s.procs && Held(s'.procs[p]) == Held(s.procs[p]))
  }

  lemma LessKeeps(s: State, s': State)
    requires HeldInv(s) && s.log.nextSerial <= s'.log.nextSerial
    requires StoresOnly(s, s', None) && HoldsLess(s, s')
    ensures HeldInv(s')
  {
    forall p <- s'.procs ensures HeldOk(s', p) {
      if Held(s'.procs[p]).Some? { assert HeldOk(s, p); }
    }
  }

  /** Call `p` writes the token it holds. */
  lemma WriteKeeps(s: State, s': State, p: nat)
    requires HeldInv(s) && s.log.nextSerial <= s'.log.nextSerial
    requires p in s.procs && StoresOnly(s, s', Held(s.procs[p])) && HoldsLess(s, s')
    requires p in s'.procs ==> Held(s'.procs[p]).None?
    ensures HeldInv(s')
  {
    forall q <- s'.procs ensures HeldOk(s', q) {
      if Held(s'.procs[q]).Some? { assert HeldOk(s, q); }
    }
  }

  /** Call `p` is given a new token. */
  lemma IssueKeeps(s: State, s': State, p: nat)
    requires Inv(s) && HeldInv(s) && s'.log.nextSerial == s.log.nextSerial + 1 && s'.tables == s.tables
    requires p in s'.procs && s'.procs == s.procs[p := s'.procs[p]]
    requires Held(s'.procs[p]) == Some(s.log.nextSerial)
    ensures HeldInv(s')
  {
    NextIsUnstored(s);
    hide Inv;
    assert ReadBy(s'.procs[p]).None?;
    forall q <- s'.procs ensures HeldOk(s', q) {
      if q != p && Held(s'.procs[q]).Some? { assert HeldOk(s, q); }
      if q == p {
        forall r <- s.procs ensures Held(s.procs[r]) != Some(s.log.nextSerial) { assert HeldOk(s, r); }
      }
    }
  }

  lemma NextIsUnstored(s: State)
    requires Inv(s)
    ensures Unstored(s, s.log.nextSerial)
  {
    forall pub <- s.tables.accounts ensures Serial(s.tables.accounts[pub].credential) != Some(s.log.nextSerial) {
      assert RowOk(pub, s.tables.accounts[pub], s.log);
    }
    forall p <- s.procs ensures ReadBy(s.procs[p]) != Some(s.log.nextSerial) {
      assert ProcOk(s.tables, s.log, s.procs[p]);
    }
  }

  // ---------- the steps ----------

  lemma AdminHeld(s: State, e: AdminEvent)
    requires HeldInv(s)
    ensures HeldInv(AdminStep(s, e))
  {
    hide HeldInv;
    AdminStores(s, e);
    AdminHolds(s, e);
    hide AdminStep, StoresOnly, HoldsLess;
    LessKeeps(s, AdminStep(s, e));
  }

  lemma AdminStores(s: State, e: AdminEvent)
    ensures StoresOnly(s, AdminStep(s, e), None)
  {
  }

  lemma AdminHolds(s: State, e: AdminEvent)
    ensures HoldsLess(s, AdminStep(s, e))
  {
    hide AdminStep;
  }

  lemma ValidateHeld(s: State, e: ValidateEvent)
    requires HeldInv(s)
    ensures HeldInv(ValidateStep(s, e))
  {
    hide HeldInv, StoresOnly, HoldsLess, ValidateStep;
    ValidateStores(s, e);
    LessKeeps(s, ValidateStep(s, e));
  }

  lemma ValidateStores(s: State, e: ValidateEvent)
    ensures StoresOnly(s, ValidateStep(s, e), None) && HoldsLess(s, ValidateStep(s, e))
  {
    ValidateKeepsCredentials(s, e);
    hide ValidateStep;
  }

  lemma ValidateKeepsCredentials(s: State, e: ValidateEvent)
    ensures SameCredentials(s.tables.accounts, ValidateStep(s, e).tables.accounts)
  {
  }

  /** The credentials of all rows, and their versions, are as before. */
  ghost predicate SameCredentials(a: Accounts, b: Accounts) {
    && b.Keys == a.Keys
    && forall pub <- b :: b[pub].credential == a[pub].credential && b[pub].credentialVersion == a[pub].credentialVersion
  }

  lemma SameStores(s: State, s': State)
    requires SameCredentials(s.tables.accounts, s'.tables.accounts)
    requires forall p <- s'.procs :: ReadBy(s'.procs[p]).None? || (p in s.procs && s'.procs[p] == s.procs[p])
    ensures StoresOnly(s, s', None)
  {
  }

  lemma RefreshHeld(s: State, e: RefreshEvent)
    requires Inv(s) && HeldInv(s)
    ensures HeldInv(RefreshStep(s, e))
  {
    hide Inv, HeldInv, StoresOnly, HoldsLess, DoRefreshStore, DoRefreshReceive;
    if e.Store? {
      StoreHeld(s, e.p, e.row);
    } else if e.Receive? {
      ReceiveHeld(s, e.p);
    } else {
      hide RefreshStep;
      RefreshStores(s, e);
      LessKeeps(s, RefreshStep(s, e));
    }
  }

  lemma RefreshStores(s: State, e: RefreshEvent)
    requires !e.Store? && !e.Receive?
    ensures StoresOnly(s, RefreshStep(s, e), None) && HoldsLess(s, RefreshStep(s, e))
    ensures s.log.nextSerial <= RefreshStep(s, e).log.nextSerial
  {
    hide RefreshStep, StoresOnly, SameCredentials, HoldsLess;
    RefreshKeepsCredentials(s, e);
    RefreshHolds(s, e);
    SameStores(s, RefreshStep(s, e));
  }

  lemma RefreshKeepsCredentials(s: State, e: RefreshEvent)
    requires !e.Store?
    ensures SameCredentials(s.tables.accounts, RefreshStep(s, e).tables.accounts)
  {
  }

  lemma RefreshHolds(s: State, e: RefreshEvent)
    requires !e.Receive?
    ensures HoldsLess(s, RefreshStep(s, e)) && RefreshStep(s, e).log.nextSerial == s.log.nextSerial
  {
  }

  lemma StoreHeld(s: State, p: nat, row: nat)
    requires Inv(s) && HeldInv(s)
    ensures HeldInv(DoRefreshStore(s, p, row))
  {
    hide Inv, HeldInv, StoresOnly, HoldsLess;
    if AboutToStore(s, p, row) {
      StoreStores(s, p, row);
      hide DoRefreshStore;
      WriteKeeps(s, DoRefreshStore(s, p, row), p);
    }
  }

  lemma StoreStores(s: State, p: nat, row: nat)
    requires Inv(s) && AboutToStore(s, p, row)
    ensures
      var s' := DoRefreshStore(s, p, row);
      && StoresOnly(s, s', Held(s.procs[p])) && HoldsLess(s, s') && s'.log.nextSerial == s.log.nextSerial
      && p in s'.procs && Held(s'.procs[p]).None?
  {
    hide Inv;
  }

  lemma ReceiveHeld(s: State, p: nat)
    requires Inv(s) && HeldInv(s)
    ensures HeldInv(DoRefreshReceive(s, p))
  {
    hide Inv, HeldInv;
    if p in s.procs && s.procs[p].Owner? && s.procs[p].phase.InFlight? && s.procs[p].phase.grant.token.Token? {
      IssueKeeps(s, DoRefreshReceive(s, p), p);
    }
  }

  lemma AttemptHeld(s: State, e: AttemptEvent)
    requires Inv(s) && HeldInv(s)
    ensures HeldInv(AttemptStep(s, e))
  {
    hide Inv, HeldInv, StoresOnly, HoldsLess, DoClaimComplete, DoClaimExchange;
    if e.Complete? {
      CompleteHeld(s, e.p);
    } else if e.Exchange? {
      ExchangeHeld(s, e.p);
    } else {
      hide AttemptStep;
      AttemptHolds(s, e);
      AttemptStores(s, e);
      LessKeeps(s, AttemptStep(s, e));
    }
  }

  lemma AttemptStores(s: State, e: AttemptEvent)
    requires !e.Complete?
    ensures StoresOnly(s, AttemptStep(s, e), None)
  {
    hide AttemptStep, StoresOnly;
    SameStores(s, AttemptStep(s, e));
  }

  lemma AttemptHolds(s: State, e: AttemptEvent)
    requires !e.Exchange?
    ensures HoldsLess(s, AttemptStep(s, e)) && AttemptStep(s, e).log.nextSerial == s.log.nextSerial
  {
  }

  lemma ExchangeHeld(s: State, p: nat)
    requires Inv(s) && HeldInv(s)
    ensures HeldInv(DoClaimExchange(s, p))
  {
    hide Inv, HeldInv;
    if p in s.procs && s.procs[p].Claimed? && s.procs[p].stage.Taken? {
      IssueKeeps(s, DoClaimExchange(s, p), p);
    }
  }

  lemma CompleteHeld(s: State, p: nat)
    requires HeldInv(s)
    ensures HeldInv(DoClaimComplete(s, p))
  {
    hide HeldInv, StoresOnly, HoldsLess;
    CompleteStores(s, p);
    if Completes(s, p) {
      hide DoClaimComplete;
      WriteKeeps(s, DoClaimComplete(s, p), p);
    } else {
      hide DoClaimComplete;
      LessKeeps(s, DoClaimComplete(s, p));
    }
  }

  lemma CompleteStores(s: State, p: nat)
    ensures
      var s' := DoClaimComplete(s, p);
      && HoldsLess(s, s') && s'.log.nextSerial == s.log.nextSerial
      && StoresOnly(s, s', if Completes(s, p) then Held(s.procs[p]) else None)
      && (Completes(s, p) ==> p !in s'.procs)
  {
  }

  lemma WorldHeld(s: State, e: WorldEvent)
    requires HeldInv(s)
    ensures HeldInv(WorldStep(s, e))
  {
    hide HeldInv, StoresOnly, HoldsLess, WorldStep, SameCredentials;
    WorldKeepsCredentials(s, e);
    WorldHolds(s, e);
    SameStores(s, WorldStep(s, e));
    LessKeeps(s, WorldStep(s, e));
  }

  lemma WorldKeepsCredentials(s: State, e: WorldEvent)
    ensures SameCredentials(s.tables.accounts, WorldStep(s, e).tables.accounts)
  {
  }

  lemma WorldHolds(s: State, e: WorldEvent)
    ensures HoldsLess(s, WorldStep(s, e)) && WorldStep(s, e).log.nextSerial == s.log.nextSerial
    ensures forall p <- WorldStep(s, e).procs :: p in s.procs && WorldStep(s, e).procs[p] == s.procs[p]
  {
  }

  /** In every run, whatever its updates expected: a token that a call holds is in no row and
      with no update, and no other call holds it. */
  lemma StepKeepsHeld(s: State, e: Event)
    requires Inv(s) && HeldInv(s)
    ensures HeldInv(Step(s, e))
  {
    hide Inv, HeldInv, AdminStep, ValidateStep, RefreshStep, AttemptStep, WorldStep;
    match e
    case Admin(a) => AdminHeld(s, a);
    case Validate(v) => ValidateHeld(s, v);
    case Refresh(r) => RefreshHeld(s, r);
    case Authorize(a) => AttemptHeld(s, a);
    case World(w) => WorldHeld(s, w);
  }

  // ---------- what an update has read ----------

  /** A new credential version brings a key, or a token that was nowhere. */
  ghost predicate BringsNew(s: State, a: Accounts, b: Accounts) {
    forall pub | pub in a && pub in b && a[pub].credentialVersion != b[pub].credentialVersion ::
      IsNew(s, b[pub].credential)
  }

  ghost predicate IsNew(s: State, credential: Option<Credential>) {
    credential.Some? && (credential.value.Key? || Unstored(s, credential.value.serial))
  }

  lemma SameBringsNew(s: State, b: Accounts)
    requires SameCredentials(s.tables.accounts, b)
    ensures BringsNew(s, s.tables.accounts, b)
  {
  }

  lemma AdminBringsNew(s: State, e: AdminEvent)
    requires TablesOk(s.tables)
    ensures BringsNew(s, s.tables.accounts, AdminStep(s, e).tables.accounts)
  {
    hide Unstored;
  }

  lemma StoreBringsNew(s: State, p: nat, row: nat)
    requires Inv(s) && HeldInv(s)
    ensures BringsNew(s, s.tables.accounts, DoRefreshStore(s, p, row).tables.accounts)
  {
    hide Inv, HeldInv, Unstored;
    if AboutToStore(s, p, row) { RotatedIsNew(s, p, row); }
  }

  lemma RotatedIsNew(s: State, p: nat, row: nat)
    requires Inv(s) && HeldInv(s) && AboutToStore(s, p, row)
    ensures IsNew(s, Some(s.procs[p].phase.rotated))
  {
    assert HeldOk(s, p) && ProcOk(s.tables, s.log, s.procs[p]);
    hide Inv, HeldInv, Unstored;
  }

  lemma CompleteBringsNew(s: State, p: nat)
    requires Inv(s) && HeldInv(s)
    ensures BringsNew(s, s.tables.accounts, DoClaimComplete(s, p).tables.accounts)
  {
    hide Inv, HeldInv, Unstored;
    if Completes(s, p) { GainedIsNew(s, p); }
  }

  lemma GainedIsNew(s: State, p: nat)
    requires Inv(s) && HeldInv(s) && Completes(s, p)
    ensures IsNew(s, Some(s.procs[p].stage.token))
  {
    assert HeldOk(s, p) && ProcOk(s.tables, s.log, s.procs[p]);
    hide Inv, HeldInv, Unstored;
  }

  lemma RefreshBringsNew(s: State, e: RefreshEvent)
    requires Inv(s) && HeldInv(s)
    ensures BringsNew(s, s.tables.accounts, RefreshStep(s, e).tables.accounts)
  {
    hide Inv, HeldInv, BringsNew, SameCredentials, DoRefreshStore;
    if e.Store? {
      StoreBringsNew(s, e.p, e.row);
    } else {
      hide RefreshStep;
      RefreshKeepsCredentials(s, e);
      SameBringsNew(s, RefreshStep(s, e).tables.accounts);
    }
  }

  lemma AttemptBringsNew(s: State, e: AttemptEvent)
    requires Inv(s) && HeldInv(s)
    ensures BringsNew(s, s.tables.accounts, AttemptStep(s, e).tables.accounts)
  {
    hide Inv, HeldInv, BringsNew, DoClaimComplete;
    if e.Complete? {
      CompleteBringsNew(s, e.p);
    } else {
      hide AttemptStep;
      SameBringsNew(s, AttemptStep(s, e).tables.accounts);
    }
  }

  lemma StepBringsNew(s: State, e: Event)
    requires Inv(s) && HeldInv(s)
    ensures BringsNew(s, s.tables.accounts, Step(s, e).tables.accounts)
  {
    hide RowsOk, ProcsOk, TablesOk, HeldInv, BringsNew, SameCredentials;
    hide AdminStep, ValidateStep, RefreshStep, AttemptStep, WorldStep;
    match e
    case Admin(a) => AdminBringsNew(s, a);
    case Validate(v) =>
      ValidateKeepsCredentials(s, v);
      SameBringsNew(s, ValidateStep(s, v).tables.accounts);
    case Refresh(r) => RefreshBringsNew(s, r);
    case Authorize(a) => AttemptBringsNew(s, a);
    case World(w) =>
      WorldKeepsCredentials(s, w);
      SameBringsNew(s, WorldStep(s, w).tables.accounts);
  }

  predicate IsKey(credential: Option<Credential>) {
    credential.Some? && credential.value.Key?
  }

  /** Once the credential version has moved on, the token that an update read is not stored any
      more, and a missing credential has come. */
  predicate ReadOk(t: Tables, proc: Proc) {
    proc.UpdateReady? && proc.pub in t.accounts
    && t.accounts[proc.pub].credentialVersion != proc.seen.credentialVersion && !IsKey(proc.seen.credential) ==>
      t.accounts[proc.pub].credential != proc.seen.credential
  }

  ghost predicate ReadInv(s: State) {
    forall p <- s.procs :: ReadOk(s.tables, s.procs[p])
  }

  lemma ReadStays(s: State, s': State, p: nat)
    requires Inv(s) && ReadInv(s) && TablesEvolve(s.tables, s'.tables) && p in s.procs
    requires VersionsDetermine(s.tables.accounts, s'.tables.accounts)
    requires BringsNew(s, s.tables.accounts, s'.tables.accounts)
    ensures ReadOk(s'.tables, s.procs[p])
  {
    assert ReadOk(s.tables, s.procs[p]) && ProcOk(s.tables, s.log, s.procs[p]);
    hide Inv, ReadInv;
    if s.procs[p].UpdateReady? && s.procs[p].pub in s'.tables.accounts && s.procs[p].pub in s.tables.accounts {
      var u := s.procs[p];
      var row, later := s.tables.accounts[u.pub], s'.tables.accounts[u.pub];
      if row.credentialVersion != later.credentialVersion {
        assert IsNew(s, later.credential);
        assert ReadBy(u) == Serial(u.seen.credential);
      }
    }
  }

  /** An update that starts has read the row as it is. */
  lemma ReadStarts(s: State, e: Event, p: nat)
    requires p in Step(s, e).procs && Step(s, e).procs[p].UpdateReady?
    ensures
      || (p in s.procs && Step(s, e).procs[p] == s.procs[p])
      || ReadOk(Step(s, e).tables, Step(s, e).procs[p])
  {
    hide ValidateStep, RefreshStep, AttemptStep;
  }

  lemma StepKeepsRead(s: State, e: Event)
    requires Inv(s) && CurrentInv(s) && HeldInv(s) && ReadInv(s) && Observed(s, e)
    ensures ReadInv(Step(s, e))
  {
    hide Inv, CurrentInv, HeldInv, TablesEvolve, VersionsDetermine, BringsNew, Observed, Step, ReadOk;
    var s' := Step(s, e);
    StepKeeps(s, e);
    StepKeepsCurrent(s, e);
    StepBringsNew(s, e);
    forall p <- s'.procs ensures ReadOk(s'.tables, s'.procs[p]) {
      if s'.procs[p].UpdateReady? {
        ReadStarts(s, e, p);
        if p in s.procs && s'.procs[p] == s.procs[p] { ReadStays(s, s', p); }
      } else {
        NoRead(s'.tables, s'.procs[p]);
      }
    }
  }

  lemma NoRead(t: Tables, proc: Proc)
    requires !proc.UpdateReady?
    ensures ReadOk(t, proc)
  {
  }

  // ---------- runs ----------

  ghost predicate StaleInv(s: State) {
    Inv(s) && CurrentInv(s) && HeldInv(s) && ReadInv(s)
  }

  lemma StaleInit()
    ensures StaleInv(INIT)
  {
    InitOk();
  }

  lemma {:induction false} ObservedRunKeeps(s: State, events: seq<Event>)
    requires StaleInv(s) && ObservedRun(s, events)
    ensures StaleInv(Run(s, events))
    decreases |events|
  {
    hide Inv, CurrentInv, HeldInv, ReadInv, Observed, Step;
    if events != [] {
      StepKeeps(s, events[0]);
      StepKeepsCurrent(s, events[0]);
      StepKeepsHeld(s, events[0]);
      StepKeepsRead(s, events[0]);
      ObservedRunKeeps(Step(s, events[0]), events[1..]);
    }
  }

  /** An update without a key, whatever version it expects, that finds this version after a run
      in which every earlier update expected a version it had read. If the credential version is
      the one it read, the write is linear. Unless it read a key, the converse holds too; a key
      may have been set again meanwhile. */
  lemma {:induction false} SameVersionIsLinear(events: seq<Event>, p: nat)
    requires ObservedRun(INIT, events) && Commits(Run(INIT, events), p) && Run(INIT, events).procs[p].input.key.None?
    ensures
      var s := Run(INIT, events);
      var u := s.procs[p];
      var same := s.tables.accounts[u.pub].credentialVersion == u.seen.credentialVersion;
      var linear := LinearStep(s, Admin(UpdateCommit(p)), Step(s, Admin(UpdateCommit(p))));
      && (same ==> linear)
      && (!IsKey(u.seen.credential) ==> (linear <==> same))
  {
    hide Run, LinearStep, Inv, HeldInv, DoUpdateCommit;
    StaleInit();
    ObservedRunKeeps(INIT, events);
    var s := Run(INIT, events);
    assert CallCurrent(s.tables, s.procs[p]) && ReadOk(s.tables, s.procs[p]);
    UpdateIsLinearIff(s, p);
  }
}
