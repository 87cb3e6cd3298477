/**
  Every committed credential write, classified. The refresh statement selects its row by
  internal id, which SQLite reuses, so a refresh in flight while its account is deleted and
  another one created can write the new account's row. That is the one exception.
 */
module LinearHistory {
  import opened Wrappers
  import opened AccountTable
  import opened Lifecycle
  import opened RowHistory
  import opened SingleFlight
  import opened CredentialHistory

  // ---------- the allowed changes ----------

  /** `after` is the token that a refresh of exactly `before` returned, sealed for the account. */
  predicate Rotates(pub: nat, before: Option<Credential>, after: Option<Credential>) {
    && before.Some? && before.value.Token? && after.Some? && after.value.Token?
    && after.value.owner == pub
    && after.value.parent == Some(before.value.serial)
    && before.value.serial < after.value.serial
  }

  /** `after` is a fresh authorisation, issued after the token it replaces. */
  predicate Reauthorizes(pub: nat, before: Option<Credential>, after: Option<Credential>) {
    && after.Some? && after.value.Token?
    && after.value.owner == pub && after.value.parent.None?
    && SerialBelow(before, after.value.serial)
  }

  /** Call `p` is about to write `row` with the answer to its refresh. */
  predicate AboutToStore(s: State, p: nat, row: nat) {
    && p in s.procs && s.procs[p].Owner? && s.procs[p].phase.Exchanged?
    && RefreshSelects(s.tables.accounts, row, s.procs[p].phase.grant.candidate.id,
                      s.procs[p].phase.grant.credentialVersion)
  }

  /** Call `p` is about to complete its authorisation. */
  predicate Completes(s: State, p: nat) {
    && p in s.procs && s.procs[p].Claimed? && s.procs[p].stage.Rechecked?
    && CompleteSelects(s.tables, s.procs[p].claim.attempt, s.procs[p].claim.pub, s.procs[p].claim.version)
  }

  /** What each event may leave as the credential of account `pub`. An update stores the key it
      brings and otherwise nothing; a refresh stores the answer to the stored token; a completed
      authorisation stores its own, later token; nothing else writes a credential. */
  predicate LinearWrite(s: State, e: Event, pub: nat, after: Option<Credential>)
    requires pub in s.tables.accounts
  {
    var stored := s.tables.accounts[pub].credential;
    match e
    case Admin(UpdateCommit(p)) =>
      if Commits(s, p) && s.procs[p].pub == pub && s.procs[p].input.key.Some?
      then after == Some(Key(pub, s.procs[p].input.key.value))
      else after == stored
    case Refresh(Store(p, row)) =>
      if AboutToStore(s, p, row) && row == pub
      then after == Some(s.procs[p].phase.rotated) && Rotates(pub, stored, after)
      else after == stored
    case Authorize(Complete(p)) =>
      if Completes(s, p) && s.procs[p].claim.pub == pub
      then after == Some(s.procs[p].stage.token) && Reauthorizes(pub, stored, after)
      else after == stored
    case _ => after == stored
  }

  /** Every account that is there before and after is written linearly. */
  ghost predicate LinearStep(s: State, e: Event, s': State) {
    forall pub | pub in s.tables.accounts && pub in s'.tables.accounts ::
      LinearWrite(s, e, pub, s'.tables.accounts[pub].credential)
  }

  // ---------- one step ----------

  lemma UpdateLinear(s: State, p: nat)
    requires Inv(s) && Observed(s, Admin(UpdateCommit(p)))
    ensures LinearStep(s, Admin(UpdateCommit(p)), DoUpdateCommit(s, p))
  {
    if Commits(s, p) {
      assert ProcOk(s.tables, s.log, s.procs[p]);
    }
    hide ProcsOk, RowsOk, TablesOk;
  }

  /** Creating and deleting accounts, and the checks of an update. */
  lemma PlainLinear(s: State, e: AdminEvent)
    requires TablesOk(s.tables) && !e.UpdateCommit?
    ensures LinearStep(s, Admin(e), AdminStep(s, e))
  {
  }

  lemma AdminLinear(s: State, e: AdminEvent)
    requires Inv(s) && Observed(s, Admin(e))
    ensures LinearStep(s, Admin(e), AdminStep(s, e))
  {
    hide TablesOk, RowsOk, ProcsOk, LinearStep, Observed, DoUpdateCommit;
    if e.UpdateCommit? { UpdateLinear(s, e.p); } else { PlainLinear(s, e); }
  }

  /** An update that finds the version it expects is linear exactly when it brings a key or the
      credential that it read, and writes back, is still the stored one. */
  lemma UpdateIsLinearIff(s: State, p: nat)
    requires Commits(s, p)
    ensures
      var u := s.procs[p];
      && u.pub in DoUpdateCommit(s, p).tables.accounts
      && (LinearStep(s, Admin(UpdateCommit(p)), DoUpdateCommit(s, p)) <==>
          u.input.key.Some? || s.tables.accounts[u.pub].credential == u.seen.credential)
  {
    var u := s.procs[p];
    assert DoUpdateCommit(s, p).tables.accounts
        == s.tables.accounts[u.pub := UpdatedRow(s.tables.accounts[u.pub], u.pub, u.seen, u.input)];
  }

  lemma ValidateLinear(s: State, e: ValidateEvent)
    ensures LinearStep(s, Validate(e), ValidateStep(s, e))
  {
  }

  lemma CompleteLinear(s: State, p: nat)
    requires Inv(s)
    ensures LinearStep(s, Authorize(Complete(p)), DoClaimComplete(s, p))
  {
    hide RowsOk, TablesOk;
    if p in s.procs && s.procs[p].Claimed? {
      assert ProcOk(s.tables, s.log, s.procs[p]);
    }
    hide Inv;
  }

  lemma AttemptLinear(s: State, e: AttemptEvent)
    requires Inv(s)
    ensures LinearStep(s, Authorize(e), AttemptStep(s, e))
  {
    hide Inv, LinearStep, DoClaimComplete;
    if e.Complete? { CompleteLinear(s, e.p); } else { OtherAttemptLinear(s, e); }
  }

  lemma OtherAttemptLinear(s: State, e: AttemptEvent)
    requires !e.Complete?
    ensures LinearStep(s, Authorize(e), AttemptStep(s, e))
  {
    hide AttemptStep;
  }

  lemma WorldLinear(s: State, e: WorldEvent)
    ensures LinearStep(s, World(e), WorldStep(s, e))
  {
  }

  /** A refresh rotates the very token the row holds exactly when the row it selects still is
      the account it loaded: the internal id has not been reused since. */
  lemma StoreRotatesIff(s: State, p: nat, row: nat)
    requires Inv(s) && CurrentInv(s) && AboutToStore(s, p, row)
    ensures row in DoRefreshStore(s, p, row).tables.accounts
    ensures
      Rotates(row, s.tables.accounts[row].credential, DoRefreshStore(s, p, row).tables.accounts[row].credential)
      <==> row == s.procs[p].phase.grant.pub
  {
    assert ProcOk(s.tables, s.log, s.procs[p]) && CallCurrent(s.tables, s.procs[p]);
  }

  /** The write reaches an account other than the one loaded. */
  predicate Misdirected(s: State, e: RefreshEvent) {
    e.Store? && AboutToStore(s, e.p, e.row) && e.row != s.procs[e.p].phase.grant.pub
  }

  lemma StoreLinear(s: State, p: nat, row: nat)
    requires Inv(s) && CurrentInv(s)
    requires AboutToStore(s, p, row) ==> row == s.procs[p].phase.grant.pub
    ensures LinearStep(s, Refresh(Store(p, row)), DoRefreshStore(s, p, row))
  {
    if AboutToStore(s, p, row) {
      StoreRotatesIff(s, p, row);
    }
    hide Inv, CurrentInv;
  }

  lemma MarkLinear(s: State, p: nat, row: nat)
    ensures LinearStep(s, Refresh(Mark(p, row)), DoRefreshMark(s, p, row))
  {
  }

  /** Only Store and Mark write account rows. */
  lemma OtherRefreshWritesNothing(s: State, e: RefreshEvent)
    requires !e.Store? && !e.Mark?
    ensures RefreshStep(s, e).tables == s.tables
  {
  }

  lemma RefreshLinear(s: State, e: RefreshEvent)
    requires Inv(s) && CurrentInv(s) && !Misdirected(s, e)
    ensures LinearStep(s, Refresh(e), RefreshStep(s, e))
  {
    hide Inv, CurrentInv, DoRefreshStore, DoRefreshMark, LinearStep;
    if e.Store? {
      StoreLinear(s, e.p, e.row);
    } else if e.Mark? {
      MarkLinear(s, e.p, e.row);
    } else {
      OtherRefreshLinear(s, e);
    }
  }

  lemma OtherRefreshLinear(s: State, e: RefreshEvent)
    requires !e.Store? && !e.Mark?
    ensures LinearStep(s, Refresh(e), RefreshStep(s, e))
  {
    OtherRefreshWritesNothing(s, e);
    hide RefreshStep;
  }

  lemma StepLinear(s: State, e: Event)
    requires Inv(s) && CurrentInv(s) && Observed(s, e)
    requires e.Refresh? ==> !Misdirected(s, e.refresh)
    ensures LinearStep(s, e, Step(s, e))
  {
    hide Inv, CurrentInv, Observed, LinearStep, AdminStep, ValidateStep, RefreshStep, AttemptStep, WorldStep;
    match e
    case Admin(a) => AdminLinear(s, a);
    case Validate(v) => ValidateLinear(s, v);
    case Refresh(r) => RefreshLinear(s, r);
    case Authorize(a) => AttemptLinear(s, a);
    case World(w) => WorldLinear(s, w);
  }

  // ---------- no deletion under a running refresh ----------

  /** No account is deleted while its entry is in the refresh map. */
  predicate QuietDelete(s: State, e: Event) {
    e.Admin? && e.admin.Delete? && AtVersion(s.tables.accounts, e.admin.pub, e.admin.expected) ==>
      s.tables.accounts[e.admin.pub].id !in s.refreshes
  }

  predicate Orderly(s: State, e: Event) {
    Observed(s, e) && QuietDelete(s, e)
  }

  /** A refreshing call past its first load refreshes an account that still exists. */
  predicate AliveAt(t: Tables, proc: Proc) {
    && (proc.Owner? && proc.phase.Loaded? ==> proc.phase.pub in t.accounts)
    && (proc.Owner? && HasGrant(proc.phase) ==> proc.phase.grant.pub in t.accounts)
  }

  ghost predicate AliveInv(s: State) {
    forall p <- s.procs :: AliveAt(s.tables, s.procs[p])
  }

  ghost predicate Sealed(a: Accounts) {
    forall pub <- a :: a[pub].credential.Some? ==> a[pub].credential.value.owner == pub
  }

  lemma AliveFrame(s: State, s': State, p: nat)
    requires AliveInv(s) && s.tables.accounts.Keys <= s'.tables.accounts.Keys && MovesOne(s, s', p)
    requires s'.procs == s.procs || (p in s'.procs ==> AliveAt(s'.tables, s'.procs[p]))
    ensures AliveInv(s')
  {
    forall q <- s'.procs ensures AliveAt(s'.tables, s'.procs[q]) {
      if q in s.procs { assert AliveAt(s.tables, s.procs[q]); }
    }
  }

  lemma DeleteAlive(s: State, pub: nat, expected: nat)
    requires Inv(s) && MapInv(s) && AliveInv(s) && QuietDelete(s, Admin(Delete(pub, expected)))
    ensures AliveInv(DoDelete(s, pub, expected))
  {
    var s' := DoDelete(s, pub, expected);
    forall q <- s'.procs ensures AliveAt(s'.tables, s'.procs[q]) {
      assert AliveAt(s.tables, s.procs[q]) && JoinedOk(s, q, s.procs[q]) && ProcOk(s.tables, s.log, s.procs[q]);
    }
  }

  lemma LoadAlive(s: State, p: nat)
    requires p in s.procs && s.procs[p].Owner? && s.procs[p].phase.Entered?
    ensures AliveAt(s.tables, DoRefreshLoad(s, p).procs[p])
  {
  }

  lemma OnlyLoadLoads(s: State, e: RefreshEvent)
    requires !EdgeEvent(e) && !e.LoadAgain? && e.p in s.procs && s.procs[e.p].Owner?
    ensures RefreshStep(s, e).procs[e.p].phase.Loaded? ==>
      RefreshStep(s, e).procs[e.p].phase == s.procs[e.p].phase
  {
  }

  lemma RefreshAlive(s: State, e: RefreshEvent)
    requires AliveInv(s)
    ensures AliveInv(RefreshStep(s, e))
  {
    if EdgeEvent(e) {
      hide RefreshStep, AliveInv;
      AliveFrame(s, RefreshStep(s, e), e.p);
    } else if e.p in s.procs && s.procs[e.p].Owner? {
      assert AliveAt(s.tables, s.procs[e.p]);
      if e.LoadAgain? {
        if s.procs[e.p].phase.Entered? { LoadAlive(s, e.p); }
        hide AliveInv, DoRefreshLoad;
        AliveFrame(s, RefreshStep(s, e), e.p);
      } else {
        OnlyLoadLoads(s, e);
        hide RefreshStep, AliveInv;
        AliveFrame(s, RefreshStep(s, e), e.p);
      }
    } else {
      hide RefreshStep, AliveInv;
      AliveFrame(s, RefreshStep(s, e), e.p);
    }
  }

  lemma CreateAlive(s: State, e: AdminEvent)
    requires AliveInv(s) && !e.Delete?
    ensures AliveInv(AdminStep(s, e))
  {
    hide AliveInv;
    AliveFrame(s, AdminStep(s, e), AdminCall(e));
  }

  lemma AdminAlive(s: State, e: AdminEvent)
    requires Inv(s) && MapInv(s) && AliveInv(s) && QuietDelete(s, Admin(e))
    ensures AliveInv(AdminStep(s, e))
  {
    hide Inv, MapInv, AliveInv, DoDelete;
    match e
    case Delete(pub, expected) => DeleteAlive(s, pub, expected);
    case _ => CreateAlive(s, e);
  }

  lemma ValidateAlive(s: State, e: ValidateEvent)
    requires AliveInv(s)
    ensures AliveInv(ValidateStep(s, e))
  {
    hide ValidateStep, AliveInv;
    AliveFrame(s, ValidateStep(s, e), e.p);
  }

  lemma AuthorizeAlive(s: State, e: AttemptEvent)
    requires AliveInv(s)
    ensures AliveInv(AttemptStep(s, e))
  {
    hide AttemptStep, AliveInv;
    AliveFrame(s, AttemptStep(s, e), AttemptCall(e));
  }

  lemma WorldAlive(s: State, e: WorldEvent)
    requires AliveInv(s)
    ensures AliveInv(WorldStep(s, e))
  {
    if e.Crash? {
      assert WorldStep(s, e).procs == map[];
    } else {
      hide AliveInv;
      AliveFrame(s, WorldStep(s, e), if e.Abandon? then e.p else 0);
    }
  }

  lemma StepAlive(s: State, e: Event)
    requires FlightInv(s) && AliveInv(s) && QuietDelete(s, e)
    ensures AliveInv(Step(s, e))
  {
    hide Inv, MapInv, ExchangeInv, AliveInv, AdminStep, ValidateStep, RefreshStep, AttemptStep, WorldStep;
    match e
    case Admin(a) => AdminAlive(s, a);
    case Validate(v) => ValidateAlive(s, v);
    case Refresh(r) => RefreshAlive(s, r);
    case Authorize(a) => AuthorizeAlive(s, a);
    case World(w) => WorldAlive(s, w);
  }

  /** An account that still exists keeps its internal id to itself. */
  lemma AliveIsDirected(s: State, e: RefreshEvent)
    requires Inv(s) && AliveInv(s)
    ensures !Misdirected(s, e)
  {
    if e.Store? && AboutToStore(s, e.p, e.row) {
      assert AliveAt(s.tables, s.procs[e.p]) && ProcOk(s.tables, s.log, s.procs[e.p]);
    }
  }

  lemma WriteSealed(s: State, e: Event, pub: nat, after: Option<Credential>)
    requires pub in s.tables.accounts && LinearWrite(s, e, pub, after) && Sealed(s.tables.accounts)
    ensures after.Some? ==> after.value.owner == pub
  {
    var row := s.tables.accounts[pub];
    assert row.credential.Some? ==> row.credential.value.owner == pub;
    hide AboutToStore, Completes, Commits, Sealed;
  }

  /** A row that appears is a new account's. */
  lemma StepAdds(s: State, e: Event, pub: nat)
    requires pub in Step(s, e).tables.accounts && pub !in s.tables.accounts
    ensures
      var c := Step(s, e).tables.accounts[pub].credential;
      c.Some? ==> c.value.owner == pub
  {
    hide ValidateStep, RefreshStep, AttemptStep, WorldStep;
  }

  lemma StepSealed(s: State, e: Event)
    requires Sealed(s.tables.accounts) && LinearStep(s, e, Step(s, e))
    ensures Sealed(Step(s, e).tables.accounts)
  {
    hide Step, LinearWrite;
    var s' := Step(s, e);
    forall pub <- s'.tables.accounts
      ensures s'.tables.accounts[pub].credential.Some? ==> s'.tables.accounts[pub].credential.value.owner == pub
    {
      if pub in s.tables.accounts {
        WriteSealed(s, e, pub, s'.tables.accounts[pub].credential);
      } else {
        StepAdds(s, e, pub);
      }
    }
  }

  // ---------- every orderly run ----------

  ghost predicate OrderlyRun(s: State, events: seq<Event>)
    decreases |events|
  {
    events != [] ==> Orderly(s, events[0]) && OrderlyRun(Step(s, events[0]), events[1..])
  }

  ghost predicate LinearInv(s: State) {
    FlightInv(s) && CurrentInv(s) && AliveInv(s) && Sealed(s.tables.accounts)
  }

  lemma OrderlyStep(s: State, e: Event)
    requires LinearInv(s) && Orderly(s, e)
    ensures LinearInv(Step(s, e)) && LinearStep(s, e, Step(s, e))
  {
    hide Inv, CurrentInv, MapInv, ExchangeInv, AliveInv, Sealed, LinearStep, Step, Observed;
    StepKeepsFlight(s, e);
    StepKeepsCurrent(s, e);
    StepAlive(s, e);
    if e.Refresh? { AliveIsDirected(s, e.refresh); }
    StepLinear(s, e);
    StepSealed(s, e);
  }

  /** Every step of an orderly run writes every credential linearly, and afterwards every stored
      credential opens for its own account. */
  lemma {:induction false} HistoryIsLinear(s: State, events: seq<Event>, i: nat)
    requires LinearInv(s) && OrderlyRun(s, events) && i < |events|
    ensures
      var before := Run(s, events[..i]);
      var after := Run(s, events[..i + 1]);
      && LinearInv(before) && LinearInv(after)
      && after == Step(before, events[i]) && LinearStep(before, events[i], after)
    decreases |events|
  {
    hide Step, LinearInv, LinearStep, Orderly;
    var m := Step(s, events[0]);
    OrderlyStep(s, events[0]);
    if i == 0 {
      assert events[..0] == [] && events[..1] == [events[0]];
      assert Run(m, events[..1][1..]) == m;
    } else {
      HistoryIsLinear(m, events[1..], i - 1);
      assert events[..i][1..] == events[1..][..i - 1] && events[..i + 1][1..] == events[1..][..i];
    }
  }

  lemma LinearInit()
    ensures LinearInv(INIT)
  {
    InitOk();
  }

  /** From the empty tables on: every step of every orderly run writes every credential
      linearly, and every stored credential opens for its own account. */
  lemma {:induction false} OrderlyRunsAreLinear(events: seq<Event>, i: nat)
    requires OrderlyRun(INIT, events) && i < |events|
    ensures
      var before := Run(INIT, events[..i]);
      var after := Run(INIT, events[..i + 1]);
      LinearStep(before, events[i], after) && Sealed(before.tables.accounts) && Sealed(after.tables.accounts)
  {
    hide LinearStep, Sealed, Run, OrderlyRun;
    LinearInit();
    HistoryIsLinear(INIT, events, i);
  }
}
