/**
  Runs from the empty tables. Three show why the linear history needs its assumptions, that an
  expected version was read before and that no account is deleted under a running refresh. One
  activates a disabled account by a validation, and one locks an account out by an update that
  passes every check.
 */
module LifecycleLimits {
  import opened Wrappers
  import opened AccountTable
  import opened Lifecycle
  import opened LinearHistory
  import opened SequentialRuns

  const EGRESS: Egress := Egress(0, None)

  const CREATE: Event := Admin(Create(1, OAuth, 0, None, None, Draft))

  predicate IsUpdate(e: Event) {
    e.Admin? && (e.admin.UpdateRead? || e.admin.UpdateCommit?)
  }

  predicate IsCommit(e: Event) {
    e.Admin? && e.admin.UpdateCommit?
  }

  predicate IsDelete(e: Event) {
    e.Admin? && e.admin.Delete?
  }

  function DraftRow(pub: nat): Account {
    NewAccount(pub, 1, OAuth, 0, None, None, Draft)
  }

  function ConnectedRow(pub: nat, serial: nat): Account {
    DraftRow(pub).(credential := Some(Token(pub, serial, None)), credentialVersion := 2, status := Active, version := 2)
  }

  /** One OAuth draft, account 0. */
  function OneDraft(): State {
    INIT.(tables := Tables(map[0 := DraftRow(0)], map[], map[0 := 1], 1, 0, 0))
  }

  lemma {:induction false} FirstCreate()
    ensures Run(INIT, [CREATE]) == OneDraft()
  {
    assert NextRowId(INIT.tables.accounts, 1);
    assert AdminStep(INIT, CREATE.admin) == OneDraft();
    assert Run(INIT, [CREATE]) == Run(Step(INIT, CREATE), []);
  }

  // ---------- a refresh of account 0 waits for its write ----------

  /** Account 0 is connected with the server's token 0. */
  function Connected(): State {
    var attempt := Attempt(1, EgressFingerprint(0, DraftRow(0), EGRESS), Consumed, ATTEMPT_TTL);
    OneDraft().(tables := Tables(map[0 := ConnectedRow(0, 0)], map[0 := attempt], map[0 := 1], 1, 1, 0),
                log := INIT.log.(nextSerial := 1, claims := multiset{0}))
  }

  lemma DraftConnects()
    ensures Authorizable(OneDraft(), 1, 0)
    ensures AfterAuthorization(OneDraft(), 0, EGRESS) == Connected()
  {
    assert CancelPending(map[], 1) == map[];
  }

  /** Call 2 holds the server's answer to its refresh of account 0. */
  function Answered0(): State {
    AfterAnswer(Connected(), 2, 0)
  }

  function SetUp(): seq<Event> {
    [CREATE] + AuthorizationEvents(1, 0, 0, EGRESS, 0) + GrantEvents(2, 0)
  }

  lemma {:induction false} SetUpRuns()
    ensures Run(INIT, SetUp()) == Answered0()
  {
    FirstCreate();
    DraftConnects();
    AuthorizationRuns(OneDraft(), 1, 0, EGRESS);
    assert Refreshable(Connected(), 2, 0);
    GrantRuns(Connected(), 2, 0);
    hide Run, AfterAnswer, AfterAuthorization, Connected, Authorizable, Refreshable, AuthorizationEvents, GrantEvents;
    ThreeRuns(INIT, [CREATE], AuthorizationEvents(1, 0, 0, EGRESS, 0), GrantEvents(2, 0));
  }

  lemma NoUpdateInSetUp()
    ensures forall e <- SetUp() :: !IsUpdate(e) && !IsDelete(e)
  {
  }

  // ---------- a reused row id ----------

  /** Account 0 is gone; account 1 has its internal id. */
  function Replaced(): State {
    Answered0().(tables := Tables(map[1 := DraftRow(1)], map[], map[0 := 1, 1 := 1], 2, 1, 0))
  }

  lemma DeleteEmpties()
    ensures DoDelete(Answered0(), 0, 2) == Answered0().(tables := Tables(map[], map[], map[0 := 1], 1, 1, 0))
  {
  }

  lemma CreateReplaces()
    ensures
      var m := Answered0().(tables := Tables(map[], map[], map[0 := 1], 1, 1, 0));
      DoCreate(m, 1, OAuth, 0, None, None, Draft) == Replaced()
  {
    assert NextRowId(map[], 1);
    hide AfterAnswer;
  }

  lemma {:induction false} ReplaceRuns()
    ensures Run(Answered0(), [Admin(Delete(0, 2)), CREATE]) == Replaced()
  {
    hide Run, DoDelete, DoCreate, Replaced, Answered0;
    DeleteEmpties();
    CreateReplaces();
    TwoSteps(Answered0(), Admin(Delete(0, 2)), CREATE);
  }

  lemma ReplacedConnects()
    ensures Authorizable(Replaced(), 3, 1)
    ensures AfterAuthorization(Replaced(), 1, EGRESS).tables.accounts == map[1 := ConnectedRow(1, 2)]
  {
  }

  function ReuseEvents(): seq<Event> {
    SetUp() + [Admin(Delete(0, 2)), CREATE] + AuthorizationEvents(3, 1, 1, EGRESS, 0)
  }

  lemma {:induction false} ReuseRuns()
    ensures Run(INIT, ReuseEvents()) == AfterAuthorization(Replaced(), 1, EGRESS)
  {
    assert Replaced().tables.nextAttempt == 1 && Replaced().tables.clock == 0;
    hide Run, AfterAuthorization, Replaced, Answered0, SetUp, AuthorizationEvents, Authorizable;
    SetUpRuns();
    ReplaceRuns();
    ReplacedConnects();
    AuthorizationRuns(Replaced(), 3, 1, EGRESS);
    ThreeRuns(INIT, SetUp(), [Admin(Delete(0, 2)), CREATE], AuthorizationEvents(3, 1, 1, EGRESS, 0));
  }

  lemma NoUpdateThere()
    ensures forall e <- ReuseEvents() :: !IsUpdate(e)
  {
    NoUpdateInSetUp();
    hide SetUp;
  }

  lemma StoreGoesAstray()
    ensures
      DoRefreshStore(AfterAuthorization(Replaced(), 1, EGRESS), 2, 1).tables.accounts
      == map[1 := ConnectedRow(1, 2).(credential := Some(Token(0, 1, Some(0))), credentialVersion := 3, version := 3)]
  {
    ReplacedConnects();
    var s := AfterAuthorization(Replaced(), 1, EGRESS);
    assert 2 in s.procs && s.procs[2] == Owner(0, 1, Exchanged(GrantOf(Connected(), 0), Token(0, 1, Some(0))));
    hide AfterAuthorization, Replaced, Authorizable;
  }

  /** A run without a single update in which a refresh of account 0, deleted meanwhile, takes
      the row of account 1, which has inherited its internal id: the envelope stored there was
      sealed for account 0 and does not open for account 1. */
  lemma {:induction false} ReusedIdMisdirectsARefresh()
    ensures forall e <- ReuseEvents() :: !IsUpdate(e)
    ensures
      var before := Run(INIT, ReuseEvents()).tables.accounts;
      var after := Run(INIT, ReuseEvents() + [Refresh(Store(2, 1))]).tables.accounts;
      && 1 in before && before[1].credential == Some(Token(1, 2, None)) && Loadable(1, before[1])
      && 1 in after && after[1].credential == Some(Token(0, 1, Some(0))) && !Loadable(1, after[1])
      && after[1].status == Active
  {
    hide Run, ReuseEvents, DoRefreshStore, AfterAuthorization, Replaced, Authorizable;
    NoUpdateThere();
    ReuseRuns();
    StoreGoesAstray();
    ReplacedConnects();
    RunExtend(INIT, ReuseEvents(), Refresh(Store(2, 1)));
  }

  // ---------- an expected version from the future ----------

  const STALE: UpdateInput := UpdateInput(None, 0, None, None, Draft)

  /** Without commits of updates nothing is expected too early. */
  lemma {:induction false} NoCommitObserved(s: State, events: seq<Event>)
    requires forall e <- events :: !IsCommit(e)
    ensures ObservedRun(s, events)
    decreases |events|
  {
    hide Step;
    if events != [] {
      assert !IsCommit(events[0]);
      NoCommitObserved(Step(s, events[0]), events[1..]);
    }
  }

  function GuessEvents(): seq<Event> {
    SetUp() + [Admin(UpdateRead(4, 0, 3, STALE)), Refresh(Store(2, 0))]
  }

  lemma NoDeletionThere()
    ensures forall e <- GuessEvents() :: !IsDelete(e) && !IsCommit(e)
  {
    NoUpdateInSetUp();
    hide SetUp;
  }

  function Guessing(): State {
    Go(Answered0(), 4, UpdateReady(0, 3, ConnectedRow(0, 0), STALE))
  }

  lemma UpdateIsRead()
    ensures DoUpdateRead(Answered0(), 4, 0, 3, STALE) == Guessing()
  {
  }

  lemma TokenRotates()
    ensures
      var s := DoRefreshStore(Guessing(), 2, 0);
      && s.tables.accounts
         == map[0 := ConnectedRow(0, 0).(credential := Some(Token(0, 1, Some(0))), credentialVersion := 3, version := 3)]
      && 4 in s.procs && s.procs[4] == UpdateReady(0, 3, ConnectedRow(0, 0), STALE)
  {
  }

  lemma TokenReturns(s: State)
    requires 4 in s.procs && s.procs[4] == UpdateReady(0, 3, ConnectedRow(0, 0), STALE)
    requires 0 in s.tables.accounts && s.tables.accounts[0].version == 3
    ensures 0 in DoUpdateCommit(s, 4).tables.accounts
    ensures DoUpdateCommit(s, 4).tables.accounts[0].credential == Some(Token(0, 0, None))
  {
  }

  lemma {:induction false} GuessRuns()
    ensures Run(INIT, GuessEvents()) == DoRefreshStore(Guessing(), 2, 0)
  {
    hide Run, DoUpdateRead, DoRefreshStore, Guessing, Answered0, SetUp;
    SetUpRuns();
    UpdateIsRead();
    RunAppend(INIT, SetUp(), [Admin(UpdateRead(4, 0, 3, STALE)), Refresh(Store(2, 0))]);
    TwoSteps(Answered0(), Admin(UpdateRead(4, 0, 3, STALE)), Refresh(Store(2, 0)));
  }

  /** A run without a deletion in which an update that expects the next version, one its caller
      cannot have read, puts back the token that a refresh has just rotated. */
  lemma {:induction false} GuessedVersionRevivesAToken()
    ensures forall e <- GuessEvents() :: !IsDelete(e)
    ensures ObservedRun(INIT, GuessEvents())
    ensures
      var before := Run(INIT, GuessEvents());
      var after := Run(INIT, GuessEvents() + [Admin(UpdateCommit(4))]);
      && 0 in before.tables.accounts && before.tables.accounts[0].credential == Some(Token(0, 1, Some(0)))
      && 0 in after.tables.accounts && after.tables.accounts[0].credential == Some(Token(0, 0, None))
      && !LinearStep(before, Admin(UpdateCommit(4)), after)
  {
    hide Run, GuessEvents, DoRefreshStore, DoUpdateCommit, Guessing, ObservedRun, LinearStep;
    NoDeletionThere();
    NoCommitObserved(INIT, GuessEvents());
    GuessRuns();
    TokenRotates();
    TokenReturns(DoRefreshStore(Guessing(), 2, 0));
    RunExtend(INIT, GuessEvents(), Admin(UpdateCommit(4)));
    UpdateIsLinearIff(DoRefreshStore(Guessing(), 2, 0), 4);
  }

  // ---------- a superseded key ----------

  const CREATE_KEYED: Event := Admin(Create(1, ApiKey, 0, None, Some(1), Draft))

  const REPLACE_KEY: UpdateInput := UpdateInput(None, 0, None, Some(2), Draft)

  function KeyedRow(key: nat): Account {
    NewAccount(0, 1, ApiKey, 0, None, Some(key), Draft)
  }

  /** One account with the key 1. */
  function OneKeyed(): State {
    INIT.(tables := Tables(map[0 := KeyedRow(1)], map[], map[0 := 1], 1, 0, 0))
  }

  /** Update 1 brings no key and expects the next version; update 2 brings the key 2. */
  function BothRead(): State {
    Go(Go(OneKeyed(), 1, UpdateReady(0, 2, KeyedRow(1), STALE)), 2, UpdateReady(0, 1, KeyedRow(1), REPLACE_KEY))
  }

  function Replacing(): State {
    OneKeyed().(tables := OneKeyed().tables.(accounts := map[0 := KeyedRow(2).(credentialVersion := 2, version := 2)]),
                procs := map[1 := UpdateReady(0, 2, KeyedRow(1), STALE)])
  }

  function BothReads(): seq<Event> {
    [Admin(UpdateRead(1, 0, 2, STALE)), Admin(UpdateRead(2, 0, 1, REPLACE_KEY))]
  }

  function SupersedeEvents(): seq<Event> {
    [CREATE_KEYED] + BothReads() + [Admin(UpdateCommit(2))]
  }

  lemma {:induction false} KeyedCreate()
    ensures Run(INIT, [CREATE_KEYED]) == OneKeyed()
  {
    assert NextRowId(INIT.tables.accounts, 1);
    assert AdminStep(INIT, CREATE_KEYED.admin) == OneKeyed();
    assert Run(INIT, [CREATE_KEYED]) == Run(Step(INIT, CREATE_KEYED), []);
  }

  lemma {:induction false} SupersedeRuns()
    ensures Run(INIT, SupersedeEvents()) == Replacing()
  {
    hide Run, DoUpdateCommit, BothRead, Replacing, BothReads;
    BothReadsRun();
    KeyIsReplaced();
    RunExtend(INIT, [CREATE_KEYED] + BothReads(), Admin(UpdateCommit(2)));
  }

  lemma {:induction false} BothReadsRun()
    ensures Run(INIT, [CREATE_KEYED] + BothReads()) == BothRead()
  {
    hide Run, DoUpdateRead, OneKeyed, BothRead;
    KeyedCreate();
    UpdatesRead();
    RunAppend(INIT, [CREATE_KEYED], BothReads());
    TwoSteps(OneKeyed(), Admin(UpdateRead(1, 0, 2, STALE)), Admin(UpdateRead(2, 0, 1, REPLACE_KEY)));
  }

  lemma UpdatesRead()
    ensures DoUpdateRead(DoUpdateRead(OneKeyed(), 1, 0, 2, STALE), 2, 0, 1, REPLACE_KEY) == BothRead()
  {
  }

  lemma KeyIsReplaced()
    ensures DoUpdateCommit(BothRead(), 2) == Replacing()
  {
    assert BothRead().procs - {2} == map[1 := UpdateReady(0, 2, KeyedRow(1), STALE)];
  }

  lemma KeyReturns()
    ensures
      var after := DoUpdateCommit(Replacing(), 1).tables.accounts;
      0 in after && after[0].credential == Some(Key(0, 1))
  {
  }

  /** Update 2 expects the version it has read. */
  lemma {:induction false} SupersedeIsObserved()
    ensures ObservedRun(INIT, SupersedeEvents())
  {
    var first := [CREATE_KEYED] + BothReads();
    assert Observed(BothRead(), Admin(UpdateCommit(2)));
    BothReadsRun();
    hide Run, Step, BothRead;
    forall e <- first ensures !IsCommit(e) {}
    NoCommitObserved(INIT, first);
    ObservedExtend(INIT, first, Admin(UpdateCommit(2)));
  }

  lemma {:induction false} ObservedExtend(s: State, events: seq<Event>, e: Event)
    requires ObservedRun(s, events) && Observed(Run(s, events), e)
    ensures ObservedRun(s, events + [e])
    decreases |events|
  {
    hide Step, Observed;
    if events == [] {
      assert [] + [e] == [e] && [e][1..] == [];
    } else {
      ObservedExtend(Step(s, events[0]), events[1..], e);
      assert (events + [e])[1..] == events[1..] + [e];
    }
  }

  /** A run in which an update that expects the next version puts back the key that another
      update has just replaced. It brings no key itself: the write is not linear. */
  lemma {:induction false} GuessedVersionRevivesAKey()
    ensures ObservedRun(INIT, SupersedeEvents())
    ensures
      var before := Run(INIT, SupersedeEvents());
      var after := Run(INIT, SupersedeEvents() + [Admin(UpdateCommit(1))]);
      && 0 in before.tables.accounts && before.tables.accounts[0].credential == Some(Key(0, 2))
      && 0 in after.tables.accounts && after.tables.accounts[0].credential == Some(Key(0, 1))
      && !LinearStep(before, Admin(UpdateCommit(1)), after)
  {
    SupersedeIsObserved();
    SupersedeRuns();
    KeyReturns();
    hide Run, DoUpdateCommit, ObservedRun, LinearStep;
    RunExtend(INIT, SupersedeEvents(), Admin(UpdateCommit(1)));
    UpdateIsLinearIff(Replacing(), 1);
  }

  // ---------- a disabled account ----------

  const CREATE_DISABLED: Event := Admin(Create(1, ApiKey, 0, None, Some(1), Disabled))

  function OneDisabled(): State {
    INIT.(tables := Tables(map[0 := KeyedRow(1).(status := Disabled)], map[], map[0 := 1], 1, 0, 0))
  }

  lemma {:induction false} DisabledCreate()
    ensures Run(INIT, [CREATE_DISABLED]) == OneDisabled()
  {
    assert NextRowId(INIT.tables.accounts, 1);
    assert AdminStep(INIT, CREATE_DISABLED.admin) == OneDisabled();
    assert Run(INIT, [CREATE_DISABLED]) == Run(Step(INIT, CREATE_DISABLED), []);
  }

  /** A run without a single update in which a disabled account becomes active: a validation does
      not look at the status it starts from. */
  lemma {:induction false} ValidationEnablesADisabledAccount()
    ensures
      var before := Run(INIT, [CREATE_DISABLED]).tables.accounts;
      var after := Run(INIT, [CREATE_DISABLED] + ValidationEvents(1, 0, 1)).tables.accounts;
      && 0 in before && before[0].status == Disabled
      && 0 in after && after[0].status == Active
  {
    DisabledCreate();
    assert OneDisabled().tables.accounts[0].version == 1;
    ValidationRuns(OneDisabled(), 1, 0);
    hide Run, ValidationEvents;
    RunAppend(INIT, [CREATE_DISABLED], ValidationEvents(1, 0, 1));
  }

  // ---------- a key for an OAuth account ----------

  /** The authentication kind is left out, so the check against a key does not see it. */
  const KEY_INPUT: UpdateInput := UpdateInput(None, 0, None, Some(7), Draft)

  function LockOutEvents(): seq<Event> {
    [CREATE] + [Admin(UpdateRead(1, 0, 1, KEY_INPUT)), Admin(UpdateCommit(1))]
  }

  lemma KeyIsStored()
    ensures
      var after := DoUpdateCommit(DoUpdateRead(OneDraft(), 1, 0, 1, KEY_INPUT), 1).tables.accounts;
      0 in after && after[0].credential == Some(Key(0, 7)) && after[0].auth == OAuth
  {
    assert DoUpdateRead(OneDraft(), 1, 0, 1, KEY_INPUT) == Go(OneDraft(), 1, UpdateReady(0, 1, DraftRow(0), KEY_INPUT));
  }

  /** A run of one account and one update, at the version that was read, after which the account
      cannot be loaded. */
  lemma {:induction false} KeyLocksAnOAuthAccountOut()
    ensures
      var before := Run(INIT, [CREATE]);
      0 in before.tables.accounts && Loadable(0, before.tables.accounts[0]) && before.tables.accounts[0].version == 1
    ensures
      var after := Run(INIT, LockOutEvents()).tables.accounts;
      0 in after && !Loadable(0, after[0])
  {
    hide Run, DoUpdateRead, DoUpdateCommit;
    FirstCreate();
    KeyIsStored();
    var update := [Admin(UpdateRead(1, 0, 1, KEY_INPUT)), Admin(UpdateCommit(1))];
    RunAppend(INIT, [CREATE], update);
    TwoSteps(OneDraft(), Admin(UpdateRead(1, 0, 1, KEY_INPUT)), Admin(UpdateCommit(1)));
  }
}
