/**
  What every event writes to an account row, field by field, and what follows for an account
  that was disabled: it stays disabled until an update says otherwise or a validation begins.
 */
module RowWrites {
  import opened Wrappers
  import opened AccountTable
  import opened Lifecycle
  import opened RowHistory

  // ---------- one row ----------

  /** How the row of `pub` may look after one event. */
  predicate Rewrites(s: State, e: Event, pub: nat, row: Account, later: Account) {
    match e
    case Admin(UpdateCommit(p)) =>
      if && p in s.procs && s.procs[p].UpdateReady? && s.procs[p].pub == pub
         && row.version == s.procs[p].expected
      then AsSubmitted(pub, row, later, s.procs[p].seen, s.procs[p].input)
      else later == row
    case Validate(Begin(p)) =>
      if && p in s.procs && s.procs[p].ValidateReady? && s.procs[p].pub == pub
         && row.version == s.procs[p].expected && row.status != Validating
      then OnlyStatus(row, later, Validating)
      else later == row
    case Validate(Finish(p)) =>
      if && p in s.procs && s.procs[p].ValidateProbed? && s.procs[p].pub == pub
         && row.version == s.procs[p].version && row.status == Validating && row.credential.Some?
      then OnlyStatus(row, later, Active)
      else later == row
    case Validate(FinishFailed(p)) =>
      if && p in s.procs && s.procs[p].ValidateFailing? && s.procs[p].pub == pub
         && row.version == s.procs[p].version && row.status == Validating
      then OnlyStatus(row, later, Invalid)
      else later == row
    case Refresh(Mark(p, x)) =>
      if && x == pub && p in s.procs && s.procs[p].Owner? && s.procs[p].phase.Rejected?
         && row.id == s.procs[p].phase.grant.candidate.id
         && row.credentialVersion == s.procs[p].phase.grant.credentialVersion && row.status == Active
      then OnlyStatus(row, later, ReauthRequired)
      else later == row
    case Refresh(Store(p, x)) =>
      if && x == pub && p in s.procs && s.procs[p].Owner? && s.procs[p].phase.Exchanged?
         && row.id == s.procs[p].phase.grant.candidate.id
         && row.credentialVersion == s.procs[p].phase.grant.credentialVersion
         && row.status == Active && row.auth == OAuth
      then NewCredential(row, later, s.procs[p].phase.rotated, Active)
      else later == row
    case Authorize(Complete(p)) =>
      if && p in s.procs && s.procs[p].Claimed? && s.procs[p].stage.Rechecked? && s.procs[p].claim.pub == pub
         && row.version == s.procs[p].claim.version && row.auth == OAuth && row.status != Disabled
         && Exchanges(s.tables, s.procs[p].claim.attempt, row.id)
      then NewCredential(row, later, s.procs[p].stage.token, Active)
      else later == row
    case World(Unauthorized(x, id)) =>
      if x == pub && row.id == id && row.status == Active then OnlyStatus(row, later, ReauthRequired) else later == row
    case World(InterruptedValidations) =>
      if row.status == Validating then OnlyStatus(row, later, Invalid) else later == row
    case _ => later == row
  }

  /** The attempt is being exchanged for the account with this internal id and has not expired. */
  predicate Exchanges(t: Tables, n: nat, account: nat) {
    && n in t.attempts && t.attempts[n].account == account
    && t.attempts[n].status == Exchanging && t.clock < t.attempts[n].expires
  }

  lemma AdminRewrites(s: State, e: AdminEvent, pub: nat)
    requires TablesOk(s.tables) && pub in s.tables.accounts && pub in AdminStep(s, e).tables.accounts
    ensures Rewrites(s, Admin(e), pub, s.tables.accounts[pub], AdminStep(s, e).tables.accounts[pub])
  {
  }

  lemma ValidateRewrites(s: State, e: ValidateEvent, pub: nat)
    requires pub in s.tables.accounts
    ensures Rewrites(s, Validate(e), pub, s.tables.accounts[pub], ValidateStep(s, e).tables.accounts[pub])
  {
  }

  lemma RefreshRewrites(s: State, e: RefreshEvent, pub: nat)
    requires pub in s.tables.accounts
    ensures pub in RefreshStep(s, e).tables.accounts
    ensures Rewrites(s, Refresh(e), pub, s.tables.accounts[pub], RefreshStep(s, e).tables.accounts[pub])
  {
  }

  lemma AttemptRewrites(s: State, e: AttemptEvent, pub: nat)
    requires pub in s.tables.accounts
    ensures Rewrites(s, Authorize(e), pub, s.tables.accounts[pub], AttemptStep(s, e).tables.accounts[pub])
  {
    if !e.Complete? { hide AttemptStep; }
  }

  lemma WorldRewrites(s: State, e: WorldEvent, pub: nat)
    requires pub in s.tables.accounts
    ensures Rewrites(s, World(e), pub, s.tables.accounts[pub], WorldStep(s, e).tables.accounts[pub])
  {
  }

  /** Every event writes every row as said, field by field. */
  lemma StepRewrites(s: State, e: Event, pub: nat)
    requires TablesOk(s.tables) && pub in s.tables.accounts && pub in Step(s, e).tables.accounts
    ensures Rewrites(s, e, pub, s.tables.accounts[pub], Step(s, e).tables.accounts[pub])
  {
    hide TablesOk, Rewrites, AdminStep, ValidateStep, RefreshStep, AttemptStep, WorldStep;
    match e
    case Admin(a) => AdminRewrites(s, a, pub);
    case Validate(v) => ValidateRewrites(s, v, pub);
    case Refresh(r) => RefreshRewrites(s, r, pub);
    case Authorize(a) => AttemptRewrites(s, a, pub);
    case World(w) => WorldRewrites(s, w, pub);
  }

  // ---------- rows that come and go ----------

  /** The row that an event inserts: what was submitted, under a fresh public id, never active. */
  predicate Inserted(e: Event, pub: nat, row: Account) {
    && e.Admin? && e.admin.Create?
    && row.id == e.admin.id && row.auth == e.admin.auth
    && row.upstream == e.admin.upstream && row.proxy == e.admin.proxy && row.status == e.admin.status
    && row.version == 1 && row.credentialVersion == 1
    && (row.status == Draft || row.status == Disabled)
    && match row.auth
       case ApiKey => e.admin.key.Some? && row.credential == Some(Key(pub, e.admin.key.value))
       case OAuth => e.admin.key.None? && row.credential == None
  }

  lemma StepInserts(s: State, e: Event, pub: nat)
    requires pub in Step(s, e).tables.accounts && pub !in s.tables.accounts
    ensures Inserted(e, pub, Step(s, e).tables.accounts[pub]) && pub == s.tables.nextPub
  {
    hide ValidateStep, RefreshStep, AttemptStep, WorldStep, Inserted, DoUpdateCommit, DoDelete;
    AdminInserts(s, e, pub);
  }

  lemma AdminInserts(s: State, e: Event, pub: nat)
    requires e.Admin? ==> pub in AdminStep(s, e.admin).tables.accounts && pub !in s.tables.accounts
    ensures e.Admin? ==> Inserted(e, pub, AdminStep(s, e.admin).tables.accounts[pub]) && pub == s.tables.nextPub
  {
  }

  /** An account goes only by a deletion at its version, and then it does go. */
  lemma StepDeletes(s: State, e: Event, pub: nat)
    requires TablesOk(s.tables) && pub in s.tables.accounts
    ensures pub !in Step(s, e).tables.accounts
      <==> e.Admin? && e.admin.Delete? && e.admin.pub == pub && s.tables.accounts[pub].version == e.admin.expected
  {
    hide ValidateStep, RefreshStep, AttemptStep, WorldStep;
  }

  /** A creation inserts exactly what may start: a draft or disabled account, with a key if it is
      an API key account and without one if it is not. */
  lemma CreateInsertsIff(s: State, e: AdminEvent)
    requires TablesOk(s.tables) && e.Create? && NextRowId(s.tables.accounts, e.id)
    ensures s.tables.nextPub in AdminStep(s, e).tables.accounts
      <==> (e.status == Draft || e.status == Disabled) && (e.auth == ApiKey <==> e.key.Some?)
  {
  }

  // ---------- updates ----------

  /** The checks of an update let it through exactly when nothing in this list holds. */
  lemma UpdateRefusedIff(seen: Account, input: UpdateInput)
    ensures !UpdateAllowed(seen, input) <==>
      || input.status == Validating || input.status == Invalid || input.status == ReauthRequired
      || (input.auth == Some(OAuth) && input.key.Some?)
      || (input.auth.Some? && input.auth.value != seen.auth)
      || (input.status == Active
          && (seen.status != Active || input.upstream != seen.upstream || input.proxy != seen.proxy || input.key.Some?))
  {
  }

  /** An update starts exactly when it is not refused, with the row as it stands. */
  lemma UpdateStartsIff(s: State, p: nat, pub: nat, expected: nat, input: UpdateInput)
    requires p !in s.procs
    ensures
      var s' := Step(s, Admin(UpdateRead(p, pub, expected, input)));
      && (p in s'.procs <==> pub in s.tables.accounts && UpdateAllowed(s.tables.accounts[pub], input))
      && (p in s'.procs ==> s'.procs[p] == UpdateReady(pub, expected, s.tables.accounts[pub], input))
      && s'.tables == s.tables
  {
    hide UpdateAllowed;
  }

  /** An update that keeps an account active, at the version it read, changes nothing of what was
      validated. */
  lemma StayingActiveKeepsAll(pub: nat, row: Account, later: Account, input: UpdateInput)
    requires UpdateAllowed(row, input) && input.status == Active && AsSubmitted(pub, row, later, row, input)
    ensures later == row.(version := row.version + 1)
  {
  }

  // ---------- validations ----------

  /** LoadAccount succeeds: the account is there, and the credential it has, if any, was sealed for
      it and is of its kind. */
  predicate Opens(t: Tables, pub: nat) {
    && pub in t.accounts
    && (t.accounts[pub].credential.Some? ==>
          && t.accounts[pub].credential.value.owner == pub
          && (t.accounts[pub].auth == OAuth <==> t.accounts[pub].credential.value.Token?))
  }

  function CallOf(s: State, p: nat): Option<Proc> {
    if p in s.procs then Some(s.procs[p]) else None
  }

  /** Where a validation stands after one of its events, if it still runs: it starts only for an
      API key account with a credential, begins at the version that was asked for, and keeps the
      version it read after that. */
  function ValidationAfter(s: State, e: ValidateEvent): Option<Proc>
    requires !e.Start? ==> e.p in s.procs
  {
    var accounts := s.tables.accounts;
    if e.Start? then
      if e.pub in accounts && accounts[e.pub].auth == ApiKey && accounts[e.pub].credential.Some?
      then Some(ValidateReady(e.pub, e.expected)) else None
    else
      var call := s.procs[e.p];
      match (e, call)
      case (Begin(_), ValidateReady(pub, expected)) =>
        if pub in accounts && accounts[pub].version == expected && accounts[pub].status != Validating
        then Some(ValidateBegun(pub)) else None
      case (Get(_), ValidateBegun(pub)) =>
        if pub in accounts then Some(ValidateGot(pub, accounts[pub].version)) else Some(call)
      case (Load(_), ValidateGot(pub, version)) =>
        if Opens(s.tables, pub) then Some(ValidateLoaded(pub, version, accounts[pub]))
        else Some(ValidateFailing(pub, version))
      case (Probe(_), ValidateLoaded(pub, version, seen)) =>
        if seen.credential.Some? then Some(ValidateProbed(pub, version, seen)) else Some(call)
      case (Fail(_), ValidateLoaded(pub, version, _)) => Some(ValidateFailing(pub, version))
      case (Finish(_), ValidateProbed(_, _, _)) => None
      case (FinishFailed(_), ValidateFailing(_, _)) => None
      case _ => Some(call)
  }

  lemma ValidationMoves(s: State, e: ValidateEvent)
    requires e.Start? <==> e.p !in s.procs
    ensures CallOf(Step(s, Validate(e)), e.p) == ValidationAfter(s, e)
  {
  }

  // ---------- disabled accounts ----------

  /** The event takes the account out of its status: an update that writes another one, or the
      beginning of a validation. */
  predicate Releases(s: State, e: Event, pub: nat)
    requires pub in s.tables.accounts
  {
    var row := s.tables.accounts[pub];
    match e
    case Admin(UpdateCommit(p)) =>
      && p in s.procs && s.procs[p].UpdateReady? && s.procs[p].pub == pub
      && s.procs[p].expected == row.version && s.procs[p].input.status != Disabled
    case Validate(Begin(p)) =>
      p in s.procs && s.procs[p].ValidateReady? && s.procs[p].pub == pub && s.procs[p].expected == row.version
    case _ => false
  }

  /** A disabled account stays disabled through an event exactly when the event neither updates
      its status nor begins to validate it. */
  lemma StaysDisabledIff(s: State, e: Event, pub: nat)
    requires TablesOk(s.tables) && pub in s.tables.accounts && pub in Step(s, e).tables.accounts
    requires s.tables.accounts[pub].status == Disabled
    ensures Step(s, e).tables.accounts[pub].status == Disabled <==> !Releases(s, e, pub)
  {
    hide TablesOk, Step;
    StepRewrites(s, e, pub);
  }

  ghost predicate NotReleased(s: State, events: seq<Event>, pub: nat)
    decreases |events|
  {
    events != [] ==>
      (pub in s.tables.accounts ==> !Releases(s, events[0], pub)) && NotReleased(Step(s, events[0]), events[1..], pub)
  }

  /** In no run does a disabled account become anything else, active least of all, before an
      update or a validation releases it. */
  lemma {:induction false} DisabledUntilReleased(s: State, events: seq<Event>, pub: nat)
    requires Inv(s) && pub < s.tables.nextPub && NotReleased(s, events, pub)
    requires pub in s.tables.accounts ==> s.tables.accounts[pub].status == Disabled
    ensures
      var t := Run(s, events).tables;
      pub in t.accounts ==> t.accounts[pub].status == Disabled
    decreases |events|
  {
    hide Step, Inv, Releases, TablesEvolve;
    if events != [] {
      var m := Step(s, events[0]);
      StepKeeps(s, events[0]);
      InvTables(s);
      Counts(s.tables, m.tables);
      if pub in m.tables.accounts {
        if pub in s.tables.accounts { StaysDisabledIff(s, events[0], pub); } else { StepInserts(s, events[0], pub); }
      }
      DisabledUntilReleased(m, events[1..], pub);
    }
  }

  lemma InvTables(s: State)
    requires Inv(s)
    ensures TablesOk(s.tables)
  {
  }

  lemma Counts(t: Tables, u: Tables)
    requires TablesEvolve(t, u)
    ensures t.nextPub <= u.nextPub
  {
  }
}
