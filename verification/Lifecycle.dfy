/**
  The account and OAuth lifecycle as a transition system. A state holds the tables, the
  in-memory refresh map, and one control point per running call. Every event is one atomic
  step of the program: a database read, a statement or transaction, an exchange with the
  provider, or a section under the refresh mutex. An event whose guard does not hold leaves
  the state as it is, so a run is any sequence of events, in any interleaving.

  Decisions that depend on a clock, a configuration row or an error of a library call are
  choices of the event sequence.
 */
module Lifecycle {
  import opened Wrappers
  import opened AccountTable

  /** What a caller of EnsureCredential gets back. */
  datatype Answer = Candidate(pub: nat, row: Account) | Problem

  /** A refresh grant being prepared: the candidate loaded by public id, then the row
      (`source`) read again by internal id with its credential version and token. */
  datatype Grant = Grant(pub: nat, candidate: Account, source: nat, credentialVersion: nat, token: Credential)

  datatype RefreshPhase =
    | Entered(pub: nat, selected: Account)
    | Loaded(pub: nat, candidate: Account)
    | Ready(grant: Grant)
    | InFlight(grant: Grant)
    | Exchanged(grant: Grant, rotated: Credential)
    | Rejected(grant: Grant)
    | Stored(pub: nat)
    | Answered(answer: Answer)

  datatype Claim = Claim(attempt: nat, pub: nat, version: nat, fingerprint: Fingerprint, now: nat)

  datatype ClaimStage =
    | Taken
    | Granted(token: Credential)
    | Probed(token: Credential)
    | Rechecked(token: Credential)
    | Failing

  /** Where a running call stands, with the local values it still uses. */
  datatype Proc =
    | UpdateReady(pub: nat, expected: nat, seen: Account, input: UpdateInput)
    | ValidateReady(pub: nat, expected: nat)
    | ValidateBegun(pub: nat)
    | ValidateGot(pub: nat, version: nat)
    | ValidateLoaded(pub: nat, version: nat, seen: Account)
    | ValidateProbed(pub: nat, version: nat, seen: Account)
    | ValidateFailing(pub: nat, version: nat)
    | Holding(pub: nat, seen: Account)
    | Waiting(call: nat)
    | Owner(call: nat, id: nat, phase: RefreshPhase)
    | Returned(call: nat, answer: Answer)
    | AttemptReady(pub: nat, seen: Account, fingerprint: Fingerprint, loaded: nat)
    | ClaimRead(claim: Claim)
    | ClaimChecked(claim: Claim, seen: Account)
    | Claimed(claim: Claim, seen: Account, stage: ClaimStage)

  /** A probe request that the provider answered well: the configuration it was sent with. */
  datatype ProbeRecord = ProbeRecord(pub: nat, upstream: nat, proxy: Option<nat>, credential: Credential)

  /** One credential version of one account. */
  datatype VersionKey = VersionKey(pub: nat, credentialVersion: nat)

  /** Counters and history that no step of the program reads. */
  datatype Log = Log(
    probes: set<ProbeRecord>,
    nextSerial: nat,         // serial of the next token the authorisation server issues
    nextCall: nat,
    owners: map<nat, nat>,   // the call number that registered each refresh call
    sent: multiset<VersionKey>,  // refresh grants sent, by the credential version they were read at
    lost: multiset<VersionKey>,  // those whose exchange or write failed, or died in a crash
    won: set<VersionKey>,        // those whose write was committed
    senders: map<VersionKey, nat>, // the call that sent the last grant of a credential version
    claims: multiset<nat>)       // how often each attempt was claimed

  datatype State = State(
    tables: Tables,
    refreshes: map<nat, nat>,        // internal account id -> call
    calls: map<nat, Option<Answer>>, // a call's answer once its channel is closed
    procs: map<nat, Proc>,
    log: Log)

  const INIT: State := State(
    Tables(map[], map[], map[], 0, 0, 0), map[], map[], map[],
    Log({}, 0, 0, map[], multiset{}, multiset{}, {}, map[], multiset{}))

  datatype AdminEvent =
    | Create(id: nat, auth: AuthKind, upstream: nat, proxy: Option<nat>, key: Option<nat>, status: AccountStatus)
    | UpdateRead(p: nat, pub: nat, expected: nat, input: UpdateInput)
    | UpdateCommit(p: nat)
    | Delete(pub: nat, expected: nat)

  datatype ValidateEvent =
    | Start(p: nat, pub: nat, expected: nat)
    | Begin(p: nat)
    | Get(p: nat)
    | Load(p: nat)
    | Probe(p: nat)
    | Fail(p: nat)
    | Finish(p: nat)
    | FinishFailed(p: nat)

  datatype RefreshEvent =
    | Hold(p: nat, pub: nat)
    | Ensure(p: nat)
    | LoadAgain(p: nat)
    | Read(p: nat, source: nat)
    | Send(p: nat)
    | Receive(p: nat)
    | Reject(p: nat)
    | Mark(p: nat, row: nat)
    | Store(p: nat, row: nat)
    | Reload(p: nat)
    | GiveUp(p: nat, keep: bool)
    | Publish(p: nat)
    | Wake(p: nat)

  datatype AttemptEvent =
    | Prepare(p: nat, pub: nat, egress: Egress)
    | Insert(p: nat, now: nat)
    | Cancel(attempt: nat)
    | Select(p: nat, attempt: nat, pub: nat, now: nat)
    | Check(p: nat, egress: Egress)
    | Take(p: nat)
    | Exchange(p: nat)
    | ProbeGrant(p: nat)
    | Recheck(p: nat, egress: Egress)
    | Drop(p: nat)
    | Complete(p: nat)
    | Close(p: nat)

  datatype WorldEvent =
    | Unauthorized(pub: nat, id: nat)
    | Tick(to: nat)
    | CleanupAttempts(now: nat)
    | InterruptedAttempts
    | InterruptedValidations
    | Abandon(p: nat)
    | Crash

  datatype Event =
    | Admin(admin: AdminEvent)
    | Validate(validate: ValidateEvent)
    | Refresh(refresh: RefreshEvent)
    | Authorize(authorize: AttemptEvent)
    | World(world: WorldEvent)

  // ---------- helpers ----------

  /** LoadAccount decrypts the stored credential and builds a provider credential of the
      account's kind; it fails on an envelope that does not open or holds the other kind. */
  predicate Loadable(pub: nat, row: Account) {
    match row.credential
    case None => true
    case Some(Key(owner, _)) => owner == pub && row.auth == ApiKey
    case Some(Token(owner, _, _)) => owner == pub && row.auth == OAuth
  }

  predicate Loads(t: Tables, pub: nat) {
    pub in t.accounts && Loadable(pub, t.accounts[pub])
  }

  function Go(s: State, p: nat, proc: Proc): State {
    s.(procs := s.procs[p := proc])
  }

  function End(s: State, p: nat): State {
    s.(procs := s.procs - {p})
  }

  function WithAccounts(s: State, accounts: Accounts): State {
    s.(tables := s.tables.(accounts := accounts))
  }

  function WithAttempts(s: State, attempts: Attempts): State {
    s.(tables := s.tables.(attempts := attempts))
  }

  function AnswerCall(s: State, p: nat, answer: Answer): State
    requires p in s.procs && s.procs[p].Owner?
  {
    Go(s, p, s.procs[p].(phase := Answered(answer)))
  }

  function GrantKey(grant: Grant): VersionKey {
    VersionKey(grant.source, grant.credentialVersion)
  }

  /** A refresh grant was sent and its outcome is still open. */
  predicate IsOpen(proc: Proc) {
    proc.Owner? && (proc.phase.InFlight? || proc.phase.Exchanged?)
  }

  function OpenKeys(procs: map<nat, Proc>): set<VersionKey> {
    set p | p in procs && IsOpen(procs[p]) :: GrantKey(procs[p].phase.grant)
  }

  function Lose(s: State, grant: Grant): State {
    s.(log := s.log.(lost := s.log.lost + multiset{GrantKey(grant)}))
  }

  // ---------- what each kind of event may touch ----------

  /** At most call `p` starts, moves or ends. */
  predicate MovesOne(s: State, s': State, p: nat) {
    || s'.procs == s.procs
    || s'.procs == s.procs - {p}
    || (p in s'.procs && s'.procs == s.procs[p := s'.procs[p]])
  }

  predicate IsValidation(proc: Proc) {
    || proc.ValidateReady? || proc.ValidateBegun? || proc.ValidateGot? || proc.ValidateLoaded?
    || proc.ValidateProbed? || proc.ValidateFailing?
  }

  predicate IsAuthorization(proc: Proc) {
    proc.AttemptReady? || proc.ClaimRead? || proc.ClaimChecked? || proc.Claimed?
  }

  predicate AdminFrame(s: State, s': State, p: nat) {
    && s' == s.(tables := s'.tables, procs := s'.procs)
    && s'.tables.nextAttempt == s.tables.nextAttempt && s'.tables.clock == s.tables.clock
    && MovesOne(s, s', p)
    && (s'.procs == s.procs
        || ((p in s.procs ==> s.procs[p].UpdateReady?) && (p in s'.procs ==> s'.procs[p].UpdateReady?)))
  }

  predicate ValidateFrame(s: State, s': State, p: nat) {
    && s' == s.(tables := s.tables.(accounts := s'.tables.accounts), procs := s'.procs,
                log := s.log.(probes := s'.log.probes))
    && MovesOne(s, s', p)
    && (s'.procs == s.procs
        || ((p in s.procs ==> IsValidation(s.procs[p])) && (p in s'.procs ==> IsValidation(s'.procs[p]))))
  }

  /** A step inside refreshCredential: the call keeps its entry. */
  predicate RefreshFrame(s: State, s': State, p: nat) {
    && s' == s.(tables := s.tables.(accounts := s'.tables.accounts), procs := s'.procs,
                log := s.log.(nextSerial := s'.log.nextSerial, sent := s'.log.sent,
                              lost := s'.log.lost, won := s'.log.won, senders := s'.log.senders))
    && s'.tables.accounts.Keys == s.tables.accounts.Keys
    && (s'.procs == s.procs
        || (&& p in s.procs && s.procs[p].Owner?
            && p in s'.procs && s'.procs == s.procs[p := s'.procs[p]]
            && s'.procs[p].Owner? && s'.procs[p] == s.procs[p].(phase := s'.procs[p].phase)
            && CarriesGrant(s.procs[p].phase, s'.procs[p].phase)))
  }

  predicate HasGrant(phase: RefreshPhase) {
    phase.Ready? || phase.InFlight? || phase.Exchanged? || phase.Rejected?
  }

  /** A grant is made by the second read and carried on unchanged. */
  predicate CarriesGrant(before: RefreshPhase, after: RefreshPhase) {
    HasGrant(after) ==>
      (HasGrant(before) && after.grant == before.grant) || (before.Loaded? && after.Ready? && after.grant.pub == before.pub)
  }

  /** A step at the edge of refreshCredential: nothing is being refreshed by the call. */
  predicate EdgeFrame(s: State, s': State, p: nat) {
    && s' == s.(refreshes := s'.refreshes, calls := s'.calls, procs := s'.procs,
                log := s.log.(nextCall := s'.log.nextCall, owners := s'.log.owners))
    && MovesOne(s, s', p)
    && (s'.procs == s.procs
        || ((p in s.procs ==> AtEdge(s.procs[p])) && (p in s'.procs ==> AtEdge(s'.procs[p]))))
  }

  predicate AtEdge(proc: Proc) {
    || proc.Holding? || proc.Waiting? || proc.Returned?
    || (proc.Owner? && (proc.phase.Entered? || proc.phase.Answered?))
  }

  predicate AttemptFrame(s: State, s': State, p: nat) {
    && s' == s.(tables := s.tables.(accounts := s'.tables.accounts, attempts := s'.tables.attempts,
                                    nextAttempt := s'.tables.nextAttempt),
                procs := s'.procs,
                log := s.log.(nextSerial := s'.log.nextSerial, claims := s'.log.claims))
    && MovesOne(s, s', p)
    && (s'.procs == s.procs
        || ((p in s.procs ==> IsAuthorization(s.procs[p])) && (p in s'.procs ==> IsAuthorization(s'.procs[p]))))
  }

  // ---------- administrator ----------

  ghost function DoCreate(s: State, id: nat, auth: AuthKind, upstream: nat, proxy: Option<nat>, key: Option<nat>,
                          status: AccountStatus): (s': State)
    ensures AdminFrame(s, s', 0)
  {
    if CreateAllowed(auth, key, status) && NextRowId(s.tables.accounts, id) then
      var pub := s.tables.nextPub;
      var row := NewAccount(pub, id, auth, upstream, proxy, key, status);
      s.(tables := s.tables.(accounts := s.tables.accounts[pub := row],
                             ids := s.tables.ids[pub := id],
                             nextPub := pub + 1))
    else s
  }

  function DoUpdateRead(s: State, p: nat, pub: nat, expected: nat, input: UpdateInput): (s': State)
    ensures AdminFrame(s, s', p)
  {
    if p !in s.procs && pub in s.tables.accounts && UpdateAllowed(s.tables.accounts[pub], input)
    then Go(s, p, UpdateReady(pub, expected, s.tables.accounts[pub], input))
    else s
  }

  function DoUpdateCommit(s: State, p: nat): (s': State)
    ensures AdminFrame(s, s', p)
  {
    if p in s.procs && s.procs[p].UpdateReady? then
      var u := s.procs[p];
      WithAccounts(End(s, p), ApplyUpdate(s.tables.accounts, u.pub, u.expected, u.seen, u.input))
    else s
  }

  function DoDelete(s: State, pub: nat, expected: nat): (s': State)
    ensures AdminFrame(s, s', 0)
  {
    s.(tables := DeleteAccount(s.tables, pub, expected))
  }

  // ---------- account validation ----------

  function DoValidateStart(s: State, p: nat, pub: nat, expected: nat): (s': State)
    ensures ValidateFrame(s, s', p)
  {
    if && p !in s.procs && pub in s.tables.accounts
       && s.tables.accounts[pub].auth == ApiKey && s.tables.accounts[pub].credential.Some?
    then Go(s, p, ValidateReady(pub, expected))
    else s
  }

  function DoValidateBegin(s: State, p: nat): (s': State)
    ensures ValidateFrame(s, s', p)
  {
    if p in s.procs && s.procs[p].ValidateReady? then
      var v := s.procs[p];
      if AtVersion(s.tables.accounts, v.pub, v.expected) && s.tables.accounts[v.pub].status != Validating
      then WithAccounts(Go(s, p, ValidateBegun(v.pub)), BeginValidation(s.tables.accounts, v.pub, v.expected))
      else End(s, p)
    else s
  }

  /** BeginAccountValidation re-reads the row after its commit, in a statement of its own. */
  function DoValidateGet(s: State, p: nat): (s': State)
    ensures ValidateFrame(s, s', p)
  {
    if p in s.procs && s.procs[p].ValidateBegun? && s.procs[p].pub in s.tables.accounts
    then Go(s, p, ValidateGot(s.procs[p].pub, s.tables.accounts[s.procs[p].pub].version))
    else s
  }

  function DoValidateLoad(s: State, p: nat): (s': State)
    ensures ValidateFrame(s, s', p)
  {
    if p in s.procs && s.procs[p].ValidateGot? then
      var v := s.procs[p];
      if Loads(s.tables, v.pub)
      then Go(s, p, ValidateLoaded(v.pub, v.version, s.tables.accounts[v.pub]))
      else Go(s, p, ValidateFailing(v.pub, v.version))
    else s
  }

  /** The probe is sent with the loaded configuration and succeeds. */
  function DoValidateProbe(s: State, p: nat): (s': State)
    ensures ValidateFrame(s, s', p)
  {
    if p in s.procs && s.procs[p].ValidateLoaded? && s.procs[p].seen.credential.Some? then
      var v := s.procs[p];
      var record := ProbeRecord(v.pub, v.seen.upstream, v.seen.proxy, v.seen.credential.value);
      Go(s, p, ValidateProbed(v.pub, v.version, v.seen)).(log := s.log.(probes := s.log.probes + {record}))
    else s
  }

  function DoValidateFail(s: State, p: nat): (s': State)
    ensures ValidateFrame(s, s', p)
  {
    if p in s.procs && s.procs[p].ValidateLoaded?
    then Go(s, p, ValidateFailing(s.procs[p].pub, s.procs[p].version))
    else s
  }

  function DoValidateFinish(s: State, p: nat): (s': State)
    ensures ValidateFrame(s, s', p)
  {
    if p in s.procs && s.procs[p].ValidateProbed? then
      var v := s.procs[p];
      WithAccounts(End(s, p), FinishValidation(s.tables.accounts, v.pub, v.version, true))
    else s
  }

  function DoValidateFinishFailed(s: State, p: nat): (s': State)
    ensures ValidateFrame(s, s', p)
  {
    if p in s.procs && s.procs[p].ValidateFailing? then
      var v := s.procs[p];
      WithAccounts(End(s, p), FinishValidation(s.tables.accounts, v.pub, v.version, false))
    else s
  }

  // ---------- credential refresh ----------

  /** The router or the sweep loads a candidate and keeps it. */
  function DoHold(s: State, p: nat, pub: nat): (s': State)
    ensures EdgeFrame(s, s', p)
  {
    if p !in s.procs && Loads(s.tables, pub) then Go(s, p, Holding(pub, s.tables.accounts[pub])) else s
  }

  /** The first mutex section of EnsureCredential: join the running call or register a new one. */
  function DoEnsure(s: State, p: nat): (s': State)
    ensures EdgeFrame(s, s', p)
  {
    if p in s.procs && s.procs[p].Holding? && s.procs[p].seen.auth == OAuth then
      var h := s.procs[p];
      var id := h.seen.id;
      if id in s.refreshes then Go(s, p, Waiting(s.refreshes[id]))
      else
        var call := s.log.nextCall;
        Go(s, p, Owner(call, id, Entered(h.pub, h.seen)))
          .(refreshes := s.refreshes[id := call], calls := s.calls[call := None],
            log := s.log.(nextCall := call + 1, owners := s.log.owners[call := p]))
    else s
  }

  /** The load by public id, and the early returns after it. */
  function AfterLoad(t: Tables, pub: nat, selected: Account): RefreshPhase {
    if !Loads(t, pub) || t.accounts[pub].auth != OAuth || t.accounts[pub].status != Active then Answered(Problem)
    else if t.accounts[pub].credentialVersion != selected.credentialVersion
    then Answered(Candidate(pub, t.accounts[pub]))
    else Loaded(pub, t.accounts[pub])
  }

  function DoRefreshLoad(s: State, p: nat): (s': State)
    ensures RefreshFrame(s, s', p)
  {
    if p in s.procs && s.procs[p].Owner? && s.procs[p].phase.Entered? then
      var o := s.procs[p];
      Go(s, p, o.(phase := AfterLoad(s.tables, o.phase.pub, o.phase.selected)))
    else s
  }

  /** The envelope of row `source` is opened for the account loaded first. */
  function AfterRead(t: Tables, pub: nat, candidate: Account, source: nat): RefreshPhase
    requires source in t.accounts
  {
    var row := t.accounts[source];
    if row.credential.Some? && row.credential.value.Token? && row.credential.value.owner == pub
    then Ready(Grant(pub, candidate, source, row.credentialVersion, row.credential.value))
    else Answered(Problem)
  }

  predicate ReadSelects(t: Tables, source: nat, id: nat) {
    && source in t.accounts && t.accounts[source].id == id
    && t.accounts[source].status == Active && t.accounts[source].auth == OAuth
  }

  /** The second read, by internal id: its row may belong to another account by now. */
  function DoRefreshRead(s: State, p: nat, source: nat): (s': State)
    ensures RefreshFrame(s, s', p)
  {
    if && p in s.procs && s.procs[p].Owner? && s.procs[p].phase.Loaded?
       && ReadSelects(s.tables, source, s.procs[p].phase.candidate.id)
    then
      var o := s.procs[p];
      Go(s, p, o.(phase := AfterRead(s.tables, o.phase.pub, o.phase.candidate, source)))
    else s
  }

  function DoRefreshSend(s: State, p: nat): (s': State)
    ensures RefreshFrame(s, s', p)
  {
    if p in s.procs && s.procs[p].Owner? && s.procs[p].phase.Ready? then
      var grant := s.procs[p].phase.grant;
      Go(s, p, s.procs[p].(phase := InFlight(grant)))
        .(log := s.log.(sent := s.log.sent + multiset{GrantKey(grant)}, senders := s.log.senders[GrantKey(grant) := p]))
    else s
  }

  /** The server answers with a new token, sealed for the candidate's public id. */
  function DoRefreshReceive(s: State, p: nat): (s': State)
    ensures RefreshFrame(s, s', p)
  {
    if p in s.procs && s.procs[p].Owner? && s.procs[p].phase.InFlight? && s.procs[p].phase.grant.token.Token? then
      var grant := s.procs[p].phase.grant;
      var rotated := Token(grant.pub, s.log.nextSerial, Some(grant.token.serial));
      Go(s, p, s.procs[p].(phase := Exchanged(grant, rotated)))
        .(log := s.log.(nextSerial := s.log.nextSerial + 1))
    else s
  }

  /** The server answers invalid_grant. */
  function DoRefreshReject(s: State, p: nat): (s': State)
    ensures RefreshFrame(s, s', p)
  {
    if p in s.procs && s.procs[p].Owner? && s.procs[p].phase.InFlight? then
      var grant := s.procs[p].phase.grant;
      Lose(Go(s, p, s.procs[p].(phase := Rejected(grant))), grant)
    else s
  }

  function DoRefreshMark(s: State, p: nat, row: nat): (s': State)
    ensures RefreshFrame(s, s', p)
  {
    if p in s.procs && s.procs[p].Owner? && s.procs[p].phase.Rejected? then
      var grant := s.procs[p].phase.grant;
      WithAccounts(AnswerCall(s, p, Problem),
                   MarkReauthRequired(s.tables.accounts, row, grant.candidate.id, grant.credentialVersion))
    else s
  }

  function DoRefreshStore(s: State, p: nat, row: nat): (s': State)
    ensures RefreshFrame(s, s', p)
  {
    if && p in s.procs && s.procs[p].Owner? && s.procs[p].phase.Exchanged?
       && RefreshSelects(s.tables.accounts, row, s.procs[p].phase.grant.candidate.id, s.procs[p].phase.grant.credentialVersion)
    then
      var grant := s.procs[p].phase.grant;
      WithAccounts(Go(s, p, s.procs[p].(phase := Stored(grant.pub))),
                   StoreRefreshed(s.tables.accounts, row, grant.candidate.id, grant.credentialVersion,
                                  s.procs[p].phase.rotated))
        .(log := s.log.(won := s.log.won + {GrantKey(grant)}))
    else s
  }

  function DoRefreshReload(s: State, p: nat): (s': State)
    ensures RefreshFrame(s, s', p)
  {
    if p in s.procs && s.procs[p].Owner? && s.procs[p].phase.Stored? then
      var pub := s.procs[p].phase.pub;
      if Loads(s.tables, pub) then AnswerCall(s, p, Candidate(pub, s.tables.accounts[pub]))
      else AnswerCall(s, p, Problem)
    else s
  }

  /** Every other way out of refreshCredential: a failed read, a token not yet due, a missing
      configuration, an exchange that got no answer, a write that selected no row. The loaded
      candidate is kept (`keep`) or an error returned. */
  function DoRefreshGiveUp(s: State, p: nat, keep: bool): (s': State)
    ensures RefreshFrame(s, s', p)
  {
    if p in s.procs && s.procs[p].Owner? && !s.procs[p].phase.Stored? && !s.procs[p].phase.Answered? then
      var answered := AnswerCall(s, p, GiveUpAnswer(s.procs[p].phase, keep));
      if IsOpen(s.procs[p]) then Lose(answered, s.procs[p].phase.grant) else answered
    else s
  }

  function GiveUpAnswer(phase: RefreshPhase, keep: bool): Answer {
    match phase
    case Loaded(pub, candidate) => if keep then Candidate(pub, candidate) else Problem
    case Ready(grant) => if keep then Candidate(grant.pub, grant.candidate) else Problem
    case InFlight(grant) => if keep then Candidate(grant.pub, grant.candidate) else Problem
    case _ => Problem
  }

  /** The second mutex section: unregister the call and close its channel. */
  function DoRefreshPublish(s: State, p: nat): (s': State)
    ensures EdgeFrame(s, s', p)
  {
    if p in s.procs && s.procs[p].Owner? && s.procs[p].phase.Answered? then
      var o := s.procs[p];
      Go(s, p, Returned(o.call, o.phase.answer))
        .(refreshes := s.refreshes - {o.id}, calls := s.calls[o.call := Some(o.phase.answer)])
    else s
  }

  function DoWake(s: State, p: nat): (s': State)
    ensures EdgeFrame(s, s', p)
  {
    if && p in s.procs && s.procs[p].Waiting?
       && s.procs[p].call in s.calls && s.calls[s.procs[p].call].Some?
    then Go(s, p, Returned(s.procs[p].call, s.calls[s.procs[p].call].value))
    else s
  }

  // ---------- OAuth attempts ----------

  function DoAttemptLoad(s: State, p: nat, pub: nat, egress: Egress): (s': State)
    ensures AttemptFrame(s, s', p)
  {
    if && p !in s.procs && Loads(s.tables, pub)
       && s.tables.accounts[pub].auth == OAuth
       && s.tables.accounts[pub].status !in {Disabled, Validating, Active}
    then
      var row := s.tables.accounts[pub];
      Go(s, p, AttemptReady(pub, row, EgressFingerprint(pub, row, egress), s.tables.clock))
    else s
  }

  /** The clock is read at some point between the load and the transaction. */
  function DoAttemptInsert(s: State, p: nat, now: nat): (s': State)
    ensures AttemptFrame(s, s', p)
  {
    if p in s.procs && s.procs[p].AttemptReady? && s.procs[p].loaded <= now <= s.tables.clock then
      var r := s.procs[p];
      End(s, p).(tables := InsertAttempt(s.tables, r.pub, r.fingerprint, now))
    else s
  }

  function DoAttemptCancel(s: State, attempt: nat): (s': State)
    ensures AttemptFrame(s, s', 0)
  {
    WithAttempts(s, CancelAttempt(s.tables.attempts, attempt))
  }

  /** claimAttempt finds the pending attempt by its state and joins the account row. It has read
      the clock before. */
  function DoClaimSelect(s: State, p: nat, attempt: nat, pub: nat, now: nat): (s': State)
    ensures AttemptFrame(s, s', p)
  {
    if && p !in s.procs && now <= s.tables.clock && ClaimSelects(s.tables.attempts, attempt, now)
       && pub in s.tables.accounts && s.tables.accounts[pub].id == s.tables.attempts[attempt].account
    then Go(s, p, ClaimRead(Claim(attempt, pub, s.tables.accounts[pub].version,
                                  s.tables.attempts[attempt].fingerprint, now)))
    else s
  }

  predicate SameEgress(s: State, claim: Claim, egress: Egress) {
    && Loads(s.tables, claim.pub)
    && s.tables.accounts[claim.pub].version == claim.version
    && EgressFingerprint(claim.pub, s.tables.accounts[claim.pub], egress) == claim.fingerprint
  }

  function DoClaimCheck(s: State, p: nat, egress: Egress): (s': State)
    ensures AttemptFrame(s, s', p)
  {
    if p in s.procs && s.procs[p].ClaimRead? then
      var claim := s.procs[p].claim;
      if SameEgress(s, claim, egress) then Go(s, p, ClaimChecked(claim, s.tables.accounts[claim.pub]))
      else End(s, p)
    else s
  }

  function DoClaimTake(s: State, p: nat): (s': State)
    ensures AttemptFrame(s, s', p)
  {
    if p in s.procs && s.procs[p].ClaimChecked? then
      var c := s.procs[p];
      if ClaimSelects(s.tables.attempts, c.claim.attempt, c.claim.now) then
        WithAttempts(Go(s, p, Claimed(c.claim, c.seen, Taken)),
                     ClaimAttempt(s.tables.attempts, c.claim.attempt, c.claim.now))
          .(log := s.log.(claims := s.log.claims + multiset{c.claim.attempt}))
      else End(s, p)
    else s
  }

  function DoClaimExchange(s: State, p: nat): (s': State)
    ensures AttemptFrame(s, s', p)
  {
    if p in s.procs && s.procs[p].Claimed? && s.procs[p].stage.Taken? then
      var token := Token(s.procs[p].claim.pub, s.log.nextSerial, None);
      Go(s, p, s.procs[p].(stage := Granted(token))).(log := s.log.(nextSerial := s.log.nextSerial + 1))
    else s
  }

  function DoClaimProbe(s: State, p: nat): (s': State)
    ensures AttemptFrame(s, s', p)
  {
    if p in s.procs && s.procs[p].Claimed? && s.procs[p].stage.Granted?
    then Go(s, p, s.procs[p].(stage := Probed(s.procs[p].stage.token)))
    else s
  }

  function DoClaimRecheck(s: State, p: nat, egress: Egress): (s': State)
    ensures AttemptFrame(s, s', p)
  {
    if p in s.procs && s.procs[p].Claimed? && s.procs[p].stage.Probed? then
      if SameEgress(s, s.procs[p].claim, egress)
      then Go(s, p, s.procs[p].(stage := Rechecked(s.procs[p].stage.token)))
      else Go(s, p, s.procs[p].(stage := Failing))
    else s
  }

  function DoClaimGiveUp(s: State, p: nat): (s': State)
    ensures AttemptFrame(s, s', p)
  {
    if p in s.procs && s.procs[p].Claimed? then Go(s, p, s.procs[p].(stage := Failing)) else s
  }

  function DoClaimComplete(s: State, p: nat): (s': State)
    ensures AttemptFrame(s, s', p)
  {
    if p in s.procs && s.procs[p].Claimed? && s.procs[p].stage.Rechecked? then
      var c := s.procs[p];
      if CompleteSelects(s.tables, c.claim.attempt, c.claim.pub, c.claim.version)
      then End(s, p).(tables := CompleteAuthorization(s.tables, c.claim.attempt, c.claim.pub, c.claim.version, c.stage.token))
      else Go(s, p, c.(stage := Failing))
    else s
  }

  function DoClaimFail(s: State, p: nat): (s': State)
    ensures AttemptFrame(s, s', p)
  {
    if p in s.procs && s.procs[p].Claimed? && s.procs[p].stage.Failing?
    then WithAttempts(End(s, p), FailAttempt(s.tables.attempts, s.procs[p].claim.attempt))
    else s
  }

  // ---------- everything else ----------

  function DoTick(s: State, to: nat): State {
    if s.tables.clock <= to then s.(tables := s.tables.(clock := to)) else s
  }

  function DoCleanup(s: State, now: nat): State {
    if now <= s.tables.clock then WithAttempts(s, DropExpired(s.tables.attempts, now)) else s
  }

  /** A cancelled request or a failed database call ends a call anywhere, except the owner of
      a refresh, which always publishes. */
  function DoAbandon(s: State, p: nat): State {
    if p in s.procs && !s.procs[p].Owner? then End(s, p) else s
  }

  /** The process dies: running calls and the refresh map are gone, the tables stay. */
  function DoCrash(s: State): State {
    s.(procs := map[], refreshes := map[],
       log := s.log.(lost := s.log.lost + multiset(OpenKeys(s.procs))))
  }

  /** The call an event belongs to (any number, for an event of no call). */
  function AdminCall(e: AdminEvent): nat {
    if e.UpdateRead? || e.UpdateCommit? then e.p else 0
  }

  function AttemptCall(e: AttemptEvent): nat {
    if e.Cancel? then 0 else e.p
  }

  ghost function AdminStep(s: State, e: AdminEvent): (s': State)
    ensures AdminFrame(s, s', AdminCall(e))
  {
    match e
    case Create(id, auth, upstream, proxy, key, status) => DoCreate(s, id, auth, upstream, proxy, key, status)
    case UpdateRead(p, pub, expected, input) => DoUpdateRead(s, p, pub, expected, input)
    case UpdateCommit(p) => DoUpdateCommit(s, p)
    case Delete(pub, expected) => DoDelete(s, pub, expected)
  }

  function ValidateStep(s: State, e: ValidateEvent): (s': State)
    ensures ValidateFrame(s, s', e.p)
    ensures s'.tables.accounts.Keys == s.tables.accounts.Keys
  {
    match e
    case Start(p, pub, expected) => DoValidateStart(s, p, pub, expected)
    case Begin(p) => DoValidateBegin(s, p)
    case Get(p) => DoValidateGet(s, p)
    case Load(p) => DoValidateLoad(s, p)
    case Probe(p) => DoValidateProbe(s, p)
    case Fail(p) => DoValidateFail(s, p)
    case Finish(p) => DoValidateFinish(s, p)
    case FinishFailed(p) => DoValidateFinishFailed(s, p)
  }

  predicate EdgeEvent(e: RefreshEvent) {
    e.Hold? || e.Ensure? || e.Publish? || e.Wake?
  }

  function RefreshStep(s: State, e: RefreshEvent): (s': State)
    ensures if EdgeEvent(e) then EdgeFrame(s, s', e.p) else RefreshFrame(s, s', e.p)
  {
    match e
    case Hold(p, pub) => DoHold(s, p, pub)
    case Ensure(p) => DoEnsure(s, p)
    case LoadAgain(p) => DoRefreshLoad(s, p)
    case Read(p, source) => DoRefreshRead(s, p, source)
    case Send(p) => DoRefreshSend(s, p)
    case Receive(p) => DoRefreshReceive(s, p)
    case Reject(p) => DoRefreshReject(s, p)
    case Mark(p, row) => DoRefreshMark(s, p, row)
    case Store(p, row) => DoRefreshStore(s, p, row)
    case Reload(p) => DoRefreshReload(s, p)
    case GiveUp(p, keep) => DoRefreshGiveUp(s, p, keep)
    case Publish(p) => DoRefreshPublish(s, p)
    case Wake(p) => DoWake(s, p)
  }

  function AttemptStep(s: State, e: AttemptEvent): (s': State)
    ensures AttemptFrame(s, s', AttemptCall(e))
    ensures !e.Complete? ==> s'.tables.accounts == s.tables.accounts
    ensures s'.tables.accounts.Keys == s.tables.accounts.Keys
  {
    match e
    case Prepare(p, pub, egress) => DoAttemptLoad(s, p, pub, egress)
    case Insert(p, now) => DoAttemptInsert(s, p, now)
    case Cancel(attempt) => DoAttemptCancel(s, attempt)
    case Select(p, attempt, pub, now) => DoClaimSelect(s, p, attempt, pub, now)
    case Check(p, egress) => DoClaimCheck(s, p, egress)
    case Take(p) => DoClaimTake(s, p)
    case Exchange(p) => DoClaimExchange(s, p)
    case ProbeGrant(p) => DoClaimProbe(s, p)
    case Recheck(p, egress) => DoClaimRecheck(s, p, egress)
    case Drop(p) => DoClaimGiveUp(s, p)
    case Complete(p) => DoClaimComplete(s, p)
    case Close(p) => DoClaimFail(s, p)
  }

  function WorldStep(s: State, e: WorldEvent): (s': State)
    ensures s'.tables.accounts.Keys == s.tables.accounts.Keys
  {
    match e
    case Unauthorized(pub, id) => WithAccounts(s, RecordUnauthorized(s.tables.accounts, pub, id))
    case Tick(to) => DoTick(s, to)
    case CleanupAttempts(now) => DoCleanup(s, now)
    case InterruptedAttempts => WithAttempts(s, RecoverAttempts(s.tables.attempts))
    case InterruptedValidations => WithAccounts(s, RecoverValidations(s.tables.accounts))
    case Abandon(p) => DoAbandon(s, p)
    case Crash => DoCrash(s)
  }

  ghost function Step(s: State, e: Event): State {
    match e
    case Admin(a) => AdminStep(s, a)
    case Validate(v) => ValidateStep(s, v)
    case Refresh(r) => RefreshStep(s, r)
    case Authorize(a) => AttemptStep(s, a)
    case World(w) => WorldStep(s, w)
  }

  ghost function Run(s: State, events: seq<Event>): State
    decreases |events|
  {
    if events == [] then s else Run(Step(s, events[0]), events[1..])
  }

  // ---------- what the runs assume of the caller ----------

  /** An update that writes does not expect a version above the one it read; in particular when
      its expected version is one the caller was given before the call. */
  predicate Observed(s: State, e: Event) {
    e.Admin? && e.admin.UpdateCommit? && Commits(s, e.admin.p) ==>
      s.procs[e.admin.p].expected <= s.procs[e.admin.p].seen.version
  }

  /** Call `p` is an update about to write its row. */
  predicate Commits(s: State, p: nat) {
    p in s.procs && s.procs[p].UpdateReady? && AtVersion(s.tables.accounts, s.procs[p].pub, s.procs[p].expected)
  }

  ghost predicate ObservedRun(s: State, events: seq<Event>)
    decreases |events|
  {
    events != [] ==> Observed(s, events[0]) && ObservedRun(Step(s, events[0]), events[1..])
  }

  lemma {:induction false} RunAppend(s: State, xs: seq<Event>, ys: seq<Event>)
    ensures Run(s, xs + ys) == Run(Run(s, xs), ys)
    decreases |xs|
  {
    if xs == [] {
      assert xs + ys == ys;
    } else {
      assert (xs + ys)[1..] == xs[1..] + ys;
      RunAppend(Step(s, xs[0]), xs[1..], ys);
    }
  }

  lemma {:induction false} RunExtend(s: State, events: seq<Event>, e: Event)
    ensures Run(s, events + [e]) == Step(Run(s, events), e)
  {
    RunAppend(s, events, [e]);
    var m := Run(s, events);
    assert Run(m, [e]) == Run(Step(m, e), []);
  }
}
