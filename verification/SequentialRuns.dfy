/**
  What an authorisation and a refresh do when nothing interrupts them, for any tables that hold
  the account.
 */
module SequentialRuns {
  import opened Wrappers
  import opened AccountTable
  import opened Lifecycle

  lemma {:induction false} TwoSteps(s: State, d: Event, e: Event)
    ensures Run(s, [d, e]) == Step(Step(s, d), e)
  {
    hide Step;
    assert [d, e][1..] == [e];
    assert Run(Step(s, d), [e]) == Run(Step(Step(s, d), e), []);
  }

  lemma Overwrite<K, V>(m: map<K, V>, k: K, a: V, b: V)
    ensures m[k := a][k := b] == m[k := b]
  {
  }

  lemma AddRemove<K, V>(m: map<K, V>, k: K, a: V)
    requires k !in m
    ensures m[k := a] - {k} == m
  {
  }

  // ---------- an authorisation ----------

  /** The account may be authorised and no exchange stands in the way. */
  ghost predicate Authorizable(s: State, p: nat, pub: nat) {
    && p !in s.procs && Loads(s.tables, pub)
    && s.tables.accounts[pub].status !in {Disabled, Validating, Active}
    && InsertSelects(s.tables, pub, s.tables.accounts[pub].version, s.tables.clock)
    && s.tables.nextAttempt !in s.tables.attempts
  }

  function ClaimOf(s: State, pub: nat, egress: Egress): Claim
    requires pub in s.tables.accounts
  {
    var row := s.tables.accounts[pub];
    Claim(s.tables.nextAttempt, pub, row.version, EgressFingerprint(pub, row, egress), s.tables.clock)
  }

  /** The new attempt with `status`, older pending ones cancelled. */
  function WithAttempt(s: State, pub: nat, egress: Egress, status: AttemptStatus): State
    requires pub in s.tables.accounts
  {
    var row, n := s.tables.accounts[pub], s.tables.nextAttempt;
    var attempt := Attempt(row.id, EgressFingerprint(pub, row, egress), status, s.tables.clock + ATTEMPT_TTL);
    s.(tables := s.tables.(attempts := CancelPending(s.tables.attempts, row.id)[n := attempt], nextAttempt := n + 1))
  }

  /** Call `p` holds the claimed attempt at `stage`. */
  function AtStage(s: State, p: nat, pub: nat, egress: Egress, stage: ClaimStage, serial: nat): State
    requires pub in s.tables.accounts
  {
    Go(WithAttempt(s, pub, egress, Exchanging), p, Claimed(ClaimOf(s, pub, egress), s.tables.accounts[pub], stage))
      .(log := s.log.(nextSerial := serial, claims := s.log.claims + multiset{s.tables.nextAttempt}))
  }

  /** The account is active with a fresh token and the attempt is consumed. */
  function AfterAuthorization(s: State, pub: nat, egress: Egress): State
    requires pub in s.tables.accounts
  {
    var row := s.tables.accounts[pub];
    var active := row.(credential := Some(Token(pub, s.log.nextSerial, None)),
                       credentialVersion := row.credentialVersion + 1, status := Active, version := row.version + 1);
    WithAccounts(WithAttempt(s, pub, egress, Consumed), s.tables.accounts[pub := active])
      .(log := s.log.(nextSerial := s.log.nextSerial + 1, claims := s.log.claims + multiset{s.tables.nextAttempt}))
  }

  lemma Inserts(s: State, p: nat, pub: nat, egress: Egress)
    requires Authorizable(s, p, pub)
    ensures
      DoAttemptInsert(DoAttemptLoad(s, p, pub, egress), p, s.tables.clock) == WithAttempt(s, pub, egress, Pending)
  {
    var row := s.tables.accounts[pub];
    var ready := AttemptReady(pub, row, EgressFingerprint(pub, row, egress), s.tables.clock);
    assert DoAttemptLoad(s, p, pub, egress) == Go(s, p, ready);
    AddRemove(s.procs, p, ready);
    hide CancelPending, DoAttemptLoad;
  }

  function Reading(s: State, p: nat, pub: nat, egress: Egress): State
    requires pub in s.tables.accounts
  {
    Go(WithAttempt(s, pub, egress, Pending), p, ClaimRead(ClaimOf(s, pub, egress)))
  }

  function Checked(s: State, p: nat, pub: nat, egress: Egress): State
    requires pub in s.tables.accounts
  {
    Go(WithAttempt(s, pub, egress, Pending), p, ClaimChecked(ClaimOf(s, pub, egress), s.tables.accounts[pub]))
  }

  lemma Selects(s: State, p: nat, pub: nat, egress: Egress)
    requires Authorizable(s, p, pub)
    ensures
      DoClaimSelect(WithAttempt(s, pub, egress, Pending), p, s.tables.nextAttempt, pub, s.tables.clock)
      == Reading(s, p, pub, egress)
  {
    hide CancelPending, InsertSelects;
  }

  lemma Checks(s: State, p: nat, pub: nat, egress: Egress)
    requires Authorizable(s, p, pub)
    ensures DoClaimCheck(Reading(s, p, pub, egress), p, egress) == Checked(s, p, pub, egress)
  {
    hide CancelPending, InsertSelects;
    Overwrite(s.procs, p, ClaimRead(ClaimOf(s, pub, egress)), ClaimChecked(ClaimOf(s, pub, egress), s.tables.accounts[pub]));
  }

  lemma Takes(s: State, p: nat, pub: nat, egress: Egress)
    requires Authorizable(s, p, pub)
    ensures DoClaimTake(Checked(s, p, pub, egress), p) == AtStage(s, p, pub, egress, Taken, s.log.nextSerial)
  {
    hide CancelPending, InsertSelects;
    var row, n := s.tables.accounts[pub], s.tables.nextAttempt;
    var fingerprint, expires := EgressFingerprint(pub, row, egress), s.tables.clock + ATTEMPT_TTL;
    Overwrite(CancelPending(s.tables.attempts, row.id), n,
              Attempt(row.id, fingerprint, Pending, expires), Attempt(row.id, fingerprint, Exchanging, expires));
    var claim := ClaimOf(s, pub, egress);
    Overwrite(s.procs, p, ClaimChecked(claim, row), Claimed(claim, row, Taken));
  }

  /** A claimed call moves from one stage to another. */
  lemma Stages(s: State, p: nat, pub: nat, egress: Egress, a: ClaimStage, b: ClaimStage, x: nat, y: nat)
    requires pub in s.tables.accounts
    ensures
      var m := AtStage(s, p, pub, egress, a, x);
      && p in m.procs && m.procs[p] == Claimed(ClaimOf(s, pub, egress), s.tables.accounts[pub], a)
      && Go(m, p, Claimed(ClaimOf(s, pub, egress), s.tables.accounts[pub], b)).(log := m.log.(nextSerial := y))
         == AtStage(s, p, pub, egress, b, y)
  {
    hide WithAttempt;
    var claim, row := ClaimOf(s, pub, egress), s.tables.accounts[pub];
    Overwrite(WithAttempt(s, pub, egress, Exchanging).procs, p, Claimed(claim, row, a), Claimed(claim, row, b));
  }

  lemma Exchanges(s: State, p: nat, pub: nat, egress: Egress, token: Credential)
    requires Authorizable(s, p, pub) && token == Token(pub, s.log.nextSerial, None)
    ensures
      DoClaimExchange(AtStage(s, p, pub, egress, Taken, s.log.nextSerial), p)
      == AtStage(s, p, pub, egress, Granted(token), s.log.nextSerial + 1)
  {
    Stages(s, p, pub, egress, Taken, Granted(token), s.log.nextSerial, s.log.nextSerial + 1);
    hide WithAttempt, Authorizable, ClaimOf;
    assert ClaimOf(s, pub, egress).pub == pub by { ClaimPub(s, pub, egress); }
  }

  lemma ClaimPub(s: State, pub: nat, egress: Egress)
    requires pub in s.tables.accounts
    ensures ClaimOf(s, pub, egress).pub == pub
  {
  }

  lemma Probes(s: State, p: nat, pub: nat, egress: Egress, token: Credential, serial: nat)
    requires Authorizable(s, p, pub)
    ensures
      DoClaimProbe(AtStage(s, p, pub, egress, Granted(token), serial), p)
      == AtStage(s, p, pub, egress, Probed(token), serial)
  {
    Stages(s, p, pub, egress, Granted(token), Probed(token), serial, serial);
    hide WithAttempt, Authorizable, ClaimOf;
  }

  lemma Rechecks(s: State, p: nat, pub: nat, egress: Egress, token: Credential, serial: nat)
    requires Authorizable(s, p, pub)
    ensures
      DoClaimRecheck(AtStage(s, p, pub, egress, Probed(token), serial), p, egress)
      == AtStage(s, p, pub, egress, Rechecked(token), serial)
  {
    Stages(s, p, pub, egress, Probed(token), Rechecked(token), serial, serial);
    var m := AtStage(s, p, pub, egress, Probed(token), serial);
    assert m.tables.accounts == s.tables.accounts;
    assert SameEgress(m, ClaimOf(s, pub, egress), egress);
    hide WithAttempt, Authorizable, ClaimOf, AtStage, SameEgress;
  }

  lemma CommitSelects(s: State, p: nat, pub: nat, egress: Egress, token: Credential, serial: nat)
    requires Authorizable(s, p, pub)
    ensures
      var t := AtStage(s, p, pub, egress, Rechecked(token), serial).tables;
      && CompleteSelects(t, s.tables.nextAttempt, pub, s.tables.accounts[pub].version)
      && t == WithAttempt(s, pub, egress, Exchanging).tables
  {
    hide CancelPending;
  }

  lemma CommitWrites(s: State, p: nat, pub: nat, egress: Egress, token: Credential)
    requires Authorizable(s, p, pub) && token == Token(pub, s.log.nextSerial, None)
    requires CompleteSelects(WithAttempt(s, pub, egress, Exchanging).tables, s.tables.nextAttempt, pub,
                             s.tables.accounts[pub].version)
    ensures
      CompleteAuthorization(WithAttempt(s, pub, egress, Exchanging).tables, s.tables.nextAttempt, pub,
                            s.tables.accounts[pub].version, token)
      == AfterAuthorization(s, pub, egress).tables
  {
    var row, n := s.tables.accounts[pub], s.tables.nextAttempt;
    var fingerprint, expires := EgressFingerprint(pub, row, egress), s.tables.clock + ATTEMPT_TTL;
    Overwrite(CancelPending(s.tables.attempts, row.id), n,
              Attempt(row.id, fingerprint, Exchanging, expires), Attempt(row.id, fingerprint, Consumed, expires));
    hide CancelPending, CompleteSelects, InsertSelects;
  }

  lemma Completes(s: State, p: nat, pub: nat, egress: Egress, token: Credential)
    requires Authorizable(s, p, pub) && token == Token(pub, s.log.nextSerial, None)
    ensures
      DoClaimComplete(AtStage(s, p, pub, egress, Rechecked(token), s.log.nextSerial + 1), p)
      == AfterAuthorization(s, pub, egress)
  {
    var serial := s.log.nextSerial + 1;
    Stages(s, p, pub, egress, Rechecked(token), Rechecked(token), serial, serial);
    CommitSelects(s, p, pub, egress, token, serial);
    CommitWrites(s, p, pub, egress, token);
    AddRemove(s.procs, p, Claimed(ClaimOf(s, pub, egress), s.tables.accounts[pub], Rechecked(token)));
    hide CompleteSelects, CompleteAuthorization, CancelPending, InsertSelects;
  }

  function CreateEvents(p: nat, pub: nat, egress: Egress, now: nat): seq<Event> {
    [Authorize(Prepare(p, pub, egress)), Authorize(Insert(p, now))]
  }

  function ReadEvents(p: nat, attempt: nat, pub: nat, egress: Egress, now: nat): seq<Event> {
    [Authorize(Select(p, attempt, pub, now)), Authorize(Check(p, egress))]
  }

  function TakeEvents(p: nat): seq<Event> {
    [Authorize(Take(p)), Authorize(Exchange(p))]
  }

  function ProbeEvents(p: nat, egress: Egress): seq<Event> {
    [Authorize(ProbeGrant(p)), Authorize(Recheck(p, egress))]
  }

  /** An authorisation that starts and runs at time `now`. */
  function AuthorizationEvents(p: nat, attempt: nat, pub: nat, egress: Egress, now: nat): seq<Event> {
    CreateEvents(p, pub, egress, now) + ReadEvents(p, attempt, pub, egress, now)
    + TakeEvents(p) + ProbeEvents(p, egress) + [Authorize(Complete(p))]
  }

  lemma {:induction false} CreateRuns(s: State, p: nat, pub: nat, egress: Egress)
    requires Authorizable(s, p, pub)
    ensures Run(s, CreateEvents(p, pub, egress, s.tables.clock)) == WithAttempt(s, pub, egress, Pending)
  {
    Inserts(s, p, pub, egress);
    hide Run, DoAttemptLoad, DoAttemptInsert, WithAttempt;
    TwoSteps(s, Authorize(Prepare(p, pub, egress)), Authorize(Insert(p, s.tables.clock)));
  }

  lemma {:induction false} ReadRuns(s: State, p: nat, pub: nat, egress: Egress)
    requires Authorizable(s, p, pub)
    ensures
      Run(WithAttempt(s, pub, egress, Pending), ReadEvents(p, s.tables.nextAttempt, pub, egress, s.tables.clock))
      == Checked(s, p, pub, egress)
  {
    Selects(s, p, pub, egress);
    Checks(s, p, pub, egress);
    hide Run, DoClaimSelect, DoClaimCheck, WithAttempt, Reading, Checked;
    TwoSteps(WithAttempt(s, pub, egress, Pending),
             Authorize(Select(p, s.tables.nextAttempt, pub, s.tables.clock)), Authorize(Check(p, egress)));
  }

  lemma {:induction false} TakeRuns(s: State, p: nat, pub: nat, egress: Egress, token: Credential)
    requires Authorizable(s, p, pub) && token == Token(pub, s.log.nextSerial, None)
    ensures
      Run(Checked(s, p, pub, egress), TakeEvents(p)) == AtStage(s, p, pub, egress, Granted(token), s.log.nextSerial + 1)
  {
    Takes(s, p, pub, egress);
    Exchanges(s, p, pub, egress, token);
    hide Run, DoClaimTake, DoClaimExchange, Checked, AtStage;
    TwoSteps(Checked(s, p, pub, egress), Authorize(Take(p)), Authorize(Exchange(p)));
  }

  lemma {:induction false} ProbeRuns(s: State, p: nat, pub: nat, egress: Egress, token: Credential, serial: nat)
    requires Authorizable(s, p, pub)
    ensures
      Run(AtStage(s, p, pub, egress, Granted(token), serial), ProbeEvents(p, egress))
      == AtStage(s, p, pub, egress, Rechecked(token), serial)
  {
    Probes(s, p, pub, egress, token, serial);
    Rechecks(s, p, pub, egress, token, serial);
    hide Run, DoClaimProbe, DoClaimRecheck, AtStage;
    TwoSteps(AtStage(s, p, pub, egress, Granted(token), serial), Authorize(ProbeGrant(p)), Authorize(Recheck(p, egress)));
  }

  lemma {:induction false} CompleteRuns(s: State, p: nat, pub: nat, egress: Egress, token: Credential)
    requires Authorizable(s, p, pub) && token == Token(pub, s.log.nextSerial, None)
    ensures
      Run(AtStage(s, p, pub, egress, Rechecked(token), s.log.nextSerial + 1), [Authorize(Complete(p))])
      == AfterAuthorization(s, pub, egress)
  {
    Completes(s, p, pub, egress, token);
    var m := AtStage(s, p, pub, egress, Rechecked(token), s.log.nextSerial + 1);
    hide DoClaimComplete, AtStage, AfterAuthorization, Authorizable;
    assert Run(m, [Authorize(Complete(p))]) == Run(Step(m, Authorize(Complete(p))), []);
  }

  /** Three stretches of a run, one after the other. */
  lemma {:induction false} ThreeRuns(s: State, xs: seq<Event>, ys: seq<Event>, zs: seq<Event>)
    ensures Run(s, xs + ys + zs) == Run(Run(Run(s, xs), ys), zs)
  {
    hide Run;
    RunAppend(s, xs, ys);
    RunAppend(s, xs + ys, zs);
  }

  /** An undisturbed authorisation, from the first request to the commit, cancels older pending
      attempts, consumes its own and activates the account with a fresh token. */
  lemma {:induction false} AuthorizationRuns(s: State, p: nat, pub: nat, egress: Egress)
    requires Authorizable(s, p, pub)
    ensures
      Run(s, AuthorizationEvents(p, s.tables.nextAttempt, pub, egress, s.tables.clock))
      == AfterAuthorization(s, pub, egress)
  {
    var n, now := s.tables.nextAttempt, s.tables.clock;
    var token, serial := Token(pub, s.log.nextSerial, None), s.log.nextSerial + 1;
    CreateRuns(s, p, pub, egress);
    ReadRuns(s, p, pub, egress);
    TakeRuns(s, p, pub, egress, token);
    ProbeRuns(s, p, pub, egress, token, serial);
    CompleteRuns(s, p, pub, egress, token);
    hide Run, AtStage, AfterAuthorization, WithAttempt, Checked, Authorizable,
         CreateEvents, ReadEvents, TakeEvents, ProbeEvents;
    var first := CreateEvents(p, pub, egress, now) + ReadEvents(p, n, pub, egress, now) + TakeEvents(p);
    ThreeRuns(s, CreateEvents(p, pub, egress, now), ReadEvents(p, n, pub, egress, now), TakeEvents(p));
    ThreeRuns(s, first, ProbeEvents(p, egress), [Authorize(Complete(p))]);
  }

  // ---------- a refresh ----------

  /** The account is active with a token, and nobody is refreshing it. */
  predicate Refreshable(s: State, p: nat, pub: nat) {
    && p !in s.procs && Loads(s.tables, pub)
    && s.tables.accounts[pub].status == Active && s.tables.accounts[pub].auth == OAuth
    && s.tables.accounts[pub].credential.Some?
    && s.tables.accounts[pub].id !in s.refreshes
  }

  function GrantOf(s: State, pub: nat): Grant
    requires pub in s.tables.accounts && s.tables.accounts[pub].credential.Some?
  {
    var row := s.tables.accounts[pub];
    Grant(pub, row, pub, row.credentialVersion, row.credential.value)
  }

  /** Call `p` is inside refreshCredential. */
  function AtPhase(s: State, p: nat, id: nat, phase: RefreshPhase): State {
    var call := s.log.nextCall;
    Go(s, p, Owner(call, id, phase))
      .(refreshes := s.refreshes[id := call], calls := s.calls[call := None],
        log := s.log.(nextCall := call + 1, owners := s.log.owners[call := p]))
  }

  function RotatedOf(s: State, pub: nat): Credential
    requires pub in s.tables.accounts && s.tables.accounts[pub].credential.Some?
             && s.tables.accounts[pub].credential.value.Token?
  {
    Token(pub, s.log.nextSerial, Some(s.tables.accounts[pub].credential.value.serial))
  }

  predicate HoldsToken(s: State, pub: nat) {
    && pub in s.tables.accounts && s.tables.accounts[pub].credential.Some?
    && s.tables.accounts[pub].credential.value.Token?
  }

  /** The grant was sent and answered: what a refresh knows before its write. */
  function Sent(s: State, p: nat, pub: nat, phase: RefreshPhase): State
    requires HoldsToken(s, pub)
  {
    var m := AtPhase(s, p, s.tables.accounts[pub].id, phase);
    var key := GrantKey(GrantOf(s, pub));
    m.(log := m.log.(nextSerial := s.log.nextSerial + 1,
                     sent := s.log.sent + multiset{key}, senders := s.log.senders[key := p]))
  }

  function AfterAnswer(s: State, p: nat, pub: nat): State
    requires HoldsToken(s, pub)
  {
    Sent(s, p, pub, Exchanged(GrantOf(s, pub), RotatedOf(s, pub)))
  }

  function RefreshedRow(s: State, pub: nat): Account
    requires HoldsToken(s, pub)
  {
    var row := s.tables.accounts[pub];
    row.(credential := Some(RotatedOf(s, pub)), credentialVersion := row.credentialVersion + 1, version := row.version + 1)
  }

  /** The write: the row holds the rotated token and the grant is won. */
  function AfterStore(s: State, p: nat, pub: nat, phase: RefreshPhase): State
    requires HoldsToken(s, pub)
  {
    var m := Sent(s, p, pub, phase);
    WithAccounts(m, s.tables.accounts[pub := RefreshedRow(s, pub)])
      .(log := m.log.(won := s.log.won + {GrantKey(GrantOf(s, pub))}))
  }

  /** Everyone who waits gets the candidate with the new row; the map is as before. */
  function AfterRefresh(s: State, p: nat, pub: nat): State
    requires HoldsToken(s, pub)
  {
    var answer := Candidate(pub, RefreshedRow(s, pub));
    var m := AfterStore(s, p, pub, Answered(answer));
    Go(m, p, Returned(s.log.nextCall, answer))
      .(refreshes := s.refreshes, calls := s.calls[s.log.nextCall := Some(answer)])
  }

  /** A call inside refreshCredential moves from one phase to another. */
  lemma Phases(s: State, p: nat, id: nat, a: RefreshPhase, b: RefreshPhase)
    ensures
      var m := AtPhase(s, p, id, a);
      && p in m.procs && m.procs[p] == Owner(s.log.nextCall, id, a)
      && Go(m, p, Owner(s.log.nextCall, id, b)) == AtPhase(s, p, id, b)
  {
    Overwrite(s.procs, p, Owner(s.log.nextCall, id, a), Owner(s.log.nextCall, id, b));
  }

  lemma Joins(s: State, p: nat, pub: nat)
    requires Refreshable(s, p, pub)
    ensures
      var row := s.tables.accounts[pub];
      DoEnsure(DoHold(s, p, pub), p) == AtPhase(s, p, row.id, Entered(pub, row))
  {
    var row := s.tables.accounts[pub];
    Overwrite(s.procs, p, Holding(pub, row), Owner(s.log.nextCall, row.id, Entered(pub, row)));
    assert DoHold(s, p, pub) == Go(s, p, Holding(pub, row));
  }

  lemma LoadsAgain(s: State, p: nat, pub: nat)
    requires Refreshable(s, p, pub)
    ensures
      var row := s.tables.accounts[pub];
      DoRefreshLoad(AtPhase(s, p, row.id, Entered(pub, row)), p) == AtPhase(s, p, row.id, Loaded(pub, row))
  {
    var row := s.tables.accounts[pub];
    Phases(s, p, row.id, Entered(pub, row), Loaded(pub, row));
    assert AtPhase(s, p, row.id, Entered(pub, row)).tables == s.tables;
    hide AtPhase;
  }

  lemma Reads(s: State, p: nat, pub: nat)
    requires Refreshable(s, p, pub)
    ensures
      var row := s.tables.accounts[pub];
      DoRefreshRead(AtPhase(s, p, row.id, Loaded(pub, row)), p, pub) == AtPhase(s, p, row.id, Ready(GrantOf(s, pub)))
  {
    var row := s.tables.accounts[pub];
    Phases(s, p, row.id, Loaded(pub, row), Ready(GrantOf(s, pub)));
    assert AtPhase(s, p, row.id, Loaded(pub, row)).tables == s.tables;
    hide AtPhase;
  }

  lemma Sends(s: State, p: nat, pub: nat)
    requires Refreshable(s, p, pub)
    ensures HoldsToken(s, pub)
    ensures
      DoRefreshReceive(DoRefreshSend(AtPhase(s, p, s.tables.accounts[pub].id, Ready(GrantOf(s, pub))), p), p)
      == AfterAnswer(s, p, pub)
  {
    var id, grant := s.tables.accounts[pub].id, GrantOf(s, pub);
    Phases(s, p, id, Ready(grant), InFlight(grant));
    Overwrite(s.procs, p, Owner(s.log.nextCall, id, InFlight(grant)),
              Owner(s.log.nextCall, id, Exchanged(grant, RotatedOf(s, pub))));
  }

  lemma Stores(s: State, p: nat, pub: nat)
    requires Refreshable(s, p, pub) && HoldsToken(s, pub)
    ensures DoRefreshStore(AfterAnswer(s, p, pub), p, pub) == AfterStore(s, p, pub, Stored(pub))
  {
    var id := s.tables.accounts[pub].id;
    Overwrite(s.procs, p, Owner(s.log.nextCall, id, Exchanged(GrantOf(s, pub), RotatedOf(s, pub))),
              Owner(s.log.nextCall, id, Stored(pub)));
  }

  lemma Reloads(s: State, p: nat, pub: nat)
    requires Refreshable(s, p, pub) && HoldsToken(s, pub)
    ensures
      DoRefreshReload(AfterStore(s, p, pub, Stored(pub)), p)
      == AfterStore(s, p, pub, Answered(Candidate(pub, RefreshedRow(s, pub))))
  {
    var id := s.tables.accounts[pub].id;
    Overwrite(s.procs, p, Owner(s.log.nextCall, id, Stored(pub)),
              Owner(s.log.nextCall, id, Answered(Candidate(pub, RefreshedRow(s, pub)))));
    assert Loadable(pub, RefreshedRow(s, pub));
  }

  lemma Publishes(s: State, p: nat, pub: nat)
    requires Refreshable(s, p, pub) && HoldsToken(s, pub)
    ensures
      DoRefreshPublish(AfterStore(s, p, pub, Answered(Candidate(pub, RefreshedRow(s, pub)))), p) == AfterRefresh(s, p, pub)
  {
    var id, answer := s.tables.accounts[pub].id, Candidate(pub, RefreshedRow(s, pub));
    Overwrite(s.procs, p, Owner(s.log.nextCall, id, Answered(answer)), Returned(s.log.nextCall, answer));
    AddRemove(s.refreshes, id, s.log.nextCall);
    Overwrite(s.calls, s.log.nextCall, None, Some(answer));
  }

  function JoinEvents(p: nat, pub: nat): seq<Event> {
    [Refresh(Hold(p, pub)), Refresh(Ensure(p))]
  }

  function LoadEvents(p: nat, pub: nat): seq<Event> {
    [Refresh(LoadAgain(p)), Refresh(Read(p, pub))]
  }

  function AnswerEvents(p: nat): seq<Event> {
    [Refresh(Send(p)), Refresh(Receive(p))]
  }

  function GrantEvents(p: nat, pub: nat): seq<Event> {
    JoinEvents(p, pub) + LoadEvents(p, pub) + AnswerEvents(p)
  }

  function StoreEvents(p: nat, pub: nat): seq<Event> {
    [Refresh(Store(p, pub)), Refresh(Reload(p))]
  }

  function RefreshEvents(p: nat, pub: nat): seq<Event> {
    GrantEvents(p, pub) + StoreEvents(p, pub) + [Refresh(Publish(p))]
  }

  lemma {:induction false} JoinRuns(s: State, p: nat, pub: nat)
    requires Refreshable(s, p, pub)
    ensures
      Run(s, JoinEvents(p, pub)) == AtPhase(s, p, s.tables.accounts[pub].id, Entered(pub, s.tables.accounts[pub]))
  {
    hide Run, DoEnsure, DoHold, AtPhase, Refreshable;
    Joins(s, p, pub);
    TwoSteps(s, Refresh(Hold(p, pub)), Refresh(Ensure(p)));
  }

  lemma {:induction false} LoadRuns(s: State, p: nat, pub: nat)
    requires Refreshable(s, p, pub)
    ensures
      var row := s.tables.accounts[pub];
      Run(AtPhase(s, p, row.id, Entered(pub, row)), LoadEvents(p, pub)) == AtPhase(s, p, row.id, Ready(GrantOf(s, pub)))
  {
    var row := s.tables.accounts[pub];
    hide Run, DoRefreshLoad, DoRefreshRead, AtPhase, GrantOf, Refreshable;
    LoadsAgain(s, p, pub);
    Reads(s, p, pub);
    TwoSteps(AtPhase(s, p, row.id, Entered(pub, row)), Refresh(LoadAgain(p)), Refresh(Read(p, pub)));
  }

  lemma {:induction false} AnswerRuns(s: State, p: nat, pub: nat)
    requires Refreshable(s, p, pub)
    ensures HoldsToken(s, pub)
    ensures
      Run(AtPhase(s, p, s.tables.accounts[pub].id, Ready(GrantOf(s, pub))), AnswerEvents(p)) == AfterAnswer(s, p, pub)
  {
    hide Run, DoRefreshSend, DoRefreshReceive, AtPhase, AfterAnswer, GrantOf, Refreshable;
    Sends(s, p, pub);
    var m := AtPhase(s, p, s.tables.accounts[pub].id, Ready(GrantOf(s, pub)));
    TwoSteps(m, Refresh(Send(p)), Refresh(Receive(p)));
  }

  /** A refresh up to the server's answer. */
  lemma {:induction false} GrantRuns(s: State, p: nat, pub: nat)
    requires Refreshable(s, p, pub)
    ensures HoldsToken(s, pub) && Run(s, GrantEvents(p, pub)) == AfterAnswer(s, p, pub)
  {
    hide Run, AtPhase, AfterAnswer, GrantOf, Refreshable, JoinEvents, LoadEvents, AnswerEvents;
    JoinRuns(s, p, pub);
    LoadRuns(s, p, pub);
    AnswerRuns(s, p, pub);
    ThreeRuns(s, JoinEvents(p, pub), LoadEvents(p, pub), AnswerEvents(p));
  }

  lemma {:induction false} StoreRuns(s: State, p: nat, pub: nat)
    requires Refreshable(s, p, pub) && HoldsToken(s, pub)
    ensures
      Run(AfterAnswer(s, p, pub), StoreEvents(p, pub))
      == AfterStore(s, p, pub, Answered(Candidate(pub, RefreshedRow(s, pub))))
  {
    hide Run, DoRefreshStore, DoRefreshReload, AfterAnswer, AfterStore, Refreshable, RefreshedRow;
    Stores(s, p, pub);
    Reloads(s, p, pub);
    TwoSteps(AfterAnswer(s, p, pub), Refresh(Store(p, pub)), Refresh(Reload(p)));
  }

  lemma {:induction false} PublishRuns(s: State, p: nat, pub: nat)
    requires Refreshable(s, p, pub) && HoldsToken(s, pub)
    ensures
      Run(AfterStore(s, p, pub, Answered(Candidate(pub, RefreshedRow(s, pub)))), [Refresh(Publish(p))])
      == AfterRefresh(s, p, pub)
  {
    hide DoRefreshPublish, AfterStore, AfterRefresh, Refreshable, RefreshedRow;
    Publishes(s, p, pub);
    var m := AfterStore(s, p, pub, Answered(Candidate(pub, RefreshedRow(s, pub))));
    assert Run(m, [Refresh(Publish(p))]) == Run(Step(m, Refresh(Publish(p))), []);
  }

  /** An undisturbed refresh, from the caller's candidate to the published answer, rotates the
      stored token and leaves the refresh map as it found it. */
  lemma {:induction false} RefreshRuns(s: State, p: nat, pub: nat)
    requires Refreshable(s, p, pub)
    ensures HoldsToken(s, pub) && Run(s, RefreshEvents(p, pub)) == AfterRefresh(s, p, pub)
  {
    hide Run, AfterAnswer, AfterStore, AfterRefresh, Refreshable, RefreshedRow, GrantEvents, StoreEvents;
    GrantRuns(s, p, pub);
    StoreRuns(s, p, pub);
    PublishRuns(s, p, pub);
    ThreeRuns(s, GrantEvents(p, pub), StoreEvents(p, pub), [Refresh(Publish(p))]);
  }

  // ---------- a validation ----------

  /** An API key account that is not being validated, whatever else its status. */
  predicate Checkable(s: State, p: nat, pub: nat) {
    && p !in s.procs && Loads(s.tables, pub)
    && s.tables.accounts[pub].auth == ApiKey && s.tables.accounts[pub].credential.Some?
    && s.tables.accounts[pub].status != Validating
  }

  /** The row under validation, and after its success. */
  function ValidatingRow(row: Account): Account {
    row.(status := Validating, version := row.version + 1)
  }

  function ValidatedRow(row: Account): Account {
    row.(status := Active, version := row.version + 2)
  }

  function Begun(s: State, p: nat, pub: nat): State
    requires pub in s.tables.accounts
  {
    WithAccounts(Go(s, p, ValidateBegun(pub)), s.tables.accounts[pub := ValidatingRow(s.tables.accounts[pub])])
  }

  function ConfigLoaded(s: State, p: nat, pub: nat): State
    requires pub in s.tables.accounts
  {
    var row := ValidatingRow(s.tables.accounts[pub]);
    WithAccounts(Go(s, p, ValidateLoaded(pub, row.version, row)), s.tables.accounts[pub := row])
  }

  function AfterValidation(s: State, pub: nat): State
    requires pub in s.tables.accounts && s.tables.accounts[pub].credential.Some?
  {
    var row := s.tables.accounts[pub];
    WithAccounts(s, s.tables.accounts[pub := ValidatedRow(row)])
      .(log := s.log.(probes := s.log.probes + {ProbeRecord(pub, row.upstream, row.proxy, row.credential.value)}))
  }

  function BeginEvents(p: nat, pub: nat, version: nat): seq<Event> {
    [Validate(Start(p, pub, version)), Validate(Begin(p))]
  }

  function ConfigEvents(p: nat): seq<Event> {
    [Validate(Get(p)), Validate(Load(p))]
  }

  function FinishEvents(p: nat): seq<Event> {
    [Validate(Probe(p)), Validate(Finish(p))]
  }

  function ValidationEvents(p: nat, pub: nat, version: nat): seq<Event> {
    BeginEvents(p, pub, version) + ConfigEvents(p) + FinishEvents(p)
  }

  lemma Begins(s: State, p: nat, pub: nat)
    requires Checkable(s, p, pub)
    ensures DoValidateBegin(DoValidateStart(s, p, pub, s.tables.accounts[pub].version), p) == Begun(s, p, pub)
  {
    Overwrite(s.procs, p, ValidateReady(pub, s.tables.accounts[pub].version), ValidateBegun(pub));
  }

  lemma LoadsConfig(s: State, p: nat, pub: nat)
    requires Checkable(s, p, pub)
    ensures DoValidateLoad(DoValidateGet(Begun(s, p, pub), p), p) == ConfigLoaded(s, p, pub)
  {
    var row := ValidatingRow(s.tables.accounts[pub]);
    Overwrite(s.procs, p, ValidateBegun(pub), ValidateGot(pub, row.version));
    Overwrite(s.procs, p, ValidateGot(pub, row.version), ValidateLoaded(pub, row.version, row));
  }

  lemma Finishes(s: State, p: nat, pub: nat)
    requires Checkable(s, p, pub)
    ensures DoValidateFinish(DoValidateProbe(ConfigLoaded(s, p, pub), p), p) == AfterValidation(s, pub)
  {
    var row := ValidatingRow(s.tables.accounts[pub]);
    Overwrite(s.procs, p, ValidateLoaded(pub, row.version, row), ValidateProbed(pub, row.version, row));
    AddRemove(s.procs, p, ValidateProbed(pub, row.version, row));
    Overwrite(s.tables.accounts, pub, row, ValidatedRow(s.tables.accounts[pub]));
  }

  lemma {:induction false} BeginRuns(s: State, p: nat, pub: nat)
    requires Checkable(s, p, pub)
    ensures Run(s, BeginEvents(p, pub, s.tables.accounts[pub].version)) == Begun(s, p, pub)
  {
    var version := s.tables.accounts[pub].version;
    hide Run, DoValidateBegin, DoValidateStart, Begun, Checkable;
    Begins(s, p, pub);
    TwoSteps(s, Validate(Start(p, pub, version)), Validate(Begin(p)));
  }

  lemma {:induction false} ConfigRuns(s: State, p: nat, pub: nat)
    requires Checkable(s, p, pub)
    ensures Run(Begun(s, p, pub), ConfigEvents(p)) == ConfigLoaded(s, p, pub)
  {
    hide Run, DoValidateLoad, DoValidateGet, Begun, ConfigLoaded;
    LoadsConfig(s, p, pub);
    TwoSteps(Begun(s, p, pub), Validate(Get(p)), Validate(Load(p)));
  }

  lemma {:induction false} FinishRuns(s: State, p: nat, pub: nat)
    requires Checkable(s, p, pub)
    ensures Run(ConfigLoaded(s, p, pub), FinishEvents(p)) == AfterValidation(s, pub)
  {
    hide Run, DoValidateFinish, DoValidateProbe, ConfigLoaded, AfterValidation;
    Finishes(s, p, pub);
    TwoSteps(ConfigLoaded(s, p, pub), Validate(Probe(p)), Validate(Finish(p)));
  }

  /** An undisturbed validation activates an API key account from any status but validating, also
      one that was disabled, and leaves its configuration as it was. */
  lemma {:induction false} ValidationRuns(s: State, p: nat, pub: nat)
    requires Checkable(s, p, pub)
    ensures Run(s, ValidationEvents(p, pub, s.tables.accounts[pub].version)) == AfterValidation(s, pub)
  {
    var version := s.tables.accounts[pub].version;
    hide Run, Begun, ConfigLoaded, AfterValidation, Checkable, BeginEvents, ConfigEvents, FinishEvents;
    BeginRuns(s, p, pub);
    ConfigRuns(s, p, pub);
    FinishRuns(s, p, pub);
    ThreeRuns(s, BeginEvents(p, pub, version), ConfigEvents(p), FinishEvents(p));
  }
}
