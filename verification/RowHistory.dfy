/**
  What every step keeps of the account rows. Row versions never fall, and a version
  determines its row, so a compare-and-swap that succeeds proves that the row is still the
  one its caller read. From this follow: an active account is the account that was probed,
  and no row ever takes over another row's public id.
 */
module RowHistory {
  import opened Wrappers
  import opened AccountTable
  import opened Lifecycle

  // ---------- how rows may change ----------

  predicate RowEvolves(r: Account, later: Account) {
    && later.id == r.id
    && later.auth == r.auth
    && r.version <= later.version
    && (r.version == later.version ==> later == r)
    && r.credentialVersion <= later.credentialVersion
  }

  /** Rows change by RowEvolves, may disappear, and appear under fresh public ids only. */
  ghost predicate AccountsEvolve(a: Accounts, b: Accounts, nextPub: nat) {
    && (forall pub | pub in a && pub in b :: RowEvolves(a[pub], b[pub]))
    && (forall pub <- b :: pub in a || nextPub <= pub)
  }

  ghost predicate TablesEvolve(t: Tables, u: Tables) {
    && t.nextPub <= u.nextPub
    && t.nextAttempt <= u.nextAttempt
    && t.clock <= u.clock
    && (forall pub <- t.ids :: pub in u.ids && u.ids[pub] == t.ids[pub])
    && AccountsEvolve(t.accounts, u.accounts, t.nextPub)
  }

  predicate LogGrows(l: Log, m: Log) {
    l.probes <= m.probes && l.nextSerial <= m.nextSerial
  }

  // ---------- invariants ----------

  ghost predicate TablesOk(t: Tables) {
    && (forall pub <- t.accounts :: pub < t.nextPub && pub in t.ids && t.ids[pub] == t.accounts[pub].id)
    && (forall pub <- t.ids :: pub < t.nextPub)
    && (forall p, q | p in t.accounts && q in t.accounts && t.accounts[p].id == t.accounts[q].id :: p == q)
  }

  predicate SerialBelow(credential: Option<Credential>, bound: nat) {
    credential.Some? && credential.value.Token? ==> credential.value.serial < bound
  }

  /** An active account holds a credential; with an API key, its own upstream, proxy and
      credential are those of a successful probe of this account. */
  predicate WasProbed(pub: nat, row: Account, log: Log) {
    row.status == Active ==>
      && row.credential.Some?
      && (row.auth == ApiKey ==> ProbeRecord(pub, row.upstream, row.proxy, row.credential.value) in log.probes)
  }

  predicate RowOk(pub: nat, row: Account, log: Log) {
    && WasProbed(pub, row, log)
    && (row.auth == ApiKey ==> row.credential.Some?)
    && SerialBelow(row.credential, log.nextSerial)
  }

  ghost predicate RowsOk(t: Tables, log: Log) {
    forall pub <- t.accounts :: RowOk(pub, t.accounts[pub], log)
  }

  /** `seen` was read as the row of `pub` at some earlier point. */
  ghost predicate Seen(t: Tables, pub: nat, seen: Account) {
    && pub in t.ids && t.ids[pub] == seen.id
    && pub < t.nextPub
    && (pub in t.accounts ==> RowEvolves(seen, t.accounts[pub]))
  }

  predicate Keyed(t: Tables, pub: nat) {
    && pub < t.nextPub
    && (pub in t.accounts ==> t.accounts[pub].auth == ApiKey)
  }

  /** `grant` was read from row `source`, which is the candidate's own row while that exists. */
  ghost predicate GrantOk(t: Tables, log: Log, id: nat, grant: Grant) {
    && Seen(t, grant.pub, grant.candidate)
    && grant.candidate.id == id
    && grant.source in t.ids && t.ids[grant.source] == id && grant.source < t.nextPub
    && grant.token.Token? && grant.token.owner == grant.pub && grant.token.serial < log.nextSerial
    && (grant.pub in t.accounts ==> grant.source == grant.pub)
  }

  ghost predicate PhaseOk(t: Tables, log: Log, id: nat, phase: RefreshPhase) {
    match phase
    case Entered(pub, selected) => Seen(t, pub, selected) && selected.id == id
    case Loaded(pub, candidate) => Seen(t, pub, candidate) && candidate.id == id
    case Ready(grant) => GrantOk(t, log, id, grant)
    case InFlight(grant) => GrantOk(t, log, id, grant)
    case Exchanged(grant, rotated) =>
      && GrantOk(t, log, id, grant)
      && rotated.Token? && rotated.owner == grant.pub && rotated.parent == Some(grant.token.serial)
      && grant.token.serial < rotated.serial < log.nextSerial
    case Rejected(grant) => GrantOk(t, log, id, grant)
    case _ => true
  }

  ghost predicate ClaimOk(t: Tables, claim: Claim) {
    claim.pub < t.nextPub && claim.now <= t.clock
  }

  ghost predicate StageOk(log: Log, claim: Claim, seen: Account, stage: ClaimStage) {
    match stage
    case Granted(token) => TokenOk(log, claim, seen, token)
    case Probed(token) => TokenOk(log, claim, seen, token)
    case Rechecked(token) => TokenOk(log, claim, seen, token)
    case _ => true
  }

  predicate TokenOk(log: Log, claim: Claim, seen: Account, token: Credential) {
    && token.Token? && token.owner == claim.pub && token.parent.None?
    && SerialBelow(seen.credential, token.serial)
    && token.serial < log.nextSerial
  }

  ghost predicate CheckedOk(t: Tables, log: Log, claim: Claim, seen: Account) {
    && ClaimOk(t, claim)
    && Seen(t, claim.pub, seen)
    && seen.version == claim.version
    && claim.fingerprint.account == claim.pub
    && claim.fingerprint.version == claim.version
    && SerialBelow(seen.credential, log.nextSerial)
  }

  ghost predicate ProcOk(t: Tables, log: Log, proc: Proc) {
    match proc
    case UpdateReady(pub, expected, seen, input) =>
      Seen(t, pub, seen) && UpdateAllowed(seen, input) && RowOk(pub, seen, log)
    case ValidateReady(pub, _) => Keyed(t, pub)
    case ValidateBegun(pub) => Keyed(t, pub)
    case ValidateGot(pub, version) => Keyed(t, pub) && (pub in t.accounts ==> version <= t.accounts[pub].version)
    case ValidateLoaded(pub, version, seen) =>
      Keyed(t, pub) && Seen(t, pub, seen) && version <= seen.version && seen.auth == ApiKey && seen.credential.Some?
    case ValidateProbed(pub, version, seen) =>
      && Keyed(t, pub) && Seen(t, pub, seen) && version <= seen.version
      && seen.auth == ApiKey && seen.credential.Some?
      && ProbeRecord(pub, seen.upstream, seen.proxy, seen.credential.value) in log.probes
    case Holding(pub, seen) => Seen(t, pub, seen)
    case Owner(_, id, phase) => PhaseOk(t, log, id, phase)
    case AttemptReady(pub, seen, fingerprint, loaded) =>
      && Seen(t, pub, seen) && loaded <= t.clock
      && fingerprint.account == pub && fingerprint.version == seen.version
    case ClaimRead(claim) => ClaimOk(t, claim)
    case ClaimChecked(claim, seen) => CheckedOk(t, log, claim, seen)
    case Claimed(claim, seen, stage) => CheckedOk(t, log, claim, seen) && StageOk(log, claim, seen, stage)
    case _ => true
  }

  ghost predicate ProcsOk(s: State) {
    forall p <- s.procs :: ProcOk(s.tables, s.log, s.procs[p])
  }

  ghost predicate Inv(s: State) {
    TablesOk(s.tables) && RowsOk(s.tables, s.log) && ProcsOk(s)
  }

  // ---------- stability ----------

  lemma SeenStable(t: Tables, u: Tables, pub: nat, seen: Account)
    requires TablesEvolve(t, u) && Seen(t, pub, seen)
    requires forall q <- u.accounts :: q in t.accounts || t.nextPub <= q
    ensures Seen(u, pub, seen)
  {
  }

  lemma ProcStable(t: Tables, l: Log, u: Tables, m: Log, proc: Proc)
    requires TablesEvolve(t, u) && LogGrows(l, m) && TablesOk(u)
    requires ProcOk(t, l, proc)
    ensures ProcOk(u, m, proc)
  {
    match proc
    case Owner(_, id, phase) => PhaseStable(t, l, u, m, id, phase);
    case _ =>
  }

  lemma GrantStable(t: Tables, l: Log, u: Tables, m: Log, id: nat, grant: Grant)
    requires TablesEvolve(t, u) && LogGrows(l, m) && TablesOk(u)
    requires GrantOk(t, l, id, grant)
    ensures GrantOk(u, m, id, grant)
  {
    SeenStable(t, u, grant.pub, grant.candidate);
  }

  lemma PhaseStable(t: Tables, l: Log, u: Tables, m: Log, id: nat, phase: RefreshPhase)
    requires TablesEvolve(t, u) && LogGrows(l, m) && TablesOk(u)
    requires PhaseOk(t, l, id, phase)
    ensures PhaseOk(u, m, id, phase)
  {
    match phase
    case Ready(grant) => GrantStable(t, l, u, m, id, grant);
    case InFlight(grant) => GrantStable(t, l, u, m, id, grant);
    case Exchanged(grant, _) => GrantStable(t, l, u, m, id, grant);
    case Rejected(grant) => GrantStable(t, l, u, m, id, grant);
    case _ =>
  }

  /** Every call is where it was, or where the step may leave it. */
  ghost predicate Moves(s: State, s': State) {
    forall q <- s'.procs ::
      (q in s.procs && s'.procs[q] == s.procs[q]) || ProcOk(s'.tables, s'.log, s'.procs[q])
  }

  /** What every step keeps. */
  ghost predicate Kept(s: State, s': State) {
    Inv(s') && TablesEvolve(s.tables, s'.tables) && LogGrows(s.log, s'.log)
  }

  lemma Frame(s: State, s': State)
    requires Inv(s)
    requires TablesEvolve(s.tables, s'.tables) && LogGrows(s.log, s'.log)
    requires TablesOk(s'.tables) && RowsOk(s'.tables, s'.log)
    requires Moves(s, s')
    ensures Kept(s, s')
  {
    forall q <- s'.procs ensures ProcOk(s'.tables, s'.log, s'.procs[q]) {
      if q in s.procs && s'.procs[q] == s.procs[q] { ProcStable(s.tables, s.log, s'.tables, s'.log, s.procs[q]); }
    }
  }

  /** A step that writes no account row. */
  lemma QuietFrame(s: State, s': State)
    requires Inv(s) && LogGrows(s.log, s'.log)
    requires s'.tables.accounts == s.tables.accounts && s'.tables.ids == s.tables.ids
    requires s'.tables.nextPub == s.tables.nextPub && s.tables.clock <= s'.tables.clock
    requires s.tables.nextAttempt <= s'.tables.nextAttempt
    requires Moves(s, s')
    ensures Kept(s, s')
  {
    Frame(s, s');
  }

  /** Call `p` moves to `proc`; the tables are untouched. */
  lemma Advance(s: State, s': State, p: nat, proc: Proc)
    requires Inv(s) && LogGrows(s.log, s'.log)
    requires s'.tables == s.tables && s'.procs == s.procs[p := proc]
    requires ProcOk(s.tables, s'.log, proc)
    ensures Kept(s, s')
  {
    QuietFrame(s, s');
  }

  lemma Stutter(s: State)
    requires Inv(s)
    ensures Kept(s, s)
  {
  }

  /** Writing one row by a legal change keeps the table invariants. */
  lemma OneRow(t: Tables, log: Log, pub: nat, row: Account)
    requires TablesOk(t) && RowsOk(t, log)
    requires pub in t.accounts && RowEvolves(t.accounts[pub], row)
    requires RowOk(pub, row, log)
    ensures
      var u := t.(accounts := t.accounts[pub := row]);
      TablesOk(u) && TablesEvolve(t, u) && RowsOk(u, log)
  {
  }

  /** A step that writes the row of `pub` at most. */
  lemma RowFrame(s: State, s': State, pub: nat)
    requires Inv(s) && LogGrows(s.log, s'.log)
    requires pub in s.tables.accounts && pub in s'.tables.accounts
    requires s'.tables.accounts == s.tables.accounts[pub := s'.tables.accounts[pub]]
    requires RowEvolves(s.tables.accounts[pub], s'.tables.accounts[pub])
    requires RowOk(pub, s'.tables.accounts[pub], s.log)
    requires s'.tables.ids == s.tables.ids && s'.tables.nextPub == s.tables.nextPub
    requires s'.tables.clock == s.tables.clock && s'.tables.nextAttempt == s.tables.nextAttempt
    requires Moves(s, s')
    ensures Kept(s, s')
  {
    OneRow(s.tables, s.log, pub, s'.tables.accounts[pub]);
    Frame(s, s');
  }

  // ---------- administrator ----------

  /** Inserting a row under a fresh public id and an unused internal id. */
  lemma InsertRow(t: Tables, log: Log, row: Account)
    requires TablesOk(t) && RowsOk(t, log)
    requires forall pub <- t.accounts :: t.accounts[pub].id < row.id
    requires RowOk(t.nextPub, row, log)
    ensures
      var u := t.(accounts := t.accounts[t.nextPub := row], ids := t.ids[t.nextPub := row.id], nextPub := t.nextPub + 1);
      TablesOk(u) && TablesEvolve(t, u) && RowsOk(u, log)
  {
  }

  lemma CreateKeeps(s: State, id: nat, auth: AuthKind, upstream: nat, proxy: Option<nat>, key: Option<nat>,
                    status: AccountStatus)
    requires Inv(s)
    ensures Kept(s, DoCreate(s, id, auth, upstream, proxy, key, status))
  {
    if CreateAllowed(auth, key, status) && NextRowId(s.tables.accounts, id) {
      var row := NewAccount(s.tables.nextPub, id, auth, upstream, proxy, key, status);
      InsertRow(s.tables, s.log, row);
      Frame(s, DoCreate(s, id, auth, upstream, proxy, key, status));
    }
  }

  lemma UpdateReadKeeps(s: State, p: nat, pub: nat, expected: nat, input: UpdateInput)
    requires Inv(s)
    ensures Kept(s, DoUpdateRead(s, p, pub, expected, input))
  {
    QuietFrame(s, DoUpdateRead(s, p, pub, expected, input));
  }

  lemma UpdateCommitKeeps(s: State, p: nat)
    requires Inv(s)
    ensures Kept(s, DoUpdateCommit(s, p))
  {
    var s' := DoUpdateCommit(s, p);
    if p in s.procs && s.procs[p].UpdateReady? && AtVersion(s.tables.accounts, s.procs[p].pub, s.procs[p].expected) {
      assert ProcOk(s.tables, s.log, s.procs[p]);
      RowFrame(s, s', s.procs[p].pub);
    } else {
      QuietFrame(s, s');
    }
  }

  lemma DeleteKeeps(s: State, pub: nat, expected: nat)
    requires Inv(s)
    ensures Kept(s, DoDelete(s, pub, expected))
  {
    var s' := DoDelete(s, pub, expected);
    forall q <- s'.procs ensures ProcOk(s'.tables, s'.log, s'.procs[q]) {
      ProcStable(s.tables, s.log, s'.tables, s'.log, s.procs[q]);
    }
  }

  // ---------- account validation ----------

  lemma ValidateStartKeeps(s: State, p: nat, pub: nat, expected: nat)
    requires Inv(s)
    ensures Kept(s, DoValidateStart(s, p, pub, expected))
  {
    QuietFrame(s, DoValidateStart(s, p, pub, expected));
  }

  lemma ValidateBeginKeeps(s: State, p: nat)
    requires Inv(s)
    ensures Kept(s, DoValidateBegin(s, p))
  {
    var s' := DoValidateBegin(s, p);
    if p in s.procs && s.procs[p].ValidateReady? {
      assert ProcOk(s.tables, s.log, s.procs[p]);
      var v := s.procs[p];
      if AtVersion(s.tables.accounts, v.pub, v.expected) && s.tables.accounts[v.pub].status != Validating {
        assert RowOk(v.pub, s.tables.accounts[v.pub], s.log);
        RowFrame(s, s', v.pub);
        return;
      }
    }
    QuietFrame(s, s');
  }

  lemma ValidateGetKeeps(s: State, p: nat)
    requires Inv(s)
    ensures Kept(s, DoValidateGet(s, p))
  {
    assert p in s.procs ==> ProcOk(s.tables, s.log, s.procs[p]);
    QuietFrame(s, DoValidateGet(s, p));
  }

  lemma ValidateLoadKeeps(s: State, p: nat)
    requires Inv(s)
    ensures Kept(s, DoValidateLoad(s, p))
  {
    assert p in s.procs ==> ProcOk(s.tables, s.log, s.procs[p]);
    QuietFrame(s, DoValidateLoad(s, p));
  }

  lemma ValidateProbeKeeps(s: State, p: nat)
    requires Inv(s)
    ensures Kept(s, DoValidateProbe(s, p))
  {
    assert p in s.procs ==> ProcOk(s.tables, s.log, s.procs[p]);
    QuietFrame(s, DoValidateProbe(s, p));
  }

  lemma ValidateFailKeeps(s: State, p: nat)
    requires Inv(s)
    ensures Kept(s, DoValidateFail(s, p))
  {
    assert p in s.procs ==> ProcOk(s.tables, s.log, s.procs[p]);
    QuietFrame(s, DoValidateFail(s, p));
  }

  /** The finish of a successful validation finds exactly the row that was probed. */
  lemma FinishSeesItsRow(s: State, p: nat)
    requires Inv(s) && p in s.procs && s.procs[p].ValidateProbed?
    requires AtVersion(s.tables.accounts, s.procs[p].pub, s.procs[p].version)
    ensures s.tables.accounts[s.procs[p].pub] == s.procs[p].seen
  {
    assert ProcOk(s.tables, s.log, s.procs[p]);
  }

  lemma ValidateFinishKeeps(s: State, p: nat)
    requires Inv(s)
    ensures Kept(s, DoValidateFinish(s, p))
  {
    var s' := DoValidateFinish(s, p);
    if p in s.procs && s.procs[p].ValidateProbed? {
      assert ProcOk(s.tables, s.log, s.procs[p]);
      var v := s.procs[p];
      if FinishSelects(s.tables.accounts, v.pub, v.version, true) {
        FinishSeesItsRow(s, p);
        assert RowOk(v.pub, s.tables.accounts[v.pub], s.log);
        RowFrame(s, s', v.pub);
        return;
      }
    }
    QuietFrame(s, s');
  }

  lemma ValidateFinishFailedKeeps(s: State, p: nat)
    requires Inv(s)
    ensures Kept(s, DoValidateFinishFailed(s, p))
  {
    var s' := DoValidateFinishFailed(s, p);
    if p in s.procs && s.procs[p].ValidateFailing? {
      var v := s.procs[p];
      if FinishSelects(s.tables.accounts, v.pub, v.version, false) {
        assert RowOk(v.pub, s.tables.accounts[v.pub], s.log);
        RowFrame(s, s', v.pub);
        return;
      }
    }
    QuietFrame(s, s');
  }

  // ---------- credential refresh ----------

  lemma HoldKeeps(s: State, p: nat, pub: nat)
    requires Inv(s)
    ensures Kept(s, DoHold(s, p, pub))
  {
    QuietFrame(s, DoHold(s, p, pub));
  }

  lemma EnsureKeeps(s: State, p: nat)
    requires Inv(s)
    ensures Kept(s, DoEnsure(s, p))
  {
    var s' := DoEnsure(s, p);
    if p in s.procs && s.procs[p].Holding? && s.procs[p].seen.auth == OAuth {
      assert ProcOk(s.tables, s.log, s.procs[p]);
      hide Inv, Kept;
      Advance(s, s', p, s'.procs[p]);
    } else {
      hide Inv, Kept;
      Stutter(s);
    }
  }

  lemma AfterLoadOk(t: Tables, log: Log, id: nat, pub: nat, selected: Account)
    requires TablesOk(t) && PhaseOk(t, log, id, Entered(pub, selected))
    ensures PhaseOk(t, log, id, AfterLoad(t, pub, selected))
  {
  }

  /** The row read by internal id is the candidate's own row as long as that row exists. */
  lemma AfterReadOk(t: Tables, log: Log, id: nat, pub: nat, candidate: Account, source: nat)
    requires TablesOk(t) && RowsOk(t, log) && PhaseOk(t, log, id, Loaded(pub, candidate))
    requires ReadSelects(t, source, candidate.id)
    ensures PhaseOk(t, log, id, AfterRead(t, pub, candidate, source))
  {
    assert RowOk(source, t.accounts[source], log);
  }

  lemma RefreshLoadKeeps(s: State, p: nat)
    requires Inv(s)
    ensures Kept(s, DoRefreshLoad(s, p))
  {
    var s' := DoRefreshLoad(s, p);
    if p in s.procs && s.procs[p].Owner? && s.procs[p].phase.Entered? {
      assert ProcOk(s.tables, s.log, s.procs[p]);
      var o := s.procs[p];
      AfterLoadOk(s.tables, s.log, o.id, o.phase.pub, o.phase.selected);
      hide Inv, Kept, PhaseOk, AfterLoad;
      Advance(s, s', p, s'.procs[p]);
    } else {
      Stutter(s);
    }
  }

  lemma RefreshReadKeeps(s: State, p: nat, source: nat)
    requires Inv(s)
    ensures Kept(s, DoRefreshRead(s, p, source))
  {
    var s' := DoRefreshRead(s, p, source);
    if && p in s.procs && s.procs[p].Owner? && s.procs[p].phase.Loaded?
       && ReadSelects(s.tables, source, s.procs[p].phase.candidate.id) {
      assert ProcOk(s.tables, s.log, s.procs[p]);
      var o := s.procs[p];
      AfterReadOk(s.tables, s.log, o.id, o.phase.pub, o.phase.candidate, source);
      hide Inv, Kept, PhaseOk, AfterRead;
      Advance(s, s', p, s'.procs[p]);
    } else {
      Stutter(s);
    }
  }

  lemma RefreshSendKeeps(s: State, p: nat)
    requires Inv(s)
    ensures Kept(s, DoRefreshSend(s, p))
  {
    var s' := DoRefreshSend(s, p);
    if p in s.procs && s.procs[p].Owner? && s.procs[p].phase.Ready? {
      assert ProcOk(s.tables, s.log, s.procs[p]);
      hide Inv, Kept;
      Advance(s, s', p, s'.procs[p]);
    } else {
      hide Inv, Kept;
      Stutter(s);
    }
  }

  lemma RefreshReceiveKeeps(s: State, p: nat)
    requires Inv(s)
    ensures Kept(s, DoRefreshReceive(s, p))
  {
    var s' := DoRefreshReceive(s, p);
    if p in s.procs && s.procs[p].Owner? && s.procs[p].phase.InFlight? && s.procs[p].phase.grant.token.Token? {
      assert ProcOk(s.tables, s.log, s.procs[p]);
      GrantStable(s.tables, s.log, s.tables, s'.log, s.procs[p].id, s.procs[p].phase.grant);
      hide Inv, Kept;
      Advance(s, s', p, s'.procs[p]);
    } else {
      hide Inv, Kept;
      Stutter(s);
    }
  }

  lemma RefreshRejectKeeps(s: State, p: nat)
    requires Inv(s)
    ensures Kept(s, DoRefreshReject(s, p))
  {
    var s' := DoRefreshReject(s, p);
    if p in s.procs && s.procs[p].Owner? && s.procs[p].phase.InFlight? {
      assert ProcOk(s.tables, s.log, s.procs[p]);
      hide Inv, Kept;
      Advance(s, s', p, s'.procs[p]);
    } else {
      hide Inv, Kept;
      Stutter(s);
    }
  }

  lemma RefreshMarkKeeps(s: State, p: nat, row: nat)
    requires Inv(s)
    ensures Kept(s, DoRefreshMark(s, p, row))
  {
    hide Kept, TablesOk;
    var s' := DoRefreshMark(s, p, row);
    if s'.tables.accounts != s.tables.accounts {
      assert RowOk(row, s.tables.accounts[row], s.log);
      RowFrame(s, s', row);
    } else {
      QuietFrame(s, s');
    }
  }

  lemma RefreshStoreKeeps(s: State, p: nat, row: nat)
    requires Inv(s)
    ensures Kept(s, DoRefreshStore(s, p, row))
  {
    hide Kept, TablesOk;
    var s' := DoRefreshStore(s, p, row);
    assert p in s.procs ==> ProcOk(s.tables, s.log, s.procs[p]);
    if s'.tables.accounts != s.tables.accounts {
      RowFrame(s, s', row);
    } else {
      QuietFrame(s, s');
    }
  }

  lemma RefreshReloadKeeps(s: State, p: nat)
    requires Inv(s)
    ensures Kept(s, DoRefreshReload(s, p))
  {
    var s' := DoRefreshReload(s, p);
    if p in s.procs && s.procs[p].Owner? && s.procs[p].phase.Stored? {
      hide Inv, Kept;
      Advance(s, s', p, s'.procs[p]);
    } else {
      hide Inv, Kept;
      Stutter(s);
    }
  }

  lemma RefreshGiveUpKeeps(s: State, p: nat, keep: bool)
    requires Inv(s)
    ensures Kept(s, DoRefreshGiveUp(s, p, keep))
  {
    hide Inv, Kept;
    var s' := DoRefreshGiveUp(s, p, keep);
    if p in s.procs && s.procs[p].Owner? && !s.procs[p].phase.Stored? && !s.procs[p].phase.Answered? {
      Advance(s, s', p, s'.procs[p]);
    } else {
      Stutter(s);
    }
  }

  lemma RefreshPublishKeeps(s: State, p: nat)
    requires Inv(s)
    ensures Kept(s, DoRefreshPublish(s, p))
  {
    var s' := DoRefreshPublish(s, p);
    if p in s.procs && s.procs[p].Owner? && s.procs[p].phase.Answered? {
      hide Inv, Kept;
      Advance(s, s', p, s'.procs[p]);
    } else {
      hide Inv, Kept;
      Stutter(s);
    }
  }

  lemma WakeKeeps(s: State, p: nat)
    requires Inv(s)
    ensures Kept(s, DoWake(s, p))
  {
    QuietFrame(s, DoWake(s, p));
  }

  // ---------- OAuth attempts ----------

  lemma AttemptLoadKeeps(s: State, p: nat, pub: nat, egress: Egress)
    requires Inv(s)
    ensures Kept(s, DoAttemptLoad(s, p, pub, egress))
  {
    QuietFrame(s, DoAttemptLoad(s, p, pub, egress));
  }

  lemma AttemptInsertKeeps(s: State, p: nat, now: nat)
    requires Inv(s)
    ensures Kept(s, DoAttemptInsert(s, p, now))
  {
    QuietFrame(s, DoAttemptInsert(s, p, now));
  }

  lemma AttemptCancelKeeps(s: State, attempt: nat)
    requires Inv(s)
    ensures Kept(s, DoAttemptCancel(s, attempt))
  {
    QuietFrame(s, DoAttemptCancel(s, attempt));
  }

  lemma ClaimSelectKeeps(s: State, p: nat, attempt: nat, pub: nat, now: nat)
    requires Inv(s)
    ensures Kept(s, DoClaimSelect(s, p, attempt, pub, now))
  {
    QuietFrame(s, DoClaimSelect(s, p, attempt, pub, now));
  }

  lemma ClaimCheckKeeps(s: State, p: nat, egress: Egress)
    requires Inv(s)
    ensures Kept(s, DoClaimCheck(s, p, egress))
  {
    var s' := DoClaimCheck(s, p, egress);
    if p in s.procs && s.procs[p].ClaimRead? && SameEgress(s, s.procs[p].claim, egress) {
      assert ProcOk(s.tables, s.log, s.procs[p]);
      assert RowOk(s.procs[p].claim.pub, s.tables.accounts[s.procs[p].claim.pub], s.log);
      hide Inv, Kept;
      Advance(s, s', p, s'.procs[p]);
    } else {
      QuietFrame(s, s');
    }
  }

  lemma ClaimTakeKeeps(s: State, p: nat)
    requires Inv(s)
    ensures Kept(s, DoClaimTake(s, p))
  {
    assert p in s.procs ==> ProcOk(s.tables, s.log, s.procs[p]);
    QuietFrame(s, DoClaimTake(s, p));
  }

  lemma ClaimExchangeKeeps(s: State, p: nat)
    requires Inv(s)
    ensures Kept(s, DoClaimExchange(s, p))
  {
    var s' := DoClaimExchange(s, p);
    if p in s.procs && s.procs[p].Claimed? && s.procs[p].stage.Taken? {
      assert ProcOk(s.tables, s.log, s.procs[p]);
      hide Inv, Kept;
      Advance(s, s', p, s'.procs[p]);
    } else {
      hide Inv, Kept;
      Stutter(s);
    }
  }

  lemma ClaimProbeKeeps(s: State, p: nat)
    requires Inv(s)
    ensures Kept(s, DoClaimProbe(s, p))
  {
    var s' := DoClaimProbe(s, p);
    if p in s.procs && s.procs[p].Claimed? && s.procs[p].stage.Granted? {
      assert ProcOk(s.tables, s.log, s.procs[p]);
      hide Inv, Kept;
      Advance(s, s', p, s'.procs[p]);
    } else {
      hide Inv, Kept;
      Stutter(s);
    }
  }

  lemma ClaimRecheckKeeps(s: State, p: nat, egress: Egress)
    requires Inv(s)
    ensures Kept(s, DoClaimRecheck(s, p, egress))
  {
    var s' := DoClaimRecheck(s, p, egress);
    if p in s.procs && s.procs[p].Claimed? && s.procs[p].stage.Probed? {
      assert ProcOk(s.tables, s.log, s.procs[p]);
      hide Inv, Kept;
      Advance(s, s', p, s'.procs[p]);
    } else {
      hide Inv, Kept;
      Stutter(s);
    }
  }

  lemma ClaimGiveUpKeeps(s: State, p: nat)
    requires Inv(s)
    ensures Kept(s, DoClaimGiveUp(s, p))
  {
    var s' := DoClaimGiveUp(s, p);
    if p in s.procs && s.procs[p].Claimed? {
      assert ProcOk(s.tables, s.log, s.procs[p]);
      hide Inv, Kept;
      Advance(s, s', p, s'.procs[p]);
    } else {
      hide Inv, Kept;
      Stutter(s);
    }
  }

  /** The commit of an authorisation finds the row the claim was made on. */
  lemma CompleteSeesItsRow(s: State, p: nat)
    requires Inv(s) && p in s.procs && s.procs[p].Claimed?
    requires AtVersion(s.tables.accounts, s.procs[p].claim.pub, s.procs[p].claim.version)
    ensures s.tables.accounts[s.procs[p].claim.pub] == s.procs[p].seen
  {
    assert ProcOk(s.tables, s.log, s.procs[p]);
  }

  lemma ClaimCompleteKeeps(s: State, p: nat)
    requires Inv(s)
    ensures Kept(s, DoClaimComplete(s, p))
  {
    hide Kept, TablesOk;
    var s' := DoClaimComplete(s, p);
    assert p in s.procs ==> ProcOk(s.tables, s.log, s.procs[p]);
    if && p in s.procs && s.procs[p].Claimed? && s.procs[p].stage.Rechecked?
       && CompleteSelects(s.tables, s.procs[p].claim.attempt, s.procs[p].claim.pub, s.procs[p].claim.version) {
      RowFrame(s, s', s.procs[p].claim.pub);
    } else {
      QuietFrame(s, s');
    }
  }

  lemma ClaimFailKeeps(s: State, p: nat)
    requires Inv(s)
    ensures Kept(s, DoClaimFail(s, p))
  {
    QuietFrame(s, DoClaimFail(s, p));
  }

  // ---------- everything else ----------

  lemma UnauthorizedKeeps(s: State, pub: nat, id: nat)
    requires Inv(s)
    ensures Kept(s, WithAccounts(s, RecordUnauthorized(s.tables.accounts, pub, id)))
  {
    var s' := WithAccounts(s, RecordUnauthorized(s.tables.accounts, pub, id));
    if s'.tables.accounts != s.tables.accounts {
      assert RowOk(pub, s.tables.accounts[pub], s.log);
      RowFrame(s, s', pub);
    } else {
      QuietFrame(s, s');
    }
  }

  lemma InterruptedValidationsKeeps(s: State)
    requires Inv(s)
    ensures Kept(s, WithAccounts(s, RecoverValidations(s.tables.accounts)))
  {
    Frame(s, WithAccounts(s, RecoverValidations(s.tables.accounts)));
  }

  lemma WorldKeeps(s: State, e: WorldEvent)
    requires Inv(s)
    ensures Kept(s, WorldStep(s, e))
  {
    match e
    case Unauthorized(pub, id) => UnauthorizedKeeps(s, pub, id);
    case InterruptedValidations => InterruptedValidationsKeeps(s);
    case _ => QuietFrame(s, WorldStep(s, e));
  }

  // ---------- one step, and every run ----------

  lemma AdminKeeps(s: State, e: AdminEvent)
    requires Inv(s)
    ensures Kept(s, AdminStep(s, e))
  {
    hide Inv, Kept;
    match e
    case Create(id, auth, upstream, proxy, key, status) => CreateKeeps(s, id, auth, upstream, proxy, key, status);
    case UpdateRead(p, pub, expected, input) => UpdateReadKeeps(s, p, pub, expected, input);
    case UpdateCommit(p) => UpdateCommitKeeps(s, p);
    case Delete(pub, expected) => DeleteKeeps(s, pub, expected);
  }

  lemma ValidateKeeps(s: State, e: ValidateEvent)
    requires Inv(s)
    ensures Kept(s, ValidateStep(s, e))
  {
    hide Inv, Kept;
    match e
    case Start(p, pub, expected) => ValidateStartKeeps(s, p, pub, expected);
    case Begin(p) => ValidateBeginKeeps(s, p);
    case Get(p) => ValidateGetKeeps(s, p);
    case Load(p) => ValidateLoadKeeps(s, p);
    case Probe(p) => ValidateProbeKeeps(s, p);
    case Fail(p) => ValidateFailKeeps(s, p);
    case Finish(p) => ValidateFinishKeeps(s, p);
    case FinishFailed(p) => ValidateFinishFailedKeeps(s, p);
  }

  lemma RefreshKeeps(s: State, e: RefreshEvent)
    requires Inv(s)
    ensures Kept(s, RefreshStep(s, e))
  {
    hide Inv, Kept;
    match e
    case Hold(p, pub) => HoldKeeps(s, p, pub);
    case Ensure(p) => EnsureKeeps(s, p);
    case LoadAgain(p) => RefreshLoadKeeps(s, p);
    case Read(p, source) => RefreshReadKeeps(s, p, source);
    case Send(p) => RefreshSendKeeps(s, p);
    case Receive(p) => RefreshReceiveKeeps(s, p);
    case Reject(p) => RefreshRejectKeeps(s, p);
    case Mark(p, row) => RefreshMarkKeeps(s, p, row);
    case Store(p, row) => RefreshStoreKeeps(s, p, row);
    case Reload(p) => RefreshReloadKeeps(s, p);
    case GiveUp(p, keep) => RefreshGiveUpKeeps(s, p, keep);
    case Publish(p) => RefreshPublishKeeps(s, p);
    case Wake(p) => WakeKeeps(s, p);
  }

  lemma AttemptKeeps(s: State, e: AttemptEvent)
    requires Inv(s)
    ensures Kept(s, AttemptStep(s, e))
  {
    hide Inv, Kept;
    match e
    case Prepare(p, pub, egress) => AttemptLoadKeeps(s, p, pub, egress);
    case Insert(p, now) => AttemptInsertKeeps(s, p, now);
    case Cancel(attempt) => AttemptCancelKeeps(s, attempt);
    case Select(p, attempt, pub, now) => ClaimSelectKeeps(s, p, attempt, pub, now);
    case Check(p, egress) => ClaimCheckKeeps(s, p, egress);
    case Take(p) => ClaimTakeKeeps(s, p);
    case Exchange(p) => ClaimExchangeKeeps(s, p);
    case ProbeGrant(p) => ClaimProbeKeeps(s, p);
    case Recheck(p, egress) => ClaimRecheckKeeps(s, p, egress);
    case Drop(p) => ClaimGiveUpKeeps(s, p);
    case Complete(p) => ClaimCompleteKeeps(s, p);
    case Close(p) => ClaimFailKeeps(s, p);
  }

  /** Every step keeps the invariant, and moves rows only forward. */
  lemma StepKeeps(s: State, e: Event)
    requires Inv(s)
    ensures Kept(s, Step(s, e))
  {
    hide Inv, Kept;
    match e
    case Admin(a) => AdminKeeps(s, a);
    case Validate(v) => ValidateKeeps(s, v);
    case Refresh(r) => RefreshKeeps(s, r);
    case Authorize(a) => AttemptKeeps(s, a);
    case World(w) => WorldKeeps(s, w);
  }

  lemma InitOk()
    ensures Inv(INIT)
  {
  }

  lemma KeptTransitive(s: State, m: State, s': State)
    requires Inv(s) && Kept(s, m) && Kept(m, s')
    ensures Kept(s, s')
  {
  }

  /** Between any two points of a run, public ids keep their internal id, versions never fall,
      a version determines its row, and a deleted public id never comes back. */
  lemma {:induction false} RunKeeps(s: State, events: seq<Event>)
    requires Inv(s)
    ensures Kept(s, Run(s, events))
    decreases |events|
  {
    if events != [] {
      var m := Step(s, events[0]);
      StepKeeps(s, events[0]);
      RunKeeps(m, events[1..]);
      KeptTransitive(s, m, Run(m, events[1..]));
    }
  }
}
