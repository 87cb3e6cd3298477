/**
  Refreshes are single-flight. The refresh map holds an account's entry exactly while one
  call is inside refreshCredential, waiters get the answer of the call they found, and per
  credential version at most one refresh grant is sent beyond those that failed.
 */
module SingleFlight {
  import opened Wrappers
  import opened AccountTable
  import opened Lifecycle
  import opened RowHistory

  // ---------- the refresh map ----------

  predicate Owns(s: State, p: nat, id: nat) {
    p in s.procs && s.procs[p].Owner? && s.procs[p].id == id
  }

  /** The entry of `id` belongs to a call that is inside refreshCredential. */
  predicate Registered(s: State, id: nat)
    requires id in s.refreshes
  {
    s.refreshes[id] in s.log.owners && Owns(s, s.log.owners[s.refreshes[id]], id)
  }

  predicate JoinedOk(s: State, p: nat, proc: Proc) {
    match proc
    case Owner(call, id, _) =>
      && id in s.refreshes && s.refreshes[id] == call
      && call in s.calls && s.calls[call].None?
      && call in s.log.owners && s.log.owners[call] == p
    case Waiting(call) => call in s.calls
    case Returned(call, answer) => call in s.calls && s.calls[call] == Some(answer)
    case _ => true
  }

  ghost predicate MapInv(s: State) {
    && (forall id <- s.refreshes :: Registered(s, id))
    && (forall p <- s.procs :: JoinedOk(s, p, s.procs[p]))
    && (forall call <- s.calls :: call < s.log.nextCall)
  }

  predicate SameEntry(x: Proc, y: Proc) {
    x.Owner? && y.Owner? && x.call == y.call && x.id == y.id
  }

  predicate Bystander(proc: Proc) {
    !proc.Owner? && !proc.Waiting? && !proc.Returned?
  }

  /** Call `p` moves without any entry, call record or ownership changing. */
  predicate OwnersStay(s: State, s': State, p: nat) {
    && s'.refreshes == s.refreshes && s'.calls == s.calls && s'.log.nextCall == s.log.nextCall && s'.log.owners == s.log.owners
    && MovesOne(s, s', p)
    && (p in s.procs && s.procs[p].Owner? ==> p in s'.procs && SameEntry(s.procs[p], s'.procs[p]))
    && (p in s'.procs ==>
          || (p in s.procs && (s'.procs[p] == s.procs[p] || SameEntry(s.procs[p], s'.procs[p])))
          || Bystander(s'.procs[p]))
  }

  lemma OwnersStayKeeps(s: State, s': State, p: nat)
    requires MapInv(s) && OwnersStay(s, s', p)
    ensures MapInv(s')
  {
    forall id <- s'.refreshes ensures Registered(s', id) {
      assert Registered(s, id);
    }
    forall q <- s'.procs ensures JoinedOk(s', q, s'.procs[q]) {
      if q in s.procs { assert JoinedOk(s, q, s.procs[q]); }
    }
  }

  lemma JoinKeepsMap(s: State, p: nat, call: nat)
    requires MapInv(s) && p in s.procs && !s.procs[p].Owner? && call in s.calls
    ensures MapInv(Go(s, p, Waiting(call)))
  {
    var s' := Go(s, p, Waiting(call));
    forall id <- s'.refreshes ensures Registered(s', id) {
      assert Registered(s, id);
    }
    forall q <- s'.procs ensures JoinedOk(s', q, s'.procs[q]) {
      if q in s.procs { assert JoinedOk(s, q, s.procs[q]); }
    }
  }

  lemma RegisterKeepsMap(s: State, p: nat)
    requires MapInv(s) && p in s.procs && s.procs[p].Holding? && s.procs[p].seen.auth == OAuth
    requires s.procs[p].seen.id !in s.refreshes
    ensures MapInv(DoEnsure(s, p))
  {
    var s' := DoEnsure(s, p);
    forall id <- s'.refreshes ensures Registered(s', id) {
      if id in s.refreshes { assert Registered(s, id); }
    }
    forall q <- s'.procs ensures JoinedOk(s', q, s'.procs[q]) {
      if q in s.procs { assert JoinedOk(s, q, s.procs[q]); }
    }
  }

  lemma EnsureKeepsMap(s: State, p: nat)
    requires MapInv(s)
    ensures MapInv(DoEnsure(s, p))
  {
    if p in s.procs && s.procs[p].Holding? && s.procs[p].seen.auth == OAuth {
      var id := s.procs[p].seen.id;
      if id in s.refreshes {
        assert Registered(s, id);
        assert JoinedOk(s, s.log.owners[s.refreshes[id]], s.procs[s.log.owners[s.refreshes[id]]]);
        hide MapInv;
        JoinKeepsMap(s, p, s.refreshes[id]);
      } else {
        RegisterKeepsMap(s, p);
      }
    }
  }

  lemma PublishKeepsMap(s: State, p: nat)
    requires MapInv(s)
    ensures MapInv(DoRefreshPublish(s, p))
  {
    var s' := DoRefreshPublish(s, p);
    assert p in s.procs ==> JoinedOk(s, p, s.procs[p]);
    forall id <- s'.refreshes ensures Registered(s', id) {
      assert Registered(s, id);
    }
    forall q <- s'.procs ensures JoinedOk(s', q, s'.procs[q]) {
      if q in s.procs { assert JoinedOk(s, q, s.procs[q]); }
    }
  }

  lemma WakeKeepsMap(s: State, p: nat)
    requires MapInv(s)
    ensures MapInv(DoWake(s, p))
  {
    var s' := DoWake(s, p);
    forall id <- s'.refreshes ensures Registered(s', id) {
      assert Registered(s, id);
    }
    forall q <- s'.procs ensures JoinedOk(s', q, s'.procs[q]) {
      if q in s.procs { assert JoinedOk(s, q, s.procs[q]); }
    }
  }

  lemma EndKeepsMap(s: State, e: WorldEvent)
    requires MapInv(s) && (e.Abandon? || e.Crash?)
    ensures MapInv(WorldStep(s, e))
  {
    var s' := WorldStep(s, e);
    forall id <- s'.refreshes ensures Registered(s', id) {
      assert Registered(s, id);
    }
  }

  lemma AdminStays(s: State, e: AdminEvent)
    ensures OwnersStay(s, AdminStep(s, e), AdminCall(e))
  {
    hide AdminStep;
  }

  lemma ValidateStays(s: State, e: ValidateEvent)
    ensures OwnersStay(s, ValidateStep(s, e), e.p)
  {
    hide ValidateStep;
  }

  lemma AttemptStays(s: State, e: AttemptEvent)
    ensures OwnersStay(s, AttemptStep(s, e), AttemptCall(e))
  {
    hide AttemptStep;
  }

  lemma RefreshStays(s: State, e: RefreshEvent)
    requires !EdgeEvent(e)
    ensures OwnersStay(s, RefreshStep(s, e), e.p)
  {
    hide RefreshStep;
  }

  lemma HoldStays(s: State, p: nat, pub: nat)
    ensures OwnersStay(s, DoHold(s, p, pub), p)
  {
  }

  lemma WorldStays(s: State, e: WorldEvent)
    requires !e.Abandon? && !e.Crash?
    ensures OwnersStay(s, WorldStep(s, e), 0)
  {
  }

  lemma StepKeepsMap(s: State, e: Event)
    requires MapInv(s)
    ensures MapInv(Step(s, e))
  {
    hide MapInv, OwnersStay;
    match e
    case Admin(a) => AdminStays(s, a); OwnersStayKeeps(s, AdminStep(s, a), AdminCall(a));
    case Validate(v) => ValidateStays(s, v); OwnersStayKeeps(s, ValidateStep(s, v), v.p);
    case Refresh(r) =>
      match r {
        case Hold(p, pub) => HoldStays(s, p, pub); OwnersStayKeeps(s, DoHold(s, p, pub), p);
        case Ensure(p) => EnsureKeepsMap(s, p);
        case Publish(p) => PublishKeepsMap(s, p);
        case Wake(p) => WakeKeepsMap(s, p);
        case _ => RefreshStays(s, r); OwnersStayKeeps(s, RefreshStep(s, r), r.p);
      }
    case Authorize(a) => AttemptStays(s, a); OwnersStayKeeps(s, AttemptStep(s, a), AttemptCall(a));
    case World(w) =>
      if w.Abandon? || w.Crash? { EndKeepsMap(s, w); } else { WorldStays(s, w); OwnersStayKeeps(s, WorldStep(s, w), 0); }
  }

  // ---------- exchanges ----------

  /** Call `p` has sent a grant for `key` and its outcome is open. */
  predicate OpenAt(s: State, p: nat, key: VersionKey) {
    p in s.procs && IsOpen(s.procs[p]) && GrantKey(s.procs[p].phase.grant) == key
  }

  /** The last grant sent for `key` has no outcome yet. */
  predicate Pending(s: State, key: VersionKey) {
    key in s.log.senders && OpenAt(s, s.log.senders[key], key)
  }

  /** Every grant sent for `key` was lost, except one that was written or is still open. */
  predicate Balanced(s: State, key: VersionKey) {
    s.log.sent[key] == s.log.lost[key] + (if key in s.log.won || Pending(s, key) then 1 else 0)
  }

  /** A credential version whose refresh was written is superseded. */
  predicate Superseded(t: Tables, key: VersionKey) {
    && key.pub in t.ids
    && (key.pub in t.accounts ==> key.credentialVersion < t.accounts[key.pub].credentialVersion)
  }

  predicate IsReady(proc: Proc) {
    proc.Owner? && proc.phase.Ready?
  }

  /** A grant about to be sent, or open, is not of a won version; an open one is its sender's. */
  predicate Placed(log: Log, p: nat, proc: Proc) {
    && (IsReady(proc) ==> GrantKey(proc.phase.grant) !in log.won)
    && (IsOpen(proc) ==>
          var key := GrantKey(proc.phase.grant);
          key !in log.won && key in log.senders && log.senders[key] == p)
  }

  ghost predicate ExchangeInv(s: State) {
    && (forall key: VersionKey :: Balanced(s, key))
    && (forall key <- s.log.won :: Superseded(s.tables, key))
    && (forall p <- s.procs :: Placed(s.log, p, s.procs[p]))
  }

  ghost predicate FlightInv(s: State) {
    Inv(s) && MapInv(s) && ExchangeInv(s)
  }

  /** Two calls inside refreshCredential never hold the same credential version. */
  lemma OneGrantPerKey(s: State, p: nat, q: nat)
    requires Inv(s) && MapInv(s)
    requires p in s.procs && q in s.procs
    requires IsReady(s.procs[p]) || IsOpen(s.procs[p])
    requires IsReady(s.procs[q]) || IsOpen(s.procs[q])
    requires GrantKey(s.procs[p].phase.grant) == GrantKey(s.procs[q].phase.grant)
    ensures p == q
  {
    assert ProcOk(s.tables, s.log, s.procs[p]) && ProcOk(s.tables, s.log, s.procs[q]);
    assert JoinedOk(s, p, s.procs[p]) && JoinedOk(s, q, s.procs[q]);
  }

  /** Steps that send, win and lose nothing, and create no ready grant. */
  lemma QuietExchange(s: State, s': State)
    requires ExchangeInv(s) && TablesEvolve(s.tables, s'.tables) && TablesOk(s.tables)
    requires s'.log.sent == s.log.sent && s'.log.lost == s.log.lost && s'.log.won == s.log.won
    requires s'.log.senders == s.log.senders
    requires forall p | p in s.procs && IsOpen(s.procs[p]) ::
      p in s'.procs && IsOpen(s'.procs[p]) && s'.procs[p].phase.grant == s.procs[p].phase.grant
    requires forall p | p in s'.procs && IsOpen(s'.procs[p]) :: p in s.procs && IsOpen(s.procs[p])
    requires forall p <- s'.procs :: (p in s.procs && s.procs[p] == s'.procs[p]) || Placed(s.log, p, s'.procs[p])
    ensures ExchangeInv(s')
  {
    forall key: VersionKey ensures Balanced(s', key) {
      assert Balanced(s, key);
    }
    forall key <- s'.log.won ensures Superseded(s'.tables, key) {
      assert Superseded(s.tables, key);
    }
  }

  /** Steps of calls that own no refresh. */
  lemma OtherCallKeeps(s: State, s': State, p: nat)
    requires FlightInv(s) && TablesEvolve(s.tables, s'.tables)
    requires s'.log.sent == s.log.sent && s'.log.lost == s.log.lost && s'.log.won == s.log.won
    requires s'.log.senders == s.log.senders
    requires MovesOne(s, s', p)
    requires s'.procs == s.procs || ((p in s.procs ==> !s.procs[p].Owner?) && (p in s'.procs ==> !s'.procs[p].Owner?))
    ensures ExchangeInv(s')
  {
    QuietExchange(s, s');
  }

  lemma AdminExchange(s: State, e: AdminEvent)
    requires FlightInv(s)
    ensures ExchangeInv(AdminStep(s, e))
  {
    AdminKeeps(s, e);
    hide AdminStep, Inv, FlightInv, TablesEvolve, ExchangeInv;
    OtherCallKeeps(s, AdminStep(s, e), AdminCall(e));
  }

  lemma ValidateExchange(s: State, e: ValidateEvent)
    requires FlightInv(s)
    ensures ExchangeInv(ValidateStep(s, e))
  {
    ValidateKeeps(s, e);
    hide ValidateStep, Inv, FlightInv, TablesEvolve, ExchangeInv;
    OtherCallKeeps(s, ValidateStep(s, e), e.p);
  }

  lemma AttemptExchange(s: State, e: AttemptEvent)
    requires FlightInv(s)
    ensures ExchangeInv(AttemptStep(s, e))
  {
    hide AttemptStep, Inv, TablesEvolve, ExchangeInv, MapInv;
    AttemptKeeps(s, e);
    OtherCallKeeps(s, AttemptStep(s, e), AttemptCall(e));
  }

  lemma WorldMoves(s: State, e: WorldEvent)
    requires !e.Crash?
    ensures
      var s' := WorldStep(s, e);
      s'.log == s.log && (s'.procs == s.procs || (e.Abandon? && s'.procs == s.procs - {e.p} && e.p in s.procs && !s.procs[e.p].Owner?))
  {
  }

  lemma WorldExchange(s: State, e: WorldEvent)
    requires FlightInv(s) && !e.Crash?
    ensures ExchangeInv(WorldStep(s, e))
  {
    WorldKeeps(s, e);
    KeptEvolves(s, WorldStep(s, e));
    WorldMoves(s, e);
    hide Inv, FlightInv, TablesEvolve, ExchangeInv, WorldStep, Kept;
    OtherCallKeeps(s, WorldStep(s, e), if e.Abandon? then e.p else 0);
  }

  /** A crash loses every open grant; there is one per credential version. */
  lemma CrashExchange(s: State)
    requires FlightInv(s)
    ensures ExchangeInv(DoCrash(s))
  {
    var s' := DoCrash(s);
    forall key: VersionKey ensures Balanced(s', key) {
      assert Balanced(s, key);
      if key in OpenKeys(s.procs) {
        var p :| p in s.procs && IsOpen(s.procs[p]) && GrantKey(s.procs[p].phase.grant) == key;
        assert Placed(s.log, p, s.procs[p]);
      }
    }
    forall key <- s'.log.won ensures Superseded(s'.tables, key) {
      assert Superseded(s.tables, key);
    }
  }

  /** Hold, Ensure, Publish and Wake send nothing. */
  lemma EdgeKeeps(s: State, s': State, p: nat)
    requires ExchangeInv(s) && TablesOk(s.tables) && EdgeFrame(s, s', p)
    ensures ExchangeInv(s')
  {
    forall key: VersionKey ensures Balanced(s', key) {
      assert Balanced(s, key);
    }
    forall key <- s'.log.won ensures Superseded(s'.tables, key) {
      assert Superseded(s.tables, key);
    }
  }

  lemma EdgeExchange(s: State, e: RefreshEvent)
    requires FlightInv(s) && EdgeEvent(e)
    ensures ExchangeInv(RefreshStep(s, e))
  {
    hide RefreshStep, EdgeFrame, ExchangeInv, MapInv, TablesOk;
    EdgeKeeps(s, RefreshStep(s, e), e.p);
  }

  /** Owner `p` moves between phases that are neither ready nor open. */
  lemma PhaseExchange(s: State, s': State, p: nat)
    requires FlightInv(s) && TablesEvolve(s.tables, s'.tables) && RefreshFrame(s, s', p)
    requires s'.log.sent == s.log.sent && s'.log.lost == s.log.lost && s'.log.won == s.log.won
    requires s'.log.senders == s.log.senders
    requires p in s.procs && p in s'.procs
    requires IsOpen(s.procs[p]) == IsOpen(s'.procs[p])
    requires IsOpen(s.procs[p]) ==> s'.procs[p].phase.grant == s.procs[p].phase.grant
    requires s'.procs[p] == s.procs[p] || Placed(s.log, p, s'.procs[p])
    ensures ExchangeInv(s')
  {
    QuietExchange(s, s');
  }

  /** A fresh read is never of a superseded credential version. */
  lemma ReadExchange(s: State, p: nat, source: nat)
    requires FlightInv(s)
    ensures ExchangeInv(DoRefreshRead(s, p, source))
  {
    hide Inv, MapInv, ExchangeInv, TablesEvolve, AfterRead;
    RefreshReadKeeps(s, p, source);
    if && p in s.procs && s.procs[p].Owner? && s.procs[p].phase.Loaded?
       && ReadSelects(s.tables, source, s.procs[p].phase.candidate.id) {
      ReadPlaced(s, p, source);
      PhaseExchange(s, DoRefreshRead(s, p, source), p);
    }
  }

  lemma ReadPlaced(s: State, p: nat, source: nat)
    requires ExchangeInv(s) && p in s.procs && s.procs[p].Owner? && s.procs[p].phase.Loaded?
    requires ReadSelects(s.tables, source, s.procs[p].phase.candidate.id)
    ensures
      var x := DoRefreshRead(s, p, source).procs[p];
      !IsOpen(x) && Placed(s.log, p, x)
  {
    var key := VersionKey(source, s.tables.accounts[source].credentialVersion);
    assert key in s.log.won ==> Superseded(s.tables, key);
    hide ExchangeInv;
  }

  /** Sending needs every earlier grant of the credential version to have failed. */
  lemma SendBalanced(s: State, p: nat)
    requires FlightInv(s) && p in s.procs && IsReady(s.procs[p])
    ensures s.log.sent[GrantKey(s.procs[p].phase.grant)] == s.log.lost[GrantKey(s.procs[p].phase.grant)]
    ensures !Pending(s, GrantKey(s.procs[p].phase.grant))
  {
    var key := GrantKey(s.procs[p].phase.grant);
    assert Balanced(s, key) && Placed(s.log, p, s.procs[p]);
    if Pending(s, key) {
      OneGrantPerKey(s, p, s.log.senders[key]);
    }
  }

  lemma SendExchange(s: State, p: nat)
    requires FlightInv(s)
    ensures ExchangeInv(DoRefreshSend(s, p))
  {
    var s' := DoRefreshSend(s, p);
    if p in s.procs && IsReady(s.procs[p]) {
      SendBalanced(s, p);
      assert Placed(s.log, p, s.procs[p]);
      forall q <- s'.procs ensures Placed(s'.log, q, s'.procs[q]) {
        assert Placed(s.log, q, s.procs[q]);
      }
      forall key: VersionKey ensures Balanced(s', key) {
        assert Balanced(s, key);
      }
      forall key <- s'.log.won ensures Superseded(s'.tables, key) {
        assert Superseded(s.tables, key);
      }
    }
  }

  /** Closing the open grant of `p` as lost. */
  lemma LoseExchange(s: State, s': State, p: nat)
    requires FlightInv(s) && p in s.procs && IsOpen(s.procs[p])
    requires s'.tables == s.tables && p in s'.procs && s'.procs == s.procs[p := s'.procs[p]]
    requires !IsReady(s'.procs[p]) && !IsOpen(s'.procs[p])
    requires s'.log.sent == s.log.sent && s'.log.won == s.log.won && s'.log.senders == s.log.senders
    requires s'.log.lost == s.log.lost + multiset{GrantKey(s.procs[p].phase.grant)}
    ensures ExchangeInv(s')
  {
    assert Placed(s.log, p, s.procs[p]);
    forall q <- s'.procs ensures Placed(s'.log, q, s'.procs[q]) {
      assert Placed(s.log, q, s.procs[q]);
    }
    forall key: VersionKey ensures Balanced(s', key) {
      assert Balanced(s, key);
    }
    forall key <- s'.log.won ensures Superseded(s'.tables, key) {
      assert Superseded(s.tables, key);
    }
  }

  lemma RejectExchange(s: State, p: nat)
    requires FlightInv(s)
    ensures ExchangeInv(DoRefreshReject(s, p))
  {
    if p in s.procs && s.procs[p].Owner? && s.procs[p].phase.InFlight? {
      hide Inv, MapInv, ExchangeInv;
      LoseExchange(s, DoRefreshReject(s, p), p);
    }
  }

  lemma GiveUpExchange(s: State, p: nat, keep: bool)
    requires FlightInv(s)
    ensures ExchangeInv(DoRefreshGiveUp(s, p, keep))
  {
    var s' := DoRefreshGiveUp(s, p, keep);
    RefreshGiveUpKeeps(s, p, keep);
    if p in s.procs && IsOpen(s.procs[p]) {
      hide Inv, MapInv, ExchangeInv;
      LoseExchange(s, s', p);
    } else if p in s.procs && s.procs[p].Owner? && !s.procs[p].phase.Stored? && !s.procs[p].phase.Answered? {
      hide Inv, MapInv, ExchangeInv, TablesEvolve;
      PhaseExchange(s, s', p);
    }
  }

  /** The row a refresh writes is the row it read, or that row is gone. */
  lemma StoreHitsSource(s: State, p: nat, row: nat)
    requires Inv(s) && p in s.procs && s.procs[p].Owner? && s.procs[p].phase.Exchanged?
    requires RefreshSelects(s.tables.accounts, row, s.procs[p].phase.grant.candidate.id,
                            s.procs[p].phase.grant.credentialVersion)
    ensures s.procs[p].phase.grant.source in s.tables.ids
    ensures row == s.procs[p].phase.grant.source || s.procs[p].phase.grant.source !in s.tables.accounts
  {
    assert ProcOk(s.tables, s.log, s.procs[p]);
  }

  /** The open grant of `p` is won: its row is superseded or gone. */
  lemma WinExchange(s: State, s': State, p: nat)
    requires FlightInv(s) && p in s.procs && IsOpen(s.procs[p])
    requires TablesEvolve(s.tables, s'.tables)
    requires p in s'.procs && s'.procs == s.procs[p := s'.procs[p]]
    requires !IsReady(s'.procs[p]) && !IsOpen(s'.procs[p])
    requires s'.log.sent == s.log.sent && s'.log.lost == s.log.lost && s'.log.senders == s.log.senders
    requires s'.log.won == s.log.won + {GrantKey(s.procs[p].phase.grant)}
    requires Superseded(s'.tables, GrantKey(s.procs[p].phase.grant))
    ensures ExchangeInv(s')
  {
    assert Placed(s.log, p, s.procs[p]);
    forall q <- s'.procs ensures Placed(s'.log, q, s'.procs[q]) {
      assert Placed(s.log, q, s.procs[q]);
      if (IsReady(s'.procs[q]) || IsOpen(s'.procs[q]))
         && GrantKey(s'.procs[q].phase.grant) == GrantKey(s.procs[p].phase.grant) { OneGrantPerKey(s, p, q); }
    }
    forall key: VersionKey ensures Balanced(s', key) {
      assert Balanced(s, key);
    }
    forall key <- s'.log.won ensures Superseded(s'.tables, key) {
      assert key in s.log.won ==> Superseded(s.tables, key);
    }
  }

  lemma StoreMoves(s: State, p: nat, row: nat)
    requires p in s.procs && s.procs[p].Owner? && s.procs[p].phase.Exchanged?
    requires RefreshSelects(s.tables.accounts, row, s.procs[p].phase.grant.candidate.id,
                            s.procs[p].phase.grant.credentialVersion)
    ensures
      var s' := DoRefreshStore(s, p, row);
      && p in s'.procs && s'.procs == s.procs[p := s'.procs[p]] && s'.procs[p].Owner? && s'.procs[p].phase.Stored?
      && s'.log == s.log.(won := s.log.won + {GrantKey(s.procs[p].phase.grant)})
      && s'.tables.ids == s.tables.ids && s'.tables.accounts.Keys == s.tables.accounts.Keys
      && s'.tables.accounts[row].credentialVersion == s.procs[p].phase.grant.credentialVersion + 1
  {
  }

  lemma StoreExchange(s: State, p: nat, row: nat)
    requires FlightInv(s)
    ensures ExchangeInv(DoRefreshStore(s, p, row))
  {
    hide Inv, MapInv, ExchangeInv, TablesEvolve, DoRefreshStore, RefreshSelects, Superseded;
    if && p in s.procs && s.procs[p].Owner? && s.procs[p].phase.Exchanged?
       && RefreshSelects(s.tables.accounts, row, s.procs[p].phase.grant.candidate.id,
                         s.procs[p].phase.grant.credentialVersion) {
      RefreshStoreKeeps(s, p, row);
      StoreSupersedes(s, p, row);
      StoreMoves(s, p, row);
      WinExchange(s, DoRefreshStore(s, p, row), p);
    } else {
      StoreFails(s, p, row);
    }
  }

  lemma StoreSupersedes(s: State, p: nat, row: nat)
    requires Inv(s) && p in s.procs && s.procs[p].Owner? && s.procs[p].phase.Exchanged?
    requires RefreshSelects(s.tables.accounts, row, s.procs[p].phase.grant.candidate.id,
                            s.procs[p].phase.grant.credentialVersion)
    ensures Superseded(DoRefreshStore(s, p, row).tables, GrantKey(s.procs[p].phase.grant))
  {
    hide Inv, DoRefreshStore;
    StoreHitsSource(s, p, row);
    StoreMoves(s, p, row);
  }

  lemma StoreFails(s: State, p: nat, row: nat)
    requires !(p in s.procs && s.procs[p].Owner? && s.procs[p].phase.Exchanged?
               && RefreshSelects(s.tables.accounts, row, s.procs[p].phase.grant.candidate.id,
                                 s.procs[p].phase.grant.credentialVersion))
    ensures DoRefreshStore(s, p, row) == s
  {
  }

  lemma ReceiveExchange(s: State, p: nat)
    requires FlightInv(s)
    ensures ExchangeInv(DoRefreshReceive(s, p))
  {
    if p in s.procs && s.procs[p].Owner? && s.procs[p].phase.InFlight? && s.procs[p].phase.grant.token.Token? {
      assert Placed(s.log, p, s.procs[p]);
      RefreshReceiveKeeps(s, p);
      hide Inv, MapInv, ExchangeInv, TablesEvolve;
      PhaseExchange(s, DoRefreshReceive(s, p), p);
    }
  }

  lemma ClosedPhases(s: State, e: RefreshEvent)
    requires e.LoadAgain? || e.Mark? || e.Reload?
    requires e.p in s.procs && s.procs[e.p].Owner? && !IsOpen(s.procs[e.p]) && !IsReady(s.procs[e.p])
    ensures
      var s' := RefreshStep(s, e);
      && RefreshFrame(s, s', e.p) && s'.log == s.log
      && e.p in s'.procs && !IsOpen(s'.procs[e.p]) && !IsReady(s'.procs[e.p])
  {
  }

  lemma OpenStays(s: State, e: RefreshEvent)
    requires e.LoadAgain? || e.Mark? || e.Reload?
    requires !(e.p in s.procs && s.procs[e.p].Owner? && !IsOpen(s.procs[e.p]) && !IsReady(s.procs[e.p]))
    ensures RefreshStep(s, e) == s
  {
  }

  /** A step from a phase without an open grant to another such phase. */
  lemma ClosedPhaseExchange(s: State, e: RefreshEvent)
    requires FlightInv(s) && (e.LoadAgain? || e.Mark? || e.Reload?)
    ensures ExchangeInv(RefreshStep(s, e))
  {
    if e.p in s.procs && s.procs[e.p].Owner? && !IsOpen(s.procs[e.p]) && !IsReady(s.procs[e.p]) {
      RefreshKeeps(s, e);
      ClosedPhases(s, e);
      KeptEvolves(s, RefreshStep(s, e));
      hide Inv, MapInv, ExchangeInv, TablesEvolve, Kept, RefreshStep, RefreshFrame;
      PhaseExchange(s, RefreshStep(s, e), e.p);
    } else {
      OpenStays(s, e);
      hide RefreshStep, ExchangeInv;
    }
  }

  lemma KeptEvolves(s: State, s': State)
    requires Kept(s, s')
    ensures TablesEvolve(s.tables, s'.tables)
  {
  }

  lemma RefreshExchange(s: State, e: RefreshEvent)
    requires FlightInv(s)
    ensures ExchangeInv(RefreshStep(s, e))
  {
    hide FlightInv, ExchangeInv;
    match e
    case Read(p, source) => ReadExchange(s, p, source);
    case Send(p) => SendExchange(s, p);
    case Reject(p) => RejectExchange(s, p);
    case Store(p, row) => StoreExchange(s, p, row);
    case GiveUp(p, keep) => GiveUpExchange(s, p, keep);
    case Receive(p) => ReceiveExchange(s, p);
    case _ => if EdgeEvent(e) { EdgeExchange(s, e); } else { ClosedPhaseExchange(s, e); }
  }

  lemma StepKeepsFlight(s: State, e: Event)
    requires FlightInv(s)
    ensures FlightInv(Step(s, e))
  {
    StepKeeps(s, e);
    StepKeepsMap(s, e);
    hide Inv, MapInv, ExchangeInv;
    match e
    case Admin(a) => AdminExchange(s, a);
    case Validate(v) => ValidateExchange(s, v);
    case Refresh(r) => RefreshExchange(s, r);
    case Authorize(a) => AttemptExchange(s, a);
    case World(w) => if w.Crash? { CrashExchange(s); } else { WorldExchange(s, w); }
  }

  // ---------- every run ----------

  lemma {:induction false} FlightRun(s: State, events: seq<Event>)
    requires FlightInv(s)
    ensures FlightInv(Run(s, events))
    decreases |events|
  {
    if events != [] {
      StepKeepsFlight(s, events[0]);
      FlightRun(Step(s, events[0]), events[1..]);
    }
  }

  lemma {:induction false} FlightReachable(events: seq<Event>)
    ensures FlightInv(Run(INIT, events))
  {
    InitOk();
    FlightRun(INIT, events);
  }

  /** The calls inside refreshCredential for one internal account id. */
  function Inside(s: State, id: nat): set<nat> {
    set p | p in s.procs && s.procs[p].Owner? && s.procs[p].id == id
  }

  /** The map holds an entry for an account exactly while one call is inside. */
  lemma {:induction false} EntryIffInside(events: seq<Event>, id: nat)
    ensures
      var s := Run(INIT, events);
      |Inside(s, id)| == if id in s.refreshes then 1 else 0
  {
    hide Run, Inv, ExchangeInv;
    FlightReachable(events);
    var s := Run(INIT, events);
    if id in s.refreshes {
      assert Registered(s, id);
      var p := s.log.owners[s.refreshes[id]];
      forall q <- Inside(s, id) ensures q == p {
        assert JoinedOk(s, q, s.procs[q]);
      }
      assert Inside(s, id) == {p};
    } else {
      forall q <- s.procs ensures q !in Inside(s, id) {
        assert JoinedOk(s, q, s.procs[q]);
      }
      assert Inside(s, id) == {};
    }
  }

  /** All callers that return from the same refresh call return the same answer. */
  lemma {:induction false} CallersAgree(events: seq<Event>, p: nat, q: nat)
    ensures
      var s := Run(INIT, events);
      p in s.procs && q in s.procs && s.procs[p].Returned? && s.procs[q].Returned? && s.procs[p].call == s.procs[q].call ==>
        s.procs[p].answer == s.procs[q].answer
  {
    FlightReachable(events);
    var s := Run(INIT, events);
    if p in s.procs && q in s.procs {
      assert JoinedOk(s, p, s.procs[p]) && JoinedOk(s, q, s.procs[q]);
    }
  }

  /** However many callers hold a credential version, every grant sent for it was lost except
      at most one, and that one is open or was written: without a failure at most one is sent,
      and after the write none. */
  lemma {:induction false} OneExchangePerVersion(events: seq<Event>, key: VersionKey)
    ensures
      var s := Run(INIT, events);
      && s.log.sent[key] == s.log.lost[key] + (if key in s.log.won || Pending(s, key) then 1 else 0)
      && (key in s.log.won && key.pub in s.tables.accounts ==>
            key.credentialVersion < s.tables.accounts[key.pub].credentialVersion)
  {
    FlightReachable(events);
    assert Balanced(Run(INIT, events), key);
    assert key in Run(INIT, events).log.won ==> Superseded(Run(INIT, events).tables, key);
  }
}
