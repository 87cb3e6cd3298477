/**
  The database operations on accounts and attempts as methods that write the tables in place,
  statement by statement, with rollback. Each is proved to have exactly the effect of one
  atomic step of the lifecycle, or none.
 */
module AccountStore {
  import opened Wrappers
  import opened AccountTable
  import opened Lifecycle

  datatype StoreError = NotFound | VersionMismatch | Conflict | Aborted

  /** The error of a versioned statement that selected no row. */
  function NotFoundOrVersion(a: Accounts, pub: nat): StoreError {
    if pub in a then VersionMismatch else NotFound
  }

  function ValidatingIds(a: Accounts): set<nat> {
    set pub | pub in a && a[pub].status == Validating
  }

  /** The rows of `done` are recovered, all others are as they were. */
  ghost predicate RecoveredSoFar(before: Accounts, now: Accounts, done: set<nat>) {
    && now.Keys == before.Keys
    && forall pub <- before :: now[pub] == if pub in done then RecoveredRow(before[pub]) else before[pub]
  }

  lemma RecoverOne(before: Accounts, now: Accounts, done: set<nat>, pub: nat)
    requires RecoveredSoFar(before, now, done)
    requires pub in ValidatingIds(before) && pub !in done
    ensures pub in before && pub in now && now[pub] == before[pub] && before[pub].status == Validating
    ensures RecoveredSoFar(before, now[pub := before[pub].(status := Invalid, version := before[pub].version + 1)], done + {pub})
  {
  }

  lemma NoneRecovered(before: Accounts)
    ensures RecoveredSoFar(before, before, {})
  {
  }

  lemma AllRecovered(before: Accounts, now: Accounts)
    requires RecoveredSoFar(before, now, ValidatingIds(before))
    ensures now == RecoverValidations(before)
    ensures now.Keys == before.Keys
    ensures forall pub <- now ::
      if before[pub].status == Validating then OnlyStatus(before[pub], now[pub], Invalid) else now[pub] == before[pub]
  {
    forall pub <- before ensures now[pub] == RecoveredRow(before[pub]) {
    }
  }

  /** `commits` is false for a call whose audit insert or commit fails: it rolls back. */
  class Database {
    var accounts: Accounts
    var attempts: Attempts
    var ids: map<nat, nat>
    var nextPub: nat
    var nextAttempt: nat
    var clock: nat

    ghost function Contents(): Tables
      reads this
    {
      Tables(accounts, attempts, ids, nextPub, nextAttempt, clock)
    }

    constructor ()
      ensures Contents() == INIT.tables
    {
      accounts, attempts, ids, nextPub, nextAttempt, clock := map[], map[], map[], 0, 0, 0;
    }

    method UpdateAccount(pub: nat, expected: nat, seen: Account, input: UpdateInput, commits: bool)
      returns (r: Result<(), StoreError>)
      modifies this
      ensures r.Ok? <==> commits && AtVersion(old(accounts), pub, expected)
      ensures !AtVersion(old(accounts), pub, expected) ==> r == Err(NotFoundOrVersion(old(accounts), pub))
      ensures Contents() == old(Contents())
                            .(accounts := if r.Ok? then ApplyUpdate(old(accounts), pub, expected, seen, input) else old(accounts))
      ensures r.Ok? ==>
        && pub in accounts && accounts == old(accounts)[pub := accounts[pub]]
        && AsSubmitted(pub, old(accounts)[pub], accounts[pub], seen, input)
    {
      if pub !in accounts || accounts[pub].version != expected {
        return Err(NotFoundOrVersion(accounts, pub));
      }
      if !commits { return Err(Aborted); }
      var row := accounts[pub];
      var credential := seen.credential;
      var bump := 0;
      if input.key.Some? {
        credential, bump := Some(Key(pub, input.key.value)), 1;
      }
      accounts := accounts[pub := Account(row.id, row.auth, input.upstream, input.proxy, credential,
                                          row.credentialVersion + bump, input.status, row.version + 1)];
      return Ok(());
    }

    method BeginAccountValidation(pub: nat, expected: nat, commits: bool) returns (r: Result<(), StoreError>)
      modifies this
      ensures r.Ok? <==>
        commits && AtVersion(old(accounts), pub, expected) && old(accounts)[pub].status != Validating
      ensures r.Err? && pub !in old(accounts) ==> r.error == NotFound
      ensures Contents() == old(Contents())
                            .(accounts := if r.Ok? then BeginValidation(old(accounts), pub, expected) else old(accounts))
      ensures r.Ok? ==>
        && pub in accounts && accounts == old(accounts)[pub := accounts[pub]]
        && OnlyStatus(old(accounts)[pub], accounts[pub], Validating)
    {
      if pub !in accounts || accounts[pub].version != expected || accounts[pub].status == Validating {
        return Err(NotFoundOrVersion(accounts, pub));
      }
      if !commits { return Err(Aborted); }
      var row := accounts[pub];
      accounts := accounts[pub := row.(status := Validating, version := row.version + 1)];
      return Ok(());
    }

    method FinishAccountValidation(pub: nat, expected: nat, ok: bool, commits: bool) returns (r: Result<(), StoreError>)
      modifies this
      ensures r.Ok? <==> commits && FinishSelects(old(accounts), pub, expected, ok)
      ensures Contents() == old(Contents())
                            .(accounts := if r.Ok? then FinishValidation(old(accounts), pub, expected, ok) else old(accounts))
      ensures r.Ok? ==>
        && old(accounts)[pub].status == Validating && old(accounts)[pub].version == expected
        && pub in accounts && accounts == old(accounts)[pub := accounts[pub]]
        && OnlyStatus(old(accounts)[pub], accounts[pub], if ok then Active else Invalid)
        && (ok ==> accounts[pub].credential.Some?)
    {
      var status := Invalid;
      if ok { status := Active; }
      if || pub !in accounts || accounts[pub].version != expected || accounts[pub].status != Validating
         || (status == Active && accounts[pub].credential.None?) {
        return Err(NotFoundOrVersion(accounts, pub));
      }
      if !commits { return Err(Aborted); }
      var row := accounts[pub];
      accounts := accounts[pub := row.(status := status, version := row.version + 1)];
      return Ok(());
    }

    /** Selects the rows under validation, then updates them one by one; every update must find
        its row. `failsAt` is the update whose audit insert fails, if any. */
    method RecoverInterruptedAccountValidations(failsAt: Option<nat>) returns (r: Result<nat, StoreError>)
      modifies this
      ensures Contents() == old(Contents())
                            .(accounts := if r.Ok? then RecoverValidations(old(accounts)) else old(accounts))
      ensures r.Ok? ==> r.value == |ValidatingIds(old(accounts))|
      ensures r.Ok? ==> accounts.Keys == old(accounts).Keys
      ensures r.Ok? ==> forall pub <- accounts ::
        if old(accounts)[pub].status == Validating then OnlyStatus(old(accounts)[pub], accounts[pub], Invalid)
        else accounts[pub] == old(accounts)[pub]
      ensures r.Ok? <==> (failsAt.Some? ==> |ValidatingIds(old(accounts))| <= failsAt.value)
    {
      hide RecoveredSoFar, ValidatingIds, RecoverValidations;
      var before := accounts;
      NoneRecovered(before);
      var selected := ValidatingIds(accounts);
      var left := selected;
      var count := 0;
      assert selected - left == {};
      while left != {}
        invariant left <= selected && count + |left| == |selected|
        invariant failsAt.Some? ==> count <= failsAt.value
        invariant RecoveredSoFar(before, accounts, selected - left)
        invariant Contents() == old(Contents()).(accounts := accounts)
      {
        var pub :| pub in left;
        RecoverOne(before, accounts, selected - left, pub);
        assert selected - (left - {pub}) == (selected - left) + {pub};
        var row := accounts[pub];
        if row.status != Validating || failsAt == Some(count) {
          accounts := before;
          return Err(Conflict);
        }
        accounts := accounts[pub := row.(status := Invalid, version := row.version + 1)];
        left := left - {pub};
        count := count + 1;
      }
      assert selected - left == selected;
      AllRecovered(before, accounts);
      return Ok(count);
    }

    /** Activates the account and consumes the attempt; the second statement failing undoes the
        first. */
    method CompleteOAuthAccount(n: nat, pub: nat, expected: nat, token: Credential, commits: bool)
      returns (r: Result<(), StoreError>)
      modifies this
      ensures r.Ok? <==> commits && CompleteSelects(old(Contents()), n, pub, expected)
      ensures Contents() ==
              if r.Ok? then CompleteAuthorization(old(Contents()), n, pub, expected, token) else old(Contents())
      ensures r.Ok? ==>
        && old(accounts)[pub].version == expected && old(accounts)[pub].auth == OAuth
        && old(accounts)[pub].status != Disabled
        && pub in accounts && accounts == old(accounts)[pub := accounts[pub]]
        && NewCredential(old(accounts)[pub], accounts[pub], token, Active)
        && n in old(attempts) && old(attempts)[n].status == Exchanging && old(clock) < old(attempts)[n].expires
        && old(attempts)[n].account == accounts[pub].id
        && attempts == old(attempts)[n := old(attempts)[n].(status := Consumed)]
    {
      var before := accounts;
      if || pub !in accounts || accounts[pub].version != expected || accounts[pub].auth != OAuth
         || accounts[pub].status == Disabled {
        return Err(NotFoundOrVersion(accounts, pub));
      }
      var row := accounts[pub];
      accounts := accounts[pub := row.(credential := Some(token), credentialVersion := row.credentialVersion + 1,
                                       status := Active, version := row.version + 1)];
      var id := accounts[pub].id;
      if || n !in attempts || attempts[n].account != id || attempts[n].status != Exchanging
         || attempts[n].expires <= clock {
        accounts := before;
        return Err(Conflict);
      }
      if !commits {
        accounts := before;
        return Err(Aborted);
      }
      attempts := attempts[n := attempts[n].(status := Consumed)];
      return Ok(());
    }

    /** The transaction of CreateAttempt, after the account was loaded at time `now`. */
    method CreateAttempt(pub: nat, fingerprint: Fingerprint, now: nat, commits: bool)
      returns (r: Result<nat, StoreError>)
      modifies this
      ensures r.Ok? <==> commits && InsertSelects(old(Contents()), pub, fingerprint.version, now)
      ensures r.Ok? ==> r.value == old(nextAttempt)
      ensures Contents() ==
              if r.Ok? then InsertAttempt(old(Contents()), pub, fingerprint, now) else old(Contents())
      ensures r.Ok? ==>
        var id := old(accounts)[pub].id;
        && old(accounts)[pub].version == fingerprint.version && old(accounts)[pub].auth == OAuth
        && attempts.Keys == old(attempts).Keys + {r.value}
        && attempts[r.value] == Attempt(id, fingerprint, Pending, now + 600_000)
        && (forall n <- old(attempts) | n != r.value ::
              if old(attempts)[n].account == id && old(attempts)[n].status == Pending
              then attempts[n] == old(attempts)[n].(status := Cancelled) else attempts[n] == old(attempts)[n])
        && forall n <- old(attempts) :: old(attempts)[n].account == id ==>
             !(old(attempts)[n].status == Exchanging && now < old(attempts)[n].expires)
    {
      if pub !in accounts || accounts[pub].version != fingerprint.version || accounts[pub].auth != OAuth {
        return Err(VersionMismatch);
      }
      var account := accounts[pub].id;
      var exchanging := set n | n in attempts && attempts[n].account == account && Unexpired(attempts[n], now);
      if |exchanging| > 0 {
        ghost var n :| n in exchanging;
        return Err(Conflict);
      }
      assert forall n <- attempts :: n !in exchanging;
      if !commits { return Err(Aborted); }
      attempts := CancelPending(attempts, account);
      r := Ok(nextAttempt);
      attempts := attempts[nextAttempt := Attempt(account, fingerprint, Pending, now + ATTEMPT_TTL)];
      nextAttempt := nextAttempt + 1;
    }

    method CancelPendingAttempt(n: nat, commits: bool) returns (r: Result<(), StoreError>)
      modifies this
      ensures r.Ok? <==> commits && n in old(attempts) && old(attempts)[n].status == Pending
      ensures Contents() == old(Contents())
                            .(attempts := if r.Ok? then CancelAttempt(old(attempts), n) else old(attempts))
    {
      if n !in attempts || attempts[n].status != Pending { return Err(NotFound); }
      if !commits { return Err(Aborted); }
      attempts := attempts[n := attempts[n].(status := Cancelled)];
      return Ok(());
    }

    /** The two writes of RecoverInterrupted before the accounts are recovered. Afterwards no
        attempt is exchanging and none has expired; every unexpired attempt is still there, failed
        if it was exchanging and otherwise as it was. */
    method RecoverAttemptRows()
      modifies this
      ensures forall n <- attempts ::
        n in old(attempts) && attempts[n].expires > clock && attempts[n].status != Exchanging
      ensures forall n <- old(attempts) :: old(attempts)[n].expires > clock ==>
        && n in attempts
        && attempts[n] == if old(attempts)[n].status == Exchanging then old(attempts)[n].(status := Failed)
                          else old(attempts)[n]
      ensures Contents() == old(Contents()).(attempts := DropExpired(RecoverAttempts(old(attempts)), old(clock)))
    {
      attempts := RecoverAttempts(attempts);
      attempts := DropExpired(attempts, clock);
    }

    method StoreRefreshedToken(pub: nat, id: nat, credentialVersion: nat, rotated: Credential)
      returns (r: Result<(), StoreError>)
      modifies this
      ensures r.Ok? <==> RefreshSelects(old(accounts), pub, id, credentialVersion)
      ensures Contents() == old(Contents()).(accounts := StoreRefreshed(old(accounts), pub, id, credentialVersion, rotated))
      ensures r.Ok? ==>
        && old(accounts)[pub].id == id && old(accounts)[pub].credentialVersion == credentialVersion
        && old(accounts)[pub].auth == OAuth
        && pub in accounts && accounts == old(accounts)[pub := accounts[pub]]
        && NewCredential(old(accounts)[pub], accounts[pub], rotated, Active)
    {
      if || pub !in accounts || accounts[pub].id != id || accounts[pub].credentialVersion != credentialVersion
         || accounts[pub].status != Active || accounts[pub].auth != OAuth {
        return Err(NotFound);
      }
      var row := accounts[pub];
      accounts := accounts[pub := row.(credential := Some(rotated), credentialVersion := row.credentialVersion + 1,
                                       version := row.version + 1)];
      return Ok(());
    }
  }

  // ---------- the refresh map under its mutex ----------

  /** A refreshCall: its channel is closed once `answer` is set. */
  class RefreshMap {
    var refreshes: map<nat, nat>
    var calls: map<nat, Option<Answer>>
    var nextCall: nat

    constructor ()
      ensures refreshes == map[] && calls == map[] && nextCall == 0
    {
      refreshes, calls, nextCall := map[], map[], 0;
    }

    /** The first critical section of EnsureCredential. */
    method Join(id: nat) returns (call: nat, owner: bool)
      modifies this
      ensures owner <==> id !in old(refreshes)
      ensures !owner ==>
        refreshes == old(refreshes) && calls == old(calls) && nextCall == old(nextCall) && call == old(refreshes)[id]
      ensures owner ==>
        && call == old(nextCall) && nextCall == call + 1
        && refreshes == old(refreshes)[id := call] && calls == old(calls)[call := None]
    {
      if id in refreshes {
        return refreshes[id], false;
      }
      call, owner := nextCall, true;
      nextCall := nextCall + 1;
      calls := calls[call := None];
      refreshes := refreshes[id := call];
    }

    /** The second critical section: unregister, then close the channel. */
    method Publish(id: nat, call: nat, answer: Answer)
      modifies this
      ensures refreshes == old(refreshes) - {id} && calls == old(calls)[call := Some(answer)]
      ensures nextCall == old(nextCall)
    {
      refreshes := refreshes - {id};
      calls := calls[call := Some(answer)];
    }

    /** EnsureCredential up to refreshCredential: the caller joins or owns exactly as the
        lifecycle's Ensure step says. */
    method Ensure(ghost s: State, p: nat, h: Proc) returns (proc: Proc)
      requires p in s.procs && s.procs[p] == h && h.Holding? && h.seen.auth == OAuth
      requires refreshes == s.refreshes && calls == s.calls && nextCall == s.log.nextCall
      modifies this
      ensures p in DoEnsure(s, p).procs && proc == DoEnsure(s, p).procs[p]
      ensures refreshes == DoEnsure(s, p).refreshes && calls == DoEnsure(s, p).calls
      ensures nextCall == DoEnsure(s, p).log.nextCall
    {
      var call, owner := Join(h.seen.id);
      if owner { return Owner(call, h.seen.id, Entered(h.pub, h.seen)); }
      return Waiting(call);
    }

    method Finish(ghost s: State, p: nat, o: Proc) returns (proc: Proc)
      requires p in s.procs && s.procs[p] == o && o.Owner? && o.phase.Answered?
      requires refreshes == s.refreshes && calls == s.calls
      modifies this
      ensures p in DoRefreshPublish(s, p).procs && proc == DoRefreshPublish(s, p).procs[p]
      ensures refreshes == DoRefreshPublish(s, p).refreshes && calls == DoRefreshPublish(s, p).calls
    {
      Publish(o.id, o.call, o.phase.answer);
      return Returned(o.call, o.phase.answer);
    }
  }
}
