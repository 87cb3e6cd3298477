/**
  What a session token is worth, in every interleaving of logins and security changes.
 */
module SessionSafety {
  import opened Wrappers
  import opened SessionTable
  import opened SessionRuns

  /** Neither revoked nor expired. */
  predicate Live(t: Tables, id: nat, now: nat) {
    && id in t.sessions && !t.sessions[id].revoked
    && now < t.sessions[id].idleExpires && now < t.sessions[id].absoluteExpires
  }

  /** A live token authenticates exactly when no password change, TOTP change or reset was
      committed since the administrator row behind it was read. */
  lemma {:induction false} AuthenticatesIffCurrent(events: seq<Event>, id: nat)
    ensures
      var s := Run(INIT, events);
      Authenticates(s.tables, id, s.clock)
      <==> Live(s.tables, id, s.clock) && id in s.log.minted && s.log.minted[id] == s.log.commits
  {
    Reachable(events);
    var s := Run(INIT, events);
    hide Run;
    if id in s.tables.sessions {
      assert SessionOk(s.tables.sessions[id], s.log.minted[id]);
    }
  }

  /** A request that was let in, however long it took between reading the session, deciding by
      the clock and going on: when it read the session, no security change had been committed
      since the administrator row behind that session was read, and it was let in within seven
      days of the session's start. */
  lemma {:induction false} AcceptedWasCurrent(events: seq<Event>, p: nat)
    ensures
      var s := Run(INIT, events);
      p in s.calls && s.calls[p].Accepted? ==>
        var c := s.calls[p];
        && c.id in s.tables.sessions && c.id in s.log.minted
        && s.log.minted[c.id] == c.epoch <= s.log.commits
        && c.now < s.tables.sessions[c.id].created + ABSOLUTE
  {
    Reachable(events);
    var s := Run(INIT, events);
    hide Run;
    if p in s.calls { assert CallOk(s, s.calls[p]); }
  }

  /** The version counts the committed security changes, from 1. */
  lemma {:induction false} VersionCountsChanges(events: seq<Event>)
    ensures
      var s := Run(INIT, events);
      s.tables.admin.Some? ==> s.tables.admin.value.version == 1 + s.log.commits
  {
    Reachable(events);
  }

  predicate Commits(s: State, s': State) {
    s'.log.commits == s.log.commits + 1
  }

  /** Right after a rotation the session it returned authenticates, and no other one does,
      whatever logins are on their way. */
  lemma {:induction false} RotationLeavesOneSession(events: seq<Event>, p: nat, id: nat)
    ensures
      var s := Run(INIT, events);
      var s' := Step(s, ChangeCommit(p));
      Commits(s, s') ==> (Authenticates(s'.tables, id, s'.clock) <==> id == s.tables.next)
  {
    Reachable(events);
    var s := Run(INIT, events);
    hide Run;
    if Commits(s, Step(s, ChangeCommit(p))) { OneSession(s, p, id); }
  }

  lemma OneSession(s: State, p: nat, id: nat)
    requires Inv(s) && Commits(s, DoChangeCommit(s, p))
    ensures Authenticates(DoChangeCommit(s, p).tables, id, s.clock) <==> id == s.tables.next
  {
    var s' := DoChangeCommit(s, p);
    if id in s.tables.sessions {
      assert SessionOk(s.tables.sessions[id], s.log.minted[id]);
    }
  }

  /** Right after a password reset no session authenticates. */
  lemma ResetLeavesNoSession(s: State, password: nat, disableTotp: bool, id: nat)
    requires Commits(s, DoReset(s, password, disableTotp))
    ensures !Authenticates(DoReset(s, password, disableTotp).tables, id, s.clock)
  {
  }

  // ---------- dead tokens ----------

  /** Revoked, or older than the last security change. */
  predicate Dead(s: State, id: nat) {
    && id in s.tables.sessions && id in s.log.minted
    && (s.tables.sessions[id].revoked || s.log.minted[id] < s.log.commits)
  }

  lemma StepKeepsDead(s: State, e: Event, id: nat)
    requires Inv(s) && Dead(s, id)
    ensures Dead(Step(s, e), id)
  {
    assert id < s.tables.next;
  }

  lemma {:induction false} DeadStaysDead(s: State, events: seq<Event>, id: nat)
    requires Inv(s) && Dead(s, id)
    ensures Dead(Run(s, events), id)
    decreases |events|
  {
    hide Inv, Dead, Step;
    if events != [] {
      StepKeeps(s, events[0]);
      StepKeepsDead(s, events[0], id);
      DeadStaysDead(Step(s, events[0]), events[1..], id);
    }
  }

  lemma {:induction false} RunAppend(s: State, xs: seq<Event>, ys: seq<Event>)
    ensures Run(s, xs + ys) == Run(Run(s, xs), ys)
    decreases |xs|
  {
    hide Step;
    if xs == [] {
      assert xs + ys == ys;
    } else {
      assert (xs + ys)[1..] == xs[1..] + ys;
      RunAppend(Step(s, xs[0]), xs[1..], ys);
    }
  }

  /** A token that was revoked or superseded never authenticates again. */
  lemma {:induction false} DeadTokensStayOut(before: seq<Event>, after: seq<Event>, id: nat)
    requires Dead(Run(INIT, before), id)
    ensures
      var s := Run(INIT, before + after);
      !Authenticates(s.tables, id, s.clock)
  {
    Reachable(before);
    RunAppend(INIT, before, after);
    DeadStaysDead(Run(INIT, before), after, id);
    AuthenticatesIffCurrent(before + after, id);
    hide Run;
  }

  /** No token lives longer than seven days, nor twelve hours after it was last seen. */
  lemma {:induction false} LifetimeIsBounded(events: seq<Event>, id: nat)
    ensures
      var s := Run(INIT, events);
      Authenticates(s.tables, id, s.clock) ==>
        && s.clock < s.tables.sessions[id].created + ABSOLUTE
        && s.clock < s.tables.sessions[id].lastSeen + IDLE
  {
    Reachable(events);
    var s := Run(INIT, events);
    hide Run;
    if id in s.tables.sessions {
      assert SessionOk(s.tables.sessions[id], s.log.minted[id]);
    }
  }

  // ---------- TOTP ----------

  /** A login that is accepted with a TOTP step uses one later than every step used since the
      secret last changed: no code works twice. */
  lemma {:induction false} TotpStepsAreUsedOnce(events: seq<Event>, p: nat, step: int)
    ensures
      var s := Run(INIT, events);
      var s' := Step(s, LoginCommit(p, Some(step)));
      && Increasing(s.log.steps)
      && (s'.tables.next == s.tables.next + 1 ==> forall used <- s.log.steps :: used < step)
  {
    Reachable(events);
    var s := Run(INIT, events);
    hide Run;
    StepsBelow(s.log.steps);
  }

  lemma StepsBelow(steps: seq<int>)
    requires Increasing(steps)
    ensures forall x <- steps :: x <= steps[|steps| - 1]
  {
  }
}
