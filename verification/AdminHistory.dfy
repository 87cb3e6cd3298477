/**
  The administrator's secrets and the login lock over every run: which password, TOTP secret and
  pending secret are stored, how many logins have failed, and what a security change needs.
 */
module AdminHistory {
  import opened Wrappers
  import opened SessionTable
  import opened SessionRuns
  import opened SessionSafety

  // ---------- one step ----------

  /** A security change is on its way, and what it was checked against is still stored. */
  predicate StillHolds(s: State, p: nat) {
    && p in s.calls && s.calls[p].ChangeReady? && s.tables.admin.Some?
    && StillThere(s.tables.admin.value, s.calls[p].change, s.calls[p].seen, s.clock)
  }

  /** A login is on its way whose TOTP step, if the account needs one, has not been used. */
  predicate StillFresh(s: State, p: nat, step: Option<int>) {
    && p in s.calls && s.calls[p].LoginReady? && s.tables.admin.Some?
    && (s.calls[p].seen.totp.Some? <==> step.Some?)
    && (step.Some? && s.tables.admin.value.lastStep.Some? ==> s.tables.admin.value.lastStep.value < step.value)
  }

  /** The administrator row after one event, field by field. */
  predicate RowFollows(s: State, e: Event, a: Admin, b: Admin) {
    match e
    case ChangeCommit(p) =>
      if StillHolds(s, p) then ChangedAs(a, b, s.calls[p].change) else b == a
    case Reset(password, disableTotp) =>
      && b.password == password && b.version == a.version + 1 && b.failures == 0 && b.lockedUntil == None
      && if disableTotp then b.totp == None && b.pending == None && b.lastStep == None
         else b.totp == a.totp && b.pending == a.pending && b.lastStep == a.lastStep
    case SetupCommit(p, secret, expires) =>
      if p in s.calls && s.calls[p].SetupReady?
      then b == Admin(a.password, a.totp, Some(Pending(secret, expires)), a.lastStep, a.version, a.failures, a.lockedUntil)
      else b == a
    case LoginCommit(p, step) =>
      if StillFresh(s, p, step)
      then b == Admin(a.password, a.totp, a.pending, if step.Some? then step else a.lastStep, a.version, 0, None)
      else b == a
    case LoginFail(p) =>
      if p in s.calls && s.calls[p].LoginReady? then
        && b == Admin(a.password, a.totp, a.pending, a.lastStep, a.version, a.failures + 1, b.lockedUntil)
        && LockIs(a.failures + 1, s.calls[p].now, b.lockedUntil)
      else b == a
    case _ => b == a
  }

  lemma StepRow(s: State, e: Event)
    requires s.tables.admin.Some?
    ensures Step(s, e).tables.admin.Some?
    ensures RowFollows(s, e, s.tables.admin.value, Step(s, e).tables.admin.value)
  {
    if e.LoginFail? && e.p in s.calls && s.calls[e.p].LoginReady? {
      LockIsDelay(s.tables.admin.value.failures + 1, s.calls[e.p].now);
    }
    hide LockIs, LockDelay;
  }

  /** There is no administrator before the first start, which stores its password and no more. */
  lemma StepCreates(s: State, e: Event)
    requires s.tables.admin.None?
    ensures Step(s, e).tables.admin ==
            if e.Bootstrap? then Some(Admin(e.password, None, None, None, 1, 0, None)) else None
  {
  }

  /** A login starts exactly when no lock is running at the time it has read. */
  lemma LoginStartsIff(s: State, p: nat, now: nat)
    requires p !in s.calls && now <= s.clock
    ensures p in Step(s, LoginRead(p, now)).calls <==>
      && s.tables.admin.Some?
      && (s.tables.admin.value.lockedUntil.Some? ==> s.tables.admin.value.lockedUntil.value <= now)
  {
  }

  // ---------- the sessions ----------

  /** What an event does to a session that is there. */
  predicate SessionFollows(s: State, e: Event, id: nat, x: Session, y: Session) {
    match e
    case ChangeCommit(p) => y == if StillHolds(s, p) then x.(revoked := true) else x
    case Reset(_, _) => y == if s.tables.admin.Some? then x.(revoked := true) else x
    case Logout(other) => y == if other == id then x.(revoked := true) else x
    case AuthWrite(p) =>
      if p in s.calls && s.calls[p].Accepted? && s.calls[p].id == id && s.calls[p].stale && !x.revoked then
        && y.lastSeen == s.calls[p].now
        && y.idleExpires == (if s.calls[p].now + 43_200_000 <= x.absoluteExpires then s.calls[p].now + 43_200_000
                             else x.absoluteExpires)
        && y == x.(lastSeen := y.lastSeen, idleExpires := y.idleExpires)
      else if p in s.calls && s.calls[p].Expiring? && s.calls[p].id == id then y == x.(revoked := true)
      else y == x
    case _ => y == x
  }

  lemma StepSession(s: State, e: Event, id: nat)
    requires id in s.tables.sessions && id != s.tables.next
    ensures id in Step(s, e).tables.sessions
    ensures SessionFollows(s, e, id, s.tables.sessions[id], Step(s, e).tables.sessions[id])
  {
  }

  /** A session is inserted by exactly a login that goes through, with the version it read, and a
      security change, with the new version; it may be idle for twelve hours and live for seven
      days. */
  lemma StepInserts(s: State, e: Event)
    requires s.tables.next !in s.tables.sessions
    ensures
      var s' := Step(s, e);
      && (s.tables.next in s'.tables.sessions <==>
            || (e.LoginCommit? && StillFresh(s, e.p, e.step))
            || (e.ChangeCommit? && StillHolds(s, e.p)))
      && (s.tables.next in s'.tables.sessions ==>
            var now := if e.LoginCommit? then s.calls[e.p].now else s.clock;
            && s'.tables.next == s.tables.next + 1
            && s'.tables.sessions[s.tables.next] ==
                 Session(if e.LoginCommit? then s.calls[e.p].seen.version else s.tables.admin.value.version + 1,
                         now, now, now + 43_200_000, now + 604_800_000, false))
  {
  }

  // ---------- requests ----------

  /** A request finds its session exactly if that is not revoked and has the administrator's
      version, and keeps the row as it is. */
  lemma AuthFindsIff(s: State, p: nat, id: nat)
    requires p !in s.calls
    ensures
      var s' := Step(s, AuthRead(p, id));
      && (p in s'.calls <==>
            && s.tables.admin.Some? && id in s.tables.sessions && !s.tables.sessions[id].revoked
            && s.tables.sessions[id].version == s.tables.admin.value.version)
      && (p in s'.calls ==> s'.calls[p].Reading? && s'.calls[p].id == id && s'.calls[p].row == s.tables.sessions[id])
      && s'.tables == s.tables
  {
  }

  /** Then it is let in exactly before both ends of the row it found, and extends a session that
      was not seen for five minutes. */
  lemma AuthDecidesIff(s: State, p: nat)
    requires p in s.calls && s.calls[p].Reading?
    ensures
      var s', c := Step(s, AuthDecide(p)), s.calls[p];
      && p in s'.calls && s'.tables == s.tables
      && (s'.calls[p].Accepted? <==> s.clock < c.row.idleExpires && s.clock < c.row.absoluteExpires)
      && (s'.calls[p].Accepted? ==>
            && s'.calls[p].id == c.id && s'.calls[p].now == s.clock
            && (s'.calls[p].stale <==> 300_000 <= s.clock - c.row.lastSeen))
      && (!s'.calls[p].Accepted? ==> s'.calls[p] == Expiring(c.id))
  {
  }

  // ---------- every run ----------

  /** The password that was set last: at the first start, by a change that still held, or by a
      reset. */
  ghost function LastPassword(events: seq<Event>): Option<nat> {
    if events == [] then None
    else
      var init, e := events[..|events| - 1], events[|events| - 1];
      var s, before := Run(INIT, init), LastPassword(init);
      match e
      case Bootstrap(password) => if before.None? then Some(password) else before
      case Reset(password, _) => if before.None? then None else Some(password)
      case ChangeCommit(p) =>
        if StillHolds(s, p) && s.calls[p].change.NewPassword? then Some(s.calls[p].change.password) else before
      case _ => before
  }

  /** The TOTP secret of the last enrolment that still held, unless it was removed since. */
  ghost function LastSecret(events: seq<Event>): Option<nat> {
    if events == [] then None
    else
      var init, e := events[..|events| - 1], events[|events| - 1];
      var s, before := Run(INIT, init), LastSecret(init);
      match e
      case Reset(_, disableTotp) => if disableTotp then None else before
      case ChangeCommit(p) =>
        if StillHolds(s, p) && s.calls[p].change.EnableTotp? then Some(s.tables.admin.value.pending.value.secret)
        else if StillHolds(s, p) && s.calls[p].change.DisableTotp? then None
        else before
      case _ => before
  }

  /** The pending secret of the last setup, unless it was enrolled or dropped since. */
  ghost function LastPending(events: seq<Event>): Option<Pending> {
    if events == [] then None
    else
      var init, e := events[..|events| - 1], events[|events| - 1];
      var s, before := Run(INIT, init), LastPending(init);
      match e
      case SetupCommit(p, secret, expires) =>
        if p in s.calls && s.calls[p].SetupReady? && s.tables.admin.Some? then Some(Pending(secret, expires)) else before
      case Reset(_, disableTotp) => if disableTotp then None else before
      case ChangeCommit(p) => if StillHolds(s, p) && !s.calls[p].change.NewPassword? then None else before
      case _ => before
  }

  /** How many logins have failed since the last one that went through or the last reset. */
  ghost function FailedSince(events: seq<Event>): nat {
    if events == [] then 0
    else
      var init, e := events[..|events| - 1], events[|events| - 1];
      var s, before := Run(INIT, init), FailedSince(init);
      match e
      case LoginFail(p) => if p in s.calls && s.calls[p].LoginReady? && s.tables.admin.Some? then before + 1 else before
      case LoginCommit(p, step) => if StillFresh(s, p, step) then 0 else before
      case Reset(_, _) => 0
      case _ => before
  }

  lemma {:induction false} RunExtend(s: State, events: seq<Event>, e: Event)
    ensures Run(s, events + [e]) == Step(Run(s, events), e)
  {
    hide Step;
    RunAppend(s, events, [e]);
    var m := Run(s, events);
    assert Run(m, [e]) == Run(Step(m, e), []);
  }

  /** In every run the administrator row holds exactly what was set last. */
  lemma {:induction false} SecretsAreLastSet(events: seq<Event>)
    ensures
      var admin := Run(INIT, events).tables.admin;
      && (admin.Some? <==> LastPassword(events).Some?)
      && (admin.Some? ==>
            && admin.value.password == LastPassword(events).value && admin.value.totp == LastSecret(events)
            && admin.value.pending == LastPending(events) && admin.value.failures == FailedSince(events))
      && (admin.None? ==> LastSecret(events).None? && LastPending(events).None? && FailedSince(events) == 0)
  {
    if events != [] {
      var init, e := events[..|events| - 1], events[|events| - 1];
      assert events == init + [e];
      SecretsAreLastSet(init);
      RunExtend(INIT, init, e);
      var s := Run(INIT, init);
      hide Step, LockIs;
      if s.tables.admin.Some? { StepRow(s, e); } else { StepCreates(s, e); }
    }
  }

  /** A security change is committed, and one more session inserted, exactly when the password,
      the pending secret or the secret that it was checked against is still stored. */
  lemma ChangeNeedsWhatItChecked(s: State, p: nat)
    requires s.tables.next !in s.tables.sessions
    ensures Commits(s, Step(s, ChangeCommit(p))) <==> StillHolds(s, p)
    ensures s.tables.next in Step(s, ChangeCommit(p)).tables.sessions <==> StillHolds(s, p)
  {
  }
}
