/**
  Logins, authentications and security changes as a transition system. A login reads the
  administrator row long before its transaction, a security change reads it long before its
  own; both run in any interleaving.
 */
module SessionRuns {
  import opened Wrappers
  import opened SessionTable

  datatype Call =
    | LoginReady(seen: Admin, epoch: nat, now: nat)
    | ChangeReady(change: Change, seen: Admin)
    | SetupReady
    | Reading(id: nat, row: Session, epoch: nat)
    | Accepted(id: nat, now: nat, stale: bool, epoch: nat)
    | Expiring(id: nat)

  /** History: how many security changes were committed, at which count the administrator row
      behind each session was read, and the TOTP steps used since the secret last changed. */
  datatype Log = Log(commits: nat, minted: map<nat, nat>, steps: seq<int>)

  datatype State = State(tables: Tables, clock: nat, calls: map<nat, Call>, log: Log)

  const INIT: State := State(Tables(None, map[], 0), 0, map[], Log(0, map[], []))

  datatype Event =
    | Bootstrap(password: nat)
    | LoginRead(p: nat, now: nat)
    | LoginFail(p: nat)
    | LoginCommit(p: nat, step: Option<int>)
    | ChangeRead(p: nat, change: Change)
    | ChangeCommit(p: nat)
    | Reset(password: nat, disableTotp: bool)
    | SetupRead(p: nat)
    | SetupCommit(p: nat, secret: nat, expires: nat)
    | AuthRead(p: nat, id: nat)
    | AuthDecide(p: nat)
    | AuthWrite(p: nat)
    | Logout(id: nat)
    | Abandon(p: nat)
    | Tick(to: nat)

  function Go(s: State, p: nat, c: Call): State {
    s.(calls := s.calls[p := c])
  }

  function End(s: State, p: nat): State {
    s.(calls := s.calls - {p})
  }

  /** The steps that count after a TOTP change. */
  function StepsAfter(change: Change, steps: seq<int>): seq<int> {
    match change
    case NewPassword(_) => steps
    case EnableTotp(step) => [step]
    case DisableTotp => []
  }

  function DoLoginCommit(s: State, p: nat, step: Option<int>): State {
    if p in s.calls && s.calls[p].LoginReady? && (s.calls[p].seen.totp.Some? <==> step.Some?) then
      var c := s.calls[p];
      var t := LoginTx(s.tables, c.seen.version, step, c.now);
      if t.None? then End(s, p)
      else
        End(s, p).(tables := t.value,
                   log := s.log.(minted := s.log.minted[s.tables.next := c.epoch],
                                 steps := if step.Some? then s.log.steps + [step.value] else s.log.steps))
    else s
  }

  function DoChangeCommit(s: State, p: nat): State {
    if p in s.calls && s.calls[p].ChangeReady? then
      var c := s.calls[p];
      var t := RotateTx(s.tables, c.change, c.seen, s.clock);
      if t.None? then End(s, p)
      else
        End(s, p).(tables := t.value,
                   log := Log(s.log.commits + 1, s.log.minted[s.tables.next := s.log.commits + 1],
                              StepsAfter(c.change, s.log.steps)))
    else s
  }

  function DoReset(s: State, password: nat, disableTotp: bool): State {
    var t := ResetTx(s.tables, password, disableTotp);
    if t.None? then s
    else s.(tables := t.value,
            log := s.log.(commits := s.log.commits + 1, steps := if disableTotp then [] else s.log.steps))
  }

  /** Authenticate finds a session that is not revoked and has the current version. */
  function DoAuthRead(s: State, p: nat, id: nat): State {
    if && p !in s.calls && s.tables.admin.Some? && id in s.tables.sessions && !s.tables.sessions[id].revoked
       && s.tables.sessions[id].version == s.tables.admin.value.version
    then Go(s, p, Reading(id, s.tables.sessions[id], s.log.commits))
    else s
  }

  /** Then it reads the clock and decides on the row it has. */
  function DoAuthDecide(s: State, p: nat): State {
    if p in s.calls && s.calls[p].Reading? then
      var c := s.calls[p];
      if s.clock < c.row.idleExpires && s.clock < c.row.absoluteExpires
      then Go(s, p, Accepted(c.id, s.clock, s.clock >= c.row.lastSeen + TOUCH_AFTER, c.epoch))
      else Go(s, p, Expiring(c.id))
    else s
  }

  /** What it writes follows in a statement of its own. */
  function DoAuthWrite(s: State, p: nat): State {
    if p in s.calls && s.calls[p].Accepted? then
      var c := s.calls[p];
      End(s, p).(tables := if c.stale then Touch(s.tables, c.id, c.now) else s.tables)
    else if p in s.calls && s.calls[p].Expiring? then End(s, p).(tables := Revoke(s.tables, s.calls[p].id))
    else s
  }

  function Step(s: State, e: Event): State {
    match e
    case Bootstrap(password) =>
      if s.tables.admin.None?
      then s.(tables := s.tables.(admin := Some(Admin(password, None, None, None, 1, 0, None)))) else s
    case LoginRead(p, now) => // the clock was read before the row
      if p !in s.calls && now <= s.clock && s.tables.admin.Some?
         && (s.tables.admin.value.lockedUntil.Some? ==> s.tables.admin.value.lockedUntil.value <= now)
      then Go(s, p, LoginReady(s.tables.admin.value, s.log.commits, now)) else s
    case LoginFail(p) =>
      if p in s.calls && s.calls[p].LoginReady?
      then End(s, p).(tables := FailTx(s.tables, s.calls[p].now)) else s
    case LoginCommit(p, step) => DoLoginCommit(s, p, step)
    case ChangeRead(p, change) =>
      if p !in s.calls && s.tables.admin.Some? then Go(s, p, ChangeReady(change, s.tables.admin.value)) else s
    case ChangeCommit(p) => DoChangeCommit(s, p)
    case Reset(password, disableTotp) => DoReset(s, password, disableTotp)
    case SetupRead(p) => if p !in s.calls && s.tables.admin.Some? then Go(s, p, SetupReady) else s
    case SetupCommit(p, secret, expires) =>
      if p in s.calls && s.calls[p].SetupReady? && s.tables.admin.Some?
      then End(s, p).(tables := s.tables.(admin := Some(s.tables.admin.value.(pending := Some(Pending(secret, expires))))))
      else s
    case AuthRead(p, id) => DoAuthRead(s, p, id)
    case AuthDecide(p) => DoAuthDecide(s, p)
    case AuthWrite(p) => DoAuthWrite(s, p)
    case Logout(id) => s.(tables := Revoke(s.tables, id))
    case Abandon(p) => End(s, p)
    case Tick(to) => if s.clock <= to then s.(clock := to) else s
  }

  function Run(s: State, events: seq<Event>): State
    decreases |events|
  {
    if events == [] then s else Run(Step(s, events[0]), events[1..])
  }

  // ---------- invariant ----------

  predicate SessionOk(x: Session, minted: nat) {
    && x.version == minted + 1
    && x.idleExpires <= x.absoluteExpires == x.created + ABSOLUTE
    && x.idleExpires <= x.lastSeen + IDLE
  }

  /** The session was minted at `epoch`. */
  predicate MintedAt(s: State, id: nat, epoch: nat) {
    id in s.tables.sessions && id in s.log.minted && s.log.minted[id] == epoch <= s.log.commits
  }

  predicate CallOk(s: State, c: Call) {
    match c
    case LoginReady(seen, epoch, _) => epoch <= s.log.commits && seen.version == epoch + 1
    case Reading(id, row, epoch) =>
      && MintedAt(s, id, epoch) && SessionOk(row, epoch) && row.created == s.tables.sessions[id].created
    case Accepted(id, now, _, epoch) => MintedAt(s, id, epoch) && now < s.tables.sessions[id].created + ABSOLUTE
    case _ => true
  }

  predicate Increasing(steps: seq<int>) {
    forall i, j | 0 <= i < j < |steps| :: steps[i] < steps[j]
  }

  /** The row holds the last step used since the secret changed. */
  predicate StepsOk(a: Admin, steps: seq<int>) {
    && Increasing(steps)
    && (if steps == [] then a.lastStep.None? else a.lastStep == Some(steps[|steps| - 1]))
  }

  ghost predicate SessionsOk(t: Tables, log: Log) {
    forall id <- t.sessions ::
      && id < t.next && id in log.minted && log.minted[id] <= log.commits
      && SessionOk(t.sessions[id], log.minted[id])
  }

  ghost predicate CallsOk(s: State) {
    forall p <- s.calls :: CallOk(s, s.calls[p])
  }

  ghost predicate Inv(s: State) {
    && (s.tables.admin.None? ==> s.log.commits == 0 && s.log.steps == [] && s.tables.sessions == map[])
    && (s.tables.admin.Some? ==>
          s.tables.admin.value.version == s.log.commits + 1 && StepsOk(s.tables.admin.value, s.log.steps))
    && SessionsOk(s.tables, s.log)
    && CallsOk(s)
    && (s.tables.admin.None? ==> forall p <- s.calls :: !s.calls[p].LoginReady? && !s.calls[p].ChangeReady?)
  }

  lemma LoginKeeps(s: State, p: nat, step: Option<int>)
    requires Inv(s)
    ensures Inv(DoLoginCommit(s, p, step))
  {
    hide CallsOk, SessionsOk, SessionOk, LoginTx;
    var s' := DoLoginCommit(s, p, step);
    if p in s.calls && s.calls[p].LoginReady? {
      var c := s.calls[p];
      ReadyOk(s, p);
      var t := LoginTx(s.tables, c.seen.version, step, c.now);
      if t.Some? && (c.seen.totp.Some? <==> step.Some?) {
        LoginTables(s.tables, c.seen.version, step, c.now);
        InsertKeeps(s.tables, s.log, t.value, s'.log, c.epoch, c.now);
      }
      CallsStay(s, s', p);
    }
  }

  lemma ReadyOk(s: State, p: nat)
    requires Inv(s) && p in s.calls && s.calls[p].LoginReady?
    ensures s.calls[p].epoch <= s.log.commits && s.calls[p].seen.version == s.calls[p].epoch + 1
    ensures s.tables.admin.Some?
  {
    assert CallOk(s, s.calls[p]);
  }

  /** What a login's transaction does. */
  lemma LoginTables(t: Tables, version: nat, step: Option<int>, now: nat)
    requires t.admin.Some? && LoginTx(t, version, step, now).Some?
    ensures
      var u := LoginTx(t, version, step, now).value;
      && Inserted(t, u, Session(version, now, now, now + IDLE, now + ABSOLUTE, false))
      && u.admin.Some? && u.admin.value.version == t.admin.value.version
      && u.admin.value.lastStep == (if step.Some? then step else t.admin.value.lastStep)
      && (step.Some? ==> t.admin.value.lastStep.None? || t.admin.value.lastStep.value < step.value)
  {
  }

  /** What a security change's transaction does. */
  lemma RotateTables(t: Tables, change: Change, seen: Admin, now: nat)
    requires t.admin.Some? && RotateTx(t, change, seen, now).Some?
    ensures
      var u := RotateTx(t, change, seen, now).value;
      && u.admin.Some? && u.admin.value.version == t.admin.value.version + 1
      && Inserted(t, u, Session(u.admin.value.version, now, now, now + IDLE, now + ABSOLUTE, false))
      && u.admin.value.lastStep == match change
                                   case NewPassword(_) => t.admin.value.lastStep
                                   case EnableTotp(step) => Some(step)
                                   case DisableTotp => None
  {
  }

  /** `u` has one session more; the others are as they were, or revoked. */
  ghost predicate Inserted(t: Tables, u: Tables, x: Session) {
    && u.next == t.next + 1 && u.sessions.Keys == t.sessions.Keys + {t.next} && u.sessions[t.next] == x
    && forall id <- t.sessions :: id != t.next ==>
         u.sessions[id] == t.sessions[id] || u.sessions[id] == t.sessions[id].(revoked := true)
  }

  predicate SessionsStay(a: map<nat, Session>, b: map<nat, Session>) {
    forall id <- a :: id in b && b[id].created == a[id].created
  }

  /** Inserting a session that was minted at `epoch`. */
  lemma InsertKeeps(t: Tables, log: Log, u: Tables, log': Log, epoch: nat, now: nat)
    requires SessionsOk(t, log)
    requires Inserted(t, u, Session(epoch + 1, now, now, now + IDLE, now + ABSOLUTE, false))
    requires log'.minted == log.minted[t.next := epoch] && log.commits <= log'.commits && epoch <= log'.commits
    ensures SessionsOk(u, log')
    ensures SessionsStay(t.sessions, u.sessions) && t.next !in t.sessions
  {
  }

  /** Calls in flight keep what they hold while sessions stay and security changes are counted. */
  lemma CallsStay(s: State, s': State, p: nat)
    requires CallsOk(s) && s.log.commits <= s'.log.commits
    requires s'.calls == s.calls || s'.calls == s.calls - {p}
    requires SessionsStay(s.tables.sessions, s'.tables.sessions)
    requires forall id <- s.tables.sessions ::
      id in s.log.minted ==> id in s'.log.minted && s'.log.minted[id] == s.log.minted[id]
    ensures CallsOk(s')
  {
    forall q <- s'.calls ensures CallOk(s', s'.calls[q]) { assert CallOk(s, s.calls[q]); }
  }

  lemma ChangeKeeps(s: State, p: nat)
    requires Inv(s)
    ensures Inv(DoChangeCommit(s, p))
  {
    hide CallsOk, SessionsOk, SessionOk, RotateTx;
    var s' := DoChangeCommit(s, p);
    if p in s.calls && s.calls[p].ChangeReady? {
      var c := s.calls[p];
      var t := RotateTx(s.tables, c.change, c.seen, s.clock);
      if t.Some? {
        RotateTables(s.tables, c.change, c.seen, s.clock);
        InsertKeeps(s.tables, s.log, t.value, s'.log, s.log.commits + 1, s.clock);
      }
      CallsStay(s, s', p);
    }
  }

  lemma ResetKeeps(s: State, password: nat, disableTotp: bool)
    requires Inv(s)
    ensures Inv(DoReset(s, password, disableTotp))
  {
  }

  /** Calls move to places that are fine, and one session row at most is touched or revoked. */
  lemma OneRowKeeps(s: State, s': State, id: nat)
    requires Inv(s)
    requires s'.log == s.log && s'.tables.admin == s.tables.admin && s'.tables.next == s.tables.next
    requires s'.tables.sessions.Keys == s.tables.sessions.Keys
    requires forall x <- s'.tables.sessions :: x != id ==> s'.tables.sessions[x] == s.tables.sessions[x]
    requires id in s.tables.sessions ==> s'.tables.sessions[id].created == s.tables.sessions[id].created
    requires id in s.tables.sessions ==>
      forall minted :: SessionOk(s.tables.sessions[id], minted) ==> SessionOk(s'.tables.sessions[id], minted)
    requires forall p <- s'.calls ::
      (p in s.calls && s'.calls[p] == s.calls[p])
      || (CallOk(s, s'.calls[p]) && !s'.calls[p].LoginReady? && !s'.calls[p].ChangeReady?)
    ensures Inv(s')
  {
    forall p <- s'.calls ensures CallOk(s', s'.calls[p]) {
      if p in s.calls && s'.calls[p] == s.calls[p] { assert CallOk(s, s.calls[p]); }
    }
  }

  lemma AuthReadKeeps(s: State, p: nat, id: nat)
    requires Inv(s)
    ensures Inv(DoAuthRead(s, p, id))
  {
    var s' := DoAuthRead(s, p, id);
    assert s' != s ==> CallOk(s, s'.calls[p]);
    hide Inv;
    OneRowKeeps(s, s', id);
  }

  lemma AuthDecideKeeps(s: State, p: nat)
    requires Inv(s)
    ensures Inv(DoAuthDecide(s, p))
  {
    if p in s.calls && s.calls[p].Reading? {
      assert CallOk(s, s.calls[p]);
      hide Inv;
      OneRowKeeps(s, DoAuthDecide(s, p), s.calls[p].id);
    }
  }

  lemma AuthWriteKeeps(s: State, p: nat)
    requires Inv(s)
    ensures Inv(DoAuthWrite(s, p))
  {
    if p in s.calls && (s.calls[p].Accepted? || s.calls[p].Expiring?) {
      hide Inv;
      OneRowKeeps(s, DoAuthWrite(s, p), s.calls[p].id);
    }
  }

  lemma LogoutKeeps(s: State, id: nat)
    requires Inv(s)
    ensures Inv(Step(s, Logout(id)))
  {
    hide Inv;
    OneRowKeeps(s, Step(s, Logout(id)), id);
  }

  lemma EndKeeps(s: State, s': State)
    requires Inv(s)
    requires s'.log == s.log && s'.tables.sessions == s.tables.sessions && s'.tables.next == s.tables.next
    requires s.tables.admin.Some? && s'.tables.admin.Some?
    requires s'.tables.admin.value.version == s.tables.admin.value.version
    requires s'.tables.admin.value.lastStep == s.tables.admin.value.lastStep
    requires forall p <- s'.calls :: (p in s.calls && s'.calls[p] == s.calls[p]) || CallOk(s, s'.calls[p])
    ensures Inv(s')
  {
    forall p <- s'.calls ensures CallOk(s', s'.calls[p]) {
      if p in s.calls && s'.calls[p] == s.calls[p] { assert CallOk(s, s.calls[p]); }
    }
  }

  /** Bootstrap, reads, failures, setups, ends and time. */
  lemma PlainKeeps(s: State, e: Event)
    requires Inv(s)
    requires e.LoginRead? || e.LoginFail? || e.ChangeRead? || e.SetupRead? || e.SetupCommit?
    ensures Inv(Step(s, e))
  {
    assert s.tables.admin.Some? && e.LoginRead? && Step(s, e) != s ==> CallOk(s, Step(s, e).calls[e.p]);
    assert e.LoginFail? && e.p in s.calls && s.calls[e.p].LoginReady? ==> s.tables.admin.Some?;
    hide Inv;
    if s.tables.admin.Some? { EndKeeps(s, Step(s, e)); }
  }

  lemma RestKeeps(s: State, e: Event)
    requires Inv(s) && (e.Bootstrap? || e.Abandon? || e.Tick?)
    ensures Inv(Step(s, e))
  {
    var s' := Step(s, e);
    forall p <- s'.calls ensures CallOk(s', s'.calls[p]) {
      assert CallOk(s, s.calls[p]);
    }
  }

  lemma StepKeeps(s: State, e: Event)
    requires Inv(s)
    ensures Inv(Step(s, e))
  {
    hide Inv, DoLoginCommit, DoChangeCommit, DoReset, DoAuthRead, DoAuthDecide, DoAuthWrite;
    match e
    case LoginCommit(p, step) => LoginKeeps(s, p, step);
    case ChangeCommit(p) => ChangeKeeps(s, p);
    case Reset(password, disableTotp) => ResetKeeps(s, password, disableTotp);
    case AuthRead(p, id) => AuthReadKeeps(s, p, id);
    case AuthDecide(p) => AuthDecideKeeps(s, p);
    case AuthWrite(p) => AuthWriteKeeps(s, p);
    case Logout(id) => LogoutKeeps(s, id);
    case _ =>
      if e.Bootstrap? || e.Abandon? || e.Tick? { RestKeeps(s, e); } else { PlainKeeps(s, e); }
      hide Step;
  }

  lemma {:induction false} RunKeeps(s: State, events: seq<Event>)
    requires Inv(s)
    ensures Inv(Run(s, events))
    decreases |events|
  {
    hide Inv, Step;
    if events != [] {
      StepKeeps(s, events[0]);
      RunKeeps(Step(s, events[0]), events[1..]);
    }
  }

  lemma {:induction false} Reachable(events: seq<Event>)
    ensures Inv(Run(INIT, events))
  {
    RunKeeps(INIT, events);
  }
}
