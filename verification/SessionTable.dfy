/**
  The administrator row and the session rows, and the effect of every transaction on them.
  Passwords and TOTP secrets are opaque numbers; instants are milliseconds.
 */
module SessionTable {
  import opened Arithmetic
  import opened Wrappers

  const IDLE: nat := 43_200_000 // 12 hours
  const ABSOLUTE: nat := 604_800_000 // 7 days
  const TOUCH_AFTER: nat := 300_000 // 5 minutes

  datatype Pending = Pending(secret: nat, expires: nat)

  datatype Admin = Admin(
    password: nat,
    totp: Option<nat>,
    pending: Option<Pending>,
    lastStep: Option<int>,
    version: nat,
    failures: nat,
    lockedUntil: Option<nat>)

  datatype Session = Session(
    version: nat, // session_version copied from the administrator row
    created: nat,
    lastSeen: nat,
    idleExpires: nat,
    absoluteExpires: nat,
    revoked: bool)

  /** Session ids (and tokens) are random and unique, so they are drawn from a counter. */
  datatype Tables = Tables(admin: Option<Admin>, sessions: map<nat, Session>, next: nat)

  datatype Change = NewPassword(password: nat) | EnableTotp(step: int) | DisableTotp

  // ---------- sessions ----------

  function NewSession(version: nat, now: nat): Session {
    Session(version, now, now, now + IDLE, now + ABSOLUTE, false)
  }

  function InsertSession(t: Tables, version: nat, now: nat): Tables {
    t.(sessions := t.sessions[t.next := NewSession(version, now)], next := t.next + 1)
  }

  /** The decision of Authenticate on what it reads. */
  predicate Authenticates(t: Tables, id: nat, now: nat) {
    && t.admin.Some? && id in t.sessions
    && !t.sessions[id].revoked
    && t.sessions[id].version == t.admin.value.version
    && now < t.sessions[id].idleExpires && now < t.sessions[id].absoluteExpires
  }

  /** The later write of a successful Authenticate: extend the idle time, if still not revoked. */
  function Touch(t: Tables, id: nat, now: nat): Tables {
    if id in t.sessions && !t.sessions[id].revoked
    then t.(sessions := t.sessions[id := t.sessions[id].(
              lastSeen := now, idleExpires := Min(now + IDLE, t.sessions[id].absoluteExpires))])
    else t
  }

  function Revoke(t: Tables, id: nat): Tables {
    if id in t.sessions then t.(sessions := t.sessions[id := t.sessions[id].(revoked := true)]) else t
  }

  function RevokeAll(t: Tables): Tables {
    t.(sessions := map id | id in t.sessions :: t.sessions[id].(revoked := true))
  }

  // ---------- transactions ----------

  predicate StepAccepted(t: Tables, step: Option<int>) {
    t.admin.Some? && (step.Some? ==> t.admin.value.lastStep.None? || t.admin.value.lastStep.value < step.value)
  }

  /** The transaction of a login: use up the TOTP step, clear the failures, insert a session
      with the version of the row read at the start. */
  function LoginTx(t: Tables, version: nat, step: Option<int>, now: nat): Option<Tables> {
    if !StepAccepted(t, step) then None
    else
      var a := t.admin.value;
      var b := a.(lastStep := if step.Some? then step else a.lastStep, failures := 0, lockedUntil := None);
      Some(InsertSession(t.(admin := Some(b)), version, now))
  }

  /** The guard of a security change: what was read to check it is still there. */
  predicate ChangeSelects(a: Admin, change: Change, seen: Admin, now: nat) {
    match change
    case NewPassword(_) => a.password == seen.password
    case EnableTotp(_) => a.pending.Some? && seen.pending.Some? && a.pending.value.secret == seen.pending.value.secret
                          && a.pending.value.expires > now
    case DisableTotp => a.totp.Some? && a.totp == seen.totp
  }

  function Changed(a: Admin, change: Change, seen: Admin): Admin {
    match change
    case NewPassword(password) => a.(password := password, version := a.version + 1)
    case EnableTotp(step) =>
      a.(totp := if seen.pending.Some? then Some(seen.pending.value.secret) else None, pending := None,
         lastStep := Some(step), version := a.version + 1)
    case DisableTotp => a.(totp := None, pending := None, lastStep := None, version := a.version + 1)
  }

  /** What a security change was checked against is still stored: the password, the unexpired
      pending secret, or the secret. */
  predicate StillThere(a: Admin, change: Change, seen: Admin, now: nat) {
    match change
    case NewPassword(_) => a.password == seen.password
    case EnableTotp(_) =>
      && a.pending.Some? && seen.pending.Some? && a.pending.value.secret == seen.pending.value.secret
      && now < a.pending.value.expires
    case DisableTotp => a.totp.Some? && seen.totp == a.totp
  }

  /** The row after a security change, field by field. */
  predicate ChangedAs(a: Admin, b: Admin, change: Change) {
    && b.version == a.version + 1 && b.failures == a.failures && b.lockedUntil == a.lockedUntil
    && match change
       case NewPassword(password) =>
         b.password == password && b.totp == a.totp && b.pending == a.pending && b.lastStep == a.lastStep
       case EnableTotp(step) =>
         && b.password == a.password && a.pending.Some? && b.totp == Some(a.pending.value.secret)
         && b.pending == None && b.lastStep == Some(step)
       case DisableTotp => b.password == a.password && b.totp == None && b.pending == None && b.lastStep == None
  }

  /** Change the row, revoke every session, insert one with the new version. */
  function RotateTx(t: Tables, change: Change, seen: Admin, now: nat): Option<Tables> {
    if t.admin.None? || !ChangeSelects(t.admin.value, change, seen, now) then None
    else
      var b := Changed(t.admin.value, change, seen);
      Some(InsertSession(RevokeAll(t.(admin := Some(b))), b.version, now))
  }

  lemma RotatesAs(t: Tables, change: Change, seen: Admin, now: nat)
    ensures RotateTx(t, change, seen, now).Some? <==> t.admin.Some? && StillThere(t.admin.value, change, seen, now)
    ensures RotateTx(t, change, seen, now).Some? ==>
      var u := RotateTx(t, change, seen, now).value;
      && u.admin.Some? && ChangedAs(t.admin.value, u.admin.value, change)
      && u.sessions.Keys == t.sessions.Keys + {t.next}
      && u.sessions[t.next] == Session(u.admin.value.version, now, now, now + 43_200_000, now + 604_800_000, false)
      && forall x <- t.sessions :: x != t.next ==> u.sessions[x] == t.sessions[x].(revoked := true)
  {
  }

  function ResetTx(t: Tables, password: nat, disableTotp: bool): Option<Tables> {
    if t.admin.None? then None
    else
      var a := t.admin.value.(password := password, version := t.admin.value.version + 1, failures := 0, lockedUntil := None);
      var b := if disableTotp then a.(totp := None, pending := None, lastStep := None) else a;
      Some(RevokeAll(t.(admin := Some(b))))
  }

  // ---------- lockout ----------

  /** The lock after `failures` failed logins in a row, in milliseconds. */
  function LockDelay(failures: nat): Option<nat> {
    if failures < 5 then None
    else
      var shift := Min(failures - 5, 9);
      Some(Min(30_000 * Pow2(shift), 900_000))
  }

  /** Clamping the shift does not change the lock: it is 30 s doubled per failure from the
      fifth, capped at 15 minutes. */
  lemma {:induction false} LockDoublesUpToItsCap(failures: nat)
    requires failures >= 5
    ensures LockDelay(failures) == Some(Min(30_000 * Pow2(failures - 5), 900_000))
  {
    if failures - 5 > 9 {
      PowGrows(9, failures - 5);
      assert Pow2(9) == 512;
    }
  }

  /** The lock after `n` failures in a row: none before the fifth, then half a minute, doubled per
      failure, at most a quarter of an hour. */
  predicate LockIs(n: nat, now: nat, lockedUntil: Option<nat>) {
    if n < 5 then lockedUntil == None
    else if n == 5 then lockedUntil == Some(now + 30_000)
    else if n == 6 then lockedUntil == Some(now + 60_000)
    else if n == 7 then lockedUntil == Some(now + 120_000)
    else if n == 8 then lockedUntil == Some(now + 240_000)
    else if n == 9 then lockedUntil == Some(now + 480_000)
    else lockedUntil == Some(now + 900_000)
  }

  lemma {:induction false} LockIsDelay(n: nat, now: nat)
    ensures LockIs(n, now, match LockDelay(n) case None => None case Some(delay) => Some(now + delay))
  {
  }

  function FailTx(t: Tables, now: nat): Tables {
    if t.admin.None? then t
    else
      var n := t.admin.value.failures + 1;
      var lock := LockDelay(n);
      t.(admin := Some(t.admin.value.(failures := n, lockedUntil := if lock.None? then None else Some(now + lock.value))))
  }
}
