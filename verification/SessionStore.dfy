/**
  The transactions on the administrator and session rows as methods that write the rows in
  place, statement by statement, and roll back. Each has the effect of one atomic step of the
  session runs, or none.
 */
module SessionStore {
  import opened Arithmetic
  import opened Wrappers
  import opened SessionTable

  /** At most this many password verifications run at once. */
  const WORK_SLOTS: nat := 2

  /** The answer of Authenticate's query and clock. */
  datatype Verdict = LetIn(stale: bool) | Expired | Unknown

  class Database {
    var admin: Option<Admin>
    var sessions: map<nat, Session>
    var next: nat

    ghost function Contents(): Tables
      reads this
    {
      Tables(admin, sessions, next)
    }

    constructor ()
      ensures Contents() == Tables(None, map[], 0)
    {
      admin, sessions, next := None, map[], 0;
    }

    method Insert(version: nat, now: nat) returns (id: nat)
      modifies this
      ensures id == old(next) && Contents() == InsertSession(old(Contents()), version, now)
    {
      id := next;
      sessions := sessions[id := Session(version, now, now, now + IDLE, now + ABSOLUTE, false)];
      next := next + 1;
    }

    /** The transaction at the end of Login. A replayed step, or a failing insert, audit or commit
        (`commits` is false), undoes all of it. */
    method FinishLogin(version: nat, step: Option<int>, now: nat, commits: bool) returns (id: Option<nat>)
      modifies this
      ensures id == if commits && LoginTx(old(Contents()), version, step, now).Some? then Some(old(next)) else None
      ensures Contents() == if id.Some? then LoginTx(old(Contents()), version, step, now).value else old(Contents())
      ensures id.Some? <==>
        && commits && old(admin).Some?
        && (step.Some? && old(admin).value.lastStep.Some? ==> old(admin).value.lastStep.value < step.value)
      ensures id.Some? ==>
        && admin == Some(old(admin).value.(failures := 0, lockedUntil := None,
                                           lastStep := if step.Some? then step else old(admin).value.lastStep))
        && sessions == old(sessions)[id.value := Session(version, now, now, now + 43_200_000, now + 604_800_000, false)]
    {
      if admin.None? { return None; }
      var oldAdmin, oldSessions, oldNext := admin, sessions, next;
      var a := admin.value;
      if step.Some? {
        if a.lastStep.Some? && a.lastStep.value >= step.value { return None; }
        a := a.(lastStep := step);
        admin := Some(a);
      }
      admin := Some(a.(failures := 0, lockedUntil := None));
      var inserted := Insert(version, now);
      if !commits {
        admin, sessions, next := oldAdmin, oldSessions, oldNext;
        return None;
      }
      return Some(inserted);
    }

    /** updateSecurityAndRotate: read the version, change the row under its guard, revoke all
        sessions but the current, then the current, and insert the new one. A failed commit
        (`commits` is false) undoes all of it. */
    method UpdateSecurityAndRotate(current: nat, change: Change, seen: Admin, now: nat, commits: bool)
      returns (id: Option<nat>)
      modifies this
      ensures id == if commits && RotateTx(old(Contents()), change, seen, now).Some? then Some(old(next)) else None
      ensures Contents() == if id.Some? then RotateTx(old(Contents()), change, seen, now).value else old(Contents())
      ensures id.Some? <==> commits && old(admin).Some? && StillThere(old(admin).value, change, seen, now)
      ensures id.Some? ==>
        && admin.Some? && ChangedAs(old(admin).value, admin.value, change)
        && sessions.Keys == old(sessions).Keys + {id.value}
        && sessions[id.value] == Session(admin.value.version, now, now, now + 43_200_000, now + 604_800_000, false)
        && forall x <- old(sessions) :: x != id.value ==> sessions[x] == old(sessions)[x].(revoked := true)
    {
      hide StillThere, ChangedAs;
      RotatesAs(Contents(), change, seen, now);
      if admin.None? { return None; }
      var oldAdmin, oldSessions, oldNext := admin, sessions, next;
      var newVersion := admin.value.version + 1;
      var a := admin.value;
      match change {
        case NewPassword(password) =>
          if a.password != seen.password { return None; }
          a := a.(password := password, version := newVersion);
        case EnableTotp(step) =>
          if || a.pending.None? || seen.pending.None? || a.pending.value.secret != seen.pending.value.secret
             || a.pending.value.expires <= now { return None; }
          a := a.(totp := Some(seen.pending.value.secret), pending := None, lastStep := Some(step), version := newVersion);
        case DisableTotp =>
          if a.totp.None? || a.totp != seen.totp { return None; }
          a := a.(totp := None, pending := None, lastStep := None, version := newVersion);
      }
      admin := Some(a);
      sessions := map x | x in sessions :: if x != current then sessions[x].(revoked := true) else sessions[x];
      sessions := map x | x in sessions :: if x == current then sessions[x].(revoked := true) else sessions[x];
      assert sessions == RevokeAll(Tables(admin, oldSessions, oldNext)).sessions;
      var rotated := Insert(newVersion, now);
      if !commits {
        admin, sessions, next := oldAdmin, oldSessions, oldNext;
        return None;
      }
      return Some(rotated);
    }

    method ResetPassword(password: nat, disableTotp: bool, commits: bool) returns (ok: bool)
      modifies this
      ensures ok <==> commits && ResetTx(old(Contents()), password, disableTotp).Some?
      ensures Contents() == if ok then ResetTx(old(Contents()), password, disableTotp).value else old(Contents())
      ensures ok ==>
        && admin.Some? && old(admin).Some?
        && admin.value == (if disableTotp then Admin(password, None, None, None, old(admin).value.version + 1, 0, None)
                           else old(admin).value.(password := password, version := old(admin).value.version + 1,
                                                  failures := 0, lockedUntil := None))
        && sessions.Keys == old(sessions).Keys
        && forall x <- sessions :: sessions[x] == old(sessions)[x].(revoked := true)
    {
      if admin.None? { return false; }
      var oldAdmin, oldSessions := admin, sessions;
      var a := admin.value;
      if disableTotp {
        a := a.(password := password, totp := None, pending := None, lastStep := None, version := a.version + 1,
                failures := 0, lockedUntil := None);
      } else {
        a := a.(password := password, version := a.version + 1, failures := 0, lockedUntil := None);
      }
      admin := Some(a);
      sessions := map x | x in sessions :: sessions[x].(revoked := true);
      if !commits {
        admin, sessions := oldAdmin, oldSessions;
        return false;
      }
      return true;
    }

    method RecordFailure(now: nat, commits: bool) returns (ok: bool)
      modifies this
      ensures ok <==> commits && old(admin).Some?
      ensures Contents() == if ok then FailTx(old(Contents()), now) else old(Contents())
      ensures ok ==>
        && admin.Some? && admin.value == old(admin).value.(failures := old(admin).value.failures + 1,
                                                           lockedUntil := admin.value.lockedUntil)
        && LockIs(admin.value.failures, now, admin.value.lockedUntil)
    {
      hide LockIs;
      if admin.None? { return false; }
      LockIsDelay(admin.value.failures + 1, now);
      var oldAdmin := admin;
      var failures := admin.value.failures + 1;
      admin := Some(admin.value.(failures := failures, lockedUntil := None));
      if failures >= 5 {
        var shift := Min(failures - 5, 9);
        var delay := 30_000 * Pow2(shift);
        if delay > 900_000 { delay := 900_000; }
        admin := Some(admin.value.(lockedUntil := Some(now + delay)));
      }
      if !commits {
        admin := oldAdmin;
        return false;
      }
      return true;
    }

    /** The query of Authenticate and its decision at the time read after it. */
    method ReadSession(id: nat, now: nat) returns (v: Verdict)
      ensures v.LetIn? <==> Authenticates(Contents(), id, now)
      ensures v.LetIn? <==>
        && admin.Some? && id in sessions && !sessions[id].revoked && sessions[id].version == admin.value.version
        && now < sessions[id].idleExpires && now < sessions[id].absoluteExpires
      ensures v.LetIn? ==> (v.stale <==> now >= sessions[id].lastSeen + 300_000)
      ensures v.Expired? <==>
        && !Authenticates(Contents(), id, now)
        && admin.Some? && id in sessions && !sessions[id].revoked && sessions[id].version == admin.value.version
    {
      if admin.None? || id !in sessions || sessions[id].revoked || sessions[id].version != admin.value.version {
        return Unknown;
      }
      var row := sessions[id];
      if now >= row.idleExpires || now >= row.absoluteExpires { return Expired; }
      return LetIn(now >= row.lastSeen + TOUCH_AFTER);
    }

    /** What Authenticate writes afterwards, in a statement whose failure is ignored (`writes` is
        false): an expired session is revoked, one not seen for five minutes is extended, if it
        still is not revoked and never past its absolute end. */
    method SettleSession(id: nat, now: nat, v: Verdict, writes: bool)
      modifies this
      ensures Contents() ==
        if writes && v.Expired? then Revoke(old(Contents()), id)
        else if writes && v.LetIn? && v.stale then Touch(old(Contents()), id, now)
        else old(Contents())
      ensures admin == old(admin) && next == old(next) && sessions.Keys == old(sessions).Keys
      ensures forall x <- sessions ::
        sessions[x] ==
          var row := old(sessions)[x];
          if x != id || !writes || row.revoked then row
          else if v.Expired? then row.(revoked := true)
          else if v.LetIn? && v.stale then
            row.(lastSeen := now,
                 idleExpires := if now + 43_200_000 <= row.absoluteExpires then now + 43_200_000 else row.absoluteExpires)
          else row
    {
      if !writes || id !in sessions || sessions[id].revoked { return; }
      var row := sessions[id];
      match v {
        case Expired => sessions := sessions[id := row.(revoked := true)];
        case LetIn(stale) =>
          if stale {
            var idle := Min(now + IDLE, row.absoluteExpires);
            sessions := sessions[id := row.(lastSeen := now, idleExpires := idle)];
          }
        case Unknown =>
      }
    }
  }

  // ---------- password work ----------

  /** The channel's occupancy, and the calls that are verifying a password. */
  datatype Work = Work(inUse: nat, verifying: set<nat>)

  datatype WorkEvent = Start(p: nat) | Finish(p: nat)

  /** A call starts if a slot is free, without waiting; it gives its slot back when it ends. */
  function WorkStep(w: Work, e: WorkEvent): Work {
    match e
    case Start(p) =>
      if p !in w.verifying && w.inUse < WORK_SLOTS then Work(w.inUse + 1, w.verifying + {p}) else w
    case Finish(p) =>
      if p in w.verifying && w.inUse > 0 then Work(w.inUse - 1, w.verifying - {p}) else w
  }

  function WorkRun(w: Work, events: seq<WorkEvent>): Work
    decreases |events|
  {
    if events == [] then w else WorkRun(WorkStep(w, events[0]), events[1..])
  }

  predicate WorkOk(w: Work) {
    w.inUse == |w.verifying| <= WORK_SLOTS
  }

  lemma {:induction false} WorkKeeps(w: Work, events: seq<WorkEvent>)
    requires WorkOk(w)
    ensures WorkOk(WorkRun(w, events))
    decreases |events|
  {
    if events != [] { WorkKeeps(WorkStep(w, events[0]), events[1..]); }
  }

  /** In any run at most two calls verify a password at once, and a call is refused exactly when
      two others are. */
  lemma {:induction false} AtMostTwoVerify(events: seq<WorkEvent>, p: nat)
    ensures
      var w := WorkRun(Work(0, {}), events);
      && |w.verifying| <= 2
      && (p !in w.verifying ==> (p !in WorkStep(w, Start(p)).verifying <==> |w.verifying| == 2))
      && (p in w.verifying ==> p !in WorkStep(w, Finish(p)).verifying)
  {
    WorkKeeps(Work(0, {}), events);
    var w := WorkRun(Work(0, {}), events);
    hide WorkRun;
    if p in w.verifying { assert w.verifying != {}; }
  }

  /** The channel of password work: a slot is taken without waiting, or not at all. */
  class PasswordWork {
    var inUse: nat
    ghost var verifying: set<nat>

    ghost function Contents(): Work
      reads this
    {
      Work(inUse, verifying)
    }

    constructor ()
      ensures Contents() == Work(0, {})
    {
      inUse, verifying := 0, {};
    }

    method Acquire(ghost p: nat) returns (ok: bool)
      requires WorkOk(Contents()) && p !in verifying
      modifies this
      ensures WorkOk(Contents()) && Contents() == WorkStep(old(Contents()), Start(p))
      ensures ok <==> p in verifying
    {
      ok := inUse < WORK_SLOTS;
      if ok {
        inUse := inUse + 1;
        verifying := verifying + {p};
      }
    }

    method Release(ghost p: nat)
      requires WorkOk(Contents()) && p in verifying
      modifies this
      ensures WorkOk(Contents()) && Contents() == WorkStep(old(Contents()), Finish(p))
    {
      assert inUse > 0;
      inUse := inUse - 1;
      verifying := verifying - {p};
    }
  }
}
