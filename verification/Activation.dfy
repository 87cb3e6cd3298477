/**
  Only a validated account is active, whatever the interleaving of updates, validations,
  refreshes, upstream failures and restarts.
 */
module Activation {
  import opened Wrappers
  import opened AccountTable
  import opened Lifecycle
  import opened RowHistory

  /** What is active is what was probed. */
  lemma {:induction false} ActiveIsProbed(events: seq<Event>, pub: nat)
    ensures
      var s := Run(INIT, events);
      pub in s.tables.accounts && s.tables.accounts[pub].status == Active ==>
        var row := s.tables.accounts[pub];
        && row.credential.Some?
        && (row.auth == ApiKey ==>
              ProbeRecord(pub, row.upstream, row.proxy, row.credential.value) in s.log.probes)
  {
    InitOk();
    RunKeeps(INIT, events);
    var s := Run(INIT, events);
    if pub in s.tables.accounts {
      assert RowOk(pub, s.tables.accounts[pub], s.log);
    }
  }

  predicate IsActive(t: Tables, pub: nat) {
    pub in t.accounts && t.accounts[pub].status == Active
  }

  /** Call `p` ends a validation whose successful probe was sent with the row as it is now. */
  ghost predicate FinishesProbe(s: State, p: nat, pub: nat) {
    && p in s.procs && s.procs[p].ValidateProbed? && s.procs[p].pub == pub
    && pub in s.tables.accounts && s.tables.accounts[pub] == s.procs[p].seen
  }

  ghost predicate CompletesClaim(s: State, p: nat, pub: nat) {
    p in s.procs && s.procs[p].Claimed? && s.procs[p].stage.Rechecked? && s.procs[p].claim.pub == pub
  }

  ghost predicate OverlooksVersions(s: State, p: nat, pub: nat) {
    p in s.procs && s.procs[p].UpdateReady? && s.procs[p].pub == pub && s.procs[p].seen.version < s.procs[p].expected
  }

  ghost predicate Activates(s: State, s': State, pub: nat) {
    !IsActive(s.tables, pub) && IsActive(s'.tables, pub)
  }

  lemma AdminActivates(s: State, e: AdminEvent, pub: nat)
    requires Inv(s) && Activates(s, AdminStep(s, e), pub)
    ensures e.UpdateCommit? && OverlooksVersions(s, e.p, pub)
  {
    if e.UpdateCommit? && e.p in s.procs {
      assert ProcOk(s.tables, s.log, s.procs[e.p]);
    }
    hide Inv;
  }

  lemma ValidateActivates(s: State, e: ValidateEvent, pub: nat)
    requires Inv(s) && Activates(s, ValidateStep(s, e), pub)
    ensures e.Finish? && FinishesProbe(s, e.p, pub)
  {
    if && e.Finish? && e.p in s.procs && s.procs[e.p].ValidateProbed?
       && AtVersion(s.tables.accounts, s.procs[e.p].pub, s.procs[e.p].version) {
      FinishSeesItsRow(s, e.p);
    }
    hide Inv;
  }

  lemma RefreshActivates(s: State, e: RefreshEvent, pub: nat)
    ensures !Activates(s, RefreshStep(s, e), pub)
  {
  }

  lemma AttemptActivates(s: State, e: AttemptEvent, pub: nat)
    requires Activates(s, AttemptStep(s, e), pub)
    ensures e.Complete? && CompletesClaim(s, e.p, pub)
  {
  }

  lemma WorldActivates(s: State, e: WorldEvent, pub: nat)
    ensures !Activates(s, WorldStep(s, e), pub)
  {
  }

  /** An account becomes active by the end of a validation that probed the row as it stands, by
      a completed authorisation, or by an update that expected a version above the one it read. */
  lemma OnlyValidationActivates(s: State, e: Event, pub: nat)
    requires Inv(s) && Activates(s, Step(s, e), pub)
    ensures
      || (e.Validate? && e.validate.Finish? && FinishesProbe(s, e.validate.p, pub))
      || (e.Authorize? && e.authorize.Complete? && CompletesClaim(s, e.authorize.p, pub))
      || (e.Admin? && e.admin.UpdateCommit? && OverlooksVersions(s, e.admin.p, pub))
  {
    hide Inv, Activates;
    match e
    case Admin(a) => AdminActivates(s, a, pub);
    case Validate(v) => ValidateActivates(s, v, pub);
    case Refresh(r) => RefreshActivates(s, r, pub);
    case Authorize(a) => AttemptActivates(s, a, pub);
    case World(w) => WorldActivates(s, w, pub);
  }

  /** The same in every run. */
  lemma {:induction false} ActivationIsValidated(events: seq<Event>, e: Event, pub: nat)
    ensures
      var s := Run(INIT, events);
      Activates(s, Step(s, e), pub) ==>
        || (e.Validate? && e.validate.Finish? && FinishesProbe(s, e.validate.p, pub))
        || (e.Authorize? && e.authorize.Complete? && CompletesClaim(s, e.authorize.p, pub))
        || (e.Admin? && e.admin.UpdateCommit? && OverlooksVersions(s, e.admin.p, pub))
  {
    InitOk();
    RunKeeps(INIT, events);
    var s := Run(INIT, events);
    hide Run, Step, Inv, Activates;
    if Activates(s, Step(s, e), pub) { OnlyValidationActivates(s, e, pub); }
  }

  /** An update overwrites the very row its checks were made on, exactly when the version it
      expected is the version it read. */
  lemma UpdateCommitsItsReadIff(s: State, p: nat)
    requires Inv(s) && p in s.procs && s.procs[p].UpdateReady?
    requires AtVersion(s.tables.accounts, s.procs[p].pub, s.procs[p].expected)
    ensures s.tables.accounts[s.procs[p].pub] == s.procs[p].seen <==> s.procs[p].expected == s.procs[p].seen.version
  {
    assert ProcOk(s.tables, s.log, s.procs[p]);
  }

  /** An update that passes every check leaves a loadable account loadable, except when it
      omits the authentication kind and brings a key for an OAuth account. */
  lemma UpdateKeepsLoadableIff(pub: nat, seen: Account, input: UpdateInput)
    requires Loadable(pub, seen) && UpdateAllowed(seen, input)
    ensures Loadable(pub, UpdatedRow(seen, pub, seen, input)) <==> !(input.auth.None? && input.key.Some? && seen.auth == OAuth)
  {
    match input.key
    case None => assert UpdatedRow(seen, pub, seen, input).credential == seen.credential;
    case Some(key) => assert UpdatedRow(seen, pub, seen, input).credential == Some(Key(pub, key));
  }
}
