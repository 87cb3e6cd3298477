/**
  The tokens of one account over a whole orderly run: every token that is stored was issued
  later than all that were stored before, so a token that has been replaced, by another one or
  by a key, never returns.
 */
module TokenOrder {
  import opened Wrappers
  import opened AccountTable
  import opened Lifecycle
  import opened RowHistory
  import opened SingleFlight
  import opened CredentialHistory
  import opened LinearHistory

  predicate NotBefore(credential: Option<Credential>, serial: nat) {
    credential.Some? && credential.value.Token? ==> serial <= credential.value.serial
  }

  predicate After(credential: Option<Credential>, serial: nat) {
    credential.Some? && credential.value.Token? ==> serial < credential.value.serial
  }

  /** The token that a claiming call has gained. */
  function Gained(stage: ClaimStage): Option<Credential> {
    match stage
    case Granted(token) => Some(token)
    case Probed(token) => Some(token)
    case Rechecked(token) => Some(token)
    case _ => None
  }

  /** A call that may still complete the authorisation of `pub` holds a later token. */
  predicate ClaimAfter(t: Tables, proc: Proc, pub: nat, serial: nat) {
    proc.Claimed? && proc.claim.pub == pub && AtVersion(t.accounts, pub, proc.claim.version) ==>
      After(Gained(proc.stage), serial)
  }

  /** The account is at token `serial` or past it: what it stores is not older, and what calls
      in flight may still complete is later. */
  ghost predicate Reached(s: State, pub: nat, serial: nat) {
    && serial < s.log.nextSerial && pub < s.tables.nextPub
    && (pub in s.tables.accounts ==> NotBefore(s.tables.accounts[pub].credential, serial))
    && forall p <- s.procs :: ClaimAfter(s.tables, s.procs[p], pub, serial)
  }

  /** An account is at the token that it stores. */
  lemma StoredIsReached(s: State, pub: nat)
    requires Inv(s) && pub in s.tables.accounts
    requires s.tables.accounts[pub].credential.Some? && s.tables.accounts[pub].credential.value.Token?
    ensures Reached(s, pub, s.tables.accounts[pub].credential.value.serial)
  {
    var serial := s.tables.accounts[pub].credential.value.serial;
    assert RowOk(pub, s.tables.accounts[pub], s.log);
    forall p <- s.procs ensures ClaimAfter(s.tables, s.procs[p], pub, serial) {
      assert ProcOk(s.tables, s.log, s.procs[p]);
    }
  }

  // ---------- one step ----------

  /** A call that stays where it is. */
  lemma ClaimStays(s: State, u: Tables, p: nat, pub: nat, serial: nat)
    requires Inv(s) && Reached(s, pub, serial) && TablesEvolve(s.tables, u) && p in s.procs
    ensures ClaimAfter(u, s.procs[p], pub, serial)
  {
    assert ProcOk(s.tables, s.log, s.procs[p]) && ClaimAfter(s.tables, s.procs[p], pub, serial);
    hide Inv, Reached;
  }

  /** A claiming call that moves keeps the token it had, or has gained one that was issued now. */
  lemma ClaimMovesOn(s: State, e: AttemptEvent, pub: nat, serial: nat)
    requires Reached(s, pub, serial) && !e.Cancel? && e.p in AttemptStep(s, e).procs
    ensures ClaimAfter(AttemptStep(s, e).tables, AttemptStep(s, e).procs[e.p], pub, serial)
  {
    if e.p in s.procs { assert ClaimAfter(s.tables, s.procs[e.p], pub, serial); }
    hide Reached;
  }

  /** Only the events of an attempt move its claim. */
  lemma OthersMoveNoClaim(s: State, e: Event, p: nat)
    requires p in Step(s, e).procs && Step(s, e).procs[p].Claimed?
    ensures (p in s.procs && Step(s, e).procs[p] == s.procs[p])
         || (e.Authorize? && !e.authorize.Cancel? && e.authorize.p == p)
  {
    hide AdminStep, ValidateStep, RefreshStep, AttemptStep;
    if e.Authorize? && e.authorize.Cancel? { CancelMovesNothing(s, e.authorize); }
  }

  lemma CancelMovesNothing(s: State, e: AttemptEvent)
    requires e.Cancel?
    ensures AttemptStep(s, e).procs == s.procs
  {
  }

  lemma ClaimsKeep(s: State, e: Event, pub: nat, serial: nat)
    requires Inv(s) && Reached(s, pub, serial) && TablesEvolve(s.tables, Step(s, e).tables)
    ensures forall p <- Step(s, e).procs :: ClaimAfter(Step(s, e).tables, Step(s, e).procs[p], pub, serial)
  {
    hide Inv, Reached, TablesEvolve, ClaimAfter, AdminStep, ValidateStep, RefreshStep, AttemptStep, WorldStep;
    var s' := Step(s, e);
    forall p <- s'.procs ensures ClaimAfter(s'.tables, s'.procs[p], pub, serial) {
      if s'.procs[p].Claimed? {
        OthersMoveNoClaim(s, e, p);
        if p in s.procs && s'.procs[p] == s.procs[p] {
          ClaimStays(s, s'.tables, p, pub, serial);
        } else {
          ClaimMovesOn(s, e.authorize, pub, serial);
        }
      } else {
        NoClaim(s'.tables, s'.procs[p], pub, serial);
      }
    }
  }

  lemma NoClaim(t: Tables, proc: Proc, pub: nat, serial: nat)
    requires !proc.Claimed?
    ensures ClaimAfter(t, proc, pub, serial)
  {
  }

  /** What is written linearly is later than what the account has reached. */
  lemma WriteIsLater(s: State, e: Event, pub: nat, after: Option<Credential>, serial: nat)
    requires Reached(s, pub, serial) && pub in s.tables.accounts && LinearWrite(s, e, pub, after)
    ensures after == s.tables.accounts[pub].credential || After(after, serial)
  {
    if e.Authorize? && e.authorize.Complete? && Completes(s, e.authorize.p) {
      assert ClaimAfter(s.tables, s.procs[e.authorize.p], pub, serial);
    }
    hide Reached, AboutToStore, Commits;
  }

  lemma ReachedKeeps(s: State, e: Event, pub: nat, serial: nat)
    requires LinearInv(s) && Orderly(s, e) && Reached(s, pub, serial)
    ensures LinearInv(Step(s, e)) && Reached(Step(s, e), pub, serial)
    ensures pub in Step(s, e).tables.accounts ==>
      && pub in s.tables.accounts
      && (Step(s, e).tables.accounts[pub].credential == s.tables.accounts[pub].credential
          || After(Step(s, e).tables.accounts[pub].credential, serial))
  {
    hide Step, Orderly, Inv, MapInv, ExchangeInv, CurrentInv, AliveInv, Sealed, LinearWrite, ClaimAfter;
    var s' := Step(s, e);
    OrderlyStep(s, e);
    StepKeeps(s, e);
    ClaimsKeep(s, e, pub, serial);
    if pub in s'.tables.accounts {
      assert pub in s.tables.accounts;
      WriteIsLater(s, e, pub, s'.tables.accounts[pub].credential, serial);
    }
  }

  // ---------- runs ----------

  /** The account still stores the credential, or has passed `serial`. */
  predicate AtOrAfter(s: State, pub: nat, credential: Option<Credential>, serial: nat) {
    pub in s.tables.accounts ==>
      s.tables.accounts[pub].credential == credential || After(s.tables.accounts[pub].credential, serial)
  }

  lemma {:induction false} ReachedRun(s: State, events: seq<Event>, pub: nat, credential: Option<Credential>, serial: nat)
    requires LinearInv(s) && OrderlyRun(s, events)
    requires Reached(s, pub, serial) && AtOrAfter(s, pub, credential, serial)
    ensures LinearInv(Run(s, events)) && Reached(Run(s, events), pub, serial)
    ensures AtOrAfter(Run(s, events), pub, credential, serial)
    decreases |events|
  {
    hide LinearInv, Reached, Orderly, Step;
    if events != [] {
      ReachedKeeps(s, events[0], pub, serial);
      ReachedRun(Step(s, events[0]), events[1..], pub, credential, serial);
    }
  }

  /** A stretch of an orderly run is one. */
  lemma {:induction false} Stretch(s: State, events: seq<Event>, h: nat, j: nat)
    requires LinearInv(s) && OrderlyRun(s, events) && h <= j <= |events|
    ensures LinearInv(Run(s, events[..h])) && OrderlyRun(Run(s, events[..h]), events[h..j])
    ensures Run(Run(s, events[..h]), events[h..j]) == Run(s, events[..j])
    decreases |events|
  {
    hide LinearInv, Orderly, Step;
    if h > 0 {
      OrderlyStep(s, events[0]);
      Stretch(Step(s, events[0]), events[1..], h - 1, j - 1);
      assert events[..h][1..] == events[1..][..h - 1] && events[..j][1..] == events[1..][..j - 1];
      assert events[h..j] == events[1..][h - 1..j - 1];
    } else if j > 0 {
      OrderlyStep(s, events[0]);
      Stretch(Step(s, events[0]), events[1..], 0, j - 1);
      assert events[0..j][1..] == events[1..][0..j - 1] && events[1..][..0] == [] == events[..0];
      assert events[0..j] == events[..j];
    }
  }

  /** The token that is stored for the account after the first `h` events. */
  ghost function TokenAt(events: seq<Event>, h: nat, pub: nat): Option<Credential>
    requires h <= |events|
  {
    var a := Run(INIT, events[..h]).tables.accounts;
    if pub in a && a[pub].credential.Some? && a[pub].credential.value.Token? then a[pub].credential else None
  }

  /** An account is at every token it has stored, or past it. */
  lemma {:induction false} TokenIsReached(events: seq<Event>, h: nat, i: nat, pub: nat)
    requires OrderlyRun(INIT, events) && h <= i <= |events| && TokenAt(events, h, pub).Some?
    ensures
      var s, token := Run(INIT, events[..i]), TokenAt(events, h, pub);
      LinearInv(s) && Reached(s, pub, token.value.serial) && AtOrAfter(s, pub, token, token.value.serial)
  {
    hide Reached, AtOrAfter, Run, OrderlyRun;
    LinearInit();
    Stretch(INIT, events, h, i);
    var s, token := Run(INIT, events[..h]), TokenAt(events, h, pub);
    StoredIsReached(s, pub);
    IsAt(s, pub);
    ReachedRun(s, events[h..i], pub, token, token.value.serial);
  }

  lemma IsAt(s: State, pub: nat)
    requires pub in s.tables.accounts
    requires s.tables.accounts[pub].credential.Some? && s.tables.accounts[pub].credential.value.Token?
    ensures AtOrAfter(s, pub, s.tables.accounts[pub].credential, s.tables.accounts[pub].credential.value.serial)
  {
  }

  /** Every token that an orderly run stores was issued later than every token that it has
      stored for the account before. */
  lemma {:induction false} StoredTokensAreNewest(events: seq<Event>, h: nat, i: nat, pub: nat)
    requires OrderlyRun(INIT, events) && h <= i < |events|
    requires TokenAt(events, h, pub).Some? && TokenAt(events, i + 1, pub).Some?
    ensures
      || TokenAt(events, i + 1, pub) == TokenAt(events, i, pub)
      || TokenAt(events, h, pub).value.serial < TokenAt(events, i + 1, pub).value.serial
  {
    hide Reached, Run, OrderlyRun, LinearInv;
    var s, token := Run(INIT, events[..i]), TokenAt(events, h, pub);
    TokenIsReached(events, h, i, pub);
    HistoryStep(events, i);
    ReachedKeeps(s, events[i], pub, token.value.serial);
  }

  lemma {:induction false} HistoryStep(events: seq<Event>, i: nat)
    requires OrderlyRun(INIT, events) && i < |events|
    ensures Orderly(Run(INIT, events[..i]), events[i])
    ensures Run(INIT, events[..i + 1]) == Step(Run(INIT, events[..i]), events[i])
  {
    hide LinearInv, Orderly, Step;
    LinearInit();
    Stretch(INIT, events, i, i + 1);
    assert events[i..i + 1] == [events[i]] && [events[i]][1..] == [];
    var s := Run(INIT, events[..i]);
    assert Run(s, [events[i]]) == Run(Step(s, events[i]), []);
  }

  /** The serials of an account's tokens never fall, and a token that has been replaced, by a
      token or by a key, is never stored again. */
  lemma {:induction false} ReplacedTokensNeverReturn(events: seq<Event>, h: nat, i: nat, j: nat, pub: nat)
    requires OrderlyRun(INIT, events) && h <= i <= j <= |events|
    requires TokenAt(events, h, pub).Some? && TokenAt(events, j, pub).Some?
    ensures TokenAt(events, h, pub).value.serial <= TokenAt(events, j, pub).value.serial
    ensures TokenAt(events, i, pub) != TokenAt(events, h, pub) ==>
      TokenAt(events, h, pub).value.serial < TokenAt(events, j, pub).value.serial
  {
    hide Run, OrderlyRun, LinearInv, Reached;
    var serial := TokenAt(events, h, pub).value.serial;
    TokenIsReached(events, h, j, pub);
    TokenIsReached(events, h, i, pub);
    if TokenAt(events, i, pub) != TokenAt(events, h, pub) {
      LinearInit();
      Stretch(INIT, events, i, j);
      var s := Run(INIT, events[..i]);
      ReachedRun(s, events[i..j], pub, None, serial);
    }
  }
}
