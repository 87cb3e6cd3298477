/**
  What a caller of EnsureCredential gets back: the row as it was stored at some moment after the
  refresh call was registered, never the one the caller brought along.
 */
module Answers {
  import opened Wrappers
  import opened AccountTable
  import opened Lifecycle
  import opened RowHistory
  import RowWrites
  import opened SequentialRuns

  // ---------- what the single reads decide ----------

  /** The row opens as an OAuth account that may be used. */
  predicate Refreshes(pub: nat, row: Account) {
    && row.auth == OAuth && row.status == Active
    && (row.credential.Some? ==> row.credential.value.Token? && row.credential.value.owner == pub)
  }

  /** Who asks for a candidate holds the row as it is stored, if it opens. */
  lemma HoldDecides(s: State, p: nat, pub: nat)
    requires p !in s.procs
    ensures
      var s' := Step(s, Refresh(Hold(p, pub)));
      if RowWrites.Opens(s.tables, pub) then s' == s.(procs := s.procs[p := Holding(pub, s.tables.accounts[pub])])
      else s' == s
  {
  }

  /** The first mutex section: who holds an OAuth candidate waits for the running call of its
      account, or registers the next call with itself as owner. */
  lemma JoinDecides(s: State, p: nat)
    requires p in s.procs && s.procs[p].Holding?
    ensures
      var s' := Step(s, Refresh(Ensure(p)));
      var h := s.procs[p];
      if h.seen.auth != OAuth then s' == s
      else if h.seen.id in s.refreshes then s' == s.(procs := s.procs[p := Waiting(s.refreshes[h.seen.id])])
      else
        && p in s'.procs && s'.procs[p] == Owner(s.log.nextCall, h.seen.id, Entered(h.pub, h.seen))
        && s'.refreshes == s.refreshes[h.seen.id := s.log.nextCall]
        && s'.tables == s.tables
  {
  }

  /** The load by public id. A row that does not open, is not an OAuth account or is not active
      is a problem. A row whose credential version is not the one held is the answer, as it is
      stored. Only an unchanged credential goes on to be refreshed. */
  lemma LoadDecides(s: State, p: nat)
    requires p in s.procs && s.procs[p].Owner? && s.procs[p].phase.Entered?
    ensures
      var s' := Step(s, Refresh(LoadAgain(p)));
      var pub, held := s.procs[p].phase.pub, s.procs[p].phase.selected;
      && s' == s.(procs := s'.procs) && s'.procs.Keys == s.procs.Keys
      && s'.procs[p].Owner? && s'.procs[p].call == s.procs[p].call
      && s'.procs[p].phase ==
           if pub !in s.tables.accounts || !Refreshes(pub, s.tables.accounts[pub]) then Answered(Problem)
           else if s.tables.accounts[pub].credentialVersion != held.credentialVersion
           then Answered(Candidate(pub, s.tables.accounts[pub]))
           else Loaded(pub, s.tables.accounts[pub])
  {
  }

  /** The second read, by internal id, finds only an active OAuth account: a token sealed for the
      account goes to the server, with the credential version it was read at; anything else is a
      problem. */
  lemma ReadDecides(s: State, p: nat, source: nat)
    requires p in s.procs && s.procs[p].Owner? && s.procs[p].phase.Loaded?
    ensures
      var s' := Step(s, Refresh(Read(p, source)));
      var pub, rows := s.procs[p].phase.pub, s.tables.accounts;
      if && source in rows && rows[source].id == s.procs[p].phase.candidate.id
         && rows[source].status == Active && rows[source].auth == OAuth
      then
        var row := rows[source];
        && s' == s.(procs := s'.procs) && p in s'.procs && s'.procs[p].Owner?
        && s'.procs[p].phase ==
             if row.credential.Some? && row.credential.value.Token? && row.credential.value.owner == pub
             then Ready(Grant(pub, s.procs[p].phase.candidate, source, row.credentialVersion, row.credential.value))
             else Answered(Problem)
      else s' == s
  {
  }

  /** After the write the account is loaded again, and what is stored then is the answer. */
  lemma ReloadDecides(s: State, p: nat)
    requires p in s.procs && s.procs[p].Owner? && s.procs[p].phase.Stored?
    ensures
      var s' := Step(s, Refresh(Reload(p)));
      var pub := s.procs[p].phase.pub;
      && s' == s.(procs := s'.procs) && p in s'.procs && s'.procs[p].Owner?
      && s'.procs[p].phase == Answered(
           if RowWrites.Opens(s.tables, pub) then Candidate(pub, s.tables.accounts[pub]) else Problem)
  {
  }

  /** Giving up answers with the loaded candidate, if it may be kept, or with a problem; after a
      rejection or an answer of the server nothing is kept. */
  lemma GiveUpDecides(s: State, p: nat, keep: bool)
    requires p in s.procs && s.procs[p].Owner? && !s.procs[p].phase.Stored? && !s.procs[p].phase.Answered?
    ensures
      var s' := Step(s, Refresh(GiveUp(p, keep)));
      && s'.tables == s.tables && p in s'.procs && s'.procs[p].Owner?
      && s'.procs[p].phase == Answered(
           match s.procs[p].phase
           case Loaded(pub, row) => if keep then Candidate(pub, row) else Problem
           case Ready(grant) => if keep then Candidate(grant.pub, grant.candidate) else Problem
           case InFlight(grant) => if keep then Candidate(grant.pub, grant.candidate) else Problem
           case _ => Problem)
  {
  }

  /** The phase of a call after an event between its second read and its answer. */
  function PhaseAfter(s: State, e: RefreshEvent, phase: RefreshPhase): RefreshPhase {
    match (e, phase)
    case (Send(_), Ready(grant)) => InFlight(grant)
    case (Receive(_), InFlight(grant)) =>
      if grant.token.Token? then Exchanged(grant, Token(grant.pub, s.log.nextSerial, Some(grant.token.serial))) else phase
    case (Reject(_), InFlight(grant)) => Rejected(grant)
    case (Mark(_, _), Rejected(_)) => Answered(Problem)
    case (Store(_, row), Exchanged(grant, _)) =>
      if && row in s.tables.accounts && s.tables.accounts[row].id == grant.candidate.id
         && s.tables.accounts[row].credentialVersion == grant.credentialVersion
         && s.tables.accounts[row].status == Active && s.tables.accounts[row].auth == OAuth
      then Stored(grant.pub) else phase
    case _ => phase
  }

  predicate ExchangeEvent(e: RefreshEvent) {
    e.Send? || e.Receive? || e.Reject? || e.Mark? || e.Store?
  }

  lemma ExchangeMoves(s: State, e: RefreshEvent)
    requires ExchangeEvent(e) && e.p in s.procs && s.procs[e.p].Owner?
    ensures
      var s' := Step(s, Refresh(e));
      s'.procs == s.procs[e.p := s.procs[e.p].(phase := PhaseAfter(s, e, s.procs[e.p].phase))]
  {
  }

  /** Publishing unregisters the call, closes it with its answer and returns that; who waits
      returns the answer once the call is closed. */
  lemma ReturnDecides(s: State, p: nat)
    requires p in s.procs
    ensures s.procs[p].Owner? && s.procs[p].phase.Answered? ==>
      var s', o := Step(s, Refresh(Publish(p))), s.procs[p];
      && s'.procs == s.procs[p := Returned(o.call, o.phase.answer)]
      && s'.refreshes == s.refreshes - {o.id} && s'.calls == s.calls[o.call := Some(o.phase.answer)]
    ensures s.procs[p].Waiting? ==>
      var s', call := Step(s, Refresh(Wake(p))), s.procs[p].call;
      s' == if call in s.calls && s.calls[call].Some?
            then s.(procs := s.procs[p := Returned(call, s.calls[call].value)]) else s
  {
  }

  // ---------- every run ----------

  /** The row was stored for the account at some moment of the run at which the call had been
      registered. */
  ghost predicate StoredSince(events: seq<Event>, call: nat, pub: nat, row: Account) {
    exists k: nat :: StoredAt(events, call, pub, row, k)
  }

  ghost predicate StoredAt(events: seq<Event>, call: nat, pub: nat, row: Account, k: nat) {
    && k <= |events|
    && var s := Run(INIT, events[..k]);
       call < s.log.nextCall && pub in s.tables.accounts && s.tables.accounts[pub] == row
  }

  /** A call number with the row it may answer with, or has answered with. */
  datatype Offer = Offer(call: nat, pub: nat, row: Account)

  function OfferOf(proc: Proc): Option<Offer> {
    match proc
    case Owner(call, _, Loaded(pub, row)) => Some(Offer(call, pub, row))
    case Owner(call, _, Ready(grant)) => Some(Offer(call, grant.pub, grant.candidate))
    case Owner(call, _, InFlight(grant)) => Some(Offer(call, grant.pub, grant.candidate))
    case Owner(call, _, Answered(Candidate(pub, row))) => Some(Offer(call, pub, row))
    case Returned(call, Candidate(pub, row)) => Some(Offer(call, pub, row))
    case _ => None
  }

  /** The offer was with a call before, or was published, or is what is stored now. */
  ghost predicate Backed(s: State, o: Offer) {
    || (exists p <- s.procs :: OfferOf(s.procs[p]) == Some(o))
    || (o.call in s.calls && s.calls[o.call] == Some(Candidate(o.pub, o.row)))
    || (o.call < s.log.nextCall && o.pub in s.tables.accounts && s.tables.accounts[o.pub] == o.row)
  }

  ghost predicate OwnersRegistered(s: State) {
    forall p <- s.procs :: s.procs[p].Owner? ==> s.procs[p].call < s.log.nextCall
  }

  ghost predicate OffersBacked(s: State, s': State) {
    && (forall p <- s'.procs :: OfferOf(s'.procs[p]).Some? ==> Backed(s, OfferOf(s'.procs[p]).value))
    && (forall c <- s'.calls :: s'.calls[c].Some? && s'.calls[c].value.Candidate? ==>
          Backed(s, Offer(c, s'.calls[c].value.pub, s'.calls[c].value.row)))
  }

  lemma HoldBacks(s: State, p: nat, pub: nat)
    ensures OffersBacked(s, DoHold(s, p, pub))
    ensures OwnersRegistered(s) ==> OwnersRegistered(DoHold(s, p, pub))
  {
  }

  lemma EnsureBacks(s: State, p: nat)
    ensures OffersBacked(s, DoEnsure(s, p))
    ensures OwnersRegistered(s) ==> OwnersRegistered(DoEnsure(s, p))
  {
  }

  lemma PublishBacks(s: State, p: nat)
    ensures OffersBacked(s, DoRefreshPublish(s, p))
    ensures OwnersRegistered(s) ==> OwnersRegistered(DoRefreshPublish(s, p))
  {
    assert p in s.procs ==> OfferOf(s.procs[p]) == OfferOf(s.procs[p]);
  }

  lemma WakeBacks(s: State, p: nat)
    ensures OffersBacked(s, DoWake(s, p))
    ensures OwnersRegistered(s) ==> OwnersRegistered(DoWake(s, p))
  {
  }

  lemma EdgeBacks(s: State, e: RefreshEvent)
    requires EdgeEvent(e)
    ensures OffersBacked(s, RefreshStep(s, e))
    ensures OwnersRegistered(s) ==> OwnersRegistered(RefreshStep(s, e))
  {
    hide OffersBacked, OwnersRegistered, DoHold, DoEnsure, DoRefreshPublish, DoWake;
    match e
    case Hold(p, pub) => HoldBacks(s, p, pub);
    case Ensure(p) => EnsureBacks(s, p);
    case Publish(p) => PublishBacks(s, p);
    case Wake(p) => WakeBacks(s, p);
  }

  /** A step inside refreshCredential keeps the offer, drops it, or makes what is stored now one. */
  predicate OfferKept(s: State, p: nat, later: Proc)
    requires p in s.procs && s.procs[p].Owner?
  {
    var o := OfferOf(later);
    o.Some? ==>
      || o == OfferOf(s.procs[p])
      || (o.value.call == s.procs[p].call && o.value.pub in s.tables.accounts
          && s.tables.accounts[o.value.pub] == o.value.row)
  }

  lemma ExchangeOffers(s: State, e: RefreshEvent)
    requires ExchangeEvent(e) && e.p in s.procs && s.procs[e.p].Owner?
    ensures e.p in RefreshStep(s, e).procs && OfferKept(s, e.p, RefreshStep(s, e).procs[e.p])
  {
    ExchangeMoves(s, e);
    hide RefreshStep;
  }

  lemma ReadOffers(s: State, e: RefreshEvent)
    requires !EdgeEvent(e) && !ExchangeEvent(e) && e.p in s.procs && s.procs[e.p].Owner?
    ensures e.p in RefreshStep(s, e).procs && OfferKept(s, e.p, RefreshStep(s, e).procs[e.p])
  {
  }

  lemma PhaseOffers(s: State, e: RefreshEvent)
    requires !EdgeEvent(e) && e.p in s.procs && s.procs[e.p].Owner?
    ensures e.p in RefreshStep(s, e).procs && OfferKept(s, e.p, RefreshStep(s, e).procs[e.p])
  {
    hide RefreshStep, OfferKept;
    if ExchangeEvent(e) { ExchangeOffers(s, e); } else { ReadOffers(s, e); }
  }

  lemma PhaseBacks(s: State, e: RefreshEvent)
    requires OwnersRegistered(s) && !EdgeEvent(e)
    ensures OffersBacked(s, RefreshStep(s, e)) && OwnersRegistered(RefreshStep(s, e))
  {
    hide RefreshStep, OfferOf;
    if e.p in s.procs && s.procs[e.p].Owner? { PhaseOffers(s, e); }
  }

  /** Events that move no refresh. */
  lemma OthersOffer(s: State, e: Event, p: nat)
    requires !e.Refresh? && p in Step(s, e).procs
    ensures
      || (p in s.procs && Step(s, e).procs[p] == s.procs[p])
      || (OfferOf(Step(s, e).procs[p]).None? && !Step(s, e).procs[p].Owner?)
  {
    hide AdminStep, ValidateStep, AttemptStep, WorldStep;
    if e.World? { WorldEnds(s, e.world, p); }
  }

  lemma WorldEnds(s: State, e: WorldEvent, p: nat)
    requires p in WorldStep(s, e).procs
    ensures p in s.procs && WorldStep(s, e).procs[p] == s.procs[p]
  {
  }

  lemma OthersKeepCalls(s: State, e: Event)
    requires !e.Refresh?
    ensures Step(s, e).calls == s.calls && Step(s, e).log.nextCall == s.log.nextCall
  {
    hide AdminStep, ValidateStep, AttemptStep, WorldStep;
    if e.World? { WorldKeepsCalls(s, e.world); }
  }

  lemma WorldKeepsCalls(s: State, e: WorldEvent)
    ensures WorldStep(s, e).calls == s.calls && WorldStep(s, e).log.nextCall == s.log.nextCall
  {
  }

  lemma OthersBack(s: State, e: Event)
    requires OwnersRegistered(s) && !e.Refresh?
    ensures OffersBacked(s, Step(s, e)) && OwnersRegistered(Step(s, e))
  {
    hide Step, OfferOf;
    OthersKeepCalls(s, e);
    var s' := Step(s, e);
    forall p <- s'.procs
      ensures OfferOf(s'.procs[p]).Some? ==> Backed(s, OfferOf(s'.procs[p]).value)
      ensures s'.procs[p].Owner? ==> s'.procs[p].call < s'.log.nextCall
    {
      OthersOffer(s, e, p);
    }
  }

  lemma StepBacks(s: State, e: Event)
    requires OwnersRegistered(s)
    ensures OffersBacked(s, Step(s, e)) && OwnersRegistered(Step(s, e))
  {
    hide OwnersRegistered, OffersBacked, AdminStep, ValidateStep, RefreshStep, AttemptStep, WorldStep;
    if e.Refresh? {
      if EdgeEvent(e.refresh) { EdgeBacks(s, e.refresh); } else { PhaseBacks(s, e.refresh); }
    } else {
      hide Step;
      OthersBack(s, e);
    }
  }

  // ---------- every run ----------

  ghost predicate AllStored(events: seq<Event>) {
    var s := Run(INIT, events);
    && OwnersRegistered(s)
    && (forall p <- s.procs :: OfferOf(s.procs[p]).Some? ==> OfferStored(events, OfferOf(s.procs[p]).value))
    && (forall c <- s.calls :: s.calls[c].Some? && s.calls[c].value.Candidate? ==>
          OfferStored(events, Offer(c, s.calls[c].value.pub, s.calls[c].value.row)))
  }

  ghost predicate OfferStored(events: seq<Event>, o: Offer) {
    StoredSince(events, o.call, o.pub, o.row)
  }

  lemma StoredLater(events: seq<Event>, e: Event, o: Offer)
    requires OfferStored(events, o)
    ensures OfferStored(events + [e], o)
  {
    hide Run;
    var k: nat :| StoredAt(events, o.call, o.pub, o.row, k);
    assert (events + [e])[..k] == events[..k];
    assert StoredAt(events + [e], o.call, o.pub, o.row, k);
  }

  lemma {:induction false} StoredNow(events: seq<Event>, e: Event, o: Offer)
    requires
      var s := Run(INIT, events);
      o.call < s.log.nextCall && o.pub in s.tables.accounts && s.tables.accounts[o.pub] == o.row
    ensures OfferStored(events + [e], o)
  {
    hide Run;
    assert (events + [e])[..|events|] == events;
    assert StoredAt(events + [e], o.call, o.pub, o.row, |events|);
  }

  lemma {:induction false} BackedIsStored(events: seq<Event>, e: Event, o: Offer)
    requires AllStored(events) && Backed(Run(INIT, events), o)
    ensures OfferStored(events + [e], o)
  {
    hide Run, OfferOf, OfferStored;
    var s := Run(INIT, events);
    if p :| p in s.procs && OfferOf(s.procs[p]) == Some(o) {
      StoredLater(events, e, o);
    } else if o.call in s.calls && s.calls[o.call] == Some(Candidate(o.pub, o.row)) {
      StoredLater(events, e, o);
    } else {
      StoredNow(events, e, o);
    }
  }

  lemma {:induction false} OffersAreStored(events: seq<Event>)
    ensures AllStored(events)
  {
    hide Step, OfferOf, OfferStored, Backed, OwnersRegistered;
    if events == [] {
      NoOffers();
    } else {
      var init, e := events[..|events| - 1], events[|events| - 1];
      assert events == init + [e];
      RunExtend(INIT, init, e);
      OffersAreStored(init);
      var s, s' := Run(INIT, init), Run(INIT, events);
      StepBacks(s, e);
      forall p <- s'.procs
        ensures OfferOf(s'.procs[p]).Some? ==> OfferStored(events, OfferOf(s'.procs[p]).value)
      {
        if OfferOf(s'.procs[p]).Some? { BackedIsStored(init, e, OfferOf(s'.procs[p]).value); }
      }
      forall c <- s'.calls
        ensures s'.calls[c].Some? && s'.calls[c].value.Candidate? ==>
          OfferStored(events, Offer(c, s'.calls[c].value.pub, s'.calls[c].value.row))
      {
        if s'.calls[c].Some? && s'.calls[c].value.Candidate? {
          BackedIsStored(init, e, Offer(c, s'.calls[c].value.pub, s'.calls[c].value.row));
        }
      }
    }
  }

  lemma NoOffers()
    ensures AllStored([])
  {
    assert Run(INIT, []) == INIT;
  }

  /** Whoever returns from a refresh call with a candidate has a row that was stored for that
      account after the call was registered: never an older one that a caller held before. */
  lemma {:induction false} ReturnedRowsWereStored(events: seq<Event>, p: nat)
    ensures
      var s := Run(INIT, events);
      p in s.procs && s.procs[p].Returned? && s.procs[p].answer.Candidate? ==>
        StoredSince(events, s.procs[p].call, s.procs[p].answer.pub, s.procs[p].answer.row)
  {
    OffersAreStored(events);
    var s := Run(INIT, events);
    hide Run, StoredSince;
    if p in s.procs && s.procs[p].Returned? && s.procs[p].answer.Candidate? {
      assert OfferOf(s.procs[p]) == Some(Offer(s.procs[p].call, s.procs[p].answer.pub, s.procs[p].answer.row));
    }
  }

  // ---------- an overtaken caller ----------

  function LateEvents(q: nat): seq<Event> {
    [Refresh(Ensure(q)), Refresh(LoadAgain(q))] + [Refresh(Publish(q))]
  }

  /** The caller holds a credential version that is not the stored one, and nobody refreshes. */
  predicate Overtaken(s: State, q: nat, pub: nat) {
    && q in s.procs && s.procs[q].Holding? && s.procs[q].pub == pub && s.procs[q].seen.auth == OAuth
    && s.procs[q].seen.id !in s.refreshes
    && pub in s.tables.accounts && Refreshes(pub, s.tables.accounts[pub])
    && s.tables.accounts[pub].credentialVersion != s.procs[q].seen.credentialVersion
  }

  /** The overtaken call has loaded the account. */
  function LateState(s: State, q: nat, pub: nat): State
    requires Overtaken(s, q, pub)
  {
    var id, call := s.procs[q].seen.id, s.log.nextCall;
    s.(procs := s.procs[q := Owner(call, id, Answered(Candidate(pub, s.tables.accounts[pub])))],
       refreshes := s.refreshes[id := call], calls := s.calls[call := None],
       log := s.log.(nextCall := call + 1, owners := s.log.owners[call := q]))
  }

  lemma LateLoads(s: State, q: nat, pub: nat)
    requires Overtaken(s, q, pub)
    ensures DoRefreshLoad(DoEnsure(s, q), q) == LateState(s, q, pub)
  {
    var h, call := s.procs[q], s.log.nextCall;
    Overwrite(s.procs, q, Owner(call, h.seen.id, Entered(pub, h.seen)),
              Owner(call, h.seen.id, Answered(Candidate(pub, s.tables.accounts[pub]))));
  }

  lemma LatePublishes(s: State, q: nat, pub: nat)
    requires Overtaken(s, q, pub)
    ensures
      var t := DoRefreshPublish(LateState(s, q, pub), q);
      && q in t.procs && t.procs[q] == Returned(s.log.nextCall, Candidate(pub, s.tables.accounts[pub]))
      && t.tables == s.tables && t.refreshes == s.refreshes && t.log.sent == s.log.sent
  {
    AddRemove(s.refreshes, s.procs[q].seen.id, s.log.nextCall);
  }

  /** An overtaken caller gets the row as it is stored, and no grant is sent for it. */
  lemma {:induction false} OvertakenGetsTheStoredRow(s: State, q: nat, pub: nat)
    requires Overtaken(s, q, pub)
    ensures
      var t := Run(s, LateEvents(q));
      && q in t.procs && t.procs[q] == Returned(s.log.nextCall, Candidate(pub, s.tables.accounts[pub]))
      && t.tables == s.tables && t.refreshes == s.refreshes && t.log.sent == s.log.sent
  {
    hide Run, DoEnsure, DoRefreshLoad, DoRefreshPublish, LateState, Overtaken;
    LateLoads(s, q, pub);
    LatePublishes(s, q, pub);
    TwoSteps(s, Refresh(Ensure(q)), Refresh(LoadAgain(q)));
    RunExtend(s, [Refresh(Ensure(q)), Refresh(LoadAgain(q))], Refresh(Publish(q)));
  }

  /** Call `q` holds the row as it is before call `p` refreshes it, and enters after that: it
      returns with the rotated token, and only the grant of `p` was sent. */
  lemma {:induction false} LateCallerGetsTheRotatedToken(s: State, p: nat, q: nat, pub: nat)
    requires Refreshable(s, p, pub) && q !in s.procs && q != p
    ensures HoldsToken(s, pub)
    ensures
      var t := Run(s, [Refresh(Hold(q, pub))] + RefreshEvents(p, pub) + LateEvents(q));
      var row := s.tables.accounts[pub];
      && q in t.procs
      && t.procs[q] == Returned(s.log.nextCall + 1, Candidate(pub, row.(
           credential := Some(Token(pub, s.log.nextSerial, Some(row.credential.value.serial))),
           credentialVersion := row.credentialVersion + 1, version := row.version + 1)))
      && t.log.sent == s.log.sent + multiset{VersionKey(pub, row.credentialVersion)}
  {
    var held := DoHold(s, q, pub);
    Holds(s, p, q, pub);
    hide Run, DoHold, RefreshEvents, LateEvents, AfterRefresh, Overtaken, Refreshable;
    RefreshRuns(held, p, pub);
    OvertakenGetsTheStoredRow(AfterRefresh(held, p, pub), q, pub);
    assert Run(s, [Refresh(Hold(q, pub))]) == held by { OneStep(s, Refresh(Hold(q, pub))); }
    ThreeRuns(s, [Refresh(Hold(q, pub))], RefreshEvents(p, pub), LateEvents(q));
  }

  lemma {:induction false} OneStep(s: State, e: Event)
    ensures Run(s, [e]) == Step(s, e)
  {
    assert Run(s, [e]) == Run(Step(s, e), []);
  }

  lemma Holds(s: State, p: nat, q: nat, pub: nat)
    requires Refreshable(s, p, pub) && q !in s.procs && q != p
    ensures
      var held := DoHold(s, q, pub);
      && Refreshable(held, p, pub) && HoldsToken(held, pub) && HoldsToken(s, pub)
      && var t, row := AfterRefresh(held, p, pub), s.tables.accounts[pub];
         && Overtaken(t, q, pub) && t.log.nextCall == s.log.nextCall + 1
         && t.tables.accounts[pub] == row.(
              credential := Some(Token(pub, s.log.nextSerial, Some(row.credential.value.serial))),
              credentialVersion := row.credentialVersion + 1, version := row.version + 1)
         && t.log.sent == s.log.sent + multiset{VersionKey(pub, row.credentialVersion)}
  {
  }
}
