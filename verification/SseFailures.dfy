/**
  What any copy of a stream has written, done or not: the outputs of whole events up to the
  first one that fails, and of that one nothing, unless it is the sink that fails.
 */
module SseFailures {
  import opened Wrappers
  import opened SseLines
  import opened SseRewrite
  import opened SseCopy
  import opened SseStream

  // ---------- events that end and the rest ----------

  /** The events that end in a blank line. */
  function Whole(s: Bytes, event: Bytes): seq<Bytes>
    decreases |s|
  {
    var (fragment, rest, reading) := NextFragment(s);
    var more := event + fragment;
    match reading
    case LineRead => if BlankLine(fragment) then [more] + Whole(rest, []) else Whole(rest, more)
    case BufferFull => Whole(rest, more)
    case AtEnd => []
  }

  /** What is left after them when the source ends. */
  function Unfinished(s: Bytes, event: Bytes): Bytes
    decreases |s|
  {
    var (fragment, rest, reading) := NextFragment(s);
    var more := event + fragment;
    match reading
    case LineRead => if BlankLine(fragment) then Unfinished(rest, []) else Unfinished(rest, more)
    case BufferFull => Unfinished(rest, more)
    case AtEnd => more
  }

  /** The events are those that end, and one more if something is left. */
  lemma {:induction false} CutsAreWhole(s: Bytes, event: Bytes)
    ensures Cuts(s, event) == Whole(s, event) + (if Unfinished(s, event) == [] then [] else [Unfinished(s, event)])
    decreases |s|
  {
    hide NextFragment, BlankLine;
    var (fragment, rest, reading) := NextFragment(s);
    var more := event + fragment;
    NextShrinks(s);
    if reading.LineRead? && BlankLine(fragment) {
      CutsAreWhole(rest, []);
      Associative([more], Whole(rest, []), if Unfinished(rest, []) == [] then [] else [Unfinished(rest, [])]);
    } else if !reading.AtEnd? {
      CutsAreWhole(rest, more);
    }
  }

  // ---------- one event ----------

  /** What the sink does with event number `i`. */
  function FaultAt(w: World, i: nat): Fault {
    if i < |w.faults| then w.faults[i] else NoFault
  }

  /** How event number `i` ends. `whole` of the events end in a blank line; the source fails, if
      it does, after them. */
  function Fate(events: seq<Bytes>, whole: nat, w: World, i: nat): Status {
    if i < |events| && |events[i]| > 8_388_608 then TooLarge
    else if i >= whole && w.fails then ReadFailed
    else if i >= |events| then Done
    else if Refuses(events[i], w.rewrite) then RewriteFailed
    else if FaultAt(w, i) != NoFault then SinkFailed
    else Done
  }

  /** What reaches the sink of event number `i`: all of it, or nothing, or what the sink took
      before it failed. */
  function Taken(events: seq<Bytes>, whole: nat, w: World, i: nat): Bytes {
    if i >= |events| then []
    else match Fate(events, whole, w, i)
         case Done => OutputOf(events[i], w.rewrite)
         case SinkFailed =>
           var output := OutputOf(events[i], w.rewrite);
           if FaultAt(w, i).WriteFault? && FaultAt(w, i).taken < |output| then output[..FaultAt(w, i).taken] else output
         case _ => []
  }

  /** The payload that is observed of event number `i`: it is observed before it is rewritten. */
  function Seen(events: seq<Bytes>, whole: nat, w: World, i: nat): seq<Bytes> {
    if i < |events| && Fate(events, whole, w, i) in {Done, SinkFailed, RewriteFailed} then Observes(events[i]) else []
  }

  function TakenUpTo(events: seq<Bytes>, whole: nat, w: World, n: nat): Bytes {
    if n == 0 then [] else TakenUpTo(events, whole, w, n - 1) + Taken(events, whole, w, n - 1)
  }

  function SeenUpTo(events: seq<Bytes>, whole: nat, w: World, n: nat): seq<Bytes> {
    if n == 0 then [] else SeenUpTo(events, whole, w, n - 1) + Seen(events, whole, w, n - 1)
  }

  /** The copy has written the events before number `k` and of that one what reached the sink,
      and it has ended like event number `k`, the first that fails, if there is one. */
  ghost predicate EndsAt(o: Outcome, events: seq<Bytes>, whole: nat, w: World, k: nat) {
    && k <= |events|
    && (forall i | 0 <= i < k :: Fate(events, whole, w, i) == Done)
    && (k < |events| ==> Fate(events, whole, w, k) != Done)
    && o.status == Fate(events, whole, w, k)
    && o.written == TakenUpTo(events, whole, w, k) + Taken(events, whole, w, k)
    && o.observed == SeenUpTo(events, whole, w, k) + Seen(events, whole, w, k)
  }

  // ---------- the first event and the others ----------

  /** What the copier does with one event that fits. */
  lemma DeliveredIs(e: Bytes, w: World)
    ensures
      var o := Deliver(Emit(e, w.rewrite), NextFault(w.faults));
      && FaultAt(w, 0) == NextFault(w.faults)
      && o.observed == Observes(e)
      && (Refuses(e, w.rewrite) ==> o.written == [] && o.status == RewriteFailed)
      && (!Refuses(e, w.rewrite) && FaultAt(w, 0) == NoFault ==> o.written == OutputOf(e, w.rewrite) && o.status == Done)
      && (!Refuses(e, w.rewrite) && FaultAt(w, 0) != NoFault ==>
            var output := OutputOf(e, w.rewrite);
            && o.status == SinkFailed
            && o.written ==
                 if FaultAt(w, 0).WriteFault? && FaultAt(w, 0).taken < |output| then output[..FaultAt(w, 0).taken]
                 else output)
  {
    hide PayloadOf, IsDone, ReplaceData;
  }

  lemma FaultLater(w: World, i: nat)
    ensures FaultAt(w, i + 1) == FaultAt(Later(w), i)
  {
  }

  /** Event number `i + 1` is event number `i` of the rest. */
  lemma FateLater(e: Bytes, rest: seq<Bytes>, whole: nat, w: World, i: nat)
    ensures
      var events := [e] + rest;
      && Fate(events, whole + 1, w, i + 1) == Fate(rest, whole, Later(w), i)
      && Taken(events, whole + 1, w, i + 1) == Taken(rest, whole, Later(w), i)
      && Seen(events, whole + 1, w, i + 1) == Seen(rest, whole, Later(w), i)
  {
    hide Refuses, Observes, OutputOf, FaultAt;
    FaultLater(w, i);
    assert i < |rest| ==> ([e] + rest)[i + 1] == rest[i];
  }

  lemma {:induction false} UpToLater(e: Bytes, rest: seq<Bytes>, whole: nat, w: World, n: nat)
    ensures
      var events := [e] + rest;
      && TakenUpTo(events, whole + 1, w, n + 1) == Taken(events, whole + 1, w, 0) + TakenUpTo(rest, whole, Later(w), n)
      && SeenUpTo(events, whole + 1, w, n + 1) == Seen(events, whole + 1, w, 0) + SeenUpTo(rest, whole, Later(w), n)
  {
    hide Taken, Seen;
    var events := [e] + rest;
    if n > 0 {
      UpToLater(e, rest, whole, w, n - 1);
      FateLater(e, rest, whole, w, n - 1);
      Associative(Taken(events, whole + 1, w, 0), TakenUpTo(rest, whole, Later(w), n - 1), Taken(events, whole + 1, w, n));
      Associative(Seen(events, whole + 1, w, 0), SeenUpTo(rest, whole, Later(w), n - 1), Seen(events, whole + 1, w, n));
    } else {
      NothingUpTo(events, whole, w);
    }
  }

  lemma {:induction false} NothingUpTo(events: seq<Bytes>, whole: nat, w: World)
    ensures TakenUpTo(events, whole + 1, w, 1) == Taken(events, whole + 1, w, 0)
    ensures SeenUpTo(events, whole + 1, w, 1) == Seen(events, whole + 1, w, 0)
  {
    assert TakenUpTo(events, whole + 1, w, 0) == [] && SeenUpTo(events, whole + 1, w, 0) == [];
  }

  /** The first event is copied and the rest ends at `k`. */
  lemma EndsLater(e: Bytes, rest: seq<Bytes>, whole: nat, w: World, o: Outcome, k: nat)
    requires EndsAt(o, rest, whole, Later(w), k) && |e| <= MAX_EVENT
    requires Deliver(Emit(e, w.rewrite), NextFault(w.faults)).status == Done
    ensures EndsAt(Then(Deliver(Emit(e, w.rewrite), NextFault(w.faults)), o), [e] + rest, whole + 1, w, k + 1)
  {
    var events := [e] + rest;
    DeliveredIs(e, w);
    var first := Deliver(Emit(e, w.rewrite), NextFault(w.faults));
    FirstDone(e, rest, whole, w);
    hide Fate, Taken, Seen, Deliver, Emit, Refuses, OutputOf, Observes, FaultAt, NextFault, TakenUpTo, SeenUpTo;
    FateLater(e, rest, whole, w, k);
    UpToLater(e, rest, whole, w, k);
    var n := whole + 1;
    forall i | 0 <= i < k + 1 ensures Fate(events, n, w, i) == Done {
      if i > 0 {
        FateLater(e, rest, whole, w, i - 1);
        assert Fate(rest, whole, Later(w), i - 1) == Done;
      }
    }
    Associative(first.written, TakenUpTo(rest, whole, Later(w), k), Taken(rest, whole, Later(w), k));
    Associative(first.observed, SeenUpTo(rest, whole, Later(w), k), Seen(rest, whole, Later(w), k));
  }

  lemma FirstDone(e: Bytes, rest: seq<Bytes>, whole: nat, w: World)
    requires |e| <= MAX_EVENT && Deliver(Emit(e, w.rewrite), NextFault(w.faults)).status == Done
    ensures
      var first := Deliver(Emit(e, w.rewrite), NextFault(w.faults));
      var events := [e] + rest;
      && Fate(events, whole + 1, w, 0) == Done
      && Taken(events, whole + 1, w, 0) == first.written && Seen(events, whole + 1, w, 0) == first.observed
  {
    DeliveredIs(e, w);
    hide Deliver, Emit, Refuses, OutputOf, Observes, FaultAt, NextFault;
  }

  /** The copy ends with its first event. */
  lemma FirstEnds(e: Bytes, rest: seq<Bytes>, whole: nat, w: World)
    requires |e| <= MAX_EVENT && (whole > 0 || !w.fails)
    requires Deliver(Emit(e, w.rewrite), NextFault(w.faults)).status != Done
    ensures EndsAt(Deliver(Emit(e, w.rewrite), NextFault(w.faults)), [e] + rest, whole, w, 0)
  {
    DeliveredIs(e, w);
    hide Deliver, Emit, Refuses, OutputOf, Observes, FaultAt, NextFault;
    assert ([e] + rest)[0] == e;
    assert [] + Taken([e] + rest, whole, w, 0) == Taken([e] + rest, whole, w, 0);
    assert [] + Seen([e] + rest, whole, w, 0) == Seen([e] + rest, whole, w, 0);
  }

  /** An event that is too large, an unfinished one at a read error, or no event at all. */
  lemma NothingTaken(events: seq<Bytes>, whole: nat, w: World, status: Status)
    requires status == Fate(events, whole, w, 0) && status in {TooLarge, ReadFailed, Done}
    requires status == Done ==> events == []
    ensures EndsAt(Outcome([], [], status), events, whole, w, 0)
  {
    hide Refuses, OutputOf, Observes, FaultAt;
  }

  /** The last event is copied, and nothing comes after it. */
  lemma LastDone(e: Bytes, w: World)
    requires |e| <= MAX_EVENT && !w.fails && Deliver(Emit(e, w.rewrite), NextFault(w.faults)).status == Done
    ensures EndsAt(Deliver(Emit(e, w.rewrite), NextFault(w.faults)), [e], 0, w, 1)
  {
    DeliveredIs(e, w);
    hide Deliver, Emit, Refuses, OutputOf, Observes, FaultAt, NextFault;
    assert TakenUpTo([e], 0, w, 0) == [] && SeenUpTo([e], 0, w, 0) == [];
    assert TakenUpTo([e], 0, w, 1) == Taken([e], 0, w, 0) && SeenUpTo([e], 0, w, 1) == Seen([e], 0, w, 0);
  }

  // ---------- every copy ----------

  lemma {:induction false} CopyEnds(s: Bytes, event: Bytes, w: World) returns (k: nat)
    requires |event| <= MAX_EVENT
    ensures EndsAt(CopyFrom(s, event, w), Cuts(s, event), |Whole(s, event)|, w, k)
    decreases |s|
  {
    hide NextFragment, BlankLine, Emit, Deliver, EndsAt, NextFault, Fate;
    var (fragment, rest, reading) := NextFragment(s);
    var more := event + fragment;
    NextShrinks(s);
    k := 0;
    if |more| > MAX_EVENT {
      TooLargeFirst(s, event, w);
      NothingTaken(Cuts(s, event), |Whole(s, event)|, w, TooLarge);
    } else if reading.LineRead? && BlankLine(fragment) {
      k := CopyEnds(rest, [], Later(w));
      if Deliver(Emit(more, w.rewrite), NextFault(w.faults)).status == Done {
        EndsLater(more, Cuts(rest, []), |Whole(rest, [])|, w, CopyFrom(rest, [], Later(w)), k);
        k := k + 1;
      } else {
        FirstEnds(more, Cuts(rest, []), |Whole(rest, [])| + 1, w);
        k := 0;
      }
    } else if reading.AtEnd? {
      k := LastEnds(s, event, w);
    } else {
      k := CopyEnds(rest, more, w);
    }
  }

  lemma {:induction false} LastEnds(s: Bytes, event: Bytes, w: World) returns (k: nat)
    requires NextFragment(s).2.AtEnd? && |event + NextFragment(s).0| <= MAX_EVENT
    ensures EndsAt(CopyFrom(s, event, w), Cuts(s, event), |Whole(s, event)|, w, k)
  {
    hide BlankLine, Emit, Deliver, EndsAt, NextFault;
    var (fragment, rest, reading) := NextFragment(s);
    hide NextFragment;
    var more := event + fragment;
    k := 0;
    if w.fails {
      NothingTaken(Cuts(s, event), 0, w, ReadFailed);
    } else if more == [] {
      NothingTaken([], 0, w, Done);
    } else if Deliver(Emit(more, w.rewrite), NextFault(w.faults)).status == Done {
      LastDone(more, w);
      k := 1;
    } else {
      FirstEnds(more, [], 0, w);
      assert [more] + [] == [more];
    }
  }

  lemma {:induction false} TooLargeFirst(s: Bytes, event: Bytes, w: World)
    requires |event| <= MAX_EVENT && |event + NextFragment(s).0| > MAX_EVENT
    ensures CopyFrom(s, event, w) == Outcome([], [], TooLarge)
    ensures Fate(Cuts(s, event), |Whole(s, event)|, w, 0) == TooLarge
  {
    var (fragment, rest, reading) := NextFragment(s);
    hide NextFragment, BlankLine;
    var more := event + fragment;
    if !reading.AtEnd? && !(reading.LineRead? && BlankLine(fragment)) { FirstCutExtends(rest, more); }
  }

  /** Every copy, done or not, ends at the first of its events that fails, in the way that event
      fails; it has written the outputs of the events before it, of that one only what the sink
      took, and observed every payload it got to. */
  lemma {:induction false} CopyStopsAtTheFirstFailure(s: Bytes, w: World)
    ensures exists k: nat :: EndsAt(CopyFrom(s, [], w), Cuts(s, []), |Whole(s, [])|, w, k)
  {
    hide EndsAt, CopyFrom, Cuts, Whole;
    var k := CopyEnds(s, [], w);
  }
}
