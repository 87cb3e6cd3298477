/**
  However many addresses attempt to log in, the limiter keeps at most 400 of them: what is
  stored was admitted in one of two closed hours, one before and one after the last sweep,
  and each admits at most 200 calls in all.
 */
module LimiterMemory {
  import opened Arithmetic
  import opened Limiter
  import opened LimiterHistory

  const MAX_KEYS: nat := 2 * GLOBAL_HOUR

  /** In the hour from `floor`, or in the hour from the last sweep. */
  predicate Placed(x: int, floor: int, sweep: int) {
    floor <= x <= floor + HOUR || (sweep != 0 && sweep <= x <= sweep + HOUR)
  }

  /** Every stored time is an admission of its address, in one of the two hours. */
  ghost predicate Explained(t: Table, h: History, last: int, floor: int, sweep: int) {
    forall key <- t ::
      && t[key] != []
      && forall x <- t[key] ::
           && x <= last && Placed(x, floor, sweep)
           && (key != GLOBAL ==> Admission(key, x) in h)
  }

  ghost predicate SweepOk(sweep: int, last: int, floor: int) {
    if sweep == 0 then floor <= 0 <= floor + HOUR else sweep <= last
  }

  /** The first of the two hours moves when a sweep is due. */
  function NextFloor(m: Memory, floor: int, now: int): int {
    if SweepDue(m, now) then now - HOUR else floor
  }

  lemma {:induction false} RecentIn(times: seq<int>, cutoff: int, x: int)
    ensures x in Recent(times, cutoff) <==> x in times && cutoff <= x
  {
    if times != [] {
      RecentIn(times[..|times| - 1], cutoff, x);
      assert times == times[..|times| - 1] + [times[|times| - 1]];
    }
  }

  lemma PrunedExplained(t: Table, h: History, last: int, floor: int, sweep: int, key: string, now: int)
    requires Explained(t, h, last, floor, sweep)
    ensures Explained(Pruned(t, key, now), h, last, floor, sweep)
  {
    forall x <- Recent(Stored(t, key), now - HOUR) ensures x in Stored(t, key) {
      RecentIn(Stored(t, key), now - HOUR, x);
    }
  }

  /** A time that survives the sweep was stored before it, and is recent if the sweep was due. */
  lemma SweptIn(m: Memory, now: int, key: string, x: int)
    requires key in Swept(m, now).attempts && x in Swept(m, now).attempts[key]
    ensures key in m.attempts && x in m.attempts[key]
    ensures SweepDue(m, now) ==> now - HOUR <= x
  {
    if SweepDue(m, now) { RecentIn(m.attempts[key], now - HOUR, x); }
  }

  lemma SweptStored(m: Memory, now: int, key: string)
    requires key in Swept(m, now).attempts && (key in m.attempts ==> m.attempts[key] != [])
    ensures Swept(m, now).attempts[key] != []
  {
  }

  /** The time of a surviving admission, in the hours after the sweep. */
  lemma SweptPlaced(m: Memory, last: int, floor: int, now: int, x: int)
    requires SweepOk(m.lastSweep, last, floor) && x <= last <= now && Placed(x, floor, m.lastSweep)
    requires SweepDue(m, now) ==> now - HOUR <= x
    ensures Placed(x, NextFloor(m, floor, now), Swept(m, now).lastSweep)
  {
  }

  lemma SweptExplained(m: Memory, h: History, last: int, floor: int, now: int)
    requires Explained(m.attempts, h, last, floor, m.lastSweep) && SweepOk(m.lastSweep, last, floor) && last <= now
    ensures Explained(Swept(m, now).attempts, h, last, NextFloor(m, floor, now), Swept(m, now).lastSweep)
    ensures SweepOk(Swept(m, now).lastSweep, now, NextFloor(m, floor, now))
    ensures Placed(now, NextFloor(m, floor, now), Swept(m, now).lastSweep)
  {
    var s, f := Swept(m, now), NextFloor(m, floor, now);
    forall key <- s.attempts
      ensures s.attempts[key] != []
      ensures forall x <- s.attempts[key] ::
        x <= last && Placed(x, f, s.lastSweep) && (key != GLOBAL ==> Admission(key, x) in h)
    {
      SweptStored(m, now, key);
      forall x <- s.attempts[key]
        ensures x <= last && Placed(x, f, s.lastSweep) && (key != GLOBAL ==> Admission(key, x) in h)
      {
        SweptIn(m, now, key, x);
        assert x in m.attempts[key];
        SweptPlaced(m, last, floor, now, x);
      }
    }
  }

  lemma AdmitExplained(t: Table, h: History, last: int, floor: int, sweep: int, ip: string, now: int)
    requires Explained(t, h, last, floor, sweep) && last <= now && Placed(now, floor, sweep)
    ensures Explained(Appended(Appended(t, ip, now), GLOBAL, now), h + [Admission(ip, now)], now, floor, sweep)
  {
  }

  lemma ExplainedLater(t: Table, h: History, last: int, floor: int, sweep: int, now: int)
    requires Explained(t, h, last, floor, sweep) && last <= now
    ensures Explained(t, h, now, floor, sweep)
  {
  }

  lemma DecideExplained(m: Memory, h: History, last: int, floor: int, call: Call)
    requires Explained(m.attempts, h, last, floor, m.lastSweep) && SweepOk(m.lastSweep, last, floor) && last <= call.now
    ensures
      var (next, ok) := Decide(m, call);
      && Explained(next.attempts, Extended(h, call, ok), call.now, NextFloor(m, floor, call.now), next.lastSweep)
      && SweepOk(next.lastSweep, call.now, NextFloor(m, floor, call.now))
  {
    hide Explained, Room;
    var ip, now := IpKey(call.key), call.now;
    SweptExplained(m, h, last, floor, now);
    var s, f := Swept(m, now), NextFloor(m, floor, now);
    var t1 := Pruned(s.attempts, ip, now);
    PrunedExplained(s.attempts, h, last, f, s.lastSweep, ip, now);
    var t2 := Pruned(t1, GLOBAL, now);
    PrunedExplained(t1, h, last, f, s.lastSweep, GLOBAL, now);
    AdmitExplained(t2, h, last, f, s.lastSweep, ip, now);
    ExplainedLater(t1, h, last, f, s.lastSweep, now);
    ExplainedLater(t2, h, last, f, s.lastSweep, now);
  }

  // ---------- counting ----------

  /** The addresses admitted in one of the two hours. */
  function PlacedKeys(h: History, floor: int, sweep: int): set<string> {
    set i: nat | i < |h| && Placed(h[i].at, floor, sweep) :: h[i].key
  }

  lemma {:induction false} PlacedKeysCounted(h: History, floor: int, sweep: int)
    ensures |PlacedKeys(h, floor, sweep)| <= InWindow(Times(h, GLOBAL), floor, HOUR) + InWindow(Times(h, GLOBAL), sweep, HOUR)
  {
    if h == [] {
      assert PlacedKeys(h, floor, sweep) == {};
    } else {
      var init, last := h[..|h| - 1], h[|h| - 1];
      PlacedKeysCounted(init, floor, sweep);
      WithinAppend(Times(init, GLOBAL), last.at, floor, floor + HOUR);
      WithinAppend(Times(init, GLOBAL), last.at, sweep, sweep + HOUR);
      var more := if Placed(last.at, floor, sweep) then {last.key} else {};
      assert PlacedKeys(h, floor, sweep) <= PlacedKeys(init, floor, sweep) + more;
      SubsetNotLarger(PlacedKeys(h, floor, sweep), PlacedKeys(init, floor, sweep) + more);
      assert |PlacedKeys(init, floor, sweep) + more| <= |PlacedKeys(init, floor, sweep)| + |more|;
    }
  }

  lemma {:induction false} FewKeys(t: Table, h: History, last: int, floor: int, sweep: int)
    requires Explained(t, h, last, floor, sweep) && Capped(Times(h, GLOBAL), HOUR, GLOBAL_HOUR)
    ensures |t.Keys - {GLOBAL}| <= MAX_KEYS
  {
    forall key <- t.Keys - {GLOBAL} ensures key in PlacedKeys(h, floor, sweep) {
      var x := t[key][0];
      assert Admission(key, x) in h;
      var i :| 0 <= i < |h| && h[i] == Admission(key, x);
      assert h[i].key in PlacedKeys(h, floor, sweep);
    }
    SubsetNotLarger(t.Keys - {GLOBAL}, PlacedKeys(h, floor, sweep));
    PlacedKeysCounted(h, floor, sweep);
  }

  lemma {:induction false} AdmitCapped(h: History, call: Call, ok: bool)
    requires Capped(Times(h, GLOBAL), HOUR, GLOBAL_HOUR) && (ok ==> IdealAdmits(h, call))
    ensures Capped(Times(Extended(h, call, ok), GLOBAL), HOUR, GLOBAL_HOUR)
  {
    if ok {
      TimesAppend(h, Admission(IpKey(call.key), call.now), GLOBAL);
      CappedAppend(Times(h, GLOBAL), call.now, HOUR, GLOBAL_HOUR);
    }
  }

  lemma {:induction false} PlayKeepsFewKeys(m: Memory, h: History, last: int, floor: int, calls: seq<Call>)
    requires Explained(m.attempts, h, last, floor, m.lastSweep) && SweepOk(m.lastSweep, last, floor)
    requires Agrees(m.attempts, h, last - HOUR) && Capped(Times(h, GLOBAL), HOUR, GLOBAL_HOUR)
    requires Ordered(last, calls)
    ensures |Play(m, calls).0.attempts.Keys - {GLOBAL}| <= MAX_KEYS
    decreases |calls|
  {
    hide Agrees, Capped, Explained, Decide, IdealAdmits;
    if calls == [] {
      FewKeys(m.attempts, h, last, floor, m.lastSweep);
    } else {
      var call := calls[0];
      AgreesLater(m.attempts, h, last - HOUR, call.now - HOUR);
      DecideAgrees(m, h, call.now - HOUR, call);
      DecideExplained(m, h, last, floor, call);
      var (next, ok) := Decide(m, call);
      AdmitCapped(h, call, ok);
      PlayKeepsFewKeys(next, Extended(h, call, ok), call.now, NextFloor(m, floor, call.now), calls[1..]);
    }
  }

  /** With a clock that does not go back, the limiter holds at most 400 address keys. */
  lemma {:induction false} AtMost400Keys(calls: seq<Call>)
    requires calls != [] ==> Ordered(calls[0].now, calls)
    ensures |Play(EMPTY, calls).0.attempts.Keys - {GLOBAL}| <= 400
  {
    if calls != [] {
      StartAgrees(calls[0].now - HOUR);
      PlayKeepsFewKeys(EMPTY, [], calls[0].now, 0, calls);
    }
  }
}
