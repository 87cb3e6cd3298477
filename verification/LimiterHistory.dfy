/**
  The limiter against one that never forgets: as long as the clock does not go back, both
  decide every call alike. From this follow the caps on every window, and from the hourly
  sweeps a bound on the number of addresses kept in memory.
 */
module LimiterHistory {
  import opened Limiter

  datatype Admission = Admission(key: string, at: int)

  type History = seq<Admission>

  /** The admission times that count against `key`: all of them for the global key. */
  function Times(h: History, key: string): seq<int> {
    if h == [] then []
    else
      var init, last := Times(h[..|h| - 1], key), h[|h| - 1];
      if key == GLOBAL || last.key == key then init + [last.at] else init
  }

  predicate IdealAdmits(h: History, call: Call) {
    && Room(Times(h, IpKey(call.key)), call.now, PER_IP_MINUTE, PER_IP_HOUR)
    && Room(Times(h, GLOBAL), call.now, GLOBAL_MINUTE, GLOBAL_HOUR)
  }

  function Extended(h: History, call: Call, admitted: bool): History {
    if admitted then h + [Admission(IpKey(call.key), call.now)] else h
  }

  // ---------- runs ----------

  function Play(m: Memory, calls: seq<Call>): (Memory, seq<bool>)
    decreases |calls|
  {
    if calls == [] then (m, [])
    else
      var (next, ok) := Decide(m, calls[0]);
      var (end, rest) := Play(next, calls[1..]);
      (end, [ok] + rest)
  }

  function IdealPlay(h: History, calls: seq<Call>): (History, seq<bool>)
    decreases |calls|
  {
    if calls == [] then (h, [])
    else
      var ok := IdealAdmits(h, calls[0]);
      var (end, rest) := IdealPlay(Extended(h, calls[0], ok), calls[1..]);
      (end, [ok] + rest)
  }

  /** The clock does not go back. */
  predicate Ordered(from: int, calls: seq<Call>)
    decreases |calls|
  {
    calls == [] || (from <= calls[0].now && Ordered(calls[0].now, calls[1..]))
  }

  // ---------- filtering ----------

  lemma {:induction false} RecentTwice(times: seq<int>, a: int, c: int)
    requires a <= c
    ensures Recent(Recent(times, a), c) == Recent(times, c)
  {
    if times != [] {
      var init, last := times[..|times| - 1], times[|times| - 1];
      RecentTwice(init, a, c);
      assert Recent(times, a) == if last < a then Recent(init, a) else Recent(init, a) + [last];
      if a <= last { RecentAppend(Recent(init, a), last, c); }
    }
  }

  lemma {:induction false} RecentAppend(times: seq<int>, x: int, c: int)
    ensures Recent(times + [x], c) == if x < c then Recent(times, c) else Recent(times, c) + [x]
  {
    assert (times + [x])[..|times|] == times;
  }

  lemma {:induction false} TimesAppend(h: History, a: Admission, key: string)
    ensures Times(h + [a], key) == if key == GLOBAL || a.key == key then Times(h, key) + [a.at] else Times(h, key)
  {
    assert (h + [a])[..|h|] == h;
  }

  lemma IpIsNotGlobal(key: string)
    ensures IpKey(key) != GLOBAL
  {
    assert IpKey(key)[0] == 'i' && GLOBAL[0] == 'g';
  }

  // ---------- agreement with the full history ----------

  ghost predicate AgreesOn(t: Table, h: History, key: string, from: int) {
    forall c: int :: from <= c ==> Recent(Stored(t, key), c) == Recent(Times(h, key), c)
  }

  /** What is stored and what was ever admitted agree on everything since `from`. */
  ghost predicate Agrees(t: Table, h: History, from: int) {
    forall key: string :: AgreesOn(t, h, key, from)
  }

  lemma {:induction false} PrunedStored(t: Table, key: string, now: int, other: string)
    ensures Stored(Pruned(t, key, now), other) == if other == key then Recent(Stored(t, key), now - HOUR) else Stored(t, other)
  {
  }

  lemma PrunedAgrees(t: Table, h: History, from: int, key: string, now: int)
    requires Agrees(t, h, from) && from <= now - HOUR
    ensures Agrees(Pruned(t, key, now), h, now - HOUR)
  {
    var u, since := Pruned(t, key, now), now - HOUR;
    forall other: string ensures AgreesOn(u, h, other, since) {
      assert AgreesOn(t, h, other, from);
      PrunedStored(t, key, now, other);
      forall c: int | since <= c ensures Recent(Stored(u, other), c) == Recent(Times(h, other), c) {
        RecentTwice(Stored(t, other), now - HOUR, c);
      }
    }
  }

  lemma {:induction false} SweptStored(t: Table, cutoff: int, key: string)
    ensures Stored(SweptTable(t, cutoff), key) == Recent(Stored(t, key), cutoff)
  {
  }

  lemma SweptAgrees(m: Memory, h: History, from: int, now: int)
    requires Agrees(m.attempts, h, from) && from <= now - HOUR
    ensures Agrees(Swept(m, now).attempts, h, now - HOUR)
  {
    var t, since := Swept(m, now).attempts, now - HOUR;
    forall key: string ensures AgreesOn(t, h, key, since) {
      assert AgreesOn(m.attempts, h, key, from);
      SweptStored(m.attempts, now - HOUR, key);
      forall c: int | since <= c ensures Recent(Stored(t, key), c) == Recent(Times(h, key), c) {
        RecentTwice(Stored(m.attempts, key), now - HOUR, c);
      }
    }
  }

  lemma {:induction false} RoomAgrees(t: Table, h: History, key: string, now: int, minute: nat, hour: nat)
    requires Agrees(t, h, now - HOUR)
    ensures Room(Stored(t, key), now, minute, hour) == Room(Times(h, key), now, minute, hour)
  {
    assert AgreesOn(t, h, key, now - HOUR);
    assert now - HOUR <= now - MINUTE;
  }

  lemma AdmitAgrees(t: Table, h: History, from: int, ip: string, now: int)
    requires Agrees(t, h, from) && ip != GLOBAL
    ensures Agrees(Appended(Appended(t, ip, now), GLOBAL, now), h + [Admission(ip, now)], from)
  {
    var u := Appended(Appended(t, ip, now), GLOBAL, now);
    var g := h + [Admission(ip, now)];
    forall key: string ensures AgreesOn(u, g, key, from) {
      assert AgreesOn(t, h, key, from);
      TimesAppend(h, Admission(ip, now), key);
      forall c: int | from <= c ensures Recent(Stored(u, key), c) == Recent(Times(g, key), c) {
        if key == GLOBAL || key == ip {
          RecentAppend(Stored(t, key), now, c);
          RecentAppend(Times(h, key), now, c);
        }
      }
    }
  }

  lemma DecideAgrees(m: Memory, h: History, from: int, call: Call)
    requires Agrees(m.attempts, h, from) && from <= call.now - HOUR
    ensures Decide(m, call).1 == IdealAdmits(h, call)
    ensures Agrees(Decide(m, call).0.attempts, Extended(h, call, Decide(m, call).1), call.now - HOUR)
  {
    hide Agrees, Room;
    var ip, now := IpKey(call.key), call.now;
    IpIsNotGlobal(call.key);
    var t0 := Swept(m, now).attempts;
    SweptAgrees(m, h, from, now);
    RoomAgrees(t0, h, ip, now, PER_IP_MINUTE, PER_IP_HOUR);
    var t1 := Pruned(t0, ip, now);
    PrunedAgrees(t0, h, now - HOUR, ip, now);
    RoomAgrees(t1, h, GLOBAL, now, GLOBAL_MINUTE, GLOBAL_HOUR);
    var t2 := Pruned(t1, GLOBAL, now);
    PrunedAgrees(t1, h, now - HOUR, GLOBAL, now);
    AdmitAgrees(t2, h, now - HOUR, ip, now);
  }

  lemma {:induction false} PlayAgrees(m: Memory, h: History, from: int, calls: seq<Call>)
    requires Agrees(m.attempts, h, from - HOUR) && Ordered(from, calls)
    ensures Play(m, calls).1 == IdealPlay(h, calls).1
    decreases |calls|
  {
    if calls != [] {
      hide Agrees, Decide, IdealAdmits;
      AgreesLater(m.attempts, h, from - HOUR, calls[0].now - HOUR);
      DecideAgrees(m, h, calls[0].now - HOUR, calls[0]);
      var (next, ok) := Decide(m, calls[0]);
      PlayAgrees(next, Extended(h, calls[0], ok), calls[0].now, calls[1..]);
    }
  }

  lemma AgreesLater(t: Table, h: History, from: int, later: int)
    requires Agrees(t, h, from) && from <= later
    ensures Agrees(t, h, later)
  {
    forall key: string ensures AgreesOn(t, h, key, later) {
      assert AgreesOn(t, h, key, from);
    }
  }

  lemma StartAgrees(from: int)
    ensures Agrees(EMPTY.attempts, [], from)
  {
    forall key: string ensures AgreesOn(EMPTY.attempts, [], key, from) {
    }
  }

  /** With a clock that does not go back, the limiter decides every call like the limiter that
      keeps the full history. */
  lemma {:induction false} DecidesLikeFullHistory(calls: seq<Call>)
    requires calls != [] ==> Ordered(calls[0].now, calls)
    ensures Play(EMPTY, calls).1 == IdealPlay([], calls).1
  {
    if calls != [] {
      StartAgrees(calls[0].now - HOUR);
      PlayAgrees(EMPTY, [], calls[0].now, calls);
    }
  }

  // ---------- windows ----------

  /** How many times lie in the closed window from `lo` to `hi`. */
  function Within(times: seq<int>, lo: int, hi: int): nat {
    if times == [] then 0
    else
      var last := times[|times| - 1];
      Within(times[..|times| - 1], lo, hi) + (if lo <= last <= hi then 1 else 0)
  }

  lemma {:induction false} WithinAppend(times: seq<int>, x: int, lo: int, hi: int)
    ensures Within(times + [x], lo, hi) == Within(times, lo, hi) + (if lo <= x <= hi then 1 else 0)
  {
    assert (times + [x])[..|times|] == times;
  }

  lemma {:induction false} WithinRecent(times: seq<int>, lo: int, hi: int, c: int)
    requires c <= lo
    ensures Within(times, lo, hi) <= |Recent(times, c)|
  {
    if times != [] {
      WithinRecent(times[..|times| - 1], lo, hi, c);
    }
  }

  /** How many times lie in the closed window of length `span` from `lo`. */
  function InWindow(times: seq<int>, lo: int, span: int): nat {
    Within(times, lo, lo + span)
  }

  ghost predicate Capped(times: seq<int>, span: int, limit: nat) {
    forall lo: int :: InWindow(times, lo, span) <= limit
  }

  lemma {:induction false} CappedAppend(times: seq<int>, now: int, span: int, limit: nat)
    requires Capped(times, span, limit) && |Recent(times, now - span)| < limit
    ensures Capped(times + [now], span, limit)
  {
    forall lo: int ensures InWindow(times + [now], lo, span) <= limit {
      assert InWindow(times, lo, span) <= limit;
      WithinAppend(times, now, lo, lo + span);
      if lo <= now <= lo + span { WithinRecent(times, lo, lo + span, now - span); }
    }
  }

  /** Every closed minute and every closed hour respects the limits. */
  ghost predicate Limited(h: History, ip: string) {
    && Capped(Times(h, ip), MINUTE, PER_IP_MINUTE)
    && Capped(Times(h, ip), HOUR, PER_IP_HOUR)
    && Capped(Times(h, GLOBAL), MINUTE, GLOBAL_MINUTE)
    && Capped(Times(h, GLOBAL), HOUR, GLOBAL_HOUR)
  }

  lemma AdmitLimited(h: History, call: Call, ip: string)
    requires Limited(h, ip) && IdealAdmits(h, call) && ip != GLOBAL
    ensures Limited(Extended(h, call, true), ip)
  {
    var a := Admission(IpKey(call.key), call.now);
    TimesAppend(h, a, ip);
    TimesAppend(h, a, GLOBAL);
    CappedAppend(Times(h, GLOBAL), call.now, MINUTE, GLOBAL_MINUTE);
    CappedAppend(Times(h, GLOBAL), call.now, HOUR, GLOBAL_HOUR);
    if a.key == ip {
      CappedAppend(Times(h, ip), call.now, MINUTE, PER_IP_MINUTE);
      CappedAppend(Times(h, ip), call.now, HOUR, PER_IP_HOUR);
    }
  }

  lemma {:induction false} IdealLimited(h: History, calls: seq<Call>, ip: string)
    requires Limited(h, ip) && ip != GLOBAL
    ensures Limited(IdealPlay(h, calls).0, ip)
    decreases |calls|
  {
    if calls != [] {
      hide Limited, IdealAdmits;
      var ok := IdealAdmits(h, calls[0]);
      if ok { AdmitLimited(h, calls[0], ip); }
      IdealLimited(Extended(h, calls[0], ok), calls[1..], ip);
    }
  }

  /** The admissions that a list of decisions amounts to. */
  function Admissions(h: History, calls: seq<Call>, decisions: seq<bool>): History
    requires |calls| == |decisions|
    decreases |calls|
  {
    if calls == [] then h else Admissions(Extended(h, calls[0], decisions[0]), calls[1..], decisions[1..])
  }

  lemma {:induction false} IdealAdmissions(h: History, calls: seq<Call>)
    ensures |IdealPlay(h, calls).1| == |calls|
    ensures Admissions(h, calls, IdealPlay(h, calls).1) == IdealPlay(h, calls).0
    decreases |calls|
  {
    if calls != [] {
      var g := Extended(h, calls[0], IdealAdmits(h, calls[0]));
      IdealAdmissions(g, calls[1..]);
      assert IdealPlay(h, calls).1[1..] == IdealPlay(g, calls[1..]).1;
    }
  }

  lemma StartLimited(ip: string)
    ensures Limited([], ip)
  {
  }

  /** With a clock that does not go back, every closed minute admits at most 5 calls of one
      address and 30 in all, and every closed hour at most 20 and 200. */
  lemma {:induction false} EveryWindowIsLimited(calls: seq<Call>, key: string, lo: int)
    requires calls != [] ==> Ordered(calls[0].now, calls)
    ensures |Play(EMPTY, calls).1| == |calls|
    ensures
      var h := Admissions([], calls, Play(EMPTY, calls).1);
      && InWindow(Times(h, IpKey(key)), lo, MINUTE) <= PER_IP_MINUTE
      && InWindow(Times(h, IpKey(key)), lo, HOUR) <= PER_IP_HOUR
      && InWindow(Times(h, GLOBAL), lo, MINUTE) <= GLOBAL_MINUTE
      && InWindow(Times(h, GLOBAL), lo, HOUR) <= GLOBAL_HOUR
  {
    DecidesLikeFullHistory(calls);
    IdealAdmissions([], calls);
    IpIsNotGlobal(key);
    StartLimited(IpKey(key));
    IdealLimited([], calls, IpKey(key));
  }
}
