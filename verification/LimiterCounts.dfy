/**
  Which calls the limiter admits, counted over the calls themselves: fewer than 5 of the same
  address in the last minute and 20 in the last hour, and fewer than 30 and 200 in all.
 */
module LimiterCounts {
  import opened Limiter
  import opened LimiterHistory

  /** Calls without an address count as one. */
  function Address(key: string): string {
    if key == "" then "unknown" else key
  }

  /** Two calls share a count of the limiter exactly when they have the same address. */
  lemma SharesIff(a: string, b: string)
    ensures IpKey(a) == IpKey(b) <==> Address(a) == Address(b)
  {
    assert IpKey(a)[3..] == Address(a) && IpKey(b)[3..] == Address(b);
  }

  /** How many of the first `n` calls, of one address or of all, were admitted at `since` or later. */
  function AdmittedSince(calls: seq<Call>, decisions: seq<bool>, n: nat, address: string, all: bool, since: int): nat
    requires n <= |calls| == |decisions|
  {
    if n == 0 then 0
    else
      AdmittedSince(calls, decisions, n - 1, address, all, since)
      + if decisions[n - 1] && (all || Address(calls[n - 1].key) == address) && since <= calls[n - 1].now then 1 else 0
  }

  /** The history after the first `n` calls. */
  function After(h: History, calls: seq<Call>, decisions: seq<bool>, n: nat): History
    requires n <= |calls| == |decisions|
  {
    if n == 0 then h else Extended(After(h, calls, decisions, n - 1), calls[n - 1], decisions[n - 1])
  }

  lemma {:induction false} AfterFirst(h: History, calls: seq<Call>, decisions: seq<bool>, n: nat)
    requires 0 < n <= |calls| == |decisions|
    ensures After(h, calls, decisions, n) == After(Extended(h, calls[0], decisions[0]), calls[1..], decisions[1..], n - 1)
  {
    if n > 1 { AfterFirst(h, calls, decisions, n - 1); }
    hide Extended;
  }

  lemma {:induction false} IdealAt(h: History, calls: seq<Call>, i: nat)
    requires i < |calls|
    ensures |IdealPlay(h, calls).1| == |calls|
    ensures IdealPlay(h, calls).1[i] == IdealAdmits(After(h, calls, IdealPlay(h, calls).1, i), calls[i])
    decreases |calls|
  {
    hide IdealAdmits, Extended;
    IdealAdmissions(h, calls);
    var decisions := IdealPlay(h, calls).1;
    if i > 0 {
      var g := Extended(h, calls[0], decisions[0]);
      IdealAt(g, calls[1..], i - 1);
      AfterFirst(h, calls, decisions, i);
      assert decisions[1..] == IdealPlay(g, calls[1..]).1;
    }
  }

  lemma {:induction false} CountsAgree(calls: seq<Call>, decisions: seq<bool>, n: nat, key: string, since: int)
    requires n <= |calls| == |decisions|
    ensures |Recent(Times(After([], calls, decisions, n), IpKey(key)), since)|
         == AdmittedSince(calls, decisions, n, Address(key), false, since)
    ensures |Recent(Times(After([], calls, decisions, n), GLOBAL), since)|
         == AdmittedSince(calls, decisions, n, Address(key), true, since)
  {
    hide IpKey, Recent, Times;
    if n == 0 {
      NoTimes(key, since);
    } else {
      CountsAgree(calls, decisions, n - 1, key, since);
      var h, c := After([], calls, decisions, n - 1), calls[n - 1];
      if decisions[n - 1] {
        var a := Admission(IpKey(c.key), c.now);
        IpIsNotGlobal(key);
        SharesIff(c.key, key);
        TimesAppend(h, a, IpKey(key));
        TimesAppend(h, a, GLOBAL);
        RecentAppend(Times(h, IpKey(key)), c.now, since);
        RecentAppend(Times(h, GLOBAL), c.now, since);
      }
    }
  }

  lemma {:induction false} NoTimes(key: string, since: int)
    ensures Recent(Times([], IpKey(key)), since) == [] && Recent(Times([], GLOBAL), since) == []
  {
  }

  /** With a clock that does not go back, the limiter admits a call exactly when fewer than 5 calls
      of its address were admitted in the last minute and fewer than 20 in the last hour, and fewer
      than 30 and 200 of all addresses. */
  lemma {:induction false} AdmitsIff(calls: seq<Call>, i: nat)
    requires i < |calls| && Ordered(calls[0].now, calls)
    ensures
      var decisions := Play(EMPTY, calls).1;
      var address, now := Address(calls[i].key), calls[i].now;
      && |decisions| == |calls|
      && (decisions[i] <==>
            && AdmittedSince(calls, decisions, i, address, false, now - 60_000_000_000) < 5
            && AdmittedSince(calls, decisions, i, address, false, now - 3_600_000_000_000) < 20
            && AdmittedSince(calls, decisions, i, address, true, now - 60_000_000_000) < 30
            && AdmittedSince(calls, decisions, i, address, true, now - 3_600_000_000_000) < 200)
  {
    hide Play, IdealPlay, Recent, Times, IpKey;
    DecidesLikeFullHistory(calls);
    IdealAdmissions([], calls);
    var decisions := IdealPlay([], calls).1;
    IdealAt([], calls, i);
    CountsAgree(calls, decisions, i, calls[i].key, calls[i].now - MINUTE);
    CountsAgree(calls, decisions, i, calls[i].key, calls[i].now - HOUR);
  }
}
