/**
  The login attempt limiter: two sliding windows per address and two over all addresses, with
  pruning of what has left the hour and an hourly sweep. The partner of the limiter is one
  that keeps every admission forever.
 */
module Limiter {
  const MINUTE: int := 60_000_000_000
  const HOUR: int := 3_600_000_000_000

  const PER_IP_MINUTE: nat := 5
  const PER_IP_HOUR: nat := 20
  const GLOBAL_MINUTE: nat := 30
  const GLOBAL_HOUR: nat := 200

  const GLOBAL: string := "global"

  type Table = map<string, seq<int>>

  /** The fields of the limiter. Times are nanoseconds; 0 is Go's zero time. */
  datatype Memory = Memory(attempts: Table, lastSweep: int)

  const EMPTY: Memory := Memory(map[], 0)

  datatype Call = Call(key: string, now: int)

  // ---------- one call, as a function ----------

  /** The times not before the cutoff, in order. */
  function Recent(times: seq<int>, cutoff: int): seq<int> {
    if times == [] then []
    else
      var init, last := Recent(times[..|times| - 1], cutoff), times[|times| - 1];
      if last < cutoff then init else init + [last]
  }

  function Stored(t: Table, key: string): seq<int> {
    if key in t then t[key] else []
  }

  function Put(t: Table, key: string, times: seq<int>): Table {
    if times == [] then t - {key} else t[key := times]
  }

  function Pruned(t: Table, key: string, now: int): Table {
    Put(t, key, Recent(Stored(t, key), now - HOUR))
  }

  function SweptTable(t: Table, cutoff: int): Table {
    map key | key in t && Recent(t[key], cutoff) != [] :: Recent(t[key], cutoff)
  }

  predicate SweepDue(m: Memory, now: int) {
    m.lastSweep != 0 && m.lastSweep + HOUR <= now
  }

  function Swept(m: Memory, now: int): Memory {
    var attempts := if SweepDue(m, now) then SweptTable(m.attempts, now - HOUR) else m.attempts;
    var moved := m.lastSweep == 0 || now < m.lastSweep || m.lastSweep + HOUR <= now;
    Memory(attempts, if moved then now else m.lastSweep)
  }

  /** Fewer than `minute` times in the last minute and fewer than `hour` in the last hour. */
  predicate Room(times: seq<int>, now: int, minute: nat, hour: nat) {
    |Recent(times, now - HOUR)| < hour && |Recent(times, now - MINUTE)| < minute
  }

  function IpKey(key: string): string {
    "ip:" + (if key == "" then "unknown" else key)
  }

  function Appended(t: Table, key: string, now: int): Table {
    t[key := Stored(t, key) + [now]]
  }

  /** The next memory and the decision of one call of Allow. */
  function Decide(m: Memory, call: Call): (Memory, bool) {
    var ip := IpKey(call.key);
    var s := Swept(m, call.now);
    var t1 := Pruned(s.attempts, ip, call.now);
    if !Room(Stored(s.attempts, ip), call.now, PER_IP_MINUTE, PER_IP_HOUR) then (s.(attempts := t1), false)
    else
      var t2 := Pruned(t1, GLOBAL, call.now);
      if !Room(Stored(t1, GLOBAL), call.now, GLOBAL_MINUTE, GLOBAL_HOUR) then (s.(attempts := t2), false)
      else (s.(attempts := Appended(Appended(t2, ip, call.now), GLOBAL, call.now)), true)
  }

  // ---------- the limiter object ----------

  /** The keys in `done` are swept, the others still as they were. */
  ghost predicate SweptSoFar(before: Table, now: Table, cutoff: int, done: set<string>) {
    && (forall key <- now :: key in before)
    && (forall key <- before :: key !in done ==> key in now && now[key] == before[key])
    && (forall key <- before :: key in done ==> Stored(now, key) == Recent(before[key], cutoff))
    && (forall key <- before :: key in done && key in now ==> now[key] != [])
  }

  class AttemptLimiter {
    var attempts: Table
    var lastSweep: int

    ghost function Contents(): Memory
      reads this
    {
      Memory(attempts, lastSweep)
    }

    constructor ()
      ensures Contents() == EMPTY
    {
      attempts, lastSweep := map[], 0;
    }

    method Allow(key: string, now: int) returns (ok: bool)
      modifies this
      ensures (Contents(), ok) == Decide(old(Contents()), Call(key, now))
    {
      var name := key;
      if name == "" { name := "unknown"; }
      Sweep(now);
      var ip := "ip:" + name;
      ok := HasCapacity(ip, now, PER_IP_MINUTE, PER_IP_HOUR);
      if !ok { return; }
      ok := HasCapacity(GLOBAL, now, GLOBAL_MINUTE, GLOBAL_HOUR);
      if !ok { return; }
      attempts := attempts[ip := Get(ip) + [now]];
      attempts := attempts[GLOBAL := Get(GLOBAL) + [now]];
    }

    function Get(key: string): seq<int>
      reads this
    {
      if key in attempts then attempts[key] else []
    }

    method Sweep(now: int)
      modifies this
      ensures Contents() == Swept(old(Contents()), now)
    {
      if lastSweep != 0 && lastSweep + HOUR <= now {
        var cutoff := now - HOUR;
        var left := attempts.Keys;
        assert left - left == {};
        while left != {}
          invariant left <= old(attempts).Keys && lastSweep == old(lastSweep)
          invariant SweptSoFar(old(attempts), attempts, cutoff, old(attempts).Keys - left)
        {
          var key :| key in left;
          assert key !in old(attempts).Keys - left;
          var kept := Keep(attempts[key], cutoff);
          if |kept| == 0 {
            attempts := attempts - {key};
          } else {
            attempts := attempts[key := kept];
          }
          assert old(attempts).Keys - (left - {key}) == (old(attempts).Keys - left) + {key};
          left := left - {key};
        }
        assert old(attempts).Keys - left == old(attempts).Keys;
        assert attempts == SweptTable(old(attempts), cutoff);
      }
      if lastSweep == 0 || now < lastSweep || lastSweep + HOUR <= now {
        lastSweep := now;
      }
    }

    /** The inner loop of the sweep. */
    static method Keep(values: seq<int>, cutoff: int) returns (kept: seq<int>)
      ensures kept == Recent(values, cutoff)
    {
      kept := [];
      for i := 0 to |values|
        invariant kept == Recent(values[..i], cutoff)
      {
        assert values[..i + 1][..i] == values[..i];
        if cutoff <= values[i] { kept := kept + [values[i]]; }
      }
      assert values[..|values|] == values;
    }

    method HasCapacity(key: string, now: int, minuteLimit: nat, hourLimit: nat) returns (ok: bool)
      modifies this
      ensures Contents() == old(Contents()).(attempts := Pruned(old(attempts), key, now))
      ensures ok == Room(Stored(old(attempts), key), now, minuteLimit, hourLimit)
    {
      var cutoff := now - HOUR;
      var values := Get(key);
      var kept, minuteCount := [], 0;
      for i := 0 to |values|
        invariant kept == Recent(values[..i], cutoff)
        invariant minuteCount == |Recent(values[..i], now - MINUTE)|
        invariant Contents() == old(Contents())
      {
        assert values[..i + 1][..i] == values[..i];
        if values[i] < cutoff { continue; }
        kept := kept + [values[i]];
        if now - MINUTE <= values[i] { minuteCount := minuteCount + 1; }
      }
      assert values[..|values|] == values;
      if |kept| == 0 {
        attempts := attempts - {key};
      } else {
        attempts := attempts[key := kept];
      }
      return |kept| < hourLimit && minuteCount < minuteLimit;
    }
  }
}
