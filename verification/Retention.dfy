/**
  The retention job. A batch rolls the oldest expired request records up into the daily
  aggregates and deletes exactly those, or changes nothing; the run repeats batches until one
  is short, and equals a single pass over everything expired.
 */
module Retention {
  import opened Arithmetic
  import opened UsageTotals

  const BATCH: nat := 1000

  predicate Before(records: Records, x: nat, y: nat)
    requires x in records && y in records
  {
    records[x].started < records[y].started || (records[x].started == records[y].started && x <= y)
  }

  function Expired(records: Records, cutoff: int): set<nat> {
    set id | id in records && records[id].started < cutoff
  }

  function Part(records: Records, ids: set<nat>): Records {
    map id | id in records && id in ids :: records[id]
  }

  /** The oldest expired rows, as many as a batch holds. */
  ghost predicate IsBatch(records: Records, cutoff: int, batch: set<nat>) {
    && batch <= Expired(records, cutoff)
    && |batch| <= BATCH
    && (|batch| < BATCH ==> batch == Expired(records, cutoff))
    && forall x, y | x in batch && y in Expired(records, cutoff) - batch :: Before(records, x, y)
  }

  /** The answer of the SELECT: a batch in order. */
  ghost predicate IsSelection(records: Records, cutoff: int, rows: seq<nat>) {
    && (forall i | 0 <= i < |rows| :: rows[i] in Expired(records, cutoff))
    && (forall i, j | 0 <= i < j < |rows| :: rows[i] != rows[j] && Before(records, rows[i], rows[j]))
    && |rows| <= BATCH
    && (|rows| < BATCH ==> forall id <- Expired(records, cutoff) :: id in rows)
    && (forall i, id | 0 <= i < |rows| && id in Expired(records, cutoff) && id !in rows :: Before(records, rows[i], id))
  }

  function Ids(rows: seq<nat>): set<nat> {
    set id | id in rows
  }

  /** Every record is valid and no counter of a day leaves the range of a 64-bit integer. */
  ghost predicate RollsUp(a: Aggregates, part: Records) {
    && (forall id <- part :: ValidRecord(part[id]))
    && (forall day <- Days(part) :: Fits(Plus(Get(a, day), Total(part, day))))
  }

  // ---------- what can be rolled up ----------

  /** A record that the job can add up: an instant, a status code, a flag, two sizes and usage that
      decodes. */
  predicate Intact(r: Record) {
    && !(r.started < 0 || r.status < 100 || r.status > 599 || r.requestBytes < 0 || r.responseBytes < 0)
    && (r.streamed == 0 || r.streamed == 1) && !r.usage.None?
  }

  lemma FitsIff(c: Counters)
    ensures Fits(c) <==> forall f: Field :: CounterOf(c, f) <= 9_223_372_036_854_775_807
  {
    assert CounterOf(c, Requests) == c.requests && CounterOf(c, Errors) == c.errors;
    assert CounterOf(c, Streamed) == c.streamed;
    assert CounterOf(c, RequestBytes) == c.requestBytes && CounterOf(c, ResponseBytes) == c.responseBytes;
    assert CounterOf(c, Input) == c.input && CounterOf(c, Output) == c.output;
    assert CounterOf(c, CacheRead) == c.cacheRead && CounterOf(c, CacheWrite) == c.cacheWrite;
    assert CounterOf(c, Reasoning) == c.reasoning && CounterOf(c, TotalTokens) == c.total;
  }

  /** On no day that has records does a counter leave the range of a signed 64-bit integer. */
  ghost predicate NoOverflow(a: Aggregates, part: Records)
    requires AllValid(part)
  {
    forall id, day: nat, f: Field |
      id in part && InDay(part[id].started, day) ::
      CounterOf(Get(a, day), f) + SumOf(part, day, f) <= 9_223_372_036_854_775_807
  }

  /** Records can be rolled up exactly if every one is intact and no sum overflows. */
  lemma RollsUpIff(a: Aggregates, part: Records)
    ensures AllValid(part) <==> forall id <- part :: Intact(part[id])
    ensures RollsUp(a, part) <==> AllValid(part) && NoOverflow(a, part)
  {
    hide Fits, Total, SumOf, CounterOf, Plus, DayOf, InDay, Get;
    if AllValid(part) {
      forall id, day: nat | id in part ensures DayOf(part[id]) == day <==> InDay(part[id].started, day) {
        DayIff(part[id], day);
      }
      forall day: nat
        ensures Fits(Plus(Get(a, day), Total(part, day)))
          <==> forall f: Field :: CounterOf(Get(a, day), f) + SumOf(part, day, f) <= 9_223_372_036_854_775_807
      {
        var c := Plus(Get(a, day), Total(part, day));
        FitsIff(c);
        forall f: Field ensures CounterOf(c, f) == CounterOf(Get(a, day), f) + SumOf(part, day, f) {
          FieldPlus(Get(a, day), Total(part, day), f);
          TotalIsSum(part, day, f);
        }
      }
    }
  }

  // ---------- selection and deletion ----------

  lemma {:induction false} DistinctSize(rows: seq<nat>)
    requires forall i, j | 0 <= i < j < |rows| :: rows[i] != rows[j]
    ensures |Ids(rows)| == |rows|
  {
    if rows == [] {
      assert Ids(rows) == {};
    } else {
      var init, last := rows[..|rows| - 1], rows[|rows| - 1];
      DistinctSize(init);
      assert last !in Ids(init);
      assert Ids(rows) == Ids(init) + {last};
    }
  }

  lemma SelectionIsBatch(records: Records, cutoff: int, rows: seq<nat>)
    requires IsSelection(records, cutoff, rows)
    ensures IsBatch(records, cutoff, Ids(rows)) && |Ids(rows)| == |rows|
  {
    DistinctSize(rows);
    if |rows| < BATCH {
      assert Ids(rows) == Expired(records, cutoff);
    }
  }

  /** The rows up to the last selected one. */
  function UpTo(records: Records, cutoff: int, lastStarted: int, lastId: nat): set<nat> {
    set id | id in records && records[id].started < cutoff
      && (records[id].started < lastStarted || (records[id].started == lastStarted && id <= lastId))
  }

  /** The DELETE by prefix removes exactly the selected rows. */
  lemma DeletesTheSelected(records: Records, cutoff: int, rows: seq<nat>)
    requires IsSelection(records, cutoff, rows) && rows != []
    ensures
      var last := rows[|rows| - 1];
      last in records && UpTo(records, cutoff, records[last].started, last) == Ids(rows)
  {
    var last := rows[|rows| - 1];
    assert last in Expired(records, cutoff);
    var doomed := UpTo(records, cutoff, records[last].started, last);
    forall id <- doomed ensures id in rows {
      assert id in Expired(records, cutoff);
      assert id !in rows ==> Before(records, last, id);
    }
    forall id <- rows ensures id in doomed {
      var i :| 0 <= i < |rows| && rows[i] == id;
      if i < |rows| - 1 { assert Before(records, rows[i], rows[|rows| - 1]); }
      assert id in Expired(records, cutoff);
    }
  }

  lemma NoCrossing(records: Records, cutoff: int, a: set<nat>, b: set<nat>, x: nat, y: nat)
    requires IsBatch(records, cutoff, a) && IsBatch(records, cutoff, b)
    requires x in a && x !in b && y in b
    ensures y in a
  {
    assert y !in a ==> Before(records, x, y) && Before(records, y, x);
  }

  /** A batch is determined by the records and the cutoff. */
  lemma BatchIsUnique(records: Records, cutoff: int, a: set<nat>, b: set<nat>)
    requires IsBatch(records, cutoff, a) && IsBatch(records, cutoff, b)
    ensures a == b
  {
    if x :| x in a && x !in b {
      forall y <- b ensures y in a { NoCrossing(records, cutoff, a, b, x, y); }
      assert b < a;
      ProperSubsetSmaller(b, a);
    } else if y :| y in b && y !in a {
      assert a < b;
      ProperSubsetSmaller(a, b);
    }
  }

  lemma {:induction false} ProperSubsetSmaller(a: set<nat>, b: set<nat>)
    requires a < b
    ensures |a| < |b|
  {
    var x :| x in b && x !in a;
    SubsetNotLarger(a, b - {x});
  }

  lemma {:induction false} OldestExists(records: Records, ids: set<nat>) returns (oldest: nat)
    requires ids != {} && forall id <- ids :: id in records
    ensures oldest in ids && forall id <- ids :: Before(records, oldest, id)
  {
    var x :| x in ids;
    oldest := x;
    if z :| z in ids && z != x {
      assert z in ids - {x};
      var y := OldestExists(records, ids - {x});
      if Before(records, y, x) { oldest := y; }
      forall id <- ids ensures Before(records, oldest, id) {
        if id != x {
          assert id in ids - {x};
          assert Before(records, y, id);
        }
      }
    }
  }

  // ---------- progress of a run ----------

  /** What a run that has rolled up `gone` of the records `before` has left. */
  ghost predicate Progress(before: Records, a: Aggregates, now: Records, b: Aggregates, gone: set<nat>) {
    && gone <= before.Keys
    && now == before - gone
    && b == Folded(a, Part(before, gone))
  }

  /** The expired rows are gone from the oldest on. */
  ghost predicate OldestGone(records: Records, cutoff: int, gone: set<nat>) {
    && gone <= Expired(records, cutoff)
    && forall x, y | x in gone && y in Expired(records, cutoff) - gone :: Before(records, x, y)
  }

  /** What a run that stopped after `i` full batches leaves. */
  ghost predicate StoppedAfter(before: Records, a: Aggregates, cutoff: int, now: Records, b: Aggregates, i: nat,
                               gone: set<nat>) {
    Progress(before, a, now, b, gone) && OldestGone(before, cutoff, gone) && |gone| == i * BATCH
  }

  lemma WhatIsLeft(before: Records, a: Aggregates, cutoff: int, now: Records, b: Aggregates, gone: set<nat>)
    requires Progress(before, a, now, b, gone)
    ensures Expired(now, cutoff) == Expired(before, cutoff) - gone
    ensures Expired(now, cutoff) <= now.Keys && Expired(before, cutoff) <= before.Keys
  {
    hide Folded, Part;
  }

  lemma SameOrder(before: Records, a: Aggregates, now: Records, b: Aggregates, gone: set<nat>, x: nat, y: nat)
    requires Progress(before, a, now, b, gone) && x in now && y in now
    ensures x in before && y in before && (Before(now, x, y) <==> Before(before, x, y))
  {
    hide Folded, Part;
  }

  /** A batch of what is left is what was next. */
  lemma OldestNext(before: Records, a: Aggregates, cutoff: int, now: Records, b: Aggregates, gone: set<nat>,
                   batch: set<nat>)
    requires Progress(before, a, now, b, gone) && OldestGone(before, cutoff, gone) && IsBatch(now, cutoff, batch)
    ensures OldestGone(before, cutoff, gone + batch)
  {
    hide Progress, Expired, Before;
    WhatIsLeft(before, a, cutoff, now, b, gone);
    forall x, y | x in gone + batch && y in Expired(before, cutoff) - (gone + batch) ensures Before(before, x, y) {
      if x in batch {
        SameOrder(before, a, now, b, gone, x, y);
      } else {
        assert y in Expired(before, cutoff) - gone;
      }
    }
  }

  /** No counter of any day that has expired records overflows: the whole run can succeed. */
  ghost predicate Affordable(records: Records, a: Aggregates, cutoff: int) {
    RollsUp(a, Part(records, Expired(records, cutoff)))
  }

  lemma PartSplits(before: Records, gone: set<nat>, batch: set<nat>)
    requires gone !! batch && gone + batch <= before.Keys
    ensures Part(before, gone + batch) == Part(before, gone) + Part(before - gone, batch)
    ensures Part(before, gone).Keys !! Part(before - gone, batch).Keys
    ensures before - gone - batch == before - (gone + batch)
  {
  }

  lemma ProgressStep(before: Records, a: Aggregates, now: Records, b: Aggregates, gone: set<nat>, batch: set<nat>)
    requires Progress(before, a, now, b, gone) && batch <= now.Keys
    ensures Progress(before, a, now - batch, Folded(b, Part(now, batch)), gone + batch)
  {
    PartSplits(before, gone, batch);
    hide Folded, Part;
    FoldedTwice(a, Part(before, gone), Part(now, batch));
  }

  lemma ProgressStart(before: Records, a: Aggregates)
    ensures Progress(before, a, before, a, {})
  {
    assert Part(before, {}) == map[];
    FoldedNothing(a);
    assert before - {} == before;
  }

  /** Whatever a run has rolled up so far, each day's stored counters and remaining records sum
      to the same. */
  lemma {:induction false} ProgressConserves(before: Records, a: Aggregates, now: Records, b: Aggregates,
                        gone: set<nat>, day: nat)
    requires Progress(before, a, now, b, gone)
    ensures Plus(Get(b, day), Total(now, day)) == Plus(Get(a, day), Total(before, day))
  {
    assert before == Part(before, gone) + now;
    hide Folded, Part, Total, Plus, Get;
    FoldingConserves(a, Part(before, gone), now, day);
  }

  lemma DaysOfPart(records: Records, ids: set<nat>, more: set<nat>)
    requires ids <= more
    ensures Days(Part(records, ids)) <= Days(Part(records, more))
  {
    forall id <- Part(records, ids) ensures DayOf(records[id]) in Days(Part(records, more)) {
      assert id in Part(records, more);
    }
  }

  /** A day's sum only grows with more records. */
  lemma {:induction false} TotalGrows(records: Records, ids: set<nat>, more: set<nat>, c: Counters, day: nat)
    requires ids <= more <= records.Keys && Fits(Plus(c, Total(Part(records, more), day)))
    ensures Fits(Plus(c, Total(Part(records, ids), day)))
  {
    var rest := more - ids;
    PartSplits(records, ids, rest);
    assert ids + rest == more;
    var x, y := Part(records, ids), Part(records - ids, rest);
    TotalSplits(x, y, day);
    hide Part, Total;
    PlusLaws(c, Total(x, day), Total(y, day));
    PlusLaws(Plus(c, Total(x, day)), Total(y, day), ZERO);
  }

  lemma {:induction false} BatchSum(before: Records, a: Aggregates, now: Records, b: Aggregates,
                        gone: set<nat>, batch: set<nat>, day: nat)
    requires Progress(before, a, now, b, gone) && batch <= now.Keys
    ensures Plus(Get(b, day), Total(Part(now, batch), day)) == Plus(Get(a, day), Total(Part(before, gone + batch), day))
  {
    PartSplits(before, gone, batch);
    hide Part, Folded, Total, Plus, Get;
    FoldedGet(a, Part(before, gone), day);
    TotalSplits(Part(before, gone), Part(now, batch), day);
    PlusLaws(Get(a, day), Total(Part(before, gone), day), Total(Part(now, batch), day));
  }

  lemma {:induction false} AffordableDay(before: Records, a: Aggregates, cutoff: int, now: Records,
                        b: Aggregates, gone: set<nat>,
                      batch: set<nat>, day: nat)
    requires Affordable(before, a, cutoff) && Progress(before, a, now, b, gone)
    requires batch <= now.Keys && gone + batch <= Expired(before, cutoff)
    requires day in Days(Part(now, batch))
    ensures Fits(Plus(Get(b, day), Total(Part(now, batch), day)))
  {
    var all := Expired(before, cutoff);
    assert Part(now, batch) == Part(before, batch);
    DaysOfPart(before, batch, all);
    assert all <= before.Keys;
    hide Expired, Total, Days, Plus, Get, Part;
    BatchSum(before, a, now, b, gone, batch, day);
    TotalGrows(before, gone + batch, all, Get(a, day), day);
  }

  /** When the whole run can succeed, so can every batch of it. */
  lemma AffordableBatch(before: Records, a: Aggregates, cutoff: int, now: Records, b: Aggregates,
                        gone: set<nat>, batch: set<nat>)
    requires Affordable(before, a, cutoff) && Progress(before, a, now, b, gone)
    requires gone <= Expired(before, cutoff) && batch <= Expired(now, cutoff)
    ensures RollsUp(b, Part(now, batch))
  {
    forall id <- Part(now, batch) ensures ValidRecord(now[id]) {
      assert id in Part(before, Expired(before, cutoff));
    }
    assert gone + batch <= Expired(before, cutoff);
    hide Progress, Affordable, Part, Total, Plus, Get, Expired, Days;
    forall day <- Days(Part(now, batch)) ensures Fits(Plus(Get(b, day), Total(Part(now, batch), day))) {
      AffordableDay(before, a, cutoff, now, b, gone, batch, day);
    }
  }
}
