/**
  The retention job over its tables: the fold of a batch with checked additions, the upserts,
  the prefix delete with its count check, and the loop of batches.
 */
module RetentionJob {
  import opened Arithmetic
  import opened Wrappers
  import opened UsageTotals
  import opened Retention

  datatype Failure = InvalidRecord | Overflow | Aborted

  // ---------- checked addition ----------

  method AddChecked(destination: nat, value: int) returns (r: Option<nat>)
    requires destination <= MAX_INT64
    ensures r == if 0 <= value && destination + value <= MAX_INT64 then Some(destination + value) else None
  {
    if value < 0 || destination > MAX_INT64 - value { return None; }
    return Some(destination + value);
  }

  predicate FieldFits(f: (nat, int)) {
    0 <= f.1 && f.0 + f.1 <= MAX_INT64
  }

  predicate FieldsFit(fields: seq<(nat, int)>) {
    forall i | 0 <= i < |fields| :: FieldFits(fields[i])
  }

  /** The loop over the fields of an aggregate; it stops at the first that overflows. */
  method AddFields(fields: seq<(nat, int)>) returns (sums: Option<seq<nat>>)
    requires forall i | 0 <= i < |fields| :: fields[i].0 <= MAX_INT64
    ensures sums.Some? <==> FieldsFit(fields)
    ensures sums.Some? ==> |sums.value| == |fields|
    ensures sums.Some? ==> forall i | 0 <= i < |fields| :: sums.value[i] == fields[i].0 + fields[i].1
  {
    var done: seq<nat> := [];
    for i := 0 to |fields|
      invariant |done| == i
      invariant forall j | 0 <= j < i :: FieldFits(fields[j]) && done[j] == fields[j].0 + fields[j].1
    {
      var sum := AddChecked(fields[i].0, fields[i].1);
      if sum.None? {
        assert !FieldFits(fields[i]);
        return None;
      }
      done := done + [sum.value];
    }
    return Some(done);
  }

  /** The eight additions that follow the three counts. */
  function FieldsOf(acc: Counters, r: Record): (fields: seq<(nat, int)>)
    requires ValidRecord(r)
    ensures |fields| == 8
  {
    var u := r.usage.value;
    [(acc.requestBytes, r.requestBytes), (acc.responseBytes, r.responseBytes),
     (acc.input, u.input), (acc.output, u.output), (acc.cacheRead, u.cacheRead), (acc.cacheWrite, u.cacheWrite),
     (acc.reasoning, u.reasoning), (acc.total, u.total)]
  }

  lemma CountsAndFields(acc: Counters, r: Record)
    requires ValidRecord(r) && Fits(acc)
    ensures Fits(Plus(acc, Contribution(r))) <==>
      && acc.requests + 1 <= MAX_INT64
      && (r.status >= 400 ==> acc.errors + 1 <= MAX_INT64)
      && (r.streamed == 1 ==> acc.streamed + 1 <= MAX_INT64)
      && FieldsFit(FieldsOf(acc, r))
  {
    var fields := FieldsOf(acc, r);
    var x := Plus(acc, Contribution(r));
    assert FieldFits(fields[0]) <==> x.requestBytes <= MAX_INT64;
    assert FieldFits(fields[1]) <==> x.responseBytes <= MAX_INT64;
    assert FieldFits(fields[2]) <==> x.input <= MAX_INT64;
    assert FieldFits(fields[3]) <==> x.output <= MAX_INT64;
    assert FieldFits(fields[4]) <==> x.cacheRead <= MAX_INT64;
    assert FieldFits(fields[5]) <==> x.cacheWrite <= MAX_INT64;
    assert FieldFits(fields[6]) <==> x.reasoning <= MAX_INT64;
    assert FieldFits(fields[7]) <==> x.total <= MAX_INT64;
  }

  method AddRecord(acc: Counters, r: Record) returns (sum: Option<Counters>)
    requires ValidRecord(r) && Fits(acc)
    ensures sum == if Fits(Plus(acc, Contribution(r))) then Some(Plus(acc, Contribution(r))) else None
  {
    CountsAndFields(acc, r);
    hide Fits, FieldsFit;
    InRange(acc, r);
    var requests := AddChecked(acc.requests, 1);
    if requests.None? { return None; }
    var errors := Some(acc.errors);
    if r.status >= 400 {
      errors := AddChecked(acc.errors, 1);
      if errors.None? { return None; }
    }
    var streamed := Some(acc.streamed);
    if r.streamed == 1 {
      streamed := AddChecked(acc.streamed, 1);
      if streamed.None? { return None; }
    }
    var sums := AddFields(FieldsOf(acc, r));
    if sums.None? { return None; }
    var v := sums.value;
    return Some(Counters(requests.value, errors.value, streamed.value, v[0], v[1], v[2], v[3], v[4], v[5], v[6], v[7]));
  }

  lemma InRange(acc: Counters, r: Record)
    requires ValidRecord(r) && Fits(acc)
    ensures acc.requests <= MAX_INT64 && acc.errors <= MAX_INT64 && acc.streamed <= MAX_INT64
    ensures forall i | 0 <= i < 8 :: FieldsOf(acc, r)[i].0 <= MAX_INT64
  {
  }

  // ---------- the fold ----------

  lemma {:induction false} SingleTotal(id: nat, r: Record, day: nat)
    ensures Total(map[id := r], day) == OfDay(r, day)
  {
    hide Plus, Contribution, DayOf;
    var one := map[id := r];
    TotalPick(one, id, day);
    assert one - {id} == map[];
    PlusLaws(OfDay(r, day), ZERO, ZERO);
  }

  lemma SingleDays(id: nat, r: Record)
    ensures Days(map[id := r]) == {DayOf(r)}
  {
    hide DayOf;
    assert map[id := r][id] == r;
  }

  lemma FoldSingle(a: Aggregates, id: nat, r: Record)
    ensures Folded(a, map[id := r]) == a[DayOf(r) := Plus(Get(a, DayOf(r)), Contribution(r))]
  {
    SingleDays(id, r);
    hide Total, Contribution, DayOf, Days, Plus;
    forall day <- a.Keys + {DayOf(r)}
      ensures Folded(a, map[id := r])[day] == if day == DayOf(r) then Plus(Get(a, day), Contribution(r)) else a[day]
    {
      SingleTotal(id, r, day);
      PlusLaws(Get(a, day), ZERO, ZERO);
    }
  }

  lemma FoldNext(records: Records, ids: set<nat>, id: nat)
    requires ids <= records.Keys && id in records && id !in ids
    ensures
      var a, r := Folded(map[], Part(records, ids)), records[id];
      Folded(map[], Part(records, ids + {id})) == a[DayOf(r) := Plus(Get(a, DayOf(r)), Contribution(r))]
  {
    var one := map[id := records[id]];
    assert Part(records, ids + {id}) == Part(records, ids) + one;
    hide Folded, Contribution, DayOf;
    FoldedTwice(map[], Part(records, ids), one);
    FoldSingle(Folded(map[], Part(records, ids)), id, records[id]);
  }

  /** A batch that rolls up keeps every partial sum of its fold in range. */
  lemma FoldFits(a: Aggregates, records: Records, ids: set<nat>, all: set<nat>, id: nat)
    requires ids <= all <= records.Keys && id in all && id !in ids && RollsUp(a, Part(records, all))
    ensures ValidRecord(records[id])
    ensures
      var day := DayOf(records[id]);
      Fits(Plus(Get(Folded(map[], Part(records, ids)), day), Contribution(records[id])))
  {
    var day := DayOf(records[id]);
    assert id in Part(records, all) && Part(records, all)[id] == records[id];
    assert day in Days(Part(records, all));
    TotalGrows(records, ids + {id}, all, Get(a, day), day);
    FoldNext(records, ids, id);
    FoldedGet(map[], Part(records, ids + {id}), day);
    hide Folded, Contribution, DayOf, Total, Days, Part, RollsUp;
    var sum := Total(Part(records, ids + {id}), day);
    PlusLaws(sum, Get(a, day), ZERO);
    PlusLaws(sum, ZERO, ZERO);
  }

  lemma FoldCanGoOn(a: Aggregates, records: Records, ids: set<nat>, all: set<nat>, id: nat)
    requires ids <= all <= records.Keys && id in all && id !in ids
    ensures RollsUp(a, Part(records, all)) ==>
      && ValidRecord(records[id])
      && Fits(Plus(Get(Folded(map[], Part(records, ids)), DayOf(records[id])), Contribution(records[id])))
  {
    if RollsUp(a, Part(records, all)) {
      FoldFits(a, records, ids, all, id);
    }
  }

  predicate Distinct(rows: seq<nat>) {
    forall i, j | 0 <= i < j < |rows| :: rows[i] != rows[j]
  }

  lemma NextId(rows: seq<nat>, i: nat)
    requires Distinct(rows) && i < |rows|
    ensures rows[i] in Ids(rows) && rows[i] !in Ids(rows[..i])
    ensures Ids(rows[..i]) <= Ids(rows)
    ensures Ids(rows[..i + 1]) == Ids(rows[..i]) + {rows[i]}
  {
    assert rows[..i + 1] == rows[..i] + [rows[i]];
  }

  lemma NothingFolded(records: Records, rows: seq<nat>)
    ensures Folded(map[], Part(records, Ids(rows[..0]))) == map[] && Fits(ZERO)
  {
    assert Part(records, Ids(rows[..0])) == map[];
    FoldedNothing(map[]);
  }

  // ---------- upserts ----------

  /** The days in `done` are upserted, the others still as they were. */
  ghost predicate UpsertedSoFar(before: Aggregates, now: Aggregates, part: Records, done: set<nat>) {
    && now.Keys == before.Keys + done
    && forall day <- now :: now[day] == if day in done then Plus(Get(before, day), Total(part, day)) else before[day]
  }

  lemma {:induction false} UpsertOne(before: Aggregates, now: Aggregates, part: Records, done: set<nat>, day: nat)
    requires UpsertedSoFar(before, now, part, done) && day !in done
    ensures Get(now, day) == Get(before, day)
    ensures UpsertedSoFar(before, now[day := Plus(Get(now, day), Total(part, day))], part, done + {day})
  {
  }

  lemma AllUpserted(before: Aggregates, now: Aggregates, part: Records)
    requires UpsertedSoFar(before, now, part, Days(part))
    ensures now == Folded(before, part)
  {
    hide Total, Plus, Days;
    forall day <- now ensures now[day] == Folded(before, part)[day] {
      if day !in Days(part) {
        TotalElsewhere(part, day);
        PlusLaws(before[day], ZERO, ZERO);
      }
    }
  }

  lemma NoneUpserted(before: Aggregates, part: Records)
    ensures UpsertedSoFar(before, before, part, {})
  {
  }

  lemma {:induction false} DaysFolded(part: Records)
    ensures Folded(map[], part).Keys == Days(part)
    ensures forall day <- Days(part) :: day in Folded(map[], part) && Folded(map[], part)[day] == Total(part, day)
  {
    hide Total, Days, Plus;
    forall day <- Days(part) ensures Folded(map[], part)[day] == Total(part, day) {
      PlusLaws(Total(part, day), ZERO, ZERO);
    }
  }

  // ---------- facts about a batch ----------

  lemma SelectionFacts(records: Records, cutoff: int, rows: seq<nat>)
    requires IsSelection(records, cutoff, rows)
    ensures Distinct(rows) && IsBatch(records, cutoff, Ids(rows)) && |Ids(rows)| == |rows|
    ensures Ids(rows) <= records.Keys
    ensures |rows| == 0 ==> Ids(rows) == {}
  {
    SelectionIsBatch(records, cutoff, rows);
  }

  lemma EmptyBatch(records: Records, a: Aggregates)
    ensures Part(records, {}) == map[] && Days(Part(records, {})) == {}
    ensures Folded(a, Part(records, {})) == a && records - {} == records
    ensures RollsUp(a, Part(records, {}))
  {
    assert Part(records, {}) == map[];
    FoldedNothing(a);
  }

  lemma PartValid(records: Records, rows: seq<nat>)
    requires forall i | 0 <= i < |rows| :: rows[i] in records && ValidRecord(records[rows[i]])
    ensures forall id <- Part(records, Ids(rows)) :: ValidRecord(Part(records, Ids(rows))[id])
  {
  }

  lemma NothingGone(before: Records, a: Aggregates)
    ensures Days(Part(before, {})) == {} && RollsUp(a, Part(before, {}))
  {
    EmptyBatch(before, a);
  }

  lemma BatchIsNew(before: Records, a: Aggregates, cutoff: int, now: Records, b: Aggregates, gone: set<nat>,
                   batch: set<nat>)
    requires Progress(before, a, now, b, gone) && gone <= Expired(before, cutoff) && IsBatch(now, cutoff, batch)
    ensures batch <= Expired(now, cutoff) && batch <= now.Keys && gone !! batch && gone + batch <= Expired(before, cutoff)
  {
  }

  lemma Sizes(now: Records, gone: set<nat>, batch: set<nat>)
    requires batch <= now.Keys && gone !! batch
    ensures |gone + batch| == |gone| + |batch| && |now - batch| == |now| - |batch|
  {
    assert (now - batch).Keys == now.Keys - batch;
  }

  /** A batch of what is left is new, and expired from the start. */
  lemma BatchFacts(before: Records, a: Aggregates, cutoff: int, now: Records, b: Aggregates, gone: set<nat>,
                   batch: set<nat>)
    requires Progress(before, a, now, b, gone) && gone <= Expired(before, cutoff) && IsBatch(now, cutoff, batch)
    ensures batch <= now.Keys && gone !! batch && gone + batch <= Expired(before, cutoff)
    ensures Affordable(before, a, cutoff) ==> RollsUp(b, Part(now, batch))
    ensures !RollsUp(b, Part(now, batch)) ==> gone < Expired(before, cutoff)
    ensures |gone + batch| == |gone| + |batch| && |now - batch| == |now| - |batch|
  {
    BatchIsNew(before, a, cutoff, now, b, gone, batch);
    Sizes(now, gone, batch);
    EmptyBatch(now, b);
    hide Progress, IsBatch, Expired, Affordable, Part, RollsUp;
    if Affordable(before, a, cutoff) { AffordableBatch(before, a, cutoff, now, b, gone, batch); }
    assert !RollsUp(b, Part(now, batch)) ==> batch != {};
  }

  lemma BatchDone(before: Records, a: Aggregates, now: Records, b: Aggregates, gone: set<nat>, batch: set<nat>)
    requires Progress(before, a, now, b, gone) && batch <= now.Keys && gone !! batch
    requires RollsUp(a, Part(before, gone)) && RollsUp(b, Part(now, batch))
    ensures Progress(before, a, now - batch, Folded(b, Part(now, batch)), gone + batch)
    ensures Days(Part(before, gone + batch)) == Days(Part(before, gone)) + Days(Part(now, batch))
    ensures RollsUp(a, Part(before, gone + batch))
  {
    ProgressStep(before, a, now, b, gone, batch);
    PartSplits(before, gone, batch);
    DaysSplit(Part(before, gone), Part(now, batch));
    RollsUpTogether(before, a, now, b, gone, batch);
  }

  lemma RollsUpTogether(before: Records, a: Aggregates, now: Records, b: Aggregates, gone: set<nat>, batch: set<nat>)
    requires Progress(before, a, now, b, gone) && batch <= now.Keys && gone !! batch
    requires RollsUp(a, Part(before, gone)) && RollsUp(b, Part(now, batch))
    ensures RollsUp(a, Part(before, gone + batch))
  {
    PartSplits(before, gone, batch);
    var all := Part(before, gone + batch);
    forall id <- all ensures ValidRecord(all[id]) {
      if id in gone { assert id in Part(before, gone); } else { assert id in Part(now, batch); }
    }
    hide Part, Total, Plus, Fits, Days;
    DaysSplit(Part(before, gone), Part(now, batch));
    forall day <- Days(all) ensures Fits(Plus(Get(a, day), Total(all, day))) {
      BatchSum(before, a, now, b, gone, batch, day);
      if day !in Days(Part(now, batch)) {
        TotalElsewhere(Part(now, batch), day);
        FoldedGet(a, Part(before, gone), day);
        PlusLaws(Get(b, day), ZERO, ZERO);
      }
    }
  }

  /** After a short batch everything expired is gone. */
  lemma LastBatch(before: Records, a: Aggregates, cutoff: int, now: Records, b: Aggregates, gone: set<nat>,
                  batch: set<nat>)
    requires Progress(before, a, now, b, gone) && gone <= Expired(before, cutoff)
    requires IsBatch(now, cutoff, batch) && |batch| < BATCH
    requires RollsUp(a, Part(before, gone + batch))
    ensures gone + batch == Expired(before, cutoff) && Affordable(before, a, cutoff)
  {
    WhatIsLeft(before, a, cutoff, now, b, gone);
    hide Expired, Part, RollsUp, Progress;
    assert gone + batch == Expired(before, cutoff);
  }

  /** How many transactions a whole run takes: full batches, and one that is short. */
  function Batches(records: Records, cutoff: int): nat {
    |Expired(records, cutoff)| / 1000 + 1
  }

  lemma ExpiredIff(before: Records, cutoff: int)
    ensures forall id <- before :: id !in Expired(before, cutoff) <==> cutoff <= before[id].started
  {
  }

  lemma NoneGone(before: Records, cutoff: int)
    ensures OldestGone(before, cutoff, {})
  {
  }

  lemma BatchSize(now: Records, cutoff: int, batch: set<nat>)
    requires IsBatch(now, cutoff, batch)
    ensures |batch| <= BATCH
  {
  }

  /** After `i` full batches at least as many transactions are needed, and with a short one more
      exactly that many. */
  lemma BatchesSoFar(before: Records, cutoff: int, gone: set<nat>, i: nat)
    requires gone <= Expired(before, cutoff) && |gone| == i * BATCH
    ensures i < Batches(before, cutoff)
    ensures |Expired(before, cutoff)| < |gone| + BATCH ==> Batches(before, cutoff) == i + 1
  {
    SubsetNotLarger(gone, Expired(before, cutoff));
  }

  // ---------- the job ----------

  datatype Summary = Summary(deleted: nat, aggregatedDays: nat)

  class Job {
    var records: Records
    var aggregates: Aggregates

    constructor (records: Records, aggregates: Aggregates)
      ensures this.records == records && this.aggregates == aggregates
    {
      this.records, this.aggregates := records, aggregates;
    }

    /** The SELECT of a batch: the oldest expired rows in order. */
    method Query(cutoff: int) returns (rows: seq<nat>)
      ensures IsSelection(records, cutoff, rows)
    {
      rows := [];
      var left := Expired(records, cutoff);
      while left != {} && |rows| < BATCH
        invariant left <= Expired(records, cutoff) && |rows| <= BATCH
        invariant forall id <- Expired(records, cutoff) :: id in left <==> id !in rows
        invariant forall i | 0 <= i < |rows| :: rows[i] in Expired(records, cutoff)
        invariant forall i, j | 0 <= i < j < |rows| :: rows[i] != rows[j] && Before(records, rows[i], rows[j])
        invariant forall i, id | 0 <= i < |rows| && id in left :: Before(records, rows[i], id)
      {
        ghost var first := OldestExists(records, left);
        var oldest :| oldest in left && forall id <- left :: Before(records, oldest, id);
        rows := rows + [oldest];
        left := left - {oldest};
      }
    }

    /** The loop over the selected rows: the counters of every day of the batch. */
    method Fold(rows: seq<nat>) returns (sums: Result<Aggregates, Failure>)
      requires Ids(rows) <= records.Keys && Distinct(rows)
      ensures sums.Ok? ==> sums.value == Folded(map[], Part(records, Ids(rows)))
      ensures sums.Ok? ==> forall i | 0 <= i < |rows| :: rows[i] in records && ValidRecord(records[rows[i]])
      ensures sums.Err? ==> !RollsUp(aggregates, Part(records, Ids(rows)))
    {
      hide Folded, Part, Plus, Contribution, DayOf, RollsUp, ValidRecord, Fits, Ids, Distinct;
      var days: Aggregates := map[];
      NothingFolded(records, rows);
      for i := 0 to |rows|
        invariant days == Folded(map[], Part(records, Ids(rows[..i])))
        invariant forall day <- days :: Fits(days[day])
        invariant forall j | 0 <= j < i :: rows[j] in records && ValidRecord(records[rows[j]])
      {
        var id := rows[i];
        ghost var seen := Ids(rows[..i]);
        NextId(rows, i);
        FoldCanGoOn(aggregates, records, seen, Ids(rows), id);
        FoldNext(records, seen, id);
        var r := records[id];
        if !ValidRecord(r) { return Err(InvalidRecord); }
        var day := DayOf(r);
        var acc := ZERO;
        if day in days { acc := days[day]; }
        var sum := AddRecord(acc, r);
        if sum.None? { return Err(Overflow); }
        days := days[day := sum.value];
      }
      assert rows[..|rows|] == rows;
      return Ok(days);
    }

    /** The loop of upserts; an overflow violates a column check and undoes all of them. */
    method Upsert(ghost part: Records, days: Aggregates) returns (ok: bool)
      requires days == Folded(map[], part)
      modifies this`aggregates
      ensures ok <==> forall day <- Days(part) :: Fits(Plus(Get(old(aggregates), day), Total(part, day)))
      ensures aggregates == if ok then Folded(old(aggregates), part) else old(aggregates)
    {
      hide Folded, UpsertedSoFar, Total, Days, Plus, Fits;
      DaysFolded(part);
      var before := aggregates;
      var left := days.Keys;
      NoneUpserted(before, part);
      assert days.Keys - left == {};
      while left != {}
        invariant left <= days.Keys
        invariant UpsertedSoFar(before, aggregates, part, days.Keys - left)
        invariant forall day <- days.Keys - left :: Fits(Plus(Get(before, day), Total(part, day)))
      {
        var day :| day in left;
        UpsertOne(before, aggregates, part, days.Keys - left, day);
        assert days.Keys - (left - {day}) == (days.Keys - left) + {day};
        var sum := Plus(Get(aggregates, day), days[day]);
        if !Fits(sum) {
          aggregates := before;
          return false;
        }
        aggregates := aggregates[day := sum];
        left := left - {day};
      }
      assert days.Keys - left == days.Keys;
      AllUpserted(before, aggregates, part);
      return true;
    }

    /** One transaction. `batch` is the set of rows it selected; `commits` is false when the
        context ends or the audit insert or the commit fails, and then it rolls back. */
    method CleanupBatch(cutoff: int, commits: bool) returns (r: Result<(nat, set<nat>), Failure>, ghost batch: set<nat>)
      modifies this
      ensures IsBatch(old(records), cutoff, batch)
      ensures r.Ok? <==> commits && RollsUp(old(aggregates), Part(old(records), batch))
      ensures r.Err? ==> records == old(records) && aggregates == old(aggregates)
      ensures r.Ok? ==>
        && r.value.0 == |batch| && r.value.1 == Days(Part(old(records), batch))
        && records == old(records) - batch
        && aggregates == Folded(old(aggregates), Part(old(records), batch))
    {
      hide Folded, Part, IsBatch, IsSelection, Total, Days, Distinct, Plus, Fits, ValidRecord;
      var rows := Query(cutoff);
      SelectionFacts(records, cutoff, rows);
      batch := Ids(rows);
      ghost var part := Part(records, batch);
      if |rows| == 0 {
        EmptyBatch(records, aggregates);
        if !commits { return Err(Aborted), {}; }
        return Ok((0, {})), {};
      }
      var sums := Fold(rows);
      if sums.Err? { return Err(sums.error), batch; }
      PartValid(records, rows);
      DaysFolded(part);
      var storedRecords, storedAggregates := records, aggregates;
      var ok := Upsert(part, sums.value);
      if !ok { return Err(Overflow), batch; }
      var count, lastId := |rows|, rows[|rows| - 1];
      DeletesTheSelected(records, cutoff, rows);
      var doomed := UpTo(records, cutoff, records[lastId].started, lastId);
      if |doomed| != count {
        assert false; // the check against a selection that changed never fires
      }
      records := records - doomed;
      if !commits {
        records, aggregates := storedRecords, storedAggregates;
        return Err(Aborted), batch;
      }
      return Ok((count, sums.value.Keys)), batch;
    }

    /** Batches until one is short. The transaction of batch number `failsAt`, counted from 0,
        fails to commit, if there is one. A run that fails has deleted whole batches, oldest first. */
    method Cleanup(cutoff: int, failsAt: Option<nat>) returns (r: Result<Summary, Failure>)
      modifies this
      ensures r.Ok? <==>
        && Affordable(old(records), old(aggregates), cutoff)
        && (failsAt.Some? ==> failsAt.value >= Batches(old(records), cutoff))
      ensures r.Ok? ==>
        var expired := Expired(old(records), cutoff);
        && records == old(records) - expired
        && aggregates == Folded(old(aggregates), Part(old(records), expired))
        && r.value == Summary(|expired|, |Days(Part(old(records), expired))|)
      ensures r.Ok? ==> forall id <- old(records) :: id in records <==> cutoff <= old(records)[id].started
      ensures r.Err? ==> exists i: nat, gone: set<nat> ::
        && StoppedAfter(old(records), old(aggregates), cutoff, records, aggregates, i, gone)
        && (failsAt.Some? ==> i <= failsAt.value)
        && (Affordable(old(records), old(aggregates), cutoff) ==> failsAt == Some(i))
    {
      hide Folded, Part, IsBatch, Total, Days, Progress, RollsUp, Affordable, Expired, OldestGone;
      ghost var before, a := records, aggregates;
      ghost var gone: set<nat> := {};
      ProgressStart(before, a);
      var deleted, days, i := 0, {}, 0;
      NothingGone(before, a);
      NoneGone(before, cutoff);
      ExpiredIff(before, cutoff);
      while true
        invariant gone <= Expired(before, cutoff) && Progress(before, a, records, aggregates, gone)
        invariant OldestGone(before, cutoff, gone)
        invariant deleted == |gone| == i * BATCH && days == Days(Part(before, gone))
        invariant RollsUp(a, Part(before, gone))
        invariant failsAt.Some? ==> i <= failsAt.value
        decreases |records|
      {
        ghost var now, b := records, aggregates;
        var result, batch := CleanupBatch(cutoff, failsAt != Some(i));
        BatchFacts(before, a, cutoff, now, b, gone, batch);
        BatchSize(now, cutoff, batch);
        BatchesSoFar(before, cutoff, gone, i);
        if result.Err? {
          assert StoppedAfter(before, a, cutoff, records, aggregates, i, gone);
          return Err(result.error);
        }
        OldestNext(before, a, cutoff, now, b, gone, batch);
        BatchDone(before, a, now, b, gone, batch);
        deleted := deleted + result.value.0;
        days := days + result.value.1;
        gone := gone + batch;
        if result.value.0 < BATCH {
          LastBatch(before, a, cutoff, now, b, gone - batch, batch);
          return Ok(Summary(deleted, |days|));
        }
        i := i + 1;
      }
    }
  }

  // ---------- after an aborted run ----------

  /** Whatever batches a run had committed when it stopped, what the next run at the same cutoff
      has to do can be done if the whole could, and ends in the tables of a single pass. */
  lemma ResumedRunEqualsOnePass(before: Records, a: Aggregates, now: Records, b: Aggregates, gone: set<nat>, cutoff: int)
    requires Progress(before, a, now, b, gone) && gone <= Expired(before, cutoff)
    ensures Affordable(before, a, cutoff) ==> Affordable(now, b, cutoff)
    ensures now - Expired(now, cutoff) == before - Expired(before, cutoff)
    ensures Folded(b, Part(now, Expired(now, cutoff))) == Folded(a, Part(before, Expired(before, cutoff)))
  {
    var all, rest := Expired(before, cutoff), Expired(now, cutoff);
    WhatIsLeft(before, a, cutoff, now, b, gone);
    if Affordable(before, a, cutoff) { AffordableBatch(before, a, cutoff, now, b, gone, rest); }
    ProgressStep(before, a, now, b, gone, rest);
    hide Folded, Part, Expired, RollsUp;
    assert gone + rest == all;
  }

  /** Two runs at one cutoff, the first stopped by a failed commit: together they are one pass. */
  method CleanupAgain(job: Job, cutoff: int, failsAt: Option<nat>) returns (r: Result<Summary, Failure>)
    requires Affordable(job.records, job.aggregates, cutoff)
    modifies job
    ensures r.Ok?
    ensures job.records == old(job.records) - Expired(old(job.records), cutoff)
    ensures job.aggregates == Folded(old(job.aggregates), Part(old(job.records), Expired(old(job.records), cutoff)))
  {
    hide Folded, Part, Expired, Affordable, Progress;
    ghost var before, a := job.records, job.aggregates;
    r := job.Cleanup(cutoff, failsAt);
    if r.Err? {
      ghost var i: nat, gone: set<nat> :| StoppedAfter(before, a, cutoff, job.records, job.aggregates, i, gone);
      ResumedRunEqualsOnePass(before, a, job.records, job.aggregates, gone, cutoff);
      r := job.Cleanup(cutoff, None);
    }
  }
}
