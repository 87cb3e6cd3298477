/**
  Request records, daily counters and sums of counters over tables of records.
 */
module UsageTotals {
  import opened Wrappers

  const MAX_INT64: nat := 0x7fff_ffff_ffff_ffff
  const DAY: nat := 86_400_000 // milliseconds

  /** The decoded usage of a record; a missing field is 0. */
  datatype Usage = Usage(input: nat, output: nat, cacheRead: nat, cacheWrite: nat, reasoning: nat, total: nat)

  /** A row of request_records; `usage` is None when the stored JSON does not decode. */
  datatype Record = Record(
    started: int,
    status: int,
    streamed: int,
    requestBytes: int,
    responseBytes: int,
    usage: Option<Usage>)

  type Records = map<nat, Record>

  datatype Counters = Counters(
    requests: nat, errors: nat, streamed: nat,
    requestBytes: nat, responseBytes: nat,
    input: nat, output: nat, cacheRead: nat, cacheWrite: nat, reasoning: nat, total: nat)

  const ZERO: Counters := Counters(0, 0, 0, 0, 0, 0, 0, 0, 0, 0, 0)

  /** Rows of request_daily_aggregates by the start of their day. */
  type Aggregates = map<nat, Counters>

  predicate ValidRecord(r: Record) {
    && 0 <= r.started && 100 <= r.status <= 599 && (r.streamed == 0 || r.streamed == 1)
    && 0 <= r.requestBytes && 0 <= r.responseBytes && r.usage.Some?
  }

  /** The start of the UTC day. A record with a negative start is invalid and never rolled up. */
  function DayOf(r: Record): nat {
    if 0 <= r.started then r.started - r.started % DAY else 0
  }

  /** What one record adds to the counters of its day. */
  function Contribution(r: Record): Counters {
    if !ValidRecord(r) then ZERO
    else
      var u := r.usage.value;
      Counters(1, if r.status >= 400 then 1 else 0, r.streamed, r.requestBytes, r.responseBytes,
               u.input, u.output, u.cacheRead, u.cacheWrite, u.reasoning, u.total)
  }

  function Plus(a: Counters, b: Counters): Counters {
    Counters(a.requests + b.requests, a.errors + b.errors, a.streamed + b.streamed,
             a.requestBytes + b.requestBytes, a.responseBytes + b.responseBytes,
             a.input + b.input, a.output + b.output, a.cacheRead + b.cacheRead, a.cacheWrite + b.cacheWrite,
             a.reasoning + b.reasoning, a.total + b.total)
  }

  predicate Fits(c: Counters) {
    && c.requests <= MAX_INT64 && c.errors <= MAX_INT64 && c.streamed <= MAX_INT64
    && c.requestBytes <= MAX_INT64 && c.responseBytes <= MAX_INT64
    && c.input <= MAX_INT64 && c.output <= MAX_INT64 && c.cacheRead <= MAX_INT64 && c.cacheWrite <= MAX_INT64
    && c.reasoning <= MAX_INT64 && c.total <= MAX_INT64
  }

  lemma PlusLaws(a: Counters, b: Counters, c: Counters)
    ensures Plus(Plus(a, b), c) == Plus(a, Plus(b, c)) && Plus(a, b) == Plus(b, a) && Plus(a, ZERO) == a
    ensures Fits(Plus(a, b)) ==> Fits(a) && Fits(b)
  {
  }

  function Get(a: Aggregates, day: nat): Counters {
    if day in a then a[day] else ZERO
  }

  function OfDay(r: Record, day: nat): Counters {
    if DayOf(r) == day then Contribution(r) else ZERO
  }

  /** The sum of a day over a table of records. */
  ghost function Total(records: Records, day: nat): Counters
    decreases |records|
  {
    if records == map[] then ZERO
    else
      var id :| id in records;
      Plus(OfDay(records[id], day), Total(records - {id}, day))
  }

  function Days(records: Records): set<nat> {
    set id | id in records :: DayOf(records[id])
  }

  /** Any record may be taken out first. */
  lemma {:induction false} TotalPick(records: Records, x: nat, day: nat)
    requires x in records
    ensures Total(records, day) == Plus(OfDay(records[x], day), Total(records - {x}, day))
    decreases |records|
  {
    hide Plus, Contribution, DayOf;
    var id :| id in records && Total(records, day) == Plus(OfDay(records[id], day), Total(records - {id}, day));
    if id != x {
      TotalPick(records - {id}, x, day);
      TotalPick(records - {x}, id, day);
      assert records - {id} - {x} == records - {x} - {id};
      var rest := Total(records - {id} - {x}, day);
      PlusLaws(OfDay(records[id], day), OfDay(records[x], day), rest);
      PlusLaws(OfDay(records[x], day), OfDay(records[id], day), rest);
    }
  }

  lemma UnionWithout(a: Records, b: Records, id: nat)
    requires a.Keys !! b.Keys && id in a
    ensures id in a + b && (a + b)[id] == a[id] && (a + b) - {id} == (a - {id}) + b
  {
  }

  lemma {:induction false} SplitsFirst(a: Records, b: Records, id: nat, day: nat)
    requires a.Keys !! b.Keys && id in a
    requires Total((a - {id}) + b, day) == Plus(Total(a - {id}, day), Total(b, day))
    ensures Total(a + b, day) == Plus(Total(a, day), Total(b, day))
  {
    hide Plus, Contribution, DayOf, Total;
    UnionWithout(a, b, id);
    TotalPick(a, id, day);
    TotalPick(a + b, id, day);
    PlusLaws(OfDay(a[id], day), Total(a - {id}, day), Total(b, day));
  }

  lemma {:induction false} SplitsNothing(b: Records, day: nat)
    ensures Total(map[] + b, day) == Plus(Total(map[], day), Total(b, day))
  {
    UnionNothing(b);
    PlusLaws(Total(b, day), ZERO, ZERO);
    assert Total(map[], day) == ZERO;
    hide Total, Plus;
  }

  lemma UnionNothing(b: Records)
    ensures map[] + b == b
  {
  }

  lemma {:induction false} TotalSplits(a: Records, b: Records, day: nat)
    requires a.Keys !! b.Keys
    ensures Total(a + b, day) == Plus(Total(a, day), Total(b, day))
    decreases |a|
  {
    hide Plus, Total;
    if a == map[] {
      SplitsNothing(b, day);
    } else {
      var id :| id in a;
      TotalSplits(a - {id}, b, day);
      SplitsFirst(a, b, id, day);
    }
  }

  lemma {:induction false} TotalElsewhere(records: Records, day: nat)
    requires day !in Days(records)
    ensures Total(records, day) == ZERO
    decreases |records|
  {
    hide Plus, Contribution, DayOf;
    if records != map[] {
      var id :| id in records;
      TotalPick(records, id, day);
      PlusLaws(ZERO, ZERO, ZERO);
      assert DayOf(records[id]) in Days(records);
      assert Days(records - {id}) <= Days(records);
      TotalElsewhere(records - {id}, day);
    }
  }

  /** The aggregates after rolling up `batch`. */
  ghost function Folded(a: Aggregates, batch: Records): Aggregates {
    map day | day in a.Keys + Days(batch) :: Plus(Get(a, day), Total(batch, day))
  }

  lemma {:induction false} FoldedGet(a: Aggregates, batch: Records, day: nat)
    ensures Get(Folded(a, batch), day) == Plus(Get(a, day), Total(batch, day))
  {
    hide Contribution, DayOf, Days, Total, Plus;
    if day !in a.Keys + Days(batch) {
      TotalElsewhere(batch, day);
      PlusLaws(ZERO, ZERO, ZERO);
    }
  }

  lemma DaysSplit(b: Records, c: Records)
    requires b.Keys !! c.Keys
    ensures Days(b + c) == Days(b) + Days(c)
  {
    hide DayOf;
    forall id <- b ensures DayOf(b[id]) in Days(b + c) { assert id in b + c && (b + c)[id] == b[id]; }
    forall id <- c ensures DayOf(c[id]) in Days(b + c) { assert id in b + c && (b + c)[id] == c[id]; }
    forall id <- b + c ensures DayOf((b + c)[id]) in Days(b) + Days(c) {
      if id in b { assert DayOf(b[id]) in Days(b); } else { assert DayOf(c[id]) in Days(c); }
    }
  }

  /** Rolling up in two batches is rolling up at once. */
  lemma FoldedTwice(a: Aggregates, b: Records, c: Records)
    requires b.Keys !! c.Keys
    ensures Folded(Folded(a, b), c) == Folded(a, b + c)
  {
    hide Plus, Contribution, DayOf, Days, Total;
    DaysSplit(b, c);
    forall day: nat ensures Get(Folded(Folded(a, b), c), day) == Get(Folded(a, b + c), day) {
      FoldedGet(a, b, day);
      FoldedGet(Folded(a, b), c, day);
      FoldedGet(a, b + c, day);
      TotalSplits(b, c, day);
      PlusLaws(Get(a, day), Total(b, day), Total(c, day));
    }
    var x, y := Folded(Folded(a, b), c), Folded(a, b + c);
    assert x.Keys == y.Keys;
    forall day <- x.Keys ensures x[day] == y[day] {
      assert Get(x, day) == Get(y, day);
    }
  }

  lemma FoldedNothing(a: Aggregates)
    ensures Folded(a, map[]) == a
  {
    forall day <- a.Keys ensures Folded(a, map[])[day] == a[day] {
      PlusLaws(a[day], ZERO, ZERO);
    }
  }

  /** Conservation: what is stored plus what is still to come does not change. */
  lemma {:induction false} FoldingConserves(a: Aggregates, batch: Records, rest: Records, day: nat)
    requires batch.Keys !! rest.Keys
    ensures Plus(Get(Folded(a, batch), day), Total(rest, day)) == Plus(Get(a, day), Total(batch + rest, day))
  {
    hide Plus, Contribution, DayOf, Days, Total;
    FoldedGet(a, batch, day);
    TotalSplits(batch, rest, day);
    PlusLaws(Get(a, day), Total(batch, day), Total(rest, day));
  }

  // ---------- field by field ----------

  /** The UTC day, given by its first millisecond, in which an instant lies. */
  predicate InDay(started: int, day: nat) {
    day % 86_400_000 == 0 && day <= started < day + 86_400_000
  }

  lemma DayIff(r: Record, day: nat)
    requires 0 <= r.started
    ensures DayOf(r) == day <==> InDay(r.started, day)
  {
  }

  datatype Field =
    | Requests | Errors | Streamed | RequestBytes | ResponseBytes
    | Input | Output | CacheRead | CacheWrite | Reasoning | TotalTokens

  /** What a record counts in a field. */
  function Amount(r: Record, f: Field): nat
    requires ValidRecord(r)
  {
    match f
    case Requests => 1
    case Errors => if 400 <= r.status then 1 else 0
    case Streamed => r.streamed
    case RequestBytes => r.requestBytes
    case ResponseBytes => r.responseBytes
    case Input => r.usage.value.input
    case Output => r.usage.value.output
    case CacheRead => r.usage.value.cacheRead
    case CacheWrite => r.usage.value.cacheWrite
    case Reasoning => r.usage.value.reasoning
    case TotalTokens => r.usage.value.total
  }

  function CounterOf(c: Counters, f: Field): nat {
    match f
    case Requests => c.requests
    case Errors => c.errors
    case Streamed => c.streamed
    case RequestBytes => c.requestBytes
    case ResponseBytes => c.responseBytes
    case Input => c.input
    case Output => c.output
    case CacheRead => c.cacheRead
    case CacheWrite => c.cacheWrite
    case Reasoning => c.reasoning
    case TotalTokens => c.total
  }

  ghost predicate AllValid(records: Records) {
    forall id <- records :: ValidRecord(records[id])
  }

  /** The sum of a field over the records of a day. */
  ghost function SumOf(records: Records, day: nat, f: Field): nat
    requires AllValid(records)
    decreases |records|
  {
    if records == map[] then 0
    else
      var id :| id in records;
      (if InDay(records[id].started, day) then Amount(records[id], f) else 0) + SumOf(records - {id}, day, f)
  }

  lemma FieldOfDay(r: Record, day: nat, f: Field)
    requires ValidRecord(r)
    ensures CounterOf(OfDay(r, day), f) == if InDay(r.started, day) then Amount(r, f) else 0
  {
    DayIff(r, day);
    hide DayOf, InDay;
  }

  lemma FieldPlus(a: Counters, b: Counters, f: Field)
    ensures CounterOf(Plus(a, b), f) == CounterOf(a, f) + CounterOf(b, f)
  {
  }

  /** Every counter of a day is the sum of its field over the records of that day. */
  lemma {:induction false} TotalIsSum(records: Records, day: nat, f: Field)
    requires AllValid(records)
    ensures CounterOf(Total(records, day), f) == SumOf(records, day, f)
    decreases |records|
  {
    hide OfDay, Plus, InDay, Amount, ValidRecord;
    if records != map[] {
      var id :| id in records && SumOf(records, day, f)
        == (if InDay(records[id].started, day) then Amount(records[id], f) else 0) + SumOf(records - {id}, day, f);
      TotalPick(records, id, day);
      FieldOfDay(records[id], day, f);
      FieldPlus(OfDay(records[id], day), Total(records - {id}, day), f);
      TotalIsSum(records - {id}, day, f);
    }
  }

  /** Rolling up adds, per day and field, exactly the sum of the records of that day. */
  lemma {:induction false} FoldedIsSum(a: Aggregates, batch: Records, day: nat, f: Field)
    requires AllValid(batch)
    ensures CounterOf(Get(Folded(a, batch), day), f) == CounterOf(Get(a, day), f) + SumOf(batch, day, f)
  {
    hide Total, Plus, Folded;
    FoldedGet(a, batch, day);
    FieldPlus(Get(a, day), Total(batch, day), f);
    TotalIsSum(batch, day, f);
  }
}
