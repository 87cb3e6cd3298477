/**
  Taking the payload out of one event and putting another one in.
 */
module SseRewrite {
  import opened Wrappers
  import opened SseLines

  /** "data: " */
  const DATA_SPACE: Bytes := [100, 97, 116, 97, 58, 32]

  // ---------- as functions ----------

  function DataValues(lines: seq<Bytes>): seq<Bytes> {
    if lines == [] then []
    else if IsData(lines[0]) then [ValueOf(lines[0])] + DataValues(lines[1..])
    else DataValues(lines[1..])
  }

  function OtherLines(lines: seq<Bytes>): seq<Bytes> {
    if lines == [] then []
    else if IsData(lines[0]) then OtherLines(lines[1..])
    else [lines[0]] + OtherLines(lines[1..])
  }

  function PayloadOf(event: Bytes): Option<Bytes> {
    var values := DataValues(SplitLF(event));
    if values == [] then None else Some(JoinLF(values))
  }

  /** The first data line becomes the new payload, the others go. */
  function ReplaceLines(lines: seq<Bytes>, data: Bytes, inserted: bool): seq<Bytes>
    decreases |lines|
  {
    if lines == [] then []
    else if IsData(lines[0]) then
      if inserted then ReplaceLines(lines[1..], data, true)
      else [DATA_SPACE + data] + ReplaceLines(lines[1..], data, true)
    else [lines[0]] + ReplaceLines(lines[1..], data, inserted)
  }

  predicate EndsBlank(s: Bytes) {
    |s| >= 2 && s[|s| - 2] == LF && s[|s| - 1] == LF
  }

  function ReplaceData(event: Bytes, data: Bytes): Bytes {
    var result := Unlines(ReplaceLines(SplitLF(event), data, false));
    if EndsBlank(result) then result else result + [LF]
  }

  // ---------- as loops ----------

  lemma {:induction false} DataValuesAppend(a: seq<Bytes>, b: seq<Bytes>)
    ensures DataValues(a + b) == DataValues(a) + DataValues(b)
  {
    hide IsData, ValueOf;
    if a == [] {
      assert a + b == b;
    } else {
      DataValuesAppend(a[1..], b);
      assert (a + b)[1..] == a[1..] + b;
    }
  }

  predicate HasData(lines: seq<Bytes>) {
    exists line <- lines :: IsData(line)
  }

  lemma HasDataFirst(a: seq<Bytes>)
    requires a != []
    ensures HasData(a) <==> IsData(a[0]) || HasData(a[1..])
  {
    hide IsData;
    assert a == [a[0]] + a[1..];
  }

  lemma {:induction false} ReplaceAppend(a: seq<Bytes>, b: seq<Bytes>, data: Bytes, inserted: bool)
    ensures ReplaceLines(a + b, data, inserted)
         == ReplaceLines(a, data, inserted) + ReplaceLines(b, data, inserted || HasData(a))
    decreases |a|
  {
    hide IsData;
    if a == [] {
      assert a + b == b;
    } else {
      assert (a + b)[1..] == a[1..] + b;
      HasDataFirst(a);
      hide HasData;
      ReplaceAppend(a[1..], b, data, inserted || IsData(a[0]));
    }
  }

  method EventData(event: Bytes) returns (data: Option<Bytes>)
    ensures data == PayloadOf(event)
  {
    var lines := SplitLF(event);
    var values: seq<Bytes> := [];
    for i := 0 to |lines|
      invariant values == DataValues(lines[..i])
    {
      DataValuesAppend(lines[..i], [lines[i]]);
      assert lines[..i + 1] == lines[..i] + [lines[i]];
      var line := TrimCR(lines[i]);
      if !HasPrefix(line, DATA) { continue; }
      var value := line[|DATA|..];
      if HasPrefix(value, [SPACE]) { value := value[1..]; }
      values := values + [value];
    }
    assert lines[..|lines|] == lines;
    if |values| == 0 { return None; }
    return Some(JoinLF(values));
  }

  function TrimRightLF(s: Bytes): Bytes {
    if s != [] && s[|s| - 1] == LF then TrimRightLF(s[..|s| - 1]) else s
  }

  lemma {:induction false} UnlinesEnd(lines: seq<Bytes>)
    requires lines != []
    ensures Unlines(lines) != [] && Unlines(lines)[|Unlines(lines)| - 1] == LF
  {
    if |lines| > 1 {
      UnlinesEnd(lines[1..]);
    } else {
      assert Unlines(lines[1..]) == [];
    }
  }

  lemma {:induction false} UnlinesNext(lines: seq<Bytes>, line: Bytes)
    ensures Unlines(lines + [line]) == Unlines(lines) + line + [LF]
  {
    UnlinesAppend(lines, [line]);
    assert Unlines([line]) == line + [LF] + Unlines([line][1..]);
  }

  /** A result that ends in one LF gets another. */
  lemma {:induction false} OneLF(s: Bytes)
    requires s != [] && s[|s| - 1] == LF && !EndsBlank(s)
    ensures TrimRightLF(s) + [LF, LF] == s + [LF]
  {
    assert TrimRightLF(s) == TrimRightLF(s[..|s| - 1]) == s[..|s| - 1];
  }

  lemma {:induction false} ReplacedNotEmpty(lines: seq<Bytes>, data: Bytes, inserted: bool)
    requires lines != [] && (inserted ==> exists line <- lines :: !IsData(line))
    ensures ReplaceLines(lines, data, inserted) != []
    decreases |lines|
  {
    if inserted && IsData(lines[0]) {
      var line :| line in lines && !IsData(line);
      assert line in lines[1..];
      ReplacedNotEmpty(lines[1..], data, inserted);
    }
  }

  lemma {:induction false} NothingReplaced(data: Bytes)
    ensures Unlines(ReplaceLines([], data, false)) == []
  {
  }

  lemma {:induction false} ReplacedCloses(lines: seq<Bytes>, data: Bytes)
    requires lines != [] && !EndsBlank(Unlines(ReplaceLines(lines, data, false)))
    ensures
      var result := Unlines(ReplaceLines(lines, data, false));
      TrimRightLF(result) + [LF, LF] == result + [LF]
  {
    hide ReplaceLines, Unlines, TrimRightLF;
    ReplacedNotEmpty(lines, data, false);
    UnlinesEnd(ReplaceLines(lines, data, false));
    OneLF(Unlines(ReplaceLines(lines, data, false)));
  }

  method ReplaceEventData(event: Bytes, data: Bytes) returns (result: Bytes)
    ensures result == ReplaceData(event, data)
  {
    hide IsData, SplitLF, ReplaceLines, Unlines, TrimRightLF;
    var lines := SplitLF(event);
    result := [];
    var inserted := false;
    NothingReplaced(data);
    for i := 0 to |lines|
      invariant result == Unlines(ReplaceLines(lines[..i], data, false))
      invariant inserted <==> HasData(lines[..i])
    {
      var rawLine := lines[i];
      ReplaceNext(lines, i, data, inserted);
      UnlinesNext(ReplaceLines(lines[..i], data, false), DATA_SPACE + data);
      UnlinesNext(ReplaceLines(lines[..i], data, false), rawLine);
      if IsData(rawLine) {
        if !inserted {
          result := result + DATA_SPACE;
          result := result + data;
          result := result + [LF];
          inserted := true;
        }
        continue;
      }
      if |rawLine| == 0 && |result| > 0 && result[|result| - 1] == LF {
        result := result + [LF];
        continue;
      }
      result := result + rawLine;
      result := result + [LF];
    }
    assert lines[..|lines|] == lines;
    if !EndsBlank(result) {
      ReplacedCloses(lines, data);
      result := TrimRightLF(result);
      result := result + [LF, LF];
    }
  }

  lemma {:induction false} ReplaceNext(lines: seq<Bytes>, i: nat, data: Bytes, inserted: bool)
    requires i < |lines| && (inserted <==> HasData(lines[..i]))
    ensures HasData(lines[..i + 1]) <==> inserted || IsData(lines[i])
    ensures
      var before := ReplaceLines(lines[..i], data, false);
      ReplaceLines(lines[..i + 1], data, false) ==
        if !IsData(lines[i]) then before + [lines[i]]
        else if inserted then before else before + [DATA_SPACE + data]
  {
    assert lines[..i + 1] == lines[..i] + [lines[i]];
    ReplaceAppend(lines[..i], [lines[i]], data, false);
    assert lines[i] in lines[..i + 1];
    if inserted {
      var line :| line in lines[..i] && IsData(line);
      assert line in lines[..i + 1];
    }
    hide IsData;
    assert ReplaceLines([lines[i]][1..], data, true) == [];
  }

  // ---------- what the new event says ----------

  /** A payload that fits on one data line and comes back unchanged. */
  predicate Clean(data: Bytes) {
    LF !in data && (data == [] || data[|data| - 1] != CR)
  }

  lemma {:induction false} FeedSorts(v: View, lines: seq<Bytes>)
    ensures FeedAll(v, lines) == View(v.values + DataValues(lines), v.others + OtherLines(lines))
    decreases |lines|
  {
    hide IsData, ValueOf;
    if lines == [] {
      assert v.values + [] == v.values && v.others + [] == v.others;
    } else {
      var line, rest := lines[0], lines[1..];
      FeedSorts(Feed(v, line), rest);
      if IsData(line) {
        Associative(v.values, [ValueOf(line)], DataValues(rest));
      } else {
        Associative(v.others, [line], OtherLines(rest));
      }
    }
  }

  lemma BlankIsNoData(line: Bytes)
    requires IsBlank(line)
    ensures !IsData(line)
  {
  }

  lemma {:induction false} BlanksStay(lines: seq<Bytes>, data: Bytes, inserted: bool)
    requires AllBlank(lines)
    ensures ReplaceLines(lines, data, inserted) == lines && DataValues(lines) == []
  {
    if lines != [] {
      BlankIsNoData(lines[0]);
      hide IsData, IsBlank;
      BlanksStay(lines[1..], data, inserted);
      assert lines == [lines[0]] + lines[1..];
    }
  }

  /** The new data line reads back as the payload, unless that ends in CR. */
  lemma NewLine(data: Bytes)
    ensures IsData(DATA_SPACE + data) && !IsBlank(DATA_SPACE + data)
    ensures ValueOf(DATA_SPACE + data) == if data != [] && data[|data| - 1] == CR then data[..|data| - 1] else data
  {
    var line := DATA_SPACE + data;
    assert line[..5] == DATA;
    assert TrimCR(line)[..5] == DATA;
    assert TrimCR(line)[5] == SPACE;
    assert TrimCR(line)[5..][1..] == TrimCR(line)[6..];
    assert TrimCR(line)[6..] == if data != [] && data[|data| - 1] == CR then data[..|data| - 1] else data;
  }

  lemma {:induction false} ReplacedSorts(lines: seq<Bytes>, data: Bytes, inserted: bool)
    requires NoneBlank(lines)
    ensures NoneBlank(ReplaceLines(lines, data, inserted))
    ensures OtherLines(ReplaceLines(lines, data, inserted)) == OtherLines(lines)
    ensures DataValues(ReplaceLines(lines, data, inserted)) ==
            if !inserted && DataValues(lines) != [] then [ValueOf(DATA_SPACE + data)] else []
    decreases |lines|
  {
    NewLine(data);
    hide IsData, IsBlank, ValueOf;
    if lines != [] {
      var rest := lines[1..];
      ReplacedSorts(rest, data, inserted || IsData(lines[0]));
      var more := ReplaceLines(rest, data, inserted || IsData(lines[0]));
      assert ([DATA_SPACE + data] + more)[1..] == more;
      assert ([lines[0]] + more)[1..] == more;
    }
  }

  lemma {:induction false} ReplacedNoLF(lines: seq<Bytes>, data: Bytes, inserted: bool)
    requires NoLF(lines) && LF !in data
    ensures NoLF(ReplaceLines(lines, data, inserted))
    decreases |lines|
  {
    hide IsData;
    if lines != [] { ReplacedNoLF(lines[1..], data, inserted || IsData(lines[0])); }
  }

  /** The bytes after the replaced lines: nothing, or one more LF. */
  function Tail(lines: seq<Bytes>, data: Bytes): Bytes {
    if EndsBlank(Unlines(ReplaceLines(lines, data, false))) then [] else [LF]
  }

  lemma SplitTail(lines: seq<Bytes>, data: Bytes)
    ensures SplitLF(Tail(lines, data)) == if Tail(lines, data) == [] then [[]] else [[], []]
    ensures AllBlank(SplitLF(Tail(lines, data)))
  {
    assert SplitLF([]) == [[]];
    assert [LF] == [] + [LF] + [];
    SplitAt([], []);
    assert IsBlank([]);
  }

  lemma {:induction false} ReplacedSplits(event: Bytes, data: Bytes)
    requires LF !in data
    ensures
      var lines := SplitLF(event);
      SplitLF(ReplaceData(event, data)) == ReplaceLines(lines, data, false) + SplitLF(Tail(lines, data))
  {
    var lines := SplitLF(event);
    SplitNoLF(event);
    ReplacedNoLF(lines, data, false);
    var kept := ReplaceLines(lines, data, false);
    assert ReplaceData(event, data) == Unlines(kept) + Tail(lines, data);
    hide SplitLF, Tail, ReplaceLines;
    SplitUnlines(kept, Tail(lines, data));
  }

  /** Non-blank lines followed by blank ones: one event. */
  ghost predicate OneEvent(event: Bytes, lines: seq<Bytes>, blanks: seq<Bytes>) {
    SplitLF(event) == lines + blanks && NoneBlank(lines) && AllBlank(blanks)
  }

  lemma {:induction false} EventReads(event: Bytes, lines: seq<Bytes>, blanks: seq<Bytes>)
    requires OneEvent(event, lines, blanks)
    ensures PayloadOf(event) == if DataValues(lines) == [] then None else Some(JoinLF(DataValues(lines)))
    ensures Events(event) == if lines == [] then [] else [Event(PayloadOf(event), OtherLines(lines))]
  {
    DataValuesAppend(lines, blanks);
    BlanksStay(blanks, [], false);
    ReadOne(NOTHING, lines, blanks);
    FeedSorts(NOTHING, lines);
    SortsSomething(lines);
    hide SplitLF, IsData, IsBlank, DataValues, OtherLines, ReadLines, FeedAll;
    assert DataValues(lines) + [] == DataValues(lines);
    assert [] + DataValues(lines) == DataValues(lines);
    assert [] + OtherLines(lines) == OtherLines(lines);
  }

  lemma {:induction false} SortsSomething(lines: seq<Bytes>)
    ensures DataValues(lines) == [] && OtherLines(lines) == [] <==> lines == []
  {
    hide IsData, ValueOf;
  }

  /** Rewriting one event with a clean payload changes its payload and nothing else. */
  lemma {:induction false} RewrittenReads(event: Bytes, lines: seq<Bytes>, blanks: seq<Bytes>, data: Bytes)
    requires OneEvent(event, lines, blanks) && PayloadOf(event).Some? && Clean(data)
    ensures Events(event) == [Event(PayloadOf(event), OtherLines(lines))]
    ensures Events(ReplaceData(event, data)) == [Event(Some(data), OtherLines(lines))]
  {
    hide IsData, IsBlank, DataValues, OtherLines, ReplaceLines, SplitLF, Events, Tail, ReplaceData, ValueOf;
    var result := ReplaceData(event, data);
    EventReads(event, lines, blanks);
    SomeData(lines);
    ReplacedSplits(event, data);
    SplitTail(lines + blanks, data);
    ReplaceAppend(lines, blanks, data, false);
    BlanksStay(blanks, data, HasData(lines));
    ReplacedSorts(lines, data, false);
    NewLine(data);
    var kept, tail := ReplaceLines(lines, data, false), SplitLF(Tail(lines + blanks, data));
    assert SplitLF(result) == kept + (blanks + tail);
    NewEventReads(result, kept, blanks + tail, data);
  }

  lemma {:induction false} SomeData(lines: seq<Bytes>)
    ensures DataValues(lines) != [] ==> lines != []
  {
  }

  lemma {:induction false} NewEventReads(result: Bytes, kept: seq<Bytes>, blanks: seq<Bytes>, data: Bytes)
    requires OneEvent(result, kept, blanks) && DataValues(kept) == [data]
    ensures Events(result) == [Event(Some(data), OtherLines(kept))]
  {
    EventReads(result, kept, blanks);
    assert JoinLF([data]) == data;
    assert kept != [];
  }

  lemma EndsBlankCloses(s: Bytes)
    requires EndsBlank(s)
    ensures Closed(s)
  {
    var u := s[..|s| - 1];
    var v := u[..|u| - 1];
    assert u == v + [LF] + [];
    SplitAt(v, []);
    SplitSingle([]);
    hide SplitLF;
    assert SplitLF(u)[|SplitLF(u)| - 1] == [];
  }

  /** A rewritten event always ends in a blank line. */
  lemma RewrittenCloses(event: Bytes, data: Bytes)
    ensures Closed(ReplaceData(event, data))
  {
    var kept := ReplaceLines(SplitLF(event), data, false);
    ReplacedNotEmpty(SplitLF(event), data, false);
    hide SplitLF, ReplaceLines, Closed;
    UnlinesEnd(kept);
    hide Unlines;
    EndsBlankCloses(ReplaceData(event, data));
  }
}
