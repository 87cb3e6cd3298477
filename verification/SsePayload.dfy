/**
  Exactly which payloads survive being put into an event: those without an LF and without a
  CR at the end.
 */
module SsePayload {
  import opened Wrappers
  import opened SseLines
  import opened SseRewrite

  /** The bytes of lines, counting their LFs. */
  function Size(lines: seq<Bytes>): nat {
    if lines == [] then 0 else |lines[0]| + 1 + Size(lines[1..])
  }

  lemma {:induction false} JoinSize(parts: seq<Bytes>)
    requires parts != []
    ensures |JoinLF(parts)| + 1 == Size(parts)
  {
    if |parts| > 1 { JoinSize(parts[1..]); }
  }

  lemma {:induction false} SplitSize(s: Bytes)
    ensures Size(SplitLF(s)) == |s| + 1
    decreases |s|
  {
    var i := IndexLF(s);
    if i == |s| {
      assert [s][1..] == [];
    } else {
      SplitSize(s[i + 1..]);
      assert ([s[..i]] + SplitLF(s[i + 1..]))[1..] == SplitLF(s[i + 1..]);
    }
  }

  /** Reading values off lines loses at least a byte per line. */
  lemma {:induction false} ValuesAreSmaller(lines: seq<Bytes>)
    ensures Size(DataValues(lines)) + |lines| <= Size(lines)
  {
    if lines != [] {
      ValuesAreSmaller(lines[1..]);
      if IsData(lines[0]) {
        assert |ValueOf(lines[0])| + 1 <= |lines[0]|;
        assert ([ValueOf(lines[0])] + DataValues(lines[1..]))[1..] == DataValues(lines[1..]);
      }
      hide IsData;
    }
  }

  /** All lines split further, where they contain LFs. */
  function Flat(lines: seq<Bytes>): seq<Bytes> {
    if lines == [] then [] else SplitLF(lines[0]) + Flat(lines[1..])
  }

  lemma {:induction false} SplitFlat(lines: seq<Bytes>, t: Bytes)
    ensures SplitLF(Unlines(lines) + t) == Flat(lines) + SplitLF(t)
  {
    hide SplitLF, IndexLF;
    if lines == [] {
      assert Unlines(lines) + t == t;
    } else {
      hide Unlines;
      var tail := Unlines(lines[1..]) + t;
      UnlinesFirst(lines, t);
      SplitAt(lines[0], tail);
      SplitFlat(lines[1..], t);
      assert SplitLF(lines[0]) + (Flat(lines[1..]) + SplitLF(t)) == Flat(lines) + SplitLF(t);
    }
  }

  /** The values of the replaced lines are those that the new data line splits into. */
  lemma {:induction false} FlatValues(lines: seq<Bytes>, data: Bytes, inserted: bool)
    requires NoLF(lines)
    ensures DataValues(Flat(ReplaceLines(lines, data, inserted))) ==
            if inserted || DataValues(lines) == [] then [] else DataValues(SplitLF(DATA_SPACE + data))
    decreases |lines|
  {
    hide IsData, SplitLF, ValueOf;
    if lines != [] {
      var line, rest := lines[0], lines[1..];
      FlatValues(rest, data, inserted || IsData(line));
      var more := ReplaceLines(rest, data, inserted || IsData(line));
      if IsData(line) {
        FlatFirst(DATA_SPACE + data, more);
      } else {
        SplitSingle(line);
        FlatFirst(line, more);
        assert [line][1..] == [];
        assert DataValues([line]) == [];
      }
    }
  }

  lemma {:induction false} FlatFirst(line: Bytes, more: seq<Bytes>)
    ensures DataValues(Flat([line] + more)) == DataValues(SplitLF(line)) + DataValues(Flat(more))
  {
    assert ([line] + more)[1..] == more;
    DataValuesAppend(SplitLF(line), Flat(more));
  }

  lemma {:induction false} SplitPrefix(p: Bytes, s: Bytes)
    requires LF !in p
    ensures SplitLF(p + s) == [p + SplitLF(s)[0]] + SplitLF(s)[1..]
  {
    hide SplitLF;
    var i := IndexLF(s);
    hide IndexLF;
    if i < |s| {
      PrefixFirst(p, s, i);
      SplitUnfold(s, i);
      SplitUnfold(p + s, |p| + i);
    } else {
      assert s[..i] == s;
      SplitSingle(s);
      SplitSingle(p + s);
    }
  }

  lemma PrefixFirst(p: Bytes, s: Bytes, i: nat)
    requires i < |s|
    ensures (p + s)[..|p| + i] == p + s[..i] && (p + s)[|p| + i] == s[i]
    ensures (p + s)[|p| + i + 1..] == s[i + 1..]
  {
  }

  /** What eventData reads from a rewritten event. */
  lemma {:induction false} RewrittenPayload(event: Bytes, data: Bytes)
    requires PayloadOf(event).Some?
    ensures
      var pieces := SplitLF(data);
      PayloadOf(ReplaceData(event, data)) == Some(JoinLF([ValueOf(DATA_SPACE + pieces[0])] + DataValues(pieces[1..])))
  {
    hide SplitLF, IsData, ValueOf, Flat, ReplaceLines, Tail, IsBlank, DataValues;
    var lines := SplitLF(event);
    var kept, tail := ReplaceLines(lines, data, false), Tail(lines, data);
    SplitNoLF(event);
    FlatValues(lines, data, false);
    SplitTail(lines, data);
    BlanksStay(SplitLF(tail), data, false);
    ReplacedIs(event, data);
    SplitFlat(kept, tail);
    DataValuesAppend(Flat(kept), SplitLF(tail));
    FirstPiece(data);
    var values := DataValues(SplitLF(DATA_SPACE + data));
    assert values + [] == values;
  }

  lemma {:induction false} ReplacedIs(event: Bytes, data: Bytes)
    ensures ReplaceData(event, data) == Unlines(ReplaceLines(SplitLF(event), data, false)) + Tail(SplitLF(event), data)
  {
    hide SplitLF, ReplaceLines, Unlines;
    var s := Unlines(ReplaceLines(SplitLF(event), data, false));
    assert s + [] == s;
  }

  lemma {:induction false} FirstPiece(data: Bytes)
    ensures
      var pieces := SplitLF(data);
      DataValues(SplitLF(DATA_SPACE + data)) == [ValueOf(DATA_SPACE + pieces[0])] + DataValues(pieces[1..])
  {
    var pieces := SplitLF(data);
    SplitPrefix(DATA_SPACE, data);
    NewLine(pieces[0]);
    hide SplitLF, IsData, ValueOf;
    var first := DATA_SPACE + pieces[0];
    assert ([first] + pieces[1..])[1..] == pieces[1..];
  }

  /** A payload put into an event is read back unchanged exactly when it contains no LF and
      does not end in CR. */
  lemma PayloadSurvivesIff(event: Bytes, data: Bytes)
    requires PayloadOf(event).Some?
    ensures PayloadOf(ReplaceData(event, data)) == Some(data) <==> Clean(data)
  {
    RewrittenPayload(event, data);
    var pieces := SplitLF(data);
    var values := [ValueOf(DATA_SPACE + pieces[0])] + DataValues(pieces[1..]);
    NewLine(pieces[0]);
    OnePieceIff(data);
    hide SplitLF, IndexLF, ReplaceData, PayloadOf, IsData, IsBlank, ValueOf;
    if |pieces| == 1 {
      assert DataValues(pieces[1..]) == [];
      assert JoinLF(values) == values[0];
    } else {
      MorePiecesShrink(data);
    }
  }

  /** Of more pieces than one less comes back. */
  lemma {:induction false} MorePiecesShrink(data: Bytes)
    requires |SplitLF(data)| > 1
    ensures
      var pieces := SplitLF(data);
      |JoinLF([ValueOf(DATA_SPACE + pieces[0])] + DataValues(pieces[1..]))| < |data|
  {
    var pieces := SplitLF(data);
    var values := [ValueOf(DATA_SPACE + pieces[0])] + DataValues(pieces[1..]);
    NewLine(pieces[0]);
    SplitSize(data);
    ValuesAreSmaller(pieces[1..]);
    JoinSize(values);
    hide SplitLF, IsData, IsBlank, ValueOf;
    assert values[1..] == DataValues(pieces[1..]);
  }

  lemma {:induction false} OnePieceIff(data: Bytes)
    ensures |SplitLF(data)| == 1 <==> LF !in data
    ensures |SplitLF(data)| == 1 ==> SplitLF(data)[0] == data
  {
    var i := IndexLF(data);
    if i == |data| { assert data[..i] == data; }
  }
}
