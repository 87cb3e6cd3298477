/**
  Bytes, lines, and the reference reading of an event stream (sections 9.2.5 and 9.2.6 of the
  WHATWG HTML standard, for streams whose lines end in LF or CRLF): a blank line ends an event,
  the values of its data lines are joined by LF.
 */
module SseLines {
  import opened Wrappers

  newtype byte = x: int | 0 <= x < 256

  type Bytes = seq<byte>

  const LF: byte := 10
  const CR: byte := 13
  const SPACE: byte := 32

  /** "data:" */
  const DATA: Bytes := [100, 97, 116, 97, 58]

  function IndexLF(s: Bytes): (i: nat)
    ensures i <= |s| && LF !in s[..i] && (i < |s| ==> s[i] == LF)
  {
    if s == [] || s[0] == LF then 0
    else
      var i := IndexLF(s[1..]);
      assert s[..i + 1] == [s[0]] + s[1..][..i];
      i + 1
  }

  /** The pieces between LFs; a final LF leaves an empty last piece. */
  function SplitLF(s: Bytes): (lines: seq<Bytes>)
    ensures lines != []
    decreases |s|
  {
    var i := IndexLF(s);
    if i == |s| then [s] else [s[..i]] + SplitLF(s[i + 1..])
  }

  /** Every line with an LF after it. */
  function Unlines(lines: seq<Bytes>): Bytes {
    if lines == [] then [] else lines[0] + [LF] + Unlines(lines[1..])
  }

  function JoinLF(parts: seq<Bytes>): Bytes {
    if parts == [] then []
    else if |parts| == 1 then parts[0]
    else parts[0] + [LF] + JoinLF(parts[1..])
  }

  function Concat(parts: seq<Bytes>): Bytes {
    if parts == [] then [] else parts[0] + Concat(parts[1..])
  }

  predicate HasPrefix(s: Bytes, p: Bytes) {
    |p| <= |s| && s[..|p|] == p
  }

  function TrimCR(line: Bytes): Bytes {
    if line != [] && line[|line| - 1] == CR then line[..|line| - 1] else line
  }

  predicate IsBlank(line: Bytes) {
    TrimCR(line) == []
  }

  predicate IsData(line: Bytes) {
    HasPrefix(TrimCR(line), DATA)
  }

  /** The value of a data line: one space after the colon is not part of it. */
  function ValueOf(line: Bytes): Bytes
    requires IsData(line)
  {
    var value := TrimCR(line)[|DATA|..];
    if value != [] && value[0] == SPACE then value[1..] else value
  }

  // ---------- splitting ----------

  lemma Associative<T>(a: seq<T>, b: seq<T>, c: seq<T>)
    ensures (a + b) + c == a + (b + c)
  {
  }

  lemma NotBefore(s: Bytes, n: nat, k: nat)
    requires k < n <= |s| && LF !in s[..n]
    ensures s[k] != LF
  {
    assert s[..n][k] in s[..n];
  }

  lemma {:induction false} IndexAt(s: Bytes, i: nat)
    requires i < |s| && s[i] == LF && LF !in s[..i]
    ensures IndexLF(s) == i
  {
    var j := IndexLF(s);
    forall k | 0 <= k < i ensures s[k] != LF { NotBefore(s, i, k); }
    forall k | 0 <= k < j ensures s[k] != LF { NotBefore(s, j, k); }
  }

  lemma {:induction false} IndexNone(s: Bytes)
    requires LF !in s
    ensures IndexLF(s) == |s|
  {
  }

  lemma {:induction false} SplitUnfold(s: Bytes, i: nat)
    requires i < |s| && s[i] == LF && LF !in s[..i]
    ensures SplitLF(s) == [s[..i]] + SplitLF(s[i + 1..])
  {
    hide IndexLF;
    IndexAt(s, i);
  }

  lemma {:induction false} SplitSingle(s: Bytes)
    requires LF !in s
    ensures SplitLF(s) == [s]
  {
    hide IndexLF;
    IndexNone(s);
  }

  /** The first line of `a` is the first line of what starts with `a`. */
  lemma FirstLine(a: Bytes, b: Bytes, i: nat)
    requires i < |a|
    ensures (a + [LF] + b)[..i] == a[..i] && (a + [LF] + b)[i] == a[i]
    ensures (a + [LF] + b)[i + 1..] == a[i + 1..] + [LF] + b
  {
  }

  lemma FirstOnly(a: Bytes, b: Bytes)
    ensures (a + [LF] + b)[..|a|] == a && (a + [LF] + b)[|a|] == LF && (a + [LF] + b)[|a| + 1..] == b
  {
  }

  /** Splitting at an LF splits both sides on their own. */
  lemma {:induction false} SplitAt(a: Bytes, b: Bytes)
    ensures SplitLF(a + [LF] + b) == SplitLF(a) + SplitLF(b)
    decreases |a|
  {
    hide SplitLF;
    var i := IndexLF(a);
    hide IndexLF;
    if i == |a| {
      assert a[..i] == a;
      SplitSingle(a);
      FirstOnly(a, b);
      SplitUnfold(a + [LF] + b, |a|);
    } else {
      var t := a[i + 1..];
      FirstLine(a, b, i);
      SplitUnfold(a, i);
      SplitUnfold(a + [LF] + b, i);
      SplitAt(t, b);
      assert [a[..i]] + (SplitLF(t) + SplitLF(b)) == ([a[..i]] + SplitLF(t)) + SplitLF(b);
    }
  }

  predicate NoLF(lines: seq<Bytes>) {
    forall line <- lines :: LF !in line
  }

  lemma {:induction false} UnlinesFirst(lines: seq<Bytes>, t: Bytes)
    requires lines != []
    ensures Unlines(lines) + t == lines[0] + [LF] + (Unlines(lines[1..]) + t)
  {
  }

  lemma {:induction false} SplitUnlines(lines: seq<Bytes>, t: Bytes)
    requires NoLF(lines)
    ensures SplitLF(Unlines(lines) + t) == lines + SplitLF(t)
  {
    hide SplitLF, IndexLF;
    if lines == [] {
      assert Unlines(lines) + t == t;
    } else {
      var first, rest := lines[0], lines[1..];
      hide Unlines;
      SplitSingle(first);
      UnlinesFirst(lines, t);
      var tail := Unlines(rest) + t;
      SplitAt(first, tail);
      SplitUnlines(rest, t);
      assert [first] + (rest + SplitLF(t)) == lines + SplitLF(t);
    }
  }

  lemma {:induction false} SplitNoLF(s: Bytes)
    ensures NoLF(SplitLF(s))
    decreases |s|
  {
    hide IndexLF;
    var i := IndexLF(s);
    if i == |s| {
      assert s[..i] == s;
      assert SplitLF(s) == [s];
    } else {
      var rest := SplitLF(s[i + 1..]);
      SplitNoLF(s[i + 1..]);
      assert SplitLF(s) == [s[..i]] + rest;
      hide SplitLF;
      forall line <- [s[..i]] + rest ensures LF !in line {
        assert line == s[..i] || line in rest;
      }
    }
  }

  lemma {:induction false} UnlinesAppend(a: seq<Bytes>, b: seq<Bytes>)
    ensures Unlines(a + b) == Unlines(a) + Unlines(b)
  {
    if a == [] {
      assert a + b == b;
    } else {
      UnlinesAppend(a[1..], b);
      assert (a + b)[1..] == a[1..] + b && (a + b)[0] == a[0];
    }
  }

  // ---------- reading events ----------

  /** What an event says: its payload, if it has data lines, and its other lines in order. */
  datatype Event = Event(data: Option<Bytes>, others: seq<Bytes>)

  /** An event being read. */
  datatype View = View(values: seq<Bytes>, others: seq<Bytes>)

  const NOTHING: View := View([], [])

  function Feed(v: View, line: Bytes): View {
    if IsData(line) then v.(values := v.values + [ValueOf(line)]) else v.(others := v.others + [line])
  }

  function FeedAll(v: View, lines: seq<Bytes>): View
    decreases |lines|
  {
    if lines == [] then v else FeedAll(Feed(v, lines[0]), lines[1..])
  }

  function Meaning(v: View): Event {
    Event(if v.values == [] then None else Some(JoinLF(v.values)), v.others)
  }

  /** The event read so far, unless it has no lines. */
  function Flush(v: View): seq<Event> {
    if v == NOTHING then [] else [Meaning(v)]
  }

  function ReadLines(v: View, lines: seq<Bytes>): seq<Event>
    decreases |lines|
  {
    if lines == [] then Flush(v)
    else if IsBlank(lines[0]) then Flush(v) + ReadLines(NOTHING, lines[1..])
    else ReadLines(Feed(v, lines[0]), lines[1..])
  }

  /** The events of a stream, without empty ones. */
  function Events(s: Bytes): seq<Event> {
    ReadLines(NOTHING, SplitLF(s))
  }

  lemma FlushAppend(v: View, a: seq<Event>, b: seq<Event>)
    ensures Flush(v) + (a + b) == (Flush(v) + a) + b
  {
    hide Flush;
  }

  /** After a blank line reading starts afresh. */
  lemma {:induction false} ReadAppend(v: View, a: seq<Bytes>, b: seq<Bytes>)
    requires a != [] && IsBlank(a[|a| - 1])
    ensures ReadLines(v, a + b) == ReadLines(v, a) + ReadLines(NOTHING, b)
    decreases |a|
  {
    hide IsBlank, Feed, Flush;
    var rest := a[1..];
    assert (a + b)[1..] == rest + b && (a + b)[0] == a[0];
    if |a| == 1 {
      assert rest + b == b;
      ReadEnd(NOTHING);
      FlushAppend(v, ReadLines(NOTHING, rest), ReadLines(NOTHING, b));
    } else if IsBlank(a[0]) {
      ReadAppend(NOTHING, rest, b);
      FlushAppend(v, ReadLines(NOTHING, rest), ReadLines(NOTHING, b));
    } else {
      ReadAppend(Feed(v, a[0]), rest, b);
    }
  }

  lemma {:induction false} ReadEnd(v: View)
    ensures ReadLines(v, []) == Flush(v) && Flush(NOTHING) == []
  {
  }

  predicate AllBlank(lines: seq<Bytes>) {
    forall line <- lines :: IsBlank(line)
  }

  predicate NoneBlank(lines: seq<Bytes>) {
    forall line <- lines :: !IsBlank(line)
  }

  lemma {:induction false} ReadBlanks(lines: seq<Bytes>)
    requires AllBlank(lines)
    ensures ReadLines(NOTHING, lines) == []
  {
    if lines != [] { ReadBlanks(lines[1..]); }
  }

  /** Non-blank lines and then blank lines are one event, or none. */
  lemma {:induction false} ReadOne(v: View, lines: seq<Bytes>, blanks: seq<Bytes>)
    requires NoneBlank(lines) && AllBlank(blanks)
    ensures ReadLines(v, lines + blanks) == Flush(FeedAll(v, lines))
    decreases |lines|
  {
    if lines == [] {
      assert lines + blanks == blanks;
      if blanks != [] { ReadBlanks(blanks[1..]); }
    } else {
      assert (lines + blanks)[1..] == lines[1..] + blanks;
      ReadOne(Feed(v, lines[0]), lines[1..], blanks);
    }
  }

  /** The stream ends in an LF that ends a blank line. */
  predicate Closed(s: Bytes) {
    s != [] && s[|s| - 1] == LF
    && var lines := SplitLF(s[..|s| - 1]);
       IsBlank(lines[|lines| - 1])
  }

  lemma SplitNothing()
    ensures SplitLF([]) == [[]]
  {
  }

  lemma {:induction false} EventsAfterLF(u: Bytes, t: Bytes)
    requires IsBlank(SplitLF(u)[|SplitLF(u)| - 1])
    ensures Events(u + [LF] + t) == ReadLines(NOTHING, SplitLF(u)) + Events(t)
  {
    SplitAt(u, t);
    ReadAppend(NOTHING, SplitLF(u), SplitLF(t));
    hide SplitLF, ReadLines, IsBlank;
  }

  lemma EventsNothing()
    ensures Events([]) == []
  {
    SplitNothing();
    ReadBlanks([[]]);
  }

  lemma LastLF(s: Bytes, t: Bytes)
    requires s != [] && s[|s| - 1] == LF
    ensures s == s[..|s| - 1] + [LF] + [] && s + t == s[..|s| - 1] + [LF] + t
  {
  }

  /** Events after a blank line do not depend on what came before. */
  lemma EventsAppend(s: Bytes, t: Bytes)
    requires Closed(s)
    ensures Events(s + t) == Events(s) + Events(t)
  {
    hide Events, SplitLF, ReadLines, IsBlank;
    EventsNothing();
    LastLF(s, t);
    EventsAfterLF(s[..|s| - 1], t);
    EventsAfterLF(s[..|s| - 1], []);
  }
}
