/**
  The stream copier: fragments from a buffered reader are collected until a blank line, and
  every event is written, rewritten or not, before the next is read.
 */
module SseCopy {
  import opened Wrappers
  import opened SseLines
  import opened SseRewrite

  const BUFFER: nat := 32_768
  const MAX_EVENT: nat := 8_388_608

  /** "[DONE]" */
  const DONE: Bytes := [91, 68, 79, 78, 69, 93]

  // ---------- the reader ----------

  datatype Reading = LineRead | BufferFull | AtEnd

  /** ReadSlice: up to and including the next LF, a full buffer without one, or the rest. */
  function NextFragment(s: Bytes): (r: (Bytes, Bytes, Reading))
    ensures r.0 + r.1 == s
    ensures !r.2.AtEnd? ==> |r.1| < |s|
    ensures r.2.AtEnd? ==> r.1 == []
  {
    var window := if |s| <= BUFFER then s else s[..BUFFER];
    var i := IndexLF(window);
    if i < |window| then (s[..i + 1], s[i + 1..], LineRead)
    else if |s| >= BUFFER then (s[..BUFFER], s[BUFFER..], BufferFull)
    else (s, [], AtEnd)
  }

  predicate BlankLine(fragment: Bytes) {
    fragment == [LF] || fragment == [CR, LF]
  }

  class Reader {
    const src: Bytes
    var pos: nat

    ghost predicate Valid()
      reads this
    {
      pos <= |src|
    }

    ghost function Rest(): Bytes
      reads this
      requires Valid()
    {
      src[pos..]
    }

    constructor (src: Bytes)
      ensures Valid() && Rest() == src && this.src == src
    {
      this.src, pos := src, 0;
    }

    method ReadSlice() returns (fragment: Bytes, reading: Reading)
      requires Valid()
      modifies this
      ensures Valid() && (fragment, Rest(), reading) == NextFragment(old(Rest()))
    {
      var next := NextFragment(src[pos..]);
      pos := pos + |next.0|;
      return next.0, next.2;
    }
  }

  // ---------- one event ----------

  datatype Status = Done | TooLarge | RewriteFailed | SinkFailed | ReadFailed

  datatype Outcome = Outcome(written: Bytes, observed: seq<Bytes>, status: Status)

  type Rewriter = Option<Bytes -> Option<Bytes>>

  /** The UTF-8 encodings of the characters that Go counts as white space. */
  predicate IsSpaceRune(r: Bytes) {
    if |r| == 1 then r[0] == 32 || 9 <= r[0] <= 13
    else if |r| == 2 then r[0] == 0xC2 && (r[1] == 0x85 || r[1] == 0xA0)
    else if |r| == 3 then
      || r == [0xE1, 0x9A, 0x80] || r == [0xE2, 0x81, 0x9F] || r == [0xE3, 0x80, 0x80]
      || (r[0] == 0xE2 && r[1] == 0x80 && (0x80 <= r[2] <= 0x8A || r[2] == 0xA8 || r[2] == 0xA9 || r[2] == 0xAF))
    else false
  }

  /** The white space characters by code point, below 65536, which all of them are. */
  predicate WhiteSpace(c: nat) {
    || 0x9 <= c <= 0xD || c == 0x20 || c == 0x85 || c == 0xA0 || c == 0x1680 || 0x2000 <= c <= 0x200A
    || c == 0x2028 || c == 0x2029 || c == 0x202F || c == 0x205F || c == 0x3000
  }

  /** UTF-8 of a code point below 65536 (section 3 of RFC 3629). */
  function Utf8(c: nat): Bytes
    requires c < 0x1_0000
  {
    if c < 0x80 then [c as byte]
    else if c < 0x800 then [(0xC0 + c / 64) as byte, (0x80 + c % 64) as byte]
    else [(0xE0 + c / 4096) as byte, (0x80 + c / 64 % 64) as byte, (0x80 + c % 64) as byte]
  }

  predicate Encodes(r: Bytes, c: nat) {
    c < 0x1_0000 && r == Utf8(c)
  }

  /** The code point that two or three bytes stand for. */
  function CodePoint(r: Bytes): nat
    requires IsSpaceRune(r)
  {
    if |r| == 1 then r[0] as nat
    else if |r| == 2 then (r[0] as nat - 0xC0) * 64 + r[1] as nat - 0x80
    else (r[0] as nat - 0xE0) * 4096 + (r[1] as nat - 0x80) * 64 + r[2] as nat - 0x80
  }

  lemma RuneIsWhite(r: Bytes)
    requires IsSpaceRune(r)
    ensures WhiteSpace(CodePoint(r)) && Encodes(r, CodePoint(r))
  {
    var c := CodePoint(r);
    if |r| == 2 {
      assert c / 64 == 2 && c % 64 == r[1] as nat - 0x80;
    } else if |r| == 3 {
      assert c / 4096 == r[0] as nat - 0xE0 && c / 64 == 64 * (r[0] as nat - 0xE0) + r[1] as nat - 0x80;
      assert c % 64 == r[2] as nat - 0x80;
    }
  }

  lemma WhiteIsRune(c: nat)
    requires WhiteSpace(c)
    ensures IsSpaceRune(Utf8(c))
  {
    if c >= 0x800 { assert c / 4096 == (if c == 0x1680 then 1 else if c == 0x3000 then 3 else 2); }
    if 0x2000 <= c <= 0x203F { assert c / 64 == 0x80 && c % 64 == c - 0x2000; }
  }

  /** The table is the white space of Unicode in UTF-8, and nothing else. */
  lemma SpaceRunes(r: Bytes)
    ensures IsSpaceRune(r) <==> exists c: nat :: WhiteSpace(c) && Encodes(r, c)
  {
    hide IsSpaceRune, WhiteSpace, CodePoint;
    if IsSpaceRune(r) { RuneIsWhite(r); }
    if c: nat :| WhiteSpace(c) && Encodes(r, c) { WhiteIsRune(c); }
  }

  predicate SpaceFirst(s: Bytes, n: nat) {
    n <= |s| && IsSpaceRune(s[..n])
  }

  predicate SpaceLast(s: Bytes, n: nat) {
    n <= |s| && IsSpaceRune(s[|s| - n..])
  }

  /** The length of the space that `s` starts with, or 0. */
  function Lead(s: Bytes): (n: nat)
    ensures n > 0 ==> SpaceFirst(s, n)
  {
    if SpaceFirst(s, 1) then 1 else if SpaceFirst(s, 2) then 2 else if SpaceFirst(s, 3) then 3 else 0
  }

  /** The length of the space that `s` ends with, or 0. */
  function Trail(s: Bytes): (n: nat)
    ensures n > 0 ==> SpaceLast(s, n)
  {
    if SpaceLast(s, 1) then 1 else if SpaceLast(s, 2) then 2 else if SpaceLast(s, 3) then 3 else 0
  }

  function TrimSpace(s: Bytes): Bytes
    decreases |s|
  {
    if Lead(s) > 0 then TrimSpace(s[Lead(s)..])
    else if Trail(s) > 0 then TrimSpace(s[..|s| - Trail(s)])
    else s
  }

  predicate IsDone(data: Bytes) {
    TrimSpace(data) == DONE
  }

  predicate AllSpaces(runes: seq<Bytes>) {
    forall r <- runes :: IsSpaceRune(r)
  }

  /** No space is the start or the end of another one. */
  lemma SpacesAreApart(r: Bytes)
    requires IsSpaceRune(r)
    ensures 1 <= |r| <= 3
    ensures |r| > 1 ==> !IsSpaceRune(r[..1]) && !IsSpaceRune(r[|r| - 1..])
    ensures |r| > 2 ==> !IsSpaceRune(r[..2]) && !IsSpaceRune(r[1..])
  {
  }

  lemma PrefixOf(r: Bytes, rest: Bytes, n: nat)
    requires n <= |r|
    ensures (r + rest)[..n] == r[..n] && r[..|r|] == r
  {
  }

  lemma SuffixOf(rest: Bytes, r: Bytes, n: nat)
    requires n <= |r|
    ensures (rest + r)[|rest + r| - n..] == r[|r| - n..] && r[0..] == r
  {
  }

  lemma LeadIs(r: Bytes, rest: Bytes)
    requires IsSpaceRune(r)
    ensures Lead(r + rest) == |r| && (r + rest)[|r|..] == rest
  {
    hide IsSpaceRune;
    SpacesAreApart(r);
    PrefixOf(r, rest, 1);
    if |r| >= 2 { PrefixOf(r, rest, 2); }
    if |r| == 3 { PrefixOf(r, rest, 3); }
  }

  lemma TrailIs(rest: Bytes, r: Bytes)
    requires IsSpaceRune(r)
    ensures Trail(rest + r) == |r| && (rest + r)[..|rest + r| - |r|] == rest
  {
    hide IsSpaceRune;
    SpacesAreApart(r);
    SuffixOf(rest, r, 1);
    if |r| >= 2 { SuffixOf(rest, r, 2); }
    if |r| == 3 { SuffixOf(rest, r, 3); }
  }

  /** What starts with "[" or ends with "]" has no space there. */
  lemma BracketsStay(b: Bytes)
    ensures Lead(DONE + b) == 0 && Trail(DONE) == 0
  {
    var s := DONE + b;
    assert s[..1][0] == 91 && s[..2][0] == 91 && s[..3][0] == 91;
    assert DONE[5..] == [93] && DONE[4..] == [69, 93] && DONE[3..] == [78, 69, 93];
  }

  lemma {:induction false} ConcatLast(runes: seq<Bytes>, r: Bytes)
    ensures Concat(runes + [r]) == Concat(runes) + r
    decreases |runes|
  {
    if runes == [] {
      assert [] + [r] == [r] && [r][1..] == [];
    } else {
      ConcatLast(runes[1..], r);
      assert (runes + [r])[1..] == runes[1..] + [r];
    }
  }

  lemma {:induction false} TrimsBack(runes: seq<Bytes>)
    requires AllSpaces(runes)
    ensures TrimSpace(DONE + Concat(runes)) == DONE
    decreases |runes|
  {
    BracketsStay(Concat(runes));
    if runes == [] {
      assert DONE + Concat(runes) == DONE;
    } else {
      var init, r := runes[..|runes| - 1], runes[|runes| - 1];
      assert runes == init + [r] && r in runes;
      ConcatLast(init, r);
      assert DONE + (Concat(init) + r) == (DONE + Concat(init)) + r;
      TrailIs(DONE + Concat(init), r);
      TrimsBack(init);
    }
  }

  lemma {:induction false} TrimsBoth(before: seq<Bytes>, after: seq<Bytes>)
    requires AllSpaces(before) && AllSpaces(after)
    ensures TrimSpace(Concat(before) + DONE + Concat(after)) == DONE
    decreases |before|
  {
    if before == [] {
      assert Concat(before) + DONE + Concat(after) == DONE + Concat(after);
      TrimsBack(after);
    } else {
      var r, rest := before[0], before[1..];
      assert r in before;
      assert Concat(before) + DONE + Concat(after) == r + (Concat(rest) + DONE + Concat(after));
      LeadIs(r, Concat(rest) + DONE + Concat(after));
      TrimsBoth(rest, after);
    }
  }

  lemma {:induction false} TrimSplits(s: Bytes) returns (before: seq<Bytes>, after: seq<Bytes>)
    ensures AllSpaces(before) && AllSpaces(after) && s == Concat(before) + TrimSpace(s) + Concat(after)
    decreases |s|
  {
    hide IsSpaceRune, Lead, Trail, Concat;
    ConcatNothing();
    before, after := [], [];
    if Lead(s) > 0 {
      var n := Lead(s);
      before, after := TrimSplits(s[n..]);
      SplitFront(s, n, Concat(before), TrimSpace(s), Concat(after));
      ConcatFirst(s[..n], before);
      before := [s[..n]] + before;
    } else if Trail(s) > 0 {
      var n := |s| - Trail(s);
      before, after := TrimSplits(s[..n]);
      SplitBack(s, n, Concat(before), TrimSpace(s), Concat(after));
      ConcatLast(after, s[n..]);
      after := after + [s[n..]];
    }
  }

  lemma ConcatNothing()
    ensures Concat([]) == []
  {
  }

  lemma {:induction false} ConcatFirst(r: Bytes, runes: seq<Bytes>)
    ensures Concat([r] + runes) == r + Concat(runes)
  {
    assert ([r] + runes)[1..] == runes;
  }

  lemma SplitFront(s: Bytes, n: nat, a: Bytes, m: Bytes, b: Bytes)
    requires n <= |s| && s[n..] == a + m + b
    ensures s == (s[..n] + a) + m + b
  {
    assert s == s[..n] + s[n..];
  }

  lemma SplitBack(s: Bytes, n: nat, a: Bytes, m: Bytes, b: Bytes)
    requires n <= |s| && s[..n] == a + m + b
    ensures s == a + m + (b + s[n..])
  {
    assert s == s[..n] + s[n..];
  }

  /** A payload is the end marker exactly when it is [DONE] between white space. */
  lemma {:induction false} IsDoneIff(data: Bytes)
    ensures IsDone(data) <==>
      exists before, after :: AllSpaces(before) && AllSpaces(after) && data == Concat(before) + DONE + Concat(after)
  {
    if IsDone(data) {
      var before, after := TrimSplits(data);
      assert data == Concat(before) + DONE + Concat(after);
    }
    if before, after :| AllSpaces(before) && AllSpaces(after) && data == Concat(before) + DONE + Concat(after) {
      TrimsBoth(before, after);
    }
  }

  /** The payload is observed and handed to the rewriter. */
  predicate Handles(e: Bytes) {
    PayloadOf(e).Some? && !IsDone(PayloadOf(e).value)
  }

  /** The rewriter refuses the payload. */
  predicate Refuses(e: Bytes, rewrite: Rewriter) {
    Handles(e) && rewrite.Some? && rewrite.value(PayloadOf(e).value).None?
  }

  /** What is to be written for an event that is not refused. */
  function OutputOf(e: Bytes, rewrite: Rewriter): Bytes
    requires !Refuses(e, rewrite)
  {
    if Handles(e) && rewrite.Some? then ReplaceData(e, rewrite.value(PayloadOf(e).value).value) else e
  }

  function Observes(e: Bytes): seq<Bytes> {
    if Handles(e) then [PayloadOf(e).value] else []
  }

  /** What writeEvent does with one event. */
  function Emit(event: Bytes, rewrite: Rewriter): Outcome {
    var payload := PayloadOf(event);
    if payload.None? || IsDone(payload.value) then Outcome(event, [], Done)
    else if rewrite.None? then Outcome(event, [payload.value], Done)
    else match rewrite.value(payload.value)
         case None => Outcome([], [payload.value], RewriteFailed)
         case Some(data) => Outcome(ReplaceData(event, data), [payload.value], Done)
  }

  /** How the sink takes one event: whole, or it fails after some bytes, or when flushing. */
  datatype Fault = NoFault | WriteFault(taken: nat) | FlushFault

  /** What reaches the sink. */
  function Deliver(o: Outcome, fault: Fault): Outcome {
    if o.status != Done then o
    else match fault
         case NoFault => o
         case WriteFault(taken) =>
           Outcome(if taken < |o.written| then o.written[..taken] else o.written, o.observed, SinkFailed)
         case FlushFault => Outcome(o.written, o.observed, SinkFailed)
  }

  /** The fault of the next event; there is none after the last one listed. */
  function NextFault(faults: seq<Fault>): Fault {
    if faults == [] then NoFault else faults[0]
  }

  function LaterFaults(faults: seq<Fault>): seq<Fault> {
    if faults == [] then [] else faults[1..]
  }

  function Then(a: Outcome, b: Outcome): Outcome {
    if a.status != Done then a else Outcome(a.written + b.written, a.observed + b.observed, b.status)
  }

  const NOTHING_YET: Outcome := Outcome([], [], Done)

  /** The world around a copy: whether the source ends in an error, the rewriter, and how the
      sink takes the events. */
  datatype World = World(fails: bool, rewrite: Rewriter, faults: seq<Fault>)

  function Later(w: World): World {
    w.(faults := LaterFaults(w.faults))
  }

  /** What the copier does from here on, with `event` collected so far. */
  function CopyFrom(s: Bytes, event: Bytes, w: World): Outcome
    decreases |s|
  {
    var (fragment, rest, reading) := NextFragment(s);
    if fragment != [] && |event| + |fragment| > MAX_EVENT then Outcome([], [], TooLarge)
    else
      var more := event + fragment;
      match reading
      case LineRead =>
        if BlankLine(fragment)
        then Then(Deliver(Emit(more, w.rewrite), NextFault(w.faults)), CopyFrom(rest, [], Later(w)))
        else CopyFrom(rest, more, w)
      case BufferFull => CopyFrom(rest, more, w)
      case AtEnd =>
        if w.fails then Outcome([], [], ReadFailed)
        else if more == [] then NOTHING_YET
        else Deliver(Emit(more, w.rewrite), NextFault(w.faults))
  }

  // ---------- the copier ----------

  class Sink {
    var bytes: Bytes
    var observed: seq<Bytes>

    constructor ()
      ensures bytes == [] && observed == []
    {
      bytes, observed := [], [];
    }

    method WriteEvent(event: Bytes, rewrite: Rewriter, fault: Fault) returns (n: nat, status: Status)
      modifies this
      ensures
        var o := Deliver(Emit(event, rewrite), fault);
        && bytes == old(bytes) + o.written && observed == old(observed) + o.observed
        && n == |o.written| && status == o.status
      ensures observed == old(observed) + Observes(event)
      ensures Refuses(event, rewrite) ==> status == RewriteFailed && n == 0 && bytes == old(bytes)
      ensures !Refuses(event, rewrite) && fault.NoFault? ==>
        status == Done && n == |OutputOf(event, rewrite)| && bytes == old(bytes) + OutputOf(event, rewrite)
      ensures !Refuses(event, rewrite) && !fault.NoFault? ==>
        && status == SinkFailed && n <= |OutputOf(event, rewrite)| && bytes == old(bytes) + OutputOf(event, rewrite)[..n]
        && (fault.WriteFault? ==> n <= fault.taken) && (fault.FlushFault? ==> n == |OutputOf(event, rewrite)|)
    {
      hide PayloadOf, IsDone, ReplaceData;
      var data := EventData(event);
      var output := event;
      if data.Some? && !IsDone(data.value) {
        observed := observed + [data.value];
        if rewrite.Some? {
          var rewritten := rewrite.value(data.value);
          if rewritten.None? { return 0, RewriteFailed; }
          output := ReplaceEventData(event, rewritten.value);
        }
      }
      if fault.WriteFault? {
        var taken := if fault.taken < |output| then output[..fault.taken] else output;
        bytes := bytes + taken;
        return |taken|, SinkFailed;
      }
      bytes := bytes + output;
      return |output|, if fault.FlushFault? then SinkFailed else Done;
    }
  }

  /** The bytes and observations of `total` that `rest` still has to add to the sink. */
  ghost predicate Remains(total: Outcome, bytes: Bytes, observed: seq<Bytes>, rest: Outcome) {
    total == Outcome(bytes + rest.written, observed + rest.observed, rest.status)
  }

  lemma RemainsThen(total: Outcome, bytes: Bytes, observed: seq<Bytes>, first: Outcome, rest: Outcome)
    requires Remains(total, bytes, observed, Then(first, rest))
    ensures first.status == Done ==> Remains(total, bytes + first.written, observed + first.observed, rest)
    ensures first.status != Done ==> total == Outcome(bytes + first.written, observed + first.observed, first.status)
  {
    Associative(bytes, first.written, rest.written);
    Associative(observed, first.observed, rest.observed);
  }

  /** CopySSE: the sink receives exactly what the function says. */
  method CopySSE(reader: Reader, sink: Sink, w: World) returns (written: nat, status: Status)
    requires reader.Valid()
    modifies reader, sink
    ensures
      var outcome := CopyFrom(old(reader.Rest()), [], w);
      && sink.bytes == old(sink.bytes) + outcome.written
      && sink.observed == old(sink.observed) + outcome.observed
      && status == outcome.status && written == |outcome.written|
  {
    hide NextFragment, Emit, Deliver, BlankLine, Reader.Rest, Reader.Valid, Then, Refuses, OutputOf, Observes;
    ghost var total := CopyFrom(reader.Rest(), [], w);
    ghost var bytes: Bytes, observed: seq<Bytes> := [], [];
    var event: Bytes := [];
    var world := w;
    written := 0;
    while true
      invariant reader.Valid()
      invariant Remains(total, bytes, observed, CopyFrom(reader.Rest(), event, world))
      invariant sink.bytes == old(sink.bytes) + bytes && sink.observed == old(sink.observed) + observed
      invariant written == |bytes| && world.rewrite == w.rewrite && world.fails == w.fails
      decreases |reader.Rest()|
    {
      ghost var before, start := reader.Rest(), event;
      var fragment, reading := reader.ReadSlice();
      if |fragment| > 0 {
        if |event| + |fragment| > MAX_EVENT { return written, TooLarge; }
        event := event + fragment;
        if reading == LineRead && BlankLine(fragment) {
          ghost var first := Deliver(Emit(event, world.rewrite), NextFault(world.faults));
          var n, taken := sink.WriteEvent(event, world.rewrite, NextFault(world.faults));
          written := written + n;
          event := [];
          RemainsThen(total, bytes, observed, first, CopyFrom(reader.Rest(), [], Later(world)));
          Associative(old(sink.bytes), bytes, first.written);
          Associative(old(sink.observed), observed, first.observed);
          bytes, observed := bytes + first.written, observed + first.observed;
          world := Later(world);
          if taken != Done { return written, taken; }
        }
      }
      NextShrinks(before);
      if reading != AtEnd { continue; }
      if world.fails { return written, ReadFailed; }
      if |event| > 0 {
        ghost var last := Deliver(Emit(event, world.rewrite), NextFault(world.faults));
        assert event == start + fragment;
        assert CopyFrom(before, start, world) == last;
        Associative(old(sink.bytes), bytes, last.written);
        Associative(old(sink.observed), observed, last.observed);
        var n, taken := sink.WriteEvent(event, world.rewrite, NextFault(world.faults));
        written := written + n;
        if taken != Done { return written, taken; }
      }
      return written, Done;
    }
  }

  lemma NextShrinks(s: Bytes)
    ensures
      var (fragment, rest, reading) := NextFragment(s);
      && (reading != AtEnd ==> |rest| < |s|)
      && (fragment == [] ==> reading == AtEnd)
      && (BlankLine(fragment) ==> fragment != [])
  {
  }
}
