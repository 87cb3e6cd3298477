/**
  The copier as a map on events: what it writes reads back as the events of its input, in
  order, each payload rewritten, and every payload is observed once. The copier finds event
  ends in reader fragments; this agrees with finding them in lines exactly when no overlong
  line ends in a fragment that looks like a blank line before more input.
 */
module SseStream {
  import opened Wrappers
  import opened SseLines
  import opened SseRewrite
  import opened SseCopy

  // ---------- events as the copier cuts them ----------

  function Cuts(s: Bytes, event: Bytes): seq<Bytes>
    decreases |s|
  {
    var (fragment, rest, reading) := NextFragment(s);
    var more := event + fragment;
    match reading
    case LineRead => if BlankLine(fragment) then [more] + Cuts(rest, []) else Cuts(rest, more)
    case BufferFull => Cuts(rest, more)
    case AtEnd => if more == [] then [] else [more]
  }

  function EmitAll(events: seq<Bytes>, rewrite: Rewriter): Outcome {
    if events == [] then NOTHING_YET else Then(Emit(events[0], rewrite), EmitAll(events[1..], rewrite))
  }

  /** Every event fits the limit, and its payload can be rewritten. */
  predicate Copyable(events: seq<Bytes>, rewrite: Rewriter) {
    forall e <- events :: |e| <= MAX_EVENT && Emit(e, rewrite).status == Done
  }

  lemma {:induction false} FirstCutExtends(s: Bytes, event: Bytes)
    requires event != []
    ensures Cuts(s, event) != [] && |event| <= |Cuts(s, event)[0]|
    decreases |s|
  {
    var (fragment, rest, reading) := NextFragment(s);
    if !reading.AtEnd? { FirstCutExtends(rest, event + fragment); }
  }

  lemma {:induction false} CopyableFirst(e: Bytes, events: seq<Bytes>, rewrite: Rewriter)
    ensures Copyable([e] + events, rewrite) <==>
      |e| <= MAX_EVENT && Emit(e, rewrite).status == Done && Copyable(events, rewrite)
    ensures EmitAll([e] + events, rewrite) == Then(Emit(e, rewrite), EmitAll(events, rewrite))
  {
    hide Emit;
    assert e in [e] + events;
    forall x <- events ensures x in [e] + events {}
    assert ([e] + events)[1..] == events;
  }

  /** The sink takes the first `n` events whole. */
  predicate Accepts(faults: seq<Fault>, n: nat) {
    forall k | 0 <= k < n && k < |faults| :: faults[k] == NoFault
  }

  lemma AcceptsFirst(faults: seq<Fault>, n: nat)
    ensures Accepts(faults, 0)
    ensures Accepts(faults, n + 1) <==> NextFault(faults) == NoFault && Accepts(LaterFaults(faults), n)
  {
    if faults != [] {
      var later := LaterFaults(faults);
      if faults[0] == NoFault && Accepts(later, n) {
        forall k | 0 <= k < n + 1 && k < |faults| ensures faults[k] == NoFault {
          if k > 0 { assert faults[k] == later[k - 1]; }
        }
      }
      if Accepts(faults, n + 1) {
        forall k | 0 <= k < n && k < |later| ensures later[k] == NoFault { assert later[k] == faults[k + 1]; }
      }
    }
  }

  /** Every event is copyable, its source is read to the end, and the sink takes every event. */
  predicate Succeeds(events: seq<Bytes>, w: World) {
    !w.fails && Copyable(events, w.rewrite) && Accepts(w.faults, |events|)
  }

  /** One event more at the front. */
  lemma {:induction false} SucceedsFirst(e: Bytes, events: seq<Bytes>, w: World)
    ensures Succeeds([e] + events, w) <==>
      && |e| <= MAX_EVENT && Deliver(Emit(e, w.rewrite), NextFault(w.faults)).status == Done
      && Succeeds(events, Later(w))
    ensures Deliver(Emit(e, w.rewrite), NextFault(w.faults)).status == Done ==>
      && Deliver(Emit(e, w.rewrite), NextFault(w.faults)) == Emit(e, w.rewrite)
      && EmitAll([e] + events, w.rewrite) == Then(Emit(e, w.rewrite), EmitAll(events, w.rewrite))
  {
    hide Emit, Copyable, EmitAll, Accepts, NextFault, LaterFaults;
    CopyableFirst(e, events, w.rewrite);
    AcceptsFirst(w.faults, |events|);
  }

  /** The copy is done exactly when the read succeeds, every event is copyable and the sink takes
      every event, and then it is the events' outputs one after the other. */
  lemma {:induction false} CopyIsEmitAll(s: Bytes, event: Bytes, w: World)
    requires |event| <= MAX_EVENT
    ensures CopyFrom(s, event, w).status == Done <==> Succeeds(Cuts(s, event), w)
    ensures CopyFrom(s, event, w).status == Done ==> CopyFrom(s, event, w) == EmitAll(Cuts(s, event), w.rewrite)
    decreases |s|
  {
    hide NextFragment, BlankLine, Emit, Deliver, Succeeds;
    var (fragment, rest, reading) := NextFragment(s);
    var more := event + fragment;
    NextShrinks(s);
    if |more| > MAX_EVENT {
      FirstTooLarge(s, event, w);
    } else if reading.LineRead? && BlankLine(fragment) {
      CopyIsEmitAll(rest, [], Later(w));
      SucceedsFirst(more, Cuts(rest, []), w);
    } else if reading.AtEnd? {
      LastSucceeds(more, w);
    } else {
      CopyIsEmitAll(rest, more, w);
    }
  }

  lemma {:induction false} FirstTooLarge(s: Bytes, event: Bytes, w: World)
    requires |event + NextFragment(s).0| > MAX_EVENT
    ensures !Succeeds(Cuts(s, event), w)
  {
    hide Emit, Accepts;
    var (fragment, rest, reading) := NextFragment(s);
    hide NextFragment;
    var more := event + fragment;
    if reading.LineRead? && BlankLine(fragment) {
      CopyableFirst(more, Cuts(rest, []), w.rewrite);
    } else if reading.AtEnd? {
      CopyableFirst(more, [], w.rewrite);
    } else {
      FirstCutExtends(rest, more);
      assert Cuts(s, event)[0] in Cuts(s, event);
    }
  }

  /** The end of the source, with or without a last event. */
  lemma {:induction false} LastSucceeds(e: Bytes, w: World)
    requires |e| <= MAX_EVENT
    ensures Succeeds([], w) <==> !w.fails
    ensures Succeeds([e], w) <==> !w.fails && Deliver(Emit(e, w.rewrite), NextFault(w.faults)).status == Done
    ensures EmitAll([], w.rewrite) == NOTHING_YET
    ensures Deliver(Emit(e, w.rewrite), NextFault(w.faults)).status == Done ==>
      EmitAll([e], w.rewrite) == Deliver(Emit(e, w.rewrite), NextFault(w.faults))
  {
    hide Emit;
    SucceedsFirst(e, [], w);
    assert [e] + [] == [e];
    EmitLast(e, w.rewrite);
  }

  lemma EmitLast(e: Bytes, rewrite: Rewriter)
    ensures Then(Emit(e, rewrite), NOTHING_YET) == Emit(e, rewrite)
  {
  }

  // ---------- events by lines ----------

  function ByLines(s: Bytes, event: Bytes): seq<Bytes>
    decreases |s|
  {
    var i := IndexLF(s);
    if i == |s| then (if event + s == [] then [] else [event + s])
    else
      var line, rest := s[..i + 1], s[i + 1..];
      if BlankLine(line) then [event + line] + ByLines(rest, []) else ByLines(rest, event + line)
  }

  /** The fragment that a line ends with. */
  function LastChunk(line: Bytes): Bytes {
    if |line| <= BUFFER then line else LastChunk(line[BUFFER..])
  }

  predicate FalseBlank(line: Bytes) {
    |line| > BUFFER && BlankLine(LastChunk(line))
  }

  /** No overlong line before more input ends in a fragment that looks blank. */
  predicate Harmless(s: Bytes)
    decreases |s|
  {
    var i := IndexLF(s);
    i == |s| || ((FalseBlank(s[..i + 1]) ==> s[i + 1..] == []) && Harmless(s[i + 1..]))
  }

  /** Every line, its LF included, fits the reader's buffer. */
  predicate ShortLines(s: Bytes)
    decreases |s|
  {
    var i := IndexLF(s);
    i == |s| || (i < 32_768 && ShortLines(s[i + 1..]))
  }

  lemma {:induction false} ShortIsHarmless(s: Bytes)
    requires ShortLines(s)
    ensures Harmless(s)
    decreases |s|
  {
    var i := IndexLF(s);
    if i < |s| { ShortIsHarmless(s[i + 1..]); }
  }

  lemma {:induction false} IndexBeyond(s: Bytes, n: nat)
    requires n <= IndexLF(s) <= |s|
    ensures LF !in s[..n] && IndexLF(s[n..]) == IndexLF(s) - n
  {
    var i := IndexLF(s);
    forall k | 0 <= k < i ensures s[k] != LF { NotBefore(s, i, k); }
    if i < |s| { IndexAt(s[n..], i - n); } else { IndexNone(s[n..]); }
  }

  /** A line that fits is one fragment. */
  lemma {:induction false} ShortLine(s: Bytes)
    requires IndexLF(s) < |s| && IndexLF(s) < BUFFER
    ensures NextFragment(s) == (s[..IndexLF(s) + 1], s[IndexLF(s) + 1..], LineRead)
  {
    var i := IndexLF(s);
    var window := if |s| <= BUFFER then s else s[..BUFFER];
    assert window[..i] == s[..i];
    IndexAt(window, i);
  }

  /** A line that does not fit starts with a full buffer. */
  lemma {:induction false} LongLine(s: Bytes)
    requires BUFFER <= IndexLF(s)
    ensures NextFragment(s) == (s[..BUFFER], s[BUFFER..], BufferFull)
  {
    IndexBeyond(s, BUFFER);
    IndexNone(s[..BUFFER]);
    assert |s| == BUFFER ==> s[..BUFFER] == s;
  }

  /** What is left of a line and of the stream after its first buffer. */
  lemma Leftover(s: Bytes, i: nat)
    requires BUFFER <= i < |s|
    ensures s[BUFFER..][..i - BUFFER + 1] == s[..i + 1][BUFFER..]
    ensures s[BUFFER..][i - BUFFER + 1..] == s[i + 1..]
    ensures s[..BUFFER] + s[..i + 1][BUFFER..] == s[..i + 1]
  {
  }

  lemma {:induction false} CutLine(s: Bytes, event: Bytes)
    requires IndexLF(s) < |s|
    ensures
      var i := IndexLF(s);
      Cuts(s, event) ==
        if BlankLine(LastChunk(s[..i + 1])) then [event + s[..i + 1]] + Cuts(s[i + 1..], [])
        else Cuts(s[i + 1..], event + s[..i + 1])
    decreases |s|
  {
    hide NextFragment, IndexLF, BlankLine;
    var i := IndexLF(s);
    if i < BUFFER {
      ShortLine(s);
    } else {
      LongLine(s);
      IndexBeyond(s, BUFFER);
      Leftover(s, i);
      CutLine(s[BUFFER..], event + s[..BUFFER]);
      Associative(event, s[..BUFFER], s[..i + 1][BUFFER..]);
    }
  }

  lemma {:induction false} ShortTail(s: Bytes)
    requires IndexLF(s) == |s| && |s| < BUFFER
    ensures NextFragment(s) == (s, [], AtEnd)
  {
  }

  lemma {:induction false} CutTail(s: Bytes, event: Bytes)
    requires IndexLF(s) == |s|
    ensures Cuts(s, event) == if event + s == [] then [] else [event + s]
    decreases |s|
  {
    hide NextFragment, IndexLF, BlankLine;
    if |s| < BUFFER {
      ShortTail(s);
    } else {
      LongLine(s);
      IndexBeyond(s, BUFFER);
      CutTail(s[BUFFER..], event + s[..BUFFER]);
      Associative(event, s[..BUFFER], s[BUFFER..]);
      assert s[..BUFFER] + s[BUFFER..] == s;
    }
  }

  lemma {:induction false} FirstByLines(s: Bytes, event: Bytes)
    requires s != []
    ensures ByLines(s, event) != [] && |event| < |ByLines(s, event)[0]|
    decreases |s|
  {
    var i := IndexLF(s);
    if i < |s| && !BlankLine(s[..i + 1]) && s[i + 1..] != [] { FirstByLines(s[i + 1..], event + s[..i + 1]); }
  }

  lemma {:induction false} ChunkOfShort(line: Bytes)
    ensures BlankLine(LastChunk(line)) <==> BlankLine(line) || FalseBlank(line)
    ensures BlankLine(line) ==> !FalseBlank(line)
  {
  }

  lemma SameFirst(e: Bytes, a: seq<Bytes>, b: seq<Bytes>)
    ensures [e] + a == [e] + b <==> a == b
  {
    assert ([e] + a)[1..] == a && ([e] + b)[1..] == b;
  }

  lemma EmptyCuts()
    ensures Cuts([], []) == []
  {
    CutTail([], []);
  }

  lemma {:induction false} ByLinesEnd(e: Bytes)
    requires e != []
    ensures ByLines([], e) == [e] && Harmless([])
  {
    assert e + [] == e;
  }

  /** The copier cuts the stream into the events that its lines say, exactly when the stream is
      harmless. */
  lemma {:induction false} CutsByLinesIff(s: Bytes, event: Bytes)
    ensures Cuts(s, event) == ByLines(s, event) <==> Harmless(s)
    decreases |s|
  {
    hide IndexLF, BlankLine, FalseBlank, LastChunk, Cuts;
    var i := IndexLF(s);
    if i == |s| {
      CutTail(s, event);
    } else {
      var line, rest := s[..i + 1], s[i + 1..];
      CutLine(s, event);
      ChunkOfShort(line);
      CutsByLinesIff(rest, []);
      CutsByLinesIff(rest, event + line);
      SameFirst(event + line, Cuts(rest, []), ByLines(rest, []));
      EmptyCuts();
      ByLinesEnd(event + line);
      if FalseBlank(line) && rest != [] {
        FirstByLines(rest, event + line);
        assert ([event + line] + Cuts(rest, []))[0] == event + line;
      }
    }
  }
}
