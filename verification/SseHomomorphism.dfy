/**
  The main result on streams: reading what the copier wrote gives the events of its input, each
  payload rewritten.
 */
module SseHomomorphism {
  import opened Wrappers
  import opened SseLines
  import opened SseRewrite
  import opened SseCopy
  import opened SseStream

  function EventsOfAll(parts: seq<Bytes>): seq<Event> {
    if parts == [] then [] else Events(parts[0]) + EventsOfAll(parts[1..])
  }

  /** Every part but the last ends in a blank line. */
  predicate Chained(parts: seq<Bytes>) {
    forall i | 0 <= i < |parts| - 1 :: Closed(parts[i])
  }

  lemma {:induction false} EventsOfChain(parts: seq<Bytes>)
    requires Chained(parts)
    ensures Events(Concat(parts)) == EventsOfAll(parts)
  {
    hide Events, Closed;
    EventsNothing();
    if parts != [] {
      var rest := parts[1..];
      forall i | 0 <= i < |rest| - 1 ensures Closed(rest[i]) { assert rest[i] == parts[i + 1]; }
      EventsOfChain(rest);
      if rest == [] {
        assert parts[0] + [] == parts[0];
      } else {
        EventsAppend(parts[0], Concat(rest));
      }
    }
  }

  // ---------- the events that lines say ----------

  ghost predicate IsEvent(e: Bytes) {
    exists lines, blanks :: OneEvent(e, lines, blanks)
  }

  ghost predicate AreEvents(parts: seq<Bytes>) {
    Chained(parts) && forall e <- parts :: IsEvent(e)
  }

  lemma AreEventsCons(e: Bytes, parts: seq<Bytes>)
    requires IsEvent(e) && Closed(e) && AreEvents(parts)
    ensures AreEvents([e] + parts)
  {
    hide IsEvent, Closed;
    var all := [e] + parts;
    forall i | 0 <= i < |all| - 1 ensures Closed(all[i]) {
      if i > 0 { assert all[i] == parts[i - 1]; }
    }
  }

  lemma LineIsBlank(raw: Bytes)
    ensures BlankLine(raw + [LF]) <==> IsBlank(raw)
  {
    assert (raw + [LF])[..|raw|] == raw;
    if BlankLine(raw + [LF]) {
      assert raw == [] || raw == [CR];
    }
  }

  /** Lines read so far, then an unfinished one. */
  lemma {:induction false} LastEvent(lines: seq<Bytes>, raw: Bytes)
    requires NoneBlank(lines) && NoLF(lines) && LF !in raw
    ensures IsEvent(Unlines(lines) + raw)
  {
    SplitUnlines(lines, raw);
    SplitSingle(raw);
    var e := Unlines(lines) + raw;
    if IsBlank(raw) {
      assert OneEvent(e, lines, [raw]);
    } else {
      assert SplitLF(e) == (lines + [raw]) + [];
      assert OneEvent(e, lines + [raw], []);
    }
  }

  /** Lines read so far, then a blank one. */
  lemma {:induction false} BlankEndsEvent(lines: seq<Bytes>, raw: Bytes)
    requires NoneBlank(lines) && NoLF(lines) && LF !in raw && IsBlank(raw)
    ensures IsEvent(Unlines(lines) + (raw + [LF])) && Closed(Unlines(lines) + (raw + [LF]))
  {
    hide SplitLF, Unlines;
    var u := Unlines(lines) + raw;
    var e := u + [LF];
    Associative(Unlines(lines), raw, [LF]);
    SplitUnlines(lines, raw);
    SplitSingle(raw);
    EndsWithLF(u);
    assert (lines + [raw]) + [[]] == lines + [raw, []];
    assert OneEvent(e, lines, [raw, []]);
    assert (lines + [raw])[|lines|] == raw;
  }

  lemma {:induction false} EndsWithLF(u: Bytes)
    ensures SplitLF(u + [LF]) == SplitLF(u) + [[]] && (u + [LF])[..|u|] == u
  {
    SplitAt(u, []);
    SplitSingle([]);
    assert u + [LF] + [] == u + [LF];
  }

  lemma {:induction false} ByLinesAreEvents(s: Bytes, lines: seq<Bytes>)
    requires NoneBlank(lines) && NoLF(lines)
    ensures AreEvents(ByLines(s, Unlines(lines)))
    decreases |s|
  {
    hide IsBlank, BlankLine, IsEvent, Closed;
    var i := IndexLF(s);
    if i == |s| {
      assert s[..i] == s;
      LastEvent(lines, s);
    } else {
      var raw, line, rest := s[..i], s[..i + 1], s[i + 1..];
      assert line == raw + [LF];
      LineIsBlank(raw);
      if BlankLine(line) {
        BlankEndsEvent(lines, raw);
        ByLinesAreEvents(rest, []);
        AreEventsCons(Unlines(lines) + line, ByLines(rest, []));
      } else {
        UnlinesNext(lines, raw);
        Associative(Unlines(lines), raw, [LF]);
        ByLinesAreEvents(rest, lines + [raw]);
      }
    }
  }

  lemma {:induction false} ByLinesCoverAll(s: Bytes, event: Bytes)
    ensures Concat(ByLines(s, event)) == event + s
    decreases |s|
  {
    hide BlankLine;
    var i := IndexLF(s);
    if i == |s| {
      if event + s != [] { assert Concat([event + s]) == event + s + Concat([]); }
    } else {
      var line, rest := s[..i + 1], s[i + 1..];
      assert line + rest == s;
      Associative(event, line, rest);
      if BlankLine(line) {
        ByLinesCoverAll(rest, []);
        assert ([event + line] + ByLines(rest, []))[1..] == ByLines(rest, []);
        assert [] + rest == rest;
      } else {
        ByLinesCoverAll(rest, event + line);
      }
    }
  }

  lemma {:induction false} CutsCoverAll(s: Bytes, event: Bytes)
    ensures Concat(Cuts(s, event)) == event + s
    decreases |s|
  {
    hide BlankLine;
    var (fragment, rest, reading) := NextFragment(s);
    hide NextFragment;
    Associative(event, fragment, rest);
    var more := event + fragment;
    if reading.AtEnd? {
      assert fragment + [] == fragment;
      if more != [] { assert Concat([more]) == more + Concat([]); }
    } else if reading.LineRead? && BlankLine(fragment) {
      CutsCoverAll(rest, []);
      assert ([more] + Cuts(rest, []))[1..] == Cuts(rest, []);
      assert [] + rest == rest;
    } else {
      CutsCoverAll(rest, more);
    }
  }

  // ---------- one event ----------

  /** The payload is observed and handed to the rewriter. */
  predicate Handled(e: Event) {
    e.data.Some? && !IsDone(e.data.value)
  }

  /** The rewriter accepts the payload and returns one that fits a data line. */
  predicate Rewritable(e: Event, rewrite: Rewriter) {
    Handled(e) && rewrite.Some? ==> rewrite.value(e.data.value).Some? && Clean(rewrite.value(e.data.value).value)
  }

  function Rewritten(e: Event, rewrite: Rewriter): Event {
    if Handled(e) && rewrite.Some? && rewrite.value(e.data.value).Some?
    then e.(data := rewrite.value(e.data.value)) else e
  }

  function RewriteEvents(events: seq<Event>, rewrite: Rewriter): seq<Event> {
    if events == [] then [] else [Rewritten(events[0], rewrite)] + RewriteEvents(events[1..], rewrite)
  }

  /** What one event adds to the observations. */
  function Observation(e: Event): seq<Bytes> {
    if Handled(e) then [e.data.value] else []
  }

  function Payloads(events: seq<Event>): seq<Bytes> {
    if events == [] then [] else Observation(events[0]) + Payloads(events[1..])
  }

  lemma {:induction false} RewriteNothing(rewrite: Rewriter)
    ensures RewriteEvents([], rewrite) == [] && Payloads([]) == []
  {
  }

  lemma {:induction false} RewriteFirst(e: Event, rest: seq<Event>, rewrite: Rewriter)
    ensures RewriteEvents([e] + rest, rewrite) == [Rewritten(e, rewrite)] + RewriteEvents(rest, rewrite)
    ensures Payloads([e] + rest) == Observation(e) + Payloads(rest)
  {
    assert ([e] + rest)[1..] == rest;
  }

  lemma {:induction false} RewriteAppend(a: seq<Event>, b: seq<Event>, rewrite: Rewriter)
    ensures RewriteEvents(a + b, rewrite) == RewriteEvents(a, rewrite) + RewriteEvents(b, rewrite)
    ensures Payloads(a + b) == Payloads(a) + Payloads(b)
  {
    hide Observation, Rewritten, RewriteEvents, Payloads;
    if a == [] {
      RewriteNothing(rewrite);
      assert a + b == b;
      assert [] + RewriteEvents(b, rewrite) == RewriteEvents(b, rewrite) && [] + Payloads(b) == Payloads(b);
    } else {
      var e, rest := a[0], a[1..];
      RewriteAppend(rest, b, rewrite);
      assert a == [e] + rest;
      Associative([e], rest, b);
      RewriteFirst(e, rest, rewrite);
      RewriteFirst(e, rest + b, rewrite);
      Associative([Rewritten(e, rewrite)], RewriteEvents(rest, rewrite), RewriteEvents(b, rewrite));
      Associative(Observation(e), Payloads(rest), Payloads(b));
    }
  }

  /** The events of one event: none if it has no lines, and else what it says. */
  lemma OneReads(e: Bytes)
    requires IsEvent(e)
    ensures Events(e) == [] || exists others :: Events(e) == [Event(PayloadOf(e), others)]
    ensures PayloadOf(e).Some? ==> Events(e) != []
  {
    var lines, blanks :| OneEvent(e, lines, blanks);
    EventReads(e, lines, blanks);
    SomeData(lines);
    hide OneEvent, Events, PayloadOf, DataValues;
    if lines != [] { assert Events(e) == [Event(PayloadOf(e), OtherLines(lines))]; }
  }

  lemma {:induction false} SingleRewritten(x: Event, rewrite: Rewriter)
    ensures RewriteEvents([x], rewrite) == [Rewritten(x, rewrite)]
    ensures Payloads([x]) == Observation(x)
  {
    assert [x][1..] == [];
  }

  /** Rewriting an event that has a payload. */
  lemma ReplacedReads(e: Bytes, data: Bytes)
    requires IsEvent(e) && PayloadOf(e).Some? && Clean(data)
    ensures Closed(ReplaceData(e, data))
    ensures exists others ::
      Events(e) == [Event(PayloadOf(e), others)] && Events(ReplaceData(e, data)) == [Event(Some(data), others)]
  {
    var lines, blanks :| OneEvent(e, lines, blanks);
    RewrittenReads(e, lines, blanks, data);
    RewrittenCloses(e, data);
    hide OneEvent, Events, PayloadOf, ReplaceData, Closed;
  }

  /** One event, written: it reads as the rewritten event and its payload was observed. */
  lemma {:induction false} EmitReads(e: Bytes, rewrite: Rewriter)
    requires IsEvent(e) && Emit(e, rewrite).status == Done
    requires forall x <- Events(e) :: Rewritable(x, rewrite)
    ensures Events(Emit(e, rewrite).written) == RewriteEvents(Events(e), rewrite)
    ensures Emit(e, rewrite).observed == Payloads(Events(e))
    ensures Closed(e) ==> Closed(Emit(e, rewrite).written)
  {
    hide IsEvent, Events, PayloadOf, Clean, Closed, ReplaceData, IsDone, RewriteEvents, Payloads;
    OneReads(e);
    RewriteNothing(rewrite);
    if Events(e) != [] {
      var x := Events(e)[0];
      assert x in Events(e);
      SingleRewritten(x, rewrite);
      if Handled(x) && rewrite.Some? {
        ReplacedReads(e, rewrite.value(x.data.value).value);
      }
    }
  }

  // ---------- the stream ----------

  function Outputs(events: seq<Bytes>, rewrite: Rewriter): seq<Bytes> {
    if events == [] then [] else [Emit(events[0], rewrite).written] + Outputs(events[1..], rewrite)
  }

  lemma {:induction false} EmitAllOutputs(events: seq<Bytes>, rewrite: Rewriter)
    requires Copyable(events, rewrite)
    ensures EmitAll(events, rewrite).written == Concat(Outputs(events, rewrite))
  {
    hide Emit;
    if events != [] {
      var e, rest := events[0], events[1..];
      assert events == [e] + rest;
      CopyableFirst(e, rest, rewrite);
      EmitAllOutputs(rest, rewrite);
    }
  }

  lemma {:induction false} EmitAllReads(events: seq<Bytes>, rewrite: Rewriter)
    requires AreEvents(events) && Copyable(events, rewrite)
    requires forall x <- EventsOfAll(events) :: Rewritable(x, rewrite)
    ensures Chained(Outputs(events, rewrite)) && |Outputs(events, rewrite)| == |events|
    ensures EventsOfAll(Outputs(events, rewrite)) == RewriteEvents(EventsOfAll(events), rewrite)
    ensures EmitAll(events, rewrite).observed == Payloads(EventsOfAll(events))
  {
    hide IsEvent, Closed, Events, Emit, Rewritable, Rewritten, Handled;
    if events != [] {
      var e, rest := events[0], events[1..];
      assert events == [e] + rest;
      CopyableFirst(e, rest, rewrite);
      forall i | 0 <= i < |rest| - 1 ensures Closed(rest[i]) { assert rest[i] == events[i + 1]; }
      forall x <- Events(e) ensures Rewritable(x, rewrite) { assert x in EventsOfAll(events); }
      EmitReads(e, rewrite);
      EmitAllReads(rest, rewrite);
      RewriteAppend(Events(e), EventsOfAll(rest), rewrite);
      OutputsChained(events, rewrite);
    }
  }

  lemma {:induction false} OutputsChained(events: seq<Bytes>, rewrite: Rewriter)
    requires events != [] && Chained(Outputs(events[1..], rewrite)) && |Outputs(events[1..], rewrite)| == |events| - 1
    requires |events| > 1 ==> Closed(Emit(events[0], rewrite).written)
    ensures Chained(Outputs(events, rewrite)) && |Outputs(events, rewrite)| == |events|
    ensures EventsOfAll(Outputs(events, rewrite))
         == Events(Emit(events[0], rewrite).written) + EventsOfAll(Outputs(events[1..], rewrite))
  {
    hide Closed, Events, Emit;
    var outputs, rest := Outputs(events, rewrite), Outputs(events[1..], rewrite);
    assert outputs[1..] == rest;
    forall i | 0 <= i < |outputs| - 1 ensures Closed(outputs[i]) {
      if i > 0 { assert outputs[i] == rest[i - 1]; }
    }
  }

  /** When the copy of a harmless stream is done and every rewritten payload fits a data line,
      reading the copy gives the events of the input in order, each payload rewritten and all
      other lines kept, and every payload but [DONE] was observed exactly once. */
  lemma {:induction false} CopyIsHomomorphic(s: Bytes, w: World)
    requires Harmless(s) && CopyFrom(s, [], w).status == Done
    requires forall e <- Events(s) :: Rewritable(e, w.rewrite)
    ensures Events(CopyFrom(s, [], w).written) == RewriteEvents(Events(s), w.rewrite)
    ensures CopyFrom(s, [], w).observed == Payloads(Events(s))
  {
    hide Events, Cuts, ByLines, CopyFrom, Harmless, Chained, IsEvent, Copyable, EmitAll, Rewritable, Accepts;
    var events, rewrite := ByLines(s, []), w.rewrite;
    CutsByLinesIff(s, []);
    CopyIsEmitAll(s, [], w);
    ByLinesAreEvents(s, []);
    ByLinesCoverAll(s, []);
    assert [] + s == s;
    EventsOfChain(events);
    EmitAllOutputs(events, rewrite);
    EmitAllReads(events, rewrite);
    EventsOfChain(Outputs(events, rewrite));
  }

  /** Without a rewriter a finished copy is the input, byte for byte, whatever its lines. */
  lemma {:induction false} CopyIsIdentity(s: Bytes, w: World)
    requires w.rewrite.None? && CopyFrom(s, [], w).status == Done
    ensures CopyFrom(s, [], w).written == s
  {
    hide Cuts, CopyFrom, Succeeds;
    CopyIsEmitAll(s, [], w);
    CutsCoverAll(s, []);
    assert [] + s == s;
    EmitAllIdentity(Cuts(s, []));
  }

  lemma {:induction false} EmitAllIdentity(events: seq<Bytes>)
    ensures EmitAll(events, None).written == Concat(events) && EmitAll(events, None).status == Done
  {
    if events != [] {
      EmitIdentity(events[0], None);
      EmitAllIdentity(events[1..]);
      hide Emit;
    }
  }

  /** An event that has no payload, or [DONE] as payload, or no rewriter, is written as it is. */
  lemma EmitIdentity(e: Bytes, rewrite: Rewriter)
    requires rewrite.None? || PayloadOf(e).None? || IsDone(PayloadOf(e).value)
    ensures Emit(e, rewrite).status == Done && Emit(e, rewrite).written == e
  {
  }

  lemma {:induction false} NoOutputs(rewrite: Rewriter)
    ensures Outputs([], rewrite) == []
  {
  }

  lemma {:induction false} OutputAt(events: seq<Bytes>, rewrite: Rewriter, i: nat)
    requires i < |events|
    ensures |Outputs(events, rewrite)| == |events|
    ensures Outputs(events, rewrite)[i] == Emit(events[i], rewrite).written
  {
    hide Emit;
    if i > 0 {
      OutputAt(events[1..], rewrite, i - 1);
    } else if |events| > 1 {
      OutputAt(events[1..], rewrite, 0);
    }
  }

  /** A finished copy of any stream is one output per event in order, and what is not rewritten,
      that is an event without payload, with [DONE] as payload or without a rewriter, is its own
      output byte for byte. */
  lemma {:induction false} UnhandledEventsAreVerbatim(s: Bytes, w: World)
    requires CopyFrom(s, [], w).status == Done
    ensures
      var events, outputs := Cuts(s, []), Outputs(Cuts(s, []), w.rewrite);
      && Concat(events) == s && CopyFrom(s, [], w).written == Concat(outputs)
      && |outputs| == |events|
      && forall i | 0 <= i < |events| ::
           w.rewrite.None? || PayloadOf(events[i]).None? || IsDone(PayloadOf(events[i]).value) ==>
             outputs[i] == events[i]
  {
    hide Cuts, CopyFrom, PayloadOf, IsDone, Emit, Outputs, EmitAll, Copyable, Accepts;
    var events := Cuts(s, []);
    CopyIsEmitAll(s, [], w);
    CutsCoverAll(s, []);
    assert [] + s == s;
    EmitAllOutputs(events, w.rewrite);
    if events == [] { NoOutputs(w.rewrite); }
    forall i | 0 <= i < |events|
      ensures |Outputs(events, w.rewrite)| == |events|
      ensures w.rewrite.None? || PayloadOf(events[i]).None? || IsDone(PayloadOf(events[i]).value)
        ==> Outputs(events, w.rewrite)[i] == events[i]
    {
      OutputAt(events, w.rewrite, i);
      if w.rewrite.None? || PayloadOf(events[i]).None? || IsDone(PayloadOf(events[i]).value) {
        EmitIdentity(events[i], w.rewrite);
      }
    }
  }
}
