/**
  The acceptor: a stateful token reader advanced by a recursive method with loops. It accepts
  a body exactly when its tokens print one JSON value (sections 2 and 4 of RFC 8259) whose
  containers nest at most `maxDepth` deep and whose objects repeat no name.
 */
module StrictJson {
  import opened Wrappers
  import opened JsonValues

  /** What the reader returns: a token, the end of input, or a syntax error. */
  datatype Reading = Got(token: Token) | Eof | Malformed

  /** The tokens that can be read, and whether malformed input follows them. */
  class Decoder {
    const tokens: seq<Token>
    const malformed: bool
    var pos: nat

    ghost predicate Valid()
      reads this
    {
      pos <= |tokens|
    }

    ghost function Rest(): seq<Token>
      reads this
      requires Valid()
    {
      tokens[pos..]
    }

    constructor (tokens: seq<Token>, malformed: bool)
      ensures Valid() && Rest() == tokens && this.tokens == tokens && this.malformed == malformed
    {
      this.tokens, this.malformed, pos := tokens, malformed, 0;
    }

    method Token() returns (r: Reading)
      requires Valid()
      modifies this
      ensures Valid()
      ensures old(Rest()) == [] ==> Rest() == [] && r == if malformed then Malformed else Eof
      ensures old(Rest()) != [] ==> r == Got(old(Rest())[0]) && Rest() == old(Rest())[1..]
    {
      if pos == |tokens| {
        return if malformed then Malformed else Eof;
      }
      r := Got(tokens[pos]);
      pos := pos + 1;
    }

    /** Whether another element follows in the current container. */
    method More() returns (more: bool)
      requires Valid()
      ensures more <==> if Rest() == [] then malformed else !IsClose(Rest()[0])
    {
      if pos == |tokens| { return malformed; }
      return !IsClose(tokens[pos]);
    }
  }

  function RestOf<T>(r: Parsed<T>): Option<seq<Token>> {
    if r.None? then None else Some(r.value.1)
  }

  /** What is left after the items, provided an array ends there. */
  function AfterItems(ts: seq<Token>, room: nat): Option<seq<Token>> {
    var r := ParseItems(ts, room);
    if r.Some? && r.value.1 != [] && r.value.1[0] == CloseArray then Some(r.value.1[1..]) else None
  }

  function AfterMembers(ts: seq<Token>, seen: set<string>, room: nat): Option<seq<Token>> {
    var r := ParseMembers(ts, seen, room);
    if r.Some? && r.value.1 != [] && r.value.1[0] == CloseObject then Some(r.value.1[1..]) else None
  }

  lemma {:induction false} ParseContainers(ts: seq<Token>, room: nat)
    requires ts != []
    ensures ts[0] == OpenArray ==>
      RestOf(Parse(ts, room)) == if room == 0 then None else AfterItems(ts[1..], room - 1)
    ensures ts[0] == OpenObject ==>
      RestOf(Parse(ts, room)) == if room == 0 then None else AfterMembers(ts[1..], {}, room - 1)
    ensures ts[0].Text? || ts[0].Literal? ==> RestOf(Parse(ts, room)) == Some(ts[1..])
    ensures IsClose(ts[0]) ==> Parse(ts, room).None?
  {
  }

  lemma {:induction false} ItemsGoOn(ts: seq<Token>, room: nat)
    ensures ts == [] ==> AfterItems(ts, room).None?
    ensures ts != [] && !IsClose(ts[0]) ==>
      AfterItems(ts, room) ==
        if RestOf(Parse(ts, room)).None? then None else AfterItems(RestOf(Parse(ts, room)).value, room)
    ensures ts != [] && IsClose(ts[0]) ==> AfterItems(ts, room) == if ts[0] == CloseArray then Some(ts[1..]) else None
  {
  }

  lemma {:induction false} MembersGoOn(ts: seq<Token>, seen: set<string>, room: nat)
    ensures ts == [] ==> AfterMembers(ts, seen, room).None?
    ensures ts != [] && !IsClose(ts[0]) && !(ts[0].Text? && ts[0].text !in seen) ==> AfterMembers(ts, seen, room).None?
    ensures ts != [] && ts[0].Text? && ts[0].text !in seen ==>
      var value := RestOf(Parse(ts[1..], room));
      AfterMembers(ts, seen, room) == if value.None? then None else AfterMembers(value.value, seen + {ts[0].text}, room)
    ensures ts != [] && IsClose(ts[0]) ==>
      AfterMembers(ts, seen, room) == if ts[0] == CloseObject then Some(ts[1..]) else None
  {
  }

  /** consumeValue at nesting `depth`: succeeds and advances exactly as the parser does with the
      levels that are left. */
  method ConsumeValue(decoder: Decoder, depth: nat, maxDepth: nat) returns (ok: bool)
    requires decoder.Valid() && depth <= maxDepth
    modifies decoder
    ensures decoder.Valid()
    ensures ok <==> RestOf(Parse(old(decoder.Rest()), maxDepth - depth)).Some?
    ensures ok ==> RestOf(Parse(old(decoder.Rest()), maxDepth - depth)) == Some(decoder.Rest())
    ensures |decoder.Rest()| <= |old(decoder.Rest())| && (ok ==> |decoder.Rest()| < |old(decoder.Rest())|)
    decreases |decoder.Rest()|, 0
  {
    hide Parse, ParseItems, ParseMembers, AfterItems, AfterMembers, Decoder.Rest, Decoder.Valid;
    ghost var ts, room := decoder.Rest(), maxDepth - depth;
    var first := decoder.Token();
    if !first.Got? {
      ParseNothing(room);
      return false;
    }
    ParseContainers(ts, room);
    match first.token {
      case Text(_) => return true;
      case Literal(_) => return true;
      case OpenObject =>
        if depth >= maxDepth { return false; }
        ok := ConsumeMembers(decoder, depth, maxDepth);
      case OpenArray =>
        if depth >= maxDepth { return false; }
        ok := ConsumeItems(decoder, depth, maxDepth);
      case _ => return false;
    }
  }

  lemma {:induction false} ParseNothing(room: nat)
    ensures Parse([], room).None?
  {
  }

  /** The object case: a loop over names and values with the names seen so far. */
  method ConsumeMembers(decoder: Decoder, depth: nat, maxDepth: nat) returns (ok: bool)
    requires decoder.Valid() && depth < maxDepth
    modifies decoder
    ensures decoder.Valid()
    ensures ok <==> AfterMembers(old(decoder.Rest()), {}, maxDepth - depth - 1).Some?
    ensures ok ==> AfterMembers(old(decoder.Rest()), {}, maxDepth - depth - 1) == Some(decoder.Rest())
    ensures |decoder.Rest()| <= |old(decoder.Rest())|
    decreases |decoder.Rest()|, 1
  {
    hide Parse, ParseItems, ParseMembers, AfterItems, AfterMembers, Decoder.Rest, Decoder.Valid;
    ghost var ts, room := decoder.Rest(), maxDepth - depth - 1;
    var seen: set<string> := {};
    while true
      invariant decoder.Valid() && |decoder.Rest()| <= |ts|
      invariant AfterMembers(ts, {}, room) == AfterMembers(decoder.Rest(), seen, room)
      decreases |decoder.Rest()|
    {
      MembersGoOn(decoder.Rest(), seen, room);
      var more := decoder.More();
      if !more { break; }
      var key := decoder.Token();
      if !key.Got? || !key.token.Text? || key.token.text in seen { return false; }
      seen := seen + {key.token.text};
      var value := ConsumeValue(decoder, depth + 1, maxDepth);
      if !value { return false; }
    }
    MembersGoOn(decoder.Rest(), seen, room);
    var end := decoder.Token();
    return end == Got(CloseObject);
  }

  /** The array case. */
  method ConsumeItems(decoder: Decoder, depth: nat, maxDepth: nat) returns (ok: bool)
    requires decoder.Valid() && depth < maxDepth
    modifies decoder
    ensures decoder.Valid()
    ensures ok <==> AfterItems(old(decoder.Rest()), maxDepth - depth - 1).Some?
    ensures ok ==> AfterItems(old(decoder.Rest()), maxDepth - depth - 1) == Some(decoder.Rest())
    ensures |decoder.Rest()| <= |old(decoder.Rest())|
    decreases |decoder.Rest()|, 1
  {
    hide Parse, ParseItems, ParseMembers, AfterItems, AfterMembers, Decoder.Rest, Decoder.Valid;
    ghost var ts, room := decoder.Rest(), maxDepth - depth - 1;
    while true
      invariant decoder.Valid() && |decoder.Rest()| <= |ts|
      invariant AfterItems(ts, room) == AfterItems(decoder.Rest(), room)
      decreases |decoder.Rest()|
    {
      ItemsGoOn(decoder.Rest(), room);
      var more := decoder.More();
      if !more { break; }
      ParseNothing(room);
      var value := ConsumeValue(decoder, depth + 1, maxDepth);
      if !value { return false; }
    }
    ItemsGoOn(decoder.Rest(), room);
    var end := decoder.Token();
    return end == Got(CloseArray);
  }

  /** A body is accepted exactly when it is well formed and its tokens print one value of
      allowed depth with distinct names. */
  method Validate(tokens: seq<Token>, malformed: bool, maxDepth: nat) returns (ok: bool)
    ensures ok <==> !malformed && exists v :: Strict(v, maxDepth) && tokens == Print(v)
  {
    hide Parse, ParseItems, ParseMembers, Strict, Print, RestOf, Decoder.Rest, Decoder.Valid;
    var decoder := new Decoder(tokens, malformed);
    ok := ConsumeValue(decoder, 0, maxDepth);
    AcceptsPrinted(tokens, maxDepth);
    if !ok { return false; }
    var end := decoder.Token();
    return end == Eof;
  }

  /** The parser ends at the end of the tokens exactly when they print a strict value. */
  lemma {:induction false} AcceptsPrinted(tokens: seq<Token>, room: nat)
    ensures RestOf(Parse(tokens, room)) == Some([]) <==> exists v :: Strict(v, room) && tokens == Print(v)
  {
    if RestOf(Parse(tokens, room)) == Some([]) {
      var v := Parse(tokens, room).value.0;
      ParseSound(tokens, room);
      assert tokens == Print(v);
    }
    if v :| Strict(v, room) && tokens == Print(v) {
      assert tokens == Print(v) + [];
      ParsePrint(v, [], room);
    }
  }
}
