/**
  JSON values, the token sequences that print them (section 2 of RFC 8259, without the commas
  and colons that the token reader checks and drops), and a recursive-descent parser with a
  depth bound and unique names. The parser is proved to invert printing.
 */
module JsonValues {
  import opened Wrappers

  datatype Token =
    | OpenObject | CloseObject | OpenArray | CloseArray
    | Text(text: string)
    | Literal(literal: string) // a number, true, false or null

  datatype Json =
    | Str(text: string)
    | Lit(literal: string)
    | Arr(items: seq<Json>)
    | Obj(members: seq<Member>)

  datatype Member = Member(name: string, value: Json)

  // ---------- printing ----------

  function Print(v: Json): (ts: seq<Token>)
    ensures ts != [] && !IsClose(ts[0])
  {
    match v
    case Str(text) => [Text(text)]
    case Lit(literal) => [Literal(literal)]
    case Arr(items) => [OpenArray] + PrintItems(items) + [CloseArray]
    case Obj(members) => [OpenObject] + PrintMembers(members) + [CloseObject]
  }

  function PrintItems(items: seq<Json>): seq<Token> {
    if items == [] then [] else Print(items[0]) + PrintItems(items[1..])
  }

  function PrintMembers(members: seq<Member>): seq<Token> {
    if members == [] then []
    else [Text(members[0].name)] + Print(members[0].value) + PrintMembers(members[1..])
  }

  predicate IsClose(t: Token) {
    t.CloseObject? || t.CloseArray?
  }

  // ---------- the language ----------

  /** No container lies deeper than `room` levels, and no object repeats a name. */
  predicate Strict(v: Json, room: nat) {
    match v
    case Arr(items) => room > 0 && forall x <- items :: Strict(x, room - 1)
    case Obj(members) =>
      && room > 0
      && (forall i, j | 0 <= i < j < |members| :: members[i].name != members[j].name)
      && forall m <- members :: Strict(m.value, room - 1)
    case _ => true
  }

  /** How deep containers are nested. */
  function Height(v: Json): nat {
    match v
    case Arr(items) => 1 + MaxHeight(items)
    case Obj(members) => 1 + MaxMemberHeight(members)
    case _ => 0
  }

  function MaxHeight(items: seq<Json>): nat {
    if items == [] then 0
    else if Height(items[0]) < MaxHeight(items[1..]) then MaxHeight(items[1..]) else Height(items[0])
  }

  function MaxMemberHeight(members: seq<Member>): nat {
    if members == [] then 0
    else if Height(members[0].value) < MaxMemberHeight(members[1..]) then MaxMemberHeight(members[1..])
    else Height(members[0].value)
  }

  /** Somewhere in the value an object repeats a name. */
  predicate Repeats(v: Json) {
    match v
    case Arr(items) => exists x <- items :: Repeats(x)
    case Obj(members) =>
      || (exists i, j | 0 <= i < j < |members| :: members[i].name == members[j].name)
      || exists m <- members :: Repeats(m.value)
    case _ => false
  }

  lemma {:induction false} ItemsHeight(items: seq<Json>, room: nat)
    ensures MaxHeight(items) <= room <==> forall x <- items :: Height(x) <= room
  {
    if items != [] {
      ItemsHeight(items[1..], room);
      assert items[0] in items;
      assert forall x <- items[1..] :: x in items;
    }
  }

  lemma {:induction false} MembersHeight(members: seq<Member>, room: nat)
    ensures MaxMemberHeight(members) <= room <==> forall m <- members :: Height(m.value) <= room
  {
    if members != [] {
      MembersHeight(members[1..], room);
      assert members[0] in members;
      assert forall m <- members[1..] :: m in members;
    }
  }

  /** A value is strict for a depth exactly if its containers are nested no deeper and no object in
      it repeats a name. */
  lemma {:induction false} StrictIff(v: Json, room: nat)
    ensures Strict(v, room) <==> Height(v) <= room && !Repeats(v)
    decreases v
  {
    match v
    case Arr(items) =>
      if room > 0 {
        ItemsHeight(items, room - 1);
        forall x <- items { StrictIff(x, room - 1); }
      }
    case Obj(members) =>
      if room > 0 {
        MembersHeight(members, room - 1);
        forall m <- members { StrictIff(m.value, room - 1); }
      }
    case _ =>
  }

  // ---------- parsing ----------

  /** A parsed value with what is left. */
  type Parsed<T> = Option<(T, seq<Token>)>

  function Parse(ts: seq<Token>, room: nat): (r: Parsed<Json>)
    ensures r.Some? ==> |r.value.1| < |ts|
    decreases |ts|, 0
  {
    if ts == [] then None
    else match ts[0]
      case Text(text) => Some((Str(text), ts[1..]))
      case Literal(literal) => Some((Lit(literal), ts[1..]))
      case OpenArray =>
        if room == 0 then None
        else
          var r := ParseItems(ts[1..], room - 1);
          if r.Some? && r.value.1 != [] && r.value.1[0] == CloseArray
          then Some((Arr(r.value.0), r.value.1[1..])) else None
      case OpenObject =>
        if room == 0 then None
        else
          var r := ParseMembers(ts[1..], {}, room - 1);
          if r.Some? && r.value.1 != [] && r.value.1[0] == CloseObject
          then Some((Obj(r.value.0), r.value.1[1..])) else None
      case _ => None
  }

  /** Values up to a closing token. */
  function ParseItems(ts: seq<Token>, room: nat): (r: Parsed<seq<Json>>)
    ensures r.Some? ==> |r.value.1| <= |ts|
    decreases |ts|, 1
  {
    if ts == [] || IsClose(ts[0]) then Some(([], ts))
    else
      var first := Parse(ts, room);
      if first.None? then None
      else
        var rest := ParseItems(first.value.1, room);
        if rest.None? then None else Some(([first.value.0] + rest.value.0, rest.value.1))
  }

  /** Members with names outside `seen` and distinct, up to a closing token. */
  function ParseMembers(ts: seq<Token>, seen: set<string>, room: nat): (r: Parsed<seq<Member>>)
    ensures r.Some? ==> |r.value.1| <= |ts|
    decreases |ts|, 1
  {
    if ts == [] || IsClose(ts[0]) then Some(([], ts))
    else if !ts[0].Text? || ts[0].text in seen then None
    else
      var name := ts[0].text;
      var first := Parse(ts[1..], room);
      if first.None? then None
      else
        var rest := ParseMembers(first.value.1, seen + {name}, room);
        if rest.None? then None else Some(([Member(name, first.value.0)] + rest.value.0, rest.value.1))
  }

  // ---------- soundness ----------

  predicate Outside(members: seq<Member>, seen: set<string>) {
    && (forall m <- members :: m.name !in seen)
    && (forall i, j | 0 <= i < j < |members| :: members[i].name != members[j].name)
  }

  lemma {:induction false} ArraySound(ts: seq<Token>, room: nat)
    requires ts != [] && ts[0] == OpenArray && Parse(ts, room).Some?
    ensures
      room > 0 && ParseItems(ts[1..], room - 1).Some?
    ensures
      var r := ParseItems(ts[1..], room - 1).value;
      (forall x <- r.0 :: Strict(x, room - 1)) && ts[1..] == PrintItems(r.0) + r.1 ==>
        Strict(Parse(ts, room).value.0, room) && ts == Print(Parse(ts, room).value.0) + Parse(ts, room).value.1
  {
    var r := ParseItems(ts[1..], room - 1).value;
    hide ParseItems, PrintItems;
    if ts[1..] == PrintItems(r.0) + r.1 { Bracketed(ts, OpenArray, PrintItems(r.0), r.1, CloseArray); }
  }

  lemma {:induction false} ObjectSound(ts: seq<Token>, room: nat)
    requires ts != [] && ts[0] == OpenObject && Parse(ts, room).Some?
    ensures room > 0 && ParseMembers(ts[1..], {}, room - 1).Some?
    ensures
      var r := ParseMembers(ts[1..], {}, room - 1).value;
      Outside(r.0, {}) && (forall m <- r.0 :: Strict(m.value, room - 1)) && ts[1..] == PrintMembers(r.0) + r.1 ==>
        Strict(Parse(ts, room).value.0, room) && ts == Print(Parse(ts, room).value.0) + Parse(ts, room).value.1
  {
    var r := ParseMembers(ts[1..], {}, room - 1).value;
    hide ParseMembers, PrintMembers;
    if ts[1..] == PrintMembers(r.0) + r.1 { Bracketed(ts, OpenObject, PrintMembers(r.0), r.1, CloseObject); }
  }

  lemma Bracketed(ts: seq<Token>, open: Token, inner: seq<Token>, rest: seq<Token>, close: Token)
    requires ts != [] && ts[0] == open && ts[1..] == inner + rest && rest != [] && rest[0] == close
    ensures ts == ([open] + inner + [close]) + rest[1..]
  {
    assert ts == [ts[0]] + ts[1..];
    assert rest == [rest[0]] + rest[1..];
  }

  lemma {:induction false} ParseSound(ts: seq<Token>, room: nat)
    requires Parse(ts, room).Some?
    ensures Strict(Parse(ts, room).value.0, room)
    ensures ts == Print(Parse(ts, room).value.0) + Parse(ts, room).value.1
    decreases |ts|, 0
  {
    assert ts == [ts[0]] + ts[1..];
    match ts[0]
    case OpenArray =>
      ArraySound(ts, room);
      ItemsSound(ts[1..], room - 1);
      hide Parse, Strict, Print;
    case OpenObject =>
      ObjectSound(ts, room);
      MembersSound(ts[1..], {}, room - 1);
      hide Parse, Strict, Print;
    case _ =>
  }

  lemma {:induction false} PrintItemsCons(x: Json, xs: seq<Json>)
    ensures PrintItems([x] + xs) == Print(x) + PrintItems(xs)
  {
    assert ([x] + xs)[1..] == xs;
  }

  lemma NoItems(ts: seq<Token>)
    ensures PrintItems([]) + ts == ts
  {
  }

  lemma {:induction false} PrintMembersCons(m: Member, ms: seq<Member>)
    ensures PrintMembers([m] + ms) == [Text(m.name)] + Print(m.value) + PrintMembers(ms)
  {
    assert ([m] + ms)[1..] == ms;
  }

  lemma {:induction false} ItemsSound(ts: seq<Token>, room: nat)
    requires ParseItems(ts, room).Some?
    ensures forall x <- ParseItems(ts, room).value.0 :: Strict(x, room)
    ensures ts == PrintItems(ParseItems(ts, room).value.0) + ParseItems(ts, room).value.1
    decreases |ts|, 1
  {
    hide Print, PrintItems, Strict, Parse, IsClose;
    if ts == [] || IsClose(ts[0]) {
      NoItems(ts);
    } else {
      ParseSound(ts, room);
      var first := Parse(ts, room).value;
      ItemsSound(first.1, room);
      var rest := ParseItems(first.1, room).value;
      PrintItemsCons(first.0, rest.0);
    }
  }

  lemma OutsideCons(m: Member, ms: seq<Member>, seen: set<string>)
    requires m.name !in seen && Outside(ms, seen + {m.name})
    ensures Outside([m] + ms, seen)
  {
    var all := [m] + ms;
    forall i, j | 0 <= i < j < |all| ensures all[i].name != all[j].name {
      assert all[j] == ms[j - 1] && ms[j - 1] in ms;
      if i > 0 { assert all[i] == ms[i - 1]; }
    }
  }

  lemma {:induction false} MembersUnfold(ts: seq<Token>, seen: set<string>, room: nat)
    requires ParseMembers(ts, seen, room).Some? && ts != [] && !IsClose(ts[0])
    ensures ts[0].Text? && ts[0].text !in seen && Parse(ts[1..], room).Some?
    ensures
      var first := Parse(ts[1..], room).value;
      var rest := ParseMembers(first.1, seen + {ts[0].text}, room);
      && |first.1| < |ts| && rest.Some?
      && ParseMembers(ts, seen, room).value == ([Member(ts[0].text, first.0)] + rest.value.0, rest.value.1)
  {
  }

  lemma TextFirst(ts: seq<Token>, name: string, a: seq<Token>, b: seq<Token>, c: seq<Token>)
    requires ts != [] && ts[0] == Text(name) && ts[1..] == a + (b + c)
    ensures ts == ([Text(name)] + a + b) + c
  {
    assert ts == [ts[0]] + ts[1..];
  }

  lemma {:induction false} MembersSound(ts: seq<Token>, seen: set<string>, room: nat)
    requires ParseMembers(ts, seen, room).Some?
    ensures Outside(ParseMembers(ts, seen, room).value.0, seen)
    ensures forall m <- ParseMembers(ts, seen, room).value.0 :: Strict(m.value, room)
    ensures ts == PrintMembers(ParseMembers(ts, seen, room).value.0) + ParseMembers(ts, seen, room).value.1
    decreases |ts|, 1
  {
    if ts == [] || IsClose(ts[0]) {
      assert ts == [] + ts;
    } else {
      MembersUnfold(ts, seen, room);
      hide Print, PrintMembers, Strict, Parse, Outside, ParseMembers;
      var name := ts[0].text;
      ParseSound(ts[1..], room);
      var first := Parse(ts[1..], room).value;
      MembersSound(first.1, seen + {name}, room);
      var rest := ParseMembers(first.1, seen + {name}, room).value;
      var m := Member(name, first.0);
      OutsideCons(m, rest.0, seen);
      PrintMembersCons(m, rest.0);
      TextFirst(ts, name, Print(first.0), PrintMembers(rest.0), rest.1);
    }
  }

  // ---------- completeness ----------

  lemma {:induction false} ParsePrint(v: Json, rest: seq<Token>, room: nat)
    requires Strict(v, room)
    ensures Parse(Print(v) + rest, room) == Some((v, rest))
    decreases v, 0
  {
    var ts := Print(v) + rest;
    match v
    case Arr(items) =>
      assert ts[1..] == PrintItems(items) + ([CloseArray] + rest);
      ParsePrintItems(items, [CloseArray] + rest, room - 1);
    case Obj(members) =>
      assert ts[1..] == PrintMembers(members) + ([CloseObject] + rest);
      ParsePrintMembers(members, {}, [CloseObject] + rest, room - 1);
    case _ =>
  }

  lemma {:induction false} ParsePrintItems(items: seq<Json>, rest: seq<Token>, room: nat)
    requires (forall x <- items :: Strict(x, room)) && rest != [] && IsClose(rest[0])
    ensures ParseItems(PrintItems(items) + rest, room) == Some((items, rest))
    decreases items, 1
  {
    if items == [] {
      assert PrintItems(items) + rest == rest;
    } else {
      var more := PrintItems(items[1..]) + rest;
      assert PrintItems(items) + rest == Print(items[0]) + more;
      ParsePrint(items[0], more, room);
      ParsePrintItems(items[1..], rest, room);
      assert [items[0]] + items[1..] == items;
    }
  }

  lemma OutsideTail(members: seq<Member>, seen: set<string>)
    requires members != [] && Outside(members, seen)
    ensures members[0].name !in seen && Outside(members[1..], seen + {members[0].name})
  {
    var tail := members[1..];
    forall i, j | 0 <= i < j < |tail| ensures tail[i].name != tail[j].name {
      assert tail[i] == members[i + 1] && tail[j] == members[j + 1];
    }
    forall m <- tail ensures m.name !in seen + {members[0].name} {
      var i :| 0 <= i < |tail| && tail[i] == m;
      assert members[i + 1] == m;
    }
  }

  lemma {:induction false} NoMembers(rest: seq<Token>, seen: set<string>, room: nat)
    requires rest != [] && IsClose(rest[0])
    ensures ParseMembers(PrintMembers([]) + rest, seen, room) == Some(([], rest))
  {
    assert PrintMembers([]) + rest == rest;
  }

  lemma {:induction false} ParsePrintMembers(members: seq<Member>, seen: set<string>, rest: seq<Token>, room: nat)
    requires Outside(members, seen) && (forall m <- members :: Strict(m.value, room))
    requires rest != [] && IsClose(rest[0])
    ensures ParseMembers(PrintMembers(members) + rest, seen, room) == Some((members, rest))
    decreases members, 1
  {
    hide Print, PrintMembers, Strict, Parse, Outside, ParseMembers, IsClose;
    if members == [] {
      NoMembers(rest, seen, room);
    } else {
      var m, tail := members[0], members[1..];
      OutsideTail(members, seen);
      assert m in members && forall x <- tail :: x in members;
      var more := PrintMembers(tail) + rest;
      ParsePrint(m.value, more, room);
      ParsePrintMembers(tail, seen + {m.name}, rest, room);
      MembersStart(members, more, rest);
      ParseOneMember(m, more, seen, room);
      assert [m] + tail == members;
    }
  }

  lemma {:induction false} MembersStart(members: seq<Member>, more: seq<Token>, rest: seq<Token>)
    requires members != [] && more == PrintMembers(members[1..]) + rest
    ensures PrintMembers(members) + rest == [Text(members[0].name)] + (Print(members[0].value) + more)
  {
  }

  lemma {:induction false} ParseOneMember(m: Member, more: seq<Token>, seen: set<string>, room: nat)
    requires m.name !in seen && Parse(Print(m.value) + more, room) == Some((m.value, more))
    ensures
      var rest := ParseMembers(more, seen + {m.name}, room);
      ParseMembers([Text(m.name)] + (Print(m.value) + more), seen, room)
      == if rest.None? then None else Some(([m] + rest.value.0, rest.value.1))
  {
    var ts := [Text(m.name)] + (Print(m.value) + more);
    assert ts[1..] == Print(m.value) + more;
    hide Print, Parse;
  }

  /** The parser accepts exactly the printed forms of strict values, and consumes exactly one. */
  lemma {:induction false} ParseIff(ts: seq<Token>, room: nat, v: Json, rest: seq<Token>)
    ensures Parse(ts, room) == Some((v, rest)) <==> Strict(v, room) && ts == Print(v) + rest
  {
    if Parse(ts, room) == Some((v, rest)) { ParseSound(ts, room); }
    if Strict(v, room) && ts == Print(v) + rest { ParsePrint(v, rest, room); }
  }
}
