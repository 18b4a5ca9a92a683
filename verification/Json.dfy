/**
 JSON values with finite numbers, JSON.stringify and JSON.parse (RFC 8259), and the round trip.
 An object keeps its members in order; a well-formed object has no key twice.
 */
module Json {
  import opened Wrappers
  import opened JsonNumber
  import opened JsonString

  datatype Json =
    | Null
    | Bool(value: bool)
    | Num(number: Decimal)
    | Str(text: Text)
    | Arr(items: seq<Json>)
    | Obj(members: seq<Member>)

  datatype Member = Member(key: Text, value: Json)

  const COMMA: Unit := 0x2C
  const COLON: Unit := 0x3A
  const LBRACKET: Unit := 0x5B
  const RBRACKET: Unit := 0x5D
  const LBRACE: Unit := 0x7B
  const RBRACE: Unit := 0x7D
  const TRUE_TEXT: Text := [0x74, 0x72, 0x75, 0x65]
  const FALSE_TEXT: Text := [0x66, 0x61, 0x6C, 0x73, 0x65]
  const NULL_TEXT: Text := [0x6E, 0x75, 0x6C, 0x6C]

  predicate DistinctKeys(ms: seq<Member>) {
    forall i, j :: 0 <= i < j < |ms| ==> ms[i].key != ms[j].key
  }

  predicate Ok(v: Json) {
    match v
    case Num(n) => NumberOk(n)
    case Arr(items) => forall i :: 0 <= i < |items| ==> Ok(items[i])
    case Obj(ms) => DistinctKeys(ms) && forall i :: 0 <= i < |ms| ==> Ok(ms[i].value)
    case _ => true
  }

  // ----- JSON.stringify

  function Stringify(v: Json): Text
    requires Ok(v)
    decreases v
  {
    match v
    case Null => NULL_TEXT
    case Bool(b) => if b then TRUE_TEXT else FALSE_TEXT
    case Num(n) => NumberText(n)
    case Str(s) => Quoted(s)
    case Arr(items) => [LBRACKET] + JoinItems(items) + [RBRACKET]
    case Obj(ms) => [LBRACE] + JoinMembers(ms) + [RBRACE]
  }

  function JoinItems(items: seq<Json>): Text
    requires forall i :: 0 <= i < |items| ==> Ok(items[i])
    decreases items
  {
    if items == [] then []
    else if |items| == 1 then Stringify(items[0])
    else Stringify(items[0]) + [COMMA] + JoinItems(items[1..])
  }

  function MemberText(m: Member): Text
    requires Ok(m.value)
    decreases m
  {
    Quoted(m.key) + [COLON] + Stringify(m.value)
  }

  function JoinMembers(ms: seq<Member>): Text
    requires forall i :: 0 <= i < |ms| ==> Ok(ms[i].value)
    decreases ms
  {
    if ms == [] then []
    else if |ms| == 1 then MemberText(ms[0])
    else MemberText(ms[0]) + [COMMA] + JoinMembers(ms[1..])
  }

  // ----- JSON.parse

  predicate IsSpace(u: Unit) {
    u == 0x20 || u == 0x09 || u == 0x0A || u == 0x0D
  }

  function SkipSpace(t: Text): (r: Text)
    ensures |r| <= |t| && (r != [] ==> !IsSpace(r[0]))
  {
    if t != [] && IsSpace(t[0]) then SkipSpace(t[1..]) else t
  }

  /** A later member with the same key replaces the value of the earlier one. */
  function Put(ms: seq<Member>, m: Member): (r: seq<Member>)
    requires DistinctKeys(ms)
    ensures DistinctKeys(r)
    ensures forall x :: x in r ==> x == m || x in ms
    ensures (forall i :: 0 <= i < |ms| ==> ms[i].key != m.key) ==> r == ms + [m]
  {
    if ms == [] then [m]
    else if ms[0].key == m.key then [m] + ms[1..]
    else
      var rest := Put(ms[1..], m);
      assert forall i :: 0 <= i < |rest| ==> rest[i].key != ms[0].key by {
        forall i | 0 <= i < |rest| ensures rest[i].key != ms[0].key {
          assert rest[i] in rest;
        }
      }
      [ms[0]] + rest
  }

  function Collapse(ms: seq<Member>): (r: seq<Member>)
    ensures DistinctKeys(r)
    ensures forall x :: x in r ==> x in ms
    ensures DistinctKeys(ms) ==> r == ms
  {
    if ms == [] then []
    else
      assert ms == ms[..|ms| - 1] + [ms[|ms| - 1]];
      Put(Collapse(ms[..|ms| - 1]), ms[|ms| - 1])
  }

  function ReadLiteral(t: Text, literal: Text, v: Json): (r: Option<(Json, Text)>)
    requires literal != []
    ensures r.Some? ==> r.value.0 == v && |r.value.1| < |t|
  {
    if literal <= t then Some((v, t[|literal|..])) else None
  }

  function NumberValue(r: Option<(Decimal, Text)>): Option<(Json, Text)> {
    match r
    case None => None
    case Some((n, rest)) => Some((Num(n), rest))
  }

  function ReadScalar(t: Text): (r: Option<(Json, Text)>)
    requires t != []
    ensures r.Some? ==> Ok(r.value.0) && |r.value.1| < |t|
  {
    if t[0] == QUOTE then
      match ReadString(t[1..])
      case None => None
      case Some((s, rest)) => Some((Str(s), rest))
    else if t[0] == TRUE_TEXT[0] then ReadLiteral(t, TRUE_TEXT, Bool(true))
    else if t[0] == FALSE_TEXT[0] then ReadLiteral(t, FALSE_TEXT, Bool(false))
    else if t[0] == NULL_TEXT[0] then ReadLiteral(t, NULL_TEXT, Null)
    else NumberValue(ReadNumber(t))
  }

  function ReadValue(text: Text): (r: Option<(Json, Text)>)
    ensures r.Some? ==> Ok(r.value.0) && |r.value.1| < |text|
    decreases |text|, 4
  {
    var t := SkipSpace(text);
    if t == [] then None
    else if t[0] == LBRACKET then ReadArray(t[1..])
    else if t[0] == LBRACE then ReadObject(t[1..])
    else ReadScalar(t)
  }

  /** An array whose opening bracket has been consumed. */
  function ReadArray(text: Text): (r: Option<(Json, Text)>)
    ensures r.Some? ==> Ok(r.value.0) && |r.value.1| < |text|
    decreases |text|, 6
  {
    var t := SkipSpace(text);
    if t != [] && t[0] == RBRACKET then Some((Arr([]), t[1..]))
    else match ReadItems(text)
      case None => None
      case Some((items, rest)) => Some((Arr(items), rest))
  }

  /** An object whose opening brace has been consumed. */
  function ReadObject(text: Text): (r: Option<(Json, Text)>)
    ensures r.Some? ==> Ok(r.value.0) && |r.value.1| < |text|
    decreases |text|, 7
  {
    var t := SkipSpace(text);
    if t != [] && t[0] == RBRACE then Some((Obj([]), t[1..]))
    else match ReadMembers(text)
      case None => None
      case Some((ms, rest)) =>
        assert forall i :: 0 <= i < |Collapse(ms)| ==> Collapse(ms)[i] in ms;
        Some((Obj(Collapse(ms)), rest))
  }

  /** One or more values separated by commas, up to and including the closing bracket. */
  function ReadItems(text: Text): (r: Option<(seq<Json>, Text)>)
    ensures r.Some? ==> |r.value.1| < |text| && forall i :: 0 <= i < |r.value.0| ==> Ok(r.value.0[i])
    decreases |text|, 5
  {
    match ReadValue(text)
    case None => None
    case Some((v, after)) =>
      var t := SkipSpace(after);
      if t == [] then None
      else if t[0] == RBRACKET then Some(([v], t[1..]))
      else if t[0] == COMMA then
        match ReadItems(t[1..])
        case None => None
        case Some((vs, rest)) => Some(([v] + vs, rest))
      else None
  }

  function ReadMember(text: Text): (r: Option<(Member, Text)>)
    ensures r.Some? ==> Ok(r.value.0.value) && |r.value.1| < |text|
    decreases |text|, 5
  {
    var t := SkipSpace(text);
    if t == [] || t[0] != QUOTE then None
    else match ReadString(t[1..])
      case None => None
      case Some((key, after)) =>
        var u := SkipSpace(after);
        if u == [] || u[0] != COLON then None
        else match ReadValue(u[1..])
          case None => None
          case Some((v, rest)) => Some((Member(key, v), rest))
  }

  /** One or more members separated by commas, up to and including the closing brace. */
  function ReadMembers(text: Text): (r: Option<(seq<Member>, Text)>)
    ensures r.Some? ==> |r.value.1| < |text| && forall i :: 0 <= i < |r.value.0| ==> Ok(r.value.0[i].value)
    decreases |text|, 6
  {
    match ReadMember(text)
    case None => None
    case Some((m, after)) =>
      var t := SkipSpace(after);
      if t == [] then None
      else if t[0] == RBRACE then Some(([m], t[1..]))
      else if t[0] == COMMA then
        match ReadMembers(t[1..])
        case None => None
        case Some((ms, rest)) => Some(([m] + ms, rest))
      else None
  }

  function Parse(text: Text): (r: Option<Json>)
    ensures r.Some? ==> Ok(r.value)
  {
    match ReadValue(text)
    case None => None
    case Some((v, rest)) => if SkipSpace(rest) == [] then Some(v) else None
  }

  // ----- the round trip

  /** The first unit of a printed value is neither white space nor a closing bracket. */
  lemma {:induction false} ValueHead(v: Json)
    requires Ok(v)
    ensures Stringify(v) != [] && !IsSpace(Stringify(v)[0]) && Stringify(v)[0] != RBRACKET
  {
    if v.Num? { NumberHead(v.number); }
  }

  lemma {:induction false} ReadsBack(v: Json, rest: Text)
    requires Ok(v) && Delimited(rest)
    ensures ReadValue(Stringify(v) + rest) == Some((v, rest))
    decreases v, 0
  {
    match v
    case Arr(items) =>
      if items == [] {
        EmptyArrReadsBack(rest);
      } else {
        ItemsReadBack(items, rest);
        ArrReadsBack(items, rest);
      }
    case Obj(ms) =>
      if ms == [] {
        EmptyObjReadsBack(rest);
      } else {
        MembersReadBack(ms, rest);
        ObjReadsBack(ms, rest);
      }
    case Str(s) => StrReadsBack(s, rest);
    case Num(n) => NumReadsBack(n, rest);
    case _ => LiteralReadsBack(v, rest);
  }

  lemma {:induction false} LiteralReadsBack(v: Json, rest: Text)
    requires v.Null? || v.Bool?
    ensures ReadValue(Stringify(v) + rest) == Some((v, rest))
  {
    assert (Stringify(v) + rest)[|Stringify(v)|..] == rest;
  }

  lemma {:induction false} NumberOpens(t: Text)
    requires t != [] && (IsDigit(t[0]) || t[0] == MINUS)
    ensures ReadValue(t) == NumberValue(ReadNumber(t))
  {
    hide ReadNumber, ReadArray, ReadObject, ReadLiteral, ReadString, Ok;
    assert SkipSpace(t) == t;
  }

  lemma {:induction false} NumReadsBack(n: Decimal, rest: Text)
    requires NumberOk(n) && Delimited(rest)
    ensures ReadValue(NumberText(n) + rest) == Some((Num(n), rest))
  {
    NumberReadsBack(n, rest);
    NumberHead(n);
    NumberOpens(NumberText(n) + rest);
  }

  lemma {:induction false} StringOpens(u: Text, s: Text, rest: Text)
    requires ReadString(u) == Some((s, rest))
    ensures ReadValue([QUOTE] + u) == Some((Str(s), rest))
  {
    assert ([QUOTE] + u)[1..] == u;
  }

  lemma {:induction false} QuotedThen(s: Text, rest: Text)
    ensures Quoted(s) + rest == [QUOTE] + (Escaped(s) + ([QUOTE] + rest))
  {
  }

  lemma {:induction false} StrReadsBack(s: Text, rest: Text)
    ensures ReadValue(Quoted(s) + rest) == Some((Str(s), rest))
  {
    StringReadsBack(s, rest);
    StringOpens(Escaped(s) + ([QUOTE] + rest), s, rest);
    QuotedThen(s, rest);
  }

  lemma {:induction false} ArrayOpens(u: Text)
    ensures ReadValue([LBRACKET] + u) == ReadArray(u)
  {
    assert ([LBRACKET] + u)[1..] == u;
  }

  lemma {:induction false} ObjectOpens(u: Text)
    ensures ReadValue([LBRACE] + u) == ReadObject(u)
  {
    assert ([LBRACE] + u)[1..] == u;
  }

  lemma {:induction false} ItemsHead(items: seq<Json>, tail: Text)
    requires items != [] && Ok(items[0]) && forall i :: 0 <= i < |items| ==> Ok(items[i])
    ensures var u := JoinItems(items) + tail; u != [] && SkipSpace(u) == u && u[0] != RBRACKET
  {
    ValueHead(items[0]);
  }

  lemma {:induction false} ArrayCloses(u: Text, items: seq<Json>, rest: Text)
    requires u != [] && SkipSpace(u) == u && u[0] != RBRACKET
    requires ReadItems(u) == Some((items, rest))
    ensures ReadArray(u) == Some((Arr(items), rest))
  {
  }

  lemma {:induction false} EmptyArrReadsBack(rest: Text)
    ensures ReadValue(Stringify(Arr([])) + rest) == Some((Arr([]), rest))
  {
    var u := [RBRACKET] + rest;
    assert Stringify(Arr([])) + rest == [LBRACKET] + u;
    ArrayOpens(u);
    assert u[1..] == rest;
  }

  lemma {:induction false} ArrReadsBack(items: seq<Json>, rest: Text)
    requires items != [] && Ok(Arr(items))
    requires ReadItems(JoinItems(items) + ([RBRACKET] + rest)) == Some((items, rest))
    ensures ReadValue(Stringify(Arr(items)) + rest) == Some((Arr(items), rest))
  {
    var u := JoinItems(items) + ([RBRACKET] + rest);
    assert Stringify(Arr(items)) + rest == [LBRACKET] + u by { hide JoinItems, ReadItems, ReadValue; }
    hide Stringify, JoinItems, ReadItems, ReadValue, ReadArray;
    ArrayOpens(u);
    ItemsHead(items, [RBRACKET] + rest);
    ArrayCloses(u, items, rest);
  }

  lemma {:induction false} MembersHead(ms: seq<Member>, tail: Text)
    requires ms != [] && forall i :: 0 <= i < |ms| ==> Ok(ms[i].value)
    ensures var u := JoinMembers(ms) + tail; u != [] && SkipSpace(u) == u && u[0] != RBRACE
  {
    assert MemberText(ms[0])[0] == QUOTE;
  }

  lemma {:induction false} ObjectCloses(u: Text, ms: seq<Member>, rest: Text)
    requires u != [] && SkipSpace(u) == u && u[0] != RBRACE && DistinctKeys(ms)
    requires ReadMembers(u) == Some((ms, rest))
    ensures ReadObject(u) == Some((Obj(ms), rest))
  {
  }

  lemma {:induction false} EmptyObjReadsBack(rest: Text)
    ensures ReadValue(Stringify(Obj([])) + rest) == Some((Obj([]), rest))
  {
    var u := [RBRACE] + rest;
    assert Stringify(Obj([])) + rest == [LBRACE] + u;
    ObjectOpens(u);
    assert u[1..] == rest;
  }

  lemma {:induction false} ObjReadsBack(ms: seq<Member>, rest: Text)
    requires ms != [] && Ok(Obj(ms))
    requires ReadMembers(JoinMembers(ms) + ([RBRACE] + rest)) == Some((ms, rest))
    ensures ReadValue(Stringify(Obj(ms)) + rest) == Some((Obj(ms), rest))
  {
    var u := JoinMembers(ms) + ([RBRACE] + rest);
    assert Stringify(Obj(ms)) + rest == [LBRACE] + u by { hide JoinMembers, ReadMembers, ReadValue; }
    hide Stringify, JoinMembers, ReadMembers, ReadValue, ReadObject;
    ObjectOpens(u);
    MembersHead(ms, [RBRACE] + rest);
    ObjectCloses(u, ms, rest);
  }

  lemma {:induction false} LastItem(text: Text, v: Json, rest: Text)
    requires ReadValue(text) == Some((v, [RBRACKET] + rest))
    ensures ReadItems(text) == Some(([v], rest))
  {
    assert ([RBRACKET] + rest)[1..] == rest;
  }

  lemma {:induction false} NextItem(text: Text, v: Json, after: Text, vs: seq<Json>, rest: Text)
    requires ReadValue(text) == Some((v, [COMMA] + after)) && ReadItems(after) == Some((vs, rest))
    ensures ReadItems(text) == Some(([v] + vs, rest))
  {
    assert ([COMMA] + after)[1..] == after;
  }

  lemma Regroup(a: Text, b: Text, tail: Text)
    ensures a + [COMMA] + b + tail == a + ([COMMA] + (b + tail))
  {
  }

  lemma {:induction false} JoinItemsSplits(items: seq<Json>, tail: Text)
    requires 2 <= |items| && forall i :: 0 <= i < |items| ==> Ok(items[i])
    ensures JoinItems(items) + tail == Stringify(items[0]) + ([COMMA] + (JoinItems(items[1..]) + tail))
    ensures [items[0]] + items[1..] == items
  {
    hide Stringify, Ok;
    Regroup(Stringify(items[0]), JoinItems(items[1..]), tail);
  }

  lemma {:induction false} ItemsReadBack(items: seq<Json>, rest: Text)
    requires items != [] && forall i :: 0 <= i < |items| ==> Ok(items[i])
    ensures ReadItems(JoinItems(items) + ([RBRACKET] + rest)) == Some((items, rest))
    decreases items, 1
  {
    var tail := [RBRACKET] + rest;
    if |items| == 1 {
      ReadsBack(items[0], tail);
      LastItem(Stringify(items[0]) + tail, items[0], rest);
      assert items == [items[0]];
    } else {
      var after := JoinItems(items[1..]) + tail;
      ReadsBack(items[0], [COMMA] + after);
      ItemsReadBack(items[1..], rest);
      NextItem(Stringify(items[0]) + ([COMMA] + after), items[0], after, items[1..], rest);
      JoinItemsSplits(items, tail);
    }
  }

  lemma {:induction false} MemberOpens(u: Text, key: Text, after: Text, v: Json, rest: Text)
    requires ReadString(u) == Some((key, [COLON] + after)) && ReadValue(after) == Some((v, rest))
    ensures ReadMember([QUOTE] + u) == Some((Member(key, v), rest))
  {
    assert SkipSpace([QUOTE] + u) == [QUOTE] + u;
    assert ([QUOTE] + u)[1..] == u;
    assert ([COLON] + after)[1..] == after;
  }

  lemma {:induction false} QuotedSplits(key: Text, text: Text, rest: Text)
    ensures Quoted(key) + [COLON] + text + rest == [QUOTE] + (Escaped(key) + ([QUOTE] + ([COLON] + (text + rest))))
  {
  }

  lemma {:induction false} MemberPartsReadBack(key: Text, text: Text, v: Json, rest: Text)
    requires ReadValue(text + rest) == Some((v, rest))
    ensures ReadMember(Quoted(key) + [COLON] + text + rest) == Some((Member(key, v), rest))
  {
    var after := text + rest;
    var u := Escaped(key) + ([QUOTE] + ([COLON] + after));
    StringReadsBack(key, [COLON] + after);
    MemberOpens(u, key, after, v, rest);
    QuotedSplits(key, text, rest);
  }

  lemma {:induction false} MemberReadsBack(m: Member, rest: Text)
    requires Ok(m.value) && ReadValue(Stringify(m.value) + rest) == Some((m.value, rest))
    ensures ReadMember(MemberText(m) + rest) == Some((m, rest))
  {
    MemberPartsReadBack(m.key, Stringify(m.value), m.value, rest);
  }

  lemma {:induction false} LastMember(text: Text, m: Member, rest: Text)
    requires ReadMember(text) == Some((m, [RBRACE] + rest))
    ensures ReadMembers(text) == Some(([m], rest))
  {
    assert ([RBRACE] + rest)[1..] == rest;
  }

  lemma {:induction false} NextMember(text: Text, m: Member, after: Text, ms: seq<Member>, rest: Text)
    requires ReadMember(text) == Some((m, [COMMA] + after)) && ReadMembers(after) == Some((ms, rest))
    ensures ReadMembers(text) == Some(([m] + ms, rest))
  {
    assert ([COMMA] + after)[1..] == after;
  }

  lemma {:induction false} JoinMembersSplits(ms: seq<Member>, tail: Text)
    requires 2 <= |ms| && forall i :: 0 <= i < |ms| ==> Ok(ms[i].value)
    ensures JoinMembers(ms) + tail == MemberText(ms[0]) + ([COMMA] + (JoinMembers(ms[1..]) + tail))
    ensures [ms[0]] + ms[1..] == ms
  {
    hide MemberText, Ok;
    Regroup(MemberText(ms[0]), JoinMembers(ms[1..]), tail);
  }

  lemma {:induction false} MembersReadBack(ms: seq<Member>, rest: Text)
    requires ms != [] && forall i :: 0 <= i < |ms| ==> Ok(ms[i].value)
    ensures ReadMembers(JoinMembers(ms) + ([RBRACE] + rest)) == Some((ms, rest))
    decreases ms, 1
  {
    var tail := [RBRACE] + rest;
    if |ms| == 1 {
      ReadsBack(ms[0].value, tail);
      MemberReadsBack(ms[0], tail);
      LastMember(MemberText(ms[0]) + tail, ms[0], rest);
      assert ms == [ms[0]];
    } else {
      var after := JoinMembers(ms[1..]) + tail;
      ReadsBack(ms[0].value, [COMMA] + after);
      MemberReadsBack(ms[0], [COMMA] + after);
      MembersReadBack(ms[1..], rest);
      NextMember(MemberText(ms[0]) + ([COMMA] + after), ms[0], after, ms[1..], rest);
      JoinMembersSplits(ms, tail);
    }
  }

  /** JSON.parse of what JSON.stringify printed is the same value, member order included. */
  lemma {:induction false} ParseStringify(v: Json)
    requires Ok(v)
    ensures Parse(Stringify(v)) == Some(v)
  {
    ReadsBack(v, []);
    assert Stringify(v) + [] == Stringify(v);
  }

  // ----- what is printed can be sent

  /**
   The text of every value is well-formed UTF-16 without control characters: a payload or result with a lone
   surrogate crosses a channel that carries UTF-8 as it is, because the surrogate is escaped.
   */
  lemma {:induction false} StringifyIsSendable(v: Json)
    requires Ok(v)
    ensures Sendable(Stringify(v))
    decreases v
  {
    match v
    case Num(n) =>
      NotationIsExact(n);
      PlainIsSendable(NumberText(n));
    case Str(s) => QuotedIsSendable(s);
    case Arr(items) =>
      ItemsAreSendable(items);
      Bracketed(LBRACKET, JoinItems(items), RBRACKET);
    case Obj(ms) =>
      MembersAreSendable(ms);
      Bracketed(LBRACE, JoinMembers(ms), RBRACE);
    case _ => PlainIsSendable(Stringify(v));
  }

  lemma Bracketed(left: Unit, t: Text, right: Unit)
    requires Sendable(t) && 0x20 <= left < 0x80 && 0x20 <= right < 0x80
    ensures Sendable([left] + t + [right])
  {
    PlainIsSendable([left]);
    PlainIsSendable([right]);
    hide Sendable;
    SendableParts([left], t);
    SendableParts([left] + t, [right]);
  }

  lemma {:induction false} ItemsAreSendable(items: seq<Json>)
    requires forall i :: 0 <= i < |items| ==> Ok(items[i])
    ensures Sendable(JoinItems(items))
    decreases items
  {
    PlainIsSendable([COMMA]);
    hide Sendable;
    if items != [] {
      StringifyIsSendable(items[0]);
      if |items| > 1 {
        ItemsAreSendable(items[1..]);
        SendableParts(Stringify(items[0]), [COMMA]);
        SendableParts(Stringify(items[0]) + [COMMA], JoinItems(items[1..]));
      }
    }
  }

  lemma {:induction false} MembersAreSendable(ms: seq<Member>)
    requires forall i :: 0 <= i < |ms| ==> Ok(ms[i].value)
    ensures Sendable(JoinMembers(ms))
    decreases ms
  {
    PlainIsSendable([COMMA]);
    PlainIsSendable([COLON]);
    hide Sendable;
    if ms != [] {
      StringifyIsSendable(ms[0].value);
      QuotedIsSendable(ms[0].key);
      SendableParts(Quoted(ms[0].key), [COLON]);
      SendableParts(Quoted(ms[0].key) + [COLON], Stringify(ms[0].value));
      if |ms| > 1 {
        MembersAreSendable(ms[1..]);
        SendableParts(MemberText(ms[0]), [COMMA]);
        SendableParts(MemberText(ms[0]) + [COMMA], JoinMembers(ms[1..]));
      }
    }
  }
}
