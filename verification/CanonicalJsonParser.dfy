// A parser that inverts the printer: whatever canonicalJson prints is read back as exactly the value it
// committed to, so no two values with different normal forms share a print.
module CanonicalJsonParser {
  import opened Wrappers
  import opened CanonicalJson

  datatype Parsed<T> = Parsed(value: T, rest: Text)

  predicate IsDigit(u: Unit) { 48 <= u < 58 }

  function DigitSpan(t: Text): (n: nat)
    ensures n <= |t| && forall i :: 0 <= i < n ==> IsDigit(t[i])
  {
    if t == [] || !IsDigit(t[0]) then 0 else 1 + DigitSpan(t[1..])
  }

  function DigitsValue(t: Text): nat
    requires forall i :: 0 <= i < |t| ==> IsDigit(t[i])
  {
    if t == [] then 0
    else
      assert IsDigit(t[|t| - 1]);
      10 * DigitsValue(t[..|t| - 1]) + (t[|t| - 1] - 48)
  }

  function ParseNumber(t: Text): (r: Option<Parsed<Json>>)
    ensures r.Some? ==> |r.value.rest| < |t|
  {
    var negative := t != [] && t[0] == MINUS;
    var body := if negative then t[1..] else t;
    var n := DigitSpan(body);
    if n == 0 then None
    else
      var value: int := DigitsValue(body[..n]);
      Some(Parsed(Num(if negative then -value else value), body[n..]))
  }

  function HexValue(u: Unit): nat {
    if 48 <= u < 58 then u - 48 else if 97 <= u < 103 then u - 87 else 0
  }

  function Unescape(letter: Unit): Unit {
    if letter == 98 then 8
    else if letter == 102 then 12
    else if letter == 110 then 10
    else if letter == 114 then 13
    else if letter == 116 then 9
    else letter
  }

  // One unit of a string body.
  function ParseUnit(t: Text): (r: Option<Parsed<Unit>>)
    ensures r.Some? ==> |r.value.rest| < |t|
  {
    if t == [] then None
    else if t[0] != BACKSLASH then Some(Parsed(t[0], t[1..]))
    else if |t| < 2 then None
    else if t[1] != LETTER_U then Some(Parsed(Unescape(t[1]), t[2..]))
    else if |t| < 6 then None
    else
      var value := 4096 * HexValue(t[2]) + 256 * HexValue(t[3]) + 16 * HexValue(t[4]) + HexValue(t[5]);
      if value >= 0x1_0000 then None else Some(Parsed(value, t[6..]))
  }

  // A string body and its closing quote.
  function ParseString(t: Text): (r: Option<Parsed<Text>>)
    ensures r.Some? ==> |r.value.rest| < |t|
    decreases |t|
  {
    if t == [] then None
    else if t[0] == QUOTE then Some(Parsed([], t[1..]))
    else
      var first := ParseUnit(t);
      if first.None? then None
      else
        var more := ParseString(first.value.rest);
        if more.None? then None else Some(Parsed([first.value.value] + more.value.value, more.value.rest))
  }

  function ParseWord(t: Text, word: Text, v: Json): (r: Option<Parsed<Json>>)
    requires word != []
    ensures r.Some? ==> |r.value.rest| < |t|
  {
    if |word| <= |t| && t[..|word|] == word then Some(Parsed(v, t[|word|..])) else None
  }

  function Parse(t: Text): (r: Option<Parsed<Json>>)
    ensures r.Some? ==> |r.value.rest| < |t|
    decreases |t|, 3
  {
    if t == [] then None
    else if t[0] == QUOTE then
      var s := ParseString(t[1..]);
      if s.None? then None else Some(Parsed(Str(s.value.value), s.value.rest))
    else if t[0] == OPEN_BRACKET then ParseArray(t)
    else if t[0] == OPEN_BRACE then ParseObject(t)
    else if t[0] == NULL_TEXT[0] then ParseWord(t, NULL_TEXT, Null)
    else if t[0] == TRUE_TEXT[0] then ParseWord(t, TRUE_TEXT, Bool(true))
    else if t[0] == FALSE_TEXT[0] then ParseWord(t, FALSE_TEXT, Bool(false))
    else ParseNumber(t)
  }

  function ParseArray(t: Text): (r: Option<Parsed<Json>>)
    requires t != []
    ensures r.Some? ==> |r.value.rest| < |t|
    decreases |t|, 2
  {
    if |t| > 1 && t[1] == CLOSE_BRACKET then Some(Parsed(Arr([]), t[2..]))
    else
      var items := ParseItems(t[1..]);
      if items.None? then None else Some(Parsed(Arr(items.value.value), items.value.rest))
  }

  function ParseObject(t: Text): (r: Option<Parsed<Json>>)
    requires t != []
    ensures r.Some? ==> |r.value.rest| < |t|
    decreases |t|, 2
  {
    if |t| > 1 && t[1] == CLOSE_BRACE then Some(Parsed(Obj([]), t[2..]))
    else
      var members := ParseMembers(t[1..]);
      if members.None? then None else Some(Parsed(Obj(members.value.value), members.value.rest))
  }

  // One or more items and the closing bracket.
  function ParseItems(t: Text): (r: Option<Parsed<seq<Json>>>)
    ensures r.Some? ==> |r.value.rest| < |t|
    decreases |t|, 4
  {
    var first := Parse(t);
    if first.None? || first.value.rest == [] then None
    else
      var rest := first.value.rest;
      if rest[0] == CLOSE_BRACKET then Some(Parsed([first.value.value], rest[1..]))
      else if rest[0] != COMMA then None
      else
        var more := ParseItems(rest[1..]);
        if more.None? then None else Some(Parsed([first.value.value] + more.value.value, more.value.rest))
  }

  function ParseMember(t: Text): (r: Option<Parsed<Member>>)
    ensures r.Some? ==> |r.value.rest| < |t|
    decreases |t|, 0
  {
    if t == [] || t[0] != QUOTE then None
    else
      var key := ParseString(t[1..]);
      if key.None? || key.value.rest == [] || key.value.rest[0] != COLON then None
      else
        var item := Parse(key.value.rest[1..]);
        if item.None? then None else Some(Parsed(Member(key.value.value, item.value.value), item.value.rest))
  }

  // One or more members and the closing brace.
  function ParseMembers(t: Text): (r: Option<Parsed<seq<Member>>>)
    ensures r.Some? ==> |r.value.rest| < |t|
    decreases |t|, 4
  {
    var first := ParseMember(t);
    if first.None? || first.value.rest == [] then None
    else
      var rest := first.value.rest;
      if rest[0] == CLOSE_BRACE then Some(Parsed([first.value.value], rest[1..]))
      else if rest[0] != COMMA then None
      else
        var more := ParseMembers(rest[1..]);
        if more.None? then None else Some(Parsed([first.value.value] + more.value.value, more.value.rest))
  }

  // ---- Reading back numbers

  predicate AllDigits(t: Text) { forall i :: 0 <= i < |t| ==> IsDigit(t[i]) }

  lemma {:induction false} DigitsAreDigits(n: nat)
    ensures |Digits(n)| > 0 && AllDigits(Digits(n)) && DigitsValue(Digits(n)) == n
  {
    if n < 10 {
      assert DigitsValue(Digits(n)[..0]) == 0;
    } else {
      DigitsAreDigits(n / 10);
      var d := Digits(n);
      assert d[..|d| - 1] == Digits(n / 10);
    }
  }

  lemma {:induction false} SpanOfDigits(ds: Text, rest: Text)
    requires AllDigits(ds) && (rest == [] || !IsDigit(rest[0]))
    ensures DigitSpan(ds + rest) == |ds|
  {
    if ds == [] {
      assert ds + rest == rest;
    } else {
      assert (ds + rest)[1..] == ds[1..] + rest;
      SpanOfDigits(ds[1..], rest);
    }
  }

  predicate EndsNumber(rest: Text) { rest == [] || !IsDigit(rest[0]) }

  lemma SplitDigits(ds: Text, rest: Text)
    requires AllDigits(ds) && EndsNumber(rest)
    ensures var t := ds + rest; DigitSpan(t) == |ds| && t[..|ds|] == ds && t[|ds|..] == rest
    ensures ([MINUS] + ds + rest)[1..] == ds + rest
  {
    SpanOfDigits(ds, rest);
  }

  lemma ReadDigits(ds: Text, n: nat, rest: Text)
    requires AllDigits(ds) && ds != [] && DigitsValue(ds) == n && EndsNumber(rest)
    ensures ParseNumber(ds + rest) == Some(Parsed(Num(n), rest))
  {
    SplitDigits(ds, rest);
    assert IsDigit(ds[0]) && (ds + rest)[0] == ds[0];
  }

  lemma ReadNegated(ds: Text, n: int, rest: Text)
    requires AllDigits(ds) && ds != [] && DigitsValue(ds) == n && EndsNumber(rest)
    ensures ParseNumber([MINUS] + ds + rest) == Some(Parsed(Num(-n), rest))
  {
    SplitDigits(ds, rest);
  }

  lemma NumberStarts(t: Text)
    requires t != [] && (t[0] == MINUS || IsDigit(t[0]))
    ensures Parse(t) == ParseNumber(t)
  {
  }

  lemma ReadNumber(n: int, rest: Text)
    requires EndsNumber(rest)
    ensures Parse(Decimal(n) + rest) == Some(Parsed(Num(n), rest))
  {
    var size: nat := if n < 0 then -n else n;
    DigitsAreDigits(size);
    if n < 0 { ReadNegated(Digits(size), size, rest); } else { ReadDigits(Digits(size), size, rest); }
    NumberStarts(Decimal(n) + rest);
  }

  // ---- Reading back strings

  lemma HexReads(u: Unit)
    ensures 4096 * HexValue(Hex4(u)[0]) + 256 * HexValue(Hex4(u)[1]) + 16 * HexValue(Hex4(u)[2])
      + HexValue(Hex4(u)[3]) == u
  {
    assert forall d: nat :: d < 16 ==> HexValue(HexDigit(d)) == d;
    assert u == 16 * (u / 16) + u % 16;
    assert u / 16 == 16 * (u / 256) + u / 16 % 16;
    assert u / 256 == 16 * (u / 4096) + u / 256 % 16;
  }

  lemma ReadUnit(s: Text, i: nat, rest: Text)
    requires i < |s|
    ensures Escape(s, i) != [] && Escape(s, i)[0] != QUOTE
    ensures ParseUnit(Escape(s, i) + rest) == Some(Parsed(s[i], rest))
  {
    var e := Escape(s, i);
    var t := e + rest;
    if ShortEscape(s[i]).Some? {
      assert t[2..] == rest;
    } else if s[i] < 32 || Lone(s, i) {
      HexReads(s[i]);
      assert e == [BACKSLASH, LETTER_U] + Hex4(s[i]);
      assert t[2] == Hex4(s[i])[0] && t[3] == Hex4(s[i])[1] && t[4] == Hex4(s[i])[2] && t[5] == Hex4(s[i])[3];
      assert t[6..] == rest;
    } else {
      assert t[1..] == rest;
    }
  }

  lemma Regroup(e: Text, later: Text, rest: Text)
    ensures (e + later) + [QUOTE] + rest == e + (later + [QUOTE] + rest)
  {
  }

  lemma ReadNextUnit(e: Text, u: Unit, later: Text, text: Text, rest: Text)
    requires e != [] && e[0] != QUOTE
    requires ParseUnit(e + (later + [QUOTE] + rest)) == Some(Parsed(u, later + [QUOTE] + rest))
    requires ParseString(later + [QUOTE] + rest) == Some(Parsed(text, rest))
    ensures ParseString((e + later) + [QUOTE] + rest) == Some(Parsed([u] + text, rest))
  {
    Regroup(e, later, rest);
  }

  lemma ReadClosingQuote(later: Text, rest: Text)
    requires later == []
    ensures ParseString(later + [QUOTE] + rest) == Some(Parsed([], rest))
  {
    assert later + [QUOTE] + rest == [QUOTE] + rest && ([QUOTE] + rest)[1..] == rest;
  }

  lemma DropOne(s: Text, i: nat)
    requires i < |s|
    ensures s[i..] == [s[i]] + s[i + 1..]
  {
  }

  lemma {:induction false} ReadBody(s: Text, i: nat, rest: Text)
    requires i <= |s|
    ensures ParseString(EscapeFrom(s, i) + [QUOTE] + rest) == Some(Parsed(s[i..], rest))
    decreases |s| - i
  {
    var body := EscapeFrom(s, i);
    if i == |s| {
      ReadClosingQuote(body, rest);
      assert s[i..] == [];
    } else {
      ReadBody(s, i + 1, rest);
      var e, later := Escape(s, i), EscapeFrom(s, i + 1);
      ReadUnit(s, i, later + [QUOTE] + rest);
      ReadNextUnit(e, s[i], later, s[i + 1..], rest);
      DropOne(s, i);
      assert body == e + later;
    }
  }

  lemma ReadQuoted(s: Text, rest: Text)
    ensures (Quote(s) + rest)[0] == QUOTE
    ensures ParseString((Quote(s) + rest)[1..]) == Some(Parsed(s, rest))
  {
    ReadBody(s, 0, rest);
    assert (Quote(s) + rest)[1..] == EscapeFrom(s, 0) + [QUOTE] + rest;
  }

  // ---- Reading back values

  ghost predicate Defined(v: Json)
    decreases v
  {
    match v
    case Undefined => false
    case Arr(items) => forall i :: 0 <= i < |items| ==> Defined(items[i])
    case Obj(members) => forall i :: 0 <= i < |members| ==> Defined(members[i].item)
    case _ => true
  }

  predicate StartsValue(u: Unit) {
    u == 110 || u == 116 || u == 102 || u == MINUS || IsDigit(u) || u == QUOTE || u == OPEN_BRACKET || u == OPEN_BRACE
  }

  lemma RawStarts(v: Json)
    ensures Raw(v) != [] && StartsValue(Raw(v)[0])
  {
    match v
    case Num(n) => DigitsAreDigits(if n < 0 then -n else n);
    case _ =>
  }

  lemma ReadWord(word: Text, v: Json, rest: Text)
    requires word != []
    ensures ParseWord(word + rest, word, v) == Some(Parsed(v, rest))
  {
    var t := word + rest;
    assert t[..|word|] == word && t[|word|..] == rest;
  }

  lemma ReadLeaf(v: Json, rest: Text)
    requires v.Null? || v.Bool? || v.Num? || v.Str? || v == Arr([]) || v == Obj([])
    requires EndsNumber(rest)
    ensures Parse(Raw(v) + rest) == Some(Parsed(v, rest))
  {
    match v
    case Null => ReadWord(NULL_TEXT, Null, rest);
    case Bool(b) => ReadWord(if b then TRUE_TEXT else FALSE_TEXT, v, rest);
    case Num(n) => ReadNumber(n, rest);
    case Str(s) => ReadQuoted(s, rest);
    case Arr(_) =>
      assert Raw(v) == [OPEN_BRACKET, CLOSE_BRACKET];
      assert ([OPEN_BRACKET, CLOSE_BRACKET] + rest)[2..] == rest;
    case Obj(_) =>
      assert Raw(v) == [OPEN_BRACE, CLOSE_BRACE];
      assert ([OPEN_BRACE, CLOSE_BRACE] + rest)[2..] == rest;
  }

  lemma RegroupEnclosed(open: Unit, joined: Text, close: Unit, rest: Text)
    requires joined != []
    ensures var t := [open] + joined + [close] + rest;
      |t| > 1 && t[0] == open && t[1] == joined[0] && t[1..] == joined + [close] + rest
  {
  }

  lemma ReadArray(joined: Text, items: seq<Json>, rest: Text)
    requires joined != [] && joined[0] != CLOSE_BRACKET
    requires ParseItems(joined + [CLOSE_BRACKET] + rest) == Some(Parsed(items, rest))
    ensures Parse([OPEN_BRACKET] + joined + [CLOSE_BRACKET] + rest) == Some(Parsed(Arr(items), rest))
  {
    RegroupEnclosed(OPEN_BRACKET, joined, CLOSE_BRACKET, rest);
    var t := [OPEN_BRACKET] + joined + [CLOSE_BRACKET] + rest;
    assert Parse(t) == ParseArray(t);
  }

  lemma ReadObject(joined: Text, members: seq<Member>, rest: Text)
    requires joined != [] && joined[0] != CLOSE_BRACE
    requires ParseMembers(joined + [CLOSE_BRACE] + rest) == Some(Parsed(members, rest))
    ensures Parse([OPEN_BRACE] + joined + [CLOSE_BRACE] + rest) == Some(Parsed(Obj(members), rest))
  {
    RegroupEnclosed(OPEN_BRACE, joined, CLOSE_BRACE, rest);
    var t := [OPEN_BRACE] + joined + [CLOSE_BRACE] + rest;
    assert Parse(t) == ParseObject(t);
  }

  lemma RegroupMember(quoted: Text, body: Text, rest: Text)
    ensures quoted + [COLON] + body + rest == quoted + ([COLON] + (body + rest))
  {
  }

  // A member, given how its key and the colon after it were read.
  lemma ReadAfterKey(t: Text, key: Text, tail: Text, body: Text, item: Json, rest: Text)
    requires t != [] && t[0] == QUOTE && ParseString(t[1..]) == Some(Parsed(key, tail))
    requires tail == [COLON] + body && Parse(body) == Some(Parsed(item, rest))
    ensures ParseMember(t) == Some(Parsed(Member(key, item), rest))
  {
    assert tail[1..] == body;
  }

  lemma ReadKeyed(key: Text, body: Text, item: Json, rest: Text)
    requires Parse(body + rest) == Some(Parsed(item, rest))
    ensures ParseMember(Quote(key) + [COLON] + body + rest) == Some(Parsed(Member(key, item), rest))
  {
    var quoted, more := Quote(key), body + rest;
    var tail := [COLON] + more;
    ReadQuoted(key, tail);
    ReadAfterKey(quoted + tail, key, tail, more, item, rest);
    RegroupMember(quoted, body, rest);
  }

  lemma RegroupAfter(body: Text, mark: Unit, rest: Text)
    ensures body + [mark] + rest == body + ([mark] + rest)
    ensures ([mark] + rest)[0] == mark && ([mark] + rest)[1..] == rest
  {
  }

  // One step of a list: an item, then either the closing mark or a comma and the rest of the list.
  lemma ReadLastItem(body: Text, item: Json, rest: Text)
    requires Parse(body + ([CLOSE_BRACKET] + rest)) == Some(Parsed(item, [CLOSE_BRACKET] + rest))
    ensures ParseItems(body + [CLOSE_BRACKET] + rest) == Some(Parsed([item], rest))
  {
    RegroupAfter(body, CLOSE_BRACKET, rest);
  }

  lemma ReadNextItem(body: Text, item: Json, more: Text, items: seq<Json>, rest: Text)
    requires Parse(body + ([COMMA] + more)) == Some(Parsed(item, [COMMA] + more))
    requires ParseItems(more) == Some(Parsed(items, rest))
    ensures ParseItems(body + [COMMA] + more) == Some(Parsed([item] + items, rest))
  {
    RegroupAfter(body, COMMA, more);
  }

  lemma ReadLastMember(body: Text, m: Member, rest: Text)
    requires ParseMember(body + ([CLOSE_BRACE] + rest)) == Some(Parsed(m, [CLOSE_BRACE] + rest))
    ensures ParseMembers(body + [CLOSE_BRACE] + rest) == Some(Parsed([m], rest))
  {
    RegroupAfter(body, CLOSE_BRACE, rest);
  }

  lemma ReadNextMember(body: Text, m: Member, more: Text, members: seq<Member>, rest: Text)
    requires ParseMember(body + ([COMMA] + more)) == Some(Parsed(m, [COMMA] + more))
    requires ParseMembers(more) == Some(Parsed(members, rest))
    ensures ParseMembers(body + [COMMA] + more) == Some(Parsed([m] + members, rest))
  {
    RegroupAfter(body, COMMA, more);
  }

  // The parser, given a print followed by anything that does not continue a number, returns the value and
  // leaves the rest.
  lemma {:induction false} ParseInvertsRaw(v: Json, rest: Text)
    requires Defined(v) && EndsNumber(rest)
    ensures Parse(Raw(v) + rest) == Some(Parsed(v, rest))
    decreases v, 1, 0
  {
    if v.Arr? && v.items != [] {
      var parts := RawItems(v.items);
      ReadItems(v, 0, rest);
      RawStarts(v.items[0]);
      JoinStarts(parts);
      assert parts[0..] == parts && v.items[0..] == v.items;
      ReadArray(Join(parts), v.items, rest);
    } else if v.Obj? && v.members != [] {
      var parts := RawMembers(v.members);
      ReadMembers(v, 0, rest);
      assert parts[0] == RawMember(v.members[0]);
      JoinStarts(parts);
      assert parts[0..] == parts && v.members[0..] == v.members;
      ReadObject(Join(parts), v.members, rest);
    } else {
      ReadLeaf(v, rest);
    }
  }

  lemma JoinStarts(parts: seq<Text>)
    requires parts != [] && parts[0] != []
    ensures Join(parts) != [] && Join(parts)[0] == parts[0][0]
  {
  }

  lemma JoinStep(parts: seq<Text>, i: nat, close: Unit, rest: Text)
    requires i < |parts|
    ensures i + 1 == |parts| ==> Join(parts[i..]) == parts[i]
    ensures i + 1 < |parts| ==>
      Join(parts[i..]) + [close] + rest == parts[i] + [COMMA] + (Join(parts[i + 1..]) + [close] + rest)
  {
    assert parts[i..][0] == parts[i];
    assert i + 1 < |parts| ==> parts[i..][1..] == parts[i + 1..];
  }

  lemma {:induction false} ReadItems(v: Json, i: nat, rest: Text)
    requires v.Arr? && Defined(v) && i < |v.items|
    ensures ParseItems(Join(RawItems(v.items)[i..]) + [CLOSE_BRACKET] + rest) == Some(Parsed(v.items[i..], rest))
    decreases v, 0, |v.items| - i
  {
    var items, parts := v.items, RawItems(v.items);
    JoinStep(parts, i, CLOSE_BRACKET, rest);
    assert items[i..] == [items[i]] + items[i + 1..];
    if i + 1 == |items| {
      ParseInvertsRaw(items[i], [CLOSE_BRACKET] + rest);
      ReadLastItem(parts[i], items[i], rest);
      assert items[i..] == [items[i]];
    } else {
      var more := Join(parts[i + 1..]) + [CLOSE_BRACKET] + rest;
      ParseInvertsRaw(items[i], [COMMA] + more);
      ReadItems(v, i + 1, rest);
      ReadNextItem(parts[i], items[i], more, items[i + 1..], rest);
    }
  }

  lemma ReadMember(m: Member, rest: Text)
    requires Defined(m.item) && EndsNumber(rest)
    ensures ParseMember(RawMember(m) + rest) == Some(Parsed(m, rest))
    decreases m.item, 2, 0
  {
    ParseInvertsRaw(m.item, rest);
    ReadKeyed(m.key, Raw(m.item), m.item, rest);
    assert RawMember(m) + rest == Quote(m.key) + [COLON] + Raw(m.item) + rest;
  }

  lemma {:induction false} ReadMembers(v: Json, i: nat, rest: Text)
    requires v.Obj? && Defined(v) && i < |v.members|
    ensures ParseMembers(Join(RawMembers(v.members)[i..]) + [CLOSE_BRACE] + rest) == Some(Parsed(v.members[i..], rest))
    decreases v, 0, |v.members| - i
  {
    var members, parts := v.members, RawMembers(v.members);
    JoinStep(parts, i, CLOSE_BRACE, rest);
    assert members[i..] == [members[i]] + members[i + 1..];
    if i + 1 == |members| {
      ReadMember(members[i], [CLOSE_BRACE] + rest);
      ReadLastMember(parts[i], members[i], rest);
      assert members[i..] == [members[i]];
    } else {
      var more := Join(parts[i + 1..]) + [CLOSE_BRACE] + rest;
      ReadMember(members[i], [COMMA] + more);
      ReadMembers(v, i + 1, rest);
      ReadNextMember(parts[i], members[i], more, members[i + 1..], rest);
    }
  }

  lemma {:induction false} NormalIsDefined(cmp: Compare, v: Json)
    ensures Defined(Normal(cmp, v))
    decreases v
  {
    match v
    case Arr(items) =>
      forall i | 0 <= i < |items| ensures Defined(Normal(cmp, v).items[i]) {
        NormalIsDefined(cmp, items[i]);
      }
    case Obj(members) =>
      var entries := Sort(cmp, members);
      forall i | 0 <= i < |entries| ensures Defined(Normal(cmp, v).members[i].item) {
        assert entries[i] in members;
        NormalIsDefined(cmp, entries[i].item);
      }
    case _ =>
  }

  // Reading a canonical print gives back the value with its keys in order and `undefined` as null.
  lemma ParseInvertsPrint(cmp: Compare, v: Json)
    ensures Parse(Print(cmp, v)) == Some(Parsed(Normal(cmp, v), []))
  {
    PrintIsRawOfNormal(cmp, v);
    NormalIsDefined(cmp, v);
    ParseInvertsRaw(Normal(cmp, v), []);
    assert Raw(Normal(cmp, v)) + [] == Raw(Normal(cmp, v));
  }
}
