// canonicalJson: object keys sorted by a comparison, everything else printed as JSON.stringify prints it,
// with `undefined` printed as null. Text is a sequence of UTF-16 code units, strings are escaped as in
// section 7 of RFC 8259 (lone surrogates included), and numbers are integers printed in decimal.
module CanonicalJson {
  import opened Wrappers

  type Unit = n: nat | n < 0x1_0000
  type Text = seq<Unit>

  datatype Json =
    | Undefined
    | Null
    | Bool(value: bool)
    | Num(number: int)
    | Str(text: Text)
    | Arr(items: seq<Json>)
    | Obj(members: seq<Member>)

  datatype Member = Member(key: Text, item: Json)

  // The key comparison: negative, zero or positive, as localeCompare answers.
  type Compare = (Text, Text) -> int

  const QUOTE: Unit := 34
  const BACKSLASH: Unit := 92
  const COMMA: Unit := 44
  const COLON: Unit := 58
  const OPEN_BRACKET: Unit := 91
  const CLOSE_BRACKET: Unit := 93
  const OPEN_BRACE: Unit := 123
  const CLOSE_BRACE: Unit := 125
  const MINUS: Unit := 45
  const LETTER_U: Unit := 117
  const NULL_TEXT: Text := [110, 117, 108, 108]
  const TRUE_TEXT: Text := [116, 114, 117, 101]
  const FALSE_TEXT: Text := [102, 97, 108, 115, 101]

  // ---- Printing

  predicate High(u: Unit) { 0xD800 <= u < 0xDC00 }

  predicate Low(u: Unit) { 0xDC00 <= u < 0xE000 }

  predicate Lone(s: Text, i: nat)
    requires i < |s|
  {
    || (High(s[i]) && !(i + 1 < |s| && Low(s[i + 1])))
    || (Low(s[i]) && !(i > 0 && High(s[i - 1])))
  }

  function HexDigit(d: nat): Unit
    requires d < 16
  {
    if d < 10 then 48 + d else 87 + d
  }

  function Hex4(u: Unit): Text {
    [HexDigit(u / 4096), HexDigit(u / 256 % 16), HexDigit(u / 16 % 16), HexDigit(u % 16)]
  }

  // The letter of a two-character escape, if the unit has one.
  function ShortEscape(u: Unit): Option<Unit> {
    if u == QUOTE || u == BACKSLASH then Some(u)
    else if u == 8 then Some(98)
    else if u == 12 then Some(102)
    else if u == 10 then Some(110)
    else if u == 13 then Some(114)
    else if u == 9 then Some(116)
    else None
  }

  function Escape(s: Text, i: nat): Text
    requires i < |s|
  {
    if ShortEscape(s[i]).Some? then [BACKSLASH, ShortEscape(s[i]).value]
    else if s[i] < 32 || Lone(s, i) then [BACKSLASH, LETTER_U] + Hex4(s[i])
    else [s[i]]
  }

  function EscapeFrom(s: Text, i: nat): Text
    requires i <= |s|
    decreases |s| - i
  {
    if i == |s| then [] else Escape(s, i) + EscapeFrom(s, i + 1)
  }

  function Quote(s: Text): Text { [QUOTE] + EscapeFrom(s, 0) + [QUOTE] }

  function Digits(n: nat): Text {
    if n < 10 then [48 + n] else Digits(n / 10) + [48 + n % 10]
  }

  function Decimal(n: int): Text { if n < 0 then [MINUS] + Digits(-n) else Digits(n) }

  function Join(parts: seq<Text>): Text {
    if parts == [] then []
    else if |parts| == 1 then parts[0]
    else parts[0] + [COMMA] + Join(parts[1..])
  }

  // A stable sort of the members by key.
  function Insert(cmp: Compare, sorted: seq<Member>, m: Member): (r: seq<Member>)
    ensures multiset(r) == multiset(sorted) + multiset{m}
  {
    if sorted == [] || cmp(m.key, sorted[|sorted| - 1].key) >= 0 then sorted + [m]
    else
      var front, last := sorted[..|sorted| - 1], sorted[|sorted| - 1];
      assert sorted == front + [last];
      Insert(cmp, front, m) + [last]
  }

  function Sort(cmp: Compare, ms: seq<Member>): (r: seq<Member>)
    ensures multiset(r) == multiset(ms) && |r| == |ms|
    ensures forall m :: m in r <==> m in ms
  {
    if ms == [] then []
    else
      assert ms == ms[..|ms| - 1] + [ms[|ms| - 1]];
      var r := Insert(cmp, Sort(cmp, ms[..|ms| - 1]), ms[|ms| - 1]);
      assert forall m :: m in r <==> m in multiset(r);
      assert forall m :: m in ms <==> m in multiset(ms);
      assert |r| == |multiset(r)| && |ms| == |multiset(ms)|;
      r
  }

  function Print(cmp: Compare, v: Json): Text
    decreases v
  {
    match v
    case Undefined => NULL_TEXT
    case Null => NULL_TEXT
    case Bool(b) => if b then TRUE_TEXT else FALSE_TEXT
    case Num(n) => Decimal(n)
    case Str(s) => Quote(s)
    case Arr(items) =>
      [OPEN_BRACKET] + Join(seq(|items|, i requires 0 <= i < |items| => Print(cmp, items[i]))) + [CLOSE_BRACKET]
    case Obj(members) =>
      var entries := Sort(cmp, members);
      [OPEN_BRACE]
      + Join(seq(|entries|, i requires 0 <= i < |entries| =>
               assert entries[i] in members; Quote(entries[i].key) + [COLON] + Print(cmp, entries[i].item)))
      + [CLOSE_BRACE]
  }

  // ---- The value a print commits to, and how it prints with its keys as they stand

  function Normal(cmp: Compare, v: Json): Json
    decreases v
  {
    match v
    case Undefined => Null
    case Arr(items) => Arr(seq(|items|, i requires 0 <= i < |items| => Normal(cmp, items[i])))
    case Obj(members) =>
      var entries := Sort(cmp, members);
      Obj(seq(|entries|, i requires 0 <= i < |entries| =>
            assert entries[i] in members; Member(entries[i].key, Normal(cmp, entries[i].item))))
    case _ => v
  }

  function RawMember(m: Member): Text
    decreases m
  {
    Quote(m.key) + [COLON] + Raw(m.item)
  }

  function RawItems(items: seq<Json>): (r: seq<Text>)
    ensures |r| == |items| && forall i :: 0 <= i < |r| ==> r[i] == Raw(items[i])
    decreases items
  {
    seq(|items|, i requires 0 <= i < |items| => Raw(items[i]))
  }

  function RawMembers(members: seq<Member>): (r: seq<Text>)
    ensures |r| == |members| && forall i :: 0 <= i < |r| ==> r[i] == RawMember(members[i])
    decreases members
  {
    seq(|members|, i requires 0 <= i < |members| => RawMember(members[i]))
  }

  function Raw(v: Json): Text
    decreases v
  {
    match v
    case Undefined => NULL_TEXT
    case Null => NULL_TEXT
    case Bool(b) => if b then TRUE_TEXT else FALSE_TEXT
    case Num(n) => Decimal(n)
    case Str(s) => Quote(s)
    case Arr(items) => [OPEN_BRACKET] + Join(RawItems(items)) + [CLOSE_BRACKET]
    case Obj(members) => [OPEN_BRACE] + Join(RawMembers(members)) + [CLOSE_BRACE]
  }

  lemma {:induction false} PrintIsRawOfNormal(cmp: Compare, v: Json)
    ensures Print(cmp, v) == Raw(Normal(cmp, v))
    decreases v
  {
    match v
    case Arr(items) =>
      var parts := seq(|items|, i requires 0 <= i < |items| => Print(cmp, items[i]));
      forall i | 0 <= i < |items| ensures parts[i] == Raw(Normal(cmp, items[i])) {
        PrintIsRawOfNormal(cmp, items[i]);
      }
      assert parts == RawItems(Normal(cmp, v).items);
    case Obj(members) =>
      var entries := Sort(cmp, members);
      var normal := Normal(cmp, v).members;
      var parts := RawMembers(normal);
      forall i | 0 <= i < |entries|
        ensures parts[i] == Quote(entries[i].key) + [COLON] + Print(cmp, entries[i].item)
      {
        assert entries[i] in members;
        PrintIsRawOfNormal(cmp, entries[i].item);
      }
      assert parts == seq(|entries|, i requires 0 <= i < |entries| =>
        assert entries[i] in members; Quote(entries[i].key) + [COLON] + Print(cmp, entries[i].item));
    case _ =>
  }

  // ---- What the text is, unit by unit

  lemma WordsAndNumbers(cmp: Compare, n: int, d: nat)
    requires 0 < n && d < 10
    ensures Print(cmp, Undefined) == Print(cmp, Null) == [110, 117, 108, 108]
    ensures Print(cmp, Bool(true)) == [116, 114, 117, 101] && Print(cmp, Bool(false)) == [102, 97, 108, 115, 101]
    ensures Print(cmp, Num(d)) == [48 + d]
    ensures Print(cmp, Num(10 * n + d)) == Print(cmp, Num(n)) + [48 + d]
    ensures Print(cmp, Num(-n)) == [45] + Print(cmp, Num(n))
  {
    assert (10 * n + d) / 10 == n;
  }

  const HEX := "0123456789abcdef"

  function HexEscape(u: Unit): Text {
    [92, 'u' as int] + [HEX[u / 4096] as int, HEX[u / 256 % 16] as int, HEX[u / 16 % 16] as int, HEX[u % 16] as int]
  }

  lemma HexDigitIs(d: nat)
    requires d < 16
    ensures HexDigit(d) == HEX[d] as int
  {
  }

  lemma HexEscapeIs(u: Unit)
    ensures [BACKSLASH, LETTER_U] + Hex4(u) == HexEscape(u)
  {
    HexDigitIs(u / 4096);
    HexDigitIs(u / 256 % 16);
    HexDigitIs(u / 16 % 16);
    HexDigitIs(u % 16);
  }

  // A string is its units between two quotes. A quote, a backslash and the five named control characters have
  // two-character escapes; other control characters and lone surrogates are written in hexadecimal.
  lemma StringForm(cmp: Compare, s: Text, i: nat)
    requires i < |s|
    ensures Print(cmp, Str(s)) == [34] + EscapeFrom(s, 0) + [34]
    ensures EscapeFrom(s, |s|) == [] && EscapeFrom(s, i) == Escape(s, i) + EscapeFrom(s, i + 1)
    ensures Escape(s, i) ==
      if s[i] == 34 then [92, 34]
      else if s[i] == 92 then [92, 92]
      else if s[i] == 8 then [92, 'b' as int]
      else if s[i] == 12 then [92, 'f' as int]
      else if s[i] == 10 then [92, 'n' as int]
      else if s[i] == 13 then [92, 'r' as int]
      else if s[i] == 9 then [92, 't' as int]
      else if s[i] < 32 then HexEscape(s[i])
      else if 0xD800 <= s[i] < 0xDC00 && (i + 1 == |s| || !(0xDC00 <= s[i + 1] < 0xE000)) then HexEscape(s[i])
      else if 0xDC00 <= s[i] < 0xE000 && (i == 0 || !(0xD800 <= s[i - 1] < 0xDC00)) then HexEscape(s[i])
      else [s[i]]
  {
    HexEscapeIs(s[i]);
  }

  lemma {:induction false} JoinGrows(parts: seq<Text>, last: Text)
    requires parts != []
    ensures Join(parts + [last]) == Join(parts) + [44] + last
  {
    if |parts| > 1 {
      JoinGrows(parts[1..], last);
      assert (parts + [last])[1..] == parts[1..] + [last];
    }
  }

  // Arrays: brackets around the items in order, a comma before each but the first.
  lemma ArrayForm(cmp: Compare, items: seq<Json>, last: Json)
    ensures Print(cmp, Arr([])) == [91, 93] && Print(cmp, Arr([last])) == [91] + Print(cmp, last) + [93]
    ensures var p := Print(cmp, Arr(items)); items != [] ==>
      |p| > 0 && Print(cmp, Arr(items + [last])) == p[..|p| - 1] + [44] + Print(cmp, last) + [93]
  {
    var one := seq(1, i requires 0 <= i < 1 => Print(cmp, [last][i]));
    assert one == [Print(cmp, last)];
    if items != [] {
      var all := items + [last];
      var parts := seq(|items|, i requires 0 <= i < |items| => Print(cmp, items[i]));
      assert seq(|all|, i requires 0 <= i < |all| => Print(cmp, all[i])) == parts + [Print(cmp, last)];
      JoinGrows(parts, Print(cmp, last));
    }
  }

  // Objects whose members stand in key order: braces around them, a comma before each but the first, each a
  // quoted key, a colon and the item.
  lemma ObjectForm(cmp: Compare, members: seq<Member>, last: Member)
    requires Sort(cmp, members) == members
    requires members != [] ==> cmp(last.key, members[|members| - 1].key) >= 0
    ensures Print(cmp, Obj([])) == [123, 125]
    ensures Print(cmp, Obj([last])) == [123] + Print(cmp, Str(last.key)) + [58] + Print(cmp, last.item) + [125]
    ensures members != [] ==>
      var p := Print(cmp, Obj(members));
      |p| > 0 && Print(cmp, Obj(members + [last]))
        == p[..|p| - 1] + [44] + Print(cmp, Str(last.key)) + [58] + Print(cmp, last.item) + [125]
  {
    PrintIsRawOfNormal(cmp, Obj([]));
    SingleObject(cmp, last);
    if members != [] {
      LongerObject(cmp, members, last);
    }
  }

  lemma SingleObject(cmp: Compare, m: Member)
    ensures Print(cmp, Obj([m])) == [123] + Print(cmp, Str(m.key)) + [58] + Print(cmp, m.item) + [125]
  {
    assert [m][..0] == [];
    assert Sort(cmp, [m]) == [m];
    PrintIsRawOfNormal(cmp, Obj([m]));
    PrintIsRawOfNormal(cmp, m.item);
    assert RawMembers([Member(m.key, Normal(cmp, m.item))]) == [RawMember(Member(m.key, Normal(cmp, m.item)))];
  }

  lemma LongerObject(cmp: Compare, members: seq<Member>, last: Member)
    requires members != [] && Sort(cmp, members) == members && cmp(last.key, members[|members| - 1].key) >= 0
    ensures var p := Print(cmp, Obj(members));
      |p| > 0 && Print(cmp, Obj(members + [last]))
        == p[..|p| - 1] + [44] + Print(cmp, Str(last.key)) + [58] + Print(cmp, last.item) + [125]
  {
    PrintIsRawOfNormal(cmp, Obj(members));
    PrintIsRawOfNormal(cmp, Obj(members + [last]));
    PrintIsRawOfNormal(cmp, last.item);
    SortGrows(cmp, members, last);
    NormalOfSorted(cmp, members);
    NormalOfSorted(cmp, members + [last]);
    NormalMembersGrow(cmp, members, last);
    LongerRaw(NormalMembers(cmp, members), Member(last.key, Normal(cmp, last.item)));
  }

  function NormalMembers(cmp: Compare, members: seq<Member>): (r: seq<Member>)
    ensures |r| == |members|
    ensures forall i :: 0 <= i < |r| ==> r[i] == Member(members[i].key, Normal(cmp, members[i].item))
  {
    seq(|members|, i requires 0 <= i < |members| => Member(members[i].key, Normal(cmp, members[i].item)))
  }

  lemma NormalOfSorted(cmp: Compare, members: seq<Member>)
    requires Sort(cmp, members) == members
    ensures Normal(cmp, Obj(members)) == Obj(NormalMembers(cmp, members))
  {
  }

  lemma NormalMembersGrow(cmp: Compare, members: seq<Member>, last: Member)
    ensures NormalMembers(cmp, members + [last])
      == NormalMembers(cmp, members) + [Member(last.key, Normal(cmp, last.item))]
  {
  }

  lemma SortGrows(cmp: Compare, members: seq<Member>, last: Member)
    requires members != [] && Sort(cmp, members) == members && cmp(last.key, members[|members| - 1].key) >= 0
    ensures Sort(cmp, members + [last]) == members + [last]
  {
    var all := members + [last];
    assert all[..|all| - 1] == members && all[|all| - 1] == last;
  }

  lemma LongerRaw(normal: seq<Member>, tail: Member)
    requires normal != []
    ensures var p := Raw(Obj(normal));
      |p| > 0 && Raw(Obj(normal + [tail]))
        == p[..|p| - 1] + [44] + Quote(tail.key) + [58] + Raw(tail.item) + [125]
  {
    assert RawMembers(normal + [tail]) == RawMembers(normal) + [RawMember(tail)];
    JoinGrows(RawMembers(normal), RawMember(tail));
    Bracketed(Join(RawMembers(normal)), Quote(tail.key), Raw(tail.item));
  }

  lemma Bracketed(inner: Text, q: Text, t: Text)
    ensures var p := [123] + inner + [125];
      [123] + (inner + [44] + (q + [58] + t)) + [125] == p[..|p| - 1] + [44] + q + [58] + t + [125]
  {
    assert ([123] + inner + [125])[..|inner| + 1] == [123] + inner;
    assert [123] + (inner + [44] + (q + [58] + t)) == [123] + inner + [44] + q + [58] + t;
  }
}
