/**
 * The canonical text of a JSON value (idempotency-service.ts), over UTF-16 code units: object keys sorted by code units,
 * strings escaped as in section 7 of RFC 8259, with lone surrogates escaped too.
 */
module CanonicalJson {
  type Unit = u: nat | u < 0x1_0000

  type Text = seq<Unit>

  /** A number stands for its shortest decimal text; an object's members have distinct keys. */
  datatype Json =
    | Null
    | Bool(value: bool)
    | Num(numeral: Text)
    | Str(text: Text)
    | Arr(items: seq<Json>)
    | Obj(members: seq<Member>)

  datatype Member = Member(key: Text, content: Json)

  predicate Digit(u: Unit) {
    '0' as int <= u <= '9' as int
  }

  predicate NumeralUnit(u: Unit) {
    Digit(u) || u == '-' as int || u == '+' as int || u == '.' as int || u == 'e' as int
  }

  predicate Numeral(t: Text) {
    t != [] && (Digit(t[0]) || t[0] == '-' as int) && forall u :: u in t ==> NumeralUnit(u)
  }

  predicate DistinctKeys(members: seq<Member>) {
    forall i, j :: 0 <= i < j < |members| ==> members[i].key != members[j].key
  }

  predicate Valid(j: Json) {
    match j
    case Null => true
    case Bool(_) => true
    case Num(n) => Numeral(n)
    case Str(_) => true
    case Arr(items) => forall i :: 0 <= i < |items| ==> Valid(items[i])
    case Obj(members) => DistinctKeys(members) && forall i :: 0 <= i < |members| ==> Valid(members[i].content)
  }

  // ----- strings

  predicate High(u: Unit) {
    0xD800 <= u <= 0xDBFF
  }

  predicate Low(u: Unit) {
    0xDC00 <= u <= 0xDFFF
  }

  function Hex(d: nat): (u: Unit)
    requires d < 16
    ensures u != '"' as int && u != '\\' as int
  {
    if d < 10 then '0' as int + d else 'a' as int + (d - 10)
  }

  lemma HexIsInjective(d: nat, e: nat)
    requires d < 16 && e < 16 && Hex(d) == Hex(e)
    ensures d == e
  {
  }

  function Unicode(u: Unit): Text {
    ['\\' as int, 'u' as int, Hex(u / 4096), Hex(u / 256 % 16), Hex(u / 16 % 16), Hex(u % 16)]
  }

  /** Two units with a special second unit after the backslash. */
  function Short(u: Unit): (c: nat)
    ensures c != 0 <==> u == 34 || u == 92 || u == 8 || u == 12 || u == 10 || u == 13 || u == 9
    ensures c != 'u' as int && c < 0x80
  {
    if u == 34 then '"' as int else if u == 92 then '\\' as int else if u == 8 then 'b' as int else if u == 12 then 'f' as int
    else if u == 10 then 'n' as int else if u == 13 then 'r' as int else if u == 9 then 't' as int else 0
  }

  predicate Raw(u: Unit) {
    u >= 0x20 && u != 34 && u != 92 && !High(u) && !Low(u)
  }

  /** One unit that is not half of a surrogate pair. */
  function Escaped(u: Unit): (t: Text)
    ensures t != []
  {
    if Short(u) != 0 then ['\\' as int, Short(u)] else if Raw(u) then [u] else Unicode(u)
  }

  function Escape(s: Text): Text {
    if s == [] then []
    else if |s| > 1 && High(s[0]) && Low(s[1]) then [s[0], s[1]] + Escape(s[2..])
    else Escaped(s[0]) + Escape(s[1..])
  }

  function Quote(s: Text): Text {
    ['"' as int] + Escape(s) + ['"' as int]
  }

  lemma FourDigits(u: nat)
    ensures u == 4096 * (u / 4096) + 256 * (u / 256 % 16) + 16 * (u / 16 % 16) + u % 16
  {
    assert u / 16 / 16 == u / 256;
    assert u / 256 / 16 == u / 4096;
  }

  lemma UnicodeIsInjective(u: Unit, v: Unit)
    requires Unicode(u) == Unicode(v)
    ensures u == v
  {
    FourDigits(u);
    FourDigits(v);
    hide Unicode;
    SameDigits(u, v);
  }

  lemma SameDigits(u: Unit, v: Unit)
    requires Unicode(u) == Unicode(v)
    ensures u / 4096 == v / 4096 && u / 256 % 16 == v / 256 % 16 && u / 16 % 16 == v / 16 % 16 && u % 16 == v % 16
  {
    var s, t := Unicode(u), Unicode(v);
    assert s[2] == t[2] && s[3] == t[3] && s[4] == t[4] && s[5] == t[5];
    hide Unicode;
    HexIsInjective(u / 4096, v / 4096);
    HexIsInjective(u / 256 % 16, v / 256 % 16);
    HexIsInjective(u / 16 % 16, v / 16 % 16);
    HexIsInjective(u % 16, v % 16);
  }

  lemma ShortIsInjective(u: Unit, v: Unit)
    requires Short(u) == Short(v) && Short(u) != 0
    ensures u == v
  {
  }

  lemma Cancel(p: Text, s: Text, t: Text)
    requires p + s == p + t
    ensures s == t
  {
    assert s == (p + s)[|p|..] && t == (p + t)[|p|..];
  }

  lemma Heads(p: Text, x: Text, q: Text, y: Text)
    requires p + x == q + y && |p| == |q|
    ensures p == q && x == y
  {
    assert p == (p + x)[..|p|] && q == (q + y)[..|q|];
    assert x == (p + x)[|p|..] && y == (q + y)[|q|..];
  }

  /** Escape sequences form a prefix code. */
  lemma EscapedIsPrefixCode(u: Unit, v: Unit, x: Text, y: Text)
    requires Escaped(u) + x == Escaped(v) + y
    ensures u == v && x == y
  {
    var s, t := Escaped(u) + x, Escaped(v) + y;
    assert s[0] == Escaped(u)[0] && t[0] == Escaped(v)[0];
    if Raw(u) || Raw(v) {
      assert Raw(u) && Raw(v);
      Heads(Escaped(u), x, Escaped(v), y);
    } else {
      assert s[1] == Escaped(u)[1] && t[1] == Escaped(v)[1];
      assert |Escaped(u)| == |Escaped(v)|;
      Heads(Escaped(u), x, Escaped(v), y);
      if Short(u) != 0 {
        ShortIsInjective(u, v);
      } else {
        UnicodeIsInjective(u, v);
      }
    }
  }

  /** The units that the escape takes at a time: a surrogate pair, or one. */
  function Width(s: Text): nat
    requires s != []
  {
    if Paired(s) then 2 else 1
  }

  function Chunk(s: Text): Text
    requires s != []
  {
    if Paired(s) then [s[0], s[1]] else Escaped(s[0])
  }

  const MARK: Text := ['"' as int]

  lemma EscapeByChunks(s: Text, x: Text)
    requires s != []
    ensures Escape(s) + MARK + x == Chunk(s) + (Escape(s[Width(s)..]) + MARK + x)
  {
    hide Escaped;
  }

  lemma ChunkIsPrefixCode(a: Text, b: Text, x: Text, y: Text)
    requires a != [] && b != [] && Chunk(a) + x == Chunk(b) + y
    ensures Width(a) == Width(b) && a[..Width(a)] == b[..Width(b)] && x == y
  {
    assert (Chunk(a) + x)[0] == Chunk(a)[0] && (Chunk(b) + y)[0] == Chunk(b)[0];
    if Paired(a) || Paired(b) {
      assert Paired(a) && Paired(b);
      Heads(Chunk(a), x, Chunk(b), y);
    } else {
      EscapedIsPrefixCode(a[0], b[0], x, y);
    }
  }

  /** A quoted string ends at its first unescaped quotation mark. */
  lemma {:induction false} EscapeIsPrefixCode(a: Text, b: Text, x: Text, y: Text)
    requires Escape(a) + MARK + x == Escape(b) + MARK + y
    ensures a == b && x == y
    decreases |a|
  {
    hide Escape, Chunk;
    FirstUnit(a, x);
    FirstUnit(b, y);
    if a == [] || b == [] {
      assert a == [] && b == [];
      NothingToEscape();
      Cancel(MARK, x, y);
    } else {
      EscapeByChunks(a, x);
      EscapeByChunks(b, y);
      var ta, tb := a[Width(a)..], b[Width(b)..];
      ChunkIsPrefixCode(a, b, Escape(ta) + MARK + x, Escape(tb) + MARK + y);
      EscapeIsPrefixCode(ta, tb, x, y);
      assert a == a[..Width(a)] + ta && b == b[..Width(b)] + tb;
    }
  }

  lemma NothingToEscape()
    ensures forall x: Text :: Escape([]) + MARK + x == MARK + x
  {
    assert Escape([]) + MARK == MARK;
  }

  lemma FirstUnit(s: Text, x: Text)
    ensures var t := Escape(s) + MARK + x; t != [] && (t[0] == '"' as int <==> s == [])
  {
    hide Escaped;
    FirstOfEscape(s);
    assert (Escape(s) + MARK + x)[0] == (Escape(s) + MARK)[0];
  }

  predicate Paired(s: Text) {
    |s| > 1 && High(s[0]) && Low(s[1])
  }

  lemma FirstOfEscape(s: Text)
    ensures s != [] ==> Escape(s) != [] && Escape(s)[0] != '"' as int
  {
  }

  lemma QuoteIsPrefixCode(a: Text, b: Text, x: Text, y: Text)
    requires Quote(a) + x == Quote(b) + y
    ensures a == b && x == y
  {
    assert Quote(a) + x == ['"' as int] + (Escape(a) + ['"' as int] + x);
    assert Quote(b) + y == ['"' as int] + (Escape(b) + ['"' as int] + y);
    Cancel(['"' as int], Escape(a) + ['"' as int] + x, Escape(b) + ['"' as int] + y);
    EscapeIsPrefixCode(a, b, x, y);
  }

  // ----- printing

  function PrintItems(items: seq<Json>): Text
    decreases items
  {
    if items == [] then []
    else if |items| == 1 then Print(items[0])
    else Print(items[0]) + [',' as int] + PrintItems(items[1..])
  }

  function PrintMember(m: Member): Text
    decreases m
  {
    Quote(m.key) + [':' as int] + Print(m.content)
  }

  function PrintMembers(members: seq<Member>): Text
    decreases members
  {
    if members == [] then []
    else if |members| == 1 then PrintMember(members[0])
    else PrintMember(members[0]) + [',' as int] + PrintMembers(members[1..])
  }

  /** The text of a value whose members stand in the order in which they are printed. */
  function Print(j: Json): Text
    decreases j
  {
    match j
    case Null => ['n' as int, 'u' as int, 'l' as int, 'l' as int]
    case Bool(true) => ['t' as int, 'r' as int, 'u' as int, 'e' as int]
    case Bool(false) => ['f' as int, 'a' as int, 'l' as int, 's' as int, 'e' as int]
    case Num(n) => n
    case Str(s) => Quote(s)
    case Arr(items) => ['[' as int] + PrintItems(items) + [']' as int]
    case Obj(members) => ['{' as int] + PrintMembers(members) + ['}' as int]
  }

  // ----- the printed text is uniquely decodable

  /** What may follow a value inside a text. */
  predicate Stops(x: Text) {
    x == [] || x[0] == ',' as int || x[0] == ']' as int || x[0] == '}' as int
  }

  lemma NumeralIsPrefixCode(m: Text, n: Text, x: Text, y: Text)
    requires Numeral(m) && Numeral(n) && m + x == n + y && Stops(x) && Stops(y)
    ensures m == n && x == y
  {
    NotLonger(m, n, x, y);
    NotLonger(n, m, y, x);
    Heads(m, x, n, y);
  }

  lemma NotLonger(m: Text, n: Text, x: Text, y: Text)
    requires Numeral(n) && m + x == n + y && Stops(x)
    ensures |n| <= |m|
  {
    if |m| < |n| {
      Overlap(m, n, x, y);
    }
  }

  lemma Overlap(m: Text, n: Text, x: Text, y: Text)
    requires m + x == n + y && |m| < |n|
    ensures x != [] && x[0] in n
  {
    assert |m + x| == |n + y|;
    assert (m + x)[|m|] == x[0] && (n + y)[|m|] == n[|m|];
  }

  /** The first unit of a text tells what kind of value it is. */
  function Kind(u: Unit): nat {
    if u == 'n' as int then 1 else if u == 't' as int then 2 else if u == 'f' as int then 3
    else if Digit(u) || u == '-' as int then 4 else if u == '"' as int then 5 else if u == '[' as int then 6
    else if u == '{' as int then 7 else 0
  }

  function KindOf(j: Json): nat {
    match j
    case Null => 1
    case Bool(b) => if b then 2 else 3
    case Num(_) => 4
    case Str(_) => 5
    case Arr(_) => 6
    case Obj(_) => 7
  }

  lemma FirstOfPrint(j: Json, x: Text)
    requires Valid(j)
    ensures Print(j) + x != [] && Kind((Print(j) + x)[0]) == KindOf(j)
  {
    hide PrintItems, PrintMembers, Escape;
  }

  /** A member list and an item list, up to the closing bracket and beyond. */
  function ItemsThen(items: seq<Json>, x: Text): Text {
    PrintItems(items) + [']' as int] + x
  }

  function MembersThen(members: seq<Member>, x: Text): Text {
    PrintMembers(members) + ['}' as int] + x
  }

  function AfterItem(items: seq<Json>, x: Text): Text
    requires items != []
  {
    if |items| == 1 then [']' as int] + x else [',' as int] + ItemsThen(items[1..], x)
  }

  function AfterMember(members: seq<Member>, x: Text): Text
    requires members != []
  {
    if |members| == 1 then ['}' as int] + x else [',' as int] + MembersThen(members[1..], x)
  }

  lemma ItemsSplit(items: seq<Json>, x: Text)
    requires items != []
    ensures ItemsThen(items, x) == Print(items[0]) + AfterItem(items, x) && Stops(AfterItem(items, x))
  {
    hide Print;
    if |items| > 1 {
      assert PrintItems(items) + [']' as int] + x == Print(items[0]) + ([',' as int] + (PrintItems(items[1..]) + [']' as int] + x));
    }
  }

  lemma MembersSplit(members: seq<Member>, x: Text)
    requires members != []
    ensures MembersThen(members, x)
         == Quote(members[0].key) + ([':' as int] + (Print(members[0].content) + AfterMember(members, x)))
    ensures Stops(AfterMember(members, x))
  {
    hide Print, Quote, PrintMember;
    var m := members[0];
    if |members| > 1 {
      assert PrintMembers(members) + ['}' as int] + x
          == PrintMember(m) + ([',' as int] + (PrintMembers(members[1..]) + ['}' as int] + x));
    }
    MemberSplit(m, AfterMember(members, x));
  }

  lemma MemberSplit(m: Member, y: Text)
    ensures PrintMember(m) + y == Quote(m.key) + ([':' as int] + (Print(m.content) + y))
  {
    hide Print, Quote;
  }

  lemma {:induction false} ItemsArePrefixCode(xs: seq<Json>, ys: seq<Json>, x: Text, y: Text)
    requires Valid(Arr(xs)) && Valid(Arr(ys)) && ItemsThen(xs, x) == ItemsThen(ys, y)
    ensures xs == ys && x == y
    decreases xs
  {
    hide Print, PrintItems, Valid;
    FirstItem(xs, x);
    FirstItem(ys, y);
    if xs == [] || ys == [] {
      assert xs == [] && ys == [];
      NoItems(x);
      NoItems(y);
      Cancel([']' as int], x, y);
    } else {
      ItemsSplit(xs, x);
      ItemsSplit(ys, y);
      ValidItems(xs);
      ValidItems(ys);
      PrintIsPrefixCode(xs[0], ys[0], AfterItem(xs, x), AfterItem(ys, y));
      assert AfterItem(xs, x)[0] == AfterItem(ys, y)[0];
      if |xs| == 1 {
        Cancel([']' as int], x, y);
      } else {
        Cancel([',' as int], ItemsThen(xs[1..], x), ItemsThen(ys[1..], y));
        ItemsArePrefixCode(xs[1..], ys[1..], x, y);
      }
      assert xs == [xs[0]] + xs[1..] && ys == [ys[0]] + ys[1..];
    }
  }

  lemma NoItems(x: Text)
    ensures ItemsThen([], x) == [']' as int] + x && MembersThen([], x) == ['}' as int] + x
  {
    assert PrintItems([]) + [']' as int] == [']' as int];
    assert PrintMembers([]) + ['}' as int] == ['}' as int];
  }

  lemma FirstItem(items: seq<Json>, x: Text)
    requires Valid(Arr(items))
    ensures ItemsThen(items, x) != [] && (ItemsThen(items, x)[0] == ']' as int <==> items == [])
  {
    NoItems(x);
    if items != [] {
      ItemsSplit(items, x);
      FirstOfPrint(items[0], AfterItem(items, x));
    }
  }

  lemma FirstMember(members: seq<Member>, x: Text)
    ensures MembersThen(members, x) != [] && (MembersThen(members, x)[0] == '}' as int <==> members == [])
  {
    NoItems(x);
    if members != [] {
      MembersSplit(members, x);
    }
  }

  lemma ValidItems(items: seq<Json>)
    requires Valid(Arr(items)) && items != []
    ensures Valid(items[0]) && Valid(Arr(items[1..]))
  {
  }

  lemma ValidMembers(members: seq<Member>)
    requires Valid(Obj(members)) && members != []
    ensures Valid(members[0].content) && Valid(Obj(members[1..]))
  {
  }

  lemma {:induction false} MembersArePrefixCode(xs: seq<Member>, ys: seq<Member>, x: Text, y: Text)
    requires Valid(Obj(xs)) && Valid(Obj(ys)) && MembersThen(xs, x) == MembersThen(ys, y)
    ensures xs == ys && x == y
    decreases xs
  {
    hide Print, PrintMembers, Valid, Quote;
    FirstMember(xs, x);
    FirstMember(ys, y);
    if xs == [] || ys == [] {
      assert xs == [] && ys == [];
      NoItems(x);
      NoItems(y);
      Cancel(['}' as int], x, y);
    } else {
      MembersSplit(xs, x);
      MembersSplit(ys, y);
      ValidMembers(xs);
      ValidMembers(ys);
      var px, py := Print(xs[0].content) + AfterMember(xs, x), Print(ys[0].content) + AfterMember(ys, y);
      QuoteIsPrefixCode(xs[0].key, ys[0].key, [':' as int] + px, [':' as int] + py);
      Cancel([':' as int], px, py);
      PrintIsPrefixCode(xs[0].content, ys[0].content, AfterMember(xs, x), AfterMember(ys, y));
      assert AfterMember(xs, x)[0] == AfterMember(ys, y)[0];
      if |xs| == 1 {
        Cancel(['}' as int], x, y);
      } else {
        Cancel([',' as int], MembersThen(xs[1..], x), MembersThen(ys[1..], y));
        MembersArePrefixCode(xs[1..], ys[1..], x, y);
      }
      assert xs == [xs[0]] + xs[1..] && ys == [ys[0]] + ys[1..];
    }
  }

  /** The text of a value, followed by anything that may follow a value, can be read in only one way. */
  lemma {:induction false} PrintIsPrefixCode(a: Json, b: Json, x: Text, y: Text)
    requires Valid(a) && Valid(b) && Stops(x) && Stops(y) && Print(a) + x == Print(b) + y
    ensures a == b && x == y
    decreases a
  {
    hide PrintItems, PrintMembers, Quote;
    FirstOfPrint(a, x);
    FirstOfPrint(b, y);
    match a
    case Null => Cancel(Print(a), x, y);
    case Bool(_) => Cancel(Print(a), x, y);
    case Num(n) => NumeralIsPrefixCode(n, b.numeral, x, y);
    case Str(s) => QuoteIsPrefixCode(s, b.text, x, y);
    case Arr(items) =>
      assert Print(a) + x == ['[' as int] + ItemsThen(items, x);
      assert Print(b) + y == ['[' as int] + ItemsThen(b.items, y);
      Cancel(['[' as int], ItemsThen(items, x), ItemsThen(b.items, y));
      ItemsArePrefixCode(items, b.items, x, y);
    case Obj(members) =>
      assert Print(a) + x == ['{' as int] + MembersThen(members, x);
      assert Print(b) + y == ['{' as int] + MembersThen(b.members, y);
      Cancel(['{' as int], MembersThen(members, x), MembersThen(b.members, y));
      MembersArePrefixCode(members, b.members, x, y);
  }

  // ----- keys in order

  /** The order of strings by code units. */
  predicate Leq(a: Text, b: Text)
    decreases |a|
  {
    a == [] || (b != [] && (a[0] < b[0] || (a[0] == b[0] && Leq(a[1..], b[1..]))))
  }

  lemma {:induction false} LeqIsTotal(a: Text, b: Text)
    ensures Leq(a, b) || Leq(b, a)
    ensures Leq(a, b) && Leq(b, a) ==> a == b
    decreases |a|
  {
    if a != [] && b != [] && a[0] == b[0] {
      LeqIsTotal(a[1..], b[1..]);
      assert a == [a[0]] + a[1..] && b == [b[0]] + b[1..];
    }
  }

  lemma {:induction false} LeqIsTransitive(a: Text, b: Text, c: Text)
    requires Leq(a, b) && Leq(b, c)
    ensures Leq(a, c)
    decreases |a|
  {
    if a != [] && a[0] == b[0] && b[0] == c[0] {
      LeqIsTransitive(a[1..], b[1..], c[1..]);
    }
  }

  function Insert(m: Member, members: seq<Member>): seq<Member> {
    if members == [] || Leq(m.key, members[0].key) then [m] + members else [members[0]] + Insert(m, members[1..])
  }

  function Sort(members: seq<Member>): seq<Member> {
    if members == [] then [] else Insert(members[0], Sort(members[1..]))
  }

  predicate Sorted(members: seq<Member>) {
    forall i, j :: 0 <= i < j < |members| ==> Leq(members[i].key, members[j].key)
  }

  lemma {:induction false} InsertKeepsMembers(m: Member, members: seq<Member>)
    ensures multiset(Insert(m, members)) == multiset{m} + multiset(members)
  {
    if members != [] && !Leq(m.key, members[0].key) {
      InsertKeepsMembers(m, members[1..]);
      assert members == [members[0]] + members[1..];
    }
  }

  lemma {:induction false} InsertKeepsOrder(m: Member, members: seq<Member>)
    requires Sorted(members)
    ensures Sorted(Insert(m, members))
  {
    if members != [] {
      LeqIsTotal(m.key, members[0].key);
      if Leq(m.key, members[0].key) {
        forall j | 0 <= j < |members|
          ensures Leq(m.key, members[j].key)
        {
          if j > 0 {
            LeqIsTransitive(m.key, members[0].key, members[j].key);
          }
        }
      } else {
        var rest := Insert(m, members[1..]);
        InsertKeepsOrder(m, members[1..]);
        InsertKeepsMembers(m, members[1..]);
        forall j | 0 <= j < |rest|
          ensures Leq(members[0].key, rest[j].key)
        {
          assert rest[j] in multiset(rest);
          if rest[j] != m {
            assert rest[j] in members[1..];
          }
        }
      }
    }
  }

  lemma {:induction false} SortSorts(members: seq<Member>)
    ensures Sorted(Sort(members)) && multiset(Sort(members)) == multiset(members)
  {
    if members != [] {
      SortSorts(members[1..]);
      InsertKeepsOrder(members[0], Sort(members[1..]));
      InsertKeepsMembers(members[0], Sort(members[1..]));
      assert members == [members[0]] + members[1..];
    }
  }

  lemma {:induction false} InsertKeepsDistinct(m: Member, members: seq<Member>)
    requires DistinctKeys(members) && forall i :: 0 <= i < |members| ==> members[i].key != m.key
    ensures DistinctKeys(Insert(m, members))
  {
    if members != [] && !Leq(m.key, members[0].key) {
      var rest := Insert(m, members[1..]);
      InsertKeepsDistinct(m, members[1..]);
      InsertKeepsMembers(m, members[1..]);
      forall j | 0 <= j < |rest|
        ensures members[0].key != rest[j].key
      {
        assert rest[j] in multiset(rest);
        if rest[j] != m {
          assert rest[j] in members[1..];
        }
      }
    }
  }

  lemma {:induction false} SortKeepsDistinct(members: seq<Member>)
    requires DistinctKeys(members)
    ensures DistinctKeys(Sort(members))
  {
    if members != [] {
      var rest := Sort(members[1..]);
      SortKeepsDistinct(members[1..]);
      SortSorts(members[1..]);
      forall i | 0 <= i < |rest|
        ensures rest[i].key != members[0].key
      {
        assert rest[i] in multiset(rest);
        assert rest[i] in members[1..];
      }
      InsertKeepsDistinct(members[0], rest);
    }
  }

  /** Two sorted member lists without repeated keys and with the same members are the same list. */
  lemma {:induction false} SortedListsAreUnique(xs: seq<Member>, ys: seq<Member>)
    requires Sorted(xs) && Sorted(ys) && DistinctKeys(xs) && DistinctKeys(ys)
    requires forall m :: m in xs <==> m in ys
    ensures xs == ys
  {
    HasFirst(xs);
    HasFirst(ys);
    if xs != [] && ys != [] {
      FirstIsLeast(xs, ys);
      FirstIsLeast(ys, xs);
      LeqIsTotal(xs[0].key, ys[0].key);
      assert xs[0] in ys;
      assert xs[0] == ys[0];
      forall m
        ensures m in xs[1..] <==> m in ys[1..]
      {
        TailMembers(xs, m);
        TailMembers(ys, m);
      }
      SortedListsAreUnique(xs[1..], ys[1..]);
      assert xs == [xs[0]] + xs[1..] && ys == [ys[0]] + ys[1..];
    }
  }

  lemma HasFirst(xs: seq<Member>)
    ensures xs != [] ==> xs[0] in xs
  {
  }

  lemma TailMembers(xs: seq<Member>, m: Member)
    requires xs != [] && DistinctKeys(xs)
    ensures m in xs[1..] <==> m in xs && m != xs[0]
  {
  }

  lemma FirstIsLeast(xs: seq<Member>, ys: seq<Member>)
    requires xs != [] && ys != [] && Sorted(xs) && ys[0] in xs
    ensures Leq(xs[0].key, ys[0].key)
  {
    LeqIsTotal(xs[0].key, xs[0].key);
  }

  // ----- the canonical form

  function CanonItems(items: seq<Json>): (r: seq<Json>)
    ensures |r| == |items|
    decreases items
  {
    if items == [] then [] else [Canon(items[0])] + CanonItems(items[1..])
  }

  function CanonMembers(members: seq<Member>): (r: seq<Member>)
    ensures |r| == |members|
    decreases members
  {
    if members == [] then [] else [Member(members[0].key, Canon(members[0].content))] + CanonMembers(members[1..])
  }

  /** The same value with every object's keys in order. */
  function Canon(j: Json): Json
    decreases j
  {
    match j
    case Arr(items) => Arr(CanonItems(items))
    case Obj(members) => Obj(Sort(CanonMembers(members)))
    case _ => j
  }

  function StableJson(j: Json): Text {
    Print(Canon(j))
  }

  /** Equality up to the order of object keys. */
  ghost predicate Equivalent(a: Json, b: Json)
    decreases a
  {
    match a
    case Arr(items) =>
      b.Arr? && |items| == |b.items| && forall i :: 0 <= i < |items| ==> Equivalent(items[i], b.items[i])
    case Obj(members) =>
      && b.Obj?
      && (forall i: nat :: i < |members| ==> HasEquivalent(members[i], b.members))
      && (forall k: nat :: k < |b.members| ==> HasKey(members, b.members[k].key))
    case _ => a == b
  }

  ghost predicate HasKey(members: seq<Member>, key: Text) {
    exists i: nat :: i < |members| && members[i].key == key
  }

  ghost predicate HasEquivalent(m: Member, others: seq<Member>)
    decreases m
  {
    exists k: nat :: k < |others| && m.key == others[k].key && Equivalent(m.content, others[k].content)
  }

  lemma {:induction false} CanonItemAt(items: seq<Json>, i: nat)
    requires i < |items|
    ensures CanonItems(items)[i] == Canon(items[i])
    decreases items
  {
    if i > 0 {
      CanonItemAt(items[1..], i - 1);
    }
  }

  lemma {:induction false} CanonMemberAt(members: seq<Member>, i: nat)
    requires i < |members|
    ensures CanonMembers(members)[i] == Member(members[i].key, Canon(members[i].content))
    decreases members
  {
    if i > 0 {
      CanonMemberAt(members[1..], i - 1);
    }
  }

  lemma CanonKeysAreDistinct(members: seq<Member>)
    requires DistinctKeys(members)
    ensures DistinctKeys(CanonMembers(members))
  {
    forall i, j | 0 <= i < j < |members|
      ensures CanonMembers(members)[i].key != CanonMembers(members)[j].key
    {
      CanonMemberAt(members, i);
      CanonMemberAt(members, j);
    }
  }

  /** Sorting keeps exactly the members, so also the distinctness of keys. */
  lemma SortedMembers(members: seq<Member>)
    requires DistinctKeys(members)
    ensures Sorted(Sort(members)) && DistinctKeys(Sort(members)) && |Sort(members)| == |members|
    ensures forall m :: m in Sort(members) <==> m in members
  {
    SortSorts(members);
    assert |multiset(Sort(members))| == |multiset(members)|;
    forall m
      ensures m in Sort(members) <==> m in members
    {
      assert m in multiset(Sort(members)) <==> m in multiset(members);
    }
    SortKeepsDistinct(members);
  }

  lemma {:induction false} CanonIsValid(j: Json)
    requires Valid(j)
    ensures Valid(Canon(j))
    decreases j
  {
    match j
    case Arr(items) =>
      forall i | 0 <= i < |items|
        ensures Valid(CanonItems(items)[i])
      {
        CanonItemAt(items, i);
        CanonIsValid(items[i]);
      }
    case Obj(members) =>
      var ms := CanonMembers(members);
      CanonKeysAreDistinct(members);
      SortedMembers(ms);
      forall i | 0 <= i < |ms|
        ensures Valid(ms[i].content)
      {
        CanonMemberAt(members, i);
        CanonIsValid(members[i].content);
      }
      forall i | 0 <= i < |Sort(ms)|
        ensures Valid(Sort(ms)[i].content)
      {
        assert Sort(ms)[i] in ms;
      }
    case _ =>
  }

  /** Every member has a counterpart with the same key and the same canonical content, and no key is left over. */
  ghost predicate Matched(members: seq<Member>, others: seq<Member>) {
    && (forall i: nat :: i < |members| ==> HasCounterpart(members, others, i))
    && (forall k: nat :: k < |others| ==> HasKey(members, others[k].key))
  }

  ghost predicate HasCounterpart(members: seq<Member>, others: seq<Member>, i: nat) {
    exists k: nat :: Counterpart(members, others, i, k)
  }

  predicate Counterpart(members: seq<Member>, others: seq<Member>, i: nat, k: nat) {
    && i < |members| && k < |others|
    && members[i].key == others[k].key && Canon(members[i].content) == Canon(others[k].content)
  }

  lemma CounterpartIsSame(members: seq<Member>, others: seq<Member>, i: nat, k: nat)
    requires i < |members| && k < |others|
    ensures Counterpart(members, others, i, k) <==> CanonMembers(members)[i] == CanonMembers(others)[k]
  {
    hide Canon, CanonMembers;
    CanonMemberAt(members, i);
    CanonMemberAt(others, k);
  }

  lemma MatchedMembersSortAlike(members: seq<Member>, others: seq<Member>)
    requires DistinctKeys(members) && DistinctKeys(others) && Matched(members, others)
    ensures Sort(CanonMembers(members)) == Sort(CanonMembers(others))
  {
    hide Canon, CanonMembers, Counterpart, Sort;
    var xs, ys := CanonMembers(members), CanonMembers(others);
    forall i: nat | i < |xs|
      ensures xs[i] in ys
    {
      assert HasCounterpart(members, others, i);
      var k: nat :| Counterpart(members, others, i, k);
      assert k < |others| by { CounterpartIndices(members, others, i, k); }
      CounterpartIsSame(members, others, i, k);
    }
    forall k: nat | k < |ys|
      ensures ys[k] in xs
    {
      assert HasKey(members, others[k].key);
      var i: nat :| i < |members| && members[i].key == others[k].key;
      assert HasCounterpart(members, others, i);
      var l: nat :| Counterpart(members, others, i, l);
      CounterpartIndices(members, others, i, l);
      assert l == k;
      CounterpartIsSame(members, others, i, k);
    }
    CanonKeysAreDistinct(members);
    CanonKeysAreDistinct(others);
    SortedMembers(xs);
    SortedMembers(ys);
    SortedListsAreUnique(Sort(xs), Sort(ys));
  }

  lemma CounterpartIndices(members: seq<Member>, others: seq<Member>, i: nat, k: nat)
    requires Counterpart(members, others, i, k)
    ensures i < |members| && k < |others| && members[i].key == others[k].key
  {
    hide Canon;
  }

  lemma AlikeSortedMembersMatch(members: seq<Member>, others: seq<Member>)
    requires DistinctKeys(members) && DistinctKeys(others) && Sort(CanonMembers(members)) == Sort(CanonMembers(others))
    ensures Matched(members, others)
  {
    hide Canon, CanonMembers, Counterpart, Sort;
    var xs, ys := CanonMembers(members), CanonMembers(others);
    CanonKeysAreDistinct(members);
    CanonKeysAreDistinct(others);
    SortedMembers(xs);
    SortedMembers(ys);
    forall i: nat | i < |members|
      ensures HasCounterpart(members, others, i)
    {
      assert xs[i] in Sort(ys);
      var k: nat :| k < |ys| && ys[k] == xs[i];
      CounterpartIsSame(members, others, i, k);
      assert Counterpart(members, others, i, k);
    }
    forall k: nat | k < |others|
      ensures HasKey(members, others[k].key)
    {
      assert ys[k] in Sort(xs);
      var i: nat :| i < |xs| && xs[i] == ys[k];
      CounterpartIsSame(members, others, i, k);
      CounterpartIndices(members, others, i, k);
    }
  }

  lemma {:induction false} EquivalentIsSameForm(a: Json, b: Json)
    requires Valid(a) && Valid(b)
    ensures Equivalent(a, b) <==> Canon(a) == Canon(b)
    decreases a
  {
    if a.Arr? && b.Arr? && |a.items| == |b.items| {
      forall i | 0 <= i < |a.items|
        ensures Equivalent(a.items[i], b.items[i]) <==> CanonItems(a.items)[i] == CanonItems(b.items)[i]
      {
        CanonItemAt(a.items, i);
        CanonItemAt(b.items, i);
        EquivalentIsSameForm(a.items[i], b.items[i]);
      }
    } else if a.Obj? && b.Obj? {
      forall i: nat, k: nat | i < |a.members| && k < |b.members|
        ensures Counterpart(a.members, b.members, i, k)
           <==> a.members[i].key == b.members[k].key && Equivalent(a.members[i].content, b.members[k].content)
      {
        EquivalentIsSameForm(a.members[i].content, b.members[k].content);
      }
      ObjectsMatch(a, b) by {
        assert PairsAgree(a.members, b.members);
      }
    }
  }

  lemma SameCounterparts(members: seq<Member>, others: seq<Member>, i: nat)
    requires PairsAgree(members, others) && i < |members|
    ensures HasCounterpart(members, others, i) <==> HasEquivalent(members[i], others)
  {
    hide Counterpart, Equivalent;
    if HasCounterpart(members, others, i) {
      var k: nat :| Counterpart(members, others, i, k);
      CounterpartIndices(members, others, i, k);
    }
    if HasEquivalent(members[i], others) {
      var k: nat :| k < |others| && members[i].key == others[k].key && Equivalent(members[i].content, others[k].content);
      assert Counterpart(members, others, i, k);
    }
  }

  /** Equivalence of objects is a match of their members, if that is so for each pair of members. */
  lemma EquivalentIsMatched(a: Json, b: Json)
    requires a.Obj? && b.Obj? && PairsAgree(a.members, b.members)
    ensures Equivalent(a, b) <==> Matched(a.members, b.members)
  {
    hide HasCounterpart, HasEquivalent;
    forall i: nat | i < |a.members|
      ensures HasCounterpart(a.members, b.members, i) <==> HasEquivalent(a.members[i], b.members)
    {
      SameCounterparts(a.members, b.members, i);
    }
  }

  ghost predicate PairsAgree(members: seq<Member>, others: seq<Member>) {
    forall i: nat, k: nat :: i < |members| && k < |others| ==>
      (Counterpart(members, others, i, k)
       <==> members[i].key == others[k].key && Equivalent(members[i].content, others[k].content))
  }

  lemma ObjectsMatch(a: Json, b: Json)
    requires Valid(a) && Valid(b) && a.Obj? && b.Obj? && PairsAgree(a.members, b.members)
    ensures Equivalent(a, b) <==> Canon(a) == Canon(b)
  {
    EquivalentIsMatched(a, b);
    hide Equivalent, CanonMembers, Sort, Matched, PairsAgree;
    if Canon(a) == Canon(b) {
      AlikeSortedMembersMatch(a.members, b.members);
    }
    if Matched(a.members, b.members) {
      MatchedMembersSortAlike(a.members, b.members);
    }
  }

  /** Two requests have the same canonical text exactly when they are equal up to the order of object keys. */
  lemma StableJsonIsCanonical(a: Json, b: Json)
    requires Valid(a) && Valid(b)
    ensures StableJson(a) == StableJson(b) <==> Equivalent(a, b)
  {
    CanonIsValid(a);
    CanonIsValid(b);
    if StableJson(a) == StableJson(b) {
      PrintIsPrefixCode(Canon(a), Canon(b), [], []) by {
        assert Print(Canon(a)) + [] == Print(Canon(a)) && Print(Canon(b)) + [] == Print(Canon(b));
      }
    }
    EquivalentIsSameForm(a, b);
  }
}
