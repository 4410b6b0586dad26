/**
 * The canonical text is JSON text: read by the grammar of RFC 8259 it gives back the value, and every object's keys ascend
 * by code units, with no white space between them.
 */
module JsonText {
  import opened Wrappers
  import opened CanonicalJson

  // ----- strings, section 7 of RFC 8259

  function HexValue(u: Unit): Option<nat> {
    if '0' as int <= u <= '9' as int then Some(u - '0' as int)
    else if 'a' as int <= u <= 'f' as int then Some(u - 'a' as int + 10)
    else if 'A' as int <= u <= 'F' as int then Some(u - 'A' as int + 10)
    else None
  }

  /** The unit that a backslash and the given unit stand for. */
  function Named(u: Unit): Option<Unit> {
    if u == '"' as int then Some(0x22) else if u == '\\' as int then Some(0x5C) else if u == '/' as int then Some(0x2F)
    else if u == 'b' as int then Some(0x08) else if u == 'f' as int then Some(0x0C) else if u == 'n' as int then Some(0x0A)
    else if u == 'r' as int then Some(0x0D) else if u == 't' as int then Some(0x09) else None
  }

  predicate FourHex(t: Text) {
    |t| >= 6 && t[1] == 'u' as int && HexValue(t[2]).Some? && HexValue(t[3]).Some? && HexValue(t[4]).Some? && HexValue(t[5]).Some?
  }

  function HexNumber(t: Text): nat
    requires FourHex(t)
  {
    HexValue(t[2]).value * 4096 + HexValue(t[3]).value * 256 + HexValue(t[4]).value * 16 + HexValue(t[5]).value
  }

  function Prepend(u: nat, rest: Option<Text>): Option<Text> {
    if rest.None? || u >= 0x1_0000 then None else Some([u] + rest.value)
  }

  /** What the text between two quotation marks stands for. */
  function Unescape(t: Text): Option<Text>
    decreases |t|
  {
    if t == [] then Some([])
    else if t[0] == '\\' as int then
      if FourHex(t) then Prepend(HexNumber(t), Unescape(t[6..]))
      else if |t| >= 2 && Named(t[1]).Some? then Prepend(Named(t[1]).value, Unescape(t[2..]))
      else None
    else if t[0] < 0x20 || t[0] == '"' as int then None
    else Prepend(t[0], Unescape(t[1..]))
  }

  lemma HexIsRead(d: nat)
    requires d < 16
    ensures HexValue(Hex(d)) == Some(d)
  {
  }

  lemma UnicodeIsRead(u: Unit, rest: Text)
    ensures FourHex(Unicode(u) + rest) && HexNumber(Unicode(u) + rest) == u && (Unicode(u) + rest)[6..] == rest
  {
    HexIsRead(u / 4096);
    HexIsRead(u / 256 % 16);
    HexIsRead(u / 16 % 16);
    HexIsRead(u % 16);
    FourDigits(u);
    var t := Unicode(u) + rest;
    assert t[2] == Hex(u / 4096) && t[3] == Hex(u / 256 % 16) && t[4] == Hex(u / 16 % 16) && t[5] == Hex(u % 16);
    hide Hex, HexValue;
  }

  lemma ShortIsRead(u: Unit)
    requires Short(u) != 0
    ensures Named(Short(u)) == Some(u)
  {
  }

  lemma EscapedIsRead(u: Unit, rest: Text)
    ensures Unescape(Escaped(u) + rest) == Prepend(u, Unescape(rest))
  {
    var t := Escaped(u) + rest;
    if Short(u) != 0 {
      ShortIsRead(u);
      assert t[0] == '\\' as int && t[1] == Short(u) && t[2..] == rest;
      hide Named, Short;
    } else if Raw(u) {
      assert t[0] == u && t[1..] == rest;
    } else {
      UnicodeIsRead(u, rest);
      assert t == Unicode(u) + rest;
      assert t[0] == '\\' as int;
      hide FourHex, HexNumber, Short;
    }
  }

  lemma PairIsRead(high: Unit, low: Unit, rest: Text)
    requires High(high) && Low(low)
    ensures Unescape([high, low] + rest) == Prepend(high, Prepend(low, Unescape(rest)))
  {
    assert ([high, low] + rest)[1..] == [low] + rest;
    assert ([low] + rest)[1..] == rest;
    assert Unescape([low] + rest) == Prepend(low, Unescape(rest));
  }

  /** Reading an escaped string gives back the string, lone surrogates included. */
  lemma {:induction false} EscapeIsRead(s: Text)
    ensures Unescape(Escape(s)) == Some(s)
    decreases |s|
  {
    if s != [] {
      if Paired(s) {
        EscapeIsRead(s[2..]);
        PairIsRead(s[0], s[1], Escape(s[2..]));
        assert s == [s[0]] + ([s[1]] + s[2..]);
      } else {
        EscapeIsRead(s[1..]);
        EscapedIsRead(s[0], Escape(s[1..]));
        assert s == [s[0]] + s[1..];
      }
      hide Unescape, Escaped;
    }
  }

  predicate IsHigh(u: Unit) {
    0xD800 <= u <= 0xDBFF
  }

  predicate IsLow(u: Unit) {
    0xDC00 <= u <= 0xDFFF
  }

  /** Every surrogate is half of a pair. */
  predicate WellPaired(t: Text)
    decreases |t|
  {
    if t == [] then true
    else if IsHigh(t[0]) then |t| > 1 && IsLow(t[1]) && WellPaired(t[2..])
    else !IsLow(t[0]) && WellPaired(t[1..])
  }

  lemma {:induction false} PlainThenPaired(x: Text, rest: Text)
    requires WellPaired(rest) && forall i :: 0 <= i < |x| ==> !IsHigh(x[i]) && !IsLow(x[i])
    ensures WellPaired(x + rest)
  {
    if x == [] {
      assert x + rest == rest;
    } else {
      PlainThenPaired(x[1..], rest);
      assert (x + rest)[1..] == x[1..] + rest;
    }
  }

  /** Escaping leaves no lone surrogate, so the text can be written in UTF-8. */
  lemma {:induction false} EscapeIsWellPaired(s: Text)
    ensures WellPaired(Escape(s))
    decreases |s|
  {
    if s != [] {
      if Paired(s) {
        EscapeIsWellPaired(s[2..]);
        assert ([s[0], s[1]] + Escape(s[2..]))[2..] == Escape(s[2..]);
      } else {
        EscapeIsWellPaired(s[1..]);
        PlainThenPaired(Escaped(s[0]), Escape(s[1..]));
      }
    }
  }

  /** Only quotation marks, backslashes, controls and lone surrogates are escaped. */
  lemma {:induction false} RestStaysRaw(s: Text)
    requires WellPaired(s) && forall i :: 0 <= i < |s| ==> s[i] >= 0x20 && s[i] != 0x22 && s[i] != 0x5C
    ensures Escape(s) == s
    decreases |s|
  {
    if s != [] {
      if IsHigh(s[0]) {
        RestStaysRaw(s[2..]);
        assert s == [s[0], s[1]] + s[2..];
      } else {
        RestStaysRaw(s[1..]);
        assert s == [s[0]] + s[1..];
      }
    }
  }

  // ----- values

  function Joined(parts: seq<Text>): Text {
    if parts == [] then [] else if |parts| == 1 then parts[0] else parts[0] + [',' as int] + Joined(parts[1..])
  }

  predicate ReadsString(t: Text, s: Text) {
    |t| >= 2 && t[0] == '"' as int && t[|t| - 1] == '"' as int && Unescape(t[1..|t| - 1]) == Some(s)
  }

  /** The first string is a prefix of the second, or has the smaller unit where they first differ. */
  ghost predicate Ascends(a: Text, b: Text) {
    exists n :: 0 <= n <= |a| && n <= |b| && a[..n] == b[..n] && (n == |a| || (n < |b| && a[n] < b[n]))
  }

  ghost predicate Permutes(order: seq<nat>, size: nat) {
    && |order| == size && (forall i :: 0 <= i < size ==> order[i] < size)
    && (forall i, j :: 0 <= i < j < size ==> order[i] != order[j])
  }

  function Letters(s: string): Text
    requires forall i :: 0 <= i < |s| ==> s[i] < 128 as char
  {
    seq(|s|, i requires 0 <= i < |s| => s[i] as int)
  }

  ghost predicate ReadsMember(t: Text, m: Member)
    decreases m
  {
    exists key: Text, content: Text :: t == key + [':' as int] + content && ReadsString(key, m.key) && Reads(content, m.content)
  }

  /** The text is a JSON text of the value, without white space and with the keys of each object ascending. */
  ghost predicate Reads(t: Text, j: Json)
    decreases j
  {
    match j
    case Null => t == Letters("null")
    case Bool(b) => t == if b then Letters("true") else Letters("false")
    case Num(n) => t == n
    case Str(s) => ReadsString(t, s)
    case Arr(items) =>
      exists parts: seq<Text> ::
        && |parts| == |items| && t == Letters("[") + Joined(parts) + Letters("]")
        && forall i :: 0 <= i < |items| ==> Reads(parts[i], items[i])
    case Obj(members) =>
      exists parts: seq<Text>, order: seq<nat> ::
        && |parts| == |members| && t == Letters("{") + Joined(parts) + Letters("}") && Permutes(order, |members|)
        && (forall i :: 0 < i < |members| ==> Ascends(members[order[i - 1]].key, members[order[i]].key))
        && forall i :: 0 <= i < |members| ==> ReadsMember(parts[i], members[order[i]])
  }

  lemma QuoteIsRead(s: Text)
    ensures ReadsString(Quote(s), s)
  {
    EscapeIsRead(s);
    var t := Quote(s);
    assert t[1..|t| - 1] == Escape(s);
    hide Escape, Unescape;
  }

  lemma {:induction false} LeqAscends(a: Text, b: Text)
    requires Leq(a, b)
    ensures Ascends(a, b)
    decreases |a|
  {
    if a == [] || a[0] != b[0] {
      assert a[..0] == b[..0];
    } else {
      LeqAscends(a[1..], b[1..]);
      var n :| 0 <= n <= |a[1..]| && n <= |b[1..]| && a[1..][..n] == b[1..][..n] && (n == |a[1..]| || (n < |b[1..]| && a[1..][n] < b[1..][n]));
      assert a[..n + 1] == [a[0]] + a[1..][..n] && b[..n + 1] == [b[0]] + b[1..][..n];
    }
  }

  // ----- arrays and objects

  function ItemTexts(items: seq<Json>): (parts: seq<Text>)
    ensures |parts| == |items|
  {
    seq(|items|, i requires 0 <= i < |items| => Print(items[i]))
  }

  function MemberTexts(members: seq<Member>): (parts: seq<Text>)
    ensures |parts| == |members|
  {
    seq(|members|, i requires 0 <= i < |members| => PrintMember(members[i]))
  }

  lemma {:induction false} ItemsAreJoined(items: seq<Json>)
    ensures PrintItems(items) == Joined(ItemTexts(items))
  {
    hide Print;
    if items == [] {
    } else if |items| == 1 {
    } else {
      ItemsAreJoined(items[1..]);
      assert ItemTexts(items)[1..] == ItemTexts(items[1..]);
    }
  }

  lemma {:induction false} MembersAreJoined(members: seq<Member>)
    ensures PrintMembers(members) == Joined(MemberTexts(members))
  {
    hide PrintMember;
    if members == [] {
    } else if |members| == 1 {
    } else {
      MembersAreJoined(members[1..]);
      assert MemberTexts(members)[1..] == MemberTexts(members[1..]);
    }
  }

  /** Where the sorted members come from. */
  lemma SortedFrom(members: seq<Member>) returns (order: seq<nat>)
    requires DistinctKeys(members)
    ensures |Sort(members)| == |members| && Permutes(order, |members|)
    ensures forall i :: 0 <= i < |members| ==> Sort(members)[i] == members[order[i]]
  {
    SortedMembers(members);
    var sorted := Sort(members);
    hide Sort;
    order := [];
    while |order| < |sorted|
      invariant |order| <= |sorted|
      invariant forall i :: 0 <= i < |order| ==> order[i] < |members| && members[order[i]] == sorted[i]
      invariant forall i, j :: 0 <= i < j < |order| ==> order[i] != order[j]
    {
      var m := sorted[|order|];
      assert m in members;
      var k :| 0 <= k < |members| && members[k] == m;
      order := order + [k];
    }
  }

  lemma MemberIsRead(m: Member)
    requires Reads(Print(Canon(m.content)), m.content)
    ensures ReadsMember(PrintMember(Member(m.key, Canon(m.content))), m)
  {
    QuoteIsRead(m.key);
    hide Reads, Quote, ReadsString, Print, Canon;
  }

  lemma ArrayIsRead(items: seq<Json>)
    requires forall i :: 0 <= i < |items| ==> Reads(Print(Canon(items[i])), items[i])
    ensures Reads(StableJson(Arr(items)), Arr(items))
  {
    var canon := CanonItems(items);
    ItemsAreJoined(canon);
    forall i | 0 <= i < |items|
      ensures Reads(ItemTexts(canon)[i], items[i])
    {
      CanonItemAt(items, i);
    }
    assert StableJson(Arr(items)) == Letters("[") + Joined(ItemTexts(canon)) + Letters("]");
    hide CanonItems, Joined, PrintItems;
  }

  lemma ObjectIsRead(members: seq<Member>)
    requires DistinctKeys(members)
    requires forall i :: 0 <= i < |members| ==> Reads(Print(Canon(members[i].content)), members[i].content)
    ensures Reads(StableJson(Obj(members)), Obj(members))
  {
    var canon := CanonMembers(members);
    CanonKeysAreDistinct(members);
    var order := SortedFrom(canon);
    var sorted := Sort(canon);
    SortedMembers(canon);
    MembersAreJoined(sorted);
    hide CanonMembers, Sort;
    var parts := MemberTexts(sorted);
    forall i | 0 <= i < |members|
      ensures ReadsMember(parts[i], members[order[i]]) && sorted[i].key == members[order[i]].key
    {
      CanonMemberAt(members, order[i]);
      MemberIsRead(members[order[i]]);
    }
    forall i | 0 < i < |members|
      ensures Ascends(members[order[i - 1]].key, members[order[i]].key)
    {
      LeqAscends(sorted[i - 1].key, sorted[i].key);
    }
    assert StableJson(Obj(members)) == Letters("{") + Joined(parts) + Letters("}");
    hide Joined, ReadsMember, PrintMembers, PrintMember, Ascends;
  }

  /** The canonical text of a value is a JSON text of that value with ascending keys. */
  lemma {:induction false} StableJsonIsJson(j: Json)
    requires Valid(j)
    ensures Reads(StableJson(j), j)
    decreases j
  {
    match j
    case Arr(items) =>
      forall i | 0 <= i < |items|
        ensures Reads(Print(Canon(items[i])), items[i])
      {
        StableJsonIsJson(items[i]);
      }
      ArrayIsRead(items);
    case Obj(members) =>
      forall i | 0 <= i < |members|
        ensures Reads(Print(Canon(members[i].content)), members[i].content)
      {
        StableJsonIsJson(members[i].content);
      }
      ObjectIsRead(members);
    case Str(s) => QuoteIsRead(s);
    case _ =>
  }
}
