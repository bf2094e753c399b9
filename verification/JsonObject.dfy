/** The printer and the parser as they run: one appends to its output, the other
    moves a position and a node count over its input. */
module JsonObject {
  import opened Identity
  import opened Crc32c
  import opened Json

  class Printer {
    var out: Text

    constructor ()
      ensures out == []
    {
      out := [];
    }

    method AppendEscaped(s: Text)
      modifies this
      ensures out == old(out) + Escaped(s)
    {
      ghost var start := out;
      Append([QUOTE]);
      assert [QUOTE] + EscapeAll(s[..0]) == [QUOTE];
      var i := 0;
      while i < |s|
        invariant 0 <= i <= |s| && out == start + ([QUOTE] + EscapeAll(s[..i]))
      {
        Append(EscapeByte(s[i]));
        EscapeSnoc(s, i);
        Regroup([QUOTE], EscapeAll(s[..i]), EscapeByte(s[i]));
        Regroup(start, [QUOTE] + EscapeAll(s[..i]), EscapeByte(s[i]));
        i := i + 1;
      }
      assert s[..i] == s;
      Append([QUOTE]);
      Regroup(start, [QUOTE] + EscapeAll(s), [QUOTE]);
    }

    method Append(piece: Text)
      modifies this
      ensures out == old(out) + piece
    {
      out := out + piece;
    }

    method DumpInto(v: Value, indent: int, depth: nat)
      modifies this
      ensures out == old(out) + Dump(v, indent, depth)
      decreases v, 2
    {
      match v {
        case Null => Append(NULL_TEXT);
        case Bool(flag) => Append(if flag then TRUE_TEXT else FALSE_TEXT);
        case Int(i) => Append(Number(i));
        case Uint(n) => Append(Digits(n));
        case Str(s) => AppendEscaped(s);
        case Arr(items) => DumpArray(items, indent, depth);
        case Obj(members) => DumpObject(members, indent, depth);
      }
    }

    method DumpArray(items: seq<Value>, indent: int, depth: nat)
      modifies this
      ensures out == old(out) + Dump(Arr(items), indent, depth)
      decreases items, 5
    {
      if items == [] {
        Append([OPEN_BRACKET, CLOSE_BRACKET]);
        return;
      }
      Append([OPEN_BRACKET]);
      ArrayEntries(items, indent, depth + 1);
      Append(Break(indent, depth));
      Append([CLOSE_BRACKET]);
      CloseArray(old(out), items, indent, depth);
    }

    method ArrayEntries(items: seq<Value>, indent: int, depth: nat)
      modifies this
      ensures out == old(out) + DumpItems(items, indent, depth)
      decreases items, 4
    {
      ghost var start := out;
      ghost var parts := ItemParts(items, indent, depth);
      ItemPrefix(items, indent, depth, parts);
      assert start == start + Prefix(parts, 0);
      var i := 0;
      while i < |items|
        invariant 0 <= i <= |items| && out == start + Prefix(parts, i)
      {
        ghost var before := out;
        DumpEntry(items[i], i == 0, indent, depth);
        ItemPart(items, indent, depth, i);
        PrefixAppended(start, parts, i, before, out);
        i := i + 1;
      }
    }

    method DumpEntry(v: Value, first: bool, indent: int, depth: nat)
      modifies this
      ensures out == old(out) + Entry(first, DumpItem(v, indent, depth))
      decreases v, 3
    {
      if !first {
        Append([COMMA]);
      }
      ghost var after := out;
      Append(Break(indent, depth));
      DumpInto(v, indent, depth);
      Regroup(after, Break(indent, depth), Dump(v, indent, depth));
      if !first {
        Regroup(old(out), [COMMA], DumpItem(v, indent, depth));
      }
    }

    method DumpObject(members: seq<Member>, indent: int, depth: nat)
      modifies this
      ensures out == old(out) + Dump(Obj(members), indent, depth)
      decreases members, 5
    {
      if members == [] {
        Append([OPEN_BRACE, CLOSE_BRACE]);
        return;
      }
      Append([OPEN_BRACE]);
      ObjectEntries(members, indent, depth + 1);
      Append(Break(indent, depth));
      Append([CLOSE_BRACE]);
      CloseObject(old(out), members, indent, depth);
    }

    method ObjectEntries(members: seq<Member>, indent: int, depth: nat)
      modifies this
      ensures out == old(out) + DumpMembers(members, indent, depth)
      decreases members, 4
    {
      ghost var start := out;
      ghost var parts := MemberParts(members, indent, depth);
      MemberPrefix(members, indent, depth, parts);
      assert start == start + Prefix(parts, 0);
      var i := 0;
      while i < |members|
        invariant 0 <= i <= |members| && out == start + Prefix(parts, i)
      {
        ghost var before := out;
        DumpField(members[i], i == 0, indent, depth);
        MemberPart(members, indent, depth, i);
        PrefixAppended(start, parts, i, before, out);
        i := i + 1;
      }
    }

    method DumpField(m: Member, first: bool, indent: int, depth: nat)
      modifies this
      ensures out == old(out) + Entry(first, DumpMember(m, indent, depth))
      decreases m, 3
    {
      if !first {
        Append([COMMA]);
      }
      ghost var after := out;
      Append(Break(indent, depth));
      AppendEscaped(m.key);
      Append(Separator(indent));
      DumpInto(m.value, indent, depth);
      Regroup4Right(after, Break(indent, depth), Escaped(m.key), Separator(indent), Dump(m.value, indent, depth));
      if !first {
        Regroup(old(out), [COMMA], DumpMember(m, indent, depth));
      }
    }
  }

  /** A position and a node count over a text. A failed method leaves them anywhere
      inside the text. */
  class Parser {
    const text: Text
    const limits: Limits
    var pos: nat
    var nodes: nat

    constructor (text: Text, limits: Limits)
      ensures this.text == text && this.limits == limits && pos == 0 && nodes == 0
    {
      this.text := text;
      this.limits := limits;
      pos := 0;
      nodes := 0;
    }

    /** The outcome of a method that read a value from here. */
    predicate Read(v: Option<Value>, r: Parsed)
      reads this
    {
      pos <= |text| && if v.Some? then r == Got(v.value, pos, nodes) else r.Fail?
    }

    method SkipWhitespace()
      requires pos <= |text|
      modifies this`pos
      ensures pos == Skip(text, old(pos))
    {
      while pos < |text| && IsSpace(text[pos])
        invariant pos <= |text| && Skip(text, pos) == Skip(text, old(pos))
      {
        pos := pos + 1;
      }
    }

    /** After an entry: a comma goes on, the closing character ends the list. */
    method GoOn(close: Byte) returns (more: bool, closed: bool)
      requires pos <= |text| && close != COMMA
      modifies this`pos
      ensures more == Here(text, Skip(text, old(pos)), COMMA) && closed == Here(text, Skip(text, old(pos)), close)
      ensures pos == Skip(text, old(pos)) + if more || closed then 1 else 0
    {
      SkipWhitespace();
      more := Consume(COMMA);
      closed := false;
      if !more {
        closed := Consume(close);
      }
    }

    method Consume(c: Byte) returns (ok: bool)
      requires pos <= |text|
      modifies this`pos
      ensures ok == Here(text, old(pos), c)
      ensures pos == if ok then old(pos) + 1 else old(pos)
    {
      ok := pos < |text| && text[pos] == c;
      if ok {
        pos := pos + 1;
      }
    }

    method ScanDigits() returns (n: nat)
      requires pos <= |text|
      modifies this`pos
      ensures pos == DigitsEnd(text, old(pos)) && n == ValueOf(text[old(pos)..pos])
    {
      n := 0;
      while pos < |text| && IsDigit(text[pos])
        invariant old(pos) <= pos <= |text| && DigitsEnd(text, pos) == DigitsEnd(text, old(pos))
        invariant n == ValueOf(text[old(pos)..pos])
      {
        var digit: int := text[pos];
        ghost var s := text[old(pos)..pos + 1];
        assert s[..|s| - 1] == text[old(pos)..pos];
        n := 10 * n + (digit - 48);
        pos := pos + 1;
      }
    }

    method ReadNumber() returns (v: Option<Value>)
      requires pos <= |text|
      modifies this`pos
      ensures Read(v, ParseNumber(text, old(pos), nodes))
    {
      var begin := pos;
      var negative := Consume(MINUS);
      var start := pos;
      var n := ScanDigits();
      v := None;
      if pos == start || (text[start] == ZERO_DIGIT && pos > start + 1)
         || (pos < |text| && (text[pos] == DOT || text[pos] == 69 || text[pos] == 101)) || pos - begin > 20
      {
        return;
      }
      if negative && n <= -I64_MIN {
        v := Some(Int(-n));
      } else if !negative && n <= U64_MAX {
        v := Some(Uint(n));
      }
    }

    /** The loop over the pieces of a string, from just behind the opening quote. */
    method ReadString() returns (s: Option<Text>)
      requires pos <= |text|
      modifies this`pos
      ensures pos <= |text|
      ensures ParseString(text, old(pos), [], limits.maxString)
           == if s.Some? then GotText(s.value, pos) else BadText
    {
      var sofar: Text := [];
      while true
        invariant pos <= |text|
        invariant ParseString(text, pos, sofar, limits.maxString) == ParseString(text, old(pos), [], limits.maxString)
        decreases |text| - pos
      {
        var u := NextUnit(text, pos);
        match u {
          case BadUnit => return None;
          case Close(next) =>
            pos := next;
            return Some(sofar);
          case Piece(bytes, next, escaped) =>
            if (!escaped && |sofar| >= limits.maxString) || (escaped && |sofar + bytes| > limits.maxString) {
              return None;
            }
            sofar := sofar + bytes;
            pos := next;
        }
      }
    }

    method ReadLiteral(literal: Text, value: Value) returns (v: Option<Value>)
      requires pos <= |text|
      modifies this`pos
      ensures Read(v, ParseLiteral(text, old(pos), nodes, literal, value))
    {
      v := None;
      if Found(text, pos, literal) {
        pos := pos + |literal|;
        v := Some(value);
      }
    }

    method ReadLeaf(ghost depth: nat) returns (v: Option<Value>)
      requires pos < |text| && text[pos] != OPEN_BRACE && text[pos] != OPEN_BRACKET
      requires 0 < nodes <= limits.maxNodes && depth <= limits.maxDepth
      modifies this`pos
      ensures Read(v, ParseValue(text, limits, old(pos), nodes - 1, depth))
    {
      if text[pos] == QUOTE {
        pos := pos + 1;
        var s := ReadString();
        v := if s.Some? then Some(Str(s.value)) else None;
      } else if text[pos] == 116 {
        v := ReadLiteral(TRUE_TEXT, Bool(true));
      } else if text[pos] == 102 {
        v := ReadLiteral(FALSE_TEXT, Bool(false));
      } else if text[pos] == 110 {
        v := ReadLiteral(NULL_TEXT, Null);
      } else {
        v := ReadNumber();
      }
    }

    method ReadValue(depth: nat) returns (v: Option<Value>)
      requires pos <= |text|
      modifies this
      ensures Read(v, ParseValue(text, limits, old(pos), old(nodes), depth))
      decreases |text| - pos, 0
    {
      v := None;
      if depth > limits.maxDepth {
        return;
      }
      nodes := nodes + 1;
      if nodes > limits.maxNodes || pos >= |text| {
        return;
      }
      if text[pos] == OPEN_BRACE {
        pos := pos + 1;
        SkipWhitespace();
        var closed := Consume(CLOSE_BRACE);
        if closed {
          v := Some(Obj([]));
        } else {
          v := ReadMembers(depth);
        }
      } else if text[pos] == OPEN_BRACKET {
        pos := pos + 1;
        SkipWhitespace();
        var closed := Consume(CLOSE_BRACKET);
        if closed {
          v := Some(Arr([]));
        } else {
          v := ReadItems(depth);
        }
      } else {
        v := ReadLeaf(depth);
      }
    }

    /** The loop of the array parser. */
    method ReadItems(depth: nat) returns (v: Option<Value>)
      requires pos <= |text|
      modifies this
      ensures Read(v, ParseItems(text, limits, old(pos), old(nodes), depth, []))
      decreases |text| - pos, 1
    {
      var items: seq<Value> := [];
      while true
        invariant old(pos) <= pos <= |text|
        invariant ParseItems(text, limits, pos, nodes, depth, items)
               == ParseItems(text, limits, old(pos), old(nodes), depth, [])
        decreases |text| - pos
      {
        if |items| >= limits.maxEntries {
          return None;
        }
        SkipWhitespace();
        var item := ReadValue(depth + 1);
        if item.None? {
          return None;
        }
        items := items + [item.value];
        var more, closed := GoOn(CLOSE_BRACKET);
        if !more {
          return if closed then Some(Arr(items)) else None;
        }
      }
    }

    /** Looks the key up among the members already read. */
    method Seen(members: seq<Member>, key: Text) returns (seen: bool)
      ensures seen == HasKey(members, key)
    {
      seen := false;
      var i := 0;
      while i < |members|
        invariant 0 <= i <= |members|
        invariant seen <==> exists k :: 0 <= k < i && members[k].key == key
      {
        seen := seen || members[i].key == key;
        i := i + 1;
      }
    }

    method ReadKey(members: seq<Member>) returns (key: Option<Text>)
      requires pos <= |text|
      modifies this`pos
      ensures pos <= |text|
      ensures ParseKey(text, limits, old(pos), members) == if key.Some? then GotText(key.value, pos) else BadText
    {
      SkipWhitespace();
      var quoted := Consume(QUOTE);
      if !quoted {
        return None;
      }
      key := ReadString();
      if key.None? || |members| >= limits.maxEntries {
        return None;
      }
      var seen := Seen(members, key.value);
      if seen {
        return None;
      }
      SkipWhitespace();
      var colon := Consume(COLON);
      if !colon {
        return None;
      }
    }

    method ReadMember(depth: nat, members: seq<Member>) returns (m: Option<Member>)
      requires pos <= |text|
      modifies this
      ensures pos <= |text|
      ensures ParseMember(text, limits, old(pos), old(nodes), depth, members)
           == if m.Some? then GotMember(m.value, pos, nodes) else NoMember
      decreases |text| - pos, 1
    {
      m := None;
      var key := ReadKey(members);
      if key.Some? {
        SkipWhitespace();
        var value := ReadValue(depth + 1);
        m := if value.Some? then Some(Member(key.value, value.value)) else None;
      }
    }

    /** The loop of the object parser. */
    /** One turn: a member, and whether the object goes on after it. */
    method ReadNextMember(depth: nat, members: seq<Member>)
      returns (more: bool, v: Option<Value>, longer: seq<Member>)
      requires pos <= |text|
      modifies this
      ensures !more ==> Read(v, ParseMembers(text, limits, old(pos), old(nodes), depth, members))
      ensures more ==>
                && old(pos) < pos <= |text|
                && ParseMembers(text, limits, pos, nodes, depth, longer)
                == ParseMembers(text, limits, old(pos), old(nodes), depth, members)
      decreases |text| - pos, 2
    {
      var m := ReadMember(depth, members);
      if m.None? {
        return false, None, members;
      }
      longer := members + [m.value];
      var closed;
      more, closed := GoOn(CLOSE_BRACE);
      v := if closed then Some(Obj(longer)) else None;
    }

    method ReadMembers(depth: nat) returns (v: Option<Value>)
      requires pos <= |text|
      modifies this
      ensures Read(v, ParseMembers(text, limits, old(pos), old(nodes), depth, []))
      decreases |text| - pos, 3
    {
      var members: seq<Member> := [];
      while true
        invariant old(pos) <= pos <= |text|
        invariant ParseMembers(text, limits, pos, nodes, depth, members)
               == ParseMembers(text, limits, old(pos), old(nodes), depth, [])
        decreases |text| - pos
      {
        var more;
        more, v, members := ReadNextMember(depth, members);
        if !more {
          return;
        }
      }
    }

    /** The whole text. */
    method Run() returns (v: Option<Value>)
      requires pos == 0 && nodes == 0
      modifies this
      ensures v == Parse(text, limits)
    {
      if |text| > limits.maxTotal {
        return None;
      }
      SkipWhitespace();
      v := ReadValue(0);
      if v.Some? {
        SkipWhitespace();
        if pos != |text| {
          v := None;
        }
      }
    }
  }

  lemma {:induction false} EscapeSnoc(s: Text, i: nat)
    requires i < |s|
    ensures EscapeAll(s[..i + 1]) == EscapeAll(s[..i]) + EscapeByte(s[i])
    decreases i
  {
    if i == 0 {
      assert s[..1] == [s[0]] && s[..1][1..] == [];
      assert EscapeAll(s[..1]) == EscapeByte(s[0]) + [];
    } else {
      assert s[..i + 1][1..] == s[1..][..i] && s[..i][1..] == s[1..][..i - 1];
      EscapeSnoc(s[1..], i - 1);
      Regroup(EscapeByte(s[0]), EscapeAll(s[1..][..i - 1]), EscapeByte(s[i]));
    }
  }

  // ---- Writing entry by entry -----------------------------------------------------------------

  function Entry(first: bool, text: Text): Text {
    if first then text else [COMMA] + text
  }

  /** What has been written after n entries. */
  function Prefix(parts: seq<Text>, n: nat): Text
    requires n <= |parts|
    decreases n
  {
    if n == 0 then [] else if n == 1 then parts[0] else Prefix(parts, n - 1) + ([COMMA] + parts[n - 1])
  }

  lemma PrefixGrows(parts: seq<Text>, i: nat)
    requires i < |parts|
    ensures Prefix(parts, i + 1) == Prefix(parts, i) + Entry(i == 0, parts[i])
  {
  }

  lemma PrefixAppended(start: Text, parts: seq<Text>, i: nat, before: Text, after: Text)
    requires i < |parts| && before == start + Prefix(parts, i) && after == before + Entry(i == 0, parts[i])
    ensures after == start + Prefix(parts, i + 1)
  {
    PrefixGrows(parts, i);
    Regroup(start, Prefix(parts, i), Entry(i == 0, parts[i]));
  }

  function Join(parts: seq<Text>): Text {
    if parts == [] then []
    else if |parts| == 1 then parts[0]
    else parts[0] + ([COMMA] + Join(parts[1..]))
  }

  lemma Regroup(a: Text, b: Text, c: Text)
    ensures a + b + c == a + (b + c)
  {
  }

  lemma Regroup4Right(a: Text, b: Text, c: Text, d: Text, e: Text)
    ensures a + b + c + d + e == a + (b + (c + (d + e)))
  {
  }

  /** One more entry behind, seen with and without the entry in front. */
  lemma Carry(head: Text, rest: Text, last: Text, before: Text, after: Text, rest': Text)
    requires before == head + ([COMMA] + rest)
    requires after == before + ([COMMA] + last) && rest' == rest + ([COMMA] + last)
    ensures after == head + ([COMMA] + rest')
  {
    Regroup(head, [COMMA] + rest, [COMMA] + last);
    Regroup([COMMA], rest, [COMMA] + last);
  }

  lemma PrefixFirst(parts: seq<Text>)
    requires parts != []
    ensures Prefix(parts, 1) == parts[0]
  {
    assert [] + parts[0] == parts[0];
  }

  /** With an entry in front the rest moves one place and gets its comma. */
  lemma {:induction false} PrefixShift(parts: seq<Text>, head: Text, rest: seq<Text>, n: nat)
    requires parts == [head] + rest && 0 < n <= |rest|
    ensures Prefix(parts, n + 1) == head + ([COMMA] + Prefix(rest, n))
    decreases n
  {
    PrefixGrows(parts, n);
    if n == 1 {
      PrefixFirst(parts);
      PrefixFirst(rest);
    } else {
      PrefixShift(parts, head, rest, n - 1);
      PrefixGrows(rest, n - 1);
      Carry(head, Prefix(rest, n - 1), rest[n - 1], Prefix(parts, n), Prefix(parts, n + 1), Prefix(rest, n));
    }
  }

  lemma {:induction false} PrefixIsJoin(parts: seq<Text>)
    ensures Prefix(parts, |parts|) == Join(parts)
    decreases |parts|
  {
    if |parts| == 1 {
      assert Prefix(parts, 1) == [] + parts[0];
    } else if |parts| > 1 {
      PrefixIsJoin(parts[1..]);
      PrefixShift(parts, parts[0], parts[1..], |parts| - 1);
    }
  }

  ghost function ItemParts(items: seq<Value>, indent: int, depth: nat): seq<Text> {
    if items == [] then [] else [DumpItem(items[0], indent, depth)] + ItemParts(items[1..], indent, depth)
  }

  lemma {:induction false} ItemPart(items: seq<Value>, indent: int, depth: nat, i: nat)
    requires i < |items|
    ensures i < |ItemParts(items, indent, depth)|
    ensures ItemParts(items, indent, depth)[i] == DumpItem(items[i], indent, depth)
    decreases i
  {
    if i > 0 {
      ItemPart(items[1..], indent, depth, i - 1);
    }
  }

  lemma {:induction false} ItemPartsJoin(items: seq<Value>, indent: int, depth: nat)
    ensures |ItemParts(items, indent, depth)| == |items|
    ensures DumpItems(items, indent, depth) == Join(ItemParts(items, indent, depth))
    decreases |items|
  {
    if items != [] {
      ItemPartsJoin(items[1..], indent, depth);
      assert ItemParts(items, indent, depth)[1..] == ItemParts(items[1..], indent, depth);
    }
  }

  lemma ItemPrefix(items: seq<Value>, indent: int, depth: nat, parts: seq<Text>)
    requires parts == ItemParts(items, indent, depth)
    ensures |parts| == |items| && DumpItems(items, indent, depth) == Prefix(parts, |parts|)
  {
    ItemPartsJoin(items, indent, depth);
    PrefixIsJoin(parts);
  }

  ghost function MemberParts(members: seq<Member>, indent: int, depth: nat): seq<Text> {
    if members == [] then [] else [DumpMember(members[0], indent, depth)] + MemberParts(members[1..], indent, depth)
  }

  lemma {:induction false} MemberPart(members: seq<Member>, indent: int, depth: nat, i: nat)
    requires i < |members|
    ensures i < |MemberParts(members, indent, depth)|
    ensures MemberParts(members, indent, depth)[i] == DumpMember(members[i], indent, depth)
    decreases i
  {
    if i > 0 {
      MemberPart(members[1..], indent, depth, i - 1);
    }
  }

  lemma {:induction false} MemberPartsJoin(members: seq<Member>, indent: int, depth: nat)
    ensures |MemberParts(members, indent, depth)| == |members|
    ensures DumpMembers(members, indent, depth) == Join(MemberParts(members, indent, depth))
    decreases |members|
  {
    if members != [] {
      MemberPartsJoin(members[1..], indent, depth);
      assert MemberParts(members, indent, depth)[1..] == MemberParts(members[1..], indent, depth);
    }
  }

  lemma MemberPrefix(members: seq<Member>, indent: int, depth: nat, parts: seq<Text>)
    requires parts == MemberParts(members, indent, depth)
    ensures |parts| == |members| && DumpMembers(members, indent, depth) == Prefix(parts, |parts|)
  {
    MemberPartsJoin(members, indent, depth);
    PrefixIsJoin(parts);
  }

  lemma Regroup4(a: Text, b: Text, c: Text, d: Text, e: Text)
    ensures a + b + c + d + e == a + (b + c + d + e)
  {
  }

  lemma CloseArray(before: Text, items: seq<Value>, indent: int, depth: nat)
    requires items != []
    ensures before + [OPEN_BRACKET] + DumpItems(items, indent, depth + 1) + Break(indent, depth) + [CLOSE_BRACKET]
         == before + Dump(Arr(items), indent, depth)
  {
    Regroup4(before, [OPEN_BRACKET], DumpItems(items, indent, depth + 1), Break(indent, depth), [CLOSE_BRACKET]);
  }

  lemma CloseObject(before: Text, members: seq<Member>, indent: int, depth: nat)
    requires members != []
    ensures before + [OPEN_BRACE] + DumpMembers(members, indent, depth + 1) + Break(indent, depth) + [CLOSE_BRACE]
         == before + Dump(Obj(members), indent, depth)
  {
    Regroup4(before, [OPEN_BRACE], DumpMembers(members, indent, depth + 1), Break(indent, depth), [CLOSE_BRACE]);
  }
}
