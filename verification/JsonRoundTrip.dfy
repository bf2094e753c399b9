/** Parsing inverts printing: for every value in range the parser accepts the
    printed text exactly when the value is within the limits, and then returns
    the value with non-negative integers unsigned. */
module JsonRoundTrip {
  import opened Identity
  import opened Crc32c
  import opened Json

  // ---- What the parser gives back, and when -----------------------------------------------

  /** The printed form does not tell a non-negative Int from a Uint. */
  function Canon(v: Value): Value
    decreases v, 0
  {
    match v
    case Int(i) => if i >= 0 then Uint(i) else v
    case Arr(items) => Arr(CanonItems(items))
    case Obj(members) => Obj(CanonMembers(members))
    case _ => v
  }

  function CanonItems(items: seq<Value>): seq<Value>
    decreases items, 1
  {
    if items == [] then [] else [Canon(items[0])] + CanonItems(items[1..])
  }

  function CanonMembers(members: seq<Member>): seq<Member>
    decreases members, 1
  {
    if members == [] then []
    else [Member(members[0].key, Canon(members[0].value))] + CanonMembers(members[1..])
  }

  function Nodes(v: Value): nat
    decreases v, 0
  {
    match v
    case Arr(items) => 1 + ItemNodes(items)
    case Obj(members) => 1 + MemberNodes(members)
    case _ => 1
  }

  function ItemNodes(items: seq<Value>): nat
    decreases items, 1
  {
    if items == [] then 0 else Nodes(items[0]) + ItemNodes(items[1..])
  }

  function MemberNodes(members: seq<Member>): nat
    decreases members, 1
  {
    if members == [] then 0 else Nodes(members[0].value) + MemberNodes(members[1..])
  }

  /** Within the limits on depth, string length and entries, with distinct keys. */
  predicate Fits(v: Value, depth: nat, limits: Limits)
    decreases v, 0
  {
    && depth <= limits.maxDepth
    && match v
       case Str(s) => |s| <= limits.maxString
       case Arr(items) => |items| <= limits.maxEntries && ItemsFit(items, depth + 1, limits)
       case Obj(members) => |members| <= limits.maxEntries && MembersFit({}, members, depth + 1, limits)
       case _ => true
  }

  predicate ItemsFit(items: seq<Value>, depth: nat, limits: Limits)
    decreases items, 1
  {
    items == [] || (Fits(items[0], depth, limits) && ItemsFit(items[1..], depth, limits))
  }

  predicate MembersFit(seen: set<Text>, members: seq<Member>, depth: nat, limits: Limits)
    decreases members, 1
  {
    members == []
    || (&& |members[0].key| <= limits.maxString && members[0].key !in seen
        && Fits(members[0].value, depth, limits)
        && MembersFit(seen + {members[0].key}, members[1..], depth, limits))
  }

  /** Membership fit means: keys short and pairwise distinct, values fit. */
  lemma {:induction false} MembersFitIff(seen: set<Text>, members: seq<Member>, depth: nat, limits: Limits)
    ensures MembersFit(seen, members, depth, limits) <==>
              && (forall i :: 0 <= i < |members| ==>
                    |members[i].key| <= limits.maxString && members[i].key !in seen
                    && Fits(members[i].value, depth, limits))
              && (forall i, j :: 0 <= i < j < |members| ==> members[i].key != members[j].key)
    decreases |members|
  {
    if members != [] {
      var rest := members[1..];
      MembersFitIff(seen + {members[0].key}, rest, depth, limits);
      assert forall i :: 1 <= i < |members| ==> members[i] == rest[i - 1];
      assert forall i :: 0 <= i < |rest| ==> rest[i] == members[i + 1];
    }
  }

  // ---- Reading at a place --------------------------------------------------------------------

  lemma FoundSplit(text: Text, pos: nat, a: Text, b: Text)
    requires Found(text, pos, a + b)
    ensures Found(text, pos, a) && Found(text, pos + |a|, b)
  {
    forall k | 0 <= k < |a| ensures text[pos + k] == a[k] {
      assert (a + b)[k] == a[k];
    }
    forall k | 0 <= k < |b| ensures text[pos + |a| + k] == b[k] {
      assert (a + b)[|a| + k] == b[k];
    }
  }

  lemma FoundSlice(text: Text, pos: nat, a: Text)
    requires Found(text, pos, a)
    ensures pos + |a| <= |text| && text[pos..pos + |a|] == a
  {
  }

  lemma SliceFound(text: Text, pos: nat, a: Text)
    requires pos + |a| <= |text| && text[pos..pos + |a|] == a
    ensures Found(text, pos, a)
  {
  }

  lemma FoundByte(text: Text, pos: nat, c: Byte)
    requires Found(text, pos, [c])
    ensures Here(text, pos, c)
  {
    assert [c][0] == c;
  }

  lemma {:induction false} SkipSpaces(text: Text, pos: nat, n: nat)
    requires Found(text, pos, Spaces(n))
    ensures |Spaces(n)| == n && Skip(text, pos) == Skip(text, pos + n)
    decreases n
  {
    if n > 0 {
      assert Spaces(n) == [SPACE] + Spaces(n - 1);
      FoundSplit(text, pos, [SPACE], Spaces(n - 1));
      FoundByte(text, pos, SPACE);
      SkipSpaces(text, pos + 1, n - 1);
    }
  }

  lemma {:induction false} SkipPadding(text: Text, pos: nat, indent: nat, depth: nat)
    requires Found(text, pos, Padding(indent, depth))
    ensures Skip(text, pos) == Skip(text, pos + |Padding(indent, depth)|)
    decreases depth
  {
    if depth > 0 {
      FoundSplit(text, pos, Spaces(indent), Padding(indent, depth - 1));
      SkipSpaces(text, pos, indent);
      SkipPadding(text, pos + indent, indent, depth - 1);
    }
  }

  lemma SkipBreak(text: Text, pos: nat, indent: int, depth: nat)
    requires Found(text, pos, Break(indent, depth))
    ensures Skip(text, pos) == Skip(text, pos + |Break(indent, depth)|)
  {
    if indent > 0 {
      FoundSplit(text, pos, [NEWLINE], Padding(indent, depth));
      FoundByte(text, pos, NEWLINE);
      SkipPadding(text, pos + 1, indent, depth);
    }
  }

  // ---- Numbers -----------------------------------------------------------------------------------

  predicate AllDigits(s: Text) {
    forall k :: 0 <= k < |s| ==> IsDigit(s[k])
  }

  lemma {:induction false} DigitsFacts(n: nat)
    ensures |Digits(n)| > 0 && AllDigits(Digits(n)) && ValueOf(Digits(n)) == n
    ensures Digits(n)[0] == 48 ==> n == 0 && |Digits(n)| == 1
  {
    if n >= 10 {
      DigitsFacts(n / 10);
      assert Digits(n)[..|Digits(n)| - 1] == Digits(n / 10);
    }
  }

  function Pow10(k: nat): nat {
    if k == 0 then 1 else 10 * Pow10(k - 1)
  }

  lemma {:induction false} DigitsLength(n: nat, k: nat)
    requires k > 0 && n < Pow10(k)
    ensures |Digits(n)| <= k
    decreases n
  {
    if n >= 10 {
      DigitsLength(n / 10, k - 1);
    }
  }

  lemma Widths(n: nat)
    ensures n <= U64_MAX ==> |Digits(n)| <= 20
    ensures n <= 0x8000_0000_0000_0000 ==> |Digits(n)| <= 19
  {
    assert Pow10(5) == 100000;
    assert Pow10(10) == 10000000000;
    assert Pow10(15) == 1000000000000000;
    assert Pow10(19) == 10000000000000000000;
    assert Pow10(20) == 100000000000000000000;
    if n <= U64_MAX {
      DigitsLength(n, 20);
    }
    if n <= 0x8000_0000_0000_0000 {
      DigitsLength(n, 19);
    }
  }

  /** What follows does not continue a number. */
  predicate NumberEnds(text: Text, end: nat) {
    end < |text| ==> !IsDigit(text[end]) && text[end] != DOT && text[end] != 69 && text[end] != 101
  }

  lemma {:induction false} DigitsEndAt(text: Text, pos: nat, ds: Text)
    requires Found(text, pos, ds) && AllDigits(ds) && NumberEnds(text, pos + |ds|)
    ensures DigitsEnd(text, pos) == pos + |ds|
    decreases |ds|
  {
    if ds != [] {
      assert ds == [ds[0]] + ds[1..];
      FoundSplit(text, pos, [ds[0]], ds[1..]);
      FoundByte(text, pos, ds[0]);
      DigitsEndAt(text, pos + 1, ds[1..]);
    }
  }

  lemma UnsignedDumped(text: Text, pos: nat, n: nat, nodes: nat)
    requires n <= U64_MAX && Found(text, pos, Digits(n)) && NumberEnds(text, pos + |Digits(n)|)
    ensures ParseNumber(text, pos, nodes) == Got(Uint(n), pos + |Digits(n)|, nodes)
    ensures pos < |text| && IsDigit(text[pos])
  {
    var ds := Digits(n);
    DigitsFacts(n);
    Widths(n);
    DigitsEndAt(text, pos, ds);
    FoundSlice(text, pos, ds);
  }

  lemma NegativeRead(text: Text, pos: nat, i: int, end: nat, nodes: nat)
    requires Here(text, pos, MINUS) && end <= |text| && NumberEnds(text, end)
    requires pos + 1 < end <= pos + 20 && DigitsEnd(text, pos + 1) == end
    requires I64_MIN <= i < 0 && ValueOf(text[pos + 1..end]) == -i
    requires text[pos + 1] == ZERO_DIGIT ==> end == pos + 2
    ensures ParseNumber(text, pos, nodes) == Got(Int(i), end, nodes)
  {
  }

  lemma NegativeDumped(text: Text, pos: nat, i: int, nodes: nat)
    requires I64_MIN <= i < 0 && Found(text, pos, Number(i)) && NumberEnds(text, pos + |Number(i)|)
    ensures ParseNumber(text, pos, nodes) == Got(Int(i), pos + |Number(i)|, nodes)
    ensures Here(text, pos, MINUS)
  {
    var ds := Digits(-i);
    FoundSplit(text, pos, [MINUS], ds);
    FoundByte(text, pos, MINUS);
    DigitsFacts(-i);
    Widths(-i);
    DigitsEndAt(text, pos + 1, ds);
    FoundSlice(text, pos + 1, ds);
    NegativeRead(text, pos, i, pos + 1 + |ds|, nodes);
  }

  // ---- Strings -------------------------------------------------------------------------------------

  lemma HexRound(n: nat)
    requires n < 16
    ensures HexValue(HexDigit(n)) == Some(n)
  {
  }

  lemma EscapeDumped(text: Text, pos: nat, c: Byte)
    requires Found(text, pos, EscapeByte(c))
    ensures var u := NextUnit(text, pos);
            u.Piece? && u.bytes == [c] && u.next == pos + |EscapeByte(c)|
  {
    var e := EscapeByte(c);
    var piece := text[pos..pos + |e|];
    FoundSlice(text, pos, e);
    assert text[pos] == piece[0];
    if |e| > 1 {
      assert text[pos + 1] == piece[1];
    }
    if |e| == 6 {
      assert text[pos + 2] == piece[2] && text[pos + 3] == piece[3];
      assert text[pos + 4] == piece[4] && text[pos + 5] == piece[5];
      HexRound(c / 16);
      HexRound(c % 16);
      HexRound(0);
    }
  }

  lemma StringStep(text: Text, pos: nat, c: Byte, sofar: Text, max: nat, next: nat)
    requires Found(text, pos, EscapeByte(c)) && |sofar| <= max && next == pos + |EscapeByte(c)|
    ensures ParseString(text, pos, sofar, max)
         == if |sofar| < max then ParseString(text, next, sofar + [c], max) else BadText
  {
    EscapeDumped(text, pos, c);
  }

  lemma StringEnd(text: Text, pos: nat, sofar: Text, max: nat)
    requires Found(text, pos, [QUOTE])
    ensures ParseString(text, pos, sofar, max) == GotText(sofar, pos + 1)
  {
    FoundByte(text, pos, QUOTE);
  }

  /** What reading an escaped string must give. */
  function StringResult(sofar: Text, s: Text, next: nat, max: nat): ParsedText {
    if |sofar| + |s| <= max then GotText(sofar + s, next) else BadText
  }

  lemma ResultStep(r: ParsedText, r1: ParsedText, sofar: Text, s: Text, next: nat, max: nat)
    requires s != [] && |sofar| <= max
    requires r == if |sofar| < max then r1 else BadText
    requires |sofar| < max ==> r1 == StringResult(sofar + [s[0]], s[1..], next, max)
    ensures r == StringResult(sofar, s, next, max)
  {
    assert sofar + [s[0]] + s[1..] == sofar + s;
  }

  /** Of two pieces and a quote the first piece comes off. */
  lemma FirstPiece(text: Text, pos: nat, all: Text, first: Text, rest: Text, next: nat)
    requires all == first + rest && Found(text, pos, all + [QUOTE]) && next == pos + |first|
    ensures Found(text, pos, first) && Found(text, next, rest + [QUOTE])
  {
    assert all + [QUOTE] == first + (rest + [QUOTE]);
    FoundSplit(text, pos, first, rest + [QUOTE]);
  }

  lemma EscapeHead(text: Text, pos: nat, s: Text, first: Text, next: nat, end: nat)
    requires s != [] && first == EscapeByte(s[0]) && Found(text, pos, EscapeAll(s) + [QUOTE])
    requires next == pos + |first| && end == pos + |EscapeAll(s)| + 1
    ensures Found(text, pos, first)
    ensures Found(text, next, EscapeAll(s[1..]) + [QUOTE]) && end == next + |EscapeAll(s[1..])| + 1
  {
    FirstPiece(text, pos, EscapeAll(s), first, EscapeAll(s[1..]), next);
  }

  lemma {:induction false} StringDumped(text: Text, pos: nat, s: Text, sofar: Text, max: nat, end: nat)
    requires Found(text, pos, EscapeAll(s) + [QUOTE]) && |sofar| <= max && end == pos + |EscapeAll(s)| + 1
    ensures ParseString(text, pos, sofar, max) == StringResult(sofar, s, end, max)
    decreases |s|
  {
    if s == [] {
      assert EscapeAll(s) + [QUOTE] == [QUOTE];
      StringEnd(text, pos, sofar, max);
      assert sofar + s == sofar;
    } else {
      var next := pos + |EscapeByte(s[0])|;
      EscapeHead(text, pos, s, EscapeByte(s[0]), next, end);
      StringStep(text, pos, s[0], sofar, max, next);
      if |sofar| < max {
        StringDumped(text, next, s[1..], sofar + [s[0]], max, end);
      }
      ResultStep(ParseString(text, pos, sofar, max), ParseString(text, next, sofar + [s[0]], max), sofar, s, end, max);
    }
  }

  /** A quoted string at a place, read from its opening quote. */
  lemma QuotedDumped(text: Text, pos: nat, s: Text, max: nat)
    requires Found(text, pos, Escaped(s))
    ensures Here(text, pos, QUOTE)
    ensures ParseString(text, pos + 1, [], max)
         == if |s| <= max then GotText(s, pos + |Escaped(s)|) else BadText
  {
    assert Escaped(s) == [QUOTE] + (EscapeAll(s) + [QUOTE]);
    FoundSplit(text, pos, [QUOTE], EscapeAll(s) + [QUOTE]);
    FoundByte(text, pos, QUOTE);
    StringDumped(text, pos + 1, s, [], max, pos + |Escaped(s)|);
    assert [] + s == s;
  }

  // ---- Placing pieces ------------------------------------------------------------------------

  lemma SkipStays(text: Text, pos: nat, c: Byte)
    requires Here(text, pos, c) && !IsSpace(c)
    ensures Skip(text, pos) == pos
  {
  }

  /** A piece after its line break: where it begins and what follows it. */
  lemma Placed(text: Text, at: nat, indent: int, depth: nat, body: Text, tail: Text, begin: nat, p: nat)
    requires Found(text, at, Break(indent, depth) + (body + tail)) && body != [] && !IsSpace(body[0])
    requires begin == at + |Break(indent, depth)| && p == begin + |body|
    ensures Skip(text, at) == begin && Here(text, begin, body[0])
    ensures Found(text, begin, body) && Found(text, p, tail)
  {
    var gap := Break(indent, depth);
    FoundSplit(text, at, gap, body + tail);
    SkipBreak(text, at, indent, depth);
    FoundSplit(text, begin, body, tail);
    assert body[0] == text[begin + 0];
    SkipStays(text, begin, body[0]);
  }

  lemma ClosingPlaced(text: Text, at: nat, indent: int, depth: nat, c: Byte, end: nat)
    requires Found(text, at, Break(indent, depth) + [c]) && !IsSpace(c) && end == at + |Break(indent, depth)|
    ensures Skip(text, at) == end && Here(text, end, c)
  {
    assert [c] + [] == [c];
    Placed(text, at, indent, depth, [c], [], end, end + 1);
  }

  /** Bytes that may follow an entry. */
  predicate EndsEntry(c: Byte) {
    c == COMMA || c == NEWLINE || c == CLOSE_BRACKET || c == CLOSE_BRACE
  }

  lemma EntryEnds(text: Text, pos: nat, tail: Text)
    requires Found(text, pos, tail) && tail != [] && EndsEntry(tail[0])
    ensures NumberEnds(text, pos)
  {
    assert tail == [tail[0]] + tail[1..];
    FoundSplit(text, pos, [tail[0]], tail[1..]);
    FoundByte(text, pos, tail[0]);
  }

  lemma DumpStarts(v: Value, indent: int, depth: nat)
    ensures Dump(v, indent, depth) != []
    ensures var c := Dump(v, indent, depth)[0];
            !IsSpace(c) && c != CLOSE_BRACKET && c != CLOSE_BRACE
  {
    match v
    case Int(i) => DigitsFacts(if i < 0 then -i else i);
    case Uint(n) => DigitsFacts(n);
    case _ =>
  }

  // ---- Values -----------------------------------------------------------------------------------

  /** What parsing the printed form of v must give. */
  function Expected(v: Value, end: nat, nodes: nat, depth: nat, limits: Limits): Parsed {
    if Fits(v, depth, limits) && nodes + Nodes(v) <= limits.maxNodes
    then Got(Canon(v), end, nodes + Nodes(v)) else Fail
  }

  function ItemsExpected(items: seq<Value>, acc: seq<Value>, end: nat, nodes: nat, depth: nat, limits: Limits): Parsed {
    if && |acc| + |items| <= limits.maxEntries && ItemsFit(items, depth, limits)
       && nodes + ItemNodes(items) <= limits.maxNodes
    then Got(Arr(acc + CanonItems(items)), end, nodes + ItemNodes(items)) else Fail
  }

  /** The keys of the members read so far. */
  function KeysOf(members: seq<Member>): set<Text> {
    if members == [] then {} else KeysOf(members[..|members| - 1]) + {members[|members| - 1].key}
  }

  function MembersExpected(members: seq<Member>, acc: seq<Member>, seen: set<Text>, end: nat, nodes: nat, depth: nat,
                           limits: Limits): Parsed {
    if && |acc| + |members| <= limits.maxEntries && MembersFit(seen, members, depth, limits)
       && nodes + MemberNodes(members) <= limits.maxNodes
    then Got(Obj(acc + CanonMembers(members)), end, nodes + MemberNodes(members)) else Fail
  }

  predicate IsLeaf(v: Value) {
    !v.Arr? && !v.Obj?
  }

  lemma LiteralDumped(text: Text, pos: nat, literal: Text)
    requires Found(text, pos, literal) && literal != []
    ensures Here(text, pos, literal[0])
  {
    assert literal == [literal[0]] + literal[1..];
    FoundSplit(text, pos, [literal[0]], literal[1..]);
    FoundByte(text, pos, literal[0]);
  }

  lemma LeafParsed(text: Text, limits: Limits, pos: nat, v: Value, depth: nat, nodes: nat)
    requires IsLeaf(v) && InRange(v) && Found(text, pos, Dump(v, 0, 0)) && NumberEnds(text, pos + |Dump(v, 0, 0)|)
    ensures ParseValue(text, limits, pos, nodes, depth)
         == Expected(v, pos + |Dump(v, 0, 0)|, nodes, depth, limits)
  {
    match v
    case Null => LiteralDumped(text, pos, NULL_TEXT);
    case Bool(flag) => LiteralDumped(text, pos, if flag then TRUE_TEXT else FALSE_TEXT);
    case Int(i) =>
      if i < 0 {
        NegativeDumped(text, pos, i, nodes + 1);
      } else {
        UnsignedDumped(text, pos, i, nodes + 1);
      }
    case Uint(n) => UnsignedDumped(text, pos, n, nodes + 1);
    case Str(s) => QuotedDumped(text, pos, s, limits.maxString);
  }

  // ---- Arrays -------------------------------------------------------------------------------------

  /** A gap leads to a byte that is neither blank nor a closing bracket. */
  predicate GapTo(text: Text, at: nat, begin: nat) {
    && at <= |text| && Skip(text, at) == begin && begin < |text|
    && text[begin] != CLOSE_BRACKET && text[begin] != CLOSE_BRACE
  }

  predicate ClosesAt(text: Text, at: nat, end: nat, c: Byte) {
    at <= |text| && Skip(text, at) == end && Here(text, end, c)
  }

  /** A printed key and its separator, up to the value. */
  predicate KeyAt(text: Text, begin: nat, key: Text, q: nat) {
    var colon := begin + |Escaped(key)|;
    && Found(text, begin, Escaped(key))
    && colon <= |text| && Skip(text, colon) == colon && Here(text, colon, COLON) && Skip(text, colon + 1) == q
  }

  // The printed form standing in a text, piece by piece and whatever the layout.

  ghost predicate ValueAt(text: Text, pos: nat, v: Value, end: nat)
    decreases v, 0
  {
    match v
    case Arr(items) =>
      && Here(text, pos, OPEN_BRACKET)
      && if items == [] then end > 0 && ClosesAt(text, pos + 1, end - 1, CLOSE_BRACKET)
         else ItemsAt(text, pos + 1, items, end)
    case Obj(members) =>
      && Here(text, pos, OPEN_BRACE)
      && if members == [] then end > 0 && ClosesAt(text, pos + 1, end - 1, CLOSE_BRACE)
         else MembersAt(text, pos + 1, members, end)
    case _ => Found(text, pos, Dump(v, 0, 0)) && end == pos + |Dump(v, 0, 0)|
  }

  ghost predicate ItemsAt(text: Text, at: nat, items: seq<Value>, end: nat)
    requires items != []
    decreases items, 2
  {
    && at <= |text| && GapTo(text, at, Skip(text, at))
    && exists p :: ValueAt(text, Skip(text, at), items[0], p) && ItemsTail(text, p, items, end)
  }

  /** Behind the first item: the closing bracket, or a comma and the other items. */
  ghost predicate ItemsTail(text: Text, p: nat, items: seq<Value>, end: nat)
    requires items != []
    decreases items, 1
  {
    && NumberEnds(text, p)
    && if |items| == 1 then end > 0 && ClosesAt(text, p, end - 1, CLOSE_BRACKET)
       else ClosesAt(text, p, p, COMMA) && ItemsAt(text, p + 1, items[1..], end)
  }

  ghost predicate MembersAt(text: Text, at: nat, members: seq<Member>, end: nat)
    requires members != []
    decreases members, 2
  {
    && at <= |text| && GapTo(text, at, Skip(text, at))
    && exists q, p :: MemberAt(text, Skip(text, at), members[0], q, p) && MembersTail(text, p, members, end)
  }

  ghost predicate MemberAt(text: Text, begin: nat, m: Member, q: nat, p: nat)
    decreases m, 1
  {
    KeyAt(text, begin, m.key, q) && q <= |text| && ValueAt(text, q, m.value, p)
  }

  /** Behind the first member: the closing brace, or a comma and the other members. */
  ghost predicate MembersTail(text: Text, p: nat, members: seq<Member>, end: nat)
    requires members != []
    decreases members, 1
  {
    && NumberEnds(text, p)
    && if |members| == 1 then end > 0 && ClosesAt(text, p, end - 1, CLOSE_BRACE)
       else ClosesAt(text, p, p, COMMA) && MembersAt(text, p + 1, members[1..], end)
  }

  lemma ItemsCons(items: seq<Value>, acc: seq<Value>, end: nat, nodes: nat, depth: nat, limits: Limits)
    requires |items| > 1 && |acc| < limits.maxEntries && Fits(items[0], depth, limits)
    ensures ItemsExpected(items, acc, end, nodes, depth, limits)
         == ItemsExpected(items[1..], acc + [Canon(items[0])], end, nodes + Nodes(items[0]), depth, limits)
  {
    assert acc + [Canon(items[0])] + CanonItems(items[1..]) == acc + CanonItems(items);
  }

  lemma ItemsOne(items: seq<Value>, acc: seq<Value>, end: nat, nodes: nat, depth: nat, limits: Limits)
    requires |items| == 1 && |acc| < limits.maxEntries && Fits(items[0], depth, limits)
    requires nodes + Nodes(items[0]) <= limits.maxNodes
    ensures ItemsExpected(items, acc, end, nodes, depth, limits)
         == Got(Arr(acc + [Canon(items[0])]), end, nodes + Nodes(items[0]))
  {
    assert items[1..] == [];
    assert CanonItems(items) == [Canon(items[0])];
    assert ItemNodes(items) == Nodes(items[0]) + ItemNodes([]);
    assert ItemsFit([], depth, limits);
  }

  lemma ItemsFail(items: seq<Value>, acc: seq<Value>, end: nat, nodes: nat, depth: nat, limits: Limits)
    requires items != []
    requires |acc| >= limits.maxEntries || Expected(items[0], end, nodes, depth, limits).Fail?
    ensures ItemsExpected(items, acc, end, nodes, depth, limits).Fail?
  {
  }

  // One turn of the array loop, by its three ways out.

  lemma ItemParsed(text: Text, limits: Limits, pos: nat, nodes: nat, depth: nat, acc: seq<Value>, begin: nat, v: Parsed)
    requires pos <= |text| && Skip(text, pos) == begin && v == ParseValue(text, limits, begin, nodes, depth + 1)
    ensures ParseItem(text, limits, pos, nodes, depth, acc) == if |acc| >= limits.maxEntries then Fail else v
  {
  }

  lemma ItemsRefused(text: Text, limits: Limits, pos: nat, nodes: nat, depth: nat, acc: seq<Value>)
    requires pos <= |text| && ParseItem(text, limits, pos, nodes, depth, acc).Fail?
    ensures ParseItems(text, limits, pos, nodes, depth, acc) == Fail
  {
  }

  lemma ItemsLast(text: Text, limits: Limits, pos: nat, nodes: nat, depth: nat, acc: seq<Value>, v: Parsed, next: nat)
    requires pos <= |text| && v == ParseItem(text, limits, pos, nodes, depth, acc) && v.Got?
    requires next == Skip(text, v.pos) && Here(text, next, CLOSE_BRACKET)
    ensures ParseItems(text, limits, pos, nodes, depth, acc) == Got(Arr(acc + [v.value]), next + 1, v.nodes)
  {
  }

  lemma ItemsNext(text: Text, limits: Limits, pos: nat, nodes: nat, depth: nat, acc: seq<Value>, v: Parsed, next: nat)
    requires pos <= |text| && v == ParseItem(text, limits, pos, nodes, depth, acc) && v.Got?
    requires next == Skip(text, v.pos) && Here(text, next, COMMA)
    ensures ParseItems(text, limits, pos, nodes, depth, acc)
         == ParseItems(text, limits, next + 1, v.nodes, depth, acc + [v.value])
  {
  }

  // One turn of the array loop over a printed item: refused, last, or with more to come.

  lemma ItemRefusedTurn(text: Text, limits: Limits, pos: nat, nodes: nat, depth: nat, acc: seq<Value>,
                        items: seq<Value>, begin: nat, p: nat, end: nat, v: Parsed)
    requires items != [] && pos <= |text| && Skip(text, pos) == begin
    requires v == ParseValue(text, limits, begin, nodes, depth + 1)
    requires v == Expected(items[0], p, nodes, depth + 1, limits)
    requires |acc| >= limits.maxEntries || v.Fail?
    ensures ParseItems(text, limits, pos, nodes, depth, acc)
         == ItemsExpected(items, acc, end, nodes, depth + 1, limits)
  {
    ItemParsed(text, limits, pos, nodes, depth, acc, begin, v);
    ItemsFail(items, acc, end, nodes, depth + 1, limits);
    ItemsRefused(text, limits, pos, nodes, depth, acc);
  }

  lemma ItemLastTurn(text: Text, limits: Limits, pos: nat, nodes: nat, depth: nat, acc: seq<Value>, items: seq<Value>,
                     begin: nat, p: nat, end: nat, v: Parsed)
    requires |items| == 1 && pos <= |text| && Skip(text, pos) == begin
    requires v == ParseValue(text, limits, begin, nodes, depth + 1)
    requires v == Expected(items[0], p, nodes, depth + 1, limits)
    requires |acc| < limits.maxEntries && v.Got? && end > 0 && ClosesAt(text, p, end - 1, CLOSE_BRACKET)
    ensures ParseItems(text, limits, pos, nodes, depth, acc)
         == ItemsExpected(items, acc, end, nodes, depth + 1, limits)
  {
    ItemParsed(text, limits, pos, nodes, depth, acc, begin, v);
    ItemsOne(items, acc, end, nodes, depth + 1, limits);
    ItemsLast(text, limits, pos, nodes, depth, acc, v, end - 1);
  }

  lemma ItemNextTurn(text: Text, limits: Limits, pos: nat, nodes: nat, depth: nat, acc: seq<Value>, items: seq<Value>,
                     begin: nat, p: nat, end: nat, v: Parsed)
    requires |items| > 1 && pos <= |text| && Skip(text, pos) == begin
    requires v == ParseValue(text, limits, begin, nodes, depth + 1)
    requires v == Expected(items[0], p, nodes, depth + 1, limits)
    requires |acc| < limits.maxEntries && v.Got? && ClosesAt(text, p, p, COMMA)
    requires ParseItems(text, limits, p + 1, v.nodes, depth, acc + [v.value])
          == ItemsExpected(items[1..], acc + [v.value], end, v.nodes, depth + 1, limits)
    ensures ParseItems(text, limits, pos, nodes, depth, acc)
         == ItemsExpected(items, acc, end, nodes, depth + 1, limits)
  {
    ItemParsed(text, limits, pos, nodes, depth, acc, begin, v);
    ItemsCons(items, acc, end, nodes, depth + 1, limits);
    ItemsNext(text, limits, pos, nodes, depth, acc, v, p);
  }

  lemma {:induction false} ItemsParsed(text: Text, limits: Limits, pos: nat, items: seq<Value>, depth: nat, nodes: nat,
                                       acc: seq<Value>, end: nat)
    requires items != [] && ItemsInRange(items) && ItemsAt(text, pos, items, end)
    ensures ParseItems(text, limits, pos, nodes, depth, acc)
         == ItemsExpected(items, acc, end, nodes, depth + 1, limits)
    decreases items, 3
  {
    var begin := Skip(text, pos);
    var p :| ValueAt(text, begin, items[0], p) && ItemsTail(text, p, items, end);
    ValueParsed(text, limits, begin, items[0], depth + 1, nodes, p);
    ItemsTurn(text, limits, pos, items, depth, nodes, acc, begin, p, end,
              ParseValue(text, limits, begin, nodes, depth + 1));
  }

  lemma ItemsTurn(text: Text, limits: Limits, pos: nat, items: seq<Value>, depth: nat, nodes: nat, acc: seq<Value>,
                  begin: nat, p: nat, end: nat, v: Parsed)
    requires items != [] && ItemsInRange(items) && pos <= |text| && Skip(text, pos) == begin
    requires ItemsTail(text, p, items, end)
    requires v == ParseValue(text, limits, begin, nodes, depth + 1)
    requires v == Expected(items[0], p, nodes, depth + 1, limits)
    ensures ParseItems(text, limits, pos, nodes, depth, acc)
         == ItemsExpected(items, acc, end, nodes, depth + 1, limits)
    decreases items, 2
  {
    if |acc| >= limits.maxEntries || v.Fail? {
      ItemRefusedTurn(text, limits, pos, nodes, depth, acc, items, begin, p, end, v);
    } else if |items| == 1 {
      ItemLastTurn(text, limits, pos, nodes, depth, acc, items, begin, p, end, v);
    } else {
      ItemsParsed(text, limits, p + 1, items[1..], depth, v.nodes, acc + [v.value], end);
      ItemNextTurn(text, limits, pos, nodes, depth, acc, items, begin, p, end, v);
    }
  }

  lemma ArrayOpens(text: Text, limits: Limits, pos: nat, nodes: nat, depth: nat, next: nat)
    requires Here(text, pos, OPEN_BRACKET) && next == Skip(text, pos + 1)
    ensures ParseValue(text, limits, pos, nodes, depth)
         == if depth > limits.maxDepth || nodes + 1 > limits.maxNodes then Fail
            else if Here(text, next, CLOSE_BRACKET) then Got(Arr([]), next + 1, nodes + 1)
            else ParseItems(text, limits, next, nodes + 1, depth, [])
  {
  }

  lemma ArrayExpected(v: Value, end: nat, nodes: nat, depth: nat, limits: Limits)
    requires v.Arr?
    ensures Expected(v, end, nodes, depth, limits)
         == if depth > limits.maxDepth || nodes + 1 > limits.maxNodes then Fail
            else if v.items == [] then Got(v, end, nodes + 1)
            else ItemsExpected(v.items, [], end, nodes + 1, depth + 1, limits)
  {
    assert [] + CanonItems(v.items) == CanonItems(v.items);
    assert v.items == [] ==> CanonItems(v.items) == v.items;
    assert v.items == [] ==> ItemsFit(v.items, depth + 1, limits);
    assert v.items == [] ==> ItemNodes(v.items) == 0;
    assert Canon(v) == Arr(CanonItems(v.items)) && Nodes(v) == 1 + ItemNodes(v.items);
  }

  lemma SkipTwice(text: Text, pos: nat)
    requires pos <= |text|
    ensures Skip(text, Skip(text, pos)) == Skip(text, pos)
    decreases |text| - pos
  {
    if pos < |text| && IsSpace(text[pos]) {
      SkipTwice(text, pos + 1);
    }
  }

  /** Where the first entry begins does not depend on the blanks in front of it. */
  lemma ItemsFromGap(text: Text, at: nat, items: seq<Value>, end: nat)
    requires items != [] && ItemsAt(text, at, items, end)
    ensures ItemsAt(text, Skip(text, at), items, end)
  {
    SkipTwice(text, at);
  }

  lemma ArrayFilled(text: Text, limits: Limits, pos: nat, items: seq<Value>, depth: nat, nodes: nat, begin: nat,
                    end: nat, r: Parsed)
    requires items != [] && Here(text, pos, OPEN_BRACKET)
    requires Skip(text, pos + 1) == begin && !Here(text, begin, CLOSE_BRACKET)
    requires r == ParseItems(text, limits, begin, nodes + 1, depth, [])
    requires r == ItemsExpected(items, [], end, nodes + 1, depth + 1, limits)
    ensures ParseValue(text, limits, pos, nodes, depth) == Expected(Arr(items), end, nodes, depth, limits)
  {
    ArrayExpected(Arr(items), end, nodes, depth, limits);
    ArrayOpens(text, limits, pos, nodes, depth, begin);
  }

  lemma ArrayEmpty(text: Text, limits: Limits, pos: nat, depth: nat, nodes: nat, end: nat)
    requires Here(text, pos, OPEN_BRACKET) && end > 0 && ClosesAt(text, pos + 1, end - 1, CLOSE_BRACKET)
    ensures ParseValue(text, limits, pos, nodes, depth) == Expected(Arr([]), end, nodes, depth, limits)
  {
    ArrayExpected(Arr([]), end, nodes, depth, limits);
    ArrayOpens(text, limits, pos, nodes, depth, end - 1);
  }

  lemma ArrayParsed(text: Text, limits: Limits, pos: nat, items: seq<Value>, depth: nat, nodes: nat, end: nat)
    requires ItemsInRange(items) && ValueAt(text, pos, Arr(items), end)
    ensures ParseValue(text, limits, pos, nodes, depth) == Expected(Arr(items), end, nodes, depth, limits)
    decreases items, 4
  {
    if items == [] {
      ArrayEmpty(text, limits, pos, depth, nodes, end);
    } else {
      var begin := Skip(text, pos + 1);
      ItemsFromGap(text, pos + 1, items, end);
      ItemsParsed(text, limits, begin, items, depth, nodes + 1, [], end);
      ArrayFilled(text, limits, pos, items, depth, nodes, begin, end,
                  ParseItems(text, limits, begin, nodes + 1, depth, []));
    }
  }

  /** A text that shows a value is read as that value, within the limits. */
  lemma {:induction false} ValueParsed(text: Text, limits: Limits, pos: nat, v: Value, depth: nat, nodes: nat, end: nat)
    requires InRange(v) && pos <= |text| && ValueAt(text, pos, v, end) && NumberEnds(text, end)
    ensures ParseValue(text, limits, pos, nodes, depth) == Expected(v, end, nodes, depth, limits)
    decreases v, 2
  {
    match v
    case Arr(items) => ArrayParsed(text, limits, pos, items, depth, nodes, end);
    case Obj(members) => ObjectParsed(text, limits, pos, members, depth, nodes, end);
    case _ => LeafParsed(text, limits, pos, v, depth, nodes);
  }

  // ---- Objects ------------------------------------------------------------------------------------

  lemma KeysGrow(acc: seq<Member>, m: Member)
    ensures KeysOf(acc + [m]) == KeysOf(acc) + {m.key}
  {
    assert (acc + [m])[..|acc|] == acc;
  }

  lemma {:induction false} KeysAreSeen(members: seq<Member>, k: Text)
    ensures HasKey(members, k) <==> k in KeysOf(members)
  {
    if members != [] {
      var rest := members[..|members| - 1];
      KeysAreSeen(rest, k);
      assert forall i :: 0 <= i < |rest| ==> rest[i] == members[i];
      assert HasKey(members, k) <==> HasKey(rest, k) || members[|rest|].key == k;
    }
  }

  lemma MembersCons(members: seq<Member>, acc: seq<Member>, seen: set<Text>, m: Member, end: nat, nodes: nat,
                    depth: nat, limits: Limits)
    requires |members| > 1 && |acc| < limits.maxEntries && Fits(members[0].value, depth, limits)
    requires |members[0].key| <= limits.maxString && members[0].key !in seen
    requires m == Member(members[0].key, Canon(members[0].value))
    ensures MembersExpected(members, acc, seen, end, nodes, depth, limits)
         == MembersExpected(members[1..], acc + [m], seen + {m.key}, end, nodes + Nodes(members[0].value),
                            depth, limits)
  {
    assert acc + [m] + CanonMembers(members[1..]) == acc + CanonMembers(members);
  }

  lemma MembersOne(members: seq<Member>, acc: seq<Member>, seen: set<Text>, end: nat, nodes: nat, depth: nat,
                   limits: Limits)
    requires |members| == 1 && |acc| < limits.maxEntries && Fits(members[0].value, depth, limits)
    requires |members[0].key| <= limits.maxString && members[0].key !in seen
    requires nodes + Nodes(members[0].value) <= limits.maxNodes
    ensures MembersExpected(members, acc, seen, end, nodes, depth, limits)
         == Got(Obj(acc + [Member(members[0].key, Canon(members[0].value))]), end, nodes + Nodes(members[0].value))
  {
    assert members[1..] == [];
    assert CanonMembers(members) == [Member(members[0].key, Canon(members[0].value))];
    assert MemberNodes(members) == Nodes(members[0].value) + MemberNodes([]);
    assert MembersFit(seen + {members[0].key}, [], depth, limits);
  }

  predicate MemberRefused(m: Member, acc: seq<Member>, seen: set<Text>, v: Parsed, limits: Limits) {
    |acc| >= limits.maxEntries || |m.key| > limits.maxString || m.key in seen || v.Fail?
  }

  lemma MembersFail(members: seq<Member>, acc: seq<Member>, seen: set<Text>, end: nat, nodes: nat, depth: nat,
                    limits: Limits, v: Parsed, p: nat)
    requires members != [] && v == Expected(members[0].value, p, nodes, depth, limits)
    requires MemberRefused(members[0], acc, seen, v, limits)
    ensures MembersExpected(members, acc, seen, end, nodes, depth, limits).Fail?
  {
  }

  /** What reading one member must give. */
  function MemberExpected(m: Member, acc: seq<Member>, seen: set<Text>, v: Parsed, limits: Limits): ParsedMember {
    if MemberRefused(m, acc, seen, v, limits) then NoMember else GotMember(Member(m.key, v.value), v.pos, v.nodes)
  }

  lemma MemberParsed(text: Text, limits: Limits, pos: nat, nodes: nat, depth: nat, acc: seq<Member>, seen: set<Text>,
                     begin: nat, m: Member, colon: nat, q: nat, v: Parsed)
    requires pos <= |text| && Skip(text, pos) == begin && Here(text, begin, QUOTE)
    requires ParseString(text, begin + 1, [], limits.maxString)
          == if |m.key| <= limits.maxString then GotText(m.key, colon) else BadText
    requires colon <= |text| && Skip(text, colon) == colon && Here(text, colon, COLON) && Skip(text, colon + 1) == q
    requires v == ParseValue(text, limits, q, nodes, depth + 1)
    requires HasKey(acc, m.key) <==> m.key in seen
    ensures ParseMember(text, limits, pos, nodes, depth, acc) == MemberExpected(m, acc, seen, v, limits)
  {
  }

  lemma MembersRefused(text: Text, limits: Limits, pos: nat, nodes: nat, depth: nat, acc: seq<Member>)
    requires pos <= |text| && ParseMember(text, limits, pos, nodes, depth, acc).NoMember?
    ensures ParseMembers(text, limits, pos, nodes, depth, acc) == Fail
  {
  }

  lemma MembersLast(text: Text, limits: Limits, pos: nat, nodes: nat, depth: nat, acc: seq<Member>, m: ParsedMember,
                    next: nat)
    requires pos <= |text| && m == ParseMember(text, limits, pos, nodes, depth, acc) && m.GotMember?
    requires next == Skip(text, m.pos) && Here(text, next, CLOSE_BRACE)
    ensures ParseMembers(text, limits, pos, nodes, depth, acc) == Got(Obj(acc + [m.member]), next + 1, m.nodes)
  {
  }

  lemma MembersNext(text: Text, limits: Limits, pos: nat, nodes: nat, depth: nat, acc: seq<Member>, m: ParsedMember,
                    next: nat)
    requires pos <= |text| && m == ParseMember(text, limits, pos, nodes, depth, acc) && m.GotMember?
    requires next == Skip(text, m.pos) && Here(text, next, COMMA)
    ensures ParseMembers(text, limits, pos, nodes, depth, acc)
         == ParseMembers(text, limits, next + 1, m.nodes, depth, acc + [m.member])
  {
  }

  lemma KeyParsed(text: Text, limits: Limits, pos: nat, nodes: nat, depth: nat, acc: seq<Member>, seen: set<Text>,
                  begin: nat, m: Member, q: nat, v: Parsed)
    requires pos <= |text| && Skip(text, pos) == begin && KeyAt(text, begin, m.key, q)
    requires q <= |text| && v == ParseValue(text, limits, q, nodes, depth + 1)
    requires HasKey(acc, m.key) <==> m.key in seen
    ensures ParseMember(text, limits, pos, nodes, depth, acc) == MemberExpected(m, acc, seen, v, limits)
  {
    QuotedDumped(text, begin, m.key, limits.maxString);
    MemberParsed(text, limits, pos, nodes, depth, acc, seen, begin, m, begin + |Escaped(m.key)|, q, v);
  }

  lemma MemberGot(m: Member, acc: seq<Member>, seen: set<Text>, p: nat, nodes: nat, depth: nat, limits: Limits,
                  v: Parsed, read: ParsedMember)
    requires v == Expected(m.value, p, nodes, depth, limits) && read == MemberExpected(m, acc, seen, v, limits)
    ensures read.NoMember? <==> MemberRefused(m, acc, seen, v, limits)
    ensures read.GotMember? ==>
              && read == GotMember(Member(m.key, Canon(m.value)), p, nodes + Nodes(m.value))
              && |acc| < limits.maxEntries && |m.key| <= limits.maxString && m.key !in seen
              && Fits(m.value, depth, limits) && nodes + Nodes(m.value) <= limits.maxNodes
  {
  }

  /** The last member read is the last expected. */
  lemma TurnLast(acc: seq<Member>, seen: set<Text>, members: seq<Member>, nodes: nat, depth: nat, limits: Limits,
                 p: nat, end: nat, v: Parsed, read: ParsedMember)
    requires |members| == 1 && v == Expected(members[0].value, p, nodes, depth, limits)
    requires read == MemberExpected(members[0], acc, seen, v, limits) && read.GotMember?
    ensures read.pos == p
    ensures MembersExpected(members, acc, seen, end, nodes, depth, limits)
         == Got(Obj(acc + [read.member]), end, read.nodes)
  {
    MemberGot(members[0], acc, seen, p, nodes, depth, limits, v, read);
    MembersOne(members, acc, seen, end, nodes, depth, limits);
  }

  /** After a member read the rest is expected with that member taken in. */
  lemma TurnNext(acc: seq<Member>, seen: set<Text>, members: seq<Member>, nodes: nat, depth: nat, limits: Limits,
                 p: nat, end: nat, v: Parsed, read: ParsedMember)
    requires |members| > 1 && v == Expected(members[0].value, p, nodes, depth, limits)
    requires read == MemberExpected(members[0], acc, seen, v, limits) && read.GotMember?
    ensures read.pos == p
    ensures MembersExpected(members, acc, seen, end, nodes, depth, limits)
         == MembersExpected(members[1..], acc + [read.member], seen + {read.member.key}, end, read.nodes, depth, limits)
  {
    MemberGot(members[0], acc, seen, p, nodes, depth, limits, v, read);
    MembersCons(members, acc, seen, read.member, end, nodes, depth, limits);
  }

  lemma {:induction false} MembersParsed(text: Text, limits: Limits, pos: nat, members: seq<Member>, depth: nat,
                                         nodes: nat, acc: seq<Member>, seen: set<Text>, end: nat)
    requires members != [] && MembersInRange(members) && MembersAt(text, pos, members, end) && seen == KeysOf(acc)
    ensures ParseMembers(text, limits, pos, nodes, depth, acc)
         == MembersExpected(members, acc, seen, end, nodes, depth + 1, limits)
    decreases members, 3
  {
    var begin := Skip(text, pos);
    var q, p :| MemberAt(text, begin, members[0], q, p) && MembersTail(text, p, members, end);
    BodyParsed(text, limits, pos, members[0], depth, nodes, acc, seen, begin, q, p);
    MembersTurn(text, limits, pos, members, depth, nodes, acc, seen, p, end,
                Expected(members[0].value, p, nodes, depth + 1, limits),
                ParseMember(text, limits, pos, nodes, depth, acc));
  }

  lemma MembersTurn(text: Text, limits: Limits, pos: nat, members: seq<Member>, depth: nat, nodes: nat,
                    acc: seq<Member>, seen: set<Text>, p: nat, end: nat, v: Parsed, read: ParsedMember)
    requires members != [] && MembersInRange(members) && pos <= |text| && seen == KeysOf(acc)
    requires MembersTail(text, p, members, end)
    requires v == Expected(members[0].value, p, nodes, depth + 1, limits)
    requires read == ParseMember(text, limits, pos, nodes, depth, acc)
    requires read == MemberExpected(members[0], acc, seen, v, limits)
    ensures ParseMembers(text, limits, pos, nodes, depth, acc)
         == MembersExpected(members, acc, seen, end, nodes, depth + 1, limits)
    decreases members, 2
  {
    if read.NoMember? {
      MembersFail(members, acc, seen, end, nodes, depth + 1, limits, v, p);
      MembersRefused(text, limits, pos, nodes, depth, acc);
    } else if |members| == 1 {
      TurnLast(acc, seen, members, nodes, depth + 1, limits, p, end, v, read);
      MembersLast(text, limits, pos, nodes, depth, acc, read, end - 1);
    } else {
      TurnNext(acc, seen, members, nodes, depth + 1, limits, p, end, v, read);
      MembersNext(text, limits, pos, nodes, depth, acc, read, p);
      KeysGrow(acc, read.member);
      MembersParsed(text, limits, p + 1, members[1..], depth, read.nodes, acc + [read.member],
                    seen + {read.member.key}, end);
    }
  }

  /** What the parser makes of one printed member. */
  lemma BodyParsed(text: Text, limits: Limits, pos: nat, m: Member, depth: nat, nodes: nat,
                   acc: seq<Member>, seen: set<Text>, begin: nat, q: nat, p: nat)
    requires InRange(m.value) && pos <= |text| && Skip(text, pos) == begin && seen == KeysOf(acc)
    requires MemberAt(text, begin, m, q, p) && NumberEnds(text, p)
    ensures ParseMember(text, limits, pos, nodes, depth, acc)
         == MemberExpected(m, acc, seen, Expected(m.value, p, nodes, depth + 1, limits), limits)
    decreases m, 3
  {
    ValueParsed(text, limits, q, m.value, depth + 1, nodes, p);
    KeysAreSeen(acc, m.key);
    KeyParsed(text, limits, pos, nodes, depth, acc, seen, begin, m, q, Expected(m.value, p, nodes, depth + 1, limits));
  }

  lemma ObjectOpens(text: Text, limits: Limits, pos: nat, nodes: nat, depth: nat, next: nat)
    requires Here(text, pos, OPEN_BRACE) && next == Skip(text, pos + 1)
    ensures ParseValue(text, limits, pos, nodes, depth)
         == if depth > limits.maxDepth || nodes + 1 > limits.maxNodes then Fail
            else if Here(text, next, CLOSE_BRACE) then Got(Obj([]), next + 1, nodes + 1)
            else ParseMembers(text, limits, next, nodes + 1, depth, [])
  {
  }

  lemma ObjectExpected(v: Value, end: nat, nodes: nat, depth: nat, limits: Limits)
    requires v.Obj?
    ensures Expected(v, end, nodes, depth, limits)
         == if depth > limits.maxDepth || nodes + 1 > limits.maxNodes then Fail
            else if v.members == [] then Got(v, end, nodes + 1)
            else MembersExpected(v.members, [], {}, end, nodes + 1, depth + 1, limits)
  {
    assert [] + CanonMembers(v.members) == CanonMembers(v.members);
    var none: seq<Member> := [];
    assert |none| + |v.members| == |v.members|;
  }

  lemma MembersFromGap(text: Text, at: nat, members: seq<Member>, end: nat)
    requires members != [] && MembersAt(text, at, members, end)
    ensures MembersAt(text, Skip(text, at), members, end)
  {
    SkipTwice(text, at);
  }

  lemma ObjectFilled(text: Text, limits: Limits, pos: nat, members: seq<Member>, depth: nat, nodes: nat, begin: nat,
                     end: nat, r: Parsed)
    requires members != [] && Here(text, pos, OPEN_BRACE)
    requires Skip(text, pos + 1) == begin && !Here(text, begin, CLOSE_BRACE)
    requires r == ParseMembers(text, limits, begin, nodes + 1, depth, [])
    requires r == MembersExpected(members, [], {}, end, nodes + 1, depth + 1, limits)
    ensures ParseValue(text, limits, pos, nodes, depth) == Expected(Obj(members), end, nodes, depth, limits)
  {
    ObjectExpected(Obj(members), end, nodes, depth, limits);
    ObjectOpens(text, limits, pos, nodes, depth, begin);
  }

  lemma ObjectEmpty(text: Text, limits: Limits, pos: nat, depth: nat, nodes: nat, end: nat)
    requires Here(text, pos, OPEN_BRACE) && end > 0 && ClosesAt(text, pos + 1, end - 1, CLOSE_BRACE)
    ensures ParseValue(text, limits, pos, nodes, depth) == Expected(Obj([]), end, nodes, depth, limits)
  {
    ObjectExpected(Obj([]), end, nodes, depth, limits);
    ObjectOpens(text, limits, pos, nodes, depth, end - 1);
  }

  lemma ObjectParsed(text: Text, limits: Limits, pos: nat, members: seq<Member>, depth: nat, nodes: nat, end: nat)
    requires MembersInRange(members) && ValueAt(text, pos, Obj(members), end)
    ensures ParseValue(text, limits, pos, nodes, depth) == Expected(Obj(members), end, nodes, depth, limits)
    decreases members, 4
  {
    if members == [] {
      ObjectEmpty(text, limits, pos, depth, nodes, end);
    } else {
      var begin := Skip(text, pos + 1);
      MembersFromGap(text, pos + 1, members, end);
      MembersParsed(text, limits, begin, members, depth, nodes + 1, [], {}, end);
      ObjectFilled(text, limits, pos, members, depth, nodes, begin, end,
                  ParseMembers(text, limits, begin, nodes + 1, depth, []));
    }
  }

  // ---- The printer's layout --------------------------------------------------------------------------

  /** What follows the first item inside an array of the given depth. */
  function AfterItem(items: seq<Value>, indent: int, depth: nat): Text
    requires items != []
  {
    var close := Break(indent, depth) + [CLOSE_BRACKET];
    if |items| == 1 then close else [COMMA] + (DumpItems(items[1..], indent, depth + 1) + close)
  }

  lemma ItemsSplit(items: seq<Value>, indent: int, depth: nat)
    requires items != []
    ensures DumpItems(items, indent, depth + 1) + (Break(indent, depth) + [CLOSE_BRACKET])
         == Break(indent, depth + 1) + (Dump(items[0], indent, depth + 1) + AfterItem(items, indent, depth))
    ensures AfterItem(items, indent, depth) != [] && EndsEntry(AfterItem(items, indent, depth)[0])
  {
  }

  /** Where the first item stands, and what stands behind it. */
  lemma ItemPlaced(text: Text, at: nat, items: seq<Value>, indent: int, depth: nat, begin: nat, p: nat)
    requires items != []
    requires Found(text, at, DumpItems(items, indent, depth + 1) + (Break(indent, depth) + [CLOSE_BRACKET]))
    requires begin == at + |Break(indent, depth + 1)| && p == begin + |Dump(items[0], indent, depth + 1)|
    ensures GapTo(text, at, begin) && Found(text, begin, Dump(items[0], indent, depth + 1)) && NumberEnds(text, p)
    ensures Found(text, p, AfterItem(items, indent, depth))
  {
    var body := Dump(items[0], indent, depth + 1);
    var tail := AfterItem(items, indent, depth);
    ItemsSplit(items, indent, depth);
    DumpStarts(items[0], indent, depth + 1);
    Placed(text, at, indent, depth + 1, body, tail, begin, p);
    EntryEnds(text, p, tail);
  }

  /** Behind the last item the array closes. */
  lemma LastItemPlaced(text: Text, p: nat, items: seq<Value>, indent: int, depth: nat, end: nat)
    requires |items| == 1 && Found(text, p, AfterItem(items, indent, depth)) && end == p + |Break(indent, depth)|
    ensures ClosesAt(text, p, end, CLOSE_BRACKET)
  {
    ClosingPlaced(text, p, indent, depth, CLOSE_BRACKET, end);
  }

  /** Behind any other item comes a comma and the rest. */
  lemma NextItemPlaced(text: Text, p: nat, items: seq<Value>, indent: int, depth: nat)
    requires |items| > 1 && Found(text, p, AfterItem(items, indent, depth))
    ensures ClosesAt(text, p, p, COMMA)
    ensures Found(text, p + 1, DumpItems(items[1..], indent, depth + 1) + (Break(indent, depth) + [CLOSE_BRACKET]))
  {
    FoundSplit(text, p, [COMMA], DumpItems(items[1..], indent, depth + 1) + (Break(indent, depth) + [CLOSE_BRACKET]));
    FoundByte(text, p, COMMA);
    SkipStays(text, p, COMMA);
  }

  lemma ItemsEnd(items: seq<Value>, indent: int, depth: nat, at: nat, begin: nat, p: nat, end: nat)
    requires items != [] && begin == at + |Break(indent, depth + 1)| && p == begin + |Dump(items[0], indent, depth + 1)|
    requires end == at + |DumpItems(items, indent, depth + 1)| + |Break(indent, depth)| + 1
    ensures |items| == 1 ==> end == p + |Break(indent, depth)| + 1
    ensures |items| > 1 ==> end == p + 1 + |DumpItems(items[1..], indent, depth + 1)| + |Break(indent, depth)| + 1
  {
  }

  lemma ArrayText(items: seq<Value>, indent: int, depth: nat)
    requires items != []
    ensures Dump(Arr(items), indent, depth)
         == [OPEN_BRACKET] + (DumpItems(items, indent, depth + 1) + (Break(indent, depth) + [CLOSE_BRACKET]))
  {
  }

  lemma EmptyPlaced(text: Text, pos: nat, open: Byte, close: Byte)
    requires Found(text, pos, [open, close]) && !IsSpace(close)
    ensures Here(text, pos, open) && ClosesAt(text, pos + 1, pos + 1, close)
  {
    assert [open, close][0] == open && [open, close][1] == close;
    SkipStays(text, pos + 1, close);
  }

  lemma {:induction false} ItemsPlaced(text: Text, at: nat, items: seq<Value>, indent: int, depth: nat, end: nat)
    requires items != []
    requires Found(text, at, DumpItems(items, indent, depth + 1) + (Break(indent, depth) + [CLOSE_BRACKET]))
    requires end == at + |DumpItems(items, indent, depth + 1)| + |Break(indent, depth)| + 1
    ensures ItemsAt(text, at, items, end)
    decreases items, 3
  {
    var begin := at + |Break(indent, depth + 1)|;
    var p := begin + |Dump(items[0], indent, depth + 1)|;
    ItemPlaced(text, at, items, indent, depth, begin, p);
    ItemsEnd(items, indent, depth, at, begin, p, end);
    ValuePlaced(text, begin, items[0], indent, depth + 1, p);
    ItemsRest(text, items, indent, depth, p, end);
  }

  lemma ItemsRest(text: Text, items: seq<Value>, indent: int, depth: nat, p: nat, end: nat)
    requires items != [] && NumberEnds(text, p) && Found(text, p, AfterItem(items, indent, depth))
    requires |items| == 1 ==> end == p + |Break(indent, depth)| + 1
    requires |items| > 1 ==> end == p + 1 + |DumpItems(items[1..], indent, depth + 1)| + |Break(indent, depth)| + 1
    ensures ItemsTail(text, p, items, end)
    decreases items, 2
  {
    if |items| == 1 {
      LastItemPlaced(text, p, items, indent, depth, end - 1);
    } else {
      NextItemPlaced(text, p, items, indent, depth);
      ItemsPlaced(text, p + 1, items[1..], indent, depth, end);
    }
  }

  lemma ArrayPlaced(text: Text, pos: nat, items: seq<Value>, indent: int, depth: nat, end: nat)
    requires Found(text, pos, Dump(Arr(items), indent, depth)) && end == pos + |Dump(Arr(items), indent, depth)|
    ensures ValueAt(text, pos, Arr(items), end)
    decreases items, 4
  {
    if items == [] {
      EmptyPlaced(text, pos, OPEN_BRACKET, CLOSE_BRACKET);
    } else {
      ArrayText(items, indent, depth);
      FoundSplit(text, pos, [OPEN_BRACKET],
                 DumpItems(items, indent, depth + 1) + (Break(indent, depth) + [CLOSE_BRACKET]));
      FoundByte(text, pos, OPEN_BRACKET);
      ItemsPlaced(text, pos + 1, items, indent, depth, end);
    }
  }

  lemma {:induction false} ValuePlaced(text: Text, pos: nat, v: Value, indent: int, depth: nat, end: nat)
    requires Found(text, pos, Dump(v, indent, depth)) && end == pos + |Dump(v, indent, depth)|
    ensures ValueAt(text, pos, v, end)
    decreases v, 2
  {
    match v
    case Arr(items) => ArrayPlaced(text, pos, items, indent, depth, end);
    case Obj(members) => ObjectPlaced(text, pos, members, indent, depth, end);
    case _ =>
  }

  function AfterMember(members: seq<Member>, indent: int, depth: nat): Text
    requires members != []
  {
    var close := Break(indent, depth) + [CLOSE_BRACE];
    if |members| == 1 then close else [COMMA] + (DumpMembers(members[1..], indent, depth + 1) + close)
  }

  /** A printed member behind its line break. */
  function MemberBody(m: Member, indent: int, depth: nat): Text {
    Escaped(m.key) + (Separator(indent) + Dump(m.value, indent, depth))
  }

  lemma MembersSplit(members: seq<Member>, indent: int, depth: nat)
    requires members != []
    ensures DumpMembers(members, indent, depth + 1) + (Break(indent, depth) + [CLOSE_BRACE])
         == Break(indent, depth + 1) + (MemberBody(members[0], indent, depth + 1) + AfterMember(members, indent, depth))
    ensures AfterMember(members, indent, depth) != [] && EndsEntry(AfterMember(members, indent, depth)[0])
    ensures MemberBody(members[0], indent, depth + 1) != [] && MemberBody(members[0], indent, depth + 1)[0] == QUOTE
  {
  }

  /** The separator and what stands behind it. */
  lemma SeparatorPlaced(text: Text, pos: nat, indent: int, body: Text, q: nat)
    requires Found(text, pos, Separator(indent) + body) && body != [] && !IsSpace(body[0])
    requires q == pos + |Separator(indent)|
    ensures Skip(text, pos) == pos && Here(text, pos, COLON) && Skip(text, pos + 1) == q
    ensures Found(text, q, body)
  {
    FoundSplit(text, pos, Separator(indent), body);
    LiteralDumped(text, pos, Separator(indent));
    LiteralDumped(text, q, body);
    SkipStays(text, pos, COLON);
    SkipStays(text, q, body[0]);
    if indent > 0 {
      assert Separator(indent)[1] == SPACE;
    }
  }

  /** Where the key, the separator and the value of a member body stand. */
  lemma BodyPlaced(text: Text, begin: nat, m: Member, indent: int, depth: nat, q: nat)
    requires Found(text, begin, MemberBody(m, indent, depth)) && q == begin + |Escaped(m.key)| + |Separator(indent)|
    ensures KeyAt(text, begin, m.key, q) && Found(text, q, Dump(m.value, indent, depth))
    ensures begin + |MemberBody(m, indent, depth)| == q + |Dump(m.value, indent, depth)|
  {
    var value := Dump(m.value, indent, depth);
    FoundSplit(text, begin, Escaped(m.key), Separator(indent) + value);
    DumpStarts(m.value, indent, depth);
    SeparatorPlaced(text, begin + |Escaped(m.key)|, indent, value, q);
  }

  /** Where the first member stands, and what stands behind it. */
  lemma MemberPlaced(text: Text, at: nat, members: seq<Member>, indent: int, depth: nat, begin: nat, p: nat)
    requires members != []
    requires Found(text, at, DumpMembers(members, indent, depth + 1) + (Break(indent, depth) + [CLOSE_BRACE]))
    requires begin == at + |Break(indent, depth + 1)| && p == begin + |MemberBody(members[0], indent, depth + 1)|
    ensures GapTo(text, at, begin) && Found(text, begin, MemberBody(members[0], indent, depth + 1))
    ensures NumberEnds(text, p) && Found(text, p, AfterMember(members, indent, depth))
  {
    var body := MemberBody(members[0], indent, depth + 1);
    var tail := AfterMember(members, indent, depth);
    MembersSplit(members, indent, depth);
    Placed(text, at, indent, depth + 1, body, tail, begin, p);
    EntryEnds(text, p, tail);
  }

  lemma LastMemberPlaced(text: Text, p: nat, members: seq<Member>, indent: int, depth: nat, end: nat)
    requires |members| == 1 && Found(text, p, AfterMember(members, indent, depth)) && end == p + |Break(indent, depth)|
    ensures ClosesAt(text, p, end, CLOSE_BRACE)
  {
    ClosingPlaced(text, p, indent, depth, CLOSE_BRACE, end);
  }

  lemma NextMemberPlaced(text: Text, p: nat, members: seq<Member>, indent: int, depth: nat)
    requires |members| > 1 && Found(text, p, AfterMember(members, indent, depth))
    ensures ClosesAt(text, p, p, COMMA)
    ensures Found(text, p + 1, DumpMembers(members[1..], indent, depth + 1) + (Break(indent, depth) + [CLOSE_BRACE]))
  {
    FoundSplit(text, p, [COMMA], DumpMembers(members[1..], indent, depth + 1) + (Break(indent, depth) + [CLOSE_BRACE]));
    FoundByte(text, p, COMMA);
    SkipStays(text, p, COMMA);
  }

  lemma MembersEnd(members: seq<Member>, indent: int, depth: nat, at: nat, begin: nat, p: nat, end: nat)
    requires members != [] && begin == at + |Break(indent, depth + 1)|
    requires p == begin + |MemberBody(members[0], indent, depth + 1)|
    requires end == at + |DumpMembers(members, indent, depth + 1)| + |Break(indent, depth)| + 1
    ensures |members| == 1 ==> end == p + |Break(indent, depth)| + 1
    ensures |members| > 1 ==> end == p + 1 + |DumpMembers(members[1..], indent, depth + 1)| + |Break(indent, depth)| + 1
  {
  }

  lemma ObjectText(members: seq<Member>, indent: int, depth: nat)
    requires members != []
    ensures Dump(Obj(members), indent, depth)
         == [OPEN_BRACE] + (DumpMembers(members, indent, depth + 1) + (Break(indent, depth) + [CLOSE_BRACE]))
  {
  }

  lemma {:induction false} MembersPlaced(text: Text, at: nat, members: seq<Member>, indent: int, depth: nat, end: nat)
    requires members != []
    requires Found(text, at, DumpMembers(members, indent, depth + 1) + (Break(indent, depth) + [CLOSE_BRACE]))
    requires end == at + |DumpMembers(members, indent, depth + 1)| + |Break(indent, depth)| + 1
    ensures MembersAt(text, at, members, end)
    decreases members, 3
  {
    var begin := at + |Break(indent, depth + 1)|;
    var p := begin + |MemberBody(members[0], indent, depth + 1)|;
    var q := begin + |Escaped(members[0].key)| + |Separator(indent)|;
    MemberPlaced(text, at, members, indent, depth, begin, p);
    MembersEnd(members, indent, depth, at, begin, p, end);
    OneMemberPlaced(text, begin, members[0], indent, depth + 1, q, p);
    MembersRest(text, members, indent, depth, p, end);
  }

  lemma OneMemberPlaced(text: Text, begin: nat, m: Member, indent: int, depth: nat, q: nat, p: nat)
    requires Found(text, begin, MemberBody(m, indent, depth)) && p == begin + |MemberBody(m, indent, depth)|
    requires q == begin + |Escaped(m.key)| + |Separator(indent)|
    ensures MemberAt(text, begin, m, q, p)
    decreases m, 3
  {
    BodyPlaced(text, begin, m, indent, depth, q);
    ValuePlaced(text, q, m.value, indent, depth, p);
  }

  lemma MembersRest(text: Text, members: seq<Member>, indent: int, depth: nat, p: nat, end: nat)
    requires members != [] && NumberEnds(text, p) && Found(text, p, AfterMember(members, indent, depth))
    requires |members| == 1 ==> end == p + |Break(indent, depth)| + 1
    requires |members| > 1 ==>
               end == p + 1 + |DumpMembers(members[1..], indent, depth + 1)| + |Break(indent, depth)| + 1
    ensures MembersTail(text, p, members, end)
    decreases members, 2
  {
    if |members| == 1 {
      LastMemberPlaced(text, p, members, indent, depth, end - 1);
    } else {
      NextMemberPlaced(text, p, members, indent, depth);
      MembersPlaced(text, p + 1, members[1..], indent, depth, end);
    }
  }

  lemma ObjectPlaced(text: Text, pos: nat, members: seq<Member>, indent: int, depth: nat, end: nat)
    requires Found(text, pos, Dump(Obj(members), indent, depth)) && end == pos + |Dump(Obj(members), indent, depth)|
    ensures ValueAt(text, pos, Obj(members), end)
    decreases members, 4
  {
    if members == [] {
      EmptyPlaced(text, pos, OPEN_BRACE, CLOSE_BRACE);
    } else {
      ObjectText(members, indent, depth);
      FoundSplit(text, pos, [OPEN_BRACE],
                 DumpMembers(members, indent, depth + 1) + (Break(indent, depth) + [CLOSE_BRACE]));
      FoundByte(text, pos, OPEN_BRACE);
      MembersPlaced(text, pos + 1, members, indent, depth, end);
    }
  }

  // ---- The theorems --------------------------------------------------------------------------------

  /** Parsing the compact or indented dump of a value succeeds exactly when the
      value is within the limits, and gives it back with non-negative integers
      unsigned. */
  lemma RoundTrip(v: Value, indent: int, limits: Limits)
    requires InRange(v)
    ensures Parse(Dump(v, indent, 0), limits)
         == if Fits(v, 0, limits) && Nodes(v) <= limits.maxNodes && |Dump(v, indent, 0)| <= limits.maxTotal
            then Some(Canon(v)) else None
  {
    var text := Dump(v, indent, 0);
    DumpStarts(v, indent, 0);
    SliceFound(text, 0, text);
    ValuePlaced(text, 0, v, indent, 0, |text|);
    ValueParsed(text, limits, 0, v, 0, 0, |text|);
    SkipStays(text, 0, text[0]);
  }

  lemma {:induction false} CanonDumps(v: Value, indent: int, depth: nat)
    ensures Dump(Canon(v), indent, depth) == Dump(v, indent, depth)
    decreases v, 0
  {
    match v
    case Arr(items) => CanonItemsDump(items, indent, depth + 1);
    case Obj(members) => CanonMembersDump(members, indent, depth + 1);
    case _ =>
  }

  lemma {:induction false} CanonItemsDump(items: seq<Value>, indent: int, depth: nat)
    ensures |CanonItems(items)| == |items|
    ensures DumpItems(CanonItems(items), indent, depth) == DumpItems(items, indent, depth)
    decreases items, 1
  {
    if items != [] {
      CanonDumps(items[0], indent, depth);
      CanonItemsDump(items[1..], indent, depth);
      assert CanonItems(items)[1..] == CanonItems(items[1..]);
    }
  }

  lemma {:induction false} CanonMembersDump(members: seq<Member>, indent: int, depth: nat)
    ensures |CanonMembers(members)| == |members|
    ensures DumpMembers(CanonMembers(members), indent, depth) == DumpMembers(members, indent, depth)
    decreases members, 1
  {
    if members != [] {
      CanonDumps(members[0].value, indent, depth);
      CanonMembersDump(members[1..], indent, depth);
      assert CanonMembers(members)[1..] == CanonMembers(members[1..]);
    }
  }

  /** Printing what was parsed from a dump gives the same bytes again. */
  lemma DumpParseDump(v: Value, indent: int, limits: Limits)
    requires InRange(v) && Parse(Dump(v, indent, 0), limits).Some?
    ensures Dump(Parse(Dump(v, indent, 0), limits).value, indent, 0) == Dump(v, indent, 0)
  {
    RoundTrip(v, indent, limits);
    CanonDumps(v, indent, 0);
  }
}
