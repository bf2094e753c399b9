/** The language the parser reads: a text is accepted, as a value, exactly when it is a JSON
    text of that value between blanks and within the limits. */
module JsonLanguage {
  import opened Identity
  import opened Crc32c
  import opened Json
  import opened JsonRoundTrip
  import opened JsonGrammar

  // ---- The grammar --------------------------------------------------------------------------

  /** Space, tab, line feed, carriage return. */
  const BLANKS: set<Byte> := {32, 9, 10, 13}

  predicate AllBlank(s: Text) {
    forall k :: 0 <= k < |s| ==> s[k] in BLANKS
  }

  predicate Blank(text: Text, a: nat, b: nat) {
    a <= b <= |text| && AllBlank(text[a..b])
  }

  ghost predicate Quoted(text: Text, pos: nat, end: nat, s: Text) {
    && pos + 2 <= end <= |text| && text[pos] == QUOTE && text[end - 1] == QUOTE
    && Spells(text[pos + 1..end - 1], s)
  }

  /** The text from pos to end is a JSON text of the value. */
  ghost predicate Shows(text: Text, pos: nat, end: nat, v: Value)
    decreases v, 0
  {
    && pos < end <= |text|
    && match v
       case Null => text[pos..end] == NULL_TEXT
       case Bool(flag) => text[pos..end] == if flag then TRUE_TEXT else FALSE_TEXT
       case Int(_) => IsNumeral(text[pos..end], v)
       case Uint(_) => IsNumeral(text[pos..end], v)
       case Str(s) => Quoted(text, pos, end, s)
       case Arr(items) =>
         && text[pos] == OPEN_BRACKET && pos + 2 <= end && text[end - 1] == CLOSE_BRACKET
         && if items == [] then Blank(text, pos + 1, end - 1) else ShowsItems(text, pos + 1, end - 1, items)
       case Obj(members) =>
         && text[pos] == OPEN_BRACE && pos + 2 <= end && text[end - 1] == CLOSE_BRACE
         && if members == [] then Blank(text, pos + 1, end - 1) else ShowsMembers(text, pos + 1, end - 1, members)
  }

  /** Items, separated by commas, with blanks around each. */
  ghost predicate ShowsItems(text: Text, at: nat, end: nat, items: seq<Value>)
    requires items != []
    decreases items, 2
  {
    exists b: nat, p: nat, q: nat :: FirstItem(text, at, end, items, b, p, q)
  }

  ghost predicate FirstItem(text: Text, at: nat, end: nat, items: seq<Value>, b: nat, p: nat, q: nat)
    requires items != []
    decreases items, 1
  {
    && Blank(text, at, b) && Shows(text, b, p, items[0]) && Blank(text, p, q) && q <= end
    && if |items| == 1 then q == end
       else Here(text, q, COMMA) && q < end && ShowsItems(text, q + 1, end, items[1..])
  }

  /** Where the parts of a member begin and end: its key, the colon, its value. */
  datatype Cuts = Cuts(key: nat, keyEnd: nat, colon: nat, value: nat, valueEnd: nat, next: nat)

  ghost predicate ShowsMembers(text: Text, at: nat, end: nat, members: seq<Member>)
    requires members != []
    decreases members, 2
  {
    exists c: Cuts :: FirstMember(text, at, end, members, c)
  }

  ghost predicate FirstMember(text: Text, at: nat, end: nat, members: seq<Member>, c: Cuts)
    requires members != []
    decreases members, 1
  {
    && Blank(text, at, c.key) && Quoted(text, c.key, c.keyEnd, members[0].key)
    && Blank(text, c.keyEnd, c.colon) && Here(text, c.colon, COLON) && Blank(text, c.colon + 1, c.value)
    && Shows(text, c.value, c.valueEnd, members[0].value) && Blank(text, c.valueEnd, c.next) && c.next <= end
    && if |members| == 1 then c.next == end
       else Here(text, c.next, COMMA) && c.next < end && ShowsMembers(text, c.next + 1, end, members[1..])
  }

  // ---- Blanks ---------------------------------------------------------------------------------

  lemma {:induction false} SkipBlank(text: Text, a: nat)
    requires a <= |text|
    ensures Blank(text, a, Skip(text, a))
    ensures Skip(text, a) < |text| ==> text[Skip(text, a)] !in BLANKS
    decreases |text| - a
  {
    if a < |text| && IsSpace(text[a]) {
      SkipBlank(text, a + 1);
      assert text[a..Skip(text, a)] == [text[a]] + text[a + 1..Skip(text, a)];
    }
  }

  lemma {:induction false} SkipIs(text: Text, a: nat, b: nat)
    requires Blank(text, a, b) && (b < |text| ==> text[b] !in BLANKS)
    ensures Skip(text, a) == b
    decreases b - a
  {
    if a < b {
      var s := text[a..b];
      assert text[a] == s[0];
      assert text[a + 1..b] == s[1..];
      SkipIs(text, a + 1, b);
    }
  }

  /** A value begins with no blank, and ends no number early. */
  lemma {:induction false} ShowsBegins(text: Text, pos: nat, end: nat, v: Value)
    requires Shows(text, pos, end, v)
    ensures text[pos] !in BLANKS && text[pos] != CLOSE_BRACKET && text[pos] != CLOSE_BRACE
  {
    var s := text[pos..end];
    assert s[0] == text[pos];
    match v
    case Uint(n) => DigitsFacts(n);
    case Bool(flag) => assert s == TRUE_TEXT || s == FALSE_TEXT;
    case _ =>
  }

  lemma {:induction false} ShowsSpan(text: Text, pos: nat, end: nat, v: Value)
    requires Shows(text, pos, end, v)
    ensures pos < end <= |text|
  {
  }

  lemma {:induction false} ItemParts(text: Text, at: nat, end: nat, items: seq<Value>) returns (b: nat, p: nat,
                                     q: nat)
    requires items != [] && ShowsItems(text, at, end, items)
    ensures Blank(text, at, b) && Shows(text, b, p, items[0]) && Blank(text, p, q) && b < p && q <= end
    ensures |items| == 1 ==> q == end
    ensures |items| > 1 ==> Here(text, q, COMMA) && q < end && ShowsItems(text, q + 1, end, items[1..])
  {
    var x: nat, y: nat, z: nat :| FirstItem(text, at, end, items, x, y, z);
    b, p, q := x, y, z;
    ShowsSpan(text, b, p, items[0]);
  }

  lemma {:induction false} MemberParts(text: Text, at: nat, end: nat, members: seq<Member>) returns (c: Cuts)
    requires members != [] && ShowsMembers(text, at, end, members)
    ensures Blank(text, at, c.key) && Quoted(text, c.key, c.keyEnd, members[0].key)
    ensures Blank(text, c.keyEnd, c.colon) && Here(text, c.colon, COLON) && Blank(text, c.colon + 1, c.value)
    ensures Shows(text, c.value, c.valueEnd, members[0].value) && c.value < c.valueEnd
    ensures Blank(text, c.valueEnd, c.next) && c.next <= end
    ensures |members| == 1 ==> c.next == end
    ensures |members| > 1 ==>
              Here(text, c.next, COMMA) && c.next < end && ShowsMembers(text, c.next + 1, end, members[1..])
  {
    var x: Cuts :| FirstMember(text, at, end, members, x);
    c := x;
    ShowsSpan(text, c.value, c.valueEnd, members[0].value);
  }

  // ---- What is accepted is in the language ----------------------------------------------------------

  /** A value read: its text, and what it costs. */
  ghost predicate Reads(text: Text, limits: Limits, pos: nat, nodes: nat, depth: nat, v: Value, end: nat, n: nat) {
    && Shows(text, pos, end, v) && (v.Int? || v.Uint? ==> NumberEnds(text, end))
    && Fits(v, depth, limits) && n == nodes + Nodes(v) && n <= limits.maxNodes
  }

  lemma {:induction false} LeafSound(text: Text, limits: Limits, pos: nat, nodes: nat, depth: nat, v: Value,
                                     end: nat, n: nat)
    requires pos < |text| && text[pos] != OPEN_BRACE && text[pos] != OPEN_BRACKET
    requires ParseValue(text, limits, pos, nodes, depth) == Got(v, end, n)
    ensures Reads(text, limits, pos, nodes, depth, v, end, n)
  {
    if text[pos] == QUOTE {
      StringIff(text, pos + 1, limits.maxString, v.text, end);
    } else if text[pos] == 116 {
      FoundSlice(text, pos, TRUE_TEXT);
    } else if text[pos] == 102 {
      FoundSlice(text, pos, FALSE_TEXT);
    } else if text[pos] == 110 {
      FoundSlice(text, pos, NULL_TEXT);
    } else {
      NumberSound(text, pos, nodes + 1, v, end);
    }
  }

  lemma {:induction false} ValueSound(text: Text, limits: Limits, pos: nat, nodes: nat, depth: nat, v: Value,
                                      end: nat, n: nat)
    requires pos <= |text| && ParseValue(text, limits, pos, nodes, depth) == Got(v, end, n)
    ensures Reads(text, limits, pos, nodes, depth, v, end, n)
    decreases |text| - pos, 0
  {
    if text[pos] == OPEN_BRACKET {
      ArraySound(text, limits, pos, nodes, depth, v, end, n);
    } else if text[pos] == OPEN_BRACE {
      ObjectSound(text, limits, pos, nodes, depth, v, end, n);
    } else {
      LeafSound(text, limits, pos, nodes, depth, v, end, n);
    }
  }

  lemma {:induction false} ArraySound(text: Text, limits: Limits, pos: nat, nodes: nat, depth: nat, v: Value,
                                      end: nat, n: nat)
    requires Here(text, pos, OPEN_BRACKET) && ParseValue(text, limits, pos, nodes, depth) == Got(v, end, n)
    ensures Reads(text, limits, pos, nodes, depth, v, end, n)
    decreases |text| - pos - 1, 4
  {
    var next := Skip(text, pos + 1);
    ArrayOpens(text, limits, pos, nodes, depth, next);
    SkipBlank(text, pos + 1);
    if !Here(text, next, CLOSE_BRACKET) {
      ItemsSound(text, limits, next, nodes + 1, depth, [], v, end, n);
      ArrayRead(text, limits, pos, next, nodes, depth, v, end, n);
    }
  }

  lemma {:induction false} ObjectSound(text: Text, limits: Limits, pos: nat, nodes: nat, depth: nat, v: Value,
                                       end: nat, n: nat)
    requires Here(text, pos, OPEN_BRACE) && ParseValue(text, limits, pos, nodes, depth) == Got(v, end, n)
    ensures Reads(text, limits, pos, nodes, depth, v, end, n)
    decreases |text| - pos - 1, 4
  {
    var next := Skip(text, pos + 1);
    ObjectOpens(text, limits, pos, nodes, depth, next);
    SkipBlank(text, pos + 1);
    if !Here(text, next, CLOSE_BRACE) {
      MembersSound(text, limits, next, nodes + 1, depth, [], {}, v, end, n);
      ObjectRead(text, limits, pos, next, nodes, depth, v, end, n);
    }
  }

  /** The rest of an array: what was read before, and the items that follow. */
  ghost predicate ReadsItems(text: Text, limits: Limits, pos: nat, nodes: nat, depth: nat, acc: seq<Value>, v: Value,
                             end: nat, n: nat) {
    && v.Arr? && |acc| < |v.items| <= limits.maxEntries && v.items[..|acc|] == acc
    && 0 < end <= |text| && text[end - 1] == CLOSE_BRACKET && ShowsItems(text, pos, end - 1, v.items[|acc|..])
    && ItemsFit(v.items[|acc|..], depth + 1, limits)
    && n == nodes + ItemNodes(v.items[|acc|..]) && n <= limits.maxNodes
  }

  lemma {:induction false} MoreBlanks(text: Text, at: nat, from: nat, end: nat, items: seq<Value>)
    requires items != [] && Blank(text, at, from) && ShowsItems(text, from, end, items)
    ensures ShowsItems(text, at, end, items)
  {
    var b: nat, p: nat, q: nat :| FirstItem(text, from, end, items, b, p, q);
    assert text[at..b] == text[at..from] + text[from..b];
    assert FirstItem(text, at, end, items, b, p, q);
  }

  lemma {:induction false} ArrayRead(text: Text, limits: Limits, pos: nat, next: nat, nodes: nat, depth: nat,
                                     v: Value, end: nat, n: nat)
    requires Here(text, pos, OPEN_BRACKET) && Blank(text, pos + 1, next) && depth <= limits.maxDepth
    requires ReadsItems(text, limits, next, nodes + 1, depth, [], v, end, n)
    ensures Reads(text, limits, pos, nodes, depth, v, end, n)
  {
    assert v.items[0..] == v.items;
    MoreBlanks(text, pos + 1, next, end - 1, v.items);
    ItemsSpan(text, pos + 1, end - 1, v.items);
  }

  lemma {:induction false} ItemsSpan(text: Text, at: nat, end: nat, items: seq<Value>)
    requires items != [] && ShowsItems(text, at, end, items)
    ensures at < end
  {
    var b, p, q := ItemParts(text, at, end, items);
  }

  lemma {:induction false} ItemsSound(text: Text, limits: Limits, pos: nat, nodes: nat, depth: nat, acc: seq<Value>,
                                      v: Value, end: nat, n: nat)
    requires pos <= |text| && ParseItems(text, limits, pos, nodes, depth, acc) == Got(v, end, n)
    ensures ReadsItems(text, limits, pos, nodes, depth, acc, v, end, n)
    decreases |text| - pos, 2
  {
    var item := ParseItem(text, limits, pos, nodes, depth, acc);
    var b, q := Skip(text, pos), Skip(text, item.pos);
    ItemParsed(text, limits, pos, nodes, depth, acc, b, ParseValue(text, limits, b, nodes, depth + 1));
    SkipBlank(text, pos);
    SkipBlank(text, item.pos);
    ValueSound(text, limits, b, nodes, depth + 1, item.value, item.pos, item.nodes);
    if Here(text, q, COMMA) {
      ItemsNext(text, limits, pos, nodes, depth, acc, item, q);
      ItemsSound(text, limits, q + 1, item.nodes, depth, acc + [item.value], v, end, n);
      ItemBefore(text, limits, pos, nodes, depth, acc, v, end, n, item, b, q);
    } else {
      ItemsLast(text, limits, pos, nodes, depth, acc, item, q);
      ItemAlone(text, limits, pos, nodes, depth, acc, item, b, q);
    }
  }

  lemma {:induction false} ItemAlone(text: Text, limits: Limits, pos: nat, nodes: nat, depth: nat, acc: seq<Value>,
                                     item: Parsed,
                  b: nat, q: nat)
    requires item.Got? && |acc| < limits.maxEntries && Blank(text, pos, b) && Blank(text, item.pos, q)
    requires Here(text, q, CLOSE_BRACKET)
    requires Reads(text, limits, b, nodes, depth + 1, item.value, item.pos, item.nodes)
    ensures ReadsItems(text, limits, pos, nodes, depth, acc, Arr(acc + [item.value]), q + 1, item.nodes)
  {
    var all := acc + [item.value];
    assert all[|acc|..] == [item.value] && all[..|acc|] == acc;
    var one := [item.value];
    assert one[1..] == [];
    assert FirstItem(text, pos, q, one, b, item.pos, q);
  }

  lemma {:induction false} ItemBefore(text: Text, limits: Limits, pos: nat, nodes: nat, depth: nat,
                                      acc: seq<Value>, v: Value, end: nat,
                   n: nat, item: Parsed, b: nat, q: nat)
    requires item.Got? && |acc| < limits.maxEntries && Blank(text, pos, b) && Blank(text, item.pos, q)
    requires Here(text, q, COMMA) && Reads(text, limits, b, nodes, depth + 1, item.value, item.pos, item.nodes)
    requires ReadsItems(text, limits, q + 1, item.nodes, depth, acc + [item.value], v, end, n)
    ensures ReadsItems(text, limits, pos, nodes, depth, acc, v, end, n)
  {
    var longer := acc + [item.value];
    var more, rest := v.items[|acc|..], v.items[|longer|..];
    assert v.items == longer + rest;
    assert v.items[..|acc|] == acc;
    assert more == [item.value] + rest;
    assert more[0] == item.value && more[1..] == rest;
    ItemsSpan(text, q + 1, end - 1, rest);
    assert FirstItem(text, pos, end - 1, more, b, item.pos, q);
  }

  // ---- Members ------------------------------------------------------------------------------------------

  /** The keys already read. */
  ghost predicate Seen(acc: seq<Member>, seen: set<Text>) {
    forall key :: HasKey(acc, key) <==> key in seen
  }

  lemma {:induction false} SeenGrows(acc: seq<Member>, m: Member, longer: seq<Member>, seen: set<Text>)
    requires Seen(acc, seen) && longer == acc + [m]
    ensures Seen(longer, seen + {m.key})
  {
    forall key ensures HasKey(longer, key) <==> key in seen + {m.key} {
      if i :| 0 <= i < |acc| && acc[i].key == key {
        assert longer[i].key == key;
      }
      assert longer[|acc|].key == m.key;
      assert HasKey(longer, key) ==> HasKey(acc, key) || key == m.key;
      assert HasKey(acc, key) <==> key in seen;
    }
  }

  ghost predicate ReadsMembers(text: Text, limits: Limits, pos: nat, nodes: nat, depth: nat, acc: seq<Member>,
                               seen: set<Text>, v: Value, end: nat, n: nat) {
    && v.Obj? && |acc| < |v.members| <= limits.maxEntries && v.members[..|acc|] == acc
    && 0 < end <= |text| && text[end - 1] == CLOSE_BRACE && ShowsMembers(text, pos, end - 1, v.members[|acc|..])
    && MembersFit(seen, v.members[|acc|..], depth + 1, limits)
    && n == nodes + MemberNodes(v.members[|acc|..]) && n <= limits.maxNodes
  }

  lemma {:induction false} MoreMemberBlanks(text: Text, at: nat, from: nat, end: nat, members: seq<Member>)
    requires members != [] && Blank(text, at, from) && ShowsMembers(text, from, end, members)
    ensures ShowsMembers(text, at, end, members)
  {
    var c: Cuts :| FirstMember(text, from, end, members, c);
    assert text[at..c.key] == text[at..from] + text[from..c.key];
    assert FirstMember(text, at, end, members, c);
  }

  lemma {:induction false} MembersSpan(text: Text, at: nat, end: nat, members: seq<Member>)
    requires members != [] && ShowsMembers(text, at, end, members)
    ensures at < end
  {
    var c := MemberParts(text, at, end, members);
  }

  lemma {:induction false} ObjectRead(text: Text, limits: Limits, pos: nat, next: nat, nodes: nat, depth: nat,
                                      v: Value, end: nat, n: nat)
    requires Here(text, pos, OPEN_BRACE) && Blank(text, pos + 1, next) && depth <= limits.maxDepth
    requires ReadsMembers(text, limits, next, nodes + 1, depth, [], {}, v, end, n)
    ensures Reads(text, limits, pos, nodes, depth, v, end, n)
  {
    assert v.members[0..] == v.members;
    MoreMemberBlanks(text, pos + 1, next, end - 1, v.members);
    MembersSpan(text, pos + 1, end - 1, v.members);
  }

  /** One member read: where its parts are. */
  ghost predicate ReadsMember(text: Text, limits: Limits, pos: nat, nodes: nat, depth: nat, m: ParsedMember, c: Cuts) {
    && m.GotMember? && |m.member.key| <= limits.maxString
    && Blank(text, pos, c.key) && Quoted(text, c.key, c.keyEnd, m.member.key) && Blank(text, c.keyEnd, c.colon)
    && Here(text, c.colon, COLON) && Blank(text, c.colon + 1, c.value) && c.valueEnd == m.pos
    && Blank(text, m.pos, c.next)
    && Reads(text, limits, c.value, nodes, depth + 1, m.member.value, m.pos, m.nodes)
  }

  lemma {:induction false} KeyCases(text: Text, limits: Limits, pos: nat, acc: seq<Member>, key: Text, next: nat)
    returns (begin: nat, keyEnd: nat, colon: nat)
    requires pos <= |text| && ParseKey(text, limits, pos, acc) == GotText(key, next)
    ensures |acc| < limits.maxEntries && !HasKey(acc, key)
    ensures begin == Skip(text, pos) && Here(text, begin, QUOTE) && keyEnd <= |text| && colon == Skip(text, keyEnd)
    ensures ParseString(text, begin + 1, [], limits.maxString) == GotText(key, keyEnd)
    ensures Here(text, colon, COLON) && next == colon + 1
  {
    begin := Skip(text, pos);
    keyEnd := ParseString(text, begin + 1, [], limits.maxString).next;
    colon := Skip(text, keyEnd);
  }

  lemma {:induction false} KeySound(text: Text, limits: Limits, pos: nat, key: Text, begin: nat, keyEnd: nat,
                                    colon: nat)
    requires pos <= |text| && begin == Skip(text, pos) && Here(text, begin, QUOTE)
    requires keyEnd <= |text| && colon == Skip(text, keyEnd)
    requires ParseString(text, begin + 1, [], limits.maxString) == GotText(key, keyEnd)
    ensures Blank(text, pos, begin) && Quoted(text, begin, keyEnd, key) && Blank(text, keyEnd, colon)
    ensures |key| <= limits.maxString
  {
    SkipBlank(text, pos);
    StringIff(text, begin + 1, limits.maxString, key, keyEnd);
    SkipBlank(text, keyEnd);
  }

  lemma {:induction false} MemberSound(text: Text, limits: Limits, pos: nat, nodes: nat, depth: nat,
                                       acc: seq<Member>, m: ParsedMember) returns (c: Cuts)
    requires pos <= |text| && m == ParseMember(text, limits, pos, nodes, depth, acc) && m.GotMember?
    ensures |acc| < limits.maxEntries && !HasKey(acc, m.member.key)
    ensures ReadsMember(text, limits, pos, nodes, depth, m, c) && c.next == Skip(text, m.pos)
    decreases |text| - pos, 1
  {
    var key := ParseKey(text, limits, pos, acc);
    var begin, keyEnd, colon := KeyCases(text, limits, pos, acc, key.text, key.next);
    KeySound(text, limits, pos, key.text, begin, keyEnd, colon);
    var at := Skip(text, key.next);
    SkipBlank(text, key.next);
    ValueSound(text, limits, at, nodes, depth + 1, m.member.value, m.pos, m.nodes);
    SkipBlank(text, m.pos);
    c := Cuts(begin, keyEnd, colon, at, m.pos, Skip(text, m.pos));
  }

  lemma {:induction false} MembersSound(text: Text, limits: Limits, pos: nat, nodes: nat, depth: nat,
                                        acc: seq<Member>, seen: set<Text>, v: Value, end: nat, n: nat)
    requires pos <= |text| && ParseMembers(text, limits, pos, nodes, depth, acc) == Got(v, end, n)
    requires Seen(acc, seen)
    ensures ReadsMembers(text, limits, pos, nodes, depth, acc, seen, v, end, n)
    decreases |text| - pos, 3
  {
    var m := ParseMember(text, limits, pos, nodes, depth, acc);
    var longer := acc + [m.member];
    MembersCases(text, limits, pos, nodes, depth, acc, longer, v, end, n, m);
    var q := Skip(text, m.pos);
    if Here(text, q, COMMA) {
      SeenGrows(acc, m.member, longer, seen);
      MembersSound(text, limits, q + 1, m.nodes, depth, longer, seen + {m.member.key}, v, end, n);
      MemberAndRest(text, limits, pos, nodes, depth, acc, longer, seen, v, end, n, m, q);
    } else {
      LastMember(text, limits, pos, nodes, depth, acc, seen, v, m, q);
    }
  }

  lemma {:induction false} MemberAndRest(text: Text, limits: Limits, pos: nat, nodes: nat, depth: nat,
                                         acc: seq<Member>, longer: seq<Member>, seen: set<Text>, v: Value, end: nat,
                                         n: nat, m: ParsedMember, q: nat)
    requires pos <= |text| && m == ParseMember(text, limits, pos, nodes, depth, acc) && m.GotMember?
    requires Seen(acc, seen) && q == Skip(text, m.pos) && Here(text, q, COMMA) && longer == acc + [m.member]
    requires ReadsMembers(text, limits, q + 1, m.nodes, depth, longer, seen + {m.member.key}, v, end, n)
    ensures ReadsMembers(text, limits, pos, nodes, depth, acc, seen, v, end, n)
    decreases |text| - pos, 2
  {
    var c := MemberSound(text, limits, pos, nodes, depth, acc, m);
    MemberBefore(text, limits, pos, nodes, depth, acc, longer, seen, v, end, n, m, c);
  }

  lemma {:induction false} LastMember(text: Text, limits: Limits, pos: nat, nodes: nat, depth: nat,
                                      acc: seq<Member>, seen: set<Text>, v: Value, m: ParsedMember, q: nat)
    requires pos <= |text| && m == ParseMember(text, limits, pos, nodes, depth, acc) && m.GotMember?
    requires Seen(acc, seen) && q == Skip(text, m.pos) && Here(text, q, CLOSE_BRACE)
    requires v == Obj(acc + [m.member])
    ensures ReadsMembers(text, limits, pos, nodes, depth, acc, seen, v, q + 1, m.nodes)
    decreases |text| - pos, 2
  {
    var c := MemberSound(text, limits, pos, nodes, depth, acc, m);
    MemberAlone(text, limits, pos, nodes, depth, acc, seen, v, m, c);
  }

  lemma {:induction false} MembersCases(text: Text, limits: Limits, pos: nat, nodes: nat, depth: nat,
                                        acc: seq<Member>, longer: seq<Member>, v: Value, end: nat, n: nat,
                                        m: ParsedMember)
    requires pos <= |text| && ParseMembers(text, limits, pos, nodes, depth, acc) == Got(v, end, n)
    requires m == ParseMember(text, limits, pos, nodes, depth, acc)
    requires m.GotMember? ==> longer == acc + [m.member]
    ensures m.GotMember? && pos < m.pos <= |text|
    ensures var q := Skip(text, m.pos);
            if Here(text, q, COMMA)
            then ParseMembers(text, limits, q + 1, m.nodes, depth, longer) == Got(v, end, n)
            else Here(text, q, CLOSE_BRACE) && v == Obj(longer) && end == q + 1 && n == m.nodes
  {
  }

  lemma {:induction false} MemberAlone(text: Text, limits: Limits, pos: nat, nodes: nat, depth: nat,
                                       acc: seq<Member>, seen: set<Text>, v: Value, m: ParsedMember, c: Cuts)
    requires ReadsMember(text, limits, pos, nodes, depth, m, c) && |acc| < limits.maxEntries
    requires m.member.key !in seen
    requires Here(text, c.next, CLOSE_BRACE) && v == Obj(acc + [m.member])
    ensures ReadsMembers(text, limits, pos, nodes, depth, acc, seen, v, c.next + 1, m.nodes)
  {
    var all := acc + [m.member];
    assert all[|acc|..] == [m.member] && all[..|acc|] == acc;
    var one := [m.member];
    assert one[1..] == [];
    assert FirstMember(text, pos, c.next, one, c);
  }

  lemma {:induction false} MemberBefore(text: Text, limits: Limits, pos: nat, nodes: nat, depth: nat,
                                        acc: seq<Member>, longer: seq<Member>, seen: set<Text>, v: Value, end: nat,
                                        n: nat, m: ParsedMember, c: Cuts)
    requires ReadsMember(text, limits, pos, nodes, depth, m, c) && |acc| < limits.maxEntries
    requires m.member.key !in seen
    requires Here(text, c.next, COMMA) && longer == acc + [m.member]
    requires ReadsMembers(text, limits, c.next + 1, m.nodes, depth, longer, seen + {m.member.key}, v, end, n)
    ensures ReadsMembers(text, limits, pos, nodes, depth, acc, seen, v, end, n)
  {
    var more, rest := v.members[|acc|..], v.members[|longer|..];
    assert v.members == longer + rest;
    assert v.members[..|acc|] == acc;
    assert more == [m.member] + rest;
    assert more[0] == m.member && more[1..] == rest;
    MembersSpan(text, c.next + 1, end - 1, rest);
    assert FirstMember(text, pos, end - 1, more, c);
  }

  // ---- What is in the language is accepted ------------------------------------------------------------------

  lemma {:induction false} LeafComplete(text: Text, limits: Limits, pos: nat, nodes: nat, depth: nat, v: Value,
                                        end: nat)
    requires !v.Arr? && !v.Obj? && Reads(text, limits, pos, nodes, depth, v, end, nodes + 1)
    ensures ParseValue(text, limits, pos, nodes, depth) == Got(v, end, nodes + 1)
  {
    var s := text[pos..end];
    assert s[0] == text[pos];
    match v
    case Null => SliceFound(text, pos, NULL_TEXT);
    case Bool(flag) => SliceFound(text, pos, if flag then TRUE_TEXT else FALSE_TEXT);
    case Int(_) => NumberIff(text, pos, nodes + 1, v, end);
    case Uint(n) =>
      DigitsFacts(n);
      NumberIff(text, pos, nodes + 1, v, end);
    case Str(t) => StringIff(text, pos + 1, limits.maxString, t, end);
  }

  /** What stands behind a value ends every number. */
  lemma {:induction false} EndsNumber(text: Text, p: nat, q: nat)
    requires Blank(text, p, q) && (q == |text| || text[q] in {COMMA, CLOSE_BRACKET, CLOSE_BRACE})
    ensures NumberEnds(text, p)
  {
    if p < q {
      assert text[p..q][0] == text[p];
    }
  }

  lemma {:induction false} ValueComplete(text: Text, limits: Limits, pos: nat, nodes: nat, depth: nat, v: Value,
                                         end: nat, n: nat)
    requires Reads(text, limits, pos, nodes, depth, v, end, n)
    ensures ParseValue(text, limits, pos, nodes, depth) == Got(v, end, n)
    decreases v, 0
  {
    match v
    case Arr(items) =>
      if items == [] {
        SkipIs(text, pos + 1, end - 1);
        ArrayOpens(text, limits, pos, nodes, depth, end - 1);
      } else {
        ArrayComplete(text, limits, pos, nodes, depth, items, end, n);
      }
    case Obj(members) =>
      if members == [] {
        SkipIs(text, pos + 1, end - 1);
        ObjectOpens(text, limits, pos, nodes, depth, end - 1);
      } else {
        ObjectComplete(text, limits, pos, nodes, depth, members, end, n);
      }
    case _ => LeafComplete(text, limits, pos, nodes, depth, v, end);
  }

  /** The loop does not see the blanks it starts with. */
  lemma {:induction false} ItemsFrom(text: Text, limits: Limits, at: nat, nodes: nat, depth: nat)
    requires at <= |text|
    ensures ParseItems(text, limits, Skip(text, at), nodes, depth, [])
         == ParseItems(text, limits, at, nodes, depth, [])
  {
    SkipTwice(text, at);
  }

  lemma {:induction false} ArrayComplete(text: Text, limits: Limits, pos: nat, nodes: nat, depth: nat,
                                         items: seq<Value>, end: nat, n: nat)
    requires items != [] && Reads(text, limits, pos, nodes, depth, Arr(items), end, n)
    ensures ParseValue(text, limits, pos, nodes, depth) == Got(Arr(items), end, n)
    decreases items, 3
  {
    var b, p, q := ItemParts(text, pos + 1, end - 1, items);
    ShowsBegins(text, b, p, items[0]);
    SkipIs(text, pos + 1, b);
    ArrayOpens(text, limits, pos, nodes, depth, b);
    ItemsFrom(text, limits, pos + 1, nodes + 1, depth);
    ItemsComplete(text, limits, pos + 1, nodes + 1, depth, [], items, end - 1, n,
                  ParseItems(text, limits, pos + 1, nodes + 1, depth, []));
    assert [] + items == items;
  }

  lemma {:induction false} ItemsComplete(text: Text, limits: Limits, at: nat, nodes: nat, depth: nat,
                                         acc: seq<Value>, items: seq<Value>, end: nat, n: nat, r: Parsed)
    requires at <= |text| && r == ParseItems(text, limits, at, nodes, depth, acc)
    requires items != [] && ShowsItems(text, at, end, items) && Here(text, end, CLOSE_BRACKET)
    requires |acc| + |items| <= limits.maxEntries && ItemsFit(items, depth + 1, limits)
    requires n == nodes + ItemNodes(items) && n <= limits.maxNodes
    ensures r == Got(Arr(acc + items), end + 1, n)
    decreases items, 2
  {
    var used, longer := nodes + Nodes(items[0]), acc + [items[0]];
    var next := ItemsBegin(text, limits, at, nodes, depth, acc, items, end, used, r);
    if |items| == 1 {
      assert items == [items[0]] && items[1..] == [];
    } else {
      ItemsComplete(text, limits, next, used, depth, longer, items[1..], end, n, r);
      assert longer + items[1..] == acc + items;
    }
  }

  /** The first item and what comes behind it: the end, or the loop again. */
  lemma {:induction false} ItemsBegin(text: Text, limits: Limits, at: nat, nodes: nat, depth: nat, acc: seq<Value>,
                                      items: seq<Value>, end: nat, used: nat, r: Parsed) returns (next: nat)
    requires at <= |text| && r == ParseItems(text, limits, at, nodes, depth, acc)
    requires items != [] && ShowsItems(text, at, end, items) && Here(text, end, CLOSE_BRACKET)
    requires |acc| < limits.maxEntries && Fits(items[0], depth + 1, limits)
    requires used == nodes + Nodes(items[0]) && used <= limits.maxNodes
    ensures |items| == 1 ==> r == Got(Arr(acc + [items[0]]), end + 1, used)
    ensures |items| > 1 ==>
              && next <= |text| && ShowsItems(text, next, end, items[1..])
              && r == ParseItems(text, limits, next, used, depth, acc + [items[0]])
    decreases items, 1
  {
    var b, p, q := ItemParts(text, at, end, items);
    next := q + 1;
    ItemComplete(text, limits, at, nodes, depth, acc, items[0], b, p, q, used);
    var item := Got(items[0], p, used);
    if |items| == 1 {
      ItemsLast(text, limits, at, nodes, depth, acc, item, q);
    } else {
      ItemsNext(text, limits, at, nodes, depth, acc, item, q);
    }
  }

  lemma {:induction false} ItemComplete(text: Text, limits: Limits, at: nat, nodes: nat, depth: nat, acc: seq<Value>,
                                        v: Value, b: nat, p: nat, q: nat, used: nat)
    requires Blank(text, at, b) && Shows(text, b, p, v) && Blank(text, p, q)
    requires Here(text, q, COMMA) || Here(text, q, CLOSE_BRACKET)
    requires |acc| < limits.maxEntries && Fits(v, depth + 1, limits)
    requires used == nodes + Nodes(v) && used <= limits.maxNodes
    ensures ParseItem(text, limits, at, nodes, depth, acc) == Got(v, p, used) && Skip(text, p) == q
    decreases v, 1
  {
    ShowsBegins(text, b, p, v);
    SkipIs(text, at, b);
    SkipIs(text, p, q);
    EndsNumber(text, p, q);
    ValueComplete(text, limits, b, nodes, depth + 1, v, p, used);
    ItemParsed(text, limits, at, nodes, depth, acc, b, Got(v, p, used));
  }

  lemma {:induction false} MembersFrom(text: Text, limits: Limits, at: nat, nodes: nat, depth: nat)
    requires at <= |text|
    ensures ParseMembers(text, limits, Skip(text, at), nodes, depth, [])
         == ParseMembers(text, limits, at, nodes, depth, [])
  {
    SkipTwice(text, at);
  }

  lemma {:induction false} ObjectComplete(text: Text, limits: Limits, pos: nat, nodes: nat, depth: nat,
                                          members: seq<Member>, end: nat, n: nat)
    requires members != [] && Reads(text, limits, pos, nodes, depth, Obj(members), end, n)
    ensures ParseValue(text, limits, pos, nodes, depth) == Got(Obj(members), end, n)
    decreases members, 3
  {
    var r := ParseMembers(text, limits, pos + 1, nodes + 1, depth, []);
    ObjectBegins(text, limits, pos, nodes, depth, members, end - 1, r);
    MembersComplete(text, limits, pos + 1, nodes + 1, depth, [], {}, members, end - 1, n, r);
    assert [] + members == members;
  }

  lemma {:induction false} ObjectBegins(text: Text, limits: Limits, pos: nat, nodes: nat, depth: nat,
                                        members: seq<Member>, end: nat, r: Parsed)
    requires Here(text, pos, OPEN_BRACE) && members != [] && ShowsMembers(text, pos + 1, end, members)
    requires depth <= limits.maxDepth && nodes + 1 <= limits.maxNodes
    requires r == ParseMembers(text, limits, pos + 1, nodes + 1, depth, [])
    ensures ParseValue(text, limits, pos, nodes, depth) == r
  {
    var c := MemberParts(text, pos + 1, end, members);
    SkipIs(text, pos + 1, c.key);
    ObjectGoesOn(text, limits, pos, nodes, depth, c.key, r, ParseValue(text, limits, pos, nodes, depth));
  }

  lemma {:induction false} ObjectGoesOn(text: Text, limits: Limits, pos: nat, nodes: nat, depth: nat, key: nat,
                                        r: Parsed, p: Parsed)
    requires Here(text, pos, OPEN_BRACE) && Skip(text, pos + 1) == key && Here(text, key, QUOTE)
    requires depth <= limits.maxDepth && nodes + 1 <= limits.maxNodes
    requires r == ParseMembers(text, limits, pos + 1, nodes + 1, depth, [])
    requires p == ParseValue(text, limits, pos, nodes, depth)
    ensures p == r
  {
    ObjectOpens(text, limits, pos, nodes, depth, key);
    MembersFrom(text, limits, pos + 1, nodes + 1, depth);
  }

  lemma {:induction false} KeyComplete(text: Text, limits: Limits, at: nat, acc: seq<Member>, key: Text, c: Cuts)
    requires Blank(text, at, c.key) && Quoted(text, c.key, c.keyEnd, key) && Blank(text, c.keyEnd, c.colon)
    requires Here(text, c.colon, COLON) && |acc| < limits.maxEntries && !HasKey(acc, key)
    requires |key| <= limits.maxString
    ensures ParseKey(text, limits, at, acc) == GotText(key, c.colon + 1)
  {
    KeyPlaces(text, limits, at, key, c.key, c.keyEnd, c.colon);
    KeyTurn(text, limits, at, acc, key, c.key, c.keyEnd, c.colon);
  }

  lemma {:induction false} KeyPlaces(text: Text, limits: Limits, at: nat, key: Text, begin: nat, keyEnd: nat,
                                     colon: nat)
    requires Blank(text, at, begin) && Quoted(text, begin, keyEnd, key) && Blank(text, keyEnd, colon)
    requires Here(text, colon, COLON) && |key| <= limits.maxString
    ensures Skip(text, at) == begin && Skip(text, keyEnd) == colon
    ensures ParseString(text, begin + 1, [], limits.maxString) == GotText(key, keyEnd)
  {
    SkipIs(text, at, begin);
    SkipIs(text, keyEnd, colon);
    StringIff(text, begin + 1, limits.maxString, key, keyEnd);
  }

  lemma {:induction false} KeyTurn(text: Text, limits: Limits, at: nat, acc: seq<Member>, key: Text, begin: nat,
                                   keyEnd: nat, colon: nat)
    requires at <= |text| && Skip(text, at) == begin && Here(text, begin, QUOTE) && keyEnd <= |text|
    requires ParseString(text, begin + 1, [], limits.maxString) == GotText(key, keyEnd)
    requires Skip(text, keyEnd) == colon && Here(text, colon, COLON)
    requires |acc| < limits.maxEntries && !HasKey(acc, key)
    ensures ParseKey(text, limits, at, acc) == GotText(key, colon + 1)
  {
  }

  lemma {:induction false} MembersComplete(text: Text, limits: Limits, at: nat, nodes: nat, depth: nat,
                                           acc: seq<Member>, seen: set<Text>, members: seq<Member>, end: nat, n: nat,
                                           r: Parsed)
    requires at <= |text| && r == ParseMembers(text, limits, at, nodes, depth, acc)
    requires members != [] && ShowsMembers(text, at, end, members) && Here(text, end, CLOSE_BRACE)
    requires |acc| + |members| <= limits.maxEntries && Seen(acc, seen)
    requires MembersFit(seen, members, depth + 1, limits)
    requires n == nodes + MemberNodes(members) && n <= limits.maxNodes
    ensures r == Got(Obj(acc + members), end + 1, n)
    decreases members, 2
  {
    var first, rest := members[0], members[1..];
    var used, longer := nodes + Nodes(first.value), acc + [first];
    FirstFits(seen, members, first, rest, depth + 1, limits);
    assert !HasKey(acc, first.key);
    var next := MembersBegin(text, limits, at, nodes, depth, acc, members, end, used, r);
    MembersGrow(acc, first, rest, members);
    if rest != [] {
      SeenGrows(acc, first, longer, seen);
      MembersComplete(text, limits, next, used, depth, longer, seen + {first.key}, rest, end, n, r);
    }
  }

  lemma {:induction false} MembersGrow(acc: seq<Member>, first: Member, rest: seq<Member>, members: seq<Member>)
    requires members != [] && first == members[0] && rest == members[1..]
    ensures acc + [first] + rest == acc + members
    ensures rest == [] ==> acc + [first] == acc + members
    ensures |acc + [first]| + |rest| == |acc| + |members| && (rest == [] ==> MemberNodes(rest) == 0)
  {
  }

  /** The first member and what comes behind it: the end, or the loop again. */
  lemma {:induction false} MembersBegin(text: Text, limits: Limits, at: nat, nodes: nat, depth: nat,
                                        acc: seq<Member>, members: seq<Member>, end: nat, used: nat, r: Parsed)
    returns (next: nat)
    requires at <= |text| && r == ParseMembers(text, limits, at, nodes, depth, acc)
    requires members != [] && ShowsMembers(text, at, end, members) && Here(text, end, CLOSE_BRACE)
    requires |acc| < limits.maxEntries && |members[0].key| <= limits.maxString && !HasKey(acc, members[0].key)
    requires Fits(members[0].value, depth + 1, limits)
    requires used == nodes + Nodes(members[0].value) && used <= limits.maxNodes
    ensures |members| == 1 ==> r == Got(Obj(acc + [members[0]]), end + 1, used)
    ensures |members| > 1 ==>
              && next <= |text| && ShowsMembers(text, next, end, members[1..])
              && r == ParseMembers(text, limits, next, used, depth, acc + [members[0]])
    decreases members, 1
  {
    var c := MemberParts(text, at, end, members);
    next := c.next + 1;
    MemberThen(text, limits, at, nodes, depth, acc, members[0], c, used, |members| == 1, r);
  }

  lemma {:induction false} MemberThen(text: Text, limits: Limits, at: nat, nodes: nat, depth: nat,
                                      acc: seq<Member>, m: Member, c: Cuts, used: nat, last: bool, r: Parsed)
    requires at <= |text| && r == ParseMembers(text, limits, at, nodes, depth, acc)
    requires Blank(text, at, c.key) && Quoted(text, c.key, c.keyEnd, m.key) && Blank(text, c.keyEnd, c.colon)
    requires Here(text, c.colon, COLON) && Blank(text, c.colon + 1, c.value)
    requires Shows(text, c.value, c.valueEnd, m.value) && Blank(text, c.valueEnd, c.next)
    requires Here(text, c.next, if last then CLOSE_BRACE else COMMA)
    requires |acc| < limits.maxEntries && |m.key| <= limits.maxString && !HasKey(acc, m.key)
    requires Fits(m.value, depth + 1, limits) && used == nodes + Nodes(m.value) && used <= limits.maxNodes
    ensures r == if last then Got(Obj(acc + [m]), c.next + 1, used)
                 else ParseMembers(text, limits, c.next + 1, used, depth, acc + [m])
    decreases m, 1
  {
    MemberComplete(text, limits, at, nodes, depth, acc, m, c, used);
    ShowsSpan(text, c.value, c.valueEnd, m.value);
    MembersStep(text, limits, at, nodes, depth, acc, acc + [m], m, c, used, last);
  }

  lemma {:induction false} FirstFits(seen: set<Text>, members: seq<Member>, first: Member, rest: seq<Member>,
                                     depth: nat, limits: Limits)
    requires members != [] && first == members[0] && rest == members[1..] && MembersFit(seen, members, depth, limits)
    ensures |first.key| <= limits.maxString && first.key !in seen && Fits(first.value, depth, limits)
    ensures MembersFit(seen + {first.key}, rest, depth, limits)
    ensures MemberNodes(members) == Nodes(first.value) + MemberNodes(rest)
  {
  }

  lemma {:induction false} MembersStep(text: Text, limits: Limits, at: nat, nodes: nat, depth: nat,
                                       acc: seq<Member>, longer: seq<Member>, m: Member, c: Cuts, used: nat,
                                       last: bool)
    requires at <= |text| && c.valueEnd <= |text| && longer == acc + [m]
    requires ParseMember(text, limits, at, nodes, depth, acc) == GotMember(m, c.valueEnd, used)
    requires Skip(text, c.valueEnd) == c.next && Here(text, c.next, if last then CLOSE_BRACE else COMMA)
    ensures ParseMembers(text, limits, at, nodes, depth, acc)
         == if last then Got(Obj(longer), c.next + 1, used)
            else ParseMembers(text, limits, c.next + 1, used, depth, longer)
  {
    var got := GotMember(m, c.valueEnd, used);
    if last {
      MembersLast(text, limits, at, nodes, depth, acc, got, c.next);
    } else {
      MembersNext(text, limits, at, nodes, depth, acc, got, c.next);
    }
  }

  lemma {:induction false} MemberComplete(text: Text, limits: Limits, at: nat, nodes: nat, depth: nat,
                                          acc: seq<Member>, m: Member, c: Cuts, used: nat)
    requires Blank(text, at, c.key) && Quoted(text, c.key, c.keyEnd, m.key) && Blank(text, c.keyEnd, c.colon)
    requires Here(text, c.colon, COLON) && Blank(text, c.colon + 1, c.value)
    requires Shows(text, c.value, c.valueEnd, m.value) && Blank(text, c.valueEnd, c.next)
    requires Here(text, c.next, COMMA) || Here(text, c.next, CLOSE_BRACE)
    requires |acc| < limits.maxEntries && |m.key| <= limits.maxString && !HasKey(acc, m.key)
    requires Fits(m.value, depth + 1, limits) && used == nodes + Nodes(m.value) && used <= limits.maxNodes
    ensures ParseMember(text, limits, at, nodes, depth, acc) == GotMember(m, c.valueEnd, used)
    ensures Skip(text, c.valueEnd) == c.next
    decreases m, 0
  {
    KeyComplete(text, limits, at, acc, m.key, c);
    ShowsBegins(text, c.value, c.valueEnd, m.value);
    SkipIs(text, c.colon + 1, c.value);
    SkipIs(text, c.valueEnd, c.next);
    EndsNumber(text, c.valueEnd, c.next);
    ValueComplete(text, limits, c.value, nodes, depth + 1, m.value, c.valueEnd, used);
    MemberTurn(text, limits, at, nodes, depth, acc, m, c.colon + 1, c.value, Got(m.value, c.valueEnd, used));
  }

  lemma {:induction false} MemberTurn(text: Text, limits: Limits, at: nat, nodes: nat, depth: nat,
                                      acc: seq<Member>, m: Member,
                   next: nat, value: nat, v: Parsed)
    requires at <= |text| && next <= |text| && ParseKey(text, limits, at, acc) == GotText(m.key, next)
    requires Skip(text, next) == value && v == ParseValue(text, limits, value, nodes, depth + 1)
    requires v.Got? && v.value == m.value
    ensures ParseMember(text, limits, at, nodes, depth, acc) == GotMember(m, v.pos, v.nodes)
  {
  }

  // ---- The whole text -----------------------------------------------------------------------------------------

  /** The text is the value between blanks. */
  ghost predicate IsTextOf(text: Text, v: Value) {
    exists pos: nat, end: nat :: Blank(text, 0, pos) && Shows(text, pos, end, v) && Blank(text, end, |text|)
  }

  /** A text is accepted as a value exactly when it is a JSON text of it, and text, depth,
      strings, entries and nodes are within the limits. */
  lemma {:induction false} ParseIff(text: Text, limits: Limits, v: Value)
    ensures Parse(text, limits) == Some(v) <==>
              && |text| <= limits.maxTotal && IsTextOf(text, v)
              && Fits(v, 0, limits) && Nodes(v) <= limits.maxNodes
  {
    if Parse(text, limits) == Some(v) {
      var pos, got := Skip(text, 0), ParseValue(text, limits, Skip(text, 0), 0, 0);
      SkipBlank(text, 0);
      SkipBlank(text, got.pos);
      ValueSound(text, limits, pos, 0, 0, v, got.pos, got.nodes);
    }
    if |text| <= limits.maxTotal && IsTextOf(text, v) && Fits(v, 0, limits) && Nodes(v) <= limits.maxNodes {
      var pos: nat, end: nat :| Blank(text, 0, pos) && Shows(text, pos, end, v) && Blank(text, end, |text|);
      ShowsBegins(text, pos, end, v);
      SkipIs(text, 0, pos);
      SkipIs(text, end, |text|);
      EndsNumber(text, end, |text|);
      ValueComplete(text, limits, pos, 0, 0, v, end, Nodes(v));
    }
  }
}
