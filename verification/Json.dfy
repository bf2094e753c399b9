/** Deterministic JSON: the printer, the bounded strict parser, and the proof that
    one inverts the other. Text is a sequence of bytes. */
module Json {
  import opened Identity
  import opened Crc32c

  type Text = seq<Byte>

  datatype Member = Member(key: Text, value: Value)

  /** Values without reals. Integers keep the kind they were made with. */
  datatype Value =
    | Null
    | Bool(flag: bool)
    | Int(number: int)
    | Uint(count: nat)
    | Str(text: Text)
    | Arr(items: seq<Value>)
    | Obj(members: seq<Member>)

  datatype Limits = Limits(maxDepth: nat, maxString: nat, maxEntries: nat, maxNodes: nat, maxTotal: nat)

  const DEFAULT_LIMITS: Limits := Limits(32, 8192, 65536, 262144, 8388608)

  const SPACE: Byte := 32
  const QUOTE: Byte := 34
  const COMMA: Byte := 44
  const MINUS: Byte := 45
  const DOT: Byte := 46
  const ZERO_DIGIT: Byte := 48
  const COLON: Byte := 58
  const OPEN_BRACKET: Byte := 91
  const BACKSLASH: Byte := 92
  const CLOSE_BRACKET: Byte := 93
  const LETTER_U: Byte := 117
  const OPEN_BRACE: Byte := 123
  const CLOSE_BRACE: Byte := 125
  const NEWLINE: Byte := 10

  const NULL_TEXT: Text := [110, 117, 108, 108]
  const TRUE_TEXT: Text := [116, 114, 117, 101]
  const FALSE_TEXT: Text := [102, 97, 108, 115, 101]

  /** The 64-bit integers the values carry. */
  predicate InRange(v: Value)
    decreases v, 0
  {
    match v
    case Int(i) => I64_MIN <= i <= I64_MAX
    case Uint(n) => n <= U64_MAX
    case Arr(items) => ItemsInRange(items)
    case Obj(members) => MembersInRange(members)
    case _ => true
  }

  predicate ItemsInRange(items: seq<Value>)
    decreases items, 1
  {
    items == [] || (InRange(items[0]) && ItemsInRange(items[1..]))
  }

  predicate MembersInRange(members: seq<Member>)
    decreases members, 1
  {
    members == [] || (InRange(members[0].value) && MembersInRange(members[1..]))
  }

  // ---- The printer -----------------------------------------------------------------------

  function Digits(n: nat): Text {
    if n < 10 then [48 + n] else Digits(n / 10) + [48 + n % 10]
  }

  function HexDigit(n: nat): Byte
    requires n < 16
  {
    if n < 10 then 48 + n else 87 + n
  }

  function EscapeByte(c: Byte): Text {
    if c == 34 then [92, 34]
    else if c == 92 then [92, 92]
    else if c == 8 then [92, 98]
    else if c == 12 then [92, 102]
    else if c == 10 then [92, 110]
    else if c == 13 then [92, 114]
    else if c == 9 then [92, 116]
    else if c < 32 then [92, 117, 48, 48, HexDigit(c / 16), HexDigit(c % 16)]
    else [c]
  }

  function EscapeAll(s: Text): Text {
    if s == [] then [] else EscapeByte(s[0]) + EscapeAll(s[1..])
  }

  function Escaped(s: Text): Text {
    [QUOTE] + EscapeAll(s) + [QUOTE]
  }

  function Spaces(n: nat): Text {
    if n == 0 then [] else [SPACE] + Spaces(n - 1)
  }

  /** The padding of a nesting level: `indent` spaces for each. */
  function Padding(indent: nat, depth: nat): Text
    decreases depth
  {
    if depth == 0 then [] else Spaces(indent) + Padding(indent, depth - 1)
  }

  /** Line break and padding before an entry or a closing bracket. */
  function Break(indent: int, depth: nat): Text {
    if indent > 0 then [NEWLINE] + Padding(indent, depth) else []
  }

  function Separator(indent: int): Text {
    if indent > 0 then [COLON, SPACE] else [COLON]
  }

  function Number(i: int): Text {
    if i < 0 then [MINUS] + Digits(-i) else Digits(i)
  }

  /** `dump_into`. */
  function Dump(v: Value, indent: int, depth: nat): Text
    decreases v, 0
  {
    match v
    case Null => NULL_TEXT
    case Bool(flag) => if flag then TRUE_TEXT else FALSE_TEXT
    case Int(i) => Number(i)
    case Uint(n) => Digits(n)
    case Str(s) => Escaped(s)
    case Arr(items) =>
      if items == [] then [OPEN_BRACKET, CLOSE_BRACKET]
      else [OPEN_BRACKET] + DumpItems(items, indent, depth + 1) + Break(indent, depth) + [CLOSE_BRACKET]
    case Obj(members) =>
      if members == [] then [OPEN_BRACE, CLOSE_BRACE]
      else [OPEN_BRACE] + DumpMembers(members, indent, depth + 1) + Break(indent, depth) + [CLOSE_BRACE]
  }

  function DumpItem(v: Value, indent: int, depth: nat): Text
    decreases v, 1
  {
    Break(indent, depth) + Dump(v, indent, depth)
  }

  function DumpMember(m: Member, indent: int, depth: nat): Text
    decreases m, 1
  {
    Break(indent, depth) + (Escaped(m.key) + (Separator(indent) + Dump(m.value, indent, depth)))
  }

  function DumpItems(items: seq<Value>, indent: int, depth: nat): Text
    decreases items, 2
  {
    if items == [] then []
    else if |items| == 1 then DumpItem(items[0], indent, depth)
    else DumpItem(items[0], indent, depth) + ([COMMA] + DumpItems(items[1..], indent, depth))
  }

  function DumpMembers(members: seq<Member>, indent: int, depth: nat): Text
    decreases members, 2
  {
    if members == [] then []
    else if |members| == 1 then DumpMember(members[0], indent, depth)
    else DumpMember(members[0], indent, depth) + ([COMMA] + DumpMembers(members[1..], indent, depth))
  }

  // ---- The parser --------------------------------------------------------------------------

  predicate IsSpace(c: Byte) {
    c == 32 || c == 9 || c == 10 || c == 13
  }

  predicate IsDigit(c: Byte) {
    48 <= c <= 57
  }

  function Skip(text: Text, pos: nat): (r: nat)
    requires pos <= |text|
    ensures pos <= r <= |text|
    decreases |text| - pos
  {
    if pos < |text| && IsSpace(text[pos]) then Skip(text, pos + 1) else pos
  }

  /** Where a run of digits ends. */
  function DigitsEnd(text: Text, pos: nat): (r: nat)
    requires pos <= |text|
    ensures pos <= r <= |text|
    ensures forall k :: pos <= k < r ==> IsDigit(text[k])
    decreases |text| - pos
  {
    if pos < |text| && IsDigit(text[pos]) then DigitsEnd(text, pos + 1) else pos
  }

  function ValueOf(digits: Text): nat
    requires forall k :: 0 <= k < |digits| ==> IsDigit(digits[k])
  {
    if digits == [] then 0
    else
      var last: int := digits[|digits| - 1];
      assert IsDigit(digits[|digits| - 1]);
      10 * ValueOf(digits[..|digits| - 1]) + (last - 48)
  }

  datatype Parsed = Fail | Got(value: Value, pos: nat, nodes: nat)

  datatype ParsedText = BadText | GotText(text: Text, next: nat)

  predicate Here(text: Text, pos: nat, c: Byte) {
    pos < |text| && text[pos] == c
  }

  /** `parse_number` on integral tokens; a token that is not a 64-bit integer is
      a real and not part of this model. */
  function ParseNumber(text: Text, pos: nat, nodes: nat): Parsed
    requires pos <= |text|
  {
    var negative := Here(text, pos, MINUS);
    var start := if negative then pos + 1 else pos;
    var end := DigitsEnd(text, start);
    if end == start then Fail
    else if text[start] == ZERO_DIGIT && end > start + 1 then Fail
    else if end < |text| && (text[end] == DOT || text[end] == 69 || text[end] == 101) then Fail
    else
      var n: int := ValueOf(text[start..end]);
      if end - pos > 20 then Fail
      else if negative then (if -n >= I64_MIN then Got(Int(-n), end, nodes) else Fail)
      else if n <= U64_MAX then Got(Uint(n), end, nodes) else Fail
  }

  function HexValue(c: Byte): Option<nat> {
    if 48 <= c <= 57 then Some(c - 48)
    else if 97 <= c <= 102 then Some(c - 87)
    else if 65 <= c <= 70 then Some(c - 55)
    else None
  }

  /** `parse_hex4`. */
  function Hex4(text: Text, pos: nat): (r: Option<nat>)
    ensures r.Some? ==> pos + 4 <= |text| && r.value < 0x10000
  {
    if pos + 4 > |text| then None
    else
      var a := HexValue(text[pos]);
      var b := HexValue(text[pos + 1]);
      var c := HexValue(text[pos + 2]);
      var d := HexValue(text[pos + 3]);
      if a.None? || b.None? || c.None? || d.None? then None
      else Some(4096 * a.value + 256 * b.value + 16 * c.value + d.value)
  }

  /** `append_utf8`. */
  function Utf8(code: nat): Text
    requires code < 0x110000
  {
    if code < 0x80 then [code]
    else if code < 0x800 then [0xc0 + code / 64, 0x80 + code % 64]
    else if code < 0x10000 then [0xe0 + code / 4096, 0x80 + code / 64 % 64, 0x80 + code % 64]
    else [0xf0 + code / 262144, 0x80 + code / 4096 % 64, 0x80 + code / 64 % 64, 0x80 + code % 64]
  }

  /** One turn of the loop of `parse_string`. */
  datatype Unit = BadUnit | Close(next: nat) | Piece(bytes: Text, next: nat, escaped: bool)

  function UnicodeUnit(text: Text, pos: nat): (u: Unit)
    ensures u.Piece? ==> pos < u.next <= |text|
    ensures !u.Close?
  {
    var code := Hex4(text, pos);
    if code.None? then BadUnit
    else if 0xd800 <= code.value <= 0xdbff then
      if !(Here(text, pos + 4, BACKSLASH) && Here(text, pos + 5, LETTER_U)) then BadUnit
      else
        var low := Hex4(text, pos + 6);
        if low.None? || low.value < 0xdc00 || low.value > 0xdfff then BadUnit
        else Piece(Utf8(0x10000 + 1024 * (code.value - 0xd800) + (low.value - 0xdc00)), pos + 10, true)
    else if 0xdc00 <= code.value <= 0xdfff then BadUnit
    else Piece(Utf8(code.value), pos + 4, true)
  }

  function EscapeUnit(text: Text, pos: nat): (u: Unit)
    ensures u.Piece? ==> pos < u.next <= |text|
    ensures !u.Close?
  {
    if pos >= |text| then BadUnit
    else if text[pos] == 34 || text[pos] == 92 || text[pos] == 47 then Piece([text[pos]], pos + 1, true)
    else if text[pos] == 98 then Piece([8], pos + 1, true)
    else if text[pos] == 102 then Piece([12], pos + 1, true)
    else if text[pos] == 110 then Piece([10], pos + 1, true)
    else if text[pos] == 114 then Piece([13], pos + 1, true)
    else if text[pos] == 116 then Piece([9], pos + 1, true)
    else if text[pos] == LETTER_U then UnicodeUnit(text, pos + 1)
    else BadUnit
  }

  function NextUnit(text: Text, pos: nat): (u: Unit)
    ensures u.Piece? || u.Close? ==> pos < u.next <= |text|
  {
    if pos >= |text| then BadUnit
    else if text[pos] == QUOTE then Close(pos + 1)
    else if text[pos] < 32 then BadUnit
    else if text[pos] != BACKSLASH then Piece([text[pos]], pos + 1, false)
    else EscapeUnit(text, pos + 1)
  }

  /** `parse_string` from just behind the opening quote. */
  function ParseString(text: Text, pos: nat, sofar: Text, max: nat): (r: ParsedText)
    requires pos <= |text|
    ensures r.GotText? ==> pos < r.next <= |text|
    decreases |text| - pos
  {
    var u := NextUnit(text, pos);
    match u
    case BadUnit => BadText
    case Close(next) => GotText(sofar, next)
    case Piece(bytes, next, escaped) =>
      if !escaped && |sofar| >= max then BadText
      else if escaped && |sofar + bytes| > max then BadText
      else ParseString(text, next, sofar + bytes, max)
  }

  /** The literal stands in the text at the position. */
  predicate Found(text: Text, pos: nat, literal: Text) {
    pos + |literal| <= |text| && forall k {:trigger literal[k]} :: 0 <= k < |literal| ==> text[pos + k] == literal[k]
  }

  function ParseLiteral(text: Text, pos: nat, nodes: nat, literal: Text, value: Value): Parsed {
    if Found(text, pos, literal) then Got(value, pos + |literal|, nodes) else Fail
  }

  predicate HasKey(members: seq<Member>, key: Text) {
    exists i :: 0 <= i < |members| && members[i].key == key
  }

  /** `parse_value`. */
  function ParseValue(text: Text, limits: Limits, pos: nat, nodes: nat, depth: nat): (r: Parsed)
    requires pos <= |text|
    ensures r.Got? ==> pos < r.pos <= |text|
    decreases |text| - pos, 0
  {
    if depth > limits.maxDepth || nodes + 1 > limits.maxNodes || pos >= |text| then Fail
    else if text[pos] == OPEN_BRACE then
      var next := Skip(text, pos + 1);
      if Here(text, next, CLOSE_BRACE) then Got(Obj([]), next + 1, nodes + 1)
      else ParseMembers(text, limits, next, nodes + 1, depth, [])
    else if text[pos] == OPEN_BRACKET then
      var next := Skip(text, pos + 1);
      if Here(text, next, CLOSE_BRACKET) then Got(Arr([]), next + 1, nodes + 1)
      else ParseItems(text, limits, next, nodes + 1, depth, [])
    else if text[pos] == QUOTE then
      var s := ParseString(text, pos + 1, [], limits.maxString);
      if s.BadText? then Fail else Got(Str(s.text), s.next, nodes + 1)
    else if text[pos] == 116 then ParseLiteral(text, pos, nodes + 1, TRUE_TEXT, Bool(true))
    else if text[pos] == 102 then ParseLiteral(text, pos, nodes + 1, FALSE_TEXT, Bool(false))
    else if text[pos] == 110 then ParseLiteral(text, pos, nodes + 1, NULL_TEXT, Null)
    else ParseNumber(text, pos, nodes + 1)
  }

  /** One item, behind the items already read. */
  function ParseItem(text: Text, limits: Limits, pos: nat, nodes: nat, depth: nat, items: seq<Value>): (r: Parsed)
    requires pos <= |text|
    ensures r.Got? ==> pos < r.pos <= |text|
    decreases |text| - pos, 1
  {
    if |items| >= limits.maxEntries then Fail
    else ParseValue(text, limits, Skip(text, pos), nodes, depth + 1)
  }

  /** The loop of `parse_array`. */
  function ParseItems(text: Text, limits: Limits, pos: nat, nodes: nat, depth: nat, items: seq<Value>): (r: Parsed)
    requires pos <= |text|
    ensures r.Got? ==> pos < r.pos <= |text|
    decreases |text| - pos, 2
  {
    var v := ParseItem(text, limits, pos, nodes, depth, items);
    if v.Fail? then Fail
    else
      var next := Skip(text, v.pos);
      if Here(text, next, COMMA) then ParseItems(text, limits, next + 1, v.nodes, depth, items + [v.value])
      else if Here(text, next, CLOSE_BRACKET) then Got(Arr(items + [v.value]), next + 1, v.nodes)
      else Fail
  }

  datatype ParsedMember = NoMember | GotMember(member: Member, pos: nat, nodes: nat)

  /** A key that is new among the members already read, and its colon. */
  function ParseKey(text: Text, limits: Limits, pos: nat, members: seq<Member>): (r: ParsedText)
    requires pos <= |text|
    ensures r.GotText? ==> pos < r.next <= |text|
  {
    var begin := Skip(text, pos);
    if !Here(text, begin, QUOTE) then BadText
    else
      var key := ParseString(text, begin + 1, [], limits.maxString);
      if key.BadText? || |members| >= limits.maxEntries || HasKey(members, key.text) then BadText
      else
        var colon := Skip(text, key.next);
        if Here(text, colon, COLON) then GotText(key.text, colon + 1) else BadText
  }

  /** Key and value of one member, behind the members already read. */
  function ParseMember(text: Text, limits: Limits, pos: nat, nodes: nat, depth: nat,
                       members: seq<Member>): (r: ParsedMember)
    requires pos <= |text|
    ensures r.GotMember? ==> pos < r.pos <= |text|
    decreases |text| - pos, 1
  {
    var key := ParseKey(text, limits, pos, members);
    if key.BadText? then NoMember
    else
      var v := ParseValue(text, limits, Skip(text, key.next), nodes, depth + 1);
      if v.Fail? then NoMember else GotMember(Member(key.text, v.value), v.pos, v.nodes)
  }

  /** The loop of `parse_object`. */
  function ParseMembers(text: Text, limits: Limits, pos: nat, nodes: nat, depth: nat, members: seq<Member>): (r: Parsed)
    requires pos <= |text|
    ensures r.Got? ==> pos < r.pos <= |text|
    decreases |text| - pos, 2
  {
    var m := ParseMember(text, limits, pos, nodes, depth, members);
    if m.NoMember? then Fail
    else
      var next := Skip(text, m.pos);
      if Here(text, next, COMMA) then ParseMembers(text, limits, next + 1, m.nodes, depth, members + [m.member])
      else if Here(text, next, CLOSE_BRACE) then Got(Obj(members + [m.member]), next + 1, m.nodes)
      else Fail
  }

  /** `json_parse`. */
  function Parse(text: Text, limits: Limits): Option<Value> {
    if |text| > limits.maxTotal then None
    else
      var v := ParseValue(text, limits, Skip(text, 0), 0, 0);
      if v.Fail? || Skip(text, v.pos) != |text| then None else Some(v.value)
  }
}
