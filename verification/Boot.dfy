/** The boot line: every start of a persistent controller installs a strictly
    newer incarnation and epoch, whatever crashed in between. */
module Boot {
  import opened Identity
  import opened Crc32c
  import opened Json
  import opened JsonRoundTrip
  import Au = Authority

  // ---- The boot marker ------------------------------------------------------------------------

  /** "DRNFBOOT 2" */
  const MARKER_PREFIX: Text := [68, 82, 78, 70, 66, 79, 79, 84, 32, 50]

  datatype BootRecord = BootRecord(incarnation: nat, epoch: nat)

  /** Eight hexadecimal digits, most significant first. */
  function HexText(n: nat, width: nat): (r: Text)
    ensures |r| == width && forall k :: 0 <= k < width ==> r[k] != NEWLINE
    decreases width
  {
    if width == 0 then [] else HexText(n / 16, width - 1) + [HexDigit(n % 16)]
  }

  function MarkerSum(first: Text, second: Text): Text {
    HexText(Checksum(first + [SPACE] + second), 8)
  }

  /** What `write_boot_marker` writes. */
  function MarkerText(r: BootRecord): Text {
    var i, e := Digits(r.incarnation), Digits(r.epoch);
    MARKER_PREFIX + [NEWLINE] + (i + [NEWLINE] + (e + [NEWLINE] + (MarkerSum(i, e) + [NEWLINE])))
  }

  /** The text up to its first newline, and what follows it. */
  datatype Cut = NoLine | Cut(line: Text, rest: Text)

  function TakeLine(text: Text): Cut {
    if text == [] then NoLine
    else if text[0] == NEWLINE then Cut([], text[1..])
    else
      var c := TakeLine(text[1..]);
      if c.NoLine? then NoLine else Cut([text[0]] + c.line, c.rest)
  }

  /** `parse_decimal`: digits only, at least one, within 64 bits. */
  function Decimal(digits: Text): Option<nat> {
    if digits == [] || !AllDigits(digits) then None
    else if ValueOf(digits) > U64_MAX then None
    else Some(ValueOf(digits))
  }

  const MARKER_READ: nat := 192

  /** `peek_boot_record` on the bytes of a marker that exists: four whole lines,
      whatever stands behind them. */
  function ReadMarker(file: Text): Option<BootRecord> {
    var text := if |file| > MARKER_READ then file[..MARKER_READ] else file;
    var first := TakeLine(text);
    if first.NoLine? || first.line != MARKER_PREFIX then None else ReadNumbers(first.rest)
  }

  function ReadNumbers(text: Text): Option<BootRecord> {
    var second := TakeLine(text);
    if second.NoLine? then None
    else
      var third := TakeLine(second.rest);
      if third.NoLine? then None
      else
        var fourth := TakeLine(third.rest);
        var i, e := Decimal(second.line), Decimal(third.line);
        if fourth.NoLine? || i.None? || e.None? || fourth.line != MarkerSum(second.line, third.line) then None
        else Some(BootRecord(i.value, e.value))
  }

  /** The loop of `parse_decimal`, with its overflow checks. */
  method ParseDecimal(digits: Text) returns (value: Option<nat>)
    ensures value == Decimal(digits)
  {
    if digits == [] {
      return None;
    }
    var n: nat := 0;
    var i := 0;
    while i < |digits|
      invariant 0 <= i <= |digits| && AllDigits(digits[..i])
      invariant n == ValueOf(digits[..i]) <= U64_MAX
    {
      if !IsDigit(digits[i]) {
        return None;
      }
      var digit: int := digits[i];
      assert digits[..i + 1][..i] == digits[..i];
      if n * 10 + (digit - 48) > U64_MAX {
        if AllDigits(digits) {
          ValueGrows(digits, i + 1);
        }
        return None;
      }
      n := n * 10 + (digit - 48);
      i := i + 1;
    }
    assert digits[..i] == digits;
    value := Some(n);
  }

  lemma {:induction false} ValueGrows(digits: Text, n: nat)
    requires AllDigits(digits) && n <= |digits|
    ensures ValueOf(digits[..n]) <= ValueOf(digits)
    decreases |digits|
  {
    if n == |digits| {
      assert digits[..n] == digits;
    } else {
      var shorter := digits[..|digits| - 1];
      ValueGrows(shorter, n);
      assert shorter[..n] == digits[..n];
      assert IsDigit(digits[|digits| - 1]);
    }
  }

  // ---- Reading back, whole and torn -------------------------------------------------------------

  predicate NoNewline(s: Text) {
    forall k :: 0 <= k < |s| ==> s[k] != NEWLINE
  }

  lemma DigitsHaveNoNewline(n: nat)
    ensures NoNewline(Digits(n))
  {
    DigitsFacts(n);
  }

  lemma {:induction false} TakeWhole(head: Text, rest: Text)
    requires NoNewline(head)
    ensures TakeLine(head + [NEWLINE] + rest) == Cut(head, rest)
    decreases |head|
  {
    var text := head + [NEWLINE] + rest;
    if head == [] {
      assert text[1..] == rest;
    } else {
      assert text[1..] == head[1..] + [NEWLINE] + rest;
      TakeWhole(head[1..], rest);
      assert [head[0]] + head[1..] == head;
    }
  }

  lemma {:induction false} TakeNothing(text: Text)
    requires NoNewline(text)
    ensures TakeLine(text).NoLine?
    decreases |text|
  {
    if text != [] {
      TakeNothing(text[1..]);
    }
  }

  /** What is torn off leaves the line whole, or no line at all. */
  lemma TakeTorn(head: Text, rest: Text, n: nat)
    requires NoNewline(head) && n <= |head| + 1 + |rest|
    ensures TakeLine((head + [NEWLINE] + rest)[..n])
         == if n <= |head| then NoLine else Cut(head, rest[..n - |head| - 1])
  {
    var text := head + [NEWLINE] + rest;
    if n <= |head| {
      assert text[..n] == head[..n];
      TakeNothing(head[..n]);
    } else {
      assert text[..n] == head + [NEWLINE] + rest[..n - |head| - 1];
      TakeWhole(head, rest[..n - |head| - 1]);
    }
  }

  predicate Storable(r: BootRecord) {
    r.incarnation <= U64_MAX && r.epoch <= U64_MAX
  }

  lemma MarkerLength(r: BootRecord)
    requires Storable(r)
    ensures |MarkerText(r)| <= MARKER_READ
  {
    JsonRoundTrip.Widths(r.incarnation);
    JsonRoundTrip.Widths(r.epoch);
  }

  lemma DecimalDigits(n: nat)
    requires n <= U64_MAX
    ensures Decimal(Digits(n)) == Some(n)
  {
    DigitsFacts(n);
  }

  lemma NumbersRound(i: Text, e: Text, h: Text)
    requires NoNewline(i) && NoNewline(e) && NoNewline(h)
    ensures ReadNumbers(i + [NEWLINE] + (e + [NEWLINE] + (h + [NEWLINE])))
         == if Decimal(i).Some? && Decimal(e).Some? && h == MarkerSum(i, e)
            then Some(BootRecord(Decimal(i).value, Decimal(e).value)) else None
  {
    TakeWhole(i, e + [NEWLINE] + (h + [NEWLINE]));
    TakeWhole(e, h + [NEWLINE]);
    assert h + [NEWLINE] == h + [NEWLINE] + [];
    TakeWhole(h, []);
  }

  /** A marker that was written whole reads back as written. */
  lemma MarkerRound(r: BootRecord)
    requires Storable(r)
    ensures ReadMarker(MarkerText(r)) == Some(r)
  {
    var i, e := Digits(r.incarnation), Digits(r.epoch);
    var h := MarkerSum(i, e);
    MarkerLength(r);
    DigitsHaveNoNewline(r.incarnation);
    DigitsHaveNoNewline(r.epoch);
    TakeWhole(MARKER_PREFIX, i + [NEWLINE] + (e + [NEWLINE] + (h + [NEWLINE])));
    NumbersRound(i, e, h);
    DecimalDigits(r.incarnation);
    DecimalDigits(r.epoch);
  }

  lemma TornNumbers(i: Text, e: Text, h: Text, n: nat)
    requires NoNewline(i) && NoNewline(e) && NoNewline(h) && n < |i| + |e| + |h| + 3
    ensures ReadNumbers((i + [NEWLINE] + (e + [NEWLINE] + (h + [NEWLINE])))[..n]).None?
  {
    var t2 := h + [NEWLINE];
    var t1 := e + [NEWLINE] + t2;
    TakeTorn(i, t1, n);
    if n > |i| {
      var n1 := n - |i| - 1;
      TakeTorn(e, t2, n1);
      if n1 > |e| {
        assert t2 == h + [NEWLINE] + [];
        TakeTorn(h, [], n1 - |e| - 1);
      }
    }
  }

  /** A marker torn by a crash, at any length short of the whole, is refused. */
  lemma TornMarkerRefused(r: BootRecord, n: nat)
    requires Storable(r) && n < |MarkerText(r)|
    ensures ReadMarker(MarkerText(r)[..n]).None?
  {
    var i, e := Digits(r.incarnation), Digits(r.epoch);
    var h := MarkerSum(i, e);
    var rest := i + [NEWLINE] + (e + [NEWLINE] + (h + [NEWLINE]));
    MarkerLength(r);
    DigitsHaveNoNewline(r.incarnation);
    DigitsHaveNoNewline(r.epoch);
    TakeTorn(MARKER_PREFIX, rest, n);
    if n > |MARKER_PREFIX| {
      TornNumbers(i, e, h, n - |MARKER_PREFIX| - 1);
    }
  }

  // ---- Which markers are read ----------------------------------------------------------------

  lemma {:induction false} TakeSound(text: Text)
    requires TakeLine(text).Cut?
    ensures NoNewline(TakeLine(text).line) && text == TakeLine(text).line + [NEWLINE] + TakeLine(text).rest
    decreases |text|
  {
    if text[0] == NEWLINE {
      assert text == [] + [NEWLINE] + text[1..];
    } else {
      TakeSound(text[1..]);
      var c := TakeLine(text[1..]);
      assert text == [text[0]] + text[1..];
      assert [text[0]] + (c.line + [NEWLINE] + c.rest) == ([text[0]] + c.line) + [NEWLINE] + c.rest;
    }
  }

  /** The four lines of a marker, for the two numbers as they are written. */
  function Lines(i: Text, e: Text): Text {
    MARKER_PREFIX + [NEWLINE] + (i + [NEWLINE] + (e + [NEWLINE] + (MarkerSum(i, e) + [NEWLINE])))
  }

  /** The numbers are decimal, within 64 bits, and stand with the prefix in front and their
      checksum behind at the start of what is read of the file. */
  ghost predicate Marks(file: Text, i: Text, e: Text, r: BootRecord) {
    && Decimal(i) == Some(r.incarnation) && Decimal(e) == Some(r.epoch)
    && |Lines(i, e)| <= |file| && |Lines(i, e)| <= MARKER_READ && file[..|Lines(i, e)|] == Lines(i, e)
  }

  lemma {:induction false} NumbersSound(text: Text, r: BootRecord) returns (i: Text, e: Text, rest: Text)
    requires ReadNumbers(text) == Some(r)
    ensures Decimal(i) == Some(r.incarnation) && Decimal(e) == Some(r.epoch)
    ensures text == i + [NEWLINE] + (e + [NEWLINE] + (MarkerSum(i, e) + [NEWLINE] + rest))
  {
    var second := TakeLine(text);
    TakeSound(text);
    var third := TakeLine(second.rest);
    TakeSound(second.rest);
    var fourth := TakeLine(third.rest);
    TakeSound(third.rest);
    i, e, rest := second.line, third.line, fourth.rest;
  }

  lemma {:induction false} NumbersRead(i: Text, e: Text, rest: Text, r: BootRecord)
    requires Decimal(i) == Some(r.incarnation) && Decimal(e) == Some(r.epoch)
    ensures ReadNumbers(i + [NEWLINE] + (e + [NEWLINE] + (MarkerSum(i, e) + [NEWLINE] + rest))) == Some(r)
  {
    var h := MarkerSum(i, e);
    DecimalIsLine(i);
    DecimalIsLine(e);
    TakeWhole(i, e + [NEWLINE] + (h + [NEWLINE] + rest));
    TakeWhole(e, h + [NEWLINE] + rest);
    TakeWhole(h, rest);
  }

  lemma DecimalIsLine(s: Text)
    requires Decimal(s).Some?
    ensures NoNewline(s)
  {
    forall k | 0 <= k < |s| ensures s[k] != NEWLINE {
      assert IsDigit(s[k]);
    }
  }

  lemma {:induction false} LinesWith(i: Text, e: Text, rest: Text)
    ensures Lines(i, e) + rest
         == MARKER_PREFIX + [NEWLINE] + (i + [NEWLINE] + (e + [NEWLINE] + (MarkerSum(i, e) + [NEWLINE] + rest)))
  {
    var h := MarkerSum(i, e);
    assert (h + [NEWLINE]) + rest == h + [NEWLINE] + rest;
    assert (e + [NEWLINE] + (h + [NEWLINE])) + rest == e + [NEWLINE] + (h + [NEWLINE] + rest);
    assert (i + [NEWLINE] + (e + [NEWLINE] + (h + [NEWLINE]))) + rest
        == i + [NEWLINE] + (e + [NEWLINE] + (h + [NEWLINE] + rest));
  }

  function Head(file: Text): Text {
    if |file| > MARKER_READ then file[..MARKER_READ] else file
  }

  lemma {:induction false} MarkerSound(text: Text, r: BootRecord) returns (i: Text, e: Text, rest: Text)
    requires TakeLine(text).Cut? && TakeLine(text).line == MARKER_PREFIX && ReadNumbers(TakeLine(text).rest) == Some(r)
    ensures Decimal(i) == Some(r.incarnation) && Decimal(e) == Some(r.epoch) && text == Lines(i, e) + rest
  {
    TakeSound(text);
    i, e, rest := NumbersSound(TakeLine(text).rest, r);
    LinesWith(i, e, rest);
  }

  lemma {:induction false} MarkerComplete(text: Text, i: Text, e: Text, rest: Text, r: BootRecord)
    requires Decimal(i) == Some(r.incarnation) && Decimal(e) == Some(r.epoch) && text == Lines(i, e) + rest
    ensures TakeLine(text).Cut? && TakeLine(text).line == MARKER_PREFIX && ReadNumbers(TakeLine(text).rest) == Some(r)
  {
    LinesWith(i, e, rest);
    NumbersRead(i, e, rest, r);
    PrefixTaken(text, i + [NEWLINE] + (e + [NEWLINE] + (MarkerSum(i, e) + [NEWLINE] + rest)));
  }

  lemma {:induction false} PrefixTaken(text: Text, tail: Text)
    requires text == MARKER_PREFIX + [NEWLINE] + tail
    ensures TakeLine(text) == Cut(MARKER_PREFIX, tail)
  {
    TakeWhole(MARKER_PREFIX, tail);
  }

  lemma {:induction false} HeadStarts(file: Text, lines: Text)
    requires |lines| <= |file| && |lines| <= MARKER_READ && file[..|lines|] == lines
    ensures Head(file) == lines + Head(file)[|lines|..]
  {
    assert Head(file)[..|lines|] == file[..|lines|];
  }

  lemma {:induction false} HeadOf(file: Text, lines: Text, rest: Text)
    requires Head(file) == lines + rest
    ensures |lines| <= |file| && |lines| <= MARKER_READ && file[..|lines|] == lines
  {
    assert Head(file)[..|lines|] == lines;
  }

  /** A marker is read exactly as the numbers its four lines carry, checksum and all;
      whatever stands behind them does not matter. */
  lemma {:induction false} MarkerIff(file: Text, r: BootRecord)
    ensures ReadMarker(file) == Some(r) <==> exists i: Text, e: Text :: Marks(file, i, e, r)
  {
    if ReadMarker(file) == Some(r) {
      var i, e, rest := MarkerSound(Head(file), r);
      HeadOf(file, Lines(i, e), rest);
      assert Marks(file, i, e, r);
    }
    if i: Text, e: Text :| Marks(file, i, e, r) {
      HeadStarts(file, Lines(i, e));
      MarkerComplete(Head(file), i, e, Head(file)[|Lines(i, e)|..], r);
    }
  }

  // ---- Starts ------------------------------------------------------------------------------------

  function Max(a: nat, b: nat): nat {
    if a < b then b else a
  }

  /** The line a start computes from its boot id, the marker and the snapshot it
      loaded; none when a number space is exhausted. */
  function NextLine(bootId: nat, marker: BootRecord, snapshot: BootRecord): Option<BootRecord> {
    var highest := Max(Max(bootId, marker.incarnation), snapshot.incarnation);
    var epoch := Max(marker.epoch, snapshot.epoch);
    if highest + 1 > U64_MAX || epoch + 1 > U64_MAX then None else Some(BootRecord(highest + 1, epoch + 1))
  }

  const NOTHING: BootRecord := BootRecord(0, 0)

  /** What becomes of a start: the marker write is torn after some bytes, the
      process dies before the line is installed, or it runs. */
  datatype Fate = Torn(length: nat) | DiesAfterMarker | Runs

  /** The disk, what was ever saved, and the lines installed so far, in order. */
  datatype World = World(marker: Option<Text>, saved: set<BootRecord>, installed: seq<BootRecord>, running: bool)

  datatype BootEvent =
    | Start(bootId: nat, snapshot: Option<BootRecord>, fate: Fate)
    | SaveLine(epoch: nat)
    | Crash

  const FRESH: World := World(None, {}, [], false)

  function MarkerRecord(marker: Option<Text>): Option<BootRecord> {
    if marker.None? then Some(NOTHING) else ReadMarker(marker.value)
  }

  /** `Runtime::start` on a given world, loading any snapshot ever saved or none. */
  function StartWorld(w: World, bootId: nat, snapshot: Option<BootRecord>, fate: Fate): World {
    var marker := MarkerRecord(w.marker);
    if w.running || marker.None? || (snapshot.Some? && snapshot.value !in w.saved) then w
    else
      var line := NextLine(bootId, marker.value, if snapshot.Some? then snapshot.value else NOTHING);
      if line.None? then w
      else
        var text := MarkerText(line.value);
        match fate
        case Torn(length) => w.(marker := Some(if length < |text| then text[..length] else text))
        case DiesAfterMarker => w.(marker := Some(text))
        case Runs => w.(marker := Some(text), installed := w.installed + [line.value], running := true)
  }

  function Step(w: World, v: BootEvent): World {
    match v
    case Start(bootId, snapshot, fate) => StartWorld(w, bootId, snapshot, fate)
    case SaveLine(epoch) =>
      if w.running && w.installed != [] && epoch >= w.installed[|w.installed| - 1].epoch
      then w.(saved := w.saved + {BootRecord(w.installed[|w.installed| - 1].incarnation, epoch)}) else w
    case Crash => w.(running := false)
  }

  function Run(events: seq<BootEvent>): World {
    if events == [] then FRESH else Step(Run(events[..|events| - 1]), events[|events| - 1])
  }

  predicate Newer(a: BootRecord, b: BootRecord) {
    a.incarnation < b.incarnation && a.epoch < b.epoch
  }

  predicate NotNewer(a: BootRecord, b: BootRecord) {
    a.incarnation <= b.incarnation && a.epoch <= b.epoch
  }

  /** The marker, whenever it can be read, is at least as new as every line ever
      installed; lines were installed in strictly increasing order. */
  ghost predicate LineInv(w: World) {
    && (MarkerRecord(w.marker).Some? ==>
          forall i :: 0 <= i < |w.installed| ==> NotNewer(w.installed[i], MarkerRecord(w.marker).value))
    && (forall i, j :: 0 <= i < j < |w.installed| ==> Newer(w.installed[i], w.installed[j]))
  }

  lemma NextLineNewer(bootId: nat, marker: BootRecord, snapshot: BootRecord)
    requires NextLine(bootId, marker, snapshot).Some?
    ensures Newer(marker, NextLine(bootId, marker, snapshot).value)
    ensures Storable(NextLine(bootId, marker, snapshot).value)
  {
  }

  /** The line is one above the highest number seen anywhere, and there is none exactly when
      one of the two number spaces is used up. */
  lemma NextLineIff(bootId: nat, marker: BootRecord, snapshot: BootRecord, line: BootRecord)
    ensures NextLine(bootId, marker, snapshot) == Some(line) <==>
              && bootId < line.incarnation && marker.incarnation < line.incarnation
              && snapshot.incarnation < line.incarnation && marker.epoch < line.epoch && snapshot.epoch < line.epoch
              && line.incarnation - 1 in {bootId, marker.incarnation, snapshot.incarnation}
              && line.epoch - 1 in {marker.epoch, snapshot.epoch} && Storable(line)
  {
  }

  lemma WrittenMarker(line: BootRecord, length: nat)
    requires Storable(line)
    ensures MarkerRecord(Some(MarkerText(line))) == Some(line)
    ensures length < |MarkerText(line)| ==> MarkerRecord(Some(MarkerText(line)[..length])).None?
  {
    MarkerRound(line);
    if length < |MarkerText(line)| {
      TornMarkerRefused(line, length);
    }
  }

  lemma InstalledBelow(installed: seq<BootRecord>, marker: BootRecord, line: BootRecord)
    requires forall i :: 0 <= i < |installed| ==> NotNewer(installed[i], marker)
    requires forall i, j :: 0 <= i < j < |installed| ==> Newer(installed[i], installed[j])
    requires Newer(marker, line)
    ensures forall i :: 0 <= i < |installed| ==> Newer(installed[i], line)
    ensures var all := installed + [line];
            forall i, j :: 0 <= i < j < |all| ==> Newer(all[i], all[j])
  {
    forall i | 0 <= i < |installed| ensures Newer(installed[i], line) {
      assert NotNewer(installed[i], marker);
    }
  }

  lemma StartKeepsLine(w: World, bootId: nat, snapshot: Option<BootRecord>, fate: Fate)
    requires LineInv(w)
    ensures LineInv(StartWorld(w, bootId, snapshot, fate))
  {
    var marker := MarkerRecord(w.marker);
    if !w.running && marker.Some? && !(snapshot.Some? && snapshot.value !in w.saved) {
      var loaded := if snapshot.Some? then snapshot.value else NOTHING;
      var line := NextLine(bootId, marker.value, loaded);
      if line.Some? {
        NextLineNewer(bootId, marker.value, loaded);
        InstalledBelow(w.installed, marker.value, line.value);
        FateKeepsLine(w, line.value, fate, StartWorld(w, bootId, snapshot, fate));
      }
    }
  }

  /** Whatever becomes of the marker write, what can be read is not older than any line. */
  lemma FateKeepsLine(w: World, line: BootRecord, fate: Fate, w': World)
    requires Storable(line) && (forall i :: 0 <= i < |w.installed| ==> Newer(w.installed[i], line))
    requires forall i, j :: 0 <= i < j < |w.installed| ==> Newer(w.installed[i], w.installed[j])
    requires match fate
             case Torn(length) =>
               var text := MarkerText(line);
               w' == w.(marker := Some(if length < |text| then text[..length] else text))
             case DiesAfterMarker => w' == w.(marker := Some(MarkerText(line)))
             case Runs => w' == w.(marker := Some(MarkerText(line)), installed := w.installed + [line], running := true)
    ensures LineInv(w')
  {
    WrittenMarker(line, if fate.Torn? then fate.length else 0);
  }

  lemma {:induction false} LineHolds(events: seq<BootEvent>)
    ensures LineInv(Run(events))
    decreases |events|
  {
    if events != [] {
      LineHolds(events[..|events| - 1]);
      var v := events[|events| - 1];
      if v.Start? {
        StartKeepsLine(Run(events[..|events| - 1]), v.bootId, v.snapshot, v.fate);
      }
    }
  }

  /** Over any sequence of starts, saves, crashes, torn marker writes and
      recoveries from any earlier snapshot, each line a start installs is
      strictly newer, in incarnation and in epoch, than every one before it. */
  lemma StartsOnlyAdvance(events: seq<BootEvent>, i: nat, j: nat)
    requires i < j < |Run(events).installed|
    ensures Newer(Run(events).installed[i], Run(events).installed[j])
  {
    LineHolds(events);
  }

  /** A token of an earlier start is never accepted by the registry of a later one,
      whatever that registry holds under the same number. */
  lemma EarlierTokensStayDead(events: seq<BootEvent>, i: nat, j: nat, reg: Au.Registry, t: Au.Token, now: Time)
    requires i < j < |Run(events).installed|
    requires t.incarnation == Run(events).installed[i].incarnation
    requires reg.incarnation == Run(events).installed[j].incarnation
    ensures Au.Check(reg, t, now) != Au.Accepted
  {
    StartsOnlyAdvance(events, i, j);
  }

  /** The line a start computes is always accepted by the registry it meets: a
      fresh one, or one recovered from the snapshot that was loaded. */
  lemma LineInstalls(bootId: nat, marker: BootRecord, snapshot: BootRecord, reg: Au.Registry)
    requires NextLine(bootId, marker, snapshot).Some?
    requires reg == Au.EMPTY || (reg.incarnation <= snapshot.incarnation && reg.epoch <= snapshot.epoch)
    ensures var line := NextLine(bootId, marker, snapshot).value;
            && Au.InstallLine(reg, line.incarnation, line.epoch).Some?
            && Au.InstallLine(reg, line.incarnation, line.epoch).value.incarnation == line.incarnation
            && Au.InstallLine(reg, line.incarnation, line.epoch).value.epoch == line.epoch
  {
  }

  // ---- As it runs -----------------------------------------------------------------------------------

  class Runtime {
    var marker: Option<Text>
    var line: BootRecord
    var started: bool

    constructor (marker: Option<Text>)
      ensures this.marker == marker && !started && line == NOTHING
    {
      this.marker := marker;
      line := NOTHING;
      started := false;
    }

    /** Raises running maxima over boot id, marker and snapshot, writes the marker,
        then takes the line. */
    method Begin(bootId: nat, snapshot: Option<BootRecord>) returns (ok: bool)
      modifies this
      ensures var read := MarkerRecord(old(marker));
              var loaded := if snapshot.Some? then snapshot.value else NOTHING;
              if old(started) then ok && marker == old(marker) && line == old(line) && started
              else if read.None? || NextLine(bootId, read.value, loaded).None? then
                !ok && marker == old(marker) && line == old(line) && !started
              else
                && ok && started && line == NextLine(bootId, read.value, loaded).value
                && marker == Some(MarkerText(line))
    {
      if started {
        return true;
      }
      var record := MarkerRecord(marker);
      if record.None? {
        return false;
      }
      var highest, highestEpoch := Maxima(bootId, record.value, if snapshot.Some? then snapshot.value else NOTHING);
      if highest >= U64_MAX || highestEpoch >= U64_MAX {
        return false;
      }
      line := BootRecord(highest + 1, highestEpoch + 1);
      marker := Some(MarkerText(line));
      started := true;
      ok := true;
    }
  }

  /** The running maxima of a start. */
  method Maxima(bootId: nat, marker: BootRecord, snapshot: BootRecord) returns (highest: nat, epoch: nat)
    ensures highest == Max(Max(bootId, marker.incarnation), snapshot.incarnation)
    ensures epoch == Max(marker.epoch, snapshot.epoch)
  {
    highest, epoch := bootId, 0;
    if marker.incarnation > highest {
      highest := marker.incarnation;
    }
    if marker.epoch > epoch {
      epoch := marker.epoch;
    }
    if snapshot.incarnation > highest {
      highest := snapshot.incarnation;
    }
    if snapshot.epoch > epoch {
      epoch := snapshot.epoch;
    }
  }
}
