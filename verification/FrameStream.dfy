/** Reassembly of frames from a byte stream that arrives in arbitrary pieces. */
module FrameStream {
  import opened Identity
  import opened Crc32c
  import opened Bytes
  import opened Wire

  /** What one wait on the socket reports: nothing yet, some bytes ready, or the end. */
  datatype Arrival = Quiet | Ready(count: nat) | Gone | Broken

  datatype Outcome = GotFrame(frame: Frame) | TimedOut | Closed | Failed | ProtocolError

  // ---- The head of a stream ------------------------------------------------------------------

  /** Enough bytes for the header and the payload it announces, within the bound. */
  predicate Complete(stream: seq<Byte>, max: nat) {
    && |stream| >= HEADER_BYTES && LengthField(stream) <= max
    && |stream| >= HEADER_BYTES + LengthField(stream)
  }

  function Head(stream: seq<Byte>, max: nat): seq<Byte>
    requires Complete(stream, max)
  {
    stream[..HEADER_BYTES + LengthField(stream)]
  }

  /** The stream cannot start with a frame. */
  predicate Malformed(stream: seq<Byte>, max: nat) {
    && |stream| >= HEADER_BYTES
    && (LengthField(stream) > max || (Complete(stream, max) && Decode(Head(stream, max), max).None?))
  }

  /** The bytes at hand settle the matter one way or the other. */
  predicate Decided(have: seq<Byte>, max: nat) {
    Complete(have, max) || (|have| >= HEADER_BYTES && LengthField(have) > max)
  }

  lemma LengthOfPrefix(a: seq<Byte>, b: seq<Byte>)
    requires |a| >= HEADER_BYTES
    ensures LengthField(a + b) == LengthField(a)
  {
    assert (a + b)[12..16] == a[12..16];
  }

  /** What the first bytes decide, the whole stream decides. */
  lemma CompletePrefix(a: seq<Byte>, b: seq<Byte>, max: nat)
    requires Complete(a, max)
    ensures Complete(a + b, max) && Head(a + b, max) == Head(a, max)
  {
    LengthOfPrefix(a, b);
    assert (a + b)[..HEADER_BYTES + LengthField(a)] == a[..HEADER_BYTES + LengthField(a)];
  }

  lemma LengthAtHand(have: seq<Byte>, pending: seq<Byte>, field: seq<Byte>)
    requires |have| >= HEADER_BYTES && field == have[12..16]
    ensures LengthField(have) == FromLittle(field) == LengthField(have + pending)
  {
    LengthOfPrefix(have, pending);
  }

  lemma HeadAtHand(have: seq<Byte>, pending: seq<Byte>, max: nat, image: seq<Byte>)
    requires Complete(have, max) && image == have[..HEADER_BYTES + LengthField(have)]
    ensures Complete(have + pending, max) && Head(have + pending, max) == image
    ensures (have + pending)[..|image|] == image
  {
    CompletePrefix(have, pending, max);
  }

  lemma SplitAt(all: seq<Byte>, n: nat)
    requires n <= |all|
    ensures all == all[..n] + all[n..]
  {
  }

  /** An encoded frame at the head of a stream is found and decoded. */
  lemma EncodedHead(f: Frame, rest: seq<Byte>, max: nat)
    requires Encodable(f) && Acceptable(f) && Encode(f, max).Some?
    ensures var image := Encode(f, max).value;
            && Complete(image + rest, max) && Head(image + rest, max) == image
            && Decode(image, max) == Some(Received(f)) && !Malformed(image + rest, max)
            && |image| >= HEADER_BYTES
  {
    var image := Encode(f, max).value;
    var payload := Json.Dump(f.payload, 0, 0);
    ImageIntact(f.kind, f.sequence, payload, max);
    LengthOfPrefix(image, rest);
    assert (image + rest)[..|image|] == image;
    DecodeEncode(f, max);
  }

  // ---- What the socket will report -------------------------------------------------------------

  /** How many waits will pass without a byte. */
  function Quiets(script: seq<Arrival>): nat {
    if script == [] then 0 else (if script[0].Quiet? then 1 else 0) + Quiets(script[1..])
  }

  /** How many bytes the socket will report ready before the peer leaves, a read fails
      or a read comes back empty. */
  function Brought(script: seq<Arrival>): nat {
    if script == [] then 0
    else match script[0]
      case Quiet => Brought(script[1..])
      case Ready(count) => if count == 0 then 0 else count + Brought(script[1..])
      case Gone => 0
      case Broken => 0
  }

  /** Every byte in flight will be reported, in whatever chunks and after whatever
      pauses. */
  predicate Ample(script: seq<Arrival>, pending: seq<Byte>) {
    Brought(script) >= |pending|
  }

  /** What the script still holds after one entry of it brought `ready` bytes and
      `read` of them were taken: the others stay readable. */
  function Left(script: seq<Arrival>, ready: nat, read: nat): seq<Arrival>
    requires script != []
  {
    if read < ready then [Ready(ready - read)] + script[1..] else script[1..]
  }

  lemma LeftFacts(script: seq<Arrival>, pending: seq<Byte>, ready: nat, read: nat)
    requires script != [] && script[0].Ready? && read <= ready <= |pending|
    requires ready == if script[0].count < |pending| then script[0].count else |pending|
    requires ready > 0 ==> read > 0
    ensures Ample(script, pending) ==> Ample(Left(script, ready, read), pending[read..])
    ensures Quiets(Left(script, ready, read)) == Quiets(script)
  {
    var left := Left(script, ready, read);
    if read < ready {
      assert left[1..] == script[1..];
    }
  }

  lemma QuietFacts(script: seq<Arrival>, pending: seq<Byte>)
    requires script != [] && script[0].Quiet?
    ensures Ample(script, pending) ==> Ample(script[1..], pending)
    ensures Quiets(script) == 1 + Quiets(script[1..])
  {
  }

  /** What is left of a script: an end of it, perhaps behind the rest of a chunk that
      is still to be read. */
  predicate RestOf(all: seq<Arrival>, rest: seq<Arrival>, n: nat, pending: seq<Byte>) {
    && n <= |all|
    && (rest == all[n..]
        || (rest != [] && rest[0].Ready? && 0 < rest[0].count <= |pending| && rest[1..] == all[n..]))
  }

  /** A report that ends the stream: the peer left, or a read gave nothing. */
  predicate EndsAt(arrival: Arrival, pending: seq<Byte>) {
    arrival.Gone? || arrival == Ready(0) || (arrival.Ready? && pending == [])
  }

  /** Why an open stream ends: the script is over, or its last used entry is a broken
      read, the peer leaving, or an empty read. */
  predicate EndsFor(all: seq<Arrival>, left: seq<Arrival>, pending: seq<Byte>, outcome: Outcome) {
    (left == [] && outcome == Closed)
    || (&& |left| < |all| && left == all[|all| - |left|..]
        && (if outcome == Failed then all[|all| - |left| - 1].Broken?
            else outcome == Closed && EndsAt(all[|all| - |left| - 1], pending)))
  }

  /** Nothing but a used-up budget held the frame back, and a budget that is not zero
      used up a pause. */
  predicate Spent(frame: Option<Frame>, wait: int, before: nat, after: nat) {
    after <= before && (frame.None? ==> wait >= 0 && (wait > 0 ==> after < before))
  }

  /** How long one wait on the socket lasts. */
  function Slice(wait: int): int {
    if wait <= 0 then 1 else if wait > 50 then 50 else wait
  }

  lemma OneMoreSlice(quiets: nat, slice: int)
    ensures (quiets + 1) * slice == quiets * slice + slice
  {
  }

  // ---- The stream object -----------------------------------------------------------------------

  class FrameStream {
    const max: nat
    const buffer: array<Byte>
    var buffered: nat
    var closed: bool
    /** The socket: bytes in flight, and what each coming wait will report. */
    var pending: seq<Byte>
    var script: seq<Arrival>

    ghost predicate Valid()
      reads this
    {
      buffer.Length == HEADER_BYTES + max && buffered <= buffer.Length
    }

    /** The bytes sent and not yet handed out as frames. */
    ghost function Stream(): seq<Byte>
      requires Valid()
      reads this, buffer
    {
      buffer[..buffered] + pending
    }

    constructor (max: nat, pending: seq<Byte>, script: seq<Arrival>)
      ensures Valid() && fresh(buffer) && this.max == max && !closed && Stream() == pending && this.script == script
    {
      this.max := max;
      buffer := new Byte[HEADER_BYTES + max](_ => 0);
      buffered := 0;
      closed := false;
      this.pending := pending;
      this.script := script;
      new;
      assert buffer[..0] + pending == pending;
    }

    /** Copies ready bytes behind the buffered ones. */
    method Receive(count: nat)
      requires Valid() && count <= |pending| && buffered + count <= buffer.Length
      modifies this`buffered, this`pending, buffer
      ensures Valid() && Stream() == old(Stream()) && buffered == old(buffered) + count
      ensures pending == old(pending)[count..]
    {
      ghost var was := buffer[..buffered];
      var i := 0;
      while i < count
        invariant 0 <= i <= count
        invariant buffer[..buffered + i] == was + pending[..i]
        modifies buffer
      {
        buffer[buffered + i] := pending[i];
        i := i + 1;
      }
      assert pending == pending[..count] + pending[count..];
      assert was + pending == was + pending[..count] + pending[count..];
      buffered := buffered + count;
      pending := pending[count..];
    }

    /** Drops the first bytes of the buffer and moves the others down. */
    method Shift(count: nat)
      requires Valid() && count <= buffered
      modifies this`buffered, buffer
      ensures Valid() && Stream() == old(Stream())[count..] && buffered == old(buffered) - count
    {
      ghost var was := buffer[..buffered];
      var left := buffered - count;
      var i := 0;
      while i < left
        invariant 0 <= i <= left
        invariant forall k :: 0 <= k < i ==> buffer[k] == was[k + count]
        invariant forall k :: i <= k < buffered ==> buffer[k] == was[k]
        modifies buffer
      {
        buffer[i] := buffer[i + count];
        i := i + 1;
      }
      buffered := left;
      assert buffer[..buffered] == was[count..];
      assert (was + pending)[count..] == was[count..] + pending;
    }

    /** Tries to take a frame out of what is buffered. */
    method TryDecode() returns (outcome: Option<Outcome>)
      requires Valid() && !closed
      modifies this`buffered, this`closed, buffer
      ensures Valid()
      ensures outcome.None? ==> Stream() == old(Stream()) && !closed && buffered < buffer.Length
      ensures outcome.None? <==> !Decided(old(buffer[..buffered]), max)
      ensures outcome.None? ==> buffer[..buffered] == old(buffer[..buffered])
      ensures outcome.Some? ==> outcome.value.GotFrame? || outcome.value == ProtocolError
      ensures outcome.Some? && outcome.value.GotFrame? ==>
                && !closed && Complete(old(Stream()), max)
                && Decode(Head(old(Stream()), max), max) == Some(outcome.value.frame)
                && old(Stream()) == Head(old(Stream()), max) + Stream()
      ensures outcome == Some(ProtocolError) ==> closed && Malformed(old(Stream()), max) && Stream() == old(Stream())
    {
      ghost var have := buffer[..buffered];
      ghost var all := Stream();
      if buffered < HEADER_BYTES {
        return None;
      }
      var length := FromLittle(buffer[12..16]);
      LengthAtHand(have, pending, buffer[12..16]);
      if length > max {
        closed := true;
        return Some(ProtocolError);
      }
      var total := HEADER_BYTES + length;
      if buffered < total {
        return None;
      }
      var image := buffer[..total];
      HeadAtHand(have, pending, max, image);
      var decoded := Decode(image, max);
      if decoded.None? {
        closed := true;
        return Some(ProtocolError);
      }
      Shift(total);
      SplitAt(all, total);
      outcome := Some(GotFrame(decoded.value));
    }

    /** One wait on the socket and, when it reports bytes, one read. What does not fit
        the buffer stays readable. */
    method TakeArrival() returns (ended: Option<Outcome>)
      requires Valid() && !closed && script != [] && buffered < buffer.Length
      modifies this`buffered, this`closed, this`pending, this`script, buffer
      ensures Valid() && Stream() == old(Stream()) && closed == ended.Some?
      ensures ended.Some? ==> ended.value == Closed || ended.value == Failed
      ensures ended.Some? ==>
                && script == old(script)[1..] && pending == old(pending)
                && buffer[..buffered] == old(buffer[..buffered])
      ensures ended == Some(Failed) <==> old(script)[0].Broken?
      ensures ended == Some(Closed) ==> EndsAt(old(script)[0], pending)
      ensures |pending| < |old(pending)| || (|pending| == |old(pending)| && |script| < |old(script)|)
      ensures ended.None? ==> RestOf(old(script), script, 1, pending)
      ensures Quiets(script) == Quiets(old(script)) - (if old(script)[0].Quiet? then 1 else 0)
      ensures Ample(old(script), old(pending)) ==> Ample(script, pending)
      ensures Ample(old(script), old(pending)) && old(pending) != [] ==> ended.None?
    {
      var arrival := script[0];
      match arrival {
        case Quiet =>
          QuietFacts(script, pending);
          script := script[1..];
          ended := None;
        case Gone =>
          script := script[1..];
          closed := true;
          ended := Some(Closed);
        case Broken =>
          script := script[1..];
          closed := true;
          ended := Some(Failed);
        case Ready(count) =>
          ended := TakeReady(count);
      }
    }

    /** A read of at most what is ready and what fits. */
    method TakeReady(count: nat) returns (ended: Option<Outcome>)
      requires Valid() && !closed && script != [] && buffered < buffer.Length && script[0] == Ready(count)
      modifies this`buffered, this`closed, this`pending, this`script, buffer
      ensures Valid() && Stream() == old(Stream()) && closed == ended.Some? && RestOf(old(script), script, 1, pending)
      ensures ended.Some? <==> count == 0 || old(pending) == []
      ensures ended.Some? ==>
                && ended.value == Closed && script == old(script)[1..] && pending == old(pending)
                && buffer[..buffered] == old(buffer[..buffered])
      ensures ended.None? ==> |pending| < |old(pending)|
      ensures Quiets(script) == Quiets(old(script))
      ensures Ample(old(script), old(pending)) ==> Ample(script, pending)
    {
      // There is always room: the exit for a full buffer is never taken.
      var space := buffer.Length - buffered;
      var ready := if count < |pending| then count else |pending|;
      var received := if ready < space then ready else space;
      LeftFacts(script, pending, ready, received);
      script := Left(script, ready, received);
      if received == 0 {
        closed := true;
        return Some(Closed);
      }
      Receive(received);
      ended := None;
    }

    /** One wait while nothing is decided yet. It ends the stream only for a reason the
        socket reported, and never while a frame at the head is still coming. */
    method Await(ghost all: seq<Arrival>, ghost sent: seq<Byte>, ghost n: nat, ghost quiets: nat)
      returns (ended: Option<Outcome>, quiet: bool, ghost n': nat)
      requires Valid() && !closed && buffered < buffer.Length && !Decided(buffer[..buffered], max)
      requires Along(all, sent, script, pending, n, quiets)
      modifies this`buffered, this`closed, this`pending, this`script, buffer
      ensures Valid() && Stream() == old(Stream()) && closed == ended.Some?
      ensures Along(all, sent, script, pending, n', quiets + if quiet then 1 else 0)
      ensures ended.None? ==>
                |pending| < |old(pending)| || (|pending| == |old(pending)| && |script| < |old(script)|)
      ensures ended.Some? ==>
                buffer[..buffered] == old(buffer[..buffered]) && EndsFor(all, script, pending, ended.value)
      ensures Ample(all, sent) && Decided(Stream(), max) ==> ended.None?
    {
      AllArrived(buffer[..buffered], pending, script, max);
      if script == [] {
        closed := true;
        return Some(Closed), false, n;
      }
      quiet := script[0].Quiet?;
      ghost var before, held := script, pending;
      ended := TakeArrival();
      n' := AlongNext(all, sent, before, held, n, quiets, script, pending, ended.None?);
    }

    /** `receive_frame`. A negative budget waits for as long as it takes. A frame is
        the head of the stream and no other outcome loses a byte. Each refusal has its
        reason in what the socket reported; without such a report and with the bytes
        on their way, a frame at the head of the stream is handed out. */
    method ReceiveFrame(wait: int) returns (outcome: Outcome)
      requires Valid()
      modifies this`buffered, this`closed, this`pending, this`script, buffer
      ensures Valid()
      ensures outcome.GotFrame? ==>
                && Complete(old(Stream()), max)
                && Decode(Head(old(Stream()), max), max) == Some(outcome.frame)
                && old(Stream()) == Head(old(Stream()), max) + Stream()
      ensures outcome == ProtocolError ==> Malformed(old(Stream()), max)
      ensures !outcome.GotFrame? ==> Stream() == old(Stream())
      ensures closed == (old(closed) || (!outcome.GotFrame? && outcome != TimedOut))
      ensures !old(closed) && Decided(old(buffer[..buffered]), max) ==> outcome.GotFrame? || outcome == ProtocolError
      ensures !old(closed) && !outcome.GotFrame? && outcome != ProtocolError ==> !Decided(buffer[..buffered], max)
      ensures outcome == TimedOut ==>
                && wait >= 0 && Quiets(script) <= Quiets(old(script))
                && (Quiets(old(script)) - Quiets(script)) * Slice(wait) >= wait
      ensures !old(closed) && (outcome == Failed || outcome == Closed) ==>
                EndsFor(old(script), script, pending, outcome)
      ensures old(closed) ==> outcome == Closed
      ensures Quiets(script) <= Quiets(old(script))
      ensures Ample(old(script), old(pending)) ==> Ample(script, pending)
      ensures !old(closed) && Ample(old(script), old(pending)) && Decided(old(Stream()), max) ==>
                outcome.GotFrame? || outcome == ProtocolError || outcome == TimedOut
    {
      if closed {
        return Closed;
      }
      var slice := if wait <= 0 then 1 else if wait > 50 then 50 else wait;
      var remaining := wait;
      ghost var all, sent, stream, have := script, pending, Stream(), buffer[..buffered];
      ghost var n, quiets := 0, 0;
      while true
        invariant Valid() && !closed && Stream() == stream
        invariant Along(all, sent, script, pending, n, quiets)
        invariant wait >= 0 ==> remaining == wait - quiets * slice
        invariant Decided(have, max) ==> buffer[..buffered] == have
        decreases |pending|, |script|
      {
        var decoded := TryDecode();
        if decoded.Some? {
          return decoded.value;
        }
        if wait >= 0 && remaining <= 0 {
          return TimedOut;
        }
        var ended, quiet;
        ended, quiet, n := Await(all, sent, n, quiets);
        if ended.Some? {
          return ended.value;
        }
        if quiet {
          OneMoreSlice(quiets, slice);
          quiets := quiets + 1;
          if wait >= 0 {
            remaining := remaining - slice;
          }
        }
      }
    }

    /** One receive on a stream whose head is known: that frame, or none yet. While
        the bytes keep coming, only the end of the wait budget holds a frame back, and
        each budget that is not zero uses up a pause. */
    method ReceiveNext(ghost first: Option<Frame>, ghost after: seq<Byte>, wait: int) returns (frame: Option<Frame>)
      requires Valid() && Starts(Stream(), first, after, max)
      modifies this`buffered, this`closed, this`pending, this`script, buffer
      ensures Valid()
      ensures frame.None? ==> Stream() == old(Stream())
      ensures frame.Some? ==> frame == first && Stream() == after
      ensures !old(closed) && Decided(old(buffer[..buffered]), max) ==> frame.Some?
      ensures !old(closed) && Ample(old(script), old(pending)) && first.Some? ==>
                !closed && Ample(script, pending) && Spent(frame, wait, Quiets(old(script)), Quiets(script))
    {
      ghost var stream := Stream();
      var outcome := ReceiveFrame(wait);
      frame := None;
      if outcome.GotFrame? {
        Cancel(Head(stream, max), Stream(), after);
        frame := Some(outcome.frame);
      } else if outcome == TimedOut && wait > 0 {
        PauseUsed(Quiets(old(script)) - Quiets(script), Slice(wait), wait);
      }
    }

    /** The same on a stream whose frames are all known, n of them handed out. */
    method ReceiveTurn(ghost expected: seq<Frame>, ghost tails: seq<seq<Byte>>, ghost n: nat, wait: int)
      returns (frame: Option<Frame>)
      requires Valid() && Linked(expected, tails, max) && n <= |expected| && Stream() == tails[n]
      modifies this`buffered, this`closed, this`pending, this`script, buffer
      ensures Valid() && (frame.None? ==> Stream() == tails[n])
      ensures frame.Some? ==> n < |expected| && frame.value == expected[n] && Stream() == tails[n + 1]
      ensures !old(closed) && Ample(old(script), old(pending)) && n < |expected| ==>
                !closed && Ample(script, pending) && Spent(frame, wait, Quiets(old(script)), Quiets(script))
    {
      ghost var first := if n < |expected| then Some(expected[n]) else None;
      ghost var after := if n < |expected| then tails[n + 1] else [];
      LinkedAt(expected, tails, max, n, first, after);
      frame := ReceiveNext(first, after, wait);
    }

    /** Receives once for each wait from such a stream. */
    method ReceiveEach(ghost expected: seq<Frame>, ghost tails: seq<seq<Byte>>, waits: seq<int>)
      returns (frames: seq<Frame>)
      requires Valid() && Linked(expected, tails, max) && Stream() == tails[0]
      modifies this`buffered, this`closed, this`pending, this`script, buffer
      ensures Valid() && |frames| <= |expected| && frames == expected[..|frames|] && Stream() == tails[|frames|]
      ensures !old(closed) && Ample(old(script), old(pending)) ==>
                Patience(waits) >= |expected| + Quiets(old(script)) ==> |frames| == |expected|
    {
      frames := [];
      ghost var n := 0;
      ghost var steady := !closed && Ample(script, pending) && Patience(waits) >= |expected| + Quiets(script);
      var i := 0;
      assert waits[0..] == waits;
      while i < |waits|
        invariant 0 <= i <= |waits| && n <= |expected| && frames == expected[..n]
        invariant Valid() && Stream() == tails[n]
        invariant steady && n < |expected| ==> !closed && Ample(script, pending)
        invariant steady && n < |expected| ==> Patience(waits[i..]) >= |expected| - n + Quiets(script)
      {
        PatienceNext(waits, i);
        var next := ReceiveTurn(expected, tails, n, waits[i]);
        if next.Some? {
          OneMore(expected, n);
          frames := frames + [next.value];
          n := n + 1;
        }
        i := i + 1;
      }
    }

    /** Receives once for each wait. Whatever the chunks and the pauses were, the
        frames come out in order and the rest of the bytes is still there. While the
        bytes keep coming, one wait that is not zero for each frame and each pause is
        enough to hand out every frame sent. */
    method ReceiveAll(ghost sent: seq<Frame>, waits: seq<int>) returns (frames: seq<Frame>)
      requires Valid() && Sendable(sent, max) && Stream() == EncodeAll(sent, max)
      modifies this`buffered, this`closed, this`pending, this`script, buffer
      ensures Valid() && |frames| <= |sent|
      ensures forall i :: 0 <= i < |frames| ==> frames[i] == Received(sent[i])
      ensures Sendable(sent[|frames|..], max) && Stream() == EncodeAll(sent[|frames|..], max)
      ensures !old(closed) && Ample(old(script), old(pending)) && Patience(waits) >= |sent| + Quiets(old(script)) ==>
                |frames| == |sent|
    {
      ghost var expected, tails := Receipts(sent), Tails(sent, max);
      TailsLinked(sent, max);
      frames := ReceiveEach(expected, tails, waits);
      TailIs(sent, max, |frames|);
      forall i | 0 <= i < |frames| ensures frames[i] == Received(sent[i]) {
        ReceiptIs(sent, i);
      }
    }
  }

  /** A stream that begins with the given frame and goes on with the given bytes, or
      is empty. */
  ghost predicate Starts(stream: seq<Byte>, first: Option<Frame>, after: seq<Byte>, max: nat) {
    if first.None? then stream == []
    else Complete(stream, max) && Decode(Head(stream, max), max) == first && stream == Head(stream, max) + after
  }

  /** What is left of the stream before each frame and at the end. */
  ghost predicate Linked(expected: seq<Frame>, tails: seq<seq<Byte>>, max: nat) {
    && |tails| == |expected| + 1 && Starts(tails[|expected|], None, [], max)
    && forall i :: 0 <= i < |expected| ==> Starts(tails[i], Some(expected[i]), tails[i + 1], max)
  }

  lemma LinkedAt(expected: seq<Frame>, tails: seq<seq<Byte>>, max: nat, n: nat, first: Option<Frame>, after: seq<Byte>)
    requires Linked(expected, tails, max) && n <= |expected|
    requires first == if n < |expected| then Some(expected[n]) else None
    requires after == if n < |expected| then tails[n + 1] else []
    ensures Starts(tails[n], first, after, max)
  {
  }

  lemma OneMore(expected: seq<Frame>, n: nat)
    requires n < |expected|
    ensures expected[..n + 1] == expected[..n] + [expected[n]]
  {
  }

  /** When every byte has arrived the buffer decides what the stream decides. */
  lemma AllArrived(have: seq<Byte>, pending: seq<Byte>, script: seq<Arrival>, max: nat)
    ensures !Decided(have, max) && Ample(script, pending) && Decided(have + pending, max) ==>
              pending != [] && script != []
  {
    if pending == [] {
      assert have + pending == have;
    }
  }

  /** Where the receiver stands in the script: what is left of it, how many pauses it
      used, and that it still brings every byte if it did at the start. */
  predicate Along(all: seq<Arrival>, sent: seq<Byte>, rest: seq<Arrival>, pending: seq<Byte>, n: nat, quiets: nat) {
    && RestOf(all, rest, n, pending) && Quiets(rest) + quiets == Quiets(all)
    && (Ample(all, sent) ==> Ample(rest, pending))
  }

  /** One entry further. */
  lemma AlongNext(all: seq<Arrival>, sent: seq<Byte>, rest: seq<Arrival>, pending: seq<Byte>, n: nat, quiets: nat,
                  rest': seq<Arrival>, pending': seq<Byte>, goesOn: bool) returns (n': nat)
    requires Along(all, sent, rest, pending, n, quiets) && rest != []
    requires if goesOn then RestOf(rest, rest', 1, pending') else rest' == rest[1..] && pending' == pending
    requires !goesOn ==> rest[0].Broken? || EndsAt(rest[0], pending)
    requires Quiets(rest') == Quiets(rest) - (if rest[0].Quiet? then 1 else 0)
    requires Ample(rest, pending) ==> Ample(rest', pending')
    ensures Along(all, sent, rest', pending', n', quiets + (if rest[0].Quiet? then 1 else 0))
    ensures !goesOn ==>
              && |rest'| < |all| && rest' == all[|all| - |rest'|..]
              && all[|all| - |rest'| - 1] == rest[0]
  {
    n' := n;
    if rest == all[n..] {
      n' := n + 1;
      assert rest[1..] == all[n + 1..] && rest[0] == all[n];
    }
  }

  /** How many of the waits give the socket a chance: a zero budget only looks at
      what is buffered. */
  function Patience(waits: seq<int>): nat {
    if waits == [] then 0 else (if waits[0] != 0 then 1 else 0) + Patience(waits[1..])
  }

  lemma PatienceNext(waits: seq<int>, i: nat)
    requires i < |waits|
    ensures Patience(waits[i..]) == (if waits[i] != 0 then 1 else 0) + Patience(waits[i + 1..])
  {
    assert waits[i..][1..] == waits[i + 1..];
  }

  // ---- Several frames --------------------------------------------------------------------------------

  ghost predicate Sendable(frames: seq<Frame>, max: nat) {
    forall i :: 0 <= i < |frames| ==> CanSend(frames[i], max)
  }

  predicate CanSend(f: Frame, max: nat) {
    Encodable(f) && Acceptable(f) && Encode(f, max).Some?
  }

  /** What the sender wrote: the images one after the other. */
  ghost function EncodeAll(frames: seq<Frame>, max: nat): seq<Byte>
    requires Sendable(frames, max)
  {
    if frames == [] then []
    else
      assert CanSend(frames[0], max);
      Encode(frames[0], max).value + EncodeAll(frames[1..], max)
  }

  /** The first frame of what is left is all a receiver can find there. */
  lemma HeadOfRest(rest: seq<Frame>, max: nat)
    requires Sendable(rest, max)
    ensures var stream := EncodeAll(rest, max);
            && !Malformed(stream, max)
            && (rest != [] ==> Complete(stream, max))
            && (Complete(stream, max) ==>
                  && rest != [] && CanSend(rest[0], max)
                  && stream == Encode(rest[0], max).value + EncodeAll(rest[1..], max)
                  && Head(stream, max) == Encode(rest[0], max).value
                  && Decode(Head(stream, max), max) == Some(Received(rest[0])))
  {
    if rest != [] {
      assert CanSend(rest[0], max);
      EncodedHead(rest[0], EncodeAll(rest[1..], max), max);
    }
  }

  ghost function Receipts(sent: seq<Frame>): seq<Frame> {
    if sent == [] then [] else [Received(sent[0])] + Receipts(sent[1..])
  }

  lemma {:induction false} ReceiptIs(sent: seq<Frame>, i: nat)
    requires i < |sent|
    ensures |Receipts(sent)| == |sent| && Receipts(sent)[i] == Received(sent[i])
    decreases |sent|
  {
    if |sent| > 1 {
      ReceiptIs(sent[1..], if i > 0 then i - 1 else 0);
    }
  }

  ghost function Tails(sent: seq<Frame>, max: nat): seq<seq<Byte>>
    requires Sendable(sent, max)
  {
    [EncodeAll(sent, max)] + if sent == [] then [] else Tails(sent[1..], max)
  }

  lemma TailsCons(sent: seq<Frame>, max: nat)
    requires Sendable(sent, max) && sent != []
    ensures Tails(sent, max)[0] == EncodeAll(sent, max) && Tails(sent, max)[1..] == Tails(sent[1..], max)
  {
  }

  lemma {:induction false} TailsLength(sent: seq<Frame>, max: nat)
    requires Sendable(sent, max)
    ensures |Tails(sent, max)| == |sent| + 1
  {
    if sent != [] {
      TailsLength(sent[1..], max);
    }
  }

  lemma {:induction false} TailIs(sent: seq<Frame>, max: nat, i: nat)
    requires Sendable(sent, max) && i <= |sent|
    ensures |Tails(sent, max)| == |sent| + 1 && Tails(sent, max)[i] == EncodeAll(sent[i..], max)
    decreases i
  {
    TailsLength(sent, max);
    if i == 0 {
      assert sent[0..] == sent;
    } else {
      assert sent[1..][i - 1..] == sent[i..];
      TailsCons(sent, max);
      TailIs(sent[1..], max, i - 1);
    }
  }

  lemma FirstFrame(rest: seq<Frame>, max: nat)
    requires Sendable(rest, max) && rest != []
    ensures Starts(EncodeAll(rest, max), Some(Received(rest[0])), EncodeAll(rest[1..], max), max)
  {
    HeadOfRest(rest, max);
  }

  /** The frames sent and what is left behind each of them. */
  lemma {:induction false} TailsLinked(sent: seq<Frame>, max: nat)
    requires Sendable(sent, max)
    ensures Linked(Receipts(sent), Tails(sent, max), max) && |Receipts(sent)| == |sent|
    ensures Tails(sent, max)[0] == EncodeAll(sent, max)
  {
    if sent != [] {
      TailsLinked(sent[1..], max);
      FirstFrame(sent, max);
      LinkedCons(EncodeAll(sent, max), Received(sent[0]), Receipts(sent[1..]), Tails(sent[1..], max), max);
    }
  }

  lemma LinkedCons(stream: seq<Byte>, first: Frame, expected: seq<Frame>, tails: seq<seq<Byte>>, max: nat)
    requires Linked(expected, tails, max) && Starts(stream, Some(first), tails[0], max)
    ensures Linked([first] + expected, [stream] + tails, max)
  {
    var all, ends := [first] + expected, [stream] + tails;
    forall i | 0 <= i < |all| ensures Starts(ends[i], Some(all[i]), ends[i + 1], max) {
      assert i > 0 ==> Starts(tails[i - 1], Some(expected[i - 1]), tails[i], max);
    }
  }

  lemma PauseUsed(used: int, slice: int, wait: int)
    requires slice > 0 && used * slice >= wait > 0
    ensures used > 0
  {
  }

  lemma Cancel(a: seq<Byte>, b: seq<Byte>, c: seq<Byte>)
    requires a + b == a + c
    ensures b == c
  {
    assert b == (a + b)[|a|..];
    assert c == (a + c)[|a|..];
  }
}
