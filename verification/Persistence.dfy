/** The snapshot envelope: a checksummed header, the JSON payload, and a checksum
    over everything before it. */
module Persistence {
  import opened Identity
  import opened Crc32c
  import opened Bytes
  import opened Wire
  import Json
  import JsonRoundTrip

  const MAGIC: seq<Byte> := [68, 82, 78, 70, 65, 66, 0, 1]
  const FORMAT_VERSION: nat := 1
  const RESERVED_MARKER: nat := 0xffff_ffff
  const SNAPSHOT_HEADER: nat := 48
  const OVERHEAD: nat := 52

  datatype Snapshot = Snapshot(sequence: nat, incarnation: nat, value: Json.Value)

  function Preamble(): (r: seq<Byte>)
    ensures |r| == 12
  {
    MAGIC + Little(FORMAT_VERSION, 2) + Little(0, 2)
  }

  function Numbers(sequence: nat, incarnation: nat, payload: seq<Byte>): (r: seq<Byte>)
    ensures |r| == 32
  {
    Little(sequence, 8) + Little(incarnation, 8) + Little(|payload|, 8) + Little(Checksum(payload), 4)
    + Little(RESERVED_MARKER, 4)
  }

  function Covered(sequence: nat, incarnation: nat, payload: seq<Byte>): (r: seq<Byte>)
    ensures |r| == SNAPSHOT_HEADER + |payload|
  {
    Preamble() + Little(Checksum(Preamble()), 4) + Numbers(sequence, incarnation, payload) + payload
  }

  function SnapshotImage(sequence: nat, incarnation: nat, payload: seq<Byte>): seq<Byte> {
    var covered := Covered(sequence, incarnation, payload);
    covered + Little(Checksum(covered), 4)
  }

  /** The bytes `save` writes; refused beyond the size bound or the last sequence. */
  function Save(value: Json.Value, written: nat, incarnation: nat, max: nat): Option<seq<Byte>> {
    var payload := Json.Dump(value, 0, 0);
    if |payload| > max || written + 1 > U64_MAX then None
    else Some(SnapshotImage(written + 1, incarnation, payload))
  }

  function PayloadLength(bytes: seq<Byte>): nat
    requires |bytes| >= OVERHEAD
  {
    FromLittle(bytes[32..40])
  }

  /** The checks of `read_file` on the bytes, before the payload is parsed. */
  predicate Sound(bytes: seq<Byte>, max: nat) {
    && |bytes| <= max + OVERHEAD && |bytes| >= OVERHEAD
    && bytes[0..8] == MAGIC
    && Checksum(bytes[0..12]) == FromLittle(bytes[12..16])
    && FromLittle(bytes[8..10]) == FORMAT_VERSION && FromLittle(bytes[10..12]) == 0
    && FromLittle(bytes[44..48]) == RESERVED_MARKER
    && PayloadLength(bytes) <= max && OVERHEAD + PayloadLength(bytes) == |bytes|
    && Checksum(bytes[48..|bytes| - 4]) == FromLittle(bytes[40..44])
    && Checksum(bytes[0..|bytes| - 4]) == FromLittle(bytes[|bytes| - 4..])
  }

  function Load(bytes: seq<Byte>, max: nat): Option<Snapshot> {
    if !Sound(bytes, max) then None
    else
      var parsed := Json.Parse(bytes[48..|bytes| - 4], PayloadLimits(max));
      if parsed.None? then None
      else Some(Snapshot(FromLittle(bytes[16..24]), FromLittle(bytes[24..32]), parsed.value))
  }

  // ---- Round trip ---------------------------------------------------------------------------

  lemma FiveParts(a: seq<Byte>, b: seq<Byte>, c: seq<Byte>, d: seq<Byte>, e: seq<Byte>, n: seq<Byte>)
    requires |a| == 8 && |b| == 8 && |c| == 8 && |d| == 4 && |e| == 4 && n == a + b + c + d + e
    ensures n[0..8] == a && n[8..16] == b && n[16..24] == c && n[24..28] == d && n[28..32] == e
  {
    assert n == a + (b + c + d + e);
    assert n == (a + b) + (c + d + e);
    assert n == (a + b + c) + (d + e);
  }

  /** The parts of an image: preamble, its checksum, numbers, payload, footer. */
  lemma ImageParts(a: seq<Byte>, b: seq<Byte>, c: seq<Byte>, payload: seq<Byte>, footer: seq<Byte>, image: seq<Byte>)
    requires |a| == 12 && |b| == 4 && |c| == 32 && |footer| == 4 && image == a + b + c + payload + footer
    ensures |image| == OVERHEAD + |payload|
    ensures image[0..12] == a && image[12..16] == b && image[16..48] == c && image[48..|image| - 4] == payload
    ensures image[0..|image| - 4] == a + b + c + payload && image[|image| - 4..] == footer
  {
    assert image == a + (b + c + payload + footer);
    assert image == (a + b) + (c + payload + footer);
    assert image == (a + b + c) + (payload + footer);
  }

  lemma Inner(whole: seq<Byte>, part: seq<Byte>, at: nat, i: nat, j: nat, from: nat, to: nat)
    requires at + |part| <= |whole| && whole[at..at + |part|] == part && i <= j <= |part|
    requires from == at + i && to == at + j
    ensures whole[from..to] == part[i..j]
  {
    forall k | 0 <= k < j - i ensures whole[from..to][k] == part[i..j][k] {
      assert part[i + k] == whole[at..at + |part|][i + k];
    }
  }

  lemma PreambleParts(a: seq<Byte>, b: seq<Byte>, c: seq<Byte>, p: seq<Byte>)
    requires |a| == 8 && |b| == 2 && |c| == 2 && p == a + b + c
    ensures p[0..8] == a && p[8..10] == b && p[10..12] == c
  {
    assert p == a + (b + c);
  }

  lemma Wide()
    ensures Pow256(8) == U64_MAX + 1
  {
    assert Pow256(4) == 0x1_0000_0000;
  }

  lemma NumbersRead(sequence: nat, incarnation: nat, payload: seq<Byte>, n: seq<Byte>)
    requires sequence <= U64_MAX && incarnation <= U64_MAX && |payload| <= U64_MAX
    requires n == Numbers(sequence, incarnation, payload)
    ensures FromLittle(n[0..8]) == sequence && FromLittle(n[8..16]) == incarnation
    ensures FromLittle(n[16..24]) == |payload| && FromLittle(n[24..28]) == Checksum(payload)
    ensures FromLittle(n[28..32]) == RESERVED_MARKER
  {
    FiveParts(Little(sequence, 8), Little(incarnation, 8), Little(|payload|, 8), Little(Checksum(payload), 4),
              Little(RESERVED_MARKER, 4), n);
    Wide();
    Widths();
    ChecksumBound(payload);
    LittleRound(sequence, 8);
    LittleRound(incarnation, 8);
    LittleRound(|payload|, 8);
    LittleRound(Checksum(payload), 4);
    LittleRound(RESERVED_MARKER, 4);
  }

  lemma PreambleRead(p: seq<Byte>)
    requires p == Preamble()
    ensures p[0..8] == MAGIC && FromLittle(p[8..10]) == FORMAT_VERSION && FromLittle(p[10..12]) == 0
  {
    PreambleParts(MAGIC, Little(FORMAT_VERSION, 2), Little(0, 2), p);
    Widths();
    LittleRound(FORMAT_VERSION, 2);
    LittleRound(0, 2);
  }

  lemma SumRead(data: seq<Byte>, stored: seq<Byte>)
    requires stored == Little(Checksum(data), 4)
    ensures FromLittle(stored) == Checksum(data)
  {
    Widths();
    ChecksumBound(data);
    LittleRound(Checksum(data), 4);
  }

  /** What an image holds, by position. */
  lemma ImageRead(sequence: nat, incarnation: nat, payload: seq<Byte>, image: seq<Byte>, p: seq<Byte>, n: seq<Byte>)
    requires sequence <= U64_MAX && incarnation <= U64_MAX && |payload| <= U64_MAX
    requires image == SnapshotImage(sequence, incarnation, payload)
    requires p == Preamble() && n == Numbers(sequence, incarnation, payload)
    ensures |image| == OVERHEAD + |payload|
    ensures image[0..12] == p && image[16..48] == n && image[48..|image| - 4] == payload
    ensures Checksum(p) == FromLittle(image[12..16])
    ensures Checksum(image[0..|image| - 4]) == FromLittle(image[|image| - 4..])
  {
    var covered := Covered(sequence, incarnation, payload);
    ImageParts(p, Little(Checksum(p), 4), n, payload, Little(Checksum(covered), 4), image);
    SumRead(p, image[12..16]);
    SumRead(covered, image[|image| - 4..]);
  }

  /** An image put together from sound parts is sound. */
  lemma SoundParts(image: seq<Byte>, p: seq<Byte>, n: seq<Byte>, payload: seq<Byte>, sequence: nat, incarnation: nat,
                   max: nat)
    requires |p| == 12 && |n| == 32 && |image| == OVERHEAD + |payload| && |payload| <= max
    requires image[0..12] == p && image[16..48] == n && image[48..|image| - 4] == payload
    requires p[0..8] == MAGIC && FromLittle(p[8..10]) == FORMAT_VERSION && FromLittle(p[10..12]) == 0
    requires FromLittle(n[0..8]) == sequence && FromLittle(n[8..16]) == incarnation
    requires FromLittle(n[16..24]) == |payload| && FromLittle(n[24..28]) == Checksum(payload)
    requires FromLittle(n[28..32]) == RESERVED_MARKER && Checksum(p) == FromLittle(image[12..16])
    requires Checksum(image[0..|image| - 4]) == FromLittle(image[|image| - 4..])
    ensures Sound(image, max)
    ensures FromLittle(image[16..24]) == sequence && FromLittle(image[24..32]) == incarnation
  {
    Inner(image, p, 0, 0, 8, 0, 8);
    Inner(image, p, 0, 8, 10, 8, 10);
    Inner(image, p, 0, 10, 12, 10, 12);
    Inner(image, n, 16, 0, 8, 16, 24);
    Inner(image, n, 16, 8, 16, 24, 32);
    Inner(image, n, 16, 16, 24, 32, 40);
    Inner(image, n, 16, 24, 28, 40, 44);
    Inner(image, n, 16, 28, 32, 44, 48);
  }

  lemma ImageSound(sequence: nat, incarnation: nat, payload: seq<Byte>, image: seq<Byte>, max: nat)
    requires sequence <= U64_MAX && incarnation <= U64_MAX && |payload| <= U64_MAX && |payload| <= max
    requires image == SnapshotImage(sequence, incarnation, payload)
    ensures Sound(image, max) && image[48..|image| - 4] == payload
    ensures FromLittle(image[16..24]) == sequence && FromLittle(image[24..32]) == incarnation
  {
    var p, n := Preamble(), Numbers(sequence, incarnation, payload);
    ImageRead(sequence, incarnation, payload, image, p, n);
    PreambleRead(p);
    NumbersRead(sequence, incarnation, payload, n);
    SoundParts(image, p, n, payload, sequence, incarnation, max);
  }

  /** Reading back what was saved gives the same sequence, incarnation and value,
      exactly when the value is within the parser's limits. */
  lemma LoadSave(value: Json.Value, written: nat, incarnation: nat, max: nat)
    requires Json.InRange(value) && incarnation <= U64_MAX && max <= U64_MAX
    requires Save(value, written, incarnation, max).Some?
    ensures Load(Save(value, written, incarnation, max).value, max)
         == if && JsonRoundTrip.Fits(value, 0, Json.DEFAULT_LIMITS)
               && JsonRoundTrip.Nodes(value) <= Json.DEFAULT_LIMITS.maxNodes
            then Some(Snapshot(written + 1, incarnation, JsonRoundTrip.Canon(value))) else None
  {
    var payload := Json.Dump(value, 0, 0);
    ImageSound(written + 1, incarnation, payload, SnapshotImage(written + 1, incarnation, payload), max);
    JsonRoundTrip.RoundTrip(value, 0, PayloadLimits(max));
    FitsIgnoresTotal(value, 0, Json.DEFAULT_LIMITS, PayloadLimits(max));
  }

  // ---- No other image loads -----------------------------------------------------------------

  lemma {:induction false} SoundPreamble(bytes: seq<Byte>, max: nat)
    requires Sound(bytes, max)
    ensures bytes[8..10] == Little(FORMAT_VERSION, 2) && bytes[10..12] == Little(0, 2)
    ensures bytes[12..16] == Little(Checksum(bytes[0..12]), 4)
    ensures bytes[|bytes| - 4..] == Little(Checksum(bytes[0..|bytes| - 4]), 4)
  {
    FieldIs(bytes, 8, 10, FORMAT_VERSION, 2);
    FieldIs(bytes, 10, 12, 0, 2);
    FieldIs(bytes, 12, 16, Checksum(bytes[0..12]), 4);
    LittleBack(bytes[|bytes| - 4..], Checksum(bytes[0..|bytes| - 4]));
  }

  lemma {:induction false} SoundNumbers(bytes: seq<Byte>, max: nat)
    requires Sound(bytes, max)
    ensures bytes[16..24] == Little(FromLittle(bytes[16..24]), 8)
    ensures bytes[24..32] == Little(FromLittle(bytes[24..32]), 8)
    ensures bytes[32..40] == Little(|bytes| - OVERHEAD, 8)
    ensures bytes[40..44] == Little(Checksum(bytes[48..|bytes| - 4]), 4)
    ensures bytes[44..48] == Little(RESERVED_MARKER, 4)
  {
    FieldIs(bytes, 16, 24, FromLittle(bytes[16..24]), 8);
    FieldIs(bytes, 24, 32, FromLittle(bytes[24..32]), 8);
    FieldIs(bytes, 32, 40, |bytes| - OVERHEAD, 8);
    FieldIs(bytes, 40, 44, Checksum(bytes[48..|bytes| - 4]), 4);
    FieldIs(bytes, 44, 48, RESERVED_MARKER, 4);
  }

  lemma {:induction false} SnapshotJoined(bytes: seq<Byte>, end: nat)
    requires 52 <= |bytes| && end == |bytes| - 4
    ensures bytes[0..12] == bytes[0..8] + bytes[8..10] + bytes[10..12]
    ensures bytes[16..48] == bytes[16..24] + bytes[24..32] + bytes[32..40] + bytes[40..44] + bytes[44..48]
    ensures bytes[0..end] == bytes[0..12] + bytes[12..16] + bytes[16..48] + bytes[48..end]
    ensures bytes == bytes[0..end] + bytes[end..]
  {
  }

  lemma {:induction false} SoundIsImage(bytes: seq<Byte>, max: nat, payload: seq<Byte>)
    requires Sound(bytes, max) && payload == bytes[48..|bytes| - 4]
    ensures bytes == SnapshotImage(FromLittle(bytes[16..24]), FromLittle(bytes[24..32]), payload)
    ensures FromLittle(bytes[16..24]) <= U64_MAX && FromLittle(bytes[24..32]) <= U64_MAX && |payload| <= U64_MAX
  {
    SoundPreamble(bytes, max);
    SoundNumbers(bytes, max);
    SnapshotJoined(bytes, |bytes| - 4);
    assert bytes[0..12] == Preamble();
    assert bytes[16..48] == Numbers(FromLittle(bytes[16..24]), FromLittle(bytes[24..32]), payload);
    FromLittleBound(bytes[16..24]);
    FromLittleBound(bytes[24..32]);
    FromLittleBound(bytes[32..40]);
    Wide();
  }

  /** Bytes load as a snapshot exactly when they are the image of its numbers over a
      payload within the bound that parses to its value. */
  lemma {:induction false} LoadIff(bytes: seq<Byte>, max: nat, s: Snapshot)
    ensures Load(bytes, max) == Some(s) <==>
              && OVERHEAD <= |bytes| <= OVERHEAD + max && |bytes| - OVERHEAD <= U64_MAX
              && s.sequence <= U64_MAX && s.incarnation <= U64_MAX
              && bytes == SnapshotImage(s.sequence, s.incarnation, bytes[48..|bytes| - 4])
              && Json.Parse(bytes[48..|bytes| - 4], PayloadLimits(max)) == Some(s.value)
  {
    if Load(bytes, max) == Some(s) {
      SoundIsImage(bytes, max, bytes[48..|bytes| - 4]);
    }
    if && OVERHEAD <= |bytes| <= OVERHEAD + max && |bytes| - OVERHEAD <= U64_MAX
       && s.sequence <= U64_MAX && s.incarnation <= U64_MAX
       && bytes == SnapshotImage(s.sequence, s.incarnation, bytes[48..|bytes| - 4])
    {
      ImageSound(s.sequence, s.incarnation, bytes[48..|bytes| - 4], bytes, max);
    }
  }

  // ---- Damage -----------------------------------------------------------------------------------

  /** The footer is checked, whatever else is. */
  lemma SoundFooter(bytes: seq<Byte>, max: nat, body: seq<Byte>, footer: seq<Byte>)
    requires Load(bytes, max).Some?
    requires |bytes| >= 4 && body == bytes[0..|bytes| - 4] && footer == bytes[|bytes| - 4..|bytes|]
    ensures Checksum(body) == FromLittle(footer)
  {
    assert bytes[|bytes| - 4..] == footer;
  }

  /** Every single-byte change to an image that loads is rejected. */
  lemma DamagedSnapshotRejected(bytes: seq<Byte>, max: nat, k: nat, c: Byte)
    requires Load(bytes, max).Some? && k < |bytes| && c != bytes[k]
    ensures Load(bytes[k := c], max).None?
  {
    var bad := bytes[k := c];
    var end := |bytes| - 4;
    var body, footer := bytes[0..end], bytes[end..|bytes|];
    SoundFooter(bytes, max, body, footer);
    SliceUpdate(bytes, k, c, 0, end);
    SliceUpdate(bytes, k, c, end, |bytes|);
    if k < end {
      ChangedByte(body, k, c);
    } else {
      ChangedByte(footer, k - end, c);
    }
    if Load(bad, max).Some? {
      SoundFooter(bad, max, bad[0..end], bad[end..|bytes|]);
    }
  }

  /** The image as `save` builds it, append by append. */
  method BuildEnvelope(sequence: nat, incarnation: nat, payload: seq<Byte>) returns (image: seq<Byte>)
    ensures image == SnapshotImage(sequence, incarnation, payload)
  {
    var head := Put(MAGIC, FORMAT_VERSION, 2);
    head := Put(head, 0, 2);
    head := Put(head, Checksum(head), 4);
    var numbers := BuildNumbers(sequence, incarnation, payload);
    image := head + numbers + payload;
    image := Put(image, Checksum(image), 4);
  }

  method BuildNumbers(sequence: nat, incarnation: nat, payload: seq<Byte>) returns (out: seq<Byte>)
    ensures out == Numbers(sequence, incarnation, payload)
  {
    out := Put([], sequence, 8);
    assert [] + Little(sequence, 8) == Little(sequence, 8);
    out := Put(out, incarnation, 8);
    out := Put(out, |payload|, 8);
    out := Put(out, Checksum(payload), 4);
    out := Put(out, RESERVED_MARKER, 4);
  }
}
