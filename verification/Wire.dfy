/** Frames on the wire: a 24-byte header with two checksums, then JSON. */
module Wire {
  import opened Identity
  import opened Crc32c
  import opened Bytes
  import Json
  import JsonRoundTrip

  const FRAME_MAGIC: nat := 0x44524652
  const PROTOCOL_VERSION: nat := 1
  const HEADER_BYTES: nat := 24
  const U16: nat := 0x1_0000
  const U32: nat := 0x1_0000_0000

  /** Message types are not checked against the known ones. */
  datatype Frame = Frame(kind: nat, sequence: nat, payload: Json.Value)

  predicate Encodable(f: Frame) {
    f.kind < U16 && f.sequence < U32 && Json.InRange(f.payload)
  }

  /** The 20 bytes the header checksum covers. */
  function Fields(kind: nat, sequence: nat, payload: seq<Byte>): (r: seq<Byte>)
    ensures |r| == 20
  {
    Little(FRAME_MAGIC, 4) + Little(PROTOCOL_VERSION, 2) + Little(kind, 2) + Little(sequence, 4)
    + Little(|payload|, 4) + Little(Checksum(payload), 4)
  }

  function Image(kind: nat, sequence: nat, payload: seq<Byte>): seq<Byte> {
    var fields := Fields(kind, sequence, payload);
    fields + Little(Checksum(fields), 4) + payload
  }

  /** `encode_frame`. */
  function Encode(f: Frame, max: nat): Option<seq<Byte>> {
    var payload := Json.Dump(f.payload, 0, 0);
    if |payload| > max || |payload| >= U32 then None else Some(Image(f.kind, f.sequence, payload))
  }

  function LengthField(data: seq<Byte>): nat
    requires |data| >= HEADER_BYTES
  {
    FromLittle(data[12..16])
  }

  /** The checks of `decode_frame` before the payload is parsed. */
  predicate Intact(data: seq<Byte>, max: nat) {
    && |data| >= HEADER_BYTES
    && FromLittle(data[0..4]) == FRAME_MAGIC
    && Checksum(data[0..20]) == FromLittle(data[20..24])
    && FromLittle(data[4..6]) == PROTOCOL_VERSION
    && LengthField(data) <= max && HEADER_BYTES + LengthField(data) == |data|
    && Checksum(data[24..]) == FromLittle(data[16..20])
  }

  function PayloadLimits(max: nat): Json.Limits {
    Json.DEFAULT_LIMITS.(maxTotal := max)
  }

  /** `decode_frame`. */
  function Decode(data: seq<Byte>, max: nat): Option<Frame> {
    if !Intact(data, max) then None
    else
      var parsed := Json.Parse(data[24..], PayloadLimits(max));
      if parsed.None? then None
      else Some(Frame(FromLittle(data[6..8]), FromLittle(data[8..12]), parsed.value))
  }

  // ---- Round trip ----------------------------------------------------------------------------

  lemma Sixth(a: seq<Byte>, b: seq<Byte>, c: seq<Byte>, d: seq<Byte>, e: seq<Byte>, f: seq<Byte>)
    requires |a| == 4 && |b| == 2 && |c| == 2 && |d| == 4 && |e| == 4 && |f| == 4
    ensures var all := a + b + c + d + e + f;
            && all[0..4] == a && all[4..6] == b && all[6..8] == c && all[8..12] == d
            && all[12..16] == e && all[16..20] == f
  {
    var all := a + b + c + d + e + f;
    assert all == a + (b + c + d + e + f);
    assert all == (a + b) + (c + d + e + f);
    assert all == (a + b + c) + (d + e + f);
    assert all == (a + b + c + d) + (e + f);
  }

  lemma FieldsAt(kind: nat, sequence: nat, payload: seq<Byte>)
    ensures var f := Fields(kind, sequence, payload);
            && f[0..4] == Little(FRAME_MAGIC, 4) && f[4..6] == Little(PROTOCOL_VERSION, 2)
            && f[6..8] == Little(kind, 2) && f[8..12] == Little(sequence, 4)
            && f[12..16] == Little(|payload|, 4) && f[16..20] == Little(Checksum(payload), 4)
  {
    Sixth(Little(FRAME_MAGIC, 4), Little(PROTOCOL_VERSION, 2), Little(kind, 2), Little(sequence, 4),
          Little(|payload|, 4), Little(Checksum(payload), 4));
  }

  lemma ImageAt(kind: nat, sequence: nat, payload: seq<Byte>)
    ensures var image := Image(kind, sequence, payload);
            var f := Fields(kind, sequence, payload);
            && |image| == HEADER_BYTES + |payload|
            && image[0..20] == f && image[20..24] == Little(Checksum(f), 4) && image[24..] == payload
  {
  }

  lemma Prefixed(image: seq<Byte>, f: seq<Byte>, i: nat, j: nat)
    requires i <= j <= |f| <= |image| && image[0..|f|] == f
    ensures image[i..j] == f[i..j]
  {
    assert image[0..|f|][i..j] == image[i..j];
  }

  lemma Widths()
    ensures Pow256(2) == U16 && Pow256(4) == U32
  {
  }

  lemma ImageIntact(kind: nat, sequence: nat, payload: seq<Byte>, max: nat)
    requires kind < U16 && sequence < U32 && |payload| < U32 && |payload| <= max
    ensures var image := Image(kind, sequence, payload);
            && Intact(image, max) && image[24..] == payload && LengthField(image) == |payload|
            && FromLittle(image[6..8]) == kind && FromLittle(image[8..12]) == sequence
  {
    var image := Image(kind, sequence, payload);
    var f := Fields(kind, sequence, payload);
    ImageAt(kind, sequence, payload);
    FieldsAt(kind, sequence, payload);
    Prefixed(image, f, 0, 4);
    Prefixed(image, f, 4, 6);
    Prefixed(image, f, 6, 8);
    Prefixed(image, f, 8, 12);
    Prefixed(image, f, 12, 16);
    Prefixed(image, f, 16, 20);
    Widths();
    ChecksumBound(payload);
    ChecksumBound(f);
    LittleRound(FRAME_MAGIC, 4);
    LittleRound(PROTOCOL_VERSION, 2);
    LittleRound(kind, 2);
    LittleRound(sequence, 4);
    LittleRound(|payload|, 4);
    LittleRound(Checksum(payload), 4);
    LittleRound(Checksum(f), 4);
  }

  /** The payload is within what the receiving parser accepts. */
  predicate Acceptable(f: Frame) {
    JsonRoundTrip.Fits(f.payload, 0, Json.DEFAULT_LIMITS)
    && JsonRoundTrip.Nodes(f.payload) <= Json.DEFAULT_LIMITS.maxNodes
  }

  function Received(f: Frame): Frame {
    f.(payload := JsonRoundTrip.Canon(f.payload))
  }

  lemma {:induction false} FitsIgnoresTotal(v: Json.Value, depth: nat, a: Json.Limits, b: Json.Limits)
    requires b == a.(maxTotal := b.maxTotal)
    ensures JsonRoundTrip.Fits(v, depth, a) == JsonRoundTrip.Fits(v, depth, b)
    decreases v, 0
  {
    match v
    case Arr(items) => ItemsIgnoreTotal(items, depth + 1, a, b);
    case Obj(members) => MembersIgnoreTotal({}, members, depth + 1, a, b);
    case _ =>
  }

  lemma {:induction false} ItemsIgnoreTotal(items: seq<Json.Value>, depth: nat, a: Json.Limits, b: Json.Limits)
    requires b == a.(maxTotal := b.maxTotal)
    ensures JsonRoundTrip.ItemsFit(items, depth, a) == JsonRoundTrip.ItemsFit(items, depth, b)
    decreases items, 1
  {
    if items != [] {
      FitsIgnoresTotal(items[0], depth, a, b);
      ItemsIgnoreTotal(items[1..], depth, a, b);
    }
  }

  lemma {:induction false} MembersIgnoreTotal(seen: set<Json.Text>, members: seq<Json.Member>, depth: nat,
                                              a: Json.Limits, b: Json.Limits)
    requires b == a.(maxTotal := b.maxTotal)
    ensures JsonRoundTrip.MembersFit(seen, members, depth, a) == JsonRoundTrip.MembersFit(seen, members, depth, b)
    decreases members, 1
  {
    if members != [] {
      FitsIgnoresTotal(members[0].value, depth, a, b);
      MembersIgnoreTotal(seen + {members[0].key}, members[1..], depth, a, b);
    }
  }

  /** Decoding what was encoded under the same bound gives the frame back, payload
      canonical, exactly when its payload is within the parser's limits. */
  lemma DecodeEncode(f: Frame, max: nat)
    requires Encodable(f) && Encode(f, max).Some?
    ensures Decode(Encode(f, max).value, max) == if Acceptable(f) then Some(Received(f)) else None
  {
    var payload := Json.Dump(f.payload, 0, 0);
    ImageIntact(f.kind, f.sequence, payload, max);
    JsonRoundTrip.RoundTrip(f.payload, 0, PayloadLimits(max));
    FitsIgnoresTotal(f.payload, 0, Json.DEFAULT_LIMITS, PayloadLimits(max));
  }

  // ---- No other image decodes ----------------------------------------------------------------

  /** Which byte of an image is which. */
  lemma {:induction false} ImageBytes(kind: nat, sequence: nat, payload: seq<Byte>)
    requires kind < U16 && sequence < U32 && |payload| < U32
    ensures var image := Image(kind, sequence, payload);
            && |image| == 24 + |payload|
            && image[0..6] == [0x52, 0x46, 0x52, 0x44, 1, 0]
            && image[6] == kind % 256 && image[7] == kind / 256
            && image[8] == sequence % 256 && image[9] == sequence / 256 % 256
            && image[10] == sequence / 65536 % 256 && image[11] == sequence / 16777216
            && image[12] == |payload| % 256 && image[13] == |payload| / 256 % 256
            && image[14] == |payload| / 65536 % 256 && image[15] == |payload| / 16777216
            && image[24..] == payload
  {
    var image, f := Image(kind, sequence, payload), Fields(kind, sequence, payload);
    ImageAt(kind, sequence, payload);
    FieldsPlaced(image, f, kind, sequence, payload);
    assert image[0..6] == image[0..4] + image[4..6];
    MagicBytes();
    KindBytes(image, kind);
    FourAt(image, 8, sequence);
    FourAt(image, 12, |payload|);
  }

  lemma {:induction false} FieldsPlaced(image: seq<Byte>, f: seq<Byte>, kind: nat, sequence: nat, payload: seq<Byte>)
    requires f == Fields(kind, sequence, payload) && |image| >= 20 && image[0..20] == f
    ensures image[0..4] == Little(FRAME_MAGIC, 4) && image[4..6] == Little(PROTOCOL_VERSION, 2)
    ensures image[6..8] == Little(kind, 2) && image[8..12] == Little(sequence, 4)
    ensures image[12..16] == Little(|payload|, 4)
  {
    FieldsAt(kind, sequence, payload);
    Prefixed(image, f, 0, 4);
    Prefixed(image, f, 4, 6);
    Prefixed(image, f, 6, 8);
    Prefixed(image, f, 8, 12);
    Prefixed(image, f, 12, 16);
  }

  lemma MagicBytes()
    ensures Little(FRAME_MAGIC, 4) == [0x52, 0x46, 0x52, 0x44] && Little(PROTOCOL_VERSION, 2) == [1, 0]
  {
    assert Little(0x44, 1) == [0x44];
    assert Little(0x4452, 2) == [0x52, 0x44];
    assert Little(0x445246, 3) == [0x46, 0x52, 0x44];
    assert Little(0, 1) == [0];
  }

  lemma {:induction false} KindBytes(image: seq<Byte>, kind: nat)
    requires |image| >= 8 && image[6..8] == Little(kind, 2) && kind < U16
    ensures image[6] == kind % 256 && image[7] == kind / 256
  {
    var s := image[6..8];
    assert image[6] == s[0] && image[7] == s[1];
    LittleBytes(kind);
  }

  lemma {:induction false} FourAt(image: seq<Byte>, at: nat, n: nat)
    requires at + 4 <= |image| && image[at..at + 4] == Little(n, 4) && n < U32
    ensures image[at] == n % 256 && image[at + 1] == n / 256 % 256
    ensures image[at + 2] == n / 65536 % 256 && image[at + 3] == n / 16777216
  {
    var s := image[at..at + 4];
    assert image[at] == s[0] && image[at + 1] == s[1] && image[at + 2] == s[2] && image[at + 3] == s[3];
    LittleBytes(n);
  }

  lemma {:induction false} IntactParts(data: seq<Byte>, max: nat)
    requires Intact(data, max)
    ensures data[0..4] == Little(FRAME_MAGIC, 4) && data[4..6] == Little(PROTOCOL_VERSION, 2)
    ensures data[6..8] == Little(FromLittle(data[6..8]), 2) && data[8..12] == Little(FromLittle(data[8..12]), 4)
    ensures data[12..16] == Little(|data| - 24, 4) && data[16..20] == Little(Checksum(data[24..]), 4)
    ensures data[20..24] == Little(Checksum(data[0..20]), 4)
    ensures FromLittle(data[6..8]) < U16 && FromLittle(data[8..12]) < U32 && |data| - 24 < U32
  {
    FieldIs(data, 0, 4, FRAME_MAGIC, 4);
    FieldIs(data, 4, 6, PROTOCOL_VERSION, 2);
    FieldIs(data, 6, 8, FromLittle(data[6..8]), 2);
    FieldIs(data, 8, 12, FromLittle(data[8..12]), 4);
    FieldIs(data, 12, 16, |data| - 24, 4);
    FieldIs(data, 16, 20, Checksum(data[24..]), 4);
    FieldIs(data, 20, 24, Checksum(data[0..20]), 4);
    Widths();
  }

  lemma {:induction false} Joined(data: seq<Byte>)
    requires |data| >= 24
    ensures data[0..20] == data[0..4] + data[4..6] + data[6..8] + data[8..12] + data[12..16] + data[16..20]
    ensures data == data[0..20] + data[20..24] + data[24..]
  {
  }

  lemma {:induction false} IntactIsImage(data: seq<Byte>, max: nat)
    requires Intact(data, max)
    ensures data == Image(FromLittle(data[6..8]), FromLittle(data[8..12]), data[24..])
    ensures FromLittle(data[6..8]) < U16 && FromLittle(data[8..12]) < U32 && |data| - 24 < U32
  {
    IntactParts(data, max);
    Joined(data);
    assert data[0..20] == Fields(FromLittle(data[6..8]), FromLittle(data[8..12]), data[24..]);
  }

  /** Bytes decode to a frame exactly when they are the image of that frame's kind and
      sequence over a payload within the bound that parses to the frame's. */
  lemma {:induction false} DecodeIff(data: seq<Byte>, max: nat, f: Frame)
    ensures Decode(data, max) == Some(f) <==>
              && 24 <= |data| <= 24 + max && |data| - 24 < U32 && f.kind < U16 && f.sequence < U32
              && data == Image(f.kind, f.sequence, data[24..])
              && Json.Parse(data[24..], PayloadLimits(max)) == Some(f.payload)
  {
    if Decode(data, max) == Some(f) {
      IntactIsImage(data, max);
    }
    if 24 <= |data| <= 24 + max && |data| - 24 < U32 && f.kind < U16 && f.sequence < U32
       && data == Image(f.kind, f.sequence, data[24..])
    {
      ImageIntact(f.kind, f.sequence, data[24..], max);
    }
  }

  // ---- Damage ------------------------------------------------------------------------------------

  lemma SliceUpdate(data: seq<Byte>, k: nat, c: Byte, i: nat, j: nat)
    requires k < |data| && i <= j <= |data|
    ensures data[k := c][i..j] == if i <= k < j then data[i..j][k - i := c] else data[i..j]
  {
  }

  /** Every single-byte change to an image that decodes is rejected. */
  lemma SingleByteRejected(data: seq<Byte>, max: nat, k: nat, c: Byte)
    requires Decode(data, max).Some? && k < |data| && c != data[k]
    ensures Decode(data[k := c], max).None?
  {
    var bad := data[k := c];
    SliceUpdate(data, k, c, 0, 20);
    SliceUpdate(data, k, c, 20, 24);
    SliceUpdate(data, k, c, 16, 20);
    SliceUpdate(data, k, c, 24, |data|);
    assert bad[24..] == bad[24..|bad|] && data[24..] == data[24..|data|];
    if k < 20 {
      ChangedByte(data[0..20], k, c);
    } else if k < 24 {
      ChangedByte(data[20..24], k - 20, c);
    } else {
      ChangedByte(data[24..], k - 24, c);
    }
  }

  // ---- As it runs ---------------------------------------------------------------------------------

  /** Appends the low bytes of a number, least significant first. */
  method Put(out: seq<Byte>, n: nat, width: nat) returns (r: seq<Byte>)
    ensures r == out + Little(n, width)
  {
    r := out;
    var rest := n;
    var i := 0;
    while i < width
      invariant 0 <= i <= width
      invariant r + Little(rest, width - i) == out + Little(n, width)
    {
      assert r + ([rest % 256] + Little(rest / 256, width - i - 1))
          == r + [rest % 256] + Little(rest / 256, width - i - 1);
      r := r + [rest % 256];
      rest := rest / 256;
      i := i + 1;
    }
    assert r + [] == r;
  }

  method EncodeFrame(f: Frame, max: nat) returns (image: Option<seq<Byte>>)
    ensures image == Encode(f, max)
  {
    var payload := Json.Dump(f.payload, 0, 0);
    if |payload| > max || |payload| >= U32 {
      return None;
    }
    var out := Put([], FRAME_MAGIC, 4);
    out := Put(out, PROTOCOL_VERSION, 2);
    out := Put(out, f.kind, 2);
    out := Put(out, f.sequence, 4);
    out := Put(out, |payload|, 4);
    out := Put(out, Checksum(payload), 4);
    assert [] + Little(FRAME_MAGIC, 4) == Little(FRAME_MAGIC, 4);
    assert out == Fields(f.kind, f.sequence, payload);
    out := Put(out, Checksum(out), 4);
    image := Some(out + payload);
  }
}
