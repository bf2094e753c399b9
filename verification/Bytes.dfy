/** Little-endian integers in byte images. */
module Bytes {
  import opened Crc32c

  function Pow256(n: nat): (r: nat)
    ensures r > 0
  {
    if n == 0 then 1 else 256 * Pow256(n - 1)
  }

  /** The low `width` bytes of n, least significant first. */
  function Little(n: nat, width: nat): (r: seq<Byte>)
    ensures |r| == width
    decreases width
  {
    if width == 0 then [] else [n % 256] + Little(n / 256, width - 1)
  }

  function FromLittle(bytes: seq<Byte>): nat {
    if bytes == [] then 0
    else
      var low: nat := bytes[0];
      low + 256 * FromLittle(bytes[1..])
  }

  lemma {:induction false} LittleRound(n: nat, width: nat)
    requires n < Pow256(width)
    ensures FromLittle(Little(n, width)) == n
    decreases width
  {
    if width > 0 {
      LittleRound(n / 256, width - 1);
      assert Little(n, width)[1..] == Little(n / 256, width - 1);
    }
  }

  /** The least significant byte comes first. */
  lemma {:induction false} LittleBytes(n: nat)
    ensures Little(n, 2) == [n % 256, n / 256 % 256]
    ensures Little(n, 4) == [n % 256, n / 256 % 256, n / 65536 % 256, n / 16777216 % 256]
  {
    assert n / 256 / 256 == n / 65536 && n / 65536 / 256 == n / 16777216;
    assert Little(n / 16777216, 1) == [n / 16777216 % 256];
    assert Little(n / 65536, 2) == [n / 65536 % 256] + Little(n / 16777216, 1);
    assert Little(n / 256, 3) == [n / 256 % 256] + Little(n / 65536, 2);
    assert Little(n / 256, 1) == [n / 256 % 256];
  }

  lemma {:induction false} FromLittleBound(s: seq<Byte>)
    ensures FromLittle(s) < Pow256(|s|)
  {
    if s != [] {
      FromLittleBound(s[1..]);
    }
  }

  /** Bytes are the little-endian form of the number they read as. */
  lemma {:induction false} LittleBack(s: seq<Byte>, n: nat)
    requires FromLittle(s) == n
    ensures s == Little(n, |s|)
  {
    FromLittleBound(s);
    LittleRound(n, |s|);
    FromLittleInjective(s, Little(n, |s|));
  }

  lemma {:induction false} FieldIs(data: seq<Byte>, i: nat, j: nat, n: nat, width: nat)
    requires i + width == j <= |data| && FromLittle(data[i..j]) == n
    ensures data[i..j] == Little(n, width) && n < Pow256(width)
  {
    FromLittleBound(data[i..j]);
    LittleBack(data[i..j], n);
  }

  /** Equal numbers of equal width are equal bytes. */
  lemma {:induction false} FromLittleInjective(a: seq<Byte>, b: seq<Byte>)
    requires |a| == |b| && FromLittle(a) == FromLittle(b)
    ensures a == b
    decreases |a|
  {
    if a != [] {
      var x: nat := a[0];
      var y: nat := b[0];
      assert x == FromLittle(a) % 256 && y == FromLittle(b) % 256;
      FromLittleInjective(a[1..], b[1..]);
      assert a == [a[0]] + a[1..] && b == [b[0]] + b[1..];
    }
  }

  /** One changed byte changes the checksum, and the number it is part of. */
  lemma ChangedByte(a: seq<Byte>, k: nat, c: Byte)
    requires k < |a| && c != a[k]
    ensures Checksum(a[k := c]) != Checksum(a)
    ensures FromLittle(a[k := c]) != FromLittle(a)
  {
    var b := a[k := c];
    assert b[..k] == a[..k] && b[k + 1..] == a[k + 1..];
    SingleByteDetected(a, b, k);
    if FromLittle(b) == FromLittle(a) {
      FromLittleInjective(a, b);
    }
  }
}
