/** Bytes, and unsigned numbers written with the most significant byte first. */
module Bytes {

  type Byte = x: nat | x < 256

  function Pow256(width: nat): (p: nat)
    ensures p >= 1
  {
    if width == 0 then 1 else 256 * Pow256(width - 1)
  }

  function BigEndian(n: nat, width: nat): (bytes: seq<Byte>)
    ensures |bytes| == width
  {
    if width == 0 then [] else BigEndian(n / 256, width - 1) + [n % 256]
  }

  function Number(bytes: seq<Byte>): (n: nat) {
    if bytes == [] then 0 else 256 * Number(bytes[..|bytes| - 1]) + bytes[|bytes| - 1]
  }

  lemma NumberSnoc(front: seq<Byte>, last: Byte)
    ensures Number(front + [last]) == 256 * Number(front) + last
  {
    assert (front + [last])[..|front|] == front;
  }

  lemma Powers(n: nat, width: nat)
    requires width > 0
    ensures Pow256(width) == 256 * Pow256(width - 1) && Pow256(0) == 1
    ensures BigEndian(n, width) == BigEndian(n / 256, width - 1) + [n % 256]
  {
  }

  lemma DigitsOf(n: nat, p: nat)
    requires n < 256 * p
    ensures n / 256 < p && n == 256 * (n / 256) + n % 256
  {
  }

  /** A number that fits its width is read back. */
  lemma {:induction false} NumberOfBigEndian(n: nat, width: nat)
    requires n < Pow256(width)
    ensures Number(BigEndian(n, width)) == n
  {
    if width == 0 {
    } else {
      hide Number, Pow256, BigEndian;
      Powers(n, width);
      NumberSnoc(BigEndian(n / 256, width - 1), n % 256);
      DigitsOf(n, Pow256(width - 1));
      NumberOfBigEndian(n / 256, width - 1);
    }
  }

  /** Any bytes are the notation of the number they denote. */
  lemma {:induction false} BigEndianOfNumber(bytes: seq<Byte>)
    ensures BigEndian(Number(bytes), |bytes|) == bytes
    ensures Number(bytes) < Pow256(|bytes|)
  {
    if bytes != [] {
      var front, last := bytes[..|bytes| - 1], bytes[|bytes| - 1];
      BigEndianOfNumber(front);
      assert Number(bytes) / 256 == Number(front) && Number(bytes) % 256 == last;
    }
  }

  function Flatten(chunks: seq<seq<Byte>>): seq<Byte> {
    if chunks == [] then [] else chunks[0] + Flatten(chunks[1..])
  }

  lemma {:induction false} FlattenSnoc(chunks: seq<seq<Byte>>, last: seq<Byte>)
    ensures Flatten(chunks + [last]) == Flatten(chunks) + last
  {
    if chunks == [] {
      assert [last][1..] == [];
    } else {
      assert (chunks + [last])[1..] == chunks[1..] + [last];
      FlattenSnoc(chunks[1..], last);
    }
  }
}
