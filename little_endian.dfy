/** Bytes as 8-bit vectors, and the one conversion fact the codecs need. */
module Octets {
  type octet = bv8

  /** A number below 256 survives the round trip through a byte. */
  lemma ByteOfSmall(n: nat)
    requires n < 256
    ensures (n as octet) as nat == n
  {
  }
}

/** The fixed-width readers of the `utils` package (utils.Uint8 … utils.Int64)
    and the matching encoders. A reader decodes `width` bytes at `pos` in
    little-endian order and fails when fewer than `width` bytes remain. */
module LittleEndian {
  import opened Results
  import Octets

  type byte = Octets.octet

  /** 256^w: the number of distinct values of a w-byte integer. */
  function Pow256(w: nat): (r: nat)
    ensures r >= 1
  {
    if w == 0 then 1 else 256 * Pow256(w - 1)
  }

  /** The unsigned value of `s` read least significant byte first. */
  function LeUint(s: seq<byte>): nat
  {
    if |s| == 0 then 0 else s[0] as nat + 256 * LeUint(s[1..])
  }

  /** The `w` little-endian bytes of `n` (taken modulo 256^w). */
  function LeBytes(n: nat, w: nat): (s: seq<byte>)
    ensures |s| == w
  {
    if w == 0 then [] else [(n % 256) as byte] + LeBytes(n / 256, w - 1)
  }

  /** The two's-complement reading of a w-byte unsigned value. */
  function ToSigned(u: nat, w: nat): int
  {
    if u < Pow256(w) / 2 then u else u - Pow256(w)
  }

  /** The w-byte two's-complement pattern of a signed value. */
  function FromSigned(i: int, w: nat): int
  {
    if i >= 0 then i else i + Pow256(w)
  }

  predicate InSignedRange(i: int, w: nat)
  {
    -(Pow256(w) / 2) <= i < Pow256(w) / 2
  }

  lemma {:induction false} LeUintBound(s: seq<byte>)
    ensures LeUint(s) < Pow256(|s|)
  {
    if |s| > 0 {
      LeUintBound(s[1..]);
    }
  }

  lemma DivMod256(n: nat)
    ensures n == 256 * (n / 256) + n % 256
  {
  }

  lemma DivModUnique(a: nat, q: nat, n: nat)
    requires a < 256 && n == a + 256 * q
    ensures n % 256 == a && n / 256 == q
  {
  }

  lemma DivBound(n: nat, w: nat)
    requires w > 0 && n < Pow256(w)
    ensures n / 256 < Pow256(w - 1)
  {
  }

  /** Decoding what was encoded gives the value back. */
  lemma {:induction false} LeUintOfLeBytes(n: nat, w: nat)
    requires n < Pow256(w)
    ensures LeUint(LeBytes(n, w)) == n
  {
    if w > 0 {
      var s := LeBytes(n, w);
      assert s[0] == (n % 256) as byte;
      assert s[1..] == LeBytes(n / 256, w - 1);
      DivBound(n, w);
      LeUintOfLeBytes(n / 256, w - 1);
      DivMod256(n);
      Octets.ByteOfSmall(n % 256);
      assert LeUint(s) == s[0] as nat + 256 * LeUint(s[1..]);
    }
  }

  lemma LeUintSplit(s: seq<byte>)
    requires |s| > 0
    ensures LeUint(s) % 256 == s[0] as nat
    ensures LeUint(s) / 256 == LeUint(s[1..])
  {
    DivModUnique(s[0] as nat, LeUint(s[1..]), LeUint(s));
  }

  /** Encoding what was decoded gives the bytes back. */
  lemma {:induction false} LeBytesOfLeUint(s: seq<byte>)
    ensures LeBytes(LeUint(s), |s|) == s
  {
    if |s| > 0 {
      var n := LeUint(s);
      LeUintSplit(s);
      LeBytesOfLeUint(s[1..]);
      assert (s[0] as nat) as byte == s[0];
      assert LeBytes(n, |s|) == [(n % 256) as byte] + LeBytes(n / 256, |s| - 1);
    }
  }

  lemma {:induction false} Pow256Even(w: nat)
    requires w > 0
    ensures Pow256(w) % 2 == 0 && Pow256(w) / 2 * 2 == Pow256(w)
  {
  }

  /** The signed reading of any w-byte pattern lies in the signed range. */
  lemma ToSignedInRange(u: nat, w: nat)
    requires w > 0 && u < Pow256(w)
    ensures InSignedRange(ToSigned(u, w), w)
  {
    Pow256Even(w);
  }

  /** Signed decoding inverts signed encoding on the signed range. */
  lemma ToSignedOfFromSigned(i: int, w: nat)
    requires w > 0 && InSignedRange(i, w)
    ensures 0 <= FromSigned(i, w) < Pow256(w)
    ensures ToSigned(FromSigned(i, w), w) == i
  {
    Pow256Even(w);
  }

  /** utils.Uint8/16/32/64: `width` bytes at `pos`, least significant first. */
  function ReadUint(data: seq<byte>, pos: nat, width: nat): (r: Result<nat>)
    ensures r.Ok? <==> pos + width <= |data|
    ensures r.Err? ==> r.error == ShortBuffer(pos, width)
    ensures r.Ok? ==> r.value < Pow256(width)
  {
    if pos + width <= |data| then
      LeUintBound(data[pos..pos + width]);
      Ok(LeUint(data[pos..pos + width]))
    else
      Err(ShortBuffer(pos, width))
  }

  /** utils.Int8/16/32/64: the two's-complement reading of ReadUint. */
  function ReadInt(data: seq<byte>, pos: nat, width: nat): (r: Result<int>)
    requires width > 0
    ensures r.Ok? <==> pos + width <= |data|
    ensures r.Err? ==> r.error == ShortBuffer(pos, width)
    ensures r.Ok? ==> InSignedRange(r.value, width)
  {
    match ReadUint(data, pos, width)
    case Ok(u) =>
      ToSignedInRange(u, width);
      Ok(ToSigned(u, width))
    case Err(e) => Err(e)
  }

  /** Reading back a value written at `pos` gives that value, whatever
      surrounds it. */
  lemma ReadUintOfWritten(prefix: seq<byte>, n: nat, width: nat, suffix: seq<byte>)
    requires n < Pow256(width)
    ensures ReadUint(prefix + LeBytes(n, width) + suffix, |prefix|, width) == Ok(n)
  {
    var data := prefix + LeBytes(n, width) + suffix;
    assert data[|prefix|..|prefix| + width] == LeBytes(n, width);
    LeUintOfLeBytes(n, width);
  }

  /** The decoding examples fixed by the parser's unit tests. */
  lemma ReadExamples()
    ensures ReadUint([1, 2, 3], 0, 1) == Ok(1)
    ensures ReadUint([1, 2, 3], 0, 2) == Ok(513)
    ensures ReadInt([1, 2, 3], 0, 2) == Ok(513)
    ensures ReadUint([1, 2, 3, 4, 5, 6, 7, 8], 0, 8) == Ok(578437695752307201)
    ensures ReadInt([1, 2, 3, 4, 5, 6, 7, 8], 0, 8) == Ok(578437695752307201)
    ensures ReadUint([1], 0, 2).Err?
  {
    var s: seq<byte> := [1, 2, 3, 4, 5, 6, 7, 8];
    assert s[0..8] == s;
    assert LeUint(s[7..]) == 8;
    assert LeUint(s[6..]) == 7 + 256 * 8;
    assert LeUint(s[5..]) == 6 + 256 * LeUint(s[6..]);
    assert LeUint(s[4..]) == 5 + 256 * LeUint(s[5..]);
    assert LeUint(s[3..]) == 4 + 256 * LeUint(s[4..]);
    assert LeUint(s[2..]) == 3 + 256 * LeUint(s[3..]);
    assert LeUint(s[1..]) == 2 + 256 * LeUint(s[2..]);
    assert LeUint(s) == 1 + 256 * LeUint(s[1..]);
    var t: seq<byte> := [1, 2, 3];
    assert t[0..2] == [1, 2] && t[0..1] == [1];
    assert LeUint([1, 2]) == 1 + 256 * LeUint([2]);
  }
}
