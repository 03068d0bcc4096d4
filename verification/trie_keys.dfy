/**
 Trie keys: byte strings read as vectors of bits, least significant bit of
 each byte first, and the per-byte reversal that lines this order up with the
 most-significant-bit-first order of Kademlia identifiers.
 */
module TrieKeys {

  type TrieKey = seq<bv8>

  type Bit = b: nat | b < 2

  function BitLen(k: TrieKey): nat {
    8 * |k|
  }

  /** Bit `i` of a byte, counted from the least significant end. */
  function BitOf(b: bv8, i: nat): Bit
    requires i < 8
  {
    if b & (1 << i) == 0 then 0 else 1
  }

  function BitAt(k: TrieKey, offset: nat): Bit
    requires offset < BitLen(k)
  {
    BitOf(k[offset / 8], offset % 8)
  }

  /** Two bytes with the same eight bits are the same byte. */
  lemma ByteExtensional(a: bv8, b: bv8)
    requires forall i: nat | i < 8 :: BitOf(a, i) == BitOf(b, i)
    ensures a == b
  {
    assert BitOf(a, 0) == BitOf(b, 0) && BitOf(a, 1) == BitOf(b, 1);
    assert BitOf(a, 2) == BitOf(b, 2) && BitOf(a, 3) == BitOf(b, 3);
    assert BitOf(a, 4) == BitOf(b, 4) && BitOf(a, 5) == BitOf(b, 5);
    assert BitOf(a, 6) == BitOf(b, 6) && BitOf(a, 7) == BitOf(b, 7);
  }

  /** Keys of one length that agree on every bit are equal. */
  lemma KeyExtensional(p: TrieKey, q: TrieKey)
    requires |p| == |q|
    requires forall i: nat | i < BitLen(p) :: BitAt(p, i) == BitAt(q, i)
    ensures p == q
  {
    forall j: nat | j < |p|
      ensures p[j] == q[j]
    {
      forall i: nat | i < 8
        ensures BitOf(p[j], i) == BitOf(q[j], i)
      {
        assert BitAt(p, 8 * j + i) == BitAt(q, 8 * j + i);
      }
      ByteExtensional(p[j], q[j]);
    }
  }

  /** First offset at or after `i` at which the keys differ, or their bit length. */
  function FirstDifference(p: TrieKey, q: TrieKey, i: nat): (c: nat)
    requires |p| == |q| && i <= BitLen(p)
    ensures i <= c <= BitLen(p)
    ensures forall j: nat | i <= j < c :: BitAt(p, j) == BitAt(q, j)
    ensures c < BitLen(p) ==> BitAt(p, c) != BitAt(q, c)
    decreases BitLen(p) - i
  {
    if i < BitLen(p) && BitAt(p, i) == BitAt(q, i) then FirstDifference(p, q, i + 1) else i
  }

  /** Length of the longest common bit prefix. */
  ghost function Cpl(p: TrieKey, q: TrieKey): (c: nat)
    requires |p| == |q|
    ensures c <= BitLen(p)
    ensures c == BitLen(p) <==> p == q
  {
    var c := FirstDifference(p, q, 0);
    assert c == BitLen(p) <==> p == q by {
      if c == BitLen(p) { KeyExtensional(p, q); }
    }
    c
  }

  lemma CplSymmetric(p: TrieKey, q: TrieKey)
    requires |p| == |q|
    ensures Cpl(p, q) == Cpl(q, p)
  {
  }

  /** Sharing d bits, the next bit decides whether they share d + 1. */
  lemma CplStep(p: TrieKey, q: TrieKey, d: nat)
    requires |p| == |q| && d < BitLen(p) && d <= Cpl(p, q)
    ensures BitAt(p, d) == BitAt(q, d) <==> d < Cpl(p, q)
  {
  }

  // ---- Kademlia identifiers -------------------------------------------------

  /** The byte with its eight bits in the opposite order. */
  function Reverse8(b: bv8): bv8 {
    ((b & 0x01) << 7) | ((b & 0x02) << 5) | ((b & 0x04) << 3) | ((b & 0x08) << 1) |
    ((b & 0x10) >> 1) | ((b & 0x20) >> 3) | ((b & 0x40) >> 5) | ((b & 0x80) >> 7)
  }

  function Reversed(blob: seq<bv8>): (r: seq<bv8>)
    ensures |r| == |blob|
    ensures forall i :: 0 <= i < |blob| ==> r[i] == Reverse8(blob[i])
  {
    seq(|blob|, i requires 0 <= i < |blob| => Reverse8(blob[i]))
  }

  method ReversePerByteBits(blob: array<bv8>)
    modifies blob
    ensures blob[..] == Reversed(old(blob[..]))
  {
    for i := 0 to blob.Length
      invariant forall j :: 0 <= j < i ==> blob[j] == Reverse8(old(blob[j]))
      invariant forall j :: i <= j < blob.Length ==> blob[j] == old(blob[j])
    {
      blob[i] := Reverse8(blob[i]);
    }
  }

  lemma Reverse8Bit(b: bv8, i: nat)
    requires i < 8
    ensures BitOf(Reverse8(b), i) == BitOf(b, 7 - i)
  {
  }

  /** The reversal undoes itself. */
  lemma ReversedInvolution(blob: seq<bv8>)
    ensures Reversed(Reversed(blob)) == blob
  {
  }

  /** Bit `i` of an identifier, most significant bit of each byte first. */
  function MostSignificantBitAt(id: seq<bv8>, i: nat): Bit
    requires i < 8 * |id|
  {
    BitOf(id[i / 8], 7 - i % 8)
  }

  /** Reading a reversed identifier as a trie key gives the identifier's own bit order. */
  lemma BitAtReversed(id: seq<bv8>, i: nat)
    requires i < 8 * |id|
    ensures BitAt(Reversed(id), i) == MostSignificantBitAt(id, i)
  {
    Reverse8Bit(id[i / 8], i % 8);
  }

  function Xor(a: seq<bv8>, b: seq<bv8>): (r: seq<bv8>)
    requires |a| == |b|
  {
    seq(|a|, i requires 0 <= i < |a| => a[i] ^ b[i])
  }

  /** Leading zero bits of a byte, from its most significant end. */
  function LeadingZeros8(b: bv8): (n: nat)
    ensures n <= 8
  {
    if b & 0x80 != 0 then 0 else if b & 0x40 != 0 then 1
    else if b & 0x20 != 0 then 2 else if b & 0x10 != 0 then 3
    else if b & 0x08 != 0 then 4 else if b & 0x04 != 0 then 5
    else if b & 0x02 != 0 then 6 else if b & 0x01 != 0 then 7 else 8
  }

  /** Leading zero bits of a byte string, scanning whole bytes. */
  function LeadingZeros(id: seq<bv8>): (n: nat)
    ensures n <= 8 * |id|
  {
    if id == [] then 0
    else if id[0] == 0 then 8 + LeadingZeros(id[1..])
    else LeadingZeros8(id[0])
  }

  lemma LeadingZeros8Bit(b: bv8, i: nat)
    requires i < 8
    ensures b == 0 <==> LeadingZeros8(b) == 8
    ensures i < LeadingZeros8(b) ==> BitOf(b, 7 - i) == 0
    ensures i == LeadingZeros8(b) ==> BitOf(b, 7 - i) == 1
  {
  }

  /** A count of leading zeros is a run of zero bits ended by a one or by the end. */
  lemma {:induction false} LeadingZerosBits(id: seq<bv8>, i: nat)
    requires i < 8 * |id|
    ensures i < LeadingZeros(id) ==> MostSignificantBitAt(id, i) == 0
    ensures i == LeadingZeros(id) ==> MostSignificantBitAt(id, i) == 1
    decreases |id|
  {
    if i < 8 {
      LeadingZeros8Bit(id[0], i);
    } else {
      LeadingZeros8Bit(id[0], 0);
      LeadingZerosBits(id[1..], i - 8);
      assert MostSignificantBitAt(id, i) == MostSignificantBitAt(id[1..], i - 8);
    }
  }

  lemma XorMask(a: bv8, b: bv8, m: bv8)
    requires m in {0x01, 0x02, 0x04, 0x08, 0x10, 0x20, 0x40, 0x80}
    ensures (a ^ b) & m == 0 <==> (a & m == 0 <==> b & m == 0)
  {
  }

  lemma XorBit(a: bv8, b: bv8, i: nat)
    requires i < 8
    ensures BitOf(a ^ b, i) == 0 <==> BitOf(a, i) == BitOf(b, i)
  {
    XorMask(a, b, 1 << i);
  }

  /** The keys agree on bit i exactly when the identifiers' XOR has a zero there. */
  lemma KeysAgreeAt(a: seq<bv8>, b: seq<bv8>, i: nat)
    requires |a| == |b| && i < 8 * |a|
    ensures BitAt(Reversed(a), i) == BitAt(Reversed(b), i) <==> MostSignificantBitAt(Xor(a, b), i) == 0
  {
    var x, y, j := a[i / 8], b[i / 8], 7 - i % 8;
    assert BitAt(Reversed(a), i) == BitOf(x, j) && BitAt(Reversed(b), i) == BitOf(y, j) by {
      BitAtReversed(a, i);
      BitAtReversed(b, i);
    }
    assert MostSignificantBitAt(Xor(a, b), i) == BitOf(x ^ y, j) by {
      assert Xor(a, b)[i / 8] == x ^ y;
    }
    XorBit(x, y, j);
  }

  /**
   The common prefix of two trie keys is as long as the run of leading zeros of
   the XOR of the Kademlia identifiers they were made from.
   */
  lemma CplIsXorDistance(a: seq<bv8>, b: seq<bv8>)
    requires |a| == |b|
    ensures Cpl(Reversed(a), Reversed(b)) == LeadingZeros(Xor(a, b))
  {
    var z, c := LeadingZeros(Xor(a, b)), Cpl(Reversed(a), Reversed(b));
    if c < z {
      LeadingZerosBits(Xor(a, b), c);
      KeysAgreeAt(a, b, c);
    } else if z < c {
      LeadingZerosBits(Xor(a, b), z);
      KeysAgreeAt(a, b, z);
    }
  }

  /** The key's bits, read the trie's way, are the identifier's, most significant first. */
  ghost predicate HasBitsOf(k: TrieKey, id: seq<bv8>) {
    |k| == |id| && forall i: nat | i < 8 * |id| :: BitAt(k, i) == MostSignificantBitAt(id, i)
  }

  lemma ReversedHasBits(id: seq<bv8>)
    ensures HasBitsOf(Reversed(id), id)
  {
    forall i: nat | i < 8 * |id|
      ensures BitAt(Reversed(id), i) == MostSignificantBitAt(id, i)
    {
      BitAtReversed(id, i);
    }
  }

  lemma HasBitsIsReversed(k: TrieKey, id: seq<bv8>)
    requires HasBitsOf(k, id)
    ensures k == Reversed(id)
  {
    ReversedHasBits(id);
    KeyExtensional(k, Reversed(id));
  }

  /** Keys with the bits of two identifiers are as close in the trie as the identifiers are by XOR. */
  lemma BitsGiveXorDistance(k: TrieKey, k': TrieKey, id: seq<bv8>, id': seq<bv8>)
    requires HasBitsOf(k, id) && HasBitsOf(k', id') && |id| == |id'|
    ensures Cpl(k, k') == LeadingZeros(Xor(id, id'))
  {
    HasBitsIsReversed(k, id);
    HasBitsIsReversed(k', id');
    CplIsXorDistance(id, id');
  }
}
