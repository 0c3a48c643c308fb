/**
 The line bitsets of a coverage database (core_coverage.py): line n is bit n mod 8 of byte
 n / 8.  `Decode` is the double loop of `raw_lines`; `Pack` is the form in which a recorder
 stores a set of lines, its shortest bitset.
 */
module Bitset {
  import opened Sorting

  /** `1 << bit` */
  function Mask(bit: nat): bv8
    requires bit < 8
  {
    if bit == 0 then 1 else if bit == 1 then 2 else if bit == 2 then 4 else if bit == 3 then 8
    else if bit == 4 then 16 else if bit == 5 then 32 else if bit == 6 then 64 else 128
  }

  predicate Set(byte: bv8, bit: nat)
    requires bit < 8
  {
    byte & Mask(bit) != 0
  }

  function Decoded(bits: seq<bv8>): set<int> {
    set n | 0 <= n < 8 * |bits| && Set(bits[n / 8], n % 8)
  }

  method Decode(bits: seq<bv8>) returns (lines: set<int>)
    ensures lines == Decoded(bits)
  {
    lines := {};
    var index := 0;
    while index < |bits|
      invariant 0 <= index <= |bits|
      invariant lines == set n | 0 <= n < 8 * index && Set(bits[n / 8], n % 8)
    {
      var byte := bits[index];
      var bit := 0;
      while bit < 8
        invariant 0 <= bit <= 8
        invariant lines == set n | 0 <= n < 8 * index + bit && Set(bits[n / 8], n % 8)
      {
        if Set(byte, bit) {
          lines := lines + {index * 8 + bit};
        }
        assert (index * 8 + bit) / 8 == index && (index * 8 + bit) % 8 == bit;
        bit := bit + 1;
      }
      index := index + 1;
    }
  }

  // ----- Packing -----

  function ByteOf(lines: set<int>, index: int): bv8 {
    var at := 8 * index;
    (if at in lines then 1 else 0) | (if at + 1 in lines then 2 else 0)
    | (if at + 2 in lines then 4 else 0) | (if at + 3 in lines then 8 else 0)
    | (if at + 4 in lines then 16 else 0) | (if at + 5 in lines then 32 else 0)
    | (if at + 6 in lines then 64 else 0) | (if at + 7 in lines then 128 else 0)
  }

  /** The shortest length that holds every line. */
  function Bytes(lines: set<int>): (length: nat)
    requires forall n :: n in lines ==> 0 <= n
    ensures forall n :: n in lines ==> n / 8 < length
    ensures length > 0 ==> exists n :: n in lines && n / 8 == length - 1
  {
    var r := Listing(lines);
    assert forall n :: n in r ==> n in Elements(r);
    assert forall n :: n in lines ==> n in Elements(r);
    if r == [] then 0 else
      assert r[|r| - 1] in lines;
      r[|r| - 1] / 8 + 1
  }

  function Pack(lines: set<int>): (bits: seq<bv8>)
    requires forall n :: n in lines ==> 0 <= n
  {
    seq(Bytes(lines), index requires 0 <= index => ByteOf(lines, index))
  }

  lemma ByteBits(lines: set<int>, index: nat, bit: nat)
    requires bit < 8
    ensures Set(ByteOf(lines, index), bit) <==> 8 * index + bit in lines
  {
  }

  lemma SameBits(a: bv8, b: bv8)
    requires forall bit :: 0 <= bit < 8 ==> Set(a, bit) == Set(b, bit)
    ensures a == b
  {
    assert Set(a, 0) == Set(b, 0) && Set(a, 1) == Set(b, 1) && Set(a, 2) == Set(b, 2) && Set(a, 3) == Set(b, 3);
    assert Set(a, 4) == Set(b, 4) && Set(a, 5) == Set(b, 5) && Set(a, 6) == Set(b, 6) && Set(a, 7) == Set(b, 7);
    assert a == (a & 1) | (a & 2) | (a & 4) | (a & 8) | (a & 16) | (a & 32) | (a & 64) | (a & 128);
    assert b == (b & 1) | (b & 2) | (b & 4) | (b & 8) | (b & 16) | (b & 32) | (b & 64) | (b & 128);
  }

  lemma SomeBit(byte: bv8)
    requires byte != 0
    ensures exists bit :: 0 <= bit < 8 && Set(byte, bit)
  {
    if forall bit :: 0 <= bit < 8 ==> !Set(byte, bit) {
      assert forall bit :: 0 <= bit < 8 ==> Set(byte, bit) == Set(0, bit);
      SameBits(byte, 0);
    }
  }

  /** Decoding inverts the packing of any set of line numbers. */
  lemma DecodePacked(lines: set<int>)
    requires forall n :: n in lines ==> 0 <= n
    ensures Decoded(Pack(lines)) == lines
  {
    hide ByteOf, Set;
    var bits := Pack(lines);
    forall n | 0 <= n < 8 * |bits|
      ensures Set(bits[n / 8], n % 8) <==> n in lines
    {
      ByteBits(lines, n / 8, n % 8);
      assert 8 * (n / 8) + n % 8 == n;
    }
  }

  /** Byte by byte, packing restores what was decoded. */
  lemma ByteRestored(bits: seq<bv8>, index: nat)
    requires index < |bits|
    ensures ByteOf(Decoded(bits), index) == bits[index]
  {
    hide ByteOf, Set;
    forall bit | 0 <= bit < 8
      ensures Set(ByteOf(Decoded(bits), index), bit) == Set(bits[index], bit)
    {
      ByteBits(Decoded(bits), index, bit);
      assert (8 * index + bit) / 8 == index && (8 * index + bit) % 8 == bit;
    }
    SameBits(ByteOf(Decoded(bits), index), bits[index]);
  }

  /** The length is the shortest exactly when the last byte has a bit. */
  lemma BytesOfDecoded(bits: seq<bv8>)
    ensures Bytes(Decoded(bits)) == |bits| <==> bits == [] || bits[|bits| - 1] != 0
  {
    hide ByteOf, Set;
    var last := |bits| - 1;
    if bits != [] && bits[last] == 0 {
      forall bit: nat | bit < 8
        ensures !Set(0, bit)
      {
        NoBit(bit);
      }
      assert forall n :: n in Decoded(bits) ==> n / 8 != last;
    } else if bits != [] {
      SomeBit(bits[last]);
      var bit :| 0 <= bit < 8 && Set(bits[last], bit);
      assert (8 * last + bit) / 8 == last && (8 * last + bit) % 8 == bit;
      assert 8 * last + bit in Decoded(bits);
    }
  }

  /** And packing gives back a bitset exactly when it has no useless last byte. */
  lemma PackDecoded(bits: seq<bv8>)
    ensures Pack(Decoded(bits)) == bits <==> bits == [] || bits[|bits| - 1] != 0
  {
    hide ByteOf, Decoded, Bytes;
    BytesOfDecoded(bits);
    forall index: nat | index < |bits|
      ensures ByteOf(Decoded(bits), index) == bits[index]
    {
      ByteRestored(bits, index);
    }
  }

  lemma NoBit(bit: nat)
    requires bit < 8
    ensures !Set(0, bit)
  {
  }

  /** The byte budget of a file with last line `bound` admits every packed set of its lines, and
      what it admits can overshoot the last line by at most seven. */
  lemma BudgetIsTight(lines: set<int>, bits: seq<bv8>, bound: nat)
    requires forall n :: n in lines ==> 0 <= n <= bound
    ensures |Pack(lines)| <= bound / 8 + 1
    ensures |bits| <= bound / 8 + 1 ==> forall n :: n in Decoded(bits) ==> n <= bound + 7
  {
  }
}
