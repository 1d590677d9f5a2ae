/**
 Bit-field extraction as the decoder does it: bit positions are counted
 from the most significant bit of the byte, so bit 0 is the top bit and the
 field `[start, end)` reads `end - start` bits left to right.
 */
module Bits {

  /** Bit `i` of `b`, counted from the most significant end. */
  predicate BitAt(b: bv8, i: bv8)
    requires i < 8
  {
    (b >> (7 - i)) & 1 == 1
  }

  /** The bits `[start, end)` of `b`, shifted down to the low end: shift the
      field to the top of the byte, then back down by eight minus its width.
      The original asserts `start < end` and `end <= 8`. */
  function ExtractBits(b: bv8, start: bv8, end: bv8): (r: bv8)
    requires start < end <= 8
    ensures r >> (end - start) == 0
    ensures r == (b >> (8 - end)) & ((1 << (end - start)) - 1)
    ensures start == 0 && end == 8 ==> r == b
  {
    var numBits := end - start;
    (b << start) >> (8 - numBits)
  }

  /** Bit `start + j` of the byte is bit `j` of the field, both read from
      the most significant end; the field sits in the low `end - start` bits
      of the result. */
  lemma ExtractBitsReadsField(b: bv8, start: bv8, end: bv8, j: bv8)
    requires start < end <= 8
    requires j < end - start
    ensures BitAt(ExtractBits(b, start, end), 8 - (end - start) + j) == BitAt(b, start + j)
  {
  }

  /** The six fields of a two-byte MOV encoding: opcode, direction and width
      in the first byte; mode, register and register/memory in the second. */
  datatype Fields = Fields(opCode: bv8, d: bv8, w: bv8, mode: bv8, reg: bv8, rm: bv8)

  /** Every field fits its width. */
  predicate FieldsInRange(f: Fields) {
    f.opCode < 64 && f.d < 2 && f.w < 2 && f.mode < 4 && f.reg < 8 && f.rm < 8
  }

  /** The field split the disassembler performs on each two-byte chunk. */
  function SplitFields(b0: bv8, b1: bv8): Fields {
    Fields(ExtractBits(b0, 0, 6), ExtractBits(b0, 6, 7), ExtractBits(b0, 7, 8),
           ExtractBits(b1, 0, 2), ExtractBits(b1, 2, 5), ExtractBits(b1, 5, 8))
  }

  /** The six fields are in range and partition the two bytes, most
      significant field first. */
  lemma SplitFieldsPartition(b0: bv8, b1: bv8)
    ensures FieldsInRange(SplitFields(b0, b1))
    ensures var f := SplitFields(b0, b1);
      && f.opCode * 4 + f.d * 2 + f.w == b0
      && f.mode * 64 + f.reg * 8 + f.rm == b1
  {
  }

  /** Packs in-range fields back into the two bytes. */
  function JoinFields(f: Fields): (bv8, bv8) {
    ((f.opCode << 2) | (f.d << 1) | f.w, (f.mode << 6) | (f.reg << 3) | f.rm)
  }

  /** Splitting is the inverse of packing, on in-range fields. */
  lemma SplitJoinFields(f: Fields)
    requires FieldsInRange(f)
    ensures SplitFields(JoinFields(f).0, JoinFields(f).1) == f
  {
  }

  /** Packing is the inverse of splitting, on every pair of bytes. */
  lemma JoinSplitFields(b0: bv8, b1: bv8)
    ensures JoinFields(SplitFields(b0, b1)) == (b0, b1)
  {
  }
}
