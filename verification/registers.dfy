/**
 The lookup tables behind operand decoding: the 2-bit addressing mode and
 the register selected by a width bit and a 3-bit field, together with the
 ASCII lowercasing applied to register names on output.
 */
module Registers {
  import opened Results

  /** The 2-bit `mod` field of the second instruction byte. */
  datatype ModEncoding =
    | MemMode       // 00: memory, no displacement
    | MemMode8B     // 01: memory, 8-bit displacement
    | MemMode16B    // 10: memory, 16-bit displacement
    | RegisterMode  // 11: register to register

  /** The encoding of each mode, as its enum discriminant. */
  function ModBits(m: ModEncoding): bv8 {
    match m
    case MemMode => 0
    case MemMode8B => 1
    case MemMode16B => 2
    case RegisterMode => 3
  }

  /** The addressing mode whose discriminant is `bits`, if any. */
  function ModFromBits(bits: bv8): (r: Option<ModEncoding>)
    ensures r.Some? <==> bits < 4
    ensures r.Some? ==> ModBits(r.value) == bits
  {
    if bits == ModBits(MemMode) then Some(MemMode)
    else if bits == ModBits(MemMode8B) then Some(MemMode8B)
    else if bits == ModBits(MemMode16B) then Some(MemMode16B)
    else if bits == ModBits(RegisterMode) then Some(RegisterMode)
    else None
  }

  /** Decoding a mode's encoding gives the mode back. */
  lemma ModRoundTrip(m: ModEncoding)
    ensures ModFromBits(ModBits(m)) == Some(m)
  {
  }

  /** The names the original's tables give, indexed by register code: byte
      registers for width 0 (with the fifth spelled "Ch"), word registers
      for width 1. */
  const ByteOpNames: seq<string> := ["AL", "CL", "DL", "BL", "AH", "Ch", "DH", "BH"]
  const WordOpNames: seq<string> := ["AX", "CX", "DX", "BX", "SP", "BP", "SI", "DI"]

  /** The register named by width bit `w` and 3-bit code `bits`, if any. */
  function RegisterName(w: bv8, bits: bv8): (r: Option<string>)
    ensures r.Some? <==> w <= 1 && bits < 8
    ensures r.Some? ==> |r.value| == 2
  {
    if w == 0 && bits < 8 then Some(ByteOpNames[bits as int])
    else if w == 1 && bits < 8 then Some(WordOpNames[bits as int])
    else None
  }

  /** The 8086 register table in assembler spelling: `al cl dl bl ah ch dh bh`
      for byte operands and `ax cx dx bx sp bp si di` for word operands. */
  function CanonicalName(w: bv8, bits: bv8): string
    requires w <= 1 && bits < 8
  {
    if w == 0 then ["al", "cl", "dl", "bl", "ah", "ch", "dh", "bh"][bits as int]
    else ["ax", "cx", "dx", "bx", "sp", "bp", "si", "di"][bits as int]
  }

  /** Lowercasing the original's spelling of a register, "Ch" included,
      gives its assembler name. */
  lemma LowerNameIsCanonical(w: bv8, bits: bv8)
    requires w <= 1 && bits < 8
    ensures AsciiLower(RegisterName(w, bits).value) == CanonicalName(w, bits)
  {
    var s := RegisterName(w, bits).value;
    var t := CanonicalName(w, bits);
    var r := AsciiLower(s);
    assert |t| == 2;
    assert r[0] == t[0] && r[1] == t[1];
  }

  /** Distinct table entries name distinct registers. */
  lemma CanonicalNameInjective(w: bv8, bits: bv8, w': bv8, bits': bv8)
    requires w <= 1 && bits < 8 && w' <= 1 && bits' < 8
    requires CanonicalName(w, bits) == CanonicalName(w', bits')
    ensures w == w' && bits == bits'
  {
  }

  /** Every register name is two lowercase letters, so none holds a newline. */
  lemma CanonicalNameIsLowercase(w: bv8, bits: bv8)
    requires w <= 1 && bits < 8
    ensures |CanonicalName(w, bits)| == 2
    ensures forall i :: 0 <= i < 2 ==> 'a' <= CanonicalName(w, bits)[i] <= 'z'
  {
  }

  function LowerChar(c: char): char {
    if 'A' <= c <= 'Z' then (c as int + 32) as char else c
  }

  /** ASCII lowercasing: upper-case letters become lower-case, every other
      character is kept. */
  function AsciiLower(s: string): (r: string)
    ensures |r| == |s|
    ensures forall i :: 0 <= i < |s| ==>
      if 'A' <= s[i] <= 'Z' then r[i] as int == s[i] as int + 32 else r[i] == s[i]
  {
    if |s| == 0 then [] else [LowerChar(s[0])] + AsciiLower(s[1..])
  }
}
