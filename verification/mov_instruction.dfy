/**
 The opcode classifier of the disassembler: which of the seven MOV
 encodings of the 8086 a first instruction byte announces.  The classifier
 tests seven mask/pattern guards in order and answers with the form of the
 first guard that holds, or with nothing.
 */
module MovInstruction {
  import opened Results
  import opened MaskRules

  /** The seven MOV encodings; the comment gives the opcode bits. */
  datatype MovForm =
    | RegisterOrMemoryToOrFromRegister   // 100010dw
    | ImmediateToRegisterOrMemory        // 1100011w
    | ImmediateToRegister                // 1011wreg
    | MemoryToAccumulator                // 1010000w
    | AccumulatorToMemory                // 1010001w
    | RegisterOrMemoryToSegmentRegister  // 10001110
    | SegmentRegisterToRegisterOrMemory  // 10001100

  // Masks.
  const RegMemMask: bv8 := 0xFC
  const AccMemMask: bv8 := 0xFE
  const ImmRegMask: bv8 := 0xF0

  // Opcode patterns.
  const RegMemPattern: bv8 := 0x88
  const MemAccPattern: bv8 := 0xA0
  const AccMemPattern: bv8 := 0xA2
  const ImmRegPattern: bv8 := 0xB0
  const ImmMemPattern: bv8 := 0xC6
  const MemSegPattern: bv8 := 0x8E
  const SegMemPattern: bv8 := 0x8C

  /** The classification the unit tests expect of every byte: seven ranges
      of opcodes, and nothing outside them. */
  function ReferenceForm(b: bv8): Option<MovForm> {
    if 0x88 <= b <= 0x8B then Some(RegisterOrMemoryToOrFromRegister)
    else if 0xA0 <= b <= 0xA1 then Some(MemoryToAccumulator)
    else if 0xA2 <= b <= 0xA3 then Some(AccumulatorToMemory)
    else if 0xB0 <= b <= 0xBF then Some(ImmediateToRegister)
    else if 0xC6 <= b <= 0xC7 then Some(ImmediateToRegisterOrMemory)
    else if 0x8E <= b <= 0x8F then Some(RegisterOrMemoryToSegmentRegister)
    else if 0x8C <= b <= 0x8D then Some(SegmentRegisterToRegisterOrMemory)
    else None
  }

  /** Classifies an instruction's first byte by the guards, in source order. */
  function FromByte(b: bv8): Option<MovForm> {
    if b & RegMemMask == RegMemPattern then Some(RegisterOrMemoryToOrFromRegister)
    else if b & AccMemMask == MemAccPattern then Some(MemoryToAccumulator)
    else if b & AccMemMask == AccMemPattern then Some(AccumulatorToMemory)
    else if b & ImmRegMask == ImmRegPattern then Some(ImmediateToRegister)
    else if b & AccMemMask == ImmMemPattern then Some(ImmediateToRegisterOrMemory)
    else if b & AccMemMask == MemSegPattern then Some(RegisterOrMemoryToSegmentRegister)
    else if b & AccMemMask == SegMemPattern then Some(SegmentRegisterToRegisterOrMemory)
    else None
  }

  /** Every byte classifies as the reference table says. */
  lemma FromByteMatchesReference(b: bv8)
    ensures FromByte(b) == ReferenceForm(b)
  {
  }

  /** Classification that fails, carrying the offending byte, where the
      original aborts with "Unable to determine instruction for byte". */
  function FindInstruction(b: bv8): (r: Result<MovForm, bv8>)
    ensures r.Ok? <==> FromByte(b).Some?
    ensures r.Ok? ==> r.value == FromByte(b).value
    ensures r.Err? ==> r.error == b
  {
    match FromByte(b)
    case Some(form) => Ok(form)
    case None => Err(b)
  }

  /** The bytes the unit tests expect classification to reject. */
  lemma InvalidOpcodesFail()
    ensures FindInstruction(0x00) == Err(0x00)
    ensures FindInstruction(0x01) == Err(0x01)
    ensures FindInstruction(0x10) == Err(0x10)
    ensures FindInstruction(0x42) == Err(0x42)
    ensures FindInstruction(0xD0) == Err(0xD0)
    ensures FindInstruction(0xFF) == Err(0xFF)
  {}

  /** The seven guards of `FromByte` as a table, in source order. */
  const MainRules: seq<Rule<MovForm>> := [
    Rule(RegMemMask, RegMemPattern, RegisterOrMemoryToOrFromRegister),
    Rule(AccMemMask, MemAccPattern, MemoryToAccumulator),
    Rule(AccMemMask, AccMemPattern, AccumulatorToMemory),
    Rule(ImmRegMask, ImmRegPattern, ImmediateToRegister),
    Rule(AccMemMask, ImmMemPattern, ImmediateToRegisterOrMemory),
    Rule(AccMemMask, MemSegPattern, RegisterOrMemoryToSegmentRegister),
    Rule(AccMemMask, SegMemPattern, SegmentRegisterToRegisterOrMemory)
  ]

  /** `FromByte` is first-match evaluation of its table. */
  lemma FromByteIsFirstMatch(b: bv8)
    ensures FromByte(b) == FirstMatch(MainRules, b)
  {
    var t := MainRules;
    assert FirstMatch(t, b) == if Matches(t[0], b) then Some(t[0].form) else FirstMatch(t[1..], b);
    assert FirstMatch(t[1..], b) == if Matches(t[1], b) then Some(t[1].form) else FirstMatch(t[2..], b);
    assert FirstMatch(t[2..], b) == if Matches(t[2], b) then Some(t[2].form) else FirstMatch(t[3..], b);
    assert FirstMatch(t[3..], b) == if Matches(t[3], b) then Some(t[3].form) else FirstMatch(t[4..], b);
    assert FirstMatch(t[4..], b) == if Matches(t[4], b) then Some(t[4].form) else FirstMatch(t[5..], b);
    assert FirstMatch(t[5..], b) == if Matches(t[5], b) then Some(t[5].form) else FirstMatch(t[6..], b);
    assert FirstMatch(t[6..], b) == if Matches(t[6], b) then Some(t[6].form) else FirstMatch(t[7..], b);
    assert FirstMatch(t[7..], b) == None;
  }

  /** No byte satisfies two of the seven guards. */
  lemma MainRulesExclusive(b: bv8)
    ensures Exclusive(MainRules, b)
  {
  }

  /** Hence evaluating the guards in any order classifies every byte as
      `FromByte` does. */
  lemma FromByteOrderIndependent(reordered: seq<Rule<MovForm>>, b: bv8)
    requires multiset(reordered) == multiset(MainRules)
    ensures FirstMatch(reordered, b) == FromByte(b)
  {
    FromByteIsFirstMatch(b);
    MainRulesExclusive(b);
    FirstMatchOrderIndependent(MainRules, reordered, b);
  }
}
