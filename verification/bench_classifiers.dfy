/**
 The three alternative renderings of the opcode classifier that the
 benchmark compares: a match on a tuple of masked bytes, a guarded match on
 named constants, and a chain of early returns.  All three mask the
 immediate-to-register opcode with 0xF8 where the decoder uses 0xF0.
 */
module BenchClassifiers {
  import opened Results
  import opened MaskRules
  import opened MovInstruction

  /** Approach 1: one match over the byte under three masks at once. */
  function Approach1FromByte(b: bv8): (r: Option<MovForm>)
    ensures r == BenchReferenceForm(b)
  {
    var (regMem, accMem, immReg) := (b & 0xFC, b & 0xFE, b & 0xF8);
    if regMem == 0x88 then Some(RegisterOrMemoryToOrFromRegister)
    else if accMem == 0xA0 then Some(MemoryToAccumulator)
    else if accMem == 0xA2 then Some(AccumulatorToMemory)
    else if immReg == 0xB0 then Some(ImmediateToRegister)
    else if accMem == 0xC6 then Some(ImmediateToRegisterOrMemory)
    else if accMem == 0x8E then Some(RegisterOrMemoryToSegmentRegister)
    else if accMem == 0x8C then Some(SegmentRegisterToRegisterOrMemory)
    else None
  }

  // Approach 2's masks and patterns.
  const Approach2RegMemMask: bv8 := 0xFC
  const Approach2AccMemMask: bv8 := 0xFE
  const Approach2ImmRegMask: bv8 := 0xF8
  const Approach2RegMemPattern: bv8 := 0x88
  const Approach2MemAccPattern: bv8 := 0xA0
  const Approach2AccMemPattern: bv8 := 0xA2
  const Approach2ImmRegPattern: bv8 := 0xB0
  const Approach2ImmMemPattern: bv8 := 0xC6
  const Approach2MemSegPattern: bv8 := 0x8E
  const Approach2SegMemPattern: bv8 := 0x8C

  /** Approach 2: guarded match arms over named masks and patterns. */
  function Approach2FromByte(b: bv8): (r: Option<MovForm>)
    ensures r == BenchReferenceForm(b)
  {
    if b & Approach2RegMemMask == Approach2RegMemPattern then Some(RegisterOrMemoryToOrFromRegister)
    else if b & Approach2AccMemMask == Approach2MemAccPattern then Some(MemoryToAccumulator)
    else if b & Approach2AccMemMask == Approach2AccMemPattern then Some(AccumulatorToMemory)
    else if b & Approach2ImmRegMask == Approach2ImmRegPattern then Some(ImmediateToRegister)
    else if b & Approach2AccMemMask == Approach2ImmMemPattern then Some(ImmediateToRegisterOrMemory)
    else if b & Approach2AccMemMask == Approach2MemSegPattern then Some(RegisterOrMemoryToSegmentRegister)
    else if b & Approach2AccMemMask == Approach2SegMemPattern then Some(SegmentRegisterToRegisterOrMemory)
    else None
  }

  /** Approach 3: a chain of tests with literal masks, returning early. */
  function Approach3FromByte(b: bv8): (r: Option<MovForm>)
    ensures r == BenchReferenceForm(b)
  {
    if b & 0xFC == 0x88 then Some(RegisterOrMemoryToOrFromRegister)
    else if b & 0xFE == 0xA0 then Some(MemoryToAccumulator)
    else if b & 0xFE == 0xA2 then Some(AccumulatorToMemory)
    else if b & 0xF8 == 0xB0 then Some(ImmediateToRegister)
    else if b & 0xFE == 0xC6 then Some(ImmediateToRegisterOrMemory)
    else if b & 0xFE == 0x8E then Some(RegisterOrMemoryToSegmentRegister)
    else if b & 0xFE == 0x8C then Some(SegmentRegisterToRegisterOrMemory)
    else None
  }

  /** Each approach's `find_instruction`: its classification, or the
      offending byte where the original aborts. */
  function Approach1FindInstruction(b: bv8): (r: Result<MovForm, bv8>)
    ensures r.Ok? <==> BenchReferenceForm(b).Some?
    ensures r.Ok? ==> Some(r.value) == Approach1FromByte(b)
    ensures r.Err? ==> r.error == b
  {
    match Approach1FromByte(b)
    case Some(form) => Ok(form)
    case None => Err(b)
  }

  function Approach2FindInstruction(b: bv8): (r: Result<MovForm, bv8>)
    ensures r.Ok? <==> BenchReferenceForm(b).Some?
    ensures r.Ok? ==> Some(r.value) == Approach2FromByte(b)
    ensures r.Err? ==> r.error == b
  {
    match Approach2FromByte(b)
    case Some(form) => Ok(form)
    case None => Err(b)
  }

  function Approach3FindInstruction(b: bv8): (r: Result<MovForm, bv8>)
    ensures r.Ok? <==> BenchReferenceForm(b).Some?
    ensures r.Ok? ==> Some(r.value) == Approach3FromByte(b)
    ensures r.Err? ==> r.error == b
  {
    match Approach3FromByte(b)
    case Some(form) => Ok(form)
    case None => Err(b)
  }

  /** What the benchmark classifiers accept: the decoder's ranges, except
      that immediate-to-register stops at 0xB7. */
  function BenchReferenceForm(b: bv8): Option<MovForm> {
    if 0x88 <= b <= 0x8B then Some(RegisterOrMemoryToOrFromRegister)
    else if 0xA0 <= b <= 0xA1 then Some(MemoryToAccumulator)
    else if 0xA2 <= b <= 0xA3 then Some(AccumulatorToMemory)
    else if 0xB0 <= b <= 0xB7 then Some(ImmediateToRegister)
    else if 0xC6 <= b <= 0xC7 then Some(ImmediateToRegisterOrMemory)
    else if 0x8E <= b <= 0x8F then Some(RegisterOrMemoryToSegmentRegister)
    else if 0x8C <= b <= 0x8D then Some(SegmentRegisterToRegisterOrMemory)
    else None
  }

  /** The three renderings classify every byte alike. */
  lemma ApproachesAgree(b: bv8)
    ensures Approach1FromByte(b) == Approach2FromByte(b) == Approach3FromByte(b)
  {
  }

  /** They agree with the decoder's classifier on every byte except
      0xB8-0xBF, where the decoder says immediate-to-register and they say
      nothing. */
  lemma BenchDivergesFromMainOnB8ToBF(b: bv8)
    ensures 0xB8 <= b <= 0xBF ==> FromByte(b) == Some(ImmediateToRegister) && Approach1FromByte(b) == None
    ensures !(0xB8 <= b <= 0xBF) ==> Approach1FromByte(b) == FromByte(b)
  {
  }

  /** The benchmark's guards as a table, in source order. */
  const BenchRules: seq<Rule<MovForm>> := [
    Rule(0xFC, 0x88, RegisterOrMemoryToOrFromRegister),
    Rule(0xFE, 0xA0, MemoryToAccumulator),
    Rule(0xFE, 0xA2, AccumulatorToMemory),
    Rule(0xF8, 0xB0, ImmediateToRegister),
    Rule(0xFE, 0xC6, ImmediateToRegisterOrMemory),
    Rule(0xFE, 0x8E, RegisterOrMemoryToSegmentRegister),
    Rule(0xFE, 0x8C, SegmentRegisterToRegisterOrMemory)
  ]

  /** Each approach is first-match evaluation of that table. */
  lemma BenchIsFirstMatch(b: bv8)
    ensures Approach1FromByte(b) == FirstMatch(BenchRules, b)
    ensures Approach2FromByte(b) == FirstMatch(BenchRules, b)
    ensures Approach3FromByte(b) == FirstMatch(BenchRules, b)
  {
    ApproachesAgree(b);
    var t := BenchRules;
    assert FirstMatch(t, b) == if Matches(t[0], b) then Some(t[0].form) else FirstMatch(t[1..], b);
    assert FirstMatch(t[1..], b) == if Matches(t[1], b) then Some(t[1].form) else FirstMatch(t[2..], b);
    assert FirstMatch(t[2..], b) == if Matches(t[2], b) then Some(t[2].form) else FirstMatch(t[3..], b);
    assert FirstMatch(t[3..], b) == if Matches(t[3], b) then Some(t[3].form) else FirstMatch(t[4..], b);
    assert FirstMatch(t[4..], b) == if Matches(t[4], b) then Some(t[4].form) else FirstMatch(t[5..], b);
    assert FirstMatch(t[5..], b) == if Matches(t[5], b) then Some(t[5].form) else FirstMatch(t[6..], b);
    assert FirstMatch(t[6..], b) == if Matches(t[6], b) then Some(t[6].form) else FirstMatch(t[7..], b);
    assert FirstMatch(t[7..], b) == None;
  }

  /** No byte satisfies two of the benchmark's guards, so their order does
      not matter either. */
  lemma BenchRulesExclusive(b: bv8)
    ensures Exclusive(BenchRules, b)
  {
  }

  /** Evaluating the benchmark's rules in any order gives every approach's
      classification. */
  lemma BenchOrderIndependent(reordered: seq<Rule<MovForm>>, b: bv8)
    requires multiset(reordered) == multiset(BenchRules)
    ensures FirstMatch(reordered, b) == Approach1FromByte(b)
    ensures FirstMatch(reordered, b) == Approach2FromByte(b)
    ensures FirstMatch(reordered, b) == Approach3FromByte(b)
  {
    BenchIsFirstMatch(b);
    BenchRulesExclusive(b);
    FirstMatchOrderIndependent(BenchRules, reordered, b);
  }

  /** The bytes the benchmark feeds the classifiers, each with the form its
      comment assigns it. */
  const BenchTestBytes: seq<(bv8, MovForm)> := [
    (0x88, RegisterOrMemoryToOrFromRegister), (0x89, RegisterOrMemoryToOrFromRegister),
    (0x8A, RegisterOrMemoryToOrFromRegister), (0x8B, RegisterOrMemoryToOrFromRegister),
    (0xA0, MemoryToAccumulator), (0xA1, MemoryToAccumulator),
    (0xA2, AccumulatorToMemory), (0xA3, AccumulatorToMemory),
    (0xB0, ImmediateToRegister), (0xB1, ImmediateToRegister),
    (0xB7, ImmediateToRegister), (0xBF, ImmediateToRegister),
    (0xC6, ImmediateToRegisterOrMemory), (0xC7, ImmediateToRegisterOrMemory),
    (0x8E, RegisterOrMemoryToSegmentRegister), (0x8F, RegisterOrMemoryToSegmentRegister),
    (0x8C, SegmentRegisterToRegisterOrMemory), (0x8D, SegmentRegisterToRegisterOrMemory)
  ]

  /** As written, the benchmark classifiers reject 0xBF, which their own
      test bytes label immediate-to-register (mov di, imm16). */
  lemma BenchMissesWordImmediate()
    ensures BenchTestBytes[11] == (0xBF, ImmediateToRegister)
    ensures Approach1FromByte(0xBF) == None
    ensures Approach2FromByte(0xBF) == None
    ensures Approach3FromByte(0xBF) == None
  {
  }

  /** The benchmark classifier with the immediate-to-register mask the
      decoder uses, 0xF0. */
  function CorrectedBenchFromByte(b: bv8): (r: Option<MovForm>)
    ensures r == ReferenceForm(b)
  {
    if b & 0xFC == 0x88 then Some(RegisterOrMemoryToOrFromRegister)
    else if b & 0xFE == 0xA0 then Some(MemoryToAccumulator)
    else if b & 0xFE == 0xA2 then Some(AccumulatorToMemory)
    else if b & 0xF0 == 0xB0 then Some(ImmediateToRegister)
    else if b & 0xFE == 0xC6 then Some(ImmediateToRegisterOrMemory)
    else if b & 0xFE == 0x8E then Some(RegisterOrMemoryToSegmentRegister)
    else if b & 0xFE == 0x8C then Some(SegmentRegisterToRegisterOrMemory)
    else None
  }

  /** Corrected, it classifies every test byte as labelled. */
  lemma CorrectedBenchMatchesLabels()
    ensures forall i :: 0 <= i < |BenchTestBytes| ==> CorrectedBenchFromByte(BenchTestBytes[i].0) == Some(BenchTestBytes[i].1)
  {
  }

  /** Corrected, it agrees with the decoder's classifier on every byte. */
  lemma CorrectedBenchAgreesWithMain(b: bv8)
    ensures CorrectedBenchFromByte(b) == FromByte(b)
  {
  }
}
