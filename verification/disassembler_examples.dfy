/**
 Concrete inputs and what the disassembler makes of them: the listings the
 original is exercised with, rebuilt byte pair by byte pair, and one input
 for each way decoding stops.
 */
module DisassemblerExamples {
  import opened Results
  import opened Registers
  import opened Text
  import MovInstruction
  import opened Disassembler

  /** 89 D9: width 1, reg 011 (bx), r/m 001 (cx). */
  lemma SingleRegisterMove()
    ensures DisassembleBinary([0x89, 0xD9]) == Ok("mov cx, bx")
  {
    ManyRegisterChunkLines();
    DisassembleSingle(0x89, 0xD9);
  }

  /** No bytes, no lines. */
  lemma EmptyInput()
    ensures DisassembleBinary([]) == Ok("")
  {
  }

  /** Eleven register-to-register moves, each with the direction bit clear. */
  const ManyRegisterMoves: seq<bv8> := [
    0x89, 0xD9, 0x88, 0xE5, 0x89, 0xDA, 0x89, 0xDE, 0x89, 0xFB, 0x88, 0xC8,
    0x88, 0xED, 0x89, 0xC3, 0x89, 0xF3, 0x89, 0xFC, 0x89, 0xC5
  ]

  const ManyRegisterLines: seq<string> := [
    "mov cx, bx", "mov ch, ah", "mov dx, bx", "mov si, bx", "mov bx, di", "mov al, cl",
    "mov ch, ch", "mov bx, ax", "mov bx, si", "mov sp, di", "mov bp, ax"
  ]

  /** Each of the eleven chunks, rendered. */
  lemma ManyRegisterChunkLines()
    ensures IsRegisterMove(0x89, 0xD9) && MoveLine(0x89, 0xD9) == ManyRegisterLines[0]
    ensures IsRegisterMove(0x88, 0xE5) && MoveLine(0x88, 0xE5) == ManyRegisterLines[1]
    ensures IsRegisterMove(0x89, 0xDA) && MoveLine(0x89, 0xDA) == ManyRegisterLines[2]
    ensures IsRegisterMove(0x89, 0xDE) && MoveLine(0x89, 0xDE) == ManyRegisterLines[3]
    ensures IsRegisterMove(0x89, 0xFB) && MoveLine(0x89, 0xFB) == ManyRegisterLines[4]
    ensures IsRegisterMove(0x88, 0xC8) && MoveLine(0x88, 0xC8) == ManyRegisterLines[5]
    ensures IsRegisterMove(0x88, 0xED) && MoveLine(0x88, 0xED) == ManyRegisterLines[6]
    ensures IsRegisterMove(0x89, 0xC3) && MoveLine(0x89, 0xC3) == ManyRegisterLines[7]
    ensures IsRegisterMove(0x89, 0xF3) && MoveLine(0x89, 0xF3) == ManyRegisterLines[8]
    ensures IsRegisterMove(0x89, 0xFC) && MoveLine(0x89, 0xFC) == ManyRegisterLines[9]
    ensures IsRegisterMove(0x89, 0xC5) && MoveLine(0x89, 0xC5) == ManyRegisterLines[10]
  {
    assert CanonicalName(0, 0) == "al" && CanonicalName(0, 1) == "cl";
    assert CanonicalName(0, 4) == "ah" && CanonicalName(0, 5) == "ch";
    assert CanonicalName(1, 0) == "ax" && CanonicalName(1, 1) == "cx" && CanonicalName(1, 2) == "dx";
    assert CanonicalName(1, 3) == "bx" && CanonicalName(1, 4) == "sp" && CanonicalName(1, 5) == "bp";
    assert CanonicalName(1, 6) == "si" && CanonicalName(1, 7) == "di";
  }

  /** The eleven chunks of the stream. */
  lemma ManyRegisterChunks()
    ensures PairAt(ManyRegisterMoves, 0) == (0x89, 0xD9)
    ensures PairAt(ManyRegisterMoves, 1) == (0x88, 0xE5)
    ensures PairAt(ManyRegisterMoves, 2) == (0x89, 0xDA)
    ensures PairAt(ManyRegisterMoves, 3) == (0x89, 0xDE)
    ensures PairAt(ManyRegisterMoves, 4) == (0x89, 0xFB)
    ensures PairAt(ManyRegisterMoves, 5) == (0x88, 0xC8)
    ensures PairAt(ManyRegisterMoves, 6) == (0x88, 0xED)
    ensures PairAt(ManyRegisterMoves, 7) == (0x89, 0xC3)
    ensures PairAt(ManyRegisterMoves, 8) == (0x89, 0xF3)
    ensures PairAt(ManyRegisterMoves, 9) == (0x89, 0xFC)
    ensures PairAt(ManyRegisterMoves, 10) == (0x89, 0xC5)
  {
  }

  /** The eleven-move listing disassembles to its eleven lines, in order. */
  lemma ManyRegisterStream()
    ensures DisassembleBinary(ManyRegisterMoves) == Ok(Join(ManyRegisterLines, '\n'))
  {
    var data := ManyRegisterMoves;
    ManyRegisterChunkLines();
    ManyRegisterChunks();
    forall k | 0 <= k < |data| / 2
      ensures IsRegisterMove(PairAt(data, k).0, PairAt(data, k).1)
      ensures MoveLine(PairAt(data, k).0, PairAt(data, k).1) == ManyRegisterLines[k]
    {
      if k == 0 {
        assert PairAt(data, k) == (0x89, 0xD9);
      } else if k == 1 {
        assert PairAt(data, k) == (0x88, 0xE5);
      } else if k == 2 {
        assert PairAt(data, k) == (0x89, 0xDA);
      } else if k == 3 {
        assert PairAt(data, k) == (0x89, 0xDE);
      } else if k == 4 {
        assert PairAt(data, k) == (0x89, 0xFB);
      } else if k == 5 {
        assert PairAt(data, k) == (0x88, 0xC8);
      } else if k == 6 {
        assert PairAt(data, k) == (0x88, 0xED);
      } else if k == 7 {
        assert PairAt(data, k) == (0x89, 0xC3);
      } else if k == 8 {
        assert PairAt(data, k) == (0x89, 0xF3);
      } else if k == 9 {
        assert PairAt(data, k) == (0x89, 0xFC);
      } else if k == 10 {
        assert PairAt(data, k) == (0x89, 0xC5);
      }
    }
    assert IsRegisterStream(data);
    assert ExpectedLines(data) == ManyRegisterLines;
    DisassembleBinaryCorrect(data);
  }

  /** 00 is no MOV opcode. */
  lemma UnrecognizedFirstByte()
    ensures DisassembleBinary([0x00, 0xC0]) == Err(UnrecognizedOpcode(0, 0x00))
  {
    DecodeInstructionFails(0x00, 0xC0, 0);
    DisassembleLeadingFailure([0x00, 0xC0]);
  }

  /** A lone byte after a complete instruction has no second byte. */
  lemma OddLengthInput()
    ensures DisassembleBinary([0x89, 0xD9, 0x89]) == Err(TruncatedInstruction(2))
  {
  }

  /** 89 19 asks for memory mode 00, which is not implemented. */
  lemma MemoryModeUnsupported()
    ensures DisassembleBinary([0x89, 0x19]) == Err(UnsupportedMode(0, MemMode))
  {
    assert DecodeInstruction(0x89, 0x19, 0) == Err(UnsupportedMode(0, MemMode));
    DisassembleLeadingFailure([0x89, 0x19]);
  }

  /** 8A E5 (mov ah, ch with the direction bit set) leaves the source unset. */
  lemma DirectionBitSetFails()
    ensures DisassembleBinary([0x8A, 0xE5]) == Err(MissingOperand(0))
  {
    DecodeInstructionFails(0x8A, 0xE5, 0);
    DisassembleLeadingFailure([0x8A, 0xE5]);
  }

  /** B1 announces an immediate-to-register move, yet the chunk is rendered
      as a register-to-register move of width 1. */
  lemma ImmediateOpcodeRenderedAsRegisterMove()
    ensures DisassembleBinary([0xB1, 0xC8]) == Ok("mov ax, cx")
  {
    ImmediateChunkLine();
    DisassembleSingle(0xB1, 0xC8);
  }

  /** B1 C8 read as a register move: width 1, reg 001 (cx), r/m 000 (ax). */
  lemma ImmediateChunkLine()
    ensures IsRegisterMove(0xB1, 0xC8) && MoveLine(0xB1, 0xC8) == "mov ax, cx"
  {
    assert CanonicalName(1, 0) == "ax" && CanonicalName(1, 1) == "cx";
  }

  /** 8C D8 announces a segment-register move and A1 C0 a memory-to-accumulator
      move; both chunks are rendered as register moves all the same. */
  lemma OtherFormsRenderedAsRegisterMoves()
    ensures DisassembleBinary([0x8C, 0xD8]) == Ok("mov al, bl")
    ensures DisassembleBinary([0xA1, 0xC0]) == Ok("mov ax, ax")
  {
    OtherFormsChunkLines();
    DisassembleSingle(0x8C, 0xD8);
    DisassembleSingle(0xA1, 0xC0);
  }

  /** 8C D8: width 0, reg 011 (bl), r/m 000 (al); A1 C0: width 1, reg and r/m 000 (ax). */
  lemma OtherFormsChunkLines()
    ensures IsRegisterMove(0x8C, 0xD8) && MoveLine(0x8C, 0xD8) == "mov al, bl"
    ensures IsRegisterMove(0xA1, 0xC0) && MoveLine(0xA1, 0xC0) == "mov ax, ax"
  {
    assert CanonicalName(0, 0) == "al" && CanonicalName(0, 3) == "bl";
    assert CanonicalName(1, 0) == "ax";
  }

  /** A2-A3 (accumulator to memory), C6-C7 (immediate to register or memory),
      8E-8F (to a segment register) and every immediate-to-register opcode
      with bit 1 set carry the direction bit, so none of their chunks is ever
      rendered: in register mode the source operand is lost. */
  lemma DirectionSetFormsNeverRender(b0: bv8, b1: bv8, offset: nat)
    requires 0xA2 <= b0 <= 0xA3 || 0xC6 <= b0 <= 0xC7 || 0x8E <= b0 <= 0x8F
          || (0xB0 <= b0 <= 0xBF && b0 & 0x02 == 0x02)
    ensures b0 & 0x02 == 0x02
    ensures DecodeInstruction(b0, b1, offset).Err?
    ensures b1 & 0xC0 == 0xC0 ==> DecodeInstruction(b0, b1, offset) == Err(MissingOperand(offset))
  {
    MovInstruction.FromByteMatchesReference(b0);
    DecodeInstructionSucceedsIff(b0, b1, offset);
    DecodeInstructionFails(b0, b1, offset);
  }

  /** Register-mode chunks of those forms stop the disassembly at once. */
  lemma DirectionSetFormsFail()
    ensures DisassembleBinary([0x8E, 0xD8]) == Err(MissingOperand(0))
    ensures DisassembleBinary([0xC6, 0xC0]) == Err(MissingOperand(0))
    ensures DisassembleBinary([0xA3, 0xC0]) == Err(MissingOperand(0))
    ensures DisassembleBinary([0xBA, 0xC0]) == Err(MissingOperand(0))
  {
    DirectionSetFormsNeverRender(0x8E, 0xD8, 0);
    DisassembleLeadingFailure([0x8E, 0xD8]);
    DirectionSetFormsNeverRender(0xC6, 0xC0, 0);
    DisassembleLeadingFailure([0xC6, 0xC0]);
    DirectionSetFormsNeverRender(0xA3, 0xC0, 0);
    DisassembleLeadingFailure([0xA3, 0xC0]);
    DirectionSetFormsNeverRender(0xBA, 0xC0, 0);
    DisassembleLeadingFailure([0xBA, 0xC0]);
  }
}
