/**
 The disassembly driver: it walks the input in two-byte chunks, classifies
 each chunk's first byte, splits both bytes into fields and renders a
 register-to-register MOV as `mov <destination>, <source>` with lowercase
 register names, joining the lines with newlines.  Every abort of the
 original becomes a `DecodeError` carrying the offset of the chunk.
 */
module Disassembler {
  import opened Results
  import opened Bits
  import opened Registers
  import opened MovInstruction
  import opened Text

  /** Why decoding stopped, and at which byte offset. */
  datatype DecodeError =
    | TruncatedInstruction(offset: nat)                  // fewer than two bytes left for the chunk
    | UnrecognizedOpcode(offset: nat, byte: bv8)         // the first byte classifies as no MOV form
    | InvalidDirection(offset: nat, d: bv8)              // d is neither 0 nor 1
    | InvalidMode(offset: nat, bits: bv8)                // mod has no table entry
    | UnsupportedMode(offset: nat, mode: ModEncoding)    // a memory mode, not implemented
    | MissingOperand(offset: nat)                        // destination or source left unset

  /** The fixed number of bytes the driver consumes per instruction. */
  const ChunkSize: nat := 2

  /** Decodes one two-byte chunk found at `offset`: the first byte must
      classify as a MOV form, after which only the fields decide. */
  function DecodeInstruction(b0: bv8, b1: bv8, offset: nat): Result<string, DecodeError> {
    var f := SplitFields(b0, b1);
    match FindInstruction(b0)
    case Err(byte) => Err(UnrecognizedOpcode(offset, byte))
    case Ok(_) => DecodeOperands(f.d, f.w, f.mode, f.reg, f.rm, offset)
  }

  /** Renders a chunk from its fields, checking in the original's order:
      direction, mode, operands. */
  function DecodeOperands(d: bv8, w: bv8, mode: bv8, reg: bv8, rm: bv8, offset: nat): Result<string, DecodeError> {
    if d != 0 && d != 1 then Err(InvalidDirection(offset, d))
    else
      var source := if d == 0 then RegisterName(w, reg) else None;
      match ModFromBits(mode)
      case None => Err(InvalidMode(offset, mode))
      case Some(m) =>
        if m != RegisterMode then Err(UnsupportedMode(offset, m))
        else
          var destination := RegisterName(w, rm);
          match (destination, source)
          case (Some(dst), Some(src)) => Ok("mov " + AsciiLower(dst) + ", " + AsciiLower(src))
          case _ => Err(MissingOperand(offset))
  }

  /** The chunks the original renders: a classified first byte with the
      direction bit clear, and a second byte in register mode. */
  predicate IsRegisterMove(b0: bv8, b1: bv8) {
    FromByte(b0).Some? && b0 & 0x02 == 0 && b1 & 0xC0 == 0xC0
  }

  /** The line for such a chunk: the destination is the register in the
      low three bits of the second byte, the source the register in the
      three bits above them, both at the width of the first byte's low bit. */
  function MoveLine(b0: bv8, b1: bv8): string {
    "mov " + CanonicalName(b0 & 1, b1 & 7) + ", " + CanonicalName(b0 & 1, (b1 >> 3) & 7)
  }

  /** The fields of a chunk, as masks and shifts of its two bytes. */
  lemma ChunkFields(b0: bv8, b1: bv8)
    ensures SplitFields(b0, b1) == Fields(b0 >> 2, (b0 >> 1) & 1, b0 & 1, b1 >> 6, (b1 >> 3) & 7, b1 & 7)
  {
  }

  /** Fields in range decode by the mode and direction alone: a memory mode
      is unsupported, a set direction bit leaves the source unset, and a
      clear one renders the two registers the fields name. */
  lemma DecodeOperandsCases(d: bv8, w: bv8, mode: bv8, reg: bv8, rm: bv8, offset: nat)
    requires d < 2 && w < 2 && mode < 4 && reg < 8 && rm < 8
    ensures mode != 3 ==>
      var r := DecodeOperands(d, w, mode, reg, rm, offset);
      r.Err? && r.error.UnsupportedMode? && r.error.offset == offset && ModBits(r.error.mode) == mode
    ensures mode == 3 && d == 1 ==> DecodeOperands(d, w, mode, reg, rm, offset) == Err(MissingOperand(offset))
    ensures mode == 3 && d == 0 ==>
      DecodeOperands(d, w, mode, reg, rm, offset) == Ok("mov " + CanonicalName(w, rm) + ", " + CanonicalName(w, reg))
  {
    if mode == 3 && d == 0 {
      LowerNameIsCanonical(w, rm);
      LowerNameIsCanonical(w, reg);
    }
  }

  /** A chunk decodes exactly when it is a register move. */
  lemma DecodeInstructionSucceedsIff(b0: bv8, b1: bv8, offset: nat)
    ensures DecodeInstruction(b0, b1, offset).Ok? <==> IsRegisterMove(b0, b1)
  {
    var f := SplitFields(b0, b1);
    ChunkFields(b0, b1);
    DecodeOperandsCases(f.d, f.w, f.mode, f.reg, f.rm, offset);
  }

  /** A register move decodes to its expected line. */
  lemma DecodeInstructionLine(b0: bv8, b1: bv8, offset: nat)
    requires IsRegisterMove(b0, b1)
    ensures DecodeInstruction(b0, b1, offset) == Ok(MoveLine(b0, b1))
  {
    var f := SplitFields(b0, b1);
    ChunkFields(b0, b1);
    DecodeOperandsCases(f.d, f.w, f.mode, f.reg, f.rm, offset);
  }

  /** Otherwise the first check to fail names the error: classification,
      then the mode, then the operand pair; the direction and mode table
      checks never fail. */
  lemma DecodeInstructionFails(b0: bv8, b1: bv8, offset: nat)
    ensures FromByte(b0).None? ==> DecodeInstruction(b0, b1, offset) == Err(UnrecognizedOpcode(offset, b0))
    ensures FromByte(b0).Some? && b1 & 0xC0 != 0xC0 ==>
      var r := DecodeInstruction(b0, b1, offset);
      r.Err? && r.error.UnsupportedMode? && r.error.offset == offset && ModBits(r.error.mode) == b1 >> 6
    ensures FromByte(b0).Some? && b1 & 0xC0 == 0xC0 && b0 & 0x02 == 0x02 ==>
      DecodeInstruction(b0, b1, offset) == Err(MissingOperand(offset))
  {
    var f := SplitFields(b0, b1);
    ChunkFields(b0, b1);
    DecodeOperandsCases(f.d, f.w, f.mode, f.reg, f.rm, offset);
  }

  /** The direction and mode table checks never fail: every error of a
      chunk comes from classification, a memory mode or a missing operand. */
  lemma DecodeInstructionNeverInvalid(b0: bv8, b1: bv8, offset: nat)
    ensures DecodeInstruction(b0, b1, offset).Err? ==>
      !DecodeInstruction(b0, b1, offset).error.InvalidDirection? && !DecodeInstruction(b0, b1, offset).error.InvalidMode?
  {
    DecodeInstructionSucceedsIff(b0, b1, offset);
    DecodeInstructionFails(b0, b1, offset);
  }

  /** The driver loop for a given per-chunk decoder: chunks are taken two
      bytes at a time, the first at `offset`; a lone trailing byte is a
      truncated instruction, and the first failing chunk decides the error. */
  function DecodeChunks(decode: (bv8, bv8, nat) -> Result<string, DecodeError>, data: seq<bv8>, offset: nat)
    : Result<seq<string>, DecodeError>
    decreases |data|
  {
    if |data| == 0 then Ok([])
    else if |data| < ChunkSize then Err(TruncatedInstruction(offset))
    else
      match decode(data[0], data[1], offset)
      case Err(e) => Err(e)
      case Ok(line) =>
        match DecodeChunks(decode, data[ChunkSize..], offset + ChunkSize)
        case Err(e) => Err(e)
        case Ok(lines) => Ok([line] + lines)
  }

  /** The original's loop: every chunk decoded as a MOV instruction. */
  function DecodeLines(data: seq<bv8>, offset: nat): Result<seq<string>, DecodeError> {
    DecodeChunks(DecodeInstruction, data, offset)
  }

  /** The whole input disassembled, one line per instruction. */
  function DisassembleBinary(data: seq<bv8>): Result<string, DecodeError> {
    match DecodeLines(data, 0)
    case Err(e) => Err(e)
    case Ok(lines) => Ok(Join(lines, '\n'))
  }

  /** The `k`-th two-byte chunk of `data`. */
  function PairAt(data: seq<bv8>, k: int): (bv8, bv8)
    requires 0 <= k < |data| / 2
  {
    (data[2 * k], data[2 * k + 1])
  }

  /** Input the original disassembles without aborting: whole chunks only,
      each of them a register-to-register move. */
  ghost predicate IsRegisterStream(data: seq<bv8>) {
    && |data| % 2 == 0
    && forall k :: 0 <= k < |data| / 2 ==> IsRegisterMove(PairAt(data, k).0, PairAt(data, k).1)
  }

  /** The expected output lines, line `k` rendering chunk `k`. */
  function ExpectedLines(data: seq<bv8>): (lines: seq<string>)
    ensures |lines| == |data| / 2
  {
    seq(|data| / 2, k requires 0 <= k < |data| / 2 => MoveLine(PairAt(data, k).0, PairAt(data, k).1))
  }

  /** The chunks after the first are the chunks of the data after its
      first two bytes. */
  lemma PairAtTail(data: seq<bv8>, k: int)
    requires |data| >= 2 && 0 <= k < |data| / 2 - 1
    ensures PairAt(data[2..], k) == PairAt(data, k + 1)
  {
  }

  /** The loop succeeds exactly when the data is whole chunks each of which
      decodes, chunk `k` at offset `offset + 2k`; line `k` is then chunk
      `k`'s line. */
  lemma {:induction false} DecodeChunksOk(decode: (bv8, bv8, nat) -> Result<string, DecodeError>, data: seq<bv8>, offset: nat)
    ensures DecodeChunks(decode, data, offset).Ok? <==>
      && |data| % 2 == 0
      && forall k :: 0 <= k < |data| / 2 ==> decode(PairAt(data, k).0, PairAt(data, k).1, offset + 2 * k).Ok?
    ensures DecodeChunks(decode, data, offset).Ok? ==>
      var lines := DecodeChunks(decode, data, offset).value;
      && |lines| == |data| / 2
      && forall k :: 0 <= k < |data| / 2 ==> decode(PairAt(data, k).0, PairAt(data, k).1, offset + 2 * k) == Ok(lines[k])
    decreases |data|
  {
    if |data| >= 2 {
      var rest := data[2..];
      DecodeChunksOk(decode, rest, offset + 2);
      var head := decode(data[0], data[1], offset);
      var next := DecodeChunks(decode, rest, offset + 2);
      assert PairAt(data, 0) == (data[0], data[1]);
      if head.Ok? && next.Ok? {
        var lines := [head.value] + next.value;
        forall k | 0 <= k < |data| / 2
          ensures decode(PairAt(data, k).0, PairAt(data, k).1, offset + 2 * k) == Ok(lines[k])
        {
          if k > 0 {
            PairAtTail(data, k - 1);
          }
        }
      } else if head.Ok? && |rest| % 2 == 0 {
        var k :| 0 <= k < |rest| / 2 && !decode(PairAt(rest, k).0, PairAt(rest, k).1, offset + 2 + 2 * k).Ok?;
        PairAtTail(data, k);
        assert !decode(PairAt(data, k + 1).0, PairAt(data, k + 1).1, offset + 2 * (k + 1)).Ok?;
      }
    } else if |data| == 1 {
      assert |data| % 2 == 1;
    }
  }

  /** A per-chunk decoder whose errors carry the offset it was given. */
  ghost predicate ReportsOwnOffset(decode: (bv8, bv8, nat) -> Result<string, DecodeError>) {
    forall b0, b1, offset :: decode(b0, b1, offset).Err? ==> decode(b0, b1, offset).error.offset == offset
  }

  /** One instance of `ReportsOwnOffset`. */
  lemma ErrorAtOwnOffset(decode: (bv8, bv8, nat) -> Result<string, DecodeError>, b0: bv8, b1: bv8, offset: nat)
    requires ReportsOwnOffset(decode) && decode(b0, b1, offset).Err?
    ensures decode(b0, b1, offset).error.offset == offset
  {
  }

  /** When the loop fails, the error names an even offset into the data,
      every chunk before it decodes, and the chunk there is the cause: a
      lone trailing byte, or a chunk whose own decoding gives that error. */
  lemma {:induction false} DecodeChunksFailure(decode: (bv8, bv8, nat) -> Result<string, DecodeError>, data: seq<bv8>, offset: nat)
    requires ReportsOwnOffset(decode)
    requires DecodeChunks(decode, data, offset).Err?
    ensures var e := DecodeChunks(decode, data, offset).error;
      && offset <= e.offset < offset + |data|
      && (e.offset - offset) % 2 == 0
      && (forall k :: 0 <= k < (e.offset - offset) / 2 ==> decode(PairAt(data, k).0, PairAt(data, k).1, offset + 2 * k).Ok?)
      && (e.offset - offset + 1 == |data| ==> e == TruncatedInstruction(e.offset))
      && (e.offset - offset + 1 < |data| ==>
            decode(data[e.offset - offset], data[e.offset - offset + 1], e.offset) == Err(e))
    decreases |data|
  {
    if |data| >= 2 {
      var rest := data[2..];
      var e := DecodeChunks(decode, data, offset).error;
      assert PairAt(data, 0) == (data[0], data[1]);
      if decode(data[0], data[1], offset).Ok? {
        assert DecodeChunks(decode, rest, offset + 2) == Err(e);
        DecodeChunksFailure(decode, rest, offset + 2);
        forall k | 0 <= k < (e.offset - offset) / 2
          ensures decode(PairAt(data, k).0, PairAt(data, k).1, offset + 2 * k).Ok?
        {
          if k > 0 {
            PairAtTail(data, k - 1);
          }
        }
        var i := e.offset - offset;
        if i + 1 < |data| {
          assert data[i] == rest[i - 2] && data[i + 1] == rest[i - 1];
        }
      } else {
        ErrorAtOwnOffset(decode, data[0], data[1], offset);
      }
    }
  }

  /** A failing chunk reports its own offset. */
  lemma DecodeInstructionOffset(b0: bv8, b1: bv8, offset: nat)
    requires DecodeInstruction(b0, b1, offset).Err?
    ensures DecodeInstruction(b0, b1, offset).error.offset == offset
  {
  }

  /** Hence the chunk decoder reports its own offset on every input. */
  lemma DecodeInstructionReportsOwnOffset()
    ensures ReportsOwnOffset(DecodeInstruction)
  {
    forall b0, b1, offset | DecodeInstruction(b0, b1, offset).Err?
      ensures DecodeInstruction(b0, b1, offset).error.offset == offset
    {
      DecodeInstructionOffset(b0, b1, offset);
    }
  }

  /** Decoding succeeds exactly on register streams, and then yields the
      expected lines in input order. */
  lemma DecodeLinesCorrect(data: seq<bv8>, offset: nat)
    ensures DecodeLines(data, offset).Ok? <==> IsRegisterStream(data)
    ensures DecodeLines(data, offset).Ok? ==> DecodeLines(data, offset).value == ExpectedLines(data)
  {
    DecodeChunksOk(DecodeInstruction, data, offset);
    forall k | 0 <= k < |data| / 2
      ensures var (b0, b1) := PairAt(data, k);
        && (DecodeInstruction(b0, b1, offset + 2 * k).Ok? <==> IsRegisterMove(b0, b1))
        && (IsRegisterMove(b0, b1) ==> DecodeInstruction(b0, b1, offset + 2 * k) == Ok(MoveLine(b0, b1)))
    {
      var (b0, b1) := PairAt(data, k);
      DecodeInstructionSucceedsIff(b0, b1, offset + 2 * k);
      if IsRegisterMove(b0, b1) {
        DecodeInstructionLine(b0, b1, offset + 2 * k);
      }
    }
    if DecodeLines(data, offset).Ok? {
      var lines := DecodeLines(data, offset).value;
      assert forall k :: 0 <= k < |lines| ==> lines[k] == ExpectedLines(data)[k];
    }
  }

  /** The disassembler succeeds exactly on register streams, and its output
      is then their expected lines joined by newlines. */
  lemma DisassembleBinaryCorrect(data: seq<bv8>)
    ensures DisassembleBinary(data).Ok? <==> IsRegisterStream(data)
    ensures DisassembleBinary(data).Ok? ==> DisassembleBinary(data).value == Join(ExpectedLines(data), '\n')
  {
    DecodeLinesCorrect(data, 0);
  }

  /** The output of a non-empty register stream splits at newlines into
      one expected line per chunk, and does not end with a newline. */
  lemma DisassembleBinaryLines(data: seq<bv8>)
    requires IsRegisterStream(data) && |data| > 0
    ensures DisassembleBinary(data).Ok? && |DisassembleBinary(data).value| > 0
    ensures Split(DisassembleBinary(data).value, '\n') == ExpectedLines(data)
    ensures |Split(DisassembleBinary(data).value, '\n')| == |data| / 2
    ensures DisassembleBinary(data).value[|DisassembleBinary(data).value| - 1] != '\n'
  {
    DisassembleBinaryCorrect(data);
    var lines := ExpectedLines(data);
    forall k | 0 <= k < |lines|
      ensures '\n' !in lines[k] && |lines[k]| > 0
    {
      MoveLineShape(PairAt(data, k).0, PairAt(data, k).1);
    }
    SplitJoin(lines, '\n');
    NoTrailingSeparator(lines, '\n');
  }

  /** A lone register move disassembles to its own line. */
  lemma DisassembleSingle(b0: bv8, b1: bv8)
    requires IsRegisterMove(b0, b1)
    ensures DisassembleBinary([b0, b1]) == Ok(MoveLine(b0, b1))
  {
    DecodeInstructionLine(b0, b1, 0);
    var data := [b0, b1];
    assert data[ChunkSize..] == [];
    assert DecodeChunks(DecodeInstruction, data[ChunkSize..], ChunkSize) == Ok([]);
    assert [MoveLine(b0, b1)] + [] == [MoveLine(b0, b1)];
    assert DecodeLines(data, 0) == Ok([MoveLine(b0, b1)]);
  }

  /** A failing first chunk decides the whole result. */
  lemma DisassembleLeadingFailure(data: seq<bv8>)
    requires |data| >= 2 && DecodeInstruction(data[0], data[1], 0).Err?
    ensures DisassembleBinary(data) == Err(DecodeInstruction(data[0], data[1], 0).error)
  {
  }

  /** Every rendered line is non-empty and holds no newline. */
  lemma MoveLineShape(b0: bv8, b1: bv8)
    ensures |MoveLine(b0, b1)| == 10
    ensures '\n' !in MoveLine(b0, b1)
  {
    CanonicalNameIsLowercase(b0 & 1, b1 & 7);
    CanonicalNameIsLowercase(b0 & 1, (b1 >> 3) & 7);
    var line := MoveLine(b0, b1);
    assert forall i :: 0 <= i < |line| ==> line[i] != '\n';
  }

  /** Where the input fails, the failure is at an even offset inside the
      data, and every chunk before it is a register move: nothing before the
      failure is lost or reordered. */
  lemma DisassembleBinaryFailure(data: seq<bv8>)
    requires DisassembleBinary(data).Err?
    ensures var e := DisassembleBinary(data).error;
      && e.offset < |data| && e.offset % 2 == 0
      && (forall k :: 0 <= k < e.offset / 2 ==> IsRegisterMove(PairAt(data, k).0, PairAt(data, k).1))
  {
    DecodeInstructionReportsOwnOffset();
    DecodeChunksFailure(DecodeInstruction, data, 0);
    var e := DisassembleBinary(data).error;
    forall k | 0 <= k < e.offset / 2
      ensures IsRegisterMove(PairAt(data, k).0, PairAt(data, k).1)
    {
      DecodeInstructionSucceedsIff(PairAt(data, k).0, PairAt(data, k).1, 2 * k);
    }
  }

  /** A failure at the last byte is a truncated instruction. */
  lemma DisassembleBinaryTruncated(data: seq<bv8>)
    requires DisassembleBinary(data).Err?
    ensures var e := DisassembleBinary(data).error;
      e.offset + 1 == |data| ==> e == TruncatedInstruction(e.offset)
  {
    DecodeInstructionReportsOwnOffset();
    DecodeChunksFailure(DecodeInstruction, data, 0);
  }

  /** Any other failure is the failing chunk's own decoding error. */
  lemma DisassembleBinaryFailureCause(data: seq<bv8>)
    requires DisassembleBinary(data).Err?
    ensures var e := DisassembleBinary(data).error;
      e.offset + 1 < |data| ==> DecodeInstruction(data[e.offset], data[e.offset + 1], e.offset) == Err(e)
  {
    DecodeInstructionReportsOwnOffset();
    DecodeChunksFailure(DecodeInstruction, data, 0);
    var e := DecodeChunks(DecodeInstruction, data, 0).error;
    assert DisassembleBinary(data).error == e;
  }

  /** The chunks of a concatenation at a chunk boundary are the chunks of
      the first part followed by those of the second. */
  lemma PairAtConcat(a: seq<bv8>, b: seq<bv8>, k: int)
    requires |a| % 2 == 0 && 0 <= k < (|a| + |b|) / 2
    ensures |a + b| / 2 == |a| / 2 + |b| / 2
    ensures k < |a| / 2 ==> PairAt(a + b, k) == PairAt(a, k)
    ensures k >= |a| / 2 ==> PairAt(a + b, k) == PairAt(b, k - |a| / 2)
  {
  }

  /** Back-to-back register streams form a register stream, and only they
      do: each instruction consumes exactly its own two bytes. */
  lemma RegisterStreamConcat(a: seq<bv8>, b: seq<bv8>)
    requires |a| % 2 == 0
    ensures IsRegisterStream(a + b) <==> IsRegisterStream(a) && IsRegisterStream(b)
  {
    var ab, n := a + b, |a| / 2;
    assert |ab| / 2 == n + |b| / 2 && |ab| % 2 == |b| % 2;
    if IsRegisterStream(ab) {
      forall k | 0 <= k < n
        ensures IsRegisterMove(PairAt(a, k).0, PairAt(a, k).1)
      {
        PairAtConcat(a, b, k);
      }
      forall k | 0 <= k < |b| / 2
        ensures IsRegisterMove(PairAt(b, k).0, PairAt(b, k).1)
      {
        PairAtConcat(a, b, n + k);
      }
    }
    if IsRegisterStream(a) && IsRegisterStream(b) {
      forall k | 0 <= k < |ab| / 2
        ensures IsRegisterMove(PairAt(ab, k).0, PairAt(ab, k).1)
      {
        PairAtConcat(a, b, k);
      }
    }
  }

  /** The expected lines of such a concatenation are the lines of the first
      part followed by the lines of the second. */
  lemma ExpectedLinesConcat(a: seq<bv8>, b: seq<bv8>)
    requires |a| % 2 == 0
    ensures ExpectedLines(a + b) == ExpectedLines(a) + ExpectedLines(b)
  {
    var lines, n := ExpectedLines(a + b), |a| / 2;
    var parts := ExpectedLines(a) + ExpectedLines(b);
    forall k | 0 <= k < |lines|
      ensures lines[k] == parts[k]
    {
      PairAtConcat(a, b, k);
    }
  }

  /** Hence the decoded lines of a concatenation are the concatenation of
      the decoded lines. */
  lemma DecodeLinesConcat(a: seq<bv8>, b: seq<bv8>)
    requires IsRegisterStream(a) && IsRegisterStream(b)
    ensures DecodeLines(a, 0).Ok? && DecodeLines(b, 0).Ok?
    ensures DecodeLines(a + b, 0) == Ok(DecodeLines(a, 0).value + DecodeLines(b, 0).value)
  {
    RegisterStreamConcat(a, b);
    ExpectedLinesConcat(a, b);
    DecodeLinesCorrect(a, 0);
    DecodeLinesCorrect(b, 0);
    DecodeLinesCorrect(a + b, 0);
  }

  /** Every register-mode encoding of the register/memory form, built from
      its fields, decodes to the registers its fields name when the
      direction bit is clear, and fails for want of a source when it is set. */
  lemma RegisterDirectRoundTrip(d: bv8, w: bv8, reg: bv8, rm: bv8, offset: nat)
    requires d < 2 && w < 2 && reg < 8 && rm < 8
    ensures var (b0, b1) := JoinFields(Fields(0x22, d, w, 3, reg, rm));
      && (d == 0 ==> DecodeInstruction(b0, b1, offset) == Ok("mov " + CanonicalName(w, rm) + ", " + CanonicalName(w, reg)))
      && (d == 1 ==> DecodeInstruction(b0, b1, offset) == Err(MissingOperand(offset)))
  {
    var (b0, b1) := JoinFields(Fields(0x22, d, w, 3, reg, rm));
    SplitJoinFields(Fields(0x22, d, w, 3, reg, rm));
    ChunkFields(b0, b1);
    if d == 0 {
      DecodeInstructionLine(b0, b1, offset);
    } else {
      DecodeInstructionFails(b0, b1, offset);
    }
  }

  /** The classified form only decides whether decoding goes on: any two
      classified first bytes with the same direction and width bits decode
      every second byte alike. */
  lemma FormDoesNotSteerDecoding(b0: bv8, b0': bv8, b1: bv8, offset: nat)
    requires FromByte(b0).Some? && FromByte(b0').Some?
    requires b0 & 3 == b0' & 3
    ensures DecodeInstruction(b0, b1, offset) == DecodeInstruction(b0', b1, offset)
  {
    ChunkFields(b0, b1);
    ChunkFields(b0', b1);
    assert (b0 >> 1) & 1 == (b0' >> 1) & 1 && b0 & 1 == b0' & 1;
  }
}
