# 8086 MOV disassembler: a Dafny model

This project models the decoding core of a small 8086 disassembler written in
Rust. The disassembler reads a binary listing. It classifies each
instruction's first byte as one of the seven MOV encodings (`MovInstructionType::from_byte`).
It splits the first byte into opcode, direction bit `d` and width bit `w`. It
splits the second byte into the fields `mod`, `reg` and `r/m` (`extract_bits`).
It looks up the addressing mode and the register names (`ModEncoding::from_bits`,
`RegisterOp::from_bits`), and renders each register-to-register MOV as
`mov <destination>, <source>` in lowercase. The lines are joined with newlines
(`disassemble_binary`). The model also covers the benchmark's three alternative
renderings of the opcode classifier.

Bytes are `bv8`. Every fact about single bytes is proved for all 256 values.

Modules:

- `Results`: `Option` and `Result`.
- `MaskRules`: generic first-match classification by mask/pattern rules. It proves that an exclusive table can be evaluated in any order.
- `MovInstruction`: the decoder's classifier, its reference table, and its rule table.
- `Bits`: MSB-first bit-field extraction and the six instruction fields.
- `Registers`: the `mod` table, the register table (with its `"Ch"` spelling), the 8086 register names, and ASCII lowercasing.
- `Text`: newline joining and its inverse, splitting.
- `Disassembler`: per-chunk decoding and the driver. Each abort of the original is a `DecodeError` value that carries the chunk's offset. The driver loop (`DecodeChunks`) is stated once for any per-chunk decoder, and the disassembler instantiates it with the MOV chunk decoder.
- `DisassemblerExamples`: concrete byte sequences and their outputs.
- `BenchClassifiers`: the three benchmark classifiers and the corrected one.

How the original's aborts are modelled:

| abort | `DecodeError` |
|---|---|
| slice `data[i..i+2]` out of bounds (odd-length input) | `TruncatedInstruction` |
| `find_instruction` finds no form | `UnrecognizedOpcode` |
| `"Direction is not supported"` | `InvalidDirection` (proved unreachable by `DecodeInstructionNeverInvalid`) |
| `"Invalid mode"` | `InvalidMode` (proved unreachable by `DecodeInstructionNeverInvalid`) |
| `"not supported yet"` (memory modes) | `UnsupportedMode` |
| the final match with an operand missing | `MissingOperand` |

Within one chunk the checks run in the original's order: classification,
direction, mode, operands. Across chunks the first failing chunk decides the
error.

Where the 8086 encoding and the code differ, the model follows the code:

- The classified form only gates decoding. Every classified byte is decoded as
  register/memory-to-register, so `B1 C8` renders as `mov ax, cx`.
- The driver always advances by two bytes.
- With `d = 1` the register from `reg` is first stored as the destination and
  then overwritten by `r/m`. The source is left unset and decoding fails. So the
  stream `8A E5` fails (with `MissingOperand`), although in 8086 encoding it
  means `mov ah, ch` (`reg` = ah is the destination when `d = 1`).
- The listing the eleven-instruction test reads (src/main_tests.rs:154-172) is
  expected to decode, and the code fails on every `d = 1` chunk, so that listing
  must use `d = 0` encodings throughout. Its bytes are not part of this model;
  `ManyRegisterMoves` reconstructs them as the `d = 0` pair for each expected line
  (`88 E5` for `mov ch, ah`, and so on).

## Model

| member | source | states |
|---|---|---|
| MovInstruction.FromByteMatchesReference | src/main.rs:37-69 | `FromByte`, the guard chain of `from_byte`: every byte classifies as the unit test's reference table says: 88-8B, A0-A1, A2-A3, B0-BF, C6-C7, 8E-8F, 8C-8D to their seven forms, nothing elsewhere |
| MovInstruction.FindInstruction | src/main.rs:71-74 | succeeds exactly when classification is Some, with its form; otherwise fails carrying the byte |
| MovInstruction.InvalidOpcodesFail | src/main_tests.rs:107-117 | bytes 00, 01, 10, 42, D0, FF fail to classify |
| MovInstruction.FromByteIsFirstMatch | src/main.rs:37-69 | the guard chain is first-match evaluation of its seven mask/pattern rules in source order |
| MovInstruction.MainRulesExclusive | src/main.rs:20-35 | no byte satisfies two of the seven mask/pattern guards |
| MovInstruction.FromByteOrderIndependent | src/main.rs:38-68 | evaluating the guards in any order gives the same classification for every byte |
| MaskRules.FirstMatchSpec | src/main.rs:38-68 | a guard chain yields nothing iff no guard holds, else the form of a holding guard with none holding before it |
| MaskRules.FirstMatchIsOnlyMatch | src/main.rs:38-68 | with at most one holding guard, the chain yields exactly that guard's form |
| MaskRules.FirstMatchOrderIndependent | src/main.rs:38-68 | reordering an exclusive guard table changes no classification |
| Bits.ExtractBits | src/main.rs:154-164 | for start < end <= 8 the result fits in end - start bits, equals the byte shifted right by 8 - end and masked to end - start bits, and is the byte itself for [0, 8) |
| Bits.ExtractBitsReadsField | src/main.rs:154-164 | bit start + j of the byte, counted from the top, is bit j of the extracted field |
| Bits.SplitFieldsPartition | src/main.rs:184-189 | `SplitFields`, the six `extract_bits` calls of the loop: the six fields are in range and partition the bytes: opcode*4 + d*2 + w is byte 0 and mode*64 + reg*8 + r/m is byte 1 |
| Bits.SplitJoinFields | src/main.rs:77-78 | splitting the packed bytes of in-range fields gives the fields back |
| Bits.JoinSplitFields | src/main.rs:77-78 | packing the split fields gives the two bytes back |
| Registers.ModFromBits | src/main.rs:79-96 | a mode is found exactly for values below 4, and its discriminant is the value looked up |
| Registers.ModRoundTrip | src/main.rs:79-96 | looking up a mode's discriminant gives the mode |
| Registers.RegisterName | src/main.rs:99-151 | a name is found exactly when w <= 1 and the code is below 8, and it has two characters |
| Registers.LowerNameIsCanonical | src/main.rs:130-151 | the table entry, lowercased, is the 8086 register name for that width and code, "Ch" included |
| Registers.CanonicalNameInjective | src/main.rs:99-122 | distinct width/code pairs name distinct registers |
| Registers.CanonicalNameIsLowercase | src/main.rs:219-220 | every rendered register name is two lowercase letters |
| Registers.AsciiLower | src/main.rs:219-220 | lowercasing keeps the length, maps A-Z to a-z and keeps every other character |
| Text.Join | src/main.rs:230 | joining no lines gives the empty string; otherwise the text ends with the last line |
| Text.SplitJoin | src/main.rs:230 | splitting the joined text at newlines gives back the lines when there is at least one and none holds a newline |
| Text.NoTrailingSeparator | src/main.rs:230 | a join whose last line is non-empty and newline-free does not end with a newline |
| Disassembler.ChunkFields | src/main.rs:184-189 | the extracted fields are the shifts and masks of the chunk's two bytes |
| Disassembler.DecodeInstructionSucceedsIff | src/main.rs:184-225 | `DecodeInstruction`, the loop body for one chunk: a chunk decodes exactly when its first byte classifies, d = 0 and mod = 11 |
| Disassembler.DecodeInstructionLine | src/main.rs:197-223 | such a chunk renders as `mov ` + name(w, r/m) + `, ` + name(w, reg) |
| Disassembler.DecodeOperandsCases | src/main.rs:197-224 | `DecodeOperands`, the body after classification: in-range fields with a memory mode give UnsupportedMode with that mode, d = 1 in register mode gives MissingOperand, d = 0 renders name(w, r/m), name(w, reg) |
| Disassembler.DecodeInstructionNeverInvalid | src/main.rs:197-212 | a chunk never fails with InvalidDirection or InvalidMode: the "Direction is not supported" and "Invalid mode" panics are unreachable |
| Disassembler.DecodeInstructionFails | src/main.rs:194-224 | an unclassified first byte gives UnrecognizedOpcode, a memory mode gives UnsupportedMode with that mode, d = 1 in register mode gives MissingOperand |
| Disassembler.DecodeLinesCorrect | src/main.rs:176-228 | `DecodeLines`, the loop with the MOV chunk decoder: the chunk loop succeeds exactly on even-length register streams, and then yields one line per chunk in input order |
| Disassembler.DecodeChunksOk | src/main.rs:176-228 | `DecodeChunks`, the `while` loop over two-byte chunks: for any per-chunk decoder, the loop succeeds exactly when the data is whole chunks that all decode, chunk k at offset 2k, and line k is chunk k's line |
| Disassembler.DecodeChunksFailure | src/main.rs:176-228 | for a decoder whose errors carry their own offset, a failure lies at an even offset inside the data, every earlier chunk decodes, and the failure is a lone trailing byte or that chunk's own error |
| Disassembler.DecodeInstructionReportsOwnOffset | src/main.rs:194-224 | every error of the chunk decoder names the offset of the chunk it was given |
| Disassembler.DisassembleBinaryCorrect | src/main.rs:165-231 | `DisassembleBinary`, all of `disassemble_binary`: the disassembler succeeds exactly on register streams, with their expected lines joined by newlines |
| Disassembler.DisassembleBinaryLines | src/main.rs:217-230 | a non-empty register stream's output splits into exactly length/2 expected lines and has no trailing newline |
| Disassembler.DisassembleBinaryFailure | src/main.rs:176-228 | on failure the error lies at an even offset inside the data and every chunk before it is a register move |
| Disassembler.DisassembleBinaryTruncated | src/main.rs:176-178 | a failure at the last byte is TruncatedInstruction |
| Disassembler.DisassembleBinaryFailureCause | src/main.rs:176-228 | a failure before the last byte is the failing chunk's own decoding error |
| Disassembler.DisassembleSingle | src/main.rs:176-230 | a lone register move disassembles to exactly its own line |
| Disassembler.DisassembleLeadingFailure | src/main.rs:176-194 | a failing first chunk aborts the whole disassembly with that chunk's error |
| Disassembler.RegisterStreamConcat | src/main.rs:172-193 | a concatenation at a chunk boundary is a register stream iff both parts are |
| Disassembler.ExpectedLinesConcat | src/main.rs:172-193 | the expected lines of a concatenation at a chunk boundary are the lines of the parts in order |
| Disassembler.DecodeLinesConcat | src/main.rs:176-228 | decoding back-to-back register streams yields the first stream's lines followed by the second's |
| Disassembler.RegisterDirectRoundTrip | src/main.rs:184-225 | each register-mode encoding built from (d, w, reg, r/m) decodes to name(w, r/m), name(w, reg) when d = 0 and fails with MissingOperand when d = 1 |
| Disassembler.FormDoesNotSteerDecoding | src/main.rs:193-194 | two classified first bytes with equal d and w bits decode every second byte alike |
| DisassemblerExamples.SingleRegisterMove | src/main_tests.rs:144-152 | 89 D9 disassembles to `mov cx, bx` |
| DisassemblerExamples.EmptyInput | src/main.rs:170-230 | empty input disassembles to the empty string |
| DisassemblerExamples.ManyRegisterStream | src/main_tests.rs:154-172 | eleven hand-built register moves disassemble to the test's eleven expected lines |
| DisassemblerExamples.UnrecognizedFirstByte | src/main.rs:194 | 00 C0 fails with UnrecognizedOpcode at offset 0 |
| DisassemblerExamples.OddLengthInput | src/main.rs:178 | a lone byte after a complete instruction fails with TruncatedInstruction at offset 2 |
| DisassemblerExamples.MemoryModeUnsupported | src/main.rs:205-211 | 89 19 (mod = 00) fails with UnsupportedMode(MemMode) |
| DisassemblerExamples.DirectionBitSetFails | src/main.rs:197-224 | 8A E5 (d = 1) fails with MissingOperand |
| DisassemblerExamples.OtherFormsRenderedAsRegisterMoves | src/main.rs:193-224 | 8C D8 (segment-register form) renders as `mov al, bl` and A1 C0 (memory-to-accumulator form) as `mov ax, ax` |
| DisassemblerExamples.DirectionSetFormsNeverRender | src/main.rs:193-224 | every chunk whose first byte is A2-A3, C6-C7, 8E-8F or an immediate opcode with bit 1 set fails; in register mode it fails with `MissingOperand`, since the source operand is overwritten |
| DisassemblerExamples.DirectionSetFormsFail | src/main.rs:193-224 | 8E D8, C6 C0, A3 C0 and BA C0 each stop the disassembly with `MissingOperand` at offset 0 |
| DisassemblerExamples.ImmediateOpcodeRenderedAsRegisterMove | src/main.rs:193-194 | B1 C8 renders as `mov ax, cx` although B1 classifies as immediate-to-register |
| BenchClassifiers.Approach1FromByte | benches/mov_instruction_bench.rs:16-27 | classifies as the decoder's ranges, except that only B0-B7 are immediate-to-register |
| BenchClassifiers.Approach2FromByte | benches/mov_instruction_bench.rs:49-88 | classifies as the decoder's ranges, except that only B0-B7 are immediate-to-register |
| BenchClassifiers.Approach3FromByte | benches/mov_instruction_bench.rs:110-140 | classifies as the decoder's ranges, except that only B0-B7 are immediate-to-register |
| BenchClassifiers.Approach1FindInstruction | benches/mov_instruction_bench.rs:29-32 | succeeds exactly on the bytes approach 1 classifies, with its form; otherwise fails with the byte |
| BenchClassifiers.Approach2FindInstruction | benches/mov_instruction_bench.rs:90-93 | succeeds exactly on the bytes approach 2 classifies, with its form; otherwise fails with the byte |
| BenchClassifiers.Approach3FindInstruction | benches/mov_instruction_bench.rs:142-145 | succeeds exactly on the bytes approach 3 classifies, with its form; otherwise fails with the byte |
| BenchClassifiers.ApproachesAgree | benches/mov_instruction_bench.rs:16-140 | the three approaches classify every byte alike |
| BenchClassifiers.BenchDivergesFromMainOnB8ToBF | benches/mov_instruction_bench.rs:52 | on B8-BF the decoder says immediate-to-register and the benchmark says nothing; on every other byte they agree |
| BenchClassifiers.BenchIsFirstMatch | benches/mov_instruction_bench.rs:16-140 | each of the three approaches is first-match evaluation of the benchmark's seven rules |
| BenchClassifiers.BenchRulesExclusive | benches/mov_instruction_bench.rs:17-24 | no byte satisfies two of the benchmark's seven rules |
| BenchClassifiers.BenchOrderIndependent | benches/mov_instruction_bench.rs:16-140 | evaluating the benchmark's rules in any order gives each of the three approaches' classification |
| BenchClassifiers.BenchMissesWordImmediate | benches/mov_instruction_bench.rs:151-159 | the test bytes label BF immediate-to-register, yet all three approaches reject BF |
| BenchClassifiers.CorrectedBenchFromByte | benches/mov_instruction_bench.rs:110-140 | with mask F0 the classifier matches the decoder's reference table on every byte |
| BenchClassifiers.CorrectedBenchMatchesLabels | benches/mov_instruction_bench.rs:151-159 | the corrected classifier gives every test byte its labelled form |
| BenchClassifiers.CorrectedBenchAgreesWithMain | src/main.rs:22 | the corrected classifier equals the decoder's classifier on every byte |

## Left out

- `main` and its read of `listing_0039_more_mov`: file I/O.
- The `anyhow` context wrapping of the read error: a library call.
- The listing files the integration tests read. Their bytes are not part of this model, so the streams are rebuilt pair by pair from the expected output.
- The criterion benchmark harness, `black_box` and timing: no decoding logic.
- Memory addressing modes, displacements, immediates, variable-length instructions, segment-register operands and operand reversal for `d = 1`. The original does not implement them, and the model does what the original does:
  - Only a memory `mod` value fails (`UnsupportedMode`), and so does `d = 1` (`MissingOperand`).
  - An accumulator, segment-register or immediate opcode with bit 1 (the `d` position) clear, that is A0-A1, 8C-8D, B0-B1, B4-B5, B8-B9 or BC-BD, is rendered as a register move when its second byte has `mod = 11` (`ImmediateOpcodeRenderedAsRegisterMove`, `OtherFormsRenderedAsRegisterMoves`).
  - A2-A3, C6-C7, 8E-8F and the immediate opcodes B2-B3, B6-B7, BA-BB and BE-BF have bit 1 set, so they never render: with `mod = 11` they fail with `MissingOperand` (`DirectionSetFormsNeverRender`, `DirectionSetFormsFail`).
  - Longer instructions are cut into two-byte chunks like any other.
- Panic messages. An abort becomes a `DecodeError` with the chunk's offset. Of the original's panics, only two identify where decoding failed: the out-of-range slice, which names its end index `i + 2`, and the classification panic, which names the byte that `UnrecognizedOpcode` keeps. The others name neither a position nor a byte.
- General Unicode `to_lowercase`. The register names are ASCII, so ASCII lowercasing gives the same result.
- `usize` overflow of the loop index: an input long enough to overflow cannot be held in memory.

## Findings

| source | as written | input that shows it | evidently intended | confidence | as-written member | corrected member |
|---|---|---|---|---|---|---|
| benches/mov_instruction_bench.rs:21 | all three benchmark classifiers test immediate-to-register as `byte & 0xF8 == 0xB0` (also lines 52 and 123) | 0xBF (`mov di, imm16`, labelled immediate-to-register in the benchmark's own test bytes, line 155) classifies as None | mask 0xF0 as in src/main.rs:22, so that B8-BF (the word-width forms 1011 1reg) classify as immediate-to-register | high, not executed | BenchClassifiers.BenchMissesWordImmediate | BenchClassifiers.CorrectedBenchFromByte |
