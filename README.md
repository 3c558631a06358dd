# 6800/6801/6811 toolchain in Dafny

This project models the two halves of a small Motorola 6800/6801/6811 toolchain and
proves properties of them:

- **the two-pass assembler** (`M6800Assembler` in `m6800_assembler.py`). It turns source
  lines into machine code. Pass 1 binds labels and reserves each instruction's size.
  Pass 2 encodes each instruction into a listing entry. The object image is read back
  from the listing.
- **the instruction-set simulator** (`M6800Simulator` in `simulator.py`). It loads an
  object image into 64 KB of memory and runs it one instruction at a time, with the
  registers A, B, X, Y, SP, PC and CC, the H I N Z V C flags, a halted flag and an
  instruction count.

Modules, leaf first:

| file | module | role |
|---|---|---|
| `base.dfy` | `Base` | `Option` and `Result` (a Python exception is an `Err` carrying its message) |
| `pytext.dfy` | `PyText` | the Python string operations the assembler uses: `upper`, `strip`, `split`, `replace`, `join`, `int(s, base)`, and `f"{n:0wX}"` hex formatting |
| `isa.dfy` | `Isa` | the instruction table: mnemonic to addressing mode to `Fixed(opcode)` or `ByReg(a, b)` |
| `operands.dfy` | `Operands` | `_parse_number` and `_parse_operand` |
| `encoder.dfy` | `Encoder` | `_assemble_instruction` and `_calculate_instruction_size` |
| `assembler.dfy` | `Assembly` | `_clean_line`, both passes, `assemble` and `_get_object_data`: first as functions of the lines, then as the class `Assembler`, whose methods update its fields and are proved equal to those functions |
| `cpu.dfy` | `Cpu` | registers, flags and the flag helpers |
| `instructions.dfy` | `Instructions` | `_execute_instruction`, including the `$18` page. Each instruction is an `Outcome`: the new registers and flags, the memory stores in order, and whether it halts |
| `instruction_properties.dfy` | `InstructionProperties` | branches, stack round trips, SWI/RTI and IDIV |
| `simulator.dfy` | `Simulation` | `reset`, `load_program`, `step` and `run` as functions on a `Machine` value, and the class `Simulator`. The class keeps memory in an `array` that its methods update in place |
| `toolchain.dfy` | `Toolchain` | the assembler and the simulator agree on relative branches |

Python's `IndexError` on a read or store at `$10000` or above becomes a `Fault` outcome.
`step` turns it into a halt. Stores made before the fault are kept.

Points where the code behaves in ways a reader might not expect, all modelled as the code does them:

- A second definition of a label overwrites the first. There is no duplicate-label
  error.
- Labels are stored as written but looked up upper-cased. A label containing a lower-case
  letter is never found (`Operands.LowerCaseLabelNeverFound`).
- `_parse_number` tries a known label before a decimal literal. It range-checks
  nothing, and an unknown name gives 0.
- The relative-branch range check applies to every target, including 0.
- A malformed literal in pass 1's size computation raises `ValueError` out of
  `assemble`. So do a malformed `ORG` operand in pass 2 and a malformed entry read back
  by `_get_object_data`. The model returns `Err` in all three cases.
- The assembler's origin is `$0000` until an `ORG` line sets it.
- The only directives are `ORG` and `END`, without a leading dot. Mnemonics are the
  table's own (`LDA` and `LDB`, never `LDAA`), and the table has no
  `BSET`/`BCLR`/`BRSET`/`BRCLR`.
- `_pack_cc_register` leaves bits 6 and 7 of CC at 0.
- An unknown opcode halts the simulator but still counts as an executed instruction, and
  `step` returns true for it.

## Model

| member | source | states |
|---|---|---|
| PyText.Upper | m6800_assembler.py:474 | `str.upper` on ASCII: same length, each lower-case letter mapped to its capital, nothing else changed |
| PyText.Strip | m6800_assembler.py:433 | `str.strip`: the result is no longer than the input and starts and ends with a non-space |
| PyText.StripTrims | m6800_assembler.py:433 | `str.strip` returns a slice `s[i..j]` of its input with only whitespace before `i` and after `j` |
| PyText.SplitOn | m6800_assembler.py:168 | `split('\n')`: at least one part, no part holds the separator, a text without it is its own single part |
| PyText.SplitOnJoin | m6800_assembler.py:168 | joining the parts of `split(sep)` with `sep` gives back the text, so splitting loses and reorders nothing |
| PyText.HexRoundTrip | m6800_assembler.py:476 | `int(f"{n:0wX}", 16) == n` for every integer `n` and width `w` |
| Isa.BranchesAreRelative | m6800_assembler.py:23-148 | every branch mnemonic is in the table with the single mode REL and a one-byte opcode |
| Operands.ParseNumber | m6800_assembler.py:471-492 | only a malformed literal after `$`, `0X`, `%` or `0B` fails; a known upper-cased label gives its address |
| Operands.ParseHexLiteral | m6800_assembler.py:475-476 | `$` followed by the hex text of `n` parses back to `n` |
| Operands.ParseHexPrefixLiteral | m6800_assembler.py:477-478 | `0X` followed by the zero-padded hex text of `n >= 0` parses back to `n` (`int` drops the `0X` itself) |
| Operands.ParseBinaryLiteral | m6800_assembler.py:479-482 | `%` or `0B` followed by a non-empty run of binary digits parses to the binary value of those digits |
| Assembly.UndefinedLabelIsZero | m6800_assembler.py:483-492 | a name that `_is_valid_label` accepts but that is not a defined (upper-cased) label parses as 0, the forward-reference default |
| Operands.ParseDecimalLiteral | m6800_assembler.py:485-490 | the decimal text of `n` parses back to `n` unless it is itself a label |
| Operands.LowerCaseLabelNeverFound | m6800_assembler.py:485-486 | a label containing a lower-case letter never affects `_parse_number` |
| Operands.ParseOperand | m6800_assembler.py:426-469 | a leading `#` is exactly IMM; DIR only up to $FF and EXT only above; REL only for branch mnemonics; INH exactly when a register is named |
| Operands.OperandModes | m6800_assembler.py:433-458 | the full classification order: IMM's value is the number after `#`; IDX exactly when there is no `#` and the upper-cased text holds `,X`; INH exactly when neither holds and the text is `A` or `B`, naming that register; REL exactly when none of these holds and the mnemonic is a branch |
| Operands.IndexedOperand | m6800_assembler.py:441-444 | `,X` gives IDX with no register; offset 0 when no offset text is left, otherwise it succeeds exactly when `_parse_number` of the offset text does and carries that number |
| Operands.BranchOperand | m6800_assembler.py:454-460 | a branch gives REL: the label's address when the operand is a known label, otherwise it succeeds exactly when `_parse_number` of the operand does and carries that number |
| Operands.MemoryOperand | m6800_assembler.py:463-469 | succeeds exactly when `_parse_number` of the operand does and carries that number; DIR exactly when it is at most $FF, EXT otherwise |
| Encoder.OpcodeBytes | m6800_assembler.py:387-397 | one, two or three bytes by the opcode's size, all in 0..255, most significant first, rebuilding the opcode |
| Encoder.HighLow | m6800_assembler.py:404 | `[v >> 8, v & 0xFF]`: two parts rebuilding `v`, both bytes exactly when `v` is in 0..$FFFF |
| Encoder.OperandBytes | m6800_assembler.py:399-424 | operand width by mode; only REL can fail, and it fails exactly when the offset is outside -128..127, with the source's message; a REL byte sign-extended leads back to the target |
| Encoder.WideOperandBytes | m6800_assembler.py:403-411 | a 16-bit immediate or an extended address is two bytes whose big-endian value is the operand |
| Encoder.NarrowOperandBytes | m6800_assembler.py:405-413 | a direct address, an index offset or an 8-bit immediate is one byte equal to the operand modulo 256 |
| Encoder.SelectOpcode | m6800_assembler.py:373-385 | a register-keyed entry needs register A or B; without a register it fails with "requires register specification" |
| Encoder.AssembleInherent | m6800_assembler.py:316-341 | no INH entry fails with "requires operands"; success exactly for a fixed INH opcode or a register-keyed one of the read-modify-write group; the bytes are those of the fixed opcode, or of the A opcode for the default |
| Encoder.EncodeOperand | m6800_assembler.py:369-424 | a mode missing from the table fails with "Addressing mode ... not supported"; success exactly when the entry exists, the register selects an opcode and the operand bytes encode; the bytes are then the selected opcode's bytes followed by the operand bytes, `SizeFor` long in all |
| Encoder.InstructionSize | m6800_assembler.py:498-560 | the size is 1 to 5 bytes, and the size pass fails only when the operand does not parse |
| Encoder.SizeMatchesEncoding | m6800_assembler.py:498-560 | for the same labels, the size pass 1 reserves equals the length of every successful encoding |
| Encoder.BranchEncoding | m6800_assembler.py:414-422 | a branch succeeds exactly when `target - (address + 2)` is in -128..127; it is the table opcode plus an offset byte leading back to the target; otherwise it fails with the range message |
| Encoder.RelativeEncoding | m6800_assembler.py:414-422 | the same for any REL table entry with a one-byte opcode |
| Encoder.ArithmeticDefaultsToA | m6800_assembler.py:358-361 | for CMP, ADC, ADD, AND, BIT, EOR, ORA, SBC and SUB, omitting the register assembles like writing `A` |
| Encoder.RegisterTokenCase | m6800_assembler.py:347-350 | a register token in lower case assembles like the upper-case one |
| Encoder.AssembleInstruction | m6800_assembler.py:312-424 | a success is at least one byte; with no operands the result is the inherent encoding of the table entry (`AssembleInherent`) |
| Encoder.AssembleWith | m6800_assembler.py:312-424 | the same for a given table entry; with operands, a success needs the operand text to parse |
| Encoder.EmptyOperand | m6800_assembler.py:433-469 | an empty operand parses as REL 0 for a branch and DIR 0 otherwise |
| Encoder.LoneRegisterIsDirectZero | m6800_assembler.py:347-363 | an operand list that is only `A` or `B` is encoded as the direct address 0 with that register |
| Encoder.IncAIsDirect | m6800_assembler.py:343-408 | `INC A` assembles to `$0C $00` (direct INC of address 0), not to INCA |
| Encoder.PshAIsRejected | m6800_assembler.py:369-371 | `PSH A` fails with "Addressing mode DIR not supported for PSH" |
| Assembly.CleanLine | m6800_assembler.py:562-567 | a cleaned line holds no `;` |
| Assembly.CleanLineText | m6800_assembler.py:562-567 | the cleaned line is the stripped text before the first `;`, or the stripped whole line when it has none |
| Assembly.HexBytes | m6800_assembler.py:301 | one two-digit hex text per byte, in order |
| Assembly.LabelStepChange | m6800_assembler.py:201-221 | binding a label changes only the label table, binds only valid names, and removes none |
| Assembly.Statement1Change | m6800_assembler.py:226-244 | a pass-1 statement changes neither labels nor listing and only appends errors and messages |
| Assembly.Step1Change | m6800_assembler.py:196-244 | one pass-1 line keeps the listing, only appends errors and messages, and only adds or rebinds valid labels |
| Assembly.Pass1Changes | m6800_assembler.py:192-244 | the same holds for the whole of pass 1 |
| Assembly.LabelsKept | m6800_assembler.py:205-220 | after pass 1 every label is a valid name |
| Assembly.Step2Change | m6800_assembler.py:250-310 | one pass-2 line keeps labels, origin and messages, and appends at most one listing entry, tagged with its own line number |
| Assembly.Pass2Changes | m6800_assembler.py:246-310 | pass 2 keeps labels, origin and messages and only appends listing entries and errors |
| Assembly.Pass2Lines | m6800_assembler.py:246-310 | listing entries are in increasing line order, each within 1 to the number of lines |
| Assembly.MappingRoundTrip | m6800_assembler.py:626-639 | reading a listing entry back gives exactly its bytes at consecutive addresses from its address |
| Assembly.LayoutContents | m6800_assembler.py:633-637 | the image holds the entry's bytes at their addresses and keeps every other earlier byte |
| Assembly.ListingRoundTrip | m6800_assembler.py:626-639 | the object image of a whole listing is its entries laid out in order, later ones overwriting earlier ones |
| Assembly.AddressTextRoundTrip | m6800_assembler.py:300 | the `$XXXX` text of an address parses back to the address |
| Assembly.Conclude | m6800_assembler.py:177-190 | `success` holds iff there are no errors; the object image is empty when `success` is false; the lists are the passes' own |
| Assembly.AssemblyResult | m6800_assembler.py:150-190 | for a completed assembly: success iff no errors, an empty image on failure, valid labels, an ordered listing, and no listing when pass 1 had errors |
| Assembly.SecondPhaseKeeps | m6800_assembler.py:174-175 | pass 2 runs only when pass 1 has no errors and leaves the label table as pass 1 built it |
| Assembly.EntryData | m6800_assembler.py:630-637 | the loop over one entry's byte pairs computes `MappingData` |
| Assembly.Assembler.constructor | m6800_assembler.py:13-21 | empty labels, lists and addresses |
| Assembly.Assembler.Assemble | m6800_assembler.py:150-190 | the result is `AssembleSource` of the text, and the object's fields hold its lists |
| Assembly.Assembler.FirstPass | m6800_assembler.py:192-244 | the loop leaves the state `Pass1` computes from the origin, or returns the escaping error |
| Assembly.Assembler.FirstPassLine | m6800_assembler.py:196-244 | one line of the loop is `Step1` |
| Assembly.Assembler.BindLabel | m6800_assembler.py:201-221 | the label part is `LabelStep` |
| Assembly.Assembler.FirstPassStatement | m6800_assembler.py:226-244 | the statement part is `Statement1` |
| Assembly.Assembler.OriginLine | m6800_assembler.py:231-238 | an `ORG` line is `Statement1` and does not stop the pass |
| Assembly.Assembler.InstructionLine | m6800_assembler.py:241-244 | an instruction line is `Statement1` and does not stop the pass |
| Assembly.Assembler.SetOrigin | m6800_assembler.py:232-238 | the origin update is `Origin1` |
| Assembly.Assembler.SecondPass | m6800_assembler.py:246-310 | the loop leaves the state `Pass2` computes from the origin, or returns the escaping error |
| Assembly.Assembler.SecondPassLine | m6800_assembler.py:250-310 | one line of the loop is `Step2` |
| Assembly.Assembler.SecondPassStatement | m6800_assembler.py:282-310 | the statement part is `Statement2` |
| Assembly.Assembler.EmitInstruction | m6800_assembler.py:293-308 | the `try` block is `Emit`: one listing entry, or the error tagged with the line |
| Assembly.Assembler.GetObjectData | m6800_assembler.py:626-639 | the loop over the listing computes `ObjectData` |
| Assembly.Assembler.Finish | m6800_assembler.py:177-190 | the result dictionary is `Conclude` of the state |
| Cpu.Join16 | simulator.py:463 | `(high << 8) \| low` keeps both bytes |
| Cpu.D | simulator.py:945-964 | D is A above B |
| Cpu.Pack | simulator.py:1450-1459 | the packed CC is below 64 |
| Cpu.UnpackPack | simulator.py:1450-1469 | unpacking a packed CC gives back every flag |
| Cpu.PackUnpack | simulator.py:1450-1469 | packing the unpacked CC keeps its six low bits and clears bits 6 and 7 |
| Cpu.NZ | simulator.py:1415-1419 | N is bit 7 of the value and Z says whether it is 0; no other flag changes |
| Cpu.Carry | simulator.py:1444-1448 | C is the carry; no other flag changes |
| Cpu.Compare16 | simulator.py:1421-1442 | Z iff equal, C iff the register is below the operand; H and I unchanged |
| Cpu.Signed8 | simulator.py:343-345 | the offset byte read as a signed value in -128..127 with the same low 8 bits |
| Instructions.ApplyWrites | simulator.py:424-427 | memory at an address no store names is unchanged |
| Instructions.ApplyWritesAt | simulator.py:448-454 | an address holds the last value stored to it |
| InstructionProperties.RelativeBranch | simulator.py:342-412 | BRA, BCC, BCS, BNE, BEQ and BLS: a taken branch sets PC to `(pc + 2 + offset) & 0xFFFF`, otherwise PC moves 2; nothing else changes |
| InstructionProperties.PushThenPullA | simulator.py:424-440 | PSHA then PULA restores every register, with PC 2 further |
| InstructionProperties.PushPullByte | simulator.py:424-446 | a push stores the accumulator at SP, and the matching pull restores it and SP |
| InstructionProperties.PushThenPullX | simulator.py:448-464 | PSHX then PULX restores every register, with PC 2 further |
| InstructionProperties.PushPullWord | simulator.py:448-464 | a 16-bit push stores the low byte at SP and the high byte below it, and the pull restores the register and SP |
| InstructionProperties.SwiThenRti | simulator.py:1158-1199 | SWI stores 7 bytes, lowers SP by 7, sets I and halts; RTI from that frame restores A, B, X, SP and the flags as they were before I was set, and resumes at the SWI address + 1 |
| InstructionProperties.InterruptFrame | simulator.py:476-512 | the same for the two instruction functions directly |
| InstructionProperties.Idiv | simulator.py:945-964 | IDIV by 0 sets C and V and keeps A, B and X; otherwise X is D div X, D is D mod X, C and V are cleared, and Z says whether the quotient is 0 |
| InstructionProperties.Division | simulator.py:945-964 | the same for the IDIV function directly |
| Instructions.Execute | simulator.py:217-1413 | an opcode without an arm halts and changes nothing else; the arms' effects are stated by the `InstructionProperties` lemmas below, and `Simulation.StepMachine` applies the outcome |
| Instructions.Page18 | simulator.py:1211-1405 | a `$18` prefix in the last byte of memory, or an unknown second byte, halts and changes nothing else |
| Instructions.UnknownOpcodeHalts | simulator.py:1407-1411 | an opcode without an arm halts and changes nothing else |
| Instructions.UnknownPageOpcodeHalts | simulator.py:1398-1401 | so does an unknown second byte after `$18` |
| Simulation.Blank | simulator.py:75 | fresh memory is all zero |
| Simulation.Loaded | simulator.py:127-131 | an image byte is stored masked to 8 bits; every other byte is kept |
| Simulation.ResetMachine | simulator.py:54-110 | A=B=X=Y=CC=0, SP=$01FF, flags clear, not halted, count 0; memory zero except the program; PC is the program start, or 0 without a program |
| Simulation.LoadMachine | simulator.py:112-131 | the image is stored; PC becomes the lowest address of a non-empty image; other memory, flags, halted and count are unchanged |
| Simulation.StepMachine | simulator.py:136-186 | a halted machine is unchanged; a PC out of range or no program halts without counting; a zero byte at an address the program did not load halts; otherwise the step is the instruction's effect applied to the machine; an executed instruction counts exactly 1; a step that returns false leaves registers and flags as they were |
| Simulation.Apply | simulator.py:173-186 | an outcome's stores are applied in order; a normal outcome sets registers, flags and halt and counts 1; a fault halts |
| Simulation.UnknownOpcodeCounts | simulator.py:173-181 | an unknown opcode halts the machine, still counts, and `step` returns true |
| Simulation.RunMachine | simulator.py:188-215 | `run(max)`, with `max` 1000 by default, executes at most `max` instructions, the count grows by exactly that many, and stopping early means halted |
| Simulation.Simulator.constructor | simulator.py:15-18 | the state of a new simulator is `Initial` |
| Simulation.Simulator.Reset | simulator.py:54-110 | the new state is `ResetMachine` of the old |
| Simulation.Simulator.LoadProgram | simulator.py:112-131 | the new state is `LoadMachine` of the old |
| Simulation.Simulator.Lowest | simulator.py:122-125 | the loop finds the minimum key |
| Simulation.Simulator.CopyImage | simulator.py:127-131 | the memory array becomes `Loaded` of the old memory |
| Simulation.Simulator.Step | simulator.py:136-186 | the new state and the result are `StepMachine` of the old state |
| Simulation.Simulator.Perform | simulator.py:173-186 | applying an outcome in place is `Apply` |
| Simulation.Simulator.Store | simulator.py:424-464 | the stores, done one by one on the array, give `ApplyWrites` |
| Simulation.Simulator.Run | simulator.py:188-215 | with the bound 1000 by default, the loop's state and count are `RunMachine` of the old state |
| Simulation.Simulator.GetMemoryValue | simulator.py:1534-1538 | an address outside memory reads as 0 |
| Simulation.Simulator.SetMemoryValue | simulator.py:1540-1543 | an address in range gets `value & 0xFF`; every other byte is unchanged; an address outside memory is ignored |
| Simulation.Simulator.GetRegisterValue | simulator.py:1545-1547 | an unknown register name reads as 0 |
| Simulation.Simulator.SetRegisterValue | simulator.py:1549-1561 | A, B and CC are masked to 8 bits, the others to 16; a CC write unpacks into the flags; no other register or state changes |
| Toolchain.BranchOpcode | m6800_assembler.py:23-148 | the table opcodes of BRA, BCC, BCS, BNE, BEQ and BLS are the ones the simulator executes as those branches |
| Toolchain.BranchExecutes | simulator.py:342-412 | a branch the assembler encoded to a target reaches that target when taken, and moves 2 when not |

## Left out

- `setup_logging`, `debug_print` and every call to them (simulator.py:20-52): file and
  console output only.
- `get_state`, `get_memory_dump`, `is_halted` and `get_instruction_count` of the
  simulator: display and plain field reads. `main.py` and the `main()` demo drivers are
  not part of this model.
- `_format_object_code` and `get_instruction_reference` of the assembler: display text
  only. The model's `Assembled` record carries no `object_code` text.
- `_is_branch_target` (m6800_assembler.py:494-496): nothing calls it.
- Python's `int(s, base)` is modelled for bases 2, 10 and 16 over ASCII digits, spaces,
  one sign, the base prefix and single underscores. Its error message quotes the text
  as `repr` would for plain text only.
- `upper`, `strip`, `split`, `isdigit` and `isalnum` are modelled for ASCII. Non-ASCII letters and
  Unicode spaces are not.
- The iteration order of the `object_data` dictionary in `load_program`: the stores hit
  distinct addresses, so the order does not change the result.
  `Simulation.Simulator.CopyImage` picks the addresses in any order.
- Instructions: most opcode arms are modelled in `Instructions.Execute` and `Page18`
  without lemmas of their own. Only the arms above carry proved properties. The arithmetic
  flag updates of ADD, SUB, CMP, NEG, DAA, MUL, FDIV and the shifts are modelled as
  written, without further lemmas.
- Simulation.RunMachine: no lemma composes two runs into one.
- Toolchain.BranchExecutes: it starts from the simulator's reading of the offset byte
  (`Cpu.Signed8`). `Encoder.BranchEncoding` ends at the assembler's (`Encoder.SignExtend8`).
  The two functions have the same definition, but no single lemma chains assembling and
  executing the same branch.
- Simulation.Simulator.GetMemoryValue: states only the out-of-range case. In range it
  reads the memory array directly, and the setters' contracts cover what it returns.
- Two-pass address agreement is not proved: an unknown name parses as 0 in pass 1, so
  pass 1 can reserve a DIR size where pass 2 emits EXT.
