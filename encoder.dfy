/** Instruction encoding and instruction sizes (`_assemble_instruction`,
    `_calculate_instruction_size`). */
module Encoder {
  import opened Base
  import opened PyText
  import opened Isa
  import opened Operands

  // ---------------------------------------------------------------------------
  // Bytes

  predicate AllBytes(bytes: seq<int>) { forall i :: 0 <= i < |bytes| ==> 0 <= bytes[i] < 256 }

  /** Big-endian value of a byte sequence. */
  function BigEndian(bytes: seq<int>): int {
    if bytes == [] then 0 else BigEndian(bytes[..|bytes| - 1]) * 256 + bytes[|bytes| - 1]
  }

  /** Bytes an opcode occupies: three above $FFFF, two above $FF, one otherwise. */
  function OpcodeWidth(code: nat): nat {
    if code > 0xFFFF then 3 else if code > 0xFF then 2 else 1
  }

  lemma BigEndianPair(x: int, y: int)
    ensures BigEndian([x, y]) == x * 256 + y
  {
    assert BigEndian([x]) == x by { assert [x][..0] == []; }
    assert [x, y][..1] == [x];
  }

  lemma BigEndianTriple(x: int, y: int, z: int)
    ensures BigEndian([x, y, z]) == (x * 256 + y) * 256 + z
  {
    assert [x, y, z][..2] == [x, y];
    BigEndianPair(x, y);
  }

  /** Splitting a 24-bit number into three bytes loses nothing. */
  lemma ThreeBytes(code: nat)
    requires code < 0x100_0000
    ensures ((code / 0x10000) % 256 * 256 + (code / 256) % 256) * 256 + code % 256 == code
  {
    var hi := code / 256;
    assert code == hi * 256 + code % 256;
    assert hi == (hi / 256) * 256 + hi % 256;
    assert hi / 256 == code / 0x10000;
    assert code / 0x10000 < 256;
  }

  /** The opcode's bytes, most significant first. */
  function OpcodeBytes(code: nat): (b: seq<int>)
    ensures |b| == OpcodeWidth(code) && AllBytes(b)
    ensures code < 0x100_0000 ==> BigEndian(b) == code
  {
    if code > 0xFFFF then
      var b := [(code / 0x10000) % 256, (code / 256) % 256, code % 256];
      BigEndianTriple(b[0], b[1], b[2]);
      if code < 0x100_0000 then ThreeBytes(code); b else b
    else if code > 0xFF then
      BigEndianPair(code / 256, code % 256);
      [code / 256, code % 256]
    else
      assert [code][..0] == [];
      [code]
  }

  /** `v >> 8, v & 0xFF`: the high part is not masked, so a value outside 16 bits gives a
      first "byte" outside 0..255. The pair always rebuilds `v`. */
  function HighLow(v: int): (b: seq<int>)
    ensures |b| == 2 && b[0] * 256 + b[1] == v && 0 <= b[1] < 256
    ensures 0 <= v < 0x10000 <==> AllBytes(b)
  {
    [v / 256, v % 256]
  }

  /** Interpretation of a relative-offset byte as a signed 8-bit number. */
  function SignExtend8(b: int): int { if b >= 128 then b - 256 else b }

  // ---------------------------------------------------------------------------
  // Instruction encoding

  function ModeName(m: Mode): string {
    match m
    case INH => "INH"
    case IMM => "IMM"
    case DIR => "DIR"
    case EXT => "EXT"
    case IDX => "IDX"
    case REL => "REL"
  }

  /** The message of the `TypeError` raised when pass 2 formats the `None` that a
      mode listed without an opcode leaves in the machine code. */
  const NoneFormatError := "unsupported format string passed to NoneType.__format__"

  /** Operand bytes beyond the opcode for each mode (the `size_map` of the size pass). */
  function ModeExtra(m: Mode): nat {
    match m
    case INH => 0
    case IMM => 1
    case DIR => 1
    case EXT => 2
    case IDX => 1
    case REL => 1
  }

  /** Number of operand bytes: `ModeExtra`, plus one for a 16-bit immediate. */
  function OperandWidth(opcode: string, m: Mode): nat {
    if m == IMM && WideImmediate(opcode) then 2 else ModeExtra(m)
  }

  /** The register token in front of the operand, `A` or `B` in any case. */
  function RegisterToken(operands: seq<string>): (r: Option<char>)
    ensures r.Some? ==> r.value == 'A' || r.value == 'B'
  {
    if |operands| > 0 && (Upper(operands[0]) == "A" || Upper(operands[0]) == "B")
    then Some(Upper(operands[0])[0])
    else None
  }

  /** The operand text: the remaining tokens joined by single spaces. */
  function OperandText(operands: seq<string>): string {
    var start := if RegisterToken(operands).Some? then 1 else 0;
    if start < |operands| then Join(" ", operands[start..]) else ""
  }

  /** Bytes that follow the opcode. `opcodeLength` is the number of bytes already emitted;
      a relative offset is measured from the end of the instruction. */
  function OperandBytes(opcode: string, parsed: Operand, opcodeLength: nat, address: int): (r: Result<seq<int>>)
    ensures r.Ok? ==> |r.value| == OperandWidth(opcode, parsed.mode)
    ensures parsed.mode != REL ==> r.Ok?
    ensures parsed.mode == REL ==>
      var offset := parsed.number - (address + opcodeLength + 1);
      (r.Ok? <==> -128 <= offset <= 127)
      && (r.Ok? ==> AllBytes(r.value) && address + opcodeLength + 1 + SignExtend8(r.value[0]) == parsed.number)
      && (r.Err? ==> r.msg == "Branch target out of range: " + IntToDecimal(offset))
  {
    var v := parsed.number;
    match parsed.mode
    case IMM => Ok(if WideImmediate(opcode) then HighLow(v) else [v % 256])
    case DIR => Ok([v % 256])
    case EXT => Ok(HighLow(v))
    case IDX => Ok([v % 256])
    case REL =>
      var offset := v - (address + opcodeLength + 1);
      if offset < -128 || offset > 127 then Err("Branch target out of range: " + IntToDecimal(offset))
      else Ok([offset % 256])
    case INH => Ok([])
  }

  /** The message for a register other than `A` or `B`. */
  function RegisterMessage(reg: char, opcode: string, m: Mode): string {
    "Register " + [reg] + " not supported for " + opcode + " with " + ModeName(m) + " mode"
  }

  /** The opcode a table entry gives for the register in force. */
  function SelectOpcode(opcode: string, enc: Encoding, register: Option<char>, m: Mode): (r: Result<nat>)
    ensures r.Ok? && enc.ByReg? ==> r.value < 256
    ensures r.Ok? <==> enc.Fixed? || register == Some('A') || register == Some('B')
    ensures enc.ByReg? && register.None? ==> r == Err("Instruction " + opcode + " requires register specification")
  {
    match enc
    case Fixed(code) => Ok(code)
    case ByReg(a, b) =>
      match register
      case None => Err("Instruction " + opcode + " requires register specification")
      case Some(reg) =>
        if reg == 'A' then Ok(a)
        else if reg == 'B' then Ok(b)
        else Err(RegisterMessage(reg, opcode, m))
  }

  /** An instruction written without operands: its inherent opcode; a register-dependent one
      only for the read-modify-write group, which defaults to A. */
  function AssembleInherent(opcode: string, modes: Modes): (r: Result<seq<int>>)
    ensures INH !in modes ==> r == Err("Instruction " + opcode + " requires operands")
    ensures r.Ok? <==> INH in modes && modes[INH].Some? && (modes[INH].value.Fixed? || DefaultsToA(opcode))
    ensures r.Ok? ==> AllBytes(r.value) && |r.value| >= 1
    ensures r.Ok? ==> r.value == OpcodeBytes(if modes[INH].value.Fixed? then modes[INH].value.code else modes[INH].value.a)
  {
    if INH !in modes then Err("Instruction " + opcode + " requires operands")
    else
      match modes[INH]
      case None => Err(NoneFormatError)
      case Some(Fixed(code)) => Ok(OpcodeBytes(code))
      case Some(ByReg(a, _)) =>
        if DefaultsToA(opcode) then Ok(OpcodeBytes(a))
        else Err("Instruction " + opcode + " requires register specification")
  }

  /** The register in force: the register token, else `A` for the arithmetic group when an
      operand is present, else the register the operand itself names. */
  function EffectiveRegister(opcode: string, operands: seq<string>, parsed: Operand): (r: Option<char>)
    ensures RegisterToken(operands).Some? ==> r == RegisterToken(operands)
  {
    var token := RegisterToken(operands);
    if token.Some? then token
    else if OperandText(operands) != [] && ArithDefaultsToA(opcode) then Some('A')
    else parsed.register
  }

  /** `_assemble_instruction`: the machine code of one instruction at `address`, or the
      message of the exception it raises. */
  function AssembleInstruction(opcode: string, operands: seq<string>, labels: Labels, address: int): (r: Result<seq<int>>)
    requires IsMnemonic(opcode)
    ensures r.Ok? ==> |r.value| >= 1
    ensures operands == [] ==> r == AssembleInherent(opcode, Lookup(opcode).value)
  {
    AssembleWith(opcode, Lookup(opcode).value, operands, labels, address)
  }

  /** `_assemble_instruction` for the table entry `modes` of `opcode`. */
  function AssembleWith(opcode: string, modes: Modes, operands: seq<string>, labels: Labels, address: int): (r: Result<seq<int>>)
    ensures r.Ok? ==> |r.value| >= 1
    ensures operands == [] ==> r == AssembleInherent(opcode, modes)
    ensures operands != [] && r.Ok? ==> ParseOperand(OperandText(operands), opcode, labels).Ok?
  {
    if operands == [] then AssembleInherent(opcode, modes)
    else
      var parsed :- ParseOperand(OperandText(operands), opcode, labels);
      EncodeOperand(opcode, modes, EffectiveRegister(opcode, operands, parsed), parsed, address)
  }

  /** Encoding once the operand is parsed: the mode must be in the table, a register-dependent
      opcode needs a register, and the operand bytes follow the opcode bytes. */
  function EncodeOperand(opcode: string, modes: Modes, register: Option<char>, parsed: Operand, address: int): (r: Result<seq<int>>)
    ensures parsed.mode !in modes ==> r == Err("Addressing mode " + ModeName(parsed.mode) + " not supported for " + opcode)
    ensures r.Ok? ==> |r.value| == SizeFor(opcode, modes, parsed.mode)
    ensures r.Ok? ==> parsed.mode in modes && modes[parsed.mode].Some?
    ensures r.Ok? <==>
      && parsed.mode in modes && modes[parsed.mode].Some?
      && var code := SelectOpcode(opcode, modes[parsed.mode].value, register, parsed.mode);
         code.Ok? && OperandBytes(opcode, parsed, OpcodeWidth(code.value), address).Ok?
    ensures r.Ok? ==>
      var code := SelectOpcode(opcode, modes[parsed.mode].value, register, parsed.mode).value;
      r.value == OpcodeBytes(code) + OperandBytes(opcode, parsed, OpcodeWidth(code), address).value
  {
    if parsed.mode !in modes then
      Err("Addressing mode " + ModeName(parsed.mode) + " not supported for " + opcode)
    else
      match modes[parsed.mode]
      case None =>
        var ignored :- OperandBytes(opcode, parsed, 1, address);
        Err(NoneFormatError)
      case Some(enc) =>
        var code :- SelectOpcode(opcode, enc, register, parsed.mode);
        var tail :- OperandBytes(opcode, parsed, OpcodeWidth(code), address);
        Ok(OpcodeBytes(code) + tail)
  }

  /** The size the size pass gives an instruction in mode `m`: the opcode width when the
      entry is a single opcode (1 otherwise), plus the operand bytes. */
  function SizeFor(opcode: string, modes: Modes, m: Mode): (size: nat)
    ensures 1 <= size <= 5
  {
    var opcodeSize :=
      if m in modes && modes[m].Some? && modes[m].value.Fixed? then OpcodeWidth(modes[m].value.code) else 1;
    opcodeSize + OperandWidth(opcode, m)
  }

  /** `_calculate_instruction_size`: the size pass 1 reserves for an instruction. */
  function InstructionSize(opcode: string, operands: seq<string>, labels: Labels): (r: Result<nat>)
    requires IsMnemonic(opcode)
    ensures r.Ok? ==> 1 <= r.value <= 5
    ensures r.Err? ==> operands != [] && ParseOperand(OperandText(operands), opcode, labels).Err?
  {
    SizeWith(opcode, Lookup(opcode).value, operands, labels)
  }

  function SizeWith(opcode: string, modes: Modes, operands: seq<string>, labels: Labels): (r: Result<nat>)
    ensures r.Ok? ==> 1 <= r.value <= 5
    ensures r.Err? ==> operands != [] && ParseOperand(OperandText(operands), opcode, labels).Err?
  {
    if operands == [] then
      if INH in modes && modes[INH].Some? && modes[INH].value.Fixed?
      then Ok(OpcodeWidth(modes[INH].value.code))
      else Ok(1)
    else
      var parsed :- ParseOperand(OperandText(operands), opcode, labels);
      Ok(SizeFor(opcode, modes, parsed.mode))
  }

  // ---------------------------------------------------------------------------
  // Properties

  /** Pass 1 reserves exactly the bytes pass 2 emits, whenever both see the same labels. */
  lemma SizeMatchesEncoding(opcode: string, operands: seq<string>, labels: Labels, address: int)
    requires IsMnemonic(opcode)
    requires AssembleInstruction(opcode, operands, labels, address).Ok?
    ensures InstructionSize(opcode, operands, labels)
         == Ok(|AssembleInstruction(opcode, operands, labels, address).value|)
  {
    SizeWithMatches(opcode, Lookup(opcode).value, operands, labels, address);
  }

  lemma SizeWithMatches(opcode: string, modes: Modes, operands: seq<string>, labels: Labels, address: int)
    requires AssembleWith(opcode, modes, operands, labels, address).Ok?
    ensures SizeWith(opcode, modes, operands, labels) == Ok(|AssembleWith(opcode, modes, operands, labels, address).value|)
  {
  }

  /** A branch assembles exactly when its target lies within -128..127 of the end of the
      two-byte instruction; the offset byte then leads back to the target. */
  lemma BranchEncoding(opcode: string, operands: seq<string>, labels: Labels, address: int, target: int)
    requires IsBranch(opcode) && operands != []
    requires ParseOperand(OperandText(operands), opcode, labels) == Ok(Operand(REL, target, None))
    ensures IsMnemonic(opcode)
    ensures var r := AssembleInstruction(opcode, operands, labels, address);
      && (r.Ok? <==> -128 <= target - (address + 2) <= 127)
      && (r.Ok? ==> |r.value| == 2 && 0 <= r.value[0] < 256 && Lookup(opcode) == Some(Rel(r.value[0]))
                    && address + 2 + SignExtend8(r.value[1]) == target)
      && (r.Err? ==> r.msg == "Branch target out of range: " + IntToDecimal(target - (address + 2)))
  {
    var code := BranchesAreRelative(opcode);
    var modes := Lookup(opcode).value;
    var parsed := Operand(REL, target, None);
    var register := EffectiveRegister(opcode, operands, parsed);
    RelativeEncoding(opcode, modes, register, code, target, address);
    assert AssembleInstruction(opcode, operands, labels, address)
        == AssembleWith(opcode, modes, operands, labels, address)
        == EncodeOperand(opcode, modes, register, parsed, address);
  }

  lemma RelativeEncoding(opcode: string, modes: Modes, register: Option<char>, code: nat, target: int, address: int)
    requires REL in modes && modes[REL] == Some(Fixed(code)) && code < 256
    ensures var r := EncodeOperand(opcode, modes, register, Operand(REL, target, None), address);
      && (r.Ok? <==> -128 <= target - (address + 2) <= 127)
      && (r.Ok? ==> |r.value| == 2 && r.value[0] == code && address + 2 + SignExtend8(r.value[1]) == target)
      && (r.Err? ==> r.msg == "Branch target out of range: " + IntToDecimal(target - (address + 2)))
  {
    var parsed := Operand(REL, target, None);
    EncodeFixed(opcode, modes, register, parsed, address, code);
    RelativeBytes(code, target, address, OperandBytes(opcode, parsed, 1, address));
  }

  /** The opcode byte in front of a relative offset byte. */
  lemma RelativeBytes(code: nat, target: int, address: int, tail: Result<seq<int>>)
    requires tail.Ok? <==> -128 <= target - (address + 2) <= 127
    requires tail.Ok? ==> |tail.value| == 1 && address + 2 + SignExtend8(tail.value[0]) == target
    ensures var r: Result<seq<int>> := if tail.Err? then Err(tail.msg) else Ok([code] + tail.value);
      && (r.Ok? <==> -128 <= target - (address + 2) <= 127)
      && (r.Ok? ==> |r.value| == 2 && r.value[0] == code && address + 2 + SignExtend8(r.value[1]) == target)
      && (r.Err? ==> r.msg == tail.msg)
  {
    if tail.Ok? {
      var bytes := [code] + tail.value;
      assert bytes[0] == code && bytes[1] == tail.value[0];
    }
  }

  /** A mode with a single one-byte opcode encodes as that byte followed by the operand
      bytes, or fails as the operand bytes do. */
  lemma EncodeFixed(opcode: string, modes: Modes, register: Option<char>, parsed: Operand, address: int, code: nat)
    requires parsed.mode in modes && modes[parsed.mode] == Some(Fixed(code)) && code < 256
    ensures var tail := OperandBytes(opcode, parsed, 1, address);
      EncodeOperand(opcode, modes, register, parsed, address)
        == if tail.Err? then Err(tail.msg) else Ok([code] + tail.value)
  {
    assert SelectOpcode(opcode, Fixed(code), register, parsed.mode) == Ok(code);
    assert OpcodeBytes(code) == [code];
  }

  /** An arithmetic instruction given without a register is encoded as if `A` had been
      written in front of its operand. */
  lemma ArithmeticDefaultsToA(opcode: string, operands: seq<string>, labels: Labels, address: int)
    requires IsMnemonic(opcode) && ArithDefaultsToA(opcode)
    requires RegisterToken(operands).None? && OperandText(operands) != []
    ensures AssembleInstruction(opcode, operands, labels, address)
         == AssembleInstruction(opcode, ["A"] + operands, labels, address)
  {
    var withA := ["A"] + operands;
    assert Upper("A") == "A";
    assert RegisterToken(withA) == Some('A');
    assert withA[1..] == operands;
    assert OperandText(withA) == OperandText(operands);
  }

  /** The register token is case-insensitive. */
  lemma RegisterTokenCase(opcode: string, rest: seq<string>, labels: Labels, address: int)
    requires IsMnemonic(opcode)
    ensures AssembleInstruction(opcode, ["a"] + rest, labels, address)
         == AssembleInstruction(opcode, ["A"] + rest, labels, address)
    ensures AssembleInstruction(opcode, ["b"] + rest, labels, address)
         == AssembleInstruction(opcode, ["B"] + rest, labels, address)
  {
    assert Upper("a") == "A" && Upper("A") == "A";
    SameRegisterToken(opcode, "a", "A", rest, labels, address);
    assert Upper("b") == "B" && Upper("B") == "B";
    SameRegisterToken(opcode, "b", "B", rest, labels, address);
  }

  /** Two register tokens that upper-case alike assemble alike. */
  lemma SameRegisterToken(opcode: string, t1: string, t2: string, rest: seq<string>, labels: Labels, address: int)
    requires IsMnemonic(opcode)
    requires Upper(t1) == Upper(t2) && (Upper(t1) == "A" || Upper(t1) == "B")
    ensures AssembleInstruction(opcode, [t1] + rest, labels, address)
         == AssembleInstruction(opcode, [t2] + rest, labels, address)
  {
    assert ([t1] + rest)[1..] == rest && ([t2] + rest)[1..] == rest;
    assert RegisterToken([t1] + rest) == RegisterToken([t2] + rest);
    assert OperandText([t1] + rest) == OperandText([t2] + rest);
  }

  /** A 16-bit immediate or an extended address is emitted as two bytes that rebuild the
      operand value; they are both in 0..255 exactly when the value is in 0..$FFFF. */
  lemma WideOperandBytes(opcode: string, parsed: Operand, opcodeLength: nat, address: int)
    requires parsed.mode == EXT || (parsed.mode == IMM && WideImmediate(opcode))
    ensures var r := OperandBytes(opcode, parsed, opcodeLength, address);
      r.Ok? && BigEndian(r.value) == parsed.number
      && (AllBytes(r.value) <==> 0 <= parsed.number < 0x10000)
  {
    var b := OperandBytes(opcode, parsed, opcodeLength, address).value;
    assert b == HighLow(parsed.number);
    BigEndianPair(b[0], b[1]);
  }

  /** A direct address, an index offset or an 8-bit immediate is emitted as one byte that
      agrees with the operand value modulo 256 (Python's `& 0xFF`). */
  lemma NarrowOperandBytes(opcode: string, parsed: Operand, opcodeLength: nat, address: int)
    requires parsed.mode == DIR || parsed.mode == IDX || (parsed.mode == IMM && !WideImmediate(opcode))
    ensures var r := OperandBytes(opcode, parsed, opcodeLength, address);
      r.Ok? && |r.value| == 1 && AllBytes(r.value) && (parsed.number - r.value[0]) % 256 == 0
  {
  }

  /** The parse of an empty operand: nothing matches, so it is read as the number 0. */
  lemma EmptyOperand(opcode: string, labels: Labels)
    requires "" !in labels
    ensures ParseOperand("", opcode, labels)
         == Ok(Operand(if IsBranch(Upper(opcode)) then REL else DIR, 0, None))
  {
    EmptyDispatch(opcode, labels);
    EmptyNumber(labels);
  }

  /** An empty operand is neither immediate, indexed nor a register, so it goes to the
      branch target or memory operand parse. */
  lemma EmptyDispatch(opcode: string, labels: Labels)
    ensures ParseOperand("", opcode, labels)
         == if IsBranch(Upper(opcode)) then BranchOperand("", "", labels) else MemoryOperand("", labels)
  {
    var num := EmptyText();
    assert Strip("") == "";
    assert !Contains("", ",X") && !StartsWith("", "#");
  }

  /** An empty number is not a literal and, unless it is bound, reads as 0. */
  lemma EmptyNumber(labels: Labels)
    requires "" !in labels
    ensures ParseNumber("", labels) == Ok(0)
  {
    var num := EmptyText();
    EmptyNotDecimal();
    assert !StartsWith(num, "$") && !StartsWith(num, "0X") && !StartsWith(num, "%") && !StartsWith(num, "0B");
  }

  /** Stripping and upper-casing the empty text leaves it empty. */
  lemma EmptyText() returns (num: string)
    ensures num == Upper(Strip("")) && num == ""
  {
    num := Upper(Strip(""));
    assert Strip("") == "";
  }

  /** The empty text is not a decimal literal. */
  lemma EmptyNotDecimal()
    ensures PyInt("", 10).Err?
  {
    assert Strip("") == "";
    assert !WellFormedDigits("", 10);
  }

  /** A register written alone after the mnemonic (`INC A`, `PSH B`) is taken as the register
      token, which leaves an empty operand; that parses as address 0, so the instruction is
      encoded in direct mode, never in its inherent register form. */
  lemma LoneRegisterIsDirectZero(opcode: string, modes: Modes, reg: string, labels: Labels, address: int)
    requires !IsBranch(Upper(opcode)) && "" !in labels
    requires Upper(reg) == "A" || Upper(reg) == "B"
    ensures AssembleWith(opcode, modes, [reg], labels, address)
         == EncodeOperand(opcode, modes, RegisterToken([reg]), Operand(DIR, 0, None), address)
  {
    assert OperandText([reg]) == "";
    EmptyOperand(opcode, labels);
  }

  /** Address 0 in a mode with a one-byte opcode encodes as that opcode and a zero byte. */
  lemma DirectZero(opcode: string, modes: Modes, register: Option<char>, code: nat, address: int)
    requires DIR in modes && modes[DIR] == Some(Fixed(code)) && code < 256
    ensures EncodeOperand(opcode, modes, register, Operand(DIR, 0, None), address) == Ok([code, 0])
  {
    assert SelectOpcode(opcode, Fixed(code), register, DIR) == Ok(code);
    assert OpcodeBytes(code) == [code];
    assert OperandBytes(opcode, Operand(DIR, 0, None), 1, address) == Ok([0]);
    assert [code] + [0] == [code, 0];
  }

  /** The table entry of a mnemonic that is not a branch. */
  lemma TableEntry(opcode: string, modes: Modes)
    requires opcode == "INC" || opcode == "PSH"
    requires opcode == "INC" ==> modes == Rmw(0x0C, 0x7C, 0x6C, 0x4C, 0x5C)
    requires opcode == "PSH" ==> modes == map[INH := R(0x36, 0x37)]
    ensures IsMnemonic(opcode) && Lookup(opcode) == Some(modes) && !IsBranch(Upper(opcode))
  {
    assert Upper(opcode) == opcode;
  }

  /** `INC A` assembles as `INC $00` (opcode $0C, direct) rather than INCA ($4C). */
  lemma IncAIsDirect(labels: Labels, address: int)
    requires "" !in labels
    ensures AssembleInstruction("INC", ["A"], labels, address) == Ok([0x0C, 0x00])
  {
    var modes := Rmw(0x0C, 0x7C, 0x6C, 0x4C, 0x5C);
    TableEntry("INC", modes);
    LoneRegisterIsDirectZero("INC", modes, "A", labels, address);
    DirectZero("INC", modes, RegisterToken(["A"]), 0x0C, address);
  }

  /** `PSH A` is rejected: PSH has no direct mode. */
  lemma PshAIsRejected(labels: Labels, address: int)
    requires "" !in labels
    ensures AssembleInstruction("PSH", ["A"], labels, address)
         == Err("Addressing mode " + "DIR" + " not supported for " + "PSH")
  {
    var modes := map[INH := R(0x36, 0x37)];
    TableEntry("PSH", modes);
    LoneRegisterIsDirectZero("PSH", modes, "A", labels, address);
  }
}
