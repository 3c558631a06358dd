/** The assembler's instruction table: for each mnemonic, the addressing modes it accepts
    and the opcode each mode encodes to (m6800_assembler.py, `_build_instruction_set`). */
module Isa {
  import opened Base

  /** Addressing modes: inherent, immediate, direct page, extended, indexed, relative. */
  datatype Mode = INH | IMM | DIR | EXT | IDX | REL

  /** An opcode that fits one byte: every register-dependent opcode in the table does. */
  type OpByte = x: int | 0 <= x < 256

  /** A table entry is either one opcode (possibly a two-byte $18xx / $1Axx opcode) or a
      pair of one-byte opcodes chosen by the accumulator, A or B. */
  datatype Encoding = Fixed(code: nat) | ByReg(a: OpByte, b: OpByte)

  /** The modes of one mnemonic; `None` is a mode listed without an opcode (ABA's). */
  type Modes = map<Mode, Option<Encoding>>

  function F(code: nat): Option<Encoding> { Some(Fixed(code)) }

  function R(a: OpByte, b: OpByte): Option<Encoding> { Some(ByReg(a, b)) }

  /** An accumulator arithmetic entry: (A, B) opcodes for IMM, DIR, EXT and IDX. */
  function Acc(imm: (OpByte, OpByte), dir: (OpByte, OpByte), ext: (OpByte, OpByte), idx: (OpByte, OpByte)): Modes {
    map[IMM := R(imm.0, imm.1), DIR := R(dir.0, dir.1), EXT := R(ext.0, ext.1), IDX := R(idx.0, idx.1)]
  }

  /** A read-modify-write entry: one opcode each for DIR, EXT and IDX, and an (A, B) pair for INH. */
  function Rmw(dir: nat, ext: nat, idx: nat, a: OpByte, b: OpByte): Modes {
    map[DIR := F(dir), EXT := F(ext), IDX := F(idx), INH := R(a, b)]
  }

  /** A four-mode memory entry with one opcode per mode. */
  function Mem4(imm: nat, dir: nat, ext: nat, idx: nat): Modes {
    map[IMM := F(imm), DIR := F(dir), EXT := F(ext), IDX := F(idx)]
  }

  /** A store entry: DIR, EXT and IDX. */
  function Store(dir: nat, ext: nat, idx: nat): Modes {
    map[DIR := F(dir), EXT := F(ext), IDX := F(idx)]
  }

  function Inh(code: nat): Modes { map[INH := F(code)] }

  function Rel(code: nat): Modes { map[REL := F(code)] }

  /** `instruction_set.get(mnemonic)`; keys are upper-case mnemonics. The table is looked
      up by the first letter of the mnemonic, then by the whole mnemonic. */
  function Lookup(op: string): Option<Modes>
  {
    if op == [] then None
    else
      var c := op[0];
      if c == 'A' then LookupA(op)
      else if c == 'B' then LookupB(op)
      else if c == 'C' then LookupC(op)
      else if 'D' <= c <= 'I' then LookupDI(op)
      else if 'J' <= c <= 'L' then LookupJL(op)
      else if 'M' <= c <= 'P' then LookupMP(op)
      else if c == 'R' then LookupR(op)
      else if c == 'S' then LookupS(op)
      else if 'T' <= c <= 'Z' then LookupTZ(op)
      else None
  }

  /** The mnemonics starting with `A`. */
  function LookupA(op: string): Option<Modes> {
    match op
    case "ABA" => Some(map[IMM := None, DIR := None, EXT := None, IDX := None, INH := F(0x1B)])
    case "ADC" => Some(Acc((0x89, 0xC9), (0x99, 0xD9), (0xB9, 0xF9), (0xA9, 0xE9)))
    case "ADD" => Some(Acc((0x8B, 0xCB), (0x9B, 0xDB), (0xBB, 0xFB), (0xAB, 0xEB)))
    case "AND" => Some(Acc((0x84, 0xC4), (0x94, 0xD4), (0xB4, 0xF4), (0xA4, 0xE4)))
    case "ASL" => Some(Rmw(0x08, 0x78, 0x68, 0x48, 0x58))
    case "ASR" => Some(Rmw(0x07, 0x77, 0x67, 0x47, 0x57))
    case "ASLD" => Some(Inh(0x05))
    case "ABX" => Some(Inh(0x3A))
    case "ADDD" => Some(Mem4(0xC3, 0xD3, 0xF3, 0xE3))
    case "ABY" => Some(Inh(0x18E5))
    case _ => None
  }

  /** The mnemonics starting with `B`. */
  function LookupB(op: string): Option<Modes> {
    match op
    case "BCC" => Some(Rel(0x24))
    case "BCS" => Some(Rel(0x25))
    case "BEQ" => Some(Rel(0x27))
    case "BGE" => Some(Rel(0x2C))
    case "BGT" => Some(Rel(0x2E))
    case "BHI" => Some(Rel(0x22))
    case "BLE" => Some(Rel(0x2F))
    case "BLS" => Some(Rel(0x23))
    case "BLT" => Some(Rel(0x2D))
    case "BMI" => Some(Rel(0x2B))
    case "BNE" => Some(Rel(0x26))
    case "BPL" => Some(Rel(0x2A))
    case "BRA" => Some(Rel(0x20))
    case "BSR" => Some(Rel(0x8D))
    case "BVC" => Some(Rel(0x28))
    case "BVS" => Some(Rel(0x29))
    case "BIT" => Some(Acc((0x85, 0xC5), (0x95, 0xD5), (0xB5, 0xF5), (0xA5, 0xE5)))
    case _ => None
  }

  /** The mnemonics starting with `C`. */
  function LookupC(op: string): Option<Modes> {
    match op
    case "CBA" => Some(Inh(0x11))
    case "CLC" => Some(Inh(0x0C))
    case "CLI" => Some(Inh(0x0E))
    case "CLR" => Some(Rmw(0x0F, 0x7F, 0x6F, 0x4F, 0x5F))
    case "CLV" => Some(Inh(0x0A))
    case "CMP" => Some(Acc((0x81, 0xC1), (0x91, 0xD1), (0xB1, 0xF1), (0xA1, 0xE1)))
    case "COM" => Some(Rmw(0x03, 0x73, 0x63, 0x43, 0x53))
    case "CPX" => Some(Mem4(0x8C, 0x9C, 0xBC, 0xAC))
    case "CPD" => Some(Mem4(0x1A83, 0x1A93, 0x1AB3, 0x1AA3))
    case "CPY" => Some(Mem4(0x18AC, 0x18BC, 0x18BC, 0x18AC))
    case _ => None
  }

  /** The mnemonics starting with `D` to `I`. */
  function LookupDI(op: string): Option<Modes> {
    match op
    case "DAA" => Some(Inh(0x19))
    case "DEC" => Some(Rmw(0x0A, 0x7A, 0x6A, 0x4A, 0x5A))
    case "DES" => Some(Inh(0x34))
    case "DEX" => Some(Inh(0x09))
    case "EOR" => Some(Acc((0x88, 0xC8), (0x98, 0xD8), (0xB8, 0xF8), (0xA8, 0xE8)))
    case "INC" => Some(Rmw(0x0C, 0x7C, 0x6C, 0x4C, 0x5C))
    case "INS" => Some(Inh(0x31))
    case "INX" => Some(Inh(0x08))
    case "IDIV" => Some(Inh(0x02))
    case "FDIV" => Some(Inh(0x03))
    case "INY" => Some(Inh(0x18CC))
    case "DEY" => Some(Inh(0x18CD))
    case _ => None
  }

  /** The mnemonics starting with `J` to `L`. */
  function LookupJL(op: string): Option<Modes> {
    match op
    case "JMP" => Some(map[EXT := F(0x7E), IDX := F(0x6E)])
    case "JSR" => Some(map[EXT := F(0xBD), IDX := F(0xAD)])
    case "LDA" => Some(Mem4(0x86, 0x96, 0xB6, 0xA6))
    case "LDB" => Some(Mem4(0xC6, 0xD6, 0xF6, 0xE6))
    case "LDX" => Some(Mem4(0xCE, 0xDE, 0xFE, 0xEE))
    case "LDS" => Some(Mem4(0x8E, 0x9E, 0xBE, 0xAE))
    case "LSR" => Some(Rmw(0x04, 0x74, 0x64, 0x44, 0x54))
    case "LSRD" => Some(Inh(0x04))
    case "LDD" => Some(Mem4(0xCC, 0xDC, 0xFC, 0xEC))
    case "LDY" => Some(Mem4(0x18CE, 0x18DE, 0x18FE, 0x18EE))
    case _ => None
  }

  /** The mnemonics starting with `M` to `P`. */
  function LookupMP(op: string): Option<Modes> {
    match op
    case "NOP" => Some(Inh(0x01))
    case "ORA" => Some(Mem4(0x8A, 0x9A, 0xBA, 0xAA))
    case "ORB" => Some(Mem4(0xCA, 0xDA, 0xFA, 0xEA))
    case "PSH" => Some(map[INH := R(0x36, 0x37)])
    case "PUL" => Some(map[INH := R(0x32, 0x33)])
    case "MUL" => Some(Inh(0x3D))
    case "PSHX" => Some(Inh(0x3C))
    case "PULX" => Some(Inh(0x38))
    case "PSHY" => Some(Inh(0x18DC))
    case "PULY" => Some(Inh(0x18D8))
    case _ => None
  }

  /** The mnemonics starting with `R`. */
  function LookupR(op: string): Option<Modes> {
    match op
    case "ROL" => Some(Rmw(0x09, 0x79, 0x69, 0x49, 0x59))
    case "ROR" => Some(Rmw(0x06, 0x76, 0x66, 0x46, 0x56))
    case "RTI" => Some(Inh(0x3B))
    case "RTS" => Some(Inh(0x39))
    case _ => None
  }

  /** The mnemonics starting with `S`. */
  function LookupS(op: string): Option<Modes> {
    match op
    case "SBA" => Some(Inh(0x10))
    case "SBC" => Some(Acc((0x82, 0xC2), (0x92, 0xD2), (0xB2, 0xF2), (0xA2, 0xE2)))
    case "SEC" => Some(Inh(0x0D))
    case "SEI" => Some(Inh(0x0F))
    case "SEV" => Some(Inh(0x0B))
    case "STA" => Some(Store(0x97, 0xB7, 0xA7))
    case "STB" => Some(Store(0xD7, 0xF7, 0xE7))
    case "STX" => Some(Store(0xDF, 0xFF, 0xEF))
    case "STS" => Some(Store(0x9F, 0xBF, 0xAF))
    case "SUB" => Some(Acc((0x80, 0xC0), (0x90, 0xD0), (0xB0, 0xF0), (0xA0, 0xE0)))
    case "SWI" => Some(Inh(0x3F))
    case "STD" => Some(Store(0xDD, 0xFD, 0xED))
    case "STY" => Some(Store(0x18DF, 0x18FF, 0x18EF))
    case _ => None
  }

  /** The mnemonics starting with `T` to `Z`. */
  function LookupTZ(op: string): Option<Modes> {
    match op
    case "TAB" => Some(Inh(0x16))
    case "TAP" => Some(Inh(0x06))
    case "TBA" => Some(Inh(0x17))
    case "TPA" => Some(Inh(0x07))
    case "TST" => Some(Rmw(0x0D, 0x7D, 0x6D, 0x4D, 0x5D))
    case "TSX" => Some(Inh(0x30))
    case "TXS" => Some(Inh(0x35))
    case "WAI" => Some(Inh(0x3E))
    case "XGDX" => Some(Inh(0x8F))
    case "XGDY" => Some(Inh(0x18CF))
    case "TSY" => Some(Inh(0x18F0))
    case "TYS" => Some(Inh(0x18F5))
    case _ => None
  }

  predicate IsMnemonic(op: string) { Lookup(op).Some? }

  /** Read-modify-write mnemonics whose register-dependent inherent form defaults to A
      when written without operands. */
  predicate DefaultsToA(op: string) {
    op in ["INC", "DEC", "CLR", "TST", "NEG", "COM", "ASL", "ASR", "LSR", "ROL", "ROR"]
  }

  /** Arithmetic mnemonics that default to accumulator A when an operand is given
      without a register. */
  predicate ArithDefaultsToA(op: string) {
    op in ["CMP", "ADC", "ADD", "AND", "BIT", "EOR", "ORA", "SBC", "SUB"]
  }

  /** Mnemonics whose immediate operand is 16 bits wide. */
  predicate WideImmediate(op: string) {
    op in ["LDX", "LDS", "CPX", "LDD", "LDY", "CPD", "CPY", "ADDD"]
  }

  /** The conditional and unconditional branches, which take a relative operand. */
  predicate IsBranch(op: string) {
    op in ["BCC", "BCS", "BEQ", "BGE", "BGT", "BHI", "BLE", "BLS",
           "BLT", "BMI", "BNE", "BPL", "BRA", "BSR", "BVC", "BVS"]
  }

  /** Every branch mnemonic is in the table with exactly one mode, REL, holding a
      one-byte opcode. */
  lemma BranchesAreRelative(op: string) returns (code: OpByte)
    requires IsBranch(op)
    ensures Lookup(op) == Some(Rel(code))
  {
    match op
    case "BCC" => code := 0x24;
    case "BCS" => code := 0x25;
    case "BEQ" => code := 0x27;
    case "BGE" => code := 0x2C;
    case "BGT" => code := 0x2E;
    case "BHI" => code := 0x22;
    case "BLE" => code := 0x2F;
    case "BLS" => code := 0x23;
    case "BLT" => code := 0x2D;
    case "BMI" => code := 0x2B;
    case "BNE" => code := 0x26;
    case "BPL" => code := 0x2A;
    case "BRA" => code := 0x20;
    case "BSR" => code := 0x8D;
    case "BVC" => code := 0x28;
    case "BVS" => code := 0x29;
  }
}
