/** One instruction of the simulator (`_execute_instruction`), as the change it makes:
    the new registers and flags, the bytes it stores in order, and whether it halts. A read
    or a store at $10000 or above raises `IndexError` in the source; the outcome is then a
    fault, which keeps the stores made before it. */
module Instructions {
  import opened Base
  import opened Cpu

  /** The 64 KB memory list. */
  type Memory = m: seq<Byte> | |m| == MemorySize witness seq(MemorySize, _ => 0)

  datatype Write = Write(addr: Word, value: Byte)

  datatype Outcome =
    | Next(regs: Regs, flags: Flags, writes: seq<Write>, halt: bool)
    | Fault(writes: seq<Write>)

  /** The stores of an outcome, in order. */
  function ApplyWrites(mem: Memory, ws: seq<Write>): (r: Memory)
    ensures forall a :: 0 <= a < MemorySize && (forall k :: 0 <= k < |ws| ==> ws[k].addr != a) ==> r[a] == mem[a]
    decreases |ws|
  {
    if ws == [] then mem else ApplyWrites(mem[ws[0].addr := ws[0].value], ws[1..])
  }

  /** A store that no later store overwrites is what the memory holds afterwards. */
  lemma {:induction false} ApplyWritesAt(mem: Memory, ws: seq<Write>, k: nat)
    requires k < |ws| && forall j :: k < j < |ws| ==> ws[j].addr != ws[k].addr
    ensures ApplyWrites(mem, ws)[ws[k].addr] == ws[k].value
    decreases |ws|
  {
    if k == 0 {
      assert forall j :: 0 <= j < |ws[1..]| ==> ws[1..][j].addr != ws[0].addr;
    } else {
      ApplyWritesAt(mem[ws[0].addr := ws[0].value], ws[1..], k - 1);
    }
  }

  // ---------------------------------------------------------------------------
  // Reading operands

  /** `memory[addr]`, or nothing when the index is past the end of the list. */
  function Read8(mem: Memory, addr: int): Option<Byte>
    requires addr >= 0
  {
    if addr < MemorySize then Some(mem[addr]) else None
  }

  /** `(memory[addr] << 8) | memory[addr + 1]`, or nothing when either index is past the end. */
  function Read16(mem: Memory, addr: int): Option<Word>
    requires addr >= 0
  {
    if addr + 1 < MemorySize then Some(Join16(mem[addr], mem[addr + 1])) else None
  }

  /** How an instruction finds its operand. An immediate operand is read from the
      instruction itself, so its address is that of the operand bytes. */
  datatype Addressing = Immediate | Direct | Extended | Indexed(base: Word)

  /** The address of the operand of an instruction whose operand bytes start `k` bytes after
      the opcode (1, or 2 after the $18 prefix). */
  function OperandAddress(r: Regs, mem: Memory, mode: Addressing, k: nat): Option<int>
    requires 0 <= r.pc < MemorySize
    ensures var a := OperandAddress(r, mem, mode, k); a.Some? ==> a.value >= 0
    ensures var a := OperandAddress(r, mem, mode, k); a.Some? && !mode.Immediate? ==> a.value < MemorySize
  {
    var at := r.pc + k;
    match mode
    case Immediate => Some(at)
    case Direct => if at < MemorySize then Some(mem[at]) else None
    case Extended => if at + 1 < MemorySize then Some(Join16(mem[at], mem[at + 1])) else None
    case Indexed(base) => if at < MemorySize then Some((base + mem[at]) % MemorySize) else None
  }

  /** The length of an instruction with `k` bytes before its operand bytes. */
  function Length(mode: Addressing, k: nat, wide: bool): nat {
    match mode
    case Immediate => k + (if wide then 2 else 1)
    case Direct => k + 1
    case Extended => k + 2
    case Indexed(_) => k + 1
  }

  function Advance(r: Regs, n: nat): Regs { r.(pc := r.pc + n) }

  /** An instruction that ends in `_pack_cc_register` with flags `g`. */
  function Flagged(r: Regs, g: Flags, n: nat, ws: seq<Write>): Outcome {
    Next(Packed(Advance(r, n), g), g, ws, false)
  }

  /** The 8-bit operand of an instruction. */
  function Operand8(r: Regs, mem: Memory, mode: Addressing, k: nat): Option<Byte>
    requires 0 <= r.pc < MemorySize
  {
    match OperandAddress(r, mem, mode, k)
    case None => None
    case Some(a) => Read8(mem, a)
  }

  /** The 16-bit operand of an instruction. */
  function Operand16(r: Regs, mem: Memory, mode: Addressing, k: nat): Option<Word>
    requires 0 <= r.pc < MemorySize
  {
    match OperandAddress(r, mem, mode, k)
    case None => None
    case Some(a) => Read16(mem, a)
  }

  // ---------------------------------------------------------------------------
  // Registers by name

  datatype Acc = A | B
  datatype Wide = X | Y | DAcc | SP

  function AccValue(r: Regs, acc: Acc): Byte { if acc == A then r.a else r.b }
  function SetAcc(r: Regs, acc: Acc, v: Byte): Regs { if acc == A then r.(a := v) else r.(b := v) }

  function WideValue(r: Regs, w: Wide): Word {
    match w
    case X => r.x
    case Y => r.y
    case DAcc => D(r)
    case SP => r.sp
  }

  function SetWide(r: Regs, w: Wide, v: Word): Regs {
    match w
    case X => r.(x := v)
    case Y => r.(y := v)
    case DAcc => r.(a := High(v), b := Low(v))
    case SP => r.(sp := v)
  }

  function And8(x: Byte, y: Byte): Byte { ((x as bv8) & (y as bv8)) as int }
  function Or8(x: Byte, y: Byte): Byte { ((x as bv8) | (y as bv8)) as int }

  // ---------------------------------------------------------------------------
  // Instruction groups

  /** LDA, LDB: load, N and Z from the value. */
  function LoadAcc(r: Regs, f: Flags, mem: Memory, acc: Acc, mode: Addressing): Outcome
    requires 0 <= r.pc < MemorySize
  {
    match Operand8(r, mem, mode, 1)
    case None => Fault([])
    case Some(v) => Flagged(SetAcc(r, acc, v), NZ(f, v), Length(mode, 1, false), [])
  }

  /** LDX, LDY, LDD: load 16 bits, high byte first; N is bit 7 of the value. */
  function LoadWide(r: Regs, f: Flags, mem: Memory, w: Wide, mode: Addressing, k: nat): Outcome
    requires 0 <= r.pc < MemorySize
  {
    match Operand16(r, mem, mode, k)
    case None => Fault([])
    case Some(v) => Flagged(SetWide(r, w, v), NZ(f, v), Length(mode, k, true), [])
  }

  /** STA, STB: store, N and Z from the register. */
  function StoreAcc(r: Regs, f: Flags, mem: Memory, acc: Acc, mode: Addressing): Outcome
    requires 0 <= r.pc < MemorySize && !mode.Immediate?
  {
    match OperandAddress(r, mem, mode, 1)
    case None => Fault([])
    case Some(a) =>
      var v := AccValue(r, acc);
      Flagged(r, NZ(f, v), Length(mode, 1, false), [Write(a, v)])
  }

  /** STX, STY, STD, STS: store 16 bits, high byte first. A store at $FFFF writes the high
      byte and then fails on the low one. */
  function StoreWide(r: Regs, f: Flags, mem: Memory, w: Wide, mode: Addressing, k: nat): Outcome
    requires 0 <= r.pc < MemorySize && !mode.Immediate?
  {
    match OperandAddress(r, mem, mode, k)
    case None => Fault([])
    case Some(a) =>
      var v := WideValue(r, w);
      if a + 1 >= MemorySize then Fault([Write(a, High(v))])
      else Flagged(r, NZ(f, v), Length(mode, k, false), [Write(a, High(v)), Write(a + 1, Low(v))])
  }

  /** ADDA, ADDB: C is the carry out of bit 7; V and H are left alone. */
  function AddAcc(r: Regs, f: Flags, mem: Memory, acc: Acc, mode: Addressing): Outcome
    requires 0 <= r.pc < MemorySize
  {
    match Operand8(r, mem, mode, 1)
    case None => Fault([])
    case Some(v) =>
      var sum: int := AccValue(r, acc) + v;
      var result := sum % 256;
      Flagged(SetAcc(r, acc, result), NZ(Carry(f, sum > 255), result), Length(mode, 1, false), [])
  }

  /** SUBA, SUBB: C is the borrow. */
  function SubAcc(r: Regs, f: Flags, mem: Memory, acc: Acc, mode: Addressing): Outcome
    requires 0 <= r.pc < MemorySize
  {
    match Operand8(r, mem, mode, 1)
    case None => Fault([])
    case Some(v) =>
      var prior: int := AccValue(r, acc);
      var result := (prior - v) % 256;
      Flagged(SetAcc(r, acc, result), NZ(Carry(f, prior < v), result), Length(mode, 1, false), [])
  }

  /** CMPA, CMPB: the flags of a subtraction whose result is dropped. */
  function CompareAcc(r: Regs, f: Flags, mem: Memory, acc: Acc, mode: Addressing): Outcome
    requires 0 <= r.pc < MemorySize
  {
    match Operand8(r, mem, mode, 1)
    case None => Fault([])
    case Some(v) =>
      var prior: int := AccValue(r, acc);
      Flagged(r, NZ(Carry(f, prior < v), (prior - v) % 256), Length(mode, 1, false), [])
  }

  /** ADDD: 16-bit add to D; C is the carry out of bit 15. */
  function AddD(r: Regs, f: Flags, mem: Memory, mode: Addressing): Outcome
    requires 0 <= r.pc < MemorySize
  {
    match Operand16(r, mem, mode, 1)
    case None => Fault([])
    case Some(v) =>
      var sum: int := D(r) + v;
      var result := sum % MemorySize;
      Flagged(SetWide(r, DAcc, result), NZ(Carry(f, sum > 0xFFFF), result), Length(mode, 1, true), [])
  }

  /** CPX, CPY: `_compare_16bit` of the register with the operand. */
  function CompareWide(r: Regs, f: Flags, mem: Memory, w: Wide, mode: Addressing, k: nat): Outcome
    requires 0 <= r.pc < MemorySize
  {
    match Operand16(r, mem, mode, k)
    case None => Fault([])
    case Some(v) => Flagged(r, Compare16(f, WideValue(r, w), v), Length(mode, k, true), [])
  }

  /** The branch condition of each relative branch opcode. */
  function BranchTaken(op: Byte, f: Flags): bool {
    match op
    case 0x20 => true
    case 0x24 => f.c == 0
    case 0x25 => f.c == 1
    case 0x26 => f.z == 0
    case 0x27 => f.z == 1
    case _ => f.c == 1 || f.z == 1
  }

  /** BRA, BCC, BCS, BNE, BEQ, BLS: the offset byte is read first; a taken branch goes to
      the end of the instruction plus the signed offset, wrapped to 16 bits. */
  function Branch(r: Regs, f: Flags, mem: Memory, taken: bool): Outcome
    requires 0 <= r.pc < MemorySize
  {
    if r.pc + 1 >= MemorySize then Fault([])
    else if taken then Next(r.(pc := (r.pc + 2 + Signed8(mem[r.pc + 1])) % MemorySize), f, [], false)
    else Next(Advance(r, 2), f, [], false)
  }

  /** NEG on a memory byte: two's complement; C unless the byte was 0, V when it was $80. */
  function NegMemory(r: Regs, f: Flags, mem: Memory, mode: Addressing): Outcome
    requires 0 <= r.pc < MemorySize && !mode.Immediate?
  {
    match OperandAddress(r, mem, mode, 1)
    case None => Fault([])
    case Some(a) =>
      var prior: int := mem[a];
      var result := (256 - prior) % 256;
      var g := NZ(f.(c := if prior != 0 then 1 else 0, v := if prior == 0x80 then 1 else 0), result);
      Flagged(r, g, Length(mode, 1, false), [Write(a, result)])
  }

  /** NEGA, NEGB. */
  function NegAcc(r: Regs, f: Flags, acc: Acc): Outcome {
    var prior: int := AccValue(r, acc);
    var result := (256 - prior) % 256;
    var g := NZ(f.(c := if prior != 0 then 1 else 0, v := if prior == 0x80 then 1 else 0), result);
    Flagged(SetAcc(r, acc, result), g, 1, [])
  }

  /** DECA, DECB: V when the register was $80; C is left alone. */
  function DecAcc(r: Regs, f: Flags, acc: Acc): Outcome {
    var prior: int := AccValue(r, acc);
    var result := (prior - 1) % 256;
    Flagged(SetAcc(r, acc, result), NZ(f.(v := if prior == 0x80 then 1 else 0), result), 1, [])
  }

  /** INX, DEX, INY, DEY: 16-bit increment or decrement, N and Z from the result. */
  function StepWide(r: Regs, f: Flags, w: Wide, delta: int, n: nat): Outcome {
    var result := (WideValue(r, w) + delta) % MemorySize;
    Flagged(SetWide(r, w, result), NZ(f, result), n, [])
  }

  /** PSHA, PSHB: store at SP, then move SP down. */
  function PushAcc(r: Regs, f: Flags, acc: Acc): Outcome {
    Next(Advance(r.(sp := (r.sp - 1) % MemorySize), 1), f, [Write(r.sp, AccValue(r, acc))], false)
  }

  /** PULA, PULB: move SP up, then load from SP. */
  function PullAcc(r: Regs, f: Flags, mem: Memory, acc: Acc): Outcome {
    var s := (r.sp + 1) % MemorySize;
    Next(Advance(SetAcc(r.(sp := s), acc, mem[s]), 1), f, [], false)
  }

  /** PSHX, PSHY: the low byte at SP, the high byte below it; SP moves down by two. */
  function PushWide(r: Regs, f: Flags, w: Wide, n: nat): Outcome {
    var v := WideValue(r, w);
    var s1 := (r.sp - 1) % MemorySize;
    Next(Advance(r.(sp := (s1 - 1) % MemorySize), n), f, [Write(r.sp, Low(v)), Write(s1, High(v))], false)
  }

  /** PULX, PULY: the high byte from SP + 1, the low byte from SP + 2. */
  function PullWide(r: Regs, f: Flags, mem: Memory, w: Wide, n: nat): Outcome {
    var s1 := (r.sp + 1) % MemorySize;
    var s2 := (s1 + 1) % MemorySize;
    Next(Advance(SetWide(r.(sp := s2), w, Join16(mem[s1], mem[s2])), n), f, [], false)
  }

  /** XGDX, XGDY: exchange D with the index register. */
  function ExchangeD(r: Regs, f: Flags, w: Wide, n: nat): Outcome {
    Next(Advance(SetWide(SetWide(r, DAcc, WideValue(r, w)), w, D(r)), n), f, [], false)
  }

  /** BSET, BCLR: set or clear the mask bits of a memory byte; V is cleared. */
  function BitOp(r: Regs, f: Flags, mem: Memory, mode: Addressing, setting: bool): Outcome
    requires 0 <= r.pc < MemorySize && !mode.Immediate?
  {
    if r.pc + 2 >= MemorySize then Fault([])
    else
      match OperandAddress(r, mem, mode, 1)
      case None => Fault([])
      case Some(a) =>
        var mask := mem[r.pc + 2];
        var result := if setting then Or8(mem[a], mask) else And8(mem[a], 255 - mask);
        Flagged(r, NZ(f, result).(v := 0), 3, [Write(a, result)])
  }

  /** BRSET, BRCLR: branch by the signed fourth byte when the masked bits of a memory byte
      are not all clear (BRSET) or all clear (BRCLR). */
  function BitBranch(r: Regs, f: Flags, mem: Memory, mode: Addressing, setting: bool): Outcome
    requires 0 <= r.pc < MemorySize && !mode.Immediate?
  {
    if r.pc + 3 >= MemorySize then Fault([])
    else
      match OperandAddress(r, mem, mode, 1)
      case None => Fault([])
      case Some(a) =>
        var masked := And8(mem[a], mem[r.pc + 2]);
        if (masked != 0) == setting then
          Next(r.(pc := (r.pc + 4 + Signed8(mem[r.pc + 3])) % MemorySize), f, [], false)
        else Next(Advance(r, 4), f, [], false)
  }

  /** JMP extended or indexed. */
  function Jump(r: Regs, f: Flags, mem: Memory, mode: Addressing): Outcome
    requires 0 <= r.pc < MemorySize && !mode.Immediate?
  {
    match OperandAddress(r, mem, mode, 1)
    case None => Fault([])
    case Some(a) => Next(r.(pc := a), f, [], false)
  }

  // ---------------------------------------------------------------------------
  // Instructions with their own behaviour

  /** DAA: add 6 when the low digit is above 9 or H is set, then $60 when the high digit
      (of the possibly already adjusted value) is above 9 or C is set, which also sets C. */
  function Daa(r: Regs, f: Flags): Outcome {
    var a1 := if r.a % 16 > 9 || f.h == 1 then r.a + 6 else r.a;
    var high := (a1 / 16) % 16 * 16 > 0x90 || f.c == 1;
    var a2 := if high then a1 + 0x60 else a1;
    var g := if high then Carry(f, true) else f;
    var result := a2 % 256;
    Flagged(r.(a := result), NZ(g, result), 1, [])
  }

  /** MUL: D = A * B; C is bit 7 of the low byte. */
  function Mul(r: Regs, f: Flags): Outcome {
    var product: int := r.a * r.b;
    var low := product % 256;
    Flagged(r.(a := (product / 256) % 256, b := low), Carry(f, low >= 128), 1, [])
  }

  /** IDIV: X = D / X and D = D % X; dividing by 0 only sets C and V. */
  function Idiv(r: Regs, f: Flags): Outcome {
    var d: int := D(r);
    if r.x == 0 then Flagged(r, f.(c := 1, v := 1), 1, [])
    else Quotiented(r, f, d / r.x, d % r.x)
  }

  /** IDIV's result: the quotient, masked to 16 bits, into X with N and Z set from it; the
      remainder's two bytes into A and B. */
  function Quotiented(r: Regs, f: Flags, q: int, rem: int): Outcome {
    Flagged(r.(x := q % MemorySize, a := (rem / 256) % 256, b := rem % 256), NZ(f.(c := 0, v := 0), q), 1, [])
  }

  /** FDIV: X = (D * 65536) / X; the remainder is shifted right by 16 and 24 bits into B
      and A, which leaves both 0 because the remainder is below X. Dividing by 0, or D not
      below X, only sets C and V. */
  function Fdiv(r: Regs, f: Flags): Outcome {
    var d: int := D(r);
    if r.x == 0 || d >= r.x then Flagged(r, f.(c := 1, v := 1), 1, [])
    else
      var shifted: int := d * 0x1_0000;
      var q := shifted / r.x;
      var rem := shifted % r.x;
      Flagged(r.(x := q % MemorySize, a := (rem / 0x100_0000) % 256, b := (rem / 0x1_0000) % 256),
              NZ(f.(c := 0, v := 0), q), 1, [])
  }

  /** LSRD: D shifted right; C is the bit shifted out. */
  function Lsrd(r: Regs, f: Flags): Outcome {
    var d: int := D(r);
    var result := d / 2;
    Flagged(SetWide(r, DAcc, result), NZ(f.(c := d % 2), result), 1, [])
  }

  /** ASLD: D shifted left; C is bit 15, V is bit 15 exclusive-or bit 14. */
  function Asld(r: Regs, f: Flags): Outcome {
    var d: int := D(r);
    var c := BitAt(d, 0x8000);
    var result := (d * 2) % MemorySize;
    Flagged(SetWide(r, DAcc, result), NZ(f.(c := c, v := if c != BitAt(d, 0x4000) then 1 else 0), result), 1, [])
  }

  /** RTS: the return address is read low byte from SP + 1, high byte from SP + 2. */
  function Rts(r: Regs, f: Flags, mem: Memory): Outcome {
    if r.sp + 2 >= MemorySize then Fault([])
    else Next(r.(pc := Join16(mem[r.sp + 2], mem[r.sp + 1]), sp := (r.sp + 2) % MemorySize), f, [], false)
  }

  /** The address `k` bytes above the stack pointer, wrapped. */
  function Above(sp: Word, k: nat): Word { (sp + k) % MemorySize }

  /** RTI: CC, B, A, X (high, low) and PC (high, low) from the seven bytes above SP; the
      flags are unpacked from the restored CC. */
  function Rti(r: Regs, f: Flags, mem: Memory): Outcome {
    var sp := r.sp;
    var cc := mem[Above(sp, 1)];
    Next(Regs(mem[Above(sp, 3)], mem[Above(sp, 2)], Join16(mem[Above(sp, 4)], mem[Above(sp, 5)]), r.y,
              Above(sp, 7), Join16(mem[Above(sp, 6)], mem[Above(sp, 7)]), cc),
         Unpack(cc), [], false)
  }

  /** The address `k` bytes below the stack pointer, wrapped. */
  function Below(sp: Word, k: int): Word { (sp - k) % MemorySize }

  /** The `k`-th byte SWI pushes: PC + 1 low and high, X low and high, A, B and CC. */
  function InterruptByte(r: Regs, f: Flags, k: int): Byte {
    var ret := (r.pc + 1) % MemorySize;
    if k == 0 then Low(ret)
    else if k == 1 then High(ret)
    else if k == 2 then Low(r.x)
    else if k == 3 then High(r.x)
    else if k == 4 then r.a
    else if k == 5 then r.b
    else Pack(f)
  }

  /** SWI: pushes PC + 1 (low byte first), X (low byte first), A, B and the packed CC, sets
      I and halts; PC stays on the SWI. */
  function Swi(r: Regs, f: Flags): Outcome {
    var g := f.(i := 1);
    Next(r.(sp := Below(r.sp, 7), cc := Pack(g)), g,
         seq(7, k => Write(Below(r.sp, k), InterruptByte(r, f, k))), true)
  }

  /** The opcodes `_execute_instruction` knows outside the $18 page. */
  predicate MainOpcode(op: Byte) {
       op == 0x00 || op == 0x01 || op == 0x02 || op == 0x03 || op == 0x04 || op == 0x05 || op == 0x08 || op == 0x09 || op == 0x0A || op == 0x12
    || op == 0x13 || op == 0x14 || op == 0x15 || op == 0x18 || op == 0x19 || op == 0x1B || op == 0x1C || op == 0x1D || op == 0x1E || op == 0x1F
    || op == 0x20 || op == 0x23 || op == 0x24 || op == 0x25 || op == 0x26 || op == 0x27 || op == 0x30 || op == 0x32 || op == 0x33 || op == 0x35
    || op == 0x36 || op == 0x37 || op == 0x38 || op == 0x39 || op == 0x3A || op == 0x3B || op == 0x3C || op == 0x3D || op == 0x3E || op == 0x3F
    || op == 0x40 || op == 0x4A || op == 0x50 || op == 0x51 || op == 0x52 || op == 0x53 || op == 0x5A || op == 0x6E || op == 0x7E || op == 0x81
    || op == 0x86 || op == 0x8B || op == 0x8C || op == 0x8F || op == 0x90 || op == 0x91 || op == 0x96 || op == 0x97 || op == 0xA6 || op == 0xA7
    || op == 0xB6 || op == 0xB7 || op == 0xC1 || op == 0xC3 || op == 0xC6 || op == 0xCB || op == 0xCC || op == 0xCE || op == 0xD1 || op == 0xD3
    || op == 0xD6 || op == 0xD7 || op == 0xDC || op == 0xDD || op == 0xDE || op == 0xDF || op == 0xE3 || op == 0xE6 || op == 0xE7 || op == 0xEC
    || op == 0xED || op == 0xEE || op == 0xF2 || op == 0xF3 || op == 0xF6 || op == 0xF7 || op == 0xFC || op == 0xFD || op == 0xFE || op == 0xFF
  }

  /** The second bytes `_execute_instruction` knows after the $18 prefix. */
  predicate PageOpcode(op: Byte) {
       op == 0x08 || op == 0x09 || op == 0x1A || op == 0x30 || op == 0x35 || op == 0x38 || op == 0x3C || op == 0x8C || op == 0x8F || op == 0x9C
    || op == 0xAC || op == 0xBC || op == 0xCE || op == 0xCF || op == 0xDC || op == 0xDE || op == 0xDF || op == 0xEE || op == 0xEF || op == 0xFE
    || op == 0xFF
  }

  /** `_execute_instruction` for the opcode at PC. */
  function Execute(r: Regs, f: Flags, mem: Memory): (o: Outcome)
    requires 0 <= r.pc < MemorySize
    ensures !MainOpcode(mem[r.pc]) ==> o == Next(r, f, [], true)
  {
    match mem[r.pc]
    // Inherent instructions
    case 0x00 => Next(r, f, [], true)
    case 0x01 => Next(Advance(r, 1), f, [], false)
    case 0x08 => StepWide(r, f, X, 1, 1)
    case 0x09 => StepWide(r, f, X, -1, 1)
    case 0x0A => Flagged(r, f.(v := 0), 1, [])
    case 0x40 => NegAcc(r, f, A)
    case 0x4A => DecAcc(r, f, A)
    case 0x5A => DecAcc(r, f, B)
    case 0x50 => NegAcc(r, f, B)
    case 0x51 => NegMemory(r, f, mem, Direct)
    case 0x52 => NegMemory(r, f, mem, Extended)
    case 0x53 =>
      var result := 255 - r.b;
      Flagged(r.(b := result), NZ(f.(c := 1, v := 0), result), 1, [])
    case 0x1B =>
      var sum: int := r.a + r.b;
      Flagged(r.(a := sum % 256), NZ(Carry(f, sum > 255), sum % 256), 1, [])
    case 0x3A => Next(Advance(r.(x := (r.x + r.b) % MemorySize), 1), f, [], false)
    case 0x19 => Daa(r, f)
    // Relative branches
    case 0x20 => Branch(r, f, mem, BranchTaken(0x20, f))
    case 0x24 => Branch(r, f, mem, BranchTaken(0x24, f))
    case 0x25 => Branch(r, f, mem, BranchTaken(0x25, f))
    case 0x26 => Branch(r, f, mem, BranchTaken(0x26, f))
    case 0x27 => Branch(r, f, mem, BranchTaken(0x27, f))
    case 0x23 => Branch(r, f, mem, BranchTaken(0x23, f))
    // Stack and transfers
    case 0x30 => Next(Advance(r.(x := Above(r.sp, 1)), 1), f, [], false)
    case 0x35 => Next(Advance(r.(sp := Below(r.x, 1)), 1), f, [], false)
    case 0x36 => PushAcc(r, f, A)
    case 0x37 => PushAcc(r, f, B)
    case 0x32 => PullAcc(r, f, mem, A)
    case 0x33 => PullAcc(r, f, mem, B)
    case 0x3C => PushWide(r, f, X, 1)
    case 0x38 => PullWide(r, f, mem, X, 1)
    case 0x39 => Rts(r, f, mem)
    case 0x3B => Rti(r, f, mem)
    case 0x3D => Mul(r, f)
    case 0x3E => Next(r, f, [], true)
    // Loads and stores
    case 0x86 => LoadAcc(r, f, mem, A, Immediate)
    case 0x96 => LoadAcc(r, f, mem, A, Direct)
    case 0xB6 => LoadAcc(r, f, mem, A, Extended)
    case 0xA6 => LoadAcc(r, f, mem, A, Indexed(r.x))
    case 0xC6 => LoadAcc(r, f, mem, B, Immediate)
    case 0xD6 => LoadAcc(r, f, mem, B, Direct)
    case 0xF6 => LoadAcc(r, f, mem, B, Extended)
    case 0xE6 => LoadAcc(r, f, mem, B, Indexed(r.x))
    case 0xCE => LoadWide(r, f, mem, X, Immediate, 1)
    case 0xDE => LoadWide(r, f, mem, X, Direct, 1)
    case 0xFE => LoadWide(r, f, mem, X, Extended, 1)
    case 0xEE => LoadWide(r, f, mem, X, Indexed(r.x), 1)
    case 0xCC => LoadWide(r, f, mem, DAcc, Immediate, 1)
    case 0xDC => LoadWide(r, f, mem, DAcc, Direct, 1)
    case 0xFC => LoadWide(r, f, mem, DAcc, Extended, 1)
    case 0xEC => LoadWide(r, f, mem, DAcc, Indexed(r.x), 1)
    case 0x97 => StoreAcc(r, f, mem, A, Direct)
    case 0xB7 => StoreAcc(r, f, mem, A, Extended)
    case 0xA7 => StoreAcc(r, f, mem, A, Indexed(r.x))
    case 0xD7 => StoreAcc(r, f, mem, B, Direct)
    case 0xF7 => StoreAcc(r, f, mem, B, Extended)
    case 0xE7 => StoreAcc(r, f, mem, B, Indexed(r.x))
    case 0xDF => StoreWide(r, f, mem, X, Direct, 1)
    case 0xFF => StoreWide(r, f, mem, X, Extended, 1)
    case 0xDD => StoreWide(r, f, mem, DAcc, Direct, 1)
    case 0xFD => StoreWide(r, f, mem, DAcc, Extended, 1)
    case 0xED => StoreWide(r, f, mem, DAcc, Indexed(r.x), 1)
    // Arithmetic and comparisons
    case 0x8B => AddAcc(r, f, mem, A, Immediate)
    case 0xCB => AddAcc(r, f, mem, B, Immediate)
    case 0x90 => SubAcc(r, f, mem, A, Direct)
    case 0xF2 => SubAcc(r, f, mem, B, Extended)
    case 0xC3 => AddD(r, f, mem, Immediate)
    case 0xD3 => AddD(r, f, mem, Direct)
    case 0xF3 => AddD(r, f, mem, Extended)
    case 0xE3 => AddD(r, f, mem, Indexed(r.x))
    case 0x81 => CompareAcc(r, f, mem, A, Immediate)
    case 0xC1 => CompareAcc(r, f, mem, B, Immediate)
    case 0x91 => CompareAcc(r, f, mem, A, Direct)
    case 0xD1 => CompareAcc(r, f, mem, B, Direct)
    case 0x8C => CompareWide(r, f, mem, X, Immediate, 1)
    // Jumps
    case 0x7E => Jump(r, f, mem, Extended)
    case 0x6E => Jump(r, f, mem, Indexed(r.x))
    // 6801 and 6811 instructions
    case 0x02 => Idiv(r, f)
    case 0x03 => Fdiv(r, f)
    case 0x04 => Lsrd(r, f)
    case 0x05 => Asld(r, f)
    case 0x12 => BitBranch(r, f, mem, Direct, true)
    case 0x13 => BitBranch(r, f, mem, Direct, false)
    case 0x14 => BitOp(r, f, mem, Direct, true)
    case 0x15 => BitOp(r, f, mem, Direct, false)
    case 0x1C => BitOp(r, f, mem, Indexed(r.x), true)
    case 0x1D => BitOp(r, f, mem, Indexed(r.x), false)
    case 0x1E => BitBranch(r, f, mem, Indexed(r.x), true)
    case 0x1F => BitBranch(r, f, mem, Indexed(r.x), false)
    case 0x3F => Swi(r, f)
    case 0x8F => ExchangeD(r, f, X, 1)
    case 0x18 => Page18(r, f, mem)
    case _ => Next(r, f, [], true)
  }

  /** The $18 page: the second byte selects a Y-register instruction; a prefix in the last
      byte of memory halts. */
  function Page18(r: Regs, f: Flags, mem: Memory): (o: Outcome)
    requires 0 <= r.pc < MemorySize
    ensures r.pc + 1 >= MemorySize || !PageOpcode(mem[r.pc + 1]) ==> o == Next(r, f, [], true)
  {
    if r.pc + 1 >= MemorySize then Next(r, f, [], true)
    else
      match mem[r.pc + 1]
      case 0xCE => LoadWide(r, f, mem, Y, Immediate, 2)
      case 0xDE => LoadWide(r, f, mem, Y, Direct, 2)
      case 0xFE => LoadWide(r, f, mem, Y, Extended, 2)
      case 0xEE => LoadWide(r, f, mem, Y, Indexed(r.x), 2)
      case 0xDF => StoreWide(r, f, mem, Y, Direct, 2)
      case 0xFF => StoreWide(r, f, mem, Y, Extended, 2)
      case 0xEF => StoreWide(r, f, mem, Y, Indexed(r.x), 2)
      case 0x08 => StepWide(r, f, Y, 1, 2)
      case 0x09 => StepWide(r, f, Y, -1, 2)
      case 0x8C => CompareWide(r, f, mem, Y, Immediate, 2)
      case 0x9C => CompareWide(r, f, mem, Y, Direct, 2)
      case 0xBC => CompareWide(r, f, mem, Y, Extended, 2)
      case 0xAC => CompareWide(r, f, mem, Y, Indexed(r.y), 2)
      case 0x1A => Next(Advance(r.(y := (r.y + r.b) % MemorySize), 2), f, [], false)
      case 0x3C => PushWide(r, f, Y, 2)
      case 0x38 => PullWide(r, f, mem, Y, 2)
      case 0x8F => ExchangeD(r, f, Y, 2)
      case 0x30 => Next(Advance(r.(y := Above(r.sp, 1)), 2), f, [], false)
      case 0x35 => Next(Advance(r.(sp := Below(r.y, 1)), 2), f, [], false)
      case 0xCF => StoreWide(r, f, mem, SP, Extended, 2)
      case 0xDC => LoadWide(r, f, mem, DAcc, Direct, 2)
      case _ => Next(r, f, [], true)
  }

  // ---------------------------------------------------------------------------
  // Properties

  /** An opcode with no arm halts the processor and changes nothing. */
  lemma UnknownOpcodeHalts(r: Regs, f: Flags, mem: Memory)
    requires 0 <= r.pc < MemorySize && !MainOpcode(mem[r.pc])
    ensures Execute(r, f, mem) == Next(r, f, [], true)
  {
  }

  /** So does an unknown second byte after the $18 prefix. */
  lemma UnknownPageOpcodeHalts(r: Regs, f: Flags, mem: Memory)
    requires 0 <= r.pc < MemorySize - 1 && mem[r.pc] == 0x18 && !PageOpcode(mem[r.pc + 1])
    ensures Execute(r, f, mem) == Next(r, f, [], true)
  {
  }
}
