/** The assembler and the simulator together: a branch the assembler encodes is a branch
    the simulator takes to the label the programmer wrote. */
module Toolchain {
  import opened Base
  import Isa
  import opened Cpu
  import opened Instructions
  import InstructionProperties

  /** The branches the simulator executes as relative jumps. */
  predicate SimulatedBranch(opcode: string) {
    opcode in ["BRA", "BCC", "BCS", "BNE", "BEQ", "BLS"]
  }

  /** Whether the simulator takes the branch `opcode` under the flags `f`. */
  predicate Taken(opcode: string, f: Flags) {
    match opcode
    case "BCC" => f.c == 0
    case "BCS" => f.c == 1
    case "BNE" => f.z == 0
    case "BEQ" => f.z == 1
    case "BLS" => f.c == 1 || f.z == 1
    case _ => true
  }

  /** The opcode the assembler's table gives each simulated branch. */
  lemma BranchOpcode(opcode: string) returns (code: Byte)
    requires SimulatedBranch(opcode)
    ensures Isa.Lookup(opcode) == Some(Isa.Rel(code))
    ensures code in {0x20, 0x23, 0x24, 0x25, 0x26, 0x27}
    ensures code == 0x20 <==> opcode == "BRA"
    ensures code == 0x24 <==> opcode == "BCC"
    ensures code == 0x25 <==> opcode == "BCS"
    ensures code == 0x26 <==> opcode == "BNE"
    ensures code == 0x27 <==> opcode == "BEQ"
    ensures code == 0x23 <==> opcode == "BLS"
  {
    match opcode
    case "BRA" => code := 0x20;
    case "BCC" => code := 0x24;
    case "BCS" => code := 0x25;
    case "BNE" => code := 0x26;
    case "BEQ" => code := 0x27;
    case "BLS" => code := 0x23;
  }

  /** The simulator's side of `Encoder.BranchEncoding`: a branch whose opcode byte is the
      assembler's table entry and whose offset byte leads from the end of the instruction to
      `target` (what the assembler emits for a branch to `target`): PC moves to `target` when the branch is taken and
      past the two bytes when it is not; nothing is written and the simulator goes on. */
  lemma BranchExecutes(opcode: string, target: int, r: Regs, f: Flags, mem: Memory)
    requires SimulatedBranch(opcode) && 0 <= r.pc < MemorySize - 1 && 0 <= target < MemorySize
    requires Isa.Lookup(opcode) == Some(Isa.Rel(mem[r.pc]))
    requires r.pc + 2 + Signed8(mem[r.pc + 1]) == target
    ensures Execute(r, f, mem) == Next(r.(pc := if Taken(opcode, f) then target else r.pc + 2), f, [], false)
  {
    var code := BranchOpcode(opcode);
    assert Isa.Rel(mem[r.pc])[Isa.REL] == Isa.Rel(code)[Isa.REL];
    InstructionProperties.RelativeBranch(r, f, mem);
  }
}
