/** The simulator object (`M6800Simulator`): reset, program loading, single steps, runs and
    the register and memory accessors. The object's state as a value is a `Machine`; the
    functions on machines below say what each method does to that state. */
module Simulation {
  import opened Cpu
  import opened Instructions

  /** Memory as `reset` allocates it: every byte 0. */
  function Blank(): (m: Memory)
    ensures forall a :: 0 <= a < MemorySize ==> m[a] == 0
  {
    seq(MemorySize, a => 0)
  }

  /** The loop of `reset` and `load_program` that copies an image into memory: each entry
      inside memory stores the low byte of its value. */
  function Loaded(mem: Memory, image: map<int, int>): (m: Memory)
    ensures forall a :: 0 <= a < MemorySize ==> m[a] == if a in image then image[a] % 256 else mem[a]
  {
    seq(MemorySize, a requires 0 <= a < MemorySize => if a in image then image[a] % 256 else mem[a])
  }

  /** The state of a simulator object: `registers`, `cc_flags`, `memory`, `program_data`,
      `program_start`, `execution_halted` and `instruction_count`. */
  datatype Machine = Machine(regs: Regs, flags: Flags, mem: Memory, program: map<int, int>, start: int,
                             halted: bool, count: nat)

  /** A new simulator: `reset` with no program loaded yet. */
  const Initial := Machine(ResetRegs, ClearFlags, Blank(), map[], 0, false, 0)

  /** `reset`: registers, flags, memory and counters go back to their initial values; a
      loaded program is kept, copied into the fresh memory, and PC points at its start. */
  function ResetMachine(m: Machine): (r: Machine)
    ensures r.regs == ResetRegs.(pc := r.regs.pc) && r.flags == ClearFlags && !r.halted && r.count == 0
    ensures r.program == m.program
    ensures m.program != map[] ==> r.regs.pc == m.start && r.start == m.start
    ensures m.program == map[] ==> r.regs.pc == 0 && r.start == 0
    ensures forall a :: 0 <= a < MemorySize ==> r.mem[a] == if a in m.program then m.program[a] % 256 else 0
  {
    if m.program != map[] then Machine(ResetRegs.(pc := m.start), ClearFlags, Loaded(Blank(), m.program), m.program, m.start, false, 0)
    else Initial
  }

  /** The lowest key of a non-empty image, Python's `min(object_data.keys())`. */
  ghost function MinKey(keys: set<int>): (k: int)
    requires keys != {}
    ensures k in keys && forall j :: j in keys ==> k <= j
    decreases keys
  {
    NonEmpty(keys);
    var x :| x in keys;
    if keys == {x} then
      assert forall j :: j in keys ==> j == x;
      x
    else
      var rest := MinKey(keys - {x});
      assert forall j :: j in keys ==> j == x || j in keys - {x};
      if x < rest then x else rest
  }

  /** `load_program`: the image becomes the program; a non-empty image also moves PC and
      `program_start` to its lowest address and is copied into memory. Nothing else
      changes; in particular a halted simulator stays halted. */
  ghost function LoadMachine(m: Machine, image: map<int, int>): (r: Machine)
    ensures r.program == image && r.flags == m.flags && r.halted == m.halted && r.count == m.count
    ensures image == map[] ==> r == m.(program := image)
    ensures image != map[] ==> r.regs == m.regs.(pc := r.start) && r.start in image
                               && forall a :: a in image ==> r.start <= a
    ensures forall a :: 0 <= a < MemorySize ==> r.mem[a] == if a in image then image[a] % 256 else m.mem[a]
  {
    if image == map[] then m.(program := image)
    else
      var start := MinKey(image.Keys);
      m.(regs := m.regs.(pc := start), mem := Loaded(m.mem, image), program := image, start := start)
  }

  /** `step`: a halted simulator does nothing; PC outside memory, no program, or PC on a
      zero byte that is not part of the image halts; otherwise the instruction runs and is
      counted, unless it faults, which halts without counting. The boolean is what `step`
      returns. */
  function StepMachine(m: Machine): (r: (Machine, bool))
    ensures m.halted ==> r == (m, false)
    ensures !m.halted && (m.regs.pc < 0 || m.regs.pc >= MemorySize) ==> r == (m.(halted := true), false)
    ensures !m.halted && m.program == map[] ==> r == (m.(halted := true), false)
    ensures (!m.halted && 0 <= m.regs.pc < MemorySize && m.program != map[]
             && m.regs.pc !in m.program && m.mem[m.regs.pc] == 0) ==> r == (m.(halted := true), false)
    ensures (!m.halted && 0 <= m.regs.pc < MemorySize && m.program != map[]
             && !(m.regs.pc !in m.program && m.mem[m.regs.pc] == 0)) ==> r == Apply(m, Execute(m.regs, m.flags, m.mem))
    ensures r.1 ==> !m.halted && m.program != map[] && r.0.count == m.count + 1
    ensures !r.1 ==> r.0.halted && r.0.count == m.count && r.0.regs == m.regs && r.0.flags == m.flags
    ensures r.0.program == m.program && r.0.start == m.start
  {
    if m.halted then (m, false)
    else if m.regs.pc < 0 || m.regs.pc >= MemorySize then (m.(halted := true), false)
    else if m.program == map[] then (m.(halted := true), false)
    else if m.regs.pc !in m.program && m.mem[m.regs.pc] == 0 then (m.(halted := true), false)
    else Apply(m, Execute(m.regs, m.flags, m.mem))
  }

  /** The end of `step` once the instruction has run: its stores are made; a fault halts
      without counting, otherwise registers and flags are the instruction's and it counts. */
  function Apply(m: Machine, o: Outcome): (r: (Machine, bool))
    ensures r.1 <==> o.Next?
    ensures r.0.mem == ApplyWrites(m.mem, o.writes)
    ensures r.1 ==> r.0 == m.(regs := o.regs, flags := o.flags, mem := r.0.mem, halted := o.halt, count := m.count + 1)
    ensures !r.1 ==> r.0 == m.(mem := r.0.mem, halted := true)
  {
    match o
    case Fault(ws) => (m.(mem := ApplyWrites(m.mem, ws), halted := true), false)
    case Next(r, f, ws, h) =>
      (m.(regs := r, flags := f, mem := ApplyWrites(m.mem, ws), halted := h, count := m.count + 1), true)
  }

  /** `run`: steps until a step returns false or `max` instructions have been executed,
      starting from `executed` already executed; gives the final state and the count. */
  function RunFrom(m: Machine, max: int, executed: nat): (r: (Machine, nat))
    ensures executed <= r.1 && (executed <= max ==> r.1 <= max)
    ensures r.0.count == m.count + (r.1 - executed)
    ensures r.1 < max ==> r.0.halted
    ensures m.halted ==> r == (m, executed)
    ensures r.0.program == m.program && r.0.start == m.start
    decreases max - executed
  {
    if executed >= max then (m, executed)
    else
      var (next, ok) := StepMachine(m);
      if !ok then (next, executed) else RunFrom(next, max, executed + 1)
  }

  /** `run(max)`: at most `max` instructions, each counted once; fewer only when the
      simulator has halted; a halted simulator runs nothing. */
  function RunMachine(m: Machine, max: int := 1000): (r: (Machine, nat))
    ensures max >= 0 ==> r.1 <= max
    ensures r.0.count == m.count + r.1
    ensures r.1 < max ==> r.0.halted
    ensures m.halted ==> r == (m, 0)
  {
    RunFrom(m, max, 0)
  }

  // ---------------------------------------------------------------------------
  // Properties of steps and runs

  /** The quirk of `step`: an opcode the dispatcher does not know halts the simulator, yet
      the step still counts it and reports success. */
  lemma UnknownOpcodeCounts(m: Machine)
    requires !m.halted && 0 <= m.regs.pc < MemorySize && m.program != map[]
    requires m.regs.pc in m.program || m.mem[m.regs.pc] != 0
    requires !MainOpcode(m.mem[m.regs.pc])
    ensures StepMachine(m) == (m.(halted := true, count := m.count + 1), true)
  {
    UnknownOpcodeHalts(m.regs, m.flags, m.mem);
  }

  // ---------------------------------------------------------------------------
  // The simulator object

  class Simulator {
    var regs: Regs
    var flags: Flags
    var memory: array<Byte>
    var program: map<int, int>
    var start: int
    var halted: bool
    var count: nat

    ghost predicate Valid()
      reads this
    {
      memory.Length == MemorySize
    }

    /** The object's state as a value. */
    function State(): Machine
      reads this, memory
      requires Valid()
    {
      Machine(regs, flags, memory[..], program, start, halted, count)
    }

    /** `__init__`, which calls `reset` before any program exists. */
    constructor ()
      ensures Valid() && State() == Initial && fresh(memory)
    {
      regs := ResetRegs;
      flags := ClearFlags;
      memory := new Byte[MemorySize](_ => 0);
      program := map[];
      start := 0;
      halted := false;
      count := 0;
      new;
      assert memory[..] == Blank();
    }

    /** `reset`: a new, zeroed memory array, then the kept program copied back into it. */
    method Reset()
      requires Valid()
      modifies this
      ensures Valid() && fresh(memory)
      ensures State() == ResetMachine(old(State()))
    {
      var backup := program;
      var backupStart := start;
      regs := ResetRegs;
      memory := new Byte[MemorySize](_ => 0);
      program := map[];
      start := 0;
      halted := false;
      count := 0;
      flags := ClearFlags;
      assert memory[..] == Blank();
      if backup != map[] {
        program := backup;
        start := backupStart;
        regs := regs.(pc := start);
        CopyImage(backup);
      }
    }

    /** `load_program`: the lowest address of a non-empty image becomes the start and PC,
        and the image is copied into memory. */
    method LoadProgram(image: map<int, int>)
      requires Valid()
      modifies this, memory
      ensures Valid() && memory == old(memory)
      ensures State() == LoadMachine(old(State()), image)
    {
      program := image;
      if image != map[] {
        var lowest := Lowest(image.Keys);
        start := lowest;
        regs := regs.(pc := start);
        CopyImage(image);
      }
    }

    /** `min` over the keys of an image. */
    static method Lowest(keys: set<int>) returns (lowest: int)
      requires keys != {}
      ensures lowest == MinKey(keys)
    {
      NonEmpty(keys);
      lowest :| lowest in keys;
      var rest := keys - {lowest};
      while rest != {}
        invariant rest <= keys && lowest in keys
        invariant forall j :: j in keys && j !in rest ==> lowest <= j
        decreases rest
      {
        NonEmpty(rest);
        var k :| k in rest;
        if k < lowest {
          lowest := k;
        }
        rest := rest - {k};
      }
      MinKeyUnique(keys, lowest);
    }

    /** The loop over `object_data.items()`: every address inside memory gets the low byte
        of its value. */
    method CopyImage(image: map<int, int>)
      requires Valid()
      modifies memory
      ensures memory[..] == Loaded(old(memory[..]), image)
    {
      var rest := image.Keys;
      while rest != {}
        invariant rest <= image.Keys
        invariant forall a :: 0 <= a < MemorySize ==>
          memory[a] == if a in image && a !in rest then image[a] % 256 else old(memory[a])
        decreases rest
      {
        NonEmpty(rest);
        var addr :| addr in rest;
        if 0 <= addr <= 0xFFFF {
          memory[addr] := image[addr] % 256;
        }
        rest := rest - {addr};
      }
      assert memory[..] == Loaded(old(memory[..]), image);
    }

    /** `step`. */
    method Step() returns (ok: bool)
      requires Valid()
      modifies this, memory
      ensures Valid() && memory == old(memory)
      ensures (State(), ok) == StepMachine(old(State()))
    {
      if halted {
        return false;
      }
      var pc := regs.pc;
      if pc < 0 || pc >= MemorySize {
        halted := true;
        return false;
      }
      if program == map[] {
        halted := true;
        return false;
      }
      if pc !in program && memory[pc] == 0 {
        halted := true;
        return false;
      }
      var outcome := Execute(regs, flags, memory[..]);
      ok := Perform(outcome);
    }

    /** Applies the outcome of the instruction at PC. */
    method Perform(outcome: Outcome) returns (ok: bool)
      requires Valid() && !halted
      modifies this, memory
      ensures Valid() && memory == old(memory)
      ensures (State(), ok) == Apply(old(State()), outcome)
    {
      Store(outcome.writes);
      match outcome {
        case Fault(_) =>
          halted := true;
          ok := false;
        case Next(r, f, _, h) =>
          regs := r;
          flags := f;
          if h {
            halted := true;
          }
          count := count + 1;
          ok := true;
      }
    }

    /** The stores an instruction makes, in order. */
    method Store(ws: seq<Write>)
      requires Valid()
      modifies memory
      ensures memory[..] == ApplyWrites(old(memory[..]), ws)
    {
      for j := 0 to |ws|
        invariant ApplyWrites(memory[..], ws[j..]) == ApplyWrites(old(memory[..]), ws)
      {
        assert ws[j..][1..] == ws[j + 1..];
        memory[ws[j].addr] := ws[j].value;
      }
      assert ws[|ws|..] == [];
    }

    /** `run`. */
    method Run(maxInstructions: int := 1000) returns (executed: nat)
      requires Valid()
      modifies this, memory
      ensures Valid() && memory == old(memory)
      ensures (State(), executed) == RunMachine(old(State()), maxInstructions)
    {
      executed := 0;
      while executed < maxInstructions
        invariant Valid() && memory == old(memory)
        invariant RunFrom(State(), maxInstructions, executed) == RunMachine(old(State()), maxInstructions)
        decreases maxInstructions - executed
      {
        var ok := Step();
        if !ok {
          break;
        }
        executed := executed + 1;
        if executed >= maxInstructions {
          break;
        }
      }
    }

    /** `get_memory_value`: 0 outside memory. */
    function GetMemoryValue(address: int): (v: Byte)
      reads this, memory
      requires Valid()
      ensures !(0 <= address < MemorySize) ==> v == 0
    {
      if 0 <= address < MemorySize then memory[address] else 0
    }

    /** `set_memory_value`: the low byte of the value; an address outside memory is ignored. */
    method SetMemoryValue(address: int, value: int)
      requires Valid()
      modifies memory
      ensures 0 <= address < MemorySize ==> GetMemoryValue(address) == value % 256
      ensures forall a :: a != address ==> GetMemoryValue(a) == old(GetMemoryValue(a))
      ensures !(0 <= address < MemorySize) ==> memory[..] == old(memory[..])
    {
      if 0 <= address <= 0xFFFF {
        memory[address] := value % 256;
      }
    }

    /** `get_register_value`: 0 for a name that is not a register. */
    function GetRegisterValue(name: string): (v: int)
      reads this
      ensures name !in {"A", "B", "X", "Y", "SP", "PC", "CC"} ==> v == 0
    {
      if name == "A" then regs.a
      else if name == "B" then regs.b
      else if name == "X" then regs.x
      else if name == "Y" then regs.y
      else if name == "SP" then regs.sp
      else if name == "PC" then regs.pc
      else if name == "CC" then regs.cc
      else 0
    }

    /** `set_register_value`: 8-bit registers keep the low byte, 16-bit ones the low word;
        writing CC also unpacks the flags; any other name is ignored. */
    method SetRegisterValue(name: string, value: int)
      modifies this
      ensures name in {"A", "B", "CC"} ==> GetRegisterValue(name) == value % 256
      ensures name in {"X", "Y", "SP", "PC"} ==> GetRegisterValue(name) == value % 0x1_0000
      ensures forall other :: other != name ==> GetRegisterValue(other) == old(GetRegisterValue(other))
      ensures flags == if name == "CC" then Unpack(value % 256) else old(flags)
      ensures memory == old(memory) && program == old(program) && start == old(start)
      ensures halted == old(halted) && count == old(count)
    {
      if name == "A" {
        regs := regs.(a := value % 256);
      } else if name == "B" {
        regs := regs.(b := value % 256);
      } else if name == "CC" {
        regs := regs.(cc := value % 256);
      } else if name == "X" {
        regs := regs.(x := value % 0x1_0000);
      } else if name == "Y" {
        regs := regs.(y := value % 0x1_0000);
      } else if name == "SP" {
        regs := regs.(sp := value % 0x1_0000);
      } else if name == "PC" {
        regs := regs.(pc := value % 0x1_0000);
      }
      if name == "CC" {
        flags := Unpack(regs.cc);
      }
    }
  }

  lemma MinKeyUnique(keys: set<int>, k: int)
    requires k in keys && forall j :: j in keys ==> k <= j
    ensures k == MinKey(keys)
  {
  }

  lemma NonEmpty(keys: set<int>)
    requires keys != {}
    ensures exists k :: k in keys
  {
    if forall k :: k !in keys {
      assert false;
    }
  }
}
