/** What single instructions and short instruction sequences of the simulator do. */
module InstructionProperties {
  import opened Cpu
  import opened Instructions

  /** The arms of the instructions the lemmas below follow. */
  lemma SwiArm(r: Regs, f: Flags, mem: Memory)
    requires 0 <= r.pc < MemorySize && mem[r.pc] == 0x3F
    ensures Execute(r, f, mem) == Swi(r, f)
  {
  }

  lemma RtiArm(r: Regs, f: Flags, mem: Memory)
    requires 0 <= r.pc < MemorySize && mem[r.pc] == 0x3B
    ensures Execute(r, f, mem) == Rti(r, f, mem)
  {
  }

  lemma PshaArm(r: Regs, f: Flags, mem: Memory)
    requires 0 <= r.pc < MemorySize && mem[r.pc] == 0x36
    ensures Execute(r, f, mem) == PushAcc(r, f, A)
  {
  }

  lemma PulaArm(r: Regs, f: Flags, mem: Memory)
    requires 0 <= r.pc < MemorySize && mem[r.pc] == 0x32
    ensures Execute(r, f, mem) == PullAcc(r, f, mem, A)
  {
  }

  lemma PshxArm(r: Regs, f: Flags, mem: Memory)
    requires 0 <= r.pc < MemorySize && mem[r.pc] == 0x3C
    ensures Execute(r, f, mem) == PushWide(r, f, X, 1)
  {
  }

  lemma PulxArm(r: Regs, f: Flags, mem: Memory)
    requires 0 <= r.pc < MemorySize && mem[r.pc] == 0x38
    ensures Execute(r, f, mem) == PullWide(r, f, mem, X, 1)
  {
  }

  lemma IdivArm(r: Regs, f: Flags, mem: Memory)
    requires 0 <= r.pc < MemorySize && mem[r.pc] == 0x02
    ensures Execute(r, f, mem) == Instructions.Idiv(r, f)
  {
  }

  // ---------------------------------------------------------------------------
  // Branches

  /** BRA, BCC, BCS, BNE, BEQ, BLS: the offset is sign-extended; a taken branch goes to
      `(pc + 2 + offset) & 0xFFFF`, one not taken to `pc + 2`; nothing else changes. */
  lemma RelativeBranch(r: Regs, f: Flags, mem: Memory)
    requires 0 <= r.pc < MemorySize - 1 && mem[r.pc] in {0x20, 0x23, 0x24, 0x25, 0x26, 0x27}
    ensures var o := Execute(r, f, mem); var op := mem[r.pc];
      var target := (r.pc + 2 + Signed8(mem[r.pc + 1])) % MemorySize;
      var taken := if op == 0x20 then true
        else if op == 0x24 then f.c == 0
        else if op == 0x25 then f.c == 1
        else if op == 0x26 then f.z == 0
        else if op == 0x27 then f.z == 1
        else f.c == 1 || f.z == 1;
      o == Next(r.(pc := if taken then target else r.pc + 2), f, [], false)
  {
  }

  // ---------------------------------------------------------------------------
  // Stack

  /** PSHA followed by PULA gives back A and SP and changes no other register or flag. */
  lemma PushThenPullA(r: Regs, f: Flags, mem: Memory)
    requires 0 <= r.pc < MemorySize - 1 && mem[r.pc] == 0x36 && mem[r.pc + 1] == 0x32
    requires r.sp != r.pc + 1
    ensures var o := Execute(r, f, mem);
      o.Next? && Execute(o.regs, o.flags, ApplyWrites(mem, o.writes)) == Next(r.(pc := r.pc + 2), f, [], false)
  {
    var o := PushAcc(r, f, A);
    PshaArm(r, f, mem);
    var m1 := ApplyWrites(mem, o.writes);
    PushPullByte(r, f, mem, A);
    assert m1[r.pc + 1] == 0x32;
    PulaArm(o.regs, o.flags, m1);
  }

  /** The byte PSHA or PSHB pushes is the one PULA or PULB pulls. */
  lemma PushPullByte(r: Regs, f: Flags, mem: Memory, acc: Acc)
    ensures var o := PushAcc(r, f, acc);
      && o.Next? && o.writes == [Write(r.sp, AccValue(r, acc))]
      && PullAcc(o.regs, o.flags, ApplyWrites(mem, o.writes), acc) == Next(r.(pc := r.pc + 2), f, [], false)
  {
    var o := PushAcc(r, f, acc);
    ApplyWritesAt(mem, o.writes, 0);
    assert (o.regs.sp + 1) % MemorySize == r.sp;
  }

  /** PSHX followed by PULX gives back X and SP: the low byte is pushed at SP and the high
      byte below it, and PULX reads them back in that order. */
  lemma PushThenPullX(r: Regs, f: Flags, mem: Memory)
    requires 0 <= r.pc < MemorySize - 1 && mem[r.pc] == 0x3C && mem[r.pc + 1] == 0x38
    requires r.sp != r.pc + 1 && Below(r.sp, 1) != r.pc + 1
    ensures var o := Execute(r, f, mem);
      o.Next? && Execute(o.regs, o.flags, ApplyWrites(mem, o.writes)) == Next(r.(pc := r.pc + 2), f, [], false)
  {
    var o := PushWide(r, f, X, 1);
    PshxArm(r, f, mem);
    var m1 := ApplyWrites(mem, o.writes);
    PushPullWord(r, f, mem, X, 1);
    assert m1[r.pc + 1] == 0x38;
    PulxArm(o.regs, o.flags, m1);
  }

  /** The word PSHX or PSHY pushes is the one PULX or PULY pulls. */
  lemma PushPullWord(r: Regs, f: Flags, mem: Memory, w: Wide, n: nat)
    requires w == X || w == Y
    ensures var o := PushWide(r, f, w, n);
      && o.Next? && o.writes == [Write(r.sp, Low(WideValue(r, w))), Write(Below(r.sp, 1), High(WideValue(r, w)))]
      && PullWide(o.regs, o.flags, ApplyWrites(mem, o.writes), w, n) == Next(r.(pc := r.pc + 2 * n), f, [], false)
  {
    var o := PushWide(r, f, w, n);
    var m1 := ApplyWrites(mem, o.writes);
    var s1 := Below(r.sp, 1);
    assert s1 != r.sp;
    ApplyWritesAt(mem, o.writes, 0);
    ApplyWritesAt(mem, o.writes, 1);
    assert (o.regs.sp + 1) % MemorySize == s1;
    assert (s1 + 1) % MemorySize == r.sp;
    var v := WideValue(r, w);
    assert Join16(High(v), Low(v)) == v;
  }

  // ---------------------------------------------------------------------------
  // Software interrupt

  /** SWI pushes seven bytes, moves SP down by seven, sets I and halts; RTI run from a handler
      on that frame restores CC as it was before I was set, B, A, X and SP, and resumes after
      the SWI. */
  lemma SwiThenRti(r: Regs, f: Flags, mem: Memory, handler: Word)
    requires 0 <= r.pc < MemorySize && mem[r.pc] == 0x3F
    requires mem[handler] == 0x3B && forall k :: 0 <= k < 7 ==> Below(r.sp, k) != handler
    ensures var o := Execute(r, f, mem);
      && o.Next? && o.halt && o.regs == r.(sp := Below(r.sp, 7), cc := Pack(o.flags)) && o.flags == f.(i := 1)
      && Execute(o.regs.(pc := handler), o.flags, ApplyWrites(mem, o.writes))
         == Next(r.(pc := (r.pc + 1) % MemorySize, cc := Pack(f)), f, [], false)
  {
    var o := Swi(r, f);
    SwiArm(r, f, mem);
    var m1 := ApplyWrites(mem, o.writes);
    InterruptFrame(r, f, mem, handler);
    assert m1[handler] == 0x3B;
    RtiArm(o.regs.(pc := handler), o.flags, m1);
  }

  /** The frame SWI pushes is the one RTI pulls. */
  lemma InterruptFrame(r: Regs, f: Flags, mem: Memory, handler: int)
    ensures var o := Swi(r, f);
      && o.Next? && o.halt && o.regs == r.(sp := Below(r.sp, 7), cc := Pack(o.flags)) && o.flags == f.(i := 1)
      && Rti(o.regs.(pc := handler), o.flags, ApplyWrites(mem, o.writes))
         == Next(r.(pc := (r.pc + 1) % MemorySize, cc := Pack(f)), f, [], false)
  {
    var o := Swi(r, f);
    var ret := (r.pc + 1) % MemorySize;
    var m1 := ApplyWrites(mem, o.writes);
    SwiPushes(r, f, mem);
    FrameLow(r, f, m1);
    FrameHigh(r, f, m1);
    assert Rti(o.regs.(pc := handler), o.flags, m1)
        == Next(Regs(r.a, r.b, Join16(High(r.x), Low(r.x)), r.y, r.sp, Join16(High(ret), Low(ret)), Pack(f)),
                Unpack(Pack(f)), [], false);
    assert Join16(High(r.x), Low(r.x)) == r.x;
    assert Join16(High(ret), Low(ret)) == ret;
    UnpackPack(f);
  }

  /** After SWI, the `k`-th pushed byte sits `k` bytes below the old SP. */
  lemma SwiPushes(r: Regs, f: Flags, mem: Memory)
    ensures var m1 := ApplyWrites(mem, Swi(r, f).writes);
      forall k :: 0 <= k < 7 ==> m1[Below(r.sp, k)] == InterruptByte(r, f, k)
  {
    var ws := Swi(r, f).writes;
    forall k | 0 <= k < 7 ensures ApplyWrites(mem, ws)[Below(r.sp, k)] == InterruptByte(r, f, k) {
      forall j | k < j < 7 ensures ws[j].addr != ws[k].addr {
        BelowDistinct(r.sp, k, j);
      }
      ApplyWritesAt(mem, ws, k);
    }
  }

  lemma BelowDistinct(sp: Word, j: nat, k: nat)
    requires j < k < 7
    ensures Below(sp, j) != Below(sp, k)
  {
  }

  /** Counting up from the new SP walks the pushed bytes in reverse. */
  lemma AboveBelow(sp: Word, k: nat)
    requires k <= 7
    ensures Above(Below(sp, 7), 7 - k) == Below(sp, k)
  {
    if sp >= 7 {
      assert Below(sp, 7) == sp - 7;
    } else {
      assert Below(sp, 7) == sp - 7 + MemorySize;
    }
  }

  /** The byte RTI reads `7 - k` above the new SP is the `k`-th byte SWI pushed. */
  lemma PulledByte(r: Regs, f: Flags, m1: Memory, k: nat)
    requires k < 7
    requires forall j :: 0 <= j < 7 ==> m1[Below(r.sp, j)] == InterruptByte(r, f, j)
    ensures m1[Above(Below(r.sp, 7), 7 - k)] == InterruptByte(r, f, k)
  {
    AboveBelow(r.sp, k);
  }

  /** RTI's first five bytes: CC, B, A and X. */
  lemma FrameLow(r: Regs, f: Flags, m1: Memory)
    requires forall k :: 0 <= k < 7 ==> m1[Below(r.sp, k)] == InterruptByte(r, f, k)
    ensures var top := Below(r.sp, 7);
      && m1[Above(top, 1)] == Pack(f) && m1[Above(top, 2)] == r.b && m1[Above(top, 3)] == r.a
      && m1[Above(top, 4)] == High(r.x) && m1[Above(top, 5)] == Low(r.x)
  {
    PulledByte(r, f, m1, 6);
    PulledByte(r, f, m1, 5);
    PulledByte(r, f, m1, 4);
    PulledByte(r, f, m1, 3);
    PulledByte(r, f, m1, 2);
  }

  /** RTI's last two bytes: the return address. */
  lemma FrameHigh(r: Regs, f: Flags, m1: Memory)
    requires forall k :: 0 <= k < 7 ==> m1[Below(r.sp, k)] == InterruptByte(r, f, k)
    ensures var top := Below(r.sp, 7); var ret := (r.pc + 1) % MemorySize;
      m1[Above(top, 6)] == High(ret) && m1[Above(top, 7)] == Low(ret) && Above(top, 7) == r.sp
  {
    PulledByte(r, f, m1, 1);
    PulledByte(r, f, m1, 0);
    AboveBelow(r.sp, 0);
  }

  // ---------------------------------------------------------------------------
  // Division

  /** IDIV: dividing by X = 0 sets C and V and leaves A, B and X alone; otherwise X becomes
      the quotient and D the remainder of D divided by X, with C and V cleared. */
  lemma Idiv(r: Regs, f: Flags, mem: Memory)
    requires 0 <= r.pc < MemorySize && mem[r.pc] == 0x02
    ensures var o := Execute(r, f, mem);
      && o.Next? && !o.halt && o.writes == [] && o.regs.cc == Pack(o.flags)
      && o.regs.(x := r.x, a := r.a, b := r.b, cc := r.cc) == r.(pc := r.pc + 1)
    ensures var o := Execute(r, f, mem);
      r.x == 0 ==> o.Next? && o.regs.(pc := r.pc, cc := r.cc) == r && o.flags == f.(c := 1, v := 1)
    ensures var o := Execute(r, f, mem);
      r.x != 0 ==> o.Next? && o.regs.x == D(r) / r.x && D(o.regs) == D(r) % r.x
    ensures var o := Execute(r, f, mem);
      r.x != 0 ==> o.Next? && o.flags.c == 0 && o.flags.v == 0 && (o.flags.z == 1 <==> D(r) < r.x)
  {
    IdivArm(r, f, mem);
    Division(r, f);
  }

  /** The IDIV arm itself. */
  lemma Division(r: Regs, f: Flags)
    ensures var o := Instructions.Idiv(r, f);
      && o.Next? && !o.halt && o.writes == [] && o.regs.cc == Pack(o.flags)
      && o.regs.(x := r.x, a := r.a, b := r.b, cc := r.cc) == r.(pc := r.pc + 1)
    ensures var o := Instructions.Idiv(r, f);
      r.x == 0 ==> o.Next? && o.regs.(pc := r.pc, cc := r.cc) == r && o.flags == f.(c := 1, v := 1)
    ensures var o := Instructions.Idiv(r, f);
      r.x != 0 ==> o.Next? && o.regs.x == D(r) / r.x && D(o.regs) == D(r) % r.x
    ensures var o := Instructions.Idiv(r, f);
      r.x != 0 ==> o.Next? && o.flags.c == 0 && o.flags.v == 0 && (o.flags.z == 1 <==> D(r) < r.x)
  {
    if r.x != 0 {
      DivisionByNonZero(r, f);
    }
  }

  lemma DivisionByNonZero(r: Regs, f: Flags)
    requires r.x != 0
    ensures var q := D(r) / r.x; var rem := D(r) % r.x;
      && q < MemorySize && (q == 0 <==> D(r) < r.x) && rem < r.x
      && Instructions.Idiv(r, f) == Flagged(r.(x := q, a := rem / 256, b := rem % 256), NZ(f.(c := 0, v := 0), q), 1, [])
      && Join16(rem / 256, rem % 256) == rem
  {
    var d: int := D(r);
    Quotient(d, r.x);
    var q := d / r.x;
    var rem := d % r.x;
    assert Instructions.Idiv(r, f) == Quotiented(r, f, q, rem);
    QuotientFits(r, f, q, rem);
    Split16(rem);
  }

  /** IDIV's result once the quotient and the remainder are known to fit in 16 bits. */
  lemma QuotientFits(r: Regs, f: Flags, q: int, rem: int)
    requires 0 <= q < MemorySize && 0 <= rem < MemorySize
    ensures Quotiented(r, f, q, rem) == Flagged(r.(x := q, a := rem / 256, b := rem % 256), NZ(f.(c := 0, v := 0), q), 1, [])
  {
    assert q % MemorySize == q && (rem / 256) % 256 == rem / 256;
  }

  /** The quotient of a 16-bit value fits in 16 bits and is 0 exactly when the dividend is
      below the divisor. */
  lemma Quotient(d: Word, x: Word)
    requires x > 0
    ensures d / x < MemorySize && (d / x == 0 <==> d < x) && d % x < x
  {
    DivMod(d, x);
    var q := d / x;
    if q >= 1 {
      Scaled(x, q);
      assert q * x >= x;
    }
  }

  lemma DivMod(d: nat, x: nat)
    requires x > 0
    ensures (d / x) * x + d % x == d && d % x < x && d / x <= d
  {
    Euclid(d, x);
    Scaled(d / x, x);
  }

  lemma Euclid(d: nat, x: nat)
    requires x > 0
    ensures (d / x) * x + d % x == d && 0 <= d % x < x
  {
  }

  lemma Scaled(q: nat, x: nat)
    requires x >= 1
    ensures q * x >= q
  {
  }

  lemma Split16(w: Word)
    ensures Join16((w / 256) % 256, w % 256) == w
  {
  }
}
