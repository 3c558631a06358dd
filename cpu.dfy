/** Processor state of the simulator (`M6800Simulator`): the register file, the condition
    code flags and the helpers that update them (`_update_nz_flags`, `_compare_16bit`,
    `_update_carry_flag`, `_pack_cc_register`, `_unpack_cc_register`). */
module Cpu {
  type Byte = b: int | 0 <= b < 0x100
  type Word = w: int | 0 <= w < 0x1_0000
  type Bit = b: int | 0 <= b <= 1

  const MemorySize := 0x1_0000

  /** The `registers` dictionary. PC is incremented without masking, and `program_start`
      (the lowest key of the loaded image) may lie anywhere, so PC is any integer; the other
      registers are always masked to their widths. */
  datatype Regs = Regs(a: Byte, b: Byte, x: Word, y: Word, sp: Word, pc: int, cc: Byte)

  /** The `cc_flags` dictionary; every flag is 0 or 1. */
  datatype Flags = Flags(h: Bit, i: Bit, n: Bit, z: Bit, v: Bit, c: Bit)

  const ResetRegs := Regs(0, 0, 0, 0, 0x01FF, 0, 0)
  const ClearFlags := Flags(0, 0, 0, 0, 0, 0)

  /** The bit of weight `weight` (a power of two) of `v` in two's complement, as Python's
      `(v >> k) & 1` computes it for `weight` = 2 to the `k`. */
  function BitAt(v: int, weight: nat): Bit
    requires weight > 0
  {
    (v / weight) % 2
  }

  /** The 16-bit value of the pair `high:low`. */
  function Join16(high: Byte, low: Byte): (r: Word)
    ensures r / 256 == high && r % 256 == low
  {
    high * 256 + low
  }

  function High(w: Word): Byte { w / 256 }
  function Low(w: Word): Byte { w % 256 }

  /** D, the accumulators A and B read as one 16-bit register. */
  function D(r: Regs): (d: Word)
    ensures High(d) == r.a && Low(d) == r.b
  {
    Join16(r.a, r.b)
  }

  /** `_pack_cc_register`: H, I, N, Z, V, C at bits 5 down to 0. */
  function Pack(f: Flags): (cc: Byte)
    ensures cc < 64
  {
    f.h * 32 + f.i * 16 + f.n * 8 + f.z * 4 + f.v * 2 + f.c
  }

  /** `_unpack_cc_register`: bits 5 down to 0 of `cc`. */
  function Unpack(cc: Byte): Flags {
    Flags(BitAt(cc, 32), BitAt(cc, 16), BitAt(cc, 8), BitAt(cc, 4), BitAt(cc, 2), BitAt(cc, 1))
  }

  /** `_update_nz_flags` on the flags: N is bit 7 of the value, whatever the value's width,
      and Z says whether the value is 0. */
  function NZ(f: Flags, value: int): (r: Flags)
    ensures r.n == 1 <==> value % 256 >= 128
    ensures r.z == 1 <==> value == 0
    ensures r.(n := f.n, z := f.z) == f
  {
    f.(n := BitAt(value, 128), z := if value == 0 then 1 else 0)
  }

  /** `_update_carry_flag` on the flags. */
  function Carry(f: Flags, carry: bool): (r: Flags)
    ensures r.c == 1 <==> carry
    ensures r.(c := f.c) == f
  {
    f.(c := if carry then 1 else 0)
  }

  /** `_compare_16bit`: the flags of `reg - operand`; N is bit 15 of the difference, V is set
      when the operands' signs differ and the difference's sign differs from `reg`'s. */
  function Compare16(f: Flags, reg: Word, operand: Word): (r: Flags)
    ensures r.z == 1 <==> reg == operand
    ensures r.c == 1 <==> reg < operand
    ensures r.h == f.h && r.i == f.i
  {
    var diff := reg - operand;
    var regSign := BitAt(reg, 0x8000);
    var sign := BitAt(diff, 0x8000);
    f.(z := if diff == 0 then 1 else 0,
       n := sign,
       c := if reg < operand then 1 else 0,
       v := if regSign != BitAt(operand, 0x8000) && regSign != sign then 1 else 0)
  }

  /** The register file after a flag update that ends in `_pack_cc_register`. */
  function Packed(r: Regs, f: Flags): (s: Regs)
    ensures s.cc == Pack(f) && s.(cc := r.cc) == r
  {
    r.(cc := Pack(f))
  }

  /** Python's `x & 0x80` test on an offset byte: the signed value of the byte. */
  function Signed8(b: Byte): (s: int)
    ensures -128 <= s < 128 && s % 256 == b
  {
    if b >= 128 then b - 256 else b
  }

  // ---------------------------------------------------------------------------
  // Properties

  /** Packing then unpacking gives back every flag. */
  lemma UnpackPack(f: Flags)
    ensures Unpack(Pack(f)) == f
  {
    var cc := Pack(f);
    assert cc / 32 == f.h;
    assert cc / 16 == f.h * 2 + f.i;
    assert cc / 8 == f.h * 4 + f.i * 2 + f.n;
    assert cc / 4 == f.h * 8 + f.i * 4 + f.n * 2 + f.z;
    assert cc / 2 == f.h * 16 + f.i * 8 + f.n * 4 + f.z * 2 + f.v;
  }

  /** Unpacking then packing keeps the six low bits of the register and clears the two top
      bits. */
  lemma PackUnpack(cc: Byte)
    ensures Pack(Unpack(cc)) == cc % 64
  {
    LowBits32(cc);
    LowBits16(cc);
    LowBits8(cc);
    LowBits4(cc);
    LowBits2(cc);
  }

  lemma LowBits32(x: int)
    ensures x % 64 == BitAt(x, 32) * 32 + x % 32
  {
  }

  lemma LowBits16(x: int)
    ensures x % 32 == BitAt(x, 16) * 16 + x % 16
  {
  }

  lemma LowBits8(x: int)
    ensures x % 16 == BitAt(x, 8) * 8 + x % 8
  {
  }

  lemma LowBits4(x: int)
    ensures x % 8 == BitAt(x, 4) * 4 + x % 4
  {
  }

  lemma LowBits2(x: int)
    ensures x % 4 == BitAt(x, 2) * 2 + x % 2
  {
  }
}
