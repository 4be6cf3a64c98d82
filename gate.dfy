/** Interrupt Descriptor Table gate descriptors, as built by `make_gate` in
    threads/interrupt.c. The layout is the 64-bit IDT gate of the Intel 64 and
    IA-32 Architectures Software Developer's Manual, Volume 3A, sections 5.10
    and 5.11; gate types 14 (interrupt gate) and 15 (trap gate) differ in the
    interrupt flag on entry, section 5.12.1.2. */
module Gate {

  /** Kernel code segment selector, `SEL_KCSEG` (threads/loader.h). */
  const KernelCodeSelector: bv16 := 0x08

  /** Gate type of an interrupt gate: entering it clears the interrupt flag. */
  const InterruptGateType: int := 14

  /** Gate type of a trap gate: entering it leaves the interrupt flag alone. */
  const TrapGateType: int := 15

  /** One 16-byte gate, field by field, each field exactly as wide as the
      bit-field of `struct gate` it models:
        offLow    off_15_0   16 bits   low 16 bits of the handler address
        selector  ss         16 bits   code segment selector
        ist       ist         3 bits   interrupt stack table index
        rsv1      rsv1        5 bits   reserved
        gateType  type        4 bits   14 interrupt gate, 15 trap gate
        s         s           1 bit    0 for a system descriptor
        dpl       dpl         2 bits   descriptor privilege level
        present   p           1 bit    present
        offMid    off_31_16  16 bits   address bits 16..31
        offHigh   off_32_63  32 bits   address bits 32..63
        rsv2      rsv2       32 bits   reserved */
  datatype Gate = Gate(
    offLow: bv16, selector: bv16, ist: bv3, rsv1: bv5, gateType: bv4,
    s: bv1, dpl: bv2, present: bv1, offMid: bv16, offHigh: bv32, rsv2: bv32)

  /** The handler address a gate points at, reassembled from its three offset
      fields: off_15_0 + off_31_16 * 2^16 + off_32_63 * 2^32. */
  function Offset(g: Gate): bv64 {
    g.offLow as bv64 + g.offMid as bv64 * 0x1_0000 + g.offHigh as bv64 * 0x1_0000_0000
  }

  /** The fields `make_gate` fixes whatever its arguments: kernel code
      selector, no IST, system descriptor, present, reserved bits zero. */
  predicate FixedFields(g: Gate) {
    && g.selector == KernelCodeSelector
    && g.ist == 0 && g.rsv1 == 0 && g.s == 0 && g.present == 1 && g.rsv2 == 0
  }

  /** Entering the gate clears the interrupt flag (an interrupt gate). */
  predicate ClearsInterruptFlag(g: Gate) {
    g.gateType as int == InterruptGateType
  }

  /** `make_gate (g, function, d, t)`: the function must be non-null, the DPL
      in 0..3 and the type in 0..15 (the three ASSERTs). The address is split
      into three offset fields that reassemble to it; every other field is fixed. */
  function MakeGate(target: bv64, dpl: int, gateType: int): (g: Gate)
    requires target != 0
    requires 0 <= dpl <= 3
    requires 0 <= gateType <= 15
    ensures Offset(g) == target
    ensures FixedFields(g)
    ensures g.dpl as int == dpl && g.gateType as int == gateType
  {
    Gate(
      offLow := (target & 0xffff) as bv16,
      selector := KernelCodeSelector,
      ist := 0,
      rsv1 := 0,
      gateType := gateType as bv4,
      s := 0,
      dpl := dpl as bv2,
      present := 1,
      offMid := ((target >> 16) & 0xffff) as bv16,
      offHigh := ((target >> 32) & 0xffff_ffff) as bv32,
      rsv2 := 0)
  }

  /** `make_intr_gate`: a gate of type 14, so entering it masks interrupts. */
  function MakeIntrGate(target: bv64, dpl: int): (g: Gate)
    requires target != 0
    requires 0 <= dpl <= 3
    ensures ClearsInterruptFlag(g)
    ensures Offset(g) == target && FixedFields(g) && g.dpl as int == dpl
  {
    MakeGate(target, dpl, InterruptGateType)
  }

  /** `make_trap_gate`: a gate of type 15, so entering it leaves the
      interrupt flag as it was. */
  function MakeTrapGate(target: bv64, dpl: int): (g: Gate)
    requires target != 0
    requires 0 <= dpl <= 3
    ensures !ClearsInterruptFlag(g) && g.gateType as int == TrapGateType
    ensures Offset(g) == target && FixedFields(g) && g.dpl as int == dpl
  {
    MakeGate(target, dpl, TrapGateType)
  }

  /** A gate is determined by its address, DPL and type once the fixed fields
      hold: rebuilding it with `make_gate` from what it says gives it back. */
  lemma MakeGateOfParts(g: Gate)
    requires FixedFields(g) && Offset(g) != 0
    ensures MakeGate(Offset(g), g.dpl as int, g.gateType as int) == g
  {
    var h := MakeGate(Offset(g), g.dpl as int, g.gateType as int);
    assert h.offLow == g.offLow && h.offMid == g.offMid && h.offHigh == g.offHigh;
  }

  /** The descriptor as the CPU reads it from the IDT: two little-endian
      quadwords, the first holding bits 0..63 of `struct gate`, the second
      bits 64..127. */
  datatype Descriptor = Descriptor(low: bv64, high: bv64)

  /** Lays the fields out in the order and at the bit positions of
      `struct gate`. */
  function Pack(g: Gate): Descriptor {
    Descriptor(
      low := g.offLow as bv64
        | (g.selector as bv64 << 16)
        | (g.ist as bv64 << 32)
        | (g.rsv1 as bv64 << 35)
        | (g.gateType as bv64 << 40)
        | (g.s as bv64 << 44)
        | (g.dpl as bv64 << 45)
        | (g.present as bv64 << 47)
        | (g.offMid as bv64 << 48),
      high := g.offHigh as bv64 | (g.rsv2 as bv64 << 32))
  }

  /** Reads the fields back out of a descriptor. */
  function Unpack(d: Descriptor): Gate {
    Gate(
      offLow := (d.low & 0xffff) as bv16,
      selector := ((d.low >> 16) & 0xffff) as bv16,
      ist := ((d.low >> 32) & 0x7) as bv3,
      rsv1 := ((d.low >> 35) & 0x1f) as bv5,
      gateType := ((d.low >> 40) & 0xf) as bv4,
      s := ((d.low >> 44) & 0x1) as bv1,
      dpl := ((d.low >> 45) & 0x3) as bv2,
      present := ((d.low >> 47) & 0x1) as bv1,
      offMid := ((d.low >> 48) & 0xffff) as bv16,
      offHigh := (d.high & 0xffff_ffff) as bv32,
      rsv2 := ((d.high >> 32) & 0xffff_ffff) as bv32)
  }

  /** The bit-fields do not overlap: packing a gate and reading it back
      gives every field unchanged. */
  lemma UnpackPack(g: Gate)
    ensures Unpack(Pack(g)) == g
  {
  }

  /** The bit-fields cover all 128 bits: every descriptor is the packing of
      the gate read out of it. */
  lemma PackUnpack(d: Descriptor)
    ensures Pack(Unpack(d)) == d
  {
  }
}
