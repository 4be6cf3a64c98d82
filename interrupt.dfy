/** The interrupt layer of threads/interrupt.c: the 256-entry handler, name
    and gate tables, handler registration, the interrupt flag, and the
    dispatcher `intr_handler` with its acknowledgement of the two 8259A
    interrupt controllers. */
module Interrupt {
  import opened Wrappers
  import opened Gate

  /** Number of x86-64 interrupt vectors, `INTR_CNT`. */
  const IntrCnt := 256

  /** An interrupt vector number, `uint8_t vec_no`. */
  type Vector = v: int | 0 <= v < IntrCnt

  /** `enum intr_level`. */
  datatype Level = IntrOff | IntrOn

  /** Vectors 0x20..0x2f are the sixteen IRQ lines of the two PICs, which
      `pic_init` remaps there; everything else is internal. */
  predicate IsExternal(v: int) {
    0x20 <= v < 0x30
  }

  /** IRQ 7 and IRQ 15 (the last line of each PIC) can fire spuriously. */
  predicate IsSpurious(v: int) {
    v == 0x27 || v == 0x2f
  }

  /** A registered handler, `intr_handler_func *`: code outside this model,
      known only by identity. */
  type HandlerId = nat

  /** What the interrupt layer does that is visible outside the CPU. */
  datatype Event =
    | Outb(port: int, data: int)        // `outb (port, data)`
    | ThreadYield                       // a call of `thread_yield ()`
    | UnexpectedInterrupt(vec: Vector)  // `intr_dump_frame`, then PANIC

  /** Command ports of the master and the slave 8259A. */
  const MasterCommandPort := 0x20
  const SlaveCommandPort := 0xa0

  /** OCW2 with only the EOI bit set: a non-specific end of interrupt. */
  const EoiCommand := 0x20

  const MasterEoi := Outb(MasterCommandPort, EoiCommand)
  const SlaveEoi := Outb(SlaveCommandPort, EoiCommand)

  /** The writes of `pic_init`: mask both PICs, send ICW1..ICW4 to the master
      (IRQs 0..7 to vectors 0x20..0x27, slave on line 2) and to the slave
      (IRQs 8..15 to vectors 0x28..0x2f, cascade identity 2), unmask both. */
  const PicInitWrites: seq<Event> := [
    Outb(0x21, 0xff), Outb(0xa1, 0xff),
    Outb(0x20, 0x11), Outb(0x21, 0x20), Outb(0x21, 0x04), Outb(0x21, 0x01),
    Outb(0xa0, 0x11), Outb(0xa1, 0x28), Outb(0xa1, 0x02), Outb(0xa1, 0x01),
    Outb(0x21, 0x00), Outb(0xa1, 0x00)]

  /** How many times `e` occurs in `es`. */
  function Count(es: seq<Event>, e: Event): nat {
    if es == [] then 0 else (if es[0] == e then 1 else 0) + Count(es[1..], e)
  }

  lemma {:induction false} CountAppend(a: seq<Event>, b: seq<Event>, e: Event)
    ensures Count(a + b, e) == Count(a, e) + Count(b, e)
  {
    if a == [] {
      assert a + b == b;
    } else {
      assert (a + b)[1..] == a[1..] + b;
      CountAppend(a[1..], b, e);
    }
  }

  /** The writes of `pic_end_of_interrupt (irq)`: the master is acknowledged
      once and first; the slave once more exactly when the IRQ came through
      it (vector 0x28 or above); nothing else is written. */
  function EndOfInterrupt(irq: int): (w: seq<Event>)
    requires IsExternal(irq)
    ensures Count(w, MasterEoi) == 1
    ensures Count(w, SlaveEoi) == (if irq >= 0x28 then 1 else 0)
    ensures w[0] == MasterEoi
    ensures forall e | e in w :: e == MasterEoi || e == SlaveEoi
  {
    var slave := if irq >= 0x28 then [SlaveEoi] else [];
    CountAppend([MasterEoi], slave, MasterEoi);
    CountAppend([MasterEoi], slave, SlaveEoi);
    [MasterEoi] + slave
  }

  /** The names `intr_init` gives the vectors: the CPU exceptions 0..14 and
      16..19 have fixed names, every other vector (15 included) is "unknown". */
  function InitialName(v: Vector): (name: string)
    ensures name == "unknown" <==> v == 15 || v >= 20
  {
    match v
    case 0 => "#DE Divide Error"
    case 1 => "#DB Debug Exception"
    case 2 => "NMI Interrupt"
    case 3 => "#BP Breakpoint Exception"
    case 4 => "#OF Overflow Exception"
    case 5 => "#BR BOUND Range Exceeded Exception"
    case 6 => "#UD Invalid Opcode Exception"
    case 7 => "#NM Device Not Available Exception"
    case 8 => "#DF Double Fault Exception"
    case 9 => "Coprocessor Segment Overrun"
    case 10 => "#TS Invalid TSS Exception"
    case 11 => "#NP Segment Not Present"
    case 12 => "#SS Stack Fault Exception"
    case 13 => "#GP General Protection Exception"
    case 14 => "#PF Page-Fault Exception"
    case 16 => "#MF x87 FPU Floating-Point Error"
    case 17 => "#AC Alignment Check Exception"
    case 18 => "#MC Machine-Check Exception"
    case 19 => "#XF SIMD Floating-Point Exception"
    case _ => "unknown"
  }

  /** The gate `register_handler` installs: a trap gate when the handler is
      to run with interrupts on, an interrupt gate otherwise, with the given
      DPL, pointing at the vector's stub. */
  function GateFor(stub: bv64, dpl: int, level: Level): (g: Gate)
    requires stub != 0
    requires 0 <= dpl <= 3
    ensures ClearsInterruptFlag(g) <==> level == IntrOff
    ensures g.gateType as int == (if level == IntrOn then TrapGateType else InterruptGateType)
    ensures Offset(g) == stub && FixedFields(g) && g.dpl as int == dpl
  {
    match level
    case IntrOn => MakeTrapGate(stub, dpl)
    case IntrOff => MakeIntrGate(stub, dpl)
  }

  /** The gates `intr_init` and `register_handler` can install for a vector
      whose stub is at `stub`: present kernel-code gates pointing at the
      stub, of interrupt or trap type. */
  predicate StubGate(g: Gate, stub: bv64) {
    FixedFields(g) && Offset(g) == stub
    && (g.gateType as int == InterruptGateType || g.gateType as int == TrapGateType)
  }

  /** The dispatcher's state: the CPU's interrupt flag, the two flags of
      interrupt.c, whether the kernel has panicked, and the events so far. */
  datatype CpuState = CpuState(
    intrOn: bool, inExternalIntr: bool, yieldOnReturn: bool, halted: bool, events: seq<Event>)

  /** How `intr_handler` disposed of a vector. */
  datatype Outcome = Handled | Ignored | Panicked

  datatype Step = Step(outcome: Outcome, after: CpuState)

  /** One run of `intr_handler` for `vec`. `registered` says whether a
      handler is installed for it; the handler itself is opaque, and
      `handlerYields` says whether it calls `intr_yield_on_return`. The
      requires are the ASSERTs on entry for an external vector, and the
      ASSERT of `intr_yield_on_return` for the handler's request. */
  function Dispatch(s: CpuState, vec: Vector, registered: bool, handlerYields: bool): (r: Step)
    requires !s.halted
    requires IsExternal(vec) ==> !s.intrOn && !s.inExternalIntr
    requires registered && handlerYields ==> IsExternal(vec) || s.inExternalIntr
    ensures r.outcome == Panicked <==> !registered && !IsSpurious(vec)
    ensures r.outcome == Ignored <==> !registered && IsSpurious(vec)
    ensures r.after.halted <==> r.outcome == Panicked
    ensures r.after.intrOn == s.intrOn
    ensures r.outcome != Panicked ==> r.after.inExternalIntr == s.inExternalIntr
    ensures IsExternal(vec) ==> r.after.yieldOnReturn == (registered && handlerYields)
    ensures !IsExternal(vec) ==> r.after.yieldOnReturn == (s.yieldOnReturn || (registered && handlerYields))
    ensures s.events <= r.after.events
  {
    var entered := if IsExternal(vec) then s.(inExternalIntr := true, yieldOnReturn := false) else s;
    var ran := if registered && handlerYields then entered.(yieldOnReturn := true) else entered;
    if !registered && !IsSpurious(vec) then
      Step(Panicked, ran.(halted := true, events := ran.events + [UnexpectedInterrupt(vec)]))
    else
      var outcome := if registered then Handled else Ignored;
      if !IsExternal(vec) then
        Step(outcome, ran)
      else
        var acked := ran.(inExternalIntr := false, events := ran.events + EndOfInterrupt(vec));
        Step(outcome, if acked.yieldOnReturn then acked.(events := acked.events + [ThreadYield]) else acked)
  }

  /** The effects an interrupt can have outside the CPU. */
  datatype Effect = MasterAck | SlaveAck | Yield

  function EventOf(k: Effect): Event {
    match k
    case MasterAck => MasterEoi
    case SlaveAck => SlaveEoi
    case Yield => ThreadYield
  }

  /** An interrupt delivered to the dispatcher, with whether its vector has a
      handler and whether that handler asks to yield. */
  datatype Delivery = Delivery(vec: Vector, registered: bool, handlerYields: bool)

  /** Which effects a delivery should have: every external interrupt is
      acknowledged on the master, one from the slave's IRQs on the slave too,
      and an external interrupt whose handler asked for it ends in a yield. */
  predicate Produces(d: Delivery, k: Effect) {
    match k
    case MasterAck => IsExternal(d.vec)
    case SlaveAck => IsExternal(d.vec) && d.vec >= 0x28
    case Yield => IsExternal(d.vec) && d.registered && d.handlerYields
  }

  /** A dispatch that does not panic adds the PIC acknowledgement of an
      external vector and then, if its handler asked, one `thread_yield`,
      and nothing else; so it has each effect exactly once when the delivery
      calls for it and never otherwise, whichever handler ran. One that
      panics records the unexpected vector and nothing else. */
  lemma DispatchEffects(s: CpuState, vec: Vector, registered: bool, handlerYields: bool, k: Effect)
    requires !s.halted
    requires IsExternal(vec) ==> !s.intrOn && !s.inExternalIntr
    requires registered && handlerYields ==> IsExternal(vec) || s.inExternalIntr
    ensures var r := Dispatch(s, vec, registered, handlerYields);
      var added := r.after.events[|s.events|..];
      && (r.outcome == Panicked ==> added == [UnexpectedInterrupt(vec)])
      && (r.outcome != Panicked ==>
            added == (if IsExternal(vec) then EndOfInterrupt(vec) else [])
                     + (if Produces(Delivery(vec, registered, handlerYields), Yield) then [ThreadYield] else []))
      && (r.outcome != Panicked ==>
            Count(added, EventOf(k)) == if Produces(Delivery(vec, registered, handlerYields), k) then 1 else 0)
  {
    var r := Dispatch(s, vec, registered, handlerYields);
    var added := r.after.events[|s.events|..];
    if r.outcome != Panicked {
      if IsExternal(vec) {
        var eoi := EndOfInterrupt(vec);
        var tail := if r.after.yieldOnReturn then [ThreadYield] else [];
        assert added == eoi + tail;
        CountAppend(eoi, tail, EventOf(k));
      } else {
        assert added == [];
        assert added == [] + [];
      }
    }
  }

  /** Every delivery in `ds` may be dispatched as far as the handler's request
      to yield is concerned: only external handlers ask for it. */
  predicate Admissible(ds: seq<Delivery>) {
    forall i | 0 <= i < |ds| :: ds[i].registered && ds[i].handlerYields ==> IsExternal(ds[i].vec)
  }

  /** The state after dispatching `ds` one after another, with the interrupt
      flag off as it is inside an interrupt gate, stopping at a panic. */
  function Run(s: CpuState, ds: seq<Delivery>): (t: CpuState)
    requires !s.intrOn && (!s.halted ==> !s.inExternalIntr)
    requires Admissible(ds)
    ensures s.events <= t.events
    ensures !t.intrOn && (!t.halted ==> !t.inExternalIntr)
    ensures s.halted ==> t == s
    decreases |ds|
  {
    if s.halted || ds == [] then s
    else
      var r := Dispatch(s, ds[0].vec, ds[0].registered, ds[0].handlerYields);
      Run(r.after, ds[1..])
  }

  /** How many of `ds` call for effect `k`. */
  function Expected(ds: seq<Delivery>, k: Effect): nat {
    if ds == [] then 0 else (if Produces(ds[0], k) then 1 else 0) + Expected(ds[1..], k)
  }

  /** Across any run of interrupts none of which panics, the master PIC is
      acknowledged exactly once per external interrupt, the slave exactly
      once per external interrupt from its IRQs, and `thread_yield` is called
      exactly once per external interrupt whose handler requested it. */
  lemma {:induction false} RunEffects(s: CpuState, ds: seq<Delivery>, k: Effect)
    requires !s.intrOn && !s.halted && !s.inExternalIntr
    requires Admissible(ds)
    requires forall i | 0 <= i < |ds| :: ds[i].registered || IsSpurious(ds[i].vec)
    ensures !Run(s, ds).halted
    ensures Count(Run(s, ds).events[|s.events|..], EventOf(k)) == Expected(ds, k)
    decreases |ds|
  {
    if ds != [] {
      var d := ds[0];
      var r := Dispatch(s, d.vec, d.registered, d.handlerYields);
      DispatchEffects(s, d.vec, d.registered, d.handlerYields, k);
      assert Admissible(ds[1..]) by {
        forall i | 0 <= i < |ds[1..]| ensures ds[1..][i] == ds[i + 1] { }
      }
      RunEffects(r.after, ds[1..], k);
      var t := Run(r.after, ds[1..]);
      assert Run(s, ds) == t;
      CountSplit(s.events, r.after.events, t.events, EventOf(k));
    }
  }

  /** Counting the events added over two stretches of a growing log. */
  lemma CountSplit(a: seq<Event>, b: seq<Event>, c: seq<Event>, e: Event)
    requires a <= b <= c
    ensures Count(c[|a|..], e) == Count(b[|a|..], e) + Count(c[|b|..], e)
  {
    assert c[|a|..] == b[|a|..] + c[|b|..];
    CountAppend(b[|a|..], c[|b|..], e);
  }

  /** Names vectors 0..9, as the second half of `intr_init` does. */
  method NameExceptionsLow(nameTable: array<string>)
    requires nameTable.Length == IntrCnt
    modifies nameTable
    ensures forall v | 0 <= v < IntrCnt ::
      nameTable[v] == if v < 10 then InitialName(v) else old(nameTable[v])
  {
    nameTable[0] := "#DE Divide Error";
    nameTable[1] := "#DB Debug Exception";
    nameTable[2] := "NMI Interrupt";
    nameTable[3] := "#BP Breakpoint Exception";
    nameTable[4] := "#OF Overflow Exception";
    nameTable[5] := "#BR BOUND Range Exceeded Exception";
    nameTable[6] := "#UD Invalid Opcode Exception";
    nameTable[7] := "#NM Device Not Available Exception";
    nameTable[8] := "#DF Double Fault Exception";
    nameTable[9] := "Coprocessor Segment Overrun";
  }

  /** Names vectors 10..14 and 16..19, as the second half of `intr_init` does;
      vector 15 keeps the name it had. */
  method NameExceptionsHigh(nameTable: array<string>)
    requires nameTable.Length == IntrCnt
    modifies nameTable
    ensures forall v | 0 <= v < IntrCnt ::
      nameTable[v] == if 10 <= v < 20 && v != 15 then InitialName(v) else old(nameTable[v])
  {
    nameTable[10] := "#TS Invalid TSS Exception";
    nameTable[11] := "#NP Segment Not Present";
    nameTable[12] := "#SS Stack Fault Exception";
    nameTable[13] := "#GP General Protection Exception";
    nameTable[14] := "#PF Page-Fault Exception";
    nameTable[16] := "#MF x87 FPU Floating-Point Error";
    nameTable[17] := "#AC Alignment Check Exception";
    nameTable[18] := "#MC Machine-Check Exception";
    nameTable[19] := "#XF SIMD Floating-Point Exception";
  }

  /** The interrupt tables and dispatcher state of threads/interrupt.c. */
  class Interrupts {
    /** `intr_stubs[]`: the entry stub of each vector, from intr-stubs.S. */
    const stubs: seq<bv64>
    /** `idt[]`: the Interrupt Descriptor Table. */
    const idt: array<Gate>
    /** `intr_handlers[]`: the handler of each vector, None for NULL. */
    const handlers: array<Option<HandlerId>>
    /** `intr_names[]`: each vector's name, for debugging. */
    const names: array<string>

    /** The CPU's interrupt flag (IF), read by `intr_get_level`. */
    var intrOn: bool
    /** `in_external_intr`: an external interrupt is being processed. */
    var inExternalIntr: bool
    /** `yield_on_return`: yield before returning from the interrupt. */
    var yieldOnReturn: bool
    /** The kernel has panicked on an unexpected interrupt. */
    var halted: bool
    /** Port writes and calls out of this layer, in order. */
    var events: seq<Event>

    ghost predicate Valid()
      reads this, idt
    {
      && idt.Length == IntrCnt && handlers.Length == IntrCnt && names.Length == IntrCnt
      && |stubs| == IntrCnt
      && (forall v | 0 <= v < IntrCnt :: stubs[v] != 0)
      && (forall v | 0 <= v < IntrCnt :: StubGate(idt[v], stubs[v]))
    }

    /** Every external vector has a DPL 0 interrupt gate, so the CPU turns
        interrupts off on the way in, as the dispatcher ASSERTs. */
    ghost predicate ExternalGatesMaskInterrupts()
      reads this, idt
      requires idt.Length == IntrCnt
    {
      forall v | 0x20 <= v < 0x30 :: ClearsInterruptFlag(idt[v]) && idt[v].dpl == 0
    }

    function State(): CpuState
      reads this
    {
      CpuState(intrOn, inExternalIntr, yieldOnReturn, halted, events)
    }

    /** `intr_context`: true exactly while an external interrupt is processed. */
    function Context(): (inside: bool)
      reads this
      ensures inside <==> inExternalIntr
    {
      inExternalIntr
    }

    /** `intr_get_level`: INTR_ON exactly when the interrupt flag is set. */
    function GetLevel(): (level: Level)
      reads this
      ensures level == IntrOn <==> intrOn
    {
      if intrOn then IntrOn else IntrOff
    }

    /** `intr_name (vec)`: the name last recorded for the vector. */
    function Name(vec: Vector): (name: string)
      reads names
      requires names.Length == IntrCnt
      ensures name == names[vec]
    {
      names[vec]
    }

    /** An external interrupt is only ever processed with interrupts off:
        `intr_enable` refuses to run inside one, and the dispatcher enters it
        through an interrupt gate. */
    predicate ContextMasksInterrupts()
      reads this
    {
      inExternalIntr ==> !intrOn
    }

    /** `intr_init`, together with the static initialisation of the module's
        variables: the PICs are programmed, every vector gets a DPL 0
        interrupt gate to its stub and the name "unknown", then the CPU
        exceptions get their names. No handler is registered yet, and
        interrupts are off during boot. */
    constructor Init(entryStubs: seq<bv64>)
      requires |entryStubs| == IntrCnt
      requires forall v | 0 <= v < IntrCnt :: entryStubs[v] != 0
      ensures Valid() && fresh(idt) && fresh(handlers) && fresh(names)
      ensures stubs == entryStubs
      ensures forall v | 0 <= v < IntrCnt :: idt[v] == MakeIntrGate(stubs[v], 0)
      ensures forall v | 0 <= v < IntrCnt :: handlers[v] == None
      ensures forall v | 0 <= v < IntrCnt :: Name(v) == InitialName(v)
      ensures ExternalGatesMaskInterrupts() && ContextMasksInterrupts()
      ensures !intrOn && !inExternalIntr && !yieldOnReturn && !halted
      ensures events == PicInitWrites
    {
      var table := new Gate[IntrCnt];
      var nameTable := new string[IntrCnt];
      for i := 0 to IntrCnt
        invariant forall v | 0 <= v < i :: table[v] == MakeIntrGate(entryStubs[v], 0)
        invariant forall v | 0 <= v < i :: nameTable[v] == "unknown"
      {
        table[i] := MakeIntrGate(entryStubs[i], 0);
        nameTable[i] := "unknown";
      }
      NameExceptionsLow(nameTable);
      NameExceptionsHigh(nameTable);
      stubs := entryStubs;
      idt := table;
      handlers := new Option<HandlerId>[IntrCnt](_ => None);
      names := nameTable;
      intrOn, inExternalIntr, yieldOnReturn, halted := false, false, false, false;
      events := PicInitWrites;
    }

    /** `register_handler`: no handler may be registered at `vec` yet. The
        vector gets a trap gate if its handler is to run with interrupts on,
        an interrupt gate otherwise, with the given DPL; the handler and name
        are recorded. No other vector changes. */
    method RegisterHandler(vec: Vector, dpl: int, level: Level, handler: Option<HandlerId>, name: string)
      requires Valid()
      requires handlers[vec] == None
      requires 0 <= dpl <= 3
      modifies idt, handlers, names
      ensures Valid()
      ensures idt[vec] == GateFor(stubs[vec], dpl, level)
      ensures handlers[vec] == handler && Name(vec) == name
      ensures forall v | 0 <= v < IntrCnt && v != vec ::
        idt[v] == old(idt[v]) && handlers[v] == old(handlers[v]) && names[v] == old(names[v])
    {
      if level == IntrOn {
        idt[vec] := MakeTrapGate(stubs[vec], dpl);
      } else {
        idt[vec] := MakeIntrGate(stubs[vec], dpl);
      }
      handlers[vec] := handler;
      names[vec] := name;
    }

    /** `intr_register_ext`: only for vectors 0x20..0x2f; the handler runs
        with interrupts off behind a DPL 0 interrupt gate. */
    method RegisterExt(vec: Vector, handler: Option<HandlerId>, name: string)
      requires Valid()
      requires 0x20 <= vec <= 0x2f
      requires handlers[vec] == None
      modifies idt, handlers, names
      ensures Valid()
      ensures idt[vec] == MakeIntrGate(stubs[vec], 0)
      ensures handlers[vec] == handler && names[vec] == name
      ensures forall v | 0 <= v < IntrCnt && v != vec ::
        idt[v] == old(idt[v]) && handlers[v] == old(handlers[v]) && names[v] == old(names[v])
      ensures old(ExternalGatesMaskInterrupts()) ==> ExternalGatesMaskInterrupts()
    {
      RegisterHandler(vec, 0, IntrOff, handler, name);
    }

    /** `intr_register_int`: only for vectors outside 0x20..0x2f, with the
        caller's DPL and interrupt level. */
    method RegisterInt(vec: Vector, dpl: int, level: Level, handler: Option<HandlerId>, name: string)
      requires Valid()
      requires vec < 0x20 || vec > 0x2f
      requires handlers[vec] == None
      requires 0 <= dpl <= 3
      modifies idt, handlers, names
      ensures Valid()
      ensures idt[vec] == GateFor(stubs[vec], dpl, level)
      ensures handlers[vec] == handler && names[vec] == name
      ensures forall v | 0 <= v < IntrCnt && v != vec ::
        idt[v] == old(idt[v]) && handlers[v] == old(handlers[v]) && names[v] == old(names[v])
      ensures old(ExternalGatesMaskInterrupts()) ==> ExternalGatesMaskInterrupts()
    {
      RegisterHandler(vec, dpl, level, handler, name);
    }

    /** `intr_enable`: not allowed while an external interrupt is processed;
        turns interrupts on and returns the previous level. */
    method Enable() returns (previous: Level)
      requires !inExternalIntr
      modifies this`intrOn
      ensures GetLevel() == IntrOn && ContextMasksInterrupts()
      ensures previous == old(GetLevel())
    {
      previous := GetLevel();
      intrOn := true;
    }

    /** `intr_disable`: turns interrupts off and returns the previous level. */
    method Disable() returns (previous: Level)
      modifies this`intrOn
      ensures GetLevel() == IntrOff && ContextMasksInterrupts()
      ensures previous == old(GetLevel())
    {
      previous := GetLevel();
      intrOn := false;
    }

    /** `intr_set_level`: enables or disables as `level` says and returns
        the previous level; enabling carries `intr_enable`'s ASSERT. */
    method SetLevel(level: Level) returns (previous: Level)
      requires level == IntrOn ==> !inExternalIntr
      modifies this`intrOn
      ensures GetLevel() == level && ContextMasksInterrupts()
      ensures previous == old(GetLevel())
    {
      if level == IntrOn {
        previous := Enable();
      } else {
        previous := Disable();
      }
    }

    /** `intr_yield_on_return`: only during an external interrupt. */
    method YieldOnReturn()
      requires inExternalIntr
      modifies this`yieldOnReturn
      ensures yieldOnReturn
    {
      yieldOnReturn := true;
    }

    /** `pic_end_of_interrupt`: only for the PICs' vectors. */
    method PicEndOfInterrupt(irq: int)
      requires IsExternal(irq)
      modifies this`events
      ensures events == old(events) + EndOfInterrupt(irq)
    {
      events := events + [Outb(MasterCommandPort, EoiCommand)];
      if irq >= 0x28 {
        events := events + [Outb(SlaveCommandPort, EoiCommand)];
      }
    }

    /** The CPU's entry through the vector's gate, then `intr_handler` for
        `vec`. The CPU delivers an external interrupt only while the
        interrupt flag is set, and an interrupt gate clears the flag on the
        way in; with the gate tables and the flags as they are kept, the
        dispatcher's ASSERTs on entry and exit are proved, not assumed.
        `handlerYields` stands for what the registered handler does, which
        is opaque here except for whether it calls `intr_yield_on_return`. */
    method IntrHandler(vec: Vector, handlerYields: bool) returns (outcome: Outcome)
      requires Valid() && ExternalGatesMaskInterrupts() && ContextMasksInterrupts() && !halted
      requires IsExternal(vec) ==> intrOn
      requires handlers[vec].Some? && handlerYields ==> IsExternal(vec) || inExternalIntr
      modifies this
      ensures var entered := old(State()).(intrOn := old(intrOn) && !ClearsInterruptFlag(idt[vec]));
        Step(outcome, State()) == Dispatch(entered, vec, handlers[vec].Some?, handlerYields)
      ensures ContextMasksInterrupts()
    {
      if ClearsInterruptFlag(idt[vec]) {
        intrOn := false;
      }

      var external := IsExternal(vec);
      if external {
        assert GetLevel() == IntrOff && !Context();
        inExternalIntr := true;
        yieldOnReturn := false;
      }

      var handler := handlers[vec];
      if handler.Some? {
        if handlerYields {
          YieldOnReturn();
        }
        outcome := Handled;
      } else if vec == 0x27 || vec == 0x2f {
        outcome := Ignored;
      } else {
        events := events + [UnexpectedInterrupt(vec)];
        halted := true;
        outcome := Panicked;
        return;
      }

      if external {
        assert GetLevel() == IntrOff && Context();
        inExternalIntr := false;
        PicEndOfInterrupt(vec);
        if yieldOnReturn {
          events := events + [ThreadYield];
        }
      }
    }
  }
}
