# Interrupt dispatch of a teaching x86-64 kernel, in Dafny

This project models the interrupt layer of the kernel (threads/interrupt.c)
and the thread record it works with (include/threads/thread.h), and proves
what the code promises about them.

- `Gate` (gate.dfy): the 16-byte IDT gate descriptor of the Intel 64 and
  IA-32 Architectures Software Developer's Manual, Volume 3A, sections 5.10
  and 5.11, field by field as `struct gate` declares it. `make_gate` and its
  two forms split a 64-bit handler address into three offset fields and fix
  the selector, IST, system, present and reserved bits. The address
  reassembles from the fields, a gate is rebuilt from its parts, and packing
  into the two quadwords the CPU reads round-trips both ways.
- `Interrupt` (interrupt.dfy): the class `Interrupts` holds the three
  256-entry tables (`idt`, `intr_handlers`, `intr_names`) as arrays updated in
  place. It also holds the flags `in_external_intr` and `yield_on_return`,
  the CPU's interrupt flag, and a log of port writes and `thread_yield`
  calls. Its constructor is `intr_init`. Its methods are the registration
  functions, `intr_enable`/`intr_disable`/`intr_set_level`,
  `intr_yield_on_return`, `pic_end_of_interrupt` and the dispatcher
  `intr_handler`. `intr_context`, `intr_get_level` and `intr_name` are the
  reads `Context`, `GetLevel` and `Name`. Each method is proved against a
  pure specification. `Dispatch` states the dispatcher's promises.
  `RunEffects` covers any run of interrupts in which no interrupt panics and
  only external handlers ask to yield. Over such a run each external
  interrupt is acknowledged exactly once on the master PIC, once more on the
  slave for IRQs 8-15, and yields exactly when its handler asked.
- `Thread` (thread.dfy): the status enum, the priority and default
  constants, the scheduling fields of `struct thread`, and the rule that the
  shared `elem` link is on the run queue only while READY and on a semaphore
  wait list only while BLOCKED.
- `Wrappers` (wrappers.dfy): `Option`, standing for a pointer that may be
  NULL.

The source's ASSERTs are demands on callers and are modelled as `requires`.
An unregistered, non-spurious vector is a run-time condition. It is
modelled as the `Panicked` outcome: the frame dump is logged and the kernel
is marked halted. A registered handler is opaque. Its only effect here is
whether it calls `intr_yield_on_return` (the `handlerYields` argument).
`thread_yield` is a `ThreadYield` event in the log.

`SEL_KCSEG` (0x08, threads/loader.h), `THREAD_MAGIC` (0xcd6abf4b,
threads/thread.c) and the entry stubs `intr_stubs[]` (intr-stubs.S) are
defined in files that are not part of this model. The two constants carry
their usual values, and the stub addresses are a parameter of `intr_init`
that must be non-null, as `make_gate` asserts.

## Model

| member | source | states |
|---|---|---|
| `Gate.MakeGate` | threads/interrupt.c:62-80 | requires a non-null address, DPL 0..3 and type 0..15; the three offset fields reassemble to the address; selector is SEL_KCSEG; ist, rsv1, s, rsv2 are 0 and p is 1; DPL and type are as given |
| `Gate.MakeIntrGate` | threads/interrupt.c:82-83 | an interrupt gate (type 14, entering it clears IF) to the address with the given DPL |
| `Gate.MakeTrapGate` | threads/interrupt.c:85-86 | a trap gate (type 15, entering it leaves IF alone) to the address with the given DPL |
| `Gate.MakeGateOfParts` | threads/interrupt.c:62-80 | converse of the split: any gate with the fixed fields is what make_gate builds from its own address, DPL and type |
| `Gate.UnpackPack` | threads/interrupt.c:36-48 | the bit-fields of struct gate do not overlap: packing a gate into two quadwords and reading it back gives the same gate |
| `Gate.PackUnpack` | threads/interrupt.c:36-48 | the bit-fields cover all 128 bits: every descriptor is the packing of the gate read out of it |
| `Interrupt.EndOfInterrupt` | threads/interrupt.c:316-325 | for an external IRQ: exactly one EOI (0x20) to the master port 0x20, written first; one EOI to the slave port 0xa0 iff the vector is 0x28 or above; nothing else |
| `Interrupt.InitialName` | threads/interrupt.c:171-174 | after intr_init a vector's name is "unknown" iff it is 15 or 20 and above; the others carry their exception names |
| `Interrupt.GateFor` | threads/interrupt.c:215-220 | the gate register_handler installs clears IF iff the level is INTR_OFF (type 14, else type 15), points at the vector's stub, has the given DPL and the fixed fields |
| `Interrupt.Dispatch` | threads/interrupt.c:333-376 | panics iff no handler and the vector is not 0x27/0x2f; ignores an unregistered 0x27/0x2f; leaves IF and (unless it panics) in_external_intr as they were; for an external vector yield_on_return ends as the handler's request |
| `Interrupt.DispatchEffects` | threads/interrupt.c:341-375 | a dispatch that does not panic appends exactly the PIC acknowledgement of an external vector followed, iff the vector is external and the handler asked, by one thread_yield, and nothing else; so the master EOI is written once iff the vector is external, the slave EOI once iff external and 0x28 or above, thread_yield once iff external and the handler asked; a panic logs only the dump |
| `Interrupt.Run` | threads/interrupt.c:333-376 | dispatching interrupts one after another only appends to the log, keeps IF off and leaves in_external_intr clear unless the run panicked |
| `Interrupt.RunEffects` | threads/interrupt.c:366-375 | over any run of interrupts with no panic, the master is acknowledged once per external interrupt, the slave once per external interrupt from IRQs 8-15, and thread_yield is called once per external interrupt whose handler asked |
| `Interrupt.NameExceptionsLow` | threads/interrupt.c:185-194 | vectors 0-9 get their exception names; no other vector's name changes |
| `Interrupt.NameExceptionsHigh` | threads/interrupt.c:195-203 | vectors 10-14 and 16-19 get their exception names; every other vector, 15 included, keeps its name |
| `Interrupt.Interrupts.Context` | threads/interrupt.c:259-261 | returns true exactly while an external interrupt is being processed |
| `Interrupt.Interrupts.GetLevel` | threads/interrupt.c:114-125 | returns INTR_ON exactly when the interrupt flag is set; Enable, Disable and SetLevel are stated through it |
| `Interrupt.Interrupts.Name` | threads/interrupt.c:403-406 | returns the name recorded for the vector: InitialName after Init, the registered name after RegisterHandler |
| `Interrupt.Interrupts.Init` | threads/interrupt.c:163-204 | every vector gets a DPL 0 interrupt gate to its stub and the name given by InitialName; no handler is registered; both flags are clear; the PIC initialisation writes are logged; external vectors have interrupt gates and an external interrupt in progress implies interrupts off |
| `Interrupt.Interrupts.RegisterHandler` | threads/interrupt.c:212-223 | requires no handler at the vector; afterwards the vector has the gate given by GateFor, the handler and the name; every other vector's gate, handler and name is unchanged |
| `Interrupt.Interrupts.RegisterExt` | threads/interrupt.c:229-233 | only vectors 0x20-0x2f; registers with DPL 0 and INTR_OFF, giving an interrupt gate; keeps every external vector behind a DPL 0 interrupt gate |
| `Interrupt.Interrupts.RegisterInt` | threads/interrupt.c:249-254 | only vectors outside 0x20-0x2f, with the caller's DPL and level; keeps every external vector behind a DPL 0 interrupt gate |
| `Interrupt.Interrupts.Enable` | threads/interrupt.c:135-147 | not allowed while an external interrupt is being processed; intr_get_level is INTR_ON afterwards; returns the previous level |
| `Interrupt.Interrupts.Disable` | threads/interrupt.c:151-160 | intr_get_level is INTR_OFF afterwards; returns the previous level |
| `Interrupt.Interrupts.SetLevel` | threads/interrupt.c:130-132 | intr_get_level returns the level asked for afterwards; returns the previous level |
| `Interrupt.Interrupts.YieldOnReturn` | threads/interrupt.c:268-271 | only while an external interrupt is being processed; sets yield_on_return |
| `Interrupt.Interrupts.PicEndOfInterrupt` | threads/interrupt.c:316-325 | only for vectors 0x20-0x2f; appends exactly the writes of EndOfInterrupt to the log |
| `Interrupt.Interrupts.IntrHandler` | threads/interrupt.c:333-376 | requires the gate invariant, that an external interrupt in progress implies IF off, and that an external vector arrives only with IF on; the CPU's entry through the gate clears IF iff it is an interrupt gate; the outcome and the new flags and log are then those of Dispatch, so the entry and exit ASSERTs are proved to hold and the invariant is kept |
| `Thread.RunQueueOf` | include/threads/thread.h:94-99 | a thread is on the run queue iff its elem link says so |
| `Thread.WaitersOf` | include/threads/thread.h:94-99 | a thread is on a semaphore's wait list iff its elem link says so |
| `Thread.ElemListsDisjoint` | include/threads/thread.h:94-99 | among valid threads, run-queue members are READY, semaphore waiters are BLOCKED, and a RUNNING or DYING thread is on neither list (that no thread is on both follows from the single elem link) |

The constants need no member of their own. `Thread.Priority` is the range
`PRI_MIN`..`PRI_MAX` = 0..63, and its witness shows that `PRI_DEFAULT` = 31
lies in it. `Thread.Status` has exactly the four states. `TidError` is -1.
The three defaults are 0. `Thread.Valid` requires `magic == THREAD_MAGIC`
(include/threads/thread.h:14-34, 89-99, 134).

## Left out

- The inline assembly (`pushfq`/`popq`, `sti`, `cli`, `lidt`, `ltr`, `rcr2`). The interrupt flag is the field `intrOn`, and loading the IDT and TSS registers is not modelled.
- `intr_dump_frame`'s console output. It is one `UnexpectedInterrupt` event on the panic path.
- The bodies of registered handlers and of `thread_yield`: foreign code. A handler is the `handlerYields` argument, and `thread_yield` is a `ThreadYield` event. After it the model goes on as if `thread_yield` returned with interrupts still off.
- Nesting and concurrency: the design is single-CPU and external interrupts never nest, so dispatch is sequential. `Interrupt.Run` runs with interrupts off throughout, as they are inside an interrupt gate. It also requires that only external handlers ask to yield.
- Interrupt.Interrupts.IntrHandler: the vector's handler cannot change during a dispatch. The CPU's entry is modelled only as far as the interrupt flag goes: the interrupted code's flag is `intrOn` on the call, an external interrupt is delivered only when it is set (a precondition), and the gate clears it. The return through `iretq` in the entry stub is not modelled.
- Only the dispatcher refuses to run after a panic. Registration and the level functions do not check `halted`, since the source never returns from PANIC.
- The function prototypes of include/threads/thread.h (scheduling, donation, MLFQS, sleep/wake): their bodies are in files that are not part of this model.
- The `struct thread` fields `pml4`, `spt`, `tf`, `exit_status`, `file_descriptor_table` and `fdidx` (virtual memory, context switch and system calls). The sleep list is left out too: the header documents only the run queue and semaphore wait lists as users of `elem`.
- include/userprog/process.h: declarations only, outside the interrupt and thread core.
