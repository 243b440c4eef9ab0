# RTEMS: ITRON `rot_rdq` and uC5282 interrupt bookkeeping, in Dafny

This project models two pieces of sequential logic from RTEMS and proves
their contracts.

1. **The ITRON `rot_rdq` service call** (module `ItronRotRdq`). It rotates
   the tasks on one ready queue. A priority outside 1..255 is refused with
   `E_PAR`. Otherwise the call disables dispatching and compares the
   requested priority with the mapped priority of the executing thread.
   When the two are equal it yields the processor. When they differ it
   rotates the ready queue at the mapped requested priority. Then it
   re-enables dispatching and returns `E_OK`.
   - The state lives in a `SchedulerContext` object: the dispatch-disable
     level, the per-priority ready queues, the executing thread's priority,
     and a log of the yields and rotations performed.
   - The kernel's own services stay abstract. These are the priority mapping
     `_ITRON_Task_Core_to_Priority` and the queue effects of
     `_Thread_Yield_processor` and `_Thread_Rotate_Ready_Queue`. They are
     function values supplied with the context (`KernelOps`). The model
     therefore states which operation runs, on which priority and at which
     disable level. It does not state what a rotation does to a queue.
   - The source passes the caller's priority through
     `_ITRON_Task_Core_to_Priority` before rotating (`rot_rdq.c:43`). That
     function converts from core numbering to API numbering, the opposite
     of what the argument needs. The model applies the same function, as
     written. When the mapping is the identity, the two directions agree.

2. **Interrupt bookkeeping of the uC5282 board support package** (modules
   `BspInterrupts`, `BspVmeAddress`, `BspSyscall`, and `BspWords` for
   machine words).
   - The INTC0 level/priority allocator keeps a bitmap of 7 bytes, `used`.
   - The VME handler table has 256 `(func, arg)` slots, with install,
     lookup and remove.
   - The `installed` bitmap records which INTC0 sources (vectors 65..127)
     have been set up once.
   - On a source's first use, a search over levels 1..6 and priorities
     0..6 takes the first pair the allocator grants. Sources 1..7 instead
     get level 1, priority 0 without consulting the allocator.
   - `BSP_vme2local_adrs` translates VME addresses to local addresses with
     32-bit wrap-around.
   - The bootloader `syscall_return` convention turns the top 64 unsigned
     return values into `errno` plus a result of -1.

   The three statics of `bspstart.c` are the arrays of one `BspStatics`
   object. The allocator and the search loop are methods on those arrays.
   Each method is proved against a pure specification: `Allocation` for
   the allocator, and for the search, the recursive function `SearchFrom`,
   which proves itself first-fit. Register writes to INTC0 and the call to
   `rtems_interrupt_catch` appear only as entries in a `hwLog` sequence.

The search covers 6 levels × 7 priorities, so 42 pairs: the outer loop runs
`l = 1..6` and the inner loop `p = 0..6`. The model follows the loops as
written.

Pointers (handler functions, `void *` arguments, VME and local addresses)
are 32-bit unsigned values, with NULL as 0. `long` is a signed 32-bit
value. Status codes are datatypes, because the header values are not part
of this model. The VME address-modifier constants are the codes of the VME
bus standard (ANSI/VITA 1): 0x2d for A16 supervisory I/O, 0x3d for A24
supervisory data and 0x0d for A32 supervisory data.

## Model

| member | source | states |
|---|---|---|
| ItronRotRdq.RotRdqEffect | c/src/exec/itron/src/rot_rdq.c:23-48 | `E_PAR` exactly for priorities outside 1..255, and then the state is unchanged; an accepted call returns `E_OK` with the dispatch-disable level and executing priority as before, and adds exactly one ready-queue operation, performed at level + 1 (dispatching disabled); it is a yield iff the mapped executing priority equals `tskpri`, otherwise a rotation of the queue at `coreToPriority(tskpri)` |
| ItronRotRdq.SeriesKeepsDispatchLevel | c/src/exec/itron/src/rot_rdq.c:33-45 | any series of calls leaves the dispatch-disable level and executing priority unchanged, keeps earlier log entries, and performs one ready-queue operation per accepted call and none per refused call |
| ItronRotRdq.SchedulerContext.RotRdq | c/src/exec/itron/src/rot_rdq.c:23-48 | the status returned and the context's new state are those of `RotRdqEffect` on the old state |
| ItronRotRdq.SchedulerContext.DisableDispatch | c/src/exec/itron/src/rot_rdq.c:33 | the disable level goes up by one, nothing else changes |
| ItronRotRdq.SchedulerContext.EnableDispatch | c/src/exec/itron/src/rot_rdq.c:45 | the disable level goes down by one, nothing else changes |
| ItronRotRdq.SchedulerContext.YieldProcessor | c/src/exec/itron/src/rot_rdq.c:41 | the ready queues take the kernel's yield effect for the executing priority, and the yield is logged at the current level |
| ItronRotRdq.SchedulerContext.RotateReadyQueue | c/src/exec/itron/src/rot_rdq.c:43 | the ready queues take the kernel's rotate effect for the given priority, and the rotation is logged with that priority and the current level |
| BspSyscall.SyscallReturn | c/src/lib/libbsp/m68k/uC5282/startup/bspstart.c:279-286 | computed by the unsigned comparison, but stated on the signed `long`: `errno` is set exactly for -64..-1, to `-ret` (1..64), with result -1; every other value comes back unchanged with `errno` untouched |
| BspVmeAddress.Vme2LocalAdrs | c/src/lib/libbsp/m68k/uC5282/startup/bspstart.c:404-417 | returns 0 exactly for the A16 and A24 supervisory codes, storing `vmeaddr + 0x31000000` or `+ 0x30000000` modulo 2^32; every other code (A32 included) returns -1 and stores nothing; A16/A24 addresses land in the matching 16 MiB chip-select window |
| BspVmeAddress.Vme2LocalInjective | c/src/lib/libbsp/m68k/uC5282/startup/bspstart.c:409-416 | for one address modifier, distinct VME addresses translate to distinct local addresses, wrap-around included |
| BspInterrupts.MarkUsed | c/src/lib/libbsp/m68k/uC5282/startup/bspstart.c:268-269 | setting a pair's bit marks that pair as used and leaves every other level/priority pair as it was |
| BspInterrupts.Allocation | c/src/lib/libbsp/m68k/uC5282/startup/bspstart.c:258-274 | `RTEMS_INVALID_NUMBER` with `used` unchanged outside level 1..7 × priority 0..7; `RTEMS_RESOURCE_IN_USE` with `used` unchanged for a pair already taken; otherwise `RTEMS_SUCCESSFUL` and the pair is marked; no other pair's bit ever changes |
| BspInterrupts.BspStatics.AllocateInterrupt | c/src/lib/libbsp/m68k/uC5282/startup/bspstart.c:258-274 | status and new `used` contents are those of `Allocation` on the old contents |
| BspInterrupts.SearchFrom | c/src/lib/libbsp/m68k/uC5282/startup/bspstart.c:368-387 | a found pair lies in levels 1..6 × priorities 0..6 (never level 7 nor priority 7), is free, and is not before the start; every grid pair from the start up to the result, or to the end when none is found, is taken |
| BspInterrupts.SearchIsFirstFit | c/src/lib/libbsp/m68k/uC5282/startup/bspstart.c:368-387 | the search from (1, 0) returns a pair iff that pair is free and every grid pair before it in level-major order is taken |
| BspInterrupts.SearchNoneIffFull | c/src/lib/libbsp/m68k/uC5282/startup/bspstart.c:368-387 | the search finds nothing iff all 42 grid pairs are taken |
| BspInterrupts.MarkInstalled | c/src/lib/libbsp/m68k/uC5282/startup/bspstart.c:365-367 | the source's `installed` bit is set afterwards and every other source's bit is unchanged |
| BspInterrupts.BspStatics.constructor | c/src/lib/libbsp/m68k/uC5282/startup/bspstart.c:321-324 | the statics start zeroed: no pair used, no source installed, every table slot (NULL, NULL) |
| BspInterrupts.BspStatics.GetVmeIsr | c/src/lib/libbsp/m68k/uC5282/startup/bspstart.c:326-334 | vectors ≥ 256 give NULL and write nothing; otherwise the stored handler, with the stored argument reported only when asked for |
| BspInterrupts.BspStatics.InstallVmeIsr | c/src/lib/libbsp/m68k/uC5282/startup/bspstart.c:343-390 | vectors ≥ 256 return -1 with nothing changed; otherwise the slot becomes `(handler, usrArg)` and a later lookup returns both; vectors outside 65..127 return 0; for INTC0 sources the `installed` bit is set for good; a repeat returns 0 with `used` untouched; a first use of source 1..7 writes level 1 / priority 0; sources 8..63 take the `SearchFrom` result, or return -1 with `used` unchanged when the grid is full |
| BspInterrupts.BspStatics.SetUpSource | c/src/lib/libbsp/m68k/uC5282/startup/bspstart.c:359-388 | a source already installed is left alone and returns 0; otherwise only its own `installed` bit is added, and the level/priority assignment follows |
| BspInterrupts.BspStatics.AssignLevelPriority | c/src/lib/libbsp/m68k/uC5282/startup/bspstart.c:368-387 | sources 1..7 get level 1, priority 0 without touching `used`; others get exactly the `SearchFrom` pair from (1, 0), marked in `used`, then unmasked; or -1 with `used` and the register log unchanged |
| BspInterrupts.BspStatics.RemoveVmeIsr | c/src/lib/libbsp/m68k/uC5282/startup/bspstart.c:392-402 | returns 0 iff the vector is below 256 and the stored pair equals `(handler, usrArg)`; then only `func` becomes NULL and `arg` stays, so a lookup gives (NULL, usrArg); otherwise it returns -1 and the table is unchanged |

## Left out

- The ready-queue internals are not part of this model: `_Thread_Yield_processor`, `_Thread_Rotate_Ready_Queue`, `_Thread_Executing`, and the `_ITRON_Task_*` mappings. Their effects are abstract functions, so no head-to-tail rotation order, singleton no-op or mapping round-trip is proved.
- `_Thread_Enable_dispatch`: the context switch it may perform when the level returns to zero is not modelled, because the dispatcher is outside this model.
- `bsp_start`, `bsp_get_CPU_clock_speed` and the cache routines are left out. They are linker-symbol reads, `movec` control-register writes, chip-select register writes and inline `cpushl` assembly, with no logic beyond hardware I/O.
- `syscall_1` and the `uC5282_gethwaddr` / `uC5282_getbenv` bodies are left out, because the `trap #2` into the bootloader is a foreign call. Only the `syscall_return` conversion is modelled.
- BspSyscall.SyscallReturn: it returns the `long` value before the final cast to the call's pointer type. That cast is a plain 32-bit reinterpretation.
- `trampoline` and `rtems_interrupt_catch` are left out, because they are function-pointer dispatch from interrupt context. The catch appears only as a `CatchVector` entry in `hwLog`.
- The contents of `MCF5282_INTC0_ICRn`, `IMRH` and `IMRL` are not modelled, because they are memory-mapped registers. Writes to them are recorded as `SetIcr` / `UnmaskSource` entries.
- `rtems_interrupt_disable` / `rtems_interrupt_enable` are not modelled: they only protect against concurrency, and this model is sequential.
- `bspExtInit`, `BSP_enableVME_int_lvl` and `BSP_disableVME_int_lvl` are left out, because they are constant stubs.
- `cpukit/score/include/rtems/seterr.h` is left out: its two macros only assign `errno` and return -1.
