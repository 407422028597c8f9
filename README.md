# w65c02s .NET test harness: a Dafny model

This project models the test harness that drives the W65C02S CPU emulator
through a JSON job (`src/Main.cs`). The harness sits between the CPU engine
and a flat 64K memory. It answers the engine's six bus callbacks: opcode
fetch, normal read, locked read, vector pull, normal write and locked write.
Each callback resolves against memory or one of two single-address serial
ports. The harness counts cycles and keeps an optional trace of them. It
applies pin flips (SO/overflow, NMI, IRQ) when their cycle comes, and it stops
the run when the cycle cap is reached or a termination rule fires.

Modules (one file each):

- `Common` (`common.dfy`): `Option`, and the `Continue | Halt` status that
  replaces the `AllDone` exception. It also holds the unsigned 32-bit `u32`
  and a quotient/remainder lemma.
- `Sorting` (`sorting.dfy`): the library sorts. `Array.Sort` on raw cycle
  numbers and `List.Sort` of flips by cycle are both modelled as an insertion
  sort on an integer key.
- `Memory` (`memory.dfy`): `Range`, the writable-range search in
  `HandleWrite`, and the `write_init_records` fill with a wrapping 16-bit
  index.
- `Flips` (`flips.dfy`): the packed `Flip` word, `Flip.apply` on the CPU pins
  the harness touches, the drain of the queue, `add_flips`, and the sorted
  schedule.
- `Trace` (`trace.dfy`): the transaction tags and the packed trace event of
  `report_cycle`.
- `Termination` (`termination.dfy`): the `terminate_on` mask, the fetch-time
  check chain of `ReadOpcode`, the cause names of the report, and the
  `terminate_on_*` keys.
- `Driver` (`harness.dfy`): the `Harness` class, which holds the static state
  of `MainClass`. It has one method per bus callback and one for
  `report_cycle`, plus the setup part of `Main` and its run loop.

How the model is built:

- The CPU engine is abstract. Its status register `P` and its NMI and IRQ
  levels form a `Pins` value kept in the harness.
- One CPU step is a list of bus transactions. `Run` steps through a finite
  list of such lists under `Main`'s loop guard.
- Each bus method returns `Halt` where the source throws `AllDone`.
  `terminationCause` is already set at that point, just as in the source.
- Everything a callback promises is stated against state functions:
  `ReadReturn`, `SerialInAfter`, `PinsAfterRead`, `Stored`, `Counted`,
  `Settled`, `DueCount`, `DrainedPins` and `FetchCause`.
- `Progress` is the invariant that every transaction, step and run keeps.

Behaviour of the code that the model keeps as written:

- The vector-region fetch check (`addr >= 0xFFFA`) is enabled by the
  zero-fetch bit 0x04, not by `terminate_on_vector_fetch` (bit 0x10). Bit
  0x10 has no effect on any fetch (`VectorBitIgnored`).
- `HandleWrite` is not gated by the vector latch. So a bad write halts with
  cause 6 even before the first vector pull, while no cycle has been counted.
- A write is counted before it is performed. If that count reaches the cap,
  the run halts and the write never happens.
- Cycle numbers are not range-checked when flips are packed (`PackFields`).
  Only the low 24 bits of a cycle are kept as the trigger cycle. Bits 24-30 of
  the cycle are ORed into the pin, so an NMI edge at cycle 2^24 reads back as
  an IRQ flip at cycle 0. Bit 31 of the cycle forces the state to true, so a
  falling edge at cycle 0x8000_0005 reads back as a rising edge at cycle 5.
- `num_cycles` is a `uint`, so its `++` wraps at 2^32 (`Bump`).

## Model

| member | source | states |
|---|---|---|
| Memory.DefaultRangeContents | src/Main.cs:16-18 | The default writable range 0x0000-0x01FF admits exactly the addresses below 0x0200. |
| Memory.FindRange | src/Main.cs:163-169 | The range search finds a match iff some range in the list contains the address. |
| Memory.FilledLastWrite | src/Main.cs:206-209 | After a fill, an address holds the byte of the last write that reached it. |
| Memory.FilledUntouched | src/Main.cs:206-209 | An address that no write of the fill reaches keeps its old byte. |
| Memory.FilledOneLap | src/Main.cs:202-209 | In a fill of at most 64K bytes, the d-th address after `base` holds `data[d % len]` when d is below the count, and its old byte otherwise. |
| Memory.FillRecord | src/Main.cs:202-209 | The `rem`-step loop with the wrapping 16-bit index and the cyclic data cursor leaves memory equal to `Filled`. |
| Memory.WriteInitRecords | src/Main.cs:194-211 | It succeeds iff every record has data. On success, memory is the records laid down in order (`InitImage`). |
| Flips.FieldsAreMasks | src/Main.cs:29-37 | The cycle, pin and state of a flip word are the source's masks `& 0xFFFFFF`, `>> 24 & 0x7F` and `& 0x80000000`. |
| Flips.PackUnpack | src/Main.cs:29-37 | For a cycle below 2^24 and a pin below 0x80, unpacking a packed word gives back the cycle, the pin and the state. |
| Flips.PackFields | src/Main.cs:229-234 | For every cycle and every pin below 0x80, a packed word reads back as the cycle modulo 2^24, the pin ORed with bits 24-30 of the cycle, and the state ORed with bit 31 of the cycle. |
| Flips.ApplyAllStatus | src/Main.cs:38-43 | A batch of flips leaves `P` unchanged, or ORs in V exactly when it holds an SO flip. |
| Flips.Apply | src/Main.cs:38-47 | One flip changes `P` only by setting V, and only if it is an SO flip. It changes the NMI (IRQ) level only if it is an NMI (IRQ) flip, and then to the flip's state. |
| Flips.ApplyAll | src/Main.cs:38-43 | No batch of flips, applied in order, clears a bit of `P`. |
| Flips.ApplyLevel | src/Main.cs:38-46 | One flip changes the NMI (IRQ) level only if it is for that pin, and then sets it to the flip's state. |
| Flips.ApplyAllLevelUntouched | src/Main.cs:38-46 | A batch with no flip for the NMI (IRQ) pin leaves that level unchanged. |
| Flips.ApplyAllLevelLast | src/Main.cs:38-46 | After a batch, the NMI (IRQ) level is the state of the last flip for that pin. |
| Flips.ApplyAllStep | src/Main.cs:188-192 | Extending the applied prefix by one flip applies that flip after the others. |
| Flips.DueCount | src/Main.cs:188-189 | The number of flips the drain takes: every flip before it is due, and the flip at it (if any) is not. |
| Flips.SortedIsCycleOrdered | src/Main.cs:312-314 | A list sorted by trigger cycle is in queue order. |
| Flips.CycleOrderedHead | src/Main.cs:188-189 | In queue order, no flip triggers before the head of the queue. |
| Flips.CycleOrderedSuffix | src/Main.cs:188-190 | Taking flips off the front of an ordered queue leaves it ordered. |
| Flips.DrainLeavesNothingDue | src/Main.cs:188-192 | On an ordered queue, after the drain no remaining flip is due, and the rest is still ordered. |
| Flips.PulseTrainShape | src/Main.cs:225-235 | For cycles below 2^24, `add_flips` gives one flip per input cycle, with the same cycles in ascending order, the given pin, and states alternating true, false, true, and so on. |
| Flips.AppendEdges | src/Main.cs:225-235 | The packing loop with its toggled state appends exactly the alternating edges of the sorted cycles. |
| Flips.AddFlips | src/Main.cs:223-236 | The list grows by exactly the pulse train of the input cycles. |
| Flips.Schedule | src/Main.cs:305-314 | The flip queue is in cycle order and is a permutation of the SO, NMI and IRQ pulse trains. |
| Sorting.InsertSorted | src/Main.cs:228 | Inserting into a sorted list keeps it sorted. |
| Sorting.InsertPermutes | src/Main.cs:228 | Inserting adds exactly the one element to the multiset. |
| Sorting.InsertionSort | src/Main.cs:228 | The sort gives a sorted permutation of its input. |
| Sorting.SortedSuffix | src/Main.cs:312-313 | A suffix of a sorted list is sorted. |
| Trace.EventFields | src/Main.cs:181-183 | For the bus tags, a trace event fits in 28 bits, and its tag, address and data can each be read back. |
| Trace.EventInjective | src/Main.cs:181-183 | Two events are equal only when their tags, addresses and data all are. |
| Termination.FetchCause | src/Main.cs:92-119 | The check chain halts only with one of the fetch-time causes 1 to 5, never with the cap's 0 or the bad write's 6. |
| Termination.FirstTrue | src/Main.cs:92-119 | The index of the first rule that fires, or the number of rules if none fires. |
| Termination.FirstFiringMeaning | src/Main.cs:92-119 | Rule k decides the fetch iff it fires and no earlier rule fires. No rule decides iff none fires. |
| Termination.FetchCauseIsFirstFiring | src/Main.cs:92-119 | The check chain gives the cause of the first enabled, triggered rule in precedence order: infinite loop, zero page, stack page, vector region, BRK. |
| Termination.VectorBitIgnored | src/Main.cs:100-114 | Bit 0x10 never changes the outcome of a fetch. The vector-region check halts iff bit 0x04 is set. |
| Termination.CauseName | src/Main.cs:325-334 | The name is "unknown" exactly for values above 6. |
| Termination.CauseNameRoundTrip | src/Main.cs:325-334 | Causes 0 to 6 get seven distinct names that read back as the same cause; every other value is "unknown". |
| Termination.ApplyFlags | src/Main.cs:283-300 | The `terminate_on_*` keys only ever clear bits of the mask, and never touch the two unused bits. |
| Termination.ConfiguredMask | src/Main.cs:283-300 | Starting from the default mask, each rule stays enabled unless its key is present and false. The two unused bits stay clear. |
| Driver.Bump | src/Main.cs:186 | `++num_cycles` on a `uint` adds one modulo 2^32. |
| Driver.FormatOfName | src/Main.cs:270-275 | "utf8" and "base64" select their formats. Every other name is rejected. |
| Driver.SetupCheck | src/Main.cs:243-304 | Setup succeeds iff the job has init records, every record has data, the output format is known, and neither `rdy` nor `res` is given. |
| Driver.BuildSchedule | src/Main.cs:305-314 | The three `add_flips` calls and the sort build `Schedule` of the job's trains, which is in queue order. |
| Driver.Harness.constructor | src/Main.cs:52-77 | The static initial state: zeroed memory, no ranges, empty queues, both ports off, the latch off, 5 cycles counted, a cap of 10000000, the default mask and cause 0. |
| Driver.Harness.HandleRead | src/Main.cs:145-154 | A read of the enabled serial-in port returns and removes the head of the queue. If the queue is empty, it returns 0 and sets V. Any other address returns its memory byte. Nothing else changes. |
| Driver.Harness.HandleWrite | src/Main.cs:155-175 | A serial-out byte is queued below 131072 bytes, sets V otherwise, and never touches memory. Any other byte is stored iff a range admits the address. Otherwise memory is unchanged, and the run halts with cause 6 iff bit 0x20 is set. |
| Driver.Harness.ReportCycle | src/Main.cs:178-193 | It counts one cycle, mod 2^32, and traces the event iff quota is left. At the cap it halts before any flip. Otherwise it applies exactly the due prefix of the queue, in order, and leaves no due flip. |
| Driver.Harness.DrainFlips | src/Main.cs:188-192 | The queue loses exactly its due prefix, the pins are those after that prefix is applied in order, and no remaining flip is due. |
| Driver.Harness.PerformRead | src/Main.cs:131-137 | It reads as `HandleRead` does. Once latched, it counts the cycle with the byte read. Before the latch, nothing is counted. It halts only at the cap. |
| Driver.Harness.PerformWrite | src/Main.cs:138-144 | Once latched, it counts the cycle with the byte written before the access, so a rejected write is still traced. At the cap it halts and does not write. |
| Driver.Harness.Read | src/Main.cs:85-86 | A normal read: `PerformRead` with tag 7. |
| Driver.Harness.ReadLocked | src/Main.cs:87-88 | A locked read: `PerformRead` with tag 3. |
| Driver.Harness.ReadOpcode | src/Main.cs:89-122 | The fetch is read and counted with tag 15. Once latched and below the cap, the fetch checks then run against the `last_pc` state before them. |
| Driver.Harness.FetchCheck | src/Main.cs:91-120 | The chain of checks gives `FetchCause` of the mask and the `last_pc` state before it: the first enabled check that matches sets its cause (1 to 5) and halts. `last_pc` becomes the fetch address with `last_pc_valid` set, unless the infinite-loop check halted, which leaves both as they were. |
| Driver.Harness.ReadVector | src/Main.cs:123-126 | The latch is set before the read, so the vector pull itself is counted with tag 5. |
| Driver.Harness.Write | src/Main.cs:127-128 | A normal write: `PerformWrite` with tag 6. |
| Driver.Harness.WriteLocked | src/Main.cs:129-130 | A locked write: `PerformWrite` with tag 2. |
| Driver.Harness.Transact | src/Main.cs:85-130 | Every bus callback keeps `Progress`: a transaction that starts below the cap never passes it, only causes 1 to 6 are set and only by a halt, the trace grows only by using up quota, and the latch stays on. A transaction adds at most one trace event, and none while the latch is off unless it is the vector pull. |
| Driver.Harness.Step | src/Main.cs:318 | A step's transactions in order, until one halts, keep `Progress`, and add at most one trace event per transaction. |
| Driver.Harness.Run | src/Main.cs:316-321 | A run that starts at or below the cap never passes it. A run that ends early has reached the cap or set a cause. The trace only grows, by using up quota, and by at most one event per transaction of the steps started (`OpCount`). |
| Driver.Harness.Configure | src/Main.cs:243-314 | Setup reports the first configuration error `Main` meets. On success it installs the memory image, the ports, the format, the limits, the mask and the sorted flip queue. |
| Driver.Harness.Prepare | src/Main.cs:243-304 | Everything setup does before the flip queue, with the same error order. |
| Driver.Harness.LoadImage | src/Main.cs:243-248 | Byte 0xFFFD is set to 2 and the init records are laid down over it. A job without records, or with an empty record, is refused. |
| Driver.Harness.SetPorts | src/Main.cs:249-269 | The ranges are the job's `rwmap`, or the default range. The serial ports are enabled iff their address keys are present. `serial_in_data` is loaded only with an input port. |
| Driver.Harness.SetFormat | src/Main.cs:270-276 | A present `serial_out_fmt` must name a known format, which is then selected. |
| Driver.Harness.SetLimits | src/Main.cs:277-300 | `show_cycles` gives a quota of 1000, `max_cycles` sets the cap, and the six `terminate_on_*` keys clear their bits. |
| Driver.Harness.SetSchedule | src/Main.cs:305-314 | The queue becomes the sorted schedule of the job's SO, NMI and IRQ trains. |
| Driver.Harness.AddRanges | src/Main.cs:250-254 | The `rwmap` loop appends the job's ranges in order. |

## Left out

- JSON: job parsing, result building and printing (`src/Main.cs:237-242`, `322-354`). The job is the parsed `Job` datatype, and the report fields are the harness fields at the end of `Run`.
- Data decoding and serial-out rendering: `data_decode`, UTF-8 and base64 (`src/Main.cs:212-222`, `342-352`) are library calls. Init and serial-in data are taken as decoded bytes. A string that fails to decode is not modelled.
- Hex formatting of the trace (`src/Main.cs:335-341`): `Trace.EventFields` shows each event fits in seven hex digits.
- The CPU engine (`W65C02S.CPU`): `Step`, `reset`, `GetP`/`SetP`, `SetNMI`/`SetIRQ` and `P_V` are not visible. The pins are the value `Pins`, and `P_V` is the 65C02 overflow bit 0x40.
- Driver.Harness.Step: a step is a list of bus transactions fixed in advance. In the engine, the bytes a step reads decide its later transactions; that dependence is not modelled.
- Driver.Harness.Run: the run is over a finite list of steps. An endless run that the cap or a cause never stops has no counterpart.
- `cpu.reset()` (`src/Main.cs:315`) belongs to the unseen engine and is not modelled.
- Exception unwinding: `AllDone` becomes the `Halt` status, and each caller returns at once on it.
- Flips.PulseTrainShape: it is stated for cycles below 2^24 only. Wider cycles are accepted by `add_flips` but do not read back as themselves; `Flips.PackFields` states what they read back as.
- Sorting.InsertionSort: `List.Sort` is not stable. The insertion sort picks one tie order among equal-cycle flips. Lemmas about the queue use only its cycle order and its multiset of flips.
- Driver.Harness.Configure: it requires the state the constructor leaves (`Unconfigured`), which is the only state in which `Main` runs setup.
- Setup errors are the `SetupError` result, with the message text dropped. A job value of the wrong JSON type is not modelled.
- Reading the report's `last_pc`, `num_cycles`, `termination_cause`, `cycles` and `serial_out_data` fields is not modelled beyond the harness fields and `Termination.CauseName`.
