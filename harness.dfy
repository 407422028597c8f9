/** The test harness proper: the static state of `MainClass`, the `UsBus`
    callbacks the CPU engine makes, `report_cycle`, the setup in `Main` and
    its run loop. The CPU is not modelled: its observable pins live in
    `pins`, and each instruction step is the list of bus transactions it
    makes. */
module Driver {
  import opened Common
  import opened Sorting
  import opened Flips
  import opened Trace
  import opened Termination
  import opened Memory

  /** The serial-out queue holds at most this many bytes. */
  const MAX_SERIAL_OUT := 131072

  /** `num_cycles` when the harness starts: the reset sequence's cycles. */
  const INITIAL_NUM_CYCLES: u32 := 5

  /** `cycles_to_run` when the job has no `max_cycles`. */
  const DEFAULT_CYCLES_TO_RUN: u32 := 10000000

  /** The address whose byte `Main` stores before laying down the image. */
  const RESET_VECTOR_HIGH: bv16 := 0xFFFD

  /** `++` on a `uint`. */
  function Bump(n: u32): (r: u32)
    ensures r as int == (n as int + 1) % 0x1_0000_0000
  {
    if n == 0xFFFF_FFFF then 0 else n + 1
  }

  datatype OutFormat = NoFormat | Base64 | Utf8

  /** The `serial_out_fmt` switch: `None` for a name it rejects. */
  function FormatOfName(name: string): (r: Option<OutFormat>)
    ensures r == Some(Utf8) <==> name == "utf8"
    ensures r == Some(Base64) <==> name == "base64"
    ensures r != Some(NoFormat)
  {
    if name == "utf8" then Some(Utf8)
    else if name == "base64" then Some(Base64)
    else None
  }

  /** One bus callback of the CPU engine. */
  datatype BusOp =
    | NormalRead(addr: bv16)
    | LockedRead(addr: bv16)
    | OpcodeFetch(addr: bv16)
    | VectorPull(addr: bv16)
    | NormalWrite(addr: bv16, val: bv8)
    | LockedWrite(addr: bv16, val: bv8)

  /** The parsed job file: every optional key is an `Option` (or `false`
      when only its presence matters), byte data is already decoded. */
  datatype Job = Job(
    init: Option<seq<InitRecord>>,
    rwmap: Option<seq<Range>>,
    serialInAddr: Option<bv16>,
    serialInData: Option<seq<bv8>>,
    serialOutAddr: Option<bv16>,
    serialOutFmt: Option<string>,
    showCycles: Option<bool>,
    maxCycles: Option<u32>,
    terminate: TerminateFlags,
    rdy: bool,
    res: bool,
    so: Option<seq<bv32>>,
    nmi: Option<seq<bv32>>,
    irq: Option<seq<bv32>>)

  /** The setup exceptions `Main` throws, in the order it checks them. */
  datatype SetupError =
    | NoInitRecords
    | EmptyInitRecord
    | UnknownSerialOutFormat
    | RdyUnsupported
    | ResetUnsupported

  /** A missing flip list is an empty one. */
  function OrEmpty(o: Option<seq<bv32>>): seq<bv32>
  {
    if o.Some? then o.value else []
  }

  /** The serial-out format a job asks for; a name the switch rejects is
      reported by `Configure` before this matters. */
  predicate FormatAccepted(fmt: Option<string>)
  {
    fmt.None? || FormatOfName(fmt.value).Some?
  }

  /** The first configuration error `Main` meets, if any: no `init` key, an
      init record with no bytes, an unknown `serial_out_fmt`, an `rdy` key,
      a `res` key. */
  function SetupCheck(job: Job): (r: Option<SetupError>)
    ensures r == None <==>
      job.init.Some? && AllNonEmpty(job.init.value) && FormatAccepted(job.serialOutFmt) && !job.rdy && !job.res
  {
    if job.init.None? then Some(NoInitRecords)
    else if !AllNonEmpty(job.init.value) then Some(EmptyInitRecord)
    else if !FormatAccepted(job.serialOutFmt) then Some(UnknownSerialOutFormat)
    else if job.rdy then Some(RdyUnsupported)
    else if job.res then Some(ResetUnsupported)
    else None
  }

  /** The end of setup: `add_flips` for each of `so`, `nmi` and `irq` that
      the job has, then the sort by cycle that fills the queue. */
  method BuildSchedule(so: Option<seq<bv32>>, nmi: Option<seq<bv32>>, irq: Option<seq<bv32>>)
    returns (q: seq<Flip>)
    ensures q == Schedule(OrEmpty(so), OrEmpty(nmi), OrEmpty(irq))
    ensures CycleOrdered(q)
  {
    ghost var soTrain := PulseTrain(OrEmpty(so), 1);
    ghost var nmiTrain := PulseTrain(OrEmpty(nmi), 2);
    ghost var irqTrain := PulseTrain(OrEmpty(irq), 3);
    var flipList: seq<Flip> := [];
    if so.Some? {
      flipList := AddFlips(flipList, so.value, 1);
    }
    assert flipList == soTrain;
    if nmi.Some? {
      flipList := AddFlips(flipList, nmi.value, 2);
    }
    assert flipList == soTrain + nmiTrain;
    if irq.Some? {
      flipList := AddFlips(flipList, irq.value, 3);
    }
    assert flipList == soTrain + nmiTrain + irqTrain;
    q := InsertionSort(flipList, FlipCycle);
  }

  /** How many bus transactions the steps of `program` make in all. */
  function OpCount(program: seq<seq<BusOp>>): nat
  {
    if program == [] then 0
    else OpCount(program[..|program| - 1]) + |program[|program| - 1]|
  }

  lemma OpCountStep(program: seq<seq<BusOp>>, k: nat)
    requires k < |program|
    ensures OpCount(program[..k + 1]) == OpCount(program[..k]) + |program[k]|
  {
    assert program[..k + 1][..k] == program[..k];
  }

  class Harness {
    const sram: array<bv8>
    var ranges: seq<Range>
    var serialInAddr: bv16
    var serialOutAddr: bv16
    var serialIn: seq<bv8>
    var serialOut: seq<bv8>
    var serialOutFmt: OutFormat
    var serialInEnabled: bool
    var serialOutEnabled: bool
    var lastPcValid: bool
    var vectorHasBeenPulled: bool
    var lastPc: bv16
    var cyclesToReport: u32
    var cyclesToRun: u32
    var numCycles: u32
    var cycles: seq<bv32>
    var terminateOn: bv8
    var terminationCause: bv8
    var flips: seq<Flip>
    var pins: Pins

    /** What holds between transactions: a full 64K memory, the serial-out
        bound, and a flip queue in cycle order. */
    ghost predicate Valid()
      reads this`serialOut, this`flips
    {
      sram.Length == MEMORY_SIZE &&
      |serialOut| <= MAX_SERIAL_OUT &&
      CycleOrdered(flips)
    }

    /** The static initialisers of `MainClass`; the CPU's pins start as
        `cpu` gives them. */
    constructor(cpu: Pins)
      ensures Valid()
      ensures fresh(sram) && sram[..] == seq(MEMORY_SIZE, _ => 0)
      ensures ranges == [] && serialIn == [] && serialOut == [] && serialOutFmt == NoFormat
      ensures !serialInEnabled && !serialOutEnabled && !lastPcValid && !vectorHasBeenPulled
      ensures cyclesToReport == 0 && cyclesToRun == DEFAULT_CYCLES_TO_RUN && numCycles == INITIAL_NUM_CYCLES
      ensures cycles == [] && terminateOn == DEFAULT_TERMINATE_ON && terminationCause == CAUSE_LIMIT
      ensures flips == [] && pins == cpu
      ensures Unconfigured()
    {
      sram := new bv8[MEMORY_SIZE](_ => 0);
      ranges := [];
      serialInAddr, serialOutAddr := 0, 0;
      serialIn, serialOut := [], [];
      serialOutFmt := NoFormat;
      serialInEnabled, serialOutEnabled := false, false;
      lastPcValid, vectorHasBeenPulled := false, false;
      lastPc := 0;
      cyclesToReport, cyclesToRun, numCycles := 0, DEFAULT_CYCLES_TO_RUN, INITIAL_NUM_CYCLES;
      cycles := [];
      terminateOn := DEFAULT_TERMINATE_ON;
      terminationCause := CAUSE_LIMIT;
      flips := [];
      pins := cpu;
    }

    // ---- HandleRead / HandleWrite --------------------------------------

    ghost predicate ReadsSerialIn(addr: bv16)
      reads this`serialInEnabled, this`serialInAddr
    {
      serialInEnabled && addr == serialInAddr
    }

    ghost predicate WritesSerialOut(addr: bv16)
      reads this`serialOutEnabled, this`serialOutAddr
    {
      serialOutEnabled && addr == serialOutAddr
    }

    /** The byte `HandleRead` returns: the head of the serial-in queue, 0 if
        that queue is empty, or the memory byte. */
    ghost function ReadReturn(addr: bv16): bv8
      requires sram.Length == MEMORY_SIZE
      reads this`serialInEnabled, this`serialInAddr, this`serialIn, sram
    {
      if ReadsSerialIn(addr) then (if serialIn == [] then 0 else serialIn[0])
      else sram[addr]
    }

    /** The serial-in queue after `HandleRead`: the head removed, if read. */
    ghost function SerialInAfter(addr: bv16): seq<bv8>
      reads this`serialInEnabled, this`serialInAddr, this`serialIn
    {
      if ReadsSerialIn(addr) && serialIn != [] then serialIn[1..] else serialIn
    }

    /** The pins after `HandleRead`: reading an empty serial-in queue sets V. */
    ghost function PinsAfterRead(addr: bv16): Pins
      reads this`serialInEnabled, this`serialInAddr, this`serialIn, this`pins
    {
      if ReadsSerialIn(addr) && serialIn == [] then SetV(pins) else pins
    }

    method HandleRead(addr: bv16) returns (ret: bv8)
      requires Valid()
      modifies this`serialIn, this`pins
      ensures ret == old(ReadReturn(addr))
      ensures serialIn == old(SerialInAfter(addr))
      ensures pins == old(PinsAfterRead(addr))
    {
      if serialInEnabled && addr == serialInAddr {
        if |serialIn| == 0 {
          pins := SetV(pins);
          return 0;
        } else {
          ret := serialIn[0];
          serialIn := serialIn[1..];
          return;
        }
      }
      ret := sram[addr];
    }

    /** `HandleWrite`'s effect, with `p0` the pins it starts from. A byte for
        the serial-out port never reaches memory: it is queued while the queue
        is short of the bound, and sets V otherwise. Any other byte is stored
        iff some range admits its address; if none does, the write is dropped
        and the run halts with cause 6 iff the bad-write bit is set. */
    twostate predicate Stored(addr: bv16, val: bv8, p0: Pins, st: Status)
      requires sram.Length == MEMORY_SIZE
      reads this`serialOutEnabled, this`serialOutAddr, this`serialOut, this`pins, this`terminationCause,
        this`ranges, this`terminateOn, sram
    {
      StoredOver(addr, val, p0, old(sram[..]), old(serialOut), old(terminationCause), st)
    }

    /** `Stored`, with the memory, serial-out queue and cause it starts from
        passed in. */
    ghost predicate StoredOver(addr: bv16, val: bv8, p0: Pins, mem0: seq<bv8>, out0: seq<bv8>, cause0: bv8,
                               st: Status)
      requires sram.Length == MEMORY_SIZE && |mem0| == MEMORY_SIZE
      reads this`serialOutEnabled, this`serialOutAddr, this`serialOut, this`pins, this`terminationCause,
        this`ranges, this`terminateOn, sram
    {
      if WritesSerialOut(addr) then
        st == Continue && sram[..] == mem0 && terminationCause == cause0 &&
        if |out0| >= MAX_SERIAL_OUT then serialOut == out0 && pins == SetV(p0)
        else serialOut == out0 + [val] && pins == p0
      else
        serialOut == out0 && pins == p0 &&
        if Writable(ranges, addr) then
          st == Continue && sram[addr] == val &&
          (forall i :: 0 <= i < sram.Length && i != addr as int ==> sram[i] == mem0[i]) &&
          terminationCause == cause0
        else
          sram[..] == mem0 &&
          if terminateOn & TERMINATE_ON_BAD_WRITE != 0 then st == Halt && terminationCause == CAUSE_BAD_WRITE
          else st == Continue && terminationCause == cause0
    }

    method HandleWrite(addr: bv16, val: bv8) returns (st: Status)
      requires Valid()
      modifies sram, this`serialOut, this`pins, this`terminationCause
      ensures Valid()
      ensures Stored(addr, val, old(pins), st)
    {
      st := Continue;
      if serialOutEnabled && addr == serialOutAddr {
        if |serialOut| >= MAX_SERIAL_OUT {
          pins := SetV(pins);
        } else {
          serialOut := serialOut + [val];
        }
        return;
      }
      var valid := FindRange(ranges, addr);
      if valid {
        sram[addr] := val;
      } else if terminateOn & TERMINATE_ON_BAD_WRITE != 0 {
        terminationCause := CAUSE_BAD_WRITE;
        st := Halt;
      }
    }

    // ---- report_cycle --------------------------------------------------

    /** One cycle is counted: `num_cycles` goes up by one, and the event is
        appended, using up one unit of quota, iff any quota is left. */
    twostate predicate Counted(kind: bv8, addr: bv16, data: bv8)
      reads this`numCycles, this`cycles, this`cyclesToReport
    {
      numCycles == Bump(old(numCycles)) &&
      if old(cyclesToReport) > 0 then
        cycles == old(cycles) + [Event(kind, addr, data)] && cyclesToReport == old(cyclesToReport) - 1
      else
        cycles == old(cycles) && cyclesToReport == old(cyclesToReport)
    }

    /** No cycle is counted and no flip is taken. */
    twostate predicate Uncounted()
      reads this`numCycles, this`cycles, this`cyclesToReport, this`flips
    {
      numCycles == old(numCycles) && cycles == old(cycles) &&
      cyclesToReport == old(cyclesToReport) && flips == old(flips)
    }

    /** After the count, from pins `p0`: at the cap nothing else happens;
        below it the due prefix of the queue is applied in order and removed. */
    twostate predicate Settled(p0: Pins)
      reads this`numCycles, this`cyclesToRun, this`flips, this`pins
    {
      if numCycles == cyclesToRun then flips == old(flips) && pins == p0
      else
        flips == old(flips)[DueCount(old(flips), numCycles as int)..] &&
        pins == DrainedPins(p0, old(flips), numCycles as int)
    }

    method ReportCycle(kind: bv8, addr: bv16, data: bv8) returns (st: Status)
      requires Valid()
      modifies this`cycles, this`cyclesToReport, this`numCycles, this`flips, this`pins
      ensures Valid()
      ensures Counted(kind, addr, data) && Settled(old(pins))
      ensures st == Halt <==> numCycles == cyclesToRun
      ensures st == Continue ==> forall i :: 0 <= i < |flips| ==> flips[i].Cycle() > numCycles as int
    {
      if cyclesToReport > 0 {
        cycles := cycles + [Event(kind, addr, data)];
        cyclesToReport := cyclesToReport - 1;
      }
      numCycles := Bump(numCycles);
      if numCycles == cyclesToRun {
        return Halt;
      }
      DrainFlips();
      st := Continue;
    }

    /** The drain loop of `report_cycle`: while the flip at the head of the
        queue is due, take it off and apply it. */
    method DrainFlips()
      requires Valid()
      modifies this`flips, this`pins
      ensures Valid()
      ensures flips == old(flips)[DueCount(old(flips), numCycles as int)..]
      ensures pins == DrainedPins(old(pins), old(flips), numCycles as int)
      ensures forall i :: 0 <= i < |flips| ==> flips[i].Cycle() > numCycles as int
    {
      ghost var now := numCycles as int;
      ghost var f0 := flips;
      ghost var p0 := pins;
      ghost var k := 0;
      while flips != [] && flips[0].Cycle() <= numCycles as int
        invariant 0 <= k <= DueCount(f0, now)
        invariant flips == f0[k..]
        invariant pins == ApplyAll(p0, f0[..k])
        decreases |flips|
      {
        var flip := flips[0];
        assert flip == f0[k];
        ApplyAllStep(p0, f0, k);
        flips := flips[1..];
        pins := Apply(flip, pins);
        k := k + 1;
      }
      DrainLeavesNothingDue(f0, now);
    }

    // ---- PerformRead / PerformWrite and the six callbacks --------------

    /** A read transaction: `HandleRead`, then, if `latched`, the count with
        the byte read, from the pins `HandleRead` left. */
    twostate predicate ReadDone(kind: bv8, addr: bv16, ret: bv8, latched: bool)
      requires sram.Length == MEMORY_SIZE
      reads this`serialInEnabled, this`serialInAddr, this`serialIn, this`pins, this`numCycles,
        this`cycles, this`cyclesToReport, this`cyclesToRun, this`flips, sram
    {
      ret == old(ReadReturn(addr)) && serialIn == old(SerialInAfter(addr)) &&
      if latched then Counted(kind, addr, ret) && Settled(old(PinsAfterRead(addr)))
      else Uncounted() && pins == old(PinsAfterRead(addr))
    }

    /** A write transaction: if `latched`, the count with the byte written;
        the write itself only if that count is below the cap. */
    twostate predicate WriteDone(kind: bv8, addr: bv16, val: bv8, latched: bool, st: Status)
      requires sram.Length == MEMORY_SIZE
      reads this`numCycles, this`cycles, this`cyclesToReport, this`cyclesToRun, this`flips, this`pins,
        this`serialOutEnabled, this`serialOutAddr, this`serialOut, this`terminationCause,
        this`ranges, this`terminateOn, sram
    {
      if !latched then Uncounted() && Stored(addr, val, old(pins), st)
      else
        Counted(kind, addr, val) &&
        if numCycles == cyclesToRun then
          st == Halt && flips == old(flips) && pins == old(pins) && sram[..] == old(sram[..]) &&
          serialOut == old(serialOut) && terminationCause == old(terminationCause)
        else
          flips == old(flips)[DueCount(old(flips), numCycles as int)..] &&
          Stored(addr, val, DrainedPins(old(pins), old(flips), numCycles as int), st)
    }

    method PerformRead(kind: bv8, addr: bv16) returns (ret: bv8, st: Status)
      requires Valid()
      modifies this`serialIn, this`pins, this`cycles, this`cyclesToReport, this`numCycles, this`flips
      ensures Valid()
      ensures Progress(st)
      ensures ReadDone(kind, addr, ret, old(vectorHasBeenPulled))
      ensures st == Halt <==> old(vectorHasBeenPulled) && numCycles == cyclesToRun
    {
      ret := HandleRead(addr);
      st := Continue;
      if vectorHasBeenPulled {
        st := ReportCycle(kind, addr, ret);
      }
    }

    method PerformWrite(kind: bv8, addr: bv16, val: bv8) returns (st: Status)
      requires Valid()
      modifies sram, this`serialOut, this`pins, this`terminationCause
      modifies this`cycles, this`cyclesToReport, this`numCycles, this`flips
      ensures Valid()
      ensures Progress(st)
      ensures WriteDone(kind, addr, val, old(vectorHasBeenPulled), st)
    {
      if vectorHasBeenPulled {
        st := ReportCycle(kind, addr, val);
        if st == Halt {
          return;
        }
      }
      st := HandleWrite(addr, val);
    }

    method Read(addr: bv16) returns (ret: bv8, st: Status)
      requires Valid()
      modifies this`serialIn, this`pins, this`cycles, this`cyclesToReport, this`numCycles, this`flips
      ensures Valid()
      ensures Progress(st)
      ensures ReadDone(NORMAL_READ, addr, ret, old(vectorHasBeenPulled))
      ensures st == Halt <==> old(vectorHasBeenPulled) && numCycles == cyclesToRun
    {
      ret, st := PerformRead(NORMAL_READ, addr);
    }

    method ReadLocked(addr: bv16) returns (ret: bv8, st: Status)
      requires Valid()
      modifies this`serialIn, this`pins, this`cycles, this`cyclesToReport, this`numCycles, this`flips
      ensures Valid()
      ensures Progress(st)
      ensures ReadDone(LOCKED_READ, addr, ret, old(vectorHasBeenPulled))
      ensures st == Halt <==> old(vectorHasBeenPulled) && numCycles == cyclesToRun
    {
      ret, st := PerformRead(LOCKED_READ, addr);
    }

    /** The vector pull sets the latch before its own read, so it is the first
        transaction counted. */
    method ReadVector(addr: bv16) returns (ret: bv8, st: Status)
      requires Valid()
      modifies this`vectorHasBeenPulled
      modifies this`serialIn, this`pins, this`cycles, this`cyclesToReport, this`numCycles, this`flips
      ensures Valid()
      ensures Progress(st)
      ensures vectorHasBeenPulled
      ensures ReadDone(VECTOR_READ, addr, ret, true)
      ensures st == Halt <==> numCycles == cyclesToRun
    {
      vectorHasBeenPulled := true;
      ret, st := PerformRead(VECTOR_READ, addr);
    }

    /** The opcode fetch: the read, then (once latched, and unless the read hit
        the cap) the fetch checks. */
    method ReadOpcode(addr: bv16) returns (ret: bv8, st: Status)
      requires Valid()
      modifies this`lastPc, this`lastPcValid, this`terminationCause
      modifies this`serialIn, this`pins, this`cycles, this`cyclesToReport, this`numCycles, this`flips
      ensures Valid()
      ensures Progress(st)
      ensures ReadDone(OPCODE_READ, addr, ret, old(vectorHasBeenPulled))
      ensures !old(vectorHasBeenPulled) || numCycles == cyclesToRun ==>
        lastPc == old(lastPc) && lastPcValid == old(lastPcValid) && terminationCause == old(terminationCause) &&
        (st == Halt <==> old(vectorHasBeenPulled))
      ensures old(vectorHasBeenPulled) && numCycles != cyclesToRun ==>
        FetchOutcome(addr, ret, st)
    {
      ret, st := PerformRead(OPCODE_READ, addr);
      if st == Halt || !vectorHasBeenPulled {
        return;
      }
      st := FetchCheck(addr, ret);
    }

    /** The fetch checks of `ReadOpcode`, in the order it makes them. The
        infinite-loop check compares with the `last_pc` state before the
        fetch; every later check comes after `last_pc` is updated. */
    method FetchCheck(addr: bv16, op: bv8) returns (st: Status)
      modifies this`lastPc, this`lastPcValid, this`terminationCause
      ensures FetchOutcome(addr, op, st)
      ensures st == Halt ==> CAUSE_BRK <= terminationCause <= CAUSE_VECTOR_FETCH
    {
      st := Halt;
      if lastPcValid && addr == lastPc {
        if terminateOn & TERMINATE_ON_INFINITE != 0 {
          terminationCause := CAUSE_INFINITE_LOOP;
          return;
        }
      }
      lastPcValid, lastPc := true, addr;
      if terminateOn & TERMINATE_ON_ZERO != 0 && addr < 0x0100 {
        terminationCause := CAUSE_ZERO_FETCH;
        return;
      }
      if terminateOn & TERMINATE_ON_STACK != 0 && addr >= 0x0100 && addr < 0x0200 {
        terminationCause := CAUSE_STACK_FETCH;
        return;
      }
      if terminateOn & TERMINATE_ON_ZERO != 0 && addr >= 0xFFFA {
        terminationCause := CAUSE_VECTOR_FETCH;
        return;
      }
      if terminateOn & TERMINATE_ON_BRK != 0 && op == 0 {
        terminationCause := CAUSE_BRK;
        return;
      }
      st := Continue;
    }

    /** The outcome of the fetch checks, against `FetchCause` of the state
        before them: the first enabled check that matches sets its cause and
        halts; `last_pc` is the fetch address unless the infinite-loop check
        halted. */
    twostate predicate FetchOutcome(addr: bv16, op: bv8, st: Status)
      reads this`terminateOn, this`lastPcValid, this`lastPc, this`terminationCause
    {
      var cause := FetchCause(terminateOn, old(lastPcValid), old(lastPc), addr, op);
      (st == Halt <==> cause.Some?) &&
      terminationCause == (if cause.Some? then cause.value else old(terminationCause)) &&
      if cause == Some(CAUSE_INFINITE_LOOP) then lastPc == old(lastPc) && lastPcValid == old(lastPcValid)
      else lastPc == addr && lastPcValid
    }

    method Write(addr: bv16, val: bv8) returns (st: Status)
      requires Valid()
      modifies sram, this`serialOut, this`pins, this`terminationCause
      modifies this`cycles, this`cyclesToReport, this`numCycles, this`flips
      ensures Valid()
      ensures Progress(st)
      ensures WriteDone(NORMAL_WRITE, addr, val, old(vectorHasBeenPulled), st)
    {
      st := PerformWrite(NORMAL_WRITE, addr, val);
    }

    method WriteLocked(addr: bv16, val: bv8) returns (st: Status)
      requires Valid()
      modifies sram, this`serialOut, this`pins, this`terminationCause
      modifies this`cycles, this`cyclesToReport, this`numCycles, this`flips
      ensures Valid()
      ensures Progress(st)
      ensures WriteDone(LOCKED_WRITE, addr, val, old(vectorHasBeenPulled), st)
    {
      st := PerformWrite(LOCKED_WRITE, addr, val);
    }

    // ---- the run -------------------------------------------------------

    /** What every transaction, step and run keeps.
        - Coming in below the cap, it stays at or below it, and strictly below
          unless it halts.
        - Only a halt sets a cause, the cause it sets is one of 1 to 6, and a
          halt is either the cap or such a cause.
        - The trace only grows, and only by using up quota.
        - Nothing is counted while the latch is off, and the latch stays on. */
    twostate predicate Progress(st: Status)
      reads this`numCycles, this`cyclesToRun, this`terminationCause, this`cycles, this`cyclesToReport,
        this`vectorHasBeenPulled
    {
      (old(numCycles) < cyclesToRun ==>
         numCycles <= cyclesToRun && (st == Continue ==> numCycles < cyclesToRun)) &&
      (terminationCause == old(terminationCause) ||
         (st == Halt && CAUSE_BRK <= terminationCause <= CAUSE_BAD_WRITE)) &&
      (st == Halt ==> numCycles == cyclesToRun || CAUSE_BRK <= terminationCause <= CAUSE_BAD_WRITE) &&
      old(cycles) <= cycles &&
      |cycles| + cyclesToReport as int == old(|cycles| + cyclesToReport as int) &&
      (old(vectorHasBeenPulled) ==> vectorHasBeenPulled) &&
      (!vectorHasBeenPulled ==> numCycles == old(numCycles) && cycles == old(cycles))
    }

    method Transact(op: BusOp) returns (st: Status)
      requires Valid()
      modifies sram, this`serialIn, this`serialOut, this`pins, this`terminationCause
      modifies this`cycles, this`cyclesToReport, this`numCycles, this`flips
      modifies this`lastPc, this`lastPcValid, this`vectorHasBeenPulled
      ensures Valid()
      ensures Progress(st)
      ensures |cycles| <= old(|cycles|) + 1
      ensures !old(vectorHasBeenPulled) && !op.VectorPull? ==> cycles == old(cycles)
    {
      var ret: bv8;
      match op
      case NormalRead(addr) =>
        ret, st := Read(addr);
      case LockedRead(addr) =>
        ret, st := ReadLocked(addr);
      case OpcodeFetch(addr) =>
        ret, st := ReadOpcode(addr);
      case VectorPull(addr) =>
        ret, st := ReadVector(addr);
      case NormalWrite(addr, val) =>
        st := Write(addr, val);
      case LockedWrite(addr, val) =>
        st := WriteLocked(addr, val);
    }

    /** One `cpu.Step(bus)`: its transactions in order, until one halts. */
    method Step(ops: seq<BusOp>) returns (st: Status)
      requires Valid()
      modifies sram, this`serialIn, this`serialOut, this`pins, this`terminationCause
      modifies this`cycles, this`cyclesToReport, this`numCycles, this`flips
      modifies this`lastPc, this`lastPcValid, this`vectorHasBeenPulled
      ensures Valid()
      ensures Progress(st)
      ensures |cycles| <= old(|cycles|) + |ops|
    {
      st := Continue;
      for n := 0 to |ops|
        invariant Valid()
        invariant st == Continue && Progress(Continue)
        invariant |cycles| <= old(|cycles|) + n
      {
        st := Transact(ops[n]);
        if st == Halt {
          return;
        }
      }
    }

    /** `Main`'s loop: step while below the cap and no cause is set. `steps`
        is how many steps were started. When the run ends before the program
        does, the cap was reached or a cause was set; starting at or below the
        cap, the count never passes it, so a run that ends with cause 0
        ("limit") before the program does stopped exactly at the cap. */
    method Run(program: seq<seq<BusOp>>) returns (steps: nat)
      requires Valid()
      modifies sram, this`serialIn, this`serialOut, this`pins, this`terminationCause
      modifies this`cycles, this`cyclesToReport, this`numCycles, this`flips
      modifies this`lastPc, this`lastPcValid, this`vectorHasBeenPulled
      ensures Valid()
      ensures steps <= |program|
      ensures old(numCycles) <= cyclesToRun ==> numCycles <= cyclesToRun
      ensures steps < |program| ==> numCycles >= cyclesToRun || terminationCause != CAUSE_LIMIT
      ensures old(numCycles) <= cyclesToRun && steps < |program| && terminationCause == CAUSE_LIMIT ==>
        numCycles == cyclesToRun
      ensures old(terminationCause) <= CAUSE_BAD_WRITE ==> terminationCause <= CAUSE_BAD_WRITE
      ensures old(cycles) <= cycles
      ensures |cycles| + cyclesToReport as int == old(|cycles| + cyclesToReport as int)
      ensures |cycles| <= old(|cycles|) + OpCount(program[..steps])
    {
      steps := 0;
      while steps < |program| && numCycles < cyclesToRun && terminationCause == CAUSE_LIMIT
        invariant steps <= |program|
        invariant Valid()
        invariant old(numCycles) <= cyclesToRun ==> numCycles <= cyclesToRun
        invariant old(terminationCause) <= CAUSE_BAD_WRITE ==> terminationCause <= CAUSE_BAD_WRITE
        invariant old(cycles) <= cycles
        invariant |cycles| + cyclesToReport as int == old(|cycles| + cyclesToReport as int)
        invariant |cycles| <= old(|cycles|) + OpCount(program[..steps])
      {
        var st := Step(program[steps]);
        OpCountStep(program, steps);
        steps := steps + 1;
        if st == Halt {
          return;
        }
      }
    }

    // ---- setup ---------------------------------------------------------

    /** The settings the job can change still hold their initial values. */
    ghost predicate Unconfigured()
      reads this`ranges, this`serialInAddr, this`serialInEnabled, this`serialIn, this`serialOutAddr,
        this`serialOutEnabled, this`serialOutFmt, this`cyclesToReport, this`cyclesToRun, this`terminateOn,
        this`flips
    {
      ranges == [] && serialInAddr == 0 && !serialInEnabled && serialIn == [] &&
      serialOutAddr == 0 && !serialOutEnabled && serialOutFmt == NoFormat &&
      cyclesToReport == 0 && cyclesToRun == DEFAULT_CYCLES_TO_RUN && terminateOn == DEFAULT_TERMINATE_ON &&
      flips == []
    }

    /** Memory holds the init records laid down over `s0` after byte 0xFFFD
        was set to 2. */
    ghost predicate ImageLoaded(s0: seq<bv8>, records: seq<InitRecord>)
      reads sram
    {
      |s0| == MEMORY_SIZE && AllNonEmpty(records) &&
      sram[..] == InitImage(s0[RESET_VECTOR_HIGH as int := 0x02], records)
    }

    /** The writable ranges (the job's `rwmap`, or the default range) and the
        two serial ports; `serial_in_data` only counts with an input port. */
    ghost predicate PortsConfigured(job: Job)
      reads this`ranges, this`serialInEnabled, this`serialInAddr, this`serialIn, this`serialOutEnabled,
        this`serialOutAddr
    {
      ranges == (if job.rwmap.Some? then job.rwmap.value else [DEFAULT_RANGE]) &&
      serialInEnabled == job.serialInAddr.Some? &&
      serialInAddr == (if job.serialInAddr.Some? then job.serialInAddr.value else 0) &&
      serialIn == (if job.serialInAddr.Some? && job.serialInData.Some? then job.serialInData.value else []) &&
      serialOutEnabled == job.serialOutAddr.Some? &&
      serialOutAddr == (if job.serialOutAddr.Some? then job.serialOutAddr.value else 0)
    }

    /** The trace quota (`show_cycles`), the cycle cap (`max_cycles`) and
        the termination mask (the six `terminate_on_*` keys). */
    ghost predicate LimitsConfigured(job: Job)
      reads this`cyclesToReport, this`cyclesToRun, this`terminateOn
    {
      cyclesToReport == (if job.showCycles == Some(true) then SHOW_CYCLES_QUOTA as u32 else 0) &&
      cyclesToRun == (if job.maxCycles.Some? then job.maxCycles.value else DEFAULT_CYCLES_TO_RUN) &&
      terminateOn == ApplyFlags(DEFAULT_TERMINATE_ON, job.terminate)
    }

    /** The setup part of `Main`, on the settings the constructor leaves. It
        stops at the first configuration error, checking them in the order
        `Main` does; on success every key has taken effect. */
    method Configure(job: Job) returns (err: Option<SetupError>)
      requires Valid() && Unconfigured()
      modifies sram, this`ranges, this`serialInAddr, this`serialInEnabled, this`serialIn
      modifies this`serialOutAddr, this`serialOutEnabled, this`serialOutFmt
      modifies this`cyclesToReport, this`cyclesToRun, this`terminateOn, this`flips
      ensures Valid()
      ensures err == SetupCheck(job)
      ensures err == None ==>
        ImageLoaded(old(sram[..]), job.init.value) &&
        PortsConfigured(job) &&
        serialOutFmt == (if job.serialOutFmt.Some? then FormatOfName(job.serialOutFmt.value).value else NoFormat) &&
        LimitsConfigured(job) &&
        flips == Schedule(OrEmpty(job.so), OrEmpty(job.nmi), OrEmpty(job.irq))
    {
      err := Prepare(job);
      if err.Some? {
        return;
      }
      SetSchedule(job);
    }

    /** Everything setup does before the flip queue: the memory image, the
        ports, the output format, the limits and the two unsupported keys. */
    method Prepare(job: Job) returns (err: Option<SetupError>)
      requires Valid() && Unconfigured()
      modifies sram, this`ranges, this`serialInAddr, this`serialInEnabled, this`serialIn
      modifies this`serialOutAddr, this`serialOutEnabled, this`serialOutFmt
      modifies this`cyclesToReport, this`cyclesToRun, this`terminateOn
      ensures Valid()
      ensures err == SetupCheck(job)
      ensures err == None ==>
        ImageLoaded(old(sram[..]), job.init.value) &&
        PortsConfigured(job) &&
        serialOutFmt == (if job.serialOutFmt.Some? then FormatOfName(job.serialOutFmt.value).value else NoFormat) &&
        LimitsConfigured(job)
    {
      err := LoadImage(job.init);
      if err.Some? {
        return;
      }
      SetPorts(job);
      err := SetFormat(job.serialOutFmt);
      if err.Some? {
        return;
      }
      SetLimits(job);
      if job.rdy {
        return Some(RdyUnsupported);
      }
      if job.res {
        return Some(ResetUnsupported);
      }
    }

    /** Setup's memory image: byte 0xFFFD is set to 2, then the init records
        are laid down; a job without them, or with an empty one, is refused. */
    method LoadImage(init: Option<seq<InitRecord>>) returns (err: Option<SetupError>)
      requires sram.Length == MEMORY_SIZE
      modifies sram
      ensures err == (if init.None? then Some(NoInitRecords)
                      else if !AllNonEmpty(init.value) then Some(EmptyInitRecord)
                      else None)
      ensures err == None ==> ImageLoaded(old(sram[..]), init.value)
    {
      sram[RESET_VECTOR_HIGH] := 0x02;
      if init.None? {
        return Some(NoInitRecords);
      }
      var ok := WriteInitRecords(sram, init.value);
      if !ok {
        return Some(EmptyInitRecord);
      }
      return None;
    }

    method SetPorts(job: Job)
      requires ranges == [] && serialInAddr == 0 && !serialInEnabled && serialIn == []
      requires serialOutAddr == 0 && !serialOutEnabled
      modifies this`ranges, this`serialInAddr, this`serialInEnabled, this`serialIn
      modifies this`serialOutAddr, this`serialOutEnabled
      ensures PortsConfigured(job)
    {
      if job.rwmap.Some? {
        AddRanges(job.rwmap.value);
      } else {
        ranges := ranges + [DEFAULT_RANGE];
      }
      if job.serialInAddr.Some? {
        serialInAddr := job.serialInAddr.value;
        serialInEnabled := true;
        if job.serialInData.Some? {
          serialIn := job.serialInData.value;
        }
      }
      if job.serialOutAddr.Some? {
        serialOutAddr := job.serialOutAddr.value;
        serialOutEnabled := true;
      }
    }

    /** The `serial_out_fmt` key, if present, must name a known format. */
    method SetFormat(fmt: Option<string>) returns (err: Option<SetupError>)
      modifies this`serialOutFmt
      ensures err == (if FormatAccepted(fmt) then None else Some(UnknownSerialOutFormat))
      ensures err == None ==>
        serialOutFmt == (if fmt.Some? then FormatOfName(fmt.value).value else old(serialOutFmt))
    {
      err := None;
      if fmt.Some? {
        var f := FormatOfName(fmt.value);
        if f.None? {
          return Some(UnknownSerialOutFormat);
        }
        serialOutFmt := f.value;
      }
    }

    method SetLimits(job: Job)
      requires cyclesToReport == 0 && cyclesToRun == DEFAULT_CYCLES_TO_RUN && terminateOn == DEFAULT_TERMINATE_ON
      modifies this`cyclesToReport, this`cyclesToRun, this`terminateOn
      ensures LimitsConfigured(job)
    {
      if job.showCycles == Some(true) {
        cyclesToReport := SHOW_CYCLES_QUOTA as u32;
      }
      if job.maxCycles.Some? {
        cyclesToRun := job.maxCycles.value;
      }
      terminateOn := ApplyFlags(terminateOn, job.terminate);
    }

    /** The flip queue: the job's pulse trains, sorted by cycle. */
    method SetSchedule(job: Job)
      requires Valid()
      modifies this`flips
      ensures Valid()
      ensures flips == Schedule(OrEmpty(job.so), OrEmpty(job.nmi), OrEmpty(job.irq))
    {
      flips := BuildSchedule(job.so, job.nmi, job.irq);
    }

    /** The `rwmap` loop: each pair becomes one more writable range. */
    method AddRanges(rwmap: seq<Range>)
      modifies this`ranges
      ensures ranges == old(ranges) + rwmap
    {
      for n := 0 to |rwmap|
        invariant ranges == old(ranges) + rwmap[..n]
      {
        ranges := ranges + [rwmap[n]];
        assert rwmap[..n + 1] == rwmap[..n] + [rwmap[n]];
      }
      assert rwmap[..|rwmap|] == rwmap;
    }
  }
}
