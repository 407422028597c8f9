/** Scheduled pin flips (`class Flip` and `add_flips` in src/Main.cs) and the
    abstract CPU pins they act on.  A flip is one 32-bit word: bits 0-23 hold
    the trigger cycle, bits 24-30 the pin (1 = SO/overflow, 2 = NMI, 3 = IRQ)
    and bit 31 the new state. */
module Flips {
  import opened Common
  import opened Sorting

  /** The overflow bit of the 65C02 status register (the CPU library's `P_V`). */
  const P_V: bv8 := 0x40

  /** The part of the unseen CPU engine that the harness touches: the status
      register `P` and the NMI and IRQ input levels. */
  datatype Pins = Pins(p: bv8, nmi: bool, irq: bool)

  /** `cpu.SetP(cpu.GetP() | CPU.P_V)`: raise the overflow flag. */
  function SetV(pins: Pins): Pins
  {
    pins.(p := pins.p | P_V)
  }

  /** A flip word. Its fields are read with the arithmetic that the masks
      `underlying & 0xFFFFFF`, `(underlying >> 24) & 0x7F` and
      `(underlying & 0x80000000) != 0` amount to on an unsigned 32-bit value
      (`FieldsAreMasks`). */
  datatype Flip = Flip(underlying: u32)
  {
    function Cycle(): int { underlying as int % 0x100_0000 }
    function State(): bool { underlying as int >= 0x8000_0000 }
    function Pin(): int { underlying as int / 0x100_0000 % 0x80 }
  }

  /** A word split at bit 24. */
  lemma SplitLow(w: bv32)
    ensures w as int == (w >> 24) as int * 0x100_0000 + (w & 0xFF_FFFF) as int
    ensures (w & 0xFF_FFFF) as int < 0x100_0000
  {
    assert w == ((w >> 24) << 24) | (w & 0xFF_FFFF);
    JoinAt24(w >> 24, w & 0xFF_FFFF);
    JoinAt24(0xFF, w & 0xFF_FFFF);
  }

  /** Putting a byte above a 24-bit value adds it in at weight 2^24. */
  lemma JoinAt24(hi: bv32, lo: bv32)
    requires hi < 0x100 && lo < 0x100_0000
    ensures ((hi << 24) | lo) as int == hi as int * 0x100_0000 + lo as int
  {
  }

  /** The top byte of a word split at bit 31. */
  lemma SplitTop(w: bv32)
    ensures (w >> 24) as int == (w >> 31) as int * 0x80 + ((w >> 24) & 0x7F) as int
    ensures ((w >> 24) & 0x7F) as int < 0x80 && (w >> 31) as int <= 1
    ensures (w & 0x8000_0000 != 0) <==> (w >> 31) as int == 1
  {
  }

  /** A word made of a top bit, a 7-bit pin and a 24-bit cycle reads back as
      those three fields. */
  lemma FieldsOf(f: Flip, top: int, pin: int, cycle: int)
    requires 0 <= top <= 1 && 0 <= pin < 0x80 && 0 <= cycle < 0x100_0000
    requires f.underlying as int == top * 0x8000_0000 + pin * 0x100_0000 + cycle
    ensures f.Cycle() == cycle && f.Pin() == pin && f.State() == (top == 1)
  {
    DivMod(f.underlying as int, 0x100_0000, top * 0x80 + pin, cycle);
    DivMod(top * 0x80 + pin, 0x80, top, pin);
  }

  /** The three fields are the source's masks of the word. */
  lemma FieldsAreMasks(w: bv32)
    ensures Flip(w as u32).Cycle() == (w & 0xFF_FFFF) as int
    ensures Flip(w as u32).Pin() == ((w >> 24) & 0x7F) as int
    ensures Flip(w as u32).State() == (w & 0x8000_0000 != 0)
  {
    SplitLow(w);
    SplitTop(w);
    FieldsOf(Flip(w as u32), (w >> 31) as int, ((w >> 24) & 0x7F) as int, (w & 0xFF_FFFF) as int);
  }

  /** The word `add_flips` builds: `(state ? 0x80000000 : 0) | flip_type << 24 | cycle`. */
  function Pack(cycle: bv32, pin: bv32, state: bool): Flip
  {
    Flip(((if state then 0x8000_0000 else 0) | (pin << 24) | cycle) as u32)
  }

  /** Without overlap, the three parts of a packed word add up. */
  lemma PackWord(cycle: bv32, pin: bv32, state: bool)
    requires cycle < 0x100_0000 && pin < 0x80
    ensures Pack(cycle, pin, state).underlying as int ==
      (if state then 0x8000_0000 else 0) + pin as int * 0x100_0000 + cycle as int
  {
  }

  /** Unpacking recovers what was packed, as long as the cycle fits in 24 bits. */
  lemma PackUnpack(cycle: bv32, pin: bv32, state: bool)
    requires cycle < 0x100_0000 && pin < 0x80
    ensures Pack(cycle, pin, state).Cycle() == cycle as int
    ensures Pack(cycle, pin, state).Pin() == pin as int
    ensures Pack(cycle, pin, state).State() == state
  {
    PackWord(cycle, pin, state);
    FieldsOf(Pack(cycle, pin, state), if state then 1 else 0, pin as int, cycle as int);
  }

  /** What any packed word reads back as. Cycle numbers are not range-checked,
      so the cycle keeps only its low 24 bits, bits 24-30 of the cycle are ORed
      into the pin, and bit 31 of the cycle forces the state to true. */
  lemma PackFields(cycle: bv32, pin: bv32, state: bool)
    requires pin < 0x80
    ensures Pack(cycle, pin, state).Cycle() == cycle as int % 0x100_0000
    ensures Pack(cycle, pin, state).Pin() == ((pin | (cycle >> 24)) & 0x7F) as int
    ensures Pack(cycle, pin, state).State() == (state || cycle as int >= 0x8000_0000)
  {
    var w := (if state then 0x8000_0000 else 0) | (pin << 24) | cycle;
    FieldsAreMasks(w);
    FieldsAreMasks(cycle);
    PackMasks(cycle, pin, state);
  }

  /** The masks of a packed word, in terms of what went into it. */
  lemma PackMasks(cycle: bv32, pin: bv32, state: bool)
    requires pin < 0x80
    ensures ((if state then 0x8000_0000 else 0) | (pin << 24) | cycle) & 0xFF_FFFF == cycle & 0xFF_FFFF
    ensures (((if state then 0x8000_0000 else 0) | (pin << 24) | cycle) >> 24) & 0x7F == (pin | (cycle >> 24)) & 0x7F
    ensures (((if state then 0x8000_0000 else 0) | (pin << 24) | cycle) & 0x8000_0000 != 0) ==
            (state || cycle & 0x8000_0000 != 0)
  {
  }

  /** Sort keys: a raw cycle number and a flip's trigger cycle, widened. */
  function RawCycle(c: bv32): int { c as int }
  function FlipCycle(f: Flip): int { f.Cycle() }

  /** `Flip.apply`: an SO flip only ever raises V; NMI and IRQ flips set the
      level to the flip's state; any other pin number does nothing. */
  function Apply(f: Flip, pins: Pins): (r: Pins)
    ensures r.p == pins.p || r.p == pins.p | P_V
    ensures r.p != pins.p ==> f.Pin() == 1
    ensures r.nmi != pins.nmi ==> f.Pin() == 2 && r.nmi == f.State()
    ensures r.irq != pins.irq ==> f.Pin() == 3 && r.irq == f.State()
  {
    var pin := f.Pin();
    if pin == 1 then SetV(pins)
    else if pin == 2 then pins.(nmi := f.State())
    else if pin == 3 then pins.(irq := f.State())
    else pins
  }

  /** The pins after applying `fs` in order, first element first. A batch
      never clears a bit of P. */
  function ApplyAll(pins: Pins, fs: seq<Flip>): (r: Pins)
    ensures r.p & pins.p == pins.p
  {
    if fs == [] then pins
    else Apply(fs[|fs| - 1], ApplyAll(pins, fs[..|fs| - 1]))
  }

  /** Applying a queue prefix one flip longer applies that flip last. */
  lemma ApplyAllStep(pins: Pins, fs: seq<Flip>, k: nat)
    requires k < |fs|
    ensures ApplyAll(pins, fs[..k + 1]) == Apply(fs[k], ApplyAll(pins, fs[..k]))
  {
    assert fs[..k + 1][..k] == fs[..k];
  }

  /** A batch of flips sets V iff it holds an SO flip. */
  lemma {:induction false} ApplyAllStatus(pins: Pins, fs: seq<Flip>)
    ensures ApplyAll(pins, fs).p ==
      if exists i :: 0 <= i < |fs| && fs[i].Pin() == 1 then pins.p | P_V else pins.p
  {
    if fs != [] {
      var init := fs[..|fs| - 1];
      ApplyAllStatus(pins, init);
      if exists i :: 0 <= i < |init| && init[i].Pin() == 1 {
        var i :| 0 <= i < |init| && init[i].Pin() == 1;
        assert fs[i] == init[i];
      }
      if exists i :: 0 <= i < |fs| && fs[i].Pin() == 1 {
        var i :| 0 <= i < |fs| && fs[i].Pin() == 1;
        assert i < |init| ==> init[i] == fs[i];
      }
    }
  }

  /** The NMI or IRQ level of `pins`. */
  function Level(pins: Pins, pin: int): bool
    requires pin == 2 || pin == 3
  {
    if pin == 2 then pins.nmi else pins.irq
  }

  /** One flip changes the NMI (or IRQ) level only if it is for that pin. */
  lemma ApplyLevel(f: Flip, pins: Pins, pin: int)
    requires pin == 2 || pin == 3
    ensures Level(Apply(f, pins), pin) == if f.Pin() == pin then f.State() else Level(pins, pin)
  {
  }

  /** A batch with no flip for the NMI (or IRQ) pin leaves that level as it was. */
  lemma {:induction false} ApplyAllLevelUntouched(pins: Pins, fs: seq<Flip>, pin: int)
    requires pin == 2 || pin == 3
    requires forall i :: 0 <= i < |fs| ==> fs[i].Pin() != pin
    ensures Level(ApplyAll(pins, fs), pin) == Level(pins, pin)
  {
    if fs != [] {
      var init := fs[..|fs| - 1];
      assert forall i :: 0 <= i < |init| ==> init[i] == fs[i];
      ApplyAllLevelUntouched(pins, init, pin);
      ApplyLevel(fs[|fs| - 1], ApplyAll(pins, init), pin);
    }
  }

  /** After a batch of flips the NMI (or IRQ) level is the state of the last
      flip for that pin. */
  lemma {:induction false} ApplyAllLevelLast(pins: Pins, fs: seq<Flip>, pin: int, i: nat)
    requires pin == 2 || pin == 3
    requires i < |fs| && fs[i].Pin() == pin
    requires forall j :: i < j < |fs| ==> fs[j].Pin() != pin
    ensures Level(ApplyAll(pins, fs), pin) == fs[i].State()
  {
    var init := fs[..|fs| - 1];
    ApplyLevel(fs[|fs| - 1], ApplyAll(pins, init), pin);
    if i < |fs| - 1 {
      assert forall j :: i <= j < |init| ==> init[j] == fs[j];
      ApplyAllLevelLast(pins, init, pin, i);
    }
  }

  /** How many flips at the front of the queue are due at cycle `now`: the
      number the drain loop in `report_cycle` takes off. */
  function DueCount(fs: seq<Flip>, now: int): (k: nat)
    ensures k <= |fs|
    ensures forall i :: 0 <= i < k ==> fs[i].Cycle() <= now
    ensures k < |fs| ==> fs[k].Cycle() > now
  {
    if fs == [] || fs[0].Cycle() > now then 0
    else 1 + DueCount(fs[1..], now)
  }

  /** The queue order: each flip triggers no later than the next one. */
  ghost predicate CycleOrdered(fs: seq<Flip>)
  {
    |fs| <= 1 || (fs[0].Cycle() <= fs[1].Cycle() && CycleOrdered(fs[1..]))
  }

  /** A list sorted by `FlipCycle` is in queue order. */
  lemma {:induction false} SortedIsCycleOrdered(fs: seq<Flip>)
    requires SortedBy(fs, FlipCycle)
    ensures CycleOrdered(fs)
  {
    if |fs| > 1 {
      SortedSuffix(fs, 1, FlipCycle);
      SortedIsCycleOrdered(fs[1..]);
    }
  }

  /** In queue order, no flip triggers before the head. */
  lemma {:induction false} CycleOrderedHead(fs: seq<Flip>, i: nat)
    requires CycleOrdered(fs) && i < |fs|
    ensures fs[0].Cycle() <= fs[i].Cycle()
  {
    if i > 1 {
      CycleOrderedHead(fs[1..], i - 1);
    }
  }

  /** What is left after taking flips off the front is still in order. */
  lemma {:induction false} CycleOrderedSuffix(fs: seq<Flip>, k: nat)
    requires CycleOrdered(fs) && k <= |fs|
    ensures CycleOrdered(fs[k..])
  {
    if k > 0 {
      CycleOrderedSuffix(fs[1..], k - 1);
      assert fs[1..][k - 1..] == fs[k..];
    }
  }

  /** On a queue in cycle order, draining leaves no flip that is due, and the
      rest of the queue is still in order. */
  lemma DrainLeavesNothingDue(fs: seq<Flip>, now: int)
    requires CycleOrdered(fs)
    ensures forall i :: DueCount(fs, now) <= i < |fs| ==> fs[i].Cycle() > now
    ensures CycleOrdered(fs[DueCount(fs, now)..])
  {
    var k := DueCount(fs, now);
    CycleOrderedSuffix(fs, k);
    forall i | k <= i < |fs|
      ensures fs[i].Cycle() > now
    {
      CycleOrderedHead(fs[k..], i - k);
    }
  }

  /** The pins after the due prefix of `fs` has been applied. */
  function DrainedPins(pins: Pins, fs: seq<Flip>, now: int): Pins
  {
    ApplyAll(pins, fs[..DueCount(fs, now)])
  }

  /** Already sorted cycles packed as alternating edges: true, false, true, ... */
  function Edges(v: seq<bv32>, pin: bv32): (t: seq<Flip>)
    ensures |t| == |v|
  {
    seq(|v|, n requires 0 <= n < |v| => Pack(v[n], pin, n % 2 == 0))
  }

  /** The flips `add_flips` appends for one pin: the cycles sorted ascending,
      packed as alternating edges. */
  function PulseTrain(cycles: seq<bv32>, pin: bv32): (t: seq<Flip>)
    ensures |t| == |cycles|
  {
    Edges(InsertionSort(cycles, RawCycle), pin)
  }

  /** The trigger cycles of a list of flips. */
  function Cycles(fs: seq<Flip>): (cs: seq<bv32>)
    ensures |cs| == |fs|
  {
    seq(|fs|, i requires 0 <= i < |fs| => fs[i].Cycle() as bv32)
  }

  /** One flip per input cycle, the same cycles in ascending order, the given
      pin, and alternating states starting with a rising edge. */
  lemma PulseTrainShape(cycles: seq<bv32>, pin: bv32)
    requires forall c :: c in cycles ==> c < 0x100_0000
    requires pin < 0x80
    ensures multiset(Cycles(PulseTrain(cycles, pin))) == multiset(cycles)
    ensures SortedBy(PulseTrain(cycles, pin), FlipCycle)
    ensures forall n :: 0 <= n < |cycles| ==>
              PulseTrain(cycles, pin)[n].Pin() == pin as int &&
              PulseTrain(cycles, pin)[n].State() == (n % 2 == 0)
  {
    var v := InsertionSort(cycles, RawCycle);
    var t := PulseTrain(cycles, pin);
    assert multiset(v) == multiset(cycles);
    forall n | 0 <= n < |v|
      ensures t[n].Cycle() == v[n] as int && t[n].Pin() == pin as int && t[n].State() == (n % 2 == 0)
    {
      assert v[n] in multiset(v);
      assert v[n] in cycles;
      PackUnpack(v[n], pin, n % 2 == 0);
    }
    assert Cycles(t) == v;
  }

  /** One more edge extends a list that ends in a prefix of the train. */
  lemma EdgesPrefix(prefix: seq<Flip>, v: seq<bv32>, pin: bv32, n: nat)
    requires n < |v|
    ensures prefix + Edges(v, pin)[..n] + [Pack(v[n], pin, n % 2 == 0)] == prefix + Edges(v, pin)[..n + 1]
  {
    var t := Edges(v, pin);
    assert t[..n + 1] == t[..n] + [t[n]];
  }

  /** `add_flips`: sort the raw cycle numbers, then append the edges. */
  method AddFlips(flipList: seq<Flip>, src: seq<bv32>, flipType: bv32) returns (r: seq<Flip>)
    ensures r == flipList + PulseTrain(src, flipType)
  {
    var v := InsertionSort(src, RawCycle);
    r := AppendEdges(flipList, v, flipType);
  }

  /** The loop of `add_flips`: one packed flip per sorted cycle, toggling the
      state before each one. */
  method AppendEdges(flipList: seq<Flip>, v: seq<bv32>, flipType: bv32) returns (r: seq<Flip>)
    ensures r == flipList + Edges(v, flipType)
  {
    var state := false;
    r := flipList;
    for n := 0 to |v|
      invariant state == (n % 2 == 1)
      invariant r == flipList + Edges(v, flipType)[..n]
    {
      state := !state;
      EdgesPrefix(flipList, v, flipType, n);
      r := r + [Pack(v[n], flipType, state)];
    }
    assert Edges(v, flipType)[..|v|] == Edges(v, flipType);
  }

  /** The queue `Main` builds: SO, NMI and IRQ pulse trains, merged by a sort
      on the trigger cycle. */
  function Schedule(so: seq<bv32>, nmi: seq<bv32>, irq: seq<bv32>): (q: seq<Flip>)
    ensures CycleOrdered(q)
    ensures multiset(q) == multiset(PulseTrain(so, 1) + PulseTrain(nmi, 2) + PulseTrain(irq, 3))
  {
    var q := InsertionSort(PulseTrain(so, 1) + PulseTrain(nmi, 2) + PulseTrain(irq, 3), FlipCycle);
    SortedIsCycleOrdered(q);
    q
  }
}
