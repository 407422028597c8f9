/** The termination policy: the `terminate_on` bit mask, the fetch-time
    checks of `ReadOpcode`, the causes and their report names. */
module Termination {
  import opened Common

  const TERMINATE_ON_BRK: bv8 := 0x01
  const TERMINATE_ON_INFINITE: bv8 := 0x02
  const TERMINATE_ON_ZERO: bv8 := 0x04
  const TERMINATE_ON_STACK: bv8 := 0x08
  const TERMINATE_ON_VECTOR: bv8 := 0x10
  const TERMINATE_ON_BAD_WRITE: bv8 := 0x20
  const TERMINATE_ON_UNUSED_FLAGS: bv8 := 0xC0

  /** Every rule enabled, the two unused bits clear. */
  const DEFAULT_TERMINATE_ON: bv8 := !TERMINATE_ON_UNUSED_FLAGS

  /** Values of `termination_cause`; 0 doubles as "ran into the cycle cap". */
  const CAUSE_LIMIT: bv8 := 0
  const CAUSE_BRK: bv8 := 1
  const CAUSE_INFINITE_LOOP: bv8 := 2
  const CAUSE_ZERO_FETCH: bv8 := 3
  const CAUSE_STACK_FETCH: bv8 := 4
  const CAUSE_VECTOR_FETCH: bv8 := 5
  const CAUSE_BAD_WRITE: bv8 := 6

  /** The checks `ReadOpcode` makes once the vector has been pulled, in the
      order it makes them; `Some(cause)` is the first that halts the run.
      The vector-region check tests TERMINATE_ON_ZERO, as the code does; a
      halt is always by one of the five fetch-time causes. */
  function FetchCause(terminateOn: bv8, lastPcValid: bool, lastPc: bv16, addr: bv16, op: bv8): (r: Option<bv8>)
    ensures r.Some? ==> CAUSE_BRK <= r.value <= CAUSE_VECTOR_FETCH
  {
    if lastPcValid && addr == lastPc && terminateOn & TERMINATE_ON_INFINITE != 0 then Some(CAUSE_INFINITE_LOOP)
    else if terminateOn & TERMINATE_ON_ZERO != 0 && addr < 0x0100 then Some(CAUSE_ZERO_FETCH)
    else if terminateOn & TERMINATE_ON_STACK != 0 && 0x0100 <= addr < 0x0200 then Some(CAUSE_STACK_FETCH)
    else if terminateOn & TERMINATE_ON_ZERO != 0 && addr >= 0xFFFA then Some(CAUSE_VECTOR_FETCH)
    else if terminateOn & TERMINATE_ON_BRK != 0 && op == 0 then Some(CAUSE_BRK)
    else None
  }

  // A rule-table reading of the same policy, to check FetchCause against.

  /** The fetch-time rules from highest to lowest precedence. */
  const FETCH_PRECEDENCE: seq<bv8> :=
    [CAUSE_INFINITE_LOOP, CAUSE_ZERO_FETCH, CAUSE_STACK_FETCH, CAUSE_VECTOR_FETCH, CAUSE_BRK]

  /** The mask bit that enables each fetch-time rule (vector fetch shares the
      zero-fetch bit). */
  function EnableBit(cause: bv8): bv8
  {
    if cause == CAUSE_BRK then TERMINATE_ON_BRK
    else if cause == CAUSE_INFINITE_LOOP then TERMINATE_ON_INFINITE
    else if cause == CAUSE_ZERO_FETCH then TERMINATE_ON_ZERO
    else if cause == CAUSE_STACK_FETCH then TERMINATE_ON_STACK
    else if cause == CAUSE_VECTOR_FETCH then TERMINATE_ON_ZERO
    else 0
  }

  /** The condition each fetch-time rule watches for. */
  predicate Triggered(cause: bv8, lastPcValid: bool, lastPc: bv16, addr: bv16, op: bv8)
  {
    if cause == CAUSE_INFINITE_LOOP then lastPcValid && addr == lastPc
    else if cause == CAUSE_ZERO_FETCH then addr < 0x0100
    else if cause == CAUSE_STACK_FETCH then 0x0100 <= addr < 0x0200
    else if cause == CAUSE_VECTOR_FETCH then addr >= 0xFFFA
    else if cause == CAUSE_BRK then op == 0
    else false
  }

  /** Rule `cause` is enabled by the mask and its condition holds. */
  predicate Fires(cause: bv8, terminateOn: bv8, lastPcValid: bool, lastPc: bv16, addr: bv16, op: bv8)
  {
    terminateOn & EnableBit(cause) != 0 && Triggered(cause, lastPcValid, lastPc, addr, op)
  }

  /** Which rules fire on this fetch, in precedence order. */
  function Firing(terminateOn: bv8, lastPcValid: bool, lastPc: bv16, addr: bv16, op: bv8): (f: seq<bool>)
    ensures |f| == |FETCH_PRECEDENCE|
  {
    seq(|FETCH_PRECEDENCE|, i requires 0 <= i < |FETCH_PRECEDENCE| =>
      Fires(FETCH_PRECEDENCE[i], terminateOn, lastPcValid, lastPc, addr, op))
  }

  /** The index of the first `true` in `s`, or `|s|` if there is none. */
  function FirstTrue(s: seq<bool>): (k: nat)
    ensures k <= |s|
    ensures forall j :: 0 <= j < k ==> !s[j]
    ensures k < |s| ==> s[k]
  {
    if s == [] || s[0] then 0 else 1 + FirstTrue(s[1..])
  }

  /** What the rule table says: the cause of the first rule that fires. */
  function FirstFiring(f: seq<bool>): Option<bv8>
    requires |f| == |FETCH_PRECEDENCE|
  {
    var k := FirstTrue(f);
    if k < |FETCH_PRECEDENCE| then Some(FETCH_PRECEDENCE[k]) else None
  }

  /** The table reading spelled out: rule `k` decides the fetch exactly when
      it fires and no rule before it does. */
  lemma FirstFiringMeaning(f: seq<bool>, k: nat)
    requires |f| == |FETCH_PRECEDENCE| && k < |FETCH_PRECEDENCE|
    ensures FirstFiring(f) == Some(FETCH_PRECEDENCE[k]) <==> f[k] && forall j :: 0 <= j < k ==> !f[j]
    ensures FirstFiring(f) == None <==> forall j :: 0 <= j < |f| ==> !f[j]
  {
    var p := FETCH_PRECEDENCE;
    assert forall i, j :: 0 <= i < j < |p| ==> p[i] != p[j];
  }

  lemma FirstFiringChain(f: seq<bool>)
    requires |f| == |FETCH_PRECEDENCE|
    ensures FirstFiring(f) ==
      if f[0] then Some(CAUSE_INFINITE_LOOP)
      else if f[1] then Some(CAUSE_ZERO_FETCH)
      else if f[2] then Some(CAUSE_STACK_FETCH)
      else if f[3] then Some(CAUSE_VECTOR_FETCH)
      else if f[4] then Some(CAUSE_BRK)
      else None
  {
    assert f == [f[0], f[1], f[2], f[3], f[4]];
  }

  lemma FiringValues(terminateOn: bv8, lastPcValid: bool, lastPc: bv16, addr: bv16, op: bv8)
    ensures Firing(terminateOn, lastPcValid, lastPc, addr, op) ==
      [lastPcValid && addr == lastPc && terminateOn & TERMINATE_ON_INFINITE != 0,
       terminateOn & TERMINATE_ON_ZERO != 0 && addr < 0x0100,
       terminateOn & TERMINATE_ON_STACK != 0 && 0x0100 <= addr < 0x0200,
       terminateOn & TERMINATE_ON_ZERO != 0 && addr >= 0xFFFA,
       terminateOn & TERMINATE_ON_BRK != 0 && op == 0]
  {
  }

  /** The precedence chain halts with the first enabled rule that is
      triggered, in the order of FETCH_PRECEDENCE, and lets the fetch through
      exactly when none is. */
  lemma FetchCauseIsFirstFiring(terminateOn: bv8, lastPcValid: bool, lastPc: bv16, addr: bv16, op: bv8)
    ensures FetchCause(terminateOn, lastPcValid, lastPc, addr, op) ==
            FirstFiring(Firing(terminateOn, lastPcValid, lastPc, addr, op))
  {
    FiringValues(terminateOn, lastPcValid, lastPc, addr, op);
    FirstFiringChain(Firing(terminateOn, lastPcValid, lastPc, addr, op));
  }

  /** The observed coupling: bit 0x10 (terminate_on_vector_fetch) has no
      effect on any fetch, and the vector-region check follows bit 0x04. */
  lemma VectorBitIgnored(terminateOn: bv8, lastPcValid: bool, lastPc: bv16, addr: bv16, op: bv8)
    ensures FetchCause(terminateOn | TERMINATE_ON_VECTOR, lastPcValid, lastPc, addr, op) ==
            FetchCause(terminateOn & !TERMINATE_ON_VECTOR, lastPcValid, lastPc, addr, op)
    ensures addr >= 0xFFFA && !(lastPcValid && addr == lastPc && terminateOn & TERMINATE_ON_INFINITE != 0) ==>
            (FetchCause(terminateOn, lastPcValid, lastPc, addr, op) == Some(CAUSE_VECTOR_FETCH) <==>
             terminateOn & TERMINATE_ON_ZERO != 0)
  {
  }

  /** The `termination_cause` strings of the report. */
  function CauseName(cause: bv8): (name: string)
    ensures name == "unknown" <==> cause > CAUSE_BAD_WRITE
  {
    if cause == CAUSE_LIMIT then "limit"
    else if cause == CAUSE_BRK then "brk"
    else if cause == CAUSE_INFINITE_LOOP then "infinite_loop"
    else if cause == CAUSE_ZERO_FETCH then "zero_fetch"
    else if cause == CAUSE_STACK_FETCH then "stack_fetch"
    else if cause == CAUSE_VECTOR_FETCH then "vector_fetch"
    else if cause == CAUSE_BAD_WRITE then "bad_write"
    else "unknown"
  }

  /** Reading a report name back as a cause. */
  function CauseOfName(name: string): Option<bv8>
  {
    if name == "limit" then Some(CAUSE_LIMIT)
    else if name == "brk" then Some(CAUSE_BRK)
    else if name == "infinite_loop" then Some(CAUSE_INFINITE_LOOP)
    else if name == "zero_fetch" then Some(CAUSE_ZERO_FETCH)
    else if name == "stack_fetch" then Some(CAUSE_STACK_FETCH)
    else if name == "vector_fetch" then Some(CAUSE_VECTOR_FETCH)
    else if name == "bad_write" then Some(CAUSE_BAD_WRITE)
    else None
  }

  /** The seven causes get seven distinct names; every other value is "unknown". */
  lemma CauseNameRoundTrip(cause: bv8)
    ensures cause <= CAUSE_BAD_WRITE ==> CauseOfName(CauseName(cause)) == Some(cause)
    ensures cause > CAUSE_BAD_WRITE ==> CauseName(cause) == "unknown" && CauseOfName(CauseName(cause)) == None
  {
  }

  /** The job's `terminate_on_*` booleans; `None` when the key is absent. */
  datatype TerminateFlags = TerminateFlags(
    brk: Option<bool>, infiniteLoop: Option<bool>, zeroFetch: Option<bool>,
    stackFetch: Option<bool>, vectorFetch: Option<bool>, badWrite: Option<bool>)

  /** A rule is switched off only by a present `false`. */
  function ClearIfFalse(mask: bv8, flag: Option<bool>, bit: bv8): bv8
  {
    if flag == Some(false) then mask & !bit else mask
  }

  /** `Main`'s six `terminate_on &= ...` statements. They only ever clear
      bits, and never the two unused ones. */
  function ApplyFlags(mask: bv8, f: TerminateFlags): (m: bv8)
    ensures m & mask == m
    ensures m & TERMINATE_ON_UNUSED_FLAGS == mask & TERMINATE_ON_UNUSED_FLAGS
  {
    var m := ClearIfFalse(mask, f.brk, TERMINATE_ON_BRK);
    var m := ClearIfFalse(m, f.infiniteLoop, TERMINATE_ON_INFINITE);
    var m := ClearIfFalse(m, f.zeroFetch, TERMINATE_ON_ZERO);
    var m := ClearIfFalse(m, f.stackFetch, TERMINATE_ON_STACK);
    var m := ClearIfFalse(m, f.vectorFetch, TERMINATE_ON_VECTOR);
    ClearIfFalse(m, f.badWrite, TERMINATE_ON_BAD_WRITE)
  }

  /** From the default mask, each rule stays enabled unless its key is present
      and false, and the unused bits stay clear. */
  lemma ConfiguredMask(f: TerminateFlags)
    ensures ApplyFlags(DEFAULT_TERMINATE_ON, f) & TERMINATE_ON_BRK != 0 <==> f.brk != Some(false)
    ensures ApplyFlags(DEFAULT_TERMINATE_ON, f) & TERMINATE_ON_INFINITE != 0 <==> f.infiniteLoop != Some(false)
    ensures ApplyFlags(DEFAULT_TERMINATE_ON, f) & TERMINATE_ON_ZERO != 0 <==> f.zeroFetch != Some(false)
    ensures ApplyFlags(DEFAULT_TERMINATE_ON, f) & TERMINATE_ON_STACK != 0 <==> f.stackFetch != Some(false)
    ensures ApplyFlags(DEFAULT_TERMINATE_ON, f) & TERMINATE_ON_VECTOR != 0 <==> f.vectorFetch != Some(false)
    ensures ApplyFlags(DEFAULT_TERMINATE_ON, f) & TERMINATE_ON_BAD_WRITE != 0 <==> f.badWrite != Some(false)
    ensures ApplyFlags(DEFAULT_TERMINATE_ON, f) & TERMINATE_ON_UNUSED_FLAGS == 0
  {
  }
}
