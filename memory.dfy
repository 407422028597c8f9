/** The 64K address space: the writable ranges (`class Range`) and the
    initial image `write_init_records` lays down. */
module Memory {
  import opened Common

  const MEMORY_SIZE := 0x10000

  /** An inclusive range of writable addresses. */
  datatype Range = Range(beg: bv16, end: bv16)
  {
    predicate Contains(addr: bv16)
    {
      addr >= beg && addr <= end
    }
  }

  /** The writable range used when the job has no `rwmap`. */
  const DEFAULT_RANGE := Range(0x0000, 0x01FF)

  /** The default map makes exactly the zero page and the stack page writable. */
  lemma DefaultRangeContents(addr: bv16)
    ensures DEFAULT_RANGE.Contains(addr) <==> addr < 0x0200
  {
  }

  /** Some range admits the address (membership is existential: ranges may
      overlap and their order does not matter). */
  ghost predicate Writable(ranges: seq<Range>, addr: bv16)
  {
    exists i :: 0 <= i < |ranges| && ranges[i].Contains(addr)
  }

  /** The `foreach ... break` search of `HandleWrite`. */
  method FindRange(ranges: seq<Range>, addr: bv16) returns (valid: bool)
    ensures valid <==> Writable(ranges, addr)
  {
    valid := false;
    var n := 0;
    while n < |ranges|
      invariant 0 <= n <= |ranges|
      invariant forall i :: 0 <= i < n ==> !ranges[i].Contains(addr)
    {
      if ranges[n].Contains(addr) {
        valid := true;
        break;
      }
      n := n + 1;
    }
  }

  /** One `init` record: where it starts, its decoded bytes, and its optional
      `size`. */
  datatype InitRecord = InitRecord(base: bv16, data: seq<bv8>, size: Option<u32>)

  /** How many bytes a record writes: `size` if given, else the data length. */
  function RecordLength(r: InitRecord): nat
  {
    if r.size.Some? then r.size.value as int else |r.data|
  }

  /** Memory after the first `m` writes of a fill: write `n` puts
      `data[n % |data|]` at address `(base + n) % 65536`, so the data repeats
      and the address wraps past 0xFFFF. */
  function Filled(s: seq<bv8>, base: int, data: seq<bv8>, m: nat): (r: seq<bv8>)
    requires |data| > 0 && |s| == MEMORY_SIZE
    ensures |r| == MEMORY_SIZE
  {
    if m == 0 then s
    else Filled(s, base, data, m - 1)[Target(base, m - 1) := data[(m - 1) % |data|]]
  }

  /** The address of write number `k` of a fill starting at `base`. */
  function Target(base: int, k: int): int
  {
    (base + k) % MEMORY_SIZE
  }

  /** The last write to an address decides its final value. */
  lemma {:induction false} FilledLastWrite(s: seq<bv8>, base: int, data: seq<bv8>, m: nat, n: nat)
    requires |data| > 0 && |s| == MEMORY_SIZE
    requires n < m
    requires forall k :: n < k < m ==> Target(base, k) != Target(base, n)
    ensures Filled(s, base, data, m)[Target(base, n)] == data[n % |data|]
  {
    if n < m - 1 {
      FilledLastWrite(s, base, data, m - 1, n);
    }
  }

  /** An address no write reaches keeps its old value. */
  lemma {:induction false} FilledUntouched(s: seq<bv8>, base: int, data: seq<bv8>, m: nat, a: int)
    requires |data| > 0 && |s| == MEMORY_SIZE && 0 <= a < MEMORY_SIZE
    requires forall k :: 0 <= k < m ==> Target(base, k) != a
    ensures Filled(s, base, data, m)[a] == s[a]
  {
    if m > 0 {
      FilledUntouched(s, base, data, m - 1, a);
    }
  }

  /** A fill of at most 64K bytes: the `d`-th address after `base` holds
      `data[d % |data|]` if `d < m`, and is unchanged otherwise. */
  lemma FilledOneLap(s: seq<bv8>, base: int, data: seq<bv8>, m: nat, d: int)
    requires |data| > 0 && |s| == MEMORY_SIZE && m <= MEMORY_SIZE && 0 <= d < MEMORY_SIZE
    ensures Filled(s, base, data, m)[Target(base, d)] ==
            if d < m then data[d % |data|] else s[Target(base, d)]
  {
    if d < m {
      forall k | d < k < m ensures Target(base, k) != Target(base, d) {
        ModDistinct(base, d, k);
      }
      FilledLastWrite(s, base, data, m, d);
    } else {
      forall k | 0 <= k < m ensures Target(base, k) != Target(base, d) {
        ModDistinct(base, k, d);
      }
      FilledUntouched(s, base, data, m, Target(base, d));
    }
  }

  lemma ModDistinct(base: int, d: int, k: int)
    requires 0 <= d < k < MEMORY_SIZE
    ensures Target(base, k) != Target(base, d)
  {
  }

  /** The data cursor `j` of the fill loop stays equal to the write count
      modulo the data length. */
  lemma ModNext(m: nat, len: nat)
    requires len > 0
    ensures (m + 1) % len == if m % len + 1 >= len then 0 else m % len + 1
  {
    var q, r := m / len, m % len;
    assert m == q * len + r;
    if r + 1 < len {
      DivMod(m + 1, len, q, r + 1);
    } else {
      assert m + 1 == (q + 1) * len;
      DivMod(m + 1, len, q + 1, 0);
    }
  }

  /** The fill loop of `write_init_records` for one record: `sram[i++] =
      data[j++]` with the 16-bit index `i` wrapping and `j` going back to 0 at
      the end of the data, `rem` times. */
  method FillRecord(sram: array<bv8>, start: int, data: seq<bv8>, rem: nat)
    requires sram.Length == MEMORY_SIZE && |data| > 0 && 0 <= start < MEMORY_SIZE
    modifies sram
    ensures sram[..] == Filled(old(sram[..]), start, data, rem)
  {
    ghost var s0 := old(sram[..]);
    var i: int := start;
    var j := 0;
    var left: nat := rem;
    ghost var m := 0;
    while left > 0
      invariant left + m == rem
      invariant i == Target(start, m)
      invariant j == m % |data|
      invariant sram[..] == Filled(s0, start, data, m)
    {
      left := left - 1;
      ghost var before := sram[..];
      sram[i] := data[j];
      assert sram[..] == before[i := data[j]];
      assert sram[..] == Filled(s0, start, data, m + 1);
      i := (i + 1) % MEMORY_SIZE;
      j := j + 1;
      if j >= |data| {
        j := 0;
      }
      ModNext(m, |data|);
      TargetNext(start, m);
      m := m + 1;
    }
  }

  /** The 16-bit address register steps by one and wraps. */
  lemma TargetNext(base: int, m: nat)
    ensures Target(base, m + 1) == (Target(base, m) + 1) % MEMORY_SIZE
  {
    var x := base + m;
    var q, r := x / MEMORY_SIZE, x % MEMORY_SIZE;
    if r + 1 < MEMORY_SIZE {
      DivMod(x + 1, MEMORY_SIZE, q, r + 1);
    } else {
      DivMod(x + 1, MEMORY_SIZE, q + 1, 0);
    }
  }

  /** Every record decodes to at least one byte. */
  predicate AllNonEmpty(records: seq<InitRecord>)
  {
    forall k :: 0 <= k < |records| ==> |records[k].data| > 0
  }

  /** Memory after laying down `records` in order onto `s`. */
  function InitImage(s: seq<bv8>, records: seq<InitRecord>): (r: seq<bv8>)
    requires |s| == MEMORY_SIZE
    requires AllNonEmpty(records)
    ensures |r| == MEMORY_SIZE
  {
    if records == [] then s
    else
      var last := records[|records| - 1];
      Filled(InitImage(s, records[..|records| - 1]), last.base as int, last.data, RecordLength(last))
  }

  /** Laying down one more record fills it over the image of the ones before. */
  lemma InitImageStep(s: seq<bv8>, records: seq<InitRecord>, n: nat)
    requires |s| == MEMORY_SIZE && n < |records|
    requires forall k :: 0 <= k <= n ==> |records[k].data| > 0
    ensures AllNonEmpty(records[..n]) && AllNonEmpty(records[..n + 1])
    ensures InitImage(s, records[..n + 1]) ==
            Filled(InitImage(s, records[..n]), records[n].base as int, records[n].data, RecordLength(records[n]))
  {
    assert records[..n + 1][..n] == records[..n];
  }

  /** `write_init_records`: fill each record in turn; a record whose data
      decodes to nothing aborts setup. */
  method WriteInitRecords(sram: array<bv8>, records: seq<InitRecord>) returns (ok: bool)
    requires sram.Length == MEMORY_SIZE
    modifies sram
    ensures ok <==> AllNonEmpty(records)
    ensures ok ==> sram[..] == InitImage(old(sram[..]), records)
  {
    for n := 0 to |records|
      invariant forall k :: 0 <= k < n ==> |records[k].data| > 0
      invariant sram[..] == InitImage(old(sram[..]), records[..n])
    {
      var record := records[n];
      if |record.data| == 0 {
        return false;
      }
      var rem := RecordLength(record);
      FillRecord(sram, record.base as int, record.data, rem);
      InitImageStep(old(sram[..]), records, n);
    }
    assert records[..|records|] == records;
    ok := true;
  }
}
