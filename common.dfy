/** Small shared vocabulary: optional values, the halt signal that replaces the
    harness's `AllDone` exception, and the unsigned 32-bit range. */
module Common {

  datatype Option<+T> = None | Some(value: T)

  /** What every bus transaction hands back to the CPU engine: carry on, or
      stop the run (the cause, if any, is already in `termination_cause`). */
  datatype Status = Continue | Halt

  /** A C# `uint`; where the harness adds to one, the wrap-around is written
      out where it happens. */
  newtype u32 = x: int | 0 <= x < 0x1_0000_0000

  /** Quotient and remainder are determined by any decomposition
      `x == q * len + r` with `0 <= r < len`. */
  lemma DivMod(x: int, len: int, q: int, r: int)
    requires len > 0 && x == q * len + r && 0 <= r < len
    ensures x / len == q && x % len == r
  {
    var q' := x / len;
    if q' > q {
      MulGap(q', q, len);
    } else if q' < q {
      MulGap(q, q', len);
    }
  }

  lemma {:induction false} MulGap(a: int, b: int, len: nat)
    requires a > b
    ensures a * len - b * len >= len
    decreases a - b
  {
    if a > b + 1 {
      MulGap(a - 1, b, len);
      assert a * len == (a - 1) * len + len;
    }
  }
}
