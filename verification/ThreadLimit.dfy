/**
 The limit on threads: how it is computed from the memory, and how far forks that check it together can pass it.
 */
module ThreadLimit {
  import opened Wrappers

  const MIN_THREADS := 20
  const MAX_THREADS := 0x3fff_ffff     // FUTEX_TID_MASK

  // ---------- the overflow guard ----------

  function Pow2(k: nat): nat {
    if k == 0 then 1 else 2 * Pow2(k - 1)
  }

  /** fls64: the number of the highest bit set, counted from 1. */
  function Fls64(x: nat): (bits: nat)
    ensures x < Pow2(bits)
    ensures bits > 0 ==> Pow2(bits - 1) <= x
  {
    if x == 0 then 0 else 1 + Fls64(x / 2)
  }

  lemma {:induction false} Pow2Adds(a: nat, b: nat)
    ensures Pow2(a + b) == Pow2(a) * Pow2(b)
    decreases a
  {
    if a > 0 {
      Pow2Adds(a - 1, b);
      assert 2 * (Pow2(a - 1) * Pow2(b)) == 2 * Pow2(a - 1) * Pow2(b);
    }
  }

  lemma {:induction false} Pow2Grows(a: nat, b: nat)
    requires a <= b
    ensures Pow2(a) <= Pow2(b)
    decreases b
  {
    if a < b {
      Pow2Grows(a, b - 1);
    }
  }

  lemma Pow2Of64()
    ensures Pow2(63) == 0x8000_0000_0000_0000 && Pow2(64) == ULONG
  {
    assert Pow2(16) == 0x1_0000 by { assert Pow2(8) == 0x100; }
    Pow2Adds(16, 16);
    Pow2Adds(32, 32);
  }

  lemma Products(x: nat, x': nat, y: nat, y': nat)
    requires x <= x' && y <= y'
    ensures x * y <= x' * y'
  {
    assert x * y <= x' * y;
    assert x' * y <= x' * y';
  }

  /** Where the guard lets a product through, it fits; where it does not, the product is at least 2^63. */
  lemma GuardIsSafe(x: nat, y: nat)
    ensures Fls64(x) + Fls64(y) <= 64 ==> x * y < ULONG
    ensures x < ULONG && y < ULONG && Fls64(x) + Fls64(y) > 64 ==> x * y >= ULONG / 2
  {
    var a, b := Fls64(x), Fls64(y);
    Pow2Of64();
    if a + b <= 64 {
      Pow2Adds(a, b);
      Pow2Grows(a + b, 64);
      if x > 0 && y > 0 {
        Products(x + 1, Pow2(a), y + 1, Pow2(b));
        assert (x + 1) * (y + 1) == x * y + x + y + 1;
      }
    } else if x < ULONG && y < ULONG {
      AtMost64(x);
      AtMost64(y);
      Pow2Adds(a - 1, b - 1);
      Products(Pow2(a - 1), x, Pow2(b - 1), y);
      Pow2Grows(63, a + b - 2);
    }
  }

  lemma AtMost64(x: nat)
    requires x < ULONG
    ensures Fls64(x) <= 64
  {
    Pow2Of64();
    if Fls64(x) > 64 {
      Pow2Grows(64, Fls64(x) - 1);
    }
  }

  // ---------- set_max_threads ----------

  function Min(x: int, y: int): int { if x < y then x else y }

  function Clamp(x: int, lo: int, hi: int): int {
    if x < lo then lo else if x > hi then hi else x
  }

  /** The limit that the comment in the source describes, with numbers of any size; eight stacks take size bytes. */
  function Intended(memory: nat, size: nat, suggested: nat): int
    requires size > 0
  {
    Clamp(Min(memory / size, suggested), MIN_THREADS, MAX_THREADS)
  }

  /** set_max_threads. */
  method SetMaxThreads(pages: Word, pageSize: Word, threadSize: Word, suggested: nat) returns (maxThreads: int)
    requires 0 < threadSize < ULONG / 8
    ensures pages * pageSize >= 0 && MIN_THREADS <= maxThreads <= MAX_THREADS
    ensures Fls64(pages) + Fls64(pageSize) > 64 ==> maxThreads == Clamp(suggested, MIN_THREADS, MAX_THREADS)
    ensures maxThreads == Intended(pages * pageSize, threadSize * 8, suggested) <==>
      (|| Fls64(pages) + Fls64(pageSize) <= 64
       || suggested <= MIN_THREADS
       || pages * pageSize / (threadSize * 8) >= Min(suggested, MAX_THREADS))
    ensures maxThreads > MIN_THREADS ==>
      (maxThreads * (threadSize * 8) <= pages * pageSize <==>
         maxThreads == Intended(pages * pageSize, threadSize * 8, suggested))
    ensures threadSize <= 0x4000_0000 ==> maxThreads == Intended(pages * pageSize, threadSize * 8, suggested)
  {
    GuardIsSafe(pages, pageSize);
    Products(0, pages, 0, pageSize);
    maxThreads := Limit(Fls64(pages) + Fls64(pageSize) > 64, pages * pageSize, threadSize * 8, suggested);
  }

  /** Its arithmetic, on the two products: large says that the first may not fit. */
  method Limit(large: bool, memory: nat, size: Word, suggested: nat) returns (maxThreads: int)
    requires size > 0 && if large then memory >= ULONG / 2 else memory < ULONG
    ensures MIN_THREADS <= maxThreads <= MAX_THREADS
    ensures large ==> maxThreads == Clamp(suggested, MIN_THREADS, MAX_THREADS)
    ensures maxThreads == Intended(memory, size, suggested) <==>
      (!large || suggested <= MIN_THREADS || memory / size >= Min(suggested, MAX_THREADS))
    ensures maxThreads > MIN_THREADS ==>
      (maxThreads * size <= memory <==> maxThreads == Intended(memory, size, suggested))
    ensures size <= 0x2_0000_0000 ==> maxThreads == Intended(memory, size, suggested)
  {
    var threads: int;
    if large {
      threads := MAX_THREADS;
      if size <= 0x2_0000_0000 {
        FitsMany(memory, size);
      }
    } else {
      threads := memory % ULONG / size;
    }
    if threads > suggested {
      threads := suggested;
    }
    maxThreads := Clamp(threads, MIN_THREADS, MAX_THREADS);
    FitMeansFits(memory, size, maxThreads);
    Clamping(memory / size, suggested);
  }

  lemma Clamping(q: int, suggested: nat)
    ensures Clamp(Min(MAX_THREADS, suggested), MIN_THREADS, MAX_THREADS) == Clamp(suggested, MIN_THREADS, MAX_THREADS)
    ensures Clamp(suggested, MIN_THREADS, MAX_THREADS) == Clamp(Min(q, suggested), MIN_THREADS, MAX_THREADS) <==>
            suggested <= MIN_THREADS || q >= Min(suggested, MAX_THREADS)
    ensures Clamp(suggested, MIN_THREADS, MAX_THREADS) > MIN_THREADS ==>
            (Clamp(suggested, MIN_THREADS, MAX_THREADS) <= q <==> q >= Min(suggested, MAX_THREADS))
  {
  }

  lemma FitMeansFits(memory: nat, size: nat, count: int)
    requires size > 0
    ensures count * size <= memory <==> count <= memory / size
  {
    var q := memory / size;
    assert q * size <= memory < (q + 1) * size;
    if count <= q {
      assert count * size <= q * size;
    } else {
      assert (q + 1) * size <= count * size;
    }
  }

  lemma FitsMany(memory: nat, size: nat)
    requires memory >= ULONG / 2 && 0 < size <= 0x2_0000_0000
    ensures memory / size >= MAX_THREADS
  {
    FitMeansFits(memory, size, MAX_THREADS);
  }

  lemma {:induction false} BitsOfPow2(k: nat)
    ensures Fls64(Pow2(k)) == k + 1
  {
    if k > 0 {
      BitsOfPow2(k - 1);
      assert Pow2(k) / 2 == Pow2(k - 1);
    }
  }

  /**
   With stacks of 2 GB the branch for large memories allows too many: 2^51 pages of 4 KB hold fewer than
   an eighth of what 2^30 - 1 stacks take.
   */
  method HugeStacksOverrun() returns (maxThreads: int)
    ensures maxThreads == MAX_THREADS
    ensures maxThreads * (0x8000_0000 * 8) > 0x8_0000_0000_0000 * 0x1000
    ensures maxThreads != Intended(0x8000_0000_0000_0000, 0x8000_0000 * 8, MAX_THREADS)
  {
    Pow2Of64();
    Pow2Adds(51, 12);
    Pow2Adds(39, 12);
    BitsOfPow2(51);
    BitsOfPow2(12);
    assert Pow2(12) == 0x1000 by { assert Pow2(6) == 64; }
    assert Pow2(51) * 0x1000 == 0x8000_0000_0000_0000;
    maxThreads := SetMaxThreads(0x8_0000_0000_0000, 0x1000, 0x8000_0000, MAX_THREADS);
  }

  // ---------- forks that check the limit together ----------

  /** nr_threads, and how many forks are between their look at the limit and their end. */
  datatype Load = Load(threads: nat, inFlight: nat)

  datatype Step = Check | Link | Fail | Unhash

  predicate Enabled(s: Load, step: Step, limit: int, callers: nat) {
    match step
    case Check => s.threads < limit && s.inFlight < callers
    case Link => s.inFlight > 0
    case Fail => s.inFlight > 0
    case Unhash => s.threads > 0
  }

  function Next(s: Load, step: Step, limit: int, callers: nat): Load
    requires Enabled(s, step, limit, callers)
  {
    match step
    case Check => Load(s.threads, s.inFlight + 1)
    case Link => Load(s.threads + 1, s.inFlight - 1)
    case Fail => Load(s.threads, s.inFlight - 1)
    case Unhash => Load(s.threads - 1, s.inFlight)
  }

  predicate CanRun(s: Load, steps: seq<Step>, limit: int, callers: nat)
    decreases |steps|
  {
    steps == [] ||
    (Enabled(s, steps[0], limit, callers) && CanRun(Next(s, steps[0], limit, callers), steps[1..], limit, callers))
  }

  function Run(s: Load, steps: seq<Step>, limit: int, callers: nat): Load
    requires CanRun(s, steps, limit, callers)
    decreases |steps|
  {
    if steps == [] then s else Run(Next(s, steps[0], limit, callers), steps[1..], limit, callers)
  }

  /** At most K callers past the check push the count no further than K - 1 beyond the limit. */
  lemma {:induction false} LimitHolds(s: Load, steps: seq<Step>, limit: int, callers: nat)
    requires CanRun(s, steps, limit, callers)
    requires s.threads + s.inFlight <= limit - 1 + callers
    ensures Run(s, steps, limit, callers).threads + Run(s, steps, limit, callers).inFlight <= limit - 1 + callers
    decreases |steps|
  {
    if steps != [] {
      LimitHolds(Next(s, steps[0], limit, callers), steps[1..], limit, callers);
    }
  }

  function Times(step: Step, n: nat): seq<Step> {
    if n == 0 then [] else [step] + Times(step, n - 1)
  }

  lemma {:induction false} RunTimes(s: Load, step: Step, n: nat, rest: seq<Step>, limit: int, callers: nat)
    requires step == Check ==> s.threads < limit && s.inFlight + n <= callers
    requires step == Link ==> s.inFlight >= n
    requires step == Check || step == Link
    ensures var after := if step == Check then Load(s.threads, s.inFlight + n) else Load(s.threads + n, s.inFlight - n);
            CanRun(after, rest, limit, callers) ==>
              CanRun(s, Times(step, n) + rest, limit, callers)
              && Run(s, Times(step, n) + rest, limit, callers) == Run(after, rest, limit, callers)
    decreases n
  {
    if n == 0 {
      assert Times(step, 0) + rest == rest;
    } else {
      assert (Times(step, n) + rest)[1..] == Times(step, n - 1) + rest;
      RunTimes(Next(s, step, limit, callers), step, n - 1, rest, limit, callers);
    }
  }

  /** And K callers can get there: all look one short of the limit, then all link. */
  lemma LimitIsReached(limit: int, callers: nat) returns (s: Load, steps: seq<Step>)
    requires limit > 0
    ensures s == Load(limit - 1, 0) && CanRun(s, steps, limit, callers)
    ensures Run(s, steps, limit, callers).threads == limit - 1 + callers
  {
    s := Load(limit - 1, 0);
    steps := Times(Check, callers) + (Times(Link, callers) + []);
    RunTimes(Load(limit - 1, callers), Link, callers, [], limit, callers);
    RunTimes(s, Check, callers, Times(Link, callers) + [], limit, callers);
  }
}
