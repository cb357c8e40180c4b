/**
 The load averages: one CALC_LOAD step in fixed point, and what happens when it is repeated under a steady load.
 */
module LoadAverage {
  import opened Wrappers

  const FIXED_1 := 2048
  const EXP_1 := 1884
  const EXP_5 := 2014
  const EXP_15 := 2037

  type Weight = x: int | 0 < x < FIXED_1 witness 1

  /** The step without wrapping: the weighted mean of load and n, rounded down. */
  function Mean(load: nat, exp: Weight, n: nat): nat {
    NotNegative(load, exp);
    NotNegative(n, FIXED_1 - exp);
    (load * exp + n * (FIXED_1 - exp)) / FIXED_1
  }

  lemma NotNegative(x: nat, y: nat)
    ensures x * y >= 0
  {
  }

  /** CALC_LOAD, in an unsigned long. */
  method CalcLoad(load: Word, exp: Weight, n: Word) returns (r: Word)
    ensures r == (load * exp + n * (FIXED_1 - exp)) % ULONG / FIXED_1
    ensures r == Mean(load, exp, n) <==> load * exp + n * (FIXED_1 - exp) < ULONG
    ensures load < ULONG / FIXED_1 && n < ULONG / FIXED_1 ==> r == Mean(load, exp, n)
  {
    NotNegative(load, exp);
    NotNegative(n, FIXED_1 - exp);
    SumIsBounded(load, exp, n);
    r := WrappedMean(load * exp, n * (FIXED_1 - exp));
  }

  /** The arithmetic of CALC_LOAD on the two products: each step wraps. */
  method WrappedMean(x: nat, y: nat) returns (r: Word)
    ensures r == (x + y) % ULONG / FIXED_1
    ensures r == (x + y) / FIXED_1 <==> x + y < ULONG
  {
    ModAdds(x, y);
    var load := x % ULONG;
    load := (load + y % ULONG) % ULONG;
    r := load / FIXED_1;
  }

  lemma ModAdds(x: nat, y: nat)
    ensures (x % ULONG + y % ULONG) % ULONG == (x + y) % ULONG
  {
    assert x == x / ULONG * ULONG + x % ULONG;
    assert y == y / ULONG * ULONG + y % ULONG;
  }

  // ---------- one step ----------

  /** No intermediate value exceeds 2048 times the larger of load and target. */
  lemma SumIsBounded(load: nat, exp: Weight, n: nat)
    ensures load * exp <= FIXED_1 * (if load > n then load else n)
    ensures load * exp + n * (FIXED_1 - exp) <= FIXED_1 * (if load > n then load else n)
  {
    var m := if load > n then load else n;
    Monotone(load, m, exp);
    Monotone(n, m, FIXED_1 - exp);
    assert m * exp + m * (FIXED_1 - exp) == m * FIXED_1;
  }

  lemma Monotone(x: nat, y: nat, f: nat)
    requires x <= y
    ensures x * f <= y * f
  {
  }

  /** Above the target, the distance shrinks to exp/2048 of itself, rounded down. */
  lemma FromAbove(d: nat, exp: Weight, n: nat)
    ensures Mean(n + d, exp, n) == n + d * exp / FIXED_1
    ensures d > 0 ==> n <= Mean(n + d, exp, n) < n + d
  {
    assert (n + d) * exp + n * (FIXED_1 - exp) == n * FIXED_1 + d * exp;
    assert (n * FIXED_1 + d * exp) / FIXED_1 == n + d * exp / FIXED_1;
    assert d * exp <= d * FIXED_1 by { Monotone(exp, FIXED_1, d); }
    if d > 0 {
      assert d * (FIXED_1 - exp) > 0;
      assert d * exp + d * (FIXED_1 - exp) == d * FIXED_1;
    }
  }

  /** Below it, rounding keeps the average back: it only moves while the distance is big enough. */
  lemma FromBelow(d: nat, exp: Weight, n: nat)
    requires d <= n
    ensures n - d <= Mean(n - d, exp, n) <= n
    ensures Mean(n - d, exp, n) > n - d <==> d * (FIXED_1 - exp) >= FIXED_1
  {
    var x := (n - d) * exp + n * (FIXED_1 - exp);
    assert x == (n - d) * FIXED_1 + d * (FIXED_1 - exp);
    assert x / FIXED_1 == n - d + d * (FIXED_1 - exp) / FIXED_1;
    assert d * (FIXED_1 - exp) <= d * FIXED_1 by { Monotone(FIXED_1 - exp, FIXED_1, d); }
  }

  /** Where the average stays: at the target, or less than 2048/(2048-exp) short of it. */
  predicate Settled(load: nat, exp: Weight, n: nat) {
    load == n || (load < n && (n - load) * (FIXED_1 - exp) < FIXED_1)
  }

  lemma FixedPoints(load: nat, exp: Weight, n: nat)
    ensures Mean(load, exp, n) == load <==> Settled(load, exp, n)
  {
    if load >= n {
      FromAbove(load - n, exp, n);
    } else {
      FromBelow(n - load, exp, n);
    }
  }

  // ---------- a steady load ----------

  function Repeat(load: nat, exp: Weight, n: nat, times: nat): nat
    decreases times
  {
    if times == 0 then load else Repeat(Mean(load, exp, n), exp, n, times - 1)
  }

  /** It never passes the target, from either side. */
  lemma {:induction false} NeverOvershoots(load: nat, exp: Weight, n: nat, times: nat)
    ensures load >= n ==> n <= Repeat(load, exp, n, times) <= load
    ensures load <= n ==> load <= Repeat(load, exp, n, times) <= n
    decreases times
  {
    if times > 0 {
      if load >= n {
        FromAbove(load - n, exp, n);
      } else {
        FromBelow(n - load, exp, n);
      }
      NeverOvershoots(Mean(load, exp, n), exp, n, times - 1);
    }
  }

  /** From above it reaches the target, from below it settles; in as many steps as it was away at most. */
  lemma {:induction false} Settles(load: nat, exp: Weight, n: nat, times: nat)
    requires times >= (if load > n then load - n else n - load)
    ensures Settled(Repeat(load, exp, n, times), exp, n)
    ensures load >= n ==> Repeat(load, exp, n, times) == n
    decreases times
  {
    FixedPoints(load, exp, n);
    if times > 0 {
      if load >= n {
        FromAbove(load - n, exp, n);
        Settles(Mean(load, exp, n), exp, n, times - 1);
      } else if Settled(load, exp, n) {
        Stays(load, exp, n, times);
      } else {
        FromBelow(n - load, exp, n);
        Settles(Mean(load, exp, n), exp, n, times - 1);
      }
    }
  }

  lemma {:induction false} Stays(load: nat, exp: Weight, n: nat, times: nat)
    requires Settled(load, exp, n)
    ensures Repeat(load, exp, n, times) == load
    decreases times
  {
    FixedPoints(load, exp, n);
    if times > 0 {
      Stays(load, exp, n, times - 1);
    }
  }

  /** For the three averages: how far below a steady load each may stay for ever. */
  lemma HowFarShort(load: nat, n: nat)
    requires load < n
    ensures Settled(load, EXP_1, n) <==> n - load <= 12
    ensures Settled(load, EXP_5, n) <==> n - load <= 60
    ensures Settled(load, EXP_15, n) <==> n - load <= 186
  {
  }
}
