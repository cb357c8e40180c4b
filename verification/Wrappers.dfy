/**
 What several components use: a value that may be missing, machine words, and the sum of a row of counters.
 */
module Wrappers {
  datatype Option<+T> = None | Some(value: T)

  const ULONG := 0x1_0000_0000_0000_0000

  /** unsigned long, which wraps. */
  type Word = x: int | 0 <= x < ULONG

  function AddWords(x: Word, y: Word): Word {
    if x + y >= ULONG then x + y - ULONG else x + y
  }

  function SubtractWords(x: Word, y: Word): Word {
    if x >= y then x - y else x - y + ULONG
  }

  function Increment(x: Word): Word {
    AddWords(x, 1)
  }

  function Decrement(x: Word): Word {
    SubtractWords(x, 1)
  }

  function Sum(s: seq<int>): int {
    if s == [] then 0 else Sum(s[..|s| - 1]) + s[|s| - 1]
  }

  lemma {:induction false} SumUpdate(s: seq<int>, k: nat, x: int)
    requires k < |s|
    ensures Sum(s[k := x]) == Sum(s) - s[k] + x
  {
    var n := |s| - 1;
    if k == n {
      assert s[k := x][..n] == s[..n];
    } else {
      assert s[k := x][..n] == s[..n][k := x];
      SumUpdate(s[..n], k, x);
    }
  }

  lemma {:induction false} SumOfZeros(s: seq<int>)
    requires forall k :: 0 <= k < |s| ==> s[k] == 0
    ensures Sum(s) == 0
  {
    if s != [] {
      SumOfZeros(s[..|s| - 1]);
    }
  }
}
