/**
 Reference counts over whole runs.  Tasks share descriptor tables, fs structures, signal handlers and
 address spaces; forks, exits, unshares and explicit getters of any number of tasks interleave, one
 atomic or locked step at a time, in any order.
 */
module Sharing {
  import opened Wrappers

  datatype Kind = FilesK | FsK | SighandK | MmK

  /**
   A shared structure: its count (mm_users for an address space), how many of that are explicit getters,
   and for an address space mm_count and the lazy holders in it.
   */
  datatype Obj = Obj(kind: Kind, count: nat, getters: nat, structCount: nat, lazy: nat)

  datatype Event = TearDown(r: nat) | Free(r: nat)

  /**
   held says what each task holds; pending what an unshare holds for a task on top of that: a copy that is
   not yet installed, or a descriptor table that is no longer.  Structures are numbered in order of
   allocation, and log is what has been torn down and freed so far.
   */
  datatype State = State(
    objs: seq<Obj>,
    held: map<(nat, Kind), nat>,
    pending: map<(nat, Kind), nat>,
    log: seq<Event>)

  // ---------- steps ----------

  datatype Step =
    | First(task: nat, kind: Kind)                                  // a structure made at boot
    | Take(parent: nat, child: nat, kind: Kind, share: bool)        // copy_files, copy_fs, copy_sighand, copy_mm
    | Drop(task: nat, kind: Kind)                                   // exit_files, exit_fs, __cleanup_sighand, mmput
    | Copy(task: nat, kind: Kind)                                   // unshare_fs, unshare_fd
    | Swap(task: nat, kind: Kind)                                   // the locked swap in unshare and unshare_files
    | Abandon(task: nat, kind: Kind)                                // the cleanup at the end of unshare
    | Get(task: nat, kind: Kind)                                    // get_task_mm and its like
    | GetNotZero(r: nat)                                            // mmget_not_zero
    | Put(r: nat)                                                   // a getter's put
    | Grab(r: nat)                                                  // a lazy reference to mm_count
    | LazyDrop(r: nat)                                              // mmdrop

  function NewObj(kind: Kind): Obj {
    Obj(kind, 1, 0, if kind == MmK then 1 else 0, 0)
  }

  /**
   One holder fewer.  The last one frees the structure, or tears an address space down, which drops the
   users' share of mm_count, and frees it unless someone holds it lazily.
   */
  function Release(s: State, r: nat): State
    requires r < |s.objs| && s.objs[r].count > 0
  {
    var o := s.objs[r];
    if o.count > 1 then
      s.(objs := s.objs[r := o.(count := o.count - 1)])
    else if o.kind != MmK then
      s.(objs := s.objs[r := o.(count := 0)], log := s.log + [Free(r)])
    else if o.structCount > 1 then
      s.(objs := s.objs[r := o.(count := 0, structCount := o.structCount - 1)], log := s.log + [TearDown(r)])
    else
      s.(objs := s.objs[r := o.(count := 0, structCount := 0)], log := s.log + [TearDown(r), Free(r)])
  }

  function Acquire(s: State, r: nat): State
    requires r < |s.objs|
  {
    s.(objs := s.objs[r := s.objs[r].(count := s.objs[r].count + 1)])
  }

  /** Signal handlers and address spaces are never unshared while others use them. */
  predicate Unshared(k: Kind) {
    k == FilesK || k == FsK
  }

  /** Whether the code could take the step here at all. */
  predicate Enabled(s: State, step: Step) {
    match step
    case First(t, k) => (t, k) !in s.held && (t, k) !in s.pending
    case Take(p, c, k, share) => (p, k) in s.held && (c, k) !in s.held && (c, k) !in s.pending && p != c
    case Drop(t, k) => (t, k) in s.held && (t, k) !in s.pending
    case Copy(t, k) =>
      // the unlocked check: a structure that seems unshared is left alone
      && Unshared(k) && (t, k) in s.held
      && (t, k) !in s.pending && s.held[(t, k)] < |s.objs| && s.objs[s.held[(t, k)]].count != 1
    case Swap(t, k) => Unshared(k) && (t, k) in s.pending && (t, k) in s.held
    case Abandon(t, k) => (t, k) in s.pending
    case Get(t, k) => (t, k) in s.held
    case GetNotZero(r) => r < |s.objs| && s.objs[r].kind == MmK && s.objs[r].structCount > 0
    case Put(r) => r < |s.objs| && s.objs[r].getters > 0
    case Grab(r) => r < |s.objs| && s.objs[r].kind == MmK && s.objs[r].structCount > 0
    case LazyDrop(r) => r < |s.objs| && s.objs[r].lazy > 0
  }

  /** The references that the state keeps point to structures, and no count runs below zero. */
  predicate Sound(s: State) {
    && (forall h :: h in s.held ==> s.held[h] < |s.objs| && s.objs[s.held[h]].count > 0)
    && (forall h :: h in s.pending ==> s.pending[h] < |s.objs| && s.objs[s.pending[h]].count > 0)
    && (forall r :: 0 <= r < |s.objs| ==>
          s.objs[r].getters <= s.objs[r].count && s.objs[r].lazy <= s.objs[r].structCount)
  }

  /** What is held and what is pending change places. */
  function Exchange(s: State, h: (nat, Kind)): State
    requires h in s.held && h in s.pending
  {
    s.(held := s.held[h := s.pending[h]], pending := s.pending[h := s.held[h]])
  }

  function Next(s: State, step: Step): State
    requires Enabled(s, step) && Sound(s)
  {
    match step
    case First(t, k) =>
      s.(objs := s.objs + [NewObj(k)], held := s.held[(t, k) := |s.objs|])
    case Take(p, c, k, share) =>
      var r := s.held[(p, k)];
      if share then Acquire(s, r).(held := s.held[(c, k) := r])
      else s.(objs := s.objs + [NewObj(k)], held := s.held[(c, k) := |s.objs|])
    case Drop(t, k) =>
      Release(s.(held := s.held - {(t, k)}), s.held[(t, k)])
    case Copy(t, k) =>
      s.(objs := s.objs + [NewObj(k)], pending := s.pending[(t, k) := |s.objs|])
    case Swap(t, k) =>
      if k == FilesK then Exchange(s, (t, k))     // the old table is put after the locks are dropped
      else Release(s.(held := s.held[(t, k) := s.pending[(t, k)]], pending := s.pending - {(t, k)}), s.held[(t, k)])
    case Abandon(t, k) =>
      Release(s.(pending := s.pending - {(t, k)}), s.pending[(t, k)])
    case Get(t, k) =>
      var r := s.held[(t, k)];
      var o := s.objs[r];
      s.(objs := s.objs[r := o.(count := o.count + 1, getters := o.getters + 1)])
    case GetNotZero(r) =>
      var o := s.objs[r];
      if o.count == 0 then s else s.(objs := s.objs[r := o.(count := o.count + 1, getters := o.getters + 1)])
    case Put(r) =>
      var o := s.objs[r];
      Release(s.(objs := s.objs[r := o.(getters := o.getters - 1)]), r)
    case Grab(r) =>
      var o := s.objs[r];
      s.(objs := s.objs[r := o.(structCount := o.structCount + 1, lazy := o.lazy + 1)])
    case LazyDrop(r) =>
      var o := s.objs[r];
      var s' := s.(objs := s.objs[r := o.(structCount := o.structCount - 1, lazy := o.lazy - 1)]);
      if o.structCount == 1 then s'.(log := s.log + [Free(r)]) else s'
  }

  // ---------- the invariant ----------

  /** The tasks that hold r, and those whose pending copy it is. */
  function Holders(m: map<(nat, Kind), nat>, r: nat): set<(nat, Kind)> {
    set h | h in m && m[h] == r
  }

  /** n holders are counted for r, and that number decides what has been torn down and freed. */
  predicate CountedAs(s: State, r: nat, n: int)
    requires r < |s.objs|
  {
    var o := s.objs[r];
    && o.count == n
    && (o.kind == MmK ==> o.structCount == o.lazy + if o.count > 0 then 1 else 0)
    && (o.kind != MmK ==> o.structCount == o.lazy == 0)
    && Count(s.log, Free(r)) == (if Alive(o) then 0 else 1)
    && Count(s.log, TearDown(r)) == (if o.kind == MmK && o.count == 0 then 1 else 0)
  }

  /** The count of r is what its holders add up to: tasks, pending copies and explicit getters. */
  predicate Counted(s: State, r: nat)
    requires r < |s.objs|
  {
    CountedAs(s, r, |Holders(s.held, r)| + |Holders(s.pending, r)| + s.objs[r].getters)
  }

  predicate Alive(o: Obj) {
    if o.kind == MmK then o.structCount > 0 else o.count > 0
  }

  function Count(log: seq<Event>, e: Event): nat {
    multiset(log)[e]
  }

  /** In the log, the teardown of an address space comes before its end. */
  predicate TornBeforeFreed(objs: seq<Obj>, log: seq<Event>) {
    forall i :: 0 <= i < |log| && log[i].Free? && log[i].r < |objs| && objs[log[i].r].kind == MmK ==>
      TearDown(log[i].r) in log[..i]
  }

  predicate Typed(objs: seq<Obj>, m: map<(nat, Kind), nat>) {
    forall h :: h in m ==> m[h] < |objs| && objs[m[h]].kind == h.1
  }

  predicate Inv(s: State) {
    && (forall r :: 0 <= r < |s.objs| ==> Counted(s, r))
    && Typed(s.objs, s.held) && Typed(s.objs, s.pending)
    && (forall e :: e in s.log ==> e.r < |s.objs|)
    && TornBeforeFreed(s.objs, s.log)
  }

  // ---------- small facts ----------

  lemma Gain(m: map<(nat, Kind), nat>, h: (nat, Kind), r: nat, r': nat)
    requires h !in m
    ensures |Holders(m[h := r], r')| == |Holders(m, r')| + if r' == r then 1 else 0
  {
    if r' == r {
      assert Holders(m[h := r], r) == Holders(m, r) + {h};
    } else {
      assert Holders(m[h := r], r') == Holders(m, r');
    }
  }

  lemma Lose(m: map<(nat, Kind), nat>, h: (nat, Kind), r': nat)
    requires h in m
    ensures |Holders(m, r')| == |Holders(m - {h}, r')| + if r' == m[h] then 1 else 0
  {
    if r' == m[h] {
      assert Holders(m, r') == Holders(m - {h}, r') + {h};
    } else {
      assert Holders(m, r') == Holders(m - {h}, r');
    }
  }

  lemma Unheld(m: map<(nat, Kind), nat>, objs: seq<Obj>)
    requires Typed(objs, m)
    ensures Holders(m, |objs|) == {}
  {
  }

  lemma InvIsSound(s: State)
    requires Inv(s)
    ensures Sound(s)
  {
    forall h | h in s.held ensures s.held[h] < |s.objs| && s.objs[s.held[h]].count > 0 {
      assert Counted(s, s.held[h]);
      assert h in Holders(s.held, s.held[h]);
    }
    forall h | h in s.pending ensures s.pending[h] < |s.objs| && s.objs[s.pending[h]].count > 0 {
      assert Counted(s, s.pending[h]);
      assert h in Holders(s.pending, s.pending[h]);
    }
    forall r | 0 <= r < |s.objs|
      ensures s.objs[r].getters <= s.objs[r].count && s.objs[r].lazy <= s.objs[r].structCount
    {
      assert Counted(s, r);
    }
  }

  lemma CountAppend(log: seq<Event>, more: seq<Event>, e: Event)
    ensures Count(log + more, e) == Count(log, e) + multiset(more)[e]
  {
  }

  /** Release moves the count of r by one, tears down and frees when it should, and leaves the others alone. */
  lemma ReleaseCounts(s: State, r: nat, n: nat, r': nat, m: int)
    requires r < |s.objs| && r' < |s.objs| && CountedAs(s, r, n + 1)
    requires r' != r ==> CountedAs(s, r', m)
    ensures r' != r ==> CountedAs(Release(s, r), r', m)
    ensures CountedAs(Release(s, r), r, n)
  {
    CountAppend(s.log, [Free(r)], Free(r));
    CountAppend(s.log, [TearDown(r)], Free(r));
    CountAppend(s.log, [TearDown(r), Free(r)], Free(r));
    CountAppend(s.log, [Free(r)], TearDown(r));
    CountAppend(s.log, [TearDown(r)], TearDown(r));
    CountAppend(s.log, [TearDown(r), Free(r)], TearDown(r));
  }

  lemma ReleaseOrders(s: State, r: nat)
    requires r < |s.objs| && s.objs[r].count > 0 && TornBeforeFreed(s.objs, s.log)
    requires forall e :: e in s.log ==> e.r < |s.objs|
    ensures var s' := Release(s, r);
            TornBeforeFreed(s'.objs, s'.log) && forall e :: e in s'.log ==> e.r < |s'.objs|
  {
    var s' := Release(s, r);
    forall i | 0 <= i < |s'.log| && s'.log[i].Free? && s'.log[i].r < |s'.objs| && s'.objs[s'.log[i].r].kind == MmK
      ensures TearDown(s'.log[i].r) in s'.log[..i]
    {
      if i < |s.log| {
        assert s'.log[..i] == s.log[..i] && s'.log[i] == s.log[i];
      } else {
        assert s'.log[|s.log|] == TearDown(r);
      }
    }
  }

  // ---------- every step keeps the invariant ----------

  /** A new structure with one holder, entered in held or in pending. */
  lemma NewKeeps(s: State, h: (nat, Kind), pend: bool)
    requires Inv(s) && if pend then h !in s.pending else h !in s.held
    ensures var objs := s.objs + [NewObj(h.1)];
            Inv(if pend then s.(objs := objs, pending := s.pending[h := |s.objs|])
                else s.(objs := objs, held := s.held[h := |s.objs|]))
  {
    var n := |s.objs|;
    var objs := s.objs + [NewObj(h.1)];
    var s' := if pend then s.(objs := objs, pending := s.pending[h := n]) else s.(objs := objs, held := s.held[h := n]);
    Unheld(s.held, s.objs);
    Unheld(s.pending, s.objs);
    assert Free(n) !in s.log && TearDown(n) !in s.log;
    forall r | 0 <= r < |s'.objs| ensures Counted(s', r) {
      if pend { Gain(s.pending, h, n, r); } else { Gain(s.held, h, n, r); }
      if r < n {
        assert Counted(s, r) && objs[r] == s.objs[r];
      }
    }
    forall i | 0 <= i < |s.log| && s.log[i].Free? && s.log[i].r < |objs| && objs[s.log[i].r].kind == MmK
      ensures TearDown(s.log[i].r) in s.log[..i]
    {
      assert s.log[i] in s.log;
    }
  }

  /** A structure that gains a holder; mm_count and the log stand still as long as it had one already. */
  lemma ShareKeeps(s: State, h: (nat, Kind), r: nat)
    requires Inv(s) && h !in s.held && r < |s.objs| && s.objs[r].count > 0 && s.objs[r].kind == h.1
    ensures Inv(Acquire(s, r).(held := s.held[h := r]))
  {
    var s' := Acquire(s, r).(held := s.held[h := r]);
    forall r' | 0 <= r' < |s'.objs| ensures Counted(s', r') {
      assert Counted(s, r');
      Gain(s.held, h, r, r');
    }
  }

  /** The invariant but for one holder of r that is gone while its count still stands. */
  predicate Overcounted(s: State, r: nat) {
    && r < |s.objs|
    && (forall r' :: 0 <= r' < |s.objs| && r' != r ==> Counted(s, r'))
    && CountedAs(s, r, |Holders(s.held, r)| + |Holders(s.pending, r)| + s.objs[r].getters + 1)
    && Typed(s.objs, s.held) && Typed(s.objs, s.pending)
    && (forall e :: e in s.log ==> e.r < |s.objs|)
    && TornBeforeFreed(s.objs, s.log)
  }

  lemma ReleaseKeepsCount(s: State, r: nat, r': nat)
    requires r < |s.objs| && r' < |s.objs|
    requires CountedAs(s, r, |Holders(s.held, r)| + |Holders(s.pending, r)| + s.objs[r].getters + 1)
    requires r' != r ==> Counted(s, r')
    ensures |Release(s, r).objs| == |s.objs| && Counted(Release(s, r), r')
  {
    ReleaseCounts(s, r, s.objs[r].count - 1, r', s.objs[r'].count);
  }

  lemma ReleaseKeeps(s: State, r: nat)
    requires Overcounted(s, r)
    ensures Inv(Release(s, r))
  {
    ReleaseOrders(s, r);
    forall r' | 0 <= r' < |s.objs|
      ensures |Release(s, r).objs| == |s.objs| && Counted(Release(s, r), r')
    {
      ReleaseKeepsCount(s, r, r');
    }
  }

  lemma DropKeeps(s: State, h: (nat, Kind))
    requires Inv(s) && h in s.held
    ensures Overcounted(s.(held := s.held - {h}), s.held[h])
  {
    var s' := s.(held := s.held - {h});
    forall r | 0 <= r < |s.objs|
      ensures Counted(s, r) && |Holders(s.held, r)| == |Holders(s'.held, r)| + if r == s.held[h] then 1 else 0
    {
      Lose(s.held, h, r);
    }
  }

  lemma AbandonKeeps(s: State, h: (nat, Kind))
    requires Inv(s) && h in s.pending
    ensures Overcounted(s.(pending := s.pending - {h}), s.pending[h])
  {
    var s' := s.(pending := s.pending - {h});
    forall r | 0 <= r < |s.objs|
      ensures Counted(s, r) && |Holders(s.pending, r)| == |Holders(s'.pending, r)| + if r == s.pending[h] then 1 else 0
    {
      Lose(s.pending, h, r);
    }
  }

  /** The installed copy moves from pending to held, so its count stands; the old structure loses its holder. */
  lemma SwapKeeps(s: State, h: (nat, Kind))
    requires Inv(s) && h in s.held && h in s.pending
    ensures Overcounted(s.(held := s.held[h := s.pending[h]], pending := s.pending - {h}), s.held[h])
  {
    var s' := s.(held := s.held[h := s.pending[h]], pending := s.pending - {h});
    assert (s.held - {h})[h := s.pending[h]] == s'.held;
    forall r | 0 <= r < |s.objs|
      ensures Counted(s, r)
      ensures |Holders(s.held, r)| + |Holders(s.pending, r)| ==
              |Holders(s'.held, r)| + |Holders(s'.pending, r)| + if r == s.held[h] then 1 else 0
    {
      Lose(s.held, h, r);
      Gain(s.held - {h}, h, s.pending[h], r);
      Lose(s.pending, h, r);
    }
  }

  /** An exchange takes no holder away and adds none. */
  lemma ExchangeKeeps(s: State, h: (nat, Kind))
    requires Inv(s) && h in s.held && h in s.pending
    ensures Inv(Exchange(s, h))
  {
    var s' := Exchange(s, h);
    assert (s.held - {h})[h := s.pending[h]] == s'.held && (s.pending - {h})[h := s.held[h]] == s'.pending;
    forall r | 0 <= r < |s.objs|
      ensures Counted(s', r)
    {
      assert Counted(s, r);
      Lose(s.held, h, r);
      Gain(s.held - {h}, h, s.pending[h], r);
      Lose(s.pending, h, r);
      Gain(s.pending - {h}, h, s.held[h], r);
    }
  }

  lemma GetKeeps(s: State, r: nat)
    requires Inv(s) && r < |s.objs| && s.objs[r].count > 0
    ensures var o := s.objs[r];
            Inv(s.(objs := s.objs[r := o.(count := o.count + 1, getters := o.getters + 1)]))
  {
    var o := s.objs[r];
    var s' := s.(objs := s.objs[r := o.(count := o.count + 1, getters := o.getters + 1)]);
    forall r' | 0 <= r' < |s'.objs| ensures Counted(s', r') {
      assert Counted(s, r');
    }
  }

  lemma PutKeeps(s: State, r: nat)
    requires Inv(s) && r < |s.objs| && s.objs[r].getters > 0
    ensures Overcounted(s.(objs := s.objs[r := s.objs[r].(getters := s.objs[r].getters - 1)]), r)
  {
    var s' := s.(objs := s.objs[r := s.objs[r].(getters := s.objs[r].getters - 1)]);
    forall r' | 0 <= r' < |s.objs| && r' != r ensures Counted(s', r') {
      assert Counted(s, r');
    }
    assert Counted(s, r);
  }

  lemma GrabKeeps(s: State, r: nat)
    requires Inv(s) && Sound(s) && Enabled(s, Grab(r))
    ensures Inv(Next(s, Grab(r)))
  {
    var s' := Next(s, Grab(r));
    forall r' | 0 <= r' < |s'.objs| ensures Counted(s', r') {
      assert Counted(s, r');
    }
  }

  lemma LazyDropOrders(s: State, r: nat)
    requires Inv(s) && r < |s.objs| && s.objs[r].kind == MmK && s.objs[r].count == 0
    ensures TornBeforeFreed(s.objs, s.log + [Free(r)])
  {
    var log := s.log + [Free(r)];
    assert Counted(s, r) && multiset(s.log)[TearDown(r)] == 1;
    forall i | 0 <= i < |log| && log[i].Free? && log[i].r < |s.objs| && s.objs[log[i].r].kind == MmK
      ensures TearDown(log[i].r) in log[..i]
    {
      if i < |s.log| {
        assert log[..i] == s.log[..i] && log[i] == s.log[i];
      } else {
        assert log[..i] == s.log;
      }
    }
  }

  lemma LazyDropCounts(s: State, r: nat, r': nat)
    requires Inv(s) && Sound(s) && Enabled(s, LazyDrop(r)) && r' < |s.objs|
    ensures Counted(Next(s, LazyDrop(r)), r')
  {
    assert Counted(s, r) && Counted(s, r');
    CountAppend(s.log, [Free(r)], Free(r'));
    CountAppend(s.log, [Free(r)], TearDown(r'));
  }

  lemma LazyDropKeeps(s: State, r: nat)
    requires Inv(s) && Sound(s) && Enabled(s, LazyDrop(r))
    ensures Inv(Next(s, LazyDrop(r)))
  {
    var s' := Next(s, LazyDrop(r));
    assert Counted(s, r);
    forall r' | 0 <= r' < |s'.objs| ensures Counted(s', r') {
      LazyDropCounts(s, r, r');
    }
    if s.objs[r].structCount == 1 {
      LazyDropOrders(s, r);
    }
  }

  /** The steps that take a holder away. */
  lemma ReleasingStepKeeps(s: State, step: Step)
    requires Inv(s) && Sound(s) && Enabled(s, step)
    requires step.Drop? || step.Swap? || step.Abandon? || step.Put?
    ensures Inv(Next(s, step))
  {
    match step
    case Drop(t, k) =>
      DropKeeps(s, (t, k));
      ReleaseKeeps(s.(held := s.held - {(t, k)}), s.held[(t, k)]);
    case Swap(t, k) =>
      if k == FilesK {
        ExchangeKeeps(s, (t, k));
      } else {
        SwapKeeps(s, (t, k));
        ReleaseKeeps(s.(held := s.held[(t, k) := s.pending[(t, k)]], pending := s.pending - {(t, k)}), s.held[(t, k)]);
      }
    case Abandon(t, k) =>
      AbandonKeeps(s, (t, k));
      ReleaseKeeps(s.(pending := s.pending - {(t, k)}), s.pending[(t, k)]);
    case Put(r) =>
      PutKeeps(s, r);
      ReleaseKeeps(s.(objs := s.objs[r := s.objs[r].(getters := s.objs[r].getters - 1)]), r);
  }

  /** Every step, of whichever task, keeps the invariant. */
  lemma StepKeepsInv(s: State, step: Step)
    requires Inv(s) && Enabled(s, step)
    ensures Sound(s) && Inv(Next(s, step))
  {
    InvIsSound(s);
    match step
    case First(t, k) => NewKeeps(s, (t, k), false);
    case Take(p, c, k, share) =>
      if share { ShareKeeps(s, (c, k), s.held[(p, k)]); } else { NewKeeps(s, (c, k), false); }
    case Drop(t, k) => ReleasingStepKeeps(s, step);
    case Copy(t, k) => NewKeeps(s, (t, k), true);
    case Swap(t, k) => ReleasingStepKeeps(s, step);
    case Abandon(t, k) => ReleasingStepKeeps(s, step);
    case Get(t, k) => GetKeeps(s, s.held[(t, k)]);
    case GetNotZero(r) => if s.objs[r].count > 0 { GetKeeps(s, r); }
    case Put(r) => ReleasingStepKeeps(s, step);
    case Grab(r) => GrabKeeps(s, r);
    case LazyDrop(r) => LazyDropKeeps(s, r);
  }

  // ---------- a copy that is not installed is private ----------

  /** Nobody but the unshare that made it holds the copy of an fs structure. */
  predicate Private(s: State) {
    forall h :: h in s.pending && h.1 == FsK ==> s.pending[h] < |s.objs| && s.objs[s.pending[h]].count == 1
  }

  /** So no task and no other unshare holds it. */
  lemma PrivateIsUnheld(s: State, h: (nat, Kind))
    requires Inv(s) && Private(s) && h in s.pending && h.1 == FsK
    ensures Holders(s.held, s.pending[h]) == {} && Holders(s.pending, s.pending[h]) == {h}
    ensures s.objs[s.pending[h]].getters == 0 && s.objs[s.pending[h]].kind == FsK
  {
    var r := s.pending[h];
    assert Counted(s, r) && h in Holders(s.pending, r);
    assert |Holders(s.pending, r) - {h}| == |Holders(s.pending, r)| - 1;
  }

  /** The structure whose count the step moves, if it moves one. */
  function Touched(s: State, step: Step): Option<nat>
    requires Enabled(s, step)
  {
    match step
    case Take(p, _, k, share) => if share then Some(s.held[(p, k)]) else None
    case Drop(t, k) => Some(s.held[(t, k)])
    case Swap(t, k) => if k == FilesK then None else Some(s.held[(t, k)])
    case Abandon(t, k) => Some(s.pending[(t, k)])
    case Get(t, k) => Some(s.held[(t, k)])
    case GetNotZero(r) => Some(r)
    case Put(r) => Some(r)
    case _ => None
  }

  lemma OthersKeepTheirCount(s: State, step: Step, r: nat)
    requires Enabled(s, step) && Sound(s) && r < |s.objs| && Touched(s, step) != Some(r)
    ensures r < |Next(s, step).objs| && Next(s, step).objs[r].count == s.objs[r].count
  {
  }

  /** A step that moves a count finds its structure held, pending or got by someone else. */
  lemma PrivateIsUntouched(s: State, step: Step, h: (nat, Kind))
    requires Inv(s) && Private(s) && Enabled(s, step) && h in s.pending && h.1 == FsK
    requires step != Abandon(h.0, h.1)
    ensures Touched(s, step) != Some(s.pending[h])
  {
    PrivateIsUnheld(s, h);
    match step
    case Take(p, _, k, _) => assert (p, k) in Holders(s.held, s.held[(p, k)]);
    case Drop(t, k) => assert (t, k) in Holders(s.held, s.held[(t, k)]);
    case Swap(t, k) => assert (t, k) in Holders(s.held, s.held[(t, k)]);
    case Abandon(t, k) => assert (t, k) in Holders(s.pending, s.pending[(t, k)]);
    case Get(t, k) => assert (t, k) in Holders(s.held, s.held[(t, k)]);
    case _ =>
  }

  /** What is pending after the step was pending before, or is new. */
  lemma StillPending(s: State, step: Step, h: (nat, Kind))
    requires Enabled(s, step) && Sound(s) && h in Next(s, step).pending && h.1 == FsK
    ensures if h in s.pending then Next(s, step).pending[h] == s.pending[h] && step != Abandon(h.0, h.1)
            else Next(s, step).pending[h] == |s.objs| && Next(s, step).objs == s.objs + [NewObj(FsK)]
  {
  }

  lemma StepKeepsPrivate(s: State, step: Step)
    requires Inv(s) && Sound(s) && Private(s) && Enabled(s, step)
    ensures Private(Next(s, step))
  {
    forall h | h in Next(s, step).pending && h.1 == FsK
      ensures Next(s, step).pending[h] < |Next(s, step).objs|
      ensures Next(s, step).objs[Next(s, step).pending[h]].count == 1
    {
      StillPending(s, step, h);
      if h in s.pending {
        PrivateIsUntouched(s, step, h);
        OthersKeepTheirCount(s, step, s.pending[h]);
      }
    }
  }

  // ---------- runs ----------

  const Boot := State([], map[], map[], [])

  lemma BootIsFine()
    ensures Inv(Boot)
  {
  }

  /** steps, each enabled when its turn comes, lead from s to s'. */
  ghost predicate Run(s: State, steps: seq<Step>, s': State)
    requires Inv(s)
    decreases |steps|
  {
    if steps == [] then s' == s
    else Enabled(s, steps[0]) && (StepKeepsInv(s, steps[0]); Run(Next(s, steps[0]), steps[1..], s'))
  }

  lemma {:induction false} RunKeepsInv(s: State, steps: seq<Step>, s': State)
    requires Inv(s) && Run(s, steps, s')
    ensures Inv(s')
    decreases |steps|
  {
    if steps != [] {
      StepKeepsInv(s, steps[0]);
      RunKeepsInv(Next(s, steps[0]), steps[1..], s');
    }
  }

  lemma {:induction false} RunKeepsPrivate(s: State, steps: seq<Step>, s': State)
    requires Inv(s) && Private(s) && Run(s, steps, s')
    ensures Private(s')
    decreases |steps|
  {
    if steps != [] {
      StepKeepsInv(s, steps[0]);
      StepKeepsPrivate(s, steps[0]);
      RunKeepsPrivate(Next(s, steps[0]), steps[1..], s');
    }
  }

  /**
   In every run: an fs structure that unshare has copied but not installed is held by nobody else, so that
   the cleanup may free it without a look at its count.
   */
  lemma AbandonFreesThePrivateCopy(steps: seq<Step>, s: State, t: nat)
    requires (BootIsFine(); Run(Boot, steps, s)) && (t, FsK) in s.pending
    ensures Sound(s) && var r := s.pending[(t, FsK)];
            && Holders(s.held, r) == {} && Holders(s.pending, r) == {(t, FsK)} && s.objs[r].getters == 0
            && Next(s, Abandon(t, FsK)).log == s.log + [Free(r)]
  {
    BootIsFine();
    RunKeepsInv(Boot, steps, s);
    RunKeepsPrivate(Boot, steps, s);
    InvIsSound(s);
    PrivateIsUnheld(s, (t, FsK));
  }

  /**
   In every run: each count is the number of holders; what is held is neither torn down nor freed; what
   nobody holds has been freed exactly once, and an address space has been torn down exactly once, first.
   */
  lemma SafeInEveryRun(steps: seq<Step>, s: State, r: nat)
    requires (BootIsFine(); Run(Boot, steps, s)) && r < |s.objs|
    ensures s.objs[r].count == |Holders(s.held, r)| + |Holders(s.pending, r)| + s.objs[r].getters
    ensures s.objs[r].count > 0 ==> Free(r) !in s.log && TearDown(r) !in s.log
    ensures s.objs[r].lazy > 0 ==> Free(r) !in s.log
    ensures s.objs[r].count == 0 && s.objs[r].lazy == 0 ==> Count(s.log, Free(r)) == 1
    ensures s.objs[r].count == 0 && s.objs[r].kind == MmK ==> Count(s.log, TearDown(r)) == 1
    ensures forall i :: 0 <= i < |s.log| && s.log[i] == Free(r) && s.objs[r].kind == MmK ==>
              TearDown(r) in s.log[..i]
  {
    BootIsFine();
    RunKeepsInv(Boot, steps, s);
    assert Counted(s, r);
    assert forall e :: e in s.log <==> multiset(s.log)[e] > 0;
  }

  /** A step that releases r, of a kind that is freed at once, frees it exactly when its count was one. */
  lemma ReleaseFreesTheLast(s: State, r: nat, s': State)
    requires r < |s.objs| && s.objs[r].kind != MmK && Counted(s, r) && s.objs[r].count > 0
    requires s' == Release(s.(held := s'.held, pending := s'.pending), r)
    ensures Free(r) in s'.log <==> |Holders(s.held, r)| + |Holders(s.pending, r)| + s.objs[r].getters == 1
  {
    assert multiset(s.log)[Free(r)] == 0;
  }

  /** The swap of an fs structure frees the old one exactly when the task was its last holder at that moment. */
  lemma SwapFreesTheLastOne(s: State, t: nat)
    requires Inv(s) && Sound(s) && Enabled(s, Swap(t, FsK))
    ensures var was := s.held[(t, FsK)];
            var s' := Next(s, Swap(t, FsK));
            && s'.held[(t, FsK)] == s.pending[(t, FsK)] && (t, FsK) !in s'.pending
            && (Free(was) in s'.log <==>
                  Holders(s.held, was) == {(t, FsK)} && Holders(s.pending, was) == {} && s.objs[was].getters == 0)
  {
    var r := s.held[(t, FsK)];
    assert Counted(s, r) && (t, FsK) in Holders(s.held, r);
    ReleaseFreesTheLast(s, r, Next(s, Swap(t, FsK)));
    assert |Holders(s.held, r)| == |Holders(s.held, r) - {(t, FsK)}| + 1;
  }

  /** The swap of a descriptor table frees nothing; the put that follows does, if no other holder is left then. */
  lemma PutFreesTheLastOne(s: State, t: nat)
    requires Inv(s) && Sound(s) && Enabled(s, Abandon(t, FilesK))
    ensures Enabled(s, Swap(t, FilesK)) ==>
      var s' := Next(s, Swap(t, FilesK));
      && s'.log == s.log && s'.objs == s.objs && Enabled(s', Abandon(t, FilesK))
      && s'.held[(t, FilesK)] == s.pending[(t, FilesK)] && s'.pending[(t, FilesK)] == s.held[(t, FilesK)]
    ensures var was := s.pending[(t, FilesK)];
            var s' := Next(s, Abandon(t, FilesK));
            Free(was) in s'.log <==>
              Holders(s.pending, was) == {(t, FilesK)} && Holders(s.held, was) == {} && s.objs[was].getters == 0
  {
    var r := s.pending[(t, FilesK)];
    assert Counted(s, r) && (t, FilesK) in Holders(s.pending, r);
    ReleaseFreesTheLast(s, r, Next(s, Abandon(t, FilesK)));
    assert |Holders(s.pending, r)| == |Holders(s.pending, r) - {(t, FilesK)}| + 1;
  }

  // ---------- nothing is ever beyond being freed ----------

  /** Explicit getters and lazy holders, of all structures. */
  function Refs(objs: seq<Obj>): nat {
    if objs == [] then 0 else Refs(objs[..|objs| - 1]) + objs[|objs| - 1].getters + objs[|objs| - 1].lazy
  }

  lemma {:induction false} RefsUpdate(objs: seq<Obj>, r: nat, o: Obj)
    requires r < |objs|
    ensures Refs(objs[r := o]) == Refs(objs) - objs[r].getters - objs[r].lazy + o.getters + o.lazy
  {
    var n := |objs| - 1;
    if r == n {
      assert objs[r := o][..n] == objs[..n];
    } else {
      assert objs[r := o][..n] == objs[..n][r := o];
      RefsUpdate(objs[..n], r, o);
    }
  }

  /** Whoever still holds something can let go of it. */
  predicate LetsGo(s: State, step: Step) {
    match step
    case Abandon(t, k) => (t, k) in s.pending
    case Drop(t, k) => (t, k) in s.held && s.pending == map[]
    case Put(r) => r < |s.objs| && s.objs[r].getters > 0 && s.pending == map[] && s.held == map[]
    case LazyDrop(r) => r < |s.objs| && s.objs[r].lazy > 0 && s.pending == map[] && s.held == map[]
    case _ => false
  }

  predicate Drained(s: State) {
    s.held == map[] && s.pending == map[] && forall r :: 0 <= r < |s.objs| ==> s.objs[r].getters == s.objs[r].lazy == 0
  }

  lemma SomeoneLetsGo(s: State) returns (step: Step)
    requires !Drained(s)
    ensures LetsGo(s, step)
  {
    if s.pending != map[] {
      var h :| h in s.pending;
      step := Abandon(h.0, h.1);
    } else if s.held != map[] {
      var h :| h in s.held;
      step := Drop(h.0, h.1);
    } else {
      var r :| 0 <= r < |s.objs| && !(s.objs[r].getters == s.objs[r].lazy == 0);
      step := if s.objs[r].getters > 0 then Put(r) else LazyDrop(r);
    }
  }

  /** Releasing moves nobody else's reference. */
  lemma ReleaseKeepsRefs(s: State, r: nat)
    requires r < |s.objs| && s.objs[r].count > 0
    ensures var n := Release(s, r);
            n.held == s.held && n.pending == s.pending && |n.objs| == |s.objs| && Refs(n.objs) == Refs(s.objs)
  {
    RefsUpdate(s.objs, r, Release(s, r).objs[r]);
  }

  lemma PutTakesAway(s: State, r: nat)
    requires Sound(s) && Enabled(s, Put(r))
    ensures var n := Next(s, Put(r));
            n.held == s.held && n.pending == s.pending && |n.objs| == |s.objs| && Refs(n.objs) == Refs(s.objs) - 1
  {
    var p := s.objs[r].(getters := s.objs[r].getters - 1);
    RefsUpdate(s.objs, r, p);
    ReleaseKeepsRefs(s.(objs := s.objs[r := p]), r);
  }

  lemma LazyDropTakesAway(s: State, r: nat)
    requires Sound(s) && Enabled(s, LazyDrop(r))
    ensures var n := Next(s, LazyDrop(r));
            n.held == s.held && n.pending == s.pending && |n.objs| == |s.objs| && Refs(n.objs) == Refs(s.objs) - 1
  {
    var o := s.objs[r];
    RefsUpdate(s.objs, r, o.(structCount := o.structCount - 1, lazy := o.lazy - 1));
  }

  lemma LettingGoTakesAway(s: State, step: Step)
    requires Sound(s) && LetsGo(s, step) && Enabled(s, step)
    ensures var n := Next(s, step);
            && |n.objs| == |s.objs|
            && (step.Abandon? ==> |n.pending| < |s.pending|)
            && (step.Drop? ==> n.pending == s.pending && |n.held| < |s.held|)
            && (step.Put? || step.LazyDrop? ==>
                  n.pending == s.pending && n.held == s.held && Refs(n.objs) < Refs(s.objs))
  {
    match step
    case Abandon(t, k) =>
      Fewer(s.pending, (t, k));
      ReleaseKeepsRefs(s.(pending := s.pending - {(t, k)}), s.pending[(t, k)]);
    case Drop(t, k) =>
      Fewer(s.held, (t, k));
      ReleaseKeepsRefs(s.(held := s.held - {(t, k)}), s.held[(t, k)]);
    case Put(r) => PutTakesAway(s, r);
    case LazyDrop(r) => LazyDropTakesAway(s, r);
    case _ =>
  }

  lemma Fewer(m: map<(nat, Kind), nat>, h: (nat, Kind))
    requires h in m
    ensures |m| == |m - {h}| + 1
  {
    assert m.Keys == (m - {h}).Keys + {h};
    assert |m.Keys| == |m| && |(m - {h}).Keys| == |m - {h}|;
  }

  lemma {:induction false} CanDrain(s: State) returns (more: seq<Step>, s': State)
    requires Inv(s)
    ensures Run(s, more, s') && Drained(s') && |s'.objs| == |s.objs|
    decreases |s.pending|, |s.held|, Refs(s.objs)
  {
    if Drained(s) {
      more, s' := [], s;
    } else {
      InvIsSound(s);
      var step := SomeoneLetsGo(s);
      assert step.LazyDrop? ==> s.objs[step.r].structCount > 0;
      StepKeepsInv(s, step);
      LettingGoTakesAway(s, step);
      more, s' := CanDrain(Next(s, step));
      assert ([step] + more)[1..] == more;
      more := [step] + more;
    }
  }

  /** From wherever a run has come, it can go on until every structure has been freed, each exactly once. */
  lemma EverythingCanBeFreed(steps: seq<Step>, s: State) returns (more: seq<Step>, s': State)
    requires (BootIsFine(); Run(Boot, steps, s))
    ensures (BootIsFine(); RunKeepsInv(Boot, steps, s); Run(s, more, s')) && |s'.objs| == |s.objs|
    ensures forall r :: 0 <= r < |s.objs| ==> Count(s'.log, Free(r)) == 1
  {
    BootIsFine();
    RunKeepsInv(Boot, steps, s);
    more, s' := CanDrain(s);
    RunKeepsInv(s, more, s');
    forall r | 0 <= r < |s.objs|
      ensures Count(s'.log, Free(r)) == 1
    {
      assert Counted(s', r);
    }
  }
}
