/**
 Kernel stacks: the per-CPU cache of free stacks, the counters that account for stacks in use, and
 the making and unmaking of a task structure around its stack.
 */
module TaskStacks {
  import opened Tasks
  import opened AddressSpace
  import opened Wrappers

  const NR_CACHED_STACKS := 2

  // ---------- the kilobyte counters ----------

  /** The zone counters after each page has moved the counter of its zone by kb. */
  function Credit(counters: seq<int>, zones: seq<nat>, kb: int): (r: seq<int>)
    requires forall i :: 0 <= i < |zones| ==> zones[i] < |counters|
    ensures |r| == |counters|
  {
    if zones == [] then counters
    else
      var front := Credit(counters, zones[..|zones| - 1], kb);
      var z := zones[|zones| - 1];
      front[z := front[z] + kb]
  }

  lemma {:induction false} CreditSum(counters: seq<int>, zones: seq<nat>, kb: int)
    requires forall i :: 0 <= i < |zones| ==> zones[i] < |counters|
    ensures Sum(Credit(counters, zones, kb)) == Sum(counters) + |zones| * kb
  {
    if zones != [] {
      var n, z := |zones| - 1, zones[|zones| - 1];
      var front := Credit(counters, zones[..n], kb);
      CreditSum(counters, zones[..n], kb);
      SumUpdate(front, z, front[z] + kb);
      assert |zones| * kb == n * kb + kb;
    }
  }

  /** Every page moves the counter of the zone that it lies in, and no other. */
  lemma {:induction false} CreditAt(counters: seq<int>, zones: seq<nat>, kb: int, k: nat)
    requires forall i :: 0 <= i < |zones| ==> zones[i] < |counters|
    requires k < |counters|
    ensures Credit(counters, zones, kb)[k] == counters[k] + multiset(zones)[k] * kb
  {
    if zones != [] {
      var n := |zones| - 1;
      CreditAt(counters, zones[..n], kb, k);
      OnePageMore(zones, k, kb);
    }
  }

  lemma OnePageMore(zones: seq<nat>, k: nat, kb: int)
    requires zones != []
    ensures multiset(zones)[k] * kb ==
            multiset(zones[..|zones| - 1])[k] * kb + if zones[|zones| - 1] == k then kb else 0
  {
    assert zones == zones[..|zones| - 1] + [zones[|zones| - 1]];
    var m := multiset(zones[..|zones| - 1])[k];
    assert multiset(zones)[k] == m + if zones[|zones| - 1] == k then 1 else 0;
    assert (m + 1) * kb == m * kb + kb;
  }

  lemma {:induction false} CreditCommutes(counters: seq<int>, zones: seq<nat>, kb: int, z: nat, x: int)
    requires forall i :: 0 <= i < |zones| ==> zones[i] < |counters|
    requires z < |counters|
    ensures Credit(counters[z := counters[z] + x], zones, kb) ==
            Credit(counters, zones, kb)[z := Credit(counters, zones, kb)[z] + x]
  {
    if zones != [] {
      CreditCommutes(counters, zones[..|zones| - 1], kb, z, x);
    }
  }

  /** Uncharging a stack's pages undoes charging them, in every zone. */
  lemma {:induction false} CreditUndone(counters: seq<int>, zones: seq<nat>, kb: int)
    requires forall i :: 0 <= i < |zones| ==> zones[i] < |counters|
    ensures Credit(Credit(counters, zones, kb), zones, -kb) == counters
  {
    if zones != [] {
      var n, z := |zones| - 1, zones[|zones| - 1];
      var front := Credit(counters, zones[..n], kb);
      CreditCommutes(front, zones[..n], -kb, z, kb);
      CreditUndone(counters, zones[..n], kb);
    }
  }

  /** The same, for counters that have gone up by the stack and down again. */
  lemma CreditReturned(before: seq<int>, between: seq<int>, after: seq<int>, zones: seq<nat>, kb: int)
    requires forall i :: 0 <= i < |zones| ==> zones[i] < |before|
    requires |between| == |before|
    requires between == Credit(before, zones, kb * 1) && after == Credit(between, zones, kb * -1)
    ensures after == before
  {
    CreditUndone(before, zones, kb);
  }

  lemma Regroup(a: int, b: int, c: int)
    ensures a * (b * c) == c * (a * b)
  {
  }

  // ---------- where stacks are ----------

  /** A place is a function of the stack, so a stack is never in two places at once. */
  datatype Place = OwnedBy(t: Task) | Cached(cpu: nat, slot: nat) | Freed

  class Allocator {
    const cpus: nat
    const pagesPerStack: nat
    const pageKb: nat
    const threadInfoInTask: bool
    const cached: array2<StackArea?>    // cached_stacks, a row per CPU
    const zoneKb: array<int>            // NR_KERNEL_STACK_KB, per memory zone
    var memcgKb: int                    // MEMCG_KERNEL_STACK_KB
    var taskStructs: int                // task structures allocated from the slab

    ghost var place: map<StackArea, Place>
    ghost var owners: set<Task>
    ghost var accounted: set<Task>

    function ThreadKb(): nat {
      pagesPerStack * pageKb
    }

    /** As many pages as a stack has, in zones that are counted. */
    predicate Fits(a: StackArea) {
      |a.zones| == pagesPerStack && forall i :: 0 <= i < |a.zones| ==> a.zones[i] < zoneKb.Length
    }

    /** Each stack is owned by the one task that points at it, or is in the slot that holds it, or is freed. */
    ghost predicate Placed()
      reads this`place, this`owners, cached, owners`stack, owners`stackVmArea
    {
      && cached.Length0 == cpus && cached.Length1 == NR_CACHED_STACKS
      && (forall c, i {:trigger cached[c, i]} :: 0 <= c < cpus && 0 <= i < NR_CACHED_STACKS && cached[c, i] != null ==>
            cached[c, i] in place && place[cached[c, i]] == Cached(c, i))
      && (forall t :: t in owners ==>
            && t.stackVmArea != null && t.stack == t.stackVmArea
            && t.stackVmArea in place && place[t.stackVmArea] == OwnedBy(t))
      && (forall a {:trigger place[a].OwnedBy?} :: a in place && place[a].OwnedBy? ==>
            place[a].t in owners && place[a].t.stackVmArea == a)
      && (forall a {:trigger place[a].Cached?} :: a in place && place[a].Cached? ==>
            && place[a].cpu < cpus && place[a].slot < NR_CACHED_STACKS
            && cached[place[a].cpu, place[a].slot] == a)
      && (forall a {:trigger place[a]} :: a in place ==> Fits(a))
    }

    /** The counters, summed over the zones, show the accounted stacks. */
    ghost predicate Balanced()
      reads this`accounted, this`memcgKb, zoneKb
    {
      && Sum(zoneKb[..]) == |accounted| * ThreadKb()
      && memcgKb == |accounted| * ThreadKb()
    }

    ghost predicate Valid()
      reads this`place, this`owners, this`accounted, this`memcgKb, cached, zoneKb
      reads owners`stack, owners`stackVmArea, owners`stackRefcount
    {
      && Placed() && Balanced() && accounted == owners
      && (threadInfoInTask ==> forall t :: t in owners ==> t.stackRefcount > 0)
    }

    /** Boot: no stack anywhere, nothing counted. */
    constructor (cpus: nat, zones: nat, pagesPerStack: nat, pageKb: nat, threadInfoInTask: bool)
      ensures Valid() && fresh(cached) && fresh(zoneKb) && zoneKb.Length == zones
      ensures this.cpus == cpus && this.pagesPerStack == pagesPerStack && this.pageKb == pageKb
      ensures this.threadInfoInTask == threadInfoInTask && place == map[] && owners == {}
    {
      this.cpus, this.pagesPerStack, this.pageKb := cpus, pagesPerStack, pageKb;
      this.threadInfoInTask := threadInfoInTask;
      cached := new StackArea?[cpus, NR_CACHED_STACKS]((_, _) => null);
      zoneKb := new int[zones](_ => 0);
      memcgKb, taskStructs := 0, 0;
      place, owners, accounted := map[], {}, {};
      new;
      SumOfZeros(zoneKb[..]);
    }

    // ---------- stacks ----------

    method Vmalloc() returns (area: StackArea?)
      ensures area != null ==> fresh(area) && Fits(area)
    {
      area := null;
      if * {
        if zoneKb.Length > 0 {
          area := new StackArea(seq(pagesPerStack, _ => 0));
        }
      }
    }

    /** alloc_thread_stack_node: a cached stack of this CPU if there is one, else a new one if memory allows. */
    method AllocThreadStack(tsk: Task, cpu: nat) returns (stack: StackArea?)
      requires Placed() && cpu < cpus && tsk !in owners
      modifies tsk`stackVmArea, this`place, cached
      ensures stack == null ==> Placed() && place == old(place)
      ensures stack != null ==>
        && tsk.stackVmArea == stack && Fits(stack)
        && place == old(place)[stack := OwnedBy(tsk)]
        && (stack in old(place) ==> old(place)[stack].Cached? && old(place)[stack].cpu == cpu)
      ensures (exists i :: 0 <= i < NR_CACHED_STACKS && old(cached[cpu, i]) != null) ==>
                stack != null && stack in old(place)
      ensures forall c, i {:trigger cached[c, i]} :: 0 <= c < cpus && 0 <= i < NR_CACHED_STACKS ==>
                cached[c, i] == if old(cached[c, i]) == stack then null else old(cached[c, i])
    {
      var i := 0;
      while i < NR_CACHED_STACKS
        invariant 0 <= i <= NR_CACHED_STACKS
        invariant forall j :: 0 <= j < i ==> cached[cpu, j] == null
      {
        var s := cached[cpu, i];
        if s != null {
          cached[cpu, i] := null;
          tsk.stackVmArea := s;
          place := place[s := OwnedBy(tsk)];
          return s;
        }
        i := i + 1;
      }
      stack := Vmalloc();
      if stack != null {
        tsk.stackVmArea := stack;
        place := place[stack := OwnedBy(tsk)];
      }
    }

    /** free_thread_stack: into a free slot of this CPU if there is one, else back to the system. */
    method FreeThreadStack(tsk: Task, cpu: nat)
      requires Placed() && cpu < cpus && tsk in owners
      modifies this`place, this`owners, cached
      ensures Placed() && owners == old(owners) - {tsk}
      ensures place.Keys == old(place).Keys && !place[tsk.stackVmArea].OwnedBy?
      ensures forall a :: a in place && a != tsk.stackVmArea ==> place[a] == old(place)[a]
      ensures place[tsk.stackVmArea].Freed? <==>
              forall i :: 0 <= i < NR_CACHED_STACKS ==> old(cached[cpu, i]) != null
    {
      owners := owners - {tsk};
      var i := 0;
      while i < NR_CACHED_STACKS
        invariant 0 <= i <= NR_CACHED_STACKS
        invariant forall j :: 0 <= j < i ==> cached[cpu, j] != null
      {
        if cached[cpu, i] == null {
          cached[cpu, i] := tsk.stackVmArea;
          place := place[tsk.stackVmArea := Cached(cpu, i)];
          return;
        }
        i := i + 1;
      }
      place := place[tsk.stack := Freed];
    }

    /** account_kernel_stack: page by page into the zones, in one go into the group counter. */
    method AccountKernelStack(tsk: Task, account: int)
      requires tsk.stackVmArea != null && Fits(tsk.stackVmArea)
      modifies zoneKb, this`memcgKb
      ensures forall k: nat :: k < zoneKb.Length ==>
        zoneKb[k] == old(zoneKb[k]) + multiset(tsk.stackVmArea.zones)[k] * (pageKb * account)
      ensures zoneKb[..] == Credit(old(zoneKb[..]), tsk.stackVmArea.zones, pageKb * account)
      ensures Sum(zoneKb[..]) == Sum(old(zoneKb[..])) + account * ThreadKb()
      ensures memcgKb == old(memcgKb) + account * ThreadKb()
    {
      var vm := tsk.stackVmArea;
      var i := 0;
      while i < pagesPerStack
        invariant 0 <= i <= pagesPerStack
        invariant zoneKb[..] == Credit(old(zoneKb[..]), vm.zones[..i], pageKb * account)
        invariant memcgKb == old(memcgKb)
      {
        var z := vm.zones[i];
        zoneKb[z] := zoneKb[z] + pageKb * account;
        assert vm.zones[..i + 1][..i] == vm.zones[..i];
        i := i + 1;
      }
      assert vm.zones[..i] == vm.zones;
      CreditSum(old(zoneKb[..]), vm.zones, pageKb * account);
      forall k: nat | k < zoneKb.Length
        ensures zoneKb[..][k] == old(zoneKb[k]) + multiset(vm.zones)[k] * (pageKb * account)
      {
        CreditAt(old(zoneKb[..]), vm.zones, pageKb * account, k);
      }
      Regroup(pagesPerStack, pageKb, account);
      memcgKb := memcgKb + account * ThreadKb();
    }

    lemma AccountedOneMore(tsk: Task)
      requires tsk !in accounted
      ensures |accounted + {tsk}| * ThreadKb() == |accounted| * ThreadKb() + ThreadKb()
    {
      assert |accounted + {tsk}| == |accounted| + 1;
    }

    lemma AccountedOneFewer(tsk: Task)
      requires tsk in accounted
      ensures |accounted - {tsk}| * ThreadKb() == |accounted| * ThreadKb() - ThreadKb()
    {
      assert |accounted - {tsk}| == |accounted| - 1;
    }

    /** The stack of tsk, and no other, has been taken back and unaccounted. */
    twostate predicate Released(tsk: Task)
      reads this`place, this`owners, this`memcgKb, zoneKb, tsk`stack, tsk`stackVmArea
    {
      && owners == old(owners) - {tsk} && tsk.stack == null && tsk.stackVmArea == null
      && old(tsk.stackVmArea) != null && old(Fits(tsk.stackVmArea))
      && old(tsk.stackVmArea) in place && !place[old(tsk.stackVmArea)].OwnedBy?
      && zoneKb[..] == Credit(old(zoneKb[..]), old(tsk.stackVmArea).zones, pageKb * -1)
      && memcgKb == old(memcgKb) - ThreadKb()
    }

    twostate predicate StackKept(tsk: Task)
      reads this`place, this`owners, this`memcgKb, zoneKb, tsk`stack, tsk`stackVmArea
    {
      && owners == old(owners) && place == old(place) && zoneKb[..] == old(zoneKb[..]) && memcgKb == old(memcgKb)
      && tsk.stack == old(tsk.stack) && tsk.stackVmArea == old(tsk.stackVmArea)
    }

    /** release_task_stack: a stack whose task is not dead is leaked rather than freed under its feet. */
    method ReleaseTaskStack(tsk: Task, cpu: nat)
      requires ValidButFor(tsk) && cpu < cpus
      modifies this`place, this`owners, this`accounted, this`memcgKb, cached, zoneKb, tsk`stack, tsk`stackVmArea
      ensures place.Keys == old(place).Keys
      ensures !tsk.dead ==> ValidButFor(tsk) && StackKept(tsk)
      ensures tsk.dead ==> Valid() && Released(tsk)
    {
      if !tsk.dead { return; }
      Unaccount(tsk);
      FreeThreadStack(tsk, cpu);
      ForgetStack(tsk);
    }

    method Unaccount(tsk: Task)
      requires Balanced() && tsk in accounted && tsk.stackVmArea != null && Fits(tsk.stackVmArea)
      modifies this`accounted, this`memcgKb, zoneKb
      ensures Balanced() && accounted == old(accounted) - {tsk}
      ensures zoneKb[..] == Credit(old(zoneKb[..]), tsk.stackVmArea.zones, pageKb * -1)
      ensures memcgKb == old(memcgKb) - ThreadKb()
    {
      AccountedOneFewer(tsk);
      AccountKernelStack(tsk, -1);
      accounted := accounted - {tsk};
    }

    method Account(tsk: Task)
      requires Balanced() && tsk !in accounted && tsk.stackVmArea != null && Fits(tsk.stackVmArea)
      modifies this`accounted, this`memcgKb, zoneKb
      ensures Balanced() && accounted == old(accounted) + {tsk}
      ensures zoneKb[..] == Credit(old(zoneKb[..]), tsk.stackVmArea.zones, pageKb * 1)
      ensures memcgKb == old(memcgKb) + ThreadKb()
    {
      AccountedOneMore(tsk);
      AccountKernelStack(tsk, 1);
      accounted := accounted + {tsk};
    }

    method ForgetStack(tsk: Task)
      requires Placed() && tsk !in owners
      modifies tsk`stack, tsk`stackVmArea
      ensures Placed() && tsk.stack == null && tsk.stackVmArea == null
    {
      tsk.stack := null;
      tsk.stackVmArea := null;
    }

    /** Valid, but for a reference count of tsk that may just have reached zero. */
    ghost predicate ValidButFor(tsk: Task)
      reads this`place, this`owners, this`accounted, this`memcgKb, cached, zoneKb
      reads owners`stack, owners`stackVmArea, owners`stackRefcount
    {
      && Placed() && Balanced() && accounted == owners && tsk in owners
      && (threadInfoInTask ==> forall t :: t in owners && t != tsk ==> t.stackRefcount > 0)
    }

    // ---------- holders of a stack ----------

    /** try_get_task_stack: with the reference count, a stack that is going away is not handed out. */
    method TryGetTaskStack(tsk: Task) returns (stack: StackArea?)
      requires Valid()
      modifies tsk`stackRefcount
      ensures Valid()
      ensures threadInfoInTask ==>
        && (stack != null ==> tsk.stackRefcount == old(tsk.stackRefcount) + 1)
        && (tsk in owners ==> stack == tsk.stack)
        && (tsk.stackRefcount == 0 ==> stack == null)
      ensures !threadInfoInTask ==> stack == tsk.stack && tsk.stackRefcount == old(tsk.stackRefcount)
    {
      if threadInfoInTask {
        stack := null;
        if tsk.stackRefcount != 0 {
          tsk.stackRefcount := tsk.stackRefcount + 1;
          stack := tsk.stack;
        }
      } else {
        stack := tsk.stack;
      }
    }

    /**
     put_task_stack: the last holder of the stack releases it, and the task itself is a holder until it is
     dead; without the count, nobody does.
     */
    method PutTaskStack(tsk: Task, cpu: nat)
      requires Valid() && cpu < cpus && tsk in owners
      requires threadInfoInTask && tsk.stackRefcount == 1 ==> tsk.dead
      modifies this`place, this`owners, this`accounted, this`memcgKb, cached, zoneKb
      modifies tsk`stack, tsk`stackVmArea, tsk`stackRefcount
      ensures Valid() && place.Keys == old(place).Keys
      ensures tsk.stackRefcount == old(tsk.stackRefcount) - if threadInfoInTask then 1 else 0
      ensures if threadInfoInTask && tsk.stackRefcount == 0 then Released(tsk) else StackKept(tsk)
    {
      if threadInfoInTask {
        tsk.stackRefcount := tsk.stackRefcount - 1;
        if tsk.stackRefcount == 0 {
          ReleaseTaskStack(tsk, cpu);
        }
      }
    }

    /**
     free_task.  Without the reference count the stack goes here; with it, the stack should be gone by
     now, and a stack that is still referenced is left to its holders.
     */
    method FreeTask(tsk: Task, cpu: nat)
      requires Valid() && cpu < cpus
      requires !threadInfoInTask ==> tsk in owners
      modifies this`place, this`owners, this`accounted, this`memcgKb, this`taskStructs
      modifies cached, zoneKb, tsk`stack, tsk`stackVmArea
      ensures Valid() && place.Keys == old(place).Keys
      ensures if threadInfoInTask || !tsk.dead then StackKept(tsk) else Released(tsk)
      ensures taskStructs == old(taskStructs) - 1
    {
      if !threadInfoInTask {
        ReleaseTaskStack(tsk, cpu);
      }
      taskStructs := taskStructs - 1;
    }

    /**
     bad_fork_free: put_task_stack and free_task on a task that nobody else has seen.  Whether the stack
     goes with the first or with the second, it goes once.
     */
    method DiscardTask(tsk: Task, cpu: nat)
      requires Valid() && cpu < cpus && tsk in owners
      requires threadInfoInTask ==> tsk.stackRefcount == 1
      modifies this`place, this`owners, this`accounted, this`memcgKb, this`taskStructs
      modifies cached, zoneKb, tsk`dead, tsk`stack, tsk`stackVmArea, tsk`stackRefcount
      ensures Valid() && place.Keys == old(place).Keys && Released(tsk)
      ensures taskStructs == old(taskStructs) - 1
    {
      tsk.dead := true;
      PutTaskStack(tsk, cpu);
      FreeTask(tsk, cpu);
    }

    // ---------- a new task ----------

    /** What a copied task has before anything of its own is set up, except for its stack. */
    ghost predicate CopyOf(tsk: Task, orig: Task)
      reads tsk`files, tsk`fs, tsk`sighand, tsk`signal, tsk`mm, tsk`extras, tsk`id
      reads orig`files, orig`fs, orig`sighand, orig`signal, orig`mm, orig`extras, orig`id
      reads tsk`dead, tsk`nprocExceeded, tsk`stackRefcount, orig`dead, orig`nprocExceeded, orig`stackRefcount
    {
      && tsk.files == orig.files && tsk.fs == orig.fs && tsk.sighand == orig.sighand
      && tsk.signal == orig.signal && tsk.mm == orig.mm && tsk.id == orig.id
      && tsk.extras == orig.extras.(seccompFilter := tsk.extras.seccompFilter)
      && tsk.dead == orig.dead && tsk.nprocExceeded == orig.nprocExceeded
      && tsk.stackRefcount == (if threadInfoInTask then 1 else orig.stackRefcount)
    }

    /** The struct copy clobbers the stack fields, so that tsk aliases the stack of orig until they are restored. */
    method CopyKeepingStack(tsk: Task, orig: Task, stack: StackArea)
      requires tsk != orig && tsk.stackVmArea == stack
      modifies tsk
      ensures CopyOf(tsk, orig) && tsk.stack == stack && tsk.stackVmArea == stack
      ensures tsk.usage == orig.usage && tsk.extras == orig.extras
    {
      var stackVmArea := tsk.stackVmArea;
      tsk.CopyFrom(orig);
      tsk.stack := stack;
      tsk.stackVmArea := stackVmArea;
      if threadInfoInTask {
        tsk.stackRefcount := 1;
      }
    }

    /** dup_task_struct between taking a stack and knowing whether the copy worked. */
    method AttachStack(tsk: Task, orig: Task, cpu: nat) returns (ok: bool)
      requires Placed() && Held() && cpu < cpus && tsk !in owners && tsk != orig
      modifies tsk, this`place, this`owners, cached
      ensures Placed() && Held() && owners == if ok then old(owners) + {tsk} else old(owners)
      ensures place.Keys >= old(place).Keys
      ensures ok ==> CopyOf(tsk, orig)
    {
      var stack := AllocThreadStack(tsk, cpu);
      ok := stack != null;
      if ok {
        CopyKeepingStack(tsk, orig, stack);
        owners := owners + {tsk};
      }
    }

    /** Every stack that is owned is held by somebody. */
    ghost predicate Held()
      reads this`owners, owners`stackRefcount
    {
      threadInfoInTask ==> forall t :: t in owners ==> t.stackRefcount > 0
    }

    /** A stack of its own for tsk and the copy of orig; if the copy fails, the stack goes back. */
    method AttachOrUndo(tsk: Task, orig: Task, cpu: nat) returns (ok: bool)
      requires Placed() && Held() && cpu < cpus && tsk !in owners && tsk != orig
      modifies tsk, this`place, this`owners, cached
      ensures Placed() && Held() && owners == if ok then old(owners) + {tsk} else old(owners)
      ensures place.Keys >= old(place).Keys
      ensures ok ==> CopyOf(tsk, orig)
    {
      ok := AttachStack(tsk, orig, cpu);
      if ok {
        var err := MayFail();
        if err != 0 {
          FreeThreadStack(tsk, cpu);
          ok := false;
        }
      }
    }

    /** The fields that a copied task may not keep: a filter, which is copied later, and its users. */
    method FinishCopy(tsk: Task, orig: Task)
      requires tsk != orig && CopyOf(tsk, orig)
      modifies tsk`extras, tsk`usage
      ensures CopyOf(tsk, orig) && tsk.usage == 2 && !tsk.extras.seccompFilter
    {
      tsk.extras := tsk.extras.(seccompFilter := false);
      tsk.usage := 2;
    }

    /** The new task with its own, accounted stack. */
    twostate predicate Built(new tsk: Task, orig: Task)
      reads this`owners, this`memcgKb, zoneKb, tsk`usage, tsk`stackVmArea
      reads tsk`files, tsk`fs, tsk`sighand, tsk`signal, tsk`mm, tsk`extras, tsk`id
      reads orig`files, orig`fs, orig`sighand, orig`signal, orig`mm, orig`extras, orig`id
      reads tsk`dead, tsk`nprocExceeded, tsk`stackRefcount, orig`dead, orig`nprocExceeded, orig`stackRefcount
    {
      && CopyOf(tsk, orig) && tsk.usage == 2 && !tsk.extras.seccompFilter
      && owners == old(owners) + {tsk}
      && tsk.stackVmArea != null && Fits(tsk.stackVmArea)
      && zoneKb[..] == Credit(old(zoneKb[..]), tsk.stackVmArea.zones, pageKb * 1)
      && memcgKb == old(memcgKb) + ThreadKb()
    }

    /** No stack is owned or accounted that was not before. */
    twostate predicate NothingBuilt()
      reads this`owners, this`memcgKb, zoneKb
    {
      owners == old(owners) && zoneKb[..] == old(zoneKb[..]) && memcgKb == old(memcgKb)
    }

    /** The rest of dup_task_struct: with the new stack accounted, the whole is valid again. */
    method Finish(tsk: Task, orig: Task)
      requires Placed() && Balanced() && Held() && owners == accounted + {tsk} && tsk !in accounted
      requires tsk != orig && CopyOf(tsk, orig)
      modifies this`accounted, this`memcgKb, zoneKb, tsk`extras, tsk`usage
      ensures Valid() && tsk.stackVmArea != null && Fits(tsk.stackVmArea)
      ensures CopyOf(tsk, orig) && tsk.usage == 2 && !tsk.extras.seccompFilter
      ensures zoneKb[..] == Credit(old(zoneKb[..]), tsk.stackVmArea.zones, pageKb * 1)
      ensures memcgKb == old(memcgKb) + ThreadKb()
    {
      FinishCopy(tsk, orig);
      Account(tsk);
    }

    method BuildTask(tsk: Task, orig: Task, cpu: nat) returns (ok: bool)
      requires Valid() && cpu < cpus && tsk !in owners && tsk != orig
      modifies tsk, this`place, this`owners, this`accounted, this`memcgKb, cached, zoneKb
      ensures Valid() && place.Keys >= old(place).Keys
      ensures if ok then Built(tsk, orig) else NothingBuilt()
    {
      ok := AttachOrUndo(tsk, orig, cpu);
      if ok {
        Finish(tsk, orig);
      }
    }

    /** dup_task_struct. */
    method DupTaskStruct(orig: Task, cpu: nat) returns (tsk: Task?)
      requires Valid() && cpu < cpus
      modifies this`place, this`owners, this`accounted, this`memcgKb, this`taskStructs, cached, zoneKb
      ensures Valid() && place.Keys >= old(place).Keys
      ensures tsk == null ==> NothingBuilt() && taskStructs == old(taskStructs)
      ensures tsk != null ==> fresh(tsk) && Built(tsk, orig) && taskStructs == old(taskStructs) + 1
    {
      tsk := null;
      if * { return; }
      tsk := new Task();
      taskStructs := taskStructs + 1;
      var ok := BuildTask(tsk, orig, cpu);
      if !ok {
        taskStructs := taskStructs - 1;
        tsk := null;
      }
    }

    /** bad_fork_free after dup_task_struct: the counters return, zone by zone, to zones0 and memcg0. */
    method UndoBuilt(tsk: Task, cpu: nat, ghost owners0: set<Task>, ghost zones0: seq<int>, ghost memcg0: int)
      requires Valid() && cpu < cpus && tsk !in owners0 && owners == owners0 + {tsk} && tsk.stackVmArea != null
      requires threadInfoInTask ==> tsk.stackRefcount == 1
      requires |zones0| == zoneKb.Length && Fits(tsk.stackVmArea)
      requires zoneKb[..] == Credit(zones0, tsk.stackVmArea.zones, pageKb * 1) && memcgKb == memcg0 + ThreadKb()
      modifies this`place, this`owners, this`accounted, this`memcgKb, this`taskStructs
      modifies cached, zoneKb, tsk`dead, tsk`stack, tsk`stackVmArea, tsk`stackRefcount
      ensures Valid() && owners == owners0 && zoneKb[..] == zones0 && memcgKb == memcg0
      ensures taskStructs == old(taskStructs) - 1
    {
      ghost var zones := tsk.stackVmArea.zones;
      ghost var charged := zoneKb[..];
      DiscardTask(tsk, cpu);
      CreditReturned(zones0, charged, zoneKb[..], zones, pageKb);
    }

    /**
     A fork that gets as far as a duplicated task and then fails: the stack it took, from the cache or
     from the system, is given back once, and every counter shows what it showed before.
     */
    method FailedFork(orig: Task, cpu: nat)
      requires Valid() && cpu < cpus
      modifies this`place, this`owners, this`accounted, this`memcgKb, this`taskStructs, cached, zoneKb
      ensures Valid() && NothingBuilt() && taskStructs == old(taskStructs)
    {
      var tsk := DupTaskStruct(orig, cpu);
      if tsk != null {
        UndoBuilt(tsk, cpu, old(owners), old(zoneKb[..]), old(memcgKb));
      }
    }
  }
}
