/**
 The life of an address space: set up, copied from another, shared, put, torn down and freed.
 */
module MmStruct {
  import opened Accounts
  import opened AddressSpace
  import opened Tasks
  import opened VmaTree
  import opened Wrappers

  // ---------- the invariant of the two counts ----------

  /**
   The users together hold one of mm_count, lazy holders one each.  The mappings are torn down when
   the last user goes, the structure is freed when the last holder goes, and never before that.
   */
  ghost predicate Counted(mm: Mm, lazy: nat)
    reads mm`users, mm`count, mm`tornDown, mm`freed
  {
    && mm.count == lazy + (if mm.users > 0 then 1 else 0)
    && (mm.tornDown <==> mm.users == 0)
    && (mm.freed <==> mm.count == 0)
  }

  // ---------- what a live address space holds in the books ----------

  function WithMm(b: Books, sign: int): Books {
    b.(mms := b.mms + sign, pgds := b.pgds + sign, contexts := b.contexts + sign, userNs := b.userNs + sign)
  }

  /** The books once an address space with these areas and this executable exists. */
  function HoldMm(b: Books, exe: Option<File>, view: seq<VmaFields>): Books
    requires ExeKnown(b, exe) && AllKnown(b.files, view)
  {
    PostAll(TakeExe(WithMm(b, 1), exe, 1), view)
  }

  /** The books once its mappings and its executable are given back. */
  function TearDown(b: Books, exe: Option<File>, view: seq<VmaFields>): Books
    requires ExeKnown(b, exe) && AllKnown(b.files, view)
  {
    TakeExe(Unpost(b, view), exe, -1)
  }

  lemma TearDownUndoesHold(b: Books, exe: Option<File>, view: seq<VmaFields>)
    requires ExeKnown(b, exe) && AllKnown(b.files, view)
    ensures ExeKnown(HoldMm(b, exe, view), exe) && AllKnown(HoldMm(b, exe, view).files, view)
    ensures WithMm(TearDown(HoldMm(b, exe, view), exe, view), -1) == b
  {
    UnpostPostAll(TakeExe(WithMm(b, 1), exe, 1), view);
    if exe.Some? {
      BumpsCancel(b.files.refs, exe.value.id, 1);
    }
  }

  // ---------- teardown ----------

  /** exit_mmap: walks the list and gives back what each area holds. */
  method ExitMmap(mm: Mm, host: Host, ghost nodes: seq<Vma>, ghost view: seq<VmaFields>)
    requires Maps(mm, nodes, view) && AllKnown(host.books.files, view)
    modifies host`books
    ensures host.books == Unpost(old(host.books), view)
  {
    var v := mm.mmap;
    ghost var i := 0;
    while v != null
      invariant 0 <= i <= |nodes| && v == (if i < |nodes| then nodes[i] else null)
      invariant AllKnown(host.books.files, view[i..])
      invariant Unpost(host.books, view[i..]) == Unpost(old(host.books), view)
      decreases |nodes| - i
    {
      assert v.fields == view[i] && view[i..][0] == view[i] && view[i..][1..] == view[i + 1..];
      assert forall d :: d in view[i + 1..] ==> d in view[i..];
      host.books := Post(host.books, v.fields, -1);
      v := v.next;
      i := i + 1;
    }
  }

  /** __mmdrop: the last holder frees the structure. */
  method FreeDropped(mm: Mm, host: Host)
    requires mm.users == 0 && mm.count == 0 && mm.tornDown && !mm.freed
    modifies mm`freed, host`books
    ensures mm.freed
    ensures var b := old(host.books);
            host.books == b.(mms := b.mms - 1, pgds := b.pgds - 1, contexts := b.contexts - 1, userNs := b.userNs - 1)
  {
    host.books := host.books.(pgds := host.books.pgds - 1);
    host.books := host.books.(contexts := host.books.contexts - 1);
    host.books := host.books.(userNs := host.books.userNs - 1);
    host.books := host.books.(mms := host.books.mms - 1);
    mm.freed := true;
  }

  /** mmdrop by a lazy holder. */
  method Mmdrop(mm: Mm, host: Host, ghost lazy: nat)
    requires lazy > 0 && Counted(mm, lazy)
    modifies mm`count, mm`freed, host`books
    ensures Counted(mm, lazy - 1)
    ensures host.books == if mm.freed then WithMm(old(host.books), -1) else old(host.books)
  {
    mm.count := mm.count - 1;
    if mm.count == 0 {
      FreeDropped(mm, host);
    }
  }

  /** The reference that mmdrop puts. */
  method Mmgrab(mm: Mm, ghost lazy: nat)
    requires Counted(mm, lazy) && !mm.freed
    modifies mm`count
    ensures Counted(mm, lazy + 1)
  {
    mm.count := mm.count + 1;
  }

  /** mmget_not_zero: a torn-down address space is never revived. */
  method MmgetNotZero(mm: Mm, ghost lazy: nat) returns (ok: bool)
    requires Counted(mm, lazy)
    modifies mm`users
    ensures Counted(mm, lazy)
    ensures ok <==> !mm.tornDown
    ensures mm.users == old(mm.users) + if ok then 1 else 0
  {
    ok := mm.users != 0;
    if ok {
      mm.users := mm.users + 1;
    }
  }

  /** __mmput, for the user that was the last. */
  method PutLast(mm: Mm, host: Host, ghost lazy: nat, ghost nodes: seq<Vma>, ghost view: seq<VmaFields>)
    requires mm.users == 0 && mm.count == lazy + 1 && !mm.tornDown && !mm.freed
    requires Maps(mm, nodes, view) && AllKnown(host.books.files, view) && ExeKnown(host.books, mm.exeFile)
    modifies mm`count, mm`tornDown, mm`freed, mm`exeFile, host`books, host`modules
    ensures Counted(mm, lazy)
    ensures host.modules == old(host.modules) - if mm.binfmt then 1 else 0
    ensures host.books == (var b := TearDown(old(host.books), old(mm.exeFile), view);
                           if lazy == 0 then WithMm(b, -1) else b)
  {
    ExitMmap(mm, host, nodes, view);
    mm.tornDown := true;
    var exe := mm.exeFile;
    mm.exeFile := None;
    host.books := TakeExe(host.books, exe, -1);
    if mm.binfmt {
      host.modules := host.modules - 1;
    }
    Mmdrop(mm, host, lazy + 1);
  }

  /** mmput. */
  method Mmput(mm: Mm, host: Host, ghost lazy: nat, ghost nodes: seq<Vma>, ghost view: seq<VmaFields>)
    requires Counted(mm, lazy) && mm.users > 0
    requires Maps(mm, nodes, view) && AllKnown(host.books.files, view) && ExeKnown(host.books, mm.exeFile)
    modifies mm`users, mm`count, mm`tornDown, mm`freed, mm`exeFile, host`books, host`modules
    ensures Counted(mm, lazy) && mm.users == old(mm.users) - 1
    ensures mm.users > 0 ==>
              host.books == old(host.books) && host.modules == old(host.modules) && mm.exeFile == old(mm.exeFile)
    ensures mm.users == 0 ==>
      && host.modules == old(host.modules) - (if mm.binfmt then 1 else 0)
      && host.books == (var b := TearDown(old(host.books), old(mm.exeFile), view);
                        if lazy == 0 then WithMm(b, -1) else b)
  {
    mm.users := mm.users - 1;
    if mm.users == 0 {
      PutLast(mm, host, lazy, nodes, view);
    }
  }

  /** mmput by a user that is not the last. */
  method MmputShared(mm: Mm, ghost lazy: nat)
    requires Counted(mm, lazy) && mm.users > 1
    modifies mm`users
    ensures Counted(mm, lazy) && mm.users == old(mm.users) - 1
  {
    mm.users := mm.users - 1;
    if mm.users == 0 {
      assert false;
    }
  }

  /** get_task_mm: a kernel thread only borrows its address space. */
  method GetTaskMm(t: Task, ghost lazy: nat) returns (mm: Mm?)
    requires t.mm != null ==> Counted(t.mm, lazy) && t.mm.users > 0
    modifies (if t.mm == null then {} else {t.mm})`users
    ensures mm == if t.extras.kthread then null else t.mm
    ensures t.mm != null ==> Counted(t.mm, lazy) && t.mm.users == old(t.mm.users) + if mm != null then 1 else 0
  {
    mm := t.mm;
    if mm != null {
      if t.extras.kthread {
        mm := null;
      } else {
        mm.users := mm.users + 1;
      }
    }
  }

  // ---------- a living address space ----------

  /** What an address space is made of: its areas in order, what they say, and how many hold it lazily. */
  datatype Areas = Areas(nodes: seq<Vma>, view: seq<VmaFields>, lazy: nat)

  ghost predicate Lives(mm: Mm, host: Host, a: Areas)
    reads mm`mmap, mm`tree, mm`mapCount, mm`users, mm`count, mm`tornDown, mm`freed, mm`semHeld, mm`exeFile
    reads a.nodes, host`books
  {
    && Maps(mm, a.nodes, a.view) && Counted(mm, a.lazy) && mm.users > 0 && !mm.semHeld
    && AllKnown(host.books.files, a.view) && ExeKnown(host.books, mm.exeFile)
  }

  // ---------- setting up ----------

  /** allocate_mm. */
  method AllocMm(host: Host) returns (mm: Mm?)
    modifies host`books
    ensures mm == null ==> host.books == old(host.books)
    ensures mm != null ==> fresh(mm) && host.books == old(host.books).(mms := old(host.books).mms + 1)
  {
    if * {
      mm := new Mm();
      host.books := host.books.(mms := host.books.mms + 1);
    } else {
      mm := null;
    }
  }

  /** mm_init: on failure the structure has been freed here, once, and the caller must not touch it. */
  method MmInit(mm: Mm, host: Host) returns (ok: bool)
    modifies mm`mmap, mm`tree, mm`users, mm`count, mm`semHeld, mm`mapCount, mm`exeFile, mm`freed, mm`tornDown
    modifies host`books
    ensures ok ==>
      && Maps(mm, [], []) && Counted(mm, 0) && mm.users == 1 && mm.exeFile == None && !mm.semHeld
      && var b := old(host.books);
         host.books == b.(pgds := b.pgds + 1, contexts := b.contexts + 1, userNs := b.userNs + 1)
    ensures !ok ==> host.books == old(host.books).(mms := old(host.books).mms - 1) && mm.freed
  {
    mm.mmap := null;
    mm.tree := Leaf;
    mm.users := 1;
    mm.count := 1;
    mm.tornDown, mm.freed := false, false;
    mm.semHeld := false;
    mm.mapCount := 0;
    mm.exeFile := None;
    label failNoPgd: {
      label failNoContext: {
        var err := MayFail();
        if err != 0 { break failNoPgd; }
        host.books := host.books.(pgds := host.books.pgds + 1);
        err := MayFail();
        if err != 0 { break failNoContext; }
        host.books := host.books.(contexts := host.books.contexts + 1);
        host.books := host.books.(userNs := host.books.userNs + 1);
        return true;
      }
      host.books := host.books.(pgds := host.books.pgds - 1);
    }
    host.books := host.books.(mms := host.books.mms - 1);
    mm.freed := true;
    ok := false;
  }

  /** What a complete copy of an address space that shows view is. */
  ghost predicate IsCopy(mm: Mm, child: seq<Vma>, oldmm: Mm, view: seq<VmaFields>)
    reads mm`mmap, mm`tree, mm`mapCount, mm`vm, mm`exeFile, mm`binfmt, mm`semHeld
    reads mm`users, mm`count, mm`tornDown, mm`freed, child, oldmm`exeFile, oldmm`binfmt, oldmm`vm
  {
    && Maps(mm, child, Inherited(view))
    && Counted(mm, 0) && mm.users == 1 && !mm.semHeld
    && (mm.exeFile == oldmm.exeFile || mm.exeFile == None)
    && mm.binfmt == oldmm.binfmt
    && mm.vm == oldmm.vm.Minus(SkippedPages(view))
  }

  /** free_pt: no module was got yet, so none may be put; the rest goes with the last user. */
  method PutPartial(mm: Mm, host: Host, ghost b: Books, ghost child: seq<Vma>, ghost got: seq<VmaFields>)
    requires Maps(mm, child, got) && Counted(mm, 0) && mm.users == 1
    requires ExeKnown(b, mm.exeFile) && AllKnown(b.files, got)
    requires host.books == HoldMm(b, mm.exeFile, got)
    modifies mm`users, mm`count, mm`tornDown, mm`freed, mm`exeFile, mm`binfmt, host`books, host`modules
    ensures host.books == b && host.modules == old(host.modules) && mm.freed
  {
    mm.binfmt := false;
    MmputCopy(mm, host, b, child, got);
  }

  /** dup_mmap, of which only what the child inherits matters here. */
  method CopyMapOf(mm: Mm, oldmm: Mm, host: Host, ghost parent: seq<Vma>, ghost view: seq<VmaFields>)
    returns (retval: int, ghost child: seq<Vma>, ghost n: nat)
    requires mm != oldmm
    requires Maps(oldmm, parent, view) && AllKnown(host.books.files, view)
    requires ExeKnown(host.books, oldmm.exeFile)
    requires Maps(mm, [], []) && mm.exeFile == None
    requires !mm.semHeld && !oldmm.semHeld
    modifies mm`mmap, mm`tree, mm`mapCount, mm`vm, mm`exeFile, mm`semHeld
    modifies oldmm`semHeld, host`books, host`uprobeSections
    ensures !mm.semHeld && !oldmm.semHeld && host.uprobeSections == old(host.uprobeSections)
    ensures n <= |view| && (retval == 0 ==> n == |view|)
    ensures forall i :: 0 <= i < |child| ==> fresh(child[i])
    ensures mm.exeFile == oldmm.exeFile || mm.exeFile == None
    ensures Copying(mm, host, TakeExe(old(host.books), mm.exeFile, 1), view[..n], child)
    ensures retval == 0 ==> mm.vm == oldmm.vm.Minus(SkippedPages(view))
  {
    retval, child, n := DupMmap(mm, oldmm, host, parent, view);
  }

  /** dup_mm once the new structure is initialised: fill it, or put it again. */
  method FillCopy(mm: Mm, oldmm: Mm, host: Host, ghost b: Books, ghost parent: seq<Vma>, ghost view: seq<VmaFields>)
    returns (ok: bool, ghost child: seq<Vma>)
    requires mm != oldmm && Maps(oldmm, parent, view) && !oldmm.semHeld
    requires AllKnown(b.files, view) && ExeKnown(b, oldmm.exeFile)
    requires Maps(mm, [], []) && Counted(mm, 0) && mm.users == 1 && mm.exeFile == None && !mm.semHeld
    requires mm.binfmt == oldmm.binfmt && host.books == WithMm(b, 1)
    modifies mm, oldmm`semHeld, host
    ensures !oldmm.semHeld && host.uprobeSections == old(host.uprobeSections)
    ensures !ok ==> host.books == b && host.modules == old(host.modules) && mm.freed
    ensures ok ==>
      && (forall i :: 0 <= i < |child| ==> fresh(child[i]))
      && IsCopy(mm, child, oldmm, view)
      && AllKnown(b.files, Inherited(view))
      && host.books == HoldMm(b, mm.exeFile, Inherited(view))
      && host.modules == old(host.modules) + if mm.binfmt then 1 else 0
  {
    var err;
    ghost var n;
    label freePt: {
      err, child, n := CopyMapOf(mm, oldmm, host, parent, view);
      if err != 0 { break freePt; }
      assert view[..n] == view;
      if mm.binfmt {
        err := MayFail();
        if err != 0 { break freePt; }
        host.modules := host.modules + 1;
      }
      return true, child;
    }
    ok := false;
    PutPartial(mm, host, b, child, Inherited(view[..n]));
  }

  /** dup_mm: either a complete copy, or nothing at all has changed. */
  method DupMm(oldmm: Mm, host: Host, ghost parent: seq<Vma>, ghost view: seq<VmaFields>)
    returns (mm: Mm?, ghost child: seq<Vma>)
    requires Maps(oldmm, parent, view) && !oldmm.semHeld
    requires AllKnown(host.books.files, view) && ExeKnown(host.books, oldmm.exeFile)
    modifies oldmm`semHeld, host
    ensures !oldmm.semHeld && host.uprobeSections == old(host.uprobeSections)
    ensures mm == null ==> host.books == old(host.books) && host.modules == old(host.modules)
    ensures mm != null ==>
      && fresh(mm) && (forall i :: 0 <= i < |child| ==> fresh(child[i]))
      && IsCopy(mm, child, oldmm, view)
      && AllKnown(old(host.books).files, Inherited(view))
      && host.books == HoldMm(old(host.books), mm.exeFile, Inherited(view))
      && host.modules == old(host.modules) + if mm.binfmt then 1 else 0
  {
    child := [];
    mm := AllocMm(host);
    if mm == null { return; }
    // memcpy: for a moment the new structure points at the parent's areas
    mm.mmap, mm.tree, mm.mapCount, mm.vm := oldmm.mmap, oldmm.tree, oldmm.mapCount, oldmm.vm;
    mm.exeFile, mm.users, mm.count, mm.binfmt := oldmm.exeFile, oldmm.users, oldmm.count, oldmm.binfmt;
    var ok := MmInit(mm, host);
    if ok {
      ok, child := FillCopy(mm, oldmm, host, old(host.books), parent, view);
    }
    if !ok {
      mm := null;
    }
  }

  /** mmput of a copy that nobody else uses: the books return to what they were before it was made. */
  method MmputCopy(mm: Mm, host: Host, ghost b: Books, ghost child: seq<Vma>, ghost got: seq<VmaFields>)
    requires Maps(mm, child, got) && Counted(mm, 0) && mm.users == 1
    requires ExeKnown(b, mm.exeFile) && AllKnown(b.files, got)
    requires host.books == HoldMm(b, mm.exeFile, got)
    modifies mm`users, mm`count, mm`tornDown, mm`freed, mm`exeFile, host`books, host`modules
    ensures host.books == b && mm.freed
    ensures host.modules == old(host.modules) - if mm.binfmt then 1 else 0
  {
    TearDownUndoesHold(b, mm.exeFile, got);
    Mmput(mm, host, 0, child, got);
  }
}
