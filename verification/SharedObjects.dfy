/**
 The methods on real structures take the steps of Sharing.  For every step of a task there is a method here
 that runs the code of that step and shows that the counts, and for an address space also its two flags, are
 those of the machine's next state.  First, which makes the structures of boot, and the explicit getters of
 anything but an address space have no code in the modelled files.
 */
module SharedObjects {
  import opened AddressSpace
  import opened CopyProcess
  import opened MmStruct
  import opened Sharing
  import opened Tasks
  import opened Unshare

  /** The parent holds a structure of the kind, and the child holds none yet. */
  predicate MayTake(s: Sharing.State, parent: nat, child: nat, kind: Kind) {
    parent != child && (parent, kind) in s.held && (child, kind) !in s.held && (child, kind) !in s.pending
  }

  // ---------- address spaces ----------

  /** mm is structure r of s: both counts, whether it is torn down, and whether it is freed. */
  ghost predicate IsMm(mm: Mm, s: Sharing.State, r: nat)
    reads mm`users, mm`count, mm`tornDown, mm`freed
  {
    && r < |s.objs| && s.objs[r].kind == MmK
    && mm.users == s.objs[r].count && mm.count == s.objs[r].structCount
    && (mm.tornDown <==> TearDown(r) in s.log)
    && (mm.freed <==> Free(r) in s.log)
  }

  /** In terms of the invariant of MmStruct, whose lazy holders are those of s. */
  lemma IsMmMeansCounted(mm: Mm, s: Sharing.State, r: nat)
    requires Inv(s) && r < |s.objs| && s.objs[r].kind == MmK
    ensures IsMm(mm, s, r) <==> mm.users == s.objs[r].count && MmStruct.Counted(mm, s.objs[r].lazy)
  {
    assert Sharing.Counted(s, r);
    assert forall e :: e in s.log <==> multiset(s.log)[e] > 0;
  }

  /** copy_mm: the child's address space is the parent's with one user more, or a new structure. */
  method TakeMm(host: Host, cur: Task, p: Task, args: Clone, ghost a: Areas,
                ghost s: Sharing.State, ghost parent: nat, ghost child: nat)
    returns (retval: int)
    requires Inv(s) && Sound(s) && p != cur && cur.mm != null && Lives(cur.mm, host, a)
    requires MayTake(s, parent, child, MmK)
    requires IsMm(cur.mm, s, s.held[(parent, MmK)]) && a.lazy == s.objs[s.held[(parent, MmK)]].lazy
    modifies p`mm, cur.mm`users, cur.mm`semHeld, host
    ensures retval == 0 ==>
      Sharing.Enabled(s, Take(parent, child, MmK, CLONE_VM in args.flags)) &&
      var s' := Sharing.Next(s, Take(parent, child, MmK, CLONE_VM in args.flags));
      && p.mm != null && (child, MmK) in s'.held && IsMm(p.mm, s', s'.held[(child, MmK)])
      && IsMm(cur.mm, s', s.held[(parent, MmK)])
      && (p.mm == cur.mm <==> s'.held[(child, MmK)] == s.held[(parent, MmK)])
    ensures retval != 0 ==> IsMm(cur.mm, s, s.held[(parent, MmK)])
  {
    ghost var step := Take(parent, child, MmK, CLONE_VM in args.flags);
    ghost var r := s.held[(parent, MmK)];
    IsMmMeansCounted(cur.mm, s, r);
    StepKeepsInv(s, step);
    ghost var nodes;
    retval, nodes := CopyMm(host, cur, p, args, a);
    if retval == 0 {
      IsMmMeansCounted(cur.mm, Sharing.Next(s, step), r);
      IsMmMeansCounted(p.mm, Sharing.Next(s, step), Sharing.Next(s, step).held[(child, MmK)]);
    } else {
      IsMmMeansCounted(cur.mm, s, r);
    }
  }

  /** mmput, of a task's share or of an explicit getter's. */
  method PutMm(mm: Mm, host: Host, ghost s: Sharing.State, ghost r: nat, ghost step: Sharing.Step,
               ghost nodes: seq<Vma>, ghost view: seq<VmaFields>)
    requires Inv(s) && Sound(s) && r < |s.objs| && IsMm(mm, s, r)
    requires || (step == Put(r) && s.objs[r].getters > 0)
             || (step.Drop? && step.kind == MmK && (step.task, MmK) in s.held && (step.task, MmK) !in s.pending
                 && s.held[(step.task, MmK)] == r)
    requires Maps(mm, nodes, view) && AllKnown(host.books.files, view) && ExeKnown(host.books, mm.exeFile)
    modifies mm`users, mm`count, mm`tornDown, mm`freed, mm`exeFile, host`books, host`modules
    ensures Sharing.Enabled(s, step) && IsMm(mm, Sharing.Next(s, step), r)
  {
    IsMmMeansCounted(mm, s, r);
    StepKeepsInv(s, step);
    MmStruct.Mmput(mm, host, s.objs[r].lazy, nodes, view);
    IsMmMeansCounted(mm, Sharing.Next(s, step), r);
  }

  /** get_task_mm, by whoever asks for the address space of task t; a kernel thread's is not handed out. */
  method GetTasksMm(task: Task, ghost s: Sharing.State, ghost t: nat) returns (mm: Mm?)
    requires Inv(s) && Sound(s) && (t, MmK) in s.held
    requires task.mm != null && IsMm(task.mm, s, s.held[(t, MmK)])
    modifies task.mm`users
    ensures mm == if task.extras.kthread then null else task.mm
    ensures Sharing.Enabled(s, Get(t, MmK))
    ensures IsMm(task.mm, if mm == null then s else Sharing.Next(s, Get(t, MmK)), s.held[(t, MmK)])
  {
    ghost var r := s.held[(t, MmK)];
    IsMmMeansCounted(task.mm, s, r);
    StepKeepsInv(s, Get(t, MmK));
    mm := GetTaskMm(task, s.objs[r].lazy);
    IsMmMeansCounted(task.mm, s, r);
    IsMmMeansCounted(task.mm, Sharing.Next(s, Get(t, MmK)), r);
  }

  /** mmget_not_zero. */
  method GetMm(mm: Mm, ghost s: Sharing.State, ghost r: nat) returns (ok: bool)
    requires Inv(s) && Sound(s) && IsMm(mm, s, r) && mm.count > 0
    modifies mm`users
    ensures Sharing.Enabled(s, GetNotZero(r)) && IsMm(mm, Sharing.Next(s, GetNotZero(r)), r)
    ensures ok <==> Sharing.Next(s, GetNotZero(r)) != s
  {
    IsMmMeansCounted(mm, s, r);
    StepKeepsInv(s, GetNotZero(r));
    ok := MmgetNotZero(mm, s.objs[r].lazy);
    IsMmMeansCounted(mm, Sharing.Next(s, GetNotZero(r)), r);
  }

  /** A lazy reference, as the scheduler takes one. */
  method GrabMm(mm: Mm, ghost s: Sharing.State, ghost r: nat)
    requires Inv(s) && Sound(s) && IsMm(mm, s, r) && mm.count > 0
    modifies mm`count
    ensures Sharing.Enabled(s, Grab(r)) && IsMm(mm, Sharing.Next(s, Grab(r)), r)
  {
    IsMmMeansCounted(mm, s, r);
    StepKeepsInv(s, Grab(r));
    Mmgrab(mm, s.objs[r].lazy);
    IsMmMeansCounted(mm, Sharing.Next(s, Grab(r)), r);
  }

  /** mmdrop. */
  method DropMm(mm: Mm, host: Host, ghost s: Sharing.State, ghost r: nat)
    requires Inv(s) && Sound(s) && IsMm(mm, s, r) && s.objs[r].lazy > 0
    modifies mm`count, mm`freed, host`books
    ensures Sharing.Enabled(s, LazyDrop(r)) && IsMm(mm, Sharing.Next(s, LazyDrop(r)), r)
  {
    IsMmMeansCounted(mm, s, r);
    StepKeepsInv(s, LazyDrop(r));
    Mmdrop(mm, host, s.objs[r].lazy);
    IsMmMeansCounted(mm, Sharing.Next(s, LazyDrop(r)), r);
  }

  // ---------- the structures with one count ----------

  /** The count of structure r, which is of a kind that is freed when its count is gone. */
  ghost predicate Shows(count: nat, s: Sharing.State, r: nat, kind: Kind) {
    r < |s.objs| && s.objs[r].kind == kind && kind != MmK && count == s.objs[r].count
  }

  /** What the child holds after a fork, and what the parent does: one structure, or two. */
  ghost predicate Taken(parentCount: nat, childCount: nat, same: bool, s: Sharing.State, step: Sharing.Step)
    requires Inv(s) && Sound(s) && step.Take?
  {
    Sharing.Enabled(s, step) &&
    var s' := Sharing.Next(s, step);
    var r := s.held[(step.parent, step.kind)];
    && (step.child, step.kind) in s'.held && Shows(childCount, s', s'.held[(step.child, step.kind)], step.kind)
    && Shows(parentCount, s', r, step.kind) && (same <==> s'.held[(step.child, step.kind)] == r)
  }

  /** What a step that lets go of structure r leaves in its count, and in the slab if that is all. */
  ghost predicate LetGo(count: nat, freed: int, s: Sharing.State, step: Sharing.Step, r: nat, kind: Kind)
    requires Inv(s) && Sound(s)
  {
    Sharing.Enabled(s, step) &&
    var s' := Sharing.Next(s, step);
    Shows(count, s', r, kind) && freed == if s'.log == s.log + [Free(r)] then 1 else 0
  }

  /** copy_files. */
  method TakeFiles(k: Kernel, cur: Task, p: Task, args: Clone,
                   ghost s: Sharing.State, ghost parent: nat, ghost child: nat)
    returns (retval: int)
    requires Inv(s) && Sound(s) && p != cur && p.files == cur.files && cur.files != null
    requires MayTake(s, parent, child, FilesK)
    requires Shows(cur.files.count, s, s.held[(parent, FilesK)], FilesK)
    modifies k`slabs, p`files, cur.files`count
    ensures retval == 0 ==>
      && p.files != null
      && Taken(cur.files.count, p.files.count, p.files == cur.files, s,
               Take(parent, child, FilesK, CLONE_FILES in args.flags))
    ensures retval != 0 ==> Shows(cur.files.count, s, s.held[(parent, FilesK)], FilesK)
  {
    retval := CopyFiles(k, cur, p, args);
  }

  /** copy_fs. */
  method TakeFs(k: Kernel, cur: Task, p: Task, args: Clone,
                ghost s: Sharing.State, ghost parent: nat, ghost child: nat)
    returns (retval: int)
    requires Inv(s) && Sound(s) && p != cur && p.fs == cur.fs && cur.fs != null
    requires MayTake(s, parent, child, FsK)
    requires Shows(cur.fs.users, s, s.held[(parent, FsK)], FsK)
    modifies k`slabs, p`fs, cur.fs`users
    ensures retval == 0 ==>
      && p.fs != null
      && Taken(cur.fs.users, p.fs.users, p.fs == cur.fs, s, Take(parent, child, FsK, CLONE_FS in args.flags))
    ensures retval != 0 ==> Shows(cur.fs.users, s, s.held[(parent, FsK)], FsK)
  {
    retval := CopyFs(k, cur, p, args);
  }

  /** copy_sighand. */
  method TakeSighand(k: Kernel, cur: Task, p: Task, args: Clone,
                     ghost s: Sharing.State, ghost parent: nat, ghost child: nat)
    returns (retval: int)
    requires Inv(s) && Sound(s) && p != cur && p.sighand == cur.sighand && cur.sighand != null
    requires MayTake(s, parent, child, SighandK)
    requires Shows(cur.sighand.count, s, s.held[(parent, SighandK)], SighandK)
    modifies k`slabs, p`sighand, cur.sighand`count
    ensures retval == 0 ==>
      && p.sighand != null
      && Taken(cur.sighand.count, p.sighand.count, p.sighand == cur.sighand, s,
               Take(parent, child, SighandK, CLONE_SIGHAND in args.flags))
    ensures retval != 0 ==> Shows(cur.sighand.count, s, s.held[(parent, SighandK)], SighandK)
  {
    retval := CopySighand(k, cur, p, args);
  }

  /** exit_files. */
  method DropFiles(k: Kernel, p: Task, ghost s: Sharing.State, ghost t: nat)
    requires Inv(s) && Sound(s) && (t, FilesK) in s.held && (t, FilesK) !in s.pending
    requires p.files != null && Shows(p.files.count, s, s.held[(t, FilesK)], FilesK)
    modifies k`slabs, p`files, p.files`count
    ensures p.files == null
    ensures LetGo(old(p.files).count, old(k.slabs.files) - k.slabs.files, s, Drop(t, FilesK), s.held[(t, FilesK)],
                  FilesK)
  {
    ExitFiles(k, p);
  }

  /** exit_fs. */
  method DropFs(k: Kernel, p: Task, ghost s: Sharing.State, ghost t: nat)
    requires Inv(s) && Sound(s) && (t, FsK) in s.held && (t, FsK) !in s.pending
    requires p.fs != null && Shows(p.fs.users, s, s.held[(t, FsK)], FsK)
    modifies k`slabs, p`fs, p.fs`users
    ensures p.fs == null
    ensures LetGo(old(p.fs).users, old(k.slabs.fs) - k.slabs.fs, s, Drop(t, FsK), s.held[(t, FsK)], FsK)
  {
    ExitFs(k, p);
  }

  /** __cleanup_sighand. */
  method DropSighand(k: Kernel, sighand: Sighand, ghost s: Sharing.State, ghost t: nat)
    requires Inv(s) && Sound(s) && (t, SighandK) in s.held && (t, SighandK) !in s.pending
    requires Shows(sighand.count, s, s.held[(t, SighandK)], SighandK)
    modifies k`slabs, sighand`count
    ensures LetGo(sighand.count, old(k.slabs.sighands) - k.slabs.sighands, s, Drop(t, SighandK),
                  s.held[(t, SighandK)], SighandK)
  {
    CleanupSighand(k, sighand);
  }

  // ---------- unshare ----------

  /** unshare_fs: a copy is made only where the step is possible, and is then the machine's new structure. */
  method CopyOfFs(k: Kernel, task: Task, flags: set<CloneFlag>, ghost s: Sharing.State, ghost t: nat)
    returns (err: int, newFs: Fs?)
    requires Inv(s) && Sound(s) && task.fs != null && (t, FsK) in s.held && (t, FsK) !in s.pending
    requires Shows(task.fs.users, s, s.held[(t, FsK)], FsK)
    modifies k`slabs
    ensures newFs != null ==>
      && Sharing.Enabled(s, Copy(t, FsK))
      && var s' := Sharing.Next(s, Copy(t, FsK));
         Shows(newFs.users, s', s'.pending[(t, FsK)], FsK) && Shows(task.fs.users, s', s'.held[(t, FsK)], FsK)
    ensures err == 0 && CLONE_FS in flags && s.objs[s.held[(t, FsK)]].count != 1 ==> newFs != null
  {
    err, newFs := UnshareFs(k, task, flags);
  }

  /** unshare_fd. */
  method CopyOfFiles(k: Kernel, task: Task, flags: set<CloneFlag>, ghost s: Sharing.State, ghost t: nat)
    returns (err: int, newFiles: Files?)
    requires Inv(s) && Sound(s) && task.files != null && (t, FilesK) in s.held && (t, FilesK) !in s.pending
    requires Shows(task.files.count, s, s.held[(t, FilesK)], FilesK)
    modifies k`slabs
    ensures newFiles != null ==>
      && Sharing.Enabled(s, Copy(t, FilesK))
      && var s' := Sharing.Next(s, Copy(t, FilesK));
         && Shows(newFiles.count, s', s'.pending[(t, FilesK)], FilesK)
         && Shows(task.files.count, s', s'.held[(t, FilesK)], FilesK)
    ensures err == 0 && CLONE_FILES in flags && s.objs[s.held[(t, FilesK)]].count != 1 ==> newFiles != null
  {
    err, newFiles := UnshareFd(k, task, flags);
  }

  /** The locked swap of unshare: what it leaves over to be freed is what the step frees. */
  method SwapFsOf(task: Task, newFs: Fs, ghost s: Sharing.State, ghost t: nat) returns (left: Fs?)
    requires Inv(s) && Sound(s) && Private(s) && (t, FsK) in s.held && (t, FsK) in s.pending
    requires task.fs != null && newFs != task.fs
    requires Shows(task.fs.users, s, s.held[(t, FsK)], FsK) && Shows(newFs.users, s, s.pending[(t, FsK)], FsK)
    modifies task`fs, task.fs`users
    ensures Sharing.Enabled(s, Swap(t, FsK))
    ensures task.fs == newFs && Shows(newFs.users, Sharing.Next(s, Swap(t, FsK)), s.pending[(t, FsK)], FsK)
    ensures Sharing.Next(s, Swap(t, FsK)).held[(t, FsK)] == s.pending[(t, FsK)]
    ensures LetGo(old(task.fs).users, if left != null then 1 else 0, s, Swap(t, FsK), s.held[(t, FsK)], FsK)
  {
    PrivateIsUnheld(s, (t, FsK));
    assert (t, FsK) in Holders(s.held, s.held[(t, FsK)]);
    left := SwapFs(task, newFs);
  }

  /** The swap of the table: both keep their counts, and the displaced one is now what is pending. */
  method SwapFilesOf(task: Task, newFiles: Files, ghost s: Sharing.State, ghost t: nat) returns (displaced: Files)
    requires Inv(s) && Sound(s) && (t, FilesK) in s.held && (t, FilesK) in s.pending && task.files != null
    requires Shows(task.files.count, s, s.held[(t, FilesK)], FilesK)
    requires Shows(newFiles.count, s, s.pending[(t, FilesK)], FilesK)
    modifies task`files
    ensures task.files == newFiles && displaced == old(task.files)
    ensures Sharing.Enabled(s, Swap(t, FilesK)) &&
            var s' := Sharing.Next(s, Swap(t, FilesK));
            && Shows(newFiles.count, s', s'.held[(t, FilesK)], FilesK)
            && Shows(displaced.count, s', s'.pending[(t, FilesK)], FilesK)
  {
    displaced := SwapFiles(task, newFiles);
  }

  /** put_files_struct, at the end of unshare: of the copy after an error, else of the table displaced. */
  method AbandonFiles(k: Kernel, files: Files, ghost s: Sharing.State, ghost t: nat)
    requires Inv(s) && Sound(s) && (t, FilesK) in s.pending
    requires Shows(files.count, s, s.pending[(t, FilesK)], FilesK)
    modifies k`slabs, files`count
    ensures LetGo(files.count, old(k.slabs.files) - k.slabs.files, s, Abandon(t, FilesK), s.pending[(t, FilesK)],
                  FilesK)
  {
    PutFiles(k, files);
  }

  /** free_fs_struct, after an error: it does not look at the count, which nobody else can have raised. */
  method AbandonFs(k: Kernel, ghost s: Sharing.State, ghost t: nat)
    requires Inv(s) && Sound(s) && Private(s) && (t, FsK) in s.pending
    modifies k`slabs
    ensures LetGo(0, old(k.slabs.fs) - k.slabs.fs, s, Abandon(t, FsK), s.pending[(t, FsK)], FsK)
  {
    PrivateIsUnheld(s, (t, FsK));
    FreeFs(k);
  }
}
