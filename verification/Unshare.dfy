/**
 unshare: a task leaves what it shares for copies of its own, while the other sharers come and go.
 */
module Unshare {
  import opened AddressSpace
  import opened CopyProcess
  import opened Tasks

  // ---------- flags ----------

  function Implied(flags: set<CloneFlag>): set<CloneFlag> {
    var a := if CLONE_NEWUSER in flags then flags + {CLONE_THREAD, CLONE_FS} else flags;
    var b := if CLONE_VM in a then a + {CLONE_SIGHAND} else a;
    var c := if CLONE_SIGHAND in b then b + {CLONE_THREAD} else b;
    if CLONE_NEWNS in c then c + {CLONE_FS} else c
  }

  lemma ImpliedFlagByFlag(flags: set<CloneFlag>)
    ensures CLONE_FS in Implied(flags) <==> CLONE_FS in flags || CLONE_NEWNS in flags || CLONE_NEWUSER in flags
    ensures CLONE_THREAD in Implied(flags) <==>
      CLONE_THREAD in flags || CLONE_SIGHAND in flags || CLONE_VM in flags || CLONE_NEWUSER in flags
    ensures CLONE_SIGHAND in Implied(flags) <==> CLONE_SIGHAND in flags || CLONE_VM in flags
    ensures forall f :: f != CLONE_FS && f != CLONE_THREAD && f != CLONE_SIGHAND ==>
              (f in Implied(flags) <==> f in flags)
  {
  }

  /** What must be unshared together. */
  predicate Closed(flags: set<CloneFlag>) {
    && (CLONE_NEWUSER in flags ==> CLONE_THREAD in flags && CLONE_FS in flags)
    && (CLONE_VM in flags ==> CLONE_SIGHAND in flags)
    && (CLONE_SIGHAND in flags ==> CLONE_THREAD in flags)
    && (CLONE_NEWNS in flags ==> CLONE_FS in flags)
  }

  /** One pass over the rules, in the order of the code, reaches the least closed set. */
  lemma ImpliedIsLeast(flags: set<CloneFlag>, others: set<CloneFlag>)
    ensures flags <= Implied(flags) && Closed(Implied(flags))
    ensures flags <= others && Closed(others) ==> Implied(flags) <= others
    ensures Implied(Implied(flags)) == Implied(flags)
  {
  }

  const ACCEPTED := {CLONE_THREAD, CLONE_FS, CLONE_NEWNS, CLONE_SIGHAND, CLONE_VM, CLONE_FILES, CLONE_SYSVSEM,
                     CLONE_NEWUTS, CLONE_NEWIPC, CLONE_NEWNET, CLONE_NEWUSER, CLONE_NEWPID, CLONE_NEWCGROUP}

  const NAMESPACES := {CLONE_NEWNS, CLONE_NEWUTS, CLONE_NEWIPC, CLONE_NEWNET, CLONE_NEWPID, CLONE_NEWCGROUP}

  /** check_unshare_flags; alone says that no task outside the group runs on the same mm. */
  method CheckUnshareFlags(t: Task, flags: set<CloneFlag>, alone: bool) returns (err: int)
    requires t.signal != null && t.sighand != null
    ensures err == 0 || err == -EINVAL
    ensures Closed(flags) ==>
      (err == 0 <==>
        && flags <= ACCEPTED
        && (CLONE_THREAD in flags ==> t.signal.group.nrThreads == 1)
        && (CLONE_SIGHAND in flags ==> t.sighand.count <= 1)
        && (CLONE_VM in flags ==> alone))
  {
    if !(flags <= ACCEPTED) { return -EINVAL; }
    if CLONE_THREAD in flags || CLONE_SIGHAND in flags || CLONE_VM in flags {
      if t.signal.group.nrThreads != 1 { return -EINVAL; }
    }
    if CLONE_SIGHAND in flags || CLONE_VM in flags {
      if t.sighand.count > 1 { return -EINVAL; }
    }
    if CLONE_VM in flags {
      if !alone { return -EINVAL; }
    }
    err := 0;
  }

  // ---------- copies ----------

  /** unshare_fs: reads the count without the lock. */
  method UnshareFs(k: Kernel, t: Task, flags: set<CloneFlag>) returns (err: int, newFs: Fs?)
    modifies k`slabs
    ensures newFs != null ==> fresh(newFs) && newFs.users == 1 && err == 0
    ensures newFs != null ==> CLONE_FS in flags && t.fs != null && t.fs.users != 1
    ensures err == 0 && CLONE_FS in flags && t.fs != null && t.fs.users != 1 ==> newFs != null
    ensures k.slabs == old(k.slabs).(fs := old(k.slabs).fs + if newFs != null then 1 else 0)
  {
    err, newFs := 0, null;
    if CLONE_FS !in flags || t.fs == null { return; }
    if t.fs.users == 1 { return; }
    err := MayFail();
    if err != 0 { return; }
    newFs := new Fs();
    k.slabs := k.slabs.(fs := k.slabs.fs + 1);
  }

  /** unshare_fd. */
  method UnshareFd(k: Kernel, t: Task, flags: set<CloneFlag>) returns (err: int, newFiles: Files?)
    modifies k`slabs
    ensures newFiles != null ==> fresh(newFiles) && newFiles.count == 1 && err == 0
    ensures newFiles != null ==> CLONE_FILES in flags && t.files != null && t.files.count > 1
    ensures err == 0 && CLONE_FILES in flags && t.files != null && t.files.count > 1 ==> newFiles != null
    ensures k.slabs == old(k.slabs).(files := old(k.slabs).files + if newFiles != null then 1 else 0)
  {
    err, newFiles := 0, null;
    if CLONE_FILES in flags && t.files != null && t.files.count > 1 {
      err := MayFail();
      if err != 0 { return; }
      newFiles := new Files();
      k.slabs := k.slabs.(files := k.slabs.files + 1);
    }
  }

  /** unshare_userns: new credentials, where a user namespace is asked for. */
  method UnshareUserns(k: Kernel, flags: set<CloneFlag>) returns (err: int, newCred: bool)
    modifies k`setup
    ensures newCred <==> err == 0 && CLONE_NEWUSER in flags
    ensures k.setup == old(k.setup).(creds := old(k.setup).creds + if newCred then 1 else 0)
  {
    err, newCred := 0, false;
    if CLONE_NEWUSER !in flags { return; }
    err := MayFail();
    if err != 0 { return; }
    newCred := true;
    k.setup := k.setup.(creds := k.setup.creds + 1);
  }

  lemma NamespacesFlagByFlag(flags: set<CloneFlag>)
    ensures flags * NAMESPACES != {} <==>
      (CLONE_NEWNS in flags || CLONE_NEWUTS in flags || CLONE_NEWIPC in flags || CLONE_NEWNET in flags ||
       CLONE_NEWPID in flags || CLONE_NEWCGROUP in flags)
  {
    assert forall f :: f in NAMESPACES && f in flags ==> f in flags * NAMESPACES;
    assert flags * NAMESPACES != {} ==> exists f :: f in flags * NAMESPACES;
  }

  /** unshare_nsproxy_namespaces. */
  method UnshareNsproxyNamespaces(k: Kernel, flags: set<CloneFlag>) returns (err: int, newNsproxy: bool)
    modifies k`run
    ensures newNsproxy <==> err == 0 && flags * NAMESPACES != {}
    ensures k.run == old(k.run).(namespaces := old(k.run).namespaces + if newNsproxy then 1 else 0)
  {
    err, newNsproxy := 0, false;
    if flags * NAMESPACES == {} { return; }
    err := MayFail();
    if err != 0 { return; }
    newNsproxy := true;
    k.run := k.run.(namespaces := k.run.namespaces + 1);
  }

  // ---------- other sharers ----------

  /** Other tasks join and leave; our own share keeps the structure alive. */
  method OthersUseFs(fs: Fs) returns (ghost others: nat)
    requires fs.users > 0
    modifies fs`users
    ensures fs.users == others + 1
  {
    var n: nat :| true;
    others := n;
    fs.users := n + 1;
  }

  method OthersUseFiles(files: Files) returns (ghost others: nat)
    requires files.count > 0
    modifies files`count
    ensures files.count == others + 1
  {
    var n: nat :| true;
    others := n;
    files.count := n + 1;
  }

  // ---------- leaving the System V IPC of old ----------

  /** A new IPC namespace takes the semaphore arrays of the old one out of reach. */
  predicate LeavesUndo(flags: set<CloneFlag>) {
    CLONE_NEWIPC in flags || CLONE_SYSVSEM in flags
  }

  function WithoutIpc(x: Extras, flags: set<CloneFlag>): Extras {
    x.(undoList := x.undoList && !LeavesUndo(flags), segments := if CLONE_NEWIPC in flags then 0 else x.segments)
  }

  /** One holder fewer of the undo list, where the task had one. */
  function UndoLeft(s: Setup, x: Extras, flags: set<CloneFlag>): Setup {
    s.(semundo := s.semundo - if x.undoList && LeavesUndo(flags) then 1 else 0)
  }

  /** exit_sem, and exit_shm with shm_init_task: the segments outlive the task's being their maker. */
  method LeaveIpc(k: Kernel, t: Task, flags: set<CloneFlag>)
    modifies k`setup, t`extras
    ensures t.extras == WithoutIpc(old(t.extras), flags) && k.setup == UndoLeft(old(k.setup), old(t.extras), flags)
    ensures t.extras.undoList == (old(t.extras).undoList && CLONE_SYSVSEM !in flags && CLONE_NEWIPC !in flags)
    ensures k.setup.semundo == old(k.setup).semundo -
      if old(t.extras).undoList && (CLONE_SYSVSEM in flags || CLONE_NEWIPC in flags) then 1 else 0
    ensures t.extras.segments == if CLONE_NEWIPC in flags then 0 else old(t.extras).segments
  {
    if LeavesUndo(flags) {
      ExitSem(k, t);
    }
    if CLONE_NEWIPC in flags {
      t.extras := t.extras.(segments := 0);
    }
  }

  // ---------- the swap ----------

  /** Under task_lock and the lock of the old structure: what is left over is to be freed. */
  method SwapFs(t: Task, newFs: Fs) returns (left: Fs?)
    requires t.fs != null && t.fs.users > 0 && newFs != t.fs
    modifies t`fs, t.fs`users
    ensures t.fs == newFs
    ensures old(t.fs).users == old(t.fs.users) - 1
    ensures left == if old(t.fs).users == 0 then old(t.fs) else null
  {
    var fs := t.fs;
    t.fs := newFs;
    fs.users := fs.users - 1;
    left := if fs.users != 0 then null else fs;
  }

  /** The table that is displaced is put later, once the locks are dropped. */
  method SwapFiles(t: Task, newFiles: Files) returns (displaced: Files?)
    modifies t`files
    ensures t.files == newFiles && displaced == old(t.files)
  {
    displaced := t.files;
    t.files := newFiles;
  }

  // ---------- giving back ----------

  method PutFiles(k: Kernel, files: Files)
    requires files.count > 0
    modifies k`slabs, files`count
    ensures files.count == old(files.count) - 1
    ensures k.slabs == old(k.slabs).(files := old(k.slabs).files - if files.count == 0 then 1 else 0)
  {
    files.count := files.count - 1;
    if files.count == 0 {
      k.slabs := k.slabs.(files := k.slabs.files - 1);
    }
  }

  method FreeFs(k: Kernel)
    modifies k`slabs
    ensures k.slabs == old(k.slabs).(fs := old(k.slabs).fs - 1)
  {
    k.slabs := k.slabs.(fs := k.slabs.fs - 1);
  }

  /** The labels from bad_unshare_cleanup_cred down; the success path falls through them with what it displaced. */
  method CleanUp(k: Kernel, newCred: bool, newFiles: Files?, newFs: Fs?)
    requires newFiles != null ==> newFiles.count > 0
    modifies k`setup, k`slabs, (if newFiles == null then {} else {newFiles})`count
    ensures k.setup == old(k.setup).(creds := old(k.setup).creds - if newCred then 1 else 0)
    ensures newFiles != null ==> newFiles.count == old(newFiles.count) - 1
    ensures k.slabs == old(k.slabs).(
                         files := old(k.slabs).files - (if newFiles != null && newFiles.count == 0 then 1 else 0),
                         fs := old(k.slabs).fs - if newFs != null then 1 else 0)
  {
    if newCred {
      k.setup := k.setup.(creds := k.setup.creds - 1);
    }
    if newFiles != null {
      PutFiles(k, newFiles);
    }
    if newFs != null {
      FreeFs(k);
    }
  }

  // ---------- the system call ----------

  /** What was copied for the task before anything was installed. */
  datatype Copies = Copies(fs: Fs?, files: Files?, cred: bool, nsproxy: bool)

  predicate Wanted(flags: set<CloneFlag>, c: Copies) {
    && (c.fs != null ==> CLONE_FS in flags) && (c.files != null ==> CLONE_FILES in flags)
    && (c.cred <==> CLONE_NEWUSER in flags) && (c.nsproxy <==> flags * NAMESPACES != {})
  }

  function WithCopies(s: Slabs, fs: bool, files: bool): Slabs {
    s.(fs := s.fs + (if fs then 1 else 0), files := s.files + if files then 1 else 0)
  }

  /** unshare_fs and unshare_fd: the copies that are called for, or an error and nothing. */
  method CopyFsAndFiles(k: Kernel, t: Task, flags: set<CloneFlag>) returns (err: int, newFs: Fs?, newFiles: Files?)
    modifies k`setup, k`slabs
    ensures err == 0 ==>
      && (newFs != null <==> CLONE_FS in flags && t.fs != null && t.fs.users != 1)
      && (newFiles != null <==> CLONE_FILES in flags && t.files != null && t.files.count > 1)
    ensures newFs != null ==> fresh(newFs) && newFs.users == 1
    ensures newFiles != null ==> fresh(newFiles) && newFiles.count == 1
    ensures err != 0 ==> newFs == null && newFiles == null
    ensures k.setup == old(k.setup) && k.slabs == WithCopies(old(k.slabs), newFs != null, newFiles != null)
  {
    newFiles := null;
    err, newFs := UnshareFs(k, t, flags);
    if err != 0 { return; }
    err, newFiles := UnshareFd(k, t, flags);
    if err != 0 {
      CleanUp(k, false, null, newFs);
      newFs := null;
    }
  }

  /** unshare_userns and unshare_nsproxy_namespaces, in the same way. */
  method CopyCredAndNsproxy(k: Kernel, flags: set<CloneFlag>) returns (err: int, newCred: bool, newNsproxy: bool)
    modifies k`setup, k`slabs, k`run
    ensures err == 0 ==> (newCred <==> CLONE_NEWUSER in flags) && (newNsproxy <==> flags * NAMESPACES != {})
    ensures err != 0 ==> !newCred && !newNsproxy
    ensures k.setup == old(k.setup).(creds := old(k.setup).creds + if newCred then 1 else 0)
    ensures k.run == old(k.run).(namespaces := old(k.run).namespaces + if newNsproxy then 1 else 0)
    ensures k.slabs == old(k.slabs)
  {
    newNsproxy := false;
    err, newCred := UnshareUserns(k, flags);
    if err != 0 { return; }
    err, newNsproxy := UnshareNsproxyNamespaces(k, flags);
    if err != 0 {
      CleanUp(k, newCred, null, null);
      newCred := false;
    }
  }

  /** All four copies, or an error and nothing. */
  method Prepare(k: Kernel, t: Task, flags: set<CloneFlag>) returns (err: int, c: Copies)
    modifies k`setup, k`slabs, k`run
    ensures err == 0 ==>
      && Wanted(flags, c)
      && (c.fs != null <==> CLONE_FS in flags && t.fs != null && t.fs.users != 1)
      && (c.files != null <==> CLONE_FILES in flags && t.files != null && t.files.count > 1)
      && (c.fs != null ==> fresh(c.fs) && c.fs.users == 1)
      && (c.files != null ==> fresh(c.files) && c.files.count == 1)
      && k.setup == old(k.setup).(creds := old(k.setup).creds + if c.cred then 1 else 0)
      && k.slabs == WithCopies(old(k.slabs), c.fs != null, c.files != null)
      && k.run == old(k.run).(namespaces := old(k.run).namespaces + if c.nsproxy then 1 else 0)
    ensures err != 0 ==> k.setup == old(k.setup) && k.slabs == old(k.slabs) && k.run == old(k.run)
  {
    c := Copies(null, null, false, false);
    var newFs: Fs?, newFiles: Files?, newCred: bool, newNsproxy: bool;
    err, newFs, newFiles := CopyFsAndFiles(k, t, flags);
    if err != 0 { return; }
    err, newCred, newNsproxy := CopyCredAndNsproxy(k, flags);
    if err != 0 {
      CleanUp(k, false, newFiles, newFs);
      return;
    }
    c := Copies(newFs, newFiles, newCred, newNsproxy);
  }

  /**
   Installs the copies and gives back what they replace.  Between the look at the counts and the locks, and
   again before the old table is put, the other sharers do as they like: othersFs and othersFiles count them
   at the swap and at the put.
   */
  method Install(k: Kernel, t: Task, flags: set<CloneFlag>, c: Copies)
    returns (ghost othersFs: nat, ghost othersFiles: nat)
    requires c.fs != null ==> t.fs != null && t.fs.users > 0 && c.fs != t.fs
    requires c.files != null ==> t.files != null && t.files.count > 0 && c.files != t.files
    modifies k`setup, k`slabs, k`run, t`fs, t`files, t`extras
    modifies (if t.fs == null then {} else {t.fs})`users, (if t.files == null then {} else {t.files})`count
    ensures t.fs == (if c.fs != null then c.fs else old(t.fs))
    ensures t.files == (if c.files != null then c.files else old(t.files))
    ensures c.fs != null ==> old(t.fs).users == othersFs
    ensures c.files != null ==> old(t.files).count == othersFiles
    ensures c.fs == null ==> othersFs == 0 && (old(t.fs) != null ==> old(t.fs).users == old(t.fs.users))
    ensures c.files == null ==> othersFiles == 0 && (old(t.files) != null ==> old(t.files).count == old(t.files.count))
    ensures t.extras == WithoutIpc(old(t.extras), flags)
    ensures k.setup == (var s := UndoLeft(old(k.setup), old(t.extras), flags);
                        s.(creds := s.creds - if c.cred then 1 else 0))
    ensures k.run == old(k.run).(namespaces := old(k.run).namespaces - if c.nsproxy then 1 else 0)
    ensures k.slabs == old(k.slabs).(
                         fs := old(k.slabs).fs - (if c.fs != null && othersFs == 0 then 1 else 0),
                         files := old(k.slabs).files - if c.files != null && othersFiles == 0 then 1 else 0)
  {
    othersFs, othersFiles := 0, 0;
    var leftFs: Fs?, leftFiles: Files? := null, null;
    LeaveIpc(k, t, flags);
    if c.nsproxy {
      // switch_task_namespaces puts the old one
      k.run := k.run.(namespaces := k.run.namespaces - 1);
    }
    if c.fs != null {
      othersFs := OthersUseFs(t.fs);
      leftFs := SwapFs(t, c.fs);
    }
    if c.files != null {
      leftFiles := SwapFiles(t, c.files);
      othersFiles := OthersUseFiles(leftFiles);
    }
    if c.cred {
      // commit_creds puts the old ones
      k.setup := k.setup.(creds := k.setup.creds - 1);
    }
    CleanUp(k, false, leftFiles, leftFs);
  }

  /** The flags that are asked for with those that they imply, and whether that can be done. */
  method CheckAsked(t: Task, asked: set<CloneFlag>, alone: bool) returns (err: int, flags: set<CloneFlag>)
    requires t.signal != null && t.sighand != null
    ensures err == 0 || err == -EINVAL
    ensures err == 0 <==>
      && asked <= ACCEPTED
      && (CLONE_THREAD in asked || CLONE_SIGHAND in asked || CLONE_VM in asked || CLONE_NEWUSER in asked ==>
            t.signal.group.nrThreads == 1)
      && (CLONE_SIGHAND in asked || CLONE_VM in asked ==> t.sighand.count <= 1)
      && (CLONE_VM in asked ==> alone)
    ensures CLONE_FS in flags <==> CLONE_FS in asked || CLONE_NEWNS in asked || CLONE_NEWUSER in asked
    ensures forall f :: f != CLONE_FS && f != CLONE_THREAD && f != CLONE_SIGHAND ==> (f in flags <==> f in asked)
  {
    flags := Implied(asked);
    ImpliedFlagByFlag(asked);
    err := CheckUnshareFlags(t, flags, alone);
  }

  /** What unshare does once the flags have been accepted. */
  method CopyAndInstall(k: Kernel, t: Task, flags: set<CloneFlag>)
    returns (err: int, ghost othersFs: nat, ghost othersFiles: nat)
    requires (t.fs != null ==> t.fs.users > 0) && (t.files != null ==> t.files.count > 0)
    modifies k`setup, k`slabs, k`run, t`fs, t`files, t`extras
    modifies (if t.fs == null then {} else {t.fs})`users, (if t.files == null then {} else {t.files})`count
    ensures k.run == old(k.run)
    ensures t.extras == (if err == 0 then WithoutIpc(old(t.extras), flags) else old(t.extras))
    ensures k.setup == if err == 0 then UndoLeft(old(k.setup), old(t.extras), flags) else old(k.setup)
    ensures if err == 0 && CLONE_FS in flags && old(t.fs) != null && old(t.fs.users) != 1
            then fresh(t.fs) && t.fs.users == 1 && old(t.fs).users == othersFs
            else othersFs == 0 && t.fs == old(t.fs) && (t.fs != null ==> t.fs.users == old(t.fs.users))
    ensures if err == 0 && CLONE_FILES in flags && old(t.files) != null && old(t.files.count) > 1
            then fresh(t.files) && t.files.count == 1 && old(t.files).count == othersFiles
            else
              othersFiles == 0 && t.files == old(t.files) && (t.files != null ==> t.files.count == old(t.files.count))
    ensures k.slabs == WithCopies(old(k.slabs), othersFs > 0, othersFiles > 0)
  {
    othersFs, othersFiles := 0, 0;
    var c: Copies;
    err, c := Prepare(k, t, flags);
    if err == 0 {
      othersFs, othersFiles := Install(k, t, flags, c);
    }
  }

  /**
   unshare.  An error leaves everything as it was.  Otherwise the task alone has each structure that was
   copied for it; the old one counts exactly the others, and is freed here exactly when there are none; and
   its share of an undo list is given back exactly when the flags ask for that.
   */
  method Unshare(k: Kernel, t: Task, asked: set<CloneFlag>, alone: bool)
    returns (err: int, ghost othersFs: nat, ghost othersFiles: nat)
    requires t.signal != null && t.sighand != null
    requires (t.fs != null ==> t.fs.users > 0) && (t.files != null ==> t.files.count > 0)
    modifies k`setup, k`slabs, k`run, t`fs, t`files, t`extras
    modifies (if t.fs == null then {} else {t.fs})`users, (if t.files == null then {} else {t.files})`count
    ensures !(asked <= ACCEPTED) ==> err == -EINVAL
    ensures t.signal.group.nrThreads != 1
            && (CLONE_THREAD in asked || CLONE_SIGHAND in asked || CLONE_VM in asked || CLONE_NEWUSER in asked) ==>
              err == -EINVAL
    ensures t.sighand.count > 1 && (CLONE_SIGHAND in asked || CLONE_VM in asked) ==> err == -EINVAL
    ensures !alone && CLONE_VM in asked ==> err == -EINVAL
    ensures k.run == old(k.run)
    ensures t.extras.undoList ==
            (old(t.extras).undoList && (err != 0 || (CLONE_SYSVSEM !in asked && CLONE_NEWIPC !in asked)))
    ensures k.setup == old(k.setup).(
                         semundo := old(k.setup).semundo -
                           if err == 0 && old(t.extras).undoList && (CLONE_SYSVSEM in asked || CLONE_NEWIPC in asked)
                           then 1 else 0)
    ensures t.extras.segments == if err == 0 && CLONE_NEWIPC in asked then 0 else old(t.extras).segments
    ensures t.extras == old(t.extras).(undoList := t.extras.undoList, segments := t.extras.segments)
    ensures if err == 0 && (CLONE_FS in asked || CLONE_NEWNS in asked || CLONE_NEWUSER in asked)
               && old(t.fs) != null && old(t.fs.users) != 1
            then fresh(t.fs) && t.fs.users == 1 && old(t.fs).users == othersFs
            else othersFs == 0 && t.fs == old(t.fs) && (t.fs != null ==> t.fs.users == old(t.fs.users))
    ensures if err == 0 && CLONE_FILES in asked && old(t.files) != null && old(t.files.count) > 1
            then fresh(t.files) && t.files.count == 1 && old(t.files).count == othersFiles
            else
              othersFiles == 0 && t.files == old(t.files) && (t.files != null ==> t.files.count == old(t.files.count))
    ensures k.slabs == WithCopies(old(k.slabs), othersFs > 0, othersFiles > 0)
  {
    othersFs, othersFiles := 0, 0;
    var flags;
    err, flags := CheckAsked(t, asked, alone);
    if err == 0 {
      err, othersFs, othersFiles := CopyAndInstall(k, t, flags);
    }
  }

  /** unshare_files, for exec: the old table goes to the caller, with the share of it that the task had. */
  method UnshareFiles(k: Kernel, t: Task) returns (err: int, displaced: Files?)
    modifies k`slabs, t`files
    ensures displaced == if err == 0 && old(t.files) != null && old(t.files.count) > 1 then old(t.files) else null
    ensures displaced != null ==> fresh(t.files) && t.files.count == 1
    ensures displaced == null ==> t.files == old(t.files)
    ensures k.slabs == old(k.slabs).(files := old(k.slabs).files + if displaced != null then 1 else 0)
  {
    var copy: Files?;
    err, copy := UnshareFd(k, t, {CLONE_FILES});
    if err != 0 || copy == null {
      displaced := null;
      return;
    }
    displaced := SwapFiles(t, copy);
  }
}
