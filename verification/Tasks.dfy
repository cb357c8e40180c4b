/**
 The task structure and the reference-counted structures that tasks share.
 */
module Tasks {
  import opened AddressSpace
  import opened Wrappers

  /** files_struct: the descriptor table. */
  class Files {
    var count: nat

    constructor ()
      ensures count == 1
    {
      count := 1;
    }
  }

  /** fs_struct: root, working directory and umask. */
  class Fs {
    var users: nat
    var inExec: bool

    constructor ()
      ensures users == 1 && !inExec
    {
      users, inExec := 1, false;
    }
  }

  /** sighand_struct: the signal handlers. */
  class Sighand {
    var count: nat

    constructor ()
      ensures count == 1
    {
      count := 1;
    }
  }

  /** The three counts of a thread group, and whether it is an init (SIGNAL_UNKILLABLE). */
  datatype Group = Group(nrThreads: nat, live: nat, sigcnt: nat, unkillable: bool)

  /** signal_struct: what the threads of one thread group share. */
  class Signal {
    var group: Group

    constructor ()
      ensures group == Group(1, 1, 1, false)
    {
      group := Group(1, 1, 1, false);
    }
  }

  /** vm_struct of a kernel stack: the memory zone of each of its pages. */
  class StackArea {
    const zones: seq<nat>

    constructor (zones: seq<nat>)
      ensures this.zones == zones
    {
      this.zones := zones;
    }
  }

  /**
   Who a task is: its number, its place in a thread group and its place in the process tree, and for a
   leader the numbers of its process group and its session.
   */
  datatype Identity = Identity(
    pid: nat, tgid: nat, exitSignal: int, groupLeader: Task?, realParent: Task?, pgrp: nat, session: nat)

  /** io_context, of which copy_io reads the priority; None for one that is not valid. */
  datatype IoContext = IoContext(priority: Option<nat>)

  /** What else a task points at or is: undoList is its semaphore undo list, segments the memory it has made. */
  datatype Extras = Extras(
    ioContext: Option<IoContext>, seccompFilter: bool, undoList: bool, segments: nat, kthread: bool)

  class Task {
    var files: Files?
    var fs: Fs?
    var sighand: Sighand?
    var signal: Signal?
    var mm: Mm?
    var extras: Extras
    var id: Identity
    var usage: nat
    var dead: bool            // state == TASK_DEAD
    var nprocExceeded: bool   // PF_NPROC_EXCEEDED

    var stack: StackArea?
    var stackVmArea: StackArea?
    var stackRefcount: nat

    /** Memory straight from the slab: nothing is known about its contents. */
    constructor ()
    {
    }

    ghost predicate SharesLike(src: Task)
      reads this`files, this`fs, this`sighand, this`signal, this`mm, this`extras, this`id
      reads src`files, src`fs, src`sighand, src`signal, src`mm, src`extras, src`id
    {
      && files == src.files && fs == src.fs && sighand == src.sighand
      && signal == src.signal && mm == src.mm && extras == src.extras && id == src.id
    }

    ghost predicate StateLike(src: Task)
      reads this`usage, this`dead, this`nprocExceeded, this`stack, this`stackVmArea, this`stackRefcount
      reads src`usage, src`dead, src`nprocExceeded, src`stack, src`stackVmArea, src`stackRefcount
    {
      && usage == src.usage && dead == src.dead
      && nprocExceeded == src.nprocExceeded
      && stack == src.stack && stackVmArea == src.stackVmArea && stackRefcount == src.stackRefcount
    }

    method CopySharing(src: Task)
      requires src != this
      modifies `files, `fs, `sighand, `signal, `mm, `extras, `id
      ensures SharesLike(src)
    {
      files, fs, sighand := src.files, src.fs, src.sighand;
      signal, mm, extras, id := src.signal, src.mm, src.extras, src.id;
    }

    method CopyState(src: Task)
      requires src != this
      modifies `usage, `dead, `nprocExceeded, `stack, `stackVmArea, `stackRefcount
      ensures StateLike(src)
    {
      usage, dead, nprocExceeded := src.usage, src.dead, src.nprocExceeded;
      stack, stackVmArea, stackRefcount := src.stack, src.stackVmArea, src.stackRefcount;
    }

    /** The struct assignment of arch_dup_task_struct: every field, the stack's included. */
    method CopyFrom(src: Task)
      requires src != this
      modifies this
      ensures SharesLike(src) && StateLike(src)
    {
      CopySharing(src);
      CopyState(src);
    }
  }
}
