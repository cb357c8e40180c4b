/**
 copy_process: a long sequence of acquisitions, each of which may fail, and the ladder that undoes
 them.  The function is cut at its ladder into nested sections; a section takes its own resources,
 runs the next section, and gives its own back, newest first, when anything after them failed.
 */
module CopyProcess {
  import opened AddressSpace
  import opened MmStruct
  import opened Tasks
  import opened Wrappers
  import TaskStacks

  const EAGAIN := 11
  const EINVAL := 22
  const ERESTARTNOINTR := 513

  datatype CloneFlag =
    | CLONE_VM | CLONE_FS | CLONE_FILES | CLONE_SIGHAND | CLONE_PARENT | CLONE_THREAD
    | CLONE_NEWNS | CLONE_NEWUSER | CLONE_NEWPID | CLONE_IO
    | CLONE_SYSVSEM | CLONE_NEWUTS | CLONE_NEWIPC | CLONE_NEWNET | CLONE_NEWCGROUP | CLONE_OTHER(bit: nat)

  /** clone_flags: the flag bits, and the exit signal in the CSIGNAL byte. */
  datatype Clone = Clone(flags: set<CloneFlag>, csignal: nat)

  /**
   One call of copy_process: the number that alloc_pid will hand out, or 0 for the idle task's, which the
   caller brings; whether the number is the first of its namespace; and the CPU that counts the process.
   */
  datatype Request = Request(args: Clone, pid: nat, reaper: bool, cpu: nat)

  // ---------- the ledgers ----------

  /** What is counted for a task from its credentials to its semaphore undo list. */
  datatype Setup = Setup(
    userProcesses: int, creds: int, delayacct: int, policies: int, perf: int, audit: int, semundo: int)

  /** The shared structures allocated from their slabs; MmStruct counts address spaces. */
  datatype Slabs = Slabs(files: int, fs: int, sighands: int, signals: int)

  datatype PidType = PIDTYPE_PID | PIDTYPE_PGID | PIDTYPE_SID

  datatype Attachment = Attachment(kind: PidType, number: nat, task: Task)

  /** The lists that a task is linked into, in the order in which that happened. */
  datatype Links = Links(
    processes: seq<Task>,             // init_task.tasks
    children: seq<(Task?, Task)>,     // a parent and the process on its list
    threads: seq<(Task?, Task)>,      // a leader and the thread on its group's lists
    pids: seq<Attachment>)            // attach_pid

  /** What tasklist_lock guards; processCounts has one entry per CPU. */
  datatype Totals = Totals(nrThreads: int, totalForks: nat, processCounts: seq<Word>, links: Links)

  /** What a task runs on, with the counters that show it and the locks under which they change. */
  datatype Run = Run(
    namespaces: int, ioContexts: int, threads: int, pids: int, cgroupForks: int, seccompRefs: int,
    threadgroup: int,             // open threadgroup sections
    totals: Totals, tasklistHeld: bool, siglockHeld: bool)
  {
    predicate Ready(q: Request) {
      !tasklistHeld && !siglockHeld && q.cpu < |totals.processCounts|
    }
  }

  class Kernel {
    const hookErrors: set<int>    // what the functions that the repository does not contain may fail with
    var maxThreads: int
    var setup: Setup
    var slabs: Slabs
    var run: Run

    constructor (hookErrors: set<int>, maxThreads: int, setup: Setup, slabs: Slabs, run: Run)
      ensures this.hookErrors == hookErrors
      ensures this.maxThreads == maxThreads && this.setup == setup && this.slabs == slabs && this.run == run
    {
      this.hookErrors := hookErrors;
      this.maxThreads, this.setup, this.slabs, this.run := maxThreads, setup, slabs, run;
    }
  }

  /** A function of the kernel that the repository does not contain: it succeeds or fails, and is not modelled else. */
  method Hook(k: Kernel) returns (err: int)
    ensures err == 0 || (err < 0 && err in k.hookErrors)
  {
    err :| err == 0 || (err < 0 && err in k.hookErrors);
  }

  /** Success, an error that copy_process or one of its helpers makes, or an error of a hook. */
  predicate Returns(k: Kernel, retval: int) {
    || retval == 0 || retval == -EAGAIN || retval == -ENOMEM || retval == -ERESTARTNOINTR
    || (retval < 0 && retval in k.hookErrors)
  }

  // ---------- what a fork is to do ----------

  /** A new leader is in the process group and the session of the forking task's leader. */
  function InGroups(id: Identity, leader: Identity): Identity {
    if id.pid != 0 && id.exitSignal >= 0 then id.(pgrp := leader.pgrp, session := leader.session) else id
  }

  /** Who the new task p is, when cur forks it. */
  function ChildIdentity(cur: Task, curId: Identity, leader: Identity, p: Task, args: Clone, pid: nat): Identity {
    var id :=
      if CLONE_THREAD in args.flags then
        Identity(pid, curId.tgid, -1, curId.groupLeader, curId.realParent, curId.pgrp, curId.session)
      else if CLONE_PARENT in args.flags then
        Identity(pid, pid, leader.exitSignal, p, curId.realParent, curId.pgrp, curId.session)
      else
        Identity(pid, pid, args.csignal, p, cur, curId.pgrp, curId.session);
    InGroups(id, leader)
  }

  /** The lists with the task on them: a process among its siblings, a thread in its group; an idle task on none. */
  function LinkIn(l: Links, p: Task, id: Identity): Links {
    if id.pid == 0 then l
    else if id.exitSignal >= 0 then
      Links(l.processes + [p], l.children + [(id.realParent, p)], l.threads,
            l.pids + [Attachment(PIDTYPE_PGID, id.pgrp, p), Attachment(PIDTYPE_SID, id.session, p),
                      Attachment(PIDTYPE_PID, id.pid, p)])
    else
      Links(l.processes, l.children, l.threads + [(id.groupLeader, p)], l.pids + [Attachment(PIDTYPE_PID, id.pid, p)])
  }

  /** The counters with one fork more; an idle task, whose pid is 0, is a fork but not a thread. */
  function CountFork(t: Totals, p: Task, id: Identity, cpu: nat): Totals
    requires cpu < |t.processCounts|
  {
    Totals(
      if id.pid != 0 then t.nrThreads + 1 else t.nrThreads,
      t.totalForks + 1,
      if id.pid != 0 && id.exitSignal >= 0
      then t.processCounts[cpu := Increment(t.processCounts[cpu])] else t.processCounts,
      LinkIn(t.links, p, id))
  }

  /**
   A signal structure after the task has been linked: the forking task's gains a thread that leads no
   group; the new task's own becomes an init's when its leader is the first of a pid namespace.
   */
  function LinkGroup(g: Group, forking: bool, own: bool, id: Identity, reaper: bool): Group {
    if id.pid == 0 then g
    else if id.exitSignal >= 0 then (if own && reaper then g.(unkillable := true) else g)
    else if forking then Group(g.nrThreads + 1, g.live + 1, g.sigcnt + 1, g.unkillable)
    else g
  }

  /** copy_io's choice: the same context, or a new one only to carry a valid priority on. */
  function IoOf(io: Option<IoContext>, share: bool): Option<IoContext> {
    match io
    case None => None
    case Some(c) => if share || c.priority.Some? then Some(c) else None
  }

  function CountOf(io: Option<IoContext>): nat {
    if io.Some? then 1 else 0
  }

  /** The extras x with the context and the filter of the forking task's. */
  function WithIo(x: Extras, curs: Extras, args: Clone): Extras {
    x.(ioContext := IoOf(curs.ioContext, CLONE_IO in args.flags), seccompFilter := curs.seccompFilter)
  }

  /** The new task's extras, from the forking task's. */
  function ChildExtras(x: Extras, args: Clone): Extras {
    Extras(IoOf(x.ioContext, CLONE_IO in args.flags), x.seccompFilter, CLONE_SYSVSEM in args.flags, 0, x.kthread)
  }

  /** Once the task runs: each service is counted once more, and the counters show the task. */
  function Started(r: Run, p: Task, id: Identity, extras: Extras, cpu: nat): Run
    requires cpu < |r.totals.processCounts|
  {
    var l := Linked(r, p, id, extras, cpu);
    l.(namespaces := l.namespaces + 1, ioContexts := l.ioContexts + CountOf(extras.ioContext),
       threads := l.threads + 1, pids := l.pids + (if id.pid == 0 then 0 else 1))
  }

  /** The part of it that happens between threadgroup_change_begin and its end. */
  function Linked(r: Run, p: Task, id: Identity, extras: Extras, cpu: nat): Run
    requires cpu < |r.totals.processCounts|
  {
    r.(totals := CountFork(r.totals, p, id, cpu), cgroupForks := r.cgroupForks + 1,
       seccompRefs := r.seccompRefs + (if extras.seccompFilter then 1 else 0))
  }

  /** A failed start leaves one trace: the filter reference that the task keeps until it is freed. */
  function NotStarted(r: Run, extras: Extras): Run {
    r.(seccompRefs := r.seccompRefs + (if extras.seccompFilter then 1 else 0))
  }

  // ---------- the two outcomes ----------

  /** What the part from the namespaces on is measured against: the counters, and the group as it was. */
  datatype Before = Before(run: Run, group: Group, leader: Identity)

  ghost function Seen(k: Kernel, cur: Task): Before
    requires cur.signal != null && cur.id.groupLeader != null
    reads k`run, cur`signal, cur.signal`group, cur`id, cur.id.groupLeader`id
  {
    Before(k.run, cur.signal.group, cur.id.groupLeader.id)
  }

  /** The new task's signal structure: the group's, or a fresh one whose only thread it is. */
  ghost predicate Signals(cur: Task, p: Task, q: Request)
    reads cur`signal, p`signal, p`id, SignalOf(p)`group
  {
    p.signal != null && if CLONE_THREAD in q.args.flags then p.signal == cur.signal
                        else p.signal != cur.signal
                             && p.signal.group == LinkGroup(Group(1, 1, 1, false), false, true, p.id, q.reaper)
  }

  /** The task is who it should be, and the groups show it. */
  ghost predicate Grouped(cur: Task, p: Task, q: Request, b: Before)
    requires cur.signal != null
    reads cur`id, cur`signal, SignalOf(cur)`group, p`id, p`signal, SignalOf(p)`group
  {
    && p.id == ChildIdentity(cur, cur.id, b.leader, p, q.args, q.pid)
    && cur.signal.group == LinkGroup(b.group, true, CLONE_THREAD in q.args.flags, p.id, q.reaper)
    && Signals(cur, p, q)
  }

  /** The task runs: the counters and lists show it, too. */
  ghost predicate Launched(k: Kernel, cur: Task, p: Task, q: Request, b: Before)
    requires cur.signal != null && q.cpu < |b.run.totals.processCounts|
    reads k`run, cur`id, cur`signal, SignalOf(cur)`group, p`id, p`extras, p`signal, SignalOf(p)`group
  {
    Grouped(cur, p, q, b) && k.run == Started(b.run, p, p.id, p.extras, q.cpu)
  }

  /** The forking task is still who it was. */
  ghost predicate Anchored(cur: Task, p: Task, leader: Identity)
    reads cur`signal, cur`id, LeaderOf(cur)`id
  {
    && cur != p && cur.signal != null && cur.id.groupLeader != null && cur.id.groupLeader != p
    && cur.id.groupLeader.id == leader
  }

  ghost function LeaderOf(t: Task): set<Task>
    reads t`id
  {
    if t.id.groupLeader == null then {} else {t.id.groupLeader}
  }

  /** It does not run, and nothing shows it but a filter that it will give back when it is freed. */
  ghost predicate Grounded(k: Kernel, cur: Task, p: Task, b: Before)
    reads k`run, cur`signal, SignalOf(cur)`group, p`extras, cur`id, LeaderOf(cur)`id
  {
    Anchored(cur, p, b.leader) && k.run == NotStarted(b.run, p.extras) && cur.signal.group == b.group
  }

  // ---------- making the task visible ----------

  /** Links the task into its group, the lists and the counters. */
  method LinkTask(k: Kernel, cur: Task, p: Task, q: Request)
    requires cur.signal != null && p.signal != null
    requires q.cpu < |k.run.totals.processCounts| && cur.id.groupLeader != null && cur != p && cur.id.groupLeader != p
    modifies k`run, p`id, p.signal`group, cur.signal`group
    ensures p.id == InGroups(old(p.id), cur.id.groupLeader.id)
    ensures k.run == old(k.run).(totals := CountFork(old(k.run).totals, p, p.id, q.cpu))
    ensures cur.signal.group == LinkGroup(old(cur.signal.group), true, p.signal == cur.signal, p.id, q.reaper)
    ensures p.signal.group == LinkGroup(old(p.signal.group), p.signal == cur.signal, true, p.id, q.reaper)
  {
    var t := k.run.totals;
    var l := t.links;
    if p.id.pid != 0 {
      if p.id.exitSignal >= 0 {
        p.id := p.id.(pgrp := cur.id.groupLeader.id.pgrp);
        p.id := p.id.(session := cur.id.groupLeader.id.session);
        if q.reaper {
          p.signal.group := p.signal.group.(unkillable := true);
        }
        l := l.(children := l.children + [(p.id.realParent, p)]);
        l := l.(processes := l.processes + [p]);
        l := l.(pids := l.pids + [Attachment(PIDTYPE_PGID, p.id.pgrp, p)]);
        l := l.(pids := l.pids + [Attachment(PIDTYPE_SID, p.id.session, p)]);
        t := t.(processCounts := t.processCounts[q.cpu := Increment(t.processCounts[q.cpu])]);
      } else {
        var g := cur.signal.group;
        cur.signal.group := g.(nrThreads := g.nrThreads + 1, live := g.live + 1, sigcnt := g.sigcnt + 1);
        l := l.(threads := l.threads + [(p.id.groupLeader, p)]);
      }
      l := l.(pids := l.pids + [Attachment(PIDTYPE_PID, p.id.pid, p)]);
      t := t.(nrThreads := t.nrThreads + 1);
    }
    k.run := k.run.(totals := t.(totalForks := t.totalForks + 1, links := l));
  }

  /** What a task needs before it can be linked: an identity, and a signal structure by the flags. */
  ghost predicate Linkable(k: Kernel, cur: Task, p: Task, q: Request)
    reads k`run, cur`signal, cur`id, p`signal, p`extras, SignalOf(p)`group
  {
    && cur != p && cur.id.groupLeader != null && cur.id.groupLeader != p && cur.signal != null
    && k.run.Ready(q) && HoldsSignal(cur, p, q.args) && !p.extras.seccompFilter
  }

  /** copy_seccomp: the task takes a reference to the filter of the forking one, under whose lock this is. */
  method CopySeccomp(k: Kernel, cur: Task, p: Task)
    requires cur != p && !p.extras.seccompFilter
    modifies k`run, p`extras
    ensures p.extras == old(p.extras).(seccompFilter := cur.extras.seccompFilter)
    ensures k.run == NotStarted(old(k.run), p.extras)
  {
    if cur.extras.seccompFilter {
      k.run := k.run.(seccompRefs := k.run.seccompRefs + 1);
    }
    p.extras := p.extras.(seccompFilter := cur.extras.seccompFilter);
  }

  /** Both locks held: the task is linked, or a signal or the end of its namespace got in first. */
  method TryLink(k: Kernel, cur: Task, p: Task, q: Request) returns (retval: int)
    requires cur != p && cur.id.groupLeader != null && cur.id.groupLeader != p && cur.signal != null
    requires q.cpu < |k.run.totals.processCounts| && HoldsSignal(cur, p, q.args)
    modifies k`run, p`id, p.signal`group, cur.signal`group
    ensures Returns(k, retval)
    ensures retval == 0 ==>
      && p.id == InGroups(old(p.id), cur.id.groupLeader.id)
      && k.run == old(k.run).(totals := CountFork(old(k.run).totals, p, p.id, q.cpu))
      && cur.signal.group == LinkGroup(old(cur.signal.group), true, CLONE_THREAD in q.args.flags, p.id, q.reaper)
      && Signals(cur, p, q)
    ensures retval != 0 ==> k.run == old(k.run) && cur.signal.group == old(cur.signal.group)
  {
    var signalPending, namespaceClosed := *, *;
    if signalPending {
      retval := -ERESTARTNOINTR;
    } else if namespaceClosed {
      retval := -ENOMEM;
    } else {
      LinkTask(k, cur, p, q);
      retval := 0;
    }
  }

  /** Under tasklist_lock and the lock of the signal handlers. */
  method PublishLocked(k: Kernel, cur: Task, p: Task, q: Request) returns (retval: int)
    requires Linkable(k, cur, p, q)
    modifies k`run, p`id, p`extras, p.signal`group, cur.signal`group
    ensures Returns(k, retval)
    ensures p.extras == old(p.extras).(seccompFilter := cur.extras.seccompFilter)
    ensures retval == 0 ==>
      && p.id == InGroups(WithParent(old(p.id), cur, cur.id, q.args), cur.id.groupLeader.id)
      && k.run == NotStarted(old(k.run).(totals := CountFork(old(k.run).totals, p, p.id, q.cpu)), p.extras)
      && cur.signal.group == LinkGroup(old(cur.signal.group), true, CLONE_THREAD in q.args.flags, p.id, q.reaper)
      && Signals(cur, p, q)
    ensures retval != 0 ==> Grounded(k, cur, p, old(Seen(k, cur)))
  {
    k.run := k.run.(tasklistHeld := true);
    if CLONE_PARENT in q.args.flags || CLONE_THREAD in q.args.flags {
      p.id := p.id.(realParent := cur.id.realParent);
    } else {
      p.id := p.id.(realParent := cur);
    }
    k.run := k.run.(siglockHeld := true);
    CopySeccomp(k, cur, p);
    retval := TryLink(k, cur, p, q);
    k.run := k.run.(siglockHeld := false);
    k.run := k.run.(tasklistHeld := false);
  }

  function WithParent(id: Identity, cur: Task, curId: Identity, args: Clone): Identity {
    id.(realParent := if CLONE_PARENT in args.flags || CLONE_THREAD in args.flags then curId.realParent else cur)
  }

  /** From threadgroup_change_begin to its end.  A reference to a filter, once taken, stays with the task. */
  method Publish(k: Kernel, cur: Task, p: Task, q: Request) returns (retval: int)
    requires Linkable(k, cur, p, q)
    modifies k`run, p`id, p`extras, p.signal`group, cur.signal`group
    ensures Returns(k, retval)
    ensures p.extras == old(p.extras).(seccompFilter := p.extras.seccompFilter)
    ensures retval == 0 ==>
      && p.extras.seccompFilter == cur.extras.seccompFilter
      && p.id == InGroups(WithParent(old(p.id), cur, cur.id, q.args), cur.id.groupLeader.id)
      && k.run == Linked(old(k.run), p, p.id, p.extras, q.cpu)
      && cur.signal.group == LinkGroup(old(cur.signal.group), true, CLONE_THREAD in q.args.flags, p.id, q.reaper)
      && Signals(cur, p, q)
    ensures retval != 0 ==> Grounded(k, cur, p, old(Seen(k, cur)))
  {
    k.run := k.run.(threadgroup := k.run.threadgroup + 1);
    retval := Hook(k);
    if retval == 0 {
      k.run := k.run.(cgroupForks := k.run.cgroupForks + 1);
      retval := PublishLocked(k, cur, p, q);
      if retval != 0 {
        k.run := k.run.(cgroupForks := k.run.cgroupForks - 1);
      }
    }
    k.run := k.run.(threadgroup := k.run.threadgroup - 1);
  }

  /** The identity that is settled before the lock is taken: the parent and the groups come later. */
  method Identify(cur: Task, p: Task, q: Request)
    requires cur != p && cur.id.groupLeader != null && cur.id.groupLeader != p
    modifies p`id
    ensures p.id == old(p.id).(pid := q.pid, exitSignal := p.id.exitSignal, groupLeader := p.id.groupLeader,
                               tgid := p.id.tgid)
    ensures p.id.groupLeader == if CLONE_THREAD in q.args.flags then cur.id.groupLeader else p
    ensures p.id.tgid == if CLONE_THREAD in q.args.flags then cur.id.tgid else q.pid
    ensures p.id.exitSignal == if CLONE_THREAD in q.args.flags then -1
                               else if CLONE_PARENT in q.args.flags then cur.id.groupLeader.id.exitSignal
                               else q.args.csignal
  {
    p.id := p.id.(pid := q.pid);
    if CLONE_THREAD in q.args.flags {
      p.id := p.id.(exitSignal := -1, groupLeader := cur.id.groupLeader, tgid := cur.id.tgid);
    } else {
      if CLONE_PARENT in q.args.flags {
        p.id := p.id.(exitSignal := cur.id.groupLeader.id.exitSignal);
      } else {
        p.id := p.id.(exitSignal := q.args.csignal);
      }
      p.id := p.id.(groupLeader := p, tgid := p.id.pid);
    }
  }

  /** From alloc_pid to the end: a pid, an identity, and publication. */
  method FromPid(k: Kernel, cur: Task, p: Task, q: Request) returns (retval: int)
    requires Linkable(k, cur, p, q) && p.id == cur.id
    modifies k`run, p`id, p`extras, p.signal`group, cur.signal`group
    ensures Returns(k, retval)
    ensures p.extras == old(p.extras).(seccompFilter := p.extras.seccompFilter)
    ensures retval == 0 ==>
      && p.extras.seccompFilter == cur.extras.seccompFilter && Grouped(cur, p, q, old(Seen(k, cur)))
      && k.run == (var l := Linked(old(k.run), p, p.id, p.extras, q.cpu);
                   l.(pids := l.pids + if q.pid == 0 then 0 else 1))
    ensures retval != 0 ==> Grounded(k, cur, p, old(Seen(k, cur)))
  {
    if q.pid != 0 {
      retval := Hook(k);
      if retval != 0 { return; }
      k.run := k.run.(pids := k.run.pids + 1);
    }
    Identify(cur, p, q);
    retval := Publish(k, cur, p, q);
    if retval != 0 && q.pid != 0 {
      k.run := k.run.(pids := k.run.pids - 1);
    }
  }

  // ---------- namespaces, io, registers ----------

  /** copy_io: shared with CLONE_IO, else a context of its own when the parent's priority asks for one. */
  method CopyIo(k: Kernel, cur: Task, p: Task, args: Clone) returns (retval: int)
    requires p.extras.ioContext == None && p != cur
    modifies k`run, p`extras
    ensures Returns(k, retval)
    ensures p.extras == old(p.extras).(
                          ioContext := if retval == 0 then IoOf(cur.extras.ioContext, CLONE_IO in args.flags) else None)
    ensures retval != 0 ==> CLONE_IO !in args.flags && IoOf(cur.extras.ioContext, false).Some?
    ensures k.run == old(k.run).(ioContexts := old(k.run).ioContexts + CountOf(p.extras.ioContext))
  {
    retval := 0;
    var ioc := cur.extras.ioContext;
    if ioc.Some? {
      if CLONE_IO in args.flags {
        k.run := k.run.(ioContexts := k.run.ioContexts + 1);
        p.extras := p.extras.(ioContext := ioc);
      } else if ioc.value.priority.Some? {
        retval := Hook(k);
        if retval != 0 { return; }
        // created with one reference for the task and one for this function, which is put again
        k.run := k.run.(ioContexts := k.run.ioContexts + 2);
        p.extras := p.extras.(ioContext := Some(IoContext(ioc.value.priority)));
        k.run := k.run.(ioContexts := k.run.ioContexts - 1);
      }
    }
  }

  /** From copy_thread_tls to the end. */
  method FromThread(k: Kernel, cur: Task, p: Task, q: Request) returns (retval: int)
    requires Linkable(k, cur, p, q) && p.id == cur.id
    modifies k`run, p`id, p`extras, p.signal`group, cur.signal`group
    ensures Returns(k, retval)
    ensures p.extras == old(p.extras).(seccompFilter := p.extras.seccompFilter)
    ensures retval == 0 ==>
      && p.extras.seccompFilter == cur.extras.seccompFilter && Grouped(cur, p, q, old(Seen(k, cur)))
      && k.run == (var l := Linked(old(k.run), p, p.id, p.extras, q.cpu);
                   l.(threads := l.threads + 1, pids := l.pids + if q.pid == 0 then 0 else 1))
    ensures retval != 0 ==> Grounded(k, cur, p, old(Seen(k, cur)))
  {
    retval := Hook(k);
    if retval != 0 { return; }
    k.run := k.run.(threads := k.run.threads + 1);
    retval := FromPid(k, cur, p, q);
    if retval != 0 {
      k.run := k.run.(threads := k.run.threads - 1);
    }
  }

  /** exit_io_context: what was grounded but for an io context is grounded. */
  method ExitIoContext(k: Kernel, cur: Task, p: Task, ghost b: Before)
    requires Grounded(k, cur, p, b.(run := b.run.(ioContexts := b.run.ioContexts + CountOf(p.extras.ioContext))))
    modifies k`run, p`extras
    ensures p.extras == old(p.extras).(ioContext := None) && Grounded(k, cur, p, b)
  {
    if p.extras.ioContext.Some? {
      p.extras := p.extras.(ioContext := None);
      k.run := k.run.(ioContexts := k.run.ioContexts - 1);
    }
  }

  /** From copy_io to the end. */
  method FromIo(k: Kernel, cur: Task, p: Task, q: Request) returns (retval: int)
    requires Linkable(k, cur, p, q) && p.id == cur.id && p.extras.ioContext == None
    modifies k`run, p`id, p`extras, p.signal`group, cur.signal`group
    ensures Returns(k, retval)
    ensures retval == 0 ==>
      && p.extras == WithIo(old(p.extras), cur.extras, q.args)
      && k.run == (var s := Started(old(k.run), p, p.id, p.extras, q.cpu); s.(namespaces := s.namespaces - 1))
      && Grouped(cur, p, q, old(Seen(k, cur)))
    ensures retval != 0 ==> p.extras.undoList == old(p.extras.undoList) && Grounded(k, cur, p, old(Seen(k, cur)))
  {
    retval := CopyIo(k, cur, p, q.args);
    if retval != 0 { return; }
    retval := FromThread(k, cur, p, q);
    if retval != 0 {
      ExitIoContext(k, cur, p, old(Seen(k, cur)));
    }
  }

  /** From copy_namespaces to the end. */
  method FromNamespaces(k: Kernel, cur: Task, p: Task, q: Request) returns (retval: int)
    requires Linkable(k, cur, p, q) && p.id == cur.id && p.extras.ioContext == None
    modifies k`run, p`id, p`extras, p.signal`group, cur.signal`group
    ensures Returns(k, retval)
    ensures retval == 0 ==>
      && p.extras == WithIo(old(p.extras), cur.extras, q.args)
      && Launched(k, cur, p, q, old(Seen(k, cur)))
    ensures retval != 0 ==> p.extras.undoList == old(p.extras.undoList) && Grounded(k, cur, p, old(Seen(k, cur)))
  {
    retval := Hook(k);
    if retval != 0 { return; }
    k.run := k.run.(namespaces := k.run.namespaces + 1);
    retval := FromIo(k, cur, p, q);
    if retval != 0 {
      k.run := k.run.(namespaces := k.run.namespaces - 1);
    }
  }

  // ---------- the shared structures ----------

  ghost function FilesOf(t: Task): set<Files>
    reads t`files
  {
    if t.files == null then {} else {t.files}
  }

  ghost function FsOf(t: Task): set<Fs>
    reads t`fs
  {
    if t.fs == null then {} else {t.fs}
  }

  ghost function SighandOf(t: Task): set<Sighand>
    reads t`sighand
  {
    if t.sighand == null then {} else {t.sighand}
  }

  ghost function SignalOf(t: Task): set<Signal>
    reads t`signal
  {
    if t.signal == null then {} else {t.signal}
  }

  ghost function MmOf(t: Task): set<Mm>
    reads t`mm
  {
    if t.mm == null then {} else {t.mm}
  }

  /**
   The slabs with (sign 1) or without (sign -1) what the first held of the four structures took: files, fs,
   sighand and signal, in this order.  A shared structure takes nothing, nor does a table cur does not have.
   */
  function Allocated(s: Slabs, args: Clone, hasFiles: bool, held: nat, sign: int): Slabs {
    Slabs(
      if held >= 1 && hasFiles && CLONE_FILES !in args.flags then s.files + sign else s.files,
      if held >= 2 && CLONE_FS !in args.flags then s.fs + sign else s.fs,
      if held >= 3 && CLONE_SIGHAND !in args.flags then s.sighands + sign else s.sighands,
      if held >= 4 && CLONE_THREAD !in args.flags then s.signals + sign else s.signals)
  }

  ghost predicate HoldsFiles(cur: Task, p: Task, args: Clone)
    reads cur`files, p`files, FilesOf(p)`count
  {
    if cur.files == null then p.files == null
    else p.files != null && if CLONE_FILES in args.flags then p.files == cur.files && p.files.count > 1
                            else p.files != cur.files && p.files.count == 1
  }

  ghost predicate HoldsFs(cur: Task, p: Task, args: Clone)
    reads cur`fs, p`fs, FsOf(p)`users
  {
    p.fs != null && if CLONE_FS in args.flags then p.fs == cur.fs && p.fs.users > 1
                    else p.fs != cur.fs && p.fs.users == 1
  }

  ghost predicate HoldsSighand(cur: Task, p: Task, args: Clone)
    reads cur`sighand, p`sighand, SighandOf(p)`count
  {
    p.sighand != null && if CLONE_SIGHAND in args.flags then p.sighand == cur.sighand && p.sighand.count > 1
                         else p.sighand != cur.sighand && p.sighand.count == 1
  }

  ghost predicate HoldsSignal(cur: Task, p: Task, args: Clone)
    reads cur`signal, p`signal, SignalOf(p)`group
  {
    p.signal != null && if CLONE_THREAD in args.flags then p.signal == cur.signal
                        else p.signal != cur.signal && p.signal.group == Group(1, 1, 1, false)
  }

  /** A running task holds its structures; only a descriptor table and an address space may be missing. */
  ghost predicate Complete(cur: Task)
    reads cur`files, cur`fs, cur`sighand, cur`signal, cur`mm
    reads FilesOf(cur)`count, FsOf(cur)`users, SighandOf(cur)`count, MmOf(cur)`users
  {
    && (cur.files != null ==> cur.files.count > 0)
    && cur.fs != null && cur.fs.users > 0
    && cur.sighand != null && cur.sighand.count > 0
    && cur.signal != null
    && (cur.mm != null ==> cur.mm.users > 0)
  }

  /** copy_files.  A background process may have no table at all. */
  method CopyFiles(k: Kernel, cur: Task, p: Task, args: Clone) returns (retval: int)
    requires p != cur && p.files == cur.files && (cur.files != null ==> cur.files.count > 0)
    modifies k`slabs, p`files, FilesOf(cur)`count
    ensures Returns(k, retval)
    ensures retval != 0 ==> p.files == cur.files && k.slabs == old(k.slabs)
    ensures retval == 0 ==>
      && HoldsFiles(cur, p, args) && (p.files != cur.files ==> fresh(p.files))
      && k.slabs == old(k.slabs).(files := old(k.slabs).files +
                                    if cur.files != null && CLONE_FILES !in args.flags then 1 else 0)
    ensures cur.files != null ==>
              cur.files.count == old(cur.files.count) + if retval == 0 && CLONE_FILES in args.flags then 1 else 0
  {
    retval := 0;
    if cur.files == null { return; }
    if CLONE_FILES in args.flags {
      cur.files.count := cur.files.count + 1;
      return;
    }
    retval := Hook(k);
    if retval != 0 { return; }
    p.files := new Files();
    k.slabs := k.slabs.(files := k.slabs.files + 1);
  }

  /** exit_files: the last holder's put gives the table back. */
  method ExitFiles(k: Kernel, p: Task)
    requires p.files != null ==> p.files.count > 0
    modifies k`slabs, p`files, FilesOf(p)`count
    ensures p.files == null
    ensures old(p.files) != null ==> old(p.files).count == old(p.files.count) - 1
    ensures k.slabs == old(k.slabs).(files := old(k.slabs).files -
                                       if old(p.files) != null && old(p.files.count) == 1 then 1 else 0)
  {
    if p.files != null {
      var files := p.files;
      p.files := null;
      files.count := files.count - 1;
      if files.count == 0 {
        k.slabs := k.slabs.(files := k.slabs.files - 1);
      }
    }
  }

  /** copy_fs: an fs structure in the middle of an exec is not shared. */
  method CopyFs(k: Kernel, cur: Task, p: Task, args: Clone) returns (retval: int)
    requires p != cur && cur.fs != null && p.fs == cur.fs && cur.fs.users > 0
    modifies k`slabs, p`fs, cur.fs`users
    ensures Returns(k, retval)
    ensures retval != 0 ==> k.slabs == old(k.slabs) && (p.fs == null || p.fs == cur.fs)
    ensures CLONE_FS in args.flags ==> (retval == -EAGAIN <==> cur.fs.inExec) && (retval == 0 <==> !cur.fs.inExec)
    ensures retval == 0 ==>
      && HoldsFs(cur, p, args) && (p.fs != cur.fs ==> fresh(p.fs))
      && k.slabs == old(k.slabs).(fs := old(k.slabs).fs + if CLONE_FS !in args.flags then 1 else 0)
    ensures cur.fs.users == old(cur.fs.users) + if retval == 0 && CLONE_FS in args.flags then 1 else 0
  {
    retval := 0;
    if CLONE_FS in args.flags {
      if cur.fs.inExec {
        retval := -EAGAIN;
      } else {
        cur.fs.users := cur.fs.users + 1;
      }
      return;
    }
    retval := Hook(k);
    if retval != 0 {
      p.fs := null;
      return;
    }
    p.fs := new Fs();
    k.slabs := k.slabs.(fs := k.slabs.fs + 1);
  }

  /** exit_fs: the last user's exit gives the structure back. */
  method ExitFs(k: Kernel, p: Task)
    requires p.fs != null && p.fs.users > 0
    modifies k`slabs, p`fs, p.fs`users
    ensures p.fs == null && old(p.fs).users == old(p.fs.users) - 1
    ensures k.slabs == old(k.slabs).(fs := old(k.slabs).fs - if old(p.fs.users) == 1 then 1 else 0)
  {
    var fs := p.fs;
    p.fs := null;
    fs.users := fs.users - 1;
    if fs.users == 0 {
      k.slabs := k.slabs.(fs := k.slabs.fs - 1);
    }
  }

  /** copy_sighand. */
  method CopySighand(k: Kernel, cur: Task, p: Task, args: Clone) returns (retval: int)
    requires p != cur && cur.sighand != null && p.sighand == cur.sighand && cur.sighand.count > 0
    modifies k`slabs, p`sighand, cur.sighand`count
    ensures Returns(k, retval)
    ensures retval != 0 ==> k.slabs == old(k.slabs) && (p.sighand == null || p.sighand == cur.sighand)
    ensures retval == 0 ==>
      && HoldsSighand(cur, p, args) && (p.sighand != cur.sighand ==> fresh(p.sighand))
      && k.slabs == old(k.slabs).(sighands := old(k.slabs).sighands + if CLONE_SIGHAND !in args.flags then 1 else 0)
    ensures cur.sighand.count == old(cur.sighand.count) + if retval == 0 && CLONE_SIGHAND in args.flags then 1 else 0
  {
    retval := 0;
    if CLONE_SIGHAND in args.flags {
      cur.sighand.count := cur.sighand.count + 1;
      return;
    }
    retval := Hook(k);
    if retval != 0 {
      p.sighand := null;
      return;
    }
    p.sighand := new Sighand();
    k.slabs := k.slabs.(sighands := k.slabs.sighands + 1);
  }

  /** __cleanup_sighand: the last holder's put gives the structure back. */
  method CleanupSighand(k: Kernel, sighand: Sighand)
    requires sighand.count > 0
    modifies k`slabs, sighand`count
    ensures sighand.count == old(sighand.count) - 1
    ensures k.slabs == old(k.slabs).(sighands := old(k.slabs).sighands - if old(sighand.count) == 1 then 1 else 0)
  {
    sighand.count := sighand.count - 1;
    if sighand.count == 0 {
      k.slabs := k.slabs.(sighands := k.slabs.sighands - 1);
    }
  }

  /** copy_signal: the group's own structure with CLONE_THREAD, else a fresh one for a group of one. */
  method CopySignal(k: Kernel, cur: Task, p: Task, args: Clone) returns (retval: int)
    requires p != cur && cur.signal != null && p.signal == cur.signal
    modifies k`slabs, p`signal
    ensures Returns(k, retval)
    ensures retval != 0 ==> k.slabs == old(k.slabs) && (p.signal == null || p.signal == cur.signal)
    ensures retval == 0 ==>
      && HoldsSignal(cur, p, args) && (p.signal != cur.signal ==> fresh(p.signal))
      && k.slabs == old(k.slabs).(signals := old(k.slabs).signals + if CLONE_THREAD !in args.flags then 1 else 0)
  {
    retval := 0;
    if CLONE_THREAD in args.flags { return; }
    retval := Hook(k);
    if retval != 0 {
      p.signal := null;
      return;
    }
    p.signal := new Signal();
    k.slabs := k.slabs.(signals := k.slabs.signals + 1);
  }

  // ---------- the address space ----------

  /** What an address space in the making moves outside itself. */
  datatype HostState = HostState(books: Books, modules: int, uprobeSections: int)

  ghost function HostOf(host: Host): HostState
    reads host
  {
    HostState(host.books, host.modules, host.uprobeSections)
  }

  /** The forking task's address space, if it has one, is the one that a describes. */
  ghost predicate Mapped(cur: Task, host: Host, a: Areas)
    reads cur`mm, MmOf(cur), a.nodes, host`books
  {
    cur.mm != null ==> Lives(cur.mm, host, a)
  }

  /** The forking task's, with one user more, or a complete copy of it, which the books now carry. */
  ghost predicate HoldsMm(cur: Task, p: Task, args: Clone, host: Host, a: Areas, child: seq<Vma>, b: HostState)
    reads cur`mm, p`mm, MmOf(cur), MmOf(p), host, child
  {
    if cur.mm == null then
      p.mm == null && HostOf(host) == b
    else if CLONE_VM in args.flags then
      p.mm == cur.mm && cur.mm.users > 1 && HostOf(host) == b
    else
      && p.mm != null && p.mm != cur.mm && IsCopy(p.mm, child, cur.mm, a.view)
      && ExeKnown(b.books, p.mm.exeFile) && AllKnown(b.books.files, Inherited(a.view))
      && HostOf(host) == HostState(HoldMm(b.books, p.mm.exeFile, Inherited(a.view)),
                                   b.modules + (if p.mm.binfmt then 1 else 0), b.uprobeSections)
  }

  ghost function MmUsers(t: Task): nat
    reads t`mm, MmOf(t)`users
  {
    if t.mm == null then 0 else t.mm.users
  }

  predicate SharesMm(cur: Task, args: Clone)
    reads cur`mm
  {
    cur.mm != null && CLONE_VM in args.flags
  }

  /** copy_mm for a task that is to have an address space of its own. */
  method CopyOwnMm(host: Host, cur: Task, p: Task, args: Clone, ghost a: Areas)
    returns (retval: int, ghost child: seq<Vma>)
    requires p != cur && cur.mm != null && Mapped(cur, host, a) && CLONE_VM !in args.flags
    modifies p`mm, cur.mm`semHeld, host
    ensures retval == 0 || retval == -ENOMEM
    ensures Mapped(cur, host, a) && MmUsers(cur) == old(MmUsers(cur))
    ensures retval == 0 ==>
      && HoldsMm(cur, p, args, host, a, child, old(HostOf(host))) && fresh(p.mm)
    ensures retval != 0 ==> p.mm == null && HostOf(host) == old(HostOf(host))
  {
    p.mm := null;
    retval := -ENOMEM;
    var mm;
    mm, child := DupMm(cur.mm, host, a.nodes, a.view);
    if mm != null {
      p.mm := mm;
      retval := 0;
    }
  }

  /** copy_mm.  A kernel thread has no address space to share or to copy. */
  method CopyMm(host: Host, cur: Task, p: Task, args: Clone, ghost a: Areas)
    returns (retval: int, ghost child: seq<Vma>)
    requires p != cur && Mapped(cur, host, a)
    modifies p`mm, MmOf(cur)`users, MmOf(cur)`semHeld, host
    ensures retval == 0 || retval == -ENOMEM
    ensures Mapped(cur, host, a)
    ensures MmUsers(cur) == old(MmUsers(cur)) + if retval == 0 && SharesMm(cur, args) then 1 else 0
    ensures retval == 0 ==>
      && HoldsMm(cur, p, args, host, a, child, old(HostOf(host)))
      && (p.mm != null && p.mm != cur.mm ==> fresh(p.mm))
    ensures retval != 0 ==> p.mm == null && HostOf(host) == old(HostOf(host))
  {
    retval, child := 0, [];
    if cur.mm == null {
      p.mm := null;
    } else if CLONE_VM in args.flags {
      cur.mm.users := cur.mm.users + 1;
      p.mm := cur.mm;
    } else {
      retval, child := CopyOwnMm(host, cur, p, args, a);
    }
  }

  /** bad_fork_cleanup_mm: what copy_mm took goes back, each area, reference and count of it. */
  method PutMm(host: Host, cur: Task, p: Task, args: Clone, ghost a: Areas, ghost child: seq<Vma>, ghost b: HostState)
    requires p != cur && Mapped(cur, host, a) && HoldsMm(cur, p, args, host, a, child, b)
    modifies host`books, host`modules, MmOf(p)`users
    modifies MmOf(p) - MmOf(cur)
    ensures Mapped(cur, host, a) && HostOf(host) == b
    ensures MmUsers(cur) == old(MmUsers(cur)) - if SharesMm(cur, args) then 1 else 0
  {
    if p.mm != null {
      if CLONE_VM in args.flags {
        MmputShared(p.mm, a.lazy);
      } else {
        MmputCopy(p.mm, host, b.books, child, Inherited(a.view));
      }
    }
  }

  /** What follows copy_mm does not touch the address space. */
  method FromNamespacesWithMm(k: Kernel, host: Host, cur: Task, p: Task, q: Request,
                              ghost a: Areas, ghost child: seq<Vma>, ghost b: HostState)
    returns (retval: int)
    requires Linkable(k, cur, p, q) && p.id == cur.id && p.extras.ioContext == None
    requires Mapped(cur, host, a) && HoldsMm(cur, p, q.args, host, a, child, b)
    modifies k`run, p`id, p`extras, p.signal`group, cur.signal`group
    ensures Returns(k, retval)
    ensures Mapped(cur, host, a) && HoldsMm(cur, p, q.args, host, a, child, b)
    ensures retval == 0 ==>
      && p.extras == WithIo(old(p.extras), cur.extras, q.args)
      && Launched(k, cur, p, q, old(Seen(k, cur)))
    ensures retval != 0 ==> p.extras.undoList == old(p.extras.undoList) && Grounded(k, cur, p, old(Seen(k, cur)))
  {
    retval := FromNamespaces(k, cur, p, q);
  }

  /** With the address space taken: everything from the namespaces on; a failure gives it back. */
  method FromMmTaken(k: Kernel, host: Host, cur: Task, p: Task, q: Request,
                     ghost a: Areas, ghost child: seq<Vma>, ghost b: HostState)
    returns (retval: int)
    requires Linkable(k, cur, p, q) && p.id == cur.id && p.extras.ioContext == None
    requires Mapped(cur, host, a) && HoldsMm(cur, p, q.args, host, a, child, b)
    modifies k`run, p`id, p`extras, p.signal`group, cur.signal`group
    modifies host`books, host`modules, MmOf(p)`users
    modifies MmOf(p) - MmOf(cur)
    ensures Returns(k, retval)
    ensures Mapped(cur, host, a)
    ensures MmUsers(cur) == old(MmUsers(cur)) - if retval != 0 && SharesMm(cur, q.args) then 1 else 0
    ensures retval == 0 ==>
      && p.extras == WithIo(old(p.extras), cur.extras, q.args)
      && Launched(k, cur, p, q, old(Seen(k, cur))) && HoldsMm(cur, p, q.args, host, a, child, b)
    ensures retval != 0 ==>
      && p.extras.undoList == old(p.extras.undoList)
      && Grounded(k, cur, p, old(Seen(k, cur))) && HostOf(host) == b
  {
    retval := FromNamespacesWithMm(k, host, cur, p, q, a, child, b);
    if retval != 0 {
      PutMm(host, cur, p, q.args, a, child, b);
    }
  }

  /** With the signal structure taken: the address space, then everything from the namespaces on. */
  method FromMm(k: Kernel, host: Host, cur: Task, p: Task, q: Request, ghost a: Areas)
    returns (retval: int, ghost child: seq<Vma>)
    requires Linkable(k, cur, p, q) && p.id == cur.id && p.extras.ioContext == None && Mapped(cur, host, a)
    modifies k`run, p`id, p`extras, p.signal`group, cur.signal`group
    modifies p`mm, MmOf(cur)`users, MmOf(cur)`semHeld, host
    ensures Returns(k, retval)
    ensures Mapped(cur, host, a)
    ensures MmUsers(cur) == old(MmUsers(cur)) + if retval == 0 && SharesMm(cur, q.args) then 1 else 0
    ensures retval == 0 ==>
      && p.extras == WithIo(old(p.extras), cur.extras, q.args)
      && Launched(k, cur, p, q, old(Seen(k, cur)))
      && HoldsMm(cur, p, q.args, host, a, child, old(HostOf(host)))
      && (p.mm != null && p.mm != cur.mm ==> fresh(p.mm))
    ensures retval != 0 ==>
      && p.extras.undoList == old(p.extras.undoList)
      && Grounded(k, cur, p, old(Seen(k, cur))) && HostOf(host) == old(HostOf(host))
  {
    retval, child := CopyMm(host, cur, p, q.args, a);
    if retval == 0 {
      retval := FromMmTaken(k, host, cur, p, q, a, child, old(HostOf(host)));
    }
  }

  // ---------- taking the shared structures, and giving them back ----------

  /** What the new task shares with the one that forks it, and what it has of its own. */
  ghost predicate Shares(cur: Task, p: Task, args: Clone)
    reads cur`files, p`files, FilesOf(p)`count, cur`fs, p`fs, FsOf(p)`users
    reads cur`sighand, p`sighand, SighandOf(p)`count
  {
    HoldsFiles(cur, p, args) && HoldsFs(cur, p, args) && HoldsSighand(cur, p, args)
  }

  /** How many hold each structure that the forking task may share. */
  datatype Usage = Usage(files: int, fs: int, sighand: int, mm: int) {
    /** One holder more (or fewer) of each structure that the flags share. */
    function Share(args: Clone, sign: int): Usage {
      Usage(if CLONE_FILES in args.flags && files > 0 then files + sign else files,
            if CLONE_FS in args.flags then fs + sign else fs,
            if CLONE_SIGHAND in args.flags then sighand + sign else sighand,
            if CLONE_VM in args.flags && mm > 0 then mm + sign else mm)
    }
  }

  ghost function UsageOf(cur: Task): Usage
    reads cur`files, cur`fs, cur`sighand, cur`mm
    reads FilesOf(cur)`count, FsOf(cur)`users, SighandOf(cur)`count, MmOf(cur)`users
  {
    Usage(if cur.files == null then 0 else cur.files.count, if cur.fs == null then 0 else cur.fs.users,
          if cur.sighand == null then 0 else cur.sighand.count, if cur.mm == null then 0 else cur.mm.users)
  }

  /** The middle of the ladder, entered with the first held of the four structures taken. */
  method UnwindShared(k: Kernel, cur: Task, p: Task, args: Clone, held: nat)
    requires p != cur && held <= 4
    requires held >= 1 ==> HoldsFiles(cur, p, args)
    requires held >= 2 ==> HoldsFs(cur, p, args)
    requires held >= 3 ==> HoldsSighand(cur, p, args)
    modifies k`slabs, p`files, p`fs, FilesOf(p)`count, FsOf(p)`users, SighandOf(p)`count
    ensures k.slabs == Allocated(old(k.slabs), args, cur.files != null, held, -1)
    ensures cur.files != null ==>
              cur.files.count == old(cur.files.count) - if held >= 1 && CLONE_FILES in args.flags then 1 else 0
    ensures cur.fs != null ==>
              cur.fs.users == old(cur.fs.users) - if held >= 2 && CLONE_FS in args.flags then 1 else 0
    ensures cur.sighand != null ==>
              cur.sighand.count == old(cur.sighand.count) - if held >= 3 && CLONE_SIGHAND in args.flags then 1 else 0
  {
    if held >= 4 && CLONE_THREAD !in args.flags {
      k.slabs := k.slabs.(signals := k.slabs.signals - 1);
    }
    if held >= 3 {
      CleanupSighand(k, p.sighand);
    }
    if held >= 2 {
      ExitFs(k, p);
    }
    if held >= 1 {
      ExitFiles(k, p);
    }
  }

  /** copy_files and copy_fs; held says how many of them succeeded. */
  method CopyFilesAndFs(k: Kernel, cur: Task, p: Task, args: Clone) returns (retval: int, held: nat)
    requires p != cur && Complete(cur) && p.files == cur.files && p.fs == cur.fs
    modifies k`slabs, p`files, p`fs, FilesOf(cur)`count, cur.fs`users
    ensures Returns(k, retval)
    ensures held <= 2 && (retval == 0 <==> held == 2)
    ensures held >= 1 ==> HoldsFiles(cur, p, args)
    ensures held >= 2 ==> HoldsFs(cur, p, args)
    ensures p.files != null && p.files != cur.files ==> fresh(p.files)
    ensures p.fs != null && p.fs != cur.fs ==> fresh(p.fs)
    ensures k.slabs == Allocated(old(k.slabs), args, cur.files != null, held, 1)
    ensures cur.files != null ==>
              cur.files.count == old(cur.files.count) + if held >= 1 && CLONE_FILES in args.flags then 1 else 0
    ensures cur.fs.users == old(cur.fs.users) + if held >= 2 && CLONE_FS in args.flags then 1 else 0
  {
    held := 0;
    retval := CopyFiles(k, cur, p, args);
    if retval != 0 { return; }
    held := 1;
    retval := CopyFs(k, cur, p, args);
    if retval != 0 { return; }
    held := 2;
  }

  /** copy_sighand and copy_signal, in the same way. */
  method CopySighandAndSignal(k: Kernel, cur: Task, p: Task, args: Clone) returns (retval: int, held: nat)
    requires p != cur && Complete(cur) && p.sighand == cur.sighand && p.signal == cur.signal
    modifies k`slabs, p`sighand, p`signal, cur.sighand`count
    ensures Returns(k, retval)
    ensures 2 <= held <= 4 && (retval == 0 <==> held == 4)
    ensures held >= 3 ==> HoldsSighand(cur, p, args)
    ensures held >= 4 ==> HoldsSignal(cur, p, args)
    ensures p.sighand != null && p.sighand != cur.sighand ==> fresh(p.sighand)
    ensures p.signal != null && p.signal != cur.signal ==> fresh(p.signal)
    ensures k.slabs == Allocated(old(k.slabs), args, false, held, 1).(fs := old(k.slabs).fs)
    ensures cur.sighand.count == old(cur.sighand.count) + if held >= 3 && CLONE_SIGHAND in args.flags then 1 else 0
  {
    held := 2;
    retval := CopySighand(k, cur, p, args);
    if retval != 0 { return; }
    held := 3;
    retval := CopySignal(k, cur, p, args);
    if retval != 0 { return; }
    held := 4;
  }

  /** The forking task's counts, moved by sign for each structure that the flags share. */
  ghost predicate UsesMoved(cur: Task, args: Clone, u: Usage, sign: int)
    reads cur`files, cur`fs, cur`sighand, FilesOf(cur)`count, FsOf(cur)`users, SighandOf(cur)`count
  {
    && (cur.files != null ==> cur.files.count == u.Share(args, sign).files)
    && (cur.fs != null ==> cur.fs.users == u.Share(args, sign).fs)
    && (cur.sighand != null ==> cur.sighand.count == u.Share(args, sign).sighand)
  }

  /** From copy_files to copy_signal: all four structures, or none. */
  method CopyShared(k: Kernel, cur: Task, p: Task, args: Clone) returns (retval: int)
    requires p != cur && Complete(cur)
    requires p.files == cur.files && p.fs == cur.fs && p.sighand == cur.sighand && p.signal == cur.signal
    modifies k`slabs, p`files, p`fs, p`sighand, p`signal, FilesOf(cur)`count, cur.fs`users, cur.sighand`count
    ensures Returns(k, retval)
    ensures retval == 0 ==>
      && Shares(cur, p, args) && HoldsSignal(cur, p, args)
      && (p.files != null && p.files != cur.files ==> fresh(p.files)) && (p.fs != cur.fs ==> fresh(p.fs))
      && (p.sighand != cur.sighand ==> fresh(p.sighand)) && (p.signal != cur.signal ==> fresh(p.signal))
    ensures k.slabs == Allocated(old(k.slabs), args, cur.files != null, if retval == 0 then 4 else 0, 1)
    ensures UsesMoved(cur, args, old(UsageOf(cur)), if retval == 0 then 1 else 0)
  {
    var held;
    retval, held := CopyFilesAndFs(k, cur, p, args);
    if retval == 0 {
      retval, held := CopySighandAndSignal(k, cur, p, args);
    }
    if retval != 0 {
      UnwindShared(k, cur, p, args, held);
    }
  }

  // ---------- policy, accounting, semaphores ----------

  /**
   delayacct, policies, perf, audit and semundo, of which the first held are taken or given back; an undo list is
   counted only where the flags share one.
   */
  function SetUp(s: Setup, undo: bool, held: nat, sign: int): Setup {
    s.(delayacct := s.delayacct + (if held >= 1 then sign else 0),
       policies := s.policies + (if held >= 2 then sign else 0),
       perf := s.perf + (if held >= 3 then sign else 0),
       audit := s.audit + (if held >= 4 then sign else 0),
       semundo := s.semundo + (if held >= 5 && undo then sign else 0))
  }

  /** From delayacct_tsk_init to copy_semundo. */
  method CopySetup(k: Kernel, p: Task, args: Clone) returns (retval: int, held: nat)
    modifies k`setup, p`extras
    ensures Returns(k, retval)
    ensures p.extras.ioContext == None && p.extras.seccompFilter == old(p.extras.seccompFilter)
    ensures p.extras.kthread == old(p.extras.kthread)
    ensures 1 <= held <= 5 && (retval == 0 ==> held == 5)
    ensures held == 5 ==> p.extras.undoList == (CLONE_SYSVSEM in args.flags) && p.extras.segments == 0
    ensures k.setup == SetUp(old(k.setup), CLONE_SYSVSEM in args.flags, held, 1)
  {
    k.setup := k.setup.(delayacct := k.setup.delayacct + 1);
    held := 1;
    p.extras := p.extras.(ioContext := None);
    retval := Hook(k);    // mpol_dup
    if retval != 0 { return; }
    k.setup := k.setup.(policies := k.setup.policies + 1);
    held := 2;
    retval := Hook(k);    // sched_fork
    if retval != 0 { return; }
    retval := Hook(k);    // perf_event_init_task
    if retval != 0 { return; }
    k.setup := k.setup.(perf := k.setup.perf + 1);
    held := 3;
    retval := Hook(k);    // audit_alloc
    if retval != 0 { return; }
    k.setup := k.setup.(audit := k.setup.audit + 1);
    held := 4;
    p.extras := p.extras.(segments := 0);
    retval := CopySemundo(k, p, args);
    if retval != 0 { return; }
    held := 5;
  }

  /** copy_semundo. */
  method CopySemundo(k: Kernel, p: Task, args: Clone) returns (retval: int)
    modifies k`setup, p`extras
    ensures Returns(k, retval)
    ensures p.extras == old(p.extras).(undoList := if retval == 0 then CLONE_SYSVSEM in args.flags
                                                   else old(p.extras).undoList)
    ensures k.setup == old(k.setup).(
                         semundo := old(k.setup).semundo + if retval == 0 && p.extras.undoList then 1 else 0)
  {
    retval := 0;
    if CLONE_SYSVSEM in args.flags {
      retval := Hook(k);
      if retval != 0 { return; }
      k.setup := k.setup.(semundo := k.setup.semundo + 1);
      p.extras := p.extras.(undoList := true);
    } else {
      p.extras := p.extras.(undoList := false);
    }
  }

  /** exit_sem: the task's share of its undo list. */
  method ExitSem(k: Kernel, p: Task)
    modifies k`setup, p`extras
    ensures p.extras == old(p.extras).(undoList := false)
    ensures k.setup == old(k.setup).(semundo := old(k.setup).semundo - if old(p.extras).undoList then 1 else 0)
  {
    if p.extras.undoList {
      p.extras := p.extras.(undoList := false);
      k.setup := k.setup.(semundo := k.setup.semundo - 1);
    }
  }

  /** The lower part of the ladder, from bad_fork_cleanup_semundo to bad_fork_cleanup_threadgroup_lock. */
  method UnwindSetup(k: Kernel, p: Task, undo: bool, held: nat)
    requires held <= 5 && (held == 5 ==> p.extras.undoList == undo)
    modifies k`setup, p`extras
    ensures k.setup == SetUp(old(k.setup), undo, held, -1)
    ensures p.extras == old(p.extras).(undoList := p.extras.undoList)
  {
    if held >= 5 { ExitSem(k, p); }
    if held >= 4 { k.setup := k.setup.(audit := k.setup.audit - 1); }
    if held >= 3 { k.setup := k.setup.(perf := k.setup.perf - 1); }
    if held >= 2 { k.setup := k.setup.(policies := k.setup.policies - 1); }
    if held >= 1 { k.setup := k.setup.(delayacct := k.setup.delayacct - 1); }
  }

  // ---------- the whole ----------

  /** A task that forks, as the middle of copy_process finds it, and the copy that is to become the new one. */
  ghost predicate Forking(k: Kernel, host: Host, cur: Task, p: Task, q: Request, a: Areas)
    reads k`run, cur`id, cur`files, cur`fs, cur`sighand, cur`signal, cur`mm, p`extras, p`id
    reads FilesOf(cur)`count, FsOf(cur)`users, SighandOf(cur)`count, MmOf(cur), a.nodes, host`books
    reads p`files, p`fs, p`sighand, p`signal
  {
    && cur != p && Complete(cur) && Mapped(cur, host, a) && k.run.Ready(q)
    && cur.id.groupLeader != null && cur.id.groupLeader != p && p.id == cur.id && !p.extras.seccompFilter
    && p.files == cur.files && p.fs == cur.fs && p.sighand == cur.sighand && p.signal == cur.signal
  }

  /** Everything that a failure must put back, or a success must move by what the flags say. */
  datatype World = World(before: Before, host: HostState, uses: Usage, slabs: Slabs)

  ghost function WorldOf(k: Kernel, host: Host, cur: Task): World
    requires cur.signal != null && cur.id.groupLeader != null
    reads k`run, k`slabs, cur`signal, cur.signal`group, cur`id, cur.id.groupLeader`id, host
    reads cur`files, cur`fs, cur`sighand, cur`mm
    reads FilesOf(cur)`count, FsOf(cur)`users, SighandOf(cur)`count, MmOf(cur)`users
  {
    World(Seen(k, cur), HostOf(host), UsageOf(cur), k.slabs)
  }

  /** With the four structures taken, and the address space still to be copied. */
  ghost predicate Halfway(k: Kernel, host: Host, cur: Task, q: Request, w: World)
    requires cur.signal != null && cur.id.groupLeader != null
    reads k`run, k`slabs, cur`signal, cur.signal`group, cur`id, cur.id.groupLeader`id, host
    reads cur`files, cur`fs, cur`sighand, cur`mm
    reads FilesOf(cur)`count, FsOf(cur)`users, SighandOf(cur)`count, MmOf(cur)`users
  {
    WorldOf(k, host, cur) ==
    World(w.before, w.host, w.uses.Share(q.args, 1).(mm := w.uses.mm),
          Allocated(w.slabs, q.args, cur.files != null, 4, 1))
  }

  /** The fork has succeeded: the new task runs, and each count has moved by exactly what the flags say. */
  ghost predicate Succeeded(k: Kernel, host: Host, cur: Task, p: Task, q: Request, a: Areas, child: seq<Vma>, w: World)
    requires cur.signal != null && q.cpu < |w.before.run.totals.processCounts|
    reads k`run, k`slabs, cur`id, cur`signal, SignalOf(cur)`group, p`id, p`extras, p`signal, SignalOf(p)`group
    reads cur`files, p`files, FilesOf(p)`count, cur`fs, p`fs, FsOf(p)`users
    reads cur`sighand, p`sighand, SighandOf(p)`count, FilesOf(cur)`count, FsOf(cur)`users, SighandOf(cur)`count
    reads cur`mm, p`mm, MmOf(cur), MmOf(p), host, child
  {
    && Launched(k, cur, p, q, w.before) && Shares(cur, p, q.args) && HoldsMm(cur, p, q.args, host, a, child, w.host)
    && k.slabs == Allocated(w.slabs, q.args, cur.files != null, 4, 1)
    && UsageOf(cur) == w.uses.Share(q.args, 1)
  }

  /** The fork has failed: every count is as it was, but for a filter that the task still holds. */
  ghost predicate Failed(k: Kernel, host: Host, cur: Task, p: Task, w: World)
    reads k`run, k`slabs, cur`signal, SignalOf(cur)`group, p`extras, host, cur`id, LeaderOf(cur)`id
    reads cur`files, cur`fs, cur`sighand, cur`mm
    reads FilesOf(cur)`count, FsOf(cur)`users, SighandOf(cur)`count, MmOf(cur)`users
  {
    && Grounded(k, cur, p, w.before) && HostOf(host) == w.host && k.slabs == w.slabs && UsageOf(cur) == w.uses
  }

  /** The shared structures stay as they were taken while the address space is copied and the rest is done. */
  method FromMmSharing(k: Kernel, host: Host, cur: Task, p: Task, q: Request, ghost a: Areas)
    returns (retval: int, ghost child: seq<Vma>)
    requires Linkable(k, cur, p, q) && p.id == cur.id && p.extras.ioContext == None && Mapped(cur, host, a)
    requires Complete(cur) && Shares(cur, p, q.args)
    modifies k`run, p`id, p`extras, p.signal`group, cur.signal`group
    modifies p`mm, MmOf(cur)`users, MmOf(cur)`semHeld, host
    ensures Returns(k, retval)
    ensures Mapped(cur, host, a) && Complete(cur) && Shares(cur, p, q.args)
    ensures UsageOf(cur) == old(UsageOf(cur)).(mm := MmUsers(cur))
    ensures MmUsers(cur) == old(MmUsers(cur)) + if retval == 0 && SharesMm(cur, q.args) then 1 else 0
    ensures retval == 0 ==>
      && p.extras == WithIo(old(p.extras), cur.extras, q.args)
      && Launched(k, cur, p, q, old(Seen(k, cur)))
      && HoldsMm(cur, p, q.args, host, a, child, old(HostOf(host)))
      && (p.mm != null && p.mm != cur.mm ==> fresh(p.mm))
    ensures retval != 0 ==>
      && p.extras.undoList == old(p.extras.undoList)
      && Grounded(k, cur, p, old(Seen(k, cur))) && HostOf(host) == old(HostOf(host))
  {
    retval, child := FromMm(k, host, cur, p, q, a);
  }

  /** FromMmSharing, with the four structures taken. */
  method FromMmWithShared(k: Kernel, host: Host, cur: Task, p: Task, q: Request, ghost a: Areas, ghost w: World)
    returns (retval: int, ghost child: seq<Vma>)
    requires Linkable(k, cur, p, q) && p.id == cur.id && p.extras.ioContext == None && Mapped(cur, host, a)
    requires Complete(cur) && Shares(cur, p, q.args) && Halfway(k, host, cur, q, w)
    modifies k`run, p`id, p`extras, p.signal`group, cur.signal`group
    modifies p`mm, MmOf(cur)`users, MmOf(cur)`semHeld, host
    ensures Returns(k, retval)
    ensures Mapped(cur, host, a)
    ensures retval == 0 ==>
      && p.extras == WithIo(old(p.extras), cur.extras, q.args)
      && Succeeded(k, host, cur, p, q, a, child, w)
      && (p.mm != null && p.mm != cur.mm ==> fresh(p.mm))
    ensures retval != 0 ==>
      && p.extras.undoList == old(p.extras.undoList)
      && Complete(cur) && Shares(cur, p, q.args)
      && Grounded(k, cur, p, w.before) && HostOf(host) == w.host
      && k.slabs == Allocated(w.slabs, q.args, cur.files != null, 4, 1)
      && UsageOf(cur) == w.uses.Share(q.args, 1).(mm := w.uses.mm)
  {
    retval, child := FromMmSharing(k, host, cur, p, q, a);
  }

  /** Giving the shared structures back touches neither the address space nor the counters of running tasks. */
  method UnwindGrounded(k: Kernel, host: Host, cur: Task, p: Task, q: Request, ghost a: Areas, ghost w: World)
    requires p != cur && Complete(cur) && Shares(cur, p, q.args) && Mapped(cur, host, a)
    requires Grounded(k, cur, p, w.before) && HostOf(host) == w.host
    requires k.slabs == Allocated(w.slabs, q.args, cur.files != null, 4, 1)
    requires UsageOf(cur) == w.uses.Share(q.args, 1).(mm := w.uses.mm)
    modifies k`slabs, p`files, p`fs, FilesOf(p)`count, p.fs`users, p.sighand`count
    ensures Mapped(cur, host, a) && Failed(k, host, cur, p, w) && p.extras == old(p.extras)
  {
    UnwindShared(k, cur, p, q.args, 4);
  }

  /** The structures that the flags do not share are none of those that were known before. */
  ghost predicate OwnIsNew(p: Task, args: Clone, known: set<object>)
    reads p`files, p`fs, p`sighand, p`signal
  {
    && (CLONE_FILES !in args.flags && p.files != null ==> p.files !in known)
    && (CLONE_FS !in args.flags && p.fs != null ==> p.fs !in known)
    && (CLONE_SIGHAND !in args.flags && p.sighand != null ==> p.sighand !in known)
    && (CLONE_THREAD !in args.flags && p.signal != null ==> p.signal !in known)
  }

  /** With the shared structures taken, everything from the address space on; a failure gives them back. */
  method FromShared(k: Kernel, host: Host, cur: Task, p: Task, q: Request, ghost a: Areas, ghost w: World,
                    ghost known: set<object>)
    returns (retval: int, ghost child: seq<Vma>)
    requires Linkable(k, cur, p, q) && p.id == cur.id && p.extras.ioContext == None && Mapped(cur, host, a)
    requires Complete(cur) && Shares(cur, p, q.args) && Halfway(k, host, cur, q, w) && OwnIsNew(p, q.args, known)
    modifies k`slabs, k`run, p`files, p`fs, p`id, p`extras, cur.signal`group, p.signal`group
    modifies FilesOf(p)`count, p.fs`users, p.sighand`count, p`mm, MmOf(cur)`users, MmOf(cur)`semHeld, host
    ensures Returns(k, retval)
    ensures Mapped(cur, host, a)
    ensures retval == 0 ==>
      && p.extras == WithIo(old(p.extras), cur.extras, q.args)
      && Succeeded(k, host, cur, p, q, a, child, w)
      && OwnIsNew(p, q.args, known) && (p.mm != null && p.mm != cur.mm ==> p.mm !in known)
    ensures retval != 0 ==> p.extras.undoList == old(p.extras.undoList) && Failed(k, host, cur, p, w)
  {
    retval, child := FromMmWithShared(k, host, cur, p, q, a, w);
    if retval == 0 { return; }
    UnwindGrounded(k, host, cur, p, q, a, w);
  }

  /** CopyShared on a task in the middle of copy_process. */
  method TakeShared(k: Kernel, host: Host, cur: Task, p: Task, q: Request, ghost a: Areas, ghost w: World,
                    ghost known: set<object>)
    returns (retval: int)
    requires Forking(k, host, cur, p, q, a) && WorldOf(k, host, cur) == w
    modifies k`slabs, p`files, p`fs, p`sighand, p`signal, FilesOf(cur)`count, cur.fs`users, cur.sighand`count
    ensures Returns(k, retval)
    ensures Mapped(cur, host, a)
    ensures retval == 0 ==>
      && Linkable(k, cur, p, q) && Complete(cur) && Shares(cur, p, q.args) && OwnIsNew(p, q.args, known)
      && Halfway(k, host, cur, q, w)
      && (p.files != null && p.files != cur.files ==> fresh(p.files)) && (p.fs != cur.fs ==> fresh(p.fs))
      && (p.sighand != cur.sighand ==> fresh(p.sighand)) && (p.signal != cur.signal ==> fresh(p.signal))
    ensures retval != 0 ==> Failed(k, host, cur, p, w)
  {
    retval := CopyShared(k, cur, p, q.args);
  }

  /** The middle of copy_process: shared structures, then everything from the address space on. */
  method FromFiles(k: Kernel, host: Host, cur: Task, p: Task, q: Request, ghost a: Areas, ghost w: World,
                   ghost known: set<object>)
    returns (retval: int, ghost child: seq<Vma>)
    requires Forking(k, host, cur, p, q, a) && p.extras.ioContext == None && WorldOf(k, host, cur) == w
    modifies k`slabs, k`run, p`files, p`fs, p`sighand, p`signal, p`mm, p`id, p`extras, cur.signal`group
    modifies FilesOf(cur)`count, cur.fs`users, cur.sighand`count, MmOf(cur)`users, MmOf(cur)`semHeld, host
    ensures Returns(k, retval)
    ensures Mapped(cur, host, a)
    ensures retval == 0 ==>
      && p.extras == WithIo(old(p.extras), cur.extras, q.args)
      && Succeeded(k, host, cur, p, q, a, child, w)
      && OwnIsNew(p, q.args, known) && (p.mm != null && p.mm != cur.mm ==> p.mm !in known)
    ensures retval != 0 ==> p.extras.undoList == old(p.extras.undoList) && Failed(k, host, cur, p, w)
  {
    child := [];
    retval := TakeShared(k, host, cur, p, q, a, w, known);
    if retval == 0 {
      retval, child := FromShared(k, host, cur, p, q, a, w, known);
    }
  }

  /** The whole of a success, from the credentials on. */
  ghost predicate Forked(k: Kernel, host: Host, cur: Task, p: Task, q: Request, a: Areas, child: seq<Vma>, w: World,
                         known: set<object>)
    requires cur.signal != null && q.cpu < |w.before.run.totals.processCounts|
    reads k`run, k`slabs, cur`id, cur`signal, SignalOf(cur)`group, p`id, p`extras, p`signal, SignalOf(p)`group
    reads cur`files, p`files, FilesOf(p)`count, cur`fs, p`fs, FsOf(p)`users
    reads cur`sighand, p`sighand, SighandOf(p)`count, FilesOf(cur)`count, FsOf(cur)`users, SighandOf(cur)`count
    reads cur`mm, p`mm, MmOf(cur), MmOf(p), host, child, cur`extras
  {
    && p.extras == ChildExtras(cur.extras, q.args) && Succeeded(k, host, cur, p, q, a, child, w)
    && OwnIsNew(p, q.args, known) && (p.mm != null && p.mm != cur.mm ==> p.mm !in known)
  }

  /** A task's credentials count it among the processes of its user. */
  function Credited(s: Setup, sign: int): Setup {
    s.(creds := s.creds + sign, userProcesses := s.userProcesses + sign)
  }

  /** From delayacct_tsk_init to copy_semundo: all five, or none. */
  method CopyAllSetup(k: Kernel, p: Task, args: Clone) returns (retval: int)
    modifies k`setup, p`extras
    ensures Returns(k, retval)
    ensures k.setup == if retval == 0 then SetUp(old(k.setup), CLONE_SYSVSEM in args.flags, 5, 1) else old(k.setup)
    ensures p.extras.seccompFilter == old(p.extras.seccompFilter)
    ensures retval == 0 ==>
      p.extras == old(p.extras).(ioContext := None, undoList := CLONE_SYSVSEM in args.flags, segments := 0)
  {
    var held;
    retval, held := CopySetup(k, p, args);
    if retval != 0 {
      UnwindSetup(k, p, CLONE_SYSVSEM in args.flags, held);
    }
  }

  /** CopyAllSetup on a task in the middle of copy_process. */
  method TakeSetup(k: Kernel, host: Host, cur: Task, p: Task, q: Request, ghost a: Areas, ghost w: World)
    returns (retval: int)
    requires Forking(k, host, cur, p, q, a) && WorldOf(k, host, cur) == w
    requires p.extras == cur.extras.(seccompFilter := false)
    modifies k`setup, p`extras
    ensures Returns(k, retval)
    ensures k.setup == if retval == 0 then SetUp(old(k.setup), CLONE_SYSVSEM in q.args.flags, 5, 1) else old(k.setup)
    ensures Mapped(cur, host, a)
    ensures retval == 0 ==>
      && Forking(k, host, cur, p, q, a) && WorldOf(k, host, cur) == w
      && p.extras == ChildExtras(cur.extras, q.args).(ioContext := None, seccompFilter := false)
    ensures retval != 0 ==> Failed(k, host, cur, p, w)
  {
    retval := CopyAllSetup(k, p, q.args);
  }

  /** UnwindSetup after a failure. */
  method UnwindFailed(k: Kernel, host: Host, cur: Task, p: Task, q: Request, ghost a: Areas, ghost w: World)
    requires cur != p && cur.signal != null && Mapped(cur, host, a) && Failed(k, host, cur, p, w)
    requires p.extras.undoList == (CLONE_SYSVSEM in q.args.flags)
    modifies k`setup, p`extras
    ensures Mapped(cur, host, a) && Failed(k, host, cur, p, w)
    ensures k.setup == SetUp(old(k.setup), CLONE_SYSVSEM in q.args.flags, 5, -1)
  {
    UnwindSetup(k, p, CLONE_SYSVSEM in q.args.flags, 5);
  }

  /** With all that taken: everything from the shared structures on; a failure gives it back. */
  method FromSetupTaken(k: Kernel, host: Host, cur: Task, p: Task, q: Request, ghost a: Areas, ghost w: World,
                       ghost known: set<object>)
    returns (retval: int, ghost child: seq<Vma>)
    requires Forking(k, host, cur, p, q, a) && WorldOf(k, host, cur) == w
    requires p.extras == ChildExtras(cur.extras, q.args).(ioContext := None, seccompFilter := false)
    modifies k`setup, k`slabs, k`run, p`files, p`fs, p`sighand, p`signal, p`mm, p`id, p`extras, cur.signal`group
    modifies FilesOf(cur)`count, cur.fs`users, cur.sighand`count, MmOf(cur)`users, MmOf(cur)`semHeld, host
    ensures Returns(k, retval)
    ensures Mapped(cur, host, a)
    ensures if retval == 0 then Forked(k, host, cur, p, q, a, child, w, known) else Failed(k, host, cur, p, w)
    ensures k.setup == if retval == 0 then old(k.setup) else SetUp(old(k.setup), CLONE_SYSVSEM in q.args.flags, 5, -1)
  {
    retval, child := FromFiles(k, host, cur, p, q, a, w, known);
    if retval != 0 {
      UnwindFailed(k, host, cur, p, q, a, w);
    }
  }

  /** From delayacct_tsk_init to the end. */
  method FromSetup(k: Kernel, host: Host, cur: Task, p: Task, q: Request, ghost a: Areas, ghost w: World,
                  ghost known: set<object>)
    returns (retval: int, ghost child: seq<Vma>)
    requires Forking(k, host, cur, p, q, a) && WorldOf(k, host, cur) == w
    requires p.extras == cur.extras.(seccompFilter := false)
    modifies k`setup, k`slabs, k`run, p`files, p`fs, p`sighand, p`signal, p`mm, p`id, p`extras, cur.signal`group
    modifies FilesOf(cur)`count, cur.fs`users, cur.sighand`count, MmOf(cur)`users, MmOf(cur)`semHeld, host
    ensures Returns(k, retval)
    ensures Mapped(cur, host, a)
    ensures if retval == 0 then Forked(k, host, cur, p, q, a, child, w, known) else Failed(k, host, cur, p, w)
    ensures k.setup == if retval == 0 then SetUp(old(k.setup), CLONE_SYSVSEM in q.args.flags, 5, 1) else old(k.setup)
  {
    child := [];
    retval := TakeSetup(k, host, cur, p, q, a, w);
    if retval == 0 {
      retval, child := FromSetupTaken(k, host, cur, p, q, a, w, known);
    }
  }

  /** copy_creds, when it succeeds. */
  method TakeCreds(k: Kernel, host: Host, cur: Task, p: Task, q: Request, ghost a: Areas, ghost w: World)
    requires Forking(k, host, cur, p, q, a) && WorldOf(k, host, cur) == w
    modifies k`setup
    ensures Forking(k, host, cur, p, q, a) && WorldOf(k, host, cur) == w
    ensures k.setup == Credited(old(k.setup), 1)
  {
    k.setup := Credited(k.setup, 1);
  }

  /** bad_fork_cleanup_count: the process is not counted any more, and exit_creds. */
  method DropCreds(k: Kernel, host: Host, cur: Task, p: Task, ghost a: Areas, ghost w: World)
    requires cur.signal != null && Mapped(cur, host, a) && Failed(k, host, cur, p, w)
    modifies k`setup
    ensures Mapped(cur, host, a) && Failed(k, host, cur, p, w)
    ensures k.setup == Credited(old(k.setup), -1)
  {
    k.setup := Credited(k.setup, -1);
  }

  /** As long as nothing has been done, there is nothing to undo. */
  lemma FailsAtOnce(k: Kernel, host: Host, cur: Task, p: Task, q: Request, a: Areas, w: World)
    requires Forking(k, host, cur, p, q, a) && WorldOf(k, host, cur) == w
    ensures Failed(k, host, cur, p, w)
  {
  }

  /** The limit is only checked here: another fork may pass the check before this one counts its task. */
  method FromCount(k: Kernel, host: Host, cur: Task, p: Task, q: Request, ghost a: Areas, ghost w: World,
                  ghost known: set<object>)
    returns (retval: int, ghost child: seq<Vma>)
    requires Forking(k, host, cur, p, q, a) && WorldOf(k, host, cur) == w
    requires p.extras == cur.extras.(seccompFilter := false)
    modifies k`setup, k`slabs, k`run, p`files, p`fs, p`sighand, p`signal, p`mm, p`id, p`extras, cur.signal`group
    modifies FilesOf(cur)`count, cur.fs`users, cur.sighand`count, MmOf(cur)`users, MmOf(cur)`semHeld, host
    ensures Returns(k, retval)
    ensures Mapped(cur, host, a)
    ensures if retval == 0 then Forked(k, host, cur, p, q, a, child, w, known) else Failed(k, host, cur, p, w)
    ensures w.before.run.totals.nrThreads >= k.maxThreads ==> retval == -EAGAIN
    ensures k.setup == if retval == 0 then SetUp(old(k.setup), CLONE_SYSVSEM in q.args.flags, 5, 1) else old(k.setup)
  {
    child := [];
    if k.run.totals.nrThreads >= k.maxThreads {
      retval := -EAGAIN;
      FailsAtOnce(k, host, cur, p, q, a, w);
    } else {
      retval, child := FromSetup(k, host, cur, p, q, a, w, known);
    }
  }

  /** With the credentials taken: everything from the limit on; a failure gives them back. */
  method FromCredsTaken(k: Kernel, host: Host, cur: Task, p: Task, q: Request, ghost a: Areas, ghost w: World,
                       ghost known: set<object>)
    returns (retval: int, ghost child: seq<Vma>)
    requires Forking(k, host, cur, p, q, a) && WorldOf(k, host, cur) == w
    requires p.extras == cur.extras.(seccompFilter := false)
    modifies k`setup, k`slabs, k`run, p`files, p`fs, p`sighand, p`signal, p`mm, p`id, p`extras, cur.signal`group
    modifies FilesOf(cur)`count, cur.fs`users, cur.sighand`count, MmOf(cur)`users, MmOf(cur)`semHeld, host
    ensures Returns(k, retval)
    ensures Mapped(cur, host, a)
    ensures if retval == 0 then Forked(k, host, cur, p, q, a, child, w, known) else Failed(k, host, cur, p, w)
    ensures w.before.run.totals.nrThreads >= k.maxThreads ==> retval != 0
    ensures k.setup == if retval == 0 then SetUp(old(k.setup), CLONE_SYSVSEM in q.args.flags, 5, 1)
                       else Credited(old(k.setup), -1)
  {
    retval, child := FromCount(k, host, cur, p, q, a, w, known);
    if retval != 0 {
      DropCreds(k, host, cur, p, a, w);
    }
  }

  /** From copy_creds to the end. */
  method FromCreds(k: Kernel, host: Host, cur: Task, p: Task, q: Request, ghost a: Areas, ghost w: World,
                  ghost known: set<object>)
    returns (retval: int, ghost child: seq<Vma>)
    requires Forking(k, host, cur, p, q, a) && WorldOf(k, host, cur) == w
    requires p.extras == cur.extras.(seccompFilter := false)
    modifies k`setup, k`slabs, k`run, p`files, p`fs, p`sighand, p`signal, p`mm, p`id, p`extras, cur.signal`group
    modifies FilesOf(cur)`count, cur.fs`users, cur.sighand`count, MmOf(cur)`users, MmOf(cur)`semHeld, host
    ensures Returns(k, retval)
    ensures Mapped(cur, host, a)
    ensures if retval == 0 then Forked(k, host, cur, p, q, a, child, w, known) else Failed(k, host, cur, p, w)
    ensures w.before.run.totals.nrThreads >= k.maxThreads ==> retval != 0
    ensures k.setup == if retval == 0 then SetUp(Credited(old(k.setup), 1), CLONE_SYSVSEM in q.args.flags, 5, 1)
                       else old(k.setup)
  {
    child := [];
    retval := Hook(k);
    if retval == 0 {
      TakeCreds(k, host, cur, p, q, a, w);
      retval, child := FromCredsTaken(k, host, cur, p, q, a, w, known);
    }
  }

  /** The flag for an exceeded limit is the limit's own business. */
  method FromCredsCleared(k: Kernel, host: Host, cur: Task, p: Task, q: Request, ghost a: Areas, ghost w: World,
                          ghost known: set<object>)
    returns (retval: int, ghost child: seq<Vma>)
    requires Forking(k, host, cur, p, q, a) && WorldOf(k, host, cur) == w
    requires p.extras == cur.extras.(seccompFilter := false) && !cur.nprocExceeded
    modifies k`setup, k`slabs, k`run, p`files, p`fs, p`sighand, p`signal, p`mm, p`id, p`extras, cur.signal`group
    modifies FilesOf(cur)`count, cur.fs`users, cur.sighand`count, MmOf(cur)`users, MmOf(cur)`semHeld, host
    ensures Returns(k, retval)
    ensures Mapped(cur, host, a) && !cur.nprocExceeded
    ensures if retval == 0 then Forked(k, host, cur, p, q, a, child, w, known) else Failed(k, host, cur, p, w)
    ensures w.before.run.totals.nrThreads >= k.maxThreads ==> retval != 0
    ensures k.setup == if retval == 0 then SetUp(Credited(old(k.setup), 1), CLONE_SYSVSEM in q.args.flags, 5, 1)
                       else old(k.setup)
  {
    retval, child := FromCreds(k, host, cur, p, q, a, w, known);
  }

  /** From the process limit of the user to the end. */
  method FromLimit(k: Kernel, host: Host, cur: Task, p: Task, q: Request, ghost a: Areas, ghost w: World,
                  ghost known: set<object>)
    returns (retval: int, ghost child: seq<Vma>)
    requires Forking(k, host, cur, p, q, a) && WorldOf(k, host, cur) == w
    requires p.extras == cur.extras.(seccompFilter := false)
    modifies cur`nprocExceeded
    modifies k`setup, k`slabs, k`run, p`files, p`fs, p`sighand, p`signal, p`mm, p`id, p`extras, cur.signal`group
    modifies FilesOf(cur)`count, cur.fs`users, cur.sighand`count, MmOf(cur)`users, MmOf(cur)`semHeld, host
    ensures Returns(k, retval)
    ensures Mapped(cur, host, a)
    ensures if retval == 0 then Forked(k, host, cur, p, q, a, child, w, known) else Failed(k, host, cur, p, w)
    ensures w.before.run.totals.nrThreads >= k.maxThreads ==> retval != 0
    ensures retval == 0 ==> !cur.nprocExceeded
    ensures k.setup == if retval == 0 then SetUp(Credited(old(k.setup), 1), CLONE_SYSVSEM in q.args.flags, 5, 1)
                       else old(k.setup)
  {
    child := [];
    var overLimit := *;
    if overLimit {
      retval := -EAGAIN;
      FailsAtOnce(k, host, cur, p, q, a, w);
    } else {
      cur.nprocExceeded := false;
      retval, child := FromCredsCleared(k, host, cur, p, q, a, w, known);
    }
  }

  /** The combinations of flags that are refused before anything is allocated. */
  predicate Refused(args: Clone, init: bool, pidNamespaceForChildren: bool) {
    || (CLONE_NEWNS in args.flags && CLONE_FS in args.flags)
    || (CLONE_NEWUSER in args.flags && CLONE_FS in args.flags)
    || (CLONE_THREAD in args.flags && CLONE_SIGHAND !in args.flags)
    || (CLONE_SIGHAND in args.flags && CLONE_VM !in args.flags)
    || (CLONE_PARENT in args.flags && init)
    || (CLONE_THREAD in args.flags
        && (CLONE_NEWUSER in args.flags || CLONE_NEWPID in args.flags || pidNamespaceForChildren))
  }

  /** The allocator of stacks, as a failure must leave it. */
  datatype Stacks = Stacks(owners: set<Task>, zoneKb: seq<int>, memcgKb: int, taskStructs: int)

  ghost function StacksOf(alloc: TaskStacks.Allocator): Stacks
    reads alloc`owners, alloc.zoneKb, alloc`memcgKb, alloc`taskStructs
  {
    Stacks(alloc.owners, alloc.zoneKb[..], alloc.memcgKb, alloc.taskStructs)
  }

  /** One task more, whose stack is accounted. */
  ghost predicate OneMoreStack(alloc: TaskStacks.Allocator, p: Task, s: Stacks)
    reads alloc`owners, alloc.zoneKb, alloc`memcgKb, alloc`taskStructs, p`stackVmArea, p`stackRefcount
  {
    && p !in s.owners && alloc.owners == s.owners + {p} && p.stackVmArea != null && alloc.Fits(p.stackVmArea)
    && |s.zoneKb| == alloc.zoneKb.Length
    && alloc.zoneKb[..] == TaskStacks.Credit(s.zoneKb, p.stackVmArea.zones, alloc.pageKb * 1)
    && alloc.memcgKb == s.memcgKb + alloc.ThreadKb() && alloc.taskStructs == s.taskStructs + 1
  }

  /** The copy of cur that copy_process is to make a task of, with the stack that it has been given. */
  ghost predicate Drafted(alloc: TaskStacks.Allocator, cur: Task, p: Task, s: Stacks)
    reads alloc`owners, alloc.zoneKb, alloc`memcgKb, alloc`taskStructs, p`stackVmArea, p`stackRefcount
    reads p`usage, p`extras, cur`extras
  {
    && OneMoreStack(alloc, p, s) && p.extras == cur.extras.(seccompFilter := false) && p.usage == 2
    && (alloc.threadInfoInTask ==> p.stackRefcount == 1)
  }

  /** dup_task_struct, for the task that forks. */
  method TakeTask(k: Kernel, alloc: TaskStacks.Allocator, host: Host, cur: Task, q: Request,
                  ghost a: Areas, ghost w: World)
    returns (p: Task?)
    requires alloc.Valid() && q.cpu < alloc.cpus
    requires Complete(cur) && Mapped(cur, host, a) && k.run.Ready(q) && cur.id.groupLeader != null
    requires WorldOf(k, host, cur) == w
    modifies alloc`place, alloc`owners, alloc`accounted, alloc`memcgKb, alloc`taskStructs, alloc.cached, alloc.zoneKb
    ensures alloc.Valid() && Mapped(cur, host, a) && WorldOf(k, host, cur) == w
    ensures p == null ==> StacksOf(alloc) == old(StacksOf(alloc))
    ensures p != null ==>
      && fresh(p) && Drafted(alloc, cur, p, old(StacksOf(alloc))) && Forking(k, host, cur, p, q, a) && p.mm == cur.mm
  {
    p := alloc.DupTaskStruct(cur, q.cpu);
  }

  /** The stacks of some tasks, and who holds them, are as they were. */
  twostate predicate StacksUntouched(owners: set<Task>)
    reads owners`stack, owners`stackVmArea, owners`stackRefcount, owners`usage
  {
    forall t :: t in owners ==>
      && t.stack == old(t.stack) && t.stackVmArea == old(t.stackVmArea) && t.stackRefcount == old(t.stackRefcount)
      && t.usage == old(t.usage)
  }

  /** Nothing from the limit on touches a stack, */
  method FromLimitOffStacks(k: Kernel, host: Host, cur: Task, p: Task, q: Request,
                            ghost a: Areas, ghost w: World, ghost owners: set<Task>, ghost known: set<object>)
    returns (retval: int, ghost child: seq<Vma>)
    requires Forking(k, host, cur, p, q, a) && WorldOf(k, host, cur) == w
    requires p.extras == cur.extras.(seccompFilter := false)
    modifies cur`nprocExceeded
    modifies k`setup, k`slabs, k`run, p`files, p`fs, p`sighand, p`signal, p`mm, p`id, p`extras, cur.signal`group
    modifies FilesOf(cur)`count, cur.fs`users, cur.sighand`count, MmOf(cur)`users, MmOf(cur)`semHeld, host
    ensures Returns(k, retval)
    ensures StacksUntouched(owners)
    ensures Mapped(cur, host, a)
    ensures if retval == 0 then Forked(k, host, cur, p, q, a, child, w, known) else Failed(k, host, cur, p, w)
    ensures w.before.run.totals.nrThreads >= k.maxThreads ==> retval != 0
    ensures k.setup == if retval == 0 then SetUp(Credited(old(k.setup), 1), CLONE_SYSVSEM in q.args.flags, 5, 1)
                       else old(k.setup)
  {
    retval, child := FromLimit(k, host, cur, p, q, a, w, known);
  }

  /** nor the allocator. */
  method FromLimitApart(k: Kernel, alloc: TaskStacks.Allocator, host: Host, cur: Task, p: Task, q: Request,
                        ghost a: Areas, ghost w: World, ghost owners: set<Task>, ghost known: set<object>)
    returns (retval: int, ghost child: seq<Vma>)
    requires Forking(k, host, cur, p, q, a) && WorldOf(k, host, cur) == w
    requires p.extras == cur.extras.(seccompFilter := false)
    modifies cur`nprocExceeded
    modifies k`setup, k`slabs, k`run, p`files, p`fs, p`sighand, p`signal, p`mm, p`id, p`extras, cur.signal`group
    modifies FilesOf(cur)`count, cur.fs`users, cur.sighand`count, MmOf(cur)`users, MmOf(cur)`semHeld, host
    ensures Returns(k, retval)
    ensures StacksUntouched(owners) && unchanged(alloc)
    ensures Mapped(cur, host, a)
    ensures if retval == 0 then Forked(k, host, cur, p, q, a, child, w, known) else Failed(k, host, cur, p, w)
    ensures w.before.run.totals.nrThreads >= k.maxThreads ==> retval != 0
    ensures k.setup == if retval == 0 then SetUp(Credited(old(k.setup), 1), CLONE_SYSVSEM in q.args.flags, 5, 1)
                       else old(k.setup)
  {
    retval, child := FromLimitOffStacks(k, host, cur, p, q, a, w, owners, known);
  }

  /** From the limit on, with the stack of the new task in view. */
  method FromLimitWithStack(k: Kernel, alloc: TaskStacks.Allocator, host: Host, cur: Task, p: Task, q: Request,
                            ghost a: Areas, ghost w: World, ghost s: Stacks, ghost known: set<object>)
    returns (retval: int, ghost child: seq<Vma>)
    requires alloc.Valid() && Drafted(alloc, cur, p, s) && Forking(k, host, cur, p, q, a) && WorldOf(k, host, cur) == w
    modifies cur`nprocExceeded
    modifies k`setup, k`slabs, k`run, p`files, p`fs, p`sighand, p`signal, p`mm, p`id, p`extras, cur.signal`group
    modifies FilesOf(cur)`count, cur.fs`users, cur.sighand`count, MmOf(cur)`users, MmOf(cur)`semHeld, host
    ensures Returns(k, retval)
    ensures alloc.Valid() && OneMoreStack(alloc, p, s) && p.usage == 2
    ensures (alloc.threadInfoInTask ==> p.stackRefcount == 1)
    ensures Mapped(cur, host, a)
    ensures if retval == 0 then Forked(k, host, cur, p, q, a, child, w, known) else Failed(k, host, cur, p, w)
    ensures w.before.run.totals.nrThreads >= k.maxThreads ==> retval != 0
    ensures k.setup == if retval == 0 then SetUp(Credited(old(k.setup), 1), CLONE_SYSVSEM in q.args.flags, 5, 1)
                       else old(k.setup)
  {
    retval, child := FromLimitApart(k, alloc, host, cur, p, q, a, w, alloc.owners, known);
  }

  /** put_task_stack and free_task: the stack goes with the first where it is counted, else with the second. */
  method FreeStack(k: Kernel, alloc: TaskStacks.Allocator, host: Host, cur: Task, p: Task, cpu: nat,
                   ghost w: World, ghost s: Stacks)
    requires cur != p && alloc.Valid() && cpu < alloc.cpus && OneMoreStack(alloc, p, s)
    requires alloc.threadInfoInTask ==> p.stackRefcount == 1
    requires Failed(k, host, cur, p, w)
    modifies p`dead, p`stack, p`stackVmArea, p`stackRefcount
    modifies alloc`place, alloc`owners, alloc`accounted, alloc`memcgKb, alloc`taskStructs, alloc.cached, alloc.zoneKb
    ensures alloc.Valid() && StacksOf(alloc) == s && Failed(k, host, cur, p, w)
  {
    alloc.UndoBuilt(p, cpu, s.owners, s.zoneKb, s.memcgKb);
  }

  /** This does not touch the address space. */
  method FreeTask(k: Kernel, alloc: TaskStacks.Allocator, host: Host, cur: Task, p: Task, cpu: nat,
                  ghost a: Areas, ghost w: World, ghost s: Stacks)
    requires cur != p && alloc.Valid() && cpu < alloc.cpus && OneMoreStack(alloc, p, s)
    requires alloc.threadInfoInTask ==> p.stackRefcount == 1
    requires Failed(k, host, cur, p, w)
    modifies p`dead, p`stack, p`stackVmArea, p`stackRefcount
    modifies alloc`place, alloc`owners, alloc`accounted, alloc`memcgKb, alloc`taskStructs, alloc.cached, alloc.zoneKb
    ensures alloc.Valid() && StacksOf(alloc) == s && Failed(k, host, cur, p, w)
    ensures old(Mapped(cur, host, a)) ==> Mapped(cur, host, a)
  {
    FreeStack(k, alloc, host, cur, p, cpu, w, s);
  }

  /** put_seccomp_filter, at the end of free_task: after it, a failure has left no trace. */
  method PutFilter(k: Kernel, alloc: TaskStacks.Allocator, host: Host, cur: Task, p: Task,
                   ghost a: Areas, ghost w: World, ghost s: Stacks)
    requires alloc.Valid() && StacksOf(alloc) == s && Mapped(cur, host, a) && Failed(k, host, cur, p, w)
    modifies k`run, p`extras
    ensures alloc.Valid() && StacksOf(alloc) == s
    ensures cur.signal != null && cur.id.groupLeader != null && Mapped(cur, host, a) && WorldOf(k, host, cur) == w
  {
    if p.extras.seccompFilter {
      k.run := k.run.(seccompRefs := k.run.seccompRefs - 1);
      p.extras := p.extras.(seccompFilter := false);
    }
  }

  /** bad_fork_free. */
  method FreeAll(k: Kernel, alloc: TaskStacks.Allocator, host: Host, cur: Task, p: Task,
                 ghost a: Areas, ghost w: World, ghost s: Stacks)
    requires cur != p && alloc.Valid() && alloc.cpus > 0 && OneMoreStack(alloc, p, s)
    requires alloc.threadInfoInTask ==> p.stackRefcount == 1
    requires Mapped(cur, host, a) && Failed(k, host, cur, p, w)
    modifies k`run, p`extras, p`dead, p`stack, p`stackVmArea, p`stackRefcount
    modifies alloc`place, alloc`owners, alloc`accounted, alloc`memcgKb, alloc`taskStructs, alloc.cached, alloc.zoneKb
    ensures alloc.Valid() && StacksOf(alloc) == s && k.setup == old(k.setup)
    ensures cur.signal != null && cur.id.groupLeader != null && Mapped(cur, host, a) && WorldOf(k, host, cur) == w
  {
    var cpu: nat :| cpu < alloc.cpus;
    FreeTask(k, alloc, host, cur, p, cpu, a, w, s);
    PutFilter(k, alloc, host, cur, p, a, w, s);
  }

  /** With the task duplicated: everything from the limit on; a failure frees the task. */
  method FromDraft(k: Kernel, alloc: TaskStacks.Allocator, host: Host, cur: Task, p: Task, q: Request,
                   ghost a: Areas, ghost w: World, ghost s: Stacks, ghost known: set<object>)
    returns (retval: int, ghost child: seq<Vma>)
    requires alloc.Valid() && alloc.cpus > 0 && Drafted(alloc, cur, p, s)
    requires Forking(k, host, cur, p, q, a) && WorldOf(k, host, cur) == w
    modifies cur`nprocExceeded
    modifies k`setup, k`slabs, k`run, p`files, p`fs, p`sighand, p`signal, p`mm, p`id, p`extras, cur.signal`group
    modifies FilesOf(cur)`count, cur.fs`users, cur.sighand`count, MmOf(cur)`users, MmOf(cur)`semHeld, host
    modifies p`dead, p`stack, p`stackVmArea, p`stackRefcount
    modifies alloc`place, alloc`owners, alloc`accounted, alloc`memcgKb, alloc`taskStructs, alloc.cached, alloc.zoneKb
    ensures Returns(k, retval)
    ensures alloc.Valid() && Mapped(cur, host, a)
    ensures w.before.run.totals.nrThreads >= k.maxThreads ==> retval != 0
    ensures if retval == 0
            then OneMoreStack(alloc, p, s) && p.usage == 2 && Forked(k, host, cur, p, q, a, child, w, known)
            else StacksOf(alloc) == s && WorldOf(k, host, cur) == w
    ensures k.setup == if retval == 0 then SetUp(Credited(old(k.setup), 1), CLONE_SYSVSEM in q.args.flags, 5, 1)
                       else old(k.setup)
  {
    retval, child := FromLimitWithStack(k, alloc, host, cur, p, q, a, w, s, known);
    if retval != 0 {
      FreeAll(k, alloc, host, cur, p, a, w, s);
    }
  }

  /** From dup_task_struct to the end. */
  method FromTask(k: Kernel, alloc: TaskStacks.Allocator, host: Host, cur: Task, q: Request,
                  ghost a: Areas, ghost w: World, ghost s: Stacks, ghost known: set<object>)
    returns (retval: int, p: Task?, ghost child: seq<Vma>)
    requires alloc.Valid() && q.cpu < alloc.cpus
    requires Complete(cur) && Mapped(cur, host, a) && k.run.Ready(q) && cur.id.groupLeader != null
    requires WorldOf(k, host, cur) == w && StacksOf(alloc) == s
    modifies cur`nprocExceeded, k`setup, k`slabs, k`run, cur.signal`group
    modifies FilesOf(cur)`count, cur.fs`users, cur.sighand`count, MmOf(cur)`users, MmOf(cur)`semHeld, host
    modifies alloc`place, alloc`owners, alloc`accounted, alloc`memcgKb, alloc`taskStructs, alloc.cached, alloc.zoneKb
    ensures Returns(k, retval)
    ensures alloc.Valid() && Mapped(cur, host, a)
    ensures w.before.run.totals.nrThreads >= k.maxThreads ==> retval != 0
    ensures p != null ==> fresh(p)
    ensures if retval == 0
            then p != null && OneMoreStack(alloc, p, s) && p.usage == 2
                 && Forked(k, host, cur, p, q, a, child, w, known)
            else StacksOf(alloc) == s && WorldOf(k, host, cur) == w
    ensures k.setup == if retval == 0 then SetUp(Credited(old(k.setup), 1), CLONE_SYSVSEM in q.args.flags, 5, 1)
                       else old(k.setup)
  {
    child := [];
    retval := -ENOMEM;
    p := TakeTask(k, alloc, host, cur, q, a, w);
    if p != null {
      retval, child := FromDraft(k, alloc, host, cur, p, q, a, w, s, known);
    }
  }

  /** From security_task_create to the end. */
  method FromFlags(k: Kernel, alloc: TaskStacks.Allocator, host: Host, cur: Task, q: Request,
                   ghost a: Areas, ghost known: set<object>)
    returns (retval: int, p: Task?, ghost child: seq<Vma>)
    requires alloc.Valid() && q.cpu < alloc.cpus
    requires Complete(cur) && Mapped(cur, host, a) && k.run.Ready(q) && cur.id.groupLeader != null
    modifies cur`nprocExceeded, k`setup, k`slabs, k`run, cur.signal`group
    modifies FilesOf(cur)`count, cur.fs`users, cur.sighand`count, MmOf(cur)`users, MmOf(cur)`semHeld, host
    modifies alloc`place, alloc`owners, alloc`accounted, alloc`memcgKb, alloc`taskStructs, alloc.cached, alloc.zoneKb
    ensures Returns(k, retval)
    ensures alloc.Valid() && Mapped(cur, host, a)
    ensures old(k.run.totals.nrThreads) >= k.maxThreads ==> retval != 0
    ensures p != null ==> fresh(p)
    ensures if retval == 0
            then p != null && OneMoreStack(alloc, p, old(StacksOf(alloc))) && p.usage == 2
                 && Forked(k, host, cur, p, q, a, child, old(WorldOf(k, host, cur)), known)
            else p == null && StacksOf(alloc) == old(StacksOf(alloc))
                 && WorldOf(k, host, cur) == old(WorldOf(k, host, cur))
    ensures k.setup == if retval == 0 then SetUp(Credited(old(k.setup), 1), CLONE_SYSVSEM in q.args.flags, 5, 1)
                       else old(k.setup)
  {
    p, child := null, [];
    retval := Hook(k);
    if retval == 0 {
      retval, p, child := FromTask(k, alloc, host, cur, q, a, WorldOf(k, host, cur), StacksOf(alloc), known);
      if retval != 0 {
        p := null;
      }
    }
  }

  /** The five checks of the flags, each with its own return. */
  method CheckFlags(args: Clone, init: bool, otherPidNs: bool) returns (retval: int)
    ensures retval == 0 || retval == -EINVAL
    ensures retval == -EINVAL <==>
      || (CLONE_NEWNS in args.flags && CLONE_FS in args.flags)
      || (CLONE_NEWUSER in args.flags && CLONE_FS in args.flags)
      || (CLONE_THREAD in args.flags && CLONE_SIGHAND !in args.flags)
      || (CLONE_SIGHAND in args.flags && CLONE_VM !in args.flags)
      || (CLONE_PARENT in args.flags && init)
      || (CLONE_THREAD in args.flags && CLONE_NEWUSER in args.flags)
      || (CLONE_THREAD in args.flags && CLONE_NEWPID in args.flags)
      || (CLONE_THREAD in args.flags && otherPidNs)
  {
    if CLONE_NEWNS in args.flags && CLONE_FS in args.flags { return -EINVAL; }
    if CLONE_NEWUSER in args.flags && CLONE_FS in args.flags { return -EINVAL; }
    if CLONE_THREAD in args.flags && CLONE_SIGHAND !in args.flags { return -EINVAL; }
    if CLONE_SIGHAND in args.flags && CLONE_VM !in args.flags { return -EINVAL; }
    if CLONE_PARENT in args.flags && init { return -EINVAL; }
    if CLONE_THREAD in args.flags {
      if CLONE_NEWUSER in args.flags || CLONE_NEWPID in args.flags || otherPidNs { return -EINVAL; }
    }
    retval := 0;
  }

  /** The new task shares an fs, a thread group, handlers or a parent only where that is allowed. */
  ghost predicate SharesAllowed(cur: Task, p: Task, args: Clone, init: bool, otherPidNs: bool)
    reads cur`fs, p`fs, cur`signal, p`signal, cur`sighand, p`sighand, cur`mm, p`mm
  {
    && (p.fs == cur.fs ==> CLONE_NEWNS !in args.flags && CLONE_NEWUSER !in args.flags)
    && (p.signal == cur.signal ==>
          && !otherPidNs && CLONE_NEWUSER !in args.flags && CLONE_NEWPID !in args.flags && p.sighand == cur.sighand)
    && (p.sighand == cur.sighand ==> p.mm == cur.mm)
    && !(init && CLONE_PARENT in args.flags)
  }

  /**
   copy_process.  otherPidNs says that new children go to another pid namespace than the forking task's; a
   and known are what its address space is made of, and what there was before.
   */
  method CopyProcess(k: Kernel, alloc: TaskStacks.Allocator, host: Host, cur: Task, q: Request, otherPidNs: bool,
                     ghost a: Areas, ghost known: set<object>)
    returns (retval: int, p: Task?, ghost child: seq<Vma>)
    requires alloc.Valid() && q.cpu < alloc.cpus
    requires Complete(cur) && Mapped(cur, host, a) && k.run.Ready(q) && cur.id.groupLeader != null
    modifies cur`nprocExceeded, k`setup, k`slabs, k`run, cur.signal`group
    modifies FilesOf(cur)`count, cur.fs`users, cur.sighand`count, MmOf(cur)`users, MmOf(cur)`semHeld, host
    modifies alloc`place, alloc`owners, alloc`accounted, alloc`memcgKb, alloc`taskStructs, alloc.cached, alloc.zoneKb
    ensures retval == -EINVAL || Returns(k, retval)
    ensures alloc.Valid() && Mapped(cur, host, a)
    ensures var f, init := q.args.flags, old(cur.signal.group.unkillable);
            var refused :=
              || (CLONE_NEWNS in f && CLONE_FS in f) || (CLONE_NEWUSER in f && CLONE_FS in f)
              || (CLONE_THREAD in f && CLONE_SIGHAND !in f) || (CLONE_SIGHAND in f && CLONE_VM !in f)
              || (CLONE_PARENT in f && init)
              || (CLONE_THREAD in f && (CLONE_NEWUSER in f || CLONE_NEWPID in f || otherPidNs));
            (refused ==> retval == -EINVAL) && (retval == -EINVAL && -EINVAL !in k.hookErrors ==> refused)
    ensures retval == 0 ==>
      p != null && SharesAllowed(cur, p, q.args, old(cur.signal.group.unkillable), otherPidNs)
    ensures old(k.run.totals.nrThreads) >= k.maxThreads ==> retval != 0
    ensures p != null ==> fresh(p)
    ensures if retval == 0
            then p != null && OneMoreStack(alloc, p, old(StacksOf(alloc))) && p.usage == 2
                 && Forked(k, host, cur, p, q, a, child, old(WorldOf(k, host, cur)), known)
            else p == null && StacksOf(alloc) == old(StacksOf(alloc))
                 && WorldOf(k, host, cur) == old(WorldOf(k, host, cur))
    ensures k.setup == if retval == 0 then SetUp(Credited(old(k.setup), 1), CLONE_SYSVSEM in q.args.flags, 5, 1)
                       else old(k.setup)
  {
    p, child := null, [];
    retval := CheckFlags(q.args, cur.signal.group.unkillable, otherPidNs);
    if retval == 0 {
      retval, p, child := FromFlags(k, alloc, host, cur, q, a, known);
    }
  }
}
