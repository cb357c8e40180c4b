/**
 What a successful fork comes to, flag by flag: the functions in which CopyProcess states its outcome, read off
 one field at a time.
 */
module ForkByFlags {
  import opened AddressSpace
  import opened CopyProcess
  import opened MmStruct
  import opened Tasks
  import opened Wrappers

  /** A task that leads a group of its own, and is not the idle task of a CPU. */
  predicate Leads(id: Identity) {
    id.pid != 0 && id.exitSignal >= 0
  }

  lemma IdentityByFlags(cur: Task, curId: Identity, leader: Identity, p: Task, args: Clone, pid: nat)
    ensures var id := ChildIdentity(cur, curId, leader, p, args, pid);
            && id.pid == pid
            && (CLONE_THREAD in args.flags ==>
                  && id.tgid == curId.tgid && id.groupLeader == curId.groupLeader && id.exitSignal == -1
                  && id.realParent == curId.realParent)
            && (CLONE_THREAD !in args.flags ==> id.tgid == pid && id.groupLeader == p)
            && (CLONE_THREAD !in args.flags && CLONE_PARENT in args.flags ==>
                  id.exitSignal == leader.exitSignal && id.realParent == curId.realParent)
            && (CLONE_THREAD !in args.flags && CLONE_PARENT !in args.flags ==>
                  id.exitSignal == args.csignal && id.realParent == cur)
            && (Leads(id) ==> id.pgrp == leader.pgrp && id.session == leader.session)
            && (!Leads(id) ==> id.pgrp == curId.pgrp && id.session == curId.session)
  {
  }

  /** Who finds the task on which list. */
  lemma ListsByFlags(l: Links, p: Task, id: Identity)
    ensures var n := LinkIn(l, p, id);
            && l.processes <= n.processes && l.children <= n.children && l.threads <= n.threads && l.pids <= n.pids
            && n.processes[|l.processes|..] == (if Leads(id) then [p] else [])
            && n.children[|l.children|..] == (if Leads(id) then [(id.realParent, p)] else [])
            && n.threads[|l.threads|..] == (if id.pid != 0 && !Leads(id) then [(id.groupLeader, p)] else [])
            && multiset(n.pids[|l.pids|..]) ==
               (if id.pid != 0 then multiset{Attachment(PIDTYPE_PID, id.pid, p)} else multiset{})
               + if Leads(id)
                 then multiset{Attachment(PIDTYPE_PGID, id.pgrp, p), Attachment(PIDTYPE_SID, id.session, p)}
                 else multiset{}
  {
  }

  /** The counters, the locks and the services, once the task runs. */
  lemma CountersByFlags(r: Run, p: Task, id: Identity, extras: Extras, cpu: nat)
    requires cpu < |r.totals.processCounts|
    ensures var s, was: int := Started(r, p, id, extras, cpu), r.totals.processCounts[cpu];
            && s.totals.nrThreads == r.totals.nrThreads + (if id.pid != 0 then 1 else 0)
            && s.totals.totalForks == r.totals.totalForks + 1
            && |s.totals.processCounts| == |r.totals.processCounts|
            && s.totals.processCounts[cpu] == (was + if Leads(id) then 1 else 0) % 0x1_0000_0000_0000_0000
            && (forall c :: 0 <= c < |r.totals.processCounts| && c != cpu ==>
                  s.totals.processCounts[c] == r.totals.processCounts[c])
            && s.namespaces == r.namespaces + 1 && s.threads == r.threads + 1 && s.cgroupForks == r.cgroupForks + 1
            && s.pids == r.pids + (if id.pid != 0 then 1 else 0)
            && s.ioContexts == r.ioContexts + (if extras.ioContext.Some? then 1 else 0)
            && s.seccompRefs == r.seccompRefs + (if extras.seccompFilter then 1 else 0)
            && s.threadgroup == r.threadgroup && s.tasklistHeld == r.tasklistHeld && s.siglockHeld == r.siglockHeld
  {
  }

  /** A failure moves nothing but the filter that the task still holds. */
  lemma FailureCounts(r: Run, extras: Extras)
    ensures var s := NotStarted(r, extras);
            && s.seccompRefs == r.seccompRefs + (if extras.seccompFilter then 1 else 0)
            && s.totals == r.totals && s.namespaces == r.namespaces && s.threads == r.threads && s.pids == r.pids
            && s.cgroupForks == r.cgroupForks && s.ioContexts == r.ioContexts && s.threadgroup == r.threadgroup
            && s.tasklistHeld == r.tasklistHeld && s.siglockHeld == r.siglockHeld
  {
  }

  /** The forking task's group gains a thread, or is as it was; a new group has one thread and may be an init's. */
  lemma GroupsByFlags(g: Group, id: Identity, reaper: bool, args: Clone)
    requires id.pid != 0 && (CLONE_THREAD in args.flags <==> id.exitSignal < 0)
    ensures CLONE_THREAD in args.flags ==>
      LinkGroup(g, true, true, id, reaper) == Group(g.nrThreads + 1, g.live + 1, g.sigcnt + 1, g.unkillable)
    ensures CLONE_THREAD !in args.flags ==>
      && LinkGroup(g, true, false, id, reaper) == g
      && LinkGroup(Group(1, 1, 1, false), false, true, id, reaper) == Group(1, 1, 1, reaper)
  {
  }

  lemma ExtrasByFlags(x: Extras, args: Clone)
    ensures var c := ChildExtras(x, args);
            && (CLONE_IO in args.flags ==> c.ioContext == x.ioContext)
            && (CLONE_IO !in args.flags ==>
                  (c.ioContext.Some? <==> x.ioContext.Some? && x.ioContext.value.priority.Some?))
            && (c.ioContext.Some? ==> x.ioContext.Some? && c.ioContext.value.priority == x.ioContext.value.priority)
            && c.seccompFilter == x.seccompFilter && c.kthread == x.kthread && c.segments == 0
            && (c.undoList <==> CLONE_SYSVSEM in args.flags)
  {
  }

  /** A structure is allocated exactly where the flags do not share one, and its use is counted where they do. */
  lemma StructuresByFlags(s: Slabs, u: Usage, args: Clone, hasFiles: bool)
    requires u.files > 0 <==> hasFiles
    ensures var n, v := Allocated(s, args, hasFiles, 4, 1), u.Share(args, 1);
            && (n.files - s.files) + (v.files - u.files) == (if hasFiles then 1 else 0)
            && (n.fs - s.fs) + (v.fs - u.fs) == 1
            && (n.sighands - s.sighands) + (v.sighand - u.sighand) == 1
            && (n.files > s.files <==> hasFiles && CLONE_FILES !in args.flags)
            && (n.fs > s.fs <==> CLONE_FS !in args.flags)
            && (n.sighands > s.sighands <==> CLONE_SIGHAND !in args.flags)
            && n.signals == s.signals + (if CLONE_THREAD in args.flags then 0 else 1)
            && v.mm == u.mm + (if CLONE_VM in args.flags && u.mm > 0 then 1 else 0)
            && v.files >= u.files && v.fs >= u.fs && v.sighand >= u.sighand
            && n.files >= s.files && n.fs >= s.fs && n.sighands >= s.sighands
  {
  }

  lemma SetupByFlags(s: Setup, args: Clone)
    ensures SetUp(Credited(s, 1), CLONE_SYSVSEM in args.flags, 5, 1) ==
            Setup(s.userProcesses + 1, s.creds + 1, s.delayacct + 1, s.policies + 1, s.perf + 1, s.audit + 1,
                  s.semundo + if CLONE_SYSVSEM in args.flags then 1 else 0)
  {
  }

  /** Which of its structures the new task has from the forking one: each by one flag. */
  lemma SharesByFlags(k: Kernel, host: Host, cur: Task, p: Task, q: Request, a: Areas, child: seq<Vma>, w: World,
                      known: set<object>)
    requires cur.signal != null && q.cpu < |w.before.run.totals.processCounts|
    requires Forked(k, host, cur, p, q, a, child, w, known)
    ensures cur.files != null ==> (p.files == cur.files <==> CLONE_FILES in q.args.flags)
    ensures p.fs == cur.fs <==> CLONE_FS in q.args.flags
    ensures p.sighand == cur.sighand <==> CLONE_SIGHAND in q.args.flags
    ensures p.signal == cur.signal <==> CLONE_THREAD in q.args.flags
    ensures cur.mm != null ==> (p.mm == cur.mm <==> CLONE_VM in q.args.flags)
    ensures (p.files == null <==> cur.files == null) && (p.mm == null <==> cur.mm == null)
  {
  }

  /** A child with an address space of its own has, in order, copies of the areas that the forking task has. */
  lemma AreasByFlags(k: Kernel, host: Host, cur: Task, p: Task, q: Request, a: Areas, child: seq<Vma>, w: World,
                     known: set<object>)
    requires cur.signal != null && q.cpu < |w.before.run.totals.processCounts|
    requires Forked(k, host, cur, p, q, a, child, w, known)
    requires cur.mm != null && CLONE_VM !in q.args.flags
    ensures p.mm != null && Maps(p.mm, child, FieldsOf(child)) && p.mm.users == 1
    ensures exists from :: CopiedFrom(FieldsOf(child), a.view, from)
  {
    assert FieldsOf(child) == Inherited(a.view);
    var from := InheritedIsCopied(a.view);
  }
}
