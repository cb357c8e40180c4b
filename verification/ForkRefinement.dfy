/**
 copy_process on real structures takes the Fork step of ThreadGroups: what ThreadGroups and ProcessTree prove
 of runs, they prove of the tasks, signal structures, signal handlers, address spaces and counters here.
 */
module ForkRefinement {
  import opened AddressSpace
  import opened CopyProcess
  import opened MmStruct
  import opened Tasks
  import opened ThreadGroups
  import opened Wrappers
  import TaskStacks

  // ---------- structures and states ----------

  /** The structures that stand for the tasks and for the numbered signal structures, handlers and spaces. */
  datatype Objects = Objects(
    tasks: seq<Task>, signals: seq<Signal>, sighands: map<nat, Sighand>, mms: map<nat, Mm>)

  /** What a task points at. */
  datatype Uses = Uses(signal: Signal?, sighand: Sighand?, mm: Mm?)

  /** What the structures hold. */
  datatype Image = Image(
    ids: seq<Identity>, uses: seq<Uses>, groups: seq<Group>, nrThreads: int, processCounts: seq<Word>)

  ghost function UsesOf(t: Task): Uses
    reads t`signal, t`sighand, t`mm
  {
    Uses(t.signal, t.sighand, t.mm)
  }

  ghost function ImageOf(o: Objects, k: Kernel): Image
    reads o.tasks, o.signals, k`run
  {
    Image(seq(|o.tasks|, i requires 0 <= i < |o.tasks| reads o.tasks => o.tasks[i].id),
          seq(|o.tasks|, i requires 0 <= i < |o.tasks| reads o.tasks => UsesOf(o.tasks[i])),
          seq(|o.signals|, g requires 0 <= g < |o.signals| reads o.signals => o.signals[g].group),
          k.run.totals.nrThreads, k.run.totals.processCounts)
  }

  predicate IsIdentity(t: Thread, tasks: seq<Task>, id: Identity) {
    && id.pid == t.pid && id.tgid == t.tgid && id.exitSignal == t.exitSignal
    && t.leader < |tasks| && id.groupLeader == tasks[t.leader]
    && match t.parent {
         case None => id.realParent == null
         case Some(k) => k < |tasks| && id.realParent == tasks[k]
       }
  }

  predicate IsGroup(g: SignalInfo, group: Group) {
    && group.nrThreads == g.nrThreads && group.live == g.live && group.sigcnt == g.sigcnt
    && group.unkillable == g.Unkillable()
  }

  /** A running task points at the structures with its numbers. */
  predicate PointsAt(t: Thread, o: Objects, u: Uses) {
    && t.signal < |o.signals| && u.signal == o.signals[t.signal]
    && t.sighand in o.sighands && u.sighand == o.sighands[t.sighand]
    && match t.mm {
         case None => u.mm == null
         case Some(m) => m in o.mms && u.mm == o.mms[m]
       }
  }

  /** No structure stands for two numbers. */
  predicate Distinct(o: Objects) {
    && (forall i, j :: 0 <= i < j < |o.tasks| ==> o.tasks[i] != o.tasks[j])
    && (forall i, j :: 0 <= i < j < |o.signals| ==> o.signals[i] != o.signals[j])
    && (forall i, j :: i in o.sighands && j in o.sighands && i != j ==> o.sighands[i] != o.sighands[j])
    && (forall i, j :: i in o.mms && j in o.mms && i != j ==> o.mms[i] != o.mms[j])
  }

  ghost predicate Mirrors(s: ThreadGroups.State, o: Objects, v: Image) {
    && |o.tasks| == |s.tasks| && |v.ids| == |s.tasks| && |v.uses| == |s.tasks|
    && |o.signals| == |s.signals| && |v.groups| == |s.signals|
    && Distinct(o) && (forall n :: n in o.sighands ==> n < s.nextSighand) && (forall n :: n in o.mms ==> n < s.nextMm)
    && (forall i :: 0 <= i < |s.tasks| && s.tasks[i].Hashed() ==> IsIdentity(s.tasks[i], o.tasks, v.ids[i]))
    && (forall i :: 0 <= i < |s.tasks| && s.tasks[i].phase == Running ==> PointsAt(s.tasks[i], o, v.uses[i]))
    && (forall g :: 0 <= g < |s.signals| ==> IsGroup(s.signals[g], v.groups[g]))
    && v.nrThreads == s.nrThreads && v.processCounts == s.processCounts
  }

  // ---------- what a fork adds ----------

  function Known(o: Objects): set<object> {
    (set g | g in o.signals :: g as object) + (set n | n in o.sighands :: o.sighands[n] as object)
    + (set n | n in o.mms :: o.mms[n] as object)
  }

  /** The structures with the new task and with what it has of its own. */
  function With(o: Objects, c: Thread, p: Task, u: Uses): Objects
    requires u.signal != null && u.sighand != null && (c.mm.Some? ==> u.mm != null)
  {
    Objects(o.tasks + [p],
            if c.signal < |o.signals| then o.signals else o.signals + [u.signal],
            o.sighands[c.sighand := u.sighand],
            if c.mm.Some? then o.mms[c.mm.value := u.mm] else o.mms)
  }

  /** The new task shares with the forking one what the flags say, and what else it points at is new. */
  predicate Inherits(args: Clone, from: Uses, u: Uses, known: set<object>) {
    && u.signal != null && u.sighand != null && (u.mm == null <==> from.mm == null)
    && (if CLONE_THREAD in args.flags then u.signal == from.signal else u.signal !in known)
    && (if CLONE_SIGHAND in args.flags then u.sighand == from.sighand else u.sighand !in known)
    && (u.mm != null ==> if CLONE_VM in args.flags then u.mm == from.mm else u.mm !in known)
  }

  /** The identity that copy_process gives the new task, but for its process group and session. */
  predicate IsNew(s: ThreadGroups.State, step: Step, tasks: seq<Task>, ids: seq<Identity>, p: Task, id: Identity)
    requires step.Fork? && step.i < |tasks| && step.i < |ids| && step.i < |s.tasks|
    requires s.tasks[step.i].leader < |ids|
  {
    id == ChildIdentity(tasks[step.i], ids[step.i], ids[s.tasks[step.i].leader], p, step.args, step.newPid)
  }

  /** The groups after copy_process: the forking task's, and the new one where there is one. */
  function NewGroups(signal: nat, args: Clone, reaper: bool, groups: seq<Group>, id: Identity): seq<Group>
    requires signal < |groups|
  {
    var joins := CLONE_THREAD in args.flags;
    var linked := groups[signal := LinkGroup(groups[signal], true, joins, id, reaper)];
    if joins then linked else linked + [LinkGroup(Group(1, 1, 1, false), false, true, id, reaper)]
  }

  function NewImage(v: Image, signal: nat, step: Step, id: Identity, u: Uses): Image
    requires step.Fork? && signal < |v.groups| && step.cpu < |v.processCounts|
  {
    Image(v.ids + [id], v.uses + [u], NewGroups(signal, step.args, step.reaper, v.groups, id), v.nrThreads + 1,
          if id.exitSignal >= 0 then v.processCounts[step.cpu := Increment(v.processCounts[step.cpu])]
          else v.processCounts)
  }

  // ---------- the step, on values ----------

  lemma ForkMirrorsIdentities(s: ThreadGroups.State, step: Step, o: Objects, v: Image, p: Task, id: Identity)
    requires step.Fork? && Enabled(s, step) && Inv(s) && Mirrors(s, o, v) && IsNew(s, step, o.tasks, v.ids, p, id)
    ensures forall k :: 0 <= k < |s.tasks| && s.tasks[k].Hashed() ==> IsIdentity(s.tasks[k], o.tasks + [p], v.ids[k])
    ensures IsIdentity(Child(s, step.i, step.args, step.newPid), o.tasks + [p], id)
  {
    var t := s.tasks[step.i];
    assert t.Hashed() && s.tasks[t.leader].Hashed();
    assert IsIdentity(t, o.tasks, v.ids[step.i]) && IsIdentity(s.tasks[t.leader], o.tasks, v.ids[t.leader]);
  }

  lemma ForkMirrorsUses(s: ThreadGroups.State, step: Step, o: Objects, v: Image, p: Task, u: Uses)
    requires step.Fork? && Enabled(s, step) && Inv(s) && Mirrors(s, o, v)
    requires Inherits(step.args, v.uses[step.i], u, Known(o))
    ensures var c := Child(s, step.i, step.args, step.newPid);
            && (c.mm.Some? <==> u.mm != null)
            && PointsAt(c, With(o, c, p, u), u)
            && forall k :: 0 <= k < |s.tasks| && s.tasks[k].phase == Running ==>
                 PointsAt(s.tasks[k], With(o, c, p, u), v.uses[k])
  {
    assert PointsAt(s.tasks[step.i], o, v.uses[step.i]);
    var c := Child(s, step.i, step.args, step.newPid);
    forall k | 0 <= k < |s.tasks| && s.tasks[k].phase == Running
      ensures PointsAt(s.tasks[k], With(o, c, p, u), v.uses[k])
    {
      assert PointsAt(s.tasks[k], o, v.uses[k]);
    }
  }

  /** A number gets the structure that it had, or one that no number had. */
  lemma WithIsDistinct(o: Objects, c: Thread, p: Task, u: Uses)
    requires u.signal != null && u.sighand != null && (c.mm.Some? ==> u.mm != null)
    requires Distinct(o) && p !in o.tasks && (c.signal >= |o.signals| ==> u.signal !in o.signals)
    requires if c.sighand in o.sighands then u.sighand == o.sighands[c.sighand]
             else forall n :: n in o.sighands ==> o.sighands[n] != u.sighand
    requires c.mm.Some? ==> if c.mm.value in o.mms then u.mm == o.mms[c.mm.value]
                            else forall n :: n in o.mms ==> o.mms[n] != u.mm
    ensures Distinct(With(o, c, p, u))
  {
  }

  lemma ForkKeepsDistinct(s: ThreadGroups.State, step: Step, o: Objects, v: Image, p: Task, u: Uses)
    requires step.Fork? && Enabled(s, step) && Inv(s) && Mirrors(s, o, v)
    requires Inherits(step.args, v.uses[step.i], u, Known(o)) && p !in o.tasks
    requires Child(s, step.i, step.args, step.newPid).mm.Some? <==> u.mm != null
    ensures Distinct(With(o, Child(s, step.i, step.args, step.newPid), p, u))
  {
    assert PointsAt(s.tasks[step.i], o, v.uses[step.i]);
    forall g | g in o.signals
      ensures g as object in Known(o)
    {
    }
    WithIsDistinct(o, Child(s, step.i, step.args, step.newPid), p, u);
  }

  lemma ForkMirrorsGroups(s: ThreadGroups.State, step: Step, groups: seq<Group>, id: Identity)
    requires step.Fork? && Enabled(s, step) && Inv(s) && |groups| == |s.signals|
    requires forall g :: 0 <= g < |s.signals| ==> IsGroup(s.signals[g], groups[g])
    requires id.pid == step.newPid && id.exitSignal == Child(s, step.i, step.args, step.newPid).exitSignal
    ensures var n := NewGroups(s.tasks[step.i].signal, step.args, step.reaper, groups, id);
            && |n| == |Next(s, step).signals|
            && forall g :: 0 <= g < |n| ==> IsGroup(Next(s, step).signals[g], n[g])
  {
    ForkKeepsShape(s, step);
  }

  /** What copy_process leaves is the next state. */
  lemma ForkMirrors(s: ThreadGroups.State, step: Step, o: Objects, v: Image, p: Task, id: Identity, u: Uses)
    requires step.Fork? && Enabled(s, step) && Inv(s) && Mirrors(s, o, v) && p !in o.tasks
    requires IsNew(s, step, o.tasks, v.ids, p, id) && Inherits(step.args, v.uses[step.i], u, Known(o))
    ensures var c := Child(s, step.i, step.args, step.newPid);
            && (c.mm.Some? <==> u.mm != null)
            && Mirrors(Next(s, step), With(o, c, p, u), NewImage(v, s.tasks[step.i].signal, step, id, u))
  {
    ForkMirrorsIdentities(s, step, o, v, p, id);
    ForkMirrorsUses(s, step, o, v, p, u);
    ForkKeepsDistinct(s, step, o, v, p, u);
    ForkMirrorsGroups(s, step, v.groups, id);
  }

  // ---------- the step, on structures ----------

  /** Who the tasks are and what they point at. */
  ghost predicate TasksShow(o: Objects, v: Image)
    reads o.tasks`id, o.tasks`signal, o.tasks`sighand, o.tasks`mm
  {
    && |v.ids| == |o.tasks| && |v.uses| == |o.tasks|
    && forall i :: 0 <= i < |o.tasks| ==> o.tasks[i].id == v.ids[i] && UsesOf(o.tasks[i]) == v.uses[i]
  }

  /** The groups, but for the one of the forking task. */
  ghost predicate GroupsShow(o: Objects, v: Image, signal: Signal)
    reads o.signals
  {
    |v.groups| == |o.signals| &&
    forall g :: 0 <= g < |o.signals| && o.signals[g] != signal ==> o.signals[g].group == v.groups[g]
  }

  /** A running task that may ask for the fork; whether the flags are accepted is for copy_process to say. */
  ghost predicate Asks(s: ThreadGroups.State, step: Step) {
    && step.Fork? && step.i < |s.tasks| && s.tasks[step.i].phase == Running && step.cpu < |s.processCounts|
    && step.newPid > 0 && (forall j :: 0 <= j < |s.tasks| && s.tasks[j].Hashed() ==> s.tasks[j].pid != step.newPid)
    && Shape(s)
  }

  function Asked(step: Step): Request
    requires step.Fork?
  {
    Request(step.args, step.newPid, step.reaper, step.cpu)
  }

  /** What copy_process sees before it does anything, in terms of the image. */
  ghost predicate SeenIn(b: Before, s: ThreadGroups.State, step: Step, v: Image)
    requires Asks(s, step)
  {
    && |v.ids| == |s.tasks| && |v.groups| == |s.signals|
    && b.group == v.groups[s.tasks[step.i].signal] && b.leader == v.ids[s.tasks[step.i].leader]
    && b.run.totals.nrThreads == v.nrThreads && b.run.totals.processCounts == v.processCounts
  }

  lemma MirroredIsSeen(s: ThreadGroups.State, step: Step, o: Objects, k: Kernel, cur: Task)
    requires Asks(s, step) && Mirrors(s, o, ImageOf(o, k)) && cur == o.tasks[step.i]
    ensures cur.signal == o.signals[s.tasks[step.i].signal]
    ensures cur.id.groupLeader == o.tasks[s.tasks[step.i].leader]
    ensures SeenIn(Seen(k, cur), s, step, ImageOf(o, k))
  {
    var v := ImageOf(o, k);
    assert PointsAt(s.tasks[step.i], o, v.uses[step.i]) && IsIdentity(s.tasks[step.i], o.tasks, v.ids[step.i]);
  }

  /** What a successful copy_process has moved. */
  ghost predicate HasMoved(s: ThreadGroups.State, step: Step, o: Objects, v: Image, k: Kernel, p: Task)
    requires Asks(s, step) && step.i < |o.tasks|
    reads p, SignalOf(p), o.signals, k`run
  {
    var signal := s.tasks[step.i].signal;
    && signal < |v.groups| == |o.signals| && s.tasks[step.i].leader < |v.ids| && step.i < |v.ids| && step.i < |v.uses|
    && IsNew(s, step, o.tasks, v.ids, p, p.id) && Inherits(step.args, v.uses[step.i], UsesOf(p), Known(o))
    && o.signals[signal].group == LinkGroup(v.groups[signal], true, CLONE_THREAD in step.args.flags, p.id, step.reaper)
    && (CLONE_THREAD !in step.args.flags ==>
          p.signal.group == LinkGroup(Group(1, 1, 1, false), false, true, p.id, step.reaper))
    && k.run.totals.nrThreads == v.nrThreads + 1 && step.cpu < |v.processCounts|
    && k.run.totals.processCounts == (
         if p.id.exitSignal >= 0 then v.processCounts[step.cpu := Increment(v.processCounts[step.cpu])]
         else v.processCounts)
    && !Refused(step.args, v.groups[signal].unkillable, step.otherPidNs)
  }

  lemma ForkedHasMoved(s: ThreadGroups.State, step: Step, o: Objects, v: Image, k: Kernel, host: Host, cur: Task,
                       p: Task, a: Areas, child: seq<Vma>, w: World)
    requires Asks(s, step) && Mirrors(s, o, v) && cur == o.tasks[step.i]
    requires cur.signal == o.signals[s.tasks[step.i].signal] && cur.id == v.ids[step.i] && UsesOf(cur) == v.uses[step.i]
    requires SeenIn(w.before, s, step, v)
    requires Forked(k, host, cur, p, Asked(step), a, child, w, Known(o))
    requires !Refused(step.args, w.before.group.unkillable, step.otherPidNs)
    ensures HasMoved(s, step, o, v, k, p)
  {
  }

  /** Where the structures show v but for what the fork has moved, they show the next state's image. */
  lemma ImageAfterFork(s: ThreadGroups.State, step: Step, o: Objects, v: Image, k: Kernel, p: Task, c: Thread)
    requires Asks(s, step) && step.i < |o.tasks| && |o.signals| == |s.signals|
    requires c.signal == if CLONE_THREAD in step.args.flags then s.tasks[step.i].signal else |s.signals|
    requires s.tasks[step.i].signal < |o.signals| && Distinct(o)
    requires TasksShow(o, v) && GroupsShow(o, v, o.signals[s.tasks[step.i].signal])
    requires HasMoved(s, step, o, v, k, p) && (c.mm.Some? ==> p.mm != null)
    ensures ImageOf(With(o, c, p, UsesOf(p)), k) == NewImage(v, s.tasks[step.i].signal, step, p.id, UsesOf(p))
  {
    var n := ImageOf(With(o, c, p, UsesOf(p)), k);
    var w := NewImage(v, s.tasks[step.i].signal, step, p.id, UsesOf(p));
    assert n.ids == w.ids;
    assert n.uses == w.uses;
    assert n.groups == w.groups;
  }

  /** The structures with the new task are the next state's. */
  ghost predicate StepTaken(s: ThreadGroups.State, step: Step, o: Objects, k: Kernel, p: Task)
    requires step.Fork? && Enabled(s, step)
    reads o.tasks, o.signals, p, SignalOf(p), k`run
  {
    var c := Child(s, step.i, step.args, step.newPid);
    && p !in o.tasks && p.signal != null && p.sighand != null && (c.mm.Some? <==> p.mm != null)
    && Mirrors(Next(s, step), With(o, c, p, UsesOf(p)), ImageOf(With(o, c, p, UsesOf(p)), k))
  }

  lemma MovedIsTaken(s: ThreadGroups.State, step: Step, o: Objects, v: Image, k: Kernel, p: Task)
    requires step.Fork? && Enabled(s, step) && Inv(s) && Asks(s, step) && Mirrors(s, o, v) && p !in o.tasks
    requires TasksShow(o, v) && GroupsShow(o, v, o.signals[s.tasks[step.i].signal]) && HasMoved(s, step, o, v, k, p)
    ensures StepTaken(s, step, o, k, p)
  {
    ForkMirrors(s, step, o, v, p, p.id, UsesOf(p));
    ImageAfterFork(s, step, o, v, k, p, Child(s, step.i, step.args, step.newPid));
  }

  lemma ImageShows(o: Objects, v: Image, k: Kernel, signal: Signal)
    requires ImageOf(o, k) == v
    ensures TasksShow(o, v) && GroupsShow(o, v, signal)
  {
  }

  lemma ShownIsImage(o: Objects, v: Image, k: Kernel, g: nat)
    requires Distinct(o) && g < |o.signals|
    requires TasksShow(o, v) && GroupsShow(o, v, o.signals[g]) && o.signals[g].group == v.groups[g]
    requires k.run.totals.nrThreads == v.nrThreads && k.run.totals.processCounts == v.processCounts
    ensures ImageOf(o, k) == v
  {
    var n := ImageOf(o, k);
    assert n.ids == v.ids;
    assert n.uses == v.uses;
    assert n.groups == v.groups;
  }

  ghost predicate IsStill(t: Task, id: Identity, u: Uses)
    reads t`id, t`signal, t`sighand, t`mm
  {
    t.id == id && UsesOf(t) == u
  }

  /** copy_process: the whole of a success, or nothing. */
  method CopyProcessOrNot(k: Kernel, alloc: TaskStacks.Allocator, host: Host, cur: Task, q: Request, otherPidNs: bool,
                          ghost a: Areas, ghost w: World, ghost known: set<object>)
    returns (retval: int, p: Task?, ghost child: seq<Vma>)
    requires alloc.Valid() && q.cpu < alloc.cpus && Complete(cur) && Mapped(cur, host, a) && k.run.Ready(q)
    requires cur.id.groupLeader != null && WorldOf(k, host, cur) == w
    modifies cur`nprocExceeded, k`setup, k`slabs, k`run, cur.signal`group
    modifies FilesOf(cur)`count, cur.fs`users, cur.sighand`count, MmOf(cur)`users, MmOf(cur)`semHeld, host
    modifies alloc`place, alloc`owners, alloc`accounted, alloc`memcgKb, alloc`taskStructs, alloc.cached, alloc.zoneKb
    ensures p != null ==> fresh(p)
    ensures Refused(q.args, w.before.group.unkillable, otherPidNs) ==> retval != 0
    ensures if retval == 0 then p != null && Forked(k, host, cur, p, q, a, child, w, known)
            else WorldOf(k, host, cur) == w
  {
    retval, p, child := CopyProcess.CopyProcess(k, alloc, host, cur, q, otherPidNs, a, known);
  }

  /** copy_process; the forking task remains who it was, with what it had. */
  method CopyProcessFrom(k: Kernel, alloc: TaskStacks.Allocator, host: Host, cur: Task, q: Request, otherPidNs: bool,
                         ghost a: Areas, ghost w: World, ghost known: set<object>, ghost id: Identity, ghost u: Uses)
    returns (retval: int, p: Task?, ghost child: seq<Vma>)
    requires alloc.Valid() && q.cpu < alloc.cpus && Complete(cur) && Mapped(cur, host, a) && k.run.Ready(q)
    requires cur.id.groupLeader != null && WorldOf(k, host, cur) == w && IsStill(cur, id, u)
    modifies cur`nprocExceeded, k`setup, k`slabs, k`run, cur.signal`group
    modifies FilesOf(cur)`count, cur.fs`users, cur.sighand`count, MmOf(cur)`users, MmOf(cur)`semHeld, host
    modifies alloc`place, alloc`owners, alloc`accounted, alloc`memcgKb, alloc`taskStructs, alloc.cached, alloc.zoneKb
    ensures IsStill(cur, id, u) && u.signal != null && (p != null ==> fresh(p))
    ensures Refused(q.args, w.before.group.unkillable, otherPidNs) ==> retval != 0
    ensures if retval == 0 then p != null && Forked(k, host, cur, p, q, a, child, w, known)
            else k.run == w.before.run && cur.signal.group == w.before.group
  {
    retval, p, child := CopyProcessOrNot(k, alloc, host, cur, q, otherPidNs, a, w, known);
  }

  /** The task that asks is the one that runs, and sees what v shows. */
  ghost predicate AskedBy(s: ThreadGroups.State, step: Step, o: Objects, v: Image, k: Kernel, cur: Task)
    requires Asks(s, step)
    reads cur`id, LeaderOf(cur)`id, cur`signal, cur`sighand, cur`mm, SignalOf(cur)`group, k`run
  {
    && Mirrors(s, o, v) && cur == o.tasks[step.i] && cur.id == v.ids[step.i] && UsesOf(cur) == v.uses[step.i]
    && cur.id.groupLeader != null && cur.signal != null
    && cur.signal == o.signals[s.tasks[step.i].signal] && SeenIn(Seen(k, cur), s, step, v)
  }

  /** A failed fork has left the counters and the group alone. */
  ghost predicate HasNotMoved(s: ThreadGroups.State, step: Step, o: Objects, v: Image, k: Kernel)
    requires Asks(s, step)
    reads o.signals, k`run
  {
    var signal := s.tasks[step.i].signal;
    && signal < |o.signals| == |v.groups| && o.signals[signal].group == v.groups[signal]
    && k.run.totals.nrThreads == v.nrThreads && k.run.totals.processCounts == v.processCounts
  }

  /** copy_process, called by a task of a mirrored state, in terms of the image. */
  method ForkMoves(k: Kernel, alloc: TaskStacks.Allocator, host: Host, cur: Task, q: Request, otherPidNs: bool,
                   ghost a: Areas, ghost s: ThreadGroups.State, ghost step: Step, ghost o: Objects, ghost v: Image)
    returns (retval: int, p: Task?)
    requires alloc.Valid() && q.cpu < alloc.cpus && Complete(cur) && Mapped(cur, host, a) && k.run.Ready(q)
    requires Asks(s, step) && AskedBy(s, step, o, v, k, cur) && q == Asked(step) && otherPidNs == step.otherPidNs
    modifies cur`nprocExceeded, k`setup, k`slabs, k`run, cur.signal`group
    modifies FilesOf(cur)`count, cur.fs`users, cur.sighand`count, MmOf(cur)`users, MmOf(cur)`semHeld, host
    modifies alloc`place, alloc`owners, alloc`accounted, alloc`memcgKb, alloc`taskStructs, alloc.cached, alloc.zoneKb
    ensures retval == 0 ==> p != null && p !in o.tasks && HasMoved(s, step, o, v, k, p)
    ensures retval != 0 ==> HasNotMoved(s, step, o, v, k)
  {
    ghost var w := WorldOf(k, host, cur);
    ghost var child;
    retval, p, child := CopyProcessFrom(k, alloc, host, cur, q, otherPidNs, a, w, Known(o), v.ids[step.i],
                                        v.uses[step.i]);
    if retval == 0 {
      ForkedHasMoved(s, step, o, v, k, host, cur, p, a, child, w);
    }
  }

  /** It touches no other task, */
  method ForkMovesNoTask(k: Kernel, alloc: TaskStacks.Allocator, host: Host, cur: Task, q: Request, otherPidNs: bool,
                         ghost a: Areas, ghost s: ThreadGroups.State, ghost step: Step, ghost o: Objects,
                         ghost v: Image)
    returns (retval: int, p: Task?)
    requires alloc.Valid() && q.cpu < alloc.cpus && Complete(cur) && Mapped(cur, host, a) && k.run.Ready(q)
    requires Asks(s, step) && AskedBy(s, step, o, v, k, cur) && q == Asked(step) && otherPidNs == step.otherPidNs
    requires TasksShow(o, v)
    modifies cur`nprocExceeded, k`setup, k`slabs, k`run, cur.signal`group
    modifies FilesOf(cur)`count, cur.fs`users, cur.sighand`count, MmOf(cur)`users, MmOf(cur)`semHeld, host
    modifies alloc`place, alloc`owners, alloc`accounted, alloc`memcgKb, alloc`taskStructs, alloc.cached, alloc.zoneKb
    ensures TasksShow(o, v)
    ensures retval == 0 ==> p != null && p !in o.tasks && HasMoved(s, step, o, v, k, p)
    ensures retval != 0 ==> HasNotMoved(s, step, o, v, k)
  {
    retval, p := ForkMoves(k, alloc, host, cur, q, otherPidNs, a, s, step, o, v);
  }

  /** and no other signal structure. */
  method ForkMovesNoGroup(k: Kernel, alloc: TaskStacks.Allocator, host: Host, cur: Task, q: Request, otherPidNs: bool,
                          ghost a: Areas, ghost s: ThreadGroups.State, ghost step: Step, ghost o: Objects,
                          ghost v: Image)
    returns (retval: int, p: Task?)
    requires alloc.Valid() && q.cpu < alloc.cpus && Complete(cur) && Mapped(cur, host, a) && k.run.Ready(q)
    requires Asks(s, step) && AskedBy(s, step, o, v, k, cur) && q == Asked(step) && otherPidNs == step.otherPidNs
    requires TasksShow(o, v) && GroupsShow(o, v, cur.signal)
    modifies cur`nprocExceeded, k`setup, k`slabs, k`run, cur.signal`group
    modifies FilesOf(cur)`count, cur.fs`users, cur.sighand`count, MmOf(cur)`users, MmOf(cur)`semHeld, host
    modifies alloc`place, alloc`owners, alloc`accounted, alloc`memcgKb, alloc`taskStructs, alloc.cached, alloc.zoneKb
    ensures TasksShow(o, v) && GroupsShow(o, v, o.signals[s.tasks[step.i].signal])
    ensures retval == 0 ==> p != null && p !in o.tasks && HasMoved(s, step, o, v, k, p)
    ensures retval != 0 ==> HasNotMoved(s, step, o, v, k)
  {
    retval, p := ForkMovesNoTask(k, alloc, host, cur, q, otherPidNs, a, s, step, o, v);
  }

  /**
   copy_process, called by any running task of a mirrored state: if it succeeds, the Fork step was enabled and
   the structures, with those that are new, mirror the next state; if it fails, they mirror the same state.
   */
  method ForkTask(k: Kernel, alloc: TaskStacks.Allocator, host: Host, cur: Task, q: Request, otherPidNs: bool,
                  ghost a: Areas, ghost s: ThreadGroups.State, ghost step: Step, ghost o: Objects)
    returns (retval: int, p: Task?)
    requires alloc.Valid() && q.cpu < alloc.cpus
    requires Complete(cur) && Mapped(cur, host, a) && !k.run.tasklistHeld && !k.run.siglockHeld
    requires Inv(s) && Mirrors(s, o, ImageOf(o, k)) && Asks(s, step) && cur == o.tasks[step.i] && q == Asked(step)
    requires otherPidNs == step.otherPidNs
    modifies cur`nprocExceeded, k`setup, k`slabs, k`run, cur.signal`group
    modifies FilesOf(cur)`count, cur.fs`users, cur.sighand`count, MmOf(cur)`users, MmOf(cur)`semHeld, host
    modifies alloc`place, alloc`owners, alloc`accounted, alloc`memcgKb, alloc`taskStructs, alloc.cached, alloc.zoneKb
    ensures retval == 0 ==> p != null && Enabled(s, step) && StepTaken(s, step, o, k, p)
    ensures retval != 0 ==> Mirrors(s, o, ImageOf(o, k))
  {
    ghost var v := ImageOf(o, k);
    MirroredIsSeen(s, step, o, k, cur);
    ImageShows(o, v, k, cur.signal);
    retval, p := ForkMovesNoGroup(k, alloc, host, cur, q, otherPidNs, a, s, step, o, v);
    if retval == 0 {
      assert IsGroup(s.signals[s.tasks[step.i].signal], v.groups[s.tasks[step.i].signal]);
      MovedIsTaken(s, step, o, v, k, p);
    } else {
      ShownIsImage(o, v, k, s.tasks[step.i].signal);
    }
  }
}
