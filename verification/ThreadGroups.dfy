/**
 Thread groups over whole runs of forks, exits and reapings by any tasks in any order.  A task is known by
 its place in the order of creation, and signal structures by theirs.
 */
module ThreadGroups {
  import opened CopyProcess
  import opened Wrappers

  /** A task runs, has exited, is unhashed, and in the end gives up its share of the signal structure. */
  datatype Phase = Running | Exited | Reaped | Freed

  function Rank(p: Phase): nat {
    match p case Running => 3 case Exited => 2 case Reaped => 1 case Freed => 0
  }

  datatype Thread = Thread(
    signal: nat, sighand: nat, mm: Option<nat>,
    pid: nat, tgid: nat, exitSignal: int, leader: nat, parent: Option<nat>,
    phase: Phase)
  {
    predicate Hashed() { Rank(phase) >= 2 }
  }

  const SIGNAL_UNKILLABLE: bv32 := 0x40
  const SIGNAL_STOP_MASK: bv32 := 0x33

  datatype SignalInfo = SignalInfo(nrThreads: int, live: int, sigcnt: int, flags: bv32)
  {
    predicate Unkillable() { flags & SIGNAL_UNKILLABLE != 0 }
  }

  /** signal_set_stop_flags: replaces the job control bits. */
  function WithStopFlags(word: bv32, flags: bv32): (r: bv32)
    ensures r & SIGNAL_UNKILLABLE == (word | flags) & SIGNAL_UNKILLABLE
    ensures r & SIGNAL_STOP_MASK == flags & SIGNAL_STOP_MASK
    ensures r & !SIGNAL_STOP_MASK == (word | flags) & !SIGNAL_STOP_MASK
  {
    (word & !SIGNAL_STOP_MASK) | flags
  }

  datatype State = State(
    tasks: seq<Thread>,
    signals: seq<SignalInfo>,
    nextSighand: nat,
    nextMm: nat,
    nrThreads: int,
    processCounts: seq<Word>)

  // ---------- steps ----------

  datatype Step =
    | Fork(i: nat, args: Clone, newPid: nat, reaper: bool, otherPidNs: bool, cpu: nat)
    | Exit(i: nat)                    // runs no more, and inherits nothing more
    | HandOver(i: nat, heir: nat)     // its children get another parent
    | Reap(i: nat, cpu: nat)
    | Free(i: nat)
    | SetStopFlags(g: nat, flags: bv32)

  /** Group g is that of an init. */
  predicate IsInit(s: State, g: nat) {
    g < |s.signals| && s.signals[g].Unkillable()
  }

  /** Going up from k by parents, the group of h comes no later than the first init. */
  predicate UpFrom(s: State, k: nat, h: nat)
    requires k < |s.tasks| && h < |s.tasks|
    decreases s.tasks[k].leader
  {
    match s.tasks[k].parent
    case None => false
    case Some(p) =>
      && p < |s.tasks| && s.tasks[p].leader < s.tasks[k].leader
      && (s.tasks[p].signal == s.tasks[h].signal || (!IsInit(s, s.tasks[p].signal) && UpFrom(s, p, h)))
  }

  /**
   Who may get the children of i: a running thread of its own group, and only where there is none, one of a
   group above it, but of none above the nearest init.
   */
  predicate MayInherit(s: State, i: nat, h: nat) {
    && i < |s.tasks| && h < |s.tasks| && s.tasks[h].phase == Running
    && if Members(s.tasks, s.tasks[i].signal, 3) > 0 then s.tasks[h].signal == s.tasks[i].signal
       else !IsInit(s, s.tasks[i].signal) && UpFrom(s, i, h)
  }

  /** No hashed task has i for its parent. */
  predicate Childless(tasks: seq<Thread>, i: nat) {
    forall k :: 0 <= k < |tasks| && tasks[k].Hashed() ==> tasks[k].parent != Some(i)
  }

  /** The children of i, threads and all, become those of h. */
  function Adopt(tasks: seq<Thread>, i: nat, h: nat): (r: seq<Thread>)
    ensures |r| == |tasks|
  {
    seq(|tasks|, k requires 0 <= k < |tasks| =>
      if tasks[k].Hashed() && tasks[k].parent == Some(i) then tasks[k].(parent := Some(h)) else tasks[k])
  }

  predicate Enabled(s: State, step: Step) {
    match step
    case Fork(i, args, newPid, reaper, otherPidNs, cpu) =>
      && i < |s.tasks| && s.tasks[i].phase == Running
      && s.tasks[i].signal < |s.signals| && s.tasks[i].leader < |s.tasks|
      && !Refused(args, s.signals[s.tasks[i].signal].Unkillable(), otherPidNs)
      && cpu < |s.processCounts|
      // alloc_pid hands out a number that no hashed task has
      && newPid > 0 && (forall j :: 0 <= j < |s.tasks| && s.tasks[j].Hashed() ==> s.tasks[j].pid != newPid)
    case Exit(i) => i < |s.tasks| && s.tasks[i].phase == Running && s.tasks[i].signal < |s.signals|
    case HandOver(i, heir) => i < |s.tasks| && s.tasks[i].phase == Exited && MayInherit(s, i, heir)
    case Reap(i, cpu) =>
      && i < |s.tasks| && s.tasks[i].phase == Exited && s.tasks[i].signal < |s.signals| && cpu < |s.processCounts|
      // it is a zombie only after its children have been handed over
      && Childless(s.tasks, i)
      // a leader waits until it is the last of its group
      && (s.tasks[i].exitSignal >= 0 ==> s.signals[s.tasks[i].signal].nrThreads == 1)
    case Free(i) => i < |s.tasks| && s.tasks[i].phase == Reaped && s.tasks[i].signal < |s.signals|
    case SetStopFlags(g, _) => g < |s.signals|
  }

  /** The task that a fork makes, by the flags that copy_process has accepted. */
  function Child(s: State, i: nat, args: Clone, pid: nat): Thread
    requires i < |s.tasks| && s.tasks[i].leader < |s.tasks|
  {
    var t := s.tasks[i];
    var me := |s.tasks|;
    Thread(
      if CLONE_THREAD in args.flags then t.signal else |s.signals|,
      if CLONE_SIGHAND in args.flags then t.sighand else s.nextSighand,
      if CLONE_VM in args.flags || t.mm == None then t.mm else Some(s.nextMm),
      pid,
      if CLONE_THREAD in args.flags then t.tgid else pid,
      if CLONE_THREAD in args.flags then -1
      else if CLONE_PARENT in args.flags then s.tasks[t.leader].exitSignal
      else args.csignal,
      if CLONE_THREAD in args.flags then t.leader else me,
      if CLONE_PARENT in args.flags || CLONE_THREAD in args.flags then t.parent else Some(i),
      Running)
  }

  function Next(s: State, step: Step): State
    requires Enabled(s, step)
  {
    match step
    case Fork(i, args, newPid, reaper, otherPidNs, cpu) =>
      var c := Child(s, i, args, newPid);
      var leads := c.exitSignal >= 0;
      State(
        s.tasks + [c],
        if c.signal < |s.signals| then
          var g := s.signals[c.signal];
          s.signals[c.signal := if leads then g.(flags := if reaper then g.flags | SIGNAL_UNKILLABLE else g.flags)
                                else SignalInfo(g.nrThreads + 1, g.live + 1, g.sigcnt + 1, g.flags)]
        else s.signals + [SignalInfo(1, 1, 1, if leads && reaper then SIGNAL_UNKILLABLE else 0)],
        s.nextSighand + 1,
        s.nextMm + 1,
        s.nrThreads + 1,
        if leads then s.processCounts[cpu := Increment(s.processCounts[cpu])] else s.processCounts)
    case Exit(i) =>
      var g := s.tasks[i].signal;
      s.(tasks := s.tasks[i := s.tasks[i].(phase := Exited, mm := None)],
         signals := s.signals[g := s.signals[g].(live := s.signals[g].live - 1)])
    case HandOver(i, heir) => s.(tasks := Adopt(s.tasks, i, heir))
    case Reap(i, cpu) =>
      var g := s.tasks[i].signal;
      s.(tasks := s.tasks[i := s.tasks[i].(phase := Reaped)],
         signals := s.signals[g := s.signals[g].(nrThreads := s.signals[g].nrThreads - 1)],
         nrThreads := s.nrThreads - 1,
         processCounts := if s.tasks[i].exitSignal >= 0
                          then s.processCounts[cpu := Decrement(s.processCounts[cpu])] else s.processCounts)
    case Free(i) =>
      var g := s.tasks[i].signal;
      s.(tasks := s.tasks[i := s.tasks[i].(phase := Freed)],
         signals := s.signals[g := s.signals[g].(sigcnt := s.signals[g].sigcnt - 1)])
    case SetStopFlags(g, flags) =>
      s.(signals := s.signals[g := s.signals[g].(flags := WithStopFlags(s.signals[g].flags, flags))])
  }

  // ---------- counting ----------

  /** How many tasks have reached no phase beyond the given rank, in group g. */
  function Members(tasks: seq<Thread>, g: nat, rank: nat): nat {
    if tasks == [] then 0
    else Members(tasks[..|tasks| - 1], g, rank) + In(tasks[|tasks| - 1], g, rank)
  }

  function In(t: Thread, g: nat, rank: nat): nat {
    if t.signal == g && Rank(t.phase) >= rank then 1 else 0
  }

  function Hashed(tasks: seq<Thread>): nat {
    if tasks == [] then 0
    else Hashed(tasks[..|tasks| - 1]) + if tasks[|tasks| - 1].Hashed() then 1 else 0
  }

  /** Hashed leaders: what ps calls processes. */
  function Leaders(tasks: seq<Thread>): nat {
    if tasks == [] then 0
    else Leaders(tasks[..|tasks| - 1]) +
         if tasks[|tasks| - 1].Hashed() && tasks[|tasks| - 1].exitSignal >= 0 then 1 else 0
  }

  lemma {:induction false} MembersUpdate(tasks: seq<Thread>, i: nat, t: Thread, g: nat, rank: nat)
    requires i < |tasks|
    ensures Members(tasks[i := t], g, rank) == Members(tasks, g, rank) - In(tasks[i], g, rank) + In(t, g, rank)
  {
    var n := |tasks| - 1;
    if i == n {
      assert tasks[i := t][..n] == tasks[..n];
    } else {
      assert tasks[i := t][..n] == tasks[..n][i := t];
      MembersUpdate(tasks[..n], i, t, g, rank);
    }
  }

  lemma {:induction false} TotalsUpdate(tasks: seq<Thread>, i: nat, t: Thread)
    requires i < |tasks| && t.exitSignal == tasks[i].exitSignal
    ensures Hashed(tasks[i := t]) ==
            Hashed(tasks) - (if tasks[i].Hashed() then 1 else 0) + (if t.Hashed() then 1 else 0)
    ensures Leaders(tasks[i := t]) ==
            Leaders(tasks) + if t.exitSignal < 0 then 0
                             else (if t.Hashed() then 1 else 0) - (if tasks[i].Hashed() then 1 else 0)
  {
    var n := |tasks| - 1;
    if i == n {
      assert tasks[i := t][..n] == tasks[..n];
    } else {
      assert tasks[i := t][..n] == tasks[..n][i := t];
      TotalsUpdate(tasks[..n], i, t);
    }
  }

  lemma AppendCounts(tasks: seq<Thread>, t: Thread, g: nat, rank: nat)
    ensures Members(tasks + [t], g, rank) == Members(tasks, g, rank) + In(t, g, rank)
    ensures Hashed(tasks + [t]) == Hashed(tasks) + if t.Hashed() then 1 else 0
    ensures Leaders(tasks + [t]) == Leaders(tasks) + if t.Hashed() && t.exitSignal >= 0 then 1 else 0
  {
    assert (tasks + [t])[..|tasks|] == tasks;
  }

  lemma {:induction false} NoMembers(tasks: seq<Thread>, g: nat, rank: nat)
    requires forall i :: 0 <= i < |tasks| ==> tasks[i].signal != g
    ensures Members(tasks, g, rank) == 0
  {
    if tasks != [] {
      NoMembers(tasks[..|tasks| - 1], g, rank);
    }
  }

  lemma {:induction false} TwoMembers(tasks: seq<Thread>, g: nat, rank: nat, i: nat, j: nat)
    requires i < j < |tasks| && In(tasks[i], g, rank) == 1 && In(tasks[j], g, rank) == 1
    ensures Members(tasks, g, rank) >= 2
  {
    var n := |tasks| - 1;
    if j < n {
      TwoMembers(tasks[..n], g, rank, i, j);
    } else {
      OneMember(tasks[..n], g, rank, i);
    }
  }

  lemma {:induction false} OneMember(tasks: seq<Thread>, g: nat, rank: nat, i: nat)
    requires i < |tasks| && In(tasks[i], g, rank) == 1
    ensures Members(tasks, g, rank) >= 1
  {
    if i < |tasks| - 1 {
      OneMember(tasks[..|tasks| - 1], g, rank, i);
    }
  }

  // ---------- per-CPU counts ----------

  /** int, which wraps. */
  function ToInt(x: int): int {
    var m := x % 0x1_0000_0000;
    if m < 0x8000_0000 then m else m - 0x1_0000_0000
  }

  /** nr_processes: adds the counts of all CPUs up in an int. */
  method NrProcesses(processCounts: seq<Word>) returns (total: int)
    ensures total == ToInt(Sum(processCounts))
  {
    total := 0;
    var cpu := 0;
    while cpu < |processCounts|
      invariant 0 <= cpu <= |processCounts|
      invariant total == ToInt(Sum(processCounts[..cpu]))
    {
      assert processCounts[..cpu + 1][..cpu] == processCounts[..cpu];
      total := ToInt(total + processCounts[cpu]);
      cpu := cpu + 1;
    }
    assert processCounts[..cpu] == processCounts;
  }

  // ---------- what every step keeps ----------

  ghost predicate Shape(s: State) {
    forall i: nat :: i < |s.tasks| ==>
      var t := s.tasks[i];
      && t.signal < |s.signals| && t.sighand < s.nextSighand && (t.mm.Some? ==> t.mm.value < s.nextMm)
      && t.leader < |s.tasks|
      && s.tasks[t.leader].leader == t.leader
      && s.tasks[t.leader].signal == t.signal
      && t.tgid == s.tasks[t.leader].pid
      && (t.Hashed() ==> s.tasks[t.leader].Hashed())
      && (t.exitSignal >= 0 <==> t.leader == i)
  }

  ghost predicate Pairs(s: State) {
    forall i: nat, j: nat :: i < |s.tasks| && j < |s.tasks| ==> Agree(s.tasks[i], s.tasks[j], i == j)
  }

  predicate Agree(t: Thread, u: Thread, same: bool) {
    && (t.signal == u.signal <==> t.leader == u.leader)
    && (t.signal == u.signal ==> t.sighand == u.sighand)
    && (t.sighand == u.sighand && t.phase == Running && u.phase == Running ==> t.mm == u.mm)
    && (!same && t.Hashed() && u.Hashed() ==> t.pid != u.pid)
  }

  ghost predicate GroupCounts(s: State) {
    forall g: nat :: g < |s.signals| ==> CountsOf(s, g)
  }

  predicate CountsOf(s: State, g: nat)
    requires g < |s.signals|
  {
    && s.signals[g].nrThreads == Members(s.tasks, g, 2)
    && s.signals[g].live == Members(s.tasks, g, 3)
    && s.signals[g].sigcnt == Members(s.tasks, g, 1)
  }

  ghost predicate Totals(s: State) {
    && s.nrThreads == Hashed(s.tasks)
    && exists wraps: int :: Sum(s.processCounts) == Leaders(s.tasks) + wraps * ULONG
  }

  ghost predicate Inv(s: State) {
    Shape(s) && Pairs(s) && GroupCounts(s) && Totals(s)
  }

  /** Only init is there; the count of the CPU it was forked on is one. */
  function Booted(csignal: nat, cpus: seq<Word>, cpu: nat): State
    requires cpu < |cpus| && forall k :: 0 <= k < |cpus| ==> cpus[k] == 0
  {
    State([Thread(0, 0, Some(0), 1, 1, csignal, 0, None, Running)], [SignalInfo(1, 1, 1, SIGNAL_UNKILLABLE)], 1, 1, 1,
          cpus[cpu := 1])
  }

  lemma BootedHolds(csignal: nat, cpus: seq<Word>, cpu: nat)
    requires cpu < |cpus| && forall k :: 0 <= k < |cpus| ==> cpus[k] == 0
    ensures Inv(Booted(csignal, cpus, cpu))
  {
    var s := Booted(csignal, cpus, cpu);
    SumOfZeros(cpus);
    SumUpdate(cpus, cpu, 1);
    AppendCounts([], s.tasks[0], 0, 1);
    AppendCounts([], s.tasks[0], 0, 2);
    AppendCounts([], s.tasks[0], 0, 3);
    assert [] + [s.tasks[0]] == s.tasks;
    assert Sum(s.processCounts) == Leaders(s.tasks) + 0 * ULONG;
  }

  // ---------- forks ----------

  lemma ForkKeepsShape(s: State, step: Step)
    requires step.Fork? && Enabled(s, step) && Inv(s)
    ensures Shape(Next(s, step))
    ensures Child(s, step.i, step.args, step.newPid).exitSignal >= 0 <==>
            Child(s, step.i, step.args, step.newPid).signal == |s.signals|
  {
    var c := Child(s, step.i, step.args, step.newPid);
    var n := Next(s, step);
    assert s.tasks[s.tasks[step.i].leader].exitSignal >= 0;
    forall k: nat | k < |n.tasks|
      ensures n.tasks[k].leader < |n.tasks|
      ensures k < |s.tasks| ==> n.tasks[k] == s.tasks[k] && n.tasks[n.tasks[k].leader] == s.tasks[s.tasks[k].leader]
    {
    }
  }

  lemma ForkKeepsPairs(s: State, step: Step)
    requires step.Fork? && Enabled(s, step) && Inv(s)
    ensures Pairs(Next(s, step))
  {
    var c := Child(s, step.i, step.args, step.newPid);
    var n := Next(s, step);
    forall k: nat | k < |s.tasks|
      ensures Agree(s.tasks[k], c, false) && Agree(c, s.tasks[k], false)
    {
      assert Agree(s.tasks[k], s.tasks[step.i], k == step.i);
      assert s.tasks[step.i].Hashed();
    }
    forall i: nat, j: nat | i < |n.tasks| && j < |n.tasks|
      ensures Agree(n.tasks[i], n.tasks[j], i == j)
    {
      if i < |s.tasks| && j < |s.tasks| {
        assert n.tasks[i] == s.tasks[i] && n.tasks[j] == s.tasks[j];
      }
    }
  }

  lemma ForkCountsOf(s: State, step: Step, g: nat)
    requires step.Fork? && Enabled(s, step) && g < |s.signals| && CountsOf(s, g)
    requires Child(s, step.i, step.args, step.newPid).exitSignal >= 0 <==>
             Child(s, step.i, step.args, step.newPid).signal == |s.signals|
    ensures CountsOf(Next(s, step), g)
  {
    var c := Child(s, step.i, step.args, step.newPid);
    AppendCounts(s.tasks, c, g, 1);
    AppendCounts(s.tasks, c, g, 2);
    AppendCounts(s.tasks, c, g, 3);
  }

  lemma NewGroupCounts(s: State, step: Step)
    requires step.Fork? && Enabled(s, step) && Shape(s)
    requires |Next(s, step).signals| > |s.signals|
    ensures CountsOf(Next(s, step), |s.signals|)
  {
    var c := Child(s, step.i, step.args, step.newPid);
    var g := |s.signals|;
    NoMembers(s.tasks, g, 1);
    NoMembers(s.tasks, g, 2);
    NoMembers(s.tasks, g, 3);
    AppendCounts(s.tasks, c, g, 1);
    AppendCounts(s.tasks, c, g, 2);
    AppendCounts(s.tasks, c, g, 3);
  }

  lemma ForkKeepsCounts(s: State, step: Step)
    requires step.Fork? && Enabled(s, step) && Inv(s)
    ensures GroupCounts(Next(s, step))
  {
    ForkKeepsShape(s, step);
    forall g: nat | g < |Next(s, step).signals|
      ensures CountsOf(Next(s, step), g)
    {
      if g < |s.signals| {
        ForkCountsOf(s, step, g);
      } else {
        NewGroupCounts(s, step);
      }
    }
  }

  lemma ForkKeepsTotals(s: State, step: Step)
    requires step.Fork? && Enabled(s, step) && Inv(s)
    ensures Totals(Next(s, step))
  {
    var c := Child(s, step.i, step.args, step.newPid);
    AppendCounts(s.tasks, c, 0, 0);
    var wraps: int :| Sum(s.processCounts) == Leaders(s.tasks) + wraps * ULONG;
    var x := s.processCounts[step.cpu];
    SumUpdate(s.processCounts, step.cpu, Increment(x));
    var more := if c.exitSignal >= 0 && x == ULONG - 1 then wraps - 1 else wraps;
    assert Sum(Next(s, step).processCounts) == Leaders(Next(s, step).tasks) + more * ULONG;
  }

  // ---------- the ways out ----------

  /** A task goes one phase further; the rest of it, but for its mm, stays. */
  predicate Moved(t: Thread, u: Thread) {
    u.(phase := t.phase, mm := t.mm) == t && Rank(u.phase) == Rank(t.phase) - 1
  }

  lemma LeavingMoves(s: State, step: Step)
    requires (step.Exit? || step.Reap? || step.Free?) && Enabled(s, step)
    ensures Next(s, step).tasks == s.tasks[step.i := Next(s, step).tasks[step.i]]
    ensures Moved(s.tasks[step.i], Next(s, step).tasks[step.i])
  {
  }

  /** A leader is unhashed last, so what stays hashed keeps a hashed leader. */
  lemma LeaderGoesLast(s: State, step: Step, j: nat)
    requires step.Reap? && Enabled(s, step) && Inv(s)
    requires j < |s.tasks| && j != step.i && s.tasks[j].Hashed()
    ensures s.tasks[j].leader != step.i
  {
    var g := s.tasks[step.i].signal;
    if s.tasks[j].leader == step.i {
      assert CountsOf(s, g);
      if j < step.i {
        TwoMembers(s.tasks, g, 2, j, step.i);
      } else {
        TwoMembers(s.tasks, g, 2, step.i, j);
      }
    }
  }

  lemma LeavingKeepsShape(s: State, step: Step)
    requires (step.Exit? || step.Reap? || step.Free?) && Enabled(s, step) && Inv(s)
    ensures Shape(Next(s, step))
  {
    var n := Next(s, step);
    LeavingMoves(s, step);
    forall j: nat | j < |n.tasks| && n.tasks[j].Hashed()
      ensures n.tasks[n.tasks[j].leader].Hashed()
    {
      assert s.tasks[j].Hashed();
      if step.Reap? {
        LeaderGoesLast(s, step, j);
      }
    }
  }

  lemma LeavingKeepsPairs(s: State, step: Step)
    requires (step.Exit? || step.Reap? || step.Free?) && Enabled(s, step) && Inv(s)
    ensures Pairs(Next(s, step))
  {
    var n := Next(s, step);
    LeavingMoves(s, step);
    forall i: nat, j: nat | i < |n.tasks| && j < |n.tasks|
      ensures Agree(n.tasks[i], n.tasks[j], i == j)
    {
      assert Agree(s.tasks[i], s.tasks[j], i == j);
    }
  }

  lemma LeavingCountsOf(s: State, step: Step, g: nat)
    requires (step.Exit? || step.Reap? || step.Free?) && Enabled(s, step)
    requires g < |s.signals| && CountsOf(s, g)
    ensures CountsOf(Next(s, step), g)
  {
    var n := Next(s, step);
    LeavingMoves(s, step);
    MembersUpdate(s.tasks, step.i, n.tasks[step.i], g, 1);
    MembersUpdate(s.tasks, step.i, n.tasks[step.i], g, 2);
    MembersUpdate(s.tasks, step.i, n.tasks[step.i], g, 3);
  }

  lemma LeavingKeepsCounts(s: State, step: Step)
    requires (step.Exit? || step.Reap? || step.Free?) && Enabled(s, step) && Inv(s)
    ensures GroupCounts(Next(s, step))
  {
    forall g: nat | g < |Next(s, step).signals|
      ensures CountsOf(Next(s, step), g)
    {
      LeavingCountsOf(s, step, g);
    }
  }

  lemma LeavingKeepsTotals(s: State, step: Step)
    requires (step.Exit? || step.Reap? || step.Free?) && Enabled(s, step) && Inv(s)
    ensures Totals(Next(s, step))
  {
    var n := Next(s, step);
    LeavingMoves(s, step);
    TotalsUpdate(s.tasks, step.i, n.tasks[step.i]);
    var wraps: int :| Sum(s.processCounts) == Leaders(s.tasks) + wraps * ULONG;
    if step.Reap? && s.tasks[step.i].exitSignal >= 0 {
      var x := s.processCounts[step.cpu];
      SumUpdate(s.processCounts, step.cpu, Decrement(x));
      var more := if x == 0 then wraps + 1 else wraps;
      assert Sum(n.processCounts) == Leaders(n.tasks) + more * ULONG;
    } else {
      assert Sum(n.processCounts) == Leaders(n.tasks) + wraps * ULONG;
    }
  }

  // ---------- new parents ----------

  /** Only parents differ. */
  predicate SameButParents(tasks: seq<Thread>, r: seq<Thread>) {
    |r| == |tasks| && forall k :: 0 <= k < |r| ==> r[k].(parent := tasks[k].parent) == tasks[k]
  }

  lemma {:induction false} ParentsDoNotCount(tasks: seq<Thread>, r: seq<Thread>, g: nat, rank: nat)
    requires SameButParents(tasks, r)
    ensures Members(r, g, rank) == Members(tasks, g, rank)
    ensures Hashed(r) == Hashed(tasks) && Leaders(r) == Leaders(tasks)
  {
    if tasks != [] {
      ParentsDoNotCount(tasks[..|tasks| - 1], r[..|r| - 1], g, rank);
    }
  }

  lemma ParentsKeepCounts(s: State, n: State)
    requires n == s.(tasks := n.tasks) && SameButParents(s.tasks, n.tasks) && GroupCounts(s) && Totals(s)
    ensures GroupCounts(n) && Totals(n)
  {
    ParentsDoNotCount(s.tasks, n.tasks, 0, 0);
    forall g: nat | g < |n.signals|
      ensures CountsOf(n, g)
    {
      assert CountsOf(s, g);
      ParentsDoNotCount(s.tasks, n.tasks, g, 1);
      ParentsDoNotCount(s.tasks, n.tasks, g, 2);
      ParentsDoNotCount(s.tasks, n.tasks, g, 3);
    }
  }

  lemma ParentsKeepPairs(s: State, n: State)
    requires SameButParents(s.tasks, n.tasks) && Pairs(s)
    ensures Pairs(n)
  {
    forall i: nat, j: nat | i < |n.tasks| && j < |n.tasks|
      ensures Agree(n.tasks[i], n.tasks[j], i == j)
    {
      assert Agree(s.tasks[i], s.tasks[j], i == j);
    }
  }

  lemma ParentsKeepShape(s: State, n: State)
    requires n == s.(tasks := n.tasks) && SameButParents(s.tasks, n.tasks) && Shape(s)
    ensures Shape(n)
  {
  }

  lemma HandOverKeepsInv(s: State, step: Step)
    requires step.HandOver? && Enabled(s, step) && Inv(s)
    ensures Inv(Next(s, step))
  {
    var n := Next(s, step);
    ParentsKeepShape(s, n);
    ParentsKeepPairs(s, n);
    ParentsKeepCounts(s, n);
  }

  lemma StepKeepsInv(s: State, step: Step)
    requires Enabled(s, step) && Inv(s)
    ensures Inv(Next(s, step))
  {
    if step.Fork? {
      ForkKeepsShape(s, step);
      ForkKeepsPairs(s, step);
      ForkKeepsCounts(s, step);
      ForkKeepsTotals(s, step);
    } else if step.SetStopFlags? {
      forall g: nat | g < |s.signals|
        ensures CountsOf(Next(s, step), g)
      {
        assert CountsOf(s, g);
      }
    } else if step.HandOver? {
      HandOverKeepsInv(s, step);
    } else {
      LeavingKeepsShape(s, step);
      LeavingKeepsPairs(s, step);
      LeavingKeepsCounts(s, step);
      LeavingKeepsTotals(s, step);
    }
  }

  // ---------- the ways out are open ----------

  lemma {:induction false} OnlyMember(tasks: seq<Thread>, g: nat, rank: nat, i: nat)
    requires i < |tasks| && forall j :: 0 <= j < |tasks| && j != i ==> In(tasks[j], g, rank) == 0
    ensures Members(tasks, g, rank) == In(tasks[i], g, rank)
  {
    var n := |tasks| - 1;
    if i < n {
      OnlyMember(tasks[..n], g, rank, i);
    } else if n > 0 {
      OnlyMember(tasks[..n], g, rank, 0);
    }
  }

  /** A task with no children left can exit, be reaped and be freed; a leader, once its threads have been reaped. */
  lemma TaskCanGo(s: State, i: nat, cpu: nat)
    requires Inv(s) && i < |s.tasks| && s.tasks[i].phase == Running && cpu < |s.processCounts|
    requires Childless(s.tasks, i)
    requires s.tasks[i].leader == i ==>
               forall j :: 0 <= j < |s.tasks| && j != i && s.tasks[j].leader == i ==> !s.tasks[j].Hashed()
    ensures Enabled(s, Exit(i)) && Enabled(Next(s, Exit(i)), Reap(i, cpu))
    ensures Enabled(Next(Next(s, Exit(i)), Reap(i, cpu)), Free(i))
    ensures Next(Next(Next(s, Exit(i)), Reap(i, cpu)), Free(i)).tasks ==
            s.tasks[i := s.tasks[i].(phase := Freed, mm := None)]
  {
    var g := s.tasks[i].signal;
    if s.tasks[i].exitSignal >= 0 {
      forall j | 0 <= j < |s.tasks| && j != i
        ensures In(s.tasks[j], g, 2) == 0
      {
        assert Agree(s.tasks[j], s.tasks[i], false);
      }
      OnlyMember(s.tasks, g, 2, i);
      assert CountsOf(s, g);
    }
  }

  /** And its children go to any thread of its group that still runs. */
  lemma MateMayInherit(s: State, i: nat, h: nat)
    requires i < |s.tasks| && s.tasks[i].phase == Exited
    requires h < |s.tasks| && s.tasks[h].phase == Running && s.tasks[h].signal == s.tasks[i].signal
    ensures Enabled(s, HandOver(i, h)) && Childless(Next(s, HandOver(i, h)).tasks, i)
  {
    OneMember(s.tasks, s.tasks[i].signal, 3, h);
  }

  // ---------- whole runs ----------

  predicate CanRun(s: State, steps: seq<Step>)
    decreases |steps|
  {
    steps == [] || (Enabled(s, steps[0]) && CanRun(Next(s, steps[0]), steps[1..]))
  }

  function Run(s: State, steps: seq<Step>): State
    requires CanRun(s, steps)
    decreases |steps|
  {
    if steps == [] then s else Run(Next(s, steps[0]), steps[1..])
  }

  lemma {:induction false} RunKeepsInv(s: State, steps: seq<Step>)
    requires CanRun(s, steps) && Inv(s)
    ensures Inv(Run(s, steps))
    decreases |steps|
  {
    if steps != [] {
      StepKeepsInv(s, steps[0]);
      RunKeepsInv(Next(s, steps[0]), steps[1..]);
    }
  }

  /** In every state that any run from boot reaches, for any two tasks and any group. */
  lemma GroupsInEveryRun(csignal: nat, cpus: seq<Word>, cpu: nat, steps: seq<Step>, i: nat, j: nat)
    requires cpu < |cpus| && forall k :: 0 <= k < |cpus| ==> cpus[k] == 0
    requires CanRun(Booted(csignal, cpus, cpu), steps)
    requires i < |Run(Booted(csignal, cpus, cpu), steps).tasks|
    requires j < |Run(Booted(csignal, cpus, cpu), steps).tasks|
    ensures var s := Run(Booted(csignal, cpus, cpu), steps);
            var t, u := s.tasks[i], s.tasks[j];
            && (t.signal == u.signal <==> t.leader == u.leader)
            && (t.Hashed() && u.Hashed() ==> (t.tgid == u.tgid <==> t.signal == u.signal))
            && (t.signal == u.signal ==> t.sighand == u.sighand)
            && (t.sighand == u.sighand && t.phase == Running && u.phase == Running ==> t.mm == u.mm)
            && (t.exitSignal >= 0 <==> t.leader == i)
            && t.signal < |s.signals|
            && s.signals[t.signal].nrThreads == Members(s.tasks, t.signal, 2)
            && s.signals[t.signal].live == Members(s.tasks, t.signal, 3)
            && s.signals[t.signal].sigcnt == Members(s.tasks, t.signal, 1)
            && s.nrThreads == Hashed(s.tasks)
            && (Leaders(s.tasks) < 0x8000_0000 ==> ToInt(Sum(s.processCounts)) == Leaders(s.tasks))
  {
    var s := Run(Booted(csignal, cpus, cpu), steps);
    BootedHolds(csignal, cpus, cpu);
    RunKeepsInv(Booted(csignal, cpus, cpu), steps);
    var t, u := s.tasks[i], s.tasks[j];
    assert Agree(t, u, i == j);
    assert Agree(s.tasks[t.leader], s.tasks[u.leader], t.leader == u.leader);
    assert CountsOf(s, t.signal);
    if Leaders(s.tasks) < 0x8000_0000 {
      ProcessesAreLeaders(s);
    }
  }

  /** nr_processes finds the number of hashed leaders, though a CPU that reaps more than it forks counts below zero. */
  lemma ProcessesAreLeaders(s: State)
    requires Inv(s) && Leaders(s.tasks) < 0x8000_0000
    ensures ToInt(Sum(s.processCounts)) == Leaders(s.tasks)
  {
    var wraps: int :| Sum(s.processCounts) == Leaders(s.tasks) + wraps * ULONG;
    assert Sum(s.processCounts) == Leaders(s.tasks) + wraps * 0x1_0000_0000 * 0x1_0000_0000;
  }
}
