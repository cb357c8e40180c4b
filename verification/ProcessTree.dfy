/**
 The process tree over whole runs of forks, exits and reapings: one root for each init, and every chain of
 parents goes back in time.  Threads of one group share a parent, and a task that exits hands its children over
 to another thread of its group or to somebody above it, so the order in time is that of the group leaders.
 */
module ProcessTree {
  import CopyProcess
  import opened ThreadGroups
  import opened Wrappers

  // ---------- the tree ----------

  /**
   A parent's group is older than its child's; what is hashed has one parent with its whole group, and that
   parent is hashed too.
   */
  ghost predicate Tree(s: State) {
    && RootIsInit(s)
    && forall i: nat :: i < |s.tasks| ==> InTree(s.tasks, i)
  }

  predicate InTree(tasks: seq<Thread>, i: nat)
    requires i < |tasks|
  {
    var t := tasks[i];
    && t.leader <= i
    && (t.Hashed() ==> t.parent == tasks[t.leader].parent)
    && (t.parent == None <==> t.leader == 0)
    && match t.parent {
         case None => true
         case Some(p) => p < |tasks| && tasks[p].leader < t.leader && (t.Hashed() ==> tasks[p].Hashed())
       }
  }

  predicate RootIsInit(s: State) {
    s.tasks != [] && s.tasks[0].leader == 0 && IsInit(s, s.tasks[0].signal)
  }

  lemma StopFlagsKeepInit(word: bv32, flags: bv32)
    requires word & SIGNAL_UNKILLABLE != 0
    ensures WithStopFlags(word, flags) & SIGNAL_UNKILLABLE != 0
  {
    assert (word | flags) & SIGNAL_UNKILLABLE != 0;
  }

  /** No step makes an init killable again. */
  lemma StepKeepsInit(s: State, step: Step, g: nat)
    requires Enabled(s, step) && IsInit(s, g)
    ensures IsInit(Next(s, step), g)
  {
    if step.SetStopFlags? && step.g == g {
      StopFlagsKeepInit(s.signals[g].flags, step.flags);
    }
  }

  /** Who a task is and whose child it is; nothing but a hand-over changes that. */
  predicate SamePlace(t: Thread, u: Thread) {
    t.leader == u.leader && t.signal == u.signal && t.parent == u.parent
  }

  predicate SamePlaces(tasks: seq<Thread>, more: seq<Thread>) {
    |tasks| <= |more| && forall k :: 0 <= k < |tasks| ==> SamePlace(tasks[k], more[k])
  }

  lemma StepsKeepPlaces(s: State, step: Step)
    requires Enabled(s, step) && !step.HandOver?
    ensures SamePlaces(s.tasks, Next(s, step).tasks)
  {
  }

  lemma HashedOnlyFalls(s: State, step: Step, k: nat)
    requires Enabled(s, step) && k < |s.tasks| && Next(s, step).tasks[k].Hashed()
    ensures s.tasks[k].Hashed()
  {
  }

  lemma ForkKeepsTree(s: State, step: Step)
    requires step.Fork? && Enabled(s, step) && Inv(s) && Tree(s)
    ensures Tree(Next(s, step))
  {
    var n := Next(s, step);
    StepKeepsInit(s, step, s.tasks[0].signal);
    assert InTree(s.tasks, step.i) && Agree(s.tasks[step.i], s.tasks[0], step.i == 0);
    forall k: nat | k < |n.tasks|
      ensures InTree(n.tasks, k)
    {
      if k < |s.tasks| {
        assert InTree(s.tasks, k) && n.tasks[k] == s.tasks[k];
      }
    }
  }

  /** Going up means going back in time. */
  lemma {:induction false} UpFromIsOlder(s: State, k: nat, h: nat)
    requires Inv(s) && k < |s.tasks| && h < |s.tasks| && UpFrom(s, k, h)
    ensures s.tasks[h].leader < s.tasks[k].leader
    decreases s.tasks[k].leader
  {
    var p := s.tasks[k].parent.value;
    if s.tasks[p].signal == s.tasks[h].signal {
      assert Agree(s.tasks[p], s.tasks[h], p == h);
    } else {
      UpFromIsOlder(s, p, h);
    }
  }

  lemma HeirIsNotYounger(s: State, i: nat, h: nat)
    requires Inv(s) && MayInherit(s, i, h)
    ensures s.tasks[h].leader <= s.tasks[i].leader
  {
    if s.tasks[h].signal == s.tasks[i].signal {
      assert Agree(s.tasks[h], s.tasks[i], h == i);
    } else {
      UpFromIsOlder(s, i, h);
    }
  }

  lemma AdoptedInTree(tasks: seq<Thread>, i: nat, h: nat, k: nat)
    requires i < |tasks| && h < |tasks| && tasks[h].leader <= tasks[i].leader && tasks[h].Hashed()
    requires k < |tasks| && InTree(tasks, k)
    requires tasks[k].leader < |tasks| && tasks[tasks[k].leader].leader == tasks[k].leader
    requires tasks[k].Hashed() ==> tasks[tasks[k].leader].Hashed()
    ensures InTree(Adopt(tasks, i, h), k)
  {
  }

  lemma HandOverKeepsTree(s: State, step: Step)
    requires step.HandOver? && Enabled(s, step) && Inv(s) && Tree(s)
    ensures Tree(Next(s, step))
  {
    HeirIsNotYounger(s, step.i, step.heir);
    forall k: nat | k < |s.tasks|
      ensures InTree(Next(s, step).tasks, k)
    {
      AdoptedInTree(s.tasks, step.i, step.heir, k);
    }
  }

  lemma OthersKeepTree(s: State, step: Step)
    requires !step.Fork? && !step.HandOver? && Enabled(s, step) && Inv(s) && Tree(s)
    ensures Tree(Next(s, step))
  {
    var n := Next(s, step);
    StepKeepsInit(s, step, s.tasks[0].signal);
    StepsKeepPlaces(s, step);
    forall k: nat | k < |n.tasks|
      ensures InTree(n.tasks, k)
    {
      assert InTree(s.tasks, k);
      if n.tasks[k].Hashed() {
        HashedOnlyFalls(s, step, k);
      }
    }
  }

  lemma StepKeepsTree(s: State, step: Step)
    requires Enabled(s, step) && Inv(s) && Tree(s)
    ensures Tree(Next(s, step))
  {
    if step.Fork? {
      ForkKeepsTree(s, step);
    } else if step.HandOver? {
      HandOverKeepsTree(s, step);
    } else {
      OthersKeepTree(s, step);
    }
  }

  /** The tasks from a task's parent up to the root. */
  function Chain(tasks: seq<Thread>, i: nat): seq<nat>
    requires i < |tasks|
    decreases tasks[i].leader
  {
    match tasks[i].parent
    case None => []
    case Some(p) => if p < |tasks| && tasks[p].leader < tasks[i].leader then [p] + Chain(tasks, p) else []
  }

  /** The chain goes back in time: the leader of every task in it is older than leader and than those before it. */
  predicate Descends(tasks: seq<Thread>, c: seq<nat>, leader: nat) {
    && (forall k :: 0 <= k < |c| ==> c[k] < |tasks| && tasks[c[k]].leader < leader)
    && (forall j, k :: 0 <= j < k < |c| ==> tasks[c[k]].leader < tasks[c[j]].leader)
  }

  lemma DescendsOneMore(tasks: seq<Thread>, c: seq<nat>, p: nat, leader: nat)
    requires p < |tasks| && Descends(tasks, c, tasks[p].leader) && tasks[p].leader < leader
    ensures Descends(tasks, [p] + c, leader)
  {
    var d := [p] + c;
    forall j, k | 0 <= j < k < |d|
      ensures d[k] < |tasks| && d[j] < |tasks| && tasks[d[k]].leader < tasks[d[j]].leader
    {
      assert d[k] == c[k - 1] && (j > 0 ==> d[j] == c[j - 1]);
    }
  }

  /** Every chain goes strictly back in the order in which the groups were made, and ends in the first of them. */
  lemma {:induction false} ChainsEndAtTheRoot(s: State, i: nat)
    requires Inv(s) && Tree(s) && i < |s.tasks|
    ensures Descends(s.tasks, Chain(s.tasks, i), s.tasks[i].leader)
    ensures var c := Chain(s.tasks, i);
            s.tasks[if c == [] then i else c[|c| - 1]].leader == 0
    decreases s.tasks[i].leader
  {
    assert InTree(s.tasks, i);
    if s.tasks[i].parent.Some? {
      var p := s.tasks[i].parent.value;
      ChainsEndAtTheRoot(s, p);
      DescendsOneMore(s.tasks, Chain(s.tasks, p), p, s.tasks[i].leader);
    }
  }

  // ---------- there is an heir ----------

  /** The first init above a task that is not in one. */
  function InitAbove(s: State, k: nat): nat
    requires k < |s.tasks|
    decreases s.tasks[k].leader
  {
    match s.tasks[k].parent
    case None => 0
    case Some(p) =>
      if p < |s.tasks| && s.tasks[p].leader < s.tasks[k].leader && !IsInit(s, s.tasks[p].signal) then InitAbove(s, p)
      else if p < |s.tasks| then s.tasks[p].signal
      else 0
  }

  /** Every running thread of that init may inherit from a task whose own group has none left. */
  lemma {:induction false} InitMayInherit(s: State, k: nat, h: nat)
    requires Inv(s) && Tree(s) && k < |s.tasks| && !IsInit(s, s.tasks[k].signal)
    requires h < |s.tasks| && s.tasks[h].signal == InitAbove(s, k)
    ensures IsInit(s, InitAbove(s, k)) && UpFrom(s, k, h)
    decreases s.tasks[k].leader
  {
    assert InTree(s.tasks, k) && Agree(s.tasks[k], s.tasks[0], k == 0);
    var p := s.tasks[k].parent.value;
    if !IsInit(s, s.tasks[p].signal) {
      InitMayInherit(s, p, h);
    }
  }

  /** So as long as that init lives, a hand-over is never stuck. */
  lemma HandOverIsNeverStuck(s: State, i: nat, h: nat)
    requires Inv(s) && Tree(s) && i < |s.tasks| && s.tasks[i].phase == Exited
    requires !IsInit(s, s.tasks[i].signal) && Members(s.tasks, s.tasks[i].signal, 3) == 0
    requires h < |s.tasks| && s.tasks[h].phase == Running && s.tasks[h].signal == InitAbove(s, i)
    ensures Enabled(s, HandOver(i, h)) && Childless(Next(s, HandOver(i, h)).tasks, i)
  {
    InitMayInherit(s, i, h);
  }

  // ---------- below an init ----------

  /** Task k is a thread of group g or descends from one. */
  predicate Below(tasks: seq<Thread>, g: nat, k: nat)
    requires k < |tasks|
    decreases tasks[k].leader
  {
    tasks[k].signal == g
    || match tasks[k].parent {
         case None => false
         case Some(p) => p < |tasks| && tasks[p].leader < tasks[k].leader && Below(tasks, g, p)
       }
  }

  lemma {:induction false} BelowIsYounger(s: State, g: nat, r: nat, k: nat)
    requires Inv(s) && r < |s.tasks| && s.tasks[r].signal == g
    requires k < |s.tasks| && Below(s.tasks, g, k)
    ensures s.tasks[k].leader >= s.tasks[r].leader
    decreases s.tasks[k].leader
  {
    if s.tasks[k].signal == g {
      assert Agree(s.tasks[k], s.tasks[r], k == r);
    } else {
      BelowIsYounger(s, g, r, s.tasks[k].parent.value);
    }
  }

  /** So an init's own parent is not below it. */
  lemma ParentIsNotBelow(s: State, g: nat, r: nat, q: nat)
    requires Inv(s) && Tree(s) && r < |s.tasks| && s.tasks[r].signal == g
    requires q < |s.tasks| && Below(s.tasks, g, q)
    ensures s.tasks[r].parent != Some(q)
  {
    assert InTree(s.tasks, r);
    BelowIsYounger(s, g, r, q);
  }

  lemma {:induction false} BelowStays(tasks: seq<Thread>, more: seq<Thread>, g: nat, k: nat)
    requires k < |tasks| && SamePlaces(tasks, more) && Below(tasks, g, k)
    ensures Below(more, g, k)
    decreases tasks[k].leader
  {
    assert SamePlace(tasks[k], more[k]);
    if tasks[k].signal != g {
      var p := tasks[k].parent.value;
      assert SamePlace(tasks[p], more[p]);
      BelowStays(tasks, more, g, p);
    }
  }

  /** Threads of one group are below the same inits. */
  lemma MatesAreBelow(s: State, g: nat, j: nat, k: nat)
    requires Inv(s) && Tree(s) && j < |s.tasks| && k < |s.tasks| && s.tasks[j].signal == s.tasks[k].signal
    requires s.tasks[j].Hashed() && s.tasks[k].Hashed() && Below(s.tasks, g, j)
    ensures Below(s.tasks, g, k)
  {
    assert Agree(s.tasks[j], s.tasks[k], j == k);
    assert InTree(s.tasks, j) && InTree(s.tasks, k);
  }

  lemma {:induction false} UpFromStaysBelow(s: State, g: nat, k: nat, h: nat)
    requires Inv(s) && Tree(s) && IsInit(s, g)
    requires k < |s.tasks| && s.tasks[k].Hashed() && s.tasks[k].signal != g && Below(s.tasks, g, k)
    requires h < |s.tasks| && s.tasks[h].Hashed() && UpFrom(s, k, h)
    ensures Below(s.tasks, g, h)
    decreases s.tasks[k].leader
  {
    var p := s.tasks[k].parent.value;
    assert InTree(s.tasks, k);
    if s.tasks[p].signal == s.tasks[h].signal {
      MatesAreBelow(s, g, p, h);
    } else {
      UpFromStaysBelow(s, g, p, h);
    }
  }

  /** Whoever inherits from a task below an init is below that init. */
  lemma HeirIsBelow(s: State, g: nat, i: nat, h: nat)
    requires Inv(s) && Tree(s) && IsInit(s, g) && MayInherit(s, i, h)
    requires s.tasks[i].Hashed() && Below(s.tasks, g, i)
    ensures Below(s.tasks, g, h)
  {
    if s.tasks[h].signal == s.tasks[i].signal {
      MatesAreBelow(s, g, i, h);
    } else {
      UpFromStaysBelow(s, g, i, h);
    }
  }

  /** So nothing leaves the tree below an init when parents change. */
  lemma {:induction false} HandOverStaysBelow(s: State, step: Step, g: nat, k: nat)
    requires Inv(s) && Tree(s) && IsInit(s, g) && step.HandOver? && Enabled(s, step)
    requires k < |s.tasks| && s.tasks[k].Hashed() && Below(s.tasks, g, k)
    ensures Below(Next(s, step).tasks, g, k)
    decreases s.tasks[k].leader
  {
    if s.tasks[k].signal != g {
      assert InTree(s.tasks, k);
      var p := s.tasks[k].parent.value;
      if p == step.i {
        HeirIsNotYounger(s, p, step.heir);
        HeirIsBelow(s, g, p, step.heir);
        HandOverStaysBelow(s, step, g, step.heir);
      } else {
        HandOverStaysBelow(s, step, g, p);
      }
    }
  }

  /** What a task below an init forks is below it too; a new group has its parent below the init. */
  lemma ForkStaysBelow(s: State, step: Step, g: nat)
    requires Inv(s) && Tree(s) && step.Fork? && Enabled(s, step) && IsInit(s, g) && Below(s.tasks, g, step.i)
    ensures var n := Next(s, step);
            var c := n.tasks[|s.tasks|];
            && |n.tasks| == |s.tasks| + 1
            && Below(n.tasks, g, |s.tasks|)
            && (c.signal == |s.signals| ==>
                  c.parent.Some? && c.parent.value < |s.tasks| && Below(s.tasks, g, c.parent.value))
  {
    var n := Next(s, step);
    var t := s.tasks[step.i];
    StepsKeepPlaces(s, step);
    assert InTree(s.tasks, step.i);
    if CopyProcess.CLONE_THREAD in step.args.flags {
      BelowStays(s.tasks, n.tasks, g, step.i);
      if t.signal != g {
        BelowStays(s.tasks, n.tasks, g, t.parent.value);
      }
    } else if CopyProcess.CLONE_PARENT in step.args.flags {
      // an init may not fork siblings, so this one descends from it
      assert t.signal != g;
      BelowStays(s.tasks, n.tasks, g, t.parent.value);
    } else {
      BelowStays(s.tasks, n.tasks, g, step.i);
    }
  }

  lemma StepStaysBelow(s: State, step: Step, g: nat, k: nat)
    requires Inv(s) && Tree(s) && IsInit(s, g) && Enabled(s, step)
    requires k < |s.tasks| && s.tasks[k].Hashed() && Below(s.tasks, g, k)
    ensures |Next(s, step).tasks| >= |s.tasks| && Below(Next(s, step).tasks, g, k)
  {
    if step.HandOver? {
      HandOverStaysBelow(s, step, g, k);
    } else {
      StepsKeepPlaces(s, step);
      BelowStays(s.tasks, Next(s, step).tasks, g, k);
    }
  }

  // ---------- whole runs ----------

  lemma {:induction false} RunKeepsTree(s: State, steps: seq<Step>)
    requires CanRun(s, steps) && Inv(s) && Tree(s)
    ensures Inv(Run(s, steps)) && Tree(Run(s, steps))
    decreases |steps|
  {
    if steps != [] {
      StepKeepsInv(s, steps[0]);
      StepKeepsTree(s, steps[0]);
      RunKeepsTree(Next(s, steps[0]), steps[1..]);
    }
  }

  lemma {:induction false} RunOnlyUnhashes(s: State, steps: seq<Step>, k: nat)
    requires CanRun(s, steps) && k < |s.tasks|
    ensures k < |Run(s, steps).tasks| && (Run(s, steps).tasks[k].Hashed() ==> s.tasks[k].Hashed())
    decreases |steps|
  {
    if steps != [] {
      RunOnlyUnhashes(Next(s, steps[0]), steps[1..], k);
      if Next(s, steps[0]).tasks[k].Hashed() {
        HashedOnlyFalls(s, steps[0], k);
      }
    }
  }

  lemma {:induction false} RunKeepsInit(s: State, steps: seq<Step>, g: nat)
    requires CanRun(s, steps) && IsInit(s, g)
    ensures IsInit(Run(s, steps), g)
    decreases |steps|
  {
    if steps != [] {
      StepKeepsInit(s, steps[0], g);
      RunKeepsInit(Next(s, steps[0]), steps[1..], g);
    }
  }

  /** A task below an init is below it for as long as it is hashed, whoever exits in the meantime. */
  lemma {:induction false} RunStaysBelow(s: State, steps: seq<Step>, g: nat, k: nat)
    requires CanRun(s, steps) && Inv(s) && Tree(s) && IsInit(s, g)
    requires k < |s.tasks| && Below(s.tasks, g, k)
    requires k < |Run(s, steps).tasks| && Run(s, steps).tasks[k].Hashed()
    ensures Below(Run(s, steps).tasks, g, k)
    decreases |steps|
  {
    if steps != [] {
      RunOnlyUnhashes(s, steps, k);
      StepKeepsInv(s, steps[0]);
      StepKeepsTree(s, steps[0]);
      StepKeepsInit(s, steps[0], g);
      StepStaysBelow(s, steps[0], g, k);
      RunStaysBelow(Next(s, steps[0]), steps[1..], g, k);
    }
  }

  lemma BootedIsATree(csignal: nat, cpus: seq<Word>, cpu: nat)
    requires cpu < |cpus| && forall k :: 0 <= k < |cpus| ==> cpus[k] == 0
    ensures Inv(Booted(csignal, cpus, cpu)) && Tree(Booted(csignal, cpus, cpu))
  {
    BootedHolds(csignal, cpus, cpu);
    assert InTree(Booted(csignal, cpus, cpu).tasks, 0);
  }

  /**
   The tree has one root for each init.  After any run from boot, g is the group of an init; after any further
   run, a task that was below it then, or is below it now, forks.  The new task is below the init, and if it
   leads a group of its own, its parent is below the init and is no parent that a thread of the init has now.
   */
  lemma SingleRooted(csignal: nat, cpus: seq<Word>, cpu: nat, first: seq<Step>, later: seq<Step>, step: Step, g: nat)
    requires cpu < |cpus| && forall k :: 0 <= k < |cpus| ==> cpus[k] == 0
    requires CanRun(Booted(csignal, cpus, cpu), first) && CanRun(Run(Booted(csignal, cpus, cpu), first), later)
    requires IsInit(Run(Booted(csignal, cpus, cpu), first), g)
    requires step.Fork? && Enabled(Run(Run(Booted(csignal, cpus, cpu), first), later), step)
    requires var s := Run(Booted(csignal, cpus, cpu), first);
             (step.i < |s.tasks| && Below(s.tasks, g, step.i)) || Below(Run(s, later).tasks, g, step.i)
    ensures var now := Run(Run(Booted(csignal, cpus, cpu), first), later);
            var n := Next(now, step);
            && |n.tasks| == |now.tasks| + 1
            && Below(n.tasks, g, |now.tasks|)
            && (n.tasks[|now.tasks|].leader == |now.tasks| ==>
                  && n.tasks[|now.tasks|].parent.Some?
                  && n.tasks[|now.tasks|].parent.value < |now.tasks|
                  && Below(now.tasks, g, n.tasks[|now.tasks|].parent.value)
                  && forall r :: 0 <= r < |now.tasks| && now.tasks[r].signal == g ==>
                       now.tasks[r].parent != n.tasks[|now.tasks|].parent)
  {
    BootedIsATree(csignal, cpus, cpu);
    var s := Run(Booted(csignal, cpus, cpu), first);
    var now := Run(s, later);
    RunKeepsTree(Booted(csignal, cpus, cpu), first);
    RunKeepsTree(s, later);
    RunKeepsInit(s, later, g);
    if step.i < |s.tasks| && Below(s.tasks, g, step.i) {
      RunStaysBelow(s, later, g, step.i);
    }
    NewGroupStaysBelow(now, step, g);
  }

  /** The last step of it. */
  lemma NewGroupStaysBelow(now: State, step: Step, g: nat)
    requires Inv(now) && Tree(now) && step.Fork? && Enabled(now, step) && IsInit(now, g)
    requires Below(now.tasks, g, step.i)
    ensures var n := Next(now, step);
            && |n.tasks| == |now.tasks| + 1
            && Below(n.tasks, g, |now.tasks|)
            && (n.tasks[|now.tasks|].leader == |now.tasks| ==>
                  && n.tasks[|now.tasks|].parent.Some?
                  && n.tasks[|now.tasks|].parent.value < |now.tasks|
                  && Below(now.tasks, g, n.tasks[|now.tasks|].parent.value)
                  && forall r :: 0 <= r < |now.tasks| && now.tasks[r].signal == g ==>
                       now.tasks[r].parent != n.tasks[|now.tasks|].parent)
  {
    var n := Next(now, step);
    ForkStaysBelow(now, step, g);
    ForkKeepsShape(now, step);
    if n.tasks[|now.tasks|].leader == |now.tasks| {
      var q := n.tasks[|now.tasks|].parent.value;
      forall r | 0 <= r < |now.tasks| && now.tasks[r].signal == g
        ensures now.tasks[r].parent != Some(q)
      {
        ParentIsNotBelow(now, g, r, q);
      }
    }
  }
}
