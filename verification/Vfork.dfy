/**
 The completion handshake of vfork.  The parent sleeps on a completion that lives in its own stack
 frame; the child signals it when it has let go of the address space; and a fatal signal may end the
 parent's sleep at any moment.  Parent and child are interleaved step by step; a step is what one of them
 does without the other being able to see it half done, and locks are modelled as locks.
 */
module Vfork {
  import opened Wrappers

  datatype Holder = Nobody | Parent | Child

  datatype ParentPc =
    | Forked        // copy_process has returned the child
    | Armed         // vfork_done points at the completion, and the child is pinned
    | Waiting       // the child has been woken
    | Signalled     // the wait has returned 0
    | Killed        // the wait has returned an error
    | KilledLocked  // holding the child's task lock
    | KilledCleared
    | KilledUnlocked
    | Returned      // wait_for_vfork_done has returned and its caller's frame may be gone

  datatype ChildPc =
    | Embryo        // not yet woken
    | Running       // in user space, or anywhere else outside mm_release
    | Checking      // in mm_release: the address space is gone, vfork_done not yet looked at
    | WantsLock     // has seen vfork_done set, without the lock
    | Locked
    | Took          // has cleared vfork_done and keeps the pointer
    | InComplete    // inside complete(), holding the completion's own lock
    | Counted       // has added to done, still holding it
    | LeftComplete
    | Gone          // the task will not run again

  datatype State = State(
    parent: ParentPc,
    child: ChildPc,
    vforkDone: bool,        // child->vfork_done points at the completion
    taskLock: Holder,       // the child's alloc_lock
    waitLock: Holder,       // the completion's own lock
    done: nat,              // the completion's counter
    signals: nat,           // how often it has been signalled in all
    released: bool,         // the child has let go of the address space it was started with
    childRefs: nat,         // references to the child's task structure: its own and its reaper's
    pinned: bool,           // and the parent's
    freed: bool)

  datatype Action =
    // the parent
    | Arm | Wake | SeeDone | SeeKill | LockChild | Clear | UnlockChild | PutChild
    // the child
    | EnterRelease | Look | TakeLock | TakePointer | LockCompletion | CountUp | UnlockCompletion | DropLock
    | Die | PutRef

  const Start := State(Forked, Embryo, false, Nobody, Nobody, 0, 0, false, 2, false, false)

  /** The structure goes with its last reference. */
  function Put(s: State): State {
    s.(freed := s.childRefs == 0 && !s.pinned)
  }

  /** One step, if it can be taken in s. */
  function Step(s: State, a: Action): Option<State> {
    match a
    case Arm =>
      if s.parent == Forked then Some(s.(parent := Armed, vforkDone := true, done := 0, pinned := true)) else None
    case Wake =>
      if s.parent == Armed then Some(s.(parent := Waiting, child := Running)) else None
    case SeeDone =>
      if s.parent == Waiting && s.waitLock == Nobody && s.done > 0 then
        Some(s.(parent := Signalled, done := s.done - 1))
      else None
    case SeeKill =>
      if s.parent == Waiting && s.waitLock == Nobody then Some(s.(parent := Killed)) else None
    case LockChild =>
      if s.parent == Killed && s.taskLock == Nobody then Some(s.(parent := KilledLocked, taskLock := Parent)) else None
    case Clear =>
      if s.parent == KilledLocked then Some(s.(parent := KilledCleared, vforkDone := false)) else None
    case UnlockChild =>
      if s.parent == KilledCleared then Some(s.(parent := KilledUnlocked, taskLock := Nobody)) else None
    case PutChild =>
      if s.parent == Signalled || s.parent == KilledUnlocked then Some(Put(s.(parent := Returned, pinned := false)))
      else None
    case EnterRelease =>
      if s.child == Running then Some(s.(child := Checking, released := true)) else None
    case Look =>
      if s.child == Checking then Some(s.(child := if s.vforkDone then WantsLock else Running)) else None
    case TakeLock =>
      if s.child == WantsLock && s.taskLock == Nobody then Some(s.(child := Locked, taskLock := Child)) else None
    case TakePointer =>
      if s.child == Locked then Some(s.(child := if s.vforkDone then Took else LeftComplete, vforkDone := false))
      else None
    case LockCompletion =>
      if s.child == Took && s.waitLock == Nobody then Some(s.(child := InComplete, waitLock := Child)) else None
    case CountUp =>
      if s.child == InComplete then Some(s.(child := Counted, done := s.done + 1, signals := s.signals + 1)) else None
    case UnlockCompletion =>
      if s.child == Counted then Some(s.(child := LeftComplete, waitLock := Nobody)) else None
    case DropLock =>
      if s.child == LeftComplete then Some(s.(child := Running, taskLock := Nobody)) else None
    case Die =>
      // a task that exits has been through mm_release
      if s.child == Running && s.released then Some(s.(child := Gone)) else None
    case PutRef =>
      if s.child == Gone && s.childRefs > 0 then Some(Put(s.(childRefs := s.childRefs - 1))) else None
  }

  // ---------- what must never happen ----------

  /** The child is about to touch, or is touching, the completion in the parent's frame. */
  predicate TouchesCompletion(s: State) {
    s.child == Took || s.child == InComplete || s.child == Counted
  }

  /** The child is inside mm_release. */
  predicate InRelease(s: State) {
    s.child == Checking || s.child == WantsLock || s.child == Locked || TouchesCompletion(s) || s.child == LeftComplete
  }

  /** The child or the parent is about to touch the child's task structure. */
  predicate TouchesTask(s: State) {
    s.child != Gone || (s.parent != Returned && s.parent != Forked)
  }

  predicate Safe(s: State) {
    && (TouchesCompletion(s) ==> s.parent != Returned)
    && s.signals <= 1
    && (TouchesTask(s) ==> !s.freed)
    && (s.parent == Signalled ==> s.released)
  }

  // ---------- the invariant ----------

  predicate LocksMatch(s: State) {
    && (s.taskLock == Child <==> s.child == Locked || TouchesCompletion(s) || s.child == LeftComplete)
    && (s.taskLock == Parent <==> s.parent == KilledLocked || s.parent == KilledCleared)
    && (s.waitLock == Child <==> s.child == InComplete || s.child == Counted)
    && s.waitLock != Parent
  }

  /** The one unit of signal is where the pointer is, or in done, or has been consumed. */
  predicate OneSignal(s: State) {
    && (s.parent == Forked ==> !s.vforkDone && s.done == 0 && s.signals == 0)
    && (s.vforkDone || s.child == Took || s.child == InComplete ==> s.done == 0 && s.signals == 0)
    && (TouchesCompletion(s) ==> !s.vforkDone && (s.parent == Waiting || s.parent == Killed))
    && s.signals <= 1
    && (s.parent == Waiting || s.parent == Armed ==>
          s.vforkDone || s.child == Took || s.child == InComplete || (s.done == 1 && s.signals == 1))
    && (s.parent == Waiting && s.done > 0 ==> s.signals == 1)
    && (s.signals == 1 || InRelease(s) || s.child == Gone ==> s.released)
    && (s.parent == Signalled ==> s.signals == 1)
    && (s.parent == KilledCleared || s.parent == KilledUnlocked || s.parent == Signalled || s.parent == Returned ==>
          !s.vforkDone)
    // between its visits to mm_release, a child that has been there has left nothing to signal
    && (s.released && s.child == Running ==> !s.vforkDone)
    && (s.child == Gone || s.child == LeftComplete || s.child == Counted ==> !s.vforkDone)
    && (s.parent == Forked || s.parent == Armed <==> s.child == Embryo)
    && (s.child == Embryo ==> !s.released)
  }

  predicate RefsMatch(s: State) {
    && (s.pinned <==> s.parent != Forked && s.parent != Returned)
    && s.childRefs <= 2 && (s.child != Gone ==> s.childRefs == 2)
    && (s.freed <==> s.childRefs == 0 && !s.pinned)
  }

  predicate Inv(s: State) {
    LocksMatch(s) && OneSignal(s) && RefsMatch(s)
  }

  lemma InvIsSafe(s: State)
    requires Inv(s)
    ensures Safe(s)
  {
  }

  lemma StepKeepsLocks(s: State, a: Action)
    requires Inv(s) && Step(s, a).Some?
    ensures LocksMatch(Step(s, a).value)
  {
  }

  lemma StepKeepsSignal(s: State, a: Action)
    requires Inv(s) && Step(s, a).Some?
    ensures OneSignal(Step(s, a).value)
  {
  }

  lemma StepKeepsRefs(s: State, a: Action)
    requires Inv(s) && Step(s, a).Some?
    ensures RefsMatch(Step(s, a).value)
  {
  }

  lemma StepKeepsInv(s: State, a: Action)
    requires Inv(s) && Step(s, a).Some?
    ensures Inv(Step(s, a).value)
  {
    StepKeepsLocks(s, a);
    StepKeepsSignal(s, a);
    StepKeepsRefs(s, a);
  }

  // ---------- every interleaving ----------

  /** actions, in this order and each possible in its turn, lead from s to s'. */
  predicate Run(s: State, actions: seq<Action>, s': State)
    decreases |actions|
  {
    if actions == [] then s' == s
    else Step(s, actions[0]).Some? && Run(Step(s, actions[0]).value, actions[1..], s')
  }

  lemma {:induction false} RunKeepsInv(s: State, actions: seq<Action>, s': State)
    requires Inv(s) && Run(s, actions, s')
    ensures Inv(s')
    decreases |actions|
  {
    if actions != [] {
      StepKeepsInv(s, actions[0]);
      RunKeepsInv(Step(s, actions[0]).value, actions[1..], s');
    }
  }

  /** In every interleaving of parent, child and a kill, nothing forbidden happens. */
  lemma SafeInEveryRun(actions: seq<Action>, s: State)
    requires Run(Start, actions, s)
    ensures Safe(s)
  {
    RunKeepsInv(Start, actions, s);
    InvIsSafe(s);
  }

  /** A parent that returns without having been killed returns after the child has let go of the address space. */
  lemma {:induction false} ReturnWithoutKillMeansReleased(actions: seq<Action>, s: State)
    requires Run(Start, actions, s) && s.parent == Returned && SeeKill !in actions
    ensures s.released && s.signals == 1 && s.done == 0
  {
    NotKilled(Start, actions, s);
  }

  predicate UnkilledSoFar(s: State) {
    && s.parent != Killed && s.parent != KilledLocked && s.parent != KilledCleared && s.parent != KilledUnlocked
    && (s.parent == Returned || s.parent == Signalled ==> s.released && s.signals == 1 && s.done == 0)
  }

  lemma {:induction false} NotKilled(s: State, actions: seq<Action>, s': State)
    requires Inv(s) && UnkilledSoFar(s) && Run(s, actions, s') && SeeKill !in actions
    ensures UnkilledSoFar(s')
    decreases |actions|
  {
    if actions != [] {
      StepKeepsInv(s, actions[0]);
      NotKilled(Step(s, actions[0]).value, actions[1..], s');
    }
  }

  /** Who moves next when the parent's sleep is not cut short: the parent if it can, else the child. */
  function NextMove(s: State): Action {
    match s.parent
    case Forked => Arm
    case Armed => Wake
    case Signalled => PutChild
    case KilledLocked => Clear
    case KilledCleared => UnlockChild
    case KilledUnlocked => PutChild
    case _ => if InRelease(s) then ChildMove(s) else if s.parent == Killed then LockChild else SeeDone
  }

  /** What the child does next inside mm_release; outside, the exits that are left to it. */
  function ChildMove(s: State): Action {
    match s.child
    case Checking => Look
    case WantsLock => TakeLock
    case Locked => TakePointer
    case Took => LockCompletion
    case InComplete => CountUp
    case Counted => UnlockCompletion
    case LeftComplete => DropLock
    case Gone => PutRef
    case _ => if s.released then Die else EnterRelease
  }

  /**
   No wakeup is lost: until the parent has returned, the next move is possible, unless the parent waits for
   a child that still runs on the borrowed address space.
   */
  lemma NeverStuck(actions: seq<Action>, s: State)
    requires Run(Start, actions, s) && s.parent != Returned
    requires !(s.parent == Waiting && s.child == Running && !s.released)
    ensures Step(s, NextMove(s)).Some?
  {
    RunKeepsInv(Start, actions, s);
    MoveIsPossible(s);
  }

  lemma MoveIsPossible(s: State)
    requires Inv(s) && s.parent != Returned
    requires !(s.parent == Waiting && s.child == Running && !s.released)
    ensures Step(s, NextMove(s)).Some?
  {
  }

  /** How many moves the parent has left at most, */
  function ParentLeft(p: ParentPc): nat {
    match p
    case Forked => 7
    case Armed => 6
    case Waiting => 5
    case Killed => 4
    case KilledLocked => 3
    case KilledCleared => 2
    case KilledUnlocked => 1
    case Signalled => 1
    case Returned => 0
  }

  /** and the child, inside mm_release. */
  function ChildLeft(c: ChildPc): nat {
    match c
    case Checking => 7
    case WantsLock => 6
    case Locked => 5
    case Took => 4
    case InComplete => 3
    case Counted => 2
    case LeftComplete => 1
    case _ => 0
  }

  function Distance(s: State): nat {
    ParentLeft(s.parent) + ChildLeft(s.child)
  }

  lemma ChildGetsCloser(s: State)
    requires (s.parent == Waiting || s.parent == Killed) && InRelease(s) && Step(s, NextMove(s)).Some?
    ensures Distance(Step(s, NextMove(s)).value) < Distance(s)
  {
  }

  lemma ParentGetsCloser(s: State)
    requires s.parent != Returned && Step(s, NextMove(s)).Some?
    requires s.parent == Waiting || s.parent == Killed ==> !InRelease(s)
    ensures Distance(Step(s, NextMove(s)).value) < Distance(s)
  {
  }

  /** Every such move brings the parent's return closer. */
  lemma NextMoveGetsCloser(s: State)
    requires s.parent != Returned && Step(s, NextMove(s)).Some?
    ensures Distance(Step(s, NextMove(s)).value) < Distance(s)
  {
    if (s.parent == Waiting || s.parent == Killed) && InRelease(s) {
      ChildGetsCloser(s);
    } else {
      ParentGetsCloser(s);
    }
  }

  // ---------- what can always still happen ----------

  /** The first of the actions, then the others. */
  lemma RunOneMore(s: State, a: Action, more: seq<Action>, s': State)
    requires Step(s, a).Some? && Run(Step(s, a).value, more, s')
    ensures Run(s, [a] + more, s')
  {
    assert ([a] + more)[1..] == more;
  }

  predicate SawKill(s: State) {
    s.parent == Killed || s.parent == KilledLocked || s.parent == KilledCleared || s.parent == KilledUnlocked
  }

  /** The parent's way out once its sleep has been cut short; a child in user space stays there. */
  lemma {:induction false} KilledReturns(s: State) returns (more: seq<Action>, s': State)
    requires Inv(s) && (SawKill(s) || s.parent == Returned)
    ensures Run(s, more, s') && s'.parent == Returned
    ensures s.child == Running ==> s'.child == Running && s'.released == s.released
    decreases Distance(s)
  {
    if s.parent == Returned {
      more, s' := [], s;
    } else {
      MoveIsPossible(s);
      NextMoveGetsCloser(s);
      StepKeepsInv(s, NextMove(s));
      more, s' := KilledReturns(Step(s, NextMove(s)).value);
      RunOneMore(s, NextMove(s), more, s');
      more := [NextMove(s)] + more;
    }
  }

  lemma {:induction false} WaitingMayBeKilled(s: State) returns (more: seq<Action>, s': State)
    requires Inv(s) && s.parent == Waiting
    ensures Run(s, more, s') && SeeKill in more && s'.parent == Returned
    ensures s.child == Running && !s.released ==> s'.child == Running && !s'.released
    decreases ChildLeft(s.child)
  {
    // the completion's own lock is held for two steps at most
    var a := if s.waitLock == Nobody then SeeKill else ChildMove(s);
    StepKeepsInv(s, a);
    if a == SeeKill {
      more, s' := KilledReturns(Step(s, a).value);
    } else {
      more, s' := WaitingMayBeKilled(Step(s, a).value);
    }
    RunOneMore(s, a, more, s');
    more := [a] + more;
  }

  /**
   Whenever the parent waits, in whatever interleaving, a kill can end its sleep and it can return, without the
   child having to let go of the address space.
   */
  lemma KillEndsTheSleep(actions: seq<Action>, s: State) returns (more: seq<Action>, s': State)
    requires Run(Start, actions, s) && s.parent == Waiting
    ensures Run(s, more, s') && SeeKill in more && s'.parent == Returned
    ensures s.child == Running && !s.released ==> s'.child == Running && !s'.released
  {
    RunKeepsInv(Start, actions, s);
    more, s' := WaitingMayBeKilled(s);
  }

  function MovesLeft(s: State): nat {
    Distance(s) + if s.released then 0 else 20
  }

  lemma {:induction false} UnkilledReturns(s: State) returns (more: seq<Action>, s': State)
    requires Inv(s)
    ensures Run(s, more, s') && SeeKill !in more && s'.parent == Returned
    ensures UnkilledSoFar(s) ==> s'.released && s'.signals == 1 && s'.done == 0
    decreases MovesLeft(s)
  {
    if s.parent == Returned {
      more, s' := [], s;
    } else {
      var a := if s.parent == Waiting && s.child == Running && !s.released then EnterRelease else NextMove(s);
      if a == NextMove(s) {
        MoveIsPossible(s);
        NextMoveGetsCloser(s);
      }
      StepKeepsInv(s, a);
      UnkilledStep(s, a);
      more, s' := UnkilledReturns(Step(s, a).value);
      RunOneMore(s, a, more, s');
      more := [a] + more;
    }
  }

  /** One step of NotKilled, which also never takes the address space back. */
  lemma UnkilledStep(s: State, a: Action)
    requires Inv(s) && Step(s, a).Some? && a != SeeKill
    ensures UnkilledSoFar(s) ==> UnkilledSoFar(Step(s, a).value)
    ensures s.released ==> Step(s, a).value.released
  {
  }

  /** And without a kill, too, every interleaving can go on until the parent returns, the child having let go. */
  lemma SleepCanEndWithoutKill(actions: seq<Action>, s: State) returns (more: seq<Action>, s': State)
    requires Run(Start, actions, s)
    ensures Run(s, more, s') && SeeKill !in more && s'.parent == Returned
    ensures SeeKill !in actions ==> s'.released && s'.signals == 1 && s'.done == 0
  {
    RunKeepsInv(Start, actions, s);
    if SeeKill !in actions {
      NotKilled(Start, actions, s);
    }
    more, s' := UnkilledReturns(s);
  }

  /** How many steps the child is from its end, once the parent has returned. */
  function StepsToTheEnd(s: State): nat {
    ChildLeft(s.child) + s.childRefs + (if s.released then 0 else 20) + (if s.child == Gone then 0 else 1)
  }

  /** The child's task structure can always be freed in the end. */
  lemma {:induction false} TaskCanBeFreed(s: State) returns (more: seq<Action>, s': State)
    requires Inv(s) && s.parent == Returned
    ensures Run(s, more, s') && s'.freed
    decreases StepsToTheEnd(s)
  {
    if s.freed {
      more, s' := [], s;
    } else {
      StepKeepsInv(s, ChildMove(s));
      more, s' := TaskCanBeFreed(Step(s, ChildMove(s)).value);
      RunOneMore(s, ChildMove(s), more, s');
      more := [ChildMove(s)] + more;
    }
  }
}
