/** src/tcb.cpp: creation and end of a thread, on the kernel's objects. */
module ThreadCode {
  import opened Entries
  import opened KernelTypes
  import opened KernelSpec
  import opened PlaceInvariant
  import opened KernelSteps
  import opened KernelObjects
  import opened KernelMatch
  import opened KernelLists
  import opened KernelRounds
  import opened KernelCode

  /** A thread's semaphores are those whose numbers k records. */
  lemma OwnSems(os: Kernel, tcb: TCB, w: World, k: State)
    requires os.Is(w, k) && KnownThread(tcb, w.tcbs)
    ensures var th := Th(k, tcb.threadID);
      && KnownSem(tcb.semJoin, w.sems) && tcb.semJoin.semID == th.semJoin
      && KnownSem(tcb.semJoinAll, w.sems) && tcb.semJoinAll.semID == th.semJoinAll
      && KnownSem(tcb.semSend, w.sems) && tcb.semSend.semID == th.semSend
      && KnownSem(tcb.semReceive, w.sems) && tcb.semReceive.semID == th.semReceive
  {
    os.ThreadSees(tcb, w, k);
    SemAt(w.sems, k.sems, w.tcbs, Th(k, tcb.threadID).semJoin);
    SemAt(w.sems, k.sems, w.tcbs, Th(k, tcb.threadID).semJoinAll);
    SemAt(w.sems, k.sems, w.tcbs, Th(k, tcb.threadID).semSend);
    SemAt(w.sems, k.sems, w.tcbs, Th(k, tcb.threadID).semReceive);
  }

  method CloseOne(os: Kernel, sem: Semaphore, ghost w: World, ghost k: State) returns (ghost k': State)
    requires os.Is(w, k) && KnownSem(sem, w.sems) && Busy(k)
    modifies os.scheduler, os.sleep, w.tcbs, w.sems
    ensures k' == KernelSpec.Close(k, sem.semID).0
    ensures os.Is(w, k') && Busy(k') && k'.running == k.running && Me(k') == Me(k)
  {
    CloseBusy(k, sem.semID);
    var _ := os.Close(sem, w, k, {k.running});
    k' := KernelSpec.Close(k, sem.semID).0;
  }

  method CloseMail(os: Kernel, ghost w: World, ghost k: State) returns (ghost k': State)
    requires os.Is(w, k) && Busy(k)
    modifies os.scheduler, os.sleep, w.tcbs, w.sems
    ensures k' == KernelSpec.CloseMail(k)
    ensures os.Is(w, k') && Busy(k') && k'.running == k.running && Me(k') == Me(k)
  {
    os.RunningSees(w, k);
    OwnSems(os, os.running, w, k);
    ghost var k1 := CloseOne(os, os.running.semSend, w, k);
    k' := CloseOne(os, os.running.semReceive, w, k1);
  }

  method CloseJoin(os: Kernel, ghost w: World, ghost k: State) returns (ghost k': State)
    requires os.Is(w, k) && Busy(k)
    modifies os.scheduler, os.sleep, w.tcbs, w.sems
    ensures k' == KernelSpec.CloseJoin(k)
    ensures os.Is(w, k') && Busy(k') && k'.running == k.running && Me(k') == Me(k)
  {
    os.RunningSees(w, k);
    OwnSems(os, os.running, w, k);
    SignalAllBusy(k, Me(k).semJoin, 0);
    os.SignalAll(os.running.semJoin, 0, false, w, k, {k.running});
    k' := CloseOne(os, os.running.semJoin, w, KernelSpec.SignalAll(k, Me(k).semJoin, 0, false));
  }

  method CloseJoinAll(os: Kernel, ghost w: World, ghost k: State) returns (ghost k': State)
    requires os.Is(w, k) && Busy(k)
    modifies os.scheduler, os.sleep, w.tcbs, w.sems
    ensures k' == KernelSpec.Close(k, Me(k).semJoinAll).0
    ensures os.Is(w, k') && Busy(k') && k'.running == k.running && Me(k') == Me(k)
  {
    os.RunningSees(w, k);
    OwnSems(os, os.running, w, k);
    k' := CloseOne(os, os.running.semJoinAll, w, k);
  }

  /** The live child count of a thread is one lower. */
  method DropChildOf(os: Kernel, tcb: TCB, ghost w: World, ghost k: State)
    requires os.Is(w, k) && KnownThread(tcb, w.tcbs)
    modifies tcb`numOfActiveChildren
    ensures os.Is(w, ChildDropped(k, tcb.threadID))
  {
    DropChild(tcb, w.tcbs, w.sems, k.threads);
  }

  method NotifyParent(os: Kernel, ghost w: World, ghost k: State) returns (ghost k': State)
    requires os.Is(w, k) && Busy(k)
    modifies os.scheduler, os.sleep, w.tcbs, w.sems
    ensures k' == KernelSpec.NotifyParent(k)
    ensures os.Is(w, k') && Busy(k') && k'.running == k.running && Me(k') == Me(k)
  {
    os.RunningSees(w, k);
    NotifyParentBusy(k);
    k' := KernelSpec.NotifyParent(k);
    var parent := os.running.parent;
    if parent != null {
      NumberOf(w.tcbs, k.threads, w.sems, Me(k).parent.value);
      os.ThreadSees(parent, w, k);
      if !parent.finished {
        NotifyIs(k);
        DropChildOf(os, parent, w, k);
        WakeParent(os, parent, w, ChildDropped(k, parent.threadID));
      }
    }
  }

  /** if (parent->blockedAtSem == parent->semJoinAll) parent->semJoinAll->signal() */
  method WakeParent(os: Kernel, parent: TCB, ghost w: World, ghost k: State)
    requires os.Is(w, k) && KnownThread(parent, w.tcbs) && Core(k, {k.running})
    modifies os.scheduler, os.sleep, w.tcbs, w.sems
    ensures os.Is(w, ParentWoken(k, parent.threadID))
  {
    os.ThreadSees(parent, w, k);
    OwnSems(os, parent, w, k);
    if parent.blockedAtSem == parent.semJoinAll {
      BlockedAt(os, parent, w, k);
      var _ := os.Signal(parent.semJoinAll, 1, w, k, {k.running});
    } else {
      BlockedAt(os, parent, w, k);
    }
  }

  /** Comparing semaphore pointers is comparing semaphore numbers. */
  lemma BlockedAt(os: Kernel, tcb: TCB, w: World, k: State)
    requires os.Is(w, k) && KnownThread(tcb, w.tcbs)
    ensures tcb.blockedAtSem == tcb.semJoinAll
       <==> Th(k, tcb.threadID).blockedAt == Some(Th(k, tcb.threadID).semJoinAll)
  {
    os.ThreadSees(tcb, w, k);
    OwnSems(os, tcb, w, k);
    if Th(k, tcb.threadID).blockedAt.Some? {
      SemAt(w.sems, k.sems, w.tcbs, Th(k, tcb.threadID).blockedAt.value);
    }
  }

  /** if (blockedAtSem) blockedAtSem->get(running) */
  method LeaveSem(os: Kernel, ghost w: World, ghost k: State)
    requires os.Is(w, k) && QueuedWhereBlocked(k, k.running)
    modifies w.tcbs, w.sems
    ensures os.Is(w, LeftSem(k, k.running))
  {
    os.RunningSees(w, k);
    var sem := os.running.blockedAtSem;
    if sem != null {
      SemAt(w.sems, k.sems, w.tcbs, Me(k).blockedAt.value);
      os.SemSees(sem, w, k);
      os.SemGet(sem, os.running, w, k);
    }
  }

  /** if (sleeps) Sleep::get(running) */
  method LeaveSleep(os: Kernel, ghost w: World, ghost k: State)
    requires os.Is(w, k) && (Me(k).sleeps ==> Has(k.sleepers, k.running))
    modifies os.sleep, w.tcbs
    ensures os.Is(w, LeftSleep(k, k.running))
  {
    os.RunningSees(w, k);
    if os.running.sleeps {
      os.SleepGet(os.running, w, k);
    }
  }

  method MarkFinished(os: Kernel, status: int, ghost w: World, ghost k: State)
    requires os.Is(w, k)
    modifies os.running`exitStatus, os.running`finished
    ensures os.Is(w, SetTh(k, k.running, Me(k).(exitStatus := status, finished := true)))
  {
    os.RunningSees(w, k);
    SetFinished(os.running, status, w.tcbs, w.sems, k.threads);
  }

  method Retire(os: Kernel, status: int, ghost w: World, ghost k: State)
    requires os.Is(w, k) && QueuedWhereBlocked(k, k.running) && (Me(k).sleeps ==> Has(k.sleepers, k.running))
    modifies os.sleep, w.tcbs, w.sems
    ensures os.Is(w, KernelSpec.Retire(k, status))
  {
    os.RunningSees(w, k);
    RetireIs(k, status);
    LeaveSem(os, w, k);
    LeaveSleep(os, w, LeftSem(k, k.running));
    MarkFinished(os, status, w, LeftSleep(LeftSem(k, k.running), k.running));
  }

  method Finish(os: Kernel, status: int, ghost w: World, ghost k: State)
    requires os.Is(w, k) && Busy(k)
    modifies os`running, os`timeSliceCounter, os.scheduler, os.sleep, w.tcbs, w.sems
    ensures os.Is(w, KernelSpec.Finish(k, status))
  {
    ghost var k1 := CloseMail(os, w, k);
    ghost var k2 := CloseJoin(os, w, k1);
    ghost var k3 := NotifyParent(os, w, k2);
    ghost var k4 := CloseJoinAll(os, w, k3);
    End(os, status, w, k4);
  }

  method End(os: Kernel, status: int, ghost w: World, ghost k: State)
    requires os.Is(w, k) && Busy(k)
    modifies os`running, os`timeSliceCounter, os.scheduler, os.sleep, w.tcbs, w.sems
    ensures os.Is(w, KernelSpec.Yield(KernelSpec.Retire(k, status), false))
  {
    EndReady(k, status);
    Retire(os, status, w, k);
    os.Yield(false, w, KernelSpec.Retire(k, status));
  }

  // ---- kSemaphoreCreate, threadCreate

  method NewSem(os: Kernel, val: uint64, ghost kind: Kind, w: World, ghost k: State)
    returns (sem: Semaphore, w': World, ghost k': State)
    requires os.Is(w, k)
    ensures fresh(sem) && w' == World(w.tcbs, w.sems + [sem]) && sem.semID == |w.sems|
    ensures k' == SemAppended(k, Sem(kind, true, val, [])) && os.Is(w', k')
  {
    sem := new Semaphore(|w.sems|, val);
    w' := World(w.tcbs, w.sems + [sem]);
    k' := SemAppended(k, Sem(kind, true, val, []));
    SemAdded(w, os.scheduler, os.sleep, os.idle, os.running, os.timeSliceCounter, k, sem, Sem(kind, true, val, []));
  }

  /** The four semaphores of a new thread. */
  method NewSems(os: Kernel, w: World, ghost k: State)
    returns (join: Semaphore, joinAll: Semaphore, send: Semaphore, receive: Semaphore, w': World, ghost k': State)
    requires os.Is(w, k)
    ensures fresh(join) && fresh(joinAll) && fresh(send) && fresh(receive)
    ensures w' == World(w.tcbs, w.sems + [join, joinAll, send, receive])
    ensures k' == k.(sems := k.sems + KernelSpec.NewSems(|k.threads|)) && os.Is(w', k')
  {
    ghost var t := |k.threads|;
    FourSems(k, t);
    join, w', k' := NewSem(os, 0, JoinOf(t), w, k);
    joinAll, w', k' := NewSem(os, 0, JoinAllOf(t), w', k');
    send, w', k' := NewSem(os, 1, SendOf(t), w', k');
    receive, w', k' := NewSem(os, 0, ReceiveOf(t), w', k');
    assert w' == World(w.tcbs, w.sems + [join, joinAll, send, receive]);
  }

  /** The constructor of TCB; memory is what the message buffer happens to hold. */
  method NewTCB(os: Kernel, slice: nat, memory: seq<char>, w: World, ghost k: State) returns (tcb: TCB, w': World)
    requires os.Is(w, k) && |memory| == MSG_LEN + 1
    ensures fresh(tcb) && KnownThread(tcb, w'.tcbs) && w'.tcbs == w.tcbs + [tcb] && tcb.threadID == |k.threads|
    ensures w.sems <= w'.sems && |w'.sems| == |w.sems| + 4 && forall i :: |w.sems| <= i < |w'.sems| ==>
      fresh(w'.sems[i])
    ensures os.Is(w', Born(k, slice))
  {
    os.RunningSees(w, k);
    var join, joinAll, send, receive, w1;
    ghost var k1;
    join, joinAll, send, receive, w1, k1 := NewSems(os, w, k);
    tcb := new TCB(|w.tcbs|, os.running, slice, join, joinAll, send, receive, memory);
    w' := World(w.tcbs + [tcb], w1.sems);
    ThreadAdded(w1, os.scheduler, os.sleep, os.idle, os.running, os.timeSliceCounter, k1,
                tcb, KernelSpec.NewThread(Some(k.running), slice, |k.sems|));
  }

  method CountChild(os: Kernel, ghost w: World, ghost k: State)
    requires os.Is(w, k)
    modifies os.running`numOfActiveChildren
    ensures os.Is(w, SetTh(k, k.running, Me(k).(children := Me(k).children + 1)))
  {
    os.RunningSees(w, k);
    AddChild(os.running, w.tcbs, w.sems, k.threads);
  }

  /** Scheduler::put(tcb); parent->numOfActiveChildren++ */
  method Start(os: Kernel, tcb: TCB, ghost w: World, ghost k: State)
    requires os.Is(w, k) && KnownThread(tcb, w.tcbs) && tcb.threadID !in k.ready
    modifies os.scheduler, w.tcbs
    ensures os.Is(w, Started(k, tcb.threadID))
  {
    os.RunningSees(w, k);
    os.SchedPut(tcb, w, k);
    CountChild(os, w, KernelSpec.SchedPut(k, tcb.threadID));
  }

  method ThreadCreate(os: Kernel, slice: nat, memory: seq<char>, w: World, ghost k: State) returns (tcb: TCB, w': World)
    requires os.Is(w, k) && Steady(k) && |memory| == MSG_LEN + 1
    modifies os.scheduler, w.tcbs
    ensures fresh(tcb) && w'.tcbs == w.tcbs + [tcb] && tcb.threadID == |k.threads|
    ensures w.sems <= w'.sems && |w'.sems| == |w.sems| + 4 && forall i :: |w.sems| <= i < |w'.sems| ==>
      fresh(w'.sems[i])
    ensures os.Is(w', KernelSpec.Create(k, slice))
  {
    CreateIs(k, slice);
    tcb, w' := NewTCB(os, slice, memory, w, k);
    Start(os, tcb, w', Born(k, slice));
  }
}
