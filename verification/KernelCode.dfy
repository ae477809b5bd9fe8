/** The kernel's procedures on its objects.  Every procedure names the function of KernelSpec that it
    carries out: when the objects stand for state k before, they stand for that function of k after. */
module KernelCode {
  import opened Entries
  import opened KernelTypes
  import opened KernelSpec
  import opened PlaceInvariant
  import opened Effects
  import opened KernelObjects
  import opened KernelMatch
  import opened KernelLists
  import opened KernelRounds

  /** The static members of Scheduler, Sleep and TCB. */
  class Kernel {
    const scheduler: ReadyQueue
    const sleep: SleepList
    var idle: TCB
    var running: TCB
    var timeSliceCounter: nat

    /** The objects stand for state k. */
    ghost predicate Is(w: World, k: State)
      reads this`idle, this`running, this`timeSliceCounter
      reads scheduler`readyHead, scheduler`readyTail, scheduler`queue, sleep`sleepHead, sleep`queue
      reads w.tcbs`finished, w.tcbs`exitStatus, w.tcbs`numOfActiveChildren, w.tcbs`sleeps, w.tcbs`blockedAtSem,
        w.tcbs`unblockManner, w.tcbs`cont, w.tcbs`message, w.tcbs`nextReady, w.tcbs`nextSleep, w.tcbs`timeSleepRelative,
        w.tcbs`nextSemBlocked, w.tcbs`tokensNeeded
      reads w.sems`value, w.sems`active, w.sems`blockedHead, w.sems`blockedTail, w.sems`queue
    {
      Stands(w, scheduler, sleep, idle, running, timeSliceCounter, k)
    }

    constructor (idle: TCB, running: TCB)
      ensures this.idle == idle && this.running == running && timeSliceCounter == 0
      ensures fresh(scheduler) && fresh(sleep)
      ensures scheduler.Valid() && scheduler.queue == [] && sleep.Valid() && sleep.queue == []
    {
      scheduler := new ReadyQueue();
      sleep := new SleepList();
      this.idle, this.running, timeSliceCounter := idle, running, 0;
    }

    // ---- src/scheduler.cpp

    method SchedPut(tcb: TCB, ghost w: World, ghost k: State)
      requires Is(w, k) && KnownThread(tcb, w.tcbs) && tcb.threadID !in k.ready
      modifies scheduler`readyHead, scheduler`readyTail, scheduler`queue, w.tcbs`nextReady
      ensures Is(w, KernelSpec.SchedPut(k, tcb.threadID))
    {
      MatchAt(w.tcbs, k.threads, w.sems, tcb);
      NumberOf(w.tcbs, k.threads, w.sems, IDLE);
      if tcb == idle { return; }
      PutReady(scheduler, tcb, k.ready, w.tcbs);
    }

    /** The first ready thread, or idle. */
    method SchedGet(ghost w: World, ghost k: State) returns (ret: TCB)
      requires Is(w, k)
      modifies scheduler`readyHead, scheduler`readyTail, scheduler`queue, w.tcbs`nextReady
      ensures At(w.tcbs, KernelSpec.SchedGet(k).running, ret)
      ensures Is(w, KernelSpec.SchedGet(k).(running := k.running))
    {
      var first := GetReady(scheduler, k.ready, w.tcbs);
      ret := if first != null then first else idle;
    }

    // ---- src/tcb.cpp: yield

    /** A thread that could run on goes to the end of the line. */
    method Requeue(put: bool, ghost w: World, ghost k: State)
      requires Is(w, k) && k.running !in k.ready
      modifies scheduler`readyHead, scheduler`readyTail, scheduler`queue, w.tcbs`nextReady
      ensures Is(w, Requeued(k, put))
    {
      NumberOf(w.tcbs, k.threads, w.sems, k.running);
      MatchAt(w.tcbs, k.threads, w.sems, running);
      if !running.finished && running.blockedAtSem == null && !running.sleeps && put {
        SchedPut(running, w, k);
      }
    }

    /** The first ready thread, or idle, runs. */
    method Switch(ghost w: World, ghost k: State)
      requires Is(w, k)
      modifies this`running, this`timeSliceCounter
      modifies scheduler`readyHead, scheduler`readyTail, scheduler`queue, w.tcbs`nextReady
      ensures Is(w, KernelSpec.SchedGet(k).(sliceTicks := 0))
    {
      var next := SchedGet(w, k);
      ghost var k1 := KernelSpec.SchedGet(k);
      Switched(w, scheduler, sleep, idle, running, timeSliceCounter, k1.(running := k.running), next, k1.running);
      running := next;
      timeSliceCounter := 0;
    }

    method Yield(put: bool, ghost w: World, ghost k: State)
      requires Is(w, k) && k.running !in k.ready
      modifies this`running, this`timeSliceCounter
      modifies scheduler`readyHead, scheduler`readyTail, scheduler`queue, w.tcbs`nextReady
      ensures Is(w, KernelSpec.Yield(k, put))
    {
      Requeue(put, w, k);
      Switch(w, Requeued(k, put));
    }

    // ---- src/kSemaphore.cpp: put and get

    method SemPut(sem: Semaphore, tokens: uint64, ghost w: World, ghost k: State)
      requires Is(w, k) && KnownSem(sem, w.sems) && Me(k).blockedAt.None?
      modifies sem`blockedHead, sem`blockedTail, sem`queue
      modifies running`blockedAtSem, running`nextSemBlocked, running`tokensNeeded, sem.queue`nextSemBlocked
      ensures Is(w, KernelSpec.SemPut(k, sem.semID, k.running, tokens))
    {
      NumberOf(w.tcbs, k.threads, w.sems, k.running);
      PutWaiter(sem, running, tokens, w.tcbs, w.sems, k.threads, k.sems);
    }

    /** get(tcb). */
    method SemGet(sem: Semaphore, tcb: TCB, ghost w: World, ghost k: State)
      requires Is(w, k) && KnownSem(sem, w.sems) && KnownThread(tcb, w.tcbs)
      requires Th(k, tcb.threadID).blockedAt == Some(sem.semID) && Has(Sm(k, sem.semID).queue, tcb.threadID)
      modifies sem`blockedHead, sem`blockedTail, sem`queue
      modifies sem.queue`nextSemBlocked, tcb`blockedAtSem, tcb`tokensNeeded
      ensures Is(w, KernelSpec.SemGet(k, sem.semID, tcb.threadID))
    {
      TakeWaiter(sem, tcb, w.tcbs, w.sems, k.threads, k.sems);
    }

    /** get(). */
    method SemGetFirst(sem: Semaphore, ghost w: World, ghost k: State) returns (ret: TCB)
      requires Is(w, k) && KnownSem(sem, w.sems) && sem.blockedHead != null
      modifies sem`blockedHead, sem`blockedTail, sem`queue
      modifies sem.blockedHead`nextSemBlocked, sem.blockedHead`blockedAtSem, sem.blockedHead`tokensNeeded
      ensures Sm(k, sem.semID).queue != [] && KnownThread(ret, w.tcbs) && ret.threadID == Sm(k, sem.semID).queue[0].tid
      ensures Is(w, Unlink(k, sem.semID, 0))
    {
      ret := PopWaiter(sem, w.tcbs, w.sems, k.threads, k.sems);
      assert DropAt(k.sems[sem.semID].queue, 0) == k.sems[sem.semID].queue[1..];
    }

    // ---- src/sleep.cpp: put and get

    method SleepPut(timeout: uint64, ghost w: World, ghost k: State)
      requires Is(w, k) && !Has(k.sleepers, k.running)
      modifies sleep`sleepHead, sleep`queue
      modifies running`timeSleepRelative, running`nextSleep, running`sleeps
      modifies sleep.queue`timeSleepRelative, sleep.queue`nextSleep
      ensures Is(w, KernelSpec.SleepPut(k, k.running, timeout))
    {
      NumberOf(w.tcbs, k.threads, w.sems, k.running);
      PutSleeper(sleep, running, timeout, w.tcbs, w.sems, k.threads, k.sleepers);
    }

    /** get(tcb). */
    method SleepGet(tcb: TCB, ghost w: World, ghost k: State)
      requires Is(w, k) && KnownThread(tcb, w.tcbs) && Th(k, tcb.threadID).sleeps && Has(k.sleepers, tcb.threadID)
      modifies sleep`sleepHead, sleep`queue
      modifies sleep.queue`timeSleepRelative, sleep.queue`nextSleep, tcb`sleeps
      ensures Is(w, KernelSpec.SleepGet(k, tcb.threadID))
    {
      TakeSleeper(sleep, tcb, w.tcbs, w.sems, k.threads, k.sleepers);
    }

    /** get(). */
    method SleepGetFirst(ghost w: World, ghost k: State) returns (ret: TCB)
      requires Is(w, k) && sleep.sleepHead != null
      modifies sleep`sleepHead, sleep`queue
      modifies sleep.queue`timeSleepRelative, sleep.queue`nextSleep, sleep.sleepHead`sleeps
      ensures k.sleepers != [] && KnownThread(ret, w.tcbs) && ret.threadID == k.sleepers[0].tid
      ensures Is(w, SleepUnlink(k, 0))
    {
      ret := PopSleeper(sleep, w.tcbs, w.sems, k.threads, k.sleepers);
    }

    method Mark(tcb: TCB, m: Manner, ghost w: World, ghost k: State)
      requires Is(w, k) && KnownThread(tcb, w.tcbs)
      modifies tcb`unblockManner
      ensures Is(w, WithManner(k, tcb.threadID, m))
    {
      SetManner(tcb, m, w.tcbs, w.sems, k.threads);
    }

    /** What a semaphore's fields say about k. */
    lemma SemSees(sem: Semaphore, w: World, k: State)
      requires Is(w, k) && KnownSem(sem, w.sems)
      ensures sem.semID < |k.sems| && Within(sem.queue, w.tcbs)
      ensures sem.active == Sm(k, sem.semID).active && sem.value == Sm(k, sem.semID).value
      ensures sem.blockedHead == null <==> Sm(k, sem.semID).queue == []
      ensures sem.blockedHead != null ==>
        && KnownThread(sem.blockedHead, w.tcbs)
        && Sm(k, sem.semID).queue[0] == Entry(sem.blockedHead.threadID, sem.blockedHead.tokensNeeded)
    {
      QueueAt(w.sems, k.sems, w.tcbs, sem);
      if sem.blockedHead != null { FirstWaiter(sem, w.tcbs, k.sems[sem.semID]); }
    }

    /** What a thread's fields say about k. */
    lemma ThreadSees(tcb: TCB, w: World, k: State)
      requires Is(w, k) && KnownThread(tcb, w.tcbs)
      ensures tcb.threadID < |k.threads|
      ensures Fixed(tcb, Th(k, tcb.threadID), tcb.threadID, w.tcbs, w.sems) && Matches(tcb, Th(k, tcb.threadID), w.sems)
    {
      MatchAt(w.tcbs, k.threads, w.sems, tcb);
    }

    lemma RunningSees(w: World, k: State)
      requires Is(w, k)
      ensures KnownThread(running, w.tcbs) && running.threadID == k.running < |k.threads|
      ensures Fixed(running, Me(k), k.running, w.tcbs, w.sems) && Matches(running, Me(k), w.sems)
    {
      NumberOf(w.tcbs, k.threads, w.sems, k.running);
      MatchAt(w.tcbs, k.threads, w.sems, running);
    }

    // ---- src/kSemaphore.cpp: signal, signalAll, close

    /** if (tcb->sleeps) Sleep::get(tcb) */
    method EndSleep(tcb: TCB, ghost w: World, ghost k: State, ghost limbo: set<Tid>)
      requires Is(w, k) && KnownThread(tcb, w.tcbs) && Core(k, limbo)
      modifies sleep, w.tcbs
      ensures Is(w, if Th(k, tcb.threadID).sleeps then KernelSpec.SleepGet(k, tcb.threadID) else k)
    {
      ThreadSees(tcb, w, k);
      if tcb.sleeps {
        SleepGetCore(k, tcb.threadID, limbo);
        SleepGet(tcb, w, k);
      }
    }

    method MarkReady(tcb: TCB, m: Manner, ghost w: World, ghost k: State)
      requires Is(w, k) && KnownThread(tcb, w.tcbs) && tcb.threadID !in k.ready
      modifies scheduler, w.tcbs
      ensures Is(w, KernelSpec.SchedPut(WithManner(k, tcb.threadID, m), tcb.threadID))
    {
      Mark(tcb, m, w, k);
      SchedPut(tcb, w, WithManner(k, tcb.threadID, m));
    }

    /** One round of the loops of signal and signalAll. */
    method Release(sem: Semaphore, m: Manner, ghost w: World, ghost k: State, ghost limbo: set<Tid>)
      requires Is(w, k) && KnownSem(sem, w.sems) && sem.blockedHead != null && Core(k, limbo)
      modifies scheduler, sleep, w.tcbs, w.sems
      ensures Is(w, GrantHead(k, sem.semID, m))
    {
      SemSees(sem, w, k);
      UnlinkCore(k, sem.semID, 0, limbo);
      DetachCore(k, sem.semID, limbo);
      ghost var k1 := Unlink(k, sem.semID, 0);
      ghost var limbo1 := if Th(k, sem.blockedHead.threadID).sleeps then limbo else limbo + {sem.blockedHead.threadID};
      var tcb := SemGetFirst(sem, w, k);
      EndSleep(tcb, w, k1, limbo1);
      MarkReady(tcb, m, w, if Th(k1, tcb.threadID).sleeps then KernelSpec.SleepGet(k1, tcb.threadID) else k1);
    }

    method SetSemValue(sem: Semaphore, v: uint64, ghost w: World, ghost k: State)
      requires Is(w, k) && KnownSem(sem, w.sems)
      modifies sem`value
      ensures Is(w, WithValue(k, sem.semID, v))
    {
      SetValue(sem, v, w.tcbs, w.sems, k.sems);
    }

    method Deactivate(sem: Semaphore, ghost w: World, ghost k: State)
      requires Is(w, k) && KnownSem(sem, w.sems)
      modifies sem`active
      ensures Is(w, SetSm(k, sem.semID, Sm(k, sem.semID).(active := false)))
    {
      SetInactive(sem, w.tcbs, w.sems, k.sems);
    }

    /** blockedHead->tokensNeeded -= tokens */
    method ServeFirst(sem: Semaphore, tokens: uint64, ghost w: World, ghost k: State)
      requires Is(w, k) && KnownSem(sem, w.sems) && sem.blockedHead != null && tokens < sem.blockedHead.tokensNeeded
      modifies sem.blockedHead`tokensNeeded
      ensures Sm(k, sem.semID).queue != [] && tokens < Sm(k, sem.semID).queue[0].n
      ensures Is(w, Served(k, sem.semID, tokens))
    {
      SemSees(sem, w, k);
      ServedIs(k, sem.semID, tokens);
      Serve(sem, tokens, w.tcbs, w.sems, k.sems);
    }

    /** One round of the loop of signal: the first waiter gets all it needs. */
    method GrantRound(sem: Semaphore, tokens: uint64, ghost w: World, ghost k: State, ghost limbo: set<Tid>)
      returns (left: uint64, ghost k': State)
      requires Is(w, k) && KnownSem(sem, w.sems) && Core(k, limbo) && sem.blockedHead != null
      requires tokens > 0 && tokens >= sem.blockedHead.tokensNeeded
      modifies scheduler, sleep, w.tcbs, w.sems
      ensures Is(w, k') && SignalsOn(k, sem.semID, tokens, k', left, limbo)
    {
      SemSees(sem, w, k);
      left := tokens - sem.blockedHead.tokensNeeded;
      k' := GrantHead(k, sem.semID, Regular);
      assert SignalsOn(k, sem.semID, tokens, k', left, limbo) by {
        GrantsOn(k, sem.semID, tokens, limbo);
      }
      Release(sem, Regular, w, k, limbo);
    }

    /** The last round: the first waiter gets what is left and still waits. */
    method ServeRound(sem: Semaphore, tokens: uint64, ghost w: World, ghost k: State, ghost limbo: set<Tid>)
      returns (left: uint64, ghost k': State)
      requires Is(w, k) && KnownSem(sem, w.sems) && Core(k, limbo) && sem.blockedHead != null
      requires 0 < tokens < sem.blockedHead.tokensNeeded
      modifies w.tcbs
      ensures Is(w, k') && SignalsOn(k, sem.semID, tokens, k', left, limbo)
    {
      SemSees(sem, w, k);
      left := 0;
      k' := Served(k, sem.semID, tokens);
      assert SignalsOn(k, sem.semID, tokens, k', left, limbo) by {
        ServesOn(k, sem.semID, tokens, limbo);
      }
      ServeFirst(sem, tokens, w, k);
    }

    /** The loop of signal. */
    method HandOut(sem: Semaphore, tokens: uint64, ghost w: World, ghost k: State, ghost limbo: set<Tid>)
      returns (left: uint64, ghost k': State)
      requires Is(w, k) && KnownSem(sem, w.sems) && Core(k, limbo)
      modifies scheduler, sleep, w.tcbs, w.sems
      ensures Is(w, k') && SignalLoop(k', sem.semID, left) == SignalLoop(k, sem.semID, tokens)
      ensures left == 0 || sem.blockedHead == null
    {
      left, k' := tokens, k;
      while sem.blockedHead != null && left > 0
        invariant Is(w, k') && Core(k', limbo)
        invariant SignalLoop(k', sem.semID, left) == SignalLoop(k, sem.semID, tokens)
        decreases |Sm(k', sem.semID).queue|, left
      {
        if left >= sem.blockedHead.tokensNeeded {
          left, k' := GrantRound(sem, left, w, k', limbo);
        } else {
          left, k' := ServeRound(sem, left, w, k', limbo);
        }
      }
    }

    /** value += tokens, when nobody is left to take them */
    method Credit(sem: Semaphore, tokens: uint64, ghost w: World, ghost k: State)
      requires Is(w, k) && KnownSem(sem, w.sems) && (tokens == 0 || sem.blockedHead == null)
      modifies sem`value
      ensures Is(w, SignalLoop(k, sem.semID, tokens))
    {
      SemSees(sem, w, k);
      assert tokens == 0 || Sm(k, sem.semID).queue == [];
      SetSemValue(sem, Wrap(sem.value + tokens), w, k);
    }

    method Signal(sem: Semaphore, tokens: uint64, ghost w: World, ghost k: State, ghost limbo: set<Tid>)
      returns (ret: int)
      requires Is(w, k) && KnownSem(sem, w.sems) && Core(k, limbo)
      modifies scheduler, sleep, w.tcbs, w.sems
      ensures Is(w, KernelSpec.Signal(k, sem.semID, tokens).0) && ret == KernelSpec.Signal(k, sem.semID, tokens).1
    {
      SemSees(sem, w, k);
      if !sem.active { return ERR_SEM_DEAD; }
      var left;
      ghost var k1;
      left, k1 := HandOut(sem, tokens, w, k, limbo);
      Credit(sem, left, w, k1);
      ret := 0;
    }

    /** The loop of signalAll. */
    method FreeAll(sem: Semaphore, m: Manner, ghost w: World, ghost k: State, ghost limbo: set<Tid>)
      returns (ghost k': State)
      requires Is(w, k) && KnownSem(sem, w.sems) && Core(k, limbo)
      modifies scheduler, sleep, w.tcbs, w.sems
      ensures Is(w, k') && k' == ReleaseAll(k, sem.semID, m)
    {
      k' := k;
      while sem.blockedHead != null
        invariant Is(w, k') && Core(k', limbo)
        invariant ReleaseAll(k', sem.semID, m) == ReleaseAll(k, sem.semID, m)
        decreases |Sm(k', sem.semID).queue|
      {
        k' := FreeRound(sem, m, w, k', limbo);
      }
      SemSees(sem, w, k');
    }

    method FreeRound(sem: Semaphore, m: Manner, ghost w: World, ghost k: State, ghost limbo: set<Tid>)
      returns (ghost k': State)
      requires Is(w, k) && KnownSem(sem, w.sems) && Core(k, limbo) && sem.blockedHead != null
      modifies scheduler, sleep, w.tcbs, w.sems
      ensures Is(w, k') && FreesOn(k, sem.semID, m, k', limbo)
    {
      SemSees(sem, w, k);
      k' := GrantHead(k, sem.semID, m);
      assert FreesOn(k, sem.semID, m, k', limbo) by {
        GrantsAll(k, sem.semID, m, limbo);
      }
      Release(sem, m, w, k, limbo);
    }

    method SignalAll(sem: Semaphore, tokens: uint64, onClose: bool, ghost w: World, ghost k: State,
                     ghost limbo: set<Tid>)
      requires Is(w, k) && KnownSem(sem, w.sems) && Core(k, limbo)
      modifies scheduler, sleep, w.tcbs, w.sems
      ensures Is(w, KernelSpec.SignalAll(k, sem.semID, tokens, onClose))
    {
      SemSees(sem, w, k);
      if sem.active {
        ghost var k1 := FreeAll(sem, if onClose then OnClose else Regular, w, k, limbo);
        SetSemValue(sem, tokens, w, k1);
      }
    }

    method Close(sem: Semaphore, ghost w: World, ghost k: State, ghost limbo: set<Tid>) returns (ret: int)
      requires Is(w, k) && KnownSem(sem, w.sems) && Core(k, limbo)
      modifies scheduler, sleep, w.tcbs, w.sems
      ensures Is(w, KernelSpec.Close(k, sem.semID).0) && ret == KernelSpec.Close(k, sem.semID).1
    {
      SemSees(sem, w, k);
      if !sem.active { return ERR_SEM_DEAD; }
      SignalAll(sem, 0, true, w, k, limbo);
      Deactivate(sem, w, KernelSpec.SignalAll(k, sem.semID, 0, true));
      ret := 0;
    }

    // ---- src/kSemaphore.cpp: wait, tryWait, timedWait; src/sleep.cpp: sleep

    /** value -= tokens; unblockManner = REGULAR */
    method Take(sem: Semaphore, tokens: uint64, ghost w: World, ghost k: State)
      requires Is(w, k) && KnownSem(sem, w.sems) && tokens <= sem.value
      modifies sem`value, running`unblockManner
      ensures sem.semID < |k.sems| && Sm(k, sem.semID).value >= tokens && Is(w, KernelSpec.Take(k, sem.semID, tokens))
    {
      SemSees(sem, w, k);
      TakeIs(k, sem.semID, tokens);
      SetSemValue(sem, sem.value - tokens, w, k);
      MarkRunning(Regular, w, WithValue(k, sem.semID, Sm(k, sem.semID).value - tokens));
    }

    method MarkRunning(m: Manner, ghost w: World, ghost k: State)
      requires Is(w, k)
      modifies running`unblockManner
      ensures Is(w, WithManner(k, k.running, m))
    {
      RunningSees(w, k);
      Mark(running, m, w, k);
    }

    /** resolveManner() */
    method Resolve(ghost w: World, ghost k: State) returns (ret: int)
      requires Is(w, k)
      ensures ret == ResolveManner(Me(k).manner)
    {
      RunningSees(w, k);
      ret := ResolveManner(running.unblockManner);
    }

    method EmptySem(sem: Semaphore, ghost w: World, ghost k: State)
      requires Is(w, k) && KnownSem(sem, w.sems) && Me(k).blockedAt.None?
      modifies sem`value
      ensures Is(w, WithValue(k, sem.semID, 0))
      ensures Me(WithValue(k, sem.semID, 0)).blockedAt.None?
    {
      SetSemValue(sem, 0, w, k);
    }

    method EmptyAndPut(sem: Semaphore, missing: uint64, ghost w: World, ghost k: State)
      requires Is(w, k) && KnownSem(sem, w.sems) && Me(k).blockedAt.None?
      modifies sem`value, sem`blockedHead, sem`blockedTail, sem`queue
      modifies running`blockedAtSem, running`nextSemBlocked, running`tokensNeeded, sem.queue`nextSemBlocked
      ensures Is(w, KernelSpec.SemPut(WithValue(k, sem.semID, 0), sem.semID, k.running, missing))
    {
      EmptySem(sem, w, k);
      SemPut(sem, missing, w, WithValue(k, sem.semID, 0));
    }

    /** tokens -= value; value = 0; put(running, tokens) */
    method Absorb(sem: Semaphore, tokens: uint64, ghost w: World, ghost k: State)
      requires Is(w, k) && KnownSem(sem, w.sems) && sem.value < tokens && Me(k).blockedAt.None?
      modifies sem`value, sem`blockedHead, sem`blockedTail, sem`queue
      modifies running`blockedAtSem, running`nextSemBlocked, running`tokensNeeded, sem.queue`nextSemBlocked
      ensures sem.semID < |k.sems| && Sm(k, sem.semID).value < tokens && Is(w, KernelSpec.Absorb(k, sem.semID, tokens))
    {
      SemSees(sem, w, k);
      var missing: uint64 := tokens - sem.value;
      AbsorbIs(k, sem.semID, tokens);
      EmptyAndPut(sem, missing, w, k);
    }

    method Save(c: Cont, ghost w: World, ghost k: State)
      requires Is(w, k)
      modifies running`cont
      ensures Is(w, WithCont(k, c))
    {
      RunningSees(w, k);
      SetCont(running, c, w.tcbs, w.sems, k.threads);
    }

    method Suspend(c: Cont, ghost w: World, ghost k: State)
      requires Is(w, k) && k.running !in k.ready
      modifies this`running, this`timeSliceCounter, scheduler, w.tcbs
      ensures Is(w, KernelSpec.Suspend(k, c))
    {
      RunningSees(w, k);
      Save(c, w, k);
      Yield(false, w, WithCont(k, c));
    }

    /** The branch shared by wait and timedWait when the value suffices. */
    method TakeNow(sem: Semaphore, tokens: uint64, ghost w: World, ghost k: State) returns (ret: int)
      requires Is(w, k) && KnownSem(sem, w.sems) && tokens <= sem.value
      modifies sem`value, running`unblockManner
      ensures sem.semID < |k.sems| && Sm(k, sem.semID).value >= tokens && Is(w, KernelSpec.Take(k, sem.semID, tokens))
      ensures ret == ResolveManner(Regular)
    {
      RunningSees(w, k);
      Take(sem, tokens, w, k);
      TakeIs(k, sem.semID, tokens);
      ret := Resolve(w, KernelSpec.Take(k, sem.semID, tokens));
    }

    /** The branch of wait that cannot take its tokens at once. */
    method WaitInLine(sem: Semaphore, tokens: uint64, why: Why, ghost w: World, ghost k: State)
      requires Is(w, k) && KnownSem(sem, w.sems) && sem.value < tokens
      requires Me(k).blockedAt.None? && k.running !in k.ready
      modifies this`running, this`timeSliceCounter, scheduler, w.tcbs, w.sems
      ensures sem.semID < |k.sems| && Sm(k, sem.semID).value < tokens
      ensures Is(w, KernelSpec.Suspend(KernelSpec.Absorb(k, sem.semID, tokens), Waiting(sem.semID, why)))
    {
      SemSees(sem, w, k);
      RunningSees(w, k);
      Absorb(sem, tokens, w, k);
      Suspend(Waiting(sem.semID, why), w, KernelSpec.Absorb(k, sem.semID, tokens));
    }

    /** None: the caller is suspended. */
    method Wait(sem: Semaphore, tokens: uint64, why: Why, ghost w: World, ghost k: State) returns (ret: Option<int>)
      requires Is(w, k) && KnownSem(sem, w.sems) && Me(k).blockedAt.None? && k.running !in k.ready
      modifies this`running, this`timeSliceCounter, scheduler, w.tcbs, w.sems
      ensures (Is(w, KernelSpec.Wait(k, sem.semID, tokens, why).0))
      ensures ret == KernelSpec.Wait(k, sem.semID, tokens, why).1
    {
      SemSees(sem, w, k);
      RunningSees(w, k);
      if !sem.active { return Some(ERR_SEM_DEAD); }
      if sem.value >= tokens {
        var r := TakeNow(sem, tokens, w, k);
        ret := Some(r);
      } else {
        WaitInLine(sem, tokens, why, w, k);
        ret := None;
      }
    }

    method TryWait(sem: Semaphore, tokens: uint64, ghost w: World, ghost k: State) returns (ret: int)
      requires Is(w, k) && KnownSem(sem, w.sems)
      modifies w.tcbs, w.sems
      ensures Is(w, KernelSpec.TryWait(k, sem.semID, tokens).0) && ret == KernelSpec.TryWait(k, sem.semID, tokens).1
      ensures ret == if !old(sem.active) then ERR_SEM_DEAD else if old(sem.value) >= tokens then 0 else 1
    {
      SemSees(sem, w, k);
      RunningSees(w, k);
      if !sem.active { return ERR_SEM_DEAD; }
      if sem.value >= tokens {
        Take(sem, tokens, w, k);
        ret := 0;
      } else {
        Mark(running, Regular, w, k);
        ret := 1;
      }
    }

    /** blockedAtSem->get(tcb); unblockManner = WAIT_TIMEOUT */
    method GiveUp(tcb: TCB, ghost w: World, ghost k: State)
      requires Is(w, k) && KnownThread(tcb, w.tcbs) && QueuedWhereBlocked(k, tcb.threadID)
      modifies w.tcbs, w.sems
      ensures Is(w, GaveUp(k, tcb.threadID))
    {
      ThreadSees(tcb, w, k);
      if tcb.blockedAtSem != null {
        SemNumber(tcb.blockedAtSem, w, k);
        SemSees(tcb.blockedAtSem, w, k);
        SemGet(tcb.blockedAtSem, tcb, w, k);
        Mark(tcb, WaitTimeout, w, KernelSpec.SemGet(k, Th(k, tcb.threadID).blockedAt.value, tcb.threadID));
      }
    }

    lemma SemNumber(sem: Semaphore, w: World, k: State)
      requires Is(w, k) && sem in w.sems
      ensures KnownSem(sem, w.sems)
    {
      var s: nat :| s < |w.sems| && w.sems[s] == sem;
      assert k.sems[s] == k.sems[s];
    }

    /** Sleep::sleep; None: the caller is suspended. */
    method Sleep(timeout: uint64, c: Cont, ghost w: World, ghost k: State) returns (ret: Option<int>)
      requires Is(w, k) && QueuedWhereBlocked(k, k.running) && k.running !in k.ready && !Has(k.sleepers, k.running)
      modifies this`running, this`timeSliceCounter, scheduler, sleep, w.tcbs, w.sems
      ensures Is(w, KernelSpec.Sleep(k, timeout, c).0) && ret == KernelSpec.Sleep(k, timeout, c).1
    {
      RunningSees(w, k);
      if timeout == 0 {
        GiveUp(running, w, k);
        ret := Some(ERR_SLEEP_ZERO);
      } else {
        SleepPut(timeout, w, k);
        Suspend(c, w, KernelSpec.SleepPut(k, k.running, timeout));
        ret := None;
      }
    }

    /** Sleep::sleep inside timedWait, whose result is not looked at, then resolveManner(). */
    method SleepInWait(timeout: uint64, c: Cont, ghost w: World, ghost k: State) returns (ret: Option<int>)
      requires Is(w, k) && QueuedWhereBlocked(k, k.running) && k.running !in k.ready && !Has(k.sleepers, k.running)
      modifies this`running, this`timeSliceCounter, scheduler, sleep, w.tcbs, w.sems
      ensures var (k1, r) := KernelSpec.Sleep(k, timeout, c);
        Is(w, k1) && ret == if r.Some? then Some(ResolveManner(Me(k1).manner)) else None
    {
      ret := Sleep(timeout, c, w, k);
      if ret.Some? {
        var r := Resolve(w, KernelSpec.Sleep(k, timeout, c).0);
        ret := Some(r);
      }
    }

    /** The branch of timedWait that cannot take its tokens at once. */
    method WaitAtMost(sem: Semaphore, timeout: uint64, tokens: uint64, why: Why, ghost w: World, ghost k: State)
      returns (ret: Option<int>)
      requires Is(w, k) && KnownSem(sem, w.sems) && Steady(k) && k.running != IDLE
      requires sem.active && sem.value < tokens
      modifies this`running, this`timeSliceCounter, scheduler, sleep, w.tcbs, w.sems
      ensures (Is(w, KernelSpec.TimedWait(k, sem.semID, timeout, tokens, why).0))
      ensures ret == KernelSpec.TimedWait(k, sem.semID, timeout, tokens, why).1
    {
      SemSees(sem, w, k);
      TimedWaitIs(k, sem.semID, timeout, tokens, why);
      AbsorbReady(k, sem.semID, tokens);
      ret := AbsorbAndSleep(sem, timeout, tokens, Waiting(sem.semID, why), w, k);
    }

    method AbsorbAndSleep(sem: Semaphore, timeout: uint64, tokens: uint64, c: Cont, ghost w: World, ghost k: State)
      returns (ret: Option<int>)
      requires Is(w, k) && KnownSem(sem, w.sems) && sem.value < tokens && Me(k).blockedAt.None?
      requires Sm(k, sem.semID).value < tokens && AbsorbedReady(KernelSpec.Absorb(k, sem.semID, tokens), k)
      modifies this`running, this`timeSliceCounter, scheduler, sleep, w.tcbs, w.sems
      ensures var (k1, r) := KernelSpec.Sleep(KernelSpec.Absorb(k, sem.semID, tokens), timeout, c);
        Is(w, k1) && ret == if r.Some? then Some(ResolveManner(Me(k1).manner)) else None
    {
      RunningSees(w, k);
      SemSees(sem, w, k);
      Absorb(sem, tokens, w, k);
      ret := SleepInWait(timeout, c, w, KernelSpec.Absorb(k, sem.semID, tokens));
    }

    method TimedWait(sem: Semaphore, timeout: uint64, tokens: uint64, why: Why, ghost w: World, ghost k: State)
      returns (ret: Option<int>)
      requires Is(w, k) && KnownSem(sem, w.sems) && Steady(k) && k.running != IDLE
      modifies this`running, this`timeSliceCounter, scheduler, sleep, w.tcbs, w.sems
      ensures (Is(w, KernelSpec.TimedWait(k, sem.semID, timeout, tokens, why).0))
      ensures ret == KernelSpec.TimedWait(k, sem.semID, timeout, tokens, why).1
    {
      SemSees(sem, w, k);
      if !sem.active { return Some(ERR_SEM_DEAD); }
      if sem.value >= tokens {
        RunningSees(w, k);
        var r := TakeNow(sem, tokens, w, k);
        ret := Some(r);
      } else {
        ret := WaitAtMost(sem, timeout, tokens, why, w, k);
      }
    }

    // ---- src/sleep.cpp: onTick; src/kernel.cpp: the timer branch

    lemma SleepSees(w: World, k: State)
      requires Is(w, k)
      ensures sleep.sleepHead == null <==> k.sleepers == []
      ensures sleep.sleepHead != null ==>
        k.sleepers[0] == Entry(sleep.sleepHead.threadID, sleep.sleepHead.timeSleepRelative)
      ensures sleep.sleepHead != null ==> sleep.sleepHead in w.tcbs && Within(sleep.queue, w.tcbs)
    {
      if sleep.sleepHead != null { assert sleep.sleepHead == sleep.queue[0]; }
    }

    /** One round of the loop of onTick. */
    method ExpireFirst(ghost w: World, ghost k: State, ghost limbo: set<Tid>) returns (ghost k': State)
      requires Is(w, k) && Core(k, limbo) && sleep.sleepHead != null && sleep.sleepHead.timeSleepRelative == 0
      modifies scheduler, sleep, w.tcbs, w.sems
      ensures Is(w, k') && ExpiresOn(k, k', limbo)
    {
      SleepSees(w, k);
      ExpiryParts(k, limbo);
      var tcb := SleepGetFirst(w, k);
      GiveUp(tcb, w, SleepUnlink(k, 0));
      SchedPut(tcb, w, GaveUp(SleepUnlink(k, 0), tcb.threadID));
      k' := ExpireHead(k);
    }

    method CountTick(ghost w: World, ghost k: State)
      requires Is(w, k)
      modifies w.tcbs`timeSleepRelative
      ensures Is(w, DeltasCounted(k))
    {
      CountDown(sleep, w.tcbs, k.sleepers);
    }

    method ExpireAll(ghost w: World, ghost k: State, ghost limbo: set<Tid>)
      requires Is(w, k) && Core(k, limbo)
      modifies scheduler, sleep, w.tcbs, w.sems
      ensures Is(w, ExpireLoop(k))
    {
      ghost var k1 := k;
      while sleep.sleepHead != null && sleep.sleepHead.timeSleepRelative == 0
        invariant Is(w, k1) && Core(k1, limbo) && ExpireLoop(k1) == ExpireLoop(k)
        decreases |k1.sleepers|
      {
        k1 := ExpireFirst(w, k1, limbo);
      }
      SleepSees(w, k1);
    }

    method OnTick(ghost w: World, ghost k: State)
      requires Is(w, k) && Core(k, {k.running}) && NoneDue(k.sleepers)
      modifies scheduler, sleep, w.tcbs, w.sems
      ensures Is(w, KernelSpec.OnTick(k))
    {
      SleepSees(w, k);
      DecrementCore(k, {k.running});
      CountTick(w, k);
      ExpireAll(w, DeltasCounted(k), {k.running});
    }

    method CountSlice(ghost w: World, ghost k: State)
      requires Is(w, k)
      modifies this`timeSliceCounter
      ensures Is(w, SliceCounted(k))
    {
      timeSliceCounter := timeSliceCounter + 1;
    }

    /** A thread whose slice is used up goes to the end of the line. */
    method Preempt(ghost w: World, ghost k: State)
      requires Is(w, k) && k.running !in k.ready
      modifies this`running, this`timeSliceCounter, scheduler, w.tcbs
      ensures Is(w, Preempted(k))
    {
      RunningSees(w, k);
      if timeSliceCounter >= running.timeSlice {
        Yield(true, w, k);
      }
    }

    method CountAndExpire(ghost w: World, ghost k: State) returns (ghost k1: State)
      requires Is(w, k) && Core(k, {k.running}) && NoneDue(k.sleepers)
      modifies this`timeSliceCounter, scheduler, sleep, w.tcbs, w.sems
      ensures k1 == KernelSpec.OnTick(SliceCounted(k))
      ensures Is(w, k1) && k1.running !in k1.ready
    {
      StableTicks(k, k.sliceTicks + 1);
      CountSlice(w, k);
      ghost var k0 := SliceCounted(k);
      OnTick(w, k0);
      k1 := KernelSpec.OnTick(k0);
      assert k1.running !in k1.ready by { TickLeaves(k); }
    }

    method CountExpirePreempt(ghost w: World, ghost k: State)
      requires Is(w, k) && Core(k, {k.running}) && NoneDue(k.sleepers)
      modifies this`running, this`timeSliceCounter, scheduler, sleep, w.tcbs, w.sems
      ensures Is(w, TickStep(k))
    {
      TickIs(k);
      ghost var k1 := CountAndExpire(w, k);
      Preempt(w, k1);
    }

    /** The timer branch; the running thread is switched exactly when its slice is used up. */
    method TimerTick(ghost w: World, ghost k: State)
      requires Is(w, k) && Core(k, {k.running}) && NoneDue(k.sleepers)
      modifies this`running, this`timeSliceCounter, scheduler, sleep, w.tcbs, w.sems
      ensures Is(w, TickStep(k))
      ensures old(timeSliceCounter) + 1 < old(running).timeSlice ==>
        running == old(running) && timeSliceCounter == old(timeSliceCounter) + 1
      ensures old(timeSliceCounter) + 1 >= old(running).timeSlice ==> timeSliceCounter == 0
    {
      RunningSees(w, k);
      TickSlice(k);
      CountExpirePreempt(w, k);
      RunningSees(w, TickStep(k));
    }
  }
}
