/** What thread_create, thread_exit and the timer do, and the state after boot, in the fields of the
    state. */
module ThreadMeaning {
  import opened Entries
  import opened KernelTypes
  import opened SleepSpec
  import opened KernelSpec
  import opened PlaceInvariant
  import opened Effects
  import opened LinkInvariant
  import opened KernelSteps
  import opened SleepTiming
  import opened Releases
  import opened StepMeaning

  ghost predicate Newborn(th: Thread, parent: Tid, slice: nat, m: Sid) {
    th == Thread(Some(parent), false, 0, 0, if slice == 0 then 1 else if slice > 64 then 64 else slice,
                 false, None, Regular, m, m + 1, m + 2, m + 3, None, Run)
  }

  /** A new thread with four semaphores of its own; it is last in line and its creator has a child more. */
  lemma CreateMeans(k: State, slice: nat)
    requires Busy(k) && CallOk(k, CallCreate(slice))
    ensures var (k', r) := Next(k, Sys(CallCreate(slice)));
      var n, m, me := |k.threads|, |k.sems|, Me(k);
      && r == Handle(n)
      && |k'.threads| == n + 1 && Newborn(k'.threads[n], k.running, slice, m)
      && k'.threads == k.threads[k.running := me.(children := me.children + 1)] + [k'.threads[n]]
      && k'.sems == k.sems + [Sem(JoinOf(n), true, 0, []), Sem(JoinAllOf(n), true, 0, []),
                              Sem(SendOf(n), true, 1, []), Sem(ReceiveOf(n), true, 0, [])]
      && k'.ready == k.ready + [n] && k'.running == k.running && k'.sliceTicks == k.sliceTicks
      && k'.bufs == k.bufs && k'.sleepers == k.sleepers
  {
    RunningFree(k);
    CreateEffect(k, slice);
  }

  // ---- exit

  /** The joiners are released as after a signal; then the semaphore is dead. */
  ghost predicate JoinersFreed(k: State, k': State, s: Sid) {
    && s < |k.sems|
    && if k.sems[s].active
       then Released(k, k', k.sems[s].queue, Regular)
         && k'.sems == k.sems[s := k.sems[s].(active := false, value := 0, queue := [])]
       else k' == k
  }

  lemma CloseJoinMeans(k: State)
    requires Busy(k)
    ensures JoinersFreed(k, CloseJoin(k), Me(k).semJoin)
  {
    assert OwnsSems(k, k.running);
    var s := Me(k).semJoin;
    if k.sems[s].active {
      SignalAllCore(k, s, 0, false, {k.running});
      var a := AllReleased(k, s, Regular, {k.running});
      var k1 := SignalAll(k, s, 0, false);
      ReleasedSems(k, a, k1, k.sems[s].queue, Regular);
      CloseMeans(k1, s, {k.running});
      ClosedEmpty(k1, CloseJoin(k), s);
      ReleasedSems(k, k1, CloseJoin(k), k.sems[s].queue, Regular);
    }
  }

  /** Nobody was waiting. */
  lemma ClosedEmpty(k: State, k': State, s: Sid)
    requires Closed(k, k', s) && k.sems[s].active && k.sems[s].queue == [] && k' == Close(k, s).0
    ensures k' == k.(sems := k.sems[s := k.sems[s].(active := false, value := 0)])
  {
  }

  /** The parent has a child less, and gets a token if it is in its joinAll. */
  ghost predicate ParentTold(k: State, k': State) {
    && k.running < |k.threads|
    && match k.threads[k.running].parent
       case None => k' == k
       case Some(p) =>
         && p < |k.threads|
         && var th := k.threads[p];
           if th.finished then k' == k
           else
             var left := if th.children > 0 then th.children - 1 else TWO64 - 1;
             var k1 := k.(threads := k.threads[p := th.(children := left)]);
             if th.blockedAt == Some(th.semJoinAll) then Supplies(k1, k', th.semJoinAll, 1) else k' == k1
  }

  lemma NotifyParentMeans(k: State)
    requires Busy(k)
    ensures ParentTold(k, NotifyParent(k))
  {
    RunningFree(k);
    assert OwnsSems(k, k.running);
    if Me(k).parent.Some? && !Th(k, Me(k).parent.value).finished {
      var p := Me(k).parent.value;
      ParentOlder(k);
      ChildDroppedBusy(k, p);
      assert OwnsSems(k, p);
      SignalMeans(ChildDropped(k, p), Th(k, p).semJoinAll, 1);
    }
  }

  lemma CloseMailMeans(k: State)
    requires Busy(k)
    ensures var k1 := Close(k, Me(k).semSend).0;
      Closed(k, k1, Me(k).semSend) && Closed(k1, CloseMail(k), Me(k).semReceive)
  {
    assert OwnsSems(k, k.running);
    CloseMeans(k, Me(k).semSend, {k.running});
    CloseBusy(k, Me(k).semSend);
    CloseMeans(Close(k, Me(k).semSend).0, Me(k).semReceive, {k.running});
  }

  /** thread_exit: the mailbox is closed, the joiners are freed, the parent is told, semJoinAll is closed;
      then the thread is marked and the next one runs. */
  lemma ExitMeans(k: State, status: int) returns (k1: State, k2: State, k3: State, k4: State, k5: State)
    requires Busy(k)
    ensures k.running < |k.threads|
    ensures var (k', r) := Next(k, Sys(CallExit(status)));
      var me := k.threads[k.running];
      && Closed(k, k1, me.semSend) && Closed(k1, k2, me.semReceive) && JoinersFreed(k2, k3, me.semJoin)
      && ParentTold(k3, k4) && Closed(k4, k5, me.semJoinAll)
      && r == NoReply
      && |k5.threads| == |k.threads|
      && k'.threads == k5.threads[k.running := me.(finished := true, exitStatus := status)]
      && k'.sems == k5.sems && k'.bufs == k5.bufs && k'.sleepers == k5.sleepers
      && Dispatched(k', k5.ready)
  {
    RunningFree(k);
    FinishParts(k);
    k1 := Close(k, Me(k).semSend).0;
    CloseMailMeans(k);
    k2 := CloseMail(k);
    k3 := CloseJoin(k2);
    CloseJoinMeans(k2);
    k4 := NotifyParent(k3);
    NotifyParentMeans(k3);
    k5 := Close(k4, Me(k4).semJoinAll).0;
    assert OwnsSems(k4, k4.running);
    CloseMeans(k4, Me(k4).semJoinAll, {k.running});
    ExitEnds(k, status, k5);
  }

  lemma ExitEnds(k: State, status: int, k5: State)
    requires Busy(k) && Busy(k5) && k5.running == k.running && Me(k5) == Me(k)
    requires Finish(k, status) == Yield(Retire(k5, status), false)
    ensures var k' := Finish(k, status);
      && k'.threads == k5.threads[k.running := Me(k).(finished := true, exitStatus := status)]
      && k'.sems == k5.sems && k'.bufs == k5.bufs && k'.sleepers == k5.sleepers
      && Dispatched(k', k5.ready)
  {
    RetireCore(k5, status);
  }

  // ---- the timer

  ghost predicate DueNow(k: State, t: Tid) {
    t in Deadlines(k.sleepers, 0) && Deadlines(k.sleepers, 0)[t] == 1
  }

  /** The sleepers that are due, in list order, are ready; a waiter among them has left its queue and
      its wait timed out.  Everybody else sleeps one tick less. */
  ghost predicate TimeOn(k: State, k1: State, woken: seq<Tid>) {
    && (forall t: Tid :: t in woken <==> DueNow(k, t))
    && |woken| <= |k.sleepers| && (forall i :: 0 <= i < |woken| ==> woken[i] == k.sleepers[i].tid)
    && |k1.threads| == |k.threads| && k1.bufs == k.bufs
    && (forall u: Tid :: u < |k.threads| ==>
          var th := k.threads[u];
          k1.threads[u] == if !DueNow(k, u) then th
                           else th.(blockedAt := None, sleeps := false,
                                    manner := if th.blockedAt.Some? then WaitTimeout else th.manner))
    && |k1.sems| == |k.sems|
    && (forall s: Sid :: s < |k.sems| ==> TimedOutOf(k, k.sems[s], k1.sems[s]))
    && (forall t: Tid :: t in Deadlines(k1.sleepers, 0) <==> t in Deadlines(k.sleepers, 0) && !DueNow(k, t))
    && (forall t: Tid :: t in Deadlines(k1.sleepers, 0) && t in Deadlines(k.sleepers, 0) ==>
          Deadlines(k1.sleepers, 0)[t] + 1 == Deadlines(k.sleepers, 0)[t])
  }

  /** The waiters that are due have left the queue; the others stand in it as before. */
  ghost predicate TimedOutOf(k: State, x: Sem, x': Sem) {
    && x' == x.(queue := x'.queue)
    && (forall t: Tid :: Has(x'.queue, t) <==> Has(x.queue, t) && !DueNow(k, t))
    && (forall i: nat :: i < |x'.queue| ==> x'.queue[i] in x.queue)
    && (forall a: Tid, b: Tid :: Before(x'.queue, a, b) ==> Before(x.queue, a, b))
  }

  lemma ThreadTimeOn(k: State, u: Tid)
    requires Good(k) && u < |k.threads|
    ensures var k1 := OnTick(k);
      var th := Th(k, u);
      && |k1.threads| == |k.threads|
      && Th(k1, u) == if !DueNow(k, u) then th
                      else th.(blockedAt := None, sleeps := false,
                               manner := if th.blockedAt.Some? then WaitTimeout else th.manner)
  {
    OnTickGood(k);
    TickDeadlines(k);
    AsleepListed(k, u);
    AsleepListed(OnTick(k), u);
    assert Th(OnTick(k), u) == Th(k, u) || Expired(Th(k, u), Th(OnTick(k), u));
  }

  lemma SemTimeOn(k: State, s: Sid)
    requires Good(k) && s < |k.sems|
    ensures |OnTick(k).sems| == |k.sems| && TimedOutOf(k, Sm(k, s), Sm(OnTick(k), s))
  {
    OnTickGood(k);
    var k1 := OnTick(k);
    assert QueueOk(k, s) && QueueOk(k1, s);
    DeadlinesDomain(k.sleepers, 0);
    forall t: Tid
      ensures Has(Sm(k1, s).queue, t) <==> Has(Sm(k, s).queue, t) && !DueNow(k, t)
    {
      if t < |k.threads| { ThreadTimeOn(k, t); }
    }
  }

  lemma TimeMovesOn(k: State)
    requires Good(k)
    ensures TimeOn(k, OnTick(k), WokenIds(k)) && OnTick(k).ready == k.ready + WokenIds(k)
  {
    OnTickGood(k);
    TickDeadlines(k);
    var k1 := OnTick(k);
    DuePrefix(Decrement(k.sleepers));
    forall u: Tid | u < |k.threads|
      ensures var th := k.threads[u];
        k1.threads[u] == if !DueNow(k, u) then th
                         else th.(blockedAt := None, sleeps := false,
                                  manner := if th.blockedAt.Some? then WaitTimeout else th.manner)
    {
      ThreadTimeOn(k, u);
    }
    forall s: Sid | s < |k.sems|
      ensures TimedOutOf(k, k.sems[s], k1.sems[s])
    {
      SemTimeOn(k, s);
    }
  }

  /** A tick: time moves on; then the running thread goes on if its slice has ticks left, and otherwise
      the next in line runs, those just woken and the running thread being last. */
  lemma TickMeans(k: State) returns (woken: seq<Tid>)
    requires Good(k)
    ensures k.running < |k.threads|
    ensures var (k', r) := Next(k, Tick);
      && r == NoReply && TimeOn(k, k', woken)
      && if k.sliceTicks + 1 < k.threads[k.running].slice
         then k'.running == k.running && k'.sliceTicks == k.sliceTicks + 1 && k'.ready == k.ready + woken
         else Dispatched(k', k.ready + woken + if k.running == IDLE then [] else [k.running])
  {
    RunningFree(k);
    var k0 := SliceCounted(k);
    var k1 := TickParts(k);
    TimeMovesOn(k0);
    woken := WokenIds(k0);
    TimeSame(k, k0, k1, woken);
    RunningFree(k1);
    TimeAfter(k, k1, Next(k, Tick).0, woken);
    assert k.ready + woken + [] == k.ready + woken;
  }

  /** The slice counter has no part in it. */
  lemma TimeSame(k: State, k0: State, k1: State, woken: seq<Tid>)
    requires TimeOn(k0, k1, woken) && k0 == k.(sliceTicks := k0.sliceTicks)
    ensures TimeOn(k, k1, woken)
  {
    assert forall t: Tid :: DueNow(k, t) <==> DueNow(k0, t);
    forall s: Sid | s < |k.sems|
      ensures TimedOutOf(k, k.sems[s], k1.sems[s])
    {
      assert TimedOutOf(k0, k0.sems[s], k1.sems[s]);
    }
  }

  lemma TimeAfter(k: State, k1: State, k': State, woken: seq<Tid>)
    requires TimeOn(k, k1, woken) && SameBut(k1, k')
    ensures TimeOn(k, k', woken)
  {
  }

  // ---- boot

  /** Master runs, idle waits outside the ready queue, every other list is empty. */
  lemma BootMeans()
    ensures var k := Init();
      var free := seq(256, _ => '\0');
      && k.threads == [Thread(None, false, 0, 1, 2, false, None, Regular, 0, 1, 2, 3, None, Run),
                       Thread(Some(0), false, 0, 0, 2, false, None, Regular, 4, 5, 6, 7, None, Run)]
      && k.bufs == [Buffer(free, 0, 0, 8, 9, 10), Buffer(free, 0, 0, 11, 12, 13)]
      && k.running == 0 && k.sliceTicks == 0 && k.ready == [] && k.sleepers == []
      && BootSems(k)
  {
    InitSems();
    assert NewBuffer(0, 8).data == seq(256, _ => '\0') && NewBuffer(1, 11).data == seq(256, _ => '\0');
  }
}
