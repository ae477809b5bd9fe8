/** What one step does to everybody but the thread that takes it: who is dispatched next, who is
    woken and why, and in which order the others keep waiting. */
module StepEffects {
  import opened Entries
  import opened KernelTypes
  import opened SleepSpec
  import opened KernelSpec
  import opened PlaceInvariant
  import opened Effects
  import opened LinkInvariant
  import opened KernelSteps

  /** Slices never change, a new thread's slice is clamped, and nobody rises from the dead. */
  ghost predicate SlicesKept(k: State, k': State) {
    && |k.threads| <= |k'.threads| && |k'.bufs| == |k.bufs|
    && (forall t: Tid :: t < |k.threads| ==>
          Th(k', t).slice == Th(k, t).slice && (Th(k, t).finished ==> Th(k', t).finished))
    && (forall t: Tid :: |k.threads| <= t < |k'.threads| ==> 1 <= Th(k', t).slice <= MAX_TIME_SLICE)
  }

  /** Nobody was dispatched; the ready queue grew at its end. */
  ghost predicate SameTurn(k: State, k': State) {
    && SlicesKept(k, k')
    && k'.running == k.running && k'.sliceTicks == k.sliceTicks && k.ready <= k'.ready
  }

  /** The first ready thread was dispatched; the queue may have grown at its end. */
  ghost predicate NextTurn(k: State, k': State) {
    && SlicesKept(k, k')
    && k'.sliceTicks == 0 && k'.running < |k'.threads|
    && (k.ready != [] ==> k'.running == k.ready[0] && k.ready[1..] <= k'.ready)
  }

  /** Thread u was left waiting as it was, or it was taken off its queue: normally, or because the
      semaphore was closed. */
  ghost predicate Calm(k: State, k': State, u: Tid) {
    var a, b := Th(k, u), Th(k', u);
    && b.cont == a.cont
    && (|| (b.blockedAt == a.blockedAt && b.sleeps == a.sleeps && b.manner == a.manner)
        || (&& a.blockedAt.Some? && b.blockedAt.None? && !b.sleeps
            && (b.manner == Regular
                || (b.manner == OnClose && Sm(k, a.blockedAt.value).active && !Sm(k', a.blockedAt.value).active))))
  }

  function WithoutLast(q: seq<Entry>, me: Tid): seq<Entry> {
    if q != [] && q[|q| - 1].tid == me then q[..|q| - 1] else q
  }

  /** Waiters left from the front only; `me` may have queued up at the back. */
  ghost predicate SemStory(x: Sem, x': Sem, me: Tid) {
    && x'.kind == x.kind
    && (x'.active ==> x.active)
    && Suffix(x.queue, WithoutLast(x'.queue, me))
  }

  ghost predicate Undisturbed(k: State, k': State) {
    && |k.threads| <= |k'.threads| && |k.sems| <= |k'.sems|
    && (forall u: Tid :: u < |k.threads| && u != k.running ==> Calm(k, k', u))
    && (forall s: Sid :: s < |k.sems| ==> SemStory(Sm(k, s), Sm(k', s), k.running))
    && OthersKept(k.sleepers, k'.sleepers, {k.running})
  }

  ghost predicate Stays(k: State, k': State) {
    SameTurn(k, k') && Undisturbed(k, k')
  }

  ghost predicate Switches(k: State, k': State) {
    NextTurn(k, k') && Undisturbed(k, k')
  }

  ghost predicate Fair(k: State, k': State) {
    Stays(k, k') || Switches(k, k')
  }

  /** The running thread stands in no queue. */
  lemma NotQueued(k: State, s: Sid)
    requires Steady(k) && s < |k.sems|
    ensures WithoutLast(Sm(k, s).queue, k.running) == Sm(k, s).queue
  {
    RunningFree(k);
    assert QueueOk(k, s);
    var q := Sm(k, s).queue;
    if q != [] { assert Has(q, q[|q| - 1].tid); }
  }

  lemma UndisturbedThen(k: State, k1: State, k2: State)
    requires Steady(k) && Steady(k1) && k1.running == k.running
    requires Undisturbed(k, k1) && Undisturbed(k1, k2)
    ensures Undisturbed(k, k2)
  {
    forall u: Tid | u < |k.threads| && u != k.running
      ensures Calm(k, k2, u)
    {
      assert Calm(k, k1, u) && Calm(k1, k2, u) && ThreadOk(k, u, {k.running});
      if Th(k, u).blockedAt.Some? {
        var s := Th(k, u).blockedAt.value;
        assert SemStory(Sm(k, s), Sm(k1, s), k.running) && SemStory(Sm(k1, s), Sm(k2, s), k.running);
      }
    }
    forall s: Sid | s < |k.sems|
      ensures SemStory(Sm(k, s), Sm(k2, s), k.running)
    {
      assert SemStory(Sm(k, s), Sm(k1, s), k.running) && SemStory(Sm(k1, s), Sm(k2, s), k.running);
      NotQueued(k1, s);
    }
    OthersKeptThen(k.sleepers, k1.sleepers, k2.sleepers, {k.running});
  }

  lemma StaysThen(k: State, k1: State, k2: State)
    requires Steady(k) && Steady(k1) && Stays(k, k1) && Fair(k1, k2)
    ensures Fair(k, k2) && (Stays(k1, k2) ==> Stays(k, k2))
  {
    UndisturbedThen(k, k1, k2);
    forall t: Tid | |k.threads| <= t < |k2.threads|
      ensures 1 <= Th(k2, t).slice <= MAX_TIME_SLICE
    {
      if t < |k1.threads| { assert 1 <= Th(k1, t).slice <= MAX_TIME_SLICE; }
    }
    if NextTurn(k1, k2) && k.ready != [] {
      assert k1.ready[0] == k.ready[0];
      assert k.ready[1..] <= k1.ready[1..];
    }
  }

  /** Threads, semaphores and sleepers are the same, but for fields that Undisturbed ignores. */
  lemma SameUndisturbed(k: State, k': State)
    requires Steady(k) && |k'.threads| == |k.threads| && |k'.sems| == |k.sems| && k'.sleepers == k.sleepers
    requires forall u: Tid :: u < |k.threads| && u != k.running ==>
      && Th(k', u).cont == Th(k, u).cont && Th(k', u).blockedAt == Th(k, u).blockedAt
      && Th(k', u).sleeps == Th(k, u).sleeps && Th(k', u).manner == Th(k, u).manner
    requires forall s: Sid :: s < |k.sems| ==>
      Sm(k', s).kind == Sm(k, s).kind && Sm(k', s).queue == Sm(k, s).queue && (Sm(k', s).active ==> Sm(k, s).active)
    ensures Undisturbed(k, k')
  {
    forall s: Sid | s < |k.sems|
      ensures SemStory(Sm(k, s), Sm(k', s), k.running)
    {
      NotQueued(k, s);
    }
  }

  lemma WakesAtStays(k: State, k': State, s: Sid, m: Manner)
    requires Steady(k) && WakesAt(k, k', s, m) && (Sm(k', s).active ==> Sm(k, s).active)
    requires m == Regular || (m == OnClose && (Sm(k, s).active ==> !Sm(k', s).active))
    ensures Stays(k, k')
  {
    forall u: Tid | u < |k.threads|
      ensures Th(k', u).slice == Th(k, u).slice && Th(k', u).finished == Th(k, u).finished
      ensures u != k.running ==> Calm(k, k', u)
    {
      assert ThreadOk(k, u, {k.running});
      assert Th(k', u) == Th(k, u) || (Th(k, u).blockedAt == Some(s) && Woken(Th(k, u), Th(k', u), m));
      if Th(k, u).blockedAt == Some(s) {
        assert QueueOk(k, s);
        assert Has(Sm(k, s).queue, u);
      }
    }
    forall x: Sid | x < |k.sems|
      ensures SemStory(Sm(k, x), Sm(k', x), k.running)
    {
      NotQueued(k, x);
      var q, q' := Sm(k, x).queue, Sm(k', x).queue;
      if x == s && q' != [] {
        assert q'[|q'| - 1].tid == q[|q| - 1].tid;
        RunningFree(k);
        assert QueueOk(k, s);
        assert Has(q, q[|q| - 1].tid);
      }
    }
  }

  lemma SignalStays(k: State, s: Sid, tokens: nat)
    requires Busy(k) && tokens < TWO64
    ensures Stays(k, Signal(k, s, tokens).0)
  {
    SignalWakes(k, s, tokens, {k.running});
    WakesAtStays(k, Signal(k, s, tokens).0, s, Regular);
  }

  lemma CloseStays(k: State, s: Sid)
    requires Busy(k)
    ensures Stays(k, Close(k, s).0)
  {
    CloseWakes(k, s, {k.running});
    WakesAtStays(k, Close(k, s).0, s, OnClose);
  }

  /** A yield of a thread that was put down, after its own record changed. */
  lemma YieldSwitches(k: State, k1: State, put: bool)
    requires |k1.threads| == |k.threads| && SlicesKept(k, k1) && k1.ready == k.ready && Undisturbed(k, k1)
    requires IDLE < |k.threads| && (forall t :: t in k.ready ==> t < |k.threads|) && k1.running < |k.threads|
    ensures Switches(k, Yield(k1, put))
  {
    var me := Me(k1);
    var k2 := if !me.finished && me.blockedAt.None? && !me.sleeps && put then SchedPut(k1, k1.running) else k1;
    if k.ready != [] {
      assert k2.ready[0] == k.ready[0];
      assert k.ready[1..] <= k2.ready[1..];
      assert k.ready[0] in k.ready;
    }
    var k' := Yield(k1, put);
    assert forall u: Tid :: Th(k', u) == Th(k1, u);
    assert forall s: Sid :: Sm(k', s) == Sm(k1, s);
    forall u: Tid | u < |k.threads| && u != k.running
      ensures Calm(k, k', u)
    {
      assert Calm(k, k1, u);
    }
  }

  lemma ReadyInRange(k: State, limbo: set<Tid>)
    requires Core(k, limbo)
    ensures forall t :: t in k.ready ==> t < |k.threads|
  {
    forall t | t in k.ready
      ensures t < |k.threads|
    {
      assert Runnable(k, t);
    }
  }

  /** The caller has queued up at s; nobody else has moved. */
  lemma AbsorbUndisturbed(k: State, s: Sid, tokens: nat, k1: State)
    requires Busy(k) && Sm(k, s).active && Sm(k, s).value < tokens
    requires |k1.threads| == |k.threads| && forall u: Tid :: u != k.running ==> Th(k1, u) == Th(k, u)
    requires var x := Sm(k, s);
      k1.sems == k.sems[s := x.(value := 0, queue := x.queue + [Entry(k.running, tokens - x.value)])]
    requires OthersKept(k.sleepers, k1.sleepers, {k.running})
    ensures Undisturbed(k, k1)
  {
    forall x: Sid | x < |k.sems|
      ensures SemStory(Sm(k, x), Sm(k1, x), k.running)
    {
      NotQueued(k, x);
    }
  }

  lemma WaitFair(k: State, s: Sid, tokens: nat, why: Why)
    requires Busy(k)
    ensures var (k', w) := Wait(k, s, tokens, why);
      if w.Some? then Stays(k, k') else Switches(k, k')
  {
    WaitEffect(k, s, tokens, why);
    ReadyInRange(k, {k.running});
    if Sm(k, s).active && Sm(k, s).value < tokens {
      AbsorbCore(k, s, tokens);
      var a := Absorb(k, s, tokens);
      var k1 := SetTh(a, a.running, Me(a).(cont := Waiting(s, why)));
      AbsorbUndisturbed(k, s, tokens, k1);
      YieldSwitches(k, k1, false);
    } else {
      SameUndisturbed(k, Wait(k, s, tokens, why).0);
    }
  }

  lemma SleeperAbsent(k: State)
    requires Steady(k)
    ensures !Has(k.sleepers, k.running)
  {
    RunningFree(k);
  }

  lemma TimedWaitSwitches(k: State, s: Sid, timeout: nat, tokens: nat, why: Why)
    requires Busy(k) && Sm(k, s).active && Sm(k, s).value < tokens && timeout > 0
    ensures Switches(k, TimedWait(k, s, timeout, tokens, why).0)
  {
    ReadyInRange(k, {k.running});
    RunningFree(k);
    AbsorbCore(k, s, tokens);
    var a := SleepPut(Absorb(k, s, tokens), k.running, timeout);
    var k1 := SetTh(a, a.running, Me(a).(cont := Waiting(s, why)));
    SleeperAbsent(k);
    InsertKeepsOthers(k.sleepers, k.running, timeout);
    AbsorbUndisturbed(k, s, tokens, k1);
    YieldSwitches(k, k1, false);
  }

  /** The caller took tokens, or gave up. */
  lemma ManneredStays(k: State, s: Sid, v: nat, m: Manner)
    requires Busy(k) && s < |k.sems|
    ensures Stays(k, k.(threads := k.threads[k.running := Me(k).(manner := m)],
                        sems := k.sems[s := Sm(k, s).(value := v)]))
  {
    RunningFree(k);
    SameUndisturbed(k, k.(threads := k.threads[k.running := Me(k).(manner := m)],
                          sems := k.sems[s := Sm(k, s).(value := v)]));
  }

  lemma TimedWaitFair(k: State, s: Sid, timeout: nat, tokens: nat, why: Why)
    requires Busy(k)
    ensures Fair(k, TimedWait(k, s, timeout, tokens, why).0)
  {
    var x := Sm(k, s);
    if !x.active {
      SameUndisturbed(k, k);
    } else if x.value < tokens && timeout > 0 {
      TimedWaitSwitches(k, s, timeout, tokens, why);
    } else {
      TimedWaitEffect(k, s, timeout, tokens, why);
      if x.value >= tokens {
        ManneredStays(k, s, x.value - tokens, Regular);
      } else {
        ManneredStays(k, s, 0, WaitTimeout);
      }
    }
  }

  lemma SleepFair(k: State, timeout: nat)
    requires Busy(k)
    ensures Fair(k, Sleep(k, timeout, Sleeping).0)
  {
    SleepEffect(k, timeout);
    ReadyInRange(k, {k.running});
    if timeout > 0 {
      var a := SleepPut(k, k.running, timeout);
      var k1 := SetTh(a, a.running, Me(a).(cont := Sleeping));
      SleeperAbsent(k);
      InsertKeepsOthers(k.sleepers, k.running, timeout);
      SameUndisturbed(k, k1.(sleepers := k.sleepers));
      YieldSwitches(k, k1, false);
    } else {
      SameUndisturbed(k, k);
    }
  }

  // ---- chained handlers

  lemma SendBodyStays(k: State, to: Tid, text: string)
    requires Busy(k) && to < |k.threads|
    ensures Stays(k, SendBody(k, to, text).0)
  {
    var th := Th(k, to).(message := Some(Truncate(text)));
    FieldBusy(k, to, th);
    var k1 := SetTh(k, to, th);
    SameUndisturbed(k, k1);
    SignalStays(k1, th.semReceive, 1);
    StaysThen(k, k1, SendBody(k, to, text).0);
  }

  lemma PutBodyStays(k: State, b: nat, c: char)
    requires Busy(k)
    ensures Stays(k, PutBody(k, b, c).0)
  {
    var k1 := RingPut(k, b, c);
    BufferBusy(k, b, Bf(k1, b));
    assert k1 == SetBf(k, b, Bf(k1, b));
    SameUndisturbed(k, k1);
    SignalBusy(k1, Bf(k1, b).mutex, 1);
    SignalStays(k1, Bf(k1, b).mutex, 1);
    var k2 := Signal(k1, Bf(k1, b).mutex, 1).0;
    SignalStays(k2, Bf(k2, b).semGet, 1);
    StaysThen(k, k1, k2);
    StaysThen(k, k2, PutBody(k, b, c).0);
  }

  lemma GetBodyStays(k: State, b: nat)
    requires Busy(k)
    ensures Stays(k, GetBody(k, b).0)
  {
    var k1 := RingGet(k, b).0;
    BufferBusy(k, b, Bf(k1, b));
    assert k1 == SetBf(k, b, Bf(k1, b));
    SameUndisturbed(k, k1);
    SignalBusy(k1, Bf(k1, b).mutex, 1);
    SignalStays(k1, Bf(k1, b).mutex, 1);
    var k2 := Signal(k1, Bf(k1, b).mutex, 1).0;
    SignalStays(k2, Bf(k2, b).semPut, 1);
    StaysThen(k, k1, k2);
    StaysThen(k, k2, GetBody(k, b).0);
  }

  lemma PutLockedFair(k: State, b: nat, c: char)
    requires Busy(k) && b < |k.bufs|
    ensures Fair(k, PutLocked(k, b, c).0)
  {
    assert BufferOwnsSems(k, b);
    WaitBusy(k, Bf(k, b).mutex, 1, ForPutLock(b, c));
    WaitFair(k, Bf(k, b).mutex, 1, ForPutLock(b, c));
    var (k1, w) := Wait(k, Bf(k, b).mutex, 1, ForPutLock(b, c));
    if w.Some? {
      PutBodyStays(k1, b, c);
      StaysThen(k, k1, PutLocked(k, b, c).0);
    }
  }

  lemma GetLockedFair(k: State, b: nat)
    requires Busy(k) && b < |k.bufs|
    ensures Fair(k, GetLocked(k, b).0)
  {
    assert BufferOwnsSems(k, b);
    WaitBusy(k, Bf(k, b).mutex, 1, ForGetLock(b));
    WaitFair(k, Bf(k, b).mutex, 1, ForGetLock(b));
    var (k1, w) := Wait(k, Bf(k, b).mutex, 1, ForGetLock(b));
    if w.Some? {
      GetBodyStays(k1, b);
      StaysThen(k, k1, GetLocked(k, b).0);
    }
  }

  lemma PutFair(k: State, b: nat, c: char)
    requires Busy(k) && b < |k.bufs|
    ensures Fair(k, Put(k, b, c).0)
  {
    assert BufferOwnsSems(k, b);
    WaitBusy(k, Bf(k, b).semPut, 1, ForPut(b, c));
    WaitFair(k, Bf(k, b).semPut, 1, ForPut(b, c));
    var (k1, w) := Wait(k, Bf(k, b).semPut, 1, ForPut(b, c));
    if w.Some? {
      PutLockedFair(k1, b, c);
      StaysThen(k, k1, PutLocked(k1, b, c).0);
    }
  }

  lemma GetFair(k: State, b: nat)
    requires Busy(k) && b < |k.bufs|
    ensures Fair(k, Get(k, b).0)
  {
    assert BufferOwnsSems(k, b);
    WaitBusy(k, Bf(k, b).semGet, 1, ForGet(b));
    WaitFair(k, Bf(k, b).semGet, 1, ForGet(b));
    var (k1, w) := Wait(k, Bf(k, b).semGet, 1, ForGet(b));
    if w.Some? {
      GetLockedFair(k1, b);
      StaysThen(k, k1, GetLocked(k1, b).0);
    }
  }

  lemma SendFair(k: State, to: Tid, text: string)
    requires Busy(k) && to < |k.threads| && to != IDLE && '\0' !in text
    ensures Fair(k, Send(k, to, text).0)
  {
    if to == k.running {
      SameUndisturbed(k, k);
    } else {
      assert OwnsSems(k, to);
      WaitBusy(k, Th(k, to).semSend, 1, ForSend(to, text));
      WaitFair(k, Th(k, to).semSend, 1, ForSend(to, text));
      var (k1, w) := Wait(k, Th(k, to).semSend, 1, ForSend(to, text));
      if w.Some? {
        SendBodyStays(k1, to, text);
        StaysThen(k, k1, SendBody(k1, to, text).0);
      }
    }
  }

  lemma ReceiveFair(k: State)
    requires Busy(k)
    ensures Fair(k, Receive(k).0)
  {
    assert OwnsSems(k, k.running);
    WaitBusy(k, Me(k).semReceive, 1, ForReceive);
    WaitFair(k, Me(k).semReceive, 1, ForReceive);
    var (k1, w) := Wait(k, Me(k).semReceive, 1, ForReceive);
    if w.Some? {
      SignalStays(k1, Me(k1).semSend, 1);
      StaysThen(k, k1, ReceiveBody(k1).0);
    }
  }

  lemma ChildDroppedStays(k: State, p: Tid)
    requires Busy(k) && p < |k.threads|
    ensures Stays(k, ChildDropped(k, p))
  {
    SameUndisturbed(k, ChildDropped(k, p));
  }

  lemma ParentWokenStays(k: State, p: Tid)
    requires Busy(k) && p < |k.threads|
    ensures Stays(k, ParentWoken(k, p))
  {
    SameUndisturbed(k, k);
    SignalStays(k, Th(k, p).semJoinAll, 1);
  }

  lemma NotifyParentStays(k: State)
    requires Busy(k)
    ensures Stays(k, NotifyParent(k))
  {
    RunningFree(k);
    if Me(k).parent.Some? && !Th(k, Me(k).parent.value).finished {
      ParentOlder(k);
      var p := Me(k).parent.value;
      ChildDroppedBusy(k, p);
      ChildDroppedStays(k, p);
      ParentWokenStays(ChildDropped(k, p), p);
      StaysThen(k, ChildDropped(k, p), NotifyParent(k));
    } else {
      SameUndisturbed(k, k);
    }
  }

  lemma FinishPartsStay(k: State)
    requires Busy(k)
    ensures var k3 := NotifyParent(CloseJoin(CloseMail(k)));
      Stays(k, Close(k3, Me(k3).semJoinAll).0)
  {
    FinishParts(k);
    CloseBusy(k, Me(k).semSend);
    CloseStays(k, Me(k).semSend);
    var a := Close(k, Me(k).semSend).0;
    CloseStays(a, Me(k).semReceive);
    var k1 := CloseMail(k);
    StaysThen(k, a, k1);
    SignalAllBusy(k1, Me(k1).semJoin, 0);
    SignalAllWakes(k1, Me(k1).semJoin, 0, false, {k.running});
    var b := SignalAll(k1, Me(k1).semJoin, 0, false);
    WakesAtStays(k1, b, Me(k1).semJoin, Regular);
    CloseStays(b, Me(k1).semJoin);
    var k2 := CloseJoin(k1);
    StaysThen(k1, b, k2);
    StaysThen(k, k1, k2);
    NotifyParentStays(k2);
    var k3 := NotifyParent(k2);
    StaysThen(k, k2, k3);
    CloseStays(k3, Me(k3).semJoinAll);
    StaysThen(k, k3, Close(k3, Me(k3).semJoinAll).0);
  }

  /** finish is a chain of wake-ups by the running thread, and then the yield of a thread that is
      marked finished. */
  lemma FinishFair(k: State, status: int)
    requires Busy(k)
    ensures Fair(k, Finish(k, status))
  {
    FinishParts(k);
    FinishPartsStay(k);
    var k3 := NotifyParent(CloseJoin(CloseMail(k)));
    var k4 := Close(k3, Me(k3).semJoinAll).0;
    RetireSwitches(k4, status);
    StaysThen(k, k4, Yield(Retire(k4, status), false));
  }

  lemma RetireSwitches(k: State, status: int)
    requires Busy(k)
    ensures Switches(k, Yield(Retire(k, status), false))
  {
    RetireCore(k, status);
    RunningFree(k);
    ReadyInRange(k, {k.running});
    SameUndisturbed(k, Retire(k, status));
    YieldSwitches(k, Retire(k, status), false);
  }

  lemma CreateStays(k: State, slice: nat)
    requires Busy(k)
    ensures Stays(k, Create(k, slice))
  {
    CreateEffect(k, slice);
    RunningFree(k);
    forall s: Sid | s < |k.sems|
      ensures SemStory(Sm(k, s), Sm(Create(k, slice), s), k.running)
    {
      NotQueued(k, s);
    }
  }

  lemma SemOpenStays(k: State, init: nat)
    requires Busy(k)
    ensures Stays(k, SemOpen(k, init))
  {
    forall s: Sid | s < |k.sems|
      ensures SemStory(Sm(k, s), Sm(SemOpen(k, init), s), k.running)
    {
      NotQueued(k, s);
    }
  }

  lemma DispatchFair(k: State)
    requires Good(k)
    ensures Fair(k, Yield(k, true))
  {
    ReadyInRange(k, {k.running});
    RunningFree(k);
    SameUndisturbed(k, k);
    YieldSwitches(k, k, true);
  }

  lemma JoinFair(k: State, t: Tid)
    requires Busy(k)
    ensures Fair(k, Join(k, t).0)
  {
    SameUndisturbed(k, k);
    WaitFair(k, Th(k, t).semJoin, 1, ForJoin(t));
  }

  lemma TimedJoinFair(k: State, t: Tid, timeout: nat)
    requires Busy(k)
    ensures Fair(k, TimedJoin(k, t, timeout).0)
  {
    SameUndisturbed(k, k);
    TimedWaitFair(k, Th(k, t).semJoin, timeout, 1, ForJoin(t));
  }

  lemma JoinAllFair(k: State)
    requires Busy(k)
    ensures Fair(k, JoinAll(k).0)
  {
    WaitFair(k, Me(k).semJoinAll, Me(k).children, ForJoinAll);
  }

  lemma TimedJoinAllFair(k: State, timeout: nat)
    requires Busy(k)
    ensures Fair(k, TimedJoinAll(k, timeout).0)
  {
    TimedWaitFair(k, Me(k).semJoinAll, timeout, Me(k).children, ForTimedJoinAll);
  }

  /** Nobody queued up and nobody left. */
  lemma MovedStays(k: State, k': State, s: Sid, why: Why)
    requires Busy(k) && Moved(k, k', s, why) && Sm(k', s).queue == Sm(k, s).queue
    requires k'.running == k.running && k'.sliceTicks == k.sliceTicks && k'.ready == k.ready
    requires k'.sleepers == k.sleepers
    ensures Stays(k, k')
  {
    SameUndisturbed(k, k');
  }

  lemma TryWaitMoves(k: State, s: Sid, tokens: nat)
    requires Steady(k) && Sm(k, s).active
    ensures Moved(k, TryWait(k, s, tokens).0, s, ForSem)
    ensures Sm(TryWait(k, s, tokens).0, s).queue == Sm(k, s).queue
  {
    RunningFree(k);
  }

  lemma TryWaitStays(k: State, s: Sid, tokens: nat)
    requires Busy(k)
    ensures Stays(k, TryWait(k, s, tokens).0)
  {
    if Sm(k, s).active {
      TryWaitMoves(k, s, tokens);
      MovedStays(k, TryWait(k, s, tokens).0, s, ForSem);
    } else {
      SameUndisturbed(k, k);
    }
  }

  lemma CallFair(k: State, call: Call)
    requires Busy(k) && CallOk(k, call)
    ensures Fair(k, Syscall(k, call).0)
  {
    match call
    case CallCreate(slice) => CreateStays(k, slice);
    case CallExit(status) => FinishFair(k, status);
    case CallDispatch => DispatchFair(k);
    case CallJoin(t) => JoinFair(k, t);
    case CallTimedJoin(t, timeout) => TimedJoinFair(k, t, timeout);
    case CallJoinAll => JoinAllFair(k);
    case CallTimedJoinAll(timeout) => TimedJoinAllFair(k, timeout);
    case CallSemOpen(init) => SemOpenStays(k, init);
    case CallSemClose(s) => CloseStays(k, s);
    case CallSemWait(s, tokens) => WaitFair(k, s, tokens, ForSem);
    case CallSemSignal(s, tokens) => SignalStays(k, s, tokens);
    case CallSemTimedWait(s, timeout, tokens) => TimedWaitFair(k, s, timeout, tokens, ForSem);
    case CallSemTryWait(s, tokens) => TryWaitStays(k, s, tokens);
    case CallSleep(timeout) => SleepFair(k, timeout);
    case CallSend(to, text) => SendFair(k, to, text);
    case CallReceive => ReceiveFair(k);
    case CallPut(b, c) => PutFair(k, b, c);
    case CallGet(b) => GetFair(k, b);
  }

  lemma ResumeFair(k: State)
    requires Good(k) && !Me(k).cont.Run?
    ensures Fair(k, ResumeStep(k).0)
  {
    WokenBusy(k);
    RunningFree(k);
    assert ContOk(k, k.running);
    var k1 := WithCont(k, Run);
    SameUndisturbed(k, k1);
    assert Stays(k, k1);
    if Me(k).cont.Waiting? {
      assert Owned(k, Me(k).cont.s);
      match Me(k).cont.why
      case ForSend(to, text) =>
        SendBodyStays(k1, to, text);
        StaysThen(k, k1, ResumeStep(k).0);
      case ForReceive =>
        SignalStays(k1, Me(k1).semSend, 1);
        StaysThen(k, k1, ResumeStep(k).0);
      case ForPut(b, c) =>
        PutLockedFair(k1, b, c);
        StaysThen(k, k1, ResumeStep(k).0);
      case ForPutLock(b, c) =>
        PutBodyStays(k1, b, c);
        StaysThen(k, k1, ResumeStep(k).0);
      case ForGet(b) =>
        GetLockedFair(k1, b);
        StaysThen(k, k1, ResumeStep(k).0);
      case ForGetLock(b) =>
        GetBodyStays(k1, b);
        StaysThen(k, k1, ResumeStep(k).0);
      case _ =>
    }
  }

  /** Every step but the tick. */
  lemma StepFair(k: State, step: Step)
    requires Good(k) && Enabled(k, step) && !step.Tick?
    ensures Fair(k, Next(k, step).0)
  {
    match step
    case Resume => ResumeFair(k);
    case Sys(call) =>
      if k.running == IDLE {
        DispatchFair(k);
      } else {
        CallFair(k, call);
      }
  }
}
