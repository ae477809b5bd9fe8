/** Every step keeps the place invariant and the links: the base for all other claims. */
module KernelSteps {
  import opened KernelTypes
  import opened KernelSpec
  import opened PlaceInvariant
  import opened Effects
  import opened LinkInvariant

  /** Between two steps. */
  ghost predicate Good(k: State) {
    Steady(k) && Linked(k)
  }

  /** Inside a step: the running thread is executing kernel code. */
  ghost predicate Busy(k: State) {
    Good(k) && Me(k).cont.Run? && k.running != IDLE
  }

  /** No semaphore was closed. */
  ghost predicate SameActive(k: State, k': State) {
    |k.sems| <= |k'.sems| && forall s: Sid :: s < |k.sems| ==> Sm(k', s).active == Sm(k, s).active
  }

  lemma RunningFree(k: State)
    requires Steady(k)
    ensures Me(k).blockedAt.None? && !Me(k).sleeps && k.running < |k.threads|
  {
    assert ThreadOk(k, k.running, {k.running});
  }

  lemma SameListsLinked(k: State, k': State)
    requires Linked(k) && k'.threads == k.threads && k'.sems == k.sems && k'.bufs == k.bufs
    ensures Linked(k') && SameWorld(k, k')
  {
    assert forall u: Tid :: Th(k', u) == Th(k, u);
    KeepsLinked(k, k');
  }

  lemma SignalBusy(k: State, s: Sid, tokens: nat)
    requires Busy(k) && tokens < TWO64
    ensures var k' := Signal(k, s, tokens).0;
      Busy(k') && k'.running == k.running && Me(k') == Me(k) && SameWorld(k, k') && SameActive(k, k')
  {
    SignalCore(k, s, tokens, {k.running});
    SignalWakes(k, s, tokens, {k.running});
    SignalLinked(k, s, tokens, {k.running});
    RunningFree(k);
  }

  lemma CloseBusy(k: State, s: Sid)
    requires Busy(k)
    ensures var k' := Close(k, s).0;
      Busy(k') && k'.running == k.running && Me(k') == Me(k) && SameWorld(k, k')
  {
    CloseCore(k, s, {k.running});
    CloseWakes(k, s, {k.running});
    CloseLinked(k, s, {k.running});
    RunningFree(k);
  }

  lemma SignalAllBusy(k: State, s: Sid, tokens: nat)
    requires Busy(k) && tokens < TWO64
    ensures var k' := SignalAll(k, s, tokens, false);
      Busy(k') && k'.running == k.running && Me(k') == Me(k) && SameWorld(k, k')
  {
    SignalAllCore(k, s, tokens, false, {k.running});
    SignalAllWakes(k, s, tokens, false, {k.running});
    SignalAllLinked(k, s, tokens, false, {k.running});
    RunningFree(k);
  }

  lemma WaitBusy(k: State, s: Sid, tokens: nat, why: Why)
    requires Busy(k) && (Sm(k, s).active ==> WhyOk(k, k.running, s, why))
    ensures var (k', w) := Wait(k, s, tokens, why);
      && Good(k') && SameWorld(k, k') && SameActive(k, k')
      && (w.Some? ==> Busy(k') && k'.running == k.running)
  {
    WaitCore(k, s, tokens, why);
    WaitLinked(k, s, tokens, why);
    WaitEffect(k, s, tokens, why);
  }

  lemma TimedWaitBusy(k: State, s: Sid, timeout: nat, tokens: nat, why: Why)
    requires Busy(k) && (Sm(k, s).active ==> WhyOk(k, k.running, s, why)) && Timed(why) && timeout < TWO64
    ensures var (k', w) := TimedWait(k, s, timeout, tokens, why);
      && Good(k') && SameWorld(k, k') && SameActive(k, k')
      && (w.Some? ==> Busy(k') && k'.running == k.running)
  {
    TimedWaitCore(k, s, timeout, tokens, why);
    TimedWaitLinked(k, s, timeout, tokens, why);
    TimedWaitEffect(k, s, timeout, tokens, why);
  }

  lemma TryWaitBusy(k: State, s: Sid, tokens: nat)
    requires Busy(k)
    ensures Busy(TryWait(k, s, tokens).0) && SameWorld(k, TryWait(k, s, tokens).0)
    ensures SameActive(k, TryWait(k, s, tokens).0)
  {
    TryWaitCore(k, s, tokens);
    RunningFree(k);
    assert ContOk(k, k.running);
    var k' := TryWait(k, s, tokens).0;
    OneThreadLinked(k, k', k.running);
  }

  lemma SleepBusy(k: State, timeout: nat)
    requires Busy(k) && timeout < TWO64
    ensures Good(Sleep(k, timeout, Sleeping).0) && SameWorld(k, Sleep(k, timeout, Sleeping).0)
    ensures SameActive(k, Sleep(k, timeout, Sleeping).0)
  {
    RunningFree(k);
    SleepEffect(k, timeout);
    SleepLinked(k, timeout);
    if timeout > 0 { SleepCore(k, timeout, Sleeping, {k.running}); }
  }

  /** A change of fields that carry no links. */
  lemma FieldBusy(k: State, t: Tid, th: Thread)
    requires Busy(k) && t < |k.threads| && SameLinks(Th(k, t), th)
    requires th.finished == Th(k, t).finished && th.sleeps == Th(k, t).sleeps
    requires th.blockedAt == Th(k, t).blockedAt && th.cont == Th(k, t).cont
    ensures Busy(SetTh(k, t, th)) && SameWorld(k, SetTh(k, t, th))
  {
    FieldCore(k, t, th, {k.running});
    KeepsLinked(k, SetTh(k, t, th));
  }

  lemma BufferBusy(k: State, b: nat, x: Buffer)
    requires Busy(k) && SameBufferLinks(Bf(k, b), x)
    ensures Busy(SetBf(k, b, x)) && SameWorld(k, SetBf(k, b, x))
  {
    OtherFields(k, SetBf(k, b, x), {k.running});
    KeepsLinked(k, SetBf(k, b, x));
  }

  // ---- chained handlers

  lemma PutBodyGood(k: State, b: nat, c: char)
    requires Busy(k)
    ensures Good(PutBody(k, b, c).0)
    ensures SameActive(k, PutBody(k, b, c).0)
  {
    var x := Bf(k, b);
    if x.posW < |x.data| {
      BufferBusy(k, b, x.(data := x.data[x.posW := c], posW := (x.posW + 1) % BUFFER_LENGTH));
    }
    var k1 := RingPut(k, b, c);
    SignalBusy(k1, Bf(k1, b).mutex, 1);
    var k2 := Signal(k1, Bf(k1, b).mutex, 1).0;
    SignalBusy(k2, Bf(k2, b).semGet, 1);
  }

  lemma PutLockedGood(k: State, b: nat, c: char)
    requires Busy(k) && b < |k.bufs|
    ensures Good(PutLocked(k, b, c).0)
    ensures SameActive(k, PutLocked(k, b, c).0)
  {
    assert BufferOwnsSems(k, b);
    var (k1, w) := Wait(k, Bf(k, b).mutex, 1, ForPutLock(b, c));
    WaitBusy(k, Bf(k, b).mutex, 1, ForPutLock(b, c));
    if w.Some? { PutBodyGood(k1, b, c); }
  }

  lemma PutGood(k: State, b: nat, c: char)
    requires Busy(k) && b < |k.bufs|
    ensures Good(Put(k, b, c).0)
    ensures SameActive(k, Put(k, b, c).0)
  {
    assert BufferOwnsSems(k, b);
    var (k1, w) := Wait(k, Bf(k, b).semPut, 1, ForPut(b, c));
    WaitBusy(k, Bf(k, b).semPut, 1, ForPut(b, c));
    if w.Some? { PutLockedGood(k1, b, c); }
  }

  lemma GetBodyGood(k: State, b: nat)
    requires Busy(k)
    ensures Good(GetBody(k, b).0)
    ensures SameActive(k, GetBody(k, b).0)
  {
    var x := Bf(k, b);
    if x.posR < |x.data| { BufferBusy(k, b, x.(posR := (x.posR + 1) % BUFFER_LENGTH)); }
    var k1 := RingGet(k, b).0;
    SignalBusy(k1, Bf(k1, b).mutex, 1);
    var k2 := Signal(k1, Bf(k1, b).mutex, 1).0;
    SignalBusy(k2, Bf(k2, b).semPut, 1);
  }

  lemma GetLockedGood(k: State, b: nat)
    requires Busy(k) && b < |k.bufs|
    ensures Good(GetLocked(k, b).0)
    ensures SameActive(k, GetLocked(k, b).0)
  {
    assert BufferOwnsSems(k, b);
    var (k1, w) := Wait(k, Bf(k, b).mutex, 1, ForGetLock(b));
    WaitBusy(k, Bf(k, b).mutex, 1, ForGetLock(b));
    if w.Some? { GetBodyGood(k1, b); }
  }

  lemma GetGood(k: State, b: nat)
    requires Busy(k) && b < |k.bufs|
    ensures Good(Get(k, b).0)
    ensures SameActive(k, Get(k, b).0)
  {
    assert BufferOwnsSems(k, b);
    var (k1, w) := Wait(k, Bf(k, b).semGet, 1, ForGet(b));
    WaitBusy(k, Bf(k, b).semGet, 1, ForGet(b));
    if w.Some? { GetLockedGood(k1, b); }
  }

  lemma SendBodyGood(k: State, to: Tid, text: string)
    requires Busy(k) && to < |k.threads|
    ensures Good(SendBody(k, to, text).0)
    ensures SameActive(k, SendBody(k, to, text).0)
  {
    var th := Th(k, to).(message := Some(Truncate(text)));
    FieldBusy(k, to, th);
    SignalBusy(SetTh(k, to, th), th.semReceive, 1);
  }

  lemma SendGood(k: State, to: Tid, text: string)
    requires Busy(k) && to < |k.threads| && to != IDLE && '\0' !in text
    ensures Good(Send(k, to, text).0)
    ensures SameActive(k, Send(k, to, text).0)
  {
    assert OwnsSems(k, to);
    if to != k.running {
      var (k1, w) := Wait(k, Th(k, to).semSend, 1, ForSend(to, text));
      WaitBusy(k, Th(k, to).semSend, 1, ForSend(to, text));
      if w.Some? { SendBodyGood(k1, to, text); }
    }
  }

  lemma ReceiveGood(k: State)
    requires Busy(k)
    ensures Good(Receive(k).0)
    ensures SameActive(k, Receive(k).0)
  {
    assert OwnsSems(k, k.running);
    var (k1, w) := Wait(k, Me(k).semReceive, 1, ForReceive);
    WaitBusy(k, Me(k).semReceive, 1, ForReceive);
    if w.Some? { SignalBusy(k1, Me(k1).semSend, 1); }
  }

  lemma ChildDroppedBusy(k: State, p: Tid)
    requires Busy(k) && p < |k.threads|
    ensures Busy(ChildDropped(k, p)) && SameWorld(k, ChildDropped(k, p))
  {
    FieldBusy(k, p, Th(k, p).(children := Fewer(Th(k, p).children)));
  }

  lemma ParentWokenBusy(k: State, p: Tid)
    requires Busy(k) && p < |k.threads|
    ensures var k' := ParentWoken(k, p);
      Busy(k') && k'.running == k.running && Me(k') == Me(k) && SameWorld(k, k')
  {
    SignalBusy(k, Th(k, p).semJoinAll, 1);
  }

  /** The parent is an older thread. */
  lemma ParentOlder(k: State)
    requires Linked(k) && k.running < |k.threads| && Me(k).parent.Some?
    ensures Me(k).parent.value < k.running
  {
    assert OwnsSems(k, k.running);
  }

  lemma NotifyParentBusy(k: State)
    requires Busy(k)
    ensures var k' := NotifyParent(k);
      Busy(k') && k'.running == k.running && Me(k') == Me(k) && SameWorld(k, k')
  {
    RunningFree(k);
    if Me(k).parent.Some? && !Th(k, Me(k).parent.value).finished {
      ParentOlder(k);
      ChildDroppedBusy(k, Me(k).parent.value);
      ParentWokenBusy(ChildDropped(k, Me(k).parent.value), Me(k).parent.value);
    }
  }

  lemma SameWorldThen(a: State, b: State, c: State)
    requires SameWorld(a, b) && SameWorld(b, c)
    ensures SameWorld(a, c)
  {
  }

  lemma CloseMailBusy(k: State)
    requires Busy(k)
    ensures var k' := CloseMail(k);
      Busy(k') && k'.running == k.running && Me(k') == Me(k) && SameWorld(k, k')
  {
    CloseBusy(k, Me(k).semSend);
    var a := Close(k, Me(k).semSend).0;
    CloseBusy(a, Me(k).semReceive);
    SameWorldThen(k, a, CloseMail(k));
  }

  lemma CloseJoinBusy(k: State)
    requires Busy(k)
    ensures var k' := CloseJoin(k);
      Busy(k') && k'.running == k.running && Me(k') == Me(k) && SameWorld(k, k')
  {
    SignalAllBusy(k, Me(k).semJoin, 0);
    var a := SignalAll(k, Me(k).semJoin, 0, false);
    CloseBusy(a, Me(k).semJoin);
    SameWorldThen(k, a, CloseJoin(k));
  }

  /** finish up to the yield, part by part. */
  lemma FinishParts(k: State)
    requires Busy(k)
    ensures var k1 := CloseMail(k);
      var k2 := CloseJoin(k1);
      var k3 := NotifyParent(k2);
      var k4 := Close(k3, Me(k3).semJoinAll).0;
      && Busy(k1) && Busy(k2) && Busy(k3) && Busy(k4)
      && k1.running == k.running && k2.running == k.running && k3.running == k.running && k4.running == k.running
      && Me(k1) == Me(k) && Me(k2) == Me(k) && Me(k3) == Me(k) && Me(k4) == Me(k)
      && SameWorld(k, k1) && SameWorld(k1, k2) && SameWorld(k2, k3) && SameWorld(k3, k4)
  {
    CloseMailBusy(k);
    var k1 := CloseMail(k);
    CloseJoinBusy(k1);
    var k2 := CloseJoin(k1);
    NotifyParentBusy(k2);
    var k3 := NotifyParent(k2);
    CloseBusy(k3, Me(k3).semJoinAll);
  }

  lemma RetireLinked(k: State, status: int)
    requires Busy(k)
    ensures Linked(Retire(k, status))
  {
    RunningFree(k);
    RetireCore(k, status);
    assert ContOk(k, k.running);
    OneThreadLinked(k, Retire(k, status), k.running);
  }

  lemma FinishGood(k: State, status: int)
    requires Busy(k)
    ensures Good(Finish(k, status))
  {
    FinishParts(k);
    var k1 := NotifyParent(CloseJoin(CloseMail(k)));
    var k2 := Close(k1, Me(k1).semJoinAll).0;
    RetireCore(k2, status);
    RetireLinked(k2, status);
    YieldAway(Retire(k2, status));
    SameListsLinked(Retire(k2, status), Finish(k, status));
  }

  lemma CreateGood(k: State, slice: nat)
    requires Busy(k)
    ensures Good(Create(k, slice))
    ensures SameActive(k, Create(k, slice))
  {
    CreateCore(k, slice);
    CreateLinked(k, slice);
  }

  lemma SemOpenGood(k: State, init: nat)
    requires Busy(k) && init < TWO64
    ensures Good(SemOpen(k, init))
    ensures SameActive(k, SemOpen(k, init))
  {
    NewSemsCore(k, [Sem(UserSem, true, init, [])], {k.running});
    SemOpenLinked(k, init);
  }

  lemma JoinCallGood(k: State, call: Call)
    requires Busy(k) && CallOk(k, call)
    requires call.CallJoin? || call.CallTimedJoin? || call.CallJoinAll? || call.CallTimedJoinAll?
    ensures Good(Syscall(k, call).0) && SameActive(k, Syscall(k, call).0)
  {
    assert OwnsSems(k, k.running);
    match call
    case CallJoin(t) =>
      assert OwnsSems(k, t);
      if t != k.running { WaitBusy(k, Th(k, t).semJoin, 1, ForJoin(t)); }
    case CallTimedJoin(t, timeout) =>
      assert OwnsSems(k, t);
      if t != k.running { TimedWaitBusy(k, Th(k, t).semJoin, timeout, 1, ForJoin(t)); }
    case CallJoinAll => WaitBusy(k, Me(k).semJoinAll, Me(k).children, ForJoinAll);
    case CallTimedJoinAll(timeout) => TimedWaitBusy(k, Me(k).semJoinAll, timeout, Me(k).children, ForTimedJoinAll);
  }

  lemma SyscallGood(k: State, call: Call)
    requires Busy(k) && CallOk(k, call)
    ensures Good(Syscall(k, call).0)
    ensures !call.CallExit? && !call.CallSemClose? ==> SameActive(k, Syscall(k, call).0)
  {
    match call
    case CallCreate(slice) => CreateGood(k, slice);
    case CallExit(status) => FinishGood(k, status);
    case CallDispatch => YieldGood(k);
    case CallJoin(_) => JoinCallGood(k, call);
    case CallTimedJoin(_, _) => JoinCallGood(k, call);
    case CallJoinAll => JoinCallGood(k, call);
    case CallTimedJoinAll(_) => JoinCallGood(k, call);
    case CallSemOpen(init) => SemOpenGood(k, init);
    case CallSemClose(s) => CloseBusy(k, s);
    case CallSemWait(s, tokens) => WaitBusy(k, s, tokens, ForSem);
    case CallSemSignal(s, tokens) => SignalBusy(k, s, tokens);
    case CallSemTimedWait(s, timeout, tokens) => TimedWaitBusy(k, s, timeout, tokens, ForSem);
    case CallSemTryWait(s, tokens) => TryWaitBusy(k, s, tokens);
    case CallSleep(timeout) => SleepBusy(k, timeout);
    case CallSend(t, text) => SendGood(k, t, text);
    case CallReceive => ReceiveGood(k);
    case CallPut(b, c) => PutGood(k, b, c);
    case CallGet(b) => GetGood(k, b);
  }

  /** The continuation starts: the thread is in kernel code again. */
  lemma WokenBusy(k: State)
    requires Good(k) && !Me(k).cont.Run?
    ensures var k1 := WithCont(k, Run);
      Busy(k1) && SameWorld(k, k1)
  {
    RunningFree(k);
    assert ContOk(k, k.running);
    FieldCore(k, k.running, Me(k).(cont := Run), {k.running});
    var k1 := WithCont(k, Run);
    OneThreadLinked(k, k1, k.running);
  }

  lemma ResumeGood(k: State)
    requires Good(k) && !Me(k).cont.Run?
    ensures Good(ResumeStep(k).0)
    ensures SameActive(k, ResumeStep(k).0)
  {
    RunningFree(k);
    assert ContOk(k, k.running);
    WokenBusy(k);
    var k1 := WithCont(k, Run);
    if Me(k).cont.Waiting? {
      assert Owned(k, Me(k).cont.s);
      match Me(k).cont.why
      case ForSend(to, text) => SendBodyGood(k1, to, text);
      case ForReceive => SignalBusy(k1, Me(k1).semSend, 1);
      case ForPut(b, ch) => PutLockedGood(k1, b, ch);
      case ForPutLock(b, ch) => PutBodyGood(k1, b, ch);
      case ForGet(b) => GetLockedGood(k1, b);
      case ForGetLock(b) => GetBodyGood(k1, b);
      case _ =>
    }
  }

  /** The timer before the scheduling decision. */
  lemma OnTickGood(k: State)
    requires Good(k)
    ensures var k1 := OnTick(k);
      && Good(k1) && Me(k1) == Me(k) && k1.running == k.running
      && WakesDue(k, k1) && SameWorld(k, k1)
  {
    OnTickEffect(k, {k.running});
    RunningFree(k);
    WakesDueLinked(k, OnTick(k));
  }

  lemma TicksGood(k: State, n: nat)
    requires Good(k)
    ensures Good(k.(sliceTicks := n))
  {
    StableTicks(k, n);
    SameListsLinked(k, k.(sliceTicks := n));
  }

  lemma YieldGood(k: State)
    requires Good(k)
    ensures Good(Yield(k, true))
  {
    YieldBack(k);
    SameListsLinked(k, Yield(k, true));
  }

  lemma PreemptedGood(k: State)
    requires Good(k)
    ensures Good(Preempted(k)) && SameBut(k, Preempted(k))
  {
    YieldGood(k);
  }

  /** Only the dispatched thread, the ready queue and the slice counter differ. */
  ghost predicate SameBut(k: State, k': State) {
    k'.threads == k.threads && k'.sems == k.sems && k'.bufs == k.bufs && k'.sleepers == k.sleepers
  }

  /** A tick: the slice is counted, k1 is the state after the due sleepers were woken, and then it is
      decided who runs. */
  lemma TickParts(k: State) returns (k1: State)
    requires Good(k)
    ensures k1 == OnTick(SliceCounted(k)) && TickStep(k) == Preempted(k1)
    ensures Good(SliceCounted(k)) && Good(k1) && Me(k1) == Me(k) && k1.running == k.running
    ensures WakesDue(SliceCounted(k), k1) && SameWorld(k, k1)
    ensures Good(TickStep(k)) && SameBut(k1, TickStep(k))
  {
    TicksGood(k, k.sliceTicks + 1);
    OnTickGood(SliceCounted(k));
    k1 := OnTick(SliceCounted(k));
    PreemptedGood(k1);
  }

  lemma TickGood(k: State)
    requires Good(k)
    ensures Good(TickStep(k))
  {
    var k1 := TickParts(k);
  }

  /** Every step of the kernel keeps every thread in exactly one place. */
  lemma NextGood(k: State, step: Step)
    requires Good(k) && Enabled(k, step)
    ensures Good(Next(k, step).0)
  {
    match step
    case Sys(call) =>
      if k.running == IDLE {
        YieldGood(k);
      } else {
        SyscallGood(k, call);
      }
    case Resume => ResumeGood(k);
    case Tick => TickGood(k);
  }

  /** The semaphores of a thread, and of a buffer, at boot: s is the first of them. */
  ghost predicate BootThread(k: State, t: Tid, s: Sid) {
    && Sm(k, s) == Sem(JoinOf(t), true, 0, []) && Th(k, t).semJoin == s
    && Sm(k, s + 1) == Sem(JoinAllOf(t), true, 0, []) && Th(k, t).semJoinAll == s + 1
    && Sm(k, s + 2) == Sem(SendOf(t), true, 1, []) && Th(k, t).semSend == s + 2
    && Sm(k, s + 3) == Sem(ReceiveOf(t), true, 0, []) && Th(k, t).semReceive == s + 3
  }

  ghost predicate BootBuffer(k: State, b: nat, s: Sid) {
    && Sm(k, s) == Sem(PutOf(b), true, BUFFER_LENGTH, []) && Bf(k, b).semPut == s
    && Sm(k, s + 1) == Sem(GetOf(b), true, 0, []) && Bf(k, b).semGet == s + 1
    && Sm(k, s + 2) == Sem(LockOf(b), true, 1, []) && Bf(k, b).mutex == s + 2
  }

  ghost predicate BootSems(k: State) {
    && |k.threads| == 2 && |k.sems| == 14 && |k.bufs| == 2
    && BootThread(k, 0, 0) && BootThread(k, 1, 4) && BootBuffer(k, 0, 8) && BootBuffer(k, 1, 11)
  }

  lemma InitSems()
    ensures BootSems(Init())
  {
  }

  lemma BootSem(k: State, s: Sid)
    requires BootSems(k) && s < 14
    ensures Sm(k, s).queue == [] && Sm(k, s).value < TWO64
    ensures Owned(k, s)
  {
  }

  lemma InitGood()
    ensures Good(Init())
  {
    var k := Init();
    InitSems();
    forall s | 0 <= s < |k.sems|
      ensures QueueOk(k, s) && Owned(k, s)
    {
      BootSem(k, s);
    }
    forall t | 0 <= t < |k.threads|
      ensures ThreadOk(k, t, {MASTER}) && OwnsSems(k, t) && ContOk(k, t)
    {
    }
    forall b: nat | b < |k.bufs|
      ensures BufferOwnsSems(k, b)
    {
    }
  }
}
