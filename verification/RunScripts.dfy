/** Every run from boot is played by its own script: the kernel skips nothing that a program can ask of
    it, because a program holds the handle of each semaphore that it may name. */
module RunScripts {
  import opened KernelTypes
  import opened KernelSpec
  import opened KernelSteps
  import opened Families
  import opened RingFrames
  import opened KernelRuns
  import opened Releases
  import opened StepMeaning
  import opened RingMeaning
  import opened ThreadMeaning
  import opened KernelDriver

  // ---- which steps add semaphores

  ghost predicate SameSemCount(k: State, k': State) {
    |k'.sems| == |k.sems|
  }

  lemma SuppliesSems(k: State, k': State, s: Sid, n: nat)
    requires Supplies(k, k', s, n)
    ensures SameSemCount(k, k')
  {
    if k.sems[s].active { var p: nat :| HandedOut(k, k', s, n, p); }
  }

  lemma StoredSems(k: State, k2: State, k': State, b: nat, c: char)
    requires Stored(k, k2, k', b, c)
    ensures SameSemCount(k, k')
  {
    var x := k.bufs[b];
    var k1 := k.(bufs := k.bufs[b := x.(data := x.data[x.posW := c], posW := (x.posW + 1) % 256)]);
    SuppliesSems(k1, k2, x.mutex, 1);
    SuppliesSems(k2, k', x.semGet, 1);
  }

  lemma FetchedSems(k: State, k2: State, k': State, b: nat, r: Reply)
    requires Fetched(k, k2, k', b, r)
    ensures SameSemCount(k, k')
  {
    var x := k.bufs[b];
    var k1 := k.(bufs := k.bufs[b := x.(posR := (x.posR + 1) % 256)]);
    SuppliesSems(k1, k2, x.mutex, 1);
    SuppliesSems(k2, k', x.semPut, 1);
  }

  lemma DeliveredSems(k: State, k': State, to: Tid, text: string)
    requires Delivered(k, k', to, text)
    ensures SameSemCount(k, k')
  {
    var th := k.threads[to];
    var k1 := k.(threads := k.threads[to := th.(message := Some(if |text| <= 256 then text else text[..256]))]);
    SuppliesSems(k1, k', th.semReceive, 1);
  }

  lemma ToldSems(k: State, k': State)
    requires ParentTold(k, k')
    ensures SameSemCount(k, k')
  {
    var me := k.threads[k.running];
    if me.parent.Some? {
      var p := me.parent.value;
      var th := k.threads[p];
      if !th.finished && th.blockedAt == Some(th.semJoinAll) {
        var left := if th.children > 0 then th.children - 1 else TWO64 - 1;
        SuppliesSems(k.(threads := k.threads[p := th.(children := left)]), k', th.semJoinAll, 1);
      }
    }
  }

  lemma ExitSems(k: State, status: int)
    requires Busy(k)
    ensures SameSemCount(k, Next(k, Sys(CallExit(status))).0)
  {
    var k1, k2, k3, k4, k5 := ExitMeans(k, status);
    ToldSems(k3, k4);
  }

  lemma UserCallSems(k: State, call: Call)
    requires Busy(k) && CallOk(k, call) && CallFamily(call) == Users
    ensures SameSemCount(k, Syscall(k, call).0)
  {
    match call
    case CallSemClose(s) => SemCloseMeans(k, s);
    case CallSemWait(s, n) => var w := SemWaitMeans(k, s, n);
    case CallSemSignal(s, n) =>
      SemSignalMeans(k, s, n);
      SuppliesSems(k, Syscall(k, call).0, s, n);
    case CallSemTimedWait(s, timeout, n) => var w := SemTimedWaitMeans(k, s, timeout, n);
    case CallSemTryWait(s, n) => SemTryWaitMeans(k, s, n);
  }

  lemma JoinCallSems(k: State, call: Call)
    requires Busy(k) && CallOk(k, call)
    requires call.CallJoin? || call.CallTimedJoin? || call.CallJoinAll? || call.CallTimedJoinAll?
    ensures SameSemCount(k, Syscall(k, call).0)
  {
    match call
    case CallJoin(t) => var w := JoinMeans(k, t);
    case CallTimedJoin(t, timeout) => var w := TimedJoinMeans(k, t, timeout);
    case CallJoinAll => var w := JoinAllMeans(k);
    case CallTimedJoinAll(timeout) => var w := TimedJoinAllMeans(k, timeout);
  }

  lemma MailCallSems(k: State, call: Call)
    requires Busy(k) && CallOk(k, call) && CallFamily(call) == Mail
    ensures SameSemCount(k, Syscall(k, call).0)
  {
    match call
    case CallSend(to, text) =>
      var k1, w := SendMeans(k, to, text);
      if to != k.running && w.Some? { DeliveredSems(k1, Syscall(k, call).0, to, text); }
    case CallReceive =>
      var k1, w := ReceiveMeans(k);
      if w.Some? { SuppliesSems(k1, Syscall(k, call).0, k1.threads[k1.running].semSend, 1); }
  }

  lemma RingCallSems(k: State, call: Call)
    requires Busy(k) && CallOk(k, call) && CallFamily(call) == Buffers && RingsSound(k.bufs)
    ensures SameSemCount(k, Syscall(k, call).0)
  {
    match call
    case CallPut(b, c) =>
      var k0, k1, k2, w0, w := PutMeans(k, b, c);
      if w0.Some? && w.Some? { StoredSems(k1, k2, Syscall(k, call).0, b, c); }
    case CallGet(b) =>
      var k0, k1, k2, w0, w := GetMeans(k, b);
      if w0.Some? && w.Some? { FetchedSems(k1, k2, Syscall(k, call).0, b, Syscall(k, call).1); }
  }

  /** thread_create adds the four semaphores of the new thread, sem_open the one it gives out, and no
      other call adds any. */
  lemma CallSems(k: State, call: Call)
    requires Busy(k) && CallOk(k, call) && RingsSound(k.bufs)
    ensures |Syscall(k, call).0.sems| == |k.sems| + if call.CallCreate? then 4 else if call.CallSemOpen? then 1 else 0
  {
    match CallFamily(call)
    case Users => UserCallSems(k, call);
    case Joins => JoinCallSems(k, call);
    case Mail => MailCallSems(k, call);
    case Buffers => RingCallSems(k, call);
    case Other =>
      match call
      case CallCreate(slice) => CreateMeans(k, slice);
      case CallSemOpen(init) => SemOpenMeans(k, init);
      case CallSleep(timeout) => SleepMeans(k, timeout);
      case CallExit(status) => ExitSems(k, status);
      case CallDispatch => DispatchMeans(k);
  }

  lemma ResumeSems(k: State)
    requires Good(k) && !Me(k).cont.Run? && RingsSound(k.bufs)
    ensures SameSemCount(k, Next(k, Resume).0)
  {
    var k1, k2, w := ResumeMeans(k);
    var k' := Next(k, Resume).0;
    var k0 := k.(threads := k.threads[k.running := k.threads[k.running].(cont := Run)]);
    if Me(k).cont.Waiting? {
      match Me(k).cont.why
      case ForSend(to, text) => DeliveredSems(k0, k', to, text);
      case ForReceive => SuppliesSems(k0, k', k0.threads[k0.running].semSend, 1);
      case ForPut(b, c) => if w.Some? { StoredSems(k1, k2, k', b, c); }
      case ForPutLock(b, c) => StoredSems(k0, k2, k', b, c);
      case ForGet(b) => if w.Some? { FetchedSems(k1, k2, k', b, Next(k, Resume).1); }
      case ForGetLock(b) => FetchedSems(k0, k2, k', b, Next(k, Resume).1);
      case _ =>
    }
  }

  // ---- handles

  /** sem_open has given out exactly the user semaphores. */
  ghost predicate AllHandedOut(p: Play) {
    forall s: Sid :: s in p.users <==> s < |p.k.sems| && p.k.sems[s].kind.UserSem?
  }

  ghost predicate Opens(step: Step) {
    step.Sys? && step.call.CallSemOpen?
  }

  /** A new semaphore is a user's exactly if the step is sem_open. */
  lemma NewSemaphore(k: State, step: Step, s: Sid)
    requires Good(k) && Enabled(k, step) && RingsSound(k.bufs) && |k.sems| <= s < |Next(k, step).0.sems|
    ensures Next(k, step).0.sems[s].kind.UserSem? <==> Opens(step)
    ensures Opens(step) ==> s == |k.sems|
  {
    match step
    case Tick => var woken := TickMeans(k);
    case Resume => ResumeSems(k);
    case Sys(call) =>
      if k.running == IDLE {
        IdleMeans(k);
      } else {
        CallSems(k, call);
        if call.CallCreate? { CreateMeans(k, call.slice); }
        if call.CallSemOpen? { SemOpenMeans(k, call.init); }
      }
  }

  lemma OpenedNow(k: State, step: Step)
    requires Good(k) && Enabled(k, step) && Opens(step)
    ensures |Next(k, step).0.sems| == |k.sems| + 1
  {
    SemOpenMeans(k, step.call.init);
  }

  lemma AdvanceHandsOut(p: Play, step: Step)
    requires PlayOk(p) && AllHandedOut(p) && Admits(p, step)
    ensures AllHandedOut(Advance(p, step))
  {
    var k, q := p.k, Advance(p, step);
    if Opens(step) { OpenedNow(k, step); }
    forall s: Sid
      ensures s in q.users <==> s < |q.k.sems| && q.k.sems[s].kind.UserSem?
    {
      if s < |k.sems| {
        KindStays(k, step, s);
        assert Sm(k, s) == k.sems[s] && Sm(q.k, s) == q.k.sems[s];
      } else if s < |q.k.sems| {
        NewSemaphore(k, step, s);
      }
    }
  }

  // ---- runs

  /** No thread of the run has 2^64 children when it waits for them. */
  ghost predicate ChildCountsFit(r: Trace)
    requires |r.states| == |r.steps| + 1
  {
    forall i: nat :: i < |r.steps| && r.steps[i].Sys? ==> CountFits(r.states[i], r.steps[i].call)
  }

  lemma {:induction false} PlayedOn(p: Play, script: seq<Step>, step: Step)
    ensures Played(p, script + [step]) == Advance(Played(p, script), step)
    decreases |script|
  {
    if script == [] {
      assert Played(p, [step]) == Played(Advance(p, step), []);
    } else {
      assert (script + [step])[1..] == script[1..] + [step];
      PlayedOn(Advance(p, script[0]), script[1..], step);
    }
  }

  /** In the state of a run the kernel admits the step that the run takes. */
  lemma RunAdmits(r: Trace, j: nat, p: Play)
    requires FromBoot(r) && ChildCountsFit(r) && j < |r.steps| && p.k == r.states[j] && AllHandedOut(p)
    ensures Admits(p, r.steps[j])
  {
    assert StepOf(r, j);
  }

  /** The script of a run plays the run, state by state. */
  lemma {:induction false} RunIsPlayed(r: Trace, j: nat)
    requires FromBoot(r) && ChildCountsFit(r) && j <= |r.steps|
    ensures Played(Play(Init(), {}), r.steps[..j]).k == r.states[j]
    ensures PlayOk(Played(Play(Init(), {}), r.steps[..j])) && AllHandedOut(Played(Play(Init(), {}), r.steps[..j]))
  {
    if j == 0 {
      BootOk();
      BootMeans();
    } else {
      RunIsPlayed(r, j - 1);
      var p := Played(Play(Init(), {}), r.steps[..j - 1]);
      assert r.steps[..j] == r.steps[..j - 1] + [r.steps[j - 1]];
      PlayedOn(Play(Init(), {}), r.steps[..j - 1], r.steps[j - 1]);
      RunAdmits(r, j - 1, p);
      assert StepOf(r, j - 1);
      AdvanceOk(p, r.steps[j - 1]);
      AdvanceHandsOut(p, r.steps[j - 1]);
    }
  }
}
