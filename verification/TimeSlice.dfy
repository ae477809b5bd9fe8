/** Round robin with time slices: who keeps the processor, for how long, and what happens when the slice
    is used up. */
module TimeSlice {
  import opened KernelTypes
  import opened KernelSpec
  import opened KernelSteps
  import opened Families
  import opened StepEffects
  import opened KernelRuns
  import opened CharBuffer
  import opened KernelTheorems
  import opened RingFrames
  import opened Releases
  import opened StepMeaning
  import opened RingMeaning
  import opened ThreadMeaning

  /** The running thread gives the processor away: it yields, exits, or is suspended. */
  predicate GivesUp(k: State, step: Step) {
    || step == Sys(CallDispatch)
    || (step.Sys? && step.call.CallExit?)
    || (!step.Tick? && Next(k, step).1.Suspended?)
  }

  /** The running thread runs on and its slice is not touched. */
  ghost predicate RunsOn(k: State, k': State) {
    k'.running == k.running && k'.sliceTicks == k.sliceTicks && k.ready <= k'.ready
  }

  lemma SuppliesRunsOn(k: State, k': State, s: Sid, n: nat)
    requires Supplies(k, k', s, n)
    ensures RunsOn(k, k')
  {
    if k.sems[s].active { var p: nat :| HandedOut(k, k', s, n, p); }
  }

  lemma StoredRunsOn(k: State, k2: State, k': State, b: nat, c: char)
    requires Stored(k, k2, k', b, c)
    ensures RunsOn(k, k')
  {
    var x := k.bufs[b];
    var k1 := k.(bufs := k.bufs[b := x.(data := x.data[x.posW := c], posW := (x.posW + 1) % 256)]);
    SuppliesRunsOn(k1, k2, x.mutex, 1);
    SuppliesRunsOn(k2, k', x.semGet, 1);
  }

  lemma FetchedRunsOn(k: State, k2: State, k': State, b: nat, r: Reply)
    requires Fetched(k, k2, k', b, r)
    ensures RunsOn(k, k')
  {
    var x := k.bufs[b];
    var k1 := k.(bufs := k.bufs[b := x.(posR := (x.posR + 1) % 256)]);
    SuppliesRunsOn(k1, k2, x.mutex, 1);
    SuppliesRunsOn(k2, k', x.semPut, 1);
  }

  lemma DeliveredRunsOn(k: State, k': State, to: Tid, text: string)
    requires Delivered(k, k', to, text)
    ensures RunsOn(k, k')
  {
    var th := k.threads[to];
    var k1 := k.(threads := k.threads[to := th.(message := Some(if |text| <= 256 then text else text[..256]))]);
    SuppliesRunsOn(k1, k', th.semReceive, 1);
  }

  lemma JoinCallRunsOn(k: State, call: Call)
    requires Busy(k) && CallOk(k, call) && !Syscall(k, call).1.Suspended?
    requires call.CallJoin? || call.CallTimedJoin? || call.CallJoinAll? || call.CallTimedJoinAll?
    ensures RunsOn(k, Syscall(k, call).0)
  {
    match call
    case CallJoin(t) => var w := JoinMeans(k, t);
    case CallTimedJoin(t, timeout) => var w := TimedJoinMeans(k, t, timeout);
    case CallJoinAll => var w := JoinAllMeans(k);
    case CallTimedJoinAll(timeout) => var w := TimedJoinAllMeans(k, timeout);
  }

  lemma SemCallRunsOn(k: State, call: Call)
    requires Busy(k) && CallOk(k, call) && !Syscall(k, call).1.Suspended?
    requires CallFamily(call) == Users
    ensures RunsOn(k, Syscall(k, call).0)
  {
    match call
    case CallSemClose(s) => SemCloseMeans(k, s);
    case CallSemWait(s, n) => var w := SemWaitMeans(k, s, n);
    case CallSemSignal(s, n) =>
      SemSignalMeans(k, s, n);
      SuppliesRunsOn(k, Syscall(k, call).0, s, n);
    case CallSemTimedWait(s, timeout, n) => var w := SemTimedWaitMeans(k, s, timeout, n);
    case CallSemTryWait(s, n) => SemTryWaitMeans(k, s, n);
  }

  lemma MailCallRunsOn(k: State, call: Call)
    requires Busy(k) && CallOk(k, call) && !Syscall(k, call).1.Suspended? && CallFamily(call) == Mail
    ensures RunsOn(k, Syscall(k, call).0)
  {
    match call
    case CallSend(to, text) =>
      var k1, w := SendMeans(k, to, text);
      if to != k.running { DeliveredRunsOn(k1, Syscall(k, call).0, to, text); }
    case CallReceive =>
      var k1, w := ReceiveMeans(k);
      SuppliesRunsOn(k1, Syscall(k, call).0, k1.threads[k1.running].semSend, 1);
  }

  lemma RingCallRunsOn(k: State, call: Call)
    requires Busy(k) && CallOk(k, call) && !Syscall(k, call).1.Suspended? && CallFamily(call) == Buffers
    requires RingsSound(k.bufs)
    ensures RunsOn(k, Syscall(k, call).0)
  {
    match call
    case CallPut(b, c) =>
      var k0, k1, k2, w0, w := PutMeans(k, b, c);
      StoredRunsOn(k1, k2, Syscall(k, call).0, b, c);
    case CallGet(b) =>
      var k0, k1, k2, w0, w := GetMeans(k, b);
      FetchedRunsOn(k1, k2, Syscall(k, call).0, b, Syscall(k, call).1);
  }

  lemma CallRunsOn(k: State, call: Call)
    requires Busy(k) && CallOk(k, call) && RingsSound(k.bufs) && !GivesUp(k, Sys(call))
    ensures RunsOn(k, Syscall(k, call).0)
  {
    match CallFamily(call)
    case Users => SemCallRunsOn(k, call);
    case Joins => JoinCallRunsOn(k, call);
    case Mail => MailCallRunsOn(k, call);
    case Buffers => RingCallRunsOn(k, call);
    case Other =>
      match call
      case CallCreate(slice) => CreateMeans(k, slice);
      case CallSemOpen(init) => SemOpenMeans(k, init);
      case CallSleep(timeout) => SleepMeans(k, timeout);
  }

  lemma ResumeRunsOn(k: State)
    requires Good(k) && !Me(k).cont.Run? && RingsSound(k.bufs) && !GivesUp(k, Resume)
    ensures RunsOn(k, Next(k, Resume).0)
  {
    var k1, k2, w := ResumeMeans(k);
    var k' := Next(k, Resume).0;
    var k0 := k.(threads := k.threads[k.running := k.threads[k.running].(cont := Run)]);
    if Me(k).cont.Waiting? {
      match Me(k).cont.why
      case ForSend(to, text) => DeliveredRunsOn(k0, k', to, text);
      case ForReceive => SuppliesRunsOn(k0, k', k0.threads[k0.running].semSend, 1);
      case ForPut(b, c) => StoredRunsOn(k1, k2, k', b, c);
      case ForPutLock(b, c) => StoredRunsOn(k0, k2, k', b, c);
      case ForGet(b) => FetchedRunsOn(k1, k2, k', b, Next(k, Resume).1);
      case ForGetLock(b) => FetchedRunsOn(k0, k2, k', b, Next(k, Resume).1);
      case _ =>
    }
  }

  /** Only yield, exit, suspension and the timer take the processor away. */
  lemma KeepsProcessor(k: State, step: Step)
    requires Good(k) && Enabled(k, step) && RingsSound(k.bufs) && !step.Tick? && !GivesUp(k, step)
    ensures RunsOn(k, Next(k, step).0)
  {
    match step
    case Sys(call) => CallRunsOn(k, call);
    case Resume => ResumeRunsOn(k);
  }

  lemma ReachableRings(r: Trace, i: nat)
    requires FromBoot(r) && i < |r.states|
    ensures RingsSound(r.states[i].bufs)
  {
    RingOverRun(r, 0, i);
    RingOverRun(r, 1, i);
    var k := r.states[i];
    forall b: nat | b < |k.bufs|
      ensures RingSound(k.bufs[b])
    {
      assert Holds(Bf(k, b), Puts(r, b, i), Gets(r, b, i));
    }
  }

  lemma SliceStays(k: State, step: Step, u: Tid)
    requires Good(k) && Enabled(k, step) && u < |k.threads|
    ensures u < |Next(k, step).0.threads| && Th(Next(k, step).0, u).slice == Th(k, u).slice
  {
    if step.Tick? {
      var woken := TickMeans(k);
    } else {
      StepFair(k, step);
    }
  }

  /** u has the processor and has used `used` ticks of its slice of n. */
  ghost predicate Using(k: State, u: Tid, n: nat, used: nat) {
    k.running == u && u < |k.threads| && k.threads[u].slice == n && k.sliceTicks == used
  }

  lemma UsesOn(r: Trace, i: nat, u: Tid, n: nat, used: nat)
    requires FromBoot(r) && i < |r.steps| && !GivesUp(r.states[i], r.steps[i]) && Using(r.states[i], u, n, used)
    requires r.steps[i].Tick? ==> used + 1 < n
    ensures Using(r.states[i + 1], u, n, used + if r.steps[i].Tick? then 1 else 0)
  {
    Reachable(r, i);
    assert StepOf(r, i);
    SliceStays(r.states[i], r.steps[i], u);
    if r.steps[i].Tick? {
      var woken := TickMeans(r.states[i]);
    } else {
      ReachableRings(r, i);
      KeepsProcessor(r.states[i], r.steps[i]);
    }
  }

  lemma TicksOn(r: Trace, i: nat, j: nat)
    requires i <= j < |r.steps|
    ensures Ticks(r.steps[i..j + 1]) == Ticks(r.steps[i..j]) + if r.steps[j].Tick? then 1 else 0
  {
    assert r.steps[i..j + 1][..j - i] == r.steps[i..j];
  }

  /** In none of the steps i to j - 1 the running thread gives the processor away. */
  ghost predicate NeverGivesUp(r: Trace, i: nat, j: nat)
    requires |r.states| == |r.steps| + 1 && j <= |r.steps|
  {
    forall m: nat :: i <= m < j ==> !GivesUp(r.states[m], r.steps[m])
  }

  lemma NotGivenUp(r: Trace, i: nat, j: nat)
    requires |r.states| == |r.steps| + 1 && i <= j < |r.steps| && NeverGivesUp(r, i, j + 1)
    ensures NeverGivesUp(r, i, j) && !GivesUp(r.states[j], r.steps[j])
  {
  }

  /** A thread that has just got the processor, and does not give it up, keeps it while fewer ticks than
      its slice have passed. */
  lemma {:induction false} RunsItsSlice(r: Trace, i: nat, j: nat, u: Tid, n: nat)
    requires FromBoot(r) && i <= j <= |r.steps| && Using(r.states[i], u, n, 0)
    requires NeverGivesUp(r, i, j)
    requires Ticks(r.steps[i..j]) < n
    ensures Using(r.states[j], u, n, Ticks(r.steps[i..j]))
    decreases j
  {
    if i < j {
      TicksOn(r, i, j - 1);
      NotGivenUp(r, i, j - 1);
      RunsItsSlice(r, i, j - 1, u, n);
      UsesOn(r, j - 1, u, n, Ticks(r.steps[i..j - 1]));
    }
  }

  /** On the tick that uses up the slice the next in line runs; the thread itself is last in line, behind
      whom that tick has woken. */
  lemma PreemptedAtSlice(r: Trace, i: nat, j: nat, u: Tid, n: nat) returns (woken: seq<Tid>)
    requires FromBoot(r) && i <= j < |r.steps| && Using(r.states[i], u, n, 0)
    requires NeverGivesUp(r, i, j)
    requires r.steps[j].Tick? && Ticks(r.steps[i..j + 1]) == n
    ensures TimeOn(r.states[j], r.states[j + 1], woken)
    ensures Dispatched(r.states[j + 1], r.states[j].ready + woken + if u == IDLE then [] else [u])
  {
    TicksOn(r, i, j);
    RunsItsSlice(r, i, j, u, n);
    Reachable(r, j);
    assert StepOf(r, j);
    woken := TickMeans(r.states[j]);
  }
}
