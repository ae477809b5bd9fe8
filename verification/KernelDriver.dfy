/** The kernel's objects under any script of requests and timer ticks: from boot on they stand, after
    every step, for the state that the state machine of KernelSpec has reached. */
module KernelDriver {
  import opened KernelTypes
  import opened KernelSpec
  import opened KernelSteps
  import opened Families
  import opened RingFrames
  import opened StepEffects
  import opened KernelRuns
  import opened KernelMatch
  import opened KernelRounds
  import opened KernelCode
  import opened ThreadCode
  import opened KernelCalls
  import opened KernelBoot

  /** A thread's number names its object, and only the idle thread's number names the idle thread. */
  lemma ThreadHandle(os: Kernel, t: Tid, w: World, k: State)
    requires os.Is(w, k) && t < |k.threads|
    ensures t < |w.tcbs| && KnownThread(w.tcbs[t], w.tcbs) && w.tcbs[t].threadID == t
    ensures w.tcbs[t] == os.idle <==> t == IDLE
  {
    NumberOf(w.tcbs, k.threads, w.sems, t);
    NumberOf(w.tcbs, k.threads, w.sems, IDLE);
  }

  lemma SemHandle(os: Kernel, s: Sid, w: World, k: State)
    requires os.Is(w, k) && s < |k.sems|
    ensures s < |w.sems| && KnownSem(w.sems[s], w.sems) && w.sems[s].semID == s
  {
    SemAt(w.sems, k.sems, w.tcbs, s);
  }

  // ---- the system calls

  method SemCall(os: Kernel, call: Call, w: World, ghost k: State) returns (reply: Reply)
    requires os.Is(w, k) && Busy(k) && CallOk(k, call) && CallFamily(call) == Users
    modifies os`running, os`timeSliceCounter, os.scheduler, os.sleep, w.tcbs, w.sems
    ensures os.Is(w, Syscall(k, call).0) && reply == Syscall(k, call).1
  {
    SemHandle(os, call.s, w, k);
    RunningFree(k);
    var sem := w.sems[call.s];
    match call
    case CallSemClose(_) =>
      var r := os.Close(sem, w, k, {k.running});
      reply := Value(r);
    case CallSemWait(_, tokens) =>
      var r := os.Wait(sem, tokens, ForSem, w, k);
      reply := AsReply(r);
    case CallSemSignal(_, tokens) =>
      var r := os.Signal(sem, tokens, w, k, {k.running});
      reply := Value(r);
    case CallSemTimedWait(_, timeout, tokens) =>
      var r := os.TimedWait(sem, timeout, tokens, ForSem, w, k);
      reply := AsReply(r);
    case CallSemTryWait(_, tokens) =>
      var r := os.TryWait(sem, tokens, w, k);
      reply := Value(r);
  }

  /** A child count of 64 bits. */
  ghost predicate CountFits(k: State, call: Call) {
    call.CallJoinAll? || call.CallTimedJoinAll? ==> Me(k).children < TWO64
  }

  method JoinCall(os: Kernel, call: Call, w: World, ghost k: State) returns (reply: Reply)
    requires os.Is(w, k) && Busy(k) && CallOk(k, call) && CallFamily(call) == Joins && CountFits(k, call)
    modifies os`running, os`timeSliceCounter, os.scheduler, os.sleep, w.tcbs, w.sems
    ensures os.Is(w, Syscall(k, call).0) && reply == Syscall(k, call).1
  {
    os.RunningSees(w, k);
    match call
    case CallJoin(t) =>
      ThreadHandle(os, t, w, k);
      reply := KernelCalls.Join(os, w.tcbs[t], w, k);
    case CallTimedJoin(t, timeout) =>
      ThreadHandle(os, t, w, k);
      reply := KernelCalls.TimedJoin(os, w.tcbs[t], timeout, w, k);
    case CallJoinAll => reply := KernelCalls.JoinAll(os, w, k);
    case CallTimedJoinAll(timeout) => reply := KernelCalls.TimedJoinAll(os, timeout, w, k);
  }

  method MailCall(os: Kernel, call: Call, w: World, ghost k: State) returns (reply: Reply)
    requires os.Is(w, k) && Busy(k) && CallOk(k, call) && CallFamily(call) == Mail
    modifies os`running, os`timeSliceCounter, os.scheduler, os.sleep, w.tcbs, w.sems
    ensures os.Is(w, Syscall(k, call).0) && Answers(reply, Syscall(k, call).1)
  {
    match call
    case CallSend(t, text) =>
      ThreadHandle(os, t, w, k);
      CStringOfText(text);
      reply := KernelCalls.Send(os, w.tcbs[t], text + ['\0'], w, k);
    case CallReceive => reply := KernelCalls.Receive(os, w, k);
  }

  method OtherCall(os: Kernel, call: Call, w: World, ghost k: State) returns (reply: Reply)
    requires os.Is(w, k) && Busy(k) && CallOk(k, call) && (call.CallExit? || call.CallDispatch? || call.CallSleep?)
    modifies os`running, os`timeSliceCounter, os.scheduler, os.sleep, w.tcbs, w.sems
    ensures os.Is(w, Syscall(k, call).0) && reply == Syscall(k, call).1
  {
    RunningFree(k);
    match call
    case CallExit(status) =>
      ThreadCode.Finish(os, status, w, k);
      reply := NoReply;
    case CallDispatch =>
      os.Yield(true, w, k);
      reply := Value(0);
    case CallSleep(timeout) =>
      var r := os.Sleep(timeout, Cont.Sleeping, w, k);
      reply := AsReply(r);
  }

  predicate Plain(call: Call) {
    CallFamily(call) != Buffers && !call.CallCreate? && !call.CallSemOpen?
  }

  /** Says nothing of x.  It is what the quantifiers of Handled, Ready, MayTick and Standing match on: a
      proof that only hands such a predicate on never sees the state machine inside it, and one that
      needs it asserts Named of the call or state in question. */
  ghost predicate Named<T>(x: T) {
    true
  }

  /** k' and the reply are what the state machine gives for the call; folded until the call is Named. */
  ghost predicate Handled(k: State, call: Call, k': State, reply: Reply) {
    forall c: Call {:trigger Named(c)} :: Named(c) && c == call ==>
      k' == Syscall(k, c).0 && Answers(reply, Syscall(k, c).1)
  }

  /** The running thread may make the call, and it concerns neither the rings nor the creation of
      objects; folded until the call is Named. */
  ghost predicate Ready(k: State, call: Call) {
    forall c: Call {:trigger Named(c)} :: Named(c) && c == call ==>
      Busy(k) && CallOk(k, c) && Plain(c) && CountFits(k, c)
  }

  method PlainCall(os: Kernel, call: Call, w: World, ghost k: State) returns (reply: Reply, ghost k': State)
    requires os.Is(w, k) && Ready(k, call)
    modifies os`running, os`timeSliceCounter, os.scheduler, os.sleep, w.tcbs, w.sems
    ensures os.Is(w, k') && Handled(k, call, k', reply)
  {
    assert Named(call);
    k' := Syscall(k, call).0;
    match CallFamily(call)
    case Users => reply := SemCall(os, call, w, k);
    case Joins => reply := JoinCall(os, call, w, k);
    case Mail => reply := MailCall(os, call, w, k);
    case Other => reply := OtherCall(os, call, w, k);
  }

  /** The rings do not notice. */
  method CallBeside(os: Kernel, call: Call, ghost rings: Rings, w: World, ghost k: State)
    returns (reply: Reply, ghost k': State)
    requires os.Is(w, k) && Ready(k, call) && RingsMatch(rings, k.bufs, w.sems)
    modifies os`running, os`timeSliceCounter, os.scheduler, os.sleep, w.tcbs, w.sems
    ensures os.Is(w, k') && Handled(k, call, k', reply) && RingsMatch(rings, k.bufs, w.sems)
  {
    reply, k' := PlainCall(os, call, w, k);
  }

  method CallPlain(os: Kernel, call: Call, ghost rings: Rings, w: World, ghost k: State) returns (reply: Reply)
    requires os.Is(w, k) && Busy(k) && CallOk(k, call) && Plain(call) && CountFits(k, call)
    requires RingsMatch(rings, k.bufs, w.sems)
    modifies os`running, os`timeSliceCounter, os.scheduler, os.sleep, w.tcbs, w.sems
    ensures os.Is(w, Syscall(k, call).0) && Answers(reply, Syscall(k, call).1) && RingsMatch(rings, k.bufs, w.sems)
  {
    ghost var k';
    reply, k' := CallBeside(os, call, rings, w, k);
    assert Named(call);
  }

  /** w' has everything that w has, and otherwise new objects. */
  twostate predicate Grown(w: World, new w': World) {
    && w.tcbs <= w'.tcbs && w.sems <= w'.sems
    && (forall i: nat :: |w.tcbs| <= i < |w'.tcbs| ==> fresh(w'.tcbs[i]))
    && (forall i: nat :: |w.sems| <= i < |w'.sems| ==> fresh(w'.sems[i]))
  }

  method CreateCall(os: Kernel, slice: nat, ghost rings: Rings, memory: seq<char>, w: World, ghost k: State)
    returns (reply: Reply, w': World)
    requires os.Is(w, k) && Busy(k) && RingsMatch(rings, k.bufs, w.sems) && |memory| == MSG_LEN + 1
    modifies os.scheduler, w.tcbs
    ensures os.Is(w', Create(k, slice)) && reply == Reply.Handle(|k.threads|) && Grown(w, w')
    ensures RingsMatch(rings, k.bufs, w'.sems)
  {
    var tcb;
    tcb, w' := ThreadCreate(os, slice, memory, w, k);
    reply := Reply.Handle(tcb.threadID);
    assert unchanged(rings.input`posW, rings.input`posR, rings.input.buffer);
    assert unchanged(rings.output`posW, rings.output`posR, rings.output.buffer);
  }

  method OpenCall(os: Kernel, init: uint64, ghost rings: Rings, w: World, ghost k: State)
    returns (reply: Reply, w': World)
    requires os.Is(w, k) && RingsMatch(rings, k.bufs, w.sems)
    ensures os.Is(w', SemOpen(k, init)) && reply == Reply.Handle(|k.sems|) && Grown(w, w')
    ensures RingsMatch(rings, k.bufs, w'.sems)
  {
    ghost var k';
    var sem;
    sem, w', k' := NewSem(os, init, UserSem, w, k);
    reply := Reply.Handle(sem.semID);
  }

  /** Any call of a running thread. */
  method Handle(os: Kernel, call: Call, rings: Rings, memory: seq<char>, w: World, ghost k: State)
    returns (reply: Reply, w': World)
    requires os.Is(w, k) && Busy(k) && CallOk(k, call) && CountFits(k, call) && |memory| == MSG_LEN + 1
    requires RingsMatch(rings, k.bufs, w.sems) && RingsSound(k.bufs)
    modifies rings.input`posW, rings.input`posR, rings.input.buffer, rings.output`posW, rings.output`posR
    modifies rings.output.buffer
    modifies os`running, os`timeSliceCounter, os.scheduler, os.sleep, w.tcbs, w.sems
    ensures os.Is(w', Syscall(k, call).0) && Answers(reply, Syscall(k, call).1) && Grown(w, w')
    ensures RingsMatch(rings, Syscall(k, call).0.bufs, w'.sems)
  {
    w' := w;
    match call
    case CallCreate(slice) =>
      CallRings(k, call);
      reply, w' := CreateCall(os, slice, rings, memory, w, k);
    case CallSemOpen(init) =>
      CallRings(k, call);
      reply, w' := OpenCall(os, init, rings, w, k);
    case CallPut(b, c) => reply := PutIn(os, rings, c, b, w, k);
    case CallGet(b) => reply := GetIn(os, rings, b, w, k);
    case _ =>
      CallRings(k, call);
      reply := CallPlain(os, call, rings, w, k);
  }

  // ---- steps

  /** A yield or a tick that the rings do not notice. */
  method YieldBeside(os: Kernel, ghost rings: Rings, ghost w: World, ghost k: State)
    requires os.Is(w, k) && k.running !in k.ready && RingsMatch(rings, k.bufs, w.sems)
    modifies os`running, os`timeSliceCounter, os.scheduler, w.tcbs
    ensures os.Is(w, Yield(k, true)) && RingsMatch(rings, k.bufs, w.sems)
  {
    os.Yield(true, w, k);
    assert unchanged(rings.input`posW, rings.input`posR, rings.input.buffer);
    assert unchanged(rings.output`posW, rings.output`posR, rings.output.buffer);
  }

  /** A state between steps, folded until it is Named. */
  ghost predicate MayTick(k: State) {
    forall x: State {:trigger Named(x)} :: Named(x) && x == k ==> Good(x)
  }

  method Tick(os: Kernel, ghost w: World, ghost k: State)
    requires os.Is(w, k) && MayTick(k)
    modifies os`running, os`timeSliceCounter, os.scheduler, os.sleep, w.tcbs, w.sems
    ensures os.Is(w, TickStep(k))
  {
    assert Named(k);
    os.TimerTick(w, k);
  }

  method TickBeside(os: Kernel, ghost rings: Rings, ghost w: World, ghost k: State)
    requires os.Is(w, k) && MayTick(k) && RingsMatch(rings, k.bufs, w.sems)
    modifies os`running, os`timeSliceCounter, os.scheduler, os.sleep, w.tcbs, w.sems
    ensures os.Is(w, TickStep(k)) && RingsMatch(rings, k.bufs, w.sems)
  {
    Tick(os, w, k);
    assert unchanged(rings.input`posW, rings.input`posR, rings.input.buffer);
    assert unchanged(rings.output`posW, rings.output`posR, rings.output.buffer);
  }

  lemma TickRings(k: State)
    requires Good(k)
    ensures TickStep(k).bufs == k.bufs
  {
    var k1 := TickParts(k);
  }

  /** Any step of the state machine, on the objects. */
  method Step(os: Kernel, step: KernelSpec.Step, rings: Rings, memory: seq<char>, w: World, ghost k: State)
    returns (reply: Reply, w': World)
    requires os.Is(w, k) && Good(k) && Enabled(k, step) && |memory| == MSG_LEN + 1
    requires step.Sys? ==> CountFits(k, step.call)
    requires RingsMatch(rings, k.bufs, w.sems) && RingsSound(k.bufs)
    modifies rings.input`posW, rings.input`posR, rings.input.buffer, rings.output`posW, rings.output`posR
    modifies rings.output.buffer
    modifies os`running, os`timeSliceCounter, os.scheduler, os.sleep, w.tcbs, w.sems
    ensures os.Is(w', Next(k, step).0) && Answers(reply, Next(k, step).1) && Grown(w, w')
    ensures RingsMatch(rings, Next(k, step).0.bufs, w'.sems)
  {
    w' := w;
    match step
    case Tick =>
      TickRings(k);
      TickBeside(os, rings, w, k);
      reply := NoReply;
    case Resume => reply := KernelCalls.Resume(os, rings, w, k);
    case Sys(call) => reply, w' := HandleOrIdle(os, call, rings, memory, w, k);
  }

  /** The idle thread only yields. */
  method HandleOrIdle(os: Kernel, call: Call, rings: Rings, memory: seq<char>, w: World, ghost k: State)
    returns (reply: Reply, w': World)
    requires os.Is(w, k) && Good(k) && Enabled(k, Sys(call)) && CountFits(k, call) && |memory| == MSG_LEN + 1
    requires RingsMatch(rings, k.bufs, w.sems) && RingsSound(k.bufs)
    modifies rings.input`posW, rings.input`posR, rings.input.buffer, rings.output`posW, rings.output`posR
    modifies rings.output.buffer
    modifies os`running, os`timeSliceCounter, os.scheduler, os.sleep, w.tcbs, w.sems
    ensures os.Is(w', Syscall(k, call).0) && Answers(reply, Syscall(k, call).1) && Grown(w, w')
    ensures RingsMatch(rings, Syscall(k, call).0.bufs, w'.sems)
  {
    os.RunningSees(w, k);
    RunningFree(k);
    if os.running.threadID == IDLE {
      w' := w;
      YieldBeside(os, rings, w, k);
      reply := Value(0);
    } else {
      reply, w' := Handle(os, call, rings, memory, w, k);
    }
  }

  // ---- scripts

  /** A state, and the semaphores that sem_open has given out. */
  datatype Play = Play(k: State, users: set<Sid>)

  /** A step that the kernel can take: calls name threads that exist and semaphores that were given out. */
  ghost predicate Admits(p: Play, step: KernelSpec.Step) {
    && Enabled(p.k, step)
    && (step.Sys? ==> CountFits(p.k, step.call) && (CallFamily(step.call) == Users ==> step.call.s in p.users))
  }

  ghost function Advance(p: Play, step: KernelSpec.Step): Play {
    if !Admits(p, step) then p
    else Play(Next(p.k, step).0, if step.Sys? && step.call.CallSemOpen? then p.users + {|p.k.sems|} else p.users)
  }

  /** The steps of a script one after the other; the kernel skips what it does not admit. */
  ghost function Played(p: Play, script: seq<KernelSpec.Step>): Play
    decreases |script|
  {
    if script == [] then p else Played(Advance(p, script[0]), script[1..])
  }

  ghost predicate UsersOk(k: State, users: set<Sid>) {
    forall s: Sid :: s in users ==> s < |k.sems| && Sm(k, s).kind.UserSem?
  }

  ghost predicate PlayOk(p: Play) {
    Good(p.k) && UsersOk(p.k, p.users) && RingsSound(p.k.bufs) && |p.k.bufs| == 2
  }

  lemma KindStays(k: State, step: KernelSpec.Step, s: Sid)
    requires Good(k) && Enabled(k, step) && s < |k.sems|
    ensures s < |Next(k, step).0.sems| && Sm(Next(k, step).0, s).kind == Sm(k, s).kind
  {
    if step.Tick? {
      var k1 := TickParts(k);
    } else {
      StepFair(k, step);
      assert SemStory(Sm(k, s), Sm(Next(k, step).0, s), k.running);
    }
  }

  lemma CallSound(k: State, call: Call)
    requires Busy(k) && CallOk(k, call) && RingsSound(k.bufs)
    ensures RingsSound(Syscall(k, call).0.bufs) && |Syscall(k, call).0.bufs| == |k.bufs|
  {
    match call
    case CallPut(b, c) =>
      PutRings(k, b, c);
      OneRingSound(k.bufs, KernelSpec.Put(k, b, c).0.bufs, b);
    case CallGet(b) =>
      GetRings(k, b);
      OneRingSound(k.bufs, KernelSpec.Get(k, b).0.bufs, b);
    case _ => CallRings(k, call);
  }

  lemma GoesOnSound(k: State, why: Why)
    requires Busy(k) && WhyInRange(k, why) && RingsSound(k.bufs)
    ensures RingsSound(GoesOn(k, why).0.bufs) && |GoesOn(k, why).0.bufs| == |k.bufs|
  {
    match why
    case ForPut(b, c) =>
      PutLockedRings(k, b, c);
      OneRingSound(k.bufs, KernelSpec.PutLocked(k, b, c).0.bufs, b);
    case ForPutLock(b, c) =>
      PutBodyRings(k, b, c);
      OneRingSound(k.bufs, KernelSpec.PutBody(k, b, c).0.bufs, b);
    case ForGet(b) =>
      GetLockedRings(k, b);
      OneRingSound(k.bufs, KernelSpec.GetLocked(k, b).0.bufs, b);
    case ForGetLock(b) =>
      GetBodyRings(k, b);
      OneRingSound(k.bufs, KernelSpec.GetBody(k, b).0.bufs, b);
    case _ => GoesOnRings(k, why);
  }

  lemma StepSound(k: State, step: KernelSpec.Step)
    requires Good(k) && Enabled(k, step) && RingsSound(k.bufs)
    ensures RingsSound(Next(k, step).0.bufs) && |Next(k, step).0.bufs| == |k.bufs|
  {
    match step
    case Tick => TickRings(k);
    case Resume =>
      ResumeIs(k);
      if Me(k).cont.Waiting? { GoesOnSound(WithCont(k, Run), Me(k).cont.why); }
    case Sys(call) => if k.running != IDLE { CallSound(k, call); }
  }

  lemma OpenedUser(k: State, call: Call)
    requires Busy(k) && CallOk(k, call) && call.CallSemOpen?
    ensures var k' := Syscall(k, call).0;
      |k'.sems| == |k.sems| + 1 && Sm(k', |k.sems|).kind.UserSem?
  {
  }

  lemma AdvanceOk(p: Play, step: KernelSpec.Step)
    requires PlayOk(p)
    ensures PlayOk(Advance(p, step))
  {
    if Admits(p, step) {
      NextGood(p.k, step);
      StepSound(p.k, step);
      var q := Advance(p, step);
      forall s: Sid | s in q.users
        ensures s < |q.k.sems| && Sm(q.k, s).kind.UserSem?
      {
        if s in p.users { KindStays(p.k, step, s); } else { OpenedUser(p.k, step.call); }
      }
    }
  }

  /** What a script plays is a run from boot. */
  lemma PlayIsRun(script: seq<KernelSpec.Step>) returns (r: Trace)
    ensures FromBoot(r) && r.states[|r.steps|] == Played(Play(Init(), {}), script).k
  {
    r := PlayOnRun(Trace([Init()], []), Play(Init(), {}), script);
  }

  lemma {:induction false} PlayOnRun(q: Trace, p: Play, script: seq<KernelSpec.Step>) returns (r: Trace)
    requires FromBoot(q) && q.states[|q.steps|] == p.k
    ensures FromBoot(r) && r.states[|r.steps|] == Played(p, script).k
    decreases |script|
  {
    r := q;
    if script != [] {
      r := RunOn(q, p, script[0]);
      r := PlayOnRun(r, Advance(p, script[0]), script[1..]);
    }
  }

  lemma RunOn(q: Trace, p: Play, step: KernelSpec.Step) returns (r: Trace)
    requires FromBoot(q) && q.states[|q.steps|] == p.k
    ensures FromBoot(r) && r.states[|r.steps|] == Advance(p, step).k
  {
    r := q;
    if Admits(p, step) {
      r := Trace(q.states + [Next(p.k, step).0], q.steps + [step]);
      forall i: nat | i < |r.steps|
        ensures StepOf(r, i)
      {
        if i < |q.steps| { assert StepOf(q, i); }
      }
    }
  }

  /** The driver's test, on what it can see. */
  predicate CallFits(call: Call, nThreads: nat, users: set<Sid>, children: nat) {
    match call
    case CallCreate(slice) => slice < TWO64
    case CallJoin(t) => t < nThreads && t != IDLE
    case CallTimedJoin(t, timeout) => t < nThreads && t != IDLE && timeout < TWO64
    case CallJoinAll => children < TWO64
    case CallTimedJoinAll(timeout) => timeout < TWO64 && children < TWO64
    case CallSemOpen(init) => init < TWO64
    case CallSemClose(s) => s in users
    case CallSemWait(s, tokens) => s in users && tokens < TWO64
    case CallSemSignal(s, tokens) => s in users && tokens < TWO64
    case CallSemTimedWait(s, timeout, tokens) => s in users && timeout < TWO64 && tokens < TWO64
    case CallSemTryWait(s, tokens) => s in users && tokens < TWO64
    case CallSleep(timeout) => timeout < TWO64
    case CallSend(t, text) => t < nThreads && t != IDLE && '\0' !in text
    case CallPut(b, _) => b < 2
    case CallGet(b) => b < 2
    case _ => true
  }

  lemma FitsIs(p: Play, call: Call)
    requires PlayOk(p)
    ensures CallFits(call, |p.k.threads|, p.users, Me(p.k).children)
       <==> CallOk(p.k, call) && CountFits(p.k, call) && (CallFamily(call) == Users ==> call.s in p.users)
  {
    if CallFamily(call) == Users && call.s in p.users { assert p.k.sems[call.s] == Sm(p.k, call.s); }
  }

  method Admissible(os: Kernel, step: KernelSpec.Step, users: set<Sid>, w: World, ghost p: Play) returns (ok: bool)
    requires os.Is(w, p.k) && PlayOk(p) && p.users == users
    ensures ok <==> Admits(p, step)
  {
    os.RunningSees(w, p.k);
    match step
    case Tick => ok := os.running.cont.Run?;
    case Resume => ok := !os.running.cont.Run?;
    case Sys(call) =>
      FitsIs(p, call);
      ok := os.running.cont.Run? && (os.running.threadID == IDLE ==> call.CallDispatch?)
            && CallFits(call, |w.tcbs|, users, os.running.numOfActiveChildren);
  }

  method Take(os: Kernel, step: KernelSpec.Step, users: set<Sid>, rings: Rings, memory: seq<char>, w: World,
              ghost p: Play)
    returns (w': World, users': set<Sid>)
    requires os.Is(w, p.k) && PlayOk(p) && p.users == users && Admits(p, step) && |memory| == MSG_LEN + 1
    requires RingsMatch(rings, p.k.bufs, w.sems)
    modifies rings.input`posW, rings.input`posR, rings.input.buffer, rings.output`posW, rings.output`posR
    modifies rings.output.buffer
    modifies os`running, os`timeSliceCounter, os.scheduler, os.sleep, w.tcbs, w.sems
    ensures var q := Advance(p, step);
      os.Is(w', q.k) && users' == q.users && RingsMatch(rings, q.k.bufs, w'.sems) && Grown(w, w')
  {
    var reply;
    reply, w' := Step(os, step, rings, memory, w, p.k);
    users' := users;
    if step.Sys? && step.call.CallSemOpen? { users' := users + {reply.id}; }
  }

  method TakeOrSkip(os: Kernel, step: KernelSpec.Step, users: set<Sid>, rings: Rings, memory: seq<char>, w: World,
                    ghost p: Play)
    returns (w': World, users': set<Sid>)
    requires os.Is(w, p.k) && PlayOk(p) && p.users == users && |memory| == MSG_LEN + 1
    requires RingsMatch(rings, p.k.bufs, w.sems)
    modifies rings.input`posW, rings.input`posR, rings.input.buffer, rings.output`posW, rings.output`posR
    modifies rings.output.buffer
    modifies os`running, os`timeSliceCounter, os.scheduler, os.sleep, w.tcbs, w.sems
    ensures var q := Advance(p, step);
      os.Is(w', q.k) && users' == q.users && RingsMatch(rings, q.k.bufs, w'.sems) && Grown(w, w')
  {
    w', users' := w, users;
    var ok := Admissible(os, step, users, w, p);
    if ok { w', users' := Take(os, step, users, rings, memory, w, p); }
  }

  /** The objects stand for p, folded until p is Named. */
  ghost predicate Standing(os: Kernel, rings: Rings, w: World, users: set<Sid>, p: Play)
    reads os, os.scheduler, os.sleep, w.tcbs, w.sems, rings.input, rings.output, rings.input.buffer, rings.output.buffer
  {
    forall x: Play {:trigger Named(x)} :: Named(x) && x == p ==>
      os.Is(w, x.k) && RingsMatch(rings, x.k.bufs, w.sems) && PlayOk(x) && x.users == users
  }

  method PlayStep(os: Kernel, step: KernelSpec.Step, users: set<Sid>, rings: Rings, memory: seq<char>, w: World,
                  ghost p: Play)
    returns (w': World, users': set<Sid>)
    requires Standing(os, rings, w, users, p) && |memory| == MSG_LEN + 1
    modifies rings.input`posW, rings.input`posR, rings.input.buffer, rings.output`posW, rings.output`posR
    modifies rings.output.buffer
    modifies os`running, os`timeSliceCounter, os.scheduler, os.sleep, w.tcbs, w.sems
    ensures Standing(os, rings, w', users', Advance(p, step)) && Grown(w, w')
  {
    assert Named(p);
    AdvanceOk(p, step);
    w', users' := TakeOrSkip(os, step, users, rings, memory, w, p);
  }

  method PlayOn(os: Kernel, script: seq<KernelSpec.Step>, users: set<Sid>, rings: Rings, memory: seq<char>, w: World,
                ghost p: Play)
    returns (w': World, users': set<Sid>)
    requires Standing(os, rings, w, users, p) && |memory| == MSG_LEN + 1
    modifies rings.input`posW, rings.input`posR, rings.input.buffer, rings.output`posW, rings.output`posR
    modifies rings.output.buffer
    modifies os`running, os`timeSliceCounter, os.scheduler, os.sleep, w.tcbs, w.sems
    ensures Standing(os, rings, w', users', Played(p, script))
    decreases |script|
  {
    w', users' := w, users;
    if script != [] {
      w', users' := PlayStep(os, script[0], users, rings, memory, w, p);
      w', users' := PlayOn(os, script[1..], users', rings, memory, w', Advance(p, script[0]));
    }
  }

  lemma BootOk()
    ensures PlayOk(Play(Init(), {}))
  {
    InitGood();
  }

  method Start(memory: seq<char>) returns (os: Kernel, w: World, rings: Rings)
    requires |memory| == MSG_LEN + 1
    ensures Standing(os, rings, w, {}, Play(Init(), {}))
    ensures fresh(os) && fresh(os.scheduler) && fresh(os.sleep)
    ensures (forall i :: 0 <= i < |w.tcbs| ==> fresh(w.tcbs[i])) && (forall i :: 0 <= i < |w.sems| ==> fresh(w.sems[i]))
    ensures fresh(rings.input) && fresh(rings.output) && fresh(rings.input.buffer) && fresh(rings.output.buffer)
  {
    os, w, rings := Boot(memory);
    BootOk();
  }

  /** Boots the kernel and plays a script: after any script the objects stand for the state that the
      script plays, which is the last of a run from boot (PlayIsRun). */
  method Drive(script: seq<KernelSpec.Step>, memory: seq<char>) returns (os: Kernel, w: World, rings: Rings)
    requires |memory| == MSG_LEN + 1
    ensures os.Is(w, Played(Play(Init(), {}), script).k)
    ensures RingsMatch(rings, Played(Play(Init(), {}), script).k.bufs, w.sems)
  {
    os, w, rings := Start(memory);
    var users;
    w, users := PlayOn(os, script, {}, rings, memory, w, Play(Init(), {}));
    assert Named(Played(Play(Init(), {}), script));
  }
}
