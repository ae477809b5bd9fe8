/** The kernel as functions on State: every static method of Scheduler, Sleep, kSemaphore and TCB,
    and every system call handler.  A blocking call is cut at TCB::yield: what follows the yield is
    the continuation saved in Thread.cont and is executed by Resume.

    Lookups are total (NO_THREAD, NO_SEM for an unknown number); in every reachable state all
    stored numbers are in range (PlaceInvariant.Core). */
module KernelSpec {
  import opened Entries
  import opened KernelTypes
  import opened SleepSpec

  const NO_THREAD: Thread :=
    Thread(None, true, 0, 0, 1, false, None, Regular, 0, 0, 0, 0, None, Run)

  const NO_SEM: Sem := Sem(UserSem, false, 0, [])

  const NO_BUFFER: Buffer := Buffer([], 0, 0, 0, 0, 0)

  function Th(k: State, t: Tid): Thread {
    if t < |k.threads| then k.threads[t] else NO_THREAD
  }

  function Sm(k: State, s: Sid): Sem {
    if s < |k.sems| then k.sems[s] else NO_SEM
  }

  function Bf(k: State, b: nat): Buffer {
    if b < |k.bufs| then k.bufs[b] else NO_BUFFER
  }

  function SetTh(k: State, t: Tid, th: Thread): State {
    if t < |k.threads| then k.(threads := k.threads[t := th]) else k
  }

  function SetSm(k: State, s: Sid, x: Sem): State {
    if s < |k.sems| then k.(sems := k.sems[s := x]) else k
  }

  function SetBf(k: State, b: nat, x: Buffer): State {
    if b < |k.bufs| then k.(bufs := k.bufs[b := x]) else k
  }

  function Me(k: State): Thread {
    Th(k, k.running)
  }

  function WithManner(k: State, t: Tid, m: Manner): State {
    SetTh(k, t, Th(k, t).(manner := m))
  }

  function WithValue(k: State, s: Sid, v: nat): State {
    SetSm(k, s, Sm(k, s).(value := v))
  }

  function WithCont(k: State, c: Cont): State {
    SetTh(k, k.running, Me(k).(cont := c))
  }

  // ---- src/scheduler.cpp

  function SchedPut(k: State, t: Tid): State {
    if t == IDLE then k else k.(ready := k.ready + [t])
  }

  function SchedGet(k: State): State {
    if k.ready == [] then k.(running := IDLE) else k.(running := k.ready[0], ready := k.ready[1..])
  }

  // ---- src/tcb.cpp: yield

  /** A thread that could run on goes to the end of the line. */
  function Requeued(k: State, put: bool): State {
    var me := Me(k);
    if !me.finished && me.blockedAt.None? && !me.sleeps && put then SchedPut(k, k.running) else k
  }

  function Yield(k: State, put: bool): State {
    SchedGet(Requeued(k, put)).(sliceTicks := 0)
  }

  // ---- src/kSemaphore.cpp: put and get

  function SemPut(k: State, s: Sid, t: Tid, tokens: nat): State {
    var k1 := SetSm(k, s, Sm(k, s).(queue := Sm(k, s).queue + [Entry(t, tokens)]));
    SetTh(k1, t, Th(k1, t).(blockedAt := Some(s)))
  }

  /** Takes entry i off the queue of s. */
  function Unlink(k: State, s: Sid, i: nat): State
    requires i < |Sm(k, s).queue|
  {
    var t := Sm(k, s).queue[i].tid;
    var k1 := SetSm(k, s, Sm(k, s).(queue := DropAt(Sm(k, s).queue, i)));
    SetTh(k1, t, Th(k1, t).(blockedAt := None))
  }

  /** kSemaphore::get(tcb). */
  function SemGet(k: State, s: Sid, t: Tid): State {
    var i := IndexOf(Sm(k, s).queue, t);
    if Th(k, t).blockedAt == Some(s) && i < |Sm(k, s).queue| then Unlink(k, s, i) else k
  }

  // ---- src/sleep.cpp

  function SleepPut(k: State, t: Tid, timeout: nat): State {
    var k1 := k.(sleepers := Insert(k.sleepers, t, timeout));
    SetTh(k1, t, Th(k1, t).(sleeps := true))
  }

  /** Takes entry i off the sleep list. */
  function SleepUnlink(k: State, i: nat): State
    requires i < |k.sleepers|
  {
    var t := k.sleepers[i].tid;
    var k1 := k.(sleepers := Remove(k.sleepers, i));
    SetTh(k1, t, Th(k1, t).(sleeps := false))
  }

  /** Sleep::get(tcb). */
  function SleepGet(k: State, t: Tid): State {
    var i := IndexOf(k.sleepers, t);
    if Th(k, t).sleeps && i < |k.sleepers| then SleepUnlink(k, i) else k
  }

  /** One round of the loop of Sleep::onTick: the head is due. */
  function ExpireHead(k: State): State
    requires k.sleepers != []
  {
    var t := k.sleepers[0].tid;
    var k1 := SleepUnlink(k, 0);
    var k2 := if Th(k1, t).blockedAt.Some?
              then var g := SemGet(k1, Th(k1, t).blockedAt.value, t);
                   WithManner(g, t, WaitTimeout)
              else k1;
    SchedPut(k2, t)
  }

  function ExpireLoop(k: State): State
    decreases |k.sleepers|
  {
    if k.sleepers != [] && k.sleepers[0].n == 0
    then ExpireLoop(ExpireHead(k))
    else k
  }

  function DeltasCounted(k: State): State {
    k.(sleepers := Decrement(k.sleepers))
  }

  function OnTick(k: State): State {
    ExpireLoop(DeltasCounted(k))
  }

  // ---- src/kSemaphore.cpp: signal, signalAll, close

  /** One round of the loops of signal and signalAll: the first waiter is released. */
  function GrantHead(k: State, s: Sid, m: Manner): (r: State)
    requires Sm(k, s).queue != []
    ensures r.sems == k.sems[s := k.sems[s].(queue := k.sems[s].queue[1..])]
  {
    var t := Sm(k, s).queue[0].tid;
    var k1 := Unlink(k, s, 0);
    assert DropAt(Sm(k, s).queue, 0) == Sm(k, s).queue[1..];
    var k2 := if Th(k1, t).sleeps then SleepGet(k1, t) else k1;
    SchedPut(WithManner(k2, t, m), t)
  }

  function SignalLoop(k: State, s: Sid, tokens: nat): State
    decreases |Sm(k, s).queue|
  {
    var q := Sm(k, s).queue;
    if q == [] || tokens == 0 then WithValue(k, s, Wrap(Sm(k, s).value + tokens))
    else if tokens >= q[0].n then SignalLoop(GrantHead(k, s, Regular), s, tokens - q[0].n)
    else SetSm(k, s, Sm(k, s).(queue := [Entry(q[0].tid, q[0].n - tokens)] + q[1..]))
  }

  function Signal(k: State, s: Sid, tokens: nat): (State, int) {
    if !Sm(k, s).active then (k, ERR_SEM_DEAD) else (SignalLoop(k, s, tokens), 0)
  }

  function ReleaseAll(k: State, s: Sid, m: Manner): State
    decreases |Sm(k, s).queue|
  {
    if Sm(k, s).queue == [] then k else ReleaseAll(GrantHead(k, s, m), s, m)
  }

  function SignalAll(k: State, s: Sid, tokens: nat, onClose: bool): State {
    if !Sm(k, s).active then k
    else
      var k1 := ReleaseAll(k, s, if onClose then OnClose else Regular);
      WithValue(k1, s, tokens)
  }

  function Close(k: State, s: Sid): (State, int) {
    if !Sm(k, s).active then (k, ERR_SEM_DEAD)
    else
      var k1 := SignalAll(k, s, 0, true);
      (SetSm(k1, s, Sm(k1, s).(active := false)), 0)
  }

  // ---- src/kSemaphore.cpp: wait, tryWait, timedWait; h/kSemaphore.hpp: resolveManner

  function ResolveManner(m: Manner): int {
    match m
    case Regular => 0
    case OnClose => ERR_SEM_WAITCLOSE
    case WaitTimeout => TIMEOUT
  }

  /** The branch shared by wait and timedWait when the value suffices. */
  function Take(k: State, s: Sid, tokens: nat): State
    requires Sm(k, s).value >= tokens
  {
    var k1 := WithValue(k, s, Sm(k, s).value - tokens);
    WithManner(k1, k1.running, Regular)
  }

  /** The branch shared by wait and timedWait when it does not: absorb the value and queue up. */
  function Absorb(k: State, s: Sid, tokens: nat): State
    requires Sm(k, s).value < tokens
  {
    var k1 := WithValue(k, s, 0);
    SemPut(k1, s, k.running, tokens - Sm(k, s).value)
  }

  /** Saves the continuation of the running thread and switches to another one. */
  function Suspend(k: State, c: Cont): State {
    Yield(WithCont(k, c), false)
  }

  /** None: the caller is suspended and `why` says how it continues. */
  function Wait(k: State, s: Sid, tokens: nat, why: Why): (State, Option<int>) {
    if !Sm(k, s).active then (k, Some(ERR_SEM_DEAD))
    else if Sm(k, s).value >= tokens then (Take(k, s, tokens), Some(ResolveManner(Regular)))
    else (Suspend(Absorb(k, s, tokens), Waiting(s, why)), None)
  }

  function TryWait(k: State, s: Sid, tokens: nat): (State, int) {
    if !Sm(k, s).active then (k, ERR_SEM_DEAD)
    else if Sm(k, s).value >= tokens then (Take(k, s, tokens), 0)
    else (WithManner(k, k.running, Regular), 1)
  }

  /** Sleep::sleep with a zero timeout: no sleep, and a waiter gives up at once. */
  function SleepZero(k: State): State {
    var me := k.running;
    if Th(k, me).blockedAt.Some?
    then var g := SemGet(k, Th(k, me).blockedAt.value, me);
         WithManner(g, me, WaitTimeout)
    else k
  }

  function Sleep(k: State, timeout: nat, c: Cont): (State, Option<int>) {
    if timeout == 0 then (SleepZero(k), Some(ERR_SLEEP_ZERO))
    else (Suspend(SleepPut(k, k.running, timeout), c), None)
  }

  function TimedWait(k: State, s: Sid, timeout: nat, tokens: nat, why: Why): (State, Option<int>) {
    if !Sm(k, s).active then (k, Some(ERR_SEM_DEAD))
    else if Sm(k, s).value >= tokens then (Take(k, s, tokens), Some(ResolveManner(Regular)))
    else
      var (k1, r) := Sleep(Absorb(k, s, tokens), timeout, Waiting(s, why));
      if r.Some? then (k1, Some(ResolveManner(Me(k1).manner))) else (k1, None)
  }

  // ---- src/tcb.cpp: threadCreate, finish

  function Clamp(slice: nat): nat {
    if slice == 0 then 1 else if slice > MAX_TIME_SLICE then MAX_TIME_SLICE else slice
  }

  function NewThread(parent: Option<Tid>, slice: nat, firstSem: Sid): Thread {
    Thread(parent, false, 0, 0, Clamp(slice), false, None, Regular,
           firstSem, firstSem + 1, firstSem + 2, firstSem + 3, None, Run)
  }

  function NewSems(t: Tid): seq<Sem> {
    [Sem(JoinOf(t), true, 0, []), Sem(JoinAllOf(t), true, 0, []),
     Sem(SendOf(t), true, 1, []), Sem(ReceiveOf(t), true, 0, [])]
  }

  function Create(k: State, slice: nat): State {
    var t := |k.threads|;
    var k1 := k.(threads := k.threads + [NewThread(Some(k.running), slice, |k.sems|)],
                 sems := k.sems + NewSems(t));
    var k2 := SchedPut(k1, t);
    SetTh(k2, k2.running, Me(k2).(children := Me(k2).children + 1))
  }

  /** The child count is unsigned. */
  function Fewer(n: nat): nat {
    if n > 0 then n - 1 else TWO64 - 1
  }

  function ChildDropped(k: State, p: Tid): State {
    SetTh(k, p, Th(k, p).(children := Fewer(Th(k, p).children)))
  }

  /** A thread in its joinAll gets one token. */
  function ParentWoken(k: State, p: Tid): State {
    if Th(k, p).blockedAt == Some(Th(k, p).semJoinAll) then Signal(k, Th(k, p).semJoinAll, 1).0 else k
  }

  /** finish tells the parent, waking it when this was the last child it waited for. */
  function NotifyParent(k: State): State {
    match Me(k).parent
    case None => k
    case Some(p) => if Th(k, p).finished then k else ParentWoken(ChildDropped(k, p), p)
  }

  function CloseMail(k: State): State {
    Close(Close(k, Me(k).semSend).0, Me(k).semReceive).0
  }

  function CloseJoin(k: State): State {
    Close(SignalAll(k, Me(k).semJoin, 0, false), Me(k).semJoin).0
  }

  /** The last lines of finish before the yield: the thread leaves every queue and is marked. */
  function Retire(k: State, status: int): State {
    var me := k.running;
    var k1 := if Th(k, me).blockedAt.Some? then SemGet(k, Th(k, me).blockedAt.value, me) else k;
    var k2 := if Th(k1, me).sleeps then SleepGet(k1, me) else k1;
    SetTh(k2, me, Th(k2, me).(exitStatus := status, finished := true))
  }

  function Finish(k: State, status: int): State {
    var k1 := NotifyParent(CloseJoin(CloseMail(k)));
    var k2 := Close(k1, Me(k1).semJoinAll).0;
    Yield(Retire(k2, status), false)
  }

  // ---- h/io.hpp: CharBuffer

  function RingPut(k: State, b: nat, c: char): State {
    var x := Bf(k, b);
    if x.posW < |x.data|
    then SetBf(k, b, x.(data := x.data[x.posW := c], posW := (x.posW + 1) % BUFFER_LENGTH))
    else k
  }

  function RingGet(k: State, b: nat): (State, char) {
    var x := Bf(k, b);
    if x.posR < |x.data|
    then (SetBf(k, b, x.(posR := (x.posR + 1) % BUFFER_LENGTH)), x.data[x.posR])
    else (k, '\0')
  }

  datatype Reply =
    | Suspended
    | Value(r: int)
    | Handle(id: nat)
    | Text(text: Option<string>)
    | Chr(c: char)
    | NoReply

  function PutBody(k: State, b: nat, c: char): (State, Reply) {
    var k1 := RingPut(k, b, c);
    var k2 := Signal(k1, Bf(k1, b).mutex, 1).0;
    (Signal(k2, Bf(k2, b).semGet, 1).0, Value(0))
  }

  function PutLocked(k: State, b: nat, c: char): (State, Reply) {
    var (k1, w) := Wait(k, Bf(k, b).mutex, 1, ForPutLock(b, c));
    if w.None? then (k1, Suspended) else PutBody(k1, b, c)
  }

  function Put(k: State, b: nat, c: char): (State, Reply) {
    var (k1, w) := Wait(k, Bf(k, b).semPut, 1, ForPut(b, c));
    if w.None? then (k1, Suspended) else PutLocked(k1, b, c)
  }

  function GetBody(k: State, b: nat): (State, Reply) {
    var (k1, c) := RingGet(k, b);
    var k2 := Signal(k1, Bf(k1, b).mutex, 1).0;
    (Signal(k2, Bf(k2, b).semPut, 1).0, Chr(c))
  }

  function GetLocked(k: State, b: nat): (State, Reply) {
    var (k1, w) := Wait(k, Bf(k, b).mutex, 1, ForGetLock(b));
    if w.None? then (k1, Suspended) else GetBody(k1, b)
  }

  function Get(k: State, b: nat): (State, Reply) {
    var (k1, w) := Wait(k, Bf(k, b).semGet, 1, ForGet(b));
    if w.None? then (k1, Suspended) else GetLocked(k1, b)
  }

  // ---- src/kernel.cpp: handlers

  function SendBody(k: State, to: Tid, text: string): (State, Reply) {
    var k1 := SetTh(k, to, Th(k, to).(message := Some(Truncate(text))));
    (Signal(k1, Th(k1, to).semReceive, 1).0, Value(0))
  }

  function Send(k: State, to: Tid, text: string): (State, Reply) {
    if to == k.running then (k, Value(0))
    else
      var (k1, w) := Wait(k, Th(k, to).semSend, 1, ForSend(to, text));
      if w.None? then (k1, Suspended) else SendBody(k1, to, text)
  }

  function ReceiveBody(k: State): (State, Reply) {
    (Signal(k, Me(k).semSend, 1).0, Text(Me(k).message))
  }

  function Receive(k: State): (State, Reply) {
    var (k1, w) := Wait(k, Me(k).semReceive, 1, ForReceive);
    if w.None? then (k1, Suspended) else ReceiveBody(k1)
  }

  function ReplyOf(w: (State, Option<int>)): (State, Reply) {
    (w.0, if w.1.None? then Suspended else Value(w.1.value))
  }

  function Join(k: State, t: Tid): (State, Reply) {
    if t == k.running then (k, Value(ERR_THREAD_SELFJOIN))
    else if Th(k, t).finished then (k, Value(0))
    else ReplyOf(Wait(k, Th(k, t).semJoin, 1, ForJoin(t)))
  }

  function TimedJoin(k: State, t: Tid, timeout: nat): (State, Reply) {
    if t == k.running then (k, Value(ERR_THREAD_SELFJOIN))
    else if Th(k, t).finished then (k, Value(0))
    else ReplyOf(TimedWait(k, Th(k, t).semJoin, timeout, 1, ForJoin(t)))
  }

  function JoinAll(k: State): (State, Reply) {
    var (k1, w) := Wait(k, Me(k).semJoinAll, Me(k).children, ForJoinAll);
    if w.None? then (k1, Suspended) else (k1, Value(0))
  }

  function TimedJoinAll(k: State, timeout: nat): (State, Reply) {
    var (k1, w) := TimedWait(k, Me(k).semJoinAll, timeout, Me(k).children, ForTimedJoinAll);
    if w.None? then (k1, Suspended) else (k1, Value(Me(k1).children))
  }

  function SemOpen(k: State, init: nat): State {
    k.(sems := k.sems + [Sem(UserSem, true, init, [])])
  }

  // ---- steps

  /** What the running thread may ask for.  The sem system calls use one token; the kSemaphore
      methods behind them take any number, and so do the calls here. */
  datatype Call =
    | CallCreate(slice: nat)
    | CallExit(status: int)
    | CallDispatch
    | CallJoin(t: Tid)
    | CallTimedJoin(t: Tid, timeout: nat)
    | CallJoinAll
    | CallTimedJoinAll(timeout: nat)
    | CallSemOpen(init: nat)
    | CallSemClose(s: Sid)
    | CallSemWait(s: Sid, tokens: nat)
    | CallSemSignal(s: Sid, tokens: nat)
    | CallSemTimedWait(s: Sid, timeout: nat, tokens: nat)
    | CallSemTryWait(s: Sid, tokens: nat)
    | CallSleep(timeout: nat)
    | CallSend(t: Tid, text: string)
    | CallReceive
    | CallPut(b: nat, c: char)
    | CallGet(b: nat)

  datatype Step = Sys(call: Call) | Resume | Tick

  function Syscall(k: State, call: Call): (State, Reply) {
    match call
    case CallCreate(slice) => (Create(k, slice), Handle(|k.threads|))
    case CallExit(status) => (Finish(k, status), NoReply)
    case CallDispatch => (Yield(k, true), Value(0))
    case CallJoin(t) => Join(k, t)
    case CallTimedJoin(t, timeout) => TimedJoin(k, t, timeout)
    case CallJoinAll => JoinAll(k)
    case CallTimedJoinAll(timeout) => TimedJoinAll(k, timeout)
    case CallSemOpen(init) => (SemOpen(k, init), Handle(|k.sems|))
    case CallSemClose(s) => (Close(k, s).0, Value(Close(k, s).1))
    case CallSemWait(s, tokens) => ReplyOf(Wait(k, s, tokens, ForSem))
    case CallSemSignal(s, tokens) => (Signal(k, s, tokens).0, Value(Signal(k, s, tokens).1))
    case CallSemTimedWait(s, timeout, tokens) => ReplyOf(TimedWait(k, s, timeout, tokens, ForSem))
    case CallSemTryWait(s, tokens) => (TryWait(k, s, tokens).0, Value(TryWait(k, s, tokens).1))
    case CallSleep(timeout) => ReplyOf(Sleep(k, timeout, Sleeping))
    case CallSend(t, text) => Send(k, t, text)
    case CallReceive => Receive(k)
    case CallPut(b, c) => Put(k, b, c)
    case CallGet(b) => Get(k, b)
  }

  /** The dispatched thread executes what follows its yield. */
  function ResumeStep(k: State): (State, Reply) {
    var c := Me(k).cont;
    var k1 := WithCont(k, Run);
    match c
    case Run => (k, NoReply)
    case Sleeping => (k1, Value(0))
    case Waiting(_, why) =>
      match why
      case ForSem => (k1, Value(ResolveManner(Me(k1).manner)))
      case ForJoin(_) => (k1, Value(ResolveManner(Me(k1).manner)))
      case ForJoinAll => (k1, Value(0))
      case ForTimedJoinAll => (k1, Value(Me(k1).children))
      case ForSend(to, text) => SendBody(k1, to, text)
      case ForReceive => ReceiveBody(k1)
      case ForPut(b, ch) => PutLocked(k1, b, ch)
      case ForPutLock(b, ch) => PutBody(k1, b, ch)
      case ForGet(b) => GetLocked(k1, b)
      case ForGetLock(b) => GetBody(k1, b)
  }

  /** A thread whose slice is used up goes to the end of the line. */
  function Preempted(k: State): State {
    if k.sliceTicks >= Me(k).slice then Yield(k, true) else k
  }

  function SliceCounted(k: State): State {
    k.(sliceTicks := k.sliceTicks + 1)
  }

  /** The timer branch of handleSupervisorTrap. */
  function TickStep(k: State): State {
    Preempted(OnTick(SliceCounted(k)))
  }

  function Next(k: State, step: Step): (State, Reply) {
    match step
    case Sys(call) => Syscall(k, call)
    case Resume => ResumeStep(k)
    case Tick => (TickStep(k), NoReply)
  }

  /** Handles are those that sem_open and thread_create gave out; numbers are 64 bits wide; a text is
      what stands before the NUL of a string. */
  predicate CallOk(k: State, call: Call) {
    match call
    case CallCreate(slice) => slice < TWO64
    case CallJoin(t) => t < |k.threads| && t != IDLE
    case CallTimedJoin(t, timeout) => t < |k.threads| && t != IDLE && timeout < TWO64
    case CallTimedJoinAll(timeout) => timeout < TWO64
    case CallSemOpen(init) => init < TWO64
    case CallSemClose(s) => s < |k.sems| && k.sems[s].kind.UserSem?
    case CallSemWait(s, tokens) => s < |k.sems| && k.sems[s].kind.UserSem? && tokens < TWO64
    case CallSemSignal(s, tokens) => s < |k.sems| && k.sems[s].kind.UserSem? && tokens < TWO64
    case CallSemTimedWait(s, timeout, tokens) =>
      s < |k.sems| && k.sems[s].kind.UserSem? && timeout < TWO64 && tokens < TWO64
    case CallSemTryWait(s, tokens) => s < |k.sems| && k.sems[s].kind.UserSem? && tokens < TWO64
    case CallSleep(timeout) => timeout < TWO64
    case CallSend(t, text) => t < |k.threads| && t != IDLE && '\0' !in text
    case CallPut(b, _) => b < |k.bufs|
    case CallGet(b) => b < |k.bufs|
    case _ => true
  }

  /** The kernel runs with interrupts masked: a dispatched continuation runs before anything else.
      The idle thread only yields. */
  predicate Enabled(k: State, step: Step) {
    match step
    case Sys(call) => Me(k).cont.Run? && CallOk(k, call) && (k.running == IDLE ==> call.CallDispatch?)
    case Resume => !Me(k).cont.Run?
    case Tick => Me(k).cont.Run?
  }

  // ---- src/main.cpp: the state when the master thread starts to run

  function NewBuffer(b: nat, firstSem: Sid): Buffer {
    Buffer(seq(BUFFER_LENGTH, _ => '\0'), 0, 0, firstSem, firstSem + 1, firstSem + 2)
  }

  function NewBufferSems(b: nat): seq<Sem> {
    [Sem(PutOf(b), true, BUFFER_LENGTH, []), Sem(GetOf(b), true, 0, []), Sem(LockOf(b), true, 1, [])]
  }

  function Init(): State {
    State([NewThread(None, DEFAULT_TIME_SLICE, 0).(children := 1),
           NewThread(Some(MASTER), DEFAULT_TIME_SLICE, 4)],
          NewSems(MASTER) + NewSems(IDLE) + NewBufferSems(0) + NewBufferSems(1),
          [NewBuffer(0, 8), NewBuffer(1, 11)],
          MASTER, 0, [], [])
  }
}
