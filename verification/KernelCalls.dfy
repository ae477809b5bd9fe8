/** src/kernel.cpp and h/io.hpp: the system call handlers on the kernel's objects.  A handler that may
    suspend its caller comes in parts, cut where TCB::yield is called; Resume enters the part that
    the dispatched thread has saved. */
module KernelCalls {
  import opened KernelTypes
  import opened KernelSpec
  import opened PlaceInvariant
  import opened KernelSteps
  import opened Families
  import opened RingFrames
  import opened KernelObjects
  import opened KernelMatch
  import opened KernelLists
  import opened KernelRounds
  import opened KernelCode
  import opened ThreadCode

  function AsReply(r: Option<int>): Reply {
    match r
    case None => Suspended
    case Some(v) => Value(v)
  }

  // ---- join

  method Join(os: Kernel, tcb: TCB, ghost w: World, ghost k: State) returns (reply: Reply)
    requires os.Is(w, k) && KnownThread(tcb, w.tcbs) && Busy(k)
    modifies os`running, os`timeSliceCounter, os.scheduler, w.tcbs, w.sems
    ensures os.Is(w, KernelSpec.Join(k, tcb.threadID).0) && reply == KernelSpec.Join(k, tcb.threadID).1
  {
    os.RunningSees(w, k);
    os.ThreadSees(tcb, w, k);
    OwnSems(os, tcb, w, k);
    RunningFree(k);
    if tcb == os.running { return Value(ERR_THREAD_SELFJOIN); }
    if tcb.finished { return Value(0); }
    var r := os.Wait(tcb.semJoin, 1, ForJoin(tcb.threadID), w, k);
    reply := AsReply(r);
  }

  method TimedJoin(os: Kernel, tcb: TCB, timeout: uint64, ghost w: World, ghost k: State) returns (reply: Reply)
    requires os.Is(w, k) && KnownThread(tcb, w.tcbs) && Busy(k)
    modifies os`running, os`timeSliceCounter, os.scheduler, os.sleep, w.tcbs, w.sems
    ensures os.Is(w, KernelSpec.TimedJoin(k, tcb.threadID, timeout).0)
    ensures reply == KernelSpec.TimedJoin(k, tcb.threadID, timeout).1
  {
    os.RunningSees(w, k);
    os.ThreadSees(tcb, w, k);
    OwnSems(os, tcb, w, k);
    if tcb == os.running { return Value(ERR_THREAD_SELFJOIN); }
    if tcb.finished { return Value(0); }
    var r := os.TimedWait(tcb.semJoin, timeout, 1, ForJoin(tcb.threadID), w, k);
    reply := AsReply(r);
  }

  method JoinAll(os: Kernel, ghost w: World, ghost k: State) returns (reply: Reply)
    requires os.Is(w, k) && Busy(k) && os.running.numOfActiveChildren < TWO64
    modifies os`running, os`timeSliceCounter, os.scheduler, w.tcbs, w.sems
    ensures os.Is(w, KernelSpec.JoinAll(k).0) && reply == KernelSpec.JoinAll(k).1
  {
    os.RunningSees(w, k);
    OwnSems(os, os.running, w, k);
    RunningFree(k);
    var r := os.Wait(os.running.semJoinAll, os.running.numOfActiveChildren, ForJoinAll, w, k);
    reply := if r.None? then Suspended else Value(0);
  }

  method TimedJoinAll(os: Kernel, timeout: uint64, ghost w: World, ghost k: State) returns (reply: Reply)
    requires os.Is(w, k) && Busy(k) && os.running.numOfActiveChildren < TWO64
    modifies os`running, os`timeSliceCounter, os.scheduler, os.sleep, w.tcbs, w.sems
    ensures os.Is(w, KernelSpec.TimedJoinAll(k, timeout).0) && reply == KernelSpec.TimedJoinAll(k, timeout).1
  {
    os.RunningSees(w, k);
    OwnSems(os, os.running, w, k);
    ghost var s, n := Me(k).semJoinAll, Me(k).children;
    var r := os.TimedWait(os.running.semJoinAll, timeout, os.running.numOfActiveChildren, ForTimedJoinAll, w, k);
    if r.None? { return Suspended; }
    os.RunningSees(w, KernelSpec.TimedWait(k, s, timeout, n, ForTimedJoinAll).0);
    reply := Value(os.running.numOfActiveChildren);
  }

  // ---- send and receive

  method PutText(os: Kernel, tcb: TCB, msg: seq<char>, ghost w: World, ghost k: State)
    requires os.Is(w, k) && KnownThread(tcb, w.tcbs) && '\0' in msg
    modifies tcb`message
    ensures os.Is(w, TextPut(k, tcb.threadID, CString(msg)))
  {
    SetMessage(tcb, msg, w.tcbs, w.sems, k.threads);
  }

  /** setMsg, semReceive->signal() */
  method SendBody(os: Kernel, tcb: TCB, msg: seq<char>, ghost w: World, ghost k: State) returns (reply: Reply)
    requires os.Is(w, k) && KnownThread(tcb, w.tcbs) && '\0' in msg && Busy(k)
    modifies os.scheduler, os.sleep, w.tcbs, w.sems
    ensures os.Is(w, KernelSpec.SendBody(k, tcb.threadID, CString(msg)).0)
    ensures reply == KernelSpec.SendBody(k, tcb.threadID, CString(msg)).1
  {
    os.ThreadSees(tcb, w, k);
    SendBodyIs(k, tcb.threadID, CString(msg));
    PutText(os, tcb, msg, w, k);
    ghost var k1 := TextPut(k, tcb.threadID, CString(msg));
    OwnSems(os, tcb, w, k1);
    var _ := os.Signal(tcb.semReceive, 1, w, k1, {k.running});
    reply := Value(0);
  }

  method Send(os: Kernel, tcb: TCB, msg: seq<char>, ghost w: World, ghost k: State) returns (reply: Reply)
    requires os.Is(w, k) && KnownThread(tcb, w.tcbs) && '\0' in msg && Busy(k) && tcb != os.idle
    modifies os`running, os`timeSliceCounter, os.scheduler, os.sleep, w.tcbs, w.sems
    ensures os.Is(w, KernelSpec.Send(k, tcb.threadID, CString(msg)).0)
    ensures reply == KernelSpec.Send(k, tcb.threadID, CString(msg)).1
  {
    os.RunningSees(w, k);
    os.ThreadSees(tcb, w, k);
    OwnSems(os, tcb, w, k);
    if tcb == os.running { return Value(0); }
    CStringAt(msg);
    SendIs(k, tcb.threadID, CString(msg));
    ghost var why := ForSend(tcb.threadID, CString(msg));
    var r := WaitToSend(os, tcb, msg, w, k);
    if r.None? { return Suspended; }
    reply := SendBody(os, tcb, msg, w, KernelSpec.Wait(k, Th(k, tcb.threadID).semSend, 1, why).0);
  }

  method WaitToSend(os: Kernel, tcb: TCB, msg: seq<char>, ghost w: World, ghost k: State) returns (r: Option<int>)
    requires os.Is(w, k) && KnownThread(tcb, w.tcbs) && '\0' in msg && Busy(k)
    modifies os`running, os`timeSliceCounter, os.scheduler, w.tcbs, w.sems
    ensures var why := ForSend(tcb.threadID, CString(msg));
      && os.Is(w, KernelSpec.Wait(k, Th(k, tcb.threadID).semSend, 1, why).0)
      && r == KernelSpec.Wait(k, Th(k, tcb.threadID).semSend, 1, why).1
  {
    OwnSems(os, tcb, w, k);
    RunningFree(k);
    r := os.Wait(tcb.semSend, 1, ForSend(tcb.threadID, CString(msg)), w, k);
  }

  /** What receive hands out before the first setMsg is whatever the buffer held. */
  ghost predicate Answers(reply: Reply, spec: Reply) {
    reply == spec || (spec == Text(None) && reply.Text?)
  }

  /** msg = running->message; semSend->signal() */
  method ReceiveBody(os: Kernel, ghost w: World, ghost k: State) returns (reply: Reply)
    requires os.Is(w, k) && Busy(k)
    modifies os.scheduler, os.sleep, w.tcbs, w.sems
    ensures os.Is(w, KernelSpec.ReceiveBody(k).0) && Answers(reply, KernelSpec.ReceiveBody(k).1)
  {
    os.RunningSees(w, k);
    OwnSems(os, os.running, w, k);
    reply := Text(Some(CString(os.running.message)));
    var _ := os.Signal(os.running.semSend, 1, w, k, {k.running});
  }

  method Receive(os: Kernel, ghost w: World, ghost k: State) returns (reply: Reply)
    requires os.Is(w, k) && Busy(k)
    modifies os`running, os`timeSliceCounter, os.scheduler, os.sleep, w.tcbs, w.sems
    ensures os.Is(w, KernelSpec.Receive(k).0) && Answers(reply, KernelSpec.Receive(k).1)
  {
    os.RunningSees(w, k);
    OwnSems(os, os.running, w, k);
    ReceiveIs(k);
    var r := os.Wait(os.running.semReceive, 1, ForReceive, w, k);
    if r.None? { return Suspended; }
    reply := ReceiveBody(os, w, KernelSpec.Wait(k, Me(k).semReceive, 1, ForReceive).0);
  }

  // ---- character buffers

  /** The semaphores of a ring are those whose numbers k records. */
  lemma RingSems(os: Kernel, ring: CharRing, x: Buffer, w: World, k: State)
    requires os.Is(w, k) && RingIs(ring, x, w.sems)
    ensures KnownSem(ring.semPut, w.sems) && ring.semPut.semID == x.semPut
    ensures KnownSem(ring.semGet, w.sems) && ring.semGet.semID == x.semGet
    ensures KnownSem(ring.mutex, w.sems) && ring.mutex.semID == x.mutex
  {
    SemAt(w.sems, k.sems, w.tcbs, x.semPut);
    SemAt(w.sems, k.sems, w.tcbs, x.semGet);
    SemAt(w.sems, k.sems, w.tcbs, x.mutex);
  }

  method Store(os: Kernel, ring: CharRing, ghost other: CharRing, ghost y: Buffer, c: char, b: nat, ghost w: World,
               ghost k: State)
    requires os.Is(w, k) && b < |k.bufs| && RingIs(ring, k.bufs[b], w.sems) && ring.posW < ring.buffer.Length
    requires Beside(ring, other, y, w.sems)
    modifies ring`posW, ring.buffer
    ensures os.Is(w, RingPut(k, b, c)) && RingIs(ring, Bf(RingPut(k, b, c), b), w.sems)
    ensures Beside(ring, other, y, w.sems)
  {
    ring.Put(c);
  }

  method Fetch(os: Kernel, ring: CharRing, ghost other: CharRing, ghost y: Buffer, b: nat, ghost w: World,
               ghost k: State)
    returns (c: char)
    requires os.Is(w, k) && b < |k.bufs| && RingIs(ring, k.bufs[b], w.sems) && ring.posR < ring.buffer.Length
    requires Beside(ring, other, y, w.sems)
    modifies ring`posR
    ensures c == RingGet(k, b).1
    ensures os.Is(w, RingGet(k, b).0) && RingIs(ring, Bf(RingGet(k, b).0, b), w.sems) && Beside(ring, other, y, w.sems)
  {
    c := ring.Get();
  }

  /** signal() leaves the rings alone. */
  method SignalOne(os: Kernel, ring: CharRing, ghost other: CharRing, ghost y: Buffer, sem: Semaphore,
                   ghost x: Buffer, ghost w: World, ghost k: State)
    requires os.Is(w, k) && Core(k, {k.running}) && KnownSem(sem, w.sems) && RingIs(ring, x, w.sems)
    requires Beside(ring, other, y, w.sems)
    modifies os.scheduler, os.sleep, w.tcbs, w.sems
    ensures os.Is(w, KernelSpec.Signal(k, sem.semID, 1).0) && RingIs(ring, x, w.sems) && Beside(ring, other, y, w.sems)
  {
    var _ := os.Signal(sem, 1, w, k, {k.running});
  }

  method SignalBoth(os: Kernel, ring: CharRing, ghost other: CharRing, ghost y: Buffer, first: Semaphore,
                    second: Semaphore, ghost x: Buffer, ghost w: World, ghost k: State)
    requires os.Is(w, k) && Busy(k) && KnownSem(first, w.sems) && KnownSem(second, w.sems) && RingIs(ring, x, w.sems)
    requires Beside(ring, other, y, w.sems)
    modifies os.scheduler, os.sleep, w.tcbs, w.sems
    ensures os.Is(w, BothSignalled(k, first.semID, second.semID)) && RingIs(ring, x, w.sems)
    ensures Beside(ring, other, y, w.sems)
  {
    SignalBusy(k, first.semID, 1);
    SignalOne(os, ring, other, y, first, x, w, k);
    SignalOne(os, ring, other, y, second, x, w, KernelSpec.Signal(k, first.semID, 1).0);
  }

  method LockRing(os: Kernel, ring: CharRing, ghost other: CharRing, ghost y: Buffer, why: Why, ghost x: Buffer,
                  ghost w: World, ghost k: State)
    returns (r: Option<int>)
    requires os.Is(w, k) && RingIs(ring, x, w.sems) && Me(k).blockedAt.None? && k.running !in k.ready
    requires Beside(ring, other, y, w.sems)
    modifies os`running, os`timeSliceCounter, os.scheduler, w.tcbs, w.sems
    ensures os.Is(w, KernelSpec.Wait(k, x.mutex, 1, why).0) && r == KernelSpec.Wait(k, x.mutex, 1, why).1
    ensures RingIs(ring, x, w.sems) && Beside(ring, other, y, w.sems)
  {
    RingSems(os, ring, x, w, k);
    r := os.Wait(ring.mutex, 1, why, w, k);
  }

  /** put(c); mutex->signal(); semGet->signal() */
  method PutBody(os: Kernel, ring: CharRing, ghost other: CharRing, ghost y: Buffer, c: char, b: nat, ghost w: World,
                 ghost k: State)
    returns (reply: Reply)
    requires os.Is(w, k) && b < |k.bufs| && RingIs(ring, k.bufs[b], w.sems) && Busy(k) && ring.posW < ring.buffer.Length
    requires Beside(ring, other, y, w.sems)
    modifies ring`posW, ring.buffer, os.scheduler, os.sleep, w.tcbs, w.sems
    ensures os.Is(w, KernelSpec.PutBody(k, b, c).0) && reply == KernelSpec.PutBody(k, b, c).1
    ensures RingIs(ring, Bf(KernelSpec.PutBody(k, b, c).0, b), w.sems) && Beside(ring, other, y, w.sems)
  {
    PutBodyIs(k, b, c);
    RingSems(os, ring, k.bufs[b], w, k);
    Store(os, ring, other, y, c, b, w, k);
    SignalBoth(os, ring, other, y, ring.mutex, ring.semGet, Bf(RingPut(k, b, c), b), w, RingPut(k, b, c));
    reply := Value(0);
  }

  /** c = get(); mutex->signal(); semPut->signal() */
  method GetBody(os: Kernel, ring: CharRing, ghost other: CharRing, ghost y: Buffer, b: nat, ghost w: World,
                 ghost k: State)
    returns (reply: Reply)
    requires os.Is(w, k) && b < |k.bufs| && RingIs(ring, k.bufs[b], w.sems) && Busy(k) && ring.posR < ring.buffer.Length
    requires Beside(ring, other, y, w.sems)
    modifies ring`posR, os.scheduler, os.sleep, w.tcbs, w.sems
    ensures os.Is(w, KernelSpec.GetBody(k, b).0) && reply == KernelSpec.GetBody(k, b).1
    ensures RingIs(ring, Bf(KernelSpec.GetBody(k, b).0, b), w.sems) && Beside(ring, other, y, w.sems)
  {
    GetBodyIs(k, b);
    RingSems(os, ring, k.bufs[b], w, k);
    var c := Fetch(os, ring, other, y, b, w, k);
    SignalBoth(os, ring, other, y, ring.mutex, ring.semPut, Bf(RingGet(k, b).0, b), w, RingGet(k, b).0);
    reply := Chr(c);
  }

  /** mutex->wait() and what follows it in kPut. */
  method PutLocked(os: Kernel, ring: CharRing, ghost other: CharRing, ghost y: Buffer, c: char, b: nat,
                   ghost w: World, ghost k: State)
    returns (reply: Reply)
    requires os.Is(w, k) && b < |k.bufs| && RingIs(ring, k.bufs[b], w.sems) && Busy(k) && ring.posW < ring.buffer.Length
    requires Beside(ring, other, y, w.sems)
    modifies ring`posW, ring.buffer, os`running, os`timeSliceCounter, os.scheduler, os.sleep, w.tcbs, w.sems
    ensures os.Is(w, KernelSpec.PutLocked(k, b, c).0) && reply == KernelSpec.PutLocked(k, b, c).1
    ensures RingIs(ring, Bf(KernelSpec.PutLocked(k, b, c).0, b), w.sems) && Beside(ring, other, y, w.sems)
  {
    PutLockedIs(k, b, c);
    var r := LockRing(os, ring, other, y, ForPutLock(b, c), k.bufs[b], w, k);
    if r.None? { return Suspended; }
    reply := PutBody(os, ring, other, y, c, b, w, KernelSpec.Wait(k, Bf(k, b).mutex, 1, ForPutLock(b, c)).0);
  }

  /** mutex->wait() and what follows it in kGet. */
  method GetLocked(os: Kernel, ring: CharRing, ghost other: CharRing, ghost y: Buffer, b: nat, ghost w: World,
                   ghost k: State)
    returns (reply: Reply)
    requires os.Is(w, k) && b < |k.bufs| && RingIs(ring, k.bufs[b], w.sems) && Busy(k) && ring.posR < ring.buffer.Length
    requires Beside(ring, other, y, w.sems)
    modifies ring`posR, os`running, os`timeSliceCounter, os.scheduler, os.sleep, w.tcbs, w.sems
    ensures os.Is(w, KernelSpec.GetLocked(k, b).0) && reply == KernelSpec.GetLocked(k, b).1
    ensures RingIs(ring, Bf(KernelSpec.GetLocked(k, b).0, b), w.sems) && Beside(ring, other, y, w.sems)
  {
    GetLockedIs(k, b);
    var r := LockRing(os, ring, other, y, ForGetLock(b), k.bufs[b], w, k);
    if r.None? { return Suspended; }
    reply := GetBody(os, ring, other, y, b, w, KernelSpec.Wait(k, Bf(k, b).mutex, 1, ForGetLock(b)).0);
  }

  /** semPut->wait(), semGet->wait() */
  method EnterRing(os: Kernel, ring: CharRing, ghost other: CharRing, ghost y: Buffer, sem: Semaphore, why: Why,
                   ghost x: Buffer, ghost w: World, ghost k: State)
    returns (r: Option<int>)
    requires os.Is(w, k) && RingIs(ring, x, w.sems) && KnownSem(sem, w.sems) && Me(k).blockedAt.None?
    requires k.running !in k.ready
    requires Beside(ring, other, y, w.sems)
    modifies os`running, os`timeSliceCounter, os.scheduler, w.tcbs, w.sems
    ensures os.Is(w, KernelSpec.Wait(k, sem.semID, 1, why).0) && r == KernelSpec.Wait(k, sem.semID, 1, why).1
    ensures RingIs(ring, x, w.sems) && Beside(ring, other, y, w.sems)
  {
    r := os.Wait(sem, 1, why, w, k);
  }

  /** kPut; the ring's write position is inside the buffer. */
  method Put(os: Kernel, ring: CharRing, ghost other: CharRing, ghost y: Buffer, c: char, b: nat, ghost w: World,
             ghost k: State)
    returns (reply: Reply)
    requires os.Is(w, k) && b < |k.bufs| && RingIs(ring, k.bufs[b], w.sems) && Busy(k) && ring.posW < ring.buffer.Length
    requires Beside(ring, other, y, w.sems)
    modifies ring`posW, ring.buffer, os`running, os`timeSliceCounter, os.scheduler, os.sleep, w.tcbs, w.sems
    ensures os.Is(w, KernelSpec.Put(k, b, c).0) && reply == KernelSpec.Put(k, b, c).1
    ensures RingIs(ring, Bf(KernelSpec.Put(k, b, c).0, b), w.sems) && Beside(ring, other, y, w.sems)
  {
    PutIs(k, b, c);
    RingSems(os, ring, k.bufs[b], w, k);
    var r := EnterRing(os, ring, other, y, ring.semPut, ForPut(b, c), k.bufs[b], w, k);
    if r.None? { return Suspended; }
    reply := PutLocked(os, ring, other, y, c, b, w, KernelSpec.Wait(k, Bf(k, b).semPut, 1, ForPut(b, c)).0);
  }

  /** kGet; the ring's read position is inside the buffer. */
  method Get(os: Kernel, ring: CharRing, ghost other: CharRing, ghost y: Buffer, b: nat, ghost w: World, ghost k: State)
    returns (reply: Reply)
    requires os.Is(w, k) && b < |k.bufs| && RingIs(ring, k.bufs[b], w.sems) && Busy(k) && ring.posR < ring.buffer.Length
    requires Beside(ring, other, y, w.sems)
    modifies ring`posR, os`running, os`timeSliceCounter, os.scheduler, os.sleep, w.tcbs, w.sems
    ensures os.Is(w, KernelSpec.Get(k, b).0) && reply == KernelSpec.Get(k, b).1
    ensures RingIs(ring, Bf(KernelSpec.Get(k, b).0, b), w.sems) && Beside(ring, other, y, w.sems)
  {
    GetIs(k, b);
    RingSems(os, ring, k.bufs[b], w, k);
    var r := EnterRing(os, ring, other, y, ring.semGet, ForGet(b), k.bufs[b], w, k);
    if r.None? { return Suspended; }
    reply := GetLocked(os, ring, other, y, b, w, KernelSpec.Wait(k, Bf(k, b).semGet, 1, ForGet(b)).0);
  }

  // ---- the ring of a call among all rings

  /** Ring b stands for its new value and the other for its old one. */
  lemma BothRings(rings: Rings, was: seq<Buffer>, bufs: seq<Buffer>, b: nat, sems: seq<Semaphore>)
    requires |was| == 2 && b < 2 && OneRing(was, bufs, b) && rings.input != rings.output
    requires rings.input.buffer != rings.output.buffer
    requires RingIs(rings.input, if b == 0 then bufs[0] else was[0], sems)
    requires RingIs(rings.output, if b == 0 then was[1] else bufs[1], sems)
    ensures RingsMatch(rings, bufs, sems)
  {
  }

  method PutBodyIn(os: Kernel, rings: Rings, c: char, b: nat, ghost w: World, ghost k: State) returns (reply: Reply)
    requires os.Is(w, k) && b < |k.bufs| && RingsMatch(rings, k.bufs, w.sems) && RingsSound(k.bufs) && Busy(k)
    modifies rings.input`posW, rings.input.buffer, rings.output`posW, rings.output.buffer
    modifies os.scheduler, os.sleep, w.tcbs, w.sems
    ensures os.Is(w, KernelSpec.PutBody(k, b, c).0) && reply == KernelSpec.PutBody(k, b, c).1
    ensures RingsMatch(rings, KernelSpec.PutBody(k, b, c).0.bufs, w.sems)
  {
    PutBodyRings(k, b, c);
    assert RingSound(k.bufs[b]);
    ghost var bufs: seq<Buffer> := KernelSpec.PutBody(k, b, c).0.bufs;
    if b == 0 {
      reply := PutBody(os, rings.input, rings.output, k.bufs[1], c, b, w, k);
    } else {
      reply := PutBody(os, rings.output, rings.input, k.bufs[0], c, b, w, k);
    }
    BothRings(rings, k.bufs, bufs, b, w.sems);
  }

  method GetBodyIn(os: Kernel, rings: Rings, b: nat, ghost w: World, ghost k: State) returns (reply: Reply)
    requires os.Is(w, k) && b < |k.bufs| && RingsMatch(rings, k.bufs, w.sems) && RingsSound(k.bufs) && Busy(k)
    modifies rings.input`posR, rings.output`posR
    modifies os.scheduler, os.sleep, w.tcbs, w.sems
    ensures os.Is(w, KernelSpec.GetBody(k, b).0) && reply == KernelSpec.GetBody(k, b).1
    ensures RingsMatch(rings, KernelSpec.GetBody(k, b).0.bufs, w.sems)
  {
    GetBodyRings(k, b);
    assert RingSound(k.bufs[b]);
    ghost var bufs: seq<Buffer> := KernelSpec.GetBody(k, b).0.bufs;
    if b == 0 {
      reply := GetBody(os, rings.input, rings.output, k.bufs[1], b, w, k);
    } else {
      reply := GetBody(os, rings.output, rings.input, k.bufs[0], b, w, k);
    }
    BothRings(rings, k.bufs, bufs, b, w.sems);
  }

  method PutLockedIn(os: Kernel, rings: Rings, c: char, b: nat, ghost w: World, ghost k: State) returns (reply: Reply)
    requires os.Is(w, k) && b < |k.bufs| && RingsMatch(rings, k.bufs, w.sems) && RingsSound(k.bufs) && Busy(k)
    modifies rings.input`posW, rings.input.buffer, rings.output`posW, rings.output.buffer
    modifies os`running, os`timeSliceCounter, os.scheduler, os.sleep, w.tcbs, w.sems
    ensures os.Is(w, KernelSpec.PutLocked(k, b, c).0) && reply == KernelSpec.PutLocked(k, b, c).1
    ensures RingsMatch(rings, KernelSpec.PutLocked(k, b, c).0.bufs, w.sems)
  {
    PutLockedRings(k, b, c);
    assert RingSound(k.bufs[b]);
    ghost var bufs: seq<Buffer> := KernelSpec.PutLocked(k, b, c).0.bufs;
    if b == 0 {
      reply := PutLocked(os, rings.input, rings.output, k.bufs[1], c, b, w, k);
    } else {
      reply := PutLocked(os, rings.output, rings.input, k.bufs[0], c, b, w, k);
    }
    BothRings(rings, k.bufs, bufs, b, w.sems);
  }

  method GetLockedIn(os: Kernel, rings: Rings, b: nat, ghost w: World, ghost k: State) returns (reply: Reply)
    requires os.Is(w, k) && b < |k.bufs| && RingsMatch(rings, k.bufs, w.sems) && RingsSound(k.bufs) && Busy(k)
    modifies rings.input`posR, rings.output`posR
    modifies os`running, os`timeSliceCounter, os.scheduler, os.sleep, w.tcbs, w.sems
    ensures os.Is(w, KernelSpec.GetLocked(k, b).0) && reply == KernelSpec.GetLocked(k, b).1
    ensures RingsMatch(rings, KernelSpec.GetLocked(k, b).0.bufs, w.sems)
  {
    GetLockedRings(k, b);
    assert RingSound(k.bufs[b]);
    ghost var bufs: seq<Buffer> := KernelSpec.GetLocked(k, b).0.bufs;
    if b == 0 {
      reply := GetLocked(os, rings.input, rings.output, k.bufs[1], b, w, k);
    } else {
      reply := GetLocked(os, rings.output, rings.input, k.bufs[0], b, w, k);
    }
    BothRings(rings, k.bufs, bufs, b, w.sems);
  }

  method PutIn(os: Kernel, rings: Rings, c: char, b: nat, ghost w: World, ghost k: State) returns (reply: Reply)
    requires os.Is(w, k) && b < |k.bufs| && RingsMatch(rings, k.bufs, w.sems) && RingsSound(k.bufs) && Busy(k)
    modifies rings.input`posW, rings.input.buffer, rings.output`posW, rings.output.buffer
    modifies os`running, os`timeSliceCounter, os.scheduler, os.sleep, w.tcbs, w.sems
    ensures os.Is(w, KernelSpec.Put(k, b, c).0) && reply == KernelSpec.Put(k, b, c).1
    ensures RingsMatch(rings, KernelSpec.Put(k, b, c).0.bufs, w.sems)
  {
    PutRings(k, b, c);
    assert RingSound(k.bufs[b]);
    ghost var bufs: seq<Buffer> := KernelSpec.Put(k, b, c).0.bufs;
    if b == 0 {
      reply := Put(os, rings.input, rings.output, k.bufs[1], c, b, w, k);
    } else {
      reply := Put(os, rings.output, rings.input, k.bufs[0], c, b, w, k);
    }
    BothRings(rings, k.bufs, bufs, b, w.sems);
  }

  method GetIn(os: Kernel, rings: Rings, b: nat, ghost w: World, ghost k: State) returns (reply: Reply)
    requires os.Is(w, k) && b < |k.bufs| && RingsMatch(rings, k.bufs, w.sems) && RingsSound(k.bufs) && Busy(k)
    modifies rings.input`posR, rings.output`posR
    modifies os`running, os`timeSliceCounter, os.scheduler, os.sleep, w.tcbs, w.sems
    ensures os.Is(w, KernelSpec.Get(k, b).0) && reply == KernelSpec.Get(k, b).1
    ensures RingsMatch(rings, KernelSpec.Get(k, b).0.bufs, w.sems)
  {
    GetRings(k, b);
    assert RingSound(k.bufs[b]);
    ghost var bufs: seq<Buffer> := KernelSpec.Get(k, b).0.bufs;
    if b == 0 {
      reply := Get(os, rings.input, rings.output, k.bufs[1], b, w, k);
    } else {
      reply := Get(os, rings.output, rings.input, k.bufs[0], b, w, k);
    }
    BothRings(rings, k.bufs, bufs, b, w.sems);
  }

  method ClearCont(os: Kernel, ghost w: World, ghost k: State)
    requires os.Is(w, k)
    modifies os.running`cont
    ensures os.Is(w, WithCont(k, Run))
  {
    os.Save(Run, w, k);
  }

  // ---- after a dispatch

  method GoOnRing(os: Kernel, why: Why, rings: Rings, ghost w: World, ghost k: State) returns (reply: Reply)
    requires os.Is(w, k) && Busy(k) && WhyInRange(k, why) && WhyFamily(why) == Buffers
    requires RingsMatch(rings, k.bufs, w.sems) && RingsSound(k.bufs)
    modifies rings.input`posW, rings.input`posR, rings.input.buffer, rings.output`posW, rings.output`posR
    modifies rings.output.buffer
    modifies os`running, os`timeSliceCounter, os.scheduler, os.sleep, w.tcbs, w.sems
    ensures os.Is(w, GoesOn(k, why).0) && reply == GoesOn(k, why).1
    ensures RingsMatch(rings, GoesOn(k, why).0.bufs, w.sems)
  {
    match why
    case ForPut(b, c) => reply := PutLockedIn(os, rings, c, b, w, k);
    case ForPutLock(b, c) => reply := PutBodyIn(os, rings, c, b, w, k);
    case ForGet(b) => reply := GetLockedIn(os, rings, b, w, k);
    case ForGetLock(b) => reply := GetBodyIn(os, rings, b, w, k);
  }

  method GoOnOther(os: Kernel, why: Why, w: World, ghost k: State) returns (reply: Reply)
    requires os.Is(w, k) && Busy(k) && WhyInRange(k, why) && WhyFamily(why) != Buffers
    modifies os.scheduler, os.sleep, w.tcbs, w.sems
    ensures os.Is(w, GoesOn(k, why).0) && Answers(reply, GoesOn(k, why).1)
  {
    os.RunningSees(w, k);
    match why
    case ForSem => reply := Value(ResolveManner(os.running.unblockManner));
    case ForJoin(_) => reply := Value(ResolveManner(os.running.unblockManner));
    case ForJoinAll => reply := Value(0);
    case ForTimedJoinAll => reply := Value(os.running.numOfActiveChildren);
    case ForSend(to, text) =>
      NumberOf(w.tcbs, k.threads, w.sems, to);
      CStringOfText(text);
      reply := SendBody(os, w.tcbs[to], text + ['\0'], w, k);
    case ForReceive => reply := ReceiveBody(os, w, k);
  }

  /** The rings do not notice. */
  method GoOnBeside(os: Kernel, why: Why, ghost rings: Rings, w: World, ghost k: State) returns (reply: Reply)
    requires os.Is(w, k) && Busy(k) && WhyInRange(k, why) && WhyFamily(why) != Buffers
    requires RingsMatch(rings, k.bufs, w.sems)
    modifies os.scheduler, os.sleep, w.tcbs, w.sems
    ensures os.Is(w, GoesOn(k, why).0) && Answers(reply, GoesOn(k, why).1) && RingsMatch(rings, k.bufs, w.sems)
  {
    reply := GoOnOther(os, why, w, k);
    assert RingsMatch(rings, k.bufs, w.sems) == old(RingsMatch(rings, k.bufs, w.sems));
  }

  lemma GoesOnRings(k: State, why: Why)
    requires Busy(k) && WhyFamily(why) != Buffers && WhyInRange(k, why)
    ensures GoesOn(k, why).0.bufs == k.bufs
  {
    match why
    case ForSend(to, text) =>
      SendBodyIs(k, to, text);
      SendBodyApart(k, to, text, Buffers);
    case ForReceive => SignalRings(k, Me(k).semSend);
    case _ =>
  }

  /** The dispatched thread's wait, sleep or join returns, or its handler goes on. */
  method Resume(os: Kernel, rings: Rings, w: World, ghost k: State) returns (reply: Reply)
    requires os.Is(w, k) && Good(k) && RingsMatch(rings, k.bufs, w.sems) && RingsSound(k.bufs)
    modifies rings.input`posW, rings.input`posR, rings.input.buffer, rings.output`posW, rings.output`posR
    modifies rings.output.buffer
    modifies os`running, os`timeSliceCounter, os.scheduler, os.sleep, w.tcbs, w.sems
    ensures os.Is(w, ResumeStep(k).0) && Answers(reply, ResumeStep(k).1)
    ensures RingsMatch(rings, ResumeStep(k).0.bufs, w.sems)
  {
    os.RunningSees(w, k);
    var c := os.running.cont;
    if c.Run? { return NoReply; }
    ResumeIs(k);
    ClearCont(os, w, k);
    if c.Sleeping? { return Value(0); }
    reply := GoOn(os, c.why, rings, w, WithCont(k, Run));
  }

  method GoOn(os: Kernel, why: Why, rings: Rings, w: World, ghost k: State) returns (reply: Reply)
    requires os.Is(w, k) && Busy(k) && WhyInRange(k, why)
    requires RingsMatch(rings, k.bufs, w.sems) && RingsSound(k.bufs)
    modifies rings.input`posW, rings.input`posR, rings.input.buffer, rings.output`posW, rings.output`posR
    modifies rings.output.buffer
    modifies os`running, os`timeSliceCounter, os.scheduler, os.sleep, w.tcbs, w.sems
    ensures os.Is(w, GoesOn(k, why).0) && Answers(reply, GoesOn(k, why).1)
    ensures RingsMatch(rings, GoesOn(k, why).0.bufs, w.sems)
  {
    if WhyFamily(why) == Buffers {
      reply := GoOnRing(os, why, rings, w, k);
    } else {
      GoesOnRings(k, why);
      reply := GoOnBeside(os, why, rings, w, k);
    }
  }

  lemma CStringOfText(text: string)
    requires '\0' !in text
    ensures CString(text + ['\0']) == text
  {
    CStringIs(text + ['\0'], |text|);
  }
}
