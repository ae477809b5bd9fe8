/** When objects stand for values of KernelSpec. */
module KernelMatch {
  import opened Entries
  import opened KernelTypes
  import opened KernelObjects

  ghost predicate At<T>(s: seq<T>, i: nat, x: T) {
    i < |s| && s[i] == x
  }

  /** What the constructor of a TCB sets for good. */
  ghost predicate Fixed(x: TCB, th: Thread, t: Tid, tcbs: seq<TCB>, sems: seq<Semaphore>) {
    && x.threadID == t && x.timeSlice == th.slice
    && (match th.parent case None => x.parent == null case Some(p) => p < |tcbs| && x.parent == tcbs[p])
    && At(sems, th.semJoin, x.semJoin) && At(sems, th.semJoinAll, x.semJoinAll)
    && At(sems, th.semSend, x.semSend) && At(sems, th.semReceive, x.semReceive)
  }

  ghost predicate Matches(x: TCB, th: Thread, sems: seq<Semaphore>)
    reads x`finished, x`exitStatus, x`numOfActiveChildren, x`sleeps, x`blockedAtSem, x`unblockManner, x`cont,
      x`message
  {
    && x.finished == th.finished && x.exitStatus == th.exitStatus && x.numOfActiveChildren == th.children
    && x.sleeps == th.sleeps && x.unblockManner == th.manner && x.cont == th.cont
    && |x.message| == MSG_LEN + 1 && (th.message.Some? ==> CString(x.message) == th.message.value)
    && (match th.blockedAt case None => x.blockedAtSem == null case Some(s) => s < |sems| && x.blockedAtSem == sems[s])
  }

  ghost predicate ThreadsMatch(tcbs: seq<TCB>, ths: seq<Thread>, sems: seq<Semaphore>)
    reads tcbs`finished, tcbs`exitStatus, tcbs`numOfActiveChildren, tcbs`sleeps, tcbs`blockedAtSem,
      tcbs`unblockManner, tcbs`cont, tcbs`message
  {
    && |tcbs| == |ths|
    && forall t: nat {:trigger ths[t]} :: t < |tcbs| ==>
      Fixed(tcbs[t], ths[t], t, tcbs, sems) && Matches(tcbs[t], ths[t], sems)
  }

  /** The members of a list are threads of the kernel. */
  ghost predicate Within(q: seq<TCB>, tcbs: seq<TCB>) {
    forall i: nat :: i < |q| ==> q[i] in tcbs && At(tcbs, q[i].threadID, q[i])
  }

  ghost predicate SemsMatch(sems: seq<Semaphore>, xs: seq<Sem>, tcbs: seq<TCB>)
    reads sems`value, sems`active, sems`blockedHead, sems`blockedTail, sems`queue
    reads tcbs`nextSemBlocked, tcbs`tokensNeeded, tcbs`blockedAtSem
  {
    && |sems| == |xs|
    && forall s: nat {:trigger xs[s]} :: s < |sems| ==>
      sems[s].semID == s && Within(sems[s].queue, tcbs) && QueueIs(sems[s], xs[s])
  }

  ghost predicate QueueIs(x: Semaphore, q: Sem)
    reads x`value, x`active, x`blockedHead, x`blockedTail, x`queue
    reads x.queue`nextSemBlocked, x.queue`tokensNeeded, x.queue`blockedAtSem
  {
    && x.Valid() && x.value == q.value && x.active == q.active && x.Waiters() == q.queue
    && forall i: nat :: i < |x.queue| ==> x.queue[i].blockedAtSem == x
  }

  ghost predicate ReadyMatch(x: ReadyQueue, l: seq<Tid>, tcbs: seq<TCB>)
    reads x`readyHead, x`readyTail, x`queue, tcbs`nextReady
  {
    && Within(x.queue, tcbs) && x.Valid() && |x.queue| == |l|
    && forall i: nat :: i < |l| ==> x.queue[i].threadID == l[i]
  }

  ghost predicate SleepMatch(x: SleepList, l: seq<Entry>, tcbs: seq<TCB>)
    reads x`sleepHead, x`queue, tcbs`nextSleep, tcbs`timeSleepRelative
  {
    Within(x.queue, tcbs) && x.Valid() && x.Sleepers() == l
  }

  /** A ring object stands for buffer x. */
  ghost predicate RingIs(ring: CharRing, x: Buffer, sems: seq<Semaphore>)
    reads ring`posW, ring`posR, ring.buffer
  {
    && ring.buffer[..] == x.data && ring.posW == x.posW && ring.posR == x.posR
    && At(sems, x.semPut, ring.semPut) && At(sems, x.semGet, ring.semGet) && At(sems, x.mutex, ring.mutex)
  }

  /** Another ring, which stands for y. */
  ghost predicate Beside(ring: CharRing, other: CharRing, y: Buffer, sems: seq<Semaphore>)
    reads other`posW, other`posR, other.buffer
  {
    other != ring && other.buffer != ring.buffer && RingIs(other, y, sems)
  }

  /** IO::inputBuffer and IO::outputBuffer. */
  datatype Rings = Rings(input: CharRing, output: CharRing)

  ghost predicate RingsMatch(rings: Rings, bufs: seq<Buffer>, sems: seq<Semaphore>)
    reads rings.input`posW, rings.input`posR, rings.input.buffer, rings.output`posW, rings.output`posR,
      rings.output.buffer
  {
    && |bufs| == 2 && rings.input != rings.output && rings.input.buffer != rings.output.buffer
    && RingIs(rings.input, bufs[0], sems) && RingIs(rings.output, bufs[1], sems)
  }

  /** Every thread and semaphore so far, by number. */
  datatype World = World(tcbs: seq<TCB>, sems: seq<Semaphore>)

  /** The objects stand for state k. */
  ghost predicate Stands(w: World, scheduler: ReadyQueue, sleep: SleepList, idle: TCB, running: TCB, ticks: nat,
                         k: State)
    reads scheduler`readyHead, scheduler`readyTail, scheduler`queue, sleep`sleepHead, sleep`queue
    reads w.tcbs`finished, w.tcbs`exitStatus, w.tcbs`numOfActiveChildren, w.tcbs`sleeps, w.tcbs`blockedAtSem,
      w.tcbs`unblockManner, w.tcbs`cont, w.tcbs`message, w.tcbs`nextReady, w.tcbs`nextSleep, w.tcbs`timeSleepRelative,
      w.tcbs`nextSemBlocked, w.tcbs`tokensNeeded
    reads w.sems`value, w.sems`active, w.sems`blockedHead, w.sems`blockedTail, w.sems`queue
  {
    && ThreadsMatch(w.tcbs, k.threads, w.sems)
    && SemsMatch(w.sems, k.sems, w.tcbs)
    && ReadyMatch(scheduler, k.ready, w.tcbs)
    && SleepMatch(sleep, k.sleepers, w.tcbs)
    && At(w.tcbs, IDLE, idle) && At(w.tcbs, k.running, running)
    && ticks == k.sliceTicks
  }

  /** Another thread runs. */
  lemma Switched(w: World, scheduler: ReadyQueue, sleep: SleepList, idle: TCB, running: TCB, ticks: nat, k: State,
                 running': TCB, t: Tid)
    requires Stands(w, scheduler, sleep, idle, running, ticks, k) && At(w.tcbs, t, running')
    ensures Stands(w, scheduler, sleep, idle, running', 0, k.(running := t, sliceTicks := 0))
  {
  }

  ghost predicate KnownThread(tcb: TCB, tcbs: seq<TCB>) {
    tcb in tcbs && At(tcbs, tcb.threadID, tcb)
  }

  ghost predicate KnownSem(sem: Semaphore, sems: seq<Semaphore>) {
    sem in sems && At(sems, sem.semID, sem)
  }

  lemma MatchAt(tcbs: seq<TCB>, ths: seq<Thread>, sems: seq<Semaphore>, tcb: TCB)
    requires ThreadsMatch(tcbs, ths, sems) && KnownThread(tcb, tcbs)
    ensures tcb.threadID < |ths|
    ensures Fixed(tcb, ths[tcb.threadID], tcb.threadID, tcbs, sems) && Matches(tcb, ths[tcb.threadID], sems)
  {
    assert ths[tcb.threadID] == ths[tcb.threadID];
  }

  lemma NumberOf(tcbs: seq<TCB>, ths: seq<Thread>, sems: seq<Semaphore>, t: Tid)
    requires ThreadsMatch(tcbs, ths, sems) && t < |tcbs|
    ensures tcbs[t].threadID == t && KnownThread(tcbs[t], tcbs)
  {
    assert ths[t] == ths[t];
  }

  lemma QueueAt(sems: seq<Semaphore>, xs: seq<Sem>, tcbs: seq<TCB>, sem: Semaphore)
    requires SemsMatch(sems, xs, tcbs) && KnownSem(sem, sems)
    ensures sem.semID < |xs| && Within(sem.queue, tcbs) && QueueIs(sem, xs[sem.semID])
  {
    assert xs[sem.semID] == xs[sem.semID];
  }

  lemma SemAt(sems: seq<Semaphore>, xs: seq<Sem>, tcbs: seq<TCB>, s: Sid)
    requires SemsMatch(sems, xs, tcbs) && s < |sems|
    ensures sems[s].semID == s && KnownSem(sems[s], sems)
  {
    assert xs[s] == xs[s];
  }

  /** All threads but one. */
  ghost predicate OthersMatch(tcbs: seq<TCB>, ths: seq<Thread>, sems: seq<Semaphore>, tcb: TCB)
    reads tcbs`finished, tcbs`exitStatus, tcbs`numOfActiveChildren, tcbs`sleeps, tcbs`blockedAtSem,
      tcbs`unblockManner, tcbs`cont, tcbs`message
  {
    && |tcbs| == |ths|
    && forall t: nat {:trigger ths[t]} :: t < |tcbs| && t != tcb.threadID ==>
         Fixed(tcbs[t], ths[t], t, tcbs, sems) && Matches(tcbs[t], ths[t], sems)
  }

  lemma OneThread(tcbs: seq<TCB>, ths: seq<Thread>, sems: seq<Semaphore>, tcb: TCB, th: Thread)
    requires OthersMatch(tcbs, ths, sems, tcb) && KnownThread(tcb, tcbs)
    requires Fixed(tcb, th, tcb.threadID, tcbs, sems) && Matches(tcb, th, sems)
    ensures ThreadsMatch(tcbs, ths[tcb.threadID := th], sems)
  {
    forall t: nat | t < |tcbs|
      ensures Fixed(tcbs[t], ths[tcb.threadID := th][t], t, tcbs, sems)
           && Matches(tcbs[t], ths[tcb.threadID := th][t], sems)
    {
      assert ths[t] == ths[t];
    }
  }

  /** All semaphores but one. */
  ghost predicate OtherSems(sems: seq<Semaphore>, xs: seq<Sem>, tcbs: seq<TCB>, sem: Semaphore)
    reads sems`value, sems`active, sems`blockedHead, sems`blockedTail, sems`queue
    reads tcbs`nextSemBlocked, tcbs`tokensNeeded, tcbs`blockedAtSem
  {
    && |sems| == |xs|
    && forall s: nat {:trigger xs[s]} :: s < |sems| && s != sem.semID ==>
         sems[s].semID == s && Within(sems[s].queue, tcbs) && QueueIs(sems[s], xs[s])
  }

  lemma OneSem(sems: seq<Semaphore>, xs: seq<Sem>, tcbs: seq<TCB>, sem: Semaphore, x: Sem)
    requires OtherSems(sems, xs, tcbs, sem) && KnownSem(sem, sems)
    requires Within(sem.queue, tcbs) && QueueIs(sem, x)
    ensures SemsMatch(sems, xs[sem.semID := x], tcbs)
  {
    forall s: nat | s < |sems|
      ensures sems[s].semID == s && Within(sems[s].queue, tcbs) && QueueIs(sems[s], xs[sem.semID := x][s])
    {
      assert xs[s] == xs[s];
    }
  }

  /** Nobody waits at two semaphores. */
  lemma Disjoint(sems: seq<Semaphore>, xs: seq<Sem>, tcbs: seq<TCB>, sem: Semaphore)
    requires SemsMatch(sems, xs, tcbs) && KnownSem(sem, sems)
    ensures forall s: nat {:trigger xs[s]} :: s < |xs| && s != sem.semID ==>
      sems[s] != sem && forall i: nat :: i < |sems[s].queue| ==>
        sems[s].queue[i].blockedAtSem == sems[s] && sems[s].queue[i] !in sem.queue
  {
    QueueAt(sems, xs, tcbs, sem);
    forall s: nat | s < |xs| && s != sem.semID
      ensures sems[s] != sem && forall i: nat :: i < |sems[s].queue| ==>
        sems[s].queue[i].blockedAtSem == sems[s] && sems[s].queue[i] !in sem.queue
    {
      assert xs[s] == xs[s];
    }
  }

  // ---- creation

  lemma WithinMore(q: seq<TCB>, tcbs: seq<TCB>, tcb: TCB)
    requires Within(q, tcbs)
    ensures Within(q, tcbs + [tcb])
  {
  }

  /** A new semaphore, with nobody waiting. */
  lemma SemAdded(w: World, scheduler: ReadyQueue, sleep: SleepList, idle: TCB, running: TCB, ticks: nat, k: State,
                 sem: Semaphore, x: Sem)
    requires Stands(w, scheduler, sleep, idle, running, ticks, k)
    requires sem.semID == |w.sems| && sem.queue == [] && QueueIs(sem, x)
    ensures Stands(World(w.tcbs, w.sems + [sem]), scheduler, sleep, idle, running, ticks, k.(sems := k.sems + [x]))
  {
    var sems, xs := w.sems + [sem], k.sems + [x];
    forall t: nat | t < |w.tcbs|
      ensures Fixed(w.tcbs[t], k.threads[t], t, w.tcbs, sems) && Matches(w.tcbs[t], k.threads[t], sems)
    {
      assert k.threads[t] == k.threads[t];
    }
    forall s: nat | s < |sems|
      ensures sems[s].semID == s && Within(sems[s].queue, w.tcbs) && QueueIs(sems[s], xs[s])
    {
      if s < |w.sems| { assert k.sems[s] == xs[s]; }
    }
  }

  /** A new thread, in no list. */
  lemma ThreadAdded(w: World, scheduler: ReadyQueue, sleep: SleepList, idle: TCB, running: TCB, ticks: nat, k: State,
                    tcb: TCB, th: Thread)
    requires Stands(w, scheduler, sleep, idle, running, ticks, k)
    requires Fixed(tcb, th, |w.tcbs|, w.tcbs + [tcb], w.sems) && Matches(tcb, th, w.sems)
    ensures Stands(World(w.tcbs + [tcb], w.sems), scheduler, sleep, idle, running, ticks,
                   k.(threads := k.threads + [th]))
    ensures KnownThread(tcb, w.tcbs + [tcb])
  {
    var tcbs, ths := w.tcbs + [tcb], k.threads + [th];
    assert tcbs[|w.tcbs|] == tcb;
    forall t: nat | t < |tcbs|
      ensures Fixed(tcbs[t], ths[t], t, tcbs, w.sems) && Matches(tcbs[t], ths[t], w.sems)
    {
      if t < |w.tcbs| { assert k.threads[t] == ths[t]; }
    }
    forall s: nat | s < |w.sems|
      ensures w.sems[s].semID == s && Within(w.sems[s].queue, tcbs) && QueueIs(w.sems[s], k.sems[s])
    {
      assert k.sems[s] == k.sems[s];
      WithinMore(w.sems[s].queue, w.tcbs, tcb);
    }
    WithinMore(scheduler.queue, w.tcbs, tcb);
    WithinMore(sleep.queue, w.tcbs, tcb);
  }
}
