/** The list operations on the kernel's threads and semaphores: each changes its own list and leaves
    every other one alone. */
module KernelLists {
  import opened Entries
  import opened KernelTypes
  import opened SleepSpec
  import opened KernelSpec
  import opened KernelObjects
  import opened KernelMatch

  // ---- src/scheduler.cpp

  method PutReady(q: ReadyQueue, tcb: TCB, ghost l: seq<Tid>, ghost tcbs: seq<TCB>)
    requires ReadyMatch(q, l, tcbs) && KnownThread(tcb, tcbs) && tcb.threadID !in l
    modifies q`readyHead, q`readyTail, q`queue, tcb`nextReady, q.queue`nextReady
    ensures ReadyMatch(q, l + [tcb.threadID], tcbs)
  {
    q.Put(tcb);
  }

  method GetReady(q: ReadyQueue, ghost l: seq<Tid>, ghost tcbs: seq<TCB>) returns (ret: TCB?)
    requires ReadyMatch(q, l, tcbs)
    modifies q`readyHead, q`readyTail, q`queue, q.queue`nextReady
    ensures l == [] ==> ret == null && ReadyMatch(q, [], tcbs)
    ensures l != [] ==> At(tcbs, l[0], ret) && ReadyMatch(q, l[1..], tcbs)
  {
    ret := q.Get();
  }

  // ---- src/kSemaphore.cpp: put and get

  /** put on one queue. */
  method PutOn(sem: Semaphore, tcb: TCB, tokens: uint64, ghost tcbs: seq<TCB>, ghost x: Sem)
    requires QueueIs(sem, x) && Within(sem.queue, tcbs) && KnownThread(tcb, tcbs) && tcb.blockedAtSem == null
    modifies sem`blockedHead, sem`blockedTail, sem`queue
    modifies tcb`blockedAtSem, tcb`nextSemBlocked, tcb`tokensNeeded, sem.queue`nextSemBlocked
    ensures QueueIs(sem, x.(queue := x.queue + [Entry(tcb.threadID, tokens)])) && Within(sem.queue, tcbs)
    ensures tcb.blockedAtSem == sem
  {
    ghost var q := sem.queue;
    assert tcb !in q;
    Appended(q, tcb);
    sem.Put(tcb, tokens);
  }

  /** put, as all semaphores see it. */
  method Enqueue(sem: Semaphore, tcb: TCB, tokens: uint64,
                 ghost tcbs: seq<TCB>, ghost sems: seq<Semaphore>, ghost xs: seq<Sem>)
    requires SemsMatch(sems, xs, tcbs) && KnownThread(tcb, tcbs) && KnownSem(sem, sems)
    requires tcb.blockedAtSem == null
    modifies sem`blockedHead, sem`blockedTail, sem`queue
    modifies tcb`blockedAtSem, tcb`nextSemBlocked, tcb`tokensNeeded, sem.queue`nextSemBlocked
    ensures var q := xs[sem.semID].queue + [Entry(tcb.threadID, tokens)];
      SemsMatch(sems, xs[sem.semID := xs[sem.semID].(queue := q)], tcbs)
    ensures tcb.blockedAtSem == sem
  {
    QueueAt(sems, xs, tcbs, sem);
    Disjoint(sems, xs, tcbs, sem);
    PutOn(sem, tcb, tokens, tcbs, xs[sem.semID]);
    forall s: nat | s < |sems| && s != sem.semID
      ensures sems[s].semID == s && Within(sems[s].queue, tcbs) && QueueIs(sems[s], xs[s])
    {
      assert old(QueueIs(sems[s], xs[s]));
      assert forall i: nat :: i < |sems[s].queue| ==> sems[s].queue[i] != tcb && sems[s].queue[i] !in old(sem.queue);
    }
    OneSem(sems, xs, tcbs, sem, xs[sem.semID].(queue := xs[sem.semID].queue + [Entry(tcb.threadID, tokens)]));
  }

  method PutWaiter(sem: Semaphore, tcb: TCB, tokens: uint64,
                   ghost tcbs: seq<TCB>, ghost sems: seq<Semaphore>, ghost ths: seq<Thread>, ghost xs: seq<Sem>)
    requires ThreadsMatch(tcbs, ths, sems) && SemsMatch(sems, xs, tcbs)
    requires KnownThread(tcb, tcbs) && KnownSem(sem, sems)
    requires ths[tcb.threadID].blockedAt.None?
    modifies sem`blockedHead, sem`blockedTail, sem`queue
    modifies tcb`blockedAtSem, tcb`nextSemBlocked, tcb`tokensNeeded, sem.queue`nextSemBlocked
    ensures ThreadsMatch(tcbs, ths[tcb.threadID := ths[tcb.threadID].(blockedAt := Some(sem.semID))], sems)
    ensures var q := xs[sem.semID].queue + [Entry(tcb.threadID, tokens)];
      SemsMatch(sems, xs[sem.semID := xs[sem.semID].(queue := q)], tcbs)
  {
    MatchAt(tcbs, ths, sems, tcb);
    Enqueue(sem, tcb, tokens, tcbs, sems, xs);
    OneThread(tcbs, ths, sems, tcb, ths[tcb.threadID].(blockedAt := Some(sem.semID)));
  }

  /** The place of a thread in a list is that of its entry. */
  lemma PlaceOf(q: seq<TCB>, l: seq<Entry>, tcb: TCB, tcbs: seq<TCB>)
    requires |q| == |l| && Within(q, tcbs) && KnownThread(tcb, tcbs) && AllDiffer(q)
    requires forall i :: 0 <= i < |q| ==> l[i].tid == q[i].threadID
    ensures forall i: nat :: i < |q| ==> (q[i] == tcb <==> i == IndexOf(l, tcb.threadID))
    ensures Has(l, tcb.threadID) ==> tcb in q
  {
    var i := IndexOf(l, tcb.threadID);
    if i < |q| {
      assert q[i] == tcb;
      DifferFrom(q, i);
    }
  }

  /** get(tcb) on one queue. */
  method TakeOff(sem: Semaphore, tcb: TCB, ghost tcbs: seq<TCB>, ghost x: Sem)
    requires QueueIs(sem, x) && Within(sem.queue, tcbs) && KnownThread(tcb, tcbs) && Has(x.queue, tcb.threadID)
    modifies sem`blockedHead, sem`blockedTail, sem`queue
    modifies sem.queue`nextSemBlocked, tcb`blockedAtSem, tcb`tokensNeeded
    ensures QueueIs(sem, x.(queue := DropAt(x.queue, IndexOf(x.queue, tcb.threadID)))) && Within(sem.queue, tcbs)
    ensures tcb in old(sem.queue) && tcb.blockedAtSem == null
  {
    PlaceOf(sem.queue, x.queue, tcb, tcbs);
    ghost var q := sem.queue;
    var ret;
    ghost var at;
    ret, at := sem.Get(tcb);
    Shifted(q, at, sem.queue);
  }

  /** get(tcb), as all semaphores see it. */
  method Dequeue(sem: Semaphore, tcb: TCB, ghost tcbs: seq<TCB>, ghost sems: seq<Semaphore>, ghost xs: seq<Sem>)
    requires SemsMatch(sems, xs, tcbs) && KnownThread(tcb, tcbs) && KnownSem(sem, sems)
    requires Has(xs[sem.semID].queue, tcb.threadID)
    modifies sem`blockedHead, sem`blockedTail, sem`queue
    modifies sem.queue`nextSemBlocked, tcb`blockedAtSem, tcb`tokensNeeded
    ensures var q := xs[sem.semID].queue;
      SemsMatch(sems, xs[sem.semID := xs[sem.semID].(queue := DropAt(q, IndexOf(q, tcb.threadID)))], tcbs)
    ensures tcb.blockedAtSem == null
  {
    QueueAt(sems, xs, tcbs, sem);
    Disjoint(sems, xs, tcbs, sem);
    ghost var x := xs[sem.semID];
    TakeOff(sem, tcb, tcbs, x);
    forall s: nat | s < |sems| && s != sem.semID
      ensures sems[s].semID == s && Within(sems[s].queue, tcbs) && QueueIs(sems[s], xs[s])
    {
      assert old(QueueIs(sems[s], xs[s]));
      assert forall i: nat :: i < |sems[s].queue| ==> sems[s].queue[i] !in old(sem.queue);
    }
    OneSem(sems, xs, tcbs, sem, x.(queue := DropAt(x.queue, IndexOf(x.queue, tcb.threadID))));
  }

  method TakeWaiter(sem: Semaphore, tcb: TCB,
                    ghost tcbs: seq<TCB>, ghost sems: seq<Semaphore>, ghost ths: seq<Thread>, ghost xs: seq<Sem>)
    requires ThreadsMatch(tcbs, ths, sems) && SemsMatch(sems, xs, tcbs)
    requires KnownThread(tcb, tcbs) && KnownSem(sem, sems)
    requires Has(xs[sem.semID].queue, tcb.threadID)
    modifies sem`blockedHead, sem`blockedTail, sem`queue
    modifies sem.queue`nextSemBlocked, tcb`blockedAtSem, tcb`tokensNeeded
    ensures ThreadsMatch(tcbs, ths[tcb.threadID := ths[tcb.threadID].(blockedAt := None)], sems)
    ensures var q := xs[sem.semID].queue;
      SemsMatch(sems, xs[sem.semID := xs[sem.semID].(queue := DropAt(q, IndexOf(q, tcb.threadID)))], tcbs)
  {
    MatchAt(tcbs, ths, sems, tcb);
    Dequeue(sem, tcb, tcbs, sems, xs);
    OneThread(tcbs, ths, sems, tcb, ths[tcb.threadID].(blockedAt := None));
  }

  lemma FirstWaiter(sem: Semaphore, tcbs: seq<TCB>, x: Sem)
    requires QueueIs(sem, x) && Within(sem.queue, tcbs) && sem.blockedHead != null
    ensures x.queue != [] && x.queue[0] == Entry(sem.blockedHead.threadID, sem.blockedHead.tokensNeeded)
    ensures KnownThread(sem.blockedHead, tcbs)
  {
    assert sem.blockedHead == sem.queue[0];
  }

  /** get(): the first waiter. */
  method PopOff(sem: Semaphore, ghost tcbs: seq<TCB>, ghost x: Sem) returns (ret: TCB)
    requires QueueIs(sem, x) && Within(sem.queue, tcbs) && sem.blockedHead != null
    modifies sem`blockedHead, sem`blockedTail, sem`queue
    modifies sem.blockedHead`nextSemBlocked, sem.blockedHead`blockedAtSem, sem.blockedHead`tokensNeeded
    ensures ret == old(sem.blockedHead) && ret.blockedAtSem == null && x.queue != []
    ensures QueueIs(sem, x.(queue := x.queue[1..])) && Within(sem.queue, tcbs)
  {
    ghost var q := sem.queue;
    RestShifted(q, q[1..]);
    ret := sem.GetHead();
  }

  method DequeueFirst(sem: Semaphore, ghost tcbs: seq<TCB>, ghost sems: seq<Semaphore>, ghost xs: seq<Sem>)
    returns (ret: TCB)
    requires SemsMatch(sems, xs, tcbs) && KnownSem(sem, sems) && sem.blockedHead != null
    modifies sem`blockedHead, sem`blockedTail, sem`queue
    modifies sem.blockedHead`nextSemBlocked, sem.blockedHead`blockedAtSem, sem.blockedHead`tokensNeeded
    ensures ret == old(sem.blockedHead) && KnownThread(ret, tcbs) && ret.blockedAtSem == null
    ensures xs[sem.semID].queue != [] && ret.threadID == xs[sem.semID].queue[0].tid
    ensures SemsMatch(sems, xs[sem.semID := xs[sem.semID].(queue := xs[sem.semID].queue[1..])], tcbs)
  {
    QueueAt(sems, xs, tcbs, sem);
    Disjoint(sems, xs, tcbs, sem);
    ghost var x := xs[sem.semID];
    FirstWaiter(sem, tcbs, x);
    ret := PopOff(sem, tcbs, x);
    forall s: nat | s < |sems| && s != sem.semID
      ensures sems[s].semID == s && Within(sems[s].queue, tcbs) && QueueIs(sems[s], xs[s])
    {
      assert old(QueueIs(sems[s], xs[s]));
      assert forall i: nat :: i < |sems[s].queue| ==> sems[s].queue[i] !in old(sem.queue);
    }
    OneSem(sems, xs, tcbs, sem, x.(queue := x.queue[1..]));
  }

  method PopWaiter(sem: Semaphore,
                   ghost tcbs: seq<TCB>, ghost sems: seq<Semaphore>, ghost ths: seq<Thread>, ghost xs: seq<Sem>)
    returns (ret: TCB)
    requires ThreadsMatch(tcbs, ths, sems) && SemsMatch(sems, xs, tcbs)
    requires KnownSem(sem, sems) && sem.blockedHead != null
    modifies sem`blockedHead, sem`blockedTail, sem`queue
    modifies sem.blockedHead`nextSemBlocked, sem.blockedHead`blockedAtSem, sem.blockedHead`tokensNeeded
    ensures xs[sem.semID].queue != [] && KnownThread(ret, tcbs) && ret.threadID == xs[sem.semID].queue[0].tid
    ensures ThreadsMatch(tcbs, ths[ret.threadID := ths[ret.threadID].(blockedAt := None)], sems)
    ensures SemsMatch(sems, xs[sem.semID := xs[sem.semID].(queue := xs[sem.semID].queue[1..])], tcbs)
  {
    QueueAt(sems, xs, tcbs, sem);
    FirstWaiter(sem, tcbs, xs[sem.semID]);
    MatchAt(tcbs, ths, sems, sem.blockedHead);
    ret := DequeueFirst(sem, tcbs, sems, xs);
    OneThread(tcbs, ths, sems, ret, ths[ret.threadID].(blockedAt := None));
  }

  // ---- src/sleep.cpp

  method PutSleeper(list: SleepList, tcb: TCB, timeout: uint64,
                    ghost tcbs: seq<TCB>, ghost sems: seq<Semaphore>, ghost ths: seq<Thread>, ghost l: seq<Entry>)
    requires ThreadsMatch(tcbs, ths, sems) && SleepMatch(list, l, tcbs) && KnownThread(tcb, tcbs)
    requires !Has(l, tcb.threadID)
    modifies list`sleepHead, list`queue
    modifies tcb`timeSleepRelative, tcb`nextSleep, tcb`sleeps, list.queue`timeSleepRelative, list.queue`nextSleep
    ensures ThreadsMatch(tcbs, ths[tcb.threadID := ths[tcb.threadID].(sleeps := true)], sems)
    ensures SleepMatch(list, Insert(l, tcb.threadID, timeout), tcbs)
  {
    MatchAt(tcbs, ths, sems, tcb);
    forall i: nat | i < |list.queue|
      ensures list.queue[i] != tcb
    {
      assert l[i].tid == list.queue[i].threadID;
    }
    list.Put(tcb, timeout);
    forall i: nat | i < |list.queue|
      ensures KnownThread(list.queue[i], tcbs)
    {
      assert list.queue[i] in list.queue;
    }
    OneThread(tcbs, ths, sems, tcb, ths[tcb.threadID].(sleeps := true));
  }

  /** get(tcb) on the sleep list alone. */
  method WakeUp(list: SleepList, tcb: TCB, ghost tcbs: seq<TCB>, ghost l: seq<Entry>)
    requires SleepMatch(list, l, tcbs) && KnownThread(tcb, tcbs) && Has(l, tcb.threadID) && tcb.sleeps
    modifies list`sleepHead, list`queue
    modifies list.queue`timeSleepRelative, list.queue`nextSleep, tcb`sleeps
    ensures SleepMatch(list, Remove(l, IndexOf(l, tcb.threadID)), tcbs) && !tcb.sleeps
  {
    PlaceOf(list.queue, l, tcb, tcbs);
    ghost var q := list.queue;
    var ret;
    ghost var at;
    ret, at := list.Get(tcb);
    Shifted(q, at, list.queue);
  }

  method TakeSleeper(list: SleepList, tcb: TCB,
                     ghost tcbs: seq<TCB>, ghost sems: seq<Semaphore>, ghost ths: seq<Thread>, ghost l: seq<Entry>)
    requires ThreadsMatch(tcbs, ths, sems) && SleepMatch(list, l, tcbs) && KnownThread(tcb, tcbs)
    requires Has(l, tcb.threadID) && ths[tcb.threadID].sleeps
    modifies list`sleepHead, list`queue
    modifies list.queue`timeSleepRelative, list.queue`nextSleep, tcb`sleeps
    ensures ThreadsMatch(tcbs, ths[tcb.threadID := ths[tcb.threadID].(sleeps := false)], sems)
    ensures SleepMatch(list, Remove(l, IndexOf(l, tcb.threadID)), tcbs)
  {
    MatchAt(tcbs, ths, sems, tcb);
    WakeUp(list, tcb, tcbs, l);
    OneThread(tcbs, ths, sems, tcb, ths[tcb.threadID].(sleeps := false));
  }

  /** get() on the sleep list alone. */
  method WakeFirst(list: SleepList, ghost tcbs: seq<TCB>, ghost l: seq<Entry>) returns (ret: TCB)
    requires SleepMatch(list, l, tcbs) && list.sleepHead != null
    modifies list`sleepHead, list`queue
    modifies list.queue`timeSleepRelative, list.queue`nextSleep, list.sleepHead`sleeps
    ensures l != [] && ret == old(list.sleepHead) && KnownThread(ret, tcbs) && ret.threadID == l[0].tid
    ensures SleepMatch(list, Remove(l, 0), tcbs) && !ret.sleeps
  {
    ghost var q := list.queue;
    RestShifted(q, q[1..]);
    ret := list.GetHead();
  }

  method PopSleeper(list: SleepList,
                    ghost tcbs: seq<TCB>, ghost sems: seq<Semaphore>, ghost ths: seq<Thread>, ghost l: seq<Entry>)
    returns (ret: TCB)
    requires ThreadsMatch(tcbs, ths, sems) && SleepMatch(list, l, tcbs) && list.sleepHead != null
    modifies list`sleepHead, list`queue
    modifies list.queue`timeSleepRelative, list.queue`nextSleep, list.sleepHead`sleeps
    ensures l != [] && KnownThread(ret, tcbs) && ret.threadID == l[0].tid
    ensures ThreadsMatch(tcbs, ths[ret.threadID := ths[ret.threadID].(sleeps := false)], sems)
    ensures SleepMatch(list, Remove(l, 0), tcbs)
  {
    assert list.sleepHead == list.queue[0];
    MatchAt(tcbs, ths, sems, list.sleepHead);
    ret := WakeFirst(list, tcbs, l);
    OneThread(tcbs, ths, sems, ret, ths[ret.threadID].(sleeps := false));
  }

  /** The decrement at the head of onTick. */
  method CountDown(list: SleepList, ghost tcbs: seq<TCB>, ghost l: seq<Entry>)
    requires SleepMatch(list, l, tcbs)
    modifies tcbs`timeSleepRelative
    ensures SleepMatch(list, Decrement(l), tcbs)
  {
    list.Count();
  }

  // ---- assignments to single fields

  method SetManner(tcb: TCB, m: Manner,
         ghost tcbs: seq<TCB>, ghost sems: seq<Semaphore>, ghost ths: seq<Thread>)
    requires ThreadsMatch(tcbs, ths, sems) && KnownThread(tcb, tcbs)
    modifies tcb`unblockManner
    ensures ThreadsMatch(tcbs, ths[tcb.threadID := ths[tcb.threadID].(manner := m)], sems)
  {
    MatchAt(tcbs, ths, sems, tcb);
    tcb.unblockManner := m;
    OneThread(tcbs, ths, sems, tcb, ths[tcb.threadID].(manner := m));
  }

  method SetCont(tcb: TCB, c: Cont,
         ghost tcbs: seq<TCB>, ghost sems: seq<Semaphore>, ghost ths: seq<Thread>)
    requires ThreadsMatch(tcbs, ths, sems) && KnownThread(tcb, tcbs)
    modifies tcb`cont
    ensures ThreadsMatch(tcbs, ths[tcb.threadID := ths[tcb.threadID].(cont := c)], sems)
  {
    MatchAt(tcbs, ths, sems, tcb);
    tcb.cont := c;
    OneThread(tcbs, ths, sems, tcb, ths[tcb.threadID].(cont := c));
  }

  method AddChild(tcb: TCB,
         ghost tcbs: seq<TCB>, ghost sems: seq<Semaphore>, ghost ths: seq<Thread>)
    requires ThreadsMatch(tcbs, ths, sems) && KnownThread(tcb, tcbs)
    modifies tcb`numOfActiveChildren
    ensures var th := ths[tcb.threadID];
      ThreadsMatch(tcbs, ths[tcb.threadID := th.(children := th.children + 1)], sems)
  {
    MatchAt(tcbs, ths, sems, tcb);
    tcb.numOfActiveChildren := tcb.numOfActiveChildren + 1;
    OneThread(tcbs, ths, sems, tcb, ths[tcb.threadID].(children := ths[tcb.threadID].children + 1));
  }

  /** numOfActiveChildren-- on an unsigned field. */
  method DropChild(tcb: TCB,
         ghost tcbs: seq<TCB>, ghost sems: seq<Semaphore>, ghost ths: seq<Thread>)
    requires ThreadsMatch(tcbs, ths, sems) && KnownThread(tcb, tcbs)
    modifies tcb`numOfActiveChildren
    ensures ThreadsMatch(tcbs, ths[tcb.threadID := ths[tcb.threadID].(
      children := if ths[tcb.threadID].children > 0 then ths[tcb.threadID].children - 1 else TWO64 - 1)], sems)
  {
    MatchAt(tcbs, ths, sems, tcb);
    tcb.numOfActiveChildren :=
      if tcb.numOfActiveChildren > 0 then tcb.numOfActiveChildren - 1 else TWO64 - 1;
    OneThread(tcbs, ths, sems, tcb, ths[tcb.threadID].(
      children := if ths[tcb.threadID].children > 0 then ths[tcb.threadID].children - 1 else TWO64 - 1));
  }

  method SetFinished(tcb: TCB, status: int,
         ghost tcbs: seq<TCB>, ghost sems: seq<Semaphore>, ghost ths: seq<Thread>)
    requires ThreadsMatch(tcbs, ths, sems) && KnownThread(tcb, tcbs)
    modifies tcb`exitStatus, tcb`finished
    ensures ThreadsMatch(tcbs, ths[tcb.threadID := ths[tcb.threadID].(exitStatus := status, finished := true)], sems)
  {
    MatchAt(tcbs, ths, sems, tcb);
    tcb.exitStatus := status;
    tcb.finished := true;
    OneThread(tcbs, ths, sems, tcb, ths[tcb.threadID].(exitStatus := status, finished := true));
  }

  method SetMessage(tcb: TCB, msg: seq<char>,
         ghost tcbs: seq<TCB>, ghost sems: seq<Semaphore>, ghost ths: seq<Thread>)
    requires ThreadsMatch(tcbs, ths, sems) && KnownThread(tcb, tcbs) && '\0' in msg
    modifies tcb`message
    ensures ThreadsMatch(tcbs, ths[tcb.threadID := ths[tcb.threadID].(message := Some(Truncate(CString(msg))))], sems)
  {
    MatchAt(tcbs, ths, sems, tcb);
    tcb.SetMsg(msg);
    OneThread(tcbs, ths, sems, tcb, ths[tcb.threadID].(message := Some(Truncate(CString(msg)))));
  }

  method SetValue(sem: Semaphore, v: uint64, ghost tcbs: seq<TCB>, ghost sems: seq<Semaphore>, ghost xs: seq<Sem>)
    requires SemsMatch(sems, xs, tcbs) && KnownSem(sem, sems)
    modifies sem`value
    ensures SemsMatch(sems, xs[sem.semID := xs[sem.semID].(value := v)], tcbs)
  {
    QueueAt(sems, xs, tcbs, sem);
    sem.value := v;
    forall s: nat | s < |sems| && s != sem.semID
      ensures sems[s].semID == s && Within(sems[s].queue, tcbs) && QueueIs(sems[s], xs[s])
    {
      assert old(QueueIs(sems[s], xs[s]));
    }
    OneSem(sems, xs, tcbs, sem, xs[sem.semID].(value := v));
  }

  method SetInactive(sem: Semaphore, ghost tcbs: seq<TCB>, ghost sems: seq<Semaphore>, ghost xs: seq<Sem>)
    requires SemsMatch(sems, xs, tcbs) && KnownSem(sem, sems)
    modifies sem`active
    ensures SemsMatch(sems, xs[sem.semID := xs[sem.semID].(active := false)], tcbs)
  {
    QueueAt(sems, xs, tcbs, sem);
    sem.active := false;
    forall s: nat | s < |sems| && s != sem.semID
      ensures sems[s].semID == s && Within(sems[s].queue, tcbs) && QueueIs(sems[s], xs[s])
    {
      assert old(QueueIs(sems[s], xs[s]));
    }
    OneSem(sems, xs, tcbs, sem, xs[sem.semID].(active := false));
  }

  /** The first waiter gets some of the tokens it needs. */
  method ServeOn(sem: Semaphore, tokens: uint64, ghost x: Sem)
    requires QueueIs(sem, x) && sem.blockedHead != null && tokens < sem.blockedHead.tokensNeeded
    modifies sem.blockedHead`tokensNeeded
    ensures x.queue != [] && tokens < x.queue[0].n
    ensures QueueIs(sem, x.(queue := [Entry(x.queue[0].tid, x.queue[0].n - tokens)] + x.queue[1..]))
  {
    assert sem.blockedHead == sem.queue[0];
    DifferFrom(sem.queue, 0);
    sem.blockedHead.tokensNeeded := sem.blockedHead.tokensNeeded - tokens;
    var l := [Entry(x.queue[0].tid, x.queue[0].n - tokens)] + x.queue[1..];
    assert |l| == |sem.queue| && forall i: nat :: 0 < i < |l| ==> l[i] == x.queue[i];
    assert sem.Waiters() == l;
  }

  method Serve(sem: Semaphore, tokens: uint64, ghost tcbs: seq<TCB>, ghost sems: seq<Semaphore>, ghost xs: seq<Sem>)
    requires SemsMatch(sems, xs, tcbs) && KnownSem(sem, sems)
    requires sem.blockedHead != null && tokens < sem.blockedHead.tokensNeeded
    modifies sem.blockedHead`tokensNeeded
    ensures var q := xs[sem.semID].queue;
      && q != [] && tokens < q[0].n
      && SemsMatch(sems, xs[sem.semID := xs[sem.semID].(queue := [Entry(q[0].tid, q[0].n - tokens)] + q[1..])], tcbs)
  {
    QueueAt(sems, xs, tcbs, sem);
    Disjoint(sems, xs, tcbs, sem);
    ghost var x, h := xs[sem.semID], sem.blockedHead;
    assert h == sem.queue[0];
    ServeOn(sem, tokens, x);
    forall s: nat | s < |sems| && s != sem.semID
      ensures sems[s].semID == s && Within(sems[s].queue, tcbs) && QueueIs(sems[s], xs[s])
    {
      assert old(QueueIs(sems[s], xs[s]));
      assert forall i: nat :: i < |sems[s].queue| ==> sems[s].queue[i] != h;
    }
    OneSem(sems, xs, tcbs, sem, x.(queue := [Entry(x.queue[0].tid, x.queue[0].n - tokens)] + x.queue[1..]));
  }
}
