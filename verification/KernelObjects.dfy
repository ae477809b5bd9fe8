/** The kernel's objects: thread control blocks, and the three kinds of intrusive lists that thread
    them together (ready queue, sleep list, semaphore queues), each with its own link field. */
module KernelObjects {
  import opened Entries
  import opened KernelTypes
  import opened SleepSpec

  /** h/tcb.hpp.  cont stands for the saved kernel stack; message is the buffer of 257 characters. */
  class TCB {
    const threadID: nat
    const parent: TCB?
    const timeSlice: nat
    const semJoin: Semaphore
    const semJoinAll: Semaphore
    const semSend: Semaphore
    const semReceive: Semaphore
    var message: seq<char>
    var finished: bool
    var exitStatus: int
    var numOfActiveChildren: nat
    var nextReady: TCB?
    var sleeps: bool
    var timeSleepRelative: uint64
    var nextSleep: TCB?
    var tokensNeeded: uint64
    var blockedAtSem: Semaphore?
    var nextSemBlocked: TCB?
    var unblockManner: Manner
    var cont: Cont

    constructor (id: nat, parent: TCB?, timeSlice: nat, join: Semaphore, joinAll: Semaphore,
                 send: Semaphore, receive: Semaphore, buffer: seq<char>)
      requires |buffer| == MSG_LEN + 1
      ensures threadID == id && this.parent == parent
      ensures this.timeSlice ==
        if timeSlice == 0 then 1 else if timeSlice > MAX_TIME_SLICE then MAX_TIME_SLICE else timeSlice
      ensures semJoin == join && semJoinAll == joinAll && semSend == send && semReceive == receive
      ensures message == buffer[MSG_LEN := '\0']
      ensures !finished && exitStatus == 0 && numOfActiveChildren == 0 && !sleeps && blockedAtSem == null
      ensures unblockManner == Regular && cont == Run
    {
      threadID, this.parent := id, parent;
      this.timeSlice := if timeSlice == 0 then 1 else if timeSlice > MAX_TIME_SLICE then MAX_TIME_SLICE else timeSlice;
      semJoin, semJoinAll, semSend, semReceive := join, joinAll, send, receive;
      finished, exitStatus, numOfActiveChildren, nextReady := false, 0, 0, null;
      sleeps, timeSleepRelative, nextSleep := false, 0, null;
      tokensNeeded, blockedAtSem, nextSemBlocked, unblockManner := 0, null, null, Regular;
      cont := Run;
      message := buffer[MSG_LEN := '\0'];
    }

    /** Copies the text up to its NUL, at most 256 characters, and terminates it. */
    method SetMsg(msg: seq<char>)
      requires '\0' in msg && |message| == MSG_LEN + 1
      modifies this`message
      ensures |message| == MSG_LEN + 1 && CString(message) == Truncate(CString(msg))
      ensures |CString(message)| == if |CString(msg)| <= 256 then |CString(msg)| else 256
      ensures forall i :: 0 <= i < |CString(message)| ==> CString(message)[i] == msg[i]
    {
      var i := 0;
      CStringAt(msg);
      while msg[i] != '\0' && i < MSG_LEN
        invariant i <= MSG_LEN && i <= |CString(msg)| < |msg|
        invariant |message| == MSG_LEN + 1 && message[..i] == CString(msg)[..i]
        decreases MSG_LEN - i
      {
        message := message[i := msg[i]];
        i := i + 1;
      }
      message := message[i := '\0'];
      assert message[..i] == CString(msg)[..i];
      assert forall j :: 0 <= j < i ==> message[j] == message[..i][j];
      CStringIs(message, i);
    }
  }

  /** The text before the first NUL. */
  function CString(s: seq<char>): (r: string)
    ensures |r| <= |s|
  {
    if s == [] || s[0] == '\0' then [] else [s[0]] + CString(s[1..])
  }

  lemma {:induction false} CStringAt(s: seq<char>)
    ensures forall i :: 0 <= i < |CString(s)| ==> CString(s)[i] == s[i] && s[i] != '\0'
    ensures |CString(s)| < |s| ==> s[|CString(s)|] == '\0'
    ensures '\0' in s ==> |CString(s)| < |s|
  {
    if s != [] && s[0] != '\0' {
      CStringAt(s[1..]);
      assert '\0' in s ==> '\0' in s[1..];
    }
  }

  lemma {:induction false} CStringIs(s: seq<char>, n: nat)
    requires n < |s| && s[n] == '\0' && forall i :: 0 <= i < n ==> s[i] != '\0'
    ensures CString(s) == s[..n]
  {
    if n > 0 { CStringIs(s[1..], n - 1); }
  }

  ghost predicate Needs(q: seq<TCB>, l: seq<Entry>)
    reads q`tokensNeeded
  {
    |l| == |q| && forall i :: 0 <= i < |q| ==> l[i] == Entry(q[i].threadID, q[i].tokensNeeded)
  }

  ghost predicate Deltas(q: seq<TCB>, l: seq<Entry>)
    reads q`timeSleepRelative
  {
    |l| == |q| && forall i :: 0 <= i < |q| ==> l[i] == Entry(q[i].threadID, q[i].timeSleepRelative)
  }

  lemma {:induction false} NeedsExist(q: seq<TCB>)
    ensures exists l :: Needs(q, l)
  {
    if q == [] {
      assert Needs(q, []);
    } else {
      var n := |q| - 1;
      NeedsExist(q[..n]);
      var l :| Needs(q[..n], l);
      assert Needs(q, l + [Entry(q[n].threadID, q[n].tokensNeeded)]);
    }
  }

  lemma {:induction false} DeltasExist(q: seq<TCB>)
    ensures exists l :: Deltas(q, l)
  {
    if q == [] {
      assert Deltas(q, []);
    } else {
      var n := |q| - 1;
      DeltasExist(q[..n]);
      var l :| Deltas(q[..n], l);
      assert Deltas(q, l + [Entry(q[n].threadID, q[n].timeSleepRelative)]);
    }
  }

  /** A semaphore queue as waiters with the tokens they need. */
  ghost function NeedsOf(q: seq<TCB>): (r: seq<Entry>)
    reads q`tokensNeeded
    ensures |r| == |q|
    ensures forall i :: 0 <= i < |q| ==> r[i] == Entry(q[i].threadID, q[i].tokensNeeded)
  {
    NeedsExist(q);
    var l :| Needs(q, l);
    l
  }

  /** The sleep list as sleepers with their deltas. */
  ghost function DeltasOf(q: seq<TCB>): (r: seq<Entry>)
    reads q`timeSleepRelative
    ensures |r| == |q|
    ensures forall i :: 0 <= i < |q| ==> r[i] == Entry(q[i].threadID, q[i].timeSleepRelative)
  {
    DeltasExist(q);
    var l :| Deltas(q, l);
    l
  }

  lemma Appended(q: seq<TCB>, tcb: TCB)
    requires AllDiffer(q) && tcb !in q
    ensures AllDiffer(q + [tcb])
    ensures forall j: nat :: j < |q| ==> (q + [tcb])[j] == q[j] && q[j] != tcb
  {
    var r := q + [tcb];
    forall i: nat, j: nat | i < j < |r|
      ensures Apart(r, i, j)
    {
      if j < |q| { assert Apart(q, i, j); } else { assert q[i] in q; }
    }
    forall j: nat | j < |q|
      ensures r[j] == q[j] && q[j] != tcb
    {
      assert q[j] in q;
    }
  }

  /** The successor that a link field holds. */
  ghost function Succ(q: seq<TCB>, i: nat): TCB?
    requires i < |q|
  {
    if i + 1 < |q| then q[i + 1] else null
  }

  ghost function First(q: seq<TCB>): TCB? {
    if q == [] then null else q[0]
  }

  ghost function Last(q: seq<TCB>): TCB? {
    if q == [] then null else q[|q| - 1]
  }

  ghost function Only(tcb: TCB?): set<TCB> {
    if tcb == null then {} else {tcb}
  }

  ghost predicate Apart(q: seq<TCB>, i: nat, j: nat) {
    i < |q| && j < |q| && q[i] != q[j]
  }

  ghost predicate AllDiffer(q: seq<TCB>) {
    forall i: nat, j: nat :: i < j < |q| ==> Apart(q, i, j)
  }

  lemma DifferFrom(q: seq<TCB>, at: nat)
    requires AllDiffer(q) && at < |q|
    ensures forall j: nat :: j < |q| && j != at ==> q[j] != q[at]
  {
    forall j: nat | j < |q| && j != at
      ensures q[j] != q[at]
    {
      assert if j < at then Apart(q, j, at) else Apart(q, at, j);
    }
  }

  // ---- src/scheduler.cpp

  class ReadyQueue {
    var readyHead: TCB?
    var readyTail: TCB?
    ghost var queue: seq<TCB>

    ghost predicate Valid()
      reads this`readyHead, this`readyTail, this`queue, queue`nextReady
    {
      && AllDiffer(queue)
      && readyHead == First(queue) && readyTail == Last(queue)
      && (forall i: nat {:trigger queue[i].nextReady} :: i < |queue| ==> queue[i].nextReady == Succ(queue, i))
    }

    constructor ()
      ensures Valid() && queue == []
    {
      readyHead, readyTail, queue := null, null, [];
    }

    method Put(tcb: TCB)
      requires Valid() && tcb !in queue
      modifies this`readyHead, this`readyTail, this`queue, tcb`nextReady, queue`nextReady
      ensures Valid() && queue == old(queue) + [tcb]
    {
      Appended(queue, tcb);
      if queue != [] { DifferFrom(queue, |queue| - 1); }
      tcb.nextReady := null;
      if readyTail == null {
        readyHead := tcb;
      } else {
        readyTail.nextReady := tcb;
      }
      readyTail := tcb;
      queue := queue + [tcb];
    }

    /** The first ready thread, or null. */
    method Get() returns (ret: TCB?)
      requires Valid()
      modifies this`readyHead, this`readyTail, this`queue, queue`nextReady
      ensures Valid()
      ensures old(queue) == [] ==> ret == null && queue == []
      ensures old(queue) != [] ==> ret == old(queue)[0] && queue == old(queue)[1..]
    {
      ret := null;
      if readyHead != null {
        ghost var q := queue;
        RestShifted(q, q[1..]);
        ret := readyHead;
        readyHead := readyHead.nextReady;
        if readyHead == null { readyTail := null; }
        ret.nextReady := null;
        queue := q[1..];
        forall j: nat | j < |queue|
          ensures queue[j].nextReady == Succ(queue, j)
        {
          assert queue[j] == q[j + 1];
        }
      }
    }
  }

  // ---- src/kSemaphore.cpp: the blocked queue

  class Semaphore {
    const semID: nat
    var value: uint64
    var active: bool
    var blockedHead: TCB?
    var blockedTail: TCB?
    ghost var queue: seq<TCB>

    ghost predicate Valid()
      reads this`blockedHead, this`blockedTail, this`queue, queue`nextSemBlocked
    {
      && AllDiffer(queue)
      && blockedHead == First(queue) && blockedTail == Last(queue)
      && (forall i: nat {:trigger queue[i].nextSemBlocked} :: i < |queue| ==> queue[i].nextSemBlocked == Succ(queue, i))
    }

    ghost function Waiters(): (r: seq<Entry>)
      reads this`queue, queue`tokensNeeded
    {
      NeedsOf(queue)
    }

    constructor (id: nat, val: uint64)
      ensures Valid() && semID == id && value == val && active && queue == []
    {
      semID, value, active := id, val, true;
      blockedHead, blockedTail, queue := null, null, [];
    }

    /** The links of put. */
    method LinkLast(tcb: TCB)
      requires Valid() && tcb !in queue
      modifies this`blockedHead, this`blockedTail, this`queue, tcb`nextSemBlocked, queue`nextSemBlocked
      ensures Valid() && queue == old(queue) + [tcb]
    {
      Appended(queue, tcb);
      if queue != [] { DifferFrom(queue, |queue| - 1); }
      if blockedHead == null {
        blockedHead := tcb;
      } else {
        blockedTail.nextSemBlocked := tcb;
      }
      blockedTail := tcb;
      tcb.nextSemBlocked := null;
      queue := queue + [tcb];
    }

    method Put(tcb: TCB, tokens: uint64)
      requires Valid() && tcb !in queue
      modifies this`blockedHead, this`blockedTail, this`queue
      modifies tcb`blockedAtSem, tcb`nextSemBlocked, tcb`tokensNeeded, queue`nextSemBlocked
      ensures Valid() && queue == old(queue) + [tcb]
      ensures Waiters() == old(Waiters()) + [Entry(tcb.threadID, tokens)]
      ensures tcb.blockedAtSem == this
    {
      LinkLast(tcb);
      tcb.blockedAtSem := this;
      tcb.tokensNeeded := tokens;
    }

    /** get(): takes the first waiter off, if there is one. */
    method GetHead() returns (ret: TCB?)
      requires Valid()
      modifies this`blockedHead, this`blockedTail, this`queue
      modifies Only(blockedHead)`blockedAtSem, Only(blockedHead)`nextSemBlocked, Only(blockedHead)`tokensNeeded
      ensures Valid()
      ensures old(queue) == [] ==> ret == null && queue == []
      ensures old(queue) != [] ==> ret == old(queue)[0] && queue == old(queue)[1..]
      ensures old(queue) != [] ==> Waiters() == old(Waiters())[1..] && ret.blockedAtSem == null
    {
      ret := null;
      if blockedHead != null {
        RestShifted(queue, queue[1..]);
        ret := blockedHead;
        blockedHead := blockedHead.nextSemBlocked;
        if blockedHead == null { blockedTail := null; }
        ret.blockedAtSem := null;
        ret.nextSemBlocked := null;
        ret.tokensNeeded := 0;
        queue := queue[1..];
      }
    }

    /** The walk of get(tcb): the waiter's predecessor, and its place in the queue;
        curr is null if it is not there. */
    method Seek(tcb: TCB) returns (prev: TCB?, curr: TCB?, ghost at: nat)
      requires Valid()
      ensures curr == if tcb in queue then tcb else null
      ensures tcb in queue ==> at < |queue| && queue[at] == tcb && prev == if at == 0 then null else queue[at - 1]
    {
      curr := blockedHead;
      prev := null;
      at := 0;
      while curr != null && curr != tcb
        invariant at <= |queue| && curr == if at < |queue| then queue[at] else null
        invariant tcb !in queue[..at]
        invariant prev == if at == 0 then null else queue[at - 1]
        decreases |queue| - at
      {
        prev := curr;
        curr := curr.nextSemBlocked;
        at := at + 1;
      }
      assert queue == queue[..at] + queue[at..];
    }

    /** The links of get(tcb). */
    method Unlink(tcb: TCB, prev: TCB?, ghost at: nat)
      requires Valid() && at < |queue| && queue[at] == tcb
      requires prev == if at == 0 then null else queue[at - 1]
      modifies this`blockedHead, this`blockedTail, this`queue, queue`nextSemBlocked
      ensures Valid() && queue == old(queue)[..at] + old(queue)[at + 1..]
    {
      ghost var q := queue;
      if prev != null {
        prev.nextSemBlocked := tcb.nextSemBlocked;
        if tcb == blockedTail { blockedTail := prev; }
      } else {
        blockedHead := tcb.nextSemBlocked;
        if blockedHead == null { blockedTail := null; }
      }
      tcb.nextSemBlocked := null;
      queue := q[..at] + q[at + 1..];
      Shifted(q, at, queue);
      if at > 0 { DifferFrom(q, at - 1); }
      forall j: nat | j < |queue|
        ensures queue[j].nextSemBlocked == Succ(queue, j)
      {
        assert queue[j] == q[if j < at then j else j + 1];
      }
    }

    /** get(tcb): null, and nothing is changed, unless tcb waits here. */
    method Get(tcb: TCB) returns (ret: TCB?, ghost at: nat)
      requires Valid()
      modifies this`blockedHead, this`blockedTail, this`queue
      modifies queue`nextSemBlocked, tcb`blockedAtSem, tcb`tokensNeeded
      ensures Valid() && ret == if old(tcb.blockedAtSem) == this && tcb in old(queue) then tcb else null
      ensures ret == null ==> queue == old(queue) && Waiters() == old(Waiters())
      ensures ret == null ==> tcb.blockedAtSem == old(tcb.blockedAtSem) && tcb.tokensNeeded == old(tcb.tokensNeeded)
      ensures ret != null ==> at < |old(queue)| && tcb == old(queue)[at]
      ensures ret != null ==> queue == old(queue)[..at] + old(queue)[at + 1..]
      ensures ret != null ==> Waiters() == DropAt(old(Waiters()), at) && tcb.blockedAtSem == null
    {
      ret, at := null, 0;
      if tcb.blockedAtSem == this {
        var prev;
        prev, ret, at := Seek(tcb);
        if ret != null { Leave(tcb, prev, at); }
      }
    }

    /** Unlinks the waiter and clears its fields. */
    method Leave(tcb: TCB, prev: TCB?, ghost at: nat)
      requires Valid() && at < |queue| && queue[at] == tcb
      requires prev == if at == 0 then null else queue[at - 1]
      modifies this`blockedHead, this`blockedTail, this`queue
      modifies queue`nextSemBlocked, tcb`blockedAtSem, tcb`tokensNeeded
      ensures Valid() && queue == old(queue)[..at] + old(queue)[at + 1..]
      ensures Waiters() == DropAt(old(Waiters()), at) && tcb.blockedAtSem == null
    {
      ghost var q, w := queue, Waiters();
      Unlink(tcb, prev, at);
      tcb.blockedAtSem := null;
      tcb.tokensNeeded := 0;
      Shifted(q, at, queue);
      DifferFrom(q, at);
      NeedsDropped(q, at, queue, w);
    }
  }

  lemma Shifted(q: seq<TCB>, at: nat, r: seq<TCB>)
    requires at < |q| && r == q[..at] + q[at + 1..]
    requires AllDiffer(q)
    ensures forall j: nat :: j < at ==> r[j] == q[j]
    ensures forall j: nat :: at <= j < |r| ==> r[j] == q[j + 1]
    ensures forall j: nat :: j < |r| ==> r[j] != q[at]
    ensures AllDiffer(r)
  {
    DifferFrom(q, at);
    forall i: nat, j: nat | i < j < |r|
      ensures Apart(r, i, j)
    {
      assert Apart(q, if i < at then i else i + 1, if j < at then j else j + 1);
    }
  }

  lemma RestShifted(q: seq<TCB>, r: seq<TCB>)
    requires q != [] && r == q[1..] && AllDiffer(q)
    ensures forall j: nat :: j < |r| ==> r[j] == q[j + 1] && r[j] != q[0]
    ensures AllDiffer(r)
  {
    DifferFrom(q, 0);
    forall i: nat, j: nat | i < j < |r|
      ensures Apart(r, i, j)
    {
      assert Apart(q, i + 1, j + 1);
    }
  }

  lemma Inserted(q: seq<TCB>, at: nat, tcb: TCB, r: seq<TCB>)
    requires at <= |q| && r == q[..at] + [tcb] + q[at..] && tcb !in q
    requires AllDiffer(q)
    ensures |r| == |q| + 1 && r[at] == tcb
    ensures forall j: nat :: j < |r| && j != at ==> r[j] == q[if j < at then j else j - 1] && r[j] != tcb
    ensures AllDiffer(r)
  {
    forall j: nat | j < |r| && j != at
      ensures r[j] == q[if j < at then j else j - 1] && r[j] != tcb
    {
      assert q[if j < at then j else j - 1] in q;
    }
    forall i: nat, j: nat | i < j < |r|
      ensures Apart(r, i, j)
    {
      if i != at && j != at {
        assert Apart(q, if i < at then i else i - 1, if j < at then j else j - 1);
      }
    }
  }

  lemma Members(q: seq<TCB>, at: nat, tcb: TCB, r: seq<TCB>)
    requires at <= |q| && r == q[..at] + [tcb] + q[at..]
    ensures forall t :: t in r <==> t in q || t == tcb
  {
    assert q == q[..at] + q[at..];
  }

  lemma NeedsDropped(q: seq<TCB>, at: nat, r: seq<TCB>, w: seq<Entry>)
    requires at < |q| == |w| && |r| == |q| - 1
    requires forall j :: 0 <= j < |r| ==> r[j] == q[if j < at then j else j + 1]
    requires forall j :: 0 <= j < |q| && j != at ==> w[j] == Entry(q[j].threadID, q[j].tokensNeeded)
    ensures NeedsOf(r) == DropAt(w, at)
  {
  }

  // ---- src/sleep.cpp: the delta list

  lemma TotalUpTo(l: seq<Entry>, i: nat)
    requires i < |l|
    ensures Total(l[..i + 1]) == Total(l[..i]) + l[i].n
  {
    assert l[..i + 1] == l[..i] + [l[i]];
    TotalConcat(l[..i], [l[i]]);
    assert [l[i]][1..] == [];
  }

  /** Insert stops behind the last entry whose deadline fits into the timeout. */
  lemma {:induction false} InsertAt(l: seq<Entry>, t: Tid, timeout: nat, i: nat, left: nat)
    requires i < |l| && Total(l[..i + 1]) + left == timeout
    requires i + 1 < |l| ==> l[i + 1].n > left
    ensures Insert(l, t, timeout) == SplicedIn(l, t, i, left)
  {
    var m := l[1..];
    assert l[..i + 1][1..] == m[..i];
    if i > 0 {
      InsertAt(m, t, timeout - l[0].n, i - 1, left);
      SplicedInRest(l, t, i, left);
    } else if |l| == 1 {
      assert m == [];
    }
  }

  lemma SplicedInRest(l: seq<Entry>, t: Tid, i: nat, left: nat)
    requires 0 < i < |l| && (i + 1 < |l| ==> l[i + 1].n >= left)
    ensures SplicedIn(l, t, i, left) == [l[0]] + SplicedIn(l[1..], t, i - 1, left)
  {
    assert l[..i + 1] == [l[0]] + l[1..][..i];
    if i + 1 < |l| { assert l[i + 2..] == l[1..][i + 1..]; }
  }

  lemma DeltasSpliced(q: seq<TCB>, tcb: TCB, i: nat, r: seq<TCB>, l: seq<Entry>, left: nat)
    requires i < |q| == |l| && (i + 1 < |l| ==> l[i + 1].n >= left)
    requires r == q[..i + 1] + [tcb] + q[i + 1..]
    requires forall j :: 0 <= j < |q| ==> l[j].tid == q[j].threadID
    requires forall j :: 0 <= j < |q| && j != i + 1 ==> l[j].n == q[j].timeSleepRelative
    requires i + 1 < |q| ==> q[i + 1].timeSleepRelative == l[i + 1].n - left
    requires tcb.timeSleepRelative == left
    ensures DeltasOf(r) == SplicedIn(l, tcb.threadID, i, left)
  {
    var d := SplicedIn(l, tcb.threadID, i, left);
    assert |d| == |r|;
    forall j | 0 <= j < |r|
      ensures d[j] == Entry(r[j].threadID, r[j].timeSleepRelative)
    {
      if j <= i {
        assert r[j] == q[j];
      } else if j > i + 1 {
        assert r[j] == q[j - 1];
      }
    }
  }

  lemma DeltasFirst(q: seq<TCB>, tcb: TCB, r: seq<TCB>, l: seq<Entry>, timeout: nat)
    requires 0 < |q| == |l| && timeout < l[0].n && r == [tcb] + q
    requires forall j :: 0 <= j < |q| ==> l[j].tid == q[j].threadID
    requires forall j :: 0 < j < |q| ==> l[j].n == q[j].timeSleepRelative
    requires q[0].timeSleepRelative == l[0].n - timeout && tcb.timeSleepRelative == timeout
    ensures DeltasOf(r) == Insert(l, tcb.threadID, timeout)
  {
    var d := [Entry(tcb.threadID, timeout), Entry(l[0].tid, l[0].n - timeout)] + l[1..];
    assert |d| == |r|;
    forall j | 0 <= j < |r|
      ensures d[j] == Entry(r[j].threadID, r[j].timeSleepRelative)
    {
      if j > 1 { assert d[j] == l[j - 1] && r[j] == q[j - 1]; }
    }
    assert DeltasOf(r) == d;
  }

  lemma DeltasRemoved(q: seq<TCB>, at: nat, r: seq<TCB>, l: seq<Entry>)
    requires at < |q| == |l| && |r| == |q| - 1
    requires forall j :: 0 <= j < |r| ==> r[j] == q[if j < at then j else j + 1]
    requires forall j :: 0 <= j < |q| ==> l[j].tid == q[j].threadID
    requires forall j :: 0 <= j < |q| && j != at && j != at + 1 ==> l[j].n == q[j].timeSleepRelative
    requires at + 1 < |q| ==> q[at + 1].timeSleepRelative == Wrap(l[at + 1].n + l[at].n)
    ensures DeltasOf(r) == SleepSpec.Remove(l, at)
  {
    var d := SleepSpec.Remove(l, at);
    assert |d| == |r|;
    assert forall j :: 0 <= j < at ==> d[j] == l[j];
    assert forall j :: at < j < |d| ==> d[j] == l[j + 1];
  }

  /** t stands behind entry i, with delta left; its successor is that much closer to it. */
  function SplicedIn(l: seq<Entry>, t: Tid, i: nat, left: nat): (r: seq<Entry>)
    requires i < |l|
    requires i + 1 < |l| ==> l[i + 1].n >= left
    ensures |r| == |l| + 1 && r[i + 1] == Entry(t, left)
  {
    if i + 1 == |l| then l + [Entry(t, left)]
    else l[..i + 1] + [Entry(t, left), Entry(l[i + 1].tid, l[i + 1].n - left)] + l[i + 2..]
  }

  class SleepList {
    var sleepHead: TCB?
    ghost var queue: seq<TCB>

    ghost predicate Valid()
      reads this`sleepHead, this`queue, queue`nextSleep
    {
      && AllDiffer(queue)
      && sleepHead == First(queue)
      && (forall i: nat {:trigger queue[i].nextSleep} :: i < |queue| ==> queue[i].nextSleep == Succ(queue, i))
    }

    ghost function Sleepers(): (r: seq<Entry>)
      reads this`queue, queue`timeSleepRelative
    {
      DeltasOf(queue)
    }

    constructor ()
      ensures Valid() && queue == []
    {
      sleepHead, queue := null, [];
    }

    method Put(tcb: TCB, timeout: uint64)
      requires Valid() && tcb !in queue
      modifies this`sleepHead, this`queue, tcb`timeSleepRelative, tcb`nextSleep, tcb`sleeps, queue`timeSleepRelative
      modifies queue`nextSleep
      ensures Valid()
      ensures forall t :: t in queue <==> t in old(queue) || t == tcb
      ensures Sleepers() == Insert(old(Sleepers()), tcb.threadID, timeout)
      ensures tcb.sleeps
    {
      if sleepHead == null {
        PutAlone(tcb, timeout);
      } else if timeout < sleepHead.timeSleepRelative {
        PutFirst(tcb, timeout);
      } else {
        PutLater(tcb, timeout);
      }
      tcb.sleeps := true;
    }

    method PutAlone(tcb: TCB, timeout: uint64)
      requires Valid() && queue == []
      modifies this`sleepHead, this`queue, tcb`timeSleepRelative, tcb`nextSleep
      ensures Valid() && queue == [tcb]
      ensures Sleepers() == Insert(old(Sleepers()), tcb.threadID, timeout)
    {
      tcb.timeSleepRelative := timeout;
      tcb.nextSleep := null;
      sleepHead := tcb;
      queue := [tcb];
    }

    /** Due before everybody else. */
    method PutFirst(tcb: TCB, timeout: uint64)
      requires Valid() && tcb !in queue && sleepHead != null && timeout < sleepHead.timeSleepRelative
      modifies this`sleepHead, this`queue, tcb`timeSleepRelative, tcb`nextSleep, queue`timeSleepRelative
      ensures Valid() && queue == [tcb] + old(queue)
      ensures Sleepers() == Insert(old(Sleepers()), tcb.threadID, timeout)
    {
      ghost var q, l := queue, Sleepers();
      sleepHead.timeSleepRelative := sleepHead.timeSleepRelative - timeout;
      tcb.timeSleepRelative := timeout;
      LinkFirst(tcb);
      DifferFrom(q, 0);
      Inserted(q, 0, tcb, queue);
      DeltasFirst(q, tcb, queue, l, timeout);
    }

    method LinkFirst(tcb: TCB)
      requires Valid() && tcb !in queue
      modifies this`sleepHead, this`queue, tcb`nextSleep
      ensures Valid() && queue == [tcb] + old(queue)
    {
      Inserted(queue, 0, tcb, [tcb] + queue);
      tcb.nextSleep := sleepHead;
      sleepHead := tcb;
      queue := [tcb] + queue;
    }

    method PutLater(tcb: TCB, timeout: uint64)
      requires Valid() && tcb !in queue && sleepHead != null && sleepHead.timeSleepRelative <= timeout
      modifies this`queue, tcb`timeSleepRelative, tcb`nextSleep, queue`timeSleepRelative, queue`nextSleep
      ensures Valid()
      ensures forall t :: t in queue <==> t in old(queue) || t == tcb
      ensures Sleepers() == Insert(old(Sleepers()), tcb.threadID, timeout)
    {
      ghost var l, q := Sleepers(), queue;
      var target, left, i := Find(timeout);
      Splice(tcb, target, left, i);
      Members(q, i + 1, tcb, queue);
      assert Sleepers() == Insert(l, tcb.threadID, timeout) by {
        InsertAt(l, tcb.threadID, timeout, i, left);
      }
    }

    /** The last sleeper due no later than the timeout, and what is then left of the timeout. */
    method Find(timeout: uint64) returns (target: TCB, left: uint64, ghost i: nat)
      requires Valid() && sleepHead != null && sleepHead.timeSleepRelative <= timeout
      ensures i < |queue| && target == queue[i]
      ensures left + Total(Sleepers()[..i + 1]) == timeout
      ensures i + 1 < |queue| ==> queue[i + 1].timeSleepRelative > left
    {
      ghost var l := Sleepers();
      target := sleepHead;
      left := timeout - target.timeSleepRelative;
      i := 0;
      TotalUpTo(l, 0);
      while target.nextSleep != null && target.nextSleep.timeSleepRelative <= left
        invariant i < |queue| && target == queue[i]
        invariant left + Total(l[..i + 1]) == timeout
        decreases |queue| - i
      {
        assert i + 1 < |queue| && target.nextSleep == queue[i + 1] && l[i + 1].n == queue[i + 1].timeSleepRelative;
        target := target.nextSleep;
        left := left - target.timeSleepRelative;
        i := i + 1;
        TotalUpTo(l, i);
      }
    }

    /** The links of put, behind sleeper i. */
    method LinkAfter(tcb: TCB, target: TCB, ghost i: nat)
      requires Valid() && tcb !in queue && i < |queue| && target == queue[i]
      modifies this`queue, tcb`nextSleep, queue`nextSleep
      ensures Valid() && queue == old(queue)[..i + 1] + [tcb] + old(queue)[i + 1..]
    {
      ghost var q := queue;
      tcb.nextSleep := target.nextSleep;
      target.nextSleep := tcb;
      queue := q[..i + 1] + [tcb] + q[i + 1..];
      Inserted(q, i + 1, tcb, queue);
      DifferFrom(q, i);
      forall j: nat | j < |queue|
        ensures queue[j].nextSleep == Succ(queue, j)
      {
        if j != i + 1 { assert queue[j] == q[if j <= i then j else j - 1]; }
      }
    }

    /** Puts tcb in behind sleeper i. */
    method Splice(tcb: TCB, target: TCB, left: uint64, ghost i: nat)
      requires Valid() && tcb !in queue && i < |queue| && target == queue[i]
      requires i + 1 < |queue| ==> queue[i + 1].timeSleepRelative > left
      modifies this`queue, tcb`timeSleepRelative, tcb`nextSleep, queue`timeSleepRelative, queue`nextSleep
      ensures Valid() && queue == old(queue)[..i + 1] + [tcb] + old(queue)[i + 1..]
      ensures Sleepers() == SplicedIn(old(Sleepers()), tcb.threadID, i, left)
    {
      ghost var q, l := queue, Sleepers();
      if target.nextSleep != null {
        target.nextSleep.timeSleepRelative := target.nextSleep.timeSleepRelative - left;
      }
      tcb.timeSleepRelative := left;
      LinkAfter(tcb, target, i);
      Inserted(q, i + 1, tcb, queue);
      if i + 1 < |q| { DifferFrom(q, i + 1); }
      DeltasSpliced(q, tcb, i, queue, l, left);
    }

    /** The walk of get(tcb): the sleeper's predecessor, and its place in the list;
        curr is null if it is not there. */
    method Seek(tcb: TCB) returns (prev: TCB?, curr: TCB?, ghost at: nat)
      requires Valid()
      ensures curr == if tcb in queue then tcb else null
      ensures tcb in queue ==> at < |queue| && queue[at] == tcb && prev == if at == 0 then null else queue[at - 1]
    {
      curr := sleepHead;
      prev := null;
      at := 0;
      while curr != null && curr != tcb
        invariant at <= |queue| && curr == if at < |queue| then queue[at] else null
        invariant tcb !in queue[..at]
        invariant prev == if at == 0 then null else queue[at - 1]
        decreases |queue| - at
      {
        prev := curr;
        curr := curr.nextSleep;
        at := at + 1;
      }
      assert queue == queue[..at] + queue[at..];
    }

    /** The links of get(tcb). */
    method Unlink(tcb: TCB, prev: TCB?, ghost at: nat)
      requires Valid() && at < |queue| && queue[at] == tcb
      requires prev == if at == 0 then null else queue[at - 1]
      modifies this`sleepHead, this`queue, queue`nextSleep
      ensures Valid() && queue == old(queue)[..at] + old(queue)[at + 1..]
    {
      ghost var q := queue;
      if prev != null {
        prev.nextSleep := tcb.nextSleep;
      } else {
        sleepHead := tcb.nextSleep;
      }
      tcb.nextSleep := null;
      queue := q[..at] + q[at + 1..];
      Shifted(q, at, queue);
      if at > 0 { DifferFrom(q, at - 1); }
      forall j: nat | j < |queue|
        ensures queue[j].nextSleep == Succ(queue, j)
      {
        assert queue[j] == q[if j < at then j else j + 1];
      }
    }

    /** The delta of the sleeper that left goes to the one behind it. */
    static method PassDelta(tcb: TCB, next: TCB?, ghost q: seq<TCB>, ghost at: nat)
      requires AllDiffer(q) && at < |q| && q[at] == tcb && next == Succ(q, at)
      modifies q`timeSleepRelative
      ensures forall j :: 0 <= j < |q| && j != at && j != at + 1 ==>
        q[j].timeSleepRelative == old(q[j].timeSleepRelative)
      ensures at + 1 < |q| ==>
        q[at + 1].timeSleepRelative == Wrap(old(q[at + 1].timeSleepRelative) + old(tcb.timeSleepRelative))
    {
      DifferFrom(q, at);
      if at + 1 < |q| { DifferFrom(q, at + 1); }
      if next != null {
        next.timeSleepRelative := Wrap(next.timeSleepRelative + tcb.timeSleepRelative);
      }
      tcb.timeSleepRelative := 0;
    }

    /** Takes sleeper `at` out of the list and gives its delta to its successor. */
    method Cut(tcb: TCB, prev: TCB?, ghost at: nat)
      requires Valid() && at < |queue| && queue[at] == tcb
      requires prev == if at == 0 then null else queue[at - 1]
      modifies this`sleepHead, this`queue, queue`timeSleepRelative, queue`nextSleep
      ensures Valid() && queue == old(queue)[..at] + old(queue)[at + 1..]
      ensures Sleepers() == SleepSpec.Remove(old(Sleepers()), at)
    {
      ghost var q, l := queue, Sleepers();
      PassDelta(tcb, tcb.nextSleep, q, at);
      Unlink(tcb, prev, at);
      Shifted(q, at, queue);
      DeltasRemoved(q, at, queue, l);
    }

    method Remove(tcb: TCB, prev: TCB?, ghost at: nat)
      requires Valid() && at < |queue| && queue[at] == tcb
      requires prev == if at == 0 then null else queue[at - 1]
      modifies this`sleepHead, this`queue, queue`timeSleepRelative, queue`nextSleep, tcb`sleeps
      ensures Valid() && queue == old(queue)[..at] + old(queue)[at + 1..]
      ensures Sleepers() == SleepSpec.Remove(old(Sleepers()), at)
      ensures !tcb.sleeps
    {
      tcb.sleeps := false;
      Cut(tcb, prev, at);
    }

    /** get(tcb): null, and nothing is changed, unless tcb sleeps here. */
    method Get(tcb: TCB) returns (ret: TCB?, ghost at: nat)
      requires Valid()
      modifies this`sleepHead, this`queue, queue`timeSleepRelative, queue`nextSleep, tcb`sleeps
      ensures Valid() && ret == if old(tcb.sleeps) && tcb in old(queue) then tcb else null
      ensures ret == null ==> queue == old(queue) && Sleepers() == old(Sleepers()) && tcb.sleeps == old(tcb.sleeps)
      ensures ret != null ==> at < |old(queue)| && tcb == old(queue)[at]
      ensures ret != null ==> queue == old(queue)[..at] + old(queue)[at + 1..]
      ensures ret != null ==> Sleepers() == SleepSpec.Remove(old(Sleepers()), at) && !tcb.sleeps
    {
      ret, at := null, 0;
      if tcb.sleeps {
        var prev;
        prev, ret, at := Seek(tcb);
        if ret != null { Remove(tcb, prev, at); }
      }
    }

    /** get(): takes the first sleeper off, if there is one. */
    method GetHead() returns (ret: TCB?)
      requires Valid()
      modifies this`sleepHead, this`queue, queue`timeSleepRelative, queue`nextSleep, Only(sleepHead)`sleeps
      ensures Valid()
      ensures old(queue) == [] ==> ret == null && queue == []
      ensures old(queue) != [] ==> ret == old(queue)[0] && queue == old(queue)[1..]
      ensures old(queue) != [] ==> Sleepers() == SleepSpec.Remove(old(Sleepers()), 0) && !ret.sleeps
    {
      ret := sleepHead;
      if sleepHead != null { Remove(sleepHead, null, 0); }
    }

    /** The decrement at the head of onTick. */
    method Count()
      requires Valid()
      modifies queue`timeSleepRelative
      ensures Valid() && Sleepers() == Decrement(old(Sleepers()))
    {
      if sleepHead != null {
        DifferFrom(queue, 0);
        sleepHead.timeSleepRelative := Wrap(sleepHead.timeSleepRelative + TWO64 - 1);
      }
    }
  }

  // ---- h/io.hpp: the ring

  class CharRing {
    const buffer: array<char>
    var posW: nat
    var posR: nat
    const semPut: Semaphore
    const semGet: Semaphore
    const mutex: Semaphore

    constructor (put: Semaphore, get: Semaphore, lock: Semaphore)
      ensures fresh(buffer) && buffer.Length == BUFFER_LENGTH && buffer[..] == seq(BUFFER_LENGTH, _ => '\0')
      ensures posW == 0 && posR == 0 && semPut == put && semGet == get && mutex == lock
    {
      posW, posR, semPut, semGet, mutex := 0, 0, put, get, lock;
      var b := new char[BUFFER_LENGTH](_ => '\0');
      buffer := b;
      new;
      assert buffer[..] == seq(BUFFER_LENGTH, _ => '\0');
    }

    method Put(c: char)
      requires posW < buffer.Length
      modifies this`posW, buffer
      ensures buffer[..] == old(buffer[..])[old(posW) := c]
      ensures posW == (old(posW) + 1) % BUFFER_LENGTH
    {
      buffer[posW] := c;
      posW := (posW + 1) % BUFFER_LENGTH;
    }

    method Get() returns (c: char)
      requires posR < buffer.Length
      modifies this`posR
      ensures c == buffer[old(posR)] && posR == (old(posR) + 1) % BUFFER_LENGTH
    {
      c := buffer[posR];
      posR := (posR + 1) % BUFFER_LENGTH;
    }
  }
}
