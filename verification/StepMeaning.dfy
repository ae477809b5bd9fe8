/** What each system call, each continuation and the timer do, said in the fields of the state before
    and after.  Constants of the source are written out. */
module StepMeaning {
  import opened Entries
  import opened KernelTypes
  import opened SleepSpec
  import opened KernelSpec
  import opened PlaceInvariant
  import opened Effects
  import opened LinkInvariant
  import opened KernelSteps
  import opened Releases

  // ---- the processor

  /** The first of the line runs, with a fresh slice, and the others stay in line; idle runs if nobody
      is there. */
  ghost predicate Dispatched(k': State, line: seq<Tid>) {
    && k'.sliceTicks == 0
    && if line == [] then k'.running == IDLE && k'.ready == [] else k'.running == line[0] && k'.ready == line[1..]
  }

  /** thread_dispatch: the caller goes to the end of the line, and nothing else happens. */
  lemma DispatchMeans(k: State)
    requires Busy(k)
    ensures var (k', r) := Next(k, Sys(CallDispatch));
      && r == Value(0)
      && k'.threads == k.threads && k'.sems == k.sems && k'.bufs == k.bufs && k'.sleepers == k.sleepers
      && k'.sliceTicks == 0
      && (k.ready != [] ==> k'.running == k.ready[0] && k'.ready == k.ready[1..] + [k.running])
      && (k.ready == [] ==> k'.running == k.running && k'.ready == [])
  {
    RunningFree(k);
    if k.ready != [] { assert (k.ready + [k.running])[1..] == k.ready[1..] + [k.running]; }
  }

  /** The idle thread's yield: the first ready thread runs, and idle is not put in line. */
  lemma IdleMeans(k: State)
    requires Good(k) && k.running == IDLE
    ensures var (k', r) := Next(k, Sys(CallDispatch));
      && Dispatched(k', k.ready)
      && k'.threads == k.threads && k'.sems == k.sems && k'.bufs == k.bufs && k'.sleepers == k.sleepers
  {
  }

  // ---- waits

  /** The running thread asks s for n tokens.  w is what wait answers, None when the caller is
      suspended; c is where it goes on then. */
  ghost predicate Waits(k: State, k': State, s: Sid, n: nat, c: Cont, w: Option<int>) {
    && s < |k.sems| && k.running < |k.threads|
    && var x, me := k.sems[s], k.threads[k.running];
      if !x.active then
        w == Some(ERR_SEM_DEAD) && k' == k
      else if x.value >= n then
        && w == Some(0)
        && k' == k.(sems := k.sems[s := x.(value := x.value - n)],
                    threads := k.threads[k.running := me.(manner := Regular)])
      else
        && w == None
        && k'.sems == k.sems[s := x.(value := 0, queue := x.queue + [Entry(k.running, n - x.value)])]
        && k'.threads == k.threads[k.running := me.(blockedAt := Some(s), cont := c)]
        && k'.bufs == k.bufs && k'.sleepers == k.sleepers
        && Dispatched(k', k.ready)
  }

  /** t sleeps for `timeout`: behind everybody due by then, in front of everybody due later. */
  ghost predicate SleepersWith(l: seq<Entry>, l': seq<Entry>, t: Tid, timeout: nat) {
    && Deadlines(l', 0) == Deadlines(l, 0)[t := timeout]
    && (forall a: Tid :: a in Deadlines(l, 0) ==>
          if Deadlines(l, 0)[a] <= timeout then Before(l', a, t) else Before(l', t, a))
    && (forall a: Tid, b: Tid :: Before(l', a, b) && a != t && b != t ==> Before(l, a, b))
  }

  /** Waits, with a time limit. */
  ghost predicate TimedWaits(k: State, k': State, s: Sid, n: nat, timeout: nat, c: Cont, w: Option<int>) {
    && s < |k.sems| && k.running < |k.threads|
    && var x, me := k.sems[s], k.threads[k.running];
      if !x.active then
        w == Some(ERR_SEM_DEAD) && k' == k
      else if x.value >= n then
        && w == Some(0)
        && k' == k.(sems := k.sems[s := x.(value := x.value - n)],
                    threads := k.threads[k.running := me.(manner := Regular)])
      else if timeout == 0 then
        && w == Some(TIMEOUT)
        && k' == k.(sems := k.sems[s := x.(value := 0)],
                    threads := k.threads[k.running := me.(manner := WaitTimeout)])
      else
        && w == None
        && k'.sems == k.sems[s := x.(value := 0, queue := x.queue + [Entry(k.running, n - x.value)])]
        && k'.threads == k.threads[k.running := me.(blockedAt := Some(s), sleeps := true, cont := c)]
        && k'.bufs == k.bufs && SleepersWith(k.sleepers, k'.sleepers, k.running, timeout)
        && Dispatched(k', k.ready)
  }

  ghost predicate Answered(r: Reply, w: Option<int>) {
    r == if w.None? then Suspended else Value(w.value)
  }

  lemma WaitMeans(k: State, s: Sid, n: nat, why: Why)
    requires Busy(k) && s < |k.sems|
    ensures var (k', w) := Wait(k, s, n, why);
      Waits(k, k', s, n, Waiting(s, why), w)
  {
    RunningFree(k);
    WaitEffect(k, s, n, why);
    if Sm(k, s).active && Sm(k, s).value < n { AbsorbCore(k, s, n); }
  }

  lemma InsertMeans(l: seq<Entry>, t: Tid, timeout: nat)
    requires Distinct(l) && !Has(l, t)
    ensures SleepersWith(l, Insert(l, t, timeout), t, timeout)
  {
    InsertRefines(l, t, timeout, 0);
    InsertKeepsOthers(l, t, timeout);
    DeadlinesDomain(l, 0);
    var l' := Insert(l, t, timeout);
    forall a: Tid | a in Deadlines(l, 0)
      ensures if Deadlines(l, 0)[a] <= timeout then Before(l', a, t) else Before(l', t, a)
    {
      if Deadlines(l, 0)[a] <= timeout { InsertedLast(l, t, timeout, a); } else { InsertedBefore(l, t, timeout, a); }
    }
  }

  lemma InsertedBefore(l: seq<Entry>, t: Tid, timeout: nat, a: Tid)
    requires Distinct(l) && a in Deadlines(l, 0) && Deadlines(l, 0)[a] > timeout
    ensures Before(Insert(l, t, timeout), t, a)
  {
    DeadlinesDomain(l, 0);
    var j :| 0 <= j < |l| && l[j].tid == a;
    InsertBehindEqual(l, t, timeout, 0, j);
    InsertKeepsOrder(l, t, timeout);
    var p, r := InsertPos(l, timeout), Insert(l, t, timeout);
    assert r[p].tid == t && r[j + 1].tid == a;
  }

  lemma TimedWaitMeans(k: State, s: Sid, timeout: nat, n: nat, why: Why)
    requires Busy(k) && s < |k.sems|
    ensures var (k', w) := TimedWait(k, s, timeout, n, why);
      TimedWaits(k, k', s, n, timeout, Waiting(s, why), w)
  {
    RunningFree(k);
    TimedWaitEffect(k, s, timeout, n, why);
    if Sm(k, s).active && Sm(k, s).value < n && timeout > 0 {
      InsertMeans(k.sleepers, k.running, timeout);
      TimedWaitSwitched(k, s, timeout, n, why);
    }
  }

  lemma TimedWaitSwitched(k: State, s: Sid, timeout: nat, n: nat, why: Why)
    requires Busy(k) && Sm(k, s).active && Sm(k, s).value < n && timeout > 0
    ensures Dispatched(TimedWait(k, s, timeout, n, why).0, k.ready)
  {
    AbsorbCore(k, s, n);
  }

  // ---- the semaphore calls

  lemma SemWaitMeans(k: State, s: Sid, n: nat) returns (w: Option<int>)
    requires Busy(k) && CallOk(k, CallSemWait(s, n))
    ensures var (k', r) := Next(k, Sys(CallSemWait(s, n)));
      Waits(k, k', s, n, Waiting(s, ForSem), w) && Answered(r, w)
  {
    WaitMeans(k, s, n, ForSem);
    w := Wait(k, s, n, ForSem).1;
  }

  lemma SemTimedWaitMeans(k: State, s: Sid, timeout: nat, n: nat) returns (w: Option<int>)
    requires Busy(k) && CallOk(k, CallSemTimedWait(s, timeout, n))
    ensures var (k', r) := Next(k, Sys(CallSemTimedWait(s, timeout, n)));
      TimedWaits(k, k', s, n, timeout, Waiting(s, ForSem), w) && Answered(r, w)
  {
    TimedWaitMeans(k, s, timeout, n, ForSem);
    w := TimedWait(k, s, timeout, n, ForSem).1;
  }

  /** sem_trywait answers 0 exactly when it takes the tokens, 1 exactly when there are too few, and the
      error exactly for a dead semaphore. */
  lemma SemTryWaitMeans(k: State, s: Sid, n: nat)
    requires Busy(k) && CallOk(k, CallSemTryWait(s, n))
    ensures var (k', r) := Next(k, Sys(CallSemTryWait(s, n)));
      var x, me := k.sems[s], k.threads[k.running];
      && (r == Value(0) <==> x.active && x.value >= n)
      && (r == Value(1) <==> x.active && x.value < n)
      && (r == Value(ERR_SEM_DEAD) <==> !x.active)
      && k'.sems == (if x.active && x.value >= n then k.sems[s := x.(value := x.value - n)] else k.sems)
      && k'.threads == (if x.active then k.threads[k.running := me.(manner := Regular)] else k.threads)
      && k' == k.(sems := k'.sems, threads := k'.threads)
  {
    RunningFree(k);
  }

  /** n tokens handed out at s; nothing at a dead semaphore. */
  ghost predicate Supplies(k: State, k': State, s: Sid, n: nat) {
    && s < |k.sems|
    && if k.sems[s].active then exists p: nat :: HandedOut(k, k', s, n, p) else k' == k
  }

  lemma SignalMeans(k: State, s: Sid, n: nat)
    requires Core(k, {k.running}) && s < |k.sems| && n < TWO64
    ensures Supplies(k, Signal(k, s, n).0, s, n)
  {
    if k.sems[s].active {
      var r, p := SignalHandsOut(k, s, n, {k.running});
      assert HandedOut(k, r, s, n, p);
    }
  }

  lemma SemSignalMeans(k: State, s: Sid, n: nat)
    requires Busy(k) && CallOk(k, CallSemSignal(s, n))
    ensures var (k', r) := Next(k, Sys(CallSemSignal(s, n)));
      Supplies(k, k', s, n) && r == Value(if k.sems[s].active then 0 else ERR_SEM_DEAD)
  {
    SignalMeans(k, s, n);
  }

  /** Everybody waiting at s is released with the close outcome, and s is dead and empty. */
  ghost predicate Closed(k: State, k': State, s: Sid) {
    && s < |k.sems|
    && if k.sems[s].active
       then Released(k, k', k.sems[s].queue, OnClose)
         && k'.sems == k.sems[s := k.sems[s].(active := false, value := 0, queue := [])]
       else k' == k
  }

  lemma CloseMeans(k: State, s: Sid, limbo: set<Tid>)
    requires Core(k, limbo) && s < |k.sems|
    ensures Closed(k, Close(k, s).0, s)
  {
    if k.sems[s].active {
      var r := AllReleased(k, s, OnClose, limbo);
      ReleasedSems(k, r, Close(k, s).0, k.sems[s].queue, OnClose);
    }
  }

  lemma ReleasedSems(k: State, k1: State, k': State, q: seq<Entry>, m: Manner)
    requires Released(k, k1, q, m) && k' == k1.(sems := k'.sems)
    ensures Released(k, k', q, m)
  {
  }

  lemma SemCloseMeans(k: State, s: Sid)
    requires Busy(k) && CallOk(k, CallSemClose(s))
    ensures var (k', r) := Next(k, Sys(CallSemClose(s)));
      Closed(k, k', s) && r == Value(if k.sems[s].active then 0 else ERR_SEM_DEAD)
  {
    CloseMeans(k, s, {k.running});
  }

  /** sem_open: one new semaphore with the given value. */
  lemma SemOpenMeans(k: State, init: nat)
    requires Busy(k) && CallOk(k, CallSemOpen(init))
    ensures var (k', r) := Next(k, Sys(CallSemOpen(init)));
      r == Handle(|k.sems|) && k' == k.(sems := k.sems + [Sem(UserSem, true, init, [])])
  {
  }

  // ---- sleeping

  lemma SleepMeans(k: State, timeout: nat)
    requires Busy(k) && CallOk(k, CallSleep(timeout))
    ensures var (k', r) := Next(k, Sys(CallSleep(timeout)));
      if timeout == 0 then r == Value(ERR_SLEEP_ZERO) && k' == k
      else
        && r == Suspended && k'.sems == k.sems && k'.bufs == k.bufs
        && k'.threads == k.threads[k.running := k.threads[k.running].(sleeps := true, cont := Sleeping)]
        && SleepersWith(k.sleepers, k'.sleepers, k.running, timeout)
        && Dispatched(k', k.ready)
  {
    RunningFree(k);
    SleepEffect(k, timeout);
    if timeout > 0 { InsertMeans(k.sleepers, k.running, timeout); }
  }

  // ---- joins

  lemma JoinMeans(k: State, t: Tid) returns (w: Option<int>)
    requires Busy(k) && CallOk(k, CallJoin(t))
    ensures var (k', r) := Next(k, Sys(CallJoin(t)));
      var s := k.threads[t].semJoin;
      if t == k.running then r == Value(ERR_THREAD_SELFJOIN) && k' == k
      else if k.threads[t].finished then r == Value(0) && k' == k
      else Waits(k, k', s, 1, Waiting(s, ForJoin(t)), w) && Answered(r, w)
  {
    assert OwnsSems(k, t);
    WaitMeans(k, k.threads[t].semJoin, 1, ForJoin(t));
    w := Wait(k, k.threads[t].semJoin, 1, ForJoin(t)).1;
  }

  lemma TimedJoinMeans(k: State, t: Tid, timeout: nat) returns (w: Option<int>)
    requires Busy(k) && CallOk(k, CallTimedJoin(t, timeout))
    ensures var (k', r) := Next(k, Sys(CallTimedJoin(t, timeout)));
      var s := k.threads[t].semJoin;
      if t == k.running then r == Value(ERR_THREAD_SELFJOIN) && k' == k
      else if k.threads[t].finished then r == Value(0) && k' == k
      else TimedWaits(k, k', s, 1, timeout, Waiting(s, ForJoin(t)), w) && Answered(r, w)
  {
    assert OwnsSems(k, t);
    TimedWaitMeans(k, k.threads[t].semJoin, timeout, 1, ForJoin(t));
    w := TimedWait(k, k.threads[t].semJoin, timeout, 1, ForJoin(t)).1;
  }

  lemma JoinAllMeans(k: State) returns (w: Option<int>)
    requires Busy(k)
    ensures var (k', r) := Next(k, Sys(CallJoinAll));
      var me := k.threads[k.running];
      && Waits(k, k', me.semJoinAll, me.children, Waiting(me.semJoinAll, ForJoinAll), w)
      && r == if w.None? then Suspended else Value(0)
  {
    RunningFree(k);
    assert OwnsSems(k, k.running);
    var me := k.threads[k.running];
    WaitMeans(k, me.semJoinAll, me.children, ForJoinAll);
    w := Wait(k, me.semJoinAll, me.children, ForJoinAll).1;
  }

  lemma TimedJoinAllMeans(k: State, timeout: nat) returns (w: Option<int>)
    requires Busy(k) && CallOk(k, CallTimedJoinAll(timeout))
    ensures var (k', r) := Next(k, Sys(CallTimedJoinAll(timeout)));
      var me := k.threads[k.running];
      && TimedWaits(k, k', me.semJoinAll, me.children, timeout, Waiting(me.semJoinAll, ForTimedJoinAll), w)
      && r == if w.None? then Suspended else Value(me.children)
  {
    RunningFree(k);
    assert OwnsSems(k, k.running);
    var me := k.threads[k.running];
    TimedWaitMeans(k, me.semJoinAll, timeout, me.children, ForTimedJoinAll);
    w := TimedWait(k, me.semJoinAll, timeout, me.children, ForTimedJoinAll).1;
  }

  // ---- send and receive

  /** The first 256 characters of the text are in the box of `to`, and its receiver gets a token. */
  ghost predicate Delivered(k: State, k': State, to: Tid, text: string) {
    && to < |k.threads|
    && var th := k.threads[to];
      var k1 := k.(threads := k.threads[to := th.(message := Some(if |text| <= 256 then text else text[..256]))]);
      Supplies(k1, k', th.semReceive, 1)
  }

  lemma SendBodyMeans(k: State, to: Tid, text: string)
    requires Busy(k) && to < |k.threads|
    ensures var (k', r) := SendBody(k, to, text);
      Delivered(k, k', to, text) && r == Value(0)
  {
    assert OwnsSems(k, to);
    var th := Th(k, to).(message := Some(if |text| <= 256 then text else text[..256]));
    FieldBusy(k, to, th);
    SignalMeans(SetTh(k, to, th), th.semReceive, 1);
  }

  lemma SendMeans(k: State, to: Tid, text: string) returns (k1: State, w: Option<int>)
    requires Busy(k) && CallOk(k, CallSend(to, text))
    ensures var (k', r) := Next(k, Sys(CallSend(to, text)));
      var s := k.threads[to].semSend;
      if to == k.running then r == Value(0) && k' == k
      else
        && Waits(k, k1, s, 1, Waiting(s, ForSend(to, text)), w)
        && if w.None? then k' == k1 && r == Suspended else Delivered(k1, k', to, text) && r == Value(0)
  {
    assert OwnsSems(k, to);
    var s := k.threads[to].semSend;
    WaitMeans(k, s, 1, ForSend(to, text));
    k1, w := Wait(k, s, 1, ForSend(to, text)).0, Wait(k, s, 1, ForSend(to, text)).1;
    if to != k.running && w.Some? {
      WaitBusy(k, s, 1, ForSend(to, text));
      SendBodyMeans(k1, to, text);
    }
  }

  /** The answer is the text in the caller's box, and the next sender gets a token. */
  ghost predicate Collected(k: State, k': State, r: Reply) {
    && k.running < |k.threads|
    && r == Text(k.threads[k.running].message)
    && Supplies(k, k', k.threads[k.running].semSend, 1)
  }

  lemma ReceiveBodyMeans(k: State)
    requires Busy(k)
    ensures var (k', r) := ReceiveBody(k);
      Collected(k, k', r)
  {
    RunningFree(k);
    assert OwnsSems(k, k.running);
    SignalMeans(k, Me(k).semSend, 1);
  }

  lemma ReceiveMeans(k: State) returns (k1: State, w: Option<int>)
    requires Busy(k)
    ensures var (k', r) := Next(k, Sys(CallReceive));
      var s := k.threads[k.running].semReceive;
      && Waits(k, k1, s, 1, Waiting(s, ForReceive), w)
      && if w.None? then k' == k1 && r == Suspended else Collected(k1, k', r)
  {
    RunningFree(k);
    assert OwnsSems(k, k.running);
    var s := k.threads[k.running].semReceive;
    WaitMeans(k, s, 1, ForReceive);
    k1, w := Wait(k, s, 1, ForReceive).0, Wait(k, s, 1, ForReceive).1;
    if w.Some? {
      WaitBusy(k, s, 1, ForReceive);
      ReceiveBodyMeans(k1);
    }
  }
}
