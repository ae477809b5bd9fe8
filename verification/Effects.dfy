/** What the semaphore and sleep operations do to the state, field by field: which threads they
    wake, which queues they touch, and what they leave alone. */
module Effects {
  import opened Entries
  import opened KernelTypes
  import opened SleepSpec
  import opened KernelSpec
  import opened PlaceInvariant

  ghost predicate Woken(a: Thread, b: Thread, m: Manner) {
    b == a.(blockedAt := None, sleeps := false, manner := m)
  }

  /** b is a queue from whose front some waiters were taken; need may have shrunk. */
  ghost predicate Suffix(a: seq<Entry>, b: seq<Entry>) {
    && |b| <= |a|
    && forall i :: 0 <= i < |b| ==> b[i].tid == a[i + |a| - |b|].tid && b[i].n <= a[i + |a| - |b|].n
  }

  /** Only waiters of s were woken, with manner m, from the front of its queue. */
  ghost predicate WakesAt(k: State, k': State, s: Sid, m: Manner) {
    && |k'.threads| == |k.threads| && |k'.sems| == |k.sems| && k'.bufs == k.bufs
    && k'.running == k.running && k'.sliceTicks == k.sliceTicks
    && k.ready <= k'.ready
    && (forall u: Tid :: u < |k.threads| ==>
          Th(k', u) == Th(k, u) || (Th(k, u).blockedAt == Some(s) && Woken(Th(k, u), Th(k', u), m)))
    && (forall x: Sid :: x != s ==> Sm(k', x) == Sm(k, x))
    && Sm(k', s) == Sm(k, s).(value := Sm(k', s).value, queue := Sm(k', s).queue, active := Sm(k', s).active)
    && Suffix(Sm(k, s).queue, Sm(k', s).queue)
    && OthersKept(k.sleepers, k'.sleepers, {})
  }

  /** The first waiter of s has left its queue and the sleep list, and is ready. */
  lemma GrantedWakes(k: State, k1: State, s: Sid, m: Manner)
    requires s < |k.sems| && Sm(k, s).queue != [] && |k1.sems| == |k.sems|
    requires var t := Sm(k, s).queue[0].tid;
      && t < |k.threads| && Th(k, t).blockedAt == Some(s)
      && k1.threads == k.threads[t := Th(k, t).(blockedAt := None, sleeps := false, manner := m)]
      && k1.ready == k.ready + [t]
    requires k1.running == k.running && k1.sliceTicks == k.sliceTicks && k1.bufs == k.bufs
    requires k1.sems == k.sems[s := k.sems[s].(queue := k.sems[s].queue[1..])]
    requires OthersKept(k.sleepers, k1.sleepers, {})
    ensures WakesAt(k, k1, s, m)
  {
  }

  lemma GrantHeadWakes(k: State, s: Sid, m: Manner, limbo: set<Tid>)
    requires Core(k, limbo) && s < |k.sems| && Sm(k, s).queue != []
    ensures WakesAt(k, GrantHead(k, s, m), s, m)
    ensures Sm(GrantHead(k, s, m), s).active == Sm(k, s).active
  {
    GrantHeadCore(k, s, m, limbo);
    var t := Sm(k, s).queue[0].tid;
    if Th(k, t).sleeps {
      assert Has(k.sleepers, t);
      RemoveKeepsOthers(k.sleepers, IndexOf(k.sleepers, t));
    }
    GrantedWakes(k, GrantHead(k, s, m), s, m);
  }

  lemma WakesTransitive(k: State, k1: State, k2: State, s: Sid, m: Manner)
    requires WakesAt(k, k1, s, m) && WakesAt(k1, k2, s, m)
    ensures WakesAt(k, k2, s, m)
  {
    forall u: Tid | u < |k.threads|
      ensures Th(k2, u) == Th(k, u) || (Th(k, u).blockedAt == Some(s) && Woken(Th(k, u), Th(k2, u), m))
    {
      assert Th(k1, u) == Th(k, u) || (Th(k, u).blockedAt == Some(s) && Woken(Th(k, u), Th(k1, u), m));
      assert Th(k2, u) == Th(k1, u) || (Th(k1, u).blockedAt == Some(s) && Woken(Th(k1, u), Th(k2, u), m));
    }
  }

  lemma SemWakes(k: State, s: Sid, x: Sem, m: Manner)
    requires s < |k.sems| && x.kind == Sm(k, s).kind && Suffix(Sm(k, s).queue, x.queue)
    ensures WakesAt(k, SetSm(k, s, x), s, m)
  {
  }

  lemma {:induction false} SignalLoopWakes(k: State, s: Sid, tokens: nat, limbo: set<Tid>) returns (r: State)
    requires Core(k, limbo) && s < |k.sems| && tokens < TWO64
    ensures r == SignalLoop(k, s, tokens) && WakesAt(k, r, s, Regular)
    ensures Sm(r, s).active == Sm(k, s).active
    decreases |Sm(k, s).queue|
  {
    var q := Sm(k, s).queue;
    r := SignalLoop(k, s, tokens);
    if q == [] || tokens == 0 {
      SemWakes(k, s, Sm(k, s).(value := Wrap(Sm(k, s).value + tokens)), Regular);
    } else if tokens >= q[0].n {
      GrantHeadCore(k, s, Regular, limbo);
      GrantHeadWakes(k, s, Regular, limbo);
      var k1 := GrantHead(k, s, Regular);
      r := SignalLoopWakes(k1, s, tokens - q[0].n, limbo);
      WakesTransitive(k, k1, r, s, Regular);
    } else {
      SemWakes(k, s, Sm(k, s).(queue := [Entry(q[0].tid, q[0].n - tokens)] + q[1..]), Regular);
    }
  }

  lemma SignalWakes(k: State, s: Sid, tokens: nat, limbo: set<Tid>)
    requires Core(k, limbo) && tokens < TWO64
    ensures WakesAt(k, Signal(k, s, tokens).0, s, Regular)
    ensures Sm(Signal(k, s, tokens).0, s).active == Sm(k, s).active
  {
    if Sm(k, s).active { var r := SignalLoopWakes(k, s, tokens, limbo); }
  }

  lemma {:induction false} ReleaseAllWakes(k: State, s: Sid, m: Manner, limbo: set<Tid>)
    requires Core(k, limbo) && s < |k.sems|
    ensures WakesAt(k, ReleaseAll(k, s, m), s, m)
    decreases |Sm(k, s).queue|
  {
    if Sm(k, s).queue != [] {
      GrantHeadCore(k, s, m, limbo);
      GrantHeadWakes(k, s, m, limbo);
      var k1 := GrantHead(k, s, m);
      ReleaseAllWakes(k1, s, m, limbo);
      WakesTransitive(k, k1, ReleaseAll(k1, s, m), s, m);
    }
  }

  lemma SignalAllWakes(k: State, s: Sid, tokens: nat, onClose: bool, limbo: set<Tid>)
    requires Core(k, limbo) && tokens < TWO64
    ensures WakesAt(k, SignalAll(k, s, tokens, onClose), s, if onClose then OnClose else Regular)
    ensures Sm(k, s).active ==> Sm(SignalAll(k, s, tokens, onClose), s).queue == []
    ensures Sm(k, s).active ==> Sm(SignalAll(k, s, tokens, onClose), s).value == tokens
    ensures Sm(SignalAll(k, s, tokens, onClose), s).active == Sm(k, s).active
  {
    if Sm(k, s).active {
      ReleaseAllWakes(k, s, if onClose then OnClose else Regular, limbo);
      SignalAllCore(k, s, tokens, onClose, limbo);
    }
  }

  lemma CloseWakes(k: State, s: Sid, limbo: set<Tid>)
    requires Core(k, limbo)
    ensures WakesAt(k, Close(k, s).0, s, OnClose)
    ensures !Sm(Close(k, s).0, s).active
    ensures Sm(k, s).active ==> Sm(Close(k, s).0, s).queue == []
  {
    if Sm(k, s).active {
      SignalAllWakes(k, s, 0, true, limbo);
    }
  }

  /** One token: either it reaches the value, or it completes the first waiter, or it is absorbed. */
  lemma SignalOne(k: State, s: Sid, limbo: set<Tid>)
    requires Core(k, limbo) && s < |k.sems| && Sm(k, s).active
    ensures var k' := Signal(k, s, 1).0;
      var q := Sm(k, s).queue;
      if q == [] then k' == WithValue(k, s, Wrap(Sm(k, s).value + 1))
      else if q[0].n == 1 then k' == GrantHead(k, s, Regular)
      else q[0].n >= 2 && k' == SetSm(k, s, Sm(k, s).(queue := [Entry(q[0].tid, q[0].n - 1)] + q[1..]))
  {
    var q := Sm(k, s).queue;
    assert QueueOk(k, s);
    if q != [] && q[0].n == 1 {
      GrantHeadCore(k, s, Regular, limbo);
      var k1 := GrantHead(k, s, Regular);
      assert QueueOk(k1, s);
      assert SignalLoop(k1, s, 0) == WithValue(k1, s, Wrap(Sm(k1, s).value + 0));
      assert Wrap(Sm(k1, s).value + 0) == Sm(k1, s).value;
    }
  }

  // ---- the timer

  /** Only sleepers were woken; one that also waited has given up. */
  ghost predicate WakesDue(k: State, k': State) {
    && |k'.threads| == |k.threads| && |k'.sems| == |k.sems| && k'.bufs == k.bufs
    && k'.running == k.running && k'.sliceTicks == k.sliceTicks
    && k.ready <= k'.ready
    && (forall u: Tid :: u < |k.threads| ==> Th(k', u) == Th(k, u) || Expired(Th(k, u), Th(k', u)))
    && (forall s: Sid :: Sm(k', s) == Sm(k, s).(queue := Sm(k', s).queue))
    && (forall s: Sid, i: nat :: i < |Sm(k', s).queue| ==> Sm(k', s).queue[i] in Sm(k, s).queue)
    && (forall s: Sid, a: Tid, b: Tid :: Before(Sm(k', s).queue, a, b) ==> Before(Sm(k, s).queue, a, b))
  }

  ghost predicate Expired(a: Thread, b: Thread) {
    && a.sleeps
    && Woken(a, b, if a.blockedAt.Some? then WaitTimeout else a.manner)
  }

  ghost function WithoutWaiter(x: Sem, t: Tid): Sem {
    if IndexOf(x.queue, t) < |x.queue| then x.(queue := DropAt(x.queue, IndexOf(x.queue, t))) else x
  }

  lemma WithoutWaiterBefore(x: Sem, t: Tid)
    ensures forall a: Tid, b: Tid :: Before(WithoutWaiter(x, t).queue, a, b) ==> Before(x.queue, a, b)
    ensures forall i: nat :: i < |WithoutWaiter(x, t).queue| ==> WithoutWaiter(x, t).queue[i] in x.queue
  {
    var q := WithoutWaiter(x, t).queue;
    forall a: Tid, b: Tid | Before(q, a, b)
      ensures Before(x.queue, a, b)
    {
      if q != x.queue { DropAtBefore(x.queue, IndexOf(x.queue, t), a, b); }
    }
  }

  /** Sleeper t has left the sleep list and the queue that it waited in, and is ready. */
  lemma ExpiredWakes(k: State, k1: State, t: Tid)
    requires t < |k.threads| && Th(k, t).sleeps
    requires k1.threads == k.threads[t := Th(k1, t)] && Expired(Th(k, t), Th(k1, t)) && k1.ready == k.ready + [t]
    requires k1.running == k.running && k1.sliceTicks == k.sliceTicks && k1.bufs == k.bufs
    requires match Th(k, t).blockedAt
      case None => k1.sems == k.sems
      case Some(s) => s < |k.sems| && k1.sems == k.sems[s := WithoutWaiter(k.sems[s], t)]
    ensures WakesDue(k, k1)
  {
    if Th(k, t).blockedAt.Some? { WithoutWaiterBefore(k.sems[Th(k, t).blockedAt.value], t); }
  }

  lemma ExpireHeadWakes(k: State, limbo: set<Tid>)
    requires Core(k, limbo) && k.sleepers != []
    ensures WakesDue(k, ExpireHead(k))
  {
    ExpireHeadCore(k, limbo);
    ExpiredWakes(k, ExpireHead(k), k.sleepers[0].tid);
  }

  lemma WakesDueThen(k: State, k1: State, k2: State)
    requires WakesDue(k, k1) && WakesDue(k1, k2)
    ensures WakesDue(k, k2)
  {
    forall u: Tid | u < |k.threads|
      ensures Th(k2, u) == Th(k, u) || Expired(Th(k, u), Th(k2, u))
    {
      assert Th(k1, u) == Th(k, u) || Expired(Th(k, u), Th(k1, u));
      assert Th(k2, u) == Th(k1, u) || Expired(Th(k1, u), Th(k2, u));
    }
  }

  lemma {:induction false} ExpireLoopWakes(k: State, limbo: set<Tid>)
    requires Core(k, limbo)
    ensures WakesDue(k, ExpireLoop(k))
    decreases |k.sleepers|
  {
    if k.sleepers != [] && k.sleepers[0].n == 0 {
      ExpireHeadCore(k, limbo);
      ExpireHeadWakes(k, limbo);
      ExpireLoopWakes(ExpireHead(k), limbo);
      WakesDueThen(k, ExpireHead(k), ExpireLoop(ExpireHead(k)));
    }
  }

  lemma DecrementCore(k: State, limbo: set<Tid>)
    requires Core(k, limbo) && NoneDue(k.sleepers)
    ensures Core(DeltasCounted(k), limbo)
  {
    var k' := DeltasCounted(k);
    TickRefines(k.sleepers, 0);
    assert forall t: Tid :: Has(k'.sleepers, t) <==> Has(k.sleepers, t);
    forall t | 0 <= t < |k.threads|
      ensures ThreadOk(k', t, limbo)
    {
      assert ThreadOk(k, t, limbo);
    }
    forall s | 0 <= s < |k.sems|
      ensures QueueOk(k', s)
    {
      assert QueueOk(k, s);
    }
  }

  lemma OnTickEffect(k: State, limbo: set<Tid>)
    requires Core(k, limbo) && NoneDue(k.sleepers)
    ensures Core(OnTick(k), limbo) && NoneDue(OnTick(k).sleepers)
    ensures WakesDue(k, OnTick(k))
  {
    DecrementCore(k, limbo);
    ExpireLoopCore(DeltasCounted(k), limbo);
    ExpireLoopWakes(DeltasCounted(k), limbo);
  }

  /** A queue in which nobody's wait is timed does not change. */
  lemma {:induction false} ExpireLoopLeaves(k: State, s: Sid, limbo: set<Tid>)
    requires Core(k, limbo)
    requires forall u: Tid :: u < |k.threads| && Th(k, u).sleeps ==> Th(k, u).blockedAt != Some(s)
    ensures Sm(ExpireLoop(k), s) == Sm(k, s)
    decreases |k.sleepers|
  {
    if k.sleepers != [] && k.sleepers[0].n == 0 {
      ExpireHeadCore(k, limbo);
      var t, k1 := k.sleepers[0].tid, ExpireHead(k);
      assert forall u: Tid :: u != t ==> Th(k1, u) == Th(k, u);
      ExpireLoopLeaves(k1, s, limbo);
    }
  }

  // ---- the calls that may suspend

  /** A wait changes the caller and semaphore s only, and in exactly one of three ways. */
  lemma WaitEffect(k: State, s: Sid, tokens: nat, why: Why)
    requires Steady(k) && k.running != IDLE
    ensures var (k', w) := Wait(k, s, tokens, why);
      var x := Sm(k, s);
      && k'.bufs == k.bufs && k'.sleepers == k.sleepers
      && (w == Some(ERR_SEM_DEAD) <==> !x.active)
      && (!x.active ==> k' == k)
      && (x.active && x.value >= tokens ==>
            && w == Some(0)
            && k' == k.(threads := k.threads[k.running := Me(k).(manner := Regular)],
                        sems := k.sems[s := x.(value := x.value - tokens)]))
      && (x.active && x.value < tokens ==>
            && w == None
            && k'.threads == k.threads[k.running := Me(k).(blockedAt := Some(s), cont := Waiting(s, why))]
            && k'.sems == k.sems[s := x.(value := 0, queue := x.queue + [Entry(k.running, tokens - x.value)])])
  {
    if Sm(k, s).active && Sm(k, s).value < tokens {
      AbsorbCore(k, s, tokens);
    }
  }

  lemma TimedWaitEffect(k: State, s: Sid, timeout: nat, tokens: nat, why: Why)
    requires Steady(k) && k.running != IDLE
    ensures var (k', w) := TimedWait(k, s, timeout, tokens, why);
      var x := Sm(k, s);
      && k'.bufs == k.bufs
      && (!x.active ==> k' == k && w == Some(ERR_SEM_DEAD))
      && (x.active && x.value >= tokens ==>
            && w == Some(0)
            && k' == k.(threads := k.threads[k.running := Me(k).(manner := Regular)],
                        sems := k.sems[s := x.(value := x.value - tokens)]))
      && (x.active && x.value < tokens && timeout == 0 ==>
            && w == Some(TIMEOUT)
            && k' == k.(threads := k.threads[k.running := Me(k).(manner := WaitTimeout)],
                        sems := k.sems[s := x.(value := 0)]))
      && (x.active && x.value < tokens && timeout > 0 ==>
            && w == None
            && k'.threads == k.threads[k.running := Me(k).(blockedAt := Some(s), sleeps := true,
                                                           cont := Waiting(s, why))]
            && k'.sems == k.sems[s := x.(value := 0, queue := x.queue + [Entry(k.running, tokens - x.value)])]
            && k'.sleepers == Insert(k.sleepers, k.running, timeout))
  {
    if Sm(k, s).active && Sm(k, s).value < tokens {
      AbsorbCore(k, s, tokens);
      if timeout == 0 { GiveUpCore(k, s, tokens); }
    }
  }

  /** b is a but for what a wait writes. */
  ghost predicate Waited(a: Thread, b: Thread) {
    b == a.(manner := b.manner, blockedAt := b.blockedAt, sleeps := b.sleeps, cont := b.cont)
  }

  /** A wait of the running thread at s touches its own record and that semaphore only. */
  ghost predicate Moved(k: State, k': State, s: Sid, why: Why) {
    && k.running < |k.threads| && s < |k.sems| && k'.bufs == k.bufs
    && k'.threads == k.threads[k.running := Th(k', k.running)] && Waited(Me(k), Th(k', k.running))
    && k'.sems == k.sems[s := Sm(k', s)]
    && Sm(k', s) == Sm(k, s).(value := Sm(k', s).value, queue := Sm(k', s).queue)
    && (Th(k', k.running).cont == Me(k).cont || Th(k', k.running).cont == Waiting(s, why))
  }

  lemma WaitMoves(k: State, s: Sid, tokens: nat, why: Why)
    requires Steady(k) && k.running != IDLE && s < |k.sems|
    ensures Moved(k, Wait(k, s, tokens, why).0, s, why)
  {
    WaitEffect(k, s, tokens, why);
    assert ThreadOk(k, k.running, {k.running});
  }

  lemma TimedWaitMoves(k: State, s: Sid, timeout: nat, tokens: nat, why: Why)
    requires Steady(k) && k.running != IDLE && s < |k.sems|
    ensures Moved(k, TimedWait(k, s, timeout, tokens, why).0, s, why)
  {
    TimedWaitEffect(k, s, timeout, tokens, why);
    assert ThreadOk(k, k.running, {k.running});
  }

  lemma SleepEffect(k: State, timeout: nat)
    requires Steady(k)
    ensures var (k', w) := Sleep(k, timeout, Sleeping);
      && k'.bufs == k.bufs && k'.sems == k.sems
      && (timeout == 0 ==> k' == k && w == Some(ERR_SLEEP_ZERO))
      && (timeout > 0 ==>
            && w == None
            && k'.threads == k.threads[k.running := Me(k).(sleeps := true, cont := Sleeping)]
            && k'.sleepers == Insert(k.sleepers, k.running, timeout))
  {
    assert ThreadOk(k, k.running, {k.running});
  }

  lemma CreateEffect(k: State, slice: nat)
    requires k.running < |k.threads|
    ensures var k' := Create(k, slice);
      var n, m := |k.threads|, |k.sems|;
      && |k'.threads| == n + 1 && |k'.sems| == m + 4
      && k'.bufs == k.bufs && k'.sleepers == k.sleepers && k'.running == k.running && k'.sliceTicks == k.sliceTicks
      && k'.ready == (if n == IDLE then k.ready else k.ready + [n])
      && Th(k', n) == NewThread(Some(k.running), slice, m)
      && Me(k') == Me(k).(children := Me(k).children + 1)
      && (forall u: Tid :: u < n && u != k.running ==> Th(k', u) == Th(k, u))
      && (forall s: Sid :: s < m ==> Sm(k', s) == Sm(k, s))
      && Sm(k', m) == Sem(JoinOf(n), true, 0, []) && Sm(k', m + 1) == Sem(JoinAllOf(n), true, 0, [])
      && Sm(k', m + 2) == Sem(SendOf(n), true, 1, []) && Sm(k', m + 3) == Sem(ReceiveOf(n), true, 0, [])
      && k'.threads == (k.threads + [Th(k', n)])[k.running := Me(k')]
  {
  }
}
