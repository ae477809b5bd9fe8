/** Where every thread is: running, once in the ready queue, or suspended in at most one semaphore
    queue and/or once in the sleep list.  `limbo` holds the threads that a step has picked up and
    not yet put down again; between steps it is the running thread alone. */
module PlaceInvariant {
  import opened Entries
  import opened KernelTypes
  import opened SleepSpec
  import opened KernelSpec

  /** Nobody in the sleep list is due: true whenever a step has ended. */
  ghost predicate NoneDue(l: seq<Entry>) {
    l != [] ==> l[0].n > 0
  }

  ghost predicate NoDup(l: seq<Tid>) {
    forall i, j :: 0 <= i < j < |l| ==> l[i] != l[j]
  }

  /** A thread that may stand in the ready queue. */
  ghost predicate Runnable(k: State, t: Tid) {
    && t < |k.threads| && t != IDLE
    && !Th(k, t).finished && !Th(k, t).sleeps && Th(k, t).blockedAt.None?
  }

  ghost predicate ReadyOk(k: State, limbo: set<Tid>) {
    && NoDup(k.ready)
    && forall t :: t in k.ready ==> Runnable(k, t) && t !in limbo
  }

  ghost predicate SleepersOk(k: State) {
    && Distinct(k.sleepers)
    && Total(k.sleepers) < TWO64
    && forall t: Tid :: Has(k.sleepers, t) <==> t < |k.threads| && Th(k, t).sleeps
  }

  ghost predicate QueueOk(k: State, s: Sid) {
    var x := Sm(k, s);
    && Distinct(x.queue)
    && (forall t: Tid :: Has(x.queue, t) <==> t < |k.threads| && Th(k, t).blockedAt == Some(s))
    && (x.queue != [] ==> x.active && x.value == 0)
    && (forall i :: 0 <= i < |x.queue| ==> x.queue[i].n >= 1)
    && x.value < TWO64
  }

  ghost predicate ThreadOk(k: State, t: Tid, limbo: set<Tid>) {
    var th := Th(k, t);
    && (th.blockedAt.Some? ==> th.blockedAt.value < |k.sems|)
    && (th.finished || t == IDLE || t in limbo ==> !th.sleeps && th.blockedAt.None?)
    && (!th.finished && t != IDLE && t !in limbo ==> t in k.ready || th.sleeps || th.blockedAt.Some?)
  }

  ghost predicate Core(k: State, limbo: set<Tid>) {
    && IDLE < |k.threads|
    && !Th(k, IDLE).finished
    && k.running < |k.threads|
    && ReadyOk(k, limbo)
    && SleepersOk(k)
    && (forall s :: 0 <= s < |k.sems| ==> QueueOk(k, s))
    && (forall t :: 0 <= t < |k.threads| ==> ThreadOk(k, t, limbo))
  }

  // ---- the list operations

  lemma SchedPutCore(k: State, t: Tid, limbo: set<Tid>)
    requires Core(k, limbo) && t in limbo && t < |k.threads| && !Th(k, t).finished
    ensures Core(SchedPut(k, t), limbo - {t})
  {
    var k' := SchedPut(k, t);
    assert ThreadOk(k, t, limbo);
    forall u | 0 <= u < |k.threads|
      ensures ThreadOk(k', u, limbo - {t})
    {
      assert ThreadOk(k, u, limbo);
    }
    forall s | 0 <= s < |k.sems|
      ensures QueueOk(k', s)
    {
      assert QueueOk(k, s);
    }
  }

  lemma SemPutCore(k: State, s: Sid, t: Tid, tokens: nat, limbo: set<Tid>)
    requires Core(k, limbo) && t in limbo && t < |k.threads| && t != IDLE && !Th(k, t).finished
    requires s < |k.sems| && Sm(k, s).active && Sm(k, s).value == 0 && tokens >= 1
    ensures Core(SemPut(k, s, t, tokens), limbo - {t})
  {
    var k' := SemPut(k, s, t, tokens);
    assert ThreadOk(k, t, limbo);
    assert forall u: Tid :: u != t ==> Th(k', u) == Th(k, u);
    forall u | 0 <= u < |k.threads|
      ensures ThreadOk(k', u, limbo - {t})
    {
      assert ThreadOk(k, u, limbo);
    }
    assert QueueOk(k, s);
    AppendHas(Sm(k, s).queue, Entry(t, tokens));
    forall s' | 0 <= s' < |k.sems|
      ensures QueueOk(k', s')
    {
      assert QueueOk(k, s');
    }
  }

  /** Off a semaphore queue: in limbo, unless the thread still sleeps. */
  lemma UnlinkCore(k: State, s: Sid, i: nat, limbo: set<Tid>)
    requires Core(k, limbo) && s < |k.sems| && i < |Sm(k, s).queue|
    ensures var t := Sm(k, s).queue[i].tid;
      && t < |k.threads| && Th(k, t).blockedAt == Some(s) && t !in limbo && !Th(k, t).finished
      && t != IDLE && t !in k.ready
      && Core(Unlink(k, s, i), if Th(k, t).sleeps then limbo else limbo + {t})
  {
    var t := Sm(k, s).queue[i].tid;
    assert QueueOk(k, s);
    assert Has(Sm(k, s).queue, t);
    assert ThreadOk(k, t, limbo);
    var k' := Unlink(k, s, i);
    var limbo' := if Th(k, t).sleeps then limbo else limbo + {t};
    assert forall u: Tid :: u != t ==> Th(k', u) == Th(k, u);
    DropAtHas(Sm(k, s).queue, i);
    forall u | 0 <= u < |k.threads|
      ensures ThreadOk(k', u, limbo')
    {
      assert ThreadOk(k, u, limbo);
    }
    forall s' | 0 <= s' < |k.sems|
      ensures QueueOk(k', s')
    {
      assert QueueOk(k, s');
    }
  }

  lemma SleepPutCore(k: State, t: Tid, timeout: nat, limbo: set<Tid>)
    requires Core(k, limbo) && t < |k.threads| && t != IDLE && !Th(k, t).finished
    requires t in limbo || Th(k, t).blockedAt.Some?
    requires !Th(k, t).sleeps && timeout < TWO64
    ensures Core(SleepPut(k, t, timeout), limbo - {t})
  {
    var k' := SleepPut(k, t, timeout);
    assert ThreadOk(k, t, limbo);
    assert forall u: Tid :: u != t ==> Th(k', u) == Th(k, u);
    InsertHas(k.sleepers, t, timeout);
    InsertTotal(k.sleepers, t, timeout);
    forall u | 0 <= u < |k.threads|
      ensures ThreadOk(k', u, limbo - {t})
    {
      assert ThreadOk(k, u, limbo);
    }
    forall s | 0 <= s < |k.sems|
      ensures QueueOk(k', s)
    {
      assert QueueOk(k, s);
    }
  }

  /** Off the sleep list: in limbo, unless the thread still waits at a semaphore. */
  lemma SleepUnlinkCore(k: State, i: nat, limbo: set<Tid>)
    requires Core(k, limbo) && i < |k.sleepers|
    ensures var t := k.sleepers[i].tid;
      && t < |k.threads| && Th(k, t).sleeps && t !in limbo && !Th(k, t).finished
      && t != IDLE && t !in k.ready
      && Core(SleepUnlink(k, i), if Th(k, t).blockedAt.Some? then limbo else limbo + {t})
  {
    var t := k.sleepers[i].tid;
    assert Has(k.sleepers, t);
    assert ThreadOk(k, t, limbo);
    var k' := SleepUnlink(k, i);
    var limbo' := if Th(k, t).blockedAt.Some? then limbo else limbo + {t};
    assert forall u: Tid :: u != t ==> Th(k', u) == Th(k, u);
    RemoveHas(k.sleepers, i);
    RemoveTotal(k.sleepers, i);
    forall u | 0 <= u < |k.threads|
      ensures ThreadOk(k', u, limbo')
    {
      assert ThreadOk(k, u, limbo);
    }
    forall s | 0 <= s < |k.sems|
      ensures QueueOk(k', s)
    {
      assert QueueOk(k, s);
    }
  }

  /** Changes to fields that say nothing about the place keep Core. */
  lemma FieldCore(k: State, t: Tid, th: Thread, limbo: set<Tid>)
    requires Core(k, limbo) && t < |k.threads|
    requires th.finished == Th(k, t).finished && th.sleeps == Th(k, t).sleeps && th.blockedAt == Th(k, t).blockedAt
    ensures Core(SetTh(k, t, th), limbo)
  {
    var k' := SetTh(k, t, th);
    assert forall u: Tid :: u != t ==> Th(k', u) == Th(k, u);
    forall u | 0 <= u < |k.threads|
      ensures ThreadOk(k', u, limbo)
    {
      assert ThreadOk(k, u, limbo);
    }
    forall s | 0 <= s < |k.sems|
      ensures QueueOk(k', s)
    {
      assert QueueOk(k, s);
    }
  }

  /** A new value is allowed while nobody waits. */
  lemma SemCore(k: State, s: Sid, x: Sem, limbo: set<Tid>)
    requires Core(k, limbo) && s < |k.sems|
    requires |x.queue| == |Sm(k, s).queue| && x.value < TWO64
    requires forall i :: 0 <= i < |x.queue| ==> x.queue[i].tid == Sm(k, s).queue[i].tid && x.queue[i].n >= 1
    requires x.queue == [] || (x.active && x.value == 0)
    ensures Core(SetSm(k, s, x), limbo)
  {
    var k' := SetSm(k, s, x);
    assert QueueOk(k, s);
    assert forall t: Tid :: Has(x.queue, t) <==> Has(Sm(k, s).queue, t);
    forall s' | 0 <= s' < |k.sems|
      ensures QueueOk(k', s')
    {
      assert QueueOk(k, s');
    }
    forall u | 0 <= u < |k.threads|
      ensures ThreadOk(k', u, limbo)
    {
      assert ThreadOk(k, u, limbo);
    }
  }

  // ---- waking

  lemma RemoveNoneDue(l: seq<Entry>, i: nat)
    requires i < |l| && NoneDue(l) && Total(l) < TWO64
    ensures NoneDue(Remove(l, i))
  {
    RemoveTotal(l, i);
  }

  lemma SleepGetCore(k: State, t: Tid, limbo: set<Tid>)
    requires Core(k, limbo) && t < |k.threads| && Th(k, t).sleeps
    ensures var i := IndexOf(k.sleepers, t);
      i < |k.sleepers| && k.sleepers[i].tid == t && SleepGet(k, t) == SleepUnlink(k, i)
    ensures Core(SleepGet(k, t), if Th(k, t).blockedAt.Some? then limbo else limbo + {t})
  {
    assert Has(k.sleepers, t);
    SleepUnlinkCore(k, IndexOf(k.sleepers, t), limbo);
  }

  lemma SemGetCore(k: State, s: Sid, t: Tid, limbo: set<Tid>)
    requires Core(k, limbo) && t < |k.threads| && Th(k, t).blockedAt == Some(s)
    ensures s < |k.sems|
    ensures var i := IndexOf(Sm(k, s).queue, t);
      i < |Sm(k, s).queue| && Sm(k, s).queue[i].tid == t && SemGet(k, s, t) == Unlink(k, s, i)
    ensures Core(SemGet(k, s, t), if Th(k, t).sleeps then limbo else limbo + {t})
  {
    assert ThreadOk(k, t, limbo);
    assert QueueOk(k, s);
    assert Has(Sm(k, s).queue, t);
    UnlinkCore(k, s, IndexOf(Sm(k, s).queue, t), limbo);
  }

  /** GrantHead up to the point where the thread is in no list. */
  lemma DetachCore(k: State, s: Sid, limbo: set<Tid>)
    requires Core(k, limbo) && s < |k.sems| && Sm(k, s).queue != []
    ensures var t := Sm(k, s).queue[0].tid;
      var k1 := Unlink(k, s, 0);
      var k2 := if Th(k1, t).sleeps then SleepGet(k1, t) else k1;
      && t < |k.threads| && Th(k, t).blockedAt == Some(s) && t !in limbo && !Th(k, t).finished && t != IDLE
      && k2.threads == k.threads[t := Th(k, t).(blockedAt := None, sleeps := false)]
      && k2.sems == k.sems[s := Sm(k, s).(queue := Sm(k, s).queue[1..])]
      && k2.ready == k.ready && k2.running == k.running && k2.sliceTicks == k.sliceTicks && k2.bufs == k.bufs
      && k2.sleepers == (if Th(k, t).sleeps then Remove(k.sleepers, IndexOf(k.sleepers, t)) else k.sleepers)
      && (NoneDue(k.sleepers) ==> NoneDue(k2.sleepers))
      && Core(k2, limbo + {t})
  {
    var t := Sm(k, s).queue[0].tid;
    UnlinkCore(k, s, 0, limbo);
    assert DropAt(Sm(k, s).queue, 0) == Sm(k, s).queue[1..];
    var k1 := Unlink(k, s, 0);
    assert Th(k1, t) == Th(k, t).(blockedAt := None);
    if Th(k, t).sleeps {
      SleepGetCore(k1, t, limbo);
      if NoneDue(k.sleepers) { RemoveNoneDue(k.sleepers, IndexOf(k.sleepers, t)); }
    }
  }

  /** A thread that is in no list is marked and made ready. */
  lemma ReadyAgainCore(k: State, t: Tid, m: Manner, limbo: set<Tid>)
    requires Core(k, limbo + {t}) && t < |k.threads| && t !in limbo && !Th(k, t).finished && t != IDLE
    ensures var k' := SchedPut(WithManner(k, t, m), t);
      Core(k', limbo) && k' == k.(threads := k.threads[t := Th(k, t).(manner := m)], ready := k.ready + [t])
  {
    FieldCore(k, t, Th(k, t).(manner := m), limbo + {t});
    SchedPutCore(WithManner(k, t, m), t, limbo + {t});
    assert limbo + {t} - {t} == limbo;
  }

  /** What the release of a first waiter does, field by field. */
  lemma GrantHeadCore(k: State, s: Sid, m: Manner, limbo: set<Tid>)
    requires Core(k, limbo) && s < |k.sems| && Sm(k, s).queue != []
    ensures var t := Sm(k, s).queue[0].tid;
      var k' := GrantHead(k, s, m);
      && t < |k.threads| && Th(k, t).blockedAt == Some(s) && t !in limbo && !Th(k, t).finished && t != IDLE
      && k'.threads == k.threads[t := Th(k, t).(blockedAt := None, sleeps := false, manner := m)]
      && k'.ready == k.ready + [t]
      && k'.running == k.running && k'.sliceTicks == k.sliceTicks && k'.bufs == k.bufs
      && Sm(k', s) == Sm(k, s).(queue := Sm(k, s).queue[1..])
      && k'.sleepers == (if Th(k, t).sleeps then Remove(k.sleepers, IndexOf(k.sleepers, t)) else k.sleepers)
      && (NoneDue(k.sleepers) ==> NoneDue(k'.sleepers))
      && Core(k', limbo)
  {
    var t := Sm(k, s).queue[0].tid;
    DetachCore(k, s, limbo);
    var k1 := Unlink(k, s, 0);
    var k2 := if Th(k1, t).sleeps then SleepGet(k1, t) else k1;
    ReadyAgainCore(k2, t, m, limbo);
  }

  /** What the expiry of the first sleeper does, field by field. */
  lemma ExpireHeadCore(k: State, limbo: set<Tid>)
    requires Core(k, limbo) && k.sleepers != []
    ensures var t := k.sleepers[0].tid;
      var k' := ExpireHead(k);
      var th := Th(k, t);
      && t < |k.threads| && th.sleeps && t !in limbo && !th.finished && t != IDLE
      && k'.threads == k.threads[t := th.(blockedAt := None, sleeps := false,
           manner := if th.blockedAt.Some? then WaitTimeout else th.manner)]
      && k'.ready == k.ready + [t]
      && k'.running == k.running && k'.sliceTicks == k.sliceTicks && k'.bufs == k.bufs
      && k'.sleepers == Remove(k.sleepers, 0)
      && k'.sems == (match th.blockedAt
           case None => k.sems
           case Some(s) => if s < |k.sems| && IndexOf(Sm(k, s).queue, t) < |Sm(k, s).queue|
             then k.sems[s := Sm(k, s).(queue := DropAt(Sm(k, s).queue, IndexOf(Sm(k, s).queue, t)))]
             else k.sems)
      && (th.blockedAt.Some? ==> th.blockedAt.value < |k.sems| && Has(Sm(k, th.blockedAt.value).queue, t))
      && Core(k', limbo)
  {
    var t := k.sleepers[0].tid;
    var th := Th(k, t);
    SleepUnlinkCore(k, 0, limbo);
    var k1 := SleepUnlink(k, 0);
    assert Th(k1, t) == th.(sleeps := false);
    if th.blockedAt.Some? {
      var s := th.blockedAt.value;
      SemGetCore(k1, s, t, limbo);
      var g := SemGet(k1, s, t);
      FieldCore(g, t, Th(g, t).(manner := WaitTimeout), limbo + {t});
      SchedPutCore(WithManner(g, t, WaitTimeout), t, limbo + {t});
    } else {
      SchedPutCore(k1, t, limbo + {t});
    }
    assert limbo + {t} - {t} == limbo;
  }

  lemma SignalCore(k: State, s: Sid, tokens: nat, limbo: set<Tid>)
    requires Core(k, limbo) && tokens < TWO64
    ensures Core(Signal(k, s, tokens).0, limbo)
    ensures NoneDue(k.sleepers) ==> NoneDue(Signal(k, s, tokens).0.sleepers)
  {
    if Sm(k, s).active { var r := SignalLoopCore(k, s, tokens, limbo); }
  }

  lemma {:induction false} SignalLoopCore(k: State, s: Sid, tokens: nat, limbo: set<Tid>) returns (r: State)
    requires Core(k, limbo) && s < |k.sems| && tokens < TWO64
    ensures r == SignalLoop(k, s, tokens) && Core(r, limbo)
    ensures NoneDue(k.sleepers) ==> NoneDue(r.sleepers)
    decreases |Sm(k, s).queue|
  {
    var q := Sm(k, s).queue;
    assert QueueOk(k, s);
    r := SignalLoop(k, s, tokens);
    if q == [] || tokens == 0 {
      SemCore(k, s, Sm(k, s).(value := Wrap(Sm(k, s).value + tokens)), limbo);
    } else if tokens >= q[0].n {
      GrantHeadCore(k, s, Regular, limbo);
      r := SignalLoopCore(GrantHead(k, s, Regular), s, tokens - q[0].n, limbo);
    } else {
      SemCore(k, s, Sm(k, s).(queue := [Entry(q[0].tid, q[0].n - tokens)] + q[1..]), limbo);
    }
  }

  lemma {:induction false} ReleaseAllCore(k: State, s: Sid, m: Manner, limbo: set<Tid>)
    requires Core(k, limbo) && s < |k.sems|
    ensures Core(ReleaseAll(k, s, m), limbo)
    ensures NoneDue(k.sleepers) ==> NoneDue(ReleaseAll(k, s, m).sleepers)
    ensures Sm(ReleaseAll(k, s, m), s) == Sm(k, s).(queue := [])
    decreases |Sm(k, s).queue|
  {
    if Sm(k, s).queue != [] {
      GrantHeadCore(k, s, m, limbo);
      ReleaseAllCore(GrantHead(k, s, m), s, m, limbo);
    }
  }

  lemma SignalAllCore(k: State, s: Sid, tokens: nat, onClose: bool, limbo: set<Tid>)
    requires Core(k, limbo) && tokens < TWO64
    ensures Core(SignalAll(k, s, tokens, onClose), limbo)
    ensures NoneDue(k.sleepers) ==> NoneDue(SignalAll(k, s, tokens, onClose).sleepers)
    ensures Sm(k, s).active ==> Sm(SignalAll(k, s, tokens, onClose), s) == Sm(k, s).(queue := [], value := tokens)
  {
    if Sm(k, s).active {
      var m := if onClose then OnClose else Regular;
      ReleaseAllCore(k, s, m, limbo);
      var k1 := ReleaseAll(k, s, m);
      SemCore(k1, s, Sm(k1, s).(value := tokens), limbo);
    }
  }

  lemma CloseCore(k: State, s: Sid, limbo: set<Tid>)
    requires Core(k, limbo)
    ensures Core(Close(k, s).0, limbo)
    ensures NoneDue(k.sleepers) ==> NoneDue(Close(k, s).0.sleepers)
    ensures Sm(k, s).active ==> Sm(Close(k, s).0, s) == Sm(k, s).(queue := [], value := 0, active := false)
  {
    if Sm(k, s).active {
      SignalAllCore(k, s, 0, true, limbo);
      var k1 := SignalAll(k, s, 0, true);
      SemCore(k1, s, Sm(k1, s).(active := false), limbo);
    }
  }

  lemma {:induction false} ExpireLoopCore(k: State, limbo: set<Tid>)
    requires Core(k, limbo)
    ensures Core(ExpireLoop(k), limbo) && NoneDue(ExpireLoop(k).sleepers)
    decreases |k.sleepers|
  {
    if k.sleepers != [] && k.sleepers[0].n == 0 {
      ExpireHeadCore(k, limbo);
      ExpireLoopCore(ExpireHead(k), limbo);
    }
  }

  // ---- composite operations of the running thread

  /** Between two steps: the running thread alone is in no list. */
  ghost predicate Steady(k: State) {
    && Core(k, {k.running})
    && !Me(k).finished
    && NoneDue(k.sleepers)
  }

  lemma SchedGetCore(k: State)
    requires Core(k, {})
    ensures var k' := SchedGet(k);
      Core(k', {k'.running}) && !Me(k').finished && k'.threads == k.threads && k'.sems == k.sems
  {
    var k' := SchedGet(k);
    if k.ready != [] {
      assert k.ready[0] in k.ready;
      assert Runnable(k, k.ready[0]);
      assert k.ready == [k.ready[0]] + k'.ready;
      forall t | t in k'.ready
        ensures Runnable(k', t) && t != k'.running
      {
        var i :| 0 <= i < |k'.ready| && k'.ready[i] == t;
        assert k.ready[i + 1] == t && Runnable(k, t);
      }
    }
    assert ThreadOk(k, IDLE, {});
    forall t | 0 <= t < |k.threads|
      ensures ThreadOk(k', t, {k'.running})
    {
      assert ThreadOk(k, t, {});
    }
    forall s | 0 <= s < |k.sems|
      ensures QueueOk(k', s)
    {
      assert QueueOk(k, s);
    }
  }

  /** The running thread was put down: suspended or finished. */
  lemma YieldAway(k: State)
    requires Core(k, {}) && NoneDue(k.sleepers) && (k.running != IDLE)
    ensures Steady(Yield(k, false))
  {
    SchedGetCore(k);
    StableTicks(SchedGet(k), 0);
  }

  lemma YieldBack(k: State)
    requires Steady(k)
    ensures Steady(Yield(k, true))
  {
    assert ThreadOk(k, k.running, {k.running});
    SchedPutCore(k, k.running, {k.running});
    assert {k.running} - {k.running} == {};
    SchedGetCore(SchedPut(k, k.running));
    StableTicks(SchedGet(SchedPut(k, k.running)), 0);
  }

  lemma StableTicks(k: State, n: nat)
    requires Core(k, {k.running})
    ensures Core(k.(sliceTicks := n), {k.running})
  {
    OtherFields(k, k.(sliceTicks := n), {k.running});
  }

  /** Core speaks of threads, sems, ready, sleepers and the range of running only. */
  lemma OtherFields(k: State, k': State, limbo: set<Tid>)
    requires Core(k, limbo) && k'.running < |k.threads|
    requires k'.threads == k.threads && k'.sems == k.sems && k'.ready == k.ready && k'.sleepers == k.sleepers
    ensures Core(k', limbo)
  {
    forall t | 0 <= t < |k.threads|
      ensures ThreadOk(k', t, limbo)
    {
      assert ThreadOk(k, t, limbo);
    }
    forall s | 0 <= s < |k.sems|
      ensures QueueOk(k', s)
    {
      assert QueueOk(k, s);
    }
  }

  lemma TakeCore(k: State, s: Sid, tokens: nat)
    requires Steady(k) && Sm(k, s).active && Sm(k, s).value >= tokens
    ensures Steady(Take(k, s, tokens))
  {
    assert QueueOk(k, s);
    SemCore(k, s, Sm(k, s).(value := Sm(k, s).value - tokens), {k.running});
    var k1 := WithValue(k, s, Sm(k, s).value - tokens);
    FieldCore(k1, k1.running, Me(k1).(manner := Regular), {k.running});
  }

  /** The caller is queued with what is missing, at least one token, and its own place is given up. */
  lemma AbsorbCore(k: State, s: Sid, tokens: nat)
    requires Steady(k) && k.running != IDLE && Sm(k, s).active && Sm(k, s).value < tokens
    ensures var k' := Absorb(k, s, tokens);
      && Core(k', {})
      && k'.threads == k.threads[k.running := Me(k).(blockedAt := Some(s))]
      && k'.sems == k.sems[s := Sm(k, s).(value := 0,
                            queue := Sm(k, s).queue + [Entry(k.running, tokens - Sm(k, s).value)])]
      && k'.ready == k.ready && k'.sleepers == k.sleepers && k'.bufs == k.bufs
      && k'.running == k.running && k'.sliceTicks == k.sliceTicks
  {
    assert QueueOk(k, s);
    SemCore(k, s, Sm(k, s).(value := 0), {k.running});
    var k1 := WithValue(k, s, 0);
    SemPutCore(k1, s, k.running, tokens - Sm(k, s).value, {k.running});
    assert {k.running} - {k.running} == {};
  }

  lemma SuspendCore(k: State, c: Cont)
    requires Core(k, {}) && k.running != IDLE && NoneDue(k.sleepers)
    ensures Steady(Suspend(k, c))
  {
    FieldCore(k, k.running, Me(k).(cont := c), {});
    YieldAway(WithCont(k, c));
  }

  lemma WaitCore(k: State, s: Sid, tokens: nat, why: Why)
    requires Steady(k) && k.running != IDLE
    ensures Steady(Wait(k, s, tokens, why).0)
  {
    if Sm(k, s).active {
      if Sm(k, s).value >= tokens {
        TakeCore(k, s, tokens);
      } else {
        AbsorbCore(k, s, tokens);
        SuspendCore(Absorb(k, s, tokens), Waiting(s, why));
      }
    }
  }

  lemma TryWaitCore(k: State, s: Sid, tokens: nat)
    requires Steady(k)
    ensures Steady(TryWait(k, s, tokens).0)
  {
    if Sm(k, s).active {
      if Sm(k, s).value >= tokens {
        TakeCore(k, s, tokens);
      } else {
        FieldCore(k, k.running, Me(k).(manner := Regular), {k.running});
      }
    }
  }

  /** A timed wait that fails at once leaves the caller running and its queue as it was; the value
      it absorbed is gone. */
  lemma GiveUpCore(k: State, s: Sid, tokens: nat)
    requires Steady(k) && k.running != IDLE && Sm(k, s).active && Sm(k, s).value < tokens
    ensures var k' := SleepZero(Absorb(k, s, tokens));
      && Steady(k')
      && k'.threads == k.threads[k.running := Me(k).(manner := WaitTimeout)]
      && k'.sems == k.sems[s := Sm(k, s).(value := 0)]
      && k'.ready == k.ready && k'.sleepers == k.sleepers && k'.bufs == k.bufs
      && k'.running == k.running && k'.sliceTicks == k.sliceTicks
  {
    AbsorbCore(k, s, tokens);
    var a := Absorb(k, s, tokens);
    var me := k.running;
    assert ThreadOk(k, me, {me});
    SemGetCore(a, s, me, {});
    var g := SemGet(a, s, me);
    assert {} + {me} == {me};
    FieldCore(g, me, Th(g, me).(manner := WaitTimeout), {me});
    var i, q := IndexOf(Sm(a, s).queue, me), Sm(a, s).queue;
    assert QueueOk(a, s);
    assert q[|q| - 1].tid == me;
    assert i == |q| - 1;
    assert DropAt(q, i) == Sm(k, s).queue;
  }

  /** Sleeping while queued at a semaphore (limbo is empty) or alone (the caller is in limbo). */
  lemma SleepCore(k: State, timeout: nat, c: Cont, limbo: set<Tid>)
    requires Core(k, limbo) && NoneDue(k.sleepers)
    requires if limbo == {} then Me(k).blockedAt.Some? else limbo == {k.running}
    requires k.running != IDLE && !Me(k).finished && !Me(k).sleeps && 0 < timeout < TWO64
    ensures Steady(Sleep(k, timeout, c).0)
  {
    SleepPutCore(k, k.running, timeout, limbo);
    assert limbo - {k.running} == {};
    SuspendCore(SleepPut(k, k.running, timeout), c);
  }

  lemma TimedWaitCore(k: State, s: Sid, timeout: nat, tokens: nat, why: Why)
    requires Steady(k) && k.running != IDLE && timeout < TWO64
    ensures Steady(TimedWait(k, s, timeout, tokens, why).0)
  {
    if Sm(k, s).active {
      if Sm(k, s).value >= tokens {
        TakeCore(k, s, tokens);
      } else if timeout == 0 {
        GiveUpCore(k, s, tokens);
      } else {
        assert ThreadOk(k, k.running, {k.running});
        AbsorbCore(k, s, tokens);
        SleepCore(Absorb(k, s, tokens), timeout, Waiting(s, why), {});
      }
    }
  }

  lemma NewSemsCore(k: State, xs: seq<Sem>, limbo: set<Tid>)
    requires Core(k, limbo)
    requires forall i :: 0 <= i < |xs| ==> xs[i].queue == [] && xs[i].value < TWO64
    ensures Core(k.(sems := k.sems + xs), limbo)
  {
    var k' := k.(sems := k.sems + xs);
    forall t | 0 <= t < |k.threads|
      ensures ThreadOk(k', t, limbo)
    {
      assert ThreadOk(k, t, limbo);
    }
    forall s | 0 <= s < |k'.sems|
      ensures QueueOk(k', s)
    {
      if s < |k.sems| {
        assert QueueOk(k, s);
      } else {
        assert Sm(k', s) == xs[s - |k.sems|];
        assert forall t: Tid :: !Has(Sm(k', s).queue, t);
        forall t: Tid | t < |k.threads|
          ensures Th(k', t).blockedAt != Some(s)
        {
          assert ThreadOk(k, t, limbo);
        }
      }
    }
  }

  lemma NewThreadCore(k: State, newborn: Thread, limbo: set<Tid>)
    requires Core(k, limbo)
    requires !newborn.sleeps && newborn.blockedAt.None?
    ensures Core(k.(threads := k.threads + [newborn]), limbo + {|k.threads|})
  {
    var t := |k.threads|;
    var k' := k.(threads := k.threads + [newborn]);
    assert forall u: Tid :: u < t ==> Th(k', u) == Th(k, u);
    forall u | 0 <= u < |k'.threads|
      ensures ThreadOk(k', u, limbo + {t})
    {
      if u < t { assert ThreadOk(k, u, limbo); }
    }
    forall s | 0 <= s < |k.sems|
      ensures QueueOk(k', s)
    {
      assert QueueOk(k, s);
    }
  }

  lemma CreateCore(k: State, slice: nat)
    requires Steady(k)
    ensures Steady(Create(k, slice))
  {
    var t := |k.threads|;
    var newborn := NewThread(Some(k.running), slice, |k.sems|);
    NewSemsCore(k, NewSems(t), {k.running});
    var k0 := k.(sems := k.sems + NewSems(t));
    NewThreadCore(k0, newborn, {k.running});
    var k1 := k.(threads := k.threads + [newborn], sems := k.sems + NewSems(t));
    SchedPutCore(k1, t, {k.running} + {t});
    assert {k.running} + {t} - {t} == {k.running};
    var k2 := SchedPut(k1, t);
    FieldCore(k2, k2.running, Me(k2).(children := Me(k2).children + 1), {k.running});
  }

  /** finish marks the running thread; it is in no list, so it leaves limbo for good. */
  lemma RetireCore(k: State, status: int)
    requires Core(k, {k.running}) && k.running != IDLE
    ensures Retire(k, status) == SetTh(k, k.running, Me(k).(exitStatus := status, finished := true))
    ensures Core(Retire(k, status), {})
  {
    var me := k.running;
    assert ThreadOk(k, me, {me});
    var k' := Retire(k, status);
    assert forall u: Tid :: u != me ==> Th(k', u) == Th(k, u);
    forall t | 0 <= t < |k.threads|
      ensures ThreadOk(k', t, {})
    {
      assert ThreadOk(k, t, {me});
    }
    forall s | 0 <= s < |k.sems|
      ensures QueueOk(k', s)
    {
      assert QueueOk(k, s);
    }
  }
}
