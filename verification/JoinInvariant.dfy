/** join, joinAll and finish: a thread is joined only when it has finished, and joinAll counts the
    live children. */
module JoinInvariant {
  import opened Entries
  import opened KernelTypes
  import opened KernelSpec
  import opened PlaceInvariant
  import opened Effects
  import opened LinkInvariant
  import opened KernelSteps
  import opened Families
  import opened Counting

  /** The join semaphores live as long as their thread; semJoin never holds a token. */
  ghost predicate JoinSemsOk(k: State, t: Tid) {
    var th := Th(k, t);
    && Sm(k, th.semJoin).active == !th.finished
    && Sm(k, th.semJoinAll).active == !th.finished
    && (!th.finished ==> Sm(k, th.semJoin).value == 0)
  }

  /** A joiner that was released normally has been released by its target's finish; `dying` is the
      target whose finish is under way. */
  ghost predicate JoinerOk(k: State, u: Tid, dying: set<Tid>) {
    var th := Th(k, u);
    th.cont.Waiting? && th.cont.why.ForJoin? && th.blockedAt.None? ==>
      && th.manner != OnClose
      && (th.manner == Regular ==> Th(k, th.cont.why.target).finished || th.cont.why.target in dying)
  }

  /** numOfActiveChildren counts `live` children, and a joinAll under way needs exactly that many
      tokens. */
  ghost predicate Kids(k: State, t: Tid, live: nat) {
    var th := Th(k, t);
    var x := Sm(k, th.semJoinAll);
    && th.children == live
    && x.value == 0
    && x.queue == (if th.blockedAt == Some(th.semJoinAll) then [Entry(t, th.children)] else [])
    && (th.cont.Waiting? && th.cont.why.ForJoinAll? && th.blockedAt.None? ==> th.children == 0)
  }

  /** The idle thread is a child of the master thread that exits again and again; the master's
      counter is therefore left out. */
  ghost predicate Counted(k: State, t: Tid) {
    t != MASTER && t < |k.threads| && !Th(k, t).finished
  }

  ghost predicate JoinsInv(k: State) {
    && (forall t: Tid :: t < |k.threads| ==> JoinSemsOk(k, t))
    && (forall u: Tid :: u < |k.threads| ==> JoinerOk(k, u, {}))
    && (forall t: Tid :: Counted(k, t) ==> Kids(k, t, Live(k.threads, t)))
  }

  lemma KidsKeep(k: State, k': State, t: Tid, live: nat)
    requires Kids(k, t, live)
    requires Th(k', t).children == Th(k, t).children && Th(k', t).semJoinAll == Th(k, t).semJoinAll
    requires Sm(k', Th(k, t).semJoinAll) == Sm(k, Th(k, t).semJoinAll)
    requires Th(k', t).blockedAt == Some(Th(k, t).semJoinAll) <==> Th(k, t).blockedAt == Some(Th(k, t).semJoinAll)
    requires Th(k', t).cont.Waiting? && Th(k', t).cont.why.ForJoinAll? && Th(k', t).blockedAt.None? ==>
      Th(k, t).cont.Waiting? && Th(k, t).cont.why.ForJoinAll? && Th(k, t).blockedAt.None?
    ensures Kids(k', t, live)
  {
  }

  lemma LiveKeeps(k: State, k': State, t: Tid)
    requires |k'.threads| == |k.threads|
    requires forall u: Tid :: u < |k.threads| ==>
      Th(k', u).parent == Th(k, u).parent && Th(k', u).finished == Th(k, u).finished
    ensures Live(k'.threads, t) == Live(k.threads, t)
  {
    forall u | 0 <= u < |k.threads|
      ensures IsLiveChild(k.threads[u], t) == IsLiveChild(k'.threads[u], t)
    {
      assert Th(k', u).parent == Th(k, u).parent && Th(k', u).finished == Th(k, u).finished;
    }
    LiveSame(k.threads, k'.threads, t);
  }

  /** At its own semJoinAll a thread can only be waiting for its children. */
  lemma WaitsForChildren(k: State, u: Tid, s: Sid)
    requires Linked(k) && u < |k.threads| && Th(k, u).blockedAt == Some(s)
    requires s < |k.sems| && KindFamily(Sm(k, s).kind) == Joins
    ensures Th(k, u).cont.Waiting? && ContFamily(Th(k, u).cont) == Joins
    ensures Sm(k, s).kind.JoinAllOf? ==> u == Sm(k, s).kind.t
    ensures Th(k, u).cont.why.ForJoinAll? ==> Sm(k, s).kind == JoinAllOf(u)
  {
    assert ContOk(k, u);
    WhyFamilyOk(k, u, s, Th(k, u).cont.why);
  }

  /** Nobody but its owner ever stands in a semJoinAll queue. */
  lemma JoinAllQueue(k: State, t: Tid, limbo: set<Tid>)
    requires Core(k, limbo) && Linked(k) && t < |k.threads|
    ensures var s := Th(k, t).semJoinAll;
      var q := Sm(k, s).queue;
      && s < |k.sems|
      && |q| <= 1
      && (q != [] <==> Th(k, t).blockedAt == Some(s))
      && (q != [] ==> q[0].tid == t)
  {
    assert OwnsSems(k, t);
    var s := Th(k, t).semJoinAll;
    var q := Sm(k, s).queue;
    assert QueueOk(k, s);
    assert |q| > 1 ==> q[0].tid != q[1].tid;
    forall i | 0 <= i < |q|
      ensures q[i].tid == t
    {
      assert Has(q, q[i].tid);
      WaitsForChildren(k, q[i].tid, s);
    }
    if Th(k, t).blockedAt == Some(s) { assert Has(q, t); }
    if q != [] { assert q[0].tid == t && Has(q, q[0].tid); }
  }

  // ---- steps of the other families

  lemma KidsApart(k: State, k': State, t: Tid, live: nat)
    requires Linked(k) && Linked(k') && Apart(k, k', Joins) && t < |k.threads| && Kids(k, t, live)
    ensures Kids(k', t, live)
  {
    assert OwnsSems(k, t) && OwnsSems(k', t);
    assert ThreadApart(Th(k, t), Th(k', t), Joins);
    var s := Th(k, t).semJoinAll;
    if Th(k, t).blockedAt == Some(s) { WaitsForChildren(k, t, s); }
    if Th(k', t).blockedAt == Some(s) { WaitsForChildren(k', t, s); }
    KidsKeep(k, k', t, live);
  }

  lemma LiveApart(k: State, k': State, t: Tid)
    requires Apart(k, k', Joins)
    ensures Live(k'.threads, t) == Live(k.threads, t)
  {
    forall u | 0 <= u < |k.threads|
      ensures IsLiveChild(k.threads[u], t) == IsLiveChild(k'.threads[u], t)
    {
      assert ThreadApart(Th(k, u), Th(k', u), Joins);
    }
    LiveSame(k.threads, k'.threads, t);
  }

  lemma JoinersApart(k: State, k': State, u: Tid, dying: set<Tid>)
    requires Linked(k) && Linked(k') && Apart(k, k', Joins) && u < |k.threads|
    requires JoinerOk(k, u, dying) && JoinSemsOk(k, u)
    ensures JoinerOk(k', u, dying) && JoinSemsOk(k', u)
  {
    assert OwnsSems(k, u) && OwnsSems(k', u);
    assert ThreadApart(Th(k, u), Th(k', u), Joins);
    if Th(k', u).cont.Waiting? && Th(k', u).cont.why.ForJoin? {
      assert ContOk(k', u);
      assert Owned(k', Th(k', u).cont.s);
      var t := Th(k', u).cont.why.target;
      assert ThreadApart(Th(k, t), Th(k', t), Joins);
    }
  }

  lemma JoinsApart(k: State, k': State)
    requires Good(k) && Good(k') && Apart(k, k', Joins) && JoinsInv(k)
    ensures JoinsInv(k')
  {
    forall t: Tid | t < |k.threads|
      ensures JoinSemsOk(k', t) && JoinerOk(k', t, {})
    {
      JoinersApart(k, k', t, {});
    }
    forall t: Tid | Counted(k', t)
      ensures Kids(k', t, Live(k'.threads, t))
    {
      assert ThreadApart(Th(k, t), Th(k', t), Joins);
      assert Counted(k, t);
      LiveApart(k, k', t);
      KidsApart(k, k', t, Live(k.threads, t));
    }
  }

  // ---- join and joinAll

  /** Only the running thread and the queue of one join semaphore changed. */
  ghost predicate OnlyCaller(k: State, k': State) {
    && SameWorld(k, k') && |k'.threads| == |k.threads|
    && (forall u: Tid :: u != k.running ==> Th(k', u) == Th(k, u))
    && SameFamilyTree(Me(k), Th(k', k.running))
    && (forall s: Sid :: s < |k.sems| ==> Sm(k', s) == Sm(k, s).(value := Sm(k', s).value, queue := Sm(k', s).queue))
    && (forall s: Sid :: s < |k.sems| && Sm(k, s).kind != JoinAllOf(k.running) ==> Sm(k', s).value == Sm(k, s).value)
    && (forall s: Sid :: s < |k.sems| && Sm(k, s).kind.JoinAllOf? && Sm(k, s).kind != JoinAllOf(k.running) ==>
          Sm(k', s) == Sm(k, s))
    && JoinerOk(k', k.running, {})
  }

  lemma JoinsOne(k: State, k': State)
    requires Busy(k) && JoinsInv(k) && OnlyCaller(k, k')
    requires Counted(k, k.running) ==> Kids(k', k.running, Me(k).children)
    ensures JoinsInv(k')
  {
    forall t: Tid | t < |k.threads|
      ensures JoinSemsOk(k', t) && JoinerOk(k', t, {})
    {
      assert OwnsSems(k, t) && JoinSemsOk(k, t) && JoinerOk(k, t, {});
      assert SameLinks(Th(k, t), Th(k', t));
    }
    forall t: Tid | Counted(k', t)
      ensures Kids(k', t, Live(k'.threads, t))
    {
      assert OwnsSems(k, t);
      assert Counted(k, t) && Kids(k, t, Live(k.threads, t));
      LiveKeeps(k, k', t);
    }
  }

  /** A caller that is not at its own joinAll keeps its count. */
  lemma KidsElsewhere(k: State, k': State)
    requires Busy(k) && JoinsInv(k) && OnlyCaller(k, k') && Counted(k, k.running)
    requires Sm(k', Me(k).semJoinAll) == Sm(k, Me(k).semJoinAll)
    requires Th(k', k.running).blockedAt != Some(Me(k).semJoinAll)
    requires Th(k', k.running).cont.Waiting? ==> !Th(k', k.running).cont.why.ForJoinAll?
    ensures Kids(k', k.running, Me(k).children)
  {
    RunningFree(k);
    assert Kids(k, k.running, Live(k.threads, k.running));
  }

  /** A wait at a semJoin that leaves its value alone, or at the caller's own semJoinAll. */
  lemma MovedOnly(k: State, k': State, s: Sid, why: Why)
    requires Busy(k) && Moved(k, k', s, why) && SameWorld(k, k') && JoinerOk(k', k.running, {})
    requires Sm(k, s).kind == JoinAllOf(k.running) || (Sm(k, s).kind.JoinOf? && Sm(k', s).value == Sm(k, s).value)
    ensures OnlyCaller(k, k')
  {
  }

  lemma JoinOnly(k: State, t: Tid)
    requires Busy(k) && JoinsInv(k) && t < |k.threads| && t != k.running && !Th(k, t).finished
    ensures var k' := Wait(k, Th(k, t).semJoin, 1, ForJoin(t)).0;
      && OnlyCaller(k, k')
      && Th(k', k.running).blockedAt == Some(Th(k, t).semJoin)
      && Th(k', k.running).cont == Waiting(Th(k, t).semJoin, ForJoin(t))
      && Th(k, t).semJoin != Me(k).semJoinAll
  {
    var s := Th(k, t).semJoin;
    assert OwnsSems(k, t) && OwnsSems(k, k.running);
    assert JoinSemsOk(k, t);
    RunningFree(k);
    WaitMoves(k, s, 1, ForJoin(t));
    WaitEffect(k, s, 1, ForJoin(t));
    WaitLinked(k, s, 1, ForJoin(t));
    MovedOnly(k, Wait(k, s, 1, ForJoin(t)).0, s, ForJoin(t));
  }

  lemma JoinsJoin(k: State, t: Tid)
    requires Busy(k) && JoinsInv(k) && t < |k.threads| && t != k.running
    requires !Th(k, t).finished
    ensures JoinsInv(Wait(k, Th(k, t).semJoin, 1, ForJoin(t)).0)
  {
    JoinOnly(k, t);
    WaitEffect(k, Th(k, t).semJoin, 1, ForJoin(t));
    var k' := Wait(k, Th(k, t).semJoin, 1, ForJoin(t)).0;
    if Counted(k, k.running) { KidsElsewhere(k, k'); }
    JoinsOne(k, k');
  }

  /** A timed join on a live thread gives up at once or queues the caller. */
  lemma TimedJoinEffect(k: State, t: Tid, timeout: nat)
    requires Busy(k) && JoinsInv(k) && t < |k.threads| && t != k.running
    requires !Th(k, t).finished
    ensures var s := Th(k, t).semJoin;
      var k' := TimedWait(k, s, timeout, 1, ForJoin(t)).0;
      var me := Th(k', k.running);
      && Moved(k, k', s, ForJoin(t)) && SameWorld(k, k')
      && Sm(k, s).kind == JoinOf(t) && Sm(k', s).value == Sm(k, s).value
      && (if timeout == 0 then me.blockedAt.None? && me.cont.Run?
          else me.blockedAt == Some(s) && me.cont == Waiting(s, ForJoin(t)))
  {
    assert OwnsSems(k, t) && JoinSemsOk(k, t);
    RunningFree(k);
    var s := Th(k, t).semJoin;
    TimedWaitMoves(k, s, timeout, 1, ForJoin(t));
    TimedWaitEffect(k, s, timeout, 1, ForJoin(t));
    TimedWaitLinked(k, s, timeout, 1, ForJoin(t));
  }

  lemma TimedJoinOnly(k: State, t: Tid, timeout: nat)
    requires Busy(k) && JoinsInv(k) && t < |k.threads| && t != k.running && !Th(k, t).finished
    ensures var k' := TimedWait(k, Th(k, t).semJoin, timeout, 1, ForJoin(t)).0;
      && OnlyCaller(k, k')
      && Sm(k', Me(k).semJoinAll) == Sm(k, Me(k).semJoinAll)
      && Th(k', k.running).blockedAt != Some(Me(k).semJoinAll)
      && (Th(k', k.running).cont.Waiting? ==> !Th(k', k.running).cont.why.ForJoinAll?)
  {
    assert OwnsSems(k, k.running);
    TimedJoinEffect(k, t, timeout);
    var s := Th(k, t).semJoin;
    JoinedElsewhere(k, TimedWait(k, s, timeout, 1, ForJoin(t)).0, s, t);
  }

  lemma JoinedElsewhere(k: State, k': State, s: Sid, t: Tid)
    requires Busy(k) && Moved(k, k', s, ForJoin(t)) && SameWorld(k, k')
    requires Sm(k, s).kind == JoinOf(t) && Sm(k', s).value == Sm(k, s).value
    requires var me := Th(k', k.running);
      (me.blockedAt.None? && me.cont.Run?) || (me.blockedAt == Some(s) && me.cont == Waiting(s, ForJoin(t)))
    ensures OnlyCaller(k, k')
    ensures Sm(k', Me(k).semJoinAll) == Sm(k, Me(k).semJoinAll)
    ensures Th(k', k.running).blockedAt != Some(Me(k).semJoinAll)
  {
    assert OwnsSems(k, k.running);
    MovedOnly(k, k', s, ForJoin(t));
  }

  lemma JoinsTimedJoin(k: State, t: Tid, timeout: nat)
    requires Busy(k) && JoinsInv(k) && t < |k.threads| && t != k.running
    requires !Th(k, t).finished
    ensures JoinsInv(TimedWait(k, Th(k, t).semJoin, timeout, 1, ForJoin(t)).0)
  {
    TimedJoinOnly(k, t, timeout);
    var k' := TimedWait(k, Th(k, t).semJoin, timeout, 1, ForJoin(t)).0;
    if Counted(k, k.running) { KidsElsewhere(k, k'); }
    JoinsOne(k, k');
  }

  /** joinAll goes on at once or queues the caller for as many tokens as it has children. */
  lemma JoinAllKids(k: State)
    requires Busy(k) && JoinsInv(k) && Counted(k, k.running)
    ensures Kids(Wait(k, Me(k).semJoinAll, Me(k).children, ForJoinAll).0, k.running, Me(k).children)
  {
    var me := k.running;
    assert OwnsSems(k, me) && JoinSemsOk(k, me);
    assert Kids(k, me, Live(k.threads, me));
    RunningFree(k);
    WaitEffect(k, Me(k).semJoinAll, Me(k).children, ForJoinAll);
  }

  lemma JoinAllOnly(k: State)
    requires Busy(k)
    ensures OnlyCaller(k, Wait(k, Me(k).semJoinAll, Me(k).children, ForJoinAll).0)
  {
    assert OwnsSems(k, k.running);
    RunningFree(k);
    WaitMoves(k, Me(k).semJoinAll, Me(k).children, ForJoinAll);
    WaitLinked(k, Me(k).semJoinAll, Me(k).children, ForJoinAll);
    MovedOnly(k, Wait(k, Me(k).semJoinAll, Me(k).children, ForJoinAll).0, Me(k).semJoinAll, ForJoinAll);
  }

  lemma JoinsJoinAll(k: State)
    requires Busy(k) && JoinsInv(k)
    ensures JoinsInv(JoinAll(k).0)
  {
    JoinAllOnly(k);
    if Counted(k, k.running) { JoinAllKids(k); }
    JoinsOne(k, Wait(k, Me(k).semJoinAll, Me(k).children, ForJoinAll).0);
  }

  /** A timed joinAll ends at once or queues the caller for as many tokens as it has children. */
  lemma TimedJoinAllKids(k: State, timeout: nat)
    requires Busy(k) && JoinsInv(k) && Counted(k, k.running)
    ensures Kids(TimedWait(k, Me(k).semJoinAll, timeout, Me(k).children, ForTimedJoinAll).0, k.running, Me(k).children)
  {
    var me := k.running;
    assert OwnsSems(k, me) && JoinSemsOk(k, me);
    assert Kids(k, me, Live(k.threads, me));
    RunningFree(k);
    TimedWaitEffect(k, Me(k).semJoinAll, timeout, Me(k).children, ForTimedJoinAll);
  }

  lemma TimedJoinAllOnly(k: State, timeout: nat)
    requires Busy(k)
    ensures OnlyCaller(k, TimedWait(k, Me(k).semJoinAll, timeout, Me(k).children, ForTimedJoinAll).0)
  {
    assert OwnsSems(k, k.running);
    RunningFree(k);
    TimedWaitMoves(k, Me(k).semJoinAll, timeout, Me(k).children, ForTimedJoinAll);
    TimedWaitLinked(k, Me(k).semJoinAll, timeout, Me(k).children, ForTimedJoinAll);
    MovedOnly(k, TimedWait(k, Me(k).semJoinAll, timeout, Me(k).children, ForTimedJoinAll).0,
              Me(k).semJoinAll, ForTimedJoinAll);
  }

  lemma JoinsTimedJoinAll(k: State, timeout: nat)
    requires Busy(k) && JoinsInv(k)
    ensures JoinsInv(TimedJoinAll(k, timeout).0)
  {
    TimedJoinAllOnly(k, timeout);
    if Counted(k, k.running) { TimedJoinAllKids(k, timeout); }
    JoinsOne(k, TimedWait(k, Me(k).semJoinAll, timeout, Me(k).children, ForTimedJoinAll).0);
  }

  /** Clearing the continuation of the running thread. */
  lemma JoinsWoken(k: State)
    requires Good(k) && JoinsInv(k) && !Me(k).cont.Run?
    ensures JoinsInv(WithCont(k, Run))
  {
    RunningFree(k);
    var k' := WithCont(k, Run);
    assert forall u: Tid :: u != k.running ==> Th(k', u) == Th(k, u);
    forall t: Tid | t < |k.threads|
      ensures JoinSemsOk(k', t) && JoinerOk(k', t, {})
    {
      assert JoinSemsOk(k, t) && JoinerOk(k, t, {});
    }
    forall t: Tid | Counted(k', t)
      ensures Kids(k', t, Live(k'.threads, t))
    {
      assert Counted(k, t) && Kids(k, t, Live(k.threads, t));
      LiveKeeps(k, k', t);
    }
  }

  // ---- the timer

  lemma TickJoiner(k: State, t: Tid)
    requires Good(k) && JoinsInv(k) && t < |k.threads|
    ensures JoinSemsOk(OnTick(k), t) && JoinerOk(OnTick(k), t, {})
  {
    OnTickGood(k);
    var k' := OnTick(k);
    assert JoinSemsOk(k, t) && JoinerOk(k, t, {}) && ContOk(k, t);
    assert Th(k', t) == Th(k, t) || Expired(Th(k, t), Th(k', t));
    if Th(k, t).cont.Waiting? && Th(k, t).cont.why.ForJoin? {
      assert Owned(k, Th(k, t).cont.s);
      var target := Th(k, t).cont.why.target;
      assert Th(k', target) == Th(k, target) || Expired(Th(k, target), Th(k', target));
    }
  }

  lemma TickKids(k: State, t: Tid)
    requires Good(k) && JoinsInv(k) && Counted(OnTick(k), t)
    ensures Kids(OnTick(k), t, Live(OnTick(k).threads, t))
  {
    OnTickGood(k);
    var k' := OnTick(k);
    assert Th(k', t) == Th(k, t) || Expired(Th(k, t), Th(k', t));
    assert Counted(k, t) && Kids(k, t, Live(k.threads, t));
    TickLive(k, t);
    JoinAllQueue(k', t, {k.running});
    JoinAllQueue(k, t, {k.running});
    assert OwnsSems(k, t) && ContOk(k, t);
    var s := Th(k, t).semJoinAll;
    var q' := Sm(k', s).queue;
    if q' != [] { assert q'[0] in Sm(k, s).queue; }
    if Th(k, t).blockedAt == Some(s) { WaitsForChildren(k, t, s); }
  }

  lemma TickLive(k: State, t: Tid)
    requires Good(k)
    ensures Live(OnTick(k).threads, t) == Live(k.threads, t)
  {
    OnTickGood(k);
    var k' := OnTick(k);
    assert forall u: Tid :: u < |k.threads| ==> Th(k', u) == Th(k, u) || Expired(Th(k, u), Th(k', u));
    LiveKeeps(k, k', t);
  }

  lemma JoinsTick(k: State)
    requires Good(k) && JoinsInv(k)
    ensures JoinsInv(OnTick(k))
  {
    OnTickGood(k);
    var k' := OnTick(k);
    forall t: Tid | t < |k.threads|
      ensures JoinSemsOk(k', t) && JoinerOk(k', t, {})
    {
      TickJoiner(k, t);
    }
    forall t: Tid | Counted(k', t)
      ensures Kids(k', t, Live(k'.threads, t))
    {
      TickKids(k, t);
    }
  }

  // ---- create

  lemma CreatedJoiner(k: State, slice: nat, t: Tid)
    requires Busy(k) && JoinsInv(k) && t <= |k.threads|
    ensures JoinSemsOk(Create(k, slice), t) && JoinerOk(Create(k, slice), t, {})
  {
    CreateEffect(k, slice);
    RunningFree(k);
    if t < |k.threads| {
      assert OwnsSems(k, t) && JoinSemsOk(k, t) && JoinerOk(k, t, {}) && ContOk(k, t);
      if Th(k, t).cont.Waiting? { assert Owned(k, Th(k, t).cont.s); }
    }
  }

  lemma CreatedKids(k: State, slice: nat, t: Tid)
    requires Busy(k) && JoinsInv(k) && Counted(Create(k, slice), t)
    ensures Kids(Create(k, slice), t, Live(Create(k, slice).threads, t))
  {
    CreateEffect(k, slice);
    RunningFree(k);
    LiveAfterCreate(k, slice, t);
    if t < |k.threads| {
      assert OwnsSems(k, t);
      assert Counted(k, t) && Kids(k, t, Live(k.threads, t));
    }
  }

  lemma JoinsCreate(k: State, slice: nat)
    requires Busy(k) && JoinsInv(k)
    ensures JoinsInv(Create(k, slice))
  {
    var k' := Create(k, slice);
    forall t: Tid | t < |k'.threads|
      ensures JoinSemsOk(k', t) && JoinerOk(k', t, {})
    {
      CreatedJoiner(k, slice, t);
    }
    forall t: Tid | Counted(k', t)
      ensures Kids(k', t, Live(k'.threads, t))
    {
      CreatedKids(k, slice, t);
    }
  }

  lemma LiveAfterCreate(k: State, slice: nat, t: Tid)
    requires Busy(k) && t <= |k.threads|
    ensures Live(Create(k, slice).threads, t)
         == if t == k.running then Live(k.threads, t) + 1 else if t < |k.threads| then Live(k.threads, t) else 0
  {
    CreateEffect(k, slice);
    RunningFree(k);
    var k' := Create(k, slice);
    var n := |k.threads|;
    var ts := k.threads + [Th(k', n)];
    assert ts[..n] == k.threads;
    LiveUpdate(ts, k.running, Me(k'), t);
    if t == n {
      forall u | 0 <= u < n
        ensures !IsLiveChild(k.threads[u], n)
      {
        assert OwnsSems(k, u);
      }
      LiveNone(k.threads, n);
    }
  }

  // ---- finish

  /** How many children of t are live once thread me is gone. */
  ghost function Target(k: State, t: Tid, me: Tid, notified: bool): int {
    Live(k.threads, t) - if notified && Th(k, me).parent == Some(t) then 1 else 0
  }

  /** Inside finish: the invariant holds of everybody but the finishing thread. */
  ghost predicate Dying(k: State, notified: bool) {
    && Busy(k)
    && (forall t: Tid :: t < |k.threads| && t != k.running ==> JoinSemsOk(k, t) && JoinerOk(k, t, {k.running}))
    && (forall t: Tid :: Counted(k, t) && t != k.running ==>
          Target(k, t, k.running, notified) >= 0 && Kids(k, t, Target(k, t, k.running, notified)))
  }

  lemma DyingApart(k: State, k': State, notified: bool)
    requires Dying(k, notified) && Busy(k') && Apart(k, k', Joins) && k'.running == k.running
    ensures Dying(k', notified)
  {
    forall t: Tid | t < |k.threads| && t != k.running
      ensures JoinSemsOk(k', t) && JoinerOk(k', t, {k.running})
    {
      JoinersApart(k, k', t, {k.running});
    }
    assert ThreadApart(Th(k, k.running), Th(k', k.running), Joins);
    forall t: Tid | Counted(k', t) && t != k.running
      ensures Target(k', t, k.running, notified) >= 0 && Kids(k', t, Target(k', t, k.running, notified))
    {
      assert ThreadApart(Th(k, t), Th(k', t), Joins);
      assert Counted(k, t);
      LiveApart(k, k', t);
      KidsApart(k, k', t, Target(k, t, k.running, notified));
    }
  }

  lemma LiveWakes(k: State, k': State, s: Sid, m: Manner, t: Tid)
    requires WakesAt(k, k', s, m)
    ensures Live(k'.threads, t) == Live(k.threads, t)
  {
    forall u | 0 <= u < |k.threads|
      ensures IsLiveChild(k.threads[u], t) == IsLiveChild(k'.threads[u], t)
    {
      assert Th(k', u) == Th(k, u) || (Th(k, u).blockedAt == Some(s) && Woken(Th(k, u), Th(k', u), m));
    }
    LiveSame(k.threads, k'.threads, t);
  }

  lemma DyingWakesOwn(k: State, k': State, s: Sid, m: Manner, notified: bool, t: Tid)
    requires Dying(k, notified) && WakesAt(k, k', s, m) && t < |k.threads| && t != k.running
    requires s == Me(k).semJoin || s == Me(k).semJoinAll
    ensures JoinSemsOk(k', t)
  {
    var me := k.running;
    assert OwnsSems(k, me) && OwnsSems(k, t);
    assert JoinSemsOk(k, t);
    assert Th(k', t) == Th(k, t) || (Th(k, t).blockedAt == Some(s) && Woken(Th(k, t), Th(k', t), m));
  }

  /** Nobody but the finishing thread's joiners stands at its own join semaphores. */
  lemma DyingWakesJoiner(k: State, k': State, s: Sid, m: Manner, notified: bool, t: Tid)
    requires Dying(k, notified) && WakesAt(k, k', s, m) && t < |k.threads| && t != k.running
    requires (s == Me(k).semJoin && (m == Regular || Sm(k, s).queue == [])) || s == Me(k).semJoinAll
    ensures JoinerOk(k', t, {k.running})
  {
    var me := k.running;
    assert Th(k', t) == Th(k, t) || (Th(k, t).blockedAt == Some(s) && Woken(Th(k, t), Th(k', t), m));
    if Th(k, t).cont.Waiting? && Th(k, t).cont.why.ForJoin? {
      assert OwnsSems(k, me) && QueueOk(k, s);
      if s == Me(k).semJoinAll { JoinAllQueue(k, me, {me}); }
      assert ContOk(k, t) && JoinerOk(k, t, {me});
      if Th(k', t) != Th(k, t) { assert Has(Sm(k, s).queue, t); }
      var target := Th(k, t).cont.why.target;
      assert Owned(k, Th(k, t).cont.s);
      assert || Th(k', target) == Th(k, target)
             || (Th(k, target).blockedAt == Some(s) && Woken(Th(k, target), Th(k', target), m));
    }
  }

  lemma DyingWakesKids(k: State, k': State, s: Sid, m: Manner, notified: bool, t: Tid)
    requires Dying(k, notified) && WakesAt(k, k', s, m) && Counted(k', t) && t != k.running
    requires s == Me(k).semJoin || s == Me(k).semJoinAll
    ensures Target(k', t, k.running, notified) >= 0 && Kids(k', t, Target(k', t, k.running, notified))
  {
    var me := k.running;
    assert OwnsSems(k, me) && OwnsSems(k, t) && ContOk(k, t);
    assert Th(k', t) == Th(k, t) || (Th(k, t).blockedAt == Some(s) && Woken(Th(k, t), Th(k', t), m));
    assert Th(k', me) == Th(k, me) || (Th(k, me).blockedAt == Some(s) && Woken(Th(k, me), Th(k', me), m));
    assert Counted(k, t);
    LiveWakes(k, k', s, m, t);
    if Th(k, t).blockedAt == Some(s) { WaitsForChildren(k, t, s); }
    KidsKeep(k, k', t, Target(k, t, me, notified));
  }

  /** The finishing thread's own join semaphores: its joiners are released normally. */
  lemma DyingWakes(k: State, k': State, s: Sid, m: Manner, notified: bool)
    requires Dying(k, notified) && Busy(k') && WakesAt(k, k', s, m)
    requires (s == Me(k).semJoin && (m == Regular || Sm(k, s).queue == [])) || s == Me(k).semJoinAll
    ensures Dying(k', notified)
  {
    forall t: Tid | t < |k.threads| && t != k.running
      ensures JoinSemsOk(k', t) && JoinerOk(k', t, {k.running})
    {
      DyingWakesOwn(k, k', s, m, notified, t);
      DyingWakesJoiner(k, k', s, m, notified, t);
    }
    forall t: Tid | Counted(k', t) && t != k.running
      ensures Target(k', t, k.running, notified) >= 0 && Kids(k', t, Target(k', t, k.running, notified))
    {
      DyingWakesKids(k, k', s, m, notified, t);
    }
  }

  lemma DyingCloseMail(k: State)
    requires Dying(k, false)
    ensures Dying(CloseMail(k), false)
  {
    assert OwnsSems(k, k.running);
    CloseBusy(k, Me(k).semSend);
    CloseApart(k, Me(k).semSend, Joins);
    var a := Close(k, Me(k).semSend).0;
    CloseBusy(a, Me(k).semReceive);
    CloseApart(a, Me(k).semReceive, Joins);
    ApartTransitive(k, a, CloseMail(k), Joins);
    DyingApart(k, CloseMail(k), false);
  }

  lemma DyingCloseJoin(k: State)
    requires Dying(k, false) && Sm(k, Me(k).semJoin).active
    ensures Dying(CloseJoin(k), false)
    ensures !Sm(CloseJoin(k), Me(k).semJoin).active
  {
    var s := Me(k).semJoin;
    SignalAllBusy(k, s, 0);
    SignalAllWakes(k, s, 0, false, {k.running});
    var a := SignalAll(k, s, 0, false);
    DyingWakes(k, a, s, Regular, false);
    CloseBusy(a, s);
    CloseWakes(a, s, {k.running});
    DyingWakes(a, CloseJoin(k), s, OnClose, false);
  }

  lemma LiveChildCounts(ts: seq<Thread>, u: Tid, p: Tid)
    requires u < |ts| && IsLiveChild(ts[u], p)
    ensures Live(ts, p) >= 1
  {
    if Live(ts, p) == 0 { LiveZero(ts, p, u); }
  }

  /** The parent's counter goes down, and with it the tokens that its joinAll still needs. */
  lemma DyingNotify(k: State)
    requires Dying(k, false)
    ensures Dying(NotifyParent(k), true)
  {
    var me := k.running;
    NotifyParentBusy(k);
    var k2 := NotifyParent(k);
    if Me(k).parent.Some? && !Th(k, Me(k).parent.value).finished {
      var p := Me(k).parent.value;
      forall t: Tid | t < |k.threads| && t != me
        ensures JoinSemsOk(k2, t) && JoinerOk(k2, t, {me})
      {
        NotifyJoiner(k, p, t);
      }
      forall t: Tid | Counted(k2, t) && t != me
        ensures Target(k2, t, me, true) >= 0 && Kids(k2, t, Target(k2, t, me, true))
      {
        NotifyKids(k, p, t);
      }
    } else {
      forall t: Tid | Counted(k2, t) && t != me
        ensures Target(k2, t, me, true) >= 0 && Kids(k2, t, Target(k2, t, me, true))
      {
        assert Counted(k, t) && Target(k, t, me, true) == Target(k, t, me, false);
      }
    }
  }

  /** A thread whose join semaphores, and whose join under way, have not been touched. */
  lemma KeptJoiner(k: State, k': State, t: Tid, dying: set<Tid>)
    requires JoinSemsOk(k, t) && JoinerOk(k, t, dying)
    requires SameLinks(Th(k, t), Th(k', t)) && Th(k', t).finished == Th(k, t).finished
    requires Th(k', t).cont == Th(k, t).cont
    requires Sm(k', Th(k, t).semJoin) == Sm(k, Th(k, t).semJoin)
    requires Sm(k', Th(k, t).semJoinAll).active == Sm(k, Th(k, t).semJoinAll).active
    requires Th(k, t).cont.Waiting? && Th(k, t).cont.why.ForJoin? ==>
      && Th(k', t).blockedAt == Th(k, t).blockedAt && Th(k', t).manner == Th(k, t).manner
      && Th(k', Th(k, t).cont.why.target).finished == Th(k, Th(k, t).cont.why.target).finished
    ensures JoinSemsOk(k', t) && JoinerOk(k', t, dying)
  {
  }

  /** Who waits to join somebody is not in its joinAll. */
  lemma JoinsElsewhere(k: State, t: Tid)
    requires Linked(k) && t < |k.threads| && Th(k, t).cont.Waiting? && Th(k, t).cont.why.ForJoin?
    ensures Th(k, t).blockedAt != Some(Th(k, t).semJoinAll) && Th(k, t).cont.why.target < |k.threads|
  {
    assert OwnsSems(k, t) && ContOk(k, t);
    assert Owned(k, Th(k, t).cont.s);
  }

  lemma NotifyJoiner(k: State, p: Tid, t: Tid)
    requires Dying(k, false) && Me(k).parent == Some(p) && !Th(k, p).finished
    requires t < |k.threads| && t != k.running
    ensures JoinSemsOk(NotifyParent(k), t) && JoinerOk(NotifyParent(k), t, {k.running})
  {
    RunningFree(k);
    ParentOlder(k);
    assert OwnsSems(k, p) && OwnsSems(k, t);
    NotifyThread(k, p, t);
    if Th(k, t).cont.Waiting? && Th(k, t).cont.why.ForJoin? {
      JoinsElsewhere(k, t);
      NotifyThread(k, p, Th(k, t).cont.why.target);
    }
    KeptJoiner(k, NotifyParent(k), t, {k.running});
  }

  lemma NotifyKids(k: State, p: Tid, t: Tid)
    requires Dying(k, false) && Me(k).parent == Some(p) && !Th(k, p).finished
    requires Counted(NotifyParent(k), t) && t != k.running && t < |k.threads|
    ensures var k2 := NotifyParent(k);
      Target(k2, t, k.running, true) >= 0 && Kids(k2, t, Target(k2, t, k.running, true))
  {
    NotifyParentBusy(k);
    NotifyThread(k, p, t);
    NotifyThread(k, p, k.running);
    LiveNotify(k, p, t);
    if t == p { NotifyParentKids(k, p); } else { NotifyOtherKids(k, p, t); }
  }

  lemma NotifyParentKids(k: State, p: Tid)
    requires Dying(k, false) && Me(k).parent == Some(p) && Counted(k, p) && p != k.running
    ensures Live(k.threads, p) >= 1 && Kids(NotifyParent(k), p, Live(k.threads, p) - 1)
  {
    assert Kids(k, p, Target(k, p, k.running, false));
    assert IsLiveChild(k.threads[k.running], p);
    LiveChildCounts(k.threads, k.running, p);
    assert JoinSemsOk(k, p);
    NotifyWaiting(k, p);
  }

  lemma NotifyOtherKids(k: State, p: Tid, t: Tid)
    requires Dying(k, false) && Me(k).parent == Some(p) && !Th(k, p).finished
    requires Counted(k, t) && t != k.running && t != p
    ensures Kids(NotifyParent(k), t, Live(k.threads, t))
  {
    assert Kids(k, t, Target(k, t, k.running, false));
    assert OwnsSems(k, k.running) && OwnsSems(k, p) && OwnsSems(k, t);
    NotifyThread(k, p, t);
    KidsKeep(k, NotifyParent(k), t, Live(k.threads, t));
  }

  /** What waking the parent p from its joinAll does to thread t. */
  lemma WokenThread(k: State, p: Tid, t: Tid)
    requires Busy(k) && p < |k.threads| && t < |k.threads|
    ensures var k2 := ParentWoken(k, p);
      var s := Th(k, p).semJoinAll;
      && (t != p ==> Th(k2, t) == Th(k, t))
      && SameFamilyTree(Th(k, t), Th(k2, t)) && Th(k2, t).cont == Th(k, t).cont
      && (forall x: Sid :: x != s ==> Sm(k2, x) == Sm(k, x))
      && Sm(k2, s).active == Sm(k, s).active
      && (Th(k, p).blockedAt != Some(s) ==> k2 == k)
  {
    assert OwnsSems(k, p);
    var s := Th(k, p).semJoinAll;
    if Th(k, p).blockedAt == Some(s) {
      SignalWakes(k, s, 1, {k.running});
      WokenWaiter(k, ParentWoken(k, p), s, t);
      if t != p && Th(k, t).blockedAt == Some(s) { WaitsForChildren(k, t, s); }
    }
  }

  lemma WokenWaiter(k: State, k2: State, s: Sid, t: Tid)
    requires WakesAt(k, k2, s, Regular) && t < |k.threads|
    ensures Th(k2, t) == Th(k, t) || (Th(k, t).blockedAt == Some(s) && Woken(Th(k, t), Th(k2, t), Regular))
  {
  }

  /** What NotifyParent does to thread t. */
  lemma NotifyThread(k: State, p: Tid, t: Tid)
    requires Busy(k) && Me(k).parent == Some(p) && !Th(k, p).finished && t < |k.threads|
    ensures var k2 := NotifyParent(k);
      && (t != p ==> Th(k2, t) == Th(k, t))
      && SameLinks(Th(k, t), Th(k2, t)) && Th(k2, t).finished == Th(k, t).finished
      && Th(k2, t).cont == Th(k, t).cont
      && (forall s: Sid :: s != Th(k, p).semJoinAll ==> Sm(k2, s) == Sm(k, s))
      && Sm(k2, Th(k, p).semJoinAll).active == Sm(k, Th(k, p).semJoinAll).active
      && (Th(k, p).blockedAt != Some(Th(k, p).semJoinAll) ==>
            Th(k2, t).blockedAt == Th(k, t).blockedAt && Th(k2, t).manner == Th(k, t).manner)
  {
    RunningFree(k);
    ParentOlder(k);
    ChildDroppedBusy(k, p);
    WokenThread(ChildDropped(k, p), p, t);
  }

  lemma LiveNotify(k: State, p: Tid, t: Tid)
    requires Busy(k) && Me(k).parent == Some(p) && !Th(k, p).finished
    ensures Live(NotifyParent(k).threads, t) == Live(k.threads, t)
  {
    NotifyParentBusy(k);
    var k2 := NotifyParent(k);
    forall u | 0 <= u < |k.threads|
      ensures IsLiveChild(k.threads[u], t) == IsLiveChild(k2.threads[u], t)
    {
      NotifyThread(k, p, u);
    }
    LiveSame(k.threads, k2.threads, t);
  }

  /** A joinAll under way needs one token less, and ends with the last child. */
  lemma NotifyWaiting(k: State, p: Tid)
    requires Busy(k) && Me(k).parent == Some(p) && Counted(k, p) && Kids(k, p, Th(k, p).children)
    requires JoinSemsOk(k, p) && Th(k, p).children >= 1
    ensures Kids(NotifyParent(k), p, Th(k, p).children - 1)
  {
    ChildDroppedBusy(k, p);
    WokenKids(ChildDropped(k, p), p);
  }

  /** The parent has counted the child down, its semaphore still asks for one token more. */
  lemma WokenKids(k: State, p: Tid)
    requires Busy(k) && p < |k.threads|
    requires var th := Th(k, p);
      var x := Sm(k, th.semJoinAll);
      && x.active && x.value == 0
      && x.queue == (if th.blockedAt == Some(th.semJoinAll) then [Entry(p, th.children + 1)] else [])
      && !(th.cont.Waiting? && th.cont.why.ForJoinAll? && th.blockedAt.None?)
    ensures Kids(ParentWoken(k, p), p, Th(k, p).children)
  {
    assert OwnsSems(k, p);
    var s := Th(k, p).semJoinAll;
    if Th(k, p).blockedAt == Some(s) {
      assert QueueOk(k, s);
      SignalOne(k, s, {k.running});
      if Th(k, p).children == 0 { GrantHeadCore(k, s, Regular, {k.running}); }
    }
  }

  lemma DyingCloseJoinAll(k: State)
    requires Dying(k, true)
    ensures Dying(Close(k, Me(k).semJoinAll).0, true)
  {
    var s := Me(k).semJoinAll;
    CloseBusy(k, s);
    CloseWakes(k, s, {k.running});
    DyingWakes(k, Close(k, s).0, s, OnClose, true);
  }

  lemma DyingRetires(k: State, status: int)
    requires Dying(k, true)
    requires !Sm(k, Me(k).semJoin).active && !Sm(k, Me(k).semJoinAll).active
    ensures JoinsInv(Retire(k, status))
  {
    RetireCore(k, status);
    RunningFree(k);
    var me := k.running;
    var k' := Retire(k, status);
    assert forall u: Tid :: u != me ==> Th(k', u) == Th(k, u);
    forall t: Tid | t < |k.threads|
      ensures JoinSemsOk(k', t) && JoinerOk(k', t, {})
    {
      if t != me { assert JoinSemsOk(k, t) && JoinerOk(k, t, {me}); }
    }
    forall t: Tid | Counted(k', t)
      ensures Kids(k', t, Live(k'.threads, t))
    {
      assert Counted(k, t) && Kids(k, t, Target(k, t, me, true));
      LiveUpdate(k.threads, me, Th(k', me), t);
    }
  }

  lemma StartsDying(k: State)
    requires Busy(k) && JoinsInv(k)
    ensures Dying(k, false)
  {
    var me := k.running;
    assert OwnsSems(k, me);
    assert JoinSemsOk(k, me);
    forall t: Tid | t < |k.threads| && t != me
      ensures JoinSemsOk(k, t) && JoinerOk(k, t, {me})
    {
      assert JoinSemsOk(k, t) && JoinerOk(k, t, {});
    }
  }

  lemma JoinsFinish(k: State, status: int)
    requires Busy(k) && JoinsInv(k)
    ensures JoinsInv(Finish(k, status))
  {
    var me := k.running;
    assert OwnsSems(k, me) && JoinSemsOk(k, me);
    StartsDying(k);
    FinishParts(k);
    DyingCloseMail(k);
    var k1 := CloseMail(k);
    CloseMailKeepsJoin(k);
    DyingCloseJoin(k1);
    var k2 := CloseJoin(k1);
    DyingNotify(k2);
    var k3 := NotifyParent(k2);
    NotifyKeepsOwn(k2);
    DyingCloseJoinAll(k3);
    var k4 := Close(k3, Me(k3).semJoinAll).0;
    CloseWakes(k3, Me(k3).semJoinAll, {me});
    DyingRetires(k4, status);
    assert Finish(k, status).threads == Retire(k4, status).threads && Finish(k, status).sems == Retire(k4, status).sems;
    JoinsSameLists(Retire(k4, status), Finish(k, status));
  }

  lemma CloseMailKeepsJoin(k: State)
    requires Busy(k)
    ensures Sm(CloseMail(k), Me(k).semJoin) == Sm(k, Me(k).semJoin)
  {
    assert OwnsSems(k, k.running);
    CloseBusy(k, Me(k).semSend);
    CloseWakes(k, Me(k).semSend, {k.running});
    CloseWakes(Close(k, Me(k).semSend).0, Me(k).semReceive, {k.running});
  }

  lemma NotifyKeepsOwn(k: State)
    requires Busy(k)
    ensures Sm(NotifyParent(k), Me(k).semJoin) == Sm(k, Me(k).semJoin)
  {
    assert OwnsSems(k, k.running);
    match Me(k).parent
    case None =>
    case Some(p) =>
      if !Th(k, p).finished {
        assert OwnsSems(k, p);
        NotifyThread(k, p, k.running);
      }
  }

  lemma JoinsSameLists(k: State, k': State)
    requires JoinsInv(k) && k'.threads == k.threads && k'.sems == k.sems
    ensures JoinsInv(k')
  {
    forall t: Tid | t < |k.threads|
      ensures JoinSemsOk(k', t) && JoinerOk(k', t, {})
    {
      assert JoinSemsOk(k, t) && JoinerOk(k, t, {});
    }
    forall t: Tid | Counted(k', t)
      ensures Kids(k', t, Live(k'.threads, t))
    {
      assert Counted(k, t) && Kids(k, t, Live(k.threads, t));
    }
  }

  // ---- every step

  lemma NextJoins(k: State, step: Step)
    requires Good(k) && JoinsInv(k) && Enabled(k, step)
    ensures JoinsInv(Next(k, step).0)
  {
    NextGood(k, step);
    match step
    case Tick => JoinsTickStep(k);
    case Resume => JoinsResume(k);
    case Sys(call) =>
      if k.running == IDLE {
        JoinsSameLists(k, Yield(k, true));
      } else {
        JoinsCall(k, call);
      }
  }

  lemma JoinsTickStep(k: State)
    requires Good(k) && JoinsInv(k)
    ensures JoinsInv(TickStep(k))
  {
    var k0 := SliceCounted(k);
    TicksGood(k, k.sliceTicks + 1);
    JoinsSameLists(k, k0);
    JoinsTick(k0);
    JoinsSameLists(OnTick(k0), TickStep(k));
  }

  lemma JoinsResume(k: State)
    requires Good(k) && JoinsInv(k) && !Me(k).cont.Run?
    ensures JoinsInv(ResumeStep(k).0)
  {
    if ContFamily(Me(k).cont) == Joins {
      JoinsWoken(k);
    } else {
      ResumeGood(k);
      ResumeApart(k, Joins);
      JoinsApart(k, ResumeStep(k).0);
    }
  }

  lemma JoinsCall(k: State, call: Call)
    requires Busy(k) && JoinsInv(k) && CallOk(k, call)
    ensures JoinsInv(Syscall(k, call).0)
  {
    SyscallGood(k, call);
    match call
    case CallCreate(slice) => JoinsCreate(k, slice);
    case CallExit(status) => JoinsFinish(k, status);
    case CallJoin(t) => if t != k.running && !Th(k, t).finished { JoinsJoin(k, t); }
    case CallTimedJoin(t, timeout) => if t != k.running && !Th(k, t).finished { JoinsTimedJoin(k, t, timeout); }
    case CallJoinAll => JoinsJoinAll(k);
    case CallTimedJoinAll(timeout) => JoinsTimedJoinAll(k, timeout);
    case _ =>
      CallApart(k, call, Joins);
      JoinsApart(k, Syscall(k, call).0);
  }
}
