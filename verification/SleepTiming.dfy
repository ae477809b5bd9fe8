/** A sleeper becomes ready on exactly the tick it asked for, and sleepers due together become ready
    in the order in which they were put. */
module SleepTiming {
  import opened Entries
  import opened KernelTypes
  import opened SleepSpec
  import opened KernelSpec
  import opened PlaceInvariant
  import opened Effects
  import opened KernelSteps
  import opened StepEffects
  import opened KernelRuns

  /** The sleepers at the front of the list whose time is up. */
  function DueIds(l: seq<Entry>): seq<Tid> {
    if l != [] && l[0].n == 0 then [l[0].tid] + DueIds(l[1..]) else []
  }

  function DropDue(l: seq<Entry>): seq<Entry> {
    if l != [] && l[0].n == 0 then DropDue(l[1..]) else l
  }

  /** The loop of onTick makes ready exactly the due sleepers, in list order. */
  lemma {:induction false} ExpireLoopDue(k: State, limbo: set<Tid>) returns (r: State)
    requires Core(k, limbo)
    ensures r == ExpireLoop(k)
    ensures r.ready == k.ready + DueIds(k.sleepers) && r.sleepers == DropDue(k.sleepers)
    decreases |k.sleepers|
  {
    r := k;
    if k.sleepers != [] && k.sleepers[0].n == 0 {
      ExpireOneDue(k, limbo);
      r := ExpireLoopDue(ExpireHead(k), limbo);
    }
  }

  lemma ExpireOneDue(k: State, limbo: set<Tid>)
    requires Core(k, limbo) && k.sleepers != [] && k.sleepers[0].n == 0
    ensures Core(ExpireHead(k), limbo)
    ensures ExpireHead(k).ready == k.ready + [k.sleepers[0].tid] && ExpireHead(k).sleepers == k.sleepers[1..]
  {
    ExpireHeadCore(k, limbo);
    PopDue(k.sleepers);
  }

  /** Popping a due head leaves the other deadlines alone. */
  lemma PopDue(l: seq<Entry>)
    requires l != [] && l[0].n == 0 && Distinct(l) && Total(l) < TWO64
    ensures Remove(l, 0) == l[1..]
    ensures Deadlines(l, 0) == Deadlines(l[1..], 0)[l[0].tid := 0]
    ensures l[0].tid !in Deadlines(l[1..], 0)
  {
    RemoveFirst(l);
    RestDistinct(l);
    DeadlinesDomain(l[1..], 0);
    if |l| > 1 { RemoveTotal(l, 0); }
  }

  lemma NothingDue(l: seq<Entry>)
    requires l == [] || l[0].n > 0
    ensures forall t :: t in Deadlines(l, 0) ==> Deadlines(l, 0)[t] > 0
    ensures DueIds(l) == []
  {
    if l != [] { DeadlinesDomain(l[1..], l[0].n); }
  }

  /** Exactly those whose deadline has come are dropped. */
  lemma {:induction false} DropDueMeaning(l: seq<Entry>)
    requires Distinct(l) && Total(l) < TWO64
    ensures var d, d' := Deadlines(l, 0), Deadlines(DropDue(l), 0);
      && (forall t :: t in d' <==> t in d && d[t] > 0)
      && (forall t :: t in d' ==> d'[t] == d[t])
      && (forall t :: t in DueIds(l) <==> t in d && d[t] == 0)
  {
    if l != [] && l[0].n == 0 {
      PopDue(l);
      RestDistinct(l);
      DropDueMeaning(l[1..]);
      assert forall t :: t in DueIds(l) <==> t == l[0].tid || t in DueIds(l[1..]);
    } else {
      NothingDue(l);
    }
  }

  /** Whom the next tick wakes. */
  function WokenIds(k: State): seq<Tid> {
    DueIds(Decrement(k.sleepers))
  }

  /** A tick: every deadline comes one closer, and those that were at one are met. */
  lemma TickDeadlines(k: State)
    requires Good(k)
    ensures var k1 := OnTick(k);
      var d, d' := Deadlines(k.sleepers, 0), Deadlines(k1.sleepers, 0);
      && (forall t :: t in d ==> d[t] >= 1)
      && (forall t :: t in d' <==> t in d && d[t] > 1)
      && (forall t :: t in d' ==> d'[t] == d[t] - 1)
      && k1.ready == k.ready + WokenIds(k)
      && (forall t :: t in WokenIds(k) <==> t in d && d[t] == 1)
  {
    TickRefines(k.sleepers, 0);
    DeadlinesShift(Decrement(k.sleepers), 0, 1);
    NothingDue(k.sleepers);
    var k0 := DeltasCounted(k);
    DecrementCore(k, {k.running});
    var r := ExpireLoopDue(k0, {k.running});
    DropDueMeaning(k0.sleepers);
  }

  lemma {:induction false} DueInOrder(l: seq<Entry>, a: Tid, b: Tid)
    requires Distinct(l) && Before(l, a, b) && a in DueIds(l) && b in DueIds(l)
    ensures exists i, j :: 0 <= i < j < |DueIds(l)| && DueIds(l)[i] == a && DueIds(l)[j] == b
  {
    var i, j :| 0 <= i < j < |l| && l[i].tid == a && l[j].tid == b;
    DuePrefix(l);
    var p, q :| 0 <= p < |DueIds(l)| && 0 <= q < |DueIds(l)| && DueIds(l)[p] == a && DueIds(l)[q] == b;
    assert l[p].tid == a && l[q].tid == b;
    assert p == i && q == j;
  }

  lemma {:induction false} DuePrefix(l: seq<Entry>)
    ensures |DueIds(l)| <= |l|
    ensures forall i :: 0 <= i < |DueIds(l)| ==> DueIds(l)[i] == l[i].tid
  {
    if l != [] && l[0].n == 0 {
      DuePrefix(l[1..]);
    }
  }

  /** Sleepers due on the same tick become ready in list order, which (InsertedLast, OthersKept) is
      the order in which they were put. */
  lemma DueTogether(k: State, a: Tid, b: Tid)
    requires Good(k) && Before(k.sleepers, a, b)
    requires a in Deadlines(k.sleepers, 0) && b in Deadlines(k.sleepers, 0)
    requires Deadlines(k.sleepers, 0)[a] == 1 && Deadlines(k.sleepers, 0)[b] == 1
    ensures OnTick(k).ready == k.ready + WokenIds(k)
    ensures exists i, j :: 0 <= i < j < |WokenIds(k)| && WokenIds(k)[i] == a && WokenIds(k)[j] == b
  {
    TickDeadlines(k);
    var k0 := DeltasCounted(k);
    DecrementCore(k, {k.running});
    var i, j :| 0 <= i < j < |k.sleepers| && k.sleepers[i].tid == a && k.sleepers[j].tid == b;
    assert k0.sleepers[i].tid == a && k0.sleepers[j].tid == b;
    assert Before(k0.sleepers, a, b);
    DueInOrder(k0.sleepers, a, b);
  }

  ghost predicate Asleep(k: State, u: Tid) {
    u < |k.threads| && Th(k, u).sleeps
  }

  ghost function TicksLeft(k: State, u: Tid): nat {
    if u in Deadlines(k.sleepers, 0) then Deadlines(k.sleepers, 0)[u] else 0
  }

  lemma AsleepListed(k: State, u: Tid)
    requires Steady(k)
    ensures Asleep(k, u) <==> u in Deadlines(k.sleepers, 0)
  {
    DeadlinesDomain(k.sleepers, 0);
  }

  lemma SleeperOnTick(k: State, u: Tid)
    requires Good(k) && Asleep(k, u)
    ensures TicksLeft(k, u) >= 1
    ensures var k1 := OnTick(k);
      && Good(k1)
      && (TicksLeft(k, u) > 1 ==> Asleep(k1, u) && TicksLeft(k1, u) == TicksLeft(k, u) - 1)
      && (TicksLeft(k, u) == 1 ==> !Asleep(k1, u) && u in k1.ready)
  {
    AsleepListed(k, u);
    OnTickGood(k);
    TickDeadlines(k);
    AsleepListed(OnTick(k), u);
    if TicksLeft(k, u) == 1 { assert u in WokenIds(k); }
  }

  /** A tick brings a sleeper one closer and wakes it exactly when it was at one. */
  lemma SleeperTick(k: State, u: Tid)
    requires Good(k) && Asleep(k, u)
    ensures TicksLeft(k, u) >= 1
    ensures var k' := TickStep(k);
      && (TicksLeft(k, u) > 1 ==> Asleep(k', u) && TicksLeft(k', u) == TicksLeft(k, u) - 1)
      && (TicksLeft(k, u) == 1 ==> !Asleep(k', u) && (u in k'.ready || k'.running == u))
  {
    var k0 := SliceCounted(k);
    TicksGood(k, k.sliceTicks + 1);
    SleeperOnTick(k0, u);
    SleeperAfter(OnTick(k0), TickStep(k), u);
  }

  /** The scheduling decision moves nobody but the first ready thread. */
  lemma SleeperAfter(k1: State, k': State, u: Tid)
    requires k' == k1 || k' == Yield(k1, true)
    ensures Asleep(k', u) == Asleep(k1, u) && TicksLeft(k', u) == TicksLeft(k1, u)
    ensures u in k1.ready ==> u in k'.ready || k'.running == u
  {
    if u in k1.ready { YieldKeepsReady(k1, u); }
  }

  /** Other steps leave a sleeper alone unless they take it off a semaphore's queue. */
  lemma SleeperStep(k: State, step: Step, u: Tid)
    requires Good(k) && Enabled(k, step) && !step.Tick? && Asleep(k, u)
    ensures var k' := Next(k, step).0;
      && (Th(k, u).blockedAt.None? ==> Th(k', u).blockedAt.None?)
      && (Th(k', u).blockedAt == Th(k, u).blockedAt ==> Asleep(k', u) && TicksLeft(k', u) == TicksLeft(k, u))
  {
    AsleepListed(k, u);
    NextGood(k, step);
    AsleepListed(Next(k, step).0, u);
    RunningFree(k);
    StepFair(k, step);
    assert Calm(k, Next(k, step).0, u);
  }

  /** A tick that does not wake a sleeper changes nothing about it. */
  lemma SleeperTicked(k: State, u: Tid)
    requires Good(k) && Asleep(k, u) && Asleep(TickStep(k), u)
    ensures Th(TickStep(k), u) == Th(k, u)
  {
    var k1 := TickParts(k);
    assert Th(k1, u) == Th(k, u) || Expired(Th(k, u), Th(k1, u));
  }

  lemma YieldKeepsReady(k: State, u: Tid)
    requires u in k.ready
    ensures u in Yield(k, true).ready || Yield(k, true).running == u
  {
    var me := Me(k);
    var k1 := if !me.finished && me.blockedAt.None? && !me.sleeps then SchedPut(k, k.running) else k;
    var i :| 0 <= i < |k.ready| && k.ready[i] == u;
    assert k1.ready[i] == u;
    if i > 0 { assert k1.ready[1..][i - 1] == u; }
  }

  // ---- runs

  /** No signal or close takes u off the queue of its semaphore in steps i to j - 1. */
  ghost predicate NotReleased(r: Trace, u: Tid, i: nat, j: nat)
    requires |r.states| == |r.steps| + 1 && j <= |r.steps|
  {
    forall m: nat :: i <= m < j && !r.steps[m].Tick? ==>
      Th(r.states[m + 1], u).blockedAt == Th(r.states[m], u).blockedAt
  }

  lemma TicksNext(r: Trace, i: nat)
    requires i < |r.steps|
    ensures Ticks(r.steps[..i + 1]) == Ticks(r.steps[..i]) + if r.steps[i].Tick? then 1 else 0
  {
    assert r.steps[..i + 1][..i] == r.steps[..i];
  }

  /** One step of a run in which u is not woken. */
  lemma SleeperOn(r: Trace, u: Tid, i: nat)
    requires ValidTrace(r) && i < |r.steps| && Good(r.states[i]) && Asleep(r.states[i], u)
    requires r.steps[i].Tick? ==> TicksLeft(r.states[i], u) > 1
    requires NotReleased(r, u, i, i + 1)
    ensures Good(r.states[i + 1]) && Asleep(r.states[i + 1], u)
    ensures TicksLeft(r.states[i + 1], u) + (if r.steps[i].Tick? then 1 else 0) == TicksLeft(r.states[i], u)
  {
    assert StepOf(r, i);
    NextGood(r.states[i], r.steps[i]);
    if r.steps[i].Tick? { SleeperTick(r.states[i], u); } else { SleeperStep(r.states[i], r.steps[i], u); }
  }

  /** While ticks are left and nobody releases it, a sleeper sleeps on and its remaining time is what
      is left of its timeout, whatever others insert and remove meanwhile. */
  lemma {:induction false} SleepCountdown(r: Trace, u: Tid, j: nat)
    requires ValidTrace(r) && Good(r.states[0]) && j <= |r.steps| && Asleep(r.states[0], u)
    requires NotReleased(r, u, 0, j) && Ticks(r.steps[..j]) < TicksLeft(r.states[0], u)
    ensures Good(r.states[j]) && Asleep(r.states[j], u)
    ensures TicksLeft(r.states[j], u) + Ticks(r.steps[..j]) == TicksLeft(r.states[0], u)
  {
    if j > 0 {
      TicksNext(r, j - 1);
      SleepCountdown(r, u, j - 1);
      SleeperOn(r, u, j - 1);
    } else {
      assert r.steps[..0] == [];
    }
  }

  /** A sleeper with t ticks to go that nobody releases sleeps through t - 1 ticks (SleepCountdown) and
      is ready after exactly the t-th. */
  lemma WakesExactly(r: Trace, u: Tid, j: nat)
    requires ValidTrace(r) && Good(r.states[0]) && j < |r.steps| && Asleep(r.states[0], u)
    requires NotReleased(r, u, 0, j)
    requires r.steps[j].Tick? && Ticks(r.steps[..j + 1]) == TicksLeft(r.states[0], u)
    ensures !Asleep(r.states[j + 1], u) && (u in r.states[j + 1].ready || r.states[j + 1].running == u)
  {
    TicksNext(r, j);
    SleepCountdown(r, u, j);
    WokenOn(r, u, j);
  }

  lemma WokenOn(r: Trace, u: Tid, i: nat)
    requires ValidTrace(r) && i < |r.steps| && r.steps[i].Tick?
    requires Good(r.states[i]) && Asleep(r.states[i], u) && TicksLeft(r.states[i], u) == 1
    ensures !Asleep(r.states[i + 1], u) && (u in r.states[i + 1].ready || r.states[i + 1].running == u)
  {
    assert StepOf(r, i);
    SleeperTick(r.states[i], u);
  }

  lemma UntimedOn(r: Trace, u: Tid, i: nat)
    requires ValidTrace(r) && i < |r.steps| && Good(r.states[i]) && Asleep(r.states[i], u)
    requires Th(r.states[i], u).blockedAt.None?
    ensures !r.steps[i].Tick? ==> Th(r.states[i + 1], u).blockedAt.None?
    ensures r.steps[i].Tick? && Asleep(r.states[i + 1], u) ==> Th(r.states[i + 1], u).blockedAt.None?
  {
    assert StepOf(r, i);
    if r.steps[i].Tick? {
      if Asleep(r.states[i + 1], u) { SleeperTicked(r.states[i], u); }
    } else {
      SleeperStep(r.states[i], r.steps[i], u);
    }
  }

  /** A thread that just sleeps is released by nobody. */
  lemma {:induction false} JustSleeps(r: Trace, u: Tid, j: nat)
    requires ValidTrace(r) && Good(r.states[0]) && j <= |r.steps| && Asleep(r.states[0], u)
    requires Th(r.states[0], u).blockedAt.None? && Ticks(r.steps[..j]) < TicksLeft(r.states[0], u)
    ensures NotReleased(r, u, 0, j) && Th(r.states[j], u).blockedAt.None?
  {
    if j > 0 {
      TicksNext(r, j - 1);
      JustSleeps(r, u, j - 1);
      SleepCountdown(r, u, j - 1);
      UntimedOn(r, u, j - 1);
      assert NotReleased(r, u, 0, j);
      SleepCountdown(r, u, j);
    } else {
      assert r.steps[..0] == [];
    }
  }

  // ---- falling asleep

  /** The time limit of a call that may suspend its caller for a limited time. */
  function TimeoutOf(call: Call): Option<nat> {
    match call
    case CallSleep(timeout) => Some(timeout)
    case CallTimedJoin(_, timeout) => Some(timeout)
    case CallTimedJoinAll(timeout) => Some(timeout)
    case CallSemTimedWait(_, timeout, _) => Some(timeout)
    case _ => None
  }

  lemma SuspendsAsleep(k: State, call: Call)
    requires Busy(k) && CallOk(k, call) && TimeoutOf(call).Some? && Syscall(k, call).1.Suspended?
    ensures var k' := Syscall(k, call).0;
      && 0 < TimeoutOf(call).value < TWO64
      && k'.sleepers == Insert(k.sleepers, k.running, TimeoutOf(call).value)
      && Asleep(k', k.running)
  {
    RunningFree(k);
    match call
    case CallSleep(timeout) => SleepEffect(k, timeout);
    case CallTimedJoin(t, timeout) => TimedWaitEffect(k, Th(k, t).semJoin, timeout, 1, ForJoin(t));
    case CallTimedJoinAll(timeout) => TimedWaitEffect(k, Me(k).semJoinAll, timeout, Me(k).children, ForTimedJoinAll);
    case CallSemTimedWait(s, timeout, tokens) => TimedWaitEffect(k, s, timeout, tokens, ForSem);
  }

  /** A call that suspends its caller for at most t ticks starts the countdown at t, behind everybody
      due by then. */
  lemma FallsAsleep(k: State, call: Call, a: Tid)
    requires Busy(k) && CallOk(k, call) && TimeoutOf(call).Some? && Syscall(k, call).1.Suspended?
    ensures var k' := Syscall(k, call).0;
      && Asleep(k', k.running) && TicksLeft(k', k.running) == TimeoutOf(call).value
      && (Asleep(k, a) && TicksLeft(k, a) <= TimeoutOf(call).value ==> Before(k'.sleepers, a, k.running))
  {
    var me, timeout := k.running, TimeoutOf(call).value;
    SuspendsAsleep(k, call);
    RunningFree(k);
    SleeperAbsent(k);
    InsertRefines(k.sleepers, me, timeout, 0);
    AsleepListed(k, a);
    if Asleep(k, a) && TicksLeft(k, a) <= timeout { InsertedLast(k.sleepers, me, timeout, a); }
  }

  // ---- order among sleepers

  lemma {:induction false} DropDueBefore(l: seq<Entry>, a: Tid, b: Tid)
    requires Before(DropDue(l), a, b)
    ensures Before(l, a, b)
  {
    if l != [] && l[0].n == 0 {
      DropDueBefore(l[1..], a, b);
      var i, j :| 0 <= i < j < |l[1..]| && l[1..][i].tid == a && l[1..][j].tid == b;
      assert l[i + 1].tid == a && l[j + 1].tid == b;
    }
  }

  lemma OrderTick(k: State, a: Tid, b: Tid)
    requires Good(k) && Before(OnTick(k).sleepers, a, b)
    ensures Before(k.sleepers, a, b)
  {
    var l := Decrement(k.sleepers);
    DecrementCore(k, {k.running});
    var r := ExpireLoopDue(k.(sleepers := l), {k.running});
    DropDueBefore(l, a, b);
    var i, j :| 0 <= i < j < |l| && l[i].tid == a && l[j].tid == b;
    assert k.sleepers[i].tid == a && k.sleepers[j].tid == b;
  }

  lemma NotOvertaken(k: State, step: Step, a: Tid, b: Tid)
    requires Good(k) && Enabled(k, step) && a != k.running && b != k.running
    requires Before(Next(k, step).0.sleepers, b, a)
    ensures Before(k.sleepers, b, a)
  {
    if step.Tick? {
      var k1 := TickParts(k);
      OrderTick(SliceCounted(k), b, a);
    } else {
      StepFair(k, step);
    }
  }

  /** No step lets one sleeper overtake another. */
  lemma OrderStep(k: State, step: Step, a: Tid, b: Tid)
    requires Good(k) && Enabled(k, step) && Before(k.sleepers, a, b)
    requires Asleep(Next(k, step).0, a) && Asleep(Next(k, step).0, b)
    ensures Before(Next(k, step).0.sleepers, a, b)
  {
    var k' := Next(k, step).0;
    NextGood(k, step);
    assert Has(k'.sleepers, a) && Has(k'.sleepers, b);
    assert Has(k.sleepers, a) && Has(k.sleepers, b);
    RunningFree(k);
    if Before(k'.sleepers, b, a) { NotOvertaken(k, step, a, b); }
    OrderBack(k.sleepers, k'.sleepers, a, b);
  }

  lemma OrderOn(r: Trace, i: nat, a: Tid, b: Tid)
    requires ValidTrace(r) && i < |r.steps| && Good(r.states[i]) && Before(r.states[i].sleepers, a, b)
    requires Asleep(r.states[i + 1], a) && Asleep(r.states[i + 1], b)
    ensures Good(r.states[i + 1]) && Before(r.states[i + 1].sleepers, a, b)
  {
    assert StepOf(r, i);
    NextGood(r.states[i], r.steps[i]);
    OrderStep(r.states[i], r.steps[i], a, b);
  }

  lemma {:induction false} OrderStands(r: Trace, a: Tid, b: Tid, j: nat)
    requires ValidTrace(r) && Good(r.states[0]) && j <= |r.steps|
    requires Before(r.states[0].sleepers, a, b)
    requires forall m: nat :: m <= j ==> Asleep(r.states[m], a)
    requires forall m: nat :: m <= j ==> Asleep(r.states[m], b)
    ensures Good(r.states[j]) && Before(r.states[j].sleepers, a, b)
  {
    if j > 0 {
      OrderStands(r, a, b, j - 1);
      assert Asleep(r.states[j], a) && Asleep(r.states[j], b);
      OrderOn(r, j - 1, a, b);
    }
  }

  /** a runs, or will run, before b. */
  ghost predicate InTurn(k: State, a: Tid, b: Tid) {
    || (k.running == a && b in k.ready)
    || (exists i, j :: 0 <= i < j < |k.ready| && k.ready[i] == a && k.ready[j] == b)
  }

  lemma YieldInTurn(k: State, a: Tid, b: Tid, i: nat, j: nat)
    requires i < j < |k.ready| && k.ready[i] == a && k.ready[j] == b
    ensures InTurn(Yield(k, true), a, b)
  {
    var q := Requeued(k, true).ready;
    assert q[i] == a && q[j] == b;
    assert q[1..][j - 1] == b;
    if i > 0 { assert q[1..][i - 1] == a; }
  }

  lemma WokenInTurn(k: State, l: seq<Tid>, w: seq<Tid>, a: Tid, b: Tid)
    requires k.ready == l + w
    requires exists i, j :: 0 <= i < j < |w| && w[i] == a && w[j] == b
    ensures InTurn(k, a, b) && InTurn(Yield(k, true), a, b)
  {
    var i, j :| 0 <= i < j < |w| && w[i] == a && w[j] == b;
    assert k.ready[|l| + i] == a && k.ready[|l| + j] == b;
    YieldInTurn(k, a, b, |l| + i, |l| + j);
  }

  lemma TickYields(k: State)
    ensures var k1 := OnTick(SliceCounted(k));
      TickStep(k) == k1 || TickStep(k) == Yield(k1, true)
  {
  }

  lemma DueInTurn(k: State, a: Tid, b: Tid)
    requires Good(k) && Before(k.sleepers, a, b)
    requires Asleep(k, a) && Asleep(k, b) && TicksLeft(k, a) == 1 && TicksLeft(k, b) == 1
    ensures InTurn(TickStep(k), a, b)
  {
    var k0 := SliceCounted(k);
    TicksGood(k, k.sliceTicks + 1);
    AsleepListed(k, a);
    AsleepListed(k, b);
    DueTogether(k0, a, b);
    WokenInTurn(OnTick(k0), k0.ready, WokenIds(k0), a, b);
    TickYields(k);
  }

  /** The run from state 1 on. */
  lemma RestOf(r: Trace) returns (q: Trace)
    requires ValidTrace(r) && 0 < |r.steps| && Good(r.states[0])
    ensures q == Trace(r.states[1..], r.steps[1..]) && ValidTrace(q) && Good(q.states[0])
  {
    q := Trace(r.states[1..], r.steps[1..]);
    forall x: nat | x < |q.steps|
      ensures StepOf(q, x)
    {
      assert StepOf(r, x + 1);
    }
    assert StepOf(r, 0);
    NextGood(r.states[0], r.steps[0]);
  }

  lemma FallsAsleepOn(r: Trace, call: Call, a: Tid)
    requires ValidTrace(r) && Busy(r.states[0]) && 0 < |r.steps| && r.steps[0] == Sys(call)
    requires TimeoutOf(call).Some? && Syscall(r.states[0], call).1.Suspended?
    ensures var u := r.states[0].running;
      && Asleep(r.states[1], u) && TicksLeft(r.states[1], u) == TimeoutOf(call).value
      && (call.CallSleep? ==> Th(r.states[1], u).blockedAt.None?)
      && (Asleep(r.states[0], a) && TicksLeft(r.states[0], a) <= TimeoutOf(call).value ==>
            Before(r.states[1].sleepers, a, u))
  {
    assert StepOf(r, 0);
    FallsAsleep(r.states[0], call, a);
    RunningFree(r.states[0]);
    if call.CallSleep? { SleepEffect(r.states[0], call.timeout); }
  }

  /** time_sleep(t), t > 0: the caller sleeps through t - 1 ticks and is ready after exactly the t-th,
      whatever happens meanwhile. */
  lemma SleepsExactly(r: Trace, timeout: nat, j: nat)
    requires ValidTrace(r) && Busy(r.states[0]) && 0 < j <= |r.steps|
    requires r.steps[0] == Sys(CallSleep(timeout)) && timeout > 0
    ensures var u := r.states[0].running;
      && (Ticks(r.steps[..j]) < timeout ==> Asleep(r.states[j], u))
      && (Ticks(r.steps[..j]) == timeout && r.steps[j - 1].Tick? ==>
            !Asleep(r.states[j], u) && (u in r.states[j].ready || r.states[j].running == u))
  {
    var u := r.states[0].running;
    FallsAsleepOn(r, CallSleep(timeout), u);
    var q := RestOf(r);
    TicksFirst(r.steps, j);
    if Ticks(r.steps[..j]) < timeout {
      JustSleeps(q, u, j - 1);
      SleepCountdown(q, u, j - 1);
    } else if Ticks(r.steps[..j]) == timeout && r.steps[j - 1].Tick? {
      TicksNext(q, j - 2);
      JustSleeps(q, u, j - 2);
      WakesExactly(q, u, j - 2);
    }
  }

  lemma {:induction false} TicksGrow(r: Trace, i: nat, j: nat)
    requires i <= j <= |r.steps|
    ensures Ticks(r.steps[..i]) <= Ticks(r.steps[..j])
  {
    if i < j {
      TicksGrow(r, i, j - 1);
      TicksNext(r, j - 1);
    }
  }

  /** Two sleepers that stay asleep keep their order. */
  lemma BothSleep(r: Trace, a: Tid, b: Tid, j: nat)
    requires ValidTrace(r) && Good(r.states[0]) && j <= |r.steps|
    requires Asleep(r.states[0], a) && Asleep(r.states[0], b) && Before(r.states[0].sleepers, a, b)
    requires NotReleased(r, a, 0, j) && NotReleased(r, b, 0, j)
    requires Ticks(r.steps[..j]) < TicksLeft(r.states[0], a) && Ticks(r.steps[..j]) < TicksLeft(r.states[0], b)
    ensures Good(r.states[j]) && Before(r.states[j].sleepers, a, b)
    ensures Asleep(r.states[j], a) && TicksLeft(r.states[j], a) + Ticks(r.steps[..j]) == TicksLeft(r.states[0], a)
    ensures Asleep(r.states[j], b) && TicksLeft(r.states[j], b) + Ticks(r.steps[..j]) == TicksLeft(r.states[0], b)
  {
    forall m: nat | m <= j
      ensures Asleep(r.states[m], a) && Asleep(r.states[m], b)
    {
      TicksGrow(r, m, j);
      SleepCountdown(r, a, m);
      SleepCountdown(r, b, m);
    }
    OrderStands(r, a, b, j);
    SleepCountdown(r, a, j);
    SleepCountdown(r, b, j);
  }

  lemma DueOn(r: Trace, a: Tid, b: Tid, i: nat)
    requires ValidTrace(r) && i < |r.steps| && r.steps[i].Tick?
    requires Good(r.states[i]) && Before(r.states[i].sleepers, a, b)
    requires Asleep(r.states[i], a) && TicksLeft(r.states[i], a) == 1
    requires Asleep(r.states[i], b) && TicksLeft(r.states[i], b) == 1
    ensures InTurn(r.states[i + 1], a, b)
  {
    assert StepOf(r, i);
    DueInTurn(r.states[i], a, b);
  }

  /** a sleeps with t ticks to go when b's call suspends b for t ticks.  If nobody releases them, both
      become ready on the same tick, a ahead of b. */
  lemma DueInCallOrder(r: Trace, call: Call, a: Tid, j: nat)
    requires ValidTrace(r) && Busy(r.states[0]) && 0 < j < |r.steps| && r.steps[0] == Sys(call)
    requires TimeoutOf(call).Some? && Syscall(r.states[0], call).1.Suspended?
    requires Asleep(r.states[0], a) && TicksLeft(r.states[0], a) == TimeoutOf(call).value
    requires NotReleased(r, a, 0, j) && NotReleased(r, r.states[0].running, 1, j)
    requires r.steps[j].Tick? && Ticks(r.steps[..j + 1]) == TimeoutOf(call).value
    ensures var b := r.states[0].running;
      !Asleep(r.states[j + 1], a) && !Asleep(r.states[j + 1], b) && InTurn(r.states[j + 1], a, b)
  {
    var b := r.states[0].running;
    FallsAsleepOn(r, call, a);
    var q := RestOf(r);
    TicksFirst(r.steps, j);
    TicksFirst(r.steps, 1);
    TicksNext(r, j);
    SleepCountdown(r, a, 1);
    BothSleep(q, a, b, j - 1);
    WokenOn(r, a, j);
    WokenOn(r, b, j);
    DueOn(r, a, b, j);
  }

  lemma {:induction false} TicksFirst(steps: seq<Step>, j: nat)
    requires 0 < j <= |steps| && !steps[0].Tick?
    ensures Ticks(steps[..j]) == Ticks(steps[1..][..j - 1])
  {
    assert steps[..j][..j - 1] == steps[..j - 1];
    if j > 1 {
      assert steps[1..][..j - 1][..j - 2] == steps[1..][..j - 2];
      TicksFirst(steps, j - 1);
    } else {
      assert steps[..1][..0] == [];
    }
  }
}
