/** The level of a semaphore: its value plus the tokens granted to threads that have not run since.
    A one-token signal raises it by one, a completed one-token wait lowers it by one, and nothing
    else moves it. */
module Levels {
  import opened KernelTypes
  import opened KernelSpec
  import opened PlaceInvariant
  import opened Effects
  import opened LinkInvariant
  import opened KernelSteps
  import opened Families
  import opened Counting

  ghost function Level(k: State, s: Sid): nat {
    Sm(k, s).value + Granted(k.threads, s)
  }

  ghost predicate OneTokenQueue(x: Sem) {
    forall i :: 0 <= i < |x.queue| ==> x.queue[i].n == 1
  }

  /** A granted thread's continuation belongs to the family of the semaphore. */
  lemma GrantedFamily(k: State, u: Tid, s: Sid)
    requires Linked(k) && u < |k.threads| && IsGranted(Th(k, u), s)
    ensures s < |k.sems| && WhyOk(k, u, s, Th(k, u).cont.why)
    ensures ContFamily(Th(k, u).cont) == KindFamily(Sm(k, s).kind)
  {
    assert ContOk(k, u);
    WhyFamilyOk(k, u, s, Th(k, u).cont.why);
  }

  lemma GrantedApart(k: State, k': State, f: Family, s: Sid)
    requires Linked(k) && Linked(k') && Apart(k, k', f)
    requires s < |k.sems| && KindFamily(Sm(k, s).kind) == f
    ensures Granted(k'.threads, s) == Granted(k.threads, s)
  {
    forall u | 0 <= u < |k.threads|
      ensures IsGranted(k.threads[u], s) == IsGranted(k'.threads[u], s)
    {
      assert ThreadApart(Th(k, u), Th(k', u), f);
      if IsGranted(Th(k, u), s) { GrantedFamily(k, u, s); }
      if IsGranted(Th(k', u), s) { GrantedFamily(k', u, s); }
    }
    GrantedSame(k.threads, k'.threads, s);
  }

  /** Waking waiters of s changes no other semaphore's count. */
  lemma GrantedElsewhere(k: State, k': State, s: Sid, m: Manner, x: Sid)
    requires Linked(k) && WakesAt(k, k', s, m) && x != s
    ensures Granted(k'.threads, x) == Granted(k.threads, x)
  {
    forall u | 0 <= u < |k.threads|
      ensures IsGranted(k.threads[u], x) == IsGranted(k'.threads[u], x)
    {
      assert ContOk(k, u);
      assert Th(k', u) == Th(k, u) || (Th(k, u).blockedAt == Some(s) && Woken(Th(k, u), Th(k', u), m));
    }
    GrantedSame(k.threads, k'.threads, x);
  }

  /** One token more. */
  lemma LevelSignal(k: State, s: Sid)
    requires Busy(k) && s < |k.sems| && Sm(k, s).active && OneTokenQueue(Sm(k, s)) && Sm(k, s).value < TWO64 - 1
    ensures var k' := Signal(k, s, 1).0;
      && Level(k', s) == Level(k, s) + 1
      && Sm(k', s).active && OneTokenQueue(Sm(k', s)) && Sm(k', s).kind == Sm(k, s).kind
      && (Sm(k, s).queue == [] ==> Sm(k', s) == Sm(k, s).(value := Sm(k, s).value + 1) && k'.threads == k.threads)
  {
    var q := Sm(k, s).queue;
    SignalOne(k, s, {k.running});
    if q != [] {
      var t := q[0].tid;
      GrantHeadCore(k, s, Regular, {k.running});
      assert ContOk(k, t);
      GrantedUpdate(k.threads, t, Th(k, t).(blockedAt := None, sleeps := false, manner := Regular), s);
    }
  }

  /** One token less, at once; or the caller queues and the level stays. */
  ghost predicate LevelWaited(k: State, k': State, w: Option<int>, s: Sid) {
    && (w.Some? <==> Sm(k, s).value >= 1)
    && (w.Some? ==> Level(k', s) + 1 == Level(k, s) && Sm(k', s) == Sm(k, s).(value := Sm(k, s).value - 1))
    && (w.None? ==> Level(k', s) == Level(k, s))
    && Sm(k', s).active && OneTokenQueue(Sm(k', s)) && Sm(k', s).kind == Sm(k, s).kind
    && (forall x: Sid :: x != s ==> Sm(k', x) == Sm(k, x) && Granted(k'.threads, x) == Granted(k.threads, x))
    && |k'.threads| == |k.threads| && (forall u: Tid :: Th(k', u).message == Th(k, u).message)
  }

  /** A wait of the running thread changes the counts of s only. */
  lemma MovedGranted(k: State, k': State, s: Sid, why: Why)
    requires Busy(k) && Moved(k, k', s, why)
    requires Th(k', k.running).cont.Run? || Th(k', k.running).blockedAt == Some(s)
    ensures forall x: Sid :: Granted(k'.threads, x) == Granted(k.threads, x)
  {
    RunningFree(k);
    var me := k.running;
    forall x: Sid
      ensures Granted(k'.threads, x) == Granted(k.threads, x)
    {
      GrantedUpdate(k.threads, me, Th(k', me), x);
    }
  }

  lemma LevelWait(k: State, s: Sid, why: Why)
    requires Busy(k) && s < |k.sems| && Sm(k, s).active && OneTokenQueue(Sm(k, s))
    requires WhyOk(k, k.running, s, why)
    ensures LevelWaited(k, Wait(k, s, 1, why).0, Wait(k, s, 1, why).1, s)
  {
    WaitMoves(k, s, 1, why);
    WaitEffect(k, s, 1, why);
    RunningFree(k);
    MovedGranted(k, Wait(k, s, 1, why).0, s, why);
  }

  /** A granted thread runs: its token is taken. */
  lemma LevelWoken(k: State, x: Sid)
    requires Good(k) && Me(k).cont.Waiting?
    ensures var k1 := WithCont(k, Run);
      Granted(k1.threads, x) + (if x == Me(k).cont.s then 1 else 0) == Granted(k.threads, x)
  {
    RunningFree(k);
    GrantedUpdate(k.threads, k.running, Me(k).(cont := Run), x);
  }

  lemma GrantedCreate(k: State, slice: nat, x: Sid)
    requires Busy(k)
    ensures Granted(Create(k, slice).threads, x) == if x < |k.sems| then Granted(k.threads, x) else 0
  {
    CreateEffect(k, slice);
    RunningFree(k);
    var k' := Create(k, slice);
    var n := |k.threads|;
    var ts := k.threads + [Th(k', n)];
    assert ts[..n] == k.threads;
    GrantedUpdate(ts, k.running, Me(k'), x);
    if x >= |k.sems| {
      forall u | 0 <= u < n
        ensures !IsGranted(k.threads[u], x)
      {
        assert ContOk(k, u);
      }
      GrantedNone(k.threads, x);
    }
  }

  lemma GrantedRetire(k: State, status: int, x: Sid)
    requires Busy(k)
    ensures Granted(Retire(k, status).threads, x) == Granted(k.threads, x)
  {
    RunningFree(k);
    RetireCore(k, status);
    GrantedUpdate(k.threads, k.running, Me(k).(exitStatus := status, finished := true), x);
  }
}
