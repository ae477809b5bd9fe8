/** Waiting at a semaphore: nobody barges past the queue, waiters are served in order, and the
    result of a wait names the step that ended it. */
module WaitOrder {
  import opened Entries
  import opened KernelTypes
  import opened KernelSpec
  import opened PlaceInvariant
  import opened Effects
  import opened LinkInvariant
  import opened KernelSteps
  import opened StepEffects
  import opened KernelRuns

  ghost predicate WaitsAt(k: State, u: Tid, s: Sid) {
    u < |k.threads| && Th(k, u).blockedAt == Some(s)
  }

  lemma WaitsListed(k: State, u: Tid, s: Sid)
    requires Steady(k)
    ensures WaitsAt(k, u, s) <==> s < |k.sems| && Has(Sm(k, s).queue, u)
  {
    if WaitsAt(k, u, s) {
      assert ThreadOk(k, u, {k.running});
      assert QueueOk(k, s);
    }
    if s < |k.sems| { assert QueueOk(k, s); }
  }

  /** While somebody waits, one token or more is never to be had at once. */
  lemma NoBarging(k: State, s: Sid, tokens: nat, timeout: nat, why: Why)
    requires Good(k) && k.running != IDLE && Sm(k, s).queue != [] && tokens >= 1
    ensures Sm(k, s).active && Sm(k, s).value == 0
    ensures forall i :: 0 <= i < |Sm(k, s).queue| ==> Sm(k, s).queue[i].n >= 1
    ensures Wait(k, s, tokens, why).1 == None
    ensures TimedWait(k, s, timeout, tokens, why).1 == (if timeout == 0 then Some(TIMEOUT) else None)
    ensures TryWait(k, s, tokens).1 == 1 && TryWait(k, s, tokens).0.sems == k.sems
  {
    assert QueueOk(k, s);
    TimedWaitEffect(k, s, timeout, tokens, why);
  }

  /** After any step: whoever is left in the queue stands in the same order, and nobody was taken
      out, other than by its own timeout, while somebody before it is still there. */
  lemma FifoStep(k: State, step: Step, s: Sid, u: Tid, v: Tid)
    requires Good(k) && Enabled(k, step) && s < |k.sems| && Before(Sm(k, s).queue, u, v)
    ensures var k' := Next(k, step).0;
      && (WaitsAt(k', u, s) ==>
            || (WaitsAt(k', v, s) && Before(Sm(k', s).queue, u, v))
            || (step.Tick? && !WaitsAt(k', v, s) && Th(k', v).manner == WaitTimeout))
  {
    NextGood(k, step);
    var k' := Next(k, step).0;
    var q, q' := Sm(k, s).queue, Sm(k', s).queue;
    assert QueueOk(k, s);
    assert Has(q, u) && Has(q, v);
    if WaitsAt(k', u, s) {
      if step.Tick? {
        FifoTick(k, s, u, v);
      } else {
        StepFair(k, step);
        assert SemStory(Sm(k, s), Sm(k', s), k.running);
        assert QueueOk(k', s);
        RunningFree(k);
        SuffixOrder(q, q', k.running, u, v);
        WaitsListed(k', v, s);
      }
    }
  }

  lemma SuffixOrder(q: seq<Entry>, q': seq<Entry>, me: Tid, u: Tid, v: Tid)
    requires Distinct(q) && Suffix(q, WithoutLast(q', me)) && Before(q, u, v) && Has(q', u) && u != me
    ensures Before(q', u, v)
  {
    var body := WithoutLast(q', me);
    var d := |q| - |body|;
    var i, j :| 0 <= i < j < |q| && q[i].tid == u && q[j].tid == v;
    var p :| 0 <= p < |q'| && q'[p].tid == u;
    assert p < |body|;
    assert body[p].tid == q[p + d].tid;
    assert p + d == i;
    assert body[j - d].tid == q[j].tid;
    assert q'[p].tid == u && q'[j - d].tid == v;
  }

  lemma FifoOnTick(k: State, s: Sid, u: Tid, v: Tid)
    requires Good(k) && s < |k.sems| && Before(Sm(k, s).queue, u, v) && WaitsAt(OnTick(k), u, s)
    ensures var k' := OnTick(k);
      || (WaitsAt(k', v, s) && Before(Sm(k', s).queue, u, v))
      || (!WaitsAt(k', v, s) && Th(k', v).manner == WaitTimeout)
  {
    OnTickGood(k);
    var k1 := OnTick(k);
    assert QueueOk(k, s) && QueueOk(k1, s);
    assert Has(Sm(k, s).queue, v);
    assert Th(k1, v) == Th(k, v) || Expired(Th(k, v), Th(k1, v));
    if WaitsAt(k1, v, s) {
      assert Has(Sm(k1, s).queue, u) && Has(Sm(k1, s).queue, v);
      OrderBack(Sm(k, s).queue, Sm(k1, s).queue, u, v);
    }
  }

  lemma FifoTick(k: State, s: Sid, u: Tid, v: Tid)
    requires Good(k) && s < |k.sems| && Before(Sm(k, s).queue, u, v) && WaitsAt(TickStep(k), u, s)
    ensures var k' := TickStep(k);
      || (WaitsAt(k', v, s) && Before(Sm(k', s).queue, u, v))
      || (!WaitsAt(k', v, s) && Th(k', v).manner == WaitTimeout)
  {
    var k0 := SliceCounted(k);
    TicksGood(k, k.sliceTicks + 1);
    assert TickStep(k).threads == OnTick(k0).threads && TickStep(k).sems == OnTick(k0).sems;
    FifoOnTick(k0, s, u, v);
  }

  /** First come, first served, along any run: while u keeps waiting, v behind it cannot be granted
      or closed; it is still behind u, or it has timed out. */
  lemma {:induction false} Fifo(r: Trace, s: Sid, u: Tid, v: Tid, j: nat)
    requires ValidTrace(r) && Good(r.states[0]) && j <= |r.steps|
    requires s < |r.states[0].sems| && Before(Sm(r.states[0], s).queue, u, v)
    requires forall m: nat :: m <= j ==> WaitsAt(r.states[m], u, s)
    requires forall m: nat :: m < j ==> WaitsAt(r.states[m], v, s)
    ensures Good(r.states[j]) && s < |r.states[j].sems|
    ensures || (WaitsAt(r.states[j], v, s) && Before(Sm(r.states[j], s).queue, u, v))
            || (j > 0 && r.steps[j - 1].Tick? && !WaitsAt(r.states[j], v, s)
                && Th(r.states[j], v).manner == WaitTimeout)
  {
    if j > 0 {
      Fifo(r, s, u, v, j - 1);
      assert StepOf(r, j - 1);
      assert WaitsAt(r.states[j - 1], v, s);
      NextGood(r.states[j - 1], r.steps[j - 1]);
      FifoStep(r.states[j - 1], r.steps[j - 1], s, u, v);
      assert WaitsAt(r.states[j], u, s);
      assert ThreadOk(r.states[j], u, {r.states[j].running});
    } else {
      WaitsListed(r.states[0], v, s);
      assert Has(Sm(r.states[0], s).queue, v);
    }
  }

  // ---- the cause

  /** The steps that close semaphore s and tell its waiters so; finish also closes semJoin, but
      releases the joiners normally before. */
  ghost predicate Closes(k: State, step: Step, s: Sid) {
    && step.Sys? && k.running != IDLE
    && (|| step.call == CallSemClose(s)
        || (step.call.CallExit? && (s == Me(k).semSend || s == Me(k).semReceive)))
  }

  function Cause(k: State, step: Step, closes: bool): Manner {
    if step.Tick? then WaitTimeout else if closes then OnClose else Regular
  }

  /** What a step may do to the record of a thread that did not take it. */
  ghost predicate CauseKept(a: Thread, b: Thread, cause: Manner) {
    && b.cont == a.cont
    && (|| (b.blockedAt == a.blockedAt && b.manner == a.manner)
        || (a.blockedAt.Some? && b.blockedAt.None? && b.manner == cause))
  }

  /** A step that takes a waiter off its queue records why; no step touches the record of a thread
      that waits on, or that has been taken off and not yet been dispatched. */
  lemma CauseStep(k: State, step: Step, u: Tid)
    requires Good(k) && Enabled(k, step) && u < |k.threads| && u != k.running
    ensures CauseKept(Th(k, u), Th(Next(k, step).0, u),
              Cause(k, step, Th(k, u).blockedAt.Some? && Closes(k, step, Th(k, u).blockedAt.value)))
  {
    match step
    case Tick => CauseTick(k, u);
    case Resume =>
      ResumeGood(k);
      CauseSignals(k, step, u);
    case Sys(call) =>
      if k.running == IDLE {
        CauseIdle(k, u);
      } else if call.CallExit? {
        StepFair(k, step);
        assert Calm(k, Next(k, step).0, u);
        CauseExit(k, call.status, u);
      } else if call.CallSemClose? {
        CauseClose(k, call.s, u);
      } else {
        SyscallGood(k, call);
        CauseSignals(k, step, u);
      }
  }

  lemma CauseIdle(k: State, u: Tid)
    ensures Th(Yield(k, true), u) == Th(k, u)
  {
  }

  lemma CauseClose(k: State, s: Sid, u: Tid)
    requires Busy(k) && u < |k.threads|
    ensures Th(Close(k, s).0, u) == Th(k, u)
         || (Th(k, u).blockedAt == Some(s) && Woken(Th(k, u), Th(Close(k, s).0, u), OnClose))
  {
    CloseWakes(k, s, {k.running});
    NotWoken(k, Close(k, s).0, s, OnClose, u);
  }

  /** Steps that close nothing release waiters normally. */
  lemma CauseSignals(k: State, step: Step, u: Tid)
    requires Good(k) && Enabled(k, step) && u < |k.threads| && u != k.running && !step.Tick?
    requires SameActive(k, Next(k, step).0)
    ensures CauseKept(Th(k, u), Th(Next(k, step).0, u), Regular)
  {
    StepFair(k, step);
    assert Calm(k, Next(k, step).0, u);
    assert ThreadOk(k, u, {k.running});
  }

  lemma CauseTick(k: State, u: Tid)
    requires Good(k) && u < |k.threads|
    ensures CauseKept(Th(k, u), Th(TickStep(k), u), WaitTimeout)
  {
    var k0 := SliceCounted(k);
    TicksGood(k, k.sliceTicks + 1);
    OnTickGood(k0);
    var k1 := OnTick(k0);
    assert Th(k1, u) == Th(k0, u) || Expired(Th(k0, u), Th(k1, u));
    assert TickStep(k).threads == k1.threads;
  }

  /** A thread not queued at s does not notice that s wakes its waiters. */
  lemma NotWoken(k: State, k': State, s: Sid, m: Manner, u: Tid)
    requires WakesAt(k, k', s, m) && u < |k.threads|
    ensures Th(k, u).blockedAt != Some(s) ==> Th(k', u) == Th(k, u)
    ensures Th(k', u) == Th(k, u) || (Th(k, u).blockedAt == Some(s) && Woken(Th(k, u), Th(k', u), m))
  {
  }

  ghost predicate AtMail(k: State, a: Thread) {
    a.blockedAt == Some(Me(k).semSend) || a.blockedAt == Some(Me(k).semReceive)
  }

  lemma CauseCloseMail(k: State, u: Tid)
    requires Busy(k) && u < |k.threads|
    ensures Th(CloseMail(k), u) == Th(k, u)
         || (AtMail(k, Th(k, u)) && Woken(Th(k, u), Th(CloseMail(k), u), OnClose))
  {
    CloseBusy(k, Me(k).semSend);
    CloseWakes(k, Me(k).semSend, {k.running});
    var a := Close(k, Me(k).semSend).0;
    NotWoken(k, a, Me(k).semSend, OnClose, u);
    CloseWakes(a, Me(k).semReceive, {k.running});
    NotWoken(a, CloseMail(k), Me(k).semReceive, OnClose, u);
  }

  lemma CauseCloseJoinAll(k: State, u: Tid)
    requires Busy(k) && u < |k.threads| && u != k.running
    ensures Th(Close(k, Me(k).semJoinAll).0, u) == Th(k, u)
  {
    CloseWakes(k, Me(k).semJoinAll, {k.running});
    NotWoken(k, Close(k, Me(k).semJoinAll).0, Me(k).semJoinAll, OnClose, u);
    if Th(k, u).blockedAt == Some(Me(k).semJoinAll) { OnlyOwner(k, u); }
  }

  /** Whom finish takes off a queue before it closes semJoinAll, and why. */
  lemma CausePartings(k: State, u: Tid)
    requires Busy(k) && u < |k.threads| && u != k.running
    ensures var a, b := Th(k, u), Th(NotifyParent(CloseJoin(CloseMail(k))), u);
      a.blockedAt.Some? && b.blockedAt != a.blockedAt ==> b.manner == if AtMail(k, a) then OnClose else Regular
  {
    assert OwnsSems(k, k.running);
    FinishParts(k);
    CauseCloseMail(k, u);
    CauseCloseJoin(CloseMail(k), u);
    CauseNotify(CloseJoin(CloseMail(k)), u);
  }

  lemma CauseExit(k: State, status: int, u: Tid)
    requires Busy(k) && u < |k.threads| && u != k.running
    ensures var a, b := Th(k, u), Th(Finish(k, status), u);
      a.blockedAt.Some? && b.blockedAt != a.blockedAt ==> b.manner == if AtMail(k, a) then OnClose else Regular
  {
    FinishParts(k);
    CausePartings(k, u);
    var k3 := NotifyParent(CloseJoin(CloseMail(k)));
    CauseCloseJoinAll(k3, u);
    var k4 := Close(k3, Me(k3).semJoinAll).0;
    RetireCore(k4, status);
    assert Th(Finish(k, status), u) == Th(k4, u);
  }

  lemma OnlyOwner(k: State, u: Tid)
    requires Busy(k) && u < |k.threads| && Th(k, u).blockedAt == Some(Me(k).semJoinAll)
    ensures u == k.running
  {
    assert OwnsSems(k, k.running);
    assert ContOk(k, u);
  }

  lemma CauseCloseJoin(k: State, u: Tid)
    requires Busy(k) && u < |k.threads|
    ensures Th(CloseJoin(k), u) == Th(k, u)
         || (Th(k, u).blockedAt == Some(Me(k).semJoin) && Woken(Th(k, u), Th(CloseJoin(k), u), Regular))
  {
    var s := Me(k).semJoin;
    SignalAllBusy(k, s, 0);
    SignalAllWakes(k, s, 0, false, {k.running});
    var b := SignalAll(k, s, 0, false);
    NotWoken(k, b, s, Regular, u);
    CloseWakes(b, s, {k.running});
    NotWoken(b, CloseJoin(k), s, OnClose, u);
    assert OwnsSems(k, k.running);
    if Sm(k, s).active { EmptyQueue(b, s, u); }
  }

  lemma EmptyQueue(k: State, s: Sid, u: Tid)
    requires Steady(k) && s < |k.sems| && u < |k.threads| && Sm(k, s).queue == []
    ensures Th(k, u).blockedAt != Some(s)
  {
    assert QueueOk(k, s);
    assert Has(Sm(k, s).queue, u) <==> Th(k, u).blockedAt == Some(s);
  }

  /** finish wakes its parent, if anybody, and does so normally. */
  lemma CauseNotify(k: State, u: Tid)
    requires Busy(k) && u < |k.threads|
    ensures var a, b := Th(k, u), Th(NotifyParent(k), u);
      || (b.blockedAt == a.blockedAt && b.manner == a.manner)
      || (a.blockedAt.Some? && KindIs(k, a.blockedAt.value, JoinAllOf(u)) && b.blockedAt.None? && b.manner == Regular)
  {
    RunningFree(k);
    if Me(k).parent.Some? && !Th(k, Me(k).parent.value).finished {
      ParentOlder(k);
      var p := Me(k).parent.value;
      ChildDroppedBusy(k, p);
      CauseParent(ChildDropped(k, p), p, u);
    }
  }

  lemma CauseParent(k: State, p: Tid, u: Tid)
    requires Busy(k) && u < |k.threads| && p < |k.threads|
    ensures var a, b := Th(k, u), Th(ParentWoken(k, p), u);
      || (b.blockedAt == a.blockedAt && b.manner == a.manner)
      || (a.blockedAt.Some? && KindIs(k, a.blockedAt.value, JoinAllOf(u)) && b.blockedAt.None? && b.manner == Regular)
  {
    var s := Th(k, p).semJoinAll;
    assert OwnsSems(k, p) && ContOk(k, u);
    if Th(k, p).blockedAt == Some(s) {
      SignalWakes(k, s, 1, {k.running});
      NotWoken(k, ParentWoken(k, p), s, Regular, u);
    }
  }

  /** What a resumed waiter is told: 0 after a signal, the close error after a close, TIMEOUT after
      its time ran out. */
  lemma ResultNamesCause(k: State)
    requires Good(k) && Me(k).cont.Waiting? && (Me(k).cont.why.ForSem? || Me(k).cont.why.ForJoin?)
    ensures Next(k, Resume).1 == Value(match Me(k).manner
      case Regular => 0
      case OnClose => ERR_SEM_WAITCLOSE
      case WaitTimeout => TIMEOUT)
  {
  }

  lemma CauseOn(r: Trace, u: Tid, i: nat)
    requires ValidTrace(r) && i < |r.steps| && Good(r.states[i]) && u < |r.states[i].threads|
    requires Th(r.states[i], u).blockedAt.None? && r.states[i].running != u
    ensures var a, b := Th(r.states[i], u), Th(r.states[i + 1], u);
      && Good(r.states[i + 1]) && u < |r.states[i + 1].threads|
      && b.blockedAt.None? && b.manner == a.manner && b.cont == a.cont
  {
    assert StepOf(r, i);
    NextGood(r.states[i], r.steps[i]);
    CauseStep(r.states[i], r.steps[i], u);
    ThreadsGrow(r.states[i], r.steps[i]);
  }

  /** From the step that ends a wait to the dispatch of the waiter, the cause stands. */
  lemma {:induction false} CauseStands(r: Trace, u: Tid, j: nat)
    requires ValidTrace(r) && Good(r.states[0]) && j <= |r.steps|
    requires u < |r.states[0].threads| && Th(r.states[0], u).blockedAt.None?
    requires forall m: nat :: m < j ==> r.states[m].running != u
    ensures Good(r.states[j]) && u < |r.states[j].threads|
    ensures Th(r.states[j], u).blockedAt.None?
    ensures Th(r.states[j], u).manner == Th(r.states[0], u).manner && Th(r.states[j], u).cont == Th(r.states[0], u).cont
  {
    if j > 0 {
      CauseStands(r, u, j - 1);
      assert r.states[j - 1].running != u;
      CauseOn(r, u, j - 1);
    }
  }

  lemma ThreadsGrow(k: State, step: Step)
    requires Good(k) && Enabled(k, step)
    ensures |k.threads| <= |Next(k, step).0.threads| && |k.sems| <= |Next(k, step).0.sems|
  {
    if step.Tick? {
      TicksGood(k, k.sliceTicks + 1);
      OnTickGood(SliceCounted(k));
    } else {
      StepFair(k, step);
    }
  }
}
