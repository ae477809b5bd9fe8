/** What holds in every state that a run from boot can reach, and what the join calls, the mailboxes
    and the character buffers promise over whole runs. */
module KernelTheorems {
  import opened Entries
  import opened KernelTypes
  import opened KernelSpec
  import opened PlaceInvariant
  import opened Effects
  import opened LinkInvariant
  import opened KernelSteps
  import opened Families
  import opened Counting
  import opened JoinInvariant
  import opened Levels
  import opened Mailbox
  import opened CharBuffer
  import opened StepEffects
  import opened KernelRuns
  import opened Starvation
  import opened WaitOrder

  // ---- reachable states

  lemma InitJoins()
    ensures JoinsInv(Init())
  {
    var k := Init();
    InitSems();
    LiveNone(k.threads, IDLE);
    forall t: Tid | t < |k.threads|
      ensures JoinSemsOk(k, t) && JoinerOk(k, t, {})
    {
      assert Th(k, t).semJoin == 4 * t && Th(k, t).semJoinAll == 4 * t + 1;
    }
    forall t: Tid | Counted(k, t)
      ensures Kids(k, t, Live(k.threads, t))
    {
      assert t == IDLE;
      assert Sm(k, 4 * t + 1) == Sem(JoinAllOf(t), true, 0, []);
    }
  }

  lemma {:induction false} Reachable(r: Trace, i: nat)
    requires FromBoot(r) && i < |r.states|
    ensures Good(r.states[i]) && JoinsInv(r.states[i]) && SliceInv(r.states[i])
  {
    if i == 0 {
      InitGood();
      InitJoins();
    } else {
      Reachable(r, i - 1);
      assert StepOf(r, i - 1);
      NextGood(r.states[i - 1], r.steps[i - 1]);
      NextJoins(r.states[i - 1], r.steps[i - 1]);
      NextSlices(r.states[i - 1], r.steps[i - 1]);
    }
  }

  lemma NextSlices(k: State, step: Step)
    requires Good(k) && SliceInv(k) && Enabled(k, step)
    ensures SliceInv(Next(k, step).0)
    ensures forall t: Tid :: t < |k.threads| && Th(k, t).finished ==>
      t < |Next(k, step).0.threads| && Th(Next(k, step).0, t).finished
  {
    if step.Tick? {
      var k0 := SliceCounted(k);
      TicksGood(k, k.sliceTicks + 1);
      OnTickGood(k0);
      WakesDueSameTurn(k0, OnTick(k0));
      SlicesStayOk(k0, OnTick(k0));
      RunningFree(OnTick(k0));
      TickSlices(k, OnTick(k0));
    } else {
      StepFair(k, step);
      SlicesStayOk(k, Next(k, step).0);
    }
  }

  lemma TickSlices(k: State, k1: State)
    requires Good(k1) && SlicesOk(k1)
    requires TickStep(k) == (if k1.sliceTicks >= Me(k1).slice then Yield(k1, true) else k1)
    ensures SliceInv(TickStep(k)) && TickStep(k).threads == k1.threads
  {
    YieldBack(k1);
    RunningFree(Yield(k1, true));
  }

  ghost predicate Suspended(k: State, t: Tid) {
    Th(k, t).sleeps || Th(k, t).blockedAt.Some?
  }

  /** In every reachable state an unfinished thread is in exactly one place: running, once in the
      ready queue, or suspended; and the flags say in which lists it stands. */
  lemma ExactlyOnePlace(r: Trace, i: nat, t: Tid)
    requires FromBoot(r) && i < |r.states|
    requires t < |r.states[i].threads| && t != IDLE && !Th(r.states[i], t).finished
    ensures var k := r.states[i];
      && NoDup(k.ready) && Distinct(k.sleepers)
      && (k.running == t <==> t !in k.ready && !Suspended(k, t))
      && (t in k.ready <==> k.running != t && !Suspended(k, t))
      && (Suspended(k, t) <==> k.running != t && t !in k.ready)
      && (Th(k, t).sleeps <==> Has(k.sleepers, t))
      && (forall s: Sid :: s < |k.sems| ==> Distinct(Sm(k, s).queue))
      && (forall s: Sid :: s < |k.sems| ==> (Th(k, t).blockedAt == Some(s) <==> Has(Sm(k, s).queue, t)))
      && (forall s: Sid, s': Sid :: s < |k.sems| && s' < |k.sems| && Has(Sm(k, s).queue, t) && Has(Sm(k, s').queue, t)
            ==> s == s')
  {
    Reachable(r, i);
    var k := r.states[i];
    assert ThreadOk(k, t, {k.running});
    assert t in k.ready ==> Runnable(k, t);
    forall s: Sid | s < |k.sems|
      ensures Distinct(Sm(k, s).queue) && (Th(k, t).blockedAt == Some(s) <==> Has(Sm(k, s).queue, t))
    {
      assert QueueOk(k, s);
    }
  }

  /** A finished thread is in no list and never runs again. */
  lemma {:induction false} FinishedForever(r: Trace, i: nat, j: nat, t: Tid)
    requires FromBoot(r) && i <= j < |r.states|
    requires t < |r.states[i].threads| && Th(r.states[i], t).finished
    ensures var k := r.states[j];
      && t < |k.threads| && Th(k, t).finished
      && k.running != t && t !in k.ready && !Has(k.sleepers, t)
      && (forall s: Sid :: s < |k.sems| ==> !Has(Sm(k, s).queue, t))
    decreases j
  {
    Reachable(r, j);
    if i < j {
      FinishedForever(r, i, j - 1, t);
      FinishedOn(r, j - 1, t);
    }
    FinishedNowhere(r.states[j], t);
  }

  lemma FinishedOn(r: Trace, i: nat, t: Tid)
    requires FromBoot(r) && i + 1 < |r.states|
    requires t < |r.states[i].threads| && Th(r.states[i], t).finished
    ensures t < |r.states[i + 1].threads| && Th(r.states[i + 1], t).finished
  {
    Reachable(r, i);
    assert StepOf(r, i);
    NextSlices(r.states[i], r.steps[i]);
  }

  lemma FinishedNowhere(k: State, t: Tid)
    requires Good(k) && t < |k.threads| && Th(k, t).finished
    ensures k.running != t && t !in k.ready && !Has(k.sleepers, t)
    ensures forall s: Sid :: s < |k.sems| ==> !Has(Sm(k, s).queue, t)
  {
    assert ThreadOk(k, t, {k.running});
    assert t in k.ready ==> Runnable(k, t);
    forall s: Sid | s < |k.sems|
      ensures !Has(Sm(k, s).queue, t)
    {
      assert QueueOk(k, s);
    }
  }

  // ---- joinAll

  /** numOfActiveChildren is the number of unfinished children, semJoinAll never holds a token, and
      a thread blocked in its joinAll needs exactly as many tokens as it has live children. */
  lemma ChildrenCounted(r: Trace, i: nat, t: Tid)
    requires FromBoot(r) && i < |r.states| && Counted(r.states[i], t)
    ensures var k := r.states[i];
      var x := Sm(k, Th(k, t).semJoinAll);
      && Th(k, t).children == Live(k.threads, t)
      && x.value == 0
      && (Th(k, t).blockedAt == Some(Th(k, t).semJoinAll) ==>
            x.queue == [Entry(t, Live(k.threads, t))] && Live(k.threads, t) >= 1)
  {
    Reachable(r, i);
    var k := r.states[i];
    assert Kids(k, t, Live(k.threads, t));
    assert OwnsSems(k, t);
    assert QueueOk(k, Th(k, t).semJoinAll);
  }

  /** joinAll, at once or resumed, returns only when no child is live. */
  lemma JoinAllDone(k: State, step: Step)
    requires Good(k) && JoinsInv(k) && Enabled(k, step) && k.running != MASTER && k.running != IDLE
    requires step == Sys(CallJoinAll) || (step == Resume && Me(k).cont.Waiting? && Me(k).cont.why.ForJoinAll?)
    requires !Next(k, step).1.Suspended?
    ensures Next(k, step).1 == Value(0)
    ensures Live(Next(k, step).0.threads, k.running) == 0
  {
    RunningFree(k);
    assert Counted(k, k.running);
    assert Kids(k, k.running, Live(k.threads, k.running));
    assert JoinSemsOk(k, k.running);
    assert OwnsSems(k, k.running);
    var k' := Next(k, step).0;
    if step.Resume? {
      LiveKeeps(k, k', k.running);
    } else {
      WaitEffect(k, Me(k).semJoinAll, Me(k).children, ForJoinAll);
      LiveKeeps(k, k', k.running);
    }
  }

  /** timedJoinAll, at once or resumed, returns the number of children still live. */
  lemma TimedJoinAllCounts(k: State, step: Step)
    requires Good(k) && JoinsInv(k) && Enabled(k, step) && k.running != MASTER && k.running != IDLE
    requires (step.Sys? && step.call.CallTimedJoinAll?)
          || (step == Resume && Me(k).cont.Waiting? && Me(k).cont.why.ForTimedJoinAll?)
    requires !Next(k, step).1.Suspended?
    ensures Next(k, step).1 == Value(Live(Next(k, step).0.threads, k.running))
  {
    RunningFree(k);
    assert Counted(k, k.running);
    assert Kids(k, k.running, Live(k.threads, k.running));
    assert OwnsSems(k, k.running);
    var k' := Next(k, step).0;
    if step.Resume? {
      LiveKeeps(k, k', k.running);
    } else {
      TimedWaitMoves(k, Me(k).semJoinAll, step.call.timeout, Me(k).children, ForTimedJoinAll);
      TimedWaitEffect(k, Me(k).semJoinAll, step.call.timeout, Me(k).children, ForTimedJoinAll);
      LiveKeeps(k, k', k.running);
    }
  }

  // ---- join

  ghost predicate JoinStep(k: State, step: Step, t: Tid) {
    || step == Sys(CallJoin(t))
    || (step.Sys? && step.call.CallTimedJoin? && step.call.t == t)
    || (step == Resume && Me(k).cont.Waiting? && Me(k).cont.why == ForJoin(t))
  }

  /** join and timedJoin return 0 only when the target has finished, at once when it had finished
      before the call; otherwise they say why not. */
  lemma JoinDone(k: State, step: Step, t: Tid)
    requires Good(k) && JoinsInv(k) && Enabled(k, step) && k.running != IDLE && JoinStep(k, step, t)
    requires !Next(k, step).1.Suspended?
    ensures Next(k, step).1.Value?
    ensures var v := Next(k, step).1.r;
      && (v == 0 || v == TIMEOUT || v == ERR_THREAD_SELFJOIN)
      && (v == 0 ==> Th(Next(k, step).0, t).finished)
      && (v == ERR_THREAD_SELFJOIN <==> t == k.running)
      && (step.Sys? && t != k.running && Th(k, t).finished ==> v == 0)
      && (step == Sys(CallJoin(t)) ==> v != TIMEOUT)
  {
    RunningFree(k);
    if step.Resume? {
      assert JoinerOk(k, k.running, {});
      assert ContOk(k, k.running);
    } else {
      assert OwnsSems(k, t) && JoinSemsOk(k, t);
      if t != k.running && !Th(k, t).finished {
        WaitEffect(k, Th(k, t).semJoin, 1, ForJoin(t));
        if step.call.CallTimedJoin? { TimedWaitEffect(k, Th(k, t).semJoin, step.call.timeout, 1, ForJoin(t)); }
      }
    }
  }

  /** After finish nobody waits at the finished thread's semaphores, and its joiners, timed or not,
      are awake with result 0. */
  lemma FinishReleases(k: State, status: int, u: Tid)
    requires Busy(k) && JoinsInv(k) && u < |k.threads|
    ensures var me := Me(k);
      var k' := Finish(k, status);
      && Th(k', k.running).finished
      && !Sm(k', me.semSend).active && !Sm(k', me.semReceive).active
      && !Sm(k', me.semJoin).active && !Sm(k', me.semJoinAll).active
      && Th(k', u).blockedAt != Some(me.semSend) && Th(k', u).blockedAt != Some(me.semReceive)
      && Th(k', u).blockedAt != Some(me.semJoin) && Th(k', u).blockedAt != Some(me.semJoinAll)
      && (Th(k, u).blockedAt == Some(me.semJoin) ==>
            Th(k', u).blockedAt.None? && !Th(k', u).sleeps && Th(k', u).manner == Regular)
  {
    var me, k' := k.running, Finish(k, status);
    assert OwnsSems(k, me);
    FinishGood(k, status);
    FinishMarks(k, status);
    JoinsFinish(k, status);
    FinishLinks(k, status);
    FinishClosesMail(k, status);
    assert JoinSemsOk(k', me);
    assert OwnsSems(k', me);
    EmptyWhenClosed(k', Me(k).semSend, u);
    EmptyWhenClosed(k', Me(k).semReceive, u);
    EmptyWhenClosed(k', Me(k).semJoin, u);
    EmptyWhenClosed(k', Me(k).semJoinAll, u);
    if Th(k, u).blockedAt == Some(Me(k).semJoin) {
      RunningFree(k);
      CauseExit(k, status, u);
      assert ContOk(k, u);
      JoinerWakes(k, status, u);
    }
  }

  lemma FinishLinks(k: State, status: int)
    requires Busy(k)
    ensures SameLinks(Me(k), Th(Finish(k, status), k.running)) && |Finish(k, status).threads| == |k.threads|
  {
    FinishParts(k);
    var k4 := Close(NotifyParent(CloseJoin(CloseMail(k))), Me(NotifyParent(CloseJoin(CloseMail(k)))).semJoinAll).0;
    RetireCore(k4, status);
    RunningFree(k4);
    assert Finish(k, status).threads == Retire(k4, status).threads;
  }

  /** A joiner stays taken off: its continuation and manner are those that finish gave it. */
  lemma JoinerWakes(k: State, status: int, u: Tid)
    requires Busy(k) && u < |k.threads| && Th(k, u).blockedAt == Some(Me(k).semJoin)
    requires Th(Finish(k, status), u).blockedAt != Some(Me(k).semJoin)
    ensures Th(Finish(k, status), u).blockedAt.None? && !Th(Finish(k, status), u).sleeps
    ensures Th(Finish(k, status), u).manner == Regular
  {
    RunningFree(k);
    assert OwnsSems(k, k.running);
    CauseExit(k, status, u);
    FinishFair(k, status);
    assert Calm(k, Finish(k, status), u);
  }

  lemma CloseMailCloses(k: State)
    requires Busy(k)
    ensures var k1 := CloseMail(k);
      && Busy(k1) && k1.running == k.running && Me(k1) == Me(k)
      && !Sm(k1, Me(k).semSend).active && !Sm(k1, Me(k).semReceive).active
  {
    assert OwnsSems(k, k.running);
    CloseBusy(k, Me(k).semSend);
    CloseWakes(k, Me(k).semSend, {k.running});
    var a := Close(k, Me(k).semSend).0;
    CloseBusy(a, Me(k).semReceive);
    CloseWakes(a, Me(k).semReceive, {k.running});
  }

  lemma FinishClosesMail(k: State, status: int)
    requires Busy(k)
    ensures !Sm(Finish(k, status), Me(k).semSend).active && !Sm(Finish(k, status), Me(k).semReceive).active
  {
    CloseMailCloses(k);
    var k1 := CloseMail(k);
    FinishTailApart(k1, Mail);
    var k3 := NotifyParent(CloseJoin(k1));
    var k4 := Close(k3, Me(k3).semJoinAll).0;
    RetireCore(k4, status);
    assert OwnsSems(k1, k.running);
    assert Finish(k, status).sems == k4.sems;
  }

  lemma EmptyWhenClosed(k: State, s: Sid, u: Tid)
    requires Steady(k) && s < |k.sems| && u < |k.threads| && !Sm(k, s).active
    ensures Th(k, u).blockedAt != Some(s)
  {
    assert QueueOk(k, s);
    EmptyQueue(k, s, u);
  }

  // ---- the outcome of a wait

  lemma TailRun(r: Trace, i: nat) returns (q: Trace)
    requires FromBoot(r) && i < |r.states|
    ensures q == Trace(r.states[i..], r.steps[i..]) && ValidTrace(q) && Good(q.states[0])
  {
    Reachable(r, i);
    q := Trace(r.states[i..], r.steps[i..]);
    forall x: nat | x < |q.steps|
      ensures StepOf(q, x)
    {
      assert StepOf(r, i + x);
    }
  }

  /** Step i takes waiter u off the queue of s, and step j is the first that u takes after that: it
      tells u TIMEOUT if step i was a tick, the close error if step i closed s, and 0 otherwise. */
  lemma WaitOutcome(r: Trace, s: Sid, u: Tid, i: nat, j: nat)
    requires FromBoot(r) && i < j < |r.steps|
    requires WaitsAt(r.states[i], u, s) && !WaitsAt(r.states[i + 1], u, s)
    requires var c := Th(r.states[i], u).cont; c.Waiting? && (c.why.ForSem? || c.why.ForJoin?)
    requires forall m: nat :: i < m < j ==> r.states[m].running != u
    requires r.states[j].running == u
    ensures r.steps[j] == Resume
    ensures Next(r.states[j], Resume).1
         == Value(if r.steps[i].Tick? then TIMEOUT
                  else if Closes(r.states[i], r.steps[i], s) then ERR_SEM_WAITCLOSE
                  else 0)
  {
    var k := r.states[i];
    Reachable(r, i);
    RunningFree(k);
    assert StepOf(r, i) && StepOf(r, j);
    CauseStep(k, r.steps[i], u);
    ThreadsGrow(k, r.steps[i]);
    var q := TailRun(r, i + 1);
    forall m: nat | m < j - (i + 1)
      ensures q.states[m].running != u
    {
      assert r.states[i + 1 + m].running != u;
    }
    CauseStands(q, u, j - (i + 1));
    assert q.states[j - (i + 1)] == r.states[j];
    ResultNamesCause(r.states[j]);
  }

  // ---- mailboxes over runs

  /** The sends and receives of thread t before state j. */
  function MailLog(r: Trace, t: Tid, j: nat): seq<MailEvent>
    requires |r.states| == |r.steps| + 1 && j <= |r.steps|
  {
    if j == 0 then [] else MailLog(r, t, j - 1) + MailEvents(r.states[j - 1], r.steps[j - 1], t)
  }

  /** Nobody sends to, or receives as, a thread that does not exist yet. */
  lemma NoMailYet(k: State, step: Step, t: Tid)
    requires Good(k) && Enabled(k, step) && |k.threads| <= t
    ensures MailEvents(k, step, t) == []
  {
    RunningFree(k);
    assert k.running < t;
    assert ContOk(k, k.running);
    match step
    case Tick =>
    case Sys(_) =>
    case Resume =>
      if Me(k).cont.Waiting? {
        match Me(k).cont.why
        case ForSend(to, _) =>
          assert KindIs(k, Me(k).cont.s, SendOf(to));
          assert Owned(k, Me(k).cont.s);
        case _ =>
      }
  }

  lemma InitMail(t: Tid)
    requires t < |Init().threads|
    ensures BoxInv(Init(), t, [])
  {
    var k := Init();
    InitSems();
    assert Sm(k, 4 * t + 2) == Sem(SendOf(t), true, 1, []) && Sm(k, 4 * t + 3) == Sem(ReceiveOf(t), true, 0, []);
    GrantedNone(k.threads, Th(k, t).semSend);
    GrantedNone(k.threads, Th(k, t).semReceive);
  }

  /** The step that creates thread t leaves t's mailbox ready for a first send. */
  lemma MailBorn(k: State, step: Step, t: Tid)
    requires Good(k) && Enabled(k, step) && |k.threads| <= t < |Next(k, step).0.threads|
    ensures BoxInv(Next(k, step).0, t, [])
  {
    assert step.Sys? && step.call.CallCreate? && k.running != IDLE by { OnlyCreateAdds(k, step); }
    CreateEffect(k, step.call.slice);
    MailCreate(k, step.call.slice, t);
  }

  lemma OnlyCreateAdds(k: State, step: Step)
    requires Good(k) && Enabled(k, step) && |k.threads| < |Next(k, step).0.threads|
    ensures step.Sys? && step.call.CallCreate? && k.running != IDLE
  {
    match step
    case Tick =>
      TicksGood(k, k.sliceTicks + 1);
      OnTickGood(SliceCounted(k));
    case Resume => ResumeApart(k, if ContFamily(Me(k).cont) == Users then Joins else Users);
    case Sys(call) =>
      if k.running != IDLE && !call.CallCreate? {
        if call.CallExit? {
          FinishLinks(k, call.status);
        } else {
          CallApart(k, call, if CallFamily(call) == Users then Joins else Users);
        }
      }
  }

  /** The mailbox protocol of every live thread holds in every state of a run. */
  lemma {:induction false} MailOverRun(r: Trace, t: Tid, j: nat)
    requires FromBoot(r) && j < |r.states|
    ensures |r.states[j].threads| <= t ==> MailLog(r, t, j) == []
    ensures t < |r.states[j].threads| && !Th(r.states[j], t).finished ==> BoxInv(r.states[j], t, MailLog(r, t, j))
  {
    if j == 0 {
      if t < |r.states[0].threads| { InitMail(t); }
    } else {
      MailOverRun(r, t, j - 1);
      Reachable(r, j - 1);
      assert StepOf(r, j - 1);
      MailOn(r.states[j - 1], r.steps[j - 1], t, MailLog(r, t, j - 1));
    }
  }

  lemma MailOn(k: State, step: Step, t: Tid, log: seq<MailEvent>)
    requires Good(k) && SliceInv(k) && Enabled(k, step)
    requires |k.threads| <= t ==> log == []
    requires t < |k.threads| && !Th(k, t).finished ==> BoxInv(k, t, log)
    ensures var k' := Next(k, step).0;
      var log' := log + MailEvents(k, step, t);
      && (|k'.threads| <= t ==> log' == [])
      && (t < |k'.threads| && !Th(k', t).finished ==> BoxInv(k', t, log'))
  {
    ThreadsGrow(k, step);
    var k' := Next(k, step).0;
    if |k.threads| <= t {
      NoMailYet(k, step, t);
      if t < |k'.threads| { MailBorn(k, step, t); }
    } else if !Th(k', t).finished {
      NextSlices(k, step);
      NextMail(k, step, t, log);
    }
  }

  /** In every reachable state there is one token per mailbox of a live thread: at semSend, at
      semReceive, or granted to a sender or to the receiver that has not run since. */
  lemma OneMailToken(r: Trace, t: Tid, j: nat)
    requires FromBoot(r) && j < |r.states|
    requires t < |r.states[j].threads| && !Th(r.states[j], t).finished
    ensures var k := r.states[j];
      Level(k, Th(k, t).semSend) + Level(k, Th(k, t).semReceive) == 1
    ensures var k := r.states[j];
      Level(k, Th(k, t).semReceive) == |MailLog(r, t, j)| % 2
  {
    MailOverRun(r, t, j);
  }

  /** got is the first 256 characters of text. */
  ghost predicate Fits(got: string, text: string) {
    && |got| == (if |text| <= 256 then |text| else 256)
    && forall i :: 0 <= i < |got| ==> got[i] == text[i]
  }

  /** Sends and receives alternate; every receive returns the first 256 characters of the text of the send
      before it, each send is received at most once, and at most one send is ahead. */
  lemma EachReceiveSeesItsSend(r: Trace, t: Tid, j: nat, e: nat)
    requires FromBoot(r) && j < |r.states|
    requires t < |r.states[j].threads| && !Th(r.states[j], t).finished
    requires e < |MailLog(r, t, j)|
    ensures var log := MailLog(r, t, j);
      if e % 2 == 0 then log[e].Sent?
      else log[e - 1].Sent? && log[e].Received? && log[e].got.Some? && Fits(log[e].got.value, log[e - 1].text)
  {
    MailOverRun(r, t, j);
    assert PairedAt(MailLog(r, t, j), e);
  }

  // ---- character buffers over runs

  function Puts(r: Trace, b: nat, j: nat): string
    requires |r.states| == |r.steps| + 1 && j <= |r.steps|
  {
    if j == 0 then [] else Puts(r, b, j - 1) + PutEvents(r.states[j - 1], r.steps[j - 1], b)
  }

  function Gets(r: Trace, b: nat, j: nat): string
    requires |r.states| == |r.steps| + 1 && j <= |r.steps|
  {
    if j == 0 then [] else Gets(r, b, j - 1) + GetEvents(r.states[j - 1], r.steps[j - 1], b)
  }

  lemma {:induction false} RingOverRun(r: Trace, b: nat, j: nat)
    requires FromBoot(r) && b < 2 && j < |r.states|
    ensures |r.states[j].bufs| == 2
    ensures RingInv(r.states[j], b, Puts(r, b, j), Gets(r, b, j))
  {
    if j == 0 {
      InitRing(b);
    } else {
      RingOverRun(r, b, j - 1);
      Reachable(r, j - 1);
      assert StepOf(r, j - 1);
      NextRing(r.states[j - 1], r.steps[j - 1], b, Puts(r, b, j - 1), Gets(r, b, j - 1));
      BuffersStay(r.states[j - 1], r.steps[j - 1]);
    }
  }

  lemma BuffersStay(k: State, step: Step)
    requires Good(k) && Enabled(k, step)
    ensures |Next(k, step).0.bufs| == |k.bufs|
  {
    if step.Tick? {
      TicksGood(k, k.sliceTicks + 1);
      OnTickGood(SliceCounted(k));
    } else {
      StepFair(k, step);
    }
  }

  /** Waiting, or to go on after waiting, for the mutex of buffer b. */
  predicate AtMutex(c: Cont, b: nat) {
    c.Waiting? && (c.why.ForPutLock? || c.why.ForGetLock?) && c.why.b == b
  }

  /** Characters come out in the order in which they went in, at most 256 are stored, the stored ones
      and the free slots are what the two semaphores say, and nobody ever waits for the mutex. */
  lemma FirstInFirstOut(r: Trace, b: nat, j: nat)
    requires FromBoot(r) && b < 2 && j < |r.states|
    ensures var k := r.states[j];
      var stored := |Puts(r, b, j)| - |Gets(r, b, j)|;
      && Gets(r, b, j) <= Puts(r, b, j)
      && 0 <= stored <= BUFFER_LENGTH
      && stored == Level(k, Bf(k, b).semGet)
      && BUFFER_LENGTH - stored == Level(k, Bf(k, b).semPut)
      && Sm(k, Bf(k, b).mutex).queue == [] && Sm(k, Bf(k, b).mutex).value == 1
      && (forall u: Tid :: u < |k.threads| ==>
            !AtMutex(Th(k, u).cont, b))
  {
    RingOverRun(r, b, j);
    Reachable(r, j);
    var k := r.states[j];
    forall u: Tid | u < |k.threads|
      ensures !AtMutex(Th(k, u).cont, b)
    {
      NobodyAtMutex(k, b, u);
    }
  }

  /** No wakeup is lost: a consumer waits at semGet only while every stored character has been granted
      to a consumer that has not run since, and a producer at semPut only while every free slot has. */
  lemma NoLostWakeup(r: Trace, b: nat, j: nat)
    requires FromBoot(r) && b < 2 && j < |r.states|
    ensures var k := r.states[j];
      var x := Bf(k, b);
      var stored := |Puts(r, b, j)| - |Gets(r, b, j)|;
      && (Sm(k, x.semGet).queue != [] ==> Granted(k.threads, x.semGet) == stored)
      && (Sm(k, x.semPut).queue != [] ==> Granted(k.threads, x.semPut) == BUFFER_LENGTH - stored)
  {
    FirstInFirstOut(r, b, j);
    Reachable(r, j);
    WaitersFindNothing(r.states[j], Bf(r.states[j], b).semGet);
    WaitersFindNothing(r.states[j], Bf(r.states[j], b).semPut);
  }

  lemma WaitersFindNothing(k: State, s: Sid)
    requires Good(k)
    ensures Sm(k, s).queue != [] ==> Sm(k, s).value == 0
  {
    if s < |k.sems| { assert QueueOk(k, s); }
  }

  lemma NobodyAtMutex(k: State, b: nat, u: Tid)
    requires Good(k) && b < |k.bufs| && u < |k.threads|
    requires Sm(k, Bf(k, b).mutex).queue == [] && Granted(k.threads, Bf(k, b).mutex) == 0
    ensures !AtMutex(Th(k, u).cont, b)
  {
    assert BufferOwnsSems(k, b);
    assert ContOk(k, u);
    EmptyQueue(k, Bf(k, b).mutex, u);
    GrantedZero(k.threads, Bf(k, b).mutex, u);
    if Th(k, u).cont.Waiting? { assert Owned(k, Th(k, u).cont.s); }
  }

  lemma {:induction false} GrantedZero(ts: seq<Thread>, s: Sid, u: Tid)
    requires Granted(ts, s) == 0 && u < |ts|
    ensures !IsGranted(ts[u], s)
  {
    if u < |ts| - 1 { GrantedZero(ts[..|ts| - 1], s, u); }
  }

  /** From any reachable state, no ready thread waits longer than 64 ticks per thread in line. */
  lemma NoStarvation(r: Trace, i: nat, j: nat, pos: nat)
    requires FromBoot(r) && i <= j <= |r.steps| && pos < |r.states[i].ready|
    requires Ticks(r.steps[i..j]) >= MAX_TIME_SLICE * (pos + 1)
    ensures exists m: nat :: i < m <= j && r.states[m].running == r.states[i].ready[pos]
  {
    Reachable(r, i);
    var q := Trace(r.states[i..j + 1], r.steps[i..j]);
    forall x: nat | x < |q.steps|
      ensures StepOf(q, x)
    {
      assert StepOf(r, i + x);
    }
    DispatchedInTime(q, pos);
    var m: nat :| 1 <= m <= |q.steps| && q.states[m].running == q.states[0].ready[pos];
    assert r.states[i + m].running == r.states[i].ready[pos];
  }
}
