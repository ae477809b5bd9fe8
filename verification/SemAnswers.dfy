/** The books of a semaphore against what its callers were told: the tokens of completed waits are those of
    the calls that were answered 0, and of granted waiters that have not run since. */
module SemAnswers {
  import opened KernelTypes
  import opened SleepSpec
  import opened KernelSpec
  import opened PlaceInvariant
  import opened Effects
  import opened LinkInvariant
  import opened KernelSteps
  import opened Families
  import opened KernelRuns
  import opened TokenLedger
  import opened KernelTheorems
  import opened StepMeaning
  import opened ThreadMeaning

  function AskedBy(asked: map<Tid, nat>, t: Tid): nat {
    if t in asked then asked[t] else 0
  }

  /** What thread t was granted at s and has not been told yet. */
  function OwedTo(th: Thread, t: Tid, s: Sid, asked: map<Tid, nat>): nat {
    if th.cont == Waiting(s, ForSem) && th.blockedAt.None? && th.manner.Regular? then AskedBy(asked, t) else 0
  }

  function Owed(ts: seq<Thread>, s: Sid, asked: map<Tid, nat>): nat {
    if ts == [] then 0
    else Owed(ts[..|ts| - 1], s, asked) + OwedTo(ts[|ts| - 1], |ts| - 1, s, asked)
  }

  /** The tokens of the wait at s that this step answers with 0. */
  function AnsweredBy(k: State, step: Step, s: Sid, asked: map<Tid, nat>): nat {
    match step
    case Sys(CallSemWait(s', n)) => if s' == s && Next(k, step).1 == Value(0) then n else 0
    case Sys(CallSemTimedWait(s', _, n)) => if s' == s && Next(k, step).1 == Value(0) then n else 0
    case Sys(CallSemTryWait(s', n)) => if s' == s && Next(k, step).1 == Value(0) then n else 0
    case Resume =>
      if Me(k).cont == Waiting(s, ForSem) && Next(k, step).1 == Value(0) then AskedBy(asked, k.running) else 0
    case _ => 0
  }

  function SignalledBy(step: Step, s: Sid): nat {
    match step
    case Sys(CallSemSignal(s', n)) => if s' == s then n else 0
    case _ => 0
  }

  // ---- sums over threads

  lemma {:induction false} OwedSame(a: seq<Thread>, b: seq<Thread>, s: Sid, m: map<Tid, nat>, m': map<Tid, nat>)
    requires |a| <= |b|
    requires forall u: nat :: u < |a| ==> OwedTo(b[u], u, s, m') == OwedTo(a[u], u, s, m)
    requires forall u: nat :: |a| <= u < |b| ==> OwedTo(b[u], u, s, m') == 0
    ensures Owed(b, s, m') == Owed(a, s, m)
    decreases |b|
  {
    if |a| < |b| {
      OwedSame(a, b[..|b| - 1], s, m, m');
    } else if a != [] {
      OwedSame(a[..|a| - 1], b[..|b| - 1], s, m, m');
    }
  }

  lemma {:induction false} OwedUpdate(ts: seq<Thread>, u: Tid, th: Thread, s: Sid, m: map<Tid, nat>)
    requires u < |ts|
    ensures Owed(ts[u := th], s, m) + OwedTo(ts[u], u, s, m) == Owed(ts, s, m) + OwedTo(th, u, s, m)
  {
    var n := |ts| - 1;
    if u == n {
      assert ts[u := th][..n] == ts[..n];
    } else {
      assert ts[u := th][..n] == ts[..n][u := th];
      OwedUpdate(ts[..n], u, th, s, m);
    }
  }

  lemma {:induction false} NothingOwed(ts: seq<Thread>, s: Sid)
    ensures Owed(ts, s, map[]) == 0
  {
    if ts != [] { NothingOwed(ts[..|ts| - 1], s); }
  }

  // ---- steps that do not concern s

  lemma ApartOwes(k: State, k': State, s: Sid, m: map<Tid, nat>)
    requires Apart(k, k', Users)
    ensures Owed(k'.threads, s, m) == Owed(k.threads, s, m)
  {
    forall u: nat | u < |k.threads|
      ensures OwedTo(k'.threads[u], u, s, m) == OwedTo(k.threads[u], u, s, m)
    {
      assert ThreadApart(Th(k, u), Th(k', u), Users);
    }
    OwedSame(k.threads, k'.threads, s, m, m);
  }

  lemma WakesOwes(k: State, k': State, s: Sid, x: Sid, why: Manner, m: map<Tid, nat>)
    requires Linked(k) && WakesAt(k, k', x, why) && (x != s || why != Regular)
    ensures Owed(k'.threads, s, m) == Owed(k.threads, s, m)
  {
    forall u: nat | u < |k.threads|
      ensures OwedTo(k'.threads[u], u, s, m) == OwedTo(k.threads[u], u, s, m)
    {
      assert ContOk(k, u);
      assert Th(k', u) == Th(k, u) || (Th(k, u).blockedAt == Some(x) && Woken(Th(k, u), Th(k', u), why));
    }
    OwedSame(k.threads, k'.threads, s, m, m);
  }

  /** The running thread's record is all that changed, and it is owed nothing before and after. */
  lemma OnlyMeOwes(k: State, k': State, s: Sid, m: map<Tid, nat>, m': map<Tid, nat>)
    requires k.running < |k.threads| && k'.threads == k.threads[k.running := Th(k', k.running)]
    requires Me(k).cont.Run? && !(Th(k', k.running).cont.Waiting? && Th(k', k.running).blockedAt.None?)
    requires forall u: Tid :: u != k.running ==> AskedBy(m', u) == AskedBy(m, u)
    ensures Owed(k'.threads, s, m') == Owed(k.threads, s, m)
  {
    OwedSame(k.threads, k'.threads, s, m, m');
  }

  lemma ExitOwes(k: State, status: int, s: Sid, m: map<Tid, nat>)
    requires Busy(k)
    ensures Owed(Finish(k, status).threads, s, m) == Owed(k.threads, s, m)
  {
    FinishParts(k);
    var k1 := CloseMail(k);
    CloseMailApart(k, Users);
    FinishTailApart(k1, Users);
    var k3 := NotifyParent(CloseJoin(k1));
    var k4 := Close(k3, Me(k3).semJoinAll).0;
    ApartTransitive(k, k1, k4, Users);
    ApartOwes(k, k4, s, m);
    RetireCore(k4, status);
    RunningFree(k4);
    OnlyMeOwes(k4, Finish(k, status), s, m, m);
  }

  lemma CreateOwes(k: State, slice: nat, s: Sid, m: map<Tid, nat>)
    requires Busy(k)
    ensures Owed(Create(k, slice).threads, s, m) == Owed(k.threads, s, m)
  {
    RunningFree(k);
    CreateEffect(k, slice);
    OwedSame(k.threads, Create(k, slice).threads, s, m, m);
  }

  lemma TickOwes(k: State, s: Sid, m: map<Tid, nat>)
    requires Good(k)
    ensures Owed(TickStep(k).threads, s, m) == Owed(k.threads, s, m)
  {
    var woken := TickMeans(k);
    var k' := TickStep(k);
    forall u: nat | u < |k.threads|
      ensures OwedTo(k'.threads[u], u, s, m) == OwedTo(k.threads[u], u, s, m)
    {
      assert ContOk(k, u);
      DueSleeps(k, u);
    }
    OwedSame(k.threads, k'.threads, s, m, m);
  }

  lemma DueSleeps(k: State, u: Tid)
    requires Good(k)
    ensures DueNow(k, u) ==> u < |k.threads| && Th(k, u).sleeps
  {
    DeadlinesDomain(k.sleepers, 0);
  }

  lemma UserCallElsewhereOwes(k: State, call: Call, s: Sid, m: map<Tid, nat>)
    requires Busy(k) && CallOk(k, call) && CallFamily(call) == Users && call.s != s
    ensures Owed(Syscall(k, call).0.threads, s, m) == Owed(k.threads, s, m)
  {
    RunningFree(k);
    var k' := Syscall(k, call).0;
    match call
    case CallSemClose(x) =>
      CloseWakes(k, x, {k.running});
      WakesOwes(k, k', s, x, OnClose, m);
    case CallSemSignal(x, n) =>
      SignalWakes(k, x, n, {k.running});
      WakesOwes(k, k', s, x, Regular, m);
    case CallSemWait(x, n) =>
      WaitEffect(k, x, n, ForSem);
      OnlyMeOwes(k, k', s, m, m);
    case CallSemTimedWait(x, timeout, n) =>
      TimedWaitEffect(k, x, timeout, n, ForSem);
      OnlyMeOwes(k, k', s, m, m);
    case CallSemTryWait(x, n) =>
      SemTryWaitMeans(k, x, n);
      OnlyMeOwes(k, k', s, m, m);
  }

  lemma CallElsewhereOwes(k: State, call: Call, s: Sid, m: map<Tid, nat>)
    requires Busy(k) && CallOk(k, call) && (CallFamily(call) == Users ==> call.s != s)
    ensures Owed(Syscall(k, call).0.threads, s, m) == Owed(k.threads, s, m)
  {
    if CallFamily(call) == Users {
      UserCallElsewhereOwes(k, call, s, m);
    } else if call.CallExit? {
      ExitOwes(k, call.status, s, m);
    } else if call.CallCreate? {
      CreateOwes(k, call.slice, s, m);
    } else {
      CallApart(k, call, Users);
      ApartOwes(k, Syscall(k, call).0, s, m);
    }
  }

  lemma ResumeOwes(k: State, s: Sid, m: map<Tid, nat>)
    requires Good(k) && !Me(k).cont.Run?
    ensures Owed(ResumeStep(k).0.threads, s, m) + AnsweredBy(k, Resume, s, m) == Owed(k.threads, s, m)
  {
    RunningFree(k);
    if ContFamily(Me(k).cont) == Users {
      OwedUpdate(k.threads, k.running, Me(k).(cont := Run), s, m);
    } else {
      ResumeApart(k, Users);
      ApartOwes(k, ResumeStep(k).0, s, m);
    }
  }

  // ---- steps at s

  /** Who waits at s waits for its tokens and for nothing else. */
  ghost predicate PlainWaiters(k: State, s: Sid) {
    forall u: Tid :: u < |k.threads| && Th(k, u).blockedAt == Some(s) ==> Th(k, u).cont == Waiting(s, ForSem)
  }

  lemma UserWaiters(k: State, s: Sid)
    requires Linked(k) && s < |k.sems| && Sm(k, s).kind.UserSem?
    ensures PlainWaiters(k, s)
  {
    forall u: Tid | u < |k.threads| && Th(k, u).blockedAt == Some(s)
      ensures Th(k, u).cont == Waiting(s, ForSem)
    {
      assert ContOk(k, u);
    }
  }

  /** From k to k' the books count as completed what is then owed. */
  ghost predicate Owes(k: State, k': State, s: Sid, l: Ledger, r: Ledger) {
    r.asked == l.asked && r.completed + Owed(k.threads, s, l.asked) == l.completed + Owed(k'.threads, s, l.asked)
  }

  lemma OwesThen(k: State, k1: State, k2: State, s: Sid, l: Ledger, l1: Ledger, r: Ledger)
    requires Owes(k, k1, s, l, l1) && Owes(k1, k2, s, l1, r)
    ensures Owes(k, k2, s, l, r)
  {
  }

  lemma GrantOwes(k: State, s: Sid, l: Ledger, limbo: set<Tid>)
    requires Core(k, limbo) && s < |k.sems| && PlainWaiters(k, s) && l.sem == Sm(k, s) && l.sem.queue != []
    ensures var k1 := GrantHead(k, s, Regular);
      PlainWaiters(k1, s) && Owes(k, k1, s, l, Completed(l))
  {
    GrantHeadCore(k, s, Regular, limbo);
    var t := l.sem.queue[0].tid;
    OwedUpdate(k.threads, t, Th(GrantHead(k, s, Regular), t), s, l.asked);
  }

  lemma RoundOwes(k: State, s: Sid, n: nat, l: Ledger, limbo: set<Tid>) returns (k1: State, l1: Ledger)
    requires Core(k, limbo) && s < |k.sems| && PlainWaiters(k, s) && l.sem == Sm(k, s)
    requires l.sem.queue != [] && n != 0 && n >= l.sem.queue[0].n
    ensures Core(k1, limbo) && s < |k1.sems| && PlainWaiters(k1, s) && l1.sem == Sm(k1, s)
    ensures |Sm(k1, s).queue| < |Sm(k, s).queue| && Owes(k, k1, s, l, l1)
    ensures Serve(l, n) == Serve(l1, n - l.sem.queue[0].n)
    ensures SignalLoop(k, s, n) == SignalLoop(k1, s, n - l.sem.queue[0].n)
  {
    GrantedSem(k, s, l, limbo);
    GrantOwes(k, s, l, limbo);
    ServeNext(k, s, n, l);
    k1, l1 := GrantHead(k, s, Regular), Completed(l);
  }

  /** Handing out tokens completes the waits of exactly those who are then owed them. */
  lemma {:induction false} ServeOwes(k: State, s: Sid, n: nat, l: Ledger, limbo: set<Tid>)
    requires Core(k, limbo) && s < |k.sems| && n < TWO64 && PlainWaiters(k, s) && l.sem == Sm(k, s)
    ensures Owes(k, SignalLoop(k, s, n), s, l, Serve(l, n))
    decreases |Sm(k, s).queue|
  {
    var q := l.sem.queue;
    if q != [] && n != 0 && n >= q[0].n {
      var k1, l1 := RoundOwes(k, s, n, l, limbo);
      ServeOwes(k1, s, n - q[0].n, l1, limbo);
      OwesThen(k, k1, SignalLoop(k1, s, n - q[0].n), s, l, l1, Serve(l1, n - q[0].n));
    } else {
      ServeEnds(k, s, n, l);
    }
  }

  lemma ServeNext(k: State, s: Sid, n: nat, l: Ledger)
    requires l.sem == Sm(k, s) && l.sem.queue != [] && n != 0 && n >= l.sem.queue[0].n
    ensures Serve(l, n) == Serve(Completed(l), n - l.sem.queue[0].n)
    ensures SignalLoop(k, s, n) == SignalLoop(GrantHead(k, s, Regular), s, n - l.sem.queue[0].n)
  {
  }

  lemma ServeEnds(k: State, s: Sid, n: nat, l: Ledger)
    requires l.sem == Sm(k, s) && (l.sem.queue == [] || n == 0 || n < l.sem.queue[0].n)
    ensures Owes(k, SignalLoop(k, s, n), s, l, Serve(l, n))
  {
  }

  /** The books at s and the answers, over one step. */
  ghost predicate AnswersAgree(k: State, step: Step, s: Sid, l: Ledger, r: Ledger) {
    && r.completed + Owed(k.threads, s, l.asked)
       == l.completed + AnsweredBy(k, step, s, l.asked) + Owed(Next(k, step).0.threads, s, r.asked)
    && r.signalled == l.signalled + SignalledBy(step, s)
  }

  lemma SignalAgrees(k: State, s: Sid, n: nat, l: Ledger)
    requires Busy(k) && CallOk(k, CallSemSignal(s, n)) && Sm(k, s).active && l.sem == Sm(k, s)
    ensures AnswersAgree(k, Sys(CallSemSignal(s, n)), s, l, RecordAll(l, [Signalled(n)]))
  {
    UserWaiters(k, s);
    ServeOwes(k, s, n, l, {k.running});
    ServeSignalled(l, n);
  }

  lemma {:induction false} ServeSignalled(l: Ledger, n: nat)
    ensures Serve(l, n).signalled == l.signalled
    decreases |l.sem.queue|
  {
    var q := l.sem.queue;
    if q != [] && n != 0 && n >= q[0].n { ServeSignalled(Completed(l), n - q[0].n); }
  }

  lemma WaitAgrees(k: State, s: Sid, n: nat, l: Ledger)
    requires Busy(k) && CallOk(k, CallSemWait(s, n)) && Sm(k, s).active && l.sem == Sm(k, s)
    ensures AnswersAgree(k, Sys(CallSemWait(s, n)), s, l, RecordAll(l, [Waited(k.running, n)]))
  {
    RunningFree(k);
    WaitEffect(k, s, n, ForSem);
    OnlyMeOwes(k, Wait(k, s, n, ForSem).0, s, l.asked, Record(l, Waited(k.running, n)).asked);
  }

  lemma TimedWaitAgrees(k: State, s: Sid, timeout: nat, n: nat, l: Ledger)
    requires Busy(k) && CallOk(k, CallSemTimedWait(s, timeout, n)) && Sm(k, s).active && l.sem == Sm(k, s)
    ensures AnswersAgree(k, Sys(CallSemTimedWait(s, timeout, n)), s, l,
                         RecordAll(l, TimedEvents(k.running, timeout, n, Sm(k, s).value)))
  {
    RunningFree(k);
    TimedWaitEffect(k, s, timeout, n, ForSem);
    TimedRecord(l, k.running, timeout, n);
    OnlyMeOwes(k, TimedWait(k, s, timeout, n, ForSem).0, s, l.asked, Record(l, Waited(k.running, n)).asked);
  }

  lemma TimedRecord(l: Ledger, me: Tid, timeout: nat, n: nat)
    ensures var r := RecordAll(l, TimedEvents(me, timeout, n, l.sem.value));
      && r.completed == l.completed + (if l.sem.value >= n then n else 0) && r.signalled == l.signalled
      && r.asked == Record(l, Waited(me, n)).asked
  {
    RecordTwo(l, Waited(me, n), GaveUp(me));
  }

  lemma TryWaitAgrees(k: State, s: Sid, n: nat, l: Ledger)
    requires Busy(k) && CallOk(k, CallSemTryWait(s, n)) && Sm(k, s).active && l.sem == Sm(k, s)
    ensures AnswersAgree(k, Sys(CallSemTryWait(s, n)), s, l, RecordAll(l, [Tried(n)]))
  {
    RunningFree(k);
    SemTryWaitMeans(k, s, n);
    OnlyMeOwes(k, TryWait(k, s, n).0, s, l.asked, l.asked);
  }

  lemma {:induction false} GiveUpsAgree(l: Ledger, es: seq<SemEvent>)
    requires forall e :: e in es ==> e.GaveUp?
    ensures var r := RecordAll(l, es);
      r.completed == l.completed && r.signalled == l.signalled && r.asked == l.asked
    decreases |es|
  {
    if es != [] {
      assert es[0] in es;
      assert forall e :: e in es[1..] ==> e in es;
      GiveUpsAgree(Record(l, es[0]), es[1..]);
    }
  }

  lemma {:induction false} ExpireGivesUp(k: State, s: Sid)
    ensures forall e :: e in ExpireEvents(k, s) ==> e.GaveUp?
    decreases |k.sleepers|
  {
    if k.sleepers != [] && k.sleepers[0].n == 0 {
      ExpireGivesUp(ExpireHead(k), s);
    }
  }

  lemma CallAgrees(k: State, call: Call, s: Sid, l: Ledger)
    requires Busy(k) && CallOk(k, call) && Sm(k, s).active && l.sem == Sm(k, s)
    requires CallFamily(call) == Users && call.s == s && !call.CallSemClose?
    ensures AnswersAgree(k, Sys(call), s, l, RecordAll(l, EventsOf(k, Sys(call), s)))
  {
    match call
    case CallSemWait(_, n) => WaitAgrees(k, s, n, l);
    case CallSemTimedWait(_, timeout, n) => TimedWaitAgrees(k, s, timeout, n, l);
    case CallSemTryWait(_, n) => TryWaitAgrees(k, s, n, l);
    case CallSemSignal(_, n) => SignalAgrees(k, s, n, l);
  }

  lemma StepAgrees(k: State, step: Step, s: Sid, l: Ledger)
    requires Good(k) && Enabled(k, step) && s < |k.sems| && Sm(k, s).kind.UserSem? && Sm(k, s).active
    requires step != Sys(CallSemClose(s)) && l.sem == Sm(k, s)
    ensures AnswersAgree(k, step, s, l, RecordAll(l, EventsOf(k, step, s)))
  {
    match step
    case Tick =>
      TickOwes(k, s, l.asked);
      ExpireGivesUp(k.(sliceTicks := k.sliceTicks + 1, sleepers := Decrement(k.sleepers)), s);
      GiveUpsAgree(l, EventsOf(k, step, s));
    case Resume => ResumeOwes(k, s, l.asked);
    case Sys(call) =>
      if k.running == IDLE {
        assert Yield(k, true).threads == k.threads;
      } else if CallFamily(call) == Users && call.s == s {
        CallAgrees(k, call, s, l);
      } else {
        CallElsewhereOwes(k, call, s, l.asked);
      }
  }

  // ---- runs

  /** The tokens of the waits at s that the first j steps answered with 0. */
  ghost function AnsweredTokens(r: Trace, s: Sid, j: nat): nat
    requires |r.states| == |r.steps| + 1 && j <= |r.steps|
  {
    if j == 0 then 0
    else AnsweredTokens(r, s, j - 1) + AnsweredBy(r.states[j - 1], r.steps[j - 1], s, Books(r, s, j - 1).asked)
  }

  function SignalledTokens(r: Trace, s: Sid, j: nat): nat
    requires j <= |r.steps|
  {
    if j == 0 then 0 else SignalledTokens(r, s, j - 1) + SignalledBy(r.steps[j - 1], s)
  }

  /** A wait is completed when its caller is told so, or will be when it runs next. */
  ghost predicate BooksAgree(r: Trace, s: Sid, j: nat)
    requires |r.states| == |r.steps| + 1 && j <= |r.steps|
  {
    var l := Books(r, s, j);
    && l.completed == AnsweredTokens(r, s, j) + Owed(r.states[j].threads, s, l.asked)
    && l.signalled == SignalledTokens(r, s, j)
  }

  lemma AgreeOn(r: Trace, s: Sid, j: nat)
    requires Unused(r, s) && j < |r.steps| && r.steps[j] != Sys(CallSemClose(s))
    requires exists initial: nat :: BooksOk(r.states[j], s, Books(r, s, j), initial)
    requires BooksAgree(r, s, j)
    ensures BooksAgree(r, s, j + 1)
  {
    assert StepOf(r, j);
    StepAgrees(r.states[j], r.steps[j], s, Books(r, s, j));
  }

  lemma StaysOpenBefore(r: Trace, s: Sid, j: nat)
    requires j < |r.steps| && StaysOpen(r, s, j + 1)
    ensures StaysOpen(r, s, j) && r.steps[j] != Sys(CallSemClose(s))
  {
  }

  lemma {:induction false} CompletedAreAnswered(r: Trace, s: Sid, j: nat)
    requires Unused(r, s) && j <= |r.steps| && StaysOpen(r, s, j)
    ensures BooksAgree(r, s, j)
  {
    if j == 0 {
      NothingOwed(r.states[0].threads, s);
    } else {
      StaysOpenBefore(r, s, j - 1);
      CompletedAreAnswered(r, s, j - 1);
      TokensConserved(r, s, j - 1);
      AgreeOn(r, s, j - 1);
    }
  }

  /** Steps i + 1 to j - 1 do not close s. */
  ghost predicate OpenBetween(r: Trace, i: nat, j: nat, s: Sid)
    requires j <= |r.steps|
  {
    forall m: nat :: i < m < j ==> r.steps[m] != Sys(CallSemClose(s))
  }

  ghost predicate OneTokenBetween(r: Trace, i: nat, j: nat, s: Sid)
    requires j <= |r.steps|
  {
    forall m: nat :: i < m < j ==> OneTokenStep(r.steps[m], s)
  }

  /** The run that begins with the new semaphore; m of its steps lead to state j. */
  lemma OpenedRun(r: Trace, i: nat, j: nat, init: nat) returns (q: Trace, s: Sid, m: nat)
    requires FromBoot(r) && i < j <= |r.steps| && r.steps[i] == Sys(CallSemOpen(init))
    ensures s == |r.states[i].sems| && Next(r.states[i], r.steps[i]).1 == Handle(s)
    ensures q == Trace(r.states[i + 1..], r.steps[i + 1..]) && Unused(q, s) && Sm(q.states[0], s).value == init
    ensures m <= |q.steps| && i + 1 + m == j && q.states[m] == r.states[j]
    ensures OpenBetween(r, i, j, s) ==> StaysOpen(q, s, m)
    ensures OneTokenBetween(r, i, j, s) ==> OneTokenRun(q, s, m)
  {
    Reachable(r, i);
    assert StepOf(r, i);
    s := |r.states[i].sems|;
    SemOpenMeans(r.states[i], init);
    q := TailRun(r, i + 1);
    m := j - i - 1;
  }

  /** What went in: the first value and the signals.  What it became: the value, the tokens of waits that
      were answered 0 or will be, those that waiters hold or kept, and wraps. */
  ghost predicate Settled(q: Trace, s: Sid, m: nat, init: nat)
    requires |q.states| == |q.steps| + 1 && m <= |q.steps|
  {
    var l, x := Books(q, s, m), Sm(q.states[m], s);
    init + SignalledTokens(q, s, m)
    == x.value + AnsweredTokens(q, s, m) + Owed(q.states[m].threads, s, l.asked)
       + Absorbed(x.queue, l.asked) + l.timedOut + TWO64 * l.wraps
  }

  ghost predicate SettledSingly(q: Trace, s: Sid, m: nat, init: nat)
    requires |q.states| == |q.steps| + 1 && m <= |q.steps|
  {
    var l, x := Books(q, s, m), Sm(q.states[m], s);
    init + SignalledTokens(q, s, m)
    == x.value + AnsweredTokens(q, s, m) + Owed(q.states[m].threads, s, l.asked) + TWO64 * l.wraps
  }

  lemma BooksSettle(q: Trace, s: Sid, m: nat, init: nat)
    requires Unused(q, s) && Sm(q.states[0], s).value == init && m <= |q.steps| && StaysOpen(q, s, m)
    ensures Settled(q, s, m, init)
    ensures s < |q.states[m].sems| && q.states[m].sems[s].kind == UserSem && q.states[m].sems[s].active
    ensures OneTokenRun(q, s, m) ==> SettledSingly(q, s, m, init)
  {
    TokensConserved(q, s, m);
    CompletedAreAnswered(q, s, m);
    if OneTokenRun(q, s, m) { SingleTokensHeld(Books(q, s, m)); }
  }

  /** Conservation from sem_open on, in what the callers asked for and were told; with one-token waits
      nobody holds or keeps anything. */
  lemma TokensFromOpening(r: Trace, i: nat, j: nat, init: nat) returns (q: Trace, s: Sid, m: nat)
    requires FromBoot(r) && i < j <= |r.steps| && r.steps[i] == Sys(CallSemOpen(init))
    requires OpenBetween(r, i, j, |r.states[i].sems|)
    ensures s == |r.states[i].sems| && Next(r.states[i], r.steps[i]).1 == Handle(s)
    ensures q == Trace(r.states[i + 1..], r.steps[i + 1..]) && ValidTrace(q)
    ensures m <= |q.steps| && i + 1 + m == j && q.states[m] == r.states[j]
    ensures s < |r.states[j].sems| && r.states[j].sems[s].kind == UserSem && r.states[j].sems[s].active
    ensures Settled(q, s, m, init)
    ensures OneTokenBetween(r, i, j, s) ==> SettledSingly(q, s, m, init)
  {
    q, s, m := OpenedRun(r, i, j, init);
    BooksSettle(q, s, m, init);
  }
}
