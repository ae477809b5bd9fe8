/** The semaphores fall into four families: those opened by users, those behind join, those of the
    mailboxes and those of the character buffers.  A step of one family leaves the others alone. */
module Families {
  import opened KernelTypes
  import opened KernelSpec
  import opened Effects
  import opened LinkInvariant
  import opened KernelSteps

  datatype Family = Users | Joins | Mail | Buffers | Other

  function KindFamily(kind: Kind): Family {
    match kind
    case UserSem => Users
    case JoinOf(_) => Joins
    case JoinAllOf(_) => Joins
    case SendOf(_) => Mail
    case ReceiveOf(_) => Mail
    case PutOf(_) => Buffers
    case GetOf(_) => Buffers
    case LockOf(_) => Buffers
  }

  function WhyFamily(why: Why): Family {
    match why
    case ForSem => Users
    case ForJoin(_) => Joins
    case ForJoinAll => Joins
    case ForTimedJoinAll => Joins
    case ForSend(_, _) => Mail
    case ForReceive => Mail
    case ForPut(_, _) => Buffers
    case ForPutLock(_, _) => Buffers
    case ForGet(_) => Buffers
    case ForGetLock(_) => Buffers
  }

  function ContFamily(c: Cont): Family {
    if c.Waiting? then WhyFamily(c.why) else Other
  }

  /** Create and Exit touch several families. */
  function CallFamily(call: Call): Family {
    match call
    case CallJoin(_) => Joins
    case CallTimedJoin(_, _) => Joins
    case CallJoinAll => Joins
    case CallTimedJoinAll(_) => Joins
    case CallSend(_, _) => Mail
    case CallReceive => Mail
    case CallPut(_, _) => Buffers
    case CallGet(_) => Buffers
    case CallSemClose(_) => Users
    case CallSemWait(_, _) => Users
    case CallSemSignal(_, _) => Users
    case CallSemTimedWait(_, _, _) => Users
    case CallSemTryWait(_, _) => Users
    case _ => Other
  }

  ghost predicate SameFamilyTree(a: Thread, b: Thread) {
    b.finished == a.finished && b.children == a.children && SameLinks(a, b)
  }

  ghost predicate SameWaiting(a: Thread, b: Thread) {
    && b.blockedAt == a.blockedAt && b.cont == a.cont && b.manner == a.manner
  }

  ghost predicate ThreadApart(a: Thread, b: Thread, f: Family) {
    && b.finished == a.finished && SameLinks(a, b)
    && (f == Joins ==> SameFamilyTree(a, b))
    && (ContFamily(a.cont) == f || ContFamily(b.cont) == f ==> SameWaiting(a, b))
    && (f == Mail ==> b.message == a.message)
  }

  /** k and k' agree on everything that belongs to family f. */
  ghost predicate Apart(k: State, k': State, f: Family) {
    && |k'.threads| == |k.threads|
    && |k'.sems| >= |k.sems|
    && (forall s: Sid :: s < |k.sems| ==> Sm(k', s).kind == Sm(k, s).kind)
    && (forall s: Sid :: s < |k.sems| && KindFamily(Sm(k, s).kind) == f ==> Sm(k', s) == Sm(k, s))
    && (forall u: Tid :: u < |k.threads| ==> ThreadApart(Th(k, u), Th(k', u), f))
    && (f == Buffers ==> k'.bufs == k.bufs)
  }

  lemma ApartTransitive(k: State, k1: State, k2: State, f: Family)
    requires Apart(k, k1, f) && Apart(k1, k2, f)
    ensures Apart(k, k2, f)
  {
    forall u: Tid | u < |k.threads|
      ensures ThreadApart(Th(k, u), Th(k2, u), f)
    {
      assert ThreadApart(Th(k, u), Th(k1, u), f);
      assert ThreadApart(Th(k1, u), Th(k2, u), f);
    }
    forall s: Sid | s < |k.sems| && KindFamily(Sm(k, s).kind) == f
      ensures Sm(k2, s) == Sm(k, s)
    {
      assert Sm(k1, s) == Sm(k, s);
    }
  }

  lemma WhyFamilyOk(k: State, u: Tid, s: Sid, why: Why)
    requires WhyOk(k, u, s, why)
    ensures WhyFamily(why) == KindFamily(Sm(k, s).kind)
  {
  }

  lemma WakesAtApart(k: State, k': State, s: Sid, m: Manner, f: Family)
    requires Linked(k) && WakesAt(k, k', s, m)
    requires s < |k.sems| ==> KindFamily(Sm(k, s).kind) != f
    ensures Apart(k, k', f)
  {
    forall u: Tid | u < |k.threads|
      ensures ThreadApart(Th(k, u), Th(k', u), f)
    {
      assert ContOk(k, u);
      assert Th(k', u) == Th(k, u) || (Th(k, u).blockedAt == Some(s) && Woken(Th(k, u), Th(k', u), m));
      if Th(k', u) != Th(k, u) {
        WhyFamilyOk(k, u, s, Th(k, u).cont.why);
      }
    }
  }

  lemma SignalApart(k: State, s: Sid, tokens: nat, f: Family)
    requires Busy(k) && tokens < TWO64 && (s < |k.sems| ==> KindFamily(Sm(k, s).kind) != f)
    ensures Apart(k, Signal(k, s, tokens).0, f)
  {
    SignalWakes(k, s, tokens, {k.running});
    WakesAtApart(k, Signal(k, s, tokens).0, s, Regular, f);
  }

  lemma CloseApart(k: State, s: Sid, f: Family)
    requires Busy(k) && (s < |k.sems| ==> KindFamily(Sm(k, s).kind) != f)
    ensures Apart(k, Close(k, s).0, f)
  {
    CloseWakes(k, s, {k.running});
    WakesAtApart(k, Close(k, s).0, s, OnClose, f);
  }

  /** One thread and one semaphore changed, neither in family f. */
  lemma OneApart(k: State, k': State, t: Tid, f: Family)
    requires t < |k.threads| && |k'.threads| == |k.threads| && |k'.sems| == |k.sems|
    requires forall u: Tid :: u != t ==> Th(k', u) == Th(k, u)
    requires ThreadApart(Th(k, t), Th(k', t), f)
    requires forall s: Sid :: s < |k.sems| ==> Sm(k', s).kind == Sm(k, s).kind
    requires forall s: Sid :: s < |k.sems| && KindFamily(Sm(k, s).kind) == f ==> Sm(k', s) == Sm(k, s)
    requires f == Buffers ==> k'.bufs == k.bufs
    ensures Apart(k, k', f)
  {
    assert forall u: Tid :: u < |k.threads| ==> ThreadApart(Th(k, u), Th(k', u), f);
  }

  lemma MovedApart(k: State, k': State, s: Sid, why: Why, f: Family)
    requires Busy(k) && Moved(k, k', s, why)
    requires KindFamily(Sm(k, s).kind) != f && WhyFamily(why) != f && f != Other
    ensures Apart(k, k', f)
  {
    assert ThreadApart(Me(k), Th(k', k.running), f);
    OneApart(k, k', k.running, f);
  }

  lemma WaitApart(k: State, s: Sid, tokens: nat, why: Why, f: Family)
    requires Busy(k) && s < |k.sems| && KindFamily(Sm(k, s).kind) != f && WhyFamily(why) != f && f != Other
    ensures Apart(k, Wait(k, s, tokens, why).0, f)
  {
    WaitMoves(k, s, tokens, why);
    MovedApart(k, Wait(k, s, tokens, why).0, s, why, f);
  }

  lemma TimedWaitApart(k: State, s: Sid, timeout: nat, tokens: nat, why: Why, f: Family)
    requires Busy(k) && s < |k.sems| && KindFamily(Sm(k, s).kind) != f && WhyFamily(why) != f && f != Other
    ensures Apart(k, TimedWait(k, s, timeout, tokens, why).0, f)
  {
    TimedWaitMoves(k, s, timeout, tokens, why);
    MovedApart(k, TimedWait(k, s, timeout, tokens, why).0, s, why, f);
  }

  // ---- chained handlers

  lemma SendBodyApart(k: State, to: Tid, text: string, f: Family)
    requires Busy(k) && to < |k.threads| && f != Mail && f != Other
    ensures Apart(k, SendBody(k, to, text).0, f)
  {
    assert OwnsSems(k, to);
    var th := Th(k, to).(message := Some(Truncate(text)));
    FieldBusy(k, to, th);
    var k1 := SetTh(k, to, th);
    OneApart(k, k1, to, f);
    SignalApart(k1, th.semReceive, 1, f);
    ApartTransitive(k, k1, SendBody(k, to, text).0, f);
  }

  lemma ReceiveBodyApart(k: State, f: Family)
    requires Busy(k) && f != Mail
    ensures Apart(k, ReceiveBody(k).0, f)
  {
    assert OwnsSems(k, k.running);
    SignalApart(k, Me(k).semSend, 1, f);
  }

  lemma BufferApart(k: State, b: nat, x: Buffer, f: Family)
    requires f != Buffers
    ensures Apart(k, SetBf(k, b, x), f)
  {
  }

  lemma PutBodyApart(k: State, b: nat, c: char, f: Family)
    requires Busy(k) && b < |k.bufs| && f != Buffers
    ensures Apart(k, PutBody(k, b, c).0, f)
  {
    assert BufferOwnsSems(k, b);
    var x := Bf(k, b);
    var x' := if x.posW < |x.data| then x.(data := x.data[x.posW := c], posW := (x.posW + 1) % BUFFER_LENGTH) else x;
    BufferBusy(k, b, x');
    BufferApart(k, b, x', f);
    var k1 := RingPut(k, b, c);
    assert k1 == SetBf(k, b, x');
    SignalBusy(k1, x.mutex, 1);
    SignalApart(k1, x.mutex, 1, f);
    var k2 := Signal(k1, x.mutex, 1).0;
    SignalWakes(k1, x.mutex, 1, {k1.running});
    SignalApart(k2, x.semGet, 1, f);
    ApartTransitive(k, k1, k2, f);
    ApartTransitive(k, k2, PutBody(k, b, c).0, f);
  }

  lemma GetBodyApart(k: State, b: nat, f: Family)
    requires Busy(k) && b < |k.bufs| && f != Buffers
    ensures Apart(k, GetBody(k, b).0, f)
  {
    assert BufferOwnsSems(k, b);
    var x := Bf(k, b);
    var x' := if x.posR < |x.data| then x.(posR := (x.posR + 1) % BUFFER_LENGTH) else x;
    BufferBusy(k, b, x');
    BufferApart(k, b, x', f);
    var k1 := RingGet(k, b).0;
    assert k1 == SetBf(k, b, x');
    SignalBusy(k1, x.mutex, 1);
    SignalApart(k1, x.mutex, 1, f);
    var k2 := Signal(k1, x.mutex, 1).0;
    SignalWakes(k1, x.mutex, 1, {k1.running});
    SignalApart(k2, x.semPut, 1, f);
    ApartTransitive(k, k1, k2, f);
    ApartTransitive(k, k2, GetBody(k, b).0, f);
  }

  lemma PutLockedApart(k: State, b: nat, c: char, f: Family)
    requires Busy(k) && b < |k.bufs| && f != Buffers && f != Other
    ensures Apart(k, PutLocked(k, b, c).0, f)
  {
    assert BufferOwnsSems(k, b);
    var (k1, w) := Wait(k, Bf(k, b).mutex, 1, ForPutLock(b, c));
    WaitBusy(k, Bf(k, b).mutex, 1, ForPutLock(b, c));
    WaitApart(k, Bf(k, b).mutex, 1, ForPutLock(b, c), f);
    if w.Some? {
      PutBodyApart(k1, b, c, f);
      ApartTransitive(k, k1, PutLocked(k, b, c).0, f);
    }
  }

  lemma GetLockedApart(k: State, b: nat, f: Family)
    requires Busy(k) && b < |k.bufs| && f != Buffers && f != Other
    ensures Apart(k, GetLocked(k, b).0, f)
  {
    assert BufferOwnsSems(k, b);
    var (k1, w) := Wait(k, Bf(k, b).mutex, 1, ForGetLock(b));
    WaitBusy(k, Bf(k, b).mutex, 1, ForGetLock(b));
    WaitApart(k, Bf(k, b).mutex, 1, ForGetLock(b), f);
    if w.Some? {
      GetBodyApart(k1, b, f);
      ApartTransitive(k, k1, GetLocked(k, b).0, f);
    }
  }

  // ---- steps

  lemma SendApart(k: State, to: Tid, text: string, f: Family)
    requires Busy(k) && to < |k.threads| && to != IDLE && '\0' !in text && f != Mail && f != Other
    ensures Apart(k, Send(k, to, text).0, f)
  {
    if to == k.running {
      SameListsApart(k, k, f);
    } else {
      assert OwnsSems(k, to);
      var (k1, w) := Wait(k, Th(k, to).semSend, 1, ForSend(to, text));
      WaitBusy(k, Th(k, to).semSend, 1, ForSend(to, text));
      WaitApart(k, Th(k, to).semSend, 1, ForSend(to, text), f);
      if w.Some? {
        SendBodyApart(k1, to, text, f);
        ApartTransitive(k, k1, SendBody(k1, to, text).0, f);
      }
    }
  }

  lemma ReceiveApart(k: State, f: Family)
    requires Busy(k) && f != Mail && f != Other
    ensures Apart(k, Receive(k).0, f)
  {
    assert OwnsSems(k, k.running);
    var (k1, w) := Wait(k, Me(k).semReceive, 1, ForReceive);
    WaitBusy(k, Me(k).semReceive, 1, ForReceive);
    WaitApart(k, Me(k).semReceive, 1, ForReceive, f);
    if w.Some? {
      ReceiveBodyApart(k1, f);
      ApartTransitive(k, k1, ReceiveBody(k1).0, f);
    }
  }

  lemma MailCallApart(k: State, call: Call, f: Family)
    requires Busy(k) && CallOk(k, call) && CallFamily(call) == Mail && f != Mail && f != Other
    ensures Apart(k, Syscall(k, call).0, f)
  {
    match call
    case CallSend(to, text) => SendApart(k, to, text, f);
    case CallReceive => ReceiveApart(k, f);
  }

  lemma PutApart(k: State, b: nat, c: char, f: Family)
    requires Busy(k) && b < |k.bufs| && f != Buffers && f != Other
    ensures Apart(k, Put(k, b, c).0, f)
  {
    assert BufferOwnsSems(k, b);
    var (k1, w) := Wait(k, Bf(k, b).semPut, 1, ForPut(b, c));
    WaitBusy(k, Bf(k, b).semPut, 1, ForPut(b, c));
    WaitApart(k, Bf(k, b).semPut, 1, ForPut(b, c), f);
    if w.Some? {
      PutLockedApart(k1, b, c, f);
      ApartTransitive(k, k1, PutLocked(k1, b, c).0, f);
    }
  }

  lemma GetApart(k: State, b: nat, f: Family)
    requires Busy(k) && b < |k.bufs| && f != Buffers && f != Other
    ensures Apart(k, Get(k, b).0, f)
  {
    assert BufferOwnsSems(k, b);
    var (k1, w) := Wait(k, Bf(k, b).semGet, 1, ForGet(b));
    WaitBusy(k, Bf(k, b).semGet, 1, ForGet(b));
    WaitApart(k, Bf(k, b).semGet, 1, ForGet(b), f);
    if w.Some? {
      GetLockedApart(k1, b, f);
      ApartTransitive(k, k1, GetLocked(k1, b).0, f);
    }
  }

  lemma BufferCallApart(k: State, call: Call, f: Family)
    requires Busy(k) && CallOk(k, call) && CallFamily(call) == Buffers && f != Buffers && f != Other
    ensures Apart(k, Syscall(k, call).0, f)
  {
    match call
    case CallPut(b, c) => PutApart(k, b, c, f);
    case CallGet(b) => GetApart(k, b, f);
  }

  lemma UserCallApart(k: State, call: Call, f: Family)
    requires Busy(k) && CallOk(k, call) && CallFamily(call) == Users && f != Users && f != Other
    ensures Apart(k, Syscall(k, call).0, f)
  {
    match call
    case CallSemClose(s) => CloseApart(k, s, f);
    case CallSemWait(s, tokens) => WaitApart(k, s, tokens, ForSem, f);
    case CallSemSignal(s, tokens) => SignalApart(k, s, tokens, f);
    case CallSemTimedWait(s, timeout, tokens) => TimedWaitApart(k, s, timeout, tokens, ForSem, f);
    case CallSemTryWait(s, tokens) => TryWaitApart(k, s, tokens, f);
  }

  lemma TryWaitApart(k: State, s: Sid, tokens: nat, f: Family)
    requires Busy(k) && s < |k.sems| && KindFamily(Sm(k, s).kind) != f && f != Other
    ensures Apart(k, TryWait(k, s, tokens).0, f)
  {
    OneApart(k, TryWait(k, s, tokens).0, k.running, f);
  }

  lemma JoinApart(k: State, t: Tid, timeout: nat, f: Family)
    requires Busy(k) && t < |k.threads| && f != Joins && f != Other
    ensures Apart(k, Join(k, t).0, f) && Apart(k, TimedJoin(k, t, timeout).0, f)
  {
    assert OwnsSems(k, t);
    if t != k.running && !Th(k, t).finished {
      WaitApart(k, Th(k, t).semJoin, 1, ForJoin(t), f);
      TimedWaitApart(k, Th(k, t).semJoin, timeout, 1, ForJoin(t), f);
    }
  }

  lemma JoinAllApart(k: State, timeout: nat, f: Family)
    requires Busy(k) && f != Joins && f != Other
    ensures Apart(k, JoinAll(k).0, f) && Apart(k, TimedJoinAll(k, timeout).0, f)
  {
    assert OwnsSems(k, k.running);
    WaitApart(k, Me(k).semJoinAll, Me(k).children, ForJoinAll, f);
    TimedWaitApart(k, Me(k).semJoinAll, timeout, Me(k).children, ForTimedJoinAll, f);
  }

  lemma JoinCallApart(k: State, call: Call, f: Family)
    requires Busy(k) && CallOk(k, call) && CallFamily(call) == Joins && f != Joins && f != Other
    ensures Apart(k, Syscall(k, call).0, f)
  {
    match call
    case CallJoin(t) => JoinApart(k, t, 0, f);
    case CallTimedJoin(t, timeout) => JoinApart(k, t, timeout, f);
    case CallJoinAll => JoinAllApart(k, 0, f);
    case CallTimedJoinAll(timeout) => JoinAllApart(k, timeout, f);
  }

  lemma SleepApart(k: State, timeout: nat, f: Family)
    requires Busy(k) && f != Other
    ensures Apart(k, Sleep(k, timeout, Sleeping).0, f)
  {
    SleepEffect(k, timeout);
    OneApart(k, Sleep(k, timeout, Sleeping).0, k.running, f);
  }

  lemma SemOpenApart(k: State, init: nat, f: Family)
    requires Busy(k) && f != Other
    ensures Apart(k, SemOpen(k, init), f)
  {
    assert forall s: Sid :: s < |k.sems| ==> Sm(SemOpen(k, init), s) == Sm(k, s);
  }

  lemma OtherCallApart(k: State, call: Call, f: Family)
    requires Busy(k) && CallFamily(call) == Other && f != Other
    requires !call.CallCreate? && !call.CallExit?
    ensures Apart(k, Syscall(k, call).0, f)
  {
    match call
    case CallDispatch => SameListsApart(k, Yield(k, true), f);
    case CallSemOpen(init) => SemOpenApart(k, init, f);
    case CallSleep(timeout) => SleepApart(k, timeout, f);
  }

  /** A call of another family, or of none, leaves family f alone. */
  lemma CallApart(k: State, call: Call, f: Family)
    requires Busy(k) && CallOk(k, call) && CallFamily(call) != f && f != Other
    requires !call.CallCreate? && !call.CallExit?
    ensures Apart(k, Syscall(k, call).0, f)
  {
    match CallFamily(call)
    case Users => UserCallApart(k, call, f);
    case Joins => JoinCallApart(k, call, f);
    case Mail => MailCallApart(k, call, f);
    case Buffers => BufferCallApart(k, call, f);
    case Other => OtherCallApart(k, call, f);
  }

  lemma ResumeApart(k: State, f: Family)
    requires Good(k) && !Me(k).cont.Run? && ContFamily(Me(k).cont) != f && f != Other
    ensures Apart(k, ResumeStep(k).0, f)
  {
    WokenBusy(k);
    RunningFree(k);
    assert ContOk(k, k.running);
    var k1 := WithCont(k, Run);
    OneApart(k, k1, k.running, f);
    if Me(k).cont.Waiting? {
      assert Owned(k, Me(k).cont.s);
      match Me(k).cont.why
      case ForSend(to, text) =>
        SendBodyApart(k1, to, text, f);
        ApartTransitive(k, k1, ResumeStep(k).0, f);
      case ForReceive =>
        ReceiveBodyApart(k1, f);
        ApartTransitive(k, k1, ResumeStep(k).0, f);
      case ForPut(b, c) =>
        PutLockedApart(k1, b, c, f);
        ApartTransitive(k, k1, ResumeStep(k).0, f);
      case ForPutLock(b, c) =>
        PutBodyApart(k1, b, c, f);
        ApartTransitive(k, k1, ResumeStep(k).0, f);
      case ForGet(b) =>
        GetLockedApart(k1, b, f);
        ApartTransitive(k, k1, ResumeStep(k).0, f);
      case ForGetLock(b) =>
        GetBodyApart(k1, b, f);
        ApartTransitive(k, k1, ResumeStep(k).0, f);
      case _ =>
    }
  }

  lemma TickLeavesQueue(k: State, s: Sid)
    requires Good(k) && s < |k.sems| && (KindFamily(Sm(k, s).kind) == Mail || KindFamily(Sm(k, s).kind) == Buffers)
    ensures Sm(OnTick(k), s) == Sm(k, s)
  {
    DecrementCore(k, {k.running});
    var k1 := DeltasCounted(k);
    forall u: Tid | u < |k.threads| && Th(k, u).sleeps
      ensures Th(k, u).blockedAt != Some(s)
    {
      assert ContOk(k, u);
    }
    assert forall u: Tid :: Th(k1, u) == Th(k, u);
    ExpireLoopLeaves(k1, s, {k.running});
  }

  lemma OnTickApart(k: State, f: Family)
    requires Good(k) && (f == Mail || f == Buffers)
    ensures Apart(k, OnTick(k), f)
  {
    OnTickGood(k);
    var k1 := OnTick(k);
    forall u: Tid | u < |k.threads|
      ensures ThreadApart(Th(k, u), Th(k1, u), f)
    {
      assert ContOk(k, u);
      assert Th(k1, u) == Th(k, u) || Expired(Th(k, u), Th(k1, u));
    }
    forall s: Sid | s < |k.sems| && KindFamily(Sm(k, s).kind) == f
      ensures Sm(k1, s) == Sm(k, s)
    {
      TickLeavesQueue(k, s);
    }
  }

  /** No wait of the mailboxes and the buffers is timed, so a tick leaves them alone. */
  lemma TickApart(k: State, f: Family)
    requires Good(k) && (f == Mail || f == Buffers)
    ensures Apart(k, TickStep(k), f)
  {
    var k1 := TickParts(k);
    OnTickApart(SliceCounted(k), f);
    ApartSameLists(SliceCounted(k), k1, k, TickStep(k), f);
  }

  lemma ApartSameLists(a: State, b: State, k: State, k': State, f: Family)
    requires Apart(a, b, f)
    requires k.threads == a.threads && k.sems == a.sems && k.bufs == a.bufs
    requires k'.threads == b.threads && k'.sems == b.sems && k'.bufs == b.bufs
    ensures Apart(k, k', f)
  {
    assert forall u: Tid :: Th(k, u) == Th(a, u) && Th(k', u) == Th(b, u);
    assert forall s: Sid :: Sm(k, s) == Sm(a, s) && Sm(k', s) == Sm(b, s);
  }

  lemma SameListsApart(k: State, k': State, f: Family)
    requires k'.threads == k.threads && k'.sems == k.sems && k'.bufs == k.bufs
    ensures Apart(k, k', f)
  {
  }

  // ---- finish, seen from the mailboxes and the buffers

  lemma SignalAllApart(k: State, s: Sid, tokens: nat, f: Family)
    requires Busy(k) && tokens < TWO64 && (s < |k.sems| ==> KindFamily(Sm(k, s).kind) != f)
    ensures Apart(k, SignalAll(k, s, tokens, false), f)
  {
    SignalAllWakes(k, s, tokens, false, {k.running});
    WakesAtApart(k, SignalAll(k, s, tokens, false), s, Regular, f);
  }

  lemma CloseJoinApart(k: State, f: Family)
    requires Busy(k) && f != Joins && f != Other
    ensures Apart(k, CloseJoin(k), f)
  {
    assert OwnsSems(k, k.running);
    var s := Me(k).semJoin;
    SignalAllBusy(k, s, 0);
    SignalAllApart(k, s, 0, f);
    var a := SignalAll(k, s, 0, false);
    CloseApart(a, s, f);
    ApartTransitive(k, a, CloseJoin(k), f);
  }

  lemma ChildDroppedApart(k: State, p: Tid, f: Family)
    requires Busy(k) && p < |k.threads| && f != Joins && f != Other
    ensures Apart(k, ChildDropped(k, p), f)
  {
    OneApart(k, ChildDropped(k, p), p, f);
  }

  lemma ParentWokenApart(k: State, p: Tid, f: Family)
    requires Busy(k) && p < |k.threads| && f != Joins && f != Other
    ensures Apart(k, ParentWoken(k, p), f)
  {
    assert OwnsSems(k, p);
    SameListsApart(k, k, f);
    SignalApart(k, Th(k, p).semJoinAll, 1, f);
  }

  lemma NotifyParentApart(k: State, f: Family)
    requires Busy(k) && f != Joins && f != Other
    ensures Apart(k, NotifyParent(k), f)
  {
    RunningFree(k);
    if Me(k).parent.Some? && !Th(k, Me(k).parent.value).finished {
      ParentOlder(k);
      var p := Me(k).parent.value;
      ChildDroppedBusy(k, p);
      ChildDroppedApart(k, p, f);
      ParentWokenApart(ChildDropped(k, p), p, f);
      ApartTransitive(k, ChildDropped(k, p), NotifyParent(k), f);
    } else {
      SameListsApart(k, k, f);
    }
  }

  lemma FinishTailApart(k: State, f: Family)
    requires Busy(k) && f != Joins && f != Other
    ensures var k3 := NotifyParent(CloseJoin(k));
      var k4 := Close(k3, Me(k3).semJoinAll).0;
      Busy(k4) && Apart(k, k4, f) && k4.running == k.running && Me(k4) == Me(k)
  {
    var s := Me(k).semJoin;
    SignalAllBusy(k, s, 0);
    CloseBusy(SignalAll(k, s, 0, false), s);
    var k2 := CloseJoin(k);
    CloseJoinApart(k, f);
    NotifyParentBusy(k2);
    NotifyParentApart(k2, f);
    var k3 := NotifyParent(k2);
    assert OwnsSems(k3, k3.running);
    CloseBusy(k3, Me(k3).semJoinAll);
    CloseApart(k3, Me(k3).semJoinAll, f);
    ApartTransitive(k, k2, k3, f);
    ApartTransitive(k, k3, Close(k3, Me(k3).semJoinAll).0, f);
  }

  lemma CloseMailApart(k: State, f: Family)
    requires Busy(k) && f != Mail && f != Other
    ensures Apart(k, CloseMail(k), f) && Busy(CloseMail(k))
  {
    assert OwnsSems(k, k.running);
    CloseBusy(k, Me(k).semSend);
    CloseApart(k, Me(k).semSend, f);
    var a := Close(k, Me(k).semSend).0;
    CloseBusy(a, Me(k).semReceive);
    CloseApart(a, Me(k).semReceive, f);
    ApartTransitive(k, a, CloseMail(k), f);
  }
}
