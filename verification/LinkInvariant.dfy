/** Which semaphore belongs to whom, and what each suspended thread is waiting to continue with. */
module LinkInvariant {
  import opened KernelTypes
  import opened KernelSpec
  import opened PlaceInvariant
  import opened Effects

  ghost predicate KindIs(k: State, s: Sid, kind: Kind) {
    s < |k.sems| && Sm(k, s).kind == kind
  }

  ghost predicate OwnsSems(k: State, t: Tid) {
    var th := Th(k, t);
    && KindIs(k, th.semJoin, JoinOf(t))
    && KindIs(k, th.semJoinAll, JoinAllOf(t))
    && KindIs(k, th.semSend, SendOf(t))
    && KindIs(k, th.semReceive, ReceiveOf(t))
    && (th.parent.Some? ==> th.parent.value < t)
  }

  ghost predicate BufferOwnsSems(k: State, b: nat) {
    var x := Bf(k, b);
    && KindIs(k, x.semPut, PutOf(b))
    && KindIs(k, x.semGet, GetOf(b))
    && KindIs(k, x.mutex, LockOf(b))
  }

  /** A kind names the only semaphore of that kind. */
  ghost predicate Owned(k: State, s: Sid) {
    match Sm(k, s).kind
    case UserSem => true
    case JoinOf(t) => t < |k.threads| && Th(k, t).semJoin == s
    case JoinAllOf(t) => t < |k.threads| && Th(k, t).semJoinAll == s
    case SendOf(t) => t < |k.threads| && Th(k, t).semSend == s
    case ReceiveOf(t) => t < |k.threads| && Th(k, t).semReceive == s
    case PutOf(b) => b < |k.bufs| && Bf(k, b).semPut == s
    case GetOf(b) => b < |k.bufs| && Bf(k, b).semGet == s
    case LockOf(b) => b < |k.bufs| && Bf(k, b).mutex == s
  }

  /** The semaphore a thread waits at is the one its continuation speaks of. */
  ghost predicate WhyOk(k: State, u: Tid, s: Sid, why: Why) {
    match why
    case ForSem => KindIs(k, s, UserSem)
    case ForJoin(t) => t != u && KindIs(k, s, JoinOf(t))
    case ForJoinAll => KindIs(k, s, JoinAllOf(u))
    case ForTimedJoinAll => KindIs(k, s, JoinAllOf(u))
    case ForSend(t, text) => t != u && t != IDLE && '\0' !in text && KindIs(k, s, SendOf(t))
    case ForReceive => KindIs(k, s, ReceiveOf(u))
    case ForPut(b, _) => KindIs(k, s, PutOf(b))
    case ForPutLock(b, _) => KindIs(k, s, LockOf(b))
    case ForGet(b) => KindIs(k, s, GetOf(b))
    case ForGetLock(b) => KindIs(k, s, LockOf(b))
  }

  ghost predicate ContOk(k: State, u: Tid) {
    var th := Th(k, u);
    && (th.cont.Waiting? ==> WhyOk(k, u, th.cont.s, th.cont.why))
    && (th.blockedAt.Some? ==> th.cont.Waiting? && th.blockedAt == Some(th.cont.s))
    && (th.sleeps ==> th.cont.Sleeping? || (th.cont.Waiting? && Timed(th.cont.why)
                                            && th.blockedAt == Some(th.cont.s)))
    && (th.finished || u == IDLE ==> th.cont.Run?)
  }

  ghost predicate Linked(k: State) {
    && (forall t: Tid :: t < |k.threads| ==> OwnsSems(k, t))
    && (forall b: nat :: b < |k.bufs| ==> BufferOwnsSems(k, b))
    && (forall s: Sid :: s < |k.sems| ==> Owned(k, s))
    && (forall u: Tid :: u < |k.threads| ==> ContOk(k, u))
  }

  /** The links of b are those of a. */
  ghost predicate SameLinks(a: Thread, b: Thread) {
    && b.parent == a.parent && b.semJoin == a.semJoin && b.semJoinAll == a.semJoinAll
    && b.semSend == a.semSend && b.semReceive == a.semReceive
  }

  ghost predicate SameBufferLinks(a: Buffer, b: Buffer) {
    b.semPut == a.semPut && b.semGet == a.semGet && b.mutex == a.mutex
  }

  /** Nothing was created, and nothing changed hands. */
  ghost predicate SameWorld(k: State, k': State) {
    && |k'.threads| == |k.threads| && |k'.sems| == |k.sems| && |k'.bufs| == |k.bufs|
    && (forall t: Tid :: t < |k.threads| ==> SameLinks(Th(k, t), Th(k', t)))
    && (forall s: Sid :: s < |k.sems| ==> Sm(k', s).kind == Sm(k, s).kind)
    && (forall b: nat :: b < |k.bufs| ==> SameBufferLinks(Bf(k, b), Bf(k', b)))
  }

  lemma SameWorldLinked(k: State, k': State)
    requires Linked(k) && SameWorld(k, k')
    requires forall u: Tid :: u < |k.threads| ==> ContOk(k', u)
    ensures Linked(k')
  {
    forall t: Tid | t < |k.threads|
      ensures OwnsSems(k', t)
    {
      assert OwnsSems(k, t) && SameLinks(Th(k, t), Th(k', t));
    }
    forall b: nat | b < |k.bufs|
      ensures BufferOwnsSems(k', b)
    {
      assert BufferOwnsSems(k, b) && SameBufferLinks(Bf(k, b), Bf(k', b));
    }
    forall s: Sid | s < |k.sems|
      ensures Owned(k', s)
    {
      assert Owned(k, s);
      match Sm(k, s).kind
      case UserSem =>
      case JoinOf(t) => assert SameLinks(Th(k, t), Th(k', t));
      case JoinAllOf(t) => assert SameLinks(Th(k, t), Th(k', t));
      case SendOf(t) => assert SameLinks(Th(k, t), Th(k', t));
      case ReceiveOf(t) => assert SameLinks(Th(k, t), Th(k', t));
      case PutOf(b) => assert SameBufferLinks(Bf(k, b), Bf(k', b));
      case GetOf(b) => assert SameBufferLinks(Bf(k, b), Bf(k', b));
      case LockOf(b) => assert SameBufferLinks(Bf(k, b), Bf(k', b));
    }
  }

  lemma SameWhy(k: State, k': State, u: Tid)
    requires SameWorld(k, k') && u < |k.threads|
    requires ContOk(k, u) && Th(k', u).cont == Th(k, u).cont && Th(k', u).finished == Th(k, u).finished
    requires Th(k', u).blockedAt.None? || Th(k', u).blockedAt == Th(k, u).blockedAt
    requires Th(k', u).sleeps ==> Th(k, u).sleeps && Th(k', u).blockedAt == Th(k, u).blockedAt
    ensures ContOk(k', u)
  {
  }

  /** A step part that keeps every continuation. */
  lemma KeepsLinked(k: State, k': State)
    requires Linked(k) && SameWorld(k, k')
    requires forall u: Tid :: u < |k.threads| ==>
      && Th(k', u).cont == Th(k, u).cont && Th(k', u).finished == Th(k, u).finished
      && (Th(k', u).blockedAt.None? || Th(k', u).blockedAt == Th(k, u).blockedAt)
      && (Th(k', u).sleeps ==> Th(k, u).sleeps && Th(k', u).blockedAt == Th(k, u).blockedAt)
    ensures Linked(k')
  {
    forall u: Tid | u < |k.threads|
      ensures ContOk(k', u)
    {
      assert ContOk(k, u);
      SameWhy(k, k', u);
    }
    SameWorldLinked(k, k');
  }

  lemma WakesAtLinked(k: State, k': State, s: Sid, m: Manner)
    requires Linked(k) && WakesAt(k, k', s, m)
    ensures SameWorld(k, k') && Linked(k')
  {
    forall u: Tid | u < |k.threads|
      ensures Th(k', u) == Th(k, u) || (Th(k, u).blockedAt == Some(s) && Woken(Th(k, u), Th(k', u), m))
    {
    }
    KeepsLinked(k, k');
  }

  lemma WakesDueLinked(k: State, k': State)
    requires Linked(k) && WakesDue(k, k')
    ensures SameWorld(k, k') && Linked(k')
  {
    forall u: Tid | u < |k.threads|
      ensures Th(k', u) == Th(k, u) || Expired(Th(k, u), Th(k', u))
    {
    }
    KeepsLinked(k, k');
  }

  /** The running thread alone changes; its links stay. */
  lemma OneThreadLinked(k: State, k': State, t: Tid)
    requires Linked(k) && t < |k.threads| && |k'.threads| == |k.threads|
    requires forall u: Tid :: u != t ==> Th(k', u) == Th(k, u)
    requires SameLinks(Th(k, t), Th(k', t)) && ContOk(k', t)
    requires |k'.sems| == |k.sems| && forall s: Sid :: s < |k.sems| ==> Sm(k', s).kind == Sm(k, s).kind
    requires |k'.bufs| == |k.bufs| && forall b: nat :: b < |k.bufs| ==> SameBufferLinks(Bf(k, b), Bf(k', b))
    ensures Linked(k') && SameWorld(k, k')
  {
    forall u: Tid | u < |k.threads|
      ensures ContOk(k', u)
    {
      if u != t {
        assert ContOk(k, u);
        SameWhy(k, k', u);
      }
    }
    SameWorldLinked(k, k');
  }

  // ---- the operations that only wake

  lemma SignalLinked(k: State, s: Sid, tokens: nat, limbo: set<Tid>)
    requires Core(k, limbo) && Linked(k) && tokens < TWO64
    ensures Linked(Signal(k, s, tokens).0) && SameWorld(k, Signal(k, s, tokens).0)
  {
    SignalWakes(k, s, tokens, limbo);
    WakesAtLinked(k, Signal(k, s, tokens).0, s, Regular);
  }

  lemma SignalAllLinked(k: State, s: Sid, tokens: nat, onClose: bool, limbo: set<Tid>)
    requires Core(k, limbo) && Linked(k) && tokens < TWO64
    ensures Linked(SignalAll(k, s, tokens, onClose)) && SameWorld(k, SignalAll(k, s, tokens, onClose))
  {
    SignalAllWakes(k, s, tokens, onClose, limbo);
    WakesAtLinked(k, SignalAll(k, s, tokens, onClose), s, if onClose then OnClose else Regular);
  }

  lemma CloseLinked(k: State, s: Sid, limbo: set<Tid>)
    requires Core(k, limbo) && Linked(k)
    ensures Linked(Close(k, s).0) && SameWorld(k, Close(k, s).0)
  {
    CloseWakes(k, s, limbo);
    WakesAtLinked(k, Close(k, s).0, s, OnClose);
  }

  // ---- the calls that may suspend

  lemma MovedLinked(k: State, k': State, s: Sid, why: Why)
    requires Linked(k) && Moved(k, k', s, why) && ContOk(k', k.running)
    ensures Linked(k') && SameWorld(k, k')
  {
    assert forall u: Tid :: u != k.running ==> Th(k', u) == Th(k, u);
    assert forall x: Sid :: x < |k.sems| ==> Sm(k', x).kind == Sm(k, x).kind;
    OneThreadLinked(k, k', k.running);
  }

  /** What a wait leaves in the caller's record agrees with itself. */
  lemma WaitingOk(k: State, k': State, s: Sid, why: Why)
    requires Steady(k) && Linked(k) && Moved(k, k', s, why) && WhyOk(k, k.running, s, why)
    requires Me(k).cont.Run? && k.running != IDLE
    requires var me := Th(k', k.running);
      if me.blockedAt.Some? then me.blockedAt == Some(s) && me.cont == Waiting(s, why) && (me.sleeps ==> Timed(why))
      else !me.sleeps
    ensures ContOk(k', k.running)
  {
    assert ThreadOk(k, k.running, {k.running});
    assert ContOk(k, k.running);
  }

  lemma WaitLinked(k: State, s: Sid, tokens: nat, why: Why)
    requires Steady(k) && Linked(k) && k.running != IDLE
    requires Sm(k, s).active ==> WhyOk(k, k.running, s, why)
    requires Me(k).cont.Run?
    ensures var k' := Wait(k, s, tokens, why).0;
      Linked(k') && SameWorld(k, k')
  {
    if Sm(k, s).active {
      WaitMoves(k, s, tokens, why);
      WaitEffect(k, s, tokens, why);
      assert ThreadOk(k, k.running, {k.running});
      var k' := Wait(k, s, tokens, why).0;
      WaitingOk(k, k', s, why);
      MovedLinked(k, k', s, why);
    }
  }

  lemma TimedWaitLinked(k: State, s: Sid, timeout: nat, tokens: nat, why: Why)
    requires Steady(k) && Linked(k) && k.running != IDLE
    requires Sm(k, s).active ==> WhyOk(k, k.running, s, why)
    requires Me(k).cont.Run? && Timed(why)
    ensures var k' := TimedWait(k, s, timeout, tokens, why).0;
      Linked(k') && SameWorld(k, k')
  {
    if Sm(k, s).active {
      TimedWaitMoves(k, s, timeout, tokens, why);
      TimedWaitEffect(k, s, timeout, tokens, why);
      assert ThreadOk(k, k.running, {k.running});
      var k' := TimedWait(k, s, timeout, tokens, why).0;
      WaitingOk(k, k', s, why);
      MovedLinked(k, k', s, why);
    }
  }

  lemma SleepLinked(k: State, timeout: nat)
    requires Steady(k) && Linked(k) && k.running != IDLE && Me(k).cont.Run?
    ensures var k' := Sleep(k, timeout, Sleeping).0;
      Linked(k') && SameWorld(k, k')
  {
    SleepEffect(k, timeout);
    var k' := Sleep(k, timeout, Sleeping).0;
    assert ThreadOk(k, k.running, {k.running});
    assert ContOk(k, k.running);
    assert ContOk(k', k.running);
    OneThreadLinked(k, k', k.running);
  }

  lemma CreateOwned(k: State, slice: nat, s: Sid)
    requires Linked(k) && k.running < |k.threads| && s < |k.sems| + 4
    ensures Owned(Create(k, slice), s)
  {
    CreateEffect(k, slice);
    var k' := Create(k, slice);
    assert forall u: Tid :: u < |k.threads| ==> SameLinks(Th(k, u), Th(k', u));
    if s < |k.sems| {
      assert Owned(k, s);
      assert Sm(k', s) == Sm(k, s);
    }
  }

  lemma CreateLinked(k: State, slice: nat)
    requires Linked(k) && k.running < |k.threads|
    ensures Linked(Create(k, slice))
  {
    var k' := Create(k, slice);
    var n, m := |k.threads|, |k.sems|;
    CreateEffect(k, slice);
    assert forall u: Tid :: u < n ==> SameLinks(Th(k, u), Th(k', u));
    forall t: Tid | t < |k'.threads|
      ensures OwnsSems(k', t)
    {
      if t < n { assert OwnsSems(k, t) && SameLinks(Th(k, t), Th(k', t)); }
    }
    forall b: nat | b < |k.bufs|
      ensures BufferOwnsSems(k', b)
    {
      assert BufferOwnsSems(k, b);
    }
    forall s: Sid | s < |k'.sems|
      ensures Owned(k', s)
    {
      CreateOwned(k, slice, s);
    }
    forall u: Tid | u < |k'.threads|
      ensures ContOk(k', u)
    {
      if u < n { assert ContOk(k, u); }
    }
  }

  lemma SemOpenLinked(k: State, init: nat)
    requires Linked(k)
    ensures Linked(SemOpen(k, init))
  {
    var k' := SemOpen(k, init);
    assert forall s: Sid :: s < |k.sems| ==> Sm(k', s) == Sm(k, s);
    forall t: Tid | t < |k'.threads|
      ensures OwnsSems(k', t) && ContOk(k', t)
    {
      assert OwnsSems(k, t) && ContOk(k, t);
    }
    forall b: nat | b < |k.bufs|
      ensures BufferOwnsSems(k', b)
    {
      assert BufferOwnsSems(k, b);
    }
    forall s: Sid | s < |k'.sems|
      ensures Owned(k', s)
    {
      if s < |k.sems| { assert Owned(k, s); }
    }
  }
}
