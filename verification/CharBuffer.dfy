/** The bounded character buffers (h/io.hpp) under any interleaving of any number of producers and
    consumers. */
module CharBuffer {
  import opened KernelTypes
  import opened KernelSpec
  import opened PlaceInvariant
  import opened Effects
  import opened LinkInvariant
  import opened KernelSteps
  import opened Families
  import opened Counting
  import opened Levels

  /** The characters that a step puts into buffer b. */
  function PutEvents(k: State, step: Step, b: nat): seq<char> {
    var r := Next(k, step).1;
    match step
    case Tick => []
    case Sys(CallPut(b', c)) => if b' == b && !r.Suspended? then [c] else []
    case Sys(_) => []
    case Resume =>
      if !Me(k).cont.Waiting? then []
      else
        match Me(k).cont.why
        case ForPut(b', c) => if b' == b && !r.Suspended? then [c] else []
        case ForPutLock(b', c) => if b' == b then [c] else []
        case _ => []
  }

  /** The characters that a step returns from buffer b. */
  function GetEvents(k: State, step: Step, b: nat): seq<char> {
    var r := Next(k, step).1;
    match step
    case Tick => []
    case Sys(CallGet(b')) => if b' == b && r.Chr? then [r.c] else []
    case Sys(_) => []
    case Resume =>
      if !Me(k).cont.Waiting? then []
      else
        match Me(k).cont.why
        case ForGet(b') => if b' == b && r.Chr? then [r.c] else []
        case ForGetLock(b') => if b' == b && r.Chr? then [r.c] else []
        case _ => []
  }

  /** One buffer with its semaphores and the tokens granted to threads that have not run since. */
  datatype Ring = Ring(put: Sem, get: Sem, lock: Sem, toPut: nat, toGet: nat, toLock: nat, buf: Buffer)

  ghost function RingOf(k: State, b: nat): Ring {
    var x := Bf(k, b);
    Ring(Sm(k, x.semPut), Sm(k, x.semGet), Sm(k, x.mutex),
         Granted(k.threads, x.semPut), Granted(k.threads, x.semGet), Granted(k.threads, x.mutex), x)
  }

  /** Slot i after position p of the ring. */
  function Slot(p: nat, i: nat): nat {
    (p + i) % BUFFER_LENGTH
  }

  /** What was put and not yet got stands in the ring, in order. */
  ghost predicate Holds(x: Buffer, puts: seq<char>, gets: seq<char>) {
    && |x.data| == BUFFER_LENGTH && x.posR < BUFFER_LENGTH
    && gets <= puts
    && |puts| - |gets| <= BUFFER_LENGTH
    && x.posW == Slot(x.posR, |puts| - |gets|)
    && forall i: nat :: i < |puts| - |gets| ==> x.data[Slot(x.posR, i)] == puts[|gets| + i]
  }

  /** Tokens held by the running thread while it works on the buffer. */
  datatype Hands = Hands(put: nat, get: nat, lock: nat)

  ghost predicate RingTokens(x: Ring, stored: int, h: Hands) {
    && x.put.active && x.get.active && x.lock.active
    && OneTokenQueue(x.put) && OneTokenQueue(x.get)
    && x.put.value + x.toPut + h.put + stored == BUFFER_LENGTH
    && x.get.value + x.toGet + h.get == stored
    && x.lock.queue == [] && x.toLock == 0
    && x.lock.value + h.lock == 1
  }

  ghost predicate RingInv(k: State, b: nat, puts: seq<char>, gets: seq<char>) {
    && Holds(Bf(k, b), puts, gets)
    && RingTokens(RingOf(k, b), |puts| - |gets|, Hands(0, 0, 0))
  }

  // ---- the ring array

  lemma SlotsDiffer(p: nat, i: nat, j: nat)
    requires p < BUFFER_LENGTH && i < j < BUFFER_LENGTH
    ensures Slot(p, i) != Slot(p, j)
  {
  }

  lemma SlotNext(p: nat, i: nat)
    requires p < BUFFER_LENGTH && i <= BUFFER_LENGTH
    ensures Slot(p, i) < BUFFER_LENGTH
    ensures (Slot(p, i) + 1) % BUFFER_LENGTH == Slot(p, i + 1)
    ensures Slot((p + 1) % BUFFER_LENGTH, i) == Slot(p, i + 1)
  {
  }

  /** A free slot is written, no unread one is overwritten. */
  lemma RingPutHolds(k: State, b: nat, c: char, puts: seq<char>, gets: seq<char>)
    requires b < |k.bufs| && Holds(Bf(k, b), puts, gets) && |puts| - |gets| < BUFFER_LENGTH
    ensures var k' := RingPut(k, b, c);
      && Holds(Bf(k', b), puts + [c], gets)
      && k' == SetBf(k, b, Bf(k', b)) && SameBufferLinks(Bf(k, b), Bf(k', b))
  {
    var x := Bf(k, b);
    var n := |puts| - |gets|;
    SlotNext(x.posR, n);
    var x' := Bf(RingPut(k, b, c), b);
    forall i: nat | i < n + 1
      ensures x'.data[Slot(x'.posR, i)] == (puts + [c])[|gets| + i]
    {
      SlotNext(x.posR, i);
      if i < n { SlotsDiffer(x.posR, i, n); }
    }
  }

  /** The oldest unread character is read. */
  lemma RingGetHolds(k: State, b: nat, puts: seq<char>, gets: seq<char>)
    requires b < |k.bufs| && Holds(Bf(k, b), puts, gets) && |puts| > |gets|
    ensures var (k', c) := RingGet(k, b);
      && c == puts[|gets|]
      && Holds(Bf(k', b), puts, gets + [c])
      && k' == SetBf(k, b, Bf(k', b)) && SameBufferLinks(Bf(k, b), Bf(k', b))
  {
    var x := Bf(k, b);
    var n := |puts| - |gets|;
    assert Slot(x.posR, 0) == x.posR;
    SlotNext(x.posR, n - 1);
    var x' := Bf(RingGet(k, b).0, b);
    forall i: nat | i < n - 1
      ensures x'.data[Slot(x'.posR, i)] == puts[|gets| + 1 + i]
    {
      SlotNext(x.posR, i);
      assert x.data[Slot(x.posR, i + 1)] == puts[|gets| + (i + 1)];
    }
  }

  // ---- other buffers, other families

  lemma RingApart(k: State, k': State, b: nat)
    requires Linked(k) && Linked(k') && Apart(k, k', Buffers) && b < |k.bufs|
    ensures RingOf(k', b) == RingOf(k, b)
  {
    assert BufferOwnsSems(k, b);
    GrantedApart(k, k', Buffers, Bf(k, b).semPut);
    GrantedApart(k, k', Buffers, Bf(k, b).semGet);
    GrantedApart(k, k', Buffers, Bf(k, b).mutex);
  }

  ghost predicate NotOf(k: State, s: Sid, b: nat) {
    s != Bf(k, b).semPut && s != Bf(k, b).semGet && s != Bf(k, b).mutex
  }

  lemma OtherRing(k: State, a: nat, b: nat)
    requires Linked(k) && a < |k.bufs| && b < |k.bufs| && a != b
    ensures NotOf(k, Bf(k, a).semPut, b) && NotOf(k, Bf(k, a).semGet, b) && NotOf(k, Bf(k, a).mutex, b)
  {
    assert BufferOwnsSems(k, a) && BufferOwnsSems(k, b);
  }

  lemma RingWakes(k: State, k': State, s: Sid, m: Manner, b: nat)
    requires Linked(k) && WakesAt(k, k', s, m) && NotOf(k, s, b)
    ensures RingOf(k', b) == RingOf(k, b)
  {
    GrantedElsewhere(k, k', s, m, Bf(k, b).semPut);
    GrantedElsewhere(k, k', s, m, Bf(k, b).semGet);
    GrantedElsewhere(k, k', s, m, Bf(k, b).mutex);
  }

  lemma RingWaitElsewhere(k: State, s: Sid, why: Why, b: nat)
    requires Busy(k) && NotOf(k, s, b)
    ensures RingOf(Wait(k, s, 1, why).0, b) == RingOf(k, b)
  {
    WaitEffect(k, s, 1, why);
    RunningFree(k);
    var k' := Wait(k, s, 1, why).0;
    if Sm(k, s).active {
      GrantedUpdate(k.threads, k.running, Th(k', k.running), Bf(k, b).semPut);
      GrantedUpdate(k.threads, k.running, Th(k', k.running), Bf(k, b).semGet);
      GrantedUpdate(k.threads, k.running, Th(k', k.running), Bf(k, b).mutex);
    }
  }

  lemma RingOther(k: State, a: nat, x: Buffer, b: nat)
    requires Linked(k) && a < |k.bufs| && b < |k.bufs| && a != b && SameBufferLinks(Bf(k, a), x)
    ensures RingOf(SetBf(k, a, x), b) == RingOf(k, b)
  {
  }

  lemma PutBodyElsewhere(k: State, a: nat, c: char, b: nat)
    requires Busy(k) && a < |k.bufs| && b < |k.bufs| && a != b
    ensures RingOf(PutBody(k, a, c).0, b) == RingOf(k, b)
  {
    OtherRing(k, a, b);
    var x := Bf(k, a);
    var x' := Bf(RingPut(k, a, c), a);
    assert RingPut(k, a, c) == SetBf(k, a, x');
    BufferBusy(k, a, x');
    RingOther(k, a, x', b);
    var k1 := RingPut(k, a, c);
    SignalBusy(k1, x.mutex, 1);
    SignalWakes(k1, x.mutex, 1, {k.running});
    var k2 := Signal(k1, x.mutex, 1).0;
    RingWakes(k1, k2, x.mutex, Regular, b);
    SignalWakes(k2, x.semGet, 1, {k.running});
    RingWakes(k2, PutBody(k, a, c).0, x.semGet, Regular, b);
  }

  lemma GetBodyElsewhere(k: State, a: nat, b: nat)
    requires Busy(k) && a < |k.bufs| && b < |k.bufs| && a != b
    ensures RingOf(GetBody(k, a).0, b) == RingOf(k, b)
  {
    OtherRing(k, a, b);
    var x := Bf(k, a);
    var k1 := RingGet(k, a).0;
    var x' := Bf(k1, a);
    assert k1 == SetBf(k, a, x');
    BufferBusy(k, a, x');
    RingOther(k, a, x', b);
    SignalBusy(k1, x.mutex, 1);
    SignalWakes(k1, x.mutex, 1, {k.running});
    var k2 := Signal(k1, x.mutex, 1).0;
    RingWakes(k1, k2, x.mutex, Regular, b);
    SignalWakes(k2, x.semPut, 1, {k.running});
    RingWakes(k2, GetBody(k, a).0, x.semPut, Regular, b);
  }

  lemma PutLockedElsewhere(k: State, a: nat, c: char, b: nat)
    requires Busy(k) && a < |k.bufs| && b < |k.bufs| && a != b
    ensures RingOf(PutLocked(k, a, c).0, b) == RingOf(k, b)
  {
    OtherRing(k, a, b);
    assert BufferOwnsSems(k, a);
    var s := Bf(k, a).mutex;
    RingWaitElsewhere(k, s, ForPutLock(a, c), b);
    WaitBusy(k, s, 1, ForPutLock(a, c));
    var (k1, w) := Wait(k, s, 1, ForPutLock(a, c));
    if w.Some? { PutBodyElsewhere(k1, a, c, b); }
  }

  lemma GetLockedElsewhere(k: State, a: nat, b: nat)
    requires Busy(k) && a < |k.bufs| && b < |k.bufs| && a != b
    ensures RingOf(GetLocked(k, a).0, b) == RingOf(k, b)
  {
    OtherRing(k, a, b);
    assert BufferOwnsSems(k, a);
    var s := Bf(k, a).mutex;
    RingWaitElsewhere(k, s, ForGetLock(a), b);
    WaitBusy(k, s, 1, ForGetLock(a));
    var (k1, w) := Wait(k, s, 1, ForGetLock(a));
    if w.Some? { GetBodyElsewhere(k1, a, b); }
  }

  // ---- tokens

  /** The mutex is free, and it is taken without blocking. */
  lemma LockTaken(k: State, b: nat, why: Why, stored: int, hp: nat, hg: nat)
    requires Busy(k) && b < |k.bufs| && (why.ForPutLock? || why.ForGetLock?) && why.b == b
    requires RingTokens(RingOf(k, b), stored, Hands(hp, hg, 0))
    ensures var (k1, w) := Wait(k, Bf(k, b).mutex, 1, why);
      && w.Some? && Busy(k1) && SameWorld(k, k1) && k1.bufs == k.bufs && k1.running == k.running
      && RingTokens(RingOf(k1, b), stored, Hands(hp, hg, 1))
  {
    assert BufferOwnsSems(k, b);
    var s := Bf(k, b).mutex;
    WaitBusy(k, s, 1, why);
    LevelWait(k, s, why);
    WaitEffect(k, s, 1, why);
    GrantedUpdate(k.threads, k.running, Th(Wait(k, s, 1, why).0, k.running), s);
    RunningFree(k);
  }

  /** The mutex is given back, to nobody in particular. */
  lemma LockReturned(k: State, b: nat, stored: int, hp: nat, hg: nat)
    requires Busy(k) && b < |k.bufs|
    requires RingTokens(RingOf(k, b), stored, Hands(hp, hg, 1))
    ensures var k1 := Signal(k, Bf(k, b).mutex, 1).0;
      && Busy(k1) && SameWorld(k, k1) && k1.bufs == k.bufs && k1.running == k.running
      && RingTokens(RingOf(k1, b), stored, Hands(hp, hg, 0))
  {
    assert BufferOwnsSems(k, b);
    var s := Bf(k, b).mutex;
    SignalBusy(k, s, 1);
    LevelSignal(k, s);
    SignalWakes(k, s, 1, {k.running});
    var k1 := Signal(k, s, 1).0;
    GrantedElsewhere(k, k1, s, Regular, Bf(k, b).semPut);
    GrantedElsewhere(k, k1, s, Regular, Bf(k, b).semGet);
  }

  lemma PutBodyRing(k: State, b: nat, c: char, puts: seq<char>, gets: seq<char>)
    requires Busy(k) && b < |k.bufs| && Holds(Bf(k, b), puts, gets)
    requires RingTokens(RingOf(k, b), |puts| - |gets|, Hands(1, 0, 1))
    ensures RingInv(PutBody(k, b, c).0, b, puts + [c], gets)
  {
    assert BufferOwnsSems(k, b);
    var n := |puts| - |gets|;
    RingPutHolds(k, b, c, puts, gets);
    var k1 := RingPut(k, b, c);
    BufferBusy(k, b, Bf(k1, b));
    LockReturned(k1, b, n, 1, 0);
    var k2 := Signal(k1, Bf(k1, b).mutex, 1).0;
    var s := Bf(k2, b).semGet;
    LevelSignal(k2, s);
    SignalWakes(k2, s, 1, {k2.running});
    var k3 := PutBody(k, b, c).0;
    GrantedElsewhere(k2, k3, s, Regular, Bf(k, b).semPut);
    GrantedElsewhere(k2, k3, s, Regular, Bf(k, b).mutex);
  }

  lemma GetBodyRing(k: State, b: nat, puts: seq<char>, gets: seq<char>)
    requires Busy(k) && b < |k.bufs| && Holds(Bf(k, b), puts, gets)
    requires RingTokens(RingOf(k, b), |puts| - |gets|, Hands(0, 1, 1))
    ensures var (k', r) := GetBody(k, b);
      && r.Chr? && RingInv(k', b, puts, gets + [r.c])
  {
    assert BufferOwnsSems(k, b);
    var n := |puts| - |gets|;
    RingGetHolds(k, b, puts, gets);
    var (k1, c) := RingGet(k, b);
    BufferBusy(k, b, Bf(k1, b));
    LockReturned(k1, b, n, 0, 1);
    var k2 := Signal(k1, Bf(k1, b).mutex, 1).0;
    var s := Bf(k2, b).semPut;
    LevelSignal(k2, s);
    SignalWakes(k2, s, 1, {k2.running});
    var k3 := GetBody(k, b).0;
    GrantedElsewhere(k2, k3, s, Regular, Bf(k, b).semGet);
    GrantedElsewhere(k2, k3, s, Regular, Bf(k, b).mutex);
  }

  lemma PutLockedRing(k: State, b: nat, c: char, puts: seq<char>, gets: seq<char>)
    requires Busy(k) && b < |k.bufs| && Holds(Bf(k, b), puts, gets)
    requires RingTokens(RingOf(k, b), |puts| - |gets|, Hands(1, 0, 0))
    ensures var (k', r) := PutLocked(k, b, c);
      !r.Suspended? && RingInv(k', b, puts + [c], gets)
  {
    LockTaken(k, b, ForPutLock(b, c), |puts| - |gets|, 1, 0);
    PutBodyRing(Wait(k, Bf(k, b).mutex, 1, ForPutLock(b, c)).0, b, c, puts, gets);
  }

  lemma GetLockedRing(k: State, b: nat, puts: seq<char>, gets: seq<char>)
    requires Busy(k) && b < |k.bufs| && Holds(Bf(k, b), puts, gets)
    requires RingTokens(RingOf(k, b), |puts| - |gets|, Hands(0, 1, 0))
    ensures var (k', r) := GetLocked(k, b);
      r.Chr? && RingInv(k', b, puts, gets + [r.c])
  {
    LockTaken(k, b, ForGetLock(b), |puts| - |gets|, 0, 1);
    GetBodyRing(Wait(k, Bf(k, b).mutex, 1, ForGetLock(b)).0, b, puts, gets);
  }

  lemma FirstWaited(k: State, k1: State, w: Option<int>, b: nat, put: bool, stored: int)
    requires Linked(k) && b < |k.bufs| && k1.bufs == k.bufs
    requires LevelWaited(k, k1, w, if put then Bf(k, b).semPut else Bf(k, b).semGet)
    requires RingTokens(RingOf(k, b), stored, Hands(0, 0, 0))
    ensures RingTokens(RingOf(k1, b), stored,
              if w.None? then Hands(0, 0, 0) else if put then Hands(1, 0, 0) else Hands(0, 1, 0))
  {
    assert BufferOwnsSems(k, b);
  }

  /** Taking a place or an item, or queueing for it. */
  lemma FirstWait(k: State, b: nat, why: Why, stored: int)
    requires Busy(k) && b < |k.bufs| && (why.ForPut? || why.ForGet?) && why.b == b
    requires RingTokens(RingOf(k, b), stored, Hands(0, 0, 0))
    ensures var s := if why.ForPut? then Bf(k, b).semPut else Bf(k, b).semGet;
      var (k1, w) := Wait(k, s, 1, why);
      && Good(k1) && SameWorld(k, k1) && k1.bufs == k.bufs
      && (w.Some? ==> Busy(k1))
      && RingTokens(RingOf(k1, b), stored,
           if w.None? then Hands(0, 0, 0) else if why.ForPut? then Hands(1, 0, 0) else Hands(0, 1, 0))
  {
    assert BufferOwnsSems(k, b);
    var s := if why.ForPut? then Bf(k, b).semPut else Bf(k, b).semGet;
    WaitBusy(k, s, 1, why);
    WaitMoves(k, s, 1, why);
    LevelWait(k, s, why);
    var (k1, w) := Wait(k, s, 1, why);
    FirstWaited(k, k1, w, b, why.ForPut?, stored);
  }

  // ---- steps

  lemma RingPutCall(k: State, a: nat, c: char, b: nat, puts: seq<char>, gets: seq<char>)
    requires Busy(k) && a < |k.bufs| && b < |k.bufs| && RingInv(k, b, puts, gets)
    ensures var (k', r) := Put(k, a, c);
      RingInv(k', b, if a == b && !r.Suspended? then puts + [c] else puts, gets)
  {
    var why, s := ForPut(a, c), Bf(k, a).semPut;
    assert BufferOwnsSems(k, a);
    WaitBusy(k, s, 1, why);
    var (k1, w) := Wait(k, s, 1, why);
    if a == b {
      FirstWait(k, b, why, |puts| - |gets|);
      if w.Some? { PutLockedRing(k1, b, c, puts, gets); }
    } else {
      OtherRing(k, a, b);
      RingWaitElsewhere(k, s, why, b);
      if w.Some? { PutLockedElsewhere(k1, a, c, b); }
    }
  }

  lemma RingGetCall(k: State, a: nat, b: nat, puts: seq<char>, gets: seq<char>)
    requires Busy(k) && a < |k.bufs| && b < |k.bufs| && RingInv(k, b, puts, gets)
    ensures var (k', r) := Get(k, a);
      RingInv(k', b, puts, if a == b && r.Chr? then gets + [r.c] else gets)
  {
    var why, s := ForGet(a), Bf(k, a).semGet;
    assert BufferOwnsSems(k, a);
    WaitBusy(k, s, 1, why);
    var (k1, w) := Wait(k, s, 1, why);
    if a == b {
      FirstWait(k, b, why, |puts| - |gets|);
      if w.Some? { GetLockedRing(k1, b, puts, gets); }
    } else {
      OtherRing(k, a, b);
      RingWaitElsewhere(k, s, why, b);
      if w.Some? { GetLockedElsewhere(k1, a, b); }
    }
  }

  lemma RingCall(k: State, call: Call, b: nat, puts: seq<char>, gets: seq<char>)
    requires Busy(k) && CallOk(k, call) && CallFamily(call) == Buffers && b < |k.bufs| && RingInv(k, b, puts, gets)
    ensures RingInv(Syscall(k, call).0, b,
              puts + PutEvents(k, Sys(call), b), gets + GetEvents(k, Sys(call), b))
  {
    assert puts + [] == puts && gets + [] == gets;
    match call
    case CallPut(a, c) => RingPutCall(k, a, c, b, puts, gets);
    case CallGet(a) => RingGetCall(k, a, b, puts, gets);
  }

  lemma RingWokenElsewhere(k: State, b: nat)
    requires Good(k) && Me(k).cont.Waiting? && NotOf(k, Me(k).cont.s, b)
    ensures RingOf(WithCont(k, Run), b) == RingOf(k, b)
  {
    LevelWoken(k, Bf(k, b).semPut);
    LevelWoken(k, Bf(k, b).semGet);
    LevelWoken(k, Bf(k, b).mutex);
  }

  lemma RingResumeOther(k: State, b: nat)
    requires Good(k) && Me(k).cont.Waiting? && ContFamily(Me(k).cont) == Buffers && b < |k.bufs|
    requires Me(k).cont.why.b != b
    ensures RingOf(ResumeStep(k).0, b) == RingOf(k, b)
  {
    WokenBusy(k);
    RunningFree(k);
    assert ContOk(k, k.running);
    assert Owned(k, Me(k).cont.s);
    var a := Me(k).cont.why.b;
    OtherRing(k, a, b);
    RingWokenElsewhere(k, b);
    var k1 := WithCont(k, Run);
    match Me(k).cont.why
    case ForPut(_, c) => PutLockedElsewhere(k1, a, c, b);
    case ForPutLock(_, c) => PutBodyElsewhere(k1, a, c, b);
    case ForGet(_) => GetLockedElsewhere(k1, a, b);
    case ForGetLock(_) => GetBodyElsewhere(k1, a, b);
  }

  /** A granted producer or consumer goes on; nobody is ever waiting for the mutex. */
  lemma RingResumeOwn(k: State, b: nat, puts: seq<char>, gets: seq<char>)
    requires Good(k) && Me(k).cont.Waiting? && ContFamily(Me(k).cont) == Buffers && b < |k.bufs|
    requires Me(k).cont.why.b == b && RingInv(k, b, puts, gets)
    ensures Me(k).cont.why.ForPut? || Me(k).cont.why.ForGet?
    ensures RingInv(ResumeStep(k).0, b, puts + PutEvents(k, Resume, b), gets + GetEvents(k, Resume, b))
  {
    assert puts + [] == puts && gets + [] == gets;
    WokenBusy(k);
    RunningFree(k);
    assert ContOk(k, k.running);
    assert Owned(k, Me(k).cont.s);
    assert BufferOwnsSems(k, b);
    var k1 := WithCont(k, Run);
    LevelWoken(k, Bf(k, b).semPut);
    LevelWoken(k, Bf(k, b).semGet);
    LevelWoken(k, Bf(k, b).mutex);
    if Me(k).cont.why.ForPut? {
      PutLockedRing(k1, b, Me(k).cont.why.c, puts, gets);
    } else if Me(k).cont.why.ForGet? {
      GetLockedRing(k1, b, puts, gets);
    }
  }

  lemma RingRetire(k: State, status: int, b: nat)
    requires Busy(k) && b < |k.bufs|
    ensures RingOf(Retire(k, status), b) == RingOf(k, b)
  {
    RetireCore(k, status);
    GrantedRetire(k, status, Bf(k, b).semPut);
    GrantedRetire(k, status, Bf(k, b).semGet);
    GrantedRetire(k, status, Bf(k, b).mutex);
  }

  lemma RingFinish(k: State, status: int, b: nat)
    requires Busy(k) && b < |k.bufs|
    ensures RingOf(Finish(k, status), b) == RingOf(k, b)
  {
    FinishParts(k);
    var k1 := CloseMail(k);
    CloseMailApart(k, Buffers);
    RingApart(k, k1, b);
    FinishTailApart(k1, Buffers);
    var k3 := NotifyParent(CloseJoin(k1));
    var k4 := Close(k3, Me(k3).semJoinAll).0;
    RingApart(k1, k4, b);
    RingRetire(k4, status, b);
    SameRing(Retire(k4, status), Finish(k, status), b);
  }

  lemma SameRing(k: State, k': State, b: nat)
    requires k'.threads == k.threads && k'.sems == k.sems && k'.bufs == k.bufs
    ensures RingOf(k', b) == RingOf(k, b)
  {
  }

  lemma RingCreate(k: State, slice: nat, b: nat)
    requires Busy(k) && b < |k.bufs|
    ensures RingOf(Create(k, slice), b) == RingOf(k, b)
  {
    assert BufferOwnsSems(k, b);
    CreateEffect(k, slice);
    GrantedCreate(k, slice, Bf(k, b).semPut);
    GrantedCreate(k, slice, Bf(k, b).semGet);
    GrantedCreate(k, slice, Bf(k, b).mutex);
  }

  lemma RingResume(k: State, b: nat, puts: seq<char>, gets: seq<char>)
    requires Good(k) && !Me(k).cont.Run? && b < |k.bufs| && RingInv(k, b, puts, gets)
    ensures RingInv(ResumeStep(k).0, b, puts + PutEvents(k, Resume, b), gets + GetEvents(k, Resume, b))
  {
    assert puts + [] == puts && gets + [] == gets;
    if ContFamily(Me(k).cont) == Buffers {
      if Me(k).cont.why.b == b { RingResumeOwn(k, b, puts, gets); } else { RingResumeOther(k, b); }
    } else {
      ResumeGood(k);
      ResumeApart(k, Buffers);
      RingApart(k, ResumeStep(k).0, b);
    }
  }

  /** Every step keeps the buffer protocol. */
  lemma NextRing(k: State, step: Step, b: nat, puts: seq<char>, gets: seq<char>)
    requires Good(k) && Enabled(k, step) && b < |k.bufs| && RingInv(k, b, puts, gets)
    ensures RingInv(Next(k, step).0, b, puts + PutEvents(k, step, b), gets + GetEvents(k, step, b))
  {
    assert puts + [] == puts && gets + [] == gets;
    match step
    case Tick =>
      TickGood(k);
      TickApart(k, Buffers);
      RingApart(k, TickStep(k), b);
    case Resume => RingResume(k, b, puts, gets);
    case Sys(call) =>
      if k.running == IDLE {
        assert RingOf(Yield(k, true), b) == RingOf(k, b);
      } else if call.CallCreate? {
        RingCreate(k, call.slice, b);
      } else if call.CallExit? {
        RingFinish(k, call.status, b);
      } else if CallFamily(call) == Buffers {
        RingCall(k, call, b, puts, gets);
      } else {
        SyscallGood(k, call);
        CallApart(k, call, Buffers);
        RingApart(k, Syscall(k, call).0, b);
      }
  }

  lemma InitRing(b: nat)
    requires b < |Init().bufs|
    ensures RingInv(Init(), b, [], [])
  {
    var k := Init();
    InitSems();
    GrantedNone(k.threads, Bf(k, b).semPut);
    GrantedNone(k.threads, Bf(k, b).semGet);
    GrantedNone(k.threads, Bf(k, b).mutex);
    assert Sm(k, 8 + 3 * b) == Sem(PutOf(b), true, BUFFER_LENGTH, []);
  }
}
