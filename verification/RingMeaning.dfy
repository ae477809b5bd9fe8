/** What putc, getc and the continuations of suspended calls do, in the fields of the state. */
module RingMeaning {
  import opened KernelTypes
  import opened KernelSpec
  import opened Effects
  import opened LinkInvariant
  import opened KernelSteps
  import opened StepMeaning
  import opened RingFrames

  /** c is in the ring at the write position, which moves on; the mutex and then a consumer get a token. */
  ghost predicate Stored(k: State, k2: State, k': State, b: nat, c: char) {
    && b < |k.bufs| && k.bufs[b].posW < |k.bufs[b].data|
    && var x := k.bufs[b];
      var k1 := k.(bufs := k.bufs[b := x.(data := x.data[x.posW := c], posW := (x.posW + 1) % 256)]);
      Supplies(k1, k2, x.mutex, 1) && Supplies(k2, k', x.semGet, 1)
  }

  /** The answer is the character at the read position, which moves on; the mutex and then a producer
      get a token. */
  ghost predicate Fetched(k: State, k2: State, k': State, b: nat, r: Reply) {
    && b < |k.bufs| && k.bufs[b].posR < |k.bufs[b].data|
    && var x := k.bufs[b];
      var k1 := k.(bufs := k.bufs[b := x.(posR := (x.posR + 1) % 256)]);
      r == Chr(x.data[x.posR]) && Supplies(k1, k2, x.mutex, 1) && Supplies(k2, k', x.semPut, 1)
  }

  lemma TwoSignals(k: State, s: Sid, u: Sid)
    requires Busy(k) && s < |k.sems| && u < |k.sems|
    ensures var k2 := Signal(k, s, 1).0;
      Supplies(k, k2, s, 1) && Supplies(k2, Signal(k2, u, 1).0, u, 1) && k2.bufs == k.bufs
  {
    SignalMeans(k, s, 1);
    SignalBusy(k, s, 1);
    SignalWakes(k, s, 1, {k.running});
    SignalMeans(Signal(k, s, 1).0, u, 1);
  }

  lemma PutBodyMeans(k: State, b: nat, c: char) returns (k2: State)
    requires Busy(k) && b < |k.bufs| && RingSound(k.bufs[b])
    ensures var (k', r) := PutBody(k, b, c);
      Stored(k, k2, k', b, c) && r == Value(0)
  {
    assert BufferOwnsSems(k, b);
    var x := k.bufs[b];
    var k1 := RingPut(k, b, c);
    BufferBusy(k, b, Bf(k1, b));
    TwoSignals(k1, x.mutex, x.semGet);
    k2 := Signal(k1, x.mutex, 1).0;
  }

  lemma GetBodyMeans(k: State, b: nat) returns (k2: State)
    requires Busy(k) && b < |k.bufs| && RingSound(k.bufs[b])
    ensures var (k', r) := GetBody(k, b);
      Fetched(k, k2, k', b, r)
  {
    assert BufferOwnsSems(k, b);
    var x := k.bufs[b];
    var k1 := RingGet(k, b).0;
    BufferBusy(k, b, Bf(k1, b));
    TwoSignals(k1, x.mutex, x.semPut);
    k2 := Signal(k1, x.mutex, 1).0;
  }

  /** From the mutex on. */
  ghost predicate StoresLocked(k: State, k1: State, k2: State, k': State, b: nat, c: char, w: Option<int>, r: Reply) {
    && b < |k.bufs|
    && Waits(k, k1, k.bufs[b].mutex, 1, Waiting(k.bufs[b].mutex, ForPutLock(b, c)), w)
    && if w.None? then k' == k1 && r == Suspended else Stored(k1, k2, k', b, c) && r == Value(0)
  }

  ghost predicate FetchesLocked(k: State, k1: State, k2: State, k': State, b: nat, w: Option<int>, r: Reply) {
    && b < |k.bufs|
    && Waits(k, k1, k.bufs[b].mutex, 1, Waiting(k.bufs[b].mutex, ForGetLock(b)), w)
    && if w.None? then k' == k1 && r == Suspended else Fetched(k1, k2, k', b, r)
  }

  lemma PutLockedMeans(k: State, b: nat, c: char) returns (k1: State, k2: State, w: Option<int>)
    requires Busy(k) && b < |k.bufs| && RingSound(k.bufs[b])
    ensures var (k', r) := PutLocked(k, b, c);
      StoresLocked(k, k1, k2, k', b, c, w, r)
  {
    assert BufferOwnsSems(k, b);
    var s := k.bufs[b].mutex;
    WaitMeans(k, s, 1, ForPutLock(b, c));
    k1, w := Wait(k, s, 1, ForPutLock(b, c)).0, Wait(k, s, 1, ForPutLock(b, c)).1;
    k2 := k1;
    if w.Some? {
      WaitBusy(k, s, 1, ForPutLock(b, c));
      k2 := PutBodyMeans(k1, b, c);
    }
  }

  lemma GetLockedMeans(k: State, b: nat) returns (k1: State, k2: State, w: Option<int>)
    requires Busy(k) && b < |k.bufs| && RingSound(k.bufs[b])
    ensures var (k', r) := GetLocked(k, b);
      FetchesLocked(k, k1, k2, k', b, w, r)
  {
    assert BufferOwnsSems(k, b);
    var s := k.bufs[b].mutex;
    WaitMeans(k, s, 1, ForGetLock(b));
    k1, w := Wait(k, s, 1, ForGetLock(b)).0, Wait(k, s, 1, ForGetLock(b)).1;
    k2 := k1;
    if w.Some? {
      WaitBusy(k, s, 1, ForGetLock(b));
      k2 := GetBodyMeans(k1, b);
    }
  }

  lemma PutStarts(k: State, b: nat, c: char) returns (k0: State, w: Option<int>)
    requires Busy(k) && b < |k.bufs|
    ensures Waits(k, k0, k.bufs[b].semPut, 1, Waiting(k.bufs[b].semPut, ForPut(b, c)), w)
    ensures Next(k, Sys(CallPut(b, c))) == if w.None? then (k0, Suspended) else PutLocked(k0, b, c)
    ensures w.Some? ==> Busy(k0) && k0.bufs == k.bufs
  {
    assert BufferOwnsSems(k, b);
    var s := k.bufs[b].semPut;
    WaitMeans(k, s, 1, ForPut(b, c));
    WaitBusy(k, s, 1, ForPut(b, c));
    k0, w := Wait(k, s, 1, ForPut(b, c)).0, Wait(k, s, 1, ForPut(b, c)).1;
  }

  lemma GetStarts(k: State, b: nat) returns (k0: State, w: Option<int>)
    requires Busy(k) && b < |k.bufs|
    ensures Waits(k, k0, k.bufs[b].semGet, 1, Waiting(k.bufs[b].semGet, ForGet(b)), w)
    ensures Next(k, Sys(CallGet(b))) == if w.None? then (k0, Suspended) else GetLocked(k0, b)
    ensures w.Some? ==> Busy(k0) && k0.bufs == k.bufs
  {
    assert BufferOwnsSems(k, b);
    var s := k.bufs[b].semGet;
    WaitMeans(k, s, 1, ForGet(b));
    WaitBusy(k, s, 1, ForGet(b));
    k0, w := Wait(k, s, 1, ForGet(b)).0, Wait(k, s, 1, ForGet(b)).1;
  }

  /** putc: a free slot, the mutex, the character, the mutex back, one stored character more. */
  lemma PutMeans(k: State, b: nat, c: char) returns (k0: State, k1: State, k2: State, w0: Option<int>, w: Option<int>)
    requires Busy(k) && b < |k.bufs| && RingSound(k.bufs[b])
    ensures var (k', r) := Next(k, Sys(CallPut(b, c)));
      var s := k.bufs[b].semPut;
      && Waits(k, k0, s, 1, Waiting(s, ForPut(b, c)), w0)
      && if w0.None? then k' == k0 && r == Suspended else StoresLocked(k0, k1, k2, k', b, c, w, r)
  {
    k0, w0 := PutStarts(k, b, c);
    k1, k2, w := k0, k0, None;
    if w0.Some? { k1, k2, w := PutLockedMeans(k0, b, c); }
  }

  /** getc: a stored character, the mutex, the character, the mutex back, one free slot more. */
  lemma GetMeans(k: State, b: nat) returns (k0: State, k1: State, k2: State, w0: Option<int>, w: Option<int>)
    requires Busy(k) && b < |k.bufs| && RingSound(k.bufs[b])
    ensures var (k', r) := Next(k, Sys(CallGet(b)));
      var s := k.bufs[b].semGet;
      && Waits(k, k0, s, 1, Waiting(s, ForGet(b)), w0)
      && if w0.None? then k' == k0 && r == Suspended else FetchesLocked(k0, k1, k2, k', b, w, r)
  {
    k0, w0 := GetStarts(k, b);
    k1, k2, w := k0, k0, None;
    if w0.Some? { k1, k2, w := GetLockedMeans(k0, b); }
  }

  // ---- continuations

  /** What resolveManner makes of the reason for which the wait ended. */
  ghost predicate Told(m: Manner, v: int) {
    match m
    case Regular => v == 0
    case OnClose => v == ERR_SEM_WAITCLOSE
    case WaitTimeout => v == TIMEOUT
  }

  /** What remains of a suspended call once its thread runs again; k is the state with the continuation
      cleared. */
  ghost predicate GoesOnAs(k: State, why: Why, k1: State, k2: State, w: Option<int>, k': State, r: Reply) {
    && k.running < |k.threads|
    && var me := k.threads[k.running];
      match why
      case ForSem => k' == k && r.Value? && Told(me.manner, r.r)
      case ForJoin(_) => k' == k && r.Value? && Told(me.manner, r.r)
      case ForJoinAll => k' == k && r == Value(0)
      case ForTimedJoinAll => k' == k && r == Value(me.children)
      case ForSend(to, text) => Delivered(k, k', to, text) && r == Value(0)
      case ForReceive => Collected(k, k', r)
      case ForPut(b, c) => StoresLocked(k, k1, k2, k', b, c, w, r)
      case ForPutLock(b, c) => Stored(k, k2, k', b, c) && r == Value(0)
      case ForGet(b) => FetchesLocked(k, k1, k2, k', b, w, r)
      case ForGetLock(b) => Fetched(k, k2, k', b, r)
  }

  lemma ResumeMeans(k: State) returns (k1: State, k2: State, w: Option<int>)
    requires Good(k) && !Me(k).cont.Run? && RingsSound(k.bufs)
    ensures k.running < |k.threads|
    ensures var (k', r) := Next(k, Resume);
      var c := k.threads[k.running].cont;
      var k0 := k.(threads := k.threads[k.running := k.threads[k.running].(cont := Run)]);
      if c.Sleeping? then k' == k0 && r == Value(0)
      else GoesOnAs(k0, c.why, k1, k2, w, k', r)
  {
    RunningFree(k);
    WokenBusy(k);
    assert ContOk(k, k.running);
    var k0 := WithCont(k, Run);
    k1, k2, w := k0, k0, None;
    if Me(k).cont.Waiting? {
      assert Owned(k, Me(k).cont.s);
      match Me(k).cont.why
      case ForSend(to, text) => SendBodyMeans(k0, to, text);
      case ForReceive => ReceiveBodyMeans(k0);
      case ForPut(b, c) => k1, k2, w := PutLockedMeans(k0, b, c);
      case ForPutLock(b, c) => k2 := PutBodyMeans(k0, b, c);
      case ForGet(b) => k1, k2, w := GetLockedMeans(k0, b);
      case ForGetLock(b) => k2 := GetBodyMeans(k0, b);
      case _ =>
    }
  }
}
