/** What the steps do to the character rings: one call works on one ring, and its positions stay inside
    the buffer. */
module RingFrames {
  import opened KernelTypes
  import opened KernelSpec
  import opened PlaceInvariant
  import opened Effects
  import opened LinkInvariant
  import opened KernelSteps
  import opened Families

  ghost predicate RingSound(x: Buffer) {
    |x.data| == BUFFER_LENGTH && x.posW < BUFFER_LENGTH && x.posR < BUFFER_LENGTH
  }

  ghost predicate RingsSound(bufs: seq<Buffer>) {
    forall b: nat :: b < |bufs| ==> RingSound(bufs[b])
  }

  /** Ring b may have changed, and is still sound. */
  ghost predicate OneRing(x: seq<Buffer>, y: seq<Buffer>, b: nat) {
    && |y| == |x|
    && (forall a: nat :: a < |x| && a != b ==> y[a] == x[a])
    && (b < |x| && RingSound(x[b]) ==> RingSound(y[b]))
  }

  lemma OneRingSound(x: seq<Buffer>, y: seq<Buffer>, b: nat)
    requires OneRing(x, y, b) && RingsSound(x)
    ensures RingsSound(y)
  {
    forall a: nat | a < |y|
      ensures RingSound(y[a])
    {
      assert RingSound(x[a]);
    }
  }

  lemma SignalRings(k: State, s: Sid)
    requires Busy(k)
    ensures Signal(k, s, 1).0.bufs == k.bufs
  {
    SignalWakes(k, s, 1, {k.running});
  }

  lemma WaitRings(k: State, s: Sid, why: Why)
    requires Busy(k)
    ensures Wait(k, s, 1, why).0.bufs == k.bufs
  {
    WaitEffect(k, s, 1, why);
  }

  lemma PutBodyRings(k: State, b: nat, c: char)
    requires Busy(k) && b < |k.bufs|
    ensures OneRing(k.bufs, PutBody(k, b, c).0.bufs, b)
  {
    var k1 := RingPut(k, b, c);
    BufferBusy(k, b, Bf(k1, b));
    assert k1 == SetBf(k, b, Bf(k1, b));
    SignalRings(k1, Bf(k1, b).mutex);
    SignalBusy(k1, Bf(k1, b).mutex, 1);
    var k2 := Signal(k1, Bf(k1, b).mutex, 1).0;
    SignalRings(k2, Bf(k2, b).semGet);
  }

  lemma GetBodyRings(k: State, b: nat)
    requires Busy(k) && b < |k.bufs|
    ensures OneRing(k.bufs, GetBody(k, b).0.bufs, b)
  {
    var k1 := RingGet(k, b).0;
    BufferBusy(k, b, Bf(k1, b));
    assert k1 == SetBf(k, b, Bf(k1, b));
    SignalRings(k1, Bf(k1, b).mutex);
    SignalBusy(k1, Bf(k1, b).mutex, 1);
    var k2 := Signal(k1, Bf(k1, b).mutex, 1).0;
    SignalRings(k2, Bf(k2, b).semPut);
  }

  lemma PutLockedRings(k: State, b: nat, c: char)
    requires Busy(k) && b < |k.bufs|
    ensures OneRing(k.bufs, PutLocked(k, b, c).0.bufs, b)
  {
    assert BufferOwnsSems(k, b);
    var why, s := ForPutLock(b, c), Bf(k, b).mutex;
    WaitRings(k, s, why);
    WaitBusy(k, s, 1, why);
    var (k1, w) := Wait(k, s, 1, why);
    if w.Some? { PutBodyRings(k1, b, c); }
  }

  lemma GetLockedRings(k: State, b: nat)
    requires Busy(k) && b < |k.bufs|
    ensures OneRing(k.bufs, GetLocked(k, b).0.bufs, b)
  {
    assert BufferOwnsSems(k, b);
    var why, s := ForGetLock(b), Bf(k, b).mutex;
    WaitRings(k, s, why);
    WaitBusy(k, s, 1, why);
    var (k1, w) := Wait(k, s, 1, why);
    if w.Some? { GetBodyRings(k1, b); }
  }

  lemma PutRings(k: State, b: nat, c: char)
    requires Busy(k) && b < |k.bufs|
    ensures OneRing(k.bufs, Put(k, b, c).0.bufs, b)
  {
    assert BufferOwnsSems(k, b);
    var why, s := ForPut(b, c), Bf(k, b).semPut;
    WaitRings(k, s, why);
    WaitBusy(k, s, 1, why);
    var (k1, w) := Wait(k, s, 1, why);
    if w.Some? { PutLockedRings(k1, b, c); }
  }

  lemma GetRings(k: State, b: nat)
    requires Busy(k) && b < |k.bufs|
    ensures OneRing(k.bufs, Get(k, b).0.bufs, b)
  {
    assert BufferOwnsSems(k, b);
    var why, s := ForGet(b), Bf(k, b).semGet;
    WaitRings(k, s, why);
    WaitBusy(k, s, 1, why);
    var (k1, w) := Wait(k, s, 1, why);
    if w.Some? { GetLockedRings(k1, b); }
  }

  lemma FinishRings(k: State, status: int)
    requires Busy(k)
    ensures Finish(k, status).bufs == k.bufs
  {
    FinishParts(k);
    CloseMailApart(k, Buffers);
    var k1 := CloseMail(k);
    FinishTailApart(k1, Buffers);
    var k3 := NotifyParent(CloseJoin(k1));
    var k4 := Close(k3, Me(k3).semJoinAll).0;
    RetireCore(k4, status);
    assert Finish(k, status).bufs == Retire(k4, status).bufs;
  }

  /** Calls about other things leave the rings alone. */
  lemma CallRings(k: State, call: Call)
    requires Busy(k) && CallOk(k, call) && CallFamily(call) != Buffers
    ensures Syscall(k, call).0.bufs == k.bufs
  {
    match call
    case CallExit(status) => FinishRings(k, status);
    case CallCreate(slice) => CreateEffect(k, slice);
    case _ => CallApart(k, call, Buffers);
  }
}
