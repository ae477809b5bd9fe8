/** The loops of the semaphore and sleep procedures, one round at a time. */
module KernelRounds {
  import opened Entries
  import opened KernelTypes
  import opened KernelSpec
  import opened PlaceInvariant
  import opened Effects
  import opened LinkInvariant
  import opened KernelSteps

  ghost function Served(k: State, s: Sid, tokens: nat): State
    requires Sm(k, s).queue != [] && tokens <= Sm(k, s).queue[0].n
  {
    var q := Sm(k, s).queue;
    SetSm(k, s, Sm(k, s).(queue := [Entry(q[0].tid, q[0].n - tokens)] + q[1..]))
  }

  lemma ServedIs(k: State, s: Sid, tokens: nat)
    requires s < |k.sems| && k.sems[s].queue != [] && tokens <= k.sems[s].queue[0].n
    ensures var q := k.sems[s].queue;
      Served(k, s, tokens) == k.(sems := k.sems[s := k.sems[s].(queue := [Entry(q[0].tid, q[0].n - tokens)] + q[1..])])
  {
  }

  /** From k' with `left` tokens signal ends as it does from k with `tokens`, in fewer rounds. */
  ghost predicate SignalsOn(k: State, s: Sid, tokens: nat, k': State, left: nat, limbo: set<Tid>) {
    && Core(k', limbo)
    && SignalLoop(k', s, left) == SignalLoop(k, s, tokens)
    && (|Sm(k', s).queue| < |Sm(k, s).queue| || (|Sm(k', s).queue| == |Sm(k, s).queue| && left < tokens))
  }

  lemma GrantsOn(k: State, s: Sid, tokens: nat, limbo: set<Tid>)
    requires Core(k, limbo) && s < |k.sems| && Sm(k, s).queue != [] && Sm(k, s).queue[0].n <= tokens && 0 < tokens
    ensures SignalsOn(k, s, tokens, GrantHead(k, s, Regular), tokens - Sm(k, s).queue[0].n, limbo)
  {
    GrantHeadCore(k, s, Regular, limbo);
  }

  /** After partial service nothing is left to add to the value. */
  lemma ServesOn(k: State, s: Sid, tokens: nat, limbo: set<Tid>)
    requires Core(k, limbo) && s < |k.sems| && Sm(k, s).queue != [] && 0 < tokens < Sm(k, s).queue[0].n
    ensures SignalsOn(k, s, tokens, Served(k, s, tokens), 0, limbo)
  {
    assert QueueOk(k, s);
    var q := Sm(k, s).queue;
    SemCore(k, s, Sm(k, s).(queue := [Entry(q[0].tid, q[0].n - tokens)] + q[1..]), limbo);
    var k' := Served(k, s, tokens);
    assert k'.sems[s := k'.sems[s]] == k'.sems;
  }

  ghost predicate FreesOn(k: State, s: Sid, m: Manner, k': State, limbo: set<Tid>) {
    && Core(k', limbo)
    && ReleaseAll(k', s, m) == ReleaseAll(k, s, m)
    && |Sm(k', s).queue| < |Sm(k, s).queue|
  }

  lemma GrantsAll(k: State, s: Sid, m: Manner, limbo: set<Tid>)
    requires Core(k, limbo) && s < |k.sems| && Sm(k, s).queue != []
    ensures FreesOn(k, s, m, GrantHead(k, s, m), limbo)
  {
    GrantHeadCore(k, s, m, limbo);
  }

  lemma TakeIs(k: State, s: Sid, tokens: nat)
    requires Sm(k, s).value >= tokens && k.running < |k.threads|
    ensures var k1 := WithValue(k, s, Sm(k, s).value - tokens);
      && k1.running == k.running && Take(k, s, tokens) == WithManner(k1, k1.running, Regular)
    ensures Me(Take(k, s, tokens)).manner == Regular
  {
  }

  lemma AbsorbIs(k: State, s: Sid, tokens: nat)
    requires Sm(k, s).value < tokens
    ensures Absorb(k, s, tokens)
         == SemPut(WithValue(k, s, 0), s, k.running, tokens - Sm(k, s).value)
    ensures WithValue(k, s, 0).running == k.running
  {
  }

  /** A blocked thread stands in the queue of its semaphore. */
  ghost predicate QueuedWhereBlocked(k: State, t: Tid) {
    match Th(k, t).blockedAt
    case None => true
    case Some(s) => s < |k.sems| && Has(Sm(k, s).queue, t)
  }

  /** A timed-out waiter leaves its queue. */
  ghost function GaveUp(k: State, t: Tid): State {
    match Th(k, t).blockedAt
    case None => k
    case Some(s) => var g := SemGet(k, s, t); WithManner(g, t, WaitTimeout)
  }

  /** Having absorbed the value, the running thread of k may go to sleep. */
  ghost predicate AbsorbedReady(k1: State, k: State) {
    && k1.running == k.running && k1.running !in k1.ready && !Has(k1.sleepers, k1.running)
    && QueuedWhereBlocked(k1, k1.running)
  }

  lemma TimedWaitIs(k: State, s: Sid, timeout: nat, tokens: nat, why: Why)
    requires Sm(k, s).active && Sm(k, s).value < tokens
    ensures var (k1, r) := Sleep(Absorb(k, s, tokens), timeout, Waiting(s, why));
      TimedWait(k, s, timeout, tokens, why) == (k1, if r.Some? then Some(ResolveManner(Me(k1).manner)) else None)
  {
  }

  lemma AbsorbReady(k: State, s: Sid, tokens: nat)
    requires Steady(k) && k.running != IDLE && Sm(k, s).active && Sm(k, s).value < tokens
    ensures Me(k).blockedAt.None?
    ensures AbsorbedReady(Absorb(k, s, tokens), k)
  {
    AbsorbCore(k, s, tokens);
    assert ThreadOk(k, k.running, {k.running});
    AppendHas(Sm(k, s).queue, Entry(k.running, tokens - Sm(k, s).value));
  }

  ghost predicate ExpiresOn(k: State, k': State, limbo: set<Tid>) {
    Core(k', limbo) && ExpireLoop(k') == ExpireLoop(k) && |k'.sleepers| < |k.sleepers|
  }

  lemma ExpiryParts(k: State, limbo: set<Tid>)
    requires Core(k, limbo) && k.sleepers != [] && k.sleepers[0].n == 0
    ensures var t := k.sleepers[0].tid;
      var k1 := SleepUnlink(k, 0);
      && QueuedWhereBlocked(k1, t)
      && t !in GaveUp(k1, t).ready
      && ExpireHead(k) == SchedPut(GaveUp(k1, t), t)
    ensures ExpiresOn(k, ExpireHead(k), limbo)
  {
    SleepUnlinkCore(k, 0, limbo);
    ExpireHeadCore(k, limbo);
    var t := k.sleepers[0].tid;
    assert ThreadOk(k, t, limbo);
    assert Th(SleepUnlink(k, 0), t) == Th(k, t).(sleeps := false);
    if Th(k, t).blockedAt.Some? { SemGetCore(SleepUnlink(k, 0), Th(k, t).blockedAt.value, t, limbo); }
  }

  /** The running thread stays out of the ready queue until it is preempted. */
  lemma TickLeaves(k: State)
    requires Core(k, {k.running}) && NoneDue(k.sleepers)
    ensures var k1 := OnTick(SliceCounted(k));
      k1.running == k.running && k1.running !in k1.ready
  {
    StableTicks(k, k.sliceTicks + 1);
    OnTickEffect(SliceCounted(k), {k.running});
  }

  lemma TickIs(k: State)
    ensures TickStep(k) == Preempted(OnTick(SliceCounted(k)))
  {
  }

  /** The slice is compared after the count, and the record of the running thread has not changed. */
  lemma TickSlice(k: State)
    requires Core(k, {k.running}) && NoneDue(k.sleepers)
    ensures var k' := TickStep(k);
      if k.sliceTicks + 1 < Me(k).slice then k'.running == k.running && k'.sliceTicks == k.sliceTicks + 1
      else k'.sliceTicks == 0
  {
    StableTicks(k, k.sliceTicks + 1);
    OnTickEffect(SliceCounted(k), {k.running});
    assert ThreadOk(k, k.running, {k.running});
    var a, b := Me(k), Th(OnTick(SliceCounted(k)), k.running);
    assert b == a || Expired(a, b);
  }

  // ---- finish, part by part

  lemma NotifyIs(k: State)
    requires Core(k, {k.running}) && Me(k).parent.Some? && !Th(k, Me(k).parent.value).finished
    requires Me(k).parent.value < |k.threads|
    ensures var p := Me(k).parent.value;
      && NotifyParent(k) == ParentWoken(ChildDropped(k, p), p)
      && ChildDropped(k, p).running == k.running
      && Core(ChildDropped(k, p), {k.running})
  {
    var p := Me(k).parent.value;
    FieldCore(k, p, Th(k, p).(children := Fewer(Th(k, p).children)), {k.running});
  }

  ghost function LeftSem(k: State, t: Tid): State {
    if Th(k, t).blockedAt.Some? then SemGet(k, Th(k, t).blockedAt.value, t) else k
  }

  ghost function LeftSleep(k: State, t: Tid): State {
    if Th(k, t).sleeps then SleepGet(k, t) else k
  }

  lemma RetireIs(k: State, status: int)
    requires k.running < |k.threads|
    ensures var k1 := LeftSem(k, k.running);
      var k2 := LeftSleep(k1, k.running);
      && k1.running == k.running && k2.running == k.running
      && Me(k1).sleeps == Me(k).sleeps && k1.sleepers == k.sleepers
      && Retire(k, status) == SetTh(k2, k.running, Me(k2).(exitStatus := status, finished := true))
  {
  }

  lemma EndReady(k: State, status: int)
    requires Busy(k)
    ensures QueuedWhereBlocked(k, k.running) && (Me(k).sleeps ==> Has(k.sleepers, k.running))
    ensures Retire(k, status).running == k.running && k.running !in Retire(k, status).ready
  {
    RunningFree(k);
  }

  // ---- threadCreate, part by part

  ghost function SemAppended(k: State, x: Sem): State {
    k.(sems := k.sems + [x])
  }

  lemma FourSems(k: State, t: Tid)
    ensures k.(sems := k.sems + NewSems(t))
         == SemAppended(SemAppended(SemAppended(SemAppended(k, Sem(JoinOf(t), true, 0, [])),
              Sem(JoinAllOf(t), true, 0, [])), Sem(SendOf(t), true, 1, [])), Sem(ReceiveOf(t), true, 0, []))
  {
    assert k.sems + [NewSems(t)[0]] + [NewSems(t)[1]] + [NewSems(t)[2]] + [NewSems(t)[3]] == k.sems + NewSems(t);
  }

  /** A new thread and its semaphores, before it is put in the ready queue. */
  ghost function Born(k: State, slice: nat): State {
    k.(threads := k.threads + [NewThread(Some(k.running), slice, |k.sems|)], sems := k.sems + NewSems(|k.threads|))
  }

  ghost function Started(k: State, t: Tid): State {
    var k1 := SchedPut(k, t);
    SetTh(k1, k1.running, Me(k1).(children := Me(k1).children + 1))
  }

  lemma CreateIs(k: State, slice: nat)
    requires Steady(k)
    ensures |k.threads| !in Born(k, slice).ready
    ensures Create(k, slice) == Started(Born(k, slice), |k.threads|)
  {
  }

  // ---- send and receive, part by part

  ghost function TextPut(k: State, t: Tid, text: string): State {
    SetTh(k, t, Th(k, t).(message := Some(Truncate(text))))
  }

  lemma SendBodyIs(k: State, t: Tid, text: string)
    requires Busy(k) && t < |k.threads|
    ensures var k1 := TextPut(k, t, text);
      && Busy(k1) && k1.running == k.running
      && SendBody(k, t, text) == (Signal(k1, Th(k1, t).semReceive, 1).0, Value(0))
  {
    FieldBusy(k, t, Th(k, t).(message := Some(Truncate(text))));
  }

  lemma SendIs(k: State, t: Tid, text: string)
    requires Busy(k) && t < |k.threads| && t != IDLE && t != k.running && '\0' !in text
    ensures var (k1, w) := Wait(k, Th(k, t).semSend, 1, ForSend(t, text));
      && Send(k, t, text) == (if w.None? then (k1, Suspended) else SendBody(k1, t, text))
      && (w.Some? ==> Busy(k1))
  {
    assert OwnsSems(k, t);
    WaitBusy(k, Th(k, t).semSend, 1, ForSend(t, text));
  }

  lemma ReceiveIs(k: State)
    requires Busy(k)
    ensures Me(k).blockedAt.None? && k.running !in k.ready
    ensures var (k1, w) := Wait(k, Me(k).semReceive, 1, ForReceive);
      && Receive(k) == (if w.None? then (k1, Suspended) else ReceiveBody(k1))
      && (w.Some? ==> Busy(k1))
  {
    assert OwnsSems(k, k.running);
    RunningFree(k);
    WaitBusy(k, Me(k).semReceive, 1, ForReceive);
  }

  // ---- character buffers, part by part

  ghost function BothSignalled(k: State, first: Sid, second: Sid): State {
    Signal(Signal(k, first, 1).0, second, 1).0
  }

  lemma RingPutBusy(k: State, b: nat, c: char)
    requires Busy(k)
    ensures Busy(RingPut(k, b, c)) && SameBufferLinks(Bf(k, b), Bf(RingPut(k, b, c), b))
  {
    var x := Bf(k, b);
    if x.posW < |x.data| {
      BufferBusy(k, b, x.(data := x.data[x.posW := c], posW := (x.posW + 1) % BUFFER_LENGTH));
    }
  }

  lemma BothSignalledBusy(k: State, first: Sid, second: Sid)
    requires Busy(k)
    ensures BothSignalled(k, first, second).bufs == k.bufs && Signal(k, first, 1).0.bufs == k.bufs
  {
    SignalBusy(k, first, 1);
    SignalWakes(k, first, 1, {k.running});
    var k1 := Signal(k, first, 1).0;
    SignalWakes(k1, second, 1, {k.running});
  }

  lemma PutBodyIs(k: State, b: nat, c: char)
    requires Busy(k) && b < |k.bufs|
    ensures var k1 := RingPut(k, b, c);
      && Busy(k1)
      && PutBody(k, b, c) == (BothSignalled(k1, Bf(k, b).mutex, Bf(k, b).semGet), Value(0))
      && Bf(PutBody(k, b, c).0, b) == Bf(k1, b)
  {
    RingPutBusy(k, b, c);
    BothSignalledBusy(RingPut(k, b, c), Bf(k, b).mutex, Bf(k, b).semGet);
  }

  lemma RingGetBusy(k: State, b: nat)
    requires Busy(k)
    ensures Busy(RingGet(k, b).0) && SameBufferLinks(Bf(k, b), Bf(RingGet(k, b).0, b))
  {
    var x := Bf(k, b);
    if x.posR < |x.data| { BufferBusy(k, b, x.(posR := (x.posR + 1) % BUFFER_LENGTH)); }
  }

  lemma GetBodyIs(k: State, b: nat)
    requires Busy(k) && b < |k.bufs|
    ensures var (k1, c) := RingGet(k, b);
      && Busy(k1)
      && GetBody(k, b) == (BothSignalled(k1, Bf(k, b).mutex, Bf(k, b).semPut), Chr(c))
      && Bf(GetBody(k, b).0, b) == Bf(k1, b)
  {
    RingGetBusy(k, b);
    BothSignalledBusy(RingGet(k, b).0, Bf(k, b).mutex, Bf(k, b).semPut);
  }

  lemma PutLockedIs(k: State, b: nat, c: char)
    requires Busy(k) && b < |k.bufs|
    ensures Me(k).blockedAt.None? && k.running !in k.ready
    ensures var (k1, w) := Wait(k, Bf(k, b).mutex, 1, ForPutLock(b, c));
      && PutLocked(k, b, c) == (if w.None? then (k1, Suspended) else PutBody(k1, b, c))
      && Bf(k1, b) == Bf(k, b) && |k1.bufs| == |k.bufs| && (w.Some? ==> Busy(k1))
  {
    assert BufferOwnsSems(k, b);
    RunningFree(k);
    WaitBusy(k, Bf(k, b).mutex, 1, ForPutLock(b, c));
    WaitEffect(k, Bf(k, b).mutex, 1, ForPutLock(b, c));
  }

  lemma GetLockedIs(k: State, b: nat)
    requires Busy(k) && b < |k.bufs|
    ensures Me(k).blockedAt.None? && k.running !in k.ready
    ensures var (k1, w) := Wait(k, Bf(k, b).mutex, 1, ForGetLock(b));
      && GetLocked(k, b) == (if w.None? then (k1, Suspended) else GetBody(k1, b))
      && Bf(k1, b) == Bf(k, b) && |k1.bufs| == |k.bufs| && (w.Some? ==> Busy(k1))
  {
    assert BufferOwnsSems(k, b);
    RunningFree(k);
    WaitBusy(k, Bf(k, b).mutex, 1, ForGetLock(b));
    WaitEffect(k, Bf(k, b).mutex, 1, ForGetLock(b));
  }

  lemma PutIs(k: State, b: nat, c: char)
    requires Busy(k) && b < |k.bufs|
    ensures Me(k).blockedAt.None? && k.running !in k.ready
    ensures var (k1, w) := Wait(k, Bf(k, b).semPut, 1, ForPut(b, c));
      && Put(k, b, c) == (if w.None? then (k1, Suspended) else PutLocked(k1, b, c))
      && Bf(k1, b) == Bf(k, b) && |k1.bufs| == |k.bufs| && (w.Some? ==> Busy(k1))
  {
    assert BufferOwnsSems(k, b);
    RunningFree(k);
    WaitBusy(k, Bf(k, b).semPut, 1, ForPut(b, c));
    WaitEffect(k, Bf(k, b).semPut, 1, ForPut(b, c));
  }

  lemma GetIs(k: State, b: nat)
    requires Busy(k) && b < |k.bufs|
    ensures Me(k).blockedAt.None? && k.running !in k.ready
    ensures var (k1, w) := Wait(k, Bf(k, b).semGet, 1, ForGet(b));
      && Get(k, b) == (if w.None? then (k1, Suspended) else GetLocked(k1, b))
      && Bf(k1, b) == Bf(k, b) && |k1.bufs| == |k.bufs| && (w.Some? ==> Busy(k1))
  {
    assert BufferOwnsSems(k, b);
    RunningFree(k);
    WaitBusy(k, Bf(k, b).semGet, 1, ForGet(b));
    WaitEffect(k, Bf(k, b).semGet, 1, ForGet(b));
  }

  // ---- resuming

  /** What follows the yield in a wait. */
  ghost function GoesOn(k: State, why: Why): (State, Reply) {
    match why
    case ForSem => (k, Value(ResolveManner(Me(k).manner)))
    case ForJoin(_) => (k, Value(ResolveManner(Me(k).manner)))
    case ForJoinAll => (k, Value(0))
    case ForTimedJoinAll => (k, Value(Me(k).children))
    case ForSend(to, text) => SendBody(k, to, text)
    case ForReceive => ReceiveBody(k)
    case ForPut(b, ch) => PutLocked(k, b, ch)
    case ForPutLock(b, ch) => PutBody(k, b, ch)
    case ForGet(b) => GetLocked(k, b)
    case ForGetLock(b) => GetBody(k, b)
  }

  ghost predicate WhyInRange(k: State, why: Why) {
    match why
    case ForSend(to, text) => to < |k.threads| && '\0' !in text
    case ForPut(b, _) => b < |k.bufs|
    case ForPutLock(b, _) => b < |k.bufs|
    case ForGet(b) => b < |k.bufs|
    case ForGetLock(b) => b < |k.bufs|
    case _ => true
  }

  lemma ResumeIs(k: State)
    requires Good(k) && !Me(k).cont.Run?
    ensures var k1 := WithCont(k, Run);
      && Busy(k1) && k1.bufs == k.bufs
      && (Me(k).cont.Sleeping? ==> ResumeStep(k) == (k1, Value(0)))
      && (Me(k).cont.Waiting? ==> WhyInRange(k1, Me(k).cont.why) && ResumeStep(k) == GoesOn(k1, Me(k).cont.why))
  {
    RunningFree(k);
    assert ContOk(k, k.running);
    WokenBusy(k);
    if Me(k).cont.Waiting? { assert Owned(k, Me(k).cont.s); }
  }
}
