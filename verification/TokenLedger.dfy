/** Token conservation: along any run, until the semaphore is closed, the tokens that went in are
    the tokens that are there, that completed waits took, that waiters have absorbed so far, that
    timed-out waiters kept, and whole wrap-arounds of the 64-bit value. */
module TokenLedger {
  import opened Entries
  import opened KernelTypes
  import opened SleepSpec
  import opened KernelSpec
  import opened PlaceInvariant
  import opened Effects
  import opened KernelSteps
  import opened Families
  import opened KernelRuns
  import opened WaitOrder

  /** What can happen at one open semaphore. */
  datatype SemEvent = Waited(t: Tid, n: nat) | Tried(n: nat) | Signalled(n: nat) | GaveUp(t: Tid)

  /** asked remembers each waiter's whole request. */
  datatype Ledger = Ledger(sem: Sem, asked: map<Tid, nat>, signalled: nat, completed: nat, timedOut: int, wraps: nat)

  function Asked(l: Ledger, t: Tid): nat {
    if t in l.asked then l.asked[t] else 0
  }

  function Taken(l: Ledger, n: nat): Ledger
    requires l.sem.value >= n
  {
    l.(sem := l.sem.(value := l.sem.value - n), completed := l.completed + n)
  }

  /** The first waiter has got all that it asked for. */
  function Completed(l: Ledger): Ledger
    requires l.sem.queue != []
  {
    l.(sem := l.sem.(queue := l.sem.queue[1..]), completed := l.completed + Asked(l, l.sem.queue[0].tid))
  }

  function Serve(l: Ledger, n: nat): Ledger
    decreases |l.sem.queue|
  {
    var q := l.sem.queue;
    if q == [] || n == 0 then
      l.(sem := l.sem.(value := Wrap(l.sem.value + n)),
         wraps := l.wraps + if l.sem.value + n < TWO64 then 0 else 1)
    else if n >= q[0].n then Serve(Completed(l), n - q[0].n)
    else
      l.(sem := l.sem.(queue := [Entry(q[0].tid, q[0].n - n)] + q[1..]))
  }

  /** t waits for n tokens and has got the value. */
  function Queued(l: Ledger, t: Tid, n: nat): Ledger
    requires l.sem.value < n
  {
    l.(sem := l.sem.(value := 0, queue := l.sem.queue + [Entry(t, n - l.sem.value)]), asked := l.asked[t := n])
  }

  /** Waiter i leaves with what it has got so far. */
  function Left(l: Ledger, i: nat): Ledger
    requires i < |l.sem.queue|
  {
    l.(sem := l.sem.(queue := DropAt(l.sem.queue, i)),
       timedOut := l.timedOut + Asked(l, l.sem.queue[i].tid) - l.sem.queue[i].n)
  }

  function Record(l: Ledger, e: SemEvent): Ledger {
    match e
    case Waited(t, n) => if l.sem.value >= n then Taken(l, n) else Queued(l, t, n)
    case Tried(n) => if l.sem.value >= n then Taken(l, n) else l
    case Signalled(n) => Serve(l, n).(signalled := l.signalled + n)
    case GaveUp(t) =>
      var i := IndexOf(l.sem.queue, t);
      if i < |l.sem.queue| then Left(l, i) else l
  }

  function RecordAll(l: Ledger, es: seq<SemEvent>): Ledger
    decreases |es|
  {
    if es == [] then l else RecordAll(Record(l, es[0]), es[1..])
  }

  /** Tokens that current waiters have got so far. */
  function Absorbed(q: seq<Entry>, asked: map<Tid, nat>): int {
    if q == [] then 0
    else (if q[0].tid in asked then asked[q[0].tid] else 0) - q[0].n + Absorbed(q[1..], asked)
  }

  ghost predicate Sound(l: Ledger) {
    && Distinct(l.sem.queue)
    && l.sem.value < TWO64
    && (l.sem.queue != [] ==> l.sem.value == 0)
    && forall i :: 0 <= i < |l.sem.queue| ==> 1 <= l.sem.queue[i].n <= Asked(l, l.sem.queue[i].tid)
  }

  ghost predicate Balanced(l: Ledger, initial: nat) {
    initial + l.signalled == l.sem.value + l.completed + Absorbed(l.sem.queue, l.asked) + l.timedOut + TWO64 * l.wraps
  }

  /** Everybody asks for one token, as all sem system calls do. */
  ghost predicate SingleTokens(l: Ledger) {
    l.timedOut == 0 && forall t :: t in l.asked ==> l.asked[t] == 1
  }

  // ---- sums

  lemma {:induction false} AbsorbedAppend(q: seq<Entry>, e: Entry, asked: map<Tid, nat>)
    ensures Absorbed(q + [e], asked) == Absorbed(q, asked) + (if e.tid in asked then asked[e.tid] else 0) - e.n
  {
    if q == [] {
      assert (q + [e])[1..] == [];
    } else {
      assert (q + [e])[1..] == q[1..] + [e];
      AbsorbedAppend(q[1..], e, asked);
    }
  }

  lemma {:induction false} AbsorbedDrop(q: seq<Entry>, i: nat, asked: map<Tid, nat>)
    requires i < |q|
    ensures Absorbed(q, asked)
         == Absorbed(DropAt(q, i), asked) + (if q[i].tid in asked then asked[q[i].tid] else 0) - q[i].n
  {
    if i == 0 {
      assert DropAt(q, 0) == q[1..];
    } else {
      assert DropAt(q, i)[1..] == DropAt(q[1..], i - 1);
      AbsorbedDrop(q[1..], i - 1, asked);
    }
  }

  lemma {:induction false} AbsorbedOther(q: seq<Entry>, asked: map<Tid, nat>, t: Tid, n: nat)
    requires !Has(q, t)
    ensures Absorbed(q, asked[t := n]) == Absorbed(q, asked)
  {
    if q != [] {
      HasUnfold(q, t);
      AbsorbedOther(q[1..], asked, t, n);
    }
  }

  lemma {:induction false} AbsorbedNothing(q: seq<Entry>, asked: map<Tid, nat>)
    requires forall i :: 0 <= i < |q| ==> q[i].tid in asked && q[i].n == asked[q[i].tid]
    ensures Absorbed(q, asked) == 0
  {
    if q != [] { AbsorbedNothing(q[1..], asked); }
  }

  // ---- one event

  lemma {:induction false} ServeBalanced(l: Ledger, n: nat, initial: int)
    requires Sound(l) && n < TWO64
    requires initial == l.sem.value + l.completed + Absorbed(l.sem.queue, l.asked) + l.timedOut + TWO64 * l.wraps
    ensures var r := Serve(l, n);
      && Sound(r)
      && r.asked == l.asked && r.signalled == l.signalled && r.timedOut == l.timedOut
      && initial + n == r.sem.value + r.completed + Absorbed(r.sem.queue, r.asked) + r.timedOut + TWO64 * r.wraps
    decreases |l.sem.queue|
  {
    var q := l.sem.queue;
    if q != [] && n > 0 {
      if n >= q[0].n {
        RestDistinct(q);
        ServeBalanced(Completed(l), n - q[0].n, initial + q[0].n);
      } else {
        var q' := [Entry(q[0].tid, q[0].n - n)] + q[1..];
        assert q'[1..] == q[1..];
        assert forall i :: 0 <= i < |q'| ==> q'[i].tid == q[i].tid;
      }
    }
  }

  lemma QueuedBalanced(l: Ledger, t: Tid, n: nat, initial: nat)
    requires Sound(l) && Balanced(l, initial) && !Has(l.sem.queue, t) && l.sem.value < n
    ensures Sound(Queued(l, t, n)) && Balanced(Queued(l, t, n), initial)
  {
    var r, q := Queued(l, t, n), l.sem.queue;
    AbsorbedOther(q, l.asked, t, n);
    AbsorbedAppend(q, Entry(t, n - l.sem.value), r.asked);
    AppendHas(q, Entry(t, n - l.sem.value));
    assert forall i :: 0 <= i < |q| ==> q[i].tid != t;
  }

  lemma LeftBalanced(l: Ledger, i: nat, initial: nat)
    requires Sound(l) && Balanced(l, initial) && i < |l.sem.queue|
    ensures Sound(Left(l, i)) && Balanced(Left(l, i), initial)
  {
    AbsorbedDrop(l.sem.queue, i, l.asked);
    DropAtHas(l.sem.queue, i);
  }

  /** Each event keeps the books balanced. */
  lemma RecordBalanced(l: Ledger, e: SemEvent, initial: nat)
    requires Sound(l) && Balanced(l, initial)
    requires e.Waited? ==> !Has(l.sem.queue, e.t)
    requires e.Signalled? ==> e.n < TWO64
    ensures Sound(Record(l, e)) && Balanced(Record(l, e), initial)
    ensures SingleTokens(l) && (e.Waited? ==> e.n == 1) ==> SingleTokens(Record(l, e))
  {
    match e
    case Waited(t, n) => if l.sem.value < n { QueuedBalanced(l, t, n, initial); }
    case Tried(n) =>
    case Signalled(n) =>
      ServeBalanced(l, n, l.sem.value + l.completed + Absorbed(l.sem.queue, l.asked) + l.timedOut + TWO64 * l.wraps);
    case GaveUp(t) =>
      var i := IndexOf(l.sem.queue, t);
      if i < |l.sem.queue| { LeftBalanced(l, i, initial); }
  }

  /** With one-token requests nothing is ever held by a waiter, present or past. */
  lemma SingleTokensHeld(l: Ledger)
    requires Sound(l) && SingleTokens(l)
    ensures Absorbed(l.sem.queue, l.asked) == 0 && l.timedOut == 0
  {
    AbsorbedNothing(l.sem.queue, l.asked);
  }

  // ---- the kernel

  /** The waiters of s that the loop of onTick gives up, in its order. */
  function ExpireEvents(k: State, s: Sid): seq<SemEvent>
    decreases |k.sleepers|
  {
    if k.sleepers != [] && k.sleepers[0].n == 0 then
      var t := k.sleepers[0].tid;
      (if Th(k, t).blockedAt == Some(s) then [GaveUp(t)] else []) + ExpireEvents(ExpireHead(k), s)
    else []
  }

  /** With no time to wait, a waiter that does not get its tokens at once gives up. */
  function TimedEvents(me: Tid, timeout: nat, n: nat, value: nat): seq<SemEvent> {
    if timeout == 0 && value < n then [Waited(me, n), GaveUp(me)] else [Waited(me, n)]
  }

  /** What a kernel step does at user semaphore s. */
  function EventsOf(k: State, step: Step, s: Sid): seq<SemEvent> {
    match step
    case Tick => ExpireEvents(k.(sliceTicks := k.sliceTicks + 1, sleepers := Decrement(k.sleepers)), s)
    case Resume => []
    case Sys(CallSemWait(s', n)) => if s' == s then [Waited(k.running, n)] else []
    case Sys(CallSemTimedWait(s', timeout, n)) =>
      if s' == s then TimedEvents(k.running, timeout, n, Sm(k, s).value) else []
    case Sys(CallSemTryWait(s', n)) => if s' == s then [Tried(n)] else []
    case Sys(CallSemSignal(s', n)) => if s' == s then [Signalled(n)] else []
    case Sys(_) => []
  }

  lemma {:induction false} ServeIsSignal(k: State, s: Sid, n: nat, l: Ledger, limbo: set<Tid>)
      returns (r: Ledger, k': State)
    requires Core(k, limbo) && s < |k.sems| && n < TWO64 && l.sem == Sm(k, s)
    ensures r == Serve(l, n) && k' == SignalLoop(k, s, n) && r.sem == Sm(k', s)
    decreases |Sm(k, s).queue|
  {
    var q := l.sem.queue;
    if q != [] && n != 0 && n >= q[0].n {
      GrantedSem(k, s, l, limbo);
      r, k' := ServeIsSignal(GrantHead(k, s, Regular), s, n - q[0].n, Completed(l), limbo);
      assert Serve(l, n) == r;
      assert SignalLoop(k, s, n) == k';
    } else {
      r, k' := ServeLast(k, s, n, l);
    }
  }

  lemma GrantedSem(k: State, s: Sid, l: Ledger, limbo: set<Tid>)
    requires Core(k, limbo) && s < |k.sems| && l.sem == Sm(k, s) && l.sem.queue != []
    ensures Core(GrantHead(k, s, Regular), limbo) && s < |GrantHead(k, s, Regular).sems|
    ensures Completed(l).sem == Sm(GrantHead(k, s, Regular), s)
  {
    GrantHeadCore(k, s, Regular, limbo);
  }

  lemma ServeLast(k: State, s: Sid, n: nat, l: Ledger) returns (r: Ledger, k': State)
    requires s < |k.sems| && l.sem == Sm(k, s)
    requires l.sem.queue == [] || n == 0 || n < l.sem.queue[0].n
    ensures r == Serve(l, n) && k' == SignalLoop(k, s, n) && r.sem == Sm(k', s)
  {
    r, k' := Serve(l, n), SignalLoop(k, s, n);
  }

  /** One round of the loop of onTick. */
  lemma ExpireOne(k: State, s: Sid, l: Ledger, initial: nat, limbo: set<Tid>)
    requires Core(k, limbo) && s < |k.sems| && l.sem == Sm(k, s) && Sound(l) && Balanced(l, initial)
    requires k.sleepers != [] && k.sleepers[0].n == 0
    ensures var k1, t := ExpireHead(k), k.sleepers[0].tid;
      var l1 := if Th(k, t).blockedAt == Some(s) then Record(l, GaveUp(t)) else l;
      && Core(k1, limbo) && s < |k1.sems| && |k1.sleepers| < |k.sleepers|
      && l1.sem == Sm(k1, s) && Sound(l1) && Balanced(l1, initial) && (SingleTokens(l) ==> SingleTokens(l1))
  {
    ExpireHeadCore(k, limbo);
    var t := k.sleepers[0].tid;
    if Th(k, t).blockedAt == Some(s) { RecordBalanced(l, GaveUp(t), initial); }
  }

  lemma {:induction false} ExpireTracks(k: State, s: Sid, l: Ledger, initial: nat, limbo: set<Tid>)
    requires Core(k, limbo) && s < |k.sems| && l.sem == Sm(k, s) && Sound(l) && Balanced(l, initial)
    ensures var r := RecordAll(l, ExpireEvents(k, s));
      && r.sem == Sm(ExpireLoop(k), s) && Sound(r) && Balanced(r, initial)
      && (SingleTokens(l) ==> SingleTokens(r))
    decreases |k.sleepers|
  {
    if k.sleepers != [] && k.sleepers[0].n == 0 {
      ExpireOne(k, s, l, initial, limbo);
      var t, k1 := k.sleepers[0].tid, ExpireHead(k);
      var rest := ExpireEvents(k1, s);
      if Th(k, t).blockedAt == Some(s) {
        assert ([GaveUp(t)] + rest)[1..] == rest;
        ExpireTracks(k1, s, Record(l, GaveUp(t)), initial, limbo);
      } else {
        assert [] + rest == rest;
        ExpireTracks(k1, s, l, initial, limbo);
      }
    }
  }

  lemma OnTickTracks(k: State, s: Sid, l: Ledger, initial: nat)
    requires Core(k, {k.running}) && NoneDue(k.sleepers)
    requires s < |k.sems| && l.sem == Sm(k, s) && Sound(l) && Balanced(l, initial)
    ensures var r := RecordAll(l, ExpireEvents(DeltasCounted(k), s));
      && r.sem == Sm(OnTick(k), s) && Sound(r) && Balanced(r, initial)
      && (SingleTokens(l) ==> SingleTokens(r))
  {
    DecrementCore(k, {k.running});
    ExpireTracks(DeltasCounted(k), s, l, initial, {k.running});
  }

  /** The scheduling decision touches no semaphore. */
  lemma TickSem(k: State, k0: State, s: Sid)
    requires k0 == SliceCounted(k)
    ensures Sm(TickStep(k), s) == Sm(OnTick(k0), s)
    ensures EventsOf(k, Tick, s) == ExpireEvents(DeltasCounted(k0), s)
  {
  }

  lemma TickTracks(k: State, s: Sid, l: Ledger, initial: nat, r: Ledger)
    requires Core(k, {k.running}) && NoneDue(k.sleepers)
    requires s < |k.sems| && l.sem == Sm(k, s) && Sound(l) && Balanced(l, initial)
    requires r == RecordAll(l, EventsOf(k, Tick, s))
    ensures r.sem == Sm(TickStep(k), s) && Sound(r) && Balanced(r, initial)
    ensures SingleTokens(l) ==> SingleTokens(r)
  {
    var k0 := SliceCounted(k);
    StableTicks(k, k.sliceTicks + 1);
    OnTickTracks(k0, s, l, initial);
    TickSem(k, k0, s);
  }

  /** The requests of one step at s are one token each. */
  ghost predicate OneTokenStep(step: Step, s: Sid) {
    match step
    case Sys(CallSemWait(s', n)) => s' == s ==> n == 1
    case Sys(CallSemTimedWait(s', _, n)) => s' == s ==> n == 1
    case _ => true
  }

  lemma CallTracks(k: State, call: Call, s: Sid, l: Ledger, initial: nat)
    requires Busy(k) && CallOk(k, call) && s < |k.sems| && Sm(k, s).kind.UserSem? && Sm(k, s).active
    requires call != CallSemClose(s) && CallFamily(call) == Users && call.s == s
    requires l.sem == Sm(k, s) && Sound(l) && Balanced(l, initial)
    ensures var r := RecordAll(l, EventsOf(k, Sys(call), s));
      && r.sem == Sm(Syscall(k, call).0, s) && Sound(r) && Balanced(r, initial)
      && (SingleTokens(l) && OneTokenStep(Sys(call), s) ==> SingleTokens(r))
  {
    RunningFree(k);
    assert QueueOk(k, s);
    assert !Has(Sm(k, s).queue, k.running);
    match call
    case CallSemWait(_, n) => WaitTracks(k, s, n, l, initial);
    case CallSemTimedWait(_, timeout, n) => TimedTracks(k, s, timeout, n, l, initial);
    case CallSemTryWait(_, n) => TryTracks(k, s, n, l, initial);
    case CallSemSignal(_, n) => SignalTracks(k, s, n, l, initial);
  }

  lemma WaitTracks(k: State, s: Sid, n: nat, l: Ledger, initial: nat)
    requires Busy(k) && s < |k.sems| && Sm(k, s).active && !Has(Sm(k, s).queue, k.running)
    requires l.sem == Sm(k, s) && Sound(l) && Balanced(l, initial)
    ensures var r := RecordAll(l, [Waited(k.running, n)]);
      && r.sem == Sm(Wait(k, s, n, ForSem).0, s) && Sound(r) && Balanced(r, initial)
      && (SingleTokens(l) && n == 1 ==> SingleTokens(r))
  {
    WaitEffect(k, s, n, ForSem);
    RecordBalanced(l, Waited(k.running, n), initial);
  }

  lemma TryTracks(k: State, s: Sid, n: nat, l: Ledger, initial: nat)
    requires Busy(k) && s < |k.sems| && Sm(k, s).active
    requires l.sem == Sm(k, s) && Sound(l) && Balanced(l, initial)
    ensures var r := RecordAll(l, [Tried(n)]);
      && r.sem == Sm(TryWait(k, s, n).0, s) && Sound(r) && Balanced(r, initial)
      && (SingleTokens(l) ==> SingleTokens(r))
  {
    RecordBalanced(l, Tried(n), initial);
  }

  lemma SignalTracks(k: State, s: Sid, n: nat, l: Ledger, initial: nat)
    requires Busy(k) && s < |k.sems| && Sm(k, s).active && n < TWO64
    requires l.sem == Sm(k, s) && Sound(l) && Balanced(l, initial)
    ensures var r := RecordAll(l, [Signalled(n)]);
      && r.sem == Sm(Signal(k, s, n).0, s) && Sound(r) && Balanced(r, initial)
      && (SingleTokens(l) ==> SingleTokens(r))
  {
    RecordBalanced(l, Signalled(n), initial);
    var r, k' := ServeIsSignal(k, s, n, l, {k.running});
  }

  function TimedResult(x: Sem, me: Tid, timeout: nat, n: nat): Sem {
    if x.value >= n then x.(value := x.value - n)
    else if timeout == 0 then x.(value := 0)
    else x.(value := 0, queue := x.queue + [Entry(me, n - x.value)])
  }

  lemma TimedBooks(l: Ledger, me: Tid, timeout: nat, n: nat, initial: nat)
    requires Sound(l) && Balanced(l, initial) && !Has(l.sem.queue, me)
    ensures var r := RecordAll(l, TimedEvents(me, timeout, n, l.sem.value));
      && r.sem == TimedResult(l.sem, me, timeout, n) && Sound(r) && Balanced(r, initial)
      && (SingleTokens(l) && n == 1 ==> SingleTokens(r))
  {
    RecordBalanced(l, Waited(me, n), initial);
    if timeout == 0 && l.sem.value < n { GivesUpAtOnce(l, me, n, initial); }
  }

  lemma TimedSem(k: State, s: Sid, timeout: nat, n: nat)
    requires Busy(k) && s < |k.sems| && Sm(k, s).active
    ensures Sm(TimedWait(k, s, timeout, n, ForSem).0, s) == TimedResult(Sm(k, s), k.running, timeout, n)
  {
    TimedWaitEffect(k, s, timeout, n, ForSem);
  }

  lemma TimedTracks(k: State, s: Sid, timeout: nat, n: nat, l: Ledger, initial: nat)
    requires Busy(k) && s < |k.sems| && Sm(k, s).active && !Has(Sm(k, s).queue, k.running)
    requires l.sem == Sm(k, s) && Sound(l) && Balanced(l, initial)
    ensures var r := RecordAll(l, EventsOf(k, Sys(CallSemTimedWait(s, timeout, n)), s));
      && r.sem == Sm(TimedWait(k, s, timeout, n, ForSem).0, s) && Sound(r) && Balanced(r, initial)
      && (SingleTokens(l) && n == 1 ==> SingleTokens(r))
  {
    TimedSem(k, s, timeout, n);
    TimedBooks(l, k.running, timeout, n, initial);
  }

  /** A waiter that gives up at once leaves the queue as it was and keeps the value it absorbed. */
  lemma GivesUpAtOnce(l: Ledger, me: Tid, n: nat, initial: nat)
    requires Sound(l) && Balanced(l, initial) && !Has(l.sem.queue, me) && l.sem.value < n
    ensures var r := RecordAll(l, [Waited(me, n), GaveUp(me)]);
      && r.sem == l.sem.(value := 0) && Sound(r) && Balanced(r, initial)
      && (SingleTokens(l) && n == 1 ==> SingleTokens(r))
  {
    RecordBalanced(l, Waited(me, n), initial);
    var l1 := Record(l, Waited(me, n));
    RecordBalanced(l1, GaveUp(me), initial);
    GivenUpSem(l, me, n);
    RecordTwo(l, Waited(me, n), GaveUp(me));
  }

  lemma GivenUpSem(l: Ledger, me: Tid, n: nat)
    requires !Has(l.sem.queue, me) && l.sem.value < n
    ensures Record(Record(l, Waited(me, n)), GaveUp(me)).sem == l.sem.(value := 0)
  {
    LastLeaves(l.sem.queue, Entry(me, n - l.sem.value));
  }

  lemma LastLeaves(q: seq<Entry>, e: Entry)
    requires !Has(q, e.tid)
    ensures IndexOf(q + [e], e.tid) == |q| && DropAt(q + [e], |q|) == q
  {
    var r := q + [e];
    assert r[|q|].tid == e.tid;
    assert forall j :: 0 <= j < |q| ==> r[j] == q[j];
  }

  lemma RecordTwo(l: Ledger, e: SemEvent, f: SemEvent)
    ensures RecordAll(l, [e, f]) == Record(Record(l, e), f)
  {
    assert [e, f][1..] == [f];
    assert [f][1..] == [];
    assert RecordAll(Record(l, e), [f]) == Record(Record(l, e), f);
  }

  /** The ledger follows semaphore s through every step that does not close it. */
  lemma StepTracks(k: State, step: Step, s: Sid, l: Ledger, initial: nat)
    requires Good(k) && Enabled(k, step) && s < |k.sems| && Sm(k, s).kind.UserSem? && Sm(k, s).active
    requires step != Sys(CallSemClose(s))
    requires l.sem == Sm(k, s) && Sound(l) && Balanced(l, initial)
    ensures var r := RecordAll(l, EventsOf(k, step, s));
      && r.sem == Sm(Next(k, step).0, s) && Sound(r) && Balanced(r, initial)
      && (SingleTokens(l) && OneTokenStep(step, s) ==> SingleTokens(r))
  {
    match step
    case Tick => TickTracks(k, s, l, initial, RecordAll(l, EventsOf(k, Tick, s)));
    case Resume =>
      if ContFamily(Me(k).cont) != Users { ResumeApart(k, Users); }
    case Sys(call) =>
      if k.running != IDLE {
        if CallFamily(call) == Users && call.s == s {
          CallTracks(k, call, s, l, initial);
        } else {
          ElsewhereTracks(k, call, s);
        }
      }
  }

  /** Calls at other semaphores. */
  lemma ElsewhereTracks(k: State, call: Call, s: Sid)
    requires Busy(k) && CallOk(k, call) && s < |k.sems| && Sm(k, s).kind.UserSem?
    requires CallFamily(call) == Users ==> call.s != s
    ensures Sm(Syscall(k, call).0, s) == Sm(k, s)
  {
    match call
    case CallCreate(slice) => CreateEffect(k, slice);
    case CallExit(status) => FinishLeavesUsers(k, status, s);
    case CallSemClose(s') => CloseWakes(k, s', {k.running});
    case CallSemWait(s', n) => WaitEffect(k, s', n, ForSem);
    case CallSemSignal(s', n) => SignalWakes(k, s', n, {k.running});
    case CallSemTimedWait(s', timeout, n) => TimedWaitEffect(k, s', timeout, n, ForSem);
    case CallSemTryWait(s', n) =>
    case _ => CallApart(k, call, Users);
  }

  lemma FinishLeavesUsers(k: State, status: int, s: Sid)
    requires Busy(k) && s < |k.sems| && Sm(k, s).kind.UserSem?
    ensures Sm(Finish(k, status), s) == Sm(k, s)
  {
    FinishParts(k);
    var k1 := CloseMail(k);
    CloseMailApart(k, Users);
    FinishTailApart(k1, Users);
    var k3 := NotifyParent(CloseJoin(k1));
    var k4 := Close(k3, Me(k3).semJoinAll).0;
    ApartTransitive(k, k1, k4, Users);
    RetireCore(k4, status);
    assert Finish(k, status).sems == Retire(k4, status).sems;
  }

  // ---- runs

  /** The books of semaphore s over the first j steps of a run. */
  ghost function Books(r: Trace, s: Sid, j: nat): Ledger
    requires |r.states| == |r.steps| + 1 && j <= |r.steps|
  {
    if j == 0 then Ledger(Sm(r.states[0], s), map[], 0, 0, 0, 0)
    else RecordAll(Books(r, s, j - 1), EventsOf(r.states[j - 1], r.steps[j - 1], s))
  }

  /** The books follow an open semaphore, and they balance. */
  ghost predicate BooksOk(k: State, s: Sid, l: Ledger, initial: nat) {
    && Good(k) && s < |k.sems| && Sm(k, s).kind.UserSem? && Sm(k, s).active
    && l.sem == Sm(k, s) && Sound(l) && Balanced(l, initial)
  }

  /** One step of a run. */
  lemma TracksOn(r: Trace, i: nat, s: Sid, initial: nat)
    requires ValidTrace(r) && i < |r.steps| && r.steps[i] != Sys(CallSemClose(s))
    requires BooksOk(r.states[i], s, Books(r, s, i), initial)
    ensures BooksOk(r.states[i + 1], s, Books(r, s, i + 1), initial)
    ensures SingleTokens(Books(r, s, i)) && OneTokenStep(r.steps[i], s) ==> SingleTokens(Books(r, s, i + 1))
  {
    assert StepOf(r, i);
    var k, step, l := r.states[i], r.steps[i], Books(r, s, i);
    NextGood(k, step);
    StepTracks(k, step, s, l, initial);
    RecordKeepsOpen(l, EventsOf(k, step, s));
    ThreadsGrow(k, step);
  }

  lemma BooksOpen(r: Trace, s: Sid)
    requires |r.states| == |r.steps| + 1 && Good(r.states[0])
    requires s < |r.states[0].sems| && Sm(r.states[0], s).kind.UserSem?
    requires Sm(r.states[0], s).active && Sm(r.states[0], s).queue == []
    ensures BooksOk(r.states[0], s, Books(r, s, 0), Sm(r.states[0], s).value)
  {
    assert QueueOk(r.states[0], s);
  }

  lemma NoTokensYet(r: Trace, s: Sid)
    requires |r.states| == |r.steps| + 1
    ensures SingleTokens(Books(r, s, 0))
  {
  }

  /** The first j steps do not close s. */
  ghost predicate StaysOpen(r: Trace, s: Sid, j: nat)
    requires j <= |r.steps|
  {
    forall i: nat :: i < j ==> r.steps[i] != Sys(CallSemClose(s))
  }

  /** The first j steps ask s for one token at a time. */
  ghost predicate OneTokenRun(r: Trace, s: Sid, j: nat)
    requires j <= |r.steps|
  {
    forall i: nat :: i < j ==> OneTokenStep(r.steps[i], s)
  }

  ghost predicate Unused(r: Trace, s: Sid) {
    && ValidTrace(r) && Good(r.states[0])
    && s < |r.states[0].sems| && Sm(r.states[0], s).kind.UserSem?
    && Sm(r.states[0], s).active && Sm(r.states[0], s).queue == []
  }

  lemma OneTokenRunBefore(r: Trace, s: Sid, i: nat)
    requires i < |r.steps| && OneTokenRun(r, s, i + 1)
    ensures OneTokenRun(r, s, i) && OneTokenStep(r.steps[i], s)
  {
  }

  /** Conservation of tokens over any run that starts with nobody waiting at s and does not close s. */
  lemma {:induction false} TokensConserved(r: Trace, s: Sid, j: nat)
    requires Unused(r, s) && j <= |r.steps| && StaysOpen(r, s, j)
    ensures BooksOk(r.states[j], s, Books(r, s, j), Sm(r.states[0], s).value)
    ensures OneTokenRun(r, s, j) ==> SingleTokens(Books(r, s, j))
  {
    if j == 0 {
      BooksOpen(r, s);
      NoTokensYet(r, s);
    } else {
      TokensConserved(r, s, j - 1);
      TracksOn(r, j - 1, s, Sm(r.states[0], s).value);
      if OneTokenRun(r, s, j) { OneTokenRunBefore(r, s, j - 1); }
    }
  }

  /** With one-token requests, as in all sem system calls, no waiter holds a token, now or after it gave
      up: what went in is there or was taken by a completed wait. */
  lemma SingleTokensConserved(r: Trace, s: Sid, j: nat)
    requires Unused(r, s) && j <= |r.steps| && StaysOpen(r, s, j) && OneTokenRun(r, s, j)
    ensures var l := Books(r, s, j);
      Sm(r.states[0], s).value + l.signalled == Sm(r.states[j], s).value + l.completed + TWO64 * l.wraps
  {
    TokensConserved(r, s, j);
    SingleTokensHeld(Books(r, s, j));
  }

  lemma {:induction false} RecordKeepsOpen(l: Ledger, es: seq<SemEvent>)
    ensures RecordAll(l, es).sem.kind == l.sem.kind && RecordAll(l, es).sem.active == l.sem.active
    decreases |es|
  {
    if es != [] {
      if es[0].Signalled? { ServeKeepsOpen(l, es[0].n); }
      RecordKeepsOpen(Record(l, es[0]), es[1..]);
    }
  }

  lemma {:induction false} ServeKeepsOpen(l: Ledger, n: nat)
    ensures Serve(l, n).sem.kind == l.sem.kind && Serve(l, n).sem.active == l.sem.active
    decreases |l.sem.queue|
  {
    var q := l.sem.queue;
    if q != [] && n != 0 && n >= q[0].n {
      ServeKeepsOpen(Completed(l), n - q[0].n);
    }
  }
}
