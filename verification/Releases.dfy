/** Who is woken by a signal, a close or a tick, in which order, and what is left behind: the loops
    of kSemaphore and Sleep as relations between the fields of two states. */
module Releases {
  import opened Entries
  import opened KernelTypes
  import opened SleepSpec
  import opened KernelSpec
  import opened PlaceInvariant

  function Ids(q: seq<Entry>): seq<Tid> {
    seq(|q|, i requires 0 <= i < |q| => q[i].tid)
  }

  /** Who sleeps, how long and in which order, is the same but for q, whose threads do not sleep. */
  ghost predicate SleepersWithout(l: seq<Entry>, l': seq<Entry>, q: seq<Entry>) {
    && Distinct(l') && Total(l') < TWO64
    && (forall t: Tid :: t in Deadlines(l', 0) <==> t in Deadlines(l, 0) && !Has(q, t))
    && (forall t: Tid :: t in Deadlines(l', 0) && t in Deadlines(l, 0) ==> Deadlines(l', 0)[t] == Deadlines(l, 0)[t])
    && (forall a: Tid, b: Tid :: Before(l', a, b) ==> Before(l, a, b))
  }

  /** The threads of q, in this order, became ready, neither waiting nor asleep, and m says why;
      nobody else changed. */
  ghost predicate Released(k: State, k': State, q: seq<Entry>, m: Manner) {
    && k'.ready == k.ready + Ids(q)
    && k'.running == k.running && k'.sliceTicks == k.sliceTicks && k'.bufs == k.bufs
    && |k'.threads| == |k.threads|
    && (forall u: Tid :: u < |k.threads| ==>
          k'.threads[u] == if Has(q, u) then k.threads[u].(blockedAt := None, sleeps := false, manner := m)
                           else k.threads[u])
    && SleepersWithout(k.sleepers, k'.sleepers, q)
  }

  lemma SleepersSame(l: seq<Entry>)
    requires Distinct(l) && Total(l) < TWO64
    ensures SleepersWithout(l, l, [])
  {
  }

  lemma SleepersThen(l: seq<Entry>, l1: seq<Entry>, l2: seq<Entry>, a: seq<Entry>, b: seq<Entry>)
    requires SleepersWithout(l, l1, a) && SleepersWithout(l1, l2, b)
    ensures SleepersWithout(l, l2, a + b)
  {
    HasConcat(a, b);
  }

  lemma HasConcat(a: seq<Entry>, b: seq<Entry>)
    ensures forall t: Tid :: Has(a + b, t) <==> Has(a, t) || Has(b, t)
  {
    forall t: Tid | Has(a, t)
      ensures Has(a + b, t)
    {
      var i :| 0 <= i < |a| && a[i].tid == t;
      assert (a + b)[i].tid == t;
    }
    forall t: Tid | Has(b, t)
      ensures Has(a + b, t)
    {
      var i :| 0 <= i < |b| && b[i].tid == t;
      assert (a + b)[|a| + i].tid == t;
    }
  }

  lemma ReleasedNobody(k: State, k': State, m: Manner)
    requires k' == k.(sems := k'.sems) && SleepersOk(k)
    ensures Released(k, k', [], m)
  {
    SleepersSame(k.sleepers);
    assert k.ready + Ids([]) == k.ready;
  }

  lemma ReleasedThen(k: State, k1: State, k2: State, a: seq<Entry>, b: seq<Entry>, m: Manner)
    requires Released(k, k1, a, m) && Released(k1, k2, b, m)
    ensures Released(k, k2, a + b, m)
  {
    HasConcat(a, b);
    SleepersThen(k.sleepers, k1.sleepers, k2.sleepers, a, b);
    assert k.ready + Ids(a) + Ids(b) == k.ready + Ids(a + b);
  }

  lemma HasOne(e: Entry)
    ensures forall t: Tid :: Has([e], t) <==> t == e.tid
  {
    assert [e][0].tid == e.tid;
  }

  lemma SleeperGone(l: seq<Entry>, t: Tid)
    requires Distinct(l) && Total(l) < TWO64 && Has(l, t)
    ensures SleepersWithout(l, Remove(l, IndexOf(l, t)), [Entry(t, 0)])
  {
    var i := IndexOf(l, t);
    HasOne(Entry(t, 0));
    RemoveHas(l, i);
    RemoveTotal(l, i);
    RemoveRefines(l, i, 0);
    RemoveKeepsOthers(l, i);
  }

  lemma NoSleeper(l: seq<Entry>, t: Tid)
    requires Distinct(l) && Total(l) < TWO64 && !Has(l, t)
    ensures SleepersWithout(l, l, [Entry(t, 0)])
  {
    HasOne(Entry(t, 0));
    DeadlinesDomain(l, 0);
  }

  lemma SameGone(l: seq<Entry>, l': seq<Entry>, e: Entry, f: Entry)
    requires SleepersWithout(l, l', [e]) && e.tid == f.tid
    ensures SleepersWithout(l, l', [f])
  {
    HasOne(e);
    HasOne(f);
  }

  /** One round of the loops of signal and signalAll. */
  lemma HeadReleased(k: State, s: Sid, m: Manner, limbo: set<Tid>)
    requires Core(k, limbo) && s < |k.sems| && k.sems[s].queue != []
    ensures var k' := GrantHead(k, s, m);
      && Core(k', limbo) && Released(k, k', k.sems[s].queue[..1], m)
      && k'.sems == k.sems[s := k.sems[s].(queue := k.sems[s].queue[1..])]
  {
    GrantHeadCore(k, s, m, limbo);
    var e := k.sems[s].queue[0];
    var k' := GrantHead(k, s, m);
    assert k.sems[s].queue[..1] == [e];
    HasOne(e);
    if Th(k, e.tid).sleeps { SleeperGone(k.sleepers, e.tid); } else { NoSleeper(k.sleepers, e.tid); }
    SameGone(k.sleepers, k'.sleepers, Entry(e.tid, 0), e);
    assert Ids([e]) == [e.tid];
  }

  /** signalAll releases everybody, in order. */
  lemma {:induction false} AllReleased(k: State, s: Sid, m: Manner, limbo: set<Tid>) returns (r: State)
    requires Core(k, limbo) && s < |k.sems|
    ensures r == ReleaseAll(k, s, m) && Core(r, limbo)
    ensures Released(k, r, k.sems[s].queue, m) && r.sems == k.sems[s := k.sems[s].(queue := [])]
    decreases |k.sems[s].queue|
  {
    var q := k.sems[s].queue;
    r := k;
    if q == [] {
      ReleasedNobody(k, k, m);
    } else {
      HeadReleased(k, s, m, limbo);
      r := AllReleased(GrantHead(k, s, m), s, m, limbo);
      RestReleased(k, GrantHead(k, s, m), r, s, m);
    }
  }

  lemma RestReleased(k: State, k1: State, r: State, s: Sid, m: Manner)
    requires s < |k.sems| && k.sems[s].queue != [] && Released(k, k1, k.sems[s].queue[..1], m)
    requires k1.sems == k.sems[s := k.sems[s].(queue := k.sems[s].queue[1..])]
    requires Released(k1, r, k1.sems[s].queue, m) && r.sems == k1.sems[s := k1.sems[s].(queue := [])]
    ensures Released(k, r, k.sems[s].queue, m) && r.sems == k.sems[s := k.sems[s].(queue := [])]
  {
    var q := k.sems[s].queue;
    ReleasedThen(k, k1, r, q[..1], q[1..], m);
    assert q[..1] + q[1..] == q;
  }

  /** The first p waiters of q get all they need from n tokens, and the next does not. */
  ghost predicate Serves(q: seq<Entry>, n: nat, p: nat) {
    && p <= |q| && Total(q[..p]) <= n
    && (p < |q| ==> n - Total(q[..p]) < q[p].n)
  }

  /** The semaphore after its first p waiters got what they needed from n tokens: the next waiter gets
      the rest, and without a next waiter the rest is added to the value, in 64 bits. */
  function ServedSem(x: Sem, n: nat, p: nat): Sem
    requires Serves(x.queue, n, p)
  {
    var left := n - Total(x.queue[..p]);
    if p < |x.queue|
    then x.(queue := [Entry(x.queue[p].tid, x.queue[p].n - left)] + x.queue[p + 1..])
    else x.(queue := [], value := (x.value + left) % TWO64)
  }

  /** n tokens were handed out at s. */
  ghost predicate HandedOut(k: State, k': State, s: Sid, n: nat, p: nat) {
    && s < |k.sems| && Serves(k.sems[s].queue, n, p)
    && Released(k, k', k.sems[s].queue[..p], Regular)
    && k'.sems == k.sems[s := ServedSem(k.sems[s], n, p)]
  }

  lemma ServesMore(q: seq<Entry>, n: nat, p: nat)
    requires q != [] && q[0].n <= n && Serves(q[1..], n - q[0].n, p)
    ensures Serves(q, n, p + 1) && Total(q[..p + 1]) == q[0].n + Total(q[1..][..p])
  {
    assert q[..p + 1] == [q[0]] + q[1..][..p];
    assert q[..p + 1][1..] == q[1..][..p];
  }

  lemma ServedMore(x: Sem, n: nat, p: nat)
    requires x.queue != [] && x.queue[0].n <= n && Serves(x.queue[1..], n - x.queue[0].n, p)
    ensures Serves(x.queue, n, p + 1)
    ensures ServedSem(x, n, p + 1) == ServedSem(x.(queue := x.queue[1..]), n - x.queue[0].n, p)
  {
    ServesMore(x.queue, n, p);
    if p + 1 < |x.queue| { assert x.queue[1..][p + 1..] == x.queue[p + 2..]; }
  }

  /** Nobody gets all it needs. */
  lemma NoneServed(k: State, s: Sid, n: nat, limbo: set<Tid>)
    requires Core(k, limbo) && s < |k.sems| && n < TWO64
    requires k.sems[s].queue == [] || n < k.sems[s].queue[0].n
    ensures HandedOut(k, SignalLoop(k, s, n), s, n, 0)
  {
    assert QueueOk(k, s);
    var x := k.sems[s];
    assert Total(x.queue[..0]) == 0;
    if x.queue != [] && n == 0 { assert [Entry(x.queue[0].tid, x.queue[0].n - 0)] + x.queue[1..] == x.queue; }
    ReleasedNobody(k, SignalLoop(k, s, n), Regular);
    assert x.queue[..0] == [];
  }

  lemma {:induction false} SignalHandsOut(k: State, s: Sid, n: nat, limbo: set<Tid>) returns (r: State, p: nat)
    requires Core(k, limbo) && s < |k.sems| && n < TWO64
    ensures r == SignalLoop(k, s, n) && HandedOut(k, r, s, n, p)
    decreases |k.sems[s].queue|
  {
    assert QueueOk(k, s);
    var q := k.sems[s].queue;
    r, p := SignalLoop(k, s, n), 0;
    if q == [] || n < q[0].n {
      NoneServed(k, s, n, limbo);
    } else {
      HeadReleased(k, s, Regular, limbo);
      NextRound(k, s, n);
      r, p := SignalHandsOut(GrantHead(k, s, Regular), s, n - q[0].n, limbo);
      RestHandedOut(k, GrantHead(k, s, Regular), r, s, n, p);
      p := p + 1;
    }
  }

  lemma NextRound(k: State, s: Sid, n: nat)
    requires s < |k.sems| && k.sems[s].queue != [] && 1 <= k.sems[s].queue[0].n <= n
    ensures SignalLoop(k, s, n) == SignalLoop(GrantHead(k, s, Regular), s, n - k.sems[s].queue[0].n)
  {
  }

  lemma RestHandedOut(k: State, k1: State, r: State, s: Sid, n: nat, p: nat)
    requires s < |k.sems| && k.sems[s].queue != [] && k.sems[s].queue[0].n <= n
    requires Released(k, k1, k.sems[s].queue[..1], Regular)
    requires k1.sems == k.sems[s := k.sems[s].(queue := k.sems[s].queue[1..])]
    requires HandedOut(k1, r, s, n - k.sems[s].queue[0].n, p)
    ensures HandedOut(k, r, s, n, p + 1)
  {
    var q := k.sems[s].queue;
    ServedMore(k.sems[s], n, p);
    ReleasedThen(k, k1, r, q[..1], q[1..][..p], Regular);
    assert q[..1] + q[1..][..p] == q[..p + 1];
  }
}
