/** src/memoryManager.cpp on segment headers.  The header of the segment that starts at block b is
    prev[b], next[b], size[b]; links are block numbers, NULL for none; block b is at address
    base + 64 * b.  The ghost field h is the heap of HeapSpec that the headers stand for. */
module MemoryManager {
  import opened KernelTypes
  import opened HeapSpec
  import opened HeapLists
  import opened HeapTheorems

  const NULL: int := -1
  const MEM_BLOCK_SIZE: nat := 64
  const ERR_MEM_FREE: int := -1

  /** A pointer to the header of segment i, as a link. */
  function Link(l: seq<Seg>, i: int): int {
    if 0 <= i < |l| then l[i].start else NULL
  }

  /** No header of m is a header of l or one of x. */
  ghost predicate StartsApart(m: seq<Seg>, l: seq<Seg>, x: set<int>) {
    forall j: nat :: j < |m| ==> m[j].start !in x && !StartsAt(l, m[j].start)
  }

  class Headers {
    const n: nat
    const base: nat
    const prev: array<int>
    const next: array<int>
    const size: array<nat>

    function Addr(b: int): int {
      base + MEM_BLOCK_SIZE * b
    }

    ghost predicate Shape() {
      prev.Length == n && next.Length == n && size.Length == n && prev != next
    }

    /** The header of segment i. */
    ghost predicate Node(l: seq<Seg>, i: nat)
      requires Shape()
      reads prev, next, size
    {
      && i < |l| && l[i].start < n
      && size[l[i].start] == l[i].size
      && next[l[i].start] == Link(l, i + 1)
      && prev[l[i].start] == Link(l, i - 1)
    }

    /** The headers link up the segments of l, in order. */
    ghost predicate Chain(l: seq<Seg>, head: int)
      reads prev, next, size
    {
      && Shape() && head == Link(l, 0)
      && forall i: nat :: i < |l| ==> Node(l, i)
    }

    /** No header outside l, other than those at x, was written. */
    twostate predicate Apart(l: seq<Seg>, x: set<int>)
      reads prev, next, size
    {
      Shape() && forall b: nat :: b < n && b !in x && !StartsAt(l, b) ==>
        prev[b] == old(prev[b]) && next[b] == old(next[b]) && size[b] == old(size[b])
    }

    constructor (base: nat, n: nat)
      ensures this.base == base && this.n == n && Shape() && fresh(prev) && fresh(next) && fresh(size)
    {
      this.base, this.n := base, n;
      prev, next, size := new int[n], new int[n], new nat[n];
    }

    method FindBySize(head: int, need: nat, ghost l: seq<Seg>) returns (it: int)
      requires Chain(l, head)
      ensures it == Link(l, FirstFit(l, need))
    {
      it := head;
      ghost var i: nat := 0;
      assert |l| > 0 ==> Node(l, 0);
      while it != NULL && size[it] < need
        invariant i <= |l| && it == Link(l, i) && (i < |l| ==> Node(l, i))
        invariant forall j: nat :: j < i ==> l[j].size < need
        decreases |l| - i
      {
        it := next[it];
        i := i + 1;
        assert i < |l| ==> Node(l, i);
      }
      FirstFitAt(l, need, i);
    }

    /** The last header at or below an address, NULL if there is none. */
    method FindByPointer(head: int, other: nat, ghost l: seq<Seg>) returns (it: int)
      requires Chain(l, head) && Sorted(l, n)
      ensures it == Link(l, Below(l, other) - 1)
    {
      it := NULL;
      ghost var i: nat := 0;
      if head != NULL && Addr(head) <= other {
        assert Node(l, 0);
        it := head;
        while next[it] != NULL && Addr(next[it]) <= other
          invariant i < |l| && it == l[i].start && Node(l, i) && Addr(it) <= other
          decreases |l| - i
        {
          it := next[it];
          i := i + 1;
          assert Node(l, i);
        }
        BelowAt(l, other, i + 1);
      } else {
        BelowAt(l, other, 0);
      }
    }

    /** How many leading headers lie at or below an address. */
    ghost function Below(l: seq<Seg>, other: nat): nat {
      if other < base then 0 else Upto(l, (other - base) / MEM_BLOCK_SIZE)
    }

    lemma AtOrBelow(b: nat, other: nat)
      requires base <= other
      ensures Addr(b) <= other <==> b <= (other - base) / MEM_BLOCK_SIZE
    {
    }

    lemma BelowAt(l: seq<Seg>, other: nat, i: nat)
      requires Sorted(l, n) && i <= |l|
      requires i > 0 ==> Addr(l[i - 1].start) <= other
      requires i < |l| ==> Addr(l[i].start) > other
      ensures Below(l, other) == i
    {
      if other >= base {
        if i > 0 { AtOrBelow(l[i - 1].start, other); }
        if i < |l| { AtOrBelow(l[i].start, other); }
        UptoAt(l, n, (other - base) / MEM_BLOCK_SIZE, i);
      }
    }

    /** Unlinks the segment at t. */
    method Remove(t: nat, head: int, ghost l: seq<Seg>, ghost at: nat) returns (head': int)
      requires Chain(l, head) && Sorted(l, n) && at < |l| && l[at].start == t
      modifies prev, next
      ensures Chain(Without(l, at), head') && Apart(l, {})
      ensures size[..] == old(size[..])
    {
      Neighbours(l, at);
      StartsAround(l, at);
      head' := head;
      if head == t {
        head' := next[t];
        if next[t] != NULL { prev[next[t]] := NULL; }
      } else {
        next[prev[t]] := next[t];
        if next[t] != NULL { prev[next[t]] := prev[t]; }
      }
      prev[t] := NULL;
      next[t] := NULL;
      ghost var r := Without(l, at);
      forall j: nat | j < |r|
        ensures Node(r, j)
      {
        ghost var j' := if j < at then j else j + 1;
        assert old(Node(l, j'));
      }
    }

    /** Links the segment at t in behind the one at w, which is at position p - 1. */
    method InsertAfter(w: nat, t: nat, ghost l: seq<Seg>, ghost head: int, ghost p: nat)
      requires Chain(l, head) && Sorted(l, n) && 0 < p <= |l| && l[p - 1].start == w && t < n && !StartsAt(l, t)
      modifies prev, next
      ensures Chain(l[..p] + [Seg(t, size[t])] + l[p..], head) && Apart(l, {t})
      ensures size[..] == old(size[..])
    {
      Neighbours(l, p - 1);
      NoStart(l, t);
      StartsAround(l, p - 1);
      InsertedLinks(l, p, Seg(t, size[t]));
      prev[t] := w;
      next[t] := next[w];
      next[w] := t;
      if next[t] != NULL { prev[next[t]] := t; }
      ghost var r := l[..p] + [Seg(t, size[t])] + l[p..];
      forall j: nat | j < |r|
        ensures Node(r, j)
      {
        if j < p { assert old(Node(l, j)); }
        if j > p { assert old(Node(l, j - 1)); }
      }
    }

    /** Links the segment at t in before all others. */
    method InsertAsHead(head: int, t: nat, ghost l: seq<Seg>) returns (head': int)
      requires Chain(l, head) && Sorted(l, n) && t < n && !StartsAt(l, t)
      modifies prev, next
      ensures Chain([Seg(t, size[t])] + l, head') && Apart(l, {t})
      ensures size[..] == old(size[..])
    {
      if l != [] { Neighbours(l, 0); }
      prev[t] := NULL;
      next[t] := head;
      head' := t;
      if next[t] != NULL { prev[next[t]] := t; }
      ghost var r := l[..0] + [Seg(t, size[t])] + l[0..];
      forall j: nat | j < |r|
        ensures Node(r, j)
      {
        if j != 0 { assert old(Node(l, j - 1)); }
        assert forall x: nat :: x < |l| ==> l[x].start != t by { NoStart(l, t); }
        if l != [] { StartsDiffer(l, 0); }
      }
      assert l[..0] + [Seg(t, size[t])] + l[0..] == [Seg(t, size[t])] + l;
    }

    /** The header at t moves up by `amount` blocks, links and all.  With amount 0 it moves onto itself:
        the segment loses its size and its links. */
    method MoveHeader(t: nat, amount: nat, head: int) returns (head': int)
      requires Shape() && t + amount < n && amount <= size[t]
      requires NULL <= prev[t] < n && NULL <= next[t] < n && (prev[t] == next[t] ==> prev[t] == NULL)
      requires prev[t] != t && next[t] != t && prev[t] != t + amount && next[t] != t + amount
      requires head != t ==> prev[t] != NULL
      modifies prev, next, size
      ensures size[t] == amount && prev[t] == NULL && next[t] == NULL
      ensures amount > 0 ==>
        && size[t + amount] == old(size[t]) - amount
        && prev[t + amount] == old(prev[t]) && next[t + amount] == old(next[t])
      ensures head' == if head == t then t + amount else head
      ensures head != t ==> next[old(prev[t])] == t + amount
      ensures old(next[t]) != NULL ==> prev[old(next[t])] == t + amount
      ensures forall b: nat :: b < n && b != t && b != t + amount ==>
        && size[b] == old(size[b])
        && (b != old(next[t]) ==> prev[b] == old(prev[b]))
        && (head == t || b != old(prev[t]) ==> next[b] == old(next[b]))
    {
      var newHeader := t + amount;
      size[newHeader] := size[t] - amount;
      size[t] := amount;
      prev[newHeader] := prev[t];
      next[newHeader] := next[t];
      head' := head;
      if head == t { head' := newHeader; } else { next[prev[newHeader]] := newHeader; }
      if next[newHeader] != NULL { prev[next[newHeader]] := newHeader; }
      prev[t] := NULL;
      next[t] := NULL;
    }

    /** The other segments lie below t or above the part that is left. */
    lemma OthersBeside(l: seq<Seg>, at: nat, amount: nat)
      requires Sorted(l, n) && at < |l| && 0 < amount < l[at].size
      ensures l[at].start + amount < n
      ensures forall j: nat :: j < |l| && j != at ==> l[j].start != l[at].start && l[j].start != l[at].start + amount
    {
      forall j: nat | j < |l| && j != at
        ensures l[j].start != l[at].start && l[j].start != l[at].start + amount
      {
        if j < at { Ends(l, n, j, at); } else { Ends(l, n, at, j); }
      }
    }

    /** The rest of the segment at t takes its place in the list. */
    method Shorten(t: nat, amount: nat, head: int, ghost l: seq<Seg>, ghost at: nat) returns (head': int)
      requires Chain(l, head) && Sorted(l, n) && at < |l| && l[at].start == t && 0 < amount < l[at].size
      modifies prev, next, size
      ensures t + amount < n && size[t] == amount
      ensures Chain(l[at := Seg(t + amount, l[at].size - amount)], head') && Apart(l, {t + amount})
    {
      Neighbours(l, at);
      StartsAround(l, at);
      OthersBeside(l, at, amount);
      head' := MoveHeader(t, amount, head);
      ghost var r := l[at := Seg(t + amount, l[at].size - amount)];
      forall j: nat | j < |r|
        ensures Node(r, j)
      {
        assert old(Node(l, j));
      }
    }

    /** Only the header at t is written: it is erased. */
    twostate predicate Erased(t: nat)
      reads prev, next, size
    {
      && t < size.Length && t < prev.Length && t < next.Length
      && size[..] == old(size[..])[t := 0]
      && prev[..] == old(prev[..])[t := NULL] && next[..] == old(next[..])[t := NULL]
    }

    method Erase(t: nat, head: int, ghost l: seq<Seg>, ghost at: nat) returns (head': int)
      requires Chain(l, head) && Sorted(l, n) && at < |l| && l[at].start == t
      modifies prev, next, size
      ensures head' == head && Erased(t)
    {
      Neighbours(l, at);
      StartsAround(l, at);
      head' := MoveHeader(t, 0, head);
    }

    /** Cuts `amount` blocks off the front of the segment at t; the rest takes its place in the list.
        With amount 0 the segment loses its header. */
    method Reduce(t: nat, amount: nat, head: int, ghost l: seq<Seg>, ghost at: nat) returns (ok: bool, head': int)
      requires Chain(l, head) && Sorted(l, n) && at < |l| && l[at].start == t
      modifies prev, next, size
      ensures ok <==> amount < l[at].size
      ensures !ok ==> head' == head && Chain(l, head) && Apart([], {})
      ensures ok && amount > 0 ==> t + amount < n && size[t] == amount
      ensures ok && amount > 0 ==>
        Chain(l[at := Seg(t + amount, l[at].size - amount)], head') && Apart(l, {t + amount})
      ensures ok && amount == 0 ==> head' == head && Erased(t)
    {
      Neighbours(l, at);
      if size[t] < 1 || size[t] <= amount { return false, head; }
      if amount == 0 { head' := Erase(t, head, l, at); } else { head' := Shorten(t, amount, head, l, at); }
      ok := true;
    }

    /** The header at t takes over the blocks and the successor of the next one. */
    method JoinHeaders(t: nat)
      requires Shape() && t < n && 0 <= next[t] < n && NULL <= next[next[t]] < n
      requires next[t] != t && next[next[t]] != t && next[next[t]] != next[t]
      modifies prev, next, size
      ensures size[t] == old(size[t]) + old(size[next[t]]) && next[t] == old(next[next[t]])
      ensures next[t] != NULL ==> prev[next[t]] == t
      ensures forall b: nat :: b < n ==>
        && (b != t ==> size[b] == old(size[b]) && next[b] == old(next[b]))
        && (b != next[t] ==> prev[b] == old(prev[b]))
    {
      size[t] := size[t] + size[next[t]];
      next[t] := next[next[t]];
      if next[t] != NULL { prev[next[t]] := t; }
    }

    /** Swallows the next segment, which touches the one at t. */
    method Swallow(t: nat, ghost l: seq<Seg>, ghost head: int, ghost at: nat)
      requires Chain(l, head) && Sorted(l, n) && at + 1 < |l| && l[at].start == t
      modifies prev, next, size
      ensures Chain(MergeOnce(l, at), head) && Apart(l, {})
    {
      Neighbours(l, at);
      Neighbours(l, at + 1);
      StartsDiffer(l, at);
      StartsDiffer(l, at + 1);
      if at + 2 < |l| { StartsDiffer(l, at + 2); }
      MergeOnceAt(l, at);
      JoinHeaders(t);
      ghost var r := MergeOnce(l, at);
      forall j: nat | j < |r|
        ensures Node(r, j)
      {
        if j <= at { assert old(Node(l, j)); } else { assert old(Node(l, j + 1)); }
      }
    }

    /** Merges the segment at t with those that follow it without a gap. */
    method Merge(t: nat, ghost l: seq<Seg>, ghost head: int, ghost at: nat) returns (mergeCounter: nat)
      requires Chain(l, head) && Sorted(l, n) && at < |l| && l[at].start == t
      modifies prev, next, size
      ensures Chain(MergeAt(l, at), head) && Apart(l, {})
      ensures mergeCounter == |l| - |MergeAt(l, at)|
    {
      mergeCounter := 0;
      ghost var m := l;
      Neighbours(m, at);
      while next[t] != NULL && Addr(t) + size[t] * MEM_BLOCK_SIZE == Addr(next[t])
        invariant Chain(m, head) && Sorted(m, n) && at < |m| && m[at].start == t && Node(m, at)
        invariant MergeAt(m, at) == MergeAt(l, at) && |m| == |l| - mergeCounter
        invariant Apart(l, {}) && StartsWithin(m, l)
        decreases |m|
      {
        MergeOnceSorted(m, n, at);
        MergeOnceStarts(m, l, at);
        Swallow(t, m, head, at);
        m := MergeOnce(m, at);
        mergeCounter := mergeCounter + 1;
        Neighbours(m, at);
      }
    }

    /** findByPointer, then insertAfter or insertAsHead; a and b are lists that are not concerned. */
    method Place(t: nat, head: int, ghost l: seq<Seg>,
                 ghost a: seq<Seg>, ghost ha: int, ghost b: seq<Seg>, ghost hb: int) returns (head': int)
      requires Chain(l, head) && Sorted(l, n) && t < n && !StartsAt(l, t)
      requires Chain(a, ha) && StartsApart(a, l, {t}) && Chain(b, hb) && StartsApart(b, l, {t})
      modifies prev, next
      ensures Chain(Insert(l, Seg(t, size[t])), head') && Chain(a, ha) && Chain(b, hb)
      ensures size[..] == old(size[..])
    {
      AtOrBelow(t, Addr(t));
      ghost var p := Upto(l, t);
      var place := FindByPointer(head, Addr(t), l);
      if place != NULL {
        InsertAfter(place, t, l, head, p);
        head' := head;
      } else {
        assert l[..0] + [Seg(t, size[t])] + l[0..] == [Seg(t, size[t])] + l;
        head' := InsertAsHead(head, t, l);
      }
      forall j: nat | j < |a|
        ensures Node(a, j)
      {
        assert old(Node(a, j));
      }
      forall j: nat | j < |b|
        ensures Node(b, j)
      {
        assert old(Node(b, j));
      }
    }

    /** remove; a and b are lists that are not concerned. */
    method RemoveBeside(t: nat, head: int, ghost l: seq<Seg>, ghost at: nat,
                        ghost a: seq<Seg>, ghost ha: int, ghost b: seq<Seg>, ghost hb: int) returns (head': int)
      requires Chain(l, head) && Sorted(l, n) && at < |l| && l[at].start == t
      requires Chain(a, ha) && StartsApart(a, l, {}) && Chain(b, hb) && StartsApart(b, l, {})
      modifies prev, next
      ensures Chain(Without(l, at), head') && Chain(a, ha) && Chain(b, hb)
      ensures size[..] == old(size[..])
    {
      head' := Remove(t, head, l, at);
      forall j: nat | j < |a|
        ensures Node(a, j)
      {
        assert old(Node(a, j));
      }
      forall j: nat | j < |b|
        ensures Node(b, j)
      {
        assert old(Node(b, j));
      }
    }

    /** merge; a and b are lists that are not concerned. */
    method MergeBeside(t: nat, ghost l: seq<Seg>, ghost head: int, ghost at: nat,
                       ghost a: seq<Seg>, ghost ha: int, ghost b: seq<Seg>, ghost hb: int)
      requires Chain(l, head) && Sorted(l, n) && at < |l| && l[at].start == t
      requires Chain(a, ha) && StartsApart(a, l, {}) && Chain(b, hb) && StartsApart(b, l, {})
      modifies prev, next, size
      ensures Chain(MergeAt(l, at), head) && Chain(a, ha) && Chain(b, hb)
    {
      var _ := Merge(t, l, head, at);
      forall j: nat | j < |a|
        ensures Node(a, j)
      {
        assert old(Node(a, j));
      }
      forall j: nat | j < |b|
        ensures Node(b, j)
      {
        assert old(Node(b, j));
      }
    }

    /** The segment at t joins the free list: placed, merged with what follows, merged by what precedes. */
    method PutBack(t: nat, head: int, ghost l: seq<Seg>,
                   ghost a: seq<Seg>, ghost ha: int, ghost b: seq<Seg>, ghost hb: int) returns (head': int)
      requires Chain(l, head) && Sorted(l, n) && Spaced(l) && t < n
      requires size[t] > 0 && t + size[t] <= n && Clear(l, Seg(t, size[t])) && !StartsAt(l, t)
      requires Chain(a, ha) && StartsApart(a, l, {t}) && Chain(b, hb) && StartsApart(b, l, {t})
      modifies prev, next, size
      ensures Chain(GiveBack(l, Seg(t, old(size[t]))), head') && Chain(a, ha) && Chain(b, hb)
    {
      ghost var s := Seg(t, size[t]);
      ghost var p := Upto(l, t);
      head' := Place(t, head, l, a, ha, b, hb);
      assert size[t] == old(size[..])[t];
      ghost var l1 := Insert(l, s);
      InsertSorted(l, n, s);
      InsertStarts(l, s, a);
      InsertStarts(l, s, b);
      MergeBeside(t, l1, head', p, a, ha, b, hb);
      MergeKeeps(l1, n, p);
      MergeStarts(l1, n, p, a);
      MergeStarts(l1, n, p, b);
      ghost var l2 := MergeAt(l1, p);
      assert Node(l2, p);
      if prev[t] != NULL {
        MergeBeside(prev[t], l2, head', p - 1, a, ha, b, hb);
      }
    }

    /** The free segment at t, or its first `need` blocks, leaves the free list; a and b are lists
        that are not concerned. */
    method Take(t: nat, need: nat, head: int, ghost l: seq<Seg>, ghost at: nat,
                ghost a: seq<Seg>, ghost ha: int, ghost b: seq<Seg>, ghost hb: int) returns (head': int)
      requires Chain(l, head) && Sorted(l, n) && at < |l| && l[at].start == t && 0 < need <= l[at].size
      requires Chain(a, ha) && StartsApart(a, l, if need < l[at].size then {t + need} else {})
      requires Chain(b, hb) && StartsApart(b, l, if need < l[at].size then {t + need} else {})
      modifies prev, next, size
      ensures Chain(TakeFrom(l, at, need), head') && Chain(a, ha) && Chain(b, hb)
      ensures t < n && size[t] == need
    {
      Neighbours(l, at);
      if size[t] == need {
        head' := Remove(t, head, l, at);
        assert size[t] == old(size[..])[t];
      } else {
        var ok;
        ok, head' := Reduce(t, need, head, l, at);
      }
      forall j: nat | j < |a|
        ensures Node(a, j)
      {
        assert old(Node(a, j));
      }
      forall j: nat | j < |b|
        ensures Node(b, j)
      {
        assert old(Node(b, j));
      }
    }

    /** The segments around position `at` have headers. */
    lemma Neighbours(l: seq<Seg>, at: nat)
      requires Shape() && at < |l| && forall i: nat :: i < |l| ==> Node(l, i)
      ensures Node(l, at) && (at > 0 ==> Node(l, at - 1)) && (at + 1 < |l| ==> Node(l, at + 1)) && Node(l, 0)
    {
    }

    lemma StartsAround(l: seq<Seg>, at: nat)
      requires Sorted(l, n) && at < |l|
      ensures forall j: nat :: j < |l| && j != at ==> l[j].start != l[at].start
      ensures at > 0 ==> forall j: nat :: j < |l| && j != at - 1 ==> l[j].start != l[at - 1].start
      ensures at + 1 < |l| ==> forall j: nat :: j < |l| && j != at + 1 ==> l[j].start != l[at + 1].start
    {
      StartsDiffer(l, at);
      if at > 0 { StartsDiffer(l, at - 1); }
      if at + 1 < |l| { StartsDiffer(l, at + 1); }
    }

    ghost predicate StartsWithin(m: seq<Seg>, l: seq<Seg>) {
      forall b: nat :: StartsAt(m, b) ==> StartsAt(l, b)
    }

    lemma MergeOnceStarts(m: seq<Seg>, l: seq<Seg>, at: nat)
      requires at + 1 < |m| && StartsWithin(m, l)
      ensures StartsWithin(MergeOnce(m, at), l)
    {
      var r := MergeOnce(m, at);
      forall b: nat | StartsAt(r, b)
        ensures StartsAt(l, b)
      {
        var i: nat :| i < |r| && r[i].start == b;
        assert m[if i <= at then i else i + 1].start == b;
        assert StartsAt(m, b);
      }
    }

    lemma NoStart(l: seq<Seg>, t: nat)
      requires !StartsAt(l, t)
      ensures forall x: nat :: x < |l| ==> l[x].start != t
    {
    }

    lemma StartsDiffer(l: seq<Seg>, at: nat)
      requires Sorted(l, n) && at < |l|
      ensures forall j: nat :: j < |l| && j != at ==> l[j].start != l[at].start
    {
      forall j: nat | j < |l| && j != at
        ensures l[j].start != l[at].start
      {
        if j < at { Ends(l, n, j, at); } else { Ends(l, n, at, j); }
      }
    }
  }

  lemma MergeOnceAt(l: seq<Seg>, i: nat)
    requires i + 1 < |l|
    ensures var r := MergeOnce(l, i);
      && |r| == |l| - 1 && r[i] == Seg(l[i].start, l[i].size + l[i + 1].size)
      && (forall j: nat :: j < i ==> r[j] == l[j])
      && (forall j: nat :: i < j < |r| ==> r[j] == l[j + 1])
      && (forall j: int :: j <= i ==> Link(r, j) == Link(l, j))
      && (forall j: int :: j > i ==> Link(r, j) == Link(l, j + 1))
  {
  }

  lemma InsertedLinks(l: seq<Seg>, p: nat, s: Seg)
    requires p <= |l|
    ensures var r := l[..p] + [s] + l[p..];
      && |r| == |l| + 1 && r[p] == s
      && (forall j: nat :: j < p ==> r[j] == l[j])
      && (forall j: nat :: p < j < |r| ==> r[j] == l[j - 1])
      && (forall j: int :: j < p ==> Link(r, j) == Link(l, j))
      && Link(r, p) == s.start
      && (forall j: int :: j > p ==> Link(r, j) == Link(l, j - 1))
  {
  }

  lemma InsertStarts(l: seq<Seg>, s: Seg, m: seq<Seg>)
    requires StartsApart(m, l, {s.start})
    ensures StartsApart(m, Insert(l, s), {})
  {
    var r, p := Insert(l, s), Upto(l, s.start);
    forall j: nat | j < |m|
      ensures !StartsAt(r, m[j].start)
    {
      forall i: nat | i < |r|
        ensures r[i].start != m[j].start
      {
        if i != p { assert r[i] == l[if i < p then i else i - 1]; }
      }
    }
  }

  /** Merging makes no new headers. */
  lemma MergeStarts(l: seq<Seg>, n: nat, at: nat, m: seq<Seg>)
    requires Sorted(l, n) && at < |l| && StartsApart(m, l, {})
    ensures StartsApart(m, MergeAt(l, at), {})
  {
    MergeKeeps(l, n, at);
    var r := MergeAt(l, at);
    var d := |l| - |r|;
    forall j: nat | j < |m|
      ensures !StartsAt(r, m[j].start)
    {
      forall i: nat | i < |r|
        ensures r[i].start != m[j].start
      {
        if i < at {
          assert r[i] == r[..at][i] && l[i] == l[..at][i];
        } else if i > at {
          assert r[i] == r[at + 1..][i - at - 1] && l[i + d] == l[at + 1 + d..][i - at - 1];
        }
      }
    }
  }

  lemma FirstFitAt(l: seq<Seg>, need: nat, i: nat)
    requires i <= |l| && (i < |l| ==> l[i].size >= need) && forall j: nat :: j < i ==> l[j].size < need
    ensures FirstFit(l, need) == i
  {
    var f := FirstFit(l, need);
    assert f < |l| ==> l[f].size >= need;
  }

  lemma UptoAt(l: seq<Seg>, n: nat, a: nat, i: nat)
    requires Sorted(l, n) && i <= |l|
    requires i > 0 ==> l[i - 1].start <= a
    requires i < |l| ==> l[i].start > a
    ensures Upto(l, a) == i
  {
    var p := Upto(l, a);
    if p < i - 1 { Ends(l, n, p, i - 1); }
  }

  // ---- memAlloc_, memFree_ and their entry points

  class MemoryManager {
    const hs: Headers
    var freeMemoryHead: int
    var systemMemoryHead: int
    var userMemoryHead: int
    ghost var h: Heap

    ghost predicate Chains(k: Heap)
      reads this`freeMemoryHead, this`systemMemoryHead, this`userMemoryHead, hs.prev, hs.next, hs.size
    {
      && hs.Chain(k.free, freeMemoryHead) && hs.Chain(k.system, systemMemoryHead) && hs.Chain(k.user, userMemoryHead)
    }

    ghost predicate Valid()
      reads this, hs.prev, hs.next, hs.size
    {
      && hs.base % MEM_BLOCK_SIZE == 0 && 0 < hs.base && hs.base + MEM_BLOCK_SIZE * hs.n < TWO64
      && h.n == hs.n && Inv(h) && Chains(h)
    }

    /** The headers stand for no heap at all. */
    ghost predicate Broken()
      reads this`freeMemoryHead, this`systemMemoryHead, this`userMemoryHead, hs.prev, hs.next, hs.size
    {
      forall k: Heap :: !(k.n == hs.n && Inv(k) && Chains(k))
    }

    /** init; the heap has room for at least one block. */
    constructor (heapStart: nat, heapEnd: nat)
      requires 0 < heapStart && AlignUp(heapStart) + MEM_BLOCK_SIZE <= heapEnd < TWO64
      ensures Valid() && hs.base == AlignUp(heapStart) && h == Start((heapEnd - AlignUp(heapStart)) / MEM_BLOCK_SIZE)
      ensures fresh(hs.prev) && fresh(hs.next) && fresh(hs.size)
    {
      var base := AlignUp(heapStart);
      var n := (heapEnd - base) / MEM_BLOCK_SIZE;
      hs := new Headers(base, n);
      freeMemoryHead, systemMemoryHead, userMemoryHead := 0, NULL, NULL;
      h := Start(n);
      new;
      hs.prev[0] := NULL;
      hs.next[0] := NULL;
      hs.size[0] := n;
      StartInv(n);
      assert hs.Node(h.free, 0);
    }

    /** Removes or reduces the free segment at t. */
    method Detach(t: nat, need: nat, ghost i: nat)
      requires Chains(h) && Inv(h) && h.n == hs.n && i < |h.free| && h.free[i].start == t && 0 < need <= h.free[i].size
      modifies this`freeMemoryHead, hs.prev, hs.next, hs.size
      ensures Chains(h.(free := TakeFrom(h.free, i, need))) && t < hs.n && hs.size[t] == need
    {
      TakeApart(h, i, need);
      freeMemoryHead := hs.Take(t, need, freeMemoryHead, h.free, i, h.system, systemMemoryHead, h.user, userMemoryHead);
    }

    /** Puts the segment at t in an owner's list. */
    method Attach(t: nat, who: Owner, ghost k: Heap)
      requires Chains(k) && t < hs.n && Sorted(Owned(k, who), hs.n) && !StartsAt(Owned(k, who), t)
      requires StartsApart(k.free, Owned(k, who), {t}) && StartsApart(OtherOwned(k, who), Owned(k, who), {t})
      modifies this`systemMemoryHead, this`userMemoryHead, hs.prev, hs.next
      ensures Chains(SetOwned(k, who, Insert(Owned(k, who), Seg(t, hs.size[t])))) && hs.size[..] == old(hs.size[..])
    {
      if who.System? {
        systemMemoryHead := hs.Place(t, systemMemoryHead, k.system, k.free, freeMemoryHead, k.user, userMemoryHead);
      } else {
        userMemoryHead := hs.Place(t, userMemoryHead, k.user, k.free, freeMemoryHead, k.system, systemMemoryHead);
      }
    }

    /** memAlloc_ once a free segment is found. */
    method Grant(t: nat, need: nat, who: Owner, ghost i: nat)
      requires Chains(h) && Inv(h) && h.n == hs.n && i < |h.free| && h.free[i].start == t && 0 < need <= h.free[i].size
      modifies this`freeMemoryHead, this`systemMemoryHead, this`userMemoryHead, hs.prev, hs.next, hs.size
      ensures Chains(Granted(h, who, i, need))
    {
      TakenApart(h, who, i, need);
      Detach(t, need, i);
      Attach(t, who, h.(free := TakeFrom(h.free, i, need)));
    }

    method GrantNow(t: nat, need: nat, who: Owner, ghost i: nat)
      requires Valid() && i < |h.free| && h.free[i].start == t && 0 < need <= h.free[i].size
      requires Inv(Granted(h, who, i, need)) && Granted(h, who, i, need).n == h.n
      modifies this`freeMemoryHead, this`systemMemoryHead, this`userMemoryHead, this`h, hs.prev, hs.next, hs.size
      ensures Valid() && h == Granted(old(h), who, i, need)
    {
      Grant(t, need, who, i);
      h := Granted(h, who, i, need);
    }

    method AllocFound(t: nat, nBlocks: nat, who: Owner)
      requires Valid()
      requires FirstFit(h.free, nBlocks + 1) < |h.free| && h.free[FirstFit(h.free, nBlocks + 1)].start == t
      modifies this`freeMemoryHead, this`systemMemoryHead, this`userMemoryHead, this`h, hs.prev, hs.next, hs.size
      ensures Valid() && HeapSpec.Alloc(old(h), who, nBlocks) == (h, Some(t))
    {
      AllocIs(h, who, nBlocks);
      GrantNow(t, nBlocks + 1, who, FirstFit(h.free, nBlocks + 1));
    }

    /** memAlloc_ of 2^64 - 1 blocks looks for no block at all and reduces the first free segment to
        nothing, header included. */
    method GrantNothing(t: nat, who: Owner)
      requires Valid() && h.free != [] && h.free[0].start == t
      modifies this`freeMemoryHead, this`systemMemoryHead, this`userMemoryHead, hs.prev, hs.next, hs.size
      ensures Broken()
    {
      OneListEach(h, who);
      ListsApart(Owned(h, who), h.free, h.n);
      CoveredStart(h.free, h.n, 0);
      NoStartWhere(Owned(h, who), h.n, t);
      var _, head := hs.Reduce(t, 0, freeMemoryHead, h.free, 0);
      freeMemoryHead := head;
      ghost var l := Owned(h, who);
      forall j: nat | j < |l|
        ensures hs.Node(l, j)
      {
        assert old(hs.Node(l, j));
      }
      if who.System? {
        systemMemoryHead := hs.Place(t, systemMemoryHead, l, [], NULL, [], NULL);
      } else {
        userMemoryHead := hs.Place(t, userMemoryHead, l, [], NULL, [], NULL);
      }
      forall k: Heap | Chains(k)
        ensures !(k.n == hs.n && Inv(k))
      {
        if k.free != [] { assert hs.Node(k.free, 0); }
      }
    }

    /** memAlloc_ once the first fit is found. */
    method AllocFrom(t: nat, nBlocks: nat, who: Owner)
      requires Valid() && nBlocks < TWO64 && h.free != [] && FirstFit(h.free, Wrap(nBlocks + 1)) < |h.free|
      requires h.free[FirstFit(h.free, Wrap(nBlocks + 1))].start == t
      modifies this`freeMemoryHead, this`systemMemoryHead, this`userMemoryHead, this`h, hs.prev, hs.next, hs.size
      ensures nBlocks < TWO64 - 1 ==> Valid() && HeapSpec.Alloc(old(h), who, nBlocks) == (h, Some(t))
      ensures nBlocks == TWO64 - 1 ==> Broken()
    {
      if nBlocks == TWO64 - 1 {
        GrantNothing(t, who);
      } else {
        AllocFound(t, nBlocks, who);
      }
    }

    /** memAlloc_; 0 is the null pointer.  The lists break for 2^64 - 1 blocks, when nBlocks + 1 wraps to
        0 and a free segment is there, and only then. */
    method Alloc(nBlocks: nat, who: Owner) returns (p: nat)
      requires Valid() && nBlocks < TWO64
      modifies this`freeMemoryHead, this`systemMemoryHead, this`userMemoryHead, this`h, hs.prev, hs.next, hs.size
      ensures nBlocks < TWO64 - 1 ==>
        && Valid() && h == HeapSpec.Alloc(old(h), who, nBlocks).0
        && p == Pointer(hs, HeapSpec.Alloc(old(h), who, nBlocks).1)
      ensures nBlocks == TWO64 - 1 && old(h.free) == [] ==> Valid() && h == old(h) && p == 0
      ensures nBlocks == TWO64 - 1 && old(h.free) != [] ==> Broken()
    {
      var memSeg := hs.FindBySize(freeMemoryHead, Wrap(nBlocks + 1), h.free);
      if memSeg == NULL {
        if nBlocks < TWO64 - 1 { AllocNone(h, who, nBlocks); }
        return 0;
      }
      AllocFrom(memSeg, nBlocks, who);
      p := hs.Addr(memSeg) + MEM_BLOCK_SIZE;
    }

    function Head(who: Owner): int
      reads this`systemMemoryHead, this`userMemoryHead
    {
      if who.System? then systemMemoryHead else userMemoryHead
    }

    /** memSeg->remove(&head) */
    method Drop(t: nat, who: Owner, ghost i: nat)
      requires Chains(h) && Inv(h) && h.n == hs.n && i < |Owned(h, who)| && Owned(h, who)[i].start == t
      modifies this`systemMemoryHead, this`userMemoryHead, hs.prev, hs.next
      ensures Chains(SetOwned(h, who, Without(Owned(h, who), i))) && hs.size[..] == old(hs.size[..])
    {
      OneListEach(h, who);
      ListsApart(h.free, Owned(h, who), h.n);
      ListsApart(OtherOwned(h, who), Owned(h, who), h.n);
      if who.System? {
        systemMemoryHead := hs.RemoveBeside(t, systemMemoryHead, h.system, i, h.free, freeMemoryHead,
                                            h.user, userMemoryHead);
      } else {
        userMemoryHead := hs.RemoveBeside(t, userMemoryHead, h.user, i, h.free, freeMemoryHead,
                                          h.system, systemMemoryHead);
      }
    }

    /** memFree_ once the segment is found. */
    method TakeBack(t: nat, who: Owner, ghost i: nat)
      requires Chains(h) && Inv(h) && h.n == hs.n && i < |Owned(h, who)| && Owned(h, who)[i].start == t
      modifies this`freeMemoryHead, this`systemMemoryHead, this`userMemoryHead, hs.prev, hs.next, hs.size
      ensures Chains(TakenBack(h, who, i))
    {
      ghost var l, s := Owned(h, who), Owned(h, who)[i];
      HeaderOf(h, who, i);
      ReturnedApart(h, who, i);
      Drop(t, who, i);
      assert hs.size[t] == old(hs.size[..])[t];
      ghost var k := SetOwned(h, who, Without(l, i));
      freeMemoryHead := hs.PutBack(t, freeMemoryHead, h.free, k.system, systemMemoryHead, k.user, userMemoryHead);
    }

    method TakeBackNow(t: nat, who: Owner, ghost i: nat)
      requires Valid() && i < |Owned(h, who)| && Owned(h, who)[i].start == t
      requires Inv(TakenBack(h, who, i)) && TakenBack(h, who, i).n == h.n
      modifies this`freeMemoryHead, this`systemMemoryHead, this`userMemoryHead, this`h, hs.prev, hs.next, hs.size
      ensures Valid() && h == TakenBack(old(h), who, i)
    {
      TakeBack(t, who, i);
      h := TakenBack(h, who, i);
    }

    method FreeFound(t: nat, who: Owner, ghost memAddr: nat, ghost i: nat)
      requires Valid() && i < |Owned(h, who)| && Owned(h, who)[i].start == t && memAddr == hs.Addr(t) + MEM_BLOCK_SIZE
      modifies this`freeMemoryHead, this`systemMemoryHead, this`userMemoryHead, this`h, hs.prev, hs.next, hs.size
      ensures Valid() && Freed(hs, old(h), who, memAddr) == (h, 0)
    {
      FreedIs(hs, h, who, memAddr, i);
      TakeBackNow(t, who, i);
    }

    /** The header of an owned segment holds its size. */
    lemma HeaderOf(k: Heap, who: Owner, i: nat)
      requires Chains(k) && i < |Owned(k, who)|
      ensures Owned(k, who)[i].start < hs.n && hs.size[Owned(k, who)[i].start] == Owned(k, who)[i].size
    {
      assert hs.Node(Owned(k, who), i);
    }

    /** The test of memFree_: does findByPointer find the header in front of memAddr? */
    method FindOwn(memAddr: nat, who: Owner) returns (own: bool, found: int, ghost i: int)
      requires Valid() && 0 < memAddr < TWO64
      ensures own && found == NULL <==> memAddr == MEM_BLOCK_SIZE
      ensures own && found != NULL ==>
        0 <= i < |Owned(h, who)| && Owned(h, who)[i].start == found && memAddr == hs.Addr(found) + MEM_BLOCK_SIZE
      ensures !own ==> Freed(hs, h, who, memAddr) == (h, ERR_MEM_FREE)
    {
      var memSeg := Wrap(memAddr + TWO64 - MEM_BLOCK_SIZE);
      found := hs.FindByPointer(Head(who), memSeg, Owned(h, who));
      i := hs.Below(Owned(h, who), memSeg) - 1;
      own := memSeg == if found == NULL then 0 else hs.Addr(found);
      if memAddr != MEM_BLOCK_SIZE {
        HeaderAddress(hs, memAddr);
        if own { FoundAddress(hs, Owned(h, who), memAddr, i); } else { NotFreed(hs, h, who, memAddr, memSeg); }
      }
    }

    /** memFree_.  Only for address 64 the header pointer is null and is taken for a segment of the list,
        as findByPointer finds null; None: the code goes on to unlink a header at address 0. */
    method Free(memAddr: nat, who: Owner) returns (ret: Option<int>)
      requires Valid() && memAddr < TWO64
      modifies this`freeMemoryHead, this`systemMemoryHead, this`userMemoryHead, this`h, hs.prev, hs.next, hs.size
      ensures Valid()
      ensures ret == None <==> memAddr == MEM_BLOCK_SIZE
      ensures memAddr == MEM_BLOCK_SIZE ==> h == old(h)
      ensures memAddr == 0 ==> ret == Some(0) && h == old(h)
      ensures memAddr != 0 && memAddr != MEM_BLOCK_SIZE ==>
        ret.Some? && (h, ret.value) == Freed(hs, old(h), who, memAddr)
    {
      if memAddr == 0 { return Some(0); }
      var own, found, i := FindOwn(memAddr, who);
      if !own { return Some(ERR_MEM_FREE); }
      if found == NULL { return None; }
      FreeFound(found, who, memAddr, i);
      ret := Some(0);
    }

    // ---- the entry points

    method MemAlloc(nBlocks: nat) returns (p: nat)
      requires Valid() && nBlocks < TWO64
      modifies this`freeMemoryHead, this`systemMemoryHead, this`userMemoryHead, this`h, hs.prev, hs.next, hs.size
      ensures nBlocks < TWO64 - 1 || old(h.free) == [] ==> Valid() && h.system == old(h.system)
      ensures nBlocks < TWO64 - 1 ==>
        h == HeapSpec.Alloc(old(h), User, nBlocks).0 && p == Pointer(hs, HeapSpec.Alloc(old(h), User, nBlocks).1)
      ensures nBlocks == TWO64 - 1 && old(h.free) != [] ==> Broken()
    {
      p := Alloc(nBlocks, User);
    }

    method KMemAlloc(nBlocks: nat) returns (p: nat)
      requires Valid() && nBlocks < TWO64
      modifies this`freeMemoryHead, this`systemMemoryHead, this`userMemoryHead, this`h, hs.prev, hs.next, hs.size
      ensures nBlocks < TWO64 - 1 || old(h.free) == [] ==> Valid() && h.user == old(h.user)
      ensures nBlocks < TWO64 - 1 ==>
        h == HeapSpec.Alloc(old(h), System, nBlocks).0 && p == Pointer(hs, HeapSpec.Alloc(old(h), System, nBlocks).1)
      ensures nBlocks == TWO64 - 1 && old(h.free) != [] ==> Broken()
    {
      p := Alloc(nBlocks, System);
    }

    method MemAllocByte(nBytes: nat) returns (p: nat)
      requires Valid() && nBytes < TWO64
      modifies this`freeMemoryHead, this`systemMemoryHead, this`userMemoryHead, this`h, hs.prev, hs.next, hs.size
      ensures Valid() && h == HeapSpec.Alloc(old(h), User, RoundUp(nBytes)).0
      ensures p == Pointer(hs, HeapSpec.Alloc(old(h), User, RoundUp(nBytes)).1)
    {
      p := MemAlloc(RoundUp(nBytes));
    }

    method KMemAllocByte(nBytes: nat) returns (p: nat)
      requires Valid() && nBytes < TWO64
      modifies this`freeMemoryHead, this`systemMemoryHead, this`userMemoryHead, this`h, hs.prev, hs.next, hs.size
      ensures Valid() && h == HeapSpec.Alloc(old(h), System, RoundUp(nBytes)).0
      ensures p == Pointer(hs, HeapSpec.Alloc(old(h), System, RoundUp(nBytes)).1)
    {
      p := KMemAlloc(RoundUp(nBytes));
    }

    method MemFree(memAddr: nat) returns (ret: Option<int>)
      requires Valid() && memAddr < TWO64
      modifies this`freeMemoryHead, this`systemMemoryHead, this`userMemoryHead, this`h, hs.prev, hs.next, hs.size
      ensures Valid() && h.system == old(h.system)
      ensures ret == None <==> memAddr == MEM_BLOCK_SIZE
      ensures memAddr == 0 ==> ret == Some(0) && h == old(h)
      ensures memAddr != 0 && memAddr != MEM_BLOCK_SIZE ==>
        ret.Some? && (h, ret.value) == Freed(hs, old(h), User, memAddr)
    {
      ret := Free(memAddr, User);
    }

    method KMemFree(memAddr: nat) returns (ret: Option<int>)
      requires Valid() && memAddr < TWO64
      modifies this`freeMemoryHead, this`systemMemoryHead, this`userMemoryHead, this`h, hs.prev, hs.next, hs.size
      ensures Valid() && h.user == old(h.user)
      ensures ret == None <==> memAddr == MEM_BLOCK_SIZE
      ensures memAddr == 0 ==> ret == Some(0) && h == old(h)
      ensures memAddr != 0 && memAddr != MEM_BLOCK_SIZE ==>
        ret.Some? && (h, ret.value) == Freed(hs, old(h), System, memAddr)
    {
      ret := Free(memAddr, System);
    }
  }

  /** The address handed out for a segment: that of the block behind its header. */
  function Pointer(hs: Headers, r: Option<nat>): int {
    match r case None => 0 case Some(s) => hs.Addr(s) + MEM_BLOCK_SIZE
  }

  /** What memFree_ does with a non-null address. */
  function Freed(hs: Headers, h: Heap, who: Owner, memAddr: nat): (Heap, int) {
    var a := memAddr - MEM_BLOCK_SIZE;
    if a >= hs.base && (a - hs.base) % MEM_BLOCK_SIZE == 0 && Release(h, who, (a - hs.base) / MEM_BLOCK_SIZE).1
    then (Release(h, who, (a - hs.base) / MEM_BLOCK_SIZE).0, 0)
    else (h, ERR_MEM_FREE)
  }

  /** ROUNDUP(nBytes, MEM_BLOCK_SIZE), in 64-bit arithmetic. */
  function RoundUp(nBytes: nat): nat {
    Wrap(nBytes + MEM_BLOCK_SIZE - 1) / MEM_BLOCK_SIZE
  }

  /** ROUNDUP is the least number of blocks that hold nBytes exactly when the addition does not wrap. */
  lemma RoundUpExact(nBytes: nat)
    requires nBytes < TWO64
    ensures (MEM_BLOCK_SIZE * RoundUp(nBytes) >= nBytes && MEM_BLOCK_SIZE * (RoundUp(nBytes) - 1) < nBytes)
       <==> nBytes <= TWO64 - MEM_BLOCK_SIZE
  {
    if nBytes > TWO64 - MEM_BLOCK_SIZE {
      assert Wrap(nBytes + MEM_BLOCK_SIZE - 1) == nBytes + MEM_BLOCK_SIZE - 1 - TWO64;
    }
  }

  /** One byte short of 2^64 bytes are rounded up to no block at all. */
  lemma RoundUpWraps()
    ensures RoundUp(TWO64 - 1) == 0
  {
    assert Wrap(TWO64 - 1 + MEM_BLOCK_SIZE - 1) == MEM_BLOCK_SIZE - 2;
  }

  ghost function Granted(h: Heap, who: Owner, i: nat, need: nat): Heap
    requires i < |h.free| && h.free[i].size >= need
  {
    var k := h.(free := TakeFrom(h.free, i, need));
    SetOwned(k, who, Insert(Owned(k, who), Seg(h.free[i].start, need)))
  }

  lemma AllocNone(h: Heap, who: Owner, nBlocks: nat)
    requires FirstFit(h.free, nBlocks + 1) == |h.free|
    ensures HeapSpec.Alloc(h, who, nBlocks) == (h, None)
  {
  }

  lemma AllocIs(h: Heap, who: Owner, nBlocks: nat)
    requires Inv(h) && FirstFit(h.free, nBlocks + 1) < |h.free|
    ensures var i := FirstFit(h.free, nBlocks + 1);
      var k := Granted(h, who, i, nBlocks + 1);
      HeapSpec.Alloc(h, who, nBlocks) == (k, Some(h.free[i].start)) && Inv(k) && k.n == h.n
  {
    AllocKeeps(h, who, nBlocks);
  }

  ghost function TakenBack(h: Heap, who: Owner, i: nat): Heap
    requires i < |Owned(h, who)|
  {
    SetOwned(h, who, Without(Owned(h, who), i)).(free := GiveBack(h.free, Owned(h, who)[i]))
  }

  /** findByPointer finds the very address exactly when a segment of the list starts there. */
  lemma FoundIsStart(hs: Headers, l: seq<Seg>, a: nat)
    requires Sorted(l, hs.n)
    ensures var it := Link(l, hs.Below(l, a) - 1);
      (it != NULL && hs.Addr(it) == a)
      <==> a >= hs.base && (a - hs.base) % MEM_BLOCK_SIZE == 0 && StartsAt(l, (a - hs.base) / MEM_BLOCK_SIZE)
  {
    if a >= hs.base {
      var b := (a - hs.base) / MEM_BLOCK_SIZE;
      var p := Upto(l, b);
      if StartsAt(l, b) {
        var i: nat :| i < |l| && l[i].start == b;
        StartUpto(l, hs.n, i);
      }
    }
  }

  lemma HeaderAddress(hs: Headers, memAddr: nat)
    requires 0 < memAddr < TWO64 && memAddr != MEM_BLOCK_SIZE && hs.base + MEM_BLOCK_SIZE * hs.n < TWO64
    ensures var a := Wrap(memAddr + TWO64 - MEM_BLOCK_SIZE);
      if memAddr >= MEM_BLOCK_SIZE then a == memAddr - MEM_BLOCK_SIZE else a >= TWO64 - MEM_BLOCK_SIZE
  {
  }

  /** Inside the heap, headers do not lie in the last block of the address space. */
  lemma NotFreed(hs: Headers, h: Heap, who: Owner, memAddr: nat, a: nat)
    requires Inv(h) && h.n == hs.n && 0 < memAddr < TWO64 && memAddr != MEM_BLOCK_SIZE
    requires hs.base + MEM_BLOCK_SIZE * hs.n < TWO64 && a == Wrap(memAddr + TWO64 - MEM_BLOCK_SIZE)
    requires var it := Link(Owned(h, who), hs.Below(Owned(h, who), a) - 1);
      it == NULL || hs.Addr(it) != a
    ensures Freed(hs, h, who, memAddr) == (h, ERR_MEM_FREE)
  {
    FoundIsStart(hs, Owned(h, who), a);
    HeaderAddress(hs, memAddr);
    if memAddr >= MEM_BLOCK_SIZE && a >= hs.base { ReleaseExact(h, who, (a - hs.base) / MEM_BLOCK_SIZE); }
  }

  lemma ReleaseAt(h: Heap, who: Owner, i: nat)
    requires Inv(h) && i < |Owned(h, who)|
    ensures Release(h, who, Owned(h, who)[i].start) == (TakenBack(h, who, i), true)
    ensures Inv(TakenBack(h, who, i)) && TakenBack(h, who, i).n == h.n
  {
    IndexOfStart(Owned(h, who), h.n, i);
    ReleaseKeeps(h, who, Owned(h, who)[i].start);
  }

  /** An address whose header is found lies in the heap. */
  lemma FoundAddress(hs: Headers, l: seq<Seg>, memAddr: nat, i: int)
    requires Sorted(l, hs.n) && 0 < memAddr < TWO64 && memAddr != MEM_BLOCK_SIZE
    requires hs.base + MEM_BLOCK_SIZE * hs.n < TWO64
    requires 0 <= i < |l| && hs.Addr(l[i].start) == Wrap(memAddr + TWO64 - MEM_BLOCK_SIZE)
    ensures memAddr == hs.Addr(l[i].start) + MEM_BLOCK_SIZE
  {
    CoveredStart(l, hs.n, i);
    HeaderAddress(hs, memAddr);
  }

  lemma FreedIs(hs: Headers, h: Heap, who: Owner, memAddr: nat, i: int)
    requires Inv(h) && 0 <= i < |Owned(h, who)|
    requires memAddr == hs.Addr(Owned(h, who)[i].start) + MEM_BLOCK_SIZE
    ensures var k := TakenBack(h, who, i);
      Freed(hs, h, who, memAddr) == (k, 0) && Inv(k) && k.n == h.n
  {
    ReleaseAt(h, who, i);
  }

  lemma StartUpto(l: seq<Seg>, n: nat, i: nat)
    requires Sorted(l, n) && i < |l|
    ensures Upto(l, l[i].start) == i + 1
  {
    if i + 1 < |l| { Ends(l, n, i, i + 1); }
    UptoAt(l, n, l[i].start, i + 1);
  }

  lemma ListsApart(m: seq<Seg>, l: seq<Seg>, n: nat)
    requires Sorted(m, n) && Sorted(l, n)
    requires forall b: nat :: !(Covers(m, b) && Covers(l, b))
    ensures StartsApart(m, l, {})
  {
    forall j: nat | j < |m|
      ensures !StartsAt(l, m[j].start)
    {
      CoveredStart(m, n, j);
      NoStartWhere(l, n, m[j].start);
    }
  }

  /** A segment that its owner drops is clear of the free list and of both owners' lists. */
  lemma ReturnedApart(h: Heap, who: Owner, i: nat)
    requires Inv(h) && i < |Owned(h, who)|
    ensures var s := Owned(h, who)[i];
      var k := SetOwned(h, who, Without(Owned(h, who), i));
      && Clear(h.free, s) && !StartsAt(h.free, s.start)
      && StartsApart(k.system, h.free, {s.start}) && StartsApart(k.user, h.free, {s.start})
  {
    var l, s := Owned(h, who), Owned(h, who)[i];
    var r := Without(l, i);
    OneListEach(h, who);
    forall b: nat | In(s, b)
      ensures !Covers(h.free, b)
    {
      assert Covers(l, b);
    }
    CoveredStart(l, h.n, i);
    NoStartWhere(h.free, h.n, s.start);
    WithoutSorted(l, h.n, i);
    forall b: nat
      ensures Covers(r, b) <==> Covers(l, b) && !In(s, b)
    {
      WithoutCovers(l, h.n, i, b);
    }
    CoversApart(r, h.free, h.n, s.start);
    OneListEach(h, if who.System? then User else System);
    CoversApart(OtherOwned(h, who), h.free, h.n, s.start);
  }

  function OtherOwned(h: Heap, who: Owner): seq<Seg> {
    if who.System? then h.user else h.system
  }

  /** ALIGN(addr, MEM_BLOCK_SIZE) */
  function AlignUp(addr: nat): nat {
    (addr + MEM_BLOCK_SIZE - 1) / MEM_BLOCK_SIZE * MEM_BLOCK_SIZE
  }

  /** ALIGN gives the first multiple of the block size that is not below the address. */
  lemma AlignUpExact(addr: nat)
    ensures AlignUp(addr) % MEM_BLOCK_SIZE == 0 && addr <= AlignUp(addr) < addr + MEM_BLOCK_SIZE
  {
  }

  /** Neither the free segment nor the rest of it has the header of an owned segment. */
  lemma TakeApart(h: Heap, i: nat, need: nat)
    requires Inv(h) && i < |h.free| && 0 < need <= h.free[i].size
    ensures var x := if need < h.free[i].size then {h.free[i].start + need} else {};
      StartsApart(h.system, h.free, x) && StartsApart(h.user, h.free, x)
  {
    OwnedApart(h, System, i, need);
    OwnedApart(h, User, i, need);
  }

  lemma OwnedApart(h: Heap, who: Owner, i: nat, need: nat)
    requires Inv(h) && i < |h.free| && 0 < need <= h.free[i].size
    ensures StartsApart(Owned(h, who), h.free, if need < h.free[i].size then {h.free[i].start + need} else {})
  {
    var m := Owned(h, who);
    OneListEach(h, who);
    forall j: nat | j < |m|
      ensures !StartsAt(h.free, m[j].start) && !In(h.free[i], m[j].start)
    {
      CoveredStart(m, h.n, j);
      NoStartWhere(h.free, h.n, m[j].start);
      assert !Covers(h.free, m[j].start);
    }
  }

  lemma CoveredStart(l: seq<Seg>, n: nat, i: nat)
    requires Sorted(l, n) && i < |l|
    ensures Covers(l, l[i].start) && l[i].start < n
  {
    assert In(l[i], l[i].start);
  }

  lemma NoStartWhere(l: seq<Seg>, n: nat, b: nat)
    requires Sorted(l, n) && !Covers(l, b)
    ensures !StartsAt(l, b)
  {
    forall i: nat | i < |l|
      ensures l[i].start != b
    {
      CoveredStart(l, n, i);
    }
  }

  /** No block is in two lists. */
  lemma OneListEach(h: Heap, who: Owner)
    requires Inv(h)
    ensures forall b: nat :: !(Covers(Owned(h, who), b) && Covers(h.free, b))
    ensures forall b: nat :: !(Covers(Owned(h, who), b) && Covers(OtherOwned(h, who), b))
  {
    forall b: nat
      ensures !(Covers(Owned(h, who), b) && Covers(h.free, b))
      ensures !(Covers(Owned(h, who), b) && Covers(OtherOwned(h, who), b))
    {
      if Covers(Owned(h, who), b) {
        CoveredBelow(Owned(h, who), h.n, b);
        assert InOneList(h, b);
      }
    }
  }

  /** Lists without a common block have no common header. */
  lemma CoversApart(m: seq<Seg>, l: seq<Seg>, n: nat, t: nat)
    requires Sorted(m, n) && Sorted(l, n) && !Covers(m, t)
    requires forall b: nat :: !(Covers(m, b) && Covers(l, b))
    ensures StartsApart(m, l, {t})
  {
    forall j: nat | j < |m|
      ensures m[j].start != t && !StartsAt(l, m[j].start)
    {
      CoveredStart(m, n, j);
      NoStartWhere(l, n, m[j].start);
    }
  }

  /** After the segment is taken its header is in no list. */
  lemma TakenApart(h: Heap, who: Owner, i: nat, need: nat)
    requires Inv(h) && i < |h.free| && 0 < need <= h.free[i].size
    ensures var t := h.free[i].start;
      var l := Owned(h, who);
      && !StartsAt(l, t)
      && StartsApart(TakeFrom(h.free, i, need), l, {t})
      && StartsApart(OtherOwned(h, who), l, {t})
  {
    var t, l := h.free[i].start, Owned(h, who);
    var other := if who.System? then User else System;
    OneListEach(h, who);
    OneListEach(h, other);
    CoveredStart(h.free, h.n, i);
    NoStartWhere(l, h.n, t);
    TakeFromKeeps(h.free, h.n, i, need);
    assert In(Seg(t, need), t);
    CoversApart(TakeFrom(h.free, i, need), l, h.n, t);
    CoversApart(OtherOwned(h, who), l, h.n, t);
  }
}
