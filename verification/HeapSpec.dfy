/** The first-fit allocator (src/memoryManager.cpp) as functions on lists of segments.  A segment is
    named by the number of its first block; every block of the heap is in exactly one segment of
    exactly one of the three lists. */
module HeapSpec {
  import opened KernelTypes

  datatype Seg = Seg(start: nat, size: nat)

  function End(s: Seg): nat {
    s.start + s.size
  }

  datatype Owner = System | User

  /** The three lists over a heap of n blocks. */
  datatype Heap = Heap(n: nat, free: seq<Seg>, system: seq<Seg>, user: seq<Seg>)

  function Owned(h: Heap, who: Owner): seq<Seg> {
    if who.System? then h.system else h.user
  }

  function SetOwned(h: Heap, who: Owner, l: seq<Seg>): Heap {
    if who.System? then h.(system := l) else h.(user := l)
  }

  // ---- what the lists look like

  ghost predicate In(s: Seg, b: nat) {
    s.start <= b < End(s)
  }

  ghost predicate Covers(l: seq<Seg>, b: nat) {
    exists i: nat :: i < |l| && In(l[i], b)
  }

  ghost predicate StartsAt(l: seq<Seg>, a: nat) {
    exists i: nat :: i < |l| && l[i].start == a
  }

  /** Segment i ends before segment j starts. */
  ghost predicate Precedes(l: seq<Seg>, i: nat, j: nat)
    requires i < |l| && j < |l|
  {
    End(l[i]) <= l[j].start
  }

  /** Strictly address-sorted, non-empty, disjoint, inside the heap. */
  ghost predicate Sorted(l: seq<Seg>, n: nat) {
    && (forall i: nat :: i < |l| ==> l[i].size > 0 && End(l[i]) <= n)
    && (forall i: nat, j: nat :: i < j < |l| ==> Precedes(l, i, j))
  }

  /** There are blocks between segments i and i + 1. */
  ghost predicate Gap(l: seq<Seg>, i: nat)
    requires i + 1 < |l|
  {
    End(l[i]) < l[i + 1].start
  }

  /** No two neighbours touch. */
  ghost predicate Spaced(l: seq<Seg>) {
    forall i: nat :: i + 1 < |l| ==> Gap(l, i)
  }

  /** Block b is in exactly one of the lists. */
  ghost predicate InOneList(h: Heap, b: nat) {
    && (Covers(h.free, b) || Covers(h.system, b) || Covers(h.user, b))
    && !(Covers(h.free, b) && Covers(h.system, b))
    && !(Covers(h.free, b) && Covers(h.user, b))
    && !(Covers(h.system, b) && Covers(h.user, b))
  }

  ghost predicate Inv(h: Heap) {
    && Sorted(h.free, h.n) && Spaced(h.free) && Sorted(h.system, h.n) && Sorted(h.user, h.n)
    && forall b: nat :: b < h.n ==> InOneList(h, b)
  }

  // ---- the list operations

  function Without(l: seq<Seg>, i: nat): seq<Seg>
    requires i < |l|
  {
    l[..i] + l[i + 1..]
  }

  /** findBySize: the first segment of at least `need` blocks, or |l|. */
  function FirstFit(l: seq<Seg>, need: nat): (i: nat)
    ensures i <= |l|
    ensures i < |l| ==> l[i].size >= need
    ensures forall j: nat :: j < i ==> l[j].size < need
  {
    if l == [] then 0 else if l[0].size >= need then 0 else 1 + FirstFit(l[1..], need)
  }

  /** findByPointer: how many leading segments start no later than a. */
  function Upto(l: seq<Seg>, a: nat): (p: nat)
    ensures p <= |l|
    ensures forall j: nat :: j < p ==> l[j].start <= a
    ensures p < |l| ==> l[p].start > a
  {
    if l == [] || l[0].start > a then 0 else 1 + Upto(l[1..], a)
  }

  /** findByPointer, then insertAfter or insertAsHead. */
  function Insert(l: seq<Seg>, s: Seg): seq<Seg> {
    var p := Upto(l, s.start);
    l[..p] + [s] + l[p..]
  }

  /** merge on segment i: swallow the following segments as long as they touch. */
  function MergeAt(l: seq<Seg>, i: nat): seq<Seg>
    requires i < |l|
    decreases |l|
  {
    if i + 1 < |l| && End(l[i]) == l[i + 1].start
    then MergeAt(l[..i] + [Seg(l[i].start, l[i].size + l[i + 1].size)] + l[i + 2..], i)
    else l
  }

  /** remove, or reduce when the segment is larger than needed. */
  function TakeFrom(l: seq<Seg>, i: nat, need: nat): seq<Seg>
    requires i < |l| && l[i].size >= need
  {
    if l[i].size == need then Without(l, i)
    else l[i := Seg(l[i].start + need, l[i].size - need)]
  }

  /** A segment comes back to the free list: insert, merge with what follows, merge what precedes. */
  function GiveBack(l: seq<Seg>, s: Seg): seq<Seg> {
    var p := Upto(l, s.start);
    var l1 := MergeAt(Insert(l, s), p);
    if p > 0 && p - 1 < |l1| then MergeAt(l1, p - 1) else l1
  }

  // ---- memAlloc_ and memFree_

  /** The first block of the segment, or None when no free segment is large enough. */
  function Alloc(h: Heap, who: Owner, nBlocks: nat): (Heap, Option<nat>) {
    var i := FirstFit(h.free, nBlocks + 1);
    if i == |h.free| then (h, None)
    else
      var s := h.free[i].start;
      (SetOwned(h.(free := TakeFrom(h.free, i, nBlocks + 1)), who, Insert(Owned(h, who), Seg(s, nBlocks + 1))), Some(s))
  }

  /** The position of the segment that starts at block a, or |l|. */
  function IndexOf(l: seq<Seg>, a: nat): (i: nat)
    ensures i <= |l|
    ensures i < |l| ==> l[i].start == a
    ensures forall j: nat :: j < i ==> l[j].start != a
  {
    if l == [] then 0 else if l[0].start == a then 0 else 1 + IndexOf(l[1..], a)
  }

  /** False (ERR_MEM_FREE): the list has no segment that starts at block a. */
  function Release(h: Heap, who: Owner, a: nat): (Heap, bool) {
    var i := IndexOf(Owned(h, who), a);
    if i == |Owned(h, who)| then (h, false)
    else
      var s := Owned(h, who)[i];
      (SetOwned(h, who, Without(Owned(h, who), i)).(free := GiveBack(h.free, s)), true)
  }

  function Start(n: nat): Heap {
    Heap(n, [Seg(0, n)], [], [])
  }

  datatype Request = Get(who: Owner, nBlocks: nat) | Put(who: Owner, a: nat)

  function Apply(h: Heap, r: Request): Heap {
    match r
    case Get(who, nBlocks) => Alloc(h, who, nBlocks).0
    case Put(who, a) => Release(h, who, a).0
  }

  function After(h: Heap, rs: seq<Request>): Heap {
    if rs == [] then h else Apply(After(h, rs[..|rs| - 1]), rs[|rs| - 1])
  }
}
