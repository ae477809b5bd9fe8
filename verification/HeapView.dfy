/** The allocator as its callers see it: addresses and byte ranges.  A run is any sequence of memAlloc and
    memFree calls of both owners; the loans are recorded from the calls and their answers alone. */
module HeapView {
  import opened KernelTypes
  import opened HeapSpec
  import opened HeapLists
  import opened HeapTheorems
  import opened MemoryManager

  /** The bytes first .. first + bytes - 1, handed out and not yet freed. */
  datatype Loan = Loan(who: Owner, first: nat, bytes: nat)

  datatype MemCall = Ask(who: Owner, nBlocks: nat) | GiveUp(who: Owner, memAddr: nat)

  datatype View = View(h: Heap, loans: set<Loan>)

  /** All calls but the two kinds that break the lists. */
  predicate Sane(c: MemCall) {
    match c
    case Ask(_, nBlocks) => nBlocks < TWO64 - 1
    case GiveUp(_, memAddr) => memAddr < TWO64 && memAddr != MEM_BLOCK_SIZE
  }

  /** memAlloc_ and memFree_: what becomes of the heap, and the answer. */
  function Answer(hs: Headers, h: Heap, c: MemCall): (Heap, int) {
    match c
    case Ask(who, nBlocks) =>
      var (h', r) := HeapSpec.Alloc(h, who, nBlocks);
      (h', Pointer(hs, r))
    case GiveUp(who, memAddr) => if memAddr == 0 then (h, 0) else Freed(hs, h, who, memAddr)
  }

  /** The loans after a call with the given answer. */
  function Noted(loans: set<Loan>, c: MemCall, answer: int): set<Loan> {
    match c
    case Ask(who, nBlocks) => if answer <= 0 then loans else loans + {Loan(who, answer, MEM_BLOCK_SIZE * nBlocks)}
    case GiveUp(who, memAddr) =>
      if memAddr == 0 || answer != 0 then loans else set x | x in loans && !(x.who == who && x.first == memAddr)
  }

  function Take(hs: Headers, v: View, c: MemCall): View {
    var (h, answer) := Answer(hs, v.h, c);
    View(h, Noted(v.loans, c, answer))
  }

  function Taken(hs: Headers, cs: seq<MemCall>): View {
    if cs == [] then View(HeapSpec.Start(hs.n), {}) else Take(hs, Taken(hs, cs[..|cs| - 1]), cs[|cs| - 1])
  }

  // ---- loans are the owned segments without their first blocks

  function LoanOf(hs: Headers, who: Owner, s: Seg): Loan {
    Loan(who, hs.Addr(s.start) + MEM_BLOCK_SIZE, if s.size == 0 then 0 else MEM_BLOCK_SIZE * (s.size - 1))
  }

  ghost predicate Backed(hs: Headers, h: Heap, x: Loan) {
    exists i: nat :: i < |Owned(h, x.who)| && x == LoanOf(hs, x.who, Owned(h, x.who)[i])
  }

  ghost predicate Exact(hs: Headers, v: View) {
    && Inv(v.h) && v.h.n == hs.n
    && forall x: Loan :: x in v.loans <==> Backed(hs, v.h, x)
  }

  lemma BackedBy(hs: Headers, h: Heap, who: Owner, i: nat)
    requires i < |Owned(h, who)|
    ensures Backed(hs, h, LoanOf(hs, who, Owned(h, who)[i]))
  {
    assert Owned(h, who)[i] == Owned(h, who)[i];
  }

  /** Segments that are in one list are in the other. */
  lemma BackedThere(hs: Headers, h: Heap, h': Heap, x: Loan)
    requires Backed(hs, h, x)
    requires forall i: nat :: i < |Owned(h, x.who)| && x == LoanOf(hs, x.who, Owned(h, x.who)[i]) ==>
      Owned(h, x.who)[i] in Owned(h', x.who)
    ensures Backed(hs, h', x)
  {
    var i: nat :| i < |Owned(h, x.who)| && x == LoanOf(hs, x.who, Owned(h, x.who)[i]);
    var j: nat :| j < |Owned(h', x.who)| && Owned(h', x.who)[j] == Owned(h, x.who)[i];
    BackedBy(hs, h', x.who, j);
  }

  lemma InInsert(l: seq<Seg>, s: Seg)
    ensures s in Insert(l, s)
    ensures forall t :: t in Insert(l, s) <==> t in l || t == s
  {
    var p := Upto(l, s.start);
    assert l == l[..p] + l[p..];
  }

  lemma InWithout(l: seq<Seg>, n: nat, i: nat)
    requires Sorted(l, n) && i < |l|
    ensures forall t :: t in Without(l, i) <==> t in l && t.start != l[i].start
  {
    var r := Without(l, i);
    forall j: nat | j < |r|
      ensures r[j] in l && r[j].start != l[i].start
    {
      assert r[j] == l[if j < i then j else j + 1];
      if j < i { Ends(l, n, j, i); } else { Ends(l, n, i, j + 1); }
    }
    forall j: nat | j < |l| && j != i
      ensures l[j] in r
    {
      assert r[if j < i then j else j - 1] == l[j];
    }
  }

  /** The loans when a segment is added to its owner's list. */
  lemma LoansInsert(hs: Headers, h: Heap, h': Heap, who: Owner, s: Seg, x: Loan)
    requires forall u: Owner :: Owned(h', u) == if u == who then Insert(Owned(h, u), s) else Owned(h, u)
    ensures Backed(hs, h', x) <==> Backed(hs, h, x) || x == LoanOf(hs, who, s)
  {
    InInsert(Owned(h, who), s);
    if Backed(hs, h, x) { BackedThere(hs, h, h', x); }
    if x == LoanOf(hs, who, s) {
      var j: nat :| j < |Owned(h', who)| && Owned(h', who)[j] == s;
      BackedBy(hs, h', who, j);
    }
    if Backed(hs, h', x) && x != LoanOf(hs, who, s) { BackedThere(hs, h', h, x); }
  }

  /** h' is h without segment i of who's list, apart from the free list. */
  ghost predicate Dropped(h: Heap, h': Heap, who: Owner, i: nat) {
    && Inv(h) && i < |Owned(h, who)|
    && forall u: Owner :: Owned(h', u) == if u == who then Without(Owned(h, u), i) else Owned(h, u)
  }

  lemma LoansStay(hs: Headers, h: Heap, h': Heap, who: Owner, i: nat, x: Loan)
    requires Dropped(h, h', who, i) && Backed(hs, h, x)
    requires !(x.who == who && x.first == LoanOf(hs, who, Owned(h, who)[i]).first)
    ensures Backed(hs, h', x)
  {
    InWithout(Owned(h, who), h.n, i);
    BackedThere(hs, h, h', x);
  }

  /** The loans when segment i leaves its owner's list. */
  lemma LoansDrop(hs: Headers, h: Heap, h': Heap, who: Owner, i: nat, x: Loan)
    requires Dropped(h, h', who, i)
    ensures Backed(hs, h', x)
       <==> Backed(hs, h, x) && !(x.who == who && x.first == LoanOf(hs, who, Owned(h, who)[i]).first)
  {
    if Backed(hs, h', x) {
      InWithout(Owned(h, who), h.n, i);
      BackedThere(hs, h', h, x);
      var j: nat :| j < |Owned(h', x.who)| && x == LoanOf(hs, x.who, Owned(h', x.who)[j]);
      assert Owned(h', x.who)[j] in Owned(h', x.who);
    } else if Backed(hs, h, x) && !(x.who == who && x.first == LoanOf(hs, who, Owned(h, who)[i]).first) {
      LoansStay(hs, h, h', who, i, x);
    }
  }

  // ---- every call keeps the loans exact

  lemma AllocLists(h: Heap, who: Owner, nBlocks: nat)
    requires HeapSpec.Alloc(h, who, nBlocks).1.Some?
    ensures var (h', r) := HeapSpec.Alloc(h, who, nBlocks);
      forall u: Owner ::
        Owned(h', u) == if u == who then Insert(Owned(h, u), Seg(r.value, nBlocks + 1)) else Owned(h, u)
  {
  }

  lemma AskExact(hs: Headers, v: View, who: Owner, nBlocks: nat)
    requires Exact(hs, v)
    ensures Exact(hs, Take(hs, v, Ask(who, nBlocks)))
  {
    AllocKeeps(v.h, who, nBlocks);
    var r := HeapSpec.Alloc(v.h, who, nBlocks).1;
    if r.Some? { AskBacked(hs, v.h, who, nBlocks); }
  }

  lemma AskBacked(hs: Headers, h: Heap, who: Owner, nBlocks: nat)
    requires HeapSpec.Alloc(h, who, nBlocks).1.Some?
    ensures var (h', r) := HeapSpec.Alloc(h, who, nBlocks);
      forall x: Loan ::
        Backed(hs, h', x) <==> Backed(hs, h, x) || x == Loan(who, Pointer(hs, r), MEM_BLOCK_SIZE * nBlocks)
  {
    AllocLists(h, who, nBlocks);
    var (h', r) := HeapSpec.Alloc(h, who, nBlocks);
    forall x: Loan
      ensures Backed(hs, h', x) <==> Backed(hs, h, x) || x == LoanOf(hs, who, Seg(r.value, nBlocks + 1))
    {
      LoansInsert(hs, h, h', who, Seg(r.value, nBlocks + 1), x);
    }
  }

  lemma FreedAt(hs: Headers, h: Heap, who: Owner, memAddr: nat) returns (i: nat)
    requires Inv(h) && memAddr != 0 && Freed(hs, h, who, memAddr).1 == 0
    ensures i < |Owned(h, who)| && memAddr == LoanOf(hs, who, Owned(h, who)[i]).first
    ensures forall u: Owner ::
      Owned(Freed(hs, h, who, memAddr).0, u) == if u == who then Without(Owned(h, u), i) else Owned(h, u)
  {
    var b := (memAddr - MEM_BLOCK_SIZE - hs.base) / MEM_BLOCK_SIZE;
    i := IndexOf(Owned(h, who), b);
    assert hs.Addr(b) == memAddr - MEM_BLOCK_SIZE;
  }

  lemma GiveUpExact(hs: Headers, v: View, who: Owner, memAddr: nat)
    requires Exact(hs, v)
    ensures Exact(hs, Take(hs, v, GiveUp(who, memAddr)))
  {
    var (h', ret) := Answer(hs, v.h, GiveUp(who, memAddr));
    var v' := Take(hs, v, GiveUp(who, memAddr));
    if memAddr != 0 && ret == 0 {
      ReleaseKeeps(v.h, who, (memAddr - MEM_BLOCK_SIZE - hs.base) / MEM_BLOCK_SIZE);
      var i := FreedAt(hs, v.h, who, memAddr);
      forall x: Loan
        ensures x in v'.loans <==> Backed(hs, v'.h, x)
      {
        LoansDrop(hs, v.h, h', who, i, x);
      }
    }
  }

  lemma {:induction false} TakenExact(hs: Headers, cs: seq<MemCall>)
    requires hs.n > 0
    ensures Exact(hs, Taken(hs, cs))
    decreases |cs|
  {
    if cs == [] {
      StartInv(hs.n);
    } else {
      TakenExact(hs, cs[..|cs| - 1]);
      match cs[|cs| - 1]
      case Ask(who, nBlocks) => AskExact(hs, Taken(hs, cs[..|cs| - 1]), who, nBlocks);
      case GiveUp(who, memAddr) => GiveUpExact(hs, Taken(hs, cs[..|cs| - 1]), who, memAddr);
    }
  }

  // ---- the theorems

  /** Segment s is in one of the three lists. */
  ghost predicate Listed(h: Heap, s: Seg) {
    s in h.free || s in h.system || s in h.user
  }

  ghost predicate SegsClear(s: Seg, t: Seg) {
    End(s) <= t.start || End(t) <= s.start
  }

  lemma SameListClear(l: seq<Seg>, n: nat, s: Seg, t: Seg)
    requires Sorted(l, n) && s in l && t in l && s != t
    ensures SegsClear(s, t)
  {
    var i: nat :| i < |l| && l[i] == s;
    var j: nat :| j < |l| && l[j] == t;
    if i < j { Ends(l, n, i, j); } else { Ends(l, n, j, i); }
  }

  lemma OtherListClear(l: seq<Seg>, m: seq<Seg>, n: nat, s: Seg, t: Seg)
    requires Sorted(l, n) && Sorted(m, n) && s in l && t in m
    requires forall b: nat :: !(Covers(l, b) && Covers(m, b))
    ensures SegsClear(s, t)
  {
    if !SegsClear(s, t) {
      var b := if s.start < t.start then t.start else s.start;
      var i: nat :| i < |l| && l[i] == s;
      var j: nat :| j < |m| && m[j] == t;
      assert In(l[i], b) && In(m[j], b);
      assert Covers(l, b) && Covers(m, b);
    }
  }

  lemma OwnedClear(h: Heap, who: Owner, s: Seg, t: Seg)
    requires Inv(h) && s in Owned(h, who) && (t in OtherOwned(h, who) || t in h.free)
    ensures SegsClear(s, t)
  {
    OneListEach(h, who);
    if t in h.free {
      OtherListClear(Owned(h, who), h.free, h.n, s, t);
    } else {
      OtherListClear(Owned(h, who), OtherOwned(h, who), h.n, s, t);
    }
  }

  /** No two segments of the heap share a block. */
  lemma ListedClear(h: Heap, s: Seg, t: Seg)
    requires Inv(h) && Listed(h, s) && Listed(h, t) && s != t
    ensures SegsClear(s, t)
  {
    var l := if s in h.free then h.free else if s in h.system then h.system else h.user;
    if t in l {
      SameListClear(l, h.n, s, t);
    } else if s !in h.free {
      OwnedClear(h, if s in h.system then System else User, s, t);
    } else {
      OwnedClear(h, if t in h.system then System else User, t, s);
    }
  }

  /** The segment behind a loan. */
  lemma SegmentOf(hs: Headers, h: Heap, x: Loan) returns (s: Seg)
    requires Inv(h) && h.n == hs.n && Backed(hs, h, x)
    ensures s in Owned(h, x.who) && Listed(h, s) && s.size > 0 && End(s) <= hs.n && x == LoanOf(hs, x.who, s)
  {
    var i: nat :| i < |Owned(h, x.who)| && x == LoanOf(hs, x.who, Owned(h, x.who)[i]);
    s := Owned(h, x.who)[i];
  }

  lemma Aligned(a: nat, k: nat)
    requires a % MEM_BLOCK_SIZE == 0
    ensures (a + MEM_BLOCK_SIZE * k) % MEM_BLOCK_SIZE == 0 && MEM_BLOCK_SIZE * k / MEM_BLOCK_SIZE == k
  {
  }

  lemma BytesOf(base: nat, start: nat, blocks: nat, n: nat)
    requires base % MEM_BLOCK_SIZE == 0 && start + blocks < n
    ensures var first, bytes := base + MEM_BLOCK_SIZE * start + MEM_BLOCK_SIZE, MEM_BLOCK_SIZE * blocks;
      && first % MEM_BLOCK_SIZE == 0 && bytes % MEM_BLOCK_SIZE == 0
      && base + MEM_BLOCK_SIZE <= first && first + bytes <= base + MEM_BLOCK_SIZE * n
  {
    Aligned(base, start + 1);
    Aligned(0, blocks);
    assert base + MEM_BLOCK_SIZE * start + MEM_BLOCK_SIZE == base + MEM_BLOCK_SIZE * (start + 1);
  }

  /** Whole, aligned blocks inside the heap, not the first of it. */
  ghost predicate InHeap(hs: Headers, x: Loan) {
    && x.first % MEM_BLOCK_SIZE == 0 && x.bytes % MEM_BLOCK_SIZE == 0
    && hs.base + MEM_BLOCK_SIZE <= x.first && x.first + x.bytes <= hs.base + MEM_BLOCK_SIZE * hs.n
  }

  lemma BackedInHeap(hs: Headers, h: Heap, x: Loan)
    requires Inv(h) && h.n == hs.n && hs.base % MEM_BLOCK_SIZE == 0 && Backed(hs, h, x)
    ensures InHeap(hs, x)
  {
    var s := SegmentOf(hs, h, x);
    BytesOf(hs.base, s.start, s.size - 1, hs.n);
  }

  /** Every loan is a range of whole, aligned blocks inside the heap, behind its first block. */
  lemma LoanInHeap(hs: Headers, cs: seq<MemCall>, x: Loan)
    requires hs.n > 0 && hs.base % MEM_BLOCK_SIZE == 0 && x in Taken(hs, cs).loans
    ensures InHeap(hs, x)
  {
    TakenExact(hs, cs);
    BackedInHeap(hs, Taken(hs, cs).h, x);
  }

  /** Over every run no two loans, of whichever owners, share a byte; there is a header between them. */
  lemma LoansDisjoint(hs: Headers, cs: seq<MemCall>, x: Loan, y: Loan)
    requires hs.n > 0 && x in Taken(hs, cs).loans && y in Taken(hs, cs).loans && x != y
    ensures x.first + x.bytes + MEM_BLOCK_SIZE <= y.first || y.first + y.bytes + MEM_BLOCK_SIZE <= x.first
  {
    TakenExact(hs, cs);
    var h := Taken(hs, cs).h;
    var s := SegmentOf(hs, h, x);
    var t := SegmentOf(hs, h, y);
    if x.who == y.who {
      ListedClear(h, s, t);
    } else {
      OwnedClear(h, x.who, s, t);
    }
  }

  /** No header of a segment, free or owned, lies in a loan. */
  lemma LoansHoldNoHeader(hs: Headers, cs: seq<MemCall>, x: Loan, t: Seg)
    requires hs.n > 0 && x in Taken(hs, cs).loans && Listed(Taken(hs, cs).h, t)
    ensures hs.Addr(t.start) + MEM_BLOCK_SIZE <= x.first || x.first + x.bytes <= hs.Addr(t.start)
  {
    TakenExact(hs, cs);
    var h := Taken(hs, cs).h;
    var s := SegmentOf(hs, h, x);
    if s != t { ListedClear(h, s, t); }
  }

  /** A free succeeds exactly for the first byte of a loan of the same owner. */
  lemma FreesExactlyLoans(hs: Headers, cs: seq<MemCall>, who: Owner, memAddr: nat)
    requires hs.n > 0 && memAddr != 0
    ensures Answer(hs, Taken(hs, cs).h, GiveUp(who, memAddr)).1 == 0
       <==> exists x :: x in Taken(hs, cs).loans && x.who == who && x.first == memAddr
  {
    TakenExact(hs, cs);
    FreesExactly(hs, Taken(hs, cs), who, memAddr);
  }

  lemma FreesExactly(hs: Headers, v: View, who: Owner, memAddr: nat)
    requires Exact(hs, v) && memAddr != 0
    ensures Freed(hs, v.h, who, memAddr).1 == 0 <==> exists x :: x in v.loans && x.who == who && x.first == memAddr
  {
    if Freed(hs, v.h, who, memAddr).1 == 0 {
      var i := FreedAt(hs, v.h, who, memAddr);
      BackedBy(hs, v.h, who, i);
      assert LoanOf(hs, who, Owned(v.h, who)[i]) in v.loans;
    }
    if x :| x in v.loans && x.who == who && x.first == memAddr {
      BackedFrees(hs, v.h, x);
    }
  }

  lemma BackedFrees(hs: Headers, h: Heap, x: Loan)
    requires Inv(h) && h.n == hs.n && Backed(hs, h, x)
    ensures x.first != 0 && Freed(hs, h, x.who, x.first).1 == 0
  {
    var s := SegmentOf(hs, h, x);
    var l := Owned(h, x.who);
    var i: nat :| i < |l| && l[i] == s;
    assert IndexOf(l, s.start) < |l|;
    Aligned(0, s.start);
    assert x.first - MEM_BLOCK_SIZE - hs.base == MEM_BLOCK_SIZE * s.start;
  }

  /** Null exactly when no nBlocks + 1 contiguous blocks are free, and otherwise the address behind the
      first block of the lowest such place. */
  ghost predicate LowestPlace(hs: Headers, h: Heap, nBlocks: nat, answer: int) {
    var need := nBlocks + 1;
    && (answer == 0 <==> forall s: nat :: !FreeRun(h, s, need))
    && (answer != 0 ==> exists s: nat :: answer == hs.Addr(s) + 64 && FreeRun(h, s, need)
                          && forall b: nat :: b < s ==> !FreeRun(h, b, need))
  }

  lemma AskAnswer(hs: Headers, h: Heap, who: Owner, nBlocks: nat)
    requires Inv(h)
    ensures LowestPlace(hs, h, nBlocks, Answer(hs, h, Ask(who, nBlocks)).1)
  {
    AllocComplete(h, who, nBlocks);
  }

  lemma AsksExact(hs: Headers, cs: seq<MemCall>, who: Owner, nBlocks: nat)
    requires hs.n > 0
    ensures LowestPlace(hs, Taken(hs, cs).h, nBlocks, Answer(hs, Taken(hs, cs).h, Ask(who, nBlocks)).1)
  {
    TakenExact(hs, cs);
    AskAnswer(hs, Taken(hs, cs).h, who, nBlocks);
  }

  /** A free is answered with 0 or the error, and the error changes nothing. */
  lemma FreeAnswers(hs: Headers, h: Heap, who: Owner, memAddr: nat)
    ensures var (h', answer) := Answer(hs, h, GiveUp(who, memAddr));
      answer == 0 || (answer == ERR_MEM_FREE && h' == h)
  {
  }

  // ---- on headers

  ghost predicate AllSane(cs: seq<MemCall>) {
    forall i :: 0 <= i < |cs| ==> Sane(cs[i])
  }

  method Perform(mm: MemoryManager, c: MemCall) returns (answer: int)
    requires mm.Valid() && Sane(c)
    modifies mm`freeMemoryHead, mm`systemMemoryHead, mm`userMemoryHead, mm`h, mm.hs.prev, mm.hs.next, mm.hs.size
    ensures mm.Valid() && (mm.h, answer) == Answer(mm.hs, old(mm.h), c)
  {
    match c
    case Ask(who, nBlocks) => answer := mm.Alloc(nBlocks, who);
    case GiveUp(who, memAddr) =>
      var ret := mm.Free(memAddr, who);
      answer := ret.value;
  }

  lemma TakenNext(hs: Headers, cs: seq<MemCall>, i: nat)
    requires i < |cs|
    ensures Taken(hs, cs[..i + 1]).h == Answer(hs, Taken(hs, cs[..i]).h, cs[i]).0
  {
    assert cs[..i + 1][..i] == cs[..i];
  }

  /** A run on headers from a fresh heap gives the answers, and ends in the heap, that Taken is about. */
  method PerformAll(mm: MemoryManager, cs: seq<MemCall>) returns (answers: seq<int>)
    requires mm.Valid() && mm.h == HeapSpec.Start(mm.hs.n) && AllSane(cs)
    modifies mm`freeMemoryHead, mm`systemMemoryHead, mm`userMemoryHead, mm`h, mm.hs.prev, mm.hs.next, mm.hs.size
    ensures mm.Valid() && mm.h == Taken(mm.hs, cs).h && |answers| == |cs|
    ensures forall i: nat :: i < |cs| ==> answers[i] == Answer(mm.hs, Taken(mm.hs, cs[..i]).h, cs[i]).1
  {
    answers := [];
    for i := 0 to |cs|
      invariant mm.Valid() && mm.h == Taken(mm.hs, cs[..i]).h && |answers| == i
      invariant forall j: nat :: j < i ==> answers[j] == Answer(mm.hs, Taken(mm.hs, cs[..j]).h, cs[j]).1
    {
      var answer := Perform(mm, cs[i]);
      answers := answers + [answer];
      TakenNext(mm.hs, cs, i);
    }
    assert cs[..|cs|] == cs;
  }
}
