/** The allocator's promises, for every heap that any sequence of requests can lead to. */
module HeapTheorems {
  import opened KernelTypes
  import opened HeapSpec
  import opened HeapLists

  // ---- every request keeps the heap in order

  lemma TakeFromKeeps(l: seq<Seg>, n: nat, i: nat, need: nat)
    requires Sorted(l, n) && Spaced(l) && i < |l| && 0 < need <= l[i].size
    ensures Sorted(TakeFrom(l, i, need), n) && Spaced(TakeFrom(l, i, need))
    ensures forall b: nat :: Covers(TakeFrom(l, i, need), b) <==> Covers(l, b) && !In(Seg(l[i].start, need), b)
    ensures forall b: nat :: In(Seg(l[i].start, need), b) ==> Covers(l, b)
  {
    if l[i].size == need { WithoutSorted(l, n, i); } else { CutSorted(l, n, i, need); }
    forall b: nat
      ensures Covers(TakeFrom(l, i, need), b) <==> Covers(l, b) && !In(Seg(l[i].start, need), b)
    {
      if l[i].size == need { WithoutCovers(l, n, i, b); } else { CutCovers(l, n, i, need, b); }
    }
    forall b: nat | In(Seg(l[i].start, need), b)
      ensures Covers(l, b)
    {
      assert In(l[i], b);
    }
  }

  lemma InsertKeeps(l: seq<Seg>, n: nat, s: Seg)
    requires Sorted(l, n) && s.size > 0 && End(s) <= n && Clear(l, s)
    ensures Sorted(Insert(l, s), n)
    ensures forall b: nat :: Covers(Insert(l, s), b) <==> Covers(l, b) || In(s, b)
  {
    InsertSorted(l, n, s);
    forall b: nat
      ensures Covers(Insert(l, s), b) <==> Covers(l, b) || In(s, b)
    {
      InsertCovers(l, s, b);
    }
  }

  lemma CoveredBelow(l: seq<Seg>, n: nat, b: nat)
    requires Sorted(l, n) && Covers(l, b)
    ensures b < n
  {
  }

  lemma FreeIsNotOwned(h: Heap, who: Owner, s: Seg)
    requires Inv(h) && forall b: nat :: In(s, b) ==> Covers(h.free, b)
    ensures Clear(Owned(h, who), s)
  {
    forall b: nat | In(s, b)
      ensures !Covers(Owned(h, who), b)
    {
      CoveredBelow(h.free, h.n, b);
      assert InOneList(h, b);
    }
  }

  lemma AllocKeeps(h: Heap, who: Owner, nBlocks: nat)
    requires Inv(h)
    ensures Inv(Alloc(h, who, nBlocks).0)
  {
    var i := FirstFit(h.free, nBlocks + 1);
    if i < |h.free| {
      var s := Seg(h.free[i].start, nBlocks + 1);
      TakeFromKeeps(h.free, h.n, i, nBlocks + 1);
      FreeIsNotOwned(h, who, s);
      InsertKeeps(Owned(h, who), h.n, s);
      BlocksMove(h, Alloc(h, who, nBlocks).0, who, s);
    }
  }

  /** When blocks go from the free list to an owner's list, each is still in exactly one list. */
  lemma BlocksMove(h: Heap, h': Heap, who: Owner, s: Seg)
    requires Inv(h) && h'.n == h.n
    requires if who.System? then h'.user == h.user else h'.system == h.system
    requires forall b: nat :: Covers(h'.free, b) <==> Covers(h.free, b) && !In(s, b)
    requires forall b: nat :: Covers(Owned(h', who), b) <==> Covers(Owned(h, who), b) || In(s, b)
    requires forall b: nat :: In(s, b) ==> Covers(h.free, b)
    ensures forall b: nat :: b < h.n ==> InOneList(h', b)
  {
    forall b: nat | b < h.n
      ensures InOneList(h', b)
    {
      assert InOneList(h, b);
    }
  }

  lemma ReleaseKeeps(h: Heap, who: Owner, a: nat)
    requires Inv(h)
    ensures Inv(Release(h, who, a).0)
  {
    var l := Owned(h, who);
    var i := IndexOf(l, a);
    if i < |l| {
      var s := l[i];
      WithoutSorted(l, h.n, i);
      forall b: nat | In(s, b)
        ensures !Covers(h.free, b)
      {
        assert Covers(l, b);
        assert InOneList(h, b);
      }
      GiveBackKeeps(h.free, h.n, s);
      var h' := Release(h, who, a).0;
      forall b: nat | b < h.n
        ensures InOneList(h', b)
      {
        assert InOneList(h, b);
        WithoutCovers(l, h.n, i, b);
        if In(s, b) { assert Covers(l, b); }
      }
    }
  }

  lemma StartInv(n: nat)
    requires n > 0
    ensures Inv(Start(n))
  {
    var h := Start(n);
    forall b: nat | b < n
      ensures InOneList(h, b)
    {
      assert In(h.free[0], b);
    }
  }

  /** Over every sequence of requests the three lists stay sorted, tile the heap exactly, and no two
      free segments touch. */
  lemma {:induction false} RunKeeps(n: nat, rs: seq<Request>)
    requires n > 0
    ensures Inv(After(Start(n), rs)) && After(Start(n), rs).n == n
    decreases |rs|
  {
    if rs == [] {
      StartInv(n);
    } else {
      var h := After(Start(n), rs[..|rs| - 1]);
      RunKeeps(n, rs[..|rs| - 1]);
      match rs[|rs| - 1]
      case Get(who, nBlocks) => AllocKeeps(h, who, nBlocks);
      case Put(who, a) => ReleaseKeeps(h, who, a);
    }
  }

  // ---- allocation is complete and takes the lowest place

  /** The blocks s .. s + len - 1 exist and nobody owns them. */
  ghost predicate FreeRun(h: Heap, s: nat, len: nat) {
    s + len <= h.n && forall b: nat :: s <= b < s + len ==> !Covers(h.system, b) && !Covers(h.user, b)
  }

  lemma RunOfFree(h: Heap, s: nat, len: nat) returns (i: nat)
    requires Inv(h) && len > 0 && FreeRun(h, s, len)
    ensures i < |h.free| && h.free[i].start <= s && s + len <= End(h.free[i])
  {
    forall b: nat | s <= b < s + len
      ensures Covers(h.free, b)
    {
      assert InOneList(h, b);
    }
    i := RunInOne(h.free, h.n, s, len);
  }

  lemma FreeSegmentIsRun(h: Heap, i: nat, len: nat)
    requires Inv(h) && i < |h.free| && len <= h.free[i].size
    ensures FreeRun(h, h.free[i].start, len)
  {
    var s := h.free[i].start;
    forall b: nat | s <= b < s + len
      ensures !Covers(h.system, b) && !Covers(h.user, b)
    {
      assert In(h.free[i], b);
      assert InOneList(h, b);
    }
  }

  /** memAlloc_ fails exactly when the heap has no nBlocks + 1 contiguous free blocks; otherwise it
      takes the first nBlocks + 1 blocks of the lowest place that has them. */
  lemma AllocComplete(h: Heap, who: Owner, nBlocks: nat)
    requires Inv(h)
    ensures var r := Alloc(h, who, nBlocks).1;
      var need := nBlocks + 1;
      && (r == None <==> forall s: nat :: !FreeRun(h, s, need))
      && (r.Some? ==> FreeRun(h, r.value, need) && forall s: nat :: s < r.value ==> !FreeRun(h, s, need))
  {
    var need := nBlocks + 1;
    var i := FirstFit(h.free, need);
    if i < |h.free| { FreeSegmentIsRun(h, i, need); }
    forall s: nat | FreeRun(h, s, need)
      ensures i < |h.free| && h.free[i].start <= s
    {
      var j := RunOfFree(h, s, need);
      assert h.free[j].size >= need;
      if i < j { Ends(h.free, h.n, i, j); }
    }
  }

  /** What an allocation changes: the blocks it takes change hands, all others stay. */
  lemma AllocMoves(h: Heap, who: Owner, nBlocks: nat, b: nat)
    requires Inv(h) && Alloc(h, who, nBlocks).1.Some?
    ensures var (h', r) := Alloc(h, who, nBlocks);
      var s := Seg(r.value, nBlocks + 1);
      && (Covers(h'.free, b) <==> Covers(h.free, b) && !In(s, b))
      && (Covers(Owned(h', who), b) <==> Covers(Owned(h, who), b) || In(s, b))
      && (who.System? ==> h'.user == h.user) && (who.User? ==> h'.system == h.system)
      && (exists i: nat :: i < |Owned(h', who)| && Owned(h', who)[i] == s)
  {
    var i := FirstFit(h.free, nBlocks + 1);
    var s := Seg(h.free[i].start, nBlocks + 1);
    TakeFromKeeps(h.free, h.n, i, nBlocks + 1);
    InsertCovers(Owned(h, who), s, b);
    var p := Upto(Owned(h, who), s.start);
    assert Insert(Owned(h, who), s)[p] == s;
  }

  // ---- the free list is a function of the free blocks

  /** Which blocks are free determines the free list. */
  lemma SameFreeBlocks(h: Heap, h': Heap)
    requires Inv(h) && Inv(h') && h.n == h'.n
    requires forall b: nat :: Covers(h.free, b) <==> Covers(h'.free, b)
    ensures h.free == h'.free
  {
    Canonical(h.free, h'.free, h.n);
  }

  lemma IndexOfStart(l: seq<Seg>, n: nat, i: nat)
    requires Sorted(l, n) && i < |l|
    ensures IndexOf(l, l[i].start) == i
  {
    var j := IndexOf(l, l[i].start);
    if j < i { Ends(l, n, j, i); }
  }

  /** The owner's list after the allocation and the release that undoes it. */
  lemma InsertedAt(l: seq<Seg>, n: nat, s: Seg)
    requires Sorted(l, n) && s.size > 0 && End(s) <= n && Clear(l, s)
    ensures var r := Insert(l, s);
      var p := IndexOf(r, s.start);
      p < |r| && r[p] == s && Without(r, p) == l
  {
    var r := Insert(l, s);
    var p := Upto(l, s.start);
    InsertSorted(l, n, s);
    assert r[p] == s;
    IndexOfStart(r, n, p);
    assert Without(r, p) == l;
  }

  /** The free list after the allocation and the release that undoes it. */
  lemma TakenAndBack(l: seq<Seg>, n: nat, i: nat, need: nat)
    requires Sorted(l, n) && Spaced(l) && i < |l| && 0 < need <= l[i].size
    ensures GiveBack(TakeFrom(l, i, need), Seg(l[i].start, need)) == l
  {
    var s := Seg(l[i].start, need);
    TakeFromKeeps(l, n, i, need);
    GiveBackKeeps(TakeFrom(l, i, need), n, s);
    Canonical(GiveBack(TakeFrom(l, i, need), s), l, n);
  }

  /** Freeing what was just allocated restores the heap exactly. */
  lemma ReleaseUndoesAlloc(h: Heap, who: Owner, nBlocks: nat)
    requires Inv(h) && Alloc(h, who, nBlocks).1.Some?
    ensures var (h1, r) := Alloc(h, who, nBlocks);
      Release(h1, who, r.value) == (h, true)
  {
    var i := FirstFit(h.free, nBlocks + 1);
    var s := Seg(h.free[i].start, nBlocks + 1);
    TakeFromKeeps(h.free, h.n, i, nBlocks + 1);
    FreeIsNotOwned(h, who, s);
    InsertedAt(Owned(h, who), h.n, s);
    TakenAndBack(h.free, h.n, i, nBlocks + 1);
    OwnerBack(h, who, TakeFrom(h.free, i, nBlocks + 1), s);
  }

  lemma OwnerBack(h: Heap, who: Owner, free: seq<Seg>, s: Seg)
    requires var l := Insert(Owned(h, who), s);
      var p := IndexOf(l, s.start);
      p < |l| && l[p] == s && Without(l, p) == Owned(h, who)
    requires GiveBack(free, s) == h.free
    ensures Release(SetOwned(h.(free := free), who, Insert(Owned(h, who), s)), who, s.start) == (h, true)
  {
    var h1 := SetOwned(h.(free := free), who, Insert(Owned(h, who), s));
    assert Owned(h1, who) == Insert(Owned(h, who), s) && h1.free == free;
  }

  /** When everything has been freed, in whatever order, one segment is left: the initial one. */
  lemma AllFreed(h: Heap)
    requires Inv(h) && h.n > 0 && h.system == [] && h.user == []
    ensures h == Start(h.n)
  {
    StartInv(h.n);
    forall b: nat
      ensures Covers(h.free, b) <==> Covers([Seg(0, h.n)], b)
    {
      if b < h.n {
        assert InOneList(h, b) && InOneList(Start(h.n), b);
      } else {
        if Covers(h.free, b) { CoveredBelow(h.free, h.n, b); }
      }
    }
    Canonical(h.free, [Seg(0, h.n)], h.n);
  }

  lemma RunThatFreesEverything(n: nat, rs: seq<Request>)
    requires n > 0 && After(Start(n), rs).system == [] && After(Start(n), rs).user == []
    ensures After(Start(n), rs) == Start(n)
  {
    RunKeeps(n, rs);
    AllFreed(After(Start(n), rs));
  }

  // ---- freeing

  /** memFree_ succeeds exactly on the start of a segment of its own list; it moves that segment to
      the free blocks and leaves the other list alone.  Otherwise it changes nothing. */
  lemma ReleaseExact(h: Heap, who: Owner, a: nat)
    requires Inv(h)
    ensures var (h', ok) := Release(h, who, a);
      var l := Owned(h, who);
      && (ok <==> StartsAt(l, a))
      && (!ok ==> h' == h)
      && (who.System? ==> h'.user == h.user) && (who.User? ==> h'.system == h.system)
      && (ok ==> exists i: nat :: i < |l| && l[i].start == a && Owned(h', who) == Without(l, i)
                   && forall b: nat :: Covers(h'.free, b) <==> Covers(h.free, b) || In(l[i], b))
  {
    var l := Owned(h, who);
    var i := IndexOf(l, a);
    if i < |l| {
      forall b: nat | In(l[i], b)
        ensures !Covers(h.free, b)
      {
        assert Covers(l, b);
        assert InOneList(h, b);
      }
      GiveBackKeeps(h.free, h.n, l[i]);
    }
  }

  /** A second free of the same segment is refused. */
  lemma DoubleFree(h: Heap, who: Owner, a: nat)
    requires Inv(h) && Release(h, who, a).1
    ensures !Release(Release(h, who, a).0, who, a).1
  {
    var l := Owned(h, who);
    var i := IndexOf(l, a);
    var r := Without(l, i);
    forall j: nat | j < |r|
      ensures r[j].start != a
    {
      if j < i { Ends(l, h.n, j, i); } else { Ends(l, h.n, i, j + 1); }
    }
  }

  /** Neither entry point releases a segment of the other. */
  lemma ForeignFree(h: Heap, who: Owner, other: Owner, a: nat)
    requires Inv(h) && who != other && StartsAt(Owned(h, other), a)
    ensures Release(h, who, a) == (h, false)
  {
    var j: nat :| j < |Owned(h, other)| && Owned(h, other)[j].start == a;
    assert In(Owned(h, other)[j], a);
    assert InOneList(h, a);
    var i := IndexOf(Owned(h, who), a);
    if i < |Owned(h, who)| { assert In(Owned(h, who)[i], a); }
  }
}
