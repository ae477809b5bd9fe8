/** What the list operations of the allocator do to the blocks that a list covers. */
module HeapLists {
  import opened HeapSpec

  lemma Ends(l: seq<Seg>, n: nat, i: nat, j: nat)
    requires Sorted(l, n) && i < j < |l|
    ensures l[i].start < End(l[i]) <= l[j].start
  {
    assert Precedes(l, i, j);
  }

  /** A block is in at most one segment of a list. */
  lemma OneSegment(l: seq<Seg>, n: nat, i: nat, j: nat, b: nat)
    requires Sorted(l, n) && i < |l| && j < |l| && In(l[i], b) && In(l[j], b)
    ensures i == j
  {
    if i < j { Ends(l, n, i, j); }
    if j < i { Ends(l, n, j, i); }
  }

  // ---- taking a segment out

  lemma WithoutSorted(l: seq<Seg>, n: nat, i: nat)
    requires Sorted(l, n) && i < |l|
    ensures Sorted(Without(l, i), n)
    ensures Spaced(l) ==> Spaced(Without(l, i))
  {
    var r := Without(l, i);
    forall x: nat, y: nat | x < y < |r|
      ensures Precedes(r, x, y)
    {
      Ends(l, n, if x < i then x else x + 1, if y < i then y else y + 1);
    }
    if Spaced(l) {
      forall x: nat | x + 1 < |r|
        ensures Gap(r, x)
      {
        if x + 1 < i {
          assert Gap(l, x);
        } else {
          assert Gap(l, x + 1);
          if x + 1 == i {
            assert Gap(l, x);
            Ends(l, n, i, i + 1);
          }
        }
      }
    }
  }

  lemma WithoutCovers(l: seq<Seg>, n: nat, i: nat, b: nat)
    requires Sorted(l, n) && i < |l|
    ensures Covers(Without(l, i), b) <==> Covers(l, b) && !In(l[i], b)
  {
    var r := Without(l, i);
    if Covers(r, b) {
      var j: nat :| j < |r| && In(r[j], b);
      var j' := if j < i then j else j + 1;
      assert In(l[j'], b);
      if In(l[i], b) { OneSegment(l, n, i, j', b); }
    }
    if Covers(l, b) && !In(l[i], b) {
      var j: nat :| j < |l| && In(l[j], b);
      assert In(r[if j < i then j else j - 1], b);
    }
  }

  // ---- cutting the front off a segment

  lemma CutSorted(l: seq<Seg>, n: nat, i: nat, need: nat)
    requires Sorted(l, n) && i < |l| && 0 < need < l[i].size
    ensures Sorted(l[i := Seg(l[i].start + need, l[i].size - need)], n)
    ensures Spaced(l) ==> Spaced(l[i := Seg(l[i].start + need, l[i].size - need)])
  {
    var r := l[i := Seg(l[i].start + need, l[i].size - need)];
    forall x: nat, y: nat | x < y < |r|
      ensures Precedes(r, x, y)
    {
      Ends(l, n, x, y);
    }
    if Spaced(l) {
      forall x: nat | x + 1 < |r|
        ensures Gap(r, x)
      {
        assert Gap(l, x);
      }
    }
  }

  lemma CutCovers(l: seq<Seg>, n: nat, i: nat, need: nat, b: nat)
    requires Sorted(l, n) && i < |l| && 0 < need < l[i].size
    ensures Covers(l[i := Seg(l[i].start + need, l[i].size - need)], b)
       <==> Covers(l, b) && !In(Seg(l[i].start, need), b)
  {
    var r := l[i := Seg(l[i].start + need, l[i].size - need)];
    if Covers(r, b) {
      var j: nat :| j < |r| && In(r[j], b);
      assert In(l[j], b);
      if In(Seg(l[i].start, need), b) { OneSegment(l, n, i, j, b); }
    }
    if Covers(l, b) && !In(Seg(l[i].start, need), b) {
      var j: nat :| j < |l| && In(l[j], b);
      assert In(r[j], b);
    }
  }

  // ---- putting a segment in

  /** The segment shares no block with the list. */
  ghost predicate Clear(l: seq<Seg>, s: Seg) {
    forall b: nat :: In(s, b) ==> !Covers(l, b)
  }

  lemma ClearOf(l: seq<Seg>, n: nat, s: Seg, i: nat)
    requires Sorted(l, n) && s.size > 0 && Clear(l, s) && i < |l|
    ensures if l[i].start <= s.start then End(l[i]) <= s.start else End(s) <= l[i].start
  {
    if l[i].start <= s.start < End(l[i]) { assert In(s, s.start) && In(l[i], s.start); }
    if s.start < l[i].start < End(s) { assert In(s, l[i].start) && In(l[i], l[i].start); }
  }

  lemma InsertSorted(l: seq<Seg>, n: nat, s: Seg)
    requires Sorted(l, n) && s.size > 0 && End(s) <= n && Clear(l, s)
    ensures Sorted(Insert(l, s), n)
  {
    var p, r := Upto(l, s.start), Insert(l, s);
    forall x: nat, y: nat | x < y < |r|
      ensures Precedes(r, x, y)
    {
      if x == p {
        assert r[x] == s && r[y] == l[y - 1];
        Upto2(l, n, s.start, y - 1);
        ClearOf(l, n, s, y - 1);
      } else if y == p {
        assert r[x] == l[x] && r[y] == s;
        ClearOf(l, n, s, x);
      } else {
        var x' := if x < p then x else x - 1;
        var y' := if y < p then y else y - 1;
        assert r[x] == l[x'] && r[y] == l[y'];
        Ends(l, n, x', y');
      }
    }
  }

  /** Behind the point where Upto stops everything starts later. */
  lemma Upto2(l: seq<Seg>, n: nat, a: nat, j: nat)
    requires Sorted(l, n) && Upto(l, a) <= j < |l|
    ensures l[j].start > a
  {
    if Upto(l, a) < j { Ends(l, n, Upto(l, a), j); }
  }

  lemma InsertCovers(l: seq<Seg>, s: Seg, b: nat)
    ensures Covers(Insert(l, s), b) <==> Covers(l, b) || In(s, b)
  {
    var p, r := Upto(l, s.start), Insert(l, s);
    assert r[p] == s;
    if Covers(r, b) && !In(s, b) {
      var j: nat :| j < |r| && In(r[j], b);
      assert In(l[if j < p then j else j - 1], b);
    }
    if Covers(l, b) {
      var j: nat :| j < |l| && In(l[j], b);
      assert In(r[if j < p then j else j + 1], b);
    }
  }

  // ---- merging

  function MergeOnce(l: seq<Seg>, i: nat): seq<Seg>
    requires i + 1 < |l|
  {
    l[..i] + [Seg(l[i].start, l[i].size + l[i + 1].size)] + l[i + 2..]
  }

  lemma MergeOnceSorted(l: seq<Seg>, n: nat, i: nat)
    requires Sorted(l, n) && i + 1 < |l| && End(l[i]) == l[i + 1].start
    ensures Sorted(MergeOnce(l, i), n) && |MergeOnce(l, i)| == |l| - 1
  {
    var r := MergeOnce(l, i);
    forall x: nat, y: nat | x < y < |r|
      ensures Precedes(r, x, y)
    {
      Ends(l, n, if x < i then x else x + 1, if y <= i then y else y + 1);
    }
  }

  lemma MergeOnceCovers(l: seq<Seg>, i: nat, b: nat)
    requires i + 1 < |l| && End(l[i]) == l[i + 1].start
    ensures Covers(MergeOnce(l, i), b) <==> Covers(l, b)
  {
    var r := MergeOnce(l, i);
    if Covers(r, b) {
      var j: nat :| j < |r| && In(r[j], b);
      assert In(l[if j < i then j else if j > i then j + 1 else if b < End(l[i]) then i else i + 1], b);
    }
    if Covers(l, b) {
      var j: nat :| j < |l| && In(l[j], b);
      assert In(r[if j <= i then j else j - 1], b);
    }
  }

  /** merge keeps the blocks and the segments before and behind; it stops at a gap. */
  lemma {:induction false} MergeKeeps(l: seq<Seg>, n: nat, i: nat)
    requires Sorted(l, n) && i < |l|
    ensures var r := MergeAt(l, i);
      && Sorted(r, n) && i < |r| <= |l|
      && r[..i] == l[..i] && r[i].start == l[i].start
      && r[i + 1..] == l[i + 1 + (|l| - |r|)..]
      && (i + 1 < |r| ==> Gap(r, i))
    ensures forall b: nat :: Covers(MergeAt(l, i), b) <==> Covers(l, b)
    decreases |l|
  {
    if i + 1 < |l| {
      Ends(l, n, i, i + 1);
      if End(l[i]) == l[i + 1].start {
        var m := MergeOnce(l, i);
        MergeOnceSorted(l, n, i);
        forall b: nat
          ensures Covers(m, b) <==> Covers(l, b)
        {
          MergeOnceCovers(l, i, b);
        }
        MergeKeeps(m, n, i);
        assert m[..i] == l[..i];
        var r := MergeAt(m, i);
        assert MergeAt(l, i) == r;
        var d := |m| - |r|;
        assert m[i + 1 + d..] == l[i + 2 + d..];
      }
    }
  }

  // ---- coming back to the free list

  /** Neighbours of an inserted segment may touch it, but nobody else. */
  lemma InsertSpaced(l: seq<Seg>, s: Seg, x: nat)
    requires Spaced(l) && x + 1 < |l| + 1 && x != Upto(l, s.start) && x + 1 != Upto(l, s.start)
    ensures Gap(Insert(l, s), x)
  {
    var p, r := Upto(l, s.start), Insert(l, s);
    var x' := if x < p then x else x - 1;
    assert Gap(l, x');
    assert r[x] == l[x'] && r[x + 1] == l[x' + 1];
  }

  /** After the first merge only the two segments at p - 1 and p may still touch. */
  lemma FirstMerge(l: seq<Seg>, n: nat, s: Seg, x: nat)
    requires Sorted(l, n) && Spaced(l) && s.size > 0 && End(s) <= n && Clear(l, s)
    requires x + 1 < |MergeAt(Insert(l, s), Upto(l, s.start))| && x + 1 != Upto(l, s.start)
    ensures var r := MergeAt(Insert(l, s), Upto(l, s.start));
      Gap(r, x)
  {
    var p, l1 := Upto(l, s.start), Insert(l, s);
    InsertSorted(l, n, s);
    MergeKeeps(l1, n, p);
    var r := MergeAt(l1, p);
    var d := |l1| - |r|;
    if x < p {
      assert r[x] == r[..p][x] && l1[x] == l1[..p][x];
      assert r[x + 1] == r[..p][x + 1] && l1[x + 1] == l1[..p][x + 1];
      InsertSpaced(l, s, x);
    } else if x > p {
      assert r[x] == r[p + 1..][x - p - 1] && r[x + 1] == r[p + 1..][x - p];
      assert l1[x + d] == l1[p + 1 + d..][x - p - 1] && l1[x + d + 1] == l1[p + 1 + d..][x - p];
      InsertSpaced(l, s, x + d);
    }
  }

  /** The second merge closes the last place where two segments may touch. */
  lemma SecondMerge(l: seq<Seg>, n: nat, q: nat)
    requires Sorted(l, n) && q < |l|
    requires forall x: nat :: x + 1 < |l| && x != q ==> Gap(l, x)
    ensures Spaced(MergeAt(l, q))
  {
    MergeKeeps(l, n, q);
    var r := MergeAt(l, q);
    var d := |l| - |r|;
    forall x: nat | x + 1 < |r|
      ensures Gap(r, x)
    {
      if x != q { assert if x < q then Gap(l, x) else Gap(l, x + d); }
      if x < q {
        assert r[x] == r[..q][x] && l[x] == l[..q][x];
        if x + 1 < q { assert r[x + 1] == r[..q][x + 1] && l[x + 1] == l[..q][x + 1]; }
      } else if x > q {
        assert r[x] == r[q + 1..][x - q - 1] && r[x + 1] == r[q + 1..][x - q];
        assert l[x + d] == l[q + 1 + d..][x - q - 1] && l[x + d + 1] == l[q + 1 + d..][x - q];
      }
    }
  }

  /** Inserted and merged with what follows: only p - 1 and p may still touch. */
  lemma InsertMerged(l: seq<Seg>, n: nat, s: Seg)
    requires Sorted(l, n) && Spaced(l) && s.size > 0 && End(s) <= n && Clear(l, s)
    ensures var p := Upto(l, s.start);
      var r := MergeAt(Insert(l, s), p);
      && Sorted(r, n) && p < |r|
      && (forall x: nat :: x + 1 < |r| && x + 1 != p ==> Gap(r, x))
      && (forall b: nat :: Covers(r, b) <==> Covers(l, b) || In(s, b))
  {
    var p, l1 := Upto(l, s.start), Insert(l, s);
    InsertSorted(l, n, s);
    MergeKeeps(l1, n, p);
    forall b: nat
      ensures Covers(l1, b) <==> Covers(l, b) || In(s, b)
    {
      InsertCovers(l, s, b);
    }
    var r := MergeAt(l1, p);
    forall x: nat | x + 1 < |r| && x + 1 != p
      ensures Gap(r, x)
    {
      FirstMerge(l, n, s, x);
    }
  }

  /** The freed blocks are free, and no two free segments touch. */
  lemma GiveBackKeeps(l: seq<Seg>, n: nat, s: Seg)
    requires Sorted(l, n) && Spaced(l) && s.size > 0 && End(s) <= n && Clear(l, s)
    ensures Sorted(GiveBack(l, s), n) && Spaced(GiveBack(l, s))
    ensures forall b: nat :: Covers(GiveBack(l, s), b) <==> Covers(l, b) || In(s, b)
  {
    var p := Upto(l, s.start);
    InsertMerged(l, n, s);
    if p > 0 {
      var r := MergeAt(Insert(l, s), p);
      MergeKeeps(r, n, p - 1);
      SecondMerge(r, n, p - 1);
    }
  }

  // ---- the free list is determined by the free blocks

  lemma LowestBlock(l: seq<Seg>, n: nat, b: nat)
    requires Sorted(l, n) && l != [] && Covers(l, b)
    ensures l[0].start <= b && Covers(l, l[0].start)
  {
    var j: nat :| j < |l| && In(l[j], b);
    if j > 0 { Ends(l, n, 0, j); }
    assert In(l[0], l[0].start);
  }

  lemma FirstCovered(l: seq<Seg>, n: nat)
    requires Sorted(l, n) && l != []
    ensures Covers(l, l[0].start)
  {
    assert In(l[0], l[0].start);
  }

  /** The block behind the first segment is not covered. */
  lemma FirstGap(l: seq<Seg>, n: nat)
    requires Sorted(l, n) && Spaced(l) && l != []
    ensures !Covers(l, End(l[0]))
  {
    if Covers(l, End(l[0])) {
      var j: nat :| j < |l| && In(l[j], End(l[0]));
      if j > 0 { assert Gap(l, 0); }
      if j > 1 { Ends(l, n, 1, j); }
    }
  }

  lemma FirstSegment(l: seq<Seg>, m: seq<Seg>, n: nat)
    requires Sorted(l, n) && Spaced(l) && l != [] && Sorted(m, n) && Spaced(m) && m != []
    requires forall b: nat :: Covers(l, b) <==> Covers(m, b)
    ensures l[0] == m[0]
  {
    assert In(l[0], l[0].start) && In(m[0], m[0].start);
    LowestBlock(l, n, m[0].start);
    LowestBlock(m, n, l[0].start);
    FirstGap(l, n);
    FirstGap(m, n);
    var e, e' := End(l[0]), End(m[0]);
    assert In(m[0], e) ==> Covers(m, e);
    assert In(l[0], e') ==> Covers(l, e');
  }

  lemma RestCovers(l: seq<Seg>, n: nat)
    requires Sorted(l, n) && Spaced(l) && l != []
    ensures Sorted(l[1..], n) && Spaced(l[1..])
    ensures forall b: nat :: Covers(l[1..], b) <==> Covers(l, b) && !In(l[0], b)
  {
    assert l[1..] == Without(l, 0);
    WithoutSorted(l, n, 0);
    forall b: nat
      ensures Covers(l[1..], b) <==> Covers(l, b) && !In(l[0], b)
    {
      WithoutCovers(l, n, 0, b);
    }
  }

  /** Two lists with gaps between their segments that cover the same blocks are the same list. */
  lemma {:induction false} Canonical(l: seq<Seg>, m: seq<Seg>, n: nat)
    requires Sorted(l, n) && Spaced(l) && Sorted(m, n) && Spaced(m)
    requires forall b: nat :: Covers(l, b) <==> Covers(m, b)
    ensures l == m
    decreases |l|
  {
    if l == [] {
      if m != [] { FirstCovered(m, n); }
    } else if m == [] {
      FirstCovered(l, n);
    } else {
      FirstSegment(l, m, n);
      RestCovers(l, n);
      RestCovers(m, n);
      Canonical(l[1..], m[1..], n);
      assert l == [l[0]] + l[1..] && m == [m[0]] + m[1..];
    }
  }

  /** A run of covered blocks lies inside one segment. */
  lemma {:induction false} RunInOne(l: seq<Seg>, n: nat, s: nat, len: nat) returns (i: nat)
    requires Sorted(l, n) && Spaced(l) && len > 0
    requires forall b: nat :: s <= b < s + len ==> Covers(l, b)
    ensures i < |l| && l[i].start <= s && s + len <= End(l[i])
    decreases len
  {
    var b := s + len - 1;
    assert Covers(l, b);
    var j: nat :| j < |l| && In(l[j], b);
    if len == 1 {
      i := j;
    } else {
      i := RunInOne(l, n, s, len - 1);
      if b == End(l[i]) {
        if j < i { Ends(l, n, j, i); }
        if j > i { assert Gap(l, i); }
        if j > i + 1 { Ends(l, n, i + 1, j); }
        assert false;
      }
    }
  }
}
