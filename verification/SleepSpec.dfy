/** The delta-encoded sleep list (src/sleep.cpp) as a function on entry lists, and its meaning: a
    map from sleeper to the ticks it still has to wait. */
module SleepSpec {
  import opened Entries
  import opened KernelTypes

  /** Sleep::put: walk while the deltas fit into the timeout, splice, shorten the successor. */
  function Insert(l: seq<Entry>, t: Tid, timeout: nat): seq<Entry> {
    if l == [] then [Entry(t, timeout)]
    else if timeout < l[0].n then [Entry(t, timeout), Entry(l[0].tid, l[0].n - timeout)] + l[1..]
    else [l[0]] + Insert(l[1..], t, timeout - l[0].n)
  }

  /** Sleep::get: unlink entry i and give its delta to the successor, in 64-bit arithmetic. */
  function Remove(l: seq<Entry>, i: nat): seq<Entry>
    requires i < |l|
  {
    if i + 1 == |l| then l[..i]
    else l[..i] + [Entry(l[i + 1].tid, Wrap(l[i + 1].n + l[i].n))] + l[i + 2..]
  }

  /** The decrement at the head of Sleep::onTick, in 64-bit arithmetic. */
  function Decrement(l: seq<Entry>): seq<Entry> {
    if l == [] then [] else [Entry(l[0].tid, Wrap(l[0].n + TWO64 - 1))] + l[1..]
  }

  /** The meaning of a delta list: when each sleeper is due, counted from `base`. */
  ghost function Deadlines(l: seq<Entry>, base: nat): map<Tid, nat> {
    if l == [] then map[]
    else Deadlines(l[1..], base + l[0].n)[l[0].tid := base + l[0].n]
  }

  function Total(l: seq<Entry>): nat {
    if l == [] then 0 else l[0].n + Total(l[1..])
  }

  /** What holds of the list between kernel steps. */
  ghost predicate Settled(l: seq<Entry>) {
    && Distinct(l)
    && Total(l) < TWO64
    && (l != [] ==> l[0].n > 0)
  }

  // ---- structure

  lemma HasUnfold(l: seq<Entry>, t: Tid)
    requires l != []
    ensures Has(l, t) <==> l[0].tid == t || Has(l[1..], t)
  {
    if Has(l, t) && l[0].tid != t {
      var i :| 0 <= i < |l| && l[i].tid == t;
      assert l[1..][i - 1].tid == t;
    }
    if Has(l[1..], t) {
      var i :| 0 <= i < |l[1..]| && l[1..][i].tid == t;
      assert l[i + 1].tid == t;
    }
  }

  lemma {:induction false} DeadlinesDomain(l: seq<Entry>, base: nat)
    ensures forall t :: t in Deadlines(l, base) <==> Has(l, t)
    ensures forall t :: t in Deadlines(l, base) ==> Deadlines(l, base)[t] >= base
  {
    if l != [] {
      DeadlinesDomain(l[1..], base + l[0].n);
      forall t
        ensures Has(l, t) <==> l[0].tid == t || Has(l[1..], t)
      {
        HasUnfold(l, t);
      }
    }
  }

  lemma {:induction false} InsertHas(l: seq<Entry>, t: Tid, timeout: nat)
    ensures |Insert(l, t, timeout)| == |l| + 1
    ensures forall u :: Has(Insert(l, t, timeout), u) <==> Has(l, u) || u == t
    ensures Distinct(l) && !Has(l, t) ==> Distinct(Insert(l, t, timeout))
  {
    var r := Insert(l, t, timeout);
    if l == [] {
      assert r[0].tid == t;
    } else {
      forall u
        ensures Has(r, u) <==> r[0].tid == u || Has(r[1..], u)
        ensures Has(l, u) <==> l[0].tid == u || Has(l[1..], u)
      {
        HasUnfold(r, u);
        HasUnfold(l, u);
      }
      if timeout < l[0].n {
        var m := [Entry(l[0].tid, l[0].n - timeout)] + l[1..];
        assert r[1..] == m;
        forall u
          ensures Has(m, u) <==> Has(l, u)
        {
          HasUnfold(m, u);
          assert m[1..] == l[1..];
        }
        if Distinct(l) && !Has(l, t) {
          forall i, j | 0 <= i < j < |r|
            ensures r[i].tid != r[j].tid
          {
            assert r[j].tid == l[j - 1].tid;
            if i > 0 { assert r[i].tid == l[i - 1].tid; }
          }
        }
      } else {
        InsertHas(l[1..], t, timeout - l[0].n);
        assert r[1..] == Insert(l[1..], t, timeout - l[0].n);
        if Distinct(l) && !Has(l, t) {
          forall i, j | 0 <= i < j < |r|
            ensures r[i].tid != r[j].tid
          {
            assert r[j] == r[1..][j - 1];
            if i > 0 {
              assert r[i] == r[1..][i - 1];
            } else {
              assert Has(r[1..], r[j].tid);
              assert !Has(l[1..], l[0].tid);
            }
          }
        }
      }
    }
  }

  lemma RemoveHas(l: seq<Entry>, i: nat)
    requires i < |l| && Distinct(l)
    ensures |Remove(l, i)| == |l| - 1
    ensures Distinct(Remove(l, i))
    ensures forall t :: Has(Remove(l, i), t) <==> Has(l, t) && t != l[i].tid
  {
    var d, r := DropAt(l, i), Remove(l, i);
    DropAtHas(l, i);
    assert forall j :: 0 <= j < |r| ==> r[j].tid == d[j].tid;
    assert forall t :: Has(r, t) <==> Has(d, t);
  }

  lemma {:induction false} TotalConcat(a: seq<Entry>, b: seq<Entry>)
    ensures Total(a + b) == Total(a) + Total(b)
  {
    if a == [] {
      assert a + b == b;
    } else {
      assert (a + b)[1..] == a[1..] + b;
      TotalConcat(a[1..], b);
    }
  }

  /** Inserting never moves the last deadline earlier, nor past the later of the two. */
  lemma {:induction false} InsertTotal(l: seq<Entry>, t: Tid, timeout: nat)
    ensures Total(Insert(l, t, timeout)) == if timeout > Total(l) then timeout else Total(l)
  {
    var r := Insert(l, t, timeout);
    if l != [] {
      if timeout < l[0].n {
        assert r[1..][1..] == l[1..];
      } else {
        InsertTotal(l[1..], t, timeout - l[0].n);
        assert r[1..] == Insert(l[1..], t, timeout - l[0].n);
      }
    }
  }

  lemma RemoveFirst(l: seq<Entry>)
    requires l != []
    ensures Remove(l, 0) == if |l| == 1 then [] else [Entry(l[1].tid, Wrap(l[1].n + l[0].n))] + l[1..][1..]
    ensures l[1..] == if |l| == 1 then [] else [l[1]] + l[1..][1..]
  {
  }

  lemma RemoveLater(l: seq<Entry>, i: nat)
    requires 0 < i < |l|
    ensures Remove(l, i) == [l[0]] + Remove(l[1..], i - 1)
  {
    assert l[1..][i - 1] == l[i];
    assert l[..i] == [l[0]] + l[1..][..i - 1];
    if i + 1 < |l| {
      assert l[1..][i] == l[i + 1];
      assert l[i + 2..] == l[1..][i + 1..];
    }
  }

  lemma RestDistinct(l: seq<Entry>)
    requires l != [] && Distinct(l)
    ensures Distinct(l[1..]) && !Has(l[1..], l[0].tid)
  {
  }

  /** While the deadlines fit in 64 bits, so does the addition made by Remove. */
  lemma {:induction false} RemoveTotal(l: seq<Entry>, i: nat)
    requires i < |l| && Total(l) < TWO64
    ensures Total(Remove(l, i)) <= Total(l)
    ensures i + 1 < |l| ==> l[i + 1].n + l[i].n < TWO64
  {
    if i == 0 {
      RemoveFirst(l);
      var r := Remove(l, 0);
      if |l| > 1 {
        assert r[1..] == l[1..][1..];
        assert Total(l[1..]) == l[1].n + Total(l[1..][1..]);
        assert r[0].n == l[1].n + l[0].n;
      }
    } else {
      RemoveLater(l, i);
      RemoveTotal(l[1..], i - 1);
      assert Remove(l, i)[1..] == Remove(l[1..], i - 1);
    }
  }

  // ---- refinement of the map of deadlines

  /** Put adds one deadline and leaves all others alone. */
  lemma {:induction false} InsertRefines(l: seq<Entry>, t: Tid, timeout: nat, base: nat)
    requires !Has(l, t)
    ensures Deadlines(Insert(l, t, timeout), base) == Deadlines(l, base)[t := base + timeout]
  {
    var r := Insert(l, t, timeout);
    if l == [] {
      assert r[1..] == [];
    } else {
      HasUnfold(l, t);
      if timeout < l[0].n {
        var m := [Entry(l[0].tid, l[0].n - timeout)] + l[1..];
        assert r[1..] == m && m[1..] == l[1..];
      } else {
        assert r[1..] == Insert(l[1..], t, timeout - l[0].n);
        InsertRefines(l[1..], t, timeout - l[0].n, base + l[0].n);
      }
    }
  }

  lemma RemoveFirstRefines(l: seq<Entry>, base: nat)
    requires l != [] && Distinct(l) && Total(l) < TWO64
    ensures Deadlines(Remove(l, 0), base) == Deadlines(l, base) - {l[0].tid}
  {
    RemoveTotal(l, 0);
    RestDistinct(l);
    DeadlinesDomain(l[1..], base + l[0].n);
    RemoveFirst(l);
    var r := Remove(l, 0);
    if |l| > 1 {
      assert r[1..] == l[1..][1..];
      assert r[0] == Entry(l[1].tid, l[1].n + l[0].n);
    }
    assert Deadlines(r, base) == Deadlines(l[1..], base + l[0].n);
  }

  lemma RemoveLaterRefines(l: seq<Entry>, i: nat, base: nat)
    requires 0 < i < |l| && Distinct(l)
    requires Deadlines(Remove(l[1..], i - 1), base + l[0].n) == Deadlines(l[1..], base + l[0].n) - {l[i].tid}
    ensures Deadlines(Remove(l, i), base) == Deadlines(l, base) - {l[i].tid}
  {
    RemoveLater(l, i);
    var r := Remove(l, i);
    assert r[0] == l[0] && r[1..] == Remove(l[1..], i - 1);
    assert l[0].tid != l[i].tid;
  }

  /** Get removes one deadline and leaves all others alone; its addition does not wrap. */
  lemma {:induction false} RemoveRefines(l: seq<Entry>, i: nat, base: nat)
    requires i < |l| && Distinct(l) && Total(l) < TWO64
    ensures Deadlines(Remove(l, i), base) == Deadlines(l, base) - {l[i].tid}
    ensures i + 1 < |l| ==> l[i + 1].n + l[i].n < TWO64
  {
    RemoveTotal(l, i);
    if i == 0 {
      RemoveFirstRefines(l, base);
    } else {
      RestDistinct(l);
      RemoveRefines(l[1..], i - 1, base + l[0].n);
      RemoveLaterRefines(l, i, base);
    }
  }

  /** A tick brings every deadline one closer with one decrement. */
  lemma TickRefines(l: seq<Entry>, base: nat)
    requires Settled(l)
    ensures Deadlines(Decrement(l), base + 1) == Deadlines(l, base)
    ensures l != [] ==> Decrement(l)[0].n == l[0].n - 1
    ensures Total(Decrement(l)) == if l == [] then 0 else Total(l) - 1
  {
    if l != [] {
      assert Decrement(l)[1..] == l[1..];
    }
  }

  /** The list is ordered by deadline. */
  lemma {:induction false} Ordered(l: seq<Entry>, base: nat, i: nat, j: nat)
    requires Distinct(l) && i <= j < |l|
    ensures l[i].tid in Deadlines(l, base) && l[j].tid in Deadlines(l, base)
    ensures base + l[0].n <= Deadlines(l, base)[l[i].tid] <= Deadlines(l, base)[l[j].tid]
  {
    DeadlinesDomain(l, base);
    assert Has(l, l[i].tid) && Has(l, l[j].tid);
    if i > 0 {
      assert forall a, b :: 0 <= a < b < |l[1..]| ==> l[1..][a] == l[a + 1] && l[1..][b] == l[b + 1];
      Ordered(l[1..], base + l[0].n, i - 1, j - 1);
      assert l[1..][0].n >= 0;
      assert l[0].tid != l[i].tid && l[0].tid != l[j].tid;
    } else if j > 0 {
      assert forall a, b :: 0 <= a < b < |l[1..]| ==> l[1..][a] == l[a + 1] && l[1..][b] == l[b + 1];
      Ordered(l[1..], base + l[0].n, 0, j - 1);
      assert l[0].tid != l[j].tid;
    }
  }

  /** Where Insert puts the newcomer: behind every entry that is due no later than it. */
  function InsertPos(l: seq<Entry>, timeout: nat): (p: nat)
    ensures p <= |l|
  {
    if l == [] || timeout < l[0].n then 0 else 1 + InsertPos(l[1..], timeout - l[0].n)
  }

  lemma {:induction false} InsertKeepsOrder(l: seq<Entry>, t: Tid, timeout: nat)
    ensures var p := InsertPos(l, timeout);
      var r := Insert(l, t, timeout);
      && |r| == |l| + 1
      && r[p].tid == t
      && (forall j :: 0 <= j < p ==> r[j] == l[j])
      && (forall j :: p <= j < |l| ==> r[j + 1].tid == l[j].tid)
  {
    InsertHas(l, t, timeout);
    if l != [] && timeout >= l[0].n {
      InsertKeepsOrder(l[1..], t, timeout - l[0].n);
      var r := Insert(l, t, timeout);
      var p := InsertPos(l, timeout);
      assert r[1..] == Insert(l[1..], t, timeout - l[0].n);
      forall j | 0 <= j < p
        ensures r[j] == l[j]
      {
        if j > 0 { assert r[j] == r[1..][j - 1] && l[j] == l[1..][j - 1]; }
      }
      forall j | p <= j < |l|
        ensures r[j + 1].tid == l[j].tid
      {
        assert r[j + 1] == r[1..][j] && l[j] == l[1..][j - 1];
      }
    }
  }

  /** Sleepers due on the same tick stand in the order in which they were put: everything due no
      later than the newcomer is in front of it, everything due later is behind it. */
  lemma {:induction false} InsertBehindEqual(l: seq<Entry>, t: Tid, timeout: nat, base: nat, j: nat)
    requires Distinct(l) && j < |l|
    ensures l[j].tid in Deadlines(l, base)
    ensures j < InsertPos(l, timeout) <==> Deadlines(l, base)[l[j].tid] <= base + timeout
  {
    DeadlinesDomain(l, base);
    assert Has(l, l[j].tid);
    if timeout < l[0].n {
      Ordered(l, base, j, j);
    } else if j > 0 {
      assert forall a, b :: 0 <= a < b < |l[1..]| ==> l[1..][a] == l[a + 1] && l[1..][b] == l[b + 1];
      InsertBehindEqual(l[1..], t, timeout - l[0].n, base + l[0].n, j - 1);
      assert l[0].tid != l[j].tid;
    }
  }

  // ---- what others see of a change

  /** Apart from x, nobody was added, moved or given another deadline. */
  ghost predicate OthersKept(l: seq<Entry>, l': seq<Entry>, x: set<Tid>) {
    && (forall a: Tid :: a in Deadlines(l', 0) && a !in x ==>
          a in Deadlines(l, 0) && Deadlines(l', 0)[a] == Deadlines(l, 0)[a])
    && (forall a: Tid, b: Tid :: Before(l', a, b) && a !in x && b !in x ==> Before(l, a, b))
  }

  lemma RemoveKeepsOthers(l: seq<Entry>, i: nat)
    requires i < |l| && Distinct(l) && Total(l) < TWO64
    ensures OthersKept(l, Remove(l, i), {})
  {
    RemoveRefines(l, i, 0);
    forall a: Tid, b: Tid | Before(Remove(l, i), a, b)
      ensures Before(l, a, b)
    {
      RemoveBefore(l, i, a, b);
    }
  }

  lemma RemoveBefore(l: seq<Entry>, i: nat, a: Tid, b: Tid)
    requires i < |l| && Before(Remove(l, i), a, b)
    ensures Before(l, a, b)
  {
    var r, d := Remove(l, i), DropAt(l, i);
    assert |r| == |d| && forall j :: 0 <= j < |r| ==> r[j].tid == d[j].tid;
    assert Before(d, a, b);
    DropAtBefore(l, i, a, b);
  }

  lemma InsertBefore(l: seq<Entry>, t: Tid, timeout: nat, a: Tid, b: Tid)
    requires Before(Insert(l, t, timeout), a, b) && a != t && b != t
    ensures Before(l, a, b)
  {
    InsertKeepsOrder(l, t, timeout);
    var r := Insert(l, t, timeout);
    var p := InsertPos(l, timeout);
    var i, j :| 0 <= i < j < |r| && r[i].tid == a && r[j].tid == b;
    assert i != p && j != p;
    var i' := if i < p then i else i - 1;
    var j' := if j < p then j else j - 1;
    assert r[i].tid == l[i'].tid && r[j].tid == l[j'].tid;
    assert l[i'].tid == a && l[j'].tid == b && i' < j';
  }

  lemma InsertKeepsOthers(l: seq<Entry>, t: Tid, timeout: nat)
    requires !Has(l, t)
    ensures OthersKept(l, Insert(l, t, timeout), {t})
  {
    InsertRefines(l, t, timeout, 0);
    forall a: Tid, b: Tid | Before(Insert(l, t, timeout), a, b) && a != t && b != t
      ensures Before(l, a, b)
    {
      InsertBefore(l, t, timeout, a, b);
    }
  }

  lemma OthersKeptThen(l: seq<Entry>, m: seq<Entry>, n: seq<Entry>, x: set<Tid>)
    requires (OthersKept(l, m, {}) || OthersKept(l, m, x)) && OthersKept(m, n, x)
    ensures OthersKept(l, n, x)
  {
  }

  /** Everything due no later than the newcomer stays in front of it. */
  lemma InsertedLast(l: seq<Entry>, t: Tid, timeout: nat, a: Tid)
    requires Distinct(l) && a in Deadlines(l, 0) && Deadlines(l, 0)[a] <= timeout
    ensures Before(Insert(l, t, timeout), a, t)
  {
    DeadlinesDomain(l, 0);
    var j :| 0 <= j < |l| && l[j].tid == a;
    InsertBehindEqual(l, t, timeout, 0, j);
    InsertKeepsOrder(l, t, timeout);
    var r := Insert(l, t, timeout);
    assert r[j].tid == a && r[InsertPos(l, timeout)].tid == t;
  }

  lemma {:induction false} DeadlinesShift(l: seq<Entry>, base: nat, shift: nat)
    ensures Deadlines(l, base + shift).Keys == Deadlines(l, base).Keys
    ensures forall t :: t in Deadlines(l, base) ==> Deadlines(l, base + shift)[t] == Deadlines(l, base)[t] + shift
  {
    if l != [] {
      DeadlinesShift(l[1..], base + l[0].n, shift);
      assert base + shift + l[0].n == base + l[0].n + shift;
    }
  }
}
