/** Lists of (thread, number) pairs.  A semaphore queue pairs a waiter with the tokens it still
    needs; the sleep list pairs a sleeper with its delta. */
module Entries {
  datatype Entry = Entry(tid: nat, n: nat)

  ghost predicate Has(l: seq<Entry>, t: nat) {
    exists i :: 0 <= i < |l| && l[i].tid == t
  }

  ghost predicate Distinct(l: seq<Entry>) {
    forall i, j :: 0 <= i < j < |l| ==> l[i].tid != l[j].tid
  }

  /** Position of thread t, or |l| when it is absent. */
  function IndexOf(l: seq<Entry>, t: nat): (i: nat)
    ensures i <= |l|
    ensures i < |l| <==> Has(l, t)
    ensures i < |l| ==> l[i].tid == t
    ensures forall j :: 0 <= j < i ==> l[j].tid != t
  {
    if l == [] then 0
    else if l[0].tid == t then 0
    else 1 + IndexOf(l[1..], t)
  }

  function DropAt(l: seq<Entry>, i: nat): (r: seq<Entry>)
    requires i < |l|
    ensures |r| == |l| - 1
    ensures forall j {:trigger r[j]} :: 0 <= j < i ==> r[j] == l[j]
    ensures forall j :: i <= j < |r| ==> r[j] == l[j + 1]
  {
    l[..i] + l[i + 1..]
  }

  lemma DropAtHas(l: seq<Entry>, i: nat)
    requires i < |l| && Distinct(l)
    ensures Distinct(DropAt(l, i))
    ensures forall t :: Has(DropAt(l, i), t) <==> Has(l, t) && t != l[i].tid
  {
    var r := DropAt(l, i);
    forall t | Has(l, t) && t != l[i].tid
      ensures Has(r, t)
    {
      var j :| 0 <= j < |l| && l[j].tid == t;
      assert r[if j < i then j else j - 1].tid == t;
    }
    forall t | Has(r, t)
      ensures Has(l, t) && t != l[i].tid
    {
      var j :| 0 <= j < |r| && r[j].tid == t;
      assert l[if j < i then j else j + 1].tid == t;
    }
  }

  lemma AppendHas(l: seq<Entry>, e: Entry)
    ensures forall t :: Has(l + [e], t) <==> Has(l, t) || t == e.tid
    ensures Distinct(l) && !Has(l, e.tid) ==> Distinct(l + [e])
  {
    var r := l + [e];
    assert r[|l|] == e;
    forall t | Has(l, t)
      ensures Has(r, t)
    {
      var j :| 0 <= j < |l| && l[j].tid == t;
      assert r[j].tid == t;
    }
  }

  ghost predicate Before(l: seq<Entry>, a: nat, b: nat) {
    exists i, j :: 0 <= i < j < |l| && l[i].tid == a && l[j].tid == b
  }

  lemma DropAtBefore(l: seq<Entry>, i: nat, a: nat, b: nat)
    requires i < |l| && Before(DropAt(l, i), a, b)
    ensures Before(l, a, b)
  {
    var r := DropAt(l, i);
    var p, q :| 0 <= p < q < |r| && r[p].tid == a && r[q].tid == b;
    assert l[if p < i then p else p + 1].tid == a;
    assert l[if q < i then q else q + 1].tid == b;
  }

  /** What stands in both queues stands in the same order. */
  lemma OrderBack(q: seq<Entry>, q': seq<Entry>, u: nat, v: nat)
    requires Distinct(q) && Before(q, u, v) && Has(q', u) && Has(q', v)
    requires Before(q', v, u) ==> Before(q, v, u)
    ensures Before(q', u, v)
  {
    BeforeDiffers(q, u, v);
    BeforeAsymmetric(q, u, v);
    var i :| 0 <= i < |q'| && q'[i].tid == u;
    var j :| 0 <= j < |q'| && q'[j].tid == v;
    assert j < i ==> Before(q', v, u);
    assert i < j ==> Before(q', u, v);
  }

  lemma BeforeDiffers(q: seq<Entry>, u: nat, v: nat)
    requires Distinct(q) && Before(q, u, v)
    ensures u != v
  {
  }

  lemma BeforeAsymmetric(q: seq<Entry>, u: nat, v: nat)
    requires Distinct(q) && Before(q, u, v)
    ensures !Before(q, v, u)
  {
  }
}
