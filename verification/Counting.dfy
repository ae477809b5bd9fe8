/** Counting threads: the live children of a parent, and the threads that were granted a token but
    have not run since. */
module Counting {
  import opened KernelTypes

  ghost predicate IsLiveChild(th: Thread, p: Tid) {
    th.parent == Some(p) && !th.finished
  }

  ghost function Live(ts: seq<Thread>, p: Tid): nat {
    if ts == [] then 0
    else Live(ts[..|ts| - 1], p) + if IsLiveChild(ts[|ts| - 1], p) then 1 else 0
  }

  lemma {:induction false} LiveSame(a: seq<Thread>, b: seq<Thread>, p: Tid)
    requires |a| == |b|
    requires forall u :: 0 <= u < |a| ==> IsLiveChild(a[u], p) == IsLiveChild(b[u], p)
    ensures Live(a, p) == Live(b, p)
  {
    if a != [] {
      LiveSame(a[..|a| - 1], b[..|b| - 1], p);
    }
  }

  lemma {:induction false} LiveUpdate(ts: seq<Thread>, u: Tid, th: Thread, p: Tid)
    requires u < |ts|
    ensures Live(ts[u := th], p) + (if IsLiveChild(ts[u], p) then 1 else 0)
         == Live(ts, p) + if IsLiveChild(th, p) then 1 else 0
  {
    var n := |ts| - 1;
    if u == n {
      assert ts[u := th][..n] == ts[..n];
    } else {
      assert ts[u := th][..n] == ts[..n][u := th];
      LiveUpdate(ts[..n], u, th, p);
    }
  }

  lemma {:induction false} LiveNone(ts: seq<Thread>, p: Tid)
    requires forall u :: 0 <= u < |ts| ==> !IsLiveChild(ts[u], p)
    ensures Live(ts, p) == 0
  {
    if ts != [] {
      LiveNone(ts[..|ts| - 1], p);
    }
  }

  /** Zero live children means that every child has finished. */
  lemma {:induction false} LiveZero(ts: seq<Thread>, p: Tid, u: Tid)
    requires Live(ts, p) == 0 && u < |ts|
    ensures !IsLiveChild(ts[u], p)
  {
    if u < |ts| - 1 {
      LiveZero(ts[..|ts| - 1], p, u);
    }
  }

  /** Released from the queue of s and not yet running again. */
  ghost predicate IsGranted(th: Thread, s: Sid) {
    th.cont.Waiting? && th.cont.s == s && th.blockedAt.None?
  }

  ghost function Granted(ts: seq<Thread>, s: Sid): nat {
    if ts == [] then 0
    else Granted(ts[..|ts| - 1], s) + if IsGranted(ts[|ts| - 1], s) then 1 else 0
  }

  lemma {:induction false} GrantedSame(a: seq<Thread>, b: seq<Thread>, s: Sid)
    requires |a| == |b|
    requires forall u :: 0 <= u < |a| ==> IsGranted(a[u], s) == IsGranted(b[u], s)
    ensures Granted(a, s) == Granted(b, s)
  {
    if a != [] {
      GrantedSame(a[..|a| - 1], b[..|b| - 1], s);
    }
  }

  lemma {:induction false} GrantedUpdate(ts: seq<Thread>, u: Tid, th: Thread, s: Sid)
    requires u < |ts|
    ensures Granted(ts[u := th], s) + (if IsGranted(ts[u], s) then 1 else 0)
         == Granted(ts, s) + if IsGranted(th, s) then 1 else 0
  {
    var n := |ts| - 1;
    if u == n {
      assert ts[u := th][..n] == ts[..n];
    } else {
      assert ts[u := th][..n] == ts[..n][u := th];
      GrantedUpdate(ts[..n], u, th, s);
    }
  }

  lemma {:induction false} GrantedNone(ts: seq<Thread>, s: Sid)
    requires forall u :: 0 <= u < |ts| ==> !IsGranted(ts[u], s)
    ensures Granted(ts, s) == 0
  {
    if ts != [] {
      GrantedNone(ts[..|ts| - 1], s);
    }
  }
}
