/** The ready queue is fair: a thread with n others ahead of it is dispatched within 64 * (n + 1)
    ticks, whatever wakes, waits and creates happen meanwhile. */
module Starvation {
  import opened KernelTypes
  import opened KernelSpec
  import opened Effects
  import opened KernelSteps
  import opened StepEffects
  import opened KernelRuns

  ghost predicate SliceInv(k: State) {
    && (forall t: Tid :: t < |k.threads| ==> 1 <= Th(k, t).slice <= MAX_TIME_SLICE)
    && k.sliceTicks < Me(k).slice
  }

  // ---- the measure

  function SliceSum(k: State, ids: seq<Tid>): nat {
    if ids == [] then 0 else SliceSum(k, ids[..|ids| - 1]) + Th(k, ids[|ids| - 1]).slice
  }

  /** Ticks that may pass before the thread at position pos of the ready queue is dispatched. */
  ghost function Budget(k: State, pos: nat): int
    requires pos <= |k.ready|
  {
    Me(k).slice - k.sliceTicks + SliceSum(k, k.ready[..pos])
  }

  lemma {:induction false} SliceSumBound(k: State, ids: seq<Tid>)
    requires forall t: Tid :: t < |k.threads| ==> 1 <= Th(k, t).slice <= MAX_TIME_SLICE
    requires forall i :: 0 <= i < |ids| ==> ids[i] < |k.threads|
    ensures SliceSum(k, ids) <= MAX_TIME_SLICE * |ids|
  {
    if ids != [] { SliceSumBound(k, ids[..|ids| - 1]); }
  }

  lemma {:induction false} SliceSumKept(k: State, k': State, ids: seq<Tid>)
    requires SlicesKept(k, k')
    requires forall i :: 0 <= i < |ids| ==> ids[i] < |k.threads|
    ensures SliceSum(k', ids) == SliceSum(k, ids)
  {
    if ids != [] { SliceSumKept(k, k', ids[..|ids| - 1]); }
  }

  lemma {:induction false} SliceSumHead(k: State, ids: seq<Tid>)
    requires ids != []
    ensures SliceSum(k, ids) == Th(k, ids[0]).slice + SliceSum(k, ids[1..])
  {
    var n := |ids| - 1;
    if n > 0 {
      SliceSumHead(k, ids[..n]);
      assert ids[..n][1..] == ids[1..][..n - 1];
    } else {
      assert ids[..0] == [] && ids[1..] == [];
    }
  }

  ghost predicate InRange(k: State) {
    k.running < |k.threads| && forall t :: t in k.ready ==> t < |k.threads|
  }

  ghost predicate InLine(k: State, p: nat, t: Tid) {
    p < |k.ready| && k.ready[p] == t
  }

  ghost predicate SlicesOk(k: State) {
    forall t: Tid :: t < |k.threads| ==> 1 <= Th(k, t).slice <= MAX_TIME_SLICE
  }

  lemma SlicesStayOk(k: State, k': State)
    requires SlicesOk(k) && SlicesKept(k, k')
    ensures SlicesOk(k')
  {
    forall t: Tid | t < |k'.threads|
      ensures 1 <= Th(k', t).slice <= MAX_TIME_SLICE
    {
      if t < |k.threads| { assert 1 <= Th(k, t).slice <= MAX_TIME_SLICE; }
    }
  }

  /** Nobody was dispatched: the thread keeps its place and its budget. */
  lemma SameBudget(k: State, k': State, pos: nat)
    requires SameTurn(k, k') && InRange(k) && pos < |k.ready|
    ensures InLine(k', pos, k.ready[pos]) && Budget(k', pos) == Budget(k, pos)
  {
    var ahead := k.ready[..pos];
    assert forall i :: 0 <= i < |ahead| ==> ahead[i] in k.ready;
    SliceSumKept(k, k', ahead);
    assert k'.ready[..pos] == ahead;
  }

  /** The next thread was dispatched: the thread moves up, and only the slices ahead of it count. */
  lemma SwitchBudget(k: State, k': State, pos: nat)
    requires SlicesOk(k) && NextTurn(k, k') && InRange(k) && pos < |k.ready|
    ensures SliceInv(k')
    ensures || k'.running == k.ready[pos]
            || (exists p: nat :: InLine(k', p, k.ready[pos]) && Budget(k', p) <= SliceSum(k, k.ready[..pos]))
  {
    SlicesStayOk(k, k');
    var ahead := k.ready[..pos];
    assert forall i :: 0 <= i < |ahead| ==> ahead[i] in k.ready;
    SliceSumKept(k, k', ahead);
    if pos > 0 {
      SliceSumHead(k', ahead);
      assert k'.ready[..pos - 1] == ahead[1..];
      assert k.ready[1..][pos - 1] == k.ready[pos];
      assert InLine(k', pos - 1, k.ready[pos]);
    }
  }

  lemma FairBudget(k: State, k': State, pos: nat)
    requires SliceInv(k) && Fair(k, k') && InRange(k) && pos < |k.ready|
    ensures SliceInv(k')
    ensures || k'.running == k.ready[pos]
            || (exists p: nat :: InLine(k', p, k.ready[pos]) && Budget(k', p) <= Budget(k, pos))
  {
    if Stays(k, k') {
      SlicesStayOk(k, k');
      SameBudget(k, k', pos);
    } else {
      SwitchBudget(k, k', pos);
    }
  }

  /** One step: t is dispatched, or moves up; a tick costs at least one. */
  lemma StepBudget(k: State, step: Step, pos: nat)
    requires Good(k) && SliceInv(k) && Enabled(k, step) && pos < |k.ready|
    ensures var k' := Next(k, step).0;
      && SliceInv(k')
      && (|| k'.running == k.ready[pos]
          || (exists p: nat :: InLine(k', p, k.ready[pos])
                && Budget(k', p) + (if step.Tick? then 1 else 0) <= Budget(k, pos)))
  {
    ReadyInRange(k, {k.running});
    if step.Tick? {
      TickBudget(k, pos);
    } else {
      StepFair(k, step);
      FairBudget(k, Next(k, step).0, pos);
    }
  }

  lemma WakesDueSameTurn(k: State, k': State)
    requires WakesDue(k, k')
    ensures SameTurn(k, k')
  {
    forall u: Tid | u < |k.threads|
      ensures Th(k', u).slice == Th(k, u).slice && Th(k', u).finished == Th(k, u).finished
    {
      assert Th(k', u) == Th(k, u) || Expired(Th(k, u), Th(k', u));
    }
  }

  /** A tick before the scheduling decision costs one. */
  lemma CountBudget(k: State, pos: nat)
    requires Good(k) && SliceInv(k) && pos < |k.ready| && InRange(k)
    ensures var k1 := OnTick(SliceCounted(k));
      && Good(k1) && SlicesOk(k1) && k1.sliceTicks <= Me(k1).slice
      && InLine(k1, pos, k.ready[pos]) && Budget(k1, pos) + 1 == Budget(k, pos)
  {
    var k0 := SliceCounted(k);
    TicksGood(k, k.sliceTicks + 1);
    OnTickGood(k0);
    var k1 := OnTick(k0);
    WakesDueSameTurn(k0, k1);
    assert SlicesOk(k0);
    SlicesStayOk(k0, k1);
    SliceSumSame(k, k0, k.ready[..pos]);
    SameBudget(k0, k1, pos);
  }

  lemma TickBudget(k: State, pos: nat)
    requires Good(k) && SliceInv(k) && pos < |k.ready| && InRange(k)
    ensures var k' := TickStep(k);
      && SliceInv(k')
      && (|| k'.running == k.ready[pos]
          || (exists p: nat :: InLine(k', p, k.ready[pos]) && Budget(k', p) + 1 <= Budget(k, pos)))
  {
    CountBudget(k, pos);
    var k1 := OnTick(SliceCounted(k));
    if k1.sliceTicks >= Me(k1).slice {
      ReadyInRange(k1, {k1.running});
      SameUndisturbed(k1, k1);
      YieldSwitches(k1, k1, true);
      var k' := Yield(k1, true);
      SwitchBudget(k1, k', pos);
      assert TickStep(k) == k';
      if k'.running != k.ready[pos] {
        var p: nat :| InLine(k', p, k.ready[pos]) && Budget(k', p) <= SliceSum(k1, k1.ready[..pos]);
        assert InLine(k', p, k.ready[pos]) && Budget(k', p) + 1 <= Budget(k, pos);
      }
    } else {
      assert TickStep(k) == k1;
    }
  }

  lemma {:induction false} SliceSumSame(k: State, k': State, ids: seq<Tid>)
    requires k'.threads == k.threads
    ensures SliceSum(k', ids) == SliceSum(k, ids)
  {
    if ids != [] { SliceSumSame(k, k', ids[..|ids| - 1]); }
  }

  // ---- runs

  /** Along any run: as long as t is not dispatched it stays in line and every tick is paid for. */
  lemma {:induction false} WaitingInLine(r: Trace, pos: nat, j: nat) returns (p: nat)
    requires ValidTrace(r) && Good(r.states[0]) && SliceInv(r.states[0])
    requires pos < |r.states[0].ready| && j <= |r.steps|
    requires forall m: nat :: 1 <= m <= j ==> r.states[m].running != r.states[0].ready[pos]
    ensures Good(r.states[j]) && SliceInv(r.states[j])
    ensures InLine(r.states[j], p, r.states[0].ready[pos])
    ensures Budget(r.states[j], p) + Ticks(r.steps[..j]) <= Budget(r.states[0], pos)
  {
    if j == 0 {
      p := pos;
    } else {
      var q := WaitingInLine(r, pos, j - 1);
      assert StepOf(r, j - 1);
      NextGood(r.states[j - 1], r.steps[j - 1]);
      StepBudget(r.states[j - 1], r.steps[j - 1], q);
      p :| InLine(r.states[j], p, r.states[0].ready[pos])
           && Budget(r.states[j], p) + (if r.steps[j - 1].Tick? then 1 else 0) <= Budget(r.states[j - 1], q);
      assert r.steps[..j][..j - 1] == r.steps[..j - 1];
    }
  }

  /** No thread starves: with pos others ahead it runs before 64 * (pos + 1) ticks have passed. */
  lemma DispatchedInTime(r: Trace, pos: nat)
    requires ValidTrace(r) && Good(r.states[0]) && SliceInv(r.states[0])
    requires pos < |r.states[0].ready|
    requires Ticks(r.steps) >= MAX_TIME_SLICE * (pos + 1)
    ensures exists m: nat :: 1 <= m <= |r.steps| && r.states[m].running == r.states[0].ready[pos]
  {
    var k := r.states[0];
    if forall m: nat :: 1 <= m <= |r.steps| ==> r.states[m].running != k.ready[pos] {
      var p := WaitingInLine(r, pos, |r.steps|);
      assert r.steps[..|r.steps|] == r.steps;
      ReadyInRange(k, {k.running});
      assert forall i :: 0 <= i < pos ==> k.ready[..pos][i] in k.ready;
      SliceSumBound(k, k.ready[..pos]);
      assert false;
    }
  }
}
