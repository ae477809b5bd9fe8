/** src/main.cpp: the objects that exist when the master thread starts to run. */
module KernelBoot {
  import opened KernelTypes
  import opened KernelSpec
  import opened KernelObjects
  import opened KernelMatch
  import opened KernelCode

  /** Semaphores with the given numbers of tokens, numbered in order of creation. */
  method NewSemaphores(values: seq<uint64>) returns (sems: seq<Semaphore>)
    ensures |sems| == |values| && forall s: nat :: s < |sems| ==> fresh(sems[s]) && IsNew(sems[s], s, values[s])
  {
    sems := [];
    while |sems| < |values|
      invariant |sems| <= |values|
      invariant forall s: nat :: s < |sems| ==> fresh(sems[s]) && IsNew(sems[s], s, values[s])
    {
      var sem := new Semaphore(|sems|, values[|sems|]);
      sems := sems + [sem];
    }
  }

  ghost predicate IsNew(sem: Semaphore, s: Sid, v: uint64)
    reads sem`value, sem`active, sem`blockedHead, sem`blockedTail, sem`queue, sem.queue`nextSemBlocked
  {
    sem.semID == s && sem.value == v && sem.active && sem.queue == [] && sem.Valid()
  }

  const VALUES: seq<uint64> := [0, 0, 1, 0, 0, 0, 1, 0, BUFFER_LENGTH, 0, 1, BUFFER_LENGTH, 0, 1]

  lemma InitSems()
    ensures |Init().sems| == |VALUES|
    ensures forall s: nat :: s < |VALUES| ==>
      Init().sems[s].value == VALUES[s] && Init().sems[s].active && Init().sems[s].queue == []
  {
  }

  /** master and idle, idle counted as a child of master. */
  method BootThreads(sems: seq<Semaphore>, memory: seq<char>) returns (master: TCB, idle: TCB)
    requires |memory| == MSG_LEN + 1 && |sems| == |VALUES|
    ensures fresh(master) && fresh(idle)
    ensures ThreadsMatch([master, idle], Init().threads, sems)
  {
    master := new TCB(MASTER, null, DEFAULT_TIME_SLICE, sems[0], sems[1], sems[2], sems[3], memory);
    idle := new TCB(IDLE, master, DEFAULT_TIME_SLICE, sems[4], sems[5], sems[6], sems[7], memory);
    master.numOfActiveChildren := 1;
    var tcbs := [master, idle];
    assert Fixed(master, Init().threads[0], 0, tcbs, sems) && Matches(master, Init().threads[0], sems);
    assert Fixed(idle, Init().threads[1], 1, tcbs, sems) && Matches(idle, Init().threads[1], sems);
  }

  method BootRings(sems: seq<Semaphore>) returns (rings: Rings)
    requires |sems| == |VALUES|
    ensures fresh(rings.input) && fresh(rings.output) && fresh(rings.input.buffer) && fresh(rings.output.buffer)
    ensures RingsMatch(rings, Init().bufs, sems)
  {
    var input := new CharRing(sems[8], sems[9], sems[10]);
    var output := new CharRing(sems[11], sems[12], sems[13]);
    rings := Rings(input, output);
  }

  lemma BootStands(w: World, scheduler: ReadyQueue, sleep: SleepList)
    requires |w.tcbs| == 2 && ThreadsMatch(w.tcbs, Init().threads, w.sems)
    requires |w.sems| == |VALUES| && forall s: nat :: s < |w.sems| ==> IsNew(w.sems[s], s, VALUES[s])
    requires scheduler.Valid() && scheduler.queue == [] && sleep.Valid() && sleep.queue == []
    ensures Stands(w, scheduler, sleep, w.tcbs[1], w.tcbs[0], 0, Init())
  {
    InitSems();
    forall s: nat | s < |w.sems|
      ensures w.sems[s].semID == s && Within(w.sems[s].queue, w.tcbs) && QueueIs(w.sems[s], Init().sems[s])
    {
      assert IsNew(w.sems[s], s, VALUES[s]);
    }
  }

  method BootKernel(w: World) returns (os: Kernel)
    requires |w.tcbs| == 2 && ThreadsMatch(w.tcbs, Init().threads, w.sems)
    requires |w.sems| == |VALUES| && forall s: nat :: s < |w.sems| ==> IsNew(w.sems[s], s, VALUES[s])
    ensures fresh(os) && fresh(os.scheduler) && fresh(os.sleep) && os.Is(w, Init())
  {
    os := new Kernel(w.tcbs[1], w.tcbs[0]);
    BootStands(w, os.scheduler, os.sleep);
  }

  method BootWorld(memory: seq<char>) returns (w: World)
    requires |memory| == MSG_LEN + 1
    ensures |w.tcbs| == 2 && ThreadsMatch(w.tcbs, Init().threads, w.sems)
    ensures (forall i :: 0 <= i < |w.tcbs| ==> fresh(w.tcbs[i])) && (forall i :: 0 <= i < |w.sems| ==> fresh(w.sems[i]))
    ensures |w.sems| == |VALUES| && forall s: nat :: s < |w.sems| ==> IsNew(w.sems[s], s, VALUES[s])
  {
    var sems := NewSemaphores(VALUES);
    var master, idle := BootThreads(sems, memory);
    w := World([master, idle], sems);
  }

  /** The kernel's objects, and the state machine's first state. */
  method Boot(memory: seq<char>) returns (os: Kernel, w: World, rings: Rings)
    requires |memory| == MSG_LEN + 1
    ensures fresh(os) && fresh(os.scheduler) && fresh(os.sleep) && os.Is(w, Init())
    ensures (forall i :: 0 <= i < |w.tcbs| ==> fresh(w.tcbs[i])) && (forall i :: 0 <= i < |w.sems| ==> fresh(w.sems[i]))
    ensures fresh(rings.input) && fresh(rings.output) && fresh(rings.input.buffer) && fresh(rings.output.buffer)
    ensures RingsMatch(rings, Init().bufs, w.sems)
  {
    w := BootWorld(memory);
    rings := BootRings(w.sems);
    os := BootKernel(w);
  }
}
