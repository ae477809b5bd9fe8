/** send and receive: a mailbox holds one message.  Sends and receives of one target alternate, and
    every receive returns the text of the send before it. */
module Mailbox {
  import opened KernelTypes
  import opened KernelSpec
  import opened PlaceInvariant
  import opened Effects
  import opened LinkInvariant
  import opened KernelSteps
  import opened Families
  import opened Counting
  import opened Levels

  datatype MailEvent = Sent(text: string) | Received(got: Option<string>)

  /** What a step writes into, or reads from, the mailbox of thread t. */
  function MailEvents(k: State, step: Step, t: Tid): seq<MailEvent> {
    var r := Next(k, step).1;
    match step
    case Tick => []
    case Sys(CallSend(to, text)) => if to == t && t != k.running && !r.Suspended? then [Sent(text)] else []
    case Sys(CallReceive) => if k.running == t && r.Text? then [Received(r.text)] else []
    case Sys(_) => []
    case Resume =>
      if !Me(k).cont.Waiting? then []
      else
        match Me(k).cont.why
        case ForSend(to, text) => if to == t then [Sent(text)] else []
        case ForReceive => if k.running == t && r.Text? then [Received(r.text)] else []
        case _ => []
  }

  /** Sent, received, sent, received ...: each receive returns what fits the box of the text just sent. */
  ghost predicate Paired(log: seq<MailEvent>) {
    forall i: nat :: i < |log| ==> PairedAt(log, i)
  }

  ghost predicate PairedAt(log: seq<MailEvent>, i: nat)
    requires i < |log|
  {
    if i % 2 == 0 then log[i].Sent? else log[i - 1].Sent? && log[i] == Received(Some(Truncate(log[i - 1].text)))
  }

  /** The text that waits to be received. */
  ghost function Pending(log: seq<MailEvent>): Option<string> {
    if log != [] && log[|log| - 1].Sent? then Some(Truncate(log[|log| - 1].text)) else None
  }

  /** The mailbox of one thread, with the tokens granted to threads that have not run since. */
  datatype Box = Box(send: Sem, receive: Sem, toSend: nat, toReceive: nat, message: Option<string>)

  ghost function BoxOf(k: State, t: Tid): Box {
    Box(Sm(k, Th(k, t).semSend), Sm(k, Th(k, t).semReceive),
        Granted(k.threads, Th(k, t).semSend), Granted(k.threads, Th(k, t).semReceive), Th(k, t).message)
  }

  /** One token in all, `hand` of which the running thread is carrying over. */
  ghost predicate BoxOk(x: Box, hand: nat) {
    && x.send.active && x.receive.active
    && OneTokenQueue(x.send) && OneTokenQueue(x.receive)
    && x.send.value + x.toSend + x.receive.value + x.toReceive + hand == 1
  }

  /** The token is on the receiving side exactly when a message waits to be received. */
  ghost predicate LogOk(x: Box, log: seq<MailEvent>) {
    && Paired(log)
    && (|log| % 2 == 1 <==> x.receive.value + x.toReceive == 1)
    && (|log| % 2 == 1 ==> x.message == Pending(log))
  }

  lemma BoxApart(k: State, k': State, t: Tid)
    requires Linked(k) && Linked(k') && Apart(k, k', Mail) && t < |k.threads|
    ensures BoxOf(k', t) == BoxOf(k, t)
  {
    assert OwnsSems(k, t);
    assert ThreadApart(Th(k, t), Th(k', t), Mail);
    GrantedApart(k, k', Mail, Th(k, t).semSend);
    GrantedApart(k, k', Mail, Th(k, t).semReceive);
  }

  lemma BoxWakes(k: State, k': State, s: Sid, m: Manner, t: Tid)
    requires Linked(k) && WakesAt(k, k', s, m) && t < |k.threads|
    requires s != Th(k, t).semSend && s != Th(k, t).semReceive
    ensures BoxOf(k', t) == BoxOf(k, t)
  {
    assert Th(k', t) == Th(k, t) || (Th(k, t).blockedAt == Some(s) && Woken(Th(k, t), Th(k', t), m));
    GrantedElsewhere(k, k', s, m, Th(k, t).semSend);
    GrantedElsewhere(k, k', s, m, Th(k, t).semReceive);
  }

  /** A wait at another mailbox. */
  lemma BoxWaitElsewhere(k: State, s: Sid, why: Why, t: Tid)
    requires Busy(k) && t < |k.threads| && s != Th(k, t).semSend && s != Th(k, t).semReceive
    ensures BoxOf(Wait(k, s, 1, why).0, t) == BoxOf(k, t)
  {
    WaitEffect(k, s, 1, why);
    RunningFree(k);
    var k' := Wait(k, s, 1, why).0;
    if Sm(k, s).active {
      GrantedUpdate(k.threads, k.running, Th(k', k.running), Th(k, t).semSend);
      GrantedUpdate(k.threads, k.running, Th(k', k.running), Th(k, t).semReceive);
    }
  }

  lemma OtherBox(k: State, t: Tid, u: Tid)
    requires Linked(k) && t < |k.threads| && u < |k.threads| && t != u
    ensures Th(k, t).semSend != Th(k, u).semSend && Th(k, t).semReceive != Th(k, u).semReceive
    ensures Th(k, t).semSend != Th(k, u).semReceive
  {
    assert OwnsSems(k, t) && OwnsSems(k, u);
  }

  // ---- into and out of the box

  lemma SendBodyElsewhere(k: State, to: Tid, text: string, t: Tid)
    requires Busy(k) && to < |k.threads| && t < |k.threads| && to != t
    ensures BoxOf(SendBody(k, to, text).0, t) == BoxOf(k, t)
  {
    OtherBox(k, t, to);
    OtherBox(k, to, t);
    var th := Th(k, to).(message := Some(Truncate(text)));
    FieldBusy(k, to, th);
    var k1 := SetTh(k, to, th);
    GrantedUpdate(k.threads, to, th, Th(k, t).semSend);
    GrantedUpdate(k.threads, to, th, Th(k, t).semReceive);
    SignalWakes(k1, th.semReceive, 1, {k.running});
    BoxWakes(k1, SendBody(k, to, text).0, th.semReceive, Regular, t);
  }

  lemma PairedSend(log: seq<MailEvent>, text: string)
    requires Paired(log) && |log| % 2 == 0
    ensures Paired(log + [Sent(text)]) && Pending(log + [Sent(text)]) == Some(Truncate(text))
  {
    var r := log + [Sent(text)];
    forall i: nat | i < |r|
      ensures PairedAt(r, i)
    {
      if i < |log| { assert PairedAt(log, i); }
    }
  }

  lemma PairedReceive(log: seq<MailEvent>)
    requires Paired(log) && |log| % 2 == 1
    ensures Pending(log).Some?
    ensures Paired(log + [Received(Pending(log))])
  {
    var r := log + [Received(Pending(log))];
    assert PairedAt(log, |log| - 1);
    forall i: nat | i < |r|
      ensures PairedAt(r, i)
    {
      if i < |log| { assert PairedAt(log, i); }
    }
  }

  lemma BoxSet(k: State, t: Tid, text: string)
    requires Busy(k) && t < |k.threads|
    ensures var th := Th(k, t).(message := Some(text));
      var k1 := SetTh(k, t, th);
      && Busy(k1)
      && BoxOf(k1, t) == BoxOf(k, t).(message := Some(text))
  {
    var th := Th(k, t).(message := Some(text));
    FieldBusy(k, t, th);
    GrantedUpdate(k.threads, t, th, th.semSend);
    GrantedUpdate(k.threads, t, th, th.semReceive);
  }

  /** The token arrives on the receiving side. */
  lemma BoxSignalReceive(k: State, t: Tid)
    requires Busy(k) && t < |k.threads|
    requires BoxOk(BoxOf(k, t), 1)
    ensures var k' := Signal(k, Th(k, t).semReceive, 1).0;
      && BoxOk(BoxOf(k', t), 0)
      && BoxOf(k', t).receive.value + BoxOf(k', t).toReceive == 1
      && BoxOf(k', t).message == Th(k, t).message
  {
    assert OwnsSems(k, t);
    var s := Th(k, t).semReceive;
    assert Level(k, s) == 0;
    LevelSignal(k, s);
    SignalWakes(k, s, 1, {k.running});
    var k' := Signal(k, s, 1).0;
    GrantedElsewhere(k, k', s, Regular, Th(k, t).semSend);
    assert Th(k', t) == Th(k, t) || (Th(k, t).blockedAt == Some(s) && Woken(Th(k, t), Th(k', t), Regular));
  }

  /** The sender holds the token: it writes the message and passes the token on. */
  lemma SendInto(k: State, t: Tid, text: string, log: seq<MailEvent>)
    requires Busy(k) && t < |k.threads|
    requires BoxOk(BoxOf(k, t), 1) && Paired(log) && |log| % 2 == 0
    ensures BoxOk(BoxOf(SendBody(k, t, text).0, t), 0)
    ensures LogOk(BoxOf(SendBody(k, t, text).0, t), log + [Sent(text)])
  {
    BoxSet(k, t, Truncate(text));
    BoxSignalReceive(SetTh(k, t, Th(k, t).(message := Some(Truncate(text)))), t);
    PairedSend(log, text);
  }

  /** The receiver holds the token: it takes the message and hands the token back. */
  lemma ReceiveFrom(k: State, log: seq<MailEvent>)
    requires Busy(k)
    requires BoxOk(BoxOf(k, k.running), 1) && Paired(log) && |log| % 2 == 1
    requires Me(k).message == Pending(log)
    ensures BoxOk(BoxOf(ReceiveBody(k).0, k.running), 0)
    ensures ReceiveBody(k).1 == Text(Pending(log))
    ensures LogOk(BoxOf(ReceiveBody(k).0, k.running), log + [Received(Pending(log))])
  {
    var t := k.running;
    assert OwnsSems(k, t);
    var s := Me(k).semSend;
    assert Level(k, s) == 0;
    LevelSignal(k, s);
    SignalWakes(k, s, 1, {t});
    SignalBusy(k, s, 1);
    var k2 := ReceiveBody(k).0;
    GrantedElsewhere(k, k2, s, Regular, Me(k).semReceive);
    PairedReceive(log);
  }

  // ---- steps

  /** The mailbox protocol holds of thread t, and log is its history. */
  ghost predicate BoxInv(k: State, t: Tid, log: seq<MailEvent>) {
    BoxOk(BoxOf(k, t), 0) && LogOk(BoxOf(k, t), log)
  }

  /** A send to t. */
  lemma MailSendOwn(k: State, text: string, t: Tid, log: seq<MailEvent>)
    requires Busy(k) && t < |k.threads| && t != IDLE && '\0' !in text && t != k.running && BoxInv(k, t, log)
    ensures var (k', r) := Send(k, t, text);
      BoxInv(k', t, if r.Suspended? then log else log + [Sent(text)])
  {
    assert OwnsSems(k, t);
    var s := Th(k, t).semSend;
    var (k1, w) := Wait(k, s, 1, ForSend(t, text));
    WaitBusy(k, s, 1, ForSend(t, text));
    LevelWait(k, s, ForSend(t, text));
    assert OwnsSems(k1, t) && SameLinks(Th(k, t), Th(k1, t));
    if w.Some? { SendInto(k1, t, text, log); }
  }

  /** A send to another thread. */
  lemma MailSendElsewhere(k: State, to: Tid, text: string, t: Tid)
    requires Busy(k) && to < |k.threads| && to != IDLE && '\0' !in text && to != k.running && t < |k.threads| && to != t
    ensures BoxOf(Send(k, to, text).0, t) == BoxOf(k, t)
  {
    assert OwnsSems(k, to);
    var s := Th(k, to).semSend;
    var (k1, w) := Wait(k, s, 1, ForSend(to, text));
    WaitBusy(k, s, 1, ForSend(to, text));
    OtherBox(k, to, t);
    OtherBox(k, t, to);
    BoxWaitElsewhere(k, s, ForSend(to, text), t);
    if w.Some? { SendBodyElsewhere(k1, to, text, t); }
  }

  lemma MailSend(k: State, to: Tid, text: string, t: Tid, log: seq<MailEvent>)
    requires Busy(k) && to < |k.threads| && to != IDLE && '\0' !in text && t < |k.threads| && BoxInv(k, t, log)
    ensures BoxInv(Send(k, to, text).0, t, log + MailEvents(k, Sys(CallSend(to, text)), t))
  {
    assert log + [] == log;
    if to != k.running {
      if to == t { MailSendOwn(k, text, t, log); } else { MailSendElsewhere(k, to, text, t); }
    }
  }

  /** The receiver either takes the token, and a message waits, or queues up. */
  lemma ReceiveTakes(k: State, log: seq<MailEvent>)
    requires Busy(k) && BoxInv(k, k.running, log)
    ensures var t := k.running;
      var (k1, w) := Wait(k, Me(k).semReceive, 1, ForReceive);
      && (w.None? ==> BoxInv(k1, t, log))
      && (w.Some? ==>
        Busy(k1) && k1.running == t && BoxOk(BoxOf(k1, t), 1) && Me(k1).message == Pending(log) && |log| % 2 == 1)
  {
    var t := k.running;
    assert OwnsSems(k, t);
    var s := Me(k).semReceive;
    var (k1, w) := Wait(k, s, 1, ForReceive);
    WaitBusy(k, s, 1, ForReceive);
    LevelWait(k, s, ForReceive);
    assert SameLinks(Th(k, t), Th(k1, t));
  }

  lemma MailReceiveOwn(k: State, log: seq<MailEvent>)
    requires Busy(k) && BoxInv(k, k.running, log)
    ensures BoxInv(Receive(k).0, k.running, log + MailEvents(k, Sys(CallReceive), k.running))
  {
    var (k1, w) := Wait(k, Me(k).semReceive, 1, ForReceive);
    ReceiveTakes(k, log);
    assert log + [] == log;
    if w.Some? { ReceiveFrom(k1, log); }
  }

  lemma MailReceiveElsewhere(k: State, t: Tid)
    requires Busy(k) && t < |k.threads| && t != k.running
    ensures BoxOf(Receive(k).0, t) == BoxOf(k, t)
  {
    var me := k.running;
    assert OwnsSems(k, me);
    var s := Me(k).semReceive;
    var (k1, w) := Wait(k, s, 1, ForReceive);
    WaitBusy(k, s, 1, ForReceive);
    OtherBox(k, me, t);
    OtherBox(k, t, me);
    BoxWaitElsewhere(k, s, ForReceive, t);
    if w.Some? {
      assert SameLinks(Th(k, me), Th(k1, me)) && SameLinks(Th(k, t), Th(k1, t));
      SignalWakes(k1, Me(k1).semSend, 1, {me});
      BoxWakes(k1, Receive(k).0, Me(k1).semSend, Regular, t);
    }
  }

  lemma MailReceive(k: State, t: Tid, log: seq<MailEvent>)
    requires Busy(k) && t < |k.threads| && BoxInv(k, t, log)
    ensures BoxInv(Receive(k).0, t, log + MailEvents(k, Sys(CallReceive), t))
  {
    if k.running == t {
      MailReceiveOwn(k, log);
    } else {
      MailReceiveElsewhere(k, t);
      assert log + [] == log;
    }
  }

  /** Dispatch of a thread whose continuation is not about mail, or about another box. */
  lemma WokenElsewhere(k: State, t: Tid)
    requires Good(k) && Me(k).cont.Waiting? && t < |k.threads|
    requires Me(k).cont.s != Th(k, t).semSend && Me(k).cont.s != Th(k, t).semReceive
    ensures BoxOf(WithCont(k, Run), t) == BoxOf(k, t)
  {
    RunningFree(k);
    LevelWoken(k, Th(k, t).semSend);
    LevelWoken(k, Th(k, t).semReceive);
  }

  lemma MailResumeSend(k: State, t: Tid, log: seq<MailEvent>)
    requires Good(k) && Me(k).cont.Waiting? && Me(k).cont.why.ForSend? && t < |k.threads| && BoxInv(k, t, log)
    ensures BoxInv(ResumeStep(k).0, t, log + MailEvents(k, Resume, t))
  {
    RunningFree(k);
    WokenBusy(k);
    assert ContOk(k, k.running);
    var ForSend(to, text) := Me(k).cont.why;
    var k1 := WithCont(k, Run);
    assert Owned(k, Me(k).cont.s);
    assert OwnsSems(k, to);
    if to == t {
      LevelWoken(k, Th(k, t).semSend);
      LevelWoken(k, Th(k, t).semReceive);
      SendInto(k1, t, text, log);
    } else {
      OtherBox(k, to, t);
      OtherBox(k, t, to);
      WokenElsewhere(k, t);
      SendBodyElsewhere(k1, to, text, t);
      assert log + [] == log;
    }
  }

  lemma MailResumeReceive(k: State, t: Tid, log: seq<MailEvent>)
    requires Good(k) && Me(k).cont.Waiting? && Me(k).cont.why.ForReceive? && t < |k.threads| && BoxInv(k, t, log)
    ensures BoxInv(ResumeStep(k).0, t, log + MailEvents(k, Resume, t))
  {
    if k.running == t {
      var me := k.running;
      RunningFree(k);
      WokenBusy(k);
      assert ContOk(k, me);
      assert OwnsSems(k, me);
      assert Owned(k, Me(k).cont.s);
      LevelWoken(k, Th(k, t).semSend);
      LevelWoken(k, Th(k, t).semReceive);
      ReceiveFrom(WithCont(k, Run), log);
    } else {
      ReceiveResumedElsewhere(k, t);
      assert log + [] == log;
    }
  }

  /** Another thread's receive. */
  lemma ReceiveResumedElsewhere(k: State, t: Tid)
    requires Good(k) && Me(k).cont.Waiting? && Me(k).cont.why.ForReceive? && t < |k.threads| && t != k.running
    ensures BoxOf(ResumeStep(k).0, t) == BoxOf(k, t)
  {
    var me := k.running;
    RunningFree(k);
    WokenBusy(k);
    assert ContOk(k, me);
    assert OwnsSems(k, me);
    assert Owned(k, Me(k).cont.s);
    var k1 := WithCont(k, Run);
    OtherBox(k, me, t);
    OtherBox(k, t, me);
    WokenElsewhere(k, t);
    SignalWakes(k1, Me(k1).semSend, 1, {me});
    BoxWakes(k1, ResumeStep(k).0, Me(k1).semSend, Regular, t);
  }

  lemma MailResume(k: State, t: Tid, log: seq<MailEvent>)
    requires Good(k) && !Me(k).cont.Run? && t < |k.threads| && BoxInv(k, t, log)
    ensures BoxInv(ResumeStep(k).0, t, log + MailEvents(k, Resume, t))
  {
    if ContFamily(Me(k).cont) == Mail {
      if Me(k).cont.why.ForSend? {
        MailResumeSend(k, t, log);
      } else {
        MailResumeReceive(k, t, log);
      }
    } else {
      ResumeGood(k);
      ResumeApart(k, Mail);
      BoxApart(k, ResumeStep(k).0, t);
      assert log + [] == log;
    }
  }

  /** The finishing thread closes its own box only. */
  lemma BoxCloseMail(k: State, t: Tid)
    requires Busy(k) && t < |k.threads| && t != k.running
    ensures BoxOf(CloseMail(k), t) == BoxOf(k, t)
  {
    var me := k.running;
    OtherBox(k, me, t);
    OtherBox(k, t, me);
    CloseBusy(k, Me(k).semSend);
    CloseWakes(k, Me(k).semSend, {me});
    var a := Close(k, Me(k).semSend).0;
    BoxWakes(k, a, Me(k).semSend, OnClose, t);
    assert SameLinks(Th(k, t), Th(a, t));
    CloseBusy(a, Me(k).semReceive);
    CloseWakes(a, Me(k).semReceive, {me});
    BoxWakes(a, CloseMail(k), Me(k).semReceive, OnClose, t);
  }

  lemma BoxRetire(k: State, status: int, t: Tid)
    requires Busy(k) && t < |k.threads| && t != k.running
    ensures BoxOf(Retire(k, status), t) == BoxOf(k, t)
  {
    GrantedRetire(k, status, Th(k, t).semSend);
    GrantedRetire(k, status, Th(k, t).semReceive);
    RetireCore(k, status);
  }

  lemma MailFinish(k: State, status: int, t: Tid)
    requires Busy(k) && t < |k.threads| && t != k.running
    ensures BoxOf(Finish(k, status), t) == BoxOf(k, t)
  {
    FinishParts(k);
    BoxCloseMail(k, t);
    var k1 := CloseMail(k);
    FinishTailApart(k1, Mail);
    var k3 := NotifyParent(CloseJoin(k1));
    var k4 := Close(k3, Me(k3).semJoinAll).0;
    BoxApart(k1, k4, t);
    BoxRetire(k4, status, t);
    BoxSameLists(Retire(k4, status), Finish(k, status), t);
  }

  lemma BoxSameLists(k: State, k': State, t: Tid)
    requires k'.threads == k.threads && k'.sems == k.sems
    ensures BoxOf(k', t) == BoxOf(k, t)
  {
  }

  lemma MailCreate(k: State, slice: nat, t: Tid)
    requires Busy(k) && t <= |k.threads|
    ensures t < |k.threads| ==> BoxOf(Create(k, slice), t) == BoxOf(k, t)
    ensures t == |k.threads| ==> BoxInv(Create(k, slice), t, [])
  {
    CreateEffect(k, slice);
    RunningFree(k);
    var k' := Create(k, slice);
    assert t < |k.threads| ==> OwnsSems(k, t);
    GrantedCreate(k, slice, Th(k', t).semSend);
    GrantedCreate(k, slice, Th(k', t).semReceive);
  }

  /** Every step keeps the mailbox protocol of every thread that lives on. */
  lemma NextMail(k: State, step: Step, t: Tid, log: seq<MailEvent>)
    requires Good(k) && Enabled(k, step) && t < |k.threads| && BoxInv(k, t, log)
    requires !Th(Next(k, step).0, t).finished
    ensures BoxInv(Next(k, step).0, t, log + MailEvents(k, step, t))
  {
    match step
    case Tick =>
      TickGood(k);
      TickApart(k, Mail);
      BoxApart(k, TickStep(k), t);
      assert log + [] == log;
    case Resume => MailResume(k, t, log);
    case Sys(call) =>
      if k.running == IDLE {
        YieldGood(k);
        assert BoxOf(Yield(k, true), t) == BoxOf(k, t);
        assert log + [] == log;
      } else {
        MailCall(k, call, t, log);
      }
  }

  lemma MailCall(k: State, call: Call, t: Tid, log: seq<MailEvent>)
    requires Busy(k) && CallOk(k, call) && t < |k.threads| && BoxInv(k, t, log)
    requires !Th(Syscall(k, call).0, t).finished
    ensures BoxInv(Syscall(k, call).0, t, log + MailEvents(k, Sys(call), t))
  {
    match call
    case CallSend(to, text) => MailSend(k, to, text, t, log);
    case CallReceive => MailReceive(k, t, log);
    case CallCreate(slice) =>
      MailCreate(k, slice, t);
      assert log + [] == log;
    case CallExit(status) =>
      FinishMarks(k, status);
      MailFinish(k, status, t);
      assert log + [] == log;
    case _ =>
      SyscallGood(k, call);
      CallApart(k, call, Mail);
      BoxApart(k, Syscall(k, call).0, t);
      assert log + [] == log;
  }

  lemma FinishMarks(k: State, status: int)
    requires Busy(k)
    ensures Th(Finish(k, status), k.running).finished
  {
    FinishParts(k);
    var k1 := NotifyParent(CloseJoin(CloseMail(k)));
    var k2 := Close(k1, Me(k1).semJoinAll).0;
    RetireCore(k2, status);
    assert Finish(k, status).threads == Retire(k2, status).threads;
  }
}
