/** The kernel state that the step functions of KernelSpec transform: threads and semaphores are
    named by their creation numbers (threadID, semID). */
module KernelTypes {
  import opened Entries

  const TWO64: nat := 0x1_0000_0000_0000_0000

  type uint64 = x: int | 0 <= x < 0x1_0000_0000_0000_0000

  /** Unsigned 64-bit arithmetic. */
  function Wrap(n: nat): (r: nat)
    ensures r < TWO64
    ensures n < TWO64 ==> r == n
    ensures TWO64 <= n < 2 * TWO64 ==> r == n - TWO64
  {
    n % TWO64
  }

  type Tid = nat
  type Sid = nat

  const MASTER: Tid := 0
  const IDLE: Tid := 1

  // h/syscall_c.h:21-34
  const ERR_THREAD_SELFJOIN: int := -3
  const ERR_SEM_DEAD: int := -1
  const ERR_SEM_WAITCLOSE: int := -4
  const ERR_SLEEP_ZERO: int := -1
  const TIMEOUT: int := -2

  const DEFAULT_TIME_SLICE: nat := 2
  const MAX_TIME_SLICE: nat := 32 * DEFAULT_TIME_SLICE
  const MSG_LEN: nat := 256
  const BUFFER_LENGTH: nat := 256

  datatype Option<+T> = None | Some(value: T)

  /** TCB::UnblockManner: which step took a waiter off its queue. */
  datatype Manner = Regular | OnClose | WaitTimeout

  /** What a suspended thread executes when it is dispatched again.  In the source this is the
      saved kernel stack; Run means that it returns straight to its own code. */
  datatype Cont = Run | Sleeping | Waiting(s: Sid, why: Why)

  datatype Why =
    | ForSem
    | ForJoin(target: Tid)
    | ForJoinAll
    | ForTimedJoinAll
    | ForSend(to: Tid, text: string)
    | ForReceive
    | ForPut(b: nat, c: char)
    | ForPutLock(b: nat, c: char)
    | ForGet(b: nat)
    | ForGetLock(b: nat)

  /** Waits that are also entered in the sleep list. */
  predicate Timed(w: Why) {
    w.ForSem? || w.ForJoin? || w.ForTimedJoinAll?
  }

  /** message is None until the first setMsg: the constructor leaves the buffer uninitialised. */
  datatype Thread = Thread(
    parent: Option<Tid>,
    finished: bool,
    exitStatus: int,
    children: nat,
    slice: nat,
    sleeps: bool,
    blockedAt: Option<Sid>,
    manner: Manner,
    semJoin: Sid,
    semJoinAll: Sid,
    semSend: Sid,
    semReceive: Sid,
    message: Option<string>,
    cont: Cont)

  /** Who holds the handle of a semaphore. */
  datatype Kind =
    | UserSem
    | JoinOf(t: Tid)
    | JoinAllOf(t: Tid)
    | SendOf(t: Tid)
    | ReceiveOf(t: Tid)
    | PutOf(b: nat)
    | GetOf(b: nat)
    | LockOf(b: nat)

  /** queue[i].n is the tokensNeeded field of waiter queue[i].tid. */
  datatype Sem = Sem(kind: Kind, active: bool, value: nat, queue: seq<Entry>)

  datatype Buffer = Buffer(data: seq<char>, posW: nat, posR: nat, semPut: Sid, semGet: Sid, mutex: Sid)

  /** sleepers[i].n is the timeSleepRelative field of sleeper sleepers[i].tid. */
  datatype State = State(
    threads: seq<Thread>,
    sems: seq<Sem>,
    bufs: seq<Buffer>,
    running: Tid,
    sliceTicks: nat,
    ready: seq<Tid>,
    sleepers: seq<Entry>)

  /** setMsg: the text before the NUL, cut to 256 characters. */
  function Truncate(text: string): (r: string)
    ensures r <= text && |r| == if |text| <= 256 then |text| else 256
  {
    if |text| <= MSG_LEN then text else text[..MSG_LEN]
  }
}
