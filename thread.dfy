/** The thread record of include/threads/thread.h: its life-cycle states,
    identifier and priority constants, the scheduling fields, and the rule
    that lets one list link serve both the run queue and the semaphore wait
    lists. */
module Thread {
  import opened Wrappers

  /** `enum thread_status`: every thread is in exactly one of these. */
  datatype Status = Running | Ready | Blocked | Dying

  /** `tid_t`. */
  type Tid = int

  /** `TID_ERROR`: what `thread_create` returns when it fails. */
  const TidError: Tid := -1

  /** `PRI_MIN`, `PRI_DEFAULT`, `PRI_MAX`. */
  const PriMin := 0
  const PriDefault := 31
  const PriMax := 63

  /** A priority: PRI_MIN..PRI_MAX, with PRI_DEFAULT one of them. */
  type Priority = p: int | PriMin <= p <= PriMax witness PriDefault

  /** `NICE_DEFAULT`, `RECENT_CPU_DEFAULT`, `LOAD_AVG_DEFAULT`. */
  const NiceDefault := 0
  const RecentCpuDefault := 0
  const LoadAvgDefault := 0

  /** `THREAD_MAGIC`, the guard value threads/thread.c stores in `magic`. */
  const ThreadMagic := 0xcd6abf4b

  /** Longest thread name: `char name[16]` holds 15 characters and a NUL. */
  const NameMax := 15

  /** A lock, known by identity (`struct lock *`). */
  type LockId = nat

  /** A semaphore, known by identity. */
  type SemaId = nat

  /** Where the shared `elem` link is: on no list, on the run queue, or on
      the wait list of a semaphore. */
  datatype ElemLink = Unlinked | RunQueue | SemaWaiters(sema: SemaId)

  /** The scheduling fields of `struct thread`. `donations` is the list of
      threads that donated their priority to this one; `donationElem` is the
      holder whose `donations` list this thread's `donation_elem` is on. */
  datatype Thread = Thread(
    tid: Tid,
    status: Status,
    name: string,
    priority: Priority,
    wakeupTick: int,
    elem: ElemLink,
    initPriority: Priority,
    waitOnLock: Option<LockId>,
    donations: seq<Tid>,
    donationElem: Option<Tid>,
    nice: int,
    recentCpu: int,
    magic: int)

  /** A well-formed thread record: the guard is intact (what
      `thread_current` ASSERTs to catch a stack overflow), the name fits,
      and `elem` is on the run queue only while READY and on a semaphore's
      wait list only while BLOCKED. */
  predicate Valid(t: Thread) {
    && t.magic == ThreadMagic
    && |t.name| <= NameMax
    && (t.elem == RunQueue ==> t.status == Ready)
    && (t.elem.SemaWaiters? ==> t.status == Blocked)
  }

  /** The threads whose `elem` is on the run queue. */
  function RunQueueOf(ts: seq<Thread>): (q: seq<Thread>)
    ensures forall t :: t in q <==> t in ts && t.elem == RunQueue
  {
    if ts == [] then []
    else (if ts[0].elem == RunQueue then [ts[0]] else []) + RunQueueOf(ts[1..])
  }

  /** The threads whose `elem` is on the wait list of semaphore `s`. */
  function WaitersOf(ts: seq<Thread>, s: SemaId): (w: seq<Thread>)
    ensures forall t :: t in w <==> t in ts && t.elem == SemaWaiters(s)
  {
    if ts == [] then []
    else (if ts[0].elem == SemaWaiters(s) then [ts[0]] else []) + WaitersOf(ts[1..], s)
  }

  /** Among well-formed threads, everything on the run queue is READY,
      everything on a semaphore's wait list is BLOCKED, and so the two lists
      are told apart by status alone, and a RUNNING or DYING thread is on
      neither. (That no thread is on both lists at once follows already from
      `elem` being a single `ElemLink`; the status rule is what `Valid`
      adds.) */
  lemma ElemListsDisjoint(ts: seq<Thread>, s: SemaId)
    requires forall t | t in ts :: Valid(t)
    ensures forall t | t in RunQueueOf(ts) :: t.status == Ready
    ensures forall t | t in WaitersOf(ts, s) :: t.status == Blocked
    ensures forall t | t in ts && (t.status == Running || t.status == Dying) ::
      t !in RunQueueOf(ts) && t !in WaitersOf(ts, s)
  {
  }
}
