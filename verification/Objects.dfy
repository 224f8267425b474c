/** The kernel's records: src/threads/thread.h and src/threads/synch.h.
    A lock keeps two wait queues, `waiters` and `semaphore.waiters`.  In the kernel they
    are linked through one list element of the waiting thread; here they are separate
    sequences of threads, and nothing is claimed about the shared links. */
module Objects {
  datatype Status = Running | Ready | Blocked | Dying

  class Thread {
    var status: Status
    var priority: int
    var basePriority: int
    var nice: int
    var recentCpu: int
    var wakeupTick: int
    var waitingLock: Lock?
    var locksHeld: seq<Lock>

    /** init_thread: a blocked thread that waits for nothing and holds nothing. */
    constructor (priority: int, nice: int, recentCpu: int)
      ensures status == Blocked && this.priority == basePriority == priority
      ensures this.nice == nice && this.recentCpu == recentCpu && wakeupTick == 0
      ensures waitingLock == null && locksHeld == []
    {
      status := Blocked;
      this.priority, basePriority := priority, priority;
      this.nice, this.recentCpu := nice, recentCpu;
      wakeupTick := 0;
      waitingLock, locksHeld := null, [];
    }
  }

  class Semaphore {
    var value: nat
    var waiters: seq<Thread>

    constructor (value: nat)
      ensures this.value == value && waiters == []
    {
      this.value, waiters := value, [];
    }
  }

  class Lock {
    var holder: Thread?
    var waiters: seq<Thread>
    const semaphore: Semaphore

    constructor ()
      ensures holder == null && waiters == []
      ensures fresh(semaphore) && semaphore.value == 1 && semaphore.waiters == []
    {
      holder, waiters := null, [];
      semaphore := new Semaphore(1);
    }
  }

  /** A condition variable: each waiting thread blocks on a semaphore of its own. */
  class Condition {
    var waiters: seq<Semaphore>

    constructor ()
      ensures waiters == []
    {
      waiters := [];
    }
  }
}
