/**
 * The mutex and semaphore of the signal-stack platform layer. Both are
 * placeholders: every operation succeeds at once and nothing blocks, which
 * is sound only because one OS thread runs all the logical threads.
 */
module PlaceholderSync {

  /** `MacOSMutex`. */
  class Mutex {
    constructor ()
    {
    }

    /** `Lock`: always reports success. */
    method Lock() returns (r: int)
      ensures r == 0
    {
      r := 0;
    }

    /** `Unlock`: always reports success. */
    method Unlock() returns (r: int)
      ensures r == 0
    {
      r := 0;
    }
  }

  /** `OS::CreateMutex`. */
  method CreateMutex() returns (m: Mutex)
    ensures fresh(m)
  {
    m := new Mutex();
  }

  /** The mutex gives no exclusion: a second `Lock` without `Unlock` also succeeds. */
  method LockTwice(m: Mutex) returns (first: int, second: int)
    ensures first == 0 && second == 0
  {
    first := m.Lock();
    second := m.Lock();
  }

  /** `MacOSSemaphore`; the initial count is ignored. */
  class Semaphore {
    constructor (count: int)
    {
    }

    /** `Wait()`: returns at once. */
    method Wait()
    {
    }

    /** `Wait(timeout)`: always reports that the semaphore was acquired. */
    method WaitTimeout(timeout: int) returns (acquired: bool)
      ensures acquired
    {
      acquired := true;
    }

    /** `Signal()`: does nothing. */
    method Signal()
    {
    }
  }

  /** `OS::CreateSemaphore`. */
  method CreateSemaphore(count: int) returns (s: Semaphore)
    ensures fresh(s)
  {
    s := new Semaphore(count);
  }

  /**
   * The placeholder does not count: on a semaphore of any initial count that
   * nobody has signalled, a timed wait still reports success.
   */
  method TimedWaitWithoutSignal(count: int, timeout: int) returns (acquired: bool)
    ensures acquired
  {
    var s := CreateSemaphore(count);
    acquired := s.WaitTimeout(timeout);
  }
}
