/**
 * The Zephyr kernel objects the firmware relies on: the recursive mutex
 * that guards each sensor, and the counting semaphore of the state module.
 *
 * The model is sequential. The only thread that runs is the caller; another
 * thread may hold a mutex only while the caller does not, and whether one
 * does when the caller asks for it is nondeterministic.
 */
module Zephyr {
  /** errno values; the kernel and drivers return them negated. */
  const EAGAIN: int := 11
  const EBUSY: int := 16
  const ENODEV: int := 19

  /** The timeout argument of a blocking kernel call (`K_NO_WAIT`, `K_MSEC(ms)`, `K_FOREVER`). */
  datatype Timeout = NoWait | Millis(ms: nat) | Forever

  /**
   * `struct k_mutex`: `lockCount` is the kernel's own lock count (the
   * owner may lock again, and each lock needs its own unlock);
   * `acquisitions` and `releases` count the successful `k_mutex_lock` and
   * the `k_mutex_unlock` calls made on it.
   */
  class Mutex {
    var lockCount: nat
    var acquisitions: nat
    var releases: nat

    /** `K_MUTEX_DEFINE`: an unlocked mutex. */
    constructor ()
      ensures lockCount == 0 && acquisitions == 0 && releases == 0
    {
      lockCount, acquisitions, releases := 0, 0, 0;
    }

    predicate Held()
      reads this
    {
      lockCount > 0
    }

    /**
     * `k_mutex_lock`: the owner re-locks at once; otherwise the lock is
     * taken unless another thread holds it for the whole timeout, in which
     * case `-EBUSY` (no wait) or `-EAGAIN` (timed out) is returned and
     * nothing changes. With `K_FOREVER` the call always ends up locking.
     */
    method Lock(timeout: Timeout) returns (err: int)
      modifies this
      ensures err == 0 ==> lockCount == old(lockCount) + 1 && acquisitions == old(acquisitions) + 1
      ensures err != 0 ==> lockCount == old(lockCount) && acquisitions == old(acquisitions)
      ensures err != 0 ==> old(lockCount) == 0 && timeout != Forever
      ensures err != 0 ==> err == (if timeout == NoWait then -EBUSY else -EAGAIN)
      ensures releases == old(releases)
    {
      var heldElsewhere: bool := *;
      if lockCount == 0 && heldElsewhere && timeout != Forever {
        err := if timeout == NoWait then -EBUSY else -EAGAIN;
      } else {
        lockCount := lockCount + 1;
        acquisitions := acquisitions + 1;
        err := 0;
      }
    }

    /**
     * `k_mutex_unlock` by the owner. The kernel's error returns for an
     * unlock without a lock are not modelled: the precondition makes the
     * verifier show that every unlock matches a lock.
     */
    method Unlock()
      requires lockCount > 0
      modifies this
      ensures lockCount == old(lockCount) - 1
      ensures releases == old(releases) + 1 && acquisitions == old(acquisitions)
    {
      lockCount := lockCount - 1;
      releases := releases + 1;
    }
  }

  /** `struct k_sem` with its count and limit. */
  class Semaphore {
    var count: nat
    const limit: nat

    /** `K_SEM_DEFINE(name, initial, limit)`. */
    constructor (initial: nat, limit: nat)
      requires initial <= limit
      ensures count == initial && this.limit == limit && Valid()
    {
      count := initial;
      this.limit := limit;
    }

    predicate Valid()
      reads this
    {
      count <= limit
    }

    /** `k_sem_give`: the count grows by one unless it is at the limit. */
    method Give()
      requires Valid()
      modifies this
      ensures Valid()
      ensures count == if old(count) < limit then old(count) + 1 else old(count)
    {
      if count < limit {
        count := count + 1;
      }
    }

    /** `k_sem_take(sem, K_NO_WAIT)`: takes a unit if there is one, else `-EBUSY`. */
    method TryTake() returns (err: int)
      requires Valid()
      modifies this
      ensures Valid()
      ensures old(count) > 0 ==> err == 0 && count == old(count) - 1
      ensures old(count) == 0 ==> err == -EBUSY && count == 0
    {
      if count > 0 {
        count := count - 1;
        err := 0;
      } else {
        err := -EBUSY;
      }
    }
  }
}
