/**
 * `UnfairLock` and `Atomic<T>` of the `Promises` module.
 *
 * The `os_unfair_lock` itself is modelled by a ghost `held` flag and a ghost count
 * of the sections taken; `withLock` is the bracket `lock(); defer { unlock() }`.
 * The `Atomic` operations pass the `Atomic` itself as the context and mutate it
 * inside the section, which a Dafny function value cannot do, so they take the
 * same bracket with the body written between `Lock` and `Unlock`.
 */
module PromisesAtomic {

  class UnfairLock {
    ghost var held: bool
    /** Sections completed so far. */
    ghost var sections: nat

    constructor ()
      ensures !held && sections == 0
    {
      held := false;
      sections := 0;
    }

    method Lock()
      requires !held
      modifies this`held
      ensures held
    {
      held := true;
    }

    method Unlock()
      requires held
      modifies this
      ensures !held && sections == old(sections) + 1
    {
      held := false;
      sections := sections + 1;
    }

    /** Runs `call` once under the lock and returns its result; the lock is free again after. */
    method WithLock<C, R>(context: C, call: C -> R) returns (r: R)
      requires !held
      modifies this
      ensures !held && r == call(context)
      ensures sections == old(sections) + 1
    {
      Lock();
      r := call(context);
      Unlock();
    }
  }

  class Atomic<T> {
    const lock: UnfairLock
    var value: T

    ghost predicate Valid()
      reads this, lock
    {
      !lock.held
    }

    constructor (v: T)
      ensures Valid() && fresh(lock) && value == v && lock.sections == 0
    {
      lock := new UnfairLock();
      value := v;
    }

    method Read() returns (v: T)
      requires Valid()
      modifies lock
      ensures Valid() && v == value
      ensures lock.sections == old(lock.sections) + 1
    {
      lock.Lock();
      v := value;
      lock.Unlock();
    }

    method Write(v: T)
      requires Valid()
      modifies this, lock
      ensures Valid() && value == v
      ensures lock.sections == old(lock.sections) + 1
    {
      lock.Lock();
      value := v;
      lock.Unlock();
    }

    /** `call` gets the value `inout`: its first component is what it leaves there,
        its second what it returns. */
    method WithWriteLock<E>(call: T -> (T, E)) returns (e: E)
      requires Valid()
      modifies this, lock
      ensures Valid()
      ensures value == call(old(value)).0 && e == call(old(value)).1
      ensures lock.sections == old(lock.sections) + 1
    {
      lock.Lock();
      var (after, result) := call(value);
      value := after;
      e := result;
      lock.Unlock();
    }

    method WithReadLock<E>(call: T -> E) returns (e: E)
      requires Valid()
      modifies lock
      ensures Valid() && e == call(value)
      ensures lock.sections == old(lock.sections) + 1
    {
      lock.Lock();
      e := call(value);
      lock.Unlock();
    }
  }

  /** A `write(v)` followed by a `read()` returns `v`. */
  method WriteThenRead<T>(a: Atomic<T>, v: T) returns (r: T)
    requires a.Valid()
    modifies a, a.lock
    ensures a.Valid() && r == v && a.value == v
  {
    a.Write(v);
    r := a.Read();
  }
}
