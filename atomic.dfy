/**
 * `Atomic<T, K>` of the `Atomic` package: one value behind a lock strategy `K`.
 *
 * The strategy (mutex, read-write lock, unfair lock, serial queue) is modelled only
 * as a bracket: a ghost `held` flag that a section sets on entry and clears on exit,
 * and a ghost log of the sections taken, each tagged read or write.
 */
module Atomic {

  /** The kind of lock section an operation takes. */
  datatype LockKind = ReadSection | WriteSection

  class Atomic<T> {
    var value: T
    ghost var held: bool
    /** Completed lock sections, oldest first. */
    ghost var sections: seq<LockKind>

    /** Outside an operation the lock is free. */
    ghost predicate Valid()
      reads this
    {
      !held
    }

    constructor (v: T)
      ensures Valid() && value == v && sections == []
    {
      value := v;
      held := false;
      sections := [];
    }

    /** Entering a section of the lock strategy. */
    method Acquire()
      requires !held
      modifies this`held
      ensures held
    {
      held := true;
    }

    /** Leaving a section; the strategy releases on every exit path. */
    method Release(kind: LockKind)
      requires held
      modifies this`held, this`sections
      ensures !held && sections == old(sections) + [kind]
    {
      held := false;
      sections := sections + [kind];
    }

    method Write(v: T)
      requires Valid()
      modifies this
      ensures Valid() && value == v
      ensures sections == old(sections) + [WriteSection]
    {
      Acquire();
      value := v;
      Release(WriteSection);
    }

    method Read() returns (v: T)
      requires Valid()
      modifies this`held, this`sections
      ensures Valid() && v == value && value == old(value)
      ensures sections == old(sections) + [ReadSection]
    {
      Acquire();
      v := value;
      Release(ReadSection);
    }

    /** `call` gets the value `inout`: its first component is what it leaves there,
        its second what it returns. */
    method WithWriteLock<E>(call: T -> (T, E)) returns (e: E)
      requires Valid()
      modifies this
      ensures Valid()
      ensures value == call(old(value)).0 && e == call(old(value)).1
      ensures sections == old(sections) + [WriteSection]
    {
      Acquire();
      var (after, result) := call(value);
      value := after;
      e := result;
      Release(WriteSection);
    }

    method WithReadLock<E>(call: T -> E) returns (e: E)
      requires Valid()
      modifies this`held, this`sections
      ensures Valid() && value == old(value) && e == call(value)
      ensures sections == old(sections) + [ReadSection]
    {
      Acquire();
      e := call(value);
      Release(ReadSection);
    }
  }

  /** A `write(v)` followed by a `read()` returns `v`. */
  method WriteThenRead<T>(a: Atomic<T>, v: T) returns (r: T)
    requires a.Valid()
    modifies a
    ensures a.Valid() && r == v && a.value == v
    ensures a.sections == old(a.sections) + [WriteSection, ReadSection]
  {
    a.Write(v);
    r := a.Read();
  }
}
