/** `Singleton<T>` (src/utils/singleton.h): a class-wide pointer `mPtr` to
    the one instance, created on demand by `get`, replaced by `reset`, and
    dropped by `release`. An instance is identified by a number: 0 is the
    null pointer, and every `new T` takes the next unused number. The
    constructor's `assert(!mPtr)` is recorded, not enforced: a construction
    while `mPtr` is set marks the assertion as violated. */
module Singletons {

  /** The class-wide state: `mPtr`, how many instances were ever built, and
      whether some construction has violated the constructor's assertion. */
  datatype Slot = Slot(instance: nat, built: nat, assertionViolated: bool)

  /** `mPtr` points at a built instance or is null. */
  predicate Valid(s: Slot)
  {
    s.instance <= s.built
  }

  /** `new T`: the next instance, with the constructor's check of `mPtr`. */
  function Construct(s: Slot): (r: Slot)
    ensures r.built == s.built + 1
  {
    Slot(s.instance, s.built + 1, s.assertionViolated || s.instance != 0)
  }

  /** `get()`: the new state and the instance returned. */
  function Get(s: Slot): (Slot, nat)
  {
    if s.instance != 0 then (s, s.instance)
    else
      var t := Construct(s);
      (t.(instance := t.built), t.built)
  }

  /** `reset()` as written: the old instance is deleted, but `mPtr` still
      holds it when `new T` runs. */
  function Reset(s: Slot): Slot
  {
    if s.instance != 0 then
      var t := Construct(s);
      t.(instance := t.built)
    else s
  }

  /** `reset()` with `mPtr` cleared between the delete and the `new T`. */
  function ResetIntended(s: Slot): Slot
  {
    if s.instance != 0 then
      var t := Construct(s.(instance := 0));
      t.(instance := t.built)
    else s
  }

  /** `release()`. */
  function Release(s: Slot): Slot
  {
    s.(instance := 0)
  }

  /** `get()` always returns the current instance, building one only when
      there is none, and keeps the slot valid. */
  lemma GetEffect(s: Slot)
    requires Valid(s)
    ensures Valid(Get(s).0)
    ensures Get(s).1 != 0 && Get(s).0.instance == Get(s).1
    ensures s.instance != 0 ==> Get(s) == (s, s.instance)
    ensures s.instance == 0 ==> Get(s).1 > s.built && Get(s).0.built == s.built + 1
    ensures Get(s).0.assertionViolated == s.assertionViolated
  {
  }

  /** A second `get()` returns the same instance and changes nothing. */
  lemma {:induction false} GetIdempotent(s: Slot)
    ensures Get(Get(s).0) == (Get(s).0, Get(s).1)
  {
    if s.instance == 0 {
      var t := Construct(s);
      assert t.built > 0;
    }
  }

  /** `release()` always leaves `mPtr` null and is idempotent. */
  lemma ReleaseEffect(s: Slot)
    ensures Release(s).instance == 0
    ensures Release(Release(s)) == Release(s)
    ensures Valid(s) ==> Valid(Release(s))
  {
  }

  /** `reset()` does nothing without an instance; with one, it installs a
      fresh instance but violates the constructor's assertion. */
  lemma ResetAsWritten(s: Slot)
    requires Valid(s)
    ensures s.instance == 0 ==> Reset(s) == s
    ensures s.instance != 0 ==> Reset(s).assertionViolated
    ensures s.instance != 0 ==> Reset(s).instance == s.built + 1 && Valid(Reset(s))
  {
  }

  /** The corrected `reset()` differs only in keeping the assertion. */
  lemma ResetIntendedKeepsAssertion(s: Slot)
    requires Valid(s)
    ensures ResetIntended(s).assertionViolated == s.assertionViolated
    ensures ResetIntended(s).(assertionViolated := false) == Reset(s).(assertionViolated := false)
    ensures s.instance != 0 && !s.assertionViolated ==> ResetIntended(s) != Reset(s)
  {
  }

  /** After `release()`, `get()` builds a new instance without violating the
      assertion: the sequence the corrected `reset()` performs. */
  lemma {:induction false} ReleaseThenGet(s: Slot)
    requires Valid(s)
    ensures s.instance != 0 ==> Get(Release(s)).0 == ResetIntended(s)
    ensures Get(Release(s)).0.assertionViolated == s.assertionViolated
  {
    GetEffect(Release(s));
  }

  /** The class-wide `mPtr` of one instantiation `Singleton<T>`. */
  class Singleton {
    var instance: nat
    var built: nat
    var assertionViolated: bool

    function State(): Slot
      reads this
    {
      Slot(instance, built, assertionViolated)
    }

    /** `SINGLETON_INSTANCE(type)`: `mPtr` starts null. */
    constructor()
      ensures State() == Slot(0, 0, false)
    {
      instance, built, assertionViolated := 0, 0, false;
    }

    /** `new T`, including the constructor's `assert(!mPtr)`. */
    method New() returns (id: nat)
      modifies this
      ensures id == built && State() == Construct(old(State()))
    {
      assertionViolated := assertionViolated || instance != 0;
      built := built + 1;
      id := built;
    }

    method GetInstance() returns (r: nat)
      modifies this
      ensures (State(), r) == Get(old(State()))
    {
      if instance != 0 {
        r := instance;
      } else {
        r := New();
        instance := r;
      }
    }

    /** `reset()` as written. */
    method ResetInstance()
      modifies this
      ensures State() == Reset(old(State()))
    {
      if instance != 0 {
        var id := New();
        instance := id;
      }
    }

    method ReleaseInstance()
      modifies this
      ensures State() == Release(old(State()))
    {
      instance := 0;
    }
  }
}
