/** What the `Singleton` implementation generated by
    `blockz_derive/src/singleton/derive_trait.rs` does when it runs. The
    static behind it is a `OnceCell` holding the value under a lock:
    `init_singleton` sets it at most once, and the `use_*` functions unwrap
    it, take the lock and run the closure on the value. The lock only
    serialises callers; one call at a time is modelled. */
module DeriveTrait {
  import opened Prelude

  /** The message of a second `init_singleton`. */
  function AlreadyInitializedMessage(typeName: string): (m: string)
    ensures typeName <= m
  {
    typeName + ": singleton: already initialized"
  }

  /** The message names the type, and different types get different
      messages. */
  lemma AlreadyInitializedMessageInjective(a: string, b: string)
    ensures AlreadyInitializedMessage(a) == AlreadyInitializedMessage(b) <==> a == b
  {
    if AlreadyInitializedMessage(a) == AlreadyInitializedMessage(b) {
      assert |a| == |b|;
      assert a == AlreadyInitializedMessage(a)[..|a|];
      assert b == AlreadyInitializedMessage(b)[..|b|];
    }
  }

  /** The panic of `unwrap` on an empty `OnceCell`. */
  const UnwrapNone: Panic := Panic("called `Option::unwrap()` on a `None` value")

  /** The singleton static of one type: the once-cell and the message its
      `init_singleton` fails with. */
  class SingletonCell<T> {
    const alreadyInitialized: string
    var cell: Option<T>

    /** The static starts as an empty `OnceCell`. */
    constructor (alreadyInitialized: string)
      ensures this.alreadyInitialized == alreadyInitialized && cell == None
    {
      this.alreadyInitialized := alreadyInitialized;
      cell := None;
    }

    /** `init_singleton`: the first call stores the value; every later call
      fails and leaves the stored value alone. */
    method InitSingleton(inner: T) returns (r: Result<(), string>)
      modifies this
      ensures old(cell).None? ==> r == Ok(()) && cell == Some(inner)
      ensures old(cell).Some? ==> r == Err(alreadyInitialized) && cell == old(cell)
    {
      if cell.Some? {
        return Err(alreadyInitialized);
      }
      cell := Some(inner);
      r := Ok(());
    }

    /** `use_singleton`: the closure's result for the stored value, which is
      only read; an uninitialised singleton panics. */
    method UseSingleton<R>(clojure: T -> R) returns (r: Result<R, Panic>)
      ensures cell.None? ==> r == Err(UnwrapNone)
      ensures cell.Some? ==> r == Ok(clojure(cell.value))
    {
      if cell.None? {
        return Err(UnwrapNone);
      }
      r := Ok(clojure(cell.value));
    }

    /** `use_mut_singleton`: the closure may change the stored value, and the
      change stays; an uninitialised singleton panics. The closure is given
      as the new value and the result it computes from the old one. */
    method UseMutSingleton<R>(clojure: T -> (T, R)) returns (r: Result<R, Panic>)
      modifies this
      ensures old(cell).None? ==> r == Err(UnwrapNone) && cell == None
      ensures old(cell).Some? ==> r == Ok(clojure(old(cell).value).1) && cell == Some(clojure(old(cell).value).0)
    {
      if cell.None? {
        return Err(UnwrapNone);
      }
      var (inner, result) := clojure(cell.value);
      cell := Some(inner);
      r := Ok(result);
    }

    /** `use_singleton_with_arg`: as `use_singleton`, with `arg` handed on to
      the closure as it is. */
    method UseSingletonWithArg<A, R>(clojure: (T, A) -> R, arg: A) returns (r: Result<R, Panic>)
      ensures cell.None? ==> r == Err(UnwrapNone)
      ensures cell.Some? ==> r == Ok(clojure(cell.value, arg))
    {
      if cell.None? {
        return Err(UnwrapNone);
      }
      r := Ok(clojure(cell.value, arg));
    }

    /** `use_mut_singleton_with_arg`: as `use_mut_singleton`, with `arg`
      handed on to the closure as it is. */
    method UseMutSingletonWithArg<A, R>(clojure: (T, A) -> (T, R), arg: A) returns (r: Result<R, Panic>)
      modifies this
      ensures old(cell).None? ==> r == Err(UnwrapNone) && cell == None
      ensures old(cell).Some? ==> r == Ok(clojure(old(cell).value, arg).1) && cell == Some(clojure(old(cell).value, arg).0)
    {
      if cell.None? {
        return Err(UnwrapNone);
      }
      var (inner, result) := clojure(cell.value, arg);
      cell := Some(inner);
      r := Ok(result);
    }
  }

  /** The singleton static of the type `typeName`, as the derive creates it. */
  method NewSingleton<T>(typeName: string) returns (s: SingletonCell<T>)
    ensures fresh(s) && s.cell == None
    ensures s.alreadyInitialized == AlreadyInitializedMessage(typeName)
  {
    s := new SingletonCell(AlreadyInitializedMessage(typeName));
  }

  /** A second `init_singleton` fails with the type's message, and later uses
      still see the first value. */
  method InitTwiceKeepsFirst<T>(typeName: string, first: T, second: T) returns (r1: Result<(), string>, r2: Result<(), string>, seen: Result<T, Panic>)
    ensures r1 == Ok(())
    ensures r2 == Err(AlreadyInitializedMessage(typeName))
    ensures seen == Ok(first)
  {
    var s := NewSingleton<T>(typeName);
    r1 := s.InitSingleton(first);
    r2 := s.InitSingleton(second);
    seen := s.UseSingleton(x => x);
  }

  /** Every `use_*` on a singleton that was never initialised panics. */
  method UseBeforeInitPanics<T, A, R>(typeName: string, f: T -> R, g: T -> (T, R), h: (T, A) -> R, k: (T, A) -> (T, R), arg: A)
    returns (r1: Result<R, Panic>, r2: Result<R, Panic>, r3: Result<R, Panic>, r4: Result<R, Panic>)
    ensures r1 == Err(UnwrapNone) && r2 == Err(UnwrapNone)
    ensures r3 == Err(UnwrapNone) && r4 == Err(UnwrapNone)
  {
    var s := NewSingleton<T>(typeName);
    r1 := s.UseSingleton(f);
    r2 := s.UseMutSingleton(g);
    r3 := s.UseSingletonWithArg(h, arg);
    r4 := s.UseMutSingletonWithArg(k, arg);
  }

  /** A change made through `use_mut_singleton` is what the next
      `use_singleton` sees; `use_singleton` itself changes nothing. */
  method MutationIsVisible(typeName: string, start: int, delta: int) returns (before: Result<int, Panic>, updated: Result<int, Panic>, after: Result<int, Panic>, again: Result<int, Panic>)
    ensures before == Ok(start)
    ensures updated == Ok(start)
    ensures after == Ok(start + delta)
    ensures again == Ok(start + delta)
  {
    var s := NewSingleton<int>(typeName);
    var _ := s.InitSingleton(start);
    before := s.UseSingleton(x => x);
    updated := s.UseMutSingletonWithArg((x: int, d: int) => (x + d, x), delta);
    after := s.UseSingleton(x => x);
    again := s.UseSingletonWithArg((x: int, d: int) => x, delta);
  }
}
