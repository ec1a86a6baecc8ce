/** The older draft of the singleton expansion
    (`blockz_derive/src/singleton.rs`). Its generated code behaves like the
    derive's, except for the message of a second `init_singleton`: the
    draft writes `#type_name` inside a string literal, where `quote!` does
    not interpolate, so every type gets the same text. */
module SingletonDraft {
  import opened Prelude
  import opened DeriveTrait

  /** The draft's message of a second `init_singleton`, as written. */
  function DraftAlreadyInitializedMessage(typeName: string): string {
    "#type_name: singleton: already initialized"
  }

  /** The draft's message does not name the type: two different types get
      the same message, which the derive's message never does. */
  lemma DraftMessageIgnoresTypeName(a: string, b: string)
    requires a != b
    ensures DraftAlreadyInitializedMessage(a) == DraftAlreadyInitializedMessage(b)
    ensures AlreadyInitializedMessage(a) != AlreadyInitializedMessage(b)
  {
    AlreadyInitializedMessageInjective(a, b);
  }

  /** `impl_singleton_static` and the draft's `init_singleton`: an empty
      once-cell whose second initialisation fails with the draft message. */
  method NewDraftSingleton<T>(typeName: string) returns (s: SingletonCell<T>)
    ensures fresh(s) && s.cell == None
    ensures s.alreadyInitialized == DraftAlreadyInitializedMessage(typeName)
  {
    s := new SingletonCell(DraftAlreadyInitializedMessage(typeName));
  }

  /** With the draft, the first `init_singleton` succeeds, a second fails
      with the literal message and keeps the first value, and the `use_*`
      functions hand the value, or the argument, on unchanged. */
  method DraftInitTwiceKeepsFirst(typeName: string, first: int, second: int, arg: int)
    returns (r1: Result<(), string>, r2: Result<(), string>, seen: Result<int, Panic>, withArg: Result<(int, int), Panic>)
    ensures r1 == Ok(())
    ensures r2 == Err("#type_name: singleton: already initialized")
    ensures seen == Ok(first)
    ensures withArg == Ok((first, arg))
  {
    var s := NewDraftSingleton<int>(typeName);
    r1 := s.InitSingleton(first);
    r2 := s.InitSingleton(second);
    seen := s.UseSingleton(x => x);
    withArg := s.UseSingletonWithArg((x: int, a: int) => (x, a), arg);
  }

  /** With the draft too, every use before initialisation panics. */
  method DraftUseBeforeInitPanics(typeName: string, arg: int)
    returns (r1: Result<int, Panic>, r2: Result<int, Panic>, r3: Result<int, Panic>, r4: Result<int, Panic>)
    ensures r1 == Err(UnwrapNone) && r2 == Err(UnwrapNone)
    ensures r3 == Err(UnwrapNone) && r4 == Err(UnwrapNone)
  {
    var s := NewDraftSingleton<int>(typeName);
    r1 := s.UseSingleton(x => x);
    r2 := s.UseMutSingleton(x => (x, x));
    r3 := s.UseSingletonWithArg((x: int, a: int) => a, arg);
    r4 := s.UseMutSingletonWithArg((x: int, a: int) => (a, x), arg);
  }
}
