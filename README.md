# blockz, modelled in Dafny

A model of the core of blockz, a Rust library of building blocks for
services. It has three parts.

- **Interruptible futures** (`blockz-futures`): wrappers that race a future
  against a cancel signal (`Cancel`, `TryCancel`, a `CancelHandle` over a
  tokio one-shot channel) or against a timer (`Timeout`, `TryTimeout`,
  `Deadline`, `TryDeadline`).
  - One `poll` of a wrapper is a step function. Its inputs are what the inner
    future and the interrupt source answer when polled (modules `Cancel`,
    `Timeout`).
  - The channel both ends share is a class (`Cancel.Oneshot`).
  - Whole runs of polls are sequences of such answers (module `Race`). Over a
    run, the side that is ready first wins, and a tie goes to the future.
- **The singleton derive** (`blockz_derive/src/singleton`): the proc-macro
  code that rewrites the methods of a singleton into two functions:
  - a private *impl fn*, renamed by kind, with its inputs cut down and its
    block rewritten by a replacement legend (module `ImplFn`);
  - a public *facade fn* that loses its receiver, gains `#[inline(always)]`
    and hands over to the singleton (module `FacadeFn`).

  The first draft of both builders is in module `SingletonFns`. Token streams
  and `syn::ItemFn` are in module `Syn`; the item is a class that the
  factories mutate. The lock tokens are in module `Lock`.

  What the generated `Singleton` impl does when it runs is a class,
  `DeriveTrait.SingletonCell`: a once-cell that is set at most once and
  whose `use_*` functions panic until it is set. The older draft of the
  expansion is in module `SingletonDraft`.
- **Configuration** (`blockz_derive/src/configuration`, `src/configuration.rs`):
  - the env and envy configuration factories, which choose the derived impl's
    `Opts` type and the argument it forwards to the backend's `load`
    (modules `EnvFactory`, `EnvyFactory` and `DeriveCommon`);
  - the runtime loads of direct and env configurations, and the blanket
    "easy" load with default options (module `Configuration`).

How the code generators are modelled:

- They build `proc_macro2::TokenStream`s. Here a stream is a sequence of
  token trees (`Syn.TokenTree`).
- `syn`'s parsers are parameters: `Syn.BlockParser` for blocks and
  `EnvFactory.ExprParser` for expressions. Every statement about a parse is
  made for whatever parser is given.
- A panic of the macro is an `Err(Panic(...))` result.
- The `SingletonLock` default is `Lock.Default`, the mutex. As it is a
  constant, it has no row below.

## Model

| member | source | states |
|---|---|---|
| Cancel.CancelPoll | blockz-futures/src/cancel.rs:56-68 | a ready inner future gives `Ok(value)` whatever the cancel source says; `Canceled` exactly when the future is pending and the cancel source is ready; pending exactly when both are pending |
| Cancel.TryCancelPoll | blockz-futures/src/cancel.rs:115-130 | the inner `Ok(v)` gives `Ok(v)`, the inner `Err(e)` gives `MaybeCanceled::Error(e)`; `Canceled` exactly when the future is pending and the cancel source is ready; pending exactly when both are pending |
| Cancel.TryCancelKeepsErrorsApart | blockz-futures/src/cancel.rs:115-130 | `Error(e)` comes out exactly when the inner future failed with `e`, and `Canceled` only when the inner future was pending |
| Cancel.TryCancelAgreesWithCancel | blockz-futures/src/cancel.rs:115-130 | on futures that do not fail, `TryCancel` is pending and ready with `Ok(v)` exactly when `Cancel` is |
| Cancel.Oneshot.constructor | blockz-futures/src/cancel.rs:34 | a fresh channel has both halves alive and nothing sent |
| Cancel.Oneshot.PollRecv | blockz-futures/src/cancel.rs:147-151 | the receiver is ready exactly once the sender has sent or has been dropped, and yields the value exactly when it was sent |
| Cancel.Oneshot.Send | blockz-futures/src/cancel.rs:168 | sending consumes the sender and succeeds exactly when the receiver is still alive; the receiver is unchanged |
| Cancel.Oneshot.DropSender | blockz-futures/src/cancel.rs:155 | dropping the sender marks it dropped and leaves the receiver alone |
| Cancel.Oneshot.DropReceiver | blockz-futures/src/cancel.rs:135 | dropping the receiver marks it dropped and leaves the sender alone |
| Cancel.CancelChannelFuture.constructor | blockz-futures/src/cancel.rs:139-141 | the future wraps exactly the given receiver |
| Cancel.CancelChannelFuture.Poll | blockz-futures/src/cancel.rs:147-151 | ready exactly when the sender has sent or has been dropped, since the receive error is mapped to `()` too |
| Cancel.CancelHandle.constructor | blockz-futures/src/cancel.rs:159-161 | the handle owns exactly the given sender |
| Cancel.CancelHandle.Cancel | blockz-futures/src/cancel.rs:163-169 | returns true exactly when the wrapper's receiver is still alive; the sender is then sent, otherwise dropped |
| Cancel.CancelHandle.Drop | blockz-futures/src/cancel.rs:155 | dropping the handle drops the sender, which makes the receiver ready |
| Cancel.Cancel.WithCancelChannel | blockz-futures/src/cancel.rs:40-43 | the wrapper's cancel source is a fresh channel future over the given receiver |
| Cancel.Cancel.Poll | blockz-futures/src/cancel.rs:56-68 | one poll is `CancelPoll` of the inner answer and of the channel future's poll |
| Cancel.Cancel.Drop | blockz-futures/src/cancel.rs:24-29 | dropping the wrapper drops its receiver and leaves the sender alone |
| Cancel.TryCancel.WithCancelChannel | blockz-futures/src/cancel.rs:96-99 | the wrapper's cancel source is a fresh channel future over the given receiver |
| Cancel.TryCancel.Poll | blockz-futures/src/cancel.rs:115-130 | one poll is `TryCancelPoll` of the inner answer and of the channel future's poll |
| Cancel.TryCancel.Drop | blockz-futures/src/cancel.rs:80-85 | dropping the wrapper drops its receiver and leaves the sender alone |
| Cancel.NewCancel | blockz-futures/src/cancel.rs:33-37 | the wrapper and the handle share one fresh channel, with both halves alive |
| Cancel.NewTryCancel | blockz-futures/src/cancel.rs:89-93 | the wrapper and the handle share one fresh channel, with both halves alive |
| Cancel.CancelWhilePending | blockz-futures/src/cancel.rs:56-68 | a pending wrapper that is canceled reports delivery, and its next poll is `Canceled` |
| Cancel.CancelAfterCompletion | blockz-futures/src/cancel.rs:163-169 | a completed wrapper gives `Ok(v)`; once it is dropped, a late `cancel` returns false |
| Cancel.Cancel.PollClosing | blockz-futures/src/cancel.rs:163-166 | one poll is `CancelPoll`, and a ready wrapper closes its receiver while a pending one keeps it open |
| Cancel.CompletionThenCancel | blockz-futures/src/cancel.rs:163-169 | with the wrapper still held, `cancel` after any poll reports delivery, finished or not |
| Cancel.CompletionThenCancelClosing | blockz-futures/src/cancel.rs:163-166 | with `PollClosing`, `cancel` after a poll reports delivery exactly when that poll was pending |
| Cancel.CancelAfterCompletionHeld | blockz-futures/src/cancel.rs:163-169 | a wrapper that finished with `Ok(v)` and is still held: the late `cancel` returns true |
| Cancel.CancelAfterCompletionClosed | blockz-futures/src/cancel.rs:163-166 | the same run with `PollClosing`: the late `cancel` returns false |
| Cancel.CancelAndCompletionTogether | blockz-futures/src/cancel.rs:61-62 | a delivered cancel does not hide a value that is ready at the same poll |
| Cancel.DroppedHandleCancels | blockz-futures/src/cancel.rs:147-151 | dropping the handle unused makes a pending `TryCancel` report `Canceled` |
| Timeout.TimeoutPoll | blockz-futures/src/timeout.rs:43-55 | pending exactly when the inner timeout is; a finished future gives its value; `TimedOut` exactly when the timer fired |
| Timeout.TryTimeoutPoll | blockz-futures/src/timeout.rs:82-97 | the future's `Ok`/`Err` pass through as `Ok`/`Error`; `TimedOut` exactly when the future is pending and the timer fired; pending otherwise |
| Timeout.DeadlineIsTimeout | blockz-futures/src/timeout.rs:118-130 | `Deadline::poll` maps every answer exactly as `Timeout::poll` does |
| Timeout.TryDeadlineIsTryTimeout | blockz-futures/src/timeout.rs:157-172 | `TryDeadline::poll` decides exactly as `TryTimeout::poll` on every pair of answers |
| Timeout.TryTimeoutIgnoresTimerWhenReady | blockz-futures/src/timeout.rs:87-91 | once the future is ready, the outcome is ready and does not depend on the timer |
| Timeout.TryTimeoutKeepsErrorsApart | blockz-futures/src/timeout.rs:82-97 | `Error(e)` exactly when the future failed with `e`; `TimedOut` only when it was pending |
| Race.DriveCancel | blockz-futures/src/cancel.rs:56-68 | a run's outcome is at a poll inside the run whose step function gives that outcome |
| Race.CancelRace | blockz-futures/src/cancel.rs:61-66 | future first ready at `tf`, cancel at `tc`: `Ok` at `tf` when `tf <= tc`, `Canceled` at `tc` when `tc < tf`, no outcome when neither comes |
| Race.DriveTryTimeout | blockz-futures/src/timeout.rs:82-97 | a run's outcome is at a poll inside the run whose step function gives that outcome |
| Race.TryTimeoutRace | blockz-futures/src/timeout.rs:87-96 | the future's own result, error included, at `tf` when `tf <= tt`; `TimedOut` at `tt` when the timer fires first; no outcome when neither comes |
| Race.CancelAroundTimeout | blockz-futures/examples/extensions_multiple_interrupts.rs:14-25 | `timeout` inside `with_cancel_handle`: value `Ok(Ok(v))`, timeout `Ok(Err(TimedOut))`, cancel `Err(Canceled)` only while the timeout is pending |
| Syn.ItemFn.Clone | blockz_derive/src/singleton/impl_fn.rs:173 | the clone is a fresh item with the same attributes, visibility, name, inputs and block |
| SingletonFns.SingletonFnType.Arg | blockz_derive/src/singleton/impl_fn.rs:59-65 | a kind has a forwarded argument exactly when it is one of the two with-arg kinds |
| SingletonFns.WithoutReceivers | blockz_derive/src/singleton/singleton_fns.rs:72-84 | only typed inputs remain, every typed input remains, and nothing new appears |
| SingletonFns.WithoutReceiversConcat | blockz_derive/src/singleton/singleton_fns.rs:72-84 | the filter keeps order: it distributes over concatenation |
| SingletonFns.WithoutReceiversKeepsTyped | blockz_derive/src/singleton/singleton_fns.rs:72-84 | inputs without receivers pass unchanged, so filtering is idempotent |
| SingletonFns.ReceiverThenTyped | blockz_derive/src/singleton/singleton_fns.rs:60-85 | a leading receiver followed by typed inputs leaves exactly the typed inputs |
| SingletonFns.RenameFn | blockz_derive/src/singleton/singleton_fns.rs:88-90 | the name becomes the given one; nothing else changes |
| SingletonFns.ReplaceFnBlock | blockz_derive/src/singleton/singleton_fns.rs:95-103 | the block becomes the parse of the given tokens; a parse error panics with `Failed to parse replacement block: ` and the rendered tokens, and leaves the block; nothing else changes |
| SingletonFns.RemoveFnReceiver | blockz_derive/src/singleton/singleton_fns.rs:60-85 | no inputs panics with the `expect` message, a typed first input panics with the receiver message, and otherwise exactly the typed inputs are kept |
| SingletonFns.ImplSingletonFn | blockz_derive/src/singleton/singleton_fns.rs:24-36 | a fresh private copy named `blockz_singleton_fn_` + the base name, with everything else as in the base |
| SingletonFns.DraftFacadeBlock | blockz_derive/src/singleton/singleton_fns.rs:47-54 | the block imports `blockz::singleton::Singleton` and awaits `Self::use_singleton(Self::<impl fn>)` |
| SingletonFns.ImplSingletonFnFacade | blockz_derive/src/singleton/singleton_fns.rs:39-57 | the same panics as `remove_fn_receiver`, then the replacement-block panic when the facade block does not parse; otherwise a fresh copy with the base's name, visibility and attributes, the typed inputs and the parsed block calling the impl fn |
| ImplFn.Prefix | blockz_derive/src/singleton/impl_fn.rs:40-55 | every impl fn prefix starts with `blockz_singleton_fn_` |
| ImplFn.PrefixesDistinct | blockz_derive/src/singleton/impl_fn.rs:19-25 | two kinds get the same prefix exactly when they are the same variant |
| ImplFn.RenameInjective | blockz_derive/src/singleton/impl_fn.rs:40-55 | within one kind, different base names give different impl fn names |
| ImplFn.RenameCollidesAcrossKinds | blockz_derive/src/singleton/impl_fn.rs:19-25 | across kinds, names collide: the non-mut impl fn of `mut_get` is the mut impl fn of `get` |
| ImplFn.PrefixFreeRenameInjective | blockz_derive/src/singleton/impl_fn.rs:19-25 | with prefix-free prefixes, two impl fn names are equal exactly when the kinds are the same variant and the base names are equal |
| ImplFn.FixedFnArgs | blockz_derive/src/singleton/impl_fn.rs:58-77 | kinds without an argument keep the inputs; otherwise the first input, if any, followed by the built input, or the builder's error |
| ImplFn.ApplyReplaceLegend | blockz_derive/src/singleton/impl_fn.rs:80-100 | the rewriting maps each token tree to one token tree |
| ImplFn.ReplaceTree | blockz_derive/src/singleton/impl_fn.rs:82-98 | an identifier in the legend becomes an invisible group of its value; other identifiers, punctuation and literals are kept; a group keeps its delimiter and its length |
| ImplFn.ApplyReplaceLegendConcat | blockz_derive/src/singleton/impl_fn.rs:80-100 | the rewriting distributes over concatenation |
| ImplFn.ApplyWithoutMatches | blockz_derive/src/singleton/impl_fn.rs:84-89 | a stream in which the legend names no identifier, at any depth, is unchanged |
| ImplFn.ReplaceTreeWithoutMatches | blockz_derive/src/singleton/impl_fn.rs:82-98 | a token tree in which the legend names no identifier is unchanged |
| ImplFn.EmptyLegendIsIdentity | blockz_derive/src/singleton/impl_fn.rs:80-100 | an empty legend changes nothing |
| ImplFn.ApplyIdents | blockz_derive/src/singleton/impl_fn.rs:80-100 | every identifier after the rewriting was an unnamed one of the stream or comes from a legend value |
| ImplFn.ReplaceTreeIdents | blockz_derive/src/singleton/impl_fn.rs:82-98 | the same bound on the identifiers of one rewritten token tree |
| ImplFn.ApplyIdempotentWhenValuesAreClean | blockz_derive/src/singleton/impl_fn.rs:84-89 | when no legend value mentions a key, rewriting twice is rewriting once |
| ImplFn.ReplacementIsNotRescanned | blockz_derive/src/singleton/impl_fn.rs:84-89 | a value that mentions its own key is inserted as is, and a second rewriting differs from the first |
| ImplFn.FixedFnBlock | blockz_derive/src/singleton/impl_fn.rs:103-164 | without a legend the block is kept; with one, the result is the parse of the rewritten block, error included |
| ImplFn.ImplFnFactory.constructor | blockz_derive/src/singleton/impl_fn.rs:35-37 | the factory holds the base and the kind |
| ImplFn.ImplFnFactory.RenameFn | blockz_derive/src/singleton/impl_fn.rs:40-55 | the name gets the kind's prefix; nothing else changes |
| ImplFn.ImplFnFactory.FixFnArgs | blockz_derive/src/singleton/impl_fn.rs:58-77 | the inputs become `FixedFnArgs`; on its error the inputs are unchanged |
| ImplFn.ImplFnFactory.FixFnBlock | blockz_derive/src/singleton/impl_fn.rs:103-164 | the block becomes `FixedFnBlock`; on its error the block is unchanged |
| ImplFn.ImplFnFactory.MakeFnPrivate | blockz_derive/src/singleton/impl_fn.rs:167-169 | the visibility becomes inherited; nothing else changes |
| ImplFn.ImplFnFactory.Build | blockz_derive/src/singleton/impl_fn.rs:171-184 | the argument error comes first, then the block error; otherwise a fresh private item with the prefixed name, the fixed inputs and the fixed block |
| FacadeFn.SelfCallAwaitInjective | blockz_derive/src/singleton/facade_fn.rs:139-166 | the called method and its arguments can be read back from a `Self::m(args).await` statement |
| FacadeFn.BuildUseSingletonStmt | blockz_derive/src/singleton/facade_fn.rs:139-143 | calls `use_singleton` with no arguments |
| FacadeFn.BuildUseSingletonWithArgStmt | blockz_derive/src/singleton/facade_fn.rs:146-151 | calls `use_singleton_with_arg` with the argument's call tokens |
| FacadeFn.BuildUseMutSingletonStmt | blockz_derive/src/singleton/facade_fn.rs:154-158 | calls `use_mut_singleton` with no arguments |
| FacadeFn.BuildUseMutSingletonWithArgStmt | blockz_derive/src/singleton/facade_fn.rs:161-166 | calls `use_mut_singleton_with_arg` with the argument's call tokens |
| FacadeFn.UseStmtByKind | blockz_derive/src/singleton/facade_fn.rs:173-178 | each kind calls the method named by its traits, `mut` for mutable and `with_arg` for an argument, with the argument's call tokens exactly when it has one |
| FacadeFn.UseStmtDistinguishesKinds | blockz_derive/src/singleton/facade_fn.rs:173-178 | two kinds give the same statement exactly when they are the same variant forwarding the same call tokens |
| FacadeFn.FacadeBlock | blockz_derive/src/singleton/facade_fn.rs:169-188 | the block imports `::blockz::singleton::Singleton` and ends with the kind's statement |
| FacadeFn.FacadeFnFactory.constructor | blockz_derive/src/singleton/facade_fn.rs:29-35 | the factory holds the base, the kind and the impl fn |
| FacadeFn.FacadeFnFactory.RemoveFnReceiver | blockz_derive/src/singleton/facade_fn.rs:40-85 | no inputs and a typed first input are the factory's two errors; otherwise exactly the typed inputs are kept |
| FacadeFn.FacadeFnFactory.ReplaceFnBlock | blockz_derive/src/singleton/facade_fn.rs:88-110 | the block becomes the parsed replacement; a parse error gives the factory's message with the rendered block, and the block is unchanged |
| FacadeFn.FacadeFnFactory.AddInlineAlwaysAttr | blockz_derive/src/singleton/facade_fn.rs:113-136 | exactly `#[inline(always)]` is appended to the attributes |
| FacadeFn.FacadeFnFactory.BuildFacadeImpl | blockz_derive/src/singleton/facade_fn.rs:169-188 | the block becomes the parsed facade block of the kind, or the replace error |
| FacadeFn.FacadeFnFactory.Build | blockz_derive/src/singleton/facade_fn.rs:191-202 | receiver errors first, then the block error; otherwise a fresh item with the base's name and visibility, `#[inline(always)]` appended, the typed inputs and the facade block |
| Lock.ToType | blockz_derive/src/singleton/lock.rs:31-37 | `::tokio::sync::Mutex<inner>` or `::tokio::sync::RwLock<inner>` according to the lock |
| Lock.ToNewLockExpr | blockz_derive/src/singleton/lock.rs:40-46 | `::tokio::sync::<lock>::new(inner)` according to the lock |
| Lock.ToGuard | blockz_derive/src/singleton/lock.rs:49-54 | `lock().await` on a mutex, `read().await` on a read-write lock |
| Lock.ToMutGuard | blockz_derive/src/singleton/lock.rs:57-62 | `lock().await` on a mutex, `write().await` on a read-write lock |
| Lock.TypeAndExprAgree | blockz_derive/src/singleton/lock.rs:31-46 | the type and the constructor expression name the same lock, and each determines the lock |
| Lock.GuardsCoincideIffMutex | blockz_derive/src/singleton/lock.rs:49-62 | the shared and the exclusive guard are the same exactly on a mutex |
| DeriveTrait.AlreadyInitializedMessage | blockz_derive/src/singleton/derive_trait.rs:37-38 | the message starts with the type name |
| DeriveTrait.AlreadyInitializedMessageInjective | blockz_derive/src/singleton/derive_trait.rs:37-38 | two types get the same message exactly when they are the same type |
| DeriveTrait.SingletonCell.constructor | blockz_derive/src/singleton.rs:17-18 | the static starts as an empty once-cell |
| DeriveTrait.SingletonCell.InitSingleton | blockz_derive/src/singleton/derive_trait.rs:47-53 | the first call stores the value and succeeds; every later call fails with the message and keeps the stored value |
| DeriveTrait.SingletonCell.UseSingleton | blockz_derive/src/singleton/derive_trait.rs:76-84 | the closure's result on the stored value; panics on an empty cell |
| DeriveTrait.SingletonCell.UseMutSingleton | blockz_derive/src/singleton/derive_trait.rs:107-115 | the closure's result; its change to the value is kept; panics on an empty cell |
| DeriveTrait.SingletonCell.UseSingletonWithArg | blockz_derive/src/singleton/derive_trait.rs:138-147 | the closure's result on the stored value and the argument; panics on an empty cell |
| DeriveTrait.SingletonCell.UseMutSingletonWithArg | blockz_derive/src/singleton/derive_trait.rs:170-179 | the closure's result on the value and the argument, with its change kept; panics on an empty cell |
| DeriveTrait.NewSingleton | blockz_derive/src/singleton/derive_trait.rs:28-56 | a fresh empty cell whose second initialisation fails with the type's message |
| DeriveTrait.InitTwiceKeepsFirst | blockz_derive/src/singleton/derive_trait.rs:47-53 | the first init succeeds, the second fails with the type's message, and the first value is the one used afterwards |
| DeriveTrait.UseBeforeInitPanics | blockz_derive/src/singleton/derive_trait.rs:81 | all four `use_*` functions panic before initialisation |
| DeriveTrait.MutationIsVisible | blockz_derive/src/singleton/derive_trait.rs:112-114 | a change made through the mutable use is what later shared uses see |
| SingletonDraft.DraftMessageIgnoresTypeName | blockz_derive/src/singleton.rs:230 | two different type names get the same draft message but different derive messages |
| SingletonDraft.NewDraftSingleton | blockz_derive/src/singleton.rs:9-20 | a fresh empty cell whose second initialisation fails with the draft's literal message |
| SingletonDraft.DraftInitTwiceKeepsFirst | blockz_derive/src/singleton.rs:228-233 | the first init succeeds, the second fails with `#type_name: singleton: already initialized`, and uses see the first value and the argument |
| SingletonDraft.DraftUseBeforeInitPanics | blockz_derive/src/singleton.rs:23-94 | all four draft `use_*` functions panic before initialisation |
| DeriveCommon.OptsType.Tokens | blockz_derive/src/configuration/env.rs:48-56 | the `Opts` tokens are `()` exactly for the unit type |
| DeriveCommon.LoadArg.Tokens | blockz_derive/src/configuration/env.rs:60-73 | the load argument is the bare `opts` exactly when the options are forwarded |
| EnvFactory.EnvConfigurationFactory.GetConfigurationImplOpts | blockz_derive/src/configuration/env.rs:43-57 | `Opts` is `()` exactly when `prefix` or `prefix_source` is set, and `EnvConfiguration`'s `Opts` otherwise |
| EnvFactory.EnvConfigurationFactory.GetConfigurationImplLoadArg | blockz_derive/src/configuration/env.rs:59-75 | the prefix literal when `prefix` is set; otherwise the parsed `prefix_source`, or its parse error with the factory's message; otherwise `opts` |
| EnvFactory.EnvConfigurationFactory.Build | blockz_derive/src/configuration/env.rs:82-106 | an error exactly when the load argument fails, with its error; otherwise the impl delegating to `EnvConfiguration` with the chosen `Opts` and load argument |
| EnvFactory.NewDyn | blockz_derive/src/configuration/env.rs:38-41 | the factory takes the `env` options, or the defaults when there are none, and the entry is emptied |
| EnvFactory.NewDynWithoutEnv | blockz_derive/src/configuration/env.rs:38-41 | without an `env` entry the factory forwards `EnvConfiguration`'s own `Opts` |
| EnvFactory.ForwardsOptsIffBackendOpts | blockz_derive/src/configuration/env.rs:52-73 | the impl forwards `opts` exactly when its `Opts` is the backend's, so a `()` is never forwarded |
| EnvFactory.PrefixWins | blockz_derive/src/configuration/env.rs:60-62 | with a `prefix`, the impl is the same whatever the expression parser does, and uses that prefix |
| EnvyFactory.EnvyConfigurationFactory.GetConfigurationImplOpts | blockz_derive/src/configuration/envy.rs:32-46 | `Opts` is `()` exactly when `prefix` is set, and `EnvyConfiguration`'s `Opts` otherwise |
| EnvyFactory.EnvyConfigurationFactory.GetConfigurationImplLoadArg | blockz_derive/src/configuration/envy.rs:48-55 | the prefix literal exactly when `prefix` is set, holding that prefix; `opts` otherwise |
| EnvyFactory.EnvyConfigurationFactory.Build | blockz_derive/src/configuration/envy.rs:58-79 | always the impl delegating to `EnvyConfiguration` with the chosen `Opts` and load argument |
| EnvyFactory.ForwardsOptsIffBackendOpts | blockz_derive/src/configuration/envy.rs:41-54 | the impl forwards `opts` exactly when its `Opts` is the backend's |
| Configuration.DirectLoad | src/configuration.rs:93-95 | a direct configuration loads exactly its options |
| Configuration.EnvLoad | src/configuration.rs:118-124 | a prefix selects envy's prefixed read with that prefix; no prefix selects the plain read |
| Configuration.DirectEasyLoadIsLoadOfDefault | src/configuration.rs:36-47 | the easy load of a direct configuration is its load of the default, which is the default |
| Configuration.CallOnceCalls | src/configuration.rs:72-74 | calling an options source once gives the closure's result |
| Configuration.UnitOptsAreIgnored | blockz_derive/src/configuration/env.rs:94-104 | a derived impl with `()` options loads the same whatever options it is given |
| Configuration.DerivedEnvEasyLoad | src/configuration.rs:44-46 | the easy load of a derived env configuration reads under `prefix` when one is set, and without a prefix when neither option is set |

## Left out

- Wakers, `Pin`, the executor and the lock's waiting: the model is sequential, one call at a time. A poll's answers are inputs, and a run of polls is a sequence of answers.
- tokio's timer: its clock, its arithmetic on durations and instants, and whether `tokio::time::Timeout` polls its inner future before its timer. All of these sit inside the answer `Timeout` and `Deadline` receive, so `Timeout::new`, `TryTimeout::new`, `Deadline::new` and `TryDeadline::new` have no member of their own.
- `Cancel::with_cancel` and `TryCancel::with_cancel` (any cancel future): they are the step functions `CancelPoll` and `TryCancelPoll`, which take any cancel answer.
- Timeout.DeadlinePoll and Timeout.TryDeadlinePoll: their own contracts state only when they are pending or ready. The full behaviour is that of `TimeoutPoll` and `TryTimeoutPoll`, proved by `DeadlineIsTimeout` and `TryDeadlineIsTryTimeout`.
- `flatten_interrupt`, `flatten_interrupts`, `ext.rs` (the extension methods, only the nesting of their wrappers in `Race.CancelAroundTimeout`), `lib.rs` and `error.rs` of `blockz-futures` are not part of this model.
- `syn`'s grammar: the parsers are parameters. The `Debug` text of a type is carried as the `ty` string of a typed input, and `Syn.Render` approximates the `Display` of a token stream.
- The other parts of a function signature (generics, output, `async`) are not part of this model, and neither are spans.
- `SingletonFnArg`'s three builders are defined in a file that is not part of this model. What they return is carried as data in `SingletonFns.SingletonFnArg`.
- The `no_absolute_paths` feature: paths are the absolute ones, the default.
- The corrected members of the two findings on `cancel.rs` and `impl_fn.rs` stand beside the code as written: `Cancel.Cancel.Poll` and `ImplFn.ImplFnFactory.RenameFn` keep the source's behaviour.
- `DeriveCommon.StrLit` does not escape quotes or backslashes inside the literal.
- The fixed template of a derived `Configuration` impl: `DeriveCommon.ConfigurationImpl` holds only the parts the factories choose.
- `configuration/mod.rs` (dispatch of the factories), `direct.rs`, and the reading of the environment by envy. The environment is the parameter `Configuration.EnvSource`.
- `EnvFactory.ConfigurationOpts` has the `env` field that `env.rs` takes from. The `mod.rs` in the repository declares only an `envy` field; `env.rs` is followed.
- `SingletonDraft`: the draft's expansion is modelled by its runtime behaviour only. Its `boxes` variant, selected by a cargo feature, is not part of this model.
- FacadeFn.BuildUseSingletonStmt and FacadeFn.BuildUseMutSingletonStmt: modelled as written. They call `use_singleton()` and `use_mut_singleton()` with no argument, although the `Singleton` trait takes a closure; the draft in `singleton_fns.rs` passes the impl fn.
- Configuration.EasyLoad, Configuration.CallOnce and Configuration.DerivedEnvLoad carry no contract of their own; the lemmas in the table state their properties.

## Findings

| source | as written | input that shows it | evidently intended | confidence | as-written member | corrected member |
|---|---|---|---|---|---|---|
| blockz_derive/src/singleton.rs:230 | the message is the literal `"#type_name: singleton: already initialized"`; `quote!` does not interpolate inside a string literal | type names `A` and `B`: both get the same message | the message names the type, as `derive_trait.rs` builds it with `format!` | high, not executed | SingletonDraft.DraftMessageIgnoresTypeName | DeriveTrait.AlreadyInitializedMessageInjective |
| blockz-futures/src/cancel.rs:163-169 | `cancel` returns `send(()).is_ok()`, which is true while the wrapper holds its receiver, finished or not | poll the wrapper to `Ready(Ok(v))`, keep it, then call `cancel`: it returns true | as its documentation says, false once the future has finished: the wrapper closes its receiver on completion | medium, not executed | Cancel.CancelAfterCompletionHeld | Cancel.CancelAfterCompletionClosed |
| blockz_derive/src/singleton/impl_fn.rs:19-25 | `blockz_singleton_fn_` is a prefix of the other three prefixes, so names from different kinds can be the same | a `&self` singleton fn `mut_get` and a `&mut self` singleton fn `get` on one type both get the impl fn `blockz_singleton_fn_mut_get` | impl fn names that never collide: prefixes none of which starts another | high, not executed | ImplFn.RenameCollidesAcrossKinds | ImplFn.PrefixFreeRenameInjective |
